/** internal/store: the tables as an object whose methods change rows in place. Every
    method is proved to do exactly one statement of the step system, and to keep what
    the schema's unique indexes and the approval pairing promise. */
module Storage {
  import opened Base
  import opened Text
  import opened Ingest
  import opened Model
  import opened Grounding
  import opened Tables
  import opened System

  datatype ApproveResult = Decided | InvalidDecision | MessageNotFound | NotPending | NoSuchActor

  datatype ResolveResult = Resolved(enquiry: nat, contact: nat) | InvalidResolution | NotFoundOrResolved

  function VerdictOf(decision: string): Option<Verdict> {
    if decision == "approved" then Some(Approved)
    else if decision == "approved_with_edit" then Some(ApprovedWithEdit)
    else if decision == "rejected" then Some(Rejected)
    else None
  }

  function ResolutionOf(s: string): Option<Resolution> {
    if s == "attached" then Some(Attached) else if s == "separate" then Some(Separate) else None
  }

  lemma AttachedOrSeparate(s: string)
    ensures ResolutionOf(s).Some? ==> ResolutionOf(s).value == Attached || ResolutionOf(s).value == Separate
  {}

  lemma {:induction false} DigitsConcat(a: string, b: string)
    ensures Digits(a + b) == Digits(a) + Digits(b)
  {
    if a == "" {
      assert a + b == b;
    } else {
      assert (a + b)[1..] == a[1..] + b;
      DigitsConcat(a[1..], b);
    }
  }

  method NormalizePhone(p: string) returns (r: string)
    ensures r == Digits(p)
    ensures forall i | 0 <= i < |r| :: '0' <= r[i] <= '9'
  {
    r := "";
    for i := 0 to |p|
      invariant r == Digits(p[..i])
      invariant forall j | 0 <= j < |r| :: '0' <= r[j] <= '9'
    {
      assert p[..i + 1] == p[..i] + [p[i]];
      DigitsConcat(p[..i], [p[i]]);
      if '0' <= p[i] <= '9' {
        r := r + [p[i]];
      }
    }
    assert p[..|p|] == p;
  }

  lemma DecidingIsApproving(cfg: Config, db: Db, m: nat, actor: nat, verdict: Verdict, edited: string, now: int)
    ensures Exec(cfg, db, DecideRow(m, actor, verdict, edited, now)) == Tables.Approve(db, m, actor, verdict, edited, now)
  {}

  class Store {
    const cfg: Config
    var enquiries: seq<Enquiry>
    var companies: seq<Company>
    var contacts: seq<Contact>
    var records: seq<CrmRecord>
    var messages: seq<Message>
    var approvals: seq<Approval>
    var audit: seq<AuditRow>
    var candidates: seq<Candidate>
    var extractions: seq<ExtractionRow>

    /** The tables as one value. */
    ghost function Rows(): Db
      reads this
    {
      Db(enquiries, companies, contacts, records, messages, approvals, audit, candidates, extractions)
    }

    ghost predicate Valid()
      reads this
    {
      Good(cfg, Rows())
    }

    constructor (cfg: Config)
      ensures this.cfg == cfg && Valid()
      ensures Rows() == Db([], [], [], [], [], [], [], [], [])
    {
      this.cfg := cfg;
      enquiries, companies, contacts, records, messages := [], [], [], [], [];
      approvals, audit, candidates, extractions := [], [], [], [];
    }

    // ---------- enquiry ingest ----------

    /** None is ErrDuplicate: the key is taken, and nothing is stored. */
    method InsertEnquiry(now: int, t: Intake) returns (id: Option<nat>)
      requires Valid()
      modifies this`enquiries
      ensures Valid() && Rows() == Exec(cfg, old(Rows()), InsertEnquiryRow(now, t))
      ensures id.None? <==> exists i | 0 <= i < |old(enquiries)| :: old(enquiries)[i].key == t.key
      ensures id.Some? ==> id.value == |old(enquiries)| && enquiries == old(enquiries) + [NewEnquiry(now, t)]
    {
      hide Good;
      ExecKeepsGood(cfg, Rows(), InsertEnquiryRow(now, t));
      if KeyOf(enquiries, t.key) < |enquiries| {
        return None;
      }
      id := Some(|enquiries|);
      enquiries := enquiries + [NewEnquiry(now, t)];
    }

    method EnquiryByIdempotencyKey(key: string) returns (id: Option<nat>)
      requires Valid()
      ensures id.Some? <==> exists i | 0 <= i < |enquiries| :: enquiries[i].key == key
      ensures id.Some? ==> forall i | 0 <= i < |enquiries| :: enquiries[i].key == key <==> i == id.value
    {
      var i := KeyOf(enquiries, key);
      return if i < |enquiries| then Some(i) else None;
    }

    /** The oldest other enquiry with the same content inside the window. */
    method FindRecentDuplicate(hash: string, exclude: nat, now: int) returns (id: Option<nat>)
      ensures id.Some? <==> HasRecentDuplicate(enquiries, hash, exclude, now, cfg.dedupeWindow)
      ensures id.Some? ==> id.value < |enquiries| && id.value != exclude && enquiries[id.value].hash == hash
      ensures id.Some? ==> forall j | 0 <= j < |enquiries| && j != exclude && enquiries[j].hash == hash && enquiries[j].receivedAt > now - cfg.dedupeWindow ::
        enquiries[id.value].receivedAt <= enquiries[j].receivedAt
    {
      id := None;
      for i := 0 to |enquiries|
        invariant id.Some? ==> id.value < i && id.value != exclude && enquiries[id.value].hash == hash
        invariant id.Some? ==> enquiries[id.value].receivedAt > now - cfg.dedupeWindow
        invariant id.None? ==> forall j | 0 <= j < i && j != exclude && enquiries[j].hash == hash :: enquiries[j].receivedAt <= now - cfg.dedupeWindow
        invariant id.Some? ==> forall j | 0 <= j < i && j != exclude && enquiries[j].hash == hash && enquiries[j].receivedAt > now - cfg.dedupeWindow ::
          enquiries[id.value].receivedAt <= enquiries[j].receivedAt
      {
        var row := enquiries[i];
        if i != exclude && row.hash == hash && row.receivedAt > now - cfg.dedupeWindow
           && (id.None? || row.receivedAt < enquiries[id.value].receivedAt) {
          id := Some(i);
        }
      }
    }

    // ---------- queue ----------

    method OldestClaimable(now: int) returns (id: Option<nat>)
      ensures id.None? ==> forall i | 0 <= i < |enquiries| :: !Claimable(enquiries[i], now)
      ensures id.Some? ==> IsOldestClaimable(enquiries, now, id.value)
    {
      id := None;
      for i := 0 to |enquiries|
        invariant id.None? ==> forall j | 0 <= j < i :: !Claimable(enquiries[j], now)
        invariant id.Some? ==> id.value < i && Claimable(enquiries[id.value], now)
        invariant id.Some? ==> forall j | 0 <= j < i && Claimable(enquiries[j], now) :: enquiries[id.value].receivedAt <= enquiries[j].receivedAt
      {
        if Claimable(enquiries[i], now) && (id.None? || enquiries[i].receivedAt < enquiries[id.value].receivedAt) {
          id := Some(i);
        }
      }
    }

    /** Take the oldest claimable row and lease it, or find that nothing is claimable. */
    method ClaimEnquiry(now: int) returns (e: Option<Snapshot>)
      requires Valid()
      modifies this`enquiries
      ensures Valid()
      ensures e.None? ==> Rows() == old(Rows()) && forall i | 0 <= i < |enquiries| :: !Claimable(enquiries[i], now)
      ensures e.Some? ==> e.value.id < |enquiries| && IsOldestClaimable(old(enquiries), now, e.value.id)
      ensures e.Some? ==> Rows() == Exec(cfg, old(Rows()), ClaimRow(e.value.id, now)) && e.value == SnapshotOf(enquiries, e.value.id)
    {
      hide Good;
      var oldest := OldestClaimable(now);
      if oldest.None? {
        return None;
      }
      var id := oldest.value;
      ExecKeepsGood(cfg, Rows(), ClaimRow(id, now));
      var row := enquiries[id];
      enquiries := enquiries[id := row.(status := Processing, attempts := row.attempts + 1, lockedUntil := Some(now + cfg.lockTtl))];
      return Some(SnapshotOf(enquiries, id));
    }

    /** The workers pass terminal and waiting states only. A row set to processing would be
        one without a lease, which nobody can claim. */
    method SetStatus(id: nat, status: Status)
      requires Valid()
      modifies this`enquiries
      ensures Rows() == Exec(cfg, old(Rows()), SetStatusRow(id, status))
      ensures status != Processing ==> Valid()
    {
      hide Good;
      if status != Processing {
        SetStatusKeepsGood(cfg, Rows(), id, status);
      }
      if id < |enquiries| {
        enquiries := enquiries[id := enquiries[id].(status := status, lockedUntil := None)];
      }
    }

    method Requeue(id: nat, now: int, delay: int)
      requires Valid()
      modifies this`enquiries
      ensures Valid() && Rows() == Exec(cfg, old(Rows()), RequeueRow(id, now, delay))
    {
      hide Good;
      ExecKeepsGood(cfg, Rows(), RequeueRow(id, now, delay));
      if id < |enquiries| {
        enquiries := enquiries[id := enquiries[id].(status := Received, lockedUntil := None, nextAttemptAt := now + delay)];
      }
    }

    // ---------- contacts ----------

    /** E-mail, else phone, else the most similar name. */
    method MatchContact(c: ContactInfo) returns (m: Option<Match>)
      ensures IsMatch(cfg, Rows(), c, m)
    {
      hide FuzzyMatches, FuzzyScore, Blank;
      if c.email.Some? && !Blank(c.email.value) {
        var i := EmailOf(cfg.lower, contacts, c.email.value);
        if i < |contacts| {
          assert EmailMatches(cfg.lower, contacts[i], c);
          return Some(Match(i, EMAIL_SCORE, EmailExact));
        }
      }
      assert forall j | 0 <= j < |contacts| :: !EmailMatches(cfg.lower, contacts[j], c);
      if c.phone.Some? {
        var digits := NormalizePhone(c.phone.value);
        if digits != "" {
          for i := 0 to |contacts|
            invariant forall j | 0 <= j < i :: !PhoneMatches(contacts[j], c)
          {
            if Digits(OrEmpty(contacts[i].phone)) == digits && |digits| >= 7 {
              assert PhoneMatches(contacts[i], c);
              return Some(Match(i, PHONE_SCORE, PhoneExact));
            }
          }
        }
      }
      assert forall j | 0 <= j < |contacts| :: !PhoneMatches(contacts[j], c);
      m := BestByName(c);
    }

    method BestByName(c: ContactInfo) returns (m: Option<Match>)
      requires forall j | 0 <= j < |contacts| :: !EmailMatches(cfg.lower, contacts[j], c)
      requires forall j | 0 <= j < |contacts| :: !PhoneMatches(contacts[j], c)
      ensures IsMatch(cfg, Rows(), c, m)
    {
      m := None;
      if c.name.None? || Blank(c.name.value) {
        return;
      }
      var how := if HasText(c.company) then TrgmNameCompany else TrgmName;
      for i := 0 to |contacts|
        invariant m.None? ==> forall j | 0 <= j < i :: !FuzzyMatches(cfg, contacts[j], c)
        invariant m.Some? ==> m.value.contact < i && m.value.how == how && FuzzyMatches(cfg, contacts[m.value.contact], c)
        invariant m.Some? ==> m.value.score == FuzzyScore(cfg, companies, contacts[m.value.contact], c)
        invariant m.Some? ==> forall j | 0 <= j < i && FuzzyMatches(cfg, contacts[j], c) :: FuzzyScore(cfg, companies, contacts[j], c) <= m.value.score
      {
        if FuzzyMatches(cfg, contacts[i], c) {
          var score := FuzzyScore(cfg, companies, contacts[i], c);
          if m.None? || m.value.score < score {
            m := Some(Match(i, score, how));
          }
        }
      }
    }

    method RecordDuplicateCandidate(enquiry: nat, m: Match, resolution: Resolution) returns (ok: bool)
      requires Valid()
      modifies this`candidates
      ensures Valid() && ok == (enquiry < |enquiries| && m.contact < |contacts|)
      ensures Rows() == Exec(cfg, old(Rows()), RecordCandidateRow(enquiry, m, resolution))
    {
      hide Good;
      ExecKeepsGood(cfg, Rows(), RecordCandidateRow(enquiry, m, resolution));
      ok := enquiry < |enquiries| && m.contact < |contacts|;
      if ok {
        var i := CandidateOf(candidates, enquiry, m.contact);
        if i < |candidates| {
          candidates := candidates[i := candidates[i].(score := m.score, how := m.how)];
        } else {
          candidates := candidates + [Candidate(enquiry, m.contact, m.score, m.how, resolution, None)];
        }
      }
    }

    /** The company lookup: the best-ranked company with the address's domain or the same name. */
    method FindCompany(c: ContactInfo) returns (hit: Option<nat>)
      ensures IsCompanyHit(cfg.lower, companies, c, hit)
    {
      hit := None;
      if !NamesCompany(c) {
        return;
      }
      var domain := DomainOf(cfg.lower, c.email);
      for i := 0 to |companies|
        invariant hit.None? ==> forall j | 0 <= j < i :: !CompanyMatches(cfg.lower, companies[j], c.company.value, domain)
        invariant hit.Some? ==> hit.value < i && CompanyMatches(cfg.lower, companies[hit.value], c.company.value, domain)
        invariant hit.Some? ==> forall j | 0 <= j < i && CompanyMatches(cfg.lower, companies[j], c.company.value, domain) ::
          CompanyRank(cfg.lower, companies[hit.value], domain) <= CompanyRank(cfg.lower, companies[j], domain)
      {
        if CompanyMatches(cfg.lower, companies[i], c.company.value, domain)
           && (hit.None? || CompanyRank(cfg.lower, companies[i], domain) < CompanyRank(cfg.lower, companies[hit.value], domain)) {
          hit := Some(i);
        }
      }
    }

    /** One transaction on behalf of a claimed enquiry: find or insert the company, then fill in or insert the contact. On
        failure (no such contact, or the address is taken) all of it is rolled back. */
    method UpsertContact(enquiry: nat, ex: Extraction, existing: Option<nat>) returns (id: Option<nat>, hit: Option<nat>)
      requires Valid() && enquiry < |enquiries|
      modifies this`companies, this`contacts
      ensures Valid() && IsCompanyHit(cfg.lower, old(companies), Trusted(ex), hit)
      ensures Rows() == Exec(cfg, old(Rows()), WriteContactRow(enquiry, ex, existing, hit))
      ensures var w := Tables.UpsertContact(cfg.lower, old(Rows()), enquiry, Trusted(ex), existing, hit);
        id == if w.Some? then Some(w.value.id) else None
      ensures id.Some? ==> id.value < |contacts|
    {
      var c := Trusted(ex);
      hit := FindCompany(c);
      hide Good;
      ExecKeepsGood(cfg, Rows(), WriteContactRow(enquiry, ex, existing, hit));
      var inserted, company := companies, hit;
      if NamesCompany(c) && hit.None? {
        company := Some(|companies|);
        inserted := companies + [Company(c.company.value, NoneIfEmpty(DomainOf(cfg.lower, c.email)))];
      }
      if existing.Some? {
        if existing.value >= |contacts| {
          return None, hit;
        }
        var row := FilledRow(contacts[existing.value], c, company);
        if contacts[existing.value].email.None? && EmailTaken(cfg.lower, contacts, row.email) {
          return None, hit;
        }
        companies, contacts := inserted, contacts[existing.value := row];
        return existing, hit;
      }
      if EmailTaken(cfg.lower, contacts, c.email) {
        return None, hit;
      }
      id := Some(|contacts|);
      companies, contacts := inserted, contacts + [Contact(c.name, c.email, c.phone, company, enquiry)];
    }

    // ---------- records, extractions, drafts ----------

    /** Create the open record of an enquiry, or return the one there is. */
    method UpsertCRMRecord(kind: RecordKind, contact: nat, owner: Option<nat>, team: string, enquiry: nat)
      returns (id: Option<nat>)
      requires Valid()
      modifies this`records
      ensures Valid() && Rows() == Exec(cfg, old(Rows()), WriteRecordRow(CrmRecord(kind, contact, owner, team, true, enquiry)))
      ensures id == if enquiry < |enquiries| && contact < |contacts| then Some(RecordOf(old(records), enquiry)) else None
    {
      var r := CrmRecord(kind, contact, owner, team, true, enquiry);
      hide Good;
      ExecKeepsGood(cfg, Rows(), WriteRecordRow(r));
      if r.enquiry >= |enquiries| || r.contact >= |contacts| {
        return None;
      }
      var i := RecordOf(records, r.enquiry);
      id := Some(i);
      if i < |records| {
        records := records[i := records[i].(owner := Coalesce(records[i].owner, r.owner), team := r.team)];
      } else {
        records := records + [r];
      }
    }

    /** The least loaded user of the team, and of those the one with the lowest id. */
    method PickOwner(team: string) returns (u: Option<nat>)
      ensures u.None? <==> forall v | 0 <= v < |cfg.users| :: cfg.users[v].team != team
      ensures u.Some? ==> IsLeastLoaded(cfg.users, records, team, u.value)
      ensures u == Tables.PickOwner(cfg.users, records, team)
    {
      u := None;
      for v := 0 to |cfg.users|
        invariant u == PickAmong(cfg.users, records, team, v)
      {
        if cfg.users[v].team == team && (u.None? || Load(records, v) < Load(records, u.value)) {
          u := Some(v);
        }
      }
      PickOwnerIsLeastLoaded(cfg.users, records, team);
    }

    method SaveExtraction(enquiry: nat, ex: Extraction) returns (ok: bool)
      requires Valid()
      modifies this`extractions
      ensures Valid() && ok == (enquiry < |enquiries|)
      ensures Rows() == Exec(cfg, old(Rows()), SaveExtractionRow(enquiry, ex))
    {
      hide Good;
      ExecKeepsGood(cfg, Rows(), SaveExtractionRow(enquiry, ex));
      ok := enquiry < |enquiries|;
      if ok {
        var i := ExtractionOf(extractions, enquiry);
        if i < |extractions| {
          extractions := extractions[i := ExtractionRow(enquiry, ex)];
        } else {
          extractions := extractions + [ExtractionRow(enquiry, ex)];
        }
      }
    }

    /** Insert the draft, or re-word the one there is unless a human has acted on it. */
    method UpsertDraft(m: Message) returns (id: Option<nat>)
      requires Valid()
      modifies this`messages
      ensures Valid() && Rows() == Exec(cfg, old(Rows()), WriteDraftRow(m))
      ensures id == if m.enquiry < |enquiries| then Some(MessageOf(old(messages), m.enquiry, m.kind)) else None
    {
      hide Good;
      ExecKeepsGood(cfg, Rows(), WriteDraftRow(m));
      if m.enquiry >= |enquiries| {
        return None;
      }
      var i := MessageOf(messages, m.enquiry, m.kind);
      id := Some(i);
      if i == |messages| {
        messages := messages + [m.(status := MsgPending, sentAt := None)];
        return;
      }
      var row := messages[i].(record := Coalesce(m.record, messages[i].record));
      if Undecided(row.status) {
        row := row.(body := m.body, draftedBy := m.draftedBy);
      }
      messages := messages[i := row];
    }

    // ---------- the approval transaction ----------

    /** The writes of the approval transaction, once the row is locked and found undecided. */
    method Decide(m: nat, actor: nat, verdict: Verdict, edited: string, now: int)
      requires Sound(cfg, Rows()) && m < |messages| && Undecided(messages[m].status)
      modifies this`messages, this`approvals, this`enquiries, this`audit
      ensures Sound(cfg, Rows()) && Rows() == Exec(cfg, old(Rows()), DecideRow(m, actor, verdict, edited, now))
      ensures approvals == old(approvals) + [Approval(m, actor, verdict)]
    {
      hide Sound, Exec, Undecided;
      DecidingIsApproving(cfg, Rows(), m, actor, verdict, edited, now);
      ApproveKeepsSound(cfg, Rows(), m, actor, verdict, edited, now);
      var row, status, enquiryStatus := messages[m], MsgSent, Sent;
      if verdict == Rejected {
        status, enquiryStatus := MsgRejected, NeedsHumanReview;
      }
      if edited != "" {
        row := row.(body := edited, draftedBy := ByUser(actor));
      }
      messages := messages[m := row.(status := status, sentAt := if status == MsgSent then Some(now) else None)];
      approvals := approvals + [Approval(m, actor, verdict)];
      if row.enquiry < |enquiries| {
        enquiries := enquiries[row.enquiry := enquiries[row.enquiry].(status := enquiryStatus)];
      }
      audit := audit + [AuditRow(row.enquiry, if status == MsgSent then MessageSent else MessageRejected, m, Some(actor))];
    }

    /** Decide a message. Anything but Decided leaves every table as it was. That managers do
        not decide is the caller's business; NoSuchActor is the foreign key's error. */
    method Approve(m: nat, actor: nat, decision: string, edited: string, now: int) returns (r: ApproveResult)
      requires Valid()
      modifies this`messages, this`approvals, this`enquiries, this`audit
      ensures Sound(cfg, Rows())
      ensures actor < |cfg.users| && cfg.users[actor].role != Manager ==> Valid()
      ensures r == InvalidDecision <==> VerdictOf(decision).None?
      ensures r == MessageNotFound <==> VerdictOf(decision).Some? && m >= |old(messages)|
      ensures r == NotPending <==> VerdictOf(decision).Some? && m < |old(messages)| && !Undecided(old(messages)[m].status)
      ensures r == NoSuchActor <==>
        VerdictOf(decision).Some? && m < |old(messages)| && Undecided(old(messages)[m].status) && actor >= |cfg.users|
      ensures r != Decided ==> Rows() == old(Rows())
      ensures r == Decided ==> Rows() == Exec(cfg, old(Rows()), DecideRow(m, actor, VerdictOf(decision).value, edited, now))
    {
      hide Sound, Exec, VerdictOf;
      if VerdictOf(decision).None? {
        return InvalidDecision;
      }
      if m >= |messages| {
        return MessageNotFound;
      }
      if messages[m].status != MsgPending && messages[m].status != MsgDraft {
        return NotPending;
      }
      if actor >= |cfg.users| {
        return NoSuchActor;
      }
      if cfg.users[actor].role != Manager {
        ApproveKeepsActors(cfg, approvals, Approval(m, actor, VerdictOf(decision).value));
      }
      Decide(m, actor, VerdictOf(decision).value, edited, now);
      return Decided;
    }

    method ResolveDuplicate(c: nat, actor: nat, resolution: string) returns (r: ResolveResult)
      requires Valid()
      modifies this`candidates
      ensures Valid()
      ensures r == InvalidResolution <==> ResolutionOf(resolution).None?
      ensures r == NotFoundOrResolved <==>
        ResolutionOf(resolution).Some? && (c >= |old(candidates)| || old(candidates)[c].resolution != Pending)
      ensures r.Resolved? ==> Rows() == Exec(cfg, old(Rows()), ResolveRow(c, actor, ResolutionOf(resolution).value))
      ensures r.Resolved? ==> r.enquiry == old(candidates)[c].enquiry && r.contact == old(candidates)[c].contact
      ensures !r.Resolved? ==> Rows() == old(Rows())
    {
      hide Good, ResolutionOf;
      AttachedOrSeparate(resolution);
      if ResolutionOf(resolution).None? {
        return InvalidResolution;
      }
      if c >= |candidates| || candidates[c].resolution != Pending {
        return NotFoundOrResolved;
      }
      ExecKeepsGood(cfg, Rows(), ResolveRow(c, actor, ResolutionOf(resolution).value));
      candidates := candidates[c := candidates[c].(resolution := ResolutionOf(resolution).value, resolvedBy := Some(actor))];
      return Resolved(candidates[c].enquiry, candidates[c].contact);
    }

    /** The team behind a message. None: there is no such message. */
    method TeamOfMessage(m: nat) returns (team: Option<string>)
      ensures team == if m < |messages| then Some(MessageTeam(Rows(), m)) else None
    {
      if m >= |messages| {
        return None;
      }
      var record := messages[m].record;
      return Some(if record.Some? && record.value < |records| then records[record.value].team else "");
    }

    method Audit(row: AuditRow)
      requires Valid() && row.action.OtherAction?
      modifies this`audit
      ensures Valid() && Rows() == Exec(cfg, old(Rows()), AppendAudit(row))
    {
      hide Good;
      ExecKeepsGood(cfg, Rows(), AppendAudit(row));
      audit := audit + [row];
    }
  }
}
