/** The database: every statement or transaction of internal/store as a function from
    the tables to the tables, what the schema's unique indexes and the code keep true
    of the tables, and what no statement ever takes back. */
module Tables {
  import opened Base
  import opened Text
  import opened Ingest
  import opened Model
  import opened Grounding

  datatype Db = Db(
    enquiries: seq<Enquiry>, companies: seq<Company>, contacts: seq<Contact>, records: seq<CrmRecord>,
    messages: seq<Message>, approvals: seq<Approval>, audit: seq<AuditRow>,
    candidates: seq<Candidate>, extractions: seq<ExtractionRow>)

  // ---------- index lookups: the position of the row, or the table's length ----------

  function KeyOf(es: seq<Enquiry>, key: string): (i: nat)
    ensures i <= |es| && (i < |es| ==> es[i].key == key)
    ensures forall j | 0 <= j < i :: es[j].key != key
  {
    First(es, (e: Enquiry) => e.key == key)
  }

  predicate SameEmail(f: CaseMap, a: string, b: string) {
    Lower(f, a) == Lower(f, b)
  }

  predicate HasEmail(f: CaseMap, c: Contact, email: string) {
    c.email.Some? && SameEmail(f, c.email.value, email)
  }

  function EmailOf(f: CaseMap, cs: seq<Contact>, email: string): (i: nat)
    ensures i <= |cs| && (i < |cs| ==> HasEmail(f, cs[i], email))
    ensures forall j | 0 <= j < i :: !HasEmail(f, cs[j], email)
  {
    First(cs, (c: Contact) => HasEmail(f, c, email))
  }

  function RecordOf(rs: seq<CrmRecord>, enquiry: nat): (i: nat)
    ensures i <= |rs| && (i < |rs| ==> rs[i].enquiry == enquiry)
    ensures forall j | 0 <= j < i :: rs[j].enquiry != enquiry
  {
    First(rs, (r: CrmRecord) => r.enquiry == enquiry)
  }

  function MessageOf(ms: seq<Message>, enquiry: nat, kind: MessageKind): (i: nat)
    ensures i <= |ms| && (i < |ms| ==> ms[i].enquiry == enquiry && ms[i].kind == kind)
    ensures forall j | 0 <= j < i :: !(ms[j].enquiry == enquiry && ms[j].kind == kind)
  {
    First(ms, (m: Message) => m.enquiry == enquiry && m.kind == kind)
  }

  function ApprovalOf(xs: seq<Approval>, message: nat): (i: nat)
    ensures i <= |xs| && (i < |xs| ==> xs[i].message == message)
    ensures forall j | 0 <= j < i :: xs[j].message != message
  {
    First(xs, (x: Approval) => x.message == message)
  }

  function CandidateOf(cs: seq<Candidate>, enquiry: nat, contact: nat): (i: nat)
    ensures i <= |cs| && (i < |cs| ==> cs[i].enquiry == enquiry && cs[i].contact == contact)
    ensures forall j | 0 <= j < i :: !(cs[j].enquiry == enquiry && cs[j].contact == contact)
  {
    First(cs, (c: Candidate) => c.enquiry == enquiry && c.contact == contact)
  }

  function ExtractionOf(xs: seq<ExtractionRow>, enquiry: nat): (i: nat)
    ensures i <= |xs| && (i < |xs| ==> xs[i].enquiry == enquiry)
    ensures forall j | 0 <= j < i :: xs[j].enquiry != enquiry
  {
    First(xs, (x: ExtractionRow) => x.enquiry == enquiry)
  }

  // ---------- the queue ----------

  function NewEnquiry(at: int, t: Intake): Enquiry {
    Enquiry(at, t.sender, t.text, t.hash, t.key, Received, 0, None, at)
  }

  predicate Claimable(e: Enquiry, now: int) {
    || (e.status == Received && e.nextAttemptAt <= now)
    || (e.status == Processing && e.lockedUntil.Some? && e.lockedUntil.value < now)
  }

  /** The row a claim may take: claimable, and none that is claimable was received earlier. */
  predicate IsOldestClaimable(es: seq<Enquiry>, now: int, id: nat) {
    && id < |es| && Claimable(es[id], now)
    && forall j | 0 <= j < |es| && Claimable(es[j], now) :: es[id].receivedAt <= es[j].receivedAt
  }

  function ClaimedRow(e: Enquiry, now: int, ttl: nat): Enquiry {
    e.(status := Processing, attempts := e.attempts + 1, lockedUntil := Some(now + ttl))
  }

  function RestedRow(e: Enquiry, status: Status): Enquiry {
    e.(status := status, lockedUntil := None)
  }

  function RequeuedRow(e: Enquiry, at: int, delay: int): Enquiry {
    e.(status := Received, lockedUntil := None, nextAttemptAt := at + delay)
  }

  /** Another enquiry with the same content was received inside the dedupe window. */
  predicate HasRecentDuplicate(es: seq<Enquiry>, hash: string, exclude: nat, now: int, window: nat) {
    exists j | 0 <= j < |es| :: j != exclude && es[j].hash == hash && es[j].receivedAt > now - window
  }

  // ---------- contacts and companies ----------

  function Digits(s: string): string {
    if s == "" then "" else (if '0' <= s[0] <= '9' then [s[0]] else "") + Digits(s[1..])
  }

  /** Position just behind the last '@', or 0 when there is none. */
  function AfterLastAt(s: string): (n: nat)
    ensures n <= |s| && (n == 0 <==> '@' !in s)
    ensures n > 0 ==> s[n - 1] == '@' && '@' !in s[n..]
  {
    if s == "" then 0 else if s[|s| - 1] == '@' then |s| else AfterLastAt(s[..|s| - 1])
  }

  function DomainOf(f: CaseMap, email: Option<string>): string {
    if email.None? || AfterLastAt(email.value) == 0 then "" else Lower(f, email.value[AfterLastAt(email.value)..])
  }

  predicate NamesCompany(c: ContactInfo) {
    c.company.Some? && !Blank(c.company.value)
  }

  predicate CompanyMatches(f: CaseMap, row: Company, name: string, domain: string) {
    || (domain != "" && row.domain.Some? && SameEmail(f, row.domain.value, domain))
    || SameEmail(f, row.name, name)
  }

  /** The sort key of the company lookup. It orders by a comparison that is NULL for a
      company without a domain, and descending order puts NULL first. */
  function CompanyRank(f: CaseMap, row: Company, domain: string): nat {
    if row.domain.None? then 0 else if SameEmail(f, row.domain.value, domain) then 1 else 2
  }

  /** hit is an answer the company lookup may give: some best-ranked match, or none if none matches. */
  predicate IsCompanyHit(f: CaseMap, rows: seq<Company>, c: ContactInfo, hit: Option<nat>) {
    if !NamesCompany(c) then hit.None?
    else
      var domain := DomainOf(f, c.email);
      match hit
      case None => forall j | 0 <= j < |rows| :: !CompanyMatches(f, rows[j], c.company.value, domain)
      case Some(i) =>
        && i < |rows| && CompanyMatches(f, rows[i], c.company.value, domain)
        && forall j | 0 <= j < |rows| && CompanyMatches(f, rows[j], c.company.value, domain) ::
             CompanyRank(f, rows[i], domain) <= CompanyRank(f, rows[j], domain)
  }

  function CompaniesAfter(f: CaseMap, rows: seq<Company>, c: ContactInfo, hit: Option<nat>): seq<Company> {
    if !NamesCompany(c) || hit.Some? then rows
    else rows + [Company(c.company.value, NoneIfEmpty(DomainOf(f, c.email)))]
  }

  function CompanyIdAfter(rows: seq<Company>, c: ContactInfo, hit: Option<nat>): Option<nat> {
    if !NamesCompany(c) then None else if hit.Some? then hit else Some(|rows|)
  }

  function OrEmpty(v: Option<string>): string {
    if v.Some? then v.value else ""
  }

  predicate HasText(v: Option<string>) {
    v.Some? && v.value != ""
  }

  /** Attach: fill blanks only. A NULL name becomes the empty string when there is nothing to fill in. */
  function FilledRow(row: Contact, c: ContactInfo, company: Option<nat>): Contact {
    row.(name := if HasText(row.name) then row.name else Some(OrEmpty(c.name)),
         email := Coalesce(row.email, c.email),
         phone := Coalesce(row.phone, c.phone),
         company := Coalesce(row.company, company))
  }

  /** The unique index on lower(email) rejects the write. */
  predicate EmailTaken(f: CaseMap, cs: seq<Contact>, email: Option<string>) {
    email.Some? && EmailOf(f, cs, email.value) < |cs|
  }

  datatype ContactWrite = ContactWrite(companies: seq<Company>, contacts: seq<Contact>, id: nat)

  /** The UpsertContact transaction. None: it failed, and everything in it was rolled back. */
  function UpsertContact(f: CaseMap, db: Db, enquiry: nat, c: ContactInfo, existing: Option<nat>,
      hit: Option<nat>): Option<ContactWrite> {
    var companies, company := CompaniesAfter(f, db.companies, c, hit), CompanyIdAfter(db.companies, c, hit);
    match existing
    case Some(k) =>
      if k >= |db.contacts| then None
      else
        var row := FilledRow(db.contacts[k], c, company);
        if db.contacts[k].email.None? && EmailTaken(f, db.contacts, row.email) then None
        else Some(ContactWrite(companies, db.contacts[k := row], k))
    case None =>
      if EmailTaken(f, db.contacts, c.email) then None
      else Some(ContactWrite(companies, db.contacts + [Contact(c.name, c.email, c.phone, company, enquiry)], |db.contacts|))
  }

  // ---------- CRM records and owners ----------

  function UpsertRecord(rs: seq<CrmRecord>, r: CrmRecord): seq<CrmRecord> {
    var i := RecordOf(rs, r.enquiry);
    if i < |rs| then rs[i := rs[i].(owner := Coalesce(rs[i].owner, r.owner), team := r.team)] else rs + [r]
  }

  /** How many open records a user owns. */
  function Load(rs: seq<CrmRecord>, user: nat): nat {
    if rs == [] then 0
    else Load(rs[..|rs| - 1], user) + (if rs[|rs| - 1].open && rs[|rs| - 1].owner == Some(user) then 1 else 0)
  }

  /** The answer of the owner query: of the team's users the least loaded, then the lowest id. */
  predicate IsLeastLoaded(users: seq<User>, rs: seq<CrmRecord>, team: string, u: nat) {
    && u < |users| && users[u].team == team
    && forall v | 0 <= v < |users| && users[v].team == team ::
         Load(rs, u) < Load(rs, v) || (Load(rs, u) == Load(rs, v) && u <= v)
  }

  /** PickOwner over the first n users. */
  function PickAmong(users: seq<User>, rs: seq<CrmRecord>, team: string, n: nat): (r: Option<nat>)
    requires n <= |users|
    ensures r.None? ==> forall v | 0 <= v < n :: users[v].team != team
    ensures r.Some? ==> r.value < n && IsLeastLoaded(users[..n], rs, team, r.value)
  {
    if n == 0 then None
    else
      var best := PickAmong(users, rs, team, n - 1);
      if users[n - 1].team == team && (best.None? || Load(rs, n - 1) < Load(rs, best.value)) then Some(n - 1) else best
  }

  function PickOwner(users: seq<User>, rs: seq<CrmRecord>, team: string): Option<nat> {
    PickAmong(users, rs, team, |users|)
  }

  lemma PickOwnerIsLeastLoaded(users: seq<User>, rs: seq<CrmRecord>, team: string)
    ensures match PickOwner(users, rs, team)
      case None => forall v | 0 <= v < |users| :: users[v].team != team
      case Some(u) => IsLeastLoaded(users, rs, team, u)
  {
    assert users[..|users|] == users;
  }

  // ---------- messages and approvals ----------

  /** The conflict arm of UpsertDraft: body and author change only while undecided. */
  function RedraftedRow(row: Message, draft: Message): Message {
    row.(body := if Undecided(row.status) then draft.body else row.body,
         record := Coalesce(draft.record, row.record),
         draftedBy := if Undecided(row.status) then draft.draftedBy else row.draftedBy)
  }

  function UpsertDraft(ms: seq<Message>, draft: Message): seq<Message> {
    var i := MessageOf(ms, draft.enquiry, draft.kind);
    if i < |ms| then ms[i := RedraftedRow(ms[i], draft)] else ms + [draft.(status := MsgPending, sentAt := None)]
  }

  function DecidedRow(row: Message, verdict: Verdict, edited: string, actor: nat, now: int): Message {
    row.(body := if edited != "" then edited else row.body,
         status := if verdict == Rejected then MsgRejected else MsgSent,
         draftedBy := if edited != "" then ByUser(actor) else row.draftedBy,
         sentAt := if verdict == Rejected then None else Some(now))
  }

  /** Everything Approve commits after it has read an undecided status under the row lock. */
  function Approve(db: Db, m: nat, actor: nat, verdict: Verdict, edited: string, now: int): Db {
    if m >= |db.messages| then db
    else
      var row := DecidedRow(db.messages[m], verdict, edited, actor, now);
      var e := row.enquiry;
      db.(messages := db.messages[m := row],
          approvals := db.approvals + [Approval(m, actor, verdict)],
          enquiries := if e < |db.enquiries|
                       then db.enquiries[e := db.enquiries[e].(status := if verdict == Rejected then NeedsHumanReview else Sent)]
                       else db.enquiries,
          audit := db.audit + [AuditRow(e, if verdict == Rejected then MessageRejected else MessageSent, m, Some(actor))])
  }

  // ---------- candidates and extractions ----------

  function RecordCandidate(cs: seq<Candidate>, enquiry: nat, m: Match, resolution: Resolution): seq<Candidate> {
    var i := CandidateOf(cs, enquiry, m.contact);
    if i < |cs| then cs[i := cs[i].(score := m.score, how := m.how)]
    else cs + [Candidate(enquiry, m.contact, m.score, m.how, resolution, None)]
  }

  function SaveExtraction(xs: seq<ExtractionRow>, enquiry: nat, ex: Extraction): seq<ExtractionRow> {
    var i := ExtractionOf(xs, enquiry);
    if i < |xs| then xs[i := ExtractionRow(enquiry, ex)] else xs + [ExtractionRow(enquiry, ex)]
  }

  // ---------- one statement ----------

  datatype Write =
    | NoWrite
    | InsertEnquiryRow(at: int, intake: Intake)
    | ClaimRow(id: nat, at: int)
    | SetStatusRow(id: nat, status: Status)
    | RequeueRow(id: nat, at: int, delay: int)
    | AppendAudit(row: AuditRow)
    | SaveExtractionRow(enquiry: nat, ex: Extraction)
    | RecordCandidateRow(enquiry: nat, found: Match, resolution: Resolution)
    | WriteContactRow(enquiry: nat, ex: Extraction, existing: Option<nat>, hit: Option<nat>)
    | WriteRecordRow(record: CrmRecord)
    | WriteDraftRow(draft: Message)
    | DecideRow(message: nat, actor: nat, verdict: Verdict, edited: string, at: int)
    | ResolveRow(candidate: nat, actor: nat, resolution: Resolution)

  /** A statement that meets no row, or that a foreign key or unique index rejects, changes nothing. */
  function Exec(cfg: Config, db: Db, w: Write): Db {
    match w
    case NoWrite => db
    case InsertEnquiryRow(at, t) =>
      if KeyOf(db.enquiries, t.key) < |db.enquiries| then db else db.(enquiries := db.enquiries + [NewEnquiry(at, t)])
    case ClaimRow(id, at) =>
      if id < |db.enquiries| then db.(enquiries := db.enquiries[id := ClaimedRow(db.enquiries[id], at, cfg.lockTtl)]) else db
    case SetStatusRow(id, status) =>
      if id < |db.enquiries| then db.(enquiries := db.enquiries[id := RestedRow(db.enquiries[id], status)]) else db
    case RequeueRow(id, at, delay) =>
      if id < |db.enquiries| then db.(enquiries := db.enquiries[id := RequeuedRow(db.enquiries[id], at, delay)]) else db
    case AppendAudit(row) => db.(audit := db.audit + [row])
    case SaveExtractionRow(e, ex) =>
      if e < |db.enquiries| then db.(extractions := SaveExtraction(db.extractions, e, ex)) else db
    case RecordCandidateRow(e, m, resolution) =>
      if e < |db.enquiries| && m.contact < |db.contacts|
      then db.(candidates := RecordCandidate(db.candidates, e, m, resolution)) else db
    case WriteContactRow(e, ex, existing, hit) =>
      var r := UpsertContact(cfg.lower, db, e, Trusted(ex), existing, hit);
      if e < |db.enquiries| && r.Some? then db.(companies := r.value.companies, contacts := r.value.contacts) else db
    case WriteRecordRow(r) =>
      if r.enquiry < |db.enquiries| && r.contact < |db.contacts| then db.(records := UpsertRecord(db.records, r)) else db
    case WriteDraftRow(m) =>
      if m.enquiry < |db.enquiries| then db.(messages := UpsertDraft(db.messages, m)) else db
    case DecideRow(m, actor, verdict, edited, at) => Approve(db, m, actor, verdict, edited, at)
    case ResolveRow(c, actor, resolution) =>
      if c < |db.candidates| && db.candidates[c].resolution == Pending
      then db.(candidates := db.candidates[c := db.candidates[c].(resolution := resolution, resolvedBy := Some(actor))]) else db
  }

  /** What the code makes sure of before it issues a statement. */
  ghost predicate Permitted(cfg: Config, db: Db, w: Write) {
    match w
    case ClaimRow(id, at) => IsOldestClaimable(db.enquiries, at, id)
    case SetStatusRow(_, status) => IsResting(status)
    case AppendAudit(row) => row.action.OtherAction?
    case WriteContactRow(_, ex, _, hit) => IsCompanyHit(cfg.lower, db.companies, Trusted(ex), hit)
    case DecideRow(m, actor, _, _, _) =>
      && m < |db.messages| && Undecided(db.messages[m].status)
      && actor < |cfg.users| && cfg.users[actor].role != Manager
    case ResolveRow(_, _, resolution) => resolution == Attached || resolution == Separate
    case _ => true
  }

  // ---------- what is always true of the tables ----------

  ghost predicate GoodEnquiries(es: seq<Enquiry>) {
    && (forall i, j | 0 <= i < j < |es| :: es[i].key != es[j].key)
    && (forall i | 0 <= i < |es| :: es[i].status == Processing ==> es[i].lockedUntil.Some?)
  }

  ghost predicate GoodContacts(f: CaseMap, cs: seq<Contact>) {
    forall i, j | 0 <= i < j < |cs| :: cs[i].email.Some? && cs[j].email.Some? ==> !SameEmail(f, cs[i].email.value, cs[j].email.value)
  }

  ghost predicate GoodCompanies(f: CaseMap, cs: seq<Company>) {
    && (forall i | 0 <= i < |cs| :: cs[i].domain != Some(""))
    && (forall i, j | 0 <= i < j < |cs| :: cs[i].domain.Some? && cs[j].domain.Some? ==> !SameEmail(f, cs[i].domain.value, cs[j].domain.value))
  }

  ghost predicate GoodRecords(rs: seq<CrmRecord>) {
    forall i, j | 0 <= i < j < |rs| :: rs[i].enquiry != rs[j].enquiry
  }

  ghost predicate GoodMessages(ms: seq<Message>) {
    && (forall i, j | 0 <= i < j < |ms| :: !(ms[i].enquiry == ms[j].enquiry && ms[i].kind == ms[j].kind))
    && (forall i | 0 <= i < |ms| :: ms[i].status != MsgApproved && (ms[i].sentAt.Some? <==> ms[i].status == MsgSent))
  }

  /** Approvals and decided messages correspond one to one, with matching outcomes. */
  ghost predicate GoodApprovals(ms: seq<Message>, xs: seq<Approval>) {
    && (forall i, j | 0 <= i < j < |xs| :: xs[i].message != xs[j].message)
    && (forall i | 0 <= i < |xs| :: xs[i].message < |ms| &&
          ms[xs[i].message].status == if xs[i].verdict == Rejected then MsgRejected else MsgSent)
    && (forall m | 0 <= m < |ms| :: !Undecided(ms[m].status) ==> ApprovalOf(xs, m) < |xs|)
  }

  datatype Outcome = Outcome(message: nat, sent: bool, actor: Option<nat>)

  function ApprovalTrail(xs: seq<Approval>): seq<Outcome> {
    if xs == [] then []
    else var x := xs[|xs| - 1]; ApprovalTrail(xs[..|xs| - 1]) + [Outcome(x.message, x.verdict != Rejected, Some(x.actor))]
  }

  function AuditTrail(rows: seq<AuditRow>): seq<Outcome> {
    if rows == [] then []
    else
      var x := rows[|rows| - 1];
      AuditTrail(rows[..|rows| - 1]) +
      if x.action.OtherAction? then [] else [Outcome(x.entity, x.action == MessageSent, x.actor)]
  }

  function CountDecided(ms: seq<Message>): nat {
    if ms == [] then 0 else CountDecided(ms[..|ms| - 1]) + if Undecided(ms[|ms| - 1].status) then 0 else 1
  }

  ghost predicate GoodActors(cfg: Config, xs: seq<Approval>) {
    forall i | 0 <= i < |xs| :: xs[i].actor < |cfg.users| && cfg.users[xs[i].actor].role != Manager
  }

  ghost predicate GoodCandidates(cs: seq<Candidate>) {
    forall i, j | 0 <= i < j < |cs| :: !(cs[i].enquiry == cs[j].enquiry && cs[i].contact == cs[j].contact)
  }

  ghost predicate GoodExtractions(xs: seq<ExtractionRow>) {
    forall i, j | 0 <= i < j < |xs| :: xs[i].enquiry != xs[j].enquiry
  }

  /** The unique indexes, the approval pairing and the audit pairing. */
  ghost predicate Sound(cfg: Config, db: Db) {
    && GoodEnquiries(db.enquiries)
    && GoodCompanies(cfg.lower, db.companies)
    && GoodContacts(cfg.lower, db.contacts)
    && GoodRecords(db.records)
    && GoodMessages(db.messages)
    && GoodApprovals(db.messages, db.approvals)
    && AuditTrail(db.audit) == ApprovalTrail(db.approvals)
    && |db.approvals| == CountDecided(db.messages)
    && GoodCandidates(db.candidates)
    && GoodExtractions(db.extractions)
  }

  /** Sound tables in which no manager has decided a message. */
  ghost predicate Good(cfg: Config, db: Db) {
    Sound(cfg, db) && GoodActors(cfg, db.approvals)
  }

  // ---------- what no statement takes back ----------

  predicate EnquiryKept(a: Enquiry, b: Enquiry) {
    && b.receivedAt == a.receivedAt && b.sender == a.sender && b.text == a.text
    && b.hash == a.hash && b.key == a.key && a.attempts <= b.attempts
  }

  /** No value a human or an earlier run put into a contact is ever overwritten. */
  predicate ContactKept(a: Contact, b: Contact) {
    && (HasText(a.name) ==> b.name == a.name) && (a.name.Some? ==> b.name.Some?)
    && (a.email.Some? ==> b.email == a.email)
    && (a.phone.Some? ==> b.phone == a.phone)
    && (a.company.Some? ==> b.company == a.company)
    && b.source == a.source
  }

  predicate RecordKept(a: CrmRecord, b: CrmRecord) {
    && b.kind == a.kind && b.contact == a.contact && b.enquiry == a.enquiry && b.open == a.open
    && (a.owner.Some? ==> b.owner == a.owner)
  }

  /** A decided message is frozen, apart from which CRM record it points at. */
  predicate MessageKept(a: Message, b: Message) {
    && b.enquiry == a.enquiry && b.kind == a.kind
    && (a.record.Some? ==> b.record.Some?)
    && (!Undecided(a.status) ==> b.body == a.body && b.status == a.status && b.draftedBy == a.draftedBy && b.sentAt == a.sentAt)
  }

  predicate CandidateKept(a: Candidate, b: Candidate) {
    && b.enquiry == a.enquiry && b.contact == a.contact
    && (a.resolution != Pending ==> b.resolution == a.resolution && b.resolvedBy == a.resolvedBy)
  }

  ghost predicate Kept(a: Db, b: Db) {
    && |a.enquiries| <= |b.enquiries| && (forall i | 0 <= i < |a.enquiries| :: EnquiryKept(a.enquiries[i], b.enquiries[i]))
    && a.companies <= b.companies
    && |a.contacts| <= |b.contacts| && (forall i | 0 <= i < |a.contacts| :: ContactKept(a.contacts[i], b.contacts[i]))
    && |a.records| <= |b.records| && (forall i | 0 <= i < |a.records| :: RecordKept(a.records[i], b.records[i]))
    && |a.messages| <= |b.messages| && (forall i | 0 <= i < |a.messages| :: MessageKept(a.messages[i], b.messages[i]))
    && a.approvals <= b.approvals
    && a.audit <= b.audit
    && |a.candidates| <= |b.candidates| && (forall i | 0 <= i < |a.candidates| :: CandidateKept(a.candidates[i], b.candidates[i]))
    && |a.extractions| <= |b.extractions| && (forall i | 0 <= i < |a.extractions| :: a.extractions[i].enquiry == b.extractions[i].enquiry)
  }

  lemma KeptIsTransitive(a: Db, b: Db, c: Db)
    requires Kept(a, b) && Kept(b, c)
    ensures Kept(a, c)
  {
    assert forall i | 0 <= i < |a.enquiries| :: EnquiryKept(b.enquiries[i], c.enquiries[i]);
    assert forall i | 0 <= i < |a.contacts| :: ContactKept(b.contacts[i], c.contacts[i]);
    assert forall i | 0 <= i < |a.records| :: RecordKept(b.records[i], c.records[i]);
    assert forall i | 0 <= i < |a.messages| :: MessageKept(b.messages[i], c.messages[i]);
    assert forall i | 0 <= i < |a.candidates| :: CandidateKept(b.candidates[i], c.candidates[i]);
  }

  // ---------- every statement keeps both ----------

  lemma {:induction false} CountDecidedUpdate(ms: seq<Message>, m: nat, row: Message)
    requires m < |ms| && Undecided(ms[m].status)
    ensures CountDecided(ms[m := row]) == CountDecided(ms) + if Undecided(row.status) then 0 else 1
  {
    var front := ms[..|ms| - 1];
    if m == |ms| - 1 {
      assert ms[m := row][..|ms| - 1] == front;
    } else {
      assert ms[m := row][..|ms| - 1] == front[m := row];
      CountDecidedUpdate(front, m, row);
    }
  }

  lemma {:induction false} CountDecidedSameStatus(ms: seq<Message>, m: nat, row: Message)
    requires m < |ms| && row.status == ms[m].status
    ensures CountDecided(ms[m := row]) == CountDecided(ms)
  {
    var front := ms[..|ms| - 1];
    if m == |ms| - 1 {
      assert ms[m := row][..|ms| - 1] == front;
    } else {
      assert ms[m := row][..|ms| - 1] == front[m := row];
      CountDecidedSameStatus(front, m, row);
    }
  }

  lemma DraftKeepsMessages(ms: seq<Message>, draft: Message)
    requires GoodMessages(ms)
    ensures GoodMessages(UpsertDraft(ms, draft))
  {}

  lemma ApprovalsFollowStatuses(ms: seq<Message>, ms': seq<Message>, xs: seq<Approval>)
    requires GoodApprovals(ms, xs) && |ms| <= |ms'|
    requires forall m | 0 <= m < |ms| :: ms'[m].status == ms[m].status
    requires forall m | |ms| <= m < |ms'| :: Undecided(ms'[m].status)
    ensures GoodApprovals(ms', xs)
  {}

  lemma DraftKeepsApprovals(ms: seq<Message>, xs: seq<Approval>, draft: Message)
    requires GoodApprovals(ms, xs)
    ensures GoodApprovals(UpsertDraft(ms, draft), xs)
    ensures CountDecided(UpsertDraft(ms, draft)) == CountDecided(ms)
  {
    var i := MessageOf(ms, draft.enquiry, draft.kind);
    if i < |ms| {
      CountDecidedSameStatus(ms, i, RedraftedRow(ms[i], draft));
      ApprovalsFollowStatuses(ms, ms[i := RedraftedRow(ms[i], draft)], xs);
    } else {
      var row := draft.(status := MsgPending, sentAt := None);
      assert (ms + [row])[..|ms|] == ms;
      ApprovalsFollowStatuses(ms, ms + [row], xs);
    }
  }

  lemma {:induction false} ApprovalOfAppend(xs: seq<Approval>, x: Approval, m: nat)
    ensures ApprovalOf(xs, m) < |xs| || x.message == m ==> ApprovalOf(xs + [x], m) < |xs| + 1
  {
    var i := ApprovalOf(xs + [x], m);
    if i == |xs| + 1 {
      assert (xs + [x])[|xs|] == x;
      assert forall j | 0 <= j < |xs| :: (xs + [x])[j] == xs[j];
    }
  }

  lemma ApproveKeepsMessages(ms: seq<Message>, m: nat, verdict: Verdict, edited: string, actor: nat, now: int)
    requires GoodMessages(ms) && m < |ms|
    ensures GoodMessages(ms[m := DecidedRow(ms[m], verdict, edited, actor, now)])
  {}

  lemma ApproveKeepsPairing(ms: seq<Message>, xs: seq<Approval>, m: nat, row: Message, x: Approval)
    requires GoodApprovals(ms, xs) && m < |ms| && Undecided(ms[m].status)
    requires x.message == m && row.status == if x.verdict == Rejected then MsgRejected else MsgSent
    ensures GoodApprovals(ms[m := row], xs + [x])
  {
    var ms', xs' := ms[m := row], xs + [x];
    forall k | 0 <= k < |ms'| && !Undecided(ms'[k].status) ensures ApprovalOf(xs', k) < |xs'| {
      ApprovalOfAppend(xs, x, k);
    }
    assert forall i | 0 <= i < |xs| :: xs[i].message != m;
  }

  lemma ApproveKeepsApprovals(ms: seq<Message>, xs: seq<Approval>, m: nat, verdict: Verdict, edited: string,
      actor: nat, now: int)
    requires GoodApprovals(ms, xs)
    requires m < |ms| && Undecided(ms[m].status)
    ensures var ms' := ms[m := DecidedRow(ms[m], verdict, edited, actor, now)];
      && GoodApprovals(ms', xs + [Approval(m, actor, verdict)])
      && CountDecided(ms') == CountDecided(ms) + 1
  {
    var row := DecidedRow(ms[m], verdict, edited, actor, now);
    CountDecidedUpdate(ms, m, row);
    ApproveKeepsPairing(ms, xs, m, row, Approval(m, actor, verdict));
  }

  lemma TrailsAppend(xs: seq<Approval>, rows: seq<AuditRow>, x: Approval, row: AuditRow)
    requires AuditTrail(rows) == ApprovalTrail(xs)
    ensures row.action.OtherAction? ==> AuditTrail(rows + [row]) == ApprovalTrail(xs)
    ensures row.entity == x.message && row.actor == Some(x.actor) &&
            row.action == (if x.verdict == Rejected then MessageRejected else MessageSent) ==>
            AuditTrail(rows + [row]) == ApprovalTrail(xs + [x])
  {
    assert (rows + [row])[..|rows|] == rows && (xs + [x])[..|xs|] == xs;
  }

  /** Whoever the actor is, a decision keeps the tables sound. */
  lemma ApproveKeepsSound(cfg: Config, db: Db, m: nat, actor: nat, verdict: Verdict, edited: string, now: int)
    requires Sound(cfg, db) && m < |db.messages| && Undecided(db.messages[m].status)
    ensures Sound(cfg, Approve(db, m, actor, verdict, edited, now))
  {
    hide GoodMessages, GoodApprovals, GoodEnquiries, GoodCompanies, GoodContacts, GoodRecords, GoodCandidates, GoodExtractions;
    hide AuditTrail, ApprovalTrail, CountDecided;
    var e := db.messages[m].enquiry;
    ApproveKeepsMessages(db.messages, m, verdict, edited, actor, now);
    ApproveKeepsApprovals(db.messages, db.approvals, m, verdict, edited, actor, now);
    TrailsAppend(db.approvals, db.audit, Approval(m, actor, verdict),
                 AuditRow(e, if verdict == Rejected then MessageRejected else MessageSent, m, Some(actor)));
    if e < |db.enquiries| {
      RowKeepsEnquiries(db.enquiries, e, db.enquiries[e].(status := if verdict == Rejected then NeedsHumanReview else Sent));
    }
  }

  lemma ApproveKeepsGood(cfg: Config, db: Db, m: nat, actor: nat, verdict: Verdict, edited: string, now: int)
    requires Good(cfg, db) && Permitted(cfg, db, DecideRow(m, actor, verdict, edited, now))
    ensures Good(cfg, Approve(db, m, actor, verdict, edited, now))
  {
    hide Sound;
    ApproveKeepsSound(cfg, db, m, actor, verdict, edited, now);
    ApproveKeepsActors(cfg, db.approvals, Approval(m, actor, verdict));
  }

  /** Any status but processing, which would need a lease, keeps the tables good. */
  lemma SetStatusKeepsGood(cfg: Config, db: Db, id: nat, status: Status)
    requires Good(cfg, db) && status != Processing
    ensures Good(cfg, Exec(cfg, db, SetStatusRow(id, status)))
  {
    hide GoodEnquiries, GoodMessages, GoodApprovals, GoodActors, CountDecided, AuditTrail, ApprovalTrail;
    if id < |db.enquiries| {
      RowKeepsEnquiries(db.enquiries, id, RestedRow(db.enquiries[id], status));
    }
  }

  lemma ApproveKeepsActors(cfg: Config, xs: seq<Approval>, x: Approval)
    requires GoodActors(cfg, xs) && x.actor < |cfg.users| && cfg.users[x.actor].role != Manager
    ensures GoodActors(cfg, xs + [x])
  {}

  lemma RowKeepsEnquiries(es: seq<Enquiry>, id: nat, row: Enquiry)
    requires GoodEnquiries(es) && id < |es| && row.key == es[id].key
    requires row.status == Processing ==> row.lockedUntil.Some?
    ensures GoodEnquiries(es[id := row])
  {}

  lemma RecordKeepsGood(rs: seq<CrmRecord>, r: CrmRecord)
    requires GoodRecords(rs)
    ensures GoodRecords(UpsertRecord(rs, r))
  {}

  lemma CandidateKeepsGood(cs: seq<Candidate>, enquiry: nat, m: Match, resolution: Resolution)
    requires GoodCandidates(cs)
    ensures GoodCandidates(RecordCandidate(cs, enquiry, m, resolution))
  {}

  lemma ExtractionKeepsGood(xs: seq<ExtractionRow>, enquiry: nat, ex: Extraction)
    requires GoodExtractions(xs)
    ensures GoodExtractions(SaveExtraction(xs, enquiry, ex))
  {}

  lemma ContactKeepsGood(f: CaseMap, db: Db, enquiry: nat, c: ContactInfo, existing: Option<nat>, hit: Option<nat>)
    requires GoodContacts(f, db.contacts) && GoodCompanies(f, db.companies)
    requires IsCompanyHit(f, db.companies, c, hit)
    ensures var r := UpsertContact(f, db, enquiry, c, existing, hit);
      r.Some? ==> GoodContacts(f, r.value.contacts) && GoodCompanies(f, r.value.companies)
  {
    var r := UpsertContact(f, db, enquiry, c, existing, hit);
    if r.Some? {
      assert GoodCompanies(f, CompaniesAfter(f, db.companies, c, hit));
      if existing.Some? {
        var k := existing.value;
        var row := FilledRow(db.contacts[k], c, CompanyIdAfter(db.companies, c, hit));
        assert db.contacts[k].email.None? && row.email.Some? ==>
          forall j | 0 <= j < |db.contacts| :: !HasEmail(f, db.contacts[j], row.email.value);
      } else if c.email.Some? {
        assert forall j | 0 <= j < |db.contacts| :: !HasEmail(f, db.contacts[j], c.email.value);
      }
    }
  }

  /** The unique indexes, the approval pairing and the audit pairing survive every statement. */
  lemma ExecKeepsGood(cfg: Config, db: Db, w: Write)
    requires Good(cfg, db) && Permitted(cfg, db, w)
    ensures Good(cfg, Exec(cfg, db, w))
  {
    hide GoodEnquiries, GoodCompanies, GoodContacts, GoodRecords, GoodMessages, GoodApprovals, GoodActors, GoodCandidates, GoodExtractions;
    hide AuditTrail, ApprovalTrail, CountDecided, UpsertContact, UpsertRecord, UpsertDraft, Approve, RecordCandidate, SaveExtraction;
    match w
    case NoWrite =>
    case InsertEnquiryRow(at, t) => InsertKeepsEnquiries(db.enquiries, at, t);
    case ClaimRow(id, at) => RowKeepsEnquiries(db.enquiries, id, ClaimedRow(db.enquiries[id], at, cfg.lockTtl));
    case SetStatusRow(id, status) =>
      if id < |db.enquiries| { RowKeepsEnquiries(db.enquiries, id, RestedRow(db.enquiries[id], status)); }
    case RequeueRow(id, at, delay) =>
      if id < |db.enquiries| { RowKeepsEnquiries(db.enquiries, id, RequeuedRow(db.enquiries[id], at, delay)); }
    case AppendAudit(row) => TrailsAppend(db.approvals, db.audit, Approval(0, 0, Rejected), row);
    case SaveExtractionRow(e, ex) => ExtractionKeepsGood(db.extractions, e, ex);
    case RecordCandidateRow(e, m, resolution) => CandidateKeepsGood(db.candidates, e, m, resolution);
    case WriteContactRow(e, ex, existing, hit) => ContactKeepsGood(cfg.lower, db, e, Trusted(ex), existing, hit);
    case WriteRecordRow(r) => RecordKeepsGood(db.records, r);
    case WriteDraftRow(draft) =>
      DraftKeepsMessages(db.messages, draft);
      DraftKeepsApprovals(db.messages, db.approvals, draft);
    case DecideRow(m, actor, verdict, edited, at) => ApproveKeepsGood(cfg, db, m, actor, verdict, edited, at);
    case ResolveRow(c, actor, resolution) => ResolveKeepsGood(db.candidates, c, actor, resolution);
  }

  lemma InsertKeepsEnquiries(es: seq<Enquiry>, at: int, t: Intake)
    requires GoodEnquiries(es)
    ensures KeyOf(es, t.key) == |es| ==> GoodEnquiries(es + [NewEnquiry(at, t)])
  {}

  lemma ResolveKeepsGood(cs: seq<Candidate>, c: nat, actor: nat, resolution: Resolution)
    requires GoodCandidates(cs)
    ensures c < |cs| ==> GoodCandidates(cs[c := cs[c].(resolution := resolution, resolvedBy := Some(actor))])
  {}

  lemma ContactWriteKeepsRows(f: CaseMap, db: Db, enquiry: nat, c: ContactInfo, existing: Option<nat>, hit: Option<nat>)
    ensures var r := UpsertContact(f, db, enquiry, c, existing, hit);
      r.Some? ==>
        && db.companies <= r.value.companies
        && |db.contacts| <= |r.value.contacts|
        && forall i | 0 <= i < |db.contacts| :: ContactKept(db.contacts[i], r.value.contacts[i])
  {}

  lemma DraftKeepsRows(ms: seq<Message>, draft: Message)
    ensures |ms| <= |UpsertDraft(ms, draft)|
    ensures forall i | 0 <= i < |ms| :: MessageKept(ms[i], UpsertDraft(ms, draft)[i])
  {}

  lemma KeptIsReflexive(db: Db)
    ensures Kept(db, db)
  {}

  lemma QueueWriteKeepsRows(cfg: Config, db: Db, w: Write)
    requires w.InsertEnquiryRow? || w.ClaimRow? || w.SetStatusRow? || w.RequeueRow?
    ensures Kept(db, Exec(cfg, db, w))
  {
    KeptIsReflexive(db);
    var es, es' := db.enquiries, Exec(cfg, db, w).enquiries;
    assert |es| <= |es'| && forall i | 0 <= i < |es| :: EnquiryKept(es[i], es'[i]);
  }

  /** No statement loses a row, overwrites a known contact value, moves a CRM record to
      another contact or owner, or touches a decided message. */
  lemma ExecKeepsRows(cfg: Config, db: Db, w: Write)
    requires Permitted(cfg, db, w)
    ensures Kept(db, Exec(cfg, db, w))
  {
    KeptIsReflexive(db);
    if w.WriteContactRow? {
      ContactWriteKeepsRows(cfg.lower, db, w.enquiry, Trusted(w.ex), w.existing, w.hit);
    } else if w.WriteDraftRow? {
      DraftKeepsRows(db.messages, w.draft);
    } else if w.InsertEnquiryRow? || w.ClaimRow? || w.SetStatusRow? || w.RequeueRow? {
      QueueWriteKeepsRows(cfg, db, w);
    } else {
      OtherWriteKeepsRows(cfg, db, w);
    }
  }

  lemma OtherWriteKeepsRows(cfg: Config, db: Db, w: Write)
    requires Permitted(cfg, db, w)
    requires !w.WriteContactRow? && !w.WriteDraftRow? && !w.InsertEnquiryRow? && !w.ClaimRow? && !w.SetStatusRow? && !w.RequeueRow?
    ensures Kept(db, Exec(cfg, db, w))
  {
    hide ContactKept, UpsertContact, UpsertDraft;
    KeptIsReflexive(db);
  }
}
