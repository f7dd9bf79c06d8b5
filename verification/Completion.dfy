/** The runs that crash-replay convergence speaks about exist: from every start it allows,
    a worker that is not interrupted finishes the enquiry. And so do runs that diverge. */
module Completion {
  import opened Base
  import opened Text
  import opened Model
  import opened Router
  import opened Grounding
  import opened Tables
  import opened System
  import opened Queue
  import opened Replay
  import opened Convergence
  import opened Workers

  // ---------- building paths ----------

  /** The oracle is faithful and, if asked to, lets the rules be read. */
  predicate Fair(cfg: Config, text: string, p: Case, ruled: bool, o: Oracle) {
    Faithful(cfg, text, p, o) && (ruled ==> o.rulesOk)
  }

  ghost predicate AllFair(cfg: Config, text: string, p: Case, ruled: bool, turns: seq<Turn>) {
    forall i | 0 <= i < |turns| :: Fair(cfg, text, p, ruled, turns[i].oracle)
  }

  /** A path of faithful turns at one time. */
  ghost predicate Reaches(cfg: Config, text: string, p: Case, ruled: bool, at: int, db: Db, pc: Pc, turns: seq<Turn>, db': Db, next: Pc) {
    Path(cfg, db, pc, turns, db', next) && AllAt(turns, at) && AllFair(cfg, text, p, ruled, turns)
  }

  lemma Begin(cfg: Config, text: string, p: Case, ruled: bool, at: int, db: Db, pc: Pc)
    ensures Reaches(cfg, text, p, ruled, at, db, pc, [], db, pc)
  {}

  /** The way so far, and one more turn. */
  lemma Onward(cfg: Config, text: string, p: Case, ruled: bool, at: int, db: Db, pc: Pc, turns: seq<Turn>, d: Db, mid: Pc, turn: Turn,
      db': Db, next: Pc)
    requires Reaches(cfg, text, p, ruled, at, db, pc, turns, d, mid)
    requires Leads(cfg, d, mid, turn, db', next) && turn.at == at && Fair(cfg, text, p, ruled, turn.oracle)
    ensures Reaches(cfg, text, p, ruled, at, db, pc, turns + [turn], db', next)
  {
    hide Path, Leads, Fair;
    Go(cfg, db, pc, turns, d, mid, turn, db', next);
  }

  lemma Join(cfg: Config, text: string, p: Case, ruled: bool, at: int, db: Db, pc: Pc, a: seq<Turn>, d: Db, mid: Pc, b: seq<Turn>, db': Db, next: Pc)
    requires Reaches(cfg, text, p, ruled, at, db, pc, a, d, mid) && Reaches(cfg, text, p, ruled, at, d, mid, b, db', next)
    ensures Reaches(cfg, text, p, ruled, at, db, pc, a + b, db', next)
  {
    hide Path, Fair;
    PathsJoin(cfg, db, pc, a, d, mid, b, db', next);
  }

  lemma PlainAnswersAreFair(cfg: Config, text: string, p: Case, ruled: bool, o: Oracle)
    requires (o.row.Some? ==> o.row.value == p.id) && o.tier1.None? && o.tier2.None? && (ruled ==> o.rulesOk)
    ensures Fair(cfg, text, p, ruled, o)
  {}

  /** Nothing but the queue, extractions and candidates differs. */
  ghost predicate CrmIs(db0: Db, db: Db) {
    && db.contacts == db0.contacts && db.companies == db0.companies
    && db.records == db0.records && db.messages == db0.messages && |db.enquiries| == |db0.enquiries|
  }

  // ---------- from the claim to the routing decision ----------

  /** What the attempt that starts with the next claim will see. */
  ghost predicate Attemptable(cfg: Config, p: Case, at: int, db: Db, dup: Option<Match>, text: string) {
    && IsOldestClaimable(db.enquiries, at, p.id) && db.enquiries[p.id].text == text
    && !HasRecentDuplicate(db.enquiries, db.enquiries[p.id].hash, p.id, at, cfg.dedupeWindow)
    && (if p.ex.enquiryType == TYPE_JUNK then dup.None? else IsMatch(cfg, db, Trusted(p.ex), dup))
  }

  /** The model's answers lead to the extraction, and the draft is not blank. */
  datatype Answers = Answers(tier1: Option<Extraction>, tier2: Option<Extraction>, reply: (string, Author))

  predicate Answering(cfg: Config, text: string, p: Case, ans: Answers) {
    Extract(cfg.lower, ans.tier1, ans.tier2, cfg.confidence, text) == Some(p.ex) && !Blank(ans.reply.0)
  }

  function Claimed(cfg: Config, db: Db, id: nat, at: int): Db {
    Exec(cfg, db, ClaimRow(id, at))
  }

  lemma ClaimKeepsHashes(cfg: Config, db: Db, id: nat, at: int, hash: string)
    requires id < |db.enquiries|
    ensures HasRecentDuplicate(Claimed(cfg, db, id, at).enquiries, hash, id, at, cfg.dedupeWindow) ==
      HasRecentDuplicate(db.enquiries, hash, id, at, cfg.dedupeWindow)
  {
    var es, es' := db.enquiries, Claimed(cfg, db, id, at).enquiries;
    assert forall j | 0 <= j < |es| && j != id :: es'[j] == es[j];
  }

  lemma ToMatch(cfg: Config, p: Case, ruled: bool, at: int, db: Db, dup: Option<Match>, text: string, ans: Answers)
    returns (turns: seq<Turn>, db': Db, e: Snapshot)
    requires Attemptable(cfg, p, at, db, dup, text) && Answering(cfg, text, p, ans)
    ensures Reaches(cfg, text, p, ruled, at, db, Draining, turns, db', AtMatch(e, p.ex)) && e.id == p.id
    ensures e.attempts == db.enquiries[p.id].attempts + 1
    ensures CrmIs(db, db') && db'.candidates == db.candidates && db'.enquiries == Claimed(cfg, db, p.id, at).enquiries
  {
    hide Path, Leads, Take, After, Blank, Reaches, IsMatch, Trusted, Extract, HasRecentDuplicate, SaveExtraction;
    var turn := Turn(at, Answer(true));
    var claiming, asking := Turn(at, Answer(true).(row := Some(p.id))), Turn(at, Answer(true).(tier1 := ans.tier1, tier2 := ans.tier2));
    var d := Claimed(cfg, db, p.id, at);
    e := SnapshotOf(d.enquiries, p.id);
    db' := Exec(cfg, d, SaveExtractionRow(e.id, p.ex));
    PlainAnswersAreFair(cfg, text, p, ruled, turn.oracle);
    PlainAnswersAreFair(cfg, text, p, ruled, claiming.oracle);
    Begin(cfg, text, p, ruled, at, db, Draining);
    ClaimTurn(cfg, db, at, p.id);
    Onward(cfg, text, p, ruled, at, db, Draining, [], db, Draining, claiming, d, AtDedupe(e));
    turns := [] + [claiming];
    ClaimKeepsHashes(cfg, db, p.id, at, db.enquiries[p.id].hash);
    DedupeTurn(cfg, d, at, e);
    Onward(cfg, text, p, ruled, at, db, Draining, turns, d, AtDedupe(e), turn, d, AtExtract(e));
    turns := turns + [turn];
    ExtractTurn(cfg, d, at, e, ans.tier1, ans.tier2);
    Onward(cfg, text, p, ruled, at, db, Draining, turns, d, AtExtract(e), asking, d, AtSave(e, p.ex));
    turns := turns + [asking];
    SaveTurn(cfg, d, at, e, p.ex);
    Onward(cfg, text, p, ruled, at, db, Draining, turns, d, AtSave(e, p.ex), turn, db', AtMatch(e, p.ex));
    turns := turns + [turn];
  }

  lemma CandidateKeepsCrm(cfg: Config, db: Db, enquiry: nat, m: Match, resolution: Resolution)
    requires enquiry < |db.enquiries| && m.contact < |db.contacts|
    ensures var db' := Exec(cfg, db, RecordCandidateRow(enquiry, m, resolution));
      CrmIs(db, db') && db'.enquiries == db.enquiries && db'.candidates == RecordCandidate(db.candidates, enquiry, m, resolution)
  {}

  /** The candidates after an attempt that matched like this. */
  function CandidatesAfter(cfg: Config, cs: seq<Candidate>, enquiry: nat, dup: Option<Match>): seq<Candidate> {
    if dup.None? then cs
    else RecordCandidate(cs, enquiry, dup.value, if dup.value.score >= cfg.autoAttach then AutoAttached else Pending)
  }

  lemma MatchIsThere(cfg: Config, db: Db, c: ContactInfo, m: Option<Match>)
    requires IsMatch(cfg, db, c, m)
    ensures m.Some? ==> m.value.contact < |db.contacts|
  {
    hide EmailMatches, PhoneMatches, FuzzyMatches, FuzzyScore;
  }

  lemma ToRoute(cfg: Config, p: Case, ruled: bool, at: int, db: Db, dup: Option<Match>, text: string, ans: Answers)
    returns (turns: seq<Turn>, db': Db, e: Snapshot)
    requires Attemptable(cfg, p, at, db, dup, text) && Answering(cfg, text, p, ans)
    ensures Reaches(cfg, text, p, ruled, at, db, Draining, turns, db', AtRoute(e, p.ex, dup)) && e.id == p.id
    ensures e.attempts == db.enquiries[p.id].attempts + 1
    ensures CrmIs(db, db') && db'.enquiries == Claimed(cfg, db, p.id, at).enquiries
    ensures db'.candidates == CandidatesAfter(cfg, db.candidates, p.id, dup)
  {
    hide Path, Leads, Take, After, Blank, Reaches, IsMatch, Trusted, Extract, HasRecentDuplicate, Exec, Claimed, RecordCandidate;
    var mid;
    turns, mid, e := ToMatch(cfg, p, ruled, at, db, dup, text, ans);
    var matching, turn := Turn(at, Answer(true).(found := dup)), Turn(at, Answer(true));
    MatchReadsContacts(cfg, db, mid, Trusted(p.ex), dup);
    MatchTurn(cfg, mid, at, e, p.ex, dup);
    PlainAnswersAreFair(cfg, text, p, ruled, matching.oracle);
    PlainAnswersAreFair(cfg, text, p, ruled, turn.oracle);
    if dup.Some? {
      var resolution := if dup.value.score >= cfg.autoAttach then AutoAttached else Pending;
      db' := Exec(cfg, mid, RecordCandidateRow(e.id, dup.value, resolution));
      MatchIsThere(cfg, db, Trusted(p.ex), dup);
      CandidateKeepsCrm(cfg, mid, e.id, dup.value, resolution);
      Onward(cfg, text, p, ruled, at, db, Draining, turns, mid, AtMatch(e, p.ex), matching, mid, AtRecordMatch(e, p.ex, dup.value));
      CandidateTurn(cfg, mid, at, e, p.ex, dup.value);
      Onward(cfg, text, p, ruled, at, db, Draining, turns + [matching], mid, AtRecordMatch(e, p.ex, dup.value), turn, db', AtRoute(e, p.ex, dup));
      turns := turns + [matching] + [turn];
    } else {
      db' := mid;
      Onward(cfg, text, p, ruled, at, db, Draining, turns, mid, AtMatch(e, p.ex), matching, mid, AtRoute(e, p.ex, dup));
      turns := turns + [matching];
    }
  }

  /** One more turn: the routing decision. */
  lemma ToDecision(cfg: Config, p: Case, ruled: bool, at: int, db: Db, dup: Option<Match>, text: string, ans: Answers)
    returns (turns: seq<Turn>, db': Db, e: Snapshot)
    requires Attemptable(cfg, p, at, db, dup, text) && Answering(cfg, text, p, ans)
    ensures var d := Route(p.ex, dup, cfg.rules, cfg.confidence, cfg.autoAttach);
      Reaches(cfg, text, p, ruled, at, db, Draining, turns, db', AfterRoute(e, p.ex, dup, d)) && e.id == p.id
    ensures e.attempts == db.enquiries[p.id].attempts + 1
    ensures CrmIs(db, db') && db'.enquiries == Claimed(cfg, db, p.id, at).enquiries
    ensures db'.candidates == CandidatesAfter(cfg, db.candidates, p.id, dup)
  {
    hide Path, Leads, Reaches, Route, AfterRoute, Claimed, Answering, CrmIs, CandidatesAfter, IsMatch, Trusted, HasRecentDuplicate;
    turns, db', e := ToRoute(cfg, p, ruled, at, db, dup, text, ans);
    var turn, d := Turn(at, Answer(true)), Route(p.ex, dup, cfg.rules, cfg.confidence, cfg.autoAttach);
    RouteTurn(cfg, db', at, e, p.ex, dup);
    PlainAnswersAreFair(cfg, text, p, ruled, turn.oracle);
    Onward(cfg, text, p, ruled, at, db, Draining, turns, db', AtRoute(e, p.ex, dup), turn, db', AfterRoute(e, p.ex, dup, d));
    turns := turns + [turn];
  }

  // ---------- from the decision to the end ----------

  lemma FromRest(cfg: Config, text: string, p: Case, ruled: bool, at: int, db: Db, e: Snapshot, status: Status, basis: Option<Extraction>)
    returns (turns: seq<Turn>, db': Db)
    requires e.id == p.id < |db.enquiries| && EndsWork(status)
    ensures Reaches(cfg, text, p, ruled, at, db, AtRest(e, status, basis), turns, db', Draining) && Finished(db', p.id)
    ensures db'.records == db.records && db'.messages == db.messages && db'.contacts == db.contacts
    ensures db'.companies == db.companies && db'.candidates == db.candidates
    ensures db'.enquiries == db.enquiries[p.id := RestedRow(db.enquiries[p.id], status)]
  {
    hide Path, Leads, Fair, Take, After;
    var turn := Turn(at, Answer(true));
    db' := Exec(cfg, db, SetStatusRow(e.id, status));
    RestTurn(cfg, db, at, e, status, basis);
    PlainAnswersAreFair(cfg, text, p, ruled, turn.oracle);
    Begin(cfg, text, p, ruled, at, db, AtRest(e, status, basis));
    Onward(cfg, text, p, ruled, at, db, AtRest(e, status, basis), [], db, AtRest(e, status, basis), turn, db', Draining);
    turns := [] + [turn];
  }

  /** Drafting, up to the last write of the attempt. */
  lemma DraftToRest(cfg: Config, text: string, p: Case, ruled: bool, at: int, db: Db, e: Snapshot, ex: Extraction, kind: MessageKind,
      record: Option<nat>, reply: (string, Author))
    returns (turns: seq<Turn>, db': Db)
    requires e.id == p.id < |db.enquiries| && !Blank(reply.0)
    ensures Reaches(cfg, text, p, ruled, at, db, AtDraft(e, ex, kind, record), turns, db', AtRest(e, PendingApproval, Some(ex)))
    ensures db' == db.(messages := UpsertDraft(db.messages, DraftOf(e, kind, record, reply)))
  {
    hide Path, Leads, Take, After, Blank, Reaches, UpsertDraft;
    var drafting, saving, draft := Turn(at, Answer(true).(reply := Some(reply))), Turn(at, Answer(true)), DraftOf(e, kind, record, reply);
    var pc := AtDraft(e, ex, kind, record);
    db' := Exec(cfg, db, WriteDraftRow(draft));
    PlainAnswersAreFair(cfg, text, p, ruled, saving.oracle);
    PlainAnswersAreFair(cfg, text, p, ruled, drafting.oracle);
    Begin(cfg, text, p, ruled, at, db, pc);
    DraftTurn(cfg, db, at, e, ex, kind, record, Some(reply));
    Onward(cfg, text, p, ruled, at, db, pc, [], db, pc, drafting, db, AtSaveDraft(e, ex, draft));
    SaveDraftTurn(cfg, db, at, e, ex, draft);
    Onward(cfg, text, p, ruled, at, db, pc, [] + [drafting], db, AtSaveDraft(e, ex, draft), saving, db', AtRest(e, PendingApproval, Some(ex)));
    turns := [] + [drafting] + [saving];
  }

  function AwaitingApproval(es: seq<Enquiry>, id: nat): seq<Enquiry>
    requires id < |es|
  {
    es[id := RestedRow(es[id], PendingApproval)]
  }

  lemma FromDraft(cfg: Config, text: string, p: Case, ruled: bool, at: int, db: Db, e: Snapshot, ex: Extraction, kind: MessageKind,
      record: Option<nat>, reply: (string, Author))
    returns (turns: seq<Turn>, db': Db)
    requires e.id == p.id < |db.enquiries| && !Blank(reply.0)
    ensures Reaches(cfg, text, p, ruled, at, db, AtDraft(e, ex, kind, record), turns, db', Draining) && Finished(db', p.id)
    ensures db'.records == db.records && db'.messages == UpsertDraft(db.messages, DraftOf(e, kind, record, reply))
    ensures db'.contacts == db.contacts && db'.companies == db.companies
    ensures db'.enquiries == AwaitingApproval(db.enquiries, p.id)
  {
    hide Path, Blank, Reaches, UpsertDraft;
    var first, mid := DraftToRest(cfg, text, p, ruled, at, db, e, ex, kind, record, reply);
    var rest;
    rest, db' := FromRest(cfg, text, p, ruled, at, mid, e, PendingApproval, Some(ex));
    Join(cfg, text, p, ruled, at, db, AtDraft(e, ex, kind, record), first, mid, AtRest(e, PendingApproval, Some(ex)), rest, db', Draining);
    turns := first + rest;
  }

  function RecordedTeam(rs: seq<CrmRecord>, enquiry: nat): Option<string> {
    var i := RecordOf(rs, enquiry);
    if i < |rs| then Some(rs[i].team) else None
  }

  function RecordedContact(rs: seq<CrmRecord>, enquiry: nat): Option<nat> {
    var i := RecordOf(rs, enquiry);
    if i < |rs| then Some(rs[i].contact) else None
  }

  /** What is recorded for other enquiries is on the same contacts as before. */
  ghost predicate OthersRecorded(a: seq<CrmRecord>, b: seq<CrmRecord>, enquiry: nat) {
    forall e: nat | e != enquiry :: RecordedContact(b, e) == RecordedContact(a, e)
  }

  lemma OthersStayRecorded(rs: seq<CrmRecord>, r: CrmRecord)
    ensures OthersRecorded(rs, UpsertRecord(rs, r), r.enquiry)
  {
    var rs' := UpsertRecord(rs, r);
    forall e: nat | e != r.enquiry ensures RecordedContact(rs', e) == RecordedContact(rs, e) {
      var i := RecordOf(rs, e);
      assert forall j | 0 <= j < |rs| :: rs'[j].enquiry == rs[j].enquiry && rs'[j].contact == rs[j].contact;
      assert i < |rs| ==> RecordOf(rs', e) == i;
      assert i == |rs| ==> RecordOf(rs', e) == |rs'|;
    }
  }

  lemma TeamOfRecord(rs: seq<CrmRecord>, r: CrmRecord)
    ensures RecordedTeam(UpsertRecord(rs, r), r.enquiry) == Some(r.team)
    ensures RecordOf(rs, r.enquiry) == |rs| ==> RecordedContact(UpsertRecord(rs, r), r.enquiry) == Some(r.contact)
  {
    RecordingTwice(rs, r, r);
  }

  /** The record and the reply, with or without the rules. */
  lemma FromOwner(cfg: Config, text: string, p: Case, ruled: bool, at: int, db: Db, e: Snapshot, ex: Extraction, dup: Option<Match>,
      d: Decision, contact: nat, rulesOk: bool, reply: (string, Author))
    returns (turns: seq<Turn>, db': Db)
    requires e.id == p.id < |db.enquiries| && contact < |db.contacts| && !Blank(reply.0) && (ruled ==> rulesOk)
    ensures Reaches(cfg, text, p, ruled, at, db, AtOwner(e, ex, dup, d, contact), turns, db', Draining) && Finished(db', p.id)
    ensures db'.contacts == db.contacts && db'.companies == db.companies
    ensures db'.enquiries == AwaitingApproval(db.enquiries, p.id) && OthersRecorded(db.records, db'.records, p.id)
    ensures RecordedTeam(db'.records, p.id) == Some(TeamAndUser(cfg, ex, dup, d, rulesOk).0)
    ensures RecordOf(db.records, p.id) == |db.records| ==> RecordedContact(db'.records, p.id) == Some(contact)
  {
    hide Path, Leads, Take, After, Blank, Reaches, TeamAndUser, PickOwner, UpsertRecord, UpsertDraft, RecordedTeam, RecordedContact, OthersRecorded;
    var turn, owning, pc := Turn(at, Answer(true)), Turn(at, Answer(true).(rulesOk := rulesOk)), AtOwner(e, ex, dup, d, contact);
    var team, user := TeamAndUser(cfg, ex, dup, d, rulesOk).0, TeamAndUser(cfg, ex, dup, d, rulesOk).1;
    var owner := if user.None? && team != "" then PickOwner(cfg.users, db.records, team) else user;
    var r := CrmRecord(RecordKindOf(ex.enquiryType), contact, owner, team, true, e.id);
    var mid, record := Exec(cfg, db, WriteRecordRow(r)), Some(RecordOf(db.records, e.id));
    PlainAnswersAreFair(cfg, text, p, ruled, turn.oracle);
    PlainAnswersAreFair(cfg, text, p, ruled, owning.oracle);
    Begin(cfg, text, p, ruled, at, db, pc);
    OwnerTurn(cfg, db, at, e, ex, dup, d, contact, rulesOk);
    Onward(cfg, text, p, ruled, at, db, pc, [], db, pc, owning, db, AtRecord(e, ex, contact, team, owner));
    RecordTurn(cfg, db, at, e, ex, contact, team, owner);
    Onward(cfg, text, p, ruled, at, db, pc, [] + [owning], db, AtRecord(e, ex, contact, team, owner), turn, mid, AtDraft(e, ex, Reply, record));
    var rest;
    rest, db' := FromDraft(cfg, text, p, ruled, at, mid, e, ex, Reply, record, reply);
    Join(cfg, text, p, ruled, at, db, pc, [] + [owning] + [turn], mid, AtDraft(e, ex, Reply, record), rest, db', Draining);
    turns := [] + [owning] + [turn] + rest;
    TeamOfRecord(db.records, r);
    OthersStayRecorded(db.records, r);
  }

  /** The contact write. */
  lemma ContactToOwner(cfg: Config, text: string, p: Case, ruled: bool, at: int, db: Db, e: Snapshot, ex: Extraction, dup: Option<Match>,
      d: Decision, hit: Option<nat>, w: ContactWrite)
    returns (turns: seq<Turn>, db': Db)
    requires e.id == p.id < |db.enquiries| && IsCompanyHit(cfg.lower, db.companies, Trusted(ex), hit)
    requires UpsertContact(cfg.lower, db, e.id, Trusted(ex), Existing(dup, d), hit) == Some(w)
    ensures Reaches(cfg, text, p, ruled, at, db, AtContact(e, ex, dup, d), turns, db', AtOwner(e, ex, dup, d, w.id))
    ensures db' == db.(companies := w.companies, contacts := w.contacts)
  {
    hide Path, Leads, Take, After, Reaches, IsCompanyHit, Trusted, UpsertContact, Existing;
    var turn := Turn(at, Answer(true).(company := hit));
    db' := Exec(cfg, db, WriteContactRow(e.id, ex, Existing(dup, d), hit));
    PlainAnswersAreFair(cfg, text, p, ruled, turn.oracle);
    Begin(cfg, text, p, ruled, at, db, AtContact(e, ex, dup, d));
    ContactTurn(cfg, db, at, e, ex, dup, d, hit);
    Onward(cfg, text, p, ruled, at, db, AtContact(e, ex, dup, d), [], db, AtContact(e, ex, dup, d), turn, db', AtOwner(e, ex, dup, d, w.id));
    turns := [] + [turn];
  }

  lemma WriteHasTarget(f: CaseMap, db: Db, enquiry: nat, c: ContactInfo, existing: Option<nat>, hit: Option<nat>)
    ensures var w := UpsertContact(f, db, enquiry, c, existing, hit); w.Some? ==> w.value.id < |w.value.contacts|
  {
    hide CompaniesAfter, CompanyIdAfter, EmailTaken, FilledRow;
  }

  lemma FromContact(cfg: Config, text: string, p: Case, ruled: bool, at: int, db: Db, e: Snapshot, ex: Extraction, dup: Option<Match>,
      d: Decision, hit: Option<nat>, rulesOk: bool, reply: (string, Author))
    returns (turns: seq<Turn>, db': Db)
    requires e.id == p.id < |db.enquiries| && !Blank(reply.0) && (ruled ==> rulesOk)
    requires IsCompanyHit(cfg.lower, db.companies, Trusted(ex), hit)
    requires UpsertContact(cfg.lower, db, e.id, Trusted(ex), Existing(dup, d), hit).Some?
    ensures Reaches(cfg, text, p, ruled, at, db, AtContact(e, ex, dup, d), turns, db', Draining) && Finished(db', p.id)
    ensures db'.contacts == UpsertContact(cfg.lower, db, e.id, Trusted(ex), Existing(dup, d), hit).value.contacts
    ensures db'.companies == UpsertContact(cfg.lower, db, e.id, Trusted(ex), Existing(dup, d), hit).value.companies
    ensures db'.enquiries == AwaitingApproval(db.enquiries, p.id) && OthersRecorded(db.records, db'.records, p.id)
    ensures RecordedTeam(db'.records, p.id) == Some(TeamAndUser(cfg, ex, dup, d, rulesOk).0)
    ensures RecordOf(db.records, p.id) == |db.records| ==>
      RecordedContact(db'.records, p.id) == Some(UpsertContact(cfg.lower, db, e.id, Trusted(ex), Existing(dup, d), hit).value.id)
  {
    hide Path, Leads, Blank, Reaches, IsCompanyHit, Trusted, UpsertContact, Existing, TeamAndUser, UpsertRecord, RecordedTeam, RecordedContact, OthersRecorded;
    var w := UpsertContact(cfg.lower, db, e.id, Trusted(ex), Existing(dup, d), hit).value;
    WriteHasTarget(cfg.lower, db, e.id, Trusted(ex), Existing(dup, d), hit);
    var first, mid := ContactToOwner(cfg, text, p, ruled, at, db, e, ex, dup, d, hit, w);
    var rest;
    rest, db' := FromOwner(cfg, text, p, ruled, at, mid, e, ex, dup, d, w.id, rulesOk, reply);
    Join(cfg, text, p, ruled, at, db, AtContact(e, ex, dup, d), first, mid, AtOwner(e, ex, dup, d, w.id), rest, db', Draining);
    turns := first + rest;
  }

  /** On the CRM path: the contact as the first write of it makes it, and a record on that contact. */
  ghost predicate CrmWritten(cfg: Config, db0: Db, p: Case, db: Db) {
    ToCrm(cfg, p) ==>
      && Contacted(cfg, db0, p).Some? && db.contacts == Contacted(cfg, db0, p).value.contacts
      && (RecordOf(db0.records, p.id) == |db0.records| ==> RecordedContact(db.records, p.id) == Some(Target(cfg, db0, p)))
  }

  lemma FromDecision(cfg: Config, p: Case, db0: Db, now0: int, ruled: bool, at: int, db: Db, e: Snapshot, reply: (string, Author))
    returns (turns: seq<Turn>, db': Db)
    requires Prepared(cfg, db0, now0, p) && CrmIs(db0, db) && e.id == p.id && !Blank(reply.0)
    ensures Reaches(cfg, db0.enquiries[p.id].text, p, ruled, at, db, AfterRoute(e, p.ex, p.dup, Decided(cfg, p)), turns, db', Draining)
    ensures Finished(db', p.id) && CrmWritten(cfg, db0, p, db')
    ensures p.id < |db'.enquiries| && db'.enquiries[p.id].status == RestingPlace(cfg, p)
  {
    hide Path, Leads, Take, After, Exec, Blank, Reaches, IsCompanyHit, IsMatch, Trusted, UpsertContact, Route, Checked, Existing;
    hide InOrder, GoodContacts, HasRecentDuplicate, CanBeFoundAgain, UpsertDraft, UpsertRecord, TeamAndUser, RecordedContact, RecordedTeam;
    var text, d := db0.enquiries[p.id].text, Decided(cfg, p);
    match d.action {
      case ReviewByHuman => turns, db' := FromRest(cfg, text, p, ruled, at, db, e, NeedsHumanReview, Some(p.ex));
      case FlagForMergeReview => turns, db' := FromRest(cfg, text, p, ruled, at, db, e, NeedsHumanReview, Some(p.ex));
      case ArchiveJunk => turns, db' := FromRest(cfg, text, p, ruled, at, db, e, ArchivedJunk, Some(p.ex));
      case DraftClarifyingQuestion =>
        turns, db' := FromDraft(cfg, text, p, ruled, at, db, e, p.ex, ClarifyingQuestion, None, reply);
      case _ =>
        FirstContactWriteSucceeds(cfg, db0, now0, p);
        SameTablesSameWrite(cfg.lower, db0, db, p.id, Trusted(p.ex), Existing(p.dup, d), p.hit);
        turns, db' := FromContact(cfg, text, p, ruled, at, db, e, p.ex, p.dup, d, p.hit, true, reply);
    }
  }

  /** The process starts with one worker, and the enquiry is next in the queue. */
  ghost predicate NextInLine(cfg: Config, p: Case, s: State) {
    && Start(cfg, s) && |s.workers| == 1 && Prepared(cfg, s.db, s.now, p)
    && IsOldestClaimable(s.db.enquiries, s.now, p.id)
  }

  lemma NextIsAttemptable(cfg: Config, p: Case, s: State)
    requires NextInLine(cfg, p, s)
    ensures Attemptable(cfg, p, s.now, s.db, p.dup, s.db.enquiries[p.id].text)
    ensures Locked(s.reviewers) == {}
  {
    hide Good, Checked, IsMatch, IsCompanyHit, InOrder, GoodContacts, HasRecentDuplicate, Decided, Trusted, IsOldestClaimable;
  }

  /** Events that come of fair turns of the one worker. */
  lemma FairTurnsAreAlone(cfg: Config, text: string, p: Case, ruled: bool, turns: seq<Turn>, events: seq<Event>)
    requires AllFair(cfg, text, p, ruled, turns)
    requires forall k | 0 <= k < |events| :: events[k].Tick? || exists j | 0 <= j < |turns| :: events[k] == Work(0, turns[j].oracle)
    ensures AloneThroughout(cfg, text, p, events) && (ruled ==> AlwaysReads(events))
    ensures forall k | 0 <= k < |events| :: events[k].Tick? || events[k].Work?
  {
    hide Faithful;
  }

  /** A path of fair turns of one worker among several. */
  lemma RunOfWorker(cfg: Config, text: string, p: Case, ruled: bool, s: State, i: nat, turns: seq<Turn>, db': Db, next: Pc)
    returns (events: seq<Event>)
    requires i < |s.workers| && Locked(s.reviewers) == {}
    requires Reaches(cfg, text, p, ruled, s.now, s.db, s.workers[i], turns, db', next)
    ensures var t := System.Run(cfg, s, events);
      t.db == db' && t.workers == s.workers[i := next] && t.reviewers == s.reviewers && t.now == s.now
  {
    hide System.Run, Path, AllFair;
    events := PathIsRun(cfg, s, i, turns, s.now, db', next);
  }

  /** A path of fair turns of the one worker is such a run of the process. */
  lemma RunOfPath(cfg: Config, text: string, p: Case, ruled: bool, s: State, turns: seq<Turn>, db': Db, next: Pc)
    returns (events: seq<Event>)
    requires |s.workers| == 1 && Locked(s.reviewers) == {}
    requires Reaches(cfg, text, p, ruled, s.now, s.db, s.workers[0], turns, db', next)
    ensures AloneThroughout(cfg, text, p, events) && (ruled ==> AlwaysReads(events))
    ensures forall k | 0 <= k < |events| :: events[k].Tick? || events[k].Work?
    ensures var t := System.Run(cfg, s, events); t.db == db' && t.workers == [next] && t.reviewers == s.reviewers && t.now == s.now
  {
    hide System.Run, Path, AllFair, AloneThroughout, AlwaysReads;
    events := PathIsRun(cfg, s, 0, turns, s.now, db', next);
    FairTurnsAreAlone(cfg, text, p, ruled, turns, events);
  }

  lemma FromStart(cfg: Config, p: Case, at: int, db: Db, now0: int, text: string, ans: Answers) returns (turns: seq<Turn>, db': Db)
    requires Prepared(cfg, db, now0, p) && Attemptable(cfg, p, at, db, p.dup, text) && Answering(cfg, text, p, ans)
    ensures Reaches(cfg, text, p, true, at, db, Draining, turns, db', Draining) && Finished(db', p.id) && CrmWritten(cfg, db, p, db')
    ensures p.id < |db'.enquiries| && db'.enquiries[p.id].status == RestingPlace(cfg, p)
  {
    hide CrmWritten, Path, Reaches, Prepared, Finished, CrmIs, Claimed, IsOldestClaimable, AfterRoute, Decided, Route, Blank, Extract, IsMatch, HasRecentDuplicate;
    var first, mid, e := ToDecision(cfg, p, true, at, db, p.dup, text, ans);
    DecidedIsRoute(cfg, p);
    var rest;
    rest, db' := FromDecision(cfg, p, db, now0, true, at, mid, e, ans.reply);
    Join(cfg, text, p, true, at, db, Draining, first, mid, AfterRoute(e, p.ex, p.dup, Decided(cfg, p)), rest, db', Draining);
    turns := first + rest;
  }

  /** From every start with the enquiry next in the queue, if the model answers, the enquiry
      is finished by a run without a crash, a shutdown or a restart. */
  lemma UninterruptedRunFinishes(cfg: Config, p: Case, s: State, ans: Answers) returns (events: seq<Event>)
    requires NextInLine(cfg, p, s) && Answering(cfg, s.db.enquiries[p.id].text, p, ans)
    ensures AloneThroughout(cfg, s.db.enquiries[p.id].text, p, events) && AlwaysReads(events)
    ensures forall k | 0 <= k < |events| :: events[k].Tick? || events[k].Work?
    ensures Finished(System.Run(cfg, s, events).db, p.id) && CrmWritten(cfg, s.db, p, System.Run(cfg, s, events).db)
    ensures p.id < |System.Run(cfg, s, events).db.enquiries|
    ensures System.Run(cfg, s, events).db.enquiries[p.id].status == RestingPlace(cfg, p)
  {
    var text := s.db.enquiries[p.id].text;
    hide CrmWritten, System.Run, Reaches, Prepared, Good, Attemptable, Finished, IsOldestClaimable, AloneThroughout, AlwaysReads, Answering;
    NextIsAttemptable(cfg, p, s);
    var turns, db' := FromStart(cfg, p, s.now, s.db, s.now, text, ans);
    events := RunOfPath(cfg, text, p, true, s, turns, db', Draining);
  }

  // ---------- a run that does not converge ----------

  /** The row is not locked away from the process's next attempt by other work in the queue. */
  predicate NothingElseIsOpen(es: seq<Enquiry>, id: nat) {
    forall j | 0 <= j < |es| && j != id :: IsResting(es[j].status)
  }

  lemma CompanyAnswerExists(f: CaseMap, rows: seq<Company>, c: ContactInfo) returns (hit: Option<nat>)
    ensures IsCompanyHit(f, rows, c, hit)
  {
    if NamesCompany(c) {
      hit := BestCompany(f, rows, c.company.value, DomainOf(f, c.email), |rows|);
    } else {
      hit := None;
    }
  }

  /** The best match among the first n companies. */
  lemma {:induction false} BestCompany(f: CaseMap, rows: seq<Company>, name: string, domain: string, n: nat) returns (hit: Option<nat>)
    requires n <= |rows|
    ensures hit.None? ==> forall j | 0 <= j < n :: !CompanyMatches(f, rows[j], name, domain)
    ensures hit.Some? ==> hit.value < n && CompanyMatches(f, rows[hit.value], name, domain)
    ensures hit.Some? ==> forall j | 0 <= j < n && CompanyMatches(f, rows[j], name, domain) ::
      CompanyRank(f, rows[hit.value], domain) <= CompanyRank(f, rows[j], domain)
  {
    hide CompanyMatches, CompanyRank;
    hit := None;
    if n > 0 {
      hit := BestCompany(f, rows, name, domain, n - 1);
      if CompanyMatches(f, rows[n - 1], name, domain)
         && (hit.None? || CompanyRank(f, rows[n - 1], domain) < CompanyRank(f, rows[hit.value], domain)) {
        hit := Some(n - 1);
      }
    }
  }

  /** Some contact matches exactly, so the match query has an answer. */
  lemma ExactAnswerExists(cfg: Config, db: Db, c: ContactInfo, k: nat) returns (m: Option<Match>)
    requires k < |db.contacts| && (EmailMatches(cfg.lower, db.contacts[k], c) || PhoneMatches(db.contacts[k], c))
    ensures IsMatch(cfg, db, c, m)
  {
    hide EmailMatches, PhoneMatches, FuzzyMatches, FuzzyScore;
    if i :| 0 <= i < |db.contacts| && EmailMatches(cfg.lower, db.contacts[i], c) {
      m := Some(Match(i, EMAIL_SCORE, EmailExact));
    } else {
      m := Some(Match(k, PHONE_SCORE, PhoneExact));
    }
  }

  /** The attempt up to and including the write of the contact it creates. */
  lemma ToNewContact(cfg: Config, p: Case, at: int, db: Db, text: string, ans: Answers)
    returns (turns: seq<Turn>, db': Db, next: Pc)
    requires Prepared(cfg, db, at, p) && Attemptable(cfg, p, at, db, p.dup, text) && Answering(cfg, text, p, ans)
    requires Decided(cfg, p).action == CreateOrUpdateCrm
    ensures Reaches(cfg, text, p, true, at, db, Draining, turns, db', next)
    ensures ContactsIn(cfg, db, p, db') && db'.records == db.records && db'.messages == db.messages
    ensures db'.enquiries == Claimed(cfg, db, p.id, at).enquiries
  {
    FirstContactWriteSucceeds(cfg, db, at, p);
    DecidedIsRoute(cfg, p);
    hide Path, Reaches, Prepared, Claimed, IsOldestClaimable, Decided, Route, Blank, Extract, IsMatch, HasRecentDuplicate, Trusted, UpsertContact;
    var d, w := Decided(cfg, p), Contacted(cfg, db, p).value;
    var first, mid, e := ToDecision(cfg, p, true, at, db, p.dup, text, ans);
    SameTablesSameWrite(cfg.lower, db, mid, p.id, Trusted(p.ex), Existing(p.dup, d), p.hit);
    ContactWritten(cfg, db, p, w);
    PreparedHit(cfg, db, at, p);
    var rest;
    rest, db' := ContactToOwner(cfg, text, p, true, at, mid, e, p.ex, p.dup, d, p.hit, w);
    Join(cfg, text, p, true, at, db, Draining, first, mid, AtContact(e, p.ex, p.dup, d), rest, db', AtOwner(e, p.ex, p.dup, d, w.id));
    turns, next := first + rest, AtOwner(e, p.ex, p.dup, d, w.id);
  }

  lemma PreparedHit(cfg: Config, db: Db, now: int, p: Case)
    requires Prepared(cfg, db, now, p) && ToCrm(cfg, p)
    ensures IsCompanyHit(cfg.lower, db.companies, Trusted(p.ex), p.hit)
  {
    hide IsMatch, Checked, InOrder, GoodContacts, HasRecentDuplicate, Decided, Trusted;
  }

  /** A found contact that scores high enough is attached to. */
  lemma FoundIsAttached(cfg: Config, p: Case, m: Match)
    requires Decided(cfg, p).action == CreateOrUpdateCrm && m.score >= cfg.autoAttach
    ensures p.ex.enquiryType != TYPE_JUNK && p.dup.None?
    ensures Route(p.ex, Some(m), cfg.rules, cfg.confidence, cfg.autoAttach) == Decision(AttachToExistingContact, "", None)
  {
    RouteToCrm(cfg, p);
    hide LeastEligible, Identifiable;
  }

  /** What the next attempt finds: the contact the first one created. */
  lemma NextAttemptFinds(cfg: Config, db0: Db, now0: int, p: Case, db: Db) returns (m: Match)
    requires Replayable(cfg, db0, now0, p) && Decided(cfg, p).action == CreateOrUpdateCrm && ContactsIn(cfg, db0, p, db)
    ensures p.ex.enquiryType != TYPE_JUNK && IsMatch(cfg, db, Trusted(p.ex), Some(m))
    ensures m.contact == Target(cfg, db0, p)
    ensures Route(p.ex, Some(m), cfg.rules, cfg.confidence, cfg.autoAttach) == Decision(AttachToExistingContact, "", None)
  {
    hide Trusted, Decided, IsMatch, Unambiguous, Route, ContactsIn, InOrder, Checked, GoodContacts, HasRecentDuplicate, IsCompanyHit;
    RouteToCrm(cfg, p);
    NewContactIsIn(cfg, db0, p, db);
    NewcomerMatches(cfg.lower, db.contacts[|db0.contacts|], Trusted(p.ex));
    var answer := ExactAnswerExists(cfg, db, Trusted(p.ex), |db0.contacts|);
    ReplayFindsTheContact(cfg, db0, now0, p, db, answer);
    m := answer.value;
    FoundIsAttached(cfg, p, m);
  }

  lemma NewContactIsIn(cfg: Config, db0: Db, p: Case, db: Db)
    requires ContactsIn(cfg, db0, p, db) && Existing(p.dup, Decided(cfg, p)).None?
    ensures var k, c := |db0.contacts|, Trusted(p.ex);
      k < |db.contacts| && db.contacts[k].email == c.email && db.contacts[k].phone == c.phone && Target(cfg, db0, p) == k
  {
    hide Trusted, Decided, CompaniesAfter, CompanyIdAfter, EmailTaken;
    var k := |db0.contacts|;
    assert Named(db.contacts[k]) == Named(Contacted(cfg, db0, p).value.contacts[k]);
  }

  /** The tables leave the enquiry to the process's next attempt. */
  ghost predicate OpenAgain(cfg: Config, p: Case, at: int, db: Db, text: string) {
    && IsOldestClaimable(db.enquiries, at, p.id) && db.enquiries[p.id].text == text
    && !HasRecentDuplicate(db.enquiries, db.enquiries[p.id].hash, p.id, at, cfg.dedupeWindow)
  }

  /** The next attempt, if the rules cannot be read the second time: it records the enquiry
      without a team. */
  lemma TeamlessAttempt(cfg: Config, db0: Db, now0: int, p: Case, at: int, db: Db, text: string, ans: Answers)
    returns (turns: seq<Turn>, db': Db)
    requires Replayable(cfg, db0, now0, p) && Decided(cfg, p).action == CreateOrUpdateCrm && ContactsIn(cfg, db0, p, db)
    requires OpenAgain(cfg, p, at, db, text) && Answering(cfg, text, p, ans)
    ensures Reaches(cfg, text, p, false, at, db, Draining, turns, db', Draining) && Finished(db', p.id)
    ensures RecordedTeam(db'.records, p.id) == Some("")
  {
    hide Path, Reaches, Trusted, Decided, IsMatch, Unambiguous, Route, ContactsIn, InOrder, Checked, GoodContacts, IsCompanyHit;
    hide HasRecentDuplicate, Claimed, Extract, Blank, UpsertContact, UpsertRecord, Finished, LacksCompany, RecordedTeam;
    RouteToCrm(cfg, p);
    var m := NextAttemptFinds(cfg, db0, now0, p, db);
    var d := Decision(AttachToExistingContact, "", None);
    var first, mid, e := ToDecision(cfg, p, false, at, db, Some(m), text, ans);
    var hit := CompanyAnswerExists(cfg.lower, db.companies, Trusted(p.ex));
    PreparedHit(cfg, db0, now0, p);
    ReplayedContactWrite(cfg, db0, p, db, hit);
    SameTablesSameWrite(cfg.lower, db, mid, p.id, Trusted(p.ex), Some(Target(cfg, db0, p)), hit);
    NoTeamWithoutRules(cfg, p.ex, Some(m));
    var rest;
    rest, db' := FromContact(cfg, text, p, false, at, mid, e, p.ex, Some(m), d, hit, false, ans.reply);
    Join(cfg, text, p, false, at, db, Draining, first, mid, AtContact(e, p.ex, Some(m), d), rest, db', Draining);
    turns := first + rest;
  }

  lemma NoTeamWithoutRules(cfg: Config, ex: Extraction, dup: Option<Match>)
    ensures TeamAndUser(cfg, ex, dup, Decision(AttachToExistingContact, "", None), false).0 == ""
  {}

  /** A crash, and the lease of the lost attempt runs out. */
  lemma CrashAndReopen(cfg: Config, p: Case, s: State, t: State, text: string)
    requires NextInLine(cfg, p, s) && NothingElseIsOpen(s.db.enquiries, p.id) && text == s.db.enquiries[p.id].text
    requires t.now == s.now && |t.workers| == 1 && t.db.enquiries == Claimed(cfg, s.db, p.id, s.now).enquiries
    ensures var u := Apply(cfg, Apply(cfg, t, Restart), Tick(cfg.lockTtl + 1));
      && u.db == t.db && u.workers == [Draining] && Locked(u.reviewers) == {}
      && OpenAgain(cfg, p, u.now, t.db, text)
  {
    hide Good, Checked, IsMatch, IsCompanyHit, InOrder, GoodContacts, Decided, Trusted;
    var u := Apply(cfg, Apply(cfg, t, Restart), Tick(cfg.lockTtl + 1));
    assert u.workers == [Draining];
    assert forall j | 0 <= j < |t.db.enquiries| && j != p.id :: t.db.enquiries[j] == s.db.enquiries[j];
  }

  lemma AloneJoins(cfg: Config, text: string, p: Case, a: seq<Event>, b: seq<Event>)
    requires AloneThroughout(cfg, text, p, a) && AloneThroughout(cfg, text, p, b)
    ensures AloneThroughout(cfg, text, p, a + b) && (AlwaysReads(a) && AlwaysReads(b) ==> AlwaysReads(a + b))
  {
    hide Alone;
  }

  /** The process creates the contact, crashes, and is started again. */
  lemma CrashAfterContact(cfg: Config, p: Case, s: State, ans: Answers) returns (events: seq<Event>)
    requires NextInLine(cfg, p, s) && NothingElseIsOpen(s.db.enquiries, p.id)
    requires Answering(cfg, s.db.enquiries[p.id].text, p, ans) && Decided(cfg, p).action == CreateOrUpdateCrm
    ensures AloneThroughout(cfg, s.db.enquiries[p.id].text, p, events) && AlwaysReads(events)
    ensures var u := System.Run(cfg, s, events);
      && u.workers == [Draining] && Locked(u.reviewers) == {}
      && ContactsIn(cfg, s.db, p, u.db) && OpenAgain(cfg, p, u.now, u.db, s.db.enquiries[p.id].text)
  {
    hide System.Run, Checked, GoodContacts, InOrder, IsMatch, IsCompanyHit, HasRecentDuplicate, Trusted, Good, Attemptable, AloneThroughout, AlwaysReads, Answering, Decided;
    hide NothingElseIsOpen, Reaches, OpenAgain, Claimed, ContactsIn, Apply, Locked, ToCrm;
    var text := s.db.enquiries[p.id].text;
    NextIsAttemptable(cfg, p, s);
    var turns, db', next := ToNewContact(cfg, p, s.now, s.db, text, ans);
    var before := RunOfPath(cfg, text, p, true, s, turns, db', next);
    var crash := [Restart, Tick(cfg.lockTtl + 1)];
    CrashAndReopen(cfg, p, s, System.Run(cfg, s, before), text);
    RunTwoMore(cfg, s, before, crash[0], crash[1]);
    CrashIsAlone(cfg, text, p);
    AloneJoins(cfg, text, p, before, crash);
    events := before + crash;
  }

  lemma CrashIsAlone(cfg: Config, text: string, p: Case)
    ensures AloneThroughout(cfg, text, p, [Restart, Tick(cfg.lockTtl + 1)]) && AlwaysReads([Restart, Tick(cfg.lockTtl + 1)])
  {
    hide Faithful;
  }

  lemma TeamlessHistory(cfg: Config, p: Case, s: State, ans: Answers) returns (events: seq<Event>)
    requires NextInLine(cfg, p, s) && Replayable(cfg, s.db, s.now, p) && NothingElseIsOpen(s.db.enquiries, p.id)
    requires Answering(cfg, s.db.enquiries[p.id].text, p, ans) && Decided(cfg, p).action == CreateOrUpdateCrm
    ensures AloneThroughout(cfg, s.db.enquiries[p.id].text, p, events)
    ensures Finished(System.Run(cfg, s, events).db, p.id)
    ensures RecordedTeam(System.Run(cfg, s, events).db.records, p.id) == Some("")
  {
    hide System.Run, Checked, GoodContacts, InOrder, IsMatch, IsCompanyHit, HasRecentDuplicate, Trusted, Good, Finished, AloneThroughout, AlwaysReads, Answering, RecordedTeam, Decided, Replayable, Unambiguous;
    hide NothingElseIsOpen, Reaches, OpenAgain, ContactsIn, Start, Locked, Apply, ToCrm;
    var text := s.db.enquiries[p.id].text;
    var before := CrashAfterContact(cfg, p, s, ans);
    var u := System.Run(cfg, s, before);
    var turns, db' := TeamlessAttempt(cfg, s.db, s.now, p, u.now, u.db, text, ans);
    var after := RunOfPath(cfg, text, p, false, u, turns, db', Draining);
    RunsJoin(cfg, s, before, after);
    AloneJoins(cfg, text, p, before, after);
    events := before + after;
  }

  /** act ignores the error of its second read of the rules, and so replays can diverge in the
      record: from any start at which the enquiry is next in the queue, to be created a contact
      for by a rule that names a team, there is a history that leaves its record with that team;
      and one, in which the process crashes after writing the contact and the next attempt
      cannot read the rules, that leaves it without any. */
  lemma SwallowedErrorDiverges(cfg: Config, p: Case, s: State, ans: Answers) returns (events: seq<Event>, events': seq<Event>)
    requires NextInLine(cfg, p, s) && Replayable(cfg, s.db, s.now, p) && NothingElseIsOpen(s.db.enquiries, p.id)
    requires Answering(cfg, s.db.enquiries[p.id].text, p, ans)
    requires Decided(cfg, p).action == CreateOrUpdateCrm && TeamFor(cfg, p).0 != ""
    ensures var text := s.db.enquiries[p.id].text; AloneThroughout(cfg, text, p, events) && AloneThroughout(cfg, text, p, events')
    ensures Finished(System.Run(cfg, s, events).db, p.id) && Finished(System.Run(cfg, s, events').db, p.id)
    ensures RecordedTeam(System.Run(cfg, s, events).db.records, p.id) == Some(TeamFor(cfg, p).0)
    ensures RecordedTeam(System.Run(cfg, s, events').db.records, p.id) == Some("")
  {
    hide System.Run, Prepared, Good, Finished, AloneThroughout, AlwaysReads, Answering, RecordedTeam, TeamFor, Decided, Replayable;
    hide NothingElseIsOpen;
    StartsInLine(cfg, p, s);
    events := UninterruptedRunFinishes(cfg, p, s, ans);
    UninterruptedRunRecordsTeam(cfg, p, s, events);
    events' := TeamlessHistory(cfg, p, s, ans);
  }

  lemma StartsInLine(cfg: Config, p: Case, s: State)
    requires NextInLine(cfg, p, s) && Replayable(cfg, s.db, s.now, p)
    ensures StartsAlone(cfg, p, s)
  {
    hide Good, Replayable, Prepared;
  }

  lemma UninterruptedRunRecordsTeam(cfg: Config, p: Case, s: State, events: seq<Event>)
    requires StartsAlone(cfg, p, s) && ToCrm(cfg, p) && AloneThroughout(cfg, s.db.enquiries[p.id].text, p, events)
    requires AlwaysReads(events) && Finished(System.Run(cfg, s, events).db, p.id)
    ensures RecordedTeam(System.Run(cfg, s, events).db.records, p.id) == Some(TeamFor(cfg, p).0)
  {
    hide System.Run, Start, Replayable, ReadsOf, ToCrm, TeamFor, RecordedTeam, AloneThroughout, AlwaysReads, UpsertRecord, SoloAt, Finished;
    var t := RunKeepsSolo(cfg, p, s, events);
    AlwaysReadsReads(cfg, s, events);
    TeamReadOwnerRead(cfg, s, events);
    DoneRecords(cfg, s.db, s.now, p, t, ReadsOf(cfg, s, events), System.Run(cfg, s, events));
    TeamOfRecord(s.db.records, CrmRecord(RecordKindOf(p.ex.enquiryType), Target(cfg, s.db, p),
      OwnerFor(cfg, s.db.records, TeamFor(cfg, p)), TeamFor(cfg, p).0, true, p.id));
  }

  // ---------- ties ----------

  lemma AloneForTheSame(cfg: Config, text: string, p: Case, q: Case, events: seq<Event>)
    requires q.id == p.id && q.ex == p.ex
    ensures AloneThroughout(cfg, text, p, events) == AloneThroughout(cfg, text, q, events)
  {
    hide Extract;
    assert forall a :: Alone(cfg, text, p, a) == Alone(cfg, text, q, a);
  }

  lemma TiedMatchIsInLine(cfg: Config, p: Case, s: State, other: Match)
    requires NextInLine(cfg, p, s) && Decided(cfg, p).action == AttachToExistingContact
    requires IsMatch(cfg, s.db, Trusted(p.ex), Some(other))
    ensures NextInLine(cfg, p.(dup := Some(other)), s)
  {
    RouteToCrm(cfg, p);
    hide Good, Checked, IsMatch, IsCompanyHit, InOrder, GoodContacts, HasRecentDuplicate, Trusted, IsOldestClaimable, CanBeFoundAgain, Decided;
    AnswersDecideAlike(cfg, s.db, p.ex, p.dup, Some(other));
    DecidedIsRoute(cfg, p);
    DecidedIsRoute(cfg, p.(dup := Some(other)));
  }

  /** Where the match query can answer with another contact as well, two uninterrupted runs put
      the record on different contacts. */
  lemma TiedMatchesDiverge(cfg: Config, p: Case, s: State, ans: Answers, other: Match)
    returns (events: seq<Event>, events': seq<Event>)
    requires NextInLine(cfg, p, s) && Answering(cfg, s.db.enquiries[p.id].text, p, ans)
    requires Decided(cfg, p).action == AttachToExistingContact && RecordOf(s.db.records, p.id) == |s.db.records|
    requires IsMatch(cfg, s.db, Trusted(p.ex), Some(other)) && other.contact != p.dup.value.contact
    ensures var text := s.db.enquiries[p.id].text; AloneThroughout(cfg, text, p, events) && AloneThroughout(cfg, text, p, events')
    ensures Finished(System.Run(cfg, s, events).db, p.id) && Finished(System.Run(cfg, s, events').db, p.id)
    ensures RecordedContact(System.Run(cfg, s, events).db.records, p.id) == Some(p.dup.value.contact)
    ensures RecordedContact(System.Run(cfg, s, events').db.records, p.id) == Some(other.contact)
  {
    hide System.Run, Good, IsMatch, Trusted, Decided, AloneThroughout, AlwaysReads, Finished, RecordedContact, Extract, Blank, Checked, Contacted;
    hide IsCompanyHit, InOrder, GoodContacts, HasRecentDuplicate, CanBeFoundAgain;
    var q := p.(dup := Some(other));
    TiedMatchIsInLine(cfg, p, s, other);
    AmbiguousMatchesDiverge(cfg, s.db, s.now, p, other);
    events := UninterruptedRunFinishes(cfg, p, s, ans);
    events' := UninterruptedRunFinishes(cfg, q, s, ans);
    AloneForTheSame(cfg, s.db.enquiries[p.id].text, p, q, events');
  }

  /** Where the company query can answer with another company as well, two uninterrupted runs
      give the contact different companies. */
  lemma TiedCompaniesDiverge(cfg: Config, p: Case, s: State, ans: Answers, hit: Option<nat>)
    returns (events: seq<Event>, events': seq<Event>)
    requires NextInLine(cfg, p, s) && Answering(cfg, s.db.enquiries[p.id].text, p, ans)
    requires ToCrm(cfg, p) && LacksCompany(cfg, s.db, p)
    requires IsCompanyHit(cfg.lower, s.db.companies, Trusted(p.ex), hit) && hit != p.hit
    ensures var text := s.db.enquiries[p.id].text; AloneThroughout(cfg, text, p, events) && AloneThroughout(cfg, text, p, events')
    ensures Finished(System.Run(cfg, s, events).db, p.id) && Finished(System.Run(cfg, s, events').db, p.id)
    ensures var k, a, b := Target(cfg, s.db, p), System.Run(cfg, s, events).db.contacts, System.Run(cfg, s, events').db.contacts;
      k < |a| && k < |b| && a[k].company != b[k].company
  {
    hide System.Run, Good, IsMatch, Trusted, AloneThroughout, AlwaysReads, Finished, RecordedContact, Extract, Blank, Checked, Contacted;
    hide IsCompanyHit, InOrder, GoodContacts, HasRecentDuplicate, CanBeFoundAgain, Route;
    var q := p.(hit := hit);
    assert Decided(cfg, q) == Decided(cfg, p);
    AmbiguousCompaniesDiverge(cfg, s.db, s.now, p, hit);
    events := UninterruptedRunFinishes(cfg, p, s, ans);
    events' := UninterruptedRunFinishes(cfg, q, s, ans);
    AloneForTheSame(cfg, s.db.enquiries[p.id].text, p, q, events');
  }
}
