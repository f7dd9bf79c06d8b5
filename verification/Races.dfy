/** Two workers at the contact write: exactly when the one that comes second fails, what becomes
    of its enquiry, and when two workers on one enquiry leave two contacts. */
module Races {
  import opened Base
  import opened Text
  import opened Model
  import opened Router
  import opened Grounding
  import opened Tables
  import opened System
  import opened Safety
  import opened Queue
  import opened Replay
  import opened Convergence
  import opened Workers
  import opened Completion

  // ---------- what a worker matched against ----------

  ghost predicate Matches(s: State, a: Event, i: nat) {
    a.Work? && a.worker == i && i < |s.workers| && s.workers[i].AtMatch?
  }

  /** The tables as worker i saw them when it last matched. */
  ghost function MatchedOn(cfg: Config, s: State, events: seq<Event>, i: nat): Db {
    if events == [] then s.db
    else
      var front := events[..|events| - 1];
      var t := System.Run(cfg, s, front);
      if Matches(t, events[|events| - 1], i) then t.db else MatchedOn(cfg, s, front, i)
  }

  /** What a worker has in hand is what the match query could answer on the tables it saw. */
  ghost predicate AnswerInHand(cfg: Config, seen: Db, pc: Pc) {
    match pc
    case AtRecordMatch(_, ex, m) => IsMatch(cfg, seen, Trusted(ex), Some(m))
    case AtRoute(_, ex, dup) => ex.enquiryType != TYPE_JUNK ==> IsMatch(cfg, seen, Trusted(ex), dup)
    case AtContact(_, ex, dup, _) => ex.enquiryType != TYPE_JUNK ==> IsMatch(cfg, seen, Trusted(ex), dup)
    case _ => true
  }

  lemma MatchingHandsOn(cfg: Config, db: Db, e: Snapshot, ex: Extraction, o: Oracle)
    requires MatchStep(cfg, db, e, ex, o).Some?
    ensures AnswerInHand(cfg, db, MatchStep(cfg, db, e, ex, o).value.next)
  {
    hide IsMatch, Trusted;
  }

  lemma StagesHandOn(cfg: Config, seen: Db, db: Db, now: int, locked: set<nat>, pc: Pc, o: Oracle)
    requires AnswerInHand(cfg, seen, pc) && !pc.AtMatch? && StageStep(cfg, db, now, locked, pc, o).Some?
    ensures AnswerInHand(cfg, seen, StageStep(cfg, db, now, locked, pc, o).value.next)
  {
    hide IsMatch, Trusted, Route, Extract, TeamAndUser, PickOwner, UpsertContact, IsCompanyHit, HasRecentDuplicate, Blank, TrimSpace;
  }

  lemma WorkerHandsOn(cfg: Config, seen: Db, s: State, a: Event, i: nat)
    requires i < |s.workers| && AnswerInHand(cfg, seen, s.workers[i]) && i < |WorkersAfter(cfg, s, a)|
    ensures AnswerInHand(cfg, if Matches(s, a, i) then s.db else seen, WorkersAfter(cfg, s, a)[i])
  {
    hide IsMatch, Trusted;
    var pc := s.workers[i];
    if a.Work? && a.worker == i && Holds(pc).Some? && !pc.AtFail? && a.oracle.ok {
      if pc.AtMatch? {
        if MatchStep(cfg, s.db, pc.e, pc.ex, a.oracle).Some? {
          MatchingHandsOn(cfg, s.db, pc.e, pc.ex, a.oracle);
        }
      } else if StageStep(cfg, s.db, s.now, Locked(s.reviewers), pc, a.oracle).Some? {
        StagesHandOn(cfg, seen, s.db, s.now, Locked(s.reviewers), pc, a.oracle);
      }
    }
    hide StageStep, MatchStep;
    hide Exec;
  }

  lemma {:induction false} RunKeepsAnswers(cfg: Config, s: State, events: seq<Event>, i: nat)
    requires Start(cfg, s) && i < |s.workers|
    ensures var t := System.Run(cfg, s, events);
      && Agents(cfg, t) && i < |t.workers| && Kept(MatchedOn(cfg, s, events, i), t.db)
      && AnswerInHand(cfg, MatchedOn(cfg, s, events, i), t.workers[i])
  {
    hide WorkerStep, Exec, Good, Agents, AnswerInHand, Emit, WorkersAfter, ReviewersAfter, TokenAfter, WokenAfter, Kept;
    if events == [] {
      StartIsInv(cfg, s);
      KeptIsReflexive(s.db);
      assert AnswerInHand(cfg, s.db, s.workers[i]) by { DrainersHoldNothing(cfg, s.db, s.workers[i]); }
    } else {
      var front, a := events[..|events| - 1], events[|events| - 1];
      var t := System.Run(cfg, s, front);
      RunKeepsAnswers(cfg, s, front, i);
      ApplyKeepsAgents(cfg, t, a);
      SameCrewAfter(cfg, t, a);
      WorkerHandsOn(cfg, MatchedOn(cfg, s, front, i), t, a, i);
      if !Matches(t, a, i) {
        KeptIsTransitive(MatchedOn(cfg, s, front, i), t.db, Apply(cfg, t, a).db);
      }
    }
  }

  lemma DrainersHoldNothing(cfg: Config, db: Db, pc: Pc)
    requires pc.Draining?
    ensures AnswerInHand(cfg, db, pc)
  {}

  lemma SameCrewAfter(cfg: Config, s: State, a: Event)
    ensures |WorkersAfter(cfg, s, a)| == |s.workers|
  {
    hide WorkerStep;
  }

  // ---------- when the contact write fails ----------

  ghost predicate SomeoneHas(f: CaseMap, cs: seq<Contact>, email: string) {
    exists j | 0 <= j < |cs| :: HasEmail(f, cs[j], email)
  }

  /** The row that a contact write fills in or creates has no address so far. */
  predicate NoAddressYet(cs: seq<Contact>, existing: Option<nat>) {
    existing.None? || (existing.value < |cs| && cs[existing.value].email.None?)
  }

  lemma WriteFailsWhenTaken(f: CaseMap, db: Db, enquiry: nat, c: ContactInfo, existing: Option<nat>, hit: Option<nat>)
    requires existing.Some? ==> existing.value < |db.contacts|
    ensures UpsertContact(f, db, enquiry, c, existing, hit).None? <==>
      c.email.Some? && SomeoneHas(f, db.contacts, c.email.value) && NoAddressYet(db.contacts, existing)
  {
    hide CompaniesAfter, CompanyIdAfter;
    if c.email.Some? && SomeoneHas(f, db.contacts, c.email.value) {
      assert EmailTaken(f, db.contacts, c.email);
    }
  }

  /** Who was found by the address has one, and keeps it. */
  lemma HadNobodyThen(cfg: Config, seen: Db, db: Db, text: string, ex: Extraction, dup: Option<Match>, d: Decision)
    requires Kept(seen, db) && MayAct(cfg.lower, text, cfg.confidence, ex) && IsMatch(cfg, seen, Trusted(ex), dup)
    requires DecisionOk(cfg, ex, dup, d) && NoAddressYet(db.contacts, Existing(dup, d))
    ensures Trusted(ex).email.Some? ==> !SomeoneHas(cfg.lower, seen.contacts, Trusted(ex).email.value)
  {
    hide PhoneMatches, FuzzyMatches, FuzzyScore, LeastEligible, Identifiable, UnverifiedOf, AddressShaped, Blank;
  }

  /** A comment promises that whoever loses the race for an address adopts the winner's contact.
      In every run, a contact write none of whose calls fails is nevertheless lost if and only if
      nobody had the trusted address when the worker matched, somebody has it now, and the row to
      be written has none. */
  lemma ContactWriteIsLostExactly(cfg: Config, s: State, events: seq<Event>, i: nat, o: Oracle)
    requires Start(cfg, s) && i < |s.workers| && o.ok
    requires i < |System.Run(cfg, s, events).workers| && System.Run(cfg, s, events).workers[i].AtContact?
    requires var t := System.Run(cfg, s, events); WorkerStep(cfg, t.db, t.now, Locked(t.reviewers), t.workers[i], o).Some?
    ensures var t, seen := System.Run(cfg, s, events), MatchedOn(cfg, s, events, i);
      var pc := t.workers[i];
      var c, existing := Trusted(pc.ex), Existing(pc.dup, pc.d);
      WorkerStep(cfg, t.db, t.now, Locked(t.reviewers), pc, o).value.next.AtFail? <==>
        c.email.Some? && !SomeoneHas(cfg.lower, seen.contacts, c.email.value)
        && SomeoneHas(cfg.lower, t.db.contacts, c.email.value) && NoAddressYet(t.db.contacts, existing)
  {
    hide System.Run, Good, Agents, Kept, Trusted, IsMatch, Route, MayAct, SomeoneHas, UpsertContact, NoAddressYet;
    var t, seen := System.Run(cfg, s, events), MatchedOn(cfg, s, events, i);
    var pc := t.workers[i];
    var c, existing := Trusted(pc.ex), Existing(pc.dup, pc.d);
    RunKeepsAnswers(cfg, s, events, i);
    WriterIsOk(cfg, t, i);
    ContactTurnFails(cfg, t.db, t.now, Locked(t.reviewers), pc, o);
    WriteFailsWhenTaken(cfg.lower, t.db, pc.e.id, c, existing, o.company);
    if NoAddressYet(t.db.contacts, existing) {
      HadNobodyThen(cfg, seen, t.db, pc.e.text, pc.ex, pc.dup, pc.d);
    }
  }

  lemma ContactTurnFails(cfg: Config, db: Db, now: int, locked: set<nat>, pc: Pc, o: Oracle)
    requires pc.AtContact? && o.ok && WorkerStep(cfg, db, now, locked, pc, o).Some?
    ensures WorkerStep(cfg, db, now, locked, pc, o).value.next.AtFail? <==>
      UpsertContact(cfg.lower, db, pc.e.id, Trusted(pc.ex), Existing(pc.dup, pc.d), o.company).None?
  {
    hide UpsertContact, IsCompanyHit, Trusted, Existing;
  }

  lemma WriterIsOk(cfg: Config, t: State, i: nat)
    requires Agents(cfg, t) && i < |t.workers| && t.workers[i].AtContact?
    ensures var pc := t.workers[i];
      && GateOk(cfg, pc.e, pc.ex) && DecisionOk(cfg, pc.ex, pc.dup, pc.d) && pc.ex.enquiryType != TYPE_JUNK
      && (Existing(pc.dup, pc.d).Some? ==> Existing(pc.dup, pc.d).value < |t.db.contacts|)
  {
    assert WorkerOk(cfg, t.db, t.workers[i]);
    hide MayAct, LeastEligible, Identifiable, ExactlyMatches;
  }

  // ---------- the race for an address ----------

  /** Only these two enquiries are open, the first one is not younger, and each is to be entered as
      a new contact with the same new address. */
  ghost predicate Racing(cfg: Config, p: Case, q: Case, s: State) {
    && Start(cfg, s) && |s.workers| >= 2 && p.id != q.id && cfg.autoAttach <= EMAIL_SCORE
    && Prepared(cfg, s.db, s.now, p) && Decided(cfg, p).action == CreateOrUpdateCrm
    && Prepared(cfg, s.db, s.now, q) && Decided(cfg, q).action == CreateOrUpdateCrm
    && Trusted(p.ex).email.Some? && Trusted(q.ex).email.Some?
    && SameEmail(cfg.lower, Trusted(p.ex).email.value, Trusted(q.ex).email.value)
    && BothOpen(s.db.enquiries, s.now, p.id, q.id)
    && RecordedContact(s.db.records, p.id).None? && RecordedContact(s.db.records, q.id).None?
  }

  predicate BothOpen(es: seq<Enquiry>, now: int, a: nat, b: nat) {
    && a < |es| && b < |es| && Claimable(es[a], now) && Claimable(es[b], now) && es[a].receivedAt <= es[b].receivedAt
    && forall j | 0 <= j < |es| && j != a && j != b :: IsResting(es[j].status)
  }

  lemma DuplicatesAreAsBefore(es: seq<Enquiry>, es': seq<Enquiry>, hash: string, id: nat, now: int, now': int, window: nat)
    requires |es'| == |es| && (forall j | 0 <= j < |es| :: es'[j].hash == es[j].hash && es'[j].receivedAt == es[j].receivedAt)
    requires !HasRecentDuplicate(es, hash, id, now, window) && now <= now'
    ensures !HasRecentDuplicate(es', hash, id, now', window)
  {}

  lemma OlderIsFirst(es: seq<Enquiry>, now: int, a: nat, b: nat)
    requires BothOpen(es, now, a, b)
    ensures IsOldestClaimable(es, now, a)
  {}

  lemma YoungerIsSecond(es: seq<Enquiry>, now: int, a: nat, b: nat, ttl: nat)
    requires BothOpen(es, now, a, b) && a != b
    ensures IsOldestClaimable(es[a := ClaimedRow(es[a], now, ttl)], now, b)
  {}

  /** The enquiry can be attempted, by somebody nobody has matched so far. */
  lemma NewcomerIsAttemptable(cfg: Config, p: Case, db0: Db, now0: int, db: Db, now: int)
    requires Prepared(cfg, db0, now0, p) && Decided(cfg, p).action == CreateOrUpdateCrm && now0 <= now
    requires db.contacts == db0.contacts && db.companies == db0.companies && |db.enquiries| == |db0.enquiries|
    requires forall j | 0 <= j < |db.enquiries| :: EnquiryKept(db0.enquiries[j], db.enquiries[j])
    requires IsOldestClaimable(db.enquiries, now, p.id)
    ensures Attemptable(cfg, p, now, db, None, db0.enquiries[p.id].text)
  {
    hide Checked, IsMatch, IsCompanyHit, GoodContacts, HasRecentDuplicate, Decided, Trusted;
    RouteToCrm(cfg, p);
    MatchReadsContacts(cfg, db0, db, Trusted(p.ex), None);
    DuplicatesAreAsBefore(db0.enquiries, db.enquiries, db0.enquiries[p.id].hash, p.id, now0, now, cfg.dedupeWindow);
  }

  lemma FirstIsAttemptable(cfg: Config, p: Case, q: Case, s: State)
    requires Racing(cfg, p, q, s)
    ensures Attemptable(cfg, p, s.now, s.db, None, s.db.enquiries[p.id].text)
    ensures Locked(s.reviewers) == {}
  {
    hide Good, Prepared, Decided, Trusted, RecordedContact, Attemptable, BothOpen, IsOldestClaimable, SameEmail;
    OlderIsFirst(s.db.enquiries, s.now, p.id, q.id);
    NewcomerIsAttemptable(cfg, p, s.db, s.now, s.db, s.now);
  }

  lemma SecondIsAttemptable(cfg: Config, p: Case, q: Case, s: State, db: Db)
    requires Racing(cfg, p, q, s)
    requires db.contacts == s.db.contacts && db.companies == s.db.companies && db.enquiries == Claimed(cfg, s.db, p.id, s.now).enquiries
    ensures Attemptable(cfg, q, s.now, db, None, s.db.enquiries[q.id].text)
  {
    hide Good, Prepared, Decided, Trusted, RecordedContact, Attemptable, BothOpen, IsOldestClaimable, SameEmail;
    OpenAreThere(s.db.enquiries, s.now, p.id, q.id);
    YoungerIsSecond(s.db.enquiries, s.now, p.id, q.id, cfg.lockTtl);
    NewcomerIsAttemptable(cfg, q, s.db, s.now, db, s.now);
  }

  lemma OpenAreThere(es: seq<Enquiry>, now: int, a: nat, b: nat)
    requires BothOpen(es, now, a, b)
    ensures a < |es| && b < |es|
  {}

  /** Worker 0 with the first enquiry and worker 1 with the second are both about to write. */
  ghost predicate Poised(cfg: Config, p: Case, q: Case, s: State, t: State) {
    && |t.workers| == |s.workers| && |t.workers| >= 2 && t.reviewers == s.reviewers && t.now == s.now
    && p.id < |s.db.enquiries| && q.id < |s.db.enquiries| && |t.db.enquiries| == |s.db.enquiries|
    && t.workers[0].AtContact? && t.workers[0] == AtContact(t.workers[0].e, p.ex, None, Decided(cfg, p)) && t.workers[0].e.id == p.id
    && t.workers[1].AtContact? && t.workers[1] == AtContact(t.workers[1].e, q.ex, None, Decided(cfg, q)) && t.workers[1].e.id == q.id
    && t.workers[1].e.attempts == s.db.enquiries[q.id].attempts + 1
    && t.db.contacts == s.db.contacts && t.db.companies == s.db.companies && t.db.records == s.db.records
    && t.db.enquiries == Claimed(cfg, Claimed(cfg, s.db, p.id, s.now), q.id, s.now).enquiries
  }

  lemma CreateIsNext(cfg: Config, p: Case, e: Snapshot)
    requires Decided(cfg, p).action == CreateOrUpdateCrm
    ensures p.dup.None? && Existing(None, Decided(cfg, p)).None?
    ensures AfterRoute(e, p.ex, None, Route(p.ex, None, cfg.rules, cfg.confidence, cfg.autoAttach)) == AtContact(e, p.ex, None, Decided(cfg, p))
  {
    RouteToCrm(cfg, p);
    DecidedIsRoute(cfg, p);
    hide Route, Decided;
  }

  lemma GetPoised(cfg: Config, p: Case, q: Case, s: State, ansP: Answers, ansQ: Answers) returns (events: seq<Event>)
    requires Racing(cfg, p, q, s)
    requires Answering(cfg, s.db.enquiries[p.id].text, p, ansP) && Answering(cfg, s.db.enquiries[q.id].text, q, ansQ)
    ensures Poised(cfg, p, q, s, System.Run(cfg, s, events))
  {
    hide System.Run, Good, Checked, IsMatch, IsCompanyHit, GoodContacts, HasRecentDuplicate, Decided, Trusted, Attemptable, Answering, Route;
    hide Reaches, RecordedContact, Claimable, ClaimedRow, SameEmail, AfterRoute;
    FirstIsAttemptable(cfg, p, q, s);
    var textP, textQ := s.db.enquiries[p.id].text, s.db.enquiries[q.id].text;
    var turns, mid, e := ToDecision(cfg, p, true, s.now, s.db, None, textP, ansP);
    CreateIsNext(cfg, p, e);
    var one := RunOfWorker(cfg, textP, p, true, s, 0, turns, mid, AtContact(e, p.ex, None, Decided(cfg, p)));
    SecondIsAttemptable(cfg, p, q, s, mid);
    var turns', mid', e' := ToDecision(cfg, q, true, s.now, mid, None, textQ, ansQ);
    CreateIsNext(cfg, q, e');
    var two := RunOfWorker(cfg, textQ, q, true, System.Run(cfg, s, one), 1, turns', mid', AtContact(e', q.ex, None, Decided(cfg, q)));
    RunsJoin(cfg, s, one, two);
    ClaimsKeepLength(cfg, s.db, p.id, q.id, s.now);
    events := one + two;
  }

  /** The contact the winner creates. */
  ghost predicate WinnerIn(cfg: Config, p: Case, s: State, db: Db) {
    var n := |s.db.contacts|;
    |db.contacts| == n + 1 && db.contacts[n].email == Trusted(p.ex).email
  }

  /** Worker 0 writes its contact and finishes. */
  lemma WinnerFinishes(cfg: Config, p: Case, q: Case, s: State, t: State, ansP: Answers) returns (events: seq<Event>)
    requires Poised(cfg, p, q, s, t) && Answering(cfg, s.db.enquiries[p.id].text, p, ansP)
    requires Racing(cfg, p, q, s)
    ensures var u := System.Run(cfg, t, events);
      && u.workers == t.workers[0 := Draining] && u.reviewers == t.reviewers && u.now == t.now
      && WinnerIn(cfg, p, s, u.db) && u.db.enquiries == AwaitingApproval(t.db.enquiries, p.id)
      && RecordedContact(u.db.records, p.id) == Some(|s.db.contacts|) && RecordedContact(u.db.records, q.id).None?
  {
    hide System.Run, Good, Checked, IsMatch, IsCompanyHit, GoodContacts, HasRecentDuplicate, Decided, Trusted, Answering, Route, BothOpen;
    hide Reaches, SameEmail, AwaitingApproval, UpsertContact, RecordedContact, Blank, Claimed;
    var e, text := t.workers[0].e, s.db.enquiries[p.id].text;
    CreateIsNext(cfg, p, e);
    FirstContactWriteSucceeds(cfg, s.db, s.now, p);
    PreparedHit(cfg, s.db, s.now, p);
    SameTablesSameWrite(cfg.lower, s.db, t.db, p.id, Trusted(p.ex), None, p.hit);
    WinnersWrite(cfg, p, s, t.db, p.hit);
    AnswersDraft(cfg, text, p, ansP);
    NoRecordYet(t.db.records, p.id);
    var turns, db' := FromContact(cfg, text, p, true, t.now, t.db, e, p.ex, None, Decided(cfg, p), p.hit, true, ansP.reply);
    NobodyIsLocking(cfg, p, q, s);
    events := RunOfWorker(cfg, text, p, true, t, 0, turns, db', Draining);
    OtherIsAsRecorded(t.db.records, db'.records, p.id, q.id);
  }

  lemma NobodyIsLocking(cfg: Config, p: Case, q: Case, s: State)
    requires Racing(cfg, p, q, s)
    ensures Locked(s.reviewers) == {}
  {
    hide Good, Prepared, Decided, Trusted, RecordedContact, BothOpen, SameEmail;
  }

  lemma AnswersDraft(cfg: Config, text: string, p: Case, ans: Answers)
    requires Answering(cfg, text, p, ans)
    ensures !Blank(ans.reply.0)
  {
    hide Extract, Blank;
  }

  lemma NoRecordYet(rs: seq<CrmRecord>, id: nat)
    ensures RecordedContact(rs, id).None? <==> RecordOf(rs, id) == |rs|
  {}

  lemma OtherIsAsRecorded(a: seq<CrmRecord>, b: seq<CrmRecord>, id: nat, other: nat)
    requires OthersRecorded(a, b, id) && other != id
    ensures RecordedContact(b, other) == RecordedContact(a, other)
  {
    hide RecordedContact;
  }

  lemma ClaimsKeepLength(cfg: Config, db: Db, a: nat, b: nat, now: int)
    ensures |Claimed(cfg, Claimed(cfg, db, a, now), b, now).enquiries| == |db.enquiries|
  {}

  lemma WinnersWrite(cfg: Config, p: Case, s: State, db: Db, hit: Option<nat>)
    requires db.contacts == s.db.contacts
    ensures var w := UpsertContact(cfg.lower, db, p.id, Trusted(p.ex), None, hit);
      w.Some? ==> w.value.id == |s.db.contacts| && WinnerIn(cfg, p, s, db.(contacts := w.value.contacts))
  {
    hide Trusted, CompaniesAfter, CompanyIdAfter, EmailTaken;
  }

  /** How an attempt that has failed ends. */
  function GivenUp(cfg: Config, db: Db, id: nat, attempts: nat, at: int): Db {
    if attempts >= cfg.maxAttempts then Exec(cfg, db, SetStatusRow(id, Failed))
    else Exec(cfg, db, RequeueRow(id, at, Backoff(attempts, cfg.pollInterval)))
  }

  /** Worker 1 finds the address taken, and its attempt fails. */
  lemma LoserFails(cfg: Config, text: string, q: Case, at: int, db: Db, e: Snapshot, d: Decision) returns (turns: seq<Turn>)
    requires e.id == q.id && Existing(None, d).None?
    requires Trusted(q.ex).email.Some? && SomeoneHas(cfg.lower, db.contacts, Trusted(q.ex).email.value)
    ensures Reaches(cfg, text, q, true, at, db, AtContact(e, q.ex, None, d), turns, GivenUp(cfg, db, q.id, e.attempts, at), Draining)
  {
    hide Path, Leads, Fair, Exec, UpsertContact, Existing, IsCompanyHit, Trusted, SomeoneHas, Backoff;
    var hit := CompanyAnswerExists(cfg.lower, db.companies, Trusted(q.ex));
    WriteFailsWhenTaken(cfg.lower, db, e.id, Trusted(q.ex), None, hit);
    var writing, failing := Turn(at, Answer(true).(company := hit)), Turn(at, Answer(true));
    var pc := AtContact(e, q.ex, None, d);
    PlainAnswersAreFair(cfg, text, q, true, writing.oracle);
    PlainAnswersAreFair(cfg, text, q, true, failing.oracle);
    Completion.Begin(cfg, text, q, true, at, db, pc);
    ContactTurn(cfg, db, at, e, q.ex, None, d, hit);
    Onward(cfg, text, q, true, at, db, pc, [], db, pc, writing, db, AtFail(e));
    RetryTurn(cfg, db, at, e, true);
    Onward(cfg, text, q, true, at, db, pc, [] + [writing], db, AtFail(e), failing, GivenUp(cfg, db, q.id, e.attempts, at), Draining);
    turns := [] + [writing] + [failing];
  }

  lemma AddressIsTaken(cfg: Config, p: Case, q: Case, s: State, db: Db)
    requires Racing(cfg, p, q, s) && WinnerIn(cfg, p, s, db)
    ensures Trusted(q.ex).email.Some? && SomeoneHas(cfg.lower, db.contacts, Trusted(q.ex).email.value)
    ensures HasEmail(cfg.lower, db.contacts[|s.db.contacts|], Trusted(q.ex).email.value)
  {
    hide Good, Prepared, Decided, Trusted, RecordedContact, BothOpen;
    assert HasEmail(cfg.lower, db.contacts[|s.db.contacts|], Trusted(q.ex).email.value);
  }

  /** The race: both match nobody, the first one finishes, the second one's attempt is lost. */
  lemma LostRace(cfg: Config, p: Case, q: Case, s: State, ansP: Answers, ansQ: Answers) returns (events: seq<Event>)
    requires Racing(cfg, p, q, s)
    requires Answering(cfg, s.db.enquiries[p.id].text, p, ansP) && Answering(cfg, s.db.enquiries[q.id].text, q, ansQ)
    ensures AfterTheRace(cfg, p, q, s, System.Run(cfg, s, events))
  {
    hide System.Run, Racing, Answering, Trusted, Decided, SomeoneHas, GivenUp, Reaches, AwaitingApproval, RecordedContact, Claimed;
    var first := GetPoised(cfg, p, q, s, ansP, ansQ);
    var t := System.Run(cfg, s, first);
    var second := WinnerFinishes(cfg, p, q, s, t, ansP);
    var u := System.Run(cfg, t, second);
    AddressIsTaken(cfg, p, q, s, u.db);
    NobodyIsLocking(cfg, p, q, s);
    BothCreate(cfg, p, q, s);
    CreateIsNext(cfg, q, u.workers[1].e);
    var text := s.db.enquiries[q.id].text;
    var turns := LoserFails(cfg, text, q, u.now, u.db, u.workers[1].e, Decided(cfg, q));
    var third := RunOfWorker(cfg, text, q, true, u, 1, turns, GivenUp(cfg, u.db, q.id, u.workers[1].e.attempts, u.now), Draining);
    RunsJoin(cfg, s, first, second);
    RunsJoin(cfg, s, first + second, third);
    events := first + second + third;
    ClaimsKeepLength(cfg, s.db, p.id, q.id, s.now);
    AfterGivingUp(cfg, p, q, s, u.db);
    assert AfterTheRace(cfg, p, q, s, System.Run(cfg, s, events));
  }

  lemma BothCreate(cfg: Config, p: Case, q: Case, s: State)
    requires Racing(cfg, p, q, s)
    ensures Decided(cfg, q).action == CreateOrUpdateCrm && p.id != q.id && cfg.autoAttach <= EMAIL_SCORE
    ensures p.id < |s.db.enquiries| && q.id < |s.db.enquiries|
  {
    hide Good, Prepared, Decided, Trusted, RecordedContact, SameEmail;
  }

  /** One contact, the first enquiry's record on it, and the second enquiry given up or queued again. */
  ghost predicate AfterTheRace(cfg: Config, p: Case, q: Case, s: State, t: State) {
    && |t.workers| == |s.workers| && |t.workers| >= 2 && t.workers[1].Draining? && t.reviewers == s.reviewers && t.now == s.now
    && p.id < |s.db.enquiries| && q.id < |s.db.enquiries| && |t.db.enquiries| == |s.db.enquiries|
    && WinnerIn(cfg, p, s, t.db)
    && RecordedContact(t.db.records, p.id) == Some(|s.db.contacts|) && RecordedContact(t.db.records, q.id).None?
    && t.db.enquiries[p.id].status == PendingApproval
    && (forall j | 0 <= j < |t.db.enquiries| :: EnquiryKept(s.db.enquiries[j], t.db.enquiries[j]))
    && (forall j | 0 <= j < |t.db.enquiries| && j != p.id && j != q.id :: t.db.enquiries[j] == s.db.enquiries[j])
    && var attempts, row := s.db.enquiries[q.id].attempts + 1, t.db.enquiries[q.id];
       if attempts >= cfg.maxAttempts then row.status == Failed
       else row.status == Received && row.nextAttemptAt == s.now + Backoff(attempts, cfg.pollInterval)
  }

  lemma AfterGivingUp(cfg: Config, p: Case, q: Case, s: State, db: Db)
    requires p.id != q.id && p.id < |s.db.enquiries| && q.id < |s.db.enquiries|
    requires var es := Claimed(cfg, Claimed(cfg, s.db, p.id, s.now), q.id, s.now).enquiries;
      |es| == |s.db.enquiries| && db.enquiries == AwaitingApproval(es, p.id)
    ensures var attempts := s.db.enquiries[q.id].attempts + 1;
      var db' := GivenUp(cfg, db, q.id, attempts, s.now);
      && |db'.enquiries| == |s.db.enquiries| && db'.contacts == db.contacts && db'.companies == db.companies && db'.records == db.records
      && db'.enquiries[p.id].status == PendingApproval
      && (forall j | 0 <= j < |db'.enquiries| :: EnquiryKept(s.db.enquiries[j], db'.enquiries[j]))
      && (forall j | 0 <= j < |db'.enquiries| && j != p.id && j != q.id :: db'.enquiries[j] == s.db.enquiries[j])
      && var row := db'.enquiries[q.id];
         if attempts >= cfg.maxAttempts then row.status == Failed
         else row.status == Received && row.nextAttemptAt == s.now + Backoff(attempts, cfg.pollInterval)
  {
    hide Backoff;
  }

  // ---------- what becomes of the loser ----------

  function NotNegative(n: int): nat {
    if n < 0 then 0 else n
  }

  lemma LoserIsNext(cfg: Config, p: Case, q: Case, s: State, t: State, wait: nat)
    requires Racing(cfg, p, q, s) && AfterTheRace(cfg, p, q, s, t)
    requires s.db.enquiries[q.id].attempts + 1 < cfg.maxAttempts
    requires wait == NotNegative(Backoff(s.db.enquiries[q.id].attempts + 1, cfg.pollInterval))
    ensures OpenAgain(cfg, q, t.now + wait, t.db, s.db.enquiries[q.id].text)
  {
    hide Good, Checked, IsMatch, IsCompanyHit, GoodContacts, Decided, Trusted, RecordedContact, SameEmail, Backoff, WinnerIn, HasRecentDuplicate;
    var es, es' := s.db.enquiries, t.db.enquiries;
    assert EnquiryKept(es[q.id], es'[q.id]);
    assert forall j | 0 <= j < |es| :: EnquiryKept(es[j], es'[j]);
    DuplicatesAreAsBefore(es, es', es[q.id].hash, q.id, s.now, t.now + wait, cfg.dedupeWindow);
  }

  /** The loser's next attempt finds the winner's contact by the address and attaches to it. */
  lemma LoserAttaches(cfg: Config, q: Case, at: int, db: Db, text: string, ans: Answers, k: nat) returns (turns: seq<Turn>, db': Db)
    requires OpenAgain(cfg, q, at, db, text) && Answering(cfg, text, q, ans)
    requires Decided(cfg, q).action == CreateOrUpdateCrm && cfg.autoAttach <= EMAIL_SCORE
    requires k < |db.contacts| && EmailMatches(cfg.lower, db.contacts[k], Trusted(q.ex)) && RecordedContact(db.records, q.id).None?
    ensures Reaches(cfg, text, q, true, at, db, Draining, turns, db', Draining)
    ensures |db'.contacts| == |db.contacts| && RecordedContact(db'.records, q.id) == Some(k)
    ensures OthersRecorded(db.records, db'.records, q.id)
    ensures |db'.enquiries| == |db.enquiries| && q.id < |db.enquiries| && db'.enquiries[q.id].status == PendingApproval
  {
    hide Path, Reaches, Trusted, Decided, IsMatch, Route, IsCompanyHit, HasRecentDuplicate, Extract, Blank, UpsertContact;
    hide UpsertRecord, RecordedTeam, RecordedContact, TeamAndUser, OthersRecorded, EmailMatches, Finished;
    var m, d := Match(k, EMAIL_SCORE, EmailExact), Decision(AttachToExistingContact, "", None);
    ItIsTheAnswer(cfg, db, Trusted(q.ex), k);
    FoundIsAttached(cfg, q, m);
    var first, mid, e := ToDecision(cfg, q, true, at, db, Some(m), text, ans);
    var hit := CompanyAnswerExists(cfg.lower, mid.companies, Trusted(q.ex));
    AttachingWrite(cfg, mid, q.id, Trusted(q.ex), k, hit);
    NoRecordYet(db.records, q.id);
    var rest;
    rest, db' := FromContact(cfg, text, q, true, at, mid, e, q.ex, Some(m), d, hit, true, ans.reply);
    Join(cfg, text, q, true, at, db, Draining, first, mid, AtContact(e, q.ex, Some(m), d), rest, db', Draining);
    turns := first + rest;
  }

  lemma ItIsTheAnswer(cfg: Config, db: Db, c: ContactInfo, k: nat)
    requires k < |db.contacts| && EmailMatches(cfg.lower, db.contacts[k], c)
    ensures IsMatch(cfg, db, c, Some(Match(k, EMAIL_SCORE, EmailExact)))
  {
    hide EmailMatches, PhoneMatches, FuzzyMatches, FuzzyScore;
  }

  lemma AttachingWrite(cfg: Config, db: Db, enquiry: nat, c: ContactInfo, k: nat, hit: Option<nat>)
    requires k < |db.contacts| && EmailMatches(cfg.lower, db.contacts[k], c)
    ensures var w := UpsertContact(cfg.lower, db, enquiry, c, Some(k), hit);
      w.Some? && w.value.id == k && |w.value.contacts| == |db.contacts|
  {
    hide CompaniesAfter, CompanyIdAfter, Blank;
  }

  lemma TakenIsMatched(cfg: Config, p: Case, q: Case, s: State, db: Db)
    requires Racing(cfg, p, q, s) && WinnerIn(cfg, p, s, db)
    ensures EmailMatches(cfg.lower, db.contacts[|s.db.contacts|], Trusted(q.ex))
  {
    AddressIsTaken(cfg, p, q, s, db);
    hide Good, Decided, RecordedContact, BothOpen, IsMatch, IsCompanyHit, GoodContacts, HasRecentDuplicate, SameEmail, UnverifiedOf, Valid;
  }

  /** Every such race, then: one contact, and the winner's record on it. The loser's attempt is
      lost. If it was the last one, its enquiry is given up; otherwise the next attempt puts its
      record on the winner's contact, as the comment promises. */
  lemma RaceForAnAddress(cfg: Config, p: Case, q: Case, s: State, ansP: Answers, ansQ: Answers) returns (events: seq<Event>)
    requires Racing(cfg, p, q, s)
    requires Answering(cfg, s.db.enquiries[p.id].text, p, ansP) && Answering(cfg, s.db.enquiries[q.id].text, q, ansQ)
    ensures var t, n, last := System.Run(cfg, s, events), |s.db.contacts|, s.db.enquiries[q.id].attempts + 1 >= cfg.maxAttempts;
      && p.id < |t.db.enquiries| && q.id < |t.db.enquiries|
      && |t.db.contacts| == n + 1 && RecordedContact(t.db.records, p.id) == Some(n)
      && RecordedContact(t.db.records, q.id) == (if last then None else Some(n))
      && t.db.enquiries[q.id].status == (if last then Failed else PendingApproval)
  {
    hide System.Run, Racing, Answering, Trusted, Decided, RecordedContact, Backoff, Reaches, EmailMatches, Apply, OpenAgain, OthersRecorded;
    BothCreate(cfg, p, q, s);
    var attempts, text := s.db.enquiries[q.id].attempts + 1, s.db.enquiries[q.id].text;
    var race := LostRace(cfg, p, q, s, ansP, ansQ);
    var t := System.Run(cfg, s, race);
    if attempts >= cfg.maxAttempts {
      events := race;
    } else {
      var wait := NotNegative(Backoff(attempts, cfg.pollInterval));
      var u := Apply(cfg, t, Tick(wait));
      WaitEvent(cfg, t, wait);
      LoserIsNext(cfg, p, q, s, t, wait);
      TakenIsMatched(cfg, p, q, s, t.db);
      NobodyIsLocking(cfg, p, q, s);
      var turns, db' := LoserAttaches(cfg, q, u.now, u.db, text, ansQ, |s.db.contacts|);
      OtherIsAsRecorded(t.db.records, db'.records, q.id, p.id);
      var again := RunOfWorker(cfg, text, q, true, u, 1, turns, db', Draining);
      RunOne(cfg, t, Tick(wait));
      RunsJoin(cfg, s, race, [Tick(wait)]);
      RunsJoin(cfg, s, race + [Tick(wait)], again);
      events := race + [Tick(wait)] + again;
    }
  }

  lemma WaitEvent(cfg: Config, s: State, delay: nat)
    ensures var u := Apply(cfg, s, Tick(delay));
      u.db == s.db && u.workers == s.workers && u.reviewers == s.reviewers && u.now == s.now + delay
  {}

  // ---------- two workers on one enquiry ----------

  lemma OpenAfterTheLease(cfg: Config, es: seq<Enquiry>, id: nat, now: int)
    requires IsOldestClaimable(es, now, id) && NothingElseIsOpen(es, id)
    ensures IsOldestClaimable(es[id := ClaimedRow(es[id], now, cfg.lockTtl)], now + cfg.lockTtl + 1, id)
  {}

  /** Two workers with the same enquiry, both about to enter a new contact for it. */
  ghost predicate BothOn(cfg: Config, p: Case, s: State, t: State) {
    && |t.workers| >= 2 && t.reviewers == s.reviewers && p.id < |t.db.enquiries|
    && t.workers[0].AtContact? && t.workers[0] == AtContact(t.workers[0].e, p.ex, None, Decided(cfg, p)) && t.workers[0].e.id == p.id
    && t.workers[1].AtContact? && t.workers[1] == AtContact(t.workers[1].e, p.ex, None, Decided(cfg, p)) && t.workers[1].e.id == p.id
    && t.db.contacts == s.db.contacts && t.db.companies == s.db.companies
  }

  ghost predicate Shared(cfg: Config, p: Case, s: State) {
    && Start(cfg, s) && |s.workers| >= 2 && Prepared(cfg, s.db, s.now, p) && Decided(cfg, p).action == CreateOrUpdateCrm
    && IsOldestClaimable(s.db.enquiries, s.now, p.id) && NothingElseIsOpen(s.db.enquiries, p.id)
  }

  lemma SharedIsAttemptable(cfg: Config, p: Case, s: State)
    requires Shared(cfg, p, s)
    ensures Attemptable(cfg, p, s.now, s.db, None, s.db.enquiries[p.id].text) && Locked(s.reviewers) == {}
  {
    hide Good, Prepared, Decided, Attemptable, IsOldestClaimable, NothingElseIsOpen;
    NewcomerIsAttemptable(cfg, p, s.db, s.now, s.db, s.now);
  }

  lemma SharedIsAttemptableAgain(cfg: Config, p: Case, s: State, db: Db)
    requires Shared(cfg, p, s) && db.contacts == s.db.contacts && db.companies == s.db.companies
    requires db.enquiries == Claimed(cfg, s.db, p.id, s.now).enquiries
    ensures Attemptable(cfg, p, s.now + cfg.lockTtl + 1, db, None, s.db.enquiries[p.id].text)
  {
    hide Good, Prepared, Decided, Attemptable, NothingElseIsOpen;
    OpenAfterTheLease(cfg, s.db.enquiries, p.id, s.now);
    NewcomerIsAttemptable(cfg, p, s.db, s.now, db, s.now + cfg.lockTtl + 1);
  }

  lemma GetBothOn(cfg: Config, p: Case, s: State, ans: Answers) returns (events: seq<Event>)
    requires Shared(cfg, p, s) && Answering(cfg, s.db.enquiries[p.id].text, p, ans)
    ensures BothOn(cfg, p, s, System.Run(cfg, s, events))
  {
    hide System.Run, Good, Prepared, Decided, Attemptable, Answering, Route, Apply, Reaches, ClaimedRow, AfterRoute, NothingElseIsOpen;
    var text := s.db.enquiries[p.id].text;
    SharedIsAttemptable(cfg, p, s);
    var turns, mid, e := ToDecision(cfg, p, true, s.now, s.db, None, text, ans);
    CreateIsNext(cfg, p, e);
    var one := RunOfWorker(cfg, text, p, true, s, 0, turns, mid, AtContact(e, p.ex, None, Decided(cfg, p)));
    var t, tick := System.Run(cfg, s, one), Tick(cfg.lockTtl + 1);
    WaitEvent(cfg, t, cfg.lockTtl + 1);
    var u := Apply(cfg, t, tick);
    SharedIsAttemptableAgain(cfg, p, s, u.db);
    var turns', mid', e' := ToDecision(cfg, p, true, u.now, u.db, None, text, ans);
    CreateIsNext(cfg, p, e');
    var two := RunOfWorker(cfg, text, p, true, u, 1, turns', mid', AtContact(e', p.ex, None, Decided(cfg, p)));
    RunOne(cfg, t, tick);
    RunsJoin(cfg, s, one, [tick]);
    RunsJoin(cfg, s, one + [tick], two);
    events := one + [tick] + two;
  }

  lemma CreatedRow(cfg: Config, p: Case, db: Db, hit: Option<nat>)
    requires Trusted(p.ex).email.Some? ==> !SomeoneHas(cfg.lower, db.contacts, Trusted(p.ex).email.value)
    ensures var w := UpsertContact(cfg.lower, db, p.id, Trusted(p.ex), None, hit);
      && w.Some? && |w.value.contacts| == |db.contacts| + 1 && w.value.contacts[..|db.contacts|] == db.contacts
      && w.value.contacts[|db.contacts|].email == Trusted(p.ex).email && w.value.contacts[|db.contacts|].source == p.id
  {
    hide CompaniesAfter, CompanyIdAfter, Trusted;
  }

  /** A worker about to enter a new contact does so, and finishes. */
  lemma CreatesAndFinishes(cfg: Config, p: Case, s: State, i: nat, ans: Answers, text: string) returns (events: seq<Event>)
    requires i < |s.workers| && s.workers[i].AtContact? && s.workers[i] == AtContact(s.workers[i].e, p.ex, None, Decided(cfg, p))
    requires s.workers[i].e.id == p.id < |s.db.enquiries| && Decided(cfg, p).action == CreateOrUpdateCrm
    requires Locked(s.reviewers) == {} && Answering(cfg, text, p, ans)
    requires Trusted(p.ex).email.Some? ==> !SomeoneHas(cfg.lower, s.db.contacts, Trusted(p.ex).email.value)
    ensures var t, n := System.Run(cfg, s, events), |s.db.contacts|;
      && t.workers == s.workers[i := Draining] && t.reviewers == s.reviewers && |t.db.enquiries| == |s.db.enquiries|
      && |t.db.contacts| == n + 1 && t.db.contacts[..n] == s.db.contacts
      && t.db.contacts[n].email == Trusted(p.ex).email && t.db.contacts[n].source == p.id
  {
    hide System.Run, Decided, Trusted, Answering, Reaches, UpsertContact, RecordedContact, RecordedTeam, Blank, OthersRecorded, SomeoneHas;
    var e := s.workers[i].e;
    CreateIsNext(cfg, p, e);
    AnswersDraft(cfg, text, p, ans);
    var hit := CompanyAnswerExists(cfg.lower, s.db.companies, Trusted(p.ex));
    CreatedRow(cfg, p, s.db, hit);
    var turns, db' := FromContact(cfg, text, p, true, s.now, s.db, e, p.ex, None, Decided(cfg, p), hit, true, ans.reply);
    events := RunOfWorker(cfg, text, p, true, s, i, turns, db', Draining);
  }

  lemma NobodyHasIt(cfg: Config, db: Db, now: int, p: Case)
    requires Prepared(cfg, db, now, p) && Decided(cfg, p).action == CreateOrUpdateCrm
    ensures Trusted(p.ex).email.Some? ==> !SomeoneHas(cfg.lower, db.contacts, Trusted(p.ex).email.value)
  {
    RouteToCrm(cfg, p);
    FirstContactWriteSucceeds(cfg, db, now, p);
    hide Decided, Trusted, Prepared, CompaniesAfter, CompanyIdAfter;
    WriteFailsWhenTaken(cfg.lower, db, p.id, Trusted(p.ex), None, p.hit);
  }

  /** A worker whose lease runs out while it works, and the one that takes the enquiry over: if
      both come to enter a new contact, they leave one exactly if it has an address. */
  lemma TwoWorkersOneContact(cfg: Config, p: Case, s: State, ans: Answers) returns (events: seq<Event>)
    requires Shared(cfg, p, s) && Answering(cfg, s.db.enquiries[p.id].text, p, ans)
    ensures var cs, n := System.Run(cfg, s, events).db.contacts, |s.db.contacts|;
      && |cs| == n + (if Trusted(p.ex).email.Some? then 1 else 2)
      && cs[..n] == s.db.contacts && forall k | n <= k < |cs| :: cs[k].source == p.id
  {
    hide System.Run, Good, Prepared, Decided, Answering, Trusted, Reaches, NothingElseIsOpen, Claimable, SomeoneHas, GivenUp;
    var text := s.db.enquiries[p.id].text;
    SharedIsAttemptable(cfg, p, s);
    NobodyHasIt(cfg, s.db, s.now, p);
    var first := GetBothOn(cfg, p, s, ans);
    var t := System.Run(cfg, s, first);
    var second := CreatesAndFinishes(cfg, p, t, 0, ans, text);
    var u := System.Run(cfg, t, second);
    var third;
    if Trusted(p.ex).email.Some? {
      LastHasIt(cfg.lower, u.db.contacts, |s.db.contacts|, Trusted(p.ex).email.value);
      CreateIsNext(cfg, p, u.workers[1].e);
      var turns := LoserFails(cfg, text, p, u.now, u.db, u.workers[1].e, Decided(cfg, p));
      third := RunOfWorker(cfg, text, p, true, u, 1, turns, GivenUp(cfg, u.db, p.id, u.workers[1].e.attempts, u.now), Draining);
      GivingUpKeepsContacts(cfg, u.db, p.id, u.workers[1].e.attempts, u.now);
    } else {
      third := CreatesAndFinishes(cfg, p, u, 1, ans, text);
    }
    RunsJoin(cfg, s, first, second);
    RunsJoin(cfg, s, first + second, third);
    events := first + second + third;
  }

  lemma LastHasIt(f: CaseMap, cs: seq<Contact>, n: nat, email: string)
    requires n < |cs| && cs[n].email == Some(email)
    ensures SomeoneHas(f, cs, email)
  {
    assert HasEmail(f, cs[n], email);
  }

  lemma GivingUpKeepsContacts(cfg: Config, db: Db, id: nat, attempts: nat, at: int)
    ensures GivenUp(cfg, db, id, attempts, at).contacts == db.contacts
  {
    hide Backoff;
  }
}
