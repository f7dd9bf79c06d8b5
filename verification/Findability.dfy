/** Contacts that have only a name or a short number: no replay attaches to them, so crash-replay
    convergence fails for them, and only for them. */
module Findability {
  import opened Base
  import opened Text
  import opened Model
  import opened Router
  import opened Grounding
  import opened Tables
  import opened System
  import opened Queue
  import opened Replay
  import opened Convergence
  import opened Workers
  import opened Completion

  // ---------- the match query always has an answer ----------

  /** The best name match among the first n contacts. */
  lemma {:induction false} BestName(cfg: Config, db: Db, c: ContactInfo, n: nat) returns (best: Option<nat>)
    requires n <= |db.contacts|
    ensures best.None? ==> forall j | 0 <= j < n :: !FuzzyMatches(cfg, db.contacts[j], c)
    ensures best.Some? ==> best.value < n && FuzzyMatches(cfg, db.contacts[best.value], c)
    ensures best.Some? ==> forall j | 0 <= j < n && FuzzyMatches(cfg, db.contacts[j], c) ::
      FuzzyScore(cfg, db.companies, db.contacts[j], c) <= FuzzyScore(cfg, db.companies, db.contacts[best.value], c)
  {
    hide FuzzyScore, Blank;
    best := None;
    if n > 0 {
      best := BestName(cfg, db, c, n - 1);
      if FuzzyMatches(cfg, db.contacts[n - 1], c)
         && (best.None? || FuzzyScore(cfg, db.companies, db.contacts[best.value], c) < FuzzyScore(cfg, db.companies, db.contacts[n - 1], c)) {
        best := Some(n - 1);
      }
    }
  }

  lemma NameAnswerIs(cfg: Config, db: Db, c: ContactInfo, best: Option<nat>) returns (m: Option<Match>)
    requires forall j | 0 <= j < |db.contacts| :: !EmailMatches(cfg.lower, db.contacts[j], c) && !PhoneMatches(db.contacts[j], c)
    requires best.None? ==> forall j | 0 <= j < |db.contacts| :: !FuzzyMatches(cfg, db.contacts[j], c)
    requires best.Some? ==> best.value < |db.contacts| && FuzzyMatches(cfg, db.contacts[best.value], c)
    requires best.Some? ==> forall j | 0 <= j < |db.contacts| && FuzzyMatches(cfg, db.contacts[j], c) ::
      FuzzyScore(cfg, db.companies, db.contacts[j], c) <= FuzzyScore(cfg, db.companies, db.contacts[best.value], c)
    ensures IsMatch(cfg, db, c, m)
  {
    hide EmailMatches, PhoneMatches, FuzzyScore, Blank;
    m := None;
    if best.Some? {
      var how := if HasText(c.company) then TrgmNameCompany else TrgmName;
      m := Some(Match(best.value, FuzzyScore(cfg, db.companies, db.contacts[best.value], c), how));
    }
  }

  lemma AnswerExists(cfg: Config, db: Db, c: ContactInfo) returns (m: Option<Match>)
    ensures IsMatch(cfg, db, c, m)
  {
    hide EmailMatches, PhoneMatches, FuzzyMatches, FuzzyScore, IsMatch;
    if k: nat :| k < |db.contacts| && (EmailMatches(cfg.lower, db.contacts[k], c) || PhoneMatches(db.contacts[k], c)) {
      m := ExactAnswerExists(cfg, db, c, k);
    } else {
      var best := BestName(cfg, db, c, |db.contacts|);
      m := NameAnswerIs(cfg, db, c, best);
    }
  }

  // ---------- nobody attaches to such a contact ----------

  /** Without an address and without a number of seven digits only a name can match. */
  lemma OnlyNamesMatch(cfg: Config, db: Db, text: string, ex: Extraction, m: Option<Match>)
    requires Checked(cfg.lower, text, ex) && !CanBeFoundAgain(Trusted(ex)) && IsMatch(cfg, db, Trusted(ex), m)
    ensures Trusted(ex).email.None?
    ensures m.Some? ==> m.value.score <= FUZZY_CAP
  {
    hide UnverifiedOf, Valid, AddressShaped, FuzzyMatches, Blank;
  }

  /** Above the fuzzy cap an enquiry with such contact data is never attached, whatever the
      similarity of names. */
  lemma NeverAttached(cfg: Config, db: Db, text: string, ex: Extraction, m: Option<Match>)
    requires Checked(cfg.lower, text, ex) && !CanBeFoundAgain(Trusted(ex)) && IsMatch(cfg, db, Trusted(ex), m)
    requires cfg.autoAttach > FUZZY_CAP
    ensures Route(ex, m, cfg.rules, cfg.confidence, cfg.autoAttach).action != AttachToExistingContact
  {
    hide Checked, IsMatch, Trusted, CanBeFoundAgain, LeastEligible, Identifiable;
    OnlyNamesMatch(cfg, db, text, ex, m);
  }

  // ---------- the next attempt after a crash ----------

  lemma FlaggedOrCreated(cfg: Config, p: Case, m: Option<Match>)
    requires Decided(cfg, p).action == CreateOrUpdateCrm && (m.Some? ==> m.value.score < cfg.autoAttach)
    ensures Route(p.ex, m, cfg.rules, cfg.confidence, cfg.autoAttach) ==
      if m.Some? then Decision(FlagForMergeReview, "", None) else Decided(cfg, p)
    ensures p.ex.enquiryType != TYPE_JUNK && p.dup.None?
  {
    RouteToCrm(cfg, p);
    hide LeastEligible, Identifiable;
  }

  /** Without an address nothing stands in the way of a second contact. */
  lemma SecondContact(f: CaseMap, db: Db, enquiry: nat, c: ContactInfo, hit: Option<nat>)
    requires c.email.None?
    ensures var w := UpsertContact(f, db, enquiry, c, None, hit); w.Some? && |w.value.contacts| == |db.contacts| + 1
  {
    hide CompaniesAfter, CompanyIdAfter;
  }

  /** The enquiry is put before a human, or entered a second time. */
  lemma UnfoundAttempt(cfg: Config, p: Case, at: int, db: Db, text: string, ans: Answers)
    returns (turns: seq<Turn>, db': Db)
    requires Checked(cfg.lower, text, p.ex) && !CanBeFoundAgain(Trusted(p.ex)) && cfg.autoAttach > FUZZY_CAP
    requires Decided(cfg, p).action == CreateOrUpdateCrm && OpenAgain(cfg, p, at, db, text) && Answering(cfg, text, p, ans)
    ensures Reaches(cfg, text, p, true, at, db, Draining, turns, db', Draining) && Finished(db', p.id)
    ensures db'.enquiries[p.id].status == NeedsHumanReview || |db'.contacts| == |db.contacts| + 1
  {
    hide Path, Reaches, Trusted, Decided, IsMatch, Route, Checked, IsCompanyHit, CanBeFoundAgain, HasRecentDuplicate, Claimed, Extract, Blank;
    hide UpsertContact, UpsertRecord, RecordedTeam, RecordedContact, TeamAndUser;
    var m := AnswerExists(cfg, db, Trusted(p.ex));
    OnlyNamesMatch(cfg, db, text, p.ex, m);
    FlaggedOrCreated(cfg, p, m);
    var first, mid, e := ToDecision(cfg, p, true, at, db, m, text, ans);
    var d := Route(p.ex, m, cfg.rules, cfg.confidence, cfg.autoAttach);
    var rest;
    if m.Some? {
      rest, db' := FromRest(cfg, text, p, true, at, mid, e, NeedsHumanReview, Some(p.ex));
    } else {
      var hit := CompanyAnswerExists(cfg.lower, mid.companies, Trusted(p.ex));
      SecondContact(cfg.lower, mid, p.id, Trusted(p.ex), hit);
      rest, db' := FromContact(cfg, text, p, true, at, mid, e, p.ex, None, d, hit, true, ans.reply);
    }
    Join(cfg, text, p, true, at, db, Draining, first, mid, AfterRoute(e, p.ex, m, d), rest, db', Draining);
    turns := first + rest;
  }

  // ---------- the diverging histories ----------

  /** A history of the enquiry that finishes it, with no failing read of the rules. */
  ghost predicate Completes(cfg: Config, p: Case, s: State, events: seq<Event>)
    requires p.id < |s.db.enquiries|
  {
    && AloneThroughout(cfg, s.db.enquiries[p.id].text, p, events) && AlwaysReads(events)
    && Finished(System.Run(cfg, s, events).db, p.id)
  }

  lemma CrashedHistory(cfg: Config, p: Case, s: State, ans: Answers) returns (events: seq<Event>)
    requires NextInLine(cfg, p, s) && NothingElseIsOpen(s.db.enquiries, p.id)
    requires Answering(cfg, s.db.enquiries[p.id].text, p, ans) && Decided(cfg, p).action == CreateOrUpdateCrm
    requires !CanBeFoundAgain(Trusted(p.ex)) && cfg.autoAttach > FUZZY_CAP
    ensures Completes(cfg, p, s, events)
    ensures var db := System.Run(cfg, s, events).db;
      p.id < |db.enquiries| && (db.enquiries[p.id].status == NeedsHumanReview || |db.contacts| == |s.db.contacts| + 2)
  {
    hide System.Run, Checked, GoodContacts, IsMatch, IsCompanyHit, HasRecentDuplicate, Trusted, Good, AloneThroughout, AlwaysReads, Answering;
    hide Decided, NothingElseIsOpen, Reaches, OpenAgain, ContactsIn, Start, Locked, Apply, ToCrm, CanBeFoundAgain;
    var text := s.db.enquiries[p.id].text;
    var before := CrashAfterContact(cfg, p, s, ans);
    var u := System.Run(cfg, s, before);
    OneContactIsIn(cfg, s.db, p, u.db);
    var turns, db' := UnfoundAttempt(cfg, p, u.now, u.db, text, ans);
    var after := RunOfPath(cfg, text, p, true, u, turns, db', Draining);
    RunsJoin(cfg, s, before, after);
    AloneJoins(cfg, text, p, before, after);
    events := before + after;
  }

  lemma OneContactIsIn(cfg: Config, db0: Db, p: Case, db: Db)
    requires Decided(cfg, p).action == CreateOrUpdateCrm && ContactsIn(cfg, db0, p, db)
    ensures |db.contacts| == |db0.contacts| + 1
  {
    RouteToCrm(cfg, p);
    hide Decided, Trusted, CompaniesAfter, CompanyIdAfter, EmailTaken;
  }

  lemma WrittenContacts(cfg: Config, db0: Db, p: Case, db: Db)
    requires Decided(cfg, p).action == CreateOrUpdateCrm && CrmWritten(cfg, db0, p, db)
    ensures |db.contacts| == |db0.contacts| + 1 && RestingPlace(cfg, p) == PendingApproval
  {
    RouteToCrm(cfg, p);
    hide Decided, Trusted, CompaniesAfter, CompanyIdAfter, EmailTaken, RecordedContact;
  }

  /** A contact with only a name or a short number: the uninterrupted history leaves it with a
      reply to approve; after a crash behind the contact write the enquiry is put before a human
      instead, or the contact is there twice. */
  lemma UnfindableContactsDiverge(cfg: Config, p: Case, s: State, ans: Answers) returns (events: seq<Event>, events': seq<Event>)
    requires NextInLine(cfg, p, s) && NothingElseIsOpen(s.db.enquiries, p.id)
    requires Answering(cfg, s.db.enquiries[p.id].text, p, ans) && Decided(cfg, p).action == CreateOrUpdateCrm
    requires !CanBeFoundAgain(Trusted(p.ex)) && cfg.autoAttach > FUZZY_CAP
    ensures Completes(cfg, p, s, events) && Completes(cfg, p, s, events')
    ensures var a, b := System.Run(cfg, s, events).db, System.Run(cfg, s, events').db;
      && p.id < |a.enquiries| && a.enquiries[p.id].status == PendingApproval && |a.contacts| == |s.db.contacts| + 1
      && p.id < |b.enquiries| && (b.enquiries[p.id].status == NeedsHumanReview || |b.contacts| == |s.db.contacts| + 2)
  {
    hide System.Run, Checked, GoodContacts, IsMatch, IsCompanyHit, HasRecentDuplicate, Trusted, Good, AloneThroughout, AlwaysReads, Answering;
    hide Decided, NothingElseIsOpen, Start, CanBeFoundAgain, CrmWritten, RestingPlace, Finished;
    events := UninterruptedRunFinishes(cfg, p, s, ans);
    WrittenContacts(cfg, s.db, p, System.Run(cfg, s, events).db);
    events' := CrashedHistory(cfg, p, s, ans);
  }

  /** All histories that finish the enquiry leave the same CRM. */
  ghost predicate Converges(cfg: Config, p: Case, s: State)
    requires p.id < |s.db.enquiries|
  {
    forall events, events' | Completes(cfg, p, s, events) && Completes(cfg, p, s, events') ::
      SameCrm(cfg, s.db, p, System.Run(cfg, s, events).db, System.Run(cfg, s, events').db)
  }

  /** With thresholds as shipped and lookups that are unambiguous, the histories of an enquiry
      that creates a contact converge if and only if the contact can be found again. */
  lemma ConvergesExactlyIfFindable(cfg: Config, p: Case, s: State, ans: Answers)
    requires NextInLine(cfg, p, s) && NothingElseIsOpen(s.db.enquiries, p.id)
    requires AsShipped(cfg, s.db) && cfg.autoAttach > FUZZY_CAP && Unambiguous(cfg, s.db, p)
    requires Answering(cfg, s.db.enquiries[p.id].text, p, ans) && Decided(cfg, p).action == CreateOrUpdateCrm
    ensures Converges(cfg, p, s) <==> CanBeFoundAgain(Trusted(p.ex))
  {
    hide System.Run, Checked, GoodContacts, IsMatch, IsCompanyHit, HasRecentDuplicate, Trusted, Good, Answering, Completes;
    hide Decided, NothingElseIsOpen, Start, CanBeFoundAgain, AsShipped, Unambiguous, SameContacts, SameMessages;
    if CanBeFoundAgain(Trusted(p.ex)) {
      FindableConverges(cfg, p, s);
    } else {
      var events, events' := UnfindableContactsDiverge(cfg, p, s, ans);
      var a, b := System.Run(cfg, s, events).db, System.Run(cfg, s, events').db;
      SameSize(a.contacts, b.contacts, Target(cfg, s.db, p));
      assert !SameCrm(cfg, s.db, p, a, b);
    }
  }

  lemma SameSize(a: seq<Contact>, b: seq<Contact>, k: nat)
    ensures SameContacts(a, b, k) ==> |a| == |b|
  {}

  lemma FindableConverges(cfg: Config, p: Case, s: State)
    requires NextInLine(cfg, p, s) && Replayable(cfg, s.db, s.now, p)
    ensures Converges(cfg, p, s)
  {
    StartsInLine(cfg, p, s);
    hide System.Run, NextInLine, Replayable, StartsAlone, AloneThroughout, AlwaysReads, Finished, SameCrm, SameButRecords, ReadsOf;
    forall events, events' | Completes(cfg, p, s, events) && Completes(cfg, p, s, events')
      ensures SameCrm(cfg, s.db, p, System.Run(cfg, s, events).db, System.Run(cfg, s, events').db)
    {
      AlwaysReadsReads(cfg, s, events);
      AlwaysReadsReads(cfg, s, events');
      ReplaysConverge(cfg, p, s, events, events');
    }
  }
}
