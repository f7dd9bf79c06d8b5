/** What a human's resolution of a match comes to: the enquiry is requeued and decided afresh on
    the tables as they are, and nothing in that decision reads the resolution. */
module Resolutions {
  import opened Base
  import opened Text
  import opened Model
  import opened Router
  import opened Grounding
  import opened Tables
  import opened System
  import opened Queue
  import opened Replay
  import opened Convergence
  import opened Workers
  import opened Completion

  // ---------- where a requeued enquiry ends ----------

  /** The decision leaves the enquiry to a human, given an answer of the match query. */
  predicate LeftToHuman(cfg: Config, ex: Extraction, m: Option<Match>) {
    || LowConfidence(ex, cfg.confidence)
    || (ex.enquiryType != TYPE_JUNK && !Incomplete(ex)
        && if m.Some? then m.value.score < cfg.autoAttach else FirstEligible(cfg.rules, ex).None?)
  }

  lemma LeftToHumanIs(cfg: Config, ex: Extraction, m: Option<Match>)
    requires InOrder(cfg.rules)
    ensures var action := Route(ex, m, cfg.rules, cfg.confidence, cfg.autoAttach).action;
      action == ReviewByHuman || action == FlagForMergeReview <==> LeftToHuman(cfg, ex, m)
  {
    FirstOfOrderedIsLeast(cfg.rules, ex);
    hide LeastEligible, FirstEligible, Identifiable, InOrder;
  }

  lemma AnyAnswerDecides(cfg: Config, db: Db, p: Case, m: Option<Match>)
    requires AsShipped(cfg, db)
    requires if p.ex.enquiryType == TYPE_JUNK then p.dup.None? else IsMatch(cfg, db, Trusted(p.ex), p.dup) && IsMatch(cfg, db, Trusted(p.ex), m)
    ensures RestingPlace(cfg, p) == NeedsHumanReview <==> LeftToHuman(cfg, p.ex, m)
  {
    hide IsMatch, Trusted, Route, LowConfidence, Incomplete, FirstEligible, InOrder, Decided;
    DecidedIsRoute(cfg, p);
    LeftToHumanIs(cfg, p.ex, p.dup);
    if p.ex.enquiryType != TYPE_JUNK {
      AnswersDecideAlike(cfg, db, p.ex, p.dup, m);
      LeftToHumanIs(cfg, p.ex, m);
    }
  }

  /** However often humans resolve the enquiry's matches, in whatever way, and have it requeued:
      whenever it has come to rest it is left to a human if and only if the decision on the
      tables as they were says so. So a flagged enquiry is flagged again exactly if the match
      query still answers below the threshold. */
  lemma RequeuedIsDecidedAfresh(cfg: Config, p: Case, s: State, events: seq<Event>, m: Option<Match>)
    requires StartsAlone(cfg, p, s) && AloneThroughout(cfg, s.db.enquiries[p.id].text, p, events)
    requires Finished(System.Run(cfg, s, events).db, p.id)
    requires p.ex.enquiryType != TYPE_JUNK ==> IsMatch(cfg, s.db, Trusted(p.ex), m)
    ensures System.Run(cfg, s, events).db.enquiries[p.id].status == NeedsHumanReview <==> LeftToHuman(cfg, p.ex, m)
  {
    hide System.Run, AloneThroughout, Finished, SoloAt, IsMatch, Trusted, LeftToHuman, RestingPlace, InOrder, Checked, GoodContacts;
    hide HasRecentDuplicate, IsCompanyHit, Findable, Unambiguous, Decided, ToCrm, RestsWell;
    var t := RunKeepsSolo(cfg, p, s, events);
    FinishedMeansDone(cfg, s.db, s.now, p, t, ReadsOf(cfg, s, events), System.Run(cfg, s, events));
    AnyAnswerDecides(cfg, s.db, p, m);
  }

  // ---------- a run: flagged, resolved, flagged again ----------

  /** An attempt that ends with the enquiry flagged. */
  lemma FlaggingPath(cfg: Config, p: Case, at: int, db: Db, text: string, ans: Answers) returns (turns: seq<Turn>, db': Db)
    requires Attemptable(cfg, p, at, db, p.dup, text) && Answering(cfg, text, p, ans)
    requires Decided(cfg, p).action == FlagForMergeReview
    ensures Reaches(cfg, text, p, true, at, db, Draining, turns, db', Draining)
    ensures db'.candidates == CandidatesAfter(cfg, db.candidates, p.id, p.dup)
    ensures db'.contacts == db.contacts && db'.companies == db.companies
    ensures db'.enquiries == db.enquiries[p.id := RestedRow(ClaimedRow(db.enquiries[p.id], at, cfg.lockTtl), NeedsHumanReview)]
  {
    hide Path, Reaches, Decided, Route, Blank, Extract, IsMatch, HasRecentDuplicate, CandidatesAfter, Finished;
    DecidedIsRoute(cfg, p);
    var first, mid, e := ToDecision(cfg, p, true, at, db, p.dup, text, ans);
    var rest;
    rest, db' := FromRest(cfg, text, p, true, at, mid, e, NeedsHumanReview, Some(p.ex));
    Join(cfg, text, p, true, at, db, Draining, first, mid, AtRest(e, NeedsHumanReview, Some(p.ex)), rest, db', Draining);
    turns := first + rest;
  }

  /** The first match is recorded as a pending candidate; whatever the candidate becomes, a
      second one with the same contact changes nothing but score and method. */
  lemma CandidateRow(cfg: Config, cs: seq<Candidate>, enquiry: nat, m: Match)
    requires CandidateOf(cs, enquiry, m.contact) == |cs| && m.score < cfg.autoAttach
    ensures var cs' := CandidatesAfter(cfg, cs, enquiry, Some(m));
      |cs'| == |cs| + 1 && cs'[|cs|].enquiry == enquiry && cs'[|cs|].contact == m.contact && cs'[|cs|].resolution == Pending
  {}

  lemma CandidateStays(cfg: Config, cs: seq<Candidate>, c: nat, enquiry: nat, m: Match)
    requires c < |cs|
    ensures var cs' := CandidatesAfter(cfg, cs, enquiry, Some(m)); c < |cs'| && cs'[c].resolution == cs[c].resolution
  {}

  /** A human resolves candidate c, and its enquiry is requeued. */
  lemma ResolveAndRequeue(cfg: Config, t: State, c: nat, actor: nat, r: Resolution)
    requires c < |t.db.candidates| && t.db.candidates[c].resolution == Pending && t.db.candidates[c].enquiry < |t.db.enquiries|
    requires actor < |cfg.users| && cfg.users[actor].role != Manager && (r == Attached || r == Separate)
    ensures var e, u := t.db.candidates[c].enquiry, Apply(cfg, Apply(cfg, t, Resolve(c, actor, r)), RequeueResolved(c));
      && u.workers == t.workers && u.reviewers == t.reviewers && u.now == t.now
      && u.db == t.db.(candidates := t.db.candidates[c := t.db.candidates[c].(resolution := r, resolvedBy := Some(actor))],
                       enquiries := t.db.enquiries[e := RequeuedRow(t.db.enquiries[e], t.now, 0)])
  {}

  lemma AttemptableAfterRequeue(cfg: Config, p: Case, at: int, db: Db, db': Db, text: string, row: Enquiry)
    requires Attemptable(cfg, p, at, db, p.dup, text) && NothingElseIsOpen(db.enquiries, p.id)
    requires db'.contacts == db.contacts && db'.companies == db.companies
    requires db'.enquiries == db.enquiries[p.id := RequeuedRow(row, at, 0)] && EnquiryKept(db.enquiries[p.id], row)
    ensures Attemptable(cfg, p, at, db', p.dup, text)
  {
    hide IsMatch, Trusted;
    MatchReadsContacts(cfg, db, db', Trusted(p.ex), p.dup);
    assert forall j | 0 <= j < |db.enquiries| && j != p.id :: db'.enquiries[j] == db.enquiries[j];
  }

  /** The enquiry is flagged, and its candidate pending. */
  lemma FlagRun(cfg: Config, p: Case, s: State, ans: Answers) returns (events: seq<Event>)
    requires NextInLine(cfg, p, s) && Answering(cfg, s.db.enquiries[p.id].text, p, ans)
    requires Decided(cfg, p).action == FlagForMergeReview
    ensures AloneThroughout(cfg, s.db.enquiries[p.id].text, p, events)
    ensures var t := System.Run(cfg, s, events);
      && t.workers == [Draining] && t.reviewers == s.reviewers && t.now == s.now
      && t.db.candidates == CandidatesAfter(cfg, s.db.candidates, p.id, p.dup)
      && t.db.contacts == s.db.contacts && t.db.companies == s.db.companies
      && t.db.enquiries == s.db.enquiries[p.id := RestedRow(ClaimedRow(s.db.enquiries[p.id], s.now, cfg.lockTtl), NeedsHumanReview)]
  {
    hide System.Run, Reaches, Checked, GoodContacts, IsMatch, IsCompanyHit, HasRecentDuplicate, Trusted, Good, AloneThroughout, AlwaysReads;
    hide Answering, Decided, Attemptable, CandidatesAfter, ClaimedRow, RestedRow;
    var text := s.db.enquiries[p.id].text;
    NextIsAttemptable(cfg, p, s);
    var turns, db' := FlaggingPath(cfg, p, s.now, s.db, text, ans);
    events := RunOfPath(cfg, text, p, true, s, turns, db', Draining);
  }

  lemma WeakMatch(cfg: Config, p: Case)
    requires Decided(cfg, p).action == FlagForMergeReview
    ensures p.dup.Some? && p.dup.value.score < cfg.autoAttach
  {
    hide LeastEligible, Identifiable;
  }

  /** An attempt after the resolution. */
  lemma FlagAgain(cfg: Config, p: Case, u: State, ans: Answers, text: string, c: nat) returns (events: seq<Event>)
    requires u.workers == [Draining] && Locked(u.reviewers) == {} && Attemptable(cfg, p, u.now, u.db, p.dup, text)
    requires Answering(cfg, text, p, ans) && Decided(cfg, p).action == FlagForMergeReview && c < |u.db.candidates|
    ensures AloneThroughout(cfg, text, p, events)
    ensures var v := System.Run(cfg, u, events);
      && p.id < |v.db.enquiries| && v.db.enquiries[p.id].status == NeedsHumanReview
      && c < |v.db.candidates| && v.db.candidates[c].resolution == u.db.candidates[c].resolution
  {
    hide System.Run, Reaches, IsMatch, HasRecentDuplicate, Trusted, AloneThroughout, AlwaysReads, Answering, Decided, CandidatesAfter;
    WeakMatch(cfg, p);
    var turns, db' := FlaggingPath(cfg, p, u.now, u.db, text, ans);
    CandidateStays(cfg, u.db.candidates, c, p.id, p.dup.value);
    events := RunOfPath(cfg, text, p, true, u, turns, db', Draining);
  }

  /** The handler's comment says that the enquiry can flow again, and that on `separate` matching
      is skipped. From every start with a weakly matching enquiry next in the queue: it is
      flagged, a human resolves the match either way, it is requeued, and it is flagged again. */
  lemma ResolvedIsFlaggedAgain(cfg: Config, p: Case, s: State, ans: Answers, actor: nat, r: Resolution)
    returns (first: seq<Event>, second: seq<Event>)
    requires NextInLine(cfg, p, s) && NothingElseIsOpen(s.db.enquiries, p.id)
    requires Answering(cfg, s.db.enquiries[p.id].text, p, ans) && Decided(cfg, p).action == FlagForMergeReview
    requires p.dup.Some? && CandidateOf(s.db.candidates, p.id, p.dup.value.contact) == |s.db.candidates|
    requires actor < |cfg.users| && cfg.users[actor].role != Manager && (r == Attached || r == Separate)
    ensures var text := s.db.enquiries[p.id].text; AloneThroughout(cfg, text, p, first) && AloneThroughout(cfg, text, p, second)
    ensures var c, t := |s.db.candidates|, System.Run(cfg, s, first);
      && p.id < |t.db.enquiries| && t.db.enquiries[p.id].status == NeedsHumanReview
      && c < |t.db.candidates| && t.db.candidates[c].enquiry == p.id && t.db.candidates[c].resolution == Pending
    ensures var c, v := |s.db.candidates|, System.Run(cfg, s, first + [Resolve(|s.db.candidates|, actor, r), RequeueResolved(|s.db.candidates|)] + second);
      && p.id < |v.db.enquiries| && v.db.enquiries[p.id].status == NeedsHumanReview
      && c < |v.db.candidates| && v.db.candidates[c].resolution == r
  {
    hide System.Run, Checked, GoodContacts, IsMatch, IsCompanyHit, HasRecentDuplicate, Trusted, Good, AloneThroughout, Answering, Decided, Apply;
    hide CandidatesAfter, Attemptable, NothingElseIsOpen, IsOldestClaimable, Locked;
    var text, c := s.db.enquiries[p.id].text, |s.db.candidates|;
    NextIsAttemptable(cfg, p, s);
    WeakMatch(cfg, p);
    first := FlagRun(cfg, p, s, ans);
    CandidateRow(cfg, s.db.candidates, p.id, p.dup.value);
    var t := System.Run(cfg, s, first);
    ResolveAndRequeue(cfg, t, c, actor, r);
    var u := Apply(cfg, Apply(cfg, t, Resolve(c, actor, r)), RequeueResolved(c));
    AttemptableAfterRequeue(cfg, p, s.now, s.db, u.db, text, t.db.enquiries[p.id]);
    second := FlagAgain(cfg, p, u, ans, text, c);
    RunTwoMore(cfg, s, first, Resolve(c, actor, r), RequeueResolved(c));
    RunsJoin(cfg, s, first + [Resolve(c, actor, r), RequeueResolved(c)], second);
  }
}
