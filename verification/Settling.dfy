/** Retries end at rest: a measure that every attempt's every step lowers, and where an
    enquiry is when its attempts are used up. */
module Settling {
  import opened Base
  import opened Text
  import opened Model
  import opened Router
  import opened Grounding
  import opened Tables
  import opened System
  import opened Safety
  import opened Queue
  import opened Turns
  import opened Retry

  // ---------- the measure ----------

  /** How many steps an attempt still has before it at most. */
  function Rank(pc: Pc): (n: nat)
    ensures n < ROUND && (n == 0 <==> Holds(pc).None?)
  {
    match pc
    case AtDedupe(_) => 13
    case AtExtract(_) => 12
    case AtSave(_, _) => 11
    case AtMatch(_, _) => 10
    case AtRecordMatch(_, _, _) => 9
    case AtRoute(_, _, _) => 8
    case AtContact(_, _, _, _) => 7
    case AtOwner(_, _, _, _, _) => 6
    case AtRecord(_, _, _, _, _) => 5
    case AtDraft(_, _, _, _) => 4
    case AtSaveDraft(_, _, _) => 3
    case AtRest(_, _, _) => 2
    case AtFail(_) => 1
    case _ => 0
  }

  const ROUND: nat := 14

  lemma StagesLowerRank(cfg: Config, db: Db, now: int, locked: set<nat>, pc: Pc, o: Oracle)
    requires Holds(pc).Some? && StageStep(cfg, db, now, locked, pc, o).Some?
    ensures Rank(StageStep(cfg, db, now, locked, pc, o).value.next) < Rank(pc)
  {
    hide Route, IsMatch, Extract, TeamAndUser, PickOwner, UpsertContact, IsCompanyHit, HasRecentDuplicate, Blank, TrimSpace;
  }

  /** Every step of a worker that holds an enquiry gets it closer to letting go. */
  lemma StepsLowerRank(cfg: Config, db: Db, now: int, locked: set<nat>, pc: Pc, o: Oracle)
    requires Holds(pc).Some? && WorkerStep(cfg, db, now, locked, pc, o).Some?
    ensures Rank(WorkerStep(cfg, db, now, locked, pc, o).value.next) < Rank(pc)
  {
    if !pc.AtFail? && o.ok {
      StagesLowerRank(cfg, db, now, locked, pc, o);
    }
    hide StageStep;
  }

  /** What the enquiry's holder, if it has one, has still before it. */
  function RankOf(ws: seq<Pc>, e: nat): nat {
    var i := First(ws, (pc: Pc) => HeldBy(pc, e));
    if i < |ws| then Rank(ws[i]) else 0
  }

  lemma RankOfHolder(ws: seq<Pc>, e: nat, i: nat)
    requires HoldersDiffer(ws) && i < |ws| && HeldBy(ws[i], e)
    ensures RankOf(ws, e) == Rank(ws[i])
  {
    hide Rank;
    var k := First(ws, (pc: Pc) => HeldBy(pc, e));
    assert k <= i;
  }

  lemma RankOfNobody(ws: seq<Pc>, e: nat)
    requires forall i | 0 <= i < |ws| :: !HeldBy(ws[i], e)
    ensures RankOf(ws, e) == 0
  {}

  /** The attempts left to an enquiry, and within the current one the steps left: the pair,
      read lexicographically, as one number. */
  function Remaining(cfg: Config, start: seq<Enquiry>, s: State, e: nat): int {
    ROUND * (LastAfter(cfg, AttemptsOf(start, e)) - AttemptsOf(s.db.enquiries, e)) + RankOf(s.workers, e)
  }

  /** The event is a step of the enquiry's holder, or a claim of the enquiry. */
  ghost predicate WorksOn(cfg: Config, s: State, a: Event, e: nat) {
    && a.Work? && a.worker < |s.workers|
    && var m := WorkerStep(cfg, s.db, s.now, Locked(s.reviewers), s.workers[a.worker], a.oracle);
       m.Some? && (HeldBy(s.workers[a.worker], e) || (m.value.write.ClaimRow? && m.value.write.id == e))
  }

  // ---------- the measure falls ----------

  lemma WorkEventIs(cfg: Config, s: State, a: Event)
    requires a.Work? && a.worker < |s.workers|
    ensures var m := WorkerStep(cfg, s.db, s.now, Locked(s.reviewers), s.workers[a.worker], a.oracle);
      && Emit(cfg, s, a) == (if m.Some? then m.value.write else NoWrite)
      && WorkersAfter(cfg, s, a) == (if m.Some? then s.workers[a.worker := m.value.next] else s.workers)
  {
    hide WorkerStep;
  }

  lemma OnlyDrainersClaim(cfg: Config, db: Db, now: int, locked: set<nat>, pc: Pc, o: Oracle)
    requires WorkerStep(cfg, db, now, locked, pc, o).Some?
    ensures WorkerStep(cfg, db, now, locked, pc, o).value.write.ClaimRow? ==> pc.Draining?
  {
    if Holds(pc).Some? && !pc.AtFail? && o.ok {
      StagesDoNotClaim(cfg, db, now, locked, pc, o);
    }
    hide StageStep;
  }

  lemma RankOfUpdate(ws: seq<Pc>, i: nat, next: Pc, e: nat)
    requires i < |ws| && HoldersDiffer(ws) && HoldersDiffer(ws[i := next]) && HeldBy(ws[i], e)
    ensures RankOf(ws[i := next], e) <= Rank(next)
  {
    var ws' := ws[i := next];
    hide Rank;
    if HeldBy(next, e) {
      RankOfHolder(ws', e, i);
    } else {
      assert forall j | 0 <= j < |ws| && j != i :: !HeldBy(ws[j], e);
      RankOfNobody(ws', e);
    }
  }

  lemma RankOfSame(ws: seq<Pc>, ws': seq<Pc>, e: nat)
    requires |ws'| == |ws| && forall j | 0 <= j < |ws| && (HeldBy(ws[j], e) || HeldBy(ws'[j], e)) :: ws'[j] == ws[j]
    ensures RankOf(ws', e) == RankOf(ws, e)
  {
    hide Rank;
    var k, k' := First(ws, (pc: Pc) => HeldBy(pc, e)), First(ws', (pc: Pc) => HeldBy(pc, e));
    assert k < |ws| ==> k' <= k;
    assert k' < |ws| ==> k <= k';
  }

  /** A step of the holder lowers its rank and leaves the attempts alone. */
  lemma HoldersStepLowers(cfg: Config, start: seq<Enquiry>, s: State, a: Event, e: nat)
    requires TurnInv(start, s) && Orderly(cfg, s, a)
    requires WorksOn(cfg, s, a, e) && HeldBy(s.workers[a.worker], e)
    ensures Remaining(cfg, start, Apply(cfg, s, a), e) < Remaining(cfg, start, s, e)
  {
    HoldersStayDifferent(cfg, start, s, a);
    hide Exec, WorkerStep, Rank, AttemptsOf, Orderly, RankOf, HolderOk;
    var pc := s.workers[a.worker];
    WorkEventIs(cfg, s, a);
    hide Emit, WorkersAfter, TokenAfter, WokenAfter, ReviewersAfter;
    StepsLowerRank(cfg, s.db, s.now, Locked(s.reviewers), pc, a.oracle);
    OnlyDrainersClaim(cfg, s.db, s.now, Locked(s.reviewers), pc, a.oracle);
    var m := WorkerStep(cfg, s.db, s.now, Locked(s.reviewers), pc, a.oracle).value;
    AttemptsAfter(cfg, s.db, m.write, e);
    RankOfHolder(s.workers, e, a.worker);
    RankOfUpdate(s.workers, a.worker, m.next, e);
  }

  lemma QueuedIsUnheld(start: seq<Enquiry>, s: State, e: nat)
    requires TurnInv(start, s) && e < |s.db.enquiries| && s.db.enquiries[e].status == Received
    ensures RankOf(s.workers, e) == 0
  {
    hide Rank, Tries;
    forall i | 0 <= i < |s.workers| ensures !HeldBy(s.workers[i], e) {
      assert HolderOk(s.db.enquiries, s.workers[i], if Holds(s.workers[i]).Some? then Tries(start, s.log, s.workers[i].e.id) else 0);
    }
    RankOfNobody(s.workers, e);
  }

  lemma RankIsBelowRound(ws: seq<Pc>, e: nat)
    ensures RankOf(ws, e) < ROUND
  {
    hide Rank;
  }

  /** A claim uses up an attempt, which outweighs the steps it opens. */
  lemma ClaimsLower(cfg: Config, start: seq<Enquiry>, s: State, a: Event, e: nat)
    requires TurnInv(start, s) && Orderly(cfg, s, a) && Emit(cfg, s, a).ClaimRow? && Emit(cfg, s, a).id == e
    ensures Remaining(cfg, start, Apply(cfg, s, a), e) < Remaining(cfg, start, s, e)
  {
    hide Exec, WorkerStep, Rank, AttemptsOf, RankOf, WorkersAfter, TokenAfter, WokenAfter, ReviewersAfter;
    AttemptsAfter(cfg, s.db, Emit(cfg, s, a), e);
    QueuedIsUnheld(start, s, e);
    RankIsBelowRound(Apply(cfg, s, a).workers, e);
    hide Emit;
  }

  /** What is not work on the enquiry leaves its measure alone. */
  lemma OthersKeepRemaining(cfg: Config, start: seq<Enquiry>, s: State, a: Event, e: nat)
    requires Orderly(cfg, s, a) && (Emit(cfg, s, a).ClaimRow? ==> Emit(cfg, s, a).id != e)
    requires a.Work? && a.worker < |s.workers| ==> !HeldBy(s.workers[a.worker], e)
    requires a.Stop? && a.worker < |s.workers| ==> !HeldBy(s.workers[a.worker], e)
    ensures Remaining(cfg, start, Apply(cfg, s, a), e) == Remaining(cfg, start, s, e)
  {
    var ws, ws' := s.workers, WorkersAfter(cfg, s, a);
    SameCrew(cfg, s, a);
    hide Exec, WorkerStep, Rank, AttemptsOf, RankOf, TokenAfter, WokenAfter, ReviewersAfter, Emit;
    AttemptsAfter(cfg, s.db, Emit(cfg, s, a), e);
    forall j | 0 <= j < |ws| && (HeldBy(ws[j], e) || HeldBy(ws'[j], e)) ensures ws'[j] == ws[j] {
      if HeldBy(ws'[j], e) {
        HoldsAfter(cfg, s, a, j);
      }
    }
    RankOfSame(ws, ws', e);
  }

  lemma SameCrew(cfg: Config, s: State, a: Event)
    ensures |WorkersAfter(cfg, s, a)| == |s.workers|
  {
    hide WorkerStep;
  }

  /** How much work has gone into the enquiry: steps of its holders, and claims. */
  ghost function Effort(cfg: Config, s: State, events: seq<Event>, e: nat): nat {
    if events == [] then 0
    else
      var front := events[..|events| - 1];
      Effort(cfg, s, front, e) + if WorksOn(cfg, Run(cfg, s, front), events[|events| - 1], e) then 1 else 0
  }

  lemma ApplyLowersRemaining(cfg: Config, start: seq<Enquiry>, s: State, a: Event, e: nat)
    requires TurnInv(start, s) && Calm(cfg, s, a)
    ensures var before, after := Remaining(cfg, start, s, e), Remaining(cfg, start, Apply(cfg, s, a), e);
      if WorksOn(cfg, s, a, e) then after < before else after == before
  {
    hide Remaining, Apply, TurnInv;
    if a.Work? && a.worker < |s.workers| {
      WorkEventIs(cfg, s, a);
    }
    if WorksOn(cfg, s, a, e) && HeldBy(s.workers[a.worker], e) {
      HoldersStepLowers(cfg, start, s, a, e);
    } else if Emit(cfg, s, a).ClaimRow? && Emit(cfg, s, a).id == e {
      OnlyWorkClaims(cfg, s, a);
      ClaimsLower(cfg, start, s, a, e);
    } else if a.Work? && a.worker < |s.workers| && HeldBy(s.workers[a.worker], e) {
      IdleEventKeepsRemaining(cfg, start, s, a, e);
    } else {
      OthersKeepRemaining(cfg, start, s, a, e);
    }
  }

  lemma OnlyWorkClaims(cfg: Config, s: State, a: Event)
    requires Emit(cfg, s, a).ClaimRow?
    ensures a.Work? && a.worker < |s.workers|
  {
    hide WorkerStep;
  }

  lemma IdleEventKeepsRemaining(cfg: Config, start: seq<Enquiry>, s: State, a: Event, e: nat)
    requires a.Work? && a.worker < |s.workers|
    requires WorkerStep(cfg, s.db, s.now, Locked(s.reviewers), s.workers[a.worker], a.oracle).None?
    ensures Remaining(cfg, start, Apply(cfg, s, a), e) == Remaining(cfg, start, s, e)
  {
    WorkEventIs(cfg, s, a);
    hide WorkerStep, RankOf, AttemptsOf;
  }

  lemma {:induction false} EffortIsPaidFor(cfg: Config, s: State, events: seq<Event>, e: nat)
    requires Start(cfg, s) && CalmRun(cfg, s, events)
    ensures var start := s.db.enquiries;
      Effort(cfg, s, events, e) + Remaining(cfg, start, Run(cfg, s, events), e) <= Remaining(cfg, start, s, e)
  {
    hide Apply, Remaining, WorksOn, Start, TurnInv, BudgetInv, Calm;
    if events != [] {
      var front := events[..|events| - 1];
      EffortIsPaidFor(cfg, s, front, e);
      RunKeepsRetry(cfg, s, front);
      ApplyLowersRemaining(cfg, s.db.enquiries, Run(cfg, s, front), events[|events| - 1], e);
    }
  }

  /** Retries terminate: while attempts finish within their lease, workers are only stopped or
      restarted when idle, and nothing is requeued by hand, at most 14 steps per attempt ever go
      into an enquiry, and it has at most as many attempts as are left to it, or one. */
  lemma WorkIsBounded(cfg: Config, s: State, events: seq<Event>, e: nat)
    requires Start(cfg, s) && CalmRun(cfg, s, events)
    ensures Effort(cfg, s, events, e) <= ROUND * Left(cfg, AttemptsOf(s.db.enquiries, e))
  {
    hide Run, Start, Effort, CalmRun, AttemptsOf;
    EffortIsPaidFor(cfg, s, events, e);
    RunKeepsRetry(cfg, s, events);
    RemainingIsNatural(cfg, s.db.enquiries, Run(cfg, s, events), e);
    StartHasAllRounds(cfg, s, e);
  }

  lemma RemainingIsNatural(cfg: Config, start: seq<Enquiry>, t: State, e: nat)
    requires RetryInv(cfg, start, t)
    ensures Remaining(cfg, start, t, e) >= 0
  {
    hide RankOf, Requeues, Delays, TurnInv;
    assert e < |t.db.enquiries| ==> RowWithinBudget(cfg, AttemptsOf(start, e), t.db.enquiries[e], Requeues(t.log, e), Delays(t.log, e));
  }

  lemma StartHasAllRounds(cfg: Config, s: State, e: nat)
    requires Start(cfg, s)
    ensures Remaining(cfg, s.db.enquiries, s, e) == ROUND * Left(cfg, AttemptsOf(s.db.enquiries, e))
  {
    hide Good, Rank;
    RankOfNobody(s.workers, e);
  }

  // ---------- where it ends ----------

  /** The write with which fail ends an attempt succeeds. */
  predicate WriteLands(s: State, a: Event) {
    a.Work? && a.worker < |s.workers| && s.workers[a.worker].AtFail? ==> a.oracle.ok
  }

  ghost predicate LandingRun(cfg: Config, s: State, events: seq<Event>) {
    events != [] ==>
      LandingRun(cfg, s, events[..|events| - 1]) && WriteLands(Run(cfg, s, events[..|events| - 1]), events[|events| - 1])
  }

  ghost predicate SomeoneHolds(ws: seq<Pc>, e: nat) {
    exists i | 0 <= i < |ws| :: HeldBy(ws[i], e)
  }

  /** If the enquiry is in processing, it is being processed. */
  ghost predicate HeldInv(s: State, e: nat) {
    e < |s.db.enquiries| && s.db.enquiries[e].status == Processing ==> SomeoneHolds(s.workers, e)
  }

  /** At the start nobody has been processing it. */
  predicate NotUnderWay(es: seq<Enquiry>, e: nat) {
    e < |es| ==> es[e].status != Processing
  }

  lemma LettingGoWrites(cfg: Config, db: Db, now: int, locked: set<nat>, pc: Pc, o: Oracle)
    requires Holds(pc).Some? && WorkerStep(cfg, db, now, locked, pc, o).Some? && (pc.AtFail? ==> o.ok)
    requires Holds(WorkerStep(cfg, db, now, locked, pc, o).value.next).None?
    ensures var w := WorkerStep(cfg, db, now, locked, pc, o).value.write;
      (w.SetStatusRow? || w.RequeueRow?) && w.id == pc.e.id
  {
    hide Route, IsMatch, Extract, TeamAndUser, PickOwner, UpsertContact, IsCompanyHit, HasRecentDuplicate, Blank, TrimSpace, Backoff;
  }

  /** A holder lets go of its enquiry only by writing the enquiry's row. */
  lemma HoldersKeepOrWrite(cfg: Config, s: State, a: Event, i: nat, e: nat)
    requires Calm(cfg, s, a) && WriteLands(s, a) && i < |s.workers| && HeldBy(s.workers[i], e)
    ensures var w := Emit(cfg, s, a);
      || (|WorkersAfter(cfg, s, a)| == |s.workers| && HeldBy(WorkersAfter(cfg, s, a)[i], e))
      || ((w.SetStatusRow? || w.RequeueRow?) && w.id == e)
  {
    if a.Work? && a.worker == i && WorkerStep(cfg, s.db, s.now, Locked(s.reviewers), s.workers[i], a.oracle).Some? {
      WorkEventIs(cfg, s, a);
      hide StageStep;
      var next := WorkerStep(cfg, s.db, s.now, Locked(s.reviewers), s.workers[i], a.oracle).value.next;
      if Holds(next).None? {
        LettingGoWrites(cfg, s.db, s.now, Locked(s.reviewers), s.workers[i], a.oracle);
      } else if !s.workers[i].AtFail? && a.oracle.ok {
        StagesKeepTheSnapshot(cfg, s.db, s.now, Locked(s.reviewers), s.workers[i], a.oracle);
      }
    }
    hide WorkerStep;
  }

  lemma ClaimersHold(cfg: Config, s: State, a: Event)
    requires Emit(cfg, s, a).ClaimRow?
    ensures a.Work? && a.worker < |s.workers| && |WorkersAfter(cfg, s, a)| == |s.workers|
    ensures HeldBy(WorkersAfter(cfg, s, a)[a.worker], Emit(cfg, s, a).id)
  {
    OnlyWorkClaims(cfg, s, a);
    WorkEventIs(cfg, s, a);
    OnlyDrainersClaim(cfg, s.db, s.now, Locked(s.reviewers), s.workers[a.worker], a.oracle);
    hide StageStep;
  }

  lemma ApplyKeepsHeld(cfg: Config, s: State, a: Event, e: nat)
    requires HeldInv(s, e) && Agents(cfg, s) && Calm(cfg, s, a) && WriteLands(s, a)
    ensures HeldInv(Apply(cfg, s, a), e)
  {
    var w, s' := Emit(cfg, s, a), Apply(cfg, s, a);
    ExecOnQueue(cfg, s.db, w);
    SameCrew(cfg, s, a);
    EmitIsPermitted(cfg, s, a);
    if w.ClaimRow? {
      ClaimersHold(cfg, s, a);
    }
    hide Exec, Emit, WorkersAfter, HeldBy, WriteLands, Calm, Agents;
    if e < |s'.db.enquiries| && s'.db.enquiries[e].status == Processing {
      if e < |s.db.enquiries| && !(w.ClaimRow? && w.id == e) && s.db.enquiries[e].status == Processing {
        var i :| 0 <= i < |s.workers| && HeldBy(s.workers[i], e);
        HoldersKeepOrWrite(cfg, s, a, i, e);
      }
    }
  }

  lemma {:induction false} RunKeepsHeld(cfg: Config, s: State, events: seq<Event>, e: nat)
    requires Start(cfg, s) && CalmRun(cfg, s, events) && LandingRun(cfg, s, events) && NotUnderWay(s.db.enquiries, e)
    ensures HeldInv(Run(cfg, s, events), e)
  {
    hide Apply, Good, RetryInv, Calm, WriteLands, Agents, SomeoneHolds;
    if events != [] {
      var t := Run(cfg, s, events[..|events| - 1]);
      RunKeepsHeld(cfg, s, events[..|events| - 1], e);
      RunKeepsRetry(cfg, s, events[..|events| - 1]);
      ApplyKeepsHeld(cfg, t, events[|events| - 1], e);
    }
  }

  /** The enquiry waits in the queue with attempts to spare, or a worker is at work on it. */
  ghost predicate UnderWay(cfg: Config, start: seq<Enquiry>, s: State, e: nat) {
    && e < |s.db.enquiries|
    && (SomeoneHolds(s.workers, e) ||
        (s.db.enquiries[e].status == Received && s.db.enquiries[e].attempts < LastAfter(cfg, AttemptsOf(start, e))))
  }

  /** An enquiry is always at rest, or under way with attempts to spare. */
  lemma RestsUnlessUnderWay(cfg: Config, s: State, events: seq<Event>, e: nat)
    requires Start(cfg, s) && CalmRun(cfg, s, events) && LandingRun(cfg, s, events) && NotUnderWay(s.db.enquiries, e)
    requires e < |Run(cfg, s, events).db.enquiries|
    ensures var t := Run(cfg, s, events); IsResting(t.db.enquiries[e].status) || UnderWay(cfg, s.db.enquiries, t, e)
  {
    RunKeepsHeld(cfg, s, events, e);
    RunKeepsRetry(cfg, s, events);
    var t, n := Run(cfg, s, events), AttemptsOf(s.db.enquiries, e);
    hide Run, Start, TurnInv, Agents, SomeoneHolds, CalmRun, LandingRun, AttemptsOf;
    assert RowWithinBudget(cfg, n, t.db.enquiries[e], Requeues(t.log, e), Delays(t.log, e));
  }

  /** Bounded retry: an enquiry that has been claimed as often as it had attempts left, or once
      if it had none, and that no worker is working on any more, has come to rest. */
  lemma RestsAfterItsAttempts(cfg: Config, s: State, events: seq<Event>, e: nat)
    requires Start(cfg, s) && CalmRun(cfg, s, events) && LandingRun(cfg, s, events) && NotUnderWay(s.db.enquiries, e)
    requires e < |Run(cfg, s, events).db.enquiries| && !SomeoneHolds(Run(cfg, s, events).workers, e)
    requires CountClaims(Run(cfg, s, events).log, e) >= Left(cfg, AttemptsOf(s.db.enquiries, e))
    ensures IsResting(Run(cfg, s, events).db.enquiries[e].status)
  {
    hide Run, Start, SomeoneHolds, CalmRun, LandingRun;
    RestsUnlessUnderWay(cfg, s, events, e);
    AttemptsCountClaims(cfg, s, events, e);
  }

  // ---------- the dead letter ----------

  lemma StagesDoNotFail(cfg: Config, db: Db, now: int, locked: set<nat>, pc: Pc, o: Oracle)
    requires StageStep(cfg, db, now, locked, pc, o).Some?
    ensures var w := StageStep(cfg, db, now, locked, pc, o).value.write; w.SetStatusRow? ==> pc.AtRest? && w.status == pc.status
  {
    hide Route, IsMatch, Extract, TeamAndUser, PickOwner, UpsertContact, IsCompanyHit, HasRecentDuplicate, Blank, TrimSpace;
  }

  /** Only fail dead-letters, and only an attempt whose number reaches MaxAttempts. */
  lemma OnlyFailDeadLetters(cfg: Config, s: State, a: Event, e: nat)
    requires Agents(cfg, s) && Emit(cfg, s, a) == SetStatusRow(e, Failed)
    ensures a.Work? && a.worker < |s.workers| && s.workers[a.worker].AtFail?
    ensures HeldBy(s.workers[a.worker], e) && s.workers[a.worker].e.attempts >= cfg.maxAttempts
  {
    OnlyWorkersSetStatus(cfg, s, a);
    var pc := s.workers[a.worker];
    WorkEventIs(cfg, s, a);
    assert WorkerOk(cfg, s.db, pc);
    if Holds(pc).Some? && !pc.AtFail? && a.oracle.ok {
      StagesDoNotFail(cfg, s.db, s.now, Locked(s.reviewers), pc, a.oracle);
    }
    hide StageStep, Agents, GateOk, DupOk, DecisionOk, MatchOk, Checked, Emit, WorkersAfter, Backoff;
  }

  lemma OnlyWorkersSetStatus(cfg: Config, s: State, a: Event)
    requires Emit(cfg, s, a).SetStatusRow?
    ensures a.Work? && a.worker < |s.workers|
  {
    hide WorkerStep;
  }

  /** The attempt that dead-letters an enquiry that had n attempts at the start is number
      MaxAttempts, or n + 1 if that is more; since the start the enquiry has been claimed as often
      as it had attempts left, and has waited (2^MaxAttempts - 2^(n+1)) poll intervals. */
  lemma DeadLetterIsTheLastAttempt(cfg: Config, s: State, events: seq<Event>, a: Event, e: nat)
    requires Start(cfg, s) && CalmRun(cfg, s, events)
    requires Emit(cfg, Run(cfg, s, events), a) == SetStatusRow(e, Failed)
    requires Pow2(LastAfter(cfg, AttemptsOf(s.db.enquiries, e)) - 1) * cfg.pollInterval < TWO_63
    ensures var t, n := Run(cfg, s, events), AttemptsOf(s.db.enquiries, e);
      && AttemptsOf(t.db.enquiries, e) == LastAfter(cfg, n) && CountClaims(t.log, e) == Left(cfg, n)
      && Delays(t.log, e) == (Pow2(LastAfter(cfg, n)) - Pow2(n + 1)) * cfg.pollInterval
  {
    hide Run, Start, CalmRun, Emit, RetryInv, Agents, Pow2, HasWaited, AttemptsOf;
    RunKeepsRetry(cfg, s, events);
    AttemptsCountClaims(cfg, s, events, e);
    var t := Run(cfg, s, events);
    OnlyFailDeadLetters(cfg, t, a, e);
    WaitsDouble(cfg, s, events, a.worker);
    LastAttempt(cfg, s.db.enquiries, t, a.worker);
  }

  lemma LastAttempt(cfg: Config, start: seq<Enquiry>, t: State, i: nat)
    requires RetryInv(cfg, start, t) && i < |t.workers| && Holds(t.workers[i]).Some? && HasWaited(cfg, start, t, i)
    requires t.workers[i].e.attempts >= cfg.maxAttempts
    ensures var last, n := t.workers[i].e.attempts, AttemptsOf(start, t.workers[i].e.id);
      && AttemptsOf(t.db.enquiries, t.workers[i].e.id) == last == LastAfter(cfg, n)
      && Delays(t.log, t.workers[i].e.id) == (Pow2(LastAfter(cfg, n)) - Pow2(n + 1)) * cfg.pollInterval
  {
    hide Pow2;
    assert HolderOk(t.db.enquiries, t.workers[i], Tries(start, t.log, t.workers[i].e.id));
  }
}
