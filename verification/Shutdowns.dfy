/** A shutdown puts the enquiry it interrupts back into the queue, but does not give its
    attempt back: how many of its attempts an enquiry loses to shutdowns. */
module Shutdowns {
  import opened Base
  import opened Text
  import opened Model
  import opened Grounding
  import opened Tables
  import opened System
  import opened Safety
  import opened Queue
  import opened Turns
  import opened Retry
  import opened Settling
  import opened Workers

  // ---------- what ends an attempt ----------

  /** The event ends an attempt on e by a failure that is retried. */
  ghost predicate IsFailure(cfg: Config, s: State, a: Event, e: nat) {
    && a.Work? && a.worker < |s.workers| && s.workers[a.worker].AtFail? && HeldBy(s.workers[a.worker], e)
    && a.oracle.ok && s.workers[a.worker].e.attempts < cfg.maxAttempts
  }

  /** The event is a shutdown that takes e from a worker with attempts to spare. */
  ghost predicate IsRelease(cfg: Config, s: State, a: Event, e: nat) {
    && a.Stop? && s.closing && a.released && a.worker < |s.workers| && HeldBy(s.workers[a.worker], e)
    && s.workers[a.worker].e.attempts < cfg.maxAttempts
  }

  ghost function Failures(cfg: Config, s: State, events: seq<Event>, e: nat): nat {
    if events == [] then 0
    else
      var front := events[..|events| - 1];
      Failures(cfg, s, front, e) + if IsFailure(cfg, System.Run(cfg, s, front), events[|events| - 1], e) then 1 else 0
  }

  ghost function Releases(cfg: Config, s: State, events: seq<Event>, e: nat): nat {
    if events == [] then 0
    else
      var front := events[..|events| - 1];
      Releases(cfg, s, front, e) + if IsRelease(cfg, System.Run(cfg, s, front), events[|events| - 1], e) then 1 else 0
  }

  function Min(a: int, b: int): int {
    if a < b then a else b
  }

  /** Every requeue of an attempt that is not the last is one or the other. */
  lemma RequeueIsFailureOrRelease(cfg: Config, start: seq<Enquiry>, s: State, a: Event, e: nat)
    requires TurnInv(start, s) && Orderly(cfg, s, a)
    ensures var one := Requeued(Emit(cfg, s, a), e) && Tries(start, s.log, e) + 1 < cfg.maxAttempts;
      && (one <==> IsFailure(cfg, s, a, e) || IsRelease(cfg, s, a, e))
      && !(IsFailure(cfg, s, a, e) && IsRelease(cfg, s, a, e))
  {
    hide WorkerStep, Tries, HoldersDiffer, Backoff, QueuedRowOk;
    if a.Work? && a.worker < |s.workers| {
      WorkEventIs(cfg, s, a);
      WhoRequeues(cfg, s.db, s.now, Locked(s.reviewers), s.workers[a.worker], a.oracle);
    }
    if (a.Work? || a.Stop?) && a.worker < |s.workers| && Holds(s.workers[a.worker]).Some? {
      var pc := s.workers[a.worker];
      assert HolderOk(s.db.enquiries, pc, Tries(start, s.log, pc.e.id));
    }
  }

  lemma WhoRequeues(cfg: Config, db: Db, now: int, locked: set<nat>, pc: Pc, o: Oracle)
    ensures var m := WorkerStep(cfg, db, now, locked, pc, o);
      (m.Some? && m.value.write.RequeueRow?) <==> (pc.AtFail? && o.ok && pc.e.attempts < cfg.maxAttempts)
    ensures var m := WorkerStep(cfg, db, now, locked, pc, o);
      m.Some? && m.value.write.RequeueRow? ==> m.value.write.id == pc.e.id
  {
    if Holds(pc).Some? && !pc.AtFail? && o.ok {
      StagesDoNotRequeue(cfg, db, now, locked, pc, o);
    }
    hide StageStep, Backoff;
  }

  lemma {:induction false} AttemptsAreAccountedFor(cfg: Config, s: State, events: seq<Event>, e: nat)
    requires Start(cfg, s) && OrderlyRun(cfg, s, events)
    ensures Failures(cfg, s, events, e) + Releases(cfg, s, events, e) ==
      Min(Requeues(System.Run(cfg, s, events).log, e), Left(cfg, AttemptsOf(s.db.enquiries, e)) - 1)
  {
    hide WorkerStep, TurnInv, IsFailure, IsRelease, Orderly, Start, Agents, Emit, Exec, WorkersAfter;
    if events == [] {
      assert s.log == [] by { StartHasNoLog(cfg, s); }
    } else {
      var front, a := events[..|events| - 1], events[|events| - 1];
      var t := System.Run(cfg, s, front);
      AttemptsAreAccountedFor(cfg, s, front, e);
      RunKeepsTurns(cfg, s, front);
      RequeueIsFailureOrRelease(cfg, s.db.enquiries, t, a, e);
      RequeuesAfter(t.log, Emit(cfg, t, a), e);
    }
  }

  lemma StartHasNoLog(cfg: Config, s: State)
    requires Start(cfg, s)
    ensures s.log == []
  {
    hide Good;
  }

  /** A comment says that a shutdown does not burn a retry. It does: an enquiry that is given up
      has failed as often as it had attempts left at the start only if no shutdown took it from
      a worker before its last attempt, and once less for every one that did. */
  lemma ShutdownBurnsTheAttempt(cfg: Config, s: State, events: seq<Event>, a: Event, e: nat)
    requires Start(cfg, s) && OrderlyRun(cfg, s, events)
    requires Emit(cfg, System.Run(cfg, s, events), a) == SetStatusRow(e, Failed)
    ensures Failures(cfg, s, events, e) + 1 + Releases(cfg, s, events, e) == Left(cfg, AttemptsOf(s.db.enquiries, e))
  {
    hide System.Run, Start, OrderlyRun, Emit, Failures, Releases, Agents;
    AttemptsAreAccountedFor(cfg, s, events, e);
    RunKeepsTurns(cfg, s, events);
    var t := System.Run(cfg, s, events);
    OnlyFailDeadLetters(cfg, t, a, e);
    assert HolderOk(t.db.enquiries, t.workers[a.worker], Tries(s.db.enquiries, t.log, e));
  }

  // ---------- shutdowns alone use up all attempts but one ----------

  /** Nobody holds anything, and e is next in the queue. */
  ghost predicate Ready(s: State, e: nat) {
    && s.workers != [] && s.workers[0].Draining?
    && (forall i | 0 <= i < |s.workers| :: Holds(s.workers[i]).None?)
    && IsOldestClaimable(s.db.enquiries, s.now, e) && s.db.enquiries[e].status == Received
  }

  /** The history so far has used up n attempts on e, all of them by shutdowns. */
  ghost predicate Spent(cfg: Config, s: State, events: seq<Event>, e: nat, n: nat) {
    && OrderlyRun(cfg, s, events) && Failures(cfg, s, events, e) == 0 && Releases(cfg, s, events, e) == n
    && var t := System.Run(cfg, s, events); Ready(t, e) && t.db.enquiries[e].attempts == AttemptsOf(s.db.enquiries, e) + n
  }

  lemma OneMore(cfg: Config, s: State, events: seq<Event>, a: Event, e: nat)
    ensures var t := System.Run(cfg, s, events);
      && System.Run(cfg, s, events + [a]) == Apply(cfg, t, a)
      && OrderlyRun(cfg, s, events + [a]) == (OrderlyRun(cfg, s, events) && Orderly(cfg, t, a))
      && Failures(cfg, s, events + [a], e) == Failures(cfg, s, events, e) + (if IsFailure(cfg, t, a, e) then 1 else 0)
      && Releases(cfg, s, events + [a], e) == Releases(cfg, s, events, e) + (if IsRelease(cfg, t, a, e) then 1 else 0)
  {
    hide Apply, Orderly, IsFailure, IsRelease;
    assert (events + [a])[..|events|] == events;
  }

  function ClaimOf(e: nat): Event {
    Work(0, Answer(true).(row := Some(e)))
  }

  lemma ClaimEvent(cfg: Config, t: State, e: nat)
    requires Ready(t, e)
    ensures var u := Apply(cfg, t, ClaimOf(e));
      && Orderly(cfg, t, ClaimOf(e)) && !IsFailure(cfg, t, ClaimOf(e), e) && !IsRelease(cfg, t, ClaimOf(e), e)
      && u.db.enquiries == t.db.enquiries[e := ClaimedRow(t.db.enquiries[e], t.now, cfg.lockTtl)]
      && u.workers == t.workers[0 := AtDedupe(SnapshotOf(u.db.enquiries, e))] && u.now == t.now
  {}

  lemma CloseEvent(cfg: Config, t: State, e: nat)
    ensures var u := Apply(cfg, t, Close);
      && Orderly(cfg, t, Close) && !IsFailure(cfg, t, Close, e) && !IsRelease(cfg, t, Close, e)
      && u.db == t.db && u.workers == t.workers && u.now == t.now && u.closing
  {}

  lemma StopEvent(cfg: Config, t: State, e: nat)
    requires t.closing && t.workers != [] && HeldBy(t.workers[0], e) && e < |t.db.enquiries|
    requires t.workers[0].e.attempts < cfg.maxAttempts
    ensures var u := Apply(cfg, t, Stop(0, true));
      && Orderly(cfg, t, Stop(0, true)) && !IsFailure(cfg, t, Stop(0, true), e) && IsRelease(cfg, t, Stop(0, true), e)
      && u.db.enquiries == t.db.enquiries[e := RequeuedRow(t.db.enquiries[e], t.now, 0)]
      && u.workers == t.workers[0 := Stopped] && u.now == t.now
  {}

  lemma RestartEvent(cfg: Config, t: State, e: nat)
    requires forall i | 0 <= i < |t.workers| :: Holds(t.workers[i]).None?
    ensures var u := Apply(cfg, t, Restart);
      && Orderly(cfg, t, Restart) && !IsFailure(cfg, t, Restart, e) && !IsRelease(cfg, t, Restart, e)
      && u.db == t.db && u.now == t.now && |u.workers| == |t.workers| && forall i | 0 <= i < |u.workers| :: u.workers[i].Draining?
  {}

  /** Worker 0 claims e; the process is told to close, stops, and is started again. */
  function Interruption(e: nat): seq<Event> {
    [ClaimOf(e)] + [Close] + [Stop(0, true)] + [Restart]
  }

  lemma OneInterruption(cfg: Config, s: State, events: seq<Event>, e: nat, n: nat)
    requires Spent(cfg, s, events, e, n) && AttemptsOf(s.db.enquiries, e) + n + 1 < cfg.maxAttempts
    ensures Spent(cfg, s, events + Interruption(e), e, n + 1)
  {
    hide System.Run, Apply, Orderly, OrderlyRun, Failures, Releases, IsFailure, IsRelease;
    var h := events;
    var t := System.Run(cfg, s, h);
    ClaimEvent(cfg, t, e);
    OneMore(cfg, s, h, ClaimOf(e), e);
    h := h + [ClaimOf(e)];
    CloseEvent(cfg, System.Run(cfg, s, h), e);
    OneMore(cfg, s, h, Close, e);
    h := h + [Close];
    StopEvent(cfg, System.Run(cfg, s, h), e);
    OneMore(cfg, s, h, Stop(0, true), e);
    h := h + [Stop(0, true)];
    RestartEvent(cfg, System.Run(cfg, s, h), e);
    OneMore(cfg, s, h, Restart, e);
    h := h + [Restart];
    assert h == events + Interruption(e);
    assert forall j | 0 <= j < |t.db.enquiries| && j != e :: System.Run(cfg, s, h).db.enquiries[j] == t.db.enquiries[j];
  }

  lemma {:induction false} ShutdownsSpend(cfg: Config, s: State, e: nat, n: nat) returns (events: seq<Event>)
    requires Spent(cfg, s, [], e, 0) && AttemptsOf(s.db.enquiries, e) + n < cfg.maxAttempts
    ensures Spent(cfg, s, events, e, n)
  {
    hide Spent;
    if n == 0 {
      events := [];
    } else {
      var front := ShutdownsSpend(cfg, s, e, n - 1);
      OneInterruption(cfg, s, front, e, n - 1);
      events := front + Interruption(e);
    }
  }

  /** Worker 0 claims e, its first call fails, and so does the attempt. */
  lemma LastAttemptFails(cfg: Config, t: State, e: nat)
    requires Ready(t, e) && t.db.enquiries[e].attempts + 1 >= cfg.maxAttempts
    ensures var u := Apply(cfg, Apply(cfg, t, ClaimOf(e)), Work(0, Answer(false)));
      Emit(cfg, u, Work(0, Answer(true))) == SetStatusRow(e, Failed)
    ensures var u := Apply(cfg, t, ClaimOf(e));
      && Orderly(cfg, u, Work(0, Answer(false)))
      && !IsFailure(cfg, u, Work(0, Answer(false)), e) && !IsRelease(cfg, u, Work(0, Answer(false)), e)
  {
    ClaimEvent(cfg, t, e);
    hide Backoff;
  }

  /** The enquiry that is next in the queue can be given up at its very first failure, all the
      attempts left to it before that lost to shutdowns. */
  lemma ShutdownsUseUpTheAttempts(cfg: Config, s: State, e: nat) returns (events: seq<Event>, last: Event)
    requires Start(cfg, s) && s.workers != [] && IsOldestClaimable(s.db.enquiries, s.now, e)
    requires s.db.enquiries[e].status == Received && s.db.enquiries[e].attempts < cfg.maxAttempts
    ensures OrderlyRun(cfg, s, events) && Emit(cfg, System.Run(cfg, s, events), last) == SetStatusRow(e, Failed)
    ensures Failures(cfg, s, events, e) == 0 && Releases(cfg, s, events, e) == cfg.maxAttempts - s.db.enquiries[e].attempts - 1
  {
    hide Good, Apply, Orderly, IsFailure, IsRelease, Emit;
    assert Spent(cfg, s, [], e, 0);
    hide System.Run, OrderlyRun, Failures, Releases;
    var front := ShutdownsSpend(cfg, s, e, cfg.maxAttempts - s.db.enquiries[e].attempts - 1);
    var t := System.Run(cfg, s, front);
    ClaimEvent(cfg, t, e);
    LastAttemptFails(cfg, t, e);
    OneMore(cfg, s, front, ClaimOf(e), e);
    OneMore(cfg, s, front + [ClaimOf(e)], Work(0, Answer(false)), e);
    events, last := front + [ClaimOf(e)] + [Work(0, Answer(false))], Work(0, Answer(true));
  }
}
