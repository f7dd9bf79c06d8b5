/** The queue: leases exclude, nothing is lost, and wake-ups are not lost. */
module Queue {
  import opened Base
  import opened Text
  import opened Model
  import opened Grounding
  import opened Tables
  import opened System
  import opened Safety

  // ---------- what a statement does to one queue row ----------

  predicate Decides(db: Db, w: Write, i: nat) {
    w.DecideRow? && w.message < |db.messages| && db.messages[w.message].enquiry == i
  }

  function RowAfter(cfg: Config, db: Db, w: Write, i: nat): Enquiry
    requires i < |db.enquiries|
  {
    var row := db.enquiries[i];
    if w.ClaimRow? && w.id == i then ClaimedRow(row, w.at, cfg.lockTtl)
    else if w.SetStatusRow? && w.id == i then RestedRow(row, w.status)
    else if w.RequeueRow? && w.id == i then RequeuedRow(row, w.at, w.delay)
    else if Decides(db, w, i) then row.(status := if w.verdict == Rejected then NeedsHumanReview else Sent)
    else row
  }

  lemma ExecOnQueue(cfg: Config, db: Db, w: Write)
    ensures var es, es' := db.enquiries, Exec(cfg, db, w).enquiries;
      && |es| <= |es'|
      && (forall i | 0 <= i < |es| :: es'[i] == RowAfter(cfg, db, w, i))
      && (forall i | |es| <= i < |es'| :: es'[i].status == Received && es'[i].attempts == 0)
  {}

  // ---------- lease exclusion ----------

  predicate Touches(w: Write, e: nat) {
    (w.ClaimRow? || w.RequeueRow?) && w.id == e
  }

  /** When the enquiry was last claimed, unless it has been requeued since. */
  function Lease(log: seq<Write>, e: nat): Option<int> {
    if log == [] then None
    else
      var last := log[|log| - 1];
      if Touches(last, e) then (if last.ClaimRow? then Some(last.at) else None) else Lease(log[..|log| - 1], e)
  }

  ghost predicate LeaseOk(cfg: Config, es: seq<Enquiry>, e: nat, lease: Option<int>) {
    lease.Some? ==>
      && e < |es| && es[e].status != Received
      && (es[e].status == Processing ==> es[e].lockedUntil == Some(lease.value + cfg.lockTtl))
  }

  /** log[i] claims e and nothing requeues e between positions i and j. */
  ghost predicate HeldFrom(log: seq<Write>, e: nat, i: int, j: int) {
    && 0 <= i < j <= |log| && log[i].ClaimRow? && log[i].id == e
    && forall k | i < k < j :: !(log[k].RequeueRow? && log[k].id == e)
  }

  /** Any two claims of one enquiry with no requeue in between lie more than the lease apart. */
  ghost predicate ClaimsExclude(cfg: Config, log: seq<Write>) {
    forall e, i, j | HeldFrom(log, e, i, j) && j < |log| && log[j].ClaimRow? && log[j].id == e ::
      log[j].at > log[i].at + cfg.lockTtl
  }

  ghost predicate LeaseInv(cfg: Config, s: State) {
    && (forall e: nat :: LeaseOk(cfg, s.db.enquiries, e, Lease(s.log, e)))
    && ClaimsExclude(cfg, s.log)
  }

  /** Claims that an unbroken lease stretches back over are no later than the last one. */
  lemma {:induction false} LeaseIsLatest(cfg: Config, log: seq<Write>, e: nat, i: int)
    requires ClaimsExclude(cfg, log) && HeldFrom(log, e, i, |log|)
    ensures Lease(log, e).Some? && log[i].at <= Lease(log, e).value
  {
    var n := |log| - 1;
    var front := log[..n];
    if Touches(log[n], e) {
      assert i < n ==> HeldFrom(log, e, i, n);
    } else {
      assert i < n;
      forall e', i', j' | HeldFrom(front, e', i', j') && j' < |front| && front[j'].ClaimRow? && front[j'].id == e'
        ensures front[j'].at > front[i'].at + cfg.lockTtl
      {
        assert HeldFrom(log, e', i', j');
      }
      assert forall k | i < k < n :: !(log[k].RequeueRow? && log[k].id == e);
      assert HeldFrom(front, e, i, |front|);
      LeaseIsLatest(cfg, front, e, i);
    }
  }

  lemma ClaimRespectsLease(cfg: Config, db: Db, log: seq<Write>, w: Write)
    requires (forall e: nat :: LeaseOk(cfg, db.enquiries, e, Lease(log, e))) && ClaimsExclude(cfg, log)
    requires w.ClaimRow? ==> IsOldestClaimable(db.enquiries, w.at, w.id)
    ensures ClaimsExclude(cfg, log + [w])
  {
    var log' := log + [w];
    forall e, i, j | HeldFrom(log', e, i, j) && j < |log'| && log'[j].ClaimRow? && log'[j].id == e
      ensures log'[j].at > log'[i].at + cfg.lockTtl
    {
      assert forall k | 0 <= k < |log| :: log'[k] == log[k];
      assert HeldFrom(log, e, i, j);
      if j == |log| {
        LeaseIsLatest(cfg, log, e, i);
        assert LeaseOk(cfg, db.enquiries, e, Lease(log, e));
      }
    }
  }

  lemma LeaseAfter(cfg: Config, db: Db, log: seq<Write>, w: Write, e: nat)
    requires LeaseOk(cfg, db.enquiries, e, Lease(log, e)) && Permitted(cfg, db, w)
    ensures LeaseOk(cfg, Exec(cfg, db, w).enquiries, e, Lease(log + [w], e))
  {
    ExecOnQueue(cfg, db, w);
    hide Exec;
    assert (log + [w])[..|log|] == log;
  }

  lemma {:induction false} RunKeepsLeases(cfg: Config, s: State, events: seq<Event>)
    requires Start(cfg, s)
    ensures LeaseInv(cfg, Run(cfg, s, events)) && Agents(cfg, Run(cfg, s, events))
  {
    hide Exec, Emit, WorkerOk, Good;
    if events == [] {
      StartIsInv(cfg, s);
      forall e: nat ensures LeaseOk(cfg, s.db.enquiries, e, Lease(s.log, e)) {}
    } else {
      var t := Run(cfg, s, events[..|events| - 1]);
      RunKeepsLeases(cfg, s, events[..|events| - 1]);
      var a := events[|events| - 1];
      var w := Emit(cfg, t, a);
      EmitIsPermitted(cfg, t, a);
      ApplyKeepsAgents(cfg, t, a);
      ClaimRespectsLease(cfg, t.db, t.log, w);
      forall e: nat ensures LeaseOk(cfg, Exec(cfg, t.db, w).enquiries, e, Lease(t.log + [w], e)) {
        LeaseAfter(cfg, t.db, t.log, w, e);
      }
    }
  }

  /** Lease exclusion: for any number of workers, crashes and clock steps, after a claim
      at time t the same enquiry is not claimed again up to and including t plus the
      lock time, unless a requeue came in between. */
  lemma LeasesExclude(cfg: Config, s: State, events: seq<Event>)
    requires Start(cfg, s)
    ensures ClaimsExclude(cfg, Run(cfg, s, events).log)
  {
    RunKeepsLeases(cfg, s, events);
  }

  /** Whatever event happens next, a claim takes a row that is due and than which none that
      is due was received earlier. */
  lemma ClaimsTakeTheOldest(cfg: Config, s: State, a: Event)
    requires Emit(cfg, s, a).ClaimRow?
    ensures Emit(cfg, s, a).at == s.now && IsOldestClaimable(s.db.enquiries, s.now, Emit(cfg, s, a).id)
  {
    if a.Work? && a.worker < |s.workers| && Holds(s.workers[a.worker]).Some? {
      StagesDoNotClaim(cfg, s.db, s.now, Locked(s.reviewers), s.workers[a.worker], a.oracle);
    }
    hide StageStep;
  }

  lemma StagesDoNotClaim(cfg: Config, db: Db, now: int, locked: set<nat>, pc: Pc, o: Oracle)
    ensures StageStep(cfg, db, now, locked, pc, o).Some? ==> !StageStep(cfg, db, now, locked, pc, o).value.write.ClaimRow?
  {}

  // ---------- nothing is lost ----------

  function CountClaims(log: seq<Write>, e: nat): nat {
    if log == [] then 0
    else CountClaims(log[..|log| - 1], e) + if log[|log| - 1].ClaimRow? && log[|log| - 1].id == e then 1 else 0
  }

  function AttemptsOf(es: seq<Enquiry>, e: nat): nat {
    if e < |es| then es[e].attempts else 0
  }

  lemma AttemptsAfter(cfg: Config, db: Db, w: Write, e: nat)
    requires w.ClaimRow? ==> w.id < |db.enquiries|
    ensures AttemptsOf(Exec(cfg, db, w).enquiries, e) ==
      AttemptsOf(db.enquiries, e) + if w.ClaimRow? && w.id == e then 1 else 0
  {
    ExecOnQueue(cfg, db, w);
    hide Exec;
  }

  /** The attempts column counts claims and nothing else: a shutdown requeue does not give one back. */
  lemma {:induction false} AttemptsCountClaims(cfg: Config, s: State, events: seq<Event>, e: nat)
    requires Start(cfg, s)
    ensures var t := Run(cfg, s, events);
      AttemptsOf(t.db.enquiries, e) == AttemptsOf(s.db.enquiries, e) + CountClaims(t.log, e)
  {
    hide Exec, Emit, WorkerOk, Good, AttemptsOf, LeaseInv, WorkersAfter, ReviewersAfter, Locked;
    if events != [] {
      var t := Run(cfg, s, events[..|events| - 1]);
      var w := Emit(cfg, t, events[|events| - 1]);
      AttemptsCountClaims(cfg, s, events[..|events| - 1], e);
      RunKeepsLeases(cfg, s, events[..|events| - 1]);
      EmitIsPermitted(cfg, t, events[|events| - 1]);
      AttemptsAfter(cfg, t.db, w, e);
      assert (t.log + [w])[..|t.log|] == t.log;
    }
  }

  /** The time from which an unfinished enquiry can be claimed. */
  function DueAt(e: Enquiry): int {
    if e.status == Processing && e.lockedUntil.Some? then e.lockedUntil.value + 1 else e.nextAttemptAt
  }

  /** No enquiry is lost: in every reachable state each row that is received or in
      processing, whoever held it and whatever happened to them, becomes claimable
      exactly at a known time. */
  lemma OpenEnquiriesComeDue(cfg: Config, s: State, e: nat, now: int)
    requires Reachable(cfg, s) && e < |s.db.enquiries| && !IsResting(s.db.enquiries[e].status)
    ensures Claimable(s.db.enquiries[e], now) <==> DueAt(s.db.enquiries[e]) <= now
  {
    ReachableIsInv(cfg, s);
    hide Agents;
  }

  /** Some row is the oldest claimable one whenever any row is claimable. */
  lemma {:induction false} OldestExists(es: seq<Enquiry>, now: int, n: nat) returns (id: nat)
    requires n <= |es| && exists i | 0 <= i < n :: Claimable(es[i], now)
    ensures id < n && Claimable(es[id], now)
    ensures forall j | 0 <= j < n && Claimable(es[j], now) :: es[id].receivedAt <= es[j].receivedAt
  {
    if exists i | 0 <= i < n - 1 :: Claimable(es[i], now) {
      id := OldestExists(es, now, n - 1);
      if Claimable(es[n - 1], now) && es[n - 1].receivedAt < es[id].receivedAt {
        id := n - 1;
      }
    } else {
      id := n - 1;
    }
  }

  /** A draining worker is never stuck: as soon as any enquiry is due, the worker's next
      step can claim one, and then it does not go to sleep. */
  lemma DueWorkIsClaimed(cfg: Config, s: State, i: nat, o: Oracle) returns (o': Oracle)
    requires i < |s.workers| && s.workers[i].Draining?
    requires exists e | 0 <= e < |s.db.enquiries| :: Claimable(s.db.enquiries[e], s.now)
    ensures Emit(cfg, s, Work(i, o')).ClaimRow?
    ensures o.ok ==> !WorkersAfter(cfg, s, Work(i, o))[i].Waiting?
  {
    hide StageStep;
    var id := OldestExists(s.db.enquiries, s.now, |s.db.enquiries|);
    o' := o.(ok := true, row := Some(id));
    assert IsOldestClaimable(s.db.enquiries, s.now, id);
  }

  // ---------- no lost wake-up ----------

  /** Queued without delay, then followed by Wake, and still unclaimed. */
  predicate Awaited(s: State, e: nat) {
    e in s.woken && e < |s.db.enquiries| && s.db.enquiries[e].status == Received
  }

  predicate InDrainLoop(pc: Pc) {
    !pc.Waiting? && !pc.Stopped?
  }

  ghost predicate WillLook(s: State) {
    s.closing || s.token || exists i | 0 <= i < |s.workers| :: InDrainLoop(s.workers[i])
  }

  ghost predicate WakeInv(s: State) {
    && |s.workers| > 0
    && (forall e | e in s.woken :: e < |s.db.enquiries|)
    && (forall e: nat | Awaited(s, e) :: s.db.enquiries[e].nextAttemptAt <= s.now)
    && ((exists e: nat :: Awaited(s, e)) ==> WillLook(s))
  }

  /** The claim query itself does not fail. */
  predicate ClaimSucceeds(s: State, a: Event) {
    a.Work? && a.worker < |s.workers| && s.workers[a.worker].Draining? ==> a.oracle.ok
  }

  ghost predicate ClaimsSucceed(cfg: Config, s: State, events: seq<Event>) {
    events != [] ==>
      && ClaimsSucceed(cfg, s, events[..|events| - 1])
      && ClaimSucceeds(Run(cfg, s, events[..|events| - 1]), events[|events| - 1])
  }

  /** What was awaited after a step was awaited before it, or this step woke it. */
  lemma AwaitedBefore(cfg: Config, s: State, a: Event, e: nat)
    requires WakeInv(s) && Awaited(Apply(cfg, s, a), e)
    ensures e < |s.db.enquiries| && s.db.enquiries[e].nextAttemptAt <= s.now
    ensures Apply(cfg, s, a).db.enquiries[e].nextAttemptAt == s.db.enquiries[e].nextAttemptAt
    ensures Awaited(s, e) || a.Wake?
  {
    ExecOnQueue(cfg, s.db, Emit(cfg, s, a));
    assert a.Wake? ==> Emit(cfg, s, a) == NoWrite;
    hide Exec, Emit;
  }

  /** A worker leaves its drain loop only when nothing is due, or when the process is closing. */
  lemma LoopIsLeftOnlyWhenIdle(cfg: Config, s: State, a: Event, i: nat, e: nat)
    requires ClaimSucceeds(s, a) && Awaited(s, e) && s.db.enquiries[e].nextAttemptAt <= s.now
    requires i < |s.workers| && InDrainLoop(s.workers[i])
    ensures s.closing || (i < |WorkersAfter(cfg, s, a)| && InDrainLoop(WorkersAfter(cfg, s, a)[i]))
  {
    assert Claimable(s.db.enquiries[e], s.now);
    if a.Work? && a.worker == i {
      hide DedupeStep, ExtractStep, MatchStep, RouteStep, ContactStep, OwnerStep;
      assert Holds(s.workers[i]).Some? ==> !s.workers[i].Waiting?;
      StageStaysInLoop(cfg, s, a.oracle, s.workers[i]);
    }
  }

  lemma StageStaysInLoop(cfg: Config, s: State, o: Oracle, pc: Pc)
    requires Holds(pc).Some?  || pc.Draining?
    ensures StageStep(cfg, s.db, s.now, Locked(s.reviewers), pc, o).Some? ==>
      InDrainLoop(StageStep(cfg, s.db, s.now, Locked(s.reviewers), pc, o).value.next)
  {}

  lemma ApplyKeepsWake(cfg: Config, s: State, a: Event)
    requires WakeInv(s) && ClaimSucceeds(s, a)
    ensures WakeInv(Apply(cfg, s, a))
  {
    var s' := Apply(cfg, s, a);
    ExecOnQueue(cfg, s.db, Emit(cfg, s, a));
    hide Exec, Emit, WorkerStep;
    forall e: nat | Awaited(s', e) ensures s'.db.enquiries[e].nextAttemptAt <= s'.now && WillLook(s') {
      AwaitedBefore(cfg, s, a, e);
      if a.Restart? {
        assert InDrainLoop(s'.workers[0]);
      } else if !a.Wake? {
        assert WillLook(s);
        if !s.closing && exists i | 0 <= i < |s.workers| :: InDrainLoop(s.workers[i]) {
          var i :| 0 <= i < |s.workers| && InDrainLoop(s.workers[i]);
          LoopIsLeftOnlyWhenIdle(cfg, s, a, i, e);
        } else if a.TakeToken? && s.token && !s'.token {
          assert InDrainLoop(s'.workers[a.worker]);
        }
      }
    }
  }

  lemma {:induction false} RunKeepsWake(cfg: Config, s: State, events: seq<Event>)
    requires Start(cfg, s) && |s.workers| > 0 && ClaimsSucceed(cfg, s, events)
    ensures WakeInv(Run(cfg, s, events))
  {
    hide Apply;
    if events != [] {
      RunKeepsWake(cfg, s, events[..|events| - 1]);
      ApplyKeepsWake(cfg, Run(cfg, s, events[..|events| - 1]), events[|events| - 1]);
    }
  }

  /** No lost wake-up: as long as claim queries do not fail, an enquiry that was queued
      without delay, then followed by Wake, and is still unclaimed finds a token in the
      channel or some worker still in its drain loop, unless the process is closing. */
  lemma NoLostWakeup(cfg: Config, s: State, events: seq<Event>, e: nat)
    requires Start(cfg, s) && |s.workers| > 0 && ClaimsSucceed(cfg, s, events)
    requires Awaited(Run(cfg, s, events), e)
    ensures WillLook(Run(cfg, s, events))
  {
    RunKeepsWake(cfg, s, events);
  }
}
