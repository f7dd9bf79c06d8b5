/** Bounded retry: in runs where attempts finish within their lease, the process is stopped and
    started only while it holds nothing, and nothing is requeued by hand, retries end after the
    configured number of attempts, and the waits in between double. */
module Retry {
  import opened Base
  import opened Text
  import opened Model
  import opened Grounding
  import opened Tables
  import opened System
  import opened Safety
  import opened Queue
  import opened Turns

  // ---------- backoff arithmetic ----------

  lemma {:induction false} Pow2Grows(a: nat, b: nat)
    requires a <= b
    ensures Pow2(a) <= Pow2(b)
  {
    if a < b {
      Pow2Grows(a, b - 1);
    }
  }

  /** A backoff whose exact value fits int64 is computed exactly. */
  lemma BackoffIsExact(attempts: nat, poll: nat)
    requires Pow2(attempts) * poll < TWO_63
    ensures Backoff(attempts, poll) == Pow2(attempts) * poll
  {
    if Pow2(attempts) >= TWO_63 {
      ProductAtLeast(Pow2(attempts), poll);
    }
    var n := Pow2(attempts) * poll;
    assert 0 <= n + TWO_63 < TWO_64;
  }

  lemma ProductAtLeast(a: nat, b: nat)
    ensures b > 0 ==> a * b >= a
    ensures b == 0 ==> a * b == 0
  {
    if b > 0 {
      assert a * b == a * (b - 1) + a;
      assert a * (b - 1) >= 0;
    }
  }

  /** The next k waits together, after n attempts. */
  function TotalBackoff(n: nat, k: nat, poll: nat): int {
    if k == 0 then 0 else TotalBackoff(n, k - 1, poll) + Backoff(n + k, poll)
  }

  lemma OneMoreDoubling(p: nat, q: nat, poll: nat)
    ensures (p - q) * poll + p * poll == (2 * p - q) * poll
  {}

  lemma HalfFits(p: nat, poll: nat)
    requires 2 * p * poll < TWO_63
    ensures p * poll < TWO_63
  {
    assert 2 * p * poll == p * poll + p * poll;
  }

  lemma {:induction false} TotalBackoffIsExact(n: nat, k: nat, poll: nat)
    requires Pow2(n + k) * poll < TWO_63
    ensures TotalBackoff(n, k, poll) == (Pow2(n + k + 1) - Pow2(n + 1)) * poll
  {
    hide Backoff;
    if k > 0 {
      assert Pow2(n + k) == 2 * Pow2(n + k - 1) && Pow2(n + k + 1) == 2 * Pow2(n + k);
      HalfFits(Pow2(n + k - 1), poll);
      TotalBackoffIsExact(n, k - 1, poll);
      BackoffIsExact(n + k, poll);
      OneMoreDoubling(Pow2(n + k), Pow2(n + 1), poll);
    }
  }

  // ---------- calm runs ----------

  /** Orderly, and a worker is only stopped while it holds nothing. */
  ghost predicate Calm(cfg: Config, s: State, a: Event) {
    Orderly(cfg, s, a) && (a.Stop? && a.worker < |s.workers| ==> Holds(s.workers[a.worker]).None?)
  }

  ghost predicate CalmRun(cfg: Config, s: State, events: seq<Event>) {
    events != [] ==>
      CalmRun(cfg, s, events[..|events| - 1]) && Calm(cfg, Run(cfg, s, events[..|events| - 1]), events[|events| - 1])
  }

  /** All the waits an enquiry has been given. */
  function Delays(log: seq<Write>, e: nat): int {
    if log == [] then 0
    else Delays(log[..|log| - 1], e) + if Requeued(log[|log| - 1], e) then log[|log| - 1].delay else 0
  }

  function Max(a: int, b: int): int {
    if a < b then b else a
  }

  /** The number of the last attempt of an enquiry that has had n attempts. */
  function LastAfter(cfg: Config, n: nat): nat {
    Max(n + 1, cfg.maxAttempts)
  }

  /** One queue row, given its attempts at the start, and how often and for how long it has been
      requeued since. */
  ghost predicate RowWithinBudget(cfg: Config, n: nat, row: Enquiry, requeues: nat, delays: int) {
    && row.attempts <= LastAfter(cfg, n)
    && (row.status == Received ==> row.attempts == n || row.attempts < cfg.maxAttempts)
    && delays == TotalBackoff(n, requeues, cfg.pollInterval)
  }

  ghost predicate BudgetInv(cfg: Config, start: seq<Enquiry>, s: State) {
    && (forall e | 0 <= e < |s.db.enquiries| ::
          RowWithinBudget(cfg, AttemptsOf(start, e), s.db.enquiries[e], Requeues(s.log, e), Delays(s.log, e)))
    && (forall e: nat | |s.db.enquiries| <= e :: Delays(s.log, e) == 0)
  }

  ghost predicate RetryInv(cfg: Config, start: seq<Enquiry>, s: State) {
    TurnInv(start, s) && BudgetInv(cfg, start, s)
  }

  /** Who requeues, and with what delay, in a calm step. */
  ghost predicate RequeuedByHolder(cfg: Config, s: State, a: Event) {
    && a.Work? && a.worker < |s.workers| && s.workers[a.worker].AtFail?
    && s.workers[a.worker].e.attempts < cfg.maxAttempts
    && Emit(cfg, s, a) == RequeueRow(s.workers[a.worker].e.id, s.now, Backoff(s.workers[a.worker].e.attempts, cfg.pollInterval))
  }

  lemma CalmRequeuesAreByHolders(cfg: Config, s: State, a: Event)
    requires Calm(cfg, s, a) && Emit(cfg, s, a).RequeueRow?
    ensures RequeuedByHolder(cfg, s, a)
  {
    if a.Work? && a.worker < |s.workers| && Holds(s.workers[a.worker]).Some? {
      StagesDoNotRequeue(cfg, s.db, s.now, Locked(s.reviewers), s.workers[a.worker], a.oracle);
    }
    hide StageStep;
  }

  lemma DelaysAfter(log: seq<Write>, w: Write, e: nat)
    ensures Delays(log + [w], e) == Delays(log, e) + if Requeued(w, e) then w.delay else 0
  {
    assert (log + [w])[..|log|] == log;
  }

  /** What one statement does to the budget of a row. */
  lemma RowWithinBudgetAfter(cfg: Config, n: nat, db: Db, w: Write, e: nat, requeues: nat, delays: int)
    requires e < |db.enquiries| && RowWithinBudget(cfg, n, db.enquiries[e], requeues, delays)
    requires w.ClaimRow? && w.id == e ==> db.enquiries[e].status == Received
    requires w.SetStatusRow? && w.id == e ==> w.status != Received
    requires Requeued(w, e) ==>
      db.enquiries[e].attempts == n + requeues + 1 < cfg.maxAttempts && w.delay == Backoff(n + requeues + 1, cfg.pollInterval)
    ensures var one := Requeued(w, e);
      RowWithinBudget(cfg, n, RowAfter(cfg, db, w, e), requeues + if one then 1 else 0, delays + if one then w.delay else 0)
  {
    hide Backoff;
  }

  lemma RowAfterWithinBudget(cfg: Config, start: seq<Enquiry>, s: State, a: Event, e: nat)
    requires RetryInv(cfg, start, s) && Agents(cfg, s) && Calm(cfg, s, a) && e < |s.db.enquiries|
    ensures var w := Emit(cfg, s, a);
      RowWithinBudget(cfg, AttemptsOf(start, e), RowAfter(cfg, s.db, w, e), Requeues(s.log + [w], e), Delays(s.log + [w], e))
  {
    hide WorkerOk, Exec, Backoff, WorkerStep, Requeues, Delays, HoldersDiffer, Good, RowAfter, TotalBackoff, WorkersAfter, QueuedRowOk, AttemptsOf;
    var w := Emit(cfg, s, a);
    EmitIsPermitted(cfg, s, a);
    RequeuesAfter(s.log, w, e);
    DelaysAfter(s.log, w, e);
    if w.RequeueRow? {
      CalmRequeuesAreByHolders(cfg, s, a);
      hide Emit;
      assert HolderOk(s.db.enquiries, s.workers[a.worker], Tries(start, s.log, s.workers[a.worker].e.id));
    }
    hide Emit;
    assert RowWithinBudget(cfg, AttemptsOf(start, e), s.db.enquiries[e], Requeues(s.log, e), Delays(s.log, e));
    RowWithinBudgetAfter(cfg, AttemptsOf(start, e), s.db, w, e, Requeues(s.log, e), Delays(s.log, e));
  }

  lemma ApplyKeepsBudget(cfg: Config, start: seq<Enquiry>, s: State, a: Event)
    requires RetryInv(cfg, start, s) && Agents(cfg, s) && Calm(cfg, s, a)
    ensures BudgetInv(cfg, start, Apply(cfg, s, a))
  {
    hide Exec, WorkerOk, ReviewerOk, Backoff, WorkerStep, HoldersDiffer, Requeues, Delays, WorkersAfter, ReviewersAfter, AttemptsOf;
    var w := Emit(cfg, s, a);
    var s' := Apply(cfg, s, a);
    ExecOnQueue(cfg, s.db, w);
    if w.RequeueRow? {
      CalmRequeuesAreByHolders(cfg, s, a);
      assert HolderOk(s.db.enquiries, s.workers[a.worker], Tries(start, s.log, s.workers[a.worker].e.id));
    }
    hide Emit, Calm;
    forall e: nat ensures e < |s.db.enquiries| ==>
                            RowWithinBudget(cfg, AttemptsOf(start, e), s'.db.enquiries[e], Requeues(s'.log, e), Delays(s'.log, e))
                  ensures |s.db.enquiries| <= e ==> Requeues(s'.log, e) == 0 && Delays(s'.log, e) == 0 && AttemptsOf(start, e) == 0 {
      RequeuesAfter(s.log, w, e);
      DelaysAfter(s.log, w, e);
      if e < |s.db.enquiries| {
        RowAfterWithinBudget(cfg, start, s, a, e);
      } else {
        assert Tries(start, s.log, e) == 0;
      }
    }
  }

  lemma {:induction false} RunKeepsRetry(cfg: Config, s: State, events: seq<Event>)
    requires Start(cfg, s) && CalmRun(cfg, s, events)
    ensures RetryInv(cfg, s.db.enquiries, Run(cfg, s, events)) && Agents(cfg, Run(cfg, s, events))
  {
    hide Apply, Good, WorkerOk;
    if events == [] {
      StartIsInv(cfg, s);
    } else {
      var t := Run(cfg, s, events[..|events| - 1]);
      RunKeepsRetry(cfg, s, events[..|events| - 1]);
      ApplyKeepsTurns(cfg, s.db.enquiries, t, events[|events| - 1]);
      ApplyKeepsBudget(cfg, s.db.enquiries, t, events[|events| - 1]);
      ApplyKeepsAgents(cfg, t, events[|events| - 1]);
    }
  }

  /** How many attempts an enquiry that has had n attempts can have still. */
  function Left(cfg: Config, n: nat): nat {
    Max(1, cfg.maxAttempts - n)
  }

  /** Retries end: however many workers interleave, and however often it had been attempted
      before, an enquiry is claimed at most as often as it has attempts left, or once. */
  lemma ClaimsAreBounded(cfg: Config, s: State, events: seq<Event>, e: nat)
    requires Start(cfg, s) && CalmRun(cfg, s, events)
    ensures CountClaims(Run(cfg, s, events).log, e) <= Left(cfg, AttemptsOf(s.db.enquiries, e))
  {
    RunKeepsRetry(cfg, s, events);
    AttemptsCountClaims(cfg, s, events, e);
    var t, n := Run(cfg, s, events), AttemptsOf(s.db.enquiries, e);
    hide Run, Agents;
    assert e < |t.db.enquiries| ==> RowWithinBudget(cfg, n, t.db.enquiries[e], Requeues(t.log, e), Delays(t.log, e));
  }

  /** And then it is out of the queue, whether or not fail's own write succeeds: no claim can
      take an enquiry whose claims are used up. */
  lemma SpentEnquiriesAreNotQueued(cfg: Config, s: State, events: seq<Event>, e: nat)
    requires Start(cfg, s) && CalmRun(cfg, s, events)
    requires CountClaims(Run(cfg, s, events).log, e) >= Left(cfg, AttemptsOf(s.db.enquiries, e))
    requires e < |Run(cfg, s, events).db.enquiries|
    ensures Run(cfg, s, events).db.enquiries[e].status != Received
  {
    RunKeepsRetry(cfg, s, events);
    AttemptsCountClaims(cfg, s, events, e);
    var t, n := Run(cfg, s, events), AttemptsOf(s.db.enquiries, e);
    hide Run, Agents;
    assert RowWithinBudget(cfg, n, t.db.enquiries[e], Requeues(t.log, e), Delays(t.log, e));
  }

  /** The waits double: a worker working on attempt m of an enquiry that had n attempts at the
      start knows it has waited (2^m - 2^(n+1)) poll intervals in all since, and m is at most
      MaxAttempts or n + 1. Each wait fits int64 when the last one does. */
  lemma WaitsDouble(cfg: Config, s: State, events: seq<Event>, i: nat)
    requires Start(cfg, s) && CalmRun(cfg, s, events)
    requires i < |Run(cfg, s, events).workers| && Holds(Run(cfg, s, events).workers[i]).Some?
    requires var e := Run(cfg, s, events).workers[i].e.id;
      Pow2(LastAfter(cfg, AttemptsOf(s.db.enquiries, e)) - 1) * cfg.pollInterval < TWO_63
    ensures HasWaited(cfg, s.db.enquiries, Run(cfg, s, events), i)
  {
    hide Run, Agents, RetryInv, HasWaited, Start, CalmRun, Pow2;
    RunKeepsRetry(cfg, s, events);
    WaitsOf(cfg, s.db.enquiries, Run(cfg, s, events), i);
  }

  ghost predicate HasWaited(cfg: Config, start: seq<Enquiry>, t: State, i: nat)
    requires i < |t.workers| && Holds(t.workers[i]).Some?
  {
    var e, n := t.workers[i].e, AttemptsOf(start, t.workers[i].e.id);
    && n + 1 <= e.attempts <= LastAfter(cfg, n)
    && Delays(t.log, e.id) == (Pow2(e.attempts) - Pow2(n + 1)) * cfg.pollInterval
  }

  lemma WaitsOf(cfg: Config, start: seq<Enquiry>, t: State, i: nat)
    requires RetryInv(cfg, start, t) && i < |t.workers| && Holds(t.workers[i]).Some?
    requires Pow2(LastAfter(cfg, AttemptsOf(start, t.workers[i].e.id)) - 1) * cfg.pollInterval < TWO_63
    ensures HasWaited(cfg, start, t, i)
  {
    hide Backoff, Requeues, Delays, HoldersDiffer, Pow2;
    var e, n := t.workers[i].e, AttemptsOf(start, t.workers[i].e.id);
    assert HolderOk(t.db.enquiries, t.workers[i], Tries(start, t.log, e.id));
    assert RowWithinBudget(cfg, n, t.db.enquiries[e.id], Requeues(t.log, e.id), Delays(t.log, e.id));
    Pow2Grows(e.attempts - 1, LastAfter(cfg, n) - 1);
    ProductGrows(Pow2(e.attempts - 1), Pow2(LastAfter(cfg, n) - 1), cfg.pollInterval);
    TotalBackoffIsExact(n, Requeues(t.log, e.id), cfg.pollInterval);
  }

  lemma ProductGrows(a: nat, b: nat, c: nat)
    requires a <= b
    ensures a * c <= b * c
  {}
}
