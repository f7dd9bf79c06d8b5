/** One attempt at a time: as long as claims take queued rows only and whoever gives an
    enquiry up puts it back, each enquiry has one holder, who works on its latest attempt. */
module Turns {
  import opened Base
  import opened Text
  import opened Model
  import opened Grounding
  import opened Tables
  import opened System
  import opened Safety
  import opened Queue

  /** Attempts finish within their lease, a shutdown releases what its worker holds, the
      process is started again only when nobody holds anything, and nothing is requeued by hand. */
  ghost predicate Orderly(cfg: Config, s: State, a: Event) {
    && !a.RequeueResolved?
    && (a.Restart? ==> forall i | 0 <= i < |s.workers| :: Holds(s.workers[i]).None?)
    && (a.Stop? && a.worker < |s.workers| && Holds(s.workers[a.worker]).Some? ==> a.released)
    && var w := Emit(cfg, s, a); w.ClaimRow? ==> w.id < |s.db.enquiries| && s.db.enquiries[w.id].status == Received
  }

  ghost predicate OrderlyRun(cfg: Config, s: State, events: seq<Event>) {
    events != [] ==>
      OrderlyRun(cfg, s, events[..|events| - 1]) && Orderly(cfg, Run(cfg, s, events[..|events| - 1]), events[|events| - 1])
  }

  predicate Requeued(w: Write, e: nat) {
    w.RequeueRow? && w.id == e
  }

  function Requeues(log: seq<Write>, e: nat): nat {
    if log == [] then 0 else Requeues(log[..|log| - 1], e) + if Requeued(log[|log| - 1], e) then 1 else 0
  }

  /** How many attempts on e are over: those before the start, and those requeued since. */
  function Tries(start: seq<Enquiry>, log: seq<Write>, e: nat): nat {
    AttemptsOf(start, e) + Requeues(log, e)
  }

  lemma RequeuesAfter(log: seq<Write>, w: Write, e: nat)
    ensures Requeues(log + [w], e) == Requeues(log, e) + if Requeued(w, e) then 1 else 0
  {
    assert (log + [w])[..|log|] == log;
  }

  lemma TriesAfter(start: seq<Enquiry>, log: seq<Write>, w: Write, e: nat)
    ensures Tries(start, log + [w], e) == Tries(start, log, e) + if Requeued(w, e) then 1 else 0
  {
    RequeuesAfter(log, w, e);
  }

  predicate HeldBy(pc: Pc, e: nat) {
    Holds(pc).Some? && pc.e.id == e
  }

  /** The holder works on the latest attempt, and every earlier one is over. */
  ghost predicate HolderOk(es: seq<Enquiry>, pc: Pc, tries: nat) {
    Holds(pc).Some? ==>
      && pc.e.id < |es| && es[pc.e.id].status != Received
      && pc.e.attempts == es[pc.e.id].attempts && pc.e.attempts == tries + 1
  }

  ghost predicate HoldersDiffer(ws: seq<Pc>) {
    forall i, j | 0 <= i < j < |ws| :: Holds(ws[i]).Some? && Holds(ws[j]).Some? ==> ws[i].e.id != ws[j].e.id
  }

  predicate QueuedRowOk(row: Enquiry, tries: nat) {
    row.status == Received ==> tries == row.attempts
  }

  ghost predicate TurnInv(start: seq<Enquiry>, s: State) {
    && |start| <= |s.db.enquiries|
    && (forall e | 0 <= e < |s.db.enquiries| :: QueuedRowOk(s.db.enquiries[e], Tries(start, s.log, e)))
    && (forall e: nat | |s.db.enquiries| <= e :: Tries(start, s.log, e) == 0)
    && (forall i | 0 <= i < |s.workers| ::
          HolderOk(s.db.enquiries, s.workers[i], if Holds(s.workers[i]).Some? then Tries(start, s.log, s.workers[i].e.id) else 0))
    && HoldersDiffer(s.workers)
  }

  /** Claiming is the only way a worker comes to hold an enquiry; otherwise it keeps its snapshot or lets go. */
  lemma StagesKeepTheSnapshot(cfg: Config, db: Db, now: int, locked: set<nat>, pc: Pc, o: Oracle)
    requires Holds(pc).Some? && StageStep(cfg, db, now, locked, pc, o).Some?
    ensures var next := StageStep(cfg, db, now, locked, pc, o).value.next; Holds(next).Some? ==> Holds(next) == Holds(pc)
  {}

  ghost predicate ClaimedByWorker(cfg: Config, s: State, a: Event, i: nat) {
    && a.Work? && i == a.worker && i < |s.workers| && Holds(s.workers[i]).None?
    && (var w := Emit(cfg, s, a);
        && w.ClaimRow? && w.id < |s.db.enquiries|
        && var row := s.db.enquiries[w.id];
           Holds(WorkersAfter(cfg, s, a)[i]) == Some(Snapshot(w.id, row.text, row.hash, row.attempts + 1)))
  }

  lemma HoldsAfter(cfg: Config, s: State, a: Event, i: nat)
    requires i < |s.workers|
    requires Holds(WorkersAfter(cfg, s, a)[i]).Some?
    ensures Holds(WorkersAfter(cfg, s, a)[i]) == Holds(s.workers[i]) || ClaimedByWorker(cfg, s, a, i)
  {
    if a.Work? && a.worker == i {
      if Holds(s.workers[i]).Some? && StageStep(cfg, s.db, s.now, Locked(s.reviewers), s.workers[i], a.oracle).Some? {
        StagesKeepTheSnapshot(cfg, s.db, s.now, Locked(s.reviewers), s.workers[i], a.oracle);
      }
    }
    hide StageStep, Exec;
  }

  /** Worker i gives its enquiry up in this step and requeues it. */
  ghost predicate LetsGo(cfg: Config, s: State, a: Event, i: nat) {
    && i < |s.workers| && Holds(s.workers[i]).Some? && Requeued(Emit(cfg, s, a), s.workers[i].e.id)
    && |WorkersAfter(cfg, s, a)| == |s.workers| && Holds(WorkersAfter(cfg, s, a)[i]).None?
  }

  lemma StagesDoNotRequeue(cfg: Config, db: Db, now: int, locked: set<nat>, pc: Pc, o: Oracle)
    ensures StageStep(cfg, db, now, locked, pc, o).Some? ==> !StageStep(cfg, db, now, locked, pc, o).value.write.RequeueRow?
  {}

  /** The worker an event is about. */
  function Mover(a: Event): nat {
    match a
    case Work(i, _) => i
    case Stop(i, _) => i
    case _ => 0
  }

  lemma RequeuesAreByHolders(cfg: Config, s: State, a: Event)
    requires Orderly(cfg, s, a) && Emit(cfg, s, a).RequeueRow?
    ensures LetsGo(cfg, s, a, Mover(a))
  {
    if a.Work? && a.worker < |s.workers| && Holds(s.workers[a.worker]).Some? {
      StagesDoNotRequeue(cfg, s.db, s.now, Locked(s.reviewers), s.workers[a.worker], a.oracle);
    }
    hide StageStep;
  }

  lemma HolderAfterIsAlone(cfg: Config, start: seq<Enquiry>, s: State, a: Event, i: nat)
    requires TurnInv(start, s) && Orderly(cfg, s, a) && i < |s.workers|
    requires i < |WorkersAfter(cfg, s, a)| && Holds(WorkersAfter(cfg, s, a)[i]).Some?
    ensures var pc := WorkersAfter(cfg, s, a)[i];
      forall j | 0 <= j < |s.workers| && j != i :: Holds(s.workers[j]).Some? ==> s.workers[j].e.id != pc.e.id
  {
    hide WorkerStep, Tries;
    var w, pc := Emit(cfg, s, a), WorkersAfter(cfg, s, a)[i];
    HoldsAfter(cfg, s, a, i);
    hide Emit, WorkersAfter;
    forall j | 0 <= j < |s.workers| && j != i && Holds(s.workers[j]).Some? ensures s.workers[j].e.id != pc.e.id {
      assert HolderOk(s.db.enquiries, s.workers[j], Tries(start, s.log, s.workers[j].e.id));
    }
  }

  lemma HolderAfterOk(cfg: Config, start: seq<Enquiry>, s: State, a: Event, i: nat)
    requires TurnInv(start, s) && Agents(cfg, s) && Orderly(cfg, s, a) && i < |s.workers|
    requires i < |WorkersAfter(cfg, s, a)| && Holds(WorkersAfter(cfg, s, a)[i]).Some?
    ensures var w, pc := Emit(cfg, s, a), WorkersAfter(cfg, s, a)[i];
      HolderOk(Exec(cfg, s.db, w).enquiries, pc, Tries(start, s.log + [w], pc.e.id))
  {
    hide Exec, WorkerOk, Backoff, HoldersDiffer, Good, Tries, WorkerStep;
    var w, pc := Emit(cfg, s, a), WorkersAfter(cfg, s, a)[i];
    EmitIsPermitted(cfg, s, a);
    HoldsAfter(cfg, s, a, i);
    HolderAfterIsAlone(cfg, start, s, a, i);
    ExecOnQueue(cfg, s.db, w);
    TriesAfter(start, s.log, w, pc.e.id);
    if w.RequeueRow? {
      RequeuesAreByHolders(cfg, s, a);
    }
    hide Emit, WorkersAfter;
    if Holds(pc) == Holds(s.workers[i]) {
      assert HolderOk(s.db.enquiries, s.workers[i], Tries(start, s.log, s.workers[i].e.id));
    } else {
      assert QueuedRowOk(s.db.enquiries[w.id], Tries(start, s.log, w.id));
    }
  }

  lemma HoldersStayDifferent(cfg: Config, start: seq<Enquiry>, s: State, a: Event)
    requires TurnInv(start, s) && Orderly(cfg, s, a)
    ensures HoldersDiffer(WorkersAfter(cfg, s, a))
  {
    var ws := WorkersAfter(cfg, s, a);
    hide Orderly, Emit, HolderOk, ClaimedByWorker, QueuedRowOk, WorkerStep;
    assert |ws| == |s.workers|;
    forall i, j | 0 <= i < j < |ws| && Holds(ws[i]).Some? && Holds(ws[j]).Some? ensures ws[i].e.id != ws[j].e.id {
      if Holds(ws[j]) == Holds(s.workers[j]) {
        HolderAfterIsAlone(cfg, start, s, a, i);
      } else {
        HoldsAfterUnlessWorking(cfg, s, a, i, j);
        HolderAfterIsAlone(cfg, start, s, a, j);
      }
    }
  }

  lemma HoldsAfterUnlessWorking(cfg: Config, s: State, a: Event, i: nat, j: nat)
    requires i < |s.workers| && j < |s.workers| && i != j
    requires Holds(WorkersAfter(cfg, s, a)[i]).Some? && Holds(WorkersAfter(cfg, s, a)[j]).Some?
    requires Holds(WorkersAfter(cfg, s, a)[j]) != Holds(s.workers[j])
    ensures Holds(WorkersAfter(cfg, s, a)[i]) == Holds(s.workers[i])
  {
    hide WorkerStep;
  }

  lemma RowAfterOk(cfg: Config, start: seq<Enquiry>, s: State, a: Event, e: nat)
    requires TurnInv(start, s) && Agents(cfg, s) && Orderly(cfg, s, a) && e < |s.db.enquiries|
    ensures var w := Emit(cfg, s, a); QueuedRowOk(RowAfter(cfg, s.db, w, e), Tries(start, s.log + [w], e))
  {
    hide WorkerOk, Exec, Backoff, WorkerStep, Tries, WorkersAfter;
    var w := Emit(cfg, s, a);
    EmitIsPermitted(cfg, s, a);
    TriesAfter(start, s.log, w, e);
    assert QueuedRowOk(s.db.enquiries[e], Tries(start, s.log, e));
    if w.RequeueRow? {
      RequeuesAreByHolders(cfg, s, a);
      var i := Mover(a);
      hide Emit;
      assert HolderOk(s.db.enquiries, s.workers[i], Tries(start, s.log, s.workers[i].e.id));
    }
  }

  lemma ApplyKeepsTurns(cfg: Config, start: seq<Enquiry>, s: State, a: Event)
    requires TurnInv(start, s) && Agents(cfg, s) && Orderly(cfg, s, a)
    ensures TurnInv(start, Apply(cfg, s, a))
  {
    hide Exec, WorkerOk, ReviewerOk, Backoff, WorkerStep, HoldersDiffer, Tries;
    var w := Emit(cfg, s, a);
    var s' := Apply(cfg, s, a);
    ExecOnQueue(cfg, s.db, w);
    if w.RequeueRow? {
      RequeuesAreByHolders(cfg, s, a);
      var i := Mover(a);
      assert HolderOk(s.db.enquiries, s.workers[i], Tries(start, s.log, s.workers[i].e.id));
    }
    assert |s'.workers| == |s.workers|;
    hide Emit, Orderly, WorkersAfter;
    forall e: nat ensures e < |s.db.enquiries| ==> QueuedRowOk(s'.db.enquiries[e], Tries(start, s'.log, e))
                  ensures |s.db.enquiries| <= e ==> Tries(start, s'.log, e) == 0 {
      TriesAfter(start, s.log, w, e);
      if e < |s.db.enquiries| {
        RowAfterOk(cfg, start, s, a, e);
      }
    }
    forall i | 0 <= i < |s'.workers| && Holds(s'.workers[i]).Some?
      ensures HolderOk(s'.db.enquiries, s'.workers[i], Tries(start, s'.log, s'.workers[i].e.id))
    {
      HolderAfterOk(cfg, start, s, a, i);
    }
    HoldersStayDifferent(cfg, start, s, a);
  }

  lemma {:induction false} RunKeepsTurns(cfg: Config, s: State, events: seq<Event>)
    requires Start(cfg, s) && OrderlyRun(cfg, s, events)
    ensures TurnInv(s.db.enquiries, Run(cfg, s, events)) && Agents(cfg, Run(cfg, s, events))
  {
    hide Apply, Good, WorkerOk;
    if events == [] {
      StartIsInv(cfg, s);
    } else {
      var t := Run(cfg, s, events[..|events| - 1]);
      RunKeepsTurns(cfg, s, events[..|events| - 1]);
      ApplyKeepsTurns(cfg, s.db.enquiries, t, events[|events| - 1]);
      ApplyKeepsAgents(cfg, t, events[|events| - 1]);
    }
  }
}
