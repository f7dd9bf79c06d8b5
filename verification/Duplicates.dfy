/** Two enquiries with the same content: the duplicate query does not ask for the other one
    to be earlier. Exactly when an enquiry can end up discarded, and how both of two do. */
module Duplicates {
  import opened Base
  import opened Text
  import opened Ingest
  import opened Model
  import opened Grounding
  import opened Tables
  import opened System
  import opened Safety
  import opened Queue
  import opened Settling
  import opened Workers
  import Delivery

  /** Another enquiry with the content of e came in later than the window before `since`. */
  ghost predicate HasTwin(cfg: Config, es: seq<Enquiry>, e: nat, since: int) {
    e < |es| && HasRecentDuplicate(es, es[e].hash, e, since, cfg.dedupeWindow)
  }

  // ---------- whatever is discarded has a twin ----------

  /** Row e is discarded, or about to be, only if it has a twin. */
  ghost predicate DiscardInv(cfg: Config, s: State, e: nat, since: int) {
    && since <= s.now && e < |s.db.enquiries|
    && (s.db.enquiries[e].status == DiscardedDuplicate ==> HasTwin(cfg, s.db.enquiries, e, since))
    && (forall i | 0 <= i < |s.workers| :: Delivery.Discarding(s.workers[i]) && s.workers[i].e.id == e ==> HasTwin(cfg, s.db.enquiries, e, since))
  }

  lemma TwinsStay(cfg: Config, a: Db, b: Db, e: nat, since: int, now: int)
    requires Kept(a, b) && HasTwin(cfg, a.enquiries, e, now) && since <= now
    ensures HasTwin(cfg, b.enquiries, e, since)
  {
    assert EnquiryKept(a.enquiries[e], b.enquiries[e]);
    var j :| 0 <= j < |a.enquiries| && j != e && a.enquiries[j].hash == a.enquiries[e].hash && a.enquiries[j].receivedAt > now - cfg.dedupeWindow;
    assert EnquiryKept(a.enquiries[j], b.enquiries[j]);
  }

  lemma DiscarderFoundTwin(cfg: Config, s: State, a: Event, i: nat)
    requires Agents(cfg, s) && i < |WorkersAfter(cfg, s, a)| && Delivery.Discarding(WorkersAfter(cfg, s, a)[i])
    ensures i < |s.workers|
    ensures var e := WorkersAfter(cfg, s, a)[i].e.id;
      (Delivery.Discarding(s.workers[i]) && s.workers[i].e.id == e) || HasTwin(cfg, s.db.enquiries, e, s.now)
  {
    hide WorkerStep;
    if a.Work? && a.worker == i && WorkersAfter(cfg, s, a)[i] != s.workers[i] {
      Delivery.DiscardNeedsDuplicate(cfg, s.db, s.now, Locked(s.reviewers), s.workers[i], a.oracle);
      assert WorkerOk(cfg, s.db, s.workers[i]);
      KeepsTheEnquiry(cfg, s.db, s.now, Locked(s.reviewers), s.workers[i], a.oracle);
    }
  }

  lemma KeepsTheEnquiry(cfg: Config, db: Db, now: int, locked: set<nat>, pc: Pc, o: Oracle)
    requires pc.AtDedupe? && WorkerStep(cfg, db, now, locked, pc, o).Some?
    ensures WorkerStep(cfg, db, now, locked, pc, o).value.next.e == pc.e
  {
    hide HasRecentDuplicate;
  }

  /** The status is written by a worker that has decided to discard. */
  lemma DiscardIsWrittenByDiscarder(cfg: Config, s: State, a: Event, e: nat)
    requires Agents(cfg, s) && Emit(cfg, s, a) == SetStatusRow(e, DiscardedDuplicate)
    ensures a.Work? && a.worker < |s.workers| && Delivery.Discarding(s.workers[a.worker]) && s.workers[a.worker].e.id == e
  {
    OnlyWorkersSetStatus(cfg, s, a);
    WorkEventIs(cfg, s, a);
    var pc := s.workers[a.worker];
    if Holds(pc).Some? && !pc.AtFail? && a.oracle.ok {
      StagesDoNotFail(cfg, s.db, s.now, Locked(s.reviewers), pc, a.oracle);
    }
    hide StageStep, Agents, Emit, WorkersAfter, Backoff;
    RestWritesItsOwn(cfg, s.db, s.now, Locked(s.reviewers), pc, a.oracle);
  }

  lemma RestWritesItsOwn(cfg: Config, db: Db, now: int, locked: set<nat>, pc: Pc, o: Oracle)
    requires pc.AtRest? && WorkerStep(cfg, db, now, locked, pc, o).Some?
    ensures var w := WorkerStep(cfg, db, now, locked, pc, o).value.write; w.SetStatusRow? ==> w.id == pc.e.id
  {}

  lemma ApplyKeepsDiscard(cfg: Config, s: State, a: Event, e: nat, since: int)
    requires DiscardInv(cfg, s, e, since) && Agents(cfg, s)
    ensures DiscardInv(cfg, Apply(cfg, s, a), e, since)
  {
    hide HasTwin, Agents, Exec, Emit, TokenAfter, WokenAfter, ReviewersAfter, Kept;
    var s' := Apply(cfg, s, a);
    ApplyKeepsAgents(cfg, s, a);
    ExecOnQueue(cfg, s.db, Emit(cfg, s, a));
    if HasTwin(cfg, s.db.enquiries, e, since) {
      TwinsStay(cfg, s.db, s'.db, e, since, since);
    }
    forall i | 0 <= i < |s'.workers| && Delivery.Discarding(s'.workers[i]) && s'.workers[i].e.id == e
      ensures HasTwin(cfg, s'.db.enquiries, e, since)
    {
      DiscarderFoundTwin(cfg, s, a, i);
      if HasTwin(cfg, s.db.enquiries, e, s.now) {
        TwinsStay(cfg, s.db, s'.db, e, since, s.now);
      }
    }
    if Emit(cfg, s, a) == SetStatusRow(e, DiscardedDuplicate) {
      DiscardIsWrittenByDiscarder(cfg, s, a, e);
    }
  }

  lemma {:induction false} RunKeepsDiscard(cfg: Config, s: State, events: seq<Event>, e: nat)
    requires Start(cfg, s) && e < |s.db.enquiries| && s.db.enquiries[e].status != DiscardedDuplicate
    ensures DiscardInv(cfg, System.Run(cfg, s, events), e, s.now) && Agents(cfg, System.Run(cfg, s, events))
  {
    hide Apply, Good, Agents, HasTwin;
    if events == [] {
      StartIsInv(cfg, s);
    } else {
      var t := System.Run(cfg, s, events[..|events| - 1]);
      RunKeepsDiscard(cfg, s, events[..|events| - 1], e);
      ApplyKeepsDiscard(cfg, t, events[|events| - 1], e, s.now);
      ApplyKeepsAgents(cfg, t, events[|events| - 1]);
    }
  }

  // ---------- whatever has a twin can be discarded ----------

  /** Worker 0 claims the oldest enquiry that is due, finds its twin, and discards it. */
  lemma DiscardPath(cfg: Config, at: int, db: Db, e: nat) returns (turns: seq<Turn>)
    requires IsOldestClaimable(db.enquiries, at, e) && HasTwin(cfg, db.enquiries, e, at)
    ensures AllAt(turns, at) && forall i | 0 <= i < |turns| :: turns[i].oracle.ok
    ensures Path(cfg, db, Draining, turns,
      db.(enquiries := db.enquiries[e := RestedRow(ClaimedRow(db.enquiries[e], at, cfg.lockTtl), DiscardedDuplicate)]), Draining)
  {
    hide Path, Leads, HasRecentDuplicate;
    var claimed := Exec(cfg, db, ClaimRow(e, at));
    var x := SnapshotOf(claimed.enquiries, e);
    Stay(cfg, db, Draining);
    var claim, turn := Turn(at, Answer(true).(row := Some(e))), Turn(at, Answer(true));
    ClaimTurn(cfg, db, at, e);
    Go(cfg, db, Draining, [], db, Draining, claim, claimed, AtDedupe(x));
    ClaimKeepsTwin(cfg, db, at, e);
    DedupeTurn(cfg, claimed, at, x);
    Go(cfg, db, Draining, [] + [claim], claimed, AtDedupe(x), turn, claimed, AtRest(x, DiscardedDuplicate, None));
    RestTurn(cfg, claimed, at, x, DiscardedDuplicate, None);
    var db' := Exec(cfg, claimed, SetStatusRow(e, DiscardedDuplicate));
    Go(cfg, db, Draining, [] + [claim] + [turn], claimed, AtRest(x, DiscardedDuplicate, None), turn, db', Draining);
    turns := [] + [claim] + [turn] + [turn];
    assert db'.enquiries == db.enquiries[e := RestedRow(ClaimedRow(db.enquiries[e], at, cfg.lockTtl), DiscardedDuplicate)];
  }

  lemma ClaimKeepsTwin(cfg: Config, db: Db, at: int, e: nat)
    requires HasTwin(cfg, db.enquiries, e, at)
    ensures var es := Exec(cfg, db, ClaimRow(e, at)).enquiries;
      HasRecentDuplicate(es, es[e].hash, e, at, cfg.dedupeWindow)
  {
    var es, es' := db.enquiries, Exec(cfg, db, ClaimRow(e, at)).enquiries;
    assert forall j | 0 <= j < |es| && j != e :: es'[j] == es[j];
  }

  /** Only the first worker moves, none of its calls fails, and time passes. */
  ghost predicate Uninterrupted(events: seq<Event>) {
    forall k | 0 <= k < |events| :: events[k].Tick? || (events[k].Work? && events[k].worker == 0 && events[k].oracle.ok)
  }

  lemma DiscardRun(cfg: Config, s: State, e: nat) returns (events: seq<Event>)
    requires s.workers != [] && s.workers[0].Draining? && Locked(s.reviewers) == {}
    requires IsOldestClaimable(s.db.enquiries, s.now, e) && HasTwin(cfg, s.db.enquiries, e, s.now)
    ensures Uninterrupted(events)
    ensures var t := System.Run(cfg, s, events);
      && t.workers == s.workers && t.reviewers == s.reviewers && t.now == s.now
      && t.db == s.db.(enquiries := s.db.enquiries[e := RestedRow(ClaimedRow(s.db.enquiries[e], s.now, cfg.lockTtl), DiscardedDuplicate)])
  {
    hide System.Run, Path, HasTwin;
    var turns := DiscardPath(cfg, s.now, s.db, e);
    events := PathIsRun(cfg, s, 0, turns, s.now,
      s.db.(enquiries := s.db.enquiries[e := RestedRow(ClaimedRow(s.db.enquiries[e], s.now, cfg.lockTtl), DiscardedDuplicate)]), Draining);
  }

  ghost predicate NothingArrives(events: seq<Event>) {
    forall k | 0 <= k < |events| :: !events[k].Deliver?
  }

  lemma {:induction false} QueueStaysAsLong(cfg: Config, s: State, events: seq<Event>)
    requires NothingArrives(events)
    ensures |System.Run(cfg, s, events).db.enquiries| == |s.db.enquiries|
  {
    hide WorkerStep, WorkersAfter, ReviewersAfter, TokenAfter, WokenAfter;
    if events != [] {
      var front, a := events[..|events| - 1], events[|events| - 1];
      QueueStaysAsLong(cfg, s, front);
      var t := System.Run(cfg, s, front);
      if Emit(cfg, t, a).InsertEnquiryRow? {
        OnlyDeliveriesInsert(cfg, t, a);
      }
      OnlyInsertsLengthen(cfg, t.db, Emit(cfg, t, a));
    }
  }

  lemma OnlyDeliveriesInsert(cfg: Config, s: State, a: Event)
    requires Emit(cfg, s, a).InsertEnquiryRow?
    ensures a.Deliver?
  {
    if a.Work? && a.worker < |s.workers| {
      Delivery.StepsDoNotInsert(cfg, s.db, s.now, Locked(s.reviewers), s.workers[a.worker], a.oracle);
    }
    hide WorkerStep;
  }

  lemma OnlyInsertsLengthen(cfg: Config, db: Db, w: Write)
    requires !w.InsertEnquiryRow?
    ensures |Exec(cfg, db, w).enquiries| == |db.enquiries|
  {}

  /** The end of a run that nothing arrived in, seen from its start. */
  lemma TwinWasThere(cfg: Config, s: State, events: seq<Event>, e: nat)
    requires Start(cfg, s) && NothingArrives(events) && e < |s.db.enquiries|
    requires HasTwin(cfg, System.Run(cfg, s, events).db.enquiries, e, s.now)
    ensures HasTwin(cfg, s.db.enquiries, e, s.now)
  {
    QueueStaysAsLong(cfg, s, events);
    StartIsInv(cfg, s);
    RunKeepsInv(cfg, s, events);
    var es, es' := s.db.enquiries, System.Run(cfg, s, events).db.enquiries;
    hide System.Run, Start, Inv;
    forall j | 0 <= j < |es| ensures es'[j].hash == es[j].hash && es'[j].receivedAt == es[j].receivedAt {
      assert EnquiryKept(es[j], es'[j]);
    }
  }

  ghost predicate EndsDiscarded(cfg: Config, s: State, events: seq<Event>, e: nat) {
    var es := System.Run(cfg, s, events).db.enquiries;
    e < |es| && es[e].status == DiscardedDuplicate
  }

  /** For the enquiry that is next in the queue: some run in which nothing more arrives, with
      whatever workers, crashes and clock, leaves it discarded if and only if another enquiry
      with its content came in within the window, be it before it or after it. */
  lemma DiscardsExactlyRecentTwins(cfg: Config, s: State, e: nat)
    requires Start(cfg, s) && s.workers != [] && IsOldestClaimable(s.db.enquiries, s.now, e)
    ensures (exists events :: NothingArrives(events) && EndsDiscarded(cfg, s, events, e)) <==> HasTwin(cfg, s.db.enquiries, e, s.now)
  {
    hide Good, Apply, HasRecentDuplicate;
    if HasTwin(cfg, s.db.enquiries, e, s.now) {
      NobodyLocks(s);
      var events := DiscardRun(cfg, s, e);
      assert NothingArrives(events) && EndsDiscarded(cfg, s, events, e);
    }
    forall events | NothingArrives(events) && EndsDiscarded(cfg, s, events, e) ensures HasTwin(cfg, s.db.enquiries, e, s.now) {
      RunKeepsDiscard(cfg, s, events, e);
      TwinWasThere(cfg, s, events, e);
    }
  }

  lemma NobodyLocks(s: State)
    requires forall r | 0 <= r < |s.reviewers| :: s.reviewers[r].Idle?
    ensures Locked(s.reviewers) == {}
  {}

  // ---------- both of two ----------

  /** Nothing is due, and neither key is taken. */
  predicate Vacant(es: seq<Enquiry>, now: int, a: Intake, b: Intake) {
    && (forall j | 0 <= j < |es| :: !Claimable(es[j], now))
    && KeyOf(es, a.key) == |es| && KeyOf(es, b.key) == |es|
  }

  lemma Delivered(cfg: Config, s: State, a: Event, t: Intake)
    requires a.Deliver? && Accept(cfg.lower, a.sender, a.body, a.clientKey) == Some(t) && KeyOf(s.db.enquiries, t.key) == |s.db.enquiries|
    ensures var s' := Apply(cfg, s, a);
      && s'.db == s.db.(enquiries := s.db.enquiries + [NewEnquiry(s.now, t)])
      && s'.workers == s.workers && s'.reviewers == s.reviewers && s'.now == s.now
  {
    hide Accept;
  }

  lemma KeyIsStillFree(es: seq<Enquiry>, now: int, a: Intake, b: Intake)
    requires KeyOf(es, b.key) == |es| && a.key != b.key
    ensures KeyOf(es + [NewEnquiry(now, a)], b.key) == |es| + 1
  {
    var es' := es + [NewEnquiry(now, a)];
    assert forall j | 0 <= j < |es| :: es'[j] == es[j];
  }

  lemma FirstTwinIsNext(cfg: Config, es: seq<Enquiry>, now: int, a: Intake, b: Intake)
    requires Vacant(es, now, a, b) && a.hash == b.hash && cfg.dedupeWindow > 0
    ensures var es' := es + [NewEnquiry(now, a)] + [NewEnquiry(now, b)];
      IsOldestClaimable(es', now, |es|) && HasTwin(cfg, es', |es|, now)
  {
    var es' := es + [NewEnquiry(now, a)] + [NewEnquiry(now, b)];
    assert forall j | 0 <= j < |es| :: es'[j] == es[j];
    assert es'[|es| + 1].hash == es'[|es|].hash;
  }

  lemma SecondTwinIsNext(cfg: Config, es: seq<Enquiry>, now: int, a: Intake, b: Intake, row: Enquiry)
    requires Vacant(es, now, a, b) && a.hash == b.hash && cfg.dedupeWindow > 0
    requires row == RestedRow(ClaimedRow(NewEnquiry(now, a), now, cfg.lockTtl), DiscardedDuplicate)
    ensures var es' := (es + [NewEnquiry(now, a)] + [NewEnquiry(now, b)])[|es| := row];
      IsOldestClaimable(es', now, |es| + 1) && HasTwin(cfg, es', |es| + 1, now)
  {
    var es' := (es + [NewEnquiry(now, a)] + [NewEnquiry(now, b)])[|es| := row];
    assert forall j | 0 <= j < |es| :: es'[j] == es[j];
    assert es'[|es|].hash == es'[|es| + 1].hash;
  }

  /** One content, delivered under two keys while nothing else is due: a run in which no call
      fails discards both, and nothing is ever extracted, recorded or drafted for either. */
  lemma TwinsDiscardEachOther(cfg: Config, s: State, first: Event, second: Event, a: Intake, b: Intake) returns (events: seq<Event>)
    requires Start(cfg, s) && s.workers != [] && cfg.dedupeWindow > 0 && Vacant(s.db.enquiries, s.now, a, b)
    requires first.Deliver? && Accept(cfg.lower, first.sender, first.body, first.clientKey) == Some(a)
    requires second.Deliver? && Accept(cfg.lower, second.sender, second.body, second.clientKey) == Some(b)
    requires a.hash == b.hash && a.key != b.key
    ensures Uninterrupted(events)
    ensures var n, t := |s.db.enquiries|, System.Run(cfg, s, [first, second] + events);
      && |t.db.enquiries| == n + 2 && t.db == s.db.(enquiries := t.db.enquiries)
      && t.db.enquiries[n].status == DiscardedDuplicate && t.db.enquiries[n + 1].status == DiscardedDuplicate
  {
    hide System.Run, Good, Apply, HasTwin, Accept, IsOldestClaimable, Vacant, Uninterrupted, ClaimedRow;
    var n, u := |s.db.enquiries|, Apply(cfg, Apply(cfg, s, first), second);
    TwinsArrive(cfg, s, first, second, a, b);
    FirstTwinIsNext(cfg, s.db.enquiries, s.now, a, b);
    NobodyLocks(s);
    var one := DiscardRun(cfg, u, n);
    var v := System.Run(cfg, u, one);
    SecondTwinIsNext(cfg, s.db.enquiries, s.now, a, b, v.db.enquiries[n]);
    var two := DiscardRun(cfg, v, n + 1);
    events := one + two;
    RunsJoin(cfg, u, one, two);
    RunNothing(cfg, s);
    RunTwoMore(cfg, s, [], first, second);
    assert [] + [first, second] == [first, second];
    RunsJoin(cfg, s, [first, second], events);
    UninterruptedJoins(one, two);
  }

  lemma UninterruptedJoins(a: seq<Event>, b: seq<Event>)
    requires Uninterrupted(a) && Uninterrupted(b)
    ensures Uninterrupted(a + b)
  {}

  lemma TwinsArrive(cfg: Config, s: State, first: Event, second: Event, a: Intake, b: Intake)
    requires Vacant(s.db.enquiries, s.now, a, b) && a.key != b.key
    requires first.Deliver? && Accept(cfg.lower, first.sender, first.body, first.clientKey) == Some(a)
    requires second.Deliver? && Accept(cfg.lower, second.sender, second.body, second.clientKey) == Some(b)
    ensures var u := Apply(cfg, Apply(cfg, s, first), second);
      && u.db == s.db.(enquiries := s.db.enquiries + [NewEnquiry(s.now, a)] + [NewEnquiry(s.now, b)])
      && u.workers == s.workers && u.reviewers == s.reviewers && u.now == s.now
  {
    hide Apply, Accept;
    Delivered(cfg, s, first, a);
    KeyIsStillFree(s.db.enquiries, s.now, a, b);
    Delivered(cfg, Apply(cfg, s, first), second, b);
  }
}
