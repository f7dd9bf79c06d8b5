/** A worker whose lease has run out keeps writing, and SetStatus does not ask what the status
    is: exactly which events take an enquiry back from `sent` or `failed`, and runs in which
    one does. */
module Stale {
  import opened Base
  import opened Text
  import opened Model
  import opened Router
  import opened Grounding
  import opened Tables
  import opened System
  import opened Safety
  import opened Queue
  import opened Turns
  import opened Settling
  import opened Replay
  import opened Convergence
  import opened Workers
  import opened Completion

  // ---------- what takes an enquiry back ----------

  /** A worker that still holds e writes its outcome; a shutdown releases such a worker; a
      human's resolution puts e back; or another message of e is rejected. */
  ghost predicate TakesBack(cfg: Config, s: State, a: Event, e: nat) {
    match a
    case Work(i, o) => i < |s.workers| && HeldBy(s.workers[i], e) && (s.workers[i].AtRest? || s.workers[i].AtFail?) && o.ok
    case Stop(i, released) => s.closing && released && i < |s.workers| && HeldBy(s.workers[i], e)
    case RequeueResolved(c) =>
      && c < |s.db.candidates| && s.db.candidates[c].enquiry == e
      && (s.db.candidates[c].resolution == Attached || s.db.candidates[c].resolution == Separate)
    case Commit(r) =>
      && r < |s.reviewers| && s.reviewers[r].Holding? && s.reviewers[r].verdict == Rejected
      && s.reviewers[r].message < |s.db.messages| && s.db.messages[s.reviewers[r].message].enquiry == e
    case _ => false
  }

  lemma WorkersWriteOutcomes(cfg: Config, db: Db, now: int, locked: set<nat>, pc: Pc, o: Oracle)
    ensures var m := WorkerStep(cfg, db, now, locked, pc, o);
      (m.Some? && (m.value.write.SetStatusRow? || m.value.write.RequeueRow?)) <==> (o.ok && (pc.AtRest? || pc.AtFail?))
    ensures var m := WorkerStep(cfg, db, now, locked, pc, o);
      && (m.Some? && (m.value.write.SetStatusRow? || m.value.write.RequeueRow?) ==> m.value.write.id == pc.e.id)
      && (m.Some? && m.value.write.SetStatusRow? ==> m.value.write.status == (if pc.AtRest? then pc.status else Failed))
      && (m.Some? ==> !m.value.write.DecideRow?)
  {
    hide Route, IsMatch, Extract, TeamAndUser, PickOwner, UpsertContact, IsCompanyHit, HasRecentDuplicate, Blank, TrimSpace, Backoff;
  }

  /** The statuses a statement takes away from a sent row. */
  ghost predicate Overwrites(cfg: Config, db: Db, w: Write, e: nat) {
    || (w.SetStatusRow? && w.id == e && w.status != Sent)
    || (w.RequeueRow? && w.id == e)
    || (Decides(db, w, e) && w.verdict == Rejected)
  }

  lemma SentRowsLeaveSent(cfg: Config, db: Db, w: Write, e: nat)
    requires Permitted(cfg, db, w) && e < |db.enquiries| && db.enquiries[e].status == Sent
    ensures e < |Exec(cfg, db, w).enquiries|
    ensures Exec(cfg, db, w).enquiries[e].status != Sent <==> Overwrites(cfg, db, w, e)
  {
    ExecOnQueue(cfg, db, w);
    hide Exec;
  }

  lemma WorkersOverwrite(cfg: Config, s: State, a: Event, e: nat)
    requires Agents(cfg, s) && a.Work?
    ensures Overwrites(cfg, s.db, Emit(cfg, s, a), e) <==> TakesBack(cfg, s, a, e)
  {
    hide WorkerStep, Agents;
    if a.worker < |s.workers| {
      WorkersWriteOutcomes(cfg, s.db, s.now, Locked(s.reviewers), s.workers[a.worker], a.oracle);
      RestsElsewhere(cfg, s, a.worker);
    }
  }

  lemma RestsElsewhere(cfg: Config, s: State, i: nat)
    requires Agents(cfg, s) && i < |s.workers|
    ensures s.workers[i].AtRest? ==> s.workers[i].status != Sent
  {
    assert WorkerOk(cfg, s.db, s.workers[i]);
  }

  /** In every reachable state, the next event takes a sent enquiry back exactly if it is one of these. */
  lemma StaleWorkerUnsendsTheEnquiry(cfg: Config, s: State, a: Event, e: nat)
    requires Reachable(cfg, s) && e < |s.db.enquiries| && s.db.enquiries[e].status == Sent
    ensures e < |Apply(cfg, s, a).db.enquiries|
    ensures Apply(cfg, s, a).db.enquiries[e].status != Sent <==> TakesBack(cfg, s, a, e)
  {
    hide Exec, WorkerStep, Good, Reachable, Overwrites;
    ReachableIsInv(cfg, s);
    EmitIsPermitted(cfg, s, a);
    SentRowsLeaveSent(cfg, s.db, Emit(cfg, s, a), e);
    if a.Work? {
      WorkersOverwrite(cfg, s, a, e);
    } else {
      OthersOverwrite(cfg, s, a, e);
    }
  }

  lemma OthersOverwrite(cfg: Config, s: State, a: Event, e: nat)
    requires !a.Work?
    ensures Overwrites(cfg, s.db, Emit(cfg, s, a), e) <==> TakesBack(cfg, s, a, e)
  {}

  // ---------- what takes a dead letter back ----------

  /** As above, but a rejection and an approval alike overwrite `failed`, and a failure only does
      if its worker still counts attempts as left. */
  ghost predicate TakesBackFailed(cfg: Config, s: State, a: Event, e: nat) {
    match a
    case Work(i, o) =>
      && i < |s.workers| && HeldBy(s.workers[i], e) && o.ok
      && (s.workers[i].AtRest? || (s.workers[i].AtFail? && s.workers[i].e.attempts < cfg.maxAttempts))
    case Stop(i, released) => s.closing && released && i < |s.workers| && HeldBy(s.workers[i], e)
    case RequeueResolved(c) =>
      && c < |s.db.candidates| && s.db.candidates[c].enquiry == e
      && (s.db.candidates[c].resolution == Attached || s.db.candidates[c].resolution == Separate)
    case Commit(r) =>
      && r < |s.reviewers| && s.reviewers[r].Holding?
      && s.reviewers[r].message < |s.db.messages| && s.db.messages[s.reviewers[r].message].enquiry == e
    case _ => false
  }

  ghost predicate OverwritesFailed(cfg: Config, db: Db, w: Write, e: nat) {
    (w.SetStatusRow? && w.id == e && w.status != Failed) || (w.RequeueRow? && w.id == e) || Decides(db, w, e)
  }

  lemma FailedRowsLeaveFailed(cfg: Config, db: Db, w: Write, e: nat)
    requires Permitted(cfg, db, w) && e < |db.enquiries| && db.enquiries[e].status == Failed
    ensures e < |Exec(cfg, db, w).enquiries|
    ensures Exec(cfg, db, w).enquiries[e].status != Failed <==> OverwritesFailed(cfg, db, w, e)
  {
    ExecOnQueue(cfg, db, w);
    hide Exec;
  }

  lemma FailuresRequeue(cfg: Config, db: Db, now: int, locked: set<nat>, pc: Pc, o: Oracle)
    requires pc.AtFail? && o.ok
    ensures var m := WorkerStep(cfg, db, now, locked, pc, o); m.Some? && (m.value.write.RequeueRow? <==> pc.e.attempts < cfg.maxAttempts)
  {
    hide Backoff;
  }

  lemma WorkersOverwriteFailed(cfg: Config, s: State, a: Event, e: nat)
    requires Agents(cfg, s) && a.Work?
    ensures OverwritesFailed(cfg, s.db, Emit(cfg, s, a), e) <==> TakesBackFailed(cfg, s, a, e)
  {
    hide WorkerStep, Agents;
    if a.worker < |s.workers| {
      WorkersWriteOutcomes(cfg, s.db, s.now, Locked(s.reviewers), s.workers[a.worker], a.oracle);
      if s.workers[a.worker].AtFail? && a.oracle.ok {
        FailuresRequeue(cfg, s.db, s.now, Locked(s.reviewers), s.workers[a.worker], a.oracle);
      }
      RestsNotFailed(cfg, s, a.worker);
    }
  }

  lemma RestsNotFailed(cfg: Config, s: State, i: nat)
    requires Agents(cfg, s) && i < |s.workers|
    ensures s.workers[i].AtRest? ==> s.workers[i].status != Failed
  {
    assert WorkerOk(cfg, s.db, s.workers[i]);
  }

  lemma OthersOverwriteFailed(cfg: Config, s: State, a: Event, e: nat)
    requires !a.Work?
    ensures OverwritesFailed(cfg, s.db, Emit(cfg, s, a), e) <==> TakesBackFailed(cfg, s, a, e)
  {}

  /** In every reachable state, the next event takes a dead letter back exactly if it is one of these. */
  lemma StaleWorkerRevivesTheEnquiry(cfg: Config, s: State, a: Event, e: nat)
    requires Reachable(cfg, s) && e < |s.db.enquiries| && s.db.enquiries[e].status == Failed
    ensures e < |Apply(cfg, s, a).db.enquiries|
    ensures Apply(cfg, s, a).db.enquiries[e].status != Failed <==> TakesBackFailed(cfg, s, a, e)
  {
    hide Exec, WorkerStep, Good, Reachable, OverwritesFailed;
    ReachableIsInv(cfg, s);
    EmitIsPermitted(cfg, s, a);
    FailedRowsLeaveFailed(cfg, s.db, Emit(cfg, s, a), e);
    if a.Work? {
      WorkersOverwriteFailed(cfg, s, a, e);
    } else {
      OthersOverwriteFailed(cfg, s, a, e);
    }
  }

  // ---------- a run in which a stale worker does ----------

  /** Two workers, and one open enquiry that will be asked a question. */
  ghost predicate Doubled(cfg: Config, p: Case, s: State) {
    && Start(cfg, s) && |s.workers| >= 2
    && Prepared(cfg, s.db, s.now, p) && Decided(cfg, p).action == DraftClarifyingQuestion
    && IsOldestClaimable(s.db.enquiries, s.now, p.id) && NothingElseIsOpen(s.db.enquiries, p.id)
  }

  /** A reviewer and an admin besides, and nothing has been drafted so far. */
  ghost predicate Staged(cfg: Config, p: Case, s: State, actor: nat) {
    && Doubled(cfg, p, s) && s.reviewers != []
    && actor < |cfg.users| && cfg.users[actor].role == OpsAdmin
    && MessageOf(s.db.messages, p.id, ClarifyingQuestion) == |s.db.messages|
  }

  /** One attempt, up to its last write. */
  lemma AttemptToRest(cfg: Config, p: Case, at: int, db: Db, text: string, ans: Answers)
    returns (turns: seq<Turn>, db': Db, pc: Pc, draft: Message)
    requires Attemptable(cfg, p, at, db, p.dup, text) && Answering(cfg, text, p, ans)
    requires Decided(cfg, p).action == DraftClarifyingQuestion
    ensures Path(cfg, db, Draining, turns, db', pc) && AllAt(turns, at)
    ensures pc.AtRest? && pc.e.id == p.id && pc.status == PendingApproval
    ensures draft.enquiry == p.id && draft.kind == ClarifyingQuestion
    ensures db'.messages == UpsertDraft(db.messages, draft) && db'.enquiries == Claimed(cfg, db, p.id, at).enquiries
    ensures db'.contacts == db.contacts && db'.companies == db.companies
  {
    hide Path, Decided, Route, Blank, Extract, IsMatch, HasRecentDuplicate, Claimed, UpsertDraft, AllFair;
    DecidedIsRoute(cfg, p);
    var first, mid, e := ToDecision(cfg, p, true, at, db, p.dup, text, ans);
    var rest;
    rest, db' := DraftToRest(cfg, text, p, true, at, mid, e, p.ex, ClarifyingQuestion, None, ans.reply);
    pc, draft := AtRest(e, PendingApproval, Some(p.ex)), DraftOf(e, ClarifyingQuestion, None, ans.reply);
    Join(cfg, text, p, true, at, db, Draining, first, mid, AtDraft(e, p.ex, ClarifyingQuestion, None), rest, db', pc);
    turns := first + rest;
  }

  lemma RestFrom(cfg: Config, db: Db, at: int, pc: Pc) returns (turn: Turn)
    requires pc.AtRest?
    ensures turn.at == at && turn.oracle == Answer(true)
    ensures Leads(cfg, db, pc, turn, Exec(cfg, db, SetStatusRow(pc.e.id, pc.status)), Draining)
  {
    turn := Turn(at, Answer(true));
    RestTurn(cfg, db, at, pc.e, pc.status, pc.basis);
  }

  /** One draft, and the same again. */
  lemma DraftIsPending(ms: seq<Message>, first: Message, second: Message)
    requires MessageOf(ms, first.enquiry, first.kind) == |ms| && second.enquiry == first.enquiry && second.kind == first.kind
    ensures var ms' := UpsertDraft(UpsertDraft(ms, first), second);
      |ms'| == |ms| + 1 && ms'[|ms|].enquiry == first.enquiry && ms'[|ms|].status == MsgPending
  {
    var once := UpsertDraft(ms, first);
    assert forall j | 0 <= j < |ms| :: once[j] == ms[j];
    assert once[|ms|].enquiry == first.enquiry && once[|ms|].kind == first.kind;
    assert MessageOf(once, second.enquiry, second.kind) == |ms|;
  }

  lemma DoubledIsAttemptable(cfg: Config, p: Case, s: State)
    requires Doubled(cfg, p, s)
    ensures Attemptable(cfg, p, s.now, s.db, p.dup, s.db.enquiries[p.id].text)
    ensures Locked(s.reviewers) == {}
  {
    hide Good, Checked, IsMatch, IsCompanyHit, GoodContacts, HasRecentDuplicate, Decided, Trusted, IsOldestClaimable;
  }

  /** When the lease has run out, the enquiry is there for the next worker to attempt. */
  lemma AttemptableAgain(cfg: Config, p: Case, at: int, db: Db, db': Db, text: string)
    requires Attemptable(cfg, p, at, db, p.dup, text) && NothingElseIsOpen(db.enquiries, p.id)
    requires db'.enquiries == Claimed(cfg, db, p.id, at).enquiries && db'.contacts == db.contacts && db'.companies == db.companies
    ensures Attemptable(cfg, p, at + cfg.lockTtl + 1, db', p.dup, text)
  {
    hide IsMatch, Trusted;
    MatchReadsContacts(cfg, db, db', Trusted(p.ex), p.dup);
    assert forall j | 0 <= j < |db.enquiries| && j != p.id :: db'.enquiries[j] == db.enquiries[j];
  }

  /** Worker 0 gets as far as its last write, its lease runs out, and worker 1 does it all again. */
  lemma Overtaken(cfg: Config, p: Case, s: State, actor: nat, ans: Answers) returns (events: seq<Event>)
    requires Staged(cfg, p, s, actor) && Answering(cfg, s.db.enquiries[p.id].text, p, ans)
    ensures var t, m := System.Run(cfg, s, events), |s.db.messages|;
      && t.reviewers == s.reviewers && p.id < |t.db.enquiries|
      && t.workers != [] && t.workers[0].AtRest? && t.workers[0].e.id == p.id && t.workers[0].status == PendingApproval
      && m < |t.db.messages| && t.db.messages[m].enquiry == p.id && t.db.messages[m].status == MsgPending
  {
    hide System.Run, Path, Leads, Good, Checked, IsMatch, IsCompanyHit, InOrder, GoodContacts, HasRecentDuplicate, Decided, Trusted, Attemptable;
    hide IsOldestClaimable, NothingElseIsOpen, Answering, UpsertDraft, Claimed, Apply;
    var text := s.db.enquiries[p.id].text;
    DoubledIsAttemptable(cfg, p, s);
    var slow, db1, pc, draft := AttemptToRest(cfg, p, s.now, s.db, text, ans);
    var one := PathIsRun(cfg, s, 0, slow, s.now, db1, pc);
    var tick := Tick(cfg.lockTtl + 1);
    var u := System.Run(cfg, s, one + [tick]);
    RunsJoin(cfg, s, one, [tick]);
    RunOne(cfg, System.Run(cfg, s, one), tick);
    TickEvent(cfg, System.Run(cfg, s, one), cfg.lockTtl + 1);
    AttemptableAgain(cfg, p, s.now, s.db, db1, text);
    var quick, db2, pc2, draft2 := AttemptToRest(cfg, p, u.now, db1, text, ans);
    var turn := RestFrom(cfg, db2, u.now, pc2);
    var db3 := Exec(cfg, db2, SetStatusRow(p.id, PendingApproval));
    Go(cfg, db1, Draining, quick, db2, pc2, turn, db3, Draining);
    var two := PathIsRun(cfg, u, 1, quick + [turn], u.now, db3, Draining);
    RunsJoin(cfg, s, one + [tick], two);
    DraftIsPending(s.db.messages, draft, draft2);
    ClaimsAndRestsKeepLength(cfg, s.db, db1, db2, p.id, s.now, u.now);
    events := one + [tick] + two;
  }

  lemma TickEvent(cfg: Config, s: State, delay: nat)
    ensures var u := Apply(cfg, s, Tick(delay));
      u.db == s.db && u.workers == s.workers && u.reviewers == s.reviewers && u.now == s.now + delay
  {}

  lemma ClaimsAndRestsKeepLength(cfg: Config, db: Db, db1: Db, db2: Db, id: nat, at: int, later: int)
    requires db1.enquiries == Claimed(cfg, db, id, at).enquiries && db2.enquiries == Claimed(cfg, db1, id, later).enquiries
    ensures var db3 := Exec(cfg, db2, SetStatusRow(id, PendingApproval)); |db3.enquiries| == |db.enquiries| && db3.messages == db2.messages
  {}

  ghost predicate AllIdle(rs: seq<Reviewer>) {
    rs != [] && forall r | 0 <= r < |rs| :: rs[r].Idle?
  }

  lemma LockEvents(cfg: Config, t: State, m: nat, actor: nat)
    requires AllIdle(t.reviewers) && actor < |cfg.users| && cfg.users[actor].role == OpsAdmin
    requires m < |t.db.messages| && t.db.messages[m].status == MsgPending
    ensures var u := Apply(cfg, Apply(cfg, t, Begin(0, m, actor, Approved, "")), Lock(0));
      && u.db == t.db && u.workers == t.workers
      && u.reviewers == t.reviewers[0 := Holding(m, actor, Approved, "", t.db.messages[m].body)]
  {
    var a := Apply(cfg, t, Begin(0, m, actor, Approved, ""));
    assert a.reviewers == t.reviewers[0 := Cleared(m, actor, Approved, "")];
    assert Locked(a.reviewers) == {};
  }

  lemma CommitEvent(cfg: Config, t: State, m: nat, actor: nat, seen: string)
    requires t.reviewers != [] && t.reviewers[0] == Holding(m, actor, Approved, "", seen)
    requires m < |t.db.messages| && t.db.messages[m].enquiry < |t.db.enquiries|
    ensures var e, u := t.db.messages[m].enquiry, Apply(cfg, t, Commit(0));
      && u.workers == t.workers && |u.db.enquiries| == |t.db.enquiries| && u.db.enquiries[e].status == Sent
      && m < |u.db.messages| && u.db.messages[m].status == MsgSent && u.db.messages[m].enquiry == e
  {}

  /** A reviewer sends message m. */
  lemma ApprovedIsSent(cfg: Config, t: State, m: nat, actor: nat) returns (events: seq<Event>)
    requires AllIdle(t.reviewers) && actor < |cfg.users| && cfg.users[actor].role == OpsAdmin
    requires m < |t.db.messages| && t.db.messages[m].status == MsgPending && t.db.messages[m].enquiry < |t.db.enquiries|
    ensures var e, u := t.db.messages[m].enquiry, System.Run(cfg, t, events);
      && u.workers == t.workers && |u.db.enquiries| == |t.db.enquiries| && u.db.enquiries[e].status == Sent
      && m < |u.db.messages| && u.db.messages[m].status == MsgSent && u.db.messages[m].enquiry == e
  {
    hide Apply, System.Run;
    var begin := Begin(0, m, actor, Approved, "");
    LockEvents(cfg, t, m, actor);
    CommitEvent(cfg, Apply(cfg, Apply(cfg, t, begin), Lock(0)), m, actor, t.db.messages[m].body);
    RunNothing(cfg, t);
    RunTwoMore(cfg, t, [], begin, Lock(0));
    RunOne(cfg, System.Run(cfg, t, [] + [begin, Lock(0)]), Commit(0));
    RunsJoin(cfg, t, [] + [begin, Lock(0)], [Commit(0)]);
    events := [] + [begin, Lock(0)] + [Commit(0)];
  }

  lemma OutcomeIsWritten(cfg: Config, t: State, id: nat)
    requires t.workers != [] && t.workers[0].AtRest? && t.workers[0].e.id == id < |t.db.enquiries|
    ensures var u := Apply(cfg, t, Work(0, Answer(true)));
      && id < |u.db.enquiries| && u.db.enquiries[id].status == t.workers[0].status && u.db.messages == t.db.messages
  {}

  /** The reply has been sent; a worker whose lease ran out long ago writes its own outcome, and
      the enquiry is back among those awaiting approval, with nothing left to approve. */
  lemma AStaleWorkerUnsends(cfg: Config, p: Case, s: State, actor: nat, ans: Answers) returns (events: seq<Event>)
    requires Staged(cfg, p, s, actor) && Answering(cfg, s.db.enquiries[p.id].text, p, ans)
    ensures var t, m := System.Run(cfg, s, events), |s.db.messages|;
      && p.id < |t.db.enquiries| && t.db.enquiries[p.id].status == Sent
      && m < |t.db.messages| && t.db.messages[m].enquiry == p.id && t.db.messages[m].status == MsgSent
      && var u := Apply(cfg, t, Work(0, Answer(true)));
         && p.id < |u.db.enquiries| && u.db.enquiries[p.id].status == PendingApproval && u.db.messages == t.db.messages
  {
    hide System.Run, Apply, Good, Prepared, Decided, IsOldestClaimable, NothingElseIsOpen, Answering;
    var front := Overtaken(cfg, p, s, actor, ans);
    var t := System.Run(cfg, s, front);
    var approval := ApprovedIsSent(cfg, t, |s.db.messages|, actor);
    RunsJoin(cfg, s, front, approval);
    events := front + approval;
    OutcomeIsWritten(cfg, System.Run(cfg, s, events), p.id);
  }

  /** A claim, a call that fails, and the end of the last attempt. */
  lemma LastAttempt(cfg: Config, p: Case, at: int, db: Db) returns (turns: seq<Turn>, db': Db)
    requires IsOldestClaimable(db.enquiries, at, p.id) && db.enquiries[p.id].attempts + 1 >= cfg.maxAttempts
    ensures Path(cfg, db, Draining, turns, db', Draining) && AllAt(turns, at)
    ensures p.id < |db'.enquiries| && db'.enquiries[p.id].status == Failed
  {
    hide Path, Leads;
    var claimed := Exec(cfg, db, ClaimRow(p.id, at));
    var e := SnapshotOf(claimed.enquiries, p.id);
    var claim := Turn(at, Answer(true).(row := Some(p.id)));
    Stay(cfg, db, Draining);
    ClaimTurn(cfg, db, at, p.id);
    Go(cfg, db, Draining, [], db, Draining, claim, claimed, AtDedupe(e));
    Fails(cfg, db, Draining, [] + [claim], claimed, AtDedupe(e), at);
    RetryTurn(cfg, claimed, at, e, true);
    db' := Exec(cfg, claimed, SetStatusRow(p.id, Failed));
    Go(cfg, db, Draining, [] + [claim] + [Turn(at, Answer(false))], claimed, AtFail(e), Turn(at, Answer(true)), db', Draining);
    turns := [] + [claim] + [Turn(at, Answer(false))] + [Turn(at, Answer(true))];
  }

  /** The enquiry has been given up; a worker whose lease ran out long ago writes its own outcome,
      and the enquiry awaits approval as if nothing had happened. */
  lemma AStaleWorkerRevives(cfg: Config, p: Case, s: State, ans: Answers) returns (events: seq<Event>)
    requires Doubled(cfg, p, s) && Answering(cfg, s.db.enquiries[p.id].text, p, ans)
    requires s.db.enquiries[p.id].attempts + 2 >= cfg.maxAttempts
    ensures var t := System.Run(cfg, s, events);
      && p.id < |t.db.enquiries| && t.db.enquiries[p.id].status == Failed
      && var u := Apply(cfg, t, Work(0, Answer(true)));
         p.id < |u.db.enquiries| && u.db.enquiries[p.id].status == PendingApproval
  {
    hide System.Run, Path, Leads, Good, Checked, IsMatch, IsCompanyHit, GoodContacts, HasRecentDuplicate, Decided, Trusted;
    hide NothingElseIsOpen, Answering, UpsertDraft, Apply, Claimable;
    var text := s.db.enquiries[p.id].text;
    DoubledIsAttemptable(cfg, p, s);
    var slow, db1, pc, draft := AttemptToRest(cfg, p, s.now, s.db, text, ans);
    var one := PathIsRun(cfg, s, 0, slow, s.now, db1, pc);
    var tick := Tick(cfg.lockTtl + 1);
    RunsJoin(cfg, s, one, [tick]);
    RunOne(cfg, System.Run(cfg, s, one), tick);
    TickEvent(cfg, System.Run(cfg, s, one), cfg.lockTtl + 1);
    var u := System.Run(cfg, s, one + [tick]);
    AttemptableAgain(cfg, p, s.now, s.db, db1, text);
    var quick, db2 := LastAttempt(cfg, p, u.now, db1);
    var two := PathIsRun(cfg, u, 1, quick, u.now, db2, Draining);
    RunsJoin(cfg, s, one + [tick], two);
    events := one + [tick] + two;
    OutcomeIsWritten(cfg, System.Run(cfg, s, events), p.id);
  }
}
