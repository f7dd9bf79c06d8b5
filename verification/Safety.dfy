/** What holds in every reachable state, for any number of workers and reviewers, any
    interleaving, crashes, stale workers, failed calls and model answers. */
module Safety {
  import opened Base
  import opened Text
  import opened Ingest
  import opened Model
  import opened Router
  import opened Grounding
  import opened Tables
  import opened System

  // ---------- what a worker's local variables mean ----------

  ghost predicate SnapshotOk(db: Db, e: Snapshot) {
    && e.id < |db.enquiries|
    && e.text == db.enquiries[e.id].text && e.hash == db.enquiries[e.id].hash
    && 1 <= e.attempts <= db.enquiries[e.id].attempts
  }

  /** Only an exact identifier match scores above the fuzzy cap, and it stays exact. */
  ghost predicate MatchOk(cfg: Config, db: Db, ex: Extraction, m: Match) {
    && m.contact < |db.contacts|
    && (m.score > FUZZY_CAP ==> ExactlyMatches(cfg.lower, db.contacts[m.contact], Trusted(ex)))
  }

  ghost predicate DupOk(cfg: Config, db: Db, ex: Extraction, dup: Option<Match>) {
    dup.Some? ==> ex.enquiryType != TYPE_JUNK && MatchOk(cfg, db, ex, dup.value)
  }

  ghost predicate DecisionOk(cfg: Config, ex: Extraction, dup: Option<Match>, d: Decision) {
    && d == Route(ex, dup, cfg.rules, cfg.confidence, cfg.autoAttach)
    && (d.action == AttachToExistingContact || d.action == CreateOrUpdateCrm)
  }

  ghost predicate GateOk(cfg: Config, e: Snapshot, ex: Extraction) {
    MayAct(cfg.lower, e.text, cfg.confidence, ex)
  }

  ghost predicate WorkerOk(cfg: Config, db: Db, pc: Pc) {
    && (Holds(pc).Some? ==> SnapshotOk(db, Holds(pc).value))
    && match pc
       case AtSave(e, ex) => Checked(cfg.lower, e.text, ex)
       case AtMatch(e, ex) => Checked(cfg.lower, e.text, ex)
       case AtRecordMatch(e, ex, m) => Checked(cfg.lower, e.text, ex) && ex.enquiryType != TYPE_JUNK && MatchOk(cfg, db, ex, m)
       case AtRoute(e, ex, dup) => Checked(cfg.lower, e.text, ex) && DupOk(cfg, db, ex, dup)
       case AtContact(e, ex, dup, d) => GateOk(cfg, e, ex) && DupOk(cfg, db, ex, dup) && DecisionOk(cfg, ex, dup, d)
       case AtOwner(e, ex, dup, d, contact) =>
         GateOk(cfg, e, ex) && DupOk(cfg, db, ex, dup) && DecisionOk(cfg, ex, dup, d) && contact < |db.contacts|
       case AtRecord(e, ex, contact, team, owner) => GateOk(cfg, e, ex) && contact < |db.contacts|
       case AtDraft(e, ex, kind, record) => GateOk(cfg, e, ex) && (record.Some? ==> record.value < |db.records|)
       case AtSaveDraft(e, ex, draft) =>
         GateOk(cfg, e, ex) && draft.enquiry == e.id && (draft.record.Some? ==> draft.record.value < |db.records|)
       case AtRest(e, status, basis) =>
         && EndsWork(status)
         && (status != NeedsHumanReview && status != DiscardedDuplicate ==> basis.Some? && GateOk(cfg, e, basis.value))
       case _ => true
  }

  lemma ExactMatchIsStable(f: CaseMap, a: Contact, b: Contact, c: ContactInfo)
    requires ContactKept(a, b) && ExactlyMatches(f, a, c)
    ensures ExactlyMatches(f, b, c)
  {
    if PhoneMatches(a, c) {
      assert a.phone.Some? by { assert Digits("") == ""; }
    }
  }

  /** Rely: nothing another process does to the database invalidates a worker's locals. */
  lemma WorkerOkIsStable(cfg: Config, db: Db, db': Db, pc: Pc)
    requires WorkerOk(cfg, db, pc) && Kept(db, db')
    ensures WorkerOk(cfg, db', pc)
  {
    if Holds(pc).Some? {
      assert EnquiryKept(db.enquiries[pc.e.id], db'.enquiries[pc.e.id]);
    }
    var m := if pc.AtRecordMatch? then Some(pc.found) else if pc.AtRoute? || pc.AtContact? || pc.AtOwner? then pc.dup else None;
    if m.Some? && m.value.score > FUZZY_CAP {
      ExactMatchIsStable(cfg.lower, db.contacts[m.value.contact], db'.contacts[m.value.contact], Trusted(pc.ex));
    }
  }

  lemma IsMatchIsOk(cfg: Config, db: Db, ex: Extraction, m: Option<Match>)
    requires IsMatch(cfg, db, Trusted(ex), m) && m.Some?
    ensures MatchOk(cfg, db, ex, m.value)
  {}

  lemma GateFromRoute(cfg: Config, e: Snapshot, ex: Extraction, dup: Option<Match>)
    requires Checked(cfg.lower, e.text, ex)
    ensures Route(ex, dup, cfg.rules, cfg.confidence, cfg.autoAttach) != REVIEW ==> GateOk(cfg, e, ex)
  {
    UnverifiedMeansUnsupported(cfg.lower, e.text, ex.contact, ex.quotes);
  }

  /** The statements the stages issue are permitted. */
  lemma StageWriteIsPermitted(cfg: Config, db: Db, now: int, locked: set<nat>, pc: Pc, o: Oracle)
    requires WorkerOk(cfg, db, pc) && StageStep(cfg, db, now, locked, pc, o).Some?
    ensures Permitted(cfg, db, StageStep(cfg, db, now, locked, pc, o).value.write)
  {}

  lemma ExtractStepIsOk(cfg: Config, db: Db, e: Snapshot, o: Oracle)
    requires SnapshotOk(db, e)
    ensures WorkerOk(cfg, db, ExtractStep(cfg, e, o).next)
  {
    ExtractIsChecked(cfg.lower, o.tier1, o.tier2, cfg.confidence, e.text);
  }

  lemma MatchStepIsOk(cfg: Config, db: Db, e: Snapshot, ex: Extraction, o: Oracle)
    requires SnapshotOk(db, e) && Checked(cfg.lower, e.text, ex) && MatchStep(cfg, db, e, ex, o).Some?
    ensures WorkerOk(cfg, db, MatchStep(cfg, db, e, ex, o).value.next)
  {
    if ex.enquiryType != TYPE_JUNK && o.found.Some? {
      IsMatchIsOk(cfg, db, ex, o.found);
    }
  }

  lemma RouteStepIsOk(cfg: Config, db: Db, e: Snapshot, ex: Extraction, dup: Option<Match>)
    requires SnapshotOk(db, e) && Checked(cfg.lower, e.text, ex) && DupOk(cfg, db, ex, dup)
    ensures WorkerOk(cfg, db, RouteStep(cfg, e, ex, dup).next)
  {
    hide Checked, MatchOk, MayAct, LeastEligible, Identifiable;
    GateFromRoute(cfg, e, ex, dup);
  }

  lemma NewContactIsThere(cfg: Config, db: Db, e: Snapshot, ex: Extraction, dup: Option<Match>, d: Decision, o: Oracle)
    requires ContactStep(cfg, db, e, ex, dup, d, o).Some? && e.id < |db.enquiries|
    ensures var m := ContactStep(cfg, db, e, ex, dup, d, o).value;
      && Permitted(cfg, db, m.write)
      && (m.next == AtFail(e) || exists contact: nat ::
            m.next == AtOwner(e, ex, dup, d, contact) && contact < |Exec(cfg, db, m.write).contacts|)
  {
    hide Trusted, FilledRow, CompaniesAfter, CompanyIdAfter, EmailTaken;
  }

  lemma ContactStepIsOk(cfg: Config, db: Db, e: Snapshot, ex: Extraction, dup: Option<Match>, d: Decision, o: Oracle)
    requires WorkerOk(cfg, db, AtContact(e, ex, dup, d)) && ContactStep(cfg, db, e, ex, dup, d, o).Some?
    ensures var m := ContactStep(cfg, db, e, ex, dup, d, o).value; WorkerOk(cfg, Exec(cfg, db, m.write), m.next)
  {
    hide Checked, MayAct, MatchOk, Route, UpsertContact, IsCompanyHit, Trusted, Existing;
    NewContactIsThere(cfg, db, e, ex, dup, d, o);
    var m := ContactStep(cfg, db, e, ex, dup, d, o).value;
    ExecKeepsRows(cfg, db, m.write);
    WorkerOkIsStable(cfg, db, Exec(cfg, db, m.write), AtContact(e, ex, dup, d));
  }

  lemma RecordStepIsOk(cfg: Config, db: Db, e: Snapshot, ex: Extraction, contact: nat, team: string, owner: Option<nat>)
    requires WorkerOk(cfg, db, AtRecord(e, ex, contact, team, owner))
    ensures var m := RecordStep(db, e, ex, contact, team, owner); WorkerOk(cfg, Exec(cfg, db, m.write), m.next)
  {
    hide Checked, MayAct;
  }

  /** For every stage but the two whose next stage refers to the row just written. */
  lemma StageNextIsOk(cfg: Config, db: Db, now: int, locked: set<nat>, pc: Pc, o: Oracle)
    requires WorkerOk(cfg, db, pc) && StageStep(cfg, db, now, locked, pc, o).Some?
    requires !pc.AtContact? && !pc.AtRecord?
    ensures WorkerOk(cfg, db, StageStep(cfg, db, now, locked, pc, o).value.next)
  {
    hide Checked, MayAct, MatchOk, RouteStep, MatchStep, ExtractStep, ContactStep, RecordStep, TeamAndUser, PickOwner, Route, Blank, TrimSpace, HasRecentDuplicate;
    match pc
    case AtExtract(e) => ExtractStepIsOk(cfg, db, e, o);
    case AtMatch(e, ex) => MatchStepIsOk(cfg, db, e, ex, o);
    case AtRoute(e, ex, dup) => RouteStepIsOk(cfg, db, e, ex, dup);
    case _ =>
  }

  lemma StageStepIsOk(cfg: Config, db: Db, now: int, locked: set<nat>, pc: Pc, o: Oracle)
    requires WorkerOk(cfg, db, pc) && StageStep(cfg, db, now, locked, pc, o).Some?
    ensures var m := StageStep(cfg, db, now, locked, pc, o).value; WorkerOk(cfg, Exec(cfg, db, m.write), m.next)
  {
    if pc.AtContact? {
      ContactStepIsOk(cfg, db, pc.e, pc.ex, pc.dup, pc.d, o);
    } else if pc.AtRecord? {
      RecordStepIsOk(cfg, db, pc.e, pc.ex, pc.contact, pc.team, pc.owner);
    } else {
      hide WorkerOk, Exec, StageStep;
      var m := StageStep(cfg, db, now, locked, pc, o).value;
      StageNextIsOk(cfg, db, now, locked, pc, o);
      StageWriteIsPermitted(cfg, db, now, locked, pc, o);
      ExecKeepsRows(cfg, db, m.write);
      WorkerOkIsStable(cfg, db, Exec(cfg, db, m.write), m.next);
    }
  }

  /** Guarantee: a worker only issues permitted statements and keeps its locals meaningful. */
  lemma WorkerWriteIsPermitted(cfg: Config, db: Db, now: int, locked: set<nat>, pc: Pc, o: Oracle)
    requires WorkerOk(cfg, db, pc) && WorkerStep(cfg, db, now, locked, pc, o).Some?
    ensures Permitted(cfg, db, WorkerStep(cfg, db, now, locked, pc, o).value.write)
  {
    if Holds(pc).Some? && !pc.AtFail? && o.ok {
      StageWriteIsPermitted(cfg, db, now, locked, pc, o);
    }
  }

  lemma WorkerStepIsOk(cfg: Config, db: Db, now: int, locked: set<nat>, pc: Pc, o: Oracle)
    requires WorkerOk(cfg, db, pc) && WorkerStep(cfg, db, now, locked, pc, o).Some?
    ensures var m := WorkerStep(cfg, db, now, locked, pc, o).value; WorkerOk(cfg, Exec(cfg, db, m.write), m.next)
  {
    if Holds(pc).Some? && !pc.AtFail? && o.ok {
      StageStepIsOk(cfg, db, now, locked, pc, o);
    }
  }

  // ---------- reviewers and the row lock ----------

  ghost predicate ReviewerOk(cfg: Config, db: Db, r: Reviewer) {
    && (!r.Idle? ==> r.message < |db.messages| && r.actor < |cfg.users| && cfg.users[r.actor].role != Manager)
    && (!r.Idle? ==> (r.verdict == ApprovedWithEdit <==> r.body != ""))
    && (r.Holding? ==> Undecided(db.messages[r.message].status) && db.messages[r.message].body == r.seen)
  }

  /** Each locked row has one holder. */
  ghost predicate LocksExclude(rs: seq<Reviewer>) {
    forall i, j | 0 <= i < j < |rs| :: rs[i].Holding? && rs[j].Holding? ==> rs[i].message != rs[j].message
  }

  /** Every process is in a state it can account for. */
  ghost predicate Agents(cfg: Config, s: State) {
    && (forall i | 0 <= i < |s.workers| :: WorkerOk(cfg, s.db, s.workers[i]))
    && (forall r | 0 <= r < |s.reviewers| :: ReviewerOk(cfg, s.db, s.reviewers[r]))
    && LocksExclude(s.reviewers)
  }

  ghost predicate Inv(cfg: Config, s: State) {
    Good(cfg, s.db) && Agents(cfg, s)
  }

  lemma EmitIsPermitted(cfg: Config, s: State, a: Event)
    requires Agents(cfg, s)
    ensures Permitted(cfg, s.db, Emit(cfg, s, a))
  {
    match a
    case Work(i, o) =>
      if i < |s.workers| && WorkerStep(cfg, s.db, s.now, Locked(s.reviewers), s.workers[i], o).Some? {
        WorkerWriteIsPermitted(cfg, s.db, s.now, Locked(s.reviewers), s.workers[i], o);
      }
    case Commit(r) =>
      if r < |s.reviewers| {
        assert ReviewerOk(cfg, s.db, s.reviewers[r]);
      }
    case _ =>
  }

  lemma OtherMessagesUntouched(cfg: Config, db: Db, w: Write, m: nat)
    requires m < |db.messages|
    requires w.WriteDraftRow? ==> MessageOf(db.messages, w.draft.enquiry, w.draft.kind) != m
    requires w.DecideRow? ==> w.message != m
    ensures m < |Exec(cfg, db, w).messages| && Exec(cfg, db, w).messages[m] == db.messages[m]
  {}

  /** A message row is written only by the reviewer who holds it, or by a draft that finds it unlocked. */
  lemma LockedRowUntouched(cfg: Config, s: State, a: Event, r: nat)
    requires Agents(cfg, s) && r < |s.reviewers| && s.reviewers[r].Holding?
    requires a != Commit(r)
    ensures var m, db' := s.reviewers[r].message, Exec(cfg, s.db, Emit(cfg, s, a));
      m < |s.db.messages| && m < |db'.messages| && db'.messages[m] == s.db.messages[m]
  {
    hide WorkerOk, Exec;
    assert ReviewerOk(cfg, s.db, s.reviewers[r]);
    assert s.reviewers[r].message in Locked(s.reviewers);
    OtherMessagesUntouched(cfg, s.db, Emit(cfg, s, a), s.reviewers[r].message);
  }

  lemma LocksStayExclusive(cfg: Config, s: State, a: Event)
    requires LocksExclude(s.reviewers)
    ensures LocksExclude(ReviewersAfter(cfg, s, a))
  {
    forall i | 0 <= i < |s.reviewers| && s.reviewers[i].Holding? ensures s.reviewers[i].message in Locked(s.reviewers) {}
  }

  lemma ReviewerStaysOk(cfg: Config, s: State, a: Event, r: nat)
    requires Agents(cfg, s) && r < |ReviewersAfter(cfg, s, a)|
    requires |s.db.messages| <= |Exec(cfg, s.db, Emit(cfg, s, a)).messages|
    ensures ReviewerOk(cfg, Exec(cfg, s.db, Emit(cfg, s, a)), ReviewersAfter(cfg, s, a)[r])
  {
    assert ReviewerOk(cfg, s.db, s.reviewers[r]);
    if ReviewersAfter(cfg, s, a)[r] == s.reviewers[r] && s.reviewers[r].Holding? && a != Commit(r) {
      LockedRowUntouched(cfg, s, a, r);
    }
  }

  lemma WorkerStaysOk(cfg: Config, s: State, a: Event, i: nat)
    requires Agents(cfg, s) && i < |WorkersAfter(cfg, s, a)|
    requires Kept(s.db, Exec(cfg, s.db, Emit(cfg, s, a)))
    ensures WorkerOk(cfg, Exec(cfg, s.db, Emit(cfg, s, a)), WorkersAfter(cfg, s, a)[i])
  {
    hide Exec, Checked, MayAct, MatchOk;
    if WorkersAfter(cfg, s, a)[i] == s.workers[i] {
      WorkerOkIsStable(cfg, s.db, Exec(cfg, s.db, Emit(cfg, s, a)), s.workers[i]);
    } else if a.Work? {
      WorkerStepIsOk(cfg, s.db, s.now, Locked(s.reviewers), s.workers[a.worker], a.oracle);
    }
  }

  lemma ApplyKeepsAgents(cfg: Config, s: State, a: Event)
    requires Agents(cfg, s)
    ensures Agents(cfg, Apply(cfg, s, a)) && Kept(s.db, Apply(cfg, s, a).db)
  {
    EmitIsPermitted(cfg, s, a);
    ExecKeepsRows(cfg, s.db, Emit(cfg, s, a));
    LocksStayExclusive(cfg, s, a);
    forall r | 0 <= r < |ReviewersAfter(cfg, s, a)| ensures ReviewerOk(cfg, Apply(cfg, s, a).db, ReviewersAfter(cfg, s, a)[r]) {
      ReviewerStaysOk(cfg, s, a, r);
    }
    forall i | 0 <= i < |WorkersAfter(cfg, s, a)| ensures WorkerOk(cfg, Apply(cfg, s, a).db, WorkersAfter(cfg, s, a)[i]) {
      WorkerStaysOk(cfg, s, a, i);
    }
  }

  lemma ApplyKeepsInv(cfg: Config, s: State, a: Event)
    requires Inv(cfg, s)
    ensures Inv(cfg, Apply(cfg, s, a)) && Kept(s.db, Apply(cfg, s, a).db)
  {
    EmitIsPermitted(cfg, s, a);
    ApplyKeepsAgents(cfg, s, a);
    ExecKeepsGood(cfg, s.db, Emit(cfg, s, a));
  }

  lemma {:induction false} RunKeepsInv(cfg: Config, s: State, events: seq<Event>)
    requires Inv(cfg, s)
    ensures Inv(cfg, Run(cfg, s, events)) && Kept(s.db, Run(cfg, s, events).db)
  {
    if events == [] {
      KeptIsReflexive(s.db);
    } else {
      var before := Run(cfg, s, events[..|events| - 1]);
      RunKeepsInv(cfg, s, events[..|events| - 1]);
      ApplyKeepsInv(cfg, before, events[|events| - 1]);
      KeptIsTransitive(s.db, before.db, Run(cfg, s, events).db);
    }
  }

  lemma StartIsInv(cfg: Config, s: State)
    requires Start(cfg, s)
    ensures Inv(cfg, s)
  {}

  lemma ReachableIsInv(cfg: Config, s: State)
    requires Reachable(cfg, s)
    ensures Inv(cfg, s)
  {
    hide Run, Kept;
    var s0, events :| Start(cfg, s0) && s == Run(cfg, s0, events);
    RunKeepsInv(cfg, s0, events);
  }

  // ---------- the approval gate ----------

  ghost predicate HasApproval(db: Db, m: nat, i: int) {
    0 <= i < |db.approvals| && db.approvals[i].message == m
  }

  /** The message has at most one approval row, is decided exactly when it has one, is sent
      exactly when that row approves, carries a send time exactly when sent, and the
      decision was not a manager's. */
  ghost predicate DecidedByOneHuman(cfg: Config, db: Db, m: nat)
    requires m < |db.messages|
  {
    var row := db.messages[m];
    && (forall i, j :: HasApproval(db, m, i) && HasApproval(db, m, j) ==> i == j)
    && (!Undecided(row.status) <==> exists i :: HasApproval(db, m, i))
    && (row.status == MsgSent <==> exists i :: HasApproval(db, m, i) && db.approvals[i].verdict != Rejected)
    && (row.sentAt.Some? <==> row.status == MsgSent)
    && (forall i :: HasApproval(db, m, i) ==>
          db.approvals[i].actor < |cfg.users| && cfg.users[db.approvals[i].actor].role != Manager)
  }

  lemma GoodMeansDecidedByOneHuman(cfg: Config, db: Db, m: nat)
    requires GoodMessages(db.messages) && GoodApprovals(db.messages, db.approvals) && GoodActors(cfg, db.approvals)
    requires m < |db.messages|
    ensures DecidedByOneHuman(cfg, db, m)
  {
    var k := ApprovalOf(db.approvals, m);
    forall i | HasApproval(db, m, i)
      ensures i == k
      ensures !Undecided(db.messages[m].status) && (db.messages[m].status == MsgSent <==> db.approvals[i].verdict != Rejected)
      ensures db.approvals[i].actor < |cfg.users| && cfg.users[db.approvals[i].actor].role != Manager
    {
      assert db.messages[db.approvals[i].message] == db.messages[m];
      assert k <= i;
    }
    if !Undecided(db.messages[m].status) {
      assert HasApproval(db, m, k);
    }
  }

  /** Nothing is sent without exactly one human decision, in every reachable state. */
  lemma ApprovalSafety(cfg: Config, s: State)
    requires Reachable(cfg, s)
    ensures forall m | 0 <= m < |s.db.messages| :: DecidedByOneHuman(cfg, s.db, m)
  {
    ReachableIsInv(cfg, s);
    forall m | 0 <= m < |s.db.messages| ensures DecidedByOneHuman(cfg, s.db, m) {
      GoodMeansDecidedByOneHuman(cfg, s.db, m);
    }
  }

  /** Once decided, a message keeps its body, author, status and send time in every continuation. */
  lemma DecidedMessageIsFrozen(cfg: Config, s: State, more: seq<Event>, m: nat)
    requires Reachable(cfg, s) && m < |s.db.messages| && !Undecided(s.db.messages[m].status)
    ensures var b := Run(cfg, s, more).db;
      m < |b.messages| && b.messages[m].(record := None) == s.db.messages[m].(record := None)
  {
    ReachableIsInv(cfg, s);
    RunKeepsInv(cfg, s, more);
    assert MessageKept(s.db.messages[m], Run(cfg, s, more).db.messages[m]);
  }

  /** What committing h does to the database. */
  ghost predicate Carries(before: Db, after: Db, h: Reviewer)
    requires h.Holding?
  {
    && h.message < |before.messages| && Undecided(before.messages[h.message].status)
    && |after.messages| == |before.messages|
    && (forall k | 0 <= k < |before.messages| && k != h.message :: after.messages[k] == before.messages[k])
    && (var a, b := before.messages[h.message], after.messages[h.message];
        && b.status == (if h.verdict == Rejected then MsgRejected else MsgSent)
        && b.body == (if h.verdict == ApprovedWithEdit then h.body else h.seen)
        && b.draftedBy == (if h.verdict == ApprovedWithEdit then ByUser(h.actor) else a.draftedBy)
        && b.enquiry == a.enquiry && b.kind == a.kind && b.record == a.record)
    && after.approvals == before.approvals + [Approval(h.message, h.actor, h.verdict)]
  }

  /** The row lock does its work: a plain approval sends, word for word, the body that was
      there when the lock was taken, an edited one sends the edit under the reviewer's
      name, and a rejection sends nothing and leaves the draft as it is. */
  lemma CommitDecidesWhatWasLocked(cfg: Config, s: State, r: nat)
    requires Reachable(cfg, s) && r < |s.reviewers| && s.reviewers[r].Holding?
    ensures Carries(s.db, Exec(cfg, s.db, Emit(cfg, s, Commit(r))), s.reviewers[r])
  {
    ReachableIsInv(cfg, s);
    LockedDecision(cfg, s, r);
  }

  lemma LockedDecision(cfg: Config, s: State, r: nat)
    requires r < |s.reviewers| && s.reviewers[r].Holding? && ReviewerOk(cfg, s.db, s.reviewers[r])
    ensures Carries(s.db, Exec(cfg, s.db, Emit(cfg, s, Commit(r))), s.reviewers[r])
  {}

  lemma {:induction false} ApprovalTrailLength(xs: seq<Approval>)
    ensures |ApprovalTrail(xs)| == |xs|
  {
    if xs != [] {
      ApprovalTrailLength(xs[..|xs| - 1]);
    }
  }

  function CountMessageAudits(rows: seq<AuditRow>): nat {
    if rows == [] then 0
    else CountMessageAudits(rows[..|rows| - 1]) + if rows[|rows| - 1].action.OtherAction? then 0 else 1
  }

  lemma {:induction false} AuditTrailLength(rows: seq<AuditRow>)
    ensures |AuditTrail(rows)| == CountMessageAudits(rows)
  {
    if rows != [] {
      AuditTrailLength(rows[..|rows| - 1]);
    }
  }

  /** Conservation across tables: decided messages, approval rows and message_sent or
      message_rejected audit rows are equally many, and the audit rows name the same
      messages, outcomes and actors as the approvals, in the same order. */
  lemma TablesAgreeOnDecisions(cfg: Config, s: State)
    requires Reachable(cfg, s)
    ensures |s.db.approvals| == CountDecided(s.db.messages) == CountMessageAudits(s.db.audit)
    ensures AuditTrail(s.db.audit) == ApprovalTrail(s.db.approvals)
  {
    ReachableIsInv(cfg, s);
    ApprovalTrailLength(s.db.approvals);
    AuditTrailLength(s.db.audit);
  }

  // ---------- effects happen once ----------

  /** Under any interleaving of duplicate workers there is at most one CRM record and one
      extraction per enquiry and one outbound message per enquiry and kind, and every
      other unique index of the schema holds. */
  lemma EffectsAreUnique(cfg: Config, s: State)
    requires Reachable(cfg, s)
    ensures GoodEnquiries(s.db.enquiries) && GoodRecords(s.db.records) && GoodMessages(s.db.messages)
    ensures GoodExtractions(s.db.extractions) && GoodCandidates(s.db.candidates)
    ensures GoodContacts(cfg.lower, s.db.contacts) && GoodCompanies(cfg.lower, s.db.companies)
  {
    ReachableIsInv(cfg, s);
  }

  /** What has been written stays: from any reachable state on, no row is lost, a record
      keeps its contact and kind and, once set, its owner, and no non-empty contact field
      is overwritten. */
  lemma EffectsAreWriteOnce(cfg: Config, s: State, more: seq<Event>)
    requires Reachable(cfg, s)
    ensures Kept(s.db, Run(cfg, s, more).db)
  {
    ReachableIsInv(cfg, s);
    RunKeepsInv(cfg, s, more);
  }

  /** What a worker is about to do rests on an extraction of the enquiry's own text that
      is schema-valid, grounded, confident enough and not refuted. Only human review,
      discarding an exact duplicate, and the retry path do without one. */
  ghost predicate RestsOnGate(cfg: Config, db: Db, pc: Pc) {
    && (Holds(pc).Some? ==> pc.e.id < |db.enquiries| && pc.e.text == db.enquiries[pc.e.id].text)
    && match pc
       case AtContact(e, ex, _, _) => GateOk(cfg, e, ex)
       case AtOwner(e, ex, _, _, _) => GateOk(cfg, e, ex)
       case AtRecord(e, ex, _, _, _) => GateOk(cfg, e, ex)
       case AtDraft(e, ex, _, _) => GateOk(cfg, e, ex)
       case AtSaveDraft(e, ex, _) => GateOk(cfg, e, ex)
       case AtRest(e, status, basis) =>
         status == NeedsHumanReview || status == DiscardedDuplicate || (basis.Some? && GateOk(cfg, e, basis.value))
       case _ => true
  }

  lemma WorkerOkRestsOnGate(cfg: Config, db: Db, pc: Pc)
    requires WorkerOk(cfg, db, pc)
    ensures RestsOnGate(cfg, db, pc)
  {
    hide MayAct, Checked, MatchOk, Route;
  }

  /** The confidence gate in every reachable state. */
  lemma ActionsMeetTheGate(cfg: Config, s: State)
    requires Reachable(cfg, s)
    ensures forall i | 0 <= i < |s.workers| :: RestsOnGate(cfg, s.db, s.workers[i])
  {
    hide WorkerOk, RestsOnGate;
    ReachableIsInv(cfg, s);
    forall i | 0 <= i < |s.workers| ensures RestsOnGate(cfg, s.db, s.workers[i]) {
      WorkerOkRestsOnGate(cfg, s.db, s.workers[i]);
    }
  }
}
