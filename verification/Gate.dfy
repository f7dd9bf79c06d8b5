/** The confidence gate in the log: nothing is written to the CRM and nothing is drafted, and so
    nothing is sent, before a gated extraction of the enquiry's own text has been saved. */
module Gate {
  import opened Base
  import opened Text
  import opened Model
  import opened Router
  import opened Grounding
  import opened Tables
  import opened System
  import opened Safety
  import opened Settling

  /** Statement k of the run saved the extraction for enquiry e. */
  predicate SavedAt(log: seq<Write>, k: int, e: nat, ex: Extraction) {
    0 <= k < |log| && log[k] == SaveExtractionRow(e, ex)
  }

  ghost predicate Saved(log: seq<Write>, e: nat, ex: Extraction) {
    exists k :: SavedAt(log, k, e, ex)
  }

  /** An extraction of e's text that meets the gate was saved among the first n statements. */
  ghost predicate GatedBy(cfg: Config, db: Db, log: seq<Write>, n: int, e: nat) {
    e < |db.enquiries| && exists k, ex | k < n :: SavedAt(log, k, e, ex) && MayAct(cfg.lower, db.enquiries[e].text, cfg.confidence, ex)
  }

  /** The enquiry a statement acts for, if it writes to the CRM or drafts a message. */
  function ActsFor(w: Write): Option<nat> {
    match w
    case WriteContactRow(e, _, _, _) => Some(e)
    case WriteRecordRow(r) => Some(r.enquiry)
    case WriteDraftRow(m) => Some(m.enquiry)
    case _ => None
  }

  /** What a worker works with has been saved. */
  ghost predicate WorksWithSaved(log: seq<Write>, pc: Pc) {
    (pc.AtMatch? || pc.AtRecordMatch? || pc.AtRoute? || pc.AtContact? || pc.AtOwner? || pc.AtRecord? || pc.AtDraft? || pc.AtSaveDraft?)
    ==> Saved(log, pc.e.id, pc.ex)
  }

  ghost predicate GateInv(cfg: Config, start: nat, s: State) {
    && (forall n | 0 <= n < |s.log| :: ActsFor(s.log[n]).Some? ==> GatedBy(cfg, s.db, s.log, n, ActsFor(s.log[n]).value))
    && (forall i | 0 <= i < |s.workers| :: WorksWithSaved(s.log, s.workers[i]))
    && (forall m | start <= m < |s.db.messages| :: GatedBy(cfg, s.db, s.log, |s.log|, s.db.messages[m].enquiry))
  }

  lemma SavedStays(log: seq<Write>, w: Write, pc: Pc)
    requires WorksWithSaved(log, pc)
    ensures WorksWithSaved(log + [w], pc)
  {
    if WorksWithSaved(log, pc) && exists e, ex :: Saved(log, e, ex) {
      forall e, ex | Saved(log, e, ex) ensures Saved(log + [w], e, ex) {
        var k :| SavedAt(log, k, e, ex);
        assert SavedAt(log + [w], k, e, ex);
      }
    }
  }

  lemma GatedStays(cfg: Config, db: Db, db': Db, log: seq<Write>, w: Write, n: int, n': int, e: nat)
    requires GatedBy(cfg, db, log, n, e) && Kept(db, db') && n <= n'
    ensures GatedBy(cfg, db', log + [w], n', e)
  {
    hide MayAct;
    var k, ex :| k < n && SavedAt(log, k, e, ex) && MayAct(cfg.lower, db.enquiries[e].text, cfg.confidence, ex);
    assert EnquiryKept(db.enquiries[e], db'.enquiries[e]);
    assert SavedAt(log + [w], k, e, ex);
  }

  /** A stage hands on what it was given, or what it has just saved. */
  lemma StagesHandOn(cfg: Config, db: Db, now: int, locked: set<nat>, pc: Pc, o: Oracle, log: seq<Write>)
    requires WorksWithSaved(log, pc) && StageStep(cfg, db, now, locked, pc, o).Some?
    ensures var m := StageStep(cfg, db, now, locked, pc, o).value; WorksWithSaved(log + [m.write], m.next)
  {
    hide Route, IsMatch, Extract, TeamAndUser, PickOwner, UpsertContact, IsCompanyHit, HasRecentDuplicate, Blank, TrimSpace, Saved;
    var m := StageStep(cfg, db, now, locked, pc, o).value;
    SavedStays(log, m.write, pc);
    if pc.AtSave? {
      assert SavedAt(log + [m.write], |log|, pc.e.id, pc.ex);
      SavedIs(log + [m.write], |log|, pc.e.id, pc.ex);
    }
  }

  lemma SavedIs(log: seq<Write>, k: nat, e: nat, ex: Extraction)
    requires SavedAt(log, k, e, ex)
    ensures Saved(log, e, ex)
  {}

  /** Only these stages act, and only for the enquiry in hand. */
  lemma WhoActs(cfg: Config, db: Db, now: int, locked: set<nat>, pc: Pc, o: Oracle)
    requires WorkerOk(cfg, db, pc) && WorkerStep(cfg, db, now, locked, pc, o).Some?
    ensures var e := ActsFor(WorkerStep(cfg, db, now, locked, pc, o).value.write);
      e.Some? ==> (pc.AtContact? || pc.AtRecord? || pc.AtSaveDraft?) && e == Some(pc.e.id)
  {
    hide Route, IsMatch, Extract, TeamAndUser, PickOwner, UpsertContact, IsCompanyHit, HasRecentDuplicate, Blank, TrimSpace, Backoff;
    hide MayAct, Checked, MatchOk;
  }

  lemma ActorIsGated(cfg: Config, s: State, start: nat, a: Event)
    requires Agents(cfg, s) && GateInv(cfg, start, s) && ActsFor(Emit(cfg, s, a)).Some?
    ensures GatedBy(cfg, s.db, s.log, |s.log|, ActsFor(Emit(cfg, s, a)).value)
  {
    OnlyWorkersAct(cfg, s, a);
    WorkEventIs(cfg, s, a);
    var pc := s.workers[a.worker];
    assert WorkerOk(cfg, s.db, pc) && WorksWithSaved(s.log, pc);
    WhoActs(cfg, s.db, s.now, Locked(s.reviewers), pc, a.oracle);
    hide WorkerStep, Emit, WorkersAfter, MayAct, GateInv, Agents;
    var k :| SavedAt(s.log, k, pc.e.id, pc.ex);
  }

  lemma OnlyWorkersAct(cfg: Config, s: State, a: Event)
    requires ActsFor(Emit(cfg, s, a)).Some?
    ensures a.Work? && a.worker < |s.workers|
  {
    hide WorkerStep;
  }

  lemma NewMessagesAreDrafts(cfg: Config, db: Db, w: Write, m: nat)
    requires m < |Exec(cfg, db, w).messages|
    ensures
      || (m < |db.messages| && Exec(cfg, db, w).messages[m].enquiry == db.messages[m].enquiry)
      || (w.WriteDraftRow? && Exec(cfg, db, w).messages[m].enquiry == w.draft.enquiry)
  {}

  lemma WorkersKeepSaved(cfg: Config, s: State, a: Event, i: nat)
    requires i < |s.workers| && i < |WorkersAfter(cfg, s, a)| && WorksWithSaved(s.log, s.workers[i])
    ensures WorksWithSaved(s.log + [Emit(cfg, s, a)], WorkersAfter(cfg, s, a)[i])
  {
    hide Saved, StageStep;
    SavedStays(s.log, Emit(cfg, s, a), s.workers[i]);
    if a.Work? && a.worker == i {
      WorkEventIs(cfg, s, a);
      var pc := s.workers[i];
      if Holds(pc).Some? && !pc.AtFail? && a.oracle.ok && StageStep(cfg, s.db, s.now, Locked(s.reviewers), pc, a.oracle).Some? {
        StagesHandOn(cfg, s.db, s.now, Locked(s.reviewers), pc, a.oracle, s.log);
      }
    }
  }

  lemma ApplyKeepsGate(cfg: Config, start: nat, s: State, a: Event)
    requires GateInv(cfg, start, s) && Agents(cfg, s)
    ensures GateInv(cfg, start, Apply(cfg, s, a))
  {
    hide GatedBy, WorksWithSaved, Agents, Exec, Emit, WorkersAfter, ReviewersAfter, TokenAfter, WokenAfter, Kept;
    var w, s' := Emit(cfg, s, a), Apply(cfg, s, a);
    ApplyKeepsAgents(cfg, s, a);
    SameCrew(cfg, s, a);
    forall n | 0 <= n < |s'.log| && ActsFor(s'.log[n]).Some? ensures GatedBy(cfg, s'.db, s'.log, n, ActsFor(s'.log[n]).value) {
      if n == |s.log| {
        ActorIsGated(cfg, s, start, a);
      }
      GatedStays(cfg, s.db, s'.db, s.log, w, n, n, ActsFor(s'.log[n]).value);
    }
    forall i | 0 <= i < |s'.workers| ensures WorksWithSaved(s'.log, s'.workers[i]) {
      WorkersKeepSaved(cfg, s, a, i);
    }
    forall m | start <= m < |s'.db.messages| ensures GatedBy(cfg, s'.db, s'.log, |s'.log|, s'.db.messages[m].enquiry) {
      NewMessagesAreDrafts(cfg, s.db, w, m);
      if !(m < |s.db.messages| && s'.db.messages[m].enquiry == s.db.messages[m].enquiry) {
        ActorIsGated(cfg, s, start, a);
      }
      GatedStays(cfg, s.db, s'.db, s.log, w, |s.log|, |s'.log|, s'.db.messages[m].enquiry);
    }
  }

  lemma {:induction false} RunKeepsGate(cfg: Config, s: State, events: seq<Event>)
    requires Start(cfg, s)
    ensures GateInv(cfg, |s.db.messages|, Run(cfg, s, events)) && Agents(cfg, Run(cfg, s, events))
  {
    hide Apply, Good, Agents, GatedBy;
    if events == [] {
      StartIsInv(cfg, s);
    } else {
      var t := Run(cfg, s, events[..|events| - 1]);
      RunKeepsGate(cfg, s, events[..|events| - 1]);
      ApplyKeepsGate(cfg, |s.db.messages|, t, events[|events| - 1]);
      ApplyKeepsAgents(cfg, t, events[|events| - 1]);
    }
  }

  /** In every run, each statement that writes a contact, a record or a draft comes after the one
      that saved an extraction of that enquiry's text that is schema-valid, grounded, confident
      enough and not refuted. */
  lemma ActionsAreGated(cfg: Config, s: State, events: seq<Event>, n: nat)
    requires Start(cfg, s) && n < |Run(cfg, s, events).log| && ActsFor(Run(cfg, s, events).log[n]).Some?
    ensures var t := Run(cfg, s, events); GatedBy(cfg, t.db, t.log, n, ActsFor(t.log[n]).value)
  {
    hide Run, Start, Agents, GatedBy;
    RunKeepsGate(cfg, s, events);
  }

  /** So nothing is sent, or even put before a human, for an enquiry without such an extraction. */
  lemma SentMessagesAreGated(cfg: Config, s: State, events: seq<Event>, m: nat)
    requires Start(cfg, s) && |s.db.messages| <= m < |Run(cfg, s, events).db.messages|
    ensures var t := Run(cfg, s, events); GatedBy(cfg, t.db, t.log, |t.log|, t.db.messages[m].enquiry)
  {
    hide Run, Start, Agents, GatedBy;
    RunKeepsGate(cfg, s, events);
  }
}
