/** How evenly a team's work is spread when picking an owner and writing the CRM record
    are separate steps of workers that do not see each other's picks. */
module Balance {
  import opened Base
  import opened Model
  import opened Router
  import opened Grounding
  import opened Tables
  import opened System
  import opened Safety

  /** The worker has picked u and not yet written the record. */
  predicate Aims(pc: Pc, u: nat) {
    pc.AtRecord? && pc.owner == Some(u)
  }

  /** How many workers have picked u and not yet written. */
  function Aimed(ws: seq<Pc>, u: nat): (n: nat)
    ensures n <= |ws|
  {
    if ws == [] then 0 else Aimed(ws[..|ws| - 1], u) + if Aims(ws[|ws| - 1], u) then 1 else 0
  }

  lemma {:induction false} AimedAfterUpdate(ws: seq<Pc>, i: nat, pc: Pc, u: nat)
    requires i < |ws|
    ensures Aimed(ws[i := pc], u) ==
      Aimed(ws, u) - (if Aims(ws[i], u) then 1 else 0) + (if Aims(pc, u) then 1 else 0)
  {
    var front := ws[..|ws| - 1];
    if i == |ws| - 1 {
      assert ws[i := pc][..|ws| - 1] == front;
    } else {
      assert ws[i := pc][..|ws| - 1] == front[i := pc];
      AimedAfterUpdate(front, i, pc, u);
    }
  }

  lemma {:induction false} NobodyAims(ws: seq<Pc>, u: nat)
    requires forall i | 0 <= i < |ws| :: !Aims(ws[i], u)
    ensures Aimed(ws, u) == 0
  {
    if ws != [] {
      NobodyAims(ws[..|ws| - 1], u);
    }
  }

  /** A worker that has not picked u leaves room for itself. */
  lemma {:induction false} SomeoneElseAims(ws: seq<Pc>, i: nat, u: nat)
    requires i < |ws| && !Aims(ws[i], u)
    ensures Aimed(ws, u) < |ws|
  {
    if i < |ws| - 1 {
      SomeoneElseAims(ws[..|ws| - 1], i, u);
    }
  }

  // ---------- how an upsert moves the loads ----------

  lemma {:induction false} LoadAfterUpdate(rs: seq<CrmRecord>, i: nat, row: CrmRecord, u: nat)
    requires i < |rs| && row.open == rs[i].open && (rs[i].owner.Some? ==> row.owner == rs[i].owner)
    ensures Load(rs[i := row], u) == Load(rs, u) + if row.open && row.owner == Some(u) && rs[i].owner.None? then 1 else 0
  {
    var front := rs[..|rs| - 1];
    if i == |rs| - 1 {
      assert rs[i := row][..|rs| - 1] == front;
    } else {
      assert rs[i := row][..|rs| - 1] == front[i := row];
      LoadAfterUpdate(front, i, row, u);
    }
  }

  lemma LoadAfterUpsert(rs: seq<CrmRecord>, r: CrmRecord, u: nat)
    ensures Load(rs, u) <= Load(UpsertRecord(rs, r), u) <= Load(rs, u) + if r.owner == Some(u) then 1 else 0
  {
    var i := RecordOf(rs, r.enquiry);
    if i < |rs| {
      LoadAfterUpdate(rs, i, rs[i].(owner := Coalesce(rs[i].owner, r.owner), team := r.team), u);
    } else {
      assert (rs + [r])[..|rs|] == rs;
    }
  }

  lemma LoadAfter(cfg: Config, db: Db, w: Write, u: nat)
    ensures Load(db.records, u) <= Load(Exec(cfg, db, w).records, u)
         <= Load(db.records, u) + if w.WriteRecordRow? && w.record.owner == Some(u) then 1 else 0
  {
    if w.WriteRecordRow? {
      LoadAfterUpsert(db.records, w.record, u);
    } else {
      assert Exec(cfg, db, w).records == db.records;
    }
  }

  // ---------- who picks, and who writes ----------

  ghost predicate NoRuleNamesAUser(rules: seq<Rule>) {
    forall r | r in rules :: r.user.None?
  }

  lemma OwnersArePicked(cfg: Config, ex: Extraction, dup: Option<Match>, d: Decision, rulesOk: bool)
    requires NoRuleNamesAUser(cfg.rules) && DecisionOk(cfg, ex, dup, d)
    ensures TeamAndUser(cfg, ex, dup, d, rulesOk).1.None?
  {
    FirstEligibleIsIn(cfg.rules, ex);
    var i := LeastEligibleIsChoice(cfg.rules, ex);
    hide Identifiable, FirstEligible, LeastEligible;
    if LeastEligible(cfg.rules, ex).Some? {
      assert cfg.rules[i] in cfg.rules;
    }
  }

  lemma RecordsFollowOwners(cfg: Config, db: Db, now: int, locked: set<nat>, pc: Pc, o: Oracle)
    requires WorkerStep(cfg, db, now, locked, pc, o).Some? && WorkerStep(cfg, db, now, locked, pc, o).value.next.AtRecord?
    ensures pc.AtOwner?
    ensures WorkerStep(cfg, db, now, locked, pc, o).value == OwnerStep(cfg, db, pc.e, pc.ex, pc.dup, pc.d, pc.contact, o)
  {
    hide Route, IsMatch, Extract, TeamAndUser, PickOwner, UpsertContact, IsCompanyHit;
  }

  /** A worker comes to aim at a user only by picking the least loaded one of a team. */
  lemma PickedIsLeastLoaded(cfg: Config, db: Db, now: int, locked: set<nat>, pc: Pc, o: Oracle, u: nat)
    requires NoRuleNamesAUser(cfg.rules) && WorkerOk(cfg, db, pc)
    requires WorkerStep(cfg, db, now, locked, pc, o).Some? && Aims(WorkerStep(cfg, db, now, locked, pc, o).value.next, u)
    ensures u < |cfg.users| && IsLeastLoaded(cfg.users, db.records, cfg.users[u].team, u)
    ensures pc.AtOwner?
  {
    RecordsFollowOwners(cfg, db, now, locked, pc, o);
    hide WorkerStep, DecisionOk, GateOk, DupOk, TeamAndUser, PickOwner;
    assert DecisionOk(cfg, pc.ex, pc.dup, pc.d);
    OwnersArePicked(cfg, pc.ex, pc.dup, pc.d, o.rulesOk);
    PickOwnerIsLeastLoaded(cfg.users, db.records, TeamAndUser(cfg, pc.ex, pc.dup, pc.d, o.rulesOk).0);
  }

  /** A record is written for the user its worker aimed at, and the worker then aims at nobody. */
  lemma WritersAimed(cfg: Config, db: Db, now: int, locked: set<nat>, pc: Pc, o: Oracle)
    requires WorkerStep(cfg, db, now, locked, pc, o).Some?
    ensures var m := WorkerStep(cfg, db, now, locked, pc, o).value;
      m.write.WriteRecordRow? ==> pc.AtRecord? && m.write.record.owner == pc.owner && !m.next.AtRecord?
  {
    hide Route, IsMatch, Extract, TeamAndUser, PickOwner, UpsertContact, IsCompanyHit;
  }

  // ---------- the invariant ----------

  /** Even if every pick in flight lands, u is at most one record per worker ahead of v. */
  predicate Ahead(rs: seq<CrmRecord>, ws: seq<Pc>, u: nat, v: nat) {
    Load(rs, u) + Aimed(ws, u) <= Load(rs, v) + |ws|
  }

  ghost predicate Balanced(cfg: Config, rs: seq<CrmRecord>, ws: seq<Pc>) {
    forall u, v | 0 <= u < |cfg.users| && 0 <= v < |cfg.users| && cfg.users[u].team == cfg.users[v].team :: Ahead(rs, ws, u, v)
  }

  /** One worker step, for one pair of users of a team. */
  lemma StepKeepsAhead(cfg: Config, db: Db, now: int, locked: set<nat>, ws: seq<Pc>, i: nat, o: Oracle, u: nat, v: nat)
    requires NoRuleNamesAUser(cfg.rules) && i < |ws| && WorkerOk(cfg, db, ws[i])
    requires WorkerStep(cfg, db, now, locked, ws[i], o).Some?
    requires u < |cfg.users| && v < |cfg.users| && cfg.users[u].team == cfg.users[v].team
    requires Ahead(db.records, ws, u, v)
    ensures var m := WorkerStep(cfg, db, now, locked, ws[i], o).value;
      Ahead(Exec(cfg, db, m.write).records, ws[i := m.next], u, v)
  {
    hide WorkerOk, WorkerStep, Exec, Load, Aimed;
    var m := WorkerStep(cfg, db, now, locked, ws[i], o).value;
    LoadAfter(cfg, db, m.write, u);
    LoadAfter(cfg, db, m.write, v);
    AimedAfterUpdate(ws, i, m.next, u);
    WritersAimed(cfg, db, now, locked, ws[i], o);
    if Aims(m.next, u) {
      PickedIsLeastLoaded(cfg, db, now, locked, ws[i], o, u);
      SomeoneElseAims(ws, i, u);
    }
  }

  lemma WorkStepEffect(cfg: Config, s: State, i: nat, o: Oracle)
    requires i < |s.workers|
    ensures var m := WorkerStep(cfg, s.db, s.now, Locked(s.reviewers), s.workers[i], o);
      && Emit(cfg, s, Work(i, o)) == (if m.Some? then m.value.write else NoWrite)
      && WorkersAfter(cfg, s, Work(i, o)) == (if m.Some? then s.workers[i := m.value.next] else s.workers)
  {
    hide WorkerStep;
  }

  /** Whatever is not a worker step writes no record and leaves nobody aiming who did not. */
  lemma OthersDoNotAim(cfg: Config, s: State, a: Event)
    requires !a.Work?
    ensures !Emit(cfg, s, a).WriteRecordRow?
    ensures |WorkersAfter(cfg, s, a)| == |s.workers|
    ensures forall i | 0 <= i < |s.workers| ::
      WorkersAfter(cfg, s, a)[i] == s.workers[i] || !WorkersAfter(cfg, s, a)[i].AtRecord?
  {}

  lemma {:induction false} FewerAim(ws: seq<Pc>, ws': seq<Pc>, u: nat)
    requires |ws'| == |ws| && forall i | 0 <= i < |ws| :: ws'[i] == ws[i] || !ws'[i].AtRecord?
    ensures Aimed(ws', u) <= Aimed(ws, u)
  {
    if ws != [] {
      FewerAim(ws[..|ws| - 1], ws'[..|ws| - 1], u);
    }
  }

  lemma ApplyKeepsBalance(cfg: Config, s: State, a: Event)
    requires NoRuleNamesAUser(cfg.rules) && Agents(cfg, s) && Balanced(cfg, s.db.records, s.workers)
    ensures Balanced(cfg, Apply(cfg, s, a).db.records, Apply(cfg, s, a).workers)
  {
    hide WorkerOk, ReviewerOk, Exec, Emit, WorkersAfter, WorkerStep, Load, Aimed;
    var rs', ws' := Apply(cfg, s, a).db.records, Apply(cfg, s, a).workers;
    forall u, v | 0 <= u < |cfg.users| && 0 <= v < |cfg.users| && cfg.users[u].team == cfg.users[v].team
      ensures Ahead(rs', ws', u, v)
    {
      assert Ahead(s.db.records, s.workers, u, v);
      if a.Work? && a.worker < |s.workers| && WorkerStep(cfg, s.db, s.now, Locked(s.reviewers), s.workers[a.worker], a.oracle).Some? {
        WorkStepEffect(cfg, s, a.worker, a.oracle);
        StepKeepsAhead(cfg, s.db, s.now, Locked(s.reviewers), s.workers, a.worker, a.oracle, u, v);
      } else {
        IdleKeepsAhead(cfg, s, a, u, v);
      }
    }
  }

  lemma IdleKeepsAhead(cfg: Config, s: State, a: Event, u: nat, v: nat)
    requires a.Work? && a.worker < |s.workers| ==>
      WorkerStep(cfg, s.db, s.now, Locked(s.reviewers), s.workers[a.worker], a.oracle).None?
    requires Ahead(s.db.records, s.workers, u, v)
    ensures Ahead(Apply(cfg, s, a).db.records, Apply(cfg, s, a).workers, u, v)
  {
    hide Exec, WorkerStep, Load, Aimed;
    if !a.Work? {
      OthersDoNotAim(cfg, s, a);
    }
    LoadAfter(cfg, s.db, Emit(cfg, s, a), u);
    LoadAfter(cfg, s.db, Emit(cfg, s, a), v);
    FewerAim(s.workers, WorkersAfter(cfg, s, a), u);
  }

  ghost predicate GapsAtMost(cfg: Config, rs: seq<CrmRecord>, gap: nat) {
    forall u, v | 0 <= u < |cfg.users| && 0 <= v < |cfg.users| && cfg.users[u].team == cfg.users[v].team ::
      Load(rs, u) <= Load(rs, v) + gap
  }

  lemma {:induction false} RunKeepsBalance(cfg: Config, s: State, events: seq<Event>)
    requires Start(cfg, s) && NoRuleNamesAUser(cfg.rules) && GapsAtMost(cfg, s.db.records, |s.workers|)
    ensures var t := Run(cfg, s, events); Balanced(cfg, t.db.records, t.workers) && |t.workers| == |s.workers| && Agents(cfg, t)
  {
    hide Apply, Good, WorkerOk, Ahead;
    if events == [] {
      StartIsInv(cfg, s);
      StartIsBalanced(cfg, s);
    } else {
      var t := Run(cfg, s, events[..|events| - 1]);
      RunKeepsBalance(cfg, s, events[..|events| - 1]);
      ApplyKeepsBalance(cfg, t, events[|events| - 1]);
      ApplyKeepsAgents(cfg, t, events[|events| - 1]);
      SameWorkerCount(cfg, t, events[|events| - 1]);
    }
  }

  lemma SameWorkerCount(cfg: Config, s: State, a: Event)
    ensures |Apply(cfg, s, a).workers| == |s.workers|
  {
    hide WorkerStep, Exec, Emit;
  }

  lemma StartIsBalanced(cfg: Config, s: State)
    requires Start(cfg, s) && GapsAtMost(cfg, s.db.records, |s.workers|)
    ensures Balanced(cfg, s.db.records, s.workers)
  {
    hide Good, Load;
    forall u, v | 0 <= u < |cfg.users| && 0 <= v < |cfg.users| && cfg.users[u].team == cfg.users[v].team
      ensures Ahead(s.db.records, s.workers, u, v)
    {
      NobodyAims(s.workers, u);
    }
  }

  /** Owner load balance under concurrency: with W workers, no rule naming a user, and an
      initial gap of at most W, two users of one team never differ by more than W open
      records, however the picks and writes interleave, whoever crashes, and whatever is
      processed twice. */
  lemma LoadsStayWithinWorkers(cfg: Config, s: State, events: seq<Event>)
    requires Start(cfg, s) && NoRuleNamesAUser(cfg.rules) && GapsAtMost(cfg, s.db.records, |s.workers|)
    ensures GapsAtMost(cfg, Run(cfg, s, events).db.records, |s.workers|)
  {
    RunKeepsBalance(cfg, s, events);
    var t := Run(cfg, s, events);
    hide Run, Agents, Load, Aimed, Start;
    forall u, v | 0 <= u < |cfg.users| && 0 <= v < |cfg.users| && cfg.users[u].team == cfg.users[v].team
      ensures Load(t.db.records, u) <= Load(t.db.records, v) + |s.workers|
    {
      assert Ahead(t.db.records, t.workers, u, v);
    }
  }
}
