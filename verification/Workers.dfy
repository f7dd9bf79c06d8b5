/** internal/worker: the pool's methods as written, working on the store in place, and the
    proof that whatever they do, whichever calls fail, is a run of one worker of the
    step system. */
module Workers {
  import opened Base
  import opened Text
  import opened Model
  import opened Router
  import opened Grounding
  import opened Tables
  import opened System
  import opened Safety
  import opened Storage

  // ---------- runs of one worker ----------

  datatype Turn = Turn(at: int, oracle: Oracle)

  /** A database and a worker's program counter. */
  datatype Spot = Spot(db: Db, pc: Pc)

  /** Where one turn leads, if the oracle's answer is possible. */
  ghost function Take(cfg: Config, x: Spot, turn: Turn): Option<Spot> {
    var m := WorkerStep(cfg, x.db, turn.at, {}, x.pc, turn.oracle);
    if m.None? then None else Some(Spot(Exec(cfg, x.db, m.value.write), m.value.next))
  }

  /** Where the turns lead one after the other. */
  ghost function After(cfg: Config, x: Spot, turns: seq<Turn>): Option<Spot> {
    if turns == [] then Some(x)
    else
      var y := After(cfg, x, turns[..|turns| - 1]);
      if y.None? then None else Take(cfg, y.value, turns[|turns| - 1])
  }

  lemma {:induction false} AfterJoins(cfg: Config, x: Spot, a: seq<Turn>, b: seq<Turn>)
    requires After(cfg, x, a).Some?
    ensures After(cfg, x, a + b) == After(cfg, After(cfg, x, a).value, b)
  {
    hide Take;
    if b == [] {
      assert a + b == a;
    } else {
      AfterJoins(cfg, x, a, b[..|b| - 1]);
      assert (a + b)[..|a + b| - 1] == a + b[..|b| - 1];
    }
  }

  lemma AfterOne(cfg: Config, x: Spot, turn: Turn)
    ensures After(cfg, x, [turn]) == Take(cfg, x, turn)
  {
    hide Take;
    assert [turn][..0] == [];
  }

  /** The turn in db at pc leads to db' at next. */
  ghost predicate Leads(cfg: Config, db: Db, pc: Pc, turn: Turn, db': Db, next: Pc) {
    Take(cfg, Spot(db, pc), turn) == Some(Spot(db', next))
  }

  ghost predicate Path(cfg: Config, db: Db, pc: Pc, turns: seq<Turn>, db': Db, next: Pc) {
    After(cfg, Spot(db, pc), turns) == Some(Spot(db', next))
  }

  lemma Go(cfg: Config, db: Db, pc: Pc, turns: seq<Turn>, d: Db, p: Pc, turn: Turn, db': Db, next: Pc)
    requires Path(cfg, db, pc, turns, d, p) && Leads(cfg, d, p, turn, db', next)
    ensures Path(cfg, db, pc, turns + [turn], db', next)
  {
    hide Take, After;
    AfterJoins(cfg, Spot(db, pc), turns, [turn]);
    AfterOne(cfg, Spot(d, p), turn);
  }

  lemma PathsJoin(cfg: Config, db: Db, pc: Pc, a: seq<Turn>, d: Db, p: Pc, b: seq<Turn>, db': Db, next: Pc)
    requires Path(cfg, db, pc, a, d, p) && Path(cfg, d, p, b, db', next)
    ensures Path(cfg, db, pc, a + b, db', next)
  {
    hide Take, After;
    AfterJoins(cfg, Spot(db, pc), a, b);
  }

  ghost predicate AllAt(turns: seq<Turn>, at: int) {
    forall i | 0 <= i < |turns| :: turns[i].at == at
  }

  /** The clock does not run backwards, and stays between the two times. */
  ghost predicate Timely(from: int, turns: seq<Turn>, to: int) {
    && (forall i | 0 <= i < |turns| :: from <= turns[i].at <= to)
    && (forall i, j | 0 <= i < j < |turns| :: turns[i].at <= turns[j].at)
  }

  /** A path of one worker is a run of the whole system in which only that worker moves and
      time passes, as long as no reviewer holds a row. So everything proved of the system's
      reachable states holds of the store the methods below work on. */
  lemma {:induction false} PathIsRun(cfg: Config, s: State, i: nat, turns: seq<Turn>, to: int, db': Db, next: Pc)
    returns (events: seq<Event>)
    requires i < |s.workers| && Locked(s.reviewers) == {} && s.now <= to
    requires Path(cfg, s.db, s.workers[i], turns, db', next) && Timely(s.now, turns, to)
    ensures var t := System.Run(cfg, s, events);
      t.db == db' && t.workers == s.workers[i := next] && t.reviewers == s.reviewers && s.now <= t.now <= to
    ensures System.Run(cfg, s, events).now == if turns == [] then s.now else turns[|turns| - 1].at
    ensures forall k | 0 <= k < |events| :: events[k].Tick? || exists j | 0 <= j < |turns| :: events[k] == Work(i, turns[j].oracle)
  {
    hide Apply, Take, System.Run;
    if turns == [] {
      events := [];
      RunNothing(cfg, s);
    } else {
      var front, last := turns[..|turns| - 1], turns[|turns| - 1];
      var y := After(cfg, Spot(s.db, s.workers[i]), front).value;
      events := PathIsRun(cfg, s, i, front, to, y.db, y.pc);
      var t := System.Run(cfg, s, events);
      OneTurnIsTwoEvents(cfg, t, i, last, db', next);
      var tick, work := Tick(last.at - t.now), Work(i, last.oracle);
      RunTwoMore(cfg, s, events, tick, work);
      events := events + [tick, work];
    }
  }

  /** Runs compose. */
  lemma {:induction false} RunsJoin(cfg: Config, s: State, a: seq<Event>, b: seq<Event>)
    ensures System.Run(cfg, s, a + b) == System.Run(cfg, System.Run(cfg, s, a), b)
  {
    hide Apply;
    if b == [] {
      assert a + b == a;
    } else {
      RunsJoin(cfg, s, a, b[..|b| - 1]);
      assert (a + b)[..|a + b| - 1] == a + b[..|b| - 1];
    }
  }

  lemma RunOne(cfg: Config, s: State, a: Event)
    ensures System.Run(cfg, s, [a]) == Apply(cfg, s, a)
  {
    hide Apply;
    assert [a][..0] == [];
    assert System.Run(cfg, s, []) == s;
  }

  lemma RunNothing(cfg: Config, s: State)
    ensures System.Run(cfg, s, []) == s
  {}

  lemma RunTwoMore(cfg: Config, s: State, events: seq<Event>, a: Event, b: Event)
    ensures System.Run(cfg, s, events + [a, b]) == Apply(cfg, Apply(cfg, System.Run(cfg, s, events), a), b)
  {
    hide Apply;
    assert (events + [a, b])[..|events| + 1] == events + [a];
    assert (events + [a])[..|events|] == events;
    assert System.Run(cfg, s, events + [a]) == Apply(cfg, System.Run(cfg, s, events), a);
  }

  lemma OneTurnIsTwoEvents(cfg: Config, t: State, i: nat, turn: Turn, db': Db, next: Pc)
    requires i < |t.workers| && Locked(t.reviewers) == {} && t.now <= turn.at
    requires Leads(cfg, t.db, t.workers[i], turn, db', next)
    ensures var u := Apply(cfg, Apply(cfg, t, Tick(turn.at - t.now)), Work(i, turn.oracle));
      u.db == db' && u.workers == t.workers[i := next] && u.reviewers == t.reviewers && u.now == turn.at
  {
    hide WorkerStep;
  }

  // ---------- what each turn does ----------

  function Answer(ok: bool): Oracle {
    Oracle(ok, true, None, None, None, None, None, None)
  }

  lemma FailedTurn(cfg: Config, db: Db, pc: Pc, at: int)
    requires Holds(pc).Some? && !pc.AtFail?
    ensures Leads(cfg, db, pc, Turn(at, Answer(false)), db, AtFail(pc.e))
  {
    hide StageStep;
  }

  lemma ClaimTurn(cfg: Config, db: Db, at: int, id: nat)
    requires IsOldestClaimable(db.enquiries, at, id)
    ensures var db' := Exec(cfg, db, ClaimRow(id, at));
      Leads(cfg, db, Draining, Turn(at, Answer(true).(row := Some(id))), db', AtDedupe(SnapshotOf(db'.enquiries, id)))
  {}

  lemma NothingDueTurn(cfg: Config, db: Db, at: int)
    requires forall i | 0 <= i < |db.enquiries| :: !Claimable(db.enquiries[i], at)
    ensures Leads(cfg, db, Draining, Turn(at, Answer(true)), db, Waiting)
  {}

  lemma ClaimFailedTurn(cfg: Config, db: Db, at: int)
    ensures Leads(cfg, db, Draining, Turn(at, Answer(false)), db, Waiting)
  {}

  lemma DedupeTurn(cfg: Config, db: Db, at: int, e: Snapshot)
    ensures Leads(cfg, db, AtDedupe(e), Turn(at, Answer(true)), db,
                  if HasRecentDuplicate(db.enquiries, e.hash, e.id, at, cfg.dedupeWindow) then AtRest(e, DiscardedDuplicate, None) else AtExtract(e))
  {
    hide HasRecentDuplicate;
  }

  lemma ExtractTurn(cfg: Config, db: Db, at: int, e: Snapshot, tier1: Option<Extraction>, tier2: Option<Extraction>)
    ensures var r := Extract(cfg.lower, tier1, tier2, cfg.confidence, e.text);
      Leads(cfg, db, AtExtract(e), Turn(at, Answer(true).(tier1 := tier1, tier2 := tier2)), db, if r.None? then AtFail(e) else AtSave(e, r.value))
  {
    hide Extract;
  }

  lemma SaveTurn(cfg: Config, db: Db, at: int, e: Snapshot, ex: Extraction)
    ensures Leads(cfg, db, AtSave(e, ex), Turn(at, Answer(true)), Exec(cfg, db, SaveExtractionRow(e.id, ex)), AtMatch(e, ex))
  {
    hide SaveExtraction;
  }

  lemma MatchTurn(cfg: Config, db: Db, at: int, e: Snapshot, ex: Extraction, found: Option<Match>)
    requires ex.enquiryType == TYPE_JUNK ==> found.None?
    requires ex.enquiryType != TYPE_JUNK ==> IsMatch(cfg, db, Trusted(ex), found)
    ensures Leads(cfg, db, AtMatch(e, ex), Turn(at, Answer(true).(found := found)), db,
                  if found.Some? then AtRecordMatch(e, ex, found.value) else AtRoute(e, ex, None))
  {
    hide IsMatch, Trusted;
  }

  lemma CandidateTurn(cfg: Config, db: Db, at: int, e: Snapshot, ex: Extraction, m: Match)
    ensures var resolution := if m.score >= cfg.autoAttach then AutoAttached else Pending;
      Leads(cfg, db, AtRecordMatch(e, ex, m), Turn(at, Answer(true)), Exec(cfg, db, RecordCandidateRow(e.id, m, resolution)), AtRoute(e, ex, Some(m)))
  {
    hide RecordCandidate;
  }

  lemma RouteTurn(cfg: Config, db: Db, at: int, e: Snapshot, ex: Extraction, dup: Option<Match>)
    ensures Leads(cfg, db, AtRoute(e, ex, dup), Turn(at, Answer(true)), db,
                  AfterRoute(e, ex, dup, Route(ex, dup, cfg.rules, cfg.confidence, cfg.autoAttach)))
  {
    hide Route;
  }

  lemma ContactTurn(cfg: Config, db: Db, at: int, e: Snapshot, ex: Extraction, dup: Option<Match>, d: Decision,
      hit: Option<nat>)
    requires IsCompanyHit(cfg.lower, db.companies, Trusted(ex), hit)
    ensures var w := Tables.UpsertContact(cfg.lower, db, e.id, Trusted(ex), Existing(dup, d), hit);
      Leads(cfg, db, AtContact(e, ex, dup, d), Turn(at, Answer(true).(company := hit)),
            if w.None? then db else Exec(cfg, db, WriteContactRow(e.id, ex, Existing(dup, d), hit)),
            if w.None? then AtFail(e) else AtOwner(e, ex, dup, d, w.value.id))
  {
    hide IsCompanyHit, Trusted, Tables.UpsertContact, Existing;
  }

  lemma OwnerTurn(cfg: Config, db: Db, at: int, e: Snapshot, ex: Extraction, dup: Option<Match>, d: Decision,
      contact: nat, rulesOk: bool)
    ensures var (team, user) := TeamAndUser(cfg, ex, dup, d, rulesOk);
      var owner := if user.None? && team != "" then Tables.PickOwner(cfg.users, db.records, team) else user;
      Leads(cfg, db, AtOwner(e, ex, dup, d, contact), Turn(at, Answer(true).(rulesOk := rulesOk)), db, AtRecord(e, ex, contact, team, owner))
  {
    hide TeamAndUser, Tables.PickOwner;
  }

  lemma RecordTurn(cfg: Config, db: Db, at: int, e: Snapshot, ex: Extraction, contact: nat, team: string, owner: Option<nat>)
    ensures var r := CrmRecord(RecordKindOf(ex.enquiryType), contact, owner, team, true, e.id);
      Leads(cfg, db, AtRecord(e, ex, contact, team, owner), Turn(at, Answer(true)),
            Exec(cfg, db, WriteRecordRow(r)), AtDraft(e, ex, Reply, Some(RecordOf(db.records, e.id))))
  {
    hide UpsertRecord;
  }

  function DraftOf(e: Snapshot, kind: MessageKind, record: Option<nat>, reply: (string, Author)): Message {
    Message(e.id, record, kind, TrimSpace(reply.0), MsgPending, reply.1, None)
  }

  lemma DraftTurn(cfg: Config, db: Db, at: int, e: Snapshot, ex: Extraction, kind: MessageKind,
      record: Option<nat>, reply: Option<(string, Author)>)
    ensures Leads(cfg, db, AtDraft(e, ex, kind, record), Turn(at, Answer(true).(reply := reply)), db,
                  if reply.None? || Blank(reply.value.0) then AtFail(e) else AtSaveDraft(e, ex, DraftOf(e, kind, record, reply.value)))
  {
    hide Blank, TrimSpace;
  }

  lemma SaveDraftTurn(cfg: Config, db: Db, at: int, e: Snapshot, ex: Extraction, draft: Message)
    ensures Leads(cfg, db, AtSaveDraft(e, ex, draft), Turn(at, Answer(true)), Exec(cfg, db, WriteDraftRow(draft)), AtRest(e, PendingApproval, Some(ex)))
  {
    hide Tables.UpsertDraft;
  }

  lemma RestTurn(cfg: Config, db: Db, at: int, e: Snapshot, status: Status, basis: Option<Extraction>)
    ensures Leads(cfg, db, AtRest(e, status, basis), Turn(at, Answer(true)), Exec(cfg, db, SetStatusRow(e.id, status)), Draining)
  {}

  lemma RetryTurn(cfg: Config, db: Db, at: int, e: Snapshot, ok: bool)
    ensures var w := if e.attempts >= cfg.maxAttempts then SetStatusRow(e.id, Failed) else RequeueRow(e.id, at, Backoff(e.attempts, cfg.pollInterval));
      Leads(cfg, db, AtFail(e), Turn(at, Answer(ok)), if ok then Exec(cfg, db, w) else db, Draining)
  {
    hide Backoff;
  }

  // ---------- the pool ----------

  /** Which of the calls of one attempt succeed, and what the language model answers. */
  datatype Calls = Calls(
    dedupe: bool, tier1: Option<Extraction>, tier2: Option<Extraction>, save: bool, find: bool, candidate: bool,
    rules: bool, contact: bool, rulesAgain: bool, owner: bool, record: bool, reply: Option<(string, Author)>,
    draft: bool, status: bool, fallback: bool)

  lemma Fails(cfg: Config, db: Db, pc: Pc, turns: seq<Turn>, d: Db, p: Pc, at: int)
    requires Path(cfg, db, pc, turns, d, p) && Holds(p).Some? && !p.AtFail?
    ensures Path(cfg, db, pc, turns + [Turn(at, Answer(false))], d, AtFail(p.e))
  {
    hide Path, Leads;
    FailedTurn(cfg, d, p, at);
    Go(cfg, db, pc, turns, d, p, Turn(at, Answer(false)), d, AtFail(p.e));
  }

  class Pool {
    const st: Store
    var token: bool

    constructor (st: Store)
      ensures this.st == st && !token
    {
      this.st := st;
      token := false;
    }

    /** Nudge the workers. A token that is already there stands for this nudge as well. */
    method Wake()
      modifies this`token
      ensures token
    {
      if !token {
        token := true;
      }
    }

    /** The team and user of the decision or, on the attach path, of the first matching rule. */
    method ResolveTeam(ex: Extraction, dup: Option<Match>, d: Decision, rulesOk: bool)
      returns (team: string, user: Option<nat>)
      ensures (team, user) == TeamAndUser(st.cfg, ex, dup, d, rulesOk)
    {
      team, user := d.team, d.owner;
      if team == "" && dup.Some? && rulesOk {
        var rules := st.cfg.rules;
        for i := 0 to |rules|
          invariant team == d.team && user == d.owner
          invariant FirstEligible(rules, ex) == FirstEligible(rules[i..], ex)
        {
          if rules[i].active && rules[i].Matches(ex) {
            return rules[i].team, rules[i].user;
          }
        }
      }
    }

    /** Stage 4: match against the CRM and record what was found. */
    method MatchStage(e: Snapshot, ex: Extraction, at: int, calls: Calls)
      returns (ok: bool, dup: Option<Match>, ghost turns: seq<Turn>)
      requires st.Valid() && e.id < |st.enquiries|
      modifies st
      ensures st.Valid() && |st.enquiries| == |old(st.enquiries)|
      ensures Path(st.cfg, old(st.Rows()), AtMatch(e, ex), turns, st.Rows(), if ok then AtRoute(e, ex, dup) else AtFail(e))
      ensures AllAt(turns, at)
    {
      hide Path, Leads, Good, IsMatch;
      ghost var was, pc := st.Rows(), AtMatch(e, ex);
      turns, dup := [], None;
      Stay(st.cfg, was, pc);
      if ex.enquiryType != TYPE_JUNK {
        if !calls.find {
          Fails(st.cfg, was, pc, turns, was, pc, at);
          return false, None, turns + [Turn(at, Answer(false))];
        }
        dup := st.MatchContact(Trusted(ex));
      }
      MatchTurn(st.cfg, was, at, e, ex, dup);
      ghost var turn := Turn(at, Answer(true).(found := dup));
      if dup.None? {
        Go(st.cfg, was, pc, turns, was, pc, turn, was, AtRoute(e, ex, None));
        return true, None, turns + [turn];
      }
      var m := dup.value;
      Go(st.cfg, was, pc, turns, was, pc, turn, was, AtRecordMatch(e, ex, m));
      turns := turns + [turn];
      if !calls.candidate {
        Fails(st.cfg, was, pc, turns, was, AtRecordMatch(e, ex, m), at);
        return false, None, turns + [Turn(at, Answer(false))];
      }
      var resolution := if m.score >= st.cfg.autoAttach then AutoAttached else Pending;
      ok := st.RecordDuplicateCandidate(e.id, m, resolution);
      IsMatchIsOk(st.cfg, was, ex, dup);
      assert ok;
      CandidateTurn(st.cfg, was, at, e, ex, m);
      Go(st.cfg, was, pc, turns, was, AtRecordMatch(e, ex, m), Turn(at, Answer(true)), st.Rows(), AtRoute(e, ex, dup));
      return true, dup, turns + [Turn(at, Answer(true))];
    }

    /** Draft a message, store it for approval, and hand the enquiry to a human. */
    method DraftAndRest(e: Snapshot, ex: Extraction, kind: MessageKind, record: Option<nat>, at: int, calls: Calls)
      returns (ok: bool, ghost turns: seq<Turn>)
      requires st.Valid() && e.id < |st.enquiries|
      modifies st
      ensures st.Valid()
      ensures Path(st.cfg, old(st.Rows()), AtDraft(e, ex, kind, record), turns, st.Rows(), if ok then Draining else AtFail(e))
      ensures AllAt(turns, at)
    {
      hide Path, Leads, Good, Exec, Blank, TrimSpace, Tables.UpsertDraft, MessageOf;
      ghost var was, pc := st.Rows(), AtDraft(e, ex, kind, record);
      Stay(st.cfg, was, pc);
      DraftTurn(st.cfg, was, at, e, ex, kind, record, calls.reply);
      ghost var drafting := Turn(at, Answer(true).(reply := calls.reply));
      if calls.reply.None? || Blank(calls.reply.value.0) {
        Go(st.cfg, was, pc, [], was, pc, drafting, was, AtFail(e));
        return false, [] + [drafting];
      }
      var draft := DraftOf(e, kind, record, calls.reply.value);
      Go(st.cfg, was, pc, [], was, pc, drafting, was, AtSaveDraft(e, ex, draft));
      turns := [] + [drafting];
      if !calls.draft {
        Fails(st.cfg, was, pc, turns, was, AtSaveDraft(e, ex, draft), at);
        return false, turns + [Turn(at, Answer(false))];
      }
      var id := st.UpsertDraft(draft);
      SaveDraftTurn(st.cfg, was, at, e, ex, draft);
      Go(st.cfg, was, pc, turns, was, AtSaveDraft(e, ex, draft), Turn(at, Answer(true)), st.Rows(), AtRest(e, PendingApproval, Some(ex)));
      turns := turns + [Turn(at, Answer(true))];
      ghost var more;
      ok, more := Rest(e, PendingApproval, Some(ex), at, calls);
      PathsJoin(st.cfg, was, pc, turns, Exec(st.cfg, was, WriteDraftRow(draft)), AtRest(e, PendingApproval, Some(ex)), more, st.Rows(), if ok then Draining else AtFail(e));
      turns := turns + more;
    }

    method Rest(e: Snapshot, status: Status, ghost basis: Option<Extraction>, at: int, calls: Calls)
      returns (ok: bool, ghost turns: seq<Turn>)
      requires st.Valid() && IsResting(status)
      modifies st
      ensures st.Valid()
      ensures Path(st.cfg, old(st.Rows()), AtRest(e, status, basis), turns, st.Rows(), if ok then Draining else AtFail(e))
      ensures AllAt(turns, at)
    {
      hide Path, Leads, Good, Exec;
      ghost var was, pc := st.Rows(), AtRest(e, status, basis);
      Stay(st.cfg, was, pc);
      if !calls.status {
        Fails(st.cfg, was, pc, [], was, pc, at);
        return false, [] + [Turn(at, Answer(false))];
      }
      st.SetStatus(e.id, status);
      RestTurn(st.cfg, was, at, e, status, basis);
      Go(st.cfg, was, pc, [], was, pc, Turn(at, Answer(true)), st.Rows(), Draining);
      return true, [] + [Turn(at, Answer(true))];
    }

    /** The CRM branch of act: contact, owner, record, reply. */
    method ActOnCrm(e: Snapshot, ex: Extraction, dup: Option<Match>, d: Decision, at: int, calls: Calls)
      returns (ok: bool, ghost turns: seq<Turn>)
      requires st.Valid() && e.id < |st.enquiries|
      modifies st
      ensures st.Valid()
      ensures Path(st.cfg, old(st.Rows()), AtContact(e, ex, dup, d), turns, st.Rows(), if ok then Draining else AtFail(e))
      ensures AllAt(turns, at)
    {
      hide Path, Leads, Good, IsCompanyHit, Trusted, TeamAndUser;
      ghost var was, pc := st.Rows(), AtContact(e, ex, dup, d);
      Stay(st.cfg, was, pc);
      if !calls.contact {
        Fails(st.cfg, was, pc, [], was, pc, at);
        return false, [] + [Turn(at, Answer(false))];
      }
      var contact, hit := st.UpsertContact(e.id, ex, Existing(dup, d));
      ContactTurn(st.cfg, was, at, e, ex, dup, d, hit);
      ghost var contacting := Turn(at, Answer(true).(company := hit));
      ghost var p1 := if contact.None? then AtFail(e) else AtOwner(e, ex, dup, d, contact.value);
      FailedWriteKeepsRows(st.cfg, was, e.id, ex, Existing(dup, d), hit);
      Go(st.cfg, was, pc, [], was, pc, contacting, st.Rows(), p1);
      turns := [] + [contacting];
      if contact.None? {
        return false, turns;
      }
      ghost var more;
      ok, more := AssignAndReply(e, ex, dup, d, contact.value, at, calls);
      hide Exec, Existing;
      PathsJoin(st.cfg, was, pc, turns, Exec(st.cfg, was, WriteContactRow(e.id, ex, Existing(dup, d), hit)), p1, more, st.Rows(), if ok then Draining else AtFail(e));
      turns := turns + more;
    }

    /** Owner, record and reply, once the contact is there. */
    method AssignAndReply(e: Snapshot, ex: Extraction, dup: Option<Match>, d: Decision, contact: nat, at: int, calls: Calls)
      returns (ok: bool, ghost turns: seq<Turn>)
      requires st.Valid() && e.id < |st.enquiries| && contact < |st.contacts|
      modifies st
      ensures st.Valid()
      ensures Path(st.cfg, old(st.Rows()), AtOwner(e, ex, dup, d, contact), turns, st.Rows(), if ok then Draining else AtFail(e))
      ensures AllAt(turns, at)
    {
      hide Path, Leads, Good, TeamAndUser, Exec;
      ghost var was, pc := st.Rows(), AtOwner(e, ex, dup, d, contact);
      Stay(st.cfg, was, pc);
      var team, user := ResolveTeam(ex, dup, d, calls.rulesAgain);
      var owner := user;
      if owner.None? && team != "" {
        if !calls.owner {
          Fails(st.cfg, was, pc, [], was, pc, at);
          return false, [] + [Turn(at, Answer(false))];
        }
        owner := st.PickOwner(team);
      }
      OwnerTurn(st.cfg, was, at, e, ex, dup, d, contact, calls.rulesAgain);
      ghost var owning, p1 := Turn(at, Answer(true).(rulesOk := calls.rulesAgain)), AtRecord(e, ex, contact, team, owner);
      Go(st.cfg, was, pc, [], was, pc, owning, was, p1);
      turns := [] + [owning];
      if !calls.record {
        Fails(st.cfg, was, pc, turns, was, p1, at);
        return false, turns + [Turn(at, Answer(false))];
      }
      var record := st.UpsertCRMRecord(RecordKindOf(ex.enquiryType), contact, owner, team, e.id);
      RecordTurn(st.cfg, was, at, e, ex, contact, team, owner);
      ghost var mid, p2 := st.Rows(), AtDraft(e, ex, Reply, Some(RecordOf(was.records, e.id)));
      Go(st.cfg, was, pc, turns, was, p1, Turn(at, Answer(true)), mid, p2);
      turns := turns + [Turn(at, Answer(true))];
      ghost var more;
      ok, more := DraftAndRest(e, ex, Reply, record, at, calls);
      PathsJoin(st.cfg, was, pc, turns, mid, p2, more, st.Rows(), if ok then Draining else AtFail(e));
      turns := turns + more;
    }

    /** act: carry out the router's decision. */
    method Act(e: Snapshot, ex: Extraction, dup: Option<Match>, d: Decision, at: int, calls: Calls)
      returns (ok: bool, ghost turns: seq<Turn>)
      requires st.Valid() && e.id < |st.enquiries|
      modifies st
      ensures st.Valid()
      ensures Path(st.cfg, old(st.Rows()), AfterRoute(e, ex, dup, d), turns, st.Rows(), if ok then Draining else AtFail(e))
      ensures AllAt(turns, at)
    {
      hide Path, Good;
      match d.action {
        case ReviewByHuman => ok, turns := Rest(e, NeedsHumanReview, Some(ex), at, calls);
        case ArchiveJunk => ok, turns := Rest(e, ArchivedJunk, Some(ex), at, calls);
        case FlagForMergeReview => ok, turns := Rest(e, NeedsHumanReview, Some(ex), at, calls);
        case DraftClarifyingQuestion => ok, turns := DraftAndRest(e, ex, ClarifyingQuestion, None, at, calls);
        case AttachToExistingContact => ok, turns := ActOnCrm(e, ex, dup, d, at, calls);
        case CreateOrUpdateCrm => ok, turns := ActOnCrm(e, ex, dup, d, at, calls);
      }
    }

    /** Stages 4 and 5 and what follows. */
    method MatchAndAct(e: Snapshot, ex: Extraction, at: int, calls: Calls) returns (ok: bool, ghost turns: seq<Turn>)
      requires st.Valid() && e.id < |st.enquiries|
      modifies st
      ensures st.Valid()
      ensures Path(st.cfg, old(st.Rows()), AtMatch(e, ex), turns, st.Rows(), if ok then Draining else AtFail(e))
      ensures AllAt(turns, at)
    {
      hide Path, Leads, Good, Route;
      ghost var was, pc := st.Rows(), AtMatch(e, ex);
      var dup;
      ok, dup, turns := MatchStage(e, ex, at, calls);
      if !ok {
        return;
      }
      ghost var mid := st.Rows();
      if !calls.rules {
        Fails(st.cfg, was, pc, turns, mid, AtRoute(e, ex, dup), at);
        return false, turns + [Turn(at, Answer(false))];
      }
      var d := RouteEnquiry(ex, dup, st.cfg.rules, st.cfg.confidence, st.cfg.autoAttach);
      RouteTurn(st.cfg, mid, at, e, ex, dup);
      Go(st.cfg, was, pc, turns, mid, AtRoute(e, ex, dup), Turn(at, Answer(true)), mid, AfterRoute(e, ex, dup, d));
      turns := turns + [Turn(at, Answer(true))];
      ghost var more;
      ok, more := Act(e, ex, dup, d, at, calls);
      PathsJoin(st.cfg, was, pc, turns, mid, AfterRoute(e, ex, dup, d), more, st.Rows(), if ok then Draining else AtFail(e));
      turns := turns + more;
    }

    /** run: the stages in order, stopping at the first error. `now` is when the attempt
        starts and `at` when it ends. */
    method Run(e: Snapshot, now: int, at: int, calls: Calls) returns (ok: bool, ghost turns: seq<Turn>)
      requires st.Valid() && e.id < |st.enquiries| && now <= at
      modifies st
      ensures st.Valid()
      ensures Path(st.cfg, old(st.Rows()), AtDedupe(e), turns, st.Rows(), if ok then Draining else AtFail(e))
      ensures Timely(now, turns, at)
    {
      hide Path, Leads, Good, HasRecentDuplicate;
      ghost var was, pc := st.Rows(), AtDedupe(e);
      Stay(st.cfg, was, pc);
      if !calls.dedupe {
        Fails(st.cfg, was, pc, [], was, pc, now);
        return false, [] + [Turn(now, Answer(false))];
      }
      var original := st.FindRecentDuplicate(e.hash, e.id, now);
      DedupeTurn(st.cfg, was, now, e);
      ghost var p1 := if original.Some? then AtRest(e, DiscardedDuplicate, None) else AtExtract(e);
      Go(st.cfg, was, pc, [], was, pc, Turn(now, Answer(true)), was, p1);
      turns := [] + [Turn(now, Answer(true))];
      ghost var more;
      if original.Some? {
        ok, more := Rest(e, DiscardedDuplicate, None, at, calls);
      } else {
        ok, more := ExtractAndAct(e, at, calls);
      }
      PathsJoin(st.cfg, was, pc, turns, was, p1, more, st.Rows(), if ok then Draining else AtFail(e));
      turns := turns + more;
    }

    /** Stage 3 and what follows. */
    method ExtractAndAct(e: Snapshot, at: int, calls: Calls) returns (ok: bool, ghost turns: seq<Turn>)
      requires st.Valid() && e.id < |st.enquiries|
      modifies st
      ensures st.Valid()
      ensures Path(st.cfg, old(st.Rows()), AtExtract(e), turns, st.Rows(), if ok then Draining else AtFail(e))
      ensures AllAt(turns, at)
    {
      hide Path, Leads, Good, Extract, Exec;
      ghost var was, pc := st.Rows(), AtExtract(e);
      Stay(st.cfg, was, pc);
      var r := ExtractEnquiry(st.cfg.lower, calls.tier1, calls.tier2, st.cfg.confidence, e.text);
      ExtractTurn(st.cfg, was, at, e, calls.tier1, calls.tier2);
      ghost var asking := Turn(at, Answer(true).(tier1 := calls.tier1, tier2 := calls.tier2));
      Go(st.cfg, was, pc, [], was, pc, asking, was, if r.None? then AtFail(e) else AtSave(e, r.value));
      turns := [] + [asking];
      if r.None? {
        return false, turns;
      }
      if !calls.save {
        Fails(st.cfg, was, pc, turns, was, AtSave(e, r.value), at);
        return false, turns + [Turn(at, Answer(false))];
      }
      ok := st.SaveExtraction(e.id, r.value);
      SaveTurn(st.cfg, was, at, e, r.value);
      ghost var mid := st.Rows();
      Go(st.cfg, was, pc, turns, was, AtSave(e, r.value), Turn(at, Answer(true)), mid, AtMatch(e, r.value));
      turns := turns + [Turn(at, Answer(true))];
      ghost var more;
      ok, more := MatchAndAct(e, r.value, at, calls);
      PathsJoin(st.cfg, was, pc, turns, mid, AtMatch(e, r.value), more, st.Rows(), if ok then Draining else AtFail(e));
      turns := turns + more;
    }

    /** fail: retry with exponential backoff, then dead-letter. Its own errors are ignored. */
    method Fail(e: Snapshot, at: int, calls: Calls) returns (ghost turn: Turn)
      requires st.Valid()
      modifies st
      ensures st.Valid() && Leads(st.cfg, old(st.Rows()), AtFail(e), turn, st.Rows(), Draining)
      ensures turn.at == at
    {
      hide Leads, Good, Exec;
      RetryTurn(st.cfg, st.Rows(), at, e, calls.fallback);
      turn := Turn(at, Answer(calls.fallback));
      if calls.fallback {
        if e.attempts >= st.cfg.maxAttempts {
          st.SetStatus(e.id, Failed);
        } else {
          st.Requeue(e.id, at, Backoff(e.attempts, st.cfg.pollInterval));
        }
      }
    }

    /** process: any error of run goes to fail. */
    method Process(e: Snapshot, now: int, at: int, calls: Calls) returns (ghost turns: seq<Turn>)
      requires st.Valid() && e.id < |st.enquiries| && now <= at
      modifies st
      ensures st.Valid() && Path(st.cfg, old(st.Rows()), AtDedupe(e), turns, st.Rows(), Draining)
      ensures Timely(now, turns, at)
    {
      hide Path, Leads, Good;
      ghost var was := st.Rows();
      var ok;
      ok, turns := Run(e, now, at, calls);
      if !ok {
        ghost var mid := st.Rows();
        ghost var turn := Fail(e, at, calls);
        Go(st.cfg, was, AtDedupe(e), turns, mid, AtFail(e), turn, st.Rows(), Draining);
        turns := turns + [turn];
      }
    }

    /** One round of the drain loop: claim the next due enquiry and process it, or go to
        sleep because the claim failed or nothing is due. */
    method DrainOnce(claimOk: bool, now: int, at: int, calls: Calls) returns (again: bool, ghost turns: seq<Turn>)
      requires st.Valid() && now <= at
      modifies st
      ensures st.Valid()
      ensures Path(st.cfg, old(st.Rows()), Draining, turns, st.Rows(), if again then Draining else Waiting)
      ensures !again ==> st.Rows() == old(st.Rows())
      ensures again <==> claimOk && exists i | 0 <= i < |old(st.enquiries)| :: Claimable(old(st.enquiries)[i], now)
      ensures Timely(now, turns, at)
    {
      hide Path, Leads, Good, Exec, Claimable;
      ghost var was := st.Rows();
      Stay(st.cfg, was, Draining);
      if !claimOk {
        ClaimFailedTurn(st.cfg, was, now);
        Go(st.cfg, was, Draining, [], was, Draining, Turn(now, Answer(false)), was, Waiting);
        return false, [] + [Turn(now, Answer(false))];
      }
      var e := st.ClaimEnquiry(now);
      if e.None? {
        NothingDueTurn(st.cfg, was, now);
        Go(st.cfg, was, Draining, [], was, Draining, Turn(now, Answer(true)), was, Waiting);
        return false, [] + [Turn(now, Answer(true))];
      }
      ghost var mid, claim := st.Rows(), Turn(now, Answer(true).(row := Some(e.value.id)));
      ClaimTurn(st.cfg, was, now, e.value.id);
      Go(st.cfg, was, Draining, [], was, Draining, claim, mid, AtDedupe(e.value));
      turns := Process(e.value, now, at, calls);
      PathsJoin(st.cfg, was, Draining, [] + [claim], mid, AtDedupe(e.value), turns, st.Rows(), Draining);
      return true, [] + [claim] + turns;
    }
  }

  lemma FailedWriteKeepsRows(cfg: Config, db: Db, enquiry: nat, ex: Extraction, existing: Option<nat>, hit: Option<nat>)
    ensures Tables.UpsertContact(cfg.lower, db, enquiry, Trusted(ex), existing, hit).None? ==>
      Exec(cfg, db, WriteContactRow(enquiry, ex, existing, hit)) == db
  {
    hide Tables.UpsertContact, Trusted;
  }

  lemma Stay(cfg: Config, db: Db, pc: Pc)
    ensures Path(cfg, db, pc, [], db, pc)
  {}
}
