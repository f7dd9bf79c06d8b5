/** internal/api: the guards in front of the store. */
module Gateway {
  import opened Base
  import opened Text
  import opened Ingest
  import opened Payloads
  import opened Model
  import opened Grounding
  import opened Tables
  import opened System
  import opened Storage
  import opened Workers

  const OK := 200
  const ACCEPTED := 202
  const BAD_REQUEST := 400
  const FORBIDDEN := 403
  const NOT_FOUND := 404
  const CONFLICT := 409
  const INTERNAL_ERROR := 500

  /** The request may be carried out if its message is still open. */
  predicate Admissible(cfg: Config, db: Db, m: nat, actor: nat, decision: string, body: string) {
    && MayDecide(cfg, db, m, actor)
    && VerdictOf(decision).Some? && SubmittedBody(VerdictOf(decision).value, body).Some?
  }

  /** Another team's message, or a manager asking. */
  predicate Forbidden(cfg: Config, db: Db, m: nat, actor: nat)
    requires actor < |cfg.users|
  {
    var u := cfg.users[actor];
    u.role == Manager || (ScopeTeam(u) != "" && m < |db.messages| && MessageTeam(db, m) != ScopeTeam(u))
  }

  function ReceivedNote(id: nat): AuditRow {
    AuditRow(id, OtherAction("received"), id, None)
  }

  class Server {
    const st: Store
    const pool: Pool

    constructor (st: Store, pool: Pool)
      requires pool.st == st
      ensures this.st == st && this.pool == pool
    {
      this.st := st;
      this.pool := pool;
    }

    /** Store the enquiry and wake a worker, or answer a redelivery with the original's id. */
    method HandleWebhook(now: int, lib: Library, p: Payload) returns (code: int, id: nat)
      requires st.Valid()
      modifies st, pool
      ensures st.Valid() && code in {ACCEPTED, OK, BAD_REQUEST}
      ensures code == BAD_REQUEST <==> Normalized(st.cfg.lower, lib, p).None?
      ensures code == ACCEPTED ==>
        var t := Normalized(st.cfg.lower, lib, p).value;
        && id == |old(st.enquiries)| && st.enquiries == old(st.enquiries) + [NewEnquiry(now, t)]
        && st.Rows() == old(st.Rows()).(enquiries := st.enquiries, audit := old(st.audit) + [ReceivedNote(id)])
        && pool.token
      ensures code == OK ==>
        id < |st.enquiries| && st.enquiries[id].key == Normalized(st.cfg.lower, lib, p).value.key
      ensures code != ACCEPTED ==> st.Rows() == old(st.Rows()) && pool.token == old(pool.token)
    {
      hide Good, Normalized;
      id := 0;
      var t := Normalize(st.cfg.lower, lib, p);
      if t.None? {
        return BAD_REQUEST, 0;
      }
      var inserted := st.InsertEnquiry(now, t.value);
      if inserted.None? {
        var original := st.EnquiryByIdempotencyKey(t.value.key);
        return OK, original.value;
      }
      id := inserted.value;
      st.Audit(ReceivedNote(id));
      pool.Wake();
      return ACCEPTED, id;
    }

    /** The human approval gate. */
    method HandleDecision(now: int, m: nat, actor: nat, decision: string, body: string) returns (code: int)
      requires st.Valid() && actor < |st.cfg.users|
      modifies st
      ensures st.Valid() && code in {OK, BAD_REQUEST, FORBIDDEN, NOT_FOUND, CONFLICT}
      ensures code == OK <==>
        Admissible(st.cfg, old(st.Rows()), m, actor, decision, body) && Undecided(old(st.messages)[m].status)
      ensures code == CONFLICT <==>
        Admissible(st.cfg, old(st.Rows()), m, actor, decision, body) && !Undecided(old(st.messages)[m].status)
      ensures code == FORBIDDEN <==> Forbidden(st.cfg, old(st.Rows()), m, actor)
      ensures code == OK ==>
        var verdict := VerdictOf(decision).value;
        st.Rows() == Exec(st.cfg, old(st.Rows()), DecideRow(m, actor, verdict, SubmittedBody(verdict, body).value, now))
      ensures code != OK ==> st.Rows() == old(st.Rows())
    {
      hide Good, Exec, Blank, TrimSpace, VerdictOf, MessageTeam;
      var u := st.cfg.users[actor];
      if u.role == Manager {
        return FORBIDDEN;
      }
      if ScopeTeam(u) != "" {
        var team := st.TeamOfMessage(m);
        if team.None? {
          return NOT_FOUND;
        }
        if team.value != ScopeTeam(u) {
          return FORBIDDEN;
        }
      }
      var verdict := VerdictOf(decision);
      if verdict.None? {
        return BAD_REQUEST;
      }
      var text := TrimSpace(body);
      BlankIs(body);
      if verdict.value == ApprovedWithEdit {
        if text == "" {
          return BAD_REQUEST;
        }
      } else {
        text := "";
      }
      var r := st.Approve(m, actor, decision, text, now);
      if r == NotPending {
        return CONFLICT;
      }
      if r != Decided {
        return BAD_REQUEST;
      }
      return OK;
    }

    /** Record the human's resolution, put the enquiry back in the queue, and wake a worker. */
    method HandleResolveDuplicate(now: int, c: nat, actor: nat, resolution: string, requeueOk: bool) returns (code: int)
      requires st.Valid() && actor < |st.cfg.users|
      modifies st, pool
      ensures st.Valid() && code in {OK, BAD_REQUEST, FORBIDDEN, INTERNAL_ERROR}
      ensures code == FORBIDDEN <==> st.cfg.users[actor].role == Manager
      ensures code == OK || code == INTERNAL_ERROR <==>
        && st.cfg.users[actor].role != Manager && ResolutionOf(resolution).Some?
        && c < |old(st.candidates)| && old(st.candidates)[c].resolution == Pending
      ensures code == FORBIDDEN || code == BAD_REQUEST ==> st.Rows() == old(st.Rows()) && pool.token == old(pool.token)
      ensures code == OK || code == INTERNAL_ERROR ==>
        && st.candidates == old(st.candidates)[c := old(st.candidates)[c].(resolution := ResolutionOf(resolution).value, resolvedBy := Some(actor))]
        && st.Rows() == old(st.Rows()).(candidates := st.candidates, audit := st.audit, enquiries := st.enquiries)
        && old(st.audit) <= st.audit && (code == INTERNAL_ERROR ==> st.enquiries == old(st.enquiries))
      ensures code == OK ==>
        && pool.token && requeueOk
        && var e := old(st.candidates)[c].enquiry;
           e < |old(st.enquiries)| ==> st.enquiries == old(st.enquiries)[e := RequeuedRow(old(st.enquiries)[e], now, 0)]
    {
      hide Good;
      if st.cfg.users[actor].role == Manager {
        return FORBIDDEN;
      }
      var r := st.ResolveDuplicate(c, actor, resolution);
      if !r.Resolved? {
        return BAD_REQUEST;
      }
      st.Audit(AuditRow(r.enquiry, OtherAction("duplicate_resolved_" + resolution), c, Some(actor)));
      if !requeueOk {
        return INTERNAL_ERROR;
      }
      st.Requeue(r.enquiry, now, 0);
      pool.Wake();
      return OK;
    }
  }

  lemma BlankIs(s: string)
    ensures Blank(s) <==> TrimSpace(s) == ""
  {}

  lemma ClearedHoldsNothing(rs: seq<Reviewer>, r: nat, c: Reviewer, m: nat)
    requires r < |rs| && !c.Holding? && m !in Locked(rs)
    ensures m !in Locked(rs[r := c])
  {
    var after := rs[r := c];
    forall i | 0 <= i < |after| && after[i].Holding? ensures after[i].message != m {
      assert rs[i].message in Locked(rs);
    }
  }

  /** A request that gets through the guards is the three events of a reviewer, one after the
      other: pass the guards, lock the row, commit. */
  lemma DecisionIsARun(cfg: Config, s: State, r: nat, m: nat, actor: nat, verdict: Verdict, body: string)
    requires r < |s.reviewers| && s.reviewers[r].Idle? && m !in Locked(s.reviewers)
    requires MayDecide(cfg, s.db, m, actor) && SubmittedBody(verdict, body).Some? && Undecided(s.db.messages[m].status)
    ensures var t := Apply(cfg, Apply(cfg, Apply(cfg, s, Begin(r, m, actor, verdict, body)), Lock(r)), Commit(r));
      && t.db == Exec(cfg, s.db, DecideRow(m, actor, verdict, SubmittedBody(verdict, body).value, s.now))
      && t.reviewers == s.reviewers && t.workers == s.workers
  {
    hide Approve, WorkerStep, TrimSpace, Blank, MessageTeam;
    var s1 := Apply(cfg, s, Begin(r, m, actor, verdict, body));
    assert s1.db == s.db && s1.reviewers == s.reviewers[r := Cleared(m, actor, verdict, SubmittedBody(verdict, body).value)];
    ClearedHoldsNothing(s.reviewers, r, s1.reviewers[r], m);
    var s2 := Apply(cfg, s1, Lock(r));
    assert s2.db == s.db && s2.reviewers[r].Holding?;
    assert s.reviewers[r := Idle] == s.reviewers;
  }
}
