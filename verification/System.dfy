/** The concurrent step system: workers of internal/worker, reviewers of
    internal/api/dashboard.go and the webhook of internal/api/server.go, all sharing
    one database, one clock and one capacity-1 wake channel.

    A worker's program counter carries its local variables. Every step issues at most
    one database statement. Answers that come from outside (the language model, which
    of several equally good rows a query returns, whether a call fails) are supplied
    by an oracle; a step whose oracle answer is impossible does nothing. */
module System {
  import opened Base
  import opened Text
  import opened Ingest
  import opened Model
  import opened Router
  import opened Grounding
  import opened Tables

  // ---------- contact matching ----------

  /** The identifier comparison of the e-mail and phone queries. */
  predicate EmailMatches(f: CaseMap, row: Contact, c: ContactInfo) {
    c.email.Some? && !Blank(c.email.value) && HasEmail(f, row, c.email.value)
  }

  predicate PhoneMatches(row: Contact, c: ContactInfo) {
    c.phone.Some? && |Digits(c.phone.value)| >= 7 && Digits(OrEmpty(row.phone)) == Digits(c.phone.value)
  }

  predicate ExactlyMatches(f: CaseMap, row: Contact, c: ContactInfo) {
    EmailMatches(f, row, c) || PhoneMatches(row, c)
  }

  predicate FuzzyMatches(cfg: Config, row: Contact, c: ContactInfo) {
    && c.name.Some? && !Blank(c.name.value)
    && row.name.Some? && cfg.similarity(row.name.value, c.name.value) >= cfg.trgmFloor
  }

  const EMAIL_SCORE := 1.0
  const PHONE_SCORE := 0.99
  const FUZZY_CAP := 0.94

  /** Name similarity, boosted when both sides name a company, capped below auto-attach. */
  function FuzzyScore(cfg: Config, companies: seq<Company>, row: Contact, c: ContactInfo): real
    requires c.name.Some? && row.name.Some?
  {
    var boost := if HasText(c.company) && row.company.Some? && row.company.value < |companies|
                 then 0.15 * cfg.similarity(companies[row.company.value].name, c.company.value) else 0.0;
    var score := cfg.similarity(row.name.value, c.name.value) + boost;
    if score < FUZZY_CAP then score else FUZZY_CAP
  }

  /** m is an answer MatchContact may give. */
  ghost predicate IsMatch(cfg: Config, db: Db, c: ContactInfo, m: Option<Match>) {
    var cs := db.contacts;
    if exists i | 0 <= i < |cs| :: EmailMatches(cfg.lower, cs[i], c) then
      m.Some? && m.value.contact < |cs| && EmailMatches(cfg.lower, cs[m.value.contact], c)
      && m.value.score == EMAIL_SCORE && m.value.how == EmailExact
    else if exists i | 0 <= i < |cs| :: PhoneMatches(cs[i], c) then
      m.Some? && m.value.contact < |cs| && PhoneMatches(cs[m.value.contact], c)
      && m.value.score == PHONE_SCORE && m.value.how == PhoneExact
    else if exists i | 0 <= i < |cs| :: FuzzyMatches(cfg, cs[i], c) then
      && m.Some? && m.value.contact < |cs| && FuzzyMatches(cfg, cs[m.value.contact], c)
      && m.value.score == FuzzyScore(cfg, db.companies, cs[m.value.contact], c)
      && m.value.how == (if HasText(c.company) then TrgmNameCompany else TrgmName)
      && forall j | 0 <= j < |cs| && FuzzyMatches(cfg, cs[j], c) :: FuzzyScore(cfg, db.companies, cs[j], c) <= m.value.score
    else m.None?
  }

  /** The match query reads contacts and companies only. */
  lemma MatchReadsContacts(cfg: Config, db: Db, db': Db, c: ContactInfo, m: Option<Match>)
    requires db.contacts == db'.contacts && db.companies == db'.companies
    ensures IsMatch(cfg, db, c, m) == IsMatch(cfg, db', c, m)
  {
    hide EmailMatches, PhoneMatches, FuzzyMatches, FuzzyScore;
  }

  // ---------- worker state ----------

  /** The columns ClaimEnquiry returns. */
  datatype Snapshot = Snapshot(id: nat, text: string, hash: string, attempts: nat)

  function SnapshotOf(es: seq<Enquiry>, id: nat): Snapshot
    requires id < |es|
  {
    Snapshot(id, es[id].text, es[id].hash, es[id].attempts)
  }

  datatype Pc =
    | Draining
    | Waiting
    | Stopped
    | AtDedupe(e: Snapshot)
    | AtExtract(e: Snapshot)
    | AtSave(e: Snapshot, ex: Extraction)
    | AtMatch(e: Snapshot, ex: Extraction)
    | AtRecordMatch(e: Snapshot, ex: Extraction, found: Match)
    | AtRoute(e: Snapshot, ex: Extraction, dup: Option<Match>)
    | AtContact(e: Snapshot, ex: Extraction, dup: Option<Match>, d: Decision)
    | AtOwner(e: Snapshot, ex: Extraction, dup: Option<Match>, d: Decision, contact: nat)
    | AtRecord(e: Snapshot, ex: Extraction, contact: nat, team: string, owner: Option<nat>)
    | AtDraft(e: Snapshot, ex: Extraction, kind: MessageKind, record: Option<nat>)
    | AtSaveDraft(e: Snapshot, ex: Extraction, draft: Message)
    | AtRest(e: Snapshot, status: Status, basis: Option<Extraction>)
    | AtFail(e: Snapshot)

  /** The enquiry a worker is processing. */
  function Holds(pc: Pc): Option<Snapshot> {
    if pc.Draining? || pc.Waiting? || pc.Stopped? then None else Some(pc.e)
  }

  /** ok: the calls of this step succeed. rulesOk: the second read of the rules does. */
  datatype Oracle = Oracle(
    ok: bool, rulesOk: bool, row: Option<nat>, tier1: Option<Extraction>, tier2: Option<Extraction>,
    found: Option<Match>, company: Option<nat>, reply: Option<(string, Author)>)

  datatype Move = Move(write: Write, next: Pc)

  // ---------- retry ----------

  function Pow2(n: nat): nat {
    if n == 0 then 1 else 2 * Pow2(n - 1)
  }

  const TWO_63: int := 0x8000_0000_0000_0000
  const TWO_64: int := 0x1_0000_0000_0000_0000

  /** The value of an int64 computation whose exact result is n. */
  function Wrap64(n: int): int {
    (n + TWO_63) % TWO_64 - TWO_63
  }

  /** time.Duration(math.Pow(2, attempts)) * PollInterval. The conversion from floating
      point yields the least int64 once the power no longer fits. */
  function Backoff(attempts: nat, poll: nat): int {
    Wrap64((if Pow2(attempts) < TWO_63 then Pow2(attempts) else -TWO_63) * poll)
  }

  // ---------- one worker step ----------

  function AfterRoute(e: Snapshot, ex: Extraction, dup: Option<Match>, d: Decision): Pc {
    match d.action
    case ReviewByHuman => AtRest(e, NeedsHumanReview, Some(ex))
    case FlagForMergeReview => AtRest(e, NeedsHumanReview, Some(ex))
    case ArchiveJunk => AtRest(e, ArchivedJunk, Some(ex))
    case DraftClarifyingQuestion => AtDraft(e, ex, ClarifyingQuestion, None)
    case AttachToExistingContact => AtContact(e, ex, dup, d)
    case CreateOrUpdateCrm => AtContact(e, ex, dup, d)
  }

  /** Whom UpsertContact is told to attach to. */
  function Existing(dup: Option<Match>, d: Decision): Option<nat> {
    if d.action == AttachToExistingContact && dup.Some? then Some(dup.value.contact) else None
  }

  /** Team and named user: from the decision or, on the attach path, from the first
      eligible rule in the order the store returns them. */
  function TeamAndUser(cfg: Config, ex: Extraction, dup: Option<Match>, d: Decision, rulesOk: bool): (string, Option<nat>) {
    if d.team == "" && dup.Some? && rulesOk && FirstEligible(cfg.rules, ex).Some?
    then (FirstEligible(cfg.rules, ex).value.team, FirstEligible(cfg.rules, ex).value.user)
    else (d.team, d.owner)
  }

  /** What worker step pc does when the message rows in `locked` are held by reviewers.
      None: the oracle's answer is not one the step can get, or the step is blocked. */
  ghost function WorkerStep(cfg: Config, db: Db, now: int, locked: set<nat>, pc: Pc, o: Oracle): Option<Move> {
    match pc
    case Draining =>
      if !o.ok then Some(Move(NoWrite, Waiting))
      else if o.row.None? then
        if exists i | 0 <= i < |db.enquiries| :: Claimable(db.enquiries[i], now) then None else Some(Move(NoWrite, Waiting))
      else if IsOldestClaimable(db.enquiries, now, o.row.value) then
        var s := SnapshotOf(db.enquiries, o.row.value);
        Some(Move(ClaimRow(o.row.value, now), AtDedupe(s.(attempts := s.attempts + 1))))
      else None
    case Waiting => None
    case Stopped => None
    case AtFail(e) =>
      var next := if e.attempts >= cfg.maxAttempts then SetStatusRow(e.id, Failed)
                  else RequeueRow(e.id, now, Backoff(e.attempts, cfg.pollInterval));
      Some(Move(if o.ok then next else NoWrite, Draining))
    case _ =>
      if !o.ok then Some(Move(NoWrite, AtFail(pc.e))) else StageStep(cfg, db, now, locked, pc, o)
  }

  /** The stages of run and act, when nothing fails. */
  ghost function StageStep(cfg: Config, db: Db, now: int, locked: set<nat>, pc: Pc, o: Oracle): Option<Move> {
    match pc
    case AtDedupe(e) => Some(DedupeStep(cfg, db, now, e))
    case AtExtract(e) => Some(ExtractStep(cfg, e, o))
    case AtSave(e, ex) => Some(Move(SaveExtractionRow(e.id, ex), AtMatch(e, ex)))
    case AtMatch(e, ex) => MatchStep(cfg, db, e, ex, o)
    case AtRecordMatch(e, ex, m) => Some(RecordMatchStep(cfg, e, ex, m))
    case AtRoute(e, ex, dup) => Some(RouteStep(cfg, e, ex, dup))
    case AtContact(e, ex, dup, d) => ContactStep(cfg, db, e, ex, dup, d, o)
    case AtOwner(e, ex, dup, d, contact) => Some(OwnerStep(cfg, db, e, ex, dup, d, contact, o))
    case AtRecord(e, ex, contact, team, owner) => Some(RecordStep(db, e, ex, contact, team, owner))
    case AtDraft(e, ex, kind, record) => Some(DraftStep(e, ex, kind, record, o))
    case AtSaveDraft(e, ex, draft) => SaveDraftStep(db, locked, e, ex, draft)
    case AtRest(e, status, _) => Some(Move(SetStatusRow(e.id, status), Draining))
    case _ => None
  }

  function DedupeStep(cfg: Config, db: Db, now: int, e: Snapshot): Move {
    Move(NoWrite, if HasRecentDuplicate(db.enquiries, e.hash, e.id, now, cfg.dedupeWindow)
                  then AtRest(e, DiscardedDuplicate, None) else AtExtract(e))
  }

  function ExtractStep(cfg: Config, e: Snapshot, o: Oracle): Move {
    var r := Extract(cfg.lower, o.tier1, o.tier2, cfg.confidence, e.text);
    Move(NoWrite, if r.None? then AtFail(e) else AtSave(e, r.value))
  }

  ghost function MatchStep(cfg: Config, db: Db, e: Snapshot, ex: Extraction, o: Oracle): Option<Move> {
    if ex.enquiryType == TYPE_JUNK then Some(Move(NoWrite, AtRoute(e, ex, None)))
    else if !IsMatch(cfg, db, Trusted(ex), o.found) then None
    else Some(Move(NoWrite, if o.found.Some? then AtRecordMatch(e, ex, o.found.value) else AtRoute(e, ex, None)))
  }

  function RecordMatchStep(cfg: Config, e: Snapshot, ex: Extraction, m: Match): Move {
    Move(RecordCandidateRow(e.id, m, if m.score >= cfg.autoAttach then AutoAttached else Pending), AtRoute(e, ex, Some(m)))
  }

  function RouteStep(cfg: Config, e: Snapshot, ex: Extraction, dup: Option<Match>): Move {
    Move(NoWrite, AfterRoute(e, ex, dup, Route(ex, dup, cfg.rules, cfg.confidence, cfg.autoAttach)))
  }

  function ContactStep(cfg: Config, db: Db, e: Snapshot, ex: Extraction, dup: Option<Match>, d: Decision,
      o: Oracle): Option<Move> {
    if !IsCompanyHit(cfg.lower, db.companies, Trusted(ex), o.company) then None
    else
      var r := UpsertContact(cfg.lower, db, e.id, Trusted(ex), Existing(dup, d), o.company);
      Some(if r.None? then Move(NoWrite, AtFail(e))
           else Move(WriteContactRow(e.id, ex, Existing(dup, d), o.company), AtOwner(e, ex, dup, d, r.value.id)))
  }

  function OwnerStep(cfg: Config, db: Db, e: Snapshot, ex: Extraction, dup: Option<Match>, d: Decision,
      contact: nat, o: Oracle): Move {
    var (team, user) := TeamAndUser(cfg, ex, dup, d, o.rulesOk);
    var owner := if user.None? && team != "" then PickOwner(cfg.users, db.records, team) else user;
    Move(NoWrite, AtRecord(e, ex, contact, team, owner))
  }

  function RecordStep(db: Db, e: Snapshot, ex: Extraction, contact: nat, team: string, owner: Option<nat>): Move {
    Move(WriteRecordRow(CrmRecord(RecordKindOf(ex.enquiryType), contact, owner, team, true, e.id)),
         AtDraft(e, ex, Reply, Some(RecordOf(db.records, e.id))))
  }

  function DraftStep(e: Snapshot, ex: Extraction, kind: MessageKind, record: Option<nat>, o: Oracle): Move {
    Move(NoWrite, if o.reply.None? || Blank(o.reply.value.0) then AtFail(e)
         else AtSaveDraft(e, ex, Message(e.id, record, kind, TrimSpace(o.reply.value.0), MsgPending, o.reply.value.1, None)))
  }

  function SaveDraftStep(db: Db, locked: set<nat>, e: Snapshot, ex: Extraction, draft: Message): Option<Move> {
    if MessageOf(db.messages, draft.enquiry, draft.kind) in locked then None
    else Some(Move(WriteDraftRow(draft), AtRest(e, PendingApproval, Some(ex))))
  }

  // ---------- reviewers ----------

  /** A reviewer has passed the guards of handleDecision (Cleared), then holds the row
      lock of the Approve transaction (Holding). `body` is empty unless the reviewer
      edits; `seen` is the body under the lock. */
  datatype Reviewer =
    | Idle
    | Cleared(message: nat, actor: nat, verdict: Verdict, body: string)
    | Holding(message: nat, actor: nat, verdict: Verdict, body: string, seen: string)

  function ScopeTeam(u: User): string {
    if u.role == OpsAdmin || u.role == Manager then "" else u.team
  }

  function MessageTeam(db: Db, m: nat): string {
    if m < |db.messages| && db.messages[m].record.Some? && db.messages[m].record.value < |db.records|
    then db.records[db.messages[m].record.value].team else ""
  }

  /** The body handleDecision hands to Approve. None: the request is rejected. */
  function SubmittedBody(verdict: Verdict, body: string): Option<string> {
    if verdict != ApprovedWithEdit then Some("") else if Blank(body) then None else Some(TrimSpace(body))
  }

  predicate MayDecide(cfg: Config, db: Db, m: nat, actor: nat) {
    && actor < |cfg.users| && cfg.users[actor].role != Manager
    && m < |db.messages|
    && (ScopeTeam(cfg.users[actor]) == "" || MessageTeam(db, m) == ScopeTeam(cfg.users[actor]))
  }

  // ---------- the whole system ----------

  /** `log` is every statement executed so far. `woken` are the enquiries that were
      queued with no delay, then followed by Wake, and not touched in the queue since. */
  datatype State = State(
    db: Db, now: int, token: bool, closing: bool, woken: set<nat>,
    workers: seq<Pc>, reviewers: seq<Reviewer>, log: seq<Write>)

  datatype Event =
    | Tick(delay: nat)
    | Deliver(sender: string, body: string, clientKey: string)
    | Wake(id: nat)
    | Work(worker: nat, oracle: Oracle)
    | TakeToken(worker: nat)
    | Poll(worker: nat)
    | Close
    | Stop(worker: nat, released: bool)
    | Restart
    | Begin(reviewer: nat, message: nat, actor: nat, verdict: Verdict, body: string)
    | Lock(reviewer: nat)
    | Commit(reviewer: nat)
    | Rollback(reviewer: nat)
    | Resolve(candidate: nat, actor: nat, resolution: Resolution)
    | RequeueResolved(candidate: nat)
    | Note(row: AuditRow)

  function Locked(rs: seq<Reviewer>): set<nat> {
    set r | 0 <= r < |rs| && rs[r].Holding? :: rs[r].message
  }

  /** The statement an event executes. */
  ghost function Emit(cfg: Config, s: State, a: Event): Write {
    match a
    case Deliver(sender, body, clientKey) =>
      var t := Accept(cfg.lower, sender, body, clientKey);
      if t.Some? then InsertEnquiryRow(s.now, t.value) else NoWrite
    case Work(i, o) =>
      if i < |s.workers| then
        var m := WorkerStep(cfg, s.db, s.now, Locked(s.reviewers), s.workers[i], o);
        if m.Some? then m.value.write else NoWrite
      else NoWrite
    case Stop(i, released) =>
      if s.closing && released && i < |s.workers| && Holds(s.workers[i]).Some?
      then RequeueRow(Holds(s.workers[i]).value.id, s.now, 0) else NoWrite
    case Commit(r) =>
      if r < |s.reviewers| && s.reviewers[r].Holding? then
        var h := s.reviewers[r];
        DecideRow(h.message, h.actor, h.verdict, h.body, s.now)
      else NoWrite
    case Resolve(c, actor, resolution) =>
      if actor < |cfg.users| && cfg.users[actor].role != Manager && (resolution == Attached || resolution == Separate)
      then ResolveRow(c, actor, resolution) else NoWrite
    case RequeueResolved(c) =>
      if c < |s.db.candidates| && (s.db.candidates[c].resolution == Attached || s.db.candidates[c].resolution == Separate)
      then RequeueRow(s.db.candidates[c].enquiry, s.now, 0) else NoWrite
    case Note(row) => if row.action.OtherAction? then AppendAudit(row) else NoWrite
    case _ => NoWrite
  }

  ghost function WorkersAfter(cfg: Config, s: State, a: Event): seq<Pc> {
    match a
    case Work(i, o) =>
      if i < |s.workers| then
        var m := WorkerStep(cfg, s.db, s.now, Locked(s.reviewers), s.workers[i], o);
        if m.Some? then s.workers[i := m.value.next] else s.workers
      else s.workers
    case TakeToken(i) => if s.token && i < |s.workers| && s.workers[i].Waiting? then s.workers[i := Draining] else s.workers
    case Poll(i) => if i < |s.workers| && s.workers[i].Waiting? then s.workers[i := Draining] else s.workers
    case Stop(i, _) => if s.closing && i < |s.workers| then s.workers[i := Stopped] else s.workers
    case Restart => seq(|s.workers|, _ => Draining)
    case _ => s.workers
  }

  function ReviewersAfter(cfg: Config, s: State, a: Event): seq<Reviewer> {
    match a
    case Begin(r, m, actor, verdict, body) =>
      if r < |s.reviewers| && s.reviewers[r].Idle? && MayDecide(cfg, s.db, m, actor) && SubmittedBody(verdict, body).Some?
      then s.reviewers[r := Cleared(m, actor, verdict, SubmittedBody(verdict, body).value)] else s.reviewers
    case Lock(r) =>
      if r < |s.reviewers| && s.reviewers[r].Cleared? && s.reviewers[r].message < |s.db.messages|
         && s.reviewers[r].message !in Locked(s.reviewers) then
        var c, row := s.reviewers[r], s.db.messages[s.reviewers[r].message];
        s.reviewers[r := if Undecided(row.status) then Holding(c.message, c.actor, c.verdict, c.body, row.body) else Idle]
      else s.reviewers
    case Commit(r) => if r < |s.reviewers| && s.reviewers[r].Holding? then s.reviewers[r := Idle] else s.reviewers
    case Rollback(r) => if r < |s.reviewers| then s.reviewers[r := Idle] else s.reviewers
    case Restart => seq(|s.reviewers|, _ => Idle)
    case _ => s.reviewers
  }

  function TokenAfter(s: State, a: Event): bool {
    match a
    case Wake(_) => true
    case TakeToken(i) => if i < |s.workers| && s.workers[i].Waiting? then false else s.token
    case Restart => false
    case _ => s.token
  }

  /** Claiming, requeueing or resting an enquiry ends what its last Wake stood for. */
  function WokenAfter(s: State, a: Event, w: Write): set<nat> {
    match a
    case Wake(id) =>
      if id < |s.db.enquiries| && s.db.enquiries[id].status == Received && s.db.enquiries[id].nextAttemptAt <= s.now
      then s.woken + {id} else s.woken
    case _ => if w.ClaimRow? || w.RequeueRow? || w.SetStatusRow? then s.woken - {w.id} else s.woken
  }

  ghost function Apply(cfg: Config, s: State, a: Event): State {
    var w := Emit(cfg, s, a);
    State(
      Exec(cfg, s.db, w),
      if a.Tick? then s.now + a.delay else s.now,
      TokenAfter(s, a),
      if a.Close? then true else if a.Restart? then false else s.closing,
      WokenAfter(s, a, w),
      WorkersAfter(cfg, s, a),
      ReviewersAfter(cfg, s, a),
      s.log + [w])
  }

  ghost function Run(cfg: Config, s: State, events: seq<Event>): State {
    if events == [] then s else Apply(cfg, Run(cfg, s, events[..|events| - 1]), events[|events| - 1])
  }

  /** The process has just started: no work in hand, no transaction open. */
  ghost predicate Start(cfg: Config, s: State) {
    && Good(cfg, s.db)
    && s.log == [] && s.woken == {} && !s.closing
    && (forall i | 0 <= i < |s.workers| :: s.workers[i].Draining?)
    && (forall r | 0 <= r < |s.reviewers| :: s.reviewers[r].Idle?)
  }

  /** s is a state some run gets to. Run takes its events from the end, so every prefix
      of a run is a run. */
  ghost predicate Reachable(cfg: Config, s: State) {
    exists s0, events :: Start(cfg, s0) && s == Run(cfg, s0, events)
  }
}
