/** Crash-replay convergence over runs of the step system: one worker, one enquiry,
    any number of crashes, shutdowns and failed calls, and nobody else writing. */
module Convergence {
  import opened Base
  import opened Text
  import opened Model
  import opened Router
  import opened Grounding
  import opened Tables
  import opened System
  import opened Replay
  import Balance

  // ---------- how far the writes have got ----------

  datatype Progress = Untouched | ContactIn | RecordIn | DraftIn

  /** How the second reads of the rules went: whether the team in hand was read, whether the
      record has been written, and whether its team, as last written, and its owner, as
      written at any time, were read. act swallows the error of that read. */
  datatype Reads = Reads(inHand: bool, written: bool, team: bool, owner: bool)

  const NOTHING_WRITTEN := Reads(true, false, true, true)

  /** The attach branch needs the rules for its team; if it cannot read them it goes on without. */
  function ReadsAfter(pc: Pc, o: Oracle, g: Reads): Reads {
    if !o.ok then g
    else match pc
      case AtOwner(_, _, dup, d, _) => g.(inHand := o.rulesOk || d.team != "" || dup.None?)
      case AtRecord(_, _, _, _, _) => Reads(g.inHand, true, g.inHand, g.inHand || (g.written && g.owner))
      case _ => g
  }

  ghost predicate QueueAt(db0: Db, db: Db) {
    |db.enquiries| == |db0.enquiries| && forall i | 0 <= i < |db.enquiries| :: EnquiryKept(db0.enquiries[i], db.enquiries[i])
  }

  ghost predicate ContactsAt(cfg: Config, db0: Db, p: Case, t: Progress, db: Db) {
    if ToCrm(cfg, p) && !t.Untouched? then ContactsIn(cfg, db0, p, db)
    else db.contacts == db0.contacts && db.companies == db0.companies
  }

  ghost predicate RecordsAt(cfg: Config, db0: Db, p: Case, t: Progress, g: Reads, db: Db) {
    && g.written == (ToCrm(cfg, p) && (t.RecordIn? || t.DraftIn?))
    && db.records == if g.written then RecordedAs(cfg, db0, p, g.team, g.owner) else db0.records
  }

  function DraftRow(cfg: Config, db0: Db, p: Case): nat {
    MessageOf(db0.messages, p.id, DraftKind(cfg, p))
  }

  ghost predicate MessagesAt(cfg: Config, db0: Db, p: Case, t: Progress, db: Db) {
    if t.DraftIn? then SameMessages(db.messages, Drafted(cfg, db0, p, "", ByModel("")), DraftRow(cfg, db0, p))
    else db.messages == db0.messages
  }

  ghost predicate TablesAt(cfg: Config, db0: Db, p: Case, t: Progress, g: Reads, db: Db) {
    QueueAt(db0, db) && ContactsAt(cfg, db0, p, t, db) && RecordsAt(cfg, db0, p, t, g, db) && MessagesAt(cfg, db0, p, t, db)
  }

  // ---------- what the worker's locals can be ----------

  ghost predicate FoundOk(cfg: Config, db0: Db, p: Case, t: Progress, dup: Option<Match>) {
    if ToCrm(cfg, p) && !t.Untouched?
    then dup.Some? && dup.value.contact == Target(cfg, db0, p) && dup.value.score >= cfg.autoAttach
    else if ToCrm(cfg, p) then dup == p.dup
    else Route(p.ex, dup, cfg.rules, cfg.confidence, cfg.autoAttach) == Decided(cfg, p)
  }

  ghost predicate DraftOk(cfg: Config, db0: Db, p: Case, t: Progress, kind: MessageKind, record: Option<nat>) {
    && RestingPlace(cfg, p) == PendingApproval
    && kind == DraftKind(cfg, p) && record == DraftRecord(cfg, db0, p)
    && (ToCrm(cfg, p) ==> t.RecordIn? || t.DraftIn?)
  }

  /** The team and owner in hand, against those of an uninterrupted run. */
  predicate PickOk(g: Reads, team: string, owner: Option<nat>, team0: string, owner0: Option<nat>) {
    if g.inHand then
      && team == team0 && (owner0.None? ==> owner.None?)
      && (!(g.written && g.owner) ==> owner == owner0)
    else team == "" && owner.None?
  }

  predicate IsTheEnquiry(db0: Db, p: Case, e: Snapshot) {
    && p.id < |db0.enquiries| && e.id == p.id
    && e.text == db0.enquiries[p.id].text && e.hash == db0.enquiries[p.id].hash
  }

  ghost predicate PcAt(cfg: Config, db0: Db, p: Case, t: Progress, g: Reads, pc: Pc) {
    && (Holds(pc).Some? ==> IsTheEnquiry(db0, p, pc.e))
    && match pc
       case AtSave(_, ex) => ex == p.ex
       case AtMatch(_, ex) => ex == p.ex
       case AtRecordMatch(_, ex, m) => ex == p.ex && FoundOk(cfg, db0, p, t, Some(m))
       case AtRoute(_, ex, dup) => ex == p.ex && FoundOk(cfg, db0, p, t, dup)
       case AtContact(_, ex, dup, d) =>
         && ToCrm(cfg, p) && ex == p.ex && FoundOk(cfg, db0, p, t, dup)
         && d == (if t.Untouched? then Decided(cfg, p) else Decision(AttachToExistingContact, "", None))
       case AtOwner(_, ex, dup, d, contact) =>
         && ToCrm(cfg, p) && ex == p.ex && !t.Untouched? && contact == Target(cfg, db0, p)
         && TeamAndUser(cfg, ex, dup, d, true) == TeamFor(cfg, p)
         && (d.team == "" && dup.Some? ==> d.owner.None?)
       case AtRecord(_, ex, contact, team, owner) =>
         && ToCrm(cfg, p) && ex == p.ex && !t.Untouched? && contact == Target(cfg, db0, p)
         && PickOk(g, team, owner, TeamFor(cfg, p).0, OwnerFor(cfg, db0.records, TeamFor(cfg, p)))
       case AtDraft(_, ex, kind, record) => ex == p.ex && DraftOk(cfg, db0, p, t, kind, record)
       case AtSaveDraft(_, ex, draft) =>
         ex == p.ex && draft.enquiry == p.id && DraftOk(cfg, db0, p, t, draft.kind, draft.record)
       case AtRest(_, status, _) => status == RestingPlace(cfg, p) && (status == PendingApproval ==> t.DraftIn?)
       case _ => true
  }

  /** The model answers p.ex or fails, and nothing else is claimed. */
  predicate Faithful(cfg: Config, text: string, p: Case, o: Oracle) {
    && (o.row.Some? ==> o.row.value == p.id)
    && (var r := Extract(cfg.lower, o.tier1, o.tier2, cfg.confidence, text); r.Some? ==> r.value == p.ex)
  }

  // ---------- each stage, first time round or replayed ----------

  lemma StillNoDuplicate(cfg: Config, db0: Db, now0: int, p: Case, db: Db, now: int)
    requires Prepared(cfg, db0, now0, p) && now0 <= now && QueueAt(db0, db)
    ensures !HasRecentDuplicate(db.enquiries, db0.enquiries[p.id].hash, p.id, now, cfg.dedupeWindow)
  {
    hide Checked, IsMatch, IsCompanyHit, InOrder, GoodContacts, Decided, Trusted;
    forall j | 0 <= j < |db.enquiries| && j != p.id && db.enquiries[j].hash == db0.enquiries[p.id].hash
      ensures db.enquiries[j].receivedAt <= now - cfg.dedupeWindow
    {
      assert EnquiryKept(db0.enquiries[j], db.enquiries[j]);
    }
  }

  lemma MatchStage(cfg: Config, db0: Db, now0: int, p: Case, t: Progress, g: Reads, db: Db, e: Snapshot, o: Oracle)
    requires Replayable(cfg, db0, now0, p) && TablesAt(cfg, db0, p, t, g, db) && PcAt(cfg, db0, p, t, g, AtMatch(e, p.ex))
    requires MatchStep(cfg, db, e, p.ex, o).Some?
    ensures MatchStep(cfg, db, e, p.ex, o).value.write == NoWrite
    ensures PcAt(cfg, db0, p, t, g, MatchStep(cfg, db, e, p.ex, o).value.next)
  {
    hide Decided, Contacted, IsMatch, Trusted, RecordedAs, Drafted, Checked, InOrder, GoodContacts, HasRecentDuplicate, OneTarget, OnlyCompany;
    hide IsCompanyHit, ContactsIn, QueueAt, Route, Unambiguous;
    if p.ex.enquiryType == TYPE_JUNK {
      JunkStaysOut(cfg, p);
      DecidedIsRoute(cfg, p);
    } else if ToCrm(cfg, p) && !t.Untouched? {
      ReplayFindsTheContact(cfg, db0, now0, p, db, o.found);
    } else {
      MatchReadsContacts(cfg, db0, db, Trusted(p.ex), o.found);
      if ToCrm(cfg, p) {
        CrmMatchIsOnly(cfg, db0, now0, p, o.found);
      } else {
        AnswersDecideAlike(cfg, db0, p.ex, o.found, p.dup);
        DecidedIsRoute(cfg, p);
      }
    }
  }

  lemma DecidedIsRoute(cfg: Config, p: Case)
    ensures Decided(cfg, p) == Route(p.ex, p.dup, cfg.rules, cfg.confidence, cfg.autoAttach)
  {
    hide Route;
  }

  lemma JunkStaysOut(cfg: Config, p: Case)
    requires p.ex.enquiryType == TYPE_JUNK
    ensures !ToCrm(cfg, p)
  {
    hide LeastEligible, Identifiable;
  }

  lemma RouteStage(cfg: Config, db0: Db, p: Case, t: Progress, g: Reads, e: Snapshot, dup: Option<Match>)
    requires PcAt(cfg, db0, p, t, g, AtRoute(e, p.ex, dup))
    ensures PcAt(cfg, db0, p, t, g, RouteStep(cfg, e, p.ex, dup).next)
  {
    hide LeastEligible, Identifiable, Target;
    if ToCrm(cfg, p) {
      RouteToCrm(cfg, p);
    }
  }

  lemma ContactStage(cfg: Config, db0: Db, now0: int, p: Case, t: Progress, g: Reads, db: Db, e: Snapshot,
      dup: Option<Match>, d: Decision, o: Oracle)
    returns (t': Progress)
    requires Replayable(cfg, db0, now0, p) && TablesAt(cfg, db0, p, t, g, db) && PcAt(cfg, db0, p, t, g, AtContact(e, p.ex, dup, d))
    requires ContactStep(cfg, db, e, p.ex, dup, d, o).Some?
    ensures var m := ContactStep(cfg, db, e, p.ex, dup, d, o).value;
      && TablesAt(cfg, db0, p, t', g, Exec(cfg, db, m.write)) && PcAt(cfg, db0, p, t', g, m.next)
      && m.next.AtOwner?
    ensures t.DraftIn? <==> t'.DraftIn?
  {
    var m := ContactStep(cfg, db, e, p.ex, dup, d, o).value;
    if t.Untouched? {
      t' := ContactIn;
      FirstContactStage(cfg, db0, now0, p, g, db, e, dup, d, o);
    } else {
      t' := t;
      ReplayedContactStage(cfg, db0, now0, p, t, g, db, e, dup, d, o);
    }
  }

  lemma ContactMove(cfg: Config, db: Db, e: Snapshot, ex: Extraction, dup: Option<Match>, d: Decision,
      o: Oracle, w: ContactWrite)
    requires ContactStep(cfg, db, e, ex, dup, d, o).Some? && e.id < |db.enquiries|
    requires UpsertContact(cfg.lower, db, e.id, Trusted(ex), Existing(dup, d), o.company) == Some(w)
    ensures var m := ContactStep(cfg, db, e, ex, dup, d, o).value;
      && Exec(cfg, db, m.write) == db.(companies := w.companies, contacts := w.contacts)
      && m.next == AtOwner(e, ex, dup, d, w.id)
  {
    hide UpsertContact, IsCompanyHit, Trusted;
  }

  lemma SameTablesSameWrite(f: CaseMap, db0: Db, db: Db, id: nat, c: ContactInfo, existing: Option<nat>, hit: Option<nat>)
    requires db.contacts == db0.contacts && db.companies == db0.companies
    ensures UpsertContact(f, db, id, c, existing, hit) == UpsertContact(f, db0, id, c, existing, hit)
  {
    hide CompaniesAfter, CompanyIdAfter, EmailTaken, FilledRow;
  }

  lemma ContactWritten(cfg: Config, db0: Db, p: Case, w: ContactWrite)
    requires Contacted(cfg, db0, p) == Some(w)
    ensures Target(cfg, db0, p) == w.id < |w.contacts|
  {
    hide CompaniesAfter, CompanyIdAfter, EmailTaken, FilledRow, Decided, Trusted;
  }

  lemma ContactsReplaced(cfg: Config, db0: Db, p: Case, t: Progress, t': Progress, g: Reads, db: Db, db': Db)
    requires TablesAt(cfg, db0, p, t, g, db) && ToCrm(cfg, p)
    requires t' == if t.Untouched? then ContactIn else t
    requires db' == db.(companies := db'.companies, contacts := db'.contacts) && ContactsIn(cfg, db0, p, db')
    ensures TablesAt(cfg, db0, p, t', g, db')
  {
    hide ToCrm, ContactsIn, RecordedAs, Drafted, SameMessages;
  }

  lemma FirstContactStage(cfg: Config, db0: Db, now0: int, p: Case, g: Reads, db: Db, e: Snapshot, dup: Option<Match>,
      d: Decision, o: Oracle)
    requires Replayable(cfg, db0, now0, p) && TablesAt(cfg, db0, p, Untouched, g, db) && PcAt(cfg, db0, p, Untouched, g, AtContact(e, p.ex, dup, d))
    requires ContactStep(cfg, db, e, p.ex, dup, d, o).Some?
    ensures var m := ContactStep(cfg, db, e, p.ex, dup, d, o).value;
      && TablesAt(cfg, db0, p, ContactIn, g, Exec(cfg, db, m.write)) && PcAt(cfg, db0, p, ContactIn, g, m.next)
      && m.next.AtOwner?
  {
    hide ContactStep, Exec, Contacted, Prepared, Unambiguous, RecordedAs, Drafted, Decided, Trusted, TeamAndUser, UpsertContact, OwnerFor, LeastEligible;
    hide Route, LowConfidence, Incomplete, Existing;
    RouteToCrm(cfg, p);
    var w := FirstContactWrite(cfg, db0, now0, p, g, db, dup, d, e, o);
    ContactMove(cfg, db, e, p.ex, dup, d, o, w);
    var db' := db.(companies := w.companies, contacts := w.contacts);
    assert ContactsIn(cfg, db0, p, db');
    ContactsReplaced(cfg, db0, p, Untouched, ContactIn, g, db, db');
  }

  lemma FirstContactWrite(cfg: Config, db0: Db, now0: int, p: Case, g: Reads, db: Db, dup: Option<Match>, d: Decision,
      e: Snapshot, o: Oracle)
    returns (w: ContactWrite)
    requires Replayable(cfg, db0, now0, p) && TablesAt(cfg, db0, p, Untouched, g, db) && PcAt(cfg, db0, p, Untouched, g, AtContact(e, p.ex, dup, d))
    requires ContactStep(cfg, db, e, p.ex, dup, d, o).Some?
    ensures Contacted(cfg, db0, p) == Some(w) && Target(cfg, db0, p) == w.id < |w.contacts|
    ensures UpsertContact(cfg.lower, db, p.id, Trusted(p.ex), Existing(dup, d), o.company) == Some(w)
  {
    hide Drafted, OwnerFor, Trusted, IsCompanyHit, Unambiguous, Prepared, Route, RecordsAt, MessagesAt, QueueAt, UpsertContact, TeamAndUser;
    FirstContactWriteSucceeds(cfg, db0, now0, p);
    w := Contacted(cfg, db0, p).value;
    ContactWritten(cfg, db0, p, w);
    HitDoesNotMatter(cfg, db0, now0, p, o.company);
    SameTablesSameWrite(cfg.lower, db0, db, p.id, Trusted(p.ex), Existing(dup, d), o.company);
  }

  lemma ReplayedContactStage(cfg: Config, db0: Db, now0: int, p: Case, t: Progress, g: Reads, db: Db, e: Snapshot,
      dup: Option<Match>, d: Decision, o: Oracle)
    requires Replayable(cfg, db0, now0, p) && TablesAt(cfg, db0, p, t, g, db) && PcAt(cfg, db0, p, t, g, AtContact(e, p.ex, dup, d))
    requires !t.Untouched? && ContactStep(cfg, db, e, p.ex, dup, d, o).Some?
    ensures var m := ContactStep(cfg, db, e, p.ex, dup, d, o).value;
      && TablesAt(cfg, db0, p, t, g, Exec(cfg, db, m.write)) && PcAt(cfg, db0, p, t, g, m.next)
      && m.next.AtOwner?
  {
    hide Trusted, Decided, IsCompanyHit, Unambiguous, Checked, GoodContacts, HasRecentDuplicate, IsMatch;
    hide TeamAndUser, RecordedAs, Drafted, UpsertContact, SameContacts, Contacted, OwnerFor;
    ReplayedContactWrite(cfg, db0, p, db, o.company);
    TeamIsFoundAgain(cfg, p, dup);
    hide Replayable, InOrder;
    var w := UpsertContact(cfg.lower, db, p.id, Trusted(p.ex), Some(Target(cfg, db0, p)), o.company).value;
    ContactMove(cfg, db, e, p.ex, dup, d, o, w);
    hide ContactStep, Exec;
    SameLength(w.contacts, db.contacts, Contacted(cfg, db0, p).value.contacts, Target(cfg, db0, p));
    ContactsReplaced(cfg, db0, p, t, t, g, db, db.(companies := w.companies, contacts := w.contacts));
  }

  lemma SameLength(a: seq<Contact>, b: seq<Contact>, c: seq<Contact>, k: nat)
    requires SameContacts(a, c, k) && SameContacts(b, c, k)
    ensures |a| == |b|
  {}

  /** The attach branch of a replay resolves the same team as the rule that created the contact. */
  lemma TeamIsFoundAgain(cfg: Config, p: Case, dup: Option<Match>)
    requires InOrder(cfg.rules) && ToCrm(cfg, p) && dup.Some?
    ensures TeamAndUser(cfg, p.ex, dup, Decision(AttachToExistingContact, "", None), true) == TeamFor(cfg, p)
  {
    RouteToCrm(cfg, p);
    FirstOfOrderedIsLeast(cfg.rules, p.ex);
    hide Decided, LeastEligible, FirstEligible, InOrder;
  }

  lemma {:induction false} SameLoadsSamePick(users: seq<User>, rs: seq<CrmRecord>, rs': seq<CrmRecord>, team: string, n: nat)
    requires n <= |users| && forall u: nat :: Load(rs', u) == Load(rs, u)
    ensures PickAmong(users, rs', team, n) == PickAmong(users, rs, team, n)
  {
    if n > 0 {
      SameLoadsSamePick(users, rs, rs', team, n - 1);
    }
  }

  /** A record nobody owns does not change who is least loaded. */
  lemma UnownedRecordKeepsPicks(cfg: Config, db0: Db, p: Case, teamRead: bool, team: (string, Option<nat>))
    ensures OwnerFor(cfg, RecordedAs(cfg, db0, p, teamRead, false), team) == OwnerFor(cfg, db0.records, team)
  {
    hide Load, PickAmong, UpsertRecord, TeamFor;
    var t := TeamFor(cfg, p);
    var r := CrmRecord(RecordKindOf(p.ex.enquiryType), Target(cfg, db0, p), None, if teamRead then t.0 else "", true, p.id);
    assert RecordedAs(cfg, db0, p, teamRead, false) == UpsertRecord(db0.records, r);
    forall u: nat ensures Load(UpsertRecord(db0.records, r), u) == Load(db0.records, u) {
      Balance.LoadAfterUpsert(db0.records, r, u);
    }
    SameLoadsSamePick(cfg.users, db0.records, UpsertRecord(db0.records, r), team.0, |cfg.users|);
  }

  /** The second read of the rules, as act uses it: without it there is no team and no user. */
  lemma TeamInHand(cfg: Config, p: Case, ex: Extraction, dup: Option<Match>, d: Decision, o: Oracle, g: Reads, e: Snapshot, contact: nat)
    requires o.ok && TeamAndUser(cfg, ex, dup, d, true) == TeamFor(cfg, p) && (d.team == "" && dup.Some? ==> d.owner.None?)
    ensures TeamAndUser(cfg, ex, dup, d, o.rulesOk) ==
      if ReadsAfter(AtOwner(e, ex, dup, d, contact), o, g).inHand then TeamFor(cfg, p) else ("", None)
  {
    hide FirstEligible, TeamFor;
  }

  lemma PickStage(cfg: Config, db0: Db, p: Case, t: Progress, g: Reads, db: Db)
    requires RecordsAt(cfg, db0, p, t, g, db)
    ensures var team := TeamFor(cfg, p);
      PickOk(g.(inHand := true), team.0, OwnerFor(cfg, db.records, team), team.0, OwnerFor(cfg, db0.records, team))
  {
    var team := TeamFor(cfg, p);
    UnownedRecordKeepsPicks(cfg, db0, p, g.team, team);
    PickOwnerIsLeastLoaded(cfg.users, db.records, team.0);
    PickOwnerIsLeastLoaded(cfg.users, db0.records, team.0);
    hide IsLeastLoaded, TeamFor, PickOwner, RecordedAs, ToCrm;
    if PickOwner(cfg.users, db.records, team.0).Some? {
      assert cfg.users[PickOwner(cfg.users, db.records, team.0).value].team == team.0;
    }
  }

  lemma OwnerStage(cfg: Config, db0: Db, p: Case, t: Progress, g: Reads, db: Db, pc: Pc, o: Oracle)
    requires pc.AtOwner? && o.ok && TablesAt(cfg, db0, p, t, g, db) && PcAt(cfg, db0, p, t, g, pc)
    ensures PcAt(cfg, db0, p, t, ReadsAfter(pc, o, g), OwnerStep(cfg, db, pc.e, pc.ex, pc.dup, pc.d, pc.contact, o).next)
  {
    hide TeamAndUser, TeamFor, RecordsAt, ContactsAt, MessagesAt, Target, Decided, PickOwner, QueueAt, ToCrm, FoundOk, DraftOk;
    TeamInHand(cfg, p, pc.ex, pc.dup, pc.d, o, g, pc.e, pc.contact);
    PickStage(cfg, db0, p, t, g, db);
  }

  /** Writing the record twice is writing it once, with the later team and the first owner. */
  lemma RecordingTwice(rs: seq<CrmRecord>, r: CrmRecord, r': CrmRecord)
    requires r'.enquiry == r.enquiry
    ensures UpsertRecord(UpsertRecord(rs, r), r') == UpsertRecord(rs, r.(owner := Coalesce(r.owner, r'.owner), team := r'.team))
    ensures RecordOf(UpsertRecord(rs, r), r.enquiry) == RecordOf(rs, r.enquiry)
  {
    var i, rs' := RecordOf(rs, r.enquiry), UpsertRecord(rs, r);
    assert rs'[i].enquiry == r.enquiry;
    assert forall j | 0 <= j < i :: rs'[j] == rs[j];
    assert RecordOf(rs', r.enquiry) == i;
  }

  lemma RecordMove(cfg: Config, db: Db, e: Snapshot, ex: Extraction, contact: nat, team: string, owner: Option<nat>)
    requires e.id < |db.enquiries| && contact < |db.contacts|
    ensures var m := RecordStep(db, e, ex, contact, team, owner);
      && Exec(cfg, db, m.write) == db.(records := UpsertRecord(db.records, CrmRecord(RecordKindOf(ex.enquiryType), contact, owner, team, true, e.id)))
      && m.next == AtDraft(e, ex, Reply, Some(RecordOf(db.records, e.id)))
  {
    hide UpsertRecord;
  }

  lemma RecordWritten(cfg: Config, db0: Db, p: Case, g: Reads, rs: seq<CrmRecord>, team: string, owner: Option<nat>)
    requires rs == if g.written then RecordedAs(cfg, db0, p, g.team, g.owner) else db0.records
    requires PickOk(g, team, owner, TeamFor(cfg, p).0, OwnerFor(cfg, db0.records, TeamFor(cfg, p)))
    ensures var r := CrmRecord(RecordKindOf(p.ex.enquiryType), Target(cfg, db0, p), owner, team, true, p.id);
      && UpsertRecord(rs, r) == RecordedAs(cfg, db0, p, g.inHand, g.inHand || (g.written && g.owner))
      && RecordOf(rs, p.id) == RecordOf(db0.records, p.id)
  {
    hide UpsertRecord, TeamFor, OwnerFor, RecordOf, Target;
    var team0, owner0 := TeamFor(cfg, p).0, OwnerFor(cfg, db0.records, TeamFor(cfg, p));
    var r := CrmRecord(RecordKindOf(p.ex.enquiryType), Target(cfg, db0, p), owner, team, true, p.id);
    RecordingTwice(db0.records, r.(owner := if g.owner then owner0 else None, team := if g.team then team0 else ""), r);
  }

  lemma RecordStage(cfg: Config, db0: Db, p: Case, t: Progress, g: Reads, db: Db, pc: Pc, o: Oracle) returns (t': Progress)
    requires pc.AtRecord? && o.ok && TablesAt(cfg, db0, p, t, g, db) && PcAt(cfg, db0, p, t, g, pc)
    ensures var m, g' := RecordStep(db, pc.e, pc.ex, pc.contact, pc.team, pc.owner), ReadsAfter(pc, o, g);
      TablesAt(cfg, db0, p, t', g', Exec(cfg, db, m.write)) && PcAt(cfg, db0, p, t', g', m.next)
    ensures t.DraftIn? <==> t'.DraftIn?
  {
    hide RecordStep, Exec, TeamAndUser, OwnerFor, TeamFor, PickOk, Drafted, Contacted, SameContacts, Target, Decided, UpsertRecord, RecordedAs;
    RecordMove(cfg, db, pc.e, pc.ex, pc.contact, pc.team, pc.owner);
    RecordWritten(cfg, db0, p, g, db.records, pc.team, pc.owner);
    t' := if t.ContactIn? then RecordIn else t;
    CrmEndsInReply(cfg, p);
  }

  lemma CrmEndsInReply(cfg: Config, p: Case)
    ensures ToCrm(cfg, p) ==> RestingPlace(cfg, p) == PendingApproval
  {}

  /** Drafting again at most rewords the draft. */
  lemma DraftingAgainRewords(ms: seq<Message>, was: seq<Message>, first: Message, draft: Message)
    requires draft.enquiry == first.enquiry && draft.kind == first.kind && draft.record == first.record
    requires ms == was || SameMessages(ms, UpsertDraft(was, first), MessageOf(was, first.enquiry, first.kind))
    ensures SameMessages(UpsertDraft(ms, draft), UpsertDraft(was, first), MessageOf(was, first.enquiry, first.kind))
  {
    var i := MessageOf(was, first.enquiry, first.kind);
    if ms != was {
      assert Wordless(ms[i]) == Wordless(UpsertDraft(was, first)[i]);
      assert forall j | 0 <= j < i :: ms[j] == was[j];
      assert MessageOf(ms, draft.enquiry, draft.kind) == i;
    }
  }

  lemma SaveDraftMove(cfg: Config, db: Db, locked: set<nat>, e: Snapshot, ex: Extraction, draft: Message)
    requires draft.enquiry < |db.enquiries| && SaveDraftStep(db, locked, e, ex, draft).Some?
    ensures var m := SaveDraftStep(db, locked, e, ex, draft).value;
      && Exec(cfg, db, m.write) == db.(messages := UpsertDraft(db.messages, draft))
      && m.next == AtRest(e, PendingApproval, Some(ex))
  {
    hide UpsertDraft;
  }

  lemma SaveDraftStage(cfg: Config, db0: Db, p: Case, t: Progress, g: Reads, db: Db, locked: set<nat>, pc: Pc)
    requires pc.AtSaveDraft? && TablesAt(cfg, db0, p, t, g, db) && PcAt(cfg, db0, p, t, g, pc)
    requires SaveDraftStep(db, locked, pc.e, pc.ex, pc.draft).Some?
    ensures var m := SaveDraftStep(db, locked, pc.e, pc.ex, pc.draft).value;
      TablesAt(cfg, db0, p, DraftIn, g, Exec(cfg, db, m.write)) && PcAt(cfg, db0, p, DraftIn, g, m.next)
    ensures RestingPlace(cfg, p) == PendingApproval
  {
    hide Contacted, SameContacts, Target, Decided, RecordedAs, UpsertDraft, SameMessages, Exec, SaveDraftStep, ToCrm;
    var first := Message(p.id, DraftRecord(cfg, db0, p), DraftKind(cfg, p), "", MsgPending, ByModel(""), None);
    SaveDraftMove(cfg, db, locked, pc.e, pc.ex, pc.draft);
    DraftingAgainRewords(db.messages, db0.messages, first, pc.draft);
    DraftFollowsRecord(cfg, db0, p, t, pc.draft);
  }

  lemma DraftFollowsRecord(cfg: Config, db0: Db, p: Case, t: Progress, draft: Message)
    requires DraftOk(cfg, db0, p, t, draft.kind, draft.record)
    ensures ToCrm(cfg, p) ==> t.RecordIn? || t.DraftIn?
  {}

  // ---------- one step ----------

  predicate OffTheCrm(w: Write) {
    || w.NoWrite? || w.ClaimRow? || w.SetStatusRow? || w.RequeueRow? || w.SaveExtractionRow? || w.RecordCandidateRow?
    || w.ResolveRow? || w.AppendAudit?
  }

  lemma OffTheCrmKeepsTables(cfg: Config, db0: Db, p: Case, t: Progress, g: Reads, db: Db, w: Write)
    requires TablesAt(cfg, db0, p, t, g, db) && OffTheCrm(w)
    ensures TablesAt(cfg, db0, p, t, g, Exec(cfg, db, w))
  {
    hide Contacted, SameContacts, Target, Decided, RecordedAs, Drafted, SameMessages;
  }

  /** Where the queue row can have come to rest. */
  ghost predicate RestsWell(cfg: Config, p: Case, t: Progress, db: Db) {
    && p.id < |db.enquiries|
    && (t.DraftIn? ==> RestingPlace(cfg, p) == PendingApproval)
    && var st := db.enquiries[p.id].status;
       !IsResting(st) || st == Failed || (st == RestingPlace(cfg, p) && (st == PendingApproval ==> t.DraftIn?))
  }

  lemma PlainStage(cfg: Config, db0: Db, now0: int, p: Case, t: Progress, g: Reads, db: Db, now: int, locked: set<nat>,
      pc: Pc, o: Oracle)
    requires Replayable(cfg, db0, now0, p) && now0 <= now && TablesAt(cfg, db0, p, t, g, db) && PcAt(cfg, db0, p, t, g, pc)
    requires Faithful(cfg, db0.enquiries[p.id].text, p, o)
    requires pc.AtDedupe? || pc.AtExtract? || pc.AtSave? || pc.AtRecordMatch? || pc.AtDraft? || pc.AtRest?
    requires StageStep(cfg, db, now, locked, pc, o).Some?
    ensures var m := StageStep(cfg, db, now, locked, pc, o).value;
      && OffTheCrm(m.write) && PcAt(cfg, db0, p, t, g, m.next)
      && (m.write.SetStatusRow? ==> m.write.id == p.id && m.write.status == RestingPlace(cfg, p) &&
                                    (m.write.status == PendingApproval ==> t.DraftIn?))
  {
    hide Prepared, Unambiguous, ContactsAt, RecordsAt, MessagesAt, QueueAt, Target, Decided, Extract, HasRecentDuplicate, PickOk;
    hide FoundOk, DraftOk, RestingPlace, TeamFor, OwnerFor, ToCrm, MatchStep, RouteStep, ContactStep, OwnerStep, RecordStep, SaveDraftStep;
    StillNoDuplicate(cfg, db0, now0, p, db, now);
  }

  lemma StageMove(cfg: Config, db0: Db, now0: int, p: Case, t: Progress, g: Reads, db: Db, now: int, locked: set<nat>,
      pc: Pc, o: Oracle)
    returns (t': Progress)
    requires Replayable(cfg, db0, now0, p) && now0 <= now && TablesAt(cfg, db0, p, t, g, db) && PcAt(cfg, db0, p, t, g, pc)
    requires o.ok && Faithful(cfg, db0.enquiries[p.id].text, p, o) && StageStep(cfg, db, now, locked, pc, o).Some?
    ensures var m := StageStep(cfg, db, now, locked, pc, o).value;
      && TablesAt(cfg, db0, p, t', ReadsAfter(pc, o, g), Exec(cfg, db, m.write)) && PcAt(cfg, db0, p, t', ReadsAfter(pc, o, g), m.next)
      && (t.DraftIn? ==> t'.DraftIn?) && !m.write.DecideRow?
      && (t'.DraftIn? && !t.DraftIn? ==> RestingPlace(cfg, p) == PendingApproval)
      && (m.write.SetStatusRow? ==> m.write.id == p.id && m.write.status == RestingPlace(cfg, p) &&
                                    (m.write.status == PendingApproval ==> t'.DraftIn?))
  {
    hide Replayable, TablesAt, Exec, FoundOk, Decided, RestingPlace, DraftOk, TeamFor, Target, OwnerFor;
    hide MatchStep, RouteStep, ContactStep, OwnerStep, RecordStep, SaveDraftStep, Extract, PickOk;
    StageWrites(cfg, db, now, locked, pc, o);
    t' := t;
    if pc.AtMatch? {
      MatchStage(cfg, db0, now0, p, t, g, db, pc.e, o);
      OffTheCrmKeepsTables(cfg, db0, p, t, g, db, NoWrite);
    } else if pc.AtRoute? {
      RouteStage(cfg, db0, p, t, g, pc.e, pc.dup);
      OffTheCrmKeepsTables(cfg, db0, p, t, g, db, NoWrite);
    } else if pc.AtContact? {
      t' := ContactStage(cfg, db0, now0, p, t, g, db, pc.e, pc.dup, pc.d, o);
    } else if pc.AtOwner? {
      OwnerStage(cfg, db0, p, t, g, db, pc, o);
      PickingWritesNothing(cfg, db0, p, t, g, db, pc, o);
      OffTheCrmKeepsTables(cfg, db0, p, t, g, db, NoWrite);
    } else if pc.AtRecord? {
      t' := RecordStage(cfg, db0, p, t, g, db, pc, o);
    } else if pc.AtSaveDraft? {
      t' := DraftIn;
      SaveDraftStage(cfg, db0, p, t, g, db, locked, pc);
    } else {
      PlainStage(cfg, db0, now0, p, t, g, db, now, locked, pc, o);
      OffTheCrmKeepsTables(cfg, db0, p, t, g, db, StageStep(cfg, db, now, locked, pc, o).value.write);
    }
  }

  lemma PickingWritesNothing(cfg: Config, db0: Db, p: Case, t: Progress, g: Reads, db: Db, pc: Pc, o: Oracle)
    requires pc.AtOwner? && TablesAt(cfg, db0, p, t, g, db)
    ensures TablesAt(cfg, db0, p, t, ReadsAfter(pc, o, g), Exec(cfg, db, NoWrite))
  {
    hide QueueAt, ContactsAt, MessagesAt, RecordedAs, ToCrm;
  }

  lemma StageWrites(cfg: Config, db: Db, now: int, locked: set<nat>, pc: Pc, o: Oracle)
    ensures var m := StageStep(cfg, db, now, locked, pc, o);
      m.Some? ==>
        && (m.value.write.SetStatusRow? ==> pc.AtRest?) && !m.value.write.DecideRow?
        && (pc.AtMatch? || pc.AtRoute? || pc.AtOwner? ==> m.value.write == NoWrite)
  {
    hide Route, IsMatch, Extract, TeamAndUser, PickOwner, UpsertContact, IsCompanyHit, HasRecentDuplicate;
  }

  // ---------- a run of one worker ----------

  /** Everything that can happen while the one worker has the CRM to itself: it works, calls
      fail, the process is shut down, crashes and starts again, time passes, humans resolve
      matches and have enquiries requeued, and audit rows are written. */
  predicate Alone(cfg: Config, text: string, p: Case, a: Event) {
    || a.Tick? || a.Wake? || a.Close? || a.Restart?
    || a.TakeToken? || a.Poll? || a.Stop?
    || a.Resolve? || a.RequeueResolved? || a.Note?
    || (a.Work? && Faithful(cfg, text, p, a.oracle))
  }

  ghost predicate AloneThroughout(cfg: Config, text: string, p: Case, events: seq<Event>) {
    forall i | 0 <= i < |events| :: Alone(cfg, text, p, events[i])
  }

  ghost predicate SoloAt(cfg: Config, db0: Db, now0: int, p: Case, t: Progress, g: Reads, s: State) {
    && now0 <= s.now && |s.workers| == 1
    && TablesAt(cfg, db0, p, t, g, s.db) && PcAt(cfg, db0, p, t, g, s.workers[0]) && RestsWell(cfg, p, t, s.db)
  }

  lemma WorkerMove(cfg: Config, db0: Db, now0: int, p: Case, t: Progress, g: Reads, db: Db, now: int, locked: set<nat>,
      pc: Pc, o: Oracle)
    returns (t': Progress)
    requires Replayable(cfg, db0, now0, p) && now0 <= now && TablesAt(cfg, db0, p, t, g, db) && PcAt(cfg, db0, p, t, g, pc)
    requires RestsWell(cfg, p, t, db)
    requires Faithful(cfg, db0.enquiries[p.id].text, p, o) && WorkerStep(cfg, db, now, locked, pc, o).Some?
    ensures var m := WorkerStep(cfg, db, now, locked, pc, o).value;
      && TablesAt(cfg, db0, p, t', ReadsAfter(pc, o, g), Exec(cfg, db, m.write)) && PcAt(cfg, db0, p, t', ReadsAfter(pc, o, g), m.next)
      && RestsWell(cfg, p, t', Exec(cfg, db, m.write))
  {
    hide Replayable, TablesAt, Exec, FoundOk, RestingPlace, DraftOk, TeamFor, Target, OwnerFor, StageStep, Extract, Decided, PickOk;
    var m := WorkerStep(cfg, db, now, locked, pc, o).value;
    t' := t;
    if Holds(pc).Some? && !pc.AtFail? && o.ok {
      t' := StageMove(cfg, db0, now0, p, t, g, db, now, locked, pc, o);
    } else {
      ClaimedIsTheEnquiry(cfg, db0, p, t, g, db);
      QueueMove(cfg, db0, p, t, g, db, now, locked, pc, o);
      OffTheCrmKeepsTables(cfg, db0, p, t, g, db, m.write);
    }
    hide WorkerStep, PcAt;
    StillRestsWell(cfg, db0, p, t, t', db, m.write);
  }

  /** Claiming, failing and giving up. */
  lemma QueueMove(cfg: Config, db0: Db, p: Case, t: Progress, g: Reads, db: Db, now: int, locked: set<nat>, pc: Pc, o: Oracle)
    requires PcAt(cfg, db0, p, t, g, pc) && p.id < |db.enquiries| && IsTheEnquiry(db0, p, SnapshotOf(db.enquiries, p.id))
    requires Holds(pc).None? || pc.AtFail? || !o.ok
    requires Faithful(cfg, db0.enquiries[p.id].text, p, o) && WorkerStep(cfg, db, now, locked, pc, o).Some?
    ensures var m := WorkerStep(cfg, db, now, locked, pc, o).value;
      && OffTheCrm(m.write) && PcAt(cfg, db0, p, t, g, m.next)
      && (m.write.SetStatusRow? ==> m.write.status == Failed)
  {
    hide FoundOk, RestingPlace, DraftOk, TeamFor, Target, OwnerFor, StageStep, Extract, Decided, Backoff, PickOk;
  }

  lemma ClaimedIsTheEnquiry(cfg: Config, db0: Db, p: Case, t: Progress, g: Reads, db: Db)
    requires TablesAt(cfg, db0, p, t, g, db) && p.id < |db.enquiries|
    ensures p.id < |db0.enquiries| && IsTheEnquiry(db0, p, SnapshotOf(db.enquiries, p.id))
  {
    hide ContactsAt, RecordsAt, MessagesAt;
    assert EnquiryKept(db0.enquiries[p.id], db.enquiries[p.id]);
  }

  lemma StillRestsWell(cfg: Config, db0: Db, p: Case, t: Progress, t': Progress, db: Db, w: Write)
    requires RestsWell(cfg, p, t, db) && (t.DraftIn? ==> t'.DraftIn?) && !w.DecideRow?
    requires t'.DraftIn? && !t.DraftIn? ==> RestingPlace(cfg, p) == PendingApproval
    requires w.SetStatusRow? && w.id == p.id ==>
      w.status == Failed || (w.status == RestingPlace(cfg, p) && (w.status == PendingApproval ==> t'.DraftIn?))
    ensures RestsWell(cfg, p, t', Exec(cfg, db, w))
  {
    hide RestingPlace, UpsertContact, UpsertDraft, UpsertRecord;
  }

  lemma OtherEventsAreQuiet(cfg: Config, s: State, a: Event)
    requires !a.Work? && |s.workers| == 1
    requires a.Tick? || a.Wake? || a.Close? || a.Restart? || a.TakeToken? || a.Poll? || a.Stop? || a.Resolve? || a.RequeueResolved? || a.Note?
    ensures var w := Emit(cfg, s, a); w.NoWrite? || w.RequeueRow? || w.ResolveRow? || w.AppendAudit?
    ensures |WorkersAfter(cfg, s, a)| == 1
    ensures WorkersAfter(cfg, s, a)[0] == s.workers[0] || Holds(WorkersAfter(cfg, s, a)[0]).None?
  {}

  lemma WorkEvent(cfg: Config, s: State, a: Event)
    requires a.Work? && |s.workers| == 1
    ensures var m := WorkerStep(cfg, s.db, s.now, Locked(s.reviewers), s.workers[0], a.oracle);
      var moves := a.worker == 0 && m.Some?;
      && Emit(cfg, s, a) == (if moves then m.value.write else NoWrite)
      && WorkersAfter(cfg, s, a) == (if moves then [m.value.next] else s.workers)
  {
    hide WorkerStep;
  }

  /** What an event does to the reads. */
  ghost function ReadsAfterEvent(cfg: Config, s: State, a: Event, g: Reads): Reads {
    if a.Work? && a.worker == 0 && 0 < |s.workers|
       && WorkerStep(cfg, s.db, s.now, Locked(s.reviewers), s.workers[0], a.oracle).Some?
    then ReadsAfter(s.workers[0], a.oracle, g) else g
  }

  ghost function ReadsOf(cfg: Config, s: State, events: seq<Event>): Reads {
    if events == [] then NOTHING_WRITTEN
    else
      var front := events[..|events| - 1];
      ReadsAfterEvent(cfg, Run(cfg, s, front), events[|events| - 1], ReadsOf(cfg, s, front))
  }

  lemma ApplyKeepsSolo(cfg: Config, db0: Db, now0: int, p: Case, t: Progress, g: Reads, s: State, a: Event)
    returns (t': Progress)
    requires Replayable(cfg, db0, now0, p) && SoloAt(cfg, db0, now0, p, t, g, s)
    requires Alone(cfg, db0.enquiries[p.id].text, p, a)
    ensures SoloAt(cfg, db0, now0, p, t', ReadsAfterEvent(cfg, s, a, g), Apply(cfg, s, a))
  {
    hide Replayable, TablesAt, Exec, WorkerStep, Emit, WorkersAfter, Faithful, RestsWell, PcAt, ReadsAfter;
    hide ReviewersAfter, TokenAfter, WokenAfter;
    var w := Emit(cfg, s, a);
    t' := t;
    if a.Work? {
      WorkEvent(cfg, s, a);
    } else {
      OtherEventsAreQuiet(cfg, s, a);
    }
    if a.Work? && a.worker == 0 && WorkerStep(cfg, s.db, s.now, Locked(s.reviewers), s.workers[0], a.oracle).Some? {
      t' := WorkerMove(cfg, db0, now0, p, t, g, s.db, s.now, Locked(s.reviewers), s.workers[0], a.oracle);
    } else {
      OffTheCrmKeepsTables(cfg, db0, p, t, g, s.db, w);
      StillRestsWell(cfg, db0, p, t, t, s.db, w);
      IdleWorkersFit(cfg, db0, p, t, g, s.workers[0], WorkersAfter(cfg, s, a)[0]);
    }
  }

  lemma IdleWorkersFit(cfg: Config, db0: Db, p: Case, t: Progress, g: Reads, pc: Pc, next: Pc)
    requires PcAt(cfg, db0, p, t, g, pc) && (next == pc || Holds(next).None?)
    ensures PcAt(cfg, db0, p, t, g, next)
  {
    hide FoundOk, DraftOk, RestingPlace, TeamFor, OwnerFor, PickOk;
  }

  /** There is one worker, holding nothing, and the enquiry is open, given up, or has come to
      rest without anything having been written for it. */
  ghost predicate StartsAlone(cfg: Config, p: Case, s: State) {
    && |s.workers| == 1 && Holds(s.workers[0]).None?
    && Replayable(cfg, s.db, s.now, p) && RestsWell(cfg, p, Untouched, s.db)
  }

  lemma {:induction false} RunKeepsSolo(cfg: Config, p: Case, s: State, events: seq<Event>) returns (t: Progress)
    requires StartsAlone(cfg, p, s) && AloneThroughout(cfg, s.db.enquiries[p.id].text, p, events)
    ensures SoloAt(cfg, s.db, s.now, p, t, ReadsOf(cfg, s, events), Run(cfg, s, events))
  {
    hide Apply, Good, Replayable, ReadsAfterEvent;
    if events == [] {
      t := Untouched;
      BeginsUntouched(cfg, p, s);
    } else {
      var front := events[..|events| - 1];
      t := RunKeepsSolo(cfg, p, s, front);
      t := ApplyKeepsSolo(cfg, s.db, s.now, p, t, ReadsOf(cfg, s, front), Run(cfg, s, front), events[|events| - 1]);
    }
  }

  lemma BeginsUntouched(cfg: Config, p: Case, s: State)
    requires StartsAlone(cfg, p, s)
    ensures SoloAt(cfg, s.db, s.now, p, Untouched, NOTHING_WRITTEN, s)
  {
    hide Decided, Checked, Unambiguous, IsMatch, IsCompanyHit, RestsWell;
  }

  // ---------- the theorem ----------

  /** The enquiry came to rest, and not because its retries ran out. */
  predicate Finished(db: Db, id: nat) {
    id < |db.enquiries| && IsResting(db.enquiries[id].status) && db.enquiries[id].status != Failed
  }

  /** The same contacts, companies and messages, up to NULL against an empty name of the
      enquiry's contact and the wording of its undecided draft. */
  ghost predicate SameButRecords(cfg: Config, db0: Db, p: Case, a: Db, b: Db) {
    && a.companies == b.companies
    && SameContacts(a.contacts, b.contacts, Target(cfg, db0, p))
    && SameMessages(a.messages, b.messages, DraftRow(cfg, db0, p))
    && p.id < |a.enquiries| == |b.enquiries| && a.enquiries[p.id].status == b.enquiries[p.id].status
  }

  ghost predicate SameCrm(cfg: Config, db0: Db, p: Case, a: Db, b: Db) {
    SameButRecords(cfg, db0, p, a, b) && a.records == b.records
  }

  lemma FinishedMeansDone(cfg: Config, db0: Db, now0: int, p: Case, t: Progress, g: Reads, s: State)
    requires SoloAt(cfg, db0, now0, p, t, g, s) && Finished(s.db, p.id)
    ensures s.db.enquiries[p.id].status == RestingPlace(cfg, p)
    ensures RestingPlace(cfg, p) == PendingApproval <==> t.DraftIn?
    ensures RestingPlace(cfg, p) != PendingApproval ==> !ToCrm(cfg, p)
  {
    hide TablesAt, PcAt, Decided;
  }

  lemma UntouchedIsSame(cfg: Config, db0: Db, p: Case, t: Progress, t': Progress, g: Reads, g': Reads, a: Db, b: Db)
    requires TablesAt(cfg, db0, p, t, g, a) && TablesAt(cfg, db0, p, t', g', b) && !t.DraftIn? && !t'.DraftIn? && !ToCrm(cfg, p)
    ensures a.companies == b.companies
    ensures SameContacts(a.contacts, b.contacts, Target(cfg, db0, p))
    ensures SameMessages(a.messages, b.messages, DraftRow(cfg, db0, p))
  {
    hide Contacted, Target, RecordedAs, Drafted, ToCrm, DraftRow, Named, Wordless;
  }

  lemma DoneIsSame(cfg: Config, db0: Db, p: Case, g: Reads, g': Reads, a: Db, b: Db)
    requires TablesAt(cfg, db0, p, DraftIn, g, a) && TablesAt(cfg, db0, p, DraftIn, g', b)
    ensures a.companies == b.companies
    ensures SameContacts(a.contacts, b.contacts, Target(cfg, db0, p))
    ensures SameMessages(a.messages, b.messages, DraftRow(cfg, db0, p))
  {
    hide Contacted, Target, RecordedAs, Drafted, ToCrm, DraftRow, Named, Wordless;
  }

  /** The records a finished history leaves. */
  lemma DoneRecords(cfg: Config, db0: Db, now0: int, p: Case, t: Progress, g: Reads, s: State)
    requires SoloAt(cfg, db0, now0, p, t, g, s) && Finished(s.db, p.id)
    ensures s.db.records == if ToCrm(cfg, p) then RecordedAs(cfg, db0, p, g.team, g.owner) else db0.records
  {
    FinishedMeansDone(cfg, db0, now0, p, t, g, s);
    CrmEndsInReply(cfg, p);
    hide ContactsAt, MessagesAt, QueueAt, PcAt, RestsWell, RecordedAs, ToCrm, RestingPlace;
  }

  lemma FinishedAlike(cfg: Config, db0: Db, now0: int, p: Case, t: Progress, t': Progress, g: Reads, g': Reads, a: State, b: State)
    requires SoloAt(cfg, db0, now0, p, t, g, a) && Finished(a.db, p.id)
    requires SoloAt(cfg, db0, now0, p, t', g', b) && Finished(b.db, p.id)
    ensures SameButRecords(cfg, db0, p, a.db, b.db)
  {
    hide ContactsAt, RecordsAt, MessagesAt, PcAt, RestsWell, RestingPlace, ToCrm, SameContacts, SameMessages;
    FinishedMeansDone(cfg, db0, now0, p, t, g, a);
    FinishedMeansDone(cfg, db0, now0, p, t', g', b);
    if t.DraftIn? {
      DoneIsSame(cfg, db0, p, g, g', a.db, b.db);
    } else {
      UntouchedIsSame(cfg, db0, p, t, t', g, g', a.db, b.db);
    }
  }

  lemma {:induction false} TeamReadOwnerRead(cfg: Config, s: State, events: seq<Event>)
    ensures ReadsOf(cfg, s, events).team ==> ReadsOf(cfg, s, events).owner
  {
    hide WorkerStep, Run;
    if events != [] {
      TeamReadOwnerRead(cfg, s, events[..|events| - 1]);
    }
  }

  /** Nothing is lost by not reading the rules: they give no team, and whoever they name has
      been entered anyway, or had been before. */
  predicate ReadingGivesNothing(cfg: Config, db0: Db, p: Case, ownerRead: bool) {
    var i, owner := RecordOf(db0.records, p.id), OwnerFor(cfg, db0.records, TeamFor(cfg, p));
    TeamFor(cfg, p).0 == "" && (ownerRead || owner.None? || (i < |db0.records| && db0.records[i].owner.Some?))
  }

  lemma RecordsAgreeWhen(cfg: Config, db0: Db, p: Case, teamRead: bool, ownerRead: bool)
    requires teamRead ==> ownerRead
    ensures RecordedAs(cfg, db0, p, teamRead, ownerRead) == Recorded(cfg, db0, p) <==>
      teamRead || ReadingGivesNothing(cfg, db0, p, ownerRead)
  {
    hide TeamFor, OwnerFor, Target;
    var i, a, b := RecordOf(db0.records, p.id), RecordedAs(cfg, db0, p, teamRead, ownerRead), Recorded(cfg, db0, p);
    assert |a| == |b| && i < |a| && forall j | 0 <= j < |a| && j != i :: a[j] == b[j];
    assert a == b <==> a[i] == b[i];
  }

  /** Crash-replay convergence: take any two histories of the process from the same start,
      each with any number of crashes, shutdowns, failed calls and restarts at any point
      between any two writes, in which nobody else writes and the model keeps giving the
      same extraction. Once both have finished the enquiry, they have left the same contacts,
      companies and messages; and the same CRM records, provided that in each of them the
      rules, if they were needed, had been read when the record was last written. An
      uninterrupted run is one such history. */
  lemma ReplaysConverge(cfg: Config, p: Case, s: State, events: seq<Event>, events': seq<Event>)
    requires StartsAlone(cfg, p, s)
    requires AloneThroughout(cfg, s.db.enquiries[p.id].text, p, events)
    requires AloneThroughout(cfg, s.db.enquiries[p.id].text, p, events')
    requires Finished(Run(cfg, s, events).db, p.id) && Finished(Run(cfg, s, events').db, p.id)
    ensures SameButRecords(cfg, s.db, p, Run(cfg, s, events).db, Run(cfg, s, events').db)
    ensures ReadsOf(cfg, s, events).team && ReadsOf(cfg, s, events').team ==>
      SameCrm(cfg, s.db, p, Run(cfg, s, events).db, Run(cfg, s, events').db)
  {
    hide Run, Start, Replayable, Apply, ReadsOf, SameButRecords, ToCrm, RecordedAs;
    var t := RunKeepsSolo(cfg, p, s, events);
    var t' := RunKeepsSolo(cfg, p, s, events');
    TeamReadOwnerRead(cfg, s, events);
    TeamReadOwnerRead(cfg, s, events');
    FinishedAlike(cfg, s.db, s.now, p, t, t', ReadsOf(cfg, s, events), ReadsOf(cfg, s, events'), Run(cfg, s, events), Run(cfg, s, events'));
    DoneRecords(cfg, s.db, s.now, p, t, ReadsOf(cfg, s, events), Run(cfg, s, events));
    DoneRecords(cfg, s.db, s.now, p, t', ReadsOf(cfg, s, events'), Run(cfg, s, events'));
  }

  /** And exactly then: a history leaves the records of one that read its rules if and only if
      it too had read them when it last wrote the record, or reading them gives nothing. */
  lemma RecordsConvergeExactly(cfg: Config, p: Case, s: State, events: seq<Event>, events': seq<Event>)
    requires StartsAlone(cfg, p, s) && ToCrm(cfg, p)
    requires AloneThroughout(cfg, s.db.enquiries[p.id].text, p, events)
    requires AloneThroughout(cfg, s.db.enquiries[p.id].text, p, events')
    requires Finished(Run(cfg, s, events).db, p.id) && Finished(Run(cfg, s, events').db, p.id)
    requires ReadsOf(cfg, s, events).team
    ensures Run(cfg, s, events').db.records == Run(cfg, s, events).db.records <==>
      ReadsOf(cfg, s, events').team || ReadingGivesNothing(cfg, s.db, p, ReadsOf(cfg, s, events').owner)
  {
    hide Run, Start, Replayable, Apply, ReadsOf, ToCrm, RecordedAs, ReadingGivesNothing;
    var t := RunKeepsSolo(cfg, p, s, events);
    var t' := RunKeepsSolo(cfg, p, s, events');
    TeamReadOwnerRead(cfg, s, events);
    TeamReadOwnerRead(cfg, s, events');
    DoneRecords(cfg, s.db, s.now, p, t, ReadsOf(cfg, s, events), Run(cfg, s, events));
    DoneRecords(cfg, s.db, s.now, p, t', ReadsOf(cfg, s, events'), Run(cfg, s, events'));
    RecordsAgreeWhen(cfg, s.db, p, ReadsOf(cfg, s, events').team, ReadsOf(cfg, s, events').owner);
  }

  ghost predicate AlwaysReads(events: seq<Event>) {
    forall i | 0 <= i < |events| :: events[i].Work? ==> events[i].oracle.rulesOk
  }

  /** In a history in which the rules can always be read, they had been. */
  lemma {:induction false} AlwaysReadsReads(cfg: Config, s: State, events: seq<Event>)
    requires AlwaysReads(events)
    ensures ReadsOf(cfg, s, events).inHand && ReadsOf(cfg, s, events).team
  {
    hide WorkerStep, Run;
    if events != [] {
      AlwaysReadsReads(cfg, s, events[..|events| - 1]);
    }
  }

  /** What that is, for an enquiry that routing sends to the CRM and for which nothing has
      been written yet: one record, on the one contact, for the owner least loaded at the
      start, and one reply awaiting approval. */
  ghost predicate OneOfEach(cfg: Config, db0: Db, p: Case, b: Db) {
    var team, n, k := TeamFor(cfg, p), |db0.messages|, |db0.records|;
    && b.records == db0.records +
         [CrmRecord(RecordKindOf(p.ex.enquiryType), Target(cfg, db0, p), OwnerFor(cfg, db0.records, team), team.0, true, p.id)]
    && |b.messages| == n + 1 && b.messages[..n] == db0.messages
    && b.messages[n].(body := "", draftedBy := ByModel("")) == Message(p.id, Some(k), Reply, "", MsgPending, ByModel(""), None)
  }

  lemma DoneIsOneOfEach(cfg: Config, db0: Db, p: Case, g: Reads, b: Db)
    requires TablesAt(cfg, db0, p, DraftIn, g, b) && ToCrm(cfg, p) && g.team && g.owner
    requires RecordOf(db0.records, p.id) == |db0.records| && MessageOf(db0.messages, p.id, Reply) == |db0.messages|
    ensures OneOfEach(cfg, db0, p, b)
  {
    hide Contacted, Target, TeamFor, OwnerFor, ToCrm;
    var n := |db0.messages|;
    assert Wordless(b.messages[n]) == Wordless(Drafted(cfg, db0, p, "", ByModel(""))[n]);
    assert b.messages[..n] == db0.messages;
  }

  lemma FinishedLeavesOneOfEach(cfg: Config, p: Case, s: State, events: seq<Event>)
    requires StartsAlone(cfg, p, s) && ToCrm(cfg, p)
    requires AloneThroughout(cfg, s.db.enquiries[p.id].text, p, events)
    requires RecordOf(s.db.records, p.id) == |s.db.records| && MessageOf(s.db.messages, p.id, Reply) == |s.db.messages|
    requires Finished(Run(cfg, s, events).db, p.id) && ReadsOf(cfg, s, events).team
    ensures OneOfEach(cfg, s.db, p, Run(cfg, s, events).db)
  {
    hide Run, Start, Replayable, Apply, TablesAt, PcAt, RestsWell, ToCrm, OneOfEach, ReadsOf;
    var t := RunKeepsSolo(cfg, p, s, events);
    TeamReadOwnerRead(cfg, s, events);
    FinishedMeansDone(cfg, s.db, s.now, p, t, ReadsOf(cfg, s, events), Run(cfg, s, events));
    DoneIsOneOfEach(cfg, s.db, p, ReadsOf(cfg, s, events), Run(cfg, s, events).db);
  }
}
