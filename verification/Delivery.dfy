/** Idempotent ingestion: internal/api/server.go handleWebhook over whole runs. */
module Delivery {
  import opened Base
  import opened Text
  import opened Ingest
  import opened Model
  import opened Router
  import opened Grounding
  import opened Tables
  import opened System
  import opened Safety

  /** The enquiry id the webhook answers with: the new row's, or the original's on a redelivery. */
  function Answer(db: Db, key: string): nat {
    KeyOf(db.enquiries, key)
  }

  lemma {:induction false} KeyOfIsStable(a: seq<Enquiry>, b: seq<Enquiry>, key: string)
    requires |a| <= |b| && (forall i | 0 <= i < |a| :: b[i].key == a[i].key)
    requires KeyOf(a, key) < |a|
    ensures KeyOf(b, key) == KeyOf(a, key)
  {
    var i := KeyOf(a, key);
    assert b[i].key == key;
    assert forall j | 0 <= j < i :: b[j].key == a[j].key != key;
  }

  /** Between the first delivery (leading to `before`) and a redelivery (leading from `mid`
      to `after`): the redelivery stores nothing, and the key answers the same enquiry with
      the same text as it did at first. */
  ghost predicate AnswersAlike(before: Db, mid: Db, after: Db, key: string) {
    var id := Answer(before, key);
    && id < |before.enquiries| && after == mid
    && Answer(after, key) == id && id < |after.enquiries|
    && after.enquiries[id].text == before.enquiries[id].text
  }

  lemma KeptKeysAnswerAlike(a: Db, b: Db, key: string)
    requires Kept(a, b) && Answer(a, key) < |a.enquiries|
    ensures AnswersAlike(a, b, b, key)
  {
    assert forall i | 0 <= i < |a.enquiries| :: EnquiryKept(a.enquiries[i], b.enquiries[i]);
    KeyOfIsStable(a.enquiries, b.enquiries, key);
  }

  /** Every accepted delivery is answered with one fixed enquiry: whatever has happened in
      between, delivering the same key again stores nothing and answers the same id,
      and that enquiry still has the text it was first stored with. */
  lemma RedeliveryIsIdempotent(cfg: Config, s: State, first: Event, more: seq<Event>, again: Event, t: Intake, t': Intake)
    requires Reachable(cfg, s) && first.Deliver? && again.Deliver?
    requires Accept(cfg.lower, first.sender, first.body, first.clientKey) == Some(t)
    requires Accept(cfg.lower, again.sender, again.body, again.clientKey) == Some(t')
    requires t.key == t'.key
    ensures var s1 := Apply(cfg, s, first);
      var s2 := Run(cfg, s1, more);
      AnswersAlike(s1.db, s2.db, Apply(cfg, s2, again).db, t.key)
  {
    hide Inv, Accept, Kept, Run, Apply, Emit, AnswersAlike;
    var s1 := Apply(cfg, s, first);
    var s2 := Run(cfg, s1, more);
    DeliveredKeyIsStored(cfg, s, first, t);
    ReachableIsInv(cfg, s);
    ApplyKeepsInv(cfg, s, first);
    RunKeepsInv(cfg, s1, more);
    KeptKeysAnswerAlike(s1.db, s2.db, t.key);
    RedeliveryStoresNothing(cfg, s1.db, s2, again, t');
  }

  lemma RedeliveryStoresNothing(cfg: Config, before: Db, s: State, again: Event, t: Intake)
    requires again.Deliver? && Accept(cfg.lower, again.sender, again.body, again.clientKey) == Some(t)
    requires AnswersAlike(before, s.db, s.db, t.key)
    ensures Apply(cfg, s, again).db == s.db
  {
    hide Accept, WorkersAfter, ReviewersAfter;
  }

  lemma DeliveredKeyIsStored(cfg: Config, s: State, a: Event, t: Intake)
    requires a.Deliver? && Accept(cfg.lower, a.sender, a.body, a.clientKey) == Some(t)
    ensures KeyOf(Apply(cfg, s, a).db.enquiries, t.key) < |Apply(cfg, s, a).db.enquiries|
  {
    hide Accept, WorkersAfter, ReviewersAfter;
    var es, es' := s.db.enquiries, Apply(cfg, s, a).db.enquiries;
    if KeyOf(es, t.key) == |es| {
      assert es' == es + [NewEnquiry(s.now, t)];
      assert es'[|es|].key == t.key;
    }
  }

  // ---------- content-derived keys ----------

  ghost predicate ContentKeyed(events: seq<Event>) {
    forall i | 0 <= i < |events| :: events[i].Deliver? ==> Blank(events[i].clientKey)
  }

  ghost predicate KeyedByContent(es: seq<Enquiry>) {
    forall i | 0 <= i < |es| :: es[i].key == AutoKey(es[i].hash)
  }

  lemma HashesAreUnique(es: seq<Enquiry>, i: nat, j: nat)
    requires GoodEnquiries(es) && KeyedByContent(es) && i < |es| && j < |es| && i != j
    ensures es[i].hash != es[j].hash
  {
    var a, b := if i < j then i else j, if i < j then j else i;
    assert es[a].key != es[b].key;
  }

  predicate Discarding(pc: Pc) {
    pc.AtRest? && pc.status == DiscardedDuplicate
  }

  ghost predicate NeverDiscards(s: State) {
    KeyedByContent(s.db.enquiries) && forall i | 0 <= i < |s.workers| :: !Discarding(s.workers[i])
  }

  lemma InsertedKeysAreContent(cfg: Config, s: State, a: Event)
    requires a.Deliver? ==> Blank(a.clientKey)
    ensures var w := Emit(cfg, s, a); w.InsertEnquiryRow? ==> w.intake.key == AutoKey(w.intake.hash)
  {
    hide WorkerStep, Clean, DedupeKey, AutoKey;
    if a.Work? && a.worker < |s.workers| {
      StepsDoNotInsert(cfg, s.db, s.now, Locked(s.reviewers), s.workers[a.worker], a.oracle);
    }
  }

  lemma KeysStayContent(cfg: Config, db: Db, w: Write)
    requires KeyedByContent(db.enquiries) && (w.InsertEnquiryRow? ==> w.intake.key == AutoKey(w.intake.hash))
    ensures KeyedByContent(Exec(cfg, db, w).enquiries)
  {
    hide AutoKey, UpsertContact, UpsertDraft, UpsertRecord;
  }

  lemma StepsDoNotInsert(cfg: Config, db: Db, now: int, locked: set<nat>, pc: Pc, o: Oracle)
    ensures WorkerStep(cfg, db, now, locked, pc, o).Some? ==> !WorkerStep(cfg, db, now, locked, pc, o).value.write.InsertEnquiryRow?
  {}

  /** Only the dedupe stage starts a discard, and only when it finds a duplicate. */
  lemma DiscardNeedsDuplicate(cfg: Config, db: Db, now: int, locked: set<nat>, pc: Pc, o: Oracle)
    requires WorkerStep(cfg, db, now, locked, pc, o).Some? && Discarding(WorkerStep(cfg, db, now, locked, pc, o).value.next)
    ensures pc.AtDedupe? && HasRecentDuplicate(db.enquiries, pc.e.hash, pc.e.id, now, cfg.dedupeWindow)
  {}

  lemma ApplyNeverDiscards(cfg: Config, s: State, a: Event)
    requires Inv(cfg, s) && NeverDiscards(s) && (a.Deliver? ==> Blank(a.clientKey))
    ensures NeverDiscards(Apply(cfg, s, a))
  {
    hide Good, WorkerOk, ReviewerOk, Exec, KeyedByContent, WorkerStep;
    EmitIsPermitted(cfg, s, a);
    ExecKeepsRows(cfg, s.db, Emit(cfg, s, a));
    InsertedKeysAreContent(cfg, s, a);
    KeysStayContent(cfg, s.db, Emit(cfg, s, a));
    var ws := WorkersAfter(cfg, s, a);
    hide Emit;
    forall i | 0 <= i < |ws| ensures !Discarding(ws[i]) {
      if ws[i] != s.workers[i] && a.Work? && Discarding(ws[i]) {
        DiscardNeedsDuplicate(cfg, s.db, s.now, Locked(s.reviewers), s.workers[a.worker], a.oracle);
        NoDuplicateFor(cfg, s, a.worker);
      }
    }
  }

  lemma NoDuplicateFor(cfg: Config, s: State, i: nat)
    requires Inv(cfg, s) && KeyedByContent(s.db.enquiries) && i < |s.workers| && s.workers[i].AtDedupe?
    ensures var e := s.workers[i].e; !HasRecentDuplicate(s.db.enquiries, e.hash, e.id, s.now, cfg.dedupeWindow)
  {
    assert WorkerOk(cfg, s.db, s.workers[i]);
    var es, e := s.db.enquiries, s.workers[i].e;
    hide Agents, WorkerOk;
    forall j | 0 <= j < |es| && j != e.id ensures es[j].hash != e.hash {
      HashesAreUnique(es, j, e.id);
    }
  }

  lemma {:induction false} RunNeverDiscards(cfg: Config, s: State, events: seq<Event>)
    requires Start(cfg, s) && s.db.enquiries == [] && ContentKeyed(events)
    ensures NeverDiscards(Run(cfg, s, events)) && Inv(cfg, Run(cfg, s, events))
  {
    hide Apply, Good, WorkerOk;
    if events == [] {
      StartIsInv(cfg, s);
    } else {
      var t := Run(cfg, s, events[..|events| - 1]);
      RunNeverDiscards(cfg, s, events[..|events| - 1]);
      ApplyNeverDiscards(cfg, t, events[|events| - 1]);
      ApplyKeepsInv(cfg, t, events[|events| - 1]);
    }
  }

  /** In a run where every key is content-derived no two stored enquiries share a dedupe
      hash, and the duplicate-discard stage never fires. */
  lemma ContentKeysLeaveNothingToDiscard(cfg: Config, s: State, events: seq<Event>)
    requires Start(cfg, s) && s.db.enquiries == [] && ContentKeyed(events)
    ensures var t := Run(cfg, s, events);
      && (forall i, j | 0 <= i < j < |t.db.enquiries| :: t.db.enquiries[i].hash != t.db.enquiries[j].hash)
      && (forall i | 0 <= i < |t.workers| :: !Discarding(t.workers[i]))
  {
    RunNeverDiscards(cfg, s, events);
    var t := Run(cfg, s, events);
    hide Run, Agents;
    forall i, j | 0 <= i < j < |t.db.enquiries| ensures t.db.enquiries[i].hash != t.db.enquiries[j].hash {
      HashesAreUnique(t.db.enquiries, i, j);
    }
  }
}
