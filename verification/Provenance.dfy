/** Where contact data comes from, and which contacts are ever changed. */
module Provenance {
  import opened Base
  import opened Text
  import opened Model
  import opened Router
  import opened Grounding
  import opened Tables
  import opened System
  import opened Safety

  // ---------- only exact matches are attached to ----------

  /** The event is worker i attaching its enquiry to contact c, which carries the trusted
      e-mail address or the trusted phone number. */
  ghost predicate AttachesExactly(cfg: Config, s: State, a: Event, c: nat)
    requires c < |s.db.contacts|
  {
    && a.Work? && a.worker < |s.workers| && s.workers[a.worker].AtContact?
    && var pc := s.workers[a.worker];
       Existing(pc.dup, pc.d) == Some(c) && ExactlyMatches(cfg.lower, s.db.contacts[c], Trusted(pc.ex))
  }

  /** A worker about to write a contact either creates one or attaches to an exact match. */
  lemma AttachTargetIsExact(cfg: Config, db: Db, pc: Pc)
    requires cfg.autoAttach > FUZZY_CAP
    requires WorkerOk(cfg, db, pc) && pc.AtContact? && Existing(pc.dup, pc.d).Some?
    ensures pc.dup.value.contact < |db.contacts| && ExactlyMatches(cfg.lower, db.contacts[pc.dup.value.contact], Trusted(pc.ex))
  {
    hide Checked, MayAct, LeastEligible, Identifiable, ExactlyMatches;
  }

  lemma OnlyContactWritesTouchContacts(cfg: Config, db: Db, w: Write, c: nat)
    requires c < |db.contacts| && c < |Exec(cfg, db, w).contacts| && Exec(cfg, db, w).contacts[c] != db.contacts[c]
    ensures w.WriteContactRow? && w.existing == Some(c)
  {}

  lemma OnlyWorkersWriteContacts(cfg: Config, s: State, a: Event)
    requires Emit(cfg, s, a).WriteContactRow?
    ensures a.Work? && a.worker < |s.workers| && s.workers[a.worker].AtContact?
    ensures var pc := s.workers[a.worker];
      Emit(cfg, s, a) == WriteContactRow(pc.e.id, pc.ex, Existing(pc.dup, pc.d), a.oracle.company)
  {
    hide UpsertContact, Route, IsMatch, Extract, IsCompanyHit;
  }

  /** Exact-only attachment: with an auto-attach threshold above the fuzzy cap, no event
      in any run changes an existing contact unless a worker attaches to it on an exact
      e-mail or phone match. A fuzzy hit never changes a contact. */
  lemma OnlyExactMatchesAreModified(cfg: Config, s: State, a: Event, c: nat)
    requires cfg.autoAttach > FUZZY_CAP && Reachable(cfg, s) && c < |s.db.contacts|
    ensures var db' := Exec(cfg, s.db, Emit(cfg, s, a));
      c < |db'.contacts| && (db'.contacts[c] != s.db.contacts[c] ==> AttachesExactly(cfg, s, a, c))
  {
    ReachableIsInv(cfg, s);
    var w := Emit(cfg, s, a);
    EmitIsPermitted(cfg, s, a);
    ExecKeepsRows(cfg, s.db, w);
    hide Good, WorkerOk, Exec, UpsertContact;
    if Exec(cfg, s.db, w).contacts[c] != s.db.contacts[c] {
      OnlyContactWritesTouchContacts(cfg, s.db, w, c);
      OnlyWorkersWriteContacts(cfg, s, a);
      AttachTargetIsExact(cfg, s.db, s.workers[a.worker]);
    }
  }

  // ---------- grounded provenance ----------

  /** v occurs in the text after normalisation, or came with a non-blank quote that does. */
  ghost predicate Vouched(f: CaseMap, text: string, ex: Extraction, field: Field, v: string) {
    !Blank(v) && (Contains(Norm(f, text), Norm(f, v)) || Quoted(f, text, ex.quotes, field))
  }

  function TrustedField(ex: Extraction, field: Field): Option<string> {
    match field
    case NameField => Trusted(ex).name
    case EmailField => Trusted(ex).email
    case PhoneField => Trusted(ex).phone
    case _ => None
  }

  /** Statement k of the run wrote v into a contact, for an enquiry whose own text vouches for it. */
  ghost predicate SourcedAt(cfg: Config, db: Db, log: seq<Write>, k: int, field: Field, v: string) {
    && 0 <= k < |log| && log[k].WriteContactRow? && log[k].enquiry < |db.enquiries|
    && TrustedField(log[k].ex, field) == Some(v)
    && Vouched(cfg.lower, db.enquiries[log[k].enquiry].text, log[k].ex, field, v)
  }

  ghost predicate Sourced(cfg: Config, db: Db, log: seq<Write>, field: Field, v: string) {
    exists k :: SourcedAt(cfg, db, log, k, field, v)
  }

  /** Every value of the contact was there at the start or is sourced. */
  ghost predicate ContactSourced(cfg: Config, db: Db, log: seq<Write>, was: Option<Contact>, c: Contact) {
    && (HasText(c.name) ==> (was.Some? && was.value.name == c.name) || Sourced(cfg, db, log, NameField, c.name.value))
    && (c.email.Some? ==> (was.Some? && was.value.email == c.email) || Sourced(cfg, db, log, EmailField, c.email.value))
    && (c.phone.Some? ==> (was.Some? && was.value.phone == c.phone) || Sourced(cfg, db, log, PhoneField, c.phone.value))
  }

  /** The contact as it was at the start, if it was there. */
  function AtStart(start: seq<Contact>, c: nat): Option<Contact> {
    if c < |start| then Some(start[c]) else None
  }

  predicate HasContent(v: Option<string>) {
    v.Some? && !Blank(v.value)
  }

  /** The contact can be reached or recognised. */
  predicate Recognisable(c: Contact) {
    HasContent(c.name) || HasContent(c.email) || HasContent(c.phone)
  }

  lemma SourcesPersist(cfg: Config, db: Db, db': Db, log: seq<Write>, w: Write, was: Option<Contact>, c: Contact)
    requires ContactSourced(cfg, db, log, was, c) && Kept(db, db')
    ensures ContactSourced(cfg, db', log + [w], was, c)
  {
    hide Vouched, TrustedField;
    forall field, v | Sourced(cfg, db, log, field, v) ensures Sourced(cfg, db', log + [w], field, v) {
      var k :| SourcedAt(cfg, db, log, k, field, v);
      assert EnquiryKept(db.enquiries[log[k].enquiry], db'.enquiries[log[k].enquiry]);
      assert (log + [w])[k] == log[k];
      assert SourcedAt(cfg, db', log + [w], k, field, v);
    }
  }

  /** A checked extraction vouches for every field it is trusted with. */
  lemma TrustedIsVouched(f: CaseMap, text: string, ex: Extraction, field: Field)
    requires Checked(f, text, ex)
    ensures TrustedField(ex, field).Some? ==> Vouched(f, text, ex, field, TrustedField(ex, field).value)
  {
    hide UnverifiedOf, Valid, AddressShaped, Supported, Vouched, Trusted, Blank;
    TrustedIsExactlySupported(f, text, ex);
    match field {
      case NameField => SupportedIsVouched(f, text, ex, field, ex.contact.name);
      case EmailField => SupportedIsVouched(f, text, ex, field, ex.contact.email);
      case PhoneField => SupportedIsVouched(f, text, ex, field, ex.contact.phone);
      case _ =>
    }
  }

  lemma SupportedIsVouched(f: CaseMap, text: string, ex: Extraction, field: Field, v: Option<string>)
    requires v.Some? ==> !Blank(v.value)
    ensures v.Some? && Supported(f, text, ex.quotes, field, v) ==> Vouched(f, text, ex, field, v.value)
  {
    hide Blank, Contains, Norm;
  }

  lemma WriteIsSource(cfg: Config, db: Db, log: seq<Write>, w: Write, field: Field)
    requires w.WriteContactRow? && w.enquiry < |db.enquiries|
    requires Checked(cfg.lower, db.enquiries[w.enquiry].text, w.ex)
    ensures TrustedField(w.ex, field).Some? ==> Sourced(cfg, db, log + [w], field, TrustedField(w.ex, field).value)
  {
    TrustedIsVouched(cfg.lower, db.enquiries[w.enquiry].text, w.ex, field);
    hide Vouched, Checked, TrustedField;
    if TrustedField(w.ex, field).Some? {
      assert (log + [w])[|log|] == w;
      assert SourcedAt(cfg, db, log + [w], |log|, field, TrustedField(w.ex, field).value);
    }
  }

  /** Each field of a row after a contact write was there before or is one of the trusted fields. */
  ghost predicate Mixes(before: Option<Contact>, c: ContactInfo, after: Contact) {
    && (HasText(after.name) ==> after.name == c.name || (before.Some? && after.name == before.value.name))
    && (after.email.Some? ==> after.email == c.email || (before.Some? && after.email == before.value.email))
    && (after.phone.Some? ==> after.phone == c.phone || (before.Some? && after.phone == before.value.phone))
  }

  lemma ContactRowsMix(cfg: Config, db: Db, w: Write, i: nat)
    requires w.WriteContactRow? && i < |Exec(cfg, db, w).contacts|
    ensures Mixes(if i < |db.contacts| then Some(db.contacts[i]) else None, Trusted(w.ex), Exec(cfg, db, w).contacts[i])
  {
    hide Trusted, IsCompanyHit, EmailOf, CompaniesAfter, CompanyIdAfter;
  }

  lemma MixIsSourced(cfg: Config, db: Db, log: seq<Write>, ex: Extraction, was: Option<Contact>, before: Option<Contact>,
      after: Contact)
    requires Mixes(before, Trusted(ex), after)
    requires before.Some? ==> ContactSourced(cfg, db, log, was, before.value)
    requires forall field :: TrustedField(ex, field).Some? ==> Sourced(cfg, db, log, field, TrustedField(ex, field).value)
    ensures ContactSourced(cfg, db, log, was, after)
  {
    hide Sourced;
    assert TrustedField(ex, NameField) == Trusted(ex).name;
    assert TrustedField(ex, EmailField) == Trusted(ex).email;
    assert TrustedField(ex, PhoneField) == Trusted(ex).phone;
  }

  ghost predicate AllSourced(cfg: Config, start: seq<Contact>, s: State) {
    && |start| <= |s.db.contacts|
    && forall c | 0 <= c < |s.db.contacts| :: ContactSourced(cfg, s.db, s.log, AtStart(start, c), s.db.contacts[c])
  }

  lemma WritingWorkerIsChecked(cfg: Config, s: State, a: Event)
    requires Agents(cfg, s) && Emit(cfg, s, a).WriteContactRow?
    ensures var w := Emit(cfg, s, a);
      w.enquiry < |s.db.enquiries| && Checked(cfg.lower, s.db.enquiries[w.enquiry].text, w.ex)
  {
    OnlyWorkersWriteContacts(cfg, s, a);
    hide Emit, Checked, Route, MatchOk;
    assert WorkerOk(cfg, s.db, s.workers[a.worker]);
  }

  lemma ApplyKeepsSourced(cfg: Config, start: seq<Contact>, s: State, a: Event)
    requires Agents(cfg, s) && AllSourced(cfg, start, s)
    ensures AllSourced(cfg, start, Apply(cfg, s, a))
  {
    var w, db' := Emit(cfg, s, a), Exec(cfg, s.db, Emit(cfg, s, a));
    EmitIsPermitted(cfg, s, a);
    ExecKeepsRows(cfg, s.db, w);
    if w.WriteContactRow? {
      WritingWorkerIsChecked(cfg, s, a);
    } else {
      assert db'.contacts == s.db.contacts;
    }
    hide Emit, Exec, Agents, Checked, ContactSourced;
    forall c | 0 <= c < |db'.contacts| ensures ContactSourced(cfg, db', s.log + [w], AtStart(start, c), db'.contacts[c]) {
      if c < |s.db.contacts| {
        SourcesPersist(cfg, s.db, db', s.log, w, AtStart(start, c), s.db.contacts[c]);
      }
      if w.WriteContactRow? {
        assert EnquiryKept(s.db.enquiries[w.enquiry], db'.enquiries[w.enquiry]);
        forall field ensures TrustedField(w.ex, field).Some? ==> Sourced(cfg, db', s.log + [w], field, TrustedField(w.ex, field).value) {
          WriteIsSource(cfg, db', s.log, w, field);
        }
        ContactRowsMix(cfg, s.db, w, c);
        MixIsSourced(cfg, db', s.log + [w], w.ex, AtStart(start, c), if c < |s.db.contacts| then Some(s.db.contacts[c]) else None, db'.contacts[c]);
      }
    }
  }

  lemma {:induction false} RunKeepsSourced(cfg: Config, s: State, events: seq<Event>)
    requires Start(cfg, s)
    ensures AllSourced(cfg, s.db.contacts, Run(cfg, s, events)) && Agents(cfg, Run(cfg, s, events))
  {
    hide Apply, Good, WorkerOk;
    if events == [] {
      StartIsInv(cfg, s);
    } else {
      var t := Run(cfg, s, events[..|events| - 1]);
      RunKeepsSourced(cfg, s, events[..|events| - 1]);
      ApplyKeepsSourced(cfg, s.db.contacts, t, events[|events| - 1]);
      ApplyKeepsAgents(cfg, t, events[|events| - 1]);
    }
  }

  /** Grounded provenance of the CRM: every name, e-mail and phone that any run ever puts
      into a contact row occurred, after normalisation, in the text of the enquiry that
      wrote it, or came with a non-blank quote that did. What is not of that kind was in
      that row at the start. */
  lemma ContactsAreGrounded(cfg: Config, s: State, events: seq<Event>, c: nat)
    requires Start(cfg, s) && c < |Run(cfg, s, events).db.contacts|
    ensures var t := Run(cfg, s, events); ContactSourced(cfg, t.db, t.log, AtStart(s.db.contacts, c), t.db.contacts[c])
  {
    RunKeepsSourced(cfg, s, events);
  }

  // ---------- every created contact is identifiable ----------

  lemma RoutedToCrmIsIdentifiable(cfg: Config, text: string, ex: Extraction, dup: Option<Match>)
    requires Checked(cfg.lower, text, ex)
    requires Route(ex, dup, cfg.rules, cfg.confidence, cfg.autoAttach).action == CreateOrUpdateCrm
    ensures HasContent(Trusted(ex).name) || HasContent(Trusted(ex).email) || HasContent(Trusted(ex).phone)
  {
    hide Checked, LeastEligible;
  }

  lemma CreatingWorkerIdentifies(cfg: Config, db: Db, pc: Pc)
    requires WorkerOk(cfg, db, pc) && pc.AtContact? && Existing(pc.dup, pc.d).None?
    ensures HasContent(Trusted(pc.ex).name) || HasContent(Trusted(pc.ex).email) || HasContent(Trusted(pc.ex).phone)
  {
    hide Checked, Identifiable, LeastEligible, MatchOk, Trusted, HasContent;
    assert pc.d.action == CreateOrUpdateCrm;
    RoutedToCrmIsIdentifiable(cfg, pc.e.text, pc.ex, pc.dup);
  }

  lemma KeptIsRecognisable(a: Contact, b: Contact)
    requires ContactKept(a, b) && Recognisable(a)
    ensures Recognisable(b)
  {
    assert Blank("");
  }

  /** Every contact that is new, or was recognisable at the start, is recognisable. */
  ghost predicate Recognised(start: seq<Contact>, cs: seq<Contact>) {
    && |start| <= |cs|
    && forall c | 0 <= c < |cs| :: (c < |start| ==> Recognisable(start[c])) ==> Recognisable(cs[c])
  }

  lemma ApplyKeepsIdentifiable(cfg: Config, start: seq<Contact>, s: State, a: Event)
    requires Agents(cfg, s) && Recognised(start, s.db.contacts)
    ensures Recognised(start, Apply(cfg, s, a).db.contacts)
  {
    hide Emit, Exec, Agents;
    var w, db' := Emit(cfg, s, a), Exec(cfg, s.db, Emit(cfg, s, a));
    EmitIsPermitted(cfg, s, a);
    ExecKeepsRows(cfg, s.db, w);
    forall c | 0 <= c < |db'.contacts| && (c < |start| ==> Recognisable(start[c])) ensures Recognisable(db'.contacts[c]) {
      if c < |s.db.contacts| {
        assert ContactKept(s.db.contacts[c], db'.contacts[c]);
        if Recognisable(s.db.contacts[c]) {
          KeptIsRecognisable(s.db.contacts[c], db'.contacts[c]);
        }
      } else {
        NewContactIsIdentified(cfg, s, a);
      }
    }
  }

  lemma NewContactRow(cfg: Config, db: Db, w: Write)
    ensures var cs, cs' := db.contacts, Exec(cfg, db, w).contacts;
      && |cs| <= |cs'| <= |cs| + 1
      && (|cs'| > |cs| ==>
            w.WriteContactRow? && w.existing.None? &&
            var t := Trusted(w.ex); cs'[|cs|].name == t.name && cs'[|cs|].email == t.email && cs'[|cs|].phone == t.phone)
  {
    hide Trusted, CompaniesAfter, CompanyIdAfter, EmailOf;
  }

  lemma NewContactIsIdentified(cfg: Config, s: State, a: Event)
    requires Agents(cfg, s)
    ensures var cs, cs' := s.db.contacts, Exec(cfg, s.db, Emit(cfg, s, a)).contacts;
      |cs| <= |cs'| <= |cs| + 1 && (|cs'| > |cs| ==> Recognisable(cs'[|cs|]))
  {
    var w := Emit(cfg, s, a);
    NewContactRow(cfg, s.db, w);
    if w.WriteContactRow? && w.existing.None? {
      OnlyWorkersWriteContacts(cfg, s, a);
      assert WorkerOk(cfg, s.db, s.workers[a.worker]);
      CreatingWorkerIdentifies(cfg, s.db, s.workers[a.worker]);
    }
    hide Emit, Exec, Trusted, WorkerOk;
  }

  /** In every run each contact that was not there at the start has a name, an e-mail or a phone
      that is not blank, and no contact that had one loses it. */
  lemma {:induction false} ContactsAreIdentifiable(cfg: Config, s: State, events: seq<Event>)
    requires Start(cfg, s)
    ensures Agents(cfg, Run(cfg, s, events)) && Recognised(s.db.contacts, Run(cfg, s, events).db.contacts)
  {
    hide Apply, Good, WorkerOk;
    if events == [] {
      StartIsInv(cfg, s);
    } else {
      var t := Run(cfg, s, events[..|events| - 1]);
      ContactsAreIdentifiable(cfg, s, events[..|events| - 1]);
      ApplyKeepsIdentifiable(cfg, s.db.contacts, t, events[|events| - 1]);
      ApplyKeepsAgents(cfg, t, events[|events| - 1]);
    }
  }
}
