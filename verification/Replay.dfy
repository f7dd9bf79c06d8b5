/** Crash-replay convergence: a worker that crashes or fails after any prefix of its
    writes, any number of times, and starts the same enquiry over ends up with the same
    CRM as one that was never interrupted, although the replay takes the attach branch
    where the first attempt took the create branch. */
module Replay {
  import opened Base
  import opened Text
  import opened Model
  import opened Router
  import opened Grounding
  import opened Tables
  import opened System

  // ---------- the enquiry, and what an uninterrupted run makes of it ----------

  /** One enquiry, its extraction, and the answers the two lookups give on the tables as
      they are before anything is written for it. */
  datatype Case = Case(id: nat, ex: Extraction, dup: Option<Match>, hit: Option<nat>)

  function Decided(cfg: Config, p: Case): Decision {
    Route(p.ex, p.dup, cfg.rules, cfg.confidence, cfg.autoAttach)
  }

  predicate ToCrm(cfg: Config, p: Case) {
    Decided(cfg, p).action == AttachToExistingContact || Decided(cfg, p).action == CreateOrUpdateCrm
  }

  function Contacted(cfg: Config, db: Db, p: Case): Option<ContactWrite> {
    UpsertContact(cfg.lower, db, p.id, Trusted(p.ex), Existing(p.dup, Decided(cfg, p)), p.hit)
  }

  /** The contact the enquiry ends up with. */
  function Target(cfg: Config, db: Db, p: Case): nat {
    if Contacted(cfg, db, p).Some? then Contacted(cfg, db, p).value.id else 0
  }

  function TeamFor(cfg: Config, p: Case): (string, Option<nat>) {
    TeamAndUser(cfg, p.ex, p.dup, Decided(cfg, p), true)
  }

  function OwnerFor(cfg: Config, rs: seq<CrmRecord>, team: (string, Option<nat>)): Option<nat> {
    if team.1.None? && team.0 != "" then PickOwner(cfg.users, rs, team.0) else team.1
  }

  /** The CRM record of the enquiry, when the rules were or were not read for the last write
      of its team, and for some write of its owner. */
  function RecordedAs(cfg: Config, db: Db, p: Case, teamRead: bool, ownerRead: bool): seq<CrmRecord> {
    var team := TeamFor(cfg, p);
    UpsertRecord(db.records, CrmRecord(
      RecordKindOf(p.ex.enquiryType), Target(cfg, db, p), if ownerRead then OwnerFor(cfg, db.records, team) else None,
      if teamRead then team.0 else "", true, p.id))
  }

  function Recorded(cfg: Config, db: Db, p: Case): seq<CrmRecord> {
    RecordedAs(cfg, db, p, true, true)
  }

  function DraftKind(cfg: Config, p: Case): MessageKind {
    if ToCrm(cfg, p) then Reply else ClarifyingQuestion
  }

  function DraftRecord(cfg: Config, db: Db, p: Case): Option<nat> {
    if ToCrm(cfg, p) then Some(RecordOf(db.records, p.id)) else None
  }

  function Drafted(cfg: Config, db: Db, p: Case, body: string, author: Author): seq<Message> {
    UpsertDraft(db.messages, Message(p.id, DraftRecord(cfg, db, p), DraftKind(cfg, p), body, MsgPending, author, None))
  }

  function RestingPlace(cfg: Config, p: Case): Status {
    match Decided(cfg, p).action
    case ReviewByHuman => NeedsHumanReview
    case FlagForMergeReview => NeedsHumanReview
    case ArchiveJunk => ArchivedJunk
    case _ => PendingApproval
  }

  // ---------- sameness up to what may differ ----------

  /** A contact up to a NULL against an empty name. */
  function Named(c: Contact): Contact {
    c.(name := Some(OrEmpty(c.name)))
  }

  ghost predicate SameContacts(a: seq<Contact>, b: seq<Contact>, k: nat) {
    |a| == |b| && forall i | 0 <= i < |a| :: if i == k then Named(a[i]) == Named(b[i]) else a[i] == b[i]
  }

  /** A message up to the text and author of a draft that is still undecided. */
  function Wordless(m: Message): Message {
    if Undecided(m.status) then m.(body := "", draftedBy := ByModel("")) else m
  }

  ghost predicate SameMessages(a: seq<Message>, b: seq<Message>, k: nat) {
    |a| == |b| && forall i | 0 <= i < |a| :: if i == k then Wordless(a[i]) == Wordless(b[i]) else a[i] == b[i]
  }

  // ---------- when replays converge ----------

  /** dup is the only answer the match query can give. */
  ghost predicate OnlyMatch(cfg: Config, db: Db, c: ContactInfo, dup: Option<Match>) {
    IsMatch(cfg, db, c, dup) && forall m | IsMatch(cfg, db, c, m) :: m == dup
  }

  /** hit is the only answer the company query can give. */
  ghost predicate OnlyCompany(cfg: Config, db: Db, c: ContactInfo, hit: Option<nat>) {
    IsCompanyHit(cfg.lower, db.companies, c, hit) && forall h | IsCompanyHit(cfg.lower, db.companies, c, h) :: h == hit
  }

  predicate CanBeFoundAgain(c: ContactInfo) {
    (c.email.Some? && !Blank(c.email.value)) || (c.phone.Some? && |Digits(c.phone.value)| >= 7)
  }

  /** The contact the enquiry goes to, if it goes to the CRM, has no company yet. */
  predicate LacksCompany(cfg: Config, db: Db, p: Case) {
    var existing := Existing(p.dup, Decided(cfg, p));
    existing.Some? && existing.value < |db.contacts| ==> db.contacts[existing.value].company.None?
  }

  /** The enquiry is not a duplicate, and p.dup and p.hit are answers the lookups can give. */
  ghost predicate Prepared(cfg: Config, db: Db, now: int, p: Case) {
    && p.id < |db.enquiries|
    && Checked(cfg.lower, db.enquiries[p.id].text, p.ex)
    && GoodContacts(cfg.lower, db.contacts)
    && (if p.ex.enquiryType == TYPE_JUNK then p.dup.None? else IsMatch(cfg, db, Trusted(p.ex), p.dup))
    && (ToCrm(cfg, p) ==> IsCompanyHit(cfg.lower, db.companies, Trusted(p.ex), p.hit))
    && !HasRecentDuplicate(db.enquiries, db.enquiries[p.id].hash, p.id, now, cfg.dedupeWindow)
  }

  /** Rules come in the store's order, an exact match is enough to attach, and contacts refer to
      companies that are there. */
  ghost predicate AsShipped(cfg: Config, db: Db) {
    && InOrder(cfg.rules) && cfg.autoAttach <= PHONE_SCORE && cfg.trgmFloor > 0.0
    && (forall i | 0 <= i < |db.contacts| :: db.contacts[i].company.Some? ==> db.contacts[i].company.value < |db.companies|)
  }

  /** Whoever is newly entered can be found again by an identifier. */
  predicate Findable(cfg: Config, p: Case) {
    Decided(cfg, p).action == CreateOrUpdateCrm ==> CanBeFoundAgain(Trusted(p.ex))
  }

  /** All answers of the match query name the same contact. */
  ghost predicate OneTarget(cfg: Config, db: Db, c: ContactInfo, dup: Option<Match>) {
    dup.Some? && forall m | IsMatch(cfg, db, c, m) :: m.Some? && m.value.contact == dup.value.contact
  }

  /** The lookups are unambiguous where they decide anything: the match, if the enquiry is
      attached by it, and the company, if the contact is to get one. */
  ghost predicate Unambiguous(cfg: Config, db: Db, p: Case) {
    && (Decided(cfg, p).action == AttachToExistingContact ==> OneTarget(cfg, db, Trusted(p.ex), p.dup))
    && (ToCrm(cfg, p) && LacksCompany(cfg, db, p) ==> OnlyCompany(cfg, db, Trusted(p.ex), p.hit))
  }

  ghost predicate Replayable(cfg: Config, db: Db, now: int, p: Case) {
    Prepared(cfg, db, now, p) && AsShipped(cfg, db) && Findable(cfg, p) && Unambiguous(cfg, db, p)
  }

  // ---------- the answers of the match query ----------

  /** Whatever the match query can answer on given tables has the same score and method. */
  lemma AnswersAgree(cfg: Config, db: Db, c: ContactInfo, m: Option<Match>, m': Option<Match>)
    requires IsMatch(cfg, db, c, m) && IsMatch(cfg, db, c, m')
    ensures m.None? <==> m'.None?
    ensures m.Some? ==> m.value.score == m'.value.score && m.value.how == m'.value.how
  {
    hide EmailMatches, PhoneMatches, FuzzyMatches, FuzzyScore;
  }

  /** So ties never change the decision, only whom it is about. */
  lemma AnswersDecideAlike(cfg: Config, db: Db, ex: Extraction, m: Option<Match>, m': Option<Match>)
    requires IsMatch(cfg, db, Trusted(ex), m) && IsMatch(cfg, db, Trusted(ex), m')
    ensures Route(ex, m, cfg.rules, cfg.confidence, cfg.autoAttach) == Route(ex, m', cfg.rules, cfg.confidence, cfg.autoAttach)
  {
    AnswersAgree(cfg, db, Trusted(ex), m, m');
    hide IsMatch, LeastEligible, Identifiable, Trusted;
  }

  /** An enquiry on its way to the CRM has been matched without ambiguity. */
  lemma CrmMatchIsOnly(cfg: Config, db: Db, now: int, p: Case, m: Option<Match>)
    requires Replayable(cfg, db, now, p) && ToCrm(cfg, p) && IsMatch(cfg, db, Trusted(p.ex), m)
    ensures p.ex.enquiryType != TYPE_JUNK && m == p.dup
  {
    RouteToCrm(cfg, p);
    hide IsMatch, Trusted, Checked, InOrder, GoodContacts, HasRecentDuplicate, Decided, OnlyCompany, IsCompanyHit;
    AnswersAgree(cfg, db, Trusted(p.ex), m, p.dup);
  }

  lemma RouteToCrm(cfg: Config, p: Case)
    requires ToCrm(cfg, p)
    ensures p.ex.enquiryType != TYPE_JUNK && !LowConfidence(p.ex, cfg.confidence) && !Incomplete(p.ex)
    ensures Decided(cfg, p).action == (if p.dup.Some? then AttachToExistingContact else CreateOrUpdateCrm)
    ensures p.dup.Some? ==> p.dup.value.score >= cfg.autoAttach && Existing(p.dup, Decided(cfg, p)) == Some(p.dup.value.contact)
    ensures p.dup.Some? ==> Decided(cfg, p) == Decision(AttachToExistingContact, "", None)
    ensures p.dup.None? ==> LeastEligible(cfg.rules, p.ex).Some?
    ensures p.dup.None? ==> var r := LeastEligible(cfg.rules, p.ex).value; Decided(cfg, p) == Decision(CreateOrUpdateCrm, r.team, r.user)
  {
    hide LeastEligible, Identifiable;
  }

  // ---------- the first contact write ----------

  lemma FirstContactWriteSucceeds(cfg: Config, db: Db, now: int, p: Case)
    requires Prepared(cfg, db, now, p) && ToCrm(cfg, p)
    ensures Contacted(cfg, db, p).Some?
  {
    hide InOrder, FirstEligible, LeastEligible, Identifiable, HasRecentDuplicate, UnverifiedOf, PhoneMatches, FuzzyMatches;
    var c := Trusted(p.ex);
    assert p.ex.enquiryType != TYPE_JUNK;
    if c.email.Some? {
      assert forall i | 0 <= i < |db.contacts| :: EmailMatches(cfg.lower, db.contacts[i], c) <==> HasEmail(cfg.lower, db.contacts[i], c.email.value);
      if EmailTaken(cfg.lower, db.contacts, c.email) {
        var j := EmailOf(cfg.lower, db.contacts, c.email.value);
        assert EmailMatches(cfg.lower, db.contacts[j], c);
      }
    }
  }

  // ---------- what replays find ----------

  /** The contact the first attempt created or filled in, as any replay sees it. */
  ghost predicate ContactsIn(cfg: Config, db0: Db, p: Case, db: Db) {
    && Contacted(cfg, db0, p).Some?
    && db.companies == Contacted(cfg, db0, p).value.companies
    && SameContacts(db.contacts, Contacted(cfg, db0, p).value.contacts, Target(cfg, db0, p))
    && Target(cfg, db0, p) < |db.contacts|
  }

  /** Every identifier the enquiry offers is in the row, and so is its company. */
  predicate Settled(row: Contact, c: ContactInfo) {
    && (c.email.Some? ==> row.email.Some?)
    && (c.phone.Some? ==> row.phone.Some?)
    && (NamesCompany(c) ==> row.company.Some?)
    && (HasText(c.name) ==> HasText(row.name))
  }

  lemma TargetIsSettled(cfg: Config, db0: Db, p: Case, db: Db)
    requires ContactsIn(cfg, db0, p, db) && IsCompanyHit(cfg.lower, db0.companies, Trusted(p.ex), p.hit)
    ensures Settled(db.contacts[Target(cfg, db0, p)], Trusted(p.ex))
  {
    hide Trusted, Decided;
    var k := Target(cfg, db0, p);
    var row, row' := Contacted(cfg, db0, p).value.contacts[k], db.contacts[k];
    assert Named(row) == Named(row');
    assert HasText(row.name) <==> HasText(row'.name);
  }

  /** Once the company is known, looking it up again finds one, so nothing is inserted twice. */
  lemma CompanyIsFoundAgain(cfg: Config, db0: Db, p: Case, db: Db, hit: Option<nat>)
    requires ContactsIn(cfg, db0, p, db) && IsCompanyHit(cfg.lower, db0.companies, Trusted(p.ex), p.hit)
    requires IsCompanyHit(cfg.lower, db.companies, Trusted(p.ex), hit)
    ensures CompaniesAfter(cfg.lower, db.companies, Trusted(p.ex), hit) == db.companies
  {
    hide Trusted, Decided, SameContacts;
    var c := Trusted(p.ex);
    if NamesCompany(c) {
      var i := if p.hit.Some? then p.hit.value else |db0.companies|;
      assert CompanyMatches(cfg.lower, db.companies[i], c.company.value, DomainOf(cfg.lower, c.email));
    }
  }

  /** Attaching again to a settled contact changes nothing, apart from NULL for an empty name. */
  lemma FillingAgainChangesNothing(row: Contact, c: ContactInfo, company: Option<nat>)
    requires Settled(row, c) && (company.Some? ==> NamesCompany(c))
    ensures Named(FilledRow(row, c, company)) == Named(row)
    ensures row.email.None? ==> FilledRow(row, c, company).email.None?
  {}

  /** The contact write of a replay succeeds and leaves contacts and companies as they are. */
  lemma ReplayedContactWrite(cfg: Config, db0: Db, p: Case, db: Db, hit: Option<nat>)
    requires ContactsIn(cfg, db0, p, db) && IsCompanyHit(cfg.lower, db0.companies, Trusted(p.ex), p.hit)
    requires IsCompanyHit(cfg.lower, db.companies, Trusted(p.ex), hit)
    ensures var r := UpsertContact(cfg.lower, db, p.id, Trusted(p.ex), Some(Target(cfg, db0, p)), hit);
      && r.Some? && r.value.id == Target(cfg, db0, p)
      && r.value.companies == db.companies
      && SameContacts(r.value.contacts, Contacted(cfg, db0, p).value.contacts, Target(cfg, db0, p))
  {
    TargetIsSettled(cfg, db0, p, db);
    CompanyIsFoundAgain(cfg, db0, p, db, hit);
    hide Trusted, Contacted, IsCompanyHit, CompaniesAfter, Settled;
    var k := Target(cfg, db0, p);
    FillingAgainChangesNothing(db.contacts[k], Trusted(p.ex), CompanyIdAfter(db.companies, Trusted(p.ex), hit));
  }

  ghost predicate OnlyEmail(f: CaseMap, cs: seq<Contact>, c: ContactInfo, k: int) {
    forall j | 0 <= j < |cs| && j != k :: !EmailMatches(f, cs[j], c)
  }

  ghost predicate OnlyPhone(cs: seq<Contact>, c: ContactInfo, k: int) {
    forall j | 0 <= j < |cs| && j != k :: !PhoneMatches(cs[j], c)
  }

  /** A contact that alone carries the address, or alone the number with nobody else
      carrying the address, is the one the match query returns, and it is returned as exact. */
  lemma ExactIsFound(cfg: Config, db: Db, c: ContactInfo, k: nat, m: Option<Match>)
    requires IsMatch(cfg, db, c, m) && k < |db.contacts| && OnlyEmail(cfg.lower, db.contacts, c, k)
    requires EmailMatches(cfg.lower, db.contacts[k], c) || (PhoneMatches(db.contacts[k], c) && OnlyPhone(db.contacts, c, k))
    ensures m.Some? && m.value.contact == k && m.value.score >= PHONE_SCORE
  {
    hide EmailMatches, PhoneMatches, FuzzyMatches, FuzzyScore;
  }

  lemma MatchAfterCreate(cfg: Config, db0: Db, p: Case, db: Db, m: Option<Match>)
    requires ContactsIn(cfg, db0, p, db) && p.dup.None? && IsMatch(cfg, db0, Trusted(p.ex), None)
    requires CanBeFoundAgain(Trusted(p.ex)) && IsMatch(cfg, db, Trusted(p.ex), m)
    ensures m.Some? && m.value.contact == Target(cfg, db0, p) && m.value.score >= PHONE_SCORE
  {
    hide Trusted, Decided, FuzzyMatches, FuzzyScore, Digits, CompaniesAfter, CompanyIdAfter;
    var c, k := Trusted(p.ex), |db0.contacts|;
    assert Named(db.contacts[k]) == Named(Contacted(cfg, db0, p).value.contacts[k]);
    assert forall j | 0 <= j < k :: db.contacts[j] == db0.contacts[j];
    hide IsMatch, EmailMatches, PhoneMatches;
    NobodyMatches(cfg, db0, c);
    NewcomerMatches(cfg.lower, db.contacts[k], c);
    ExactIsFound(cfg, db, c, k, m);
  }

  lemma NobodyMatches(cfg: Config, db: Db, c: ContactInfo)
    requires IsMatch(cfg, db, c, None)
    ensures forall j | 0 <= j < |db.contacts| :: !EmailMatches(cfg.lower, db.contacts[j], c) && !PhoneMatches(db.contacts[j], c)
  {
    hide EmailMatches, PhoneMatches, FuzzyMatches, FuzzyScore;
  }

  lemma NewcomerMatches(f: CaseMap, row: Contact, c: ContactInfo)
    requires row.email == c.email && row.phone == c.phone && CanBeFoundAgain(c)
    ensures EmailMatches(f, row, c) || PhoneMatches(row, c)
  {}

  // ---------- replays of an attach ----------

  /** How the filled-in row relates to the row it was. */
  ghost predicate Filled(before: Contact, after: Contact, c: ContactInfo) {
    && (before.email.Some? ==> after.email == before.email) && (before.email.None? ==> after.email == c.email)
    && (before.phone.Some? ==> after.phone == before.phone) && (before.phone.None? ==> after.phone == c.phone)
    && (before.company.Some? ==> after.company == before.company)
    && (HasText(before.name) ==> after.name == before.name)
  }

  lemma AttachedRow(cfg: Config, db0: Db, p: Case, db: Db)
    requires ContactsIn(cfg, db0, p, db) && Existing(p.dup, Decided(cfg, p)).Some?
    ensures var k := Existing(p.dup, Decided(cfg, p)).value;
      && Target(cfg, db0, p) == k && k < |db0.contacts| == |db.contacts|
      && Filled(db0.contacts[k], db.contacts[k], Trusted(p.ex))
      && (forall j | 0 <= j < |db.contacts| && j != k :: db.contacts[j] == db0.contacts[j])
      && db0.companies <= db.companies
  {
    hide Trusted, Decided;
    var k := Existing(p.dup, Decided(cfg, p)).value;
    assert Named(db.contacts[k]) == Named(Contacted(cfg, db0, p).value.contacts[k]);
  }

  /** The address belongs to one contact. */
  lemma EmailIsUnique(f: CaseMap, cs: seq<Contact>, c: ContactInfo, k: nat)
    requires GoodContacts(f, cs) && k < |cs| && EmailMatches(f, cs[k], c)
    ensures OnlyEmail(f, cs, c, k)
  {
    forall j | 0 <= j < |cs| && j != k ensures !EmailMatches(f, cs[j], c) {
      var a, b := if j < k then j else k, if j < k then k else j;
      assert cs[a].email.Some? && cs[b].email.Some? ==> !SameEmail(f, cs[a].email.value, cs[b].email.value);
    }
  }

  lemma PhoneIsUnique(cfg: Config, db: Db, c: ContactInfo, dup: Match)
    requires OnlyMatch(cfg, db, c, Some(dup)) && dup.how == PhoneExact
    ensures OnlyPhone(db.contacts, c, dup.contact) && OnlyEmail(cfg.lower, db.contacts, c, -1)
    ensures dup.contact < |db.contacts| && PhoneMatches(db.contacts[dup.contact], c)
  {
    hide EmailMatches, PhoneMatches, FuzzyMatches, FuzzyScore;
    forall j | 0 <= j < |db.contacts| && PhoneMatches(db.contacts[j], c) ensures j == dup.contact {
      assert IsMatch(cfg, db, c, Some(Match(j, PHONE_SCORE, PhoneExact)));
    }
  }

  lemma FilledKeepsPhone(f: CaseMap, before: Contact, after: Contact, c: ContactInfo)
    requires Filled(before, after, c) && PhoneMatches(before, c)
    ensures PhoneMatches(after, c)
  {
    assert Digits("") == "";
  }

  /** Only the filled-in contact can have gained the address or the number. */
  lemma MatchAfterExactAttach(cfg: Config, db0: Db, p: Case, db: Db, m: Option<Match>)
    requires ContactsIn(cfg, db0, p, db) && Existing(p.dup, Decided(cfg, p)).Some?
    requires GoodContacts(cfg.lower, db0.contacts) && OnlyMatch(cfg, db0, Trusted(p.ex), p.dup)
    requires p.dup.value.how == EmailExact || p.dup.value.how == PhoneExact
    requires IsMatch(cfg, db, Trusted(p.ex), m)
    ensures m.Some? && m.value.contact == Target(cfg, db0, p) && m.value.score >= PHONE_SCORE
  {
    var c, k := Trusted(p.ex), p.dup.value.contact;
    AttachedRow(cfg, db0, p, db);
    hide Trusted, Decided, ContactsIn, GoodContacts, Digits, FuzzyMatches, FuzzyScore, Contacted;
    if p.dup.value.how == EmailExact {
      assert EmailMatches(cfg.lower, db0.contacts[k], c);
      EmailIsUnique(cfg.lower, db0.contacts, c, k);
    } else {
      PhoneIsUnique(cfg, db0, c, p.dup.value);
      FilledKeepsPhone(cfg.lower, db0.contacts[k], db.contacts[k], c);
    }
    hide PhoneMatches, IsMatch;
    ExactIsFound(cfg, db, c, k, m);
  }

  lemma FuzzyMeansNoExact(cfg: Config, db: Db, c: ContactInfo, dup: Match)
    requires IsMatch(cfg, db, c, Some(dup)) && dup.how != EmailExact && dup.how != PhoneExact
    ensures OnlyEmail(cfg.lower, db.contacts, c, -1) && OnlyPhone(db.contacts, c, -1)
    ensures dup.contact < |db.contacts| && FuzzyMatches(cfg, db.contacts[dup.contact], c)
    ensures dup.score == FuzzyScore(cfg, db.companies, db.contacts[dup.contact], c)
    ensures dup.how == (if HasText(c.company) then TrgmNameCompany else TrgmName)
    ensures forall j | 0 <= j < |db.contacts| && FuzzyMatches(cfg, db.contacts[j], c) :: FuzzyScore(cfg, db.companies, db.contacts[j], c) <= dup.score
  {
    hide EmailMatches, PhoneMatches, FuzzyMatches, FuzzyScore;
  }

  lemma FuzzyAnswer(cfg: Config, db: Db, c: ContactInfo, m: Option<Match>)
    requires OnlyEmail(cfg.lower, db.contacts, c, -1) && OnlyPhone(db.contacts, c, -1)
    requires exists j | 0 <= j < |db.contacts| :: FuzzyMatches(cfg, db.contacts[j], c)
    ensures IsMatch(cfg, db, c, m) <==>
      && m.Some? && m.value.contact < |db.contacts| && FuzzyMatches(cfg, db.contacts[m.value.contact], c)
      && m.value.score == FuzzyScore(cfg, db.companies, db.contacts[m.value.contact], c)
      && m.value.how == (if HasText(c.company) then TrgmNameCompany else TrgmName)
      && forall j | 0 <= j < |db.contacts| && FuzzyMatches(cfg, db.contacts[j], c) :: FuzzyScore(cfg, db.companies, db.contacts[j], c) <= m.value.score
  {
    hide EmailMatches, PhoneMatches, FuzzyMatches, FuzzyScore;
  }

  /** Filling in a company can only raise the name score, and nobody else's changes. */
  lemma FillingRaisesTheScore(cfg: Config, companies: seq<Company>, companies': seq<Company>, before: Contact,
      after: Contact, c: ContactInfo)
    requires companies <= companies' && (before.company.Some? ==> before.company.value < |companies|)
    requires FuzzyMatches(cfg, before, c) && cfg.trgmFloor > 0.0
    requires after == before || Filled(before, after, c)
    ensures FuzzyMatches(cfg, after, c)
    ensures FuzzyScore(cfg, companies', after, c) >= FuzzyScore(cfg, companies, before, c)
    ensures after == before ==> FuzzyScore(cfg, companies', after, c) == FuzzyScore(cfg, companies, before, c)
  {
    hide Blank;
    assert HasText(before.name);
  }

  lemma MatchAfterFuzzyAttach(cfg: Config, db0: Db, p: Case, db: Db, m: Option<Match>)
    requires ContactsIn(cfg, db0, p, db) && Existing(p.dup, Decided(cfg, p)).Some?
    requires OnlyMatch(cfg, db0, Trusted(p.ex), p.dup) && cfg.trgmFloor > 0.0
    requires forall i | 0 <= i < |db0.contacts| :: db0.contacts[i].company.Some? ==> db0.contacts[i].company.value < |db0.companies|
    requires p.dup.value.how != EmailExact && p.dup.value.how != PhoneExact
    requires IsMatch(cfg, db, Trusted(p.ex), m)
    ensures m.Some? && m.value.contact == Target(cfg, db0, p)
    ensures m.value.score >= PHONE_SCORE || m.value.score >= p.dup.value.score
  {
    var c, k := Trusted(p.ex), p.dup.value.contact;
    AttachedRow(cfg, db0, p, db);
    FuzzyMeansNoExact(cfg, db0, c, p.dup.value);
    hide Trusted, Decided, ContactsIn, FuzzyMatches, FuzzyScore, Contacted, EmailMatches, PhoneMatches, IsMatch, Filled;
    FillingRaisesTheScore(cfg, db0.companies, db.companies, db0.contacts[k], db.contacts[k], c);
    if EmailMatches(cfg.lower, db.contacts[k], c) || PhoneMatches(db.contacts[k], c) {
      ExactIsFound(cfg, db, c, k, m);
    } else {
      FuzzyAnswer(cfg, db, c, m);
      var j := m.value.contact;
      if j != k {
        assert FuzzyMatches(cfg, db0.contacts[j], c);
        FillingRaisesTheScore(cfg, db0.companies, db.companies, db0.contacts[j], db.contacts[j], c);
        FuzzyAnswer(cfg, db0, c, Some(Match(j, p.dup.value.score, p.dup.value.how)));
      }
    }
  }

  /** Every replay matches the very contact the first attempt created or filled in, well
      enough to attach to it. */
  lemma ReplayFindsTheContact(cfg: Config, db0: Db, now: int, p: Case, db: Db, m: Option<Match>)
    requires Replayable(cfg, db0, now, p) && ToCrm(cfg, p) && ContactsIn(cfg, db0, p, db)
    requires IsMatch(cfg, db, Trusted(p.ex), m)
    ensures m.Some? && m.value.contact == Target(cfg, db0, p) && m.value.score >= cfg.autoAttach
  {
    RouteToCrm(cfg, p);
    forall m' | IsMatch(cfg, db0, Trusted(p.ex), m') ensures m' == p.dup {
      CrmMatchIsOnly(cfg, db0, now, p, m');
    }
    hide Trusted, Decided, ContactsIn, IsMatch, GoodContacts, Checked, HasRecentDuplicate, InOrder, IsCompanyHit, OnlyCompany;
    if p.dup.None? {
      MatchAfterCreate(cfg, db0, p, db, m);
    } else if p.dup.value.how == EmailExact || p.dup.value.how == PhoneExact {
      MatchAfterExactAttach(cfg, db0, p, db, m);
    } else {
      MatchAfterFuzzyAttach(cfg, db0, p, db, m);
    }
  }

  // ---------- when the lookups are unambiguous, and what happens when they are not ----------

  /** An address some contact carries settles the match: the unique index leaves one answer. */
  lemma KnownEmailIsUnambiguous(cfg: Config, db: Db, c: ContactInfo, k: nat)
    requires GoodContacts(cfg.lower, db.contacts) && k < |db.contacts| && EmailMatches(cfg.lower, db.contacts[k], c)
    ensures OnlyMatch(cfg, db, c, Some(Match(k, EMAIL_SCORE, EmailExact)))
  {
    EmailIsUnique(cfg.lower, db.contacts, c, k);
    hide GoodContacts, EmailMatches, PhoneMatches, FuzzyMatches, FuzzyScore;
  }

  /** So does a number that exactly one contact holds, when nobody has the address. */
  lemma SoleHolderIsUnambiguous(cfg: Config, db: Db, c: ContactInfo, k: nat)
    requires OnlyEmail(cfg.lower, db.contacts, c, -1)
    requires k < |db.contacts| && PhoneMatches(db.contacts[k], c) && OnlyPhone(db.contacts, c, k)
    ensures OnlyMatch(cfg, db, c, Some(Match(k, PHONE_SCORE, PhoneExact)))
  {
    hide EmailMatches, PhoneMatches, FuzzyMatches, FuzzyScore;
  }

  ghost predicate UniqueCompanyNames(f: CaseMap, rows: seq<Company>) {
    forall i, j | 0 <= i < j < |rows| :: !SameEmail(f, rows[i].name, rows[j].name)
  }

  /** With company names unique up to case, which no insert changes, the company
      lookup has one answer. */
  lemma UniqueNamesAreUnambiguous(cfg: Config, db: Db, c: ContactInfo, hit: Option<nat>)
    requires GoodCompanies(cfg.lower, db.companies) && UniqueCompanyNames(cfg.lower, db.companies)
    requires IsCompanyHit(cfg.lower, db.companies, c, hit)
    ensures OnlyCompany(cfg, db, c, hit)
  {
    forall h | IsCompanyHit(cfg.lower, db.companies, c, h) ensures h == hit {
      if NamesCompany(c) && hit.Some? && h.Some? {
        OneBestCompany(cfg.lower, db.companies, c.company.value, DomainOf(cfg.lower, c.email), h.value, hit.value);
      }
    }
  }

  /** A company is inserted only when none has its name. That is so because the transaction is
      one atomic step here; the schema has no unique index on the name. */
  lemma CompanyNamesStayUnique(f: CaseMap, rows: seq<Company>, c: ContactInfo, hit: Option<nat>)
    requires UniqueCompanyNames(f, rows) && IsCompanyHit(f, rows, c, hit)
    ensures UniqueCompanyNames(f, CompaniesAfter(f, rows, c, hit))
  {}

  /** Two transactions that overlap both look before either has inserted. If both miss, they leave
      the names unique if and only if they insert different ones. */
  lemma OverlappingMissesCollide(f: CaseMap, rows: seq<Company>, c: ContactInfo, c': ContactInfo)
    requires UniqueCompanyNames(f, rows) && NamesCompany(c) && NamesCompany(c')
    requires IsCompanyHit(f, rows, c, None) && IsCompanyHit(f, rows, c', None)
    ensures UniqueCompanyNames(f, CompaniesAfter(f, CompaniesAfter(f, rows, c, None), c', None)) <==>
      !SameEmail(f, c.company.value, c'.company.value)
  {
    hide SameEmail, Blank, DomainOf;
    var n, after := |rows|, CompaniesAfter(f, CompaniesAfter(f, rows, c, None), c', None);
    CompanyNamesStayUnique(f, rows, c, None);
    assert after[n].name == c.company.value && after[n + 1].name == c'.company.value;
    assert forall i | 0 <= i < n :: after[i] == rows[i] && !CompanyMatches(f, rows[i], c'.company.value, DomainOf(f, c'.email));
  }

  lemma OneBestCompany(f: CaseMap, rows: seq<Company>, name: string, domain: string, i: nat, j: nat)
    requires GoodCompanies(f, rows) && UniqueCompanyNames(f, rows) && i < |rows| && j < |rows|
    requires CompanyMatches(f, rows[i], name, domain) && CompanyMatches(f, rows[j], name, domain)
    requires CompanyRank(f, rows[i], domain) == CompanyRank(f, rows[j], domain)
    ensures i == j
  {
    var a, b := if i < j then i else j, if i < j then j else i;
    assert a < b ==> !SameEmail(f, rows[a].name, rows[b].name);
    assert a < b && rows[a].domain.Some? && rows[b].domain.Some? ==> !SameEmail(f, rows[a].domain.value, rows[b].domain.value);
  }

  /** A tie between companies changes nothing for a contact that has one. */
  lemma HitDoesNotMatter(cfg: Config, db: Db, now: int, p: Case, hit: Option<nat>)
    requires Replayable(cfg, db, now, p) && ToCrm(cfg, p)
    requires IsCompanyHit(cfg.lower, db.companies, Trusted(p.ex), hit)
    ensures Contacted(cfg, db, p.(hit := hit)) == Contacted(cfg, db, p)
  {
    assert Decided(cfg, p.(hit := hit)) == Decided(cfg, p);
    hide Trusted, Decided, Checked, InOrder, GoodContacts, HasRecentDuplicate, IsMatch, EmailOf, OneTarget, CanBeFoundAgain;
    hide CompanyMatches, CompanyRank, DomainOf;
  }

  /** Where the match is ambiguous and decides, replays can diverge: when the query that
      attaches the enquiry can answer with another contact as well, an attempt that gets that
      answer writes to that contact and records the enquiry under it. */
  lemma AmbiguousMatchesDiverge(cfg: Config, db: Db, now: int, p: Case, other: Match)
    requires Prepared(cfg, db, now, p) && Decided(cfg, p).action == AttachToExistingContact
    requires IsMatch(cfg, db, Trusted(p.ex), Some(other)) && other.contact != p.dup.value.contact
    ensures var q := p.(dup := Some(other));
      && Decided(cfg, q) == Decided(cfg, p)
      && Contacted(cfg, db, p).Some? && Contacted(cfg, db, q).Some?
      && Target(cfg, db, p) == p.dup.value.contact && Target(cfg, db, q) == other.contact
      && (RecordOf(db.records, p.id) == |db.records| ==> Recorded(cfg, db, p) != Recorded(cfg, db, q))
  {
    var q := p.(dup := Some(other));
    RouteToCrm(cfg, p);
    AnswersDecideAlike(cfg, db, p.ex, p.dup, q.dup);
    assert Decided(cfg, q) == Decided(cfg, p);
    RouteToCrm(cfg, q);
    FirstContactWriteSucceeds(cfg, db, now, p);
    FirstContactWriteSucceeds(cfg, db, now, q);
    hide Prepared, IsMatch, Decided, Trusted, TeamFor, OwnerFor, EmailTaken, FilledRow, CompaniesAfter, CompanyIdAfter;
    if RecordOf(db.records, p.id) == |db.records| {
      assert Recorded(cfg, db, p)[|db.records|].contact != Recorded(cfg, db, q)[|db.records|].contact;
    }
  }

  /** Likewise for companies: when the contact is to get one and the query can answer with
      another one as well, the attempts give the contact different companies. */
  lemma AmbiguousCompaniesDiverge(cfg: Config, db: Db, now: int, p: Case, hit: Option<nat>)
    requires Prepared(cfg, db, now, p) && ToCrm(cfg, p) && LacksCompany(cfg, db, p)
    requires IsCompanyHit(cfg.lower, db.companies, Trusted(p.ex), hit) && hit != p.hit
    ensures var q := p.(hit := hit);
      && Decided(cfg, q) == Decided(cfg, p)
      && Contacted(cfg, db, p).Some? && Contacted(cfg, db, q).Some? && Target(cfg, db, p) == Target(cfg, db, q)
      && var k, w, w' := Target(cfg, db, p), Contacted(cfg, db, p).value, Contacted(cfg, db, q).value;
         k < |w.contacts| && k < |w'.contacts| && w.contacts[k].company != w'.contacts[k].company
  {
    var q := p.(hit := hit);
    FirstContactWriteSucceeds(cfg, db, now, p);
    FirstContactWriteSucceeds(cfg, db, now, q);
    assert Decided(cfg, q) == Decided(cfg, p);
    hide Trusted, Decided, Checked, InOrder, GoodContacts, HasRecentDuplicate, IsMatch, EmailOf, CanBeFoundAgain;
    hide CompanyRank, DomainOf;
  }
}
