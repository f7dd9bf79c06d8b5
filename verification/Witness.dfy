/** One small shop: a configuration, tables and answers of the model that meet the conditions of
    the results about runs, so that none of them speaks of nothing. */
module Witness {
  import opened Base
  import opened Text
  import opened Ingest
  import opened Model
  import opened Router
  import opened Grounding
  import opened Tables
  import opened System
  import opened Safety
  import opened Queue
  import opened Turns
  import opened Replay
  import opened Convergence
  import opened Workers
  import opened Completion
  import Duplicates
  import Shutdowns
  import Stale
  import Races
  import Findability
  import Resolutions
  import Limits

  // ---------- the shop ----------

  /** Lower case is as it comes, and any two names are half alike; thresholds are as shipped. */
  function Shop(maxAttempts: int): Config {
    Config((c: char) => c, (a: string, b: string) => if a == "" then 0.0 else 0.5, 0.5, 0.95, 0.3, 10, maxAttempts, 1, 5,
           [User(SalesRep, "sales"), User(OpsAdmin, "ops")], [Rule("all", map[], "sales", None, 1, true)])
  }

  lemma ShopIsAsShipped(n: int, db: Db)
    requires db.contacts == [] || (|db.contacts| == 1 && db.contacts[0].company.None?)
    ensures AsShipped(Shop(n), db) && Shop(n).autoAttach > FUZZY_CAP && Shop(n).confidence == 0.5
  {}

  const ADDRESS := "a@b.c"

  function Asked(hash: string, key: string): Enquiry {
    Enquiry(0, "s", ADDRESS, hash, key, Received, 0, None, 0)
  }

  /** Tables with nothing in them but these enquiries and contacts. */
  function Rows(es: seq<Enquiry>, cs: seq<Contact>): Db {
    Db(es, [], cs, [], [], [], [], [], [])
  }

  function OneRow(): Db {
    Rows([Asked("h", "k")], [])
  }

  function TwoRows(): Db {
    Rows([Asked("h", "k"), Asked("i", "l")], [])
  }

  const SOMEONE := Contact(Some("b"), None, None, None, 0)

  function KnownRow(): Db {
    Rows([Asked("h", "k")], [SOMEONE])
  }

  function Opening(db: Db, workers: nat): State {
    State(db, 0, false, false, {}, seq(workers, _ => Draining), [Idle], [])
  }

  lemma OpeningStarts(n: int, db: Db, workers: nat)
    requires db == OneRow() || db == TwoRows() || db == KnownRow() || db == Rows([], [])
    ensures Start(Shop(n), Opening(db, workers))
  {
    assert "k" != "l";
  }

  // ---------- what the model answers ----------

  function Answered(kind: string, c: ContactInfo): Extraction {
    Extraction(kind, 1.0, "low", "i", c, [], map[], [], false)
  }

  function Request(): Extraction {
    Answered("sales", ContactInfo(None, Some(ADDRESS), None, None))
  }

  function Named(): Extraction {
    Answered("sales", ContactInfo(Some("b"), None, None, None))
  }

  function Unclear(): Extraction {
    Answered("insufficient_info", ContactInfo(None, None, None, None))
  }

  lemma NoSpaces(s: string)
    requires s != "" && forall i | 0 <= i < |s| :: !IsSpace(s[i])
    ensures TrimSpace(s) == s && !Blank(s)
  {
    LeadIs(s, IsSpace, 0);
    assert s[0..] == s;
    TrailIs(s, IsSpace, 0);
  }

  lemma NoEdges(s: string)
    requires s != "" && !IsEdgePunctuation(s[0]) && !IsEdgePunctuation(s[|s| - 1])
    ensures Trim(s, IsEdgePunctuation) == s
  {
    LeadIs(s, IsEdgePunctuation, 0);
    assert s[0..] == s;
    TrailIs(s, IsEdgePunctuation, 0);
  }

  lemma AddressIsShaped()
    ensures AddressShaped(ADDRESS)
  {
    assert FirstAt(ADDRESS) == 1;
    assert ADDRESS[2..][1] == '.';
  }

  lemma AddressIsClean(n: int)
    ensures CleanEmail(Shop(n).lower, Some(ADDRESS)) == Some(ADDRESS)
  {
    hide AddressShaped, Trim, Blank;
    NoSpaces(ADDRESS);
    NoEdges(ADDRESS);
    AddressIsShaped();
    assert Lower(Shop(n).lower, ADDRESS) == ADDRESS;
  }

  lemma NameIsClean()
    ensures CleanField(Some("b")) == Some("b")
  {
    NoSpaces("b");
    NoEdges("b");
  }

  /** What stands in the text is supported. */
  lemma PiecesAreSupported(n: int, field: Field, v: string)
    requires Contains(ADDRESS, v)
    ensures Supported(Shop(n).lower, ADDRESS, map[], field, Some(v))
  {
    hide Norm, Blank, Contains;
    NormKeepsPieces(Shop(n).lower, ADDRESS, v);
  }

  lemma AnswersAreSupported(n: int)
    ensures UnverifiedOf(Shop(n).lower, ADDRESS, Request().contact, map[]) == []
    ensures UnverifiedOf(Shop(n).lower, ADDRESS, Named().contact, map[]) == []
    ensures UnverifiedOf(Shop(n).lower, ADDRESS, Unclear().contact, map[]) == []
  {
    hide Norm, Blank, Shop;
    assert OccursAt(ADDRESS, ADDRESS, 0) && OccursAt(ADDRESS, "b", 2);
    PiecesAreSupported(n, EmailField, ADDRESS);
    PiecesAreSupported(n, NameField, "b");
    hide Contains;
  }

  predicate Known(ex: Extraction) {
    ex == Request() || ex == Named() || ex == Unclear()
  }

  lemma KnownIsExtracted(n: int, ex: Extraction)
    requires Known(ex)
    ensures Extract(Shop(n).lower, Some(ex), None, Shop(n).confidence, ADDRESS) == Some(ex)
  {
    hide UnverifiedOf, Blank, CleanEmail, CleanField, Shop;
    NoSpaces("i");
    AddressIsClean(n);
    NameIsClean();
    NothingIsClean(n);
    AnswersAreSupported(n);
    ShopIsAsShipped(n, OneRow());
  }

  lemma NothingIsClean(n: int)
    ensures CleanEmail(Shop(n).lower, None) == None && CleanField(None) == None
  {}

  function Reply(): (string, Author) {
    ("r", ByModel("m"))
  }

  lemma Answers(n: int, p: Case) returns (ans: Completion.Answers)
    requires Known(p.ex)
    ensures Answering(Shop(n), ADDRESS, p, ans)
  {
    NoSpaces("r");
    KnownIsExtracted(n, p.ex);
    hide Extract, Blank;
    ans := Completion.Answers(Some(p.ex), None, Reply());
  }

  // ---------- how the shop decides ----------

  lemma TheRuleApplies(n: int, ex: Extraction)
    ensures LeastEligible(Shop(n).rules, ex) == Some(Shop(n).rules[0]) && Shop(n).rules[0].team == "sales" && Shop(n).rules[0].user == None
  {
    var rules := Shop(n).rules;
    assert rules[0].Eligible(ex);
    assert rules[..0] == [];
  }

  lemma KnownIsIdentified()
    ensures Identifiable(Request()) && Identifiable(Named())
    ensures Trusted(Request()) == Request().contact && Trusted(Named()) == Named().contact
    ensures CanBeFoundAgain(Trusted(Request())) && !CanBeFoundAgain(Trusted(Named()))
  {
    NoSpaces(ADDRESS);
    NoSpaces("b");
    hide Blank;
  }

  lemma SalesCreates(n: int, p: Case)
    requires (p.ex == Request() || p.ex == Named()) && p.dup.None?
    ensures Decided(Shop(n), p) == Decision(CreateOrUpdateCrm, "sales", None)
  {
    TheRuleApplies(n, p.ex);
    KnownIsIdentified();
    hide LeastEligible, Identifiable;
  }

  lemma UnclearIsAsked(n: int, p: Case)
    requires p.ex == Unclear()
    ensures Decided(Shop(n), p).action == DraftClarifyingQuestion
  {
    hide LeastEligible, Identifiable;
  }

  lemma WeakMatchIsFlagged(n: int, p: Case)
    requires p.ex == Named() && p.dup.Some? && p.dup.value.score < 0.95
    ensures Decided(Shop(n), p).action == FlagForMergeReview
  {
    KnownIsIdentified();
    hide LeastEligible, Identifiable;
  }

  lemma KnownIsChecked(n: int, ex: Extraction)
    requires Known(ex)
    ensures Checked(Shop(n).lower, ADDRESS, ex)
  {
    hide Extract, Shop;
    KnownIsExtracted(n, ex);
    ExtractIsChecked(Shop(n).lower, Some(ex), None, Shop(n).confidence, ADDRESS);
  }

  lemma NobodyIsKnown(n: int, db: Db, c: ContactInfo)
    requires db.contacts == []
    ensures IsMatch(Shop(n), db, c, None)
  {}

  lemma NoCompanyIsNamed(n: int, db: Db, ex: Extraction)
    requires Known(ex)
    ensures IsCompanyHit(Shop(n).lower, db.companies, Trusted(ex), None)
    ensures forall h | IsCompanyHit(Shop(n).lower, db.companies, Trusted(ex), h) :: h == None
  {}

  lemma NewIsPrepared(n: int, db: Db, id: nat, ex: Extraction)
    requires Known(ex) && id < |db.enquiries| && (db == OneRow() || db == TwoRows())
    ensures Prepared(Shop(n), db, 0, Case(id, ex, None, None))
  {
    hide Decided, Checked, Trusted, IsMatch, IsCompanyHit, Shop;
    KnownIsChecked(n, ex);
    NobodyIsKnown(n, db, Trusted(ex));
    NoCompanyIsNamed(n, db, ex);
    assert "h" != "i";
  }

  lemma NewIsReplayable(n: int, ex: Extraction)
    requires ex == Request() || ex == Named()
    ensures var p := Case(0, ex, None, None);
      AsShipped(Shop(n), OneRow()) && Unambiguous(Shop(n), OneRow(), p) && (ex == Request() ==> Replayable(Shop(n), OneRow(), 0, p))
  {
    hide Decided, Prepared, Trusted, IsCompanyHit, Shop, CanBeFoundAgain, AsShipped;
    NewIsPrepared(n, OneRow(), 0, ex);
    ShopIsAsShipped(n, OneRow());
    NoCompanyIsNamed(n, OneRow(), ex);
    KnownIsIdentified();
    SalesCreates(n, Case(0, ex, None, None));
  }

  lemma NewIsInLine(n: int, ex: Extraction)
    requires Known(ex)
    ensures NextInLine(Shop(n), Case(0, ex, None, None), Opening(OneRow(), 1))
  {
    hide Prepared, Start, Decided, Trusted, Shop;
    NewIsPrepared(n, OneRow(), 0, ex);
    OpeningStarts(n, OneRow(), 1);
  }

  lemma TeamIsSales(n: int)
    ensures TeamFor(Shop(n), Case(0, Request(), None, None)).0 == "sales"
  {
    hide Decided, FirstEligible, Shop;
    SalesCreates(n, Case(0, Request(), None, None));
  }

  // ---------- the runs ----------

  /** Convergence is about some histories, and without the rules it fails of some. */
  lemma SomeReplaysDiverge() returns (events: seq<Event>, events': seq<Event>)
    ensures var cfg, p, s := Shop(3), Case(0, Request(), None, None), Opening(OneRow(), 1);
      && StartsAlone(cfg, p, s) && AloneThroughout(cfg, ADDRESS, p, events) && AloneThroughout(cfg, ADDRESS, p, events')
      && Finished(System.Run(cfg, s, events).db, 0) && Finished(System.Run(cfg, s, events').db, 0)
      && RecordedTeam(System.Run(cfg, s, events).db.records, 0) == Some("sales")
      && RecordedTeam(System.Run(cfg, s, events').db.records, 0) == Some("")
  {
    hide System.Run, NextInLine, Replayable, Answering, AloneThroughout, Shop, Request, TeamFor, Decided, StartsAlone, RecordedTeam, Finished;
    var p, s := Case(0, Request(), None, None), Opening(OneRow(), 1);
    NewIsInLine(3, Request());
    NewIsReplayable(3, Request());
    TeamIsSales(3);
    SalesCreates(3, p);
    var ans := Answers(3, p);
    StartsInLine(Shop(3), p, s);
    events, events' := SwallowedErrorDiverges(Shop(3), p, s, ans);
  }

  /** Of a contact known by name only, they fail to converge even so. */
  lemma SomeContactIsNotFoundAgain()
    ensures var cfg, s := Shop(3), Opening(OneRow(), 1);
      && Findability.Converges(cfg, Case(0, Request(), None, None), s)
      && !Findability.Converges(cfg, Case(0, Named(), None, None), s)
  {
    hide System.Run, NextInLine, Replayable, Answering, Shop, Request, Named, Decided, Findability.Converges, CanBeFoundAgain, Trusted, AsShipped, Unambiguous;
    KnownIsIdentified();
    ShopIsAsShipped(3, OneRow());
    NewConverges(Request());
    NewConverges(Named());
  }

  lemma NewConverges(ex: Extraction)
    requires ex == Request() || ex == Named()
    ensures Findability.Converges(Shop(3), Case(0, ex, None, None), Opening(OneRow(), 1)) <==> CanBeFoundAgain(Trusted(ex))
  {
    hide System.Run, NextInLine, Replayable, Answering, Shop, Request, Named, Decided, Findability.Converges, CanBeFoundAgain, Trusted, AsShipped, Unambiguous;
    var p, s := Case(0, ex, None, None), Opening(OneRow(), 1);
    ShopIsAsShipped(3, OneRow());
    NewIsInLine(3, ex);
    NewIsReplayable(3, ex);
    SalesCreates(3, p);
    var ans := Answers(3, p);
    Findability.ConvergesExactlyIfFindable(Shop(3), p, s, ans);
  }

  lemma BothRowsAreOpen()
    ensures Races.BothOpen(TwoRows().enquiries, 0, 0, 1)
    ensures RecordedContact(TwoRows().records, 0).None? && RecordedContact(TwoRows().records, 1).None?
  {}

  lemma RowsAreRacing(n: int)
    ensures Races.Racing(Shop(n), Case(0, Request(), None, None), Case(1, Request(), None, None), Opening(TwoRows(), 2))
  {
    hide Prepared, Start, Decided, Shop, Trusted, Races.BothOpen, RecordedContact, CanBeFoundAgain, AsShipped, Lower;
    NewIsPrepared(n, TwoRows(), 0, Request());
    NewIsPrepared(n, TwoRows(), 1, Request());
    SalesCreates(n, Case(0, Request(), None, None));
    SalesCreates(n, Case(1, Request(), None, None));
    KnownIsIdentified();
    ExactIsEnough(n);
    BothRowsAreOpen();
    OpeningStarts(n, TwoRows(), 2);
  }

  lemma ExactIsEnough(n: int)
    ensures Shop(n).autoAttach <= EMAIL_SCORE
  {}

  /** Two enquiries race for one address: with three attempts the loser's record ends up on the
      winner's contact, with one it is given up. */
  lemma SomeRaceIsLost(n: int) returns (events: seq<Event>)
    requires n == 1 || n == 3
    ensures var t := System.Run(Shop(n), Opening(TwoRows(), 2), events);
      && |t.db.contacts| == 1 && RecordedContact(t.db.records, 0) == Some(0) && |t.db.enquiries| > 1
      && RecordedContact(t.db.records, 1) == (if n == 1 then None else Some(0))
      && t.db.enquiries[1].status == (if n == 1 then Failed else PendingApproval)
  {
    hide System.Run, Races.Racing, Answering, RecordedContact;
    var p, q, s := Case(0, Request(), None, None), Case(1, Request(), None, None), Opening(TwoRows(), 2);
    RowsAreRacing(n);
    var ansP := Answers(n, p);
    var ansQ := Answers(n, q);
    events := Races.RaceForAnAddress(Shop(n), p, q, s, ansP, ansQ);
  }

  lemma RowIsShared(ex: Extraction)
    requires ex == Request() || ex == Named()
    ensures Races.Shared(Shop(3), Case(0, ex, None, None), Opening(OneRow(), 2))
  {
    hide Prepared, Start, Decided, Shop;
    NewIsPrepared(3, OneRow(), 0, ex);
    SalesCreates(3, Case(0, ex, None, None));
    OpeningStarts(3, OneRow(), 2);
  }

  /** Two workers on one enquiry leave two contacts for a name, and one for an address. */
  lemma SomeContactIsEnteredTwice(ex: Extraction) returns (events: seq<Event>)
    requires ex == Request() || ex == Named()
    ensures |System.Run(Shop(3), Opening(OneRow(), 2), events).db.contacts| == if ex == Named() then 2 else 1
  {
    hide System.Run, Races.Shared, Answering, Trusted, Shop;
    var p, s := Case(0, ex, None, None), Opening(OneRow(), 2);
    RowIsShared(ex);
    KnownIsIdentified();
    var ans := Answers(3, p);
    events := Races.TwoWorkersOneContact(Shop(3), p, s, ans);
  }

  lemma NamesAreHalfAlike(n: int)
    ensures Shop(n).similarity("b", "b") == 0.5 && Shop(n).trgmFloor == 0.3
  {}

  lemma NameIsAlike(n: int)
    ensures IsMatch(Shop(n), KnownRow(), Trusted(Named()), Some(Match(0, 0.5, TrgmName)))
  {
    hide Shop, Blank, Trusted, CanBeFoundAgain;
    KnownIsIdentified();
    NoSpaces("b");
    NamesAreHalfAlike(n);
    var cs, c := KnownRow().contacts, Named().contact;
    assert !EmailMatches(Shop(n).lower, cs[0], c) && !PhoneMatches(cs[0], c) && FuzzyMatches(Shop(n), cs[0], c);
    assert FuzzyScore(Shop(n), [], cs[0], c) == 0.5;
    hide EmailMatches, PhoneMatches, FuzzyMatches, FuzzyScore;
  }

  lemma NamedIsInLine(n: int)
    ensures NextInLine(Shop(n), Case(0, Named(), Some(Match(0, 0.5, TrgmName)), None), Opening(KnownRow(), 1))
  {
    hide Start, Decided, Checked, Trusted, IsMatch, IsCompanyHit, Shop;
    KnownIsChecked(n, Named());
    NameIsAlike(n);
    NoCompanyIsNamed(n, KnownRow(), Named());
    OpeningStarts(n, KnownRow(), 1);
  }

  /** A namesake's enquiry is flagged, declared separate, requeued, and flagged again. */
  lemma SomeResolutionIsForgotten() returns (first: seq<Event>, second: seq<Event>)
    ensures var cfg, s := Shop(3), Opening(KnownRow(), 1);
      var t, v := System.Run(cfg, s, first), System.Run(cfg, s, first + [Resolve(0, 1, Separate), RequeueResolved(0)] + second);
      && t.db.enquiries != [] && t.db.enquiries[0].status == NeedsHumanReview && t.db.candidates != [] && t.db.candidates[0].resolution == Pending
      && v.db.enquiries != [] && v.db.enquiries[0].status == NeedsHumanReview && v.db.candidates != [] && v.db.candidates[0].resolution == Separate
  {
    hide System.Run, NextInLine, Answering, Decided;
    var p, s := Case(0, Named(), Some(Match(0, 0.5, TrgmName)), None), Opening(KnownRow(), 1);
    NamedIsInLine(3);
    WeakMatchIsFlagged(3, p);
    var ans := Answers(3, p);
    first, second := Resolutions.ResolvedIsFlaggedAgain(Shop(3), p, s, ans, 1, Separate);
  }

  lemma UnclearIsDoubled(n: int)
    ensures Stale.Doubled(Shop(n), Case(0, Unclear(), None, None), Opening(OneRow(), 2))
  {
    hide Prepared, Start, Decided, Shop;
    NewIsPrepared(n, OneRow(), 0, Unclear());
    UnclearIsAsked(n, Case(0, Unclear(), None, None));
    OpeningStarts(n, OneRow(), 2);
  }

  /** The shop's question is sent, and a stale worker puts the enquiry back. */
  lemma SomeEnquiryIsUnsent() returns (events: seq<Event>)
    ensures var cfg, t := Shop(3), System.Run(Shop(3), Opening(OneRow(), 2), events);
      && t.db.enquiries != [] && t.db.enquiries[0].status == Sent && t.db.messages != [] && t.db.messages[0].status == MsgSent
      && var u := Apply(cfg, t, Work(0, Answer(true)));
         u.db.enquiries != [] && u.db.enquiries[0].status == PendingApproval && u.db.messages == t.db.messages
  {
    hide System.Run, Apply, Stale.Doubled, Answering;
    var p, s := Case(0, Unclear(), None, None), Opening(OneRow(), 2);
    UnclearIsDoubled(3);
    var ans := Answers(3, p);
    assert Stale.Staged(Shop(3), p, s, 1);
    events := Stale.AStaleWorkerUnsends(Shop(3), p, s, 1, ans);
  }

  /** With two attempts, the shop's enquiry is given up, and a stale worker revives it. */
  lemma SomeEnquiryIsRevived() returns (events: seq<Event>)
    ensures var cfg, t := Shop(2), System.Run(Shop(2), Opening(OneRow(), 2), events);
      && t.db.enquiries != [] && t.db.enquiries[0].status == Failed
      && var u := Apply(cfg, t, Work(0, Answer(true))); u.db.enquiries != [] && u.db.enquiries[0].status == PendingApproval
  {
    hide System.Run, Apply, Stale.Doubled, Answering;
    var p, s := Case(0, Unclear(), None, None), Opening(OneRow(), 2);
    UnclearIsDoubled(2);
    var ans := Answers(2, p);
    events := Stale.AStaleWorkerRevives(Shop(2), p, s, ans);
  }

  /** The shop's one enquiry loses two of its three attempts to shutdowns and the third to its
      first failure. */
  lemma SomeEnquiryIsGivenUpAtOnce() returns (events: seq<Event>, last: Event)
    ensures var cfg, s := Shop(3), Opening(OneRow(), 1);
      && OrderlyRun(cfg, s, events) && Emit(cfg, System.Run(cfg, s, events), last) == SetStatusRow(0, Failed)
      && Shutdowns.Failures(cfg, s, events, 0) == 0 && Shutdowns.Releases(cfg, s, events, 0) == 2
  {
    hide System.Run, OrderlyRun, Emit, Start, Shutdowns.Failures, Shutdowns.Releases;
    OpeningStarts(3, OneRow(), 1);
    events, last := Shutdowns.ShutdownsUseUpTheAttempts(Shop(3), Opening(OneRow(), 1), 0);
  }

  /** A tier 1 that calls itself escalated is believed. */
  lemma SomeEscalationIsClaimed()
    ensures var ex := Request().(escalated := true);
      && Extract(Shop(3).lower, Some(ex), None, Shop(3).confidence, ADDRESS).Some?
      && Extract(Shop(3).lower, Some(ex), None, Shop(3).confidence, ADDRESS).value.escalated
  {
    NoSpaces("i");
    hide Extract, Blank;
    ShopIsAsShipped(3, OneRow());
    Limits.ClaimedEscalationIsBelieved(Shop(3).lower, Request().(escalated := true), None, Shop(3).confidence, ADDRESS);
  }

  lemma CleanKeepsX()
    ensures Clean("x") != ""
  {
    hide Clean, IsSpace;
    FieldsOfClean("x");
    assert "x"[1..] == "" && "" + ['x'] == "x";
    assert DropInvisible("x") == "x" + DropInvisible("") == "x";
    XIsNoSpace();
    assert Words("x", "") == Words("", "x") == ["x"];
    assert Fields("") == [];
  }

  lemma XIsNoSpace()
    ensures !IsSpace('x')
  {}

  /** One message, delivered to the empty shop under two keys, is answered by nobody. */
  lemma SomeTwinsAreDiscarded() returns (events: seq<Event>)
    ensures var t := System.Run(Shop(3), Opening(Rows([], []), 1), events);
      && |t.db.enquiries| == 2 && t.db.messages == []
      && t.db.enquiries[0].status == DiscardedDuplicate && t.db.enquiries[1].status == DiscardedDuplicate
  {
    hide System.Run, Clean, Start, DedupeKey;
    var db := Rows([], []);
    var s, first, second := Opening(db, 1), Deliver("s", "x", "p"), Deliver("s", "x", "q");
    OpeningStarts(3, db, 1);
    CleanKeepsX();
    NoSpaces("p");
    NoSpaces("q");
    var a, b := Accept(Shop(3).lower, "s", "x", "p"), Accept(Shop(3).lower, "s", "x", "q");
    assert a.value.key == "p" && b.value.key == "q";
    var rest := Duplicates.TwinsDiscardEachOther(Shop(3), s, first, second, a.value, b.value);
    events := [first, second] + rest;
  }
}
