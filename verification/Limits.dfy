/** Where comments in the code promise more than it does: what it does instead, exactly,
    and inputs that show the difference. */
module Limits {
  import opened Base
  import opened Text
  import opened Ingest
  import opened Model
  import opened Router
  import opened Grounding
  import opened Tables
  import opened System
  import opened Queue

  // ---------- the company lookup ----------

  predicate CarriesDomain(f: CaseMap, row: Company, domain: string) {
    row.domain.Some? && SameEmail(f, row.domain.value, domain)
  }

  /** The lookup is meant to go by the domain when there is one. When some company carries it,
      the one returned carries it if and only if no company without a domain has the name. */
  lemma NamesakesWithoutDomainComeFirst(f: CaseMap, rows: seq<Company>, c: ContactInfo, hit: Option<nat>, k: nat)
    requires NamesCompany(c) && IsCompanyHit(f, rows, c, hit)
    requires DomainOf(f, c.email) != "" && k < |rows| && CarriesDomain(f, rows[k], DomainOf(f, c.email))
    ensures hit.Some? && hit.value < |rows|
    ensures CarriesDomain(f, rows[hit.value], DomainOf(f, c.email)) <==>
      forall j | 0 <= j < |rows| && SameEmail(f, rows[j].name, c.company.value) :: rows[j].domain.Some?
  {
    hide SameEmail, DomainOf, Blank;
    var name, domain := c.company.value, DomainOf(f, c.email);
    assert CompanyMatches(f, rows[k], name, domain);
    if j :| 0 <= j < |rows| && SameEmail(f, rows[j].name, name) && rows[j].domain.None? {
      assert CompanyMatches(f, rows[j], name, domain);
    }
  }

  lemma DomainIsCarried(f: CaseMap)
    ensures DomainOf(f, Some("a@b.c")) != "" && CarriesDomain(f, Company("x", Some("b.c")), DomainOf(f, Some("a@b.c")))
  {
    assert "a@b.c"[AfterLastAt("a@b.c")..] == "b.c";
    assert Lower(f, Lower(f, "b.c")) == Lower(f, "b.c");
  }

  /** So someone at b.c who names company x goes to an x without a domain, although there is an
      x that carries b.c. */
  lemma NamesakeOutranksDomain(f: CaseMap, hit: Option<nat>)
    ensures DomainOf(f, Some("a@b.c")) != "" && CarriesDomain(f, Company("x", Some("b.c")), DomainOf(f, Some("a@b.c")))
    ensures var rows := [Company("x", Some("b.c")), Company("x", None)];
      IsCompanyHit(f, rows, ContactInfo(None, Some("a@b.c"), None, Some("x")), hit) <==> hit == Some(1)
  {
    var rows, c := [Company("x", Some("b.c")), Company("x", None)], ContactInfo(None, Some("a@b.c"), None, Some("x"));
    DomainIsCarried(f);
    LeadIs("x", IsSpace, 0);
    assert "x"[0..] == "x";
    TrailIs("x", IsSpace, 0);
    hide DomainOf, Lower;
    assert CompanyMatches(f, rows[0], "x", DomainOf(f, c.email)) && CompanyMatches(f, rows[1], "x", DomainOf(f, c.email));
    assert CompanyRank(f, rows[0], DomainOf(f, c.email)) > CompanyRank(f, rows[1], DomainOf(f, c.email));
  }

  // ---------- escalation ----------

  /** The answer that leaves Extract is the second tier's. */
  predicate SecondTierAnswers(f: CaseMap, tier1: Option<Extraction>, tier2: Option<Extraction>, threshold: real, text: string) {
    var first := CallExtract(f, tier1, text);
    CallExtract(f, tier2, text).Some? && (first.None? || first.value.confidence < threshold)
  }

  /** An extraction is marked as escalated exactly when the second tier gave it or the first
      tier's model says so of itself. */
  lemma EscalatedMayBeClaimed(f: CaseMap, tier1: Option<Extraction>, tier2: Option<Extraction>, threshold: real, text: string)
    requires Extract(f, tier1, tier2, threshold, text).Some?
    ensures Extract(f, tier1, tier2, threshold, text).value.escalated <==>
      SecondTierAnswers(f, tier1, tier2, threshold, text) || (tier1.Some? && tier1.value.escalated)
  {
    hide Valid, CleanContact, UnverifiedOf;
  }

  /** So a confident first tier that claims it is believed, although the second is never asked. */
  lemma ClaimedEscalationIsBelieved(f: CaseMap, answer: Extraction, tier2: Option<Extraction>, threshold: real, text: string)
    requires Valid(answer) && answer.confidence >= threshold && answer.escalated
    ensures !SecondTierAnswers(f, Some(answer), tier2, threshold, text)
    ensures Extract(f, Some(answer), tier2, threshold, text).Some? && Extract(f, Some(answer), tier2, threshold, text).value.escalated
  {
    hide Valid, CleanContact, UnverifiedOf;
  }

  // ---------- what workers do not read ----------

  /** Workers never read back candidates, and so not how a human resolved one; nor audit
      rows, approvals or saved extractions. Whatever these tables hold, every step is the same. */
  lemma ResolutionsAreNotReadBack(
    cfg: Config, db: Db, now: int, locked: set<nat>, pc: Pc, o: Oracle,
    candidates: seq<Candidate>, audit: seq<AuditRow>, approvals: seq<Approval>, extractions: seq<ExtractionRow>)
    ensures WorkerStep(cfg, db, now, locked, pc, o) ==
      WorkerStep(cfg, db.(candidates := candidates, audit := audit, approvals := approvals, extractions := extractions), now, locked, pc, o)
  {
    var db' := db.(candidates := candidates, audit := audit, approvals := approvals, extractions := extractions);
    if pc.AtMatch? {
      MatchReadsContacts(cfg, db, db', Trusted(pc.ex), o.found);
    }
    hide IsMatch, Route, Extract, TeamAndUser, PickOwner, IsCompanyHit, HasRecentDuplicate, Trusted, FilledRow, EmailOf;
  }

  // ---------- text ----------

  lemma NormOfLetters(f: CaseMap, s: string)
    requires forall i | 0 <= i < |s| :: !IsSpace(s[i])
    ensures |Norm(f, s)| == |s|
  {
    LeadIs(s, IsSpace, 0);
    assert s[0..] == s;
    TrailIs(s, IsSpace, 0);
    assert TrimSpace(s) == s[..|s|] == s;
    SqueezeOfLetters(Lower(f, s), false);
  }

  lemma {:induction false} SqueezeOfLetters(s: string, inRun: bool)
    requires forall i | 0 <= i < |s| :: !IsSpace(s[i])
    ensures |Squeeze(s, inRun)| == |s|
  {
    if s != "" {
      SqueezeOfLetters(s[1..], false);
    }
  }

  /** A true quote vouches for any value at all, including one that is nowhere in the text. */
  lemma UnrelatedQuoteVouches(f: CaseMap)
    ensures var quotes := map[EmailField := "a"];
      Supported(f, "a", quotes, EmailField, Some("b@c.d")) && !Contains(Norm(f, "a"), Norm(f, "b@c.d"))
  {
    NormOfLetters(f, "a");
    NormOfLetters(f, "b@c.d");
    var quotes: map<Field, string> := map[EmailField := "a"];
    assert OccursAt(Norm(f, "a"), Norm(f, "a"), 0);
    LeadIs("a", IsSpace, 0);
    assert "a"[0..] == "a";
    TrailIs("a", IsSpace, 0);
    assert Quoted(f, "a", quotes, EmailField);
  }
}
