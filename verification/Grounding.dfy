/** internal/llm/extract.go: what code does with a language model's answer before any
    of it is believed: schema check, contact clean-up, grounding, tier escalation. */
module Grounding {
  import opened Base
  import opened Text
  import opened Model
  import opened Router

  // ---------- validate ----------

  predicate Valid(ex: Extraction) {
    && ex.enquiryType in [TYPE_SALES, TYPE_SUPPORT, TYPE_JUNK, TYPE_INSUFFICIENT_INFO]
    && ex.urgency in ["low", "medium", "high"]
    && 0.0 <= ex.confidence <= 1.0
    && !Blank(ex.intentSummary)
  }

  // ---------- normalizeContact ----------

  predicate IsEdgePunctuation(c: char) {
    c in ".,;:!?\"'()<>"
  }

  function TrimEnds(s: string): string {
    TrimSpace(Trim(TrimSpace(s), IsEdgePunctuation))
  }

  function NoneIfEmpty(s: string): Option<string> {
    if s == "" then None else Some(s)
  }

  function CleanField(v: Option<string>): Option<string> {
    if v.None? then None else NoneIfEmpty(TrimEnds(v.value))
  }

  /** Position of the first '@', or |s|. */
  function FirstAt(s: string): (n: nat)
    ensures n <= |s|
    ensures n < |s| ==> s[n] == '@'
    ensures '@' !in s[..n]
  {
    if s == "" || s[0] == '@' then 0 else 1 + FirstAt(s[1..])
  }

  predicate AddressShaped(s: string) {
    var at := FirstAt(s);
    && 0 < at < |s|
    && '.' in s[at + 1..]
    && ' ' !in s && '\t' !in s
  }

  function CleanEmail(f: CaseMap, v: Option<string>): Option<string> {
    if v.None? then None
    else var s := Lower(f, TrimEnds(v.value)); if AddressShaped(s) then Some(s) else None
  }

  function CleanContact(f: CaseMap, c: ContactInfo): ContactInfo {
    ContactInfo(CleanField(c.name), CleanEmail(f, c.email), CleanField(c.phone), CleanField(c.company))
  }

  // ---------- Ground and Trusted ----------

  predicate Quoted(f: CaseMap, source: string, quotes: map<Field, string>, field: Field) {
    field in quotes && !Blank(quotes[field]) && Contains(Norm(f, source), Norm(f, quotes[field]))
  }

  /** A field passes the check when it is absent, stands in the source, or came with
      a non-blank quote that stands in the source. */
  predicate Supported(f: CaseMap, source: string, quotes: map<Field, string>, field: Field, v: Option<string>) {
    || v.None? || Blank(v.value)
    || Contains(Norm(f, source), Norm(f, v.value))
    || Quoted(f, source, quotes, field)
  }

  /** A classification is refuted only by a non-blank quote that is not in the source. */
  predicate Refuted(f: CaseMap, source: string, quotes: map<Field, string>, field: Field) {
    field in quotes && !Blank(quotes[field]) && !Contains(Norm(f, source), Norm(f, quotes[field]))
  }

  function FlagIf(flags: seq<Field>, b: bool, field: Field): seq<Field> {
    if b then flags + [field] else flags
  }

  function UnsupportedOf(f: CaseMap, source: string, c: ContactInfo, quotes: map<Field, string>): seq<Field> {
    var n := FlagIf([], !Supported(f, source, quotes, NameField, c.name), NameField);
    var e := FlagIf(n, !Supported(f, source, quotes, EmailField, c.email), EmailField);
    var p := FlagIf(e, !Supported(f, source, quotes, PhoneField, c.phone), PhoneField);
    FlagIf(p, !Supported(f, source, quotes, CompanyField, c.company), CompanyField)
  }

  function RefutedOf(f: CaseMap, source: string, quotes: map<Field, string>, flags: seq<Field>): seq<Field> {
    var t := FlagIf(flags, Refuted(f, source, quotes, TypeField), TypeField);
    FlagIf(t, Refuted(f, source, quotes, UrgencyField), UrgencyField)
  }

  function UnverifiedOf(f: CaseMap, source: string, c: ContactInfo, quotes: map<Field, string>): seq<Field> {
    RefutedOf(f, source, quotes, UnsupportedOf(f, source, c, quotes))
  }

  function Trusted(ex: Extraction): ContactInfo {
    ContactInfo(
      if ex.Unverified(NameField) then None else ex.contact.name,
      if ex.Unverified(EmailField) then None else ex.contact.email,
      if ex.Unverified(PhoneField) then None else ex.contact.phone,
      if ex.Unverified(CompanyField) then None else ex.contact.company)
  }

  /** The extraction that normalizeContact and Ground rewrite through its pointer. */
  class Draft {
    var ex: Extraction

    constructor (ex: Extraction)
      ensures this.ex == ex
    {
      this.ex := ex;
    }

    method NormalizeContact(f: CaseMap)
      modifies this
      ensures ex == old(ex).(contact := CleanContact(f, old(ex).contact))
    {
      ex := ex.(contact := ex.contact.(name := CleanField(ex.contact.name)));
      ex := ex.(contact := ex.contact.(company := CleanField(ex.contact.company)));
      ex := ex.(contact := ex.contact.(phone := CleanField(ex.contact.phone)));
      ex := ex.(contact := ex.contact.(email := CleanEmail(f, ex.contact.email)));
    }

    method Check(f: CaseMap, ghost source: string, haystack: string, field: Field, v: Option<string>)
      requires haystack == Norm(f, source)
      modifies this
      ensures ex == old(ex).(unverified := ex.unverified)
      ensures ex.unverified == FlagIf(old(ex.unverified), !Supported(f, source, old(ex).quotes, field, v), field)
    {
      if v.None? || Blank(v.value) {
        return;
      }
      if Contains(haystack, Norm(f, v.value)) {
        return;
      }
      if field !in ex.quotes || Blank(ex.quotes[field]) || !Contains(haystack, Norm(f, ex.quotes[field])) {
        ex := ex.(unverified := ex.unverified + [field]);
      }
    }

    method CheckClassification(f: CaseMap, ghost source: string, haystack: string)
      requires haystack == Norm(f, source)
      modifies this
      ensures ex == old(ex).(unverified := ex.unverified)
      ensures ex.unverified == RefutedOf(f, source, old(ex).quotes, old(ex.unverified))
    {
      var judged := [TypeField, UrgencyField];
      for i := 0 to |judged|
        invariant ex == old(ex).(unverified := ex.unverified)
        invariant ex.unverified ==
          if i == 0 then old(ex.unverified)
          else if i == 1 then FlagIf(old(ex.unverified), Refuted(f, source, old(ex).quotes, TypeField), TypeField)
          else RefutedOf(f, source, old(ex).quotes, old(ex.unverified))
      {
        var field := judged[i];
        if field in ex.quotes && !Blank(ex.quotes[field]) && !Contains(haystack, Norm(f, ex.quotes[field])) {
          ex := ex.(unverified := ex.unverified + [field]);
        }
      }
    }

    method Ground(f: CaseMap, source: string)
      modifies this
      ensures ex == old(ex).(unverified := UnverifiedOf(f, source, old(ex).contact, old(ex).quotes))
    {
      var haystack := Norm(f, source);
      ex := ex.(unverified := []);
      Check(f, source, haystack, NameField, ex.contact.name);
      Check(f, source, haystack, EmailField, ex.contact.email);
      Check(f, source, haystack, PhoneField, ex.contact.phone);
      Check(f, source, haystack, CompanyField, ex.contact.company);
      CheckClassification(f, source, haystack);
    }
  }

  /** The grounding verdicts, stated per field. */
  lemma UnverifiedMeansUnsupported(f: CaseMap, source: string, c: ContactInfo, quotes: map<Field, string>)
    ensures var u := UnverifiedOf(f, source, c, quotes);
      && (NameField in u <==> !Supported(f, source, quotes, NameField, c.name))
      && (EmailField in u <==> !Supported(f, source, quotes, EmailField, c.email))
      && (PhoneField in u <==> !Supported(f, source, quotes, PhoneField, c.phone))
      && (CompanyField in u <==> !Supported(f, source, quotes, CompanyField, c.company))
      && (TypeField in u <==> Refuted(f, source, quotes, TypeField))
      && (UrgencyField in u <==> Refuted(f, source, quotes, UrgencyField))
  {
    FlagsIn(!Supported(f, source, quotes, NameField, c.name), !Supported(f, source, quotes, EmailField, c.email),
            !Supported(f, source, quotes, PhoneField, c.phone), !Supported(f, source, quotes, CompanyField, c.company),
            Refuted(f, source, quotes, TypeField), Refuted(f, source, quotes, UrgencyField));
  }

  lemma FlagsIn(n: bool, e: bool, p: bool, c: bool, t: bool, u: bool)
    ensures var s := FlagIf(FlagIf(FlagIf(FlagIf(FlagIf(FlagIf([], n, NameField), e, EmailField), p, PhoneField),
                            c, CompanyField), t, TypeField), u, UrgencyField);
      && (NameField in s <==> n) && (EmailField in s <==> e) && (PhoneField in s <==> p)
      && (CompanyField in s <==> c) && (TypeField in s <==> t) && (UrgencyField in s <==> u)
  {}

  // ---------- callExtract and Extract ----------

  /** One tier: no answer, or an answer outside the schema, is an error. */
  function CallExtract(f: CaseMap, answer: Option<Extraction>, text: string): Option<Extraction> {
    if answer.None? || !Valid(answer.value) then None
    else
      var ex := answer.value;
      var c := CleanContact(f, ex.contact);
      Some(ex.(contact := c, unverified := UnverifiedOf(f, text, c, ex.quotes)))
  }

  /** Tier 1, escalation on low confidence, fallback on error. */
  function Extract(f: CaseMap, tier1: Option<Extraction>, tier2: Option<Extraction>, threshold: real,
      text: string): Option<Extraction> {
    var first, second := CallExtract(f, tier1, text), CallExtract(f, tier2, text);
    if first.None? then
      if second.None? then None else Some(second.value.(escalated := true))
    else if first.value.confidence < threshold && second.Some? then Some(second.value.(escalated := true))
    else first
  }

  method CallTier(f: CaseMap, answer: Option<Extraction>, text: string) returns (r: Option<Extraction>)
    ensures r == CallExtract(f, answer, text)
  {
    if answer.None? {
      return None;
    }
    if !Valid(answer.value) {
      return None;
    }
    var d := new Draft(answer.value);
    d.NormalizeContact(f);
    d.Ground(f, text);
    return Some(d.ex);
  }

  /** Extract as written: ask tier 1; escalate when it fails or is unsure; keep an unsure
      answer when tier 2 fails too. */
  method ExtractEnquiry(f: CaseMap, tier1: Option<Extraction>, tier2: Option<Extraction>, threshold: real, text: string)
    returns (r: Option<Extraction>)
    ensures r == Extract(f, tier1, tier2, threshold, text)
  {
    hide CallExtract;
    var first := CallTier(f, tier1, text);
    if first.Some? && first.value.confidence >= threshold {
      return first;
    }
    var second := CallTier(f, tier2, text);
    if second.None? {
      return first;
    }
    return Some(second.value.(escalated := true));
  }

  // ---------- what the checks guarantee ----------

  /** What every extraction that leaves Extract satisfies. */
  ghost predicate Checked(f: CaseMap, text: string, ex: Extraction) {
    && Valid(ex)
    && ex.unverified == UnverifiedOf(f, text, ex.contact, ex.quotes)
    && (ex.contact.name.Some? ==> !Blank(ex.contact.name.value))
    && (ex.contact.phone.Some? ==> !Blank(ex.contact.phone.value))
    && (ex.contact.company.Some? ==> !Blank(ex.contact.company.value))
    && (ex.contact.email.Some? ==> AddressShaped(ex.contact.email.value) && !Blank(ex.contact.email.value))
  }

  lemma TrimOfTrimmed(s: string)
    ensures var t := TrimSpace(s); t != "" ==> !Blank(t)
  {
    var t := TrimSpace(s);
    TrimEdges(s, IsSpace);
    if t != "" {
      LeadIs(t, IsSpace, 0);
      assert t[0..] == t;
      TrailIs(t, IsSpace, 0);
    }
  }

  lemma AddressIsNotBlank(s: string)
    requires AddressShaped(s)
    ensures !Blank(s)
  {
    assert Contains(s, "@") by {
      var at := FirstAt(s);
      assert s[at..at + 1] == "@";
      assert OccursAt(s, "@", at);
    }
    TrimKeepsPiece(s, "@", IsSpace);
  }

  lemma CleanFieldIsNotBlank(v: Option<string>)
    ensures CleanField(v).Some? ==> !Blank(CleanField(v).value)
  {
    if v.Some? {
      TrimOfTrimmed(Trim(TrimSpace(v.value), IsEdgePunctuation));
    }
  }

  lemma CallExtractIsChecked(f: CaseMap, answer: Option<Extraction>, text: string)
    ensures CallExtract(f, answer, text).Some? ==> Checked(f, text, CallExtract(f, answer, text).value)
  {
    hide Blank, AddressShaped, UnverifiedOf, CleanField;
    if answer.Some? {
      var c := answer.value.contact;
      CleanFieldIsNotBlank(c.name);
      CleanFieldIsNotBlank(c.phone);
      CleanFieldIsNotBlank(c.company);
      var email := CleanEmail(f, c.email);
      if email.Some? {
        AddressIsNotBlank(email.value);
      }
    }
  }

  lemma ExtractIsChecked(f: CaseMap, tier1: Option<Extraction>, tier2: Option<Extraction>, threshold: real, text: string)
    ensures var r := Extract(f, tier1, tier2, threshold, text); r.Some? ==> Checked(f, text, r.value)
  {
    CallExtractIsChecked(f, tier1, text);
    CallExtractIsChecked(f, tier2, text);
  }

  /** Nothing ungrounded is trusted, and nothing grounded is dropped: each contact
      field survives Trusted exactly when the grounding check supports it. */
  lemma TrustedIsExactlySupported(f: CaseMap, text: string, ex: Extraction)
    requires ex.unverified == UnverifiedOf(f, text, ex.contact, ex.quotes)
    ensures var t, c := Trusted(ex), ex.contact;
      && t.name == (if Supported(f, text, ex.quotes, NameField, c.name) then c.name else None)
      && t.email == (if Supported(f, text, ex.quotes, EmailField, c.email) then c.email else None)
      && t.phone == (if Supported(f, text, ex.quotes, PhoneField, c.phone) then c.phone else None)
      && t.company == (if Supported(f, text, ex.quotes, CompanyField, c.company) then c.company else None)
  {
    UnverifiedMeansUnsupported(f, text, ex.contact, ex.quotes);
  }

  lemma TrimEndsIsPiece(s: string)
    ensures Contains(s, TrimEnds(s))
  {
    TrimIsPiece(s, IsSpace);
    TrimIsPiece(TrimSpace(s), IsEdgePunctuation);
    TrimIsPiece(Trim(TrimSpace(s), IsEdgePunctuation), IsSpace);
    ContainsTransitive(s, TrimSpace(s), Trim(TrimSpace(s), IsEdgePunctuation));
    ContainsTransitive(s, Trim(TrimSpace(s), IsEdgePunctuation), TrimEnds(s));
  }

  lemma CopiedValueIsFound(f: CaseMap, source: string, v: string)
    requires Contains(source, v)
    ensures Contains(Norm(f, source), Norm(f, TrimEnds(v)))
    ensures Contains(Norm(f, source), Norm(f, Lower(f, TrimEnds(v))))
  {
    TrimEndsIsPiece(v);
    ContainsTransitive(source, v, TrimEnds(v));
    NormKeepsPieces(f, source, TrimEnds(v));
    NormOfLower(f, TrimEnds(v));
  }

  ghost predicate CopiedFrom(source: string, v: Option<string>) {
    v.Some? && Contains(source, v.value)
  }

  /** True quotes are never rejected: a contact value the model copied from anywhere
      in the text reaches the CRM, cleaned of edge punctuation, whatever quotes came
      with it. */
  lemma CopiedValuesSurvive(f: CaseMap, source: string, answer: Extraction)
    requires Valid(answer)
    ensures var r := CallExtract(f, Some(answer), source);
      && r.Some?
      && (CopiedFrom(source, answer.contact.name) ==> Trusted(r.value).name == CleanField(answer.contact.name))
      && (CopiedFrom(source, answer.contact.phone) ==> Trusted(r.value).phone == CleanField(answer.contact.phone))
      && (CopiedFrom(source, answer.contact.company) ==> Trusted(r.value).company == CleanField(answer.contact.company))
      && (CopiedFrom(source, answer.contact.email) ==> Trusted(r.value).email == CleanEmail(f, answer.contact.email))
  {
    var c := answer.contact;
    TrustedIsExactlySupported(f, source, CallExtract(f, Some(answer), source).value);
    if CopiedFrom(source, c.name) { CopiedValueIsFound(f, source, c.name.value); }
    if CopiedFrom(source, c.phone) { CopiedValueIsFound(f, source, c.phone.value); }
    if CopiedFrom(source, c.company) { CopiedValueIsFound(f, source, c.company.value); }
    if CopiedFrom(source, c.email) { CopiedValueIsFound(f, source, c.email.value); }
  }

  /** A classification that quotes the text truthfully is never held against it. */
  lemma TrueClassificationQuoteIsNotRefuted(f: CaseMap, source: string, answer: Extraction, field: Field)
    requires Valid(answer) && field in [TypeField, UrgencyField]
    requires field in answer.quotes ==> Contains(source, answer.quotes[field])
    ensures !CallExtract(f, Some(answer), source).value.Unverified(field)
  {
    UnverifiedMeansUnsupported(f, source, CleanContact(f, answer.contact), answer.quotes);
    if field in answer.quotes {
      NormKeepsPieces(f, source, answer.quotes[field]);
    }
  }

  // ---------- the confidence gate, end to end ----------

  /** What an extraction must satisfy for the router to act on it at all. */
  ghost predicate MayAct(f: CaseMap, text: string, threshold: real, ex: Extraction) {
    Checked(f, text, ex) && ex.confidence >= threshold && !Refuted(f, text, ex.quotes, TypeField)
  }

  /** Whatever the two tiers answer, and whichever of them fails: either processing
      fails and is retried, or the enquiry goes to a human, or the decision rests on
      an extraction that meets the gate. */
  lemma ConfidenceGate(
    f: CaseMap, tier1: Option<Extraction>, tier2: Option<Extraction>, threshold: real, text: string,
    dup: Option<Match>, rules: seq<Rule>, autoAttach: real)
    ensures var r := Extract(f, tier1, tier2, threshold, text);
      r.Some? && Route(r.value, dup, rules, threshold, autoAttach) != REVIEW ==> MayAct(f, text, threshold, r.value)
  {
    var r := Extract(f, tier1, tier2, threshold, text);
    ExtractIsChecked(f, tier1, tier2, threshold, text);
    if r.Some? {
      UnverifiedMeansUnsupported(f, text, r.value.contact, r.value.quotes);
    }
  }

  /** The fallback chain itself: Extract fails only when no tier gave a usable answer,
      and a low-confidence tier-1 answer that is kept because tier 2 failed is always
      reviewed by a human. */
  lemma FailedEscalationIsReviewed(
    f: CaseMap, tier1: Option<Extraction>, tier2: Option<Extraction>, threshold: real, text: string,
    dup: Option<Match>, rules: seq<Rule>, autoAttach: real)
    ensures var a, b, r := CallExtract(f, tier1, text), CallExtract(f, tier2, text), Extract(f, tier1, tier2, threshold, text);
      && (r.None? <==> a.None? && b.None?)
      && (r.Some? && !r.value.escalated ==> r == a && (a.value.confidence >= threshold || b.None?))
      && (a.Some? && a.value.confidence < threshold && b.None? ==>
            r == a && Route(r.value, dup, rules, threshold, autoAttach) == REVIEW)
  {}
}
