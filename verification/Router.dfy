/** internal/router/router.go: the deterministic routing decision. */
module Router {
  import opened Base
  import opened Text
  import opened Model

  // ---------- the order of rules ----------

  /** Go's string comparison. */
  predicate NameLess(a: string, b: string) {
    b != "" && (a == "" || a[0] < b[0] || (a[0] == b[0] && NameLess(a[1..], b[1..])))
  }

  lemma {:induction false} NameLessIsTotal(a: string, b: string)
    ensures NameLess(a, b) || NameLess(b, a) || a == b
    ensures !(NameLess(a, b) && NameLess(b, a))
  {
    if a != "" && b != "" {
      NameLessIsTotal(a[1..], b[1..]);
      assert a == [a[0]] + a[1..] && b == [b[0]] + b[1..];
    }
  }

  lemma {:induction false} NameLessIsTransitive(a: string, b: string, c: string)
    requires NameLess(a, b) && NameLess(b, c)
    ensures NameLess(a, c)
  {
    if a != "" && a[0] == b[0] && b[0] == c[0] {
      NameLessIsTransitive(a[1..], b[1..], c[1..]);
    }
  }

  /** The comparison sortByPriority passes to sort.SliceStable. */
  predicate Before(a: Rule, b: Rule) {
    if a.priority != b.priority then a.priority < b.priority else NameLess(a.name, b.name)
  }

  /** b does not have to come before a. */
  predicate NotAfter(a: Rule, b: Rule) {
    !Before(b, a)
  }

  lemma NotAfterIsTotalPreorder(a: Rule, b: Rule, c: Rule)
    ensures NotAfter(a, b) || NotAfter(b, a)
    ensures NotAfter(a, b) && NotAfter(b, c) ==> NotAfter(a, c)
    ensures NotAfter(a, b) && NotAfter(b, a) ==> a.priority == b.priority && a.name == b.name
  {
    NameLessIsTotal(a.name, b.name);
    NameLessIsTotal(b.name, c.name);
    NameLessIsTotal(a.name, c.name);
    if NameLess(c.name, a.name) && NameLess(a.name, b.name) {
      NameLessIsTransitive(c.name, a.name, b.name);
    }
    if NameLess(b.name, c.name) && NameLess(c.name, a.name) {
      NameLessIsTransitive(b.name, c.name, a.name);
    }
  }

  ghost predicate InOrder(rs: seq<Rule>) {
    forall i, j | 0 <= i < j < |rs| :: NotAfter(rs[i], rs[j])
  }

  // ---------- the stable sort ----------

  /** Put x behind everything that need not come after it. */
  function Insert(rs: seq<Rule>, x: Rule): seq<Rule> {
    if rs == [] || NotAfter(rs[|rs| - 1], x) then rs + [x]
    else Insert(rs[..|rs| - 1], x) + [rs[|rs| - 1]]
  }

  function SortedRules(rs: seq<Rule>): seq<Rule> {
    if rs == [] then [] else Insert(SortedRules(rs[..|rs| - 1]), rs[|rs| - 1])
  }

  lemma {:induction false} InsertKeepsOrder(rs: seq<Rule>, x: Rule)
    requires InOrder(rs)
    ensures InOrder(Insert(rs, x))
    ensures multiset(Insert(rs, x)) == multiset(rs) + multiset{x}
  {
    if rs == [] {
    } else if NotAfter(rs[|rs| - 1], x) {
      forall i | 0 <= i < |rs| ensures NotAfter(rs[i], x) {
        NotAfterIsTotalPreorder(rs[i], rs[|rs| - 1], x);
      }
    } else {
      var front, last := rs[..|rs| - 1], rs[|rs| - 1];
      assert rs == front + [last];
      InsertKeepsOrder(front, x);
      NotAfterIsTotalPreorder(x, last, x);
      var r := Insert(front, x);
      forall i | 0 <= i < |r| ensures NotAfter(r[i], last) {
        assert r[i] in multiset(r);
        assert r[i] in multiset(front) || r[i] == x;
        if r[i] in multiset(front) {
          var k :| 0 <= k < |front| && front[k] == r[i];
          assert NotAfter(rs[k], rs[|rs| - 1]);
        }
      }
    }
  }

  /** The result of the sort is in order and holds the same rules. */
  lemma {:induction false} SortedRulesAreSorted(rs: seq<Rule>)
    ensures InOrder(SortedRules(rs))
    ensures multiset(SortedRules(rs)) == multiset(rs)
  {
    hide Insert, NotAfter;
    if rs != [] {
      SortedRulesAreSorted(rs[..|rs| - 1]);
      InsertKeepsOrder(SortedRules(rs[..|rs| - 1]), rs[|rs| - 1]);
      assert rs == rs[..|rs| - 1] + [rs[|rs| - 1]];
    }
  }

  /** Where x goes: behind everything that need not come after it. */
  lemma {:induction false} InsertAt(rs: seq<Rule>, x: Rule, k: nat)
    requires k <= |rs| && (k > 0 ==> NotAfter(rs[k - 1], x))
    requires forall j | k <= j < |rs| :: Before(x, rs[j])
    ensures Insert(rs, x) == rs[..k] + [x] + rs[k..]
  {
    if k < |rs| {
      var front := rs[..|rs| - 1];
      InsertAt(front, x, k);
      assert front[k..] + [rs[|rs| - 1]] == rs[k..];
    }
  }

  /** One round of the in-place sort: sink a[n] into the sorted part before it. */
  method SinkInPlace(a: array<Rule>, n: nat)
    requires n < a.Length
    modifies a
    ensures a[..n + 1] == Insert(old(a[..n]), old(a[n]))
    ensures a[n + 1..] == old(a[n + 1..])
  {
    hide NameLess, Insert;
    ghost var sorted, x := a[..n], a[n];
    var k := n;
    while k > 0 && Before(a[k], a[k - 1])
      invariant 0 <= k <= n
      invariant a[..k] == sorted[..k] && a[k] == x
      invariant a[k + 1..n + 1] == sorted[k..]
      invariant a[n + 1..] == old(a[n + 1..])
      invariant forall j | k <= j < n :: Before(x, sorted[j])
    {
      assert a[k - 1] == a[..k][k - 1] == sorted[k - 1];
      a[k], a[k - 1] := a[k - 1], a[k];
      k := k - 1;
    }
    assert k > 0 ==> a[k - 1] == a[..k][k - 1] == sorted[k - 1];
    InsertAt(sorted, x, k);
    assert a[..n + 1] == a[..k] + [a[k]] + a[k + 1..n + 1];
  }

  /** sortByPriority: copy the slice, then sort the copy in place and stably. */
  method SortByPriority(rules: seq<Rule>) returns (out: array<Rule>)
    ensures fresh(out) && out[..] == SortedRules(rules)
  {
    out := new Rule[|rules|](i requires 0 <= i < |rules| => rules[i]);
    for n := 0 to |rules|
      invariant out[..n] == SortedRules(rules[..n])
      invariant out[n..] == rules[n..]
    {
      assert out[n] == out[n..][0] == rules[n];
      assert rules[..n + 1][..n] == rules[..n];
      assert out[n + 1..] == out[n..][1..] == rules[n + 1..];
      SinkInPlace(out, n);
    }
    assert rules[..|rules|] == rules && out[..|rules|] == out[..];
  }

  // ---------- which rule is chosen ----------

  /** The first active rule of a list that matches. */
  function FirstEligible(rs: seq<Rule>, ex: Extraction): Option<Rule> {
    if rs == [] then None else if rs[0].Eligible(ex) then Some(rs[0]) else FirstEligible(rs[1..], ex)
  }

  /** Independent definition of the choice: a running minimum over the unsorted list,
      in which a later rule wins only when it comes strictly before. */
  function LeastEligible(rs: seq<Rule>, ex: Extraction): Option<Rule> {
    if rs == [] then None
    else
      var best, x := LeastEligible(rs[..|rs| - 1], ex), rs[|rs| - 1];
      if x.Eligible(ex) && (best.None? || Before(x, best.value)) then Some(x) else best
  }

  lemma {:induction false} FirstEligibleConcat(a: seq<Rule>, b: seq<Rule>, ex: Extraction)
    ensures FirstEligible(a + b, ex) == if FirstEligible(a, ex).Some? then FirstEligible(a, ex) else FirstEligible(b, ex)
  {
    if a == [] {
      assert a + b == b;
    } else {
      assert (a + b)[1..] == a[1..] + b;
      FirstEligibleConcat(a[1..], b, ex);
    }
  }

  lemma {:induction false} FirstEligibleIsIn(rs: seq<Rule>, ex: Extraction)
    ensures FirstEligible(rs, ex).Some? ==> FirstEligible(rs, ex).value in rs && FirstEligible(rs, ex).value.Eligible(ex)
    ensures FirstEligible(rs, ex).None? ==> forall r | r in rs :: !r.Eligible(ex)
  {
    if rs != [] {
      FirstEligibleIsIn(rs[1..], ex);
    }
  }

  lemma {:induction false} FirstEligibleOfInsert(rs: seq<Rule>, x: Rule, ex: Extraction)
    requires InOrder(rs)
    ensures var best := FirstEligible(rs, ex);
      FirstEligible(Insert(rs, x), ex) ==
        if x.Eligible(ex) && (best.None? || Before(x, best.value)) then Some(x) else best
  {
    FirstEligibleIsIn(rs, ex);
    var best := FirstEligible(rs, ex);
    if rs == [] || NotAfter(rs[|rs| - 1], x) {
      FirstEligibleConcat(rs, [x], ex);
      if best.Some? {
        var k :| 0 <= k < |rs| && rs[k] == best.value;
        NotAfterIsTotalPreorder(rs[k], rs[|rs| - 1], x);
        assert k < |rs| - 1 ==> NotAfter(rs[k], rs[|rs| - 1]);
      }
    } else {
      var front, last := rs[..|rs| - 1], rs[|rs| - 1];
      assert rs == front + [last];
      FirstEligibleOfInsert(front, x, ex);
      FirstEligibleConcat(front, [last], ex);
      FirstEligibleConcat(Insert(front, x), [last], ex);
    }
  }

  /** Scanning the sorted copy finds the same rule as the running minimum. */
  lemma {:induction false} SortThenScanIsMinimum(rs: seq<Rule>, ex: Extraction)
    ensures FirstEligible(SortedRules(rs), ex) == LeastEligible(rs, ex)
  {
    if rs != [] {
      SortThenScanIsMinimum(rs[..|rs| - 1], ex);
      SortedRulesAreSorted(rs[..|rs| - 1]);
      FirstEligibleOfInsert(SortedRules(rs[..|rs| - 1]), rs[|rs| - 1], ex);
    }
  }

  /** r stands at position i, is eligible, comes no later than any eligible rule, and
      no earlier position holds an equally placed eligible rule. */
  ghost predicate IsChoice(rs: seq<Rule>, ex: Extraction, i: nat) {
    && i < |rs| && rs[i].Eligible(ex)
    && (forall j | 0 <= j < |rs| && rs[j].Eligible(ex) :: NotAfter(rs[i], rs[j]))
    && (forall j | 0 <= j < i && rs[j].Eligible(ex) :: Before(rs[i], rs[j]))
  }

  /** The chosen rule is exactly the least eligible one by priority, then name, then position. */
  lemma {:induction false} LeastEligibleIsChoice(rs: seq<Rule>, ex: Extraction) returns (i: nat)
    ensures match LeastEligible(rs, ex)
      case None => forall r | r in rs :: !r.Eligible(ex)
      case Some(r) => IsChoice(rs, ex, i) && rs[i] == r
  {
    i := 0;
    if rs != [] {
      var front, x := rs[..|rs| - 1], rs[|rs| - 1];
      i := LeastEligibleIsChoice(front, ex);
      var best := LeastEligible(front, ex);
      assert forall r | r in rs :: r in front || r == x;
      if x.Eligible(ex) {
        NotAfterIsTotalPreorder(x, x, x);
        if best.None? {
          assert forall j | 0 <= j < |front| :: front[j] in front;
          i := |rs| - 1;
        } else if Before(x, best.value) {
          forall j | 0 <= j < |front| && rs[j].Eligible(ex) ensures Before(x, rs[j]) {
            assert front[j] == rs[j];
            NotAfterIsTotalPreorder(best.value, rs[j], x);
          }
          forall j | 0 <= j < |rs| && rs[j].Eligible(ex) ensures NotAfter(x, rs[j]) {
            NotAfterIsTotalPreorder(x, rs[j], x);
          }
          i := |rs| - 1;
        }
      }
      if LeastEligible(rs, ex) == best && best.Some? {
        forall j | 0 <= j < |rs| && rs[j].Eligible(ex) ensures NotAfter(rs[i], rs[j]) {
          assert j < |front| ==> front[j] == rs[j];
        }
        assert forall j | 0 <= j < i :: front[j] == rs[j];
      }
    }
  }

  ghost predicate UniqueNames(rs: seq<Rule>) {
    forall i, j | 0 <= i < j < |rs| :: rs[i].name != rs[j].name
  }

  /** With the schema's unique rule names the choice depends only on which eligible
      rules there are: any reordering, and any rules added or removed that are
      inactive or do not match, leave it unchanged. */
  lemma ChoiceDependsOnEligibleRulesOnly(rs: seq<Rule>, rs': seq<Rule>, ex: Extraction)
    requires UniqueNames(rs) && UniqueNames(rs')
    requires forall r: Rule | r.Eligible(ex) :: r in rs <==> r in rs'
    ensures LeastEligible(rs, ex) == LeastEligible(rs', ex)
  {
    var i := LeastEligibleIsChoice(rs, ex);
    var j := LeastEligibleIsChoice(rs', ex);
    var a, b := LeastEligible(rs, ex), LeastEligible(rs', ex);
    if a.Some? {
      assert a.value in rs && a.value in rs';
    }
    if b.Some? {
      assert b.value in rs' && b.value in rs;
    }
    if a.Some? && b.Some? {
      var k :| 0 <= k < |rs| && rs[k] == b.value;
      var m :| 0 <= m < |rs'| && rs'[m] == a.value;
      NotAfterIsTotalPreorder(a.value, b.value, a.value);
      assert rs[i].name == rs[k].name;
    }
  }

  /** When the store already returns the rules in order, as ORDER BY priority, name
      does, taking the first eligible one is the same choice. */
  lemma {:induction false} FirstOfOrderedIsLeast(rs: seq<Rule>, ex: Extraction)
    requires InOrder(rs)
    ensures FirstEligible(rs, ex) == LeastEligible(rs, ex)
  {
    if rs != [] {
      var front, x := rs[..|rs| - 1], rs[|rs| - 1];
      assert rs == front + [x];
      FirstOfOrderedIsLeast(front, ex);
      FirstEligibleConcat(front, [x], ex);
      FirstEligibleIsIn(front, ex);
      var best := FirstEligible(front, ex);
      if best.Some? {
        var k :| 0 <= k < |front| && front[k] == best.value;
        assert NotAfter(rs[k], rs[|rs| - 1]);
      }
    }
  }

  // ---------- the decision ----------

  predicate Has(ex: Extraction, field: Field, v: Option<string>) {
    v.Some? && !Blank(v.value) && !ex.Unverified(field)
  }

  predicate Identifiable(ex: Extraction) {
    || Has(ex, EmailField, ex.contact.email)
    || Has(ex, PhoneField, ex.contact.phone)
    || Has(ex, NameField, ex.contact.name)
  }

  predicate LowConfidence(ex: Extraction, threshold: real) {
    ex.confidence < threshold || ex.Unverified(TypeField)
  }

  predicate Incomplete(ex: Extraction) {
    ex.missing != [] || ex.enquiryType == TYPE_INSUFFICIENT_INFO || !Identifiable(ex)
  }

  const REVIEW := Decision(ReviewByHuman, "", None)

  function Route(ex: Extraction, dup: Option<Match>, rules: seq<Rule>, confidence: real, autoAttach: real): Decision {
    if LowConfidence(ex, confidence) then REVIEW
    else if ex.enquiryType == TYPE_JUNK then Decision(ArchiveJunk, "", None)
    else if Incomplete(ex) then Decision(DraftClarifyingQuestion, "", None)
    else if dup.Some? then
      Decision(if dup.value.score >= autoAttach then AttachToExistingContact else FlagForMergeReview, "", None)
    else match LeastEligible(rules, ex)
      case None => REVIEW
      case Some(r) => Decision(CreateOrUpdateCrm, r.team, r.user)
  }

  /** Route as written: the gates in order, then a loop over the sorted copy. */
  method RouteEnquiry(ex: Extraction, dup: Option<Match>, rules: seq<Rule>, confidence: real, autoAttach: real)
    returns (d: Decision)
    ensures d == Route(ex, dup, rules, confidence, autoAttach)
  {
    if ex.confidence < confidence || ex.Unverified(TypeField) {
      return REVIEW;
    }
    if ex.enquiryType == TYPE_JUNK {
      return Decision(ArchiveJunk, "", None);
    }
    if |ex.missing| > 0 || ex.enquiryType == TYPE_INSUFFICIENT_INFO || !Identifiable(ex) {
      return Decision(DraftClarifyingQuestion, "", None);
    }
    if dup.Some? {
      if dup.value.score >= autoAttach {
        return Decision(AttachToExistingContact, "", None);
      }
      return Decision(FlagForMergeReview, "", None);
    }
    SortThenScanIsMinimum(rules, ex);
    var sorted := SortByPriority(rules);
    ghost var all := sorted[..];
    for i := 0 to sorted.Length
      invariant sorted[..] == all
      invariant FirstEligible(all, ex) == FirstEligible(all[i..], ex)
    {
      var r := sorted[i];
      if !r.active || !r.Matches(ex) {
        continue;
      }
      return Decision(CreateOrUpdateCrm, r.team, r.user);
    }
    return REVIEW;
  }

  function RecordKindOf(enquiryType: string): RecordKind {
    if enquiryType == TYPE_SUPPORT then Ticket else Lead
  }
}
