/** The string operations of Go's standard library that the pipeline leans on, and
    the one theorem the grounding check needs from them: normalising a contiguous
    piece of a text yields a contiguous piece of the normalised text. */
module Text {

  // ---------- character classes ----------

  /** unicode.IsSpace: what TrimSpace and Fields call a space. */
  predicate IsSpace(c: char) {
    var n := c as int;
    || 0x09 <= n <= 0x0D || n == 0x20 || n == 0x85 || n == 0xA0 || n == 0x1680
    || 0x2000 <= n <= 0x200A || n == 0x2028 || n == 0x2029 || n == 0x202F || n == 0x205F || n == 0x3000
  }

  /** The regular expression class `\s`, which is ASCII only and leaves out vertical tab. */
  predicate IsRegexpSpace(c: char) {
    var n := c as int;
    n == 0x09 || n == 0x0A || n == 0x0C || n == 0x0D || n == 0x20
  }

  /** What every theorem here assumes of rune-by-rune lower-casing: doing it twice
      changes nothing more, and it neither makes nor removes spaces or NUL. */
  ghost predicate IsCaseMap(f: char -> char) {
    forall c: char ::
      && f(f(c)) == f(c)
      && IsSpace(f(c)) == IsSpace(c)
      && (IsSpace(c) ==> f(c) == c)
      && (f(c) == '\0' <==> c == '\0')
  }

  type CaseMap = f: char -> char | IsCaseMap(f) witness (c: char) => c

  function Lower(f: CaseMap, s: string): (r: string)
    ensures |r| == |s|
  {
    seq(|s|, i requires 0 <= i < |s| => f(s[i]))
  }

  // ---------- trimming ----------

  /** How many leading characters satisfy p. */
  function Lead(s: string, p: char -> bool): (n: nat)
    ensures n <= |s|
    ensures forall i | 0 <= i < n :: p(s[i])
    ensures n < |s| ==> !p(s[n])
  {
    if s == [] || !p(s[0]) then 0 else 1 + Lead(s[1..], p)
  }

  /** How many trailing characters satisfy p. */
  function Trail(s: string, p: char -> bool): (n: nat)
    ensures n <= |s|
    ensures forall i | |s| - n <= i < |s| :: p(s[i])
    ensures n < |s| ==> !p(s[|s| - n - 1])
  {
    if s == [] || !p(s[|s| - 1]) then 0 else 1 + Trail(s[..|s| - 1], p)
  }

  function TrimRight(s: string, p: char -> bool): string {
    s[..|s| - Trail(s, p)]
  }

  function Trim(s: string, p: char -> bool): string {
    TrimRight(s[Lead(s, p)..], p)
  }

  function TrimSpace(s: string): string {
    Trim(s, IsSpace)
  }

  predicate Blank(s: string) {
    TrimSpace(s) == ""
  }

  // ---------- substrings ----------

  /** `piece` is the part of `whole` that starts at position `at`. */
  predicate OccursAt(whole: string, piece: string, at: int) {
    0 <= at && at + |piece| <= |whole| && whole[at..at + |piece|] == piece
  }

  /** strings.Contains */
  predicate Contains(whole: string, piece: string) {
    exists at | 0 <= at <= |whole| :: OccursAt(whole, piece, at)
  }

  lemma ContainsConcat(a: string, piece: string, b: string)
    ensures Contains(a + piece + b, piece)
  {
    assert OccursAt(a + piece + b, piece, |a|);
  }

  lemma Surroundings(whole: string, piece: string) returns (before: string, after: string)
    requires Contains(whole, piece)
    ensures whole == before + piece + after
  {
    var at :| 0 <= at <= |whole| && OccursAt(whole, piece, at);
    before, after := whole[..at], whole[at + |piece|..];
  }

  lemma ContainsTransitive(a: string, b: string, c: string)
    requires Contains(a, b) && Contains(b, c)
    ensures Contains(a, c)
  {
    var x, y := Surroundings(a, b);
    var u, v := Surroundings(b, c);
    assert a == (x + u) + c + (v + y);
    ContainsConcat(x + u, c, v + y);
  }

  /** Trimming keeps one contiguous piece of the text. */
  lemma TrimIsPiece(s: string, p: char -> bool)
    ensures Contains(s, Trim(s, p))
  {
    var t := Trim(s, p);
    assert s[Lead(s, p)..][..|t|] == s[Lead(s, p)..Lead(s, p) + |t|];
    assert OccursAt(s, t, Lead(s, p));
  }

  /** Trimmed text begins and ends with a character that would not be trimmed. */
  lemma TrimEdges(s: string, p: char -> bool)
    ensures var t := Trim(s, p); t != "" ==> !p(t[0]) && !p(t[|t| - 1])
  {}

  lemma LeadIs(s: string, p: char -> bool, n: nat)
    requires n <= |s| && (forall i | 0 <= i < n :: p(s[i])) && (n < |s| ==> !p(s[n]))
    ensures Lead(s, p) == n
  {}

  lemma TrailIs(s: string, p: char -> bool, n: nat)
    requires n <= |s| && (forall i | |s| - n <= i < |s| :: p(s[i])) && (n < |s| ==> !p(s[|s| - n - 1]))
    ensures Trail(s, p) == n
  {}

  /** Trimming the whole never eats into a piece whose two ends are not trimmable. */
  lemma TrimKeepsPiece(s: string, piece: string, p: char -> bool)
    requires Contains(s, piece)
    requires piece != "" && !p(piece[0]) && !p(piece[|piece| - 1])
    ensures Contains(Trim(s, p), piece)
  {
    var at :| 0 <= at <= |s| && OccursAt(s, piece, at);
    var lead := Lead(s, p);
    assert lead <= at by { assert s[at] == piece[0]; }
    TrimRightKeepsPiece(s[lead..], piece, p, at - lead);
  }

  lemma TrimRightKeepsPiece(s: string, piece: string, p: char -> bool, at: nat)
    requires OccursAt(s, piece, at)
    requires piece != "" && !p(piece[|piece| - 1])
    ensures Contains(TrimRight(s, p), piece)
  {
    var n := |s| - Trail(s, p);
    assert at + |piece| <= n by { assert s[at + |piece| - 1] == piece[|piece| - 1]; }
    assert s[..n][at..at + |piece|] == s[at..at + |piece|];
    assert OccursAt(TrimRight(s, p), piece, at);
  }

  // ---------- the normal form used for comparison ----------

  /** Replace every maximal run of regexp spaces by one blank; `inRun` says whether
      the text before s ended in such a run. */
  function Squeeze(s: string, inRun: bool): string {
    if s == "" then ""
    else if IsRegexpSpace(s[0]) then (if inRun then "" else " ") + Squeeze(s[1..], true)
    else [s[0]] + Squeeze(s[1..], false)
  }

  /** Trim, lower-case, then collapse regexp spaces. */
  function Norm(f: CaseMap, s: string): string {
    Squeeze(Lower(f, TrimSpace(s)), false)
  }

  /** Whether s, read after text that ended in a run or not, ends in a run. */
  predicate EndsInRun(s: string, inRun: bool) {
    if s == "" then inRun else IsRegexpSpace(s[|s| - 1])
  }

  lemma {:induction false} SqueezeConcat(a: string, b: string, inRun: bool)
    ensures Squeeze(a + b, inRun) == Squeeze(a, inRun) + Squeeze(b, EndsInRun(a, inRun))
  {
    if a == "" {
      assert a + b == b;
    } else {
      var space := IsRegexpSpace(a[0]);
      var head := if !space then [a[0]] else if inRun then "" else " ";
      assert (a + b)[1..] == a[1..] + b;
      SqueezeConcat(a[1..], b, space);
      assert EndsInRun(a[1..], space) == EndsInRun(a, inRun);
      var rest := Squeeze(b, EndsInRun(a, inRun));
      assert Squeeze(a + b, inRun) == head + Squeeze(a[1..] + b, space);
      assert Squeeze(a, inRun) == head + Squeeze(a[1..], space);
      assert head + (Squeeze(a[1..], space) + rest) == (head + Squeeze(a[1..], space)) + rest;
    }
  }

  /** Squeezing commutes with cutting out a piece that does not start or end inside a run. */
  lemma SqueezeKeepsPiece(s: string, piece: string)
    requires Contains(s, piece)
    requires piece != "" && !IsRegexpSpace(piece[0])
    ensures Contains(Squeeze(s, false), Squeeze(piece, false))
  {
    var before, after := Surroundings(s, piece);
    SqueezeOfThree(before, piece, after);
  }

  lemma SqueezeOfThree(a: string, piece: string, b: string)
    requires piece != "" && !IsRegexpSpace(piece[0])
    ensures Contains(Squeeze(a + piece + b, false), Squeeze(piece, false))
  {
    var r := EndsInRun(a, false);
    var r' := EndsInRun(piece, r);
    assert EndsInRun(a + piece, false) == r';
    assert Squeeze(piece, r) == Squeeze(piece, false);
    hide Squeeze, Contains, EndsInRun;
    SqueezeConcat(a + piece, b, false);
    SqueezeConcat(a, piece, false);
    ContainsConcat(Squeeze(a, false), Squeeze(piece, false), Squeeze(b, r'));
  }

  lemma LowerKeepsPiece(f: CaseMap, s: string, piece: string)
    requires Contains(s, piece)
    ensures Contains(Lower(f, s), Lower(f, piece))
  {
    var at :| 0 <= at <= |s| && OccursAt(s, piece, at);
    forall i | 0 <= i < |piece| ensures Lower(f, s)[at + i] == Lower(f, piece)[i] {
      assert s[at..at + |piece|][i] == s[at + i];
    }
    assert Lower(f, s)[at..at + |piece|] == Lower(f, piece);
    assert OccursAt(Lower(f, s), Lower(f, piece), at);
  }

  /** The theorem behind the grounding check: a quote copied from anywhere in the
      source is found again after both sides are normalised. */
  lemma NormKeepsPieces(f: CaseMap, source: string, quote: string)
    requires Contains(source, quote)
    ensures Contains(Norm(f, source), Norm(f, quote))
  {
    var q := TrimSpace(quote);
    if q == "" {
      assert OccursAt(Norm(f, source), "", 0);
    } else {
      TrimIsPiece(quote, IsSpace);
      ContainsTransitive(source, quote, q);
      TrimEdges(quote, IsSpace);
      TrimKeepsPiece(source, q, IsSpace);
      LowerKeepsPiece(f, TrimSpace(source), q);
      assert !IsSpace(Lower(f, q)[0]);
      SqueezeKeepsPiece(Lower(f, TrimSpace(source)), Lower(f, q));
    }
  }

  lemma TrimRightOfLower(f: CaseMap, s: string)
    ensures TrimRight(Lower(f, s), IsSpace) == Lower(f, TrimRight(s, IsSpace))
  {
    TrailIs(Lower(f, s), IsSpace, Trail(s, IsSpace));
  }

  lemma TrimSpaceOfLower(f: CaseMap, s: string)
    ensures TrimSpace(Lower(f, s)) == Lower(f, TrimSpace(s))
  {
    var n := Lead(s, IsSpace);
    LeadIs(Lower(f, s), IsSpace, n);
    assert Lower(f, s)[n..] == Lower(f, s[n..]);
    TrimRightOfLower(f, s[n..]);
  }

  /** Lower-casing a value first, as is done for e-mail addresses, does not change its normal form. */
  lemma NormOfLower(f: CaseMap, s: string)
    ensures Norm(f, Lower(f, s)) == Norm(f, s)
  {
    TrimSpaceOfLower(f, s);
    var t := TrimSpace(s);
    assert Lower(f, Lower(f, t)) == Lower(f, t);
  }
}
