/** internal/ingest/normalize.go: the canonical text of an enquiry and the content
    key that makes redeliveries and double-submits collide. */
module Ingest {
  import opened Base
  import opened Text

  // ---------- the stages of clean ----------

  /** Runes that are removed: soft hyphen, zero-width and bidi marks, invisible operators, BOM. */
  predicate IsInvisible(c: char) {
    var n := c as int;
    || n == 0x00AD || 0x200B <= n <= 0x200F || 0x202A <= n <= 0x202E
    || 0x2060 <= n <= 0x2064 || 0x2066 <= n <= 0x2069 || n == 0xFEFF
  }

  function DropInvisible(s: string): string {
    if s == "" then "" else (if IsInvisible(s[0]) then "" else [s[0]]) + DropInvisible(s[1..])
  }

  /** Replace every "\r\n" by "\n". */
  function UnixNewlines(s: string): string {
    if s == "" then ""
    else if |s| >= 2 && s[0] == '\r' && s[1] == '\n' then "\n" + UnixNewlines(s[2..])
    else [s[0]] + UnixNewlines(s[1..])
  }

  predicate IsBlankOrTab(c: char) {
    c == ' ' || c == '\t'
  }

  /** Replace every maximal run of blanks and tabs by one blank. */
  function SqueezeBlanks(s: string, inRun: bool): string {
    if s == "" then ""
    else if IsBlankOrTab(s[0]) then (if inRun then "" else " ") + SqueezeBlanks(s[1..], true)
    else [s[0]] + SqueezeBlanks(s[1..], false)
  }

  /** Cut every run of three or more newlines down to two; n newlines came just before s. */
  function CapNewlines(s: string, n: nat): string {
    if s == "" then ""
    else if s[0] == '\n' then (if n >= 2 then "" else "\n") + CapNewlines(s[1..], n + 1)
    else [s[0]] + CapNewlines(s[1..], 0)
  }

  /** strings.Split(s, "\n") */
  function Lines(s: string): (ls: seq<string>)
    ensures ls != []
  {
    if s == "" then [""]
    else if s[0] == '\n' then [""] + Lines(s[1..])
    else var rest := Lines(s[1..]); [[s[0]] + rest[0]] + rest[1..]
  }

  predicate IsBlank(c: char) {
    c == ' '
  }

  /** Every line without its trailing blanks, each followed by a newline. */
  function TrimmedLines(ls: seq<string>): string {
    if ls == [] then "" else TrimRight(ls[0], IsBlank) + "\n" + TrimmedLines(ls[1..])
  }

  function Clean(s: string): string {
    TrimSpace(TrimmedLines(Lines(CapNewlines(SqueezeBlanks(DropInvisible(UnixNewlines(s)), false), 0))))
  }

  lemma {:induction false} TrimmedLinesSnoc(ls: seq<string>, line: string)
    ensures TrimmedLines(ls + [line]) == TrimmedLines(ls) + TrimRight(line, IsBlank) + "\n"
  {
    if ls == [] {
      assert TrimmedLines([line]) == TrimRight(line, IsBlank) + "\n";
    } else {
      assert (ls + [line])[1..] == ls[1..] + [line];
      TrimmedLinesSnoc(ls[1..], line);
    }
  }

  /** clean as written: the stages reassign one string, then a loop builds the result line by line. */
  method CleanText(text: string) returns (r: string)
    ensures r == Clean(text)
  {
    var s := UnixNewlines(text);
    s := DropInvisible(s);
    s := SqueezeBlanks(s, false);
    s := CapNewlines(s, 0);
    var b := "";
    var lines := Lines(s);
    for i := 0 to |lines|
      invariant b == TrimmedLines(lines[..i])
    {
      TrimmedLinesSnoc(lines[..i], lines[i]);
      assert lines[..i + 1] == lines[..i] + [lines[i]];
      b := b + TrimRight(lines[i], IsBlank) + "\n";
    }
    assert lines[..|lines|] == lines;
    return TrimSpace(b);
  }

  // ---------- collapse ----------

  function Flush(word: string): seq<string> {
    if word == "" then [] else [word]
  }

  /** strings.Fields(s), where `word` is the word read so far. */
  function Words(s: string, word: string): seq<string> {
    if s == "" then Flush(word)
    else if IsSpace(s[0]) then Flush(word) + Words(s[1..], "")
    else Words(s[1..], word + [s[0]])
  }

  function Fields(s: string): seq<string> {
    Words(s, "")
  }

  function Join(words: seq<string>, sep: string): string {
    if words == [] then "" else if |words| == 1 then words[0] else words[0] + sep + Join(words[1..], sep)
  }

  function Collapse(s: string): string {
    Join(Fields(s), " ")
  }

  /** The text that is hashed. SHA-256 itself is represented by this pre-image. */
  function DedupeKey(f: CaseMap, sender: string, text: string): string {
    Lower(f, sender) + "\0" + Lower(f, Collapse(text))
  }

  // ---------- no stage of clean changes the words ----------

  lemma WordsCons(c: char, s: string, word: string)
    ensures Words([c] + s, word) == if IsSpace(c) then Flush(word) + Words(s, "") else Words(s, word + [c])
  {
    assert ([c] + s)[1..] == s;
  }

  /** A space splits the words before it from the words after it. */
  lemma {:induction false} WordsAcrossSpace(a: string, space: char, b: string, word: string)
    requires IsSpace(space)
    ensures Words(a + [space] + b, word) == Words(a, word) + Fields(b)
  {
    if a == "" {
      assert a + [space] + b == [space] + b;
      assert ([space] + b)[1..] == b;
    } else {
      assert (a + [space] + b)[1..] == a[1..] + [space] + b;
      WordsAcrossSpace(a[1..], space, b, if IsSpace(a[0]) then "" else word + [a[0]]);
    }
  }

  ghost predicate AllSpace(s: string) {
    forall i | 0 <= i < |s| :: IsSpace(s[i])
  }

  lemma {:induction false} LeadingSpace(space: string, s: string)
    requires AllSpace(space)
    ensures Fields(space + s) == Fields(s)
  {
    if space == "" {
      assert space + s == s;
    } else {
      WordsAcrossSpace("", space[0], space[1..] + s, "");
      assert space + s == "" + [space[0]] + (space[1..] + s);
      LeadingSpace(space[1..], s);
    }
  }

  lemma WordsAcrossGap(a: string, gap: string, b: string, word: string)
    requires gap != "" && AllSpace(gap)
    ensures Words(a + gap + b, word) == Words(a, word) + Fields(b)
  {
    assert a + gap + b == a + [gap[0]] + (gap[1..] + b);
    WordsAcrossSpace(a, gap[0], gap[1..] + b, word);
    LeadingSpace(gap[1..], b);
  }

  lemma FieldsWithoutTail(s: string, n: nat)
    requires n <= |s| && AllSpace(s[|s| - n..])
    ensures Fields(s[..|s| - n]) == Fields(s)
  {
    if n > 0 {
      WordsAcrossGap(s[..|s| - n], s[|s| - n..], "", "");
      assert s == s[..|s| - n] + s[|s| - n..] + "";
    } else {
      assert s[..|s| - n] == s;
    }
  }

  /** A text is its trimmed self with space around it, or nothing but space. */
  lemma Padding(s: string) returns (lead: string, trail: string)
    ensures AllSpace(lead) && AllSpace(trail) && s == lead + TrimSpace(s) + trail
  {
    var n := Lead(s, IsSpace);
    var rest := s[n..];
    var k := |rest| - Trail(rest, IsSpace);
    lead, trail := s[..n], rest[k..];
    assert rest == rest[..k] + rest[k..];
  }

  lemma FieldsOfTrim(s: string)
    ensures Fields(TrimSpace(s)) == Fields(s)
  {
    var lead, trail := Padding(s);
    hide TrimSpace, Fields;
    var m := TrimSpace(s);
    assert s == lead + (m + trail);
    LeadingSpace(lead, m + trail);
    assert (m + trail)[|m|..] == trail && (m + trail)[..|m|] == m;
    FieldsWithoutTail(m + trail, |trail|);
  }

  lemma DropInvisibleCons(c: char, s: string)
    ensures DropInvisible([c] + s) == if IsInvisible(c) then DropInvisible(s) else [c] + DropInvisible(s)
  {
    assert ([c] + s)[1..] == s;
  }

  lemma WordsOfCarriageReturn(s: string, word: string)
    ensures Words(['\r'] + (['\n'] + s), word) == Words(['\n'] + s, word)
  {
    hide Words;
    WordsCons('\r', ['\n'] + s, word);
    WordsCons('\n', s, "");
    WordsCons('\n', s, word);
    assert Flush("") + Words(s, "") == Words(s, "");
  }

  /** The word being read after character c. */
  function WordAfter(c: char, word: string): string {
    if IsSpace(c) then "" else word + [c]
  }

  lemma WordsOfSameRest(c: char, x: string, y: string, word: string)
    requires Words(x, WordAfter(c, word)) == Words(y, WordAfter(c, word))
    ensures Words([c] + x, word) == Words([c] + y, word)
  {
    hide Words;
    WordsCons(c, x, word);
    WordsCons(c, y, word);
  }

  lemma {:induction false} WordsOfUnixNewlines(s: string, word: string)
    ensures Words(DropInvisible(UnixNewlines(s)), word) == Words(DropInvisible(s), word)
  {
    hide Words, DropInvisible, IsSpace, IsInvisible;
    if s == "" {
    } else if |s| >= 2 && s[0] == '\r' && s[1] == '\n' {
      var rest, rest' := DropInvisible(s[2..]), DropInvisible(UnixNewlines(s[2..]));
      assert s == ['\r'] + (['\n'] + s[2..]);
      VisibleNewlines(s[2..]);
      VisibleNewlines(UnixNewlines(s[2..]));
      WordsOfUnixNewlines(s[2..], WordAfter('\n', word));
      WordsOfSameRest('\n', rest, rest', word);
      WordsOfCarriageReturn(rest, word);
    } else {
      assert s == [s[0]] + s[1..];
      DropInvisibleCons(s[0], s[1..]);
      DropInvisibleCons(s[0], UnixNewlines(s[1..]));
      WordsOfUnixNewlines(s[1..], if IsInvisible(s[0]) then word else WordAfter(s[0], word));
      if !IsInvisible(s[0]) {
        WordsOfSameRest(s[0], DropInvisible(s[1..]), DropInvisible(UnixNewlines(s[1..])), word);
      }
    }
  }

  lemma VisibleNewlines(s: string)
    ensures DropInvisible(['\n'] + s) == ['\n'] + DropInvisible(s)
    ensures DropInvisible(['\r'] + (['\n'] + s)) == ['\r'] + (['\n'] + DropInvisible(s))
  {
    DropInvisibleCons('\n', s);
    DropInvisibleCons('\r', ['\n'] + s);
  }

  lemma {:induction false} WordsOfSqueezeBlanks(s: string, inRun: bool, word: string)
    requires inRun ==> word == ""
    ensures Words(SqueezeBlanks(s, inRun), word) == Words(s, word)
  {
    if s != "" {
      var blank := IsBlankOrTab(s[0]);
      WordsOfSqueezeBlanks(s[1..], blank, if IsSpace(s[0]) then "" else word + [s[0]]);
      var rest := SqueezeBlanks(s[1..], blank);
      WordsCons(' ', rest, word);
      WordsCons(s[0], rest, word);
      if blank && inRun {
        assert SqueezeBlanks(s, inRun) == rest;
      } else if blank {
        assert SqueezeBlanks(s, inRun) == [' '] + rest;
      }
    }
  }

  lemma {:induction false} WordsOfCapNewlines(s: string, n: nat, word: string)
    requires n > 0 ==> word == ""
    ensures Words(CapNewlines(s, n), word) == Words(s, word)
  {
    if s != "" {
      var n' := if s[0] == '\n' then n + 1 else 0;
      WordsOfCapNewlines(s[1..], n', if IsSpace(s[0]) then "" else word + [s[0]]);
      var rest := CapNewlines(s[1..], n');
      WordsCons(s[0], rest, word);
      if s[0] == '\n' && n >= 2 {
        assert CapNewlines(s, n) == rest;
      } else {
        assert CapNewlines(s, n) == [s[0]] + rest;
      }
    }
  }

  /** Splitting at newlines and gluing the lines back with a newline after each one
      appends a single newline. */
  function Unlines(ls: seq<string>): string {
    if ls == [] then "" else ls[0] + "\n" + Unlines(ls[1..])
  }

  lemma UnlinesCons(line: string, ls: seq<string>)
    ensures Unlines([line] + ls) == line + "\n" + Unlines(ls)
  {
    assert ([line] + ls)[1..] == ls;
  }

  /** A longer first line. */
  lemma UnlinesLonger(c: char, ls: seq<string>)
    requires ls != []
    ensures Unlines([[c] + ls[0]] + ls[1..]) == [c] + Unlines(ls)
  {
    hide Unlines;
    assert ls == [ls[0]] + ls[1..];
    UnlinesCons(ls[0], ls[1..]);
    UnlinesCons([c] + ls[0], ls[1..]);
    var tail := Unlines(ls[1..]);
    assert ([c] + ls[0]) + "\n" + tail == [c] + (ls[0] + "\n" + tail);
  }

  lemma {:induction false} UnlinesOfLines(s: string)
    ensures Unlines(Lines(s)) == s + "\n"
  {
    if s == "" {
      assert Unlines([""]) == "\n";
    } else {
      hide Unlines;
      UnlinesOfLines(s[1..]);
      assert s == [s[0]] + s[1..];
      if s[0] == '\n' {
        UnlinesCons("", Lines(s[1..]));
      } else {
        UnlinesLonger(s[0], Lines(s[1..]));
      }
    }
  }

  lemma {:induction false} FieldsOfTrimmedLines(ls: seq<string>)
    ensures Fields(TrimmedLines(ls)) == Fields(Unlines(ls))
  {
    if ls != [] {
      FieldsOfTrimmedLines(ls[1..]);
      WordsAcrossSpace(TrimRight(ls[0], IsBlank), '\n', TrimmedLines(ls[1..]), "");
      WordsAcrossSpace(ls[0], '\n', Unlines(ls[1..]), "");
      FieldsWithoutTail(ls[0], Trail(ls[0], IsBlank));
    }
  }

  /** Cleaning keeps exactly the words of the text with the invisible runes taken out. */
  lemma FieldsOfClean(s: string)
    ensures Fields(Clean(s)) == Fields(DropInvisible(s))
  {
    var a := DropInvisible(UnixNewlines(s));
    WordsOfUnixNewlines(s, "");
    var b := SqueezeBlanks(a, false);
    WordsOfSqueezeBlanks(a, false, "");
    var c := CapNewlines(b, 0);
    WordsOfCapNewlines(b, 0, "");
    FieldsOfTrimmedLines(Lines(c));
    UnlinesOfLines(c);
    assert c + "\n" == c + "\n" + "";
    WordsAcrossSpace(c, '\n', "", "");
    FieldsOfTrim(TrimmedLines(Lines(c)));
  }

  /** The canonicalisation theorem: what is hashed depends only on the visible words. */
  lemma CollapseOfClean(s: string)
    ensures Collapse(Clean(s)) == Collapse(DropInvisible(s))
  {
    FieldsOfClean(s);
  }

  lemma {:induction false} DropInvisibleConcat(a: string, b: string)
    ensures DropInvisible(a + b) == DropInvisible(a) + DropInvisible(b)
  {
    if a == "" {
      assert a + b == b;
    } else {
      assert (a + b)[1..] == a[1..] + b;
      DropInvisibleConcat(a[1..], b);
    }
  }

  lemma {:induction false} SpaceIsVisible(s: string)
    requires AllSpace(s)
    ensures DropInvisible(s) == s
  {
    if s != "" {
      SpaceIsVisible(s[1..]);
      assert s == [s[0]] + s[1..];
    }
  }

  /** Zero-width padding anywhere leaves the dedupe key alone. */
  lemma KeyIgnoresPadding(f: CaseMap, sender: string, a: string, pad: string, b: string)
    requires DropInvisible(pad) == ""
    ensures DedupeKey(f, sender, Clean(a + pad + b)) == DedupeKey(f, sender, Clean(a + b))
  {
    DropInvisibleConcat(a + pad, b);
    DropInvisibleConcat(a, pad);
    DropInvisibleConcat(a, b);
    assert DropInvisible(a) + DropInvisible(pad) == DropInvisible(a);
    CollapseOfClean(a + pad + b);
    CollapseOfClean(a + b);
  }

  /** Reflowing the space between two words, whatever kinds of space are used, leaves it alone. */
  lemma KeyIgnoresReflow(f: CaseMap, sender: string, a: string, gap: string, gap': string, b: string)
    requires gap != "" && AllSpace(gap) && gap' != "" && AllSpace(gap')
    ensures DedupeKey(f, sender, Clean(a + gap + b)) == DedupeKey(f, sender, Clean(a + gap' + b))
  {
    VisibleFieldsAcrossGap(a, gap, b);
    VisibleFieldsAcrossGap(a, gap', b);
    FieldsOfClean(a + gap + b);
    FieldsOfClean(a + gap' + b);
  }

  lemma VisibleFieldsAcrossGap(a: string, gap: string, b: string)
    requires gap != "" && AllSpace(gap)
    ensures Fields(DropInvisible(a + gap + b)) == Fields(DropInvisible(a)) + Fields(DropInvisible(b))
  {
    DropInvisibleConcat(a + gap, b);
    DropInvisibleConcat(a, gap);
    SpaceIsVisible(gap);
    WordsAcrossGap(DropInvisible(a), gap, DropInvisible(b), "");
  }

  /** The key separates different senders and different words, up to case: for senders
      without NUL it is injective in the lower-cased sender and lower-cased text. */
  lemma KeyIsInjective(f: CaseMap, sender: string, text: string, sender': string, text': string)
    requires '\0' !in sender && '\0' !in sender'
    ensures DedupeKey(f, sender, text) == DedupeKey(f, sender', text')
       <==> Lower(f, sender) == Lower(f, sender') && Lower(f, Collapse(text)) == Lower(f, Collapse(text'))
  {
    var k, k' := DedupeKey(f, sender, text), DedupeKey(f, sender', text');
    if k == k' {
      assert k[|sender|] == '\0' && k'[|sender'|] == '\0';
      assert forall i | 0 <= i < |sender| :: k[i] == f(sender[i]) != '\0' by {
        assert forall i | 0 <= i < |sender| :: sender[i] in sender;
      }
      assert forall i | 0 <= i < |sender'| :: k'[i] == f(sender'[i]) != '\0' by {
        assert forall i | 0 <= i < |sender'| :: sender'[i] in sender';
      }
      assert |sender| == |sender'|;
      assert k[..|sender|] == Lower(f, sender) && k'[..|sender|] == Lower(f, sender');
      assert k[|sender| + 1..] == Lower(f, Collapse(text)) && k'[|sender| + 1..] == Lower(f, Collapse(text'));
    }
  }

  // ---------- nor does it change what the grounding check sees ----------

  lemma SqueezeCons(c: char, s: string, inRun: bool)
    ensures Squeeze([c] + s, inRun) ==
      if IsRegexpSpace(c) then (if inRun then "" else " ") + Squeeze(s, true) else [c] + Squeeze(s, false)
  {
    assert ([c] + s)[1..] == s;
  }

  /** To Squeeze, "\r\n" is as good as "\n". */
  lemma SqueezeOfLineEnd(rest: string, rest': string, inRun: bool)
    requires Squeeze(rest', true) == Squeeze(rest, true)
    ensures Squeeze(['\n'] + rest', inRun) == Squeeze(['\r'] + (['\n'] + rest), inRun)
  {
    hide Squeeze;
    SqueezeCons('\r', ['\n'] + rest, inRun);
    SqueezeCons('\n', rest, true);
    SqueezeCons('\n', rest', inRun);
  }

  /** One more rune in front of two texts that are the same to Squeeze. */
  lemma SqueezeOfVisibleRune(c: char, s: string, s': string, inRun: bool)
    requires Squeeze(DropInvisible(s'), if IsInvisible(c) then inRun else IsRegexpSpace(c)) ==
             Squeeze(DropInvisible(s), if IsInvisible(c) then inRun else IsRegexpSpace(c))
    ensures Squeeze(DropInvisible([c] + s'), inRun) == Squeeze(DropInvisible([c] + s), inRun)
  {
    hide Squeeze, DropInvisible;
    DropInvisibleCons(c, s);
    DropInvisibleCons(c, s');
    SqueezeCons(c, DropInvisible(s), inRun);
    SqueezeCons(c, DropInvisible(s'), inRun);
  }

  lemma {:induction false} SqueezeOfUnixNewlines(s: string, inRun: bool)
    ensures Squeeze(DropInvisible(UnixNewlines(s)), inRun) == Squeeze(DropInvisible(s), inRun)
  {
    hide Squeeze, DropInvisible, IsInvisible, IsRegexpSpace;
    if s == "" {
    } else if |s| >= 2 && s[0] == '\r' && s[1] == '\n' {
      assert s == ['\r'] + (['\n'] + s[2..]);
      VisibleNewlines(s[2..]);
      VisibleNewlines(UnixNewlines(s[2..]));
      SqueezeOfUnixNewlines(s[2..], true);
      SqueezeOfLineEnd(DropInvisible(s[2..]), DropInvisible(UnixNewlines(s[2..])), inRun);
    } else {
      assert s == [s[0]] + s[1..];
      SqueezeOfUnixNewlines(s[1..], if IsInvisible(s[0]) then inRun else IsRegexpSpace(s[0]));
      SqueezeOfVisibleRune(s[0], s[1..], UnixNewlines(s[1..]), inRun);
    }
  }

  lemma {:induction false} SqueezeOfSqueezeBlanks(s: string, blanks: bool, inRun: bool)
    requires blanks ==> inRun
    ensures Squeeze(SqueezeBlanks(s, blanks), inRun) == Squeeze(s, inRun)
  {
    if s != "" {
      var blank := IsBlankOrTab(s[0]);
      var rest := SqueezeBlanks(s[1..], blank);
      SqueezeOfSqueezeBlanks(s[1..], blank, IsRegexpSpace(s[0]));
      SqueezeCons(' ', rest, inRun);
      SqueezeCons(s[0], rest, inRun);
      if blank && blanks {
        assert SqueezeBlanks(s, blanks) == rest;
      } else if blank {
        assert SqueezeBlanks(s, blanks) == [' '] + rest;
      }
    }
  }

  lemma {:induction false} SqueezeOfCapNewlines(s: string, n: nat, inRun: bool)
    requires n > 0 ==> inRun
    ensures Squeeze(CapNewlines(s, n), inRun) == Squeeze(s, inRun)
  {
    if s != "" {
      var n' := if s[0] == '\n' then n + 1 else 0;
      var rest := CapNewlines(s[1..], n');
      SqueezeOfCapNewlines(s[1..], n', IsRegexpSpace(s[0]));
      SqueezeCons(s[0], rest, inRun);
      if s[0] == '\n' && n >= 2 {
        assert CapNewlines(s, n) == rest;
      } else {
        assert CapNewlines(s, n) == [s[0]] + rest;
      }
    }
  }

  lemma {:induction false} SqueezeOfRun(run: string, s: string, inRun: bool)
    requires forall i | 0 <= i < |run| :: IsRegexpSpace(run[i])
    ensures Squeeze(run + "\n" + s, inRun) == (if inRun then "" else " ") + Squeeze(s, true)
  {
    if run == "" {
      assert run + "\n" + s == ['\n'] + s;
      SqueezeCons('\n', s, inRun);
    } else {
      assert run + "\n" + s == [run[0]] + (run[1..] + "\n" + s);
      SqueezeCons(run[0], run[1..] + "\n" + s, inRun);
      SqueezeOfRun(run[1..], s, true);
    }
  }

  lemma SqueezeOfLine(line: string, run: string, x: string, y: string, inRun: bool)
    requires forall i | 0 <= i < |run| :: IsRegexpSpace(run[i])
    requires Squeeze(x, true) == Squeeze(y, true)
    ensures Squeeze(line + "\n" + x, inRun) == Squeeze(line + run + "\n" + y, inRun)
  {
    hide Squeeze;
    assert line + "\n" + x == line + ("" + "\n" + x) && line + run + "\n" + y == line + (run + "\n" + y);
    SqueezeConcat(line, "" + "\n" + x, inRun);
    SqueezeConcat(line, run + "\n" + y, inRun);
    SqueezeOfRun("", x, EndsInRun(line, inRun));
    SqueezeOfRun(run, y, EndsInRun(line, inRun));
  }

  lemma BlankTail(line: string) returns (run: string)
    ensures line == TrimRight(line, IsBlank) + run
    ensures forall i | 0 <= i < |run| :: IsRegexpSpace(run[i])
  {
    run := line[|line| - Trail(line, IsBlank)..];
  }

  lemma {:induction false} SqueezeOfTrimmedLines(ls: seq<string>, inRun: bool)
    ensures Squeeze(TrimmedLines(ls), inRun) == Squeeze(Unlines(ls), inRun)
  {
    hide Squeeze, TrimRight;
    if ls != [] {
      var run := BlankTail(ls[0]);
      SqueezeOfTrimmedLines(ls[1..], true);
      SqueezeOfLine(TrimRight(ls[0], IsBlank), run, TrimmedLines(ls[1..]), Unlines(ls[1..]), inRun);
    }
  }

  /** Trimming undoes padding. */
  lemma TrimOfPadded(lead: string, m: string, trail: string)
    requires AllSpace(lead) && AllSpace(trail)
    requires m != "" && !IsSpace(m[0]) && !IsSpace(m[|m| - 1])
    ensures TrimSpace(lead + m + trail) == m
  {
    var s := lead + m + trail;
    LeadIs(s, IsSpace, |lead|);
    assert s[|lead|..] == m + trail;
    TrailIs(m + trail, IsSpace, |trail|);
  }

  lemma TrimOfSpace(s: string)
    requires AllSpace(s)
    ensures TrimSpace(s) == ""
  {
    LeadIs(s, IsSpace, |s|);
  }

  lemma {:induction false} SqueezeKeepsSpace(s: string, inRun: bool)
    requires AllSpace(s)
    ensures AllSpace(Squeeze(s, inRun))
  {
    if s != "" {
      SqueezeKeepsSpace(s[1..], IsRegexpSpace(s[0]));
    }
  }

  lemma {:induction false} SqueezeKeepsLast(s: string, inRun: bool)
    requires s != "" && !IsSpace(s[|s| - 1])
    ensures var t := Squeeze(s, inRun); t != "" && t[|t| - 1] == s[|s| - 1]
  {
    if |s| > 1 {
      SqueezeKeepsLast(s[1..], IsRegexpSpace(s[0]));
    }
  }

  lemma SqueezeOfVisible(s: string, inRun: bool)
    requires s != "" && !IsSpace(s[0]) && !IsSpace(s[|s| - 1])
    ensures var t := Squeeze(s, false);
      Squeeze(s, inRun) == t && t != "" && !IsSpace(t[0]) && !IsSpace(t[|t| - 1])
  {
    SqueezeKeepsLast(s, false);
  }

  /** Squeezing and trimming commute. */
  lemma SqueezeOfTrimmed(s: string)
    ensures Squeeze(TrimSpace(s), false) == TrimSpace(Squeeze(s, false))
  {
    var lead, trail := Padding(s);
    TrimEdges(s, IsSpace);
    var m := TrimSpace(s);
    if m != "" {
      SqueezeOfVisible(m, EndsInRun(lead, false));
    }
    hide Squeeze, TrimSpace, EndsInRun, IsSpace;
    SqueezeConcat(lead + m, trail, false);
    SqueezeConcat(lead, m, false);
    SqueezeKeepsSpace(lead, false);
    SqueezeKeepsSpace(trail, EndsInRun(lead + m, false));
    if m == "" {
      assert lead + m == lead;
      TrimOfSpace(Squeeze(s, false));
      TrimOfSpace("");
    } else {
      TrimOfPadded(Squeeze(lead, false), Squeeze(m, false), Squeeze(trail, EndsInRun(lead + m, false)));
    }
  }

  lemma LowerConcat(f: CaseMap, a: string, b: string)
    ensures Lower(f, a + b) == Lower(f, a) + Lower(f, b)
  {}

  lemma {:induction false} SqueezeOfLower(f: CaseMap, s: string, inRun: bool)
    ensures Squeeze(Lower(f, s), inRun) == Lower(f, Squeeze(s, inRun))
  {
    if s != "" {
      var space := IsRegexpSpace(s[0]);
      var head := if !space then [s[0]] else if inRun then "" else " ";
      SqueezeOfLower(f, s[1..], space);
      LowerConcat(f, [s[0]], s[1..]);
      assert [s[0]] + s[1..] == s && Lower(f, [s[0]]) == [f(s[0])];
      SqueezeCons(f(s[0]), Lower(f, s[1..]), inRun);
      LowerConcat(f, head, Squeeze(s[1..], space));
      assert f(' ') == ' ' && Lower(f, " ") == " ";
    }
  }

  /** The normal form of a text, with the trimming last. */
  lemma NormIsTrimmedSqueeze(f: CaseMap, s: string)
    ensures Norm(f, s) == Lower(f, TrimSpace(Squeeze(s, false)))
  {
    SqueezeOfLower(f, TrimSpace(s), false);
    SqueezeOfTrimmed(s);
  }

  lemma TrimTwice(s: string)
    ensures TrimSpace(TrimSpace(s)) == TrimSpace(s)
  {
    var t := TrimSpace(s);
    TrimEdges(s, IsSpace);
    if t != "" {
      TrimOfPadded("", t, "");
      assert "" + t + "" == t;
    }
  }

  lemma TrimIgnoresNewline(s: string)
    ensures TrimSpace(s + "\n") == TrimSpace(s)
  {
    var lead, trail := Padding(s);
    var m := TrimSpace(s);
    if m == "" {
      assert s + "\n" == lead + trail + "\n";
      TrimOfSpace(s + "\n");
    } else {
      TrimEdges(s, IsSpace);
      assert s + "\n" == lead + m + (trail + "\n");
      TrimOfPadded(lead, m, trail + "\n");
    }
  }

  /** Cleaning an enquiry's text does not change its normal form, apart from the invisible
      runes: whatever can be found in the visible text before cleaning is found after it. */
  lemma NormOfClean(f: CaseMap, s: string)
    ensures Norm(f, Clean(s)) == Norm(f, DropInvisible(s))
  {
    var a := DropInvisible(UnixNewlines(s));
    var b := SqueezeBlanks(a, false);
    var c := CapNewlines(b, 0);
    var t := TrimmedLines(Lines(c));
    SqueezeOfUnixNewlines(s, false);
    SqueezeOfSqueezeBlanks(a, false, false);
    SqueezeOfCapNewlines(b, 0, false);
    SqueezeOfTrimmedLines(Lines(c), false);
    UnlinesOfLines(c);
    assert Squeeze(t, false) == Squeeze(c + "\n", false);
    TrimTwice(t);
    SqueezeOfTrimmed(TrimSpace(t));
    SqueezeOfTrimmed(t);
    SqueezeOfTrimmed(c + "\n");
    TrimIgnoresNewline(c);
    SqueezeOfTrimmed(c);
    NormIsTrimmedSqueeze(f, TrimSpace(t));
    NormIsTrimmedSqueeze(f, DropInvisible(s));
  }

  // ---------- intake ----------

  datatype Intake = Intake(sender: string, text: string, hash: string, key: string)

  function AutoKey(hash: string): string {
    "auto:" + hash
  }

  /** The tail of Normalize: reject an empty sender or text, then derive the dedupe
      hash and, when the client supplied no key, the idempotency key. */
  function Accept(f: CaseMap, sender: string, body: string, clientKey: string): Option<Intake> {
    var text := Clean(body);
    if sender == "" || text == "" then None
    else
      var hash := DedupeKey(f, sender, text);
      Some(Intake(sender, text, hash, if Blank(clientKey) then AutoKey(hash) else TrimSpace(clientKey)))
  }
}
