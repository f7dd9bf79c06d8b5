/** internal/ingest/normalize.go, the front part: from a channel's payload to the one text
    that is hashed, shown to the language model and checked against its answer. */
module Payloads {
  import opened Base
  import opened Text
  import opened Ingest
  import opened Model
  import opened Grounding

  datatype Payload =
    | EmailPayload(subject: string, from: string, body: string, key: string)
    | FormPayload(subject: string, name: string, email: string, phone: string, company: string, message: string, key: string)
    | MessagePayload(subject: string, handle: string, from: string, text: string, key: string)
    | UnsupportedPayload

  /** The two library-defined steps: parsing and lower-casing an address, and cutting quoted
      history and signatures off a mail. */
  datatype Library = Library(address: string -> string, newest: string -> string)

  function Labeled(name: string, v: string): string {
    if Blank(v) then "" else name + ": " + TrimSpace(v)
  }

  function NonEmpty(parts: seq<string>): seq<string> {
    if parts == [] then []
    else NonEmpty(parts[..|parts| - 1]) + var p := TrimSpace(parts[|parts| - 1]); if p == "" then [] else [p]
  }

  function JoinNonEmpty(sep: string, parts: seq<string>): string {
    Join(NonEmpty(parts), sep)
  }

  /** joinNonEmpty as written. */
  method JoinParts(sep: string, parts: seq<string>) returns (r: string)
    ensures r == JoinNonEmpty(sep, parts)
  {
    var out: seq<string> := [];
    for i := 0 to |parts|
      invariant out == NonEmpty(parts[..i])
    {
      assert parts[..i + 1][..i] == parts[..i];
      var p := TrimSpace(parts[i]);
      if p != "" {
        out := out + [p];
      }
    }
    assert parts[..|parts|] == parts;
    return Join(out, sep);
  }

  function FormFields(p: Payload): seq<string>
    requires p.FormPayload?
  {
    [Labeled("Name", p.name), Labeled("Email", p.email), Labeled("Phone", p.phone), Labeled("Company", p.company)]
  }

  function SenderOf(lib: Library, p: Payload): string {
    var s := match p
      case EmailPayload(_, from, _, _) => from
      case FormPayload(_, _, email, _, _, _, _) => email
      case MessagePayload(_, handle, from, _, _) => if !Blank(handle) then handle else if !Blank(from) then from else ""
      case UnsupportedPayload => "";
    if Blank(s) then "" else lib.address(TrimSpace(s))
  }

  function BodyOf(lib: Library, p: Payload): string {
    match p
    case EmailPayload(_, _, body, _) => lib.newest(body)
    case FormPayload(_, _, _, _, _, message, _) => JoinNonEmpty("\n\n", [JoinNonEmpty("\n", FormFields(p)), message])
    case MessagePayload(_, _, _, text, _) => TrimSpace(text)
    case UnsupportedPayload => ""
  }

  /** The text before it is cleaned. */
  function RawText(lib: Library, p: Payload): string {
    if p.UnsupportedPayload? then "" else JoinNonEmpty("\n\n", [Labeled("Subject", TrimSpace(p.subject)), BodyOf(lib, p)])
  }

  function Normalized(f: CaseMap, lib: Library, p: Payload): Option<Intake> {
    if p.UnsupportedPayload? then None else Accept(f, SenderOf(lib, p), RawText(lib, p), p.key)
  }

  /** What each channel contributes to the text. */
  method BodyText(lib: Library, p: Payload) returns (body: string)
    ensures body == BodyOf(lib, p)
  {
    hide JoinNonEmpty, FormFields, TrimSpace;
    match p {
      case EmailPayload(_, _, mail, _) => body := lib.newest(mail);
      case FormPayload(_, _, _, _, _, message, _) =>
        var fields := JoinParts("\n", FormFields(p));
        body := JoinParts("\n\n", [fields, message]);
      case MessagePayload(_, _, _, text, _) => body := TrimSpace(text);
      case UnsupportedPayload => body := "";
    }
  }

  /** Normalize as written. */
  method Normalize(f: CaseMap, lib: Library, p: Payload) returns (r: Option<Intake>)
    ensures r == Normalized(f, lib, p)
  {
    hide SenderOf, BodyOf, JoinNonEmpty, Labeled, TrimSpace, Clean, DedupeKey, AutoKey;
    if p.UnsupportedPayload? {
      return None;
    }
    var sender := SenderOf(lib, p);
    var body := BodyText(lib, p);
    if sender == "" {
      return None;
    }
    var raw := JoinParts("\n\n", [Labeled("Subject", TrimSpace(p.subject)), body]);
    var text := CleanText(raw);
    if text == "" {
      return None;
    }
    var hash := DedupeKey(f, sender, text);
    var key := TrimSpace(p.key);
    if key == "" {
      key := AutoKey(hash);
    }
    return Some(Intake(sender, text, hash, key));
  }

  // ---------- what was typed can be quoted ----------

  /** A piece that trimming cannot eat into. */
  predicate Solid(s: string) {
    s != "" && !IsSpace(s[0]) && !IsSpace(s[|s| - 1])
  }

  lemma {:induction false} JoinContains(words: seq<string>, sep: string, i: nat)
    requires i < |words|
    ensures Contains(Join(words, sep), words[i])
  {
    if |words| == 1 {
      ContainsConcat("", words[0], "");
      assert "" + words[0] + "" == words[0];
    } else if i == 0 {
      ContainsConcat("", words[0], sep + Join(words[1..], sep));
      assert Join(words, sep) == "" + words[0] + (sep + Join(words[1..], sep));
    } else {
      JoinContains(words[1..], sep, i - 1);
      ContainsConcat(words[0] + sep, Join(words[1..], sep), "");
      assert Join(words, sep) == words[0] + sep + Join(words[1..], sep) + "";
      ContainsTransitive(Join(words, sep), Join(words[1..], sep), words[i]);
    }
  }

  lemma {:induction false} NonEmptyKeeps(parts: seq<string>, i: nat) returns (j: nat)
    requires i < |parts| && TrimSpace(parts[i]) != ""
    ensures j < |NonEmpty(parts)| && NonEmpty(parts)[j] == TrimSpace(parts[i])
  {
    if i == |parts| - 1 {
      j := |NonEmpty(parts[..|parts| - 1])|;
    } else {
      j := NonEmptyKeeps(parts[..|parts| - 1], i);
    }
  }

  lemma JoinKeepsPiece(sep: string, parts: seq<string>, i: nat, piece: string)
    requires i < |parts| && Contains(parts[i], piece) && Solid(piece)
    ensures Contains(JoinNonEmpty(sep, parts), piece)
  {
    TrimKeepsPiece(parts[i], piece, IsSpace);
    var j := NonEmptyKeeps(parts, i);
    JoinContains(NonEmpty(parts), sep, j);
    ContainsTransitive(JoinNonEmpty(sep, parts), TrimSpace(parts[i]), piece);
  }

  lemma LabelKeepsValue(name: string, v: string)
    requires !Blank(v)
    ensures Contains(Labeled(name, v), TrimSpace(v)) && Solid(TrimSpace(v))
  {
    TrimEdges(v, IsSpace);
    ContainsConcat(name + ": ", TrimSpace(v), "");
    assert name + ": " + TrimSpace(v) + "" == Labeled(name, v);
  }

  /** The fields of a web form that a sender fills in to be reached by. */
  function TypedValue(p: Payload, field: Field): string
    requires p.FormPayload?
  {
    match field
    case NameField => p.name
    case EmailField => p.email
    case PhoneField => p.phone
    case CompanyField => p.company
    case _ => ""
  }

  lemma EmptyIsBlank()
    ensures Blank("")
  {
    assert TrimSpace("") == "";
  }

  lemma TypedValueIsInRawText(lib: Library, p: Payload, field: Field)
    requires p.FormPayload? && !Blank(TypedValue(p, field))
    ensures Contains(RawText(lib, p), TrimSpace(TypedValue(p, field)))
  {
    hide TrimSpace, JoinNonEmpty, Contains;
    var fields, v := FormFields(p), TrimSpace(TypedValue(p, field));
    EmptyIsBlank();
    var i, name := if field == NameField then 0 else if field == EmailField then 1 else if field == PhoneField then 2 else 3,
                   if field == NameField then "Name" else if field == EmailField then "Email" else if field == PhoneField then "Phone" else "Company";
    LabelKeepsValue(name, TypedValue(p, field));
    assert fields[i] == Labeled(name, TypedValue(p, field));
    JoinKeepsPiece("\n", fields, i, v);
    JoinKeepsPiece("\n\n", [JoinNonEmpty("\n", fields), p.message], 0, v);
    JoinKeepsPiece("\n\n", [Labeled("Subject", TrimSpace(p.subject)), BodyOf(lib, p)], 1, v);
  }

  lemma DropInvisibleKeepsPiece(s: string, piece: string)
    requires Contains(s, piece)
    ensures Contains(DropInvisible(s), DropInvisible(piece))
  {
    var before, after := Surroundings(s, piece);
    DropInvisibleConcat(before + piece, after);
    DropInvisibleConcat(before, piece);
    ContainsConcat(DropInvisible(before), DropInvisible(piece), DropInvisible(after));
  }

  /** Grounding looks only at the normal form of the text. */
  lemma SameNormSameExtraction(f: CaseMap, answer: Option<Extraction>, a: string, b: string)
    requires Norm(f, a) == Norm(f, b)
    ensures CallExtract(f, answer, a) == CallExtract(f, answer, b)
  {
    hide Norm, Contains, Blank;
  }

  /** True quotes of the message as it arrived are never rejected: cleaning the text before
      the model sees it costs no value the model copied from the visible part of the message. */
  lemma VisibleValuesSurvive(f: CaseMap, raw: string, answer: Extraction)
    requires Valid(answer)
    ensures var r, seen, c := CallExtract(f, Some(answer), Clean(raw)), DropInvisible(raw), answer.contact;
      && r.Some?
      && (CopiedFrom(seen, c.name) ==> Trusted(r.value).name == CleanField(c.name))
      && (CopiedFrom(seen, c.phone) ==> Trusted(r.value).phone == CleanField(c.phone))
      && (CopiedFrom(seen, c.company) ==> Trusted(r.value).company == CleanField(c.company))
      && (CopiedFrom(seen, c.email) ==> Trusted(r.value).email == CleanEmail(f, c.email))
  {
    NormOfClean(f, raw);
    SameNormSameExtraction(f, Some(answer), Clean(raw), DropInvisible(raw));
    CopiedValuesSurvive(f, DropInvisible(raw), answer);
  }

  function Claimed(c: ContactInfo, field: Field): Option<string> {
    match field
    case NameField => c.name
    case EmailField => c.email
    case PhoneField => c.phone
    case CompanyField => c.company
    case _ => None
  }

  /** What a sender typed into a form's contact field reaches the CRM when the model reports
      it as it was typed, up to invisible runes and edge punctuation. */
  lemma TypedValuesSurvive(f: CaseMap, lib: Library, p: Payload, t: Intake, answer: Extraction, field: Field)
    requires p.FormPayload? && Normalized(f, lib, p) == Some(t) && Valid(answer) && !Blank(TypedValue(p, field))
    requires Claimed(answer.contact, field) == Some(DropInvisible(TrimSpace(TypedValue(p, field))))
    ensures var r := CallExtract(f, Some(answer), t.text);
      && r.Some?
      && Claimed(Trusted(r.value), field) ==
           if field == EmailField then CleanEmail(f, answer.contact.email) else CleanField(Claimed(answer.contact, field))
  {
    var raw := RawText(lib, p);
    TypedValueIsInRawText(lib, p, field);
    DropInvisibleKeepsPiece(raw, TrimSpace(TypedValue(p, field)));
    assert t.text == Clean(raw);
    hide RawText, Clean, CallExtract, Trusted, CleanEmail, CleanField, DropInvisible, TrimSpace, TypedValue;
    VisibleValuesSurvive(f, raw, answer);
  }
}
