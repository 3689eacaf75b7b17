/** The text[] literal that the Ruby client's send_batch builds, against PostgreSQL's array input
    grammar (PostgreSQL manual, section 8.15.6, Array Input and Output Syntax). */
module ArrayLiterals {

  // ----- the printer -----

  /** String#gsub of one character. */
  function Gsub(s: string, c: char, sub: string): string {
    if s == "" then "" else (if s[0] == c then sub else [s[0]]) + Gsub(s[1..], c, sub)
  }

  /** The two substitution passes, and the quotes around them. */
  function Quoted(s: string): string {
    "\"" + Gsub(Gsub(s, '\\', "\\\\"), '\"', "\\\"") + "\""
  }

  function Joined(strings: seq<string>): string {
    if strings == [] then ""
    else if |strings| == 1 then Quoted(strings[0])
    else Quoted(strings[0]) + "," + Joined(strings[1..])
  }

  function PgTextArray(strings: seq<string>): string {
    "{" + Joined(strings) + "}"
  }

  // ----- the grammar -----

  datatype Element = Null | Text(value: string)

  datatype Parsed = Malformed | Array(elements: seq<Element>)

  datatype Token = BadToken | Token(value: string, rest: string)

  /** One character of an element without quotes; an escaped one is never special. */
  datatype Mark = Mark(c: char, escaped: bool)

  datatype Bare = BadBare | Bare(marks: seq<Mark>, rest: string)

  predicate IsSpace(c: char) {
    c in {' ', '\t', '\n', '\r', '\U{000B}', '\U{000C}'}
  }

  function SkipSpace(s: string): (r: string)
    ensures |r| <= |s|
  {
    if s != "" && IsSpace(s[0]) then SkipSpace(s[1..]) else s
  }

  /** The rest of an element after its opening quote. */
  function ReadQuoted(s: string): (t: Token)
    ensures t.Token? ==> |t.rest| < |s|
  {
    if s == "" then BadToken
    else if s[0] == '\"' then Token("", s[1..])
    else if s[0] == '\\' && |s| == 1 then BadToken
    else
      var n := if s[0] == '\\' then 2 else 1;
      match ReadQuoted(s[n..])
      case BadToken => BadToken
      case Token(value, rest) => Token([s[n - 1]] + value, rest)
  }

  /** An element without quotes, up to its delimiter. */
  function ReadBare(s: string): (t: Bare)
    ensures t.Bare? ==> |t.rest| + |t.marks| <= |s|
  {
    if s == "" || s[0] == '\"' || s[0] == '{' then BadBare
    else if s[0] == ',' || s[0] == '}' then Bare([], s)
    else if s[0] == '\\' && |s| == 1 then BadBare
    else
      var n := if s[0] == '\\' then 2 else 1;
      match ReadBare(s[n..])
      case BadBare => BadBare
      case Bare(marks, rest) => Bare([Mark(s[n - 1], n == 2)] + marks, rest)
  }

  function Stripped(marks: seq<Mark>): (r: seq<Mark>)
    ensures |r| <= |marks|
  {
    if marks != [] && !marks[|marks| - 1].escaped && IsSpace(marks[|marks| - 1].c) then Stripped(marks[..|marks| - 1])
    else marks
  }

  /** The word NULL in any case, without an escape. */
  predicate IsNull(marks: seq<Mark>) {
    && |marks| == 4 && (forall m <- marks :: !m.escaped)
    && marks[0].c in "Nn" && marks[1].c in "Uu" && marks[2].c in "Ll" && marks[3].c in "Ll"
  }

  function BareElement(marks: seq<Mark>): Element {
    if IsNull(marks) then Null else Text(seq(|marks|, i requires 0 <= i < |marks| => marks[i].c))
  }

  /** At an element, up to the end of the input. */
  function ParseElements(s: string): Parsed
    decreases |s|
  {
    var t := SkipSpace(s);
    if t == "" then Malformed
    else if t[0] == '\"' then
      match ReadQuoted(t[1..])
      case BadToken => Malformed
      case Token(value, rest) => ParseAfter(Text(value), rest)
    else
      match ReadBare(t)
      case BadBare => Malformed
      case Bare(marks, rest) =>
        if Stripped(marks) == [] then Malformed else ParseAfter(BareElement(Stripped(marks)), rest)
  }

  /** Behind an element: a comma and more elements, or the closing brace. */
  function ParseAfter(e: Element, s: string): Parsed
    decreases |s|
  {
    var t := SkipSpace(s);
    if t == "" then Malformed
    else if t[0] == '}' then (if SkipSpace(t[1..]) == "" then Array([e]) else Malformed)
    else if t[0] != ',' then Malformed
    else
      match ParseElements(t[1..])
      case Malformed => Malformed
      case Array(elements) => Array([e] + elements)
  }

  /** One-dimensional array input without a dimension decoration. */
  function Parse(s: string): Parsed {
    var t := SkipSpace(s);
    if t == "" || t[0] != '{' then Malformed
    else
      var body := SkipSpace(t[1..]);
      if body != "" && body[0] == '}' then (if SkipSpace(body[1..]) == "" then Array([]) else Malformed)
      else ParseElements(body)
  }

  // ----- printing and parsing -----

  /** Escapes quotes and backslashes in one pass. */
  function Escaped(s: string): string {
    if s == "" then "" else EscapedOne(s[0]) + Escaped(s[1..])
  }

  lemma {:induction false} GsubConcat(a: string, b: string, c: char, sub: string)
    ensures Gsub(a + b, c, sub) == Gsub(a, c, sub) + Gsub(b, c, sub)
  {
    if a == "" {
      assert a + b == b;
    } else {
      assert (a + b)[1..] == a[1..] + b;
      GsubConcat(a[1..], b, c, sub);
    }
  }

  /** The two passes together escape each character once: the second one leaves the backslashes of
      the first alone. */
  lemma {:induction false} TwoPassesAreOne(s: string)
    ensures Gsub(Gsub(s, '\\', "\\\\"), '\"', "\\\"") == Escaped(s)
  {
    if s != "" {
      var head := if s[0] == '\\' then "\\\\" else [s[0]];
      GsubConcat(head, Gsub(s[1..], '\\', "\\\\"), '\"', "\\\"");
      TwoPassesAreOne(s[1..]);
      if s[0] == '\\' {
        assert Gsub("\\\\", '\"', "\\\"") == "\\\\" by {
          assert "\\\\"[1..] == "\\";
        }
      }
    }
  }

  lemma ReadEnd(rest: string)
    ensures ReadQuoted(Escaped("") + "\"" + rest) == Token("", rest)
  {
    var text := Escaped("") + "\"" + rest;
    assert text[0] == '\"' && text[1..] == rest;
  }

  lemma EscapedFirst(s: string, rest: string)
    requires s != ""
    ensures Escaped(s) + "\"" + rest == EscapedOne(s[0]) + (Escaped(s[1..]) + "\"" + rest)
  {
    Regroup(EscapedOne(s[0]), Escaped(s[1..]), "\"", rest);
  }

  lemma {:induction false} ReadBack(s: string, rest: string)
    ensures ReadQuoted(Escaped(s) + "\"" + rest) == Token(s, rest)
    decreases |s|
  {
    if s == "" {
      ReadEnd(rest);
    } else {
      ReadBack(s[1..], rest);
      ReadOne(s[0], s[1..], Escaped(s[1..]) + "\"" + rest, rest);
      EscapedFirst(s, rest);
      assert [s[0]] + s[1..] == s;
    }
  }

  function EscapedOne(c: char): string {
    if c == '\"' || c == '\\' then ['\\', c] else [c]
  }

  lemma ReadOne(c: char, s: string, more: string, rest: string)
    requires ReadQuoted(more) == Token(s, rest)
    ensures ReadQuoted(EscapedOne(c) + more) == Token([c] + s, rest)
  {
    var text := EscapedOne(c) + more;
    assert text[|EscapedOne(c)|..] == more;
  }

  function Texts(strings: seq<string>): seq<Element> {
    seq(|strings|, i requires 0 <= i < |strings| => Text(strings[i]))
  }

  lemma FirstReadBack(s: string, rest: string)
    ensures ParseElements(Quoted(s) + rest) == ParseAfter(Text(s), rest)
  {
    var text := Quoted(s) + rest;
    TwoPassesAreOne(s);
    ReadBack(s, rest);
    assert text[1..] == Escaped(s) + "\"" + rest;
    assert SkipSpace(text) == text;
  }

  lemma LastReadBack(s: string)
    ensures ParseElements(Quoted(s) + "}") == Array([Text(s)])
  {
    FirstReadBack(s, "}");
    assert "}"[1..] == "";
  }

  lemma OneMoreReadBack(s: string, more: string, elements: seq<Element>)
    requires ParseElements(more) == Array(elements)
    ensures ParseElements(Quoted(s) + ("," + more)) == Array([Text(s)] + elements)
  {
    FirstReadBack(s, "," + more);
    assert ("," + more)[1..] == more;
  }

  lemma {:induction false} ElementsReadBack(strings: seq<string>)
    requires strings != []
    ensures ParseElements(Joined(strings) + "}") == Array(Texts(strings))
  {
    if |strings| == 1 {
      LastReadBack(strings[0]);
      assert Texts(strings) == [Text(strings[0])];
    } else {
      ElementsReadBack(strings[1..]);
      OneMoreReadBack(strings[0], Joined(strings[1..]) + "}", Texts(strings[1..]));
      Regroup(Quoted(strings[0]), ",", Joined(strings[1..]), "}");
      assert Texts(strings) == [Text(strings[0])] + Texts(strings[1..]);
    }
  }

  lemma Regroup(a: string, b: string, c: string, d: string)
    ensures (a + b + c) + d == a + (b + (c + d))
  {
  }

  /** Round trip: PostgreSQL reads the literal back as exactly the given strings, none of them NULL. */
  lemma ArrayRoundTrip(strings: seq<string>)
    ensures Parse(PgTextArray(strings)) == Array(Texts(strings))
  {
    var text := PgTextArray(strings);
    assert text[0] == '{' && SkipSpace(text) == text;
    assert text[1..] == Joined(strings) + "}";
    if strings == [] {
      assert text[1..] == "}" && "}"[1..] == "";
    } else {
      assert text[1..][0] == '\"';
      ElementsReadBack(strings);
    }
  }

  /** Different lists print differently. */
  lemma PrinterIsInjective(a: seq<string>, b: seq<string>)
    requires PgTextArray(a) == PgTextArray(b)
    ensures a == b
  {
    ArrayRoundTrip(a);
    ArrayRoundTrip(b);
    assert |Texts(a)| == |Texts(b)|;
    forall i | 0 <= i < |a| ensures a[i] == b[i] {
      assert Texts(a)[i] == Texts(b)[i];
    }
  }
}
