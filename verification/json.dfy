/**
 * The serialised form of a checklist in storage: the text `JSON.stringify`
 * produces for an array of `{name, tasks}` objects, and a parser for that text.
 *
 * Stringify emits exactly what `JSON.stringify` emits for this shape: no
 * whitespace, keys in the order `name`, `tasks`, and string escapes as in the
 * QuoteJSONString operation of ECMA-262 (section 25.5.2.3 of the 2023 edition):
 * `\"`, `\\`, `\b`, `\t`, `\n`, `\f`, `\r`, and `\u00xx` with lower-case hex
 * digits for the remaining control characters.
 *
 * Parse accepts that grammar (and, inside strings, every escape JSON allows
 * except surrogate pairs) and returns None for anything else. The property the
 * store relies on is the round trip `Parse(Stringify(c)) == Some(c)`.
 */
module Json {
  import opened Checklists

  /** A value read from the front of a text, and the text that follows it. */
  datatype Parsed<T> = Parsed(value: T, rest: string)

  // ---------------------------------------------------------------------------
  // Strings
  // ---------------------------------------------------------------------------

  function HexDigit(n: nat): (c: char)
    requires n < 16
  {
    if n < 10 then ('0' as int + n) as char else ('a' as int + n - 10) as char
  }

  /** The value of one hexadecimal digit of either case. */
  function HexValue(c: char): (r: Option<nat>)
    ensures r.Some? ==> r.value < 16
  {
    if '0' <= c <= '9' then Some(c as int - '0' as int)
    else if 'a' <= c <= 'f' then Some(c as int - 'a' as int + 10)
    else if 'A' <= c <= 'F' then Some(c as int - 'A' as int + 10)
    else None
  }

  lemma HexRoundTrip(n: nat)
    requires n < 16
    ensures HexValue(HexDigit(n)) == Some(n)
  {
  }

  /** How one character of a string value is written between the quotes. */
  function EscapeChar(c: char): string {
    if c == '"' then "\\\""
    else if c == '\\' then "\\\\"
    else if c == '\U{8}' then "\\b"
    else if c == '\t' then "\\t"
    else if c == '\n' then "\\n"
    else if c == '\U{C}' then "\\f"
    else if c == '\r' then "\\r"
    else if c < ' ' then "\\u00" + [HexDigit(c as int / 16), HexDigit(c as int % 16)]
    else [c]
  }

  function Escaped(s: string): string {
    if s == [] then [] else EscapeChar(s[0]) + Escaped(s[1..])
  }

  /** A string value: the escaped characters between double quotes. */
  function Quote(s: string): string {
    "\"" + Escaped(s) + "\""
  }

  /**
   * Reads the escape sequence that follows a backslash. The character read
   * is returned with the text after the sequence.
   */
  function Unescape(s: string): (r: Option<Parsed<char>>)
    ensures r.Some? ==> |r.value.rest| < |s|
  {
    if s == [] then None
    else if s[0] == '"' || s[0] == '\\' || s[0] == '/' then Some(Parsed(s[0], s[1..]))
    else if s[0] == 'b' then Some(Parsed('\U{8}', s[1..]))
    else if s[0] == 't' then Some(Parsed('\t', s[1..]))
    else if s[0] == 'n' then Some(Parsed('\n', s[1..]))
    else if s[0] == 'f' then Some(Parsed('\U{C}', s[1..]))
    else if s[0] == 'r' then Some(Parsed('\r', s[1..]))
    else if s[0] == 'u' && |s| >= 5 then
      match (HexValue(s[1]), HexValue(s[2]), HexValue(s[3]), HexValue(s[4]))
      case (Some(a), Some(b), Some(c), Some(d)) =>
        var v := 4096 * a + 256 * b + 16 * c + d;
        if 0xD800 <= v < 0xE000 then None else Some(Parsed(v as char, s[5..]))
      case _ => None
    else None
  }

  /**
   * Reads the characters of a string value up to and including its closing
   * quote. A raw control character is not allowed inside a JSON string.
   */
  function StringBody(s: string): (r: Option<Parsed<string>>)
    ensures r.Some? ==> |r.value.rest| < |s|
    decreases |s|
  {
    if s == [] then None
    else if s[0] == '"' then Some(Parsed([], s[1..]))
    else if s[0] < ' ' then None
    else if s[0] == '\\' then
      match Unescape(s[1..])
      case None => None
      case Some(Parsed(c, rest)) =>
        match StringBody(rest)
        case None => None
        case Some(Parsed(t, rest')) => Some(Parsed([c] + t, rest'))
    else
      match StringBody(s[1..])
      case None => None
      case Some(Parsed(t, rest')) => Some(Parsed([s[0]] + t, rest'))
  }

  function ParseString(s: string): (r: Option<Parsed<string>>)
    ensures r.Some? ==> |r.value.rest| < |s|
  {
    if s != [] && s[0] == '"' then StringBody(s[1..]) else None
  }

  /** Adds one character in front of a parsed string value. */
  function Cons(c: char, r: Option<Parsed<string>>): Option<Parsed<string>> {
    match r
    case None => None
    case Some(Parsed(t, rest)) => Some(Parsed([c] + t, rest))
  }

  /** A two-character escape `\L` reads back as the character it stands for. */
  lemma ShortEscapeStep(c: char, letter: char, tail: string)
    requires Unescape([letter] + tail) == Some(Parsed(c, tail))
    ensures StringBody(['\\', letter] + tail) == Cons(c, StringBody(tail))
  {
    var s := ['\\', letter] + tail;
    assert s[0] == '\\' && s[1..] == [letter] + tail;
  }

  /** A six-character escape `\u00xx` reads back as the control character. */
  lemma UnicodeEscapeStep(c: char, tail: string)
    requires c < ' ' && c != '\U{8}' && c != '\t' && c != '\n' && c != '\U{C}' && c != '\r'
    ensures StringBody(EscapeChar(c) + tail) == Cons(c, StringBody(tail))
  {
    var hi, lo := c as int / 16, c as int % 16;
    HexRoundTrip(hi);
    HexRoundTrip(lo);
    var e := EscapeChar(c);
    assert e == ['\\', 'u', '0', '0', HexDigit(hi), HexDigit(lo)];
    var s := e + tail;
    assert s[0] == '\\';
    var u := s[1..];
    assert u[0] == 'u' && u[1] == '0' && u[2] == '0' && u[3] == HexDigit(hi) && u[4] == HexDigit(lo);
    assert u[5..] == tail;
    assert 4096 * 0 + 256 * 0 + 16 * hi + lo == c as int;
  }

  /** Reading back the way one character was written yields that character. */
  lemma UnescapeStep(c: char, tail: string)
    ensures StringBody(EscapeChar(c) + tail) == Cons(c, StringBody(tail))
  {
    if c == '"' {
      ShortEscapeStep(c, '"', tail);
    } else if c == '\\' {
      ShortEscapeStep(c, '\\', tail);
    } else if c == '\U{8}' {
      ShortEscapeStep(c, 'b', tail);
    } else if c == '\t' {
      ShortEscapeStep(c, 't', tail);
    } else if c == '\n' {
      ShortEscapeStep(c, 'n', tail);
    } else if c == '\U{C}' {
      ShortEscapeStep(c, 'f', tail);
    } else if c == '\r' {
      ShortEscapeStep(c, 'r', tail);
    } else if c < ' ' {
      UnicodeEscapeStep(c, tail);
    } else {
      var s := [c] + tail;
      assert s[0] == c && s[1..] == tail;
    }
  }

  lemma {:induction false} StringBodyRoundTrip(x: string, rest: string)
    ensures StringBody(Escaped(x) + "\"" + rest) == Some(Parsed(x, rest))
  {
    if x == [] {
      assert Escaped(x) + "\"" + rest == ['"'] + rest;
    } else {
      assert Escaped(x) + "\"" + rest == EscapeChar(x[0]) + (Escaped(x[1..]) + "\"" + rest);
      UnescapeStep(x[0], Escaped(x[1..]) + "\"" + rest);
      StringBodyRoundTrip(x[1..], rest);
      assert [x[0]] + x[1..] == x;
    }
  }

  /** A quoted string value reads back as itself, whatever follows it. */
  lemma QuoteRoundTrip(x: string, rest: string)
    ensures ParseString(Quote(x) + rest) == Some(Parsed(x, rest))
  {
    var s := Quote(x) + rest;
    assert s[0] == '"';
    assert s[1..] == Escaped(x) + "\"" + rest;
    StringBodyRoundTrip(x, rest);
  }

  // ---------------------------------------------------------------------------
  // Punctuation
  // ---------------------------------------------------------------------------

  /** Consumes the literal text `lit` from the front of `s`. */
  function Expect(lit: string, s: string): (r: Option<string>)
    ensures r.Some? ==> |r.value| == |s| - |lit|
  {
    if |lit| <= |s| && s[..|lit|] == lit then Some(s[|lit|..]) else None
  }

  lemma AppendAssoc(a: string, b: string, rest: string)
    ensures (a + b) + rest == a + (b + rest)
  {
  }

  lemma AppendAssoc3(a: string, b: string, c: string, rest: string)
    ensures (a + (b + c)) + rest == a + (b + (c + rest))
  {
    assert (a + (b + c)) + rest == a + ((b + c) + rest);
  }

  lemma DropFirst(x: char, tail: string)
    ensures ([x] + tail)[0] == x && ([x] + tail)[1..] == tail
  {
  }

  lemma ConsSplit<T>(c: seq<T>)
    requires c != []
    ensures [c[0]] + c[1..] == c
  {
  }

  lemma ExpectRoundTrip(lit: string, rest: string)
    ensures Expect(lit, lit + rest) == Some(rest)
  {
    assert (lit + rest)[..|lit|] == lit;
    assert (lit + rest)[|lit|..] == rest;
  }

  // ---------------------------------------------------------------------------
  // Arrays of strings: the tasks of a section
  // ---------------------------------------------------------------------------

  /** `JSON.stringify(tasks)`. */
  function StringArray(ts: seq<string>): string {
    "[" + (if ts == [] then "]" else StringItems(ts))
  }

  /** The elements of a non-empty array of strings and its closing bracket. */
  function StringItems(ts: seq<string>): string
    requires ts != []
    decreases |ts|
  {
    Quote(ts[0]) + (if |ts| == 1 then "]" else "," + StringItems(ts[1..]))
  }

  function ParseStringArray(s: string): (r: Option<Parsed<seq<string>>>)
    ensures r.Some? ==> |r.value.rest| < |s|
  {
    match Expect("[", s)
    case None => None
    case Some(s1) =>
      if s1 != [] && s1[0] == ']' then Some(Parsed([], s1[1..])) else ParseStringItems(s1)
  }

  function ParseStringItems(s: string): (r: Option<Parsed<seq<string>>>)
    ensures r.Some? ==> |r.value.rest| < |s|
    decreases |s|
  {
    match ParseString(s)
    case None => None
    case Some(Parsed(t, s1)) =>
      if s1 != [] && s1[0] == ']' then Some(Parsed([t], s1[1..]))
      else if s1 != [] && s1[0] == ',' then
        match ParseStringItems(s1[1..])
        case None => None
        case Some(Parsed(ts, s2)) => Some(Parsed([t] + ts, s2))
      else None
  }

  lemma LastStringStep(ts: seq<string>, rest: string)
    requires |ts| == 1
    ensures ParseStringItems(Quote(ts[0]) + ("]" + rest)) == Some(Parsed(ts, rest))
  {
    QuoteRoundTrip(ts[0], "]" + rest);
    assert [ts[0]] == ts;
  }

  lemma NextStringStep(ts: seq<string>, tail: string, rest: string)
    requires |ts| >= 2
    requires ParseStringItems(tail) == Some(Parsed(ts[1..], rest))
    ensures ParseStringItems(Quote(ts[0]) + ("," + tail)) == Some(Parsed(ts, rest))
  {
    QuoteRoundTrip(ts[0], "," + tail);
    assert ("," + tail)[1..] == tail;
    assert [ts[0]] + ts[1..] == ts;
  }

  lemma {:induction false} StringItemsRoundTrip(ts: seq<string>, rest: string)
    requires ts != []
    ensures ParseStringItems(StringItems(ts) + rest) == Some(Parsed(ts, rest))
    decreases |ts|
  {
    if |ts| == 1 {
      AppendAssoc(Quote(ts[0]), "]", rest);
      LastStringStep(ts, rest);
    } else {
      AppendAssoc3(Quote(ts[0]), ",", StringItems(ts[1..]), rest);
      StringItemsRoundTrip(ts[1..], rest);
      NextStringStep(ts, StringItems(ts[1..]) + rest, rest);
    }
  }

  lemma StringArrayRoundTrip(ts: seq<string>, rest: string)
    ensures ParseStringArray(StringArray(ts) + rest) == Some(Parsed(ts, rest))
  {
    var s := StringArray(ts) + rest;
    if ts == [] {
      assert s == "[" + ("]" + rest);
    } else {
      assert s == "[" + (StringItems(ts) + rest);
      StringItemsRoundTrip(ts, rest);
      var q := Quote(ts[0]);
      assert (StringItems(ts) + rest)[0] == q[0] == '"';
    }
  }

  // ---------------------------------------------------------------------------
  // Sections and checklists
  // ---------------------------------------------------------------------------

  const NameKey: string := "{\"name\":"
  const TasksKey: string := ",\"tasks\":"

  /** `JSON.stringify({name, tasks})`: keys in insertion order. */
  function SectionObject(sec: Section): string {
    NameKey + Quote(sec.name) + TasksKey + StringArray(sec.tasks) + "}"
  }

  function ParseSection(s: string): (r: Option<Parsed<Section>>)
    ensures r.Some? ==> |r.value.rest| < |s|
  {
    match Expect(NameKey, s)
    case None => None
    case Some(s1) =>
      match ParseString(s1)
      case None => None
      case Some(Parsed(name, s2)) =>
        match Expect(TasksKey, s2)
        case None => None
        case Some(s3) =>
          match ParseStringArray(s3)
          case None => None
          case Some(Parsed(tasks, s4)) =>
            match Expect("}", s4)
            case None => None
            case Some(s5) => Some(Parsed(Section(name, tasks), s5))
  }

  lemma SectionRoundTrip(sec: Section, rest: string)
    ensures ParseSection(SectionObject(sec) + rest) == Some(Parsed(sec, rest))
  {
    var r4 := "}" + rest;
    var r3 := StringArray(sec.tasks) + r4;
    var r2 := TasksKey + r3;
    var r1 := Quote(sec.name) + r2;
    SectionObjectSplit(sec, rest);
    ExpectRoundTrip(NameKey, r1);
    QuoteRoundTrip(sec.name, r2);
    ExpectRoundTrip(TasksKey, r3);
    StringArrayRoundTrip(sec.tasks, r4);
    ExpectRoundTrip("}", rest);
  }

  lemma SectionObjectSplit(sec: Section, rest: string)
    ensures SectionObject(sec) + rest
         == NameKey + (Quote(sec.name) + (TasksKey + (StringArray(sec.tasks) + ("}" + rest))))
  {
    var a, b, c, d := NameKey, Quote(sec.name), TasksKey, StringArray(sec.tasks);
    AppendAssoc(a + b + c + d, "}", rest);
    AppendAssoc(a + b + c, d, "}" + rest);
    AppendAssoc(a + b, c, d + ("}" + rest));
    AppendAssoc(a, b, c + (d + ("}" + rest)));
  }

  /** `JSON.stringify(sections)`. */
  function Stringify(c: Checklist): (s: string)
    ensures s != [] && s[0] == '['
  {
    "[" + (if c == [] then "]" else SectionItems(c))
  }

  function SectionItems(c: Checklist): string
    requires c != []
    decreases |c|
  {
    SectionObject(c[0]) + (if |c| == 1 then "]" else "," + SectionItems(c[1..]))
  }

  function ParseSectionItems(s: string): (r: Option<Parsed<Checklist>>)
    ensures r.Some? ==> |r.value.rest| < |s|
    decreases |s|
  {
    match ParseSection(s)
    case None => None
    case Some(Parsed(sec, s1)) =>
      if s1 != [] && s1[0] == ']' then Some(Parsed([sec], s1[1..]))
      else if s1 != [] && s1[0] == ',' then
        match ParseSectionItems(s1[1..])
        case None => None
        case Some(Parsed(c, s2)) => Some(Parsed([sec] + c, s2))
      else None
  }

  /** `JSON.parse(s)`, when the text is a whole checklist and nothing else. */
  function Parse(s: string): Option<Checklist> {
    match Expect("[", s)
    case None => None
    case Some(s1) =>
      if s1 == "]" then Some([])
      else
        match ParseSectionItems(s1)
        case Some(Parsed(c, rest)) => if rest == [] then Some(c) else None
        case None => None
  }

  /** One step of ParseSectionItems, over a text known only by what ParseSection reads from it. */
  lemma SectionThenClose(s: string, c: Checklist, rest: string)
    requires |c| == 1
    requires ParseSection(s) == Some(Parsed(c[0], "]" + rest))
    ensures ParseSectionItems(s) == Some(Parsed(c, rest))
  {
    DropFirst(']', rest);
    assert [c[0]] == c;
  }

  lemma SectionThenComma(s: string, c: Checklist, tail: string, rest: string)
    requires |c| >= 2
    requires ParseSection(s) == Some(Parsed(c[0], "," + tail))
    requires ParseSectionItems(tail) == Some(Parsed(c[1..], rest))
    ensures ParseSectionItems(s) == Some(Parsed(c, rest))
  {
    DropFirst(',', tail);
    ConsSplit(c);
  }

  lemma LastSectionStep(c: Checklist, rest: string)
    requires |c| == 1
    ensures ParseSectionItems(SectionObject(c[0]) + ("]" + rest)) == Some(Parsed(c, rest))
  {
    SectionRoundTrip(c[0], "]" + rest);
    SectionThenClose(SectionObject(c[0]) + ("]" + rest), c, rest);
  }

  lemma NextSectionStep(c: Checklist, tail: string, rest: string)
    requires |c| >= 2
    requires ParseSectionItems(tail) == Some(Parsed(c[1..], rest))
    ensures ParseSectionItems(SectionObject(c[0]) + ("," + tail)) == Some(Parsed(c, rest))
  {
    SectionRoundTrip(c[0], "," + tail);
    SectionThenComma(SectionObject(c[0]) + ("," + tail), c, tail, rest);
  }

  lemma {:induction false} SectionItemsRoundTrip(c: Checklist, rest: string)
    requires c != []
    ensures ParseSectionItems(SectionItems(c) + rest) == Some(Parsed(c, rest))
    decreases |c|
  {
    if |c| == 1 {
      AppendAssoc(SectionObject(c[0]), "]", rest);
      LastSectionStep(c, rest);
    } else {
      AppendAssoc3(SectionObject(c[0]), ",", SectionItems(c[1..]), rest);
      SectionItemsRoundTrip(c[1..], rest);
      NextSectionStep(c, SectionItems(c[1..]) + rest, rest);
    }
  }

  /** The section list of a non-empty checklist starts with the brace of its first section. */
  lemma SectionItemsStart(c: Checklist)
    requires c != []
    ensures SectionItems(c) != [] && SectionItems(c)[0] == '{'
  {
    assert SectionObject(c[0])[0] == NameKey[0];
  }

  /** Parse over a text known only by what ParseSectionItems reads from it. */
  lemma ParseOfItems(t: string, c: Checklist)
    requires t != "]"
    requires ParseSectionItems(t) == Some(Parsed(c, []))
    ensures Parse("[" + t) == Some(c)
  {
    ExpectRoundTrip("[", t);
  }

  /** What is written for a checklist reads back as that same checklist. */
  lemma RoundTrip(c: Checklist)
    ensures Parse(Stringify(c)) == Some(c)
  {
    if c == [] {
      ExpectRoundTrip("[", "]");
    } else {
      var t, e: string := SectionItems(c), [];
      assert t + e == t;
      SectionItemsRoundTrip(c, e);
      SectionItemsStart(c);
      ParseOfItems(t, c);
    }
  }
}
