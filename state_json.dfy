/**
 * The JSON text of the OAuth state: the document json.dumps writes for the
 * dictionary {"userId": ..., "environment": ...} (default separators, every
 * character outside printable ASCII escaped), and a reader for JSON objects
 * whose member values are strings, the shape json.loads must find for the
 * callback to accept the state.
 */
module StateJson {
  import opened Wrappers

  predicate IsWhitespace(c: char) {
    c == ' ' || c == '\t' || c == '\n' || c == '\r'
  }

  predicate IsPrintable(s: string) {
    forall c :: c in s ==> ' ' <= c <= '~'
  }

  lemma PrintableConcat(a: string, b: string)
    requires IsPrintable(a) && IsPrintable(b)
    ensures IsPrintable(a + b)
  {
  }

  function HexDigit(d: int): (c: char)
    requires 0 <= d < 16
    ensures '0' <= c <= '9' || 'a' <= c <= 'f'
  {
    if d < 10 then (('0' as int) + d) as char else (('a' as int) + (d - 10)) as char
  }

  /** The value of a hexadecimal digit, in either case. */
  function DigitValue(c: char): (v: Option<int>)
    ensures v.Some? ==> 0 <= v.value < 16
  {
    if '0' <= c <= '9' then Some(c as int - '0' as int)
    else if 'a' <= c <= 'f' then Some(c as int - 'a' as int + 10)
    else if 'A' <= c <= 'F' then Some(c as int - 'A' as int + 10)
    else None
  }

  /** Four lower-case hexadecimal digits, as in a \uXXXX escape. */
  function Hex4(n: int): (h: string)
    requires 0 <= n < 0x10000
    ensures |h| == 4 && forall i :: 0 <= i < 4 ==> '0' <= h[i] <= 'f'
  {
    [HexDigit(n / 16 / 16 / 16), HexDigit(n / 16 / 16 % 16), HexDigit(n / 16 % 16), HexDigit(n % 16)]
  }

  /** The value of four hexadecimal digits; None if any of them is not one. */
  function HexValue(h: string): (v: Option<int>)
    requires |h| == 4
    ensures v.Some? ==> 0 <= v.value < 0x10000
  {
    var d0, d1, d2, d3 := DigitValue(h[0]), DigitValue(h[1]), DigitValue(h[2]), DigitValue(h[3]);
    if d0.Some? && d1.Some? && d2.Some? && d3.Some? then
      Some(d0.value * 4096 + d1.value * 256 + d2.value * 16 + d3.value)
    else None
  }

  lemma DigitRoundTrip(d: int)
    requires 0 <= d < 16
    ensures DigitValue(HexDigit(d)) == Some(d)
  {
  }

  /** The four hexadecimal digits of n, weighted, add up to n. */
  lemma HexDigits(n: int)
    requires 0 <= n < 0x10000
    ensures n / 16 / 16 / 16 * 4096 + n / 16 / 16 % 16 * 256 + n / 16 % 16 * 16 + n % 16 == n
  {
    var q1 := n / 16;
    var q2 := q1 / 16;
    assert n == q1 * 16 + n % 16;
    assert q1 == q2 * 16 + q1 % 16;
    assert q2 == q2 / 16 * 16 + q2 % 16;
  }

  lemma HexRoundTrip(n: int)
    requires 0 <= n < 0x10000
    ensures HexValue(Hex4(n)) == Some(n)
  {
    var h := Hex4(n);
    DigitRoundTrip(n / 16 / 16 / 16);
    DigitRoundTrip(n / 16 / 16 % 16);
    DigitRoundTrip(n / 16 % 16);
    DigitRoundTrip(n % 16);
    assert DigitValue(h[0]) == Some(n / 16 / 16 / 16) && DigitValue(h[1]) == Some(n / 16 / 16 % 16);
    assert DigitValue(h[2]) == Some(n / 16 % 16) && DigitValue(h[3]) == Some(n % 16);
    HexDigits(n);
  }

  /**
   * How json.dumps writes one character of a string: quote and backslash
   * escaped, the usual short escapes for backspace, form feed, newline,
   * carriage return and tab, printable ASCII as itself, and every other
   * character as \uXXXX (a surrogate pair above U+FFFF).
   */
  function Escape(c: char): (e: string)
    ensures |e| > 0
  {
    if c == '"' then "\\\""
    else if c == '\\' then "\\\\"
    else if c == '\n' then "\\n"
    else if c == '\r' then "\\r"
    else if c == '\t' then "\\t"
    else if c as int == 8 then "\\b"
    else if c as int == 12 then "\\f"
    else if ' ' <= c <= '~' then [c]
    else if c as int < 0x10000 then "\\u" + Hex4(c as int)
    else
      var v := c as int - 0x10000;
      "\\u" + Hex4(0xD800 + v / 0x400) + "\\u" + Hex4(0xDC00 + v % 0x400)
  }

  function EscapeAll(s: string): string
  {
    if s == [] then [] else Escape(s[0]) + EscapeAll(s[1..])
  }

  /** A JSON string literal. */
  function Quote(s: string): string
  {
    "\"" + EscapeAll(s) + "\""
  }

  const UserIdKey: string := "userId"
  const EnvironmentKey: string := "environment"

  /** One "key": "value" member of an object. */
  function Member(key: string, value: string): string {
    Quote(key) + ": " + Quote(value)
  }

  /** json.dumps of a dictionary with two string entries, in insertion order, with the default separators. */
  function DumpsPair(k1: string, v1: string, k2: string, v2: string): string {
    "{" + Member(k1, v1) + ", " + Member(k2, v2) + "}"
  }

  /** A \\uXXXX escape is printable ASCII. */
  lemma HexEscapePrintable(n: int)
    requires 0 <= n < 0x10000
    ensures IsPrintable("\\u" + Hex4(n))
  {
    var e := "\\u" + Hex4(n);
    assert forall i :: 0 <= i < |e| ==> ' ' <= e[i] <= '~';
  }

  lemma EscapePrintable(c: char)
    ensures IsPrintable(Escape(c))
  {
    if c as int >= 0x10000 {
      var v := c as int - 0x10000;
      var hi, lo := 0xD800 + v / 0x400, 0xDC00 + v % 0x400;
      SurrogateEscape(c);
      HexEscapePrintable(hi);
      HexEscapePrintable(lo);
      Assoc("\\u" + Hex4(hi), "\\u", Hex4(lo));
      PrintableConcat("\\u" + Hex4(hi), "\\u" + Hex4(lo));
    } else if !(' ' <= c <= '~') && c != '\n' && c != '\r' && c != '\t' && c as int != 8 && c as int != 12 {
      HexEscapePrintable(c as int);
    }
  }

  /** Every character json.dumps writes into a string literal is printable ASCII. */
  lemma {:induction false} EscapeAllPrintable(s: string)
    ensures IsPrintable(EscapeAll(s))
    decreases |s|
  {
    if s != [] {
      EscapePrintable(s[0]);
      EscapeAllPrintable(s[1..]);
      PrintableConcat(Escape(s[0]), EscapeAll(s[1..]));
    }
  }

  lemma MemberPrintable(key: string, value: string)
    ensures IsPrintable(Member(key, value))
  {
    EscapeAllPrintable(key);
    EscapeAllPrintable(value);
    PrintableConcat("\"", EscapeAll(key));
    PrintableConcat("\"" + EscapeAll(key), "\"");
    PrintableConcat("\"", EscapeAll(value));
    PrintableConcat("\"" + EscapeAll(value), "\"");
    PrintableConcat(Quote(key), ": ");
    PrintableConcat(Quote(key) + ": ", Quote(value));
  }

  /** The document json.dumps writes for two string entries is printable ASCII. */
  lemma PairPrintable(k1: string, v1: string, k2: string, v2: string)
    ensures IsPrintable(DumpsPair(k1, v1, k2, v2))
  {
    MemberPrintable(k1, v1);
    MemberPrintable(k2, v2);
    PrintableConcat("{", Member(k1, v1));
    PrintableConcat("{" + Member(k1, v1), ", ");
    PrintableConcat("{" + Member(k1, v1) + ", ", Member(k2, v2));
    PrintableConcat("{" + Member(k1, v1) + ", " + Member(k2, v2), "}");
  }

  /** json.dumps({"userId": userId, "environment": environment}). */
  function DumpsState(userId: string, environment: string): string {
    DumpsPair(UserIdKey, userId, EnvironmentKey, environment)
  }

  function SkipWs(s: string): (r: string)
    ensures |r| <= |s|
  {
    if s != [] && IsWhitespace(s[0]) then SkipWs(s[1..]) else s
  }

  /** The characters a backslash escape stands for, and what follows it; s starts after the backslash. */
  function Unescape(s: string): (r: Option<(string, string)>)
    ensures r.Some? ==> |r.value.1| < |s|
  {
    if s == [] then None
    else if s[0] == '"' || s[0] == '\\' || s[0] == '/' then Some(([s[0]], s[1..]))
    else if s[0] == 'b' then Some(([8 as char], s[1..]))
    else if s[0] == 'f' then Some(([12 as char], s[1..]))
    else if s[0] == 'n' then Some((['\n'], s[1..]))
    else if s[0] == 'r' then Some((['\r'], s[1..]))
    else if s[0] == 't' then Some((['\t'], s[1..]))
    else if s[0] == 'u' && |s| >= 5 then
      match HexValue(s[1..5])
      case None => None
      case Some(u) =>
        if u < 0xD800 || 0xE000 <= u then Some(([u as char], s[5..]))
        else if u < 0xDC00 && |s| >= 11 && s[5] == '\\' && s[6] == 'u' then
          match HexValue(s[7..11])
          case None => None
          case Some(l) =>
            if 0xDC00 <= l < 0xE000 then Some(([(0x10000 + (u - 0xD800) * 0x400 + (l - 0xDC00)) as char], s[11..]))
            else None
        else None
    else None
  }

  /** The string literal at the start of s (s starts after the opening quote), and what follows its closing quote. */
  function ParseString(s: string): (r: Option<(string, string)>)
    ensures r.Some? ==> |r.value.1| < |s|
    decreases |s|
  {
    if s == [] then None
    else if s[0] == '"' then Some(([], s[1..]))
    else if s[0] == '\\' then
      match Unescape(s[1..])
      case None => None
      case Some((cs, rest)) =>
        match ParseString(rest)
        case None => None
        case Some((v, after)) => Some((cs + v, after))
    else if (s[0] as int) < 0x20 then None
    else
      match ParseString(s[1..])
      case None => None
      case Some((v, after)) => Some(([s[0]] + v, after))
  }

  /**
   * The members of an object, from the first member's opening quote up to
   * and including the closing brace: "key": "value" pairs separated by
   * commas; a repeated key keeps its last value.
   */
  function ParseMembers(s: string, acc: map<string, string>): Option<(map<string, string>, string)>
    decreases |s|
  {
    if s == [] || s[0] != '"' then None
    else
      match ParseString(s[1..])
      case None => None
      case Some((key, r1)) =>
        var r2 := SkipWs(r1);
        if r2 == [] || r2[0] != ':' then None
        else
          var r3 := SkipWs(r2[1..]);
          if r3 == [] || r3[0] != '"' then None
          else
            match ParseString(r3[1..])
            case None => None
            case Some((value, r4)) =>
              var r5 := SkipWs(r4);
              var obj := acc[key := value];
              if r5 != [] && r5[0] == '}' then Some((obj, r5[1..]))
              else if r5 != [] && r5[0] == ',' then ParseMembers(SkipWs(r5[1..]), obj)
              else None
  }

  /** A whole JSON document that is an object with string values, with optional whitespace around it. */
  function ParseObject(text: string): Option<map<string, string>> {
    var s := SkipWs(text);
    if s == [] || s[0] != '{' then None
    else
      var t := SkipWs(s[1..]);
      var members: Option<(map<string, string>, string)> :=
        if t != [] && t[0] == '}' then Some((map[], t[1..])) else ParseMembers(t, map[]);
      match members
      case None => None
      case Some((obj, rest)) => if SkipWs(rest) == [] then Some(obj) else None
  }

  // ---------------------------------------------------------------------
  // Reading back what json.dumps wrote.

  function PrependTo(c: char, r: Option<(string, string)>): Option<(string, string)> {
    match r
    case None => None
    case Some((v, after)) => Some(([c] + v, after))
  }

  lemma SurrogatePair(c: char)
    requires c as int >= 0x10000
    ensures var v := c as int - 0x10000;
      && 0xD800 <= 0xD800 + v / 0x400 < 0xDC00
      && 0xDC00 <= 0xDC00 + v % 0x400 < 0xE000
      && 0x10000 + (v / 0x400) * 0x400 + v % 0x400 == c as int
  {
  }

  /** A backslash escape that Unescape reads as c: ParseString goes on after it. */
  lemma AfterEscape(e: string, c: char, tail: string)
    requires e != [] && e[0] == '\\' && Unescape(e[1..]) == Some(([c], tail))
    ensures ParseString(e) == PrependTo(c, ParseString(tail))
  {
  }

  /** A two-character escape: a backslash and the letter or character that names c. */
  lemma ShortEscapeReadsBack(c: char, tail: string)
    requires c == '"' || c == '\\' || c == '\n' || c == '\r' || c == '\t' || c as int == 8 || c as int == 12
    ensures ParseString(Escape(c) + tail) == PrependTo(c, ParseString(tail))
  {
    var x := if c == '"' then '"' else if c == '\\' then '\\' else if c == '\n' then 'n'
      else if c == '\r' then 'r' else if c == '\t' then 't' else if c as int == 8 then 'b' else 'f';
    assert Escape(c) == ['\\', x];
    var e := Escape(c) + tail;
    assert e[0] == '\\' && e[1..] == [x] + tail;
    assert Unescape([x] + tail) == Some(([c], tail)) by {
      assert ([x] + tail)[0] == x && ([x] + tail)[1..] == tail;
    }
    AfterEscape(e, c, tail);
  }

  lemma PlainReadsBack(c: char, tail: string)
    requires ' ' <= c <= '~' && c != '"' && c != '\\'
    ensures ParseString(Escape(c) + tail) == PrependTo(c, ParseString(tail))
  {
    var e := Escape(c) + tail;
    assert e[0] == c && e[1..] == tail;
  }

  lemma UnicodeReadsBack(c: char, tail: string)
    requires !(' ' <= c <= '~') && c != '\n' && c != '\r' && c != '\t' && c as int != 8 && c as int != 12
    requires c as int < 0x10000
    ensures ParseString(Escape(c) + tail) == PrependTo(c, ParseString(tail))
  {
    var h := Hex4(c as int);
    HexRoundTrip(c as int);
    var e := Escape(c) + tail;
    assert e == "\\u" + h + tail;
    var u := e[1..];
    assert u[0] == 'u' && u[1..5] == h && u[5..] == tail;
  }

  /** Unescape on a high surrogate escape followed by a low surrogate escape. */
  lemma UnescapeSurrogates(s: string, hi: int, lo: int)
    requires |s| >= 11 && s[0] == 'u' && s[5] == '\\' && s[6] == 'u'
    requires HexValue(s[1..5]) == Some(hi) && HexValue(s[7..11]) == Some(lo)
    requires 0xD800 <= hi < 0xDC00 && 0xDC00 <= lo < 0xE000
    ensures Unescape(s) == Some(([(0x10000 + (hi - 0xD800) * 0x400 + (lo - 0xDC00)) as char], s[11..]))
  {
  }

  /** The text after the backslash of a \\uXXXX\\uXXXX pair of a high and a low surrogate: the character they encode. */
  lemma PairUnescape(c: char, hi: int, lo: int, tail: string)
    requires 0xD800 <= hi < 0xDC00 && 0xDC00 <= lo < 0xE000
    requires 0x10000 + (hi - 0xD800) * 0x400 + (lo - 0xDC00) == c as int
    ensures Unescape("u" + Hex4(hi) + "\\u" + Hex4(lo) + tail) == Some(([c], tail))
  {
    var u := "u" + Hex4(hi) + "\\u" + Hex4(lo) + tail;
    assert u[0] == 'u' && u[1..5] == Hex4(hi) && u[5] == '\\' && u[6] == 'u' && u[7..11] == Hex4(lo) && u[11..] == tail;
    HexRoundTrip(hi);
    HexRoundTrip(lo);
    UnescapeSurrogates(u, hi, lo);
  }

  /** The escape json.dumps writes for a character above U+FFFF: its high and its low surrogate. */
  lemma SurrogateEscape(c: char)
    requires c as int >= 0x10000
    ensures var v := c as int - 0x10000;
      Escape(c) == "\\u" + Hex4(0xD800 + v / 0x400) + "\\u" + Hex4(0xDC00 + v % 0x400)
  {
  }

  lemma DropBackslash(h1: string, h2: string, tail: string)
    ensures ("\\u" + h1 + "\\u" + h2)[1..] + tail == "u" + h1 + "\\u" + h2 + tail
  {
  }

  /** A surrogate pair escape reads back as the one character it encodes. */
  lemma SurrogatesUnescape(c: char, tail: string)
    requires c as int >= 0x10000
    ensures Unescape(Escape(c)[1..] + tail) == Some(([c], tail))
  {
    var v := c as int - 0x10000;
    var hi, lo := 0xD800 + v / 0x400, 0xDC00 + v % 0x400;
    SurrogatePair(c);
    SurrogateEscape(c);
    DropBackslash(Hex4(hi), Hex4(lo), tail);
    PairUnescape(c, hi, lo, tail);
  }

  lemma SurrogatesReadBack(c: char, tail: string)
    requires c as int >= 0x10000
    ensures ParseString(Escape(c) + tail) == PrependTo(c, ParseString(tail))
  {
    var e := Escape(c) + tail;
    SurrogatesUnescape(c, tail);
    assert e[0] == '\\' && e[1..] == Escape(c)[1..] + tail;
  }

  /** The escape of one character reads back as that character. */
  lemma EscapeReadsBack(c: char, tail: string)
    ensures ParseString(Escape(c) + tail) == PrependTo(c, ParseString(tail))
  {
    if c == '"' || c == '\\' || c == '\n' || c == '\r' || c == '\t' || c as int == 8 || c as int == 12 {
      ShortEscapeReadsBack(c, tail);
    } else if ' ' <= c <= '~' {
      PlainReadsBack(c, tail);
    } else if c as int < 0x10000 {
      UnicodeReadsBack(c, tail);
    } else {
      SurrogatesReadBack(c, tail);
    }
  }

  /** A string literal written by json.dumps reads back as the string. */
  lemma {:induction false} QuoteReadsBack(s: string, rest: string)
    ensures ParseString(EscapeAll(s) + "\"" + rest) == Some((s, rest))
    decreases |s|
  {
    if s == [] {
      assert EscapeAll(s) + "\"" + rest == "\"" + rest;
    } else {
      var tail := EscapeAll(s[1..]) + "\"" + rest;
      assert EscapeAll(s) + "\"" + rest == Escape(s[0]) + tail;
      EscapeReadsBack(s[0], tail);
      QuoteReadsBack(s[1..], rest);
      assert [s[0]] + s[1..] == s;
    }
  }

  lemma SkipNothing(s: string)
    requires s == [] || !IsWhitespace(s[0])
    ensures SkipWs(s) == s
  {
  }

  lemma SkipSpace(s: string)
    requires s == [] || !IsWhitespace(s[0])
    ensures SkipWs(" " + s) == s
  {
    assert (" " + s)[1..] == s;
  }

  lemma Assoc(a: string, b: string, c: string)
    ensures (a + b) + c == a + (b + c)
  {
  }

  /** A quoted string followed by anything: ParseString, started after the opening quote, reads the string. */
  lemma QuoteThen(v: string, rest: string)
    ensures var t := Quote(v) + rest;
      t != [] && t[0] == '"' && ParseString(t[1..]) == Some((v, rest))
  {
    var t := Quote(v) + rest;
    assert t[1..] == EscapeAll(v) + "\"" + rest;
    QuoteReadsBack(v, rest);
  }

  /** The steps by which ParseMembers reads the key, the colon and the value of a member json.dumps wrote. */
  lemma MemberParts(key: string, value: string, tail: string)
    ensures var s := Member(key, value) + tail;
      var r1 := ": " + (Quote(value) + tail);
      var r3 := Quote(value) + tail;
      && s != [] && s[0] == '"' && ParseString(s[1..]) == Some((key, r1))
      && SkipWs(r1) == r1 && r1 != [] && r1[0] == ':'
      && SkipWs(r1[1..]) == r3 && r3 != [] && r3[0] == '"'
      && ParseString(r3[1..]) == Some((value, tail))
  {
    var r3 := Quote(value) + tail;
    var r1 := ": " + r3;
    assert Member(key, value) + tail == Quote(key) + r1 by {
      Assoc(Quote(key), ": ", Quote(value));
      Assoc(Quote(key), ": " + Quote(value), tail);
      Assoc(": ", Quote(value), tail);
    }
    QuoteThen(key, r1);
    QuoteThen(value, tail);
    SkipNothing(r1);
    assert r1[1..] == " " + r3;
    SkipSpace(r3);
  }

  /**
   * A member as json.dumps writes it is read as that entry; what follows it
   * decides whether the object ends or another member comes.
   */
  lemma MemberReadsBack(key: string, value: string, acc: map<string, string>, tail: string)
    requires tail == [] || !IsWhitespace(tail[0])
    ensures ParseMembers(Member(key, value) + tail, acc) ==
      if tail != [] && tail[0] == '}' then Some((acc[key := value], tail[1..]))
      else if tail != [] && tail[0] == ',' then ParseMembers(SkipWs(tail[1..]), acc[key := value])
      else None
  {
    var s := Member(key, value) + tail;
    MemberParts(key, value, tail);
    SkipNothing(tail);
    var obj := acc[key := value];
    if tail != [] && tail[0] == '}' {
      assert ParseMembers(s, acc) == Some((obj, tail[1..]));
    } else if tail != [] && tail[0] == ',' {
      assert ParseMembers(s, acc) == ParseMembers(SkipWs(tail[1..]), obj);
    } else {
      assert ParseMembers(s, acc) == None;
    }
  }

  /** A member followed by a comma and a space: the members that follow are read with it added. */
  lemma AnotherMember(key: string, value: string, acc: map<string, string>, rest: string)
    ensures ParseMembers(Member(key, value) + (", " + rest), acc) == ParseMembers(SkipWs(" " + rest), acc[key := value])
  {
    var tail := ", " + rest;
    assert tail != [] && tail[0] == ',' && tail[1..] == " " + rest;
    MemberReadsBack(key, value, acc, tail);
  }

  /** The members of a two-entry dictionary written by json.dumps, up to its closing brace. */
  lemma TwoMembers(k1: string, v1: string, k2: string, v2: string)
    ensures ParseMembers(Member(k1, v1) + ", " + Member(k2, v2) + "}", map[]) == Some((map[k1 := v1, k2 := v2], []))
  {
    var second := Member(k2, v2) + "}";
    assert Member(k1, v1) + ", " + Member(k2, v2) + "}" == Member(k1, v1) + (", " + second) by {
      Assoc(Member(k1, v1), ", ", Member(k2, v2));
      Assoc(Member(k1, v1), ", " + Member(k2, v2), "}");
      Assoc(", ", Member(k2, v2), "}");
    }
    AnotherMember(k1, v1, map[], second);
    MemberParts(k2, v2, "}");
    SkipSpace(second);
    assert ParseMembers(Member(k1, v1) + (", " + second), map[]) == ParseMembers(second, map[][k1 := v1]);
    MemberReadsBack(k2, v2, map[][k1 := v1], "}");
    assert "}"[1..] == [];
    assert map[][k1 := v1][k2 := v2] == map[k1 := v1, k2 := v2];
  }

  /** An object whose members read as obj and end the text. */
  lemma BracedMembers(members: string, obj: map<string, string>)
    requires members != [] && members[0] == '"'
    requires ParseMembers(members, map[]) == Some((obj, []))
    ensures ParseObject("{" + members) == Some(obj)
  {
    var text := "{" + members;
    SkipNothing(text);
    assert text[1..] == members;
    SkipNothing(members);
    SkipNothing([]);
  }

  /** A two-entry dictionary written by json.dumps reads back as the same entries. */
  lemma PairReadsBack(k1: string, v1: string, k2: string, v2: string)
    ensures ParseObject(DumpsPair(k1, v1, k2, v2)) == Some(map[k1 := v1, k2 := v2])
  {
    var members := Member(k1, v1) + ", " + Member(k2, v2) + "}";
    assert DumpsPair(k1, v1, k2, v2) == "{" + members by {
      Assoc("{", Member(k1, v1), ", ");
      Assoc("{", Member(k1, v1) + ", ", Member(k2, v2));
      Assoc("{", Member(k1, v1) + ", " + Member(k2, v2), "}");
    }
    MemberParts(k1, v1, ", " + Member(k2, v2) + "}");
    assert members == Member(k1, v1) + (", " + Member(k2, v2) + "}") by {
      Assoc(Member(k1, v1), ", ", Member(k2, v2));
      Assoc(Member(k1, v1), ", " + Member(k2, v2), "}");
    }
    TwoMembers(k1, v1, k2, v2);
    BracedMembers(members, map[k1 := v1, k2 := v2]);
  }

  /** The state document json.dumps writes reads back as the same two members. */
  lemma StateReadsBack(userId: string, environment: string)
    ensures ParseObject(DumpsState(userId, environment)) == Some(map[UserIdKey := userId, EnvironmentKey := environment])
  {
    PairReadsBack(UserIdKey, userId, EnvironmentKey, environment);
  }

  /** A key written twice is read as one entry holding the later value, as json.loads keeps the last duplicate. */
  lemma LaterKeyWins(k: string, v1: string, v2: string)
    ensures ParseObject(DumpsPair(k, v1, k, v2)) == Some(map[k := v2])
  {
    PairReadsBack(k, v1, k, v2);
    assert map[k := v1, k := v2] == map[k := v2];
  }
}
