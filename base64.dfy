/**
 * Base64 with the standard alphabet and padding, as section 4 of RFC 4648
 * defines it: the encoding the OAuth connect route uses for its state
 * parameter, and the decoding the callback applies to it.
 */
module Base64 {
  import opened Wrappers

  type byte = x: int | 0 <= x < 256

  /** The value of one base64 character. */
  type sextet = x: int | 0 <= x < 64

  /** The character of the base64 alphabet (table 1 of RFC 4648) for a value. */
  function CharOf(v: sextet): (c: char)
    ensures c as int < 128
  {
    if v < 26 then (('A' as int) + v) as char
    else if v < 52 then (('a' as int) + (v - 26)) as char
    else if v < 62 then (('0' as int) + (v - 52)) as char
    else if v == 62 then '+'
    else '/'
  }

  /** The value of an alphabet character; None for any other character, '=' included. */
  function ValueOf(c: char): (v: Option<sextet>)
    ensures v.Some? ==> CharOf(v.value) == c
  {
    if 'A' <= c <= 'Z' then Some(c as int - 'A' as int)
    else if 'a' <= c <= 'z' then Some(c as int - 'a' as int + 26)
    else if '0' <= c <= '9' then Some(c as int - '0' as int + 52)
    else if c == '+' then Some(62)
    else if c == '/' then Some(63)
    else None
  }

  lemma ValueOfCharOf(v: sextet)
    ensures ValueOf(CharOf(v)) == Some(v)
  {
  }

  /** Three bytes as four characters. */
  function EncodeGroup(a: byte, b: byte, c: byte): string {
    [CharOf(a / 4), CharOf((a % 4) * 16 + b / 16), CharOf((b % 16) * 4 + c / 64), CharOf(c % 64)]
  }

  /** The encoding of a byte string; a final group of one or two bytes is padded with '='. */
  function Encode(s: seq<byte>): (r: string)
    ensures |r| == 4 * ((|s| + 2) / 3) && |r| % 4 == 0
    ensures forall i :: 0 <= i < |r| ==> r[i] as int < 128
    decreases |s|
  {
    if |s| >= 3 then
      assert (|s| + 2) / 3 == (|s[3..]| + 2) / 3 + 1;
      EncodeGroup(s[0], s[1], s[2]) + Encode(s[3..])
    else if |s| == 2 then [CharOf(s[0] / 4), CharOf((s[0] % 4) * 16 + s[1] / 16), CharOf((s[1] % 16) * 4), '=']
    else if |s| == 1 then [CharOf(s[0] / 4), CharOf((s[0] % 4) * 16), '=', '=']
    else []
  }

  /** The bytes of a group of four characters, of which the last one or two may be padding. */
  function DecodeGroup(g: string, last: bool): (r: Option<seq<byte>>)
    requires |g| == 4
    ensures r.Some? ==> 1 <= |r.value| <= 3 && (!last ==> |r.value| == 3)
  {
    var v0, v1, v2, v3 := ValueOf(g[0]), ValueOf(g[1]), ValueOf(g[2]), ValueOf(g[3]);
    if v0.None? || v1.None? then None
    else
      var a: byte := v0.value * 4 + v1.value / 16;
      if v2.Some? && v3.Some? then
        Some([a, (v1.value % 16) * 16 + v2.value / 4, (v2.value % 4) * 64 + v3.value])
      else if last && v2.Some? && g[3] == '=' then
        Some([a, (v1.value % 16) * 16 + v2.value / 4])
      else if last && g[2] == '=' && g[3] == '=' then
        Some([a])
      else None
  }

  /**
   * The bytes a base64 string stands for: None unless its length is a
   * multiple of four, every character is in the alphabet and '=' appears
   * only as padding of the final group.
   */
  function Decode(s: string): (r: Option<seq<byte>>)
    ensures r.Some? ==> |s| % 4 == 0
    ensures r.Some? && s != [] ==> |s| / 4 * 3 - 2 <= |r.value| <= |s| / 4 * 3
    decreases |s|
  {
    if s == [] then Some([])
    else if |s| < 4 then None
    else
      match DecodeGroup(s[..4], |s| == 4)
      case None => None
      case Some(g) =>
        match Decode(s[4..])
        case None => None
        case Some(rest) =>
          assert |s| / 4 == |s[4..]| / 4 + 1;
          Some(g + rest)
  }

  /** The first byte of a group is rebuilt from its first two characters. */
  lemma FirstByte(a: byte, b: byte)
    ensures (a / 4) * 4 + ((a % 4) * 16 + b / 16) / 16 == a
    ensures ((a % 4) * 16 + b / 16) % 16 == b / 16
  {
  }

  /** The second byte of a group is rebuilt from its second and third characters. */
  lemma SecondByte(b: byte, c: byte)
    ensures (b / 16) * 16 + ((b % 16) * 4 + c / 64) / 4 == b
    ensures ((b % 16) * 4 + c / 64) % 4 == c / 64
  {
  }

  lemma GroupRoundTrip(a: byte, b: byte, c: byte, last: bool)
    ensures DecodeGroup(EncodeGroup(a, b, c), last) == Some([a, b, c])
  {
    var v0, v1, v2, v3 := a / 4, (a % 4) * 16 + b / 16, (b % 16) * 4 + c / 64, c % 64;
    ValueOfCharOf(v0);
    ValueOfCharOf(v1);
    ValueOfCharOf(v2);
    ValueOfCharOf(v3);
    FirstByte(a, b);
    SecondByte(b, c);
    assert v0 * 4 + v1 / 16 == a;
    assert (v1 % 16) * 16 + v2 / 4 == b;
    assert (v2 % 4) * 64 + v3 == c;
  }

  lemma PairRoundTrip(a: byte, b: byte)
    ensures Decode(Encode([a, b])) == Some([a, b])
  {
    ValueOfCharOf(a / 4);
    ValueOfCharOf((a % 4) * 16 + b / 16);
    ValueOfCharOf((b % 16) * 4);
    var e := Encode([a, b]);
    assert ((a % 4) * 16 + b / 16) % 16 == b / 16;
    assert DecodeGroup(e, true) == Some([a, b]);
    DecodeAppend(e, [], [a, b], []);
    assert e + [] == e && [a, b] + [] == [a, b];
  }

  lemma SingleRoundTrip(a: byte)
    ensures Decode(Encode([a])) == Some([a])
  {
    ValueOfCharOf(a / 4);
    ValueOfCharOf((a % 4) * 16);
    var e := Encode([a]);
    assert DecodeGroup(e, true) == Some([a]);
    DecodeAppend(e, [], [a], []);
    assert e + [] == e && [a] + [] == [a];
  }

  /** A group that decodes, followed by a string that decodes. */
  lemma DecodeAppend(head: string, rest: string, g: seq<byte>, r: seq<byte>)
    requires |head| == 4 && DecodeGroup(head, rest == []) == Some(g)
    requires Decode(rest) == Some(r)
    ensures Decode(head + rest) == Some(g + r)
  {
    var e := head + rest;
    assert e[..4] == head && e[4..] == rest;
  }

  lemma SplitGroup(s: seq<byte>)
    requires |s| >= 3
    ensures [s[0], s[1], s[2]] + s[3..] == s
  {
  }

  /** A whole group of three bytes in front of a string that round-trips. */
  lemma GroupThenRest(a: byte, b: byte, c: byte, rest: seq<byte>)
    requires Decode(Encode(rest)) == Some(rest)
    ensures Decode(Encode([a, b, c] + rest)) == Some([a, b, c] + rest)
  {
    var s := [a, b, c] + rest;
    assert s[0] == a && s[1] == b && s[2] == c && s[3..] == rest;
    assert Encode(s) == EncodeGroup(a, b, c) + Encode(rest);
    GroupRoundTrip(a, b, c, Encode(rest) == []);
    DecodeAppend(EncodeGroup(a, b, c), Encode(rest), [a, b, c], rest);
  }

  /** Decoding undoes encoding, for every byte string. */
  lemma {:induction false} RoundTrip(s: seq<byte>)
    ensures Decode(Encode(s)) == Some(s)
    decreases |s|
  {
    if |s| >= 3 {
      SplitGroup(s);
      RoundTrip(s[3..]);
      GroupThenRest(s[0], s[1], s[2], s[3..]);
    } else if |s| == 2 {
      PairRoundTrip(s[0], s[1]);
      assert [s[0], s[1]] == s;
    } else if |s| == 1 {
      SingleRoundTrip(s[0]);
      assert [s[0]] == s;
    }
  }
}
