/**
 * UTF-8 (RFC 3629) between text and bytes, as far as the OAuth state needs
 * it: the state's JSON text is ASCII, so encoding it is one byte per
 * character, while the callback decodes whatever bytes the state carried.
 */
module Utf8 {
  import opened Wrappers
  import Base64

  type byte = Base64.byte

  predicate IsAscii(s: string) {
    forall i :: 0 <= i < |s| ==> s[i] as int < 128
  }

  /** The UTF-8 bytes of an ASCII text: one byte per character, of the same value. */
  function AsciiBytes(s: string): (bs: seq<byte>)
    requires IsAscii(s)
    ensures |bs| == |s|
    ensures forall i :: 0 <= i < |s| ==> bs[i] == s[i] as int
  {
    seq(|s|, i requires 0 <= i < |s| => s[i] as int)
  }

  predicate IsContinuation(b: byte) {
    0x80 <= b < 0xC0
  }

  function Prepend(c: char, rest: Option<string>): Option<string> {
    match rest
    case None => None
    case Some(s) => Some([c] + s)
  }

  /**
   * Strict UTF-8 decoding: None for a malformed sequence, an overlong form,
   * an encoded surrogate or a value above U+10FFFF.
   */
  function Decode(bs: seq<byte>): (r: Option<string>)
    ensures r.Some? ==> |r.value| <= |bs| <= 4 * |r.value|
    decreases |bs|
  {
    if bs == [] then Some([])
    else
      var b0: int := bs[0];
      if b0 < 0x80 then
        Prepend(b0 as char, Decode(bs[1..]))
      else if 0xC2 <= b0 < 0xE0 then
        if |bs| >= 2 && IsContinuation(bs[1]) then
          Prepend(((b0 - 0xC0) * 64 + (bs[1] as int - 0x80)) as char, Decode(bs[2..]))
        else None
      else if 0xE0 <= b0 < 0xF0 then
        var lo := if b0 == 0xE0 then 0xA0 else 0x80;
        var hi := if b0 == 0xED then 0xA0 else 0xC0;
        if |bs| >= 3 && lo <= bs[1] < hi && IsContinuation(bs[2]) then
          ThreeByteInRange(b0, bs[1], bs[2]);
          Prepend(((b0 - 0xE0) * 4096 + (bs[1] as int - 0x80) * 64 + (bs[2] as int - 0x80)) as char, Decode(bs[3..]))
        else None
      else if 0xF0 <= b0 < 0xF5 then
        var lo := if b0 == 0xF0 then 0x90 else 0x80;
        var hi := if b0 == 0xF4 then 0x90 else 0xC0;
        if |bs| >= 4 && lo <= bs[1] < hi && IsContinuation(bs[2]) && IsContinuation(bs[3]) then
          FourByteInRange(b0, bs[1], bs[2], bs[3]);
          Prepend(((b0 - 0xF0) * 262144 + (bs[1] as int - 0x80) * 4096 + (bs[2] as int - 0x80) * 64 + (bs[3] as int - 0x80)) as char,
                  Decode(bs[4..]))
        else None
      else None
  }

  lemma ThreeByteInRange(b0: int, b1: byte, b2: byte)
    requires 0xE0 <= b0 < 0xF0
    requires (if b0 == 0xE0 then 0xA0 else 0x80) <= b1 < (if b0 == 0xED then 0xA0 else 0xC0)
    requires IsContinuation(b2)
    ensures var v := (b0 - 0xE0) * 4096 + (b1 as int - 0x80) * 64 + (b2 as int - 0x80);
      0x800 <= v < 0xD800 || 0xE000 <= v < 0x10000
  {
    var v := (b0 - 0xE0) * 4096 + (b1 as int - 0x80) * 64 + (b2 as int - 0x80);
    if b0 < 0xED {
      assert v < (b0 - 0xE0) * 4096 + 4096;
      assert (b0 - 0xE0) * 4096 + 4096 <= 0xD000;
    } else if b0 > 0xED {
      assert (b0 - 0xE0) * 4096 >= 0xE000;
    }
  }

  lemma FourByteInRange(b0: int, b1: byte, b2: byte, b3: byte)
    requires 0xF0 <= b0 < 0xF5
    requires (if b0 == 0xF0 then 0x90 else 0x80) <= b1 < (if b0 == 0xF4 then 0x90 else 0xC0)
    requires IsContinuation(b2) && IsContinuation(b3)
    ensures var v := (b0 - 0xF0) * 262144 + (b1 as int - 0x80) * 4096 + (b2 as int - 0x80) * 64 + (b3 as int - 0x80);
      0x10000 <= v < 0x110000
  {
    var v := (b0 - 0xF0) * 262144 + (b1 as int - 0x80) * 4096 + (b2 as int - 0x80) * 64 + (b3 as int - 0x80);
    assert (b0 - 0xF0) * 262144 <= 4 * 262144;
    if b0 == 0xF4 {
      assert v < 4 * 262144 + 16 * 4096;
    } else {
      assert v < (b0 - 0xF0) * 262144 + 262144;
    }
  }

  /** Decoding the bytes of an ASCII text gives the text back. */
  lemma {:induction false} AsciiRoundTrip(s: string)
    requires IsAscii(s)
    ensures Decode(AsciiBytes(s)) == Some(s)
    decreases |s|
  {
    if s != [] {
      var bs := AsciiBytes(s);
      assert bs[1..] == AsciiBytes(s[1..]);
      AsciiRoundTrip(s[1..]);
      assert [s[0]] + s[1..] == s;
    }
  }
}
