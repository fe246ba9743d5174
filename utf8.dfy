/**
 * UTF-8 (RFC 3629), as `Buffer.from(text)` encodes a JavaScript string:
 * every Unicode scalar value becomes one to four octets. The decoder
 * reads back what the encoder writes; nothing is proved here about the
 * octet strings it accepts beyond that.
 */
module Utf8 {
  import opened Common

  /** Continuation octets carry six bits: `10xxxxxx`. */
  predicate IsContinuation(b: Byte)
  {
    0x80 <= b < 0xC0
  }

  predicate IsScalar(v: int)
  {
    0 <= v < 0xD800 || 0xE000 <= v < 0x110000
  }

  /** The octets of one scalar value. */
  function EncodeScalar(v: int): (bs: seq<Byte>)
    requires IsScalar(v)
    ensures 1 <= |bs| <= 4
    ensures |bs| == 1 <==> v < 0x80
    ensures forall k | 1 <= k < |bs| :: IsContinuation(bs[k])
  {
    if v < 0x80 then [v]
    else if v < 0x800 then [0xC0 + v / 64, 0x80 + v % 64]
    else if v < 0x10000 then [0xE0 + v / 4096, 0x80 + (v / 64) % 64, 0x80 + v % 64]
    else [0xF0 + v / 262144, 0x80 + (v / 4096) % 64, 0x80 + (v / 64) % 64, 0x80 + v % 64]
  }

  /** `Buffer.from(s, 'utf8')` */
  function Encode(s: string): (bs: seq<Byte>)
    ensures |bs| >= |s|
  {
    if |s| == 0 then [] else EncodeScalar(s[0] as int) + Encode(s[1..])
  }

  /** The scalar value at the front of `bs` and the number of octets it takes, if well formed. */
  function DecodeFirst(bs: seq<Byte>): (r: Option<(char, nat)>)
    requires |bs| > 0
    ensures r.Some? ==> 1 <= r.value.1 <= |bs|
  {
    var b0: int := bs[0];
    if b0 < 0x80 then Some((b0 as char, 1))
    else if 0xC2 <= b0 < 0xE0 && |bs| >= 2 && IsContinuation(bs[1]) then
      var v: int := (b0 - 0xC0) * 64 + (bs[1] as int - 0x80);
      Some((v as char, 2))
    else if 0xE0 <= b0 < 0xF0 && |bs| >= 3 && IsContinuation(bs[1]) && IsContinuation(bs[2]) then
      var v: int := (b0 - 0xE0) * 4096 + (bs[1] as int - 0x80) * 64 + (bs[2] as int - 0x80);
      if 0x800 <= v && IsScalar(v) then Some((v as char, 3)) else None
    else if 0xF0 <= b0 < 0xF5 && |bs| >= 4 && IsContinuation(bs[1]) && IsContinuation(bs[2]) && IsContinuation(bs[3]) then
      var v: int := (b0 - 0xF0) * 262144 + (bs[1] as int - 0x80) * 4096 + (bs[2] as int - 0x80) * 64 + (bs[3] as int - 0x80);
      if 0x10000 <= v < 0x110000 then Some((v as char, 4)) else None
    else None
  }

  /** The text a well-formed octet sequence encodes. */
  function Decode(bs: seq<Byte>): Option<string>
    decreases |bs|
  {
    if |bs| == 0 then Some("")
    else match DecodeFirst(bs)
      case None => None
      case Some((c, n)) =>
        match Decode(bs[n..])
        case None => None
        case Some(rest) => Some([c] + rest)
  }

  lemma TwoOctets(v: int)
    requires 0x80 <= v < 0x800
    ensures (v / 64) * 64 + v % 64 == v
    ensures 2 <= v / 64 < 32
  {
  }

  lemma ThreeOctets(v: int)
    requires 0x800 <= v < 0x10000
    ensures (v / 4096) * 4096 + ((v / 64) % 64) * 64 + v % 64 == v
    ensures v / 4096 < 16
  {
    assert v / 64 == (v / 4096) * 64 + (v / 64) % 64;
  }

  lemma FourOctets(v: int)
    requires 0x10000 <= v < 0x110000
    ensures (v / 262144) * 262144 + ((v / 4096) % 64) * 4096 + ((v / 64) % 64) * 64 + v % 64 == v
    ensures v / 262144 < 5
  {
    assert v / 64 == (v / 4096) * 64 + (v / 64) % 64;
    assert v / 4096 == (v / 262144) * 64 + (v / 4096) % 64;
  }

  /** The front of an encoding decodes to the first character. */
  lemma DecodeFirstEncode(c: char, rest: seq<Byte>)
    ensures DecodeFirst(EncodeScalar(c as int) + rest) == Some((c, |EncodeScalar(c as int)|))
  {
    var v := c as int;
    var bs := EncodeScalar(v) + rest;
    if v < 0x80 {
    } else if v < 0x800 {
      TwoOctets(v);
      assert bs[0] == 0xC0 + v / 64 && bs[1] == 0x80 + v % 64;
    } else if v < 0x10000 {
      ThreeOctets(v);
      assert bs[0] == 0xE0 + v / 4096 && bs[1] == 0x80 + (v / 64) % 64 && bs[2] == 0x80 + v % 64;
    } else {
      FourOctets(v);
      assert bs[0] == 0xF0 + v / 262144 && bs[1] == 0x80 + (v / 4096) % 64;
      assert bs[2] == 0x80 + (v / 64) % 64 && bs[3] == 0x80 + v % 64;
    }
  }

  /** Decoding an encoding gives the text back. */
  lemma {:induction false} DecodeEncode(s: string)
    ensures Decode(Encode(s)) == Some(s)
  {
    if |s| > 0 {
      var head := EncodeScalar(s[0] as int);
      var bs := Encode(s);
      assert bs == head + Encode(s[1..]);
      DecodeFirstEncode(s[0], Encode(s[1..]));
      assert bs[|head|..] == Encode(s[1..]);
      DecodeEncode(s[1..]);
      assert [s[0]] + s[1..] == s;
    }
  }

  /** Encoding distributes over concatenation. */
  lemma {:induction false} EncodeConcat(a: string, b: string)
    ensures Encode(a + b) == Encode(a) + Encode(b)
  {
    if |a| > 0 {
      assert (a + b)[0] == a[0];
      assert (a + b)[1..] == a[1..] + b;
      EncodeConcat(a[1..], b);
    } else {
      assert a + b == b;
    }
  }
}
