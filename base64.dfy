/**
 * The base 64 encoding of section 4 of RFC 4648, with padding, as
 * `Buffer.prototype.toString('base64')` produces it, and a decoder that
 * reads back every encoding; nothing is proved here about the other texts
 * it accepts.
 */
module Base64 {
  import opened Common

  /** Table 1 of RFC 4648: `A`-`Z`, `a`-`z`, `0`-`9`, `+`, `/`. */
  function SextetChar(v: int): (c: char)
    requires 0 <= v < 64
    ensures c != '='
  {
    if v < 26 then ('A' as int + v) as char
    else if v < 52 then ('a' as int + (v - 26)) as char
    else if v < 62 then ('0' as int + (v - 52)) as char
    else if v == 62 then '+'
    else '/'
  }

  /** The value of an alphabet character; `None` for any other character, padding included. */
  function SextetValue(c: char): (r: Option<int>)
    ensures r.Some? ==> 0 <= r.value < 64 && SextetChar(r.value) == c
  {
    if 'A' <= c <= 'Z' then Some(c as int - 'A' as int)
    else if 'a' <= c <= 'z' then Some(c as int - 'a' as int + 26)
    else if '0' <= c <= '9' then Some(c as int - '0' as int + 52)
    else if c == '+' then Some(62)
    else if c == '/' then Some(63)
    else None
  }

  lemma SextetRoundTrip(v: int)
    requires 0 <= v < 64
    ensures SextetValue(SextetChar(v)) == Some(v)
  {
  }

  /** Three octets as four characters. */
  function Triple(b0: Byte, b1: Byte, b2: Byte): string
  {
    [SextetChar(b0 / 4), SextetChar((b0 % 4) * 16 + b1 / 16), SextetChar((b1 % 16) * 4 + b2 / 64), SextetChar(b2 % 64)]
  }

  /** Two final octets, padded with one `=`. */
  function Pair(b0: Byte, b1: Byte): string
  {
    [SextetChar(b0 / 4), SextetChar((b0 % 4) * 16 + b1 / 16), SextetChar((b1 % 16) * 4), '=']
  }

  /** One final octet, padded with two `=`. */
  function Single(b0: Byte): string
  {
    [SextetChar(b0 / 4), SextetChar((b0 % 4) * 16), '=', '=']
  }

  /** The encoding: four characters per three octets, the last group padded with `=`. */
  function Encode(bs: seq<Byte>): (s: string)
    ensures |s| % 4 == 0
    ensures |bs| == 0 <==> |s| == 0
    decreases |bs|
  {
    if |bs| == 0 then ""
    else if |bs| == 1 then Single(bs[0])
    else if |bs| == 2 then Pair(bs[0], bs[1])
    else Triple(bs[0], bs[1], bs[2]) + Encode(bs[3..])
  }

  /** The octets of one group of four characters, `'='` marking the missing ones. */
  function DecodeGroup(q: string, last: bool): (r: Option<seq<Byte>>)
    requires |q| == 4
    ensures r.Some? ==> 1 <= |r.value| <= 3
  {
    var v0 := SextetValue(q[0]);
    var v1 := SextetValue(q[1]);
    var v2 := SextetValue(q[2]);
    var v3 := SextetValue(q[3]);
    if v0.None? || v1.None? then None
    else if last && q[2] == '=' && q[3] == '=' then
      if v1.value % 16 == 0 then Some([v0.value * 4 + v1.value / 16]) else None
    else if v2.None? then None
    else if last && q[3] == '=' then
      if v2.value % 4 == 0 then Some([v0.value * 4 + v1.value / 16, (v1.value % 16) * 16 + v2.value / 4]) else None
    else if v3.None? then None
    else Some([v0.value * 4 + v1.value / 16, (v1.value % 16) * 16 + v2.value / 4, (v2.value % 4) * 64 + v3.value])
  }

  /** The octets a padded encoding stands for; `None` for anything that is not one. */
  function Decode(s: string): Option<seq<Byte>>
    decreases |s|
  {
    if |s| == 0 then Some([])
    else if |s| < 4 then None
    else match DecodeGroup(s[..4], |s| == 4)
      case None => None
      case Some(head) =>
        match Decode(s[4..])
        case None => None
        case Some(rest) => Some(head + rest)
  }

  lemma OctetSplit(b: Byte, d: int)
    requires d == 4 || d == 16 || d == 64
    ensures (b / d) * d + b % d == b
    ensures 0 <= b / d < 256 / d
  {
  }

  /** A full group of three octets decodes back. */
  lemma TripleRoundTrip(b0: Byte, b1: Byte, b2: Byte, last: bool)
    ensures DecodeGroup(Triple(b0, b1, b2), last) == Some([b0, b1, b2])
  {
    TripleSextets(b0, b1, b2);
    FullGroup(b0 / 4, (b0 % 4) * 16 + b1 / 16, (b1 % 16) * 4 + b2 / 64, b2 % 64, last, b0, b1, b2);
  }

  /** The four sextets of three octets spell the three octets back. */
  lemma TripleSextets(b0: Byte, b1: Byte, b2: Byte)
    ensures var w0, w1, w2, w3 := b0 / 4, (b0 % 4) * 16 + b1 / 16, (b1 % 16) * 4 + b2 / 64, b2 % 64;
            && 0 <= w0 < 64 && 0 <= w1 < 64 && 0 <= w2 < 64 && 0 <= w3 < 64
            && w0 * 4 + w1 / 16 == b0 && (w1 % 16) * 16 + w2 / 4 == b1 && (w2 % 4) * 64 + w3 == b2
  {
    OctetSplit(b0, 4);
    OctetSplit(b1, 16);
    OctetSplit(b2, 64);
    DigitSplit(b0 % 4, b1 / 16, 16);
    DigitSplit(b1 % 16, b2 / 64, 4);
  }

  /** A two-digit number in base 4 or 16 splits back into its digits. */
  lemma DigitSplit(hi: int, lo: int, d: int)
    requires d == 4 || d == 16
    requires 0 <= lo < d && 0 <= hi
    ensures (hi * d + lo) / d == hi && (hi * d + lo) % d == lo
  {
    if d == 4 {
      assert hi * d + lo == hi * 4 + lo;
    } else {
      assert hi * d + lo == hi * 16 + lo;
    }
  }

  /** Four alphabet characters decode to the three octets their sextets spell. */
  lemma FullGroup(w0: int, w1: int, w2: int, w3: int, last: bool, b0: Byte, b1: Byte, b2: Byte)
    requires 0 <= w0 < 64 && 0 <= w1 < 64 && 0 <= w2 < 64 && 0 <= w3 < 64
    requires w0 * 4 + w1 / 16 == b0 && (w1 % 16) * 16 + w2 / 4 == b1 && (w2 % 4) * 64 + w3 == b2
    ensures DecodeGroup([SextetChar(w0), SextetChar(w1), SextetChar(w2), SextetChar(w3)], last) == Some([b0, b1, b2])
  {
    SextetRoundTrip(w0);
    SextetRoundTrip(w1);
    SextetRoundTrip(w2);
    SextetRoundTrip(w3);
  }

  /** A final group of two octets decodes back. */
  lemma PairRoundTrip(b0: Byte, b1: Byte)
    ensures DecodeGroup(Pair(b0, b1), true) == Some([b0, b1])
  {
    OctetSplit(b0, 4);
    OctetSplit(b1, 16);
    var w0, w1, w2 := b0 / 4, (b0 % 4) * 16 + b1 / 16, (b1 % 16) * 4;
    SextetRoundTrip(w0);
    SextetRoundTrip(w1);
    SextetRoundTrip(w2);
    assert w1 / 16 == b0 % 4 && w1 % 16 == b1 / 16;
    assert w2 / 4 == b1 % 16 && w2 % 4 == 0;
  }

  /** A final single octet decodes back. */
  lemma SingleRoundTrip(b0: Byte)
    ensures DecodeGroup(Single(b0), true) == Some([b0])
  {
    OctetSplit(b0, 4);
    SextetRoundTrip(b0 / 4);
    SextetRoundTrip((b0 % 4) * 16);
  }

  /** A group that decodes, followed by an encoding that decodes, decodes to the concatenation. */
  lemma DecodeCons(g: string, rest: string, head: seq<Byte>, tail: seq<Byte>)
    requires |g| == 4 && DecodeGroup(g, |rest| == 0) == Some(head) && Decode(rest) == Some(tail)
    ensures Decode(g + rest) == Some(head + tail)
  {
    var s := g + rest;
    assert s[..4] == g && s[4..] == rest;
  }

  lemma DecodeSingle(bs: seq<Byte>)
    requires |bs| == 1
    ensures Decode(Encode(bs)) == Some(bs)
  {
    var b0 := bs[0];
    SingleRoundTrip(b0);
    DecodeCons(Single(b0), "", [b0], []);
    assert Single(b0) + "" == Encode(bs);
    assert [b0] + [] == bs;
  }

  lemma DecodePair(bs: seq<Byte>)
    requires |bs| == 2
    ensures Decode(Encode(bs)) == Some(bs)
  {
    var b0, b1 := bs[0], bs[1];
    PairRoundTrip(b0, b1);
    DecodeCons(Pair(b0, b1), "", [b0, b1], []);
    assert Pair(b0, b1) + "" == Encode(bs);
    assert [b0, b1] + [] == bs;
  }

  lemma DecodeTriple(b0: Byte, b1: Byte, b2: Byte, rest: string, tail: seq<Byte>)
    requires |rest| % 4 == 0 && Decode(rest) == Some(tail)
    ensures Decode(Triple(b0, b1, b2) + rest) == Some([b0, b1, b2] + tail)
  {
    TripleRoundTrip(b0, b1, b2, |rest| == 0);
    DecodeCons(Triple(b0, b1, b2), rest, [b0, b1, b2], tail);
  }

  /** Decoding an encoding gives the octets back. */
  lemma {:induction false} DecodeEncode(bs: seq<Byte>)
    ensures Decode(Encode(bs)) == Some(bs)
    decreases |bs|
  {
    if |bs| == 1 {
      DecodeSingle(bs);
    } else if |bs| == 2 {
      DecodePair(bs);
    } else if |bs| >= 3 {
      DecodeEncode(bs[3..]);
      assert Encode(bs) == Triple(bs[0], bs[1], bs[2]) + Encode(bs[3..]);
      assert bs == [bs[0], bs[1], bs[2]] + bs[3..];
      DecodeTriple(bs[0], bs[1], bs[2], Encode(bs[3..]), bs[3..]);
    }
  }
}
