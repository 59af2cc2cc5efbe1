/**
 * Base64 as Node's `Buffer.prototype.toString("base64")` writes it: the
 * standard alphabet and "=" padding of section 4 of RFC 4648. The strict
 * decoder is the encoder's inverse: it accepts exactly the strings the
 * encoder produces.
 */
module Base64 {
  import opened Wrappers

  type Byte = b: int | 0 <= b < 256
  type Sextet = i: int | 0 <= i < 64

  /** The alphabet of section 4 of RFC 4648: A-Z, a-z, 0-9, "+", "/". */
  function IndexToChar(i: Sextet): char
  {
    if i < 26 then ('A' as int + i) as char
    else if i < 52 then ('a' as int + (i - 26)) as char
    else if i < 62 then ('0' as int + (i - 52)) as char
    else if i == 62 then '+'
    else '/'
  }

  function CharToIndex(c: char): (r: Option<Sextet>)
    ensures r.Some? <==> ('A' <= c <= 'Z' || 'a' <= c <= 'z' || '0' <= c <= '9' || c == '+' || c == '/')
  {
    if 'A' <= c <= 'Z' then Some(c as int - 'A' as int)
    else if 'a' <= c <= 'z' then Some(c as int - 'a' as int + 26)
    else if '0' <= c <= '9' then Some(c as int - '0' as int + 52)
    else if c == '+' then Some(62)
    else if c == '/' then Some(63)
    else None
  }

  lemma IndexCharInverse(i: Sextet)
    ensures CharToIndex(IndexToChar(i)) == Some(i)
  {
  }

  lemma CharIndexInverse(c: char)
    requires CharToIndex(c).Some?
    ensures IndexToChar(CharToIndex(c).value) == c
  {
  }

  /** The padding character is not in the alphabet. */
  lemma PadNotInAlphabet(i: Sextet)
    ensures IndexToChar(i) != '='
  {
  }

  // ----- One group: three bytes, four 6-bit digits -----

  /** The 24 bits of three bytes cut into four digits, most significant
      first. */
  function ToDigits(b0: Byte, b1: Byte, b2: Byte): (ds: seq<Sextet>)
    ensures |ds| == 4
  {
    [b0 / 4, (b0 % 4) * 16 + b1 / 16, (b1 % 16) * 4 + b2 / 64, b2 % 64]
  }

  /** The 24 bits of four digits cut into three bytes. */
  function ToBytes(d0: Sextet, d1: Sextet, d2: Sextet, d3: Sextet): (bs: seq<Byte>)
    ensures |bs| == 3
  {
    [d0 * 4 + d1 / 16, (d1 % 16) * 16 + d2 / 4, (d2 % 4) * 64 + d3]
  }

  /** Division by a positive constant has one quotient and remainder. */
  lemma QuotRem(q: int, r: int, d: int)
    requires d > 0 && 0 <= r < d
    ensures (q * d + r) / d == q && (q * d + r) % d == r
  {
    var n := q * d + r;
    var k := n / d - q;
    assert k * d == r - n % d;
    MulBound(k, d);
  }

  lemma MulBound(k: int, d: int)
    requires d > 0
    ensures k >= 1 ==> k * d >= d
    ensures k <= -1 ==> k * d <= -d
  {
  }

  lemma BytesDigitsBytes(b0: Byte, b1: Byte, b2: Byte)
    ensures var ds := ToDigits(b0, b1, b2); ToBytes(ds[0], ds[1], ds[2], ds[3]) == [b0, b1, b2]
  {
    QuotRem(b0 % 4, b1 / 16, 16);
    QuotRem(b1 % 16, b2 / 64, 4);
  }

  lemma DigitsBytesDigits(d0: Sextet, d1: Sextet, d2: Sextet, d3: Sextet)
    ensures var bs := ToBytes(d0, d1, d2, d3); ToDigits(bs[0], bs[1], bs[2]) == [d0, d1, d2, d3]
  {
    var bs := ToBytes(d0, d1, d2, d3);
    QuotRem(d0, d1 / 16, 4);
    assert bs[0] / 4 == d0 && bs[0] % 4 == d1 / 16;
    QuotRem(d1 % 16, d2 / 4, 16);
    assert bs[1] / 16 == d1 % 16 && bs[1] % 16 == d2 / 4;
    QuotRem(d2 % 4, d3, 64);
    assert bs[2] / 64 == d2 % 4 && bs[2] % 64 == d3;
  }

  function Chars(ds: seq<Sextet>): (s: string)
    ensures |s| == |ds|
    ensures forall i :: 0 <= i < |ds| ==> s[i] == IndexToChar(ds[i])
  {
    seq(|ds|, i requires 0 <= i < |ds| => IndexToChar(ds[i]))
  }

  // ----- Encoding -----

  /** Full groups of three bytes become four characters; a final group of
      two bytes becomes three characters and "=", one of a single byte two
      characters and "==", the missing bytes counting as zero. */
  function Encode(b: seq<Byte>): (s: string)
    ensures |s| == 0 <==> |b| == 0
  {
    if |b| == 0 then ""
    else if |b| == 1 then Chars(ToDigits(b[0], 0, 0)[..2]) + "=="
    else if |b| == 2 then Chars(ToDigits(b[0], b[1], 0)[..3]) + "="
    else Chars(ToDigits(b[0], b[1], b[2])) + Encode(b[3..])
  }

  lemma {:induction false} EncodedLength(b: seq<Byte>)
    ensures |Encode(b)| == (|b| + 2) / 3 * 4
    decreases |b|
  {
    if |b| > 2 {
      EncodedLength(b[3..]);
    }
  }

  // ----- Strict decoding -----

  function DecodeFull(q: string): Option<seq<Byte>>
    requires |q| == 4
  {
    match (CharToIndex(q[0]), CharToIndex(q[1]), CharToIndex(q[2]), CharToIndex(q[3]))
    case (Some(d0), Some(d1), Some(d2), Some(d3)) => Some(ToBytes(d0, d1, d2, d3))
    case _ => None
  }

  /** The last group: full, or padded with "=" or "==". The bits that pad
      the final byte must be zero, as the encoder leaves them. */
  function DecodeLast(q: string): Option<seq<Byte>>
    requires |q| == 4
  {
    if q[2] == '=' && q[3] == '=' then
      match (CharToIndex(q[0]), CharToIndex(q[1]))
      case (Some(d0), Some(d1)) =>
        if d1 % 16 == 0 then Some(ToBytes(d0, d1, 0, 0)[..1]) else None
      case _ => None
    else if q[3] == '=' then
      match (CharToIndex(q[0]), CharToIndex(q[1]), CharToIndex(q[2]))
      case (Some(d0), Some(d1), Some(d2)) =>
        if d2 % 4 == 0 then Some(ToBytes(d0, d1, d2, 0)[..2]) else None
      case _ => None
    else DecodeFull(q)
  }

  /** Groups of four characters, the last of which may be padded. */
  function Decode(s: string): Option<seq<Byte>>
  {
    if |s| == 0 then Some([])
    else if |s| < 4 then None
    else if |s| == 4 then DecodeLast(s)
    else
      match (DecodeFull(s[..4]), Decode(s[4..]))
      case (Some(g), Some(rest)) => Some(g + rest)
      case _ => None
  }

  // ----- Decoding what was encoded -----

  lemma DecodeFullChars(d0: Sextet, d1: Sextet, d2: Sextet, d3: Sextet)
    ensures DecodeFull(Chars([d0, d1, d2, d3])) == Some(ToBytes(d0, d1, d2, d3))
    ensures DecodeLast(Chars([d0, d1, d2, d3])) == Some(ToBytes(d0, d1, d2, d3))
  {
    IndexCharInverse(d0);
    IndexCharInverse(d1);
    IndexCharInverse(d2);
    IndexCharInverse(d3);
    PadNotInAlphabet(d2);
    PadNotInAlphabet(d3);
  }

  lemma DecodeThreeChars(d0: Sextet, d1: Sextet, d2: Sextet)
    requires d2 % 4 == 0
    ensures DecodeLast(Chars([d0, d1, d2]) + "=") == Some(ToBytes(d0, d1, d2, 0)[..2])
  {
    IndexCharInverse(d0);
    IndexCharInverse(d1);
    IndexCharInverse(d2);
    PadNotInAlphabet(d2);
  }

  lemma DecodeTwoChars(d0: Sextet, d1: Sextet)
    requires d1 % 16 == 0
    ensures DecodeLast(Chars([d0, d1]) + "==") == Some(ToBytes(d0, d1, 0, 0)[..1])
  {
    IndexCharInverse(d0);
    IndexCharInverse(d1);
  }

  lemma FullGroupRoundTrip(b0: Byte, b1: Byte, b2: Byte)
    ensures DecodeFull(Chars(ToDigits(b0, b1, b2))) == Some([b0, b1, b2])
    ensures DecodeLast(Chars(ToDigits(b0, b1, b2))) == Some([b0, b1, b2])
  {
    var ds := ToDigits(b0, b1, b2);
    assert ds == [ds[0], ds[1], ds[2], ds[3]];
    DecodeFullChars(ds[0], ds[1], ds[2], ds[3]);
    BytesDigitsBytes(b0, b1, b2);
  }

  lemma TwoByteRoundTrip(b0: Byte, b1: Byte)
    ensures DecodeLast(Chars(ToDigits(b0, b1, 0)[..3]) + "=") == Some([b0, b1])
  {
    var ds := ToDigits(b0, b1, 0);
    assert ds[..3] == [ds[0], ds[1], ds[2]];
    assert ds[2] == (b1 % 16) * 4 + 0 && ds[3] == 0;
    QuotRem(b1 % 16, 0, 4);
    DecodeThreeChars(ds[0], ds[1], ds[2]);
    BytesDigitsBytes(b0, b1, 0);
    assert ToBytes(ds[0], ds[1], ds[2], 0)[..2] == [b0, b1];
  }

  lemma OneByteRoundTrip(b0: Byte)
    ensures DecodeLast(Chars(ToDigits(b0, 0, 0)[..2]) + "==") == Some([b0])
  {
    var ds := ToDigits(b0, 0, 0);
    assert ds[..2] == [ds[0], ds[1]];
    assert ds[1] == (b0 % 4) * 16 + 0 && ds[2] == 0 && ds[3] == 0;
    QuotRem(b0 % 4, 0, 16);
    DecodeTwoChars(ds[0], ds[1]);
    BytesDigitsBytes(b0, 0, 0);
    assert ToBytes(ds[0], ds[1], 0, 0)[..1] == [b0];
  }

  lemma DecodeQuad(s: string)
    requires |s| == 4
    ensures Decode(s) == DecodeLast(s)
  {
  }

  lemma EncodeOne(b: seq<Byte>)
    requires |b| == 1
    ensures Decode(Encode(b)) == Some(b)
  {
    var s := Chars(ToDigits(b[0], 0, 0)[..2]) + "==";
    assert Encode(b) == s;
    DecodeQuad(s);
    OneByteRoundTrip(b[0]);
    assert b == [b[0]];
  }

  lemma EncodeTwo(b: seq<Byte>)
    requires |b| == 2
    ensures Decode(Encode(b)) == Some(b)
  {
    var s := Chars(ToDigits(b[0], b[1], 0)[..3]) + "=";
    assert Encode(b) == s;
    DecodeQuad(s);
    TwoByteRoundTrip(b[0], b[1]);
    assert b == [b[0], b[1]];
  }

  lemma EncodeGroupOfThree(b: seq<Byte>)
    requires |b| == 3
    ensures Encode(b) == Chars(ToDigits(b[0], b[1], b[2]))
  {
    assert Encode(b[3..]) == "";
  }

  lemma DecodeGroupOfThree(b: seq<Byte>)
    requires |b| == 3
    ensures Decode(Chars(ToDigits(b[0], b[1], b[2]))) == Some(b)
  {
    ThreeBytes(b);
    var s := Chars(ToDigits(b[0], b[1], b[2]));
    DecodeQuad(s);
    FullGroupRoundTrip(b[0], b[1], b[2]);
  }

  lemma EncodeStep(b: seq<Byte>)
    requires |b| > 3
    ensures Encode(b) == Chars(ToDigits(b[0], b[1], b[2])) + Encode(b[3..])
  {
  }

  lemma DecodeStep(s: string)
    requires |s| > 4
    ensures Decode(s) == match (DecodeFull(s[..4]), Decode(s[4..]))
      case (Some(g), Some(rest)) => Some(g + rest)
      case _ => None
  {
  }

  /** A full group in front of a decodable non-empty tail. */
  lemma DecodeConcatGroup(q: string, t: string, g: seq<Byte>, rest: seq<Byte>)
    requires |q| == 4 && DecodeFull(q) == Some(g)
    requires |t| > 0 && Decode(t) == Some(rest)
    ensures Decode(q + t) == Some(g + rest)
  {
    var s := q + t;
    assert s[..4] == q && s[4..] == t;
    DecodeStep(s);
  }

  lemma ThreeBytes(b: seq<Byte>)
    requires |b| == 3
    ensures b == [b[0], b[1], b[2]]
  {
  }

  lemma SplitGroup(b: seq<Byte>)
    requires |b| >= 3
    ensures b == [b[0], b[1], b[2]] + b[3..]
  {
  }

  /** One full group in front of a tail that round-trips. */
  lemma DecodeEncodeGroup(b: seq<Byte>)
    requires |b| > 3 && Decode(Encode(b[3..])) == Some(b[3..])
    ensures Decode(Encode(b)) == Some(b)
  {
    var g, rest := [b[0], b[1], b[2]], b[3..];
    SplitGroup(b);
    EncodeStep(b);
    FullGroupRoundTrip(b[0], b[1], b[2]);
    DecodeConcatGroup(Chars(ToDigits(b[0], b[1], b[2])), Encode(rest), g, rest);
  }

  /** Decoding what was encoded gives back the bytes. */
  lemma {:induction false} DecodeEncode(b: seq<Byte>)
    ensures Decode(Encode(b)) == Some(b)
    decreases |b|
  {
    if |b| == 1 {
      EncodeOne(b);
    } else if |b| == 2 {
      EncodeTwo(b);
    } else if |b| == 3 {
      EncodeGroupOfThree(b);
      DecodeGroupOfThree(b);
    } else if |b| > 3 {
      DecodeEncode(b[3..]);
      DecodeEncodeGroup(b);
    }
  }

  // ----- Encoding what was decoded -----

  /** Four alphabet characters are the characters of their indices. */
  lemma CharsOfIndices(q: string)
    requires |q| == 4
    requires forall i :: 0 <= i < 4 ==> CharToIndex(q[i]).Some?
    ensures Chars([CharToIndex(q[0]).value, CharToIndex(q[1]).value, CharToIndex(q[2]).value, CharToIndex(q[3]).value]) == q
  {
    CharIndexInverse(q[0]);
    CharIndexInverse(q[1]);
    CharIndexInverse(q[2]);
    CharIndexInverse(q[3]);
  }

  /** A group decoded from four digits encodes back to those digits. */
  lemma GroupDigitsInverse(d0: Sextet, d1: Sextet, d2: Sextet, d3: Sextet)
    ensures var g := ToBytes(d0, d1, d2, d3); Chars(ToDigits(g[0], g[1], g[2])) == Chars([d0, d1, d2, d3])
  {
    DigitsBytesDigits(d0, d1, d2, d3);
  }

  lemma FullGroupInverse(q: string)
    requires |q| == 4 && DecodeFull(q).Some?
    ensures var g := DecodeFull(q).value; |g| == 3 && Chars(ToDigits(g[0], g[1], g[2])) == q
  {
    var d0, d1, d2, d3 := CharToIndex(q[0]).value, CharToIndex(q[1]).value, CharToIndex(q[2]).value, CharToIndex(q[3]).value;
    assert DecodeFull(q) == Some(ToBytes(d0, d1, d2, d3));
    GroupDigitsInverse(d0, d1, d2, d3);
    CharsOfIndices(q);
  }

  lemma TwoPadInverse(q: string)
    requires |q| == 4 && q[2] == '=' && q[3] == '=' && DecodeLast(q).Some?
    ensures var g := DecodeLast(q).value; |g| == 1 && Chars(ToDigits(g[0], 0, 0)[..2]) + "==" == q
  {
    var d0, d1 := CharToIndex(q[0]).value, CharToIndex(q[1]).value;
    CharIndexInverse(q[0]);
    CharIndexInverse(q[1]);
    assert d1 / 16 * 16 == d1;
    DigitsBytesDigits(d0, d1, 0, 0);
    QuotRem(d0, d1 / 16, 4);
  }

  lemma OnePadInverse(q: string)
    requires |q| == 4 && q[2] != '=' && q[3] == '=' && DecodeLast(q).Some?
    ensures var g := DecodeLast(q).value; |g| == 2 && Chars(ToDigits(g[0], g[1], 0)[..3]) + "=" == q
  {
    var d0, d1, d2 := CharToIndex(q[0]).value, CharToIndex(q[1]).value, CharToIndex(q[2]).value;
    CharIndexInverse(q[0]);
    CharIndexInverse(q[1]);
    CharIndexInverse(q[2]);
    DigitsBytesDigits(d0, d1, d2, 0);
  }

  /** What the last group decodes to encodes back to that group. */
  lemma LastGroupInverse(q: string)
    requires |q| == 4 && DecodeLast(q).Some?
    ensures Encode(DecodeLast(q).value) == q
  {
    var g := DecodeLast(q).value;
    if q[2] == '=' && q[3] == '=' {
      TwoPadInverse(q);
    } else if q[3] == '=' {
      OnePadInverse(q);
    } else {
      FullGroupInverse(q);
      assert g[3..] == [];
    }
  }

  /** Encoding what was decoded gives back the text: the decoder accepts
      nothing the encoder does not produce. */
  lemma {:induction false} EncodeDecode(s: string)
    requires Decode(s).Some?
    ensures Encode(Decode(s).value) == s
    decreases |s|
  {
    if |s| == 4 {
      LastGroupInverse(s);
    } else if |s| > 4 {
      var g, rest := DecodeFull(s[..4]).value, Decode(s[4..]).value;
      FullGroupInverse(s[..4]);
      EncodeDecode(s[4..]);
      var b := g + rest;
      assert b[..3] == g && b[3..] == rest;
      assert Encode(b) == Chars(ToDigits(b[0], b[1], b[2])) + Encode(b[3..]);
      assert s == s[..4] + s[4..];
    }
  }

  /** The decoder is the exact inverse of the encoder. */
  lemma RoundTrip(b: seq<Byte>, s: string)
    ensures Decode(s) == Some(b) <==> Encode(b) == s
  {
    if Decode(s) == Some(b) {
      EncodeDecode(s);
    }
    if Encode(b) == s {
      DecodeEncode(b);
    }
  }

  // ----- The test vectors of section 10 of RFC 4648 -----

  /** "foo" and "bar" as full groups. */
  lemma GroupFoo()
    ensures Chars(ToDigits(102, 111, 111)) == "Zm9v"
  {
    assert ToDigits(102, 111, 111) == [25, 38, 61, 47];
  }

  lemma GroupBar()
    ensures Chars(ToDigits(98, 97, 114)) == "YmFy"
  {
    assert ToDigits(98, 97, 114) == [24, 38, 5, 50];
  }

  /** "f", "fo", "b" and "ba" as final groups. */
  lemma LastF()
    ensures Encode([102]) == "Zg=="
  {
    assert ToDigits(102, 0, 0)[..2] == [25, 32];
  }

  lemma LastFo()
    ensures Encode([102, 111]) == "Zm8="
  {
    assert ToDigits(102, 111, 0)[..3] == [25, 38, 60];
  }

  lemma LastB()
    ensures Encode([98]) == "Yg=="
  {
    assert ToDigits(98, 0, 0)[..2] == [24, 32];
  }

  lemma LastBa()
    ensures Encode([98, 97]) == "YmE="
  {
    assert ToDigits(98, 97, 0)[..3] == [24, 38, 4];
  }

  /** A full group in front of the rest of the bytes. */
  lemma EncodeAfterGroup(g: seq<Byte>, rest: seq<Byte>, q: string, t: string)
    requires |g| == 3 && |rest| > 0
    requires Chars(ToDigits(g[0], g[1], g[2])) == q && Encode(rest) == t
    ensures Encode(g + rest) == q + t
  {
    var b := g + rest;
    assert b[0] == g[0] && b[1] == g[1] && b[2] == g[2] && b[3..] == rest;
    EncodeStep(b);
  }

  /** The encodings of "", "f", "fo", "foo", "foob", "fooba" and "foobar"
      listed in section 10 of RFC 4648. */
  lemma Rfc4648Vectors()
    ensures Encode([]) == ""
    ensures Encode([102]) == "Zg=="
    ensures Encode([102, 111]) == "Zm8="
    ensures Encode([102, 111, 111]) == "Zm9v"
    ensures Encode([102, 111, 111, 98]) == "Zm9vYg=="
    ensures Encode([102, 111, 111, 98, 97]) == "Zm9vYmE="
    ensures Encode([102, 111, 111, 98, 97, 114]) == "Zm9vYmFy"
  {
    LastF();
    LastFo();
    GroupFoo();
    EncodeGroupOfThree([102, 111, 111]);
    LastB();
    EncodeAfterGroup([102, 111, 111], [98], "Zm9v", "Yg==");
    LastBa();
    EncodeAfterGroup([102, 111, 111], [98, 97], "Zm9v", "YmE=");
    GroupBar();
    EncodeGroupOfThree([98, 97, 114]);
    EncodeAfterGroup([102, 111, 111], [98, 97, 114], "Zm9v", "YmFy");
  }
}
