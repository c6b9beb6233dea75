/** The base64 encoding of section 4 of RFC 4648 ("base64" with the standard alphabet and `=` padding),
    decoded strictly: the input length is a multiple of 4, every character is in the alphabet except the
    one or two trailing `=` of the last group, and the bits that padding discards are zero (the canonical
    encoding of section 3.5). */
module Base64 {
  import opened Wrappers

  type Byte = b: int | 0 <= b < 256
  type Sextet = n: int | 0 <= n < 64

  const Pad: char := '='

  const IncorrectPadding: string := "Incorrect padding"
  const NotBase64: string := "Only base64 data is allowed"
  const NonCanonical: string := "Non-zero padding bits"

  /** The character that encodes `n`, after Table 1 of RFC 4648: A-Z, a-z, 0-9, '+', '/'. */
  function CharOf(n: Sextet): (c: char)
    ensures c != Pad && c != ','
  {
    if n < 26 then ('A' as int + n) as char
    else if n < 52 then ('a' as int + n - 26) as char
    else if n < 62 then ('0' as int + n - 52) as char
    else if n == 62 then '+'
    else '/'
  }

  /** The value a character encodes, or None for a character outside the alphabet. */
  function SextetOf(c: char): Option<Sextet>
  {
    if 'A' <= c <= 'Z' then Some(c as int - 'A' as int)
    else if 'a' <= c <= 'z' then Some(c as int - 'a' as int + 26)
    else if '0' <= c <= '9' then Some(c as int - '0' as int + 52)
    else if c == '+' then Some(62)
    else if c == '/' then Some(63)
    else None
  }

  /** `CharOf` and `SextetOf` are inverse bijections between the values 0..63 and the alphabet. */
  lemma SextetCharInverse(n: Sextet, c: char)
    ensures SextetOf(CharOf(n)) == Some(n)
    ensures SextetOf(c) == Some(n) ==> CharOf(n) == c
  {
  }

  /** Three bytes as four characters (24 bits as four 6-bit groups, high bits first). */
  function EncodeTriple(b0: Byte, b1: Byte, b2: Byte): string
  {
    [CharOf(b0 / 4), CharOf((b0 % 4) * 16 + b1 / 16), CharOf((b1 % 16) * 4 + b2 / 64), CharOf(b2 % 64)]
  }

  /** A final two bytes: three characters (the last two bits zero) and one `=`. */
  function EncodePair(b0: Byte, b1: Byte): string
  {
    [CharOf(b0 / 4), CharOf((b0 % 4) * 16 + b1 / 16), CharOf((b1 % 16) * 4), Pad]
  }

  /** A final single byte: two characters (the last four bits zero) and two `=`. */
  function EncodeSingle(b0: Byte): string
  {
    [CharOf(b0 / 4), CharOf((b0 % 4) * 16), Pad, Pad]
  }

  /** The encoding of a byte string: full groups, then a padded final group. */
  function Encode(b: seq<Byte>): (s: string)
    ensures |s| % 4 == 0 && (|s| == 0 <==> |b| == 0)
    decreases |b|
  {
    if |b| == 0 then []
    else if |b| == 1 then EncodeSingle(b[0])
    else if |b| == 2 then EncodePair(b[0], b[1])
    else EncodeTriple(b[0], b[1], b[2]) + Encode(b[3..])
  }

  /** The encoding of three or more bytes: the first triple, then the rest. */
  lemma EncodeCons(b: seq<Byte>)
    requires |b| >= 3
    ensures Encode(b) == EncodeTriple(b[0], b[1], b[2]) + Encode(b[3..])
  {
  }

  /** Every started group of three bytes takes four characters. */
  lemma {:induction false} EncodeLength(b: seq<Byte>)
    ensures |Encode(b)| == (|b| + 2) / 3 * 4
    decreases |b|
  {
    if |b| >= 3 {
      EncodeLength(b[3..]);
      EncodeCons(b);
      var n := |b| - 3;
      assert (n + 3 + 2) / 3 == (n + 2) / 3 + 1;
    }
  }

  /** An encoding never holds a comma, so it survives inside a comma-separated url. */
  lemma {:induction false} EncodeHasNoComma(b: seq<Byte>)
    ensures ',' !in Encode(b)
    decreases |b|
  {
    if |b| >= 3 {
      EncodeHasNoComma(b[3..]);
      EncodeCons(b);
      assert ',' !in EncodeTriple(b[0], b[1], b[2]);
    } else if |b| == 2 {
      assert ',' !in EncodePair(b[0], b[1]);
    } else if |b| == 1 {
      assert ',' !in EncodeSingle(b[0]);
    }
  }

  /** Four values as the three bytes whose bits they hold. */
  function Unpack(c0: Sextet, c1: Sextet, c2: Sextet, c3: Sextet): seq<Byte>
  {
    [c0 * 4 + c1 / 16, (c1 % 16) * 16 + c2 / 4, (c2 % 4) * 64 + c3]
  }

  /** One group of four characters; only the last group of the input (`last`) may carry padding. */
  function DecodeGroup(g: string, last: bool): (r: Result<seq<Byte>>)
    requires |g| == 4
    ensures r.Ok? ==> 1 <= |r.value| <= 3
    ensures r.Ok? && !last ==> |r.value| == 3
  {
    var s0, s1, s2, s3 := SextetOf(g[0]), SextetOf(g[1]), SextetOf(g[2]), SextetOf(g[3]);
    if s0.None? || s1.None? then Err(NotBase64)
    else if s2.Some? && s3.Some? then Ok(Unpack(s0.value, s1.value, s2.value, s3.value))
    else if !last || g[3] != Pad then Err(NotBase64)
    else if g[2] == Pad then
      if s1.value % 16 == 0 then Ok([s0.value * 4 + s1.value / 16]) else Err(NonCanonical)
    else if s2.Some? then
      if s2.value % 4 == 0 then Ok(Unpack(s0.value, s1.value, s2.value, 0)[..2]) else Err(NonCanonical)
    else Err(NotBase64)
  }

  function DecodeGroups(s: string): (r: Result<seq<Byte>>)
    requires |s| % 4 == 0
    ensures r.Ok? && |s| > 0 ==> |r.value| > 0
    ensures r.Ok? ==> |s| / 4 * 3 - 2 <= |r.value| <= |s| / 4 * 3
    decreases |s|
  {
    if |s| == 0 then Ok([])
    else if |s| == 4 then DecodeGroup(s, true)
    else
      var head :- DecodeGroup(s[..4], false);
      var tail :- DecodeGroups(s[4..]);
      Ok(head + tail)
  }

  /** Strict decoding; fails with a message on input that is not a canonical encoding. */
  function Decode(s: string): (r: Result<seq<Byte>>)
    ensures |s| % 4 != 0 ==> r == Err(IncorrectPadding)
    ensures r.Ok? ==> (|r.value| == 0 <==> |s| == 0) && |s| / 4 * 3 - 2 <= |r.value| <= |s| / 4 * 3
  {
    if |s| % 4 != 0 then Err(IncorrectPadding) else DecodeGroups(s)
  }

  /** A single group is decoded as the last group. */
  lemma DecodeOne(g: string)
    requires |g| == 4
    ensures Decode(g) == DecodeGroup(g, true)
  {
  }

  /** Decoding an input of several groups: the first group, then the rest. */
  lemma DecodeCons(s: string)
    requires |s| % 4 == 0 && |s| > 4
    ensures Decode(s) == match DecodeGroup(s[..4], false)
      case Err(e) => Err(e)
      case Ok(head) => match Decode(s[4..]) case Err(e) => Err(e) case Ok(tail) => Ok(head + tail)
  {
  }

  /** Splitting `hi * m + lo` back into its quotient and remainder by `m`, for the three group widths. */
  lemma DivModOf(hi: int, lo: int, m: int)
    requires m == 4 || m == 16 || m == 64
    requires 0 <= lo < m && 0 <= hi
    ensures (hi * m + lo) / m == hi && (hi * m + lo) % m == lo
  {
    if m == 4 {
      assert (hi * 4 + lo) / 4 == hi;
    } else if m == 16 {
      assert (hi * 16 + lo) / 16 == hi;
    } else {
      assert (hi * 64 + lo) / 64 == hi;
    }
  }

  /** The bit arithmetic of one full group: the 24 bits survive regrouping from bytes to sextets and back. */
  lemma TripleArithmetic(b0: Byte, b1: Byte, b2: Byte)
    ensures Unpack(b0 / 4, (b0 % 4) * 16 + b1 / 16, (b1 % 16) * 4 + b2 / 64, b2 % 64) == [b0, b1, b2]
  {
    DivModOf(b0 % 4, b1 / 16, 16);
    DivModOf(b1 % 16, b2 / 64, 4);
  }

  /** The same from sextets to bytes and back. */
  lemma QuadArithmetic(c0: Sextet, c1: Sextet, c2: Sextet, c3: Sextet, bytes: seq<Byte>)
    requires bytes == Unpack(c0, c1, c2, c3)
    ensures bytes[0] / 4 == c0 && (bytes[0] % 4) * 16 + bytes[1] / 16 == c1
    ensures (bytes[1] % 16) * 4 + bytes[2] / 64 == c2 && bytes[2] % 64 == c3
  {
    DivModOf(c0, c1 / 16, 4);
    DivModOf(c1 % 16, c2 / 4, 16);
    DivModOf(c2 % 4, c3, 64);
  }

  lemma TripleRoundTrip(b0: Byte, b1: Byte, b2: Byte, last: bool)
    ensures DecodeGroup(EncodeTriple(b0, b1, b2), last) == Ok([b0, b1, b2])
  {
    var g := EncodeTriple(b0, b1, b2);
    var c0, c1, c2, c3 := b0 / 4, (b0 % 4) * 16 + b1 / 16, (b1 % 16) * 4 + b2 / 64, b2 % 64;
    SextetCharInverse(c0, g[0]);
    SextetCharInverse(c1, g[1]);
    SextetCharInverse(c2, g[2]);
    SextetCharInverse(c3, g[3]);
    TripleArithmetic(b0, b1, b2);
    assert DecodeGroup(g, last) == Ok(Unpack(c0, c1, c2, c3));
  }

  lemma PairRoundTrip(b0: Byte, b1: Byte)
    ensures DecodeGroup(EncodePair(b0, b1), true) == Ok([b0, b1])
  {
    var g := EncodePair(b0, b1);
    var c0, c1, c2 := b0 / 4, (b0 % 4) * 16 + b1 / 16, (b1 % 16) * 4;
    SextetCharInverse(c0, g[0]);
    SextetCharInverse(c1, g[1]);
    SextetCharInverse(c2, g[2]);
    assert SextetOf(g[3]) == None && g[2] != Pad;
    TripleArithmetic(b0, b1, 0);
    DivModOf(b1 % 16, 0, 4);
    assert c2 % 4 == 0;
    assert Unpack(c0, c1, c2, 0)[..2] == [b0, b1];
  }

  lemma SingleRoundTrip(b0: Byte)
    ensures DecodeGroup(EncodeSingle(b0), true) == Ok([b0])
  {
    var g := EncodeSingle(b0);
    var c0, c1 := b0 / 4, (b0 % 4) * 16;
    SextetCharInverse(c0, g[0]);
    SextetCharInverse(c1, g[1]);
    assert SextetOf(g[2]) == None && g[2] == Pad && g[3] == Pad;
    DivModOf(b0 % 4, 0, 16);
    assert c1 % 16 == 0 && c0 * 4 + c1 / 16 == b0;
  }

  lemma DecodeEncodeSingle(b: seq<Byte>)
    requires |b| == 1
    ensures Decode(Encode(b)) == Ok(b)
  {
    var g := EncodeSingle(b[0]);
    assert Encode(b) == g;
    DecodeOne(g);
    SingleRoundTrip(b[0]);
    assert [b[0]] == b;
  }

  lemma DecodeEncodePair(b: seq<Byte>)
    requires |b| == 2
    ensures Decode(Encode(b)) == Ok(b)
  {
    var g := EncodePair(b[0], b[1]);
    assert Encode(b) == g;
    DecodeOne(g);
    PairRoundTrip(b[0], b[1]);
    assert [b[0], b[1]] == b;
  }

  lemma EncodeThree(b: seq<Byte>)
    requires |b| == 3
    ensures Encode(b) == EncodeTriple(b[0], b[1], b[2])
  {
    EncodeCons(b);
    assert b[3..] == [];
  }

  lemma LastTripleRoundTrip(b0: Byte, b1: Byte, b2: Byte)
    ensures Decode(EncodeTriple(b0, b1, b2)) == Ok([b0, b1, b2])
  {
    DecodeOne(EncodeTriple(b0, b1, b2));
    TripleRoundTrip(b0, b1, b2, true);
  }

  lemma DecodeEncodeTriple(b: seq<Byte>)
    requires |b| == 3
    ensures Decode(Encode(b)) == Ok(b)
  {
    EncodeThree(b);
    LastTripleRoundTrip(b[0], b[1], b[2]);
    assert [b[0], b[1], b[2]] == b;
  }

  lemma DecodeCombine(s: string, head: seq<Byte>, tail: seq<Byte>)
    requires |s| % 4 == 0 && |s| > 4
    requires DecodeGroup(s[..4], false) == Ok(head) && Decode(s[4..]) == Ok(tail)
    ensures Decode(s) == Ok(head + tail)
  {
    DecodeCons(s);
  }

  lemma SplitConcat(t: string, rest: string)
    requires |t| == 4
    ensures (t + rest)[..4] == t && (t + rest)[4..] == rest
  {
  }

  lemma FirstThree(b: seq<Byte>)
    requires |b| >= 3
    ensures [b[0], b[1], b[2]] + b[3..] == b
  {
  }

  lemma DecodeEncodeStep(b: seq<Byte>)
    requires |b| > 3
    requires Decode(Encode(b[3..])) == Ok(b[3..])
    ensures Decode(Encode(b)) == Ok(b)
  {
    var t := EncodeTriple(b[0], b[1], b[2]);
    var rest := Encode(b[3..]);
    EncodeCons(b);
    TripleRoundTrip(b[0], b[1], b[2], false);
    SplitConcat(t, rest);
    DecodeCombine(t + rest, [b[0], b[1], b[2]], b[3..]);
    FirstThree(b);
  }

  /** Decoding an encoding gives the bytes back. */
  lemma {:induction false} DecodeEncode(b: seq<Byte>)
    ensures Decode(Encode(b)) == Ok(b)
    decreases |b|
  {
    if |b| == 1 {
      DecodeEncodeSingle(b);
    } else if |b| == 2 {
      DecodeEncodePair(b);
    } else if |b| == 3 {
      DecodeEncodeTriple(b);
    } else if |b| > 3 {
      DecodeEncode(b[3..]);
      DecodeEncodeStep(b);
    }
  }

  lemma FullGroupRoundTrip(g: string, c0: Sextet, c1: Sextet, c2: Sextet, c3: Sextet)
    requires |g| == 4
    requires SextetOf(g[0]) == Some(c0) && SextetOf(g[1]) == Some(c1)
    requires SextetOf(g[2]) == Some(c2) && SextetOf(g[3]) == Some(c3)
    ensures Encode(Unpack(c0, c1, c2, c3)) == g
  {
    var bytes := Unpack(c0, c1, c2, c3);
    QuadArithmetic(c0, c1, c2, c3, bytes);
    SextetCharInverse(c0, g[0]);
    SextetCharInverse(c1, g[1]);
    SextetCharInverse(c2, g[2]);
    SextetCharInverse(c3, g[3]);
    EncodeCons(bytes);
    assert Encode(bytes[3..]) == [];
  }

  lemma PaddedGroupRoundTrip(g: string, bytes: seq<Byte>)
    requires |g| == 4 && g[3] == Pad
    requires DecodeGroup(g, true) == Ok(bytes)
    ensures Encode(bytes) == g
  {
    var c0, c1 := SextetOf(g[0]).value, SextetOf(g[1]).value;
    SextetCharInverse(c0, g[0]);
    SextetCharInverse(c1, g[1]);
    if g[2] == Pad {
      QuadArithmetic(c0, c1, 0, 0, Unpack(c0, c1, 0, 0));
      assert Encode(bytes) == EncodeSingle(bytes[0]);
    } else {
      var c2 := SextetOf(g[2]).value;
      SextetCharInverse(c2, g[2]);
      QuadArithmetic(c0, c1, c2, 0, Unpack(c0, c1, c2, 0));
      assert Encode(bytes) == EncodePair(bytes[0], bytes[1]);
    }
  }

  lemma GroupRoundTrip(g: string, last: bool, bytes: seq<Byte>)
    requires |g| == 4
    requires DecodeGroup(g, last) == Ok(bytes)
    ensures Encode(bytes) == g
  {
    var s2, s3 := SextetOf(g[2]), SextetOf(g[3]);
    if s2.Some? && s3.Some? {
      FullGroupRoundTrip(g, SextetOf(g[0]).value, SextetOf(g[1]).value, s2.value, s3.value);
    } else {
      PaddedGroupRoundTrip(g, bytes);
    }
  }

  lemma EncodeDecodeStep(s: string, b: seq<Byte>)
    requires |s| % 4 == 0 && |s| > 4
    requires Decode(s) == Ok(b)
    ensures Decode(s[4..]).Ok? && |b| > 3 && b[3..] == Decode(s[4..]).value
    ensures DecodeGroup(s[..4], false) == Ok(b[..3])
  {
    DecodeCons(s);
  }

  lemma EncodeDecodeCombine(s: string, b: seq<Byte>)
    requires |s| > 4 && |b| > 3
    requires DecodeGroup(s[..4], false) == Ok(b[..3])
    requires Encode(b[3..]) == s[4..]
    ensures Encode(b) == s
  {
    GroupRoundTrip(s[..4], false, b[..3]);
    EncodeCons(b);
    EncodeCons(b[..3]);
    assert b[..3][3..] == [];
    assert s == s[..4] + s[4..];
  }

  lemma EncodeDecodeOne(s: string, b: seq<Byte>)
    requires |s| == 4 && Decode(s) == Ok(b)
    ensures Encode(b) == s
  {
    DecodeOne(s);
    GroupRoundTrip(s, true, b);
  }

  /** Strict decoding accepts only canonical encodings: whatever decodes is the encoding of its result. */
  lemma {:induction false} EncodeDecode(s: string, b: seq<Byte>)
    requires Decode(s) == Ok(b)
    ensures Encode(b) == s
    decreases |s|
  {
    if |s| == 4 {
      EncodeDecodeOne(s, b);
    } else if |s| > 4 {
      EncodeDecodeStep(s, b);
      EncodeDecode(s[4..], b[3..]);
      EncodeDecodeCombine(s, b);
    }
  }
}
