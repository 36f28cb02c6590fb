/** The part of Python's `base64.b64decode` that `extract_credentials` relies
    on, stated as the base 64 encoding of section 4 of RFC 4648, together with
    the encoder it inverts and ASCII decoding of the resulting bytes. */
module Base64 {
  import opened Wrappers
  import opened Python

  type byte = b: int | 0 <= b < 256
  type sextet = v: int | 0 <= v < 64

  /** The character of the base 64 alphabet (Table 1 of RFC 4648) for `v`. */
  function EncodeSextet(v: sextet): (c: char)
    ensures IsAlphabetChar(c)
  {
    if v < 26 then (('A' as int) + v) as char
    else if v < 52 then (('a' as int) + (v - 26)) as char
    else if v < 62 then (('0' as int) + (v - 52)) as char
    else if v == 62 then '+'
    else '/'
  }

  predicate IsAlphabetChar(c: char) {
    ('A' <= c <= 'Z') || ('a' <= c <= 'z') || ('0' <= c <= '9') || c == '+' || c == '/'
  }

  /** The value of an alphabet character; the inverse of `EncodeSextet`. */
  function DecodeChar(c: char): (v: sextet)
    requires IsAlphabetChar(c)
    ensures EncodeSextet(v) == c
  {
    if 'A' <= c <= 'Z' then c as int - 'A' as int
    else if 'a' <= c <= 'z' then c as int - 'a' as int + 26
    else if '0' <= c <= '9' then c as int - '0' as int + 52
    else if c == '+' then 62
    else 63
  }

  lemma DecodeEncodeSextet(v: sextet)
    ensures DecodeChar(EncodeSextet(v)) == v
  {
  }

  /** The four 6-bit groups of the 24-bit group `b0 b1 b2`, most significant first. */
  function Sextet0(b0: byte): sextet { b0 / 4 }
  function Sextet1(b0: byte, b1: byte): sextet { (b0 % 4) * 16 + b1 / 16 }
  function Sextet2(b1: byte, b2: byte): sextet { (b1 % 16) * 4 + b2 / 64 }
  function Sextet3(b2: byte): sextet { b2 % 64 }

  /** Three bytes as four characters. */
  function EncodeTriple(b0: byte, b1: byte, b2: byte): (q: string)
    ensures |q| == 4 && forall i :: 0 <= i < 4 ==> IsAlphabetChar(q[i])
  {
    [EncodeSextet(Sextet0(b0)), EncodeSextet(Sextet1(b0, b1)), EncodeSextet(Sextet2(b1, b2)), EncodeSextet(Sextet3(b2))]
  }

  /** Base 64 encoding with `=` padding (section 4 of RFC 4648); a short last
      group is filled with zero bits. */
  function Encode(b: seq<byte>): (s: string)
    ensures |s| == if |b| % 3 == 0 then |b| / 3 * 4 else (|b| / 3 + 1) * 4
    ensures forall i :: 0 <= i < |s| ==> IsAlphabetChar(s[i]) || s[i] == '='
  {
    if |b| == 0 then ""
    else if |b| == 1 then [EncodeSextet(Sextet0(b[0])), EncodeSextet(Sextet1(b[0], 0)), '=', '=']
    else if |b| == 2 then
      [EncodeSextet(Sextet0(b[0])), EncodeSextet(Sextet1(b[0], b[1])), EncodeSextet(Sextet2(b[1], 0)), '=']
    else EncodeTriple(b[0], b[1], b[2]) + Encode(b[3..])
  }

  /** Four alphabet characters as three bytes. */
  function DecodeQuad(c0: char, c1: char, c2: char, c3: char): (r: seq<byte>)
    requires IsAlphabetChar(c0) && IsAlphabetChar(c1) && IsAlphabetChar(c2) && IsAlphabetChar(c3)
    ensures |r| == 3
  {
    var v0, v1, v2, v3 := DecodeChar(c0), DecodeChar(c1), DecodeChar(c2), DecodeChar(c3);
    [v0 * 4 + v1 / 16, (v1 % 16) * 16 + v2 / 4, (v2 % 4) * 64 + v3]
  }

  /** The last quantum: four data characters, or "xx==" / "xxx=" padding. */
  function DecodeFinal(q: string): (r: Result<seq<byte>, Exception>)
    requires |q| == 4
    ensures r.Success? ==> 1 <= |r.value| <= 3
    ensures r.Failure? ==> r.error == Base64Error
  {
    if IsAlphabetChar(q[0]) && IsAlphabetChar(q[1]) then
      if IsAlphabetChar(q[2]) && IsAlphabetChar(q[3]) then
        Success(DecodeQuad(q[0], q[1], q[2], q[3]))
      else if IsAlphabetChar(q[2]) && q[3] == '=' then
        Success(DecodeQuad(q[0], q[1], q[2], 'A')[..2])
      else if q[2] == '=' && q[3] == '=' then
        Success(DecodeQuad(q[0], q[1], 'A', 'A')[..1])
      else Failure(Base64Error)
    else Failure(Base64Error)
  }

  /** Strict base 64 decoding (section 4 of RFC 4648): the length is a
      multiple of four, every character is in the alphabet, and `=` only pads
      the last quantum. Anything else raises `binascii.Error`. */
  function Decode(s: string): (r: Result<seq<byte>, Exception>)
    ensures r.Success? ==> |s| % 4 == 0
    ensures r.Success? ==> |s| / 4 * 3 - 2 <= |r.value| <= |s| / 4 * 3
    ensures r.Success? && s != [] ==> |r.value| > 0
    ensures r.Failure? ==> r.error == Base64Error
    decreases |s|
  {
    if |s| == 0 then Success([])
    else if |s| < 4 then Failure(Base64Error)
    else if |s| == 4 then DecodeFinal(s)
    else if IsAlphabetChar(s[0]) && IsAlphabetChar(s[1]) && IsAlphabetChar(s[2]) && IsAlphabetChar(s[3]) then
      match Decode(s[4..])
      case Success(rest) => Success(DecodeQuad(s[0], s[1], s[2], s[3]) + rest)
      case Failure(e) => Failure(e)
    else Failure(Base64Error)
  }

  /** The sextets of three bytes put back together give the bytes. */
  lemma SextetsJoin(b0: byte, b1: byte, b2: byte)
    ensures Sextet0(b0) * 4 + Sextet1(b0, b1) / 16 == b0
    ensures (Sextet1(b0, b1) % 16) * 16 + Sextet2(b1, b2) / 4 == b1
    ensures (Sextet2(b1, b2) % 4) * 64 + Sextet3(b2) == b2
  {
  }

  /** Encoding then decoding three bytes gives them back. */
  lemma TripleRoundTrip(b0: byte, b1: byte, b2: byte)
    ensures var q := EncodeTriple(b0, b1, b2); DecodeQuad(q[0], q[1], q[2], q[3]) == [b0, b1, b2]
  {
    DecodeEncodeSextet(Sextet0(b0));
    DecodeEncodeSextet(Sextet1(b0, b1));
    DecodeEncodeSextet(Sextet2(b1, b2));
    DecodeEncodeSextet(Sextet3(b2));
    SextetsJoin(b0, b1, b2);
  }

  /** A single trailing byte survives "xx==" padding. */
  lemma OneByteRoundTrip(b: seq<byte>)
    requires |b| == 1
    ensures Decode(Encode(b)) == Success(b)
  {
    var q := EncodeTriple(b[0], 0, 0);
    TripleRoundTrip(b[0], 0, 0);
    assert q[2] == 'A' && q[3] == 'A';
    assert Encode(b) == [q[0], q[1], '=', '='];
    assert DecodeQuad(q[0], q[1], 'A', 'A')[..1] == b;
  }

  /** Two trailing bytes survive "xxx=" padding. */
  lemma TwoByteRoundTrip(b: seq<byte>)
    requires |b| == 2
    ensures Decode(Encode(b)) == Success(b)
  {
    var q := EncodeTriple(b[0], b[1], 0);
    TripleRoundTrip(b[0], b[1], 0);
    assert q[3] == 'A';
    assert Encode(b) == [q[0], q[1], q[2], '='];
    assert DecodeQuad(q[0], q[1], q[2], 'A')[..2] == b;
  }

  /** Three bytes make one full quantum with no padding. */
  lemma ThreeByteRoundTrip(b: seq<byte>)
    requires |b| == 3
    ensures Decode(Encode(b)) == Success(b)
  {
    TripleRoundTrip(b[0], b[1], b[2]);
    assert Encode(b[3..]) == "";
    assert Encode(b) == EncodeTriple(b[0], b[1], b[2]);
    assert [b[0], b[1], b[2]] == b;
  }

  /** Four alphabet characters in front of more input decode as one quantum. */
  lemma DecodeCons(q: string, rest: string)
    requires |q| == 4 && forall i :: 0 <= i < 4 ==> IsAlphabetChar(q[i])
    requires |rest| > 0
    ensures Decode(q + rest) == match Decode(rest)
      case Success(r) => Success(DecodeQuad(q[0], q[1], q[2], q[3]) + r)
      case Failure(e) => Failure(e)
  {
    var s := q + rest;
    assert s[4..] == rest;
    assert s[0] == q[0] && s[1] == q[1] && s[2] == q[2] && s[3] == q[3];
  }

  lemma EncodeNonEmpty(b: seq<byte>)
    requires |b| > 0
    ensures |Encode(b)| >= 4
  {
  }

  lemma FirstThree(b: seq<byte>)
    requires |b| > 3
    ensures [b[0], b[1], b[2]] + b[3..] == b
  {
  }

  /** A leading full quantum decodes in front of whatever follows it. */
  lemma LeadingQuantum(b: seq<byte>)
    requires |b| > 3
    requires Decode(Encode(b[3..])) == Success(b[3..])
    ensures Decode(Encode(b)) == Success(b)
  {
    var q := EncodeTriple(b[0], b[1], b[2]);
    var rest := Encode(b[3..]);
    EncodeNonEmpty(b[3..]);
    assert Encode(b) == q + rest;
    DecodeCons(q, rest);
    TripleRoundTrip(b[0], b[1], b[2]);
    var d := DecodeQuad(q[0], q[1], q[2], q[3]);
    assert d == [b[0], b[1], b[2]];
    assert Decode(q + rest) == Success(d + b[3..]);
    FirstThree(b);
  }

  /** Decoding inverts encoding, for every byte string. */
  lemma {:induction false} DecodeEncode(b: seq<byte>)
    ensures Decode(Encode(b)) == Success(b)
    decreases |b|
  {
    if |b| == 1 {
      OneByteRoundTrip(b);
    } else if |b| == 2 {
      TwoByteRoundTrip(b);
    } else if |b| == 3 {
      ThreeByteRoundTrip(b);
    } else if |b| > 3 {
      DecodeEncode(b[3..]);
      LeadingQuantum(b);
    }
  }

  /** Base 64 output contains neither a space nor a colon. */
  lemma EncodeHasNoSpace(b: seq<byte>)
    ensures ' ' !in Encode(b) && ':' !in Encode(b)
  {
  }

  predicate IsAscii(s: string) {
    forall i :: 0 <= i < |s| ==> s[i] as int < 128
  }

  /** The bytes of an ASCII string. */
  function AsciiBytes(s: string): (b: seq<byte>)
    requires IsAscii(s)
    ensures |b| == |s|
  {
    seq(|s|, i requires 0 <= i < |s| => s[i] as int)
  }

  /** `bytes.decode("utf-8")`, restricted to ASCII: a byte of 0x80 or above
      stops with a decode error. */
  function DecodeAscii(b: seq<byte>): (r: Result<string, Exception>)
    ensures r.Success? <==> forall i :: 0 <= i < |b| ==> b[i] < 128
    ensures r.Success? ==> IsAscii(r.value) && AsciiBytes(r.value) == b
  {
    if forall i :: 0 <= i < |b| ==> b[i] < 128 then
      Success(seq(|b|, i requires 0 <= i < |b| => b[i] as char))
    else Failure(UnicodeDecodeError)
  }

  lemma DecodeAsciiBytes(s: string)
    requires IsAscii(s)
    ensures DecodeAscii(AsciiBytes(s)) == Success(s)
  {
    var r := DecodeAscii(AsciiBytes(s));
    assert r.Success?;
    assert r.value == s;
  }
}
