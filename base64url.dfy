/**
 * The base64url codec of the authorization package: a standard base64
 * encoding (section 4 of RFC 4648) with the padding cut off and the two
 * URL-unsafe digits swapped for '-' and '_' (section 5 of RFC 4648), and
 * the decoder that undoes both before handing the text to the standard
 * decoder.
 */
module Base64Url {
  import opened Wrappers
  import opened Bytes

  /** Why decoding failed: the length check of the codec itself, or the standard decoder's format error. */
  datatype DecodeError = IllegalLength | BadFormat

  /** A 6-bit value: what one base64 digit carries. */
  type sextet = x: int | 0 <= x < 64

  // ----- The standard alphabet -----

  /** The characters Convert.FromBase64String skips wherever they stand: space, tab, CR and LF. */
  predicate IsSkipped(c: char)
  {
    c == ' ' || c == '\t' || c == '\r' || c == '\n'
  }

  /** The digit for a 6-bit value: A-Z, a-z, 0-9, '+', '/'. */
  function Digit(v: sextet): (c: char)
    ensures c != '=' && c != '-' && c != '_' && !IsSkipped(c)
  {
    if v < 26 then ('A' as int + v) as char
    else if v < 52 then ('a' as int + (v - 26)) as char
    else if v < 62 then ('0' as int + (v - 52)) as char
    else if v == 62 then '+'
    else '/'
  }

  /** The 6-bit value of a digit of the standard alphabet, if it is one. */
  function DigitValue(c: char): (r: Option<sextet>)
    ensures r.Some? ==> Digit(r.value) == c
  {
    if 'A' <= c <= 'Z' then Some(c as int - 'A' as int)
    else if 'a' <= c <= 'z' then Some(c as int - 'a' as int + 26)
    else if '0' <= c <= '9' then Some(c as int - '0' as int + 52)
    else if c == '+' then Some(62)
    else if c == '/' then Some(63)
    else None
  }

  /** Every digit reads back as the value it was written for. */
  lemma DigitValueOfDigit(v: sextet)
    ensures DigitValue(Digit(v)) == Some(v)
  {
  }

  // ----- Bit packing -----

  /** The four 6-bit slices of a group of three bytes (24 bits), high bits first. */
  function Hi(b0: byte): sextet { b0 / 4 }
  function Mid1(b0: byte, b1: byte): sextet { (b0 % 4) * 16 + b1 / 16 }
  function Mid2(b1: byte, b2: byte): sextet { (b1 % 16) * 4 + b2 / 64 }
  function Lo(b2: byte): sextet { b2 % 64 }

  /** The three bytes of four 6-bit values. */
  function Byte0(v0: sextet, v1: sextet): byte { v0 * 4 + v1 / 16 }
  function Byte1(v1: sextet, v2: sextet): byte { (v1 % 16) * 16 + v2 / 4 }
  function Byte2(v2: sextet, v3: sextet): byte { (v2 % 4) * 64 + v3 }

  /**
   * The 6-bit values of a byte sequence: each group of three bytes gives
   * four values, a final single byte two and a final pair three, the
   * missing low bits being zero.
   */
  function Sextets(b: seq<byte>): (v: seq<sextet>)
    ensures |v| == (4 * |b| + 2) / 3
    decreases |b|
  {
    if |b| == 0 then []
    else if |b| == 1 then [Hi(b[0]), Mid1(b[0], 0)]
    else if |b| == 2 then [Hi(b[0]), Mid1(b[0], b[1]), Mid2(b[1], 0)]
    else [Hi(b[0]), Mid1(b[0], b[1]), Mid2(b[1], b[2]), Lo(b[2])] + Sextets(b[3..])
  }

  /**
   * The bytes of a sequence of 6-bit values, four values giving three bytes;
   * a final two give one byte and a final three two, while a single value
   * left over cannot encode a byte.
   */
  function Unsextets(v: seq<sextet>): (r: Option<seq<byte>>)
    ensures r.None? <==> |v| % 4 == 1
    ensures r.Some? ==> |r.value| == 3 * |v| / 4
    decreases |v|
  {
    if |v| == 0 then Some([])
    else if |v| == 1 then None
    else if |v| == 2 then Some([Byte0(v[0], v[1])])
    else if |v| == 3 then Some([Byte0(v[0], v[1]), Byte1(v[1], v[2])])
    else
      match Unsextets(v[4..])
      case None => None
      case Some(rest) => Some([Byte0(v[0], v[1]), Byte1(v[1], v[2]), Byte2(v[2], v[3])] + rest)
  }

  /** Each group of three bytes survives its four values; the shorter final groups are the cases of zero low bytes. */
  lemma GroupRoundTrip(b0: byte, b1: byte, b2: byte)
    ensures Byte0(Hi(b0), Mid1(b0, b1)) == b0
    ensures Byte1(Mid1(b0, b1), Mid2(b1, b2)) == b1
    ensures Byte2(Mid2(b1, b2), Lo(b2)) == b2
  {
  }

  /** A group's four values unpack to the group, in front of whatever follows. */
  lemma UnpackGroup(b0: byte, b1: byte, b2: byte, rest: seq<sextet>)
    requires Unsextets(rest).Some?
    ensures Unsextets([Hi(b0), Mid1(b0, b1), Mid2(b1, b2), Lo(b2)] + rest)
            == Some([b0, b1, b2] + Unsextets(rest).value)
  {
    var v := [Hi(b0), Mid1(b0, b1), Mid2(b1, b2), Lo(b2)] + rest;
    assert v[4..] == rest;
    GroupRoundTrip(b0, b1, b2);
  }

  /** A final single byte unpacks from its two values. */
  lemma UnpackOne(b0: byte)
    ensures Unsextets([Hi(b0), Mid1(b0, 0)]) == Some([b0])
  {
    var v: seq<sextet> := [Hi(b0), Mid1(b0, 0)];
    assert Unsextets(v) == Some([Byte0(v[0], v[1])]);
    GroupRoundTrip(b0, 0, 0);
  }

  /** A final pair of bytes unpacks from its three values. */
  lemma UnpackTwo(b0: byte, b1: byte)
    ensures Unsextets([Hi(b0), Mid1(b0, b1), Mid2(b1, 0)]) == Some([b0, b1])
  {
    var v: seq<sextet> := [Hi(b0), Mid1(b0, b1), Mid2(b1, 0)];
    assert Unsextets(v) == Some([Byte0(v[0], v[1]), Byte1(v[1], v[2])]);
    GroupRoundTrip(b0, b1, 0);
  }

  /** Unpacking undoes packing. */
  lemma {:induction false} UnsextetsOfSextets(b: seq<byte>)
    ensures Unsextets(Sextets(b)) == Some(b)
    decreases |b|
  {
    if |b| == 1 {
      UnpackOne(b[0]);
      assert b == [b[0]];
    } else if |b| == 2 {
      UnpackTwo(b[0], b[1]);
      assert b == [b[0], b[1]];
    } else if |b| > 2 {
      UnsextetsOfSextets(b[3..]);
      UnpackGroup(b[0], b[1], b[2], Sextets(b[3..]));
      assert b == [b[0], b[1], b[2]] + b[3..];
    }
  }

  // ----- Digits -----

  /** The digits of a sequence of 6-bit values. */
  function DigitsOf(v: seq<sextet>): (s: string)
    ensures |s| == |v|
    ensures forall i :: 0 <= i < |v| ==> s[i] == Digit(v[i])
    decreases |v|
  {
    if |v| == 0 then "" else [Digit(v[0])] + DigitsOf(v[1..])
  }

  /** The values of a text, if every character is a digit of the standard alphabet. */
  function Values(s: string): (r: Option<seq<sextet>>)
    ensures r.Some? ==> DigitsOf(r.value) == s
    decreases |s|
  {
    if |s| == 0 then Some([])
    else
      match (DigitValue(s[0]), Values(s[1..]))
      case (Some(d), Some(rest)) =>
        assert DigitsOf([d] + rest)[1..] == DigitsOf(rest);
        Some([d] + rest)
      case _ => None
  }

  /** Reading the digits of a sequence of values gives the values back. */
  lemma {:induction false} ValuesOfDigits(v: seq<sextet>)
    ensures Values(DigitsOf(v)) == Some(v)
    decreases |v|
  {
    if |v| > 0 {
      var s := DigitsOf(v);
      assert s[1..] == DigitsOf(v[1..]);
      ValuesOfDigits(v[1..]);
      DigitValueOfDigit(v[0]);
      assert [v[0]] + v[1..] == v;
    }
  }

  // ----- Standard base64 -----

  /** The digits of the encoding without padding. */
  function Digits(b: seq<byte>): (s: string)
    ensures |s| == (4 * |b| + 2) / 3
    ensures '=' !in s && '-' !in s && '_' !in s
  {
    DigitsOf(Sextets(b))
  }

  /** The padding that completes the last group of four: "==" after one byte, "=" after two. */
  function Padding(n: nat): (p: string)
    ensures |p| < 3 && (n + |p|) % 3 == 0
    ensures forall i :: 0 <= i < |p| ==> p[i] == '='
  {
    if n % 3 == 1 then "==" else if n % 3 == 2 then "=" else ""
  }

  /** The number of digits modulo four, by the number of bytes modulo three; the padding completes a group of four. */
  lemma DigitCount(n: nat)
    ensures n % 3 == 0 ==> (4 * n + 2) / 3 == 4 * (n / 3)
    ensures n % 3 == 1 ==> (4 * n + 2) / 3 == 4 * (n / 3) + 2
    ensures n % 3 == 2 ==> (4 * n + 2) / 3 == 4 * (n / 3) + 3
    ensures (4 * n + 2) / 3 + |Padding(n)| == 4 * ((n + 2) / 3)
  {
    var q := n / 3;
    assert n == 3 * q + n % 3;
    assert 4 * n + 2 == 3 * (4 * q + n % 3) + (n % 3 + 2);
    assert (n + 2) / 3 == if n % 3 == 0 then q else q + 1;
  }

  /** Standard base64 (Convert.ToBase64String): the digits, padded to a multiple of four. */
  function Base64Encode(b: seq<byte>): (s: string)
    ensures |s| % 4 == 0 && |s| == 4 * ((|b| + 2) / 3)
    ensures forall i :: 0 <= i < |s| ==> !IsSkipped(s[i])
  {
    DigitCount(|b|);
    Digits(b) + Padding(|b|)
  }

  /** The bytes of unpadded digits: a character outside the alphabet or a single digit left over is a format error. */
  function DecodeDigits(s: string): (r: Result<seq<byte>, DecodeError>)
    ensures r.Ok? ==> |r.value| == 3 * |s| / 4
    ensures r.Err? ==> r.error == BadFormat
  {
    match Values(s)
    case None => Err(BadFormat)
    case Some(v) =>
      match Unsextets(v)
      case None => Err(BadFormat)
      case Some(b) => Ok(b)
  }

  /** The unpadded digits of any bytes decode back to them. */
  lemma DecodeDigitsOfDigits(b: seq<byte>)
    ensures DecodeDigits(Digits(b)) == Ok(b)
  {
    ValuesOfDigits(Sextets(b));
    UnsextetsOfSextets(b);
  }

  /** The text without the characters the standard decoder skips. */
  function SkipWhiteSpace(s: string): (r: string)
    ensures |r| <= |s|
    ensures forall i :: 0 <= i < |r| ==> !IsSkipped(r[i])
    ensures (forall i :: 0 <= i < |s| ==> !IsSkipped(s[i])) ==> r == s
    ensures (forall i :: 0 <= i < |s| ==> IsSkipped(s[i])) ==> r == ""
    decreases |s|
  {
    if |s| == 0 then ""
    else (if IsSkipped(s[0]) then "" else [s[0]]) + SkipWhiteSpace(s[1..])
  }

  /**
   * The decoding of a text with nothing left to skip: the length must be a
   * multiple of four, and one or two '=' may end the text.
   */
  function DecodeCompact(s: string): (r: Result<seq<byte>, DecodeError>)
    ensures |s| % 4 != 0 ==> r == Err(BadFormat)
    ensures r.Err? ==> r.error == BadFormat
  {
    if |s| % 4 != 0 then Err(BadFormat)
    else if |s| >= 2 && s[|s| - 2..] == "==" then DecodeDigits(s[..|s| - 2])
    else if |s| >= 1 && s[|s| - 1] == '=' then DecodeDigits(s[..|s| - 1])
    else DecodeDigits(s)
  }

  /**
   * Standard base64 decoding (Convert.FromBase64String): space, tab, CR and
   * LF are skipped wherever they stand, then what is left is decoded, so its
   * length must be a multiple of four.
   */
  function Base64Decode(s: string): (r: Result<seq<byte>, DecodeError>)
    ensures |SkipWhiteSpace(s)| % 4 != 0 ==> r == Err(BadFormat)
    ensures r.Err? ==> r.error == BadFormat
    ensures (forall i :: 0 <= i < |s| ==> !IsSkipped(s[i])) ==> r == DecodeCompact(s)
  {
    DecodeCompact(SkipWhiteSpace(s))
  }

  /** Skipping distributes over concatenation. */
  lemma {:induction false} SkipAppend(a: string, b: string)
    ensures SkipWhiteSpace(a + b) == SkipWhiteSpace(a) + SkipWhiteSpace(b)
    decreases |a|
  {
    if |a| == 0 {
      assert a + b == b;
    } else {
      assert (a + b)[0] == a[0] && (a + b)[1..] == a[1..] + b;
      SkipAppend(a[1..], b);
    }
  }

  /**
   * White space around an encoding is skipped: the text with spaces, tabs,
   * CRs or LFs before and after it still decodes to the encoded bytes.
   */
  lemma SurroundedEncodingDecodes(b: seq<byte>, before: string, after: string)
    requires forall i :: 0 <= i < |before| ==> IsSkipped(before[i])
    requires forall i :: 0 <= i < |after| ==> IsSkipped(after[i])
    ensures Base64Decode(before + Base64Encode(b) + after) == Ok(b)
  {
    var e := Base64Encode(b);
    SkipAppend(before + e, after);
    SkipAppend(before, e);
    assert SkipWhiteSpace(before) == "" && SkipWhiteSpace(after) == "" && SkipWhiteSpace(e) == e;
    assert SkipWhiteSpace(before + e + after) == e;
    Base64RoundTrip(b);
    assert Base64Decode(e) == DecodeCompact(e);
  }

  /** Two '=' are stripped before the digits are decoded. */
  lemma DecodeTwoPadded(d: string)
    requires (|d| + 2) % 4 == 0
    ensures DecodeCompact(d + "==") == DecodeDigits(d)
  {
    var s := d + "==";
    assert s[|s| - 2..] == "==" && s[..|s| - 2] == d;
  }

  /** One '=' after a digit is stripped before the digits are decoded. */
  lemma DecodeOnePadded(d: string)
    requires (|d| + 1) % 4 == 0 && d[|d| - 1] != '='
    ensures DecodeCompact(d + "=") == DecodeDigits(d)
  {
    var s := d + "=";
    assert s[|s| - 2] == d[|d| - 1];
    assert s[..|s| - 1] == d;
  }

  /** A text that ends in a digit is decoded whole. */
  lemma DecodeUnpadded(d: string)
    requires |d| % 4 == 0 && (|d| == 0 || d[|d| - 1] != '=')
    ensures DecodeCompact(d) == DecodeDigits(d)
  {
  }

  /** Decoding an encoding strips exactly the padding that encoding added. */
  lemma DecodeStripsPadding(b: seq<byte>)
    ensures Base64Decode(Base64Encode(b)) == DecodeDigits(Digits(b))
  {
    var d := Digits(b);
    DigitCount(|b|);
    if |b| % 3 == 1 {
      assert Base64Encode(b) == d + "==";
      DecodeTwoPadded(d);
    } else if |b| % 3 == 2 {
      assert Base64Encode(b) == d + "=";
      DecodeOnePadded(d);
    } else {
      assert Base64Encode(b) == d + "" == d;
      DecodeUnpadded(d);
    }
  }

  /** Standard base64 decodes what it encodes. */
  lemma Base64RoundTrip(b: seq<byte>)
    ensures Base64Decode(Base64Encode(b)) == Ok(b)
  {
    DecodeStripsPadding(b);
    DecodeDigitsOfDigits(b);
  }

  // ----- The URL variant -----

  /** Split(c)[0]: the text before the first `c`, or all of it. */
  function TakeUntil(s: string, c: char): (r: string)
    ensures r <= s && c !in r
    ensures |r| < |s| ==> s[|r|] == c
  {
    if |s| == 0 || s[0] == c then "" else [s[0]] + TakeUntil(s[1..], c)
  }

  /** Replace(a, b): every `a` becomes `b`, every other character stays. */
  function Replace(s: string, a: char, b: char): (r: string)
    ensures |r| == |s|
    ensures forall i :: 0 <= i < |s| ==> r[i] == if s[i] == a then b else s[i]
  {
    seq(|s|, i requires 0 <= i < |s| => if s[i] == a then b else s[i])
  }

  /** Encode: standard base64 cut at the first '=', with '+' as '-' and '/' as '_'. */
  function Encode(arg: seq<byte>): (s: string)
    ensures '=' !in s && '+' !in s && '/' !in s
  {
    Replace(Replace(TakeUntil(Base64Encode(arg), '='), '+', '-'), '/', '_')
  }

  /** The standard-alphabet text of a base64url text. */
  function ToStandard(arg: string): (s: string)
    ensures |s| == |arg| && '-' !in s && '_' !in s
    ensures forall i :: 0 <= i < |arg| && arg[i] != '-' && arg[i] != '_' ==> s[i] == arg[i]
  {
    Replace(Replace(arg, '-', '+'), '_', '/')
  }

  /**
   * Decode: a length of 1 modulo 4 is illegal; otherwise the text goes back
   * to the standard alphabet and the fewest '=' that make its length a
   * multiple of four are appended before standard decoding.
   */
  function Decode(arg: string): (r: Result<seq<byte>, DecodeError>)
    ensures |arg| % 4 == 1 <==> r == Err(IllegalLength)
  {
    var s := ToStandard(arg);
    match |s| % 4
    case 0 => Base64Decode(s)
    case 2 => Base64Decode(s + "==")
    case 3 => Base64Decode(s + "=")
    case 1 => Err(IllegalLength)
  }

  /** A cut at `c` stops exactly where `c` first follows a `c`-free prefix. */
  lemma {:induction false} TakeUntilAt(d: string, p: string, c: char)
    requires c !in d && (p == "" || p[0] == c)
    ensures TakeUntil(d + p, c) == d
    decreases |d|
  {
    if |d| > 0 {
      assert (d + p)[0] == d[0] && (d + p)[1..] == d[1..] + p;
      TakeUntilAt(d[1..], p, c);
    } else {
      assert d + p == p;
    }
  }

  /** Cutting the padding leaves exactly the digits. */
  lemma TakeUntilPadding(b: seq<byte>)
    ensures TakeUntil(Base64Encode(b), '=') == Digits(b)
  {
    TakeUntilAt(Digits(b), Padding(|b|), '=');
  }

  /** The digits never contain '-' or '_', so swapping back restores them. */
  lemma ToStandardRestores(b: seq<byte>)
    ensures ToStandard(Replace(Replace(Digits(b), '+', '-'), '/', '_')) == Digits(b)
  {
    var d := Digits(b);
    assert forall i :: 0 <= i < |d| ==> d[i] != '-' && d[i] != '_';
  }

  /** The url-safe encoding is the digits with '+' and '/' swapped. */
  lemma EncodeDigits(b: seq<byte>)
    ensures ToStandard(Encode(b)) == Digits(b)
    ensures |Encode(b)| == |Digits(b)|
  {
    TakeUntilPadding(b);
    ToStandardRestores(b);
  }

  /** The fewest '=' that bring a length of `n` up to a multiple of four. */
  function PadTo4(n: nat): (p: string)
    ensures |p| < 4 && (n + |p|) % 4 == 0
    ensures forall i :: 0 <= i < |p| ==> p[i] == '='
  {
    seq((4 - n % 4) % 4, _ => '=')
  }

  /** The padding by the length modulo four: none, "==" or "=". */
  lemma PadCases(n: nat)
    ensures n % 4 == 0 ==> PadTo4(n) == ""
    ensures n % 4 == 2 ==> PadTo4(n) == "=="
    ensures n % 4 == 3 ==> PadTo4(n) == "="
  {
  }

  /**
   * Decode appends the fewest '=' that make the length a multiple of four,
   * and hands the standard-alphabet text to the standard decoder.
   */
  lemma DecodePads(arg: string)
    requires |arg| % 4 != 1
    ensures Decode(arg) == Base64Decode(ToStandard(arg) + PadTo4(|arg|))
  {
    var s := ToStandard(arg);
    PadCases(|arg|);
    if |arg| % 4 == 0 {
      assert s + PadTo4(|arg|) == s;
    }
  }

  /** The digits, padded as Decode pads them, are the standard encoding. */
  lemma RepaddedDigits(b: seq<byte>)
    ensures Digits(b) + PadTo4(|Digits(b)|) == Base64Encode(b)
  {
    DigitCount(|b|);
    PadCases(|Digits(b)|);
  }

  /** Decode undoes Encode for every byte sequence. */
  lemma DecodeEncode(b: seq<byte>)
    ensures Decode(Encode(b)) == Ok(b)
  {
    var e := Encode(b);
    var d := Digits(b);
    EncodeDigits(b);
    DigitCount(|b|);
    assert |e| % 4 != 1;
    DecodePads(e);
    RepaddedDigits(b);
    Base64RoundTrip(b);
  }
}
