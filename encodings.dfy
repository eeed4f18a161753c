/**
 * The byte-order-mark classifier of the file packages and their number
 * reader.  The classifier reads up to four bytes from the stream into a
 * zeroed buffer and picks an encoding by the first matching signature:
 * UTF-7 (2B 2F 76), UTF-8 (EF BB BF, section 6 of RFC 3629), UTF-32
 * little-endian (FF FE 00 00), UTF-16 little-endian (FF FE, section 3.2 of
 * RFC 2781), UTF-16 big-endian (FE FF), UTF-32 big-endian (00 00 FE FF,
 * section 3.10 of The Unicode Standard); anything else is windows-1251.
 */
module TextEncodings {
  import opened Wrappers
  import opened Bytes

  datatype Encoding = Utf7 | Utf8 | Utf32LE | Utf16LE | Utf16BE | Utf32BE | Windows1251

  /** A readable stream of bytes with a position. */
  class ByteStream {
    var data: seq<byte>
    var position: nat

    ghost predicate Valid()
      reads this
    {
      position <= |data|
    }

    constructor(data: seq<byte>)
      ensures Valid() && this.data == data && position == 0
    {
      this.data := data;
      position := 0;
    }

    /**
     * Stream.Read: copies up to `count` bytes from the position into
     * `buffer` at `offset`, advances the position by the number copied and
     * returns it; the rest of the buffer is untouched.
     */
    method Read(buffer: array<byte>, offset: nat, count: nat) returns (n: nat)
      requires Valid() && offset + count <= buffer.Length
      modifies this, buffer
      ensures Valid() && data == old(data)
      ensures n == if count <= |data| - old(position) then count else |data| - old(position)
      ensures position == old(position) + n
      ensures buffer[..] == old(buffer[..offset]) + data[old(position)..position] + old(buffer[offset + n..])
    {
      n := if count <= |data| - position then count else |data| - position;
      for k := 0 to n
        invariant data == old(data) && position == old(position)
        invariant buffer[..offset] == old(buffer[..offset])
        invariant buffer[offset + n..] == old(buffer[offset + n..])
        invariant forall j :: offset <= j < offset + k ==> buffer[j] == data[position + (j - offset)]
      {
        buffer[offset + k] := data[position + k];
      }
      assert buffer[offset..offset + n] == data[position..position + n];
      assert buffer[..] == buffer[..offset] + buffer[offset..offset + n] + buffer[offset + n..];
      position := position + n;
    }
  }

  /** The decision chain on the four buffered bytes: the first matching signature wins. */
  function Classify(bom: seq<byte>): Encoding
    requires |bom| == 4
  {
    if bom[0] == 0x2b && bom[1] == 0x2f && bom[2] == 0x76 then Utf7
    else if bom[0] == 0xef && bom[1] == 0xbb && bom[2] == 0xbf then Utf8
    else if bom[0] == 0xff && bom[1] == 0xfe && bom[2] == 0 && bom[3] == 0 then Utf32LE
    else if bom[0] == 0xff && bom[1] == 0xfe then Utf16LE
    else if bom[0] == 0xfe && bom[1] == 0xff then Utf16BE
    else if bom[0] == 0 && bom[1] == 0 && bom[2] == 0xfe && bom[3] == 0xff then Utf32BE
    else Windows1251
  }

  /** The signature each encoding is recognised by; windows-1251 has none. */
  function Signature(e: Encoding): seq<byte>
  {
    match e
    case Utf7 => [0x2b, 0x2f, 0x76]
    case Utf8 => [0xef, 0xbb, 0xbf]
    case Utf32LE => [0xff, 0xfe, 0, 0]
    case Utf16LE => [0xff, 0xfe]
    case Utf16BE => [0xfe, 0xff]
    case Utf32BE => [0, 0, 0xfe, 0xff]
    case Windows1251 => []
  }

  /**
   * Every classification but the fallback is backed by its signature: the
   * buffer starts with the signature of the encoding chosen.
   */
  lemma ClassifiedBySignature(bom: seq<byte>)
    requires |bom| == 4
    ensures Classify(bom) != Windows1251 ==> Signature(Classify(bom)) <= bom
    ensures Classify(bom) == Utf16LE ==> !(bom[2] == 0 && bom[3] == 0)
  {
  }

  /**
   * Conversely every signature is recognised, whatever follows it, except
   * that FF FE followed by two zero bytes is taken for UTF-32 because that
   * rule is tested first.
   */
  lemma SignatureClassified(e: Encoding, bom: seq<byte>)
    requires |bom| == 4 && e != Windows1251 && Signature(e) <= bom
    ensures e == Utf16LE && bom[2] == 0 && bom[3] == 0 ==> Classify(bom) == Utf32LE
    ensures !(e == Utf16LE && bom[2] == 0 && bom[3] == 0) ==> Classify(bom) == e
  {
    assert bom[..|Signature(e)|] == Signature(e);
    assert |Signature(e)| >= 2;
    assert bom[0] == Signature(e)[0] && bom[1] == Signature(e)[1];
    if |Signature(e)| >= 3 {
      assert bom[2] == Signature(e)[2];
    }
    if |Signature(e)| == 4 {
      assert bom[3] == Signature(e)[3];
    }
  }

  /** The buffer GetEncoding2 classifies: what the stream still holds, up to four bytes, zero-filled. */
  function Peek(data: seq<byte>, position: nat): (bom: seq<byte>)
    requires position <= |data|
    ensures |bom| == 4
  {
    var n := if 4 <= |data| - position then 4 else |data| - position;
    data[position..position + n] + seq(4 - n, _ => 0)
  }

  /**
   * GetEncoding2: reads up to four bytes into a new zeroed buffer and
   * classifies them; the stream is left after the bytes read.
   */
  method GetEncoding2(stream: ByteStream) returns (e: Encoding)
    requires stream.Valid()
    modifies stream
    ensures stream.Valid() && stream.data == old(stream.data)
    ensures e == Classify(Peek(old(stream.data), old(stream.position)))
    ensures stream.position == if old(stream.position) + 4 <= |stream.data| then old(stream.position) + 4 else |stream.data|
  {
    var bom := new byte[4](_ => 0);
    ghost var zeros := bom[..];
    var n := stream.Read(bom, 0, 4);
    assert bom[..] == Peek(old(stream.data), old(stream.position)) by {
      assert zeros[..0] == [] && zeros[n..] == seq(4 - n, _ => 0);
    }
    e := Classify(bom[..]);
  }

  /**
   * A stream holding nothing but the UTF-16 little-endian mark leaves the two
   * last buffer bytes zero, so it is classified as UTF-32 little-endian.
   */
  lemma BareUtf16MarkReadsAsUtf32()
    ensures Classify(Peek([0xff, 0xfe], 0)) == Utf32LE
  {
    assert Peek([0xff, 0xfe], 0) == [0xff, 0xfe, 0, 0];
  }

  // ----- Numbers -----

  /** Replace(',', '.'): every comma becomes a decimal point. */
  function CommaToPoint(s: string): (r: string)
    ensures |r| == |s| && ',' !in r
    ensures forall i :: 0 <= i < |s| ==> r[i] == if s[i] == ',' then '.' else s[i]
  {
    seq(|s|, i requires 0 <= i < |s| => if s[i] == ',' then '.' else s[i])
  }

  /**
   * FilesBllExtensions.GetDouble: null or empty text is 0; otherwise the
   * text with commas as points is parsed (`parse` stands for double.TryParse
   * with the invariant culture and any number style), and 0 if that fails.
   */
  function GetDouble(val: Option<string>, parse: string -> Option<real>): (d: real)
    ensures val == None || val == Some("") ==> d == 0.0
    ensures val.Some? && val.value != "" ==>
              d == (if parse(CommaToPoint(val.value)).Some? then parse(CommaToPoint(val.value)).value else 0.0)
  {
    if val.None? || val.value == "" then 0.0
    else
      match parse(CommaToPoint(val.value))
      case Some(v) => v
      case None => 0.0
  }

  /** The exception Support.GetDouble raises on null text. */
  datatype NullReference = NullReference

  /**
   * Support.GetDouble: the same conversion without the null guard (so null
   * text raises) and with `parse` standing for the number style Number.
   */
  function SupportGetDouble(val: Option<string>, parse: string -> Option<real>): (r: Result<real, NullReference>)
    ensures val.None? <==> r.Err?
  {
    if val.None? then Err(NullReference)
    else
      match parse(CommaToPoint(val.value))
      case Some(v) => Ok(v)
      case None => Ok(0.0)
  }

  /** Replacing commas once is enough: the conversion reads "1,5" exactly as "1.5". */
  lemma GetDoubleCommaBlind(s: string, parse: string -> Option<real>)
    ensures GetDouble(Some(s), parse) == GetDouble(Some(CommaToPoint(s)), parse)
    ensures SupportGetDouble(Some(s), parse) == SupportGetDouble(Some(CommaToPoint(s)), parse)
  {
    assert CommaToPoint(CommaToPoint(s)) == CommaToPoint(s);
  }

  /**
   * The two conversions side by side: `parseAny` stands for the style Any of
   * FilesBllExtensions.GetDouble and `parseNumber` for the style Number of
   * Support.GetDouble, and Any reads every text Number reads, to the same
   * value. On non-null text they agree exactly when Number reads the text or
   * the Any reading is 0 anyway; on null one fails and the other gives 0.
   */
  lemma GetDoubleVariantsAgree(val: Option<string>, parseAny: string -> Option<real>, parseNumber: string -> Option<real>)
    requires parseNumber("") == None
    requires forall t :: parseNumber(t).Some? ==> parseAny(t) == parseNumber(t)
    ensures val.Some? ==>
              (SupportGetDouble(val, parseNumber) == Ok(GetDouble(val, parseAny)) <==>
               parseNumber(CommaToPoint(val.value)).Some? || GetDouble(val, parseAny) == 0.0)
    ensures val.None? ==> SupportGetDouble(val, parseNumber).Err? && GetDouble(val, parseAny) == 0.0
  {
    if val == Some("") {
      assert CommaToPoint("") == "";
    }
  }

  /** The preview limits of the file packages: 50 columns and 500 rows. */
  const ColumnsLimit: nat := 50
  const RowsLimit: nat := 500
}
