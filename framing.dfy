/** Message framing of the Arrow IPC streaming format ("Encapsulated message
    format" of the Arrow Columnar Format): every message starts with the
    continuation marker 0xFFFFFFFF and a little-endian 32-bit metadata
    length; a length of 0 is the end-of-stream marker. The metadata block
    itself is decoded by an external decoder, represented here by a function
    value that yields the message's kind, body length and row count. */
module Framing {
  import opened IpcTypes

  const UInt32Limit: nat := 0x1_0000_0000

  /** Size of the prefix in front of every message: marker plus length. */
  const PrefixSize: nat := 8

  const ContinuationMarker: seq<byte> := [0xFF, 0xFF, 0xFF, 0xFF]

  function EncodeUInt32LE(x: nat): (r: seq<byte>)
    requires x < UInt32Limit
    ensures |r| == 4
  {
    [(x % 0x100) as byte, (x / 0x100 % 0x100) as byte,
     (x / 0x1_0000 % 0x100) as byte, (x / 0x100_0000) as byte]
  }

  function DecodeUInt32LE(b: seq<byte>): (r: nat)
    requires |b| == 4
    ensures r < UInt32Limit
  {
    b[0] as nat + 0x100 * (b[1] as nat) + 0x1_0000 * (b[2] as nat) + 0x100_0000 * (b[3] as nat)
  }

  lemma DecodeEncodeUInt32(x: nat)
    requires x < UInt32Limit
    ensures DecodeUInt32LE(EncodeUInt32LE(x)) == x
  {
    var b := EncodeUInt32LE(x);
    assert x == x % 0x100 + 0x100 * (x / 0x100);
    assert x / 0x100 == x / 0x100 % 0x100 + 0x100 * (x / 0x1_0000);
    assert x / 0x1_0000 == x / 0x1_0000 % 0x100 + 0x100 * (x / 0x100_0000);
  }

  /** Splitting off the low byte of a number written as low + 256 * high.
      EncodeDecodeUInt32 uses it one byte at a time, which keeps that proof
      small for the solver on every random seed. */
  lemma LowByte(x: nat, low: nat, high: nat)
    requires low < 0x100 && x == low + 0x100 * high
    ensures x % 0x100 == low && x / 0x100 == high
  {
  }

  lemma EncodeDecodeUInt32(b: seq<byte>)
    requires |b| == 4
    ensures EncodeUInt32LE(DecodeUInt32LE(b)) == b
  {
    var x := DecodeUInt32LE(b);
    var hi2 := b[2] as nat + 0x100 * (b[3] as nat);
    var hi := b[1] as nat + 0x100 * hi2;
    LowByte(x, b[0] as nat, hi);
    LowByte(hi, b[1] as nat, hi2);
    LowByte(hi2, b[2] as nat, b[3] as nat);
    assert x / 0x1_0000 == hi2 by {
      assert x / 0x1_0000 == x / 0x100 / 0x100;
    }
    assert x / 0x100_0000 == b[3] as nat by {
      assert x / 0x100_0000 == hi2 / 0x100 by {
        assert x / 0x100_0000 == x / 0x1_0000 / 0x100;
      }
    }
  }

  /** The 8-byte prefix announcing a metadata block of `metadataLength` bytes. */
  function EncodePrefix(metadataLength: nat): (r: seq<byte>)
    requires metadataLength < UInt32Limit
    ensures |r| == PrefixSize && r[..4] == ContinuationMarker
  {
    ContinuationMarker + EncodeUInt32LE(metadataLength)
  }

  /** `prefix` is 8 bytes: the continuation marker and the little-endian
      encoding of `length`. */
  predicate Announces(prefix: seq<byte>, length: nat)
  {
    |prefix| == PrefixSize && prefix[..4] == ContinuationMarker && DecodeUInt32LE(prefix[4..]) == length
  }

  /** Announcing a length is being its encoded prefix. */
  lemma AnnouncesIffEncoded(prefix: seq<byte>, length: nat)
    requires length < UInt32Limit
    ensures Announces(prefix, length) <==> prefix == EncodePrefix(length)
  {
    var p := EncodePrefix(length);
    assert p[4..] == EncodeUInt32LE(length);
    DecodeEncodeUInt32(length);
    if Announces(prefix, length) {
      EncodeDecodeUInt32(prefix[4..]);
      assert prefix == prefix[..4] + prefix[4..];
    }
  }

  /** What the bytes obtained for a prefix (at most 8 of them) say. */
  datatype Prefix =
    | NoPrefix            // the source delivered nothing
    | TruncatedPrefix     // some, but fewer than 8, bytes
    | BadMarker           // 8 bytes not starting with the continuation marker
    | EndOfStreamMarker   // marker followed by a length of 0
    | MetadataLength(length: nat)

  function DecodePrefix(got: seq<byte>): (r: Prefix)
    requires |got| <= PrefixSize
    ensures r == NoPrefix <==> got == []
    ensures r == TruncatedPrefix <==> 0 < |got| < PrefixSize
    ensures r == BadMarker <==> |got| == PrefixSize && got[..4] != ContinuationMarker
    ensures r == EndOfStreamMarker <==> got == EncodePrefix(0)
    ensures r.MetadataLength? ==> 0 < r.length && Announces(got, r.length)
  {
    if |got| == 0 then NoPrefix
    else if |got| < PrefixSize then TruncatedPrefix
    else if got[..4] != ContinuationMarker then BadMarker
    else
      var length := DecodeUInt32LE(got[4..]);
      AnnouncesIffEncoded(got, 0);
      if length == 0 then EndOfStreamMarker else MetadataLength(length)
  }

  /** Decoding a prefix undoes encoding it; with the ensures of DecodePrefix
      this makes EncodePrefix and DecodePrefix inverse on 8-byte inputs. */
  lemma PrefixRoundTrip(metadataLength: nat)
    requires metadataLength < UInt32Limit
    ensures DecodePrefix(EncodePrefix(metadataLength))
      == if metadataLength == 0 then EndOfStreamMarker else MetadataLength(metadataLength)
  {
    var p := EncodePrefix(metadataLength);
    assert p[4..] == EncodeUInt32LE(metadataLength);
    DecodeEncodeUInt32(metadataLength);
  }

  datatype MessageKind = Schema | RecordBatch | DictionaryBatch

  /** What the external decoder reports about a metadata block: the kind of
      message, the number of body bytes that follow the metadata block, and
      (for a record batch) its number of rows. */
  datatype MessageHeader = MessageHeader(kind: MessageKind, bodyLength: nat, rowCount: nat)

  /** The external metadata-block decoder. */
  type MetadataDecoder = seq<byte> -> Result<MessageHeader>

  /** What framing one message off the input yields. */
  datatype FrameOutcome =
    | InputExhausted                 // no byte left at a message boundary
    | PrefixIncomplete               // fewer than 8 bytes left
    | MarkerMissing                  // 8 bytes without the continuation marker
    | EndOfStream                    // the end-of-stream marker
    | MetadataIncomplete             // fewer bytes left than the declared metadata length
    | MetadataInvalid(message: string)
    | Envelope(header: MessageHeader)

  /** The outcome together with the input left after framing. */
  datatype Framed = Framed(outcome: FrameOutcome, rest: seq<byte>)

  /** `consumed` is a prefix announcing L > 0 metadata bytes followed by
      exactly L metadata bytes that decode to `header`. */
  ghost predicate IsEnvelope(consumed: seq<byte>, header: MessageHeader, decode: MetadataDecoder)
  {
    && PrefixSize < |consumed|
    && Announces(consumed[..PrefixSize], |consumed| - PrefixSize)
    && decode(consumed[PrefixSize..]) == Ok(header)
  }

  /** `consumed` is one whole encapsulated message: an envelope whose header
      declares a body length, followed by exactly that many body bytes. */
  ghost predicate IsMessage(consumed: seq<byte>, header: MessageHeader, decode: MetadataDecoder)
  {
    |consumed| >= header.bodyLength && IsEnvelope(consumed[..|consumed| - header.bodyLength], header, decode)
  }

  /** Reads one prefix and, unless it ends the stream, the metadata block it
      announces, and hands the block to the decoder. The body is not read. */
  function Frame(input: seq<byte>, decode: MetadataDecoder): (r: Framed)
    ensures |r.rest| <= |input| && r.rest == input[|input| - |r.rest|..]
    ensures r.outcome == InputExhausted <==> input == []
    ensures r.outcome == PrefixIncomplete <==> 0 < |input| < PrefixSize
    ensures r.outcome == MarkerMissing <==> |input| >= PrefixSize && input[..4] != ContinuationMarker
    ensures r.outcome == EndOfStream <==> |input| >= PrefixSize && input[..PrefixSize] == EncodePrefix(0)
    ensures r.outcome == EndOfStream ==> r.rest == input[PrefixSize..]
    ensures r.outcome.Envelope? ==> IsEnvelope(input[..|input| - |r.rest|], r.outcome.header, decode)
  {
    var n := Min(PrefixSize, |input|);
    var rest := input[n..];
    assert input[..n][..Min(4, n)] == input[..Min(4, n)];
    match DecodePrefix(input[..n])
    case NoPrefix => Framed(InputExhausted, rest)
    case TruncatedPrefix => Framed(PrefixIncomplete, rest)
    case BadMarker => Framed(MarkerMissing, rest)
    case EndOfStreamMarker => Framed(EndOfStream, rest)
    case MetadataLength(length) =>
      if |rest| < length then Framed(MetadataIncomplete, [])
      else
        match decode(rest[..length])
        case Err(message) => Framed(MetadataInvalid(message), rest[length..])
        case Ok(header) =>
          assert input[..n + length][..n] == input[..n];
          assert input[..n + length][n..] == rest[..length];
          Framed(Envelope(header), rest[length..])
  }

  /** Framing an encoded message gives back what the decoder says about its
      metadata block and leaves exactly the bytes after that block. */
  lemma FrameEncoded(metadata: seq<byte>, rest: seq<byte>, decode: MetadataDecoder)
    requires 0 < |metadata| < UInt32Limit
    ensures Frame(EncodePrefix(|metadata|) + metadata + rest, decode) ==
      Framed(match decode(metadata)
             case Ok(header) => Envelope(header)
             case Err(message) => MetadataInvalid(message), rest)
  {
    var input := EncodePrefix(|metadata|) + metadata + rest;
    assert input[..PrefixSize] == EncodePrefix(|metadata|);
    PrefixRoundTrip(|metadata|);
    assert input[PrefixSize..][..|metadata|] == metadata;
    assert input[PrefixSize..][|metadata|..] == rest;
  }

  /** The end-of-stream marker is recognised whatever follows it. */
  lemma FrameEndOfStream(rest: seq<byte>, decode: MetadataDecoder)
    ensures Frame(EncodePrefix(0) + rest, decode) == Framed(EndOfStream, rest)
  {
    var input := EncodePrefix(0) + rest;
    assert input[..PrefixSize] == EncodePrefix(0);
    assert input[PrefixSize..] == rest;
  }

  /** An envelope followed by at least as many bytes as its header's body
      length: the envelope and that many bytes form a message, and the
      message ends with those bytes. */
  lemma EnvelopeThenBody(input: seq<byte>, rest: seq<byte>, header: MessageHeader, decode: MetadataDecoder)
    requires |rest| <= |input| && rest == input[|input| - |rest|..]
    requires IsEnvelope(input[..|input| - |rest|], header, decode)
    requires header.bodyLength <= |rest|
    ensures var consumed := input[..|input| - (|rest| - header.bodyLength)];
      && IsMessage(consumed, header, decode)
      && consumed[|consumed| - header.bodyLength..] == rest[..header.bodyLength]
  {
    var consumed := input[..|input| - (|rest| - header.bodyLength)];
    assert consumed[..|consumed| - header.bodyLength] == input[..|input| - |rest|];
  }

  /** An encapsulated message: prefix, metadata block, body. */
  function EncodeMessage(metadata: seq<byte>, body: seq<byte>): (r: seq<byte>)
    requires 0 < |metadata| < UInt32Limit
    ensures |r| == PrefixSize + |metadata| + |body|
  {
    EncodePrefix(|metadata|) + metadata + body
  }

  /** IsMessage holds of exactly the encoded messages: every encoding of a
      metadata block and a body of the declared length is a message, and
      every message is such an encoding. */
  lemma IsMessageIffEncoded(consumed: seq<byte>, header: MessageHeader, decode: MetadataDecoder)
    ensures IsMessage(consumed, header, decode) <==>
      && |consumed| >= PrefixSize + header.bodyLength
      && 0 < |consumed| - PrefixSize - header.bodyLength < UInt32Limit
      && var metadata := consumed[PrefixSize..|consumed| - header.bodyLength];
      && decode(metadata) == Ok(header)
      && consumed == EncodeMessage(metadata, consumed[|consumed| - header.bodyLength..])
  {
    if |consumed| >= PrefixSize + header.bodyLength && |consumed| > PrefixSize + header.bodyLength {
      var cut := |consumed| - header.bodyLength;
      var envelope := consumed[..cut];
      if cut - PrefixSize < UInt32Limit {
        AnnouncesIffEncoded(envelope[..PrefixSize], cut - PrefixSize);
      }
      var metadata := consumed[PrefixSize..cut];
      var body := consumed[cut..];
      assert envelope[..PrefixSize] == consumed[..PrefixSize];
      assert envelope[PrefixSize..] == metadata;
      assert consumed == consumed[..PrefixSize] + metadata + body;
    }
  }
}
