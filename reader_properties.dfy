/** Properties of the reader's state machine: terminal states are sticky,
    input exhaustion and the end-of-stream marker end a stream alike, the
    buffer-sharing mode is invisible in what a caller observes, and each
    kind of message in each position gets the outcome the reader promises. */
module ReaderProperties {
  import opened IpcTypes
  import opened Framing
  import opened ReaderSpec

  /** The results of `k` successive get_next calls. */
  function PullMany(s: ReaderState, input: seq<byte>, decode: MetadataDecoder, options: Options, k: nat): (r: seq<Pull<ArrowArray>>)
    requires Coherent(s)
    ensures |r| == k
    decreases k
  {
    if k == 0 then []
    else
      var p := GetNext(s, input, decode, options);
      [p] + PullMany(p.state, p.rest, decode, options, k - 1)
  }

  /** After the end of the stream every further get_next returns OK with no
      array and changes nothing, however often it is called. */
  lemma {:induction false} EndedIsTerminal(s: ReaderState, input: seq<byte>, decode: MetadataDecoder, options: Options, k: nat)
    requires Coherent(s) && s.phase == Ended
    ensures forall i :: 0 <= i < k ==> PullMany(s, input, decode, options, k)[i] == Pull(s, input, OK, None)
  {
    if k > 0 {
      EndedIsTerminal(s, input, decode, options, k - 1);
      assert GetNext(s, input, decode, options) == Pull(s, input, OK, None);
      assert PullMany(s, input, decode, options, k)
        == [Pull(s, input, OK, None)] + PullMany(s, input, decode, options, k - 1);
    }
  }

  /** After a failure every further get_next re-reports the same code and
      keeps the message, and get_schema does the same. */
  lemma {:induction false} ErroredIsTerminal(s: ReaderState, input: seq<byte>, decode: MetadataDecoder, options: Options, k: nat)
    requires Coherent(s) && s.phase == Errored
    ensures s.code != OK
    ensures GetSchema(s, input, decode, options) == Pull(s, input, s.code, None)
    ensures forall i :: 0 <= i < k ==> PullMany(s, input, decode, options, k)[i] == Pull(s, input, s.code, None)
  {
    if k > 0 {
      ErroredIsTerminal(s, input, decode, options, k - 1);
      assert GetNext(s, input, decode, options) == Pull(s, input, s.code, None);
      assert PullMany(s, input, decode, options, k)
        == [Pull(s, input, s.code, None)] + PullMany(s, input, decode, options, k - 1);
    }
  }

  /** Once the schema has been read, running out of input and reading the
      end-of-stream marker give the same result: OK, no array, stream ended. */
  lemma ExhaustionMatchesEndMarker(s: ReaderState, rest: seq<byte>, decode: MetadataDecoder, options: Options)
    requires Coherent(s) && s.phase == AwaitingBatchOrEnd
    ensures GetNext(s, [], decode, options) == Pull(s.(phase := Ended), [], OK, None)
    ensures GetNext(s, EncodePrefix(0) + rest, decode, options) == Pull(s.(phase := Ended), rest, OK, None)
  {
    var ended := Pull(s.(phase := Ended), [], OK, None);
    assert Frame([], decode) == Framed(InputExhausted, []);
    assert BatchPull(s, [], Framed(InputExhausted, []), options) == ended;
    assert NextBatch(s, [], decode, options) == ended;
    GetNextAfterSchema(s, [], decode, options);
    FrameEndOfStream(rest, decode);
    assert BatchPull(s, EncodePrefix(0) + rest, Framed(EndOfStream, rest), options) == ended.(rest := rest);
    assert NextBatch(s, EncodePrefix(0) + rest, decode, options) == ended.(rest := rest);
    GetNextAfterSchema(s, EncodePrefix(0) + rest, decode, options);
  }

  /** What a caller can observe of an array: its length and its bytes. */
  datatype ArrayContents = ArrayContents(length: nat, bytes: seq<byte>)

  function Observe(p: Pull<ArrowArray>): Pull<ArrayContents>
  {
    Pull(p.state, p.rest, p.code,
         match p.value
         case None => None
         case Some(a) => Some(ArrayContents(a.length, BufferBytes(a.buffer))))
  }

  /** Once the schema has been read, get_next is one batch pull. */
  lemma GetNextAfterSchema(s: ReaderState, input: seq<byte>, decode: MetadataDecoder, options: Options)
    requires Coherent(s) && s.phase == AwaitingBatchOrEnd
    ensures GetNext(s, input, decode, options) == NextBatch(s, input, decode, options)
  {
    assert GetSchema(s, input, decode, options) == Pull(s, input, OK, Some(ArrowSchema(StructFormat)));
  }

  /** The sharing mode changes only the kind of storage of a batch. */
  lemma NextBatchSharingInvisible(s: ReaderState, input: seq<byte>, decode: MetadataDecoder, options: Options, other: Options)
    requires Coherent(s) && s.phase == AwaitingBatchOrEnd
    requires other.fieldIndex == options.fieldIndex
    ensures Observe(NextBatch(s, input, decode, options)) == Observe(NextBatch(s, input, decode, other))
  {
    var f := Frame(input, decode);
    if f.outcome.Envelope? && f.outcome.header.kind == RecordBatch {
      assert NextBatch(s, input, decode, options) == ReadBody(s, f.outcome.header, f.rest, options);
      assert NextBatch(s, input, decode, other) == ReadBody(s, f.outcome.header, f.rest, other);
    }
  }

  /** Whether arrays share the message body or own a copy makes no
      difference to anything a caller of get_next observes. */
  lemma SharedBuffersInvisible(s: ReaderState, input: seq<byte>, decode: MetadataDecoder, options: Options)
    requires Coherent(s)
    ensures Observe(GetNext(s, input, decode, options))
         == Observe(GetNext(s, input, decode, options.(useSharedBuffers := !options.useSharedBuffers)))
  {
    var other := options.(useSharedBuffers := !options.useSharedBuffers);
    if s.phase == AwaitingSchema {
      var p := GetSchema(s, input, decode, options);
      assert GetSchema(s, input, decode, other) == p;
      if p.code == OK {
        NextBatchSharingInvisible(p.state, p.rest, decode, options, other);
      }
    } else if s.phase == AwaitingBatchOrEnd {
      GetNextAfterSchema(s, input, decode, options);
      GetNextAfterSchema(s, input, decode, other);
      NextBatchSharingInvisible(s, input, decode, options, other);
    }
  }

  /** Empty input: get_schema, and a get_next issued before it, fail with
      ENODATA, "No data available on stream". */
  lemma EmptyInputNoData(s: ReaderState, decode: MetadataDecoder, options: Options)
    requires Coherent(s) && s.phase == AwaitingSchema
    ensures GetSchema(s, [], decode, options) == Failed(s, ENODATA, NoDataMessage, [])
    ensures GetNext(s, [], decode, options) == Failed(s, ENODATA, NoDataMessage, [])
  {
    assert Frame([], decode) == Framed(InputExhausted, []);
    assert ReadSchema([], decode, options) == SchemaFailed(ENODATA, NoDataMessage, []);
    assert GetSchema(s, [], decode, options) == Failed(s, ENODATA, NoDataMessage, []);
  }

  /** Between one and seven bytes of input: get_schema fails with EINVAL,
      "Expected at least 8 bytes in remainder of stream". */
  lemma ShortInputRejected(s: ReaderState, input: seq<byte>, decode: MetadataDecoder, options: Options)
    requires Coherent(s) && s.phase == AwaitingSchema
    requires 0 < |input| < PrefixSize
    ensures GetSchema(s, input, decode, options) == Failed(s, EINVAL, PrefixMessage, [])
  {
    assert ReadSchema(input, decode, options) == SchemaFailed(EINVAL, PrefixMessage, []);
  }

  /** A first message that is a Schema message, with the default field
      index, is read whole: get_schema returns OK and the "+s" schema, and
      the reader waits for batches with the bytes after the message left. */
  lemma SchemaAccepted(s: ReaderState, metadata: seq<byte>, body: seq<byte>, rest: seq<byte>, decode: MetadataDecoder, options: Options)
    requires Coherent(s) && s.phase == AwaitingSchema
    requires 0 < |metadata| < UInt32Limit
    requires decode(metadata).Ok? && decode(metadata).value.kind == Schema
    requires decode(metadata).value.bodyLength == |body|
    requires options.fieldIndex == -1
    ensures GetSchema(s, EncodeMessage(metadata, body) + rest, decode, options)
      == Pull(ReaderState(AwaitingBatchOrEnd, Some(decode(metadata).value), OK, ""), rest, OK, Some(ArrowSchema(StructFormat)))
  {
    var input := EncodeMessage(metadata, body) + rest;
    assert input == EncodePrefix(|metadata|) + metadata + (body + rest);
    FrameEncoded(metadata, body + rest, decode);
    assert (body + rest)[|body|..] == rest;
  }

  /** A first message of any other kind: get_schema fails with EINVAL,
      "Unexpected message type at start of input (expected Schema)". */
  lemma NonSchemaFirstRejected(s: ReaderState, metadata: seq<byte>, rest: seq<byte>, decode: MetadataDecoder, options: Options)
    requires Coherent(s) && s.phase == AwaitingSchema
    requires 0 < |metadata| < UInt32Limit
    requires decode(metadata).Ok? && decode(metadata).value.kind != Schema
    ensures GetSchema(s, EncodePrefix(|metadata|) + metadata + rest, decode, options)
      == Failed(s, EINVAL, ExpectedSchemaMessage, rest)
  {
    FrameEncoded(metadata, rest, decode);
  }

  /** A field index other than -1: the reader is created, but the first
      get_schema on a Schema message fails with ENOTSUP,
      "Field index != -1 is not yet supported". */
  lemma FieldIndexUnsupported(s: ReaderState, metadata: seq<byte>, rest: seq<byte>, decode: MetadataDecoder, options: Options)
    requires Coherent(s) && s.phase == AwaitingSchema
    requires 0 < |metadata| < UInt32Limit
    requires decode(metadata).Ok? && decode(metadata).value.kind == Schema
    requires options.fieldIndex != -1
    ensures GetSchema(s, EncodePrefix(|metadata|) + metadata + rest, decode, options)
      == Failed(s, ENOTSUP, FieldIndexMessage, rest)
  {
    FrameEncoded(metadata, rest, decode);
  }

  /** A pull after the schema on an encoded RecordBatch message reads the
      body from the bytes after its metadata block. */
  lemma NextBatchEncoded(s: ReaderState, metadata: seq<byte>, tail: seq<byte>, decode: MetadataDecoder, options: Options)
    requires Coherent(s) && s.phase == AwaitingBatchOrEnd
    requires 0 < |metadata| < UInt32Limit
    requires decode(metadata).Ok? && decode(metadata).value.kind == RecordBatch
    ensures NextBatch(s, EncodePrefix(|metadata|) + metadata + tail, decode, options)
      == ReadBody(s, decode(metadata).value, tail, options)
  {
    FrameEncoded(metadata, tail, decode);
  }

  /** A RecordBatch message whose body is present is delivered as one array
      of its row count holding its body, and the reader stays ready for more. */
  lemma BatchDelivered(s: ReaderState, metadata: seq<byte>, body: seq<byte>, rest: seq<byte>, decode: MetadataDecoder, options: Options)
    requires Coherent(s) && s.phase == AwaitingBatchOrEnd
    requires 0 < |metadata| < UInt32Limit
    requires decode(metadata).Ok? && decode(metadata).value.kind == RecordBatch
    requires decode(metadata).value.bodyLength == |body|
    ensures GetNext(s, EncodeMessage(metadata, body) + rest, decode, options)
      == Pull(s, rest, OK, Some(MakeArray(decode(metadata).value, body, options.useSharedBuffers)))
  {
    var input := EncodeMessage(metadata, body) + rest;
    assert input == EncodePrefix(|metadata|) + metadata + (body + rest);
    GetNextAfterSchema(s, input, decode, options);
    NextBatchEncoded(s, metadata, body + rest, decode, options);
    assert (body + rest)[..|body|] == body;
    assert (body + rest)[|body|..] == rest;
  }

  /** A pull after the schema on an encoded message of another kind than
      RecordBatch fails without reading a body. */
  lemma NextBatchOnOtherKind(s: ReaderState, metadata: seq<byte>, rest: seq<byte>, decode: MetadataDecoder, options: Options)
    requires Coherent(s) && s.phase == AwaitingBatchOrEnd
    requires 0 < |metadata| < UInt32Limit
    requires decode(metadata).Ok? && decode(metadata).value.kind != RecordBatch
    ensures NextBatch(s, EncodePrefix(|metadata|) + metadata + rest, decode, options)
      == Failed(s, EINVAL, ExpectedRecordBatchMessage, rest)
  {
    FrameEncoded(metadata, rest, decode);
  }

  /** A message of another kind where a batch is expected: get_next fails
      with EINVAL, "Unexpected message type (expected RecordBatch)". */
  lemma NonBatchRejected(s: ReaderState, metadata: seq<byte>, rest: seq<byte>, decode: MetadataDecoder, options: Options)
    requires Coherent(s) && s.phase == AwaitingBatchOrEnd
    requires 0 < |metadata| < UInt32Limit
    requires decode(metadata).Ok? && decode(metadata).value.kind != RecordBatch
    ensures GetNext(s, EncodePrefix(|metadata|) + metadata + rest, decode, options)
      == Failed(s, EINVAL, ExpectedRecordBatchMessage, rest)
  {
    GetNextAfterSchema(s, EncodePrefix(|metadata|) + metadata + rest, decode, options);
    NextBatchOnOtherKind(s, metadata, rest, decode, options);
  }
}
