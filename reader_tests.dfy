/** The reader's test scenarios replayed on the objects: each method builds
    the input the way the tests do (appending to a buffer, handing it to a
    memory input stream or wrapping a file, creating the reader) and makes
    the calls they make; its postcondition states the results the tests
    expect. */
module ReaderTests {
  import opened IpcTypes
  import opened Framing
  import opened InputStreams
  import opened ReaderSpec
  import opened ReaderProperties
  import opened StreamReader
  import opened Fixtures

  /** Five reads from a stream over the bytes 1..5 into a buffer of 0xFF:
      two, two and one byte arrive in order, and a read into no destination
      and a read of no bytes at the end deliver nothing. Returns the sizes
      read and the destination after each of the first three reads. */
  method ReadFiveBytes(stream: InputStream) returns (sizes: seq<nat>, snapshots: seq<seq<byte>>)
    requires stream.Valid() && !stream.released && stream.Remaining() == [1, 2, 3, 4, 5]
    modifies stream
    ensures sizes == [2, 2, 1, 0, 0]
    ensures snapshots == [[1, 2, 0xFF, 0xFF, 0xFF], [1, 2, 3, 4, 0xFF], [1, 2, 3, 4, 5]]
    ensures stream.Valid() && stream.Remaining() == [] && !stream.released
  {
    var output := new byte[5](_ => 0xFF);
    var a := stream.Read(output, 0, 2);
    var first := output[..];
    assert first == [1, 2, 0xFF, 0xFF, 0xFF] by {
      assert forall k :: 0 <= k < 5 ==> first[k] == [1, 2, 0xFF, 0xFF, 0xFF][k];
    }
    var b := stream.Read(output, 2, 2);
    var second := output[..];
    assert second == [1, 2, 3, 4, 0xFF] by {
      assert forall k :: 0 <= k < 5 ==> second[k] == [1, 2, 3, 4, 0xFF][k];
    }
    var c := stream.Read(output, 4, 2);
    var third := output[..];
    assert third == [1, 2, 3, 4, 5] by {
      assert forall k :: 0 <= k < 5 ==> third[k] == [1, 2, 3, 4, 5][k];
    }
    var d := stream.Read(null, 0, 2);
    var e := stream.Read(null, 0, 0);
    sizes := [a, b, c, d, e];
    snapshots := [first, second, third];
  }

  /** A memory input stream takes the caller's buffer over, leaving its
      data pointer null, and serves the reads of ReadFiveBytes. */
  method InputStreamBuffer() returns (callerDataNull: bool, sizes: seq<nat>, snapshots: seq<seq<byte>>)
    ensures callerDataNull
    ensures sizes == [2, 2, 1, 0, 0]
    ensures snapshots == [[1, 2, 0xFF, 0xFF, 0xFF], [1, 2, 3, 4, 0xFF], [1, 2, 3, 4, 5]]
  {
    var input := new ArrowBuffer.Init();
    input.Append([1, 2, 3, 4, 5]);
    var stream := new InputStream.InitBuffer(input);
    callerDataNull := input.data == null;
    sizes, snapshots := ReadFiveBytes(stream);
    stream.Release();
  }

  /** A file input stream over a file holding the bytes 1..5 serves the
      same reads. */
  method InputStreamFile() returns (sizes: seq<nat>, snapshots: seq<seq<byte>>)
    ensures sizes == [2, 2, 1, 0, 0]
    ensures snapshots == [[1, 2, 0xFF, 0xFF, 0xFF], [1, 2, 3, 4, 0xFF], [1, 2, 3, 4, 5]]
  {
    var stream := new InputStream.InitFile([1, 2, 3, 4, 5], true);
    sizes, snapshots := ReadFiveBytes(stream);
    stream.Release();
  }

  /** A reader over a memory input stream holding `bytes`. */
  method ReaderOver(bytes: seq<byte>, decode: MetadataDecoder, options: Option<Options>) returns (reader: ArrayStreamReader)
    ensures fresh(reader) && fresh(reader.input) && reader.Valid()
    ensures Coherent(reader.State()) && reader.State().phase == AwaitingSchema
    ensures reader.input.Remaining() == bytes
    ensures reader.decode == decode
    ensures reader.options == if options.Some? then options.value else DefaultOptions
  {
    var buffer := new ArrowBuffer.Init();
    buffer.Append(bytes);
    var input := new InputStream.InitBuffer(buffer);
    reader := new ArrayStreamReader.Init(input, decode, options);
  }

  /** get_schema on the fixture stream. */
  method ReadSimpleSchema(reader: ArrayStreamReader, tail: seq<byte>) returns (schemaCode: Code, schema: Option<ArrowSchema>)
    requires reader.Valid() && Coherent(reader.State()) && reader.State().phase == AwaitingSchema
    requires reader.input.Remaining() == SimpleSchema + SimpleRecordBatch + tail
    requires DecodesFixtures(reader.decode) && reader.options.fieldIndex == -1
    requires tail == [] || tail == EndOfStreamBytes
    modifies reader, reader.input
    ensures reader.Valid() && reader.State() == AfterSchema && reader.input.Remaining() == SimpleRecordBatch + tail
    ensures schemaCode == OK && schema == Some(ArrowSchema("+s"))
  {
    SimpleStreamSchema(reader.State(), tail, reader.decode, reader.options);
    schemaCode, schema := reader.GetSchema();
  }

  /** get_next on a stream that starts with a RecordBatch message hands out
      the batch and leaves what follows it. */
  method TakeBatch(reader: ArrayStreamReader, metadata: seq<byte>, body: seq<byte>, tail: seq<byte>)
    returns (code: Code, batch: Option<ArrowArray>)
    requires reader.Valid() && Coherent(reader.State()) && reader.State().phase == AwaitingBatchOrEnd
    requires 0 < |metadata| < UInt32Limit
    requires reader.decode(metadata).Ok? && reader.decode(metadata).value.kind == RecordBatch
    requires reader.decode(metadata).value.bodyLength == |body|
    requires reader.input.Remaining() == EncodeMessage(metadata, body) + tail
    modifies reader, reader.input
    ensures reader.Valid() && reader.State() == old(reader.State()) && reader.input.Remaining() == tail
    ensures code == OK && batch == Some(MakeArray(reader.decode(metadata).value, body, reader.options.useSharedBuffers))
  {
    BatchDelivered(reader.State(), metadata, body, tail, reader.decode, reader.options);
    code, batch := reader.GetNext();
  }

  /** get_next at the end of the input or at the end-of-stream marker:
      OK, no array, and the stream has ended. */
  method PullAtEnd(reader: ArrayStreamReader, tail: seq<byte>) returns (code: Code, batch: Option<ArrowArray>)
    requires reader.Valid() && Coherent(reader.State()) && reader.State().phase == AwaitingBatchOrEnd
    requires reader.input.Remaining() == tail
    requires tail == [] || tail == EncodePrefix(0)
    modifies reader, reader.input
    ensures reader.Valid() && reader.State() == old(reader.State()).(phase := Ended)
    ensures code == OK && batch == None
  {
    ghost var s := reader.State();
    ExhaustionMatchesEndMarker(s, [], reader.decode, reader.options);
    if tail != [] {
      assert tail == EncodePrefix(0) + [];
    }
    assert ReaderSpec.GetNext(s, tail, reader.decode, reader.options) == Pull(s.(phase := Ended), [], OK, None);
    code, batch := reader.GetNext();
  }

  /** get_next once the stream has ended: OK and no array again. */
  method PullAfterEnd(reader: ArrayStreamReader) returns (code: Code, batch: Option<ArrowArray>)
    requires reader.Valid() && reader.State().phase == Ended
    modifies reader, reader.input
    ensures reader.Valid() && reader.State() == old(reader.State())
    ensures code == OK && batch == None
  {
    code, batch := reader.GetNext();
  }

  /** The get_next calls after the schema on the fixture stream. */
  method ReadSimpleBatches(reader: ArrayStreamReader, tail: seq<byte>) returns (codes: seq<Code>, arrays: seq<Option<ArrowArray>>)
    requires reader.Valid() && Coherent(reader.State()) && reader.State().phase == AwaitingBatchOrEnd
    requires reader.input.Remaining() == SimpleRecordBatch + tail
    requires DecodesFixtures(reader.decode)
    requires tail == [] || tail == EndOfStreamBytes
    modifies reader, reader.input
    ensures reader.Valid()
    ensures codes == [OK, OK, OK] && |arrays| == 3
    ensures arrays[0] == Some(MakeArray(MessageHeader(RecordBatch, 16, 3), SimpleRecordBatchBody, reader.options.useSharedBuffers))
    ensures arrays[1] == None && arrays[2] == None
  {
    FixtureLengths();
    FixturesAreMessages();
    var code, batch := TakeBatch(reader, SimpleRecordBatchMetadata, SimpleRecordBatchBody, tail);
    var endCode, end := PullAtEnd(reader, tail);
    var laterCode, later := PullAfterEnd(reader);
    codes := [code, endCode, laterCode];
    arrays := [batch, end, later];
  }

  /** The Schema message and the RecordBatch message, read with the default
      options, with shared buffers switched off, or with the end-of-stream
      marker appended: get_schema gives OK and a "+s" schema, the first
      get_next OK and an array of length 3 holding the body, and every later
      get_next OK and no array. */
  method StreamReaderBasic(decode: MetadataDecoder, options: Option<Options>, withEndOfStream: bool)
    returns (schemaCode: Code, schema: Option<ArrowSchema>, codes: seq<Code>, arrays: seq<Option<ArrowArray>>)
    requires DecodesFixtures(decode)
    requires options.Some? ==> options.value.fieldIndex == -1
    ensures schemaCode == OK && schema == Some(ArrowSchema("+s"))
    ensures codes == [OK, OK, OK] && |arrays| == 3
    ensures arrays[0].Some? && arrays[0].value.length == 3
    ensures BufferBytes(arrays[0].value.buffer) == SimpleRecordBatchBody
    ensures arrays[1] == None && arrays[2] == None
  {
    var tail := if withEndOfStream then EndOfStreamBytes else [];
    var reader := ReaderOver(SimpleSchema + SimpleRecordBatch + tail, decode, options);
    schemaCode, schema := ReadSimpleSchema(reader, tail);
    codes, arrays := ReadSimpleBatches(reader, tail);
    reader.Release();
  }

  /** Two Schema messages: get_schema succeeds, get_next fails with EINVAL
      and get_last_error names the unexpected message type. */
  method StreamReaderExpectedRecordBatch(decode: MetadataDecoder)
    returns (schemaCode: Code, nextCode: Code, lastError: string)
    requires DecodesFixtures(decode)
    ensures schemaCode == OK && nextCode == EINVAL
    ensures lastError == "Unexpected message type (expected RecordBatch)"
  {
    var reader := ReaderOver(SimpleSchema + SimpleSchema, decode, None);
    SchemaTwice(reader.State(), decode, DefaultOptions);
    var schema;
    schemaCode, schema := reader.GetSchema();
    var batch;
    nextCode, batch := reader.GetNext();
    lastError := reader.GetLastError();
    reader.Release();
  }

  /** A RecordBatch message first (followed by `following`, whatever it
      holds): get_schema fails with EINVAL and get_last_error says that a
      Schema message was expected. */
  method StreamReaderExpectedSchema(decode: MetadataDecoder, following: seq<byte>)
    returns (schemaCode: Code, lastError: string)
    requires DecodesFixtures(decode)
    ensures schemaCode == EINVAL
    ensures lastError == "Unexpected message type at start of input (expected Schema)"
  {
    var reader := ReaderOver(SimpleRecordBatch + following, decode, None);
    BatchFirst(reader.State(), following, decode, DefaultOptions);
    var schema;
    schemaCode, schema := reader.GetSchema();
    lastError := reader.GetLastError();
    reader.Release();
  }

  /** Field index 0: the reader is created, and get_schema fails with
      ENOTSUP and the unsupported-field-index message. */
  method StreamReaderUnsupportedFieldIndex(decode: MetadataDecoder)
    returns (schemaCode: Code, lastError: string)
    requires DecodesFixtures(decode)
    ensures schemaCode == ENOTSUP
    ensures lastError == "Field index != -1 is not yet supported"
  {
    var reader := ReaderOver(SimpleSchema + SimpleRecordBatch, decode, Some(Options(0, false)));
    FieldIndexZero(reader.State(), decode, Options(0, false));
    var schema;
    schemaCode, schema := reader.GetSchema();
    lastError := reader.GetLastError();
    reader.Release();
  }

  /** No input at all: get_schema fails with ENODATA. */
  method StreamReaderEmptyInput(decode: MetadataDecoder) returns (schemaCode: Code, lastError: string)
    ensures schemaCode == ENODATA
    ensures lastError == "No data available on stream"
  {
    var reader := ReaderOver([], decode, None);
    EmptyInputNoData(reader.State(), decode, DefaultOptions);
    var schema;
    schemaCode, schema := reader.GetSchema();
    lastError := reader.GetLastError();
    reader.Release();
  }

  /** A single byte of input: get_schema fails with EINVAL because fewer
      than 8 bytes are left for the prefix. */
  method StreamReaderIncompletePrefix(decode: MetadataDecoder) returns (schemaCode: Code, lastError: string)
    ensures schemaCode == EINVAL
    ensures lastError == "Expected at least 8 bytes in remainder of stream"
  {
    var reader := ReaderOver([0x00], decode, None);
    ShortInputRejected(reader.State(), [0x00], decode, DefaultOptions);
    var schema;
    schemaCode, schema := reader.GetSchema();
    lastError := reader.GetLastError();
    reader.Release();
  }
}
