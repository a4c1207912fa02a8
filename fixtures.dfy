/** The messages the reader is exercised with: a Schema message for a
    struct with one field, a RecordBatch message of three rows, and the
    end-of-stream marker; and the behaviour of the state machine on the
    streams built from them. The metadata blocks are kept as bytes; what a
    metadata decoder reports about them is stated by DecodesFixtures. */
module Fixtures {
  import opened IpcTypes
  import opened Framing
  import opened ReaderSpec
  import opened ReaderProperties

  /** The flatbuffer metadata block of the Schema message. */
  const SimpleSchemaMetadata: seq<byte> := [
      0x10, 0x00, 0x00, 0x00, 0x00, 0x00, 0x0A, 0x00, 0x0E, 0x00, 0x06, 0x00, 0x05, 0x00,
      0x08, 0x00, 0x0A, 0x00, 0x00, 0x00, 0x00, 0x01, 0x04, 0x00, 0x10, 0x00, 0x00, 0x00,
      0x00, 0x00, 0x0A, 0x00, 0x0C, 0x00, 0x00, 0x00, 0x04, 0x00, 0x08, 0x00, 0x0A, 0x00,
      0x00, 0x00, 0x3C, 0x00, 0x00, 0x00, 0x04, 0x00, 0x00, 0x00, 0x01, 0x00, 0x00, 0x00,
      0x04, 0x00, 0x00, 0x00, 0x84, 0xFF, 0xFF, 0xFF, 0x18, 0x00, 0x00, 0x00, 0x04, 0x00,
      0x00, 0x00, 0x0A, 0x00, 0x00, 0x00, 0x73, 0x6F, 0x6D, 0x65, 0x5F, 0x76, 0x61, 0x6C,
      0x75, 0x65, 0x00, 0x00, 0x08, 0x00, 0x00, 0x00, 0x73, 0x6F, 0x6D, 0x65, 0x5F, 0x6B,
      0x65, 0x79, 0x00, 0x00, 0x00, 0x00, 0x01, 0x00, 0x00, 0x00, 0x18, 0x00, 0x00, 0x00,
      0x00, 0x00, 0x12, 0x00, 0x18, 0x00, 0x08, 0x00, 0x06, 0x00, 0x07, 0x00, 0x0C, 0x00,
      0x00, 0x00, 0x10, 0x00, 0x14, 0x00, 0x12, 0x00, 0x00, 0x00, 0x00, 0x00, 0x01, 0x02,
      0x14, 0x00, 0x00, 0x00, 0x70, 0x00, 0x00, 0x00, 0x08, 0x00, 0x00, 0x00, 0x18, 0x00,
      0x00, 0x00, 0x00, 0x00, 0x00, 0x00, 0x08, 0x00, 0x00, 0x00, 0x73, 0x6F, 0x6D, 0x65,
      0x5F, 0x63, 0x6F, 0x6C, 0x00, 0x00, 0x00, 0x00, 0x01, 0x00, 0x00, 0x00, 0x0C, 0x00,
      0x00, 0x00, 0x08, 0x00, 0x0C, 0x00, 0x04, 0x00, 0x08, 0x00, 0x08, 0x00, 0x00, 0x00,
      0x20, 0x00, 0x00, 0x00, 0x04, 0x00, 0x00, 0x00, 0x10, 0x00, 0x00, 0x00, 0x73, 0x6F,
      0x6D, 0x65, 0x5F, 0x76, 0x61, 0x6C, 0x75, 0x65, 0x5F, 0x66, 0x69, 0x65, 0x6C, 0x64,
      0x00, 0x00, 0x00, 0x00, 0x0E, 0x00, 0x00, 0x00, 0x73, 0x6F, 0x6D, 0x65, 0x5F, 0x6B,
      0x65, 0x79, 0x5F, 0x66, 0x69, 0x65, 0x6C, 0x64, 0x00, 0x00, 0x08, 0x00, 0x0C, 0x00,
      0x08, 0x00, 0x07, 0x00, 0x08, 0x00, 0x00, 0x00, 0x00, 0x00, 0x00, 0x01, 0x20, 0x00,
      0x00, 0x00, 0x00, 0x00, 0x00, 0x00]

  /** The flatbuffer metadata block of the RecordBatch message. */
  const SimpleRecordBatchMetadata: seq<byte> := [
      0x14, 0x00, 0x00, 0x00, 0x00, 0x00, 0x00, 0x00, 0x0C, 0x00, 0x16, 0x00, 0x06, 0x00,
      0x05, 0x00, 0x08, 0x00, 0x0C, 0x00, 0x0C, 0x00, 0x00, 0x00, 0x00, 0x03, 0x04, 0x00,
      0x18, 0x00, 0x00, 0x00, 0x10, 0x00, 0x00, 0x00, 0x00, 0x00, 0x00, 0x00, 0x00, 0x00,
      0x0A, 0x00, 0x18, 0x00, 0x0C, 0x00, 0x04, 0x00, 0x08, 0x00, 0x0A, 0x00, 0x00, 0x00,
      0x3C, 0x00, 0x00, 0x00, 0x10, 0x00, 0x00, 0x00, 0x03, 0x00, 0x00, 0x00, 0x00, 0x00,
      0x00, 0x00, 0x00, 0x00, 0x00, 0x00, 0x02, 0x00, 0x00, 0x00, 0x00, 0x00, 0x00, 0x00,
      0x00, 0x00, 0x00, 0x00, 0x00, 0x00, 0x00, 0x00, 0x00, 0x00, 0x00, 0x00, 0x00, 0x00,
      0x00, 0x00, 0x00, 0x00, 0x00, 0x00, 0x0C, 0x00, 0x00, 0x00, 0x00, 0x00, 0x00, 0x00,
      0x00, 0x00, 0x00, 0x00, 0x01, 0x00, 0x00, 0x00, 0x03, 0x00, 0x00, 0x00, 0x00, 0x00,
      0x00, 0x00, 0x00, 0x00, 0x00, 0x00, 0x00, 0x00, 0x00, 0x00]

  /** The 16-byte body of the RecordBatch message: the column's values. */
  const SimpleRecordBatchBody: seq<byte> := [
      0x01, 0x00, 0x00, 0x00, 0x02, 0x00, 0x00, 0x00, 0x03, 0x00, 0x00, 0x00, 0x00, 0x00,
      0x00, 0x00]

  /** The Schema message as it appears on the wire. */
  const SimpleSchema: seq<byte> := [0xFF, 0xFF, 0xFF, 0xFF, 0x10, 0x01, 0x00, 0x00] + SimpleSchemaMetadata

  /** The RecordBatch message as it appears on the wire. */
  const SimpleRecordBatch: seq<byte> :=
    [0xFF, 0xFF, 0xFF, 0xFF, 0x88, 0x00, 0x00, 0x00] + SimpleRecordBatchMetadata + SimpleRecordBatchBody

  const EndOfStreamBytes: seq<byte> := [0xFF, 0xFF, 0xFF, 0xFF, 0x00, 0x00, 0x00, 0x00]

  /** What a metadata decoder reports about the two metadata blocks: a
      Schema message without body, and a RecordBatch message with a 16-byte
      body and three rows. */
  ghost predicate DecodesFixtures(decode: MetadataDecoder)
  {
    && decode(SimpleSchemaMetadata) == Ok(MessageHeader(Schema, 0, 0))
    && decode(SimpleRecordBatchMetadata) == Ok(MessageHeader(RecordBatch, 16, 3))
  }

  /** The metadata blocks have the lengths their prefixes announce. */
  lemma FixtureLengths()
    ensures |SimpleSchemaMetadata| == 0x110 && |SimpleRecordBatchMetadata| == 0x88
    ensures |SimpleSchema| == 280 && |SimpleRecordBatch| == 160
  {
  }

  /** The Schema fixture is a prefix announcing 0x110 metadata bytes
      followed by its metadata block. */
  lemma SchemaFixtureFramed()
    ensures |SimpleSchemaMetadata| == 0x110
    ensures SimpleSchema == EncodePrefix(|SimpleSchemaMetadata|) + SimpleSchemaMetadata
  {
    FixtureLengths();
    assert EncodePrefix(0x110) == [0xFF, 0xFF, 0xFF, 0xFF, 0x10, 0x01, 0x00, 0x00];
  }

  /** The RecordBatch fixture is a prefix announcing 0x88 metadata bytes,
      its metadata block and its 16-byte body. */
  lemma BatchFixtureFramed()
    ensures |SimpleRecordBatchMetadata| == 0x88 && |SimpleRecordBatchBody| == 16
    ensures SimpleRecordBatch == EncodePrefix(|SimpleRecordBatchMetadata|) + SimpleRecordBatchMetadata + SimpleRecordBatchBody
  {
    FixtureLengths();
    assert EncodePrefix(0x88) == [0xFF, 0xFF, 0xFF, 0xFF, 0x88, 0x00, 0x00, 0x00];
  }

  /** The fixtures are well-framed messages: a Schema message without a
      body, a RecordBatch message with a 16-byte body, and the end-of-stream
      marker. */
  lemma FixturesAreMessages()
    ensures SimpleSchema == EncodeMessage(SimpleSchemaMetadata, [])
    ensures SimpleRecordBatch == EncodeMessage(SimpleRecordBatchMetadata, SimpleRecordBatchBody)
    ensures EndOfStreamBytes == EncodePrefix(0)
  {
    SchemaFixtureFramed();
    BatchFixtureFramed();
    assert EncodePrefix(0) == EndOfStreamBytes;
    assert EncodePrefix(0x110) + SimpleSchemaMetadata + [] == EncodePrefix(0x110) + SimpleSchemaMetadata;
  }

  /** The prefixes decode to the announced lengths and to the end marker. */
  lemma FixturePrefixes()
    ensures DecodePrefix(SimpleSchema[..PrefixSize]) == MetadataLength(0x110)
    ensures DecodePrefix(SimpleRecordBatch[..PrefixSize]) == MetadataLength(0x88)
    ensures DecodePrefix(EndOfStreamBytes) == EndOfStreamMarker
  {
    FixtureLengths();
    assert SimpleSchema[..PrefixSize] == EncodePrefix(0x110);
    assert SimpleRecordBatch[..PrefixSize] == EncodePrefix(0x88);
    PrefixRoundTrip(0x110);
    PrefixRoundTrip(0x88);
    PrefixRoundTrip(0);
  }

  /** The reader's state once the fixture Schema message has been read. */
  const AfterSchema: ReaderState := ReaderState(AwaitingBatchOrEnd, Some(MessageHeader(Schema, 0, 0)), OK, "")

  /** The Schema message followed by the RecordBatch message, with or
      without the end-of-stream marker, and with shared buffers or not:
      get_schema returns OK and a "+s" schema and leaves the RecordBatch
      message on the stream. */
  lemma SimpleStreamSchema(s: ReaderState, tail: seq<byte>, decode: MetadataDecoder, options: Options)
    requires Coherent(s) && s.phase == AwaitingSchema
    requires DecodesFixtures(decode) && options.fieldIndex == -1
    ensures GetSchema(s, SimpleSchema + SimpleRecordBatch + tail, decode, options)
      == Pull(AfterSchema, SimpleRecordBatch + tail, OK, Some(ArrowSchema(StructFormat)))
  {
    FixtureLengths();
    FixturesAreMessages();
    assert SimpleSchema + SimpleRecordBatch + tail == EncodeMessage(SimpleSchemaMetadata, []) + (SimpleRecordBatch + tail);
    SchemaAccepted(s, SimpleSchemaMetadata, [], SimpleRecordBatch + tail, decode, options);
  }

  /** Two Schema messages: the first is read as the schema, and the second
      is rejected where a batch is expected, with EINVAL and "Unexpected
      message type (expected RecordBatch)". */
  lemma SchemaTwice(s: ReaderState, decode: MetadataDecoder, options: Options)
    requires Coherent(s) && s.phase == AwaitingSchema
    requires DecodesFixtures(decode) && options.fieldIndex == -1
    ensures GetSchema(s, SimpleSchema + SimpleSchema, decode, options)
      == Pull(AfterSchema, SimpleSchema, OK, Some(ArrowSchema(StructFormat)))
    ensures GetNext(AfterSchema, SimpleSchema, decode, options)
      == Failed(AfterSchema, EINVAL, ExpectedRecordBatchMessage, [])
  {
    FixturesAreMessages();
    SchemaAccepted(s, SimpleSchemaMetadata, [], SimpleSchema, decode, options);
    SchemaFixtureFramed();
    assert SimpleSchema == EncodePrefix(|SimpleSchemaMetadata|) + SimpleSchemaMetadata + [];
    NonBatchRejected(AfterSchema, SimpleSchemaMetadata, [], decode, options);
  }

  /** A RecordBatch message first, whatever follows it: get_schema fails
      with EINVAL and "Unexpected message type at start of input (expected
      Schema)". */
  lemma BatchFirst(s: ReaderState, following: seq<byte>, decode: MetadataDecoder, options: Options)
    requires Coherent(s) && s.phase == AwaitingSchema
    requires DecodesFixtures(decode)
    ensures GetSchema(s, SimpleRecordBatch + following, decode, options)
      == Failed(s, EINVAL, ExpectedSchemaMessage, SimpleRecordBatchBody + following)
  {
    BatchFixtureFramed();
    assert SimpleRecordBatch + following
      == EncodePrefix(|SimpleRecordBatchMetadata|) + SimpleRecordBatchMetadata + (SimpleRecordBatchBody + following);
    NonSchemaFirstRejected(s, SimpleRecordBatchMetadata, SimpleRecordBatchBody + following, decode, options);
  }

  /** Field index 0: get_schema on the fixture stream fails with ENOTSUP and
      "Field index != -1 is not yet supported". */
  lemma FieldIndexZero(s: ReaderState, decode: MetadataDecoder, options: Options)
    requires Coherent(s) && s.phase == AwaitingSchema
    requires DecodesFixtures(decode) && options.fieldIndex == 0
    ensures GetSchema(s, SimpleSchema + SimpleRecordBatch, decode, options)
      == Failed(s, ENOTSUP, FieldIndexMessage, SimpleRecordBatch)
  {
    SchemaFixtureFramed();
    assert SimpleSchema + SimpleRecordBatch
      == EncodePrefix(|SimpleSchemaMetadata|) + SimpleSchemaMetadata + SimpleRecordBatch;
    FieldIndexUnsupported(s, SimpleSchemaMetadata, SimpleRecordBatch, decode, options);
  }
}
