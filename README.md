# nanoarrow IPC stream reader — a Dafny model

This project models the reading side of nanoarrow's Arrow IPC extension,
as its reader tests in
`extensions/nanoarrow_ipc/src/nanoarrow/nanoarrow_ipc_reader_test.cc`
exercise it.

- **Input streams** (`input_stream.dfy`). An input stream is a pull source
  of bytes. It can take over a caller's `ArrowBuffer`, which leaves the
  caller's data pointer null, or it can wrap a file. `read` delivers
  min(n, remaining) bytes. A null destination skips bytes, and a zero-byte
  request is allowed. The reader fills each request with a retry loop
  (`ReadFully`), because a stream may return fewer bytes than asked.
- **Message framing** (`framing.dfy`). This is the encapsulated message
  format of the Arrow Columnar Format. A message starts with the
  continuation marker `0xFFFFFFFF`. A little-endian 32-bit metadata length
  follows, then the metadata block and the body. A length of 0 is the
  end-of-stream marker. The flatbuffer metadata is decoded by an external
  decoder. Here that decoder is a function value, which reports the
  message kind, the body length and the row count.
- **The pull state machine** (`reader_spec.dfy`). get_schema and get_next
  are pure functions of the reader's state and of the bytes left on the
  stream. The first pull must consume exactly one Schema message. Every
  later pull consumes one RecordBatch message, or ends the stream at the
  end-of-stream marker or at exhaustion of the input. Failures are
  terminal: they keep their errno-style code (EINVAL, ENOTSUP, ENODATA)
  and message, which get_last_error returns.
- **The reader object** (`stream_reader.dfy`). The class
  `ArrayStreamReader` owns an input stream. It reads each prefix and metadata
  block, and each RecordBatch body, into freshly allocated arrays; the body
  of the Schema message is skipped without being stored. Each of its methods is
  proved to change the object and the stream exactly as the state machine
  says.
- **Properties** (`reader_properties.dfy`). These are proved for all
  inputs:
  - Ended and Errored are sticky.
  - Exhaustion of the input and the end-of-stream marker behave the same.
  - Sharing the body buffers or copying them cannot be observed.
  - Each message kind in each position gets the promised outcome.
- **Fixtures and scenarios** (`fixtures.dfy`, `reader_tests.dfy`). These
  hold the test byte arrays and the tests replayed on the objects. The
  postconditions of the replayed tests are the values the tests expect.

## Model

| member | source | states |
|---|---|---|
| InputStreams.ArrowBuffer.Init | extensions/nanoarrow_ipc/src/nanoarrow/nanoarrow_ipc_reader_test.cc:65 | a new buffer holds no bytes and has a null data pointer |
| InputStreams.ArrowBuffer.Append | extensions/nanoarrow_ipc/src/nanoarrow/nanoarrow_ipc_reader_test.cc:63-66 | the buffer afterwards holds its old contents followed by the appended bytes |
| InputStreams.InputStream.InitBuffer | extensions/nanoarrow_ipc/src/nanoarrow/nanoarrow_ipc_reader_test.cc:72-73 | the stream will deliver exactly the buffer's old contents; the caller's buffer is left empty with a null data pointer |
| InputStreams.InputStream.InitFile | extensions/nanoarrow_ipc/src/nanoarrow/nanoarrow_ipc_reader_test.cc:103-113 | the stream will deliver exactly the file's contents from the current position; the close-on-release flag is recorded |
| InputStreams.InputStream.Read | extensions/nanoarrow_ipc/src/nanoarrow/nanoarrow_ipc_reader_test.cc:75-97 | exactly min(n, remaining) bytes are delivered, in order, at `dest[offset..]`; every other destination byte is unchanged; the stream advances by that many bytes; a null destination only skips them |
| InputStreams.InputStream.Release | extensions/nanoarrow_ipc/src/nanoarrow/nanoarrow_ipc_reader_test.cc:99 | the stream is released and delivers nothing more |
| InputStreams.ReadFully | extensions/nanoarrow_ipc/src/nanoarrow/nanoarrow_ipc_reader_test.cc:151-164 | repeating reads until the request is filled or a read returns 0 gives min(n, remaining) bytes: they sit at the front of the destination, the rest of the destination is unchanged, and the stream advances by exactly that many bytes |
| Framing.DecodeEncodeUInt32 | extensions/nanoarrow_ipc/src/nanoarrow/nanoarrow_ipc_reader_test.cc:46-47 | decoding the little-endian 4-byte encoding of a 32-bit length gives the length back |
| Framing.EncodeDecodeUInt32 | extensions/nanoarrow_ipc/src/nanoarrow/nanoarrow_ipc_reader_test.cc:46-47 | encoding the decoded value of any 4 bytes gives the same 4 bytes |
| Framing.EncodePrefix | extensions/nanoarrow_ipc/src/nanoarrow/nanoarrow_ipc_reader_test.cc:46-47 | a prefix is 8 bytes that start with the continuation marker |
| Framing.AnnouncesIffEncoded | extensions/nanoarrow_ipc/src/nanoarrow/nanoarrow_ipc_reader_test.cc:46-47 | 8 bytes are the marker plus the little-endian encoding of a length if and only if they are the encoded prefix of that length |
| Framing.DecodePrefix | extensions/nanoarrow_ipc/src/nanoarrow/nanoarrow_ipc_reader_test.cc:319-350 | each outcome holds exactly when its case holds: nothing delivered, 1 to 7 bytes, 8 bytes without the marker, the end-of-stream marker; otherwise the bytes announce a positive metadata length |
| Framing.PrefixRoundTrip | extensions/nanoarrow_ipc/src/nanoarrow/nanoarrow_ipc_reader_test.cc:60 | decoding an encoded prefix gives its metadata length back, and gives the end-of-stream marker for length 0 |
| Framing.Frame | extensions/nanoarrow_ipc/src/nanoarrow/nanoarrow_ipc_reader_test.cc:46-58 | framing leaves a suffix of the input; each outcome holds exactly when its case holds (empty input, short prefix, missing marker, end marker); an envelope has consumed a prefix and exactly the metadata block it announces |
| Framing.FrameEncoded | extensions/nanoarrow_ipc/src/nanoarrow/nanoarrow_ipc_reader_test.cc:46-58 | framing an encoded prefix and metadata block gives the decoder's verdict on that block and leaves exactly the bytes after it |
| Framing.FrameEndOfStream | extensions/nanoarrow_ipc/src/nanoarrow/nanoarrow_ipc_reader_test.cc:60 | the end-of-stream marker is recognised whatever follows it, and consumes only its 8 bytes |
| Framing.EnvelopeThenBody | extensions/nanoarrow_ipc/src/nanoarrow/nanoarrow_ipc_reader_test.cc:46-58 | an envelope followed by at least its declared body length forms a whole message that ends with those body bytes |
| Framing.EncodeMessage | extensions/nanoarrow_ipc/src/nanoarrow/nanoarrow_ipc_reader_test.cc:46-58 | a message is 8 prefix bytes, then the metadata block, then the body |
| Framing.IsMessageIffEncoded | extensions/nanoarrow_ipc/src/nanoarrow/nanoarrow_ipc_reader_test.cc:46-58 | the byte strings that are whole messages are exactly the encodings of a non-empty metadata block that decodes to the header, followed by a body of the declared length |
| ReaderSpec.ReadSchema | extensions/nanoarrow_ipc/src/nanoarrow/nanoarrow_ipc_reader_test.cc:274-350 | reading the first message leaves a suffix of the input; success only for a Schema message under field index -1; empty input is ENODATA; fewer than 8 bytes is EINVAL |
| ReaderSpec.ReadSchemaConsumesMessage | extensions/nanoarrow_ipc/src/nanoarrow/nanoarrow_ipc_reader_test.cc:157-160 | a successful schema read has consumed exactly one whole message with that header |
| ReaderSpec.GetSchema | extensions/nanoarrow_ipc/src/nanoarrow/nanoarrow_ipc_reader_test.cc:157-161 | keeps the state invariant; OK exactly when a schema is handed out, and that schema has format "+s"; a failure puts the reader in Errored with that code; once the schema has been read, get_schema changes nothing |
| ReaderSpec.ReadBody | extensions/nanoarrow_ipc/src/nanoarrow/nanoarrow_ipc_reader_test.cc:163-165 | an array is handed out exactly when the whole body is present; its length is the row count, its bytes are the body, and the stream advances past the body; otherwise EINVAL; either way it keeps the state invariant and the schema, leaves a suffix of the input, and is Errored exactly when it fails |
| ReaderSpec.NextBatch | extensions/nanoarrow_ipc/src/nanoarrow/nanoarrow_ipc_reader_test.cc:163-172 | keeps the state invariant and the schema; consumes a suffix of the input; a failure code, and only a failure code, puts the reader in Errored; an array is handed out exactly when the reader stays ready for more |
| ReaderSpec.BatchPull | extensions/nanoarrow_ipc/src/nanoarrow/nanoarrow_ipc_reader_test.cc:163-172 | once the next message has been framed: the state invariant and the schema are kept, a suffix of the input is left, a failure code and only a failure code means Errored, and an array is handed out exactly when the reader stays ready for batches |
| ReaderSpec.NextBatchEnds | extensions/nanoarrow_ipc/src/nanoarrow/nanoarrow_ipc_reader_test.cc:168-172 | a pull after the schema ends the stream if and only if the input is empty or starts with the end-of-stream marker |
| ReaderSpec.NextBatchReadsBody | extensions/nanoarrow_ipc/src/nanoarrow/nanoarrow_ipc_reader_test.cc:163-165 | an array is only handed out for a RecordBatch envelope, and it is that envelope's body read |
| ReaderSpec.NextBatchConsumesMessage | extensions/nanoarrow_ipc/src/nanoarrow/nanoarrow_ipc_reader_test.cc:163-166 | an array handed out means exactly one whole RecordBatch message was consumed; its row count is the array's length and its body ends with the array's bytes |
| ReaderSpec.ReadBodyConsumesMessage | extensions/nanoarrow_ipc/src/nanoarrow/nanoarrow_ipc_reader_test.cc:163-166 | a body read after a RecordBatch envelope completes one whole message, whose row count is the array's length and which ends with the array's bytes |
| ReaderSpec.GetNext | extensions/nanoarrow_ipc/src/nanoarrow/nanoarrow_ipc_reader_test.cc:163-172 | keeps the state invariant; a failure code means Errored with that code and no array; an array comes with OK and a reader ready for more |
| ReaderProperties.EndedIsTerminal | extensions/nanoarrow_ipc/src/nanoarrow/nanoarrow_ipc_reader_test.cc:168-172 | after the end of the stream, any number of further get_next calls return OK with no array and change nothing |
| ReaderProperties.ErroredIsTerminal | extensions/nanoarrow_ipc/src/nanoarrow/nanoarrow_ipc_reader_test.cc:267-269 | after a failure, get_schema and any number of get_next calls re-report the stored code and change nothing |
| ReaderProperties.ExhaustionMatchesEndMarker | extensions/nanoarrow_ipc/src/nanoarrow/nanoarrow_ipc_reader_test.cc:214-245 | after the schema, empty input and the end-of-stream marker both give OK, no array and an ended stream |
| ReaderProperties.GetNextAfterSchema | extensions/nanoarrow_ipc/src/nanoarrow/nanoarrow_ipc_reader_test.cc:163-164 | once the schema has been read, get_next is exactly one batch pull |
| ReaderProperties.NextBatchSharingInvisible | extensions/nanoarrow_ipc/src/nanoarrow/nanoarrow_ipc_reader_test.cc:177-212 | two options that differ only in buffer sharing give batch pulls with the same observable result |
| ReaderProperties.SharedBuffersInvisible | extensions/nanoarrow_ipc/src/nanoarrow/nanoarrow_ipc_reader_test.cc:177-212 | flipping use_shared_buffers changes nothing a get_next caller observes (state, rest, code, array length and bytes) |
| ReaderProperties.EmptyInputNoData | extensions/nanoarrow_ipc/src/nanoarrow/nanoarrow_ipc_reader_test.cc:319-331 | on empty input, get_schema and get_next fail with ENODATA and "No data available on stream" |
| ReaderProperties.ShortInputRejected | extensions/nanoarrow_ipc/src/nanoarrow/nanoarrow_ipc_reader_test.cc:336-350 | with 1 to 7 bytes of input, get_schema fails with EINVAL and "Expected at least 8 bytes in remainder of stream" |
| ReaderProperties.SchemaAccepted | extensions/nanoarrow_ipc/src/nanoarrow/nanoarrow_ipc_reader_test.cc:157-161 | any encoded Schema message, read under field index -1, gives OK and the "+s" schema; the reader then waits for batches with exactly the bytes after the message left |
| ReaderProperties.NonSchemaFirstRejected | extensions/nanoarrow_ipc/src/nanoarrow/nanoarrow_ipc_reader_test.cc:274-289 | a first message of any other kind fails with EINVAL and "Unexpected message type at start of input (expected Schema)" |
| ReaderProperties.FieldIndexUnsupported | extensions/nanoarrow_ipc/src/nanoarrow/nanoarrow_ipc_reader_test.cc:306-314 | a field index other than -1 makes get_schema fail with ENOTSUP and "Field index != -1 is not yet supported" |
| ReaderProperties.NextBatchEncoded | extensions/nanoarrow_ipc/src/nanoarrow/nanoarrow_ipc_reader_test.cc:163-165 | a pull on an encoded RecordBatch message reads the body from exactly the bytes after its metadata block |
| ReaderProperties.BatchDelivered | extensions/nanoarrow_ipc/src/nanoarrow/nanoarrow_ipc_reader_test.cc:163-166 | any encoded RecordBatch message with its body gives OK and one array of its row count holding the body; the reader stays ready, with exactly the bytes after the message left |
| ReaderProperties.NextBatchOnOtherKind | extensions/nanoarrow_ipc/src/nanoarrow/nanoarrow_ipc_reader_test.cc:266-269 | a batch pull on a message of another kind fails with EINVAL without reading a body |
| ReaderProperties.NonBatchRejected | extensions/nanoarrow_ipc/src/nanoarrow/nanoarrow_ipc_reader_test.cc:266-269 | get_next on a message of another kind fails with EINVAL and "Unexpected message type (expected RecordBatch)" |
| Fixtures.FixtureLengths | extensions/nanoarrow_ipc/src/nanoarrow/nanoarrow_ipc_reader_test.cc:24-58 | the metadata blocks are 0x110 and 0x88 bytes long, and the messages 280 and 160 bytes |
| Fixtures.SchemaFixtureFramed | extensions/nanoarrow_ipc/src/nanoarrow/nanoarrow_ipc_reader_test.cc:24-44 | kSimpleSchema is the prefix announcing 0x110 bytes, then its metadata block |
| Fixtures.BatchFixtureFramed | extensions/nanoarrow_ipc/src/nanoarrow/nanoarrow_ipc_reader_test.cc:46-58 | kSimpleRecordBatch is the prefix announcing 0x88 bytes, then its metadata block, then its 16-byte body |
| Fixtures.FixturesAreMessages | extensions/nanoarrow_ipc/src/nanoarrow/nanoarrow_ipc_reader_test.cc:24-60 | the fixtures are encoded messages: a Schema message without body, a RecordBatch message with its body, and the end-of-stream marker |
| Fixtures.FixturePrefixes | extensions/nanoarrow_ipc/src/nanoarrow/nanoarrow_ipc_reader_test.cc:24-60 | the fixture prefixes decode to 0x110, 0x88 and the end-of-stream marker |
| Fixtures.SimpleStreamSchema | extensions/nanoarrow_ipc/src/nanoarrow/nanoarrow_ipc_reader_test.cc:142-161 | on the schema fixture followed by the batch fixture, get_schema gives OK and "+s" and leaves the batch message |
| Fixtures.SchemaTwice | extensions/nanoarrow_ipc/src/nanoarrow/nanoarrow_ipc_reader_test.cc:247-269 | with two Schema messages, get_schema succeeds and get_next fails with EINVAL and "Unexpected message type (expected RecordBatch)" |
| Fixtures.BatchFirst | extensions/nanoarrow_ipc/src/nanoarrow/nanoarrow_ipc_reader_test.cc:274-289 | a RecordBatch fixture first, whatever follows, makes get_schema fail with EINVAL and "Unexpected message type at start of input (expected Schema)" |
| Fixtures.FieldIndexZero | extensions/nanoarrow_ipc/src/nanoarrow/nanoarrow_ipc_reader_test.cc:294-314 | with field index 0, get_schema on the fixture stream fails with ENOTSUP and the unsupported-field-index message |
| StreamReader.ArrayStreamReader.Init | extensions/nanoarrow_ipc/src/nanoarrow/nanoarrow_ipc_reader_test.cc:306-310 | creation always succeeds, in the initial state; absent options mean field index -1 and shared buffers |
| StreamReader.ArrayStreamReader.NextHeader | extensions/nanoarrow_ipc/src/nanoarrow/nanoarrow_ipc_reader_test.cc:159-164 | reading a prefix and its metadata block off the stream gives exactly the framing outcome, and leaves exactly the framing's rest on the stream |
| StreamReader.ArrayStreamReader.SetError | extensions/nanoarrow_ipc/src/nanoarrow/nanoarrow_ipc_reader_test.cc:267-269 | the reader enters Errored with the given code and message and keeps everything else |
| StreamReader.ArrayStreamReader.ReadSchemaMessage | extensions/nanoarrow_ipc/src/nanoarrow/nanoarrow_ipc_reader_test.cc:159-160 | reading the first message and skipping its body gives exactly the schema-step outcome, and leaves exactly its rest |
| StreamReader.ArrayStreamReader.AcceptSchema | extensions/nanoarrow_ipc/src/nanoarrow/nanoarrow_ipc_reader_test.cc:159-160 | after the Schema message is read, the reader awaits batches and holds that schema |
| StreamReader.ArrayStreamReader.LoadSchema | extensions/nanoarrow_ipc/src/nanoarrow/nanoarrow_ipc_reader_test.cc:159-160 | the first schema read moves the object and the stream exactly as get_schema in the state machine |
| StreamReader.ArrayStreamReader.GetSchema | extensions/nanoarrow_ipc/src/nanoarrow/nanoarrow_ipc_reader_test.cc:157-161 | state, remaining input, code and schema are exactly those of get_schema in the state machine |
| StreamReader.ArrayStreamReader.ReadBatchBody | extensions/nanoarrow_ipc/src/nanoarrow/nanoarrow_ipc_reader_test.cc:163-166 | reading the body into a new buffer gives exactly the state machine's body read |
| StreamReader.ArrayStreamReader.PullBatch | extensions/nanoarrow_ipc/src/nanoarrow/nanoarrow_ipc_reader_test.cc:163-172 | one pull after the schema changes the object and the stream exactly as the state machine's batch pull |
| StreamReader.ArrayStreamReader.FinishBatch | extensions/nanoarrow_ipc/src/nanoarrow/nanoarrow_ipc_reader_test.cc:163-172 | acting on a framed message in batch position changes the object and the stream exactly as the state machine's step after framing |
| StreamReader.ArrayStreamReader.GetNext | extensions/nanoarrow_ipc/src/nanoarrow/nanoarrow_ipc_reader_test.cc:163-172 | state, remaining input, code and array are exactly those of get_next in the state machine |
| StreamReader.ArrayStreamReader.GetLastError | extensions/nanoarrow_ipc/src/nanoarrow/nanoarrow_ipc_reader_test.cc:268-269 | the message of the recorded failure, and the empty string while there has been none |
| StreamReader.ArrayStreamReader.Release | extensions/nanoarrow_ipc/src/nanoarrow/nanoarrow_ipc_reader_test.cc:174 | releasing the reader releases the input stream it owns |
| ReaderTests.ReadFiveBytes | extensions/nanoarrow_ipc/src/nanoarrow/nanoarrow_ipc_reader_test.cc:75-97 | on bytes 1..5 into a buffer of 0xFF, the read sizes are 2, 2, 1, 0, 0, and the destination snapshots are the three the test compares against |
| ReaderTests.InputStreamBuffer | extensions/nanoarrow_ipc/src/nanoarrow/nanoarrow_ipc_reader_test.cc:62-100 | the caller's data pointer is null after the buffer is taken over, and the reads give the sizes and snapshots above |
| ReaderTests.InputStreamFile | extensions/nanoarrow_ipc/src/nanoarrow/nanoarrow_ipc_reader_test.cc:102-140 | a file stream over bytes 1..5 gives the same sizes and snapshots |
| ReaderTests.ReaderOver | extensions/nanoarrow_ipc/src/nanoarrow/nanoarrow_ipc_reader_test.cc:143-155 | a buffer is filled, handed to a memory stream and wrapped by a new reader awaiting its schema, with exactly those bytes to read and the given or default options |
| ReaderTests.ReadSimpleSchema | extensions/nanoarrow_ipc/src/nanoarrow/nanoarrow_ipc_reader_test.cc:157-161 | get_schema on the fixture stream returns OK and "+s" and leaves the batch message |
| ReaderTests.TakeBatch | extensions/nanoarrow_ipc/src/nanoarrow/nanoarrow_ipc_reader_test.cc:163-166 | get_next on a RecordBatch message returns OK and the array of its rows and body, keeps the state, and leaves what follows |
| ReaderTests.PullAtEnd | extensions/nanoarrow_ipc/src/nanoarrow/nanoarrow_ipc_reader_test.cc:168-169 | at the end of the input or at the end marker, get_next returns OK with no array and ends the stream |
| ReaderTests.PullAfterEnd | extensions/nanoarrow_ipc/src/nanoarrow/nanoarrow_ipc_reader_test.cc:171-172 | get_next after the end again returns OK with no array and changes nothing |
| ReaderTests.ReadSimpleBatches | extensions/nanoarrow_ipc/src/nanoarrow/nanoarrow_ipc_reader_test.cc:163-172 | the three get_next calls on the fixture stream return OK each: first the 3-row array over the 16-byte body, then nothing twice |
| ReaderTests.StreamReaderBasic | extensions/nanoarrow_ipc/src/nanoarrow/nanoarrow_ipc_reader_test.cc:142-245 | with default options, without shared buffers, or with the end marker appended: OK and "+s", then an array of length 3 holding the body, then two empty results |
| ReaderTests.StreamReaderExpectedRecordBatch | extensions/nanoarrow_ipc/src/nanoarrow/nanoarrow_ipc_reader_test.cc:247-272 | two Schema messages: get_schema is OK, get_next is EINVAL, and get_last_error is "Unexpected message type (expected RecordBatch)" |
| ReaderTests.StreamReaderExpectedSchema | extensions/nanoarrow_ipc/src/nanoarrow/nanoarrow_ipc_reader_test.cc:274-292 | a RecordBatch message first: get_schema is EINVAL and get_last_error is "Unexpected message type at start of input (expected Schema)" |
| ReaderTests.StreamReaderUnsupportedFieldIndex | extensions/nanoarrow_ipc/src/nanoarrow/nanoarrow_ipc_reader_test.cc:294-317 | field index 0: the reader is created, get_schema is ENOTSUP, and get_last_error is "Field index != -1 is not yet supported" |
| ReaderTests.StreamReaderEmptyInput | extensions/nanoarrow_ipc/src/nanoarrow/nanoarrow_ipc_reader_test.cc:319-334 | empty input: get_schema is ENODATA and get_last_error is "No data available on stream" |
| ReaderTests.StreamReaderIncompletePrefix | extensions/nanoarrow_ipc/src/nanoarrow/nanoarrow_ipc_reader_test.cc:336-353 | a single 0x00 byte: get_schema is EINVAL and get_last_error is "Expected at least 8 bytes in remainder of stream" |

## Left out

- The reader's implementation files are not part of this model; only its test file is. The following are this model's own choices, because the tests do not observe them: Ended and Errored are terminal; get_schema in Errored re-reports the stored code; get_schema after the schema has been read returns "+s" again; a stored error is never cleared.
- Flatbuffer metadata decoding is not modelled. The decoder is a parameter (`MetadataDecoder`). `Fixtures.DecodesFixtures` states what it must report for the two fixture metadata blocks: a Schema message with no body, and a RecordBatch message with a 16-byte body and 3 rows.
- Schema and array contents beyond what the tests check are not modelled: no field tree, child arrays, validity, offsets or buffer layout. A schema is its format string "+s". An array is its row count and the body bytes its buffers live in.
- Dictionary batches are not modelled. They are a message kind and are rejected in both positions like any other unexpected kind.
- Reference counting and release callbacks of schemas, arrays and the body buffer are not modelled. A `None` result stands for an array whose release callback is null.
- File I/O is not modelled. A file stream is given its bytes from the current position. `fseek`, `tmpfile` and I/O errors are not modelled, and neither is the effect of closing on release.
- `read` failing with an I/O error is not modelled. Every read succeeds.
- The hand-over of the input stream to the reader is not modelled. In the tests the reader takes the stream over, and only the reader is released. Here the reader keeps a shared reference to the caller's `InputStream` (`ArrayStreamReader.Init` ensures `this.input == input`), so the model does not stop the caller from reading the stream afterwards; `ArrayStreamReader.Release` is what releases it.
- The test at line 277 appends `sizeof(kSimpleSchema)` (280) bytes from `kSimpleRecordBatch`, which holds only 160 bytes, so it reads 120 bytes past the end of that array. Those bytes are undefined. The model takes them as arbitrary `following` bytes, and `ReaderTests.StreamReaderExpectedSchema` holds whatever they are.
- Texts the tests never check are this model's own:
  - the missing-marker message in batch position;
  - the truncated metadata and truncated body messages.

  A missing marker where the schema is expected reports the expected-Schema message.
- An end-of-stream marker where the schema is expected is treated like empty input: ENODATA, "No data available on stream". The tests do not cover this case.
- A read destination needs room only for the bytes actually delivered, min(n, remaining), not for all `n` requested. The test's third read asks for 2 bytes at offset 4 of a 5-byte buffer with 1 byte left on the stream.
