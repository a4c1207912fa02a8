/** The IPC array-stream reader: an object over an input stream whose
    get_schema and get_next pull messages off the stream one at a time,
    reading each 8-byte prefix and metadata block, and each RecordBatch
    body, into freshly allocated buffers; the body of the Schema message is
    skipped without being stored. Every operation is proved to leave the object and the
    stream exactly as the state machine of ReaderSpec says. */
module StreamReader {
  import opened IpcTypes
  import opened Framing
  import opened ReaderSpec
  import opened InputStreams

  class ArrayStreamReader {
    const input: InputStream
    const decode: MetadataDecoder
    const options: Options
    var phase: Phase
    var schema: Option<MessageHeader>
    var code: Code
    var message: string

    /** The reader's state as the state machine sees it. */
    function State(): ReaderState
      reads this
    {
      ReaderState(phase, schema, code, message)
    }

    ghost predicate Valid()
      reads this, input
    {
      input.Valid() && !input.released && Coherent(State())
    }

    /** Creates a reader over `input`. Absent options mean field index -1
        and shared buffers. Creation always succeeds: options are only
        checked when the schema is read. */
    constructor Init(input: InputStream, decode: MetadataDecoder, options: Option<Options>)
      requires input.Valid() && !input.released
      ensures Valid() && State() == InitialState
      ensures this.input == input && this.decode == decode
      ensures this.options == if options.Some? then options.value else DefaultOptions
    {
      this.input := input;
      this.decode := decode;
      this.options := if options.Some? then options.value else DefaultOptions;
      phase := AwaitingSchema;
      schema := None;
      code := OK;
      message := "";
    }

    /** Reads the 8-byte prefix of the next message and, unless it ends the
        stream, the metadata block it announces, and decodes that block. */
    method NextHeader() returns (f: Framed)
      requires Valid()
      modifies input
      ensures Valid()
      ensures f == Frame(old(input.Remaining()), decode) && input.Remaining() == f.rest
    {
      ghost var source := input.Remaining();
      var prefix := new byte[PrefixSize];
      var got := ReadFully(input, prefix, PrefixSize);
      assert prefix[..got] == source[..got];
      match DecodePrefix(prefix[..got])
      case NoPrefix =>
        f := Framed(InputExhausted, input.Remaining());
      case TruncatedPrefix =>
        f := Framed(PrefixIncomplete, input.Remaining());
      case BadMarker =>
        f := Framed(MarkerMissing, input.Remaining());
      case EndOfStreamMarker =>
        f := Framed(EndOfStream, input.Remaining());
      case MetadataLength(length) =>
        ghost var afterPrefix := input.Remaining();
        var metadata := new byte[length];
        var n := ReadFully(input, metadata, length);
        if n < length {
          f := Framed(MetadataIncomplete, input.Remaining());
        } else {
          assert metadata[..] == afterPrefix[..length];
          match decode(metadata[..])
          case Err(m) =>
            f := Framed(MetadataInvalid(m), input.Remaining());
          case Ok(header) =>
            f := Framed(Envelope(header), input.Remaining());
        }
    }

    /** Records a failure; it is reported again by every later call. */
    method SetError(c: Code, m: string)
      requires Valid() && c != OK
      modifies this
      ensures Valid()
      ensures State() == old(State()).(phase := Errored, code := c, message := m)
    {
      phase := Errored;
      code := c;
      message := m;
    }

    /** Reads the first message, which must be a Schema message, and skips
        its body. */
    method ReadSchemaMessage() returns (step: SchemaStep)
      requires Valid()
      modifies input
      ensures Valid()
      ensures step == ReadSchema(old(input.Remaining()), decode, options) && input.Remaining() == step.rest
    {
      var f := NextHeader();
      match f.outcome
      case InputExhausted =>
        step := SchemaFailed(ENODATA, NoDataMessage, f.rest);
      case EndOfStream =>
        step := SchemaFailed(ENODATA, NoDataMessage, f.rest);
      case PrefixIncomplete =>
        step := SchemaFailed(EINVAL, PrefixMessage, f.rest);
      case MarkerMissing =>
        step := SchemaFailed(EINVAL, ExpectedSchemaMessage, f.rest);
      case MetadataIncomplete =>
        step := SchemaFailed(EINVAL, MetadataTruncatedMessage, f.rest);
      case MetadataInvalid(m) =>
        step := SchemaFailed(EINVAL, m, f.rest);
      case Envelope(header) =>
        if header.kind != Schema {
          step := SchemaFailed(EINVAL, ExpectedSchemaMessage, f.rest);
        } else if options.fieldIndex != -1 {
          step := SchemaFailed(ENOTSUP, FieldIndexMessage, f.rest);
        } else {
          var n := ReadFully(input, null, header.bodyLength);
          if n < header.bodyLength {
            step := SchemaFailed(EINVAL, BodyTruncatedMessage, input.Remaining());
          } else {
            step := SchemaRead(header, input.Remaining());
          }
        }
    }

    /** Moves the reader on to batches once the Schema message is read. */
    method AcceptSchema(header: MessageHeader)
      requires Valid() && phase == AwaitingSchema && header.kind == Schema
      modifies this
      ensures Valid() && State() == ReaderState(AwaitingBatchOrEnd, Some(header), OK, "")
    {
      phase := AwaitingBatchOrEnd;
      schema := Some(header);
    }

    /** Reads the Schema message on the first call of get_schema or
        get_next and moves on to batches, or records the failure. */
    method LoadSchema() returns (rc: Code, out: Option<ArrowSchema>)
      requires Valid() && phase == AwaitingSchema
      modifies this, input
      ensures Valid()
      ensures Pull(State(), input.Remaining(), rc, out) == ReaderSpec.GetSchema(old(State()), old(input.Remaining()), decode, options)
    {
      ghost var s := State();
      ghost var source := input.Remaining();
      var step := ReadSchemaMessage();
      assert ReaderSpec.GetSchema(s, source, decode, options) == SchemaPull(s, step);
      match step
      case SchemaFailed(c, m, rest) =>
        SetError(c, m);
        rc, out := c, None;
      case SchemaRead(header, rest) =>
        AcceptSchema(header);
        rc, out := OK, Some(ArrowSchema(StructFormat));
    }

    /** get_schema on the reader object. */
    method GetSchema() returns (rc: Code, out: Option<ArrowSchema>)
      requires Valid()
      modifies this, input
      ensures Valid()
      ensures Pull(State(), input.Remaining(), rc, out) == ReaderSpec.GetSchema(old(State()), old(input.Remaining()), decode, options)
    {
      match phase
      case Errored =>
        rc, out := code, None;
      case AwaitingBatchOrEnd =>
        rc, out := OK, Some(ArrowSchema(StructFormat));
      case Ended =>
        rc, out := OK, Some(ArrowSchema(StructFormat));
      case AwaitingSchema =>
        rc, out := LoadSchema();
    }

    /** Reads the body of a RecordBatch message into a new buffer and hands
        out the array built on it. */
    method ReadBatchBody(header: MessageHeader) returns (rc: Code, out: Option<ArrowArray>)
      requires Valid() && phase == AwaitingBatchOrEnd
      modifies this, input
      ensures Valid()
      ensures Pull(State(), input.Remaining(), rc, out) == ReadBody(old(State()), header, old(input.Remaining()), options)
    {
      ghost var s := State();
      ghost var source := input.Remaining();
      var body := new byte[header.bodyLength];
      var n := ReadFully(input, body, header.bodyLength);
      assert State() == s;
      if n < header.bodyLength {
        assert ReadBody(s, header, source, options) == Failed(s, EINVAL, BodyTruncatedMessage, []);
        SetError(EINVAL, BodyTruncatedMessage);
        rc, out := EINVAL, None;
      } else {
        assert body[..] == source[..header.bodyLength];
        assert ReadBody(s, header, source, options)
          == Pull(s, source[header.bodyLength..], OK, Some(MakeArray(header, body[..], options.useSharedBuffers)));
        rc, out := OK, Some(MakeArray(header, body[..], options.useSharedBuffers));
      }
    }

    /** One pull after the schema has been read. */
    method PullBatch() returns (rc: Code, out: Option<ArrowArray>)
      requires Valid() && phase == AwaitingBatchOrEnd
      modifies this, input
      ensures Valid()
      ensures Pull(State(), input.Remaining(), rc, out) == NextBatch(old(State()), old(input.Remaining()), decode, options)
    {
      ghost var source := input.Remaining();
      var f := NextHeader();
      rc, out := FinishBatch(source, f);
    }

    /** Acts on a framed message in batch position: ends the stream, records
        a failure, or reads the body of a RecordBatch message. */
    method FinishBatch(ghost source: seq<byte>, f: Framed) returns (rc: Code, out: Option<ArrowArray>)
      requires Valid() && phase == AwaitingBatchOrEnd
      requires |f.rest| <= |source| && f.rest == source[|source| - |f.rest|..] && input.Remaining() == f.rest
      modifies this, input
      ensures Valid()
      ensures Pull(State(), input.Remaining(), rc, out) == BatchPull(old(State()), source, f, options)
    {
      match f.outcome
      case InputExhausted =>
        phase := Ended;
        rc, out := OK, None;
      case EndOfStream =>
        phase := Ended;
        rc, out := OK, None;
      case PrefixIncomplete =>
        SetError(EINVAL, PrefixMessage);
        rc, out := EINVAL, None;
      case MarkerMissing =>
        SetError(EINVAL, MarkerMessage);
        rc, out := EINVAL, None;
      case MetadataIncomplete =>
        SetError(EINVAL, MetadataTruncatedMessage);
        rc, out := EINVAL, None;
      case MetadataInvalid(m) =>
        SetError(EINVAL, m);
        rc, out := EINVAL, None;
      case Envelope(header) =>
        if header.kind != RecordBatch {
          SetError(EINVAL, ExpectedRecordBatchMessage);
          rc, out := EINVAL, None;
        } else {
          rc, out := ReadBatchBody(header);
        }
    }

    /** get_next on the reader object. */
    method GetNext() returns (rc: Code, out: Option<ArrowArray>)
      requires Valid()
      modifies this, input
      ensures Valid()
      ensures Pull(State(), input.Remaining(), rc, out) == ReaderSpec.GetNext(old(State()), old(input.Remaining()), decode, options)
    {
      if phase == Errored {
        rc, out := code, None;
      } else if phase == Ended {
        rc, out := OK, None;
      } else {
        ghost var p := ReaderSpec.GetSchema(State(), input.Remaining(), decode, options);
        var schemaCode, _ := GetSchema();
        assert State() == p.state && input.Remaining() == p.rest && schemaCode == p.code;
        if schemaCode != OK {
          rc, out := schemaCode, None;
        } else {
          rc, out := PullBatch();
        }
      }
    }

    /** get_last_error: the message of the failure that put the reader in
        its error state, and the empty string while there has been none. */
    function GetLastError(): (m: string)
      reads this, input
      requires Valid()
      ensures phase != Errored ==> m == ""
      ensures phase == Errored ==> m == State().message
    {
      message
    }

    /** Releases the reader together with the input stream it owns. */
    method Release()
      requires Valid()
      modifies input
      ensures input.released
    {
      input.Release();
    }
  }
}
