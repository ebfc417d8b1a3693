/** The request/response unit exchanged with the broker (`RemoteCommand`) and
    its wire frame:
      [i32 BE total length][i32 BE header length][header bytes][body bytes]
    where total length = 4 + header length + body length. */
module Protocol {
  import opened Wrappers
  import opened BigEndian
  import opened ByteIo

  /** `_LENGTH`: size of the total-length field. */
  const LENGTH_FIELD_SIZE: nat := 4
  /** `_HEADER_LENGTH`: size of the header-length field, counted in the total length. */
  const HEADER_LENGTH_FIELD_SIZE: nat := 4
  /** Both length fields together: where the header bytes start. */
  const PREFIX_SIZE: nat := LENGTH_FIELD_SIZE + HEADER_LENGTH_FIELD_SIZE

  /** Language tag and protocol version every command is stamped with. */
  const LANGUAGE: string := "OTHER"
  const VERSION: int := 431

  datatype Header = Header(
    code: int,
    language: string,
    version: int,
    opaqueId: i32,  // the source's `opaque` (a reserved word in Dafny)
    flag: int,
    remark: string,
    extFields: map<string, string>)

  datatype RemoteCommand = RemoteCommand(header: Header, body: seq<byte>)

  /** The header's structured serialisation (`serde_json::to_vec`) and its
      parser (`serde_json::from_slice`) are supplied from outside the model. */
  type Serializer = Header -> seq<byte>
  type Parser = seq<byte> -> Option<Header>

  /** The hypothesis the round trip rests on: parsing a serialised header gives
      that header back. */
  ghost predicate HeaderCodec(ser: Serializer, parse: Parser)
  {
    forall h :: parse(ser(h)) == Some(h)
  }

  // ---------------------------------------------------------------------------
  // Opaque ids

  /** `GLOBAL_OPAQUE`, made explicit: every command built draws its opaque id
      from one counter. `issued` records the values handed out so far. */
  class OpaqueCounter {
    var value: int
    ghost var issued: seq<int>

    ghost predicate Valid()
      reads this
    {
      value == |issued| && forall i :: 0 <= i < |issued| ==> issued[i] == i
    }

    /** `AtomicIsize::new(0)` */
    constructor ()
      ensures Valid() && value == 0 && issued == []
    {
      value := 0;
      issued := [];
    }

    /** `fetch_add(1)`: return the current value, then add one. */
    method FetchAdd() returns (v: int)
      requires Valid()
      modifies this
      ensures Valid()
      ensures v == old(value) && value == old(value) + 1
      ensures issued == old(issued) + [v]
    {
      v := value;
      value := value + 1;
      issued := issued + [v];
    }
  }

  /** While the counter has not passed `i32::MAX`, the ids it has handed out,
      cast to `i32` as `new` does, strictly increase in the order of issue. */
  lemma OpaqueIdsIncrease(counter: OpaqueCounter)
    requires counter.Valid() && counter.value <= I32_MAX + 1
    ensures forall i, j :: 0 <= i < j < |counter.issued| ==>
              ToI32(counter.issued[i]) < ToI32(counter.issued[j])
  {
  }

  /** `RemoteCommand::new`: fixed language and version, the next opaque id, and
      everything else as given. */
  method NewCommand(counter: OpaqueCounter, code: int, flag: int, remark: string,
                    fields: map<string, string>, body: seq<byte>)
    returns (cmd: RemoteCommand)
    requires counter.Valid()
    modifies counter
    ensures counter.Valid()
    ensures counter.value == old(counter.value) + 1
    ensures counter.issued == old(counter.issued) + [old(counter.value)]
    ensures cmd.header == Header(code, LANGUAGE, VERSION, ToI32(old(counter.value)), flag, remark, fields)
    ensures cmd.body == body
  {
    var id := counter.FetchAdd();
    cmd := RemoteCommand(Header(code, LANGUAGE, VERSION, ToI32(id), flag, remark, fields), body);
  }

  /** What the counter promises about commands: of two commands built one after
      the other, the second has the larger opaque id, and the first command
      built on a new counter has id 0. */
  method NewCommandsInOrder(counter: OpaqueCounter, code: int, flag: int, remark: string,
                            fields: map<string, string>, body: seq<byte>)
    returns (first: RemoteCommand, second: RemoteCommand)
    requires counter.Valid() && counter.value < I32_MAX
    modifies counter
    ensures counter.Valid() && counter.value == old(counter.value) + 2
    ensures first.header.opaqueId < second.header.opaqueId
    ensures old(counter.value) == 0 ==> first.header.opaqueId == 0 && second.header.opaqueId == 1
  {
    first := NewCommand(counter, code, flag, remark, fields, body);
    second := NewCommand(counter, code, flag, remark, fields, body);
  }

  // ---------------------------------------------------------------------------
  // Encoding

  /** The frame `encode` lays out for serialised header bytes and a body. Both
      lengths are cast with `as i32` before they are written. */
  function Frame(headerBytes: seq<byte>, body: seq<byte>): (frame: seq<byte>)
  {
    EncodeI32(ToI32(HEADER_LENGTH_FIELD_SIZE + |headerBytes| + |body|))
      + EncodeI32(ToI32(|headerBytes|))
      + headerBytes
      + body
  }

  /** The total length still fits in a non-negative `i32`, so neither cast wraps. */
  predicate FrameFits(headerLen: nat, bodyLen: nat)
  {
    HEADER_LENGTH_FIELD_SIZE + headerLen + bodyLen <= I32_MAX
  }

  /** `RemoteCommand::encode`: successive writes into a fresh `Vec`. */
  method Encode(cmd: RemoteCommand, ser: Serializer) returns (out: seq<byte>)
    ensures out == Frame(ser(cmd.header), cmd.body)
  {
    var wtr := new ByteWriter();
    var headerBytes := ser(cmd.header);
    var headerLen := |headerBytes|;
    var length := HEADER_LENGTH_FIELD_SIZE + headerLen + |cmd.body|;
    wtr.WriteI32(ToI32(length));
    wtr.WriteI32(ToI32(headerLen));
    wtr.WriteAll(headerBytes);
    if |cmd.body| != 0 {
      wtr.WriteAll(cmd.body);
    }
    out := wtr.data;
  }

  /** The layout of a frame: both length fields, then the header bytes, then the
      body and nothing else; the length fields read back as the sizes. */
  lemma FrameLayout(headerBytes: seq<byte>, body: seq<byte>)
    ensures |Frame(headerBytes, body)| == PREFIX_SIZE + |headerBytes| + |body|
    ensures Frame(headerBytes, body)[PREFIX_SIZE..PREFIX_SIZE + |headerBytes|] == headerBytes
    ensures Frame(headerBytes, body)[PREFIX_SIZE + |headerBytes|..] == body
    ensures FrameFits(|headerBytes|, |body|) ==>
              DecodeI32(Frame(headerBytes, body)[..LENGTH_FIELD_SIZE])
                == HEADER_LENGTH_FIELD_SIZE + |headerBytes| + |body|
    ensures FrameFits(|headerBytes|, |body|) ==>
              DecodeI32(Frame(headerBytes, body)[LENGTH_FIELD_SIZE..PREFIX_SIZE]) == |headerBytes|
  {

  }

  // ---------------------------------------------------------------------------
  // Decoding

  /** Each way `from_buffer` panics (an `unwrap` on a failed read or parse, or a
      buffer that cannot be allocated), as an error value. */
  datatype FrameError =
    | TruncatedLength        // fewer than 4 bytes for the total length
    | TruncatedHeaderLength  // fewer than 4 more bytes for the header length
    | NegativeHeaderLength   // `vec![0; header_len as usize]` cannot be allocated
    | TruncatedHeader        // fewer than header_len header bytes
    | MalformedHeader        // the header bytes do not parse
    | BodyLengthUnderflow    // `length - 4 - header_len` is below zero
    | TruncatedBody          // fewer than body_len body bytes

  /** What `from_buffer` returns for an input buffer. Bytes after the body are
      never read. */
  function Decode(input: seq<byte>, parse: Parser): (r: Result<RemoteCommand, FrameError>)
  {
    if |input| < LENGTH_FIELD_SIZE then Failure(TruncatedLength)
    else if |input| < PREFIX_SIZE then Failure(TruncatedHeaderLength)
    else
      var length := DecodeI32(input[..LENGTH_FIELD_SIZE]);
      var headerLen := DecodeI32(input[LENGTH_FIELD_SIZE..PREFIX_SIZE]);
      if headerLen < 0 then Failure(NegativeHeaderLength)
      else if |input| - PREFIX_SIZE < headerLen then Failure(TruncatedHeader)
      else
        match parse(input[PREFIX_SIZE..PREFIX_SIZE + headerLen])
        case None => Failure(MalformedHeader)
        case Some(header) => DecodeBody(input, header, length, headerLen)
  }

  /** The body part of `from_buffer`, once the header has parsed: the body
      length is what the total length leaves after the header-length field and
      the header. */
  function DecodeBody(input: seq<byte>, header: Header, length: int, headerLen: nat)
    : (r: Result<RemoteCommand, FrameError>)
    requires PREFIX_SIZE + headerLen <= |input|
  {
    var bodyLen := length - HEADER_LENGTH_FIELD_SIZE - headerLen;
    var bodyStart := PREFIX_SIZE + headerLen;
    if bodyLen < 0 then Failure(BodyLengthUnderflow)
    else if bodyLen == 0 then Success(RemoteCommand(header, []))
    else if |input| - bodyStart < bodyLen then Failure(TruncatedBody)
    else Success(RemoteCommand(header, input[bodyStart..bodyStart + bodyLen]))
  }

  /** `RemoteCommand::from_buffer`: reads through a `Cursor` over the input. */
  method FromBuffer(input: seq<byte>, parse: Parser) returns (r: Result<RemoteCommand, FrameError>)
    ensures r == Decode(input, parse)
  {
    var rdr := new Cursor(input);
    var length := rdr.ReadI32();
    if length.Failure? {
      return Failure(TruncatedLength);
    }
    var headerLen := rdr.ReadI32();
    if headerLen.Failure? {
      return Failure(TruncatedHeaderLength);
    }
    if headerLen.value < 0 {
      return Failure(NegativeHeaderLength);
    }
    var headerBuf := rdr.ReadExact(headerLen.value);
    if headerBuf.Failure? {
      return Failure(TruncatedHeader);
    }
    var header := parse(headerBuf.value);
    if header.None? {
      return Failure(MalformedHeader);
    }
    assert Decode(input, parse) == DecodeBody(input, header.value, length.value, headerLen.value);
    r := ReadBody(rdr, header.value, length.value, headerLen.value);
  }

  /** The body block of `from_buffer` (the cursor stands just after the header):
      read `length - 4 - header_len` bytes unless that is zero. */
  method ReadBody(rdr: Cursor, header: Header, length: int, headerLen: nat)
    returns (r: Result<RemoteCommand, FrameError>)
    requires rdr.Valid() && rdr.pos == PREFIX_SIZE + headerLen
    modifies rdr
    ensures rdr.Valid()
    ensures r == DecodeBody(rdr.input, header, length, headerLen)
    ensures var bodyLen := length - HEADER_LENGTH_FIELD_SIZE - headerLen;
            && (bodyLen <= 0 ==> rdr.pos == old(rdr.pos))
            && (0 < bodyLen && old(rdr.pos) + bodyLen <= |rdr.input| ==> rdr.pos == old(rdr.pos) + bodyLen)
            && (|rdr.input| < old(rdr.pos) + bodyLen ==> rdr.pos == |rdr.input|)
  {
    var bodyLen := length - HEADER_LENGTH_FIELD_SIZE - headerLen;
    if bodyLen < 0 {
      return Failure(BodyLengthUnderflow);
    }
    var body: seq<byte> := [];
    if bodyLen > 0 {
      var bodyBuf := rdr.ReadExact(bodyLen);
      if bodyBuf.Failure? {
        return Failure(TruncatedBody);
      }
      body := bodyBuf.value;
    }
    r := Success(RemoteCommand(header, body));
  }

  /** Round trip: decoding an encoded command gives the command back, whatever
      bytes follow the frame in the buffer. */
  lemma DecodeEncode(cmd: RemoteCommand, ser: Serializer, parse: Parser, rest: seq<byte>)
    requires HeaderCodec(ser, parse)
    requires FrameFits(|ser(cmd.header)|, |cmd.body|)
    ensures Decode(Frame(ser(cmd.header), cmd.body) + rest, parse) == Success(cmd)
  {
    var hb := ser(cmd.header);
    var f := Frame(hb, cmd.body);
    var input := f + rest;
    FrameLayout(hb, cmd.body);
    assert input[..LENGTH_FIELD_SIZE] == f[..LENGTH_FIELD_SIZE];
    assert input[LENGTH_FIELD_SIZE..PREFIX_SIZE] == f[LENGTH_FIELD_SIZE..PREFIX_SIZE];
    assert input[PREFIX_SIZE..PREFIX_SIZE + |hb|] == hb;
    assert input[PREFIX_SIZE + |hb|..PREFIX_SIZE + |hb| + |cmd.body|] == cmd.body;
  }

  /** Conversely, a successful decode consumed a well-formed frame: the input
      starts with the frame of some header bytes that parse to the decoded header,
      followed by the decoded body. */
  lemma DecodeReadsFrame(input: seq<byte>, parse: Parser)
    requires Decode(input, parse).Success?
    ensures var cmd := Decode(input, parse).value;
            var headerLen := DecodeI32(input[LENGTH_FIELD_SIZE..PREFIX_SIZE]);
            && 0 <= headerLen
            && FrameFits(headerLen, |cmd.body|)
            && parse(input[PREFIX_SIZE..PREFIX_SIZE + headerLen]) == Some(cmd.header)
            && input[..PREFIX_SIZE + headerLen + |cmd.body|]
                 == Frame(input[PREFIX_SIZE..PREFIX_SIZE + headerLen], cmd.body)
  {
    var cmd := Decode(input, parse).value;
    var lengthBytes := input[..LENGTH_FIELD_SIZE];
    var headerLenBytes := input[LENGTH_FIELD_SIZE..PREFIX_SIZE];
    var headerLen := DecodeI32(headerLenBytes);
    var hb := input[PREFIX_SIZE..PREFIX_SIZE + headerLen];
    var n := PREFIX_SIZE + headerLen + |cmd.body|;
    EncodeDecodeI32(lengthBytes);
    EncodeDecodeI32(headerLenBytes);
    assert DecodeI32(lengthBytes) == HEADER_LENGTH_FIELD_SIZE + headerLen + |cmd.body|;
    assert input[..n] == lengthBytes + headerLenBytes + hb + cmd.body;
  }

  /** The failure cases of `from_buffer` and its empty-body case. */
  lemma DecodeCases(input: seq<byte>, parse: Parser)
    ensures |input| < PREFIX_SIZE ==> Decode(input, parse).Failure?
    ensures PREFIX_SIZE <= |input| ==>
              var headerLen := DecodeI32(input[LENGTH_FIELD_SIZE..PREFIX_SIZE]);
              0 <= headerLen && |input| < PREFIX_SIZE + headerLen ==>
                Decode(input, parse) == Failure(TruncatedHeader)
    ensures PREFIX_SIZE <= |input| ==>
              var length := DecodeI32(input[..LENGTH_FIELD_SIZE]);
              var headerLen := DecodeI32(input[LENGTH_FIELD_SIZE..PREFIX_SIZE]);
              var bodyLen := length - HEADER_LENGTH_FIELD_SIZE - headerLen;
              0 <= headerLen && PREFIX_SIZE + headerLen <= |input| &&
              parse(input[PREFIX_SIZE..PREFIX_SIZE + headerLen]).Some? ==>
                && (bodyLen < 0 ==> Decode(input, parse) == Failure(BodyLengthUnderflow))
                && (bodyLen == 0 ==> Decode(input, parse).Success? && Decode(input, parse).value.body == [])
                && (0 < bodyLen && |input| < PREFIX_SIZE + headerLen + bodyLen ==>
                      Decode(input, parse) == Failure(TruncatedBody))
  {
  }

  // ---------------------------------------------------------------------------
  // The module's own round-trip test

  function TestFields(): (fields: map<string, string>)
  {
    map["messageId" := "123", "offset" := "456"]
  }

  /** `test_remote_command_encode_decode_roundtrip`: a command with code 10,
      flag 0, remark "remark", two extension fields and body "Hello World"
      survives encode followed by from_buffer, provided its serialised header
      leaves the total length within `i32`. */
  method RoundTripTest(counter: OpaqueCounter, ser: Serializer, parse: Parser)
    returns (cmd: RemoteCommand, decoded: Result<RemoteCommand, FrameError>)
    requires counter.Valid()
    requires HeaderCodec(ser, parse)
    requires forall id: i32 ::
               |ser(Header(10, LANGUAGE, VERSION, id, 0, "remark", TestFields()))| <= I32_MAX - 4 - 11
    modifies counter
    ensures cmd.body == [72, 101, 108, 108, 111, 32, 87, 111, 114, 108, 100]
    ensures cmd.header.extFields == TestFields()
    ensures decoded == Success(cmd)
  {
    var body := [72, 101, 108, 108, 111, 32, 87, 111, 114, 108, 100];  // b"Hello World"
    cmd := NewCommand(counter, 10, 0, "remark", TestFields(), body);
    var encoded := Encode(cmd, ser);
    decoded := FromBuffer(encoded, parse);
    DecodeEncode(cmd, ser, parse, []);
    assert encoded + [] == encoded;
  }
}
