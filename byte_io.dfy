/** The two pieces of `std::io` the frame codec drives: a growable byte vector
    written through `Write`, and a `Cursor` over a byte slice read through
    `Read`, both with byteorder's big-endian `i32` extensions. */
module ByteIo {
  import opened Wrappers
  import opened BigEndian

  /** The one error `read_exact` reports on a cursor: the input ran out. */
  datatype IoError = UnexpectedEof

  /** A `Vec<u8>` used as a writer: every write appends. */
  class ByteWriter {
    var data: seq<byte>

    /** `Vec::new()` */
    constructor ()
      ensures data == []
    {
      data := [];
    }

    /** `write_i32::<BigEndian>(v)` */
    method WriteI32(v: i32)
      modifies this
      ensures data == old(data) + EncodeI32(v)
    {
      data := data + EncodeI32(v);
    }

    /** `write_all(bytes)` */
    method WriteAll(bytes: seq<byte>)
      modifies this
      ensures data == old(data) + bytes
    {
      data := data + bytes;
    }
  }

  /** `Cursor::new(input)`: a read position over a fixed byte slice. */
  class Cursor {
    const input: seq<byte>
    var pos: nat

    ghost predicate Valid()
      reads this
    {
      pos <= |input|
    }

    constructor (input: seq<byte>)
      ensures Valid() && this.input == input && pos == 0
    {
      this.input := input;
      pos := 0;
    }

    /** `read_exact` into a buffer of n bytes: on success the next n bytes,
        on failure the cursor is left at the end of the input. */
    method ReadExact(n: nat) returns (r: Result<seq<byte>, IoError>)
      requires Valid()
      modifies this
      ensures Valid()
      ensures old(pos) + n <= |input| ==>
                r == Success(input[old(pos)..old(pos) + n]) && pos == old(pos) + n
      ensures |input| < old(pos) + n ==> r == Failure(UnexpectedEof) && pos == |input|
    {
      if pos + n <= |input| {
        r := Success(input[pos..pos + n]);
        pos := pos + n;
      } else {
        r := Failure(UnexpectedEof);
        pos := |input|;
      }
    }

    /** `read_i32::<BigEndian>()`: read_exact of four bytes, decoded. */
    method ReadI32() returns (r: Result<i32, IoError>)
      requires Valid()
      modifies this
      ensures Valid()
      ensures old(pos) + 4 <= |input| ==>
                r == Success(DecodeI32(input[old(pos)..old(pos) + 4])) && pos == old(pos) + 4
      ensures |input| < old(pos) + 4 ==> r == Failure(UnexpectedEof) && pos == |input|
    {
      var bytes := ReadExact(4);
      match bytes
      case Success(b) => r := Success(DecodeI32(b));
      case Failure(e) => r := Failure(e);
    }
  }
}
