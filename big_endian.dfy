/** The integer conversions the frame codec relies on: Rust's `as i32` cast and
    byteorder's `write_i32::<BigEndian>` / `read_i32::<BigEndian>`. */
module BigEndian {

  /** An unsigned 8-bit value, the element type of a `Vec<u8>`. */
  type byte = b: int | 0 <= b < 256

  const I32_MIN: int := -0x8000_0000
  const I32_MAX: int := 0x7FFF_FFFF
  const POW32: int := 0x1_0000_0000

  predicate IsI32(v: int)
  {
    I32_MIN <= v <= I32_MAX
  }

  /** A Rust `i32`. */
  type i32 = v: int | -0x8000_0000 <= v <= 0x7FFF_FFFF

  /** Rust's `n as i32` on a wider integer: keep the low 32 bits of n and read
      them as a two's complement value. */
  function ToI32(n: int): (r: i32)
    ensures (n - r) % POW32 == 0
    ensures IsI32(n) ==> r == n
  {
    var low := n % POW32;
    if low <= I32_MAX then low else low - POW32
  }

  /** The 32-bit pattern of v, as an unsigned number. */
  function Unsigned32(v: i32): (u: int)
    ensures 0 <= u < POW32
    ensures u == v || u == v + POW32
  {
    if v < 0 then v + POW32 else v
  }

  /** The four bytes `write_i32::<BigEndian>(v)` appends: v in two's complement,
      most significant byte first. */
  function EncodeI32(v: i32): (b: seq<byte>)
    ensures |b| == 4
  {
    var u := Unsigned32(v);
    var r0 := u % 0x100_0000;
    var r1 := r0 % 0x1_0000;
    [u / 0x100_0000, r0 / 0x1_0000, r1 / 0x100, r1 % 0x100]
  }

  /** The value `read_i32::<BigEndian>()` returns for the four bytes it reads. */
  function DecodeI32(b: seq<byte>): (v: i32)
    requires |b| == 4
  {
    var u := Unsigned(b);
    if u <= I32_MAX then u else u - POW32
  }

  /** The four bytes read as an unsigned big-endian number. */
  function Unsigned(b: seq<byte>): (u: int)
    requires |b| == 4
    ensures 0 <= u < POW32
  {
    (b[0] as int) * 0x100_0000 + (b[1] as int) * 0x1_0000 + (b[2] as int) * 0x100 + (b[3] as int)
  }

  /** Reading back what was written yields the written value. */
  lemma DecodeEncodeI32(v: i32)
    ensures DecodeI32(EncodeI32(v)) == v
  {

  }

  /** Writing what was read reproduces the four bytes. */
  lemma EncodeDecodeI32(b: seq<byte>)
    requires |b| == 4
    ensures EncodeI32(DecodeI32(b)) == b
  {
    var u := Unsigned(b);
    var b0, b1, b2, b3 := b[0] as int, b[1] as int, b[2] as int, b[3] as int;
    var r0 := b1 * 0x1_0000 + b2 * 0x100 + b3;
    assert u / 0x100_0000 == b0 && u % 0x100_0000 == r0;
    assert r0 / 0x1_0000 == b1 && r0 % 0x1_0000 == b2 * 0x100 + b3;
    assert (b2 * 0x100 + b3) / 0x100 == b2 && (b2 * 0x100 + b3) % 0x100 == b3;
    var e := EncodeI32(DecodeI32(b));
    assert e[0] == b[0] && e[1] == b[1] && e[2] == b[2] && e[3] == b[3];
  }
}
