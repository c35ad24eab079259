/** Little-endian byte encodings shared by the peripheral's wire frames
    (the `<B`, `<I`, `<i` and `<f` formats of MicroPython's `struct`). */
module Bytes {

  type byte = x: int | 0 <= x < 256

  const TWO32: int := 0x1_0000_0000
  const TWO31: int := 0x8000_0000

  /** An unsigned 32-bit value (`<I`). */
  type uint32 = x: int | 0 <= x < TWO32

  /** A signed 32-bit value (`<i`). */
  type int32 = x: int | -TWO31 <= x < TWO31

  /** A float32 carried as its IEEE-754 bit pattern; `struct.pack("<f", w)` writes
      exactly these four bytes, little-endian. */
  type Float32 = uint32

  /** The value of four little-endian bytes. */
  function FromLE(b: seq<byte>): (v: uint32)
    requires |b| == 4
  {
    b[0] as int + 256 * (b[1] as int) + 65536 * (b[2] as int) + 16777216 * (b[3] as int)
  }

  /** `struct.pack("<I", v)`. */
  function U32LE(v: uint32): (r: seq<byte>)
    ensures |r| == 4
    ensures FromLE(r) == v
  {
    var r := [v % 256, (v / 256) % 256, (v / 65536) % 256, v / 16777216];
    assert FromLE(r) == v by {
      var q1 := v / 256;
      var q2 := q1 / 256;
      assert v == v % 256 + 256 * q1;
      assert q1 == q1 % 256 + 256 * q2;
      assert q2 == q2 % 256 + 256 * (q2 / 256);
      assert v / 65536 == q2;
      assert v / 16777216 == q2 / 256;
    }
    r
  }

  /** Two's complement of a signed 32-bit value, as the unsigned word it is stored in. */
  function TwosComplement32(v: int32): (u: uint32)
    ensures v >= 0 ==> u == v
    ensures v < 0 ==> u == v + TWO32
  {
    if v >= 0 then v else v + TWO32
  }

  /** Reading an unsigned word back as a signed 32-bit value. */
  function SignedOf32(u: uint32): (v: int32)
    ensures TwosComplement32(v) == u
  {
    if u < TWO31 then u else u - TWO32
  }

  /** `struct.pack("<i", v)`. */
  function I32LE(v: int32): (r: seq<byte>)
    ensures |r| == 4
  {
    U32LE(TwosComplement32(v))
  }

  /** `struct.unpack("<i", b)`. */
  function FromI32LE(b: seq<byte>): int32
    requires |b| == 4
  {
    SignedOf32(FromLE(b))
  }

  lemma {:induction false} I32RoundTrip(v: int32)
    ensures FromI32LE(I32LE(v)) == v
  {
  }

  /** Four bytes are determined by their little-endian value. */
  lemma {:induction false} U32LEOfFromLE(b: seq<byte>)
    requires |b| == 4
    ensures U32LE(FromLE(b)) == b
  {
    var v := FromLE(b);
    assert v % 256 == b[0];
    assert v / 256 == b[1] as int + 256 * (b[2] as int) + 65536 * (b[3] as int);
    assert v / 65536 == b[2] as int + 256 * (b[3] as int);
    assert v / 16777216 == b[3];
  }
}
