/**
 * The byte layout of Java's `DataOutput`/`DataInput` (`writeInt`, `writeLong`,
 * `readInt`, `readLong`): two's-complement integers, most significant byte first.
 * Also the two byte cursors the packet code works on, Guava's
 * `ByteArrayDataOutput` (an append-only buffer) and `ByteArrayDataInput`
 * (a read cursor over a fixed byte array).
 */
module Wire {
  import opened Wrappers

  const TWO_31: int := 0x8000_0000
  const TWO_32: int := 0x1_0000_0000
  const TWO_63: int := 0x8000_0000_0000_0000
  const TWO_64: int := 0x1_0000_0000_0000_0000

  type uint8 = x: int | 0 <= x < 256

  /** Java `int`. */
  type int32 = x: int | -0x8000_0000 <= x < 0x8000_0000

  /** Java `long`. */
  type int64 = x: int | -0x8000_0000_0000_0000 <= x < 0x8000_0000_0000_0000

  const MAX_INT32: int32 := 0x7FFF_FFFF
  const MAX_INT64: int64 := 0x7FFF_FFFF_FFFF_FFFF

  /**
   * Java `long` arithmetic: the exact sum or difference of two `long`s reduced
   * to 64 bits, which takes at most one step of 2^64.
   */
  function Wrap64(x: int): (r: int64)
    requires -TWO_64 <= x < TWO_64
    ensures -TWO_63 <= x < TWO_63 ==> r == x
    ensures r == x || r == x - TWO_64 || r == x + TWO_64
  {
    if x >= TWO_63 then x - TWO_64 else if x < -TWO_63 then x + TWO_64 else x
  }

  /** Kotlin `Long.toInt()`: keep the low 32 bits, read them as a signed `int`. */
  function ToInt32(x: int): (r: int32)
    ensures -TWO_31 <= x < TWO_31 ==> r == x
    ensures (r - x) % TWO_32 == 0
  {
    (x + TWO_31) % TWO_32 - TWO_31
  }

  function Pow256(n: nat): (r: nat)
    ensures r > 0
  {
    if n == 0 then 1 else 256 * Pow256(n - 1)
  }

  /** The `n` bytes of `u`, most significant first. */
  function BigEndian(u: nat, n: nat): (r: seq<uint8>)
    requires u < Pow256(n)
    ensures |r| == n
  {
    if n == 0 then [] else BigEndian(u / 256, n - 1) + [u % 256]
  }

  /** The unsigned number whose big-endian bytes are `s`. */
  function FromBigEndian(s: seq<uint8>): (u: nat)
    ensures u < Pow256(|s|)
  {
    if s == [] then 0 else FromBigEndian(s[..|s| - 1]) * 256 + s[|s| - 1]
  }

  lemma {:induction false} FromBigEndianOfBigEndian(u: nat, n: nat)
    requires u < Pow256(n)
    ensures FromBigEndian(BigEndian(u, n)) == u
  {
    if n > 0 {
      var s := BigEndian(u, n);
      assert s[..|s| - 1] == BigEndian(u / 256, n - 1);
      FromBigEndianOfBigEndian(u / 256, n - 1);
    }
  }

  lemma {:induction false} BigEndianOfFromBigEndian(s: seq<uint8>)
    ensures BigEndian(FromBigEndian(s), |s|) == s
  {
    if s != [] {
      var init := s[..|s| - 1];
      BigEndianOfFromBigEndian(init);
      assert FromBigEndian(s) / 256 == FromBigEndian(init);
      assert s == init + [s[|s| - 1]];
    }
  }

  /** `DataOutput.writeInt`: four bytes, two's complement, big-endian. */
  function IntBytes(v: int32): (r: seq<uint8>)
    ensures |r| == 4
  {
    BigEndian(if v < 0 then v + TWO_32 else v, 4)
  }

  /** `DataOutput.writeLong`: eight bytes, two's complement, big-endian. */
  function LongBytes(v: int64): (r: seq<uint8>)
    ensures |r| == 8
  {
    BigEndian(if v < 0 then v + TWO_64 else v, 8)
  }

  /** `DataInput.readInt` over exactly four bytes. */
  function IntOf(s: seq<uint8>): (r: int32)
    requires |s| == 4
  {
    var u := FromBigEndian(s);
    if u >= TWO_31 then u - TWO_32 else u
  }

  /** `DataInput.readLong` over exactly eight bytes. */
  function LongOf(s: seq<uint8>): (r: int64)
    requires |s| == 8
  {
    var u := FromBigEndian(s);
    if u >= TWO_63 then u - TWO_64 else u
  }

  lemma IntRoundTrip(v: int32)
    ensures IntOf(IntBytes(v)) == v
  {
    FromBigEndianOfBigEndian(if v < 0 then v + TWO_32 else v, 4);
  }

  lemma LongRoundTrip(v: int64)
    ensures LongOf(LongBytes(v)) == v
  {
    FromBigEndianOfBigEndian(if v < 0 then v + TWO_64 else v, 8);
  }

  /** Every four bytes are the encoding of exactly one `int`. */
  lemma IntBytesOfIntOf(s: seq<uint8>)
    requires |s| == 4
    ensures IntBytes(IntOf(s)) == s
  {
    BigEndianOfFromBigEndian(s);
  }

  /** Every eight bytes are the encoding of exactly one `long`. */
  lemma LongBytesOfLongOf(s: seq<uint8>)
    requires |s| == 8
    ensures LongBytes(LongOf(s)) == s
  {
    BigEndianOfFromBigEndian(s);
  }

  /** The sign bit travels in the first byte written. */
  lemma LongSignInFirstByte(v: int64)
    ensures v < 0 <==> LongBytes(v)[0] >= 128
  {
    var u := if v < 0 then v + TWO_64 else v;
    var b := LongBytes(v);
    FromBigEndianOfBigEndian(u, 8);
    FirstByteWeight(b);
  }

  /** In eight big-endian bytes the first byte weighs 2^56. */
  lemma FirstByteWeight(b: seq<uint8>)
    requires |b| == 8
    ensures b[0] >= 128 <==> FromBigEndian(b) >= TWO_63
  {
    LeadingByteBounds(b);
    assert Pow256(7) == 0x100_0000_0000_0000;
  }

  /** The first of `n` big-endian bytes fixes the value up to a multiple of 256^(n-1). */
  lemma {:induction false} LeadingByteBounds(b: seq<uint8>)
    requires |b| >= 1
    ensures b[0] * Pow256(|b| - 1) <= FromBigEndian(b) < (b[0] + 1) * Pow256(|b| - 1)
  {
    if |b| > 1 {
      var init := b[..|b| - 1];
      LeadingByteBounds(init);
      assert init[0] == b[0];
      ShiftByte(b[0], Pow256(|init| - 1), FromBigEndian(init), b[|b| - 1]);
    }
  }

  /** Appending a byte multiplies both bounds by 256. */
  lemma ShiftByte(c: nat, p: nat, f: nat, x: uint8)
    requires c * p <= f < (c + 1) * p
    ensures c * (256 * p) <= f * 256 + x < (c + 1) * (256 * p)
  {
    assert c * (256 * p) == (c * p) * 256;
    assert (c + 1) * (256 * p) == ((c + 1) * p) * 256;
  }

  /** Why a read failed. */
  datatype ReadError =
    | EndOfInput    // Guava wraps the EOFException of a short read in an IllegalStateException
    | NegativeSize  // `new ArrayList<>(size)` rejects a negative capacity

  /** A value decoded from a byte array and the cursor just past it. */
  datatype Decoded<+T> = Decoded(value: T, next: nat)

  /** `readInt` at cursor `pos`. */
  function DecodeInt(data: seq<uint8>, pos: nat): (r: Result<Decoded<int32>, ReadError>)
    requires pos <= |data|
    ensures r.Success? <==> pos + 4 <= |data|
    ensures r.Success? ==> r.value.next == pos + 4 && IntBytes(r.value.value) == data[pos..pos + 4]
  {
    if |data| - pos < 4 then Failure(EndOfInput)
    else
      IntBytesOfIntOf(data[pos..pos + 4]);
      Success(Decoded(IntOf(data[pos..pos + 4]), pos + 4))
  }

  /** `readLong` at cursor `pos`. */
  function DecodeLong(data: seq<uint8>, pos: nat): (r: Result<Decoded<int64>, ReadError>)
    requires pos <= |data|
    ensures r.Success? <==> pos + 8 <= |data|
    ensures r.Success? ==> r.value.next == pos + 8 && LongBytes(r.value.value) == data[pos..pos + 8]
  {
    if |data| - pos < 8 then Failure(EndOfInput)
    else
      LongBytesOfLongOf(data[pos..pos + 8]);
      Success(Decoded(LongOf(data[pos..pos + 8]), pos + 8))
  }

  /** An `int` written into the middle of a stream reads back from there. */
  lemma DecodeIntBetween(pre: seq<uint8>, v: int32, post: seq<uint8>)
    ensures DecodeInt(pre + IntBytes(v) + post, |pre|) == Success(Decoded(v, |pre| + 4))
  {
    var data := pre + IntBytes(v) + post;
    assert data[|pre|..|pre| + 4] == IntBytes(v);
    IntRoundTrip(v);
  }

  /** A `long` written into the middle of a stream reads back from there. */
  lemma DecodeLongBetween(pre: seq<uint8>, v: int64, post: seq<uint8>)
    ensures DecodeLong(pre + LongBytes(v) + post, |pre|) == Success(Decoded(v, |pre| + 8))
  {
    var data := pre + LongBytes(v) + post;
    assert data[|pre|..|pre| + 8] == LongBytes(v);
    LongRoundTrip(v);
  }

  /** Guava `ByteArrayDataOutput`: bytes are only ever appended. */
  class DataOutput {
    var bytes: seq<uint8>

    constructor ()
      ensures bytes == []
    {
      bytes := [];
    }

    method WriteInt(v: int32)
      modifies this
      ensures bytes == old(bytes) + IntBytes(v)
    {
      bytes := bytes + IntBytes(v);
    }

    method WriteLong(v: int64)
      modifies this
      ensures bytes == old(bytes) + LongBytes(v)
    {
      bytes := bytes + LongBytes(v);
    }
  }

  /**
   * Guava `ByteArrayDataInput`: a cursor over a fixed array. A read that finds
   * too few bytes consumes what is left and fails.
   */
  class DataInput {
    const data: seq<uint8>
    var pos: nat

    ghost predicate Valid()
      reads this
    {
      pos <= |data|
    }

    constructor (data: seq<uint8>)
      ensures Valid() && this.data == data && pos == 0
    {
      this.data := data;
      pos := 0;
    }

    method ReadInt() returns (r: Result<int32, ReadError>)
      requires Valid()
      modifies this
      ensures Valid()
      ensures match DecodeInt(data, old(pos))
        case Success(d) => r == Success(d.value) && pos == d.next
        case Failure(e) => r == Failure(e) && pos == |data|
    {
      var d := DecodeInt(data, pos);
      if d.Success? {
        r := Success(d.value.value);
        pos := d.value.next;
      } else {
        r := Failure(d.error);
        pos := |data|;
      }
    }

    method ReadLong() returns (r: Result<int64, ReadError>)
      requires Valid()
      modifies this
      ensures Valid()
      ensures match DecodeLong(data, old(pos))
        case Success(d) => r == Success(d.value) && pos == d.next
        case Failure(e) => r == Failure(e) && pos == |data|
    {
      var d := DecodeLong(data, pos);
      if d.Success? {
        r := Success(d.value.value);
        pos := d.value.next;
      } else {
        r := Failure(d.error);
        pos := |data|;
      }
    }
  }
}
