/**
 * `PacketUtil`: the field codecs shared by the voice packets. A UUID travels as
 * two `long`s, the most significant half first; a list of `int`s travels as its
 * `int` size followed by the elements in order.
 */
module PacketUtil {
  import opened Wrappers
  import opened Wire

  /** `java.util.UUID`: 128 bits held as two `long`s. */
  datatype Uuid = Uuid(mostSignificantBits: int64, leastSignificantBits: int64)

  /** The bytes `writeUUID` appends. */
  function UuidBytes(u: Uuid): (r: seq<uint8>)
    ensures |r| == 16
  {
    LongBytes(u.mostSignificantBits) + LongBytes(u.leastSignificantBits)
  }

  /** The elements of an int list, each as four bytes, in list order. */
  function IntsBytes(list: seq<int32>): (r: seq<uint8>)
    ensures |r| == 4 * |list|
  {
    if list == [] then [] else IntsBytes(list[..|list| - 1]) + IntBytes(list[|list| - 1])
  }

  /** The bytes `writeIntList` appends. A Java list never holds more than `MAX_INT32` elements. */
  function IntListBytes(list: seq<int32>): (r: seq<uint8>)
    requires |list| <= MAX_INT32
    ensures |r| == 4 + 4 * |list|
    ensures r[..4] == IntBytes(|list|)
  {
    IntBytes(|list|) + IntsBytes(list)
  }

  /** `readUUID` at cursor `pos`: the most significant half is read first. */
  function DecodeUuid(data: seq<uint8>, pos: nat): (r: Result<Decoded<Uuid>, ReadError>)
    requires pos <= |data|
    ensures r.Success? <==> pos + 16 <= |data|
    ensures r.Failure? ==> r.error == EndOfInput
    ensures r.Success? ==> r.value.next == pos + 16 && UuidBytes(r.value.value) == data[pos..pos + 16]
  {
    match DecodeLong(data, pos)
    case Failure(e) => Failure(e)
    case Success(most) =>
      match DecodeLong(data, most.next)
      case Failure(e) => Failure(e)
      case Success(least) =>
        assert data[pos..pos + 16] == data[pos..pos + 8] + data[pos + 8..pos + 16];
        Success(Decoded(Uuid(most.value, least.value), least.next))
  }

  /** `n` consecutive `readInt`s from cursor `pos`. */
  function DecodeInts(data: seq<uint8>, pos: nat, n: nat): (r: Result<Decoded<seq<int32>>, ReadError>)
    requires pos <= |data|
    ensures r.Success? <==> pos + 4 * n <= |data|
    ensures r.Failure? ==> r.error == EndOfInput
    ensures r.Success? ==> |r.value.value| == n && r.value.next == pos + 4 * n
    ensures r.Success? ==> IntsBytes(r.value.value) == data[pos..pos + 4 * n]
  {
    if n == 0 then Success(Decoded([], pos))
    else
      match DecodeInts(data, pos, n - 1)
      case Failure(e) => Failure(e)
      case Success(init) =>
        match DecodeInt(data, init.next)
        case Failure(e) => Failure(e)
        case Success(last) =>
          var list := init.value + [last.value];
          assert list[..n - 1] == init.value;
          assert data[pos..pos + 4 * n] == data[pos..init.next] + data[init.next..last.next];
          Success(Decoded(list, last.next))
  }

  /** `readIntList` at cursor `pos`: a size, rejected when negative, then that many `int`s. */
  function DecodeIntList(data: seq<uint8>, pos: nat): (r: Result<Decoded<seq<int32>>, ReadError>)
    requires pos <= |data|
    ensures r.Success? <==>
      pos + 4 <= |data| && IntOf(data[pos..pos + 4]) >= 0 && pos + 4 + 4 * IntOf(data[pos..pos + 4]) <= |data|
    ensures pos + 4 <= |data| && IntOf(data[pos..pos + 4]) < 0 <==> r == Failure(NegativeSize)
    ensures r.Success? ==> |r.value.value| == IntOf(data[pos..pos + 4])
    ensures r.Success? ==> r.value.next == pos + 4 + 4 * |r.value.value|
    ensures r.Success? ==> IntListBytes(r.value.value) == data[pos..r.value.next]
  {
    match DecodeInt(data, pos)
    case Failure(e) => Failure(e)
    case Success(size) =>
      IntRoundTrip(size.value);
      if size.value < 0 then Failure(NegativeSize)
      else
        match DecodeInts(data, size.next, size.value)
        case Failure(e) => Failure(e)
        case Success(elems) =>
          assert data[pos..elems.next] == data[pos..pos + 4] + data[pos + 4..elems.next];
          Success(elems)
  }

  /** `readUUID(writeUUID(u)) == u`, wherever the UUID sits in the stream. */
  lemma UuidRoundTrip(pre: seq<uint8>, u: Uuid, post: seq<uint8>)
    ensures DecodeUuid(pre + UuidBytes(u) + post, |pre|) == Success(Decoded(u, |pre| + 16))
  {
    var m, l := u.mostSignificantBits, u.leastSignificantBits;
    assert pre + UuidBytes(u) + post == pre + LongBytes(m) + (LongBytes(l) + post);
    DecodeLongBetween(pre, m, LongBytes(l) + post);
    assert pre + UuidBytes(u) + post == (pre + LongBytes(m)) + LongBytes(l) + post;
    DecodeLongBetween(pre + LongBytes(m), l, post);
  }

  /** The elements written by `writeIntList` read back in order, from wherever they sit. */
  lemma {:induction false} IntsRoundTrip(pre: seq<uint8>, list: seq<int32>, post: seq<uint8>)
    ensures DecodeInts(pre + IntsBytes(list) + post, |pre|, |list|)
         == Success(Decoded(list, |pre| + 4 * |list|))
  {
    if list != [] {
      var n := |list|;
      var init, last := list[..n - 1], list[n - 1];
      assert list == init + [last];
      var data := pre + IntsBytes(list) + post;
      assert data == pre + IntsBytes(init) + (IntBytes(last) + post);
      IntsRoundTrip(pre, init, IntBytes(last) + post);
      assert data == (pre + IntsBytes(init)) + IntBytes(last) + post;
      DecodeIntBetween(pre + IntsBytes(init), last, post);
    }
  }

  /** `readIntList(writeIntList(l)) == l`: same length, same order, cursor just past the list. */
  lemma IntListRoundTrip(pre: seq<uint8>, list: seq<int32>, post: seq<uint8>)
    requires |list| <= MAX_INT32
    ensures DecodeIntList(pre + IntListBytes(list) + post, |pre|)
         == Success(Decoded(list, |pre| + 4 + 4 * |list|))
  {
    var data := pre + IntListBytes(list) + post;
    assert data == pre + IntBytes(|list|) + (IntsBytes(list) + post);
    DecodeIntBetween(pre, |list|, IntsBytes(list) + post);
    assert data == (pre + IntBytes(|list|)) + IntsBytes(list) + post;
    IntsRoundTrip(pre + IntBytes(|list|), list, post);
  }

  /** A size prefix that reads as negative yields no list. */
  lemma NegativeSizeRejected(pre: seq<uint8>, size: int32, post: seq<uint8>)
    requires size < 0
    ensures DecodeIntList(pre + IntBytes(size) + post, |pre|) == Failure(NegativeSize)
  {
    DecodeIntBetween(pre, size, post);
  }

  /** Two fields written back to back decode one after the other. */
  lemma UuidThenIntList(u: Uuid, list: seq<int32>)
    requires |list| <= MAX_INT32
    ensures var data := UuidBytes(u) + IntListBytes(list);
      && DecodeUuid(data, 0) == Success(Decoded(u, 16))
      && DecodeIntList(data, 16) == Success(Decoded(list, |data|))
  {
    var data := UuidBytes(u) + IntListBytes(list);
    assert data == [] + UuidBytes(u) + IntListBytes(list);
    UuidRoundTrip([], u, IntListBytes(list));
    assert data == UuidBytes(u) + IntListBytes(list) + [];
    IntListRoundTrip(UuidBytes(u), list, []);
  }

  /** `writeUUID`: the most significant long, then the least significant one. */
  method WriteUuid(out: DataOutput, u: Uuid)
    modifies out
    ensures out.bytes == old(out.bytes) + UuidBytes(u)
  {
    out.WriteLong(u.mostSignificantBits);
    out.WriteLong(u.leastSignificantBits);
  }

  /** `readUUID`: the first long read becomes the most significant half. */
  method ReadUuid(input: DataInput) returns (r: Result<Uuid, ReadError>)
    requires input.Valid()
    modifies input
    ensures input.Valid()
    ensures match DecodeUuid(input.data, old(input.pos))
      case Success(d) => r == Success(d.value) && input.pos == d.next
      case Failure(e) => r == Failure(e) && input.pos == |input.data|
  {
    var most := input.ReadLong();
    if most.Failure? {
      return Failure(most.error);
    }
    var least := input.ReadLong();
    if least.Failure? {
      return Failure(least.error);
    }
    r := Success(Uuid(most.value, least.value));
  }

  /** `writeIntList`: the size, then every element in list order. */
  method WriteIntList(out: DataOutput, list: seq<int32>)
    requires |list| <= MAX_INT32
    modifies out
    ensures out.bytes == old(out.bytes) + IntListBytes(list)
  {
    out.WriteInt(|list|);
    for i := 0 to |list|
      invariant out.bytes == old(out.bytes) + IntBytes(|list|) + IntsBytes(list[..i])
    {
      assert list[..i + 1][..i] == list[..i];
      out.WriteInt(list[i]);
    }
    assert list[..|list|] == list;
  }

  /**
   * `readIntList`: a negative size fails when the list is allocated, after the
   * size has been read; a short read fails having consumed the rest of the input.
   */
  method ReadIntList(input: DataInput) returns (r: Result<seq<int32>, ReadError>)
    requires input.Valid()
    modifies input
    ensures input.Valid()
    ensures match DecodeIntList(input.data, old(input.pos))
      case Success(d) => r == Success(d.value) && input.pos == d.next
      case Failure(EndOfInput) => r == Failure(EndOfInput) && input.pos == |input.data|
      case Failure(NegativeSize) => r == Failure(NegativeSize) && input.pos == old(input.pos) + 4
  {
    var size := input.ReadInt();
    if size.Failure? {
      return Failure(size.error);
    }
    if size.value < 0 {
      return Failure(NegativeSize);
    }
    var start := input.pos;
    var list: seq<int32> := [];
    var i := 0;
    while i < size.value
      invariant 0 <= i <= size.value
      invariant input.Valid()
      invariant DecodeInts(input.data, start, i) == Success(Decoded(list, input.pos))
    {
      var x := input.ReadInt();
      if x.Failure? {
        assert DecodeInts(input.data, start, i + 1).Failure?;
        return Failure(x.error);
      }
      list := list + [x.value];
      i := i + 1;
    }
    r := Success(list);
  }
}
