/**
 * `PlayerAudioEndPacket`: the serverbound TCP packet that ends a talk burst.
 * Its whole body is the last sequence number of the burst, one `long`.
 */
module PlayerAudioEnd {
  import opened Wrappers
  import opened Wire

  /**
   * The server-side TCP handler the packet dispatches to. It is not part of this
   * model; here it only records the end packets it is handed, in order.
   */
  class ServerPacketTcpHandler {
    var handledEnds: seq<PlayerAudioEndPacket>

    constructor ()
      ensures handledEnds == []
    {
      handledEnds := [];
    }

    method HandleAudioEnd(packet: PlayerAudioEndPacket)
      modifies this
      ensures handledEnds == old(handledEnds) + [packet]
    {
      handledEnds := handledEnds + [packet];
    }
  }

  class PlayerAudioEndPacket {
    var sequenceNumber: int64

    /** The no-argument constructor used before `read`: the field holds Java's default. */
    constructor Empty()
      ensures sequenceNumber == 0
    {
      sequenceNumber := 0;
    }

    constructor (sequenceNumber: int64)
      ensures this.sequenceNumber == sequenceNumber
    {
      this.sequenceNumber := sequenceNumber;
    }

    method GetSequenceNumber() returns (r: int64)
      ensures r == sequenceNumber
    {
      r := sequenceNumber;
    }

    /** `read`: one `long` replaces the sequence number; a short read leaves it as it was. */
    method Read(input: DataInput) returns (r: Outcome)
      requires input.Valid()
      modifies this, input
      ensures input.Valid()
      ensures match DecodeLong(input.data, old(input.pos))
        case Success(d) => r == Done && sequenceNumber == d.value && input.pos == old(input.pos) + 8
        case Failure(e) => r == Failed(e) && sequenceNumber == old(sequenceNumber) && input.pos == |input.data|
    {
      var n := input.ReadLong();
      if n.Failure? {
        return Failed(n.error);
      }
      sequenceNumber := n.value;
      r := Done;
    }

    /** `write`: exactly the eight big-endian bytes of the sequence number. */
    method Write(out: DataOutput)
      modifies out
      ensures out.bytes == old(out.bytes) + LongBytes(sequenceNumber)
    {
      out.WriteLong(sequenceNumber);
    }

    /** `handle`: the packet hands itself to the handler, once. */
    method Handle(handler: ServerPacketTcpHandler)
      modifies handler
      ensures handler.handledEnds == old(handler.handledEnds) + [this]
    {
      handler.HandleAudioEnd(this);
    }
  }

  /** What `read` reports: it returns normally, or throws on a short read. */
  datatype Outcome = Done | Failed(error: ReadError)

  /**
   * A packet built with sequence number `n`, written out and read back into a
   * fresh packet, reports `n` again, for every `long` including negative ones.
   */
  method EndPacketRoundTrip(n: int64) returns (decoded: int64, written: nat)
    ensures decoded == n
    ensures written == 8
  {
    var sent := new PlayerAudioEndPacket(n);
    var out := new DataOutput();
    sent.Write(out);
    written := |out.bytes|;
    var input := new DataInput(out.bytes);
    var received := new PlayerAudioEndPacket.Empty();
    LongRoundTrip(n);
    assert out.bytes == [] + LongBytes(n) + [];
    DecodeLongBetween([], n, []);
    var outcome := received.Read(input);
    decoded := received.GetSequenceNumber();
  }

  /** The bytes of an end packet followed by anything: the packet reads back and stops after 8 bytes. */
  lemma EndPacketBytesDecode(n: int64, rest: seq<uint8>)
    ensures DecodeLong(LongBytes(n) + rest, 0) == Success(Decoded(n, 8))
  {
    assert LongBytes(n) + rest == [] + LongBytes(n) + rest;
    DecodeLongBetween([], n, rest);
  }
}
