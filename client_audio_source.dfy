/**
 * The receiving side of one audio source on the client (`BaseClientAudioSource`).
 * Every handler runs under the source's mutex, so each is modelled as one
 * atomic step on the source's state: the last sequence number seen per source
 * line, the `activated`, `resetted`, `canHear` and `closed` flags, the time of
 * the last accepted packet, and whether a delayed end-of-stream reset is pending.
 * What the source writes to the audio device is kept as a log of frames.
 */
module ClientAudio {
  import opened Wrappers
  import opened Wire
  import opened PacketUtil

  /** The parts of the server's source description that the handlers consult. */
  datatype SourceInfo = SourceInfo(lineId: Uuid, state: int, isStereo: bool)

  /** A UDP audio packet of this source; `data` is encrypted, encoded audio. */
  datatype AudioPacket = AudioPacket(sequenceNumber: int64, sourceState: int, distance: int, data: seq<uint8>)

  /** The TCP packet that ends a talk burst of this source. */
  datatype AudioEndPacket = AudioEndPacket(sequenceNumber: int64)

  /** The decoder the source holds; only a concealing one can synthesise lost frames. */
  datatype Decoder = NoDecoder | PlainDecoder | ConcealingDecoder

  /** A frame written to the device: an empty filler, a concealment frame, or decoded audio. */
  datatype Frame = Silence | Concealment | Audio(samples: seq<int>)

  const DEFAULT_CLOSE_TIMEOUT_MS: int64 := 500

  /** Out-of-order packets at most this far behind the last one are dropped. */
  const REORDER_WINDOW: int := 10

  /** At most this many lost packets are compensated. */
  const MAX_COMPENSATED: int := 4

  datatype SourceState = SourceState(
    info: SourceInfo,
    decoder: Decoder,
    closeTimeoutMs: int64,
    lastSequenceNumbers: map<Uuid, int64>,
    lastActivation: int,
    closed: bool,
    resetted: bool,
    activated: bool,
    canHear: bool,
    endRequestPending: bool,
    decoderResets: nat,
    written: seq<Frame>)

  function Initial(info: SourceInfo, decoder: Decoder): (s: SourceState)
    ensures !s.closed && !s.activated && !s.canHear && !s.resetted && s.written == []
  {
    SourceState(info, decoder, DEFAULT_CLOSE_TIMEOUT_MS, map[], 0,
                false, false, false, false, false, 0, [])
  }

  /** The last sequence number of the source's current line, -1 when there is none. */
  function LastSequenceNumber(s: SourceState): (r: int64)
  {
    if s.info.lineId in s.lastSequenceNumbers then s.lastSequenceNumbers[s.info.lineId] else -1
  }

  /** The gate at the head of `processAudioPacket`. */
  datatype Verdict =
    | WrongState                          // the packet belongs to another state of the source
    | OutOfOrder                          // at most REORDER_WINDOW - 1 behind the last packet
    | Accepted(last: int64, restart: bool) // `restart`: so far behind that the line starts over

  function Judge(s: SourceState, p: AudioPacket): (v: Verdict)
    ensures v.WrongState? <==> p.sourceState != s.info.state
    ensures v.Accepted? ==> v.last == LastSequenceNumber(s)
    ensures v.Accepted? && v.restart ==> 0 <= v.last && p.sequenceNumber <= v.last
    ensures v.OutOfOrder? ==> 0 <= LastSequenceNumber(s) && p.sequenceNumber <= LastSequenceNumber(s)
  {
    if p.sourceState != s.info.state then WrongState
    else
      var last := LastSequenceNumber(s);
      if last >= 0 && p.sequenceNumber <= last then
        // the difference is a Kotlin `Long` subtraction
        if Wrap64(last - p.sequenceNumber) < REORDER_WINDOW then OutOfOrder else Accepted(last, true)
      else Accepted(last, false)
  }

  /**
   * How many frames are written for packets lost between `last` and `sequence`: the
   * gap when it is at most MAX_COMPENSATED, otherwise none.
   */
  function FillerCount(last: int64, sequence: int64): (n: nat)
    ensures n <= MAX_COMPENSATED
    ensures n > 0 ==> 0 <= last < sequence && n == sequence - last - 1
  {
    if 0 <= last && 0 <= sequence - last - 1 <= MAX_COMPENSATED then sequence - last - 1 else 0
  }

  /**
   * The filler count as the source computes it: the `Long` gap is narrowed
   * with `toInt()` before it is compared with 4, and `0 until k` is empty for k <= 0.
   */
  function FillerCountAsWritten(last: int64, sequence: int64): (n: nat)
    ensures n <= MAX_COMPENSATED
  {
    if last < 0 then 0
    else
      var k := ToInt32(Wrap64(sequence - Wrap64(last + 1)));
      if k <= MAX_COMPENSATED && k > 0 then k else 0
  }

  /** A gap of 2^32 + 2 lost packets is narrowed to 2 and compensated with two fillers. */
  lemma FillerCountTruncates()
    ensures FillerCountAsWritten(0, 0x1_0000_0003) == 2
    ensures FillerCount(0, 0x1_0000_0003) == 0
  {
    assert Wrap64(0 + 1) == 1;
    assert Wrap64(0x1_0000_0003 - 1) == 0x1_0000_0002;
  }

  /** On a restarted line (the packet is far behind) the narrowed gap can also come out positive. */
  lemma FillerCountTruncatesOnRestart()
    ensures FillerCountAsWritten(0x1_0000_0000, 3) == 2
    ensures FillerCount(0x1_0000_0000, 3) == 0
  {
    assert Wrap64(0x1_0000_0000 + 1) == 0x1_0000_0001;
    assert Wrap64(3 - 0x1_0000_0001) == -0xFFFF_FFFE;
  }

  /** Whenever the gap fits in an `int`, the source's count is the intended one. */
  lemma FillerCountAgrees(last: int64, sequence: int64)
    requires 0 <= last < MAX_INT64
    requires -TWO_31 <= sequence - last - 1 < TWO_31
    ensures FillerCountAsWritten(last, sequence) == FillerCount(last, sequence)
  {
    assert Wrap64(last + 1) == last + 1;
    assert Wrap64(sequence - (last + 1)) == sequence - last - 1;
    assert ToInt32(sequence - last - 1) == sequence - last - 1;
  }

  function Repeat(f: Frame, n: nat): (r: seq<Frame>)
    ensures |r| == n && forall i :: 0 <= i < n ==> r[i] == f
  {
    if n == 0 then [] else Repeat(f, n - 1) + [f]
  }

  function DecodedFrames(decoded: Option<seq<int>>): (r: seq<Frame>)
  {
    if decoded.Some? then [Audio(decoded.value)] else []
  }

  /** Lost packets are concealed only by a concealing decoder on a mono source. */
  predicate Conceals(s: SourceState)
  {
    s.decoder == ConcealingDecoder && !s.info.isStereo
  }

  /**
   * Whether `processAudioPacket` runs to its end: the gate accepts the packet,
   * the source is not closed, and no concealment call fails. `concealFailsAt`
   * is the index of the first concealment call that throws, if any.
   */
  predicate Completes(s: SourceState, p: AudioPacket, concealFailsAt: Option<nat>)
  {
    && Judge(s, p).Accepted?
    && !s.closed
    && !(Conceals(s) && concealFailsAt.Some?
         && concealFailsAt.value < FillerCount(Judge(s, p).last, p.sequenceNumber))
  }

  /**
   * `processAudioPacket`. Decryption and decoding are outside the model:
   * `decoded` is their result, None when either throws. `sourceDistance` is the
   * listener's distance to the source.
   */
  function OnAudioPacket(s: SourceState, p: AudioPacket, now: int, sourceDistance: int,
                         concealFailsAt: Option<nat>, decoded: Option<seq<int>>): (r: SourceState)
    ensures !Judge(s, p).Accepted? ==> r == s
    ensures r.info == s.info && r.decoder == s.decoder && r.closed == s.closed
    ensures r.closeTimeoutMs == s.closeTimeoutMs && r.decoderResets == s.decoderResets
    ensures !Completes(s, p, concealFailsAt) ==>
      r.activated == s.activated && r.resetted == s.resetted &&
      r.canHear == s.canHear && r.lastActivation == s.lastActivation
  {
    match Judge(s, p)
    case WrongState => s
    case OutOfOrder => s
    case Accepted(last, restart) =>
      Play(Admit(s, restart), p, last, now, sourceDistance, concealFailsAt, decoded)
  }

  /**
   * What the gate does to a packet it lets through: a restarted line forgets its
   * last sequence number, and a pending end-of-stream reset is cancelled.
   */
  function Admit(s: SourceState, restart: bool): (r: SourceState)
    ensures !r.endRequestPending
    ensures r.(lastSequenceNumbers := s.lastSequenceNumbers, endRequestPending := s.endRequestPending) == s
    ensures restart ==> r.info.lineId !in r.lastSequenceNumbers
    ensures !restart ==> r.lastSequenceNumbers == s.lastSequenceNumbers
  {
    s.(lastSequenceNumbers := if restart then s.lastSequenceNumbers - {s.info.lineId}
                              else s.lastSequenceNumbers,
       endRequestPending := false)
  }

  /**
   * The rest of `processAudioPacket` once the gate has let the packet through,
   * `last` being the line's last sequence number as the gate read it: stop if the
   * source is closed, write the compensation fillers and the decoded frame, and
   * record the packet.
   */
  function Play(s: SourceState, p: AudioPacket, last: int64, now: int, sourceDistance: int,
                concealFailsAt: Option<nat>, decoded: Option<seq<int>>): (r: SourceState)
    ensures s.closed ==> r == s
    ensures r.info == s.info && r.decoder == s.decoder && r.closed == s.closed
    ensures r.endRequestPending == s.endRequestPending
  {
    if s.closed then s
    else
      var n := FillerCount(last, p.sequenceNumber);
      if Conceals(s) && concealFailsAt.Some? && concealFailsAt.value < n then
        s.(written := s.written + Repeat(Concealment, concealFailsAt.value))
      else
        var filler := if Conceals(s) then Concealment else Silence;
        Record(s.(written := s.written + Repeat(filler, n)), p, now, sourceDistance, decoded)
  }

  /**
   * The end of `processAudioPacket`: the decoded frame, if any, is written and the
   * packet becomes the line's last; the source is active and may be reset again.
   */
  function Record(s: SourceState, p: AudioPacket, now: int, sourceDistance: int,
                  decoded: Option<seq<int>>): (r: SourceState)
    ensures r.written == s.written + DecodedFrames(decoded)
    ensures LastSequenceNumber(r) == p.sequenceNumber
    ensures r.activated && !r.resetted && r.lastActivation == now
    ensures p.distance > 0 ==> (r.canHear <==> sourceDistance <= p.distance)
    ensures p.distance <= 0 ==> r.canHear == s.canHear
    ensures r.info == s.info && r.decoder == s.decoder && r.closed == s.closed
    ensures r.endRequestPending == s.endRequestPending
  {
    s.(written := s.written + DecodedFrames(decoded),
       lastSequenceNumbers := s.lastSequenceNumbers[s.info.lineId := p.sequenceNumber],
       lastActivation := now,
       canHear := if p.distance > 0 then sourceDistance <= p.distance else s.canHear,
       activated := true,
       resetted := false)
  }

  /** `process(SourceAudioPacket)`: a closed source or a muted line ignores the packet. */
  function Receive(s: SourceState, lineMuted: bool, p: AudioPacket, now: int, sourceDistance: int,
                   concealFailsAt: Option<nat>, decoded: Option<seq<int>>): (r: SourceState)
    ensures s.closed || lineMuted ==> r == s
  {
    if s.closed || lineMuted then s
    else OnAudioPacket(s, p, now, sourceDistance, concealFailsAt, decoded)
  }

  /** `processAudioEndPacket`: the end's sequence number becomes the line's last, while activated. */
  function OnEndPacket(s: SourceState, p: AudioEndPacket): (r: SourceState)
    ensures !s.activated ==> r == s
    ensures s.activated ==> LastSequenceNumber(r) == p.sequenceNumber
    ensures r.(lastSequenceNumbers := s.lastSequenceNumbers) == s
    ensures forall line :: line != s.info.lineId ==>
      (line in r.lastSequenceNumbers <==> line in s.lastSequenceNumbers)
  {
    if !s.activated then s
    else s.(lastSequenceNumbers := s.lastSequenceNumbers[s.info.lineId := p.sequenceNumber])
  }

  /**
   * `process(SourceAudioEndPacket)`: unless closed or muted, the end packet is
   * processed and a reset is scheduled (replacing any earlier one).
   */
  function ReceiveEnd(s: SourceState, lineMuted: bool, p: AudioEndPacket): (r: SourceState)
    ensures s.closed || lineMuted ==> r == s
    ensures !s.closed && !lineMuted ==> r.endRequestPending
  {
    if s.closed || lineMuted then s
    else OnEndPacket(s, p).(endRequestPending := true)
  }

  /** `reset`: acts only once until the next accepted packet. */
  function Reset(s: SourceState): (r: SourceState)
    ensures s.resetted ==> r == s
    ensures r.resetted
    ensures !s.resetted ==> !r.activated && !r.canHear
    ensures r.lastSequenceNumbers == s.lastSequenceNumbers && r.closed == s.closed
  {
    if s.resetted then s
    else s.(resetted := true,
            decoderResets := if s.decoder != NoDecoder then s.decoderResets + 1 else s.decoderResets,
            activated := false,
            canHear := false)
  }

  /** The delayed reset scheduled by an end packet fires, unless a later packet cancelled it. */
  function EndRequestFires(s: SourceState): (r: SourceState)
    ensures !s.endRequestPending ==> r == s
    ensures s.endRequestPending ==> r == Reset(s.(endRequestPending := false))
  {
    if s.endRequestPending then Reset(s.(endRequestPending := false)) else s
  }

  /** `close`. */
  function Close(s: SourceState): (r: SourceState)
    ensures r.closed && !r.activated && !r.canHear
    ensures r.lastSequenceNumbers == s.lastSequenceNumbers && r.resetted == s.resetted
  {
    s.(activated := false, canHear := false, closed := true)
  }

  /** No end packet arrived for longer than the close timeout since the last accepted packet. */
  predicate TimedOut(s: SourceState, now: int)
  {
    s.closeTimeoutMs > 0 && now - s.lastActivation > s.closeTimeoutMs
  }

  /**
   * `isActivated`: a source activated for longer than the timeout without an
   * end packet is reset and reported inactive.
   */
  function IsActivated(s: SourceState, now: int): (r: (bool, SourceState))
    ensures r.0 <==> s.activated && !TimedOut(s, now)
    ensures s.activated && TimedOut(s, now) ==> r.1 == Reset(s)
    ensures !(s.activated && TimedOut(s, now)) ==> r.1 == s
  {
    if s.activated then
      if TimedOut(s, now) then (false, Reset(s)) else (true, s)
    else (false, s)
  }

  /** `onSourceStopped`: the device stopped one of this source's streams. */
  function OnSourceStopped(s: SourceState, ownSource: bool): (r: SourceState)
    ensures s.closed || !ownSource || s.closeTimeoutMs == 0 ==> r == s
    ensures !s.closed && ownSource && s.closeTimeoutMs != 0 ==> r == Reset(s)
  {
    if s.closed || !ownSource || s.closeTimeoutMs == 0 then s else Reset(s)
  }

  /** `onSourceClosed`: the device closed one of this source's streams. */
  function OnSourceClosed(s: SourceState, ownSource: bool): (r: SourceState)
    ensures s.closed || !ownSource ==> r == s
    ensures !s.closed && ownSource ==> r.closed && !r.activated && !r.canHear
  {
    if s.closed || !ownSource then s else Close(s)
  }

  /**
   * `update`: the new description replaces the old one; when the stereo flag
   * changes and the description carries decoder parameters, the decoder is rebuilt.
   */
  function Update(s: SourceState, info: SourceInfo, rebuilt: Option<Decoder>): (r: SourceState)
    ensures r.info == info
    ensures r.lastSequenceNumbers == s.lastSequenceNumbers && r.activated == s.activated
    ensures r.closed == s.closed
  {
    var decoder := if info.isStereo != s.info.isStereo && rebuilt.Some? then rebuilt.value else s.decoder;
    s.(info := info, decoder := decoder)
  }

  // ---------------------------------------------------------------------------
  // Properties of the handlers

  /** A packet that is dropped by the gate changes nothing. */
  lemma DroppedPacketChangesNothing(s: SourceState, p: AudioPacket, now: int, dist: int,
                                    failAt: Option<nat>, decoded: Option<seq<int>>)
    requires p.sourceState != s.info.state || Judge(s, p).OutOfOrder?
    ensures OnAudioPacket(s, p, now, dist, failAt, decoded) == s
  {
  }

  /**
   * For non-negative sequence numbers the gate works on plain differences: a
   * packet at most 9 behind the last is dropped, one 10 or more behind starts
   * the line over, and any later packet is accepted.
   */
  lemma ReorderWindow(s: SourceState, p: AudioPacket)
    requires p.sourceState == s.info.state && 0 <= p.sequenceNumber
    ensures var last := LastSequenceNumber(s);
      && (Judge(s, p).OutOfOrder? <==> 0 <= last && last - REORDER_WINDOW < p.sequenceNumber <= last)
      && (Judge(s, p) == Accepted(last, true) <==> 0 <= last && p.sequenceNumber <= last - REORDER_WINDOW)
      && (Judge(s, p) == Accepted(last, false) <==> last < 0 || last < p.sequenceNumber)
  {
    var last := LastSequenceNumber(s);
    if 0 <= last && p.sequenceNumber <= last {
      assert Wrap64(last - p.sequenceNumber) == last - p.sequenceNumber;
    }
  }

  /** A packet only appends to what was written: at most four fillers and its own frame. */
  lemma PacketAppendsFrames(s: SourceState, p: AudioPacket, now: int, dist: int,
                            failAt: Option<nat>, decoded: Option<seq<int>>)
    ensures var r := OnAudioPacket(s, p, now, dist, failAt, decoded);
      s.written <= r.written && |r.written| <= |s.written| + MAX_COMPENSATED + 1
  {
    if Completes(s, p, failAt) {
      CompletedIsRecorded(s, p, now, dist, failAt, decoded);
    }
  }

  /**
   * A packet that runs to completion becomes the line's last sequence number,
   * activates the source and clears `resetted`, whether or not it decoded;
   * before its own frame exactly the compensated fillers are written.
   */
  lemma AcceptedPacketEffect(s: SourceState, p: AudioPacket, now: int, dist: int,
                             failAt: Option<nat>, decoded: Option<seq<int>>)
    requires Completes(s, p, failAt)
    ensures var r := OnAudioPacket(s, p, now, dist, failAt, decoded);
      && r.lastSequenceNumbers == s.lastSequenceNumbers[s.info.lineId := p.sequenceNumber]
      && r.activated && !r.resetted && r.lastActivation == now && !r.endRequestPending
      && r.written == s.written
                      + Repeat(if Conceals(s) then Concealment else Silence,
                               FillerCount(LastSequenceNumber(s), p.sequenceNumber))
                      + DecodedFrames(decoded)
  {
    var v := Judge(s, p);
    CompletedIsRecorded(s, p, now, dist, failAt, decoded);
    if v.restart {
      var line := s.info.lineId;
      assert (s.lastSequenceNumbers - {line})[line := p.sequenceNumber]
          == s.lastSequenceNumbers[line := p.sequenceNumber];
    }
  }

  /** A packet that runs to completion is admitted, compensated and recorded. */
  lemma CompletedIsRecorded(s: SourceState, p: AudioPacket, now: int, dist: int,
                            failAt: Option<nat>, decoded: Option<seq<int>>)
    requires Completes(s, p, failAt)
    ensures var v := Judge(s, p);
      var filler := if Conceals(s) then Concealment else Silence;
      OnAudioPacket(s, p, now, dist, failAt, decoded)
      == Record(Admit(s, v.restart).(written := s.written + Repeat(filler, FillerCount(v.last, p.sequenceNumber))),
                p, now, dist, decoded)
  {
    var v := Judge(s, p);
    assert Conceals(Admit(s, v.restart)) == Conceals(s);
  }

  /**
   * Exactly `sequence - last - 1` fillers are written for a gap of at most 4 lost
   * packets after an existing last packet; none otherwise.
   */
  lemma CompensationRule(last: int64, sequence: int64)
    ensures 0 <= last && 0 <= sequence - last - 1 <= MAX_COMPENSATED ==> FillerCount(last, sequence) == sequence - last - 1
    ensures last < 0 || sequence - last - 1 > MAX_COMPENSATED || sequence <= last ==> FillerCount(last, sequence) == 0
  {
  }

  /** A packet delivered twice is processed once: the copy is dropped by the gate. */
  lemma DuplicateDropped(s: SourceState, p: AudioPacket, now: int, dist: int,
                         failAt: Option<nat>, decoded: Option<seq<int>>,
                         now': int, dist': int, failAt': Option<nat>, decoded': Option<seq<int>>)
    requires Completes(s, p, failAt) && 0 <= p.sequenceNumber
    ensures var r := OnAudioPacket(s, p, now, dist, failAt, decoded);
      && Judge(r, p) == OutOfOrder
      && OnAudioPacket(r, p, now', dist', failAt', decoded') == r
  {
    AcceptedPacketEffect(s, p, now, dist, failAt, decoded);
    var r := OnAudioPacket(s, p, now, dist, failAt, decoded);
    assert LastSequenceNumber(r) == p.sequenceNumber;
    assert Wrap64(p.sequenceNumber - p.sequenceNumber) == 0;
  }

  /** `reset` is idempotent. */
  lemma ResetIdempotent(s: SourceState)
    ensures Reset(Reset(s)) == Reset(s)
  {
  }

  /** Once closed, a source stays closed and never again reports activation or hearing. */
  predicate ClosedIsQuiet(s: SourceState)
  {
    s.closed ==> !s.activated && !s.canHear
  }

  lemma ClosedStaysQuiet(s: SourceState, lineMuted: bool, p: AudioPacket, e: AudioEndPacket,
                         now: int, dist: int, failAt: Option<nat>, decoded: Option<seq<int>>,
                         ownSource: bool, info: SourceInfo, rebuilt: Option<Decoder>)
    requires ClosedIsQuiet(s)
    ensures ClosedIsQuiet(OnAudioPacket(s, p, now, dist, failAt, decoded))
    ensures ClosedIsQuiet(Receive(s, lineMuted, p, now, dist, failAt, decoded))
    ensures ClosedIsQuiet(ReceiveEnd(s, lineMuted, e))
    ensures ClosedIsQuiet(Reset(s)) && ClosedIsQuiet(EndRequestFires(s)) && ClosedIsQuiet(Close(s))
    ensures ClosedIsQuiet(IsActivated(s, now).1) && !(s.closed && IsActivated(s, now).0)
    ensures ClosedIsQuiet(OnSourceStopped(s, ownSource)) && ClosedIsQuiet(OnSourceClosed(s, ownSource))
    ensures ClosedIsQuiet(Update(s, info, rebuilt))
  {
  }

  /**
   * The compensation loop: `n` fillers, one per lost packet, unless the
   * concealment call numbered `failAt` throws, which ends the loop and the handler.
   */
  method Compensate(n: nat, filler: Frame, failAt: Option<nat>) returns (fillers: seq<Frame>, failed: bool)
    ensures failed <==> failAt.Some? && failAt.value < n
    ensures failed ==> fillers == Repeat(filler, failAt.value)
    ensures !failed ==> fillers == Repeat(filler, n)
  {
    fillers := [];
    var i := 0;
    while i < n
      invariant 0 <= i <= n
      invariant fillers == Repeat(filler, i)
      invariant failAt.Some? ==> i <= failAt.value
    {
      if failAt == Some(i) {
        return fillers, true;
      }
      fillers := fillers + [filler];
      i := i + 1;
    }
    failed := false;
  }

  /**
   * One client audio source. The fields are those of the Kotlin class that the
   * handlers read and write; `written` logs the frames sent to the device.
   */
  class BaseClientAudioSource {
    var sourceInfo: SourceInfo
    var decoder: Decoder
    var closeTimeoutMs: int64
    var lastSequenceNumbers: map<Uuid, int64>
    var lastActivation: int
    var closed: bool
    var resetted: bool
    var activated: bool
    var canHear: bool
    var endRequestPending: bool
    var decoderResets: nat
    var written: seq<Frame>

    ghost function State(): SourceState
      reads this
    {
      SourceState(sourceInfo, decoder, closeTimeoutMs, lastSequenceNumbers, lastActivation,
                  closed, resetted, activated, canHear, endRequestPending, decoderResets, written)
    }

    constructor (info: SourceInfo, decoder: Decoder)
      ensures State() == Initial(info, decoder)
    {
      sourceInfo := info;
      this.decoder := decoder;
      closeTimeoutMs := DEFAULT_CLOSE_TIMEOUT_MS;
      lastSequenceNumbers := map[];
      lastActivation := 0;
      closed, resetted, activated, canHear := false, false, false, false;
      endRequestPending := false;
      decoderResets := 0;
      written := [];
    }

    method Process(p: AudioPacket, lineMuted: bool, now: int, sourceDistance: int,
                   concealFailsAt: Option<nat>, decoded: Option<seq<int>>)
      modifies this
      ensures State() == Receive(old(State()), lineMuted, p, now, sourceDistance, concealFailsAt, decoded)
    {
      if closed || lineMuted {
        return;
      }
      ProcessAudioPacket(p, now, sourceDistance, concealFailsAt, decoded);
    }

    method ProcessAudioPacket(p: AudioPacket, now: int, sourceDistance: int,
                              concealFailsAt: Option<nat>, decoded: Option<seq<int>>)
      modifies this
      ensures State() == OnAudioPacket(old(State()), p, now, sourceDistance, concealFailsAt, decoded)
    {
      var verdict := Gate(p);
      if !verdict.Accepted? {
        return;
      }
      AdmitPacket(verdict.restart);
      PlayPacket(p, verdict.last, now, sourceDistance, concealFailsAt, decoded);
    }

    /** The order check at the head of `processAudioPacket`. */
    method Gate(p: AudioPacket) returns (verdict: Verdict)
      ensures verdict == Judge(State(), p)
    {
      if p.sourceState != sourceInfo.state {
        return WrongState;
      }
      var line := sourceInfo.lineId;
      var last: int64 := if line in lastSequenceNumbers then lastSequenceNumbers[line] else -1;
      if last >= 0 && p.sequenceNumber <= last {
        if Wrap64(last - p.sequenceNumber) < REORDER_WINDOW {
          return OutOfOrder;
        }
        return Accepted(last, true);
      }
      return Accepted(last, false);
    }

    method AdmitPacket(restart: bool)
      modifies this
      ensures State() == Admit(old(State()), restart)
    {
      if restart {
        lastSequenceNumbers := lastSequenceNumbers - {sourceInfo.lineId};
      }
      endRequestPending := false;
    }

    method PlayPacket(p: AudioPacket, last: int64, now: int, sourceDistance: int,
                      concealFailsAt: Option<nat>, decoded: Option<seq<int>>)
      modifies this
      ensures State() == Play(old(State()), p, last, now, sourceDistance, concealFailsAt, decoded)
    {
      if closed {
        return;
      }
      // packet compensation
      var n := FillerCount(last, p.sequenceNumber);
      var conceals := decoder == ConcealingDecoder && !sourceInfo.isStereo;
      var filler := if conceals then Concealment else Silence;
      var fillers, failed := Compensate(n, filler, if conceals then concealFailsAt else None);
      written := written + fillers;
      if failed {
        return;
      }
      RecordPacket(p, now, sourceDistance, decoded);
    }

    method RecordPacket(p: AudioPacket, now: int, sourceDistance: int, decoded: Option<seq<int>>)
      modifies this
      ensures State() == Record(old(State()), p, now, sourceDistance, decoded)
    {
      var hears := if p.distance > 0 then sourceDistance <= p.distance else canHear;
      written, lastSequenceNumbers, lastActivation, canHear, activated, resetted :=
        written + DecodedFrames(decoded), lastSequenceNumbers[sourceInfo.lineId := p.sequenceNumber],
        now, hears, true, false;
    }

    method ProcessEnd(p: AudioEndPacket, lineMuted: bool)
      modifies this
      ensures State() == ReceiveEnd(old(State()), lineMuted, p)
    {
      if closed || lineMuted {
        return;
      }
      ProcessAudioEndPacket(p);
      endRequestPending := true;
    }

    method ProcessAudioEndPacket(p: AudioEndPacket)
      modifies this
      ensures State() == OnEndPacket(old(State()), p)
    {
      if !activated {
        return;
      }
      lastSequenceNumbers := lastSequenceNumbers[sourceInfo.lineId := p.sequenceNumber];
    }

    method FireEndRequest()
      modifies this
      ensures State() == EndRequestFires(old(State()))
    {
      if endRequestPending {
        endRequestPending := false;
        ResetSource();
      }
    }

    method ResetSource()
      modifies this
      ensures State() == Reset(old(State()))
    {
      if resetted {
        return;
      }
      resetted := true;
      if decoder != NoDecoder {
        decoderResets := decoderResets + 1;
      }
      activated := false;
      canHear := false;
    }

    method CloseSource()
      modifies this
      ensures State() == Close(old(State()))
    {
      activated := false;
      canHear := false;
      closed := true;
    }

    method IsActivatedAt(now: int) returns (r: bool)
      modifies this
      ensures (r, State()) == IsActivated(old(State()), now)
    {
      if activated {
        if closeTimeoutMs > 0 && now - lastActivation > closeTimeoutMs {
          ResetSource();
          return false;
        }
        return true;
      }
      return false;
    }

    method OnSourceStoppedEvent(ownSource: bool)
      modifies this
      ensures State() == OnSourceStopped(old(State()), ownSource)
    {
      if closed || !ownSource || closeTimeoutMs == 0 {
        return;
      }
      ResetSource();
    }

    method OnSourceClosedEvent(ownSource: bool)
      modifies this
      ensures State() == OnSourceClosed(old(State()), ownSource)
    {
      if closed || !ownSource {
        return;
      }
      CloseSource();
    }

    method UpdateInfo(info: SourceInfo, rebuilt: Option<Decoder>)
      modifies this
      ensures State() == Update(old(State()), info, rebuilt)
    {
      if info.isStereo != sourceInfo.isStereo && rebuilt.Some? {
        decoder := rebuilt.value;
      }
      sourceInfo := info;
    }
  }
}
