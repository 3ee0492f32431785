/** H.264 RTP packetization (RtpPacketizer.kt): one NAL unit becomes either a
    single NAL unit packet (section 5.6 of RFC 6184) or a run of FU-A
    fragments (section 5.8 of RFC 6184), each behind the fixed RTP header. */
module H264Rtp {
  import opened Bytes
  import opened Rtp

  const Mtu: int := 1400
  const FuAHeaderSize: int := 2
  /** The largest fragment payload: MTU less the RTP and FU-A headers. */
  const MaxPayloadSize: int := Mtu - RtpHeaderSize - FuAHeaderSize
  /** The largest NAL unit sent whole. */
  const MaxSingleNalSize: int := Mtu - RtpHeaderSize
  /** NAL unit type 28 marks an FU-A fragment. */
  const FuAType: int := 28
  /** Offset of the fragment payload within an FU-A packet. */
  const FuAPayloadStart: int := RtpHeaderSize + FuAHeaderSize

  const FourByteStartCode: seq<byte> := [0, 0, 0, 1]
  const ThreeByteStartCode: seq<byte> := [0, 0, 1]

  /** The 90 kHz RTP clock: `(timestampUs * 90) / 1000` in `Long` arithmetic. */
  function VideoClock(timestampUs: int64): int64
  {
    TruncDiv(Long(timestampUs * 90), 1000)
  }

  /** Without overflow the clock is the exact truncated quotient. */
  lemma VideoClockExact(timestampUs: int64)
    requires 0 <= timestampUs <= 100_000_000_000_000_000
    ensures VideoClock(timestampUs) == timestampUs * 90 / 1000
  {
  }

  lemma VideoClockExamples()
    ensures VideoClock(0) == 0
    ensures VideoClock(1_000_000) == 90_000
    ensures VideoClock(2_000_000) == 180_000
  {
  }

  /** The length of the start code `packetize` removes: `00 00 00 01` is
      tried first, then `00 00 01`. */
  function StartCodeLength(u: seq<byte>): nat
  {
    if |u| >= 4 && u[0] == 0 && u[1] == 0 && u[2] == 0 && u[3] == 1 then 4
    else if |u| >= 3 && u[0] == 0 && u[1] == 0 && u[2] == 1 then 3
    else 0
  }

  /** The NAL unit without its Annex B start code. */
  function StripStartCode(u: seq<byte>): (nal: seq<byte>)
    ensures |u| - |nal| in {0, 3, 4}
    ensures nal == u[|u| - |nal|..]
  {
    u[StartCodeLength(u)..]
  }

  /** A NAL unit prefixed with a 4-byte code, with a 3-byte code, or (when it
      does not itself begin with a code) with none, strips to the same bytes. */
  lemma StartCodeVariants(nal: seq<byte>)
    ensures StripStartCode(FourByteStartCode + nal) == nal
    ensures StripStartCode(ThreeByteStartCode + nal) == nal
    ensures StartCodeLength(nal) == 0 ==> StripStartCode(nal) == nal
  {
    assert (FourByteStartCode + nal)[4..] == nal;
    assert (ThreeByteStartCode + nal)[3..] == nal;
  }

  /** The number of FU-A fragments for an `n`-byte NAL unit: the header byte
      is not carried, so this is the ceiling of (n - 1) / MaxPayloadSize. */
  function FragmentCount(n: nat): nat
    requires n >= 1
  {
    (n - 1 + MaxPayloadSize - 1) / MaxPayloadSize
  }

  /** Where fragment `k`'s payload starts in the NAL unit. */
  function FragmentOffset(k: nat): nat
  {
    1 + k * MaxPayloadSize
  }

  lemma FragmentOffsetStep(k: nat)
    ensures FragmentOffset(k + 1) == FragmentOffset(k) + MaxPayloadSize
  {
  }

  /** Fragment `k` exists exactly when its offset is still inside the NAL unit. */
  lemma FragmentCountIsCeiling(n: nat, k: nat)
    requires n >= 1
    ensures k < FragmentCount(n) <==> FragmentOffset(k) < n
  {
    var c := FragmentCount(n);
    var d := MaxPayloadSize;
    assert c * d <= n - 1 + d - 1 < (c + 1) * d;
    if k < c {
      assert (k + 1) * d <= c * d;
    } else {
      assert (k + 1) * d >= (c + 1) * d;
    }
  }

  /** `(nri or 28)`: F = 0, the NAL unit's NRI, type 28. */
  function FuIndicator(nalHeader: byte): byte
  {
    Nri(nalHeader) + FuAType
  }

  /** `(startBit or endBit or nalType)`: S, E, R = 0 and the NAL unit type. */
  function FuHeader(nalHeader: byte, start: bool, end: bool): byte
  {
    (if start then 0x80 else 0) + (if end then 0x40 else 0) + Low5(nalHeader)
  }

  /** Fragment `k` of a NAL unit: the header (marker only on the last
      fragment, sequence number `firstSeq + k`), the FU indicator and header,
      and the next run of at most MaxPayloadSize NAL bytes. */
  function FuAPacket(nal: seq<byte>, k: nat, firstSeq: int, timestamp: int, ssrc: int, payloadType: PayloadType): seq<byte>
    requires |nal| >= 1 && k < FragmentCount(|nal|)
  {
    FragmentCountIsCeiling(|nal|, k);
    var offset := FragmentOffset(k);
    var size := Min(|nal| - offset, MaxPayloadSize);
    var last := offset + size >= |nal|;
    RtpHeader(last, payloadType, (firstSeq + k) % TwoTo16, timestamp, ssrc)
      + [FuIndicator(nal[0]), FuHeader(nal[0], k == 0, last)]
      + nal[offset..offset + size]
  }

  /** All FU-A fragments of a NAL unit, in order. */
  function FuAPackets(nal: seq<byte>, firstSeq: int, timestamp: int, ssrc: int, payloadType: PayloadType): (ps: seq<seq<byte>>)
    requires |nal| >= 1
    ensures |ps| == FragmentCount(|nal|)
  {
    seq(FragmentCount(|nal|), k requires 0 <= k < FragmentCount(|nal|) =>
      FuAPacket(nal, k, firstSeq, timestamp, ssrc, payloadType))
  }

  /** Fragment `k` spelled out from its offset, size and end flag, in the
      shape the packetizer loop builds it. */
  lemma FuAPacketAt(nal: seq<byte>, k: nat, firstSeq: int, sequenceNumber: int, timestamp: int, ssrc: int,
                    payloadType: PayloadType, offset: int, size: int, last: bool)
    requires |nal| >= 1 && offset == FragmentOffset(k) && offset < |nal|
    requires size == Min(|nal| - offset, MaxPayloadSize) && last == (offset + size >= |nal|)
    requires sequenceNumber == (firstSeq + k) % TwoTo16
    ensures k < FragmentCount(|nal|)
    ensures FuAPacket(nal, k, firstSeq, timestamp, ssrc, payloadType)
      == RtpHeader(last, payloadType, sequenceNumber, timestamp, ssrc)
         + [Nri(nal[0]) + FuAType, (if k == 0 then 0x80 else 0) + (if last then 0x40 else 0) + Low5(nal[0])]
         + nal[offset..offset + size]
  {
    FragmentCountIsCeiling(|nal|, k);
  }

  /** What `packetize` emits for a NAL unit with its start code removed. */
  function Packets(nal: seq<byte>, firstSeq: int, timestamp: int, ssrc: int, payloadType: PayloadType): seq<seq<byte>>
  {
    if |nal| <= MaxSingleNalSize then [RtpHeader(true, payloadType, firstSeq, timestamp, ssrc) + nal]
    else FuAPackets(nal, firstSeq, timestamp, ssrc, payloadType)
  }

  /** The H.264 packetizer: a fixed SSRC and payload type, a 16-bit wrapping
      sequence counter and the last 90 kHz timestamp. */
  class RtpPacketizer {
    const ssrc: int32
    const payloadType: PayloadType
    var sequenceNumber: uint16
    var timestamp: int64

    /** The source draws the SSRC and the first sequence number at random;
        here they are parameters. */
    constructor(ssrc: int32, payloadType: PayloadType, initialSequenceNumber: uint16)
      ensures this.ssrc == ssrc && this.payloadType == payloadType
      ensures sequenceNumber == initialSequenceNumber && timestamp == 0
    {
      this.ssrc := ssrc;
      this.payloadType := payloadType;
      sequenceNumber := initialSequenceNumber;
      timestamp := 0;
    }

    /** `packetize`: stores the new timestamp, strips the start code and emits
        one packet or the FU-A fragments, consuming one sequence number each. */
    method Packetize(nalUnit: seq<byte>, timestampUs: int64) returns (packets: seq<seq<byte>>)
      modifies this
      ensures timestamp == VideoClock(timestampUs)
      ensures packets == Packets(StripStartCode(nalUnit), old(sequenceNumber), timestamp, ssrc, payloadType)
      ensures sequenceNumber == (old(sequenceNumber) + |packets|) % TwoTo16
    {
      timestamp := VideoClock(timestampUs);

      var offset := 0;
      if |nalUnit| >= 4 && nalUnit[0] == 0 && nalUnit[1] == 0 && nalUnit[2] == 0 && nalUnit[3] == 1 {
        offset := 4;
      } else if |nalUnit| >= 3 && nalUnit[0] == 0 && nalUnit[1] == 0 && nalUnit[2] == 1 {
        offset := 3;
      }
      var nalData := nalUnit[offset..];

      if |nalData| <= Mtu - RtpHeaderSize {
        var packet := CreateSingleNalPacket(nalData, true);
        packets := [packet];
      } else {
        packets := CreateFragmentedPackets(nalData);
      }
    }

    /** `createSingleNalPacket`: the header, then the whole NAL unit. */
    method CreateSingleNalPacket(nalData: seq<byte>, marker: bool) returns (packet: seq<byte>)
      modifies this`sequenceNumber
      ensures packet == RtpHeader(marker, payloadType, old(sequenceNumber), timestamp, ssrc) + nalData
      ensures sequenceNumber == (old(sequenceNumber) + 1) % TwoTo16
    {
      packet := RtpHeader(marker, payloadType, sequenceNumber, timestamp, ssrc) + nalData;
      sequenceNumber := (sequenceNumber + 1) % TwoTo16;
    }

    /** `createFragmentedPackets`: walks the NAL unit after its header byte in
        steps of MaxPayloadSize, emitting one FU-A packet per step. */
    method CreateFragmentedPackets(nalData: seq<byte>) returns (packets: seq<seq<byte>>)
      requires |nalData| >= 1
      modifies this`sequenceNumber
      ensures packets == FuAPackets(nalData, old(sequenceNumber), timestamp, ssrc, payloadType)
      ensures sequenceNumber == (old(sequenceNumber) + |packets|) % TwoTo16
    {
      ghost var firstSeq := sequenceNumber;
      var ts, id, pt := timestamp, ssrc, payloadType;
      var n := |nalData|;
      var nalHeader := nalData[0];
      var nalType := Low5(nalHeader);
      var nri := Nri(nalHeader);

      packets := [];
      var offset := 1;
      var first := true;

      while offset < n
        invariant |packets| <= FragmentCount(n)
        invariant offset == Min(FragmentOffset(|packets|), n)
        invariant first == (|packets| == 0)
        invariant sequenceNumber == (firstSeq + |packets|) % TwoTo16
        invariant forall i :: 0 <= i < |packets| ==> packets[i] == FuAPacket(nalData, i, firstSeq, ts, id, pt)
        decreases n - offset
      {
        ghost var k := |packets|;
        var remainingSize := n - offset;
        var payloadSize := Min(remainingSize, MaxPayloadSize);
        var isLast := offset + payloadSize >= n;

        // nri has no bit below 0x20 set, so `nri or 28` is a sum
        var fuIndicator := nri + FuAType;
        var startBit := if first then 0x80 else 0;
        var endBit := if isLast then 0x40 else 0;
        var fuHeader := startBit + endBit + nalType;

        var packet := RtpHeader(isLast, pt, sequenceNumber, ts, id)
          + [fuIndicator, fuHeader] + nalData[offset..offset + payloadSize];
        FuAPacketAt(nalData, k, firstSeq, sequenceNumber, ts, id, pt, offset, payloadSize, isLast);
        assert packet == FuAPacket(nalData, k, firstSeq, ts, id, pt);
        packets := packets + [packet];
        CounterStep(firstSeq, k);
        sequenceNumber := (sequenceNumber + 1) % TwoTo16;

        FragmentOffsetStep(k);
        offset := offset + payloadSize;
        first := false;
      }
      FragmentCountIsCeiling(n, |packets|);
    }

    /** `updateTimestamp`: only the timestamp changes. */
    method UpdateTimestamp(timestampUs: int64)
      modifies this`timestamp
      ensures timestamp == VideoClock(timestampUs)
      ensures sequenceNumber == old(sequenceNumber)
    {
      timestamp := VideoClock(timestampUs);
    }

    method GetSequenceNumber() returns (n: int)
      ensures n == sequenceNumber
    {
      n := sequenceNumber;
    }

    method GetTimestamp() returns (t: int)
      ensures t == timestamp
    {
      t := timestamp;
    }

    method GetSsrc() returns (s: int)
      ensures s == ssrc
    {
      s := ssrc;
    }
  }
}
