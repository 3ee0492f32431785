/** AAC RTP packetization (AudioRtpPacketizer.kt) in the AAC-hbr mode of
    RFC 3640: every AAC frame becomes one RTP packet whose payload is a
    one-entry AU-header section (section 3.2.1 of RFC 3640) followed by the
    frame; the AudioSpecificConfig goes out as a bare payload. */
module AacRtp {
  import opened Bytes
  import opened Wrappers
  import opened Rtp

  /** The payload type the source defaults to. */
  const DefaultPayloadType: PayloadType := 97
  const DefaultSampleRate: int32 := 48000
  /** The AU-headers-length field plus one 16-bit AU-header. */
  const AacHeaderSize: int := 4
  /** Bits in one AU-header: a 13-bit AU-size and a 3-bit AU-Index. */
  const AuHeaderBits: int := 16
  const AuPayloadStart: int := RtpHeaderSize + AacHeaderSize

  /** The sample clock: `(timestampUs * sampleRate) / 1_000_000` in `Long`
      arithmetic. */
  function AudioClock(timestampUs: int64, sampleRate: int32): int64
  {
    TruncDiv(Long(timestampUs * sampleRate), 1_000_000)
  }

  /** The AU-header for a frame of `frameSize` bytes: `(frameSize shl 3)`
      as an `Int`, stored as a `Short`. */
  function AuHeader(frameSize: nat): int32
  {
    Int32(frameSize * 8)
  }

  /** What `packetize` returns for one AAC frame. */
  function AacPacket(frame: seq<byte>, sequenceNumber: int, timestamp: int, ssrc: int, payloadType: PayloadType): seq<byte>
  {
    RtpHeader(true, payloadType, sequenceNumber, timestamp, ssrc)
      + PutShort(AuHeaderBits) + PutShort(AuHeader(|frame|)) + frame
  }

  /** What `packetizeConfig` returns for an AudioSpecificConfig. */
  function ConfigPacket(config: seq<byte>, sequenceNumber: int, timestamp: int, ssrc: int, payloadType: PayloadType): seq<byte>
  {
    RtpHeader(true, payloadType, sequenceNumber, timestamp, ssrc) + config
  }

  /** An AAC-hbr packet as a receiver reads it. */
  datatype AacUnit = AacUnit(
    header: HeaderFields,
    auHeadersLength: int,
    auSize: int,
    auIndex: int,
    frame: seq<byte>)

  /** The receiver's side of section 3.2.1 and 3.3.6 of RFC 3640, for a
      packet holding one access unit. */
  function ParseAacPacket(p: seq<byte>): Option<AacUnit>
  {
    if |p| < AuPayloadStart then None
    else
      var au := GetShort(p[RtpHeaderSize + 2..AuPayloadStart]);
      Some(AacUnit(ParseHeader(p), GetShort(p[RtpHeaderSize..RtpHeaderSize + 2]), au / 8, au % 8, p[AuPayloadStart..]))
  }

  /** The AAC packetizer: a fixed SSRC, payload type and sample rate, a
      16-bit wrapping sequence counter shared by frames and configuration,
      and the last sample-clock timestamp. */
  class AudioRtpPacketizer {
    const ssrc: int32
    const payloadType: PayloadType
    const sampleRate: int32
    var sequenceNumber: uint16
    var timestamp: int64

    /** The source draws the SSRC and the first sequence number at random;
        here they are parameters. */
    constructor(ssrc: int32, payloadType: PayloadType, sampleRate: int32, initialSequenceNumber: uint16)
      ensures this.ssrc == ssrc && this.payloadType == payloadType && this.sampleRate == sampleRate
      ensures sequenceNumber == initialSequenceNumber && timestamp == 0
    {
      this.ssrc := ssrc;
      this.payloadType := payloadType;
      this.sampleRate := sampleRate;
      sequenceNumber := initialSequenceNumber;
      timestamp := 0;
    }

    /** `packetize`: the header with the marker set, the AU-header section,
        then the frame; one sequence number is consumed. */
    method Packetize(aacFrame: seq<byte>, timestampUs: int64) returns (packet: seq<byte>)
      modifies this
      ensures timestamp == AudioClock(timestampUs, sampleRate)
      ensures packet == AacPacket(aacFrame, old(sequenceNumber), timestamp, ssrc, payloadType)
      ensures sequenceNumber == (old(sequenceNumber) + 1) % TwoTo16
    {
      timestamp := AudioClock(timestampUs, sampleRate);
      var frameSize := |aacFrame|;
      var auHeaderSize := Int32(frameSize * 8);
      packet := RtpHeader(true, payloadType, sequenceNumber, timestamp, ssrc);
      packet := packet + PutShort(AuHeaderBits);
      packet := packet + PutShort(auHeaderSize);
      packet := packet + aacFrame;
      sequenceNumber := (sequenceNumber + 1) % TwoTo16;
    }

    /** `packetizeConfig`: the header with the marker set, then the
        configuration bytes; one sequence number is consumed. */
    method PacketizeConfig(config: seq<byte>, timestampUs: int64) returns (packet: seq<byte>)
      modifies this
      ensures timestamp == AudioClock(timestampUs, sampleRate)
      ensures packet == ConfigPacket(config, old(sequenceNumber), timestamp, ssrc, payloadType)
      ensures sequenceNumber == (old(sequenceNumber) + 1) % TwoTo16
    {
      timestamp := AudioClock(timestampUs, sampleRate);
      packet := RtpHeader(true, payloadType, sequenceNumber, timestamp, ssrc);
      packet := packet + config;
      sequenceNumber := (sequenceNumber + 1) % TwoTo16;
    }

    method GetSequenceNumber() returns (n: int)
      ensures n == sequenceNumber
    {
      n := sequenceNumber;
    }

    method GetTimestamp() returns (t: int)
      ensures t == timestamp
    {
      t := timestamp;
    }

    method GetSsrc() returns (s: int)
      ensures s == ssrc
    {
      s := ssrc;
    }
  }

  /** One second of microseconds is one second of samples. */
  lemma AudioClockExamples()
    ensures AudioClock(0, 48000) == 0
    ensures AudioClock(1_000_000, 48000) == 48000
    ensures AudioClock(1_000_000, 44100) == 44100
    ensures AudioClock(21_333, 48000) == 1023
  {
  }

  /** Without overflow the sample clock never runs backwards. */
  lemma AudioClockMonotonic(a: int64, b: int64, sampleRate: int32)
    requires 0 <= a <= b && 0 < sampleRate
    requires b * sampleRate < 0x8000_0000_0000_0000
    ensures 0 <= AudioClock(a, sampleRate) <= AudioClock(b, sampleRate)
  {
    assert 0 <= a * sampleRate <= b * sampleRate by {
      MulMonotonic(a, b, sampleRate);
    }
  }

  /** A receiver reads back the header, an AU-headers-length of 16 bits, an
      AU-Index of 0 and the whole frame; the 13-bit AU-size is the frame's
      length modulo 8192, so exactly the length for any frame under 8192
      bytes. */
  lemma ParseAacPacketRoundTrip(frame: seq<byte>, sequenceNumber: int, timestamp: int, ssrc: int, payloadType: PayloadType)
    ensures ParseAacPacket(AacPacket(frame, sequenceNumber, timestamp, ssrc, payloadType))
      == Some(AacUnit(HeaderFields(2, false, false, 0, true, payloadType,
                                   sequenceNumber % TwoTo16, timestamp % TwoTo32, ssrc % TwoTo32),
                      AuHeaderBits, |frame| % 8192, 0, frame))
    ensures |frame| < 8192 ==>
      ParseAacPacket(AacPacket(frame, sequenceNumber, timestamp, ssrc, payloadType)).value.auSize == |frame|
  {
    var h := RtpHeader(true, payloadType, sequenceNumber, timestamp, ssrc);
    var a, b := PutShort(AuHeaderBits), PutShort(AuHeader(|frame|));
    var p := AacPacket(frame, sequenceNumber, timestamp, ssrc, payloadType);
    assert p == h + (a + b + frame);
    assert p[..RtpHeaderSize] == h;
    assert p[RtpHeaderSize..RtpHeaderSize + 2] == a;
    assert p[RtpHeaderSize + 2..AuPayloadStart] == b;
    assert p[AuPayloadStart..] == frame;
    assert ParseHeader(p) == ParseHeader(h) by {
      assert p[2..4] == h[2..4] && p[4..8] == h[4..8] && p[8..12] == h[8..12];
    }
    ParseRtpHeader(true, payloadType, sequenceNumber, timestamp, ssrc);
    var au := GetShort(b);
    assert au == |frame| * 8 % TwoTo16 by {
      assert (AuHeader(|frame|) - |frame| * 8) % TwoTo32 == 0;
      ModOfMultiple(AuHeader(|frame|), |frame| * 8);
    }
    AuSizeAndIndex(|frame|);
  }

  /** The 16-bit AU-header `size shl 3` splits into AU-size = size mod 8192
      and AU-Index = 0. */
  lemma AuSizeAndIndex(n: nat)
    ensures n * 8 % TwoTo16 / 8 == n % 8192
    ensures n * 8 % TwoTo16 % 8 == 0
  {
    var q, r := n / 8192, n % 8192;
    assert n == q * 8192 + r;
    assert n * 8 == q * TwoTo16 + r * 8;
    ModOfSmall(q, r * 8);
  }

  /** Adding a multiple of 65536 to a smaller number leaves its residue. */
  lemma ModOfSmall(q: int, x: int)
    requires 0 <= x < TwoTo16
    ensures (q * TwoTo16 + x) % TwoTo16 == x
  {
  }

  /** Two numbers equal modulo 2^32 are equal modulo 2^16. */
  lemma ModOfMultiple(x: int, y: int)
    requires (x - y) % TwoTo32 == 0
    ensures x % TwoTo16 == y % TwoTo16
  {
    var k := (x - y) / TwoTo32;
    assert x == y + k * TwoTo32;
    assert x == y + (k * TwoTo16) * TwoTo16;
  }

  /** A configuration packet is the header, marker set, then the bytes of
      the AudioSpecificConfig unchanged. */
  lemma ConfigPacketLayout(config: seq<byte>, sequenceNumber: int, timestamp: int, ssrc: int, payloadType: PayloadType)
    ensures var p := ConfigPacket(config, sequenceNumber, timestamp, ssrc, payloadType);
            && |p| == RtpHeaderSize + |config| && p[RtpHeaderSize..] == config
            && ParseHeader(p) == HeaderFields(2, false, false, 0, true, payloadType,
                                              sequenceNumber % TwoTo16, timestamp % TwoTo32, ssrc % TwoTo32)
  {
    var h := RtpHeader(true, payloadType, sequenceNumber, timestamp, ssrc);
    var p := h + config;
    assert p[2..4] == h[2..4] && p[4..8] == h[4..8] && p[8..12] == h[8..12];
    ParseRtpHeader(true, payloadType, sequenceNumber, timestamp, ssrc);
  }
}
