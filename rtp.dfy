/** The 12-byte RTP fixed header of section 5.1 of RFC 3550, as both
    packetizers write it (`writeRtpHeader`), and a reader for it. */
module Rtp {
  import opened Bytes

  const RtpVersion: int := 2
  const RtpHeaderSize: int := 12

  /** The 7-bit payload type field. */
  type PayloadType = x: int | 0 <= x < 0x80

  /** The fields of the fixed header, as a receiver reads them. */
  datatype HeaderFields = HeaderFields(
    version: int,
    padding: bool,
    extension: bool,
    csrcCount: int,
    marker: bool,
    payloadType: int,
    sequenceNumber: int,
    timestamp: int,
    ssrc: int)

  /** Reads the fixed header at the front of a packet. */
  function ParseHeader(p: seq<byte>): HeaderFields
    requires |p| >= RtpHeaderSize
  {
    HeaderFields(
      p[0] / 64,
      p[0] / 32 % 2 == 1,
      p[0] / 16 % 2 == 1,
      p[0] % 16,
      TopBit(p[1]),
      Low7(p[1]),
      GetShort(p[2..4]),
      GetInt(p[4..8]),
      GetInt(p[8..12]))
  }

  /** `writeRtpHeader`: version 2, no padding, no extension, no CSRC; the
      marker bit over the payload type; then the low 16 bits of the sequence
      number, the low 32 bits of the timestamp and of the SSRC, big-endian. */
  function RtpHeader(marker: bool, payloadType: PayloadType, sequenceNumber: int, timestamp: int, ssrc: int): (h: seq<byte>)
    ensures |h| == RtpHeaderSize && h[0] == 0x80
  {
    [RtpVersion * 64, (if marker then 0x80 else 0) + payloadType]
      + PutShort(sequenceNumber) + PutInt(timestamp) + PutInt(ssrc)
  }

  /** A receiver reads back every field `writeRtpHeader` wrote, each reduced
      to its width on the wire. */
  lemma ParseRtpHeader(marker: bool, payloadType: PayloadType, sequenceNumber: int, timestamp: int, ssrc: int)
    ensures ParseHeader(RtpHeader(marker, payloadType, sequenceNumber, timestamp, ssrc))
      == HeaderFields(2, false, false, 0, marker, payloadType,
                      sequenceNumber % TwoTo16, timestamp % TwoTo32, ssrc % TwoTo32)
  {
    var h := RtpHeader(marker, payloadType, sequenceNumber, timestamp, ssrc);
    var a, b, c := PutShort(sequenceNumber), PutInt(timestamp), PutInt(ssrc);
    assert h == [RtpVersion * 64, (if marker then 0x80 else 0) + payloadType] + a + b + c;
    assert h[2..4] == a;
    assert h[4..8] == b;
    assert h[8..12] == c;
  }
}
