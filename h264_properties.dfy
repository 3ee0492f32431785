/** What the H.264 packetizer's output promises a receiver: packet sizes
    within the MTU, the FU-A indicator and header bits of section 5.8 of
    RFC 6184, consecutive sequence numbers with the marker on the last
    packet, and the NAL unit reassembled from the packets. */
module H264RtpProperties {
  import opened Bytes
  import opened Rtp
  import opened H264Rtp

  /** The header a receiver reads depends only on the first twelve bytes. */
  lemma ParseHeaderOfPrefix(h: seq<byte>, rest: seq<byte>)
    requires |h| == RtpHeaderSize
    ensures ParseHeader(h + rest) == ParseHeader(h)
  {
    var p := h + rest;
    assert p[2..4] == h[2..4] && p[4..8] == h[4..8] && p[8..12] == h[8..12];
  }

  /** The payload bounds of fragment `k`. */
  function FragmentSize(n: nat, k: nat): int
  {
    Min(n - FragmentOffset(k), MaxPayloadSize)
  }

  /** Fragment `k` is the header, two FU bytes and its run of NAL bytes;
      only the last fragment reaches the end of the NAL unit. */
  lemma FuAPacketShape(nal: seq<byte>, k: nat, firstSeq: int, timestamp: int, ssrc: int, payloadType: PayloadType)
    requires |nal| >= 1 && k < FragmentCount(|nal|)
    ensures var p := FuAPacket(nal, k, firstSeq, timestamp, ssrc, payloadType);
            var offset, size := FragmentOffset(k), FragmentSize(|nal|, k);
            && 0 < size <= MaxPayloadSize && offset + size <= |nal|
            && |p| == FuAPayloadStart + size
            && p[..RtpHeaderSize] == RtpHeader(k == FragmentCount(|nal|) - 1, payloadType,
                                               (firstSeq + k) % TwoTo16, timestamp, ssrc)
            && p[RtpHeaderSize] == FuIndicator(nal[0])
            && p[RtpHeaderSize + 1] == FuHeader(nal[0], k == 0, k == FragmentCount(|nal|) - 1)
            && p[FuAPayloadStart..] == nal[offset..offset + size]
  {
    var n := |nal|;
    FragmentCountIsCeiling(n, k);
    FragmentCountIsCeiling(n, k + 1);
    var offset, size := FragmentOffset(k), FragmentSize(n, k);
    assert (offset + size >= n) == (k == FragmentCount(n) - 1) by {
      assert FragmentOffset(k + 1) == offset + MaxPayloadSize;
    }
  }

  /** A NAL unit that fits goes out whole in one packet with the marker set. */
  lemma SingleNalUnitPacket(nal: seq<byte>, firstSeq: int, timestamp: int, ssrc: int, payloadType: PayloadType)
    requires |nal| <= MaxSingleNalSize
    ensures var ps := Packets(nal, firstSeq, timestamp, ssrc, payloadType);
            && |ps| == 1 && |ps[0]| == RtpHeaderSize + |nal| && ps[0][RtpHeaderSize..] == nal
            && ParseHeader(ps[0]) == HeaderFields(2, false, false, 0, true, payloadType,
                                                  firstSeq % TwoTo16, timestamp % TwoTo32, ssrc % TwoTo32)
  {
    var h := RtpHeader(true, payloadType, firstSeq, timestamp, ssrc);
    ParseHeaderOfPrefix(h, nal);
    ParseRtpHeader(true, payloadType, firstSeq, timestamp, ssrc);
  }

  /** A NAL unit too large for one packet is cut into the fewest fragments
      that hold its bytes after the header byte, and there are at least two. */
  lemma FragmentCountBounds(nal: seq<byte>, firstSeq: int, timestamp: int, ssrc: int, payloadType: PayloadType)
    requires |nal| > MaxSingleNalSize
    ensures var c := |Packets(nal, firstSeq, timestamp, ssrc, payloadType)|;
            && c >= 2
            && (c - 1) * MaxPayloadSize < |nal| - 1 <= c * MaxPayloadSize
  {
    var c := FragmentCount(|nal|);
    FragmentCountIsCeiling(|nal|, c - 1);
    FragmentCountIsCeiling(|nal|, c);
    FragmentCountIsCeiling(|nal|, 1);
  }

  /** Every packet, whole or fragment, fits in the 1400-byte MTU. */
  lemma PacketsWithinMtu(nal: seq<byte>, firstSeq: int, timestamp: int, ssrc: int, payloadType: PayloadType)
    ensures var ps := Packets(nal, firstSeq, timestamp, ssrc, payloadType);
            forall i :: 0 <= i < |ps| ==> |ps[i]| <= Mtu
  {
    var ps := Packets(nal, firstSeq, timestamp, ssrc, payloadType);
    if |nal| > MaxSingleNalSize {
      forall i | 0 <= i < |ps|
        ensures |ps[i]| <= Mtu
      {
        FuAPacketShape(nal, i, firstSeq, timestamp, ssrc, payloadType);
      }
    }
  }

  /** The FU indicator keeps F = 0 and the NAL unit's NRI, with type 28. */
  lemma FuIndicatorBits(h: byte)
    ensures !TopBit(FuIndicator(h))
    ensures Nri(FuIndicator(h)) == Nri(h)
    ensures Low5(FuIndicator(h)) == FuAType
  {
    var r := Nri(h);
    assert r / 32 < 4;
    assert (r + FuAType) / 32 == r / 32;
  }

  /** The FU header: S set exactly on the first fragment, E exactly on the
      last, R clear, and the NAL unit's own type. */
  lemma FuHeaderBits(h: byte, start: bool, end: bool)
    ensures TopBit(FuHeader(h, start, end)) <==> start
    ensures Bit6(FuHeader(h, start, end)) <==> end
    ensures FuHeader(h, start, end) % 0x40 < 0x20
    ensures Low5(FuHeader(h, start, end)) == Low5(h)
  {
    var t := Low5(h);
    var b := FuHeader(h, start, end);
    assert b % 0x80 == (if end then 0x40 else 0) + t;
    assert b % 0x40 == t;
  }

  /** The RTP header of packet `i`: version 2, sequence numbers consecutive
      from the counter's value, one timestamp and SSRC for the whole NAL
      unit, and the marker bit on the last packet only. */
  lemma PacketHeaders(nal: seq<byte>, firstSeq: int, timestamp: int, ssrc: int, payloadType: PayloadType, i: nat)
    requires i < |Packets(nal, firstSeq, timestamp, ssrc, payloadType)|
    ensures var ps := Packets(nal, firstSeq, timestamp, ssrc, payloadType);
            && |ps[i]| >= RtpHeaderSize
            && ParseHeader(ps[i]) == HeaderFields(2, false, false, 0, i == |ps| - 1, payloadType,
                                                  (firstSeq + i) % TwoTo16, timestamp % TwoTo32, ssrc % TwoTo32)
  {
    var ps := Packets(nal, firstSeq, timestamp, ssrc, payloadType);
    if |nal| <= MaxSingleNalSize {
      SingleNalUnitPacket(nal, firstSeq, timestamp, ssrc, payloadType);
    } else {
      var last := i == |ps| - 1;
      FuAPacketShape(nal, i, firstSeq, timestamp, ssrc, payloadType);
      var h := RtpHeader(last, payloadType, (firstSeq + i) % TwoTo16, timestamp, ssrc);
      assert ps[i] == h + ps[i][RtpHeaderSize..];
      ParseHeaderOfPrefix(h, ps[i][RtpHeaderSize..]);
      ParseRtpHeader(last, payloadType, (firstSeq + i) % TwoTo16, timestamp, ssrc);
    }
  }

  /** The FU-A bytes of fragment `i` of a NAL unit too large for one packet. */
  lemma FragmentHeaderBits(nal: seq<byte>, firstSeq: int, timestamp: int, ssrc: int, payloadType: PayloadType, i: nat)
    requires |nal| > MaxSingleNalSize
    requires i < |Packets(nal, firstSeq, timestamp, ssrc, payloadType)|
    ensures var ps := Packets(nal, firstSeq, timestamp, ssrc, payloadType);
            && |ps[i]| > FuAPayloadStart
            && !TopBit(ps[i][RtpHeaderSize]) && Nri(ps[i][RtpHeaderSize]) == Nri(nal[0])
            && Low5(ps[i][RtpHeaderSize]) == FuAType
            && (TopBit(ps[i][RtpHeaderSize + 1]) <==> i == 0)
            && (Bit6(ps[i][RtpHeaderSize + 1]) <==> i == |ps| - 1)
            && ps[i][RtpHeaderSize + 1] % 0x40 < 0x20
            && Low5(ps[i][RtpHeaderSize + 1]) == Low5(nal[0])
  {
    var ps := Packets(nal, firstSeq, timestamp, ssrc, payloadType);
    FuAPacketShape(nal, i, firstSeq, timestamp, ssrc, payloadType);
    FuIndicatorBits(nal[0]);
    FuHeaderBits(nal[0], i == 0, i == |ps| - 1);
  }

  /** Every byte of a packet beyond the fixed header. */
  predicate AllHaveHeader(ps: seq<seq<byte>>)
  {
    forall i :: 0 <= i < |ps| ==> |ps[i]| >= FuAPayloadStart
  }

  /** The fragment payloads, each packet without its RTP and FU bytes. */
  function FuPayloads(ps: seq<seq<byte>>): (qs: seq<seq<byte>>)
    requires AllHaveHeader(ps)
    ensures |qs| == |ps|
  {
    seq(|ps|, i requires 0 <= i < |ps| => ps[i][FuAPayloadStart..])
  }

  /** A receiver's reassembly (section 5.8 of RFC 6184): a packet whose
      payload starts with a type-28 indicator begins a run of FU-A fragments,
      whose payloads follow the header byte rebuilt from the indicator's NRI
      and the FU header's type; any other packet carries a NAL unit whole. */
  function Depacketize(ps: seq<seq<byte>>): seq<byte>
    requires |ps| >= 1 && |ps[0]| >= RtpHeaderSize
  {
    if |ps[0]| > RtpHeaderSize && Low5(ps[0][RtpHeaderSize]) == FuAType && AllHaveHeader(ps) then
      [Nri(ps[0][RtpHeaderSize]) + Low5(ps[0][RtpHeaderSize + 1])] + Flatten(FuPayloads(ps))
    else ps[0][RtpHeaderSize..]
  }

  /** Every fragment holds its RTP and FU bytes. */
  lemma FuAPacketsHaveHeader(nal: seq<byte>, firstSeq: int, timestamp: int, ssrc: int, payloadType: PayloadType)
    requires |nal| >= 1
    ensures AllHaveHeader(FuAPackets(nal, firstSeq, timestamp, ssrc, payloadType))
  {
    var ps := FuAPackets(nal, firstSeq, timestamp, ssrc, payloadType);
    forall i | 0 <= i < |ps|
      ensures |ps[i]| >= FuAPayloadStart
    {
      FuAPacketShape(nal, i, firstSeq, timestamp, ssrc, payloadType);
    }
  }

  /** Fragment `k` carries the NAL bytes from its offset up to the next
      fragment's offset, or to the end. */
  lemma FragmentPayload(nal: seq<byte>, firstSeq: int, timestamp: int, ssrc: int, payloadType: PayloadType, k: nat)
    requires |nal| >= 1 && k < FragmentCount(|nal|)
    ensures var ps := FuAPackets(nal, firstSeq, timestamp, ssrc, payloadType);
            && AllHaveHeader(ps)
            && FragmentOffset(k) < Min(FragmentOffset(k + 1), |nal|) <= |nal|
            && FuPayloads(ps)[k] == nal[FragmentOffset(k)..Min(FragmentOffset(k + 1), |nal|)]
  {
    FuAPacketsHaveHeader(nal, firstSeq, timestamp, ssrc, payloadType);
    FuAPacketShape(nal, k, firstSeq, timestamp, ssrc, payloadType);
  }

  /** The payloads of the first `j` fragments are the NAL bytes after the
      header byte up to the `j`-th fragment's offset. */
  lemma {:induction false} FragmentPayloadsPrefix(nal: seq<byte>, firstSeq: int, timestamp: int, ssrc: int,
                                                 payloadType: PayloadType, j: nat)
    requires |nal| >= 1 && j <= FragmentCount(|nal|)
    ensures var ps := FuAPackets(nal, firstSeq, timestamp, ssrc, payloadType);
            AllHaveHeader(ps)
            && Flatten(FuPayloads(ps)[..j]) == nal[1..Min(FragmentOffset(j), |nal|)]
  {
    var ps := FuAPackets(nal, firstSeq, timestamp, ssrc, payloadType);
    FuAPacketsHaveHeader(nal, firstSeq, timestamp, ssrc, payloadType);
    var qs := FuPayloads(ps);
    if j == 0 {
      assert qs[..0] == [];
    } else {
      var k := j - 1;
      FragmentPayloadsPrefix(nal, firstSeq, timestamp, ssrc, payloadType, k);
      FragmentPayload(nal, firstSeq, timestamp, ssrc, payloadType, k);
      FlattenPrefixStep(qs, k, nal, FragmentOffset(k), Min(FragmentOffset(j), |nal|));
    }
  }

  /** One more payload extends the bytes read so far by its slice. */
  lemma FlattenPrefixStep(qs: seq<seq<byte>>, k: nat, nal: seq<byte>, lo: nat, hi: nat)
    requires k < |qs| && 1 <= lo <= hi <= |nal|
    requires Flatten(qs[..k]) == nal[1..lo] && qs[k] == nal[lo..hi]
    ensures Flatten(qs[..k + 1]) == nal[1..hi]
  {
    assert qs[..k + 1] == qs[..k] + [qs[k]];
    FlattenAppend(qs[..k], qs[k]);
    assert nal[1..hi] == nal[1..lo] + nal[lo..hi];
  }

  /** Reassembling the fragments of a NAL unit too large for one packet
      gives back its bytes, its header byte without the forbidden-zero bit. */
  lemma DepacketizeFragments(nal: seq<byte>, firstSeq: int, timestamp: int, ssrc: int, payloadType: PayloadType)
    requires |nal| > MaxSingleNalSize
    ensures var ps := FuAPackets(nal, firstSeq, timestamp, ssrc, payloadType);
            |ps| >= 1 && |ps[0]| >= RtpHeaderSize && Depacketize(ps) == [Low7(nal[0])] + nal[1..]
  {
    var ps := FuAPackets(nal, firstSeq, timestamp, ssrc, payloadType);
    FirstFragmentIndicator(nal, firstSeq, timestamp, ssrc, payloadType);
    FuAPacketsHaveHeader(nal, firstSeq, timestamp, ssrc, payloadType);
    FragmentPayloadsWhole(nal, firstSeq, timestamp, ssrc, payloadType);
  }

  /** The first fragment's indicator and FU header rebuild the NAL header
      byte without its forbidden bit. */
  lemma FirstFragmentIndicator(nal: seq<byte>, firstSeq: int, timestamp: int, ssrc: int, payloadType: PayloadType)
    requires |nal| > MaxSingleNalSize
    ensures var ps := FuAPackets(nal, firstSeq, timestamp, ssrc, payloadType);
            && |ps| >= 1 && |ps[0]| > RtpHeaderSize + 1 && Low5(ps[0][RtpHeaderSize]) == FuAType
            && Nri(ps[0][RtpHeaderSize]) + Low5(ps[0][RtpHeaderSize + 1]) == Low7(nal[0])
  {
    var ps := FuAPackets(nal, firstSeq, timestamp, ssrc, payloadType);
    var h := nal[0];
    assert ps == Packets(nal, firstSeq, timestamp, ssrc, payloadType);
    FragmentHeaderBits(nal, firstSeq, timestamp, ssrc, payloadType, 0);
    assert h % 128 == h / 32 % 4 * 32 + h % 32;
  }

  /** The fragments' payloads, in order, are the NAL unit after its header
      byte. */
  lemma FragmentPayloadsWhole(nal: seq<byte>, firstSeq: int, timestamp: int, ssrc: int, payloadType: PayloadType)
    requires |nal| > MaxSingleNalSize
    ensures var ps := FuAPackets(nal, firstSeq, timestamp, ssrc, payloadType);
            AllHaveHeader(ps) && Flatten(FuPayloads(ps)) == nal[1..]
  {
    var ps := FuAPackets(nal, firstSeq, timestamp, ssrc, payloadType);
    var n, c := |nal|, FragmentCount(|nal|);
    FragmentPayloadsPrefix(nal, firstSeq, timestamp, ssrc, payloadType, c);
    var qs := FuPayloads(ps);
    assert qs[..c] == qs;
    FragmentCountIsCeiling(n, c);
    assert Min(FragmentOffset(c), n) == n;
  }


  /** Reassembling the packets gives the NAL unit back. Fragmentation drops
      the forbidden-zero bit of the header byte, which an encoder's NAL units
      have clear; a whole NAL unit comes back unchanged provided its own type
      is not the FU-A type 28. */
  lemma DepacketizePackets(nal: seq<byte>, firstSeq: int, timestamp: int, ssrc: int, payloadType: PayloadType)
    requires |nal| >= 1
    requires |nal| <= MaxSingleNalSize ==> Low5(nal[0]) != FuAType
    ensures var ps := Packets(nal, firstSeq, timestamp, ssrc, payloadType);
            && |ps| >= 1 && |ps[0]| >= RtpHeaderSize
            && Depacketize(ps) == (if |nal| <= MaxSingleNalSize then nal else [Low7(nal[0])] + nal[1..])
            && (!TopBit(nal[0]) ==> Depacketize(ps) == nal)
  {
    if |nal| <= MaxSingleNalSize {
      SingleNalUnitPacket(nal, firstSeq, timestamp, ssrc, payloadType);
    } else {
      DepacketizeFragments(nal, firstSeq, timestamp, ssrc, payloadType);
      var h := nal[0];
      if !TopBit(h) {
        assert Low7(h) == h;
        assert [h] + nal[1..] == nal;
      }
    }
  }

  /** The start code does not matter: the same NAL unit behind a 4-byte
      code, a 3-byte code or none is packetized identically. */
  lemma StartCodeIrrelevant(nal: seq<byte>, firstSeq: int, timestamp: int, ssrc: int, payloadType: PayloadType)
    requires StartCodeLength(nal) == 0
    ensures Packets(StripStartCode(FourByteStartCode + nal), firstSeq, timestamp, ssrc, payloadType)
         == Packets(nal, firstSeq, timestamp, ssrc, payloadType)
    ensures Packets(StripStartCode(ThreeByteStartCode + nal), firstSeq, timestamp, ssrc, payloadType)
         == Packets(StripStartCode(nal), firstSeq, timestamp, ssrc, payloadType)
  {
    StartCodeVariants(nal);
  }
}
