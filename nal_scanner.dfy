/** The part of VideoEncoder.kt that does not talk to the codec: the Annex B
    scanner that cuts an encoder output buffer at `00 00 00 01` start codes
    and routes each NAL unit by its type, and the presentation-time
    arithmetic driven by `frameCount`. */
module Encoder {
  import opened Bytes

  const NalTypeNonIdr: int := 1
  const NalTypeIdr: int := 5
  const NalTypeSps: int := 7
  const NalTypePps: int := 8

  /** What `parseNalUnits` hands to its callback, in order. */
  datatype NalEvent =
    | Sps(sps: seq<byte>)
    | Pps(pps: seq<byte>)
    | EncodedFrame(data: seq<byte>, timestamp: int64, isKeyFrame: bool)
  {
    function Bytes(): seq<byte>
    {
      match this
      case Sps(b) => b
      case Pps(b) => b
      case EncodedFrame(b, _, _) => b
    }
  }

  /** `00 00 00 01` starts at index `i`. */
  predicate IsStartCodeAt(data: seq<byte>, i: int)
    requires 0 <= i && i + 3 < |data|
  {
    data[i] == 0 && data[i + 1] == 0 && data[i + 2] == 0 && data[i + 3] == 1
  }

  /** Where the inner search that starts at `j` stops: the first start code
      at an index below `|data| - 3`, or the first index that is not. */
  function UnitEnd(data: seq<byte>, j: nat): (e: nat)
    ensures j <= e
    ensures e < |data| - 3 ==> IsStartCodeAt(data, e)
    ensures e >= |data| - 3 ==> e == Max(j, |data| - 3)
    decreases |data| - j
  {
    if j < |data| - 3 then
      if IsStartCodeAt(data, j) then j else UnitEnd(data, j + 1)
    else j
  }

  /** One step of the inner search. */
  lemma UnitEndStep(data: seq<byte>, j: nat)
    ensures j < |data| - 3 && !IsStartCodeAt(data, j) ==> UnitEnd(data, j) == UnitEnd(data, j + 1)
    ensures j >= |data| - 3 || IsStartCodeAt(data, j) ==> UnitEnd(data, j) == j
  {
  }

  /** The inner search passes over no start code: it stops at the first. */
  lemma {:induction false} UnitEndIsFirst(data: seq<byte>, j: nat)
    ensures forall k :: j <= k < UnitEnd(data, j) ==> !IsStartCodeAt(data, k)
    decreases |data| - j
  {
    if j < |data| - 3 && !IsStartCodeAt(data, j) {
      UnitEndIsFirst(data, j + 1);
    }
  }

  /** A NAL unit found by the scan: its first byte after the start code is
      at `start`, and it ends (exclusive) at `end`. */
  datatype Unit = Unit(start: nat, end: nat)

  /** The units the outer scan finds from `offset` on: a start code at an
      index below `|data| - 4` opens a unit, the inner search closes it, and
      the scan resumes where the unit ends; elsewhere it moves one byte. */
  function Units(data: seq<byte>, offset: nat): seq<Unit>
    decreases |data| - offset
  {
    if offset >= |data| - 4 then []
    else if IsStartCodeAt(data, offset) then
      var e := UnitEnd(data, offset + 5);
      [Unit(offset + 4, e)] + Units(data, e)
    else Units(data, offset + 1)
  }

  /** A unit and its start code lie inside the buffer, with at least the
      header byte. */
  predicate WellFormed(data: seq<byte>, u: Unit)
  {
    4 <= u.start < u.end <= |data|
  }

  /** A unit is well formed, follows a start code, and ends where the inner
      search from the byte after its header stops. */
  predicate Delimited(data: seq<byte>, u: Unit)
  {
    WellFormed(data, u) && IsStartCodeAt(data, u.start - 4) && u.end == UnitEnd(data, u.start + 1)
  }

  /** The event for one unit: the unit with its start code, routed by the
      NAL type in the low five bits of its header byte; other types are
      dropped. */
  function EventOf(data: seq<byte>, u: Unit, timestamp: int64): seq<NalEvent>
  {
    if !WellFormed(data, u) then []
    else
    var nal := data[u.start - 4..u.end];
    var nalType := Low5(data[u.start]);
    if nalType == NalTypeSps then [Sps(nal)]
    else if nalType == NalTypePps then [Pps(nal)]
    else if nalType == NalTypeIdr then [EncodedFrame(nal, timestamp, true)]
    else if nalType == NalTypeNonIdr then [EncodedFrame(nal, timestamp, false)]
    else []
  }

  function EventsOf(data: seq<byte>, us: seq<Unit>, timestamp: int64): seq<NalEvent>
  {
    if us == [] then [] else EventOf(data, us[0], timestamp) + EventsOf(data, us[1..], timestamp)
  }

  /** Every unit found from `offset` on is delimited and starts its start
      code at or after `offset`; the units come in buffer order without
      overlapping, start code included. */
  lemma {:induction false} UnitsWellFormed(data: seq<byte>, offset: nat)
    ensures forall i :: 0 <= i < |Units(data, offset)| ==>
      Delimited(data, Units(data, offset)[i]) && offset + 4 <= Units(data, offset)[i].start
    ensures forall i :: 0 <= i < |Units(data, offset)| - 1 ==>
      Units(data, offset)[i].end + 4 <= Units(data, offset)[i + 1].start
    decreases |data| - offset
  {
    if offset < |data| - 4 {
      if IsStartCodeAt(data, offset) {
        UnitsWellFormed(data, UnitEnd(data, offset + 5));
      } else {
        UnitsWellFormed(data, offset + 1);
      }
    }
  }

  /** All of `parseNalUnits`' output for one encoder buffer: the events of
      the units the scan finds, or the whole buffer with the codec's
      key-frame flag when the scan never moved (a buffer of at most four
      bytes). */
  function NalEvents(data: seq<byte>, timestamp: int64, isKeyFrame: bool): seq<NalEvent>
  {
    if |data| <= 4 then [EncodedFrame(data, timestamp, isKeyFrame)]
    else EventsOf(data, Units(data, 0), timestamp)
  }

  /** One step of the outer scan at a start code. */
  lemma UnitsAtStartCode(data: seq<byte>, offset: nat)
    requires offset < |data| - 4 && IsStartCodeAt(data, offset)
    ensures var u := Unit(offset + 4, UnitEnd(data, offset + 5));
            Delimited(data, u) && Units(data, offset) == [u] + Units(data, u.end)
  {
  }

  /** One step of the outer scan past a byte that starts no start code. */
  lemma UnitsElsewhere(data: seq<byte>, offset: nat)
    requires offset < |data| - 4 && !IsStartCodeAt(data, offset)
    ensures Units(data, offset) == Units(data, offset + 1)
  {
  }

  lemma {:induction false} EventsOfAppend(data: seq<byte>, us: seq<Unit>, u: Unit, timestamp: int64)
    ensures EventsOf(data, us + [u], timestamp) == EventsOf(data, us, timestamp) + EventOf(data, u, timestamp)
  {
    var w := us + [u];
    if us == [] {
      assert w == [u];
    } else {
      assert w[0] == us[0] && w[1..] == us[1..] + [u];
      EventsOfAppend(data, us[1..], u, timestamp);
      assert EventsOf(data, w, timestamp) == EventOf(data, w[0], timestamp) + EventsOf(data, w[1..], timestamp);
    }
  }

  /** Cutting the unit at a start code extends the units found so far and
      their events by one. */
  lemma FoundNext(data: seq<byte>, found: seq<Unit>, offset: nat, timestamp: int64)
    requires offset < |data| - 4 && IsStartCodeAt(data, offset)
    requires found + Units(data, offset) == Units(data, 0)
    ensures var u := Unit(offset + 4, UnitEnd(data, offset + 5));
            && (found + [u]) + Units(data, u.end) == Units(data, 0)
            && EventsOf(data, found + [u], timestamp) == EventsOf(data, found, timestamp) + EventOf(data, u, timestamp)
  {
    var u := Unit(offset + 4, UnitEnd(data, offset + 5));
    UnitsAtStartCode(data, offset);
    assert (found + [u]) + Units(data, u.end) == found + Units(data, offset);
    EventsOfAppend(data, found, u, timestamp);
  }

  /** The encoder: its frame rate, the derived frame duration, and the
      running state and frame counter that `start` and `encodeFrame` keep. */
  class VideoEncoder {
    const fps: int32
    const nanosPerFrame: int64
    var isRunning: bool
    var frameCount: int64

    /** `1_000_000_000L / fps` at construction. */
    constructor(fps: int32)
      requires fps != 0
      ensures this.fps == fps && nanosPerFrame == TruncDiv(1_000_000_000, fps)
      ensures !isRunning && frameCount == 0
    {
      this.fps := fps;
      nanosPerFrame := TruncDiv(1_000_000_000, fps);
      isRunning := false;
      frameCount := 0;
    }

    /** The inner loop of `parseNalUnits`: from the byte after a NAL
        unit's header, the index of the next start code below `|data| - 3`,
        or the first index that is not. */
    static method FindNextStart(data: seq<byte>, offset: nat) returns (nextStart: nat)
      requires offset < |data|
      ensures nextStart == UnitEnd(data, offset + 1)
      ensures offset < nextStart <= |data|
    {
      var size := |data|;
      nextStart := offset + 1;
      while nextStart < size - 3
        invariant offset + 1 <= nextStart <= UnitEnd(data, offset + 1)
        invariant UnitEnd(data, nextStart) == UnitEnd(data, offset + 1)
        decreases size - nextStart
      {
        UnitEndStep(data, nextStart);
        if data[nextStart] == 0 && data[nextStart + 1] == 0 && data[nextStart + 2] == 0 && data[nextStart + 3] == 1 {
          break;
        }
        nextStart := nextStart + 1;
      }
      UnitEndStep(data, nextStart);
    }

    /** The body of `parseNalUnits` at a start code, once `offset` is past
        it: the unit's type from its header byte, the end of the unit, and
        the callback the type selects (none for other types). */
    static method CutUnit(data: seq<byte>, offset: nat, timestamp: int64) returns (reported: seq<NalEvent>, nextStart: nat)
      requires 4 <= offset < |data|
      ensures nextStart == UnitEnd(data, offset + 1) && offset < nextStart <= |data|
      ensures reported == EventOf(data, Unit(offset, nextStart), timestamp)
    {
      var nalType := Low5(data[offset]);
      nextStart := FindNextStart(data, offset);
      var nalData := data[offset - 4..Min(nextStart, |data|)];
      reported := [];
      if nalType == NalTypeSps {
        reported := [Sps(nalData)];
      } else if nalType == NalTypePps {
        reported := [Pps(nalData)];
      } else if nalType == NalTypeIdr {
        reported := [EncodedFrame(nalData, timestamp, true)];
      } else if nalType == NalTypeNonIdr {
        reported := [EncodedFrame(nalData, timestamp, false)];
      }
    }

    /** `parseNalUnits`: scans for start codes, cuts each NAL unit up to the
        next start code and reports it by type, in buffer order. The
        source's `offset >= data.size` check after a start code is left
        out: the loop guard already keeps `offset + 4 < data.size`. */
    method ParseNalUnits(data: seq<byte>, timestamp: int64, isKeyFrame: bool) returns (events: seq<NalEvent>)
      ensures events == NalEvents(data, timestamp, isKeyFrame)
    {
      var size := |data|;
      events := [];
      var offset := 0;
      ghost var found: seq<Unit> := [];

      while offset < size - 4
        invariant offset <= size
        invariant offset == 0 || size > 4
        invariant found + Units(data, offset) == Units(data, 0)
        invariant events == EventsOf(data, found, timestamp)
        decreases size - offset
      {
        if data[offset] == 0 && data[offset + 1] == 0 && data[offset + 2] == 0 && data[offset + 3] == 1 {
          offset := offset + 4;
          var reported, nextStart := CutUnit(data, offset, timestamp);
          FoundNext(data, found, offset - 4, timestamp);
          events := events + reported;
          found := found + [Unit(offset, nextStart)];
          offset := nextStart;
        } else {
          UnitsElsewhere(data, offset);
          offset := offset + 1;
        }
      }
      assert Units(data, offset) == [];
      assert found == Units(data, 0);

      if offset == 0 {
        events := [EncodedFrame(data, timestamp, isKeyFrame)];
      }
    }

    /** The state part of `start`: a running encoder is left alone; otherwise
        it starts running with the frame counter reset. */
    method Start()
      modifies this
      ensures old(isRunning) ==> isRunning == old(isRunning) && frameCount == old(frameCount)
      ensures !old(isRunning) ==> isRunning && frameCount == 0
    {
      if isRunning {
        return;
      }
      isRunning := true;
      frameCount := 0;
    }

    /** The state part of `stop`. */
    method Stop()
      modifies this`isRunning
      ensures !isRunning
    {
      if !isRunning {
        return;
      }
      isRunning := false;
    }

    /** The input half of `encodeFrame`: when the encoder runs and the codec
        grants an input buffer, the frame is queued with the presentation
        time of the current frame count, and the count goes up by one. */
    method QueueInputFrame(inputBufferGranted: bool) returns (presentationTimeUs: int64, queued: bool)
      modifies this`frameCount
      ensures queued == (old(isRunning) && inputBufferGranted)
      ensures queued ==> presentationTimeUs == PresentationTimeUs(old(frameCount), nanosPerFrame)
                         && frameCount == Long(old(frameCount) + 1)
      ensures !queued ==> frameCount == old(frameCount)
    {
      presentationTimeUs, queued := 0, false;
      if !isRunning {
        return;
      }
      if inputBufferGranted {
        presentationTimeUs := TruncDiv(Long(frameCount * nanosPerFrame), 1000);
        queued := true;
        frameCount := Long(frameCount + 1);
      }
    }

    method IsInitialized() returns (r: bool)
      ensures r == isRunning
    {
      r := isRunning;
    }
  }

  /** `frameCount * nanosPerFrame / 1000` in `Long` arithmetic. */
  function PresentationTimeUs(frameCount: int64, nanosPerFrame: int64): int64
  {
    TruncDiv(Long(frameCount * nanosPerFrame), 1000)
  }

  /** At 30 and 15 frames per second, the frame durations and times. */
  lemma PresentationTimeExamples()
    ensures TruncDiv(1_000_000_000, 30) == 33_333_333
    ensures PresentationTimeUs(0, 33_333_333) == 0
    ensures PresentationTimeUs(1, 33_333_333) == 33_333
    ensures PresentationTimeUs(30, 33_333_333) == 999_999
    ensures TruncDiv(1_000_000_000, 15) == 66_666_666
    ensures PresentationTimeUs(15, 66_666_666) == 999_999
  {
  }

  /** At most a million frames per second leaves every frame at least a
      microsecond long. */
  lemma FrameDurationAtLeastMicrosecond(fps: int32)
    requires 0 < fps <= 1_000_000
    ensures TruncDiv(1_000_000_000, fps) >= 1000
  {
    var q, r := 1_000_000_000 / fps, 1_000_000_000 % fps;
    assert 1_000_000_000 == q * fps + r && r < fps;
    assert 1000 * fps <= 1_000_000_000;
    assert 1000 * fps < (q + 1) * fps;
  }

  /** Before the product overflows, each frame's presentation time is
      strictly later than the previous one's when frames last at least a
      microsecond. */
  lemma PresentationTimeIncreases(frameCount: int64, nanosPerFrame: int64)
    requires 0 <= frameCount && 1000 <= nanosPerFrame
    requires (frameCount + 1) * nanosPerFrame < 0x8000_0000_0000_0000
    ensures 0 <= PresentationTimeUs(frameCount, nanosPerFrame) < PresentationTimeUs(frameCount + 1, nanosPerFrame)
  {
    MulMonotonic(frameCount, frameCount + 1, nanosPerFrame);
    assert (frameCount + 1) * nanosPerFrame == frameCount * nanosPerFrame + nanosPerFrame;
  }
}
