/** What the Annex B scanner of VideoEncoder.kt promises about its output:
    every start code in the buffer is found, every event is one NAL unit
    behind its start code and is routed by its type, and a buffer without a
    start code yields nothing. The file also shows that the last NAL unit
    of a buffer loses its final three bytes, and gives the intended unit
    end that keeps them. */
module EncoderProperties {
  import opened Bytes
  import opened Encoder

  /** Every `00 00 00 01` that the outer scan can reach (an index below
      `|data| - 4`) opens a unit; the one exception is a start code directly
      after another, which becomes that unit's header byte instead, since
      the inner search begins one byte after the header. */
  lemma {:induction false} UnitsFindEveryStartCode(data: seq<byte>, offset: nat, i: nat)
    requires offset <= i < |data| - 4 && IsStartCodeAt(data, i)
    ensures exists k :: 0 <= k < |Units(data, offset)|
                        && (Units(data, offset)[k].start == i + 4 || Units(data, offset)[k].start == i)
    decreases |data| - offset
  {
    var us := Units(data, offset);
    if IsStartCodeAt(data, offset) {
      UnitsAtStartCode(data, offset);
      var e := UnitEnd(data, offset + 5);
      assert us[0].start == offset + 4;
      if i == offset {
        assert us[0].start == i + 4;
      } else {
        assert i >= offset + 4 by {
          assert data[offset + 3] == 1;
        }
        if i == offset + 4 {
          assert us[0].start == i;
        } else {
          UnitEndIsFirst(data, offset + 5);
          assert e <= i;
          UnitsFindEveryStartCode(data, e, i);
          var k :| 0 <= k < |Units(data, e)| && (Units(data, e)[k].start == i + 4 || Units(data, e)[k].start == i);
          assert us[k + 1] == Units(data, e)[k];
        }
      }
    } else {
      UnitsElsewhere(data, offset);
      UnitsFindEveryStartCode(data, offset + 1, i);
    }
  }

  /** Without a start code from `offset` on, the scan finds no unit. */
  lemma {:induction false} NoUnitsWithoutStartCode(data: seq<byte>, offset: nat)
    requires forall i :: offset <= i < |data| - 4 ==> !IsStartCodeAt(data, i)
    ensures Units(data, offset) == []
    decreases |data| - offset
  {
    if offset < |data| - 4 {
      UnitsElsewhere(data, offset);
      NoUnitsWithoutStartCode(data, offset + 1);
    }
  }

  /** A buffer longer than four bytes yields units exactly when it holds a
      start code the scan can reach; without one it yields no event at all
      (the whole-buffer fallback is only for buffers of at most four bytes). */
  lemma NoStartCodeNoEvents(data: seq<byte>, timestamp: int64, isKeyFrame: bool)
    requires |data| > 4
    ensures (forall i :: 0 <= i < |data| - 4 ==> !IsStartCodeAt(data, i)) <==> Units(data, 0) == []
    ensures (forall i :: 0 <= i < |data| - 4 ==> !IsStartCodeAt(data, i)) ==> NalEvents(data, timestamp, isKeyFrame) == []
  {
    if forall i :: 0 <= i < |data| - 4 ==> !IsStartCodeAt(data, i) {
      NoUnitsWithoutStartCode(data, 0);
    } else {
      var i :| 0 <= i < |data| - 4 && IsStartCodeAt(data, i);
      UnitsFindEveryStartCode(data, 0, i);
    }
  }

  /** An event as the callbacks receive it: a start code, a header byte
      whose type agrees with the kind of event (7 for SPS, 8 for PPS, 5 for
      a key frame, 1 for another frame), the buffer's timestamp on frames,
      and no further start code after the header byte. */
  predicate Routed(ev: NalEvent, timestamp: int64)
  {
    var b := ev.Bytes();
    && |b| >= 5 && b[..4] == [0, 0, 0, 1]
    && (forall k :: 5 <= k < |b| - 3 ==> !IsStartCodeAt(b, k))
    && match ev
       case Sps(_) => Low5(b[4]) == NalTypeSps
       case Pps(_) => Low5(b[4]) == NalTypePps
       case EncodedFrame(_, t, key) =>
         && t == timestamp
         && (Low5(b[4]) == NalTypeIdr || Low5(b[4]) == NalTypeNonIdr)
         && (key <==> Low5(b[4]) == NalTypeIdr)
  }

  /** A slice sees the start codes of the buffer, shifted. */
  lemma StartCodeInSlice(data: seq<byte>, lo: nat, hi: nat, k: nat)
    requires lo <= hi <= |data| && k + 3 < hi - lo
    ensures IsStartCodeAt(data[lo..hi], k) <==> IsStartCodeAt(data, lo + k)
  {
  }

  /** The event of a delimited unit, if any, is routed. */
  lemma EventOfRouted(data: seq<byte>, u: Unit, timestamp: int64)
    requires Delimited(data, u)
    ensures |EventOf(data, u, timestamp)| <= 1
    ensures forall i :: 0 <= i < |EventOf(data, u, timestamp)| ==> Routed(EventOf(data, u, timestamp)[i], timestamp)
  {
    var nal := data[u.start - 4..u.end];
    NoInnerStartCode(data, u, nal);
    assert nal[..4] == data[u.start - 4..u.start];
    assert nal[4] == data[u.start];
    RoutedByType(nal, EventOf(data, u, timestamp), timestamp);
  }

  /** Past its header byte, a delimited unit holds no start code. */
  lemma NoInnerStartCode(data: seq<byte>, u: Unit, nal: seq<byte>)
    requires Delimited(data, u) && nal == data[u.start - 4..u.end]
    ensures forall k :: 5 <= k < |nal| - 3 ==> !IsStartCodeAt(nal, k)
  {
    UnitEndIsFirst(data, u.start + 1);
    forall k | 5 <= k < |nal| - 3
      ensures !IsStartCodeAt(nal, k)
    {
      StartCodeInSlice(data, u.start - 4, u.end, k);
    }
  }

  /** The event the type switch makes of a unit with a start code and no
      inner one is routed. */
  lemma RoutedByType(nal: seq<byte>, evs: seq<NalEvent>, timestamp: int64)
    requires |nal| >= 5 && nal[..4] == [0, 0, 0, 1]
    requires forall k :: 5 <= k < |nal| - 3 ==> !IsStartCodeAt(nal, k)
    requires var t := Low5(nal[4]);
      evs == if t == NalTypeSps then [Sps(nal)]
             else if t == NalTypePps then [Pps(nal)]
             else if t == NalTypeIdr then [EncodedFrame(nal, timestamp, true)]
             else if t == NalTypeNonIdr then [EncodedFrame(nal, timestamp, false)]
             else []
    ensures |evs| <= 1
    ensures forall i :: 0 <= i < |evs| ==> Routed(evs[i], timestamp)
  {
  }

  lemma {:induction false} EventsOfRouted(data: seq<byte>, us: seq<Unit>, timestamp: int64)
    requires forall i :: 0 <= i < |us| ==> Delimited(data, us[i])
    ensures forall i :: 0 <= i < |EventsOf(data, us, timestamp)| ==> Routed(EventsOf(data, us, timestamp)[i], timestamp)
  {
    if us != [] {
      EventOfRouted(data, us[0], timestamp);
      EventsOfRouted(data, us[1..], timestamp);
      var head, tail := EventOf(data, us[0], timestamp), EventsOf(data, us[1..], timestamp);
      assert EventsOf(data, us, timestamp) == head + tail;
      forall i | 0 <= i < |head + tail|
        ensures Routed((head + tail)[i], timestamp)
      {
        if i >= |head| {
          assert (head + tail)[i] == tail[i - |head|];
        }
      }
    }
  }

  /** For a buffer longer than four bytes, every event `parseNalUnits`
      reports is a single NAL unit behind its start code, reported under the
      kind its type names. */
  lemma NalEventsRouted(data: seq<byte>, timestamp: int64, isKeyFrame: bool)
    requires |data| > 4
    ensures forall i :: 0 <= i < |NalEvents(data, timestamp, isKeyFrame)| ==>
      Routed(NalEvents(data, timestamp, isKeyFrame)[i], timestamp)
  {
    UnitsWellFormed(data, 0);
    EventsOfRouted(data, Units(data, 0), timestamp);
  }

  /** With no start code from `j` up to `|data| - 3`, the inner search stops
      three bytes short of the end. */
  lemma {:induction false} UnitEndWithoutStartCode(data: seq<byte>, j: nat)
    requires j <= |data| - 3
    requires forall k :: j <= k < |data| - 3 ==> !IsStartCodeAt(data, k)
    ensures UnitEnd(data, j) == |data| - 3
    decreases |data| - j
  {
    UnitEndStep(data, j);
    if j < |data| - 3 {
      UnitEndWithoutStartCode(data, j + 1);
    }
  }

  /** As written, the last NAL unit of a buffer ends where the inner search
      gives up, three bytes before the end of the data: a buffer holding one
      frame NAL unit is reported without its final three bytes. */
  lemma LastUnitTruncated(data: seq<byte>, timestamp: int64, isKeyFrame: bool)
    requires |data| >= 8 && IsStartCodeAt(data, 0)
    requires forall k :: 5 <= k < |data| - 3 ==> !IsStartCodeAt(data, k)
    requires Low5(data[4]) == NalTypeIdr || Low5(data[4]) == NalTypeNonIdr
    ensures NalEvents(data, timestamp, isKeyFrame)
         == [EncodedFrame(data[..|data| - 3], timestamp, Low5(data[4]) == NalTypeIdr)]
  {
    UnitEndWithoutStartCode(data, 5);
    UnitsAtStartCode(data, 0);
    var u := Unit(4, |data| - 3);
    assert Units(data, |data| - 3) == [];
    assert Units(data, 0) == [u];
    assert EventsOf(data, [u], timestamp) == EventOf(data, u, timestamp);
  }

  /** An IDR slice of nine bytes comes out as six. */
  lemma TruncationExample()
    ensures NalEvents([0, 0, 0, 1, 0x65, 0x88, 0x84, 0x21, 0xA0], 0, true)
         == [EncodedFrame([0, 0, 0, 1, 0x65, 0x88], 0, true)]
  {
    var data: seq<byte> := [0, 0, 0, 1, 0x65, 0x88, 0x84, 0x21, 0xA0];
    assert !IsStartCodeAt(data, 5);
    LastUnitTruncated(data, 0, true);
    assert data[..6] == [0, 0, 0, 1, 0x65, 0x88];
  }

  /** The evidently intended end of a unit: the next start code, or the end
      of the data when the search finds none. */
  function IntendedUnitEnd(data: seq<byte>, j: nat): (e: nat)
    ensures j <= e
    ensures e < |data| - 3 ==> IsStartCodeAt(data, e) && e == UnitEnd(data, j)
    ensures e >= |data| - 3 ==> e == Max(j, |data|)
  {
    var e := UnitEnd(data, j);
    if e < |data| - 3 then e else Max(j, |data|)
  }

  /** The scan with the intended unit end. */
  function IntendedUnits(data: seq<byte>, offset: nat): seq<Unit>
    decreases |data| - offset
  {
    if offset >= |data| - 4 then []
    else if IsStartCodeAt(data, offset) then
      var e := IntendedUnitEnd(data, offset + 5);
      [Unit(offset + 4, e)] + IntendedUnits(data, e)
    else IntendedUnits(data, offset + 1)
  }

  /** `parseNalUnits` with the intended unit end and the intended fallback:
      a buffer in which the scan finds no start code goes out whole. */
  function IntendedNalEvents(data: seq<byte>, timestamp: int64, isKeyFrame: bool): seq<NalEvent>
  {
    var us := IntendedUnits(data, 0);
    if us == [] then [EncodedFrame(data, timestamp, isKeyFrame)]
    else EventsOf(data, us, timestamp)
  }

  /** The intended scan finds no unit from `offset` on exactly when there is
      no start code there. */
  lemma {:induction false} IntendedUnitsEmptyIff(data: seq<byte>, offset: nat)
    ensures IntendedUnits(data, offset) == [] <==> forall i :: offset <= i < |data| - 4 ==> !IsStartCodeAt(data, i)
    decreases |data| - offset
  {
    if offset < |data| - 4 && !IsStartCodeAt(data, offset) {
      IntendedUnitsEmptyIff(data, offset + 1);
    }
  }

  /** With the intended fallback, a buffer of any length without a start
      code the scan can reach is reported whole with the codec's key-frame
      flag, and only such a buffer. */
  lemma IntendedWholeBuffer(data: seq<byte>, timestamp: int64, isKeyFrame: bool)
    ensures (forall i :: 0 <= i < |data| - 4 ==> !IsStartCodeAt(data, i)) <==> IntendedUnits(data, 0) == []
    ensures (forall i :: 0 <= i < |data| - 4 ==> !IsStartCodeAt(data, i))
            ==> IntendedNalEvents(data, timestamp, isKeyFrame) == [EncodedFrame(data, timestamp, isKeyFrame)]
  {
    IntendedUnitsEmptyIff(data, 0);
  }

  /** A five-byte buffer without a start code: as written nothing is
      reported, as intended the buffer goes out whole. */
  lemma NoStartCodeExample()
    ensures NalEvents([0x65, 0x88, 0x84, 0x21, 0xA0], 0, true) == []
    ensures IntendedNalEvents([0x65, 0x88, 0x84, 0x21, 0xA0], 0, true)
         == [EncodedFrame([0x65, 0x88, 0x84, 0x21, 0xA0], 0, true)]
  {
    var data: seq<byte> := [0x65, 0x88, 0x84, 0x21, 0xA0];
    assert !IsStartCodeAt(data, 0);
    assert Units(data, 1) == [] && IntendedUnits(data, 1) == [];
  }

  /** Units that tile the buffer: each follows a start code, the next
      unit's start code begins where a unit ends, and the last unit reaches
      the end of the data unless the buffer ends in a bare start code. */
  predicate Tiles(data: seq<byte>, us: seq<Unit>)
  {
    && (forall i :: 0 <= i < |us| ==> WellFormed(data, us[i]) && IsStartCodeAt(data, us[i].start - 4))
    && (forall i :: 0 <= i < |us| - 1 ==> us[i].end + 4 == us[i + 1].start)
    && (|us| > 0 ==> us[|us| - 1].end == |data|
                     || (us[|us| - 1].end == |data| - 4 && IsStartCodeAt(data, |data| - 4)))
  }

  /** With the intended end, the units tile the buffer from the first start
      code on. */
  lemma {:induction false} IntendedUnitsTile(data: seq<byte>, offset: nat)
    ensures Tiles(data, IntendedUnits(data, offset))
    decreases |data| - offset
  {
    if offset < |data| - 4 {
      if IsStartCodeAt(data, offset) {
        var e := IntendedUnitEnd(data, offset + 5);
        IntendedUnitsTile(data, e);
        TileStep(data, offset, e, IntendedUnits(data, e));
      } else {
        IntendedUnitsTile(data, offset + 1);
      }
    }
  }

  /** A unit in front of a tiling that starts where it ends. */
  lemma TileStep(data: seq<byte>, offset: nat, e: nat, rest: seq<Unit>)
    requires offset < |data| - 4 && IsStartCodeAt(data, offset)
    requires e == IntendedUnitEnd(data, offset + 5) && rest == IntendedUnits(data, e)
    requires Tiles(data, rest)
    ensures IntendedUnits(data, offset) == [Unit(offset + 4, e)] + rest
    ensures Tiles(data, [Unit(offset + 4, e)] + rest)
  {
    var us := [Unit(offset + 4, e)] + rest;
    assert forall i :: 1 <= i < |us| ==> us[i] == rest[i - 1];
    if rest != [] {
      assert e < |data| - 4 && IsStartCodeAt(data, e);
      assert rest[0].start == e + 4;
    }
  }

  /** With the intended end, a buffer holding one frame NAL unit is
      reported whole. */
  lemma IntendedSingleUnit(data: seq<byte>, timestamp: int64, isKeyFrame: bool)
    requires |data| >= 5 && IsStartCodeAt(data, 0)
    requires forall k :: 5 <= k < |data| - 3 ==> !IsStartCodeAt(data, k)
    requires Low5(data[4]) == NalTypeIdr || Low5(data[4]) == NalTypeNonIdr
    ensures IntendedNalEvents(data, timestamp, isKeyFrame)
         == [EncodedFrame(data, timestamp, Low5(data[4]) == NalTypeIdr)]
  {
    if |data| >= 8 {
      UnitEndWithoutStartCode(data, 5);
    }
    assert IntendedUnitEnd(data, 5) == |data|;
    var u := Unit(4, |data|);
    assert IntendedUnits(data, |data|) == [];
    assert IntendedUnits(data, 0) == [u];
    assert EventsOf(data, [u], timestamp) == EventOf(data, u, timestamp);
    assert data[0..|data|] == data;
  }
}
