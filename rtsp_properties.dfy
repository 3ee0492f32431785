/** What the RTSP request handling promises: the CSeq echo, prefix
    dispatch, the SETUP port and SET_PARAMETER preset rules, and the line
    framing of every response and of the SDP body. */
module RtspProperties {
  import opened Bytes
  import opened Wrappers
  import opened Text
  import opened Config
  import opened Rtsp

  // ---------------------------------------------------------------------
  // CSeq

  /** The CSeq line of a response, read back as a request header, gives the
      number it carries. */
  lemma CSeqLineRoundTrip(n: int32)
    ensures |CSeqLine(n)| >= 5 && CSeqOf(CSeqLine(n)) == n
  {
    assert CSeqLine(n)[5..] == " " + IntToString(n);
    TrimSpacedInt(n);
    IntToStringRoundTrip(n);
  }

  /** A CSeq header whose value is not a number sets the counter to 0. */
  lemma CSeqUnparsable()
    ensures CSeqOf("CSeq: abc") == 0
  {
    var line := "CSeq: abc";
    var value := "abc";
    assert line[5..] == [' '] + value;
    assert TrimStart([' '] + value) == value by {
      assert ([' '] + value)[1..] == value;
      assert !IsWhitespace(value[0]);
    }
    assert TrimEnd(value) == value by {
      assert !IsWhitespace(value[|value| - 1]);
    }
    assert !IsDigit(value[0]);
    assert ToIntOrNull(value) == None;
  }

  /** Without a CSeq header the counter keeps its value. */
  lemma {:induction false} CSeqAfterNoHeader(headers: seq<string>, cseq: int32)
    requires forall i :: 0 <= i < |headers| ==> !StartsWith(headers[i], "CSeq:")
    ensures CSeqAfter(headers, cseq) == cseq
  {
    if headers != [] {
      var init := headers[..|headers| - 1];
      assert forall i :: 0 <= i < |init| ==> init[i] == headers[i];
      CSeqAfterNoHeader(init, cseq);
    }
  }

  /** The last CSeq header decides. */
  lemma {:induction false} CSeqAfterLast(headers: seq<string>, k: nat, cseq: int32)
    requires k < |headers| && StartsWith(headers[k], "CSeq:")
    requires forall j :: k < j < |headers| ==> !StartsWith(headers[j], "CSeq:")
    ensures CSeqAfter(headers, cseq) == CSeqOf(headers[k])
  {
    if k < |headers| - 1 {
      var init := headers[..|headers| - 1];
      assert forall j :: 0 <= j < |init| ==> init[j] == headers[j];
      CSeqAfterLast(init, k, cseq);
    }
  }

  // ---------------------------------------------------------------------
  // Dispatch

  /** The first method whose name prefixes the request, or Unknown when
      there is none. */
  lemma {:induction false} FirstMethodFinds(request: string, ms: seq<RtspMethod>)
    requires Unknown !in ms
    ensures FirstMethod(request, ms) == Unknown <==> forall i :: 0 <= i < |ms| ==> !StartsWith(request, ms[i].Name())
    ensures FirstMethod(request, ms) != Unknown ==>
      exists k :: 0 <= k < |ms| && ms[k] == FirstMethod(request, ms) && StartsWith(request, ms[k].Name())
                  && forall j :: 0 <= j < k ==> !StartsWith(request, ms[j].Name())
  {
    if ms != [] && !StartsWith(request, ms[0].Name()) {
      FirstMethodFinds(request, ms[1..]);
      var r := FirstMethod(request, ms);
      if r != Unknown {
        var k :| 0 <= k < |ms[1..]| && ms[1..][k] == r && StartsWith(request, ms[1..][k].Name())
                 && forall j :: 0 <= j < k ==> !StartsWith(request, ms[1..][j].Name());
        assert ms[k + 1] == r;
        assert forall j :: 0 <= j < k + 1 ==> !StartsWith(request, ms[j].Name()) by {
          forall j | 0 <= j < k + 1
            ensures !StartsWith(request, ms[j].Name())
          {
            if j > 0 { assert ms[j] == ms[1..][j - 1]; }
          }
        }
      } else {
        assert forall i :: 0 <= i < |ms| ==> !StartsWith(request, ms[i].Name()) by {
          forall i | 0 <= i < |ms|
            ensures !StartsWith(request, ms[i].Name())
          {
            if i > 0 { assert ms[i] == ms[1..][i - 1]; }
          }
        }
      }
    }
  }

  /** Dispatch picks the first of OPTIONS, DESCRIBE, SETUP, PLAY,
      SET_PARAMETER, TEARDOWN that prefixes the request, and answers
      anything else as an unknown method. */
  lemma MethodOfIsFirstPrefix(request: string)
    ensures MethodOf(request) == Unknown <==> forall i :: 0 <= i < |DispatchOrder| ==> !StartsWith(request, DispatchOrder[i].Name())
    ensures MethodOf(request) != Unknown ==>
      exists k :: 0 <= k < |DispatchOrder| && DispatchOrder[k] == MethodOf(request) && StartsWith(request, DispatchOrder[k].Name())
                  && forall j :: 0 <= j < k ==> !StartsWith(request, DispatchOrder[j].Name())
  {
    FirstMethodFinds(request, DispatchOrder);
  }

  /** A request line that starts with a method's name reaches that
      method's handler: no earlier name in the order is a prefix of a later
      one. */
  lemma MethodOfName(m: RtspMethod, rest: string)
    requires m != Unknown
    ensures MethodOf(m.Name() + rest) == m
  {
    var r := m.Name() + rest;
    var i := Position(m);
    assert StartsWith(r, DispatchOrder[i].Name()) by { assert r[..|m.Name()|] == m.Name(); }
    EarlierNamesMismatch(m, rest);
    MethodOfIsFirstPrefix(r);
    var k :| 0 <= k < |DispatchOrder| && DispatchOrder[k] == MethodOf(r) && StartsWith(r, DispatchOrder[k].Name())
             && forall j :: 0 <= j < k ==> !StartsWith(r, DispatchOrder[j].Name());
    assert !(k < i);
    assert !(i < k);
  }

  /** A method's place in the dispatch order. */
  function Position(m: RtspMethod): (i: nat)
    requires m != Unknown
    ensures i < |DispatchOrder| && DispatchOrder[i] == m
  {
    match m
    case Options => 0
    case Describe => 1
    case Setup => 2
    case Play => 3
    case SetParameter => 4
    case Teardown => 5
  }

  /** A text that differs from `name` at index `i` does not start with it. */
  lemma DiffersAt(r: string, name: string, i: nat)
    requires i < |r| && i < |name| && r[i] != name[i]
    ensures !StartsWith(r, name)
  {
    if |name| <= |r| {
      assert r[..|name|][i] == r[i];
    }
  }

  /** No method earlier in the order than `m` prefixes a request for `m`. */
  lemma EarlierNamesMismatch(m: RtspMethod, rest: string)
    requires m != Unknown
    ensures forall j :: 0 <= j < Position(m) ==> !StartsWith(m.Name() + rest, DispatchOrder[j].Name())
  {
    var r := m.Name() + rest;
    assert r[0] == m.Name()[0];
    match m
    case Options =>
    case Describe =>
      DiffersAt(r, "OPTIONS", 0);
    case Setup =>
      DiffersAt(r, "OPTIONS", 0);
      DiffersAt(r, "DESCRIBE", 0);
    case Play =>
      DiffersAt(r, "OPTIONS", 0);
      DiffersAt(r, "DESCRIBE", 0);
      DiffersAt(r, "SETUP", 0);
    case SetParameter =>
      DiffersAt(r, "OPTIONS", 0);
      DiffersAt(r, "DESCRIBE", 0);
      assert r[3] == '_';
      DiffersAt(r, "SETUP", 3);
      DiffersAt(r, "PLAY", 0);
    case Teardown =>
      DiffersAt(r, "OPTIONS", 0);
      DiffersAt(r, "DESCRIBE", 0);
      DiffersAt(r, "SETUP", 0);
      DiffersAt(r, "PLAY", 0);
      DiffersAt(r, "SET_PARAMETER", 0);
  }

  /** The names of a list of methods, separated by ", ". */
  function CommaList(ms: seq<RtspMethod>): string
  {
    if ms == [] then ""
    else if |ms| == 1 then ms[0].Name()
    else ms[0].Name() + ", " + CommaList(ms[1..])
  }

  /** One more name in front of a list of at least two. */
  lemma CommaListStep(ms: seq<RtspMethod>, head: string, rest: string)
    requires |ms| >= 2 && head == ms[0].Name() + ", " && CommaList(ms[1..]) == rest
    ensures CommaList(ms) == head + rest
  {
  }

  /** OPTIONS announces exactly the dispatched methods, in dispatch order. */
  lemma PublicListsDispatch()
    ensures PublicLine == "Public: " + CommaList(DispatchOrder)
  {
    var d := DispatchOrder;
    assert CommaList(d[5..]) == "TEARDOWN";
    assert d[4..][1..] == d[5..];
    CommaListStep(d[4..], "SET_PARAMETER, ", "TEARDOWN");
    assert d[3..][1..] == d[4..];
    CommaListStep(d[3..], "PLAY, ", "SET_PARAMETER, " + "TEARDOWN");
    assert d[2..][1..] == d[3..];
    CommaListStep(d[2..], "SETUP, ", "PLAY, " + ("SET_PARAMETER, " + "TEARDOWN"));
    assert d[1..][1..] == d[2..];
    CommaListStep(d[1..], "DESCRIBE, ", "SETUP, " + ("PLAY, " + ("SET_PARAMETER, " + "TEARDOWN")));
    CommaListStep(d, "OPTIONS, ", "DESCRIBE, " + ("SETUP, " + ("PLAY, " + ("SET_PARAMETER, " + "TEARDOWN"))));
  }

  // ---------------------------------------------------------------------
  // SETUP

  /** A Transport header for the ports `a-b`, in the form clients send and
      the SETUP response carries. */
  function TransportLine(a: nat, b: nat): string
  {
    TransportProfile + ClientPortKey + NatToString(a) + "-" + NatToString(b)
  }

  /** The key's `=` is the first one on such a line. */
  lemma KeyLayout()
    ensures |TransportProfile| == 27 && |ClientPortKey| == 12 && ClientPortKey[11] == '='
    ensures forall i :: 0 <= i < 27 ==> TransportProfile[i] != '='
    ensures forall i :: 0 <= i < 11 ==> ClientPortKey[i] != '='
    ensures TransportProfile[..10] == "Transport:"
  {
  }

  /** The digits of `d` in front of a non-digit make one run. */
  lemma DigitRunOf(s: string, i: nat, d: string)
    requires i + |d| < |s| && s[i..i + |d|] == d && AllDigits(d) && !IsDigit(s[i + |d|])
    ensures DigitRun(s, i) == |d|
  {
    assert forall j :: i <= j < i + |d| ==> IsDigit(s[j]) by {
      forall j | i <= j < i + |d| ensures IsDigit(s[j]) {
        assert s[j] == s[i..i + |d|][j - i];
      }
    }
  }

  /** The pattern finds the first number of a Transport line. */
  lemma TransportLineMatch(a: nat, b: nat)
    ensures FindClientPort(TransportLine(a, b), 0) == Some(NatToString(a))
  {
    var t := TransportLine(a, b);
    LineLayout(a, b);
    forall q | 0 <= q < 27
      ensures !ClientPortAt(t, q)
    {
      NoKeyInProfile(t, q);
    }
    KeyAfterProfile(t, NatToString(a), NatToString(b));
    var r := FindClientPort(t, 0);
    var q :| 0 <= q && ClientPortAt(t, q) && r.value == PortGroup(t, q)
             && forall k :: 0 <= k < q ==> !ClientPortAt(t, k);
    assert !(q < 27) && !(27 < q);
  }

  lemma LineLayout(a: nat, b: nat)
    ensures var t := TransportLine(a, b); var da := NatToString(a);
      && |t| > 39 + |da| + 1 && t[..27] == TransportProfile && t[27..39] == ClientPortKey
      && t[39..] == da + "-" + NatToString(b)
  {
    KeyLayout();
    var t := TransportLine(a, b);
    assert t == (TransportProfile + ClientPortKey) + (NatToString(a) + "-" + NatToString(b));
  }

  /** The key cannot start inside the profile: its `=` would come too
      early. */
  lemma NoKeyInProfile(t: string, q: nat)
    requires |t| >= 39 && t[..27] == TransportProfile && t[27..39] == ClientPortKey && q < 27
    ensures !ClientPortAt(t, q)
  {
    KeyLayout();
    if q + 11 < 27 {
      assert t[q + 11] == t[..27][q + 11];
    } else {
      assert t[q + 11] == t[27..39][q + 11 - 27];
    }
    assert t[q..q + 12][11] == t[q + 11];
  }

  /** Right after the profile the key, the digits of `da`, a hyphen and a
      digit make the match. */
  lemma KeyAfterProfile(t: string, da: string, db: string)
    requires |t| > 39 && t[27..39] == ClientPortKey && t[39..] == da + "-" + db
    requires |da| >= 1 && AllDigits(da) && |db| >= 1 && AllDigits(db)
    ensures ClientPortAt(t, 27) && PortGroup(t, 27) == da
  {
    assert t[39..39 + |da|] == da by { assert t[39..][..|da|] == da; }
    assert t[39 + |da|] == t[39..][|da|];
    assert t[39 + |da| + 1] == t[39..][|da| + 1] == db[0];
    DigitRunOf(t, 39, da);
  }

  /** The client port is the first number of the first Transport line,
      with 0 turned into 5000. */
  lemma SetupPortFromTransport(request: string, port: int32, k: nat, a: nat, b: nat)
    requires k < |Lines(request)| && Lines(request)[k] == TransportLine(a, b)
    requires forall j :: 0 <= j < k ==> !StartsWith(Lines(request)[j], "Transport:")
    requires a < 0x8000_0000
    ensures SetupPort(request, port) == Some(if a == 0 then 5000 else a)
  {
    TransportLineIsTransport(a, b);
    FirstWithPrefixAt(Lines(request), "Transport:", k);
    TransportLineMatch(a, b);
  }

  lemma TransportLineIsTransport(a: nat, b: nat)
    ensures StartsWith(TransportLine(a, b), "Transport:")
  {
    KeyLayout();
    assert TransportLine(a, b)[..10] == TransportProfile[..10];
  }

  /** `find` returns the first line with the prefix. */
  lemma FirstWithPrefixAt(lines: seq<string>, prefix: string, k: nat)
    requires k < |lines| && StartsWith(lines[k], prefix)
    requires forall j :: 0 <= j < k ==> !StartsWith(lines[j], prefix)
    ensures FirstWithPrefix(lines, prefix) == Some(lines[k])
  {
    var first := FirstWithPrefix(lines, prefix);
    var k' :| 0 <= k' < |lines| && lines[k'] == first.value && StartsWith(lines[k'], prefix)
              && forall j :: 0 <= j < k' ==> !StartsWith(lines[j], prefix);
    assert !(k < k') && !(k' < k);
  }

  /** Without a Transport line the port before stays, and 0 becomes
      5000. */
  lemma SetupPortWithoutTransport(request: string, port: int32)
    requires forall j :: 0 <= j < |Lines(request)| ==> !StartsWith(Lines(request)[j], "Transport:")
    ensures SetupPort(request, port) == Some(if port == 0 then 5000 else port)
  {
  }

  /** SETUP never leaves the client port at 0, and a port that was never
      negative stays positive. */
  lemma SetupPortNonZero(request: string, port: int32)
    ensures SetupPort(request, port).Some? ==> SetupPort(request, port).value != 0
    ensures port >= 0 && SetupPort(request, port).Some? ==> SetupPort(request, port).value > 0
  {
  }

  /** The SETUP response's Transport line names `p-(p+1)`, and a client
      reading it with the same pattern gets `p` back. */
  lemma SetupReplyNamesPort(p: int32)
    requires 0 <= p < 0x7FFF_FFFF
    ensures TransportReply(p) == TransportLine(p, p + 1)
    ensures FindClientPort(TransportReply(p), 0) == Some(IntToString(p))
  {
    TransportLineMatch(p, p + 1);
  }

  // ---------------------------------------------------------------------
  // SET_PARAMETER

  /** A value names a preset exactly when its lower-case form is that
      preset's word; otherwise it names none. */
  lemma PresetNamedIff(value: string, p: QualityPreset)
    ensures PresetNamed(value) == Some(p) <==> Lowercase(value) == QualityWord(p)
    ensures PresetNamed(value) == None <==> forall q :: Lowercase(value) != QualityWord(q)
  {
    if PresetNamed(value) == None {
      forall q: QualityPreset ensures Lowercase(value) != QualityWord(q) {
        match q
        case LOW =>
        case MEDIUM =>
        case HIGH =>
        case ULTRA =>
      }
    } else {
      assert Lowercase(value) == QualityWord(PresetNamed(value).value);
    }
  }

  /** The value comes from the first line that starts with `quality:` in
      any case. */
  lemma {:induction false} QualityValueFirst(lines: seq<string>, k: nat)
    requires k < |lines| && StartsWithIgnoreCase(lines[k], QualityKey)
    requires forall j :: 0 <= j < k ==> !StartsWithIgnoreCase(lines[j], QualityKey)
    ensures QualityValue(lines) == Some(Trim(lines[k][|QualityKey|..]))
  {
    if k > 0 {
      assert forall j :: 0 <= j < k - 1 ==> lines[1..][j] == lines[j + 1];
      QualityValueFirst(lines[1..], k - 1);
    }
  }

  /** Without such a line there is no value. */
  lemma {:induction false} QualityValueMissing(lines: seq<string>)
    requires forall j :: 0 <= j < |lines| ==> !StartsWithIgnoreCase(lines[j], QualityKey)
    ensures QualityValue(lines) == None
  {
    if lines != [] {
      assert forall j :: 0 <= j < |lines| - 1 ==> lines[1..][j] == lines[j + 1];
      QualityValueMissing(lines[1..]);
    }
  }

  /** A SET_PARAMETER whose first quality line names a preset, in any case,
      switches to that preset's configuration and answers 200 OK. */
  lemma SetParameterUnderstood(s: Session, request: string, nowMillis: int64, k: nat, p: QualityPreset)
    requires MethodOf(request) == SetParameter
    requires k < |Lines(request)| && StartsWithIgnoreCase(Lines(request)[k], QualityKey)
    requires forall j :: 0 <= j < k ==> !StartsWithIgnoreCase(Lines(request)[j], QualityKey)
    requires Lowercase(Trim(Lines(request)[k][|QualityKey|..])) == QualityWord(p)
    ensures Respond(s, request, nowMillis) == (s.(config := FromPreset(p)), Reply(SimpleResponse("200 OK", s.cseq), false))
  {
    QualityValueFirst(Lines(request), k);
    PresetNamedIff(Trim(Lines(request)[k][|QualityKey|..]), p);
    RespondToSetParameter(s, request, nowMillis);
  }

  /** A SET_PARAMETER whose first quality line names no preset answers 451
      and leaves every field as it was. */
  lemma SetParameterUnknownValue(s: Session, request: string, nowMillis: int64, k: nat)
    requires MethodOf(request) == SetParameter
    requires k < |Lines(request)| && StartsWithIgnoreCase(Lines(request)[k], QualityKey)
    requires forall j :: 0 <= j < k ==> !StartsWithIgnoreCase(Lines(request)[j], QualityKey)
    requires forall q :: Lowercase(Trim(Lines(request)[k][|QualityKey|..])) != QualityWord(q)
    ensures Respond(s, request, nowMillis) == (s, Reply(SimpleResponse("451 Parameter Not Understood", s.cseq), false))
  {
    QualityValueFirst(Lines(request), k);
    PresetNamedIff(Trim(Lines(request)[k][|QualityKey|..]), LOW);
    RespondToSetParameter(s, request, nowMillis);
  }

  /** A SET_PARAMETER without a quality line answers 451 and leaves every
      field as it was. */
  lemma SetParameterMissingValue(s: Session, request: string, nowMillis: int64)
    requires MethodOf(request) == SetParameter
    requires forall j :: 0 <= j < |Lines(request)| ==> !StartsWithIgnoreCase(Lines(request)[j], QualityKey)
    ensures Respond(s, request, nowMillis) == (s, Reply(SimpleResponse("451 Parameter Not Understood", s.cseq), false))
  {
    QualityValueMissing(Lines(request));
    RespondToSetParameter(s, request, nowMillis);
  }

  // ---------------------------------------------------------------------
  // Response framing

  /** An integer's text holds only digits and a minus sign. */
  lemma IntTextNoLineBreak(x: int)
    ensures NoLineBreak(IntToString(x))
  {
    IntToStringChars(x);
  }

  /** The header block that starts at line 1 ends at the first empty line. */
  lemma HeaderEndAt(ls: seq<string>, n: nat)
    requires 1 <= n < |ls| && ls[n] == ""
    requires forall j :: 1 <= j < n ==> ls[j] != ""
    ensures HeaderEnd(ls, 1) == n
  {
  }

  /** A CSeq line followed by other header lines decides `cseq`. */
  lemma CSeqHeaders(cseq: int32, extra: seq<string>)
    requires forall j :: 0 <= j < |extra| ==> !StartsWith(extra[j], "CSeq:")
    ensures CSeqAfter([CSeqLine(cseq)] + extra, 0) == cseq
  {
    var hs := [CSeqLine(cseq)] + extra;
    CSeqLineRoundTrip(cseq);
    assert StartsWith(hs[0], "CSeq:") by { assert CSeqLine(cseq)[..5] == "CSeq:"; }
    assert forall j :: 0 < j < |hs| ==> hs[j] == extra[j - 1];
    CSeqAfterLast(hs, 0, 0);
  }

  /** The status and CSeq lines hold no line break. */
  lemma ReplyLinesNoBreak(status: string, cseq: int32, extra: seq<string>)
    requires NoLineBreak(status) && AllNoLineBreak(extra)
    ensures AllNoLineBreak([StatusLine(status), CSeqLine(cseq)] + extra + [""])
  {
    var header := [StatusLine(status), CSeqLine(cseq)] + extra + [""];
    IntTextNoLineBreak(cseq);
    NoLineBreakConcat("CSeq: ", IntToString(cseq));
    NoLineBreakConcat("RTSP/1.0 ", status);
    forall i | 0 <= i < |header| ensures NoLineBreak(header[i]) {
      if 2 <= i < |header| - 1 {
        assert header[i] == extra[i - 2];
      }
    }
  }

  /** Header lines after the CSeq line: no line break, not empty, and not
      a second CSeq header. */
  predicate ExtraHeaders(extra: seq<string>)
  {
    && AllNoLineBreak(extra)
    && forall j :: 0 <= j < |extra| ==> extra[j] != [] && !StartsWith(extra[j], "CSeq:")
  }

  /** What a client reading `response` with the server's own reader finds:
      the status line, a header block closed by an empty line, and in it
      the CSeq `cseq`. */
  predicate ReadsBack(response: string, status: string, cseq: int32)
  {
    var ls := Lines(response);
    var h := HeaderEnd(ls, 1);
    && h < |ls| && ls[0] == StatusLine(status) && CSeqAfter(ls[1..h], 0) == cseq
  }

  /** A response of the form `sendResponse` and the other handlers write:
      status line, CSeq line, further header lines, an empty line, then a
      body. Read back with the server's own line reader, the header block
      ends at that empty line and its CSeq is the one written. */
  lemma FramedReply(status: string, cseq: int32, extra: seq<string>, body: string)
    requires NoLineBreak(status) && ExtraHeaders(extra)
    ensures ReadsBack(Join([StatusLine(status), CSeqLine(cseq)] + extra + [""]) + body, status, cseq)
  {
    FramedLines(status, cseq, extra, body);
    ReadsBackOf(Join([StatusLine(status), CSeqLine(cseq)] + extra + [""]) + body, status, cseq, |extra| + 2);
  }

  lemma ReadsBackOf(response: string, status: string, cseq: int32, n: nat)
    requires var ls := Lines(response);
      && |ls| > n && ls[0] == StatusLine(status) && HeaderEnd(ls, 1) == n && CSeqAfter(ls[1..n], 0) == cseq
    ensures ReadsBack(response, status, cseq)
  {
  }

  lemma FramedLines(status: string, cseq: int32, extra: seq<string>, body: string)
    requires NoLineBreak(status) && ExtraHeaders(extra)
    ensures var ls := Lines(Join([StatusLine(status), CSeqLine(cseq)] + extra + [""]) + body);
      && |ls| > |extra| + 2 && ls[0] == StatusLine(status)
      && HeaderEnd(ls, 1) == |extra| + 2 && CSeqAfter(ls[1..|extra| + 2], 0) == cseq
  {
    var header := [StatusLine(status), CSeqLine(cseq)] + extra + [""];
    ReplyLinesNoBreak(status, cseq, extra);
    LinesOfJoin(header, body);
    var ls := Lines(Join(header) + body);
    assert ls[..|header|] == header;
    HeaderBlockOf(ls, header, StatusLine(status), CSeqLine(cseq), extra);
    CSeqHeaders(cseq, extra);
  }

  /** The header block of lines that begin with a status line, a CSeq
      line, other header lines and an empty line. */
  lemma HeaderBlockOf(ls: seq<string>, header: seq<string>, statusLine: string, cseqLine: string, extra: seq<string>)
    requires header == [statusLine, cseqLine] + extra + [""]
    requires |header| <= |ls| && ls[..|header|] == header
    requires cseqLine != [] && forall j :: 0 <= j < |extra| ==> extra[j] != []
    ensures |ls| > |extra| + 2 && ls[0] == statusLine
    ensures HeaderEnd(ls, 1) == |extra| + 2 && ls[1..|extra| + 2] == [cseqLine] + extra
  {
    var n := |extra| + 2;
    assert ls[0] == header[0] && ls[1] == header[1] && ls[n] == header[n];
    forall j | 1 <= j < n
      ensures ls[j] == header[j] != ""
    {
      if j > 1 {
        assert header[j] == extra[j - 2];
      }
    }
    HeaderEndAt(ls, n);
    assert ls[1..n] == header[1..n];
  }

  /** The same without a body. */
  lemma FramedReplyNoBody(status: string, cseq: int32, extra: seq<string>)
    requires NoLineBreak(status) && ExtraHeaders(extra)
    ensures ReadsBack(Join([StatusLine(status), CSeqLine(cseq)] + extra + [""]), status, cseq)
  {
    var header := [StatusLine(status), CSeqLine(cseq)] + extra + [""];
    assert Join(header) + "" == Join(header);
    FramedReply(status, cseq, extra, "");
  }

  lemma SimpleReplyReads(status: string, cseq: int32)
    requires NoLineBreak(status)
    ensures ReadsBack(SimpleResponse(status, cseq), status, cseq)
  {
    assert [StatusLine(status), CSeqLine(cseq)] + [] + [""] == [StatusLine(status), CSeqLine(cseq), ""];
    FramedReplyNoBody(status, cseq, []);
  }

  /** The Public line holds no line break. */
  lemma PublicLineNoBreak()
    ensures NoLineBreak(PublicLine)
  {
    NoLineBreakConcat("SET_PARAMETER, ", "TEARDOWN");
    NoLineBreakConcat("PLAY, ", "SET_PARAMETER, " + "TEARDOWN");
    NoLineBreakConcat("SETUP, ", "PLAY, " + ("SET_PARAMETER, " + "TEARDOWN"));
    NoLineBreakConcat("DESCRIBE, ", "SETUP, " + ("PLAY, " + ("SET_PARAMETER, " + "TEARDOWN")));
    NoLineBreakConcat("OPTIONS, ", "DESCRIBE, " + ("SETUP, " + ("PLAY, " + ("SET_PARAMETER, " + "TEARDOWN"))));
    NoLineBreakConcat("Public: ", "OPTIONS, " + ("DESCRIBE, " + ("SETUP, " + ("PLAY, " + ("SET_PARAMETER, " + "TEARDOWN")))));
  }

  lemma OptionsReplyReads(cseq: int32)
    ensures ReadsBack(OptionsResponse(cseq), "200 OK", cseq)
  {
    var extra := [PublicLine];
    assert ExtraHeaders(extra) by {
      PublicLineNoBreak();
      DiffersAt(PublicLine, "CSeq:", 0);
    }
    assert [StatusLine("200 OK"), CSeqLine(cseq)] + extra + [""] == [StatusLine("200 OK"), CSeqLine(cseq), PublicLine, ""];
    FramedReplyNoBody("200 OK", cseq, extra);
  }

  lemma PlayHeaders(sessionId: Option<string>)
    requires sessionId.None? || NoLineBreak(sessionId.value)
    ensures ExtraHeaders(["Session: " + SessionText(sessionId), "Range: npt=0.000-"])
  {
    var sessionLine := "Session: " + SessionText(sessionId);
    NoLineBreakConcat("Session: ", SessionText(sessionId));
    DiffersAt(sessionLine, "CSeq:", 0);
    DiffersAt("Range: npt=0.000-", "CSeq:", 0);
  }

  lemma PlayReplyReads(cseq: int32, sessionId: Option<string>)
    requires sessionId.None? || NoLineBreak(sessionId.value)
    ensures ReadsBack(PlayResponse(cseq, sessionId), "200 OK", cseq)
  {
    var extra := ["Session: " + SessionText(sessionId), "Range: npt=0.000-"];
    PlayHeaders(sessionId);
    assert [StatusLine("200 OK"), CSeqLine(cseq)] + extra + [""] == [StatusLine("200 OK"), CSeqLine(cseq), extra[0], extra[1], ""];
    FramedReplyNoBody("200 OK", cseq, extra);
  }

  /** The Transport line of a SETUP response holds no line break. */
  lemma TransportReplyNoBreak(port: int32)
    ensures NoLineBreak(TransportReply(port))
  {
    TransportKeysNoBreak();
    IntTextNoLineBreak(port);
    IntTextNoLineBreak(Int32(port + 1));
    ConcatNoBreak(TransportProfile, ClientPortKey, IntToString(port), "-", IntToString(Int32(port + 1)));
  }

  lemma TransportKeysNoBreak()
    ensures NoLineBreak(TransportProfile) && NoLineBreak(ClientPortKey)
  {
  }

  lemma ConcatNoBreak(a: string, b: string, c: string, d: string, e: string)
    requires NoLineBreak(a) && NoLineBreak(b) && NoLineBreak(c) && NoLineBreak(d) && NoLineBreak(e)
    ensures NoLineBreak(a + b + c + d + e)
  {
    NoLineBreakConcat(a, b);
    NoLineBreakConcat(a + b, c);
    NoLineBreakConcat(a + b + c, d);
    NoLineBreakConcat(a + b + c + d, e);
  }

  lemma SetupHeaders(sessionId: string, port: int32)
    requires NoLineBreak(sessionId)
    ensures ExtraHeaders(["Session: " + sessionId, TransportReply(port)])
  {
    TransportReplyNoBreak(port);
    TransportReplyFirst(port);
    SessionAndTransport(sessionId, TransportReply(port));
  }

  lemma TransportReplyFirst(port: int32)
    ensures |TransportReply(port)| > 0 && TransportReply(port)[0] == 'T'
  {
    assert TransportReply(port)[0] == TransportProfile[0];
  }

  lemma SessionAndTransport(sessionId: string, transport: string)
    requires NoLineBreak(sessionId) && NoLineBreak(transport)
    requires |transport| > 0 && transport[0] == 'T'
    ensures ExtraHeaders(["Session: " + sessionId, transport])
  {
    NoLineBreakConcat("Session: ", sessionId);
    DiffersAt("Session: " + sessionId, "CSeq:", 0);
    DiffersAt(transport, "CSeq:", 0);
  }

  lemma SetupReplyReads(cseq: int32, sessionId: string, port: int32)
    requires NoLineBreak(sessionId)
    ensures ReadsBack(SetupResponse(cseq, sessionId, port), "200 OK", cseq)
  {
    var extra := ["Session: " + sessionId, TransportReply(port)];
    SetupHeaders(sessionId, port);
    assert [StatusLine("200 OK"), CSeqLine(cseq)] + extra + [""] == [StatusLine("200 OK"), CSeqLine(cseq), extra[0], extra[1], ""];
    FramedReplyNoBody("200 OK", cseq, extra);
  }

  lemma DescribeHeaders(length: int)
    ensures ExtraHeaders(["Content-Type: application/sdp", "Content-Length: " + IntToString(length)])
  {
    ContentTypeLine();
    ContentLengthLine(length);
    TwoHeaders("Content-Type: application/sdp", "Content-Length: " + IntToString(length));
  }

  lemma ContentTypeLine()
    ensures var l := "Content-Type: application/sdp";
            NoLineBreak(l) && l != [] && !StartsWith(l, "CSeq:")
  {
    DiffersAt("Content-Type: application/sdp", "CSeq:", 1);
  }

  lemma ContentLengthLine(length: int)
    ensures var l := "Content-Length: " + IntToString(length);
            NoLineBreak(l) && l != [] && !StartsWith(l, "CSeq:")
  {
    var l := "Content-Length: " + IntToString(length);
    IntTextNoLineBreak(length);
    NoLineBreakConcat("Content-Length: ", IntToString(length));
    assert l[1] == 'o';
    DiffersAt(l, "CSeq:", 1);
  }

  lemma TwoHeaders(x: string, y: string)
    requires NoLineBreak(x) && x != [] && !StartsWith(x, "CSeq:")
    requires NoLineBreak(y) && y != [] && !StartsWith(y, "CSeq:")
    ensures ExtraHeaders([x, y])
  {
  }

  /** The DESCRIBE framing for any body. */
  lemma DescribeFraming(cseq: int32, body: string)
    ensures ReadsBack(Join([StatusLine("200 OK"), CSeqLine(cseq), "Content-Type: application/sdp",
                           "Content-Length: " + IntToString(|body|), ""]) + body, "200 OK", cseq)
  {
    var extra := ["Content-Type: application/sdp", "Content-Length: " + IntToString(|body|)];
    DescribeHeaders(|body|);
    assert [StatusLine("200 OK"), CSeqLine(cseq)] + extra + [""]
        == [StatusLine("200 OK"), CSeqLine(cseq), extra[0], extra[1], ""];
    FramedReply("200 OK", cseq, extra, body);
  }

  lemma DescribeReplyReads(cseq: int32, c: StreamingConfig)
    ensures ReadsBack(DescribeResponse(cseq, c), "200 OK", cseq)
  {
    DescribeFraming(cseq, Sdp(c));
  }

  /** The status each handler answers with. */
  function ReplyStatus(request: string): string
  {
    match MethodOf(request)
    case Unknown => "400 Bad Request"
    case SetParameter => if RequestedPreset(request).None? then "451 Parameter Not Understood" else "200 OK"
    case _ => "200 OK"
  }

  lemma StatusNoBreak(request: string)
    ensures NoLineBreak(ReplyStatus(request))
  {
    assert NoLineBreak("400 Bad Request") && NoLineBreak("451 Parameter Not Understood") && NoLineBreak("200 OK");
  }

  /** Every response the server writes starts with the status line of its
      handler, ends its header block with an empty line, and echoes the
      request's CSeq; only TEARDOWN closes the connection. */
  lemma RespondReadsBack(s: Session, request: string, nowMillis: int64)
    requires s.sessionId.None? || NoLineBreak(s.sessionId.value)
    requires Respond(s, request, nowMillis).1.Reply?
    ensures ReadsBack(Respond(s, request, nowMillis).1.response, ReplyStatus(request), s.cseq)
    ensures Respond(s, request, nowMillis).1.close <==> MethodOf(request) == Teardown
  {
    var m := MethodOf(request);
    if m == Setup {
      SetupReadsBack(s, request, nowMillis);
    } else if m == SetParameter {
      SetParameterReadsBack(s, request, nowMillis);
    } else if m == Options || m == Describe || m == Play {
      QueryReadsBack(s, request, nowMillis);
    } else if m == Teardown {
      TeardownReadsBack(s, request, nowMillis);
    } else {
      UnknownReadsBack(s, request, nowMillis);
    }
  }

  lemma SetupReadsBack(s: Session, request: string, nowMillis: int64)
    requires MethodOf(request) == Setup && Respond(s, request, nowMillis).1.Reply?
    ensures ReadsBack(Respond(s, request, nowMillis).1.response, "200 OK", s.cseq)
    ensures !Respond(s, request, nowMillis).1.close
  {
    RespondToSetup(s, request, nowMillis);
    IntTextNoLineBreak(nowMillis);
    SetupReplyReads(s.cseq, IntToString(nowMillis), SetupPort(request, s.clientRtpPort).value);
  }

  lemma SetParameterReadsBack(s: Session, request: string, nowMillis: int64)
    requires MethodOf(request) == SetParameter
    ensures ReadsBack(Respond(s, request, nowMillis).1.response, ReplyStatus(request), s.cseq)
    ensures !Respond(s, request, nowMillis).1.close
  {
    SetParameterReply(s, request, nowMillis);
    StatusNoBreak(request);
    SimpleReplyReads(ReplyStatus(request), s.cseq);
  }

  lemma SetParameterReply(s: Session, request: string, nowMillis: int64)
    requires MethodOf(request) == SetParameter
    ensures Respond(s, request, nowMillis).1 == Reply(SimpleResponse(ReplyStatus(request), s.cseq), false)
  {
    RespondToSetParameter(s, request, nowMillis);
  }

  lemma QueryReadsBack(s: Session, request: string, nowMillis: int64)
    requires MethodOf(request) in {Options, Describe, Play}
    requires s.sessionId.None? || NoLineBreak(s.sessionId.value)
    ensures ReadsBack(Respond(s, request, nowMillis).1.response, "200 OK", s.cseq)
    ensures !Respond(s, request, nowMillis).1.close
  {
    if MethodOf(request) == Options {
      RespondToOptions(s, request, nowMillis);
      OptionsReplyReads(s.cseq);
    } else if MethodOf(request) == Describe {
      RespondToDescribe(s, request, nowMillis);
      DescribeReplyReads(s.cseq, s.config);
    } else {
      RespondToPlay(s, request, nowMillis);
      PlayReplyReads(s.cseq, s.sessionId);
    }
  }

  lemma OkReads(cseq: int32)
    ensures ReadsBack(SimpleResponse("200 OK", cseq), "200 OK", cseq)
  {
    SimpleReplyReads("200 OK", cseq);
  }

  lemma BadRequestReads(cseq: int32)
    ensures ReadsBack(SimpleResponse("400 Bad Request", cseq), "400 Bad Request", cseq)
  {
    SimpleReplyReads("400 Bad Request", cseq);
  }

  lemma TeardownReadsBack(s: Session, request: string, nowMillis: int64)
    requires MethodOf(request) == Teardown
    ensures ReadsBack(Respond(s, request, nowMillis).1.response, "200 OK", s.cseq)
    ensures Respond(s, request, nowMillis).1.close
  {
    RespondToTeardown(s, request, nowMillis);
    OkReads(s.cseq);
  }

  lemma UnknownReadsBack(s: Session, request: string, nowMillis: int64)
    requires MethodOf(request) == Unknown
    ensures ReadsBack(Respond(s, request, nowMillis).1.response, "400 Bad Request", s.cseq)
    ensures !Respond(s, request, nowMillis).1.close
  {
    RespondToUnknown(s, request, nowMillis);
    BadRequestReads(s.cseq);
  }

  // ---------------------------------------------------------------------
  // What a connection can do to the fields

  /** The fields as request handling leaves them: the configuration is the
      one the server started with or a preset's, the session id (if any)
      is one line of text, and the client port is not negative. */
  predicate Reachable(s: Session, initial: StreamingConfig)
  {
    && (s.config == initial || exists p :: s.config == FromPreset(p))
    && (s.sessionId.None? || NoLineBreak(s.sessionId.value))
    && s.clientRtpPort >= 0
  }

  lemma RespondKeepsReachable(s: Session, request: string, nowMillis: int64, initial: StreamingConfig)
    requires Reachable(s, initial)
    ensures Reachable(Respond(s, request, nowMillis).0, initial)
  {
    match MethodOf(request)
    case Setup =>
      RespondToSetup(s, request, nowMillis);
      IntTextNoLineBreak(nowMillis);
      SetupPortNonZero(request, s.clientRtpPort);
    case SetParameter =>
      RespondToSetParameter(s, request, nowMillis);
    case Options => RespondToOptions(s, request, nowMillis);
    case Describe => RespondToDescribe(s, request, nowMillis);
    case Play => RespondToPlay(s, request, nowMillis);
    case Teardown => RespondToTeardown(s, request, nowMillis);
    case Unknown => RespondToUnknown(s, request, nowMillis);
  }

  /** However a client's lines run, the connection leaves the fields
      reachable. */
  lemma {:induction false} ConversationKeepsReachable(s: Session, input: seq<string>, nowMillis: int64, initial: StreamingConfig)
    requires Reachable(s, initial)
    ensures Reachable(Conversation(s, input, nowMillis).0, initial)
    decreases |input|
  {
    if input != [] {
      var h := HeaderEnd(input, 1);
      var s1 := s.(cseq := CSeqAfter(input[1..h], s.cseq));
      var request := Join(input[..h]);
      var (s2, outcome) := Respond(s1, request, nowMillis);
      var rest := input[Consumed(input)..];
      ConversationStep(s, input, nowMillis, s2, outcome, rest);
      RespondKeepsReachable(s1, request, nowMillis, initial);
      if outcome.Reply? && !outcome.close {
        ConversationKeepsReachable(s2, rest, nowMillis, initial);
      }
    }
  }

  // ---------------------------------------------------------------------
  // DESCRIBE: the body and its length

  /** For any body: the fourth line announces, in decimal, exactly the
      number of characters after the empty line that ends the header. */
  lemma LengthFraming(cseq: int32, body: string)
    ensures var header := Join([StatusLine("200 OK"), CSeqLine(cseq), "Content-Type: application/sdp",
                                "Content-Length: " + IntToString(|body|), ""]);
            var response := header + body;
            var ls := Lines(response);
            && |ls| > 4 && response[..|header|] == header
            && ls[3] == "Content-Length: " + NatToString(|response| - |header|)
  {
    var lines := [StatusLine("200 OK"), CSeqLine(cseq), "Content-Type: application/sdp",
                  "Content-Length: " + IntToString(|body|), ""];
    var extra := ["Content-Type: application/sdp", "Content-Length: " + IntToString(|body|)];
    DescribeHeaders(|body|);
    ReplyLinesNoBreak("200 OK", cseq, extra);
    assert [StatusLine("200 OK"), CSeqLine(cseq)] + extra + [""] == lines;
    LinesOfJoin(lines, body);
    assert Lines(Join(lines) + body)[3] == lines[3];
  }

  /** The DESCRIBE response: its header block, then the SDP; the
      Content-Length header is a decimal number equal to the length of the
      SDP that follows the header. */
  lemma DescribeContentLength(cseq: int32, c: StreamingConfig)
    ensures var header := Join(DescribeHeader(cseq, c));
            var response := DescribeResponse(cseq, c);
            var ls := Lines(response);
            && |ls| > 4 && response[..|header|] == header && response[|header|..] == Sdp(c)
            && |ls[3]| > 16 && ls[3][..16] == "Content-Length: " && AllDigits(ls[3][16..])
            && DecimalValue(ls[3][16..]) == |response| - |header|
  {
    var body := Sdp(c);
    LengthFraming(cseq, body);
    var header := Join(DescribeHeader(cseq, c));
    var response := header + body;
    var digits := NatToString(|response| - |header|);
    assert ("Content-Length: " + digits)[16..] == digits;
  }

  /** The SDP lines as a client splits the body: exactly the fifteen lines
      of the description, each ended by CRLF. */
  lemma SdpLinesRead(c: StreamingConfig)
    ensures Lines(Sdp(c)) == SdpLines(c) + [""]
  {
    SdpLinesNoBreak(c);
    LinesOfFramed(SdpLines(c));
  }

  lemma SdpLinesNoBreak(c: StreamingConfig)
    ensures AllNoLineBreak(SdpLines(c))
  {
    var ls := SdpLines(c);
    SdpFixedNoBreak();
    IntTextNoLineBreak(TruncDiv(c.videoBitrate, 1000));
    IntTextNoLineBreak(TruncDiv(c.audioBitrate, 1000));
    IntTextNoLineBreak(c.audioSampleRate);
    IntTextNoLineBreak(c.audioChannels);
    NoLineBreakConcat(SdpBandwidth, IntToString(TruncDiv(c.videoBitrate, 1000)));
    NoLineBreakConcat(SdpBandwidth, IntToString(TruncDiv(c.audioBitrate, 1000)));
    NoLineBreakConcat(SdpAudioRtpmap, IntToString(c.audioSampleRate));
    NoLineBreakConcat(SdpAudioRtpmap + IntToString(c.audioSampleRate), "/");
    NoLineBreakConcat(SdpAudioRtpmap + IntToString(c.audioSampleRate) + "/", IntToString(c.audioChannels));
  }

  lemma SdpFixedNoBreak()
    ensures NoLineBreak(SdpVersion) && NoLineBreak(SdpOrigin) && NoLineBreak(SdpSessionName)
    ensures NoLineBreak(SdpConnection) && NoLineBreak(SdpTiming) && NoLineBreak(SdpVideoMedia)
    ensures NoLineBreak(SdpVideoRtpmap) && NoLineBreak(SdpVideoFmtp) && NoLineBreak(SdpBandwidth)
    ensures NoLineBreak(SdpVideoControl) && NoLineBreak(SdpAudioMedia) && NoLineBreak(SdpAudioRtpmap)
    ensures NoLineBreak(SdpAudioControl) && NoLineBreak(SdpAudioFmtp)
  {
    SdpSessionNoBreak();
    SdpVideoNoBreak();
    SdpAudioNoBreak();
  }

  lemma SdpSessionNoBreak()
    ensures NoLineBreak(SdpVersion) && NoLineBreak(SdpOrigin) && NoLineBreak(SdpSessionName)
    ensures NoLineBreak(SdpConnection) && NoLineBreak(SdpTiming)
  {
  }

  lemma SdpVideoNoBreak()
    ensures NoLineBreak(SdpVideoMedia) && NoLineBreak(SdpVideoRtpmap) && NoLineBreak(SdpVideoFmtp)
    ensures NoLineBreak(SdpBandwidth) && NoLineBreak(SdpVideoControl)
  {
  }

  lemma SdpAudioNoBreak()
    ensures NoLineBreak(SdpAudioMedia) && NoLineBreak(SdpAudioRtpmap) && NoLineBreak(SdpAudioControl)
    ensures NoLineBreak(SdpAudioFmtp)
  {
    SdpAudioFmtpNoBreak();
  }

  lemma SdpAudioFmtpNoBreak()
    ensures NoLineBreak(SdpAudioFmtp)
  {
    var t := "indexlength=3;" + "indexdeltalength=3";
    NoLineBreakConcat("indexlength=3;", "indexdeltalength=3");
    NoLineBreakConcat("sizelength=13;", t);
    NoLineBreakConcat("mode=AAC-hbr;", "sizelength=13;" + t);
    NoLineBreakConcat("profile-level-id=1;", "mode=AAC-hbr;" + ("sizelength=13;" + t));
    NoLineBreakConcat("streamtype=5;", "profile-level-id=1;" + ("mode=AAC-hbr;" + ("sizelength=13;" + t)));
    NoLineBreakConcat("a=fmtp:97 ", "streamtype=5;" + ("profile-level-id=1;" + ("mode=AAC-hbr;" + ("sizelength=13;" + t))));
  }

  /** The first characters of the fixed SDP lines. */
  lemma SessionHeads()
    ensures |SdpVersion| > 0 && SdpVersion[0] == 'v' && |SdpOrigin| > 0 && SdpOrigin[0] == 'o'
    ensures |SdpSessionName| > 0 && SdpSessionName[0] == 's' && |SdpConnection| > 0 && SdpConnection[0] == 'c'
    ensures |SdpTiming| > 0 && SdpTiming[0] == 't'
  {
  }

  lemma VideoHeads()
    ensures |SdpVideoMedia| >= 2 && SdpVideoMedia[..2] == "m="
    ensures |SdpVideoRtpmap| > 0 && SdpVideoRtpmap[0] == 'a' && |SdpVideoFmtp| > 0 && SdpVideoFmtp[0] == 'a'
    ensures |SdpBandwidth| > 0 && SdpBandwidth[0] == 'b' && |SdpVideoControl| > 0 && SdpVideoControl[0] == 'a'
  {
  }

  lemma AudioHeads()
    ensures |SdpAudioMedia| >= 2 && SdpAudioMedia[..2] == "m="
    ensures |SdpAudioRtpmap| > 0 && SdpAudioRtpmap[0] == 'a' && |SdpAudioFmtp| > 0 && SdpAudioFmtp[0] == 'a'
    ensures |SdpAudioControl| > 0 && SdpAudioControl[0] == 'a'
  {
  }

  /** The description has two media sections, video first (line 5) and
      audio second (line 10); no other line starts one. */
  lemma SdpMediaSections(c: StreamingConfig)
    ensures var ls := Lines(Sdp(c));
            && |ls| == 16 && ls[5] == SdpVideoMedia && ls[10] == SdpAudioMedia
            && forall i :: 0 <= i < |ls| ==> (StartsWith(ls[i], "m=") <==> i == 5 || i == 10)
  {
    SdpLinesRead(c);
    SdpLineHeads(c, SdpLines(c) + [""]);
    MediaOpeners(SdpLines(c) + [""]);
  }

  lemma SdpLineHeads(c: StreamingConfig, ls: seq<string>)
    requires ls == SdpLines(c) + [""]
    ensures |ls| == 16 && ls[15] == "" && ls[5] == SdpVideoMedia && ls[10] == SdpAudioMedia
    ensures |ls[0]| > 0 && ls[0][0] == 'v' && |ls[1]| > 0 && ls[1][0] == 'o' && |ls[2]| > 0 && ls[2][0] == 's'
    ensures |ls[3]| > 0 && ls[3][0] == 'c' && |ls[4]| > 0 && ls[4][0] == 't'
    ensures StartsWith(ls[5], "m=") && |ls[6]| > 0 && ls[6][0] == 'a' && |ls[7]| > 0 && ls[7][0] == 'a'
    ensures |ls[8]| > 0 && ls[8][0] == 'b' && |ls[9]| > 0 && ls[9][0] == 'a'
    ensures StartsWith(ls[10], "m=") && |ls[11]| > 0 && ls[11][0] == 'a' && |ls[12]| > 0 && ls[12][0] == 'a'
    ensures |ls[13]| > 0 && ls[13][0] == 'b' && |ls[14]| > 0 && ls[14][0] == 'a'
  {
    SessionHeads();
    VideoHeads();
    AudioHeads();
    var bw := IntToString(TruncDiv(c.videoBitrate, 1000));
    var rate := IntToString(c.audioSampleRate) + "/" + IntToString(c.audioChannels);
    assert ls[8] == SdpBandwidth + bw && (SdpBandwidth + bw)[0] == SdpBandwidth[0];
    assert ls[11] == SdpAudioRtpmap + IntToString(c.audioSampleRate) + "/" + IntToString(c.audioChannels);
    assert ls[13][0] == SdpBandwidth[0];
  }

  lemma MediaOpeners(ls: seq<string>)
    requires |ls| == 16 && ls[15] == ""
    requires |ls[0]| > 0 && ls[0][0] == 'v' && |ls[1]| > 0 && ls[1][0] == 'o' && |ls[2]| > 0 && ls[2][0] == 's'
    requires |ls[3]| > 0 && ls[3][0] == 'c' && |ls[4]| > 0 && ls[4][0] == 't'
    requires StartsWith(ls[5], "m=") && |ls[6]| > 0 && ls[6][0] == 'a' && |ls[7]| > 0 && ls[7][0] == 'a'
    requires |ls[8]| > 0 && ls[8][0] == 'b' && |ls[9]| > 0 && ls[9][0] == 'a'
    requires StartsWith(ls[10], "m=") && |ls[11]| > 0 && ls[11][0] == 'a' && |ls[12]| > 0 && ls[12][0] == 'a'
    requires |ls[13]| > 0 && ls[13][0] == 'b' && |ls[14]| > 0 && ls[14][0] == 'a'
    ensures forall i :: 0 <= i < |ls| ==> (StartsWith(ls[i], "m=") <==> i == 5 || i == 10)
  {
    forall i | 0 <= i < 15 && i != 5 && i != 10 ensures !StartsWith(ls[i], "m=") {
      assert ls[i][0] != 'm';
      DiffersAt(ls[i], "m=", 0);
    }
  }

  // ---------------------------------------------------------------------
  // Reading a request

  /** The request text `readRequest` builds splits back into the lines it
      read, so the handlers see the request line and the header lines
      unchanged. */
  lemma RequestLinesRoundTrip(input: seq<string>)
    requires input != [] && AllNoLineBreak(input)
    ensures var h := HeaderEnd(input, 1);
            Lines(Join(input[..h])) == input[..h] + [""]
  {
    var h := HeaderEnd(input, 1);
    assert AllNoLineBreak(input[..h]) by {
      forall i | 0 <= i < h ensures NoLineBreak(input[..h][i]) {
        assert input[..h][i] == input[i];
      }
    }
    LinesOfFramed(input[..h]);
  }
}
