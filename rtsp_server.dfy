/** The request handling of RtspServer.kt (RFC 2326, with an SDP body as
    in RFC 4566): reading one request's header block from the connection's
    lines and updating `cseq`, dispatching on the method name, the six
    handlers and their response text, the quality switch of SET_PARAMETER,
    the loop of `handleClient`, and the guard in front of the RTP send. */
module Rtsp {
  import opened Bytes
  import opened Wrappers
  import opened Text
  import opened Config
  import opened H264Rtp

  /** A client's network address. */
  type Address = seq<byte>

  /** A UDP datagram as `sendRtpPackets` hands it to the socket. */
  datatype Datagram = Datagram(payload: seq<byte>, address: Address, port: int32)

  /** The ports a `DatagramPacket` accepts; any other makes its constructor
      throw. */
  predicate IsUdpPort(port: int)
  {
    0 <= port <= 0xFFFF
  }

  /** What a handler does with the connection: write a response and either
      keep reading or close it; or fail with an exception, which ends the
      connection without a response. */
  datatype Outcome =
    | Reply(response: string, close: bool)
    | Abort

  /** The fields of the server that request handling reads and writes. */
  datatype Session = Session(
    config: StreamingConfig,
    sessionId: Option<string>,
    cseq: int32,
    clientRtpPort: int32)

  // ---------------------------------------------------------------------
  // Reading a request

  /** Where the header block that starts at line `i` ends: at the first
      empty line, or at the end of the input. */
  function HeaderEnd(input: seq<string>, i: nat): (h: nat)
    requires i <= |input|
    ensures i <= h <= |input|
    ensures h < |input| ==> input[h] == ""
    ensures forall j :: i <= j < h ==> input[j] != ""
    decreases |input| - i
  {
    if i == |input| || input[i] == "" then i else HeaderEnd(input, i + 1)
  }

  /** The lines `readRequest` consumes: the request line, the header lines,
      and the empty line that ends them if there is one. */
  function Consumed(input: seq<string>): (n: nat)
    requires input != []
    ensures 1 <= n <= |input|
  {
    var h := HeaderEnd(input, 1);
    if h < |input| then h + 1 else h
  }

  /** `line.substring(5).trim().toIntOrNull() ?: 0` for a `CSeq:` line. */
  function CSeqOf(line: string): int32
    requires |line| >= 5
  {
    ToIntOrNull(Trim(line[5..])).GetOr(0)
  }

  /** The value of `cseq` after the header lines: the last `CSeq:` line
      decides, and without one the value before stays. */
  function CSeqAfter(headers: seq<string>, cseq: int32): int32
  {
    if headers == [] then cseq
    else
      var last := headers[|headers| - 1];
      if StartsWith(last, "CSeq:") then CSeqOf(last) else CSeqAfter(headers[..|headers| - 1], cseq)
  }

  /** One more header line. */
  lemma CSeqAfterSnoc(headers: seq<string>, line: string, cseq: int32)
    ensures CSeqAfter(headers + [line], cseq)
         == if StartsWith(line, "CSeq:") then CSeqOf(line) else CSeqAfter(headers, cseq)
  {
    assert (headers + [line])[..|headers|] == headers;
  }

  // ---------------------------------------------------------------------
  // Dispatch

  /** The method a request is dispatched to. */
  datatype RtspMethod = Options | Describe | Setup | Play | SetParameter | Teardown | Unknown
  {
    function Name(): string
    {
      match this
      case Options => "OPTIONS"
      case Describe => "DESCRIBE"
      case Setup => "SETUP"
      case Play => "PLAY"
      case SetParameter => "SET_PARAMETER"
      case Teardown => "TEARDOWN"
      case Unknown => ""
    }
  }

  /** The order in which the `when` of `handleClient` tries the method
      names. */
  const DispatchOrder: seq<RtspMethod> := [Options, Describe, Setup, Play, SetParameter, Teardown]

  /** The first method of `ms` whose name the request text starts with. */
  function FirstMethod(request: string, ms: seq<RtspMethod>): RtspMethod
  {
    if ms == [] then Unknown
    else if StartsWith(request, ms[0].Name()) then ms[0]
    else FirstMethod(request, ms[1..])
  }

  /** The `when` of `handleClient`: the first method name the request text
      starts with, tried in a fixed order. */
  function MethodOf(request: string): RtspMethod
  {
    FirstMethod(request, DispatchOrder)
  }

  // ---------------------------------------------------------------------
  // Responses

  function StatusLine(status: string): string
  {
    "RTSP/1.0 " + status
  }

  function CSeqLine(cseq: int32): string
  {
    "CSeq: " + IntToString(cseq)
  }

  /** `sendResponse`: the status line, the CSeq and an empty line. */
  function SimpleResponse(status: string, cseq: int32): string
  {
    Join([StatusLine(status), CSeqLine(cseq), ""])
  }

  /** The Public header of the OPTIONS response (written in pieces only to
      keep each literal short). */
  const PublicLine: string :=
    "Public: " + ("OPTIONS, " + ("DESCRIBE, " + ("SETUP, " + ("PLAY, " + ("SET_PARAMETER, " + "TEARDOWN")))))

  /** `handleOptions` */
  function OptionsResponse(cseq: int32): string
  {
    Join([StatusLine("200 OK"), CSeqLine(cseq), PublicLine, ""])
  }

  /** The session line's text: Kotlin renders a missing id as "null". */
  function SessionText(sessionId: Option<string>): string
  {
    match sessionId
    case None => "null"
    case Some(id) => id
  }

  /** `handlePlay` */
  function PlayResponse(cseq: int32, sessionId: Option<string>): string
  {
    Join([StatusLine("200 OK"), CSeqLine(cseq), "Session: " + SessionText(sessionId), "Range: npt=0.000-", ""])
  }

  const TransportProfile: string := "Transport: RTP/AVP;unicast;"
  const ClientPortKey: string := "client_port="

  /** The Transport line of a SETUP response, `client_port=p-(p+1)` with
      `p + 1` in `Int` arithmetic. */
  function TransportReply(port: int32): string
  {
    TransportProfile + ClientPortKey + IntToString(port) + "-" + IntToString(Int32(port + 1))
  }

  /** `handleSetup`'s response. */
  function SetupResponse(cseq: int32, sessionId: string, port: int32): string
  {
    Join([StatusLine("200 OK"), CSeqLine(cseq), "Session: " + sessionId, TransportReply(port), ""])
  }

  // The fixed lines of the SDP description (RFC 4566).
  const SdpVersion: string := "v=0"
  const SdpOrigin: string := "o=- 0 0 IN IP4 127.0.0.1"
  const SdpSessionName: string := "s=MonkeySee Camera"
  const SdpConnection: string := "c=IN IP4 0.0.0.0"
  const SdpTiming: string := "t=0 0"
  const SdpVideoMedia: string := "m=video 0 RTP/AVP 96"
  const SdpVideoRtpmap: string := "a=rtpmap:96 H264/90000"
  const SdpVideoFmtp: string := "a=fmtp:96 packetization-mode=1"
  const SdpBandwidth: string := "b=AS:"
  const SdpVideoControl: string := "a=control:track0"
  const SdpAudioMedia: string := "m=audio 0 RTP/AVP 97"
  const SdpAudioRtpmap: string := "a=rtpmap:97 MPEG4-GENERIC/"
  /** The AAC-hbr parameters of section 3.3.6 of RFC 3640 (written in
      pieces only to keep each literal short). */
  const SdpAudioFmtp: string :=
    "a=fmtp:97 " + ("streamtype=5;" + ("profile-level-id=1;" + ("mode=AAC-hbr;"
      + ("sizelength=13;" + ("indexlength=3;" + "indexdeltalength=3")))))
  const SdpAudioControl: string := "a=control:track1"

  /** The SDP description of the two tracks: H.264 on payload type 96 at
      90 kHz, AAC-hbr on payload type 97, bandwidths in kbit/s. */
  function SdpLines(c: StreamingConfig): seq<string>
  {
    [ SdpVersion, SdpOrigin, SdpSessionName, SdpConnection, SdpTiming,
      SdpVideoMedia, SdpVideoRtpmap, SdpVideoFmtp,
      SdpBandwidth + IntToString(TruncDiv(c.videoBitrate, 1000)),
      SdpVideoControl,
      SdpAudioMedia,
      SdpAudioRtpmap + IntToString(c.audioSampleRate) + "/" + IntToString(c.audioChannels),
      SdpAudioFmtp,
      SdpBandwidth + IntToString(TruncDiv(c.audioBitrate, 1000)),
      SdpAudioControl ]
  }

  function Sdp(c: StreamingConfig): string
  {
    Join(SdpLines(c))
  }

  /** The header lines of the DESCRIBE response, the empty line included. */
  function DescribeHeader(cseq: int32, c: StreamingConfig): seq<string>
  {
    [StatusLine("200 OK"), CSeqLine(cseq), "Content-Type: application/sdp",
     "Content-Length: " + IntToString(|Sdp(c)|), ""]
  }

  /** `handleDescribe`: the headers, then the SDP as the body. */
  function DescribeResponse(cseq: int32, c: StreamingConfig): string
  {
    Join(DescribeHeader(cseq, c)) + Sdp(c)
  }

  // ---------------------------------------------------------------------
  // SETUP: the client port

  /** `lines().find { it.startsWith(prefix) }` */
  function FirstWithPrefix(lines: seq<string>, prefix: string): (r: Option<string>)
    ensures r.None? <==> forall j :: 0 <= j < |lines| ==> !StartsWith(lines[j], prefix)
    ensures r.Some? ==> exists k :: 0 <= k < |lines| && lines[k] == r.value && StartsWith(lines[k], prefix)
                                    && forall j :: 0 <= j < k ==> !StartsWith(lines[j], prefix)
  {
    if lines == [] then None
    else if StartsWith(lines[0], prefix) then Some(lines[0])
    else
      var r := FirstWithPrefix(lines[1..], prefix);
      assert forall j :: 1 <= j < |lines| ==> lines[j] == lines[1..][j - 1];
      r
  }


  /** The number of decimal digits in a row from index `i`. */
  function DigitRun(s: string, i: nat): (n: nat)
    requires i <= |s|
    ensures i + n <= |s|
    ensures forall k :: i <= k < i + n ==> IsDigit(s[k])
    ensures i + n < |s| ==> !IsDigit(s[i + n])
    decreases |s| - i
  {
    if i < |s| && IsDigit(s[i]) then 1 + DigitRun(s, i + 1) else 0
  }

  /** The pattern `client_port=(\d+)-(\d+)` matches at index `p`. As `\d+`
      is greedy and a hyphen is no digit, its first group is the whole run
      of digits after the key. */
  predicate ClientPortAt(line: string, p: nat)
  {
    && p + |ClientPortKey| <= |line|
    && line[p..p + |ClientPortKey|] == ClientPortKey
    && var q := p + |ClientPortKey|;
       var n := DigitRun(line, q);
       && n >= 1 && q + n + 1 < |line| && line[q + n] == '-' && IsDigit(line[q + n + 1])
  }

  /** The first group of a match at `p`. */
  function PortGroup(line: string, p: nat): string
    requires ClientPortAt(line, p)
  {
    line[p + |ClientPortKey|..p + |ClientPortKey| + DigitRun(line, p + |ClientPortKey|)]
  }

  /** `Regex(...).find(line)` from index `p`, giving the first group of the
      leftmost match. */
  function FindClientPort(line: string, p: nat): (r: Option<string>)
    ensures r.None? <==> forall q :: p <= q ==> !ClientPortAt(line, q)
    ensures r.Some? ==> exists q :: p <= q && ClientPortAt(line, q) && r.value == PortGroup(line, q)
                                    && forall k :: p <= k < q ==> !ClientPortAt(line, k)
    ensures r.Some? ==> |r.value| >= 1 && AllDigits(r.value)
    decreases |line| - p
  {
    if p + |ClientPortKey| > |line| then None
    else if ClientPortAt(line, p) then Some(PortGroup(line, p))
    else FindClientPort(line, p + 1)
  }

  /** The client port after `handleSetup`, or None when `toInt()` throws on
      a number beyond `Int`: the first number of the first match in the
      first Transport line, else the port before; 0 becomes 5000. */
  function SetupPort(request: string, port: int32): Option<int32>
  {
    var requested :=
      match FirstWithPrefix(Lines(request), "Transport:")
      case None => None
      case Some(line) => FindClientPort(line, 0);
    match requested
    case None => Some(if port == 0 then 5000 else port)
    case Some(digits) =>
      var v := DecimalValue(digits);
      if v < 0x8000_0000 then Some(if v == 0 then 5000 else v) else None
  }

  // ---------------------------------------------------------------------
  // SET_PARAMETER: the quality preset

  const QualityKey: string := "quality:"

  /** The trimmed text after the first line that starts with `quality:` in
      any case. */
  function QualityValue(lines: seq<string>): Option<string>
  {
    if lines == [] then None
    else if StartsWithIgnoreCase(lines[0], QualityKey) then Some(Trim(lines[0][|QualityKey|..]))
    else QualityValue(lines[1..])
  }

  /** The word SET_PARAMETER accepts for each preset. */
  function QualityWord(p: QualityPreset): string
  {
    match p
    case LOW => "low"
    case MEDIUM => "medium"
    case HIGH => "high"
    case ULTRA => "ultra"
  }

  /** The `when (qualityValue.lowercase())` of `handleSetParameter`. */
  function PresetNamed(value: string): Option<QualityPreset>
  {
    var v := Lowercase(value);
    if v == "low" then Some(LOW)
    else if v == "medium" then Some(MEDIUM)
    else if v == "high" then Some(HIGH)
    else if v == "ultra" then Some(ULTRA)
    else None
  }

  /** The preset a SET_PARAMETER request names, if any. */
  function RequestedPreset(request: string): Option<QualityPreset>
  {
    match QualityValue(Lines(request))
    case None => None
    case Some(v) => PresetNamed(v)
  }

  // ---------------------------------------------------------------------
  // One request, one connection

  /** What handling one request does to the fields and the connection. */
  function Respond(s: Session, request: string, nowMillis: int64): (Session, Outcome)
  {
    match MethodOf(request)
    case Options => (s, Reply(OptionsResponse(s.cseq), false))
    case Describe => (s, Reply(DescribeResponse(s.cseq, s.config), false))
    case Setup => RespondSetup(s, request, nowMillis)
    case Play => (s, Reply(PlayResponse(s.cseq, s.sessionId), false))
    case SetParameter => RespondSetParameter(s, request)
    case Teardown => (s, Reply(SimpleResponse("200 OK", s.cseq), true))
    case Unknown => (s, Reply(SimpleResponse("400 Bad Request", s.cseq), false))
  }

  /** SETUP: a session id from the clock, then the client port, or an
      abandoned connection when the port does not fit an `Int`. */
  function RespondSetup(s: Session, request: string, nowMillis: int64): (Session, Outcome)
  {
    var id := IntToString(nowMillis);
    match SetupPort(request, s.clientRtpPort)
    case None => (s.(sessionId := Some(id)), Abort)
    case Some(p) => (s.(sessionId := Some(id), clientRtpPort := p), Reply(SetupResponse(s.cseq, id, p), false))
  }

  /** SET_PARAMETER: the named preset becomes the configuration, or 451. */
  function RespondSetParameter(s: Session, request: string): (Session, Outcome)
  {
    match RequestedPreset(request)
    case Some(p) => (s.(config := FromPreset(p)), Reply(SimpleResponse("200 OK", s.cseq), false))
    case None => (s, Reply(SimpleResponse("451 Parameter Not Understood", s.cseq), false))
  }

  // Respond, one method at a time.

  lemma RespondToOptions(s: Session, request: string, nowMillis: int64)
    requires MethodOf(request) == Options
    ensures Respond(s, request, nowMillis) == (s, Reply(OptionsResponse(s.cseq), false))
  {
  }

  lemma RespondToDescribe(s: Session, request: string, nowMillis: int64)
    requires MethodOf(request) == Describe
    ensures Respond(s, request, nowMillis) == (s, Reply(DescribeResponse(s.cseq, s.config), false))
  {
  }

  lemma RespondToSetup(s: Session, request: string, nowMillis: int64)
    requires MethodOf(request) == Setup
    ensures Respond(s, request, nowMillis) == RespondSetup(s, request, nowMillis)
  {
  }

  lemma RespondToPlay(s: Session, request: string, nowMillis: int64)
    requires MethodOf(request) == Play
    ensures Respond(s, request, nowMillis) == (s, Reply(PlayResponse(s.cseq, s.sessionId), false))
  {
  }

  lemma RespondToSetParameter(s: Session, request: string, nowMillis: int64)
    requires MethodOf(request) == SetParameter
    ensures Respond(s, request, nowMillis) == RespondSetParameter(s, request)
  {
  }

  lemma RespondToTeardown(s: Session, request: string, nowMillis: int64)
    requires MethodOf(request) == Teardown
    ensures Respond(s, request, nowMillis) == (s, Reply(SimpleResponse("200 OK", s.cseq), true))
  {
  }

  lemma RespondToUnknown(s: Session, request: string, nowMillis: int64)
    requires MethodOf(request) == Unknown
    ensures Respond(s, request, nowMillis) == (s, Reply(SimpleResponse("400 Bad Request", s.cseq), false))
  {
  }

  /** `handleClient` on the lines a client sends: read a request, handle
      it, write the response, until the input ends, a handler fails or
      TEARDOWN closes the connection. Returns the final fields and the
      responses written. */
  function Conversation(s: Session, input: seq<string>, nowMillis: int64): (Session, seq<string>)
    decreases |input|
  {
    if input == [] then (s, [])
    else
      var h := HeaderEnd(input, 1);
      var s1 := s.(cseq := CSeqAfter(input[1..h], s.cseq));
      var (s2, outcome) := Respond(s1, Join(input[..h]), nowMillis);
      match outcome
      case Abort => (s2, [])
      case Reply(r, close) =>
        if close then (s2, [r])
        else
          var (s3, rs) := Conversation(s2, input[Consumed(input)..], nowMillis);
          (s3, [r] + rs)
  }

  /** One round of the conversation: the request read from the front of the
      input, then the outcome of handling it. */
  lemma ConversationStep(s: Session, input: seq<string>, nowMillis: int64, s2: Session, outcome: Outcome, rest: seq<string>)
    requires input != [] && rest == input[Consumed(input)..]
    requires var h := HeaderEnd(input, 1);
             (s2, outcome) == Respond(s.(cseq := CSeqAfter(input[1..h], s.cseq)), Join(input[..h]), nowMillis)
    ensures outcome.Abort? ==> Conversation(s, input, nowMillis) == (s2, [])
    ensures outcome.Reply? && outcome.close ==> Conversation(s, input, nowMillis) == (s2, [outcome.response])
    ensures outcome.Reply? && !outcome.close ==>
      && Conversation(s, input, nowMillis).0 == Conversation(s2, rest, nowMillis).0
      && Conversation(s, input, nowMillis).1 == [outcome.response] + Conversation(s2, rest, nowMillis).1
  {
  }

  /** At the end of the input the conversation is over. */
  lemma ConversationEnd(s: Session, nowMillis: int64)
    ensures Conversation(s, [], nowMillis) == (s, [])
  {
  }

  /** The server: its configuration and the per-client fields that request
      handling writes, with the objects `sendRtpPackets` needs. */
  class RtspServer {
    const port: int32
    var config: StreamingConfig
    var sessionId: Option<string>
    var cseq: int32
    var clientRtpPort: int32
    var rtpPacketizer: RtpPacketizer?
    var udpSocketOpen: bool
    var clientAddress: Option<Address>

    function State(): Session
      reads this
    {
      Session(config, sessionId, cseq, clientRtpPort)
    }

    /** A new server has no session, CSeq 0, no client port and nothing to
        send with. */
    constructor(port: int32, config: StreamingConfig)
      ensures this.port == port && State() == Session(config, None, 0, 0)
      ensures rtpPacketizer == null && !udpSocketOpen && clientAddress == None
    {
      this.port := port;
      this.config := config;
      sessionId := None;
      cseq := 0;
      clientRtpPort := 0;
      rtpPacketizer := null;
      udpSocketOpen := false;
      clientAddress := None;
    }

    /** `readRequest` on the lines left on the connection (end of input is
        the end of the sequence): the request line and the header lines up
        to the first empty one, each followed by CRLF; every `CSeq:` header
        sets `cseq`. Returns the request and the number of lines read. */
    method ReadRequest(input: seq<string>) returns (request: Option<string>, consumed: nat)
      modifies this`cseq
      ensures input == [] ==> request == None && consumed == 0 && cseq == old(cseq)
      ensures input != [] ==>
        var h := HeaderEnd(input, 1);
        && request == Some(Join(input[..h]))
        && consumed == Consumed(input)
        && cseq == CSeqAfter(input[1..h], old(cseq))
    {
      if input == [] {
        return None, 0;
      }
      var builder := input[0] + CRLF;
      assert builder == Join(input[..1]);
      var i := 1;
      while i < |input| && input[i] != ""
        invariant 1 <= i <= |input|
        invariant HeaderEnd(input, i) == HeaderEnd(input, 1)
        invariant builder == Join(input[..i])
        invariant cseq == CSeqAfter(input[1..i], old(cseq))
        decreases |input| - i
      {
        var line := input[i];
        JoinSnoc(input[..i], line);
        assert input[..i + 1] == input[..i] + [line];
        builder := builder + line + CRLF;
        if StartsWith(line, "CSeq:") {
          cseq := CSeqOf(line);
        }
        CSeqAfterSnoc(input[1..i], line, old(cseq));
        assert input[1..i + 1] == input[1..i] + [line];
        i := i + 1;
      }
      request := Some(builder);
      consumed := if i < |input| then i + 1 else i;
    }

    /** The dispatch of `handleClient` and the handler it picks. */
    method Handle(request: string, nowMillis: int64) returns (outcome: Outcome)
      modifies this`config, this`sessionId, this`clientRtpPort
      ensures (State(), outcome) == Respond(old(State()), request, nowMillis)
    {
      ghost var s := State();
      match MethodOf(request)
      case Options =>
        RespondToOptions(s, request, nowMillis);
        outcome := Reply(OptionsResponse(cseq), false);
      case Describe =>
        RespondToDescribe(s, request, nowMillis);
        outcome := Reply(DescribeResponse(cseq, config), false);
      case Setup =>
        RespondToSetup(s, request, nowMillis);
        outcome := HandleSetup(request, nowMillis);
      case Play =>
        RespondToPlay(s, request, nowMillis);
        outcome := Reply(PlayResponse(cseq, sessionId), false);
      case SetParameter =>
        RespondToSetParameter(s, request, nowMillis);
        outcome := HandleSetParameter(request);
      case Teardown =>
        RespondToTeardown(s, request, nowMillis);
        outcome := Reply(SimpleResponse("200 OK", cseq), true);
      case Unknown =>
        RespondToUnknown(s, request, nowMillis);
        outcome := Reply(SimpleResponse("400 Bad Request", cseq), false);
    }

    /** `handleSetup`: a new session id from the clock, then the client
        port from the Transport header. */
    method HandleSetup(request: string, nowMillis: int64) returns (outcome: Outcome)
      modifies this`sessionId, this`clientRtpPort
      ensures sessionId == Some(IntToString(nowMillis))
      ensures SetupPort(request, old(clientRtpPort)).None? ==> outcome == Abort && clientRtpPort == old(clientRtpPort)
      ensures SetupPort(request, old(clientRtpPort)).Some? ==>
        && clientRtpPort == SetupPort(request, old(clientRtpPort)).value
        && outcome == Reply(SetupResponse(cseq, IntToString(nowMillis), clientRtpPort), false)
    {
      sessionId := Some(IntToString(nowMillis));
      var transportLine := FirstWithPrefix(Lines(request), "Transport:");
      if transportLine.Some? {
        var portMatch := FindClientPort(transportLine.value, 0);
        if portMatch.Some? {
          var v := DecimalValue(portMatch.value);
          if v >= 0x8000_0000 {
            return Abort;
          }
          clientRtpPort := v;
        }
      }
      if clientRtpPort == 0 {
        clientRtpPort := 5000;
      }
      outcome := Reply(SetupResponse(cseq, sessionId.value, clientRtpPort), false);
    }

    /** `handleSetParameter`: looks for the first `quality:` line and
        switches to the preset it names. */
    method HandleSetParameter(request: string) returns (outcome: Outcome)
      modifies this`config
      ensures RequestedPreset(request).Some? ==>
        config == FromPreset(RequestedPreset(request).value) && outcome == Reply(SimpleResponse("200 OK", cseq), false)
      ensures RequestedPreset(request).None? ==>
        config == old(config) && outcome == Reply(SimpleResponse("451 Parameter Not Understood", cseq), false)
    {
      var lines := Lines(request);
      var qualityValue: Option<string> := None;
      var i := 0;
      while i < |lines|
        invariant 0 <= i <= |lines|
        invariant qualityValue == None
        invariant QualityValue(lines) == QualityValue(lines[i..])
        decreases |lines| - i
      {
        if StartsWithIgnoreCase(lines[i], QualityKey) {
          qualityValue := Some(Trim(lines[i][|QualityKey|..]));
          break;
        }
        assert lines[i..][1..] == lines[i + 1..];
        i := i + 1;
      }
      assert qualityValue == QualityValue(lines);
      if qualityValue.Some? {
        var preset := PresetNamed(qualityValue.value);
        if preset.Some? {
          UpdateQuality(preset.value);
          return Reply(SimpleResponse("200 OK", cseq), false);
        }
      }
      outcome := Reply(SimpleResponse("451 Parameter Not Understood", cseq), false);
    }

    /** The synchronous part of `updateQuality`: the configuration becomes
        the preset's. */
    method UpdateQuality(preset: QualityPreset)
      modifies this`config
      ensures config == FromPreset(preset)
    {
      config := FromPreset(preset);
    }

    /** The loop of `handleClient` over the lines a client sends. */
    method ServeConnection(input: seq<string>, nowMillis: int64) returns (responses: seq<string>)
      modifies this`config, this`sessionId, this`clientRtpPort, this`cseq
      ensures (State(), responses) == Conversation(old(State()), input, nowMillis)
    {
      ghost var finalState := Conversation(State(), input, nowMillis).0;
      ghost var finalResponses := Conversation(State(), input, nowMillis).1;
      var rest := input;
      responses := [];
      while true
        invariant Conversation(State(), rest, nowMillis).0 == finalState
        invariant responses + Conversation(State(), rest, nowMillis).1 == finalResponses
        decreases |rest|
      {
        var outcome, remaining := Round(rest, nowMillis);
        if outcome.None? {
          ConversationEnd(State(), nowMillis);
          assert responses + [] == responses;
          break;
        }
        if outcome.value.Abort? {
          assert responses + [] == responses;
          break;
        }
        var response := outcome.value.response;
        if outcome.value.close {
          responses := responses + [response];
          break;
        }
        ghost var tail := Conversation(State(), remaining, nowMillis).1;
        assert responses + ([response] + tail) == (responses + [response]) + tail;
        responses := responses + [response];
        rest := remaining;
      }
    }

    /** One turn of `handleClient`: read a request (none at the end of the
        input), dispatch it, and say how the conversation goes on. */
    method Round(input: seq<string>, nowMillis: int64) returns (outcome: Option<Outcome>, rest: seq<string>)
      modifies this`config, this`sessionId, this`clientRtpPort, this`cseq
      ensures input == [] ==> outcome == None && State() == old(State()) && rest == []
      ensures input != [] ==> outcome.Some? && rest == input[Consumed(input)..] && |rest| < |input|
      ensures outcome == Some(Abort) ==> Conversation(old(State()), input, nowMillis) == (State(), [])
      ensures outcome.Some? && outcome.value.Reply? && outcome.value.close ==>
        Conversation(old(State()), input, nowMillis) == (State(), [outcome.value.response])
      ensures outcome.Some? && outcome.value.Reply? && !outcome.value.close ==>
        && Conversation(old(State()), input, nowMillis).0 == Conversation(State(), rest, nowMillis).0
        && Conversation(old(State()), input, nowMillis).1 == [outcome.value.response] + Conversation(State(), rest, nowMillis).1
    {
      ghost var before := State();
      var request, consumed := ReadRequest(input);
      if request.None? {
        return None, [];
      }
      rest := input[consumed..];
      var handled := Handle(request.value, nowMillis);
      ConversationStep(before, input, nowMillis, State(), handled, rest);
      outcome := Some(handled);
    }

    /** What `start` and the accept loop set up for sending: the H.264
        packetizer, the UDP socket and the client's address. */
    method Connect(packetizer: RtpPacketizer, address: Address)
      modifies this`rtpPacketizer, this`udpSocketOpen, this`clientAddress
      ensures rtpPacketizer == packetizer && udpSocketOpen && clientAddress == Some(address)
    {
      rtpPacketizer := packetizer;
      udpSocketOpen := true;
      clientAddress := Some(address);
    }

    /** Everything `sendRtpPackets` needs is present. */
    predicate CanSend()
      reads this
    {
      rtpPacketizer != null && udpSocketOpen && clientAddress.Some? && clientRtpPort != 0
    }

    /** `sendRtpPackets`: unless something is missing or the client port is
        0, packetizes the NAL unit and sends every packet, in order, to the
        client's RTP port; a port `DatagramPacket` rejects sends nothing,
        though the packetizer has already moved on. */
    method SendRtpPackets(nalData: seq<byte>, timestampUs: int64) returns (sent: seq<Datagram>)
      modifies rtpPacketizer
      ensures !CanSend() ==> sent == [] && (rtpPacketizer != null ==> unchanged(rtpPacketizer))
      ensures CanSend() ==>
        var p := rtpPacketizer;
        var packets := Packets(StripStartCode(nalData), old(p.sequenceNumber), p.timestamp, p.ssrc, p.payloadType);
        && p.timestamp == VideoClock(timestampUs)
        && p.sequenceNumber == (old(p.sequenceNumber) + |packets|) % TwoTo16
        && (IsUdpPort(clientRtpPort) ==>
              && |sent| == |packets|
              && forall i :: 0 <= i < |sent| ==> sent[i] == Datagram(packets[i], clientAddress.value, clientRtpPort))
        && (!IsUdpPort(clientRtpPort) ==> sent == [])
    {
      if rtpPacketizer == null || !udpSocketOpen || clientAddress.None? || clientRtpPort == 0 {
        return [];
      }
      var packets := rtpPacketizer.Packetize(nalData, timestampUs);
      sent := SendAll(packets, clientAddress.value, clientRtpPort);
    }

    /** The `for` loop of `sendRtpPackets`: one datagram per packet, in
        order, to the same address and port. A port outside 0..65535 makes
        the first `DatagramPacket` throw; the exception is caught outside
        the loop, so nothing is sent. */
    static method SendAll(packets: seq<seq<byte>>, address: Address, port: int32) returns (sent: seq<Datagram>)
      ensures IsUdpPort(port) ==> |sent| == |packets|
      ensures IsUdpPort(port) ==> forall i :: 0 <= i < |sent| ==> sent[i] == Datagram(packets[i], address, port)
      ensures !IsUdpPort(port) ==> sent == []
    {
      sent := [];
      var i := 0;
      while i < |packets|
        invariant 0 <= i <= |packets|
        invariant |sent| == i
        invariant forall j :: 0 <= j < i ==> sent[j] == Datagram(packets[j], address, port)
        invariant !IsUdpPort(port) ==> i == 0
        decreases |packets| - i
      {
        if !IsUdpPort(port) {
          return;
        }
        sent := sent + [Datagram(packets[i], address, port)];
        i := i + 1;
      }
    }
  }
}
