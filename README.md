# MonkeySee RTSP camera server: a Dafny model of its streaming core

This project models the sequential core of the MonkeySee Android camera
server and proves properties of it. The original is written in Kotlin. The
core has five parts:

- **Quality presets** (`Config`, streaming_config.dfy). This covers the
  `QualityPreset` table, the `StreamingConfig` record, `fromPreset` and
  `DEFAULT`.
- **The RTP fixed header** (`Rtp`, rtp.dfy). Both packetizers write the same
  12-byte header, following section 5.1 of RFC 3550. The module also has a
  reader for that header.
- **The H.264 packetizer** (`H264Rtp`, h264_packetizer.dfy; properties in
  `H264RtpProperties`, h264_properties.dfy).
  - It strips an Annex B start code.
  - A NAL unit of at most 1388 bytes becomes one single-NAL-unit packet
    (section 5.6 of RFC 6184).
  - A longer one becomes a run of FU-A fragments (section 5.8 of RFC 6184),
    each at most 1400 bytes.
  - It keeps a 16-bit wrapping sequence counter and a 90 kHz timestamp.
  - The class `RtpPacketizer` is proved against the specification
    function `Packets`.
  - A depacketizer `Depacketize` is the partner: it gets back the NAL unit
    from the packets.
- **The AAC packetizer** (`AacRtp`, aac_packetizer.dfy). This is the AAC-hbr
  mode of RFC 3640.
  - It writes a one-entry AU-header section (section 3.2.1 of RFC 3640),
    then the frame.
  - Configuration packets are the header followed by the
    AudioSpecificConfig bytes.
  - Both kinds of packet share one sequence counter.
  - A receiver-side parser, `ParseAacPacket`, is the partner.
- **The NAL scanner of the video encoder** (`Encoder`, nal_scanner.dfy;
  properties in `EncoderProperties`, nal_properties.dfy).
  - `parseNalUnits` becomes the method `ParseNalUnits`. It returns the
    ordered callback events.
  - That method is proved equal to a recursive specification (`Units`,
    `NalEvents`).
  - The same module holds the frame-count and presentation-time
    arithmetic.
- **RTSP request handling** (`Rtsp`, rtsp_server.dfy; properties in
  `RtspProperties`, rtsp_properties.dfy). This follows RFC 2326, with an SDP
  body as in RFC 4566.
  - The pure part is the function `Respond`. Given the server's fields and
    a request, it returns the new fields and the response, or an aborted
    connection.
  - `Conversation` runs `Respond` over a whole connection, given as a
    sequence of lines.
  - The class `RtspServer` holds `cseq`, `sessionId`, `clientRtpPort` and
    `config`. Its methods are `ReadRequest`, `Handle`, `HandleSetup`,
    `HandleSetParameter`, `UpdateQuality`, `ServeConnection` and
    `SendRtpPackets`, and each is proved against those functions.
  - The partners of the response builders are `Lines`, `CSeqOf` and
    `HeaderEnd`, which read a response back. The properties say that a
    client reads back the status, the CSeq and every header the server
    wrote.

Helper modules: `Bytes` holds the JVM integer widths and wrap-around, the
truncating division and big-endian packing. `Text` holds the Kotlin string
functions the server uses, CRLF joining and `lines()`. `Wrappers` holds
`Option`.

Integers are unbounded in Dafny. Kotlin `Int` and `Long` wrap-around is
written out (`Int32`, `Long`), and so is JVM division, which truncates
toward zero (`TruncDiv`). Bytes are the unsigned view, 0..255, of Kotlin's
signed `Byte`. The code only compares bytes with 0 and 1 and masks them, and
the two views agree on that.

Where the project's documentation and the code differ, the model follows the code:

- An unparsable `CSeq:` value sets `cseq` to 0. It does not keep the last
  good value.
- The FU-A fragment count is ceil((n−1)/1386), not ceil(n/1386). The NAL
  header byte is not carried in the fragment payloads.
- No RTSP phase is checked. OPTIONS, DESCRIBE, SETUP, PLAY, SET_PARAMETER and
  TEARDOWN are answered in any order. PLAY before SETUP echoes the session
  id as `null`.
- Every SETUP whose first Transport line matches `client_port=(\d+)-(\d+)`
  overwrites `clientRtpPort`, even when a port was already set. A SETUP
  without a match keeps the port, except that 0 becomes 5000.

The NAL scanner is modelled as written, including two defects listed under
Findings. The corrected scan (`IntendedUnits`, `IntendedNalEvents`) sits
beside it in `EncoderProperties`, with its intended properties proved.

## Model

| member | source | states |
|---|---|---|
| Config.FromPreset | android/app/src/main/kotlin/com/monkeysee/app/StreamingConfig.kt:43-49 | width, height, video bitrate, fps and audio bitrate are copied from the preset; the sample rate is always 48000 and the channel count always 2 |
| Config.Default | android/app/src/main/kotlin/com/monkeysee/app/StreamingConfig.kt:33-51 | `DEFAULT`, which is `fromPreset(HIGH)`, equals the record built with every parameter at its default |
| Config.BitratesIncrease | android/app/src/main/kotlin/com/monkeysee/app/StreamingConfig.kt:14-23 | along LOW, MEDIUM, HIGH, ULTRA, video and audio bitrates strictly increase, and width, height and fps never decrease |
| Config.FromPresetInjective | android/app/src/main/kotlin/com/monkeysee/app/StreamingConfig.kt:43-49 | distinct presets give distinct configurations |
| Config.UltraConfig | android/app/src/main/kotlin/com/monkeysee/app/StreamingConfig.kt:23 | ULTRA is 1920x1080 at 4,000,000 bit/s and 30 fps, with 192,000 bit/s audio |
| Rtp.RtpHeader | android/app/src/main/kotlin/com/monkeysee/app/rtsp/RtpPacketizer.kt:109-127 | the header is 12 bytes and byte 0 is 0x80 (version 2, no padding, no extension, no CSRC) |
| Rtp.ParseRtpHeader | android/app/src/main/kotlin/com/monkeysee/app/rtsp/RtpPacketizer.kt:109-127 | a receiver reads back version 2, the marker, the payload type, the sequence number mod 2^16, and the timestamp and SSRC mod 2^32 |
| Bytes.Int32 | android/app/src/main/kotlin/com/monkeysee/app/rtsp/AudioRtpPacketizer.kt:34 | Kotlin `Int` arithmetic is congruent to the exact value mod 2^32, and equal to it when it fits |
| Bytes.Long | android/app/src/main/kotlin/com/monkeysee/app/codec/VideoEncoder.kt:105 | Kotlin `Long` arithmetic is congruent to the exact value mod 2^64, and equal to it when it fits |
| Bytes.TruncDiv | android/app/src/main/kotlin/com/monkeysee/app/rtsp/RtpPacketizer.kt:23 | JVM division rounds toward zero: for a positive divisor it is the Euclidean quotient of a non-negative dividend and the negated quotient of the magnitude of a negative one, and never larger in magnitude than the dividend |
| Bytes.PutShort | android/app/src/main/kotlin/com/monkeysee/app/rtsp/RtpPacketizer.kt:120 | `putShort` writes 2 bytes that read back as the value mod 2^16 |
| Bytes.PutInt | android/app/src/main/kotlin/com/monkeysee/app/rtsp/RtpPacketizer.kt:123 | `putInt` writes 4 bytes that read back as the value mod 2^32 |
| H264Rtp.VideoClock | android/app/src/main/kotlin/com/monkeysee/app/rtsp/RtpPacketizer.kt:23 | the 90 kHz RTP timestamp: `timestampUs * 90` wrapped to `Long`, then divided by 1000 rounding toward zero |
| H264Rtp.VideoClockExact | android/app/src/main/kotlin/com/monkeysee/app/rtsp/RtpPacketizer.kt:23 | without overflow, the 90 kHz timestamp is exactly `timestampUs*90/1000`, truncated |
| H264Rtp.VideoClockExamples | android/app/src/test/kotlin/com/monkeysee/app/rtsp/RtpPacketizerTest.kt:85-98 | 1,000,000 µs gives 90,000 and 2,000,000 µs gives 180,000 |
| H264Rtp.StripStartCode | android/app/src/main/kotlin/com/monkeysee/app/rtsp/RtpPacketizer.kt:26-40 | the result is the input less a prefix of 0, 3 or 4 bytes |
| H264Rtp.StartCodeVariants | android/app/src/main/kotlin/com/monkeysee/app/rtsp/RtpPacketizer.kt:26-40 | a 4-byte code is stripped first, otherwise a 3-byte code; a NAL unit without a code is left alone |
| H264Rtp.FragmentCountIsCeiling | android/app/src/main/kotlin/com/monkeysee/app/rtsp/RtpPacketizer.kt:71-77 | fragment k exists exactly when its offset 1+1386k lies inside the NAL unit, so the count is ceil((n−1)/1386) |
| H264Rtp.FuAPackets | android/app/src/main/kotlin/com/monkeysee/app/rtsp/RtpPacketizer.kt:65-107 | the fragmentation yields exactly that many packets |
| H264Rtp.FuAPacketAt | android/app/src/main/kotlin/com/monkeysee/app/rtsp/RtpPacketizer.kt:74-103 | the packet one turn of the `while` loop builds (offset, size, last flag and sequence number) is fragment k of the specification |
| H264Rtp.Packets | android/app/src/main/kotlin/com/monkeysee/app/rtsp/RtpPacketizer.kt:42-48 | what `packetize` emits for a stripped NAL unit: one single-NAL-unit packet with the marker set when it is at most 1388 bytes, else the FU-A fragments; the lemmas below state its layout, bounds and round trip |
| H264Rtp.RtpPacketizer.constructor | android/app/src/main/kotlin/com/monkeysee/app/rtsp/RtpPacketizer.kt:6-11 | the SSRC, payload type and first sequence number are the given ones; the timestamp starts at 0 |
| H264Rtp.RtpPacketizer.Packetize | android/app/src/main/kotlin/com/monkeysee/app/rtsp/RtpPacketizer.kt:22-49 | the timestamp becomes the 90 kHz clock; the packets are `Packets` of the stripped NAL unit from the old counter; the counter advances by the packet count mod 2^16 |
| H264Rtp.RtpPacketizer.CreateSingleNalPacket | android/app/src/main/kotlin/com/monkeysee/app/rtsp/RtpPacketizer.kt:51-63 | the packet is the header followed by the NAL unit; one sequence number is used |
| H264Rtp.RtpPacketizer.CreateFragmentedPackets | android/app/src/main/kotlin/com/monkeysee/app/rtsp/RtpPacketizer.kt:65-107 | the loop builds exactly `FuAPackets` from the old counter and advances the counter by their number |
| H264Rtp.RtpPacketizer.UpdateTimestamp | android/app/src/main/kotlin/com/monkeysee/app/rtsp/RtpPacketizer.kt:129-131 | only the timestamp changes, to the 90 kHz clock; the sequence number is kept |
| H264Rtp.RtpPacketizer.GetSequenceNumber | android/app/src/main/kotlin/com/monkeysee/app/rtsp/RtpPacketizer.kt:133 | returns the counter |
| H264Rtp.RtpPacketizer.GetTimestamp | android/app/src/main/kotlin/com/monkeysee/app/rtsp/RtpPacketizer.kt:134 | returns the timestamp |
| H264Rtp.RtpPacketizer.GetSsrc | android/app/src/main/kotlin/com/monkeysee/app/rtsp/RtpPacketizer.kt:135 | returns the SSRC |
| H264RtpProperties.FuAPacketShape | android/app/src/main/kotlin/com/monkeysee/app/rtsp/RtpPacketizer.kt:74-103 | fragment k is the header (marker only on the last fragment, sequence number first+k), the indicator, the FU header, then the next at most 1386 bytes of the NAL unit |
| H264RtpProperties.SingleNalUnitPacket | android/app/src/main/kotlin/com/monkeysee/app/rtsp/RtpPacketizer.kt:42-63 | a NAL unit of at most 1388 bytes gives one packet of 12+n bytes, marker set, whose bytes 12.. are the NAL unit |
| H264RtpProperties.FragmentCountBounds | android/app/src/main/kotlin/com/monkeysee/app/rtsp/RtpPacketizer.kt:71-103 | a longer NAL unit gives c ≥ 2 fragments with (c−1)·1386 < n−1 ≤ c·1386 |
| H264RtpProperties.PacketsWithinMtu | android/app/src/test/kotlin/com/monkeysee/app/rtsp/RtpPacketizerTest.kt:141-159 | every packet is at most 1400 bytes |
| H264RtpProperties.FuIndicatorBits | android/app/src/main/kotlin/com/monkeysee/app/rtsp/RtpPacketizer.kt:85-87 | the FU indicator has F clear, the NAL unit's NRI and type 28 |
| H264RtpProperties.FuHeaderBits | android/app/src/main/kotlin/com/monkeysee/app/rtsp/RtpPacketizer.kt:89-93 | the start bit is set exactly when asked, and so is the end bit; the reserved bit is clear; the low 5 bits are the NAL type |
| H264RtpProperties.PacketHeaders | android/app/src/main/kotlin/com/monkeysee/app/rtsp/RtpPacketizer.kt:74-99 | packet i of a call reads back sequence number first+i mod 2^16 and has the marker exactly when it is the last packet |
| H264RtpProperties.FragmentHeaderBits | android/app/src/main/kotlin/com/monkeysee/app/rtsp/RtpPacketizer.kt:67-93 | in every fragment byte 12 is NRI with type 28, and byte 13 has start only on the first fragment, end only on the last, and the NAL type |
| H264RtpProperties.FragmentPayload | android/app/src/main/kotlin/com/monkeysee/app/rtsp/RtpPacketizer.kt:95-101 | the payload of fragment k is the NAL unit's slice from 1+1386k up to the next offset or the end |
| H264RtpProperties.FragmentPayloadsPrefix | android/app/src/main/kotlin/com/monkeysee/app/rtsp/RtpPacketizer.kt:71-103 | the first j payloads, concatenated, are the NAL unit from byte 1 up to the j-th offset |
| H264RtpProperties.FragmentPayloadsWhole | android/app/src/main/kotlin/com/monkeysee/app/rtsp/RtpPacketizer.kt:71-103 | all payloads, concatenated, are the NAL unit without its header byte |
| H264RtpProperties.FirstFragmentIndicator | android/app/src/main/kotlin/com/monkeysee/app/rtsp/RtpPacketizer.kt:67-93 | (byte12 & 0x60) \| (byte13 & 0x1F) of the first fragment is the NAL header byte with its top bit cleared |
| H264RtpProperties.DepacketizeFragments | android/app/src/main/kotlin/com/monkeysee/app/rtsp/RtpPacketizer.kt:65-107 | depacketizing the fragments gives back the NAL unit with its forbidden bit cleared |
| H264RtpProperties.DepacketizePackets | android/app/src/main/kotlin/com/monkeysee/app/rtsp/RtpPacketizer.kt:42-107 | for any NAL unit (a short one not itself of type 28), depacketizing its packets gives back the unit, single ones verbatim and fragmented ones with the forbidden bit cleared, so every unit whose forbidden bit is clear comes back unchanged |
| H264RtpProperties.StartCodeIrrelevant | android/app/src/test/kotlin/com/monkeysee/app/rtsp/RtpPacketizerTest.kt:121-139 | the same NAL unit behind a 4-byte code, a 3-byte code or none gives identical packets |
| AacRtp.AudioClock | android/app/src/main/kotlin/com/monkeysee/app/rtsp/AudioRtpPacketizer.kt:28 | the sample clock: `timestampUs * sampleRate` wrapped to `Long`, then divided by 1,000,000 rounding toward zero |
| AacRtp.AacPacket | android/app/src/main/kotlin/com/monkeysee/app/rtsp/AudioRtpPacketizer.kt:30-51 | the packet of one AAC frame: the header with the marker set, AU-headers-length 16, the AU-header `size shl 3` as a `Short`, then the frame; `ParseAacPacketRoundTrip` is its partner |
| AacRtp.ConfigPacket | android/app/src/main/kotlin/com/monkeysee/app/rtsp/AudioRtpPacketizer.kt:64-80 | the packet of an AudioSpecificConfig: the header with the marker set, then the config bytes; `ConfigPacketLayout` is its partner |
| AacRtp.AudioRtpPacketizer.constructor | android/app/src/main/kotlin/com/monkeysee/app/rtsp/AudioRtpPacketizer.kt:6-12 | the SSRC, payload type, sample rate and first sequence number are the given ones; the timestamp starts at 0 |
| AacRtp.AudioRtpPacketizer.Packetize | android/app/src/main/kotlin/com/monkeysee/app/rtsp/AudioRtpPacketizer.kt:26-58 | the timestamp becomes the sample clock; the packet is header, AU-headers-length, AU-header, then the frame; one sequence number is used |
| AacRtp.AudioRtpPacketizer.PacketizeConfig | android/app/src/main/kotlin/com/monkeysee/app/rtsp/AudioRtpPacketizer.kt:64-81 | the timestamp becomes the sample clock; the packet is the header followed by the config; the same counter advances by one |
| AacRtp.AudioRtpPacketizer.GetSequenceNumber | android/app/src/main/kotlin/com/monkeysee/app/rtsp/AudioRtpPacketizer.kt:103 | returns the counter |
| AacRtp.AudioRtpPacketizer.GetTimestamp | android/app/src/main/kotlin/com/monkeysee/app/rtsp/AudioRtpPacketizer.kt:104 | returns the timestamp |
| AacRtp.AudioRtpPacketizer.GetSsrc | android/app/src/main/kotlin/com/monkeysee/app/rtsp/AudioRtpPacketizer.kt:105 | returns the SSRC |
| AacRtp.AudioClockExamples | android/app/src/main/kotlin/com/monkeysee/app/rtsp/AudioRtpPacketizer.kt:28 | at 48 kHz one second gives 48,000, and 21,333 µs gives 1023 (truncated) |
| AacRtp.AudioClockMonotonic | android/app/src/main/kotlin/com/monkeysee/app/rtsp/AudioRtpPacketizer.kt:28 | without overflow the sample clock is non-negative and never runs backwards |
| AacRtp.ParseAacPacketRoundTrip | android/app/src/main/kotlin/com/monkeysee/app/rtsp/AudioRtpPacketizer.kt:30-51 | a receiver reads back the header with the marker set, AU-headers-length 16, AU-size n mod 8192, AU-Index 0 and the frame; for n < 8192 the AU-size is n |
| AacRtp.AuSizeAndIndex | android/app/src/main/kotlin/com/monkeysee/app/rtsp/AudioRtpPacketizer.kt:34-48 | the low 16 bits of `n shl 3` hold n mod 8192 over an index of 0 |
| AacRtp.ConfigPacketLayout | android/app/src/main/kotlin/com/monkeysee/app/rtsp/AudioRtpPacketizer.kt:64-80 | a config packet is 12+c bytes with the marker set and the config verbatim after the header |
| Encoder.UnitEnd | android/app/src/main/kotlin/com/monkeysee/app/codec/VideoEncoder.kt:172-181 | a unit ends at a start code below size−3, or else at max(start, size−3) |
| Encoder.UnitEndIsFirst | android/app/src/main/kotlin/com/monkeysee/app/codec/VideoEncoder.kt:172-181 | the end found is the first start code after the unit's header byte |
| Encoder.Units | android/app/src/main/kotlin/com/monkeysee/app/codec/VideoEncoder.kt:158-207 | the units the outer scan cuts: a start code below size−4 opens a unit that ends at `UnitEnd`, and the scan resumes there; elsewhere it moves on one byte |
| Encoder.EventOf | android/app/src/main/kotlin/com/monkeysee/app/codec/VideoEncoder.kt:183-201 | the callback for one unit: the unit with its start code, routed by the NAL type in its header byte (7 SPS, 8 PPS, 5 key frame, 1 frame, others none) |
| Encoder.NalEvents | android/app/src/main/kotlin/com/monkeysee/app/codec/VideoEncoder.kt:155-212 | all callbacks for one buffer, in order: the events of `Units`, or the whole buffer with the codec's key-frame flag when it is at most 4 bytes |
| Encoder.UnitsWellFormed | android/app/src/main/kotlin/com/monkeysee/app/codec/VideoEncoder.kt:158-207 | every unit sits behind its start code and holds its header byte; units come in buffer order and do not overlap |
| Encoder.VideoEncoder.constructor | android/app/src/main/kotlin/com/monkeysee/app/codec/VideoEncoder.kt:10-19 | `nanosPerFrame` is 1,000,000,000 / fps, truncated; the encoder is stopped and the frame count is 0 |
| Encoder.VideoEncoder.FindNextStart | android/app/src/main/kotlin/com/monkeysee/app/codec/VideoEncoder.kt:172-181 | the inner loop stops at `UnitEnd` |
| Encoder.VideoEncoder.CutUnit | android/app/src/main/kotlin/com/monkeysee/app/codec/VideoEncoder.kt:169-201 | one unit is cut at the start code and reported as its type selects |
| Encoder.VideoEncoder.ParseNalUnits | android/app/src/main/kotlin/com/monkeysee/app/codec/VideoEncoder.kt:155-213 | the events are `NalEvents`: the units' events in buffer order, or the whole buffer with the key-frame flag when it is at most 4 bytes |
| Encoder.VideoEncoder.Start | android/app/src/main/kotlin/com/monkeysee/app/codec/VideoEncoder.kt:39-61 | a running encoder is left alone; otherwise it runs with the frame count reset to 0 |
| Encoder.VideoEncoder.Stop | android/app/src/main/kotlin/com/monkeysee/app/codec/VideoEncoder.kt:70-84 | afterwards the encoder is not running |
| Encoder.VideoEncoder.QueueInputFrame | android/app/src/main/kotlin/com/monkeysee/app/codec/VideoEncoder.kt:92-113 | a queued frame carries `frameCount*nanosPerFrame/1000` and the count goes up by one; otherwise the count is unchanged |
| Encoder.VideoEncoder.IsInitialized | android/app/src/main/kotlin/com/monkeysee/app/codec/VideoEncoder.kt:277 | returns whether the encoder runs |
| Encoder.PresentationTimeUs | android/app/src/main/kotlin/com/monkeysee/app/codec/VideoEncoder.kt:105 | `frameCount * nanosPerFrame` wrapped to `Long`, divided by 1000 rounding toward zero |
| Encoder.PresentationTimeExamples | android/app/src/main/kotlin/com/monkeysee/app/codec/VideoEncoder.kt:105 | at 30 fps frame 30 is at 999,999 µs; at 15 fps frame 15 is too |
| Encoder.FrameDurationAtLeastMicrosecond | android/app/src/main/kotlin/com/monkeysee/app/codec/VideoEncoder.kt:19 | at most 10^6 fps gives frames of at least 1000 ns |
| Encoder.PresentationTimeIncreases | android/app/src/main/kotlin/com/monkeysee/app/codec/VideoEncoder.kt:105 | before overflow, presentation times strictly increase with the frame count |
| EncoderProperties.UnitsFindEveryStartCode | android/app/src/main/kotlin/com/monkeysee/app/codec/VideoEncoder.kt:158-163 | every start code at or after the scan offset and below size−4 opens a unit, or sits just behind one's start code (at its first byte) |
| EncoderProperties.NoUnitsWithoutStartCode | android/app/src/main/kotlin/com/monkeysee/app/codec/VideoEncoder.kt:158-207 | a buffer with no start code below size−4 yields no unit |
| EncoderProperties.NoStartCodeNoEvents | android/app/src/main/kotlin/com/monkeysee/app/codec/VideoEncoder.kt:209-212 | for a buffer of more than 4 bytes, no units exactly when there is no start code, and then no callback at all |
| EncoderProperties.NoInnerStartCode | android/app/src/main/kotlin/com/monkeysee/app/codec/VideoEncoder.kt:172-183 | an emitted unit holds no start code after its own |
| EncoderProperties.RoutedByType | android/app/src/main/kotlin/com/monkeysee/app/codec/VideoEncoder.kt:185-201 | types 7 and 8 go to SPS and PPS, 5 and 1 to a frame (key frame exactly for 5), others to nothing |
| EncoderProperties.EventOfRouted | android/app/src/main/kotlin/com/monkeysee/app/codec/VideoEncoder.kt:183-201 | a unit yields at most one event, and it carries bytes starting with `00 00 00 01` and routed by type |
| EncoderProperties.EventsOfRouted | android/app/src/main/kotlin/com/monkeysee/app/codec/VideoEncoder.kt:185-201 | every event of a list of units is routed by its type |
| EncoderProperties.NalEventsRouted | android/app/src/main/kotlin/com/monkeysee/app/codec/VideoEncoder.kt:155-212 | for a buffer of more than 4 bytes every event is a routed NAL unit |
| EncoderProperties.UnitEndWithoutStartCode | android/app/src/main/kotlin/com/monkeysee/app/codec/VideoEncoder.kt:172-181 | without a later start code a unit ends at size−3 |
| EncoderProperties.LastUnitTruncated | android/app/src/main/kotlin/com/monkeysee/app/codec/VideoEncoder.kt:172-183 | a buffer holding one frame NAL unit reports it without its last 3 bytes |
| EncoderProperties.TruncationExample | android/app/src/main/kotlin/com/monkeysee/app/codec/VideoEncoder.kt:172-183 | the 9-byte buffer 00 00 00 01 65 88 84 21 A0 reports only its first 6 bytes |
| EncoderProperties.IntendedUnitEnd | android/app/src/main/kotlin/com/monkeysee/app/codec/VideoEncoder.kt:172-183 | the corrected end is the next start code, or else the end of the buffer |
| EncoderProperties.IntendedUnitsTile | android/app/src/main/kotlin/com/monkeysee/app/codec/VideoEncoder.kt:172-183 | with the corrected end, the units and their start codes tile the buffer from the first start code to the end |
| EncoderProperties.IntendedSingleUnit | android/app/src/main/kotlin/com/monkeysee/app/codec/VideoEncoder.kt:172-183 | with the corrected end, one frame NAL unit is reported whole |
| EncoderProperties.IntendedWholeBuffer | android/app/src/main/kotlin/com/monkeysee/app/codec/VideoEncoder.kt:209-212 | with the corrected fallback, the scan finds no unit exactly when there is no start code, and then the buffer goes out whole with the codec's key-frame flag, whatever its length |
| EncoderProperties.NoStartCodeExample | android/app/src/main/kotlin/com/monkeysee/app/codec/VideoEncoder.kt:209-212 | the 5-byte buffer 65 88 84 21 A0 yields no callback as written, and goes out whole with the corrected fallback |
| Text.ToIntOrNull | android/app/src/main/kotlin/com/monkeysee/app/rtsp/RtspServer.kt:166 | `toIntOrNull`: an optional sign and one or more ASCII digits whose value fits an `Int`, else None; `IntToStringRoundTrip` is its partner |
| Text.Trim | android/app/src/main/kotlin/com/monkeysee/app/rtsp/RtspServer.kt:166 | `trim()`: `TrimStart` then `TrimEnd`, removing exactly the leading and trailing whitespace |
| Text.Lines | android/app/src/main/kotlin/com/monkeysee/app/rtsp/RtspServer.kt:270 | `lines()`: splits at CRLF, LF or CR, a trailing terminator leaving a final empty line; `LinesOfJoin` is its partner |
| Text.Lowercase | android/app/src/main/kotlin/com/monkeysee/app/rtsp/RtspServer.kt:281 | same length, each character folded |
| Text.TrimStart | android/app/src/main/kotlin/com/monkeysee/app/rtsp/RtspServer.kt:275 | a suffix with no leading whitespace, only whitespace removed |
| Text.TrimEnd | android/app/src/main/kotlin/com/monkeysee/app/rtsp/RtspServer.kt:275 | a prefix with no trailing whitespace, only whitespace removed |
| Text.NatToString | android/app/src/main/kotlin/com/monkeysee/app/rtsp/RtspServer.kt:180 | decimal digits without a leading zero whose value is the number |
| Text.IntToStringRoundTrip | android/app/src/main/kotlin/com/monkeysee/app/rtsp/RtspServer.kt:166 | `toIntOrNull` reads back every `Int` the server prints |
| Text.LinesOfJoin | android/app/src/main/kotlin/com/monkeysee/app/rtsp/RtspServer.kt:270 | `lines()` of CRLF-terminated lines followed by more text gives the lines, then the lines of the text |
| Rtsp.HeaderEnd | android/app/src/main/kotlin/com/monkeysee/app/rtsp/RtspServer.kt:159-161 | the header block ends at the first empty line, or at the end of the input |
| Rtsp.Consumed | android/app/src/main/kotlin/com/monkeysee/app/rtsp/RtspServer.kt:153-161 | `readRequest` consumes at least the request line and no more than the input |
| Rtsp.CSeqAfterSnoc | android/app/src/main/kotlin/com/monkeysee/app/rtsp/RtspServer.kt:164-167 | a `CSeq:` line sets the value; any other line leaves it |
| Rtsp.CSeqOf | android/app/src/main/kotlin/com/monkeysee/app/rtsp/RtspServer.kt:166 | the value of a `CSeq:` line: the text after the 5-character key, trimmed and parsed as an `Int`, else 0 |
| Rtsp.CSeqAfter | android/app/src/main/kotlin/com/monkeysee/app/rtsp/RtspServer.kt:159-167 | `cseq` after a request's header lines: the last `CSeq:` line decides, and without one the value before stays |
| Rtsp.MethodOf | android/app/src/main/kotlin/com/monkeysee/app/rtsp/RtspServer.kt:131-139 | the `when` of `handleClient`: the first of OPTIONS, DESCRIBE, SETUP, PLAY, SET_PARAMETER, TEARDOWN that the request starts with, else Unknown |
| Rtsp.SdpLines | android/app/src/main/kotlin/com/monkeysee/app/rtsp/RtspServer.kt:189-209 | the fifteen SDP lines of `handleDescribe`, with the video and audio bitrates in kbit/s (truncated) and the sample rate and channel count of the configuration |
| Rtsp.Sdp | android/app/src/main/kotlin/com/monkeysee/app/rtsp/RtspServer.kt:189-209 | the SDP text: each of those lines followed by CRLF |
| Rtsp.SetupPort | android/app/src/main/kotlin/com/monkeysee/app/rtsp/RtspServer.kt:228-240 | the client port after SETUP: the first number of the leftmost `client_port=(\d+)-(\d+)` match in the first Transport line, else the port before, with 0 replaced by 5000; None when that number does not fit an `Int` and `toInt()` throws |
| Rtsp.QualityValue | android/app/src/main/kotlin/com/monkeysee/app/rtsp/RtspServer.kt:270-278 | the text after the first line starting with `quality:` in any case, trimmed; None without such a line |
| Rtsp.PresetNamed | android/app/src/main/kotlin/com/monkeysee/app/rtsp/RtspServer.kt:281-287 | the preset whose word (`low`, `medium`, `high`, `ultra`) the lowercased value is, else None |
| Rtsp.Respond | android/app/src/main/kotlin/com/monkeysee/app/rtsp/RtspServer.kt:131-139 | one request handled: OPTIONS, DESCRIBE and PLAY answer 200 with their headers, SETUP and SET_PARAMETER as below, TEARDOWN answers 200 and closes, anything else answers 400; only SETUP and SET_PARAMETER change the fields |
| Rtsp.RespondSetup | android/app/src/main/kotlin/com/monkeysee/app/rtsp/RtspServer.kt:224-252 | SETUP: the session id becomes the clock's text; then the port is `SetupPort` and the reply names both, or the connection aborts when the port does not fit an `Int` |
| Rtsp.RespondSetParameter | android/app/src/main/kotlin/com/monkeysee/app/rtsp/RtspServer.kt:267-299 | SET_PARAMETER: a named preset becomes the configuration with 200 OK; otherwise 451 and nothing changes |
| Rtsp.Conversation | android/app/src/main/kotlin/com/monkeysee/app/rtsp/RtspServer.kt:122-146 | a whole connection: read a request (setting `cseq`), respond, and go on until the input ends, a handler aborts or TEARDOWN closes; returns the final fields and the responses written |
| Rtsp.FirstWithPrefix | android/app/src/main/kotlin/com/monkeysee/app/rtsp/RtspServer.kt:228 | `find` gives the first line with the prefix, and None exactly when no line has it |
| Rtsp.DigitRun | android/app/src/main/kotlin/com/monkeysee/app/rtsp/RtspServer.kt:230 | the greedy `\d+`: digits up to the first non-digit |
| Rtsp.FindClientPort | android/app/src/main/kotlin/com/monkeysee/app/rtsp/RtspServer.kt:230-232 | the first group of the leftmost `client_port=(\d+)-(\d+)` match, a non-empty digit string, and None exactly when nothing matches |
| Rtsp.RtspServer.constructor | android/app/src/main/kotlin/com/monkeysee/app/rtsp/RtspServer.kt:16-32 | no session, CSeq 0, client port 0, nothing to send with |
| Rtsp.RtspServer.ReadRequest | android/app/src/main/kotlin/com/monkeysee/app/rtsp/RtspServer.kt:148-175 | None at the end of input; otherwise the request line and header lines, each with CRLF, up to the first empty line; `cseq` is the last `CSeq:` header's value, else unchanged |
| Rtsp.RtspServer.Handle | android/app/src/main/kotlin/com/monkeysee/app/rtsp/RtspServer.kt:127-139 | the fields and outcome are `Respond` of the old fields |
| Rtsp.RtspServer.HandleSetup | android/app/src/main/kotlin/com/monkeysee/app/rtsp/RtspServer.kt:224-252 | the session id comes from the clock; the port is `SetupPort`; the reply names both; an oversized port aborts |
| Rtsp.RtspServer.HandleSetParameter | android/app/src/main/kotlin/com/monkeysee/app/rtsp/RtspServer.kt:267-299 | a named preset becomes the configuration with 200 OK; otherwise 451 and the configuration is kept |
| Rtsp.RtspServer.UpdateQuality | android/app/src/main/kotlin/com/monkeysee/app/rtsp/RtspServer.kt:319-324 | the configuration becomes `fromPreset(preset)` |
| Rtsp.RtspServer.ServeConnection | android/app/src/main/kotlin/com/monkeysee/app/rtsp/RtspServer.kt:122-146 | the final fields and the responses written are `Conversation` of the input |
| Rtsp.RtspServer.Round | android/app/src/main/kotlin/com/monkeysee/app/rtsp/RtspServer.kt:127-139 | one read-and-dispatch turn moves the conversation on by one request and consumes at least one line |
| Rtsp.RtspServer.Connect | android/app/src/main/kotlin/com/monkeysee/app/rtsp/RtspServer.kt:77-93 | the packetizer, the socket and the client address are set |
| Rtsp.RtspServer.SendRtpPackets | android/app/src/main/kotlin/com/monkeysee/app/rtsp/RtspServer.kt:371-393 | without a packetizer, socket or client address, or with client port 0, nothing is sent and the packetizer is untouched; otherwise the packetizer's timestamp and counter advance as `Packetize` states, and every packet goes, in order, to the client's address and RTP port, or none does when the port is above 65535 and `DatagramPacket` throws |
| Rtsp.RtspServer.SendAll | android/app/src/main/kotlin/com/monkeysee/app/rtsp/RtspServer.kt:381-389 | for a port in 0..65535, one datagram per packet, in order, to the same address and port; for any other port the first `DatagramPacket` throws and nothing is sent |
| RtspProperties.CSeqLineRoundTrip | android/app/src/main/kotlin/com/monkeysee/app/rtsp/RtspServer.kt:165-166 | an echoed `CSeq: n` line reads back as n |
| RtspProperties.CSeqUnparsable | android/app/src/main/kotlin/com/monkeysee/app/rtsp/RtspServer.kt:166 | an unparsable value gives 0 |
| RtspProperties.CSeqAfterNoHeader | android/app/src/main/kotlin/com/monkeysee/app/rtsp/RtspServer.kt:159-168 | a request without a `CSeq:` line keeps the previous value |
| RtspProperties.CSeqAfterLast | android/app/src/main/kotlin/com/monkeysee/app/rtsp/RtspServer.kt:159-168 | the last `CSeq:` line decides |
| RtspProperties.FirstMethodFinds | android/app/src/main/kotlin/com/monkeysee/app/rtsp/RtspServer.kt:131-139 | the result is the first listed method the request starts with, and Unknown exactly when none matches |
| RtspProperties.MethodOfIsFirstPrefix | android/app/src/main/kotlin/com/monkeysee/app/rtsp/RtspServer.kt:131-139 | the same for the order OPTIONS, DESCRIBE, SETUP, PLAY, SET_PARAMETER, TEARDOWN |
| RtspProperties.MethodOfName | android/app/src/main/kotlin/com/monkeysee/app/rtsp/RtspServer.kt:131-137 | a request starting with a method's name reaches that method's handler |
| RtspProperties.EarlierNamesMismatch | android/app/src/main/kotlin/com/monkeysee/app/rtsp/RtspServer.kt:131-137 | no earlier name in the order is a prefix of a request for a later method |
| RtspProperties.PublicListsDispatch | android/app/src/main/kotlin/com/monkeysee/app/rtsp/RtspServer.kt:181 | the `Public:` header lists exactly the dispatched methods, in dispatch order |
| RtspProperties.TransportLineMatch | android/app/src/main/kotlin/com/monkeysee/app/rtsp/RtspServer.kt:230-232 | in `Transport: RTP/AVP;unicast;client_port=a-b` the match's first group is a |
| RtspProperties.SetupPortFromTransport | android/app/src/main/kotlin/com/monkeysee/app/rtsp/RtspServer.kt:228-240 | the first Transport line with `client_port=a-b` gives port a, with 0 replaced by 5000 |
| RtspProperties.SetupPortWithoutTransport | android/app/src/main/kotlin/com/monkeysee/app/rtsp/RtspServer.kt:228-240 | without a Transport line the previous port is kept, with 0 replaced by 5000 |
| RtspProperties.SetupPortNonZero | android/app/src/main/kotlin/com/monkeysee/app/rtsp/RtspServer.kt:238-240 | after SETUP the port is never 0, and positive when it was not negative before |
| RtspProperties.SetupReplyNamesPort | android/app/src/main/kotlin/com/monkeysee/app/rtsp/RtspServer.kt:246 | the reply's Transport line is `client_port=p-(p+1)`, and the server's own parser reads p back from it |
| RtspProperties.PresetNamedIff | android/app/src/main/kotlin/com/monkeysee/app/rtsp/RtspServer.kt:281-287 | a value names preset p exactly when it lowercases to p's word, and names none exactly when it lowercases to no word |
| RtspProperties.QualityValueFirst | android/app/src/main/kotlin/com/monkeysee/app/rtsp/RtspServer.kt:273-278 | the first line starting with `quality:` in any case gives the value, trimmed |
| RtspProperties.QualityValueMissing | android/app/src/main/kotlin/com/monkeysee/app/rtsp/RtspServer.kt:270-278 | without such a line there is no value |
| RtspProperties.SetParameterUnderstood | android/app/src/main/kotlin/com/monkeysee/app/rtsp/RtspServer.kt:280-293 | a known value switches to that preset's configuration and answers 200 OK |
| RtspProperties.SetParameterUnknownValue | android/app/src/main/kotlin/com/monkeysee/app/rtsp/RtspServer.kt:280-298 | an unknown value answers 451 and changes nothing |
| RtspProperties.SetParameterMissingValue | android/app/src/main/kotlin/com/monkeysee/app/rtsp/RtspServer.kt:270-298 | a missing `quality:` line answers 451 and changes nothing |
| RtspProperties.FramedReply | android/app/src/main/kotlin/com/monkeysee/app/rtsp/RtspServer.kt:306-311 | a response of status line, CSeq line, other headers and an empty line, with any body, reads back its status and CSeq |
| RtspProperties.SimpleReplyReads | android/app/src/main/kotlin/com/monkeysee/app/rtsp/RtspServer.kt:306-311 | `sendResponse` text reads back its status and CSeq |
| RtspProperties.OptionsReplyReads | android/app/src/main/kotlin/com/monkeysee/app/rtsp/RtspServer.kt:177-183 | the OPTIONS reply reads back 200 OK and its CSeq |
| RtspProperties.PlayReplyReads | android/app/src/main/kotlin/com/monkeysee/app/rtsp/RtspServer.kt:254-261 | the PLAY reply reads back 200 OK and its CSeq |
| RtspProperties.SetupReplyReads | android/app/src/main/kotlin/com/monkeysee/app/rtsp/RtspServer.kt:242-248 | the SETUP reply reads back 200 OK and its CSeq |
| RtspProperties.DescribeReplyReads | android/app/src/main/kotlin/com/monkeysee/app/rtsp/RtspServer.kt:211-218 | the DESCRIBE reply reads back 200 OK and its CSeq |
| RtspProperties.RespondReadsBack | android/app/src/main/kotlin/com/monkeysee/app/rtsp/RtspServer.kt:127-139 | every reply reads back as 400 for an unknown method, 451 for a SET_PARAMETER without a known preset, else 200 OK, with the current CSeq; the connection closes exactly after TEARDOWN |
| RtspProperties.RespondKeepsReachable | android/app/src/main/kotlin/com/monkeysee/app/rtsp/RtspServer.kt:127-139 | handling a request keeps the configuration the initial one or a preset's, the session id free of line breaks and the port non-negative |
| RtspProperties.ConversationKeepsReachable | android/app/src/main/kotlin/com/monkeysee/app/rtsp/RtspServer.kt:122-146 | so does a whole connection |
| RtspProperties.LengthFraming | android/app/src/main/kotlin/com/monkeysee/app/rtsp/RtspServer.kt:215 | the `Content-Length` line states the number of characters after the header block |
| RtspProperties.DescribeContentLength | android/app/src/main/kotlin/com/monkeysee/app/rtsp/RtspServer.kt:211-218 | in the DESCRIBE reply the body after the headers is the SDP, and `Content-Length` is its decimal length |
| RtspProperties.SdpLinesRead | android/app/src/main/kotlin/com/monkeysee/app/rtsp/RtspServer.kt:189-209 | the SDP reads back as exactly its fifteen lines |
| RtspProperties.SdpMediaSections | android/app/src/main/kotlin/com/monkeysee/app/rtsp/RtspServer.kt:196-208 | the SDP has exactly two `m=` lines, the video one sixth and the audio one eleventh, so each attribute line belongs to the right media section |
| RtspProperties.RequestLinesRoundTrip | android/app/src/main/kotlin/com/monkeysee/app/rtsp/RtspServer.kt:148-175 | `lines()` of the text `readRequest` returns gives back the lines it read, then an empty one |

## Left out

- Networking, sockets and threads are not modelled. This covers `ServerSocket`, `DatagramSocket`, `BufferedReader`/`Writer`, the coroutine accept loop, `start`/`stop` of the server, and the asynchronous encoder restart and callback in `updateQuality`. A connection's input is a sequence of lines, its output the sequence of responses written, and a send is a list of datagrams.
- `readRequest`'s exception path (`IOException`) is not modelled. The input simply ends.
- `System.currentTimeMillis()` is a parameter. One `nowMillis` is used for a whole connection.
- `Math.random()` SSRCs and first sequence numbers are constructor parameters.
- I/O exceptions of `socket.send` inside `sendRtpPackets` are not modelled: every packet handed to the socket is sent. The argument check of `DatagramPacket` is modelled, so a client port above 65535 sends nothing.
- MediaCodec plumbing in VideoEncoder.kt (`start`, `stop`, `encodeFrame` output draining, `extractSpsAndPps`) is not modelled. `VideoEncoder.Start` and `Stop` model only their effect on `isRunning` and `frameCount`. Whether the codec grants an input buffer is a parameter.
- Encoder.VideoEncoder.QueueInputFrame: models only the input half of `encodeFrame` (the running check, the presentation time and the frame count), because the output half is MediaCodec plumbing.
- H264Rtp.VideoClockExact: stated only for timestamps up to 10^17 µs, where `timestampUs * 90` does not overflow `Long`. `VideoClock` itself models the wrap-around.
- AacRtp.AudioClockMonotonic: stated only when `timestampUs * sampleRate` does not overflow `Long`. `AudioClock` itself models the wrap-around.
- Encoder.PresentationTimeIncreases: stated only while `frameCount * nanosPerFrame` does not overflow `Long`. `PresentationTimeUs` itself models the wrap-around.
- `imageProxyToNV21`, AudioEncoder.kt and MainActivity.kt are not part of this model. They are camera, audio capture and UI code.
- `StreamingConfig.getDescription` uses floating-point formatting and is not modelled.
- Logging is left out.
- `AudioRtpPacketizer` is not wired into the server, so it is modelled on its own.
- Text.ToIntOrNull: accepts only the ASCII digits `0`..`9`. Kotlin's `toIntOrNull` reads digits with `Character.digit`, which also accepts other Unicode decimal digits, such as Arabic-Indic or fullwidth ones. A `CSeq:` value written in such digits therefore reads as 0 here (`CSeqOf`), where the source reads its value. The exact digit table depends on the platform's Unicode version.
- The payload type is 0..127, the 7-bit field. A larger Kotlin `Int` would spill into the marker bit.
- The `VideoEncoder` constructor requires fps ≠ 0. Kotlin would throw `ArithmeticException` there.
- Kotlin's `lowercase()` and `startsWith(..., ignoreCase = true)` are modelled with ASCII case folding only. `trim()` uses exactly Kotlin's `Char.isWhitespace` set: Java whitespace plus the Unicode space separators.
- Packets are modelled as `seq<byte>` values and not as `ByteArray`s filled through a `ByteBuffer`. The order of the `put` calls is kept in the method bodies.
- The `offset >= data.size` check after a start code (VideoEncoder.kt:167) is not modelled. The loop guard already keeps `offset + 4 < data.size`, so the check can never fire.
- Some long constant strings (`PublicLine`, `SdpAudioFmtp`) are written as concatenations of shorter pieces. Their text is the same.

## Findings

| source | as written | input that shows it | evidently intended | confidence | as-written member | corrected member |
|---|---|---|---|---|---|---|
| android/app/src/main/kotlin/com/monkeysee/app/codec/VideoEncoder.kt:172-183 | without a later start code the inner loop stops at `size−3`, so the last NAL unit of a buffer loses its final 3 bytes | `00 00 00 01 65 88 84 21 A0` reports only `00 00 00 01 65 88` | the last unit runs to the end of the buffer, so that units and start codes tile it | not executed | EncoderProperties.TruncationExample | EncoderProperties.IntendedUnitsTile |
| android/app/src/main/kotlin/com/monkeysee/app/codec/VideoEncoder.kt:209-212 | the whole-buffer fallback checks `offset == 0`, which holds only when the scan loop body never executes, i.e. for buffers of at most 4 bytes; a longer buffer without a start code produces no callback at all | `65 88 84 21 A0` yields no callback | as the comment there says, a buffer in which no start code is found is sent whole | not executed | EncoderProperties.NoStartCodeNoEvents | EncoderProperties.IntendedWholeBuffer |
