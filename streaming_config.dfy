/** Streaming quality presets and the immutable streaming configuration
    built from them (StreamingConfig.kt). */
module Config {
  import opened Bytes

  /** The four presets, in the order the enum declares them. */
  datatype QualityPreset = LOW | MEDIUM | HIGH | ULTRA {

    /** Position in the declaration order LOW, MEDIUM, HIGH, ULTRA. */
    function Ordinal(): nat
    {
      match this
      case LOW => 0
      case MEDIUM => 1
      case HIGH => 2
      case ULTRA => 3
    }

    function Width(): int32
    {
      match this
      case LOW => 640
      case MEDIUM => 1280
      case HIGH => 1280
      case ULTRA => 1920
    }

    function Height(): int32
    {
      match this
      case LOW => 480
      case MEDIUM => 720
      case HIGH => 720
      case ULTRA => 1080
    }

    /** Video bitrate in bits per second. */
    function Bitrate(): int32
    {
      match this
      case LOW => 500_000
      case MEDIUM => 1_500_000
      case HIGH => 2_000_000
      case ULTRA => 4_000_000
    }

    function Fps(): int32
    {
      match this
      case LOW => 15
      case MEDIUM => 24
      case HIGH => 30
      case ULTRA => 30
    }

    /** Audio bitrate in bits per second. */
    function AudioBitrate(): int32
    {
      match this
      case LOW => 64_000
      case MEDIUM => 96_000
      case HIGH => 128_000
      case ULTRA => 192_000
    }
  }

  /** `QualityPreset.DEFAULT` */
  const DefaultPreset: QualityPreset := HIGH

  datatype StreamingConfig = StreamingConfig(
    videoWidth: int32,
    videoHeight: int32,
    videoBitrate: int32,
    videoFps: int32,
    audioBitrate: int32,
    audioSampleRate: int32,
    audioChannels: int32)

  /** The value of `StreamingConfig()`, every parameter at its default. */
  const AllDefaults: StreamingConfig := StreamingConfig(1280, 720, 2_000_000, 30, 128_000, 48000, 2)

  /** `StreamingConfig.fromPreset`: the preset's video and audio settings,
      the remaining parameters at their defaults. */
  function FromPreset(preset: QualityPreset): (c: StreamingConfig)
    ensures c.videoWidth == preset.Width() && c.videoHeight == preset.Height()
    ensures c.videoBitrate == preset.Bitrate() && c.videoFps == preset.Fps()
    ensures c.audioBitrate == preset.AudioBitrate()
    ensures c.audioSampleRate == 48000 && c.audioChannels == 2
  {
    AllDefaults.(
      videoWidth := preset.Width(),
      videoHeight := preset.Height(),
      videoBitrate := preset.Bitrate(),
      videoFps := preset.Fps(),
      audioBitrate := preset.AudioBitrate())
  }

  /** `StreamingConfig.DEFAULT` */
  function Default(): (c: StreamingConfig)
    ensures c == AllDefaults
  {
    FromPreset(DefaultPreset)
  }

  /** Video and audio bitrates strictly increase along the declaration order. */
  lemma BitratesIncrease(p: QualityPreset, q: QualityPreset)
    requires p.Ordinal() < q.Ordinal()
    ensures p.Bitrate() < q.Bitrate()
    ensures p.AudioBitrate() < q.AudioBitrate()
    ensures p.Width() <= q.Width() && p.Height() <= q.Height() && p.Fps() <= q.Fps()
  {
  }

  /** Distinct presets give distinct configurations. */
  lemma FromPresetInjective(p: QualityPreset, q: QualityPreset)
    requires FromPreset(p) == FromPreset(q)
    ensures p == q
  {
    if p.Ordinal() < q.Ordinal() {
      BitratesIncrease(p, q);
    } else if q.Ordinal() < p.Ordinal() {
      BitratesIncrease(q, p);
    }
  }

  /** The ULTRA preset is 1920x1080 at 4 Mbit/s and 30 fps, with 192 kbit/s audio. */
  lemma UltraConfig()
    ensures FromPreset(ULTRA) == StreamingConfig(1920, 1080, 4_000_000, 30, 192_000, 48000, 2)
  {
  }
}
