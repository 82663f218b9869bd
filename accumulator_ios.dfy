/**
 * The iOS offline-recording accumulator: sub-recording chunks are mapped from PMD frames to
 * SDK samples and appended to one array per modality; the result is the first modality, in
 * a fixed priority order, that has a start time, its settings and at least one sample.
 */
module OfflineAccumulatorIos {
  import opened Wrappers
  import opened Errors
  import opened OfflineRecordingData

  /** An offline HR sample as the device sends it. */
  datatype HrInput = HrInput(hr: int, ppgQuality: int, correctedHr: int)

  /** An HR sample as the SDK delivers it; offline HR carries no RR intervals or contact data. */
  datatype HrSample = HrSample(
    hr: int, ppgQuality: int, correctedHr: int, rrsMs: seq<int>,
    rrAvailable: bool, contactStatus: bool, contactStatusSupported: bool)

  /**
   * A PPG frame by frame type, holding the fields the mapping reads: type 0 has three PPG
   * channels and an ambient channel, type 6 a sport id, types 7 and 9 a channel list,
   * type 10 green, red and infrared channels with status bits, type 13 two channels with
   * status bits. Any other frame type is ignored.
   */
  datatype PpgFrame =
    | Frame0(timeStamp: nat, s0: int, s1: int, s2: int, ambient: int)
    | Frame6(timeStamp: nat, sportId: int)
    | Frame7(timeStamp: nat, ppgDataSamples: seq<int>)
    | Frame9(timeStamp: nat, ppgDataSamples: seq<int>)
    | Frame10(timeStamp: nat, green: seq<int>, red: seq<int>, ir: seq<int>, statusBits: seq<int>)
    | Frame13(timeStamp: nat, s0: int, s1: int, statusBits: seq<int>)
    | OtherFrame(timeStamp: nat)

  /** A PPG sample as the SDK delivers it. */
  datatype PpgSample = PpgSample(timeStamp: nat, channelSamples: seq<int>, statusBits: Option<seq<int>>)

  /** The payload of one chunk; ACC, gyro, magnetometer, PPI and temperature samples map field by field. */
  datatype ChunkData =
    | AccData(samples: seq<Sample>)
    | GyrData(samples: seq<Sample>)
    | MagData(samples: seq<Sample>)
    | PpgData(frames: seq<PpgFrame>)
    | PpiData(samples: seq<Sample>)
    | OfflineHrData(hrSamples: seq<HrInput>)
    | TemperatureData(samples: seq<Sample>)
    | SkinTemperatureData(samples: seq<Sample>)
    | EmptyData
    | UnsupportedData

  /** One sub-recording; its start time is in milliseconds since 1970. */
  datatype OfflineChunk = OfflineChunk(data: ChunkData, startTime: nat, recordingSettings: Option<PolarSensorSetting>)

  const UnsupportedMessage := "GetOfflineRecording failed. Data type is not supported."

  function MapHr(x: HrInput): HrSample {
    HrSample(x.hr, x.ppgQuality, x.correctedHr, [], false, false, false)
  }

  function MapHrAll(xs: seq<HrInput>): (r: seq<HrSample>)
    ensures |r| == |xs| && forall i :: 0 <= i < |xs| ==> r[i] == MapHr(xs[i])
  {
    seq(|xs|, i requires 0 <= i < |xs| => MapHr(xs[i]))
  }

  /** The sample and PPG type a frame maps to; None for an ignored frame type. */
  function FrameSample(f: PpgFrame): Option<(PpgSample, PpgDataType)> {
    match f
    case Frame0(ts, s0, s1, s2, ambient) => Some((PpgSample(ts, [s0, s1, s2, ambient], None), PPG3_AMBIENT1))
    case Frame6(ts, sportId) => Some((PpgSample(ts, [sportId], None), PPG1))
    case Frame7(ts, xs) => Some((PpgSample(ts, xs, None), PPG17))
    case Frame10(ts, green, red, ir, bits) => Some((PpgSample(ts, green + red + ir, Some(bits)), PPG21))
    case Frame9(ts, xs) => Some((PpgSample(ts, xs, None), PPG3))
    case Frame13(ts, s0, s1, bits) => Some((PpgSample(ts, [s0, s1], Some(bits)), PPG2))
    case OtherFrame(_) => None
  }

  /** The samples a run of frames maps to, in order, ignored frames dropped. */
  function MappedFrames(fs: seq<PpgFrame>): (r: seq<PpgSample>)
    ensures |r| <= |fs|
  {
    if fs == [] then []
    else
      var last := FrameSample(fs[|fs| - 1]);
      MappedFrames(fs[..|fs| - 1]) + (if last.Some? then [last.value.0] else [])
  }

  /** The PPG type after a run of frames: the last mapped frame's, or `t0` when none maps. */
  function LastType(fs: seq<PpgFrame>, t0: Option<PpgDataType>): Option<PpgDataType> {
    if fs == [] then t0
    else
      var last := FrameSample(fs[|fs| - 1]);
      if last.Some? then Some(last.value.1) else LastType(fs[..|fs| - 1], t0)
  }

  /** A run of frames maps to no sample exactly when none of its frames has a known type. */
  lemma {:induction false} MappedFramesEmptyIff(fs: seq<PpgFrame>)
    ensures MappedFrames(fs) == [] <==> forall i :: 0 <= i < |fs| ==> FrameSample(fs[i]).None?
  {
    if fs != [] {
      var init := fs[..|fs| - 1];
      MappedFramesEmptyIff(init);
      assert forall i :: 0 <= i < |init| ==> init[i] == fs[i];
    }
  }

  /**
   * The PPG type is that of the last frame with a known type; with no such frame it is
   * left as it was.
   */
  lemma {:induction false} LastTypeIsLastKnownFrame(fs: seq<PpgFrame>, t0: Option<PpgDataType>)
    ensures (forall i :: 0 <= i < |fs| ==> FrameSample(fs[i]).None?) ==> LastType(fs, t0) == t0
    ensures (exists i :: 0 <= i < |fs| && FrameSample(fs[i]).Some?) ==>
      exists i :: 0 <= i < |fs| && FrameSample(fs[i]).Some? && LastType(fs, t0) == Some(FrameSample(fs[i]).value.1) &&
        forall j :: i < j < |fs| ==> FrameSample(fs[j]).None?
  {
    if fs != [] {
      var n := |fs| - 1;
      var init := fs[..n];
      if FrameSample(fs[n]).Some? {
        assert LastType(fs, t0) == Some(FrameSample(fs[n]).value.1);
      } else {
        assert LastType(fs, t0) == LastType(init, t0);
        LastTypeIsLastKnownFrame(init, t0);
        if exists i :: 0 <= i < |fs| && FrameSample(fs[i]).Some? {
          var k :| 0 <= k < |fs| && FrameSample(fs[k]).Some?;
          assert FrameSample(init[k]).Some?;
          var i :| 0 <= i < |init| && FrameSample(init[i]).Some? && LastType(init, t0) == Some(FrameSample(init[i]).value.1) &&
            forall j :: i < j < |init| ==> FrameSample(init[j]).None?;
          assert fs[i] == init[i];
          assert forall j :: i < j < |fs| ==> FrameSample(fs[j]).None? by {
            forall j | i < j < |fs|
              ensures FrameSample(fs[j]).None?
            {
              if j < n {
                assert fs[j] == init[j];
              }
            }
          }
        } else {
          forall i | 0 <= i < |init|
            ensures FrameSample(init[i]).None?
          {
            assert init[i] == fs[i];
          }
        }
      }
    }
  }

  /** Appends `xs` to `buf` one sample at a time, as the per-sample `append` loops do. */
  method AppendAll<T>(buf: seq<T>, xs: seq<T>) returns (r: seq<T>)
    ensures r == buf + xs
  {
    r := buf;
    for i := 0 to |xs|
      invariant r == buf + xs[..i]
    {
      r := r + [xs[i]];
    }
    assert xs[..|xs|] == xs;
  }

  /** The offline HR loop: each sample mapped, then appended. */
  method AppendHr(buf: seq<HrSample>, xs: seq<HrInput>) returns (r: seq<HrSample>)
    ensures r == buf + MapHrAll(xs)
  {
    r := buf;
    for i := 0 to |xs|
      invariant r == buf + MapHrAll(xs[..i])
    {
      assert MapHrAll(xs[..i + 1]) == MapHrAll(xs[..i]) + [MapHr(xs[i])];
      r := r + [HrSample(xs[i].hr, xs[i].ppgQuality, xs[i].correctedHr, [], false, false, false)];
    }
    assert xs[..|xs|] == xs;
  }

  /** The PPG loop: frames of a known type are mapped and appended and set the PPG type. */
  method AppendFrames(buf: seq<PpgSample>, t0: Option<PpgDataType>, frames: seq<PpgFrame>)
    returns (r: seq<PpgSample>, t: Option<PpgDataType>)
    ensures r == buf + MappedFrames(frames) && t == LastType(frames, t0)
  {
    r, t := buf, t0;
    for i := 0 to |frames|
      invariant r == buf + MappedFrames(frames[..i]) && t == LastType(frames[..i], t0)
    {
      assert frames[..i + 1][..i] == frames[..i];
      match frames[i] {
        case Frame0(ts, s0, s1, s2, ambient) =>
          r := r + [PpgSample(ts, [s0, s1, s2, ambient], None)];
          t := Some(PPG3_AMBIENT1);
        case Frame6(ts, sportId) =>
          r := r + [PpgSample(ts, [sportId], None)];
          t := Some(PPG1);
        case Frame7(ts, xs) =>
          r := r + [PpgSample(ts, xs, None)];
          t := Some(PPG17);
        case Frame10(ts, green, red, ir, bits) =>
          r := r + [PpgSample(ts, green + red + ir, Some(bits))];
          t := Some(PPG21);
        case Frame9(ts, xs) =>
          r := r + [PpgSample(ts, xs, None)];
          t := Some(PPG3);
        case Frame13(ts, s0, s1, bits) =>
          r := r + [PpgSample(ts, [s0, s1], Some(bits))];
          t := Some(PPG2);
        case OtherFrame(_) =>
      }
    }
    assert frames[..|frames|] == frames;
  }

  /** One modality's arrays: its samples, start time and settings. */
  datatype Track<T> = Track(samples: seq<T>, startTime: Option<nat>, settings: Option<PolarSensorSetting>)

  /**
   * The first chunk of a modality fixes its start time and, for a modality with settings,
   * the chunk's settings or the default ones; later chunks leave both alone.
   */
  function Started<T>(t: Track<T>, chunk: OfflineChunk, withSettings: bool): Track<T> {
    if t.startTime.None? then
      t.(startTime := Some(chunk.startTime),
         settings := if withSettings then Some(chunk.recordingSettings.GetOr(DefaultSensorSetting)) else t.settings)
    else t
  }

  /** All the fields of the accumulator, as one value. */
  datatype AccumulatorState = AccumulatorState(
    acc: Track<Sample>, gyro: Track<Sample>, mag: Track<Sample>,
    ppg: Track<PpgSample>, ppgType: Option<PpgDataType>,
    ppi: Track<Sample>, hr: Track<HrSample>, temp: Track<Sample>, skinTemp: Track<Sample>,
    emptyStartTime: Option<nat>)

  const Fresh := AccumulatorState(
    Track([], None, None), Track([], None, None), Track([], None, None),
    Track([], None, None), None,
    Track([], None, None), Track([], None, None), Track([], None, None), Track([], None, None),
    None)

  /** The state after `accumulate(chunk)`, and the error it throws, if any. */
  function Apply(s: AccumulatorState, chunk: OfflineChunk): (AccumulatorState, Option<PolarError>) {
    match chunk.data
    case AccData(xs) =>
      var t := Started(s.acc, chunk, true); (s.(acc := t.(samples := t.samples + xs)), None)
    case GyrData(xs) =>
      var t := Started(s.gyro, chunk, true); (s.(gyro := t.(samples := t.samples + xs)), None)
    case MagData(xs) =>
      var t := Started(s.mag, chunk, true); (s.(mag := t.(samples := t.samples + xs)), None)
    case PpgData(fs) =>
      var t := Started(s.ppg, chunk, true);
      (s.(ppg := t.(samples := t.samples + MappedFrames(fs)), ppgType := LastType(fs, s.ppgType)), None)
    case PpiData(xs) =>
      var t := Started(s.ppi, chunk, false); (s.(ppi := t.(samples := t.samples + xs)), None)
    case OfflineHrData(xs) =>
      var t := Started(s.hr, chunk, false); (s.(hr := t.(samples := t.samples + MapHrAll(xs))), None)
    case TemperatureData(xs) =>
      var t := Started(s.temp, chunk, false); (s.(temp := t.(samples := t.samples + xs)), None)
    case SkinTemperatureData(xs) =>
      var t := Started(s.skinTemp, chunk, false); (s.(skinTemp := t.(samples := t.samples + xs)), None)
    case EmptyData =>
      (s.(emptyStartTime := if s.emptyStartTime.None? then Some(chunk.startTime) else s.emptyStartTime), None)
    case UnsupportedData =>
      (s, Some(PolarOfflineRecordingError(UnsupportedMessage)))
  }

  function ModalityOf(d: ChunkData): Option<Modality> {
    match d
    case AccData(_) => Some(ACC)
    case GyrData(_) => Some(GYRO)
    case MagData(_) => Some(MAG)
    case PpgData(_) => Some(PPG)
    case PpiData(_) => Some(PPI)
    case OfflineHrData(_) => Some(HR)
    case TemperatureData(_) => Some(TEMPERATURE)
    case SkinTemperatureData(_) => Some(SKIN_TEMPERATURE)
    case _ => None
  }

  /** How many samples a chunk adds to its modality. */
  function ChunkCount(d: ChunkData): nat {
    match d
    case PpgData(fs) => |MappedFrames(fs)|
    case OfflineHrData(xs) => |xs|
    case EmptyData => 0
    case UnsupportedData => 0
    case _ => |d.samples|
  }

  function StartOf(s: AccumulatorState, m: Modality): Option<nat> {
    match m
    case ACC => s.acc.startTime
    case GYRO => s.gyro.startTime
    case MAG => s.mag.startTime
    case PPG => s.ppg.startTime
    case PPI => s.ppi.startTime
    case HR => s.hr.startTime
    case TEMPERATURE => s.temp.startTime
    case SKIN_TEMPERATURE => s.skinTemp.startTime
  }

  function SettingsOf(s: AccumulatorState, m: Modality): Option<PolarSensorSetting> {
    match m
    case ACC => s.acc.settings
    case GYRO => s.gyro.settings
    case MAG => s.mag.settings
    case PPG => s.ppg.settings
    case PPI => s.ppi.settings
    case HR => s.hr.settings
    case TEMPERATURE => s.temp.settings
    case SKIN_TEMPERATURE => s.skinTemp.settings
  }

  function SampleCount(s: AccumulatorState, m: Modality): nat {
    match m
    case ACC => |s.acc.samples|
    case GYRO => |s.gyro.samples|
    case MAG => |s.mag.samples|
    case PPG => |s.ppg.samples|
    case PPI => |s.ppi.samples|
    case HR => |s.hr.samples|
    case TEMPERATURE => |s.temp.samples|
    case SKIN_TEMPERATURE => |s.skinTemp.samples|
  }

  /** The track of a modality whose samples are copied field by field: all but PPG and HR. */
  function PlainTrack(s: AccumulatorState, m: Modality): Track<Sample>
    requires m != PPG && m != HR
  {
    if m == ACC then s.acc else if m == GYRO then s.gyro else if m == MAG then s.mag
    else if m == PPI then s.ppi else if m == TEMPERATURE then s.temp else s.skinTemp
  }

  lemma PlainTrackCount(s: AccumulatorState, m: Modality)
    requires m != PPG && m != HR
    ensures SampleCount(s, m) == |PlainTrack(s, m).samples| && StartOf(s, m) == PlainTrack(s, m).startTime
    ensures SettingsOf(s, m) == PlainTrack(s, m).settings
  {
  }

  /** Modality `n` has the same track, samples, start time and settings, in `s` and `t`. */
  predicate SameTrack(s: AccumulatorState, t: AccumulatorState, n: Modality) {
    match n
    case ACC => t.acc == s.acc
    case GYRO => t.gyro == s.gyro
    case MAG => t.mag == s.mag
    case PPG => t.ppg == s.ppg
    case PPI => t.ppi == s.ppi
    case HR => t.hr == s.hr
    case TEMPERATURE => t.temp == s.temp
    case SKIN_TEMPERATURE => t.skinTemp == s.skinTemp
  }

  /**
   * What `accumulate` does to the modality of its chunk: the first chunk fixes the start
   * time (and the settings, the default ones when the chunk has none), every chunk appends
   * its mapped samples; all other modalities and the empty-data start time stay as they were.
   */
  lemma ApplyShape(s: AccumulatorState, chunk: OfflineChunk, m: Modality)
    requires ModalityOf(chunk.data) == Some(m)
    ensures Apply(s, chunk).1.None?
    ensures StartOf(Apply(s, chunk).0, m) == if StartOf(s, m).Some? then StartOf(s, m) else Some(chunk.startTime)
    ensures SettingsOf(Apply(s, chunk).0, m) ==
      if StartOf(s, m).None? && NeedsSettings(m) then Some(chunk.recordingSettings.GetOr(DefaultSensorSetting)) else SettingsOf(s, m)
    ensures SampleCount(Apply(s, chunk).0, m) == SampleCount(s, m) + ChunkCount(chunk.data)
    ensures forall n :: n != m ==>
      StartOf(Apply(s, chunk).0, n) == StartOf(s, n) && SettingsOf(Apply(s, chunk).0, n) == SettingsOf(s, n) &&
      SampleCount(Apply(s, chunk).0, n) == SampleCount(s, n)
    ensures Apply(s, chunk).0.emptyStartTime == s.emptyStartTime
    ensures Apply(s, chunk).0.ppgType == if m == PPG then LastType(chunk.data.frames, s.ppgType) else s.ppgType
    ensures m == PPG ==> Apply(s, chunk).0.ppg.samples == s.ppg.samples + MappedFrames(chunk.data.frames)
    ensures m == HR ==> Apply(s, chunk).0.hr.samples == s.hr.samples + MapHrAll(chunk.data.hrSamples)
    ensures m != PPG && m != HR ==> PlainTrack(Apply(s, chunk).0, m).samples == PlainTrack(s, m).samples + chunk.data.samples
    ensures forall n :: n != m ==> SameTrack(s, Apply(s, chunk).0, n)
  {
    ApplyTracks(s, chunk, m);
    if m != PPG && m != HR {
      PlainTrackCount(s, m);
      PlainTrackCount(Apply(s, chunk).0, m);
    }
    forall n | n != m
      ensures StartOf(Apply(s, chunk).0, n) == StartOf(s, n) && SettingsOf(Apply(s, chunk).0, n) == SettingsOf(s, n) &&
        SampleCount(Apply(s, chunk).0, n) == SampleCount(s, n)
    {
      SameTrackSameFields(s, Apply(s, chunk).0, n);
    }
  }

  lemma SameTrackSameFields(s: AccumulatorState, t: AccumulatorState, n: Modality)
    requires SameTrack(s, t, n)
    ensures StartOf(t, n) == StartOf(s, n) && SettingsOf(t, n) == SettingsOf(s, n) && SampleCount(t, n) == SampleCount(s, n)
  {
  }

  /**
   * The samples `accumulate` appends to the chunk's modality: the PPG frames and HR samples
   * mapped, the others as they are; every other modality keeps its whole track.
   */
  lemma ApplyTracks(s: AccumulatorState, chunk: OfflineChunk, m: Modality)
    requires ModalityOf(chunk.data) == Some(m)
    ensures m == PPG ==> Apply(s, chunk).0.ppg.samples == s.ppg.samples + MappedFrames(chunk.data.frames)
    ensures m == HR ==> Apply(s, chunk).0.hr.samples == s.hr.samples + MapHrAll(chunk.data.hrSamples)
    ensures m != PPG && m != HR ==> PlainTrack(Apply(s, chunk).0, m).samples == PlainTrack(s, m).samples + chunk.data.samples
    ensures forall n :: n != m ==> SameTrack(s, Apply(s, chunk).0, n)
  {
    match chunk.data
    case AccData(_) =>
    case GyrData(_) =>
    case MagData(_) =>
    case PpgData(_) =>
    case PpiData(_) =>
    case OfflineHrData(_) =>
    case TemperatureData(_) =>
    case SkinTemperatureData(_) =>
  }

  /** An empty-data chunk only records its start time, and only the first one does. */
  lemma EmptyChunkOnlyStarts(s: AccumulatorState, chunk: OfflineChunk)
    requires chunk.data.EmptyData?
    ensures Apply(s, chunk).1.None?
    ensures Apply(s, chunk).0 == s.(emptyStartTime := Some(s.emptyStartTime.GetOr(chunk.startTime)))
  {
  }

  /** Any other payload throws and changes nothing. */
  lemma UnsupportedChunkThrows(s: AccumulatorState, chunk: OfflineChunk)
    requires chunk.data.UnsupportedData?
    ensures Apply(s, chunk) == (s, Some(PolarOfflineRecordingError(UnsupportedMessage)))
  {
  }

  /** `accumulate` over a run of chunks, stopping at the first that throws. */
  function AccumulateAll(s: AccumulatorState, chunks: seq<OfflineChunk>): (AccumulatorState, Option<PolarError>) {
    if chunks == [] then (s, None)
    else
      var (t, err) := AccumulateAll(s, chunks[..|chunks| - 1]);
      if err.Some? then (t, err) else Apply(t, chunks[|chunks| - 1])
  }

  /** The samples of a run's field-by-field chunks, in arrival order. */
  function AllPlain(chunks: seq<OfflineChunk>): seq<Sample> {
    if chunks == [] then []
    else
      var d := chunks[|chunks| - 1].data;
      AllPlain(chunks[..|chunks| - 1]) + (if d.PpgData? || d.OfflineHrData? || d.EmptyData? || d.UnsupportedData? then [] else d.samples)
  }

  /** The mapped PPG samples of a run, in arrival order. */
  function AllFrames(chunks: seq<OfflineChunk>): seq<PpgSample> {
    if chunks == [] then []
    else
      var d := chunks[|chunks| - 1].data;
      AllFrames(chunks[..|chunks| - 1]) + (if d.PpgData? then MappedFrames(d.frames) else [])
  }

  /** The mapped HR samples of a run, in arrival order. */
  function AllHr(chunks: seq<OfflineChunk>): seq<HrSample> {
    if chunks == [] then []
    else
      var d := chunks[|chunks| - 1].data;
      AllHr(chunks[..|chunks| - 1]) + (if d.OfflineHrData? then MapHrAll(d.hrSamples) else [])
  }

  /**
   * Feeding a run of chunks of one modality to a state where that modality has not started:
   * nothing throws, its samples are the concatenation of the chunks' mapped samples in
   * arrival order, its start time and settings are the first chunk's, and every other
   * modality's track is left as it was.
   */
  lemma {:induction false} TrackIsConcatenation(s: AccumulatorState, m: Modality, chunks: seq<OfflineChunk>)
    requires StartOf(s, m).None? && SampleCount(s, m) == 0 && chunks != []
    requires forall i :: 0 <= i < |chunks| ==> ModalityOf(chunks[i].data) == Some(m)
    ensures AccumulateAll(s, chunks).1.None?
    ensures StartOf(AccumulateAll(s, chunks).0, m) == Some(chunks[0].startTime)
    ensures SettingsOf(AccumulateAll(s, chunks).0, m) ==
      if NeedsSettings(m) then Some(chunks[0].recordingSettings.GetOr(DefaultSensorSetting)) else SettingsOf(s, m)
    ensures m == PPG ==> AccumulateAll(s, chunks).0.ppg.samples == AllFrames(chunks)
    ensures m == HR ==> AccumulateAll(s, chunks).0.hr.samples == AllHr(chunks)
    ensures m != PPG && m != HR ==> PlainTrack(AccumulateAll(s, chunks).0, m).samples == AllPlain(chunks)
    ensures forall n :: n != m ==> SameTrack(s, AccumulateAll(s, chunks).0, n)
  {
    var init := chunks[..|chunks| - 1];
    var last := chunks[|chunks| - 1];
    assert ModalityOf(last.data) == Some(m);
    if init == [] {
      ApplyShape(s, last, m);
      if m != PPG && m != HR {
        PlainTrackCount(s, m);
      }
    } else {
      assert forall i :: 0 <= i < |init| ==> init[i] == chunks[i];
      TrackIsConcatenation(s, m, init);
      var t := AccumulateAll(s, init).0;
      ApplyShape(t, last, m);
      var u := Apply(t, last).0;
      forall n | n != m
        ensures SameTrack(s, u, n)
      {
        SameTrackTransitive(s, t, u, n);
      }
    }
  }

  lemma SameTrackTransitive(s: AccumulatorState, t: AccumulatorState, u: AccumulatorState, n: Modality)
    requires SameTrack(s, t, n) && SameTrack(t, u, n)
    ensures SameTrack(s, u, n)
  {
  }

  /** What `getResult` returns, one case per modality plus the empty recording. */
  datatype PolarOfflineRecordingData =
    | PpiRecording(timeStamp: nat, ppiSamples: seq<Sample>, startTime: nat)
    | PpgRecording(ppgType: PpgDataType, ppgSamples: seq<PpgSample>, startTime: nat, settings: PolarSensorSetting)
    | AccRecording(samples: seq<Sample>, startTime: nat, settings: PolarSensorSetting)
    | GyroRecording(samples: seq<Sample>, startTime: nat, settings: PolarSensorSetting)
    | MagRecording(samples: seq<Sample>, startTime: nat, settings: PolarSensorSetting)
    | HrRecording(hrSamples: seq<HrSample>, startTime: nat)
    | TemperatureRecording(timeStamp: nat, samples: seq<Sample>, startTime: nat)
    | SkinTemperatureRecording(timeStamp: nat, samples: seq<Sample>, startTime: nat)
    | EmptyRecording(startTime: nat)

  /** A modality can be returned: it has a start time, its settings (and for PPG a type) and a sample. */
  predicate Ready(s: AccumulatorState, m: Modality) {
    StartOf(s, m).Some? && SampleCount(s, m) > 0 &&
    (NeedsSettings(m) ==> SettingsOf(s, m).Some?) && (m == PPG ==> s.ppgType.Some?)
  }

  /**
   * The recording of a ready modality. PPI is stamped with its start time in whole seconds;
   * the temperatures with their last sample's timestamp.
   */
  function RecordingOf(s: AccumulatorState, m: Modality): PolarOfflineRecordingData
    requires Ready(s, m)
  {
    match m
    case PPI => PpiRecording(s.ppi.startTime.value / 1000, s.ppi.samples, s.ppi.startTime.value)
    case PPG => PpgRecording(s.ppgType.value, s.ppg.samples, s.ppg.startTime.value, s.ppg.settings.value)
    case ACC => AccRecording(s.acc.samples, s.acc.startTime.value, s.acc.settings.value)
    case GYRO => GyroRecording(s.gyro.samples, s.gyro.startTime.value, s.gyro.settings.value)
    case MAG => MagRecording(s.mag.samples, s.mag.startTime.value, s.mag.settings.value)
    case HR => HrRecording(s.hr.samples, s.hr.startTime.value)
    case TEMPERATURE =>
      TemperatureRecording(s.temp.samples[|s.temp.samples| - 1].timeStamp, s.temp.samples, s.temp.startTime.value)
    case SKIN_TEMPERATURE =>
      SkinTemperatureRecording(s.skinTemp.samples[|s.skinTemp.samples| - 1].timeStamp, s.skinTemp.samples, s.skinTemp.startTime.value)
  }

  /** `getResult`: the first ready modality in priority order, else the empty recording, else nothing. */
  function ResultOf(s: AccumulatorState): Option<PolarOfflineRecordingData> {
    if Ready(s, PPI) then Some(RecordingOf(s, PPI))
    else if Ready(s, PPG) then Some(RecordingOf(s, PPG))
    else if Ready(s, ACC) then Some(RecordingOf(s, ACC))
    else if Ready(s, GYRO) then Some(RecordingOf(s, GYRO))
    else if Ready(s, MAG) then Some(RecordingOf(s, MAG))
    else if Ready(s, HR) then Some(RecordingOf(s, HR))
    else if Ready(s, TEMPERATURE) then Some(RecordingOf(s, TEMPERATURE))
    else if Ready(s, SKIN_TEMPERATURE) then Some(RecordingOf(s, SKIN_TEMPERATURE))
    else if s.emptyStartTime.Some? then Some(EmptyRecording(s.emptyStartTime.value))
    else None
  }

  /** The first ready modality of `order`. */
  function FirstReadyIn(s: AccumulatorState, order: seq<Modality>): (r: Option<Modality>)
    ensures r.Some? ==> exists i :: (0 <= i < |order| && order[i] == r.value && Ready(s, order[i]) &&
      forall j :: 0 <= j < i ==> !Ready(s, order[j]))
    ensures r.None? <==> forall m :: m in order ==> !Ready(s, m)
  {
    if order == [] then None
    else if Ready(s, order[0]) then Some(order[0])
    else
      var r := FirstReadyIn(s, order[1..]);
      if r.Some? then
        var i :| 0 <= i < |order[1..]| && order[1..][i] == r.value && Ready(s, order[1..][i]) &&
          forall j :: 0 <= j < i ==> !Ready(s, order[1..][j]);
        assert order[i + 1] == r.value;
        assert forall j :: 0 <= j < i + 1 ==> !Ready(s, order[j]) by {
          forall j | 0 <= j < i + 1
            ensures !Ready(s, order[j])
          {
            if j > 0 {
              assert order[j] == order[1..][j - 1];
            }
          }
        }
        r
      else
        assert forall m :: m in order ==> m == order[0] || m in order[1..];
        r
  }

  lemma FirstReadyAt(s: AccumulatorState, order: seq<Modality>, k: nat)
    requires k < |order| && Ready(s, order[k])
    requires forall j :: 0 <= j < k ==> !Ready(s, order[j])
    ensures FirstReadyIn(s, order) == Some(order[k])
  {
    var r := FirstReadyIn(s, order);
    var i :| 0 <= i < |order| && order[i] == r.value && Ready(s, order[i]) && forall j :: 0 <= j < i ==> !Ready(s, order[j]);
  }

  /**
   * The `getResult` chain is the priority order: the first ready modality of ResultPriority,
   * else the empty recording when an empty-data chunk arrived, else nothing.
   */
  lemma ResultFollowsPriority(s: AccumulatorState)
    ensures FirstReadyIn(s, ResultPriority).Some? ==>
      ResultOf(s) == Some(RecordingOf(s, FirstReadyIn(s, ResultPriority).value))
    ensures FirstReadyIn(s, ResultPriority).None? ==>
      ResultOf(s) == if s.emptyStartTime.Some? then Some(EmptyRecording(s.emptyStartTime.value)) else None
  {
    var r := FirstReadyIn(s, ResultPriority);
    if r.Some? {
      ResultOfFirstReady(s, r.value);
    } else {
      assert forall m :: m in ResultPriority ==> !Ready(s, m);
      ResultOfNoneReady(s);
    }
  }

  lemma ResultOfFirstReady(s: AccumulatorState, m: Modality)
    requires FirstReadyIn(s, ResultPriority) == Some(m)
    ensures Ready(s, m) && ResultOf(s) == Some(RecordingOf(s, m))
  {
    var o := ResultPriority;
    var i :| 0 <= i < |o| && o[i] == m && Ready(s, o[i]) && forall j :: 0 <= j < i ==> !Ready(s, o[j]);
    PriorityIndexIsUnique(m, i);
    assert o[0] == PPI && o[1] == PPG && o[2] == ACC && o[3] == GYRO;
    assert o[4] == MAG && o[5] == HR && o[6] == TEMPERATURE;
  }

  lemma ResultOfNoneReady(s: AccumulatorState)
    requires forall m :: m in ResultPriority ==> !Ready(s, m)
    ensures ResultOf(s) == if s.emptyStartTime.Some? then Some(EmptyRecording(s.emptyStartTime.value)) else None
  {
    var o := ResultPriority;
    assert o[0] in o && o[1] in o && o[2] in o && o[3] in o;
    assert o[4] in o && o[5] in o && o[6] in o && o[7] in o;
  }

  /**
   * The state every run of `accumulate` from a fresh object keeps: a modality with samples
   * has a start time, settings come exactly with the start time, and the PPG type is set
   * exactly when there are PPG samples.
   */
  predicate Coherent(s: AccumulatorState) {
    (forall m :: SampleCount(s, m) > 0 ==> StartOf(s, m).Some?) &&
    (forall m :: NeedsSettings(m) ==> (StartOf(s, m).Some? <==> SettingsOf(s, m).Some?)) &&
    (s.ppgType.Some? <==> |s.ppg.samples| > 0)
  }

  lemma FreshIsCoherent()
    ensures Coherent(Fresh) && ResultOf(Fresh) == None
  {
    assert forall m :: SampleCount(Fresh, m) == 0 && StartOf(Fresh, m).None?;
  }

  /** On a coherent state a modality is ready exactly when it has a sample. */
  lemma CoherentReady(s: AccumulatorState, m: Modality)
    requires Coherent(s)
    ensures Ready(s, m) <==> SampleCount(s, m) > 0
  {
  }

  /** `accumulate` keeps the state coherent. */
  lemma AccumulateKeepsCoherent(s: AccumulatorState, chunk: OfflineChunk)
    requires Coherent(s)
    ensures Coherent(Apply(s, chunk).0)
  {
    var t := Apply(s, chunk).0;
    if ModalityOf(chunk.data).Some? {
      var m := ModalityOf(chunk.data).value;
      ApplyShape(s, chunk, m);
      forall n
        ensures SampleCount(t, n) > 0 ==> StartOf(t, n).Some?
        ensures NeedsSettings(n) ==> (StartOf(t, n).Some? <==> SettingsOf(t, n).Some?)
      {
      }
      if chunk.data.PpgData? {
        MappedFramesEmptyIff(chunk.data.frames);
        LastTypeIsLastKnownFrame(chunk.data.frames, s.ppgType);
        assert |t.ppg.samples| == |s.ppg.samples| + |MappedFrames(chunk.data.frames)|;
      } else {
        assert t.ppg == s.ppg;
      }
    } else {
      assert t.(emptyStartTime := s.emptyStartTime) == s;
      forall n
        ensures SampleCount(t, n) == SampleCount(s, n) && StartOf(t, n) == StartOf(s, n) && SettingsOf(t, n) == SettingsOf(s, n)
      {
      }
    }
  }

  /**
   * On a coherent state `getResult` returns nothing exactly when no modality has a sample
   * and no empty-data chunk arrived, and a modality's recording exactly when it is the first
   * in priority order with a sample.
   */
  lemma CoherentResult(s: AccumulatorState, m: Modality)
    requires Coherent(s)
    ensures ResultOf(s).None? <==> (forall n :: SampleCount(s, n) == 0) && s.emptyStartTime.None?
    ensures FirstReadyIn(s, ResultPriority) == Some(m) <==>
      SampleCount(s, m) > 0 && forall k :: 0 <= k < PriorityIndex(m) ==> SampleCount(s, ResultPriority[k]) == 0
  {
    CoherentResultNone(s);
    CoherentFirstReady(s, m);
  }

  lemma CoherentResultNone(s: AccumulatorState)
    requires Coherent(s)
    ensures ResultOf(s).None? <==> (forall n :: SampleCount(s, n) == 0) && s.emptyStartTime.None?
  {
    ResultFollowsPriority(s);
    ResultPriorityListsEveryModalityOnce();
    forall n
      ensures Ready(s, n) <==> SampleCount(s, n) > 0
    {
      CoherentReady(s, n);
    }
  }

  lemma CoherentFirstReady(s: AccumulatorState, m: Modality)
    requires Coherent(s)
    ensures FirstReadyIn(s, ResultPriority) == Some(m) <==>
      SampleCount(s, m) > 0 && forall k :: 0 <= k < PriorityIndex(m) ==> SampleCount(s, ResultPriority[k]) == 0
  {
    var o := ResultPriority;
    var j := PriorityIndex(m);
    if SampleCount(s, m) > 0 && forall k :: 0 <= k < j ==> SampleCount(s, o[k]) == 0 {
      forall k | 0 <= k < j
        ensures !Ready(s, o[k])
      {
        CoherentReady(s, o[k]);
      }
      CoherentReady(s, m);
      FirstReadyAt(s, o, j);
    }
    if FirstReadyIn(s, o) == Some(m) {
      var i :| 0 <= i < |o| && o[i] == m && Ready(s, o[i]) && forall k :: 0 <= k < i ==> !Ready(s, o[k]);
      PriorityIndexIsUnique(m, i);
      forall k | 0 <= k < j
        ensures SampleCount(s, o[k]) == 0
      {
        CoherentReady(s, o[k]);
      }
    }
  }

  /**
   * The accumulator object, one Track field per modality, reassigned in place by
   * `Accumulate`.
   */
  class EfficientOfflineAccumulator {
    var acc: Track<Sample>
    var gyro: Track<Sample>
    var mag: Track<Sample>
    var ppg: Track<PpgSample>
    var ppgType: Option<PpgDataType>
    var ppi: Track<Sample>
    var hr: Track<HrSample>
    var temp: Track<Sample>
    var skinTemp: Track<Sample>
    var emptyStartTime: Option<nat>

    function State(): AccumulatorState
      reads this
    {
      AccumulatorState(acc, gyro, mag, ppg, ppgType, ppi, hr, temp, skinTemp, emptyStartTime)
    }

    constructor ()
      ensures State() == Fresh
    {
      acc, gyro, mag := Track([], None, None), Track([], None, None), Track([], None, None);
      ppg, ppgType := Track([], None, None), None;
      ppi, hr := Track([], None, None), Track([], None, None);
      temp, skinTemp := Track([], None, None), Track([], None, None);
      emptyStartTime := None;
    }

    /** `accumulate`: map and append one chunk; the error is what the source throws. */
    method Accumulate(chunk: OfflineChunk) returns (err: Option<PolarError>)
      modifies this
      ensures (State(), err) == Apply(old(State()), chunk)
    {
      var settings := chunk.recordingSettings.GetOr(DefaultSensorSetting);
      var startTime := chunk.startTime;
      match chunk.data {
        case AccData(xs) =>
          if acc.startTime.None? {
            acc := acc.(startTime := Some(startTime), settings := Some(settings));
          }
          var grown := AppendAll(acc.samples, xs);
          acc := acc.(samples := grown);
        case GyrData(xs) =>
          if gyro.startTime.None? {
            gyro := gyro.(startTime := Some(startTime), settings := Some(settings));
          }
          var grown := AppendAll(gyro.samples, xs);
          gyro := gyro.(samples := grown);
        case MagData(xs) =>
          if mag.startTime.None? {
            mag := mag.(startTime := Some(startTime), settings := Some(settings));
          }
          var grown := AppendAll(mag.samples, xs);
          mag := mag.(samples := grown);
        case PpgData(fs) =>
          if ppg.startTime.None? {
            ppg := ppg.(startTime := Some(startTime), settings := Some(settings));
          }
          var grown, t := AppendFrames(ppg.samples, ppgType, fs);
          ppg, ppgType := ppg.(samples := grown), t;
        case PpiData(xs) =>
          if ppi.startTime.None? {
            ppi := ppi.(startTime := Some(startTime));
          }
          var grown := AppendAll(ppi.samples, xs);
          ppi := ppi.(samples := grown);
        case OfflineHrData(xs) =>
          if hr.startTime.None? {
            hr := hr.(startTime := Some(startTime));
          }
          var grown := AppendHr(hr.samples, xs);
          hr := hr.(samples := grown);
        case TemperatureData(xs) =>
          if temp.startTime.None? {
            temp := temp.(startTime := Some(startTime));
          }
          var grown := AppendAll(temp.samples, xs);
          temp := temp.(samples := grown);
        case SkinTemperatureData(xs) =>
          if skinTemp.startTime.None? {
            skinTemp := skinTemp.(startTime := Some(startTime));
          }
          var grown := AppendAll(skinTemp.samples, xs);
          skinTemp := skinTemp.(samples := grown);
        case EmptyData =>
          if emptyStartTime.None? {
            emptyStartTime := Some(startTime);
          }
        case UnsupportedData =>
          return Some(PolarOfflineRecordingError(UnsupportedMessage));
      }
      return None;
    }

    /** `getResult`: read-only. */
    function GetResult(): (r: Option<PolarOfflineRecordingData>)
      reads this
      ensures r == ResultOf(State())
      ensures Coherent(State()) ==> (r.None? <==> (forall m :: SampleCount(State(), m) == 0) && emptyStartTime.None?)
    {
      assert Coherent(State()) ==> (ResultOf(State()).None? <==> (forall m :: SampleCount(State(), m) == 0) && emptyStartTime.None?) by {
        if Coherent(State()) {
          CoherentResultNone(State());
        }
      }
      ResultOf(State())
    }
  }
}
