/**
 * The Android offline-recording accumulator: sub-recording chunks of one recording are
 * merged, one growable sample buffer per modality, and the result is the first modality
 * present in a fixed priority order.
 */
module OfflineAccumulatorAndroid {
  import opened Wrappers
  import opened Errors
  import opened OfflineRecordingData

  /** The payload of one chunk, already mapped from PMD to SDK samples. */
  datatype ChunkData =
    | AccData(samples: seq<Sample>)
    | GyrData(samples: seq<Sample>)
    | MagData(samples: seq<Sample>)
    | PpgData(samples: seq<Sample>, ppgType: PpgDataType)
    | PpiData(samples: seq<Sample>)
    | OfflineHrData(samples: seq<Sample>)
    | TemperatureData(samples: seq<Sample>)
    | SkinTemperatureData(samples: seq<Sample>)
      /** Any other payload type. */
    | UnsupportedData

  /** One sub-recording: its payload, start time and (possibly missing) settings. */
  datatype OfflineChunk = OfflineChunk(data: ChunkData, startTime: int, recordingSettings: Option<PolarSensorSetting>)

  /**
   * The nullable fields the class keeps for one modality: the sample list, the settings
   * (only ACC, GYRO, MAG and PPG have one) and the start time.
   */
  datatype Buffer = Buffer(samples: Option<seq<Sample>>, settings: Option<PolarSensorSetting>, startTime: Option<int>)

  const Unset := Buffer(None, None, None)

  /** All the fields of the accumulator, as one value. */
  datatype AccumulatorState = AccumulatorState(
    acc: Buffer, gyro: Buffer, mag: Buffer, ppg: Buffer, ppgType: Option<PpgDataType>,
    ppi: Buffer, hr: Buffer, temp: Buffer, skinTemp: Buffer)

  const Fresh := AccumulatorState(Unset, Unset, Unset, Unset, None, Unset, Unset, Unset, Unset)

  function BufferOf(s: AccumulatorState, m: Modality): Buffer {
    match m
    case ACC => s.acc
    case GYRO => s.gyro
    case MAG => s.mag
    case PPG => s.ppg
    case PPI => s.ppi
    case HR => s.hr
    case TEMPERATURE => s.temp
    case SKIN_TEMPERATURE => s.skinTemp
  }

  function ModalityOf(d: ChunkData): Option<Modality> {
    match d
    case AccData(_) => Some(ACC)
    case GyrData(_) => Some(GYRO)
    case MagData(_) => Some(MAG)
    case PpgData(_, _) => Some(PPG)
    case PpiData(_) => Some(PPI)
    case OfflineHrData(_) => Some(HR)
    case TemperatureData(_) => Some(TEMPERATURE)
    case SkinTemperatureData(_) => Some(SKIN_TEMPERATURE)
    case UnsupportedData => None
  }

  function SamplesOf(d: ChunkData): seq<Sample> {
    if d.UnsupportedData? then [] else d.samples
  }

  function MissingSettingsMessage(m: Modality): string {
    match m
    case ACC => "getOfflineRecord failed. Acc data is missing settings"
    case GYRO => "getOfflineRecord failed. Gyro data is missing settings"
    case MAG => "getOfflineRecord failed. Magnetometer data is missing settings"
    case _ => "getOfflineRecord failed. Ppg data is missing settings"
  }

  const UnsupportedMessage := "Data type is not supported."

  /**
   * One modality's part of `accumulate`: the first chunk assigns the sample list, then the
   * settings (failing, with the samples already firstFill, when a required one is missing),
   * then the start time; a later chunk only appends.
   */
  function Fill(b: Buffer, m: Modality, samples: seq<Sample>, chunk: OfflineChunk): (Buffer, Option<PolarError>) {
    if b.samples.None? then
      var firstFill := b.(samples := Some(samples));
      if NeedsSettings(m) then
        if chunk.recordingSettings.None? then (firstFill, Some(PolarOfflineRecordingError(MissingSettingsMessage(m))))
        else (firstFill.(settings := chunk.recordingSettings, startTime := Some(chunk.startTime)), None)
      else (firstFill.(startTime := Some(chunk.startTime)), None)
    else (b.(samples := Some(b.samples.value + samples)), None)
  }

  /** The state after `accumulate(chunk)`, and the error it throws, if any. */
  function Apply(s: AccumulatorState, chunk: OfflineChunk): (AccumulatorState, Option<PolarError>) {
    match chunk.data
    case AccData(x) => var (b, err) := Fill(s.acc, ACC, x, chunk); (s.(acc := b), err)
    case GyrData(x) => var (b, err) := Fill(s.gyro, GYRO, x, chunk); (s.(gyro := b), err)
    case MagData(x) => var (b, err) := Fill(s.mag, MAG, x, chunk); (s.(mag := b), err)
    case PpgData(x, t) => var (b, err) := Fill(s.ppg, PPG, x, chunk); (s.(ppg := b, ppgType := Some(t)), err)
    case PpiData(x) => var (b, err) := Fill(s.ppi, PPI, x, chunk); (s.(ppi := b), err)
    case OfflineHrData(x) => var (b, err) := Fill(s.hr, HR, x, chunk); (s.(hr := b), err)
    case TemperatureData(x) => var (b, err) := Fill(s.temp, TEMPERATURE, x, chunk); (s.(temp := b), err)
    case SkinTemperatureData(x) => var (b, err) := Fill(s.skinTemp, SKIN_TEMPERATURE, x, chunk); (s.(skinTemp := b), err)
    case UnsupportedData => (s, Some(PolarOfflineRecordingError(UnsupportedMessage)))
  }

  /** What `getResult` builds: one modality's samples with its start time and settings. */
  datatype PolarOfflineRecording = PolarOfflineRecording(
    modality: Modality, samples: seq<Sample>, startTime: int,
    settings: Option<PolarSensorSetting>, ppgType: Option<PpgDataType>)

  /** `getResult` dereferences with `!!`; a null there throws. */
  datatype Crash = NullPointerException

  /** The first modality of `order` whose sample list is non-null. */
  function FirstBufferedIn(s: AccumulatorState, order: seq<Modality>): (r: Option<Modality>)
    ensures r.Some? ==> r.value in order && BufferOf(s, r.value).samples.Some?
    ensures r.Some? ==> exists i :: (0 <= i < |order| && order[i] == r.value &&
      forall j :: 0 <= j < i ==> BufferOf(s, order[j]).samples.None?)
    ensures r.None? <==> forall m :: m in order ==> BufferOf(s, m).samples.None?
  {
    if order == [] then None
    else if BufferOf(s, order[0]).samples.Some? then
      Some(order[0])
    else
      var r := FirstBufferedIn(s, order[1..]);
      if r.Some? then
        var i :| 0 <= i < |order[1..]| && order[1..][i] == r.value && forall j :: 0 <= j < i ==> BufferOf(s, order[1..][j]).samples.None?;
        assert order[i + 1] == r.value;
        assert forall j :: 0 <= j < i + 1 ==> BufferOf(s, order[j]).samples.None? by {
          forall j | 0 <= j < i + 1
            ensures BufferOf(s, order[j]).samples.None?
          {
            if j > 0 {
              assert order[j] == order[1..][j - 1];
            }
          }
        }
        r
      else
        assert forall m :: m in order ==> m == order[0] || m in order[1..];
        r
  }

  /**
   * The recording `getResult` builds from modality `m`'s fields; each `!!` on a null field
   * is a crash. MAG passes its settings on as nullable; PPI, HR and the temperatures carry none.
   */
  function Pick(s: AccumulatorState, m: Modality): Result<Option<PolarOfflineRecording>, Crash>
    requires BufferOf(s, m).samples.Some?
  {
    var b := BufferOf(s, m);
    if b.startTime.None? then Err(NullPointerException)
    else if m == PPG then
      if s.ppgType.None? then Err(NullPointerException)
      else Ok(Some(PolarOfflineRecording(PPG, b.samples.value, b.startTime.value, b.settings, s.ppgType)))
    else if m == ACC || m == GYRO then
      if b.settings.None? then Err(NullPointerException)
      else Ok(Some(PolarOfflineRecording(m, b.samples.value, b.startTime.value, b.settings, None)))
    else if m == MAG then Ok(Some(PolarOfflineRecording(MAG, b.samples.value, b.startTime.value, b.settings, None)))
    else Ok(Some(PolarOfflineRecording(m, b.samples.value, b.startTime.value, None, None)))
  }

  /**
   * `getResult`: the first non-null sample list in the order PPI, PPG, ACC, GYRO, MAG, HR,
   * temperature, skin temperature wins, even when it is empty.
   */
  function ResultOf(s: AccumulatorState): Result<Option<PolarOfflineRecording>, Crash> {
    if s.ppi.samples.Some? then Pick(s, PPI)
    else if s.ppg.samples.Some? then Pick(s, PPG)
    else if s.acc.samples.Some? then Pick(s, ACC)
    else if s.gyro.samples.Some? then Pick(s, GYRO)
    else if s.mag.samples.Some? then Pick(s, MAG)
    else if s.hr.samples.Some? then Pick(s, HR)
    else if s.temp.samples.Some? then Pick(s, TEMPERATURE)
    else if s.skinTemp.samples.Some? then Pick(s, SKIN_TEMPERATURE)
    else Ok(None)
  }

  /** The first non-null position is unique: whatever characterises it is FirstBufferedIn's answer. */
  lemma FirstBufferedAt(s: AccumulatorState, order: seq<Modality>, k: nat)
    requires k < |order| && BufferOf(s, order[k]).samples.Some?
    requires forall j :: 0 <= j < k ==> BufferOf(s, order[j]).samples.None?
    ensures FirstBufferedIn(s, order) == Some(order[k])
  {
    var r := FirstBufferedIn(s, order);
    assert r.Some?;
    var i :| 0 <= i < |order| && order[i] == r.value && forall j :: 0 <= j < i ==> BufferOf(s, order[j]).samples.None?;
  }

  /**
   * The `getResult` chain is the priority order: nothing when every list is null, otherwise
   * the recording of the first modality in ResultPriority whose list is non-null.
   */
  lemma ResultFollowsPriority(s: AccumulatorState)
    ensures FirstBufferedIn(s, ResultPriority).None? ==> ResultOf(s) == Ok(None)
    ensures FirstBufferedIn(s, ResultPriority).Some? ==> ResultOf(s) == Pick(s, FirstBufferedIn(s, ResultPriority).value)
  {
    var o := ResultPriority;
    if s.ppi.samples.Some? {
      FirstBufferedAt(s, o, 0);
    } else if s.ppg.samples.Some? {
      FirstBufferedAt(s, o, 1);
    } else if s.acc.samples.Some? {
      FirstBufferedAt(s, o, 2);
    } else if s.gyro.samples.Some? {
      FirstBufferedAt(s, o, 3);
    } else if s.mag.samples.Some? {
      FirstBufferedAt(s, o, 4);
    } else if s.hr.samples.Some? {
      FirstBufferedAt(s, o, 5);
    } else if s.temp.samples.Some? {
      FirstBufferedAt(s, o, 6);
    } else if s.skinTemp.samples.Some? {
      FirstBufferedAt(s, o, 7);
    } else {
      forall m | m in o
        ensures BufferOf(s, m).samples.None?
      {
      }
    }
  }

  /** On a complete state, building the recording of a non-null modality never crashes. */
  lemma CompletePickDoesNotCrash(s: AccumulatorState, m: Modality)
    requires Complete(s) && BufferOf(s, m).samples.Some?
    ensures Pick(s, m).Ok? && Pick(s, m).value.Some?
    ensures Pick(s, m).value.value.modality == m && Pick(s, m).value.value.samples == BufferOf(s, m).samples.value
  {
    assert BufferComplete(BufferOf(s, m), m);
    if m == PPG {
      assert s.ppgType.Some?;
    }
  }

  /**
   * The state every successful `accumulate` leaves: a non-null sample list comes with its
   * start time, with its settings when the modality needs them, and PPG with its type.
   */
  predicate Complete(s: AccumulatorState) {
    (forall m :: BufferComplete(BufferOf(s, m), m)) && (s.ppg.samples.Some? ==> s.ppgType.Some?)
  }

  predicate BufferComplete(b: Buffer, m: Modality) {
    b.samples.Some? ==> b.startTime.Some? && (NeedsSettings(m) ==> b.settings.Some?)
  }

  /** One modality's fill keeps its buffer complete whenever it does not throw. */
  lemma FillKeepsComplete(b: Buffer, m: Modality, x: seq<Sample>, chunk: OfflineChunk)
    requires BufferComplete(b, m) && Fill(b, m, x, chunk).1.None?
    ensures BufferComplete(Fill(b, m, x, chunk).0, m)
  {
  }

  /**
   * What `accumulate` does, modality by modality: the chunk's own buffer is filled, every
   * other buffer is left alone, and the PPG type follows the latest PPG chunk.
   */
  lemma ApplyShape(s: AccumulatorState, chunk: OfflineChunk, m: Modality)
    requires ModalityOf(chunk.data) == Some(m)
    ensures Apply(s, chunk).1 == Fill(BufferOf(s, m), m, SamplesOf(chunk.data), chunk).1
    ensures BufferOf(Apply(s, chunk).0, m) == Fill(BufferOf(s, m), m, SamplesOf(chunk.data), chunk).0
    ensures forall n :: n != m ==> BufferOf(Apply(s, chunk).0, n) == BufferOf(s, n)
    ensures Apply(s, chunk).0.ppgType == if m == PPG then Some(chunk.data.ppgType) else s.ppgType
  {
    match chunk.data
    case AccData(_) =>
    case GyrData(_) =>
    case MagData(_) =>
    case PpgData(_, _) =>
    case PpiData(_) =>
    case OfflineHrData(_) =>
    case TemperatureData(_) =>
    case SkinTemperatureData(_) =>
  }

  lemma OtherBuffersStayComplete(s: AccumulatorState, t: AccumulatorState, m: Modality)
    requires Complete(s) && BufferComplete(BufferOf(t, m), m) && (t.ppg.samples.Some? ==> t.ppgType.Some?)
    requires forall n :: n != m ==> BufferOf(t, n) == BufferOf(s, n)
    ensures Complete(t)
  {
    forall n
      ensures BufferComplete(BufferOf(t, n), n)
    {
      if n != m {
        assert BufferComplete(BufferOf(s, n), n);
      }
    }
  }

  /** `accumulate` keeps the state complete whenever it does not throw. */
  lemma AccumulateKeepsComplete(s: AccumulatorState, chunk: OfflineChunk)
    requires Complete(s) && Apply(s, chunk).1.None?
    ensures Complete(Apply(s, chunk).0)
  {
    if !chunk.data.UnsupportedData? {
      var m := ModalityOf(chunk.data).value;
      var t := Apply(s, chunk).0;
      ApplyShape(s, chunk, m);
      assert BufferComplete(BufferOf(s, m), m);
      FillKeepsComplete(BufferOf(s, m), m, SamplesOf(chunk.data), chunk);
      assert BufferComplete(BufferOf(s, PPG), PPG);
      OtherBuffersStayComplete(s, t, m);
    }
  }

  /**
   * On a complete state `getResult` never dereferences a null, and returns the recording of
   * the first modality in priority order that has a sample list.
   */
  lemma CompleteResultDoesNotCrash(s: AccumulatorState)
    ensures Complete(s) ==> ResultOf(s).Ok?
    ensures Complete(s) && FirstBufferedIn(s, ResultPriority).Some? ==>
      ResultOf(s).value.Some? && ResultOf(s).value.value.modality == FirstBufferedIn(s, ResultPriority).value
  {
    ResultFollowsPriority(s);
    if Complete(s) && FirstBufferedIn(s, ResultPriority).Some? {
      CompletePickDoesNotCrash(s, FirstBufferedIn(s, ResultPriority).value);
    }
  }

  /**
   * A first ACC, GYRO, MAG or PPG chunk without settings throws, after its samples have been
   * assigned; its start time stays null, so a later `getResult` that reaches it crashes.
   */
  lemma MissingSettingsThrowsAfterAssigning(s: AccumulatorState, chunk: OfflineChunk, m: Modality)
    requires ModalityOf(chunk.data) == Some(m) && NeedsSettings(m)
    requires BufferOf(s, m).samples.None? && chunk.recordingSettings.None?
    ensures Apply(s, chunk).1 == Some(PolarOfflineRecordingError(MissingSettingsMessage(m)))
    ensures BufferOf(Apply(s, chunk).0, m).samples == Some(SamplesOf(chunk.data))
    ensures BufferOf(Apply(s, chunk).0, m).startTime == BufferOf(s, m).startTime
  {
    match chunk.data
    case AccData(x) => FillWithoutSettings(s.acc, ACC, x, chunk);
    case GyrData(x) => FillWithoutSettings(s.gyro, GYRO, x, chunk);
    case MagData(x) => FillWithoutSettings(s.mag, MAG, x, chunk);
    case PpgData(x, _) => FillWithoutSettings(s.ppg, PPG, x, chunk);
  }

  /** A first fill of a modality that needs settings, from a chunk without them. */
  lemma FillWithoutSettings(b: Buffer, m: Modality, samples: seq<Sample>, chunk: OfflineChunk)
    requires b.samples.None? && NeedsSettings(m) && chunk.recordingSettings.None?
    ensures Fill(b, m, samples, chunk) == (b.(samples := Some(samples)), Some(PolarOfflineRecordingError(MissingSettingsMessage(m))))
  {
  }

  /** PPI, HR and temperature chunks never need settings: they never throw. */
  lemma SettingsFreeModalitiesNeverThrow(s: AccumulatorState, chunk: OfflineChunk)
    requires ModalityOf(chunk.data).Some? && !NeedsSettings(ModalityOf(chunk.data).value)
    ensures Apply(s, chunk).1.None?
  {
  }

  /** An unsupported payload throws and changes nothing. */
  lemma UnsupportedChunkThrows(s: AccumulatorState, chunk: OfflineChunk)
    requires chunk.data.UnsupportedData?
    ensures Apply(s, chunk) == (s, Some(PolarOfflineRecordingError(UnsupportedMessage)))
  {
  }

  /** `accumulate` over a run of chunks, stopping at the first that throws. */
  function AccumulateAll(s: AccumulatorState, chunks: seq<OfflineChunk>): (AccumulatorState, Option<PolarError>) {
    if chunks == [] then (s, None)
    else
      var (t, err) := AccumulateAll(s, chunks[..|chunks| - 1]);
      if err.Some? then (t, err) else Apply(t, chunks[|chunks| - 1])
  }

  /** The concatenation of the chunks' samples, in arrival order. */
  function AllSamples(chunks: seq<OfflineChunk>): seq<Sample> {
    if chunks == [] then [] else AllSamples(chunks[..|chunks| - 1]) + SamplesOf(chunks[|chunks| - 1].data)
  }

  /** Every chunk is of modality `m`, and carries settings when `m` needs them. */
  predicate Accepted(chunks: seq<OfflineChunk>, m: Modality) {
    forall i :: 0 <= i < |chunks| ==>
      ModalityOf(chunks[i].data) == Some(m) && (NeedsSettings(m) ==> chunks[i].recordingSettings.Some?)
  }

  /**
   * Merging a run of chunks of one modality into an empty buffer: nothing throws, the
   * buffer is the concatenation of all their samples in arrival order, and the start time
   * and settings are the first chunk's.
   */
  lemma {:induction false} BufferIsConcatenation(s: AccumulatorState, m: Modality, chunks: seq<OfflineChunk>)
    requires BufferOf(s, m) == Unset && chunks != [] && Accepted(chunks, m)
    ensures AccumulateAll(s, chunks).1.None?
    ensures BufferOf(AccumulateAll(s, chunks).0, m).samples == Some(AllSamples(chunks))
    ensures BufferOf(AccumulateAll(s, chunks).0, m).startTime == Some(chunks[0].startTime)
    ensures BufferOf(AccumulateAll(s, chunks).0, m).settings == if NeedsSettings(m) then chunks[0].recordingSettings else None
  {
    var init := chunks[..|chunks| - 1];
    var last := chunks[|chunks| - 1];
    assert ModalityOf(last.data) == Some(m) && (NeedsSettings(m) ==> last.recordingSettings.Some?);
    if init == [] {
      ApplyShape(s, last, m);
      assert AllSamples(chunks) == chunks[0].data.samples by {
        assert AllSamples(init) == [];
      }
    } else {
      assert Accepted(init, m) by {
        forall i | 0 <= i < |init|
          ensures ModalityOf(init[i].data) == Some(m) && (NeedsSettings(m) ==> init[i].recordingSettings.Some?)
        {
          assert init[i] == chunks[i];
        }
      }
      BufferIsConcatenation(s, m, init);
      ApplyShape(AccumulateAll(s, init).0, last, m);
      assert init[0] == chunks[0];
    }
  }

  /**
   * A run of chunks from a complete state (the fresh accumulator is one) that throws nowhere
   * leaves a complete state, so `getResult` after it never crashes.
   */
  lemma {:induction false} SuccessfulRunIsComplete(s: AccumulatorState, chunks: seq<OfflineChunk>)
    requires Complete(s)
    ensures AccumulateAll(s, chunks).1.None? ==> Complete(AccumulateAll(s, chunks).0)
    ensures AccumulateAll(s, chunks).1.None? ==> ResultOf(AccumulateAll(s, chunks).0).Ok?
  {
    if chunks != [] {
      var init := chunks[..|chunks| - 1];
      SuccessfulRunIsComplete(s, init);
      var (t, err) := AccumulateAll(s, init);
      if err.None? && Apply(t, chunks[|chunks| - 1]).1.None? {
        AccumulateKeepsComplete(t, chunks[|chunks| - 1]);
      }
    }
    CompleteResultDoesNotCrash(AccumulateAll(s, chunks).0);
  }

  lemma FreshIsComplete()
    ensures Complete(Fresh) && ResultOf(Fresh) == Ok(None)
  {
  }

  /**
   * The accumulator object. Each modality's nullable fields are held as one Buffer field,
   * which `Accumulate` reassigns in place.
   */
  class EfficientOfflineAccumulator {
    var acc: Buffer
    var gyro: Buffer
    var mag: Buffer
    var ppg: Buffer
    var ppgType: Option<PpgDataType>
    var ppi: Buffer
    var hr: Buffer
    var temp: Buffer
    var skinTemp: Buffer

    function State(): AccumulatorState
      reads this
    {
      AccumulatorState(acc, gyro, mag, ppg, ppgType, ppi, hr, temp, skinTemp)
    }

    constructor ()
      ensures State() == Fresh
    {
      acc, gyro, mag, ppg, ppgType := Unset, Unset, Unset, Unset, None;
      ppi, hr, temp, skinTemp := Unset, Unset, Unset, Unset;
    }

    /** `accumulate`: merge one chunk; the error is what the source throws. */
    method Accumulate(chunk: OfflineChunk) returns (err: Option<PolarError>)
      modifies this
      ensures (State(), err) == Apply(old(State()), chunk)
    {
      match chunk.data {
        case AccData(samples) =>
          if acc.samples.None? {
            acc := acc.(samples := Some(samples));
            if chunk.recordingSettings.None? {
              return Some(PolarOfflineRecordingError(MissingSettingsMessage(ACC)));
            }
            acc := acc.(settings := chunk.recordingSettings, startTime := Some(chunk.startTime));
          } else {
            acc := acc.(samples := Some(acc.samples.value + samples));
          }
        case GyrData(samples) =>
          if gyro.samples.None? {
            gyro := gyro.(samples := Some(samples));
            if chunk.recordingSettings.None? {
              return Some(PolarOfflineRecordingError(MissingSettingsMessage(GYRO)));
            }
            gyro := gyro.(settings := chunk.recordingSettings, startTime := Some(chunk.startTime));
          } else {
            gyro := gyro.(samples := Some(gyro.samples.value + samples));
          }
        case MagData(samples) =>
          if mag.samples.None? {
            mag := mag.(samples := Some(samples));
            if chunk.recordingSettings.None? {
              return Some(PolarOfflineRecordingError(MissingSettingsMessage(MAG)));
            }
            mag := mag.(settings := chunk.recordingSettings, startTime := Some(chunk.startTime));
          } else {
            mag := mag.(samples := Some(mag.samples.value + samples));
          }
        case PpgData(samples, t) =>
          if ppg.samples.None? {
            ppg := ppg.(samples := Some(samples));
            ppgType := Some(t);
            if chunk.recordingSettings.None? {
              return Some(PolarOfflineRecordingError(MissingSettingsMessage(PPG)));
            }
            ppg := ppg.(settings := chunk.recordingSettings, startTime := Some(chunk.startTime));
          } else {
            ppg := ppg.(samples := Some(ppg.samples.value + samples));
            ppgType := Some(t);
          }
        case PpiData(samples) =>
          if ppi.samples.None? {
            ppi := ppi.(samples := Some(samples), startTime := Some(chunk.startTime));
          } else {
            ppi := ppi.(samples := Some(ppi.samples.value + samples));
          }
        case OfflineHrData(samples) =>
          if hr.samples.None? {
            hr := hr.(samples := Some(samples), startTime := Some(chunk.startTime));
          } else {
            hr := hr.(samples := Some(hr.samples.value + samples));
          }
        case TemperatureData(samples) =>
          if temp.samples.None? {
            temp := temp.(samples := Some(samples), startTime := Some(chunk.startTime));
          } else {
            temp := temp.(samples := Some(temp.samples.value + samples));
          }
        case SkinTemperatureData(samples) =>
          if skinTemp.samples.None? {
            skinTemp := skinTemp.(samples := Some(samples), startTime := Some(chunk.startTime));
          } else {
            skinTemp := skinTemp.(samples := Some(skinTemp.samples.value + samples));
          }
        case UnsupportedData =>
          return Some(PolarOfflineRecordingError(UnsupportedMessage));
      }
      return None;
    }

    /** `getResult`: read-only; a crash is the NullPointerException of a `!!`. */
    function GetResult(): (r: Result<Option<PolarOfflineRecording>, Crash>)
      reads this
      ensures r == ResultOf(State())
      ensures Complete(State()) ==> r.Ok?
    {
      CompleteResultDoesNotCrash(State());
      ResultOf(State())
    }
  }
}
