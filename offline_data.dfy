/**
 * The values offline recordings are made of, shared by the Android and iOS accumulators.
 */
module OfflineRecordingData {

  /**
   * The recording settings of a sensor (`PolarSensorSetting`): each setting type with its
   * allowed values. The default `PolarSensorSetting()` has none.
   */
  datatype PolarSensorSetting = PolarSensorSetting(settings: map<string, seq<int>>)

  const DefaultSensorSetting := PolarSensorSetting(map[])

  /**
   * One sample as the SDK delivers it: its timestamp and its channel values. Float
   * readings (temperatures) are carried as opaque integers; nothing computes with them.
   */
  datatype Sample = Sample(timeStamp: nat, values: seq<int>)

  datatype PpgDataType = PPG3_AMBIENT1 | PPG1 | PPG17 | PPG21 | PPG3 | PPG2 | UNKNOWN_PPG_TYPE

  /** The sensor modalities an offline recording can hold. */
  datatype Modality = PPI | PPG | ACC | GYRO | MAG | HR | TEMPERATURE | SKIN_TEMPERATURE

  /** The order in which both accumulators pick the modality of their result. */
  const ResultPriority: seq<Modality> := [PPI, PPG, ACC, GYRO, MAG, HR, TEMPERATURE, SKIN_TEMPERATURE]

  /** The modalities whose recordings carry sensor settings. */
  predicate NeedsSettings(m: Modality) {
    m == ACC || m == GYRO || m == MAG || m == PPG
  }

  /** Where a modality stands in ResultPriority. */
  function PriorityIndex(m: Modality): (i: nat)
    ensures i < |ResultPriority| && ResultPriority[i] == m
  {
    match m
    case PPI => 0
    case PPG => 1
    case ACC => 2
    case GYRO => 3
    case MAG => 4
    case HR => 5
    case TEMPERATURE => 6
    case SKIN_TEMPERATURE => 7
  }

  /** A modality stands at one place only in ResultPriority. */
  lemma PriorityIndexIsUnique(m: Modality, j: int)
    requires 0 <= j < |ResultPriority| && ResultPriority[j] == m
    ensures j == PriorityIndex(m)
  {
  }

  lemma ResultPriorityListsEveryModalityOnce()
    ensures forall m: Modality :: m in ResultPriority
    ensures forall i, j :: 0 <= i < j < |ResultPriority| ==> ResultPriority[i] != ResultPriority[j]
  {
    forall m: Modality
      ensures m in ResultPriority
    {
      assert ResultPriority[PriorityIndex(m)] == m;
    }
  }
}
