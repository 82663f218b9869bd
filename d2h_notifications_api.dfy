/**
 * The closed table of device-to-host notification kinds and the value a received
 * notification is delivered as.
 */
module D2HNotificationsApi {
  import opened Wrappers


  datatype PolarDeviceToHostNotification =
    | FILESYSTEM_MODIFIED
    | INTERNAL_TEST_EVENT
    | IDLING
    | BATTERY_STATUS
    | INACTIVITY_ALERT
    | TRAINING_SESSION_STATUS
    | SYNC_REQUIRED
    | AUTOSYNC_STATUS
    | PNS_DH_NOTIFICATION_RESPONSE
    | PNS_SETTINGS
    | START_GPS_MEASUREMENT
    | STOP_GPS_MEASUREMENT
    | KEEP_BACKGROUND_ALIVE
    | POLAR_SHELL_DH_DATA
    | MEDIA_CONTROL_REQUEST_DH
    | MEDIA_CONTROL_COMMAND_DH
    | MEDIA_CONTROL_ENABLED
    | REST_API_EVENT
    | EXERCISE_STATUS

  /** The numeric code the device sends for each kind. */
  function Value(k: PolarDeviceToHostNotification): int {
    match k
    case FILESYSTEM_MODIFIED => 0
    case INTERNAL_TEST_EVENT => 1
    case IDLING => 2
    case BATTERY_STATUS => 3
    case INACTIVITY_ALERT => 4
    case TRAINING_SESSION_STATUS => 5
    case SYNC_REQUIRED => 7
    case AUTOSYNC_STATUS => 8
    case PNS_DH_NOTIFICATION_RESPONSE => 9
    case PNS_SETTINGS => 10
    case START_GPS_MEASUREMENT => 11
    case STOP_GPS_MEASUREMENT => 12
    case KEEP_BACKGROUND_ALIVE => 13
    case POLAR_SHELL_DH_DATA => 14
    case MEDIA_CONTROL_REQUEST_DH => 15
    case MEDIA_CONTROL_COMMAND_DH => 16
    case MEDIA_CONTROL_ENABLED => 17
    case REST_API_EVENT => 18
    case EXERCISE_STATUS => 19
  }

  /** The kinds in declaration order, as `values()` enumerates them. */
  const AllKinds: seq<PolarDeviceToHostNotification> := [
    FILESYSTEM_MODIFIED, INTERNAL_TEST_EVENT, IDLING, BATTERY_STATUS, INACTIVITY_ALERT,
    TRAINING_SESSION_STATUS, SYNC_REQUIRED, AUTOSYNC_STATUS, PNS_DH_NOTIFICATION_RESPONSE,
    PNS_SETTINGS, START_GPS_MEASUREMENT, STOP_GPS_MEASUREMENT, KEEP_BACKGROUND_ALIVE,
    POLAR_SHELL_DH_DATA, MEDIA_CONTROL_REQUEST_DH, MEDIA_CONTROL_COMMAND_DH,
    MEDIA_CONTROL_ENABLED, REST_API_EVENT, EXERCISE_STATUS]

  /** `values().find { it.value == value }`: the first kind in `kinds` carrying `value`. */
  function Find(kinds: seq<PolarDeviceToHostNotification>, value: int): (r: Option<PolarDeviceToHostNotification>)
    ensures r.Some? ==> r.value in kinds && Value(r.value) == value
    ensures r.None? ==> forall k :: k in kinds ==> Value(k) != value
  {
    if kinds == [] then None
    else if Value(kinds[0]) == value then Some(kinds[0])
    else Find(kinds[1..], value)
  }

  function FromValue(value: int): Option<PolarDeviceToHostNotification> {
    Find(AllKinds, value)
  }

  lemma AllKindsListsEveryKind(k: PolarDeviceToHostNotification)
    ensures k in AllKinds
  {
  }

  /** The codes are pairwise distinct. */
  lemma ValueInjective(k1: PolarDeviceToHostNotification, k2: PolarDeviceToHostNotification)
    requires Value(k1) == Value(k2)
    ensures k1 == k2
  {
  }

  /** Decoding a kind's own code gives that kind back. */
  lemma FromValueOfValue(k: PolarDeviceToHostNotification)
    ensures FromValue(Value(k)) == Some(k)
  {
    AllKindsListsEveryKind(k);
    var r := FromValue(Value(k));
    if r.Some? {
      ValueInjective(r.value, k);
    }
  }

  /** Every code lies in 0-5 or 7-19. */
  lemma ValueRange(k: PolarDeviceToHostNotification)
    ensures 0 <= Value(k) <= 5 || 7 <= Value(k) <= 19
  {
  }

  /** The kind carrying a code of 0-5 or 7-19. */
  function KindWithValue(v: int): (k: PolarDeviceToHostNotification)
    requires 0 <= v <= 5 || 7 <= v <= 19
    ensures Value(k) == v
  {
    if v == 0 then FILESYSTEM_MODIFIED else if v == 1 then INTERNAL_TEST_EVENT
    else if v == 2 then IDLING else if v == 3 then BATTERY_STATUS
    else if v == 4 then INACTIVITY_ALERT else if v == 5 then TRAINING_SESSION_STATUS
    else if v == 7 then SYNC_REQUIRED else if v == 8 then AUTOSYNC_STATUS
    else if v == 9 then PNS_DH_NOTIFICATION_RESPONSE else if v == 10 then PNS_SETTINGS
    else if v == 11 then START_GPS_MEASUREMENT else if v == 12 then STOP_GPS_MEASUREMENT
    else if v == 13 then KEEP_BACKGROUND_ALIVE else if v == 14 then POLAR_SHELL_DH_DATA
    else if v == 15 then MEDIA_CONTROL_REQUEST_DH else if v == 16 then MEDIA_CONTROL_COMMAND_DH
    else if v == 17 then MEDIA_CONTROL_ENABLED else if v == 18 then REST_API_EVENT
    else EXERCISE_STATUS
  }

  /** Exactly the codes 0-5 and 7-19 are recognised; 6 and everything else give null. */
  lemma FromValueDomain(v: int)
    ensures FromValue(v).Some? <==> (0 <= v <= 5 || 7 <= v <= 19)
  {
    var r := FromValue(v);
    if r.Some? {
      ValueRange(r.value);
    }
    if 0 <= v <= 5 || 7 <= v <= 19 {
      FromValueOfValue(KindWithValue(v));
    }
  }

  /**
   * A parsed protobuf parameter message. The protobuf classes are foreign code: a payload
   * is identified by its message type and its field values, kept abstract as bytes.
   */
  datatype ParsedPayload = ParsedPayload(messageType: string, fields: seq<byte>)

  /** A received notification: its kind, the raw parameter bytes and the parse result. */
  datatype PolarD2HNotificationData = PolarD2HNotificationData(
    notificationType: PolarDeviceToHostNotification,
    parameters: seq<byte>,
    parsedParameters: Option<ParsedPayload>)

  /** The overridden `equals`: same kind, same parameter contents, same parsed payload. */
  predicate DataEquals(a: PolarD2HNotificationData, b: PolarD2HNotificationData) {
    && a.notificationType == b.notificationType
    && |a.parameters| == |b.parameters|
    && (forall i :: 0 <= i < |a.parameters| ==> a.parameters[i] == b.parameters[i])
    && a.parsedParameters == b.parsedParameters
  }

  /** Content equality of the parameter bytes makes `equals` coincide with value equality. */
  lemma DataEqualsIsValueEquality(a: PolarD2HNotificationData, b: PolarD2HNotificationData)
    ensures DataEquals(a, b) <==> a == b
  {
    if DataEquals(a, b) {
      assert a.parameters == b.parameters;
    }
  }

  /** Java `Int` arithmetic: wraps to a signed 32-bit value. */
  function WrapInt32(x: int): (r: int)
    ensures -0x8000_0000 <= r < 0x8000_0000
    ensures (r - x) % 0x1_0000_0000 == 0
  {
    var m := x % 0x1_0000_0000;
    if m < 0x8000_0000 then m else m - 0x1_0000_0000
  }

  /** A JVM byte is signed. */
  function SignedByte(b: byte): int {
    if b < 128 then b else b - 256
  }

  /** `ByteArray.contentHashCode()`: 31-polynomial over the signed bytes, seeded with 1. */
  function ContentHashCode(bytes: seq<byte>): int
    decreases |bytes|
  {
    if bytes == [] then 1
    else WrapInt32(31 * ContentHashCode(bytes[..|bytes| - 1]) + SignedByte(bytes[|bytes| - 1]))
  }

  /**
   * The overridden `hashCode`. The enum's and the payload's own hash codes are foreign,
   * so they are parameters.
   */
  function HashCode(d: PolarD2HNotificationData,
                    kindHash: PolarDeviceToHostNotification -> int,
                    payloadHash: ParsedPayload -> int): int
  {
    var result := kindHash(d.notificationType);
    var result' := WrapInt32(31 * result + ContentHashCode(d.parameters));
    WrapInt32(31 * result' + (match d.parsedParameters case Some(p) => payloadHash(p) case None => 0))
  }

  /** Values that are `equals` hash equally. */
  lemma EqualDataHashEqually(a: PolarD2HNotificationData, b: PolarD2HNotificationData,
                             kindHash: PolarDeviceToHostNotification -> int,
                             payloadHash: ParsedPayload -> int)
    requires DataEquals(a, b)
    ensures HashCode(a, kindHash, payloadHash) == HashCode(b, kindHash, payloadHash)
  {
    DataEqualsIsValueEquality(a, b);
  }
}
