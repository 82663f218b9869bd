/**
 * The device-to-host notification demultiplexer: raw (id, bytes) notifications become
 * typed events with a best-effort decoded payload; unknown ids are dropped.
 */
module D2HNotificationsUtils {
  import opened Wrappers
  import opened D2HNotificationsApi

  /** The protobuf parameter message types that have a decoder. */
  datatype ParamsMessage =
    | PbPFtpSyncRequiredParams
    | PbPFtpFilesystemModifiedParams
    | PbPFtpInactivityAlert
    | PbPFtpTrainingSessionStatus
    | PbPFtpAutoSyncStatusParams
    | PbPftpPnsDHNotificationResponse
    | PbPftpPnsState
    | PbPftpStartGPSMeasurement
    | PbPFtpPolarShellMessageParams
    | PbPftpDHMediaControlRequest
    | PbPftpDHMediaControlCommand
    | PbPftpDHMediaControlEnabled
    | PbPftpDHRestApiEvent
    | PbPftpDHExerciseStatus

  /**
   * The foreign `parseFrom` of each message type: None when it throws
   * InvalidProtocolBufferException.
   */
  type Parser = (ParamsMessage, seq<byte>) -> Option<ParsedPayload>

  /** One raw notification as the transport delivers it. */
  datatype PftpNotificationMessage = PftpNotificationMessage(id: int, bytes: seq<byte>)

  /** The decoder registered for a kind, if any. */
  function DecoderFor(k: PolarDeviceToHostNotification): Option<ParamsMessage> {
    match k
    case SYNC_REQUIRED => Some(PbPFtpSyncRequiredParams)
    case FILESYSTEM_MODIFIED => Some(PbPFtpFilesystemModifiedParams)
    case INACTIVITY_ALERT => Some(PbPFtpInactivityAlert)
    case TRAINING_SESSION_STATUS => Some(PbPFtpTrainingSessionStatus)
    case AUTOSYNC_STATUS => Some(PbPFtpAutoSyncStatusParams)
    case PNS_DH_NOTIFICATION_RESPONSE => Some(PbPftpPnsDHNotificationResponse)
    case PNS_SETTINGS => Some(PbPftpPnsState)
    case START_GPS_MEASUREMENT => Some(PbPftpStartGPSMeasurement)
    case POLAR_SHELL_DH_DATA => Some(PbPFtpPolarShellMessageParams)
    case MEDIA_CONTROL_REQUEST_DH => Some(PbPftpDHMediaControlRequest)
    case MEDIA_CONTROL_COMMAND_DH => Some(PbPftpDHMediaControlCommand)
    case MEDIA_CONTROL_ENABLED => Some(PbPftpDHMediaControlEnabled)
    case REST_API_EVENT => Some(PbPftpDHRestApiEvent)
    case EXERCISE_STATUS => Some(PbPftpDHExerciseStatus)
    case _ => None
  }

  /**
   * Exactly five kinds have no decoder and never get a parsed payload; the other
   * fourteen each have one.
   */
  lemma KindsWithoutDecoder(k: PolarDeviceToHostNotification)
    ensures DecoderFor(k).None? <==>
      k == INTERNAL_TEST_EVENT || k == IDLING || k == BATTERY_STATUS ||
      k == STOP_GPS_MEASUREMENT || k == KEEP_BACKGROUND_ALIVE
  {
  }

  /** Distinct kinds decode with distinct message types. */
  lemma DecodersAreDistinct(k1: PolarDeviceToHostNotification, k2: PolarDeviceToHostNotification)
    requires DecoderFor(k1).Some? && DecoderFor(k1) == DecoderFor(k2)
    ensures k1 == k2
  {
  }

  /** `parseD2HNotificationParameters`: null for empty bytes, a missing decoder or a failed parse. */
  function ParseD2HNotificationParameters(k: PolarDeviceToHostNotification, data: seq<byte>, parse: Parser): (r: Option<ParsedPayload>)
    ensures r.Some? <==> |data| > 0 && DecoderFor(k).Some? && parse(DecoderFor(k).value, data).Some?
    ensures r.Some? ==> r == parse(DecoderFor(k).value, data)
  {
    if |data| == 0 then None
    else match DecoderFor(k)
      case None => None
      case Some(m) => parse(m, data)
  }

  /** The event one raw notification turns into, or None when its id is unknown. */
  function ToEvent(n: PftpNotificationMessage, parse: Parser): (r: Option<PolarD2HNotificationData>)
    ensures r.Some? <==> FromValue(n.id).Some?
    ensures r.Some? ==> Value(r.value.notificationType) == n.id && r.value.parameters == n.bytes
  {
    match FromValue(n.id)
    case None => None
    case Some(k) => Some(PolarD2HNotificationData(k, n.bytes, ParseD2HNotificationParameters(k, n.bytes, parse)))
  }

  /**
   * `observeDeviceToHostNotifications` over a finite prefix of the endless feed: the events
   * for the recognised notifications, in arrival order.
   */
  function Observe(feed: seq<PftpNotificationMessage>, parse: Parser): (events: seq<PolarD2HNotificationData>)
    ensures |events| <= |feed|
  {
    if feed == [] then []
    else
      (match ToEvent(feed[0], parse) case Some(e) => [e] case None => []) + Observe(feed[1..], parse)
  }

  /** The number of notifications in `feed` whose id is in the table. */
  function CountKnown(feed: seq<PftpNotificationMessage>): nat {
    if feed == [] then 0 else (if FromValue(feed[0].id).Some? then 1 else 0) + CountKnown(feed[1..])
  }

  /** Observing a longer feed only extends the events already delivered. */
  lemma {:induction false} ObserveAppend(a: seq<PftpNotificationMessage>, b: seq<PftpNotificationMessage>, parse: Parser)
    ensures Observe(a + b, parse) == Observe(a, parse) + Observe(b, parse)
  {
    if a == [] {
      assert a + b == b;
    } else {
      assert (a + b)[1..] == a[1..] + b;
      ObserveAppend(a[1..], b, parse);
    }
  }

  /** One event per recognised notification, none for the others. */
  lemma {:induction false} ObserveCount(feed: seq<PftpNotificationMessage>, parse: Parser)
    ensures |Observe(feed, parse)| == CountKnown(feed)
  {
    if feed != [] {
      ObserveCount(feed[1..], parse);
    }
  }

  /** `e` is the event `n` turns into. */
  predicate EventFrom(e: PolarD2HNotificationData, n: PftpNotificationMessage, parse: Parser) {
    && Value(e.notificationType) == n.id
    && e.parameters == n.bytes
    && e.parsedParameters == ParseD2HNotificationParameters(e.notificationType, n.bytes, parse)
  }

  /**
   * Every event comes from a recognised notification of the feed: its kind has that code,
   * its parameters are the raw bytes unchanged, and its payload is the kind's decoder
   * applied to them (null when empty, undecodable or without decoder).
   */
  lemma {:induction false} ObserveEventsComeFromFeed(feed: seq<PftpNotificationMessage>, parse: Parser, i: nat)
    requires i < CountKnown(feed)
    ensures i < |Observe(feed, parse)|
    ensures exists j :: 0 <= j < |feed| && EventFrom(Observe(feed, parse)[i], feed[j], parse)
  {
    ObserveCount(feed, parse);
    ObserveCount(feed[1..], parse);
    var head := match ToEvent(feed[0], parse) case Some(e) => [e] case None => [];
    var rest := Observe(feed[1..], parse);
    assert Observe(feed, parse) == head + rest;
    if i < |head| {
      ToEventIsEventFrom(feed[0], parse);
      assert EventFrom(Observe(feed, parse)[i], feed[0], parse);
    } else {
      ObserveEventsComeFromFeed(feed[1..], parse, i - |head|);
      var j :| 0 <= j < |feed[1..]| && EventFrom(rest[i - |head|], feed[1..][j], parse);
      assert Observe(feed, parse)[i] == rest[i - |head|];
      assert EventFrom(Observe(feed, parse)[i], feed[j + 1], parse);
    }
  }

  lemma ToEventIsEventFrom(n: PftpNotificationMessage, parse: Parser)
    requires ToEvent(n, parse).Some?
    ensures EventFrom(ToEvent(n, parse).value, n, parse)
  {
  }

  /** A feed of unrecognised ids yields nothing, and no error. */
  lemma UnknownOnlyFeedIsSilent(feed: seq<PftpNotificationMessage>, parse: Parser)
    requires forall j :: 0 <= j < |feed| ==> FromValue(feed[j].id).None?
    ensures Observe(feed, parse) == []
  {
    ObserveCount(feed, parse);
    UnknownCountZero(feed);
  }

  lemma {:induction false} UnknownCountZero(feed: seq<PftpNotificationMessage>)
    requires forall j :: 0 <= j < |feed| ==> FromValue(feed[j].id).None?
    ensures CountKnown(feed) == 0
  {
    if feed != [] {
      UnknownCountZero(feed[1..]);
    }
  }

  /** An unknown id followed by a known id with empty bytes: one event, payload null. */
  lemma UnknownThenEmptyIdling(parse: Parser)
    ensures Observe([PftpNotificationMessage(999, []), PftpNotificationMessage(2, [])], parse)
      == [PolarD2HNotificationData(IDLING, [], None)]
  {
    FromValueDomain(999);
    FromValueOfValue(IDLING);
    assert [PftpNotificationMessage(999, []), PftpNotificationMessage(2, [])][1..] == [PftpNotificationMessage(2, [])];
  }
}
