/**
 * The session-readiness gate of the Android SDK: an identifier names a connected device
 * either by its Bluetooth address or by its Polar device id; the gate finds the session,
 * checks that it is open and that the wanted GATT service is there and discovered, and
 * then that the service's notifications are enabled.
 */
module ServiceClientUtils {
  import opened Wrappers
  import opened Errors

  /** The GATT services the four gates ask for. */
  datatype GattService = HR_SERVICE | PMD_SERVICE | RFC77_PFTP_SERVICE | PFC_SERVICE

  /** The characteristics whose notification state the gates inspect. */
  datatype Characteristic = HR_MEASUREMENT | PMD_CP | PMD_DATA | RFC77_PFTP_MTU_CHARACTERISTIC

  /** `BleGattBase.ATT_SUCCESS`: the notification state of an enabled characteristic. */
  const ATT_SUCCESS := 0

  /** The time `sessionServiceReady` allows for service discovery, in milliseconds. */
  const DiscoveryTimeoutMillis := 10 * 1000

  /** The pause between two discovery polls, in milliseconds. */
  const PollSleepMillis := 100

  datatype DeviceSessionState =
    | SESSION_CLOSED | SESSION_OPENING | SESSION_OPEN_PARK | SESSION_OPEN | SESSION_CLOSING

  /**
   * A GATT client as the gates see it: whether its service is discovered when first
   * asked, and the notification state of each characteristic it tracks (a missing key
   * is the null `AtomicInteger`).
   */
  datatype GattClient = GattClient(serviceDiscovered: bool, notifications: map<Characteristic, int>)

  /**
   * One device session: its address, the device id it advertises, its device type
   * (the capability-lookup key), its state and its clients.
   */
  datatype BleDeviceSession = BleDeviceSession(
    address: string,
    polarDeviceId: string,
    polarDeviceType: string,
    sessionState: DeviceSessionState,
    clients: map<GattService, GattClient>)

  /** The device listener; `sessions` is None when `deviceSessions()` returns null. */
  datatype BleDeviceListener = BleDeviceListener(sessions: Option<seq<BleDeviceSession>>)

  /**
   * What the discovery poll observes, one value per poll: whether the service is
   * discovered at the poll's check, how long the poll's check and sleep take beyond the
   * nominal 100 ms (scheduling and clock granularity), and whether the sleep is interrupted.
   */
  datatype DiscoveryClock = DiscoveryClock(
    discovered: nat -> bool,
    overhead: nat -> nat,
    interrupted: nat -> bool)

  predicate IsHexDigit(c: char) {
    '0' <= c <= '9' || 'a' <= c <= 'f' || 'A' <= c <= 'F'
  }

  /** Whole-string match of `([0-9A-Fa-f]{2}[:-]){5}([0-9A-Fa-f]{2})`; separators may mix. */
  predicate IsMacAddress(s: string) {
    |s| == 17 &&
    forall i :: 0 <= i < |s| ==> if i % 3 == 2 then s[i] == ':' || s[i] == '-' else IsHexDigit(s[i])
  }

  /** Whole-string match of `([0-9a-fA-F]){6,8}`. */
  predicate IsDeviceId(s: string) {
    6 <= |s| <= 8 && forall i :: 0 <= i < |s| ==> IsHexDigit(s[i])
  }

  /** The two ways a session is looked up. */
  datatype LookupKey = ByAddress | ByDeviceId

  function KeyOf(s: BleDeviceSession, key: LookupKey): string {
    match key
    case ByAddress => s.address
    case ByDeviceId => s.polarDeviceId
  }

  /** The first session in `sessions` whose key equals `id` exactly. */
  function FirstWith(sessions: seq<BleDeviceSession>, key: LookupKey, id: string): (r: Option<BleDeviceSession>)
    ensures r.Some? <==> exists i :: 0 <= i < |sessions| && KeyOf(sessions[i], key) == id
    ensures r.Some? ==> exists i :: 0 <= i < |sessions| && sessions[i] == r.value && FirstIndexWith(sessions, key, id, i)
  {
    if sessions == [] then None
    else if KeyOf(sessions[0], key) == id then
      assert FirstIndexWith(sessions, key, id, 0);
      Some(sessions[0])
    else
      var r := FirstWith(sessions[1..], key, id);
      if r.Some? then
        var i :| 0 <= i < |sessions[1..]| && sessions[1..][i] == r.value && FirstIndexWith(sessions[1..], key, id, i);
        assert FirstIndexWith(sessions, key, id, i + 1);
        r
      else
        assert forall i :: 1 <= i < |sessions| ==> sessions[i] == sessions[1..][i - 1];
        r
  }

  /** `i` is the position of the first session whose key is `id`. */
  predicate FirstIndexWith(sessions: seq<BleDeviceSession>, key: LookupKey, id: string, i: nat) {
    i < |sessions| && KeyOf(sessions[i], key) == id &&
    forall j :: 0 <= j < i ==> KeyOf(sessions[j], key) != id
  }

  /** The lookup's result: nothing when there is no listener or it reports no sessions. */
  function Lookup(listener: Option<BleDeviceListener>, key: LookupKey, id: string): Option<BleDeviceSession> {
    if listener.Some? && listener.value.sessions.Some? then FirstWith(listener.value.sessions.value, key, id)
    else None
  }

  /** `sessionByAddress` / `sessionByDeviceId`: an early-return scan of the sessions. */
  method SessionBy(key: LookupKey, id: string, listener: Option<BleDeviceListener>) returns (r: Option<BleDeviceSession>)
    ensures r.Some? ==> KeyOf(r.value, key) == id
    ensures r == Lookup(listener, key, id)
  {
    if listener.Some? {
      var sessions := listener.value.sessions;
      if sessions.Some? {
        var all := sessions.value;
        var i := 0;
        while i < |all|
          invariant 0 <= i <= |all|
          invariant forall j :: 0 <= j < i ==> KeyOf(all[j], key) != id
        {
          if KeyOf(all[i], key) == id {
            assert FirstIndexWith(all, key, id, i);
            return Some(all[i]);
          }
          i := i + 1;
        }
      }
    }
    return None;
  }

  /** The lookup `fetchSession` performs, or its PolarInvalidArgument. */
  function FetchOutcome(identifier: string, listener: Option<BleDeviceListener>): Result<Option<BleDeviceSession>, PolarError> {
    if IsMacAddress(identifier) then Ok(Lookup(listener, ByAddress, identifier))
    else if IsDeviceId(identifier) then Ok(Lookup(listener, ByDeviceId, identifier))
    else Err(PolarInvalidArgument)
  }

  /** `fetchSession`: classify the identifier, then look it up the matching way. */
  method FetchSession(identifier: string, listener: Option<BleDeviceListener>) returns (r: Result<Option<BleDeviceSession>, PolarError>)
    ensures r.Err? <==> !IsMacAddress(identifier) && !IsDeviceId(identifier)
    ensures r.Err? ==> r.error == PolarInvalidArgument
    ensures r.Ok? && r.value.Some? ==>
      (IsMacAddress(identifier) && r.value.value.address == identifier) ||
      (IsDeviceId(identifier) && r.value.value.polarDeviceId == identifier)
    ensures r == FetchOutcome(identifier, listener)
  {
    if IsMacAddress(identifier) {
      var s := SessionBy(ByAddress, identifier, listener);
      return Ok(s);
    } else if IsDeviceId(identifier) {
      var s := SessionBy(ByDeviceId, identifier, listener);
      return Ok(s);
    }
    return Err(PolarInvalidArgument);
  }

  /** Milliseconds since the start when poll `i` checks the clock. */
  function Elapsed(clock: DiscoveryClock, i: nat): (t: nat)
    ensures t >= PollSleepMillis * i
  {
    if i == 0 then 0 else Elapsed(clock, i - 1) + PollSleepMillis + clock.overhead(i - 1)
  }

  /**
   * Discovery is seen at poll `k`: every earlier poll found the clock within the
   * timeout and slept without interruption.
   */
  predicate DiscoveredAtPoll(clock: DiscoveryClock, timeoutMs: nat, k: nat) {
    clock.discovered(k) &&
    forall j :: 0 <= j < k ==> Elapsed(clock, j) <= timeoutMs && !clock.interrupted(j)
  }

  /** `waitForServiceDiscovery`: poll every 100 ms until discovered, timed out or interrupted. */
  method WaitForServiceDiscovery(clock: DiscoveryClock, timeoutMs: nat) returns (ok: bool)
    ensures ok <==> exists k :: DiscoveredAtPoll(clock, timeoutMs, k)
  {
    var i: nat := 0;
    while !clock.discovered(i)
      invariant i <= timeoutMs + 1
      invariant forall j :: 0 <= j < i ==> !clock.discovered(j) && Elapsed(clock, j) <= timeoutMs && !clock.interrupted(j)
      decreases timeoutMs + 1 - i
    {
      if Elapsed(clock, i) > timeoutMs {
        NoLaterDiscovery(clock, timeoutMs, i);
        return false;
      }
      if clock.interrupted(i) {
        NoLaterDiscovery(clock, timeoutMs, i);
        return false;
      }
      i := i + 1;
    }
    assert DiscoveredAtPoll(clock, timeoutMs, i);
    return true;
  }

  /** Once poll `i` times out or is interrupted, before any discovery, none is ever seen. */
  lemma NoLaterDiscovery(clock: DiscoveryClock, timeoutMs: nat, i: nat)
    requires forall j :: 0 <= j <= i ==> !clock.discovered(j)
    requires Elapsed(clock, i) > timeoutMs || clock.interrupted(i)
    ensures forall k :: !DiscoveredAtPoll(clock, timeoutMs, k)
  {
    forall k: nat
      ensures !DiscoveredAtPoll(clock, timeoutMs, k)
    {
      if k <= i {
        assert !clock.discovered(k);
      } else {
        assert !(Elapsed(clock, i) <= timeoutMs && !clock.interrupted(i));
      }
    }
  }

  /**
   * The poll is bounded: discovery can only be seen at a poll no later than
   * timeoutMs / 100 + 1, that is within 101 polls for the 10 000 ms timeout.
   */
  lemma {:induction false} DiscoveryPollIsBounded(clock: DiscoveryClock, timeoutMs: nat, k: nat)
    requires DiscoveredAtPoll(clock, timeoutMs, k)
    ensures k <= timeoutMs / PollSleepMillis + 1
  {
    if k > 0 {
      assert Elapsed(clock, k - 1) <= timeoutMs;
      assert PollSleepMillis * (k - 1) <= timeoutMs;
    }
  }

  /** What `sessionServiceReady` produces: the checks in the order the source makes them. */
  ghost function ReadyOutcome(identifier: string, service: GattService, listener: Option<BleDeviceListener>, clock: DiscoveryClock)
    : Result<BleDeviceSession, PolarError>
  {
    match FetchOutcome(identifier, listener)
    case Err(e) => Err(e)
    case Ok(None) => Err(PolarDeviceNotFound)
    case Ok(Some(s)) =>
      if s.sessionState != SESSION_OPEN then Err(PolarDeviceDisconnected)
      else if service !in s.clients then Err(PolarServiceNotAvailable)
      else if s.clients[service].serviceDiscovered || exists k :: DiscoveredAtPoll(clock, DiscoveryTimeoutMillis, k) then Ok(s)
      else Err(PolarServiceNotAvailable)
  }

  /** A client gate on top of `ready`: every characteristic in `required` must be enabled. */
  function NotificationGate(ready: Result<BleDeviceSession, PolarError>, service: GattService, required: set<Characteristic>)
    : Result<BleDeviceSession, PolarError>
  {
    if ready.Err? then ready
    else if service in ready.value.clients && forall c :: c in required ==> NotificationEnabled(ready.value.clients[service], c) then ready
    else Err(PolarNotificationNotEnabled)
  }

  /** The outcome of `sessionPsFtpClientReady`, which every PFTP file operation starts with. */
  ghost function PsFtpReadyOutcome(identifier: string, listener: Option<BleDeviceListener>, clock: DiscoveryClock)
    : Result<BleDeviceSession, PolarError>
  {
    NotificationGate(ReadyOutcome(identifier, RFC77_PFTP_SERVICE, listener, clock), RFC77_PFTP_SERVICE, {RFC77_PFTP_MTU_CHARACTERISTIC})
  }

  /**
   * `sessionServiceReady`: the first failing check decides the error, in the order
   * invalid identifier, no session, session not open, no client for the service,
   * service not discovered within 10 000 ms.
   */
  method SessionServiceReady(identifier: string, service: GattService, listener: Option<BleDeviceListener>, clock: DiscoveryClock)
    returns (r: Result<BleDeviceSession, PolarError>)
    ensures FetchOutcome(identifier, listener).Err? ==> r == Err(PolarInvalidArgument)
    ensures FetchOutcome(identifier, listener) == Ok(None) ==> r == Err(PolarDeviceNotFound)
    ensures FetchOutcome(identifier, listener).Ok? && FetchOutcome(identifier, listener).value.Some? ==>
      var s := FetchOutcome(identifier, listener).value.value;
      (s.sessionState != SESSION_OPEN ==> r == Err(PolarDeviceDisconnected)) &&
      (s.sessionState == SESSION_OPEN && service !in s.clients ==> r == Err(PolarServiceNotAvailable)) &&
      (s.sessionState == SESSION_OPEN && service in s.clients ==>
        (r == Ok(s) <==> s.clients[service].serviceDiscovered || exists k :: DiscoveredAtPoll(clock, DiscoveryTimeoutMillis, k)))
    ensures r.Ok? ==> r.value.sessionState == SESSION_OPEN && service in r.value.clients
    ensures r.Err? ==> r.error in {PolarInvalidArgument, PolarDeviceNotFound, PolarDeviceDisconnected, PolarServiceNotAvailable}
    ensures r == ReadyOutcome(identifier, service, listener, clock)
  {
    var fetched := FetchSession(identifier, listener);
    if fetched.Err? {
      return Err(fetched.error);
    }
    if fetched.value.None? {
      return Err(PolarDeviceNotFound);
    }
    var session := fetched.value.value;
    if session.sessionState != SESSION_OPEN {
      return Err(PolarDeviceDisconnected);
    }
    if service !in session.clients {
      return Err(PolarServiceNotAvailable);
    }
    var client := session.clients[service];
    if !client.serviceDiscovered {
      var discovered := WaitForServiceDiscovery(clock, DiscoveryTimeoutMillis);
      if !discovered {
        return Err(PolarServiceNotAvailable);
      }
    }
    return Ok(session);
  }

  /** A characteristic whose notification state is known and equals ATT_SUCCESS. */
  predicate NotificationEnabled(client: GattClient, c: Characteristic) {
    c in client.notifications && client.notifications[c] == ATT_SUCCESS
  }

  /**
   * `sessionHrClientReady`: the HR service must be ready and HR_MEASUREMENT notifications
   * enabled. The second `fetchClient` reads the same session as the gate, so its null
   * branch does not arise here.
   */
  method SessionHrClientReady(identifier: string, listener: Option<BleDeviceListener>, clock: DiscoveryClock)
    returns (r: Result<BleDeviceSession, PolarError>)
    ensures r.Ok? ==>
      r.value.sessionState == SESSION_OPEN && HR_SERVICE in r.value.clients &&
      NotificationEnabled(r.value.clients[HR_SERVICE], HR_MEASUREMENT)
    ensures r.Err? ==> r.error in {PolarInvalidArgument, PolarDeviceNotFound, PolarDeviceDisconnected, PolarServiceNotAvailable, PolarNotificationNotEnabled}
    ensures FetchOutcome(identifier, listener).Err? ==> r == Err(PolarInvalidArgument)
    ensures FetchOutcome(identifier, listener) == Ok(None) ==> r == Err(PolarDeviceNotFound)
    ensures r == NotificationGate(ReadyOutcome(identifier, HR_SERVICE, listener, clock), HR_SERVICE, {HR_MEASUREMENT})
  {
    var ready := SessionServiceReady(identifier, HR_SERVICE, listener, clock);
    if ready.Err? {
      return ready;
    }
    var client := ready.value.clients[HR_SERVICE];
    if NotificationEnabled(client, HR_MEASUREMENT) {
      return ready;
    }
    return Err(PolarNotificationNotEnabled);
  }

  /** `sessionPmdClientReady`: both PMD_CP and PMD_DATA notifications must be enabled. */
  method SessionPmdClientReady(identifier: string, listener: Option<BleDeviceListener>, clock: DiscoveryClock)
    returns (r: Result<BleDeviceSession, PolarError>)
    ensures r.Ok? ==>
      r.value.sessionState == SESSION_OPEN && PMD_SERVICE in r.value.clients &&
      NotificationEnabled(r.value.clients[PMD_SERVICE], PMD_CP) &&
      NotificationEnabled(r.value.clients[PMD_SERVICE], PMD_DATA)
    ensures r.Err? ==> r.error in {PolarInvalidArgument, PolarDeviceNotFound, PolarDeviceDisconnected, PolarServiceNotAvailable, PolarNotificationNotEnabled}
    ensures FetchOutcome(identifier, listener).Err? ==> r == Err(PolarInvalidArgument)
    ensures FetchOutcome(identifier, listener) == Ok(None) ==> r == Err(PolarDeviceNotFound)
    ensures r == NotificationGate(ReadyOutcome(identifier, PMD_SERVICE, listener, clock), PMD_SERVICE, {PMD_CP, PMD_DATA})
  {
    var ready := SessionServiceReady(identifier, PMD_SERVICE, listener, clock);
    if ready.Err? {
      return ready;
    }
    var client := ready.value.clients[PMD_SERVICE];
    if NotificationEnabled(client, PMD_CP) && NotificationEnabled(client, PMD_DATA) {
      return ready;
    }
    return Err(PolarNotificationNotEnabled);
  }

  /** `sessionPsFtpClientReady`: the PFTP MTU characteristic's notifications must be enabled. */
  method SessionPsFtpClientReady(identifier: string, listener: Option<BleDeviceListener>, clock: DiscoveryClock)
    returns (r: Result<BleDeviceSession, PolarError>)
    ensures r.Ok? ==>
      r.value.sessionState == SESSION_OPEN && RFC77_PFTP_SERVICE in r.value.clients &&
      NotificationEnabled(r.value.clients[RFC77_PFTP_SERVICE], RFC77_PFTP_MTU_CHARACTERISTIC)
    ensures r.Err? ==> r.error in {PolarInvalidArgument, PolarDeviceNotFound, PolarDeviceDisconnected, PolarServiceNotAvailable, PolarNotificationNotEnabled}
    ensures FetchOutcome(identifier, listener).Err? ==> r == Err(PolarInvalidArgument)
    ensures FetchOutcome(identifier, listener) == Ok(None) ==> r == Err(PolarDeviceNotFound)
    ensures r == NotificationGate(ReadyOutcome(identifier, RFC77_PFTP_SERVICE, listener, clock), RFC77_PFTP_SERVICE, {RFC77_PFTP_MTU_CHARACTERISTIC})
  {
    var ready := SessionServiceReady(identifier, RFC77_PFTP_SERVICE, listener, clock);
    if ready.Err? {
      return ready;
    }
    var client := ready.value.clients[RFC77_PFTP_SERVICE];
    if NotificationEnabled(client, RFC77_PFTP_MTU_CHARACTERISTIC) {
      return ready;
    }
    return Err(PolarNotificationNotEnabled);
  }

  /**
   * `sessionPsPfcClientReady`: after the service gate, `isServiceDiscovered` is read once
   * more; `discoveredOnReread` is what that read returns.
   */
  method SessionPsPfcClientReady(identifier: string, listener: Option<BleDeviceListener>, clock: DiscoveryClock, discoveredOnReread: bool)
    returns (r: Result<BleDeviceSession, PolarError>)
    ensures r.Ok? ==> r.value.sessionState == SESSION_OPEN && PFC_SERVICE in r.value.clients && discoveredOnReread
    ensures var ready := ReadyOutcome(identifier, PFC_SERVICE, listener, clock);
      r == if ready.Ok? && !discoveredOnReread then Err(PolarNotificationNotEnabled) else ready
    ensures r.Err? ==> r.error in {PolarInvalidArgument, PolarDeviceNotFound, PolarDeviceDisconnected, PolarServiceNotAvailable, PolarNotificationNotEnabled}
    ensures FetchOutcome(identifier, listener).Err? ==> r == Err(PolarInvalidArgument)
    ensures FetchOutcome(identifier, listener) == Ok(None) ==> r == Err(PolarDeviceNotFound)
  {
    var ready := SessionServiceReady(identifier, PFC_SERVICE, listener, clock);
    if ready.Err? {
      return ready;
    }
    if discoveredOnReread {
      return ready;
    }
    return Err(PolarNotificationNotEnabled);
  }

  /** No identifier is both an address and a device id, so the lookup way is unambiguous. */
  lemma IdentifierKindsAreExclusive(s: string)
    ensures !(IsMacAddress(s) && IsDeviceId(s))
  {
  }

  /** Addresses are accepted in either case. */
  lemma MixedCaseMacAddress()
    ensures IsMacAddress("00:11:22:AA:bb:Cc")
  {
  }

  /** Addresses are accepted with the two separators mixed. */
  lemma MixedSeparatorMacAddress()
    ensures IsMacAddress("00-11:22-33:44-55")
  {
  }

  /** Device ids of 6 to 8 hex digits are accepted; 5 or 9 digits are not. */
  lemma DeviceIdExamples()
    ensures IsDeviceId("E123456F") && IsDeviceId("abcdef") && !IsDeviceId("12345") && !IsDeviceId("123456789")
  {
  }

  /** Other text is neither an address nor a device id. */
  lemma NonIdentifierExample()
    ensures !IsMacAddress("Not-A-DeviceId") && !IsDeviceId("Not-A-DeviceId")
  {
    assert !IsHexDigit("Not-A-DeviceId"[0]);
  }
}
