# Polar BLE SDK core, modelled in Dafny

This project models the platform-independent core of the Polar BLE SDK, in both its Android
(Kotlin) and iOS (Swift) versions, and proves properties of that model. The modelled parts are:

- **Device capabilities** (`DeviceCapabilities`). Answers per-device-type questions: which file
  system the device uses, whether it supports recording, firmware update and activity data, and
  whether it is a sensor. Answers come from a loaded configuration with per-device entries and
  defaults. Lookups are case-insensitive, and the answer is "unknown/false" until the
  configuration is initialised.
- **The session gate** (`ServiceClientUtils`). Turns an identifier (a Bluetooth address or a
  Polar device id) into an open session. The GATT service must be present and discovered, with a
  bounded discovery poll, and its notifications must be enabled. Each failure has its own
  error.
- **PFTP file operations** (`PolarFileUtils`). Single-file GET, PUT and REMOVE behind the gate,
  and the recursive directory listing. Transport errors are translated for the caller.
- **Device-to-host notifications** (`D2HNotificationsApi`, `D2HNotificationsUtils`). The
  notification kinds and their wire values. The data record's equality and hash. The
  observation stream, which drops unknown ids and decodes parameters per kind.
- **Offline-recording accumulation** (`OfflineRecordingData`, `OfflineAccumulatorAndroid`,
  `OfflineAccumulatorIos`). Sub-recording chunks are appended into one buffer per measurement
  type. The result is picked by a fixed priority: PPI, PPG, ACC, GYRO, MAG, HR, temperature,
  skin temperature. The two platforms differ in settings handling, in errors, and in what a
  missing value does. Each platform has its own module.
- **iOS fast delete and the automatic-samples cache** (`CivilDate`, `FastDelete`, `AutosCache`).
  Fast delete removes the AUTOS directory, or one sub-directory of every per-day directory in a
  date range. The download cache decides which automatic-samples files need fetching again.

Device I/O is a parameter. A *responder* maps a PFTP operation to the device's reply; a
*writer* answers a PUT; `DeviceFs` gives the directory listings; `DiscoveryClock` describes
what each discovery poll observes. Operations that send requests also return the requests they
sent, in order, so contracts can state what went to the device.

## Model

| member | source | states |
|---|---|---|
| DeviceCapabilities.Lowercase | sources/Android/android-communications/library/src/main/java/com/polar/androidcommunications/api/ble/model/polar/BlePolarDeviceCapabilitiesUtility.kt:113 | the lookup key keeps the length and lower-cases each ASCII letter, leaving other characters alone |
| DeviceCapabilities.LowercaseIdempotent | sources/Android/android-communications/library/src/main/java/com/polar/androidcommunications/api/ble/model/polar/BlePolarDeviceCapabilitiesUtility.kt:113 | lower-casing a key twice is the same as once |
| DeviceCapabilities.Resolve | sources/Android/android-communications/library/src/main/java/com/polar/androidcommunications/api/ble/model/polar/BlePolarDeviceCapabilitiesUtility.kt:113-114 | a field set in the device's entry wins; a missing entry or a null field falls back to the default |
| DeviceCapabilities.EntryFor | sources/Android/android-communications/library/src/main/java/com/polar/androidcommunications/api/ble/model/polar/BlePolarDeviceCapabilitiesUtility.kt:113 | the device entry is looked up under the lower-cased device type |
| DeviceCapabilities.FileSystemTypeIn | sources/Android/android-communications/library/src/main/java/com/polar/androidcommunications/api/ble/model/polar/BlePolarDeviceCapabilitiesUtility.kt:110-124 | the file-system query once initialised: the entry's name, or the default, parsed to the enum |
| DeviceCapabilities.RecordingSupportedIn | sources/Android/android-communications/library/src/main/java/com/polar/androidcommunications/api/ble/model/polar/BlePolarDeviceCapabilitiesUtility.kt:133-140 | the recording query once initialised: the entry's flag, or the default |
| DeviceCapabilities.FirmwareUpdateSupportedIn | sources/Android/android-communications/library/src/main/java/com/polar/androidcommunications/api/ble/model/polar/BlePolarDeviceCapabilitiesUtility.kt:149-157 | the firmware-update query once initialised: the entry's flag, or the default |
| DeviceCapabilities.DeviceSensorIn | sources/Android/android-communications/library/src/main/java/com/polar/androidcommunications/api/ble/model/polar/BlePolarDeviceCapabilitiesUtility.kt:166-174 | the sensor query once initialised: the entry's flag, or the default |
| DeviceCapabilities.ActivityDataSupportedIn | sources/Android/android-communications/library/src/main/java/com/polar/androidcommunications/api/ble/model/polar/BlePolarDeviceCapabilitiesUtility.kt:183-191 | the activity-data query once initialised: the entry's flag, or the default |
| DeviceCapabilities.ParseFileSystemType | sources/Android/android-communications/library/src/main/java/com/polar/androidcommunications/api/ble/model/polar/BlePolarDeviceCapabilitiesUtility.kt:116-120 | exactly the names "H10_FILE_SYSTEM" and "POLAR_FILE_SYSTEM_V2" map to their types; every other name is UNKNOWN_FILE_SYSTEM |
| DeviceCapabilities.QueriesAreCaseInsensitive | sources/Android/android-communications/library/src/main/java/com/polar/androidcommunications/api/ble/model/polar/BlePolarDeviceCapabilitiesUtility.kt:110-191 | device types that differ only in letter case get the same answer from all five queries |
| DeviceCapabilities.UnlistedDeviceGetsDefaults | sources/Android/android-communications/library/src/main/java/com/polar/androidcommunications/api/ble/model/polar/BlePolarDeviceCapabilitiesUtility.kt:110-191 | a device type with no entry gets the defaults section's answer from every query |
| DeviceCapabilities.BuiltInDefaultsAnswers | sources/Android/android-communications/library/src/main/java/com/polar/androidcommunications/api/ble/model/polar/BlePolarDeviceCapabilitiesUtility.kt:33-39 | with the built-in defaults: POLAR_FILE_SYSTEM_V2, no recording, firmware update, not a sensor, no activity data |
| DeviceCapabilities.DeviceCapabilitiesUtility.constructor | sources/Android/android-communications/library/src/main/java/com/polar/androidcommunications/api/ble/model/polar/BlePolarDeviceCapabilitiesUtility.kt:47-48 | the utility starts uninitialised |
| DeviceCapabilities.DeviceCapabilitiesUtility.Initialize | sources/Android/android-communications/library/src/main/java/com/polar/androidcommunications/api/ble/model/polar/BlePolarDeviceCapabilitiesUtility.kt:63-90 | a second call changes nothing; a successful load stores the configuration and marks the utility initialised; a failed load leaves it uninitialised |
| DeviceCapabilities.DeviceCapabilitiesUtility.EnsureInitialized | sources/Android/android-communications/library/src/main/java/com/polar/androidcommunications/api/ble/model/polar/BlePolarDeviceCapabilitiesUtility.kt:92-101 | true exactly when the configuration was loaded |
| DeviceCapabilities.DeviceCapabilitiesUtility.GetFileSystemType | sources/Android/android-communications/library/src/main/java/com/polar/androidcommunications/api/ble/model/polar/BlePolarDeviceCapabilitiesUtility.kt:110-124 | before initialisation UNKNOWN_FILE_SYSTEM; afterwards the configured type of the lower-cased device type, or the default |
| DeviceCapabilities.DeviceCapabilitiesUtility.IsRecordingSupported | sources/Android/android-communications/library/src/main/java/com/polar/androidcommunications/api/ble/model/polar/BlePolarDeviceCapabilitiesUtility.kt:133-140 | false before initialisation; afterwards the entry's value, or the default |
| DeviceCapabilities.DeviceCapabilitiesUtility.IsFirmwareUpdateSupported | sources/Android/android-communications/library/src/main/java/com/polar/androidcommunications/api/ble/model/polar/BlePolarDeviceCapabilitiesUtility.kt:149-157 | false before initialisation; afterwards the entry's value, or the default |
| DeviceCapabilities.DeviceCapabilitiesUtility.IsDeviceSensor | sources/Android/android-communications/library/src/main/java/com/polar/androidcommunications/api/ble/model/polar/BlePolarDeviceCapabilitiesUtility.kt:166-174 | false before initialisation; afterwards the entry's value, or the default |
| DeviceCapabilities.DeviceCapabilitiesUtility.IsActivityDataSupported | sources/Android/android-communications/library/src/main/java/com/polar/androidcommunications/api/ble/model/polar/BlePolarDeviceCapabilitiesUtility.kt:183-191 | false before initialisation; afterwards the entry's value, or the default |
| ServiceClientUtils.FirstWith | sources/Android/android-communications/library/src/sdk/java/com/polar/sdk/impl/utils/PolarServiceClientUtils.kt:100-126 | a session is found iff some session carries the key, and the one found is the first such session |
| ServiceClientUtils.SessionBy | sources/Android/android-communications/library/src/sdk/java/com/polar/sdk/impl/utils/PolarServiceClientUtils.kt:100-126 | the session loop returns the first session whose device id (or address) matches; none without a listener or a session list |
| ServiceClientUtils.FetchSession | sources/Android/android-communications/library/src/sdk/java/com/polar/sdk/impl/utils/PolarServiceClientUtils.kt:90-98 | PolarInvalidArgument iff the identifier is neither a MAC address nor a 6-8 digit hex device id; otherwise the lookup by the matching key |
| ServiceClientUtils.IsMacAddress | sources/Android/android-communications/library/src/sdk/java/com/polar/sdk/impl/utils/PolarServiceClientUtils.kt:92 | the whole identifier is six hex-digit pairs separated by ":" or "-" |
| ServiceClientUtils.IsDeviceId | sources/Android/android-communications/library/src/sdk/java/com/polar/sdk/impl/utils/PolarServiceClientUtils.kt:94 | the whole identifier is six to eight hex digits |
| ServiceClientUtils.IdentifierKindsAreExclusive | sources/Android/android-communications/library/src/sdk/java/com/polar/sdk/impl/utils/PolarServiceClientUtils.kt:92-96 | no identifier is both a MAC address and a device id, so the order of the two checks does not matter |
| ServiceClientUtils.MixedCaseMacAddress | sources/Android/android-communications/library/src/sdk/java/com/polar/sdk/impl/utils/PolarServiceClientUtils.kt:92-96 | an address with upper- and lower-case hex digits is accepted |
| ServiceClientUtils.MixedSeparatorMacAddress | sources/Android/android-communications/library/src/sdk/java/com/polar/sdk/impl/utils/PolarServiceClientUtils.kt:92-96 | an address mixing ":" and "-" separators is accepted |
| ServiceClientUtils.DeviceIdExamples | sources/Android/android-communications/library/src/sdk/java/com/polar/sdk/impl/utils/PolarServiceClientUtils.kt:92-96 | 6 and 8 hex-digit ids are accepted; 5 or 9 digits are not |
| ServiceClientUtils.NonIdentifierExample | sources/Android/android-communications/library/src/sdk/java/com/polar/sdk/impl/utils/PolarServiceClientUtils.kt:92-96 | other text is neither an address nor a device id |
| ServiceClientUtils.Elapsed | sources/Android/android-communications/library/src/sdk/java/com/polar/sdk/impl/utils/PolarServiceClientUtils.kt:129-135 | after i polls at least i times 100 ms have passed |
| ServiceClientUtils.WaitForServiceDiscovery | sources/Android/android-communications/library/src/sdk/java/com/polar/sdk/impl/utils/PolarServiceClientUtils.kt:128-141 | true iff some poll sees the service discovered before the timeout passed and before any interrupted sleep |
| ServiceClientUtils.NoLaterDiscovery | sources/Android/android-communications/library/src/sdk/java/com/polar/sdk/impl/utils/PolarServiceClientUtils.kt:131-138 | once the timeout has passed or a sleep is interrupted with nothing discovered, no later poll can report discovery |
| ServiceClientUtils.DiscoveryPollIsBounded | sources/Android/android-communications/library/src/sdk/java/com/polar/sdk/impl/utils/PolarServiceClientUtils.kt:128-141 | a discovery is reported within timeout/100 + 1 polls |
| ServiceClientUtils.ReadyOutcome | sources/Android/android-communications/library/src/sdk/java/com/polar/sdk/impl/utils/PolarServiceClientUtils.kt:68-88 | the outcome of the session gate, check by check in the source's order |
| ServiceClientUtils.SessionServiceReady | sources/Android/android-communications/library/src/sdk/java/com/polar/sdk/impl/utils/PolarServiceClientUtils.kt:68-88 | an invalid identifier gives PolarInvalidArgument, no session PolarDeviceNotFound, a session that is not open PolarDeviceDisconnected; a missing client and a discovery that times out both give PolarServiceNotAvailable; success means an open session with the service |
| ServiceClientUtils.NotificationGate | sources/Android/android-communications/library/src/sdk/java/com/polar/sdk/impl/utils/PolarServiceClientUtils.kt:24-66 | a client gate: the ready session passes only when every required characteristic has notifications enabled, else PolarNotificationNotEnabled |
| ServiceClientUtils.PsFtpReadyOutcome | sources/Android/android-communications/library/src/sdk/java/com/polar/sdk/impl/utils/PolarServiceClientUtils.kt:47-56 | the PFTP gate: service ready and MTU notifications enabled |
| ServiceClientUtils.SessionHrClientReady | sources/Android/android-communications/library/src/sdk/java/com/polar/sdk/impl/utils/PolarServiceClientUtils.kt:24-33 | success iff the HR service is ready and HR_MEASUREMENT notifications are ATT_SUCCESS; otherwise the gate's error or PolarNotificationNotEnabled |
| ServiceClientUtils.SessionPmdClientReady | sources/Android/android-communications/library/src/sdk/java/com/polar/sdk/impl/utils/PolarServiceClientUtils.kt:35-45 | success iff the PMD service is ready and both PMD_CP and PMD_DATA notifications are ATT_SUCCESS |
| ServiceClientUtils.SessionPsFtpClientReady | sources/Android/android-communications/library/src/sdk/java/com/polar/sdk/impl/utils/PolarServiceClientUtils.kt:47-56 | success iff the PSFTP service is ready and the MTU characteristic's notifications are ATT_SUCCESS |
| ServiceClientUtils.SessionPsPfcClientReady | sources/Android/android-communications/library/src/sdk/java/com/polar/sdk/impl/utils/PolarServiceClientUtils.kt:58-66 | success iff the PFC service is ready and the client reports its service discovered when asked again; otherwise PolarNotificationNotEnabled |
| PolarFileUtils.NormalizedPath | sources/Android/android-communications/library/src/sdk/java/com/polar/sdk/impl/utils/PolarFileUtils.kt:68-70 | the listing root starts and ends with '/', is at most two characters longer, and an already normal path is unchanged |
| PolarFileUtils.NormalizePath | sources/Android/android-communications/library/src/sdk/java/com/polar/sdk/impl/utils/PolarFileUtils.kt:231-233 | the three reassignments of the path compute the normalised path |
| PolarFileUtils.NormalizedPathIsIdempotent | sources/Android/android-communications/library/src/sdk/java/com/polar/sdk/impl/utils/PolarFileUtils.kt:68-70 | normalising twice is normalising once |
| PolarFileUtils.NormalizedPathExamples | sources/Android/android-communications/library/src/sdk/java/com/polar/sdk/impl/utils/PolarFileUtils.kt:68-70 | "" becomes "/", and "U/0", "/U/0" and "/U/0/" all become "/U/0/" |
| PolarFileUtils.Accepts | sources/Android/android-communications/library/src/sdk/java/com/polar/sdk/impl/utils/PolarFileUtils.kt:112-122 | no condition keeps every entry; a condition keeps the names it accepts |
| PolarFileUtils.Collect | sources/Android/android-communications/library/src/sdk/java/com/polar/sdk/impl/utils/PolarFileUtils.kt:110-124 | the entry map's key order holds each stored key exactly once |
| PolarFileUtils.CollectKeepsAccepted | sources/Android/android-communications/library/src/sdk/java/com/polar/sdk/impl/utils/PolarFileUtils.kt:112-123 | every entry the filter accepts (every entry without a filter) is stored under path + name |
| PolarFileUtils.CollectStoresLastSize | sources/Android/android-communications/library/src/sdk/java/com/polar/sdk/impl/utils/PolarFileUtils.kt:112-123 | every stored key comes from an accepted entry and holds the size of the last accepted entry with that key |
| PolarFileUtils.NothingAcceptedStoresNothing | sources/Android/android-communications/library/src/sdk/java/com/polar/sdk/impl/utils/PolarFileUtils.kt:112-126 | a directory whose entries the filter rejects yields an empty map |
| PolarFileUtils.CollectEntries | sources/Android/android-communications/library/src/sdk/java/com/polar/sdk/impl/utils/PolarFileUtils.kt:110-124 | the entry loop builds exactly the insertion-ordered map above |
| PolarFileUtils.CollectedKeysExtendPath | sources/Android/android-communications/library/src/sdk/java/com/polar/sdk/impl/utils/PolarFileUtils.kt:116 | every stored key strictly extends the directory path |
| PolarFileUtils.FetchRecursively | sources/Android/android-communications/library/src/sdk/java/com/polar/sdk/impl/utils/PolarFileUtils.kt:92-143 | the first GET is the requested path; every listed file lies under it; a deep listing contains no directory |
| PolarFileUtils.ExpandAll | sources/Android/android-communications/library/src/sdk/java/com/polar/sdk/impl/utils/PolarFileUtils.kt:126-135 | expanding a directory's entries lists only paths under the directory, and no directory when deep |
| PolarFileUtils.ListedFrom | sources/Android/android-communications/library/src/sdk/java/com/polar/sdk/impl/utils/PolarFileUtils.kt:110-135 | a listed file comes from a GET the fetch sent: a plain entry of that directory, accepted, the last with its name, with its size |
| PolarFileUtils.PlainKeyIsListedFrom | sources/Android/android-communications/library/src/sdk/java/com/polar/sdk/impl/utils/PolarFileUtils.kt:112-123 | every plain path collected from a directory is listed from that directory's GET with its stored size |
| PolarFileUtils.FetchRecursivelyIsSound | sources/Android/android-communications/library/src/sdk/java/com/polar/sdk/impl/utils/PolarFileUtils.kt:92-143 | soundness: every file of a successful deep listing is an accepted plain entry, with its size, of a directory the fetch requested |
| PolarFileUtils.ExpandAllIsSound | sources/Android/android-communications/library/src/sdk/java/com/polar/sdk/impl/utils/PolarFileUtils.kt:126-135 | soundness of the expansion: every file it lists comes from the parent's GET or a GET of the expansion |
| PolarFileUtils.ExpandAllStep | sources/Android/android-communications/library/src/sdk/java/com/polar/sdk/impl/utils/PolarFileUtils.kt:126-135 | a successful expansion is its first entry's part (a sub-fetch or one file) followed by the rest, requests and files concatenated |
| PolarFileUtils.AllListedFromConcat | sources/Android/android-communications/library/src/sdk/java/com/polar/sdk/impl/utils/PolarFileUtils.kt:126-135 | joining two listings keeps every file traced to a request |
| PolarFileUtils.FileThenSound | sources/Android/android-communications/library/src/sdk/java/com/polar/sdk/impl/utils/PolarFileUtils.kt:131-133 | a plain entry followed by a traced tail gives a traced listing |
| PolarFileUtils.Covered | sources/Android/android-communications/library/src/sdk/java/com/polar/sdk/impl/utils/PolarFileUtils.kt:126-135 | a collected path is covered by a listing: a sub-directory whose deep listing succeeds and is included, or the plain file with its size |
| PolarFileUtils.CoveredWider | sources/Android/android-communications/library/src/sdk/java/com/polar/sdk/impl/utils/PolarFileUtils.kt:126-135 | a covered path stays covered in a longer listing |
| PolarFileUtils.ExpandAllIsComplete | sources/Android/android-communications/library/src/sdk/java/com/polar/sdk/impl/utils/PolarFileUtils.kt:126-135 | completeness of the expansion: every collected path from the start index on is covered by the result |
| PolarFileUtils.FetchRecursivelyIsComplete | sources/Android/android-communications/library/src/sdk/java/com/polar/sdk/impl/utils/PolarFileUtils.kt:92-143 | completeness: in a successful deep listing every accepted plain entry of the directory appears with its stored size, and every accepted sub-directory is listed successfully with all its files included |
| PolarFileUtils.FetchRecursivelyCovers | sources/Android/android-communications/library/src/sdk/java/com/polar/sdk/impl/utils/PolarFileUtils.kt:110-135 | an accepted entry yields a collected path ending in "/" exactly when its name does, and a successful fetch covers it |
| PolarFileUtils.ShallowListing | sources/Android/android-communications/library/src/sdk/java/com/polar/sdk/impl/utils/PolarFileUtils.kt:126-135 | without recurseDeep one GET is made, and the listing is the kept entries in first-insertion order with their sizes |
| PolarFileUtils.EmptyDirectoryListsNothing | sources/Android/android-communications/library/src/sdk/java/com/polar/sdk/impl/utils/PolarFileUtils.kt:126-138 | a directory with no kept entries lists as empty after one GET, not as an error |
| PolarFileUtils.HandleError | sources/Android/android-communications/library/src/sdk/java/com/polar/sdk/impl/utils/PolarFileUtils.kt:179-188 | a disconnect iff PolarDeviceDisconnected; a known PFTP error code iff an error named after it; everything else is wrapped with the original cause |
| PolarFileUtils.MapTransport | sources/Android/android-communications/library/src/sdk/java/com/polar/sdk/impl/utils/PolarFileUtils.kt:46-49 | a successful reply passes through unchanged; a failure is translated by handleError |
| PolarFileUtils.RemoveSingleFile | sources/Android/android-communications/library/src/sdk/java/com/polar/sdk/impl/utils/PolarFileUtils.kt:30-50 | a gate failure sends nothing and is returned; otherwise exactly one REMOVE of the path, its reply translated |
| PolarFileUtils.RemoveFileOrDirectory | sources/Android/android-communications/library/src/sdk/java/com/polar/sdk/impl/utils/PolarFileUtils.kt:251-281 | a gate failure sends nothing; otherwise one REMOVE, completing iff the device accepts, else the translated error |
| PolarFileUtils.ReadFile | sources/Android/android-communications/library/src/sdk/java/com/polar/sdk/impl/utils/PolarFileUtils.kt:196-213 | a gate failure sends nothing; otherwise one GET of the path, returning its bytes or the translated error |
| PolarFileUtils.WriteFile | sources/Android/android-communications/library/src/sdk/java/com/polar/sdk/impl/utils/PolarFileUtils.kt:145-177 | a gate failure sends nothing; otherwise one PUT of the data, completing iff the write completes, and its error is passed on untranslated |
| PolarFileUtils.Paths | sources/Android/android-communications/library/src/sdk/java/com/polar/sdk/impl/utils/PolarFileUtils.kt:77-79 | the emitted strings are the listed files' paths, in order |
| PolarFileUtils.ListFiles | sources/Android/android-communications/library/src/sdk/java/com/polar/sdk/impl/utils/PolarFileUtils.kt:52-86 | a gate failure, or a file system other than POLAR_FILE_SYSTEM_V2 (PolarOperationNotSupported), sends nothing; otherwise the normalised path is listed, every path lies under it, and failures are translated |
| D2HNotificationsApi.Find | sources/Android/android-communications/library/src/sdk/java/com/polar/sdk/api/PolarD2HNotificationsApi.kt:70-72 | a kind found has the searched value and comes from the list; none found means no kind has it |
| D2HNotificationsApi.Value | sources/Android/android-communications/library/src/sdk/java/com/polar/sdk/api/PolarD2HNotificationsApi.kt:11-67 | the wire code of each of the nineteen kinds (6 is not used) |
| D2HNotificationsApi.FromValue | sources/Android/android-communications/library/src/sdk/java/com/polar/sdk/api/PolarD2HNotificationsApi.kt:70-72 | the kind whose code is the given value, if any |
| D2HNotificationsApi.AllKindsListsEveryKind | sources/Android/android-communications/library/src/sdk/java/com/polar/sdk/api/PolarD2HNotificationsApi.kt:11-67 | values() lists every notification kind |
| D2HNotificationsApi.ValueInjective | sources/Android/android-communications/library/src/sdk/java/com/polar/sdk/api/PolarD2HNotificationsApi.kt:11-67 | no two kinds share a wire value |
| D2HNotificationsApi.FromValueOfValue | sources/Android/android-communications/library/src/sdk/java/com/polar/sdk/api/PolarD2HNotificationsApi.kt:70-72 | looking up a kind's own value gives back that kind |
| D2HNotificationsApi.FromValueDomain | sources/Android/android-communications/library/src/sdk/java/com/polar/sdk/api/PolarD2HNotificationsApi.kt:11-72 | a value is known iff it is 0 to 5 or 7 to 19 (6 is unassigned) |
| D2HNotificationsApi.ValueRange | sources/Android/android-communications/library/src/sdk/java/com/polar/sdk/api/PolarD2HNotificationsApi.kt:11-67 | every kind's code lies in 0 to 5 or 7 to 19 |
| D2HNotificationsApi.KindWithValue | sources/Android/android-communications/library/src/sdk/java/com/polar/sdk/api/PolarD2HNotificationsApi.kt:11-67 | each code of 0 to 5 and 7 to 19 belongs to a kind |
| D2HNotificationsApi.DataEquals | sources/Android/android-communications/library/src/sdk/java/com/polar/sdk/api/PolarD2HNotificationsApi.kt:88-99 | the overridden equals: same kind, same parameter bytes, same parsed payload |
| D2HNotificationsApi.DataEqualsIsValueEquality | sources/Android/android-communications/library/src/sdk/java/com/polar/sdk/api/PolarD2HNotificationsApi.kt:88-99 | equals (type, byte contents, parsed parameters) holds iff the two records are equal as values |
| D2HNotificationsApi.WrapInt32 | sources/Android/android-communications/library/src/sdk/java/com/polar/sdk/api/PolarD2HNotificationsApi.kt:101-106 | the hash arithmetic lands in the 32-bit signed range and agrees with the exact value modulo 2^32 |
| D2HNotificationsApi.ContentHashCode | sources/Android/android-communications/library/src/sdk/java/com/polar/sdk/api/PolarD2HNotificationsApi.kt:103 | the 31-polynomial over the signed bytes, wrapped to 32 bits |
| D2HNotificationsApi.HashCode | sources/Android/android-communications/library/src/sdk/java/com/polar/sdk/api/PolarD2HNotificationsApi.kt:101-106 | the overridden hashCode from the kind's hash, the bytes' content hash and the payload's hash |
| D2HNotificationsApi.EqualDataHashEqually | sources/Android/android-communications/library/src/sdk/java/com/polar/sdk/api/PolarD2HNotificationsApi.kt:88-106 | records that are equal have equal hash codes |
| D2HNotificationsUtils.KindsWithoutDecoder | sources/Android/android-communications/library/src/sdk/java/com/polar/sdk/impl/utils/PolarD2HNotificationsUtils.kt:62-110 | exactly INTERNAL_TEST_EVENT, IDLING, BATTERY_STATUS, STOP_GPS_MEASUREMENT and KEEP_BACKGROUND_ALIVE have no parameter message |
| D2HNotificationsUtils.DecodersAreDistinct | sources/Android/android-communications/library/src/sdk/java/com/polar/sdk/impl/utils/PolarD2HNotificationsUtils.kt:62-104 | no two kinds parse with the same message type |
| D2HNotificationsUtils.DecoderFor | sources/Android/android-communications/library/src/sdk/java/com/polar/sdk/impl/utils/PolarD2HNotificationsUtils.kt:62-110 | the protobuf message type each kind is parsed with; none for the five kinds without parameters |
| D2HNotificationsUtils.ParseD2HNotificationParameters | sources/Android/android-communications/library/src/sdk/java/com/polar/sdk/impl/utils/PolarD2HNotificationsUtils.kt:53-115 | parameters are parsed iff the data is non-empty, the kind has a message, and the parse succeeds; a failed parse gives null |
| D2HNotificationsUtils.ToEvent | sources/Android/android-communications/library/src/sdk/java/com/polar/sdk/impl/utils/PolarD2HNotificationsUtils.kt:27-36 | a notification yields an event iff its id is a known kind; the event carries that kind and the raw bytes |
| D2HNotificationsUtils.Observe | sources/Android/android-communications/library/src/sdk/java/com/polar/sdk/impl/utils/PolarD2HNotificationsUtils.kt:25-44 | the stream never has more events than notifications |
| D2HNotificationsUtils.ObserveAppend | sources/Android/android-communications/library/src/sdk/java/com/polar/sdk/impl/utils/PolarD2HNotificationsUtils.kt:26-37 | observing a feed in two parts gives the two event lists concatenated (the stream is stateless and ordered) |
| D2HNotificationsUtils.ObserveCount | sources/Android/android-communications/library/src/sdk/java/com/polar/sdk/impl/utils/PolarD2HNotificationsUtils.kt:28-35 | the number of events is the number of notifications with a known id |
| D2HNotificationsUtils.ObserveEventsComeFromFeed | sources/Android/android-communications/library/src/sdk/java/com/polar/sdk/impl/utils/PolarD2HNotificationsUtils.kt:28-35 | there is one event per recognised notification, and each is built from some notification of the feed: its kind, its bytes and their parse |
| D2HNotificationsUtils.ToEventIsEventFrom | sources/Android/android-communications/library/src/sdk/java/com/polar/sdk/impl/utils/PolarD2HNotificationsUtils.kt:28-35 | an event made from one notification carries that notification's kind, bytes and parse |
| D2HNotificationsUtils.UnknownOnlyFeedIsSilent | sources/Android/android-communications/library/src/sdk/java/com/polar/sdk/impl/utils/PolarD2HNotificationsUtils.kt:29-31 | a feed of unknown ids produces no events |
| D2HNotificationsUtils.UnknownCountZero | sources/Android/android-communications/library/src/sdk/java/com/polar/sdk/impl/utils/PolarD2HNotificationsUtils.kt:29-31 | a feed of unknown ids has no known notification to count |
| D2HNotificationsUtils.UnknownThenEmptyIdling | sources/Android/android-communications/library/src/sdk/java/com/polar/sdk/impl/utils/PolarD2HNotificationsUtils.kt:28-35 | an unknown id followed by IDLING with no parameters yields only the IDLING event, with null parameters |
| OfflineRecordingData.ResultPriorityListsEveryModalityOnce | sources/Android/android-communications/library/src/sdk/java/com/polar/sdk/impl/utils/EfficientOfflineAccumulator.kt:163-188 | the result order names every measurement type exactly once |
| OfflineRecordingData.PriorityIndex | sources/Android/android-communications/library/src/sdk/java/com/polar/sdk/impl/utils/EfficientOfflineAccumulator.kt:163-188 | the place of each measurement type in the result order |
| OfflineRecordingData.PriorityIndexIsUnique | sources/Android/android-communications/library/src/sdk/java/com/polar/sdk/impl/utils/EfficientOfflineAccumulator.kt:163-188 | a measurement type stands at one place only in the result order |
| OfflineAccumulatorAndroid.FirstBufferedIn | sources/Android/android-communications/library/src/sdk/java/com/polar/sdk/impl/utils/EfficientOfflineAccumulator.kt:163-188 | the chosen type is buffered and every type before it in the order is not; none iff nothing is buffered |
| OfflineAccumulatorAndroid.FirstBufferedAt | sources/Android/android-communications/library/src/sdk/java/com/polar/sdk/impl/utils/EfficientOfflineAccumulator.kt:163-188 | the first buffered type in the order is the one chosen |
| OfflineAccumulatorAndroid.ResultFollowsPriority | sources/Android/android-communications/library/src/sdk/java/com/polar/sdk/impl/utils/EfficientOfflineAccumulator.kt:163-188 | getResult returns null when nothing is buffered, else the recording of the first buffered type in PPI, PPG, ACC, GYRO, MAG, HR, temperature, skin order |
| OfflineAccumulatorAndroid.CompletePickDoesNotCrash | sources/Android/android-communications/library/src/sdk/java/com/polar/sdk/impl/utils/EfficientOfflineAccumulator.kt:164-187 | in a complete state the `!!` unwraps of a buffered type succeed, and the recording carries that type and all its samples |
| OfflineAccumulatorAndroid.Pick | sources/Android/android-communications/library/src/sdk/java/com/polar/sdk/impl/utils/EfficientOfflineAccumulator.kt:164-187 | the recording built from one buffer; a null start time, PPG type or ACC/GYRO settings is a NullPointerException |
| OfflineAccumulatorAndroid.ResultOf | sources/Android/android-communications/library/src/sdk/java/com/polar/sdk/impl/utils/EfficientOfflineAccumulator.kt:163-188 | getResult: the first non-null buffer in priority order, even when empty |
| OfflineAccumulatorAndroid.FillKeepsComplete | sources/Android/android-communications/library/src/sdk/java/com/polar/sdk/impl/utils/EfficientOfflineAccumulator.kt:67-75 | a buffer that accepts a chunk without error keeps its start time, and its settings where required |
| OfflineAccumulatorAndroid.Fill | sources/Android/android-communications/library/src/sdk/java/com/polar/sdk/impl/utils/EfficientOfflineAccumulator.kt:67-75 | one buffer's step: the first chunk assigns samples, then settings (throwing when a required one is missing) and start time; later chunks append |
| OfflineAccumulatorAndroid.ApplyShape | sources/Android/android-communications/library/src/sdk/java/com/polar/sdk/impl/utils/EfficientOfflineAccumulator.kt:63-160 | a chunk changes only its own type's buffer (and the PPG type, always overwritten by a PPG chunk) |
| OfflineAccumulatorAndroid.Apply | sources/Android/android-communications/library/src/sdk/java/com/polar/sdk/impl/utils/EfficientOfflineAccumulator.kt:63-160 | the state after one accumulate and the error it throws |
| OfflineAccumulatorAndroid.AccumulateAll | sources/Android/android-communications/library/src/sdk/java/com/polar/sdk/impl/utils/EfficientOfflineAccumulator.kt:63-160 | repeated accumulate, stopping at the first throw |
| OfflineAccumulatorAndroid.AccumulateKeepsComplete | sources/Android/android-communications/library/src/sdk/java/com/polar/sdk/impl/utils/EfficientOfflineAccumulator.kt:63-160 | an accepted chunk keeps the state complete |
| OfflineAccumulatorAndroid.CompleteResultDoesNotCrash | sources/Android/android-communications/library/src/sdk/java/com/polar/sdk/impl/utils/EfficientOfflineAccumulator.kt:163-188 | getResult on a complete state never throws, and returns the first buffered type's samples |
| OfflineAccumulatorAndroid.MissingSettingsThrowsAfterAssigning | sources/Android/android-communications/library/src/sdk/java/com/polar/sdk/impl/utils/EfficientOfflineAccumulator.kt:67-71 | a first ACC/GYRO/MAG/PPG chunk without settings throws the type's own message, but its samples are already stored and its start time is not |
| OfflineAccumulatorAndroid.FillWithoutSettings | sources/Android/android-communications/library/src/sdk/java/com/polar/sdk/impl/utils/EfficientOfflineAccumulator.kt:67-71 | a first chunk without required settings stores its samples, leaves settings and start time, and throws the type's message |
| OfflineAccumulatorAndroid.SettingsFreeModalitiesNeverThrow | sources/Android/android-communications/library/src/sdk/java/com/polar/sdk/impl/utils/EfficientOfflineAccumulator.kt:119-157 | PPI, HR, temperature and skin-temperature chunks never throw |
| OfflineAccumulatorAndroid.UnsupportedChunkThrows | sources/Android/android-communications/library/src/sdk/java/com/polar/sdk/impl/utils/EfficientOfflineAccumulator.kt:159 | any other payload throws "Data type is not supported." and changes nothing |
| OfflineAccumulatorAndroid.BufferIsConcatenation | sources/Android/android-communications/library/src/sdk/java/com/polar/sdk/impl/utils/EfficientOfflineAccumulator.kt:63-160 | feeding accepted chunks of one type buffers all their samples in order, with the first chunk's start time and (where required) settings |
| OfflineAccumulatorAndroid.SuccessfulRunIsComplete | sources/Android/android-communications/library/src/sdk/java/com/polar/sdk/impl/utils/EfficientOfflineAccumulator.kt:63-188 | after a run with no error, getResult does not throw |
| OfflineAccumulatorAndroid.FreshIsComplete | sources/Android/android-communications/library/src/sdk/java/com/polar/sdk/impl/utils/EfficientOfflineAccumulator.kt:24-61 | a new accumulator is complete and its result is null |
| OfflineAccumulatorAndroid.EfficientOfflineAccumulator.constructor | sources/Android/android-communications/library/src/sdk/java/com/polar/sdk/impl/utils/EfficientOfflineAccumulator.kt:24-61 | every buffer, settings, start time and the PPG type start null |
| OfflineAccumulatorAndroid.EfficientOfflineAccumulator.Accumulate | sources/Android/android-communications/library/src/sdk/java/com/polar/sdk/impl/utils/EfficientOfflineAccumulator.kt:63-161 | the fields after the call, and the error thrown, are those of the chunk-step function on the state before |
| OfflineAccumulatorAndroid.EfficientOfflineAccumulator.GetResult | sources/Android/android-communications/library/src/sdk/java/com/polar/sdk/impl/utils/EfficientOfflineAccumulator.kt:163-189 | the result is the pick in priority order of the current buffers, and on a complete state it never throws |
| OfflineAccumulatorIos.MapHrAll | sources/iOS/ios-communications/Sources/PolarBleSdk/sdk/impl/utils/EfficientOfflineAccumulator.swift:135-137 | each HR sample maps to one output sample with empty RR intervals |
| OfflineAccumulatorIos.MapHr | sources/iOS/ios-communications/Sources/PolarBleSdk/sdk/impl/utils/EfficientOfflineAccumulator.swift:136 | an HR sample keeps hr, quality and corrected hr, with no RR intervals and no contact |
| OfflineAccumulatorIos.FrameSample | sources/iOS/ios-communications/Sources/PolarBleSdk/sdk/impl/utils/EfficientOfflineAccumulator.swift:96-120 | each known PPG frame type gives its channel layout and PPG type; other frame types are ignored |
| OfflineAccumulatorIos.LastType | sources/iOS/ios-communications/Sources/PolarBleSdk/sdk/impl/utils/EfficientOfflineAccumulator.swift:95-121 | the PPG type after a run of frames |
| OfflineAccumulatorIos.MappedFrames | sources/iOS/ios-communications/Sources/PolarBleSdk/sdk/impl/utils/EfficientOfflineAccumulator.swift:95-121 | frames of an unknown type are skipped, so no more samples than frames |
| OfflineAccumulatorIos.MappedFramesEmptyIff | sources/iOS/ios-communications/Sources/PolarBleSdk/sdk/impl/utils/EfficientOfflineAccumulator.swift:95-121 | a chunk adds no PPG samples iff none of its frames has a known type |
| OfflineAccumulatorIos.LastTypeIsLastKnownFrame | sources/iOS/ios-communications/Sources/PolarBleSdk/sdk/impl/utils/EfficientOfflineAccumulator.swift:95-121 | the PPG type after a chunk is that of its last known frame, and unchanged when it has none |
| OfflineAccumulatorIos.AppendAll | sources/iOS/ios-communications/Sources/PolarBleSdk/sdk/impl/utils/EfficientOfflineAccumulator.swift:68-70 | the append loop leaves the buffer followed by the chunk's samples, in order |
| OfflineAccumulatorIos.AppendHr | sources/iOS/ios-communications/Sources/PolarBleSdk/sdk/impl/utils/EfficientOfflineAccumulator.swift:135-137 | the HR loop appends the mapped samples, in order |
| OfflineAccumulatorIos.AppendFrames | sources/iOS/ios-communications/Sources/PolarBleSdk/sdk/impl/utils/EfficientOfflineAccumulator.swift:95-121 | the frame loop appends the mapped known frames and leaves the PPG type of the last known frame |
| OfflineAccumulatorIos.Started | sources/iOS/ios-communications/Sources/PolarBleSdk/sdk/impl/utils/EfficientOfflineAccumulator.swift:59-67 | the first chunk of a type fixes its start time and settings; later chunks leave them |
| OfflineAccumulatorIos.Apply | sources/iOS/ios-communications/Sources/PolarBleSdk/sdk/impl/utils/EfficientOfflineAccumulator.swift:58-165 | the state after one accumulate and the error it throws |
| OfflineAccumulatorIos.PlainTrack | sources/iOS/ios-communications/Sources/PolarBleSdk/sdk/impl/utils/EfficientOfflineAccumulator.swift:63-153 | the track of a type other than PPG and HR |
| OfflineAccumulatorIos.SameTrack | sources/iOS/ios-communications/Sources/PolarBleSdk/sdk/impl/utils/EfficientOfflineAccumulator.swift:62-164 | two states agree on one type's track |
| OfflineAccumulatorIos.ApplyShape | sources/iOS/ios-communications/Sources/PolarBleSdk/sdk/impl/utils/EfficientOfflineAccumulator.swift:58-153 | a measurement chunk never throws; it sets start time and settings (default when absent) only the first time; the chunk's own track becomes the old samples followed by the chunk's (mapped PPG frames, mapped HR samples); every other track is unchanged |
| OfflineAccumulatorIos.ApplyTracks | sources/iOS/ios-communications/Sources/PolarBleSdk/sdk/impl/utils/EfficientOfflineAccumulator.swift:68-153 | a chunk appends its samples to its own track: plain samples, mapped PPG frames or mapped HR samples |
| OfflineAccumulatorIos.AccumulateAll | sources/iOS/ios-communications/Sources/PolarBleSdk/sdk/impl/utils/EfficientOfflineAccumulator.swift:58-165 | repeated accumulate, stopping at the first throw |
| OfflineAccumulatorIos.AllPlain | sources/iOS/ios-communications/Sources/PolarBleSdk/sdk/impl/utils/EfficientOfflineAccumulator.swift:68-153 | the samples of a run of chunks, in order |
| OfflineAccumulatorIos.AllFrames | sources/iOS/ios-communications/Sources/PolarBleSdk/sdk/impl/utils/EfficientOfflineAccumulator.swift:95-121 | the mapped PPG samples of a run of chunks, in order |
| OfflineAccumulatorIos.AllHr | sources/iOS/ios-communications/Sources/PolarBleSdk/sdk/impl/utils/EfficientOfflineAccumulator.swift:135-137 | the mapped HR samples of a run of chunks, in order |
| OfflineAccumulatorIos.TrackIsConcatenation | sources/iOS/ios-communications/Sources/PolarBleSdk/sdk/impl/utils/EfficientOfflineAccumulator.swift:58-165 | accumulating chunks of one type from an empty track throws nothing; the start time and settings are the first chunk's; the samples are all chunks' samples in order; every other track is unchanged |
| OfflineAccumulatorIos.EmptyChunkOnlyStarts | sources/iOS/ios-communications/Sources/PolarBleSdk/sdk/impl/utils/EfficientOfflineAccumulator.swift:155-158 | an empty chunk only records the first empty start time |
| OfflineAccumulatorIos.UnsupportedChunkThrows | sources/iOS/ios-communications/Sources/PolarBleSdk/sdk/impl/utils/EfficientOfflineAccumulator.swift:160-163 | any other payload throws "GetOfflineRecording failed. Data type is not supported." and changes nothing |
| OfflineAccumulatorIos.FirstReadyIn | sources/iOS/ios-communications/Sources/PolarBleSdk/sdk/impl/utils/EfficientOfflineAccumulator.swift:169-206 | the chosen type is ready and no earlier type in the order is; none iff no type is ready |
| OfflineAccumulatorIos.FirstReadyAt | sources/iOS/ios-communications/Sources/PolarBleSdk/sdk/impl/utils/EfficientOfflineAccumulator.swift:169-206 | the first ready type in the order is the one chosen |
| OfflineAccumulatorIos.ResultFollowsPriority | sources/iOS/ios-communications/Sources/PolarBleSdk/sdk/impl/utils/EfficientOfflineAccumulator.swift:169-211 | getResult is the recording of the first ready type in priority order, else the empty recording when an empty chunk was seen, else nil |
| OfflineAccumulatorIos.ResultOfFirstReady | sources/iOS/ios-communications/Sources/PolarBleSdk/sdk/impl/utils/EfficientOfflineAccumulator.swift:169-211 | when a type is the first ready one, the result is its recording |
| OfflineAccumulatorIos.ResultOfNoneReady | sources/iOS/ios-communications/Sources/PolarBleSdk/sdk/impl/utils/EfficientOfflineAccumulator.swift:169-211 | when no type is ready, the result is the empty recording or nil |
| OfflineAccumulatorIos.Ready | sources/iOS/ios-communications/Sources/PolarBleSdk/sdk/impl/utils/EfficientOfflineAccumulator.swift:170-206 | a type can be returned: start time, a sample, its settings and, for PPG, its type |
| OfflineAccumulatorIos.RecordingOf | sources/iOS/ios-communications/Sources/PolarBleSdk/sdk/impl/utils/EfficientOfflineAccumulator.swift:170-206 | the recording of a ready type; PPI stamped with its start in seconds, temperatures with the last sample's timestamp |
| OfflineAccumulatorIos.ResultOf | sources/iOS/ios-communications/Sources/PolarBleSdk/sdk/impl/utils/EfficientOfflineAccumulator.swift:169-211 | getResult: the first ready type in priority order, else the empty recording, else nothing |
| OfflineAccumulatorIos.FreshIsCoherent | sources/iOS/ios-communications/Sources/PolarBleSdk/sdk/impl/utils/EfficientOfflineAccumulator.swift:15-52 | a new accumulator is coherent and its result is nil |
| OfflineAccumulatorIos.CoherentReady | sources/iOS/ios-communications/Sources/PolarBleSdk/sdk/impl/utils/EfficientOfflineAccumulator.swift:170-206 | in a coherent state a type is ready iff it has samples |
| OfflineAccumulatorIos.AccumulateKeepsCoherent | sources/iOS/ios-communications/Sources/PolarBleSdk/sdk/impl/utils/EfficientOfflineAccumulator.swift:58-165 | every chunk keeps the state coherent: samples imply a start time, settings exist iff a start time does, and PPG samples imply a PPG type |
| OfflineAccumulatorIos.CoherentResult | sources/iOS/ios-communications/Sources/PolarBleSdk/sdk/impl/utils/EfficientOfflineAccumulator.swift:169-211 | in a coherent state the result is nil iff no samples and no empty chunk were seen, and a type is picked iff it has samples and no type before it in the priority order has any |
| OfflineAccumulatorIos.CoherentResultNone | sources/iOS/ios-communications/Sources/PolarBleSdk/sdk/impl/utils/EfficientOfflineAccumulator.swift:169-211 | in a coherent state the result is nil iff no samples and no empty chunk were seen |
| OfflineAccumulatorIos.CoherentFirstReady | sources/iOS/ios-communications/Sources/PolarBleSdk/sdk/impl/utils/EfficientOfflineAccumulator.swift:169-211 | in a coherent state a type is the first ready one iff it has samples and no earlier type has any |
| OfflineAccumulatorIos.EfficientOfflineAccumulator.constructor | sources/iOS/ios-communications/Sources/PolarBleSdk/sdk/impl/utils/EfficientOfflineAccumulator.swift:15-52 | all sample arrays start empty; every start time, settings value and the PPG type start nil |
| OfflineAccumulatorIos.EfficientOfflineAccumulator.Accumulate | sources/iOS/ios-communications/Sources/PolarBleSdk/sdk/impl/utils/EfficientOfflineAccumulator.swift:58-165 | the fields after the call, and the error thrown, are those of the chunk-step function on the state before |
| OfflineAccumulatorIos.EfficientOfflineAccumulator.GetResult | sources/iOS/ios-communications/Sources/PolarBleSdk/sdk/impl/utils/EfficientOfflineAccumulator.swift:169-211 | the result is the pick in priority order of the current buffers; on a coherent state it is nil iff no samples and no empty chunk were seen |
| CivilDate.NextDay | sources/iOS/ios-communications/Sources/PolarBleSdk/sdk/impl/PolarBleApiImpl+FastDelete.swift:50 | the next calendar day is a valid day after the current one |
| CivilDate.DaysInMonth | sources/iOS/ios-communications/Sources/PolarBleSdk/sdk/impl/PolarBleApiImpl+FastDelete.swift:50 | the Gregorian month lengths, with leap years |
| CivilDate.NextDayIsAdjacent | sources/iOS/ios-communications/Sources/PolarBleSdk/sdk/impl/PolarBleApiImpl+FastDelete.swift:50 | no valid day lies between a day and the next |
| CivilDate.OrderIsTotal | sources/iOS/ios-communications/Sources/PolarBleSdk/sdk/impl/PolarBleApiImpl+FastDelete.swift:48 | any two days compare one way or the other, never both |
| CivilDate.PaddedValue | sources/iOS/ios-communications/Sources/PolarBleSdk/sdk/impl/PolarBleApiImpl+FastDelete.swift:56 | zero padding never changes the number a date field denotes |
| CivilDate.PaddedWidth | sources/iOS/ios-communications/Sources/PolarBleSdk/sdk/impl/PolarBleApiImpl+FastDelete.swift:56 | a field below 10^width prints in exactly width digits |
| CivilDate.FormatYyyyMMdd | sources/iOS/ios-communications/Sources/PolarBleSdk/sdk/impl/PolarBleApiImpl+FastDelete.swift:56 | the day renders as at least eight decimal digits |
| CivilDate.ParseYyyyMMdd | sources/iOS/ios-communications/Sources/PolarBleSdk/sdk/impl/PolarBleApiImpl+FastDelete.swift:56 | reading an eight-digit yyyyMMdd string back into a day |
| CivilDate.FormatRoundTrip | sources/iOS/ios-communications/Sources/PolarBleSdk/sdk/impl/PolarBleApiImpl+FastDelete.swift:56 | for the years 1 to 9999 the rendering has eight digits and reads back as the same day |
| CivilDate.FormatIsInjective | sources/iOS/ios-communications/Sources/PolarBleSdk/sdk/impl/PolarBleApiImpl+FastDelete.swift:56 | distinct days of the years 1 to 9999 render differently |
| FastDelete.DeleteAutoSamplesDirectory | sources/iOS/ios-communications/Sources/PolarBleSdk/sdk/impl/PolarBleApiImpl+FastDelete.swift:10-32 | a failing session lookup or a missing PSFTP client each give their own error and send nothing; otherwise exactly one REMOVE of "/U/0/AUTOS/", and its failure is the result |
| FastDelete.DaysBetween | sources/iOS/ios-communications/Sources/PolarBleSdk/sdk/impl/PolarBleApiImpl+FastDelete.swift:45-51 | the days from the first date through the last, one per day |
| FastDelete.DaysBetweenEmptyIff | sources/iOS/ios-communications/Sources/PolarBleSdk/sdk/impl/PolarBleApiImpl+FastDelete.swift:45-51 | no day is enumerated iff the start is after the end |
| FastDelete.DaysBetweenShape | sources/iOS/ios-communications/Sources/PolarBleSdk/sdk/impl/PolarBleApiImpl+FastDelete.swift:45-51 | the days start at the start date, stay within the range, follow day by day, and the day after the last is past the end |
| FastDelete.DaysBetweenAreValid | sources/iOS/ios-communications/Sources/PolarBleSdk/sdk/impl/PolarBleApiImpl+FastDelete.swift:45-51 | every enumerated day is a valid calendar day |
| FastDelete.DaysBetweenValid | sources/iOS/ios-communications/Sources/PolarBleSdk/sdk/impl/PolarBleApiImpl+FastDelete.swift:45-51 | every enumerated day is a valid date |
| FastDelete.DaysBetweenIsComplete | sources/iOS/ios-communications/Sources/PolarBleSdk/sdk/impl/PolarBleApiImpl+FastDelete.swift:45-51 | every valid day in the range is enumerated |
| FastDelete.DaysBetweenAscending | sources/iOS/ios-communications/Sources/PolarBleSdk/sdk/impl/PolarBleApiImpl+FastDelete.swift:45-51 | the enumerated days are strictly ascending |
| FastDelete.EnumerateDays | sources/iOS/ios-communications/Sources/PolarBleSdk/sdk/impl/PolarBleApiImpl+FastDelete.swift:45-51 | the date loop produces exactly the days of the range |
| FastDelete.DayPath | sources/iOS/ios-communications/Sources/PolarBleSdk/sdk/impl/PolarBleApiImpl+FastDelete.swift:56 | the directory removed for one day |
| FastDelete.DayPathIsInjective | sources/iOS/ios-communications/Sources/PolarBleSdk/sdk/impl/PolarBleApiImpl+FastDelete.swift:56 | for the years 1 to 9999 distinct days give distinct directory paths |
| FastDelete.DeletePlan | sources/iOS/ios-communications/Sources/PolarBleSdk/sdk/impl/PolarBleApiImpl+FastDelete.swift:45-71 | one REMOVE per day, as many as days, in day order |
| FastDelete.DeletePlanCoversRangeOnce | sources/iOS/ios-communications/Sources/PolarBleSdk/sdk/impl/PolarBleApiImpl+FastDelete.swift:45-71 | the REMOVE requests cover every day of the range and never repeat a directory |
| FastDelete.DeleteStoredDataDirectories | sources/iOS/ios-communications/Sources/PolarBleSdk/sdk/impl/PolarBleApiImpl+FastDelete.swift:34-76 | a failing session lookup or a missing client each give their own error and send nothing; otherwise every day of the range is valid and the requests sent are exactly the delete plan of those days: one REMOVE of "/U/0/yyyyMMdd/sub/" per day in order, failures ignored, always completing |
| AutosCache.AutosFileCache.constructor | sources/iOS/ios-communications/Sources/PolarBleSdk/sdk/impl/utils/AutosFileCache.swift:26-28 | the cache starts as the stored dictionary, or empty when nothing decodes |
| AutosCache.AutosFileCache.GetCachedEntry | sources/iOS/ios-communications/Sources/PolarBleSdk/sdk/impl/utils/AutosFileCache.swift:30-32 | an entry is returned iff the file name is cached, and it is the cached entry |
| AutosCache.AutosFileCache.UpdateCache | sources/iOS/ios-communications/Sources/PolarBleSdk/sdk/impl/utils/AutosFileCache.swift:34-39 | the entry is stored under its file name and every other name's entry is unchanged |
| AutosCache.AutosFileCache.ShouldDownloadFile | sources/iOS/ios-communications/Sources/PolarBleSdk/sdk/impl/utils/AutosFileCache.swift:41-74 | download iff the file is uncached, its size changed, it is newer than the cached time, or its cached day is in the requested range |
| AutosCache.UnchangedFileFollowsRequestedDays | sources/iOS/ios-communications/Sources/PolarBleSdk/sdk/impl/utils/AutosFileCache.swift:52-73 | a file exactly as cached is downloaded iff its day is in the requested range |
| AutosCache.ChangedFileIsDownloaded | sources/iOS/ios-communications/Sources/PolarBleSdk/sdk/impl/utils/AutosFileCache.swift:48-60 | a file newer than its cached time (or uncached) is always downloaded |
| AutosCache.EntryNamed | sources/iOS/ios-communications/Sources/PolarBleSdk/sdk/impl/utils/PolarAutomaticSamplesCacheUtils.swift:26-28 | a name is found iff the directory has an entry with it, and the one found is such an entry |
| AutosCache.EntryNamedIsTheEntry | sources/iOS/ios-communications/Sources/PolarBleSdk/sdk/impl/utils/PolarAutomaticSamplesCacheUtils.swift:26 | with unique names the dictionary finds each entry by its own name |
| AutosCache.ListedFiles | sources/iOS/ios-communications/Sources/PolarBleSdk/sdk/impl/utils/PolarAutomaticSamplesCacheUtils.swift:26-28 | the names found in the listing, with listed size and time, in the names' order |
| AutosCache.KeepDownloads | sources/iOS/ios-communications/Sources/PolarBleSdk/sdk/impl/utils/PolarAutomaticSamplesCacheUtils.swift:32-40 | the files the cache says to download, in order |
| AutosCache.FilesToDownload | sources/iOS/ios-communications/Sources/PolarBleSdk/sdk/impl/utils/PolarAutomaticSamplesCacheUtils.swift:19-43 | filesToDownload: the listed names the cache says to download |
| AutosCache.Decision | sources/iOS/ios-communications/Sources/PolarBleSdk/sdk/impl/utils/PolarAutomaticSamplesCacheUtils.swift:27-40 | whether one name is kept, and as what |
| AutosCache.KeepDownloadsDistributes | sources/iOS/ios-communications/Sources/PolarBleSdk/sdk/impl/utils/PolarAutomaticSamplesCacheUtils.swift:32-40 | the cache filter distributes over concatenation |
| AutosCache.FilesToDownloadStep | sources/iOS/ios-communications/Sources/PolarBleSdk/sdk/impl/utils/PolarAutomaticSamplesCacheUtils.swift:27-40 | the result for a list of names is the decision for the first name followed by the result for the rest |
| AutosCache.FilesToDownloadMembers | sources/iOS/ios-communications/Sources/PolarBleSdk/sdk/impl/utils/PolarAutomaticSamplesCacheUtils.swift:19-43 | a file is returned iff its name is among the filtered names, the directory lists it with that size and time, and the cache says to download it |
| AutosCache.FilesToDownloadKeepsOrder | sources/iOS/ios-communications/Sources/PolarBleSdk/sdk/impl/utils/PolarAutomaticSamplesCacheUtils.swift:27-40 | the returned names are a subsequence of the filtered names, in their order |
| AutosCache.UpdateCacheFor | sources/iOS/ios-communications/Sources/PolarBleSdk/sdk/impl/utils/PolarAutomaticSamplesCacheUtils.swift:46-55 | the cache maps the file to its parsed day, size and time, so re-asking about the same file downloads it iff that day is in the requested range |

## Left out

- Bluetooth transport, RxJava and Combine/async streams are not modelled. Each operation is one call that returns its final outcome. A listing that fails part-way may already have emitted earlier paths; the model returns only the error.
- File system, asset copying and JSON decoding in capability initialisation are left out. `Initialize` takes the loaded configuration, or none when loading throws. `@Synchronized` is not modelled.
- DeviceCapabilities.Lowercase: only ASCII letters are lower-cased. Kotlin `lowercase()` also folds non-ASCII letters by the root locale.
- Protocol-buffer encoding and decoding are parameters. The file operations take a responder, a writer or a `DeviceFs` of parsed directories. The notification parameters take a parser per message type. The `PbPFtpError` code table is a map.
- Logging (`BleLogger`, `Log`) has no effect on any result and is omitted.
- PolarFileUtils.FetchRecursively: the order of the listed files and of the GETs is that of synchronous, depth-first replies. Kotlin's `flatMap` may interleave them, and may emit a directory's plain files before the contents of sub-directories listed earlier; only the set of listed paths is promised (`FetchRecursivelyIsSound`, `FetchRecursivelyIsComplete`). GETs the source may already have sent for sibling directories, and any requests after the first failure, are not modelled.
- PolarFileUtils.FetchRecursively: requires directory entry names to be non-empty. A device that lists an empty directory name would make the source request the same path forever.
- ServiceClientUtils.WaitForServiceDiscovery: the wall clock and `Thread.sleep` are modelled by `DiscoveryClock`. It gives, per poll, whether the service is discovered, the extra time taken and whether the sleep was interrupted.
- ServiceClientUtils.SessionPsPfcClientReady: the second reading of `isServiceDiscovered` is an input, because the client may change between the two reads.
- OfflineAccumulatorAndroid: the PMD-to-Polar sample mappers (`mapPmdClient...`) and `mapPmdSettingsToPolarSettings` are treated as the identity on samples and settings. The Kotlin `!!` dereferences are modelled by the `Crash` error (NullPointerException) instead of crashing.
- OfflineAccumulatorIos: frames carry their channel values already extracted. The traps on a too-short `ppgDataSamples` array, on a failed `as!` cast and on a nil `timeStamp!` are not modelled. A nil `startTime` is not modelled either.
- OfflineAccumulatorIos.RecordingOf: the PPI timestamp is the start time in whole seconds (millis / 1000). Negative times, which trap in the `UInt64` conversion, are excluded by using `nat`. The floating-point `timeIntervalSince1970` is not modelled.
- Float sample values (temperatures, sensor axes) are integers in the model. Only their order and count are stated.
- FastDelete: `sessionFtpClientReady` is an input (`FtpGate`). Protobuf serialisation is not modelled. In `DeleteAutoSamplesDirectory` its failure would give the same `DeviceError` as `SessionFails`. In `DeleteStoredDataDirectories` it would skip that day's REMOVE without sending anything and go on with the next day.
- FastDelete and AutosCache: dates are civil days. Times of day, time zones and the difference between `Calendar.current` and the UTC date formatter are not modelled. In a zone with a daylight-saving change, the source's "add one day" loop can skip or repeat a formatted UTC day; the model enumerates every civil day once. The Swift loop compares instants (`current <= toDate`, where `current` keeps the time of day of `fromDate`), so the last day is removed only when the time of day of `fromDate` is not later than that of `toDate`: 2025-01-01 12:00 to 2025-01-03 09:00 removes only 20250101 and 20250102. `DaysBetween`, `DaysBetweenIsComplete` and `DeletePlanCoversRangeOnce` state coverage of the whole civil-day range, which the source gives only under that condition.
- FastDelete.DeleteStoredDataDirectories: the plan covers every civil day from `fromDate` through `toDate`; the source drops the last day when the time of day of `toDate` is earlier than that of `fromDate`.
- AutosCache: the `DispatchQueue` barrier (concurrency) and `UserDefaults` persistence are not modelled. The `shared` singleton is an explicit `AutosFileCache` object.
- AutosCache.UpdateCacheFor: `pbSystemDateTimeToDate` is abstracted into the optional modification time of the listed entry. Calendar normalisation of an out-of-range `PbDate` is not modelled. That normalised date is also what `ShouldDownloadFile`'s day-range rule later reads from the cached entry, so for such a date the rule's answer is not modelled either.
- AutosCache.FilesToDownload: requires unique entry names in the directory, because `Dictionary(uniqueKeysWithValues:)` traps on a duplicate.
- Integer widths: sizes are unbounded naturals; the hash code's 32-bit wrap-around is modelled by `WrapInt32`.
