/**
 * Device capability lookup: a parsed configuration with per-device-type entries and a
 * defaults section, consulted only once initialisation has succeeded.
 */
module DeviceCapabilities {
  import opened Wrappers

  datatype FileSystemType = UNKNOWN_FILE_SYSTEM | H10_FILE_SYSTEM | POLAR_FILE_SYSTEM_V2

  /** One device type's entry; every field may be missing (null in the parsed JSON). */
  datatype DeviceCapabilitiesEntry = DeviceCapabilitiesEntry(
    fileSystemType: Option<string>,
    recordingSupported: Option<bool>,
    firmwareUpdateSupported: Option<bool>,
    isDeviceSensor: Option<bool>,
    activityDataSupported: Option<bool>)

  datatype DefaultsSection = DefaultsSection(
    fileSystemType: string,
    recordingSupported: bool,
    firmwareUpdateSupported: bool,
    isDeviceSensor: bool,
    activityDataSupported: bool)

  datatype DeviceCapabilitiesConfig = DeviceCapabilitiesConfig(
    version: string,
    devices: map<string, DeviceCapabilitiesEntry>,
    defaults: DefaultsSection)

  /** The defaults a `DefaultsSection()` is built with. */
  const BuiltInDefaults := DefaultsSection("POLAR_FILE_SYSTEM_V2", false, true, false, false)

  const EmptyConfig := DeviceCapabilitiesConfig("1.0", map[], BuiltInDefaults)

  function LowerChar(c: char): (r: char)
    ensures 'A' <= c <= 'Z' ==> 'a' <= r <= 'z'
    ensures !('A' <= c <= 'Z') ==> r == c
  {
    if 'A' <= c <= 'Z' then (c as int - 'A' as int + 'a' as int) as char else c
  }

  /** Lower-cases the ASCII letters of `s`; every other character is kept. */
  function Lowercase(s: string): (r: string)
    ensures |r| == |s|
    ensures forall i :: 0 <= i < |s| ==> r[i] == LowerChar(s[i])
  {
    seq(|s|, i requires 0 <= i < |s| => LowerChar(s[i]))
  }

  lemma LowercaseIdempotent(s: string)
    ensures Lowercase(Lowercase(s)) == Lowercase(s)
  {
  }

  /** The device-specific entry, looked up by the lower-cased device type. */
  function EntryFor(config: DeviceCapabilitiesConfig, deviceType: string): Option<DeviceCapabilitiesEntry> {
    var key := Lowercase(deviceType);
    if key in config.devices then Some(config.devices[key]) else None
  }

  /** `entry?.field ?: default`: the device's own value when present and non-null. */
  function Resolve<T>(entry: Option<DeviceCapabilitiesEntry>, field: DeviceCapabilitiesEntry -> Option<T>, default: T): (r: T)
    ensures entry.Some? && field(entry.value).Some? ==> r == field(entry.value).value
    ensures entry.None? || field(entry.value).None? ==> r == default
  {
    match entry
    case Some(e) => field(e).GetOr(default)
    case None => default
  }

  /** Maps the configured filesystem name to the enum; any other string is UNKNOWN. */
  function ParseFileSystemType(name: string): (r: FileSystemType)
    ensures r == H10_FILE_SYSTEM <==> name == "H10_FILE_SYSTEM"
    ensures r == POLAR_FILE_SYSTEM_V2 <==> name == "POLAR_FILE_SYSTEM_V2"
  {
    if name == "H10_FILE_SYSTEM" then H10_FILE_SYSTEM
    else if name == "POLAR_FILE_SYSTEM_V2" then POLAR_FILE_SYSTEM_V2
    else UNKNOWN_FILE_SYSTEM
  }

  function FileSystemTypeIn(config: DeviceCapabilitiesConfig, deviceType: string): FileSystemType {
    ParseFileSystemType(Resolve(EntryFor(config, deviceType), (e: DeviceCapabilitiesEntry) => e.fileSystemType, config.defaults.fileSystemType))
  }

  function RecordingSupportedIn(config: DeviceCapabilitiesConfig, deviceType: string): bool {
    Resolve(EntryFor(config, deviceType), (e: DeviceCapabilitiesEntry) => e.recordingSupported, config.defaults.recordingSupported)
  }

  function FirmwareUpdateSupportedIn(config: DeviceCapabilitiesConfig, deviceType: string): bool {
    Resolve(EntryFor(config, deviceType), (e: DeviceCapabilitiesEntry) => e.firmwareUpdateSupported, config.defaults.firmwareUpdateSupported)
  }

  function DeviceSensorIn(config: DeviceCapabilitiesConfig, deviceType: string): bool {
    Resolve(EntryFor(config, deviceType), (e: DeviceCapabilitiesEntry) => e.isDeviceSensor, config.defaults.isDeviceSensor)
  }

  function ActivityDataSupportedIn(config: DeviceCapabilitiesConfig, deviceType: string): bool {
    Resolve(EntryFor(config, deviceType), (e: DeviceCapabilitiesEntry) => e.activityDataSupported, config.defaults.activityDataSupported)
  }

  /** Every query depends on the device type only through its lower-cased form. */
  lemma QueriesAreCaseInsensitive(config: DeviceCapabilitiesConfig, s: string, t: string)
    requires Lowercase(s) == Lowercase(t)
    ensures FileSystemTypeIn(config, s) == FileSystemTypeIn(config, t)
    ensures RecordingSupportedIn(config, s) == RecordingSupportedIn(config, t)
    ensures FirmwareUpdateSupportedIn(config, s) == FirmwareUpdateSupportedIn(config, t)
    ensures DeviceSensorIn(config, s) == DeviceSensorIn(config, t)
    ensures ActivityDataSupportedIn(config, s) == ActivityDataSupportedIn(config, t)
  {
  }

  /** A device type with no entry gets the defaults section's answers. */
  lemma UnlistedDeviceGetsDefaults(config: DeviceCapabilitiesConfig, deviceType: string)
    requires Lowercase(deviceType) !in config.devices
    ensures FileSystemTypeIn(config, deviceType) == ParseFileSystemType(config.defaults.fileSystemType)
    ensures RecordingSupportedIn(config, deviceType) == config.defaults.recordingSupported
    ensures FirmwareUpdateSupportedIn(config, deviceType) == config.defaults.firmwareUpdateSupported
    ensures DeviceSensorIn(config, deviceType) == config.defaults.isDeviceSensor
    ensures ActivityDataSupportedIn(config, deviceType) == config.defaults.activityDataSupported
  {
  }

  /** The built-in defaults: V2 filesystem, firmware update only. */
  lemma BuiltInDefaultsAnswers(deviceType: string)
    ensures FileSystemTypeIn(EmptyConfig, deviceType) == POLAR_FILE_SYSTEM_V2
    ensures !RecordingSupportedIn(EmptyConfig, deviceType)
    ensures FirmwareUpdateSupportedIn(EmptyConfig, deviceType)
    ensures !DeviceSensorIn(EmptyConfig, deviceType)
    ensures !ActivityDataSupportedIn(EmptyConfig, deviceType)
  {
  }

  /**
   * The process-wide capability registry. `Initialize` takes the outcome of reading and
   * parsing the configuration file (None when that threw).
   */
  class DeviceCapabilitiesUtility {
    var initialized: bool
    var config: DeviceCapabilitiesConfig

    constructor ()
      ensures !initialized
    {
      initialized := false;
      config := EmptyConfig;
    }

    method Initialize(loaded: Option<DeviceCapabilitiesConfig>)
      modifies this
      ensures old(initialized) ==> initialized && config == old(config)
      ensures !old(initialized) && loaded.Some? ==> initialized && config == loaded.value
      ensures !old(initialized) && loaded.None? ==> !initialized && config == old(config)
    {
      if initialized {
        return;
      }
      match loaded {
        case Some(c) =>
          config := c;
          initialized := true;
        case None =>
      }
    }

    function EnsureInitialized(): (r: bool)
      reads this
      ensures r <==> initialized
    {
      initialized
    }

    function GetFileSystemType(deviceType: string): (r: FileSystemType)
      reads this
      ensures !initialized ==> r == UNKNOWN_FILE_SYSTEM
      ensures initialized ==> r == FileSystemTypeIn(config, deviceType)
    {
      if !EnsureInitialized() then UNKNOWN_FILE_SYSTEM else FileSystemTypeIn(config, deviceType)
    }

    function IsRecordingSupported(deviceType: string): (r: bool)
      reads this
      ensures r <==> initialized && RecordingSupportedIn(config, deviceType)
    {
      if !EnsureInitialized() then false else RecordingSupportedIn(config, deviceType)
    }

    function IsFirmwareUpdateSupported(deviceType: string): (r: bool)
      reads this
      ensures r <==> initialized && FirmwareUpdateSupportedIn(config, deviceType)
    {
      if !EnsureInitialized() then false else FirmwareUpdateSupportedIn(config, deviceType)
    }

    function IsDeviceSensor(deviceType: string): (r: bool)
      reads this
      ensures r <==> initialized && DeviceSensorIn(config, deviceType)
    {
      if !EnsureInitialized() then false else DeviceSensorIn(config, deviceType)
    }

    function IsActivityDataSupported(deviceType: string): (r: bool)
      reads this
      ensures r <==> initialized && ActivityDataSupportedIn(config, deviceType)
    {
      if !EnsureInitialized() then false else ActivityDataSupportedIn(config, deviceType)
    }
  }
}
