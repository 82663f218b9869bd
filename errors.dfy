/**
 * The error values that cross the boundary between the BLE transport and the SDK.
 */
module Errors {

  /** What the transport can report for one PFTP request. */
  datatype TransportError =
    | BleDisconnected
      /** A PFTP error status with its numeric code, as reported by the device. */
    | PftpResponseError(code: int)
      /** Any other failure (a GATT error, a response that does not parse, ...). */
    | OtherTransportError(description: string)

  /** The typed errors the Android SDK hands to its callers. */
  datatype PolarError =
    | PolarInvalidArgument
    | PolarDeviceNotFound
    | PolarDeviceDisconnected
    | PolarServiceNotAvailable
    | PolarNotificationNotEnabled
    | PolarOperationNotSupported
    | PolarOfflineRecordingError(description: string)
      /** `Exception(pftpError.toString())`: a known PFTP error code, by its symbolic name. */
    | PftpErrorNamed(name: string)
      /** `Exception(throwable)`: any other transport failure, wrapped. */
    | WrappedError(cause: TransportError)
      /** A transport failure handed on as it is, without translation. */
    | Unmapped(cause: TransportError)
}
