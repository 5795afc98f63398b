/** The value types shared by the services and the view model. */
module Devices {

  /** The high-level state shown to the user (AdbMirror/Core/DeviceState.cs). */
  datatype DeviceState =
    | NoDevice
    | Unauthorized
    | Offline
    | Connected
    | MultipleDevices
    | AdbNotAvailable
    | ScrcpyNotAvailable
    | Mirroring

  /** Enum.ToString(): the member's name, as it appears in log lines. */
  function StateName(s: DeviceState): string {
    match s
    case NoDevice => "NoDevice"
    case Unauthorized => "Unauthorized"
    case Offline => "Offline"
    case Connected => "Connected"
    case MultipleDevices => "MultipleDevices"
    case AdbNotAvailable => "AdbNotAvailable"
    case ScrcpyNotAvailable => "ScrcpyNotAvailable"
    case Mirroring => "Mirroring"
  }

  /** One line of `adb devices -l`: the serial, the model tag's value and the raw state
      token. The source's initialisers default all three to the empty string. */
  datatype AndroidDevice = AndroidDevice(serial: string, model: string, stateRaw: string)
}
