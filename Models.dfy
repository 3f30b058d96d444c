/**
 * The value types shared by the camera code: camera state, interface kind,
 * per-slot camera configuration, the view mapping, trigger groups, run mode,
 * log levels and the loosely typed parameter values handed to the devices.
 */
module Models {
  import opened Wrappers
  import opened Text

  /**
   * Connection state of a camera. The source keeps a second name, Offline,
   * for the same numeric value as Disconnected (see OFFLINE).
   */
  datatype CameraState = Disconnected | Connecting | Online

  const OFFLINE: CameraState := Disconnected

  datatype CameraInterfaceType = GigEVision2 | USB3Vision | DirectShow

  /** Persisted configuration of one camera slot. */
  datatype CameraConfig = CameraConfig(
    name: string,
    displayName: string,
    interfaceType: CameraInterfaceType,
    device: string,
    port: int,
    framegrabberParams: map<string, string>)

  const DEFAULT_DEVICE: string := "default"

  /** Number of camera slots and of display views. */
  const SLOT_COUNT: nat := 6

  /** "Cam1" .. "Cam6": the name of slot `n` (1-based). */
  function SlotName(n: nat): string {
    "Cam" + NatToString(n)
  }

  /** A configuration as a fresh `new CameraConfig { Name = name }` has it. */
  function NewConfig(name: string): CameraConfig {
    CameraConfig(name, "", GigEVision2, DEFAULT_DEVICE, 0, map[])
  }

  /** The six slots Cam1..Cam6, in order. */
  type CameraSettings = seq<CameraConfig>

  function DefaultCameraSettings(): (s: CameraSettings)
    ensures |s| == SLOT_COUNT
    ensures forall i :: 0 <= i < |s| ==> s[i] == NewConfig(SlotName(i + 1))
  {
    seq(SLOT_COUNT, i requires 0 <= i < SLOT_COUNT => NewConfig(SlotName(i + 1)))
  }

  /** View1..View6: the camera name shown in each display view (null = none). */
  type ViewMappingSettings = seq<Option<string>>

  function DefaultViewMapping(): (v: ViewMappingSettings)
    ensures |v| == SLOT_COUNT
    ensures forall i :: 0 <= i < |v| ==> v[i] == Some(SlotName(i + 1))
  {
    seq(SLOT_COUNT, i requires 0 <= i < SLOT_COUNT => Some(SlotName(i + 1)))
  }

  /**
   * The events a camera raises (ICamera): a state change with its error
   * text, a frame, or an error message. Frames carry no pixels here.
   */
  datatype CameraEvent =
    | StatusChanged(camera: string, state: CameraState, error: string)
    | ImageArrived(camera: string)
    | CameraError(camera: string, message: string)

  datatype TriggerGroup = Group1 | Group2

  datatype RunMode = Mock | Real

  datatype LogLevel = Debug | Info | Warn | Error

  /** The `object` (or HTuple) values exchanged with a device's parameter API. */
  datatype ParamValue =
    | NullValue
    | BoolValue(b: bool)
    | IntValue(i: int)
    | RealValue(r: real)
    | StrValue(s: string)
    | TupleValue(items: seq<string>)
}
