# HalconWinFormsDemo camera bookkeeping, in Dafny

HalconWinFormsDemo is a WinForms machine-vision demo that drives up to six
cameras, shown in six views. A camera is either real, reached through
HALCON's generic framegrabber interface, or simulated. This project models
the bookkeeping below the windows:

- **The device registry** (`Registry`). It holds cameras with unique names,
  compared ignoring case. It keeps two trigger groups and an online flag per
  camera that reports only real changes. It fans start, stop and trigger
  calls out to the cameras.
- **The framegrabber camera** (`FramegrabberCamera`). This covers:
  - its Disconnected / Connecting / Online state machine;
  - reconnect back-off, starting at 1000 ms, doubling, capped at 30000 ms;
  - opening over an ordered, de-duplicated list of device candidates;
  - a software trigger that never throws;
  - guarded parameter access with its ordered name candidates.
- **The simulated camera** (`Simulated`). It has the same state contract,
  fault injection on trigger, and a four-entry parameter store.
- **The status aggregator** (`Aggregator`). It counts frames per camera over
  a one-second window and keeps an online map.
- **The two start-up self-heals.** Both share the scan in `UniqueKeys`.
  - The settings store (`CameraSettingsStore`) clears later slots that
    repeat a physical camera.
  - The main window (`Shell`) clears later views that repeat a camera name.
- **The main window's logic** (`Shell`). This covers:
  - routing a camera to its view;
  - the per-group offline sets behind the PLC alarm registers;
  - the running badge with its frame timeout;
  - the run-mode rebuild;
  - the add-camera button with its cap of six.
- **The camera settings dialog** (`SettingsDialog`). This covers:
  - the `ifName::device` mapping keys and their round trip;
  - the combo item list;
  - the rule that keeps a key in at most one view;
  - auto-assign and device-descriptor parsing.
- **The HALCON helpers** (`HalconCameraHelper`): interface names, fallbacks,
  ports, device identifiers and device candidates.
- **The throttled UI logger** (`Diagnostics`).
- **The tuning window** (`Tuning`). This covers:
  - the parameters it reads from and persists to the configuration;
  - the auto-flag candidates it tries in order;
  - the order in which it applies exposure, gain and gamma.

Shared value types are in `Models`. The .NET string operations the code
relies on are in `Text`, and `Option` is in `Wrappers`.

Some code updates objects in place: the registry, the cameras, the
aggregator, the store, the windows and the logger. Each of these is a
class. Each method's `ensures` gives the new fields, usually through a
snapshot datatype of the fields and a pure transition function. The
properties are lemmas about those functions.

Three things the code calls are passed in as parameters:

- HALCON's operators are an oracle.
- Time is a number passed by the caller.
- Files, the PLC and the production lock are inputs and outputs.

Names compared with `OrdinalIgnoreCase` are compared after ASCII case
folding.

## Model

| member | source | states |
|---|---|---|
| Models.DefaultCameraSettings | HalconWinFormsDemo/Models/CameraSettings.cs:36-44 | six slots, slot i a fresh configuration named "Cam{i}" (empty display name, GigEVision2, device "default", port 0, no parameters) |
| Models.DefaultViewMapping | HalconWinFormsDemo/Models/ViewMappingSettings.cs:6-14 | six views, view i showing "Cam{i}" |
| HalconCameraHelper.ToHalconInterfaceName | HalconWinFormsDemo/Vision/HalconCameraHelper.cs:18-27 | every interface type has a HALCON name that starts with a letter and has no ':', so it can open a settings key "ifName::device" |
| HalconCameraHelper.FromHalconInterfaceName | HalconWinFormsDemo/Vision/HalconCameraHelper.cs:29-36 | a blank name gives GigEVision2; otherwise the result is USB3Vision iff the trimmed name equals "USB3Vision" ignoring case, DirectShow iff it equals "DirectShow" ignoring case, and GigEVision2 for any other name |
| HalconCameraHelper.InterfaceNameRoundTrip | HalconWinFormsDemo/Vision/HalconCameraHelper.cs:18-36 | reading back the HALCON name of any of the three interface types gives that type again |
| HalconCameraHelper.GetFallbackInterfaces | HalconWinFormsDemo/Vision/HalconCameraHelper.cs:79-92 | the fallback list is never empty and starts with the preferred interface's own name |
| HalconCameraHelper.FirstAvailable | HalconWinFormsDemo/Vision/HalconCameraHelper.cs:119-128 | the result is the earliest available name of the list, and there is none exactly when no name is available |
| HalconCameraHelper.TryResolveAvailableInterface | HalconWinFormsDemo/Vision/HalconCameraHelper.cs:116-136 | succeeds iff some fallback is available, resolving to the first one, with a non-empty diagnostic iff that is not the preferred name; otherwise fails with the preferred name and the installation hint |
| HalconCameraHelper.GetPortTuple | HalconWinFormsDemo/Vision/HalconCameraHelper.cs:247-267 | a positive port is passed through; otherwise 0 exactly for USB3Vision, GigEVision2 and GigEVision (trimmed, case-insensitive) and "default" for every other name |
| HalconCameraHelper.FirstIndexFrom | HalconWinFormsDemo/Vision/HalconCameraHelper.cs:290-301 | the result is the first index from `from` on whose item passes the test; none means no item from there on passes |
| HalconCameraHelper.FirstTrimmedWith | HalconWinFormsDemo/Vision/HalconCameraHelper.cs:290-301 | there is no result exactly when no trimmed part passes the test; otherwise the result is the trimmed form of the first part whose trimmed form passes |
| HalconCameraHelper.FirstPartWithPrefix | HalconWinFormsDemo/Vision/HalconCameraHelper.cs:290-301 | there is no result exactly when no trimmed part starts with the prefix ignoring case; otherwise the result is the first such part, trimmed |
| HalconCameraHelper.NoUniqueNamePart | HalconWinFormsDemo/Vision/HalconCameraHelper.cs:281-295 | when the descriptor does not contain "unique_name:" no part starts with it, so the first loop over the parts never returns |
| HalconCameraHelper.NormalizeDeviceId | HalconWinFormsDemo/Vision/HalconCameraHelper.cs:273-306 | a blank identifier gives "default"; a trimmed identifier with neither "unique_name:" (ignoring case) nor '\|' is kept as it is; the interface name plays no part; the other cases are stated by NormalizeDeviceIdProperties |
| HalconCameraHelper.NormalizeDeviceIdProperties | HalconWinFormsDemo/Vision/HalconCameraHelper.cs:273-306 | blank input gives "default"; otherwise the result is trimmed and non-blank; when the trimmed input contains "unique_name:" (ignoring case) it is the trimmed text from the first such occurrence on; otherwise a '\|'-separated input gives its first trimmed part starting with "device:", or the trimmed input when there is none; any other input gives the trimmed input |
| HalconCameraHelper.NormalizeIgnoresOuterWhiteSpace | HalconWinFormsDemo/Vision/HalconCameraHelper.cs:275-277 | normalising the trimmed input gives the same identifier as normalising the raw input, which is why candidates may normalise `rawTrim` |
| HalconCameraHelper.RawDeviceCandidatesShape | HalconWinFormsDemo/Vision/HalconCameraHelper.cs:311-378 | the list before de-duplication is non-empty, starts with the normalised identifier and ends with "default" |
| HalconCameraHelper.NormalizedNotBlank | HalconWinFormsDemo/Vision/HalconCameraHelper.cs:273-306 | a non-blank identifier normalises to a non-blank one |
| HalconCameraHelper.DeviceCandidatesProperties | HalconWinFormsDemo/Vision/HalconCameraHelper.cs:311-391 | blank input gives ["default"]; otherwise the normalised identifier is first, "default" is present, no two candidates are equal ignoring case, and each is the first of its equals in the raw list |
| HalconCameraHelper.GetDeviceCandidates | HalconWinFormsDemo/Vision/HalconCameraHelper.cs:311-391 | the candidates are the raw list with case-insensitive duplicates removed in first-occurrence order |
| HalconCameraHelper.AppendDiagnosticHints | HalconWinFormsDemo/Vision/HalconCameraHelper.cs:53-72 | blank gives ""; otherwise the trimmed error is a prefix of the result; it is the whole result when neither "#8603" nor "timeout" (case-insensitive) occurs, and strictly shorter than it when one does |
| Registry.MarkedRaisesOnlyOnChange | HalconWinFormsDemo/Vision/CameraManager.cs:58-65 | the flag is stored; an OnlineChanged event is appended iff the stored flag was absent or different; a repeated identical report changes nothing; cameras and groups are untouched |
| Registry.AddRejectsDuplicates | HalconWinFormsDemo/Vision/CameraManager.cs:32-36 | AddCamera is refused exactly for a null camera or a name already registered ignoring case; a null camera gives the null-argument error |
| Registry.AddedKeepsValid | HalconWinFormsDemo/Vision/CameraManager.cs:32-44 | a successful add keeps the registry invariant, appends the name to the cameras and to exactly the chosen group, leaves the other group alone, and stores the camera as offline |
| Registry.ExactlyOneGroup | HalconWinFormsDemo/Vision/CameraManager.cs:11-19 | under the invariant a name is registered iff it is in one of the two groups, and no name is in both |
| Registry.MarkedKeepsValid | HalconWinFormsDemo/Vision/CameraManager.cs:58-65 | storing an online flag keeps the registry invariant |
| Registry.RegisteredOnly | HalconWinFormsDemo/Vision/CameraManager.cs:102-107 | only names of the group list that are registered are kept |
| Registry.FrameForwardedOnce | HalconWinFormsDemo/Vision/CameraManager.cs:46-50 | a frame marks its camera online first, then raises exactly one FrameForwarded as the last event |
| Registry.ErrorForwardedOnce | HalconWinFormsDemo/Vision/CameraManager.cs:52-56 | an error marks its camera offline first, then raises exactly one ErrorForwarded as the last event |
| Registry.StartSeqKeepsRegistry | HalconWinFormsDemo/Vision/CameraManager.cs:67-84 | StartAll keeps the invariant and changes neither the cameras nor the groups |
| Registry.StartSeqOnline | HalconWinFormsDemo/Vision/CameraManager.cs:67-84 | after StartAll every camera is online exactly when its own Open and Start succeeded, so one failure does not stop the others |
| Registry.StartSeqErrors | HalconWinFormsDemo/Vision/CameraManager.cs:67-84 | StartAll only appends events and raises exactly one error event per camera that failed to start |
| Registry.GroupTriggerIsGroup | HalconWinFormsDemo/Vision/CameraManager.cs:100-108 | under the invariant a group trigger calls exactly the group's list in order, and none of its names belongs to the other group |
| Registry.ClearedIsEmpty | HalconWinFormsDemo/Vision/CameraManager.cs:110-122 | Clear leaves no cameras, empty groups and no online flags, and keeps the invariant |
| Registry.CameraManager.constructor | HalconWinFormsDemo/Vision/CameraManager.cs:11-19 | a new registry is empty and valid |
| Registry.CameraManager.CameraNames | HalconWinFormsDemo/Vision/CameraManager.cs:25 | the names are exactly the registered cameras, distinct ignoring case under the invariant |
| Registry.CameraManager.TryGetCamera | HalconWinFormsDemo/Vision/CameraManager.cs:27-30 | finds a camera iff the name is registered ignoring case, and returns the registered spelling |
| Registry.CameraManager.AddCamera | HalconWinFormsDemo/Vision/CameraManager.cs:32-44 | a refused add changes nothing; a successful one moves to the Added state |
| Registry.CameraManager.OnCameraImageArrived | HalconWinFormsDemo/Vision/CameraManager.cs:46-50 | the new state is AfterFrame of the old one |
| Registry.CameraManager.OnCameraError | HalconWinFormsDemo/Vision/CameraManager.cs:52-56 | the new state is AfterError of the old one |
| Registry.CameraManager.MarkOnline | HalconWinFormsDemo/Vision/CameraManager.cs:58-65 | the new state is Marked of the old one |
| Registry.CameraManager.StartAll | HalconWinFormsDemo/Vision/CameraManager.cs:67-84 | every registered camera is called in registration order and the new state is StartSeq over them |
| Registry.CameraManager.StopAll | HalconWinFormsDemo/Vision/CameraManager.cs:86-92 | every registered camera is stopped in registration order and the state is unchanged |
| Registry.CameraManager.TriggerAll | HalconWinFormsDemo/Vision/CameraManager.cs:94-98 | every registered camera is triggered in registration order |
| Registry.CameraManager.TriggerGroupCapture | HalconWinFormsDemo/Vision/CameraManager.cs:100-108 | exactly the registered names of the group list are triggered, in list order |
| Registry.CameraManager.Clear | HalconWinFormsDemo/Vision/CameraManager.cs:110-122 | every camera is disposed in registration order and the new state is Cleared of the old one |
| FramegrabberCamera.NextRetryDelayBounds | HalconWinFormsDemo/Vision/HalconFramegrabberCamera.cs:22-51 | from a delay in [1000, 30000] a failure keeps the delay in range, never shortens it, and lengthens it while below the cap |
| FramegrabberCamera.DoubleScheduleQuadruples | HalconWinFormsDemo/Vision/HalconFramegrabberCamera.cs:47-51 | two ScheduleRetry calls in a row set the delay to min(4 * delay, 30000) |
| FramegrabberCamera.DelayAfterFailuresClosedForm | HalconWinFormsDemo/Vision/HalconFramegrabberCamera.cs:22-51 | after k consecutive failures from the initial delay the delay is min(1000 * 2^k, 30000) |
| FramegrabberCamera.DelayAfterFailuresMonotone | HalconWinFormsDemo/Vision/HalconFramegrabberCamera.cs:22-51 | across consecutive failures the delay never decreases and stays in [1000, 30000] |
| FramegrabberCamera.FirstOpenable | HalconWinFormsDemo/Vision/HalconFramegrabberCamera.cs:84-111 | the device chosen is one of the candidates, and there is none exactly when OpenFramegrabber refuses every candidate |
| FramegrabberCamera.FirstOpenableIs | HalconWinFormsDemo/Vision/HalconFramegrabberCamera.cs:85-104 | the first candidate that opens, after refusals of all earlier ones, is the one chosen |
| FramegrabberCamera.DeviceCandidates | HalconWinFormsDemo/Vision/HalconFramegrabberCamera.cs:82 | Open always has at least one device candidate to try |
| FramegrabberCamera.PlanOpenChosen | HalconWinFormsDemo/Vision/HalconFramegrabberCamera.cs:74-82 | once the interface is resolved, opening proceeds on that interface with the de-duplicated device candidates, of which there is at least one |
| FramegrabberCamera.PlanOpenOpened | HalconWinFormsDemo/Vision/HalconFramegrabberCamera.cs:74-118 | an opened handle uses an installed fallback interface, the port GetPortTuple chose for it, and one of the device candidates |
| FramegrabberCamera.OpenFirstCandidate | HalconWinFormsDemo/Vision/HalconFramegrabberCamera.cs:84-114 | the OpenFramegrabber loop acquires exactly the first openable candidate; when all fail it keeps the last candidate's error |
| FramegrabberCamera.ResolveOpen | HalconWinFormsDemo/Vision/HalconFramegrabberCamera.cs:72-114 | the HALCON side of Open ends as the PlanOpen outcome, with the interface-missing or last-device message as the inner error |
| FramegrabberCamera.NormalizeParamName | HalconWinFormsDemo/Vision/HalconFramegrabberCamera.cs:582-610 | a name with '\|' is returned unchanged; any other result is the name itself or a known parameter key; a non-blank name never becomes blank |
| FramegrabberCamera.LabelKey | HalconWinFormsDemo/Vision/HalconFramegrabberCamera.cs:588-606 | every display label maps to one of the known parameter keys |
| FramegrabberCamera.ParamKeysAreNormal | HalconWinFormsDemo/Vision/HalconFramegrabberCamera.cs:585 | every known key normalises to itself |
| FramegrabberCamera.NormalizeParamNameIdempotent | HalconWinFormsDemo/Vision/HalconFramegrabberCamera.cs:582-610 | normalising a name twice gives the same as once |
| FramegrabberCamera.NonBlank | HalconWinFormsDemo/Vision/HalconFramegrabberCamera.cs:574-578 | keeps exactly the non-blank entries, in order, with a non-blank head staying first |
| FramegrabberCamera.GetCandidateParamNames | HalconWinFormsDemo/Vision/HalconFramegrabberCamera.cs:527-580 | a non-blank key comes first; no entry is blank; no two are equal ignoring case; every non-blank name of the key and its node names is present, and nothing else |
| FramegrabberCamera.Pairs | HalconWinFormsDemo/Vision/HalconFramegrabberCamera.cs:334-408 | the writes pair every candidate name with every value, candidate by candidate: as many writes as names times values, each under one of the names, starting with the first name and first value, and with a single value the i-th write is that value under the i-th name |
| FramegrabberCamera.SetAttempts | HalconWinFormsDemo/Vision/HalconFramegrabberCamera.cs:334-454 | every write TrySetParam may make uses one of the key's candidate names, and the requested value is tried under every candidate name, in order, before any fallback value |
| FramegrabberCamera.SetAttemptsStartWithKey | HalconWinFormsDemo/Vision/HalconFramegrabberCamera.cs:334-337 | the first write TrySetParam makes is the requested value under the normalised key itself |
| FramegrabberCamera.SetUntilAccepted | HalconWinFormsDemo/Vision/HalconFramegrabberCamera.cs:333-338 | writes in order until one is accepted; every earlier write was refused; on total failure all writes were made and the error is the last refusal |
| FramegrabberCamera.GetFirstReadable | HalconWinFormsDemo/Vision/HalconFramegrabberCamera.cs:502-517 | reads succeed iff some candidate name reads, with a value read under one of them; otherwise an empty tuple and the last name's error |
| FramegrabberCamera.BackoffStaysInRange | HalconWinFormsDemo/Vision/HalconFramegrabberCamera.cs:47-62 | ScheduleRetry, ForceReconnect and SoftwareTrigger all keep the delay in [1000, 30000], and rescheduling never shortens it |
| FramegrabberCamera.OpenKeepsBackoffInRange | HalconWinFormsDemo/Vision/HalconFramegrabberCamera.cs:64-128 | Open keeps the delay in [1000, 30000] whichever way it ends |
| FramegrabberCamera.InlineOpenKeepsBackoffInRange | HalconWinFormsDemo/Vision/HalconFramegrabberCamera.cs:161-179 | the inline open in SoftwareTrigger keeps the delay in range |
| FramegrabberCamera.OpenReportsConnectingFirst | HalconWinFormsDemo/Vision/HalconFramegrabberCamera.cs:66 | Open only appends events, and the first is StatusChanged(Connecting) |
| FramegrabberCamera.OpenSuccessResetsBackoff | HalconWinFormsDemo/Vision/HalconFramegrabberCamera.cs:116-118 | a successful open resets the delay to 1000 and nextRetryAt to MinValue, keeps the handle and reports Online with no error |
| FramegrabberCamera.TriggerGated | HalconWinFormsDemo/Vision/HalconFramegrabberCamera.cs:151-155 | a trigger while not running, or before nextRetryAt, changes nothing at all |
| FramegrabberCamera.TriggerFailsOrDelivers | HalconWinFormsDemo/Vision/HalconFramegrabberCamera.cs:157-187 | a trigger that goes ahead either fails (Disconnected, retry scheduled from now, exactly one CameraError and no frame) or delivers exactly one frame and no error; the running flag is untouched |
| FramegrabberCamera.GrabFailsOrDelivers | HalconWinFormsDemo/Vision/HalconFramegrabberCamera.cs:178-187 | a grab on the open handle raises exactly one frame or exactly one error |
| FramegrabberCamera.InlineOpenFailsOrDelivers | HalconWinFormsDemo/Vision/HalconFramegrabberCamera.cs:161-187 | an inline open that fails raises one error and no frame; one that succeeds goes on to the grab |
| FramegrabberCamera.InterfaceMissingQuadruplesDelay | HalconWinFormsDemo/Vision/HalconFramegrabberCamera.cs:161-173 | with no interface installed the inline open schedules a retry twice, so the delay becomes min(4 * delay, 30000), leaving the camera Disconnected with no handle |
| FramegrabberCamera.HalconFramegrabberCamera.constructor | HalconWinFormsDemo/Vision/HalconFramegrabberCamera.cs:14-37 | not running, no handle, Disconnected, empty error, delay 1000, nextRetryAt MinValue, no events |
| FramegrabberCamera.HalconFramegrabberCamera.SetState | HalconWinFormsDemo/Vision/HalconFramegrabberCamera.cs:40-45 | the new state and error are stored and one StatusChanged is raised |
| FramegrabberCamera.HalconFramegrabberCamera.ScheduleRetry | HalconWinFormsDemo/Vision/HalconFramegrabberCamera.cs:47-51 | the new state is Rescheduled of the old one |
| FramegrabberCamera.HalconFramegrabberCamera.CloseInternal | HalconWinFormsDemo/Vision/HalconFramegrabberCamera.cs:190-204 | the handle is empty afterwards whatever CloseFramegrabber does, and nothing else changes |
| FramegrabberCamera.HalconFramegrabberCamera.ForceReconnect | HalconWinFormsDemo/Vision/HalconFramegrabberCamera.cs:53-62 | the new state is Reconnected of the old one: no handle, delay 1000, nextRetryAt MinValue, Disconnected with "manual reconnect" |
| FramegrabberCamera.HalconFramegrabberCamera.Open | HalconWinFormsDemo/Vision/HalconFramegrabberCamera.cs:64-128 | ends as the PlanOpen outcome, throws exactly when that is not an opened handle, and moves to AfterOpen of the old state |
| FramegrabberCamera.HalconFramegrabberCamera.ConcludeOpen | HalconWinFormsDemo/Vision/HalconFramegrabberCamera.cs:74-127 | the state changes and the thrown message once it is known how opening ended |
| FramegrabberCamera.HalconFramegrabberCamera.Start | HalconWinFormsDemo/Vision/HalconFramegrabberCamera.cs:130-133 | sets the running flag and nothing else |
| FramegrabberCamera.HalconFramegrabberCamera.Stop | HalconWinFormsDemo/Vision/HalconFramegrabberCamera.cs:135-138 | clears the running flag and nothing else |
| FramegrabberCamera.HalconFramegrabberCamera.Dispose | HalconWinFormsDemo/Vision/HalconFramegrabberCamera.cs:140-147 | clears the running flag and drops the handle |
| FramegrabberCamera.HalconFramegrabberCamera.SoftwareTrigger | HalconWinFormsDemo/Vision/HalconFramegrabberCamera.cs:149-188 | never throws; the new state is AfterTrigger of the old one |
| FramegrabberCamera.HalconFramegrabberCamera.OpenThenGrab | HalconWinFormsDemo/Vision/HalconFramegrabberCamera.cs:161-179 | without a handle: the new state is AfterInlineOpen, the open's failure path when it fails and a grab on the new handle when it opens |
| FramegrabberCamera.HalconFramegrabberCamera.Grab | HalconWinFormsDemo/Vision/HalconFramegrabberCamera.cs:178-187 | a grab adds one ImageArrived event, or takes the failure path with the grab's message |
| FramegrabberCamera.HalconFramegrabberCamera.ReportFailure | HalconWinFormsDemo/Vision/HalconFramegrabberCamera.cs:167-187 | the catch blocks: Disconnected with the message, a retry scheduled, one CameraError |
| FramegrabberCamera.HalconFramegrabberCamera.TrySetParam | HalconWinFormsDemo/Vision/HalconFramegrabberCamera.cs:305-461 | a blank name or closed handle fail before any write; otherwise the writes follow SetAttempts in order until the first accepted one, with the error cleared on success and the last refusal on failure |
| FramegrabberCamera.HalconFramegrabberCamera.TryGetParam | HalconWinFormsDemo/Vision/HalconFramegrabberCamera.cs:484-525 | a blank name or closed handle fail; otherwise succeeds iff some candidate name reads, returning the first such value; on failure an empty tuple and the last error |
| Simulated.ToBool | HalconWinFormsDemo/Vision/MockCamera.cs:227-240 | null gives false; "On", "True" (any case) and "1" give true; "Off", "False" (any case) and "0" give false |
| Simulated.ToBoolOfTypedValues | HalconWinFormsDemo/Vision/MockCamera.cs:227-240 | a bool reads back as itself, and an Int32 reads as true exactly when it is nonzero |
| Simulated.TextToBoolOfInt | HalconWinFormsDemo/Vision/MockCamera.cs:236-238 | the text of any Int32 reads as true exactly when the number is nonzero |
| Simulated.TextToBoolOfNumber | HalconWinFormsDemo/Vision/MockCamera.cs:231-238 | number text with no surrounding white space is none of the bool words and reads as true exactly when its value is nonzero |
| Simulated.NotABoolWord | HalconWinFormsDemo/Vision/MockCamera.cs:231-236 | text ending in a digit is neither a bool word nor bool.TryParse input |
| Simulated.ToInt | HalconWinFormsDemo/Vision/MockCamera.cs:242-252 | null keeps the fallback; an int is taken as is; text is its int.TryParse value, else the fallback |
| Simulated.ToDouble | HalconWinFormsDemo/Vision/MockCamera.cs:254-263 | null keeps the fallback; a double is taken as is; an int is its value as a number |
| Simulated.KeysDistinct | HalconWinFormsDemo/Vision/MockCamera.cs:131-150 | the four Consumer keys differ ignoring case, so each names its own field |
| Simulated.WritableKeys | HalconWinFormsDemo/Vision/MockCamera.cs:126-153 | a write succeeds exactly for the four Consumer keys (ignoring case); such a key is also readable; a write changes no state, run flag, fault flag, frame id or event |
| Simulated.AutoFlagRoundTrip | HalconWinFormsDemo/Vision/MockCamera.cs:131-182 | writing an auto flag and reading it back gives "On" exactly when the written value reads as true |
| Simulated.ExposureRoundTrip | HalconWinFormsDemo/Vision/MockCamera.cs:136-177 | writing an int exposure and reading it back gives the same int |
| Simulated.OnWordsReadBackOn | HalconWinFormsDemo/Vision/MockCamera.cs:131-172 | "On", "True" and "1" written to exposure_auto read back as "On" |
| Simulated.TriggerRaisesOneEvent | HalconWinFormsDemo/Vision/MockCamera.cs:75-124 | a trigger while stopped changes nothing; otherwise exactly one event is appended: a CameraError (no frame, camera faulted) when the camera is or becomes faulted, else an ImageArrived with the frame id advanced by one; state and run flag are untouched |
| Simulated.MockCamera.constructor | HalconWinFormsDemo/Vision/MockCamera.cs:20-49 | Disconnected, no error, stopped, not faulted, exposure 8000 with auto off, gain 1.0 with auto off, frame 0, no events; the retry delay is 0 and nextRetryAt MinValue, and nothing assigns them |
| Simulated.MockCamera.SetState | HalconWinFormsDemo/Vision/MockCamera.cs:68-73 | the new state and error are stored and one StatusChanged is raised |
| Simulated.MockCamera.Open | HalconWinFormsDemo/Vision/MockCamera.cs:51-54 | reports Online and changes nothing else |
| Simulated.MockCamera.Start | HalconWinFormsDemo/Vision/MockCamera.cs:56-60 | sets the run flag and reports Online |
| Simulated.MockCamera.Stop | HalconWinFormsDemo/Vision/MockCamera.cs:62-66 | clears the run flag and reports Offline, the same state as Disconnected |
| Simulated.MockCamera.Dispose | HalconWinFormsDemo/Vision/MockCamera.cs:265-268 | is Stop: the run flag cleared and Disconnected reported |
| Simulated.MockCamera.SoftwareTrigger | HalconWinFormsDemo/Vision/MockCamera.cs:75-124 | the new state is AfterTrigger of the old one for the fault draw given |
| Simulated.MockCamera.Recover | HalconWinFormsDemo/Vision/MockCamera.cs:90-94 | the recovery task clears the fault flag and nothing else |
| Simulated.MockCamera.TrySetParam | HalconWinFormsDemo/Vision/MockCamera.cs:126-160 | succeeds exactly when the key is writable, with an empty error; otherwise "Unsupported mock parameter" and no field changes |
| Simulated.MockCamera.TryGetParam | HalconWinFormsDemo/Vision/MockCamera.cs:162-207 | succeeds exactly for the four Consumer keys and available_easyparam_names (ignoring case), returning the stored value; otherwise an empty tuple and "Unsupported mock parameter" |
| Simulated.MockCamera.TryGetAvailableEasyParams | HalconWinFormsDemo/Vision/MockCamera.cs:209-225 | always succeeds with nine names, the four stored keys first |
| Aggregator.ProcessedCounts | HalconWinFormsDemo/Vision/VisionController.cs:60-78 | a frame of a counted camera is re-raised exactly once; its count goes up by one, or back to 0 with a fresh window once the window has lasted 1000 ms; status and other cameras' counts are untouched |
| Aggregator.FramesWithinWindow | HalconWinFormsDemo/Vision/VisionController.cs:63-75 | frames that all arrive within a second of the window start add one each to the count, keep the window, and are each re-raised |
| Aggregator.ReactToStatus | HalconWinFormsDemo/Vision/VisionController.cs:25-34 | an online change stores the new flag and forwards it once; an error stores false and forwards it once; neither touches the frame counters |
| Aggregator.ReactAllKeepsCounters | HalconWinFormsDemo/Vision/VisionController.cs:22-35 | reacting to registry events never forgets a camera's counter |
| Aggregator.NewCameraCounters | HalconWinFormsDemo/Vision/VisionController.cs:40-43 | a freshly added camera has count 0, a window starting now and status offline, and nothing is raised |
| Aggregator.FrameOfRegisteredCameraIsRaised | HalconWinFormsDemo/Vision/VisionController.cs:24-78 | with counters for all registered cameras, a registered camera's frame is re-raised exactly once |
| Aggregator.AddKeepsTracking | HalconWinFormsDemo/Vision/VisionController.cs:37-44 | adding a camera keeps a counter for every registered camera, whatever the registry raised on the way |
| Aggregator.VisionController.constructor | HalconWinFormsDemo/Vision/VisionController.cs:11-35 | no counters, no status, no events, and an empty registry |
| Aggregator.VisionController.ReactTo | HalconWinFormsDemo/Vision/VisionController.cs:24-34 | the aggregator's state after reacting to the registry's events in order |
| Aggregator.VisionController.ProcessImage | HalconWinFormsDemo/Vision/VisionController.cs:60-78 | the new state is Processed of the old one |
| Aggregator.VisionController.AddCamera | HalconWinFormsDemo/Vision/VisionController.cs:37-44 | the registry decides first: a refused camera touches no registry field and no counter; an accepted one is Added in the registry, and gets count 0, a fresh window and status offline after the registry's events are handled |
| Aggregator.VisionController.OnDeviceFrame | HalconWinFormsDemo/Vision/VisionController.cs:24-78 | the registry's frame handler runs, then the aggregator reacts to exactly the events it raised |
| Aggregator.VisionController.OnDeviceError | HalconWinFormsDemo/Vision/VisionController.cs:25-29 | the registry's error handler runs, then the aggregator reacts to exactly the events it raised |
| Aggregator.VisionController.Start | HalconWinFormsDemo/Vision/VisionController.cs:53 | StartAll in the registry, then the reactions to the events it raised |
| Aggregator.VisionController.Stop | HalconWinFormsDemo/Vision/VisionController.cs:54 | only delegates to StopAll |
| Aggregator.VisionController.Clear | HalconWinFormsDemo/Vision/VisionController.cs:55 | clears the registry and keeps the aggregator's own per-name maps |
| Aggregator.VisionController.TriggerOnceAll | HalconWinFormsDemo/Vision/VisionController.cs:57 | only delegates to TriggerAll |
| Aggregator.VisionController.TriggerGroup | HalconWinFormsDemo/Vision/VisionController.cs:58 | only delegates to TriggerGroupCapture |
| Aggregator.VisionController.Dispose | HalconWinFormsDemo/Vision/VisionController.cs:80-84 | Stop then Clear: the registry is cleared and the aggregator's maps are kept |
| CameraSettingsStore.BuildKey | HalconWinFormsDemo/Services/CameraSettingsStore.cs:16-30 | the key is "" exactly when the device is blank or "default" (trimmed, ignoring case); otherwise it is the interface's HALCON name, "::" and the trimmed device |
| CameraSettingsStore.Key | HalconWinFormsDemo/Services/CameraSettingsStore.cs:45-50 | the key as the OrdinalIgnoreCase set compares it is empty exactly when BuildKey is |
| CameraSettingsStore.KeyForgets | HalconWinFormsDemo/Services/CameraSettingsStore.cs:55 | a slot whose device is cleared has no key |
| UniqueKeys.SeenSetMembership | HalconWinFormsDemo/Services/CameraSettingsStore.cs:45-61 | after scanning some keys, a key is in the seen set iff it is non-empty and among them |
| UniqueKeys.HealKeysAreDistinct | HalconWinFormsDemo/Services/CameraSettingsStore.cs:48-61 | after replacing every repeat by "", no non-empty key occurs twice |
| UniqueKeys.ScanStep | HalconWinFormsDemo/Services/CameraSettingsStore.cs:50-61 | the scan clears position i exactly when its non-empty key is already in the seen set, and then adds that key |
| UniqueKeys.FirstOccurrence | HalconWinFormsDemo/Services/CameraSettingsStore.cs:53-60 | every non-empty key has an earlier-or-equal position holding it that is no repeat |
| CameraSettingsStore.HealedSlotKeys | HalconWinFormsDemo/Services/CameraSettingsStore.cs:48-61 | the keys of the healed slots are the input keys with every repeat replaced by "" |
| CameraSettingsStore.HealedIsUnique | HalconWinFormsDemo/Services/CameraSettingsStore.cs:36-65 | after the heal no two of Cam1..Cam6 share a non-empty key, ignoring case |
| CameraSettingsStore.HealKeepsFirst | HalconWinFormsDemo/Services/CameraSettingsStore.cs:48-61 | slots that repeat no earlier key, including slots with no key, are untouched; every key of the input is still held by its earliest slot |
| CameraSettingsStore.HealChangesIffDuplicate | HalconWinFormsDemo/Services/CameraSettingsStore.cs:53-64 | the heal changes the slots exactly when some slot repeats an earlier slot's key |
| CameraSettingsStore.HealIdempotent | HalconWinFormsDemo/Services/CameraSettingsStore.cs:36-65 | healing twice is healing once, and a second call finds no duplicate, so it returns false |
| CameraSettingsStore.EnsureUniqueDevices | HalconWinFormsDemo/Services/CameraSettingsStore.cs:36-65 | the slots become Healed of the old slots, in place, and the result is true iff some slot repeated an earlier key |
| CameraSettingsStore.HealInPlace | HalconWinFormsDemo/Services/CameraSettingsStore.cs:40-64 | the scan for any slot identity that clearing a device erases: the slots become Healed, and the change flag says whether there was a repeat |
| CameraSettingsStore.VisitSlot | HalconWinFormsDemo/Services/CameraSettingsStore.cs:50-61 | one scan step: slot i becomes HealAt, no other slot changes, the seen set grows by its key, and it is cleared iff it repeats |
| CameraSettingsStore.SettingsStore.constructor | HalconWinFormsDemo/Services/CameraSettingsStore.cs:11-12 | the store starts with the given file contents |
| CameraSettingsStore.SettingsStore.Save | HalconWinFormsDemo/Services/CameraSettingsStore.cs:67-74 | under the production lock it fails and writes nothing; otherwise the file holds the settings, unless the write fails |
| CameraSettingsStore.SettingsStore.Load | HalconWinFormsDemo/Services/CameraSettingsStore.cs:76-100 | no file gives the defaults; otherwise the healed settings, written back only when the heal changed something and the app is not locked; a failed write is ignored and the healed settings are still returned |
| Shell.ViewKey | HalconWinFormsDemo/MainForm.cs:176-189 | a view's key in the OrdinalIgnoreCase seen set is empty exactly when the view is null or blank |
| Shell.HealedViewKeys | HalconWinFormsDemo/MainForm.cs:176-198 | the keys of the healed views are the loaded keys with every repeat replaced by "" (the same heal as the settings store's) |
| Shell.FirstViewWins | HalconWinFormsDemo/MainForm.cs:176-198 | a view keeps its camera iff it has a key that no earlier view holds; a kept view is unchanged |
| Shell.HealViewsIdempotent | HalconWinFormsDemo/MainForm.cs:176-233 | healing a healed mapping changes nothing, and it has no duplicate left, so the next start-up does not rewrite it |
| Shell.HealedViewsDistinct | HalconWinFormsDemo/MainForm.cs:176-198 | after the heal every camera left in a view is non-blank and no two views hold the same camera, ignoring case |
| Shell.RoutingOfDistinct | HalconWinFormsDemo/MainForm.cs:205-217 | with no key repeated, the routing holds exactly the non-empty keys and sends each to its own view |
| Shell.HealedRouting | HalconWinFormsDemo/MainForm.cs:176-217 | after the heal each camera left in a view is routed to exactly that view, and every routed key belongs to some view |
| Shell.FirstShowing | HalconWinFormsDemo/MainForm.cs:806-810 | the result is the first view from `from` on that shows the name, ignoring case; none means no view there shows it |
| Shell.ViewIndexOf | HalconWinFormsDemo/MainForm.cs:803-812 | a blank name has no view; otherwise the result is the first view showing the name, and none means no view shows it |
| Shell.ShowsByKey | HalconWinFormsDemo/MainForm.cs:344-347 | for a non-blank name, a view shows it (OrdinalIgnoreCase) exactly when the view's key is the name's fold |
| Shell.RouteAgreesWithStatus | HalconWinFormsDemo/MainForm.cs:803-812 | after the heal a camera is routed to a window iff some view shows it, and it is routed to that very view |
| Shell.ResolveGroup | HalconWinFormsDemo/MainForm.cs:1082-1085 | group 1 exactly for "Cam1", "Cam2" and "Cam3", compared case-sensitively |
| Shell.LoadMappingResult | HalconWinFormsDemo/MainForm.cs:153-236 | after loading, the view table has no duplicate, every camera in it is routed to its own view, and a mapping is saved only if it is the healed one |
| Shell.AlarmFollowsOfflineSet | HalconWinFormsDemo/MainForm.cs:1053-1078 | after one notification the camera is in its group's offline set iff it reported offline, the rest of both sets is untouched, and the group's register gets "the set is non-empty" |
| Shell.ReplayOfflineSets | HalconWinFormsDemo/MainForm.cs:1064-1078 | from empty sets, after any notifications a camera is in a group's offline set iff its latest notification in that group said offline |
| Shell.AlarmOnIffGroupOffline | HalconWinFormsDemo/MainForm.cs:1064-1078 | the last register value written for the group of the last notification says whether some camera of that group is offline now |
| Shell.AddedReports | HalconWinFormsDemo/Vision/CameraManager.cs:32-44 | registering the planned cameras raises exactly one notification per camera |
| Shell.ReplayKeeps | HalconWinFormsDemo/MainForm.cs:1053-1078 | notifications change only the online table, the offline sets and the alarm registers; each appends one register write and the earlier writes stay as they were |
| Shell.LastReportAppend | HalconWinFormsDemo/MainForm.cs:1064-1078 | the latest notification of a camera in a group, over two runs of notifications, is the second run's when it has one and the first run's otherwise |
| Shell.PlannedInSplit | HalconWinFormsDemo/MainForm.cs:1136-1263 | a camera of a plan, started or not, is one of its first cameras or its last one |
| Shell.PlannedSplit | HalconWinFormsDemo/MainForm.cs:1136-1263 | a camera of a plan is one of its first cameras or its last one |
| Shell.StartedSplit | HalconWinFormsDemo/MainForm.cs:1136-1263 | a started camera of a plan is a started one among its first cameras or its last one, started |
| Shell.LastAddedReport | HalconWinFormsDemo/Vision/CameraManager.cs:32-44 | after the registrations, a camera's latest notification exists exactly when it is planned in that group, and says offline |
| Shell.LastStartedReport | HalconWinFormsDemo/Vision/CameraManager.cs:67-84 | among the start notifications, a camera's latest one exists exactly when it is planned in that group and started, and says online |
| Shell.RebuildOfflineSets | HalconWinFormsDemo/MainForm.cs:1123-1275 | after a run-mode switch a camera is in a group's offline set iff it was planned in that group and did not start |
| Shell.RebuiltFields | HalconWinFormsDemo/MainForm.cs:1123-1275 | after a run-mode switch the counter, the cameras, the mode and the lock are as the switch set them, and the views and badges are untouched |
| Shell.PlannedCamera | HalconWinFormsDemo/MainForm.cs:1136-1263 | in a plan of distinct names, camera i is planned under its own name and group, and counts as started iff its start did not fail |
| Shell.RebuildCameraOffline | HalconWinFormsDemo/MainForm.cs:1123-1275 | with distinct slot names, after a run-mode switch each camera is in its own group's offline set iff its start failed, so its group's alarm stays on |
| Shell.DefaultRebuildOffline | HalconWinFormsDemo/MainForm.cs:1123-1275 | with the default names, after a run-mode switch Cam{i+1} is in the offline set of its slot's group iff its start failed |
| Shell.SlotNameGroup | HalconWinFormsDemo/MainForm.cs:1082-1085 | Cam1..Cam3 resolve to group 1 and Cam4..Cam6 to group 2 |
| Shell.RebuildBackends | HalconWinFormsDemo/MainForm.cs:1136-1263 | Real mode builds framegrabber cameras only; Mock mode uses the framegrabber exactly for slots whose settings key is non-empty; slots 1-3 go to group 1 |
| Shell.DefaultNamesAlarmInOwnGroup | HalconWinFormsDemo/MainForm.cs:1082-1085 | with the default names, slot i is registered as Cam{i+1} in the group ResolveGroup gives that name, so its alarm goes to its own PLC |
| Shell.RunningWithinTimeout | HalconWinFormsDemo/MainForm.cs:352-418 | after a frame at tick t for a mapped camera, its view's badge shows running at `now` exactly when now - t <= 1200 ms |
| Shell.UnmappedNeverRunning | HalconWinFormsDemo/MainForm.cs:395-404 | a view without a camera is shown unmapped and not running, and its last-frame tick is reset, whatever its ticks |
| Shell.ClickStep | HalconWinFormsDemo/MainForm.cs:1370-1416 | a click changes nothing, or below the cap moves the counter to n and then either registers Cam{n} (framegrabber, group 1 iff n <= 3) or, when that name is taken, registers nothing |
| Shell.ClickFields | HalconWinFormsDemo/MainForm.cs:1370-1416 | the offline notification a click raises changes neither the counter, nor the cameras, nor the mode |
| Shell.ClickWithoutRegistration | HalconWinFormsDemo/MainForm.cs:1372-1390 | a click refused for the mode, the cap or the device leaves the form as it was |
| Shell.ClickOfTakenName | HalconWinFormsDemo/MainForm.cs:1398-1413 | a click refused for its name only moves the counter on |
| Shell.ClickOfAddedCamera | HalconWinFormsDemo/MainForm.cs:1398-1413 | a click that adds a camera moves the counter on, registers the camera and replays its offline notification |
| Shell.AddedCameraRaisesAlarm | HalconWinFormsDemo/MainForm.cs:1398-1413 | a camera the button adds is registered offline: it enters its group's offline set and the group's alarm register is written "on" |
| Shell.AddedSinceStep | HalconWinFormsDemo/MainForm.cs:1370-1416 | one more click keeps the counter within 6 and the cameras added since the start exactly Cam{n} for each step of the counter |
| Shell.ClickKeepsNamesAhead | HalconWinFormsDemo/MainForm.cs:1398-1413 | while no registered camera holds a name Cam{n} above the counter, no click is refused for its name, and that stays so |
| Shell.ClicksRespectCap | HalconWinFormsDemo/MainForm.cs:1378-1413 | over any clicks from such a state, the counter stays within 6, exactly one camera is added per step of the counter, and the n-th added is Cam{n} with the framegrabber, in group 1 iff n <= 3 |
| Shell.AddAfterRealRebuildAsWritten | HalconWinFormsDemo/MainForm.cs:1398-1413 | as written, after the Real-mode rebuild the first click with a device builds "Cam1" again, is refused, and adds nothing |
| Shell.FirstNameTaken | HalconWinFormsDemo/MainForm.cs:1398-1413 | in Real mode with the counter at 0 and Cam1 registered first, a click with a device is refused for the name Cam1 and registers nothing |
| Shell.RealRebuildRefusesClicks | HalconWinFormsDemo/MainForm.cs:1378-1413 | with the counter restarting at the cameras the Real-mode rebuild registered, no registered name lies ahead of it and every later click stops at the cap |
| Shell.MainForm.constructor | HalconWinFormsDemo/MainForm.cs:22-54 | the form starts in Mock mode with no mapping, no routing, empty offline sets, no camera and unmapped badges |
| Shell.MainForm.LoadAndApplyViewMapping | HalconWinFormsDemo/MainForm.cs:153-236 | the form's state becomes AfterLoadMapping: the healed views, their routing, and the healed mapping saved when the heal changed something |
| Shell.MainForm.TryResolveViewIndexForCamera | HalconWinFormsDemo/MainForm.cs:803-812 | returns ViewIndexOf on the current view table |
| Shell.MainForm.TryGetViewIndexByCameraName | HalconWinFormsDemo/MainForm.cs:341-350 | returns the same view, or 0 for none |
| Shell.MainForm.OnCameraOnlineChanged | HalconWinFormsDemo/MainForm.cs:1053-1078 | the form's state becomes AfterOnlineChanged of the notification |
| Shell.MainForm.MarkFrameForCamera | HalconWinFormsDemo/MainForm.cs:352-383 | the form's state becomes AfterMarkFrame: the camera's view is marked mapped and running, with last-frame tick `now` |
| Shell.MainForm.UpdateBadgesByTimeout | HalconWinFormsDemo/MainForm.cs:385-418 | every badge and tick of views 1..6 becomes its value after the timeout check |
| Shell.MainForm.ApplyRunMode | HalconWinFormsDemo/MainForm.cs:1123-1275 | the form's state becomes AfterRunModeAsWritten: offline sets emptied, slots registered anew, the counter at 0, the lock on iff Real, then the registry's notifications replayed: one offline per camera, one online per camera that started |
| Shell.MainForm.Reset | HalconWinFormsDemo/MainForm.cs:1125-1132 | the offline sets are emptied, the counter is 0, and the cameras, mode and lock are those of the new plan |
| Shell.MainForm.Notify | HalconWinFormsDemo/MainForm.cs:1053-1078 | the form's state becomes the replay of the notifications, in order |
| Shell.MainForm.Register | HalconWinFormsDemo/MainForm.cs:1398-1413 | the counter moves on, the camera is registered, and its offline notification is replayed |
| Shell.MainForm.AddCameraClicked | HalconWinFormsDemo/MainForm.cs:1370-1416 | outcome and new state are those of AddClickOutcome and AfterAddClick for the chosen interface and the trimmed device text; an added camera also raises its offline notification, which sets its group's alarm |
| Shell.MainForm.AddCamera | HalconWinFormsDemo/MainForm.cs:1372-1413 | the mode, cap, device and name checks in source order, with outcome and state as AddClickOutcome and AfterAddClick, the registry's offline notification for an added camera included |
| Shell.MainForm.PlanCameras | HalconWinFormsDemo/MainForm.cs:1136-1263 | the slot loop builds one camera per slot, in slot order, each the slot's registration |
| Shell.MainForm.HealViewMapping | HalconWinFormsDemo/MainForm.cs:176-198 | the scan returns the healed views, and the changed flag is true iff some view repeats an earlier view's camera |
| Shell.MainForm.VisitView | HalconWinFormsDemo/MainForm.cs:181-197 | one scan step: view i becomes its healed value, no other view changes, the seen set grows by its key, and it is cleared as a duplicate iff its key was seen |
| Shell.MainForm.BuildRouting | HalconWinFormsDemo/MainForm.cs:205-217 | the routing loop builds RoutingOf the healed views |
| SettingsDialog.BuildKeyWellFormed | HalconWinFormsDemo/UI/CameraSettingsForm.cs:267-274 | a slot's key is empty or not blank |
| SettingsDialog.TryParseKey | HalconWinFormsDemo/UI/CameraSettingsForm.cs:276-287 | a blank key fails; a success gives two non-blank parts that, joined by "::", are the trimmed key, split at its first "::" |
| SettingsDialog.ParseJoin | HalconWinFormsDemo/UI/CameraSettingsForm.cs:276-287 | a trimmed join of a non-blank interface name without ':' and a non-blank device parses back into the two |
| SettingsDialog.KeyRoundTrip | HalconWinFormsDemo/UI/CameraSettingsForm.cs:267-287 | every non-empty key BuildKey makes parses back into the slot's interface name and trimmed device |
| SettingsDialog.ApplyOne | HalconWinFormsDemo/UI/CameraSettingsForm.cs:423-445 | writing a key changes only the device and the interface; a blank key sets the device to "default" and keeps the interface; a key that parses sets the device to its device part and the interface to the one its interface part names; any other key becomes the device, trimmed, and keeps the interface |
| SettingsDialog.ApplyOwnKey | HalconWinFormsDemo/UI/CameraSettingsForm.cs:423-445 | writing a slot's own key back leaves the device "default" for an empty key and the trimmed device otherwise, so the key is kept |
| SettingsDialog.ApplyEmptyKey | HalconWinFormsDemo/UI/CameraSettingsForm.cs:432-436 | a cleared combo resets the slot's device to "default", and the slot then has no key |
| SettingsDialog.ApplyNonEmptyKey | HalconWinFormsDemo/UI/CameraSettingsForm.cs:438-443 | a slot's non-empty key written back sets the trimmed device and keeps the interface, and the key is unchanged |
| SettingsDialog.ExtractField | HalconWinFormsDemo/UI/CameraSettingsForm.cs:686-691 | the result is trimmed and holds no '\|'; with no occurrence of the field it is "" |
| SettingsDialog.ExtractFieldFirstMatch | HalconWinFormsDemo/UI/CameraSettingsForm.cs:686-691 | the result is the trimmed capture of the leftmost position where `field\s*:\s*([^\|]+)` matches |
| SettingsDialog.ExtractFieldNoMatch | HalconWinFormsDemo/UI/CameraSettingsForm.cs:686-691 | when the pattern matches nowhere the result is "" |
| SettingsDialog.FieldAtValue | HalconWinFormsDemo/UI/CameraSettingsForm.cs:686-691 | `field:value`, the value running to the next '\|' or the end, matches where the field starts and captures the value, trimmed |
| SettingsDialog.FieldAfter | HalconWinFormsDemo/UI/CameraSettingsForm.cs:686-691 | `pre + field:value + rest`, with no match inside `pre` and the value running to the next '\|' or the end, yields the value trimmed |
| SettingsDialog.ParseDeviceDescriptor | HalconWinFormsDemo/UI/CameraSettingsForm.cs:664-684 | a blank descriptor gives ("(空)", "") and only it; any other gives a non-blank, trimmed token, which is "unique_name:" + the field's trimmed value wherever the first unique_name field sits (SettingsDialog.TokenOfUniqueName) |
| SettingsDialog.TokenWithoutUniqueName | HalconWinFormsDemo/UI/CameraSettingsForm.cs:666-673 | a descriptor without a unique_name field is its own token, trimmed |
| SettingsDialog.TokenOfUniqueName | HalconWinFormsDemo/UI/CameraSettingsForm.cs:664-691 | a descriptor whose first unique_name field is "unique_name:" + a non-blank value running to the next '\|' or the end, anywhere in it, gives the token "unique_name:" + the value trimmed |
| SettingsDialog.TokenOfDescriptor | HalconWinFormsDemo/UI/CameraSettingsForm.cs:664-673 | a non-blank unique_name field gives the token "unique_name:" + the field |
| SettingsDialog.TokenWithBlankField | HalconWinFormsDemo/UI/CameraSettingsForm.cs:664-673 | a blank or missing unique_name field leaves the trimmed descriptor as the token |
| SettingsDialog.EnumeratedKeyApplies | HalconWinFormsDemo/UI/CameraSettingsForm.cs:423-445 | an enumerated device's combo key "ifName::token", written into a slot, sets its interface and its device to the token |
| SettingsDialog.TokenKeyApplies | HalconWinFormsDemo/UI/CameraSettingsForm.cs:438-443 | the key "ifName::token" of a trimmed non-empty token sets the slot's interface and device |
| SettingsDialog.ClearOthers | HalconWinFormsDemo/UI/CameraSettingsForm.cs:391-399 | every other combo holding the key, ignoring case, becomes "" (when "" is listed); the rest keep their selection |
| SettingsDialog.OnComboChanged | HalconWinFormsDemo/UI/CameraSettingsForm.cs:375-407 | ignored while updating or for a blank selection; otherwise the source keeps its key and no other combo holds it, and only combos holding it are cleared |
| SettingsDialog.SelectKeepsExclusive | HalconWinFormsDemo/UI/CameraSettingsForm.cs:375-407 | every selection, with the change handler it raises, keeps the six combos exclusive |
| SettingsDialog.SelectAllKeepsExclusive | HalconWinFormsDemo/UI/CameraSettingsForm.cs:375-407 | setting the combos in order keeps them exclusive |
| SettingsDialog.SelectAllSets | HalconWinFormsDemo/UI/CameraSettingsForm.cs:258-263 | setting the combos in order to listed, pairwise different keys leaves exactly those keys selected |
| SettingsDialog.SavedItemsDistinct | HalconWinFormsDemo/UI/CameraSettingsForm.cs:217-229 | "" and the saved keys hold no key twice, ignoring case |
| SettingsDialog.SavedItemsFromKeys | HalconWinFormsDemo/UI/CameraSettingsForm.cs:217-229 | every saved item is a non-blank slot key |
| SettingsDialog.SavedItemsCoverKeys | HalconWinFormsDemo/UI/CameraSettingsForm.cs:217-229 | every non-blank slot key is among the saved items, ignoring case |
| SettingsDialog.ComboItemsStart | HalconWinFormsDemo/UI/CameraSettingsForm.cs:231-234 | the item list starts with "" and then the saved keys |
| SettingsDialog.ComboItemsDistinct | HalconWinFormsDemo/UI/CameraSettingsForm.cs:217-240 | the item list holds no key twice, ignoring case |
| SettingsDialog.ComboItemsCoverKeys | HalconWinFormsDemo/UI/CameraSettingsForm.cs:217-234 | every non-blank slot key is listed, ignoring case |
| SettingsDialog.ComboItemsCoverDevices | HalconWinFormsDemo/UI/CameraSettingsForm.cs:235-240 | every non-blank enumerated device is listed, ignoring case |
| SettingsDialog.ComboItemsOrigin | HalconWinFormsDemo/UI/CameraSettingsForm.cs:231-240 | every item after the first is a non-blank slot key or a non-blank device |
| SettingsDialog.ComboItemsHoldKeys | HalconWinFormsDemo/UI/CameraSettingsForm.cs:212-234 | when no two slots share a key, every non-blank slot key is itself in the list, so the combo can select it |
| SettingsDialog.AddDevicesPrefix | HalconWinFormsDemo/UI/CameraSettingsForm.cs:235-240 | adding devices keeps the items already listed, in place |
| SettingsDialog.AddDevicesDistinct | HalconWinFormsDemo/UI/CameraSettingsForm.cs:235-240 | adding devices lists no key twice, ignoring case |
| SettingsDialog.AddDevicesCovers | HalconWinFormsDemo/UI/CameraSettingsForm.cs:235-240 | every non-blank device ends up listed, ignoring case |
| SettingsDialog.AddDevicesOrigin | HalconWinFormsDemo/UI/CameraSettingsForm.cs:235-240 | every added item is a non-blank device |
| SettingsDialog.SavedKeysWellFormed | HalconWinFormsDemo/UI/CameraSettingsForm.cs:218-225 | each slot key is empty or not blank |
| SettingsDialog.PopulatedWithIsExclusive | HalconWinFormsDemo/UI/CameraSettingsForm.cs:242-263 | after the rebuild and the six selections no key is selected twice |
| SettingsDialog.PopulatedWithShowsKeys | HalconWinFormsDemo/UI/CameraSettingsForm.cs:242-263 | with pairwise different well-formed keys, the combos show exactly the slot keys |
| SettingsDialog.PopulateIsExclusive | HalconWinFormsDemo/UI/CameraSettingsForm.cs:209-264 | populating the combos leaves no key selected twice |
| SettingsDialog.PopulateShowsSaved | HalconWinFormsDemo/UI/CameraSettingsForm.cs:209-264 | when no two slots share a key, reopening the dialog shows every slot's saved key, whatever devices were enumerated |
| SettingsDialog.HealedKeysDistinct | HalconWinFormsDemo/UI/CameraSettingsForm.cs:217-225 | the slots after the store's heal share no key, so PopulateShowsSaved applies to them |
| SettingsDialog.ApplyingOwnKeys | HalconWinFormsDemo/UI/CameraSettingsForm.cs:412-445 | writing every combo's slot key back keeps every slot's key |
| SettingsDialog.MappingSurvivesReopen | HalconWinFormsDemo/UI/CameraSettingsForm.cs:209-264 | opening the dialog and saving without touching the combos keeps every slot's key |
| SettingsDialog.AutoValues | HalconWinFormsDemo/UI/CameraSettingsForm.cs:297-303 | six values: the i-th enumerated device for view i + 1, or "" past the end |
| SettingsDialog.AutoAssignShowsDevices | HalconWinFormsDemo/UI/CameraSettingsForm.cs:289-304 | with listed, non-blank, pairwise different devices, view i + 1 shows device i and the views left over are cleared |
| SettingsDialog.AutoAssignKeepsExclusive | HalconWinFormsDemo/UI/CameraSettingsForm.cs:289-304 | auto-assign keeps the combos exclusive |
| SettingsDialog.CameraSettingsForm.constructor | HalconWinFormsDemo/UI/CameraSettingsForm.cs:25-92 | the dialog over six slots starts populated with no enumerated devices |
| SettingsDialog.CameraSettingsForm.PopulateMappingCombos | HalconWinFormsDemo/UI/CameraSettingsForm.cs:209-264 | the dialog state becomes Populated: the rebuilt item list and each slot's key selected in turn |
| SettingsDialog.CameraSettingsForm.PopulateWithKeys | HalconWinFormsDemo/UI/CameraSettingsForm.cs:226-263 | the same once the six slot keys are built |
| SettingsDialog.CameraSettingsForm.SelectItem | HalconWinFormsDemo/UI/CameraSettingsForm.cs:258-263 | the dialog state becomes Select: the combo set and its change handler run |
| SettingsDialog.CameraSettingsForm.OnMappingComboChanged | HalconWinFormsDemo/UI/CameraSettingsForm.cs:375-407 | the dialog state becomes OnComboChanged of the source combo |
| SettingsDialog.CameraSettingsForm.AutoAssignClicked | HalconWinFormsDemo/UI/CameraSettingsForm.cs:289-304 | the dialog state becomes AutoAssigned |
| SettingsDialog.CameraSettingsForm.ApplyMappingFromUi | HalconWinFormsDemo/UI/CameraSettingsForm.cs:412-445 | the slots become AppliedMapping: each combo's key written into its slot |
| Tuning.KeysDistinct | HalconWinFormsDemo/Forms/CameraTuningForm.cs:20-27 | the six configuration keys have the lengths of their literals and are pairwise distinct |
| Tuning.ReadBool | HalconWinFormsDemo/Forms/CameraTuningForm.cs:466-471 | an absent key gives the default; a present one reads true iff its value is "On" or "True" ignoring case, or exactly "1" |
| Tuning.ReadInt | HalconWinFormsDemo/Forms/CameraTuningForm.cs:473-482 | an absent key or a value that is not an Int32 gives the default; otherwise the Int32 the value parses to |
| Tuning.OnOffReadsBack | HalconWinFormsDemo/Forms/CameraTuningForm.cs:419-471 | a flag written as "On"/"Off" reads back as itself whatever the default |
| Tuning.PersistedEntries | HalconWinFormsDemo/Forms/CameraTuningForm.cs:418-425 | after persisting, the six keys hold the flags as "On"/"Off", the exposure as its decimal text and the gain and gamma as their texts |
| Tuning.LoadedFromConfig | HalconWinFormsDemo/Forms/CameraTuningForm.cs:267-273 | a missing entry reads as its default: exposure-auto off, exposure 8000, gain-auto off, gamma enabled |
| Tuning.PersistThenLoad | HalconWinFormsDemo/Forms/CameraTuningForm.cs:263-273 | the configuration entries read back as persisted: the exposure-auto, exposure, gain-auto and gamma-enable values written are the ones the load reads |
| Tuning.LoadFromConfigAsWritten | HalconWinFormsDemo/Forms/CameraTuningForm.cs:263-274 | with the handlers wired: auto exposure stays on iff it was read on and the exposure read is 1; auto gain iff read on and the gain is 0; gamma is enabled iff read on or the clamped gamma is not 0.10 |
| Tuning.ReopenAsWritten | HalconWinFormsDemo/Forms/CameraTuningForm.cs:263-274 | after a persist, the reopened window keeps auto exposure only at exposure 1 and auto gain only at gain 0, and enables gamma whenever it is not 0.10 |
| Tuning.ReopenFlipsFlags | HalconWinFormsDemo/Forms/CameraTuningForm.cs:263-274 | for auto exposure on, auto gain on and gamma off at the usual values, the configuration reads all three back, and the window as written shows the opposite of each |
| Tuning.PersistKeepsOthers | HalconWinFormsDemo/Forms/CameraTuningForm.cs:418-425 | every other FramegrabberParams entry keeps its value |
| Tuning.GetConfigByName | HalconWinFormsDemo/Forms/CameraTuningForm.cs:454-464 | the slot found is the one whose name "Cam1".."Cam6" equals the name ignoring case; none when no slot name matches |
| Tuning.SlotNames | HalconWinFormsDemo/Forms/CameraTuningForm.cs:457-462 | the slot names are "Cam1" to "Cam6" |
| Tuning.ConfigOfSlotName | HalconWinFormsDemo/Forms/CameraTuningForm.cs:454-464 | the name of slot i finds slot i |
| Tuning.ClampDecimal | HalconWinFormsDemo/Forms/CameraTuningForm.cs:550-556 | the result lies in [min, max] when that is non-empty, is the value itself when inside, and is otherwise one of the bounds |
| Tuning.RoundHalfEven | HalconWinFormsDemo/Forms/CameraTuningForm.cs:354 | Math.Round of the gain: at most one half from it, and even when it lies exactly halfway between two integers |
| Tuning.RoundHalfEvenNearest | HalconWinFormsDemo/Forms/CameraTuningForm.cs:354 | the integer the gain is rounded to is at most one half away, is no farther than any other integer, and is even on a tie |
| Tuning.AutoCandidates | HalconWinFormsDemo/Forms/CameraTuningForm.cs:438-440 | the candidate list is non-empty and starts with "On"/"Off" |
| Tuning.CandidatesFrom | HalconWinFormsDemo/Forms/CameraTuningForm.cs:438-440 | nine candidates for on, eight for off; the list from position i has the rest of them, starting with candidate i |
| Tuning.FirstAccepted | HalconWinFormsDemo/Forms/CameraTuningForm.cs:442-450 | the index found is accepted by the device and every earlier candidate refused; none iff every candidate is refused |
| Tuning.TrySetAuto | HalconWinFormsDemo/Forms/CameraTuningForm.cs:436-452 | true iff some candidate is accepted; the values written and the error are those of AutoStep |
| Tuning.SetFirstAccepted | HalconWinFormsDemo/Forms/CameraTuningForm.cs:442-451 | the loop over the candidates: true iff one is accepted; what it writes and the error left are those of AutoStepOver |
| Tuning.AcceptedAt | HalconWinFormsDemo/Forms/CameraTuningForm.cs:442-450 | when candidate i is the first accepted, the candidates up to i are written and the error is cleared |
| Tuning.AllRefused | HalconWinFormsDemo/Forms/CameraTuningForm.cs:442-451 | when every candidate is refused, all are written and the error is the last refusal |
| Tuning.FirstAcceptedIs | HalconWinFormsDemo/Forms/CameraTuningForm.cs:442-450 | an accepted candidate with every earlier one refused is the one found |
| Tuning.AutoStep | HalconWinFormsDemo/Forms/CameraTuningForm.cs:436-452 | "On"/"Off" is written first, and when the device accepts it nothing else is written and no error remains |
| Tuning.AutoStepOver | HalconWinFormsDemo/Forms/CameraTuningForm.cs:442-451 | the first candidate is written first, and alone with no error when accepted |
| Tuning.AutoStepWrites | HalconWinFormsDemo/Forms/CameraTuningForm.cs:442-451 | the writes are a non-empty prefix of the candidates whose every element but the last was refused; an accepted one ends them with no error; when all are refused all are written and the last refusal is kept |
| Tuning.SetWithFallback | HalconWinFormsDemo/Forms/CameraTuningForm.cs:335-374 | a value accepted in its first form is written once with no error; otherwise the second form is written too and its refusal, if any, is the error |
| Tuning.FallbackStep | HalconWinFormsDemo/Forms/CameraTuningForm.cs:335-374 | the first form is written first, and alone with no error when accepted |
| Tuning.BestEffortSteps | HalconWinFormsDemo/Forms/CameraTuningForm.cs:320-377 | ApplyToDeviceBestEffort is six steps |
| Tuning.ExposureSteps | HalconWinFormsDemo/Forms/CameraTuningForm.cs:326-341 | exposure auto is set with TrySetAuto; the exposure is written as an integer, then as a double, only when auto exposure is off |
| Tuning.GainSteps | HalconWinFormsDemo/Forms/CameraTuningForm.cs:343-358 | gain auto is set with TrySetAuto; the gain is written as a double, then rounded half to even to an integer, only when auto gain is off |
| Tuning.GammaSteps | HalconWinFormsDemo/Forms/CameraTuningForm.cs:361-377 | the gamma enable is written as a bool, then as 1/0; the gamma as a double, then as its text, only when enabled |
| Tuning.Report | HalconWinFormsDemo/Forms/CameraTuningForm.cs:330-376 | an error line is added iff the error is not blank |
| Tuning.ErrorsUpTo | HalconWinFormsDemo/Forms/CameraTuningForm.cs:320-377 | the steps report at most one error each |
| Tuning.NextStep | HalconWinFormsDemo/Forms/CameraTuningForm.cs:320-377 | one more step appends its writes tagged with its parameter and reports its error; a skipped step changes nothing |
| Tuning.SkippedStep | HalconWinFormsDemo/Forms/CameraTuningForm.cs:332-368 | a skipped step adds no write and no error |
| Tuning.WritesInOrder | HalconWinFormsDemo/Forms/CameraTuningForm.cs:320-377 | the writes follow the order exposure auto, exposure, gain auto, gain, gamma enable, gamma |
| Tuning.WritesOfStep | HalconWinFormsDemo/Forms/CameraTuningForm.cs:320-377 | a parameter is written iff its step ran and wrote something, and its first form is among the writes |
| Tuning.BestEffortAllAccepted | HalconWinFormsDemo/Forms/CameraTuningForm.cs:320-377 | a device that accepts everything gets exactly one write per applied parameter in its first form, and no error is reported |
| Tuning.FirstStepsWrite | HalconWinFormsDemo/Forms/CameraTuningForm.cs:320-377 | steps in which each parameter applied writes its first form alone, and the others are skipped, write exactly the first forms in order and report nothing |
| Tuning.AcceptedSteps | HalconWinFormsDemo/Forms/CameraTuningForm.cs:320-377 | with a device that accepts everything, each step applied writes its first form alone with no error, and the steps of the values not applied are skipped |
| Tuning.OneStep | HalconWinFormsDemo/Forms/CameraTuningForm.cs:320-377 | a step that writes only its first form with no error appends exactly that write |
| Tuning.WhatIsApplied | HalconWinFormsDemo/Forms/CameraTuningForm.cs:320-377 | the writes are in apply order; the auto flags and gamma enable are always written; the exposure iff auto exposure is off, the gain iff auto gain is off, the gamma iff enabled, each in its first form; at most six errors |
| Tuning.ApplyToDeviceBestEffort | HalconWinFormsDemo/Forms/CameraTuningForm.cs:320-377 | the writes and errors are those of the six steps (AppliedWrites, AppliedErrors) |
| Tuning.ApplyExposure | HalconWinFormsDemo/Forms/CameraTuningForm.cs:326-341 | the exposure section adds the writes and errors of steps one and two |
| Tuning.ApplyExposureValue | HalconWinFormsDemo/Forms/CameraTuningForm.cs:332-341 | the exposure value adds the writes and error of step two, which writes nothing when auto exposure is on |
| Tuning.ApplyGain | HalconWinFormsDemo/Forms/CameraTuningForm.cs:343-358 | the gain section adds the writes and errors of steps three and four |
| Tuning.ApplyGainValue | HalconWinFormsDemo/Forms/CameraTuningForm.cs:349-358 | the gain value adds the writes and error of step four, which writes nothing when auto gain is on |
| Tuning.ApplyGamma | HalconWinFormsDemo/Forms/CameraTuningForm.cs:361-377 | the gamma section adds the writes and errors of steps five and six |
| Tuning.ApplyAuto | HalconWinFormsDemo/Forms/CameraTuningForm.cs:326-347 | one auto flag adds its step's writes and error |
| Tuning.ApplyWithFallback | HalconWinFormsDemo/Forms/CameraTuningForm.cs:335-376 | one value with its fallback form adds its step's writes and error |
| Tuning.CameraTuningForm.constructor | HalconWinFormsDemo/Forms/CameraTuningForm.cs:66-70 | the window keeps the camera's name and configuration |
| Tuning.CameraTuningForm.PersistToConfig | HalconWinFormsDemo/Forms/CameraTuningForm.cs:407-434 | nothing changes and nothing is saved while production is locked; otherwise the six entries are written into the camera's FramegrabberParams and the slot named like the camera, if any, gets them in the settings saved |
| Diagnostics.LevelName | HalconWinFormsDemo/Diagnostics/ThrottledUiLogger.cs:35 | the level's name is non-empty and holds no ':' |
| Diagnostics.NoIntervalNoThrottle | HalconWinFormsDemo/Diagnostics/ThrottledUiLogger.cs:36-44 | without a positive interval every call is let through and no timestamp is recorded |
| Diagnostics.FirstCallEmits | HalconWinFormsDemo/Diagnostics/ThrottledUiLogger.cs:38-43 | the first throttled call of a key is let through and records `now` for it |
| Diagnostics.SuppressedIff | HalconWinFormsDemo/Diagnostics/ThrottledUiLogger.cs:38-43 | a throttled call is suppressed iff the key's recorded tick count is non-zero and less than the interval ago; a suppressed call records nothing |
| Diagnostics.OtherKeysUntouched | HalconWinFormsDemo/Diagnostics/ThrottledUiLogger.cs:39-43 | a call leaves every other key's timestamp as it was |
| Diagnostics.KeysThrottleIndependently | HalconWinFormsDemo/Diagnostics/ThrottledUiLogger.cs:35-43 | whether a call on one key is let through does not depend on an earlier call on another key |
| Diagnostics.RepeatWithinInterval | HalconWinFormsDemo/Diagnostics/ThrottledUiLogger.cs:38-43 | after a throttled call let through at a non-zero `now`, a later call on the key is let through iff at least its interval has passed |
| Diagnostics.DefaultKeyInjective | HalconWinFormsDemo/Diagnostics/ThrottledUiLogger.cs:35 | default keys of categories without ':' are equal only for the same level, category and message |
| Diagnostics.DefaultIntervals | HalconWinFormsDemo/Diagnostics/ThrottledUiLogger.cs:20-30 | Debug and Info are never throttled; a Warn within 2 s (an Error within 1 s) of one let through on the same key is suppressed |
| Diagnostics.ThrottledUiLogger.constructor | HalconWinFormsDemo/Diagnostics/ThrottledUiLogger.cs:14-15 | no timestamps, no sink, no line delivered |
| Diagnostics.ThrottledUiLogger.BindUiSink | HalconWinFormsDemo/Diagnostics/ThrottledUiLogger.cs:18 | later lines go to the sink; the timestamps and lines so far are unchanged |
| Diagnostics.ThrottledUiLogger.Log | HalconWinFormsDemo/Diagnostics/ThrottledUiLogger.cs:32-48 | the call is let through iff Emits on the key, the timestamps become Recorded, and a let-through line "[HH:mm:ss][level][category] message" reaches a bound sink |
| Diagnostics.ThrottledUiLogger.LogDebug | HalconWinFormsDemo/Diagnostics/ThrottledUiLogger.cs:20-21 | Log at Debug level with the given interval (0 by default) |
| Diagnostics.ThrottledUiLogger.LogInfo | HalconWinFormsDemo/Diagnostics/ThrottledUiLogger.cs:23-24 | Log at Info level with the given interval (0 by default) |
| Diagnostics.ThrottledUiLogger.LogWarn | HalconWinFormsDemo/Diagnostics/ThrottledUiLogger.cs:26-27 | Log at Warn level with the given interval (2000 ms by default) |
| Diagnostics.ThrottledUiLogger.LogError | HalconWinFormsDemo/Diagnostics/ThrottledUiLogger.cs:29-30 | Log at Error level with the given interval (1000 ms by default) |

## Left out

- Case-insensitive comparison (`OrdinalIgnoreCase`) and `char.IsWhiteSpace` are modelled on ASCII letters and ASCII white space only. Unicode case folding is not modelled.
- HALCON itself is an oracle that answers each operator call with success or failure. Tuples, images and the HALCON error codes beyond their text are not modelled.
- Floating point is not modelled, because its rounding and text formatting belong to the runtime:
  - the FPS moving average in `MarkFrameForCamera` and the FPS division in `VisionController.ProcessImage`;
  - the simulated image's brightness;
  - `ReadDouble`;
  - the invariant-culture text of a double, which is an input (`gainText`, `gammaText`);
  - the `decimal` ranges of the tuning controls.
- FramegrabberCamera.SetAttempts: a `double` or `decimal` value gets no type fallbacks (rounded int, invariant text). Those need the double's text form.
- The abort/reopen retry after HALCON error #5329 in `TrySetParam`, and `ReopenHandle_NoThrow`, are not modelled. They are a chain of foreign calls.
- `ApplyPersistedFramegrabberParamsBestEffort` and `TryGetAvailableEasyParams` of the framegrabber camera are not modelled. They replay stored parameters through the same oracle.
- Simulated.ToInt: text that parses only as a double (say "2.5") keeps the fallback, where the source truncates the double. A double outside the Int32 range also keeps the fallback, where the source's cast has no defined value.
- Simulated.ToDouble: text is parsed only as an Int32. Decimal-point text keeps the fallback, because `double.TryParse` is floating point.
- The simulated camera's `ToBool` of a HALCON tuple gives false. The tuple's `ToString` text is not modelled.
- `VisionController.CameraNames` and `TryGetCamera` are pass-throughs to the registry and hold no logic of their own.
- Aggregator.ProcessImage: a frame from a camera the aggregator never added is dropped. In the source, `frameCount[name]++` throws `KeyNotFoundException` inside the registry's event.
- `GetDeviceCandidates` removes duplicates by comparing text ignoring case. The source compares the `ToString` of HALCON tuples, which is the text for the string tuples used here.
- The device is seen through a stateless accept/refuse function of key and value. A device whose answer depends on earlier writes is not modelled.
- Threads, locks, `ConcurrentDictionary` and `BeginInvoke` are not modelled; every call runs to completion before the next one.
- The tuning window's apply timer, its task chain and the `SoftwareTrigger` after an apply are not modelled. They are timing and UI feedback.
- `LogLevel`, `TriggerGroup` and `RunMode` are defined by their use. Their declaring files are not part of this model.
- The clock is a parameter: milliseconds for cameras and windows, ticks for the logger. The logger's UI sink is a bound flag plus the list of lines it received.
- `Random` in the simulated camera is the `faultRoll` input, and its delayed recovery task is the separate `Recover` call.
- File I/O and JSON are not modelled. The stores' load results are inputs, writes are outputs, and a failed atomic write is a flag.
- Windows, layout, painting, message boxes, status labels, badge colours and combo drawing are not modelled. A combo is its selected text. The display text of a device entry is computed but not specified.
- The Hik and USB camera classes are not part of this model, because their grab threads are about concurrency. The Modbus PLC service is not part of this model; the alarm registers are the list of values written to them.
- The settings dialog's dirty flag is not modelled.
- Configurations are values. Two windows holding the same `CameraConfig` object, and seeing each other's writes, is not modelled.
- Event handlers still attached after the registry's `Clear` are not modelled.
- `ApplyRunMode` with two slots of the same name in the settings is not modelled. The registry throws in the middle of the loop; the model plans one camera per slot.
- Dictionary enumeration order is not modelled. The camera lists are kept in registration order, which is the order the source relies on.
- The dialog's constructor calls `PopulateMappingCombos` twice, both with no devices. Only the second call is modelled: it comes after the combo handlers are attached and rebuilds the list and every selection.
- `EnumerateDevices` is an input, because it queries HALCON.
- `TryParseBoolFromTuple`, `TryGetDoubleFromTuple` and the device read-back in `LoadFromConfigAndDevice` are not modelled. They read HALCON tuples and doubles.
- Tuning.PersistThenLoad: only the flags and the exposure are read back. The gain and gamma are doubles.
- Tuning.PersistThenLoad: it states what the configuration entries read back. It does not state what the reopened window shows. The `ValueChanged` handlers are wired before the load, so moving a numeric box off its Minimum clears the auto flag or turns gamma on. `LoadFromConfigAsWritten` models this cascade, and it is listed under Findings.
- Tuning.LoadFromConfigAsWritten: the gain and gamma doubles are inputs, and no device answers the read-back. `MarkPendingApply`, which then pushes the changed flags to the device, is not modelled here. An exposure or gain outside its box's range makes the source throw; the model sets the box anyway.
- Shell.MainForm.AddCameraClicked: the device text is a free input. The device list it comes from is a drop-down list, and nothing in the source fills it.
- SettingsDialog.ExtractField: the regular expression `field\s*:\s*([^|]+)` is modelled as a left-to-right scan. At each position it takes the field name, any white space, a `:`, and then a non-empty run of characters up to the next `|`, trimmed. The white space after `:` is part of that run and is removed by the trim. White space is ASCII white space.
- Registry.CameraManager.TriggerAll, Registry.CameraManager.TriggerGroupCapture: a device that raises `ImageArrived` or `CameraError` inside `SoftwareTrigger` does so synchronously in the source. The model takes these as separate, later `OnCameraImageArrived` and `OnCameraError` calls.
- Shell.MainForm.ApplyRunMode: whether each camera's `Open`/`Start` succeeds is an input (`startError`, by camera name). The error text shown in the view status and the `CameraError` event that a failed start raises are not modelled.
- The Mock-mode auto-cycle timer that `ApplyRunMode` stops and starts is not modelled, because it is timing.
- Shell.AddCamera: the `InvalidOperationException` the registry throws on a duplicate name is the `NameTaken` outcome. Nothing is registered and the counter has already been incremented.

## Findings

| source | as written | input that shows it | evidently intended | confidence | as-written member | corrected member |
|---|---|---|---|---|---|---|
| HalconWinFormsDemo/MainForm.cs:1131 | switching to Real mode sets `realCamCount` to 0 and then registers Cam1..Cam6 from the settings; the add-camera button then names its camera "Cam1" again and the registry throws on the duplicate name (the add handler, MainForm.cs lines 1398-1413) | switch to Real with the default settings, then click Add with a non-blank device text. The device list is a drop-down list that nothing in the source fills (MainForm.cs:1385 is its only read), so without another way to fill it the blank-device check at MainForm.cs lines 1386-1390 stops the click first | the counter counts the real cameras just registered, so the button refuses at the cap of six instead of throwing | low, not executed | Shell.AfterRunModeAsWritten, Shell.AddAfterRealRebuildAsWritten | Shell.AfterRunMode, Shell.RealRebuildRefusesClicks |
| HalconWinFormsDemo/Forms/CameraTuningForm.cs:263-274 | the load sets each flag and then its numeric box. The `ValueChanged` handlers (lines 170-176, 185-191, 206-212) are already wired (line 83 comes before line 84), and the boxes start at their Minimums 1, 0 and 0.10. So setting the box clears auto exposure or auto gain, and turns gamma on | persist auto exposure on, exposure 8000, auto gain on, gain 1.0, gamma off, gamma 1.00, then reopen the window with no device answering the read-back | the window shows the flags that were persisted | medium, not executed | Tuning.LoadFromConfigAsWritten, Tuning.ReopenFlipsFlags | Tuning.LoadedFromConfig, Tuning.PersistThenLoad |
