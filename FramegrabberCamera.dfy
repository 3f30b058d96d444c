/**
 * A camera driven through HALCON's generic framegrabber interface: its
 * connection state machine with exponential reconnect back-off, the
 * open-by-candidates procedure, the software trigger that never throws,
 * and the guarded parameter access with its ordered name candidates.
 *
 * The HALCON operators are an oracle (`Halcon`): which interfaces are
 * installed, whether OpenFramegrabber succeeds for an interface and
 * device, whether a grab succeeds, and the outcome of each parameter
 * read or write. Time is the `now` parameter in milliseconds; 0 stands
 * for DateTime.MinValue.
 */
module FramegrabberCamera {
  import opened Wrappers
  import opened Text
  import opened Models
  import opened HalconCameraHelper

  /** The outcome of GetFramegrabberParam for one parameter name. */
  datatype ParamOutcome = Got(value: ParamValue) | GetFailed(message: string)

  /** The HALCON operators as seen by the camera: None means the operator succeeded. */
  datatype Halcon = Halcon(
    available: string -> bool,
    openError: (string, string) -> Option<string>,
    grabError: Option<string>,
    setError: (string, ParamValue) -> Option<string>,
    getParam: string -> ParamOutcome)

  /** An open acquisition handle and the arguments it was opened with. */
  datatype AcqHandle = AcqHandle(interfaceName: string, device: string, port: PortTuple)

  // ---------------------------------------------------------------------
  // Reconnect back-off
  // ---------------------------------------------------------------------

  const INITIAL_RETRY_DELAY_MS: int := 1000
  const MAX_RETRY_DELAY_MS: int := 30000
  /** DateTime.MinValue: no retry pending. */
  const MIN_TIME: int := 0

  function Min(a: int, b: int): int {
    if a <= b then a else b
  }

  /** The delay ScheduleRetry moves to: doubled, capped at 30 s. */
  function NextRetryDelay(delay: int): int {
    Min(delay * 2, MAX_RETRY_DELAY_MS)
  }

  /** From any delay in [1000, 30000] a failure keeps the delay in range and never shortens it. */
  lemma NextRetryDelayBounds(delay: int)
    requires INITIAL_RETRY_DELAY_MS <= delay <= MAX_RETRY_DELAY_MS
    ensures INITIAL_RETRY_DELAY_MS <= NextRetryDelay(delay) <= MAX_RETRY_DELAY_MS
    ensures delay <= NextRetryDelay(delay)
    ensures delay < MAX_RETRY_DELAY_MS ==> delay < NextRetryDelay(delay)
  {
  }

  /** Two failures in a row (an unavailable interface during an inline open) quadruple the delay, capped. */
  lemma DoubleScheduleQuadruples(delay: int)
    requires delay >= 0
    ensures NextRetryDelay(NextRetryDelay(delay)) == Min(4 * delay, MAX_RETRY_DELAY_MS)
  {
  }

  function Pow2(k: nat): nat {
    if k == 0 then 1 else 2 * Pow2(k - 1)
  }

  /** The delay after `k` consecutive failures from the initial delay. */
  function DelayAfterFailures(k: nat): int {
    if k == 0 then INITIAL_RETRY_DELAY_MS else NextRetryDelay(DelayAfterFailures(k - 1))
  }

  /** After k failures the delay is 1000 * 2^k, capped at 30000. */
  lemma {:induction false} DelayAfterFailuresClosedForm(k: nat)
    ensures DelayAfterFailures(k) == Min(INITIAL_RETRY_DELAY_MS * Pow2(k), MAX_RETRY_DELAY_MS)
  {
    if k > 0 {
      DelayAfterFailuresClosedForm(k - 1);
    }
  }

  /** Consecutive failures never shorten the delay, which stays in [1000, 30000]. */
  lemma {:induction false} DelayAfterFailuresMonotone(k: nat)
    ensures INITIAL_RETRY_DELAY_MS <= DelayAfterFailures(k) <= DelayAfterFailures(k + 1) <= MAX_RETRY_DELAY_MS
  {
    if k > 0 {
      DelayAfterFailuresMonotone(k - 1);
    }
    NextRetryDelayBounds(DelayAfterFailures(k));
  }

  // ---------------------------------------------------------------------
  // Opening: which interface and device OpenFramegrabber ends up with
  // ---------------------------------------------------------------------

  /** The three ways Open can end. */
  datatype OpenOutcome =
    | InterfaceMissing
    | NoDevice(interfaceName: string, error: string)
    | Opened(handle: AcqHandle)

  /** The first device candidate OpenFramegrabber accepts on interface `ifName`, if any. */
  function FirstOpenable(ifName: string, candidates: seq<string>, openError: (string, string) -> Option<string>)
    : (r: Option<string>)
    ensures r.Some? ==> exists k :: 0 <= k < |candidates| && candidates[k] == r.value
                          && openError(ifName, candidates[k]).None?
                          && forall j :: 0 <= j < k ==> openError(ifName, candidates[j]).Some?
    ensures r.None? <==> forall j :: 0 <= j < |candidates| ==> openError(ifName, candidates[j]).Some?
  {
    if candidates == [] then None
    else if openError(ifName, candidates[0]).None? then Some(candidates[0])
    else
      var r := FirstOpenable(ifName, candidates[1..], openError);
      assert forall j :: 1 <= j < |candidates| ==> candidates[j] == candidates[1..][j - 1];
      r
  }

  lemma {:induction false} FirstOpenableIs(ifName: string, candidates: seq<string>,
                                           openError: (string, string) -> Option<string>, i: nat)
    requires i < |candidates| && openError(ifName, candidates[i]).None?
    requires forall j :: 0 <= j < i ==> openError(ifName, candidates[j]).Some?
    ensures FirstOpenable(ifName, candidates, openError) == Some(candidates[i])
  {
    if i > 0 {
      FirstOpenableIs(ifName, candidates[1..], openError, i - 1);
    }
  }

  /** The device candidates Open tries on interface `ifName`. */
  function DeviceCandidates(ifName: string, config: CameraConfig): (candidates: seq<string>)
    ensures |candidates| > 0
  {
    DeviceCandidatesProperties(ifName, config.device);
    Dedup(RawDeviceCandidates(ifName, config.device))
  }

  /**
   * What Open does with a configuration: the first installed fallback
   * interface, then the first device candidate OpenFramegrabber accepts;
   * when every candidate fails, the error of the last one.
   */
  function PlanOpen(config: CameraConfig, hw: Halcon): OpenOutcome {
    match FirstAvailable(GetFallbackInterfaces(config.interfaceType), hw.available)
    case None => InterfaceMissing
    case Some(ifName) => PlanOpenOn(ifName, DeviceCandidates(ifName, config), config, hw)
  }

  lemma PlanOpenChosen(config: CameraConfig, hw: Halcon, ifName: string, candidates: seq<string>)
    requires FirstAvailable(GetFallbackInterfaces(config.interfaceType), hw.available) == Some(ifName)
    requires candidates == Dedup(RawDeviceCandidates(ifName, config.device))
    ensures |candidates| > 0
    ensures PlanOpen(config, hw) == PlanOpenOn(ifName, candidates, config, hw)
  {
    assert candidates == DeviceCandidates(ifName, config);
  }

  /** What Open does once interface `ifName` is chosen and its device candidates are known. */
  function PlanOpenOn(ifName: string, candidates: seq<string>, config: CameraConfig, hw: Halcon): OpenOutcome
    requires |candidates| > 0
  {
    match FirstOpenable(ifName, candidates, hw.openError)
    case Some(dev) => Opened(AcqHandle(ifName, dev, GetPortTuple(ifName, config.port)))
    case None => NoDevice(ifName, hw.openError(ifName, candidates[|candidates| - 1]).value)
  }

  /**
   * An opened handle uses an installed fallback interface and one of the
   * device candidates, and every candidate before it was refused.
   */
  lemma PlanOpenOpened(config: CameraConfig, hw: Halcon)
    requires PlanOpen(config, hw).Opened?
    ensures var h := PlanOpen(config, hw).handle;
      var candidates := DeviceCandidates(h.interfaceName, config);
      && h.interfaceName in GetFallbackInterfaces(config.interfaceType)
      && hw.available(h.interfaceName)
      && h.port == GetPortTuple(h.interfaceName, config.port)
      && exists k :: 0 <= k < |candidates| && candidates[k] == h.device
           && hw.openError(h.interfaceName, h.device).None?
           && forall j :: 0 <= j < k ==> hw.openError(h.interfaceName, candidates[j]).Some?
  {
    var fb := GetFallbackInterfaces(config.interfaceType);
    var ifName := FirstAvailable(fb, hw.available).value;
    var candidates := DeviceCandidates(ifName, config);
    var dev := FirstOpenable(ifName, candidates, hw.openError).value;
    assert PlanOpen(config, hw).handle == AcqHandle(ifName, dev, GetPortTuple(ifName, config.port));
  }

  /**
   * The OpenFramegrabber loop: tries the candidates in order and stops at
   * the first that opens; otherwise reports the last candidate's error.
   */
  method OpenFirstCandidate(ifName: string, candidates: seq<string>, port: PortTuple, hw: Halcon)
    returns (acquired: Option<AcqHandle>, last: Option<string>)
    ensures acquired == (match FirstOpenable(ifName, candidates, hw.openError)
                       case Some(dev) => Some(AcqHandle(ifName, dev, port))
                       case None => None)
    ensures acquired.None? && |candidates| > 0 ==> last == hw.openError(ifName, candidates[|candidates| - 1])
  {
    acquired, last := None, None;
    var i := 0;
    while i < |candidates|
      invariant 0 <= i <= |candidates|
      invariant forall j :: 0 <= j < i ==> hw.openError(ifName, candidates[j]).Some?
      invariant i > 0 ==> last == hw.openError(ifName, candidates[i - 1])
    {
      var err := hw.openError(ifName, candidates[i]);
      if err.None? {
        FirstOpenableIs(ifName, candidates, hw.openError, i);
        return Some(AcqHandle(ifName, candidates[i], port)), last;
      }
      last := err;
      i := i + 1;
    }
  }

  /**
   * The HALCON side of Open: resolves the interface, then tries the device
   * candidates. `inner` is the message of the failure, when there is one.
   */
  method ResolveOpen(name: string, config: CameraConfig, hw: Halcon) returns (outcome: OpenOutcome, inner: string)
    ensures outcome == PlanOpen(config, hw)
    ensures outcome.InterfaceMissing? ==> inner == InterfaceMissingMessage(name, config.interfaceType)
    ensures outcome.NoDevice? ==> inner == outcome.error
  {
    var ok, ifName, diagnostic := TryResolveAvailableInterface(config.interfaceType, hw.available);
    if !ok {
      outcome := InterfaceMissing;
      inner := "[" + name + "] HALCON 接口不可用: " + ToHalconInterfaceName(config.interfaceType)
        + ". 详情: " + diagnostic;
      return;
    }
    var port := GetPortTuple(ifName, config.port);
    var candidates := GetDeviceCandidates(ifName, config.device);
    PlanOpenChosen(config, hw, ifName, candidates);
    var acquired, last := OpenFirstCandidate(ifName, candidates, port, hw);
    if acquired.Some? {
      outcome, inner := Opened(acquired.value), "";
    } else {
      outcome, inner := NoDevice(ifName, last.value), last.value;
    }
  }

  const INTERFACE_MISSING: string := "接口不可用或缺失"
  const MANUAL_RECONNECT: string := "manual reconnect"

  function InterfaceMissingMessage(name: string, t: CameraInterfaceType): string {
    "[" + name + "] HALCON 接口不可用: " + ToHalconInterfaceName(t)
      + ". 详情: " + NotAvailableDiagnostic(ToHalconInterfaceName(t))
  }

  /** The message of the exception Open throws. */
  function OpenFailedMessage(name: string, inner: string): string {
    "[" + name + "] OpenFramegrabber failed: " + inner
  }

  /** The message Open fails with, if it fails. */
  function OpenFailure(name: string, config: CameraConfig, outcome: OpenOutcome): Option<string> {
    match outcome
    case InterfaceMissing => Some(OpenFailedMessage(name, InterfaceMissingMessage(name, config.interfaceType)))
    case NoDevice(_, err) => Some(OpenFailedMessage(name, err))
    case Opened(_) => None
  }

  // ---------------------------------------------------------------------
  // The camera's state transitions, as functions of its fields
  // ---------------------------------------------------------------------

  /** The fields of a camera that its methods update. */
  datatype CameraSnapshot = CameraSnapshot(
    running: bool,
    handle: Option<AcqHandle>,
    state: CameraState,
    lastError: string,
    retryDelayMs: int,
    nextRetryAt: int,
    events: seq<CameraEvent>)

  /** The back-off delay stays between the initial and the maximal delay. */
  predicate BackoffInRange(v: CameraSnapshot) {
    INITIAL_RETRY_DELAY_MS <= v.retryDelayMs <= MAX_RETRY_DELAY_MS
  }

  /** SetState: the new state and error, announced by a StatusChanged event. */
  function WithState(v: CameraSnapshot, name: string, s: CameraState, err: string): CameraSnapshot {
    v.(state := s, lastError := err, events := v.events + [StatusChanged(name, s, err)])
  }

  /** ScheduleRetry: the delay doubles, up to the cap, and the next attempt waits that long. */
  function Rescheduled(v: CameraSnapshot, now: int): CameraSnapshot {
    var delay := NextRetryDelay(v.retryDelayMs);
    v.(retryDelayMs := delay, nextRetryAt := now + delay)
  }

  /** The back-off after a successful open or a manual reconnect. */
  function BackoffReset(v: CameraSnapshot): CameraSnapshot {
    v.(retryDelayMs := INITIAL_RETRY_DELAY_MS, nextRetryAt := MIN_TIME)
  }

  /** ForceReconnect. */
  function Reconnected(v: CameraSnapshot, name: string): CameraSnapshot {
    WithState(BackoffReset(v.(handle := None)), name, Disconnected, MANUAL_RECONNECT)
  }

  /** Open, once it is known how opening ends. */
  function AfterOpen(v: CameraSnapshot, name: string, now: int, outcome: OpenOutcome): CameraSnapshot {
    OpenConcluded(WithState(v, name, Connecting, "").(handle := None), name, now, outcome)
  }

  /** What Open does after reporting Connecting and closing the old handle. */
  function OpenConcluded(v: CameraSnapshot, name: string, now: int, outcome: OpenOutcome): CameraSnapshot {
    match outcome
    case InterfaceMissing => Rescheduled(WithState(v, name, Disconnected, INTERFACE_MISSING), now)
    case NoDevice(_, _) => v
    case Opened(h) => WithState(BackoffReset(v.(handle := Some(h))), name, Online, "")
  }

  /** The catch blocks of SoftwareTrigger: Disconnected with the message, a retry, one CameraError. */
  function Failed(v: CameraSnapshot, name: string, now: int, msg: string): CameraSnapshot {
    var w := Rescheduled(WithState(v, name, Disconnected, msg), now);
    w.(events := w.events + [CameraError(name, msg)])
  }

  /** GrabImageAsync on the open handle: a frame, or a failure. */
  function AfterGrab(v: CameraSnapshot, name: string, now: int, grabError: Option<string>): CameraSnapshot {
    match grabError
    case None => v.(events := v.events + [ImageArrived(name)])
    case Some(e) => Failed(v, name, now, e)
  }

  /** SoftwareTrigger without a handle: the inline open, then a grab if it opened. */
  function AfterInlineOpen(v: CameraSnapshot, name: string, config: CameraConfig, now: int,
                           grabError: Option<string>, outcome: OpenOutcome): CameraSnapshot
  {
    var w := AfterOpen(v, name, now, outcome);
    match OpenFailure(name, config, outcome)
    case Some(msg) => Failed(w, name, now, msg)
    case None => AfterGrab(w, name, now, grabError)
  }

  /** SoftwareTrigger: gated by the running flag and the retry time. */
  function AfterTrigger(v: CameraSnapshot, name: string, config: CameraConfig, now: int, hw: Halcon): CameraSnapshot {
    if !v.running || now < v.nextRetryAt then v
    else if v.handle.None? then AfterInlineOpen(v, name, config, now, hw.grabError, PlanOpen(config, hw))
    else AfterGrab(v, name, now, hw.grabError)
  }

  /** The number of CameraError events in `es`. */
  function ErrorCount(es: seq<CameraEvent>): nat {
    if es == [] then 0 else ErrorCount(es[..|es| - 1]) + (if es[|es| - 1].CameraError? then 1 else 0)
  }

  /** The number of ImageArrived events in `es`. */
  function FrameCount(es: seq<CameraEvent>): nat {
    if es == [] then 0 else FrameCount(es[..|es| - 1]) + (if es[|es| - 1].ImageArrived? then 1 else 0)
  }

  lemma {:induction false} CountsOfAppend(a: seq<CameraEvent>, b: seq<CameraEvent>)
    ensures ErrorCount(a + b) == ErrorCount(a) + ErrorCount(b)
    ensures FrameCount(a + b) == FrameCount(a) + FrameCount(b)
    decreases |b|
  {
    if b != [] {
      CountsOfAppend(a, b[..|b| - 1]);
      var ab := a + b;
      assert ab[..|ab| - 1] == a + b[..|b| - 1];
      assert ab[|ab| - 1] == b[|b| - 1];
    } else {
      assert a + b == a;
    }
  }

  /** Status reports followed by one last event count only that event. */
  lemma {:induction false} CountsOfReport(reports: seq<CameraEvent>, last: CameraEvent)
    requires forall i :: 0 <= i < |reports| ==> reports[i].StatusChanged?
    ensures ErrorCount(reports + [last]) == if last.CameraError? then 1 else 0
    ensures FrameCount(reports + [last]) == if last.ImageArrived? then 1 else 0
    decreases |reports|
  {
    var t := reports + [last];
    assert t[..|t| - 1] == reports;
    if reports != [] {
      CountsOfReport(reports[..|reports| - 1], reports[|reports| - 1]);
      assert reports[..|reports| - 1] + [reports[|reports| - 1]] == reports;
    }
  }

  /** Every transition keeps the back-off delay in range, and rescheduling never shortens it. */
  lemma BackoffStaysInRange(v: CameraSnapshot, name: string, config: CameraConfig, now: int, hw: Halcon)
    requires BackoffInRange(v)
    ensures BackoffInRange(Rescheduled(v, now)) && v.retryDelayMs <= Rescheduled(v, now).retryDelayMs
    ensures BackoffInRange(Reconnected(v, name))
    ensures BackoffInRange(AfterTrigger(v, name, config, now, hw))
  {
    NextRetryDelayBounds(v.retryDelayMs);
    if v.running && now >= v.nextRetryAt && v.handle.None? {
      InlineOpenKeepsBackoffInRange(v, name, config, now, hw.grabError, PlanOpen(config, hw));
    }
  }

  lemma OpenKeepsBackoffInRange(v: CameraSnapshot, name: string, now: int, outcome: OpenOutcome)
    requires BackoffInRange(v)
    ensures BackoffInRange(AfterOpen(v, name, now, outcome))
  {
    NextRetryDelayBounds(v.retryDelayMs);
  }

  lemma InlineOpenKeepsBackoffInRange(v: CameraSnapshot, name: string, config: CameraConfig, now: int,
                                      grabError: Option<string>, outcome: OpenOutcome)
    requires BackoffInRange(v)
    ensures BackoffInRange(AfterInlineOpen(v, name, config, now, grabError, outcome))
  {
    OpenKeepsBackoffInRange(v, name, now, outcome);
    NextRetryDelayBounds(AfterOpen(v, name, now, outcome).retryDelayMs);
  }

  /** Open reports Connecting before anything else, and only appends events. */
  lemma OpenReportsConnectingFirst(v: CameraSnapshot, name: string, now: int, outcome: OpenOutcome)
    ensures var w := AfterOpen(v, name, now, outcome);
      && |w.events| > |v.events| && w.events[..|v.events|] == v.events
      && w.events[|v.events|] == StatusChanged(name, Connecting, "")
  {
    var w := AfterOpen(v, name, now, outcome);
    assert w.events[..|v.events| + 1] == v.events + [StatusChanged(name, Connecting, "")];
  }

  /** A successful open resets the back-off and reports Online. */
  lemma OpenSuccessResetsBackoff(v: CameraSnapshot, name: string, now: int, h: AcqHandle)
    ensures var w := AfterOpen(v, name, now, Opened(h));
      && w.state == Online && w.lastError == "" && w.handle == Some(h)
      && w.retryDelayMs == INITIAL_RETRY_DELAY_MS && w.nextRetryAt == MIN_TIME
      && w.running == v.running
  {
  }

  /** A trigger while stopped or before the retry time changes nothing. */
  lemma TriggerGated(v: CameraSnapshot, name: string, config: CameraConfig, now: int, hw: Halcon)
    requires !v.running || now < v.nextRetryAt
    ensures AfterTrigger(v, name, config, now, hw) == v
  {
  }

  /** A trigger fails when the inline open fails or the grab fails. */
  predicate TriggerFails(v: CameraSnapshot, config: CameraConfig, hw: Halcon) {
    (v.handle.None? && !PlanOpen(config, hw).Opened?) || hw.grabError.Some?
  }

  /** The trigger's report of a failure, or its frame, appended to the events. */
  predicate FailsOrDelivers(v: CameraSnapshot, w: CameraSnapshot, name: string, now: int, failed: bool) {
    && w.running == v.running
    && |w.events| > |v.events| && w.events[..|v.events|] == v.events
    && (failed ==>
          && w.state == Disconnected && w.nextRetryAt == now + w.retryDelayMs
          && ErrorCount(w.events) == ErrorCount(v.events) + 1
          && FrameCount(w.events) == FrameCount(v.events)
          && w.events[|w.events| - 1].CameraError?)
    && (!failed ==>
          && ErrorCount(w.events) == ErrorCount(v.events)
          && FrameCount(w.events) == FrameCount(v.events) + 1
          && w.events[|w.events| - 1] == ImageArrived(name))
  }

  /**
   * A trigger that goes ahead either fails — Disconnected, a retry scheduled
   * from now, exactly one more CameraError and no frame — or delivers exactly
   * one frame and no error. The running flag is never touched.
   */
  lemma TriggerFailsOrDelivers(v: CameraSnapshot, name: string, config: CameraConfig, now: int, hw: Halcon)
    requires v.running && now >= v.nextRetryAt
    ensures FailsOrDelivers(v, AfterTrigger(v, name, config, now, hw), name, now, TriggerFails(v, config, hw))
  {
    if v.handle.None? {
      InlineOpenFailsOrDelivers(v, name, config, now, hw.grabError, PlanOpen(config, hw));
    } else {
      GrabFailsOrDelivers(v, name, now, hw.grabError);
    }
  }

  /** Status reports and then a failure: one more CameraError, no frame. */
  lemma FailureAfterReports(v: CameraSnapshot, u: CameraSnapshot, name: string, now: int, msg: string,
                            reports: seq<CameraEvent>)
    requires u.running == v.running && u.events == v.events + reports
    requires forall i :: 0 <= i < |reports| ==> reports[i].StatusChanged?
    ensures FailsOrDelivers(v, Failed(u, name, now, msg), name, now, true)
  {
    var w := Failed(u, name, now, msg);
    var all := reports + [StatusChanged(name, Disconnected, msg)];
    assert w.events == v.events + (all + [CameraError(name, msg)]);
    CountsOfReport(all, CameraError(name, msg));
    CountsOfAppend(v.events, all + [CameraError(name, msg)]);
  }

  /** Status reports and then a frame: one more ImageArrived, no error. */
  lemma FrameAfterReports(v: CameraSnapshot, u: CameraSnapshot, name: string, now: int, reports: seq<CameraEvent>)
    requires u.running == v.running && u.events == v.events + reports
    requires forall i :: 0 <= i < |reports| ==> reports[i].StatusChanged?
    ensures FailsOrDelivers(v, AfterGrab(u, name, now, None), name, now, false)
  {
    var w := AfterGrab(u, name, now, None);
    assert w.events == v.events + (reports + [ImageArrived(name)]);
    CountsOfReport(reports, ImageArrived(name));
    CountsOfAppend(v.events, reports + [ImageArrived(name)]);
  }

  lemma GrabFailsOrDelivers(v: CameraSnapshot, name: string, now: int, grabError: Option<string>)
    ensures FailsOrDelivers(v, AfterGrab(v, name, now, grabError), name, now, grabError.Some?)
  {
    assert v.events + [] == v.events;
    match grabError
    case None =>
      FrameAfterReports(v, v, name, now, []);
    case Some(e) =>
      FailureAfterReports(v, v, name, now, e, []);
  }

  lemma InlineOpenFailsOrDelivers(v: CameraSnapshot, name: string, config: CameraConfig, now: int,
                                  grabError: Option<string>, outcome: OpenOutcome)
    ensures FailsOrDelivers(v, AfterInlineOpen(v, name, config, now, grabError, outcome), name, now,
                            !outcome.Opened? || grabError.Some?)
  {
    var u := AfterOpen(v, name, now, outcome);
    var connecting := StatusChanged(name, Connecting, "");
    match outcome
    case InterfaceMissing =>
      var msg := OpenFailedMessage(name, InterfaceMissingMessage(name, config.interfaceType));
      FailureAfterReports(v, u, name, now, msg, [connecting, StatusChanged(name, Disconnected, INTERFACE_MISSING)]);
    case NoDevice(_, err) =>
      FailureAfterReports(v, u, name, now, OpenFailedMessage(name, err), [connecting]);
    case Opened(_) =>
      var reports := [connecting, StatusChanged(name, Online, "")];
      match grabError
      case None =>
        FrameAfterReports(v, u, name, now, reports);
      case Some(e) =>
        FailureAfterReports(v, u, name, now, e, reports);
  }

  /**
   * An inline open that finds no interface schedules a retry twice — once in
   * Open and once in SoftwareTrigger — so the delay is quadrupled, up to the cap.
   */
  lemma InterfaceMissingQuadruplesDelay(v: CameraSnapshot, name: string, config: CameraConfig, now: int, hw: Halcon)
    requires v.running && now >= v.nextRetryAt && v.handle.None?
    requires PlanOpen(config, hw) == InterfaceMissing
    requires BackoffInRange(v)
    ensures var w := AfterTrigger(v, name, config, now, hw);
      && w.retryDelayMs == Min(4 * v.retryDelayMs, MAX_RETRY_DELAY_MS)
      && w.nextRetryAt == now + w.retryDelayMs
      && w.state == Disconnected && w.handle == None
  {
    DoubleScheduleQuadruples(v.retryDelayMs);
  }

  // ---------------------------------------------------------------------
  // Parameter names
  // ---------------------------------------------------------------------

  /** The parameter key a display label (Chinese names for exposure, gain, gamma, black level) stands for. */
  function LabelKey(text: string): (key: Option<string>)
    ensures key.Some? ==> key.value in PARAM_KEYS
  {
    if text == "曝光自动" || text == "自动曝光" then Some("Consumer|exposure_auto")
    else if text == "曝光" then Some("Consumer|exposure")
    else if text == "增益自动" || text == "自动增益" then Some("Consumer|gain_auto")
    else if text == "增益" then Some("Consumer|gain")
    else if text == "伽马" then Some("Gamma")
    else if text == "伽马使能" || text == "启用伽马" then Some("GammaEnable")
    else if text == "黑电平" then Some("BlackLevel")
    else None
  }

  /** The keys display labels map to. */
  const PARAM_KEYS: set<string> := {"Consumer|exposure_auto", "Consumer|exposure", "Consumer|gain_auto",
    "Consumer|gain", "Gamma", "GammaEnable", "BlackLevel"}

  /**
   * Maps a display label (after trimming) to its parameter key; names
   * containing '|' are already keys and anything else is kept as given.
   */
  function NormalizeParamName(name: string): (r: string)
    ensures '|' in name ==> r == name
    ensures r == name || r in PARAM_KEYS
    ensures !IsBlank(name) ==> !IsBlank(r)
  {
    if '|' in name then name
    else
      match LabelKey(Trim(name))
      case Some(key) => ParamKeysNotBlank(key); key
      case None => name
  }

  lemma ParamKeysNotBlank(key: string)
    requires key in PARAM_KEYS
    ensures !IsBlank(key)
  {
    assert !IsWhiteSpace(key[0]);
  }

  /** Every key is left as it is by normalisation. */
  lemma ParamKeysAreNormal(key: string)
    requires key in PARAM_KEYS
    ensures NormalizeParamName(key) == key
  {
    if key == "Gamma" {
      UnlabelledIsNormal("Gamma");
    } else if key == "GammaEnable" {
      UnlabelledIsNormal("GammaEnable");
    } else if key == "BlackLevel" {
      UnlabelledIsNormal("BlackLevel");
    } else {
      assert key[8] == '|';
    }
  }

  /** A trimmed name without '|' that is longer than every display label is left as it is. */
  lemma UnlabelledIsNormal(name: string)
    requires Trimmed(name) && |name| > 4 && forall i :: 0 <= i < |name| ==> name[i] != '|'
    ensures NormalizeParamName(name) == name
  {
    assert '|' !in name;
    assert Trim(name) == name;
    NoLabelIsLong(name);
  }

  /** Every display label is at most four characters long, so a longer text is no label. */
  lemma NoLabelIsLong(text: string)
    requires |text| > 4
    ensures LabelKey(text) == None
  {
  }

  /** Normalising a name twice is the same as once. */
  lemma NormalizeParamNameIdempotent(name: string)
    ensures NormalizeParamName(NormalizeParamName(name)) == NormalizeParamName(name)
  {
    var r := NormalizeParamName(name);
    if r != name {
      ParamKeysAreNormal(r);
    }
  }

  /** The GenICam node names tried besides a normalised key, per producer convention. */
  function ExtraParamNames(key: string): seq<string> {
    if key == "Consumer|exposure" then ["ExposureTime", "ExposureTimeAbs", "ExposureTimeRaw"]
    else if key == "Consumer|gain" then ["Gain", "GainRaw", "GainAbs"]
    else if key == "Consumer|exposure_auto" then ["ExposureAuto", "ExposureAutoMode"]
    else if key == "Consumer|gain_auto" then ["GainAuto", "GainAutoMode"]
    else if key == "GammaEnable" then ["GammaEnabled", "Consumer|gamma_enable"]
    else if key == "Gamma" then ["Consumer|gamma", "GammaAbs", "GammaRaw"]
    else if key == "BlackLevel" then ["Consumer|black_level", "BlackLevelAbs", "BlackLevelRaw"]
    else []
  }

  /** The elements of `s` that are not blank, in order. */
  function NonBlank(s: seq<string>): (r: seq<string>)
    ensures forall i :: 0 <= i < |r| ==> !IsBlank(r[i])
    ensures forall x :: x in s && !IsBlank(x) ==> x in r
    ensures forall x :: x in r ==> x in s
    ensures |s| > 0 && !IsBlank(s[0]) ==> |r| > 0 && r[0] == s[0]
  {
    if s == [] then []
    else if IsBlank(s[0]) then NonBlank(s[1..])
    else [s[0]] + NonBlank(s[1..])
  }

  /**
   * The parameter names tried for a normalised key: the key itself first,
   * then its known node names, without blanks and without case-insensitive
   * duplicates.
   */
  function GetCandidateParamNames(key: string): (names: seq<string>)
    ensures !IsBlank(key) ==> |names| > 0 && names[0] == key
    ensures forall i :: 0 <= i < |names| ==> !IsBlank(names[i])
    ensures DistinctFolded(names)
    ensures forall x :: x in [key] + ExtraParamNames(key) && !IsBlank(x) ==> HasFolded(names, x)
    ensures forall x :: x in names ==> x in [key] + ExtraParamNames(key)
  {
    var list := NonBlank([key] + ExtraParamNames(key));
    DedupProperties(list);
    var names := Dedup(list);
    assert forall i :: 0 <= i < |names| ==> names[i] in list by {
      forall i | 0 <= i < |names| ensures names[i] in list {
        assert IsFirstOccurrence(list, names[i]);
      }
    }
    names
  }

  // ---------------------------------------------------------------------
  // Parameter writes: the ordered attempts
  // ---------------------------------------------------------------------

  /** Every candidate name paired with every value, candidate by candidate. */
  function Pairs(names: seq<string>, values: seq<ParamValue>): (r: seq<(string, ParamValue)>)
    ensures |r| == |names| * |values|
    ensures |names| > 0 && |values| > 0 ==> r[0] == (names[0], values[0])
    ensures forall i :: 0 <= i < |r| ==> r[i].0 in names
    ensures |values| == 1 ==> forall i :: 0 <= i < |names| ==> r[i] == (names[i], values[0])
  {
    if names == [] then []
    else seq(|values|, i requires 0 <= i < |values| => (names[0], values[i])) + Pairs(names[1..], values)
  }

  /** The values tried after the first pass, by the type of the requested value. */
  function FallbackValues(key: string, value: ParamValue): seq<ParamValue> {
    match value
    case BoolValue(b) =>
      [StrValue(if b then "On" else "Off"), StrValue(if b then "True" else "False"),
       IntValue(if b then 1 else 0), StrValue(if b then "1" else "0")]
    case IntValue(i) => [RealValue(i as real), StrValue(IntToString(i))]
    case _ => []
  }

  /** The auto-mode tokens tried last for an "_auto" key given as text. */
  function AutoTokens(key: string, value: ParamValue): seq<ParamValue> {
    match value
    case StrValue(s) =>
      if EndsWithIgnoreCase(key, "_auto") then
        (if EqualsIgnoreCase(s, "Off") || EqualsIgnoreCase(s, "On") then [StrValue(s)] else [])
      else []
    case _ => []
  }

  /**
   * The (name, value) writes TrySetParam makes, in order: the value under
   * every candidate name, then the type fallbacks per candidate, then for
   * "_auto" keys given as text the token itself and "Continuous".
   */
  function SetAttempts(key: string, value: ParamValue): (r: seq<(string, ParamValue)>)
    ensures forall i :: 0 <= i < |r| ==> r[i].0 in GetCandidateParamNames(key)
    ensures |r| >= |GetCandidateParamNames(key)|
    ensures forall i :: 0 <= i < |GetCandidateParamNames(key)| ==> r[i] == (GetCandidateParamNames(key)[i], value)
  {
    var names := GetCandidateParamNames(key);
    var continuous := if value.StrValue? && EndsWithIgnoreCase(key, "_auto") then Pairs(names, [StrValue("Continuous")]) else [];
    AttemptsShape(names, value, FallbackValues(key, value), AutoTokens(key, value), continuous);
    Pairs(names, [value]) + (Pairs(names, FallbackValues(key, value)) + (Pairs(names, AutoTokens(key, value)) + continuous))
  }

  /**
   * The value under every name, then further values under the same names:
   * every write uses one of the names, and the first |names| writes are the value.
   */
  lemma AttemptsShape(names: seq<string>, value: ParamValue, fallbacks: seq<ParamValue>, tokens: seq<ParamValue>,
                      tail: seq<(string, ParamValue)>)
    requires forall i :: 0 <= i < |tail| ==> tail[i].0 in names
    ensures var r := Pairs(names, [value]) + (Pairs(names, fallbacks) + (Pairs(names, tokens) + tail));
      && |r| >= |names|
      && (forall i :: 0 <= i < |r| ==> r[i].0 in names)
      && (forall i :: 0 <= i < |names| ==> r[i] == (names[i], value))
  {
    var first, rest := Pairs(names, [value]), Pairs(names, fallbacks) + (Pairs(names, tokens) + tail);
    assert forall i :: 0 <= i < |rest| ==> rest[i].0 in names;
    assert forall i :: 0 <= i < |names| ==> (first + rest)[i] == first[i];
  }

  /** The first write is the requested value under the key itself. */
  lemma SetAttemptsStartWithKey(key: string, value: ParamValue)
    requires !IsBlank(key)
    ensures |SetAttempts(key, value)| > 0 && SetAttempts(key, value)[0] == (key, value)
  {
    var names := GetCandidateParamNames(key);
    var first := Pairs(names, [value]);
    assert |first| > 0 && first[0] == (key, value);
  }

  /**
   * SetFramegrabberParam over `attempts`, in order, until one is accepted;
   * `tried` lists the writes made and `error` is the last refusal.
   */
  method SetUntilAccepted(attempts: seq<(string, ParamValue)>, hw: Halcon)
    returns (ok: bool, error: string, tried: seq<(string, ParamValue)>)
    requires |attempts| > 0
    ensures |tried| > 0 && tried <= attempts
    ensures forall j :: 0 <= j < |tried| - 1 ==> hw.setError(tried[j].0, tried[j].1).Some?
    ensures ok <==> hw.setError(tried[|tried| - 1].0, tried[|tried| - 1].1).None?
    ensures ok ==> error == ""
    ensures !ok ==> tried == attempts && hw.setError(tried[|tried| - 1].0, tried[|tried| - 1].1) == Some(error)
  {
    ok, error, tried := false, "", [];
    var i := 0;
    while i < |attempts|
      invariant 0 <= i <= |attempts|
      invariant tried == attempts[..i]
      invariant forall j :: 0 <= j < i ==> hw.setError(attempts[j].0, attempts[j].1).Some?
      invariant i > 0 ==> error == hw.setError(attempts[i - 1].0, attempts[i - 1].1).value
    {
      tried := tried + [attempts[i]];
      var err := hw.setError(attempts[i].0, attempts[i].1);
      if err.None? {
        return true, "", tried;
      }
      error := err.value;
      i := i + 1;
    }
    assert attempts[..i] == attempts;
  }

  /**
   * GetFramegrabberParam under each of `names`, in order, until one reads;
   * otherwise the error of the last name and an empty tuple.
   */
  method GetFirstReadable(names: seq<string>, hw: Halcon) returns (ok: bool, value: ParamValue, error: string)
    requires |names| > 0
    ensures ok <==> exists k :: 0 <= k < |names| && hw.getParam(names[k]).Got?
    ensures ok ==> error == ""
    ensures ok ==> exists k :: 0 <= k < |names| && hw.getParam(names[k]) == Got(value)
                     && forall j :: 0 <= j < k ==> hw.getParam(names[j]).GetFailed?
    ensures !ok ==> value == EMPTY_TUPLE && error == hw.getParam(names[|names| - 1]).message
  {
    ok, value, error := false, EMPTY_TUPLE, "";
    var i := 0;
    while i < |names|
      invariant 0 <= i <= |names|
      invariant forall j :: 0 <= j < i ==> hw.getParam(names[j]).GetFailed?
      invariant i > 0 ==> error == hw.getParam(names[i - 1]).message
      invariant value == EMPTY_TUPLE
    {
      match hw.getParam(names[i]) {
        case Got(v) =>
          return true, v, "";
        case GetFailed(msg) =>
          error := msg;
      }
      i := i + 1;
    }
  }

  const PARAM_NAME_EMPTY: string := "param name is empty"
  const HANDLE_NOT_OPEN: string := "acq_handle is not open"
  /** An empty HTuple. */
  const EMPTY_TUPLE: ParamValue := TupleValue([])

  // ---------------------------------------------------------------------
  // The camera
  // ---------------------------------------------------------------------

  class HalconFramegrabberCamera {
    const name: string
    const config: CameraConfig

    var running: bool
    var handle: Option<AcqHandle>
    var state: CameraState
    var lastError: string
    var retryDelayMs: int
    var nextRetryAt: int
    /** Every event raised so far, oldest first. */
    var events: seq<CameraEvent>

    function Snapshot(): CameraSnapshot
      reads this
    {
      CameraSnapshot(running, handle, state, lastError, retryDelayMs, nextRetryAt, events)
    }

    predicate Valid()
      reads this
    {
      BackoffInRange(Snapshot())
    }

    constructor(cfg: CameraConfig)
      ensures name == cfg.name && config == cfg
      ensures Snapshot() == CameraSnapshot(false, None, Disconnected, "", INITIAL_RETRY_DELAY_MS, MIN_TIME, [])
      ensures Valid()
    {
      name, config := cfg.name, cfg;
      running, handle := false, None;
      state, lastError := Disconnected, "";
      retryDelayMs, nextRetryAt := INITIAL_RETRY_DELAY_MS, MIN_TIME;
      events := [];
    }

    method SetState(s: CameraState, err: string)
      modifies this
      ensures Snapshot() == WithState(old(Snapshot()), name, s, err)
    {
      state, lastError := s, err;
      events := events + [StatusChanged(name, s, err)];
    }

    method ScheduleRetry(now: int)
      requires Valid()
      modifies this
      ensures Valid()
      ensures Snapshot() == Rescheduled(old(Snapshot()), now)
    {
      NextRetryDelayBounds(retryDelayMs);
      retryDelayMs := NextRetryDelay(retryDelayMs);
      nextRetryAt := now + retryDelayMs;
    }

    /** Drops the handle; a failing CloseFramegrabber is ignored. */
    method CloseInternal()
      modifies this
      ensures Snapshot() == old(Snapshot()).(handle := None)
    {
      handle := None;
    }

    method ForceReconnect()
      modifies this
      ensures Valid()
      ensures Snapshot() == Reconnected(old(Snapshot()), name)
    {
      CloseInternal();
      retryDelayMs, nextRetryAt := INITIAL_RETRY_DELAY_MS, MIN_TIME;
      SetState(Disconnected, MANUAL_RECONNECT);
    }

    /**
     * Opens the framegrabber. `failure` is the message of the exception
     * Open throws; `outcome` says how opening ended.
     */
    method Open(now: int, hw: Halcon) returns (failure: Option<string>, ghost outcome: OpenOutcome)
      requires Valid()
      modifies this
      ensures Valid()
      ensures outcome == PlanOpen(config, hw)
      ensures failure == OpenFailure(name, config, outcome)
      ensures Snapshot() == AfterOpen(old(Snapshot()), name, now, outcome)
    {
      SetState(Connecting, "");
      CloseInternal();
      var result, inner := ResolveOpen(name, config, hw);
      outcome := result;
      failure := ConcludeOpen(now, result, inner);
    }

    /** The state changes Open makes once it knows how opening ended. */
    method ConcludeOpen(now: int, outcome: OpenOutcome, inner: string) returns (failure: Option<string>)
      requires Valid()
      modifies this
      ensures Valid()
      ensures failure == if outcome.Opened? then None else Some(OpenFailedMessage(name, inner))
      ensures Snapshot() == OpenConcluded(old(Snapshot()), name, now, outcome)
    {
      match outcome {
        case InterfaceMissing =>
          SetState(Disconnected, INTERFACE_MISSING);
          ScheduleRetry(now);
          failure := Some(OpenFailedMessage(name, inner));
        case NoDevice(_, _) =>
          failure := Some(OpenFailedMessage(name, inner));
        case Opened(h) =>
          handle := Some(h);
          retryDelayMs, nextRetryAt := INITIAL_RETRY_DELAY_MS, MIN_TIME;
          SetState(Online, "");
          failure := None;
      }
    }

    method Start()
      modifies this
      ensures Snapshot() == old(Snapshot()).(running := true)
    {
      running := true;
    }

    /** Stops triggering; the handle and the state are kept. */
    method Stop()
      modifies this
      ensures Snapshot() == old(Snapshot()).(running := false)
    {
      running := false;
    }

    method Dispose()
      modifies this
      ensures Snapshot() == old(Snapshot()).(running := false, handle := None)
    {
      running := false;
      CloseInternal();
    }

    /** Grabs one frame, opening the framegrabber first when there is no handle. It never throws. */
    method SoftwareTrigger(now: int, hw: Halcon)
      requires Valid()
      modifies this
      ensures Valid()
      ensures Snapshot() == AfterTrigger(old(Snapshot()), name, config, now, hw)
    {
      if !running || now < nextRetryAt {
        return;
      }
      if handle.None? {
        OpenThenGrab(now, hw);
      } else {
        Grab(now, hw.grabError);
      }
    }

    /** The inline open of SoftwareTrigger, then a grab if it opened. */
    method OpenThenGrab(now: int, hw: Halcon)
      requires Valid()
      modifies this
      ensures Valid()
      ensures Snapshot() == AfterInlineOpen(old(Snapshot()), name, config, now, hw.grabError, PlanOpen(config, hw))
    {
      var failure;
      ghost var outcome;
      failure, outcome := Open(now, hw);
      if failure.Some? {
        ReportFailure(now, failure.value);
      } else {
        Grab(now, hw.grabError);
      }
    }

    /** GrabImageAsync on the open handle: a frame event, or the failure path. */
    method Grab(now: int, grabError: Option<string>)
      requires Valid()
      modifies this
      ensures Valid()
      ensures Snapshot() == AfterGrab(old(Snapshot()), name, now, grabError)
    {
      match grabError {
        case None =>
          events := events + [ImageArrived(name)];
        case Some(e) =>
          ReportFailure(now, e);
      }
    }

    method ReportFailure(now: int, msg: string)
      requires Valid()
      modifies this
      ensures Valid()
      ensures Snapshot() == Failed(old(Snapshot()), name, now, msg)
    {
      SetState(Disconnected, msg);
      ScheduleRetry(now);
      events := events + [CameraError(name, msg)];
    }

    /**
     * Writes a parameter, trying the writes of SetAttempts in order until
     * one succeeds. A blank name or a closed handle fail before any write.
     * `tried` lists the writes made.
     */
    method TrySetParam(paramName: string, value: ParamValue, hw: Halcon)
      returns (ok: bool, error: string, tried: seq<(string, ParamValue)>)
      ensures IsBlank(paramName) ==> !ok && error == PARAM_NAME_EMPTY && tried == []
      ensures !IsBlank(paramName) && handle.None? ==> !ok && error == HANDLE_NOT_OPEN && tried == []
      ensures !IsBlank(paramName) && handle.Some? ==>
        var attempts := SetAttempts(NormalizeParamName(paramName), value);
        && |tried| > 0 && tried <= attempts
        && (forall j :: 0 <= j < |tried| - 1 ==> hw.setError(tried[j].0, tried[j].1).Some?)
        && (ok <==> hw.setError(tried[|tried| - 1].0, tried[|tried| - 1].1).None?)
        && (ok ==> error == "")
        && (!ok ==> tried == attempts && hw.setError(tried[|tried| - 1].0, tried[|tried| - 1].1) == Some(error))
    {
      tried := [];
      if IsBlank(paramName) {
        return false, PARAM_NAME_EMPTY, tried;
      }
      var key := NormalizeParamName(paramName);
      NormalizeParamNameIdempotent(paramName);
      if handle.None? {
        return false, HANDLE_NOT_OPEN, tried;
      }
      var attempts := SetAttempts(key, value);
      SetAttemptsStartWithKey(key, value);
      ok, error, tried := SetUntilAccepted(attempts, hw);
    }

    /**
     * Reads a parameter under its candidate names, in order, returning the
     * first value read; on failure the error of the last candidate and an
     * empty tuple.
     */
    method TryGetParam(paramName: string, hw: Halcon) returns (ok: bool, value: ParamValue, error: string)
      ensures IsBlank(paramName) ==> !ok && value == EMPTY_TUPLE && error == PARAM_NAME_EMPTY
      ensures !IsBlank(paramName) && handle.None? ==> !ok && value == EMPTY_TUPLE && error == HANDLE_NOT_OPEN
      ensures !IsBlank(paramName) && handle.Some? ==>
        var names := GetCandidateParamNames(NormalizeParamName(paramName));
        && (ok <==> exists k :: 0 <= k < |names| && hw.getParam(names[k]).Got?)
        && (ok ==> error == "" && exists k :: 0 <= k < |names| && hw.getParam(names[k]) == Got(value)
                                   && forall j :: 0 <= j < k ==> hw.getParam(names[j]).GetFailed?)
        && (!ok ==> value == EMPTY_TUPLE && error == hw.getParam(names[|names| - 1]).message)
    {
      if IsBlank(paramName) {
        return false, EMPTY_TUPLE, PARAM_NAME_EMPTY;
      }
      var key := NormalizeParamName(paramName);
      NormalizeParamNameIdempotent(paramName);
      var names := GetCandidateParamNames(key);
      if handle.None? {
        return false, EMPTY_TUPLE, HANDLE_NOT_OPEN;
      }
      ok, value, error := GetFirstReadable(names, hw);
    }
  }
}
