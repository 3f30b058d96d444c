/**
 * The main window's camera bookkeeping:
 *   - the View1..View6 mapping with its start-up self-heal (one camera per
 *     view) and the camera-to-window routing rebuilt from it;
 *   - the per-group offline sets behind the two PLC alarm registers;
 *   - the per-view "running" badge with its 1.2 s frame timeout;
 *   - the camera list rebuilt on a run-mode switch;
 *   - the add-camera button with its cap of six.
 *
 * View v (1..6) is at index v - 1 of the mapping. Windows, badges' colours
 * and FPS, message boxes and drawing are not modelled: a route is the view
 * index whose window shows the camera, and the PLC registers are the list
 * of values written to them. Time is a tick count passed in by the caller.
 */
module Shell {
  import opened Wrappers
  import opened Text
  import opened Models
  import opened UniqueKeys
  import CameraSettingsStore

  // ---------------------------------------------------------------------
  // The view mapping and its self-heal
  // ---------------------------------------------------------------------

  /** The key a view holds in the OrdinalIgnoreCase seen set: "" for a null or blank view. */
  function ViewKey(v: Option<string>): (k: string)
    ensures k == "" <==> v.None? || IsBlank(v.value)
  {
    if v.None? || IsBlank(v.value) then "" else Fold(v.value)
  }

  /*
   * The heal and the routing below are stated for a key function `key`;
   * LoadAndApplyViewMapping uses ViewKey, and the properties that need its
   * case-insensitivity are stated for ViewKey.
   */

  function ViewKeys(views: seq<Option<string>>, key: Option<string> -> string): (keys: seq<string>)
    ensures |keys| == |views|
    ensures forall i :: 0 <= i < |views| ==> keys[i] == key(views[i])
  {
    seq(|views|, i requires 0 <= i < |views| => key(views[i]))
  }

  /** View `i` after the heal: null when it has no key or when an earlier view has the same key. */
  function HealViewAt(views: seq<Option<string>>, i: int, key: Option<string> -> string): Option<string>
    requires 0 <= i < |views|
  {
    if key(views[i]) == "" || RepeatAt(ViewKeys(views, key), i) then None else views[i]
  }

  /** The mapping after the heal of LoadAndApplyViewMapping. */
  function HealedViews(views: seq<Option<string>>, key: Option<string> -> string): (h: seq<Option<string>>)
    ensures |h| == |views|
    ensures forall i :: 0 <= i < |views| ==> h[i] == HealViewAt(views, i, key)
  {
    seq(|views|, i requires 0 <= i < |views| => HealViewAt(views, i, key))
  }

  /** Some view repeats the key of an earlier view. */
  predicate HasDuplicateView(views: seq<Option<string>>, key: Option<string> -> string) {
    exists j :: 0 <= j < |views| && RepeatAt(ViewKeys(views, key), j)
  }

  lemma HealedViewKeys(views: seq<Option<string>>, key: Option<string> -> string)
    requires key(None) == ""
    ensures ViewKeys(HealedViews(views, key), key) == HealKeys(ViewKeys(views, key))
  {
    forall i | 0 <= i < |views|
      ensures ViewKeys(HealedViews(views, key), key)[i] == HealKeys(ViewKeys(views, key))[i]
    {
    }
  }

  /** A view keeps its camera exactly when it has a key and no earlier view has the same key. */
  lemma FirstViewWins(views: seq<Option<string>>, i: int, key: Option<string> -> string)
    requires 0 <= i < |views|
    requires key(None) == ""
    ensures HealedViews(views, key)[i].Some? <==>
      key(views[i]) != "" && forall j :: 0 <= j < i ==> key(views[j]) != key(views[i])
    ensures HealedViews(views, key)[i].Some? ==> HealedViews(views, key)[i] == views[i]
  {
    var keys := ViewKeys(views, key);
    if exists j :: 0 <= j < i && key(views[j]) == key(views[i]) {
      var j :| 0 <= j < i && key(views[j]) == key(views[i]);
      assert keys[..i][j] == keys[i];
    } else {
      forall j | 0 <= j < i ensures keys[..i][j] != keys[i] {
        assert keys[j] == key(views[j]);
      }
    }
  }

  /** Healing twice is healing once, and a healed mapping has nothing left to clear. */
  lemma HealViewsIdempotent(views: seq<Option<string>>, key: Option<string> -> string)
    requires key(None) == ""
    ensures HealedViews(HealedViews(views, key), key) == HealedViews(views, key)
    ensures !HasDuplicateView(HealedViews(views, key), key)
  {
    var h := HealedViews(views, key);
    HealedViewKeys(views, key);
    HealKeysAreDistinct(ViewKeys(views, key));
    DistinctHasNoRepeat(ViewKeys(h, key));
    assert forall i :: 0 <= i < |h| ==> HealedViews(h, key)[i] == h[i];
  }

  /** After the heal the cameras left in the views are non-blank and pairwise different, ignoring case. */
  lemma HealedViewsDistinct(views: seq<Option<string>>)
    ensures forall i :: 0 <= i < |views| && HealedViews(views, ViewKey)[i].Some? ==>
      !IsBlank(HealedViews(views, ViewKey)[i].value)
    ensures forall i, j :: (0 <= i < j < |views| &&
      HealedViews(views, ViewKey)[i].Some? && HealedViews(views, ViewKey)[j].Some?) ==>
      !EqualsIgnoreCase(HealedViews(views, ViewKey)[i].value, HealedViews(views, ViewKey)[j].value)
  {
    var h := HealedViews(views, ViewKey);
    HealedViewKeys(views, ViewKey);
    HealKeysAreDistinct(ViewKeys(views, ViewKey));
    forall i, j | 0 <= i < j < |views| && h[i].Some? && h[j].Some?
      ensures !EqualsIgnoreCase(h[i].value, h[j].value)
    {
      assert ViewKeys(h, ViewKey)[i] == ViewKey(h[i]) && ViewKeys(h, ViewKey)[j] == ViewKey(h[j]);
    }
  }

  // ---------------------------------------------------------------------
  // Routing: camera name -> window of its view
  // ---------------------------------------------------------------------

  /**
   * cameraNameToWindow as rebuilt from the mapping in view order: key of
   * the camera -> view index. A later view overwrites the entry of an
   * earlier one. With ViewKey this is the OrdinalIgnoreCase dictionary.
   */
  function RoutingOf(views: seq<Option<string>>, key: Option<string> -> string): map<string, nat>
    decreases |views|
  {
    if views == [] then map[]
    else
      var r := RoutingOf(views[..|views| - 1], key);
      var k := key(views[|views| - 1]);
      if k == "" then r else r[k := |views|]
  }

  /** With no key repeated, the routing sends each key to its own view. */
  lemma {:induction false} RoutingOfDistinct(views: seq<Option<string>>, key: Option<string> -> string)
    requires DistinctKeys(ViewKeys(views, key))
    ensures forall k :: k in RoutingOf(views, key) <==> k != "" && k in ViewKeys(views, key)
    ensures forall i :: 0 <= i < |views| && key(views[i]) != "" ==> RoutingOf(views, key)[key(views[i])] == i + 1
    decreases |views|
  {
    if views != [] {
      var n := |views| - 1;
      var init := views[..n];
      assert ViewKeys(views, key) == ViewKeys(init, key) + [key(views[n])];
      assert DistinctKeys(ViewKeys(init, key)) by {
        forall i, j | 0 <= i < j < |init| && ViewKeys(init, key)[j] != ""
          ensures ViewKeys(init, key)[i] != ViewKeys(init, key)[j]
        {
          assert ViewKeys(views, key)[i] == ViewKeys(init, key)[i];
          assert ViewKeys(views, key)[j] == ViewKeys(init, key)[j];
        }
      }
      RoutingOfDistinct(init, key);
      forall i | 0 <= i < n && key(views[i]) != "" ensures RoutingOf(views, key)[key(views[i])] == i + 1 {
        assert views[i] == init[i];
      }
    }
  }

  /** After the heal each camera left in a view is routed to exactly that view's window, and nothing else is routed. */
  lemma HealedRouting(views: seq<Option<string>>)
    ensures forall i :: 0 <= i < |views| && HealedViews(views, ViewKey)[i].Some? ==>
      Fold(HealedViews(views, ViewKey)[i].value) in RoutingOf(HealedViews(views, ViewKey), ViewKey) &&
      RoutingOf(HealedViews(views, ViewKey), ViewKey)[Fold(HealedViews(views, ViewKey)[i].value)] == i + 1
    ensures forall k :: k in RoutingOf(HealedViews(views, ViewKey), ViewKey) ==>
      exists i :: 0 <= i < |views| && HealedViews(views, ViewKey)[i].Some? && Fold(HealedViews(views, ViewKey)[i].value) == k
  {
    var h := HealedViews(views, ViewKey);
    HealedViewKeys(views, ViewKey);
    HealKeysAreDistinct(ViewKeys(views, ViewKey));
    RoutingOfDistinct(h, ViewKey);
    forall i | 0 <= i < |views| && h[i].Some?
      ensures Fold(h[i].value) in RoutingOf(h, ViewKey) && RoutingOf(h, ViewKey)[Fold(h[i].value)] == i + 1
    {
      assert ViewKeys(h, ViewKey)[i] == ViewKey(h[i]);
    }
    forall k | k in RoutingOf(h, ViewKey)
      ensures exists i :: 0 <= i < |views| && h[i].Some? && Fold(h[i].value) == k
    {
      var i :| 0 <= i < |h| && ViewKeys(h, ViewKey)[i] == k;
      assert h[i].Some? && Fold(h[i].value) == k;
    }
  }

  // ---------------------------------------------------------------------
  // Resolving a camera to its view
  // ---------------------------------------------------------------------

  /** The view holds `name`, compared case-insensitively. */
  predicate ShowsCamera(v: Option<string>, name: string) {
    v.Some? && EqualsIgnoreCase(v.value, name)
  }

  /** The first view, at index `from` or later, that shows `name`, as a 1-based view number. */
  function FirstShowing(views: seq<Option<string>>, name: string, from: nat): (r: Option<nat>)
    ensures r.Some? ==> from < r.value <= |views| && ShowsCamera(views[r.value - 1], name)
    ensures r.Some? ==> forall j :: from <= j < r.value - 1 ==> !ShowsCamera(views[j], name)
    ensures r.None? ==> forall j :: from <= j < |views| ==> !ShowsCamera(views[j], name)
    decreases |views| - from
  {
    if from >= |views| then None
    else if ShowsCamera(views[from], name) then Some(from + 1)
    else FirstShowing(views, name, from + 1)
  }

  /**
   * TryResolveViewIndexForCamera: null for a blank name, otherwise the
   * first view (in view order) showing the name.
   */
  function ViewIndexOf(views: seq<Option<string>>, name: string): (r: Option<nat>)
    ensures IsBlank(name) ==> r.None?
    ensures r.Some? ==> 1 <= r.value <= |views| && ShowsCamera(views[r.value - 1], name)
    ensures r.Some? ==> forall j :: 0 <= j < r.value - 1 ==> !ShowsCamera(views[j], name)
    ensures r.None? && !IsBlank(name) ==> forall j :: 0 <= j < |views| ==> !ShowsCamera(views[j], name)
  {
    if IsBlank(name) then None else FirstShowing(views, name, 0)
  }

  /** A view shows a non-blank name exactly when its key is the name's fold. */
  lemma ShowsByKey(v: Option<string>, name: string)
    requires !IsBlank(name)
    ensures ShowsCamera(v, name) <==> ViewKey(v) == Fold(name)
  {
    FoldKeepsBlankness(name);
    if v.Some? {
      FoldKeepsBlankness(v.value);
    }
  }

  /**
   * After the heal, the window a camera's frames are drawn in is the view
   * whose badge reports that camera's status.
   */
  lemma RouteAgreesWithStatus(views: seq<Option<string>>, name: string)
    ensures Fold(name) in RoutingOf(HealedViews(views, ViewKey), ViewKey) <==>
      ViewIndexOf(HealedViews(views, ViewKey), name).Some?
    ensures ViewIndexOf(HealedViews(views, ViewKey), name).Some? ==>
      RoutingOf(HealedViews(views, ViewKey), ViewKey)[Fold(name)] == ViewIndexOf(HealedViews(views, ViewKey), name).value
  {
    var h := HealedViews(views, ViewKey);
    HealedViewKeys(views, ViewKey);
    HealKeysAreDistinct(ViewKeys(views, ViewKey));
    RoutingOfDistinct(h, ViewKey);
    var r := ViewIndexOf(h, name);
    if IsBlank(name) {
      FoldKeepsBlankness(name);
      if Fold(name) in RoutingOf(h, ViewKey) {
        var i :| 0 <= i < |h| && ViewKeys(h, ViewKey)[i] == Fold(name);
        assert Fold(name) != "" && ViewKey(h[i]) == Fold(h[i].value);
        FoldKeepsBlankness(h[i].value);
        assert false;
      }
    } else if r.Some? {
      ShowsByKey(h[r.value - 1], name);
    }
  }

  // ---------------------------------------------------------------------
  // Alarm linkage
  // ---------------------------------------------------------------------

  /**
   * ResolveGroup: exactly the names "Cam1", "Cam2" and "Cam3", compared
   * case-sensitively, belong to group 1.
   */
  function ResolveGroup(name: string): (g: TriggerGroup)
    ensures g == Group1 <==> name in {"Cam1", "Cam2", "Cam3"}
  {
    if name == "Cam1" || name == "Cam2" || name == "Cam3" then Group1 else Group2
  }

  /** A value written to a group's PLC alarm register (PLC A for group 1, PLC B for group 2). */
  datatype AlarmWrite = AlarmWrite(group: TriggerGroup, on: bool)

  /** A CameraOnlineChanged notification as the alarm handler receives it. */
  datatype OnlineReport = OnlineReport(camera: string, online: bool)

  // ---------------------------------------------------------------------
  // The running badges
  // ---------------------------------------------------------------------

  /** Without a frame for this long a mapped view stops showing "running". */
  const FRAME_TIMEOUT_MS: int := 1200

  datatype Badge = Badge(isMapped: bool, isRunning: bool)

  const UNMAPPED_BADGE: Badge := Badge(false, false)

  /** IsViewMapped: view `v` holds a non-blank camera name. */
  predicate IsViewMapped(views: seq<Option<string>>, v: int) {
    1 <= v <= |views| && views[v - 1].Some? && !IsBlank(views[v - 1].value)
  }

  /** The badge of view `v` after UpdateBadgesByTimeout at `now`, given the view's last frame tick. */
  function BadgeAfterTimeout(views: seq<Option<string>>, v: int, tick: int, now: int): Badge {
    if !IsViewMapped(views, v) then UNMAPPED_BADGE
    else Badge(true, tick > 0 && now - tick <= FRAME_TIMEOUT_MS)
  }

  /** The last-frame tick of view `v` after UpdateBadgesByTimeout: reset for an unmapped view. */
  function TickAfterTimeout(views: seq<Option<string>>, v: int, tick: int): int {
    if !IsViewMapped(views, v) then 0 else tick
  }

  // ---------------------------------------------------------------------
  // The camera list of a run mode, and the add-camera button
  // ---------------------------------------------------------------------

  datatype Backend = SimulatedBackend | FramegrabberBackend

  /** A camera handed to the vision controller: its name, its backend, its trigger group and device. */
  datatype Registration = Registration(
    name: string,
    backend: Backend,
    group: TriggerGroup,
    interfaceType: CameraInterfaceType,
    device: string)

  /** A slot names a physical device: non-blank and not "default" once trimmed. */
  predicate HasDevice(cfg: CameraConfig) {
    !IsBlank(cfg.device) && !EqualsIgnoreCase(Trim(cfg.device), DEFAULT_DEVICE)
  }

  /** Slots 1-3 go to group 1, slots 4-6 to group 2 (`i` is 0-based). */
  function SlotGroup(i: int): TriggerGroup {
    if i < 3 then Group1 else Group2
  }

  /** The camera ApplyRunMode builds for slot `i` (0-based). */
  function SlotRegistration(mode: RunMode, cfg: CameraConfig, i: nat): Registration {
    var name := if IsBlank(cfg.name) then SlotName(i + 1) else cfg.name;
    var backend := if mode == Real || HasDevice(cfg) then FramegrabberBackend else SimulatedBackend;
    Registration(name, backend, SlotGroup(i), cfg.interfaceType, cfg.device)
  }

  /** The cameras ApplyRunMode registers, in slot order. */
  function RebuildPlan(mode: RunMode, settings: CameraSettings): (plan: seq<Registration>)
    ensures |plan| == |settings|
    ensures forall i :: 0 <= i < |settings| ==> plan[i] == SlotRegistration(mode, settings[i], i)
  {
    seq(|settings|, i requires 0 <= i < |settings| => SlotRegistration(mode, settings[i], i))
  }

  const MAX_REAL_CAMERAS: nat := 6

  /**
   * What a click on "add camera" does. NameTaken: the counter has moved on
   * but the vision controller refused the camera, because a camera of that
   * name (ignoring case) is already registered; the handler ends in the
   * InvalidOperationException the registry throws.
   */
  datatype AddOutcome = NotRealMode | CapReached | NoDevice | NameTaken(name: string) | Added(camera: Registration)

  /** The interface picked from the combo text: USB3 or DirectShow when named (ignoring case), else GigEVision2. */
  function InterfaceChoice(ifaceText: Option<string>): CameraInterfaceType {
    var text := ifaceText.GetOr("GigEVision2");
    if ContainsIgnoreCase(text, "USB3") then USB3Vision
    else if ContainsIgnoreCase(text, "DirectShow") then DirectShow
    else GigEVision2
  }

  // ---------------------------------------------------------------------
  // The form's state and its transitions
  // ---------------------------------------------------------------------

  /** The fields of MainForm this model keeps. Offline sets and the online map hold folded names. */
  datatype FormState = FormState(
    viewToCamera: seq<Option<string>>,
    cameraNameToWindow: map<string, nat>,
    savedMapping: Option<ViewMappingSettings>,
    cameraOnlineUi: map<string, bool>,
    group1Offline: set<string>,
    group2Offline: set<string>,
    alarmWrites: seq<AlarmWrite>,
    badges: seq<Badge>,
    lastFrameTick: seq<int>,
    realCamCount: nat,
    registered: seq<Registration>,
    currentMode: RunMode,
    productionLocked: bool)

  /** One badge and one tick per view. */
  predicate WellFormed(st: FormState) {
    |st.badges| == SLOT_COUNT && |st.lastFrameTick| == SLOT_COUNT
  }

  /**
   * LoadAndApplyViewMapping: the loaded mapping is healed and becomes the
   * view table and the routing; it is written back only when a duplicate
   * was cleared (a failed write is ignored).
   */
  function AfterLoadMapping(st: FormState, loaded: ViewMappingSettings, saveOk: bool): FormState {
    var healed := HealedViews(loaded, ViewKey);
    st.(viewToCamera := healed,
        cameraNameToWindow := RoutingOf(healed, ViewKey),
        savedMapping := if HasDuplicateView(loaded, ViewKey) && saveOk then Some(healed) else st.savedMapping)
  }

  function OfflineSet(st: FormState, g: TriggerGroup): set<string> {
    if g == Group1 then st.group1Offline else st.group2Offline
  }

  /**
   * The CameraOnlineChanged handler: records the flag, moves the camera in
   * or out of its group's offline set and writes that group's alarm
   * register with "the set is non-empty".
   */
  function AfterOnlineChanged(st: FormState, r: OnlineReport): FormState {
    var k := Fold(r.camera);
    var g := ResolveGroup(r.camera);
    var offline := if r.online then OfflineSet(st, g) - {k} else OfflineSet(st, g) + {k};
    var st1 := st.(cameraOnlineUi := st.cameraOnlineUi[k := r.online],
                   alarmWrites := st.alarmWrites + [AlarmWrite(g, offline != {})]);
    if g == Group1 then st1.(group1Offline := offline) else st1.(group2Offline := offline)
  }

  /** The handler applied to a sequence of notifications, in order. */
  function Replay(st: FormState, reports: seq<OnlineReport>): FormState
    decreases |reports|
  {
    if reports == [] then st
    else AfterOnlineChanged(Replay(st, reports[..|reports| - 1]), reports[|reports| - 1])
  }

  /** The latest notification for folded name `k` among those routed to group `g`. */
  function LastReport(reports: seq<OnlineReport>, g: TriggerGroup, k: string): Option<bool>
    decreases |reports|
  {
    if reports == [] then None
    else
      var r := reports[|reports| - 1];
      if ResolveGroup(r.camera) == g && Fold(r.camera) == k then Some(r.online)
      else LastReport(reports[..|reports| - 1], g, k)
  }

  /**
   * MarkFrameForCamera: the view showing the camera is marked mapped and
   * running, and its last-frame tick becomes `now`; a camera no view shows
   * changes nothing.
   */
  function AfterMarkFrame(st: FormState, name: string, now: int): FormState {
    var v := ViewIndexOf(st.viewToCamera, name).GetOr(0);
    if v <= 0 || v > |st.badges| || v > |st.lastFrameTick| then st
    else st.(badges := st.badges[v - 1 := Badge(true, true)],
             lastFrameTick := st.lastFrameTick[v - 1 := now])
  }

  /** UpdateBadgesByTimeout at `now`, over views 1..6. */
  function AfterTimeout(st: FormState, now: int): FormState
    requires WellFormed(st)
  {
    st.(badges := seq(SLOT_COUNT, i requires 0 <= i < SLOT_COUNT =>
                      BadgeAfterTimeout(st.viewToCamera, i + 1, st.lastFrameTick[i], now)),
        lastFrameTick := seq(SLOT_COUNT, i requires 0 <= i < SLOT_COUNT =>
                             TickAfterTimeout(st.viewToCamera, i + 1, st.lastFrameTick[i])))
  }

  /**
   * The notifications the registry raises while ApplyRunMode registers and
   * starts `plan` from an empty registry: each AddCamera marks its camera
   * offline, which is a change because the flag is absent; then StartAll
   * marks online, in registration order, the cameras whose Open and Start
   * succeed (`startError` None). A failed start marks the camera offline
   * again, which is no change and raises nothing.
   */
  function RebuildReports(plan: seq<Registration>, startError: string -> Option<string>): seq<OnlineReport> {
    AddedReports(plan) + StartedReports(plan, startError)
  }

  /** One "offline" notification per camera, in registration order. */
  function AddedReports(plan: seq<Registration>): (reports: seq<OnlineReport>)
    ensures |reports| == |plan|
    decreases |plan|
  {
    if plan == [] then []
    else AddedReports(plan[..|plan| - 1]) + [OnlineReport(plan[|plan| - 1].name, false)]
  }

  /** One "online" notification per camera that starts, in registration order. */
  function StartedReports(plan: seq<Registration>, startError: string -> Option<string>): seq<OnlineReport>
    decreases |plan|
  {
    if plan == [] then []
    else
      var last := plan[|plan| - 1];
      StartedReports(plan[..|plan| - 1], startError) +
        (if startError(last.name).None? then [OnlineReport(last.name, true)] else [])
  }

  /**
   * ApplyRunMode with the add counter restarting at `count`: both offline
   * sets are emptied, the slots are registered anew, the production lock
   * is on exactly in Real mode, and the alarm handler then receives the
   * notifications of the registration and of the start.
   */
  function Rebuilt(st: FormState, mode: RunMode, settings: CameraSettings, count: nat,
                   startError: string -> Option<string>): FormState
  {
    var plan := RebuildPlan(mode, settings);
    var cleared := st.(group1Offline := {}, group2Offline := {}, realCamCount := count,
                       registered := plan, currentMode := mode, productionLocked := mode == Real);
    Replay(cleared, RebuildReports(plan, startError))
  }

  /**
   * ApplyRunMode as written: the add counter restarts at 0 in both modes,
   * although in Real mode every slot has just been registered.
   */
  function AfterRunModeAsWritten(st: FormState, mode: RunMode, settings: CameraSettings,
                                 startError: string -> Option<string>): FormState
  {
    Rebuilt(st, mode, settings, 0, startError)
  }

  /**
   * ApplyRunMode with the counter it evidently intends: the number of real
   * cameras just registered, all the slots in Real mode and none in Mock
   * mode.
   */
  function AfterRunMode(st: FormState, mode: RunMode, settings: CameraSettings,
                        startError: string -> Option<string>): FormState
  {
    Rebuilt(st, mode, settings, if mode == Real then |settings| else 0, startError)
  }

  /** The names of the registered cameras, in order. */
  function RegisteredNames(regs: seq<Registration>): (names: seq<string>)
    ensures |names| == |regs|
    ensures forall i :: 0 <= i < |regs| ==> names[i] == regs[i].name
  {
    seq(|regs|, i requires 0 <= i < |regs| => regs[i].name)
  }

  /**
   * btnAddCamera_Click's decision, given the interface picked from the
   * combo (InterfaceChoice) and the trimmed device text.
   */
  function AddClickOutcome(st: FormState, it: CameraInterfaceType, device: string): AddOutcome {
    if st.currentMode != Real then NotRealMode
    else if st.realCamCount >= MAX_REAL_CAMERAS then CapReached
    else if IsBlank(device) || StartsWith(device, "(") then NoDevice
    else
      var n := st.realCamCount + 1;
      if HasFolded(RegisteredNames(st.registered), SlotName(n)) then NameTaken(SlotName(n))
      else Added(Registration(SlotName(n), FramegrabberBackend, if n <= 3 then Group1 else Group2, it, device))
  }

  /** The counter and the camera list after a click. */
  function ClickRegistration(st: FormState, it: CameraInterfaceType, device: string): FormState {
    match AddClickOutcome(st, it, device)
    case Added(cam) => st.(realCamCount := st.realCamCount + 1, registered := st.registered + [cam])
    case NameTaken(_) => st.(realCamCount := st.realCamCount + 1)
    case _ => st
  }

  /**
   * The notifications a click raises: the registry marks an added camera
   * offline, and nothing starts it.
   */
  function ClickReports(st: FormState, it: CameraInterfaceType, device: string): seq<OnlineReport> {
    match AddClickOutcome(st, it, device)
    case Added(cam) => [OnlineReport(cam.name, false)]
    case _ => []
  }

  /** A click's new state: the registration, then the alarm handler on its notification. */
  function AfterAddClick(st: FormState, it: CameraInterfaceType, device: string): FormState {
    Replay(ClickRegistration(st, it, device), ClickReports(st, it, device))
  }

  // ---------------------------------------------------------------------
  // Properties of the transitions
  // ---------------------------------------------------------------------

  /** Loading the mapping leaves a healed view table routed view by view, and saves only a healed mapping. */
  lemma LoadMappingResult(st: FormState, loaded: ViewMappingSettings, saveOk: bool)
    ensures var s2 := AfterLoadMapping(st, loaded, saveOk);
      !HasDuplicateView(s2.viewToCamera, ViewKey) &&
      (forall i :: 0 <= i < |s2.viewToCamera| && s2.viewToCamera[i].Some? ==>
        Fold(s2.viewToCamera[i].value) in s2.cameraNameToWindow &&
        s2.cameraNameToWindow[Fold(s2.viewToCamera[i].value)] == i + 1) &&
      (s2.savedMapping != st.savedMapping ==> s2.savedMapping == Some(s2.viewToCamera))
  {
    HealViewsIdempotent(loaded, ViewKey);
    HealedRouting(loaded);
  }

  /** One notification: the camera is in its group's offline set exactly when it reported offline, the other group is untouched, and the register written says whether the set is non-empty. */
  lemma AlarmFollowsOfflineSet(st: FormState, r: OnlineReport)
    ensures var s2 := AfterOnlineChanged(st, r);
      var g := ResolveGroup(r.camera);
      (Fold(r.camera) in OfflineSet(s2, g) <==> !r.online) &&
      OfflineSet(s2, g) - {Fold(r.camera)} == OfflineSet(st, g) - {Fold(r.camera)} &&
      (forall h :: h != g ==> OfflineSet(s2, h) == OfflineSet(st, h)) &&
      s2.alarmWrites == st.alarmWrites + [AlarmWrite(g, OfflineSet(s2, g) != {})]
  {
  }

  /**
   * Over any sequence of notifications starting from empty offline sets,
   * a camera is in a group's offline set exactly when its latest
   * notification in that group said offline.
   */
  lemma {:induction false} ReplayOfflineSets(st: FormState, reports: seq<OnlineReport>, g: TriggerGroup, k: string)
    requires OfflineSet(st, g) == {}
    ensures k in OfflineSet(Replay(st, reports), g) <==> LastReport(reports, g, k) == Some(false)
    decreases |reports|
  {
    if reports != [] {
      var init := reports[..|reports| - 1];
      ReplayOfflineSets(st, init, g, k);
      AlarmFollowsOfflineSet(Replay(st, init), reports[|reports| - 1]);
    }
  }

  /** The last alarm value written for a group says whether some camera of that group is offline now. */
  lemma AlarmOnIffGroupOffline(st: FormState, reports: seq<OnlineReport>)
    requires reports != []
    ensures var s2 := Replay(st, reports);
      var g := ResolveGroup(reports[|reports| - 1].camera);
      |s2.alarmWrites| > 0 && s2.alarmWrites[|s2.alarmWrites| - 1] == AlarmWrite(g, OfflineSet(s2, g) != {})
  {
    AlarmFollowsOfflineSet(Replay(st, reports[..|reports| - 1]), reports[|reports| - 1]);
  }

  /**
   * The alarm handler touches only the online map, the offline sets and
   * the alarm registers, and writes one register per notification.
   */
  lemma {:induction false} ReplayKeeps(st: FormState, reports: seq<OnlineReport>)
    ensures var s2 := Replay(st, reports);
      s2 == st.(cameraOnlineUi := s2.cameraOnlineUi, group1Offline := s2.group1Offline,
                group2Offline := s2.group2Offline, alarmWrites := s2.alarmWrites) &&
      |s2.alarmWrites| == |st.alarmWrites| + |reports| && s2.alarmWrites[..|st.alarmWrites|] == st.alarmWrites
    decreases |reports|
  {
    if reports != [] {
      var init := reports[..|reports| - 1];
      ReplayKeeps(st, init);
      var s1 := Replay(st, init);
      assert (s1.alarmWrites + [AlarmWrite(ResolveGroup(reports[|reports| - 1].camera), true)])[..|st.alarmWrites|]
        == s1.alarmWrites[..|st.alarmWrites|];
      assert (s1.alarmWrites + [AlarmWrite(ResolveGroup(reports[|reports| - 1].camera), false)])[..|st.alarmWrites|]
        == s1.alarmWrites[..|st.alarmWrites|];
    }
  }

  /** The latest notification in `a + b` is the latest in `b`, or else the latest in `a`. */
  lemma {:induction false} LastReportAppend(a: seq<OnlineReport>, b: seq<OnlineReport>, g: TriggerGroup, k: string)
    ensures LastReport(a + b, g, k) == if LastReport(b, g, k).Some? then LastReport(b, g, k) else LastReport(a, g, k)
    decreases |b|
  {
    if b == [] {
      assert a + b == a;
    } else {
      var b' := b[..|b| - 1];
      assert (a + b)[..|a + b| - 1] == a + b';
      LastReportAppend(a, b', g, k);
    }
  }

  /** Some camera of `plan` has folded name `k` and reports to group `g`. */
  predicate PlannedIn(plan: seq<Registration>, g: TriggerGroup, k: string) {
    exists i :: 0 <= i < |plan| && ResolveGroup(plan[i].name) == g && Fold(plan[i].name) == k
  }

  /** Some camera of `plan` that starts has folded name `k` and reports to group `g`. */
  predicate StartedIn(plan: seq<Registration>, startError: string -> Option<string>, g: TriggerGroup, k: string) {
    exists i :: 0 <= i < |plan| && ResolveGroup(plan[i].name) == g && Fold(plan[i].name) == k &&
      startError(plan[i].name).None?
  }

  /** A camera of `plan` is one of its first cameras or its last one. */
  lemma PlannedInSplit(plan: seq<Registration>, startError: string -> Option<string>, g: TriggerGroup, k: string)
    requires plan != []
    ensures var init, last := plan[..|plan| - 1], plan[|plan| - 1];
      var hit := ResolveGroup(last.name) == g && Fold(last.name) == k;
      (PlannedIn(plan, g, k) <==> PlannedIn(init, g, k) || hit) &&
      (StartedIn(plan, startError, g, k) <==> StartedIn(init, startError, g, k) || (hit && startError(last.name).None?))
  {
    PlannedSplit(plan, g, k);
    StartedSplit(plan, startError, g, k);
  }

  lemma PlannedSplit(plan: seq<Registration>, g: TriggerGroup, k: string)
    requires plan != []
    ensures var init, last := plan[..|plan| - 1], plan[|plan| - 1];
      PlannedIn(plan, g, k) <==> PlannedIn(init, g, k) || (ResolveGroup(last.name) == g && Fold(last.name) == k)
  {
    var init := plan[..|plan| - 1];
    if PlannedIn(init, g, k) {
      var i :| 0 <= i < |init| && ResolveGroup(init[i].name) == g && Fold(init[i].name) == k;
      assert plan[i] == init[i];
    }
    if PlannedIn(plan, g, k) {
      var i :| 0 <= i < |plan| && ResolveGroup(plan[i].name) == g && Fold(plan[i].name) == k;
      if i < |init| { assert init[i] == plan[i]; }
    }
  }

  lemma StartedSplit(plan: seq<Registration>, startError: string -> Option<string>, g: TriggerGroup, k: string)
    requires plan != []
    ensures var init, last := plan[..|plan| - 1], plan[|plan| - 1];
      StartedIn(plan, startError, g, k) <==>
        StartedIn(init, startError, g, k) ||
        (ResolveGroup(last.name) == g && Fold(last.name) == k && startError(last.name).None?)
  {
    var init := plan[..|plan| - 1];
    if StartedIn(init, startError, g, k) {
      var i :| 0 <= i < |init| && ResolveGroup(init[i].name) == g && Fold(init[i].name) == k &&
        startError(init[i].name).None?;
      assert plan[i] == init[i];
    }
    if StartedIn(plan, startError, g, k) {
      var i :| 0 <= i < |plan| && ResolveGroup(plan[i].name) == g && Fold(plan[i].name) == k &&
        startError(plan[i].name).None?;
      if i < |init| { assert init[i] == plan[i]; }
    }
  }

  /** After the registrations, every planned camera's latest notification says offline. */
  lemma {:induction false} LastAddedReport(plan: seq<Registration>, g: TriggerGroup, k: string)
    ensures LastReport(AddedReports(plan), g, k) == if PlannedIn(plan, g, k) then Some(false) else None
    decreases |plan|
  {
    if plan != [] {
      var init, last := plan[..|plan| - 1], plan[|plan| - 1];
      LastAddedReport(init, g, k);
      PlannedInSplit(plan, _ => None, g, k);
      var r := AddedReports(init) + [OnlineReport(last.name, false)];
      assert r[..|r| - 1] == AddedReports(init);
    }
  }

  /** Among the start notifications, a camera's latest one exists exactly when it started, and says online. */
  lemma {:induction false} LastStartedReport(plan: seq<Registration>, startError: string -> Option<string>,
                                             g: TriggerGroup, k: string)
    ensures LastReport(StartedReports(plan, startError), g, k) ==
      if StartedIn(plan, startError, g, k) then Some(true) else None
    decreases |plan|
  {
    if plan != [] {
      var init, last := plan[..|plan| - 1], plan[|plan| - 1];
      LastStartedReport(init, startError, g, k);
      PlannedInSplit(plan, startError, g, k);
      var r := StartedReports(init, startError);
      if startError(last.name).None? {
        var r' := r + [OnlineReport(last.name, true)];
        assert StartedReports(plan, startError) == r';
        assert r'[..|r'| - 1] == r;
      } else {
        assert StartedReports(plan, startError) == r + [];
        assert r + [] == r;
      }
    }
  }

  /**
   * After a run-mode switch, a camera name is in a group's offline set
   * exactly when a camera of that name reporting to that group was
   * registered and none of them started: the sets no longer start empty
   * once the new cameras are registered, and a camera that failed to open
   * keeps its group's alarm on.
   */
  lemma RebuildOfflineSets(st: FormState, mode: RunMode, settings: CameraSettings, count: nat,
                           startError: string -> Option<string>, g: TriggerGroup, k: string)
    ensures var plan := RebuildPlan(mode, settings);
      k in OfflineSet(Rebuilt(st, mode, settings, count, startError), g) <==>
        PlannedIn(plan, g, k) && !StartedIn(plan, startError, g, k)
  {
    var plan := RebuildPlan(mode, settings);
    var cleared := st.(group1Offline := {}, group2Offline := {}, realCamCount := count,
                       registered := plan, currentMode := mode, productionLocked := mode == Real);
    ReplayOfflineSets(cleared, RebuildReports(plan, startError), g, k);
    LastReportAppend(AddedReports(plan), StartedReports(plan, startError), g, k);
    LastAddedReport(plan, g, k);
    LastStartedReport(plan, startError, g, k);
  }

  /** A run-mode switch leaves the counter, the cameras, the mode and the lock as it set them. */
  lemma RebuiltFields(st: FormState, mode: RunMode, settings: CameraSettings, count: nat,
                      startError: string -> Option<string>)
    ensures var s2 := Rebuilt(st, mode, settings, count, startError);
      s2.realCamCount == count && s2.registered == RebuildPlan(mode, settings) &&
      s2.currentMode == mode && (s2.productionLocked <==> mode == Real) &&
      s2.viewToCamera == st.viewToCamera && s2.badges == st.badges
  {
    var plan := RebuildPlan(mode, settings);
    ReplayKeeps(st.(group1Offline := {}, group2Offline := {}, realCamCount := count,
                    registered := plan, currentMode := mode, productionLocked := mode == Real),
                RebuildReports(plan, startError));
  }

  /**
   * When the slots' camera names differ ignoring case (as the registry
   * requires), after a run-mode switch each camera is in the offline set of
   * the group its name reports to exactly when its Open or Start failed.
   */
  lemma RebuildCameraOffline(st: FormState, mode: RunMode, settings: CameraSettings, count: nat,
                             startError: string -> Option<string>, i: int)
    requires 0 <= i < |settings| && DistinctFolded(RegisteredNames(RebuildPlan(mode, settings)))
    ensures var name, s2 := RebuildPlan(mode, settings)[i].name, Rebuilt(st, mode, settings, count, startError);
      Fold(name) in OfflineSet(s2, ResolveGroup(name)) <==> startError(name).Some?
  {
    var plan := RebuildPlan(mode, settings);
    var name := plan[i].name;
    RebuildOfflineSets(st, mode, settings, count, startError, ResolveGroup(name), Fold(name));
    PlannedCamera(plan, startError, i);
  }

  /** In a plan of distinct names, camera i is planned under its own name, and started under it iff it started. */
  lemma PlannedCamera(plan: seq<Registration>, startError: string -> Option<string>, i: int)
    requires 0 <= i < |plan| && DistinctFolded(RegisteredNames(plan))
    ensures var name := plan[i].name;
      PlannedIn(plan, ResolveGroup(name), Fold(name)) &&
      (StartedIn(plan, startError, ResolveGroup(name), Fold(name)) <==> startError(name).None?)
  {
    var name := plan[i].name;
    if StartedIn(plan, startError, ResolveGroup(name), Fold(name)) {
      var j :| 0 <= j < |plan| && ResolveGroup(plan[j].name) == ResolveGroup(name) &&
        Fold(plan[j].name) == Fold(name) && startError(plan[j].name).None?;
      assert RegisteredNames(plan)[i] == name && RegisteredNames(plan)[j] == plan[j].name;
    }
  }

  /**
   * With the default slot names, after a run-mode switch camera i is in
   * the offline set of its own group exactly when its Open or Start failed.
   */
  lemma DefaultRebuildOffline(st: FormState, mode: RunMode, count: nat, startError: string -> Option<string>, i: int)
    requires 0 <= i < SLOT_COUNT
    ensures var s2 := Rebuilt(st, mode, DefaultCameraSettings(), count, startError);
      Fold(SlotName(i + 1)) in OfflineSet(s2, SlotGroup(i)) <==> startError(SlotName(i + 1)).Some?
  {
    var plan := RebuildPlan(mode, DefaultCameraSettings());
    forall j, k | 0 <= j < k < |plan| ensures Fold(RegisteredNames(plan)[j]) != Fold(RegisteredNames(plan)[k]) {
      DefaultNamesAlarmInOwnGroup(mode, j);
      DefaultNamesAlarmInOwnGroup(mode, k);
      SlotNamesApart(j + 1, k + 1);
    }
    DefaultNamesAlarmInOwnGroup(mode, i);
    RebuildCameraOffline(st, mode, DefaultCameraSettings(), count, startError, i);
  }

  /** Cam1..Cam3 report to group 1 and Cam4..Cam6 to group 2. */
  lemma SlotNameGroup(n: nat)
    requires 1 <= n <= MAX_REAL_CAMERAS
    ensures ResolveGroup(SlotName(n)) == if n <= 3 then Group1 else Group2
  {
    var name := SlotName(n);
    if n == 1 { assert name == "Cam1"; }
    else if n == 2 { assert name == "Cam2"; }
    else if n == 3 { assert name == "Cam3"; }
    else { assert name[3] != '1' && name[3] != '2' && name[3] != '3' by { SlotDigit(n); } }
  }

  /** A click that is refused before the name check leaves the form as it was. */
  lemma ClickWithoutRegistration(st: FormState, it: CameraInterfaceType, device: string)
    requires AddClickOutcome(st, it, device) in {NotRealMode, CapReached, NoDevice}
    ensures AfterAddClick(st, it, device) == st
  {
    assert ClickReports(st, it, device) == [];
  }

  /** A click refused for its name only moves the counter on. */
  lemma ClickOfTakenName(st: FormState, it: CameraInterfaceType, device: string)
    requires AddClickOutcome(st, it, device).NameTaken?
    ensures AfterAddClick(st, it, device) == st.(realCamCount := st.realCamCount + 1)
  {
    assert ClickReports(st, it, device) == [];
  }

  /** A click that adds a camera moves the counter on, registers it, and replays its offline notification. */
  lemma ClickOfAddedCamera(st: FormState, it: CameraInterfaceType, device: string)
    requires AddClickOutcome(st, it, device).Added?
    ensures var cam := AddClickOutcome(st, it, device).camera;
      AfterAddClick(st, it, device) ==
        Replay(st.(realCamCount := st.realCamCount + 1, registered := st.registered + [cam]), [OnlineReport(cam.name, false)])
  {
  }

  /** A click's notification changes neither the counter, nor the camera list, nor the mode. */
  lemma ClickFields(st: FormState, it: CameraInterfaceType, device: string)
    ensures var s2, c := AfterAddClick(st, it, device), ClickRegistration(st, it, device);
      s2.realCamCount == c.realCamCount && s2.registered == c.registered && s2.currentMode == c.currentMode
  {
    ReplayKeeps(ClickRegistration(st, it, device), ClickReports(st, it, device));
  }

  /**
   * A camera the add button registers is never started: it goes into the
   * offline set of its group and that group's alarm register is written on.
   */
  lemma AddedCameraRaisesAlarm(st: FormState, it: CameraInterfaceType, device: string)
    requires AddClickOutcome(st, it, device).Added?
    ensures var cam := AddClickOutcome(st, it, device).camera;
      var s2 := AfterAddClick(st, it, device);
      Fold(cam.name) in OfflineSet(s2, cam.group) &&
      s2.alarmWrites == st.alarmWrites + [AlarmWrite(cam.group, true)]
  {
    var cam := AddClickOutcome(st, it, device).camera;
    var x := ClickRegistration(st, it, device);
    var reports := [OnlineReport(cam.name, false)];
    assert ClickReports(st, it, device) == reports;
    assert reports[..0] == [] && Replay(x, []) == x;
    assert AfterAddClick(st, it, device) == AfterOnlineChanged(x, reports[0]);
    SlotNameGroup(st.realCamCount + 1);
    AlarmFollowsOfflineSet(x, reports[0]);
  }

  /**
   * The backend of a slot: in Real mode always the framegrabber; in Mock
   * mode the framegrabber exactly for the slots whose settings key is not
   * empty, i.e. the slots the device self-heal keeps track of.
   */
  lemma RebuildBackends(mode: RunMode, settings: CameraSettings, i: int)
    requires 0 <= i < |settings|
    ensures mode == Real ==> RebuildPlan(mode, settings)[i].backend == FramegrabberBackend
    ensures mode == Mock ==>
      (RebuildPlan(mode, settings)[i].backend == FramegrabberBackend <==> CameraSettingsStore.BuildKey(settings[i]) != "")
    ensures RebuildPlan(mode, settings)[i].group == Group1 <==> i < 3
  {
  }

  /** With the default names, the group a camera is registered in is the group its alarm goes to. */
  lemma DefaultNamesAlarmInOwnGroup(mode: RunMode, i: int)
    requires 0 <= i < SLOT_COUNT
    ensures var cam := RebuildPlan(mode, DefaultCameraSettings())[i];
      cam.name == SlotName(i + 1) && ResolveGroup(cam.name) == cam.group
  {
    assert DefaultCameraSettings()[i].name == SlotName(i + 1);
    SlotNameGroup(i + 1);
  }

  /** For n in 4..6 the digit of Cam{n} is n. */
  lemma SlotDigit(n: nat)
    requires 4 <= n <= 6
    ensures |SlotName(n)| == 4 && SlotName(n)[3] == DigitChar(n)
  {
    assert NatToString(n) == [DigitChar(n)];
  }

  /**
   * A frame shows its view's badge running at once; a later timeout check
   * keeps it running exactly within 1200 ms of that frame.
   */
  lemma RunningWithinTimeout(st: FormState, name: string, t: int, now: int)
    requires WellFormed(st) && t > 0
    requires ViewIndexOf(st.viewToCamera, name).Some? && ViewIndexOf(st.viewToCamera, name).value <= SLOT_COUNT
    ensures var v := ViewIndexOf(st.viewToCamera, name).value;
      var s2 := AfterMarkFrame(st, name, t);
      WellFormed(s2) && s2.badges[v - 1] == Badge(true, true) &&
      (AfterTimeout(s2, now).badges[v - 1].isRunning <==> now - t <= FRAME_TIMEOUT_MS)
  {
    var v := ViewIndexOf(st.viewToCamera, name).value;
    var view := st.viewToCamera[v - 1];
    assert ShowsCamera(view, name);
    FoldKeepsBlankness(name);
    FoldKeepsBlankness(view.value);
    assert IsViewMapped(st.viewToCamera, v);
  }

  /** A view without a camera never shows "running", whatever its ticks. */
  lemma UnmappedNeverRunning(st: FormState, now: int, v: int)
    requires WellFormed(st) && 1 <= v <= SLOT_COUNT && !IsViewMapped(st.viewToCamera, v)
    ensures AfterTimeout(st, now).badges[v - 1] == UNMAPPED_BADGE
    ensures AfterTimeout(st, now).lastFrameTick[v - 1] == 0
  {
  }

  /** Clicks on "add camera", in order. */
  function Clicks(st: FormState, inputs: seq<(CameraInterfaceType, string)>): FormState
    decreases |inputs|
  {
    if inputs == [] then st
    else
      var last := inputs[|inputs| - 1];
      AfterAddClick(Clicks(st, inputs[..|inputs| - 1]), last.0, last.1)
  }

  /**
   * One click either changes nothing, or (below the cap) moves the counter
   * to n and adds Cam{n} unless a camera of that name is registered already.
   */
  lemma ClickStep(st: FormState, it: CameraInterfaceType, device: string)
    ensures var s2 := AfterAddClick(st, it, device);
      (s2.realCamCount == st.realCamCount && s2.registered == st.registered) ||
      (st.realCamCount < MAX_REAL_CAMERAS && s2.realCamCount == st.realCamCount + 1 &&
       HasFolded(RegisteredNames(st.registered), SlotName(s2.realCamCount)) && s2.registered == st.registered) ||
      (st.realCamCount < MAX_REAL_CAMERAS && s2.realCamCount == st.realCamCount + 1 &&
       !HasFolded(RegisteredNames(st.registered), SlotName(s2.realCamCount)) &&
       |s2.registered| == |st.registered| + 1 && s2.registered[..|st.registered|] == st.registered &&
       s2.registered[|st.registered|].name == SlotName(s2.realCamCount) &&
       s2.registered[|st.registered|].backend == FramegrabberBackend &&
       (s2.registered[|st.registered|].group == Group1 <==> s2.realCamCount <= 3))
  {
    var s2 := AfterAddClick(st, it, device);
    ClickFields(st, it, device);
    if AddClickOutcome(st, it, device).Added? {
      assert s2.registered[..|st.registered|] == st.registered;
    }
  }

  /** Cam1 .. Cam6 are pairwise different, ignoring case. */
  lemma SlotNamesApart(k: nat, m: nat)
    requires 1 <= k <= MAX_REAL_CAMERAS && 1 <= m <= MAX_REAL_CAMERAS && k != m
    ensures Fold(SlotName(k)) != Fold(SlotName(m))
  {
    assert NatToString(k) == [DigitChar(k)] && NatToString(m) == [DigitChar(m)];
    assert Fold(SlotName(k))[3] == DigitChar(k) && Fold(SlotName(m))[3] == DigitChar(m);
  }

  /** No registered camera holds a name the button would give after the current count. */
  predicate NamesAhead(st: FormState) {
    forall n :: st.realCamCount < n <= MAX_REAL_CAMERAS ==> !HasFolded(RegisteredNames(st.registered), SlotName(n))
  }

  /**
   * However many times the button is clicked, at most six cameras are
   * added in all; the n-th one is named Cam{n}, uses the framegrabber and
   * goes to group 1 exactly when n <= 3.
   */
  lemma {:induction false} ClicksRespectCap(st: FormState, inputs: seq<(CameraInterfaceType, string)>)
    requires st.realCamCount <= MAX_REAL_CAMERAS && NamesAhead(st)
    ensures AddedSince(st, Clicks(st, inputs))
    decreases |inputs|
  {
    if inputs != [] {
      var init := inputs[..|inputs| - 1];
      ClicksRespectCap(st, init);
      var s1 := Clicks(st, init);
      var last := inputs[|inputs| - 1];
      ClickStep(s1, last.0, last.1);
      ClickKeepsNamesAhead(s1, last.0, last.1);
      AddedSinceStep(st, s1, AfterAddClick(s1, last.0, last.1));
    }
  }

  /**
   * From `st` to `s2` the counter stayed within the cap, no name lies
   * ahead of it, and the cameras added are Cam{n} for each count n
   * reached, on the framegrabber, in group 1 exactly when n <= 3.
   */
  predicate AddedSince(st: FormState, s2: FormState) {
    st.realCamCount <= s2.realCamCount <= MAX_REAL_CAMERAS && NamesAhead(s2) &&
    |s2.registered| == |st.registered| + (s2.realCamCount - st.realCamCount) &&
    s2.registered[..|st.registered|] == st.registered &&
    forall j :: |st.registered| <= j < |s2.registered| ==>
      var n := st.realCamCount + (j - |st.registered|) + 1;
      s2.registered[j].name == SlotName(n) && s2.registered[j].backend == FramegrabberBackend &&
      (s2.registered[j].group == Group1 <==> n <= 3)
  }

  /** One more click, described by ClickStep, extends AddedSince. */
  lemma AddedSinceStep(st: FormState, s1: FormState, s2: FormState)
    requires AddedSince(st, s1) && NamesAhead(s2)
    requires (s2.realCamCount == s1.realCamCount && s2.registered == s1.registered) ||
      (s1.realCamCount < MAX_REAL_CAMERAS && s2.realCamCount == s1.realCamCount + 1 &&
       HasFolded(RegisteredNames(s1.registered), SlotName(s2.realCamCount)) && s2.registered == s1.registered) ||
      (s1.realCamCount < MAX_REAL_CAMERAS && s2.realCamCount == s1.realCamCount + 1 &&
       !HasFolded(RegisteredNames(s1.registered), SlotName(s2.realCamCount)) &&
       |s2.registered| == |s1.registered| + 1 && s2.registered[..|s1.registered|] == s1.registered &&
       s2.registered[|s1.registered|].name == SlotName(s2.realCamCount) &&
       s2.registered[|s1.registered|].backend == FramegrabberBackend &&
       (s2.registered[|s1.registered|].group == Group1 <==> s2.realCamCount <= 3))
    ensures AddedSince(st, s2)
  {
    if s2.realCamCount != s1.realCamCount {
      assert s2.registered[..|st.registered|] == s1.registered[..|st.registered|];
    }
  }

  /**
   * As written, the counter restarts at 0 after the Real-mode rebuild has
   * registered Cam1..Cam6, so the first add click with a device builds
   * "Cam1" again: the registry refuses it and nothing is added.
   */
  lemma AddAfterRealRebuildAsWritten(st: FormState, startError: string -> Option<string>,
                                     it: CameraInterfaceType, device: string)
    requires !IsBlank(device) && !StartsWith(device, "(")
    ensures var s1 := AfterRunModeAsWritten(st, Real, DefaultCameraSettings(), startError);
      AddClickOutcome(s1, it, device) == NameTaken(SlotName(1)) &&
      AfterAddClick(s1, it, device).registered == s1.registered
  {
    var s1 := AfterRunModeAsWritten(st, Real, DefaultCameraSettings(), startError);
    RebuiltFields(st, Real, DefaultCameraSettings(), 0, startError);
    DefaultNamesAlarmInOwnGroup(Real, 0);
    FirstNameTaken(s1, it, device);
  }

  /** With the counter at 0 and Cam1 registered first, a click with a device is refused for its name. */
  lemma FirstNameTaken(s1: FormState, it: CameraInterfaceType, device: string)
    requires s1.currentMode == Real && s1.realCamCount == 0
    requires |s1.registered| > 0 && s1.registered[0].name == SlotName(1)
    requires !IsBlank(device) && !StartsWith(device, "(")
    ensures AddClickOutcome(s1, it, device) == NameTaken(SlotName(1))
    ensures AfterAddClick(s1, it, device).registered == s1.registered
  {
    ClickFields(s1, it, device);
    assert RegisteredNames(s1.registered)[0] == SlotName(1);
  }

  /**
   * With the counter restarting at the number of cameras the Real-mode
   * rebuild registered, every later click stops at the cap of six: no
   * click can build a name that is already taken.
   */
  lemma {:induction false} RealRebuildRefusesClicks(st: FormState, settings: CameraSettings,
                                                   startError: string -> Option<string>,
                                                   inputs: seq<(CameraInterfaceType, string)>)
    requires |settings| == SLOT_COUNT
    ensures var s1 := AfterRunMode(st, Real, settings, startError);
      NamesAhead(s1) && Clicks(s1, inputs) == s1
    decreases |inputs|
  {
    RebuiltFields(st, Real, settings, |settings|, startError);
    if inputs != [] {
      RealRebuildRefusesClicks(st, settings, startError, inputs[..|inputs| - 1]);
    }
  }

  /** While no registered name lies ahead of the counter, a click is never refused for its name, and that stays so. */
  lemma ClickKeepsNamesAhead(st: FormState, it: CameraInterfaceType, device: string)
    requires NamesAhead(st)
    ensures !AddClickOutcome(st, it, device).NameTaken?
    ensures NamesAhead(AfterAddClick(st, it, device))
  {
    var s2 := AfterAddClick(st, it, device);
    ClickFields(st, it, device);
    if AddClickOutcome(st, it, device).Added? {
      var c := s2.realCamCount;
      var before, after := RegisteredNames(st.registered), RegisteredNames(s2.registered);
      assert after == before + [SlotName(c)];
      forall n | c < n <= MAX_REAL_CAMERAS ensures !HasFolded(after, SlotName(n)) {
        SlotNamesApart(c, n);
      }
    }
  }

  // ---------------------------------------------------------------------
  // The form
  // ---------------------------------------------------------------------

  class MainForm {
    var viewToCamera: seq<Option<string>>
    var cameraNameToWindow: map<string, nat>
    /** The mapping last written to view_mapping.json by this form (None: none written). */
    var savedMapping: Option<ViewMappingSettings>
    var cameraOnlineUi: map<string, bool>
    var group1Offline: set<string>
    var group2Offline: set<string>
    /** Every value written to the alarm registers, oldest first. */
    var alarmWrites: seq<AlarmWrite>
    var badges: seq<Badge>
    var lastFrameTick: seq<int>
    var realCamCount: nat
    /** The cameras handed to the vision controller since it was last cleared. */
    var registered: seq<Registration>
    var currentMode: RunMode
    var productionLocked: bool

    function Snapshot(): FormState
      reads this
    {
      FormState(viewToCamera, cameraNameToWindow, savedMapping, cameraOnlineUi, group1Offline,
                group2Offline, alarmWrites, badges, lastFrameTick, realCamCount, registered,
                currentMode, productionLocked)
    }

    constructor()
      ensures Snapshot() == FormState([], map[], None, map[], {}, {}, [],
                                      seq(SLOT_COUNT, _ => UNMAPPED_BADGE), seq(SLOT_COUNT, _ => 0),
                                      0, [], Mock, false)
      ensures WellFormed(Snapshot())
    {
      viewToCamera := [];
      cameraNameToWindow := map[];
      savedMapping := None;
      cameraOnlineUi := map[];
      group1Offline := {};
      group2Offline := {};
      alarmWrites := [];
      badges := seq(SLOT_COUNT, _ => UNMAPPED_BADGE);
      lastFrameTick := seq(SLOT_COUNT, _ => 0);
      realCamCount := 0;
      registered := [];
      currentMode := Mock;
      productionLocked := false;
    }

    /**
     * `loaded` is what ViewMappingStore.Load returned, or the default
     * mapping when it returned null or threw.
     */
    method LoadAndApplyViewMapping(loaded: ViewMappingSettings, saveOk: bool)
      modifies this
      ensures Snapshot() == AfterLoadMapping(old(Snapshot()), loaded, saveOk)
    {
      var ordered, changed := HealViewMapping(loaded, ViewKey);
      viewToCamera := ordered;
      cameraNameToWindow := BuildRouting(ordered, ViewKey);
      if changed && saveOk {
        savedMapping := Some(ordered);
      }
    }

    /** TryResolveViewIndexForCamera. */
    method TryResolveViewIndexForCamera(name: string) returns (r: Option<nat>)
      ensures r == ViewIndexOf(viewToCamera, name)
    {
      if IsBlank(name) {
        return None;
      }
      var i := 0;
      while i < |viewToCamera|
        invariant 0 <= i <= |viewToCamera|
        invariant FirstShowing(viewToCamera, name, 0) == FirstShowing(viewToCamera, name, i)
      {
        if ShowsCamera(viewToCamera[i], name) {
          return Some(i + 1);
        }
        i := i + 1;
      }
      return None;
    }

    /** TryGetViewIndexByCameraName: the same search, with 0 for "no view". */
    method TryGetViewIndexByCameraName(name: string) returns (v: nat)
      ensures v == ViewIndexOf(viewToCamera, name).GetOr(0)
    {
      var r := TryResolveViewIndexForCamera(name);
      v := if r.Some? then r.value else 0;
    }

    method OnCameraOnlineChanged(name: string, online: bool)
      modifies this
      ensures Snapshot() == AfterOnlineChanged(old(Snapshot()), OnlineReport(name, online))
    {
      var k := Fold(name);
      cameraOnlineUi := cameraOnlineUi[k := online];
      if ResolveGroup(name) == Group1 {
        if !online { group1Offline := group1Offline + {k}; } else { group1Offline := group1Offline - {k}; }
        alarmWrites := alarmWrites + [AlarmWrite(Group1, group1Offline != {})];
      } else {
        if !online { group2Offline := group2Offline + {k}; } else { group2Offline := group2Offline - {k}; }
        alarmWrites := alarmWrites + [AlarmWrite(Group2, group2Offline != {})];
      }
    }

    method MarkFrameForCamera(name: string, now: int)
      modifies this
      ensures Snapshot() == AfterMarkFrame(old(Snapshot()), name, now)
    {
      var v := TryGetViewIndexByCameraName(name);
      if v <= 0 || v > |badges| || v > |lastFrameTick| {
        return;
      }
      badges := badges[v - 1 := Badge(true, true)];
      lastFrameTick := lastFrameTick[v - 1 := now];
    }

    method UpdateBadgesByTimeout(now: int)
      requires WellFormed(Snapshot())
      modifies this
      ensures Snapshot() == AfterTimeout(old(Snapshot()), now)
    {
      var i := 0;
      var newBadges: seq<Badge> := [];
      var newTicks: seq<int> := [];
      while i < SLOT_COUNT
        invariant 0 <= i <= SLOT_COUNT && |newBadges| == i && |newTicks| == i
        invariant forall j :: 0 <= j < i ==> newBadges[j] == BadgeAfterTimeout(viewToCamera, j + 1, lastFrameTick[j], now)
        invariant forall j :: 0 <= j < i ==> newTicks[j] == TickAfterTimeout(viewToCamera, j + 1, lastFrameTick[j])
      {
        if !IsViewMapped(viewToCamera, i + 1) {
          newBadges := newBadges + [UNMAPPED_BADGE];
          newTicks := newTicks + [0];
        } else {
          var last := lastFrameTick[i];
          newBadges := newBadges + [Badge(true, last > 0 && now - last <= FRAME_TIMEOUT_MS)];
          newTicks := newTicks + [last];
        }
        i := i + 1;
      }
      badges := newBadges;
      lastFrameTick := newTicks;
    }

    /**
     * ApplyRunMode, with the outcome of each camera's Open and Start given
     * by `startError`. The counter restarts at 0 whatever the mode.
     */
    method ApplyRunMode(mode: RunMode, settings: CameraSettings, startError: string -> Option<string>)
      modifies this
      ensures Snapshot() == AfterRunModeAsWritten(old(Snapshot()), mode, settings, startError)
    {
      var plan := PlanCameras(mode, settings);
      Reset(mode, plan);
      Notify(RebuildReports(plan, startError));
    }

    /** The fields ApplyRunMode sets itself: offline sets emptied, counter at 0, the new cameras, mode and lock. */
    method Reset(mode: RunMode, plan: seq<Registration>)
      modifies this
      ensures Snapshot() == old(Snapshot()).(group1Offline := {}, group2Offline := {}, realCamCount := 0,
                                             registered := plan, currentMode := mode,
                                             productionLocked := mode == Real)
    {
      group1Offline, group2Offline, realCamCount := {}, {}, 0;
      registered, currentMode, productionLocked := plan, mode, mode == Real;
    }

    /** The alarm handler run on each notification the registry raises, in order. */
    method Notify(reports: seq<OnlineReport>)
      modifies this
      ensures Snapshot() == Replay(old(Snapshot()), reports)
    {
      var i := 0;
      while i < |reports|
        invariant 0 <= i <= |reports|
        invariant Snapshot() == Replay(old(Snapshot()), reports[..i])
      {
        assert reports[..i + 1][..i] == reports[..i];
        OnCameraOnlineChanged(reports[i].camera, reports[i].online);
        i := i + 1;
      }
      assert reports[..i] == reports;
    }

    method AddCameraClicked(ifaceText: Option<string>, deviceText: string) returns (outcome: AddOutcome)
      modifies this
      ensures outcome == AddClickOutcome(old(Snapshot()), InterfaceChoice(ifaceText), Trim(deviceText))
      ensures Snapshot() == AfterAddClick(old(Snapshot()), InterfaceChoice(ifaceText), Trim(deviceText))
    {
      outcome := AddCamera(InterfaceChoice(ifaceText), Trim(deviceText));
    }

    /** The checks and the registration of btnAddCamera_Click, once the interface and device text are known. */
    method AddCamera(it: CameraInterfaceType, device: string) returns (outcome: AddOutcome)
      modifies this
      ensures outcome == AddClickOutcome(old(Snapshot()), it, device)
      ensures Snapshot() == AfterAddClick(old(Snapshot()), it, device)
    {
      ghost var st := Snapshot();
      if currentMode != Real {
        outcome := NotRealMode;
        ClickWithoutRegistration(st, it, device);
      } else if realCamCount >= MAX_REAL_CAMERAS {
        outcome := CapReached;
        ClickWithoutRegistration(st, it, device);
      } else if IsBlank(device) || StartsWith(device, "(") {
        outcome := NoDevice;
        ClickWithoutRegistration(st, it, device);
      } else {
        var n := realCamCount + 1;
        var name := SlotName(n);
        var taken := HasFolded(RegisteredNames(registered), name);
        if taken {
          assert AddClickOutcome(st, it, device) == NameTaken(name);
          realCamCount := n;
          outcome := NameTaken(name);
          ClickOfTakenName(st, it, device);
        } else {
          var cam := Registration(name, FramegrabberBackend, if n <= 3 then Group1 else Group2, it, device);
          assert AddClickOutcome(st, it, device) == Added(cam);
          Register(cam);
          outcome := Added(cam);
          ClickOfAddedCamera(st, it, device);
        }
      }
    }

    /** The counter moves on and `cam` goes to the vision controller, whose registry marks it offline. */
    method Register(cam: Registration)
      modifies this
      ensures Snapshot() == Replay(old(Snapshot()).(realCamCount := old(realCamCount) + 1,
                                                    registered := old(registered) + [cam]),
                                   [OnlineReport(cam.name, false)])
    {
      realCamCount := realCamCount + 1;
      registered := registered + [cam];
      Notify([OnlineReport(cam.name, false)]);
    }

    /** The slot loop of ApplyRunMode: one camera per slot, in slot order. */
    static method PlanCameras(mode: RunMode, settings: CameraSettings) returns (plan: seq<Registration>)
      ensures plan == RebuildPlan(mode, settings)
    {
      plan := [];
      var i := 0;
      while i < |settings|
        invariant 0 <= i <= |settings| && |plan| == i
        invariant forall j :: 0 <= j < i ==> plan[j] == SlotRegistration(mode, settings[j], j)
      {
        plan := plan + [SlotRegistration(mode, settings[i], i)];
        i := i + 1;
      }
    }

    /** The self-heal scan of LoadAndApplyViewMapping over views 1..6, in order. */
    static method HealViewMapping(views: seq<Option<string>>, key: Option<string> -> string)
      returns (ordered: seq<Option<string>>, changed: bool)
      ensures ordered == HealedViews(views, key)
      ensures changed <==> HasDuplicateView(views, key)
    {
      ghost var keys := ViewKeys(views, key);
      ordered := views;
      var seen: set<string> := {};
      changed := false;
      var i := 0;
      while i < |views|
        invariant 0 <= i <= |views| && |ordered| == |views|
        invariant forall k :: 0 <= k < i ==> ordered[k] == HealViewAt(views, k, key)
        invariant forall k :: i <= k < |views| ==> ordered[k] == views[k]
        invariant seen == SeenSet(keys[..i])
        invariant changed <==> exists j :: 0 <= j < i && RepeatAt(keys, j)
      {
        var cleared;
        ordered, seen, cleared := VisitView(ordered, i, seen, views, key);
        changed := changed || cleared;
        i := i + 1;
      }
      assert forall k :: 0 <= k < |views| ==> ordered[k] == HealedViews(views, key)[k];
    }

    /**
     * One step of the heal: a view without a key becomes null, a view
     * whose key was seen before becomes null and counts as a change, and
     * any other view's key is added to the seen set.
     */
    static method VisitView(ordered: seq<Option<string>>, i: int, seen: set<string>,
                            ghost views: seq<Option<string>>, key: Option<string> -> string)
      returns (ordered': seq<Option<string>>, seen': set<string>, cleared: bool)
      requires 0 <= i < |ordered| == |views| && ordered[i] == views[i]
      requires seen == SeenSet(ViewKeys(views, key)[..i])
      ensures |ordered'| == |ordered| && ordered'[i] == HealViewAt(views, i, key)
      ensures forall j :: 0 <= j < |ordered| && j != i ==> ordered'[j] == ordered[j]
      ensures seen' == SeenSet(ViewKeys(views, key)[..i + 1])
      ensures cleared <==> RepeatAt(ViewKeys(views, key), i)
    {
      ScanStep(ViewKeys(views, key), i, seen);
      var k := key(ordered[i]);
      ordered', seen', cleared := ordered, seen, false;
      if k == "" {
        ordered' := ordered[i := None];
      } else if k in seen {
        ordered' := ordered[i := None];
        cleared := true;
      } else {
        seen' := seen + {k};
      }
    }

    /** The routing rebuild of LoadAndApplyViewMapping, in view order. */
    static method BuildRouting(ordered: seq<Option<string>>, key: Option<string> -> string)
      returns (routing: map<string, nat>)
      ensures routing == RoutingOf(ordered, key)
    {
      routing := map[];
      var i := 0;
      while i < |ordered|
        invariant 0 <= i <= |ordered|
        invariant routing == RoutingOf(ordered[..i], key)
      {
        assert ordered[..i + 1][..i] == ordered[..i];
        var k := key(ordered[i]);
        if k != "" {
          routing := routing[k := i + 1];
        }
        i := i + 1;
      }
      assert ordered[..i] == ordered;
    }
  }
}
