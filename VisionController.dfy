/**
 * The status aggregator in front of the registry: a frame counter per
 * camera over a one-second window, an online-status map, and the
 * re-raising of the registry's events to the shell.
 *
 * The registry's events reach the aggregator synchronously, in the order
 * the registry raised them; each operation here makes its registry call
 * and then reacts to the events that call raised. Time is the `now`
 * parameter in milliseconds; a Stopwatch is the time its window started.
 */
module Aggregator {
  import opened Wrappers
  import opened Text
  import opened Models
  import opened Registry

  /** The length of the frame-counting window, in milliseconds. */
  const WINDOW_MS: int := 1000

  /** The events the aggregator raises to the shell. */
  datatype ControllerEvent =
    | ImageReady(camera: string)
    | ErrorRaised(camera: string, message: string)
    | OnlineRaised(camera: string, online: bool)

  /**
   * The aggregator's own fields, keyed by folded camera name: frames
   * counted in the current window, the time each window started, the
   * online status, and every event raised so far.
   */
  datatype ControllerState = ControllerState(
    frameCount: map<string, int>,
    windowStart: map<string, int>,
    status: map<string, bool>,
    events: seq<ControllerEvent>)

  const INITIAL: ControllerState := ControllerState(map[], map[], map[], [])

  /**
   * ProcessImage: count the frame; once the window has lasted a second,
   * restart it with the count back at zero; re-raise the frame. A camera
   * that was never added has no counter, and its frame is dropped.
   */
  function Processed(v: ControllerState, name: string, now: int): ControllerState {
    var k := Fold(name);
    if k !in v.frameCount then v
    else
      var start := if k in v.windowStart then v.windowStart[k] else now;
      if now - start >= WINDOW_MS then
        v.(frameCount := v.frameCount[k := 0], windowStart := v.windowStart[k := now],
           events := v.events + [ImageReady(name)])
      else
        v.(frameCount := v.frameCount[k := v.frameCount[k] + 1], windowStart := v.windowStart[k := start],
           events := v.events + [ImageReady(name)])
  }

  /** The aggregator's reaction to one registry event. */
  function React(v: ControllerState, e: RegistryEvent, now: int): ControllerState {
    match e
    case OnlineChanged(n, on) => v.(status := v.status[Fold(n) := on], events := v.events + [OnlineRaised(n, on)])
    case ErrorForwarded(n, msg) => v.(status := v.status[Fold(n) := false], events := v.events + [ErrorRaised(n, msg)])
    case FrameForwarded(n) => Processed(v, n, now)
  }

  /** The reactions to `es`, in order. */
  function ReactAll(v: ControllerState, es: seq<RegistryEvent>, now: int): ControllerState
    decreases |es|
  {
    if es == [] then v else React(ReactAll(v, es[..|es| - 1], now), es[|es| - 1], now)
  }

  /** The counters AddCamera sets up for a new camera. */
  function WithCounters(v: ControllerState, name: string, now: int): ControllerState {
    var k := Fold(name);
    v.(frameCount := v.frameCount[k := 0], windowStart := v.windowStart[k := now], status := v.status[k := false])
  }

  /** Every registered camera has a counter. */
  predicate Tracks(v: ControllerState, r: RegistryState) {
    forall i :: 0 <= i < |r.cameras| ==> Fold(r.cameras[i]) in v.frameCount
  }

  // ---------------------------------------------------------------------
  // Properties
  // ---------------------------------------------------------------------

  /**
   * A frame of a counted camera is re-raised exactly once, and its count
   * goes up by one, or back to zero with a fresh window once the window
   * has lasted a second.
   */
  lemma ProcessedCounts(v: ControllerState, name: string, now: int)
    requires Fold(name) in v.frameCount
    ensures var w := Processed(v, name, now); var k := Fold(name);
      var start := if k in v.windowStart then v.windowStart[k] else now;
      && w.events == v.events + [ImageReady(name)]
      && (now - start >= WINDOW_MS ==> w.frameCount[k] == 0 && w.windowStart[k] == now)
      && (now - start < WINDOW_MS ==> w.frameCount[k] == v.frameCount[k] + 1 && w.windowStart[k] == start)
      && w.status == v.status
      && forall j :: j in v.frameCount && j != k ==> j in w.frameCount && w.frameCount[j] == v.frameCount[j]
  {
  }

  /** Frames at `times`: one ProcessImage after the other. */
  function FramesAt(v: ControllerState, name: string, times: seq<int>): ControllerState
    decreases |times|
  {
    if times == [] then v else Processed(FramesAt(v, name, times[..|times| - 1]), name, times[|times| - 1])
  }

  /**
   * Frames that all arrive within a second of the window's start add one
   * each to the count, and each is re-raised.
   */
  lemma {:induction false} FramesWithinWindow(v: ControllerState, name: string, times: seq<int>)
    requires Fold(name) in v.frameCount && Fold(name) in v.windowStart
    requires forall i :: 0 <= i < |times| ==> times[i] - v.windowStart[Fold(name)] < WINDOW_MS
    ensures var w := FramesAt(v, name, times); var k := Fold(name);
      && k in w.frameCount && k in w.windowStart
      && w.frameCount[k] == v.frameCount[k] + |times|
      && w.windowStart[k] == v.windowStart[k]
      && |w.events| == |v.events| + |times|
      && forall i :: |v.events| <= i < |w.events| ==> w.events[i] == ImageReady(name)
    decreases |times|
  {
    if times != [] {
      var init := times[..|times| - 1];
      FramesWithinWindow(v, name, init);
      var u := FramesAt(v, name, init);
      ProcessedCounts(u, name, times[|times| - 1]);
    }
  }

  /** An online change stores the new flag and forwards it; an error stores false and forwards it. */
  lemma ReactToStatus(v: ControllerState, e: RegistryEvent, now: int)
    ensures e.OnlineChanged? ==>
      React(v, e, now).status[Fold(e.camera)] == e.online
      && React(v, e, now).events == v.events + [OnlineRaised(e.camera, e.online)]
    ensures e.ErrorForwarded? ==>
      React(v, e, now).status[Fold(e.camera)] == false
      && React(v, e, now).events == v.events + [ErrorRaised(e.camera, e.message)]
    ensures !e.FrameForwarded? ==> React(v, e, now).frameCount == v.frameCount
  {
  }

  /** Reactions never forget a counter. */
  lemma {:induction false} ReactAllKeepsCounters(v: ControllerState, es: seq<RegistryEvent>, now: int)
    ensures v.frameCount.Keys <= ReactAll(v, es, now).frameCount.Keys
    decreases |es|
  {
    if es != [] {
      ReactAllKeepsCounters(v, es[..|es| - 1], now);
    }
  }

  /** A camera freshly added has count 0 and is offline. */
  lemma NewCameraCounters(v: ControllerState, name: string, now: int)
    ensures var w := WithCounters(v, name, now);
      w.frameCount[Fold(name)] == 0 && w.status[Fold(name)] == false && w.windowStart[Fold(name)] == now
      && w.events == v.events
  {
  }

  /**
   * The reaction to a registered camera's frame with the registry's
   * invariant and counters for all its cameras re-raises it exactly once.
   */
  lemma FrameOfRegisteredCameraIsRaised(v: ControllerState, r: RegistryState, name: string, now: int)
    requires Tracks(v, r) && name in r.cameras
    ensures React(v, FrameForwarded(name), now).events == v.events + [ImageReady(name)]
  {
  }

  /**
   * Adding a camera through the aggregator keeps a counter for every
   * registered camera, whatever the registry raised on the way, so no
   * forwarded frame of a registered camera is dropped.
   */
  lemma AddKeepsTracking(v: ControllerState, r: RegistryState, name: string, g: TriggerGroup,
                         es: seq<RegistryEvent>, now: int)
    requires Tracks(v, r)
    ensures Tracks(WithCounters(ReactAll(v, es, now), name, now), Added(r, name, g))
  {
    ReactAllKeepsCounters(v, es, now);
    var r1 := if g == Group1 then r.(cameras := r.cameras + [name], group1 := r.group1 + [name])
              else r.(cameras := r.cameras + [name], group2 := r.group2 + [name]);
    MarkedRaisesOnlyOnChange(r1, name, false);
    var c := Added(r, name, g).cameras;
    assert c == r.cameras + [name];
    forall i | 0 <= i < |c| ensures Fold(c[i]) in WithCounters(ReactAll(v, es, now), name, now).frameCount {
      if i < |r.cameras| {
        assert c[i] == r.cameras[i];
      }
    }
  }

  // ---------------------------------------------------------------------
  // The aggregator
  // ---------------------------------------------------------------------

  class VisionController {
    const manager: CameraManager
    var frameCount: map<string, int>
    var windowStart: map<string, int>
    var status: map<string, bool>
    var events: seq<ControllerEvent>

    function Snapshot(): ControllerState
      reads this
    {
      ControllerState(frameCount, windowStart, status, events)
    }

    constructor()
      ensures Snapshot() == INITIAL
      ensures manager.Snapshot() == EMPTY && fresh(manager)
    {
      manager := new CameraManager();
      frameCount, windowStart, status, events := map[], map[], map[], [];
    }

    /** The reactions to the registry events `es`, one after the other. */
    method ReactTo(es: seq<RegistryEvent>, now: int)
      modifies this
      ensures Snapshot() == ReactAll(old(Snapshot()), es, now)
    {
      var i := 0;
      while i < |es|
        invariant 0 <= i <= |es|
        invariant Snapshot() == ReactAll(old(Snapshot()), es[..i], now)
      {
        assert es[..i + 1][..i] == es[..i];
        var e := es[i];
        if e.OnlineChanged? {
          status := status[Fold(e.camera) := e.online];
          events := events + [OnlineRaised(e.camera, e.online)];
        } else if e.ErrorForwarded? {
          status := status[Fold(e.camera) := false];
          events := events + [ErrorRaised(e.camera, e.message)];
        } else {
          ProcessImage(e.camera, now);
        }
        i := i + 1;
      }
      assert es[..i] == es;
    }

    method ProcessImage(name: string, now: int)
      modifies this
      ensures Snapshot() == Processed(old(Snapshot()), name, now)
    {
      var k := Fold(name);
      if k !in frameCount {
        return;
      }
      frameCount := frameCount[k := frameCount[k] + 1];
      var start := now;
      if k in windowStart {
        start := windowStart[k];
      } else {
        windowStart := windowStart[k := now];
      }
      if now - start >= WINDOW_MS {
        frameCount := frameCount[k := 0];
        windowStart := windowStart[k := now];
      } else {
        windowStart := windowStart[k := start];
      }
      events := events + [ImageReady(name)];
    }

    /**
     * The registry decides first, so a refused camera touches no counter;
     * an accepted one gets count 0, a fresh window and status offline.
     */
    method AddCamera(cam: Option<string>, g: TriggerGroup, now: int) returns (error: Option<AddError>)
      modifies this, manager
      ensures error == AddRejection(old(manager.Snapshot()), cam)
      ensures error.Some? ==> manager.Snapshot() == old(manager.Snapshot()) && Snapshot() == old(Snapshot())
      ensures error.None? ==> manager.Snapshot() == Added(old(manager.Snapshot()), cam.value, g)
      ensures |old(manager.events)| <= |manager.events|
      ensures error.None? ==> Snapshot() == WithCounters(
        ReactAll(old(Snapshot()), manager.events[|old(manager.events)|..], now), cam.value, now)
    {
      ghost var before := manager.Snapshot();
      var seen := |manager.events|;
      error := manager.AddCamera(cam, g);
      if error.Some? {
        return;
      }
      MarkedRaisesOnlyOnChange(before.(cameras := manager.cameras, group1 := manager.group1, group2 := manager.group2),
        cam.value, false);
      ReactTo(manager.events[seen..], now);
      var k := Fold(cam.value);
      frameCount := frameCount[k := 0];
      windowStart := windowStart[k := now];
      status := status[k := false];
    }

    /** A device's frame, through the registry's handler. */
    method OnDeviceFrame(name: string, now: int)
      modifies this, manager
      ensures manager.Snapshot() == AfterFrame(old(manager.Snapshot()), name)
      ensures |old(manager.events)| <= |manager.events|
      ensures Snapshot() == ReactAll(old(Snapshot()), manager.events[|old(manager.events)|..], now)
    {
      ghost var before := manager.Snapshot();
      var seen := |manager.events|;
      manager.OnCameraImageArrived(name);
      FrameForwardedOnce(before, name);
      MarkedRaisesOnlyOnChange(before, name, true);
      ReactTo(manager.events[seen..], now);
    }

    /** A device's error, through the registry's handler. */
    method OnDeviceError(name: string, message: string, now: int)
      modifies this, manager
      ensures manager.Snapshot() == AfterError(old(manager.Snapshot()), name, message)
      ensures |old(manager.events)| <= |manager.events|
      ensures Snapshot() == ReactAll(old(Snapshot()), manager.events[|old(manager.events)|..], now)
    {
      ghost var before := manager.Snapshot();
      var seen := |manager.events|;
      manager.OnCameraError(name, message);
      MarkedRaisesOnlyOnChange(before, name, false);
      ReactTo(manager.events[seen..], now);
    }

    method Start(startError: string -> Option<string>, now: int) returns (called: seq<string>)
      modifies this, manager
      ensures called == old(manager.cameras)
      ensures manager.Snapshot() == StartSeq(old(manager.Snapshot()), old(manager.cameras), startError)
      ensures |old(manager.events)| <= |manager.events|
      ensures Snapshot() == ReactAll(old(Snapshot()), manager.events[|old(manager.events)|..], now)
    {
      ghost var before := manager.Snapshot();
      var seen := |manager.events|;
      called := manager.StartAll(startError);
      StartSeqErrors(before, before.cameras, startError);
      ReactTo(manager.events[seen..], now);
    }

    /** Stop only delegates. */
    method Stop() returns (called: seq<string>)
      ensures called == manager.cameras
    {
      called := manager.StopAll();
    }

    /** Clear empties the registry but keeps the aggregator's own maps. */
    method Clear() returns (disposed: seq<string>)
      modifies manager
      ensures disposed == old(manager.cameras)
      ensures manager.Snapshot() == Cleared(old(manager.Snapshot()))
      ensures Snapshot() == old(Snapshot())
    {
      disposed := manager.Clear();
    }

    method TriggerOnceAll() returns (called: seq<string>)
      ensures called == manager.cameras
    {
      called := manager.TriggerAll();
    }

    method TriggerGroup(g: TriggerGroup) returns (called: seq<string>)
      ensures called == RegisteredOnly(manager.cameras, Members(manager.Snapshot(), g))
    {
      called := manager.TriggerGroupCapture(g);
    }

    /** Dispose: Stop, then Clear. */
    method Dispose() returns (stopped: seq<string>, disposed: seq<string>)
      modifies manager
      ensures stopped == old(manager.cameras) && disposed == old(manager.cameras)
      ensures manager.Snapshot() == Cleared(old(manager.Snapshot()))
      ensures Snapshot() == old(Snapshot())
    {
      stopped := Stop();
      disposed := Clear();
    }
  }
}
