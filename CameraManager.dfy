/**
 * The device registry: named cameras (unique under OrdinalIgnoreCase) in
 * registration order, two trigger groups, an online flag per camera that
 * only reports real changes, and the fan-out of start, stop and trigger
 * calls.
 *
 * The registry does not hold the device objects here: a camera is its
 * name, the calls it would make on a device are returned as the list of
 * names called in order, and the device's own events arrive through the
 * handler methods OnCameraImageArrived and OnCameraError. Whether a
 * device's Open/Start throws is the `startError` oracle.
 */
module Registry {
  import opened Wrappers
  import opened Text
  import opened Models

  /** The events the registry raises to its subscribers. */
  datatype RegistryEvent =
    | OnlineChanged(camera: string, online: bool)
    | FrameForwarded(camera: string)
    | ErrorForwarded(camera: string, message: string)

  /** Why AddCamera throws. */
  datatype AddError = NullCamera | DuplicateName(message: string)

  /**
   * The registry's fields: the cameras in registration order, the two
   * group lists, the online flags keyed by folded name, and every event
   * raised so far.
   */
  datatype RegistryState = RegistryState(
    cameras: seq<string>,
    group1: seq<string>,
    group2: seq<string>,
    online: map<string, bool>,
    events: seq<RegistryEvent>)

  const EMPTY: RegistryState := RegistryState([], [], [], map[], [])

  function Members(r: RegistryState, g: TriggerGroup): seq<string> {
    if g == Group1 then r.group1 else r.group2
  }

  predicate Registered(r: RegistryState, name: string) {
    HasFolded(r.cameras, name)
  }

  /**
   * `c` interleaves `g1` and `g2`: every camera sits in exactly one of the
   * two lists, and each list keeps registration order.
   */
  predicate Interleaves(c: seq<string>, g1: seq<string>, g2: seq<string>)
    decreases |c|
  {
    if c == [] then g1 == [] && g2 == []
    else
      var x := c[|c| - 1];
      (g1 != [] && g1[|g1| - 1] == x && Interleaves(c[..|c| - 1], g1[..|g1| - 1], g2))
      || (g2 != [] && g2[|g2| - 1] == x && Interleaves(c[..|c| - 1], g1, g2[..|g2| - 1]))
  }

  /** The registry invariant. */
  predicate Valid(r: RegistryState) {
    && DistinctFolded(r.cameras)
    && Interleaves(r.cameras, r.group1, r.group2)
    && forall i :: 0 <= i < |r.cameras| ==> Fold(r.cameras[i]) in r.online
  }

  // ---------------------------------------------------------------------
  // Transitions
  // ---------------------------------------------------------------------

  /** MarkOnline: store the flag and raise an event unless the stored flag already equals it. */
  function Marked(r: RegistryState, name: string, on: bool): RegistryState {
    if Fold(name) in r.online && r.online[Fold(name)] == on then r
    else r.(online := r.online[Fold(name) := on], events := r.events + [OnlineChanged(name, on)])
  }

  /** Why AddCamera would throw for `cam` (None for a null camera), or None when it succeeds. */
  function AddRejection(r: RegistryState, cam: Option<string>): Option<AddError> {
    match cam
    case None => Some(NullCamera)
    case Some(name) =>
      if Registered(r, name) then Some(DuplicateName("Camera name already exists: " + name)) else None
  }

  /** A successful AddCamera: appended to the cameras and to its group, then marked offline. */
  function Added(r: RegistryState, name: string, g: TriggerGroup): RegistryState {
    var r1 := if g == Group1 then r.(cameras := r.cameras + [name], group1 := r.group1 + [name])
              else r.(cameras := r.cameras + [name], group2 := r.group2 + [name]);
    Marked(r1, name, false)
  }

  /** A frame from a camera: online first, then forwarded. */
  function AfterFrame(r: RegistryState, name: string): RegistryState {
    var r1 := Marked(r, name, true);
    r1.(events := r1.events + [FrameForwarded(name)])
  }

  /** An error from a camera: offline first, then forwarded. */
  function AfterError(r: RegistryState, name: string, message: string): RegistryState {
    var r1 := Marked(r, name, false);
    r1.(events := r1.events + [ErrorForwarded(name, message)])
  }

  function StartFailedMessage(name: string, message: string): string {
    "[" + name + "] Start failed: " + message
  }

  /** One step of StartAll: online when Open and Start succeed, else offline plus one error. */
  function StartOne(r: RegistryState, name: string, startError: string -> Option<string>): RegistryState {
    match startError(name)
    case None => Marked(r, name, true)
    case Some(msg) =>
      var r1 := Marked(r, name, false);
      r1.(events := r1.events + [ErrorForwarded(name, StartFailedMessage(name, msg))])
  }

  /** StartAll over `names`, one camera after the other. */
  function StartSeq(r: RegistryState, names: seq<string>, startError: string -> Option<string>): RegistryState
    decreases |names|
  {
    if names == [] then r
    else StartOne(StartSeq(r, names[..|names| - 1], startError), names[|names| - 1], startError)
  }

  /** The names of `list` that are registered in `cameras`, in list order. */
  function RegisteredOnly(cameras: seq<string>, list: seq<string>): (s: seq<string>)
    ensures forall x :: x in s ==> x in list && HasFolded(cameras, x)
    decreases |list|
  {
    if list == [] then []
    else
      var rest := RegisteredOnly(cameras, list[..|list| - 1]);
      var x := list[|list| - 1];
      if HasFolded(cameras, x) then rest + [x] else rest
  }

  /** Clear: no cameras, empty groups, no online flags; raised events stay raised. */
  function Cleared(r: RegistryState): RegistryState {
    r.(cameras := [], group1 := [], group2 := [], online := map[])
  }

  // ---------------------------------------------------------------------
  // Properties
  // ---------------------------------------------------------------------

  /**
   * MarkOnline stores the flag, and raises exactly one OnlineChanged event
   * exactly when no flag was stored or the stored one differed.
   */
  lemma MarkedRaisesOnlyOnChange(r: RegistryState, name: string, on: bool)
    ensures Marked(r, name, on).online == r.online[Fold(name) := on]
    ensures var changed := !(Fold(name) in r.online && r.online[Fold(name)] == on);
      Marked(r, name, on).events == r.events + (if changed then [OnlineChanged(name, on)] else [])
    ensures Marked(Marked(r, name, on), name, on) == Marked(r, name, on)
    ensures Marked(r, name, on).cameras == r.cameras
    ensures Marked(r, name, on).group1 == r.group1 && Marked(r, name, on).group2 == r.group2
  {
    if Fold(name) in r.online && r.online[Fold(name)] == on {
      assert r.online[Fold(name) := on] == r.online;
    }
  }

  /** A null camera or an already registered name (in any case) is refused. */
  lemma AddRejectsDuplicates(r: RegistryState, cam: Option<string>)
    ensures AddRejection(r, cam).None? <==> cam.Some? && !Registered(r, cam.value)
    ensures cam.None? ==> AddRejection(r, cam) == Some(NullCamera)
  {
  }

  lemma {:induction false} InterleavesMembership(c: seq<string>, g1: seq<string>, g2: seq<string>)
    requires Interleaves(c, g1, g2)
    ensures |c| == |g1| + |g2|
    ensures forall x :: x in c <==> x in g1 || x in g2
    decreases |c|
  {
    if c != [] {
      var c', x := c[..|c| - 1], c[|c| - 1];
      assert c == c' + [x];
      if g1 != [] && g1[|g1| - 1] == x && Interleaves(c', g1[..|g1| - 1], g2) {
        InterleavesMembership(c', g1[..|g1| - 1], g2);
        assert g1 == g1[..|g1| - 1] + [x];
      } else {
        InterleavesMembership(c', g1, g2[..|g2| - 1]);
        assert g2 == g2[..|g2| - 1] + [x];
      }
    }
  }

  /** A list with distinct fold keys stays so without its last name, which it does not repeat. */
  lemma DistinctPrefix(c: seq<string>)
    requires |c| > 0 && DistinctFolded(c)
    ensures DistinctFolded(c[..|c| - 1]) && c[|c| - 1] !in c[..|c| - 1]
  {
  }

  /** In an interleaving of distinct names, no name is in both groups. */
  lemma {:induction false} InterleavesDisjoint(c: seq<string>, g1: seq<string>, g2: seq<string>)
    requires Interleaves(c, g1, g2) && DistinctFolded(c)
    ensures forall x :: !(x in g1 && x in g2)
    decreases |c|
  {
    if c != [] {
      var c', x := c[..|c| - 1], c[|c| - 1];
      DistinctPrefix(c);
      if g1 != [] && g1[|g1| - 1] == x && Interleaves(c', g1[..|g1| - 1], g2) {
        var g1' := g1[..|g1| - 1];
        InterleavesDisjoint(c', g1', g2);
        InterleavesMembership(c', g1', g2);
        assert g1 == g1' + [x];
      } else {
        var g2' := g2[..|g2| - 1];
        InterleavesDisjoint(c', g1, g2');
        InterleavesMembership(c', g1, g2');
        assert g2 == g2' + [x];
      }
    }
  }

  /**
   * Under the invariant, the group lists hold exactly the registered
   * cameras, each in exactly one group.
   */
  lemma ExactlyOneGroup(r: RegistryState)
    requires Valid(r)
    ensures forall x :: x in r.cameras <==> x in r.group1 || x in r.group2
    ensures forall x :: !(x in r.group1 && x in r.group2)
  {
    InterleavesMembership(r.cameras, r.group1, r.group2);
    InterleavesDisjoint(r.cameras, r.group1, r.group2);
  }

  lemma MarkedKeepsValid(r: RegistryState, name: string, on: bool)
    requires Valid(r)
    ensures Valid(Marked(r, name, on))
  {
  }

  /**
   * A successful AddCamera keeps the invariant, appends the name to exactly
   * the chosen group, leaves the other group alone, and leaves the camera
   * offline.
   */
  lemma AddedKeepsValid(r: RegistryState, name: string, g: TriggerGroup)
    requires Valid(r) && AddRejection(r, Some(name)).None?
    ensures var w := Added(r, name, g);
      && Valid(w)
      && w.cameras == r.cameras + [name]
      && Members(w, g) == Members(r, g) + [name]
      && Members(w, if g == Group1 then Group2 else Group1) == Members(r, if g == Group1 then Group2 else Group1)
      && w.online[Fold(name)] == false
      && Registered(w, name)
  {
    var w := Added(r, name, g);
    var c := r.cameras + [name];
    assert c[..|c| - 1] == r.cameras;
    if g == Group1 {
      var g1 := r.group1 + [name];
      assert g1[..|g1| - 1] == r.group1;
    } else {
      var g2 := r.group2 + [name];
      assert g2[..|g2| - 1] == r.group2;
    }
    assert DistinctFolded(c) by {
      forall i, j | 0 <= i < j < |c| ensures Fold(c[i]) != Fold(c[j]) {
        if j == |r.cameras| {
          assert c[i] == r.cameras[i];
        }
      }
    }
    assert w.cameras[|r.cameras|] == name;
  }

  /** A frame marks its camera online before it is forwarded, exactly once. */
  lemma FrameForwardedOnce(r: RegistryState, name: string)
    ensures var w := AfterFrame(r, name);
      && w.online[Fold(name)] == true
      && w.events[|w.events| - 1] == FrameForwarded(name)
      && w.events[..|w.events| - 1] == Marked(r, name, true).events
  {
    MarkedRaisesOnlyOnChange(r, name, true);
  }

  /** An error marks its camera offline before it is forwarded, exactly once. */
  lemma ErrorForwardedOnce(r: RegistryState, name: string, message: string)
    ensures var w := AfterError(r, name, message);
      && w.online[Fold(name)] == false
      && w.events[|w.events| - 1] == ErrorForwarded(name, message)
      && w.events[..|w.events| - 1] == Marked(r, name, false).events
  {
    MarkedRaisesOnlyOnChange(r, name, false);
  }

  /** StartAll leaves the cameras and groups alone and keeps the invariant. */
  lemma {:induction false} StartSeqKeepsRegistry(r: RegistryState, names: seq<string>, startError: string -> Option<string>)
    requires Valid(r)
    ensures var w := StartSeq(r, names, startError);
      Valid(w) && w.cameras == r.cameras && w.group1 == r.group1 && w.group2 == r.group2
    decreases |names|
  {
    if names != [] {
      StartSeqKeepsRegistry(r, names[..|names| - 1], startError);
    }
  }

  /**
   * After StartAll over distinct names, each one is online exactly when its
   * Open and Start succeeded: a failure of one camera does not stop the
   * others from being started.
   */
  lemma {:induction false} StartSeqOnline(r: RegistryState, names: seq<string>, startError: string -> Option<string>)
    requires DistinctFolded(names)
    ensures forall i :: 0 <= i < |names| ==>
      Fold(names[i]) in StartSeq(r, names, startError).online
      && StartSeq(r, names, startError).online[Fold(names[i])] == startError(names[i]).None?
    decreases |names|
  {
    if names != [] {
      var init, last := names[..|names| - 1], names[|names| - 1];
      assert DistinctFolded(init);
      StartSeqOnline(r, init, startError);
      var before := StartSeq(r, init, startError);
      MarkedRaisesOnlyOnChange(before, last, startError(last).None?);
      forall i | 0 <= i < |names|
        ensures Fold(names[i]) in StartSeq(r, names, startError).online
        ensures StartSeq(r, names, startError).online[Fold(names[i])] == startError(names[i]).None?
      {
        if i < |init| {
          assert names[i] == init[i];
          assert Fold(names[i]) != Fold(last);
        }
      }
    }
  }

  /** The number of ErrorForwarded events in `events`. */
  function ErrorCount(events: seq<RegistryEvent>): nat
    decreases |events|
  {
    if events == [] then 0
    else ErrorCount(events[..|events| - 1]) + (if events[|events| - 1].ErrorForwarded? then 1 else 0)
  }

  /** The number of names in `names` whose Open or Start throws. */
  function FailureCount(names: seq<string>, startError: string -> Option<string>): nat
    decreases |names|
  {
    if names == [] then 0
    else FailureCount(names[..|names| - 1], startError) + (if startError(names[|names| - 1]).Some? then 1 else 0)
  }

  lemma {:induction false} ErrorCountAppend(a: seq<RegistryEvent>, b: seq<RegistryEvent>)
    ensures ErrorCount(a + b) == ErrorCount(a) + ErrorCount(b)
    decreases |b|
  {
    if b != [] {
      var b' := b[..|b| - 1];
      ErrorCountAppend(a, b');
      assert (a + b)[..|a + b| - 1] == a + b';
    } else {
      assert a + b == a;
    }
  }

  /** StartAll raises exactly one error event per camera that failed to start. */
  lemma {:induction false} StartSeqErrors(r: RegistryState, names: seq<string>, startError: string -> Option<string>)
    ensures var w := StartSeq(r, names, startError);
      |w.events| >= |r.events| && w.events[..|r.events|] == r.events
      && ErrorCount(w.events) == ErrorCount(r.events) + FailureCount(names, startError)
    decreases |names|
  {
    if names != [] {
      var init, last := names[..|names| - 1], names[|names| - 1];
      StartSeqErrors(r, init, startError);
      var before := StartSeq(r, init, startError);
      MarkedRaisesOnlyOnChange(before, last, startError(last).None?);
      var m := Marked(before, last, startError(last).None?);
      var added := m.events[|before.events|..];
      assert m.events == before.events + added;
      assert ErrorCount(added) == 0 by {
        if added != [] {
          assert added == [OnlineChanged(last, startError(last).None?)];
          assert added[..0] == [];
        }
      }
      ErrorCountAppend(before.events, added);
      var w := StartSeq(r, names, startError);
      if startError(last).Some? {
        var e := ErrorForwarded(last, StartFailedMessage(last, startError(last).value));
        assert w.events == m.events + [e];
        ErrorCountAppend(m.events, [e]);
        assert [e][..0] == [];
      }
      assert w.events[..|before.events|] == before.events;
      assert before.events[..|r.events|] == r.events;
    }
  }

  /**
   * Under the invariant every name of a group list is registered, so a
   * group trigger calls exactly the group's cameras, in their registration
   * order, and none of the other group's.
   */
  lemma {:induction false} GroupTriggerIsGroup(r: RegistryState, g: TriggerGroup)
    requires Valid(r)
    ensures RegisteredOnly(r.cameras, Members(r, g)) == Members(r, g)
    ensures forall x :: x in Members(r, g) ==> x !in Members(r, if g == Group1 then Group2 else Group1)
  {
    ExactlyOneGroup(r);
    AllRegisteredKept(r.cameras, Members(r, g));
  }

  lemma {:induction false} AllRegisteredKept(cameras: seq<string>, list: seq<string>)
    requires forall x :: x in list ==> x in cameras
    ensures RegisteredOnly(cameras, list) == list
    decreases |list|
  {
    if list != [] {
      var x := list[|list| - 1];
      AllRegisteredKept(cameras, list[..|list| - 1]);
      assert x in list;
      var k :| 0 <= k < |cameras| && cameras[k] == x;
      assert HasFolded(cameras, x);
      assert list == list[..|list| - 1] + [x];
    }
  }

  /** Clear empties cameras, both groups and the online flags, and keeps the invariant. */
  lemma ClearedIsEmpty(r: RegistryState)
    ensures var w := Cleared(r);
      Valid(w) && w.cameras == [] && w.group1 == [] && w.group2 == [] && w.online == map[]
      && forall name :: !Registered(w, name)
  {
  }

  // ---------------------------------------------------------------------
  // The registry
  // ---------------------------------------------------------------------

  class CameraManager {
    var cameras: seq<string>
    var group1: seq<string>
    var group2: seq<string>
    /** Online flags keyed by Fold(name), the OrdinalIgnoreCase dictionary. */
    var online: map<string, bool>
    /** Every event raised so far, oldest first. */
    var events: seq<RegistryEvent>

    function Snapshot(): RegistryState
      reads this
    {
      RegistryState(cameras, group1, group2, online, events)
    }

    constructor()
      ensures Snapshot() == EMPTY && Valid(Snapshot())
    {
      cameras, group1, group2 := [], [], [];
      online, events := map[], [];
    }

    /** CameraNames: the registered names, in registration order. */
    function CameraNames(): (names: seq<string>)
      reads this
      ensures Valid(Snapshot()) ==> DistinctFolded(names)
      ensures forall x :: x in names <==> x in cameras
    {
      cameras
    }

    /** TryGetCamera: the registered name equal to `name` ignoring case, if any. */
    method TryGetCamera(name: string) returns (found: Option<string>)
      requires Valid(Snapshot())
      ensures found.Some? <==> Registered(Snapshot(), name)
      ensures found.Some? ==> found.value in cameras && Fold(found.value) == Fold(name)
    {
      found := None;
      var i := 0;
      while i < |cameras|
        invariant 0 <= i <= |cameras|
        invariant found.None? ==> forall k :: 0 <= k < i ==> Fold(cameras[k]) != Fold(name)
        invariant found.Some? ==> found.value in cameras && Fold(found.value) == Fold(name)
      {
        if found.None? && Fold(cameras[i]) == Fold(name) {
          found := Some(cameras[i]);
        }
        i := i + 1;
      }
    }

    method AddCamera(cam: Option<string>, g: TriggerGroup) returns (error: Option<AddError>)
      modifies this
      ensures error == AddRejection(old(Snapshot()), cam)
      ensures error.Some? ==> Snapshot() == old(Snapshot())
      ensures error.None? ==> Snapshot() == Added(old(Snapshot()), cam.value, g)
    {
      if cam.None? {
        return Some(NullCamera);
      }
      var name := cam.value;
      var existing := FindFolded(cameras, name);
      if existing {
        return Some(DuplicateName("Camera name already exists: " + name));
      }
      cameras := cameras + [name];
      if g == Group1 {
        group1 := group1 + [name];
      } else {
        group2 := group2 + [name];
      }
      MarkOnline(name, false);
      return None;
    }

    method OnCameraImageArrived(name: string)
      modifies this
      ensures Snapshot() == AfterFrame(old(Snapshot()), name)
    {
      MarkOnline(name, true);
      events := events + [FrameForwarded(name)];
    }

    method OnCameraError(name: string, message: string)
      modifies this
      ensures Snapshot() == AfterError(old(Snapshot()), name, message)
    {
      MarkOnline(name, false);
      events := events + [ErrorForwarded(name, message)];
    }

    method MarkOnline(name: string, on: bool)
      modifies this
      ensures Snapshot() == Marked(old(Snapshot()), name, on)
    {
      var key := Fold(name);
      if key in online && online[key] == on {
        return;
      }
      online := online[key := on];
      events := events + [OnlineChanged(name, on)];
    }

    /** Opens and starts every camera in registration order; returns the names called. */
    method StartAll(startError: string -> Option<string>) returns (called: seq<string>)
      modifies this
      ensures called == old(cameras)
      ensures Snapshot() == StartSeq(old(Snapshot()), old(cameras), startError)
    {
      var cams := cameras;
      called := [];
      var i := 0;
      while i < |cams|
        invariant 0 <= i <= |cams|
        invariant called == cams[..i]
        invariant Snapshot() == StartSeq(old(Snapshot()), cams[..i], startError)
      {
        var name := cams[i];
        assert cams[..i + 1][..i] == cams[..i];
        called := called + [name];
        var failure := startError(name);
        if failure.None? {
          MarkOnline(name, true);
        } else {
          MarkOnline(name, false);
          events := events + [ErrorForwarded(name, StartFailedMessage(name, failure.value))];
        }
        i := i + 1;
      }
      assert cams[..i] == cams;
    }

    /** Stops every camera in registration order, swallowing failures; returns the names called. */
    method StopAll() returns (called: seq<string>)
      ensures called == cameras
    {
      called := CallEach(cameras);
    }

    /** Triggers every camera in registration order; returns the names called. */
    method TriggerAll() returns (called: seq<string>)
      ensures called == cameras
    {
      called := CallEach(cameras);
    }

    /** Triggers the registered cameras of group `g`, in list order; returns the names called. */
    method TriggerGroupCapture(g: TriggerGroup) returns (called: seq<string>)
      ensures called == RegisteredOnly(cameras, Members(Snapshot(), g))
    {
      var list := if g == Group1 then group1 else group2;
      called := [];
      var i := 0;
      while i < |list|
        invariant 0 <= i <= |list|
        invariant called == RegisteredOnly(cameras, list[..i])
      {
        assert list[..i + 1][..i] == list[..i];
        var registered := FindFolded(cameras, list[i]);
        if registered {
          called := called + [list[i]];
        }
        i := i + 1;
      }
      assert list[..i] == list;
    }

    /** Stops and disposes every camera, then empties the registry; returns the names disposed. */
    method Clear() returns (disposed: seq<string>)
      modifies this
      ensures disposed == old(cameras)
      ensures Snapshot() == Cleared(old(Snapshot()))
    {
      disposed := CallEach(cameras);
      cameras := [];
      group1, group2 := [], [];
      online := map[];
    }
  }

  /** A foreach over `names` calling each one: the names called, in order. */
  method CallEach(names: seq<string>) returns (called: seq<string>)
    ensures called == names
  {
    called := [];
    var i := 0;
    while i < |names|
      invariant 0 <= i <= |names|
      invariant called == names[..i]
    {
      called := called + [names[i]];
      i := i + 1;
    }
    assert names[..i] == names;
  }

  /** A lookup in an OrdinalIgnoreCase dictionary's keys. */
  method FindFolded(keys: seq<string>, name: string) returns (found: bool)
    ensures found == HasFolded(keys, name)
  {
    found := false;
    var i := 0;
    while i < |keys|
      invariant 0 <= i <= |keys|
      invariant found == HasFolded(keys[..i], name)
    {
      assert keys[..i + 1] == keys[..i] + [keys[i]];
      if Fold(keys[i]) == Fold(name) {
        found := true;
      }
      i := i + 1;
    }
    assert keys[..i] == keys;
  }
}
