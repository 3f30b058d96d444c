/**
 * The simulated camera: the same state contract as a real camera without
 * hardware, fault injection on trigger, and a store of four Consumer
 * parameters behind the parameter-access interface.
 *
 * The random fault draw is the `faultRoll` input of SoftwareTrigger and the
 * delayed recovery task is the separate `Recover` call. Frames carry no
 * pixels, so the grey level drawn from exposure and gain is not modelled.
 */
module Simulated {
  import opened Wrappers
  import opened Text
  import opened Models

  const EXPOSURE_AUTO: string := "Consumer|exposure_auto"
  const EXPOSURE: string := "Consumer|exposure"
  const GAIN_AUTO: string := "Consumer|gain_auto"
  const GAIN: string := "Consumer|gain"
  const AVAILABLE_EASYPARAM_NAMES: string := "available_easyparam_names"

  const FAULTED_MESSAGE: string := "MOCK: camera is faulted"
  const DISCONNECT_MESSAGE: string := "MOCK: simulated disconnect"
  const UNSUPPORTED: string := "Unsupported mock parameter"

  const DEFAULT_EXPOSURE: int := 8000
  const DEFAULT_GAIN: real := 1.0

  /** `new HTuple()`: the empty tuple a failed read returns. */
  const EMPTY_TUPLE: ParamValue := TupleValue([])

  // ---------------------------------------------------------------------
  // Coercions of the loosely typed parameter values
  // ---------------------------------------------------------------------

  /** The integer part of `r`, rounding toward zero (the C# (int) cast of a double). */
  function Truncate(r: real): int {
    if r >= 0.0 then r.Floor else -((-r).Floor)
  }

  /** `r` is a whole number that Int32 can hold, which is when its text parses as an int. */
  predicate IsInt32Real(r: real) {
    r == r.Floor as real && IsInt32(r.Floor)
  }

  /** The text `ToString()` gives for a bool. */
  function BoolText(b: bool): string {
    if b then "True" else "False"
  }

  /**
   * The mock's ToBool: null is false; everything else is read through its
   * text (TextToBool). Ints print as their digits and bools as
   * "True"/"False"; a double is true when it is a nonzero whole Int32.
   */
  function ToBool(v: ParamValue): (b: bool)
    ensures v == NullValue ==> !b
    ensures v.StrValue? && (EqualsIgnoreCase(v.s, "On") || EqualsIgnoreCase(v.s, "True") || v.s == "1") ==> b
    ensures v.StrValue? && (EqualsIgnoreCase(v.s, "Off") || EqualsIgnoreCase(v.s, "False") || v.s == "0") ==> !b
  {
    match v
    case NullValue => false
    case BoolValue(x) => TextToBool(BoolText(x))
    case IntValue(i) => TextToBool(IntToString(i))
    case RealValue(r) => IsInt32Real(r) && r != 0.0
    case StrValue(s) => TextToBool(s)
    case TupleValue(_) => false
  }

  /** A bool reads back as itself; an Int32 reads as true exactly when it is nonzero. */
  lemma ToBoolOfTypedValues(v: ParamValue)
    ensures v.BoolValue? ==> ToBool(v) == v.b
    ensures v.IntValue? && IsInt32(v.i) ==> ToBool(v) == (v.i != 0)
  {
    if v.IntValue? && IsInt32(v.i) {
      TextToBoolOfInt(v.i);
    }
  }

  /** ToBool of a value whose text is `s`. */
  function TextToBool(s: string): bool {
    if EqualsIgnoreCase(s, "On") || EqualsIgnoreCase(s, "True") || s == "1" then true
    else if EqualsIgnoreCase(s, "Off") || EqualsIgnoreCase(s, "False") || s == "0" then false
    else match ParseBool(s)
      case Some(b) => b
      case None =>
        match ParseInt(s)
        case Some(i) => i != 0
        case None => false
  }

  /** The text of any Int32 reads back as true exactly when the number is nonzero. */
  lemma TextToBoolOfInt(i: int)
    requires IsInt32(i)
    ensures TextToBool(IntToString(i)) == (i != 0)
  {
    IntToStringRoundTrip(i);
    IntTextShape(i);
    TextToBoolOfNumber(IntToString(i), i);
  }

  /** The text of an integer ends in a digit and starts with a digit or '-'. */
  lemma IntTextShape(i: int)
    ensures var s := IntToString(i); |s| > 0 && IsDigit(s[|s| - 1]) && !IsWhiteSpace(s[0])
  {
    var m := if i < 0 then -i else i;
    NatToStringDigits(m);
    var digits := NatToString(m);
    var s := IntToString(i);
    if i < 0 {
      assert s == "-" + digits;
    } else {
      assert s == digits;
    }
    assert s[|s| - 1] == digits[|digits| - 1];
  }

  /** Number text without surrounding white space reads as true exactly when its value is nonzero. */
  lemma TextToBoolOfNumber(s: string, i: int)
    requires |s| > 0 && IsDigit(s[|s| - 1]) && !IsWhiteSpace(s[0])
    requires ParseInt(s) == Some(i)
    ensures TextToBool(s) == (i != 0)
  {
    NotABoolWord(s);
    if s == "1" {
      OneAndZero();
    } else if s == "0" {
      OneAndZero();
    }
  }

  lemma OneAndZero()
    ensures ParseInt("1") == Some(1) && ParseInt("0") == Some(0)
  {
    IntToStringRoundTrip(1);
    IntToStringRoundTrip(0);
    assert IntToString(1) == "1";
    assert IntToString(0) == "0";
  }

  /** Text that ends in a digit and has no surrounding white space is none of the bool words. */
  lemma NotABoolWord(s: string)
    requires |s| > 0 && IsDigit(s[|s| - 1]) && !IsWhiteSpace(s[0])
    ensures !EqualsIgnoreCase(s, "On") && !EqualsIgnoreCase(s, "True")
    ensures !EqualsIgnoreCase(s, "Off") && !EqualsIgnoreCase(s, "False")
    ensures ParseBool(s) == None
  {
    var f := Fold(s);
    assert f[|s| - 1] == s[|s| - 1];
    assert Trimmed(s);
    assert Trim(s) == s;
  }

  /**
   * The mock's ToInt: null keeps the fallback; an int is taken as is; text
   * that int.TryParse accepts gives its value; a double is cut toward zero.
   */
  function ToInt(v: ParamValue, fallback: int): (n: int)
    ensures v == NullValue ==> n == fallback
    ensures v.IntValue? ==> n == v.i
    ensures v.StrValue? ==> n == ParseInt(v.s).GetOr(fallback)
  {
    match v
    case NullValue => fallback
    case IntValue(i) => i
    case StrValue(s) => ParseInt(s).GetOr(fallback)
    case RealValue(r) => if IsInt32(Truncate(r)) then Truncate(r) else fallback
    case BoolValue(_) => fallback
    case TupleValue(_) => fallback
  }

  /** The mock's ToDouble: a double or an int is taken as its number; Int32 text parses. */
  function ToDouble(v: ParamValue, fallback: real): (x: real)
    ensures v == NullValue ==> x == fallback
    ensures v.RealValue? ==> x == v.r
    ensures v.IntValue? ==> x == v.i as real
  {
    match v
    case NullValue => fallback
    case RealValue(r) => r
    case IntValue(i) => i as real
    case StrValue(s) => (match ParseInt(s) case Some(i) => i as real case None => fallback)
    case BoolValue(_) => fallback
    case TupleValue(_) => fallback
  }

  // ---------------------------------------------------------------------
  // The mock's state and its transitions
  // ---------------------------------------------------------------------

  /** The fields of a mock camera that its methods update. */
  datatype MockSnapshot = MockSnapshot(
    state: CameraState,
    lastError: string,
    running: bool,
    isFaulted: bool,
    exposureAuto: bool,
    exposure: int,
    gainAuto: bool,
    gain: real,
    frameId: int,
    events: seq<CameraEvent>)

  /** SetState: the new state and error, announced by a StatusChanged event. */
  function WithState(v: MockSnapshot, name: string, s: CameraState, err: string): MockSnapshot {
    v.(state := s, lastError := err, events := v.events + [StatusChanged(name, s, err)])
  }

  /**
   * SoftwareTrigger: nothing while stopped; a faulted camera reports an
   * error; a fault drawn now (`faultRoll`) faults the camera and reports a
   * disconnect; otherwise the next frame.
   */
  function AfterTrigger(v: MockSnapshot, name: string, faultRoll: bool): MockSnapshot {
    if !v.running then v
    else if v.isFaulted then v.(events := v.events + [CameraError(name, FAULTED_MESSAGE)])
    else if faultRoll then v.(isFaulted := true, events := v.events + [CameraError(name, DISCONNECT_MESSAGE)])
    else v.(frameId := v.frameId + 1, events := v.events + [ImageArrived(name)])
  }

  /** The new fields after writing `value` to parameter `key`, or None for an unsupported key. */
  function Assigned(v: MockSnapshot, key: string, value: ParamValue): Option<MockSnapshot> {
    if EqualsIgnoreCase(key, EXPOSURE_AUTO) then Some(v.(exposureAuto := ToBool(value)))
    else if EqualsIgnoreCase(key, EXPOSURE) then Some(v.(exposure := ToInt(value, v.exposure)))
    else if EqualsIgnoreCase(key, GAIN_AUTO) then Some(v.(gainAuto := ToBool(value)))
    else if EqualsIgnoreCase(key, GAIN) then Some(v.(gain := ToDouble(value, v.gain)))
    else None
  }

  /** "On" or "Off", as the mock reports its auto flags. */
  function OnOff(b: bool): ParamValue {
    StrValue(if b then "On" else "Off")
  }

  /** The value TryGetParam reads for `key`, or None for an unsupported key. */
  function ReadParam(v: MockSnapshot, key: string): Option<ParamValue> {
    if EqualsIgnoreCase(key, EXPOSURE_AUTO) then Some(OnOff(v.exposureAuto))
    else if EqualsIgnoreCase(key, EXPOSURE) then Some(IntValue(v.exposure))
    else if EqualsIgnoreCase(key, GAIN_AUTO) then Some(OnOff(v.gainAuto))
    else if EqualsIgnoreCase(key, GAIN) then Some(RealValue(v.gain))
    else if EqualsIgnoreCase(key, AVAILABLE_EASYPARAM_NAMES) then Some(TupleValue([EXPOSURE_AUTO, EXPOSURE, GAIN_AUTO, GAIN]))
    else None
  }

  /** The four keys are distinct under case folding, so each names its own field. */
  lemma KeysDistinct()
    ensures !EqualsIgnoreCase(EXPOSURE_AUTO, EXPOSURE) && !EqualsIgnoreCase(EXPOSURE_AUTO, GAIN_AUTO)
    ensures !EqualsIgnoreCase(EXPOSURE_AUTO, GAIN) && !EqualsIgnoreCase(EXPOSURE, GAIN_AUTO)
    ensures !EqualsIgnoreCase(EXPOSURE, GAIN) && !EqualsIgnoreCase(GAIN_AUTO, GAIN)
  {
    assert |Fold(EXPOSURE_AUTO)| != |Fold(EXPOSURE)|;
    assert |Fold(EXPOSURE_AUTO)| != |Fold(GAIN_AUTO)|;
    assert |Fold(EXPOSURE_AUTO)| != |Fold(GAIN)|;
    assert |Fold(EXPOSURE)| != |Fold(GAIN)|;
    assert |Fold(GAIN_AUTO)| != |Fold(GAIN)|;
    assert Fold(EXPOSURE)[9] == 'e' && Fold(GAIN_AUTO)[9] == 'g';
  }

  /** Only the four Consumer keys are writable; any other key changes nothing. */
  lemma WritableKeys(v: MockSnapshot, key: string, value: ParamValue)
    ensures Assigned(v, key, value).Some? <==>
      EqualsIgnoreCase(key, EXPOSURE_AUTO) || EqualsIgnoreCase(key, EXPOSURE)
      || EqualsIgnoreCase(key, GAIN_AUTO) || EqualsIgnoreCase(key, GAIN)
    ensures Assigned(v, key, value).Some? ==> ReadParam(v, key).Some?
    ensures Assigned(v, key, value).Some? ==>
      var w := Assigned(v, key, value).value;
      w.state == v.state && w.running == v.running && w.isFaulted == v.isFaulted
      && w.frameId == v.frameId && w.events == v.events
  {
  }

  /**
   * Writing an auto flag and reading it back gives "On" exactly when the
   * written value reads as true, and leaves the other parameters alone.
   */
  lemma AutoFlagRoundTrip(v: MockSnapshot, key: string, value: ParamValue)
    requires EqualsIgnoreCase(key, EXPOSURE_AUTO) || EqualsIgnoreCase(key, GAIN_AUTO)
    ensures Assigned(v, key, value).Some?
    ensures ReadParam(Assigned(v, key, value).value, key) == Some(OnOff(ToBool(value)))
  {
    KeysDistinct();
  }

  /** Writing an int exposure and reading it back gives the same int. */
  lemma ExposureRoundTrip(v: MockSnapshot, key: string, n: int)
    requires EqualsIgnoreCase(key, EXPOSURE)
    ensures Assigned(v, key, IntValue(n)).Some?
    ensures ReadParam(Assigned(v, key, IntValue(n)).value, key) == Some(IntValue(n))
  {
    KeysDistinct();
  }

  /** "On", "True" and "1" written to an auto flag read back as "On". */
  lemma OnWordsReadBackOn(v: MockSnapshot, word: string)
    requires word == "On" || word == "True" || word == "1"
    ensures ReadParam(Assigned(v, EXPOSURE_AUTO, StrValue(word)).value, EXPOSURE_AUTO) == Some(StrValue("On"))
  {
    AutoFlagRoundTrip(v, EXPOSURE_AUTO, StrValue(word));
  }

  /**
   * A trigger while stopped does nothing. Otherwise it raises exactly one
   * event: a CameraError without a frame when the camera is or becomes
   * faulted, else one ImageArrived with the next frame id.
   */
  lemma TriggerRaisesOneEvent(v: MockSnapshot, name: string, faultRoll: bool)
    ensures !v.running ==> AfterTrigger(v, name, faultRoll) == v
    ensures v.running ==>
      var w := AfterTrigger(v, name, faultRoll);
      && |w.events| == |v.events| + 1 && w.events[..|v.events|] == v.events
      && w.state == v.state && w.lastError == v.lastError && w.running
      && ((v.isFaulted || faultRoll) <==> w.events[|v.events|].CameraError?)
      && ((v.isFaulted || faultRoll) ==> w.isFaulted && w.frameId == v.frameId)
      && (!(v.isFaulted || faultRoll) ==> w.events[|v.events|] == ImageArrived(name) && w.frameId == v.frameId + 1)
  {
    var w := AfterTrigger(v, name, faultRoll);
    if v.running {
      assert w.events[..|v.events|] == v.events;
    }
  }

  // ---------------------------------------------------------------------
  // The mock camera
  // ---------------------------------------------------------------------

  class MockCamera {
    const name: string
    /** Never assigned after construction: the mock never schedules a retry. */
    const retryDelayMs: int := 0
    /** DateTime.MinValue, never assigned after construction. */
    const nextRetryAt: int := 0

    var state: CameraState
    var lastError: string
    var running: bool
    var isFaulted: bool
    var exposureAuto: bool
    var exposure: int
    var gainAuto: bool
    var gain: real
    var frameId: int
    /** Every event raised so far, oldest first. */
    var events: seq<CameraEvent>

    function Snapshot(): MockSnapshot
      reads this
    {
      MockSnapshot(state, lastError, running, isFaulted, exposureAuto, exposure, gainAuto, gain, frameId, events)
    }

    constructor(n: string)
      ensures name == n
      ensures Snapshot() == MockSnapshot(Disconnected, "", false, false, false, DEFAULT_EXPOSURE, false, DEFAULT_GAIN, 0, [])
    {
      name := n;
      state, lastError := Disconnected, "";
      running, isFaulted := false, false;
      exposureAuto, exposure := false, DEFAULT_EXPOSURE;
      gainAuto, gain := false, DEFAULT_GAIN;
      frameId := 0;
      events := [];
    }

    method SetState(s: CameraState, err: string)
      modifies this
      ensures Snapshot() == WithState(old(Snapshot()), name, s, err)
    {
      state, lastError := s, err;
      events := events + [StatusChanged(name, s, err)];
    }

    method Open()
      modifies this
      ensures Snapshot() == WithState(old(Snapshot()), name, Online, "")
    {
      SetState(Online, "");
    }

    method Start()
      modifies this
      ensures Snapshot() == WithState(old(Snapshot()).(running := true), name, Online, "")
    {
      running := true;
      SetState(Online, "");
    }

    /** Stops and reports Offline, which is the same state as Disconnected. */
    method Stop()
      modifies this
      ensures Snapshot() == WithState(old(Snapshot()).(running := false), name, OFFLINE, "")
    {
      running := false;
      SetState(OFFLINE, "");
    }

    method Dispose()
      modifies this
      ensures Snapshot() == WithState(old(Snapshot()).(running := false), name, Disconnected, "")
    {
      Stop();
    }

    method SoftwareTrigger(faultRoll: bool)
      modifies this
      ensures Snapshot() == AfterTrigger(old(Snapshot()), name, faultRoll)
    {
      if !running {
        return;
      }
      if isFaulted {
        events := events + [CameraError(name, FAULTED_MESSAGE)];
        return;
      }
      if faultRoll {
        isFaulted := true;
        events := events + [CameraError(name, DISCONNECT_MESSAGE)];
        return;
      }
      frameId := frameId + 1;
      events := events + [ImageArrived(name)];
    }

    /** The recovery task that runs RecoveryMs after a simulated disconnect. */
    method Recover()
      modifies this
      ensures Snapshot() == old(Snapshot()).(isFaulted := false)
    {
      isFaulted := false;
    }

    method TrySetParam(key: string, value: ParamValue) returns (ok: bool, error: string)
      modifies this
      ensures ok == Assigned(old(Snapshot()), key, value).Some?
      ensures error == if ok then "" else UNSUPPORTED
      ensures Snapshot() == Assigned(old(Snapshot()), key, value).GetOr(old(Snapshot()))
    {
      if EqualsIgnoreCase(key, EXPOSURE_AUTO) {
        exposureAuto := ToBool(value);
        return true, "";
      }
      if EqualsIgnoreCase(key, EXPOSURE) {
        exposure := ToInt(value, exposure);
        return true, "";
      }
      if EqualsIgnoreCase(key, GAIN_AUTO) {
        gainAuto := ToBool(value);
        return true, "";
      }
      if EqualsIgnoreCase(key, GAIN) {
        gain := ToDouble(value, gain);
        return true, "";
      }
      return false, UNSUPPORTED;
    }

    /** Reads a parameter; an unsupported key gives an empty tuple and an error. */
    method TryGetParam(key: string) returns (ok: bool, value: ParamValue, error: string)
      ensures ok <==> EqualsIgnoreCase(key, EXPOSURE_AUTO) || EqualsIgnoreCase(key, EXPOSURE)
                      || EqualsIgnoreCase(key, GAIN_AUTO) || EqualsIgnoreCase(key, GAIN)
                      || EqualsIgnoreCase(key, AVAILABLE_EASYPARAM_NAMES)
      ensures value == ReadParam(Snapshot(), key).GetOr(EMPTY_TUPLE)
      ensures error == if ok then "" else UNSUPPORTED
    {
      if EqualsIgnoreCase(key, EXPOSURE_AUTO) {
        return true, OnOff(exposureAuto), "";
      }
      if EqualsIgnoreCase(key, EXPOSURE) {
        return true, IntValue(exposure), "";
      }
      if EqualsIgnoreCase(key, GAIN_AUTO) {
        return true, OnOff(gainAuto), "";
      }
      if EqualsIgnoreCase(key, GAIN) {
        return true, RealValue(gain), "";
      }
      if EqualsIgnoreCase(key, AVAILABLE_EASYPARAM_NAMES) {
        return true, TupleValue([EXPOSURE_AUTO, EXPOSURE, GAIN_AUTO, GAIN]), "";
      }
      return false, EMPTY_TUPLE, UNSUPPORTED;
    }

    /** The parameter names the mock advertises, the four it stores first. */
    method TryGetAvailableEasyParams() returns (ok: bool, names: seq<string>, error: string)
      ensures ok && error == ""
      ensures |names| == 9 && names[..4] == [EXPOSURE_AUTO, EXPOSURE, GAIN_AUTO, GAIN]
    {
      names := [EXPOSURE_AUTO, EXPOSURE, GAIN_AUTO, GAIN, "Consumer|info_general", "Consumer|trigger",
                "Consumer|trigger_activation", "Consumer|trigger_delay", "Consumer|trigger_software"];
      return true, names, "";
    }
  }
}
