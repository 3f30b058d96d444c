/**
 * The camera tuning window: exposure, gain and gamma applied live to the
 * device and persisted into the camera's FramegrabberParams when the window
 * closes.
 *
 * The device is seen through its TrySetParam, modelled as a function of the
 * key and the value: None when the write is accepted (the error text is then
 * empty), Some(error) when it is refused. Parameter values written are
 * recorded in order, tagged with the tuning parameter they belong to.
 */
module Tuning {
  import opened Wrappers
  import opened Text
  import opened Models

  // ---------------------------------------------------------------------
  // Keys and values
  // ---------------------------------------------------------------------

  /** The six device parameters of the window, in the order they are applied. */
  datatype TuningParam = ExposureAuto | Exposure | GainAuto | Gain | GammaEnable | Gamma

  const KEY_EXPOSURE_AUTO: string := "Consumer|exposure_auto"
  const KEY_EXPOSURE: string := "Consumer|exposure"
  const KEY_GAIN_AUTO: string := "Consumer|gain_auto"
  const KEY_GAIN: string := "Consumer|gain"
  const KEY_GAMMA_ENABLE: string := "GammaEnable"
  const KEY_GAMMA: string := "Gamma"

  /** The device and configuration key of a parameter. */
  function KeyOf(p: TuningParam): string {
    match p
    case ExposureAuto => KEY_EXPOSURE_AUTO
    case Exposure => KEY_EXPOSURE
    case GainAuto => KEY_GAIN_AUTO
    case Gain => KEY_GAIN
    case GammaEnable => KEY_GAMMA_ENABLE
    case Gamma => KEY_GAMMA
  }

  /** The six keys are pairwise different (their lengths are). */
  lemma KeysDistinct()
    ensures |KEY_EXPOSURE_AUTO| == 22 && |KEY_EXPOSURE| == 17 && |KEY_GAIN_AUTO| == 18
    ensures |KEY_GAIN| == 13 && |KEY_GAMMA_ENABLE| == 11 && |KEY_GAMMA| == 5
  {
  }

  /** The position of a parameter in the apply order. */
  function Rank(p: TuningParam): nat {
    match p
    case ExposureAuto => 0
    case Exposure => 1
    case GainAuto => 2
    case Gain => 3
    case GammaEnable => 4
    case Gamma => 5
  }

  /** The label of a parameter in the error hint. */
  function Label(p: TuningParam): string {
    match p
    case ExposureAuto => "曝光自动"
    case Exposure => "曝光"
    case GainAuto => "增益自动"
    case Gain => "增益"
    case GammaEnable => "伽马使能"
    case Gamma => "伽马"
  }

  /** The device's TrySetParam: None when the value is accepted, else the error text. */
  type ParamAccess = (string, ParamValue) -> Option<string>

  /** The values the window last asked for (DesiredParams, also the controls' values at close). */
  datatype DesiredParams = DesiredParams(
    expAuto: bool,
    exposure: int,
    gainAuto: bool,
    gain: real,
    gammaEnable: bool,
    gamma: real)

  // ---------------------------------------------------------------------
  // Reading and writing the configuration
  // ---------------------------------------------------------------------

  /** ReadBool: "On" or "True" ignoring case, or exactly "1"; the default when the key is absent. */
  function ReadBool(dict: map<string, string>, key: string, defaultValue: bool): (b: bool)
    ensures key !in dict ==> b == defaultValue
    ensures key in dict ==> (b <==> EqualsIgnoreCase(dict[key], "On") || EqualsIgnoreCase(dict[key], "True") || dict[key] == "1")
  {
    if key in dict then
      var s := dict[key];
      EqualsIgnoreCase(s, "On") || EqualsIgnoreCase(s, "True") || s == "1"
    else defaultValue
  }

  /** ReadInt: the Int32 the value parses to; the default when the key is absent or the value does not parse. */
  function ReadInt(dict: map<string, string>, key: string, defaultValue: int): (n: int)
    ensures key !in dict || ParseInt(dict[key]).None? ==> n == defaultValue
    ensures key in dict && ParseInt(dict[key]).Some? ==> n == ParseInt(dict[key]).value && IsInt32(n)
  {
    if key in dict then
      match ParseInt(dict[key])
      case Some(v) => v
      case None => defaultValue
    else defaultValue
  }

  /** A flag as PersistToConfig writes it. */
  function OnOff(b: bool): string {
    if b then "On" else "Off"
  }

  /**
   * The six entries PersistToConfig writes into FramegrabberParams: the
   * flags as "On"/"Off", the exposure as an integer, and the gain and gamma
   * as the invariant-culture text of their values.
   */
  function PersistedParams(dict: map<string, string>, ui: DesiredParams, gainText: string, gammaText: string): map<string, string> {
    dict[KEY_EXPOSURE_AUTO := OnOff(ui.expAuto)]
        [KEY_EXPOSURE := IntToString(ui.exposure)]
        [KEY_GAIN_AUTO := OnOff(ui.gainAuto)]
        [KEY_GAIN := gainText]
        [KEY_GAMMA_ENABLE := OnOff(ui.gammaEnable)]
        [KEY_GAMMA := gammaText]
  }

  /** The flags and the exposure LoadFromConfigAndDevice reads from the configuration, with its defaults. */
  function LoadedFromConfig(dict: map<string, string>): (r: (bool, int, bool, bool))
    ensures KEY_EXPOSURE_AUTO !in dict ==> !r.0
    ensures KEY_EXPOSURE !in dict ==> r.1 == 8000
    ensures KEY_GAIN_AUTO !in dict ==> !r.2
    ensures KEY_GAMMA_ENABLE !in dict ==> r.3
  {
    (ReadBool(dict, KEY_EXPOSURE_AUTO, false), ReadInt(dict, KEY_EXPOSURE, 8000),
     ReadBool(dict, KEY_GAIN_AUTO, false), ReadBool(dict, KEY_GAMMA_ENABLE, true))
  }

  /** A flag written as "On"/"Off" reads back as itself, whatever the default. */
  lemma OnOffReadsBack(dict: map<string, string>, key: string, b: bool, defaultValue: bool)
    requires key in dict && dict[key] == OnOff(b)
    ensures ReadBool(dict, key, defaultValue) == b
  {
    if !b {
      assert |Fold("Off")| == 3 && |Fold("On")| == 2 && |Fold("True")| == 4;
    }
  }

  /** The entries PersistToConfig writes, looked up. */
  lemma PersistedEntries(dict: map<string, string>, ui: DesiredParams, gainText: string, gammaText: string)
    ensures var p := PersistedParams(dict, ui, gainText, gammaText);
      && KEY_EXPOSURE_AUTO in p && p[KEY_EXPOSURE_AUTO] == OnOff(ui.expAuto)
      && KEY_EXPOSURE in p && p[KEY_EXPOSURE] == IntToString(ui.exposure)
      && KEY_GAIN_AUTO in p && p[KEY_GAIN_AUTO] == OnOff(ui.gainAuto)
      && KEY_GAMMA_ENABLE in p && p[KEY_GAMMA_ENABLE] == OnOff(ui.gammaEnable)
  {
    KeysDistinct();
  }

  /**
   * The configuration entries read back as persisted: the flags and the
   * exposure that PersistToConfig wrote are the ones LoadedFromConfig reads.
   * The window as written does not show them all (LoadFromConfigAsWritten).
   */
  lemma PersistThenLoad(dict: map<string, string>, ui: DesiredParams, gainText: string, gammaText: string)
    requires IsInt32(ui.exposure)
    ensures LoadedFromConfig(PersistedParams(dict, ui, gainText, gammaText)) ==
      (ui.expAuto, ui.exposure, ui.gainAuto, ui.gammaEnable)
  {
    var p := PersistedParams(dict, ui, gainText, gammaText);
    PersistedEntries(dict, ui, gainText, gammaText);
    OnOffReadsBack(p, KEY_EXPOSURE_AUTO, ui.expAuto, false);
    OnOffReadsBack(p, KEY_GAIN_AUTO, ui.gainAuto, false);
    OnOffReadsBack(p, KEY_GAMMA_ENABLE, ui.gammaEnable, true);
    IntToStringRoundTrip(ui.exposure);
  }

  // ---------------------------------------------------------------------
  // Loading the window as written
  // ---------------------------------------------------------------------

  /** The window's value controls: the three check boxes and the three numeric boxes. */
  datatype Controls = Controls(expAuto: bool, exposure: int, gainAuto: bool, gain: real, gammaEnable: bool, gamma: real)

  const GAMMA_MINIMUM: real := 1.0 / 10.0
  const GAMMA_MAXIMUM: real := 4.0

  /** A new window: every check box clear and every numeric box at its Minimum. */
  const FRESH_CONTROLS: Controls := Controls(false, 1, false, 0.0, false, GAMMA_MINIMUM)

  /** Setting the exposure box; a change raises ValueChanged, whose handler clears auto exposure. */
  function SetExposureBox(c: Controls, v: int): Controls {
    if c.exposure == v then c else c.(exposure := v, expAuto := false)
  }

  /** Setting the gain box; a change raises ValueChanged, whose handler clears auto gain. */
  function SetGainBox(c: Controls, v: real): Controls {
    if c.gain == v then c else c.(gain := v, gainAuto := false)
  }

  /** Setting the gamma box; a change raises ValueChanged, whose handler checks gamma-enable. */
  function SetGammaBox(c: Controls, v: real): Controls {
    if c.gamma == v then c else c.(gamma := v, gammaEnable := true)
  }

  /**
   * LoadFromConfigAndDevice as written, with no device answering its reads.
   * The ValueChanged handlers are wired before it runs, so each numeric box
   * moved off its Minimum undoes the flag set just before it. `gainRead` and
   * `gammaRead` are the doubles read for the gain and gamma.
   */
  function LoadFromConfigAsWritten(dict: map<string, string>, gainRead: real, gammaRead: real): (c: Controls)
    ensures c.exposure == ReadInt(dict, KEY_EXPOSURE, 8000) && c.gain == gainRead
    ensures c.expAuto <==> ReadBool(dict, KEY_EXPOSURE_AUTO, false) && c.exposure == FRESH_CONTROLS.exposure
    ensures c.gainAuto <==> ReadBool(dict, KEY_GAIN_AUTO, false) && gainRead == FRESH_CONTROLS.gain
    ensures c.gammaEnable <==> ReadBool(dict, KEY_GAMMA_ENABLE, true) || c.gamma != GAMMA_MINIMUM
  {
    var c1 := FRESH_CONTROLS.(expAuto := ReadBool(dict, KEY_EXPOSURE_AUTO, false));
    var c2 := SetExposureBox(c1, ReadInt(dict, KEY_EXPOSURE, 8000));
    var c3 := c2.(gainAuto := ReadBool(dict, KEY_GAIN_AUTO, false));
    var c4 := SetGainBox(c3, gainRead);
    var c5 := c4.(gammaEnable := ReadBool(dict, KEY_GAMMA_ENABLE, true));
    SetGammaBox(c5, ClampDecimal(gammaRead, GAMMA_MINIMUM, GAMMA_MAXIMUM))
  }

  /**
   * Reopening the window as written after it persisted: auto exposure stays
   * on only with the exposure at 1, auto gain only with the gain at 0, and
   * gamma-enable comes back on whenever the gamma is not 0.10.
   */
  lemma ReopenAsWritten(dict: map<string, string>, ui: DesiredParams, gainText: string, gammaText: string,
                        gainRead: real, gammaRead: real)
    requires IsInt32(ui.exposure)
    ensures var c := LoadFromConfigAsWritten(PersistedParams(dict, ui, gainText, gammaText), gainRead, gammaRead);
      && c.exposure == ui.exposure
      && (c.expAuto <==> ui.expAuto && ui.exposure == 1)
      && (c.gainAuto <==> ui.gainAuto && gainRead == 0.0)
      && (c.gammaEnable <==> ui.gammaEnable || ClampDecimal(gammaRead, GAMMA_MINIMUM, GAMMA_MAXIMUM) != GAMMA_MINIMUM)
  {
    PersistThenLoad(dict, ui, gainText, gammaText);
  }

  /**
   * Auto exposure and auto gain on, gamma off, at the usual values: the
   * configuration reads back all three flags, the window as written shows
   * the opposite of each.
   */
  lemma ReopenFlipsFlags(dict: map<string, string>)
    ensures var ui := DesiredParams(true, 8000, true, 1.0, false, 1.0);
      var p := PersistedParams(dict, ui, "1.0", "1.00");
      && LoadedFromConfig(p) == (true, 8000, true, false)
      && var c := LoadFromConfigAsWritten(p, 1.0, 1.0);
         !c.expAuto && !c.gainAuto && c.gammaEnable
  {
    var ui := DesiredParams(true, 8000, true, 1.0, false, 1.0);
    assert IsInt32(8000);
    PersistThenLoad(dict, ui, "1.0", "1.00");
    ReopenAsWritten(dict, ui, "1.0", "1.00", 1.0, 1.0);
  }

  /** PersistToConfig changes no entry of FramegrabberParams besides its six. */
  lemma PersistKeepsOthers(dict: map<string, string>, ui: DesiredParams, gainText: string, gammaText: string, k: string)
    requires k in dict
    requires k != KEY_EXPOSURE_AUTO && k != KEY_EXPOSURE && k != KEY_GAIN_AUTO
    requires k != KEY_GAIN && k != KEY_GAMMA_ENABLE && k != KEY_GAMMA
    ensures k in PersistedParams(dict, ui, gainText, gammaText)
    ensures PersistedParams(dict, ui, gainText, gammaText)[k] == dict[k]
  {
  }

  /** GetConfigByName: the slot (0-based) named Cam1..Cam6, ignoring case; None for any other name. */
  function GetConfigByName(name: string): (r: Option<nat>)
    ensures r.Some? ==> r.value < SLOT_COUNT && EqualsIgnoreCase(name, SlotName(r.value + 1))
    ensures r.None? ==> forall n :: 1 <= n <= SLOT_COUNT ==> !EqualsIgnoreCase(name, SlotName(n))
  {
    SlotNames();
    if EqualsIgnoreCase(name, "Cam1") then Some(0)
    else if EqualsIgnoreCase(name, "Cam2") then Some(1)
    else if EqualsIgnoreCase(name, "Cam3") then Some(2)
    else if EqualsIgnoreCase(name, "Cam4") then Some(3)
    else if EqualsIgnoreCase(name, "Cam5") then Some(4)
    else if EqualsIgnoreCase(name, "Cam6") then Some(5)
    else None
  }

  lemma SlotNames()
    ensures SlotName(1) == "Cam1" && SlotName(2) == "Cam2" && SlotName(3) == "Cam3"
    ensures SlotName(4) == "Cam4" && SlotName(5) == "Cam5" && SlotName(6) == "Cam6"
  {
  }

  /** Every slot name finds its own slot. */
  lemma ConfigOfSlotName(i: nat)
    requires i < SLOT_COUNT
    ensures GetConfigByName(SlotName(i + 1)) == Some(i)
  {
    SlotNames();
    var n := SlotName(i + 1);
    forall j | 1 <= j <= i ensures !EqualsIgnoreCase(n, SlotName(j)) {
      assert Fold(n)[3] != Fold(SlotName(j))[3];
    }
  }

  /** ClampDecimal: v limited to [min, max]; the decimal conversion of the double is exact here. */
  function ClampDecimal(v: real, min: real, max: real): (r: real)
    ensures min <= max ==> min <= r <= max
    ensures min <= v <= max ==> r == v
    ensures r == v || r == min || r == max
  {
    if v < min then min else if v > max then max else v
  }

  /** (int)Math.Round(x): to the nearest integer, halves to the even one. */
  function RoundHalfEven(x: real): (n: int)
    ensures -1.0 / 2.0 <= x - n as real <= 1.0 / 2.0
    ensures x - n as real == 1.0 / 2.0 || n as real - x == 1.0 / 2.0 ==> n % 2 == 0
  {
    var f := x.Floor;
    var frac := x - f as real;
    if frac < 1.0 / 2.0 then f
    else if frac > 1.0 / 2.0 then f + 1
    else if f % 2 == 0 then f else f + 1
  }

  /** RoundHalfEven gives a nearest integer, and the even one of two equally near. */
  lemma RoundHalfEvenNearest(x: real)
    ensures var n := RoundHalfEven(x);
      && -1.0 / 2.0 <= x - n as real <= 1.0 / 2.0
      && (x - n as real == 1.0 / 2.0 || n as real - x == 1.0 / 2.0 ==> n % 2 == 0)
      && forall m: int :: Distance(x, m) >= Distance(x, n)
  {
    var n := RoundHalfEven(x);
    forall m: int ensures Distance(x, m) >= Distance(x, n) {
      if m > n {
        assert m as real >= n as real + 1.0;
      } else if m < n {
        assert m as real <= n as real - 1.0;
      }
    }
  }

  /** The distance from a real to an integer. */
  function Distance(x: real, m: int): (d: real)
    ensures d >= 0.0 && (d == x - m as real || d == m as real - x)
  {
    if x >= m as real then x - m as real else m as real - x
  }

  // ---------------------------------------------------------------------
  // Writing to the device
  // ---------------------------------------------------------------------

  /** TrySetAuto's candidates, in the order they are tried. */
  function AutoCandidates(enabled: bool): (c: seq<ParamValue>)
    ensures |c| > 0 && c[0] == StrValue(OnOff(enabled))
  {
    CandidatesFrom(enabled, 0)
  }

  /** The number of candidate spellings of an auto flag. */
  function CandidateCount(enabled: bool): nat {
    if enabled then 9 else 8
  }

  /** The candidate spellings of an auto flag from position `i` on. */
  function CandidatesFrom(enabled: bool, i: nat): (c: seq<ParamValue>)
    ensures |c| == if i < CandidateCount(enabled) then CandidateCount(enabled) - i else 0
    ensures i < CandidateCount(enabled) ==> c[0] == CandidateAt(enabled, i)
    decreases CandidateCount(enabled) - i
  {
    if i < CandidateCount(enabled) then [CandidateAt(enabled, i)] + CandidatesFrom(enabled, i + 1) else []
  }

  /** Candidate `i` of an auto flag. */
  function CandidateAt(enabled: bool, i: nat): ParamValue
    requires i < CandidateCount(enabled)
  {
    if enabled then
      [StrValue("On"), StrValue("on"), StrValue("True"), BoolValue(true), IntValue(1), StrValue("1"),
       StrValue("Enable"), StrValue("enable"), StrValue("Continuous")][i]
    else
      [StrValue("Off"), StrValue("off"), StrValue("False"), BoolValue(false), IntValue(0), StrValue("0"),
       StrValue("Disable"), StrValue("disable")][i]
  }

  /** The index of the first candidate the device accepts, if any. */
  function FirstAccepted(access: ParamAccess, key: string, candidates: seq<ParamValue>): (r: Option<nat>)
    ensures r.Some? ==> r.value < |candidates| && access(key, candidates[r.value]).None?
    ensures r.Some? ==> forall j :: 0 <= j < r.value ==> access(key, candidates[j]).Some?
    ensures r.None? <==> forall j :: 0 <= j < |candidates| ==> access(key, candidates[j]).Some?
    decreases |candidates|
  {
    if candidates == [] then None
    else if access(key, candidates[0]).None? then Some(0)
    else
      match FirstAccepted(access, key, candidates[1..])
      case Some(i) => Some(i + 1)
      case None => None
  }

  /**
   * TrySetAuto: the candidates written in order until the device accepts
   * one, which clears the error; otherwise false with the last refusal.
   */
  method TrySetAuto(access: ParamAccess, key: string, enabled: bool)
    returns (ok: bool, error: string, tried: seq<ParamValue>)
    ensures ok <==> FirstAccepted(access, key, AutoCandidates(enabled)).Some?
    ensures StepLog(tried, error) == AutoStep(access, key, enabled)
  {
    ok, error, tried := SetFirstAccepted(access, key, AutoCandidates(enabled));
  }

  /** The loop of TrySetAuto over its candidates. */
  method SetFirstAccepted(access: ParamAccess, key: string, candidates: seq<ParamValue>)
    returns (ok: bool, error: string, tried: seq<ParamValue>)
    requires |candidates| > 0
    ensures ok <==> FirstAccepted(access, key, candidates).Some?
    ensures StepLog(tried, error) == AutoStepOver(access, key, candidates)
  {
    ok, error, tried := false, "", [];
    var i := 0;
    while i < |candidates|
      invariant 0 <= i <= |candidates|
      invariant tried == candidates[..i]
      invariant forall j :: 0 <= j < i ==> access(key, candidates[j]).Some?
      invariant i > 0 ==> error == access(key, candidates[i - 1]).value
    {
      tried := tried + [candidates[i]];
      var outcome := access(key, candidates[i]);
      if outcome.None? {
        AcceptedAt(access, key, candidates, i);
        return true, "", tried;
      }
      error := outcome.value;
      i := i + 1;
    }
    AllRefused(access, key, candidates);
  }

  /** When the candidates before `i` are refused and candidate `i` is accepted, the step stops there with no error. */
  lemma {:induction false} AcceptedAt(access: ParamAccess, key: string, c: seq<ParamValue>, i: nat)
    requires i < |c| && access(key, c[i]).None?
    requires forall j :: 0 <= j < i ==> access(key, c[j]).Some?
    ensures AutoStepOver(access, key, c) == StepLog(c[..i + 1], "")
    ensures FirstAccepted(access, key, c) == Some(i)
    decreases i
  {
    FirstAcceptedIs(access, key, c, i);
    if i > 0 {
      assert access(key, c[0]).Some?;
      AcceptedAt(access, key, c[1..], i - 1);
      assert c[..i + 1] == [c[0]] + c[1..][..i];
    }
  }

  /** When every candidate is refused, the step writes them all and keeps the last refusal. */
  lemma {:induction false} AllRefused(access: ParamAccess, key: string, c: seq<ParamValue>)
    requires |c| > 0 && forall j :: 0 <= j < |c| ==> access(key, c[j]).Some?
    ensures AutoStepOver(access, key, c) == StepLog(c, access(key, c[|c| - 1]).value)
    ensures FirstAccepted(access, key, c).None?
    decreases |c|
  {
    assert access(key, c[0]).Some?;
    if |c| > 1 {
      AllRefused(access, key, c[1..]);
      assert c == [c[0]] + c[1..];
    }
  }

  /** The first accepted candidate is the one before which every candidate was refused. */
  lemma FirstAcceptedIs(access: ParamAccess, key: string, candidates: seq<ParamValue>, i: nat)
    requires i < |candidates| && access(key, candidates[i]).None?
    requires forall j :: 0 <= j < i ==> access(key, candidates[j]).Some?
    ensures FirstAccepted(access, key, candidates) == Some(i)
  {
    var r := FirstAccepted(access, key, candidates);
    assert r.Some?;
    assert !(r.value < i) && !(i < r.value);
  }

  /** A write with a second form of the value when the first is refused; the error is that of the last write. */
  method SetWithFallback(access: ParamAccess, key: string, first: ParamValue, second: ParamValue)
    returns (error: string, tried: seq<ParamValue>)
    ensures access(key, first).None? ==> error == "" && tried == [first]
    ensures access(key, first).Some? ==> tried == [first, second] && error == access(key, second).GetOr("")
    ensures StepLog(tried, error) == FallbackStep(access, key, first, second)
  {
    tried := [first];
    error := access(key, first).GetOr("");
    if access(key, first).Some? {
      tried := tried + [second];
      error := access(key, second).GetOr("");
    }
  }

  /** The writes of one parameter, tagged with it. */
  function Tagged(p: TuningParam, values: seq<ParamValue>): (w: seq<(TuningParam, ParamValue)>)
    ensures |w| == |values| && forall i :: 0 <= i < |w| ==> w[i] == (p, values[i])
  {
    seq(|values|, i requires 0 <= i < |values| => (p, values[i]))
  }

  /** The writes of one step carry its parameter, and there are some when the step wrote something. */
  lemma TaggedMembers(p: TuningParam, values: seq<ParamValue>)
    ensures forall x :: x in Tagged(p, values) ==> x.0 == p && |values| > 0
    ensures |values| > 0 ==> (p, values[0]) in Tagged(p, values)
  {
    if |values| > 0 {
      assert Tagged(p, values)[0] == (p, values[0]);
    }
  }

  /** The writes follow the apply order of the parameters. */
  predicate InApplyOrder(writes: seq<(TuningParam, ParamValue)>) {
    forall i, j :: 0 <= i < j < |writes| ==> Rank(writes[i].0) <= Rank(writes[j].0)
  }

  /** Whether a parameter was written. */
  ghost predicate Wrote(writes: seq<(TuningParam, ParamValue)>, p: TuningParam) {
    exists v :: (p, v) in writes
  }

  /** The device accepts every write. */
  ghost predicate AcceptsAll(access: ParamAccess) {
    forall k, v :: access(k, v).None?
  }

  /** The parameter applied at position `i` of the apply order. */
  function ParamOfRank(i: nat): (p: TuningParam)
    requires i < 6
    ensures Rank(p) == i
  {
    if i == 0 then ExposureAuto else if i == 1 then Exposure else if i == 2 then GainAuto
    else if i == 3 then Gain else if i == 4 then GammaEnable else Gamma
  }

  /** What one step of ApplyToDeviceBestEffort wrote, and its error text ("" for none). */
  datatype StepLog = StepLog(tried: seq<ParamValue>, error: string)

  /** A step that is skipped. */
  const SKIPPED: StepLog := StepLog([], "")

  /** TrySetAuto as a step. */
  function AutoStep(access: ParamAccess, key: string, enabled: bool): (s: StepLog)
    ensures |s.tried| > 0 && s.tried[0] == StrValue(OnOff(enabled))
    ensures access(key, StrValue(OnOff(enabled))).None? ==> s == StepLog([StrValue(OnOff(enabled))], "")
  {
    AutoStepOver(access, key, AutoCandidates(enabled))
  }

  /** Candidates written in order until one is accepted; the last refusal when none is. */
  function AutoStepOver(access: ParamAccess, key: string, c: seq<ParamValue>): (s: StepLog)
    requires |c| > 0
    ensures |s.tried| > 0 && s.tried[0] == c[0]
    ensures access(key, c[0]).None? ==> s == StepLog([c[0]], "")
    decreases |c|
  {
    if access(key, c[0]).None? then StepLog([c[0]], "")
    else if |c| == 1 then StepLog(c, access(key, c[0]).value)
    else
      var r := AutoStepOver(access, key, c[1..]);
      StepLog([c[0]] + r.tried, r.error)
  }

  /**
   * What TrySetAuto writes: candidates in order, every one but the last
   * refused; it stops at the first one the device accepts, with no error;
   * when the device refuses them all it has written them all and keeps the
   * last refusal.
   */
  lemma AutoStepWrites(access: ParamAccess, key: string, c: seq<ParamValue>)
    requires |c| > 0
    ensures var s := AutoStepOver(access, key, c);
      && 0 < |s.tried| <= |c| && s.tried == c[..|s.tried|]
      && (forall j :: 0 <= j < |s.tried| - 1 ==> access(key, s.tried[j]).Some?)
      && (FirstAccepted(access, key, c).Some? ==> access(key, s.tried[|s.tried| - 1]).None? && s.error == "")
      && (FirstAccepted(access, key, c).None? ==> s.tried == c && s.error == access(key, c[|c| - 1]).value)
  {
    match FirstAccepted(access, key, c)
    case Some(i) => AcceptedAt(access, key, c, i);
    case None => AllRefused(access, key, c);
  }

  /** A write with a second form of the value when the first is refused, as a step. */
  function FallbackStep(access: ParamAccess, key: string, first: ParamValue, second: ParamValue): (s: StepLog)
    ensures |s.tried| > 0 && s.tried[0] == first
    ensures access(key, first).None? ==> s == StepLog([first], "")
  {
    if access(key, first).None? then StepLog([first], "")
    else StepLog([first, second], access(key, second).GetOr(""))
  }

  /** Step `i` of ApplyToDeviceBestEffort, in apply order; a skipped step writes nothing. */
  function StepAt(access: ParamAccess, d: DesiredParams, gammaText: string, i: nat): StepLog
    requires i < 6
  {
    if i == 0 then AutoStep(access, KEY_EXPOSURE_AUTO, d.expAuto)
    else if i == 1 then
      (if d.expAuto then SKIPPED
       else FallbackStep(access, KEY_EXPOSURE, IntValue(d.exposure), RealValue(d.exposure as real)))
    else if i == 2 then AutoStep(access, KEY_GAIN_AUTO, d.gainAuto)
    else if i == 3 then
      (if d.gainAuto then SKIPPED
       else FallbackStep(access, KEY_GAIN, RealValue(d.gain), IntValue(RoundHalfEven(d.gain))))
    else if i == 4 then
      FallbackStep(access, KEY_GAMMA_ENABLE, BoolValue(d.gammaEnable), IntValue(if d.gammaEnable then 1 else 0))
    else if d.gammaEnable then FallbackStep(access, KEY_GAMMA, RealValue(d.gamma), StrValue(gammaText))
    else SKIPPED
  }

  /** The six steps of ApplyToDeviceBestEffort. */
  function BestEffortSteps(access: ParamAccess, d: DesiredParams, gammaText: string): (s: seq<StepLog>)
    ensures |s| == 6
  {
    seq(6, i requires 0 <= i < 6 => StepAt(access, d, gammaText, i))
  }

  /** The exposure steps. */
  lemma ExposureSteps(access: ParamAccess, d: DesiredParams, gammaText: string, steps: seq<StepLog>)
    requires steps == BestEffortSteps(access, d, gammaText)
    ensures steps[0] == AutoStep(access, KEY_EXPOSURE_AUTO, d.expAuto)
    ensures steps[1] == if d.expAuto then SKIPPED
      else FallbackStep(access, KEY_EXPOSURE, IntValue(d.exposure), RealValue(d.exposure as real))
  {
    assert steps[0] == StepAt(access, d, gammaText, 0);
    assert steps[1] == StepAt(access, d, gammaText, 1);
  }

  /** The gain steps. */
  lemma GainSteps(access: ParamAccess, d: DesiredParams, gammaText: string, steps: seq<StepLog>)
    requires steps == BestEffortSteps(access, d, gammaText)
    ensures steps[2] == AutoStep(access, KEY_GAIN_AUTO, d.gainAuto)
    ensures steps[3] == if d.gainAuto then SKIPPED
      else FallbackStep(access, KEY_GAIN, RealValue(d.gain), IntValue(RoundHalfEven(d.gain)))
  {
    assert steps[2] == StepAt(access, d, gammaText, 2);
    assert steps[3] == StepAt(access, d, gammaText, 3);
  }

  /** The gamma steps. */
  lemma GammaSteps(access: ParamAccess, d: DesiredParams, gammaText: string, steps: seq<StepLog>)
    requires steps == BestEffortSteps(access, d, gammaText)
    ensures steps[4] == FallbackStep(access, KEY_GAMMA_ENABLE, BoolValue(d.gammaEnable), IntValue(if d.gammaEnable then 1 else 0))
    ensures steps[5] == if d.gammaEnable then FallbackStep(access, KEY_GAMMA, RealValue(d.gamma), StrValue(gammaText))
      else SKIPPED
  {
    assert steps[4] == StepAt(access, d, gammaText, 4);
    assert steps[5] == StepAt(access, d, gammaText, 5);
  }

  /** The writes of the first `n` steps, in order. */
  function WritesUpTo(steps: seq<StepLog>, n: nat): seq<(TuningParam, ParamValue)>
    requires n <= |steps| <= 6
  {
    if n == 0 then [] else WritesUpTo(steps, n - 1) + Tagged(ParamOfRank(n - 1), steps[n - 1].tried)
  }

  /** The error hint line of a parameter. */
  function ErrorLine(p: TuningParam, err: string): string {
    Label(p) + "(" + KeyOf(p) + "): " + err
  }

  /** An error is reported only when it is not blank. */
  function Report(errors: seq<string>, p: TuningParam, err: string): (r: seq<string>)
    ensures r == errors || r == errors + [ErrorLine(p, err)]
    ensures IsBlank(err) <==> r == errors
  {
    if IsBlank(err) then errors else errors + [ErrorLine(p, err)]
  }

  /** The errors reported by the first `n` steps, in order. */
  function ErrorsUpTo(steps: seq<StepLog>, n: nat): (e: seq<string>)
    requires n <= |steps| <= 6
    ensures |e| <= n
  {
    if n == 0 then [] else Report(ErrorsUpTo(steps, n - 1), ParamOfRank(n - 1), steps[n - 1].error)
  }

  /** One more step: its writes tagged with its parameter, its error reported. */
  lemma NextStep(steps: seq<StepLog>, n: nat, p: TuningParam, s: StepLog,
                 writes: seq<(TuningParam, ParamValue)>, errors: seq<string>)
    requires 0 < n <= |steps| <= 6 && Rank(p) == n - 1 && steps[n - 1] == s
    requires writes == WritesUpTo(steps, n - 1) && errors == ErrorsUpTo(steps, n - 1)
    ensures writes + Tagged(p, s.tried) == WritesUpTo(steps, n)
    ensures Report(errors, p, s.error) == ErrorsUpTo(steps, n)
    ensures s == SKIPPED ==> writes == WritesUpTo(steps, n) && errors == ErrorsUpTo(steps, n)
  {
    assert p == ParamOfRank(n - 1);
    if s == SKIPPED {
      assert Tagged(p, s.tried) == [];
      assert writes + [] == writes;
      assert IsBlank(s.error);
    }
  }

  /** A skipped step writes nothing and reports nothing. */
  lemma SkippedStep(steps: seq<StepLog>, n: nat)
    requires 0 < n <= |steps| <= 6 && steps[n - 1] == SKIPPED
    ensures WritesUpTo(steps, n) == WritesUpTo(steps, n - 1)
    ensures ErrorsUpTo(steps, n) == ErrorsUpTo(steps, n - 1)
  {
    NextStep(steps, n, ParamOfRank(n - 1), SKIPPED, WritesUpTo(steps, n - 1), ErrorsUpTo(steps, n - 1));
  }

  /** Everything ApplyToDeviceBestEffort writes, in order. */
  function AppliedWrites(access: ParamAccess, d: DesiredParams, gammaText: string): seq<(TuningParam, ParamValue)> {
    var s := BestEffortSteps(access, d, gammaText);
    WritesUpTo(s, |s|)
  }

  /** Every error ApplyToDeviceBestEffort reports, in order. */
  function AppliedErrors(access: ParamAccess, d: DesiredParams, gammaText: string): seq<string> {
    var s := BestEffortSteps(access, d, gammaText);
    ErrorsUpTo(s, |s|)
  }

  /** The writes of the steps follow the apply order. */
  lemma {:induction false} WritesInOrder(steps: seq<StepLog>, n: nat)
    requires n <= |steps| <= 6
    ensures InApplyOrder(WritesUpTo(steps, n))
    ensures forall i :: 0 <= i < |WritesUpTo(steps, n)| ==> Rank(WritesUpTo(steps, n)[i].0) < n
  {
    if n > 0 {
      WritesInOrder(steps, n - 1);
      var w := WritesUpTo(steps, n - 1);
      var t := Tagged(ParamOfRank(n - 1), steps[n - 1].tried);
      assert forall i :: 0 <= i < |w + t| ==> (w + t)[i] == if i < |w| then w[i] else t[i - |w|];
    }
  }

  /** A parameter is written by the first `n` steps exactly when its own step wrote something. */
  lemma {:induction false} WritesOfStep(steps: seq<StepLog>, n: nat, k: nat)
    requires n <= |steps| <= 6 && k < 6
    ensures Wrote(WritesUpTo(steps, n), ParamOfRank(k)) <==> k < n && |steps[k].tried| > 0
    ensures k < n && |steps[k].tried| > 0 ==> (ParamOfRank(k), steps[k].tried[0]) in WritesUpTo(steps, n)
  {
    if n > 0 {
      WritesOfStep(steps, n - 1, k);
      TaggedMembers(ParamOfRank(n - 1), steps[n - 1].tried);
      assert ParamOfRank(k) == ParamOfRank(n - 1) <==> k == n - 1;
    }
  }

  /**
   * A device that accepts every write gets exactly one write per parameter
   * applied, in its plain form, and no error is reported.
   */
  lemma BestEffortAllAccepted(access: ParamAccess, d: DesiredParams, gammaText: string)
    requires AcceptsAll(access)
    ensures AppliedWrites(access, d, gammaText) == FirstWrites(d)
    ensures AppliedErrors(access, d, gammaText) == []
  {
    var s := BestEffortSteps(access, d, gammaText);
    AcceptedSteps(access, d, gammaText, s);
    FirstStepsWrite(d, s);
  }

  /**
   * The shape of the steps with a device that accepts everything: each step
   * applied writes its first value alone and reports nothing; the steps of
   * the values not applied are skipped.
   */
  predicate FirstStepsShape(d: DesiredParams, s: seq<StepLog>) {
    && |s| == 6
    && s[0] == StepLog([StrValue(OnOff(d.expAuto))], "")
    && s[1] == (if d.expAuto then SKIPPED else StepLog([IntValue(d.exposure)], ""))
    && s[2] == StepLog([StrValue(OnOff(d.gainAuto))], "")
    && s[3] == (if d.gainAuto then SKIPPED else StepLog([RealValue(d.gain)], ""))
    && s[4] == StepLog([BoolValue(d.gammaEnable)], "")
    && s[5] == (if d.gammaEnable then StepLog([RealValue(d.gamma)], "") else SKIPPED)
  }

  /** Such steps write one value per parameter applied and report nothing. */
  lemma FirstStepsWrite(d: DesiredParams, s: seq<StepLog>)
    requires FirstStepsShape(d, s)
    ensures WritesUpTo(s, |s|) == FirstWrites(d) && ErrorsUpTo(s, |s|) == []
  {
    var w0 := [(ExposureAuto, StrValue(OnOff(d.expAuto)))];
    var w1 := w0 + (if d.expAuto then [] else [(Exposure, IntValue(d.exposure))]);
    var w2 := w1 + [(GainAuto, StrValue(OnOff(d.gainAuto)))];
    var w3 := w2 + (if d.gainAuto then [] else [(Gain, RealValue(d.gain))]);
    var w4 := w3 + [(GammaEnable, BoolValue(d.gammaEnable))];
    var w5 := w4 + (if d.gammaEnable then [(Gamma, RealValue(d.gamma))] else []);
    var n := 1;
    OneStep(s, n, [], [], w0);
    OneStep(s, n + 1, w0, [], w1);
    OneStep(s, n + 2, w1, [], w2);
    OneStep(s, n + 3, w2, [], w3);
    OneStep(s, n + 4, w3, [], w4);
    OneStep(s, n + 5, w4, [], w5);
  }

  /** With a device that accepts everything every step applied writes its first value and reports nothing. */
  lemma AcceptedSteps(access: ParamAccess, d: DesiredParams, gammaText: string, s: seq<StepLog>)
    requires AcceptsAll(access) && s == BestEffortSteps(access, d, gammaText)
    ensures FirstStepsShape(d, s)
  {
    ExposureSteps(access, d, gammaText, s);
    GainSteps(access, d, gammaText, s);
    GammaSteps(access, d, gammaText, s);
    assert access(KEY_EXPOSURE_AUTO, StrValue(OnOff(d.expAuto))).None?;
    assert access(KEY_GAIN_AUTO, StrValue(OnOff(d.gainAuto))).None?;
    assert access(KEY_EXPOSURE, IntValue(d.exposure)).None?;
    assert access(KEY_GAIN, RealValue(d.gain)).None?;
    assert access(KEY_GAMMA_ENABLE, BoolValue(d.gammaEnable)).None?;
    assert access(KEY_GAMMA, RealValue(d.gamma)).None?;
  }

  /** A step that writes at most its first value and reports nothing. */
  lemma OneStep(steps: seq<StepLog>, n: nat, before: seq<(TuningParam, ParamValue)>, errors: seq<string>,
                after: seq<(TuningParam, ParamValue)>)
    requires 0 < n <= |steps| <= 6
    requires before == WritesUpTo(steps, n - 1) && errors == ErrorsUpTo(steps, n - 1)
    requires steps[n - 1] == SKIPPED ==> after == before
    requires steps[n - 1] != SKIPPED ==>
      |steps[n - 1].tried| == 1 && steps[n - 1].error == "" && after == before + [(ParamOfRank(n - 1), steps[n - 1].tried[0])]
    ensures after == WritesUpTo(steps, n) && errors == ErrorsUpTo(steps, n)
  {
    NextStep(steps, n, ParamOfRank(n - 1), steps[n - 1], before, errors);
    if steps[n - 1] != SKIPPED {
      assert Tagged(ParamOfRank(n - 1), steps[n - 1].tried) == [(ParamOfRank(n - 1), steps[n - 1].tried[0])];
      assert IsBlank("");
    }
  }

  /** The writes when the device accepts everything: one per parameter applied. */
  function FirstWrites(d: DesiredParams): seq<(TuningParam, ParamValue)> {
    [(ExposureAuto, StrValue(OnOff(d.expAuto)))]
    + (if d.expAuto then [] else [(Exposure, IntValue(d.exposure))])
    + [(GainAuto, StrValue(OnOff(d.gainAuto)))]
    + (if d.gainAuto then [] else [(Gain, RealValue(d.gain))])
    + [(GammaEnable, BoolValue(d.gammaEnable))]
    + (if d.gammaEnable then [(Gamma, RealValue(d.gamma))] else [])
  }

  /**
   * What ApplyToDeviceBestEffort writes: every parameter in the apply
   * order; the auto flags and the gamma enable always; the exposure exactly
   * when auto exposure is off, the gain exactly when auto gain is off, the
   * gamma exactly when gamma is enabled, each first in its plain form; at
   * most one error per parameter.
   */
  lemma WhatIsApplied(access: ParamAccess, d: DesiredParams, gammaText: string)
    ensures var w := AppliedWrites(access, d, gammaText);
      && InApplyOrder(w)
      && Wrote(w, ExposureAuto) && Wrote(w, GainAuto) && Wrote(w, GammaEnable)
      && (Wrote(w, Exposure) <==> !d.expAuto)
      && (Wrote(w, Gain) <==> !d.gainAuto)
      && (Wrote(w, Gamma) <==> d.gammaEnable)
      && (GammaEnable, BoolValue(d.gammaEnable)) in w
      && (!d.expAuto ==> (Exposure, IntValue(d.exposure)) in w)
      && (!d.gainAuto ==> (Gain, RealValue(d.gain)) in w)
      && (d.gammaEnable ==> (Gamma, RealValue(d.gamma)) in w)
    ensures |AppliedErrors(access, d, gammaText)| <= 6
  {
    var s := BestEffortSteps(access, d, gammaText);
    WritesInOrder(s, |s|);
    WritesOfStep(s, |s|, 0);
    WritesOfStep(s, |s|, 1);
    WritesOfStep(s, |s|, 2);
    WritesOfStep(s, |s|, 3);
    WritesOfStep(s, |s|, 4);
    WritesOfStep(s, |s|, 5);
  }

  /**
   * ApplyToDeviceBestEffort: the auto flags through TrySetAuto; the
   * exposure only when auto exposure is off (as an int, then as a double);
   * the gain only when auto gain is off (as a double, then rounded to an
   * int); the gamma enable always (as a bool, then as 1/0); the gamma only
   * when enabled (as a double, then as its text `gammaText`). Every step is
   * attempted whatever the earlier ones did; non-blank errors are collected
   * for the hint.
   */
  method ApplyToDeviceBestEffort(access: ParamAccess, desired: DesiredParams, gammaText: string)
    returns (writes: seq<(TuningParam, ParamValue)>, errors: seq<string>)
    ensures writes == AppliedWrites(access, desired, gammaText)
    ensures errors == AppliedErrors(access, desired, gammaText)
  {
    var steps := BestEffortSteps(access, desired, gammaText);
    ExposureSteps(access, desired, gammaText, steps);
    GainSteps(access, desired, gammaText, steps);
    GammaSteps(access, desired, gammaText, steps);
    writes, errors := [], [];
    writes, errors := ApplyExposure(access, desired, steps, writes, errors);
    writes, errors := ApplyGain(access, desired, RoundHalfEven(desired.gain), steps, writes, errors);
    writes, errors := ApplyGamma(access, desired, gammaText, steps, writes, errors);
  }

  /** The exposure section of ApplyToDeviceBestEffort: the auto flag, then the exposure when it is off. */
  method ApplyExposure(access: ParamAccess, desired: DesiredParams, steps: seq<StepLog>,
                       writes0: seq<(TuningParam, ParamValue)>, errors0: seq<string>)
    returns (writes: seq<(TuningParam, ParamValue)>, errors: seq<string>)
    requires |steps| == 6 && steps[0] == AutoStep(access, KEY_EXPOSURE_AUTO, desired.expAuto)
    requires steps[1] == if desired.expAuto then SKIPPED
      else FallbackStep(access, KEY_EXPOSURE, IntValue(desired.exposure), RealValue(desired.exposure as real))
    requires writes0 == WritesUpTo(steps, 0) && errors0 == ErrorsUpTo(steps, 0)
    ensures writes == WritesUpTo(steps, 2) && errors == ErrorsUpTo(steps, 2)
  {
    writes, errors := ApplyAuto(access, KEY_EXPOSURE_AUTO, desired.expAuto, ExposureAuto, steps, 1, writes0, errors0);
    writes, errors := ApplyExposureValue(access, desired, steps, writes, errors);
  }

  /**
   * The gain section of ApplyToDeviceBestEffort: the auto flag, then the gain
   * when it is off; `rounded` is the gain rounded to an integer.
   */
  method ApplyGain(access: ParamAccess, desired: DesiredParams, rounded: int, steps: seq<StepLog>,
                   writes0: seq<(TuningParam, ParamValue)>, errors0: seq<string>)
    returns (writes: seq<(TuningParam, ParamValue)>, errors: seq<string>)
    requires |steps| == 6 && steps[2] == AutoStep(access, KEY_GAIN_AUTO, desired.gainAuto)
    requires steps[3] == if desired.gainAuto then SKIPPED
      else FallbackStep(access, KEY_GAIN, RealValue(desired.gain), IntValue(rounded))
    requires writes0 == WritesUpTo(steps, 2) && errors0 == ErrorsUpTo(steps, 2)
    ensures writes == WritesUpTo(steps, 4) && errors == ErrorsUpTo(steps, 4)
  {
    writes, errors := ApplyAuto(access, KEY_GAIN_AUTO, desired.gainAuto, GainAuto, steps, 3, writes0, errors0);
    writes, errors := ApplyGainValue(access, desired, rounded, steps, writes, errors);
  }

  /** The exposure value of ApplyToDeviceBestEffort: written only when auto exposure is off. */
  method ApplyExposureValue(access: ParamAccess, desired: DesiredParams, ghost steps: seq<StepLog>,
                       writes0: seq<(TuningParam, ParamValue)>, errors0: seq<string>)
    returns (writes: seq<(TuningParam, ParamValue)>, errors: seq<string>)
    requires |steps| == 6
    requires steps[1] == if desired.expAuto then SKIPPED
      else FallbackStep(access, KEY_EXPOSURE, IntValue(desired.exposure), RealValue(desired.exposure as real))
    requires writes0 == WritesUpTo(steps, 1) && errors0 == ErrorsUpTo(steps, 1)
    ensures writes == WritesUpTo(steps, 2) && errors == ErrorsUpTo(steps, 2)
  {
    if !desired.expAuto {
      writes, errors := ApplyWithFallback(access, KEY_EXPOSURE, IntValue(desired.exposure),
                                          RealValue(desired.exposure as real), Exposure, steps, 2, writes0, errors0);
    } else {
      SkippedStep(steps, 2);
      writes, errors := writes0, errors0;
    }
  }

  /**
   * The gain value of ApplyToDeviceBestEffort: written only when auto gain is
   * off; `rounded` is the gain rounded to an integer, its fallback form.
   */
  method ApplyGainValue(access: ParamAccess, desired: DesiredParams, rounded: int, ghost steps: seq<StepLog>,
                   writes0: seq<(TuningParam, ParamValue)>, errors0: seq<string>)
    returns (writes: seq<(TuningParam, ParamValue)>, errors: seq<string>)
    requires |steps| == 6
    requires steps[3] == if desired.gainAuto then SKIPPED
      else FallbackStep(access, KEY_GAIN, RealValue(desired.gain), IntValue(rounded))
    requires writes0 == WritesUpTo(steps, 3) && errors0 == ErrorsUpTo(steps, 3)
    ensures writes == WritesUpTo(steps, 4) && errors == ErrorsUpTo(steps, 4)
  {
    if !desired.gainAuto {
      writes, errors := ApplyWithFallback(access, KEY_GAIN, RealValue(desired.gain),
                                          IntValue(rounded), Gain, steps, 4, writes0, errors0);
    } else {
      SkippedStep(steps, 4);
      writes, errors := writes0, errors0;
    }
  }

  /** The gamma section of ApplyToDeviceBestEffort: the enable flag, then the gamma when enabled. */
  method ApplyGamma(access: ParamAccess, desired: DesiredParams, gammaText: string, ghost steps: seq<StepLog>,
                    writes0: seq<(TuningParam, ParamValue)>, errors0: seq<string>)
    returns (writes: seq<(TuningParam, ParamValue)>, errors: seq<string>)
    requires |steps| == 6
    requires steps[4] == FallbackStep(access, KEY_GAMMA_ENABLE, BoolValue(desired.gammaEnable),
                                      IntValue(if desired.gammaEnable then 1 else 0))
    requires steps[5] == if desired.gammaEnable then FallbackStep(access, KEY_GAMMA, RealValue(desired.gamma), StrValue(gammaText))
      else SKIPPED
    requires writes0 == WritesUpTo(steps, 4) && errors0 == ErrorsUpTo(steps, 4)
    ensures writes == WritesUpTo(steps, |steps|) && errors == ErrorsUpTo(steps, |steps|)
  {
    writes, errors := ApplyWithFallback(access, KEY_GAMMA_ENABLE, BoolValue(desired.gammaEnable),
                                        IntValue(if desired.gammaEnable then 1 else 0), GammaEnable, steps, 5, writes0, errors0);
    if desired.gammaEnable {
      writes, errors := ApplyWithFallback(access, KEY_GAMMA, RealValue(desired.gamma), StrValue(gammaText),
                                          Gamma, steps, 6, writes, errors);
    } else {
      SkippedStep(steps, 6);
    }
  }

  /** One auto flag of ApplyToDeviceBestEffort: TrySetAuto, then its error reported. */
  method ApplyAuto(access: ParamAccess, key: string, enabled: bool, p: TuningParam,
                   ghost steps: seq<StepLog>, ghost n: nat,
                   writes0: seq<(TuningParam, ParamValue)>, errors0: seq<string>)
    returns (writes: seq<(TuningParam, ParamValue)>, errors: seq<string>)
    requires 0 < n <= |steps| <= 6 && Rank(p) == n - 1 && steps[n - 1] == AutoStep(access, key, enabled)
    requires writes0 == WritesUpTo(steps, n - 1) && errors0 == ErrorsUpTo(steps, n - 1)
    ensures writes == WritesUpTo(steps, n) && errors == ErrorsUpTo(steps, n)
  {
    var ok, err, tried := TrySetAuto(access, key, enabled);
    NextStep(steps, n, p, StepLog(tried, err), writes0, errors0);
    writes := writes0 + Tagged(p, tried);
    errors := Report(errors0, p, err);
  }

  /** One value of ApplyToDeviceBestEffort: written with its fallback form, then its error reported. */
  method ApplyWithFallback(access: ParamAccess, key: string, first: ParamValue, second: ParamValue, p: TuningParam,
                           ghost steps: seq<StepLog>, ghost n: nat,
                           writes0: seq<(TuningParam, ParamValue)>, errors0: seq<string>)
    returns (writes: seq<(TuningParam, ParamValue)>, errors: seq<string>)
    requires 0 < n <= |steps| <= 6 && Rank(p) == n - 1 && steps[n - 1] == FallbackStep(access, key, first, second)
    requires writes0 == WritesUpTo(steps, n - 1) && errors0 == ErrorsUpTo(steps, n - 1)
    ensures writes == WritesUpTo(steps, n) && errors == ErrorsUpTo(steps, n)
  {
    var err, tried := SetWithFallback(access, key, first, second);
    NextStep(steps, n, p, StepLog(tried, err), writes0, errors0);
    writes := writes0 + Tagged(p, tried);
    errors := Report(errors0, p, err);
  }

  // ---------------------------------------------------------------------
  // The window
  // ---------------------------------------------------------------------

  class CameraTuningForm {
    const camName: string
    var camConfig: CameraConfig

    constructor(camName: string, camConfig: CameraConfig)
      ensures this.camName == camName && this.camConfig == camConfig
    {
      this.camName := camName;
      this.camConfig := camConfig;
    }

    /**
     * PersistToConfig, run when the window closes: nothing is written while
     * production is locked; otherwise the six entries go into the camera's
     * FramegrabberParams, and the stored settings `loaded` get the same
     * parameters in the slot named like the camera, which is what is saved
     * (nothing is saved when no slot has that name).
     */
    method PersistToConfig(productionLocked: bool, ui: DesiredParams, gainText: string, gammaText: string,
                           loaded: CameraSettings) returns (saved: Option<CameraSettings>)
      requires |loaded| == SLOT_COUNT
      modifies this
      ensures productionLocked ==> camConfig == old(camConfig) && saved.None?
      ensures !productionLocked ==>
        camConfig == old(camConfig).(framegrabberParams := PersistedParams(old(camConfig).framegrabberParams, ui, gainText, gammaText))
      ensures !productionLocked ==> saved == match GetConfigByName(camName)
        case Some(i) => Some(loaded[i := loaded[i].(framegrabberParams := camConfig.framegrabberParams)])
        case None => None
    {
      if productionLocked {
        return None;
      }
      var dict := camConfig.framegrabberParams;
      dict := dict[KEY_EXPOSURE_AUTO := OnOff(ui.expAuto)];
      dict := dict[KEY_EXPOSURE := IntToString(ui.exposure)];
      dict := dict[KEY_GAIN_AUTO := OnOff(ui.gainAuto)];
      dict := dict[KEY_GAIN := gainText];
      dict := dict[KEY_GAMMA_ENABLE := OnOff(ui.gammaEnable)];
      dict := dict[KEY_GAMMA := gammaText];
      camConfig := camConfig.(framegrabberParams := dict);
      var target := GetConfigByName(camName);
      if target.Some? {
        var i := target.value;
        saved := Some(loaded[i := loaded[i].(framegrabberParams := dict)]);
      } else {
        saved := None;
      }
    }
  }
}
