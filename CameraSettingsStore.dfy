/**
 * Persistence of the six camera slots, with the start-up self-heal that
 * keeps one physical camera (its interface plus device string) from being
 * assigned to two slots.
 *
 * The JSON file is the `file` field of the store (None when there is no
 * file), a failed atomic write is the `writeOk` input, and the global
 * production lock is the `locked` input.
 */
module CameraSettingsStore {
  import opened Wrappers
  import opened Text
  import opened Models
  import opened HalconCameraHelper
  import opened UniqueKeys

  const SAVE_LOCKED_MESSAGE: string := "生产模式锁定：禁止保存参数。请切换到 MOCK 后再保存。"

  /**
   * The identity of the physical camera a slot points at, "ifName::device"
   * with the device trimmed; "" when the device is blank or "default".
   */
  function BuildKey(cfg: CameraConfig): (key: string)
    ensures key == "" <==> IsBlank(cfg.device) || EqualsIgnoreCase(Trim(cfg.device), DEFAULT_DEVICE)
    ensures key != "" ==> key == ToHalconInterfaceName(cfg.interfaceType) + "::" + Trim(cfg.device)
  {
    var dev := Trim(cfg.device);
    TrimKeepsBlankness(cfg.device);
    if IsBlank(dev) || EqualsIgnoreCase(dev, DEFAULT_DEVICE) then ""
    else ToHalconInterfaceName(cfg.interfaceType) + "::" + dev
  }

  // ---------------------------------------------------------------------
  // The heal over the six slots
  // ---------------------------------------------------------------------

  /** The slot's key as the OrdinalIgnoreCase set compares it ("" when it has none). */
  function Key(cfg: CameraConfig): (k: string)
    ensures k == "" <==> BuildKey(cfg) == ""
  {
    Fold(BuildKey(cfg))
  }

  /**
   * The heal below is stated for any slot identity `key` that a cleared
   * device erases; Key is such an identity (KeyForgets).
   */
  ghost predicate Forgets(key: CameraConfig -> string) {
    forall c: CameraConfig :: key(c.(device := "")) == ""
  }

  lemma KeyForgets()
    ensures Forgets(Key)
  {
    forall c: CameraConfig ensures Key(c.(device := "")) == "" {
      assert IsBlank(c.(device := "").device);
    }
  }

  function SlotKeys(s: seq<CameraConfig>, key: CameraConfig -> string): (keys: seq<string>)
    ensures |keys| == |s|
    ensures forall i :: 0 <= i < |s| ==> keys[i] == key(s[i])
  {
    seq(|s|, i requires 0 <= i < |s| => key(s[i]))
  }

  /** The slot after the heal: cleared when its key repeats an earlier slot's. */
  function HealAt(s: seq<CameraConfig>, i: int, key: CameraConfig -> string): CameraConfig
    requires 0 <= i < |s|
  {
    if RepeatAt(SlotKeys(s, key), i) then s[i].(device := "") else s[i]
  }

  /**
   * The slots after EnsureUniqueDevices: the earliest slot with a key keeps
   * its device, every later slot with the same key has its device cleared.
   */
  function Healed(s: seq<CameraConfig>, key: CameraConfig -> string): (t: seq<CameraConfig>)
    ensures |t| == |s|
    ensures forall i :: 0 <= i < |s| ==> t[i] == HealAt(s, i, key)
  {
    seq(|s|, i requires 0 <= i < |s| => HealAt(s, i, key))
  }

  /** Some slot repeats the key of an earlier one. */
  predicate HasDuplicate(s: seq<CameraConfig>, key: CameraConfig -> string) {
    exists j :: 0 <= j < |s| && RepeatAt(SlotKeys(s, key), j)
  }

  // ---------------------------------------------------------------------
  // Properties of the heal
  // ---------------------------------------------------------------------

  /** The keys of the healed slots are the healed keys. */
  lemma HealedSlotKeys(s: seq<CameraConfig>, key: CameraConfig -> string)
    requires Forgets(key)
    ensures SlotKeys(Healed(s, key), key) == HealKeys(SlotKeys(s, key))
  {
    forall i | 0 <= i < |s| ensures SlotKeys(Healed(s, key), key)[i] == HealKeys(SlotKeys(s, key))[i] {
      assert key(s[i].(device := "")) == "";
    }
  }

  /** After the heal no two slots share a non-empty key. */
  lemma HealedIsUnique(s: seq<CameraConfig>, key: CameraConfig -> string)
    requires Forgets(key)
    ensures DistinctKeys(SlotKeys(Healed(s, key), key))
  {
    HealedSlotKeys(s, key);
    HealKeysAreDistinct(SlotKeys(s, key));
  }

  /** The heal changes something exactly when some slot repeats an earlier key. */
  lemma HealChangesIffDuplicate(s: seq<CameraConfig>, key: CameraConfig -> string)
    requires Forgets(key)
    ensures Healed(s, key) != s <==> HasDuplicate(s, key)
  {
    var keys := SlotKeys(s, key);
    if HasDuplicate(s, key) {
      var j :| 0 <= j < |s| && RepeatAt(keys, j);
      assert key(s[j].(device := "")) == "";
      assert Healed(s, key)[j] != s[j];
    } else {
      assert forall i :: 0 <= i < |s| ==> Healed(s, key)[i] == s[i];
    }
  }

  /** Healing twice is healing once: a second call finds nothing to clear. */
  lemma HealIdempotent(s: seq<CameraConfig>, key: CameraConfig -> string)
    requires Forgets(key)
    ensures Healed(Healed(s, key), key) == Healed(s, key)
    ensures !HasDuplicate(Healed(s, key), key)
  {
    HealedIsUnique(s, key);
    DistinctHasNoRepeat(SlotKeys(Healed(s, key), key));
    HealChangesIffDuplicate(Healed(s, key), key);
  }

  /**
   * The heal keeps every slot that does not repeat an earlier key (so the
   * earliest slot of each key and every slot without a key), and loses no
   * physical camera: each key of the input is still held, by its earliest
   * slot, after the heal.
   */
  lemma HealKeepsFirst(s: seq<CameraConfig>, key: CameraConfig -> string)
    ensures forall i :: 0 <= i < |s| && !RepeatAt(SlotKeys(s, key), i) ==> Healed(s, key)[i] == s[i]
    ensures forall i :: 0 <= i < |s| && key(s[i]) != "" ==>
      exists j :: 0 <= j <= i && Healed(s, key)[j] == s[j] && key(s[j]) == key(s[i])
  {
    var keys := SlotKeys(s, key);
    forall i | 0 <= i < |s| && key(s[i]) != ""
      ensures exists j :: 0 <= j <= i && Healed(s, key)[j] == s[j] && key(s[j]) == key(s[i])
    {
      FirstOccurrence(keys, i);
    }
  }

  // ---------------------------------------------------------------------
  // The heal in place
  // ---------------------------------------------------------------------

  /**
   * EnsureUniqueDevices: scans the slots in order with a set of seen keys
   * and clears the device of every slot whose key was already seen.
   */
  method EnsureUniqueDevices(slots: array<CameraConfig>) returns (changed: bool)
    modifies slots
    ensures slots[..] == Healed(old(slots[..]), Key)
    ensures changed <==> HasDuplicate(old(slots[..]), Key)
  {
    changed := HealInPlace(slots, Key);
  }

  /** The scan of EnsureUniqueDevices, for a given slot identity. */
  method HealInPlace(slots: array<CameraConfig>, key: CameraConfig -> string) returns (changed: bool)
    modifies slots
    ensures slots[..] == Healed(old(slots[..]), key)
    ensures changed <==> HasDuplicate(old(slots[..]), key)
  {
    ghost var orig := slots[..];
    ghost var keys := SlotKeys(orig, key);
    var seen: set<string> := {};
    changed := false;
    var i := 0;
    while i < slots.Length
      invariant 0 <= i <= slots.Length
      invariant forall k :: 0 <= k < i ==> slots[k] == HealAt(orig, k, key)
      invariant forall k :: i <= k < slots.Length ==> slots[k] == orig[k]
      invariant seen == SeenSet(keys[..i])
      invariant changed <==> exists j :: 0 <= j < i && RepeatAt(keys, j)
    {
      var cleared;
      seen, cleared := VisitSlot(slots, i, key, seen, orig);
      changed := changed || cleared;
      i := i + 1;
    }
    assert forall k :: 0 <= k < slots.Length ==> slots[..][k] == Healed(orig, key)[k];
  }

  /** One step of the scan: slot `i` is checked against the keys seen before it. */
  method VisitSlot(slots: array<CameraConfig>, i: int, key: CameraConfig -> string,
                   seen: set<string>, ghost orig: seq<CameraConfig>)
    returns (seen': set<string>, cleared: bool)
    requires 0 <= i < slots.Length == |orig| && slots[i] == orig[i]
    requires seen == SeenSet(SlotKeys(orig, key)[..i])
    modifies slots
    ensures slots[i] == HealAt(orig, i, key)
    ensures forall j :: 0 <= j < slots.Length && j != i ==> slots[j] == old(slots[j])
    ensures seen' == SeenSet(SlotKeys(orig, key)[..i + 1])
    ensures cleared <==> RepeatAt(SlotKeys(orig, key), i)
  {
    var cfg := slots[i];
    var k := key(cfg);
    ScanStep(SlotKeys(orig, key), i, seen);
    seen', cleared := seen, false;
    // HashSet.Add fails exactly for a key that was already seen.
    if k != "" && k in seen {
      slots[i] := cfg.(device := "");
      cleared := true;
    } else if k != "" {
      seen' := seen + {k};
    }
  }

  // ---------------------------------------------------------------------
  // The store
  // ---------------------------------------------------------------------

  /** What Load does after reading and healing: whether it writes the healed settings back. */
  predicate WritesBack(changed: bool, locked: bool) {
    changed && !locked
  }

  class SettingsStore {
    /** The settings file: None when it does not exist. */
    var file: Option<CameraSettings>

    constructor(initial: Option<CameraSettings>)
      ensures file == initial
    {
      file := initial;
    }

    /** Save refuses under the production lock and then writes nothing. */
    method Save(settings: CameraSettings, locked: bool, writeOk: bool) returns (error: Option<string>)
      modifies this
      ensures locked ==> error == Some(SAVE_LOCKED_MESSAGE) && file == old(file)
      ensures !locked && writeOk ==> error.None? && file == Some(settings)
      ensures !locked && !writeOk ==> error.Some? && file == old(file)
    {
      if locked {
        return Some(SAVE_LOCKED_MESSAGE);
      }
      if !writeOk {
        return Some("write failed");
      }
      file := Some(settings);
      return None;
    }

    /**
     * Load: the defaults without a file; otherwise the healed settings,
     * written back only when the heal changed something and the app is not
     * locked. A failed write is ignored and the healed settings are still
     * returned.
     */
    method Load(locked: bool, writeOk: bool) returns (settings: CameraSettings)
      modifies this
      ensures old(file).None? ==> settings == DefaultCameraSettings() && file == old(file)
      ensures old(file).Some? ==> settings == Healed(old(file).value, Key)
      ensures old(file).Some? && WritesBack(HasDuplicate(old(file).value, Key), locked) && writeOk ==> file == Some(settings)
      ensures old(file).Some? && !(WritesBack(HasDuplicate(old(file).value, Key), locked) && writeOk) ==> file == old(file)
    {
      if file.None? {
        return DefaultCameraSettings();
      }
      var stored := file.value;
      var slots := new CameraConfig[|stored|](i requires 0 <= i < |stored| => stored[i]);
      assert slots[..] == stored;
      var changed := EnsureUniqueDevices(slots);
      settings := slots[..];
      if changed && !locked {
        var _ := Save(settings, locked, writeOk);
      }
    }
  }
}
