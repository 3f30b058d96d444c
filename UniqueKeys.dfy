/**
 * The scan both start-up self-heals share: walk a list of keys in order
 * with a set of the keys seen so far, and treat a key that is already in
 * the set as a repeat. The empty key "" stands for "no key" and is never
 * a repeat.
 */
module UniqueKeys {

  /** The keys of `keys` that are not "": the contents of the `seen` set after scanning them. */
  function SeenSet(keys: seq<string>): set<string>
    decreases |keys|
  {
    if keys == [] then {}
    else SeenSet(keys[..|keys| - 1]) + (if keys[|keys| - 1] != "" then {keys[|keys| - 1]} else {})
  }

  lemma {:induction false} SeenSetMembership(keys: seq<string>, k: string)
    ensures k in SeenSet(keys) <==> k != "" && k in keys
    decreases |keys|
  {
    if keys != [] {
      var init := keys[..|keys| - 1];
      SeenSetMembership(init, k);
      assert keys == init + [keys[|keys| - 1]];
    }
  }

  /** Position `j` repeats a key of an earlier position. */
  predicate RepeatAt(keys: seq<string>, j: int)
    requires 0 <= j < |keys|
  {
    keys[j] != "" && keys[j] in keys[..j]
  }

  /** No non-empty key occurs twice. */
  predicate DistinctKeys(keys: seq<string>) {
    forall i, j :: 0 <= i < j < |keys| && keys[j] != "" ==> keys[i] != keys[j]
  }

  /** The keys after the heal: every repeat becomes "". */
  function HealKeys(keys: seq<string>): (r: seq<string>)
    ensures |r| == |keys|
  {
    seq(|keys|, i requires 0 <= i < |keys| => if RepeatAt(keys, i) then "" else keys[i])
  }

  lemma HealKeysAreDistinct(keys: seq<string>)
    ensures DistinctKeys(HealKeys(keys))
  {
    var h := HealKeys(keys);
    forall i, j | 0 <= i < j < |h| && h[j] != "" ensures h[i] != h[j] {
      assert keys[..j][i] == keys[i];
    }
  }

  lemma DistinctHasNoRepeat(keys: seq<string>)
    requires DistinctKeys(keys)
    ensures forall j :: 0 <= j < |keys| ==> !RepeatAt(keys, j)
  {
  }

  /** Every non-empty key has a first occurrence at or before any of its positions, and that one is no repeat. */
  lemma {:induction false} FirstOccurrence(keys: seq<string>, i: int)
    requires 0 <= i < |keys| && keys[i] != ""
    ensures exists j :: 0 <= j <= i && keys[j] == keys[i] && !RepeatAt(keys, j)
    decreases i
  {
    if RepeatAt(keys, i) {
      var k :| 0 <= k < i && keys[..i][k] == keys[i];
      FirstOccurrence(keys, k);
    }
  }

  /** The scan's decision for position `i`, taken on the `seen` set of the keys before it. */
  lemma ScanStep(keys: seq<string>, i: int, seen: set<string>)
    requires 0 <= i < |keys| && seen == SeenSet(keys[..i])
    ensures RepeatAt(keys, i) <==> keys[i] != "" && keys[i] in seen
    ensures SeenSet(keys[..i + 1]) == seen + (if keys[i] != "" then {keys[i]} else {})
  {
    assert keys[..i + 1][..i] == keys[..i];
    SeenSetMembership(keys[..i], keys[i]);
  }
}
