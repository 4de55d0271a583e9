/** Small facts about strings shared by the address and path models. */
module Text {
  import opened Wrappers

  /** The position of the last occurrence of `c` in `s`, if any. */
  function LastIndex(s: string, c: char): (r: Option<nat>)
    ensures r.Some? ==> r.value < |s| && s[r.value] == c
    ensures r.Some? ==> forall j :: r.value < j < |s| ==> s[j] != c
    ensures r.None? ==> forall j :: 0 <= j < |s| ==> s[j] != c
    decreases |s|
  {
    if s == [] then None
    else if s[|s| - 1] == c then Some(|s| - 1)
    else LastIndex(s[..|s| - 1], c)
  }

  /** When `c` does not occur in `suffix`, the last `c` of `prefix + [c] + suffix` is the joint. */
  lemma {:induction false} LastIndexAtJoint(prefix: string, c: char, suffix: string)
    requires forall j :: 0 <= j < |suffix| ==> suffix[j] != c
    ensures LastIndex(prefix + [c] + suffix, c) == Some(|prefix|)
    decreases |suffix|
  {
    var s := prefix + [c] + suffix;
    if suffix == [] {
      assert s == prefix + [c];
    } else {
      var shorter := suffix[..|suffix| - 1];
      assert s[..|s| - 1] == prefix + [c] + shorter;
      assert s[|s| - 1] == suffix[|suffix| - 1];
      LastIndexAtJoint(prefix, c, shorter);
    }
  }
}
