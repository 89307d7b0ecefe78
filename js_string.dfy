/** The one string builtin the scripts rely on: `String.prototype.indexOf`. */
module JsString {

  /** `sub` occurs in `s` at position `i`. */
  predicate OccursAt(s: string, sub: string, i: int)
  {
    0 <= i && i + |sub| <= |s| && s[i..i + |sub|] == sub
  }

  /** The first occurrence of `sub` in `s` at or after `from`, or -1. */
  function IndexOfFrom(s: string, sub: string, from: nat): (r: int)
    requires from <= |s| + 1
    decreases |s| + 1 - from
    ensures r == -1 || (from <= r && OccursAt(s, sub, r))
    ensures r == -1 ==> forall j :: from <= j <= |s| ==> !OccursAt(s, sub, j)
    ensures r != -1 ==> forall j :: from <= j < r ==> !OccursAt(s, sub, j)
  {
    if from + |sub| > |s| then -1
    else if s[from..from + |sub|] == sub then from
    else IndexOfFrom(s, sub, from + 1)
  }

  /** `s.indexOf(sub)`: the index of the first occurrence of `sub` in `s`, or -1 when there is none. */
  function IndexOf(s: string, sub: string): (r: int)
    ensures -1 <= r <= |s|
    ensures r == -1 <==> forall j :: 0 <= j <= |s| ==> !OccursAt(s, sub, j)
    ensures r != -1 ==> OccursAt(s, sub, r) && forall j :: 0 <= j < r ==> !OccursAt(s, sub, j)
  {
    IndexOfFrom(s, sub, 0)
  }

  /** `s.indexOf(p) == 0` exactly when `p` is a prefix of `s`. */
  lemma IndexOfZeroIffPrefix(s: string, p: string)
    ensures IndexOf(s, p) == 0 <==> p <= s
  {
  }

  /**
   * `s.indexOf("_") <= 0` exactly when `s` has no underscore or starts with
   * one: the underscore is absent, or its first occurrence is at index 0.
   */
  lemma IndexOfUnderscoreAtMostZero(s: string)
    ensures IndexOf(s, "_") <= 0 <==> ('_' !in s || s[0] == '_')
  {
    var r := IndexOf(s, "_");
    if '_' in s {
      var k :| 0 <= k < |s| && s[k] == '_';
      assert s[k..k + 1] == "_";
      assert OccursAt(s, "_", k);
      assert r != -1;
      assert s[r..r + 1] == "_";
      if s[0] == '_' {
        assert s[0..1] == "_";
        assert OccursAt(s, "_", 0);
      }
    }
  }
}
