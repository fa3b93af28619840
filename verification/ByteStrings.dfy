/** Byte strings and the few `str` operations the proxy relies on.  Text is modelled
    as its UTF-8 bytes: every delimiter the code looks for is ASCII. */
module ByteStrings {

  type byte = b: int | 0 <= b < 256

  type Str = seq<byte>

  datatype Option<+T> = None | Some(value: T)

  predicate EndsWith(value: Str, suffix: Str) {
    |suffix| <= |value| && value[|value| - |suffix|..] == suffix
  }

  /** `needle` occurs in `value` at offset `k`. */
  predicate OccursAt(value: Str, needle: Str, k: nat) {
    k + |needle| <= |value| && value[k..k + |needle|] == needle
  }

  /** The leftmost offset, no smaller than `from`, at which `needle` occurs. */
  function FindFrom(value: Str, needle: Str, from: nat): (r: Option<nat>)
    requires from <= |value|
    ensures r.Some? ==> from <= r.value && OccursAt(value, needle, r.value)
    ensures r.Some? ==> forall k | from <= k < r.value :: !OccursAt(value, needle, k)
    ensures r.None? ==> forall k | from <= k :: !OccursAt(value, needle, k)
    decreases |value| - from
  {
    if OccursAt(value, needle, from) then Some(from)
    else if from == |value| then None
    else FindFrom(value, needle, from + 1)
  }

  /** `str::find`. */
  function Find(value: Str, needle: Str): (r: Option<nat>)
    ensures r.Some? ==> OccursAt(value, needle, r.value)
    ensures r.Some? ==> forall k | 0 <= k < r.value :: !OccursAt(value, needle, k)
    ensures r.None? ==> forall k: nat :: !OccursAt(value, needle, k)
  {
    FindFrom(value, needle, 0)
  }

  lemma SliceOfSlice(s: Str, a: nat, b: nat, j: nat, n: nat)
    requires a <= b <= |s| && j + n <= b - a
    ensures s[a..b][j..j + n] == s[a + j..a + j + n]
  {
    var l, r := s[a..b][j..j + n], s[a + j..a + j + n];
    forall i | 0 <= i < n
      ensures l[i] == r[i]
    {
      assert s[a..b][j + i] == s[a + j + i];
    }
  }
}
