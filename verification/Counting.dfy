/** Counting the entries of a map that satisfy a predicate. */
module Counting {

  ghost function Having<T>(m: map<nat, T>, f: T -> bool): set<nat> {
    set x | x in m && f(m[x])
  }

  function One(b: bool): nat {
    if b then 1 else 0
  }

  lemma RemoveOne(a: set<nat>, x: nat)
    ensures |a| == |a - {x}| + One(x in a)
  {
  }

  lemma CardinalityMonotone(a: set<nat>, b: set<nat>)
    requires a <= b
    ensures |a| <= |b|
  {
    assert b == a + (b - a);
  }

  lemma HavingElsewhere<T>(m: map<nat, T>, x: nat, v: T, f: T -> bool)
    ensures Having(m[x := v], f) - {x} == Having(m, f) - {x}
  {
  }

  /** Replacing or adding one entry. */
  lemma HavingPut<T>(m: map<nat, T>, x: nat, v: T, f: T -> bool)
    ensures |Having(m[x := v], f)| == |Having(m, f)| - One(x in m && f(m[x])) + One(f(v))
  {
    HavingElsewhere(m, x, v, f);
    RemoveOne(Having(m, f), x);
    RemoveOne(Having(m[x := v], f), x);
  }

  /** Dropping one entry. */
  lemma HavingDrop<T>(m: map<nat, T>, x: nat, f: T -> bool)
    ensures |Having(m - {x}, f)| == |Having(m, f)| - One(x in m && f(m[x]))
  {
    assert Having(m - {x}, f) == Having(m, f) - {x};
    RemoveOne(Having(m, f), x);
  }

  lemma HavingSubset<T(!new)>(m: map<nat, T>, f: T -> bool, g: T -> bool)
    requires forall k :: f(k) ==> g(k)
    ensures Having(m, f) <= Having(m, g) && |Having(m, f)| <= |Having(m, g)|
  {
    CardinalityMonotone(Having(m, f), Having(m, g));
  }

  /** Counting by cases. */
  lemma HavingSplit<T(!new)>(m: map<nat, T>, whole: T -> bool, f: T -> bool, g: T -> bool)
    requires forall k :: whole(k) <==> f(k) || g(k)
    requires forall k :: !f(k) || !g(k)
    ensures |Having(m, whole)| == |Having(m, f)| + |Having(m, g)|
  {
    assert Having(m, whole) == Having(m, f) + Having(m, g);
    assert Having(m, f) !! Having(m, g);
  }
}
