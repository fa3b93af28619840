/** The glob compiler and matcher for one SPIFFE path segment. */
module SegmentGlobs {
  import opened ByteStrings

  const STAR: byte := 42

  /** The compiled shapes.  Offsets index into the pattern text. */
  datatype Kind =
    | Any
    | Exact
    | Prefix(end: nat)
    | Suffix(start: nat)
    | Contains(start: nat, end: nat)
    | PrefixSuffix(prefixEnd: nat, suffixStart: nat)
    | Multi(parts: seq<(nat, nat)>, anchoredStart: bool, anchoredEnd: bool)

  datatype SegmentGlob = SegmentGlob(pattern: Str, kind: Kind)

  /** The textbook meaning of a glob: `*` is any, possibly empty, string and every
      other byte stands for itself. */
  ghost predicate InGlob(pattern: Str, value: Str)
    decreases |pattern|
  {
    if pattern == [] then value == []
    else if pattern[0] == STAR then
      exists k | 0 <= k <= |value| :: InGlob(pattern[1..], value[k..])
    else
      value != [] && value[0] == pattern[0] && InGlob(pattern[1..], value[1..])
  }

  // -------------------------------------------------------------- compiling

  predicate StarFree(p: Str) {
    STAR !in p
  }

  predicate AnchoredStart(p: Str) {
    p != [] && p[0] != STAR
  }

  predicate AnchoredEnd(p: Str) {
    p != [] && p[|p| - 1] != STAR
  }

  ghost predicate NoStar(p: Str, from: nat, to: nat) {
    to <= |p| && forall k | from <= k < to :: p[k] != STAR
  }

  ghost predicate AllStars(p: Str, from: nat, to: nat) {
    to <= |p| && forall k | from <= k < to :: p[k] == STAR
  }

  /** Where the stars before part `k` begin. */
  ghost function GapFrom(parts: seq<(nat, nat)>, k: nat): nat
    requires k <= |parts|
  {
    if k == 0 then 0 else parts[k - 1].1
  }

  /** Where the stars before part `k` end; behind the last part they reach `n`. */
  ghost function GapTo(parts: seq<(nat, nat)>, k: nat, n: nat): nat
    requires k <= |parts|
  {
    if k < |parts| then parts[k].0 else n
  }

  /** Part `k` is a non-empty star-free run of `p[..n]`. */
  ghost predicate GoodPart(p: Str, n: nat, parts: seq<(nat, nat)>, k: nat)
    requires k < |parts|
  {
    parts[k].0 < parts[k].1 <= n && NoStar(p, parts[k].0, parts[k].1)
  }

  /** Before part `k` there are only stars, and at least one between two parts. */
  ghost predicate GoodGap(p: Str, n: nat, parts: seq<(nat, nat)>, k: nat)
    requires k <= |parts|
  {
    var from, to := GapFrom(parts, k), GapTo(parts, k, n);
    from <= to && AllStars(p, from, to) && (0 < k < |parts| ==> from < to)
  }

  /** `parts` are the maximal star-free runs of `p[..n]`, in order. */
  ghost predicate Splits(p: Str, n: nat, parts: seq<(nat, nat)>) {
    && n <= |p|
    && (forall k | 0 <= k < |parts| :: GoodPart(p, n, parts, k))
    && (forall k | 0 <= k <= |parts| :: GoodGap(p, n, parts, k))
  }

  lemma SplitsInBounds(p: Str, n: nat, parts: seq<(nat, nat)>)
    requires Splits(p, n, parts)
    ensures InBounds(p, parts)
  {
    forall k | 0 <= k < |parts|
      ensures parts[k].0 <= parts[k].1 <= |p|
    {
      assert GoodPart(p, n, parts, k);
    }
  }

  predicate InBounds(p: Str, parts: seq<(nat, nat)>) {
    forall k | 0 <= k < |parts| :: parts[k].0 <= parts[k].1 <= |p|
  }

  ghost function Literals(p: Str, parts: seq<(nat, nat)>): (ls: seq<Str>)
    requires InBounds(p, parts)
    ensures |ls| == |parts|
    ensures forall k | 0 <= k < |parts| :: ls[k] == p[parts[k].0..parts[k].1]
  {
    seq(|parts|, k requires 0 <= k < |parts| => p[parts[k].0..parts[k].1])
  }

  /** The shape for a pattern with at least one star. */
  function Choose(parts: seq<(nat, nat)>, anchoredStart: bool, anchoredEnd: bool): Kind {
    if |parts| == 0 then Any
    else if |parts| == 1 && anchoredStart then Prefix(parts[0].1)
    else if |parts| == 1 && anchoredEnd then Suffix(parts[0].0)
    else if |parts| == 1 then Contains(parts[0].0, parts[0].1)
    else if |parts| == 2 && anchoredStart && anchoredEnd then PrefixSuffix(parts[0].1, parts[1].0)
    else Multi(parts, anchoredStart, anchoredEnd)
  }

  /** The kind is the one that belongs to the pattern. */
  ghost predicate Valid(g: SegmentGlob) {
    if StarFree(g.pattern) then g.kind == Exact
    else exists parts ::
        && Splits(g.pattern, |g.pattern|, parts)
        && g.kind == Choose(parts, AnchoredStart(g.pattern), AnchoredEnd(g.pattern))
  }

  lemma SplitsExtend(p: Str, start: nat, i: nat, parts: seq<(nat, nat)>)
    requires start < i <= |p| && Splits(p, start, parts) && NoStar(p, start, i)
    requires start > 0 ==> p[start - 1] == STAR
    ensures Splits(p, i, parts + [(start, i)])
  {
    var more := parts + [(start, i)];
    forall k | 0 <= k < |more|
      ensures GoodPart(p, i, more, k)
    {
      if k < |parts| {
        assert GoodPart(p, start, parts, k);
      }
    }
    forall k | 0 <= k <= |more|
      ensures GoodGap(p, i, more, k)
    {
      if k <= |parts| {
        assert GoodGap(p, start, parts, k);
        if 0 < k == |parts| {
          assert GoodPart(p, start, parts, k - 1);
        }
      }
    }
  }

  lemma SplitsOverStar(p: Str, i: nat, parts: seq<(nat, nat)>)
    requires i < |p| && p[i] == STAR && Splits(p, i, parts)
    ensures Splits(p, i + 1, parts)
  {
    var n := i + 1;
    forall k | 0 <= k < |parts|
      ensures GoodPart(p, n, parts, k)
    {
      assert GoodPart(p, i, parts, k);
    }
    forall k | 0 <= k <= |parts|
      ensures GoodGap(p, n, parts, k)
    {
      assert GoodGap(p, i, parts, k);
    }
  }

  /** The splitting loop of `SegmentGlob::new`. */
  method SplitAtStars(pattern: Str) returns (parts: seq<(nat, nat)>)
    ensures Splits(pattern, |pattern|, parts)
  {
    parts := [];
    var start := 0;
    for i := 0 to |pattern|
      invariant start <= i
      invariant Splits(pattern, start, parts) && NoStar(pattern, start, i)
      invariant start > 0 ==> pattern[start - 1] == STAR
    {
      if pattern[i] == STAR {
        if start != i {
          SplitsExtend(pattern, start, i, parts);
          parts := parts + [(start, i)];
        }
        SplitsOverStar(pattern, i, parts);
        start := i + 1;
      }
    }
    if start != |pattern| {
      SplitsExtend(pattern, start, |pattern|, parts);
      parts := parts + [(start, |pattern|)];
    }
  }

  /** `SegmentGlob::new`. */
  method New(pattern: Str) returns (g: SegmentGlob)
    ensures g.pattern == pattern && Valid(g)
  {
    if StarFree(pattern) {
      return SegmentGlob(pattern, Exact);
    }
    var parts := SplitAtStars(pattern);
    g := SegmentGlob(pattern, Choose(parts, AnchoredStart(pattern), AnchoredEnd(pattern)));
  }

  // ------------------------------------------------- floating literal search

  /** The literals occur in `value[a..b]` one after another, without overlap. */
  ghost predicate Floats(ls: seq<Str>, value: Str, a: nat, b: nat)
    decreases |ls|
  {
    if ls == [] then a <= b
    else exists k: nat :: a <= k && OccursAt(value, ls[0], k) && Floats(ls[1..], value, k + |ls[0]|, b)
  }

  lemma {:induction false} FloatsFit(ls: seq<Str>, value: Str, a: nat, b: nat)
    requires Floats(ls, value, a, b)
    ensures a <= b
    decreases |ls|
  {
    if ls != [] {
      var k: nat :| a <= k && OccursAt(value, ls[0], k) && Floats(ls[1..], value, k + |ls[0]|, b);
      FloatsFit(ls[1..], value, k + |ls[0]|, b);
    }
  }

  /** Taking the leftmost occurrence loses nothing. */
  lemma GreedyIsComplete(ls: seq<Str>, value: Str, a: nat, b: nat, k: nat)
    requires ls != [] && a <= k && OccursAt(value, ls[0], k)
    requires forall j | a <= j < k :: !OccursAt(value, ls[0], j)
    ensures Floats(ls, value, a, b) <==> Floats(ls[1..], value, k + |ls[0]|, b)
  {
  }

  /** `value[a..]` reads `*` l0 `*` ... `*` ln, followed by `*` unless the last
      literal is anchored at the end. */
  ghost predicate Search(ls: seq<Str>, toEnd: bool, value: Str, a: nat) {
    if toEnd then
      ls != [] &&
      var last := ls[|ls| - 1];
      EndsWith(value, last) && Floats(ls[..|ls| - 1], value, a, |value| - |last|)
    else Floats(ls, value, a, |value|)
  }

  lemma SearchStep(ls: seq<Str>, toEnd: bool, value: Str, a: nat)
    requires ls != [] && (toEnd ==> |ls| > 1)
    ensures Search(ls, toEnd, value, a) <==>
            exists k: nat :: a <= k && OccursAt(value, ls[0], k) && Search(ls[1..], toEnd, value, k + |ls[0]|)
  {
    if toEnd {
      var front, n := ls[..|ls| - 1], |ls| - 1;
      assert ls[1..][..n - 1] == front[1..] && front[0] == ls[0] && ls[1..][n - 1] == ls[n];
      var b := |value| - |ls[n]|;
      if Search(ls, toEnd, value, a) {
        var k: nat :| a <= k && OccursAt(value, front[0], k) && Floats(front[1..], value, k + |front[0]|, b);
        assert Search(ls[1..], toEnd, value, k + |ls[0]|);
      }
      if k: nat :| a <= k && OccursAt(value, ls[0], k) && Search(ls[1..], toEnd, value, k + |ls[0]|) {
        assert a <= k && OccursAt(value, front[0], k) && Floats(front[1..], value, k + |front[0]|, b);
      }
    } else {
      if Search(ls, toEnd, value, a) {
        var k: nat :| a <= k && OccursAt(value, ls[0], k) && Floats(ls[1..], value, k + |ls[0]|, |value|);
        assert Search(ls[1..], toEnd, value, k + |ls[0]|);
      }
      if k: nat :| a <= k && OccursAt(value, ls[0], k) && Search(ls[1..], toEnd, value, k + |ls[0]|) {
        assert a <= k && OccursAt(value, ls[0], k) && Floats(ls[1..], value, k + |ls[0]|, |value|);
      }
    }
  }

  // --------------------------------------------- from the meaning to the parts

  /** A star-free head of the pattern must be a prefix of the value. */
  lemma {:induction false} LiteralHead(p: Str, n: nat, value: Str)
    requires n <= |p| && NoStar(p, 0, n)
    ensures InGlob(p, value) <==> p[..n] <= value && InGlob(p[n..], value[n..])
  {
    if n == 0 {
      assert p[0..] == p && value[0..] == value;
    } else {
      if value != [] && value[0] == p[0] {
        LiteralHead(p[1..], n - 1, value[1..]);
        assert p[1..][n - 1..] == p[n..];
        if p[..n] <= value {
          assert p[1..][..n - 1] <= value[1..];
        }
        if p[1..][..n - 1] <= value[1..] {
          assert value[1..][n - 1..] == value[n..];
          assert p[..n] == [p[0]] + p[1..][..n - 1];
          assert value == [value[0]] + value[1..];
        }
      }
    }
  }

  /** What remains of the pattern behind a star, matched somewhere in `value[a..]`. */
  ghost predicate BehindStar(p: Str, start: nat, value: Str, a: nat)
    requires start <= |p|
  {
    exists k | a <= k <= |value| :: InGlob(p[start..], value[k..])
  }

  /** A run of literal bytes and then a star, matched at offset `k`. */
  lemma RunThenStar(p: Str, start: nat, e: nat, value: Str, k: nat)
    requires start <= e < |p| && p[e] == STAR && NoStar(p, start, e) && k <= |value|
    ensures InGlob(p[start..], value[k..]) <==>
            OccursAt(value, p[start..e], k) && BehindStar(p, e + 1, value, k + (e - start))
  {
    var n := e - start;
    assert p[start..][..n] == p[start..e] && p[start..][n..] == p[e..];
    LiteralHead(p[start..], n, value[k..]);
    assert p[start..e] <= value[k..] <==> OccursAt(value, p[start..e], k) by {
      if k + n <= |value| {
        assert value[k..][..n] == value[k..k + n];
      }
    }
    if OccursAt(value, p[start..e], k) {
      assert value[k..][n..] == value[k + n..];
      StarHere(p, e, value, k + n);
    }
  }

  lemma StarHere(p: Str, e: nat, value: Str, k: nat)
    requires e < |p| && p[e] == STAR && k <= |value|
    ensures InGlob(p[e..], value[k..]) <==> BehindStar(p, e + 1, value, k)
  {
    assert p[e..][1..] == p[e + 1..];
    if InGlob(p[e..], value[k..]) {
      var j :| 0 <= j <= |value[k..]| && InGlob(p[e..][1..], value[k..][j..]);
      assert value[k..][j..] == value[k + j..];
    }
    if j :| k <= j <= |value| && InGlob(p[e + 1..], value[j..]) {
      assert value[k..][j - k..] == value[j..];
    }
  }

  /** Behind a star, the glob meaning is the search of the literals `ls`. */
  ghost predicate MeansSearch(p: Str, start: nat, ls: seq<Str>, toEnd: bool, value: Str)
    requires start <= |p|
  {
    forall a: nat | a <= |value| :: BehindStar(p, start, value, a) <==> Search(ls, toEnd, value, a)
  }

  /** Position `start` lies behind part `k - 1` and not behind part `k`. */
  ghost predicate Between(p: Str, parts: seq<(nat, nat)>, k: nat, start: nat) {
    && k <= |parts|
    && (k == 0 || parts[k - 1].1 < start)
    && start <= GapTo(parts, k, |p|)
  }

  /** By induction over the pattern: behind a star, it means the search of its remaining parts. */
  lemma {:induction false} BehindStarIsSearch(p: Str, parts: seq<(nat, nat)>, k: nat, start: nat, value: Str)
    requires Splits(p, |p|, parts) && InBounds(p, parts) && Between(p, parts, k, start)
    ensures MeansSearch(p, start, Literals(p, parts)[k..], start < |p| && AnchoredEnd(p), value)
    decreases |p| - start
  {
    var ls := Literals(p, parts);
    var gap := GapTo(parts, k, |p|);
    assert GoodGap(p, |p|, parts, k);
    assert k < |parts| ==> GoodPart(p, |p|, parts, k);
    if start == |p| {
      assert ls[k..] == [];
      NothingLeft(p, value);
    } else if start < gap {
      BehindStarIsSearch(p, parts, k, start + 1, value);
      StarIsSearch(p, start, ls[k..], AnchoredEnd(p), value);
    } else {
      if parts[k].1 < |p| {
        PartEndsAtStar(p, parts, k);
        BehindStarIsSearch(p, parts, k + 1, parts[k].1 + 1, value);
      }
      PartIsSearch(p, parts, k, ls, value);
    }
  }

  lemma PartEndsAtStar(p: Str, parts: seq<(nat, nat)>, k: nat)
    requires Splits(p, |p|, parts) && k < |parts|
    ensures k + 1 == |parts| || parts[k].1 < |p|
    ensures parts[k].1 < |p| ==> p[parts[k].1] == STAR && Between(p, parts, k + 1, parts[k].1 + 1)
  {
    assert GoodGap(p, |p|, parts, k + 1);
    assert k + 1 < |parts| ==> GoodPart(p, |p|, parts, k + 1);
  }

  lemma PartIsSearch(p: Str, parts: seq<(nat, nat)>, k: nat, ls: seq<Str>, value: Str)
    requires Splits(p, |p|, parts) && InBounds(p, parts) && k < |parts| && ls == Literals(p, parts)
    requires var e := parts[k].1;
             e < |p| ==> MeansSearch(p, e + 1, ls[k + 1..], e + 1 < |p| && AnchoredEnd(p), value)
    ensures MeansSearch(p, parts[k].0, ls[k..], AnchoredEnd(p), value)
  {
    var start, e := parts[k].0, parts[k].1;
    assert GoodPart(p, |p|, parts, k);
    PartEndsAtStar(p, parts, k);
    LastPartAnchored(p, parts);
    if e == |p| {
      assert ls[k..] == [p[start..|p|]];
      LastRun(p, start, value);
    } else {
      assert ls[k..][1..] == ls[k + 1..];
      RunIsSearch(p, start, e, ls[k..], AnchoredEnd(p), value);
    }
  }

  lemma LastPartAnchored(p: Str, parts: seq<(nat, nat)>)
    requires Splits(p, |p|, parts) && p != []
    ensures AnchoredEnd(p) <==> parts != [] && parts[|parts| - 1].1 == |p|
  {
    var n := |parts|;
    assert GoodGap(p, |p|, parts, n);
    if n > 0 {
      assert GoodPart(p, |p|, parts, n - 1);
    }
  }

  lemma FirstPartAnchored(p: Str, parts: seq<(nat, nat)>)
    requires Splits(p, |p|, parts) && p != []
    ensures AnchoredStart(p) <==> parts != [] && parts[0].0 == 0
  {
    assert GoodGap(p, |p|, parts, 0);
    if parts != [] {
      assert GoodPart(p, |p|, parts, 0);
    }
  }

  lemma NothingLeft(p: Str, value: Str)
    ensures MeansSearch(p, |p|, [], false, value)
  {
    assert InGlob(p[|p|..], value[|value|..]);
  }

  /** A run of literal bytes and then a star. */
  lemma RunIsSearch(p: Str, start: nat, e: nat, ls: seq<Str>, toEnd: bool, value: Str)
    requires start < e < |p| && p[e] == STAR && NoStar(p, start, e)
    requires ls != [] && ls[0] == p[start..e] && (toEnd ==> |ls| > 1)
    requires MeansSearch(p, e + 1, ls[1..], toEnd, value)
    ensures MeansSearch(p, start, ls, toEnd, value)
  {
    forall a: nat | a <= |value|
      ensures BehindStar(p, start, value, a) <==> Search(ls, toEnd, value, a)
    {
      SearchStep(ls, toEnd, value, a);
      if k :| a <= k <= |value| && InGlob(p[start..], value[k..]) {
        RunThenStar(p, start, e, value, k);
        assert BehindStar(p, e + 1, value, k + |ls[0]|);
      }
      if k: nat :| a <= k && OccursAt(value, ls[0], k) && Search(ls[1..], toEnd, value, k + |ls[0]|) {
        RunThenStar(p, start, e, value, k);
        assert InGlob(p[start..], value[k..]);
      }
    }
  }

  /** Two stars in a row are one star. */
  lemma StarIsSearch(p: Str, start: nat, ls: seq<Str>, toEnd: bool, value: Str)
    requires start < |p| && p[start] == STAR && MeansSearch(p, start + 1, ls, toEnd, value)
    ensures MeansSearch(p, start, ls, toEnd, value)
  {
    forall a: nat | a <= |value|
      ensures BehindStar(p, start, value, a) <==> BehindStar(p, start + 1, value, a)
    {
      if k :| a <= k <= |value| && InGlob(p[start..], value[k..]) {
        StarHere(p, start, value, k);
      }
      StarHere(p, start, value, a);
    }
  }

  /** A star-free pattern accepts only its own text. */
  lemma LiteralOnly(q: Str, value: Str)
    requires StarFree(q)
    ensures InGlob(q, value) <==> value == q
  {
  }

  /** The final run of the pattern, behind a star, must end the value. */
  lemma LastRun(p: Str, start: nat, value: Str)
    requires start < |p| && NoStar(p, start, |p|)
    ensures MeansSearch(p, start, [p[start..|p|]], true, value)
  {
    var q := p[start..|p|];
    assert q == p[start..] && p[|p| - 1] == q[|q| - 1];
    forall k | 0 <= k <= |value|
      ensures InGlob(q, value[k..]) <==> value[k..] == q
    {
      LiteralOnly(q, value[k..]);
    }
    forall a: nat | a <= |value|
      ensures BehindStar(p, start, value, a) <==> Search([q], true, value, a)
    {
      if k :| a <= k <= |value| && InGlob(q, value[k..]) {
        assert k == |value| - |q|;
      }
    }
  }

  // ---------------------------------------------------------------- matching

  /** `SegmentGlob::matches_multi`: leftmost search between the anchored ends. */
  method MatchesMulti(pattern: Str, value: Str, parts: seq<(nat, nat)>, anchoredStart: bool, anchoredEnd: bool)
    returns (r: bool)
    requires InBounds(pattern, parts)
    requires (if anchoredStart then 1 else 0) + (if anchoredEnd then 1 else 0) <= |parts|
    ensures var ls := Literals(pattern, parts);
            r <==> if anchoredStart then ls[0] <= value && Search(ls[1..], anchoredEnd, value, |ls[0]|)
                   else Search(ls, anchoredEnd, value, 0)
  {
    ghost var ls := Literals(pattern, parts);
    var first: nat, last: nat := 0, |parts|;
    var searchStart: nat, searchEnd: nat := 0, |value|;

    if anchoredStart {
      var prefix := pattern[parts[0].0..parts[0].1];
      if !(prefix <= value) {
        return false;
      }
      searchStart := |prefix|;
      first := first + 1;
    }
    assert ls[0..] == ls;
    ghost var goal := Search(ls[first..], anchoredEnd, value, searchStart);
    if anchoredEnd {
      var suffix := pattern[parts[last - 1].0..parts[last - 1].1];
      if !EndsWith(value, suffix) {
        return false;
      }
      searchEnd := |value| - |suffix|;
      last := last - 1;
      ghost var tail := ls[first..];
      assert tail[|tail| - 1] == suffix && tail[..|tail| - 1] == ls[first..last];
    } else {
      assert ls[first..] == ls[first..last];
    }
    assert goal <==> Floats(ls[first..last], value, searchStart, searchEnd);
    if searchStart > searchEnd {
      if goal {
        FloatsFit(ls[first..last], value, searchStart, searchEnd);
      }
      return false;
    }
    r := SearchLoop(pattern, value, parts[first..last], searchStart, searchEnd);
    assert Literals(pattern, parts[first..last]) == ls[first..last];
  }

  /** The loop of `matches_multi` over the unanchored literals. */
  method SearchLoop(pattern: Str, value: Str, parts: seq<(nat, nat)>, from: nat, searchEnd: nat) returns (r: bool)
    requires InBounds(pattern, parts)
    requires from <= searchEnd <= |value|
    ensures r <==> Floats(Literals(pattern, parts), value, from, searchEnd)
  {
    ghost var ls := Literals(pattern, parts);
    assert ls[0..] == ls;
    var searchStart := from;
    for i := 0 to |parts|
      invariant from <= searchStart <= searchEnd
      invariant Floats(ls, value, from, searchEnd) <==> Floats(ls[i..], value, searchStart, searchEnd)
    {
      var literal := pattern[parts[i].0..parts[i].1];
      var offset := Find(value[searchStart..searchEnd], literal);
      SearchWindow(ls[i..], value, searchStart, searchEnd);
      assert ls[i..][0] == literal && ls[i..][1..] == ls[i + 1..];
      if offset.None? {
        return false;
      }
      searchStart := searchStart + offset.value + |literal|;
    }
    r := true;
  }

  /** One turn of the search loop. */
  lemma SearchWindow(ls: seq<Str>, value: Str, a: nat, b: nat)
    requires ls != [] && a <= b <= |value|
    ensures var offset := Find(value[a..b], ls[0]);
            if offset.None? then !Floats(ls, value, a, b)
            else && a + offset.value + |ls[0]| <= b
                 && (Floats(ls, value, a, b) <==> Floats(ls[1..], value, a + offset.value + |ls[0]|, b))
  {
    var l, w := ls[0], value[a..b];
    forall j: nat
      ensures OccursAt(w, l, j) <==> a + j + |l| <= b && OccursAt(value, l, a + j)
    {
      if a + j + |l| <= b {
        SliceOfSlice(value, a, b, j, |l|);
      }
    }
    var offset := Find(w, l);
    if offset.None? {
      forall k: nat | a <= k && OccursAt(value, l, k)
        ensures !Floats(ls[1..], value, k + |l|, b)
      {
        assert !OccursAt(w, l, k - a);
        if Floats(ls[1..], value, k + |l|, b) {
          FloatsFit(ls[1..], value, k + |l|, b);
        }
      }
    } else {
      forall j | a <= j < a + offset.value
        ensures !OccursAt(value, l, j)
      {
        assert !OccursAt(w, l, j - a);
      }
      GreedyIsComplete(ls, value, a, b, a + offset.value);
    }
  }

  lemma SearchOne(l: Str, toEnd: bool, value: Str, a: nat)
    ensures Search([l], toEnd, value, a) <==>
            if toEnd then EndsWith(value, l) && a + |l| <= |value| else exists k: nat :: a <= k && OccursAt(value, l, k)
  {
    var none: seq<Str> := [];
    assert [l][..0] == none && [l][1..] == none;
    if !toEnd {
      if Search([l], toEnd, value, a) {
        var k: nat :| a <= k && OccursAt(value, [l][0], k) && Floats([l][1..], value, k + |l|, |value|);
      }
      if k: nat :| a <= k && OccursAt(value, l, k) {
        assert OccursAt(value, [l][0], k) && Floats([l][1..], value, k + |l|, |value|);
      }
    }
  }

  /** The meaning of a pattern, said through its parts alone. */
  ghost predicate PartsMean(p: Str, parts: seq<(nat, nat)>, anchoredStart: bool, anchoredEnd: bool, value: Str) {
    && InBounds(p, parts)
    && (anchoredStart ==> parts != [] && parts[0].0 == 0)
    && (anchoredEnd ==> parts != [] && parts[|parts| - 1].1 == |p|)
    && (anchoredStart && anchoredEnd ==> |parts| > 1)
    && var ls := Literals(p, parts);
       InGlob(p, value) <==>
       if anchoredStart then ls[0] <= value && Search(ls[1..], anchoredEnd, value, |ls[0]|)
       else Search(ls, anchoredEnd, value, 0)
  }

  /** The parts of a pattern with a star carry its whole meaning. */
  lemma SplitsMean(p: Str, parts: seq<(nat, nat)>, value: Str)
    requires !StarFree(p) && Splits(p, |p|, parts)
    ensures PartsMean(p, parts, AnchoredStart(p), AnchoredEnd(p), value)
  {
    SplitsInBounds(p, |p|, parts);
    var ls := Literals(p, parts);
    LastPartAnchored(p, parts);
    FirstPartAnchored(p, parts);
    assert p[0..] == p && value[0..] == value;
    if AnchoredStart(p) {
      var e := parts[0].1;
      assert GoodPart(p, |p|, parts, 0) && GoodGap(p, |p|, parts, 1);
      assert |parts| > 1 ==> GoodPart(p, |p|, parts, 1);
      assert p[e] == STAR && p[0..e] == p[..e];
      RunThenStar(p, 0, e, value, 0);
      if ls[0] <= value {
        BehindStarIsSearch(p, parts, 1, e + 1, value);
        assert BehindStar(p, e + 1, value, e) <==> Search(ls[1..], AnchoredEnd(p), value, e);
      }
    } else {
      StarHere(p, 0, value, 0);
      BehindStarIsSearch(p, parts, 0, 1, value);
      assert ls[0..] == ls;
      assert BehindStar(p, 1, value, 0) <==> Search(ls, AnchoredEnd(p), value, 0);
    }
  }

  /** `SegmentGlob::matches` for the shapes with a star. */
  method MatchesStarred(pattern: Str, kind: Kind, value: Str,
                        ghost parts: seq<(nat, nat)>, ghost anchoredStart: bool, ghost anchoredEnd: bool)
    returns (r: bool)
    requires kind == Choose(parts, anchoredStart, anchoredEnd)
    requires PartsMean(pattern, parts, anchoredStart, anchoredEnd, value)
    ensures r <==> InGlob(pattern, value)
  {
    ghost var ls := Literals(pattern, parts);
    match kind
    case Any =>
      r := true;
    case Prefix(end) =>
      assert ls[0] == pattern[..end] && ls[1..] == [];
      r := pattern[..end] <= value;
    case Suffix(start) =>
      assert pattern[start..|pattern|] == pattern[start..] && ls == [pattern[start..]];
      SearchOne(ls[0], true, value, 0);
      r := EndsWith(value, pattern[start..]);
    case Contains(start, end) =>
      assert ls == [pattern[start..end]];
      SearchOne(ls[0], false, value, 0);
      r := Find(value, pattern[start..end]).Some?;
    case PrefixSuffix(prefixEnd, suffixStart) =>
      assert pattern[suffixStart..|pattern|] == pattern[suffixStart..];
      assert ls[0] == pattern[..prefixEnd] && ls[1..] == [pattern[suffixStart..]];
      SearchOne(ls[1], true, value, prefixEnd);
      var prefix, suffix := pattern[..prefixEnd], pattern[suffixStart..];
      r := |value| >= |prefix| + |suffix| && prefix <= value && EndsWith(value, suffix);
    case Multi(multi, start, end) =>
      r := MatchesMulti(pattern, value, multi, start, end);
  }

  /** `SegmentGlob::matches`: a compiled glob accepts exactly the meaning of its pattern. */
  method Matches(g: SegmentGlob, value: Str) returns (r: bool)
    requires Valid(g)
    ensures r <==> InGlob(g.pattern, value)
  {
    if g.kind.Exact? {
      LiteralOnly(g.pattern, value);
      return value == g.pattern;
    }
    ghost var parts :| Splits(g.pattern, |g.pattern|, parts) &&
                       g.kind == Choose(parts, AnchoredStart(g.pattern), AnchoredEnd(g.pattern));
    SplitsMean(g.pattern, parts, value);
    r := MatchesStarred(g.pattern, g.kind, value, parts, AnchoredStart(g.pattern), AnchoredEnd(g.pattern));
  }

  // ------------------------------------------------------------ consequences

  /** Every pattern, stars included, accepts its own text. */
  lemma {:induction false} GlobIsReflexive(p: Str)
    ensures InGlob(p, p)
  {
    if p != [] {
      GlobIsReflexive(p[1..]);
      if p[0] == STAR {
        assert InGlob(p[1..], p[1..]);
      }
    }
  }

  /** A pattern accepts only its own text exactly when it has no star. */
  lemma GlobIsExactIff(p: Str)
    ensures StarFree(p) <==> forall value :: InGlob(p, value) <==> value == p
  {
    if StarFree(p) {
      forall value
        ensures InGlob(p, value) <==> value == p
      {
        LiteralOnly(p, value);
      }
    } else {
      var i :| 0 <= i < |p| && p[i] == STAR;
      StarCanVanish(p, i);
      var v := p[..i] + p[i + 1..];
      assert InGlob(p, v) && |v| < |p|;
    }
  }

  lemma {:induction false} StarCanVanish(p: Str, i: nat)
    requires i < |p| && p[i] == STAR
    ensures InGlob(p, p[..i] + p[i + 1..])
  {
    var v := p[..i] + p[i + 1..];
    if i == 0 {
      GlobIsReflexive(p[1..]);
      assert v == p[1..] && v[0..] == v;
      assert InGlob(p[1..], v[0..]);
    } else {
      StarCanVanish(p[1..], i - 1);
      assert v[1..] == p[1..][..i - 1] + p[1..][i..];
      assert v[0] == p[0];
      if p[0] == STAR {
        assert InGlob(p[1..], v[1..]);
      }
    }
  }
}
