/**
  Justice conditions over infinite runs, the lassos that witness them, and the
  watched system in which a lasso is a reachable bad state.
 */
module Liveness {
  import opened Runs

  /** A system with justice conditions over states and inputs. */
  datatype Fair<!S, !I> = Fair(init: S -> bool, trans: (S, I, S) -> bool, justice: seq<(S, I) -> bool>)

  ghost predicate Follows<S(!new), I(!new)>(f: Fair<S, I>, p: seq<Point<S, I>>) {
    && |p| > 0 && f.init(p[0].st)
    && forall k :: 0 <= k < |p| - 1 ==> StepAt(f, p, k)
  }

  ghost predicate StepAt<S(!new), I(!new)>(f: Fair<S, I>, p: seq<Point<S, I>>, k: nat)
    requires k < |p| - 1
  {
    f.trans(p[k].st, p[k].inp, p[k + 1].st)
  }

  ghost predicate JustAt<S(!new), I(!new)>(f: Fair<S, I>, x: Point<S, I>, j: nat)
    requires j < |f.justice|
  {
    f.justice[j](x.st, x.inp)
  }

  ghost predicate MetBetween<S(!new), I(!new)>(f: Fair<S, I>, p: seq<Point<S, I>>, j: nat, lo: nat, hi: nat)
    requires j < |f.justice| && hi <= |p|
  {
    exists k :: lo <= k < hi && JustAt(f, p[k], j)
  }

  /** A finite run whose last state repeats state `l`, with every justice condition met in between. */
  ghost predicate IsLasso<S(!new), I(!new)>(f: Fair<S, I>, p: seq<Point<S, I>>, l: nat) {
    && Follows(f, p) && l < |p| - 1
    && p[l].st == p[|p| - 1].st
    && AllMetBetween(f, p, l, |p| - 1)
  }

  ghost predicate AllMetBetween<S(!new), I(!new)>(f: Fair<S, I>, p: seq<Point<S, I>>, lo: nat, hi: nat)
    requires hi <= |p|
  {
    forall j :: 0 <= j < |f.justice| ==> MetBetween(f, p, j, lo, hi)
  }

  // ----- the watched system -----

  /** The original state, whether a state has been saved, the saved state, and the conditions met since. */
  datatype Watch<S> = Watch(st: S, saved: bool, loop: S, met: seq<bool>)

  predicate WatchInit<S(!new), I(!new)>(f: Fair<S, I>, w: Watch<S>) {
    f.init(w.st) && !w.saved && |w.met| == |f.justice| && forall j :: 0 <= j < |w.met| ==> !w.met[j]
  }

  predicate WatchStep<S(==, !new), I(!new)>(f: Fair<S, I>, w: Watch<S>, i: I, save: bool, v: Watch<S>) {
    && f.trans(w.st, i, v.st)
    && v.saved == (w.saved || save)
    && v.loop == (if save && !w.saved then w.st else w.loop)
    && |w.met| == |f.justice| == |v.met|
    && forall j :: 0 <= j < |v.met| ==> v.met[j] == (w.met[j] || ((save || w.saved) && f.justice[j](w.st, i)))
  }

  predicate WatchBad<S(==, !new)>(w: Watch<S>) {
    w.saved && w.st == w.loop && forall j :: 0 <= j < |w.met| ==> w.met[j]
  }

  function Watched<S(==, !new), I(!new)>(f: Fair<S, I>): System<Watch<S>, (I, bool)> {
    System(w => WatchInit(f, w), (w, x: (I, bool), v) => WatchStep(f, w, x.0, x.1, v), w => WatchBad(w))
  }

  /** What the extra variables of a watched run record about its points. */
  ghost predicate Records<S(!new), I(!new)>(f: Fair<S, I>, p: seq<Point<S, I>>, l: nat, w: Watch<S>) {
    && |w.met| == |f.justice| && |p| > 0
    && (w.saved ==> l < |p| - 1 && w.loop == p[l].st)
    && forall j :: 0 <= j < |w.met| && w.met[j] ==> w.saved && MetBetween(f, p, j, l, |p| - 1)
  }

  lemma {:induction false} WatchedRunRecords<S(!new), I(!new)>(f: Fair<S, I>, r: seq<Watch<S>>, k: nat, any: I)
    returns (p: seq<Point<S, I>>, l: nat)
    requires IsRun(Watched(f), r) && k < |r|
    ensures Follows(f, p) && |p| == k + 1 && p[k].st == r[k].st
    ensures Records(f, p, l, r[k])
  {
    if k == 0 {
      p, l := [Point(r[0].st, any)], 0;
    } else {
      var q, l0 := WatchedRunRecords(f, r, k - 1, any);
      assert Step(Watched(f), r[k - 1], r[k - 1 + 1]);
      var x :| Watched(f).trans(r[k - 1], x, r[k]);
      p := q[..k - 1] + [Point(r[k - 1].st, x.0), Point(r[k].st, any)];
      l := if r[k - 1].saved then l0 else k - 1;
      RecordsStep(f, q, p, l0, l, r[k - 1], x.0, x.1, r[k]);
      assert forall m :: 0 <= m < k - 1 ==> p[m] == q[m];
      assert forall m :: 0 <= m < k - 1 ==> StepAt(f, q, m) ==> StepAt(f, p, m);
    }
  }

  lemma {:induction false} RecordsStep<S(!new), I(!new)>(
      f: Fair<S, I>, q: seq<Point<S, I>>, p: seq<Point<S, I>>, l0: nat, l: nat,
      w: Watch<S>, i: I, save: bool, v: Watch<S>)
    requires Records(f, q, l0, w) && q[|q| - 1].st == w.st && WatchStep(f, w, i, save, v)
    requires |p| == |q| + 1 && p[|q| - 1] == Point(w.st, i) && p[|q|].st == v.st
    requires forall m :: 0 <= m < |q| - 1 ==> p[m] == q[m]
    requires l == if w.saved then l0 else |q| - 1
    ensures Records(f, p, l, v)
  {
    forall j | 0 <= j < |v.met| && v.met[j] ensures v.saved && MetBetween(f, p, j, l, |p| - 1) {
      if w.met[j] {
        var k :| l0 <= k < |q| - 1 && JustAt(f, q[k], j);
        assert JustAt(f, p[k], j);
      } else {
        assert JustAt(f, p[|q| - 1], j);
      }
    }
  }

  /** The watched states along a lasso: save at `l`, then collect the conditions. */
  ghost function WatchAt<S(!new), I(!new)>(f: Fair<S, I>, p: seq<Point<S, I>>, l: nat, k: nat): Watch<S>
    requires l < |p| && k < |p|
  {
    Watch(p[k].st, l < k, p[l].st,
          seq(|f.justice|, j requires 0 <= j < |f.justice| => l < k && MetBetween(f, p, j, l, k)))
  }

  lemma {:induction false} WatchAtStep<S(!new), I(!new)>(f: Fair<S, I>, p: seq<Point<S, I>>, l: nat, k: nat)
    requires Follows(f, p) && l < |p| && k + 1 < |p|
    ensures WatchStep(f, WatchAt(f, p, l, k), p[k].inp, k == l, WatchAt(f, p, l, k + 1))
  {
    var w, v := WatchAt(f, p, l, k), WatchAt(f, p, l, k + 1);
    assert StepAt(f, p, k);
    forall j | 0 <= j < |v.met|
      ensures v.met[j] == (w.met[j] || ((k == l || w.saved) && f.justice[j](w.st, p[k].inp)))
    {
      if v.met[j] {
        var m :| l <= m < k + 1 && JustAt(f, p[m], j);
        assert m < k ==> MetBetween(f, p, j, l, k);
      }
      if w.met[j] {
        var m :| l <= m < k && JustAt(f, p[m], j);
      }
    }
  }

  /** The watched system reaches bad exactly when the original one has a lasso meeting every justice condition. */
  lemma {:induction false} WatchedBadIffLasso<S(!new), I(!new)>(f: Fair<S, I>, any: I)
    ensures !Safe(Watched(f)) <==> exists p: seq<Point<S, I>>, l: nat :: IsLasso(f, p, l)
  {
    if !Safe(Watched(f)) {
      var r := UnsafeHasCex(Watched(f));
      var p, l := WatchedRunRecords(f, r, |r| - 1, any);
      RecordedBadIsLasso(f, p, l, r[|r| - 1]);
    }
    if p: seq<Point<S, I>>, l: nat :| IsLasso(f, p, l) {
      var r := WatchLasso(f, p, l);
      CexIsUnsafe(Watched(f), r);
    }
  }

  lemma {:induction false} RecordedBadIsLasso<S(!new), I(!new)>(f: Fair<S, I>, p: seq<Point<S, I>>, l: nat, w: Watch<S>)
    requires Follows(f, p) && p[|p| - 1].st == w.st && Records(f, p, l, w) && WatchBad(w)
    ensures IsLasso(f, p, l)
  {
    var last := |p| - 1;
    forall j | 0 <= j < |f.justice| ensures MetBetween(f, p, j, l, last) {
      assert w.met[j];
    }
  }

  lemma {:induction false} WatchLasso<S(!new), I(!new)>(
      f: Fair<S, I>, p: seq<Point<S, I>>, l: nat) returns (r: seq<Watch<S>>)
    requires IsLasso(f, p, l)
    ensures IsCex(Watched(f), r) && |r| == |p|
    ensures forall k :: 0 <= k < |r| ==> r[k].st == p[k].st && r[k].loop == p[l].st && |r[k].met| == |f.justice|
  {
    r := seq(|p|, k requires 0 <= k < |p| => WatchAt(f, p, l, k));
    forall k | 0 <= k < |r| - 1 ensures Step(Watched(f), r[k], r[k + 1]) {
      assert StepAt(f, p, k);
      WatchAtStep(f, p, l, k);
      assert Watched(f).trans(r[k], (p[k].inp, k == l), r[k + 1]);
    }
  }

  // ----- infinite runs -----

  type Infinite<S, I> = nat -> Point<S, I>

  ghost predicate Recurs<S(!new), I(!new)>(f: Fair<S, I>, w: Infinite<S, I>, j: nat, n: nat)
    requires j < |f.justice|
  {
    exists k: nat :: n <= k && JustAt(f, w(k), j)
  }

  ghost predicate Advances<S(!new), I(!new)>(f: Fair<S, I>, w: Infinite<S, I>, k: nat) {
    f.trans(w(k).st, w(k).inp, w(k + 1).st)
  }

  /** An infinite run that meets every justice condition infinitely often. */
  ghost predicate IsFairRun<S(!new), I(!new)>(f: Fair<S, I>, w: Infinite<S, I>) {
    && f.init(w(0).st)
    && (forall k: nat :: Advances(f, w, k))
    && (forall j: nat, n: nat :: j < |f.justice| ==> Recurs(f, w, j, n))
  }

  /** Positions visited when the loop from `l` to `m - 1` is repeated forever. */
  function Unwind(l: nat, m: nat, k: nat): (r: nat)
    requires l < m
    ensures r < m
  {
    if k == 0 then 0
    else if Unwind(l, m, k - 1) == m - 1 then l
    else Unwind(l, m, k - 1) + 1
  }

  lemma {:induction false} UnwindReaches(l: nat, m: nat, n: nat, t: nat) returns (k: nat)
    requires l <= t < m
    ensures n <= k && Unwind(l, m, k) == t
    decreases if Unwind(l, m, n) <= t then t - Unwind(l, m, n) else 2 * m + t - Unwind(l, m, n)
  {
    if Unwind(l, m, n) == t {
      k := n;
    } else {
      assert Unwind(l, m, n + 1) == if Unwind(l, m, n) == m - 1 then l else Unwind(l, m, n) + 1;
      k := UnwindReaches(l, m, n + 1, t);
    }
  }

  lemma {:induction false} LassoIsFairRun<S(!new), I(!new)>(
      f: Fair<S, I>, p: seq<Point<S, I>>, l: nat) returns (w: Infinite<S, I>)
    requires IsLasso(f, p, l)
    ensures IsFairRun(f, w)
  {
    var m := |p| - 1;
    w := (k: nat) => p[Unwind(l, m, k)];
    forall k: nat ensures Advances(f, w, k) {
      var x := Unwind(l, m, k);
      assert StepAt(f, p, x);
      assert Unwind(l, m, k + 1) == if x == m - 1 then l else x + 1;
    }
    forall j: nat, n: nat | j < |f.justice| ensures Recurs(f, w, j, n) {
      assert MetBetween(f, p, j, l, m);
      var t :| l <= t < m && JustAt(f, p[t], j);
      var k := UnwindReaches(l, m, n, t);
      assert JustAt(f, w(k), j);
    }
  }

  ghost predicate VisitsAfter<S(!new), I(!new)>(w: Infinite<S, I>, s: S, n: nat) {
    exists k: nat :: n <= k && w(k).st == s
  }

  /** Over finitely many states some state recurs forever. */
  lemma {:induction false} SomeStateRecurs<S(!new), I(!new)>(
      w: Infinite<S, I>, states: set<S>, from: nat) returns (s: S)
    requires forall k: nat :: from <= k ==> w(k).st in states
    ensures forall n: nat :: VisitsAfter(w, s, n)
    decreases states
  {
    assert w(from).st in states;
    s := w(from).st;
    if n: nat :| !VisitsAfter(w, s, n) {
      var from' := if n < from then from else n;
      forall k: nat | from' <= k ensures w(k).st in states - {s} {
      }
      s := SomeStateRecurs(w, states - {s}, from');
    }
  }

  ghost predicate MetWithin<S(!new), I(!new)>(f: Fair<S, I>, w: Infinite<S, I>, j: nat, lo: nat, hi: nat)
    requires j < |f.justice|
  {
    exists k: nat :: lo <= k < hi && JustAt(f, w(k), j)
  }

  /** A bound by which the first `c` conditions have all been met after `l`. */
  lemma {:induction false} AllMetBy<S(!new), I(!new)>(f: Fair<S, I>, w: Infinite<S, I>, l: nat, c: nat) returns (n: nat)
    requires IsFairRun(f, w) && c <= |f.justice|
    ensures l < n
    ensures forall j :: 0 <= j < c ==> MetWithin(f, w, j, l, n)
  {
    if c == 0 {
      n := l + 1;
    } else {
      var n0 := AllMetBy(f, w, l, c - 1);
      assert Recurs(f, w, c - 1, l);
      var k: nat :| l <= k && JustAt(f, w(k), c - 1);
      n := if n0 <= k then k + 1 else n0;
      forall j | 0 <= j < c - 1 ensures MetWithin(f, w, j, l, n) {
        assert MetWithin(f, w, j, l, n0);
        var x: nat :| l <= x < n0 && JustAt(f, w(x), j);
      }
    }
  }

  lemma {:induction false} FairRunHasLasso<S(!new), I(!new)>(
      f: Fair<S, I>, w: Infinite<S, I>, states: set<S>) returns (p: seq<Point<S, I>>, l: nat)
    requires IsFairRun(f, w) && forall k: nat :: w(k).st in states
    ensures IsLasso(f, p, l)
  {
    var s := SomeStateRecurs(w, states, 0);
    assert VisitsAfter(w, s, 0);
    l :| w(l).st == s;
    var n := AllMetBy(f, w, l, |f.justice|);
    assert VisitsAfter(w, s, n);
    var m: nat :| n <= m && w(m).st == s;
    p := seq(m + 1, k requires 0 <= k < m + 1 => w(k));
    forall k | 0 <= k < m ensures StepAt(f, p, k) {
      assert Advances(f, w, k);
    }
    forall j | 0 <= j < |f.justice| ensures MetBetween(f, p, j, l, m) {
      assert MetWithin(f, w, j, l, n);
      var k: nat :| l <= k < n && JustAt(f, w(k), j);
      assert JustAt(f, p[k], j);
    }
  }

  ghost predicate HasFairRun<S(!new), I(!new)>(f: Fair<S, I>) {
    exists w: Infinite<S, I> :: IsFairRun(f, w)
  }

  /** Over finitely many states, the watched system is safe exactly when no infinite run is fair. */
  lemma {:induction false} WatchedSafeIffNoFairRun<S(!new), I(!new)>(f: Fair<S, I>, states: set<S>, any: I)
    requires forall s, i, t :: f.trans(s, i, t) ==> s in states
    ensures Safe(Watched(f)) <==> !HasFairRun(f)
  {
    WatchedBadIffLasso(f, any);
    if p: seq<Point<S, I>>, l: nat :| IsLasso(f, p, l) {
      var w := LassoIsFairRun(f, p, l);
    }
    if w: Infinite<S, I> :| IsFairRun(f, w) {
      forall k: nat ensures w(k).st in states {
        assert Advances(f, w, k);
      }
      var p, l := FairRunHasLasso(f, w, states);
    }
  }
}
