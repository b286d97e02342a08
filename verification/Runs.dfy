/**
  Transition systems read semantically, their finite runs, and the facts about
  runs that every engine relies on: invariants, shortest counterexamples and
  loop cutting.
 */
module Runs {

  datatype Option<+T> = None | Some(value: T)

  datatype ProverResult = TRUE | FALSE | UNKNOWN

  /** The three formulas of a safety problem, each as the set of valuations satisfying it. */
  datatype System<!S, !I> = System(init: S -> bool, trans: (S, I, S) -> bool, bad: S -> bool)

  /** A state with the input read in it. */
  datatype Point<S, I> = Point(st: S, inp: I)

  ghost predicate Step<S(!new), I(!new)>(ts: System<S, I>, s: S, t: S) {
    exists i: I :: ts.trans(s, i, t)
  }

  ghost predicate IsPath<S(!new), I(!new)>(ts: System<S, I>, r: seq<S>) {
    && |r| > 0
    && forall k :: 0 <= k < |r| - 1 ==> Step(ts, r[k], r[k + 1])
  }

  ghost predicate IsRun<S(!new), I(!new)>(ts: System<S, I>, r: seq<S>) {
    IsPath(ts, r) && ts.init(r[0])
  }

  ghost predicate Reachable<S(!new), I(!new)>(ts: System<S, I>, s: S) {
    exists r: seq<S> :: IsRun(ts, r) && r[|r| - 1] == s
  }

  ghost predicate Safe<S(!new), I(!new)>(ts: System<S, I>) {
    forall s: S :: Reachable(ts, s) ==> !ts.bad(s)
  }

  /** A run that ends in a bad state; it has `|r| - 1` transitions. */
  ghost predicate IsCex<S(!new), I(!new)>(ts: System<S, I>, r: seq<S>) {
    IsRun(ts, r) && ts.bad(r[|r| - 1])
  }

  ghost predicate IsShortestCex<S(!new), I(!new)>(ts: System<S, I>, r: seq<S>) {
    && IsCex(ts, r)
    && forall q: seq<S> :: IsCex(ts, q) ==> |r| <= |q|
  }

  ghost predicate IsInductiveInvariant<S(!new), I(!new)>(ts: System<S, I>, inv: iset<S>) {
    && (forall s: S :: ts.init(s) ==> s in inv)
    && (forall s: S, t: S :: s in inv && Step(ts, s, t) ==> t in inv)
    && (forall s: S :: s in inv ==> !ts.bad(s))
  }

  /** Every reachable state has a successor. */
  ghost predicate NoReachableDeadlock<S(!new), I(!new)>(ts: System<S, I>) {
    forall s: S :: Reachable(ts, s) ==> exists t: S :: Step(ts, s, t)
  }

  lemma {:induction false} RunStaysIn<S(!new), I(!new)>(ts: System<S, I>, inv: iset<S>, r: seq<S>, k: nat)
    requires IsInductiveInvariant(ts, inv) && IsRun(ts, r) && k < |r|
    ensures r[k] in inv
  {
    if k > 0 {
      RunStaysIn(ts, inv, r, k - 1);
      assert Step(ts, r[k - 1], r[k - 1 + 1]);
    }
  }

  /** An inductive invariant excludes every counterexample. */
  lemma {:induction false} InvariantImpliesSafe<S(!new), I(!new)>(ts: System<S, I>, inv: iset<S>)
    requires IsInductiveInvariant(ts, inv)
    ensures Safe(ts)
  {
    forall s: S | Reachable(ts, s) ensures !ts.bad(s) {
      var r: seq<S> :| IsRun(ts, r) && r[|r| - 1] == s;
      RunStaysIn(ts, inv, r, |r| - 1);
    }
  }

  lemma {:induction false} PathSlice<S(!new), I(!new)>(ts: System<S, I>, r: seq<S>, lo: nat, hi: nat)
    requires IsPath(ts, r) && lo < hi <= |r|
    ensures IsPath(ts, r[lo..hi])
  {
    forall k | 0 <= k < hi - lo - 1 ensures Step(ts, r[lo..hi][k], r[lo..hi][k + 1]) {
      assert Step(ts, r[lo + k], r[lo + k + 1]);
    }
  }

  lemma {:induction false} PathJoin<S(!new), I(!new)>(ts: System<S, I>, p: seq<S>, q: seq<S>)
    requires IsPath(ts, p) && IsPath(ts, q) && Step(ts, p[|p| - 1], q[0])
    ensures IsPath(ts, p + q)
  {
    forall k | 0 <= k < |p + q| - 1 ensures Step(ts, (p + q)[k], (p + q)[k + 1]) {
      if k < |p| - 1 {
        assert Step(ts, p[k], p[k + 1]);
      } else if k >= |p| {
        assert Step(ts, q[k - |p|], q[k - |p| + 1]);
      }
    }
  }

  lemma {:induction false} RunStatesReachable<S(!new), I(!new)>(ts: System<S, I>, r: seq<S>, k: nat)
    requires IsRun(ts, r) && k < |r|
    ensures Reachable(ts, r[k])
  {
    PathSlice(ts, r, 0, k + 1);
    var p := r[0..k + 1];
    assert IsRun(ts, p) && p[|p| - 1] == r[k];
  }

  lemma {:induction false} StepReachable<S(!new), I(!new)>(ts: System<S, I>, s: S, t: S)
    requires Reachable(ts, s) && Step(ts, s, t)
    ensures Reachable(ts, t)
  {
    var r: seq<S> :| IsRun(ts, r) && r[|r| - 1] == s;
    PathJoin(ts, r, [t]);
    assert IsRun(ts, r + [t]) && (r + [t])[|r + [t]| - 1] == t;
  }

  /** A reachable state continues for any number of steps when no reachable state is stuck. */
  lemma {:induction false} Extend<S(!new), I(!new)>(ts: System<S, I>, s: S, n: nat) returns (p: seq<S>)
    requires NoReachableDeadlock(ts) && Reachable(ts, s)
    ensures IsPath(ts, p) && |p| == n + 1 && p[0] == s
    ensures forall k :: 0 <= k < |p| ==> Reachable(ts, p[k])
  {
    p := [s];
    while |p| < n + 1
      invariant IsPath(ts, p) && |p| <= n + 1 && p[0] == s
      invariant forall k :: 0 <= k < |p| ==> Reachable(ts, p[k])
    {
      var t: S :| Step(ts, p[|p| - 1], t);
      StepReachable(ts, p[|p| - 1], t);
      PathJoin(ts, p, [t]);
      p := p + [t];
    }
  }

  lemma {:induction false} UnsafeHasCex<S(!new), I(!new)>(ts: System<S, I>) returns (r: seq<S>)
    requires !Safe(ts)
    ensures IsCex(ts, r)
  {
    var s: S :| Reachable(ts, s) && ts.bad(s);
    r :| IsRun(ts, r) && r[|r| - 1] == s;
  }

  lemma {:induction false} CexIsUnsafe<S(!new), I(!new)>(ts: System<S, I>, r: seq<S>)
    requires IsCex(ts, r)
    ensures !Safe(ts)
  {
    RunStatesReachable(ts, r, |r| - 1);
  }

  lemma {:induction false} UnsafeHasShortestCex<S(!new), I(!new)>(ts: System<S, I>) returns (r: seq<S>)
    requires !Safe(ts)
    ensures IsShortestCex(ts, r)
  {
    r := UnsafeHasCex(ts);
    r := ShrinkCex(ts, r);
  }

  lemma {:induction false} ShrinkCex<S(!new), I(!new)>(ts: System<S, I>, r: seq<S>) returns (q: seq<S>)
    requires IsCex(ts, r)
    ensures IsShortestCex(ts, q)
    decreases |r|
  {
    if p: seq<S> :| IsCex(ts, p) && |p| < |r| {
      q := ShrinkCex(ts, p);
    } else {
      q := r;
    }
  }

  /** A shortest counterexample meets bad only in its last state. */
  lemma {:induction false} ShortestCexPrefixGood<S(!new), I(!new)>(ts: System<S, I>, r: seq<S>, k: nat)
    requires IsShortestCex(ts, r) && k < |r| - 1
    ensures !ts.bad(r[k])
  {
    if ts.bad(r[k]) {
      PathSlice(ts, r, 0, k + 1);
      assert IsCex(ts, r[0..k + 1]);
    }
  }

  /** A shortest counterexample meets init only in its first state. */
  lemma {:induction false} ShortestCexSuffixNotInit<S(!new), I(!new)>(ts: System<S, I>, r: seq<S>, k: nat)
    requires IsShortestCex(ts, r) && 0 < k < |r|
    ensures !ts.init(r[k])
  {
    if ts.init(r[k]) {
      PathSlice(ts, r, k, |r|);
      assert IsCex(ts, r[k..|r|]);
    }
  }

  /** In a shortest counterexample no state can be reached in one step from an earlier one, except its successor. */
  lemma {:induction false} ShortestCexNoShortcut<S(!new), I(!new)>(ts: System<S, I>, r: seq<S>, a: nat, b: nat)
    requires IsShortestCex(ts, r) && a + 1 < b < |r|
    ensures !Step(ts, r[a], r[b])
  {
    if Step(ts, r[a], r[b]) {
      PathSlice(ts, r, 0, a + 1);
      PathSlice(ts, r, b, |r|);
      PathJoin(ts, r[0..a + 1], r[b..|r|]);
      assert IsCex(ts, r[0..a + 1] + r[b..|r|]);
    }
  }
}
