/**
  Why IC3 stops on a finite state space: the measure of the blocking phase and
  the chain of distinct frames that a run without verdict would need.
 */
module Ic3Measure {
  import opened Cardinality
  import opened Runs
  import opened Ic3Formulas
  import opened Ic3Solver
  import opened Ic3Frames
  import opened Ic3Queries
  import opened Ic3Goals

  ghost function VarSet(p: Problem): set<nat> {
    set v | v in p.vars
  }

  /** All valuations of the state variables. */
  ghost function AllStates(p: Problem): set<State> {
    set s: State | s <= VarSet(p)
  }

  ghost function FrameSet(p: Problem, fr: Frames, i: nat): (r: set<State>)
    ensures r <= AllStates(p)
  {
    set s | s in AllStates(p) && FrameHolds(p, fr, i, s)
  }

  /** The number of states in frames 1 to `n`, added up. */
  ghost function Total(p: Problem, fr: Frames, n: nat): nat {
    if n == 0 then 0 else Total(p, fr, n - 1) + |FrameSet(p, fr, n)|
  }

  lemma {:induction false} TotalBound(p: Problem, fr: Frames, n: nat)
    ensures Total(p, fr, n) <= n * |AllStates(p)|
  {
    if n > 0 {
      TotalBound(p, fr, n - 1);
      SubsetSmaller(FrameSet(p, fr, n), AllStates(p));
      assert n * |AllStates(p)| == (n - 1) * |AllStates(p)| + |AllStates(p)|;
    }
  }

  lemma {:induction false} StrongerTotal(p: Problem, fr': Frames, fr: Frames, n: nat)
    requires Stronger(p, fr', fr) && n < |fr|
    ensures Total(p, fr', n) <= Total(p, fr, n)
  {
    if n > 0 {
      StrongerTotal(p, fr', fr, n - 1);
      SubsetSmaller(FrameSet(p, fr', n), FrameSet(p, fr, n));
    }
  }

  /** Losing a single state from one frame shrinks the total. */
  lemma {:induction false} StrictlyStrongerTotal(p: Problem, fr': Frames, fr: Frames, n: nat, m: nat, s: State)
    requires Stronger(p, fr', fr) && 0 < m <= n < |fr|
    requires p.Dom(s) && FrameHolds(p, fr, m, s) && !FrameHolds(p, fr', m, s)
    ensures Total(p, fr', n) < Total(p, fr, n)
  {
    if m == n {
      StrongerTotal(p, fr', fr, n - 1);
      StrictSubsetSmaller(FrameSet(p, fr', n), FrameSet(p, fr, n), s);
    } else {
      StrictlyStrongerTotal(p, fr', fr, n - 1, m, s);
      SubsetSmaller(FrameSet(p, fr', n), FrameSet(p, fr, n));
    }
  }

  // ----- blocked goals in the queue -----

  ghost function BlockedCount(p: Problem, fr: Frames, goals: seq<ProofGoal>): nat {
    if goals == [] then 0
    else BlockedCount(p, fr, goals[1..]) + if Blocked(p, fr, goals[0]) then 1 else 0
  }

  lemma {:induction false} BlockedCountAppend(p: Problem, fr: Frames, a: seq<ProofGoal>, b: seq<ProofGoal>)
    ensures BlockedCount(p, fr, a + b) == BlockedCount(p, fr, a) + BlockedCount(p, fr, b)
  {
    if a == [] {
      assert a + b == b;
    } else {
      assert (a + b)[1..] == a[1..] + b;
      BlockedCountAppend(p, fr, a[1..], b);
    }
  }

  lemma {:induction false} BlockedCountPop(p: Problem, fr: Frames, goals: seq<ProofGoal>)
    requires goals != [] && Blocked(p, fr, goals[TopIndex(goals)])
    ensures BlockedCount(p, fr, WithoutTop(goals)) < BlockedCount(p, fr, goals)
  {
    var k := TopIndex(goals);
    assert goals == goals[..k] + ([goals[k]] + goals[k + 1..]);
    BlockedCountAppend(p, fr, goals[..k], [goals[k]] + goals[k + 1..]);
    BlockedCountAppend(p, fr, [goals[k]], goals[k + 1..]);
    BlockedCountAppend(p, fr, goals[..k], goals[k + 1..]);
    assert [goals[k]][1..] == [];
  }

  lemma {:induction false} BlockedCountPush(p: Problem, fr: Frames, goals: seq<ProofGoal>, g: ProofGoal)
    requires !Blocked(p, fr, g)
    ensures BlockedCount(p, fr, goals + [g]) == BlockedCount(p, fr, goals)
  {
    BlockedCountAppend(p, fr, goals, [g]);
    assert [g][1..] == [];
  }

  /** What one round on the queue decreases: frame sizes, then already blocked goals, then the lowest frame. */
  ghost predicate Progress(p: Problem, fr: Frames, goals: seq<ProofGoal>, fr': Frames, goals': seq<ProofGoal>)
    requires |fr| > 0
  {
    || Total(p, fr', |fr| - 1) < Total(p, fr, |fr| - 1)
    || (fr' == fr && BlockedCount(p, fr', goals') < BlockedCount(p, fr, goals))
    || (fr' == fr && goals' != [] && BlockedCount(p, fr', goals') == BlockedCount(p, fr, goals)
        && TopFrame(goals') < TopFrame(goals))
  }

  // ----- distinct frames -----

  ghost predicate SameFrame(p: Problem, fr: Frames, fr': Frames, i: nat) {
    forall s :: p.Dom(s) ==> (FrameHolds(p, fr, i, s) <==> FrameHolds(p, fr', i, s))
  }

  /** Frame `i + 1` has a state that frame `i` lacks. */
  ghost predicate Grows(p: Problem, fr: Frames, i: nat) {
    exists s :: p.Dom(s) && FrameHolds(p, fr, i + 1, s) && !FrameHolds(p, fr, i, s)
  }

  lemma {:induction false} GrowingChain(p: Problem, fr: Frames, k: nat)
    requires FramesOk(p, fr) && 0 < k < |fr|
    requires forall i :: 1 <= i < k ==> Grows(p, fr, i)
    ensures |FrameSet(p, fr, k)| >= k - 1
  {
    if k > 1 {
      GrowingChain(p, fr, k - 1);
      assert Grows(p, fr, k - 1);
      var s :| p.Dom(s) && FrameHolds(p, fr, k - 1 + 1, s) && !FrameHolds(p, fr, k - 1, s);
      StrictSubsetSmaller(FrameSet(p, fr, k - 1), FrameSet(p, fr, k), s);
    }
  }

  /** With `n` states, `n + 2` frames cannot all be distinct. */
  lemma {:induction false} NoLongChain(p: Problem, fr: Frames)
    requires FramesOk(p, fr) && |AllStates(p)| + 2 < |fr|
    ensures exists i :: 1 <= i < |AllStates(p)| + 2 && !Grows(p, fr, i)
  {
    var n := |AllStates(p)|;
    if forall i :: 1 <= i < n + 2 ==> Grows(p, fr, i) {
      GrowingChain(p, fr, n + 2);
      SubsetSmaller(FrameSet(p, fr, n + 2), AllStates(p));
    }
  }

  /** A frame that strengthening left alone grows into its successor exactly as before. */
  lemma {:induction false} GrowsTransfer(p: Problem, before: Frames, mid: Frames, fr: Frames, i: nat)
    requires 0 < i && i + 1 < |before| && Stronger(p, mid, before) && Stronger(p, fr, mid)
    requires SameFrame(p, before, fr, i) && SameFrame(p, before, fr, i + 1)
    requires Grows(p, mid, i)
    ensures Grows(p, fr, i)
  {
    var s :| p.Dom(s) && FrameHolds(p, mid, i + 1, s) && !FrameHolds(p, mid, i, s);
    assert FrameHolds(p, before, i + 1, s);
    assert FrameHolds(p, fr, i + 1, s);
  }

  /** Frames whose total did not shrink are unchanged. */
  lemma {:induction false} SameTotalSameFrames(p: Problem, fr': Frames, fr: Frames, n: nat, m: nat)
    requires Stronger(p, fr', fr) && 0 < m <= n < |fr|
    requires Total(p, fr', n) == Total(p, fr, n)
    ensures SameFrame(p, fr, fr', m)
  {
    forall s | p.Dom(s) ensures FrameHolds(p, fr, m, s) <==> FrameHolds(p, fr', m, s) {
      if FrameHolds(p, fr, m, s) && !FrameHolds(p, fr', m, s) {
        StrictlyStrongerTotal(p, fr', fr, n, m, s);
      }
    }
  }

  /** Below `k`, a frame that is unchanged and whose successor is unchanged differs from it. */
  ghost predicate GrowsBelow(p: Problem, fr0: Frames, fr: Frames, k: nat) {
    forall m :: 1 <= m < k && m + 1 < |fr0| && SameFrame(p, fr0, fr, m) && SameFrame(p, fr0, fr, m + 1) ==>
      Grows(p, fr, m)
  }

  lemma {:induction false} SameFrameBetween(p: Problem, fr0: Frames, mid: Frames, fr: Frames, i: nat)
    requires Stronger(p, mid, fr0) && Stronger(p, fr, mid) && 0 < i < |fr0|
    requires SameFrame(p, fr0, fr, i)
    ensures SameFrame(p, fr0, mid, i) && SameFrame(p, mid, fr, i)
  {
  }

  lemma {:induction false} GrowsBelowStep(p: Problem, fr0: Frames, mid: Frames, fr: Frames, j: nat)
    requires 0 < j && Stronger(p, mid, fr0) && Stronger(p, fr, mid)
    requires GrowsBelow(p, fr0, mid, j)
    requires SameFrame(p, mid, fr, j) && SameFrame(p, mid, fr, j + 1) ==> Grows(p, fr, j)
    ensures Stronger(p, fr, fr0) && GrowsBelow(p, fr0, fr, j + 1)
  {
    StrongerTransitive(p, fr, mid, fr0);
    forall m | 1 <= m < j + 1 && m + 1 < |fr0| && SameFrame(p, fr0, fr, m) && SameFrame(p, fr0, fr, m + 1)
      ensures Grows(p, fr, m)
    {
      SameFrameBetween(p, fr0, mid, fr, m);
      SameFrameBetween(p, fr0, mid, fr, m + 1);
      if m < j {
        GrowsTransfer(p, fr0, mid, fr, m);
      }
    }
  }

  /** A step that propagates without verdict loses a state from one of the first `n + 2` frames. */
  lemma {:induction false} UndecidedStepShrinks(p: Problem, fr': Frames, fr: Frames, n: nat)
    requires FramesOk(p, fr') && Stronger(p, fr', fr) && |fr'| > |fr| > n + 2 && n == |AllStates(p)|
    requires GrowsBelow(p, fr, fr', |fr|)
    ensures Total(p, fr', n + 2) < Total(p, fr, n + 2)
  {
    StrongerTotal(p, fr', fr, n + 2);
    if Total(p, fr', n + 2) == Total(p, fr, n + 2) {
      NoLongChain(p, fr');
      var i :| 1 <= i < n + 2 && !Grows(p, fr', i);
      SameTotalSameFrames(p, fr', fr, n + 2, i);
      SameTotalSameFrames(p, fr', fr, n + 2, i + 1);
    }
  }

  /**
    A clause whose negation is a part of the goal's cube blocks the goal and shrinks the frames; the goal
    may move up.
   */
  lemma {:induction false} LearnedBlocksGoal(p: Problem, fr: Frames, fr': Frames, i: nat, g: ProofGoal, c: IC3Formula)
    requires GoalOk(p, fr, g) && !Blocked(p, fr, g)
    requires 0 < g.idx <= i < |fr| && SubCube(c, g.target) && Blocks(p, fr, fr', i, c)
    ensures Stronger(p, fr', fr) && Blocked(p, fr', g)
    ensures Total(p, fr', |fr| - 1) < Total(p, fr, |fr| - 1)
    ensures i + 1 < |fr| ==> GoalOk(p, fr', g.(idx := i + 1))
  {
    forall s | Eval(g.target, s) ensures Eval(c, s) {
      SubCubeCovers(c, g.target, s);
    }
    var s :| p.Dom(s) && FrameHolds(p, fr, g.idx, s) && Eval(g.target, s);
    StrictlyStrongerTotal(p, fr', fr, |fr| - 1, g.idx, s);
  }

  /** A clause of frame `i` that cannot be pushed shows a state that only frame `i + 1` has. */
  lemma {:induction false} BlockedPushGrows(p: Problem, fr: Frames, i: nat, c: IC3Formula)
    requires p.WellFormed() && FramesOk(p, fr) && 0 < i < |fr| - 1 && c in fr[i]
    requires CanEnter(p, fr, i, Negate(c))
    ensures Grows(p, fr, i)
  {
    var s, t :| Enters(p, fr, i, Negate(c), s, t);
    NegateComplements(c, t);
    assert FrameHolds(p, fr, i + 1, t) && !FrameHolds(p, fr, i, t);
  }

  function Max(a: int, b: int): int {
    if a < b then b else a
  }

  /** With `n` states, a run that has reached bound `from` is decided before this bound is passed. */
  ghost function DecisionBound(p: Problem, from: int): int {
    var n := |AllStates(p)|;
    Max(from, n + 2) + (n + 2) * n
  }

  lemma {:induction false} ConcretizedIsUnsafe(p: Problem, cex: seq<Term>)
    requires exists run :: Concretizes(p, cex, run)
    ensures !Safe(p.ts)
  {
    var run :| Concretizes(p, cex, run);
    CexIsUnsafe(p.ts, run);
  }
}
