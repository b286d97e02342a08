/**
  The IC3 frame sequence: its invariant, how a learned clause, a new frame and
  a solver reset keep it, and what it proves.
 */
module Ic3Frames {
  import opened Runs
  import opened Ic3Formulas
  import opened Ic3Solver

  ghost predicate InitWithin(p: Problem, fr: Frames) {
    forall j, s :: 0 < j < |fr| && p.ts.init(s) ==> FrameHolds(p, fr, j, s)
  }

  ghost predicate StepsForward(p: Problem, fr: Frames) {
    forall j, s, t :: 0 <= j < |fr| - 1 && FrameHolds(p, fr, j, s) && Step(p.ts, s, t) ==> FrameHolds(p, fr, j + 1, t)
  }

  ghost predicate OnlyClauses(fr: Frames) {
    forall j, f :: 0 <= j < |fr| && f in fr[j] ==> f.disjunction
  }

  /** F_0 = init; init is in every frame; one step leads into the next frame; no frame meets bad. */
  ghost predicate FramesOk(p: Problem, fr: Frames) {
    && |fr| >= 2 && fr[0] == []
    && OnlyClauses(fr)
    && InitWithin(p, fr)
    && StepsForward(p, fr)
  }

  /** The labels in the solver say what the stored frames say. */
  ghost predicate LabelsAgree(p: Problem, fr: Frames, store: Frames) {
    && |store| == |fr|
    && forall i, s :: 0 < i < |fr| ==> (LabelsHold(p, store, i, s) <==> FrameHolds(p, fr, i, s))
  }

  lemma {:induction false} LabelsAgreeAtZero(p: Problem, fr: Frames, store: Frames, s: State)
    requires FramesOk(p, fr) && LabelsAgree(p, fr, store)
    requires store[0] == []
    ensures LabelsHold(p, store, 0, s) <==> FrameHolds(p, fr, 0, s)
  {
    if p.ts.init(s) {
      assert FrameHolds(p, fr, 1, s);
      assert LabelsHold(p, store, 1, s);
    }
  }

  lemma {:induction false} FramesGrow(p: Problem, fr: Frames, i: nat, j: nat, s: State)
    requires FramesOk(p, fr) && i <= j < |fr| && FrameHolds(p, fr, i, s)
    ensures FrameHolds(p, fr, j, s)
  {
  }

  lemma {:induction false} FrameAvoidsBad(p: Problem, fr: Frames, i: nat, s: State)
    requires FramesOk(p, fr) && i < |fr| && FrameHolds(p, fr, i, s)
    ensures !p.ts.bad(s)
  {
    FramesGrow(p, fr, i, |fr| - 1, s);
  }

  /** Once init and its successors are known to avoid bad, the first two frames are in order. */
  lemma {:induction false} FirstFramesOk(p: Problem)
    requires forall s :: p.ts.init(s) ==> !p.ts.bad(s)
    requires forall s, t :: p.ts.init(s) && Step(p.ts, s, t) ==> !p.ts.bad(t)
    ensures FramesOk(p, [[], []]) && LabelsAgree(p, [[], []], [[], []])
  {
    ResetLabelsAgree(p, [[], []]);
  }

  /** A new frame holds just the property, which the last frame leads to. */
  lemma {:induction false} PushedFrameOk(p: Problem, fr: Frames, store: Frames)
    requires FramesOk(p, fr) && LabelsAgree(p, fr, store)
    requires forall s, t :: FrameHolds(p, fr, |fr| - 1, s) && Step(p.ts, s, t) ==> !p.ts.bad(t)
    ensures FramesOk(p, fr + [[]]) && LabelsAgree(p, fr + [[]], store + [[]])
    ensures Stronger(p, fr + [[]], fr)
  {
    var fr', store' := fr + [[]], store + [[]];
    forall m, s | 0 < m < |fr| ensures FrameHolds(p, fr', m, s) <==> FrameHolds(p, fr, m, s) {
      assert forall j :: m <= j < |fr| ==> fr'[j] == fr[j];
    }
    forall m, s | 0 < m < |fr| ensures LabelsHold(p, store', m, s) <==> LabelsHold(p, store, m, s) {
      assert forall j :: m <= j < |fr| ==> store'[j] == store[j];
    }
    forall s | p.ts.init(s) ensures FrameHolds(p, fr', |fr|, s) {
      FrameAvoidsBad(p, fr, 0, s);
    }
    forall j, s, t | 0 <= j < |fr'| - 1 && FrameHolds(p, fr', j, s) && Step(p.ts, s, t)
      ensures FrameHolds(p, fr', j + 1, t)
    {
      assert FrameHolds(p, fr, j, s);
    }
  }

  // ----- learned clauses -----

  /** The cube `c` is not entered from outside itself within frame `i`. */
  ghost predicate RelInductive(p: Problem, fr: Frames, i: nat, c: IC3Formula) {
    forall s, t :: FrameHolds(p, fr, i, s) && !Eval(c, s) && Step(p.ts, s, t) ==> !Eval(c, t)
  }

  ghost predicate InitDisjoint(p: Problem, c: IC3Formula) {
    forall s :: p.ts.init(s) ==> !Eval(c, s)
  }

  /** `fr'` is `fr` with the negation of cube `c` added to frames 1 to `i`. */
  ghost predicate Blocks(p: Problem, fr: Frames, fr': Frames, i: nat, c: IC3Formula) {
    && |fr'| == |fr|
    && forall m, s :: 0 < m < |fr| ==>
         (FrameHolds(p, fr', m, s) <==> FrameHolds(p, fr, m, s) && (m <= i ==> !Eval(c, s)))
  }

  lemma {:induction false} BlockingKeepsFrames(p: Problem, fr: Frames, fr': Frames, i: nat, c: IC3Formula)
    requires FramesOk(p, fr) && 0 < i < |fr|
    requires RelInductive(p, fr, i - 1, c) && InitDisjoint(p, c)
    requires Blocks(p, fr, fr', i, c) && OnlyClauses(fr') && fr'[0] == []
    ensures FramesOk(p, fr')
  {
    forall j, s, t | 0 <= j < |fr'| - 1 && FrameHolds(p, fr', j, s) && Step(p.ts, s, t)
      ensures FrameHolds(p, fr', j + 1, t)
    {
      assert FrameHolds(p, fr, j, s);
      assert FrameHolds(p, fr, j + 1, t);
      if j + 1 <= i {
        assert !Eval(c, s);
        FramesGrow(p, fr, j, i - 1, s);
      }
    }
  }

  /** One step from frame `i`, outside the cube `c`, never enters the cube `d`. */
  ghost predicate NeverEnters(p: Problem, fr: Frames, i: nat, c: IC3Formula, d: IC3Formula) {
    forall s, t :: FrameHolds(p, fr, i, s) && !Eval(c, s) && Step(p.ts, s, t) ==> !Eval(d, t)
  }

  /** A cube with fewer literals that is not entered from outside the original one is relatively inductive. */
  lemma {:induction false} SmallerCubeInductive(p: Problem, fr: Frames, i: nat, d: IC3Formula, c: IC3Formula)
    requires SubCube(c, d) && NeverEnters(p, fr, i, d, c)
    ensures RelInductive(p, fr, i, c)
  {
    forall s, t | FrameHolds(p, fr, i, s) && !Eval(c, s) && Step(p.ts, s, t) ensures !Eval(c, t) {
      if Eval(d, s) {
        SubCubeCovers(c, d, s);
      }
    }
  }

  ghost predicate SameCube(c: IC3Formula, d: IC3Formula) {
    SubCube(c, d) && SubCube(d, c)
  }

  lemma {:induction false} SameCubeInductive(p: Problem, fr: Frames, i: nat, c: IC3Formula, d: IC3Formula)
    requires SameCube(c, d)
    ensures RelInductive(p, fr, i, c) ==> RelInductive(p, fr, i, d)
    ensures InitDisjoint(p, c) ==> InitDisjoint(p, d)
  {
    forall s ensures Eval(c, s) == Eval(d, s) {
      if Eval(c, s) { SubCubeCovers(d, c, s); }
      if Eval(d, s) { SubCubeCovers(c, d, s); }
    }
  }

  lemma {:induction false} DoubleNegation(c: IC3Formula)
    requires !c.disjunction
    ensures SameCube(c, Negate(Negate(c)))
  {
    forall l ensures l in c.children <==> l in Negate(Negate(c)).children {
      NegateMembers(Negate(c), l);
      NegateMembers(c, SmartNot(l));
      assert SmartNot(SmartNot(l)) == l;
    }
  }

  // ----- subsumption deletion -----

  /** The clauses of a level that `cl` does not subsume, in order. */
  function Unsubsumed(cl: IC3Formula, level: seq<IC3Formula>): (r: seq<IC3Formula>)
    ensures forall f :: f in r <==> f in level && !Subsumes(cl, f)
  {
    if level == [] then [] else
      var n := |level| - 1;
      Unsubsumed(cl, level[..n]) + if Subsumes(cl, level[n]) then [] else [level[n]]
  }

  lemma {:induction false} NothingUnsubsumed(cl: IC3Formula)
    ensures Unsubsumed(cl, []) == []
  {
  }

  /** One step of the in-place compaction. */
  lemma {:induction false} CompactStep(cl: IC3Formula, level: seq<IC3Formula>, r: seq<IC3Formula>, k: nat, l: nat)
    requires |r| == |level| && k <= l < |level|
    requires r[l..] == level[l..] && r[..k] == Unsubsumed(cl, level[..l])
    ensures r[l + 1..] == level[l + 1..] && r[k := r[l]][l + 1..] == level[l + 1..]
    ensures Subsumes(cl, r[l]) ==> r[..k] == Unsubsumed(cl, level[..l + 1])
    ensures !Subsumes(cl, r[l]) ==> r[k := r[l]][..k + 1] == Unsubsumed(cl, level[..l + 1])
  {
    hide Subsumes;
    assert level[..l + 1] == level[..l] + [level[l]];
    assert level[..l + 1][..l] == level[..l];
    assert r[l] == r[l..][0] == level[l];
    assert r[l + 1..] == level[l..][1..];
    assert r[k := r[l]][..k + 1] == r[..k] + [r[l]];
  }

  /** The stored frames after adding `cl` at level `i`, deleting what a new clause subsumes at levels 1 to `i`. */
  function Constrained(fr: Frames, i: nat, cl: IC3Formula, isNew: bool): (r: Frames)
    requires 0 < i < |fr|
    ensures |r| == |fr|
  {
    seq(|fr|, m requires 0 <= m < |fr| =>
      (if isNew && 1 <= m <= i then Unsubsumed(cl, fr[m]) else fr[m]) + if m == i then [cl] else [])
  }

  /** Without deletion only the frame of the clause changes. */
  lemma {:induction false} ConstrainedElsewhere(fr: Frames, i: nat, cl: IC3Formula)
    requires 0 < i < |fr|
    ensures forall m :: 0 <= m < |fr| && m != i ==> Constrained(fr, i, cl, false)[m] == fr[m]
  {
    forall m | 0 <= m < |fr| && m != i ensures Constrained(fr, i, cl, false)[m] == fr[m] {
      assert fr[m] + [] == fr[m];
    }
  }

  /** Init avoids bad, and no step leads from outside bad into it. */
  ghost predicate PropertyIsInductive(p: Problem) {
    && (forall s :: p.ts.init(s) ==> !p.ts.bad(s))
    && forall s, t :: !p.ts.bad(s) && Step(p.ts, s, t) ==> !p.ts.bad(t)
  }

  lemma {:induction false} InductivePropertyIsSafe(p: Problem)
    requires PropertyIsInductive(p)
    ensures Safe(p.ts)
  {
    InvariantImpliesSafe(p.ts, iset s: State | !p.ts.bad(s));
  }

  /** Frames 1 to `n - 1` hold clauses of their own. */
  ghost predicate NoneEmpty(fr: Frames, n: int)
    requires n <= |fr|
  {
    forall m :: 1 <= m < n ==> fr[m] != []
  }

  /** Every frame but `i` and `i + 1` is as it was. */
  ghost predicate OthersKept(fr: Frames, fr': Frames, i: nat) {
    |fr'| == |fr| && forall m :: 0 <= m < |fr| && m != i && m != i + 1 ==> fr'[m] == fr[m]
  }

  /** Deleted clauses follow from the new one: the frames change by exactly the new clause. */
  lemma {:induction false} ConstrainedBlocks(p: Problem, fr: Frames, i: nat, cl: IC3Formula, isNew: bool)
    requires 0 < i < |fr| && OnlyClauses(fr) && cl.disjunction
    ensures Blocks(p, fr, Constrained(fr, i, cl, isNew), i, Negate(cl))
    ensures OnlyClauses(Constrained(fr, i, cl, isNew))
  {
    var fr' := Constrained(fr, i, cl, isNew);
    forall m, s | 0 < m < |fr|
      ensures FrameHolds(p, fr', m, s) <==> FrameHolds(p, fr, m, s) && (m <= i ==> !Eval(Negate(cl), s))
    {
      NegateComplements(cl, s);
      if FrameHolds(p, fr', m, s) {
        assert cl in fr'[i];
        forall j, f | m <= j < |fr| && f in fr[j] ensures Eval(f, s) {
          if f !in fr'[j] {
            SubsumesImplies(cl, f, s);
          }
        }
      }
    }
  }

  lemma {:induction false} ConstrainedLabels(p: Problem, store: Frames, i: nat, cl: IC3Formula)
    requires 0 < i < |store| && cl.disjunction
    ensures forall m, s :: 0 < m < |store| ==>
      (LabelsHold(p, store[i := store[i] + [cl]], m, s) <==>
         LabelsHold(p, store, m, s) && (m <= i ==> !Eval(Negate(cl), s)))
  {
    var store' := store[i := store[i] + [cl]];
    forall m, s | 0 < m < |store|
      ensures LabelsHold(p, store', m, s) <==> LabelsHold(p, store, m, s) && (m <= i ==> !Eval(Negate(cl), s))
    {
      NegateComplements(cl, s);
      assert cl in store'[i];
      assert forall j {:trigger store[j]} {:trigger store'[j]} :: 0 <= j < |store| && j != i ==> store'[j] == store[j];
      if LabelsHold(p, store', m, s) {
        forall j, f | m <= j < |store| && f in store[j] ensures Eval(f, s) {
          assert f in store'[j];
        }
      } else if LabelsHold(p, store, m, s) && (m <= i ==> Eval(cl, s)) {
        forall j, f | m <= j < |store'| && f in store'[j] ensures Eval(f, s) {
          assert f in store[j] || (j == i && f == cl);
        }
      }
    }
  }

  /** Re-asserting exactly the stored clauses gives labels that say what the frames say. */
  lemma {:induction false} ResetLabelsAgree(p: Problem, fr: Frames)
    ensures LabelsAgree(p, fr, fr)
  {
  }

  // ----- strengthening -----

  /** Every common frame of `fr'` is at least as strong as in `fr`. */
  ghost predicate Stronger(p: Problem, fr': Frames, fr: Frames) {
    && |fr'| >= |fr|
    && forall m, s :: 0 < m < |fr| && FrameHolds(p, fr', m, s) ==> FrameHolds(p, fr, m, s)
  }

  lemma {:induction false} StrongerReflexive(p: Problem, fr: Frames)
    ensures Stronger(p, fr, fr)
  {
  }

  lemma {:induction false} StrongerTransitive(p: Problem, a: Frames, b: Frames, c: Frames)
    requires Stronger(p, a, b) && Stronger(p, b, c)
    ensures Stronger(p, a, c)
  {
  }

  /** Two stored sequences that mean the same frame by frame. */
  ghost predicate Equivalent(p: Problem, fr: Frames, fr': Frames) {
    && |fr'| == |fr|
    && forall m, s :: 0 < m < |fr| ==> (FrameHolds(p, fr', m, s) <==> FrameHolds(p, fr, m, s))
  }

  lemma {:induction false} EquivalentStronger(p: Problem, fr: Frames, fr': Frames)
    requires Equivalent(p, fr, fr')
    ensures Stronger(p, fr', fr)
  {
  }

  lemma {:induction false} EquivalentKeepsFrames(p: Problem, fr: Frames, fr': Frames, store: Frames)
    requires FramesOk(p, fr) && LabelsAgree(p, fr, store)
    requires Equivalent(p, fr, fr') && ClausesWithin(fr', fr)
    ensures FramesOk(p, fr') && LabelsAgree(p, fr', store)
  {
    forall j, s, t | 0 <= j < |fr'| - 1 && FrameHolds(p, fr', j, s) && Step(p.ts, s, t)
      ensures FrameHolds(p, fr', j + 1, t)
    {
      assert FrameHolds(p, fr, j, s);
    }
  }

  /** No level holds a clause it did not hold before. */
  ghost predicate ClausesWithin(fr': Frames, fr: Frames) {
    && |fr'| == |fr|
    && forall j :: 0 <= j < |fr'| ==> |fr'[j]| <= |fr[j]| && forall f :: f in fr'[j] ==> f in fr[j]
  }

  ghost predicate FrameImplies(p: Problem, fr: Frames, i: nat, f: IC3Formula) {
    forall s :: FrameHolds(p, fr, i, s) ==> Eval(f, s)
  }

  /** A clause at level `i` that the first `k` clauses of the level or the next frame make redundant. */
  ghost predicate Covered(p: Problem, fr: Frames, i: nat, k: nat, f: IC3Formula)
    requires i < |fr| && k <= |fr[i]|
  {
    f in fr[i][..k] || FrameImplies(p, fr, i + 1, f)
  }

  ghost predicate AllCovered(p: Problem, fr: Frames, i: nat, k: nat, j: nat)
    requires i < |fr| && k <= j <= |fr[i]|
  {
    forall q :: k <= q < j ==> Covered(p, fr, i, k, fr[i][q])
  }

  /** Moving the clause at `j` down to `k` loses nothing when positions `k` to `j` are redundant. */
  lemma {:induction false} MoveDownEquivalent(p: Problem, fr: Frames, i: nat, k: nat, j: nat)
    requires 0 < i < |fr| - 1 && k <= j < |fr[i]|
    requires AllCovered(p, fr, i, k, j)
    ensures Equivalent(p, fr, fr[i := fr[i][k := fr[i][j]]])
    ensures AllCovered(p, fr[i := fr[i][k := fr[i][j]]], i, k + 1, j + 1)
    ensures ClausesWithin(fr[i := fr[i][k := fr[i][j]]], fr)
  {
    var level' := fr[i][k := fr[i][j]];
    var fr' := fr[i := level'];
    assert level'[..k] == fr[i][..k] && level'[..k + 1] == fr[i][..k] + [fr[i][j]];
    assert forall m :: i + 1 <= m < |fr| ==> fr'[m] == fr[m];
    var up := i + 1;
    assert forall s :: FrameHolds(p, fr', up, s) <==> FrameHolds(p, fr, up, s);
    assert forall f :: f in level' ==> f in fr[i];
    forall m, s | 0 < m < |fr| ensures FrameHolds(p, fr', m, s) <==> FrameHolds(p, fr, m, s) {
      if FrameHolds(p, fr', m, s) && m <= i {
        MoveDownKeeps(p, fr, i, k, j, m, s);
      }
    }
  }

  lemma {:induction false} MoveDownKeeps(p: Problem, fr: Frames, i: nat, k: nat, j: nat, m: nat, s: State)
    requires 0 < m <= i < |fr| - 1 && k <= j < |fr[i]|
    requires AllCovered(p, fr, i, k, j)
    requires FrameHolds(p, fr[i := fr[i][k := fr[i][j]]], m, s)
    ensures FrameHolds(p, fr, m, s)
  {
    var level' := fr[i][k := fr[i][j]];
    var fr' := fr[i := level'];
    assert FrameHolds(p, fr, i + 1, s) by {
      assert forall n :: i + 1 <= n < |fr| ==> fr'[n] == fr[n];
    }
    forall n, f | m <= n < |fr| && f in fr[n] ensures Eval(f, s) {
      if n == i {
        var q :| 0 <= q < |fr[i]| && fr[i][q] == f;
        if q == k && q < j {
          assert Covered(p, fr, i, k, f);
          if f in fr[i][..k] {
            var x :| 0 <= x < k && fr[i][x] == f;
            assert level'[x] in fr'[i];
          }
        } else {
          assert level'[q] in fr'[i];
        }
      } else {
        assert f in fr'[n];
      }
    }
  }

  /** Dropping the redundant tail of a level loses nothing. */
  lemma {:induction false} TruncateEquivalent(p: Problem, fr: Frames, i: nat, k: nat)
    requires 0 < i < |fr| - 1 && k <= |fr[i]|
    requires AllCovered(p, fr, i, k, |fr[i]|)
    ensures Equivalent(p, fr, fr[i := fr[i][..k]]) && ClausesWithin(fr[i := fr[i][..k]], fr)
  {
    var fr' := fr[i := fr[i][..k]];
    assert forall m :: i + 1 <= m < |fr| ==> fr'[m] == fr[m];
    assert forall f :: f in fr'[i] ==> f in fr[i];
    forall m, s | 0 < m < |fr| && FrameHolds(p, fr', m, s) ensures FrameHolds(p, fr, m, s) {
      assert m <= i ==> FrameHolds(p, fr, i + 1, s);
      forall n, f | m <= n < |fr| && f in fr[n] ensures Eval(f, s) {
        if n == i {
          var q :| 0 <= q < |fr[i]| && fr[i][q] == f;
          if q < k {
            assert fr[i][..k][q] in fr'[i];
          }
        } else {
          assert f in fr'[n];
        }
      }
    }
  }

  lemma {:induction false} NothingCovered(p: Problem, fr: Frames, i: nat)
    requires i < |fr|
    ensures AllCovered(p, fr, i, 0, 0)
  {
  }

  /** A stored clause contains init, so its negation can be checked like a goal. */
  lemma {:induction false} StoredClause(p: Problem, fr: Frames, i: nat, c: IC3Formula)
    requires FramesOk(p, fr) && 0 < i < |fr| && c in fr[i]
    ensures c.disjunction && InitDisjoint(p, Negate(c))
  {
    forall s | p.ts.init(s) ensures !Eval(Negate(c), s) {
      assert FrameHolds(p, fr, i, s);
      NegateComplements(c, s);
    }
  }

  /** Storing a generalised clause at level `i + 1` keeps the invariant. */
  lemma {:induction false} PushedClause(
      p: Problem, fr: Frames, store: Frames, i: nat, cl: IC3Formula, gen: IC3Formula, c: IC3Formula)
    requires FramesOk(p, fr) && LabelsAgree(p, fr, store) && 0 < i < |fr| - 1
    requires cl == Negate(gen) && !gen.disjunction
    requires InitDisjoint(p, Negate(cl)) && RelInductive(p, fr, i, Negate(cl))
    ensures var fr' := Constrained(fr, i + 1, cl, false);
      && FramesOk(p, fr') && LabelsAgree(p, fr', store[i + 1 := store[i + 1] + [cl]])
      && Stronger(p, fr', fr)
  {
    ConstrainedBlocks(p, fr, i + 1, cl, false);
    ConstrainedLabels(p, store, i + 1, cl);
    BlockingKeepsFrames(p, fr, Constrained(fr, i + 1, cl, false), i + 1, Negate(cl));
  }

  /** The clause it came from is redundant afterwards, and so is everything that was. */
  lemma {:induction false} PushedCovers(
      p: Problem, fr: Frames, fr': Frames, i: nat, cl: IC3Formula, gen: IC3Formula, j: nat, k: nat)
    requires 0 < i < |fr| - 1 && k <= j < |fr[i]| && AllCovered(p, fr, i, k, j)
    requires fr' == Constrained(fr, i + 1, cl, false) && Stronger(p, fr', fr)
    requires cl == Negate(gen) && fr[i][j].disjunction && SubCube(gen, Negate(fr[i][j]))
    ensures fr'[i] == fr[i] && AllCovered(p, fr', i, k, j + 1)
  {
    assert fr'[i] == fr[i] + [] == fr[i];
    var up := i + 1;
    assert FrameImplies(p, fr', up, fr[i][j]) by {
      assert cl in fr'[up];
      forall s | FrameHolds(p, fr', up, s) ensures Eval(fr[i][j], s) {
        NegateComplements(gen, s);
        NegateComplements(fr[i][j], s);
      }
    }
    forall q | k <= q < j ensures Covered(p, fr', i, k, fr'[i][q]) {
      assert Covered(p, fr, i, k, fr[i][q]);
    }
  }

  // ----- verdicts -----

  ghost function FrameStates(p: Problem, fr: Frames, i: nat): iset<State> {
    iset s | FrameHolds(p, fr, i, s)
  }

  /** Two equal adjacent frames are an inductive invariant. */
  lemma {:induction false} EqualFramesInductive(p: Problem, fr: Frames, i: nat)
    requires FramesOk(p, fr) && 0 < i < |fr| - 1 && fr[i] == []
    ensures IsInductiveInvariant(p.ts, FrameStates(p, fr, i + 1))
  {
    var inv := FrameStates(p, fr, i + 1);
    forall s, t | s in inv && Step(p.ts, s, t) ensures t in inv {
      assert FrameHolds(p, fr, i, s);
    }
  }

  /** The states described by a list of clauses and the property. */
  ghost function InvarStates(p: Problem, invar: seq<IC3Formula>): iset<State> {
    iset s | !p.ts.bad(s) && forall f :: f in invar ==> Eval(f, s)
  }

  lemma {:induction false} InvarIsFrame(p: Problem, fr: Frames, i: nat, invar: seq<IC3Formula>)
    requires 0 < i < |fr|
    requires forall f :: f in invar <==> exists j :: i <= j < |fr| && f in fr[j]
    ensures InvarStates(p, invar) == FrameStates(p, fr, i)
  {
  }

  /** Frame `k` contains every state reached in at most `k` steps. */
  lemma {:induction false} FrameCoversRuns(p: Problem, fr: Frames, r: seq<State>, k: nat)
    requires FramesOk(p, fr) && IsRun(p.ts, r) && k < |r| && k < |fr|
    ensures FrameHolds(p, fr, k, r[k])
  {
    if k > 0 {
      FrameCoversRuns(p, fr, r, k - 1);
      assert Step(p.ts, r[k - 1], r[k - 1 + 1]);
    }
  }

  /** With `n + 1` frames no counterexample has `n` or fewer transitions. */
  lemma {:induction false} FramesExcludeShortCex(p: Problem, fr: Frames, r: seq<State>)
    requires FramesOk(p, fr) && IsCex(p.ts, r)
    ensures |r| > |fr|
  {
    if |r| <= |fr| {
      FrameCoversRuns(p, fr, r, |r| - 1);
      FrameAvoidsBad(p, fr, |r| - 1, r[|r| - 1]);
    }
  }
}
