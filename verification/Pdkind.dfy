/**
  The property-directed k-induction engine: lemmas learned from generalised
  counterexamples to induction are asserted for good at every unrolled time.
 */
module Pdkind {
  import opened Cardinality
  import opened Runs
  import opened Terms
  import opened TransitionSystems
  import opened Unrolling
  import KInduction

  // ----- the permanent context -----

  /** What is asserted at depth `i`: constraints and lemmas at every time, transitions in between. */
  ghost predicate InBackground(lemmas: seq<Cube>, i: nat, x: Assertion) {
    match x
    case ConsAt(k) => k <= i
    case TransAt(k) => k < i
    case OutAt(c, k) => c in lemmas && k <= i
    case _ => false
  }

  /** The context is exactly that: in particular every lemma is stamped at every time up to `i`. */
  ghost predicate IsBackground(all: seq<Assertion>, lemmas: seq<Cube>, i: nat) {
    forall x :: x in all <==> InBackground(lemmas, i, x)
  }

  ghost predicate Unreachable(d: Design, c: Cube) {
    forall s :: Reachable(d.ts, s) ==> !InCube(c, s)
  }

  /** Every lemma, the negation of its cube, holds on every reachable state. */
  ghost predicate LemmasHold(d: Design, lemmas: seq<Cube>) {
    forall c :: c in lemmas ==> Unreachable(d, c)
  }

  function GoodBelow(k: nat): (r: seq<Assertion>)
    ensures forall x :: x in r <==> x.GoodAt? && x.k < k
  {
    if k == 0 then [] else GoodBelow(k - 1) + [GoodAt(k - 1)]
  }

  /** Every reachable state meets the constraints for some input. */
  ghost predicate ConstraintsMet(d: Design) {
    forall s :: Reachable(d.ts, s) ==> exists i :: d.cons(s, i)
  }

  lemma {:induction false} DeadlockFreeMeets(d: Design)
    requires d.WellFormed() && NoReachableDeadlock(d.ts)
    ensures ConstraintsMet(d)
  {
    forall s | Reachable(d.ts, s) ensures exists i :: d.cons(s, i) {
      var t :| Step(d.ts, s, t);
      var i :| d.ts.trans(s, i, t);
      assert d.cons(s, i);
    }
  }

  /** The unrolling from `o` on: `i` transitions of the run, with inputs, the last state continuing. */
  ghost predicate Follows(d: Design, r: seq<State>, o: nat, i: nat, p: Path) {
    && o + i < |r| && |p| == i + 1
    && (forall k :: 0 <= k <= i ==> p[k].st == r[o + k])
    && (forall k :: 0 <= k < i ==> SatisfiedBy(d, p, TransAt(k)))
    && d.cons(p[i].st, p[i].inp)
  }

  lemma {:induction false} FollowRun(d: Design, r: seq<State>, o: nat, i: nat) returns (p: Path)
    requires ConstraintsMet(d) && IsRun(d.ts, r) && o + i < |r|
    ensures Follows(d, r, o, i, p)
  {
    RunStatesReachable(d.ts, r, o + i);
    var last :| d.cons(r[o + i], last);
    PathSlice(d.ts, r, o, o + i + 1);
    p := Annotate(d, r[o..o + i + 1], last);
  }

  lemma {:induction false} FollowedInBackground(
      d: Design, lemmas: seq<Cube>, r: seq<State>, o: nat, i: nat, p: Path, x: Assertion)
    requires d.WellFormed() && LemmasHold(d, lemmas) && IsRun(d.ts, r) && Follows(d, r, o, i, p)
    requires InBackground(lemmas, i, x)
    ensures SatisfiedBy(d, p, x)
  {
    match x
    case TransAt(k) =>
    case ConsAt(k) =>
      if k < i {
        assert SatisfiedBy(d, p, TransAt(k));
      }
    case OutAt(c, k) =>
      RunStatesReachable(d.ts, r, o + k);
  }

  /** A window of a run, from any offset, satisfies the permanent context. */
  lemma {:induction false} RunInBackground(
      d: Design, all: seq<Assertion>, lemmas: seq<Cube>, r: seq<State>, o: nat, i: nat) returns (p: Path)
    requires d.WellFormed() && ConstraintsMet(d) && LemmasHold(d, lemmas)
    requires IsBackground(all, lemmas, i) && IsRun(d.ts, r) && o + i < |r|
    ensures IsModel(d, p, all) && Follows(d, r, o, i, p)
  {
    p := FollowRun(d, r, o, i);
    forall x | x in all ensures SatisfiedBy(d, p, x) {
      FollowedInBackground(d, lemmas, r, o, i, p, x);
    }
  }

  // ----- what the verdicts rest on -----

  lemma {:induction false} BaseExtends(d: Design, all: seq<Assertion>, lemmas: seq<Cube>, i: nat)
    requires d.WellFormed() && ConstraintsMet(d) && LemmasHold(d, lemmas) && IsBackground(all, lemmas, i)
    requires Unsatisfiable(d, all + [Init0, BadAt(i)])
    ensures NoCexAmong(d, {i})
  {
    forall r | IsRun(d.ts, r) && |r| == i + 1 ensures !d.ts.bad(r[i]) {
      var p := RunInBackground(d, all, lemmas, r, 0, i);
      assert !IsModel(d, p, all + [Init0, BadAt(i)]);
      assert SatisfiedBy(d, p, Init0);
      assert !SatisfiedBy(d, p, BadAt(i));
    }
  }

  lemma {:induction false} BaseModelIsCex(d: Design, all: seq<Assertion>, lemmas: seq<Cube>, i: nat, p: Path)
    requires IsBackground(all, lemmas, i) && IsModel(d, p, all + [Init0, BadAt(i)])
    ensures !NoCexAmong(d, {i}) && !Safe(d.ts)
  {
    assert Init0 in all + [Init0, BadAt(i)] && BadAt(i) in all + [Init0, BadAt(i)];
    assert SatisfiedBy(d, p, Init0) && SatisfiedBy(d, p, BadAt(i));
    forall k | 0 <= k < i ensures SatisfiedBy(d, p, TransAt(k)) {
      assert InBackground(lemmas, i, TransAt(k));
    }
    var r := ModelIsPath(d, p, i);
    assert IsCex(d.ts, r);
    CexIsUnsafe(d.ts, r);
  }

  /** The context without lemmas at depth `i`. */
  function PlainContext(i: nat): (r: seq<Assertion>)
    ensures IsBackground(r, [], i)
  {
    if i == 0 then [ConsAt(0)] else PlainContext(i - 1) + [ConsAt(i), TransAt(i - 1)]
  }

  ghost predicate BaseDecides(d: Design, all: seq<Assertion>, i: nat) {
    Unsatisfiable(d, all + [Init0, BadAt(i)]) <==> NoCexAmong(d, {i})
  }

  /** For every property and depth the base check finds a counterexample of that depth if there is one. */
  ghost predicate BaseIsExact(d: Design) {
    forall bad: State -> bool, all, i: nat :: IsBackground(all, [], i) ==> BaseDecides(WithBad(d, bad), all, i)
  }

  /** The base check is exact precisely when every reachable state meets the constraints for some input. */
  lemma {:induction false} BaseExactIff(d: Design)
    requires d.WellFormed()
    ensures BaseIsExact(d) <==> ConstraintsMet(d)
  {
    hide Unsatisfiable, NoCexAmong;
    if ConstraintsMet(d) {
      forall bad: State -> bool, all, i: nat | IsBackground(all, [], i) ensures BaseDecides(WithBad(d, bad), all, i) {
        MetForAnyBad(d, bad);
        MetDecides(WithBad(d, bad), all, i);
      }
    }
    if BaseIsExact(d) {
      forall s | Reachable(d.ts, s) ensures exists i :: d.cons(s, i) {
        var r :| IsRun(d.ts, r) && r[|r| - 1] == s;
        var bad := (t: State) => t == s;
        assert BaseDecides(WithBad(d, bad), PlainContext(|r| - 1), |r| - 1);
        ExactMeets(d, r, s, bad);
      }
    }
  }

  lemma {:induction false} MetDecides(d: Design, all: seq<Assertion>, i: nat)
    requires d.WellFormed() && ConstraintsMet(d) && IsBackground(all, [], i)
    ensures BaseDecides(d, all, i)
  {
    if Unsatisfiable(d, all + [Init0, BadAt(i)]) {
      BaseExtends(d, all, [], i);
    } else {
      var p :| IsModel(d, p, all + [Init0, BadAt(i)]);
      BaseModelIsCex(d, all, [], i, p);
    }
  }

  lemma {:induction false} MetForAnyBad(d: Design, bad: State -> bool)
    requires d.WellFormed() && ConstraintsMet(d)
    ensures WithBad(d, bad).WellFormed() && ConstraintsMet(WithBad(d, bad))
  {
    var e := WithBad(d, bad);
    forall s | Reachable(e.ts, s) ensures exists i :: e.cons(s, i) {
      var r :| IsRun(e.ts, r) && r[|r| - 1] == s;
      SameRuns(d, bad, r);
      assert Reachable(d.ts, s);
    }
    forall s, i, t, u: State | e.ts.trans(s, i, t) && e.Occurs(u) && e.AgreeOnUpdated(t, u)
      ensures e.ts.trans(s, i, u)
    {
      assert d.Occurs(u) && d.AgreeOnUpdated(t, u);
    }
  }

  lemma {:induction false} ExactMeets(d: Design, r: seq<State>, s: State, bad: State -> bool)
    requires IsRun(d.ts, r) && r[|r| - 1] == s && (forall t :: bad(t) <==> t == s)
    requires BaseDecides(WithBad(d, bad), PlainContext(|r| - 1), |r| - 1)
    ensures exists i :: d.cons(s, i)
  {
    var e, n := WithBad(d, bad), |r| - 1;
    SameRuns(d, bad, r);
    assert IsCex(e.ts, r);
    var p: Path :| IsModel(e, p, PlainContext(n) + [Init0, BadAt(n)]);
    assert InBackground([], n, ConsAt(n));
    assert SatisfiedBy(e, p, ConsAt(n)) && SatisfiedBy(e, p, BadAt(n));
    assert d.cons(s, p[n].inp);
  }

  /** The simple-path constraints of one inductive check. */
  ghost predicate SimpleScope(d: Design, scope: seq<Assertion>, k: nat) {
    forall x :: x in scope ==> x.Distinct? && x.a < x.b <= k && x.over == Compared(d, x.a, x.b)
  }

  ghost function Scoped(scope: seq<Assertion>, k: nat): set<(nat, nat)> {
    set q | q in Pairs(k) && exists x :: x in scope && x.Distinct? && x.a == q.0 && x.b == q.1
  }

  lemma {:induction false} WindowInInductive(
      d: Design, all: seq<Assertion>, scope: seq<Assertion>, r: seq<State>, o: nat, k: nat, p: Path)
    requires d.WellFormed() && IsShortestCex(d.ts, r) && o + k + 1 == |r|
    requires IsModel(d, p, all) && Follows(d, r, o, k, p) && SimpleScope(d, scope, k)
    ensures IsModel(d, p, all + GoodBelow(k) + [BadAt(k)] + scope)
  {
    hide IsModel, Compared, Differ;
    forall j: nat | j < k ensures SatisfiedBy(d, p, GoodAt(j)) {
      ShortestCexPrefixGood(d.ts, r, o + j);
    }
    forall x | x in scope ensures SatisfiedBy(d, p, x) {
      ShortestCexSimple(d, r, o, x.a, x.b);
    }
    assert SatisfiedBy(d, p, BadAt(k));
    InductiveParts(d, all, scope, k, p);
  }

  lemma {:induction false} InductiveParts(d: Design, all: seq<Assertion>, scope: seq<Assertion>, k: nat, p: Path)
    requires IsModel(d, p, all) && SatisfiedBy(d, p, BadAt(k))
    requires forall j: nat :: j < k ==> SatisfiedBy(d, p, GoodAt(j))
    requires forall x :: x in scope ==> SatisfiedBy(d, p, x)
    ensures IsModel(d, p, all + GoodBelow(k) + [BadAt(k)] + scope)
  {
    hide SatisfiedBy;
  }

  /** No model of the inductive check: the last `k` transitions of a shortest counterexample would be one. */
  lemma {:induction false} InductiveProves(
      d: Design, all: seq<Assertion>, lemmas: seq<Cube>, scope: seq<Assertion>, k: nat)
    requires d.WellFormed() && ConstraintsMet(d) && LemmasHold(d, lemmas) && IsBackground(all, lemmas, k)
    requires NoCexWithin(d, k - 1) && SimpleScope(d, scope, k)
    requires Unsatisfiable(d, all + GoodBelow(k) + [BadAt(k)] + scope)
    ensures Safe(d.ts)
  {
    if !Safe(d.ts) {
      var r := UnsafeHasShortestCex(d.ts);
      var p := RunInBackground(d, all, lemmas, r, |r| - 1 - k, k);
      WindowInInductive(d, all, scope, r, |r| - 1 - k, k, p);
      assert false;
    }
  }

  // ----- lemma soundness -----

  /** Both queries of the relative-inductivity check have no model. */
  ghost predicate PassesCheck(d: Design, all: seq<Assertion>, c: Cube) {
    && Unsatisfiable(d, all + [Init0, InAt(c, 0)])
    && Unsatisfiable(d, all + [OutAt(c, 0), InAt(c, 1)])
  }

  /** A run through `r[k]` that goes on for `i` transitions. */
  lemma {:induction false} ExtendRun(d: Design, r: seq<State>, k: nat, i: nat) returns (q: seq<State>)
    requires NoReachableDeadlock(d.ts) && IsRun(d.ts, r) && k < |r|
    ensures IsRun(d.ts, q) && |q| == k + i + 1 && forall j :: 0 <= j <= k ==> q[j] == r[j]
  {
    RunStatesReachable(d.ts, r, k);
    var e := Extend(d.ts, r[k], i);
    PathSlice(d.ts, r, 0, k + 1);
    PathSplice(d, r[0..k + 1], e);
    q := r[0..k + 1] + e[1..];
  }

  /** A cube that passes the check is entered by no run, by induction along the run. */
  lemma {:induction false} CheckedCubeAvoided(
      d: Design, all: seq<Assertion>, lemmas: seq<Cube>, i: nat, c: Cube, r: seq<State>, k: nat)
    requires d.WellFormed() && NoReachableDeadlock(d.ts) && LemmasHold(d, lemmas) && IsBackground(all, lemmas, i)
    requires i > 0 && PassesCheck(d, all, c) && IsRun(d.ts, r) && k < |r|
    ensures !InCube(c, r[k])
  {
    var q := ExtendRun(d, r, k, i);
    DeadlockFreeMeets(d);
    if k == 0 {
      var p := RunInBackground(d, all, lemmas, q, 0, i);
      assert !IsModel(d, p, all + [Init0, InAt(c, 0)]);
      assert SatisfiedBy(d, p, Init0);
      assert !SatisfiedBy(d, p, InAt(c, 0));
    } else {
      CheckedCubeAvoided(d, all, lemmas, i, c, r, k - 1);
      var p := RunInBackground(d, all, lemmas, q, k - 1, i);
      assert !IsModel(d, p, all + [OutAt(c, 0), InAt(c, 1)]);
      assert SatisfiedBy(d, p, OutAt(c, 0));
      assert !SatisfiedBy(d, p, InAt(c, 1));
    }
  }

  lemma {:induction false} CheckedLemmaHolds(d: Design, all: seq<Assertion>, lemmas: seq<Cube>, i: nat, c: Cube)
    requires d.WellFormed() && NoReachableDeadlock(d.ts) && LemmasHold(d, lemmas) && IsBackground(all, lemmas, i)
    requires i > 0 && PassesCheck(d, all, c)
    ensures LemmasHold(d, lemmas + [c])
  {
    forall s | Reachable(d.ts, s) ensures !InCube(c, s) {
      var r :| IsRun(d.ts, r) && r[|r| - 1] == s;
      CheckedCubeAvoided(d, all, lemmas, i, c, r, |r| - 1);
    }
  }

  /** The check, at every depth and for every cube, only passes unreachable cubes. */
  ghost predicate CheckIsSound(d: Design) {
    forall all, i: nat, c :: i > 0 && IsBackground(all, [], i) && PassesCheck(d, all, c) ==> Unreachable(d, c)
  }

  function StateCube(vars: seq<Name>, s: State): (c: Cube)
    ensures |c| == |vars| && forall k :: 0 <= k < |c| ==> c[k] == Literal(vars[k], Lookup(s, vars[k]))
  {
    seq(|vars|, k requires 0 <= k < |vars| => Literal(vars[k], Lookup(s, vars[k])))
  }

  lemma {:induction false} InStateCube(vars: seq<Name>, s: State, t: State)
    requires s.Keys == VarSet(vars) && t.Keys == VarSet(vars)
    ensures InCube(StateCube(vars, s), t) <==> s == t
  {
    var c := StateCube(vars, s);
    if InCube(c, t) {
      forall n | n in vars ensures Lookup(s, n) == Lookup(t, n) {
        var k :| 0 <= k < |vars| && vars[k] == n;
        assert Lookup(t, c[k].n) == c[k].val;
      }
      SameLookups(vars, s, t);
    }
  }

  function TwoSteps(): seq<Assertion> {
    [ConsAt(0), ConsAt(1), ConsAt(2), TransAt(0), TransAt(1)]
  }

  lemma {:induction false} TwoStepsIsBackground()
    ensures IsBackground(TwoSteps(), [], 2)
  {
    assert TwoSteps()[0] == ConsAt(0) && TwoSteps()[1] == ConsAt(1) && TwoSteps()[2] == ConsAt(2);
    assert TwoSteps()[3] == TransAt(0) && TwoSteps()[4] == TransAt(1);
  }

  /** The cube of a reachable state without successor passes the check at depth 2. */
  lemma {:induction false} StuckCubePasses(d: Design, s: State)
    requires d.WellFormed() && s.Keys == VarSet(d.vars) && forall t :: !Step(d.ts, s, t)
    ensures PassesCheck(d, TwoSteps(), StateCube(d.vars, s))
  {
    var c := StateCube(d.vars, s);
    forall p ensures !IsModel(d, p, TwoSteps() + [Init0, InAt(c, 0)]) {
      NoPathThrough(d, s, p, 0);
      assert TransAt(0) in TwoSteps() + [Init0, InAt(c, 0)] && InAt(c, 0) in TwoSteps() + [Init0, InAt(c, 0)];
    }
    forall p ensures !IsModel(d, p, TwoSteps() + [OutAt(c, 0), InAt(c, 1)]) {
      NoPathThrough(d, s, p, 1);
      assert TransAt(1) in TwoSteps() + [OutAt(c, 0), InAt(c, 1)] &&
        InAt(c, 1) in TwoSteps() + [OutAt(c, 0), InAt(c, 1)];
    }
  }

  lemma {:induction false} NoPathThrough(d: Design, s: State, p: Path, k: nat)
    requires d.WellFormed() && s.Keys == VarSet(d.vars) && forall t :: !Step(d.ts, s, t)
    ensures !(SatisfiedBy(d, p, TransAt(k)) && SatisfiedBy(d, p, InAt(StateCube(d.vars, s), k)))
  {
    if SatisfiedBy(d, p, TransAt(k)) {
      InStateCube(d.vars, s, p[k].st);
      assert !Step(d.ts, s, p[k + 1].st);
    }
  }

  lemma {:induction false} ReachableKeys(d: Design, s: State)
    requires d.WellFormed() && Reachable(d.ts, s)
    ensures s.Keys == VarSet(d.vars)
  {
    var r :| IsRun(d.ts, r) && r[|r| - 1] == s;
    if |r| > 1 {
      assert Step(d.ts, r[|r| - 2], r[|r| - 2 + 1]);
    }
  }

  /** The relative-inductivity check is a soundness gate exactly for systems whose reachable states all continue. */
  lemma {:induction false} CheckSoundIff(d: Design)
    requires d.WellFormed()
    ensures CheckIsSound(d) <==> NoReachableDeadlock(d.ts)
  {
    if NoReachableDeadlock(d.ts) {
      forall all, i: nat, c | i > 0 && IsBackground(all, [], i) && PassesCheck(d, all, c) ensures Unreachable(d, c) {
        CheckedLemmaHolds(d, all, [], i, c);
        assert [] + [c] == [c];
        assert c in [c];
      }
    }
    if CheckIsSound(d) {
      forall s | Reachable(d.ts, s) ensures exists t :: Step(d.ts, s, t) {
        ReachableKeys(d, s);
        InStateCube(d.vars, s, s);
        TwoStepsIsBackground();
        assert !PassesCheck(d, TwoSteps(), StateCube(d.vars, s));
        if forall t :: !Step(d.ts, s, t) {
          StuckCubePasses(d, s);
        }
      }
    }
  }

  /** At depth 0 an initial bad state that its constraint forbids to leave is missed by both checks. */
  lemma {:induction false} StuckSystemPassesDepthZero(th: Theory)
    ensures Shaped(StuckView(), th) && !Safe(Semantics(StuckView(), StuckBad(), th))
    ensures Unsatisfiable(DesignOf(StuckView(), StuckBad(), th), [ConsAt(0), Init0, BadAt(0)])
    ensures Unsatisfiable(DesignOf(StuckView(), StuckBad(), th), [ConsAt(0), BadAt(0)])
  {
    hide Semantics, Eval, Holds, Shaped, SatisfiedBy;
    RightTotalQueryIsNotEnough(th);
    var d := DesignOf(StuckView(), StuckBad(), th);
    var a, b := [ConsAt(0), Init0, BadAt(0)], [ConsAt(0), BadAt(0)];
    assert a[0] == b[0] == ConsAt(0) && a[2] == b[1] == BadAt(0);
    forall p ensures !IsModel(d, p, a) && !IsModel(d, p, b) {
      StuckBadForbidden(th, p);
    }
  }

  lemma {:induction false} StuckBadForbidden(th: Theory, p: Path)
    ensures !(SatisfiedBy(DesignOf(StuckView(), StuckBad(), th), p, ConsAt(0))
           && SatisfiedBy(DesignOf(StuckView(), StuckBad(), th), p, BadAt(0)))
  {
    hide Eval, Holds;
    if |p| > 0 {
      StuckMeaning(th, p[0].st, map[], p[0].st);
      StuckConstraint(th, p[0].st, p[0].inp);
    }
  }

  lemma {:induction false} StuckConstraint(th: Theory, s: State, i: Input)
    ensures DesignOf(StuckView(), StuckBad(), th).cons(s, i) <==> Lookup(s, Y) != Bool(true)
  {
    hide Eval;
    EvalNot(Sym(Cur(Y)), EnvOf(s, i, s), th);
    EvalSym(Cur(Y), EnvOf(s, i, s), th);
    assert StuckView().constraints[0] == MkNot(Sym(Cur(Y)));
  }

  /** Where only the base check at 0 is inconclusive, depth 1 is proved and the verdict is wrong. */
  lemma {:induction false} UnknownBaseMisleads(th: Theory, all: seq<Assertion>, lemmas: seq<Cube>)
    requires IsBackground(all, lemmas, 1)
    ensures Shaped(FlipView(), th) && NoReachableDeadlock(Semantics(FlipView(), FlipBad(), th))
    ensures forall n: nat :: NoCexAmong(DesignOf(FlipView(), FlipBad(), th), {n}) <==> n != 0
    ensures Unsatisfiable(DesignOf(FlipView(), FlipBad(), th), all + GoodBelow(1) + [BadAt(1)])
  {
    hide NoCexAmong, SatisfiedBy, Shaped, NoReachableDeadlock;
    FlipBadOnlyAtStart(th);
    var stack := all + GoodBelow(1) + [BadAt(1)];
    assert InBackground(lemmas, 1, TransAt(0));
    assert TransAt(0) in stack && BadAt(1) in stack;
  }

  /** Constraints can be met everywhere although a reachable state is stuck. */
  lemma {:induction false} StuckButMet() returns (d: Design)
    ensures d.WellFormed() && ConstraintsMet(d) && !NoReachableDeadlock(d.ts)
  {
    var s0: State := map[];
    d := Design(System((s: State) => s == s0, (s: State, i: Input, t: State) => false, (s: State) => false), [], {},
      (s: State, i: Input) => true);
    assert VarSet([]) == {};
    forall s | Reachable(d.ts, s) ensures exists i :: d.cons(s, i) {
      var i: Input := map[];
      assert d.cons(s, i);
    }
    assert IsRun(d.ts, [s0]) && [s0][|[s0]| - 1] == s0;
    assert Reachable(d.ts, s0);
    forall t ensures !Step(d.ts, s0, t) {
    }
  }

  // ----- generalisation -----

  /** Probes allowed at depth `k`. */
  function MaxProbes(k: nat): nat {
    if k > 50 then 0 else if k > 20 then 25 else 50
  }

  function Singles(c: Cube, k: nat): (r: seq<Assertion>)
    ensures |r| == |c| && forall j :: 0 <= j < |c| ==> r[j] == InAt([c[j]], k)
  {
    seq(|c|, j requires 0 <= j < |c| => InAt([c[j]], k))
  }

  /** Every model of the context that respects the property before `k` and is in the cube at `k - 1` is bad at `k`. */
  ghost predicate Forces(d: Design, all: seq<Assertion>, c: Cube, k: nat)
    requires k > 0
  {
    forall p: Path :: |p| > k && IsModel(d, p, all + GoodBelow(k)) && InCube(c, p[k - 1].st) ==> d.ts.bad(p[k].st)
  }

  /** Some model escapes to a good state although it has every literal of the cube but the one at `m`. */
  ghost predicate Escapes(d: Design, all: seq<Assertion>, c: Cube, m: nat, k: nat, p: Path)
    requires k > 0
  {
    && |p| > k && IsModel(d, p, all + GoodBelow(k)) && !d.ts.bad(p[k].st)
    && forall j :: 0 <= j < |c| && j != m ==> Lookup(p[k - 1].st, c[j].n) == c[j].val
  }

  ghost predicate Minimal(d: Design, all: seq<Assertion>, c: Cube, k: nat)
    requires k > 0
  {
    AllEssential(d, all, c, |c|, k)
  }

  ghost predicate AllEssential(d: Design, all: seq<Assertion>, c: Cube, n: nat, k: nat)
    requires k > 0
  {
    forall m :: 0 <= m < n ==> Essential(d, all, c, m, k)
  }

  ghost predicate Essential(d: Design, all: seq<Assertion>, c: Cube, m: nat, k: nat)
    requires k > 0
  {
    exists p: Path :: Escapes(d, all, c, m, k, p)
  }

  lemma {:induction false} ProbeUnsat(d: Design, all: seq<Assertion>, kept: Cube, rest: Cube, k: nat)
    requires k > 0
    requires Unsatisfiable(d, all + GoodBelow(k) + Singles(kept, k - 1) + Singles(rest, k - 1) + [GoodAt(k)])
    ensures Forces(d, all, kept + rest, k)
  {
    hide IsModel;
    forall p: Path | |p| > k && IsModel(d, p, all + GoodBelow(k)) && InCube(kept + rest, p[k - 1].st)
      ensures d.ts.bad(p[k].st)
    {
      InBoth(kept, rest, p[k - 1].st);
      InSingles(d, kept, k - 1, p);
      InSingles(d, rest, k - 1, p);
      if SatisfiedBy(d, p, GoodAt(k)) {
        ProbeModel(d, all + GoodBelow(k), Singles(kept, k - 1), Singles(rest, k - 1), k, p);
      }
    }
  }

  lemma {:induction false} InBoth(c: Cube, e: Cube, s: State)
    ensures InCube(c + e, s) <==> InCube(c, s) && InCube(e, s)
  {
    if InCube(c + e, s) {
      forall j | 0 <= j < |c| ensures Lookup(s, c[j].n) == c[j].val {
        assert (c + e)[j] == c[j];
      }
      forall j | 0 <= j < |e| ensures Lookup(s, e[j].n) == e[j].val {
        assert (c + e)[|c| + j] == e[j];
      }
    }
  }

  lemma {:induction false} InSingles(d: Design, c: Cube, k: nat, p: Path)
    requires k < |p| && InCube(c, p[k].st)
    ensures IsModel(d, p, Singles(c, k))
  {
    forall x | x in Singles(c, k) ensures SatisfiedBy(d, p, x) {
      var j :| 0 <= j < |c| && x == InAt([c[j]], k);
      InSingle(c[j], p[k].st);
    }
  }

  lemma {:induction false} ProbeModel(
      d: Design, a: seq<Assertion>, b: seq<Assertion>, c: seq<Assertion>, k: nat, p: Path)
    requires IsModel(d, p, a) && IsModel(d, p, b) && IsModel(d, p, c) && SatisfiedBy(d, p, GoodAt(k))
    ensures IsModel(d, p, a + b + c + [GoodAt(k)])
  {
    hide SatisfiedBy;
  }

  lemma {:induction false} ProbeSat(
      d: Design, all: seq<Assertion>, lemmas: seq<Cube>, kept: Cube, lit: Literal, rest: Cube, k: nat, p: Path)
    requires k > 0 && IsBackground(all, lemmas, k)
    requires IsModel(d, p, all + GoodBelow(k) + Singles(kept, k - 1) + Singles(rest, k - 1) + [GoodAt(k)])
    ensures Escapes(d, all, kept + [lit] + rest, |kept|, k, p)
  {
    var stack := all + GoodBelow(k) + Singles(kept, k - 1) + Singles(rest, k - 1) + [GoodAt(k)];
    assert InBackground(lemmas, k, ConsAt(k));
    assert ConsAt(k) in stack && GoodAt(k) in stack;
    assert SatisfiedBy(d, p, ConsAt(k)) && SatisfiedBy(d, p, GoodAt(k));
    forall j | 0 <= j < |kept| ensures Lookup(p[k - 1].st, kept[j].n) == kept[j].val {
      assert Singles(kept, k - 1)[j] in stack;
      InSingle(kept[j], p[k - 1].st);
    }
    forall j | 0 <= j < |rest| ensures Lookup(p[k - 1].st, rest[j].n) == rest[j].val {
      assert Singles(rest, k - 1)[j] in stack;
      InSingle(rest[j], p[k - 1].st);
    }
  }

  lemma {:induction false} InSingle(l: Literal, s: State)
    ensures InCube([l], s) <==> Lookup(s, l.n) == l.val
  {
    assert [l][0] == l;
  }

  /** A literal that was essential stays so when another one is dropped. */
  lemma {:induction false} EssentialAfterDrop(
      d: Design, all: seq<Assertion>, kept: Cube, lit: Literal, rest: Cube, m: nat, k: nat)
    requires k > 0 && m < |kept| && Essential(d, all, kept + [lit] + rest, m, k)
    ensures Essential(d, all, kept + rest, m, k)
  {
    var c, e := kept + [lit] + rest, kept + rest;
    var p: Path :| Escapes(d, all, c, m, k, p);
    forall j | 0 <= j < |e| && j != m ensures Lookup(p[k - 1].st, e[j].n) == e[j].val {
      assert e[j] == if j < |kept| then c[j] else c[j + 1];
    }
    assert Escapes(d, all, e, m, k, p);
  }

  lemma {:induction false} DropKeepsEssential(
      d: Design, all: seq<Assertion>, kept: Cube, lit: Literal, rest: Cube, k: nat)
    requires k > 0 && AllEssential(d, all, kept + [lit] + rest, |kept|, k)
    ensures AllEssential(d, all, kept + rest, |kept|, k)
  {
    forall m | 0 <= m < |kept| ensures Essential(d, all, kept + rest, m, k) {
      EssentialAfterDrop(d, all, kept, lit, rest, m, k);
    }
  }

  lemma {:induction false} NothingKept(d: Design, all: seq<Assertion>, c: Cube, k: nat)
    requires k > 0
    ensures AllEssential(d, all, c, 0, k)
  {
  }

  lemma {:induction false} KeptIsEssential(d: Design, all: seq<Assertion>, kept: Cube, lit: Literal, rest: Cube, k: nat)
    requires k > 0 && AllEssential(d, all, kept + [lit] + rest, |kept|, k)
    requires Essential(d, all, kept + [lit] + rest, |kept|, k)
    ensures AllEssential(d, all, kept + [lit] + rest, |kept| + 1, k)
  {
    hide Essential;
  }

  // ----- simple paths of one inductive check -----

  /** Constraints over usable variables that the model violates. */
  ghost predicate Violated(d: Design, batch: seq<Assertion>, k: nat, p: Path) {
    SimpleScope(d, batch, k) && forall x :: x in batch ==> !SatisfiedBy(d, p, x)
  }

  /** Every pair before `(a, b)` that can differ at all does, or is in the batch. */
  ghost predicate ScannedTo(d: Design, batch: seq<Assertion>, p: Path, k: nat, a: nat, b: nat)
    requires |p| > k
  {
    forall x: nat, y: nat :: x < y <= k && (x < a || (x == a && y < b)) ==> PairCovered(d, batch, p, x, y)
  }

  ghost predicate PairCovered(d: Design, batch: seq<Assertion>, p: Path, x: nat, y: nat)
    requires x < y < |p|
  {
    var over := Compared(d, x, y);
    over == [] || Differ(p[x].st, p[y].st, over) || Distinct(x, y, over) in batch
  }

  /** The state an inductive check stops in: a genuine counterexample to induction. */
  ghost predicate IsCti(d: Design, all: seq<Assertion>, k: nat, p: Path) {
    && |p| > k && IsModel(d, p, all + GoodBelow(k) + [BadAt(k)])
    && ScannedTo(d, [], p, k, k + 1, 0)
  }

  /** A pair of times that agrees in the model `q` is told apart in the later one. */
  ghost predicate Repaired(d: Design, q: Path, p: Path, k: nat) {
    && |q| > k && |p| > k
    && forall x: nat, y: nat :: x < y <= k ==> PairCovered(d, [], q, x, y) || PairCovered(d, [], p, x, y)
  }

  /** No pair that has agreed in a model agrees in a later one. */
  ghost predicate NeverAgain(d: Design, models: seq<Path>, k: nat) {
    forall m, n :: 0 <= m < n < |models| ==> Repaired(d, models[m], models[n], k)
  }

  /** The pairs that agree in one of the models are all in scope. */
  ghost predicate AllInScope(d: Design, scope: seq<Assertion>, models: seq<Path>, k: nat) {
    forall q :: q in models ==> |q| > k && ScannedTo(d, scope, q, k, k + 1, 0)
  }

  /** A model under the constraints for the earlier ones repairs them, and its own pairs come into scope. */
  lemma {:induction false} ModelRepairs(
      d: Design, stack: seq<Assertion>, scope: seq<Assertion>, batch: seq<Assertion>, models: seq<Path>, k: nat,
      p: Path)
    requires NeverAgain(d, models, k) && AllInScope(d, scope, models, k)
    requires |p| > k && IsModel(d, p, stack + scope) && ScannedTo(d, batch, p, k, k + 1, 0)
    ensures NeverAgain(d, models + [p], k) && AllInScope(d, scope + batch, models + [p], k)
  {
    forall q | q in models ensures Repaired(d, q, p, k) && ScannedTo(d, scope + batch, q, k, k + 1, 0) {
      forall x: nat, y: nat | x < y <= k
        ensures PairCovered(d, scope + batch, q, x, y)
        ensures PairCovered(d, [], q, x, y) || PairCovered(d, [], p, x, y)
      {
        assert PairCovered(d, scope, q, x, y);
        assert forall c :: c in scope ==> c in stack + scope;
      }
    }
    forall x: nat, y: nat | x < y <= k ensures PairCovered(d, scope + batch, p, x, y) {
      assert PairCovered(d, batch, p, x, y);
    }
  }

  lemma {:induction false} ScopeGrows(
      d: Design, stack: seq<Assertion>, scope: seq<Assertion>, batch: seq<Assertion>, k: nat, p: Path)
    requires SimpleScope(d, scope, k) && Violated(d, batch, k, p) && batch != []
    requires IsModel(d, p, stack + scope)
    ensures SimpleScope(d, scope + batch, k)
    ensures |Pairs(k) - Scoped(scope + batch, k)| < |Pairs(k) - Scoped(scope, k)|
  {
    var x := batch[0];
    assert x in batch;
    var q := (x.a, x.b);
    forall y | y in scope && y.Distinct? ensures !(y.a == q.0 && y.b == q.1) {
      assert y in stack + scope;
      assert y == Distinct(y.a, y.b, Compared(d, y.a, y.b));
    }
    assert q !in Scoped(scope, k);
    assert x in scope + batch;
    assert q in Scoped(scope + batch, k);
    StrictSubsetSmaller(Pairs(k) - Scoped(scope + batch, k), Pairs(k) - Scoped(scope, k), q);
  }

  lemma {:induction false} ModelReaches(
      d: Design, all: seq<Assertion>, rest: seq<Assertion>, lemmas: seq<Cube>, k: nat, p: Path)
    requires IsBackground(all, lemmas, k) && IsModel(d, p, all + rest)
    ensures |p| > k
  {
    assert InBackground(lemmas, k, ConsAt(k));
    assert ConsAt(k) in all + rest;
  }

  class PDKind {
    const d: Design
    const solve: Oracle
    const expired: nat -> bool      // the clock of a generalisation, read before each probe

    var reachedK: int
    var lemmas: seq<Cube>           // each stands for the negation of its cube
    var lemmaSet: set<Cube>
    var asserted: seq<Assertion>    // permanent assertions
    var checks: nat
    ghost var unknownAt: set<nat>   // the depths whose base check was inconclusive

    ghost predicate Fit() {
      d.WellFormed() && Correct(d, solve)
    }

    constructor (d: Design, solve: Oracle, expired: nat -> bool)
      ensures this.d == d && this.solve == solve && this.expired == expired
      ensures reachedK == -1 && lemmas == [] && lemmaSet == {} && asserted == [] && unknownAt == {}
    {
      this.d, this.solve, this.expired := d, solve, expired;
      reachedK, lemmas, lemmaSet, asserted, checks, unknownAt := -1, [], {}, [], 0, {};
    }

    method Check(stack: seq<Assertion>) returns (a: Answer)
      requires Fit()
      modifies `checks
      ensures AnswerOk(d, stack, a) && (Definite(solve) ==> !a.Unknown?)
    {
      checks := checks + 1;
      a := solve(checks, stack);
    }

    /** Constraints at the new frontier, the transition into it, and every lemma there. */
    method ExtendBackground(i: nat)
      requires if i == 0 then asserted == [] && lemmas == [] else IsBackground(asserted, lemmas, i - 1)
      modifies `asserted
      ensures IsBackground(asserted, lemmas, i)
    {
      ghost var was := asserted;
      asserted := asserted + [ConsAt(i)];
      if i > 0 {
        asserted := asserted + [TransAt(i - 1)];
        for n := 0 to |lemmas|
          invariant forall x :: x in asserted <==>
            x in was || x == ConsAt(i) || x == TransAt(i - 1) || (x.OutAt? && x.k == i && x.c in lemmas[..n])
        {
          asserted := asserted + [OutAt(lemmas[n], i)];
        }
        assert lemmas[..|lemmas|] == lemmas;
      }
    }

    method BaseCheck(i: nat) returns (res: ProverResult)
      requires Fit() && IsBackground(asserted, lemmas, i)
      modifies `checks, `unknownAt
      ensures res == FALSE ==> !NoCexAmong(d, {i}) && !Safe(d.ts)
      ensures res == TRUE && ConstraintsMet(d) && LemmasHold(d, lemmas) ==> NoCexAmong(d, {i})
      ensures unknownAt == old(unknownAt) + if res == UNKNOWN then {i} else {}
      ensures Definite(solve) ==> res != UNKNOWN
    {
      hide NoCexAmong, Safe, ConstraintsMet, LemmasHold, IsBackground;
      var a := Check(asserted + [Init0, BadAt(i)]);
      match a
      case Sat(p) =>
        res := FALSE;
        BaseModelIsCex(d, asserted, lemmas, i, p);
      case Unsat =>
        res := TRUE;
        if ConstraintsMet(d) && LemmasHold(d, lemmas) {
          BaseExtends(d, asserted, lemmas, i);
        }
      case Unknown =>
        res := UNKNOWN;
        unknownAt := unknownAt + {i};
    }

    /** Every pair of times whose states agree on the compared variables. */
    method CyclicPairs(k: nat, p: Path) returns (batch: seq<Assertion>)
      requires |p| > k
      ensures Violated(d, batch, k, p) && ScannedTo(d, batch, p, k, k + 1, 0)
    {
      batch := [];
      for a := 0 to k + 1
        invariant Violated(d, batch, k, p) && ScannedTo(d, batch, p, k, a, 0)
      {
        for b := a + 1 to k + 1
          invariant Violated(d, batch, k, p) && ScannedTo(d, batch, p, k, a, b)
        {
          var x := SimplePathConstraint(d, a, b);
          ghost var was := batch;
          if x.over != [] && !Differ(p[a].st, p[b].st, x.over) {
            batch := batch + [x];
          }
          ScanStep(d, was, batch, p, k, a, b);
        }
      }
    }

    /** Restarted after each of the `models` with all constraints it violates, until there is none or a genuine one. */
    method InductiveCheck(k: nat) returns (res: ProverResult, p: Path, ghost models: seq<Path>)
      requires Fit() && IsBackground(asserted, lemmas, k)
      modifies `checks
      ensures res == TRUE && ConstraintsMet(d) && LemmasHold(d, lemmas) && NoCexWithin(d, k - 1) ==> Safe(d.ts)
      ensures res == FALSE ==> IsCti(d, asserted, k, p)
      ensures |models| <= k * (k + 1) / 2 && NeverAgain(d, models, k)
      ensures Definite(solve) ==> res != UNKNOWN
    {
      hide NoCexWithin, Safe, ConstraintsMet, LemmasHold, IsBackground, Violated, ScannedTo, IsModel, SimpleScope;
      hide NeverAgain, AllInScope;
      var stack := asserted + GoodBelow(k) + [BadAt(k)];
      var scope: seq<Assertion> := [];
      p, models := [], [];
      EmptyScope(d, k);
      while true
        invariant SimpleScope(d, scope, k)
        invariant |models| + |Pairs(k) - Scoped(scope, k)| <= |Pairs(k)|
        invariant NeverAgain(d, models, k) && AllInScope(d, scope, models, k)
        decreases |Pairs(k) - Scoped(scope, k)|
      {
        PairsCount(k);
        var a := Check(stack + scope);
        if a.Unsat? {
          if ConstraintsMet(d) && LemmasHold(d, lemmas) && NoCexWithin(d, k - 1) {
            InductiveProves(d, asserted, lemmas, scope, k);
          }
          return TRUE, [], models;
        }
        if a.Unknown? {
          return UNKNOWN, [], models;
        }
        SplitStack(asserted, GoodBelow(k), [BadAt(k)], scope);
        ModelReaches(d, asserted, GoodBelow(k) + [BadAt(k)] + scope, lemmas, k, a.p);
        var batch := CyclicPairs(k, a.p);
        if batch == [] {
          CtiFound(d, asserted, scope, k, a.p);
          return FALSE, a.p, models;
        }
        ScopeGrows(d, stack, scope, batch, k, a.p);
        ModelRepairs(d, stack, scope, batch, models, k, a.p);
        scope, models := scope + batch, models + [a.p];
      }
    }

    /** The state variables' values at time `k - 1` of the model. */
    method ExtractCti(k: nat, p: Path) returns (c: Cube)
      requires 0 < k < |p|
      ensures c == StateCube(d.vars, p[k - 1].st)
    {
      c := [];
      for n := 0 to |d.vars|
        invariant c == StateCube(d.vars, p[k - 1].st)[..n]
      {
        c := c + [Literal(d.vars[n], Lookup(p[k - 1].st, d.vars[n]))];
      }
    }

    ghost predicate Unbudgeted(n: nat, k: nat) {
      Definite(solve) && (forall t :: !expired(t)) && n <= MaxProbes(k)
    }

    /** Whether the context forces bad at `k` from the other literals alone; an unknown answer keeps the literal. */
    method Probe(kept: Cube, lit: Literal, rest: Cube, k: nat) returns (redundant: bool)
      requires Fit() && k > 0 && IsBackground(asserted, lemmas, k)
      modifies `checks
      ensures redundant ==> Forces(d, asserted, kept + rest, k)
      ensures Definite(solve) && !redundant ==> Essential(d, asserted, kept + [lit] + rest, |kept|, k)
    {
      hide Forces, Essential, IsBackground, IsModel;
      var a := Check(asserted + GoodBelow(k) + Singles(kept, k - 1) + Singles(rest, k - 1) + [GoodAt(k)]);
      redundant := a.Unsat?;
      if a.Unsat? {
        ProbeUnsat(d, asserted, kept, rest, k);
      } else if a.Sat? {
        ProbeSat(d, asserted, lemmas, kept, lit, rest, k, a.p);
        EssentialBy(d, asserted, kept + [lit] + rest, |kept|, k, a.p);
      }
    }

    lemma {:induction false} BudgetHit(n: nat, i: nat, k: nat)
      requires i < n && (i >= MaxProbes(k) || expired(i))
      ensures !Unbudgeted(n, k)
    {
    }

    lemma {:induction false} UnbudgetedIsDefinite(n: nat, k: nat)
      requires Unbudgeted(n, k)
      ensures Definite(solve)
    {
    }

    /** Drops each literal without which every way on still leads to bad. */
    method LiteralDrop(cti: Cube, k: nat) returns (kept: Cube)
      requires Fit() && k > 0 && IsBackground(asserted, lemmas, k)
      modifies `checks
      ensures |kept| <= |cti| && forall l :: l in kept ==> l in cti
      ensures kept == cti || Forces(d, asserted, kept, k)
      ensures Unbudgeted(|cti|, k) ==> Minimal(d, asserted, kept, k)
      ensures MaxProbes(k) == 0 ==> kept == cti
    {
      hide Forces, AllEssential, IsBackground, IsModel, Unbudgeted;
      kept := [];
      var i := 0;
      NothingKept(d, asserted, cti, k);
      assert kept + cti[0..] == cti;
      while i < |cti|
        invariant 0 <= i <= |cti| && |kept| <= i && forall l :: l in kept ==> l in cti
        invariant kept + cti[i..] == cti || Forces(d, asserted, kept + cti[i..], k)
        invariant Unbudgeted(|cti|, k) ==> AllEssential(d, asserted, kept + cti[i..], |kept|, k)
        invariant MaxProbes(k) == 0 ==> i == 0
      {
        if i >= MaxProbes(k) || expired(i) {
          BudgetHit(|cti|, i, k);
          kept := kept + cti[i..];
          break;
        }
        var lit, rest := cti[i], cti[i + 1..];
        NextLiteral(kept, cti, i);
        var redundant := Probe(kept, lit, rest, k);
        if redundant {
          if Unbudgeted(|cti|, k) {
            DropKeepsEssential(d, asserted, kept, lit, rest, k);
          }
        } else {
          if Unbudgeted(|cti|, k) {
            UnbudgetedIsDefinite(|cti|, k);
            KeptIsEssential(d, asserted, kept, lit, rest, k);
          }
          kept := kept + [lit];
        }
        i := i + 1;
      }
      assert i == |cti| ==> kept + cti[i..] == kept;
    }

    /** Initiation and consecution; an unknown answer refuses. */
    method IsLemmaSound(c: Cube) returns (sound: bool)
      requires Fit()
      modifies `checks
      ensures sound ==> PassesCheck(d, asserted, c)
      ensures Definite(solve) && PassesCheck(d, asserted, c) ==> sound
    {
      var a := Check(asserted + [Init0, InAt(c, 0)]);
      if !a.Unsat? {
        return false;
      }
      a := Check(asserted + [OutAt(c, 0), InAt(c, 1)]);
      return a.Unsat?;
    }

    /** Stamps a new lemma at every time already unrolled; the empty cube is the trivial lemma. */
    method TryAddLemma(c: Cube, upTo: nat) returns (added: bool)
      requires lemmaSet == (set l | l in lemmas) && IsBackground(asserted, lemmas, upTo)
      modifies `lemmas, `lemmaSet, `asserted
      ensures lemmaSet == (set l | l in lemmas) && IsBackground(asserted, lemmas, upTo)
      ensures added == (c != [] && c !in old(lemmas))
      ensures lemmas == old(lemmas) + if added then [c] else []
    {
      if c == [] || c in lemmaSet {
        assert lemmas + [] == lemmas;
        return false;
      }
      ghost var was := asserted;
      lemmaSet := lemmaSet + {c};
      lemmas := lemmas + [c];
      for t := 0 to upTo + 1
        invariant lemmas == old(lemmas) + [c] && lemmaSet == old(lemmaSet) + {c}
        invariant forall x :: x in asserted <==> x in was || (x.OutAt? && x.c == c && x.k < t)
      {
        asserted := asserted + [OutAt(c, t)];
      }
      return true;
    }

    /** What became of a counterexample to induction: its generalisation `c`, and whether it was adopted. */
    ghost predicate Learned(was: seq<Assertion>, known: seq<Cube>, now: seq<Cube>, cti: Cube, i: nat, c: Cube)
      requires i > 0
    {
      && (c == cti || Forces(d, was, c, i)) && (forall l :: l in c ==> l in cti)
      && (Unbudgeted(|cti|, i) ==> Minimal(d, was, c, i))
      && (now == known || (now == known + [c] && PassesCheck(d, was, c)))
      && (Definite(solve) ==> (now == known + [c] <==> c != [] && c !in known && PassesCheck(d, was, c)))
    }

    /** Depth `i` has met a counterexample to induction and learned from it. */
    ghost predicate LearnedAt(known: seq<Cube>, now: seq<Cube>, i: nat)
      requires i > 0
    {
      exists all, p: Path, c :: LearnedFrom(all, known, now, i, p, c)
    }

    ghost predicate LearnedFrom(all: seq<Assertion>, known: seq<Cube>, now: seq<Cube>, i: nat, p: Path, c: Cube)
      requires i > 0
    {
      && IsBackground(all, known, i) && IsCti(d, all, i, p)
      && Learned(all, known, now, StateCube(d.vars, p[i - 1].st), i, c)
    }

    /** The lemmas before each depth, when every depth from 1 on has learned. */
    ghost predicate LearnedThroughout(stages: seq<seq<Cube>>) {
      && |stages| > 0 && stages[0] == []
      && forall i :: 1 <= i < |stages| ==> LearnedAt(stages[i - 1], stages[i], i)
    }

    /** A counterexample to induction is generalised, checked, and learned as a lemma. */
    method Learn(i: nat, p: Path) returns (ghost c: Cube)
      requires Fit() && i > 0 && IsBackground(asserted, lemmas, i) && IsCti(d, asserted, i, p)
      requires lemmaSet == (set l | l in lemmas)
      modifies `checks, `lemmas, `lemmaSet, `asserted
      ensures lemmaSet == (set l | l in lemmas) && IsBackground(asserted, lemmas, i)
      ensures Learned(old(asserted), old(lemmas), lemmas, StateCube(d.vars, p[i - 1].st), i, c)
      ensures NoReachableDeadlock(d.ts) && LemmasHold(d, old(lemmas)) ==> LemmasHold(d, lemmas)
      ensures old(lemmas) <= lemmas
    {
      hide IsBackground, LemmasHold, NoReachableDeadlock, IsModel, PassesCheck, Minimal, Forces, ScannedTo, Definite;
      var cti := ExtractCti(i, p);
      var cube := LiteralDrop(cti, i);
      c := cube;
      ghost var was := lemmas;
      DifferentLength(was, c);
      var sound := true;
      if cube != [] {
        sound := IsLemmaSound(cube);
      }
      if sound {
        if cube != [] && NoReachableDeadlock(d.ts) && LemmasHold(d, lemmas) {
          CheckedLemmaHolds(d, asserted, lemmas, i, cube);
        }
        var added := TryAddLemma(cube, i);
        assert was + [] == was;
      }
    }

    /** The premises of the verdicts: the lemmas hold, and constraints are met wherever the unrolling may end. */
    ghost predicate Trusted()
      reads `lemmas
    {
      ConstraintsMet(d) && LemmasHold(d, lemmas)
    }

    /** The loop state before bound `i`. */
    ghost predicate At(i: nat)
      reads this
    {
      && reachedK == i - 1
      && (if i == 0 then asserted == [] && lemmas == [] else IsBackground(asserted, lemmas, i - 1))
      && lemmaSet == (set l | l in lemmas)
      && (NoReachableDeadlock(d.ts) ==> Trusted())
      && (Trusted() && NoCexAmong(d, unknownAt) ==> NoCexWithin(d, i - 1))
      && (Definite(solve) ==> unknownAt == {})
    }

    /** What a verdict promises at any bound. */
    ghost predicate Promise(res: ProverResult)
      reads this
    {
      && (res == TRUE && Trusted() ==> (Safe(d.ts) <==> NoCexAmong(d, unknownAt)))
      && (res == FALSE ==> !Safe(d.ts))
      && (NoReachableDeadlock(d.ts) ==> Trusted())
      && (Definite(solve) ==> unknownAt == {})
    }

    /** One bound: extend the context, check, and learn from a counterexample to induction. */
    method Bound(i: nat) returns (res: ProverResult)
      requires Fit() && At(i)
      modifies this
      ensures Promise(res)
      ensures res == UNKNOWN ==> At(i + 1) && (Definite(solve) && HasUpdated(d) ==> Bounded(d, i))
      ensures res == UNKNOWN && Definite(solve) && i > 0 ==> LearnedAt(old(lemmas), lemmas, i)
      ensures i == 0 ==> lemmas == old(lemmas)
    {
      hide Safe, NoReachableDeadlock, ConstraintsMet, LemmasHold, NoCexAmong, NoCexWithin, IsBackground, IsCti, Bounded;
      hide HasSimplePath, HasUpdated, Definite, Learned;
      ExtendBackground(i);
      ghost var unknown := unknownAt;
      var base := BaseCheck(i);
      if base == FALSE {
        return FALSE;
      }
      DepthCovered(d, i, unknown, unknownAt);
      var ind, p, models := InductiveCheck(i);
      if ind == TRUE {
        NoneMissed(d, unknownAt);
        return TRUE;
      }
      if ind == FALSE && HasUpdated(d) {
        CtiIsSimplePath(d, asserted, lemmas, i, p);
        SimplePathIsBounded(d, i);
      }
      if ind == FALSE && i > 0 {
        ghost var all, known := asserted, lemmas;
        ghost var c := Learn(i, p);
        EarlierLemmasHold(d, known, lemmas);
        assert LearnedFrom(all, known, lemmas, i, p, c);
      }
      reachedK := i;
      res := UNKNOWN;
    }

    /** `stages` lists the lemmas before each depth and at the end. */
    method CheckUntil(k: int) returns (res: ProverResult, ghost stages: seq<seq<Cube>>)
      requires Fit() && reachedK == -1 && lemmas == [] && lemmaSet == {} && asserted == [] && unknownAt == {}
      modifies this
      ensures res == TRUE && Trusted() ==> (Safe(d.ts) <==> NoCexAmong(d, unknownAt))
      ensures res == FALSE ==> !Safe(d.ts)
      ensures res == UNKNOWN && Trusted() && NoCexAmong(d, unknownAt) ==> NoCexWithin(d, k)
      ensures NoReachableDeadlock(d.ts) ==> Trusted()
      ensures res == TRUE && unknownAt == {} && NoReachableDeadlock(d.ts) ==> Safe(d.ts)
      ensures res == UNKNOWN && unknownAt == {} && NoReachableDeadlock(d.ts) ==> NoCexWithin(d, k)
      ensures Definite(solve) ==> unknownAt == {}
      ensures res == UNKNOWN && Definite(solve) && HasUpdated(d) ==> Bounded(d, k)
      ensures res == UNKNOWN && Definite(solve) && k >= 0 ==>
        |stages| == k + 1 && stages[k] == lemmas && LearnedThroughout(stages)
    {
      hide Safe, NoReachableDeadlock, ConstraintsMet, LemmasHold, NoCexAmong, NoCexWithin, IsBackground, Bounded;
      hide HasUpdated, Definite, LearnedAt;
      StartingPoint(d);
      NothingBounded(d, -1);
      NothingBounded(d, k);
      stages := [[]];
      var i := 0;
      while i <= k
        invariant (i > 0 ==> i <= k + 1) && At(i)
        invariant Definite(solve) && HasUpdated(d) ==> Bounded(d, i - 1)
        invariant i == 0 ==> stages == [[]]
        invariant i > 0 ==> |stages| == i && stages[i - 1] == lemmas && (Definite(solve) ==> LearnedThroughout(stages))
        decreases k - i
      {
        res := Bound(i);
        if res != UNKNOWN {
          NoneMissed(d, unknownAt);
          return;
        }
        if i > 0 {
          stages := stages + [lemmas];
        }
        i := i + 1;
      }
      NoneMissed(d, unknownAt);
      StartingPoint(d);
      FewerTransitions(d, i - 1, k);
      res := UNKNOWN;
    }
  }

  lemma {:induction false} StartingPoint(d: Design)
    requires d.WellFormed()
    ensures LemmasHold(d, []) && (NoReachableDeadlock(d.ts) ==> ConstraintsMet(d))
    ensures NoCexWithin(d, -1) && NoCexAmong(d, {})
  {
    if NoReachableDeadlock(d.ts) {
      DeadlockFreeMeets(d);
    }
  }

  lemma {:induction false} EarlierLemmasHold(d: Design, known: seq<Cube>, lemmas: seq<Cube>)
    requires known <= lemmas
    ensures LemmasHold(d, lemmas) ==> LemmasHold(d, known)
  {
  }

  lemma {:induction false} NextLiteral(kept: Cube, cti: Cube, i: nat)
    requires i < |cti|
    ensures cti[i..] == [cti[i]] + cti[i + 1..]
    ensures kept + cti[i..] == kept + [cti[i]] + cti[i + 1..]
  {
  }

  lemma {:induction false} DifferentLength(lemmas: seq<Cube>, c: Cube)
    ensures lemmas != lemmas + [c]
  {
    assert |lemmas + [c]| == |lemmas| + 1;
  }

  /** Some variable has an update, so every pair of times can be told apart. */
  ghost predicate HasUpdated(d: Design) {
    exists n :: n in d.vars && n !in d.noUpdate
  }

  lemma {:induction false} CtiIsSimplePath(d: Design, all: seq<Assertion>, lemmas: seq<Cube>, k: nat, p: Path)
    requires d.WellFormed() && IsBackground(all, lemmas, k) && IsCti(d, all, k, p) && HasUpdated(d)
    ensures HasSimplePath(d, k)
  {
    hide Differ;
    forall a: nat, b: nat | a < b <= k ensures Differ(p[a].st, p[b].st, Compared(d, a, b)) {
      CtiPairDiffers(d, all, lemmas, k, p, a, b);
    }
    forall j | 0 <= j < k ensures SatisfiedBy(d, p, TransAt(j)) {
      assert InBackground(lemmas, k, TransAt(j));
      assert TransAt(j) in all + GoodBelow(k) + [BadAt(k)];
    }
  }

  /** A depth that k-induction proves by its inductive step leaves no counterexample to induction here. */
  ghost predicate Dominates(d: Design, all: seq<Assertion>, theirs: seq<KInduction.Guarded>, k: nat) {
    Unsatisfiable(d, KInduction.Active(theirs, KInduction.StepGuards) + [BadAt(k)]) ==>
      forall p :: !IsCti(d, all, k, p)
  }

  /**
    The claim for one design and depth: whatever the property, the lemmas, and the constraints k-induction
    has added.
   */
  ghost predicate AlwaysDominates(d: Design, k: nat) {
    forall bad: State -> bool, all, lemmas, theirs ::
      IsBackground(all, lemmas, k) && KInduction.AllExpected(WithBad(d, bad), theirs, k) ==>
        Dominates(WithBad(d, bad), all, theirs, k)
  }

  ghost predicate CanStep(d: Design, s: State) {
    exists t :: Step(d.ts, s, t)
  }

  /** Three different states: one to leave, one to enter and leave, one to enter that meets the constraints. */
  ghost predicate Detour(d: Design, a: State, b: State, c: State) {
    && a != b && a != c && b != c
    && CanStep(d, a) && d.Occurs(b) && CanStep(d, b) && d.Occurs(c) && exists i :: d.cons(c, i)
  }

  ghost predicate HasDetour(d: Design) {
    exists a, b, c :: Detour(d, a, b, c)
  }

  /**
    Everything k-induction proves is proved, unless no variable has an update, the depth is 2 or more, and
    there is a detour.
   */
  lemma {:induction false} DominatesIff(d: Design, k: nat)
    requires d.WellFormed()
    ensures AlwaysDominates(d, k) <==> HasUpdated(d) || k < 2 || !HasDetour(d)
  {
    hide Dominates, Unsatisfiable, IsCti, HasDetour, HasUpdated;
    if HasUpdated(d) || k < 2 || !HasDetour(d) {
      forall bad: State -> bool, all, lemmas, theirs
        | IsBackground(all, lemmas, k) && KInduction.AllExpected(WithBad(d, bad), theirs, k)
        ensures Dominates(WithBad(d, bad), all, theirs, k)
      {
        WithBadFits(d, bad);
        DominatesKInduction(WithBad(d, bad), all, lemmas, theirs, k);
      }
    } else {
      var bad, all, theirs := DetourRefutes(d, k);
    }
  }

  /** Domination for one property. */
  lemma {:induction false} DominatesKInduction(
      d: Design, all: seq<Assertion>, lemmas: seq<Cube>, theirs: seq<KInduction.Guarded>, k: nat)
    requires d.WellFormed() && IsBackground(all, lemmas, k) && KInduction.AllExpected(d, theirs, k)
    requires HasUpdated(d) || k < 2 || !HasDetour(d)
    ensures Dominates(d, all, theirs, k)
  {
    hide IsCti, Unsatisfiable, HasDetour, HasUpdated, IsModel;
    if Unsatisfiable(d, KInduction.Active(theirs, KInduction.StepGuards) + [BadAt(k)]) {
      forall p ensures !IsCti(d, all, k, p) {
        if IsCti(d, all, k, p) {
          if HasUpdated(d) || k < 2 {
            CtiIsTheirModel(d, all, lemmas, theirs, k, p);
            UnsatisfiableHasNone(d, KInduction.Active(theirs, KInduction.StepGuards) + [BadAt(k)], p);
          } else {
            CtiHasDetour(d, all, lemmas, k, p);
          }
        }
      }
    }
  }

  lemma {:induction false} UnsatisfiableHasNone(d: Design, stack: seq<Assertion>, p: Path)
    requires Unsatisfiable(d, stack)
    ensures !IsModel(d, p, stack)
  {
  }

  lemma {:induction false} WithBadFits(d: Design, bad: State -> bool)
    ensures HasUpdated(WithBad(d, bad)) <==> HasUpdated(d)
    ensures d.WellFormed() ==> WithBad(d, bad).WellFormed()
    ensures HasDetour(WithBad(d, bad)) ==> HasDetour(d)
  {
    var e := WithBad(d, bad);
    if d.WellFormed() {
      forall s, i, t, u: State | e.ts.trans(s, i, t) && e.Occurs(u) && e.AgreeOnUpdated(t, u)
        ensures e.ts.trans(s, i, u)
      {
        assert d.Occurs(u) && d.AgreeOnUpdated(t, u);
      }
    }
    if HasDetour(e) {
      var a, b, c :| Detour(e, a, b, c);
      CanStepAnyBad(d, bad, a);
      CanStepAnyBad(d, bad, b);
      assert Detour(d, a, b, c);
    }
  }

  lemma {:induction false} CanStepAnyBad(d: Design, bad: State -> bool, s: State)
    requires CanStep(WithBad(d, bad), s)
    ensures CanStep(d, s)
  {
    var t :| Step(WithBad(d, bad).ts, s, t);
    var i :| WithBad(d, bad).ts.trans(s, i, t);
    assert d.ts.trans(s, i, t);
    assert Step(d.ts, s, t);
  }

  lemma {:induction false} CtiIsTheirModel(
      d: Design, all: seq<Assertion>, lemmas: seq<Cube>, theirs: seq<KInduction.Guarded>, k: nat, p: Path)
    requires d.WellFormed() && IsBackground(all, lemmas, k) && KInduction.AllExpected(d, theirs, k)
    requires IsCti(d, all, k, p) && (HasUpdated(d) || k < 2)
    ensures IsModel(d, p, KInduction.Active(theirs, KInduction.StepGuards) + [BadAt(k)])
  {
    hide HasUpdated, Differ, Compared;
    CtiParts(d, all, lemmas, k, p);
    forall x | x in KInduction.Active(theirs, KInduction.StepGuards) ensures SatisfiedBy(d, p, x) {
      var y :| y in theirs && (y.g == KInduction.Always || y.g in KInduction.StepGuards) && y.x == x;
      assert KInduction.Expected(d, y, k);
      match x
      case TransAt(j) => assert SatisfiedBy(d, p, TransAt(j));
      case GoodAt(j) => assert SatisfiedBy(d, p, GoodAt(j));
      case Distinct(a, b, over) =>
        CtiPairDiffers(d, all, lemmas, k, p, a, b);
      case _ =>
    }
  }

  /** What a counterexample to induction is made of. */
  lemma {:induction false} CtiParts(d: Design, all: seq<Assertion>, lemmas: seq<Cube>, k: nat, p: Path)
    requires IsBackground(all, lemmas, k) && IsCti(d, all, k, p)
    ensures |p| > k && SatisfiedBy(d, p, BadAt(k)) && SatisfiedBy(d, p, ConsAt(k))
    ensures forall j: nat :: j < k ==> SatisfiedBy(d, p, TransAt(j)) && SatisfiedBy(d, p, GoodAt(j))
  {
    var stack := all + GoodBelow(k) + [BadAt(k)];
    assert InBackground(lemmas, k, ConsAt(k));
    assert BadAt(k) in stack && ConsAt(k) in stack;
    forall j: nat | j < k ensures SatisfiedBy(d, p, TransAt(j)) && SatisfiedBy(d, p, GoodAt(j)) {
      assert InBackground(lemmas, k, TransAt(j));
      assert GoodAt(j) in GoodBelow(k);
      assert TransAt(j) in stack && GoodAt(j) in stack;
    }
  }

  /** Its states differ on the compared variables, at the pairs that k-induction and the engine both compare. */
  lemma {:induction false} CtiPairDiffers(
      d: Design, all: seq<Assertion>, lemmas: seq<Cube>, k: nat, p: Path, a: nat, b: nat)
    requires d.WellFormed() && IsBackground(all, lemmas, k) && IsCti(d, all, k, p) && a < b <= k
    requires HasUpdated(d) || a == 0
    ensures Differ(p[a].st, p[b].st, Compared(d, a, b))
  {
    hide Differ;
    CtiParts(d, all, lemmas, k, p);
    assert PairCovered(d, [], p, a, b);
    if HasUpdated(d) {
      var n :| n in d.vars && n !in d.noUpdate;
      assert n in Compared(d, a, b);
    } else if d.vars == [] {
      OnlyOneState(d, p, k);
    } else {
      assert d.vars[0] in Compared(d, a, b);
    }
  }

  /** Without variables no path leads from a good state to a bad one. */
  lemma {:induction false} OnlyOneState(d: Design, p: Path, k: nat)
    requires d.WellFormed() && d.vars == [] && 0 < k < |p|
    requires SatisfiedBy(d, p, TransAt(0)) && SatisfiedBy(d, p, TransAt(k - 1))
    ensures !(SatisfiedBy(d, p, GoodAt(0)) && SatisfiedBy(d, p, BadAt(k)))
  {
    assert VarSet([]) == {};
    assert p[0].st == p[k].st == map[];
  }

  /** Without updates, a counterexample to induction passes through three different states. */
  lemma {:induction false} CtiHasDetour(d: Design, all: seq<Assertion>, lemmas: seq<Cube>, k: nat, p: Path)
    requires d.WellFormed() && IsBackground(all, lemmas, k) && IsCti(d, all, k, p) && k >= 2
    ensures HasDetour(d)
  {
    hide Differ, Compared, IsCti;
    CtiParts(d, all, lemmas, k, p);
    assert SatisfiedBy(d, p, TransAt(0)) && SatisfiedBy(d, p, TransAt(1)) && SatisfiedBy(d, p, TransAt(k - 1));
    assert SatisfiedBy(d, p, GoodAt(0)) && SatisfiedBy(d, p, GoodAt(1));
    CtiPairDiffers(d, all, lemmas, k, p, 0, 1);
    DifferMeansOther(p[0].st, p[1].st, Compared(d, 0, 1));
    assert Step(d.ts, p[0].st, p[1].st) && Step(d.ts, p[1].st, p[2].st);
    assert Detour(d, p[0].st, p[1].st, p[k].st);
  }

  /** From the first state to the second, staying there, and to the third at time `k`. */
  function DetourPath(a: Point<State, Input>, b: Point<State, Input>, c: Point<State, Input>, k: nat): Path {
    seq(k + 1, j => if j == 0 then a else if j < k then b else c)
  }

  lemma {:induction false} DetourSteps(d: Design, a: State, b: State, c: State)
    returns (x: Point<State, Input>, y: Point<State, Input>, z: Point<State, Input>)
    requires d.WellFormed() && !HasUpdated(d) && Detour(d, a, b, c)
    ensures x.st == a && y.st == b && z.st == c && d.cons(c, z.inp)
    ensures d.ts.trans(a, x.inp, b) && d.ts.trans(b, y.inp, b) && d.ts.trans(b, y.inp, c)
  {
    var t :| Step(d.ts, a, t);
    var i :| d.ts.trans(a, i, t);
    assert d.AgreeOnUpdated(t, b);
    var u :| Step(d.ts, b, u);
    var j :| d.ts.trans(b, j, u);
    assert d.AgreeOnUpdated(u, b) && d.AgreeOnUpdated(u, c);
    var l :| d.cons(c, l);
    x, y, z := Point(a, i), Point(b, j), Point(c, l);
  }

  /** The pair of times 1 and 2, for which k-induction asserts an empty disjunction. */
  function EmptyPair(d: Design): seq<KInduction.Guarded> {
    [KInduction.Guarded(KInduction.SelSimple, Distinct(1, 2, Compared(d, 1, 2)))]
  }

  /** With that pair k-induction has no model for any property. */
  lemma {:induction false} EmptyPairUnsat(d: Design, theirs: seq<KInduction.Guarded>, k: nat)
    requires !HasUpdated(d) && EmptyPair(d)[0] in theirs
    ensures Unsatisfiable(d, KInduction.Active(theirs, KInduction.StepGuards) + [BadAt(k)])
  {
    var x := EmptyPair(d)[0].x;
    assert x in KInduction.Active(theirs, KInduction.StepGuards);
    assert x in KInduction.Active(theirs, KInduction.StepGuards) + [BadAt(k)];
    forall p: Path ensures !SatisfiedBy(d, p, x) {
    }
  }

  /** A detour is a counterexample to induction for the property that excludes its end. */
  lemma {:induction false} DetourIsCti(d: Design, a: State, b: State, c: State, k: nat) returns (p: Path)
    requires d.WellFormed() && !HasUpdated(d) && Detour(d, a, b, c) && k >= 2
    requires d.ts.bad(c) && !d.ts.bad(a) && !d.ts.bad(b)
    ensures IsCti(d, PlainContext(k), k, p)
  {
    var x, y, z := DetourSteps(d, a, b, c);
    p := DetourPath(x, y, z, k);
    var stack := PlainContext(k) + GoodBelow(k) + [BadAt(k)];
    forall q | q in stack ensures SatisfiedBy(d, p, q) {
      assert q in PlainContext(k) ==> InBackground([], k, q);
    }
    forall m: nat, n: nat | m < n <= k ensures PairCovered(d, [], p, m, n) {
      FreePairCovered(d, a, b, c, p, m, n);
    }
  }

  lemma {:induction false} FreePairCovered(d: Design, a: State, b: State, c: State, p: Path, m: nat, n: nat)
    requires d.WellFormed() && !HasUpdated(d) && Detour(d, a, b, c) && m < n < |p|
    requires p[0].st == a && (p[n].st == b || p[n].st == c)
    ensures PairCovered(d, [], p, m, n)
  {
    if m == 0 {
      var t :| Step(d.ts, a, t);
      assert a.Keys == p[n].st.Keys == VarSet(d.vars);
      if forall v :: v in d.vars ==> Lookup(a, v) == Lookup(p[n].st, v) {
        SameLookups(d.vars, a, p[n].st);
      }
    } else {
      SomeElement(Compared(d, m, n));
    }
  }

  lemma {:induction false} SomeElement(over: seq<Name>)
    ensures over == [] || exists n :: n in over
  {
    if over != [] {
      assert over[0] in over;
    }
  }

  lemma {:induction false} DetourRefutes(d: Design, k: nat)
    returns (bad: State -> bool, all: seq<Assertion>, theirs: seq<KInduction.Guarded>)
    requires d.WellFormed() && !HasUpdated(d) && HasDetour(d) && k >= 2
    ensures IsBackground(all, [], k) && KInduction.AllExpected(WithBad(d, bad), theirs, k)
    ensures !Dominates(WithBad(d, bad), all, theirs, k)
  {
    hide IsCti, Unsatisfiable, Detour, IsBackground, KInduction.AllExpected, Dominates;
    var a, b, c :| Detour(d, a, b, c);
    bad := (s: State) => s == c;
    var e := WithBad(d, bad);
    all, theirs := PlainContext(k), EmptyPair(e);
    WithBadFits(d, bad);
    DetourAnyBad(d, bad, a, b, c);
    EmptyPairExpected(e, k);
    var p := DetourIsCti(e, a, b, c, k);
    EmptyPairUnsat(e, theirs, k);
    NotDominated(e, all, theirs, k, p);
  }

  lemma {:induction false} EmptyPairExpected(d: Design, k: nat)
    requires k >= 2
    ensures KInduction.AllExpected(d, EmptyPair(d), k)
  {
    hide Compared;
  }

  lemma {:induction false} NotDominated(
      d: Design, all: seq<Assertion>, theirs: seq<KInduction.Guarded>, k: nat, p: Path)
    requires Unsatisfiable(d, KInduction.Active(theirs, KInduction.StepGuards) + [BadAt(k)]) && IsCti(d, all, k, p)
    ensures !Dominates(d, all, theirs, k)
  {
    hide IsCti, Unsatisfiable;
  }

  lemma {:induction false} DetourAnyBad(d: Design, bad: State -> bool, a: State, b: State, c: State)
    requires Detour(d, a, b, c)
    ensures Detour(WithBad(d, bad), a, b, c)
  {
    CanStepWithBad(d, bad, a);
    CanStepWithBad(d, bad, b);
  }

  lemma {:induction false} CanStepWithBad(d: Design, bad: State -> bool, s: State)
    requires CanStep(d, s)
    ensures CanStep(WithBad(d, bad), s)
  {
    var t :| Step(d.ts, s, t);
    var i :| d.ts.trans(s, i, t);
    assert WithBad(d, bad).ts.trans(s, i, t);
    assert Step(WithBad(d, bad).ts, s, t);
  }

  /** A variable that may have any value at any time; the value 2 is bad. */
  function AnyView(): View {
    MkView([X], [], TrueTerm, TrueTerm, map[], [], [])
  }

  function AnyBad(): Term {
    MkEqual(Sym(Cur(X)), Const(Num(2)))
  }

  lemma {:induction false} AnyMeaning(th: Theory, s: State, i: Input, t: State)
    ensures Holds(TrueTerm, EnvOf(s, i, t), th)
    ensures Holds(AnyBad(), EnvOf(s, i, t), th) <==> Lookup(s, X) == Num(2)
  {
    EvalConst(Bool(true), EnvOf(s, i, t), th);
    EvalEqual(Sym(Cur(X)), Const(Num(2)), EnvOf(s, i, t), th);
  }

  lemma {:induction false} AnyShaped(th: Theory)
    ensures Shaped(AnyView(), th)
  {
    hide Eval, Holds;
    forall s: State, i: Input, t: State ensures Holds(AnyView().trans, EnvOf(s, i, t), th) {
      AnyMeaning(th, s, i, t);
    }
  }

  /** The step from any state to any other. */
  lemma {:induction false} AnyStep(th: Theory, s: State, t: State)
    requires s.Keys == t.Keys == {X}
    ensures var d := DesignOf(AnyView(), AnyBad(), th); Step(d.ts, s, t) && d.Occurs(s) && (exists i :: d.cons(s, i))
    ensures DesignOf(AnyView(), AnyBad(), th).ts.bad(s) <==> Lookup(s, X) == Num(2)
  {
    hide Eval, Holds;
    var d := DesignOf(AnyView(), AnyBad(), th);
    var i: Input := map[];
    assert VarSet(AnyView().vars) == {X};
    AnyMeaning(th, s, i, t);
    AnyMeaning(th, s, i, s);
    assert d.ts.trans(s, i, t) && d.cons(s, i);
  }

  /** Depth 2 for that system: k-induction has no model of its step, and here a counterexample to induction remains. */
  lemma {:induction false} DominanceFails(th: Theory) returns (p: Path)
    ensures Shaped(AnyView(), th) && !HasUpdated(DesignOf(AnyView(), AnyBad(), th))
    ensures IsCti(DesignOf(AnyView(), AnyBad(), th), PlainContext(2), 2, p)
    ensures forall theirs :: EmptyPair(DesignOf(AnyView(), AnyBad(), th))[0] in theirs ==>
      Unsatisfiable(DesignOf(AnyView(), AnyBad(), th), KInduction.Active(theirs, KInduction.StepGuards) + [BadAt(2)])
  {
    hide Eval, Holds, Shaped, IsCti, Unsatisfiable, Semantics;
    AnyShaped(th);
    var d := DesignOf(AnyView(), AnyBad(), th);
    BuiltDesignsWellFormed(AnyView(), AnyBad(), th);
    var a: State, b: State, c: State := map[X := Num(0)], map[X := Num(1)], map[X := Num(2)];
    AnyStep(th, a, b);
    AnyStep(th, b, c);
    AnyStep(th, c, c);
    assert a[X] != b[X] && a[X] != c[X] && b[X] != c[X];
    assert Detour(d, a, b, c);
    p := DetourIsCti(d, a, b, c, 2);
    forall theirs | EmptyPair(d)[0] in theirs
      ensures Unsatisfiable(d, KInduction.Active(theirs, KInduction.StepGuards) + [BadAt(2)])
    {
      EmptyPairUnsat(d, theirs, 2);
    }
  }


  lemma {:induction false} EmptyScope(d: Design, k: nat)
    ensures SimpleScope(d, [], k) && Scoped([], k) == {}
    ensures NeverAgain(d, [], k) && AllInScope(d, [], [], k)
  {
  }

  lemma {:induction false} EssentialBy(d: Design, all: seq<Assertion>, c: Cube, m: nat, k: nat, p: Path)
    requires k > 0 && Escapes(d, all, c, m, k, p)
    ensures Essential(d, all, c, m, k)
  {
  }

  lemma {:induction false} SplitStack(a: seq<Assertion>, b: seq<Assertion>, c: seq<Assertion>, e: seq<Assertion>)
    ensures a + b + c + e == a + (b + c + e)
  {
  }

  lemma {:induction false} CtiFound(d: Design, all: seq<Assertion>, scope: seq<Assertion>, k: nat, p: Path)
    requires |p| > k && IsModel(d, p, all + GoodBelow(k) + [BadAt(k)] + scope) && ScannedTo(d, [], p, k, k + 1, 0)
    ensures IsCti(d, all, k, p)
  {
    hide SatisfiedBy;
  }

  lemma {:induction false} ScanStep(
      d: Design, was: seq<Assertion>, batch: seq<Assertion>, p: Path, k: nat, a: nat, b: nat)
    requires |p| > k && a < b <= k && ScannedTo(d, was, p, k, a, b)
    requires was <= batch && PairCovered(d, batch, p, a, b)
    ensures ScannedTo(d, batch, p, k, a, b + 1)
  {
    forall x: nat, y: nat | x < y <= k && (x < a || (x == a && y < b + 1)) ensures PairCovered(d, batch, p, x, y) {
      if x < a || y < b {
        assert PairCovered(d, was, p, x, y);
      }
    }
  }
}
