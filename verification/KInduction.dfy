/**
  The k-induction engine: permanent timed formulas switched by selectors, three
  ways to conclude TRUE, and an optional single base check at the end.
 */
module KInduction {
  import opened Cardinality
  import opened Runs
  import opened Terms
  import opened TransitionSystems
  import opened Unrolling

  datatype Options = Options(
    oneTimeBaseCheck: bool, noSimplePathCheck: bool, eagerSimplePath: bool, noMultiCall: bool,
    noIndCheck: bool, noIndCheckInitStates: bool, noIndCheckProperty: bool, boundStep: nat)

  datatype Outcome = Verdict(r: ProverResult) | Threw

  /** Which selector literal guards a permanent formula. */
  datatype Guard = Always | SelInit | SelNegInit | SelNegBad | SelSimple

  datatype Guarded = Guarded(g: Guard, x: Assertion)

  /** `sel_assumption_`: the guards whose formulas are switched on. */
  function Active(all: seq<Guarded>, on: set<Guard>): (r: seq<Assertion>)
    ensures forall x :: x in r <==> exists y :: y in all && (y.g == Always || y.g in on) && y.x == x
  {
    if all == [] then [] else
      var m := |all| - 1;
      var r := Active(all[..m], on);
      assert all == all[..m] + [all[m]];
      if all[m].g == Always || all[m].g in on then r + [all[m].x] else r
  }

  /** What may be in the permanent context once bound `i` is reached. */
  ghost predicate Expected(d: Design, y: Guarded, i: nat) {
    match y.x
    case Init0 => y.g == SelInit
    case TransAt(k) => y.g == Always && k < i
    case GoodAt(k) => y.g == SelNegBad && k < i
    case NotInitAt(k) => y.g == SelNegInit && 0 < k <= i
    case Distinct(a, b, over) => y.g == SelSimple && a < b <= i && over == Compared(d, a, b)
    case _ => false
  }

  ghost predicate AllExpected(d: Design, all: seq<Guarded>, i: nat) {
    forall y :: y in all ==> Expected(d, y, i)
  }

  /** Init, and the transitions and negated bad below `i`, are there. */
  ghost predicate Present(all: seq<Guarded>, i: nat) {
    && Guarded(SelInit, Init0) in all
    && forall k :: 0 <= k < i ==> Guarded(Always, TransAt(k)) in all && Guarded(SelNegBad, GoodAt(k)) in all
  }

  /** Negated init up to `n`. */
  ghost predicate InitNegated(all: seq<Guarded>, n: int) {
    forall j: nat :: 0 < j <= n ==> Guarded(SelNegInit, NotInitAt(j)) in all
  }

  /** A state sequence with inputs that is a window of a shortest counterexample, `i` transitions from `o` on. */
  ghost predicate IsWindow(d: Design, r: seq<State>, o: nat, i: nat, p: Path) {
    && IsShortestCex(d.ts, r) && o + i < |r| && |p| == i + 1
    && (forall k :: 0 <= k <= i ==> p[k].st == r[o + k])
    && (forall k :: 0 <= k < i ==> SatisfiedBy(d, p, TransAt(k)))
  }

  lemma {:induction false} ExpectedSatisfied(d: Design, y: Guarded, i: nat, r: seq<State>, o: nat, p: Path)
    requires d.WellFormed() && Expected(d, y, i) && IsWindow(d, r, o, i, p)
    requires y.g == SelInit ==> o == 0
    ensures SatisfiedBy(d, p, y.x)
  {
    hide IsShortestCex, Compared, Differ;
    match y.x
    case Init0 => InitFirst(d, r);
    case GoodAt(k) => ShortestCexPrefixGood(d.ts, r, o + k);
    case NotInitAt(k) => ShortestCexSuffixNotInit(d.ts, r, o + k);
    case Distinct(a, b, over) => ShortestCexSimple(d, r, o, a, b);
    case _ =>
  }

  lemma {:induction false} InitFirst(d: Design, r: seq<State>)
    requires IsShortestCex(d.ts, r)
    ensures d.ts.init(r[0])
  {
  }

  /** A window of a shortest counterexample satisfies every formula that is switched on. */
  lemma {:induction false} WindowSatisfies(
      d: Design, all: seq<Guarded>, on: set<Guard>, i: nat, r: seq<State>, o: nat, p: Path)
    requires d.WellFormed() && AllExpected(d, all, i) && IsWindow(d, r, o, i, p)
    requires SelInit in on ==> o == 0
    ensures IsModel(d, p, Active(all, on))
  {
    hide Expected, IsWindow, SatisfiedBy;
    forall x | x in Active(all, on) ensures SatisfiedBy(d, p, x) {
      var y :| y in all && (y.g == Always || y.g in on) && y.x == x;
      NotAlwaysInit(d, y, i);
      ExpectedSatisfied(d, y, i, r, o, p);
    }
  }

  lemma {:induction false} NotAlwaysInit(d: Design, y: Guarded, i: nat)
    requires Expected(d, y, i)
    ensures y.x == Init0 ==> y.g == SelInit
  {
  }

  lemma {:induction false} CexWindow(
      d: Design, all: seq<Guarded>, on: set<Guard>, i: nat, r: seq<State>, o: nat) returns (p: Path)
    requires d.WellFormed() && AllExpected(d, all, i) && IsShortestCex(d.ts, r) && o + i < |r|
    requires SelInit in on ==> o == 0
    ensures IsModel(d, p, Active(all, on)) && |p| == i + 1 && p[i].st == r[o + i]
  {
    PathSlice(d.ts, r, o, o + i + 1);
    p := Annotate(d, r[o..o + i + 1], map[]);
    WindowSatisfies(d, all, on, i, r, o, p);
  }

  const StepGuards: set<Guard> := {SelNegBad, SelSimple}
  const InitGuards: set<Guard> := {SelInit, SelNegInit, SelNegBad, SelSimple}
  const BaseGuards: set<Guard> := {SelInit, SelNegBad, SelSimple}

  /** No simple bad-free path of length `i`: a counterexample would have to be shorter. */
  lemma {:induction false} NoPathNoCex(d: Design, all: seq<Guarded>, on: set<Guard>, i: nat)
    requires d.WellFormed() && AllExpected(d, all, i) && NoCexWithin(d, i - 1)
    requires Unsatisfiable(d, Active(all, on))
    ensures Safe(d.ts)
  {
    if !Safe(d.ts) {
      var r := UnsafeHasShortestCex(d.ts);
      var p := CexWindow(d, all, on, i, r, 0);
      assert false;
    }
  }

  lemma {:induction false} AndBad(d: Design, stack: seq<Assertion>, i: nat, p: Path)
    requires IsModel(d, p, stack) && SatisfiedBy(d, p, BadAt(i))
    ensures IsModel(d, p, stack + [BadAt(i)])
  {
    hide SatisfiedBy;
  }

  /** No simple bad-free path of length `i` into bad: no counterexample has `i` or more transitions. */
  lemma {:induction false} NoStepNoCex(d: Design, all: seq<Guarded>, i: nat)
    requires d.WellFormed() && AllExpected(d, all, i) && NoCexWithin(d, i - 1)
    requires Unsatisfiable(d, Active(all, StepGuards) + [BadAt(i)])
    ensures Safe(d.ts)
  {
    if !Safe(d.ts) {
      var r := UnsafeHasShortestCex(d.ts);
      var p := CexWindow(d, all, StepGuards, i, r, |r| - 1 - i);
      AndBad(d, Active(all, StepGuards), i, p);
      assert false;
    }
  }

  /** The regular base check at `i` rules out counterexamples of exactly `i` transitions. */
  lemma {:induction false} BaseExtends(d: Design, all: seq<Guarded>, i: nat)
    requires d.WellFormed() && AllExpected(d, all, i) && NoCexWithin(d, i - 1)
    requires Unsatisfiable(d, Active(all, BaseGuards) + [BadAt(i)])
    ensures NoCexWithin(d, i)
  {
    forall r | IsCex(d.ts, r) ensures |r| > i + 1 {
      if |r| == i + 1 {
        assert IsShortestCex(d.ts, r);
        var p := CexWindow(d, all, BaseGuards, i, r, 0);
        AndBad(d, Active(all, BaseGuards), i, p);
      }
    }
  }

  lemma {:induction false} ActivePath(
      d: Design, all: seq<Guarded>, on: set<Guard>, rest: seq<Assertion>, i: nat, p: Path)
    requires Present(all, i) && SelInit in on && IsModel(d, p, Active(all, on) + rest)
    ensures SatisfiedBy(d, p, Init0) && forall k :: 0 <= k < i ==> SatisfiedBy(d, p, TransAt(k))
    ensures forall x :: x in rest ==> SatisfiedBy(d, p, x)
  {
    forall k | 0 <= k < i ensures SatisfiedBy(d, p, TransAt(k)) {
      assert Guarded(Always, TransAt(k)) in all;
      assert TransAt(k) in Active(all, on);
    }
    assert Init0 in Active(all, on);
  }

  lemma {:induction false} BaseModelIsCex(d: Design, all: seq<Guarded>, i: nat, p: Path)
    requires Present(all, i) && IsModel(d, p, Active(all, BaseGuards) + [BadAt(i)])
    ensures !Safe(d.ts)
  {
    ActivePath(d, all, BaseGuards, [BadAt(i)], i, p);
    assert SatisfiedBy(d, p, BadAt(i));
    var r := ModelIsPath(d, p, i);
    assert IsCex(d.ts, r);
    CexIsUnsafe(d.ts, r);
  }

  /** The flat final check, over what is already asserted. */
  lemma {:induction false} FlatCheck(d: Design, all: seq<Guarded>, i: nat)
    requires AllExpected(d, all, i) && Present(all, i)
    ensures forall p :: IsModel(d, p, Active(all, {SelInit}) + [SomeBad(i)]) <==> IsModel(d, p, Flat(i))
  {
    forall p ensures IsModel(d, p, Active(all, {SelInit}) + [SomeBad(i)]) <==> IsModel(d, p, Flat(i)) {
      if IsModel(d, p, Active(all, {SelInit}) + [SomeBad(i)]) {
        ActivePath(d, all, {SelInit}, [SomeBad(i)], i, p);
      }
      if IsModel(d, p, Flat(i)) {
        FlatModel(d, p, i);
        forall x | x in Active(all, {SelInit}) ensures SatisfiedBy(d, p, x) {
          var y :| y in all && (y.g == Always || y.g in {SelInit}) && y.x == x;
          assert Expected(d, y, i);
        }
      }
    }
  }

  /** Where only the base check at 0 is inconclusive, the property exit at 1 is taken and the verdict is wrong. */
  lemma {:induction false} UnknownBaseMisleads(th: Theory, all: seq<Guarded>)
    requires Present(all, 1)
    ensures Shaped(FlipView(), th)
    ensures forall n: nat :: NoCexAmong(DesignOf(FlipView(), FlipBad(), th), {n}) <==> n != 0
    ensures Unsatisfiable(DesignOf(FlipView(), FlipBad(), th), Active(all, StepGuards) + [BadAt(1)])
  {
    hide NoCexAmong, SatisfiedBy, Shaped, NoReachableDeadlock;
    FlipBadOnlyAtStart(th);
    var stack := Active(all, StepGuards) + [BadAt(1)];
    assert Guarded(Always, TransAt(0)) in all;
    assert TransAt(0) in stack && BadAt(1) in stack;
  }

  ghost predicate FinalCheckTrusted(d: Design, opts: Options, transTotal: bool) {
    opts.oneTimeBaseCheck && transTotal ==> VisitsContinue(d.ts)
  }

  lemma {:induction false} FlatCheckUnsat(d: Design, all: seq<Guarded>, i: nat)
    requires AllExpected(d, all, i) && Present(all, i) && VisitsContinue(d.ts)
    requires Unsatisfiable(d, Active(all, {SelInit}) + [SomeBad(i)])
    ensures NoCexWithin(d, i)
  {
    FlatCheck(d, all, i);
    FlatAgreesWithNested(d, i);
    NestedExact(d, i);
  }

  lemma {:induction false} FlatCheckSat(d: Design, all: seq<Guarded>, i: nat, p: Path)
    requires AllExpected(d, all, i) && Present(all, i) && IsModel(d, p, Active(all, {SelInit}) + [SomeBad(i)])
    ensures !Safe(d.ts)
  {
    FlatCheck(d, all, i);
    FlatExact(d, i);
    var r :| ContinuingCex(d, r, i);
    var c := ContinuingHasCex(d, r, i);
    CexIsUnsafe(d.ts, c);
  }

  lemma {:induction false} NestedCheckUnsat(d: Design, i: nat)
    requires Unsatisfiable(d, [CexWithin(i)])
    ensures NoCexWithin(d, i)
  {
    NestedExact(d, i);
    forall p ensures !SatisfiedBy(d, p, CexWithin(i)) {
      assert !IsModel(d, p, [CexWithin(i)]);
    }
  }

  lemma {:induction false} NestedCheckSat(d: Design, i: nat, p: Path)
    requires IsModel(d, p, [CexWithin(i)])
    ensures !Safe(d.ts)
  {
    assert CexWithin(i) in [CexWithin(i)];
    NestedExact(d, i);
    var r :| IsCex(d.ts, r) && |r| <= i + 1;
    CexIsUnsafe(d.ts, r);
  }

  lemma {:induction false} ExpectedLater(d: Design, all: seq<Guarded>, i: nat, j: nat)
    requires AllExpected(d, all, i) && i <= j
    ensures AllExpected(d, all, j)
  {
    forall y | y in all ensures Expected(d, y, j) {
      assert Expected(d, y, i);
    }
  }

  /** A conclusive exit at bound `i` proves safety once shorter counterexamples are excluded. */
  ghost predicate ExitAt(d: Design, i: nat) {
    NoCexWithin(d, i - 1) ==> Safe(d.ts)
  }

  /** A path of `i` transitions that is bad at its end only, from any start. */
  ghost predicate BadEnds(d: Design, i: nat) {
    exists p: Path :: SatisfiedBy(d, p, BadAt(i)) && GoodSteps(d, p, i)
  }

  /** A path of `i` transitions from init that does not return there, and is bad at its end at most. */
  ghost predicate LeavesInit(d: Design, i: nat) {
    exists p: Path :: SatisfiedBy(d, p, Init0) && GoodSteps(d, p, i) && NeverInit(d, p, i)
  }

  ghost predicate GoodSteps(d: Design, p: Path, i: nat) {
    forall j: nat :: j < i ==> SatisfiedBy(d, p, TransAt(j)) && SatisfiedBy(d, p, GoodAt(j))
  }

  ghost predicate NeverInit(d: Design, p: Path, i: nat) {
    forall j: nat :: 0 < j <= i ==> SatisfiedBy(d, p, NotInitAt(j))
  }

  lemma {:induction false} ActiveGoodSteps(
      d: Design, all: seq<Guarded>, on: set<Guard>, rest: seq<Assertion>, i: nat, p: Path)
    requires Present(all, i) && SelNegBad in on && IsModel(d, p, Active(all, on) + rest)
    ensures GoodSteps(d, p, i)
  {
    forall j: nat | j < i ensures SatisfiedBy(d, p, TransAt(j)) && SatisfiedBy(d, p, GoodAt(j)) {
      assert Guarded(Always, TransAt(j)) in all && Guarded(SelNegBad, GoodAt(j)) in all;
      assert TransAt(j) in Active(all, on) && GoodAt(j) in Active(all, on);
    }
  }

  /** A model of the property step is a path that is bad at its end only. */
  lemma {:induction false} StepModelEnds(d: Design, all: seq<Guarded>, i: nat)
    requires Present(all, i) && !Unsatisfiable(d, Active(all, StepGuards) + [BadAt(i)])
    ensures BadEnds(d, i)
  {
    hide SatisfiedBy, GoodSteps;
    var p :| IsModel(d, p, Active(all, StepGuards) + [BadAt(i)]);
    ActiveGoodSteps(d, all, StepGuards, [BadAt(i)], i, p);
    assert BadAt(i) in Active(all, StepGuards) + [BadAt(i)];
  }

  /** A model of the step on initial states is a path that leaves init for good. */
  lemma {:induction false} InitModelLeaves(d: Design, all: seq<Guarded>, i: nat)
    requires Present(all, i) && InitNegated(all, i) && !Unsatisfiable(d, Active(all, InitGuards))
    ensures LeavesInit(d, i)
  {
    hide SatisfiedBy, GoodSteps;
    var p :| IsModel(d, p, Active(all, InitGuards));
    assert Active(all, InitGuards) + [] == Active(all, InitGuards);
    ActiveGoodSteps(d, all, InitGuards, [], i, p);
    assert Init0 in Active(all, InitGuards);
    forall j: nat | 0 < j <= i ensures SatisfiedBy(d, p, NotInitAt(j)) {
      assert Guarded(SelNegInit, NotInitAt(j)) in all;
      assert NotInitAt(j) in Active(all, InitGuards);
    }
  }

  /** Pairs whose simple-path constraint is already asserted. */
  ghost function Asserted(all: seq<Guarded>, i: nat): set<(nat, nat)> {
    set q | q in Pairs(i) && exists y :: y in all && y.g == SelSimple && y.x.Distinct? && y.x.a == q.0 && y.x.b == q.1
  }

  lemma {:induction false} StepModelLength(d: Design, all: seq<Guarded>, i: nat, p: Path)
    requires Present(all, i) && i > 0 && IsModel(d, p, Active(all, StepGuards))
    ensures |p| > i
  {
    assert Guarded(Always, TransAt(i - 1)) in all;
    assert TransAt(i - 1) in Active(all, StepGuards);
    assert SatisfiedBy(d, p, TransAt(i - 1));
  }

  class KInduction {
    const d: Design
    const opts: Options
    const solve: Oracle
    const transTotal: bool        // is_trans_total()

    var reachedK: int
    var asserted: seq<Guarded>    // permanent assertions
    var checks: nat
    ghost var unknownAt: set<nat> // the bounds whose base check was inconclusive

    ghost predicate Fit() {
      d.WellFormed() && Correct(d, solve)
    }

    constructor (d: Design, opts: Options, solve: Oracle, transTotal: bool)
      ensures this.d == d && this.opts == opts && this.solve == solve && this.transTotal == transTotal
      ensures reachedK == -1 && asserted == [Guarded(SelInit, Init0)] && unknownAt == {} && Ready()
    {
      this.d, this.opts, this.solve, this.transTotal := d, opts, solve, transTotal;
      reachedK, asserted, checks, unknownAt := -1, [Guarded(SelInit, Init0)], 0, {};
    }

    method Check(stack: seq<Assertion>) returns (a: Answer)
      requires Fit()
      modifies `checks
      ensures AnswerOk(d, stack, a) && (Definite(solve) ==> !a.Unknown?)
    {
      checks := checks + 1;
      a := solve(checks, stack);
    }

    /** Adds violated simple-path constraints until there is no model, or the model is a simple path. */
    method CheckSimplePathLazy(i: nat) returns (unsat: bool)
      requires Fit() && AllExpected(d, asserted, i) && Present(asserted, i)
      modifies `asserted, `checks
      ensures AllExpected(d, asserted, i) && Present(asserted, i) && old(asserted) <= asserted
      ensures unsat ==> Unsatisfiable(d, Active(asserted, StepGuards))
      ensures !unsat && Definite(solve) && i > 0 ==> HasSimplePath(d, i)
    {
      var added := true;
      while added
        invariant AllExpected(d, asserted, i) && Present(asserted, i) && old(asserted) <= asserted
        invariant !added && i > 0 ==> HasSimplePath(d, i)
        decreases |Pairs(i) - Asserted(asserted, i)|, added
      {
        var a := Check(Active(asserted, StepGuards));
        if a.Unsat? {
          return true;
        }
        if a.Unknown? {
          return false;
        }
        if i == 0 {
          return false;
        }
        StepModelLength(d, asserted, i, a.p);
        StepModelIsPath(d, asserted, i, a.p);
        added := AddViolated(i, a.p);
      }
      return false;
    }

    /** Scans the pairs of the model and asserts constraints it violates: the first one found, or all of them. */
    method AddViolated(i: nat, p: Path) returns (added: bool)
      requires AllExpected(d, asserted, i) && Present(asserted, i)
      requires |p| > i && IsModel(d, p, Active(asserted, StepGuards))
      modifies `asserted
      ensures AllExpected(d, asserted, i) && Present(asserted, i)
      ensures added ==> |Pairs(i) - Asserted(asserted, i)| < |Pairs(i) - Asserted(old(asserted), i)|
      ensures !added ==> asserted == old(asserted) && IsSimplePath(d, p, i)
      ensures old(asserted) <= asserted && (added && !opts.noMultiCall ==> |asserted| == |old(asserted)| + 1)
      ensures added && opts.noMultiCall ==> forall a: nat, b: nat :: a < b <= i ==> HandledPair(d, asserted, p, a, b)
    {
      hide Expected, IsModel, Compared, Differ;
      var vec: seq<Assertion> := [];
      for j := 0 to i
        invariant asserted == old(asserted) && Violations(d, vec, i, p) && (!opts.noMultiCall ==> vec == [])
        invariant HandledUpTo(d, vec, p, i, j, 0)
      {
        for l := j + 1 to i + 1
          invariant asserted == old(asserted) && Violations(d, vec, i, p) && (!opts.noMultiCall ==> vec == [])
          invariant HandledUpTo(d, vec, p, i, j, l)
        {
          var x := SimplePathConstraint(d, j, l);
          ghost var was := vec;
          if !Differ(p[j].st, p[l].st, x.over) {
            PairIsViolation(d, i, p, j, l);
            if !opts.noMultiCall {
              NewConstraintsShrink(d, asserted, [x], i, p);
              asserted := asserted + GuardAll([x]);
              return true;
            }
            vec := vec + [x];
          }
          HandleStep(d, was, vec, p, i, j, l);
        }
      }
      added := vec != [];
      AllHandled(d, asserted, vec, p, i);
      if added {
        NewConstraintsShrink(d, asserted, vec, i, p);
        asserted := asserted + GuardAll(vec);
      }
    }

    /** Adds the constraints of bound `i`, all smaller pairs being there already, and calls the solver. */
    method CheckSimplePathEager(i: nat) returns (unsat: bool)
      requires Fit() && AllExpected(d, asserted, i) && Present(asserted, i)
      modifies `asserted, `checks
      ensures AllExpected(d, asserted, i) && Present(asserted, i)
      ensures unsat ==> Unsatisfiable(d, Active(asserted, StepGuards))
      ensures asserted == old(asserted) + GuardAll(PairsWith(d, i))
      ensures !unsat && Definite(solve) ==> exists p :: IsModel(d, p, Active(asserted, StepGuards))
    {
      var added := [];
      for j := 0 to i
        invariant asserted == old(asserted) && added == PairsWith(d, i)[..j]
      {
        var x := SimplePathConstraint(d, j, i);
        added := added + [x];
      }
      assert added == PairsWith(d, i);
      asserted := asserted + GuardAll(added);
      var a := Check(Active(asserted, StepGuards));
      unsat := a.Unsat?;
    }

    /** The single base check for all bounds up to `i`; None is the exception thrown on an unknown answer. */
    method FinalBaseCaseCheck(i: nat) returns (safe: Option<bool>)
      requires Fit() && AllExpected(d, asserted, i) && Present(asserted, i)
      modifies `checks
      ensures safe == Some(true) && (transTotal ==> VisitsContinue(d.ts)) ==> NoCexWithin(d, i)
      ensures safe == Some(false) ==> !Safe(d.ts)
      ensures Definite(solve) ==> safe != None
    {
      hide VisitsContinue, NoCexWithin, Safe, AllExpected, Present;
      var stack := if transTotal then Active(asserted, {SelInit}) + [SomeBad(i)] else [CexWithin(i)];
      var a := Check(stack);
      match a
      case Sat(p) =>
        safe := Some(false);
        if transTotal {
          FlatCheckSat(d, asserted, i, p);
        } else {
          NestedCheckSat(d, i, p);
        }
      case Unsat =>
        safe := Some(true);
        if transTotal {
          if VisitsContinue(d.ts) {
            FlatCheckUnsat(d, asserted, i);
          }
        } else {
          NestedCheckUnsat(d, i);
        }
      case Unknown =>
        safe := None;
    }

    /** What a result promises: TRUE can only be wrong about a length whose base check was inconclusive. */
    ghost predicate Promise(o: Outcome)
      reads `unknownAt
    {
      && (o == Verdict(TRUE) && FinalCheckTrusted(d, opts, transTotal) ==> (Safe(d.ts) <==> NoCexAmong(d, unknownAt)))
      && (o == Verdict(FALSE) ==> !Safe(d.ts))
    }

    method Conclude(i: nat) returns (o: Outcome)
      requires Fit() && AllExpected(d, asserted, i) && Present(asserted, i) && ExitAt(d, i)
      requires !opts.oneTimeBaseCheck && NoCexAmong(d, unknownAt) ==> NoCexWithin(d, i - 1)
      modifies `checks
      ensures Promise(o) && o != Verdict(UNKNOWN) && (o == Threw ==> opts.oneTimeBaseCheck && !Definite(solve))
    {
      hide VisitsContinue, Safe, AllExpected, Present, NoCexAmong;
      NoneMissed(d, unknownAt);
      if opts.oneTimeBaseCheck {
        var safe := FinalBaseCaseCheck(i);
        match safe
        case None => o := Threw;
        case Some(b) => o := Verdict(if b then TRUE else FALSE);
      } else {
        o := Verdict(TRUE);
      }
    }

    /** Simple paths are looked for. */
    ghost predicate SimpleChecked() {
      !opts.noSimplePathCheck && d.vars != []
    }

    /** The loop state at bound `i`. */
    ghost predicate At(i: nat)
      reads `asserted, `unknownAt, `reachedK
    {
      && AllExpected(d, asserted, i) && Present(asserted, i)
      && -1 <= reachedK < i && (i > 0 ==> reachedK >= 0)
      && (!opts.oneTimeBaseCheck && NoCexAmong(d, unknownAt) ==> NoCexWithin(d, i - 1))
      && (!opts.noIndCheckInitStates ==> InitNegated(asserted, reachedK))
      && (SimpleChecked() && opts.eagerSimplePath && i > 0 ==> AllPairs(asserted, i - 1))
    }

    /** Exits exactly when there is no simple bad-free path; otherwise a decided check has found one. */
    method SimplePathExit(i: nat) returns (exit: bool)
      requires Fit() && At(i)
      modifies `asserted, `checks
      ensures At(i) && (exit ==> ExitAt(d, i))
      ensures !exit && Definite(solve) && SimpleChecked() && i > 0 ==> HasSimplePath(d, i)
      ensures SimpleChecked() && opts.eagerSimplePath ==> AllPairs(asserted, i)
    {
      hide NoCexWithin, Safe, HasSimplePath, AllPairs, AllExpected, Present, InitNegated, NoCexAmong, Unsatisfiable;
      exit := false;
      if !opts.noSimplePathCheck && d.vars != [] {
        ghost var was := asserted;
        if opts.eagerSimplePath {
          exit := CheckSimplePathEager(i);
          EagerAllPairs(d, was, i);
          if !exit && Definite(solve) && i > 0 {
            EagerModelIsSimple(d, asserted, i);
          }
        } else {
          exit := CheckSimplePathLazy(i);
        }
        InitStaysNegated(was, asserted, reachedK);
        if exit && NoCexWithin(d, i - 1) {
          NoPathNoCex(d, asserted, StepGuards, i);
        }
      }
    }

    /** Init at 0 and at no later time: the inductive step on initial states. */
    method InitialStatesExit(i: nat) returns (exit: bool)
      requires Fit() && At(i) && (SimpleChecked() && opts.eagerSimplePath ==> AllPairs(asserted, i))
      modifies `asserted, `checks
      ensures At(i) && (exit ==> ExitAt(d, i))
      ensures !opts.noIndCheckInitStates ==> InitNegated(asserted, i)
      ensures Definite(solve) && i >= 1 && !opts.noIndCheckInitStates ==>
        (exit <==> Unsatisfiable(d, Active(asserted, InitGuards)))
      ensures Definite(solve) && i >= 1 && !opts.noIndCheckInitStates && !exit ==> LeavesInit(d, i)
      ensures SimpleChecked() && opts.eagerSimplePath ==> AllPairs(asserted, i)
    {
      hide NoCexWithin, Safe, AllPairs, LeavesInit;
      exit := false;
      if i >= 1 && !opts.noIndCheckInitStates {
        for j := reachedK + 1 to i + 1
          invariant At(i) && InitNegated(asserted, j - 1)
          invariant SimpleChecked() && opts.eagerSimplePath ==> AllPairs(asserted, i)
        {
          MorePairs(asserted, [Guarded(SelNegInit, NotInitAt(j))], i);
          MorePairs(asserted, [Guarded(SelNegInit, NotInitAt(j))], i - 1);
          InitStaysNegated(asserted, asserted + [Guarded(SelNegInit, NotInitAt(j))], reachedK);
          asserted := asserted + [Guarded(SelNegInit, NotInitAt(j))];
        }
        var a := Check(Active(asserted, InitGuards));
        exit := a.Unsat?;
        if a.Sat? {
          InitModelLeaves(d, asserted, i);
        }
        if exit && NoCexWithin(d, i - 1) {
          NoPathNoCex(d, asserted, InitGuards, i);
        }
      }
    }

    /** Bad at `i`, pushed: the inductive step on the property. */
    method PropertyExit(i: nat) returns (exit: bool)
      requires Fit() && At(i)
      modifies `checks
      ensures At(i) && (exit ==> ExitAt(d, i))
      ensures Definite(solve) && !opts.noIndCheckProperty ==>
        (exit <==> Unsatisfiable(d, Active(asserted, StepGuards) + [BadAt(i)]))
      ensures Definite(solve) && !opts.noIndCheckProperty && !exit ==> BadEnds(d, i)
    {
      hide NoCexWithin, Safe;
      exit := false;
      if !opts.noIndCheckProperty {
        var a := Check(Active(asserted, StepGuards) + [BadAt(i)]);
        exit := a.Unsat?;
        if a.Sat? {
          StepModelEnds(d, asserted, i);
        }
        if exit && NoCexWithin(d, i - 1) {
          NoStepNoCex(d, asserted, i);
        }
      }
    }

    method BaseCheck(i: nat) returns (cex: bool)
      requires Fit() && At(i) && !opts.oneTimeBaseCheck
      modifies `checks, `unknownAt
      ensures cex ==> !Safe(d.ts)
      ensures !cex && NoCexAmong(d, unknownAt) ==> NoCexWithin(d, i)
      ensures unknownAt == old(unknownAt) || (!cex && unknownAt == old(unknownAt) + {i})
      ensures Definite(solve) ==>
        unknownAt == old(unknownAt) && (cex <==> !Unsatisfiable(d, Active(asserted, BaseGuards) + [BadAt(i)]))
    {
      hide NoCexWithin, NoCexAmong, Safe, AllExpected, Present;
      var a := Check(Active(asserted, BaseGuards) + [BadAt(i)]);
      cex := a.Sat?;
      ghost var unknown := unknownAt;
      match a
      case Sat(p) => BaseModelIsCex(d, asserted, i, p);
      case Unsat =>
        if NoCexAmong(d, unknownAt) {
          BaseExtends(d, asserted, i);
        }
      case Unknown =>
        unknownAt := unknownAt + {i};
        DepthCovered(d, i, unknown, unknownAt);
    }

    /** Transitions and negated bad for the next `boundStep` times. */
    method Advance(i: nat)
      requires AllExpected(d, asserted, i) && Present(asserted, i)
      modifies `asserted, `reachedK
      ensures AllExpected(d, asserted, i + opts.boundStep) && Present(asserted, i + opts.boundStep)
      ensures reachedK == i && old(asserted) <= asserted
    {
      var j := i;
      while j < i + opts.boundStep
        invariant i <= j <= i + opts.boundStep && old(asserted) <= asserted
        invariant AllExpected(d, asserted, j) && Present(asserted, j)
      {
        ExpectedLater(d, asserted, j, j + 1);
        asserted := asserted + [Guarded(Always, TransAt(j)), Guarded(SelNegBad, GoodAt(j))];
        j := j + 1;
      }
      reachedK := i;
    }

    /** What a decided solver has shown at a bound that none of the three exits took. */
    ghost predicate Passed(i: nat) {
      && (SimpleChecked() ==> Bounded(d, i) && (i > 0 ==> HasSimplePath(d, i)))
      && (!opts.noIndCheckInitStates && i >= 1 ==> LeavesInit(d, i))
      && (!opts.noIndCheckProperty ==> BadEnds(d, i))
    }

    /** One bound: the three exits, the base check, and the next interval of the unrolling. */
    method Bound(i: nat) returns (r: Option<Outcome>)
      requires Fit() && At(i) && opts.boundStep > 0 && (Definite(solve) ==> unknownAt == {})
      requires opts.boundStep == 1 || (opts.oneTimeBaseCheck && !opts.eagerSimplePath)
      modifies this
      ensures Definite(solve) ==> unknownAt == {}
      ensures r.Some? ==> Promise(r.value) && r.value != Verdict(UNKNOWN)
      ensures r == Some(Threw) ==> opts.oneTimeBaseCheck && !Definite(solve)
      ensures r.None? ==> reachedK == i && At(i + opts.boundStep)
      ensures r.None? && Definite(solve) ==> Passed(i)
    {
      hide VisitsContinue, Safe, HasSimplePath, AllPairs, Bounded;
      hide AllExpected, Present, InitNegated, NoCexWithin, NoCexAmong, BadEnds, LeavesInit;
      hide Unsatisfiable, Definite, ExitAt;
      var exit := SimplePathExit(i);
      if !exit && Definite(solve) && SimpleChecked() {
        SimplePathIsBounded(d, i);
      }
      if !exit {
        exit := InitialStatesExit(i);
      }
      if !exit {
        exit := PropertyExit(i);
      }
      if exit {
        var o := Conclude(i);
        return Some(o);
      }
      if !opts.oneTimeBaseCheck {
        var cex := BaseCheck(i);
        if cex {
          return Some(Verdict(FALSE));
        }
      }
      ghost var was := asserted;
      Advance(i);
      InitStaysNegated(was, asserted, i);
      PairsStay(was, asserted, i);
      r := None;
    }

    /** Between two calls, and before the first: everything up to the reached bound is unrolled and checked. */
    ghost predicate Ready()
      reads this
    {
      reachedK >= -1 && At(reachedK + 1) &&
        (Definite(solve) && SimpleChecked() && reachedK >= 0 ==> Bounded(d, reachedK))
    }

    /**
      TRUE is sound at all three exits, FALSE is a counterexample, UNKNOWN excludes every
      bound tried; with simple paths a finite system is decided within its number of states.
     */
    method CheckUntil(k: int) returns (o: Outcome)
      requires Fit() && opts.boundStep > 0 && Ready() && (Definite(solve) ==> unknownAt == {})
      modifies this
      ensures Promise(o) && (Definite(solve) ==> unknownAt == {} && (o == Threw ==> opts.boundStep != 1))
      ensures o == Verdict(UNKNOWN) && !opts.oneTimeBaseCheck && NoCexAmong(d, unknownAt) ==> NoCexWithin(d, k)
      ensures o == Verdict(UNKNOWN) && Definite(solve) && SimpleChecked() ==> Bounded(d, k + 1 - opts.boundStep)
      ensures o == Verdict(UNKNOWN) && opts.boundStep == 1 ==> reachedK >= k && Ready()
      ensures o == Verdict(UNKNOWN) && Definite(solve) ==>
        forall n: nat :: old(reachedK) < n <= k && IsBound(old(reachedK) + 1, opts.boundStep, n) ==> Passed(n)
      ensures opts.boundStep != 1 && (opts.eagerSimplePath || !opts.oneTimeBaseCheck) ==> o == Threw
      ensures o == Threw ==> opts.oneTimeBaseCheck || opts.boundStep != 1
    {
      hide VisitsContinue, Safe, HasSimplePath, AllPairs, Bounded;
      hide AllExpected, Present, InitNegated, NoCexWithin, NoCexAmong, BadEnds, LeavesInit;
      if opts.boundStep != 1 && opts.eagerSimplePath {
        return Threw;
      }
      if opts.boundStep != 1 && !opts.oneTimeBaseCheck {
        return Threw;
      }
      NothingBounded(d, 0);
      var i := reachedK + 1;
      ghost var first := i;
      while i <= k
        invariant i >= first && At(i) && (Definite(solve) ==> unknownAt == {})
        invariant opts.boundStep == 1 || (opts.oneTimeBaseCheck && !opts.eagerSimplePath)
        invariant opts.boundStep == 1 || i == first ==> reachedK == i - 1
        invariant IsBound(first, opts.boundStep, i)
        invariant Definite(solve) ==> forall n: nat :: first <= n < i && IsBound(first, opts.boundStep, n) ==> Passed(n)
        invariant Definite(solve) && SimpleChecked() && i > 0 ==>
          Bounded(d, if i == first then i - 1 else i - opts.boundStep)
        decreases k - i
      {
        var r := Bound(i);
        if r.Some? {
          return r.value;
        }
        NextBound(first, opts.boundStep, i);
        i := i + opts.boundStep;
      }
      NothingBounded(d, k + 1 - opts.boundStep);
      BoundedBelow(d, i - 1, k + 1 - opts.boundStep);
      BoundedBelow(d, i - opts.boundStep, k + 1 - opts.boundStep);
      FewerTransitions(d, i - 1, k);
      o := Verdict(UNKNOWN);
    }
  }

  /** The bounds tried from `first` on. */
  ghost predicate IsBound(first: nat, step: nat, n: nat)
    requires step > 0
  {
    (n - first) % step == 0
  }

  lemma {:induction false} NextBound(first: nat, step: nat, i: nat)
    requires step > 0 && IsBound(first, step, i)
    ensures IsBound(first, step, i + step)
    ensures forall n: nat :: i <= n < i + step && IsBound(first, step, n) ==> n == i
  {
    var q := (i - first) / step;
    assert i + step - first == (q + 1) * step;
    MultipleDivides(q + 1, step);
    forall n: nat | i <= n < i + step && IsBound(first, step, n) ensures n == i {
      var m := (n - first) / step;
      assert (m - q) * step == n - i;
      SmallMultiple(m - q, step);
    }
  }

  lemma {:induction false} MultipleDivides(q: int, step: nat)
    requires step > 0
    ensures q * step % step == 0
  {
    var m, r := q * step / step, q * step % step;
    assert (q - m) * step == r;
    SmallMultiple(q - m, step);
  }

  lemma {:induction false} SmallMultiple(m: int, step: nat)
    requires step > 0 && 0 <= m * step < step
    ensures m == 0
  {
  }

  lemma {:induction false} StepModelIsPath(d: Design, all: seq<Guarded>, i: nat, p: Path)
    requires Present(all, i) && IsModel(d, p, Active(all, StepGuards))
    ensures TakesSteps(d, p, i)
  {
    forall k | 0 <= k < i ensures SatisfiedBy(d, p, TransAt(k)) {
      assert Guarded(Always, TransAt(k)) in all;
      assert TransAt(k) in Active(all, StepGuards);
    }
  }

  /** Every pair of times up to `i` has its constraint. */
  ghost predicate AllPairs(all: seq<Guarded>, i: nat) {
    Asserted(all, i) == Pairs(i)
  }

  lemma {:induction false} InitStaysNegated(all: seq<Guarded>, more: seq<Guarded>, n: int)
    requires all <= more
    ensures InitNegated(all, n) ==> InitNegated(more, n)
  {
    assert forall y :: y in all ==> y in more;
  }

  lemma {:induction false} PairsStay(all: seq<Guarded>, more: seq<Guarded>, i: nat)
    requires all <= more
    ensures AllPairs(all, i) ==> AllPairs(more, i)
  {
    assert forall y :: y in all ==> y in more;
  }

  lemma {:induction false} MorePairs(all: seq<Guarded>, more: seq<Guarded>, i: nat)
    ensures AllPairs(all, i) ==> AllPairs(all + more, i)
  {
    PairsStay(all, all + more, i);
  }

  lemma {:induction false} EagerAllPairs(d: Design, was: seq<Guarded>, i: nat)
    requires i > 0 ==> AllPairs(was, i - 1)
    ensures AllPairs(was + GuardAll(PairsWith(d, i)), i)
    ensures i > 0 ==> AllPairs(was + GuardAll(PairsWith(d, i)), i - 1)
  {
    if i > 0 {
      EagerCoversPairs(d, was, i);
      MorePairs(was, GuardAll(PairsWith(d, i)), i - 1);
    } else {
      assert Pairs(0) == {};
    }
  }

  /** With every pair asserted, a model is a simple path. */
  lemma {:induction false} EagerModelIsSimple(d: Design, all: seq<Guarded>, i: nat)
    requires AllExpected(d, all, i) && Present(all, i) && AllPairs(all, i) && i > 0
    requires exists p :: IsModel(d, p, Active(all, StepGuards))
    ensures HasSimplePath(d, i)
  {
    var p: Path :| IsModel(d, p, Active(all, StepGuards));
    StepModelLength(d, all, i, p);
    StepModelIsPath(d, all, i, p);
    forall a: nat, b: nat | a < b <= i ensures Differ(p[a].st, p[b].st, Compared(d, a, b)) {
      assert (a, b) in Pairs(i);
      assert (a, b) in Asserted(all, i);
      var y :| y in all && y.g == SelSimple && y.x.Distinct? && y.x.a == a && y.x.b == b;
      assert Expected(d, y, i);
      assert y.x in Active(all, StepGuards);
      assert SatisfiedBy(d, p, y.x);
    }
  }

  /** The pairs `(j, i)` with `j < i`. */
  function PairsWith(d: Design, i: nat): (r: seq<Assertion>)
    ensures |r| == i && forall x :: x in r ==> Expected(d, Guarded(SelSimple, x), i)
  {
    seq(i, j requires 0 <= j < i => Distinct(j, i, Compared(d, j, i)))
  }

  /** All pairs of smaller indices, then the pairs with `i`, are all pairs. */
  lemma {:induction false} EagerCoversPairs(d: Design, all: seq<Guarded>, i: nat)
    requires i > 0 && Asserted(all, i - 1) == Pairs(i - 1)
    ensures Asserted(all + GuardAll(PairsWith(d, i)), i) == Pairs(i)
  {
    var all' := all + GuardAll(PairsWith(d, i));
    forall q | q in Pairs(i) ensures q in Asserted(all', i) {
      if q.1 == i {
        var x := PairsWith(d, i)[q.0];
        assert Guarded(SelSimple, x) in GuardAll(PairsWith(d, i));
        assert Guarded(SelSimple, x) in all';
      } else {
        assert q in Pairs(i - 1);
        assert q in Asserted(all, i - 1);
        var y :| y in all && y.g == SelSimple && y.x.Distinct? && y.x.a == q.0 && y.x.b == q.1;
        assert y in all';
      }
    }
  }

  /** The pair differs, or its constraint is in the list. */
  ghost predicate HandledBy(d: Design, xs: seq<Assertion>, p: Path, a: nat, b: nat)
    requires a < b < |p|
  {
    Differ(p[a].st, p[b].st, Compared(d, a, b)) || Distinct(a, b, Compared(d, a, b)) in xs
  }

  ghost predicate HandledPair(d: Design, all: seq<Guarded>, p: Path, a: nat, b: nat)
    requires a < b < |p|
  {
    Differ(p[a].st, p[b].st, Compared(d, a, b)) || Guarded(SelSimple, Distinct(a, b, Compared(d, a, b))) in all
  }

  /** Every pair before `(j, l)` differs, or its constraint is in the list. */
  ghost predicate HandledUpTo(d: Design, xs: seq<Assertion>, p: Path, i: nat, j: nat, l: nat)
    requires |p| > i
  {
    forall a: nat, b: nat :: a < b <= i && (a < j || (a == j && b < l)) ==> HandledBy(d, xs, p, a, b)
  }

  lemma {:induction false} HandleStep(
      d: Design, was: seq<Assertion>, xs: seq<Assertion>, p: Path, i: nat, j: nat, l: nat)
    requires |p| > i && j < l <= i && HandledUpTo(d, was, p, i, j, l)
    requires was <= xs && HandledBy(d, xs, p, j, l)
    ensures HandledUpTo(d, xs, p, i, j, l + 1)
  {
    forall a: nat, b: nat | a < b <= i && (a < j || (a == j && b < l + 1)) ensures HandledBy(d, xs, p, a, b) {
      if a < j || b < l {
        assert HandledBy(d, was, p, a, b);
      }
    }
  }

  lemma {:induction false} PairIsViolation(d: Design, i: nat, p: Path, j: nat, l: nat)
    requires j < l <= i < |p| && !Differ(p[j].st, p[l].st, Compared(d, j, l))
    ensures Expected(d, Guarded(SelSimple, Distinct(j, l, Compared(d, j, l))), i)
    ensures !SatisfiedBy(d, p, Distinct(j, l, Compared(d, j, l)))
  {
  }

  lemma {:induction false} AllHandled(d: Design, all: seq<Guarded>, xs: seq<Assertion>, p: Path, i: nat)
    requires |p| > i && HandledUpTo(d, xs, p, i, i, 0)
    ensures xs == [] ==> IsSimplePath(d, p, i)
    ensures forall a: nat, b: nat :: a < b <= i ==> HandledPair(d, all + GuardAll(xs), p, a, b)
  {
    forall a: nat, b: nat | a < b <= i
      ensures HandledPair(d, all + GuardAll(xs), p, a, b) && (xs == [] ==> Differ(p[a].st, p[b].st, Compared(d, a, b)))
    {
      assert HandledBy(d, xs, p, a, b);
      var x := Guarded(SelSimple, Distinct(a, b, Compared(d, a, b)));
      assert x.x in xs ==> x in GuardAll(xs);
    }
  }

  ghost predicate Violations(d: Design, xs: seq<Assertion>, i: nat, p: Path) {
    forall x :: x in xs ==> Expected(d, Guarded(SelSimple, x), i) && !SatisfiedBy(d, p, x)
  }

  function GuardAll(xs: seq<Assertion>): (r: seq<Guarded>)
    ensures forall y :: y in r <==> y.g == SelSimple && y.x in xs
  {
    if xs == [] then [] else [Guarded(SelSimple, xs[0])] + GuardAll(xs[1..])
  }

  /** A violated constraint is new: asserting it leaves fewer pairs to add. */
  lemma {:induction false} NewConstraintsShrink(d: Design, all: seq<Guarded>, xs: seq<Assertion>, i: nat, p: Path)
    requires AllExpected(d, all, i) && Present(all, i) && IsModel(d, p, Active(all, StepGuards))
    requires xs != [] && Violations(d, xs, i, p)
    ensures AllExpected(d, all + GuardAll(xs), i) && Present(all + GuardAll(xs), i)
    ensures |Pairs(i) - Asserted(all + GuardAll(xs), i)| < |Pairs(i) - Asserted(all, i)|
  {
    var x := xs[0];
    assert x in xs;
    var all', q := all + GuardAll(xs), (x.a, x.b);
    assert Expected(d, Guarded(SelSimple, x), i);
    forall y | y in all && y.g == SelSimple && y.x.Distinct? ensures !(y.x.a == q.0 && y.x.b == q.1) {
      assert Expected(d, y, i);
      assert y.x in Active(all, StepGuards);
      assert SatisfiedBy(d, p, y.x);
      assert y.x != x;
      assert y.x == Distinct(y.x.a, y.x.b, Compared(d, y.x.a, y.x.b));
      assert x == Distinct(x.a, x.b, Compared(d, x.a, x.b));
    }
    assert q !in Asserted(all, i);
    assert Guarded(SelSimple, x) in all';
    assert q in Asserted(all', i);
    StrictSubsetSmaller(Pairs(i) - Asserted(all', i), Pairs(i) - Asserted(all, i), q);
  }
}
