/**
  The timed formulas that bounded engines assert, and the facts about windows
  of a shortest counterexample that justify them.
 */
module Unrolling {
  import opened Cardinality
  import opened Runs
  import opened Terms
  import opened TransitionSystems

  type Path = seq<Point<State, Input>>

  /** A transition system with what the simple-path constraints need to know about it. */
  datatype Design = Design(ts: System<State, Input>, vars: seq<Name>, noUpdate: set<Name>,
    cons: (State, Input) -> bool) {

    ghost predicate Occurs(u: State) {
      ts.init(u) || exists q, j :: ts.trans(q, j, u)
    }

    ghost predicate AgreeOnUpdated(t: State, u: State) {
      forall n :: n in vars && n !in noUpdate ==> Lookup(t, n) == Lookup(u, n)
    }

    /**
      States assign the variables; constraints are part of trans; a variable without update is free in the
      next state.
     */
    ghost predicate WellFormed() {
      && (forall s :: ts.init(s) ==> s.Keys == VarSet(vars))
      && (forall s, i, t :: ts.trans(s, i, t) ==> s.Keys == VarSet(vars) && t.Keys == VarSet(vars) && cons(s, i))
      && (forall s, i, t, u :: ts.trans(s, i, t) && Occurs(u) && AgreeOnUpdated(t, u) ==> ts.trans(s, i, u))
    }
  }

  ghost function DesignOf(v: View, bad: Term, th: Theory): Design {
    Design(Semantics(v, bad, th), v.vars, VarSet(v.vars) - v.updates.Keys,
           (s: State, i: Input) => AllHold(v.constraints, s, i, s, th))
  }

  /** Every system built with the transition-system methods has the shape the engines rely on. */
  lemma {:induction false} BuiltDesignsWellFormed(v: View, bad: Term, th: Theory)
    requires Shaped(v, th)
    ensures DesignOf(v, bad, th).WellFormed()
  {
    hide Eval;
    var d := DesignOf(v, bad, th);
    forall s, i, t | d.ts.trans(s, i, t) ensures d.cons(s, i) {
      forall c | c in v.constraints ensures Holds(c, EnvOf(s, i, s), th) {
        UpdateFormula(c, v.vars, v.inputs, s, i, t, s, th);
      }
    }
    forall s, i, t, u | d.ts.trans(s, i, t) && d.Occurs(u) && d.AgreeOnUpdated(t, u) ensures d.ts.trans(s, i, u) {
      forall n | n in v.updates ensures Lookup(t, n) == Lookup(u, n) {
        assert n in v.vars && n !in d.noUpdate;
      }
      SuccessorReplaceable(v, bad, th, s, i, t, u);
    }
  }

  /** One conjunct of a cube: a variable has a value. */
  datatype Literal = Literal(n: Name, val: Value)

  type Cube = seq<Literal>

  predicate InCube(c: Cube, s: State) {
    forall k :: 0 <= k < |c| ==> Lookup(s, c[k].n) == c[k].val
  }

  datatype Assertion =
    | Init0
    | TransAt(k: nat)
    | ConsAt(k: nat)
    | BadAt(k: nat)
    | GoodAt(k: nat)
    | NotInitAt(k: nat)
    | Distinct(a: nat, b: nat, over: seq<Name>)
    | InAt(c: Cube, k: nat)
    | OutAt(c: Cube, k: nat)
    | SomeBad(n: nat)
    | CexWithin(n: nat)

  /** The nested formula: bad now, or a transition and the same from the next state. */
  ghost predicate Nested(d: Design, p: Path, k: nat, n: nat)
    requires k <= n < |p|
    decreases n - k
  {
    d.ts.bad(p[k].st) || (k < n && d.ts.trans(p[k].st, p[k].inp, p[k + 1].st) && Nested(d, p, k + 1, n))
  }

  predicate Differ(s: State, t: State, over: seq<Name>) {
    exists n :: n in over && Lookup(s, n) != Lookup(t, n)
  }

  ghost predicate SatisfiedBy(d: Design, p: Path, x: Assertion) {
    match x
    case Init0 => |p| > 0 && d.ts.init(p[0].st)
    case TransAt(k) => k + 1 < |p| && d.ts.trans(p[k].st, p[k].inp, p[k + 1].st)
    case ConsAt(k) => k < |p| && d.cons(p[k].st, p[k].inp)
    case BadAt(k) => k < |p| && d.ts.bad(p[k].st)
    case GoodAt(k) => k < |p| && !d.ts.bad(p[k].st)
    case NotInitAt(k) => k < |p| && !d.ts.init(p[k].st)
    case Distinct(a, b, over) => a < |p| && b < |p| && Differ(p[a].st, p[b].st, over)
    case InAt(c, k) => k < |p| && InCube(c, p[k].st)
    case OutAt(c, k) => k < |p| && !InCube(c, p[k].st)
    case SomeBad(n) => n < |p| && exists k :: 0 <= k <= n && d.ts.bad(p[k].st)
    case CexWithin(n) => n < |p| && d.ts.init(p[0].st) && Nested(d, p, 0, n)
  }

  ghost predicate IsModel(d: Design, p: Path, stack: seq<Assertion>) {
    forall x :: x in stack ==> SatisfiedBy(d, p, x)
  }

  ghost predicate Unsatisfiable(d: Design, stack: seq<Assertion>) {
    forall p :: !IsModel(d, p, stack)
  }

  datatype Answer = Sat(p: Path) | Unsat | Unknown

  /** A solver: models satisfy the stack, and unsat means that none exists. */
  type Oracle = (nat, seq<Assertion>) -> Answer

  ghost predicate AnswerOk(d: Design, stack: seq<Assertion>, r: Answer) {
    match r
    case Sat(p) => IsModel(d, p, stack)
    case Unsat => forall p :: !IsModel(d, p, stack)
    case Unknown => true
  }

  /** A solver that always decides. */
  ghost predicate Definite(o: Oracle) {
    forall n: nat, stack: seq<Assertion> :: !o(n, stack).Unknown?
  }

  ghost predicate Correct(d: Design, o: Oracle) {
    forall n: nat, stack: seq<Assertion> :: AnswerOk(d, stack, o(n, stack))
  }

  /** Every counterexample has more than `n` transitions. */
  ghost predicate NoCexWithin(d: Design, n: int) {
    forall r :: IsCex(d.ts, r) ==> |r| > n + 1
  }

  /** No counterexample has a number of transitions in `lens`. */
  ghost predicate NoCexAmong(d: Design, lens: set<nat>) {
    forall r :: IsCex(d.ts, r) ==> |r| - 1 !in lens
  }

  lemma {:induction false} SafeIffNoCex(d: Design)
    ensures Safe(d.ts) <==> forall r :: !IsCex(d.ts, r)
  {
    if !Safe(d.ts) {
      var r := UnsafeHasCex(d.ts);
    } else {
      forall r ensures !IsCex(d.ts, r) {
        if IsCex(d.ts, r) {
          CexIsUnsafe(d.ts, r);
        }
      }
    }
  }

  /** Depth `i` is covered by its base check, or is among the inconclusive ones. */
  lemma {:induction false} DepthCovered(d: Design, i: nat, before: set<nat>, after: set<nat>)
    requires before <= after
    ensures NoCexAmong(d, after) ==> NoCexAmong(d, before)
    ensures NoCexAmong(d, after) && NoCexWithin(d, i - 1) && (i in after || NoCexAmong(d, {i})) ==> NoCexWithin(d, i)
  {
    if NoCexAmong(d, after) && NoCexWithin(d, i - 1) && (i in after || NoCexAmong(d, {i})) {
      forall r | IsCex(d.ts, r) ensures |r| > i + 1 {
      }
    }
  }

  lemma {:induction false} NoneMissed(d: Design, lens: set<nat>)
    ensures Safe(d.ts) ==> NoCexAmong(d, lens)
    ensures lens == {} ==> NoCexAmong(d, lens)
  {
    SafeIffNoCex(d);
  }

  lemma {:induction false} FewerTransitions(d: Design, n: int, k: int)
    requires k <= n || k < 0
    ensures NoCexWithin(d, n) ==> NoCexWithin(d, k)
  {
  }

  // ----- simple paths -----

  /** The variables compared between times `a` and `b`: those without update only when one of them is 0. */
  function Compared(d: Design, a: nat, b: nat): seq<Name> {
    ComparedFrom(d.vars, d.noUpdate, a > 0 && b > 0)
  }

  function ComparedFrom(vars: seq<Name>, noUpdate: set<Name>, skip: bool): (r: seq<Name>)
    ensures forall n :: n in r <==> n in vars && !(skip && n in noUpdate)
  {
    if vars == [] then [] else
      var m := |vars| - 1;
      ComparedFrom(vars[..m], noUpdate, skip) + if skip && vars[m] in noUpdate then [] else [vars[m]]
  }

  /** The disjunction that some compared variable differs, built variable by variable. */
  method SimplePathConstraint(d: Design, i: nat, j: nat) returns (x: Assertion)
    ensures x == Distinct(i, j, Compared(d, i, j))
  {
    var over := [];
    for m := 0 to |d.vars|
      invariant over == ComparedFrom(d.vars[..m], d.noUpdate, i > 0 && j > 0)
    {
      assert d.vars[..m + 1][..m] == d.vars[..m];
      if !(i > 0 && j > 0 && d.vars[m] in d.noUpdate) {
        over := over + [d.vars[m]];
      }
    }
    assert d.vars[..|d.vars|] == d.vars;
    x := Distinct(i, j, over);
  }

  lemma {:induction false} SameLookups(vars: seq<Name>, s: State, t: State)
    requires s.Keys == VarSet(vars) && t.Keys == VarSet(vars)
    requires forall n :: n in vars ==> Lookup(s, n) == Lookup(t, n)
    ensures s == t
  {
    forall n | n in s.Keys ensures s[n] == t[n] {
      assert n in vars;
    }
  }

  /** In a shortest counterexample every window is a simple path on the compared variables. */
  lemma {:induction false} ShortestCexSimple(d: Design, r: seq<State>, o: nat, a: nat, b: nat)
    requires d.WellFormed() && IsShortestCex(d.ts, r) && a < b && o + b < |r|
    ensures Differ(r[o + a], r[o + b], Compared(d, a, b))
  {
    var s, t := r[o + a], r[o + b];
    if o + a > 0 {
      assert Step(d.ts, r[o + a - 1], r[o + a - 1 + 1]);
      assert Step(d.ts, r[o + b - 1], r[o + b - 1 + 1]);
      var i :| d.ts.trans(r[o + a - 1], i, s);
      ShortestCexNoShortcut(d.ts, r, o + a - 1, o + b);
      assert !d.ts.trans(r[o + a - 1], i, t);
      assert d.Occurs(t);
      var n :| n in d.vars && n !in d.noUpdate && Lookup(s, n) != Lookup(t, n);
      assert n in Compared(d, a, b);
    } else {
      ShortestCexSuffixNotInit(d.ts, r, o + b);
      assert Step(d.ts, r[o + b - 1], r[o + b - 1 + 1]);
      assert s != t && s.Keys == t.Keys == VarSet(d.vars);
      if forall n :: n in d.vars ==> Lookup(s, n) == Lookup(t, n) {
        SameLookups(d.vars, s, t);
      }
    }
  }

  ghost function Pairs(i: nat): set<(nat, nat)> {
    set a: nat, b: nat | 0 <= a < b <= i :: (a, b)
  }

  /** There are `i * (i + 1) / 2` pairs of times up to `i`. */
  lemma {:induction false} PairsCount(i: nat)
    ensures 2 * |Pairs(i)| == i * (i + 1)
  {
    if i == 0 {
      assert Pairs(0) == {};
    } else {
      PairsCount(i - 1);
      PairsUpTo(i, i);
    }
  }

  lemma {:induction false} PairsUpTo(i: nat, n: nat)
    requires 0 < i && n <= i
    ensures |(set a: nat | 0 <= a < n :: (a, i))| == n
    ensures n == i ==> |Pairs(i)| == |Pairs(i - 1)| + i
  {
    var last := set a: nat | 0 <= a < n :: (a, i);
    if n > 0 {
      PairsUpTo(i, n - 1);
      assert last == (set a: nat | 0 <= a < n - 1 :: (a, i)) + {(n - 1, i)};
    }
    if n == i {
      assert Pairs(i) == Pairs(i - 1) + last;
    }
  }

  ghost predicate IsSimplePath(d: Design, p: Path, i: nat)
    requires |p| > i
  {
    forall a: nat, b: nat :: a < b <= i ==> Differ(p[a].st, p[b].st, Compared(d, a, b))
  }

  /** A path of `i` transitions whose states differ pairwise on the compared variables. */
  ghost predicate HasSimplePath(d: Design, i: nat) {
    exists p: Path :: |p| > i && IsSimplePath(d, p, i) && TakesSteps(d, p, i)
  }

  ghost predicate TakesSteps(d: Design, p: Path, i: nat) {
    forall k :: 0 <= k < i ==> SatisfiedBy(d, p, TransAt(k))
  }

  ghost predicate Covers(d: Design, states: set<State>) {
    forall s, i, t :: d.ts.trans(s, i, t) ==> t in states
  }

  /** No finite system has fewer than `n` states. */
  ghost predicate Bounded(d: Design, n: int) {
    forall states: set<State> :: Covers(d, states) ==> n <= |states|
  }

  lemma {:induction false} NothingBounded(d: Design, n: int)
    ensures n <= 0 ==> Bounded(d, n)
  {
  }

  lemma {:induction false} BoundedBelow(d: Design, n: int, m: int)
    ensures Bounded(d, n) && m <= n ==> Bounded(d, m)
  {
  }

  ghost function StatesFrom1(p: Path, i: nat): set<State>
    requires i < |p|
  {
    set k | 1 <= k <= i :: p[k].st
  }

  lemma {:induction false} DifferMeansOther(s: State, t: State, over: seq<Name>)
    requires Differ(s, t, over)
    ensures s != t
  {
  }

  /** From time 1 on, all states of a simple path are different. */
  lemma {:induction false} SimpleStatesCount(d: Design, p: Path, i: nat)
    requires i < |p| && IsSimplePath(d, p, i)
    ensures |StatesFrom1(p, i)| == i
  {
    hide Differ, Compared;
    if i == 0 {
      assert StatesFrom1(p, 0) == {};
    } else {
      forall a: nat, b: nat | a < b <= i - 1 ensures Differ(p[a].st, p[b].st, Compared(d, a, b)) {
      }
      SimpleStatesCount(d, p, i - 1);
      forall k: int | 1 <= k <= i - 1 ensures p[k].st != p[i].st {
        DifferMeansOther(p[k].st, p[i].st, Compared(d, k, i));
      }
      assert StatesFrom1(p, i) == StatesFrom1(p, i - 1) + {p[i].st};
    }
  }

  lemma {:induction false} SimplePathIsBounded(d: Design, i: nat)
    requires i > 0 ==> HasSimplePath(d, i)
    ensures Bounded(d, i)
  {
    forall states: set<State> | Covers(d, states) ensures i <= |states| {
      if i > 0 {
        var p: Path :| |p| > i && IsSimplePath(d, p, i) && TakesSteps(d, p, i);
        SimpleStatesCount(d, p, i);
        forall s | s in StatesFrom1(p, i) ensures s in states {
          var k :| 1 <= k <= i && p[k].st == s;
          assert SatisfiedBy(d, p, TransAt(k - 1));
          assert d.ts.trans(p[k - 1].st, p[k - 1].inp, p[k].st);
        }
        SubsetSmaller(StatesFrom1(p, i), states);
      }
    }
  }

  /** Inputs for a path of states; the last one is given. */
  lemma {:induction false} Annotate(d: Design, r: seq<State>, last: Input) returns (p: Path)
    requires IsPath(d.ts, r)
    ensures |p| == |r| && p[|r| - 1] == Point(r[|r| - 1], last)
    ensures forall k :: 0 <= k < |r| ==> p[k].st == r[k]
    ensures forall k :: 0 <= k < |r| - 1 ==> SatisfiedBy(d, p, TransAt(k))
  {
    if |r| == 1 {
      p := [Point(r[0], last)];
    } else {
      var m := |r| - 1;
      PathSlice(d.ts, r, 0, m);
      assert Step(d.ts, r[m - 1], r[m - 1 + 1]);
      var i :| d.ts.trans(r[m - 1], i, r[m]);
      var q := Annotate(d, r[0..m], i);
      p := q + [Point(r[m], last)];
      forall k | 0 <= k < m ensures SatisfiedBy(d, p, TransAt(k)) {
        if k < m - 1 {
          assert SatisfiedBy(d, q, TransAt(k));
        }
      }
    }
  }

  /** A model that has every transition up to `k` is a path. */
  lemma {:induction false} ModelIsPath(d: Design, p: Path, k: nat) returns (r: seq<State>)
    requires k < |p| && forall j :: 0 <= j < k ==> SatisfiedBy(d, p, TransAt(j))
    ensures IsPath(d.ts, r) && |r| == k + 1 && forall j :: 0 <= j <= k ==> r[j] == p[j].st
  {
    r := seq(k + 1, j requires 0 <= j < k + 1 => p[j].st);
    forall j | 0 <= j < |r| - 1 ensures Step(d.ts, r[j], r[j + 1]) {
      assert SatisfiedBy(d, p, TransAt(j));
      assert d.ts.trans(r[j], p[j].inp, r[j + 1]);
    }
  }

  // ----- the one-time base check -----

  /** The nested formula has a model exactly when a counterexample of at most `n` transitions exists. */
  lemma {:induction false} NestedExact(d: Design, n: nat)
    ensures (exists p :: SatisfiedBy(d, p, CexWithin(n))) <==> (exists r :: IsCex(d.ts, r) && |r| <= n + 1)
  {
    if p :| SatisfiedBy(d, p, CexWithin(n)) {
      var r := NestedToPath(d, p, 0, n);
      assert IsCex(d.ts, r);
    }
    if r :| IsCex(d.ts, r) && |r| <= n + 1 {
      var q := Annotate(d, r, map[]);
      var p := q + seq(n, k => Point(r[0], map[]));
      forall k | 0 <= k < |r| - 1 ensures d.ts.trans(p[k].st, p[k].inp, p[k + 1].st) {
        assert SatisfiedBy(d, q, TransAt(k));
      }
      PathToNested(d, p, 0, |r| - 1, n);
      assert SatisfiedBy(d, p, CexWithin(n));
    }
  }

  lemma {:induction false} NestedToPath(d: Design, p: Path, k: nat, n: nat) returns (r: seq<State>)
    requires k <= n < |p| && Nested(d, p, k, n)
    ensures IsPath(d.ts, r) && r[0] == p[k].st && |r| <= n - k + 1 && d.ts.bad(r[|r| - 1])
    decreases n - k
  {
    r := [p[k].st];
    if !d.ts.bad(p[k].st) {
      var rest := NestedToPath(d, p, k + 1, n);
      assert Step(d.ts, p[k].st, p[k + 1].st);
      PathJoin(d.ts, r, rest);
      r := r + rest;
    }
  }

  lemma {:induction false} PathToNested(d: Design, p: Path, k: nat, m: nat, n: nat)
    requires k <= m <= n < |p| && d.ts.bad(p[m].st)
    requires forall j :: k <= j < m ==> d.ts.trans(p[j].st, p[j].inp, p[j + 1].st)
    ensures Nested(d, p, k, n)
    decreases m - k
  {
    if k < m {
      PathToNested(d, p, k + 1, m, n);
    }
  }

  function Transitions(n: nat): seq<Assertion> {
    seq(n, k requires 0 <= k < n => TransAt(k))
  }

  /** The flat formula over `n` transitions: init, all transitions, bad somewhere. */
  function Flat(n: nat): seq<Assertion> {
    [Init0] + Transitions(n) + [SomeBad(n)]
  }

  /** The flat formula needs the counterexample to continue to bound `n`. */
  ghost predicate ContinuingCex(d: Design, r: seq<State>, n: nat) {
    && IsRun(d.ts, r) && |r| == n + 1
    && exists k :: 0 <= k <= n && d.ts.bad(r[k])
  }

  lemma {:induction false} FlatExact(d: Design, n: nat)
    ensures (exists p :: IsModel(d, p, Flat(n))) <==> (exists r :: ContinuingCex(d, r, n))
  {
    if p :| IsModel(d, p, Flat(n)) {
      FlatModel(d, p, n);
      var r := ModelIsPath(d, p, n);
      assert ContinuingCex(d, r, n);
    }
    if r :| ContinuingCex(d, r, n) {
      var p := Annotate(d, r, map[]);
      assert IsModel(d, p, Flat(n));
    }
  }

  lemma {:induction false} FlatModel(d: Design, p: Path, n: nat)
    requires IsModel(d, p, Flat(n))
    ensures SatisfiedBy(d, p, Init0) && SatisfiedBy(d, p, SomeBad(n))
    ensures forall j :: 0 <= j < n ==> SatisfiedBy(d, p, TransAt(j))
  {
    var stack := Flat(n);
    assert stack[0] == Init0 && stack[n + 1] == SomeBad(n);
    forall j | 0 <= j < n ensures SatisfiedBy(d, p, TransAt(j)) {
      assert stack[j + 1] == TransAt(j);
    }
  }

  /** The last state of `r` is visited by a run of `n` transitions. */
  ghost predicate ContinuesTo(ts: System<State, Input>, r: seq<State>, n: nat)
    requires |r| > 0
  {
    exists q :: IsRun(ts, q) && |q| == n + 1 && r[|r| - 1] in q
  }

  /** Every state that a run of at most `n` transitions ends in is also visited by a run of exactly `n` transitions. */
  ghost predicate VisitsContinue(ts: System<State, Input>) {
    forall r, n: nat :: IsRun(ts, r) && |r| <= n + 1 ==> ContinuesTo(ts, r, n)
  }

  ghost predicate FlatAgrees(d: Design, n: nat) {
    (exists p :: IsModel(d, p, Flat(n))) <==> (exists p :: SatisfiedBy(d, p, CexWithin(n)))
  }

  function WithBad(d: Design, bad: State -> bool): Design {
    d.(ts := d.ts.(bad := bad))
  }

  lemma {:induction false} SameRuns(d: Design, bad: State -> bool, r: seq<State>)
    ensures IsRun(WithBad(d, bad).ts, r) <==> IsRun(d.ts, r)
  {
    var e := WithBad(d, bad);
    if IsRun(e.ts, r) {
      forall k | 0 <= k < |r| - 1 ensures Step(d.ts, r[k], r[k + 1]) {
        assert Step(e.ts, r[k], r[k + 1]);
        var i :| e.ts.trans(r[k], i, r[k + 1]);
        assert d.ts.trans(r[k], i, r[k + 1]);
      }
    }
    if IsRun(d.ts, r) {
      forall k | 0 <= k < |r| - 1 ensures Step(e.ts, r[k], r[k + 1]) {
        assert Step(d.ts, r[k], r[k + 1]);
        var i :| d.ts.trans(r[k], i, r[k + 1]);
        assert e.ts.trans(r[k], i, r[k + 1]);
      }
    }
  }

  /** A run of `n` transitions through bad has a counterexample as prefix. */
  lemma {:induction false} ContinuingHasCex(d: Design, r: seq<State>, n: nat) returns (c: seq<State>)
    requires ContinuingCex(d, r, n)
    ensures IsCex(d.ts, c) && |c| <= n + 1
  {
    var k :| 0 <= k <= n && d.ts.bad(r[k]);
    PathSlice(d.ts, r, 0, k + 1);
    c := r[0..k + 1];
  }

  lemma {:induction false} FlatAgreesWithNested(d: Design, n: nat)
    requires VisitsContinue(d.ts)
    ensures FlatAgrees(d, n)
  {
    NestedExact(d, n);
    FlatExact(d, n);
    if r :| ContinuingCex(d, r, n) {
      var c := ContinuingHasCex(d, r, n);
    }
    if r :| IsCex(d.ts, r) && |r| <= n + 1 {
      assert ContinuesTo(d.ts, r, n);
      var q :| IsRun(d.ts, q) && |q| == n + 1 && r[|r| - 1] in q;
      assert ContinuingCex(d, q, n);
    }
  }

  /** The flat check agrees with the nested one for every property and bound exactly when visits continue. */
  lemma {:induction false} FlatAgreesIff(d: Design)
    ensures VisitsContinue(d.ts) <==> forall bad: State -> bool, n: nat :: FlatAgrees(WithBad(d, bad), n)
  {
    if VisitsContinue(d.ts) {
      forall bad: State -> bool, n: nat ensures FlatAgrees(WithBad(d, bad), n) {
        VisitsContinueAnyBad(d, bad);
        FlatAgreesWithNested(WithBad(d, bad), n);
      }
    }
    if forall bad: State -> bool, n: nat :: FlatAgrees(WithBad(d, bad), n) {
      forall r, n: nat | IsRun(d.ts, r) && |r| <= n + 1 ensures ContinuesTo(d.ts, r, n) {
        var s := r[|r| - 1];
        var bad := (t: State) => t == s;
        assert FlatAgrees(WithBad(d, bad), n);
        AgreementContinues(d, r, bad, n);
      }
    }
  }

  lemma {:induction false} VisitsContinueAnyBad(d: Design, bad: State -> bool)
    requires VisitsContinue(d.ts)
    ensures VisitsContinue(WithBad(d, bad).ts)
  {
    var e := WithBad(d, bad);
    forall r, n: nat | IsRun(e.ts, r) && |r| <= n + 1 ensures ContinuesTo(e.ts, r, n) {
      SameRuns(d, bad, r);
      assert ContinuesTo(d.ts, r, n);
      var q :| IsRun(d.ts, q) && |q| == n + 1 && r[|r| - 1] in q;
      SameRuns(d, bad, q);
    }
  }

  lemma {:induction false} AgreementContinues(d: Design, r: seq<State>, bad: State -> bool, n: nat)
    requires IsRun(d.ts, r) && |r| <= n + 1 && FlatAgrees(WithBad(d, bad), n)
    requires forall t :: bad(t) <==> t == r[|r| - 1]
    ensures ContinuesTo(d.ts, r, n)
  {
    var e := WithBad(d, bad);
    SameRuns(d, bad, r);
    assert IsCex(e.ts, r);
    NestedExact(e, n);
    FlatExact(e, n);
    var q :| ContinuingCex(e, q, n);
    SameRuns(d, bad, q);
  }

  /** Without reachable deadlocks visits continue. */
  lemma {:induction false} TotalVisitsContinue(d: Design)
    requires NoReachableDeadlock(d.ts)
    ensures VisitsContinue(d.ts)
  {
    forall r, n: nat | IsRun(d.ts, r) && |r| <= n + 1 ensures ContinuesTo(d.ts, r, n) {
      RunStatesReachable(d.ts, r, |r| - 1);
      var e := Extend(d.ts, r[|r| - 1], n + 1 - |r|);
      PathSplice(d, r, e);
      var q := r + e[1..];
      assert q[|r| - 1] == r[|r| - 1];
    }
  }

  lemma {:induction false} PathSplice(d: Design, r: seq<State>, e: seq<State>)
    requires IsRun(d.ts, r) && IsPath(d.ts, e) && e[0] == r[|r| - 1]
    ensures IsRun(d.ts, r + e[1..])
  {
    if |e| > 1 {
      PathSlice(d.ts, e, 1, |e|);
      assert Step(d.ts, e[0], e[0 + 1]);
      PathJoin(d.ts, r, e[1..|e|]);
      assert e[1..] == e[1..|e|];
    } else {
      assert r + e[1..] == r;
    }
  }

  // ----- is_trans_total -----

  lemma {:induction false} ReachableAssigns(v: View, bad: Term, th: Theory, s: State)
    requires Reachable(Semantics(v, bad, th), s)
    ensures s.Keys == VarSet(v.vars)
  {
    var ts := Semantics(v, bad, th);
    var r :| IsRun(ts, r) && r[|r| - 1] == s;
    if |r| > 1 {
      assert Step(ts, r[|r| - 2], r[|r| - 2 + 1]);
    }
  }

  ghost predicate CanLeave(v: View, bad: Term, th: Theory, s: State) {
    exists i, t :: Semantics(v, bad, th).trans(s, i, t)
  }

  /** Every assignment of the state variables has a successor. */
  ghost predicate AllContinue(v: View, bad: Term, th: Theory) {
    forall s: State :: s.Keys == VarSet(v.vars) ==> CanLeave(v, bad, th, s)
  }

  lemma {:induction false} AllContinueNoDeadlock(v: View, bad: Term, th: Theory)
    requires AllContinue(v, bad, th)
    ensures NoReachableDeadlock(Semantics(v, bad, th))
  {
    hide Reachable, Semantics;
    var ts := Semantics(v, bad, th);
    forall s | Reachable(ts, s) ensures exists t :: Step(ts, s, t) {
      ReachableAssigns(v, bad, th, s);
      assert CanLeave(v, bad, th, s);
      var i, t :| ts.trans(s, i, t);
      assert Step(ts, s, t);
    }
  }

  /** Without constraints every state has a successor, whether or not every variable has an update. */
  lemma {:induction false} FunctionalIsTotal(v: View, bad: Term, th: Theory)
    requires Shaped(v, th) && v.constraints == [] && v.imposed == []
    ensures AllContinue(v, bad, th) && NoReachableDeadlock(Semantics(v, bad, th))
  {
    hide Eval, NoNext, OnlyCurr, NoReachableDeadlock;
    forall s: State | s.Keys == VarSet(v.vars) ensures CanLeave(v, bad, th, s) {
      var i: Input := map[];
      var t: State := map n | n in VarSet(v.vars) ::
        if n in v.updates then Eval(v.updates[n], EnvOf(s, i, map[]), th) else Unset;
      forall n | n in v.updates ensures Lookup(t, n) == Eval(v.updates[n], EnvOf(s, i, t), th) {
        UpdateFormula(v.updates[n], v.vars, v.inputs, s, i, t, map[], th);
      }
      assert Semantics(v, bad, th).trans(s, i, t);
    }
    AllContinueNoDeadlock(v, bad, th);
  }

  /** No state can be left. */
  ghost predicate NoneContinue(v: View, bad: Term, th: Theory) {
    forall s, i, t :: !Semantics(v, bad, th).trans(s, i, t)
  }

  /** Some state agrees with `s` on the updated variables and can be left. */
  ghost predicate LeftUpToFree(v: View, bad: Term, th: Theory, s: State) {
    exists u :: TransitionSystems.AgreeOnUpdated(v, s, u) && CanLeave(v, bad, th, u)
  }

  /**
    The right-total query passes. Variables without update are chosen like inputs; and without
    any update there is nothing to quantify over, so that the negation is left out with the quantifier.
   */
  ghost predicate RightTotalQuery(v: View, bad: Term, th: Theory) {
    if v.updates == map[] then NoneContinue(v, bad, th)
    else forall s: State :: s.Keys == VarSet(v.vars) ==> LeftUpToFree(v, bad, th, s)
  }

  /** `is_right_total`: a functional system without constraints is not queried. */
  ghost predicate IsRightTotal(v: View, bad: Term, th: Theory) {
    v.constraints == [] || RightTotalQuery(v, bad, th)
  }

  ghost predicate SameUpdated(v: View, s: State, u: State) {
    s.Keys == u.Keys == VarSet(v.vars) && TransitionSystems.AgreeOnUpdated(v, s, u)
  }

  /** Whether a state can be left does not depend on its variables without update. */
  ghost predicate LeavingIgnoresFree(v: View, bad: Term, th: Theory) {
    forall s, u :: SameUpdated(v, s, u) && CanLeave(v, bad, th, u) ==> CanLeave(v, bad, th, s)
  }

  /**
    With some update, every state continues exactly when the query passes and leaving ignores what it
    chooses freely.
   */
  lemma {:induction false} RightTotalIff(v: View, bad: Term, th: Theory)
    requires v.updates != map[]
    ensures AllContinue(v, bad, th) <==> RightTotalQuery(v, bad, th) && LeavingIgnoresFree(v, bad, th)
  {
    hide CanLeave;
    if AllContinue(v, bad, th) {
      forall s: State | s.Keys == VarSet(v.vars) ensures LeftUpToFree(v, bad, th, s) {
        assert TransitionSystems.AgreeOnUpdated(v, s, s);
      }
    }
    if RightTotalQuery(v, bad, th) && LeavingIgnoresFree(v, bad, th) {
      forall s: State | s.Keys == VarSet(v.vars) ensures CanLeave(v, bad, th, s) {
        assert LeftUpToFree(v, bad, th, s);
        var u :| TransitionSystems.AgreeOnUpdated(v, s, u) && CanLeave(v, bad, th, u);
        LeftAssigns(v, bad, th, u);
        assert SameUpdated(v, s, u);
      }
    }
  }

  lemma {:induction false} LeftAssigns(v: View, bad: Term, th: Theory, s: State)
    requires CanLeave(v, bad, th, s)
    ensures s.Keys == VarSet(v.vars)
  {
  }

  /** Without any update a passing query means that no state can be left, so every state continues only if it fails. */
  lemma {:induction false} NoUpdateQuery(v: View, bad: Term, th: Theory)
    requires v.updates == map[]
    ensures RightTotalQuery(v, bad, th) <==> forall s :: !CanLeave(v, bad, th, s)
    ensures RightTotalQuery(v, bad, th) ==> !AllContinue(v, bad, th)
  {
    var s: State := map n | n in VarSet(v.vars) :: Unset;
    assert s.Keys == VarSet(v.vars);
    if RightTotalQuery(v, bad, th) {
      assert !CanLeave(v, bad, th, s);
    }
    if forall u :: !CanLeave(v, bad, th, u) {
      forall u, i, t ensures !Semantics(v, bad, th).trans(u, i, t) {
        assert !CanLeave(v, bad, th, u);
      }
    }
  }

  /** Some state can be left and another one cannot. */
  ghost predicate SomeContinue(v: View, bad: Term, th: Theory) {
    (exists s :: CanLeave(v, bad, th, s)) && !AllContinue(v, bad, th)
  }

  /**
    The answer is right exactly when: there is no constraint, or the rule for systems with, or without, an
    update is met.
   */
  lemma {:induction false} IsRightTotalIff(v: View, bad: Term, th: Theory)
    requires Shaped(v, th) && (v.constraints == [] ==> v.imposed == [])
    ensures (IsRightTotal(v, bad, th) <==> AllContinue(v, bad, th)) <==>
      || v.constraints == []
      || (if v.updates == map[] then SomeContinue(v, bad, th)
          else RightTotalQuery(v, bad, th) ==> LeavingIgnoresFree(v, bad, th))
  {
    hide CanLeave, RightTotalQuery, AllContinue, Shaped, LeavingIgnoresFree;
    if v.constraints == [] {
      FunctionalIsTotal(v, bad, th);
    } else if v.updates == map[] {
      NoUpdateQuery(v, bad, th);
    } else {
      RightTotalIff(v, bad, th);
    }
  }

  /** No variable without update is read by the transition relation. */
  ghost predicate FreeUnread(v: View) {
    forall n :: n in v.vars && n !in v.updates ==> !Terms.Occurs(Cur(n), v.trans)
  }

  /** What a caller can look up: no variable lacks an update, or trans does not read those that do. */
  lemma {:induction false} UnreadIsIgnored(v: View, bad: Term, th: Theory)
    requires VarSet(v.vars) <= v.updates.Keys || FreeUnread(v)
    ensures LeavingIgnoresFree(v, bad, th)
  {
    hide Eval, Terms.Occurs;
    forall s, u | SameUpdated(v, s, u) && CanLeave(v, bad, th, u) ensures CanLeave(v, bad, th, s) {
      var i, t :| Semantics(v, bad, th).trans(u, i, t);
      forall x | Terms.Occurs(x, v.trans) ensures EnvOf(s, i, t)(x) == EnvOf(u, i, t)(x) {
        if x.Cur? && x.n in v.vars {
          assert x.n in VarSet(v.vars);
          assert x.n in v.updates;
          assert Lookup(s, x.n) == Lookup(u, x.n);
        }
      }
      EvalAgree(v.trans, EnvOf(s, i, t), EnvOf(u, i, t), th);
      assert Semantics(v, bad, th).trans(s, i, t);
    }
  }

  /** For such systems with some update the query decides, and a passing query makes the flat check exact. */
  lemma {:induction false} RightTotalDecides(v: View, bad: Term, th: Theory)
    requires v.updates != map[] && (VarSet(v.vars) <= v.updates.Keys || FreeUnread(v))
    ensures RightTotalQuery(v, bad, th) <==> AllContinue(v, bad, th)
    ensures RightTotalQuery(v, bad, th) ==> NoReachableDeadlock(Semantics(v, bad, th))
    ensures RightTotalQuery(v, bad, th) ==> VisitsContinue(Semantics(v, bad, th))
    ensures RightTotalQuery(v, bad, th) ==> forall n: nat :: FlatAgrees(DesignOf(v, bad, th), n)
  {
    hide Semantics, RightTotalQuery, LeavingIgnoresFree, AllContinue;
    hide FreeUnread, FlatAgrees, NoReachableDeadlock, VisitsContinue;
    UnreadIsIgnored(v, bad, th);
    RightTotalIff(v, bad, th);
    if RightTotalQuery(v, bad, th) {
      AllContinueNoDeadlock(v, bad, th);
      var d := DesignOf(v, bad, th);
      TotalVisitsContinue(d);
      forall n: nat ensures FlatAgrees(d, n) {
        FlatAgreesWithNested(d, n);
      }
    }
  }

  lemma {:induction false} NoStepAtAll(v: View, bad: Term, th: Theory, s: State, t: State)
    requires NoneContinue(v, bad, th)
    ensures !Step(Semantics(v, bad, th), s, t)
  {
    hide Semantics;
  }

  /** Without any update a passing query makes the flat check right exactly for safe systems, at every bound above 0. */
  lemma {:induction false} NoUpdateFlatIff(v: View, bad: Term, th: Theory, n: nat)
    requires v.updates == map[] && RightTotalQuery(v, bad, th) && n > 0
    ensures forall p :: !IsModel(DesignOf(v, bad, th), p, Flat(n))
    ensures FlatAgrees(DesignOf(v, bad, th), n) <==> Safe(Semantics(v, bad, th))
  {
    hide Semantics, Safe, Step, IsModel, Flat;
    var d := DesignOf(v, bad, th);
    forall r: seq<State> | |r| > 1 ensures !IsPath(d.ts, r) {
      NoStepAtAll(v, bad, th, r[0], r[0 + 1]);
    }
    FlatExact(d, n);
    NestedExact(d, n);
    SafeIffNoCex(d);
  }

  const X: Name := User(0)
  const Y: Name := User(1)
  const I: Name := User(2)

  /** A variable without update and a constraint that is never met. */
  function FreeView(): View {
    MkView([Y], [], TrueTerm, MkAnd(TrueTerm, FalseTerm), map[], [FalseTerm], [])
  }

  function FreeBad(): Term {
    Sym(Cur(Y))
  }

  lemma {:induction false} FreeMeaning(th: Theory, s: State, i: Input, t: State)
    ensures Holds(FreeView().init, EnvOf(s, i, t), th) && !Holds(FreeView().trans, EnvOf(s, i, t), th)
    ensures !Holds(FalseTerm, EnvOf(s, i, t), th)
    ensures Holds(FreeBad(), EnvOf(s, i, t), th) <==> Lookup(s, Y) == Bool(true)
  {
    var env := EnvOf(s, i, t);
    EvalAnd(TrueTerm, FalseTerm, env, th);
    EvalConst(Bool(true), env, th);
    EvalConst(Bool(false), env, th);
    EvalSym(Cur(Y), env, th);
  }

  lemma {:induction false} FreeShaped(th: Theory)
    ensures Shaped(FreeView(), th)
  {
    hide Eval, Holds;
    var v := FreeView();
    forall s: State, i: Input, t: State
      ensures !Holds(v.trans, EnvOf(s, i, t), th) && !AllHold(v.constraints, s, i, t, th)
    {
      FreeMeaning(th, s, i, t);
      assert v.constraints[0] == FalseTerm;
    }
  }

  /**
    An unsafe system that the query passes although no state continues, and whose flat check at 1 and step
    at 1 have no model.
   */
  lemma {:induction false} NoUpdateQueryMisleads(th: Theory)
    ensures Shaped(FreeView(), th) && FreeUnread(FreeView())
    ensures RightTotalQuery(FreeView(), FreeBad(), th) && !AllContinue(FreeView(), FreeBad(), th)
    ensures !Safe(Semantics(FreeView(), FreeBad(), th))
    ensures forall p :: !IsModel(DesignOf(FreeView(), FreeBad(), th), p, Flat(1))
    ensures forall p :: !IsModel(DesignOf(FreeView(), FreeBad(), th), p, [TransAt(0), BadAt(1)])
  {
    hide Eval, Holds, Shaped, Safe, IsModel, SatisfiedBy, Flat;
    FreeShaped(th);
    var v, d := FreeView(), DesignOf(FreeView(), FreeBad(), th);
    forall s, i, t ensures !Semantics(v, FreeBad(), th).trans(s, i, t) {
      FreeMeaning(th, s, i, t);
    }
    NoUpdateQuery(v, FreeBad(), th);
    NoUpdateFlatIff(v, FreeBad(), th, 1);
    var s0: State := map[Y := Bool(true)];
    assert VarSet(v.vars) == {Y};
    FreeMeaning(th, s0, map[], s0);
    assert IsCex(d.ts, [s0]);
    CexIsUnsafe(d.ts, [s0]);
    NoTransitionNoModel(d, [TransAt(0), BadAt(1)]);
  }

  lemma {:induction false} NoTransitionNoModel(d: Design, stack: seq<Assertion>)
    requires TransAt(0) in stack && forall s, i, t :: !d.ts.trans(s, i, t)
    ensures forall p :: !IsModel(d, p, stack)
  {
    forall p: Path ensures !SatisfiedBy(d, p, TransAt(0)) {
    }
  }

  /** A variable without update, and a constraint on an input. */
  function InputView(): View {
    MkView([Y], [I], TrueTerm, MkAnd(TrueTerm, Sym(Inp(I))), map[], [Sym(Inp(I))], [])
  }

  lemma {:induction false} InputMeaning(th: Theory, s: State, i: Input, t: State)
    ensures Holds(InputView().init, EnvOf(s, i, t), th)
    ensures Holds(InputView().trans, EnvOf(s, i, t), th) <==> Lookup(i, I) == Bool(true)
    ensures Holds(Sym(Inp(I)), EnvOf(s, i, t), th) <==> Lookup(i, I) == Bool(true)
  {
    var env := EnvOf(s, i, t);
    EvalAnd(TrueTerm, Sym(Inp(I)), env, th);
    EvalConst(Bool(true), env, th);
    EvalSym(Inp(I), env, th);
  }

  lemma {:induction false} InputShaped(th: Theory)
    ensures Shaped(InputView(), th)
  {
    hide Eval, Holds;
    var v := InputView();
    forall s: State, i: Input, t: State
      ensures Holds(v.trans, EnvOf(s, i, t), th) <==> AllHold(v.constraints, s, i, t, th)
    {
      InputMeaning(th, s, i, t);
      assert v.constraints[0] == Sym(Inp(I));
    }
  }

  lemma {:induction false} InputContinues(th: Theory, bad: Term, s: State)
    requires s.Keys == VarSet(InputView().vars)
    ensures CanLeave(InputView(), bad, th, s)
  {
    hide Eval, Holds;
    var i: Input := map[I := Bool(true)];
    InputMeaning(th, s, i, s);
    assert Semantics(InputView(), bad, th).trans(s, i, s);
  }

  /** The other way round: every state continues, and the query does not pass. */
  lemma {:induction false} NoUpdateQueryRefuses(th: Theory, bad: Term)
    ensures Shaped(InputView(), th) && FreeUnread(InputView())
    ensures AllContinue(InputView(), bad, th) && !RightTotalQuery(InputView(), bad, th)
  {
    hide Eval, Holds, Shaped, CanLeave, VarSet, RightTotalQuery;
    InputShaped(th);
    forall s: State | s.Keys == VarSet(InputView().vars) ensures CanLeave(InputView(), bad, th, s) {
      InputContinues(th, bad, s);
    }
    NoUpdateQuery(InputView(), bad, th);
  }

  /** x starts at 0 and becomes 1; y has no update and must be false in every state that is left. */
  function StuckView(): View {
    var leave := MkNot(Sym(Cur(Y)));
    MkView([X, Y], [], MkEqual(Sym(Cur(X)), Const(Num(0))), MkAnd(MkEqual(Sym(Next(X)), Const(Num(1))), leave),
           map[X := Const(Num(1))], [leave], [])
  }

  function StuckBad(): Term {
    MkAnd(MkEqual(Sym(Cur(X)), Const(Num(0))), Sym(Cur(Y)))
  }

  lemma {:induction false} StuckMeaning(th: Theory, s: State, i: Input, t: State)
    ensures Holds(StuckView().init, EnvOf(s, i, t), th) <==> Lookup(s, X) == Num(0)
    ensures Holds(StuckView().trans, EnvOf(s, i, t), th) <==> Lookup(t, X) == Num(1) && Lookup(s, Y) != Bool(true)
    ensures Holds(StuckBad(), EnvOf(s, i, t), th) <==> Lookup(s, X) == Num(0) && Lookup(s, Y) == Bool(true)
  {
    var env := EnvOf(s, i, t);
    EvalEqual(Sym(Cur(X)), Const(Num(0)), env, th);
    EvalEqual(Sym(Next(X)), Const(Num(1)), env, th);
    EvalNot(Sym(Cur(Y)), env, th);
    EvalAnd(MkEqual(Sym(Next(X)), Const(Num(1))), MkNot(Sym(Cur(Y))), env, th);
    EvalAnd(MkEqual(Sym(Cur(X)), Const(Num(0))), Sym(Cur(Y)), env, th);
  }

  lemma {:induction false} StuckShaped(th: Theory)
    ensures Shaped(StuckView(), th)
  {
    hide Eval;
    var v := StuckView();
    forall s: State, i: Input, t: State
      ensures Holds(v.trans, EnvOf(s, i, t), th) <==>
        UpdatesHold(v, s, i, t, th) && AllHold(v.constraints, s, i, t, th) && AllHold(v.imposed, t, i, t, th)
    {
      var env := EnvOf(s, i, t);
      EvalAnd(MkEqual(Sym(Next(X)), Const(Num(1))), MkNot(Sym(Cur(Y))), env, th);
      EvalEqual(Sym(Next(X)), Const(Num(1)), env, th);
      EvalSym(Next(X), env, th);
      assert X in v.updates && v.constraints[0] == MkNot(Sym(Cur(Y)));
    }
  }

  /** A counter that starts at the bad value 0 and is 1 from then on. */
  function FlipView(): View {
    MkView([X], [], MkEqual(Sym(Cur(X)), Const(Num(0))), MkEqual(Sym(Next(X)), Const(Num(1))),
      map[X := Const(Num(1))], [], [])
  }

  function FlipBad(): Term {
    MkEqual(Sym(Cur(X)), Const(Num(0)))
  }

  lemma {:induction false} FlipMeaning(th: Theory, s: State, i: Input, t: State)
    ensures Holds(FlipView().trans, EnvOf(s, i, t), th) <==> Lookup(t, X) == Num(1)
    ensures Holds(FlipBad(), EnvOf(s, i, t), th) <==> Lookup(s, X) == Num(0)
  {
    EvalEqual(Sym(Cur(X)), Const(Num(0)), EnvOf(s, i, t), th);
    EvalEqual(Sym(Next(X)), Const(Num(1)), EnvOf(s, i, t), th);
  }

  lemma {:induction false} FlipShaped(th: Theory)
    ensures Shaped(FlipView(), th) && NoReachableDeadlock(Semantics(FlipView(), FlipBad(), th))
  {
    hide Eval;
    var v := FlipView();
    forall s: State, i: Input, t: State
      ensures Holds(v.trans, EnvOf(s, i, t), th) <==>
        UpdatesHold(v, s, i, t, th) && AllHold(v.constraints, s, i, t, th) && AllHold(v.imposed, t, i, t, th)
    {
      FlipMeaning(th, s, i, t);
      EvalConst(Num(1), EnvOf(s, i, t), th);
      assert X in v.updates;
    }
    FunctionalIsTotal(v, FlipBad(), th);
  }

  /** No state is stuck, the only counterexample has no transition, and no transition leads to bad. */
  lemma {:induction false} FlipBadOnlyAtStart(th: Theory)
    ensures Shaped(FlipView(), th) && NoReachableDeadlock(Semantics(FlipView(), FlipBad(), th))
    ensures !NoCexAmong(DesignOf(FlipView(), FlipBad(), th), {0})
    ensures forall n: nat :: n > 0 ==> NoCexAmong(DesignOf(FlipView(), FlipBad(), th), {n})
    ensures var d := DesignOf(FlipView(), FlipBad(), th);
      forall p :: !(SatisfiedBy(d, p, TransAt(0)) && SatisfiedBy(d, p, BadAt(1)))
  {
    hide Eval, Holds, Shaped, NoReachableDeadlock;
    FlipShaped(th);
    var d := DesignOf(FlipView(), FlipBad(), th);
    var s0: State := map[X := Num(0)];
    assert VarSet(FlipView().vars) == {X};
    FlipMeaning(th, s0, map[], s0);
    assert IsCex(d.ts, [s0]);
    forall r | IsCex(d.ts, r) ensures |r| == 1 {
      if |r| > 1 {
        var m := |r| - 2;
        assert Step(d.ts, r[m], r[m + 1]);
        var i :| d.ts.trans(r[m], i, r[m + 1]);
        FlipMeaning(th, r[m], i, r[m + 1]);
        FlipMeaning(th, r[m + 1], map[], r[m + 1]);
      }
    }
    forall p: Path ensures !(SatisfiedBy(d, p, TransAt(0)) && SatisfiedBy(d, p, BadAt(1))) {
      if SatisfiedBy(d, p, TransAt(0)) {
        FlipMeaning(th, p[0].st, p[0].inp, p[1].st);
        FlipMeaning(th, p[1].st, map[], p[1].st);
      }
    }
  }

  /** The query passes, a counterexample exists, and yet the flat check and the inductive step at 1 have no model. */
  lemma {:induction false} RightTotalQueryIsNotEnough(th: Theory)
    ensures Shaped(StuckView(), th) && RightTotalQuery(StuckView(), StuckBad(), th)
    ensures !Safe(Semantics(StuckView(), StuckBad(), th))
    ensures forall p :: !IsModel(DesignOf(StuckView(), StuckBad(), th), p, [TransAt(0), BadAt(1)])
    ensures forall p :: !IsModel(DesignOf(StuckView(), StuckBad(), th), p, Flat(1))
  {
    hide Eval, Holds, Semantics, RightTotalQuery;
    StuckShaped(th);
    StuckQueryPasses(th);
    StuckUnsafe(th);
    var d := DesignOf(StuckView(), StuckBad(), th);
    forall p ensures !IsModel(d, p, [TransAt(0), BadAt(1)]) {
      StuckStep(d, p, th);
      assert [TransAt(0), BadAt(1)][0] == TransAt(0) && [TransAt(0), BadAt(1)][1] == BadAt(1);
    }
    forall p ensures !IsModel(d, p, Flat(1)) {
      StuckStep(d, p, th);
      assert Flat(1)[1] == TransAt(0) && Flat(1)[2] == SomeBad(1);
    }
  }

  lemma {:induction false} StuckLeftUpToFree(th: Theory, s: State)
    requires s.Keys == {X, Y}
    ensures LeftUpToFree(StuckView(), StuckBad(), th, s)
  {
    hide Eval, Holds;
    var v, bad := StuckView(), StuckBad();
    assert VarSet(v.vars) == {X, Y};
    var u, t: State := s[Y := Bool(false)], map[X := Num(1), Y := Bool(false)];
    var i: Input := map[];
    StuckMeaning(th, u, i, t);
    assert Semantics(v, bad, th).trans(u, i, t);
    assert TransitionSystems.AgreeOnUpdated(v, s, u) && CanLeave(v, bad, th, u);
  }

  lemma {:induction false} StuckQueryPasses(th: Theory)
    ensures RightTotalQuery(StuckView(), StuckBad(), th)
  {
    hide LeftUpToFree, NoneContinue;
    var v := StuckView();
    assert VarSet(v.vars) == {X, Y} && X in v.updates;
    forall s: State | s.Keys == VarSet(v.vars) ensures LeftUpToFree(v, StuckBad(), th, s) {
      StuckLeftUpToFree(th, s);
    }
  }

  lemma {:induction false} StuckUnsafe(th: Theory)
    ensures !Safe(Semantics(StuckView(), StuckBad(), th))
  {
    hide Eval, Holds;
    var ts := Semantics(StuckView(), StuckBad(), th);
    assert VarSet(StuckView().vars) == {X, Y};
    var s0: State := map[X := Num(0), Y := Bool(true)];
    StuckMeaning(th, s0, map[], s0);
    assert IsCex(ts, [s0]);
    CexIsUnsafe(ts, [s0]);
  }

  lemma {:induction false} StuckStep(d: Design, p: Path, th: Theory)
    requires d == DesignOf(StuckView(), StuckBad(), th)
    ensures SatisfiedBy(d, p, TransAt(0)) ==> !SatisfiedBy(d, p, BadAt(1)) && !SatisfiedBy(d, p, SomeBad(1))
  {
    hide Eval, Holds;
    if SatisfiedBy(d, p, TransAt(0)) {
      StuckMeaning(th, p[0].st, p[0].inp, p[1].st);
      StuckMeaning(th, p[0].st, map[], p[0].st);
      StuckMeaning(th, p[1].st, map[], p[1].st);
    }
  }
}
