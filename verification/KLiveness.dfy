/**
  K-liveness: a counter of justice steps is added to the system, and a safety
  prover shows that it never reaches k, or its counterexample revisits a state.
 */
module KLiveness {
  import opened Cardinality
  import opened Runs
  import opened Terms
  import opened TransitionSystems
  import opened Liveness
  import opened LivenessToSafety
  import opened LivenessToSafetyCorrect

  // ----- counter encodings -----

  datatype Encoding = BvBinary | BvOneHot | Integer

  function Pow2(n: nat): (r: nat)
    ensures n < r
  {
    if n == 0 then 1 else 2 * Pow2(n - 1)
  }

  /** The rounded-down logarithm. */
  function Log2(k: nat): nat
    requires k > 0
  {
    if k == 1 then 0 else 1 + Log2(k / 2)
  }

  lemma {:induction false} Log2Bounds(k: nat)
    requires k > 0
    ensures Pow2(Log2(k)) <= k < Pow2(Log2(k) + 1)
  {
    if k > 1 {
      Log2Bounds(k / 2);
      assert Pow2(Log2(k) + 1) == 2 * Pow2(Log2(k / 2) + 1);
    }
  }

  function Width(enc: Encoding, k: nat): nat
    requires k > 0
  {
    match enc
    case BvBinary => Log2(k) + 1
    case BvOneHot => k + 1
    case Integer => 0
  }

  function CounterInit(enc: Encoding): nat {
    if enc == BvOneHot then 1 else 0
  }

  /** Addition and shift wrap at the width of the sort. */
  function CounterIncr(enc: Encoding, k: nat, c: nat): nat
    requires k > 0
  {
    match enc
    case BvBinary => (c + 1) % Pow2(Width(enc, k))
    case BvOneHot => (2 * c) % Pow2(Width(enc, k))
    case Integer => c + 1
  }

  function CounterTarget(enc: Encoding, k: nat): nat {
    if enc == BvOneHot then Pow2(k) else k
  }

  /** The counter after `n` increments. */
  function CounterAfter(enc: Encoding, k: nat, n: nat): nat
    requires k > 0
  {
    if n == 0 then CounterInit(enc) else CounterIncr(enc, k, CounterAfter(enc, k, n - 1))
  }

  lemma {:induction false} Pow2Grows(m: nat, n: nat)
    requires m < n
    ensures Pow2(m) < Pow2(n)
  {
    if m < n - 1 {
      Pow2Grows(m, n - 1);
    }
  }

  lemma {:induction false} CounterValue(enc: Encoding, k: nat, n: nat)
    requires k > 0 && n <= k
    ensures CounterAfter(enc, k, n) == if enc == BvOneHot then Pow2(n) else n
  {
    if n > 0 {
      CounterValue(enc, k, n - 1);
      match enc
      case BvBinary =>
        Log2Bounds(k);
        Small(n, Pow2(Width(enc, k)));
      case BvOneHot =>
        Pow2Grows(n, k + 1);
        Small(Pow2(n), Pow2(k + 1));
      case Integer =>
    }
  }

  lemma {:induction false} Small(n: nat, m: nat)
    requires n < m
    ensures n % m == n
  {
  }

  /** In every encoding the target is met after k increments and not before. */
  lemma {:induction false} CounterHitsTargetAt(enc: Encoding, k: nat, n: nat)
    requires k > 0 && n <= k
    ensures CounterAfter(enc, k, n) == CounterTarget(enc, k) <==> n == k
  {
    CounterValue(enc, k, n);
    if n < k {
      Pow2Grows(n, k);
    }
  }

  /** Past the target the one-hot counter is empty and stays so. */
  lemma {:induction false} OneHotEmpty(k: nat, n: nat)
    requires k > 0 && n > k
    ensures CounterAfter(BvOneHot, k, n) == 0
  {
    if n == k + 1 {
      CounterValue(BvOneHot, k, k);
      WrapsToZero(Pow2(k + 1));
    } else {
      OneHotEmpty(k, n - 1);
      Small(0, Pow2(k + 1));
    }
  }

  /** An increment changes the counter, except an empty one-hot counter. */
  lemma {:induction false} IncrementChanges(enc: Encoding, k: nat, n: nat)
    requires k > 0 && (enc == BvOneHot ==> n <= k)
    ensures CounterAfter(enc, k, n + 1) != CounterAfter(enc, k, n)
  {
    match enc
    case BvBinary =>
      Pow2Grows(0, Width(enc, k));
      WrapChanges(CounterAfter(enc, k, n), Pow2(Width(enc, k)));
    case BvOneHot =>
      CounterValue(enc, k, n);
      if n < k {
        CounterValue(enc, k, n + 1);
      } else {
        OneHotEmpty(k, n + 1);
      }
    case Integer =>
  }

  lemma {:induction false} WrapsToZero(m: nat)
    requires m > 0
    ensures m % m == 0
  {
  }

  lemma {:induction false} WrapChanges(c: nat, m: nat)
    requires m > 1
    ensures (c + 1) % m != c
  {
    if c + 1 < m {
      Small(c + 1, m);
    } else if c + 1 == m {
      WrapsToZero(m);
    }
  }

  // ----- justice steps -----

  /** How many of the first `n` points meet the justice condition. */
  ghost function JustCount<S(!new), I(!new)>(f: Fair<S, I>, p: seq<Point<S, I>>, n: nat): (c: nat)
    requires |f.justice| == 1 && n <= |p|
    ensures c <= n
  {
    if n == 0 then 0 else JustCount(f, p, n - 1) + if JustAt(f, p[n - 1], 0) then 1 else 0
  }

  lemma {:induction false} JustCountPrefix<S(!new), I(!new)>(
      f: Fair<S, I>, p: seq<Point<S, I>>, q: seq<Point<S, I>>, n: nat)
    requires |f.justice| == 1 && n <= |p| && n <= |q| && forall m :: 0 <= m < n ==> p[m] == q[m]
    ensures JustCount(f, p, n) == JustCount(f, q, n)
  {
    if n > 0 {
      JustCountPrefix(f, p, q, n - 1);
    }
  }

  lemma {:induction false} JustCountMonotone<S(!new), I(!new)>(f: Fair<S, I>, p: seq<Point<S, I>>, m: nat, n: nat)
    requires |f.justice| == 1 && m <= n <= |p|
    ensures JustCount(f, p, m) <= JustCount(f, p, n)
  {
    if m < n {
      JustCountMonotone(f, p, m, n - 1);
    }
  }

  /** A count is passed through by every smaller one. */
  lemma {:induction false} CountIsMet<S(!new), I(!new)>(
      f: Fair<S, I>, p: seq<Point<S, I>>, n: nat, k: nat) returns (m: nat)
    requires |f.justice| == 1 && n <= |p| && k <= JustCount(f, p, n)
    ensures m <= n && JustCount(f, p, m) == k
  {
    if JustCount(f, p, n) == k {
      m := n;
    } else {
      m := CountIsMet(f, p, n - 1, k);
    }
  }

  /** A finite run with at least `k` justice steps. */
  ghost predicate JustTimes<S(!new), I(!new)>(f: Fair<S, I>, p: seq<Point<S, I>>, k: nat)
    requires |f.justice| == 1
  {
    Follows(f, p) && JustCount(f, p, |p| - 1) >= k
  }

  ghost function JustStates<S(!new), I(!new)>(f: Fair<S, I>, p: seq<Point<S, I>>, n: nat): set<S>
    requires |f.justice| == 1 && n <= |p|
  {
    if n == 0 then {} else JustStates(f, p, n - 1) + if JustAt(f, p[n - 1], 0) then {p[n - 1].st} else {}
  }

  /** No two justice steps before `n` are in the same state. */
  ghost predicate NoRevisit<S(!new), I(!new)>(f: Fair<S, I>, p: seq<Point<S, I>>, n: nat)
    requires |f.justice| == 1 && n <= |p|
  {
    forall a, b :: 0 <= a < b < n && JustAt(f, p[a], 0) && JustAt(f, p[b], 0) ==> p[a].st != p[b].st
  }

  lemma {:induction false} JustStateAt<S(!new), I(!new)>(
      f: Fair<S, I>, p: seq<Point<S, I>>, n: nat, s: S) returns (a: nat)
    requires |f.justice| == 1 && n <= |p| && s in JustStates(f, p, n)
    ensures a < n && JustAt(f, p[a], 0) && p[a].st == s
  {
    if s in JustStates(f, p, n - 1) {
      a := JustStateAt(f, p, n - 1, s);
    } else {
      a := n - 1;
    }
  }

  /** Without a revisit there are as many states as justice steps. */
  lemma {:induction false} JustStatesCount<S(!new), I(!new)>(f: Fair<S, I>, p: seq<Point<S, I>>, n: nat)
    requires |f.justice| == 1 && n <= |p| && NoRevisit(f, p, n)
    ensures |JustStates(f, p, n)| == JustCount(f, p, n)
  {
    if n > 0 {
      JustStatesCount(f, p, n - 1);
      if JustAt(f, p[n - 1], 0) {
        FreshState(f, p, n);
      }
    }
  }

  lemma {:induction false} FreshState<S(!new), I(!new)>(f: Fair<S, I>, p: seq<Point<S, I>>, n: nat)
    requires |f.justice| == 1 && 0 < n <= |p| && NoRevisit(f, p, n) && JustAt(f, p[n - 1], 0)
    ensures p[n - 1].st !in JustStates(f, p, n - 1)
  {
    if p[n - 1].st in JustStates(f, p, n - 1) {
      var a := JustStateAt(f, p, n - 1, p[n - 1].st);
      assert false;
    }
  }

  /** Over finitely many states, more justice steps than states revisit one, which closes a fair loop. */
  lemma {:induction false} ManyJustStepsRevisit<S(!new), I(!new)>(
      f: Fair<S, I>, p: seq<Point<S, I>>, n: nat, states: set<S>)
    requires |f.justice| == 1 && Follows(f, p) && n < |p| && JustCount(f, p, n) > |states|
    requires forall s, i, t :: f.trans(s, i, t) ==> s in states
    ensures !NoRevisit(f, p, n)
  {
    if NoRevisit(f, p, n) {
      JustStatesCount(f, p, n);
      forall s | s in JustStates(f, p, n) ensures s in states {
        var a := JustStateAt(f, p, n, s);
        assert StepAt(f, p, a);
      }
      SubsetSmaller(JustStates(f, p, n), states);
    }
  }

  lemma {:induction false} RevisitIsLasso<S(!new), I(!new)>(f: Fair<S, I>, p: seq<Point<S, I>>, a: nat, b: nat)
    requires |f.justice| == 1 && Follows(f, p) && a < b < |p| && JustAt(f, p[a], 0) && p[a].st == p[b].st
    ensures IsLasso(f, p[..b + 1], a)
  {
    var q := p[..b + 1];
    forall k | 0 <= k < |q| - 1 ensures StepAt(f, q, k) {
      assert StepAt(f, p, k);
    }
    assert JustAt(f, q[a], 0);
    assert MetBetween(f, q, 0, a, |q| - 1);
  }

  // ----- infinite runs -----

  ghost predicate IsInfiniteRun<S(!new), I(!new)>(f: Fair<S, I>, w: Infinite<S, I>) {
    f.init(w(0).st) && forall k: nat :: Advances(f, w, k)
  }

  function Prefix<S, I>(w: Infinite<S, I>, n: nat): seq<Point<S, I>> {
    seq(n, m requires 0 <= m < n => w(m))
  }

  lemma {:induction false} PrefixFollows<S(!new), I(!new)>(f: Fair<S, I>, w: Infinite<S, I>, n: nat)
    requires IsInfiniteRun(f, w)
    ensures Follows(f, Prefix(w, n + 1))
  {
    var p := Prefix(w, n + 1);
    forall k | 0 <= k < |p| - 1 ensures StepAt(f, p, k) {
      assert Advances(f, w, k);
    }
  }

  /** If no finite run has `k` justice steps, no prefix of an infinite run has. */
  lemma {:induction false} FewOnInfiniteRuns<S(!new), I(!new)>(f: Fair<S, I>, w: Infinite<S, I>, k: nat, n: nat)
    requires |f.justice| == 1 && IsInfiniteRun(f, w) && forall p :: !JustTimes(f, p, k)
    ensures JustCount(f, Prefix(w, n), n) < k
  {
    PrefixFollows(f, w, n);
    var p := Prefix(w, n + 1);
    assert !JustTimes(f, p, k);
    JustCountPrefix(f, p, Prefix(w, n), n);
  }

  lemma {:induction false} FairRunCounts<S(!new), I(!new)>(f: Fair<S, I>, w: Infinite<S, I>, k: nat) returns (n: nat)
    requires |f.justice| == 1 && IsFairRun(f, w)
    ensures JustCount(f, Prefix(w, n), n) >= k
  {
    if k == 0 {
      n := 0;
    } else {
      var m := FairRunCounts(f, w, k - 1);
      assert Recurs(f, w, 0, m);
      var x: nat :| m <= x && JustAt(f, w(x), 0);
      n := x + 1;
      var p := Prefix(w, n);
      JustCountPrefix(f, p, Prefix(w, m), m);
      JustCountMonotone(f, p, m, x);
      assert JustAt(f, p[x], 0);
    }
  }

  /** No run with `k` justice steps, no fair run. */
  lemma {:induction false} BoundedMeansUnfair<S(!new), I(!new)>(f: Fair<S, I>, k: nat)
    requires |f.justice| == 1 && forall p :: !JustTimes(f, p, k)
    ensures !HasFairRun(f)
  {
    forall w: Infinite<S, I> ensures !IsFairRun(f, w) {
      if IsFairRun(f, w) {
        var n := FairRunCounts(f, w, k);
        FewOnInfiniteRuns(f, w, k, n);
      }
    }
  }

  /** Over finitely many states a bound above their number decides. */
  lemma {:induction false} LargeBoundDecides<S(!new), I(!new)>(f: Fair<S, I>, k: nat, states: set<S>)
    requires |f.justice| == 1 && k > |states| && forall s, i, t :: f.trans(s, i, t) ==> s in states
    ensures (forall p :: !JustTimes(f, p, k)) <==> !HasFairRun(f)
  {
    if forall p :: !JustTimes(f, p, k) {
      BoundedMeansUnfair(f, k);
    }
    if p: seq<Point<S, I>> :| JustTimes(f, p, k) {
      ManyJustStepsRevisit(f, p, |p| - 1, states);
      var a: int, b: int :| 0 <= a < b < |p| - 1 && JustAt(f, p[a], 0) && JustAt(f, p[b], 0) && p[a].st == p[b].st;
      RevisitIsLasso(f, p, a, b);
      var w := LassoIsFairRun(f, p[..b + 1], a);
    }
  }

  // ----- the instrumented system -----

  function CounterUpdate(op: nat, k: nat, justice: Term): Term {
    var counter := Sym(Cur(KliveCounter(k)));
    MkIte(justice, App(Fun(op), [counter, Const(Num(1))]), counter)
  }

  function CounterIs(k: nat, value: int): Term {
    MkEqual(Sym(Cur(KliveCounter(k))), Const(Num(value)))
  }

  /** The system with the counter: a state variable, its update, its initial value. */
  function InstrumentedView(v0: View, justice: Term, enc: Encoding, op: nat, k: nat): View {
    var c := KliveCounter(k);
    v0.(vars := v0.vars + [c],
        updates := v0.updates[c := CounterUpdate(op, k, justice)],
        trans := MkAnd(v0.trans, MkEqual(Sym(Next(c)), CounterUpdate(op, k, justice))),
        init := MkAnd(v0.init, CounterIs(k, CounterInit(enc))))
  }

  function SafetyTerm(enc: Encoding, k: nat): Term {
    MkNot(CounterIs(k, CounterTarget(enc, k)))
  }

  /** The operator `op` of the solver's theory increments counters of this sort. */
  ghost predicate Increments(th: Theory, op: nat, enc: Encoding, k: nat)
    requires k > 0
  {
    forall c: nat :: th(op, [Num(c), Num(1)]) == Num(CounterIncr(enc, k, c))
  }

  /** The safety problem given to the prover. */
  ghost function Counting(v0: View, justice: Term, enc: Encoding, op: nat, k: nat, th: Theory): System<State, Input> {
    Semantics(InstrumentedView(v0, justice, enc, op, k), MkNot(SafetyTerm(enc, k)), th)
  }

  ghost function JustFair(v0: View, justice: Term, th: Theory): (f: Fair<State, Input>)
    ensures |f.justice| == 1
  {
    FairOf(v0, [justice], th)
  }

  ghost predicate Instrumentable(v0: View, justice: Term, th: Theory) {
    && Shaped(v0, th) && UserNames(v0.vars) && UserNames(v0.inputs)
    && NoNext(justice, v0.vars, v0.inputs)
  }

  function CounterOf(w: State, k: nat): Value {
    Lookup(w, KliveCounter(k))
  }

  lemma {:induction false} JusticeOfPart(v0: View, justice: Term, th: Theory, w: State, i: Input, u: State)
    requires Instrumentable(v0, justice, th)
    ensures Holds(justice, EnvOf(w, i, u), th) <==> JustFair(v0, justice, th).justice[0](Part(w, v0.vars), i)
  {
    hide Shaped, Eval;
    UserTermAgree(justice, v0, w, i, i, u, Part(w, v0.vars), th);
  }

  lemma {:induction false} UpdateValue(op: nat, enc: Encoding, k: nat, justice: Term, th: Theory, env: Env, c: nat)
    requires k > 0 && Increments(th, op, enc, k) && env(Cur(KliveCounter(k))) == Num(c)
    ensures Eval(CounterUpdate(op, k, justice), env, th) ==
      Num(if Holds(justice, env, th) then CounterIncr(enc, k, c) else c)
  {
    var counter := Sym(Cur(KliveCounter(k)));
    EvalIte(justice, App(Fun(op), [counter, Const(Num(1))]), counter, env, th);
    Arg2(Fun(op), counter, Const(Num(1)), env, th);
  }

  /** A counting step is a step of the system that counts justice. */
  lemma {:induction false} CountingStep(
      v0: View, justice: Term, enc: Encoding, op: nat, k: nat, th: Theory, w: State, i: Input, u: State, c: nat)
    requires Instrumentable(v0, justice, th) && k > 0 && Increments(th, op, enc, k) && CounterOf(w, k) == Num(c)
    requires w.Keys == u.Keys == VarSet(v0.vars + [KliveCounter(k)])
    ensures Counting(v0, justice, enc, op, k, th).trans(w, i, u) <==>
      var f := JustFair(v0, justice, th);
      && f.trans(Part(w, v0.vars), i, Part(u, v0.vars))
      && CounterOf(u, k) == Num(if f.justice[0](Part(w, v0.vars), i) then CounterIncr(enc, k, c) else c)
  {
    hide Eval, Shaped, Part, Increments;
    var env := EnvOf(w, i, u);
    var next := Sym(Next(KliveCounter(k)));
    EvalAnd(v0.trans, MkEqual(next, CounterUpdate(op, k, justice)), env, th);
    EvalEqual(next, CounterUpdate(op, k, justice), env, th);
    EvalSym(Next(KliveCounter(k)), env, th);
    UpdateValue(op, enc, k, justice, th, env, c);
    JusticeOfPart(v0, justice, th, w, i, u);
    TransOfParts(v0, w, i, u, i, th);
  }

  lemma {:induction false} CounterIsMeans(k: nat, value: int, env: Env, th: Theory)
    ensures Holds(CounterIs(k, value), env, th) <==> env(Cur(KliveCounter(k))) == Num(value)
  {
    hide Eval;
    EvalEqual(Sym(Cur(KliveCounter(k))), Const(Num(value)), env, th);
    EvalSym(Cur(KliveCounter(k)), env, th);
    EvalConst(Num(value), env, th);
  }

  lemma {:induction false} CountingInit(v0: View, justice: Term, enc: Encoding, op: nat, k: nat, th: Theory, w: State)
    requires Instrumentable(v0, justice, th) && w.Keys == VarSet(v0.vars + [KliveCounter(k)])
    ensures Counting(v0, justice, enc, op, k, th).init(w) <==>
      JustFair(v0, justice, th).init(Part(w, v0.vars)) && CounterOf(w, k) == Num(CounterInit(enc))
  {
    hide Eval, Shaped, Part;
    var env := EnvOf(w, map[], w);
    EvalAnd(v0.init, CounterIs(k, CounterInit(enc)), env, th);
    CounterIsMeans(k, CounterInit(enc), env, th);
    InitOfParts(v0, w, th);
  }

  lemma {:induction false} CountingBad(v0: View, justice: Term, enc: Encoding, op: nat, k: nat, th: Theory, w: State)
    ensures Counting(v0, justice, enc, op, k, th).bad(w) <==> CounterOf(w, k) == Num(CounterTarget(enc, k))
  {
    hide Eval;
    var env := EnvOf(w, map[], w);
    EvalNot(SafetyTerm(enc, k), env, th);
    EvalNot(CounterIs(k, CounterTarget(enc, k)), env, th);
    CounterIsMeans(k, CounterTarget(enc, k), env, th);
  }

  /** The counter says how often justice was met before time `m`. */
  ghost predicate CountsAt(
      v0: View, f: Fair<State, Input>, enc: Encoding, k: nat, w: State, p: seq<Point<State, Input>>, m: nat)
    requires k > 0 && m < |p| && |f.justice| == 1
  {
    p[m].st == Part(w, v0.vars) && CounterOf(w, k) == Num(CounterAfter(enc, k, JustCount(f, p, m)))
  }

  /** A run of the system under the first `n` transitions of a counting run. */
  ghost predicate Decodes(
      v0: View, f: Fair<State, Input>, enc: Encoding, k: nat, r: seq<State>, n: nat, p: seq<Point<State, Input>>)
    requires k > 0 && |f.justice| == 1
  {
    && Follows(f, p) && |p| == n + 1 <= |r|
    && forall m :: 0 <= m <= n ==> CountsAt(v0, f, enc, k, r[m], p, m)
  }

  lemma {:induction false} DecodeRun(
      v0: View, justice: Term, enc: Encoding, op: nat, k: nat, th: Theory, r: seq<State>, n: nat)
    returns (p: seq<Point<State, Input>>)
    requires Instrumentable(v0, justice, th) && k > 0 && Increments(th, op, enc, k)
    requires IsRun(Counting(v0, justice, enc, op, k, th), r) && n < |r|
    ensures Decodes(v0, JustFair(v0, justice, th), enc, k, r, n, p)
  {
    hide Instrumentable, Increments, Counting, JustFair, Part;
    var sys, f := Counting(v0, justice, enc, op, k, th), JustFair(v0, justice, th);
    CountingKeys(v0, justice, enc, op, k, th, r, 0);
    if n == 0 {
      CountingInit(v0, justice, enc, op, k, th, r[0]);
      p := [Point(Part(r[0], v0.vars), map[])];
    } else {
      var q := DecodeRun(v0, justice, enc, op, k, th, r, n - 1);
      assert Step(sys, r[n - 1], r[n - 1 + 1]);
      var i :| sys.trans(r[n - 1], i, r[n]);
      CountingKeys(v0, justice, enc, op, k, th, r, n - 1);
      CountingKeys(v0, justice, enc, op, k, th, r, n);
      assert CountsAt(v0, f, enc, k, r[n - 1], q, n - 1);
      CountingStep(v0, justice, enc, op, k, th, r[n - 1], i, r[n], CounterAfter(enc, k, JustCount(f, q, n - 1)));
      p := q[..n - 1] + [Point(q[n - 1].st, i), Point(Part(r[n], v0.vars), map[])];
      DecodeStep(v0, f, enc, k, r, n, q, i, p);
    }
  }

  lemma {:induction false} DecodeStep(v0: View, f: Fair<State, Input>, enc: Encoding, k: nat, r: seq<State>, n: nat,
                   q: seq<Point<State, Input>>, i: Input, p: seq<Point<State, Input>>)
    requires k > 0 && |f.justice| == 1 && 0 < n < |r| && Decodes(v0, f, enc, k, r, n - 1, q)
    requires p == q[..n - 1] + [Point(q[n - 1].st, i), Point(Part(r[n], v0.vars), map[])]
    requires f.trans(q[n - 1].st, i, Part(r[n], v0.vars))
    requires CounterOf(r[n], k) == Num(
      var c := CounterAfter(enc, k, JustCount(f, q, n - 1));
      if f.justice[0](q[n - 1].st, i) then CounterIncr(enc, k, c) else c)
    ensures Decodes(v0, f, enc, k, r, n, p)
  {
    hide Part, CounterIncr;
    assert forall m :: 0 <= m < n - 1 ==> p[m] == q[m];
    forall m | 0 <= m < |p| - 1 ensures StepAt(f, p, m) {
      if m < n - 1 {
        assert StepAt(f, q, m);
      }
    }
    forall m | 0 <= m < n ensures CountsAt(v0, f, enc, k, r[m], p, m) {
      assert CountsAt(v0, f, enc, k, r[m], q, m);
      JustCountPrefix(f, p, q, m);
    }
    JustCountPrefix(f, p, q, n - 1);
    assert JustAt(f, p[n - 1], 0) <==> f.justice[0](q[n - 1].st, i);
    assert CountsAt(v0, f, enc, k, r[n], p, n);
  }

  lemma {:induction false} CountingKeys(
      v0: View, justice: Term, enc: Encoding, op: nat, k: nat, th: Theory, r: seq<State>, n: nat)
    requires IsRun(Counting(v0, justice, enc, op, k, th), r) && n < |r|
    ensures r[n].Keys == VarSet(v0.vars + [KliveCounter(k)])
  {
    if n > 0 {
      assert Step(Counting(v0, justice, enc, op, k, th), r[n - 1], r[n - 1 + 1]);
    }
  }

  /** The counting state for a state and a number of justice steps. */
  function EncodeAt(v0: View, enc: Encoding, k: nat, s: State, n: nat): State
    requires k > 0
  {
    map x | x in v0.vars + [KliveCounter(k)] ::
      if x == KliveCounter(k) then Num(CounterAfter(enc, k, n)) else Lookup(s, x)
  }

  lemma {:induction false} EncodedAt(v0: View, enc: Encoding, k: nat, s: State, n: nat)
    requires k > 0 && UserNames(v0.vars) && s.Keys == VarSet(v0.vars)
    ensures Part(EncodeAt(v0, enc, k, s, n), v0.vars) == s
    ensures CounterOf(EncodeAt(v0, enc, k, s, n), k) == Num(CounterAfter(enc, k, n))
    ensures EncodeAt(v0, enc, k, s, n).Keys == VarSet(v0.vars + [KliveCounter(k)])
  {
    var w := EncodeAt(v0, enc, k, s, n);
    assert (v0.vars + [KliveCounter(k)])[|v0.vars|] == KliveCounter(k);
    var q := Part(w, v0.vars);
    assert q.Keys == VarSet(v0.vars);
    forall x | x in q.Keys ensures q[x] == s[x] {
      assert x in v0.vars && x.User?;
    }
  }

  lemma {:induction false} FairKeys(v0: View, justice: Term, th: Theory, p: seq<Point<State, Input>>, m: nat)
    requires Follows(JustFair(v0, justice, th), p) && m < |p|
    ensures p[m].st.Keys == VarSet(v0.vars)
  {
    if m > 0 {
      assert StepAt(JustFair(v0, justice, th), p, m - 1);
    }
  }

  ghost function EncodePoint(
      v0: View, f: Fair<State, Input>, enc: Encoding, k: nat, p: seq<Point<State, Input>>, m: nat): State
    requires k > 0 && m < |p| && |f.justice| == 1
  {
    EncodeAt(v0, enc, k, p[m].st, JustCount(f, p, m))
  }

  /** A run with exactly `k` justice steps is a counterexample of the instrumented system. */
  lemma {:induction false} EncodeRun(
      v0: View, justice: Term, enc: Encoding, op: nat, k: nat, th: Theory, p: seq<Point<State, Input>>)
    returns (r: seq<State>)
    requires Instrumentable(v0, justice, th) && k > 0 && Increments(th, op, enc, k)
    requires Follows(JustFair(v0, justice, th), p) && JustCount(JustFair(v0, justice, th), p, |p| - 1) == k
    ensures IsCex(Counting(v0, justice, enc, op, k, th), r) && |r| == |p|
  {
    hide Increments, Counting, JustFair, EncodeAt, Shaped, Follows, Instrumentable;
    var sys, f := Counting(v0, justice, enc, op, k, th), JustFair(v0, justice, th);
    hide EncodePoint, JustCount;
    r := seq(|p|, m requires 0 <= m < |p| => EncodePoint(v0, f, enc, k, p, m));
    NotEmpty(f, p);
    forall m | 0 <= m < |p| - 1 ensures Step(sys, r[m], r[m + 1]) {
      EncodeStep(v0, justice, enc, op, k, th, p, m);
    }
    EncodeEnds(v0, justice, enc, op, k, th, p);
  }

  lemma {:induction false} EncodeEnds(
      v0: View, justice: Term, enc: Encoding, op: nat, k: nat, th: Theory, p: seq<Point<State, Input>>)
    requires Instrumentable(v0, justice, th) && k > 0 && Follows(JustFair(v0, justice, th), p)
    requires JustCount(JustFair(v0, justice, th), p, |p| - 1) == k
    ensures Counting(v0, justice, enc, op, k, th).init(EncodePoint(v0, JustFair(v0, justice, th), enc, k, p, 0))
    ensures Counting(v0, justice, enc, op, k, th).bad(EncodePoint(v0, JustFair(v0, justice, th), enc, k, p, |p| - 1))
  {
    hide Counting, JustFair, Part, EncodeAt, Shaped, CounterAfter, CounterIncr;
    FairKeys(v0, justice, th, p, 0);
    EncodedAt(v0, enc, k, p[0].st, 0);
    CountingInit(v0, justice, enc, op, k, th, EncodeAt(v0, enc, k, p[0].st, 0));
    NothingCounted(enc, k);
    FairKeys(v0, justice, th, p, |p| - 1);
    EncodedAt(v0, enc, k, p[|p| - 1].st, k);
    CounterHitsTargetAt(enc, k, k);
    CountingBad(v0, justice, enc, op, k, th, EncodeAt(v0, enc, k, p[|p| - 1].st, k));
  }

  lemma {:induction false} NotEmpty<S(!new), I(!new)>(f: Fair<S, I>, p: seq<Point<S, I>>)
    requires Follows(f, p)
    ensures |p| > 0
  {
  }

  lemma {:induction false} NothingCounted(enc: Encoding, k: nat)
    requires k > 0
    ensures CounterAfter(enc, k, 0) == CounterInit(enc)
  {
  }

  lemma {:induction false} EncodeStep(
      v0: View, justice: Term, enc: Encoding, op: nat, k: nat, th: Theory, p: seq<Point<State, Input>>, m: nat)
    requires Instrumentable(v0, justice, th) && k > 0 && Increments(th, op, enc, k)
    requires Follows(JustFair(v0, justice, th), p) && m < |p| - 1
    ensures var f := JustFair(v0, justice, th);
      Step(Counting(v0, justice, enc, op, k, th), EncodePoint(v0, f, enc, k, p, m),
        EncodePoint(v0, f, enc, k, p, m + 1))
  {
    hide Increments, Counting, JustFair, Part, EncodeAt, Shaped, CounterIncr;
    var f := JustFair(v0, justice, th);
    var w, u := EncodeAt(v0, enc, k, p[m].st, JustCount(f, p, m)),
      EncodeAt(v0, enc, k, p[m + 1].st, JustCount(f, p, m + 1));
    FairKeys(v0, justice, th, p, m);
    FairKeys(v0, justice, th, p, m + 1);
    EncodedAt(v0, enc, k, p[m].st, JustCount(f, p, m));
    EncodedAt(v0, enc, k, p[m + 1].st, JustCount(f, p, m + 1));
    assert StepAt(f, p, m);
    assert JustAt(f, p[m], 0) <==> f.justice[0](p[m].st, p[m].inp);
    CountingStep(v0, justice, enc, op, k, th, w, p[m].inp, u, CounterAfter(enc, k, JustCount(f, p, m)));
    assert Counting(v0, justice, enc, op, k, th).trans(w, p[m].inp, u);
  }

  /** The counter reaches its target exactly when some run meets justice `k` times, whatever the encoding. */
  lemma {:induction false} CounterReachesIff(v0: View, justice: Term, enc: Encoding, op: nat, k: nat, th: Theory)
    requires Instrumentable(v0, justice, th) && k > 0 && Increments(th, op, enc, k)
    ensures !Safe(Counting(v0, justice, enc, op, k, th)) <==>
      exists p: seq<Point<State, Input>> :: JustTimes(JustFair(v0, justice, th), p, k)
  {
    hide Instrumentable, Increments, Counting, JustFair, Safe, CountsAt;
    var sys, f := Counting(v0, justice, enc, op, k, th), JustFair(v0, justice, th);
    if !Safe(sys) {
      var r := UnsafeHasCex(sys);
      var p := CexHasJustice(v0, justice, enc, op, k, th, r);
    }
    if p: seq<Point<State, Input>> :| JustTimes(f, p, k) {
      var m := CountIsMet(f, p, |p| - 1, k);
      var q := p[..m + 1];
      FollowsPrefix(f, p, m + 1);
      JustCountPrefix(f, p, q, m);
      var r := EncodeRun(v0, justice, enc, op, k, th, q);
      CexIsUnsafe(sys, r);
    }
  }

  lemma {:induction false} FollowsPrefix<S(!new), I(!new)>(f: Fair<S, I>, p: seq<Point<S, I>>, n: nat)
    requires Follows(f, p) && 0 < n <= |p|
    ensures Follows(f, p[..n])
  {
    forall k | 0 <= k < n - 1 ensures StepAt(f, p[..n], k) {
      assert StepAt(f, p, k);
    }
  }

  /** The counterexample meets justice at least `k` times; with the one-hot counter, exactly. */
  lemma {:induction false} CexHasJustice(
      v0: View, justice: Term, enc: Encoding, op: nat, k: nat, th: Theory, r: seq<State>)
    returns (p: seq<Point<State, Input>>)
    requires Instrumentable(v0, justice, th) && k > 0 && Increments(th, op, enc, k)
    requires IsCex(Counting(v0, justice, enc, op, k, th), r)
    ensures Decodes(v0, JustFair(v0, justice, th), enc, k, r, |r| - 1, p)
    ensures JustTimes(JustFair(v0, justice, th), p, k)
    ensures enc == BvOneHot ==> JustCount(JustFair(v0, justice, th), p, |p| - 1) == k
  {
    hide Instrumentable, Increments, Counting, JustFair, Part;
    var f, last := JustFair(v0, justice, th), |r| - 1;
    p := DecodeRun(v0, justice, enc, op, k, th, r, last);
    CountingBad(v0, justice, enc, op, k, th, r[last]);
    assert CountsAt(v0, f, enc, k, r[last], p, last);
    var n := JustCount(f, p, last);
    if n < k {
      CounterHitsTargetAt(enc, k, n);
    } else if n > k && enc == BvOneHot {
      OneHotEmpty(k, n);
    }
  }

  // ----- revisits in a counterexample -----

  ghost predicate Changes(r: seq<State>, k: nat, t: nat) {
    t + 1 < |r| && CounterOf(r[t], k) != CounterOf(r[t + 1], k)
  }

  /** In a counterexample the counter changes exactly at the justice steps. */
  lemma {:induction false} ChangeIffJust(
      v0: View, f: Fair<State, Input>, enc: Encoding, k: nat, r: seq<State>, p: seq<Point<State, Input>>, t: nat)
    requires k > 0 && |f.justice| == 1 && |r| > 0 && Decodes(v0, f, enc, k, r, |r| - 1, p)
    requires enc == BvOneHot ==> JustCount(f, p, |r| - 1) == k
    requires t + 1 < |r|
    ensures Changes(r, k, t) <==> JustAt(f, p[t], 0)
  {
    hide Part, CounterAfter;
    assert CountsAt(v0, f, enc, k, r[t], p, t) && CountsAt(v0, f, enc, k, r[t + 1], p, t + 1);
    if JustAt(f, p[t], 0) {
      JustCountMonotone(f, p, t, |r| - 1);
      IncrementChanges(enc, k, JustCount(f, p, t));
    }
  }

  /** Two justice steps that agree on every updated variable close a loop: the later state can be replaced. */
  lemma {:induction false} AgreeingStepsAreFair(
      v0: View, justice: Term, th: Theory, p: seq<Point<State, Input>>, a: nat, b: nat)
    requires Shaped(v0, th) && Follows(JustFair(v0, justice, th), p) && a < b < |p|
    requires JustAt(JustFair(v0, justice, th), p[a], 0)
    requires TransitionSystems.AgreeOnUpdated(v0, p[a].st, p[b].st)
    ensures HasFairRun(JustFair(v0, justice, th))
  {
    hide Shaped, Holds, Eval, TransitionSystems.AgreeOnUpdated;
    var f := JustFair(v0, justice, th);
    var q := p[..b] + [Point(p[a].st, map[])];
    AgreeSymmetric(v0, p[a].st, p[b].st);
    assert StepAt(f, p, b - 1);
    if a > 0 {
      assert StepAt(f, p, a - 1);
      assert Semantics(v0, TrueTerm, th).trans(p[a - 1].st, p[a - 1].inp, p[a].st);
    }
    SuccessorReplaceable(v0, TrueTerm, th, p[b - 1].st, p[b - 1].inp, p[b].st, p[a].st);
    forall m | 0 <= m < |q| - 1 ensures StepAt(f, q, m) {
      assert StepAt(f, p, m);
    }
    assert JustAt(f, q[a], 0);
    assert MetBetween(f, q, 0, a, |q| - 1);
    var w := LassoIsFairRun(f, q, a);
  }

  lemma {:induction false} AgreeSymmetric(v0: View, s: State, t: State)
    requires TransitionSystems.AgreeOnUpdated(v0, s, t)
    ensures TransitionSystems.AgreeOnUpdated(v0, t, s)
  {
  }

  function ValuesOf(w: State, vars: seq<Name>): (r: seq<Value>)
    ensures |r| == |vars| && forall m :: 0 <= m < |r| ==> r[m] == Lookup(w, vars[m])
  {
    seq(|vars|, m requires 0 <= m < |vars| => Lookup(w, vars[m]))
  }

  /** The variables compared: updated, and not the counter. */
  ghost predicate Compares(vars: seq<Name>, v0: View) {
    forall n :: n in vars <==> n in v0.vars && n in v0.updates
  }

  lemma {:induction false} SameValues(vars: seq<Name>, v0: View, w: State, u: State)
    requires Compares(vars, v0) && forall n :: n in v0.updates ==> n in v0.vars
    ensures ValuesOf(w, vars) == ValuesOf(u, vars) <==>
      TransitionSystems.AgreeOnUpdated(v0, Part(w, v0.vars), Part(u, v0.vars))
  {
    var a, b := ValuesOf(w, vars), ValuesOf(u, vars);
    if a == b {
      forall n | n in v0.updates ensures Lookup(Part(w, v0.vars), n) == Lookup(Part(u, v0.vars), n) {
        var m :| 0 <= m < |vars| && vars[m] == n;
        assert a[m] == b[m];
      }
    }
    if TransitionSystems.AgreeOnUpdated(v0, Part(w, v0.vars), Part(u, v0.vars)) {
      forall m | 0 <= m < |vars| ensures a[m] == b[m] {
        assert vars[m] in v0.updates;
        assert Lookup(Part(w, v0.vars), vars[m]) == Lookup(Part(u, v0.vars), vars[m]);
      }
    }
  }

  /** Two times at which the counter changes and the compared values are the same. */
  ghost predicate Revisit(r: seq<State>, k: nat, vars: seq<Name>, a: nat, b: nat) {
    a < b && Changes(r, k, a) && Changes(r, k, b) && ValuesOf(r[a], vars) == ValuesOf(r[b], vars)
  }

  ghost predicate HasRevisit(r: seq<State>, k: nat, vars: seq<Name>) {
    exists a: nat, b: nat :: Revisit(r, k, vars, a, b)
  }

  lemma {:induction false} SomeRevisit(r: seq<State>, k: nat, vars: seq<Name>) returns (a: nat, b: nat)
    requires HasRevisit(r, k, vars)
    ensures Revisit(r, k, vars, a, b)
  {
    hide Revisit;
    a, b :| Revisit(r, k, vars, a, b);
  }

  function ComparedNames(statevars: seq<Name>, noUpdate: set<Name>, k: nat): (r: seq<Name>)
    ensures forall n :: n in r <==> n in statevars && n != KliveCounter(k) && n !in noUpdate
  {
    if statevars == [] then [] else
      var m := |statevars| - 1;
      ComparedNames(statevars[..m], noUpdate, k)
        + if statevars[m] != KliveCounter(k) && statevars[m] !in noUpdate then [statevars[m]] else []
  }

  lemma {:induction false} RevisitIsFair(
      v0: View, justice: Term, enc: Encoding, op: nat, k: nat, th: Theory, r: seq<State>, vars: seq<Name>, a: nat,
      b: nat)
    requires Instrumentable(v0, justice, th) && k > 0 && Increments(th, op, enc, k)
    requires IsCex(Counting(v0, justice, enc, op, k, th), r) && Compares(vars, v0) && Revisit(r, k, vars, a, b)
    ensures HasFairRun(JustFair(v0, justice, th))
  {
    hide Increments, Counting, JustFair, Part, CounterAfter, IsCex;
    var f := JustFair(v0, justice, th);
    var p := CexHasJustice(v0, justice, enc, op, k, th, r);
    ChangeIffJust(v0, f, enc, k, r, p, a);
    assert CountsAt(v0, f, enc, k, r[a], p, a) && CountsAt(v0, f, enc, k, r[b], p, b);
    UpdatesKnown(v0, th);
    SameValues(vars, v0, r[a], r[b]);
    AgreeingStepsAreFair(v0, justice, th, p, a, b);
  }

  /** With more justice steps than states the counterexample has a revisit. */
  lemma {:induction false} LargeCexRevisits(
      v0: View, justice: Term, enc: Encoding, op: nat, k: nat, th: Theory, r: seq<State>, vars: seq<Name>,
      states: set<State>)
    requires Instrumentable(v0, justice, th) && k > 0 && Increments(th, op, enc, k)
    requires IsCex(Counting(v0, justice, enc, op, k, th), r) && Compares(vars, v0)
    requires k > |states| && forall s, i, t :: JustFair(v0, justice, th).trans(s, i, t) ==> s in states
    ensures HasRevisit(r, k, vars)
  {
    hide Increments, Counting, JustFair, Part, CounterAfter, IsCex;
    var f, last := JustFair(v0, justice, th), |r| - 1;
    var p := CexHasJustice(v0, justice, enc, op, k, th, r);
    ManyJustStepsRevisit(f, p, last, states);
    var a: int, b: int :| 0 <= a < b < last && JustAt(f, p[a], 0) && JustAt(f, p[b], 0) && p[a].st == p[b].st;
    ChangeIffJust(v0, f, enc, k, r, p, a);
    ChangeIffJust(v0, f, enc, k, r, p, b);
    assert CountsAt(v0, f, enc, k, r[a], p, a) && CountsAt(v0, f, enc, k, r[b], p, b);
    UpdatesKnown(v0, th);
    SameValues(vars, v0, r[a], r[b]);
    assert Revisit(r, k, vars, a, b);
  }

  // ----- the engine -----

  datatype Options = Options(enc: Encoding, bound: nat, startStep: nat, stepSize: nat, checkLasso: bool,
    lockstepBmc: bool)

  class KLiveness {
    const ts: TransitionSystem
    const justice: Term
    const opts: Options
    const op: nat -> nat    // the increment operator of each counter sort

    /** A safety prover on the instrumented system, with its witness. */
    const prover: (nat, int) -> (ProverResult, seq<State>)

    /** Whether BMC refutes the liveness-to-safety translation. */
    const bmc: nat -> bool

    var liveCount: nat

    ghost function Problem(k: nat): System<State, Input>
      reads ts
    {
      Counting(ts.View(), justice, opts.enc, op(k), k, ts.th)
    }

    ghost predicate ProverOk(k: nat, bound: int)
      reads ts
    {
      match prover(k, bound).0
      case TRUE => Safe(Problem(k))
      case FALSE => IsCex(Problem(k), prover(k, bound).1)
      case UNKNOWN => true
    }

    /** BMC only reports reachable bad states of the translated system. */
    ghost predicate BmcOk(bound: nat)
      reads ts
    {
      bmc(bound) ==> exists v, safe ::
        Translated(ts.View(), [justice], v, safe, ts.th) && !Safe(Semantics(v, MkNot(safe), ts.th))
    }

    ghost predicate Fit()
      reads ts
    {
      && ts.Valid() && Instrumentable(ts.View(), justice, ts.th)
      && opts.startStep > 0 && opts.stepSize > 0
      && (forall k: nat :: k > 0 ==> Increments(ts.th, op(k), opts.enc, k))
      && (forall k: nat, bound: int :: k > 0 ==> ProverOk(k, bound))
      && (forall bound: nat :: BmcOk(bound))
    }

    ghost function Original(): (f: Fair<State, Input>)
      reads ts
      ensures |f.justice| == 1
    {
      JustFair(ts.View(), justice, ts.th)
    }

    constructor (ts: TransitionSystem, justice: Term, opts: Options, op: nat -> nat,
                 prover: (nat, int) -> (ProverResult, seq<State>), bmc: nat -> bool)
      ensures this.ts == ts && this.justice == justice && this.opts == opts && this.op == op
      ensures this.prover == prover && this.bmc == bmc && liveCount == opts.startStep
    {
      this.ts, this.justice, this.opts, this.op, this.prover, this.bmc := ts, justice, opts, op, prover, bmc;
      liveCount := opts.startStep;
    }

    /** Adds the counter to a copy of the system; the result says that it does not have the target value. */
    method InstrumentTs(tsK: TransitionSystem, k: nat) returns (safe: Term)
      requires tsK.Valid() && Instrumentable(tsK.View(), justice, tsK.th) && k > 0
      modifies tsK
      ensures tsK.Valid() && tsK.View() == InstrumentedView(old(tsK.View()), justice, opts.enc, op(k), k)
      ensures safe == SafetyTerm(opts.enc, k)
    {
      hide Shaped;
      UpdatesKnown(tsK.View(), tsK.th);
      var counter := KliveCounter(k);
      var update := CounterUpdate(op(k), k, justice);
      NoNextMono(justice, tsK.statevars, tsK.inputvars, tsK.statevars + [counter], tsK.inputvars);
      UpdateNoNext(op(k), k, justice, tsK.statevars + [counter], tsK.inputvars);
      var ok := tsK.MakeStatevar(counter);
      ok := tsK.AssignNext(counter, update);
      ok := tsK.ConstrainInit(CounterIs(k, CounterInit(opts.enc)));
      safe := SafetyTerm(opts.enc, k);
    }

    /** Walks the counterexample backwards and collects the times at which the counter changes, earliest first. */
    method JusticeSteps(cex: seq<State>, k: nat) returns (steps: seq<nat>)
      requires |cex| > 0
      ensures ChangesFrom(cex, k, steps, 0)
    {
      hide ChangesFrom;
      NoSteps(cex, k);
      steps := [];
      var counterVal := CounterOf(cex[|cex| - 1], k);
      var i := 1;
      while i < |cex|
        invariant 1 <= i <= |cex| && counterVal == CounterOf(cex[|cex| - i], k)
        invariant ChangesFrom(cex, k, steps, |cex| - i)
      {
        var t := |cex| - 1 - i;
        StepBack(cex, k, steps, t);
        if CounterOf(cex[t], k) != counterVal {
          steps := [t] + steps;
          counterVal := CounterOf(cex[t], k);
        }
        i := i + 1;
      }
    }

    /** The state variables with an update, except the counter. */
    method ComparedVars(tsK: TransitionSystem, k: nat) returns (vars: seq<Name>)
      ensures vars == ComparedNames(tsK.statevars, tsK.noUpdate, k)
    {
      vars := [];
      for m := 0 to |tsK.statevars|
        invariant vars == ComparedNames(tsK.statevars[..m], tsK.noUpdate, k)
      {
        var sv := tsK.statevars[m];
        assert tsK.statevars[..m + 1][..m] == tsK.statevars[..m];
        if sv != KliveCounter(k) && sv !in tsK.noUpdate {
          vars := vars + [sv];
        }
      }
      assert tsK.statevars[..|tsK.statevars|] == tsK.statevars;
    }

    /** Whether some justice step has the compared values of an earlier one; a count of 1 is not searched. */
    method DetectRevisit(tsK: TransitionSystem, cex: seq<State>) returns (found: bool)
      requires |cex| > 0
      ensures found <==>
        liveCount != 1 && HasRevisit(cex, liveCount, ComparedNames(tsK.statevars, tsK.noUpdate, liveCount))
    {
      hide Revisit;
      if liveCount == 1 {
        return false;
      }
      var compared := ComparedVars(tsK, liveCount);
      var steps := JusticeSteps(cex, liveCount);
      var visited: map<seq<Value>, nat> := map[];
      NothingVisited(cex, liveCount, compared, steps);
      for m := 0 to |steps|
        invariant Visited(cex, liveCount, compared, steps, m, visited)
      {
        var step := steps[m];
        StepInCex(cex, liveCount, steps, m);
        var stateVals := ValuesOf(cex[step], compared);
        if stateVals in visited {
          EarlierVisit(cex, liveCount, compared, steps, m, visited, stateVals);
          return true;
        }
        VisitNext(cex, liveCount, compared, steps, m, visited);
        visited := visited[stateVals := step];
      }
      NothingRevisited(cex, liveCount, compared, steps, visited);
      found := false;
    }

    /**
      The verdict at count `n`: the prover's, except that a refutation is only believed for a revisit in its
      counterexample, where counts above 1 are searched, or for a lasso that BMC finds within its length.
     */
    ghost function RoundVerdict(n: nat, k: int): ProverResult
      reads ts
    {
      var (answer, cex) := prover(n, k);
      var vars := ComparedNames(ts.statevars + [KliveCounter(n)], ts.noUpdate, n);
      if answer != FALSE then answer
      else if opts.checkLasso && n != 1 && HasRevisit(cex, n, vars) then FALSE
      else if opts.lockstepBmc && |cex| > 0 && bmc(|cex| - 1) then FALSE
      else UNKNOWN
    }

    /** One round: instrument, prove, and look for a lasso when the prover refutes. */
    method Round(k: int) returns (res: ProverResult)
      requires Fit() && liveCount > 0
      ensures res == TRUE ==> Safe(Problem(liveCount))
      ensures res == FALSE ==> HasFairRun(Original())
      ensures forall states: set<State> :: res == UNKNOWN && Decides(k) && Within(states) ==> liveCount <= |states|
      ensures res == RoundVerdict(liveCount, k)
    {
      hide Instrumentable, Counting, JustFair, Safe, HasFairRun, Shaped, IsCex, Increments, Compares, Within, Revisit;
      hide HasRevisit;
      var tsK := new TransitionSystem.Copy(ts);
      var safe := InstrumentTs(tsK, liveCount);
      var answer := prover(liveCount, k);
      assert ProverOk(liveCount, k);
      if answer.0 != FALSE {
        return answer.0;
      }
      CexNotEmpty(Problem(liveCount), answer.1);
      if opts.checkLasso {
        var found := DetectRevisit(tsK, answer.1);
        ghost var vars := ComparedNames(tsK.statevars, tsK.noUpdate, liveCount);
        ComparesUpdated(ts.View(), ts.th, vars, tsK.View(), opts.enc, op(liveCount), liveCount, justice, tsK.noUpdate);
        CounterIsUpdated(ts.View(), justice, opts.enc, op(liveCount), liveCount, ts.th);
        if found {
          ghost var a: nat, b: nat := SomeRevisit(answer.1, liveCount, vars);
          RevisitIsFair(ts.View(), justice, opts.enc, op(liveCount), liveCount, ts.th, answer.1, vars, a, b);
          return FALSE;
        }
        forall states: set<State> | Within(states) ensures liveCount <= |states| {
          RevisitMissed(answer.1, vars, states);
        }
      }
      if opts.lockstepBmc && bmc(|answer.1| - 1) {
        BmcLassoIsFair(|answer.1| - 1);
        return FALSE;
      }
      res := UNKNOWN;
    }

    /** Every state with a transition is in `states`. */
    ghost predicate Within(states: set<State>)
      reads ts
    {
      forall s, i, t :: Original().trans(s, i, t) ==> s in states
    }

    /** The prover is never inconclusive at this bound, and counterexamples are searched for revisits. */
    ghost predicate Decides(k: int) {
      opts.checkLasso && forall n: nat :: n > 0 ==> prover(n, k).0 != UNKNOWN
    }

    lemma {:induction false} RevisitMissed(cex: seq<State>, vars: seq<Name>, states: set<State>)
      requires Fit() && liveCount > 0 && Within(states) && IsCex(Problem(liveCount), cex) && Compares(vars, ts.View())
      requires liveCount != 1 ==> !HasRevisit(cex, liveCount, vars)
      ensures liveCount <= |states|
    {
      if liveCount > |states| {
        forall s, i, t | JustFair(ts.View(), justice, ts.th).trans(s, i, t) ensures s in states {
          assert Original().trans(s, i, t);
        }
        LargeCexRevisits(ts.View(), justice, opts.enc, op(liveCount), liveCount, ts.th, cex, vars, states);
        assert liveCount == 1;
        var a: nat, b: nat :| Revisit(cex, liveCount, vars, a, b);
        SomeStepWithin(cex, states);
      }
    }

    lemma {:induction false} SomeStepWithin(cex: seq<State>, states: set<State>)
      requires Fit() && liveCount > 0 && Within(states) && IsCex(Problem(liveCount), cex)
      ensures states != {}
    {
      var p := CexHasJustice(ts.View(), justice, opts.enc, op(liveCount), liveCount, ts.th, cex);
      assert |p| > 1;
      assert StepAt(Original(), p, 0);
    }

    lemma {:induction false} BmcLassoIsFair(bound: nat)
      requires Fit() && bmc(bound)
      ensures HasFairRun(Original())
    {
      hide Translated, Safe, Semantics, Shaped, IsLasso, ProverOk, Problem, Increments;
      assert BmcOk(bound);
      var v, safe :| Translated(ts.View(), [justice], v, safe, ts.th) && !Safe(Semantics(v, MkNot(safe), ts.th));
      TranslationCorrect(ts.View(), [justice], v, safe, ts.th);
      var p: seq<Point<State, Input>>, l: nat :| IsLasso(Original(), p, l);
      var w := LassoIsFairRun(Original(), p, l);
    }

    /** The first decided count from `n` on within the bounds. */
    ghost function FirstVerdict(n: nat, k: int): ProverResult
      requires opts.stepSize > 0
      reads ts
      decreases opts.bound + 1 - n
    {
      if n > opts.bound || k < n + 1 then UNKNOWN
      else if RoundVerdict(n, k) != UNKNOWN then RoundVerdict(n, k)
      else FirstVerdict(n + opts.stepSize, k)
    }

    /** TRUE bounds the justice steps of every run, so no run is fair; FALSE is a fair run. */
    method CheckUntil(k: int) returns (res: ProverResult)
      requires Fit() && liveCount > 0
      modifies this
      ensures res == TRUE ==> (forall p :: !JustTimes(Original(), p, liveCount)) && !HasFairRun(Original())
      ensures res == FALSE ==> HasFairRun(Original())
      ensures forall states: set<State> :: res == UNKNOWN && Decides(k) && Within(states) ==>
        var n := |states| + opts.stepSize;
        opts.bound < old(liveCount) || opts.bound < n || k <= old(liveCount) || k <= n
      ensures liveCount >= old(liveCount) && res == FirstVerdict(old(liveCount), k)
    {
      hide Problem, Original, Safe, HasFairRun, Counting, RoundVerdict;
      while liveCount <= opts.bound
        invariant liveCount >= old(liveCount) > 0 && Fit()
        invariant FirstVerdict(old(liveCount), k) == FirstVerdict(liveCount, k)
        invariant liveCount == old(liveCount) || forall states: set<State> :: Decides(k) && Within(states) ==>
          liveCount <= |states| + opts.stepSize
        decreases opts.bound - liveCount
      {
        if k < liveCount + 1 {
          return UNKNOWN;
        }
        res := Round(k);
        if res != UNKNOWN {
          if res == TRUE {
            SafeBoundsJustice();
          }
          return;
        }
        liveCount := liveCount + opts.stepSize;
      }
      res := UNKNOWN;
    }

    lemma {:induction false} SafeBoundsJustice()
      requires Fit() && liveCount > 0 && Safe(Problem(liveCount))
      ensures (forall p :: !JustTimes(Original(), p, liveCount)) && !HasFairRun(Original())
    {
      CounterReachesIff(ts.View(), justice, opts.enc, op(liveCount), liveCount, ts.th);
      BoundedMeansUnfair(Original(), liveCount);
    }
  }

  /** The steps from `lo` on at which the counter changes, in order. */
  ghost predicate ChangesFrom(cex: seq<State>, k: nat, steps: seq<nat>, lo: nat) {
    && (forall t: nat :: t in steps <==> Changes(cex, k, t) && t >= lo)
    && Ascending(steps)
  }

  ghost predicate Ascending(steps: seq<nat>) {
    forall x, y :: 0 <= x < y < |steps| ==> steps[x] < steps[y]
  }

  lemma {:induction false} StepBack(cex: seq<State>, k: nat, steps: seq<nat>, t: nat)
    requires ChangesFrom(cex, k, steps, t + 1)
    ensures ChangesFrom(cex, k, if Changes(cex, k, t) then [t] + steps else steps, t)
  {
    hide Changes;
    forall y | 0 <= y < |steps| ensures t < steps[y] {
      assert steps[y] in steps;
    }
  }

  lemma {:induction false} NoSteps(cex: seq<State>, k: nat)
    requires |cex| > 0
    ensures ChangesFrom(cex, k, [], |cex| - 1)
  {
  }

  ghost predicate StepIs(cex: seq<State>, vars: seq<Name>, t: nat, vals: seq<Value>) {
    t < |cex| && ValuesOf(cex[t], vars) == vals
  }

  /** The map holds, for the values at the first `m` justice steps, the step that has them; all differ. */
  ghost predicate Visited(
      cex: seq<State>, k: nat, vars: seq<Name>, steps: seq<nat>, m: nat, visited: map<seq<Value>, nat>)
    requires m <= |steps|
  {
    && ChangesFrom(cex, k, steps, 0)
    && (forall vals :: vals in visited ==> visited[vals] in steps[..m] && StepIs(cex, vars, visited[vals], vals))
    && (forall x :: 0 <= x < m ==> steps[x] < |cex| && Recorded(cex, vars, steps[x], visited))
  }

  ghost predicate Recorded(cex: seq<State>, vars: seq<Name>, t: nat, visited: map<seq<Value>, nat>)
    requires t < |cex|
  {
    ValuesOf(cex[t], vars) in visited && visited[ValuesOf(cex[t], vars)] == t
  }

  lemma {:induction false} NothingVisited(cex: seq<State>, k: nat, vars: seq<Name>, steps: seq<nat>)
    requires ChangesFrom(cex, k, steps, 0)
    ensures Visited(cex, k, vars, steps, 0, map[])
  {
  }

  lemma {:induction false} StepInCex(cex: seq<State>, k: nat, steps: seq<nat>, m: nat)
    requires m < |steps| && ChangesFrom(cex, k, steps, 0)
    ensures steps[m] < |cex|
  {
    assert steps[m] in steps;
    assert Changes(cex, k, steps[m]);
  }

  lemma {:induction false} VisitNext(
      cex: seq<State>, k: nat, vars: seq<Name>, steps: seq<nat>, m: nat, visited: map<seq<Value>, nat>)
    requires m < |steps| && Visited(cex, k, vars, steps, m, visited) && steps[m] < |cex|
    requires ValuesOf(cex[steps[m]], vars) !in visited
    ensures Visited(cex, k, vars, steps, m + 1, visited[ValuesOf(cex[steps[m]], vars) := steps[m]])
  {
    assert steps[..m + 1] == steps[..m] + [steps[m]];
  }

  lemma {:induction false} EarlierVisit(
      cex: seq<State>, k: nat, vars: seq<Name>, steps: seq<nat>, m: nat, visited: map<seq<Value>, nat>,
      vals: seq<Value>)
    requires m < |steps| && Visited(cex, k, vars, steps, m, visited) && vals in visited
    requires StepIs(cex, vars, steps[m], vals)
    ensures Revisit(cex, k, vars, visited[vals], steps[m])
  {
    var t := visited[vals];
    var x :| 0 <= x < m && steps[x] == t;
    assert t in steps && steps[m] in steps;
  }

  lemma {:induction false} NothingRevisited(
      cex: seq<State>, k: nat, vars: seq<Name>, steps: seq<nat>, visited: map<seq<Value>, nat>)
    requires Visited(cex, k, vars, steps, |steps|, visited)
    ensures !HasRevisit(cex, k, vars)
  {
    forall x: nat, y: nat | Changes(cex, k, x) && Changes(cex, k, y) && x < y
      ensures ValuesOf(cex[x], vars) != ValuesOf(cex[y], vars)
    {
      assert x in steps && y in steps;
      assert Recorded(cex, vars, x, visited) && Recorded(cex, vars, y, visited);
    }
  }

  lemma {:induction false} UpdateNoNext(op: nat, k: nat, justice: Term, vars: seq<Name>, inputs: seq<Name>)
    requires KliveCounter(k) in vars && NoNext(justice, vars, inputs)
    ensures NoNext(CounterUpdate(op, k, justice), vars, inputs)
  {
    var counter := Sym(Cur(KliveCounter(k)));
    NoNextPair(Fun(op), counter, Const(Num(1)), vars, inputs);
    assert NoNext(counter, vars, inputs);
  }

  lemma {:induction false} CexNotEmpty(sys: System<State, Input>, r: seq<State>)
    requires IsCex(sys, r)
    ensures |r| > 0
  {
  }

  /** The counter has an update, so the variables without one are those of the original system. */
  lemma {:induction false} CounterIsUpdated(v0: View, justice: Term, enc: Encoding, op: nat, k: nat, th: Theory)
    requires Instrumentable(v0, justice, th)
    ensures var v := InstrumentedView(v0, justice, enc, op, k);
      VarSet(v.vars) - v.updates.Keys == VarSet(v0.vars) - v0.updates.Keys
  {
    hide Shaped;
    var v, c := InstrumentedView(v0, justice, enc, op, k), KliveCounter(k);
    assert v.updates.Keys == v0.updates.Keys + {c};
    assert VarSet(v.vars) == VarSet(v0.vars) + {c};
    assert c !in v0.vars;
  }

  lemma {:induction false} ComparesUpdated(
      v0: View, th: Theory, vars: seq<Name>, v: View, enc: Encoding, op: nat, k: nat, justice: Term,
      noUpdate: set<Name>)
    requires Instrumentable(v0, justice, th) && v == InstrumentedView(v0, justice, enc, op, k)
    requires noUpdate == VarSet(v.vars) - v.updates.Keys
    requires forall n :: n in vars <==> n in v.vars && n != KliveCounter(k) && n !in noUpdate
    ensures Compares(vars, v0)
  {
    forall n ensures n in vars <==> n in v0.vars && n in v0.updates {
      assert n in v.vars <==> n in v0.vars || n == KliveCounter(k);
    }
  }
}
