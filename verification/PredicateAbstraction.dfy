/**
  Implicit predicate abstraction: the next state is replaced by abstract copies
  that agree with it on the predicates; refinement adds predicates until a
  spurious trace is gone.
 */
module PredicateAbstraction {
  import opened Runs
  import opened Terms
  import opened TransitionSystems
  import Unrollers

  /** A concrete system, which of its variables are Boolean, and the property. */
  datatype Problem = Problem(v: View, boolVars: set<Name>, bad: Term, th: Theory) {

    /** Next-state symbols and inputs are the system's own. */
    ghost predicate WellFormed() {
      && OnlyCurr(v.init, v.vars) && OnlyCurr(bad, v.vars)
      && (forall x :: Occurs(x, v.trans) && x.Next? ==> x.n in v.vars)
      && (forall n, m :: n in v.inputs ==> n != HatOf(m))
      && (forall x :: Occurs(x, v.trans) && x.Inp? ==> x.n in v.inputs)
    }

    ghost function Concrete(): System<State, Input> {
      Semantics(v, bad, th)
    }
  }

  /** Whether a state formula holds in a state. */
  ghost predicate HoldsIn(t: Term, s: State, th: Theory) {
    Holds(t, EnvOf(s, map[], s), th)
  }

  ghost function ValueIn(t: Term, s: State, th: Theory): Value {
    Eval(t, EnvOf(s, map[], s), th)
  }

  // ----- the terms of the abstraction -----

  /** Next-state variables become abstract inputs, except Boolean ones. */
  function HatMap(p: Problem): map<Symbol, Term> {
    map n | n in p.v.vars && n !in p.boolVars :: Next(n) := Sym(Inp(HatOf(n)))
  }

  function Abstract(p: Problem, t: Term): Term {
    Subst(t, HatMap(p))
  }

  /** The next state and its abstract copy agree on the predicate. */
  function PredicateRefinement(p: Problem, pred: Term): Term {
    MkEqual(NextTerm(pred, p.v.vars), Abstract(p, NextTerm(pred, p.v.vars)))
  }

  /** The abstract copy that an abstract step is concrete for. */
  function Hat(p: Problem, i: Input, t: State): State {
    map n | n in p.v.vars :: if n in p.boolVars then Lookup(t, n) else Lookup(i, HatOf(n))
  }

  lemma {:induction false} HatEnv(p: Problem, t: Term, s: State, i: Input, u: State)
    requires forall x :: Occurs(x, t) && x.Next? ==> x.n in p.v.vars
    ensures Eval(Abstract(p, t), EnvOf(s, i, u), p.th) == Eval(t, EnvOf(s, i, Hat(p, i, u)), p.th)
  {
    hide Eval, Subst, Occurs;
    var env, env' := EnvOf(s, i, u), EnvOf(s, i, Hat(p, i, u));
    forall x | Occurs(x, t) ensures env'(x) == if x in HatMap(p) then Eval(HatMap(p)[x], env, p.th) else env(x) {
      if x in HatMap(p) {
        EvalSym(Inp(HatOf(x.n)), env, p.th);
      }
    }
    SubstEval(t, HatMap(p), env, env', p.th);
  }

  lemma {:induction false} NextOccurs(t: Term, vars: seq<Name>, x: Symbol)
    requires OnlyCurr(t, vars) && Occurs(x, NextTerm(t, vars))
    ensures x.Next? && x.n in vars
    decreases t
  {
    match t
    case Const(_) =>
    case Sym(y) =>
    case App(op, args) =>
      var subs := seq(|args|, i requires 0 <= i < |args| => Subst(args[i], NextMap(vars)));
      assert NextTerm(t, vars) == App(op, subs);
      var i :| 0 <= i < |subs| && Occurs(x, subs[i]);
      NextOccurs(args[i], vars, x);
  }

  /** A state formula renamed to the next state has its value there. */
  lemma {:induction false} NextValueIn(p: Problem, t: Term, s: State, i: Input, u: State)
    requires OnlyCurr(t, p.v.vars)
    ensures Eval(NextTerm(t, p.v.vars), EnvOf(s, i, u), p.th) == ValueIn(t, u, p.th)
  {
    hide Eval, Subst, Occurs, OnlyCurr;
    var env, env' := EnvOf(s, i, u), EnvOf(u, i, u);
    forall x | Occurs(x, t)
      ensures env'(x) == if x in NextMap(p.v.vars) then Eval(NextMap(p.v.vars)[x], env, p.th) else env(x)
    {
      OnlyCurrOccurs(t, p.v.vars, x);
      EvalSym(Next(x.n), env, p.th);
    }
    SubstEval(t, NextMap(p.v.vars), env, env', p.th);
    StateFormula(t, p.v.vars, u, i, u, map[], u, p.th);
  }

  lemma {:induction false} RefinementMeans(p: Problem, pred: Term, s: State, i: Input, t: State)
    requires OnlyCurr(pred, p.v.vars)
    ensures Holds(PredicateRefinement(p, pred), EnvOf(s, i, t), p.th) <==>
      ValueIn(pred, t, p.th) == ValueIn(pred, Hat(p, i, t), p.th)
  {
    hide Eval, Subst, Occurs, OnlyCurr, Hat;
    var env, next := EnvOf(s, i, t), NextTerm(pred, p.v.vars);
    forall x | Occurs(x, next) ensures x.Next? && x.n in p.v.vars {
      NextOccurs(pred, p.v.vars, x);
    }
    EvalEqual(next, Abstract(p, next), env, p.th);
    HatEnv(p, next, s, i, t);
    NextValueIn(p, pred, s, i, t);
    NextValueIn(p, pred, s, i, Hat(p, i, t));
  }

  // ----- abstract steps -----

  ghost predicate AgreeOn(p: Problem, preds: set<Term>, s: State, t: State) {
    forall q :: q in preds ==> ValueIn(q, s, p.th) == ValueIn(q, t, p.th)
  }

  ghost predicate AreStates(p: Problem, s: State, t: State) {
    s.Keys == VarSet(p.v.vars) && t.Keys == VarSet(p.v.vars)
  }

  /** A concrete step to the abstract copy, which agrees with the next state on the predicates. */
  ghost predicate AbsStep(p: Problem, preds: set<Term>, s: State, i: Input, t: State) {
    && AreStates(p, s, t)
    && Holds(p.v.trans, EnvOf(s, i, Hat(p, i, t)), p.th)
    && AgreeOn(p, preds, t, Hat(p, i, t))
  }

  /** The abstraction by a set of predicates. */
  ghost function AbsSystem(p: Problem, preds: set<Term>): System<State, Input> {
    System(p.Concrete().init, (s: State, i: Input, t: State) => AbsStep(p, preds, s, i, t), p.Concrete().bad)
  }

  /** What the abstract transition relation must mean. */
  ghost predicate TransMeans(p: Problem, trans: Term, preds: set<Term>) {
    forall s, i, t :: AreStates(p, s, t) ==> (Holds(trans, EnvOf(s, i, t), p.th) <==> AbsStep(p, preds, s, i, t))
  }

  /** The input that lets a concrete step be an abstract one: the copies are the next state. */
  function HatInput(p: Problem, i: Input, t: State): Input {
    map n | n in i.Keys + (set m | m in p.v.vars :: HatOf(m)) ::
      match n
      case HatOf(m) => Lookup(t, m)
      case _ => Lookup(i, n)
  }

  lemma {:induction false} ConcreteStepIsAbstract(p: Problem, preds: set<Term>, s: State, i: Input, t: State)
    requires p.WellFormed() && p.Concrete().trans(s, i, t)
    ensures AbsStep(p, preds, s, HatInput(p, i, t), t)
  {
    hide Eval, Occurs, Hat, HatInput;
    HatInputCopies(p, i, t);
    SameTrans(p, s, i, HatInput(p, i, t), t);
  }

  /** With the copied input the abstract copy is the next state itself, and the system's own inputs are as before. */
  lemma {:induction false} HatInputCopies(p: Problem, i: Input, t: State)
    requires p.WellFormed() && t.Keys == VarSet(p.v.vars)
    ensures Hat(p, HatInput(p, i, t), t) == t
    ensures forall n :: n in p.v.inputs ==> Lookup(i, n) == Lookup(HatInput(p, i, t), n)
  {
    hide Eval, Occurs;
    var i' := HatInput(p, i, t);
    forall n | n in p.v.vars ensures Lookup(i', HatOf(n)) == Lookup(t, n) {
      assert HatOf(n) in i'.Keys;
    }
    var h := Hat(p, i', t);
    forall n | n in t.Keys ensures n in h && h[n] == t[n] {
    }
  }

  lemma {:induction false} SameTrans(p: Problem, s: State, i: Input, i': Input, t: State)
    requires p.WellFormed() && forall n :: n in p.v.inputs ==> Lookup(i, n) == Lookup(i', n)
    ensures Eval(p.v.trans, EnvOf(s, i, t), p.th) == Eval(p.v.trans, EnvOf(s, i', t), p.th)
  {
    hide Eval, Occurs;
    var env, env' := EnvOf(s, i, t), EnvOf(s, i', t);
    forall x | Occurs(x, p.v.trans) ensures env(x) == env'(x) {
    }
    EvalAgree(p.v.trans, env, env', p.th);
  }

  /** For any predicates, every concrete run is an abstract run. */
  lemma {:induction false} ConcreteRunIsAbstract(p: Problem, preds: set<Term>, r: seq<State>)
    requires p.WellFormed() && IsRun(p.Concrete(), r)
    ensures IsRun(AbsSystem(p, preds), r)
  {
    var abs := AbsSystem(p, preds);
    forall k | 0 <= k < |r| - 1 ensures Step(abs, r[k], r[k + 1]) {
      assert Step(p.Concrete(), r[k], r[k + 1]);
      var i :| p.Concrete().trans(r[k], i, r[k + 1]);
      ConcreteStepIsAbstract(p, preds, r[k], i, r[k + 1]);
      assert abs.trans(r[k], HatInput(p, i, r[k + 1]), r[k + 1]);
    }
  }

  /** A safe abstraction proves the concrete system safe. */
  lemma {:induction false} AbstractionIsSound(p: Problem, preds: set<Term>)
    requires p.WellFormed() && Safe(AbsSystem(p, preds))
    ensures Safe(p.Concrete())
  {
    forall s | Reachable(p.Concrete(), s) ensures !p.Concrete().bad(s) {
      var r :| IsRun(p.Concrete(), r) && r[|r| - 1] == s;
      ConcreteRunIsAbstract(p, preds, r);
      assert Reachable(AbsSystem(p, preds), s);
    }
  }

  // ----- traces and interpolants -----

  /** A path that is in the k-th region at each time k before `n`. */
  ghost predicate PathBefore(sys: System<State, Input>, p: Problem, regions: seq<Term>, r: seq<State>, n: nat) {
    && |r| == |regions| && n <= |r| && IsPath(sys, r)
    && forall k :: 0 <= k < n ==> HoldsIn(regions[k], r[k], p.th)
  }

  ghost predicate PathThrough(sys: System<State, Input>, p: Problem, regions: seq<Term>, r: seq<State>) {
    PathBefore(sys, p, regions, r, |regions|)
  }

  ghost predicate RuledOut(p: Problem, preds: set<Term>, regions: seq<Term>) {
    forall r :: !PathThrough(AbsSystem(p, preds), p, regions, r)
  }

  /** The interpolant before time `k`: true at 0. */
  function ItpAt(itps: seq<Term>, k: nat): Term
    requires k <= |itps|
  {
    if k == 0 then TrueTerm else itps[k - 1]
  }

  ghost predicate ItpStep(p: Problem, regions: seq<Term>, itps: seq<Term>, k: nat)
    requires k < |itps| && |regions| == |itps| + 1
  {
    forall s, i, t ::
      HoldsIn(ItpAt(itps, k), s, p.th) && HoldsIn(regions[k], s, p.th) && p.Concrete().trans(s, i, t) ==>
        HoldsIn(itps[k], t, p.th)
  }

  /** Sequence interpolants of the concrete unrolling of the regions. */
  ghost predicate AreInterpolants(p: Problem, regions: seq<Term>, itps: seq<Term>) {
    && |regions| == |itps| + 1
    && (forall k :: 0 <= k < |itps| ==> OnlyCurr(itps[k], p.v.vars) && ItpStep(p, regions, itps, k))
    && forall s :: !(HoldsIn(ItpAt(itps, |itps|), s, p.th) && HoldsIn(regions[|itps|], s, p.th))
  }

  ghost predicate SameBools(p: Problem, s: State, t: State) {
    forall n :: n in p.boolVars ==> Lookup(s, n) == Lookup(t, n)
  }

  /** The truth of the formula follows from the predicates and the Boolean variables. */
  ghost predicate Determines(p: Problem, preds: set<Term>, t: Term) {
    forall s, u :: AreStates(p, s, u) && SameBools(p, s, u) && AgreeOn(p, preds, s, u) ==>
      (HoldsIn(t, s, p.th) <==> HoldsIn(t, u, p.th))
  }

  ghost predicate AllDetermined(p: Problem, preds: set<Term>, itps: seq<Term>) {
    forall k :: 0 <= k < |itps| ==> Determines(p, preds, itps[k])
  }

  lemma {:induction false} TrueHolds(s: State, th: Theory)
    ensures HoldsIn(TrueTerm, s, th)
  {
  }

  /** An abstract path stays in the interpolants, which its predicates express. */
  lemma {:induction false} PathInInterpolants(
      p: Problem, preds: set<Term>, regions: seq<Term>, itps: seq<Term>, r: seq<State>, k: nat)
    requires AreInterpolants(p, regions, itps) && AllDetermined(p, preds, itps)
    requires p.boolVars <= VarSet(p.v.vars)
    requires PathBefore(AbsSystem(p, preds), p, regions, r, |itps|) && k <= |itps|
    ensures HoldsIn(ItpAt(itps, k), r[k], p.th)
  {
    hide HoldsIn, Holds, AgreeOn, Hat;
    if k == 0 {
      TrueHolds(r[0], p.th);
    } else {
      PathInInterpolants(p, preds, regions, itps, r, k - 1);
      assert Step(AbsSystem(p, preds), r[k - 1], r[k - 1 + 1]);
      var i :| AbsStep(p, preds, r[k - 1], i, r[k]);
      AbsStepConcrete(p, preds, r[k - 1], i, r[k]);
      var h := Hat(p, i, r[k]);
      assert ItpStep(p, regions, itps, k - 1);
      assert HoldsIn(itps[k - 1], h, p.th);
      assert Determines(p, preds, itps[k - 1]);
    }
  }

  lemma {:induction false} AbsStepConcrete(p: Problem, preds: set<Term>, s: State, i: Input, t: State)
    requires AbsStep(p, preds, s, i, t) && p.boolVars <= VarSet(p.v.vars)
    ensures p.Concrete().trans(s, i, Hat(p, i, t))
    ensures AreStates(p, t, Hat(p, i, t)) && SameBools(p, t, Hat(p, i, t)) && AgreeOn(p, preds, t, Hat(p, i, t))
  {
    hide Eval, AgreeOn;
    assert Hat(p, i, t).Keys == VarSet(p.v.vars);
  }

  /** Predicates that express the interpolants leave no abstract path through the trace. */
  lemma {:induction false} InterpolantsRuleOut(p: Problem, preds: set<Term>, regions: seq<Term>, itps: seq<Term>)
    requires AreInterpolants(p, regions, itps) && AllDetermined(p, preds, itps)
    requires p.boolVars <= VarSet(p.v.vars)
    ensures RuledOut(p, preds, regions)
  {
    hide HoldsIn, AbsSystem;
    forall r ensures !PathThrough(AbsSystem(p, preds), p, regions, r) {
      if PathBefore(AbsSystem(p, preds), p, regions, r, |itps|) {
        PathInInterpolants(p, preds, regions, itps, r, |itps|);
        assert !HoldsIn(regions[|itps|], r[|itps|], p.th);
      }
    }
  }

  lemma {:induction false} MorePredicates(p: Problem, preds: set<Term>, more: set<Term>, t: Term)
    requires Determines(p, preds, t) && preds <= more
    ensures Determines(p, more, t)
  {
    hide HoldsIn, ValueIn;
  }

  lemma {:induction false} MorePredicatesRuleOut(p: Problem, preds: set<Term>, more: set<Term>, regions: seq<Term>)
    requires RuledOut(p, preds, regions) && preds <= more
    ensures RuledOut(p, more, regions)
  {
    hide HoldsIn, ValueIn, Holds, Hat;
    forall r | IsPath(AbsSystem(p, more), r) ensures IsPath(AbsSystem(p, preds), r) {
      forall k | 0 <= k < |r| - 1 ensures Step(AbsSystem(p, preds), r[k], r[k + 1]) {
        assert Step(AbsSystem(p, more), r[k], r[k + 1]);
        var i :| AbsSystem(p, more).trans(r[k], i, r[k + 1]);
        assert AbsStep(p, preds, r[k], i, r[k + 1]);
        assert AbsSystem(p, preds).trans(r[k], i, r[k + 1]);
      }
    }
    forall r ensures !PathThrough(AbsSystem(p, more), p, regions, r) {
      assert !PathThrough(AbsSystem(p, preds), p, regions, r);
    }
  }

  // ----- the engine's predicates -----

  datatype RefineResult = RefineNone | RefineSuccess | RefineFail

  /** What the interpolator returns; undecided queries may come with some interpolants. */
  datatype Interpolation = Interpolants(itps: seq<Term>) | Satisfiable | Undecided(some: seq<Term>)

  /** The reducer's answer: which assumptions are in the core. */
  datatype Reduction = Core(keep: seq<bool>) | NotUnsat | NoCore

  datatype Options = Options(simCex: bool, reducePreds: bool)

  /** The predicates that a core keeps. */
  function Kept(preds: seq<Term>, keep: seq<bool>): (r: set<Term>)
    requires |keep| == |preds|
  {
    set k | 0 <= k < |preds| && keep[k] :: preds[k]
  }

  function ToSet(preds: seq<Term>): set<Term> {
    set q | q in preds
  }

  // ----- the query of the reducer -----

  /** The trace and the transitions between its states, unrolled, at the times before `n`. */
  function TraceFormula(cex: seq<Term>, trans: Term, n: nat): Term
    requires n <= |cex|
  {
    if n == 0 then TrueTerm else
      var here := MkAnd(TraceFormula(cex, trans, n - 1), Unrollers.PlainTerm(cex[n - 1], n - 1));
      if n < |cex| then MkAnd(here, Unrollers.PlainTerm(trans, n - 1)) else here
  }

  /** A formula at each of the times before `n`. */
  function Along(t: Term, n: nat): Term
    requires n > 0
  {
    if n == 1 then Unrollers.PlainTerm(t, 0) else MkAnd(Along(t, n - 1), Unrollers.PlainTerm(t, n - 1))
  }

  /** One assumption for each predicate: its refinement at every step of the trace. */
  function Assumptions(p: Problem, preds: seq<Term>, n: nat): (r: seq<Term>)
    requires n > 0
    ensures |r| == |preds| && forall k :: 0 <= k < |r| ==> r[k] == Along(PredicateRefinement(p, preds[k]), n)
  {
    seq(|preds|, k requires 0 <= k < |preds| => Along(PredicateRefinement(p, preds[k]), n))
  }

  ghost predicate EachHolds(formulas: seq<Term>, env: Env, th: Theory) {
    forall t :: t in formulas ==> Holds(t, env, th)
  }

  /** A solver's core: the asserted formulas and the kept assumptions have no model. */
  ghost predicate IsCore(asserted: seq<Term>, assumps: seq<Term>, keep: seq<bool>, th: Theory) {
    |keep| == |assumps| && forall env: Env :: !(EachHolds(asserted, env, th) && KeptHold(assumps, keep, env, th))
  }

  ghost predicate KeptHold(assumps: seq<Term>, keep: seq<bool>, env: Env, th: Theory)
    requires |keep| == |assumps|
  {
    forall k :: 0 <= k < |assumps| && keep[k] ==> Holds(assumps[k], env, th)
  }

  /** The timed assignment of a path with its inputs. */
  function TraceEnv(r: seq<State>, ins: seq<Input>): Env {
    (x: Symbol) =>
      match x
      case Timed(Cur(n), k) => if k < |r| then Lookup(r[k], n) else Unset
      case Timed(Inp(n), k) => if k < |ins| then Lookup(ins[k], n) else Unset
      case _ => Unset
  }

  lemma {:induction false} StepAt(t: Term, r: seq<State>, ins: seq<Input>, k: nat, th: Theory)
    requires k < |ins| && |r| == |ins| + 1
    ensures Holds(Unrollers.PlainTerm(t, k), TraceEnv(r, ins), th) <==> Holds(t, EnvOf(r[k], ins[k], r[k + 1]), th)
  {
    hide Eval;
    var env, there := TraceEnv(r, ins), EnvOf(r[k], ins[k], r[k + 1]);
    forall x ensures there(x) == env(Unrollers.TimedSymbol(x, k)) {
    }
    Unrollers.PlainEval(t, k, env, there, th);
  }

  lemma {:induction false} StateAt(t: Term, vars: seq<Name>, r: seq<State>, ins: seq<Input>, k: nat, th: Theory)
    requires OnlyCurr(t, vars) && k < |r|
    ensures Holds(Unrollers.PlainTerm(t, k), TraceEnv(r, ins), th) <==> HoldsIn(t, r[k], th)
  {
    hide Eval, OnlyCurr;
    var env, there := TraceEnv(r, ins), EnvOf(r[k], map[], r[k]);
    forall x | Terms.Occurs(x, t) ensures there(x) == env(Unrollers.TimedSymbol(x, k)) {
      OnlyCurrOccurs(t, vars, x);
    }
    Unrollers.PlainEval(t, k, env, there, th);
  }

  /** The path takes abstract steps with the given inputs. */
  ghost predicate StepsWith(p: Problem, preds: set<Term>, r: seq<State>, ins: seq<Input>) {
    |r| == |ins| + 1 && forall k :: 0 <= k < |ins| ==> StepWith(p, preds, r, ins, k)
  }

  ghost predicate StepWith(p: Problem, preds: set<Term>, r: seq<State>, ins: seq<Input>, k: nat)
    requires k < |ins| < |r|
  {
    AbsStep(p, preds, r[k], ins[k], r[k + 1])
  }

  lemma {:induction false} ChooseInputs(p: Problem, preds: set<Term>, r: seq<State>) returns (ins: seq<Input>)
    requires IsPath(AbsSystem(p, preds), r)
    ensures StepsWith(p, preds, r, ins)
  {
    hide AbsStep;
    ins := [];
    while |ins| < |r| - 1
      invariant |ins| < |r| && forall k :: 0 <= k < |ins| ==> StepWith(p, preds, r, ins, k)
    {
      var k := |ins|;
      assert Step(AbsSystem(p, preds), r[k], r[k + 1]);
      var i :| AbsSystem(p, preds).trans(r[k], i, r[k + 1]);
      ghost var was := ins;
      ins := ins + [i];
      forall j | 0 <= j < |ins| ensures StepWith(p, preds, r, ins, j) {
        assert j < k ==> StepWith(p, preds, r, was, j);
      }
    }
  }

  lemma {:induction false} PathSatisfiesTrace(
      p: Problem, trans: Term, known: set<Term>, preds: set<Term>, cex: seq<Term>, r: seq<State>, ins: seq<Input>,
      n: nat)
    requires TransMeans(p, trans, known) && known <= preds && StepsWith(p, preds, r, ins)
    requires n <= |cex| == |r| && forall k :: 0 <= k < |cex| ==>
      OnlyCurr(cex[k], p.v.vars) && HoldsIn(cex[k], r[k], p.th)
    ensures Holds(TraceFormula(cex, trans, n), TraceEnv(r, ins), p.th)
  {
    hide Eval, OnlyCurr, HoldsIn, AbsStep;
    var env := TraceEnv(r, ins);
    if n == 0 {
      EvalConst(Bool(true), env, p.th);
    } else {
      var m := n - 1;
      PathSatisfiesTrace(p, trans, known, preds, cex, r, ins, m);
      StateAt(cex[m], p.v.vars, r, ins, m, p.th);
      var here := MkAnd(TraceFormula(cex, trans, m), Unrollers.PlainTerm(cex[m], m));
      EvalAnd(TraceFormula(cex, trans, m), Unrollers.PlainTerm(cex[m], m), env, p.th);
      if n < |cex| {
        assert StepWith(p, preds, r, ins, m);
        FewerPredicates(p, known, preds, r[m], ins[m], r[m + 1]);
        StepAt(trans, r, ins, m, p.th);
        EvalAnd(here, Unrollers.PlainTerm(trans, m), env, p.th);
      }
    }
  }

  lemma {:induction false} FewerPredicates(p: Problem, known: set<Term>, preds: set<Term>, s: State, i: Input, t: State)
    requires AbsStep(p, preds, s, i, t) && known <= preds
    ensures AbsStep(p, known, s, i, t) && AreStates(p, s, t)
  {
    hide ValueIn, Holds;
  }

  lemma {:induction false} PathSatisfiesRefinement(
      p: Problem, preds: set<Term>, q: Term, r: seq<State>, ins: seq<Input>, n: nat)
    requires StepsWith(p, preds, r, ins) && q in preds && OnlyCurr(q, p.v.vars) && 0 < n <= |ins|
    ensures Holds(Along(PredicateRefinement(p, q), n), TraceEnv(r, ins), p.th)
  {
    hide Eval, OnlyCurr, PredicateRefinement, ValueIn, Hat;
    var ref, m := PredicateRefinement(p, q), n - 1;
    assert StepWith(p, preds, r, ins, m);
    RefinementMeans(p, q, r[m], ins[m], r[m + 1]);
    StepAt(ref, r, ins, m, p.th);
    if n > 1 {
      PathSatisfiesRefinement(p, preds, q, r, ins, m);
      EvalAnd(Along(ref, m), Unrollers.PlainTerm(ref, m), TraceEnv(r, ins), p.th);
    }
  }

  lemma {:induction false} PathIsModel(
      p: Problem, trans: Term, known: set<Term>, all: set<Term>, cex: seq<Term>, preds: seq<Term>, keep: seq<bool>,
      r: seq<State>, ins: seq<Input>)
    requires TransMeans(p, trans, known) && |cex| > 1 && |keep| == |preds| && all == known + Kept(preds, keep)
    requires forall t :: t in cex || t in preds ==> OnlyCurr(t, p.v.vars)
    requires PathThrough(AbsSystem(p, all), p, cex, r) && StepsWith(p, all, r, ins)
    ensures Holds(TraceFormula(cex, trans, |cex|), TraceEnv(r, ins), p.th)
    ensures KeptHold(Assumptions(p, preds, |cex| - 1), keep, TraceEnv(r, ins), p.th)
  {
    hide Holds, OnlyCurr, HoldsIn, TransMeans, PredicateRefinement, AbsStep;
    PathSatisfiesTrace(p, trans, known, all, cex, r, ins, |cex|);
    forall k | 0 <= k < |preds| && keep[k] ensures Holds(Assumptions(p, preds, |cex| - 1)[k], TraceEnv(r, ins), p.th) {
      assert preds[k] in Kept(preds, keep) && preds[k] in preds;
      PathSatisfiesRefinement(p, all, preds[k], r, ins, |cex| - 1);
    }
  }

  /** A core of the unrolled trace leaves no abstract path through it: the kept predicates suffice. */
  lemma {:induction false} CoreRulesOut(
      p: Problem, trans: Term, known: set<Term>, cex: seq<Term>, preds: seq<Term>, keep: seq<bool>)
    requires TransMeans(p, trans, known) && |cex| > 1
    requires forall t :: t in cex || t in preds ==> OnlyCurr(t, p.v.vars)
    requires IsCore([TraceFormula(cex, trans, |cex|)], Assumptions(p, preds, |cex| - 1), keep, p.th)
    ensures RuledOut(p, known + Kept(preds, keep), cex)
  {
    hide Holds, OnlyCurr, PathThrough, TransMeans, KeptHold, TraceFormula, Assumptions, Kept;
    var all := known + Kept(preds, keep);
    forall r ensures !PathThrough(AbsSystem(p, all), p, cex, r) {
      if PathThrough(AbsSystem(p, all), p, cex, r) {
        ThroughIsPath(p, all, cex, r);
        var ins := ChooseInputs(p, all, r);
        PathIsModel(p, trans, known, all, cex, preds, keep, r, ins);
        OneHolds(TraceFormula(cex, trans, |cex|), TraceEnv(r, ins), p.th);
      }
    }
  }

  lemma {:induction false} OneHolds(t: Term, env: Env, th: Theory)
    ensures EachHolds([t], env, th) <==> Holds(t, env, th)
  {
    hide Holds;
    assert t in [t];
  }

  lemma {:induction false} ThroughIsPath(p: Problem, preds: set<Term>, cex: seq<Term>, r: seq<State>)
    requires PathThrough(AbsSystem(p, preds), p, cex, r)
    ensures IsPath(AbsSystem(p, preds), r)
  {
  }

  // ----- a reducer that could not drop an earlier formula -----

  const X: Name := User(0)

  /** A variable that may change to any value. */
  function FreeProblem(th: Theory): Problem {
    Problem(MkView([X], [], TrueTerm, TrueTerm, map[], [], []), {}, FalseTerm, th)
  }

  function XIs(n: int): Term {
    MkEqual(Sym(Cur(X)), Const(Num(n)))
  }

  function TraceFrom(n: int): seq<Term> {
    [XIs(n), TrueTerm]
  }

  lemma {:induction false} XIsMeans(n: int, s: State, th: Theory)
    ensures HoldsIn(XIs(n), s, th) <==> Lookup(s, X) == Num(n)
    ensures HoldsIn(TrueTerm, s, th)
  {
    var env := EnvOf(s, map[], s);
    EvalEqual(Sym(Cur(X)), Const(Num(n)), env, th);
  }

  lemma {:induction false} FreeTransMeans(th: Theory)
    ensures TransMeans(FreeProblem(th), TrueTerm, {})
  {
    assert Abstract(FreeProblem(th), TrueTerm) == TrueTerm;
    AbstractMeans(FreeProblem(th));
  }

  /** Staying at `n` is an abstract path through the trace, whatever the predicates. */
  lemma {:induction false} StayingPath(n: int, preds: set<Term>, th: Theory) returns (r: seq<State>, ins: seq<Input>)
    ensures PathThrough(AbsSystem(FreeProblem(th), preds), FreeProblem(th), TraceFrom(n), r)
    ensures StepsWith(FreeProblem(th), preds, r, ins)
  {
    hide ValueIn, Eval;
    var p := FreeProblem(th);
    var s: State, i: Input := map[X := Num(n)], map[HatOf(X) := Num(n)];
    assert VarSet(p.v.vars) == {X};
    assert Hat(p, i, s) == s;
    EvalConst(Bool(true), EnvOf(s, i, s), th);
    assert AbsStep(p, preds, s, i, s);
    r, ins := [s, s], [i];
    assert AbsSystem(p, preds).trans(s, i, s);
    assert Step(AbsSystem(p, preds), r[0], r[0 + 1]);
    XIsMeans(n, s, th);
  }

  lemma {:induction false} StaysFormula(n: int, env: Env, th: Theory)
    requires Holds(TraceFormula(TraceFrom(n), TrueTerm, 2), env, th)
    ensures env(Timed(Cur(X), 0)) == Num(n)
  {
    hide Eval;
    var cex := TraceFrom(n);
    var none, one := TraceFormula(cex, TrueTerm, 0), TraceFormula(cex, TrueTerm, 1);
    var start := Unrollers.PlainTerm(XIs(n), 0);
    EvalAnd(one, Unrollers.PlainTerm(TrueTerm, 1), env, th);
    EvalAnd(MkAnd(none, start), Unrollers.PlainTerm(TrueTerm, 0), env, th);
    EvalAnd(none, start, env, th);
    TimedXIs(n, env, th);
  }

  lemma {:induction false} TimedXIs(n: int, env: Env, th: Theory)
    ensures Holds(Unrollers.PlainTerm(XIs(n), 0), env, th) <==> env(Timed(Cur(X), 0)) == Num(n)
  {
    var args := XIs(n).args;
    assert seq(|args|, i requires 0 <= i < |args| => Unrollers.PlainTerm(args[i], 0))
        == [Sym(Timed(Cur(X), 0)), Const(Num(n))];
    EvalEqual(Sym(Timed(Cur(X), 0)), Const(Num(n)), env, th);
  }

  /**
    The query for the trace from 0 has a model, so there is no core. If its formula stays asserted, any
    choice of predicates is a core for the trace from 1, and none of them excludes that trace.
   */
  lemma {:induction false} LeftoverMisleads(preds: seq<Term>, keep: seq<bool>, th: Theory)
    requires |keep| == |preds| && forall q :: q in preds ==> OnlyCurr(q, [X])
    ensures var p := FreeProblem(th);
      var assumps := Assumptions(p, preds, 1);
      var one, other := TraceFormula(TraceFrom(0), TrueTerm, 2), TraceFormula(TraceFrom(1), TrueTerm, 2);
      && TransMeans(p, TrueTerm, {})
      && !IsCore([one], assumps, keep, th)
      && IsCore([one, other], assumps, keep, th)
      && !RuledOut(p, {} + Kept(preds, keep), TraceFrom(1))
  {
    hide Eval, Holds, TraceFormula, Assumptions, OnlyCurr, PathThrough, StepsWith, TransMeans, Kept;
    var p := FreeProblem(th);
    var one, other := TraceFormula(TraceFrom(0), TrueTerm, 2), TraceFormula(TraceFrom(1), TrueTerm, 2);
    var all := {} + Kept(preds, keep);
    FreeTransMeans(th);
    forall env: Env ensures !EachHolds([one, other], env, th) {
      if EachHolds([one, other], env, th) {
        assert one in [one, other] && other in [one, other];
        StaysFormula(0, env, th);
        StaysFormula(1, env, th);
      }
    }
    var r, ins := StayingPath(0, all, th);
    assert OnlyCurr(XIs(0), [X]) && OnlyCurr(TrueTerm, [X]) by {
      XIsOnlyCurr(0);
    }
    PathIsModel(p, TrueTerm, {}, all, TraceFrom(0), preds, keep, r, ins);
    OneHolds(one, TraceEnv(r, ins), th);
    r, ins := StayingPath(1, all, th);
  }

  lemma {:induction false} XIsOnlyCurr(n: int)
    ensures OnlyCurr(XIs(n), [X]) && OnlyCurr(TrueTerm, [X])
  {
    assert OnlyCurr(Sym(Cur(X)), [X]);
  }

  // ----- what ruling out the bounded check means for the trace -----

  ghost predicate RunThrough(p: Problem, preds: set<Term>, cex: seq<Term>, r: seq<State>) {
    IsRun(AbsSystem(p, preds), r) && PathThrough(AbsSystem(p, preds), p, cex, r)
  }

  ghost predicate GoodBetween(p: Problem, r: seq<State>) {
    forall k :: 0 < k < |r| - 1 ==> !HoldsIn(p.bad, r[k], p.th)
  }

  ghost predicate EndsBad(p: Problem, cex: seq<Term>)
    requires |cex| > 0
  {
    forall s :: HoldsIn(cex[|cex| - 1], s, p.th) ==> HoldsIn(p.bad, s, p.th)
  }

  ghost predicate AvoidsBad(p: Problem, cex: seq<Term>) {
    forall k, s :: 0 < k < |cex| - 1 && HoldsIn(cex[k], s, p.th) ==> !HoldsIn(p.bad, s, p.th)
  }

  /**
    No run of the abstraction goes through the trace with bad at its end only; none at all if the trace
    itself avoids bad.
   */
  ghost predicate TraceGone(p: Problem, preds: set<Term>, cex: seq<Term>)
    requires |cex| > 0
  {
    EndsBad(p, cex) ==>
      && (forall r :: RunThrough(p, preds, cex, r) ==> !GoodBetween(p, r))
      && (AvoidsBad(p, cex) ==> forall r :: !RunThrough(p, preds, cex, r))
  }

  lemma {:induction false} RuledOutIsGone(p: Problem, preds: set<Term>, cex: seq<Term>)
    requires |cex| > 0 && RuledOut(p, preds, cex)
    ensures TraceGone(p, preds, cex)
  {
    hide PathThrough;
  }

  /** Formulas of the bounded check: init, good in between, bad. */
  ghost predicate AreBmcRegions(p: Problem, regions: seq<Term>) {
    && |regions| > 1 && regions[0] == p.v.init && regions[|regions| - 1] == p.bad
    && forall k :: 0 < k < |regions| - 1 ==> regions[k] == MkNot(p.bad)
  }

  /** Ruling out the bounded check rules out the old counterexample. */
  lemma {:induction false} BmcRulesOutTrace(p: Problem, preds: set<Term>, regions: seq<Term>, cex: seq<Term>)
    requires AreBmcRegions(p, regions) && |cex| == |regions| && RuledOut(p, preds, regions)
    ensures TraceGone(p, preds, cex)
  {
    hide HoldsIn, AbsStep;
    if EndsBad(p, cex) {
      forall r | RunThrough(p, preds, cex, r) ensures !GoodBetween(p, r) && !AvoidsBad(p, cex) {
        if AvoidsBad(p, cex) {
          assert GoodBetween(p, r);
        }
        if GoodBetween(p, r) {
          GoodRunInRegions(p, preds, regions, cex, r);
        }
      }
    }
  }

  lemma {:induction false} GoodRunInRegions(
      p: Problem, preds: set<Term>, regions: seq<Term>, cex: seq<Term>, r: seq<State>)
    requires AreBmcRegions(p, regions) && |cex| == |regions|
    requires EndsBad(p, cex) && RunThrough(p, preds, cex, r) && GoodBetween(p, r)
    ensures PathThrough(AbsSystem(p, preds), p, regions, r)
  {
    hide AbsStep, Eval;
    forall k | 0 <= k < |regions| ensures HoldsIn(regions[k], r[k], p.th) {
      if 0 < k < |regions| - 1 {
        EvalNot(p.bad, EnvOf(r[k], map[], r[k]), p.th);
      }
    }
  }

  class IC3IA {
    const p: Problem
    const opts: Options
    const important: Term -> bool                        // mentions an important variable
    const getPredicates: Term -> seq<Term>
    const interpolate: seq<Term> -> Interpolation
    const reduce: (seq<Term>, seq<Term>) -> Reduction    // what is asserted, and assumptions to pick a core from
    const resets: bool                                   // whether the reducer can drop its assertions

    var predset: set<Term>
    var absTrans: Term
    var leftover: seq<Term>                              // formulas still asserted in the reducer

    /** Predicates are state formulas whose values, with the Boolean variables, determine the term. */
    ghost predicate PredicatesOk() {
      forall t :: OnlyCurr(t, p.v.vars) ==>
        (forall q :: q in getPredicates(t) ==> OnlyCurr(q, p.v.vars) && !q.Sym?) &&
          Determines(p, ToSet(getPredicates(t)), t)
    }

    ghost predicate InterpolatorOk() {
      forall regions :: |regions| > 1 ==> InterpolationOk(regions, interpolate(regions))
    }

    ghost predicate InterpolationOk(regions: seq<Term>, a: Interpolation) {
      match a
      case Interpolants(itps) => AreInterpolants(p, regions, itps)
      case Satisfiable => exists r :: PathThrough(p.Concrete(), p, regions, r)
      case Undecided(some) => forall t :: t in some ==> OnlyCurr(t, p.v.vars)
    }

    ghost predicate ReducerOk() {
      forall formulas, assumps :: ReductionOk(formulas, assumps, reduce(formulas, assumps))
    }

    ghost predicate ReductionOk(formulas: seq<Term>, assumps: seq<Term>, a: Reduction) {
      a.Core? ==> IsCore(formulas, assumps, a.keep, p.th)
    }

    /** Nothing of an earlier query is asserted in the next one. */
    ghost predicate Clean()
      reads `leftover
    {
      resets || leftover == []
    }

    ghost predicate Fit() {
      p.WellFormed() && p.boolVars <= VarSet(p.v.vars) && PredicatesOk() && InterpolatorOk() && ReducerOk()
    }

    ghost predicate Valid()
      reads this
    {
      && (forall q :: q in predset ==> OnlyCurr(q, p.v.vars))
      && TransMeans(p, absTrans, predset)
    }

    constructor (p: Problem, opts: Options, important: Term -> bool, getPredicates: Term -> seq<Term>,
                 interpolate: seq<Term> -> Interpolation, reduce: (seq<Term>, seq<Term>) -> Reduction, resets: bool)
      ensures this.p == p && this.opts == opts && this.important == important && this.getPredicates == getPredicates
      ensures this.interpolate == interpolate && this.reduce == reduce && this.resets == resets && predset == {}
      ensures Clean()
    {
      this.p, this.opts, this.important, this.getPredicates := p, opts, important, getPredicates;
      this.interpolate, this.reduce, this.resets := interpolate, reduce, resets;
      predset, absTrans, leftover := {}, p.v.trans, [];
    }

    /** The abstract transition relation without predicates; Boolean variables that occur are precise predicates. */
    method DoAbstraction(used: set<Name>)
      requires Fit() && used <= p.boolVars && predset == {}
      modifies this
      ensures Valid() && predset == (set n | n in used :: Sym(Cur(n)))
    {
      absTrans := Abstract(p, p.v.trans);
      AbstractMeans(p);
      var rest := used;
      while rest != {}
        invariant rest <= used && Valid() && predset == (set n | n in used - rest :: Sym(Cur(n)))
        decreases rest
      {
        var n :| n in rest;
        rest := rest - {n};
        assert n in VarSet(p.v.vars);
        var added := AddPredicate(Sym(Cur(n)));
        assert used - rest == (used - (rest + {n})) + {n};
      }
      assert used - {} == used;
    }

    /** A state formula, and Boolean if it is a symbol. */
    ghost predicate IsPredicate(q: Term) {
      OnlyCurr(q, p.v.vars) && (q.Sym? ==> q.x.n in p.boolVars)
    }

    /** A new predicate constrains the abstract transition relation, unless it is a symbol and so precise already. */
    method AddPredicate(pred: Term) returns (added: bool)
      requires Fit() && Valid() && IsPredicate(pred)
      modifies this
      ensures Valid() && added == (pred !in old(predset)) && predset == old(predset) + {pred}
      ensures leftover == old(leftover)
      ensures pred.Sym? ==> absTrans == old(absTrans)
    {
      if pred in predset {
        assert predset + {pred} == predset;
        return false;
      }
      if pred.Sym? {
        BoolPredicateFree(p, absTrans, predset, pred.x.n);
      } else {
        RefinedMeans(p, absTrans, predset, pred);
        absTrans := MkAnd(absTrans, PredicateRefinement(p, pred));
      }
      predset := predset + {pred};
      added := true;
    }

    /** The trace and the abstract transitions, unrolled. */
    method UnrollTrace(cex: seq<Term>) returns (formula: Term)
      ensures formula == TraceFormula(cex, absTrans, |cex|)
    {
      formula := TrueTerm;
      for i := 0 to |cex|
        invariant formula == TraceFormula(cex, absTrans, i)
      {
        formula := MkAnd(formula, Unrollers.PlainTerm(cex[i], i));
        if i != |cex| - 1 {
          formula := MkAnd(formula, Unrollers.PlainTerm(absTrans, i));
        }
      }
    }

    /** For each predicate, its refinement at every step. */
    method RefinementAssumptions(newPreds: seq<Term>, steps: nat) returns (assumps: seq<Term>)
      requires steps > 0
      ensures assumps == Assumptions(p, newPreds, steps)
    {
      assumps := [];
      for m := 0 to |newPreds|
        invariant assumps == Assumptions(p, newPreds, steps)[..m]
      {
        var predRef := PredicateRefinement(p, newPreds[m]);
        var a := Unrollers.PlainTerm(predRef, 0);
        for i := 1 to steps
          invariant a == Along(predRef, i)
        {
          a := MkAnd(a, Unrollers.PlainTerm(predRef, i));
        }
        assumps := assumps + [a];
      }
    }

    /** Kept by the core, or on an important variable, among the first `n`. */
    ghost predicate SelectedBefore(preds: seq<Term>, keep: seq<bool>, n: nat, q: Term)
      requires |keep| == |preds| && n <= |preds|
    {
      exists j :: 0 <= j < n && (keep[j] || important(preds[j])) && preds[j] == q
    }

    ghost predicate Selected(preds: seq<Term>, keep: seq<bool>, q: Term)
      requires |keep| == |preds|
    {
      SelectedBefore(preds, keep, |preds|, q)
    }

    /** The predicates that the core keeps, and those on important variables. */
    method SelectKept(newPreds: seq<Term>, keep: seq<bool>) returns (out: seq<Term>)
      requires |keep| == |newPreds|
      ensures forall q :: q in out <==> Selected(newPreds, keep, q)
      ensures |out| < |newPreds| || forall q :: q in newPreds ==> q in out
    {
      out := [];
      for k := 0 to |newPreds|
        invariant forall q :: q in out <==> SelectedBefore(newPreds, keep, k, q)
        invariant |out| < k || (|out| == k && forall j :: 0 <= j < k ==> newPreds[j] in out)
      {
        if keep[k] || important(newPreds[k]) {
          out := out + [newPreds[k]];
        }
      }
    }

    /** What a query for the trace asserts in the reducer. */
    ghost function Asserting(cex: seq<Term>): seq<Term>
      reads `leftover, `absTrans
    {
      (if resets then [] else leftover) + [TraceFormula(cex, absTrans, |cex|)]
    }

    /**
      Asks for a core of the trace's unrolling; with the predicates selected from it no abstract path is
      left, if the query was clean. A reducer that cannot reset keeps the formula of a query that was not unsatisfiable.
     */
    method ReducePredicates(cex: seq<Term>, newPreds: seq<Term>) returns (ok: bool, out: seq<Term>)
      requires Fit() && Valid() && |cex| > 1 && forall t :: t in cex || t in newPreds ==> OnlyCurr(t, p.v.vars)
      modifies `leftover
      ensures Valid() && (ok ==> out != []) && (ok && old(Clean()) ==> RuledOut(p, predset + ToSet(out), cex))
      ensures var formulas := old(Asserting(cex));
        var a := reduce(formulas, Assumptions(p, newPreds, |cex| - 1));
        && (if !a.Core? then !ok
            else |a.keep| == |newPreds| && ok == (out != []) && forall q :: q in out <==> Selected(newPreds, a.keep, q))
        && (!resets ==> leftover == if a.NotUnsat? then formulas else old(leftover))
      ensures forall q :: q in out ==> q in newPreds
      ensures ok ==> |out| < |newPreds| || forall q :: q in newPreds ==> q in out
    {
      hide RuledOut, TransMeans, TraceFormula, OnlyCurr, IsCore, ToSet, Kept;
      var formula := UnrollTrace(cex);
      var assumps := RefinementAssumptions(newPreds, |cex| - 1);
      var before := if resets then [] else leftover;
      assert before == [] ==> before + [formula] == [formula];
      leftover := before + [formula];
      var a := reduce(leftover, assumps);
      ReducerAnswer(leftover, assumps);
      if a.NotUnsat? {
        return false, newPreds;
      }
      ok, out := false, [];
      if a.Core? {
        out := SelectKept(newPreds, a.keep);
        KeptSelected(newPreds, a.keep, out);
        if before == [] {
          CoreRulesOut(p, absTrans, predset, cex, newPreds, a.keep);
          MorePredicatesRuleOut(p, predset + Kept(newPreds, a.keep), predset + ToSet(out), cex);
        }
        ok := out != [];
      }
      if !resets {
        leftover := before;
      }
    }

    lemma {:induction false} KeptSelected(newPreds: seq<Term>, keep: seq<bool>, out: seq<Term>)
      requires |keep| == |newPreds| && forall q :: q in out <==> Selected(newPreds, keep, q)
      ensures Kept(newPreds, keep) <= ToSet(out) && forall q :: q in out ==> q in newPreds
    {
      forall q | q in Kept(newPreds, keep) ensures q in ToSet(out) {
        var k :| 0 <= k < |newPreds| && keep[k] && newPreds[k] == q;
        assert Selected(newPreds, keep, q);
      }
    }

    lemma {:induction false} ReducerAnswer(formulas: seq<Term>, assumps: seq<Term>)
      requires Fit()
      ensures reduce(formulas, assumps).Core? ==>
        var keep := reduce(formulas, assumps).keep; |keep| == |assumps| && IsCore(formulas, assumps, keep, p.th)
    {
      assert ReductionOk(formulas, assumps, reduce(formulas, assumps));
    }

    /** The formulas that are interpolated: the trace itself, or init, no bad in between, and bad. */
    function Region(cex: seq<Term>, i: nat): Term
      requires i < |cex|
    {
      if opts.simCex then cex[i]
      else if i == 0 then p.v.init
      else if i + 1 == |cex| then p.bad
      else MkNot(p.bad)
    }

    function Regions(cex: seq<Term>): (r: seq<Term>)
      ensures |r| == |cex|
    {
      seq(|cex|, i requires 0 <= i < |cex| => Region(cex, i))
    }

    method BuildRegions(cex: seq<Term>) returns (formulae: seq<Term>)
      ensures formulae == Regions(cex)
    {
      formulae := [];
      for i := 0 to |cex|
        invariant formulae == Regions(cex)[..i]
      {
        formulae := formulae + [Region(cex, i)];
      }
    }

    /** The predicates of the interpolants that are not known yet. */
    method FreshPredicates(itps: seq<Term>) returns (freshPreds: seq<Term>)
      requires Fit() && forall t :: t in itps ==> OnlyCurr(t, p.v.vars)
      ensures Unseen(freshPreds) && forall q :: q in freshPreds <==> q !in predset && FromSome(itps, q)
      ensures forall t :: t in itps ==> ToSet(getPredicates(t)) <= predset + ToSet(freshPreds)
    {
      hide Determines, InterpolatorOk, ReducerOk;
      freshPreds := [];
      for k := 0 to |itps|
        invariant Unseen(freshPreds) && forall q :: q in freshPreds ==> FromSome(itps, q)
        invariant forall j :: 0 <= j < k ==> ToSet(getPredicates(itps[j])) <= predset + ToSet(freshPreds)
      {
        assert itps[k] in itps;
        freshPreds := AddUnseen(freshPreds, getPredicates(itps[k]));
      }
    }

    ghost predicate FromSome(itps: seq<Term>, q: Term) {
      exists t :: t in itps && q in getPredicates(t)
    }

    method AddUnseen(known: seq<Term>, more: seq<Term>) returns (freshPreds: seq<Term>)
      requires Unseen(known) && forall q :: q in more ==> OnlyCurr(q, p.v.vars) && !q.Sym?
      ensures Unseen(freshPreds) && ToSet(known) <= ToSet(freshPreds)
      ensures forall q :: q in freshPreds ==> q in known || q in more
      ensures ToSet(more) <= predset + ToSet(freshPreds)
    {
      freshPreds := known;
      for m := 0 to |more|
        invariant Unseen(freshPreds) && known <= freshPreds && forall q :: q in freshPreds ==> q in known || q in more
        invariant forall j :: 0 <= j < m ==> more[j] in predset || more[j] in freshPreds
      {
        assert more[m] in more;
        if more[m] !in predset && more[m] !in freshPreds {
          freshPreds := freshPreds + [more[m]];
        }
      }
    }

    ghost predicate Unseen(preds: seq<Term>)
      reads this
    {
      forall q :: q in preds ==> OnlyCurr(q, p.v.vars) && !q.Sym? && q !in predset
    }

    method AddAll(preds: seq<Term>)
      requires Fit() && Valid() && forall q :: q in preds ==> IsPredicate(q)
      modifies this
      ensures Valid() && predset == old(predset) + ToSet(preds) && leftover == old(leftover)
    {
      hide TransMeans;
      for k := 0 to |preds|
        invariant Valid() && predset == old(predset) + ToSet(preds[..k]) && leftover == old(leftover)
      {
        var added := AddPredicate(preds[k]);
        assert ToSet(preds[..k + 1]) == ToSet(preds[..k]) + {preds[k]};
      }
      assert preds[..|preds|] == preds;
    }

    /**
      What the predicates leave of the counterexample: nothing through the reduced trace, or nothing through
      the interpolated formulas.
     */
    ghost predicate Eliminated(cex: seq<Term>, reduced: bool)
      requires |cex| > 1
      reads `predset
    {
      && RuledOut(p, predset, if reduced then cex else Regions(cex))
      && TraceGone(p, predset, cex)
    }

    /**
      What the verdict of a refinement means; `reduced` says that a core chose the predicates, `clean` that
      its query was clean.
     */
    ghost predicate Refined(cex: seq<Term>, before: set<Term>, res: RefineResult, reduced: bool, clean: bool)
      reads `predset
    {
      match res
      case RefineNone => |cex| == 1 || exists r :: PathThrough(p.Concrete(), p, Regions(cex), r)
      case RefineSuccess =>
        && |cex| > 1 && predset > before && (reduced ==> opts.reducePreds)
        && ((if reduced then clean else interpolate(Regions(cex)).Interpolants?) ==> Eliminated(cex, reduced))
      case RefineFail =>
        && |cex| > 1 && predset == before && !reduced
        && (interpolate(Regions(cex)).Interpolants? ==> Eliminated(cex, false))
    }

    /** The predicates that a core selects, if reduction is on and selects any, and otherwise all new ones. */
    ghost function Chosen(formulas: seq<Term>, unseen: seq<Term>, steps: nat): set<Term>
      requires steps > 0
    {
      var a := reduce(formulas, Assumptions(p, unseen, steps));
      if opts.reducePreds && a.Core? && |a.keep| == |unseen| && exists q :: Selected(unseen, a.keep, q) then
        set q | q in unseen && Selected(unseen, a.keep, q)
      else
        ToSet(unseen)
    }

    /** The interpolants of an answer. */
    function Found(a: Interpolation): seq<Term> {
      match a
      case Interpolants(itps) => itps
      case Satisfiable => []
      case Undecided(some) => some
    }

    /** `freshPreds` are the predicates of the interpolants that were not known. */
    method Refine(cex: seq<Term>) returns (res: RefineResult, ghost reduced: bool, ghost freshPreds: seq<Term>)
      requires Fit() && Valid() && |cex| > 0 && forall t :: t in cex ==> OnlyCurr(t, p.v.vars)
      modifies this
      ensures Valid() && Refined(cex, old(predset), res, reduced, old(Clean()))
      ensures resets ==> Clean()
      ensures res == RefineNone <==> |cex| == 1 || interpolate(Regions(cex)).Satisfiable?
      ensures res != RefineNone ==>
        forall q :: q in freshPreds <==> q !in old(predset) && FromSome(Found(interpolate(Regions(cex))), q)
      ensures res != RefineNone ==> (res == RefineFail <==> freshPreds == [])
      ensures res == RefineSuccess ==> predset == old(predset) + Chosen(old(Asserting(cex)), freshPreds, |cex| - 1)
    {
      hide Determines, RuledOut, TransMeans, AreInterpolants, TraceGone, OnlyCurr, ToSet, Selected, Chosen;
      hide TraceFormula, Assumptions, FromSome;
      reduced, freshPreds := false, [];
      if |cex| == 1 {
        return RefineNone, false, [];
      }
      var formulae := BuildRegions(cex);
      var a := interpolate(formulae);
      assert InterpolationOk(formulae, a);
      if a.Satisfiable? {
        return RefineNone, false, [];
      }
      var itps := Found(a);
      if a.Interpolants? {
        ItpsAreStateFormulas(p, formulae, itps);
      }
      var unseen := FreshPredicates(itps);
      freshPreds := unseen;
      if a.Interpolants? {
        AllExpressed(p, predset + ToSet(unseen), formulae, itps);
        RegionsGone(predset + ToSet(unseen), cex);
      }
      if unseen == [] {
        NothingToAdd(predset);
        return RefineFail, false, [];
      }
      NonEmptyGrows(predset, unseen);
      ghost var formulas := Asserting(cex);
      if opts.reducePreds {
        ghost var clean := Clean();
        var ok, red := ReducePredicates(cex, unseen);
        ReductionChosen(formulas, unseen, |cex| - 1, ok, red);
        if ok {
          if clean {
            RuledOutIsGone(p, predset + ToSet(red), cex);
          }
          if |red| < |unseen| {
            NonEmptyGrows(predset, red);
            AddAll(red);
            return RefineSuccess, true, unseen;
          }
          PartOf(red, unseen);
          PartOf(unseen, red);
          if clean {
            MorePredicatesRuleOut(p, predset + ToSet(red), predset + ToSet(unseen), cex);
            RuledOutIsGone(p, predset + ToSet(unseen), cex);
            reduced := true;
          }
        }
      } else {
        NothingReduced(formulas, unseen, |cex| - 1);
      }
      AddAll(unseen);
      res := RefineSuccess;
    }

    /** The outcome of a reduction in terms of what is added. */
    lemma {:induction false} ReductionChosen(
        formulas: seq<Term>, unseen: seq<Term>, steps: nat, ok: bool, red: seq<Term>)
      requires steps > 0 && opts.reducePreds
      requires var a := reduce(formulas, Assumptions(p, unseen, steps));
        if !a.Core? then !ok
        else |a.keep| == |unseen| && ok == (red != []) && forall q :: q in red <==> Selected(unseen, a.keep, q)
      requires ok ==> forall q :: q in red ==> q in unseen
      ensures Chosen(formulas, unseen, steps) == if ok then ToSet(red) else ToSet(unseen)
    {
      hide Selected, Assumptions;
      if ok {
        assert red[0] in red;
      }
    }

    lemma {:induction false} NothingReduced(formulas: seq<Term>, unseen: seq<Term>, steps: nat)
      requires steps > 0 && !opts.reducePreds
      ensures Chosen(formulas, unseen, steps) == ToSet(unseen)
    {
    }

    lemma {:induction false} NothingToAdd(known: set<Term>)
      ensures known + ToSet([]) == known
    {
    }

    lemma {:induction false} NonEmptyGrows(known: set<Term>, preds: seq<Term>)
      requires preds != [] && forall q :: q in preds ==> q !in known
      ensures known + ToSet(preds) > known
    {
      assert preds[0] in ToSet(preds);
    }

    lemma {:induction false} PartOf(some: seq<Term>, all: seq<Term>)
      requires forall q :: q in some ==> q in all
      ensures ToSet(some) <= ToSet(all)
    {
    }

    /** Ruling out the interpolated formulas rules out the old counterexample in both modes. */
    lemma {:induction false} RegionsGone(preds: set<Term>, cex: seq<Term>)
      requires |cex| > 1 && RuledOut(p, preds, Regions(cex))
      ensures TraceGone(p, preds, cex)
    {
      hide RuledOut, TraceGone;
      if opts.simCex {
        assert Regions(cex) == cex;
        RuledOutIsGone(p, preds, cex);
      } else {
        BmcRulesOutTrace(p, preds, Regions(cex), cex);
      }
    }

    lemma {:induction false} AllExpressed(q: Problem, preds: set<Term>, formulae: seq<Term>, itps: seq<Term>)
      requires q == p && Fit() && AreInterpolants(p, formulae, itps)
      requires forall t :: t in itps ==> OnlyCurr(t, p.v.vars) && ToSet(getPredicates(t)) <= preds
      ensures RuledOut(p, preds, formulae)
    {
      hide Determines, RuledOut, AreInterpolants;
      forall k | 0 <= k < |itps| ensures Determines(p, preds, itps[k]) {
        assert itps[k] in itps;
        MorePredicates(p, ToSet(getPredicates(itps[k])), preds, itps[k]);
      }
      InterpolantsRuleOut(p, preds, formulae, itps);
    }
  }

  lemma {:induction false} AbstractMeans(p: Problem)
    requires p.WellFormed()
    ensures TransMeans(p, Abstract(p, p.v.trans), {})
  {
    hide Eval, Subst, Occurs, Hat;
    forall s, i, t | AreStates(p, s, t)
      ensures Holds(Abstract(p, p.v.trans), EnvOf(s, i, t), p.th) <==> AbsStep(p, {}, s, i, t)
    {
      HatEnv(p, p.v.trans, s, i, t);
    }
  }

  lemma {:induction false} BoolPredicateFree(p: Problem, trans: Term, preds: set<Term>, n: Name)
    requires n in p.boolVars && n in p.v.vars && TransMeans(p, trans, preds)
    ensures TransMeans(p, trans, preds + {Sym(Cur(n))})
  {
    hide Holds;
    forall s, i, t | AreStates(p, s, t)
      ensures AbsStep(p, preds, s, i, t) == AbsStep(p, preds + {Sym(Cur(n))}, s, i, t)
    {
      EvalSym(Cur(n), EnvOf(t, map[], t), p.th);
      EvalSym(Cur(n), EnvOf(Hat(p, i, t), map[], Hat(p, i, t)), p.th);
      AgreeWith(p, preds, Sym(Cur(n)), t, Hat(p, i, t));
    }
  }

  lemma {:induction false} AgreeWith(p: Problem, preds: set<Term>, q: Term, s: State, t: State)
    ensures AgreeOn(p, preds + {q}, s, t) <==> AgreeOn(p, preds, s, t) && ValueIn(q, s, p.th) == ValueIn(q, t, p.th)
  {
    hide ValueIn;
  }

  lemma {:induction false} RefinedMeans(p: Problem, trans: Term, preds: set<Term>, pred: Term)
    requires OnlyCurr(pred, p.v.vars) && TransMeans(p, trans, preds)
    ensures TransMeans(p, MkAnd(trans, PredicateRefinement(p, pred)), preds + {pred})
  {
    hide Eval, OnlyCurr, Hat, ValueIn, AgreeOn, PredicateRefinement;
    forall s, i, t | AreStates(p, s, t)
      ensures Holds(MkAnd(trans, PredicateRefinement(p, pred)), EnvOf(s, i, t), p.th) <==>
        AbsStep(p, preds + {pred}, s, i, t)
    {
      EvalAnd(trans, PredicateRefinement(p, pred), EnvOf(s, i, t), p.th);
      RefinementMeans(p, pred, s, i, t);
      AgreeWith(p, preds, pred, t, Hat(p, i, t));
    }
  }

  lemma {:induction false} ItpsAreStateFormulas(p: Problem, formulae: seq<Term>, itps: seq<Term>)
    requires AreInterpolants(p, formulae, itps)
    ensures forall t :: t in itps ==> OnlyCurr(t, p.v.vars)
  {
  }
}
