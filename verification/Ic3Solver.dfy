/**
  What IC3 asserts into its SMT solvers, read semantically, and the only thing
  assumed of those solvers: a satisfiable answer comes with a model, an
  unsatisfiable one with assumptions that cannot hold together.
 */
module Ic3Solver {
  import opened Runs
  import opened Ic3Formulas

  /** A Boolean transition system with its state variables. */
  datatype Problem = Problem(ts: System<State, Input>, vars: seq<nat>, deterministic: bool) {

    ghost predicate Dom(s: State) {
      forall v :: v in s ==> v in vars
    }

    ghost predicate HasSuccessor(s: State, i: Input) {
      exists t :: ts.trans(s, i, t)
    }

    /**
      init and trans speak about the state variables; a deterministic system has exactly one successor for
      every input.
     */
    ghost predicate WellFormed() {
      && (forall s :: ts.init(s) ==> Dom(s))
      && (forall s, i, t :: ts.trans(s, i, t) ==> Dom(s) && Dom(t))
      && (deterministic ==>
            && (forall s, i :: Dom(s) ==> HasSuccessor(s, i))
            && (forall s, i, t, u :: ts.trans(s, i, t) && ts.trans(s, i, u) ==> t == u))
    }
  }

  /** A formula over current-state variables. */
  datatype Term = InitTerm | BadTerm | Unit(f: IC3Formula)

  ghost predicate Holds(p: Problem, t: Term, s: State) {
    match t
    case InitTerm => p.ts.init(s)
    case BadTerm => p.ts.bad(s)
    case Unit(f) => Eval(f, s)
  }

  /** Delta encoding: a clause is stored only in the highest frame where it is known to hold. */
  type Frames = seq<seq<IC3Formula>>

  /**
    `get_frame_term`: frame 0 is init, any other frame is the property and every clause stored at its level
    or above.
   */
  ghost predicate FrameHolds(p: Problem, fr: Frames, i: nat, s: State) {
    if i == 0 then
      p.ts.init(s)
    else
      !p.ts.bad(s) && forall j, f :: i <= j < |fr| && f in fr[j] ==> Eval(f, s)
  }

  /**
    `assert_frame_labels`: what labels `i` and above switch on, when `store[j]` is all
    that was asserted under label `j`; every label but the first also implies the property.
   */
  ghost predicate LabelsHold(p: Problem, store: Frames, i: nat, s: State) {
    && (i == 0 && |store| > 0 ==> p.ts.init(s))
    && (i < |store| && 1 < |store| ==> !p.ts.bad(s))
    && (forall j, f :: i <= j < |store| && f in store[j] ==> Eval(f, s))
  }

  datatype Model = Model(cur: State, inp: Input, nxt: State)

  datatype Assertion =
    | FrameLabels(store: Frames, from: nat)
    | Now(t: Term)
    | NowNot(t: Term)
    | Trans
    | Next(t: Term)
    | NextNot(t: Term)
    | InputIs(i: Input)
    | NextIs(s: State)
    | NotPreimage(fr: Frames, idx: nat, t: Term)

  ghost predicate Satisfies(p: Problem, m: Model, a: Assertion) {
    match a
    case FrameLabels(store, from) => LabelsHold(p, store, from, m.cur)
    case Now(t) => Holds(p, t, m.cur)
    case NowNot(t) => !Holds(p, t, m.cur)
    case Trans => p.ts.trans(m.cur, m.inp, m.nxt)
    case Next(t) => Holds(p, t, m.nxt)
    case NextNot(t) => !Holds(p, t, m.nxt)
    case InputIs(i) => m.inp == i
    case NextIs(s) => m.nxt == s
    case NotPreimage(fr, idx, t) =>
      !(&& FrameHolds(p, fr, idx, m.cur)
        && p.ts.trans(m.cur, m.inp, m.nxt)
        && !Holds(p, t, m.cur)
        && Holds(p, t, m.nxt))
  }

  /** A literal over a current-state or a next-state variable, used as an assumption. */
  datatype Assumption = CurLit(l: Lit) | NxtLit(l: Lit)

  ghost predicate Assumed(m: Model, a: Assumption) {
    match a
    case CurLit(l) => LitHolds(l, m.cur)
    case NxtLit(l) => LitHolds(l, m.nxt)
  }

  ghost predicate IsModel(p: Problem, m: Model, stack: seq<Assertion>) {
    && p.Dom(m.cur) && p.Dom(m.nxt)
    && forall a :: a in stack ==> Satisfies(p, m, a)
  }

  datatype Answer = Sat(m: Model) | Unsat(core: set<Assumption>)

  ghost predicate AnswerOk(p: Problem, stack: seq<Assertion>, ps: seq<Assumption>, r: Answer) {
    match r
    case Sat(m) => IsModel(p, m, stack) && forall q :: q in ps ==> Assumed(m, q)
    case Unsat(core) =>
      && (forall q :: q in core ==> q in ps)
      && forall m :: IsModel(p, m, stack) ==> exists q :: q in core && !Assumed(m, q)
  }

  /** A solver: its answer may depend on how many checks came before. */
  type Oracle = (nat, seq<Assertion>, seq<Assumption>) -> Answer

  ghost predicate Correct(p: Problem, o: Oracle) {
    forall n: nat, stack: seq<Assertion>, ps: seq<Assumption> :: AnswerOk(p, stack, ps, o(n, stack, ps))
  }

  /**
    Where the check of init against bad is inconclusive: it has a model, no later query with a transition
    has one, and frame 1 is still without clauses, so that propagation would report a proof of an unsafe system.
   */
  lemma {:induction false} UnknownStartMisleads() returns (p: Problem)
    ensures p.WellFormed() && !Safe(p.ts)
    ensures exists m :: IsModel(p, m, [Now(InitTerm), Now(BadTerm)])
    ensures forall m, stack :: Trans in stack ==> !IsModel(p, m, stack)
  {
    var s0: State := {};
    var stays := (s: State) => s == s0;
    p := Problem(System(stays, (s: State, i: Input, t: State) => false, stays), [], false);
    assert IsCex(p.ts, [s0]);
    CexIsUnsafe(p.ts, [s0]);
    assert IsModel(p, Model(s0, {}, s0), [Now(InitTerm), Now(BadTerm)]);
    forall m: Model ensures !Satisfies(p, m, Trans) {
    }
  }
}
