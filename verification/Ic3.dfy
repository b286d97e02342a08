/**
  The IC3 engine: delta-encoded frames strengthened by relative induction until
  two of them are equal or a chain of proof goals reaches init.
 */
module Ic3 {
  import opened Runs
  import opened Ic3Formulas
  import opened Ic3Solver
  import opened Ic3Frames
  import opened Ic3Queries
  import opened Ic3Goals
  import opened Ic3Measure

  datatype Options = Options(pregen: bool, indgen: bool, unsatcoreGen: bool)

  /** The frames and the goals between two rounds of blocking. */
  datatype Queued = Queued(fr: Frames, goals: seq<ProofGoal>)

  class IC3 {
    const p: Problem
    const opts: Options
    const solve: Oracle    // solver_
    const reduce: Oracle   // reducer_
    const canReset: bool   // whether the solver supports reset_assertions

    var initialized: bool
    var frames: Frames
    var store: Frames      // store[j]: the clauses asserted under frame label j since the last reset
    var reachedK: int
    var cex: seq<Term>
    var invar: seq<IC3Formula>
    var checks: nat
    var failedToReset: bool

    ghost predicate Fit() {
      p.WellFormed() && Correct(p, solve) && Correct(p, reduce)
    }

    /** The state between steps once bounds 0 and 1 are done. */
    ghost predicate Ready()
      reads `initialized, `frames, `store
    {
      && Fit() && initialized && |store| == |frames| >= 2
      && FramesOk(p, frames)
      && LabelsAgree(p, frames, store) && store[0] == []
    }

    /** The state before bound 1 is done. */
    ghost predicate Base()
      reads `initialized, `frames, `store, `reachedK
    {
      && Fit() && initialized
      && frames == [[], []] && store == [[], []]
      && -1 <= reachedK < 1
      && (reachedK == 0 ==> forall s :: p.ts.init(s) ==> !p.ts.bad(s))
    }

    /** reached_k_ is the number of transitions checked, and the index of the last frame. */
    ghost predicate Valid()
      reads `initialized, `frames, `store, `reachedK
    {
      if reachedK < 1 then Base() else Ready() && reachedK == |frames| - 1
    }

    constructor (p: Problem, opts: Options, solve: Oracle, reduce: Oracle, canReset: bool)
      ensures this.p == p && this.opts == opts && this.solve == solve && this.reduce == reduce
      ensures this.canReset == canReset
      ensures !initialized && !failedToReset
    {
      this.p, this.opts, this.solve, this.reduce, this.canReset := p, opts, solve, reduce, canReset;
      initialized, failedToReset, checks, reachedK := false, false, 0, -1;
      frames, store, cex, invar := [], [], [], [];
    }

    method Check(stack: seq<Assertion>, ps: seq<Assumption>) returns (a: Answer)
      requires Fit()
      modifies `checks
      ensures AnswerOk(p, stack, ps, a) && checks == old(checks) + 1 && a == solve(checks, stack, ps)
    {
      checks := checks + 1;
      a := solve(checks, stack, ps);
    }

    method Reduce(stack: seq<Assertion>, ps: seq<Assumption>) returns (a: Answer)
      requires Fit()
      modifies `checks
      ensures AnswerOk(p, stack, ps, a) && a == reduce(checks, stack, ps)
    {
      checks := checks + 1;
      a := reduce(checks, stack, ps);
    }

    /** The cube of a single state. */
    ghost predicate DenotesOne(c: IC3Formula) {
      exists s :: p.Dom(s) && forall t :: p.Dom(t) ==> (Eval(c, t) <==> t == s)
    }

    lemma {:induction false} OneState(c: IC3Formula, s: State)
      requires p.Dom(s) && Eval(c, s) && forall t :: p.Dom(t) && Eval(c, t) ==> t == s
      ensures DenotesOne(c)
    {
      hide Eval;
    }

    /** The cube of a full assignment. */
    method GetModelFormula(s: State) returns (out: IC3Formula)
      requires p.Dom(s)
      ensures !out.disjunction && Eval(out, s)
      ensures forall t :: p.Dom(t) && Eval(out, t) ==> t == s
      ensures DenotesOne(out)
    {
      hide DenotesOne;
      var children := [];
      for k := 0 to |p.vars|
        invariant forall l :: l in children ==> LitHolds(l, s)
        invariant forall v :: v in p.vars[..k] ==> Lit(v, v in s) in children
      {
        children := children + [Lit(p.vars[k], p.vars[k] in s)];
      }
      assert p.vars[..|p.vars|] == p.vars;
      out := Conjunction(children);
      forall t | p.Dom(t) && Eval(out, t) ensures t == s {
        forall v ensures v in t <==> v in s {
          if v in p.vars {
            assert LitHolds(Lit(v, v in s), t);
          }
        }
      }
      OneState(out, s);
    }

    /** Literals of `lits` whose assumption is in the core, and the others. */
    method SplitByCore(
        lits: seq<Lit>, labels: seq<Assumption>, core: set<Assumption>) returns (gen: seq<Lit>, rem: seq<Lit>)
      requires |labels| == |lits|
      ensures |gen| + |rem| == |lits|
      ensures forall l :: l in gen <==> exists k :: 0 <= k < |lits| && lits[k] == l && labels[k] in core
      ensures forall l :: l in rem <==> exists k :: 0 <= k < |lits| && lits[k] == l && labels[k] !in core
    {
      gen, rem := [], [];
      for j := 0 to |lits|
        invariant |gen| + |rem| == j
        invariant forall l :: l in gen <==> exists k :: 0 <= k < j && lits[k] == l && labels[k] in core
        invariant forall l :: l in rem <==> exists k :: 0 <= k < j && lits[k] == l && labels[k] !in core
      {
        if labels[j] !in core {
          rem := rem + [lits[j]];
        } else {
          gen := gen + [lits[j]];
        }
      }
    }

    lemma {:induction false} CurCore(lits: seq<Lit>, core: set<Assumption>, gen: seq<Lit>)
      requires forall l :: l in gen <==> exists k :: 0 <= k < |lits| && lits[k] == l && CurLits(lits)[k] in core
      ensures forall l :: l in gen <==> l in lits && CurLit(l) in core
    {
      forall l | l in lits ensures l in gen <==> CurLit(l) in core {
        var k :| 0 <= k < |lits| && lits[k] == l;
        assert CurLits(lits)[k] == CurLit(l);
      }
    }

    lemma {:induction false} NxtCoreSplit(lits: seq<Lit>, core: set<Assumption>, gen: seq<Lit>, rem: seq<Lit>)
      requires forall l :: l in gen <==> exists k :: 0 <= k < |lits| && lits[k] == l && NxtLits(lits)[k] in core
      requires forall l :: l in rem <==> exists k :: 0 <= k < |lits| && lits[k] == l && NxtLits(lits)[k] !in core
      ensures forall l :: l in gen <==> l in lits && NxtLit(l) in core
      ensures forall l :: l in rem <==> l in lits && NxtLit(l) !in core
    {
      forall l | l in lits ensures (l in gen <==> NxtLit(l) in core) && (l in rem <==> NxtLit(l) !in core) {
        var k :| 0 <= k < |lits| && lits[k] == l;
        assert NxtLits(lits)[k] == NxtLit(l);
      }
    }

    /** What is kept, and of the rest exactly what the reducer's core needs to avoid init. */
    ghost predicate PutBackForInit(toKeep: seq<Lit>, rem: seq<Lit>, kept: seq<Lit>)
      reads `checks
    {
      if rem == [] then kept == toKeep else
        var a := reduce(checks, [Now(InitTerm), Now(Unit(Conjunction(toKeep)))], CurLits(rem));
        a.Unsat? && forall l :: l in kept <==> l in toKeep || (l in rem && CurLit(l) in a.core)
    }

    /** The cube that a core leaves: its literals, and what avoiding init puts back. */
    ghost predicate CoreFixed(c: IC3Formula, core: set<Assumption>, out: IC3Formula)
      reads `checks
    {
      exists gen, rem, kept ::
        && (forall l :: l in gen <==> l in c.children && NxtLit(l) in core)
        && (forall l :: l in rem <==> l in c.children && NxtLit(l) !in core)
        && PutBackForInit(gen, rem, kept) && out == Conjunction(kept)
    }

    lemma {:induction false} CoreFixedBy(
        c: IC3Formula, core: set<Assumption>, gen: seq<Lit>, rem: seq<Lit>, kept: seq<Lit>)
      requires forall l :: l in gen <==> l in c.children && NxtLit(l) in core
      requires forall l :: l in rem <==> l in c.children && NxtLit(l) !in core
      requires PutBackForInit(gen, rem, kept)
      ensures CoreFixed(c, core, Conjunction(kept))
    {
      hide PutBackForInit;
    }

    /** Re-adds just enough of `rem` to keep the cube away from init. */
    method FixIfIntersectsInitial(toKeep: seq<Lit>, rem: seq<Lit>) returns (kept: seq<Lit>)
      requires Fit()
      requires forall s :: p.ts.init(s) ==> exists l :: (l in toKeep || l in rem) && !LitHolds(l, s)
      modifies `checks
      ensures |kept| <= |toKeep| + |rem| && forall l :: l in toKeep ==> l in kept
      ensures forall l :: l in kept ==> l in toKeep || l in rem
      ensures forall s :: p.ts.init(s) ==> exists l :: l in kept && !LitHolds(l, s)
      ensures PutBackForInit(toKeep, rem, kept)
    {
      kept := toKeep;
      if rem != [] {
        var labels := CurLits(rem);
        var formula := [Now(InitTerm), Now(Unit(Conjunction(toKeep)))];
        var a := Reduce(formula, labels);
        if a.Unsat? {
          var red, _ := SplitByCore(rem, labels, a.core);
          kept := toKeep + red;
          CurCore(rem, a.core, red);
          forall s | p.ts.init(s) ensures exists l :: l in kept && !LitHolds(l, s) {
            if Eval(Conjunction(toKeep), s) {
              assert IsModel(p, Model(s, {}, s), formula);
              var q :| q in a.core && !Assumed(Model(s, {}, s), q);
              var k :| 0 <= k < |rem| && labels[k] == q;
              assert rem[k] in red;
            } else {
              var l :| l in Conjunction(toKeep).children && !LitHolds(l, s);
              assert l in kept;
            }
          }
        } else {
          NoInitialModel(p, a.m, toKeep, rem);
        }
      }
    }

    /** The cube keeps exactly the literals in the core that the reducer has given for the preimage of `c`. */
    ghost predicate ReducedPreimage(i: nat, c: Term, m: Model, pred: IC3Formula, out: IC3Formula)
      requires i > 0
      reads `checks, `frames
    {
      var a := reduce(checks, PreimageQuery(p, frames, i - 1, c, m), CurLits(pred.children));
      a.Unsat? && forall l :: l in out.children <==> l in pred.children && CurLit(l) in a.core
    }

    ghost predicate IsReduced(i: nat, c: Term, out: IC3Formula)
      requires i > 0
      reads `checks, `frames
    {
      exists m, pred :: ReducedPreimage(i, c, m, pred, out)
    }

    /** A predecessor cube: every state in it steps into `c`. */
    method PredecessorGeneralization(i: nat, c: Term, m: Model, pred: IC3Formula) returns (out: IC3Formula)
      requires Ready() && 0 < i <= |frames|
      requires IsModel(p, m, [Trans, Next(c), NowNot(c)]) && FrameHolds(p, frames, i - 1, m.cur)
      requires !pred.disjunction && Eval(pred, m.cur)
      requires forall t :: p.Dom(t) && Eval(pred, t) ==> t == m.cur
      modifies `checks
      ensures SubCube(out, pred) && Eval(out, m.cur)
      ensures AllStep(p, out, c)
      ensures i == 1 ==> out == pred
      ensures i != 1 ==> ReducedPreimage(i, c, m, pred, out)
    {
      out := pred;
      assert AllStep(p, out, c) by { ModelSteps(p, m, c, pred); }
      if i != 1 {
        var labels := CurLits(pred.children);
        var formula := PreimageQuery(p, frames, i - 1, c, m);
        var a := Reduce(formula, labels);
        if a.Unsat? {
          var red, _ := SplitByCore(pred.children, labels, a.core);
          out := Conjunction(red);
          CurCore(pred.children, a.core, red);
          CoreSteps(p, frames, i - 1, c, m, a.core, out);
        } else {
          CoreExists(p, frames, i - 1, c, m, pred, a.m);
        }
      }
    }

    /** Whether `c` can be entered from frame `i - 1`: a generalised cube that cannot, or a predecessor. */
    method RelIndCheck(i: nat, c: IC3Formula, getPred: bool) returns (unsat: bool, out: IC3Formula)
      requires Ready() && 0 < i < |frames| && !c.disjunction && InitDisjoint(p, c)
      modifies `checks
      ensures unsat ==> SubCube(out, c) && |out.children| <= |c.children|
      ensures unsat && Sorted(c.children) ==> Sorted(out.children)
      ensures unsat ==> InitDisjoint(p, out) && NeverEnters(p, frames, i - 1, c, out)
      ensures !unsat ==> CanEnter(p, frames, i - 1, c)
      ensures !unsat && getPred ==> !out.disjunction && AllStep(p, out, Unit(c))
      ensures !unsat && getPred ==> Meets(p, frames, i - 1, out)
      ensures !unsat && getPred && opts.pregen && i > 1 ==> IsReduced(i, Unit(c), out)
      ensures !unsat && getPred && !(opts.pregen && i > 1) ==> DenotesOne(out)
      ensures unsat && !opts.unsatcoreGen ==> out == c
      ensures unsat && opts.unsatcoreGen ==>
        var a := solve(old(checks) + 1, RelIndQuery(store, i - 1, c), NxtLits(c.children));
        a.Unsat? && CoreFixed(c, a.core, out)
    {
      hide FramesOk, LabelsAgree, CoreFixed, PutBackForInit, ReducedPreimage, Sorted, DenotesOne;
      var labels := NxtLits(c.children);
      var a := Check(RelIndQuery(store, i - 1, c), labels);
      out := c;
      match a
      case Sat(m) =>
        unsat := false;
        RelIndModel(p, frames, store, i - 1, c, m);
        NxtCubeAssumed(m, c.children);
        assert Runs.Step(p.ts, m.cur, m.nxt);
        assert Enters(p, frames, i - 1, c, m.cur, m.nxt);
        if getPred {
          out := GetModelFormula(m.cur);
          ModelSteps(p, m, Unit(c), out);
          if opts.pregen {
            out := PredecessorGeneralization(i, Unit(c), m, out);
          }
        }
      case Unsat(core) =>
        unsat := true;
        if opts.unsatcoreGen {
          var gen, rem := SplitByCore(c.children, labels, core);
          NxtCoreSplit(c.children, core, gen, rem);
          var kept := FixIfIntersectsInitial(gen, rem);
          SortSorted(kept);
          out := Conjunction(kept);
          CoreFixedBy(c, core, gen, rem, kept);
        }
        RelIndCore(p, frames, store, i - 1, c, core, out);
    }

    method CheckIntersectsInitial(c: IC3Formula) returns (r: bool)
      requires Fit()
      modifies `checks
      ensures r <==> !InitDisjoint(p, c)
    {
      var query := [Now(InitTerm), Now(Unit(c))];
      var a := Check(query, []);
      r := a.Sat?;
      if r {
        assert Satisfies(p, a.m, query[0]) && Satisfies(p, a.m, query[1]);
      } else {
        forall s | p.ts.init(s) ensures !Eval(c, s) {
          assert !IsModel(p, Model(s, {}, s), query);
        }
      }
    }

    /** Tries the cube without its literal at `j`. */
    method TryDrop(i: nat, c: IC3Formula, gen: seq<Lit>, j: nat) returns (canDrop: bool, out: IC3Formula)
      requires Ready() && 0 < i < |frames| && j < |gen|
      requires Generalizes(p, frames, i - 1, c, gen)
      modifies `checks
      ensures canDrop ==> Generalizes(p, frames, i - 1, c, out.children) && |out.children| < |gen|
      ensures canDrop ==> LitSet(out.children) <= LitSet(gen) && Sorted(out.children)
      ensures !canDrop ==> Stuck(p, frames, i - 1, Conjunction(gen[..j] + gen[j + 1..]))
    {
      hide FramesOk, LabelsAgree, RelInductive, CanEnter, AllStep, Meets, Eval;
      var smaller := Conjunction(gen[..j] + gen[j + 1..]);
      SortSorted(gen[..j] + gen[j + 1..]);
      out := smaller;
      var intersects := CheckIntersectsInitial(smaller);
      if intersects {
        return false, out;
      }
      canDrop, out := RelIndCheck(i, smaller, false);
      if canDrop {
        DropMembers(gen, j);
        assert LitSet(out.children) <= LitSet(smaller.children);
        SmallerCubeInductive(p, frames, i - 1, smaller, out);
        SameCubeInductive(p, frames, i - 1, out, Conjunction(out.children));
      }
    }

    /**
      Greedily drops literals of `c`; the result blocks `c`, contains init and is inductive relative to
      frame `i - 1`.
     */
    method InductiveGeneralization(i: nat, c: IC3Formula) returns (block: IC3Formula)
      requires Ready() && 0 < i < |frames| && !c.disjunction
      requires InitDisjoint(p, c) && RelInductive(p, frames, i - 1, c)
      modifies `checks
      ensures block.disjunction && SubCube(Negate(block), c)
      ensures InitDisjoint(p, Negate(block)) && RelInductive(p, frames, i - 1, Negate(block))
      ensures TriedAll(p, frames, i - 1, c, Negate(block).children)
    {
      hide FramesOk, LabelsAgree, Searching, TriedAll, Stuck, InitDisjoint, RelInductive, Sorted;
      var necessary: set<Lit> := {};
      var gen := c.children;
      var j := 0;
      SearchStarts(p, frames, i - 1, c);
      while j < |gen| && |gen| > 1
        invariant j <= |gen| && Searching(p, frames, i - 1, c, gen, j, necessary)
        decreases |gen|, |LitSet(gen) - necessary|, |gen| - j
      {
        var dropped := gen[j];
        if dropped in necessary {
          SearchSkips(p, frames, i - 1, c, gen, j, necessary);
          j := j + 1;
          continue;
        }
        SearchGeneralizes(p, frames, i - 1, c, gen, j, necessary);
        var canDrop, out := TryDrop(i, c, gen, j);
        if canDrop {
          SearchDrops(p, frames, i - 1, c, gen, j, necessary, out.children);
          gen := out.children;
          j := 0;
        } else {
          SearchPutsBack(p, frames, i - 1, c, gen, j, necessary);
          necessary := necessary + {dropped};
          gen := Conjunction(gen[..j] + gen[j + 1..]).children + [dropped];
        }
      }
      var cube := Conjunction(gen);
      block := Negate(cube);
      SearchEnds(p, frames, i - 1, c, gen, j, necessary);
    }

    /** Pushes a clause as far forward as it stays inductive. */
    method FindHighestFrame(i: nat, u: IC3Formula) returns (j: nat, v: IC3Formula)
      requires Ready() && 0 < i < |frames| && u.disjunction
      requires InitDisjoint(p, Negate(u)) && RelInductive(p, frames, i - 1, Negate(u))
      modifies `checks
      ensures i <= j < |frames|
      ensures v.disjunction && SubCube(Negate(v), Negate(u))
      ensures InitDisjoint(p, Negate(v)) && RelInductive(p, frames, j - 1, Negate(v))
      ensures j < |frames| - 1 ==> CanEnter(p, frames, j, Negate(v))
    {
      var conj := Negate(u);
      j := i;
      while j < |frames| - 1
        invariant i <= j < |frames| && SubCube(conj, Negate(u))
        invariant InitDisjoint(p, conj) && RelInductive(p, frames, j - 1, conj)
      {
        var unsat, gen := RelIndCheck(j + 1, conj, false);
        if !unsat {
          break;
        }
        SmallerCubeInductive(p, frames, j, conj, gen);
        conj := gen;
        j := j + 1;
      }
      v := Negate(conj);
      DoubleNegation(conj);
      SameCubeInductive(p, frames, j - 1, conj, Negate(v));
      if j < |frames| - 1 {
        SameCubeEnter(p, frames, j, conj, Negate(v));
      }
    }

    method PushFrame()
      requires |store| == |frames|
      modifies `frames, `store
      ensures frames == old(frames) + [[]] && store == old(store) + [[]]
    {
      store := store + [[]];
      frames := frames + [[]];
    }

    /** Opens a frame above one that does not lead to bad. */
    method PushFrameKeeps()
      requires Ready() && AvoidsBadNext(p, frames, |frames| - 1)
      modifies `frames, `store
      ensures Ready() && frames == old(frames) + [[]] && Stronger(p, frames, old(frames))
    {
      PushedFrameOk(p, frames, store);
      PushFrame();
    }

    /** Keeps the clauses of a level that `cl` does not subsume, compacting it in place. */
    method Compact(cl: IC3Formula, level: seq<IC3Formula>) returns (r: seq<IC3Formula>)
      ensures r == Unsubsumed(cl, level)
    {
      hide Unsubsumed, Subsumes;
      r := level;
      var k := 0;
      NothingUnsubsumed(cl);
      for l := 0 to |level|
        invariant |r| == |level| && k <= l
        invariant r[l..] == level[l..] && r[..k] == Unsubsumed(cl, level[..l])
      {
        CompactStep(cl, level, r, k, l);
        if !Subsumes(cl, r[l]) {
          r := r[k := r[l]];
          k := k + 1;
        }
      }
      assert level[..|level|] == level;
      r := r[..k];
    }

    /** Adds a clause to frame `i` and, implicitly, to every lower frame. */
    method ConstrainFrame(i: nat, cl: IC3Formula, isNew: bool)
      requires |store| == |frames| && 0 < i < |frames|
      modifies `frames, `store
      ensures store == old(store)[i := old(store)[i] + [cl]]
      ensures frames == Constrained(old(frames), i, cl, isNew)
    {
      ghost var fr := frames;
      if isNew {
        for j := 1 to i + 1
          invariant |frames| == |fr| && store == old(store)
          invariant forall m :: 1 <= m < j ==> frames[m] == Unsubsumed(cl, fr[m])
          invariant forall m :: j <= m < |fr| ==> frames[m] == fr[m]
          invariant frames[0] == fr[0]
        {
          var level := Compact(cl, frames[j]);
          frames := frames[j := level];
        }
      }
      store := store[i := store[i] + [cl]];
      frames := frames[i := frames[i] + [cl]];
      forall m | 0 <= m < |fr| ensures frames[m] == Constrained(fr, i, cl, isNew)[m] {
        assert m != i ==> frames[m] == frames[m] + [];
      }
    }

    /** Learns the negation of a cube that is inductive relative to frame `i - 1`. */
    method LearnClause(i: nat, cl: IC3Formula)
      requires Ready() && 0 < i < |frames| && cl.disjunction
      requires InitDisjoint(p, Negate(cl)) && RelInductive(p, frames, i - 1, Negate(cl))
      modifies `frames, `store
      ensures Ready() && Blocks(p, old(frames), frames, i, Negate(cl))
      ensures frames == Constrained(old(frames), i, cl, true)
    {
      ConstrainFrame(i, cl, true);
      ConstrainedBlocks(p, old(frames), i, cl, true);
      ConstrainedLabels(p, old(store), i, cl);
      BlockingKeepsFrames(p, old(frames), frames, i, Negate(cl));
    }

    method ResetSolver()
      requires Ready()
      modifies `store, `failedToReset
      ensures Ready()
      ensures store == if canReset && !old(failedToReset) then frames else old(store)
      ensures failedToReset == (old(failedToReset) || !canReset)
    {
      if failedToReset {
        return;
      }
      if canReset {
        store := [];
        for i := 0 to |frames|
          invariant store == frames[..i] && failedToReset == old(failedToReset)
        {
          store := store + [[]];
          for k := 0 to |frames[i]|
            invariant store == frames[..i] + [frames[i][..k]] && failedToReset == old(failedToReset)
          {
            assert frames[i][..k + 1] == frames[i][..k] + [frames[i][k]];
            store := store[i := store[i] + [frames[i][k]]];
          }
          assert frames[i][..|frames[i]|] == frames[i];
          assert frames[..i + 1] == frames[..i] + [frames[i]];
        }
        assert store == frames;
        ResetLabelsAgree(p, frames);
      } else {
        failedToReset := true;
      }
    }

    /** The clauses of `get_frame_term(i)`; the property is implicit. */
    method GetFrameTerm(i: nat) returns (res: seq<IC3Formula>)
      requires 0 < i < |frames|
      ensures forall f :: f in res <==> exists j :: i <= j < |frames| && f in frames[j]
    {
      res := [];
      for j := i to |frames|
        invariant forall f :: f in res <==> exists m :: i <= m < j && f in frames[m]
      {
        res := res + frames[j];
      }
    }

    method IsBlocked(g: ProofGoal) returns (r: bool)
      requires Ready() && !g.target.disjunction && 0 < g.idx < |frames|
      modifies `checks
      ensures r <==> Blocked(p, frames, g)
    {
      var neg := Negate(g.target);
      for i := g.idx to |frames| {
        for j := 0 to |frames[i]| {
          if Subsumes(frames[i][j], neg) {
            SubsumedIsBlocked(p, frames, g, i, frames[i][j]);
            return true;
          }
        }
      }
      var query := [FrameLabels(store, g.idx), Now(Unit(g.target))];
      var a := Check(query, []);
      r := a.Unsat?;
      assert query[0] in query && query[1] in query;
      forall s | p.Dom(s) && FrameHolds(p, frames, g.idx, s) && Eval(g.target, s) ensures !r {
        assert IsModel(p, Model(s, {}, s), query);
      }
    }

    method ReachesBad() returns (r: bool, out: IC3Formula)
      requires Ready()
      modifies `checks
      ensures r ==> !out.disjunction && AllStep(p, out, BadTerm) && Meets(p, frames, |frames| - 1, out)
      ensures !r ==> AvoidsBadNext(p, frames, |frames| - 1)
      ensures r ==> if opts.pregen then IsReduced(|frames|, BadTerm, out) else DenotesOne(out)
    {
      hide DenotesOne, ReducedPreimage;
      var query := [FrameLabels(store, |frames| - 1), Next(BadTerm), Trans];
      var a := Check(query, []);
      assert query[0] in query && query[1] in query && query[2] in query;
      out := Conjunction([]);
      match a
      case Sat(m) =>
        r := true;
        out := GetModelFormula(m.cur);
        ModelSteps(p, m, BadTerm, out);
        if opts.pregen {
          out := PredecessorGeneralization(|frames|, BadTerm, m, out);
        }
      case Unsat(_) =>
        r := false;
        forall s, t | FrameHolds(p, frames, |frames| - 1, s) && Runs.Step(p.ts, s, t) ensures !p.ts.bad(t) {
          var inp :| p.ts.trans(s, inp, t);
          assert !IsModel(p, Model(s, inp, t), query);
        }
    }

    method ReconstructTrace(g: ProofGoal)
      modifies `cex
      ensures cex == TraceOf(g)
    {
      cex := [];
      var pg := Some(g);
      while pg.Some?
        invariant TraceOf(g) == cex + if pg.Some? then TraceOf(pg.value) else [BadTerm]
        decreases pg
      {
        ghost var rest := if pg.value.next.Some? then TraceOf(pg.value.next.value) else [BadTerm];
        assert TraceOf(pg.value) == [Unit(pg.value.target)] + rest;
        assert cex + ([Unit(pg.value.target)] + rest) == cex + [Unit(pg.value.target)] + rest;
        cex := cex + [Unit(pg.value.target)];
        pg := pg.value.next;
      }
      cex := cex + [BadTerm];
    }

    /** Learns a clause that blocks a goal, as far forward as it stays inductive. */
    method BlockGoal(pg: ProofGoal, collateral: IC3Formula)
      returns (idx: nat, ghost u: IC3Formula, ghost learned: IC3Formula)
      requires Ready() && GoalOk(p, frames, pg) && !Blocked(p, frames, pg)
      requires 0 < pg.idx < |frames| && !pg.target.disjunction
      requires SubCube(collateral, pg.target) && InitDisjoint(p, collateral)
      requires NeverEnters(p, frames, pg.idx - 1, pg.target, collateral)
      modifies `frames, `store, `checks
      ensures Ready() && |frames| == old(|frames|) && Stronger(p, frames, old(frames))
      ensures Total(p, frames, |frames| - 1) < old(Total(p, frames, |frames| - 1))
      ensures pg.idx <= idx < |frames|
      ensures Blocked(p, frames, pg)
      ensures idx + 1 < |frames| ==> GoalOk(p, frames, pg.(idx := idx + 1))
      ensures LearnedFrom(old(frames), pg, collateral, frames, idx, u, learned)
    {
      hide FramesOk, LabelsAgree, RelInductive, NeverEnters, InitDisjoint, Blocks, Stronger, Blocked, GoalOk, Total;
      hide TriedAll, CanEnter;
      SmallerCubeInductive(p, frames, pg.idx - 1, pg.target, collateral);
      var cl;
      if opts.indgen {
        cl := InductiveGeneralization(pg.idx, collateral);
      } else {
        cl := Negate(collateral);
        DoubleNegation(collateral);
        SameCubeInductive(p, frames, pg.idx - 1, collateral, Negate(cl));
      }
      var clause;
      idx, clause := FindHighestFrame(pg.idx, cl);
      ghost var fr := frames;
      LearnClause(idx, clause);
      u, learned := cl, clause;
      LearnedBlocksGoal(p, fr, frames, idx, pg, Negate(learned));
    }

    /**
      The clause stored for a goal: a part of a generalisation whose every literal was tried, taken as far
      forward as it stays inductive, with what it subsumes deleted.
     */
    ghost predicate LearnedFrom(
        fr: Frames, pg: ProofGoal, collateral: IC3Formula, fr': Frames, idx: nat, u: IC3Formula, learned: IC3Formula)
      requires 0 < pg.idx < |fr|
    {
      && pg.idx <= idx < |fr| && fr' == Constrained(fr, idx, learned, true)
      && SubCube(Negate(learned), Negate(u)) && SubCube(Negate(u), collateral)
      && (opts.indgen ==> TriedAll(p, fr, pg.idx - 1, collateral, Negate(u).children))
      && (idx < |fr| - 1 ==> CanEnter(p, fr, idx, Negate(learned)))
    }

    /** What one round makes of the lowest goal and its frames. */
    ghost predicate Handled(fr: Frames, goals: seq<ProofGoal>, fr': Frames, goals': seq<ProofGoal>)
      requires goals != [] && 0 < goals[TopIndex(goals)].idx < |fr|
    {
      var pg := goals[TopIndex(goals)];
      if Blocked(p, fr, pg) then fr' == fr && goals' == WithoutTop(goals)
      else if CanEnter(p, fr, pg.idx - 1, pg.target) then fr' == fr && PredecessorAsked(fr, goals, pg, goals')
      else exists idx: nat, c, u, learned ::
        LearnedFrom(fr, pg, c, fr', idx, u, learned) && MovedUp(fr, goals, pg, c, idx, goals')
    }

    /** The goal is asked again one frame above the clause, unless that is the frontier. */
    ghost predicate MovedUp(
        fr: Frames, goals: seq<ProofGoal>, pg: ProofGoal, c: IC3Formula, idx: nat, goals': seq<ProofGoal>)
      requires goals != []
    {
      SubCube(c, pg.target) && goals' == WithoutTop(goals) + if idx < |fr| - 1 then [pg.(idx := idx + 1)] else []
    }

    /** A cube of the frame below that steps into the goal from each of its states is queued. */
    ghost predicate PredecessorAsked(fr: Frames, goals: seq<ProofGoal>, pg: ProofGoal, goals': seq<ProofGoal>)
      requires pg.idx > 0
    {
      && |goals'| == |goals| + 1 && goals'[..|goals|] == goals
      && var pred := goals'[|goals|];
        && pred == ProofGoal(pred.target, pg.idx - 1, Some(pg))
        && AllStep(p, pred.target, Unit(pg.target)) && Meets(p, fr, pg.idx - 1, pred.target)
    }

    /** Blocks the lowest goal, and asks for it again one frame above the clause. */
    method BlockAndRequeue(proofGoals: ProofGoalQueue, collateral: IC3Formula)
      requires Ready() && proofGoals.goals != [] && QueueOk(p, frames, proofGoals.goals)
      requires var pg := proofGoals.goals[TopIndex(proofGoals.goals)];
        && 0 < pg.idx < |frames| && !Blocked(p, frames, pg) && !CanEnter(p, frames, pg.idx - 1, pg.target)
        && SubCube(collateral, pg.target) && InitDisjoint(p, collateral)
        && NeverEnters(p, frames, pg.idx - 1, pg.target, collateral)
      modifies `frames, `store, `checks, proofGoals
      ensures Ready() && |frames| == old(|frames|) && Stronger(p, frames, old(frames))
      ensures QueueOk(p, frames, proofGoals.goals)
      ensures Progress(p, old(frames), old(proofGoals.goals), frames, proofGoals.goals)
      ensures 0 < TopFrame(old(proofGoals.goals)) < |frames|
      ensures Handled(old(frames), old(proofGoals.goals), frames, proofGoals.goals)
    {
      hide FramesOk, LabelsAgree, NeverEnters, InitDisjoint, Stronger, Blocked;
      hide GoalOk, QueueOk, Meets, SubCube, CanEnter, LearnedFrom, Total;
      ghost var fr, goals := frames, proofGoals.goals;
      var pg := proofGoals.Top();
      QueueTop(p, frames, proofGoals.goals);
      proofGoals.Pop();
      var idx; ghost var u; ghost var learned;
      idx, u, learned := BlockGoal(pg, collateral);
      QueueSurvives(p, fr, frames, proofGoals.goals);
      if idx < |frames| - 1 {
        QueuePush(p, frames, proofGoals.goals, pg.(idx := idx + 1));
        proofGoals.NewProofGoal(pg.target, idx + 1, pg.next);
      }
      assert MovedUp(fr, goals, pg, collateral, idx, proofGoals.goals);
    }

    /** A goal that is blocked already is dropped. */
    lemma {:induction false} SkipHandled(goals: seq<ProofGoal>)
      requires goals != [] && |frames| > 0
      requires 0 < goals[TopIndex(goals)].idx < |frames| && Blocked(p, frames, goals[TopIndex(goals)])
      ensures Handled(frames, goals, frames, WithoutTop(goals)) && Progress(p, frames, goals, frames, WithoutTop(goals))
    {
      hide Blocked;
      BlockedCountPop(p, frames, goals);
    }

    /** A predecessor is queued below the goal. */
    lemma {:induction false} AskHandled(goals: seq<ProofGoal>, target: IC3Formula)
      requires Ready() && goals != [] && QueueOk(p, frames, goals)
      requires var pg := goals[TopIndex(goals)];
        && 0 < pg.idx < |frames| && !Blocked(p, frames, pg) && CanEnter(p, frames, pg.idx - 1, pg.target)
        && !target.disjunction && AllStep(p, target, Unit(pg.target)) && Meets(p, frames, pg.idx - 1, target)
      ensures var pg := goals[TopIndex(goals)];
        var more := goals + [ProofGoal(target, pg.idx - 1, Some(pg))];
        QueueOk(p, frames, more) && Handled(frames, goals, frames, more) && Progress(p, frames, goals, frames, more)
    {
      hide Blocked, CanEnter, AllStep, Meets, FramesOk, LabelsAgree, QueueOk, GoalOk;
      var pg := goals[TopIndex(goals)];
      var pred := ProofGoal(target, pg.idx - 1, Some(pg));
      QueueTop(p, frames, goals);
      PredecessorOk(p, frames, pg, target);
      QueuePush(p, frames, goals, pred);
      BlockedCountPush(p, frames, goals, pred);
    }

    /** One round on the lowest goal: give up, skip it, block it or ask for a predecessor. */
    method BlockTop(proofGoals: ProofGoalQueue) returns (r: bool)
      requires Ready() && proofGoals.goals != [] && QueueOk(p, frames, proofGoals.goals)
      modifies `frames, `store, `checks, `cex, proofGoals
      ensures Ready() && |frames| == old(|frames|) && Stronger(p, frames, old(frames))
      ensures !r ==> exists run :: Concretizes(p, cex, run)
      ensures r ==> QueueOk(p, frames, proofGoals.goals)
      ensures r ==> Progress(p, old(frames), old(proofGoals.goals), frames, proofGoals.goals)
      ensures r ==> 0 < TopFrame(old(proofGoals.goals)) < |frames|
      ensures r ==> Handled(old(frames), old(proofGoals.goals), frames, proofGoals.goals)
    {
      hide FramesOk, LabelsAgree, NeverEnters, InitDisjoint, Stronger, Blocked, Handled, Progress;
      hide GoalOk, QueueOk, AllStep, Meets, SubCube, CanEnter, LearnedFrom, IsReduced, CoreFixed;
      r := true;
      StrongerReflexive(p, frames);
      var pg := proofGoals.Top();
      QueueTop(p, frames, proofGoals.goals);
      if pg.idx == 0 {
        ReconstructTrace(pg);
        GoalAtInitIsCex(p, frames, pg);
        proofGoals.Clear();
        return false;
      }
      var blocked := IsBlocked(pg);
      if blocked {
        SkipHandled(proofGoals.goals);
        proofGoals.Pop();
        return;
      }
      GoalInitDisjoint(p, frames, pg);
      var unsat, collateral := RelIndCheck(pg.idx, pg.target, true);
      if unsat {
        NeverEntered(p, frames, pg.idx - 1, pg.target, collateral);
        BlockAndRequeue(proofGoals, collateral);
      } else {
        AskHandled(proofGoals.goals, collateral);
        proofGoals.NewProofGoal(collateral, pg.idx - 1, Some(pg));
      }
    }

    /** The `n`-th round handles the lowest goal that the one before has left. */
    ghost predicate Follows(rounds: seq<Queued>, n: nat)
      requires 0 < n < |rounds|
    {
      var was := rounds[n - 1];
      && was.goals != [] && 0 < was.goals[TopIndex(was.goals)].idx < |was.fr|
      && Handled(was.fr, was.goals, rounds[n].fr, rounds[n].goals)
    }

    ghost predicate AreRounds(rounds: seq<Queued>) {
      |rounds| > 0 && forall n: nat :: 0 < n < |rounds| ==> Follows(rounds, n)
    }

    lemma {:induction false} FirstRound(start: Queued)
      ensures AreRounds([start])
    {
    }

    lemma {:induction false} NextRound(rounds: seq<Queued>, next: Queued)
      requires AreRounds(rounds)
      requires var was := rounds[|rounds| - 1];
        && was.goals != [] && 0 < was.goals[TopIndex(was.goals)].idx < |was.fr|
        && Handled(was.fr, was.goals, next.fr, next.goals)
      ensures AreRounds(rounds + [next])
    {
      hide Handled;
      forall n: nat | 0 < n < |rounds + [next]| ensures Follows(rounds + [next], n) {
        assert n < |rounds| ==> Follows(rounds, n);
      }
    }

    /** Works off the queue, lowest frame first; `rounds` are the frames and the goals in between. */
    method BlockGoals(proofGoals: ProofGoalQueue) returns (r: bool, ghost rounds: seq<Queued>)
      requires Ready() && proofGoals.goals != [] && QueueOk(p, frames, proofGoals.goals)
      requires BlockedCount(p, frames, proofGoals.goals) == 0
      modifies `frames, `store, `checks, `cex, proofGoals
      ensures Ready() && |frames| == old(|frames|) && Stronger(p, frames, old(frames))
      ensures !r ==> exists run :: Concretizes(p, cex, run)
      ensures r ==> proofGoals.goals == []
      ensures r ==> Total(p, frames, |frames| - 1) < old(Total(p, frames, |frames| - 1))
      ensures AreRounds(rounds) && rounds[0] == Queued(old(frames), old(proofGoals.goals))
      ensures r ==> rounds[|rounds| - 1] == Queued(frames, [])
    {
      hide FramesOk, LabelsAgree, Stronger, QueueOk, Concretizes, Handled, Blocked, AreRounds;
      ghost var last := |frames| - 1;
      ghost var fr0 := frames;
      StrongerReflexive(p, frames);
      r := true;
      rounds := [Queued(frames, proofGoals.goals)];
      FirstRound(rounds[0]);
      while r && proofGoals.goals != []
        invariant Ready() && |frames| == last + 1 && Stronger(p, frames, fr0)
        invariant r ==> QueueOk(p, frames, proofGoals.goals)
        invariant !r ==> exists run :: Concretizes(p, cex, run)
        invariant |rounds| > 0 && AreRounds(rounds) && rounds[0] == Queued(fr0, old(proofGoals.goals))
        invariant r ==> rounds[|rounds| - 1] == Queued(frames, proofGoals.goals)
        invariant r ==> Total(p, frames, last) < Total(p, fr0, last)
                        || (frames == fr0 && proofGoals.goals != [] && BlockedCount(p, frames, proofGoals.goals) == 0)
        decreases r, Total(p, frames, last), BlockedCount(p, frames, proofGoals.goals), TopFrame(proofGoals.goals)
      {
        ghost var fr := frames;
        r := BlockTop(proofGoals);
        StrongerTransitive(p, frames, fr, fr0);
        if r {
          NextRound(rounds, Queued(frames, proofGoals.goals));
          rounds := rounds + [Queued(frames, proofGoals.goals)];
        }
      }
    }

    /** Blocks every goal up to the frontier, or finds a counterexample. */
    method BlockAll() returns (r: bool)
      requires Ready()
      modifies `frames, `store, `checks, `cex
      ensures Ready() && |frames| == old(|frames|) && Stronger(p, frames, old(frames))
      ensures r ==> AvoidsBadNext(p, frames, |frames| - 1)
      ensures !r ==> exists run :: Concretizes(p, cex, run)
      ensures old(AvoidsBadNext(p, frames, |frames| - 1)) ==> r && frames == old(frames)
    {
      hide FramesOk, LabelsAgree, Stronger, GoalOk, AllStep, Meets, AvoidsBadNext, Concretizes, AreRounds;
      hide DenotesOne, IsReduced, Total;
      ghost var last := |frames| - 1;
      ghost var fr0 := frames;
      StrongerReflexive(p, frames);
      var proofGoals := new ProofGoalQueue();
      var found, goal := ReachesBad();
      while found
        invariant Ready() && |frames| == last + 1 && Stronger(p, frames, fr0)
        invariant proofGoals.goals == [] && fresh(proofGoals)
        invariant found ==> !goal.disjunction && AllStep(p, goal, BadTerm) && Meets(p, frames, last, goal)
        invariant !found ==> AvoidsBadNext(p, frames, last)
        invariant AvoidsBadNext(p, fr0, last) ==> frames == fr0
        decreases Total(p, frames, last), found
      {
        FrontierIsUnsafe(p, frames, last, goal);
        FrontierGoalOk(p, frames, goal);
        BlockedCountPush(p, frames, [], ProofGoal(goal, last, None));
        proofGoals.NewProofGoal(goal, |frames| - 1, None);
        ghost var fr := frames;
        var blocked; ghost var rounds;
        blocked, rounds := BlockGoals(proofGoals);
        StrongerTransitive(p, frames, fr, fr0);
        if !blocked {
          return false;
        }
        found, goal := ReachesBad();
      }
      r := true;
    }

    /** Moves one clause of frame `i` forward, or keeps it and compacts the frame. */
    method PropagateClause(i: nat, j: nat, k: nat) returns (pushed: bool, ghost gen: IC3Formula)
      requires Ready() && 0 < i < |frames| - 1 && k <= j < |frames[i]|
      requires AllCovered(p, frames, i, k, j)
      modifies `frames, `store, `checks
      ensures Ready() && |frames| == old(|frames|) && Stronger(p, frames, old(frames))
      ensures OthersKept(old(frames), frames, i)
      ensures frames[i] == if pushed then old(frames)[i] else old(frames)[i][k := old(frames)[i][j]]
      ensures frames[i + 1] == old(frames)[i + 1] + if pushed then [Negate(gen)] else []
      ensures pushed ==> AllCovered(p, frames, i, k, j + 1) && SubCube(gen, Negate(old(frames)[i][j]))
      ensures pushed && !opts.unsatcoreGen ==> gen == Negate(old(frames)[i][j])
      ensures pushed && opts.unsatcoreGen ==>
        var c := Negate(old(frames)[i][j]);
        var a := solve(old(checks) + 1, RelIndQuery(old(store), i, c), NxtLits(c.children));
        a.Unsat? && CoreFixed(c, a.core, gen)
      ensures !pushed ==> AllCovered(p, frames, i, k + 1, j + 1) && Grows(p, old(frames), i)
      ensures !pushed ==> CanEnter(p, old(frames), i, Negate(old(frames)[i][j]))
    {
      hide FramesOk, LabelsAgree, NeverEnters, RelInductive, InitDisjoint, Equivalent;
      hide Stronger, CanEnter, Blocks, AllCovered, Grows, CoreFixed;
      ghost var fr := frames;
      var c := frames[i][j];
      StoredClause(p, frames, i, c);
      var part;
      pushed, part := RelIndCheck(i + 1, Negate(c), false);
      gen := part;
      if pushed {
        SmallerCubeInductive(p, frames, i, Negate(c), part);
        var cl := Negate(part);
        DoubleNegation(part);
        SameCubeInductive(p, frames, i, part, Negate(cl));
        ConstrainFrame(i + 1, cl, false);
        ConstrainedElsewhere(fr, i + 1, cl);
        PushedClause(p, fr, old(store), i, cl, part, c);
        PushedCovers(p, fr, frames, i, cl, part, j, k);
      } else {
        BlockedPushGrows(p, frames, i, c);
        MoveDownEquivalent(p, frames, i, k, j);
        frames := frames[i := frames[i][k := c]];
        EquivalentKeepsFrames(p, fr, frames, store);
        EquivalentStronger(p, fr, frames);
      }
    }

    /** Tries to move every clause of frame `i` to the next frame; true when none is left. */
    method Propagate(i: nat) returns (r: bool)
      requires Ready() && 0 < i < |frames| - 1
      modifies `frames, `store, `checks
      ensures Ready() && |frames| == old(|frames|) && Stronger(p, frames, old(frames))
      ensures r <==> frames[i] == []
      ensures forall f :: f in frames[i] ==> f in old(frames[i]) && CanEnter(p, old(frames), i, Negate(f))
      ensures OthersKept(old(frames), frames, i)
      ensures !r && SameFrame(p, old(frames), frames, i) && SameFrame(p, old(frames), frames, i + 1) ==>
        Grows(p, frames, i)
    {
      hide FramesOk, LabelsAgree, Stronger, AllCovered, Grows, Equivalent, SameFrame, CanEnter, CoreFixed, SubCube;
      ghost var fr0 := frames;
      ghost var mid := frames;
      StrongerReflexive(p, frames);
      NothingCovered(p, frames, i);
      var k := 0;
      var n := |frames[i]|;
      for j := 0 to n
        invariant Ready() && |frames| == |fr0| && Stronger(p, frames, fr0)
        invariant |frames[i]| == n && k <= j && frames[i][j..] == fr0[i][j..]
        invariant forall f :: f in frames[i][..k] ==> f in fr0[i] && CanEnter(p, fr0, i, Negate(f))
        invariant OthersKept(fr0, frames, i)
        invariant AllCovered(p, frames, i, k, j)
        invariant k > 0 ==> Stronger(p, frames, mid) && Stronger(p, mid, fr0) && Grows(p, mid, i)
      {
        ghost var fr := frames;
        var pushed; ghost var gen;
        pushed, gen := PropagateClause(i, j, k);
        if !pushed {
          EnterWeaker(p, fr0, fr, i, Negate(fr[i][j]));
          k := k + 1;
          mid := fr;
        } else if k > 0 {
          StrongerTransitive(p, frames, fr, mid);
        }
        StrongerTransitive(p, frames, fr, fr0);
      }
      ghost var fr := frames;
      TruncateEquivalent(p, frames, i, k);
      frames := frames[i := frames[i][..k]];
      EquivalentKeepsFrames(p, fr, frames, store);
      EquivalentStronger(p, fr, frames);
      StrongerTransitive(p, frames, fr, fr0);
      r := frames[i] == [];
      if k > 0 {
        StrongerTransitive(p, frames, fr, mid);
        if SameFrame(p, fr0, frames, i) && SameFrame(p, fr0, frames, i + 1) {
          GrowsTransfer(p, fr0, mid, frames, i);
        }
      }
    }

    method Initialize()
      requires Fit()
      modifies `initialized, `frames, `store, `reachedK
      ensures if old(initialized) then unchanged(this) else Base() && reachedK == -1
    {
      if initialized {
        return;
      }
      reachedK := -1;
      frames, store := [], [];
      PushFrame();
      PushFrame();
      initialized := true;
    }

    /** Checks init, then its successors, against bad. */
    method Step01() returns (res: ProverResult)
      requires Base()
      modifies `reachedK, `checks, `cex
      ensures res == FALSE ==> Base() && exists run :: Concretizes(p, cex, run)
      ensures res != FALSE ==> res == UNKNOWN && Ready() && reachedK == 1
    {
      if reachedK < 0 {
        var a := Check([Now(InitTerm), Now(BadTerm)], []);
        InitQuery(p, a);
        match a {
          case Sat(m) =>
            cex := [BadTerm];
            return FALSE;
          case Unsat(_) =>
            reachedK := 0;
        }
      }
      var a := Check([Now(InitTerm), Trans, Next(BadTerm)], []);
      OneStepQuery(p, a);
      match a {
        case Sat(m) =>
          var c := GetModelFormula(m.cur);
          ModelSteps(p, m, BadTerm, c);
          var pg := ProofGoal(c, 0, None);
          assert FrameHolds(p, frames, 0, m.cur);
          ReconstructTrace(pg);
          GoalAtInitIsCex(p, frames, pg);
          return FALSE;
        case Unsat(_) =>
          FirstFramesOk(p);
          reachedK := 1;
          return UNKNOWN;
      }
    }

    /** One bound: block every goal, open a frame, propagate. */
    method Step(i: int) returns (res: ProverResult)
      requires Valid()
      modifies `frames, `store, `reachedK, `checks, `cex, `invar, `failedToReset
      ensures res == TRUE ==> IsInductiveInvariant(p.ts, InvarStates(p, invar))
      ensures res == FALSE ==> Valid() && exists run :: Concretizes(p, cex, run)
      ensures res == UNKNOWN ==> Valid()
      ensures res == UNKNOWN ==>
        reachedK == if i <= old(reachedK) then old(reachedK) else if old(reachedK) < 1 then 1 else old(reachedK) + 1
      ensures res == UNKNOWN && i > old(reachedK) > |AllStates(p)| + 1 ==>
        Total(p, frames, |AllStates(p)| + 2) < old(Total(p, frames, |AllStates(p)| + 2))
      ensures res == UNKNOWN && i <= old(reachedK) ==> frames == old(frames)
      ensures res == UNKNOWN && i > old(reachedK) >= 1 ==> NoneEmpty(frames, |frames| - 1)
      ensures res == UNKNOWN && i > old(reachedK) >= 1 && canReset && !old(failedToReset) ==> store == frames
      ensures i > old(reachedK) >= 1 && old(frames)[1] == [] && old(AvoidsBadNext(p, frames, |frames| - 1)) ==>
        res == TRUE
      ensures old(reachedK) < 1 && i > old(reachedK) && res == UNKNOWN ==> frames == old(frames)
    {
      hide FramesOk, LabelsAgree, Stronger, Grows, SameFrame, Concretizes, AvoidsBadNext;
      if i <= reachedK {
        return UNKNOWN;
      }
      if reachedK < 1 {
        res := Step01();
        return;
      }
      ghost var fr0 := frames;
      ghost var n := |AllStates(p)|;
      var blocked := BlockAll();
      if !blocked {
        return FALSE;
      }
      ghost var fr1 := frames;
      PushFrameKeeps();
      StrongerTransitive(p, frames, fr1, fr0);
      for j := 1 to |frames| - 1
        invariant Ready() && |frames| == |fr0| + 1 && Stronger(p, frames, fr0) && reachedK == old(reachedK)
        invariant GrowsBelow(p, fr0, frames, j)
        invariant NoneEmpty(frames, j)
        invariant j == 1 ==> frames == fr1 + [[]]
        invariant fr1[1] == [] ==> j == 1
        invariant failedToReset == old(failedToReset)
      {
        ghost var fr := frames;
        var done := Propagate(j);
        assert frames[j] != [] ==> frames[j][0] in frames[j];
        if done {
          invar := GetFrameTerm(j + 1);
          EqualFramesInductive(p, frames, j);
          InvarIsFrame(p, frames, j + 1, invar);
          return TRUE;
        }
        GrowsBelowStep(p, fr0, fr, frames, j);
      }
      if |fr0| > n + 2 {
        UndecidedStepShrinks(p, frames, fr0, n);
      }
      ResetSolver();
      reachedK := reachedK + 1;
      return UNKNOWN;
    }

    /**
      Runs bounds up to `k`. TRUE comes with an inductive invariant, FALSE with a
      counterexample through the recorded sets; a finite system is decided once `k`
      exceeds a bound quadratic in its number of states.
     */
    method CheckUntil(k: int) returns (res: ProverResult)
      requires Fit() && (initialized ==> Valid())
      modifies this
      ensures res == TRUE ==> IsInductiveInvariant(p.ts, InvarStates(p, invar)) && Safe(p.ts)
      ensures res == FALSE ==> (exists run :: Concretizes(p, cex, run)) && !Safe(p.ts)
      ensures res == UNKNOWN ==> Valid() && forall run :: IsCex(p.ts, run) ==> |run| > k + 1
      ensures res == UNKNOWN ==> k <= DecisionBound(p, if old(initialized) then old(reachedK) else -1)
      ensures k > DecisionBound(p, if old(initialized) then old(reachedK) else -1) ==>
        (res == TRUE <==> Safe(p.ts)) && (res == FALSE <==> !Safe(p.ts))
      ensures !(old(initialized) && old(reachedK) >= 1) && PropertyIsInductive(p) && k >= 2 ==> res == TRUE
    {
      hide FramesOk, LabelsAgree, Concretizes, IsInductiveInvariant;
      hide Safe, NoneEmpty, PropertyIsInductive, AvoidsBadNext;
      if PropertyIsInductive(p) {
        InductiveAvoidsNext(p);
        InductivePropertyIsSafe(p);
      }
      Initialize();
      ghost var n := |AllStates(p)|;
      ghost var from := Max(reachedK, n + 2);
      ghost var room := (n + 2) * n;
      var i := reachedK + 1;
      TotalBound(p, frames, n + 2);
      while i <= k
        invariant Valid() && (i == reachedK + 1 || (i == 1 && reachedK == 1))
        invariant PropertyIsInductive(p) && !(old(initialized) && old(reachedK) >= 1) ==> i <= 2 && frames == [[], []]
        invariant Total(p, frames, n + 2) <= room
        invariant reachedK <= from || Total(p, frames, n + 2) + (reachedK - from) <= room
        decreases k - i
      {
        res := Step(i);
        if res == FALSE {
          ConcretizedIsUnsafe(p, cex);
          return FALSE;
        }
        i := i + 1;
        if res != UNKNOWN {
          InvariantImpliesSafe(p.ts, InvarStates(p, invar));
          return res;
        }
        TotalBound(p, frames, n + 2);
      }
      NoShortCex(k);
      return UNKNOWN;
    }

    lemma {:induction false} NoShortCex(k: int)
      requires Valid() && reachedK >= k
      ensures forall run :: IsCex(p.ts, run) ==> |run| > k + 1
    {
      forall run | IsCex(p.ts, run) ensures |run| > k + 1 {
        if reachedK >= 1 {
          FramesExcludeShortCex(p, frames, run);
        } else {
          assert p.ts.init(run[0]) && p.ts.bad(run[|run| - 1]);
        }
      }
    }
  }
}
