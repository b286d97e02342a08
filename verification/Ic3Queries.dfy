/**
  What the answers to IC3's solver queries mean for frames and cubes.
 */
module Ic3Queries {
  import opened Cardinality
  import opened Runs
  import opened Ic3Formulas
  import opened Ic3Solver
  import opened Ic3Frames

  function CurLits(c: seq<Lit>): (r: seq<Assumption>)
    ensures |r| == |c| && forall k :: 0 <= k < |c| ==> r[k] == CurLit(c[k])
  {
    seq(|c|, k requires 0 <= k < |c| => CurLit(c[k]))
  }

  function NxtLits(c: seq<Lit>): (r: seq<Assumption>)
    ensures |r| == |c| && forall k :: 0 <= k < |c| ==> r[k] == NxtLit(c[k])
  {
    seq(|c|, k requires 0 <= k < |c| => NxtLit(c[k]))
  }

  /** Every state of the cube `c` has a successor satisfying `t`. */
  ghost predicate AllStep(p: Problem, c: IC3Formula, t: Term) {
    forall s :: p.Dom(s) && Eval(c, s) ==> exists u :: Step(p.ts, s, u) && Holds(p, t, u)
  }

  lemma {:induction false} AllSatisfied(p: Problem, m: Model, stack: seq<Assertion>)
    requires IsModel(p, m, stack)
    ensures forall k :: 0 <= k < |stack| ==> Satisfies(p, m, stack[k])
  {
  }

  lemma {:induction false} CubeAssumed(m: Model, lits: seq<Lit>)
    requires forall q :: q in CurLits(lits) ==> Assumed(m, q)
    ensures forall l :: l in lits ==> LitHolds(l, m.cur)
  {
    forall l | l in lits ensures LitHolds(l, m.cur) {
      var k :| 0 <= k < |lits| && lits[k] == l;
      assert CurLits(lits)[k] in CurLits(lits);
    }
  }

  /** init does not meet a cube it is disjoint from, however the cube is split. */
  lemma {:induction false} NoInitialModel(p: Problem, m: Model, toKeep: seq<Lit>, rem: seq<Lit>)
    requires forall s :: p.ts.init(s) ==> exists l :: (l in toKeep || l in rem) && !LitHolds(l, s)
    requires forall q :: q in CurLits(rem) ==> Assumed(m, q)
    ensures !IsModel(p, m, [Now(InitTerm), Now(Unit(Conjunction(toKeep)))])
  {
    CubeAssumed(m, rem);
    var stack := [Now(InitTerm), Now(Unit(Conjunction(toKeep)))];
    assert stack[0] == Now(InitTerm) && stack[1] == Now(Unit(Conjunction(toKeep)));
    if IsModel(p, m, stack) {
      AllSatisfied(p, m, stack);
    }
  }

  lemma {:induction false} ModelSteps(p: Problem, m: Model, c: Term, pred: IC3Formula)
    requires IsModel(p, m, [Trans, Next(c)])
    requires forall t :: p.Dom(t) && Eval(pred, t) ==> t == m.cur
    ensures AllStep(p, pred, c)
  {
    var stack := [Trans, Next(c)];
    assert Satisfies(p, m, stack[0]) && Satisfies(p, m, stack[1]);
    assert Step(p.ts, m.cur, m.nxt);
  }

  /** The formula whose unsat core over the cube literals generalises a predecessor. */
  function PreimageQuery(p: Problem, fr: Frames, i: nat, c: Term, m: Model): seq<Assertion> {
    if p.deterministic then [InputIs(m.inp), Trans, NextNot(c)]
    else [InputIs(m.inp), NextIs(m.nxt), NotPreimage(fr, i, c)]
  }

  lemma {:induction false} CoreSteps(
      p: Problem, fr: Frames, i: nat, c: Term, m: Model, core: set<Assumption>, out: IC3Formula)
    requires p.WellFormed() && p.Dom(m.nxt)
    requires forall n :: IsModel(p, n, PreimageQuery(p, fr, i, c, m)) ==> exists q :: q in core && !Assumed(n, q)
    requires !out.disjunction
    requires forall q :: q in core ==> q.CurLit? && q.l in out.children
    ensures AllStep(p, out, c)
  {
    forall s | p.Dom(s) && Eval(out, s) ensures exists u :: Step(p.ts, s, u) && Holds(p, c, u) {
      var t := m.nxt;
      if p.deterministic {
        assert p.HasSuccessor(s, m.inp);
        t :| p.ts.trans(s, m.inp, t);
      }
      var n := Model(s, m.inp, t);
      assert forall q :: q in core ==> Assumed(n, q);
      assert !IsModel(p, n, PreimageQuery(p, fr, i, c, m));
      assert Step(p.ts, s, t);
    }
  }

  /** The whole cube of a predecessor cannot avoid stepping into its goal. */
  lemma {:induction false} CoreExists(p: Problem, fr: Frames, i: nat, c: Term, m: Model, pred: IC3Formula, n: Model)
    requires p.WellFormed()
    requires IsModel(p, m, [Trans, Next(c), NowNot(c)]) && FrameHolds(p, fr, i, m.cur)
    requires !pred.disjunction && forall t :: p.Dom(t) && Eval(pred, t) ==> t == m.cur
    requires forall q :: q in CurLits(pred.children) ==> Assumed(n, q)
    ensures !IsModel(p, n, PreimageQuery(p, fr, i, c, m))
  {
    CubeAssumed(n, pred.children);
    var stack, query := [Trans, Next(c), NowNot(c)], PreimageQuery(p, fr, i, c, m);
    AllSatisfied(p, m, stack);
    assert stack[0] == Trans && stack[1] == Next(c) && stack[2] == NowNot(c);
    assert query[0] == InputIs(m.inp) && query[1] in query && query[2] in query;
    if IsModel(p, n, query) {
      AllSatisfied(p, n, query);
    }
  }

  lemma {:induction false} NxtCubeAssumed(m: Model, lits: seq<Lit>)
    requires forall q :: q in NxtLits(lits) ==> Assumed(m, q)
    ensures forall l :: l in lits ==> LitHolds(l, m.nxt)
  {
    forall l | l in lits ensures LitHolds(l, m.nxt) {
      var k :| 0 <= k < |lits| && lits[k] == l;
      assert NxtLits(lits)[k] in NxtLits(lits);
    }
  }

  ghost predicate Enters(p: Problem, fr: Frames, i: nat, c: IC3Formula, s: State, t: State) {
    FrameHolds(p, fr, i, s) && !Eval(c, s) && Step(p.ts, s, t) && Eval(c, t)
  }

  /** One step from frame `i`, outside the cube `c`, can enter it. */
  ghost predicate CanEnter(p: Problem, fr: Frames, i: nat, c: IC3Formula) {
    exists s, t :: Enters(p, fr, i, c, s, t)
  }

  /** What can be entered from a stronger frame could be before. */
  lemma {:induction false} EnterWeaker(p: Problem, fr: Frames, fr': Frames, i: nat, c: IC3Formula)
    requires CanEnter(p, fr', i, c) && Stronger(p, fr', fr) && 0 < i < |fr|
    ensures CanEnter(p, fr, i, c)
  {
    var s, t :| Enters(p, fr', i, c, s, t);
    assert Enters(p, fr, i, c, s, t);
  }

  /** Some state of frame `i` lies in the cube `c`. */
  ghost predicate Meets(p: Problem, fr: Frames, i: nat, c: IC3Formula) {
    exists s :: p.Dom(s) && FrameHolds(p, fr, i, s) && Eval(c, s)
  }

  ghost predicate AvoidsBadNext(p: Problem, fr: Frames, i: nat) {
    forall s, t :: FrameHolds(p, fr, i, s) && Step(p.ts, s, t) ==> !p.ts.bad(t)
  }

  /** A cube that meets a frame and steps into bad shows that the frame does. */
  lemma {:induction false} FrontierIsUnsafe(p: Problem, fr: Frames, i: nat, goal: IC3Formula)
    requires AllStep(p, goal, BadTerm) && Meets(p, fr, i, goal)
    ensures !AvoidsBadNext(p, fr, i)
  {
    var s :| p.Dom(s) && FrameHolds(p, fr, i, s) && Eval(goal, s);
    var t :| Step(p.ts, s, t) && Holds(p, BadTerm, t);
  }

  lemma {:induction false} NeverEntered(p: Problem, fr: Frames, i: nat, c: IC3Formula, d: IC3Formula)
    requires NeverEnters(p, fr, i, c, d) && SubCube(d, c)
    ensures !CanEnter(p, fr, i, c)
  {
    forall s, t | FrameHolds(p, fr, i, s) && !Eval(c, s) && Step(p.ts, s, t) ensures !Eval(c, t) {
      if Eval(c, t) {
        SubCubeCovers(d, c, t);
      }
    }
  }

  lemma {:induction false} InductiveAvoidsNext(p: Problem)
    requires PropertyIsInductive(p)
    ensures AvoidsBadNext(p, [[], []], 1)
  {
  }

  function RelIndQuery(store: Frames, i: nat, c: IC3Formula): seq<Assertion> {
    [FrameLabels(store, i), NowNot(Unit(c)), Trans]
  }

  lemma {:induction false} RelIndModel(p: Problem, fr: Frames, store: Frames, i: nat, c: IC3Formula, m: Model)
    requires FramesOk(p, fr) && LabelsAgree(p, fr, store) && store[0] == [] && i < |fr|
    requires p.Dom(m.cur) && p.Dom(m.nxt)
    ensures IsModel(p, m, RelIndQuery(store, i, c)) <==>
              FrameHolds(p, fr, i, m.cur) && !Eval(c, m.cur) && p.ts.trans(m.cur, m.inp, m.nxt)
  {
    LabelsAgreeAtZero(p, fr, store, m.cur);
    var q := RelIndQuery(store, i, c);
    assert q[0] in q && q[1] in q && q[2] in q;
  }

  /** An unsat core over the next-state literals of `c` is a cube that is not entered. */
  lemma {:induction false} RelIndCore(
      p: Problem, fr: Frames, store: Frames, i: nat, c: IC3Formula, core: set<Assumption>, out: IC3Formula)
    requires p.WellFormed() && FramesOk(p, fr) && LabelsAgree(p, fr, store) && store[0] == [] && i < |fr|
    requires forall m :: IsModel(p, m, RelIndQuery(store, i, c)) ==> exists q :: q in core && !Assumed(m, q)
    requires !out.disjunction && forall q :: q in core ==> q.NxtLit? && q.l in out.children
    ensures NeverEnters(p, fr, i, c, out)
  {
    forall s, t | FrameHolds(p, fr, i, s) && !Eval(c, s) && Step(p.ts, s, t) ensures !Eval(out, t) {
      var inp :| p.ts.trans(s, inp, t);
      var m := Model(s, inp, t);
      RelIndModel(p, fr, store, i, c, m);
      var q :| q in core && !Assumed(m, q);
    }
  }

  lemma {:induction false} SameCubeEnter(p: Problem, fr: Frames, i: nat, c: IC3Formula, d: IC3Formula)
    requires SameCube(c, d) && CanEnter(p, fr, i, c)
    ensures CanEnter(p, fr, i, d)
  {
    var s, t :| Enters(p, fr, i, c, s, t);
    SubCubeCovers(d, c, t);
    if Eval(d, s) { SubCubeCovers(c, d, s); }
    assert Enters(p, fr, i, d, s, t);
  }

  // ----- dropping literals -----

  function LitSet(c: seq<Lit>): set<Lit> {
    set l | l in c
  }

  lemma {:induction false} DropMembers(c: seq<Lit>, j: nat)
    requires j < |c|
    ensures forall l :: l in c[..j] + c[j + 1..] ==> l in c
    ensures forall l :: l in c ==> l == c[j] || l in c[..j] + c[j + 1..]
  {
    forall l | l in c ensures l == c[j] || l in c[..j] + c[j + 1..] {
      var k :| 0 <= k < |c| && c[k] == l;
      if k < j {
        assert c[..j][k] == l;
      } else if k > j {
        assert c[j + 1..][k - j - 1] == l;
      }
    }
  }

  /** The literals `gen` are a part of the cube `c` that can still be blocked after frame `i`. */
  ghost predicate Generalizes(p: Problem, fr: Frames, i: nat, c: IC3Formula, gen: seq<Lit>) {
    SubCube(Conjunction(gen), c) && InitDisjoint(p, Conjunction(gen)) && RelInductive(p, fr, i, Conjunction(gen))
  }

  lemma {:induction false} GeneralizesItself(p: Problem, fr: Frames, i: nat, c: IC3Formula)
    requires !c.disjunction && InitDisjoint(p, c) && RelInductive(p, fr, i, c)
    ensures Generalizes(p, fr, i, c, c.children)
  {
    SameCubeInductive(p, fr, i, c, Conjunction(c.children));
  }

  lemma {:induction false} GeneralizationBlocks(p: Problem, fr: Frames, i: nat, c: IC3Formula, gen: seq<Lit>)
    requires Generalizes(p, fr, i, c, gen)
    ensures var block := Negate(Conjunction(gen));
      SubCube(Negate(block), c) && InitDisjoint(p, Negate(block)) && RelInductive(p, fr, i, Negate(block))
  {
    DoubleNegation(Conjunction(gen));
    SameCubeInductive(p, fr, i, Conjunction(gen), Negate(Negate(Conjunction(gen))));
  }

  /** Putting a dropped literal back at the end keeps the cube, and marking it leaves fewer to try. */
  lemma {:induction false} PutBack(
      p: Problem, fr: Frames, i: nat, c: IC3Formula, gen: seq<Lit>, j: nat, necessary: set<Lit>)
    requires Generalizes(p, fr, i, c, gen) && j < |gen| && gen[j] !in necessary
    ensures var back := Conjunction(gen[..j] + gen[j + 1..]).children + [gen[j]];
      && Generalizes(p, fr, i, c, back) && |back| == |gen|
      && |LitSet(back) - (necessary + {gen[j]})| < |LitSet(gen) - necessary|
  {
    DropMembers(gen, j);
    var back := Conjunction(gen[..j] + gen[j + 1..]).children + [gen[j]];
    SameCubeInductive(p, fr, i, Conjunction(gen), Conjunction(back));
    StrictSubsetSmaller(LitSet(back) - (necessary + {gen[j]}), LitSet(gen) - necessary, gen[j]);
  }

  // ----- which literals have been tried -----

  ghost predicate AllIn(gen: seq<Lit>, j: nat, necessary: set<Lit>)
    requires j <= |gen|
  {
    forall k :: 0 <= k < j ==> gen[k] in necessary
  }

  /** Sorted, up to a literal put back at the end. */
  ghost predicate SortedButLast(gen: seq<Lit>, necessary: set<Lit>) {
    Sorted(gen) || (gen != [] && Sorted(gen[..|gen| - 1]) && gen[|gen| - 1] in necessary)
  }

  /**
    What the search has behind it at index `j`: everything before has been tried, although the literals are
    sorted anew each time.
   */
  ghost predicate TriedBefore(gen: seq<Lit>, j: nat, necessary: set<Lit>)
    requires j <= |gen|
  {
    AllIn(gen, j, necessary) && (necessary == {} || SortedButLast(gen, necessary))
  }

  /** Before `j` a sorted sequence has room for what is smaller than its entry at `k`, so `k` is not before `j`. */
  lemma {:induction false} SmallerComeFirst(few: seq<Lit>, c: seq<Lit>, k: nat)
    requires Sorted(c) && k < |c| && multiset(few) <= multiset(c)
    requires forall l :: l in few ==> Key(l) < Key(c[k])
    ensures |few| <= k
  {
    assert c == c[..k] + c[k..];
    forall l ensures multiset(few)[l] <= multiset(c[..k])[l] {
      if l in few {
        assert l !in c[k..] by {
          forall m | k <= m < |c| ensures c[m] != l {
            assert m == k || Key(c[k]) <= Key(c[m]);
          }
        }
        assert multiset(c)[l] == multiset(c[..k])[l] + multiset(c[k..])[l];
      }
    }
    var rest := multiset(c[..k]) - multiset(few);
    assert multiset(c[..k]) == multiset(few) + rest;
    assert |multiset(c[..k])| == |multiset(few)| + |rest|;
  }

  lemma {:induction false} KeyInjective(a: Lit, b: Lit)
    requires Key(a) == Key(b)
    ensures a == b
  {
  }

  /** An untried literal stands after the tried ones, and is larger. */
  lemma {:induction false} UntriedIsLarger(gen: seq<Lit>, j: nat, necessary: set<Lit>, x: Lit, m: nat)
    requires 0 < j <= |gen| && m < j && TriedBefore(gen, j, necessary) && x in gen && x !in necessary
    ensures Key(gen[m]) < Key(x)
  {
    var n :| 0 <= n < |gen| && gen[n] == x;
    if Key(gen[m]) >= Key(x) {
      if Sorted(gen) {
        assert Key(gen[m]) <= Key(gen[n]);
      } else {
        var s := gen[..|gen| - 1];
        assert s[m] == gen[m] && s[n] == gen[n];
      }
      KeyInjective(gen[m], x);
    }
  }

  /** Sorting the others anew and putting the literal at `j` back at the end keeps the tried ones in front. */
  lemma {:induction false} PutBackKeepsTried(gen: seq<Lit>, j: nat, necessary: set<Lit>)
    requires j < |gen| && TriedBefore(gen, j, necessary)
    ensures TriedBefore(Conjunction(gen[..j] + gen[j + 1..]).children + [gen[j]], j, necessary + {gen[j]})
  {
    var rest := gen[..j] + gen[j + 1..];
    var c := Sort(rest);
    SortSorted(rest);
    SortMultiset(rest);
    DropMembers(gen, j);
    assert (c + [gen[j]])[..|c|] == c;
    forall k | 0 <= k < j ensures c[k] in necessary + {gen[j]} {
      if c[k] !in necessary + {gen[j]} {
        assert c[k] in rest;
        forall l | l in gen[..j] ensures Key(l) < Key(c[k]) {
          var m :| 0 <= m < j && gen[m] == l;
          UntriedIsLarger(gen, j, necessary, c[k], m);
        }
        SmallerComeFirst(gen[..j], c, k);
      }
    }
  }

  /** Without the literal the cube meets init or can be entered from frame `i`. */
  ghost predicate Stuck(p: Problem, fr: Frames, i: nat, c: IC3Formula) {
    !InitDisjoint(p, c) || CanEnter(p, fr, i, c)
  }

  /** Dropping the literal failed, from a cube between `gen` and `c`. */
  ghost predicate Tried(p: Problem, fr: Frames, i: nat, c: IC3Formula, gen: seq<Lit>, l: Lit) {
    exists d: seq<Lit>, j: nat :: TriedIn(p, fr, i, c, gen, l, d, j)
  }

  ghost predicate TriedIn(p: Problem, fr: Frames, i: nat, c: IC3Formula, gen: seq<Lit>, l: Lit, d: seq<Lit>, j: nat) {
    && j < |d| && d[j] == l && LitSet(gen) <= LitSet(d) <= LitSet(c.children)
    && Stuck(p, fr, i, Conjunction(d[..j] + d[j + 1..]))
  }

  ghost predicate AllTried(p: Problem, fr: Frames, i: nat, c: IC3Formula, gen: seq<Lit>, necessary: set<Lit>) {
    forall l :: l in necessary ==> Tried(p, fr, i, c, gen, l)
  }

  lemma {:induction false} TriedStays(
      p: Problem, fr: Frames, i: nat, c: IC3Formula, gen: seq<Lit>, gen': seq<Lit>, necessary: set<Lit>)
    requires AllTried(p, fr, i, c, gen, necessary) && LitSet(gen') <= LitSet(gen)
    ensures AllTried(p, fr, i, c, gen', necessary)
  {
    hide Stuck;
    forall l | l in necessary ensures Tried(p, fr, i, c, gen', l) {
      assert Tried(p, fr, i, c, gen, l);
      var d: seq<Lit>, j: nat :| TriedIn(p, fr, i, c, gen, l, d, j);
      assert TriedIn(p, fr, i, c, gen', l, d, j);
    }
  }

  lemma {:induction false} OneMoreTried(
      p: Problem, fr: Frames, i: nat, c: IC3Formula, gen: seq<Lit>, j: nat, necessary: set<Lit>)
    requires AllTried(p, fr, i, c, gen, necessary) && j < |gen| && LitSet(gen) <= LitSet(c.children)
    requires Stuck(p, fr, i, Conjunction(gen[..j] + gen[j + 1..]))
    ensures AllTried(p, fr, i, c, Conjunction(gen[..j] + gen[j + 1..]).children + [gen[j]], necessary + {gen[j]})
  {
    hide Stuck;
    DropMembers(gen, j);
    var back := Conjunction(gen[..j] + gen[j + 1..]).children + [gen[j]];
    assert LitSet(back) == LitSet(gen);
    TriedStays(p, fr, i, c, gen, back, necessary);
    assert TriedIn(p, fr, i, c, back, gen[j], gen, j);
  }

  lemma {:induction false} PutBackSame(gen: seq<Lit>, j: nat)
    requires j < |gen|
    ensures LitSet(Conjunction(gen[..j] + gen[j + 1..]).children + [gen[j]]) == LitSet(gen)
  {
    DropMembers(gen, j);
  }

  lemma {:induction false} NegatedTwice(gen: seq<Lit>)
    ensures var back := Negate(Negate(Conjunction(gen))).children; |back| == |gen| && LitSet(back) == LitSet(gen)
  {
    DoubleNegation(Conjunction(gen));
  }

  /** Every literal that is left, if there is more than one, was tried in vain. */
  ghost predicate TriedAll(p: Problem, fr: Frames, i: nat, c: IC3Formula, gen: seq<Lit>) {
    |gen| > 1 ==> forall l :: l in gen ==> Tried(p, fr, i, c, gen, l)
  }

  /** A literal that was needed to avoid init stays needed when others are dropped. */
  lemma {:induction false} NeededForInit(p: Problem, c: IC3Formula, c': IC3Formula)
    requires SubCube(c', c) && !InitDisjoint(p, c)
    ensures !InitDisjoint(p, c')
  {
    var s :| p.ts.init(s) && Eval(c, s);
    SubCubeCovers(c', c, s);
  }

  /** The steps of the example below: 0 1 0 to 0 1 1, and 0 0 1 to 1 0 1. */
  predicate TwoSteps(s: State, t: State) {
    (s == {1} && t == {1, 2}) || (s == {2} && t == {0, 2})
  }

  function Example(): Problem {
    Problem(System((s: State) => s == {}, (s: State, i: Input, t: State) => TwoSteps(s, t), (s: State) => false),
            [0, 1, 2], false)
  }

  lemma {:induction false} ExampleSteps(s: State, t: State)
    ensures Step(Example().ts, s, t) <==> TwoSteps(s, t)
  {
    assert TwoSteps(s, t) ==> Example().ts.trans(s, {}, t);
  }

  lemma {:induction false} ExampleFramesOk()
    ensures Example().WellFormed() && FramesOk(Example(), [[], [], []])
  {
  }

  /** In the example a cube that holds in neither target from outside of it can be kept. */
  lemma {:induction false} ExampleKept(c: IC3Formula)
    requires !c.disjunction && !Eval(c, {}) && (Eval(c, {1, 2}) ==> Eval(c, {1})) && (Eval(c, {0, 2}) ==> Eval(c, {2}))
    ensures !Stuck(Example(), [[], [], []], 1, c) && RelInductive(Example(), [[], [], []], 1, c)
    ensures InitDisjoint(Example(), c)
  {
    hide Eval, FrameHolds;
    forall s, t | Step(Example().ts, s, t) && Eval(c, t) ensures Eval(c, s) {
      ExampleSteps(s, t);
    }
  }

  lemma {:induction false} ExampleEntered(c: IC3Formula, s: State, t: State)
    requires TwoSteps(s, t) && !Eval(c, s) && Eval(c, t)
    ensures Stuck(Example(), [[], [], []], 1, c)
  {
    ExampleSteps(s, t);
    assert Enters(Example(), [[], [], []], 1, c, s, t);
  }

  lemma {:induction false} SameMembers(c: seq<Lit>)
    ensures LitSet(Conjunction(c).children) == LitSet(c)
  {
  }

  lemma {:induction false} CubeIsFalse(c: seq<Lit>, l: Lit, s: State)
    requires l in c && !LitHolds(l, s)
    ensures !Eval(Conjunction(c), s)
  {
    assert l in Conjunction(c).children;
  }

  /** What each cube of the example is asked for. */
  lemma {:induction false} ExampleAnswers(x: Lit, y: Lit, z: Lit)
    requires x == Lit(0, true) && y == Lit(1, true) && z == Lit(2, true)
    ensures var p, fr := Example(), [[], [], []];
      && !Stuck(p, fr, 1, Conjunction([x, y])) && !Stuck(p, fr, 1, Conjunction([y]))
      && Stuck(p, fr, 1, Conjunction([y, z])) && Stuck(p, fr, 1, Conjunction([x, z]))
      && InitDisjoint(p, Conjunction([x, y, z])) && RelInductive(p, fr, 1, Conjunction([x, y, z]))
  {
    hide Stuck, RelInductive, InitDisjoint;
    CubeIsFalse([x, y, z], x, {});
    CubeIsFalse([x, y, z], x, {1, 2});
    CubeIsFalse([x, y, z], y, {0, 2});
    ExampleKept(Conjunction([x, y, z]));
    CubeIsFalse([x, y], x, {});
    CubeIsFalse([x, y], x, {1, 2});
    CubeIsFalse([x, y], y, {0, 2});
    ExampleKept(Conjunction([x, y]));
    CubeIsFalse([y], y, {});
    CubeIsFalse([y], y, {0, 2});
    ExampleKept(Conjunction([y]));
    CubeIsFalse([y, z], z, {1});
    ExampleEntered(Conjunction([y, z]), {1}, {1, 2});
    CubeIsFalse([x, z], x, {2});
    ExampleEntered(Conjunction([x, z]), {2}, {0, 2});
  }

  /**
    A literal that was needed to avoid being entered need not stay so: without x and without y the cube of
    x, y and z can be entered, without z it cannot; and then x is not needed any more, but not tried again.
   */
  lemma {:induction false} TriedIsNotMinimal(x: Lit, y: Lit, z: Lit)
    requires x == Lit(0, true) && y == Lit(1, true) && z == Lit(2, true)
    ensures var p, fr, c := Example(), [[], [], []], Conjunction([x, y, z]);
      && p.WellFormed() && FramesOk(p, fr) && InitDisjoint(p, c) && RelInductive(p, fr, 1, c)
      && Stuck(p, fr, 1, Conjunction([y, z])) && Stuck(p, fr, 1, Conjunction([x, z]))
      && !Stuck(p, fr, 1, Conjunction([x, y])) && TriedAll(p, fr, 1, c, [x, y])
      && !Stuck(p, fr, 1, Conjunction([y]))
  {
    hide Stuck, FramesOk, RelInductive, InitDisjoint, Conjunction, TwoSteps;
    var p, fr: Frames, c := Example(), [[], [], []], [x, y, z];
    ExampleFramesOk();
    ExampleAnswers(x, y, z);
    assert c[..0] + c[1..] == [y, z] && c[..1] + c[2..] == [x, z];
    assert LitSet([x, y]) <= LitSet(c) == LitSet(Conjunction(c).children) by {
      SameMembers(c);
    }
    assert TriedIn(p, fr, 1, Conjunction(c), [x, y], x, c, 0);
    assert TriedIn(p, fr, 1, Conjunction(c), [x, y], y, c, 1);
  }

  /** The state of the search: what is left still generalises, and what was tried is remembered. */
  ghost predicate Searching(p: Problem, fr: Frames, i: nat, c: IC3Formula, gen: seq<Lit>, j: nat, necessary: set<Lit>)
    requires j <= |gen|
  {
    && Generalizes(p, fr, i, c, gen) && LitSet(gen) <= LitSet(c.children)
    && TriedBefore(gen, j, necessary) && AllTried(p, fr, i, c, gen, necessary)
  }

  lemma {:induction false} SearchStarts(p: Problem, fr: Frames, i: nat, c: IC3Formula)
    requires !c.disjunction && InitDisjoint(p, c) && RelInductive(p, fr, i, c)
    ensures Searching(p, fr, i, c, c.children, 0, {})
  {
    GeneralizesItself(p, fr, i, c);
  }

  lemma {:induction false} SearchGeneralizes(
      p: Problem, fr: Frames, i: nat, c: IC3Formula, gen: seq<Lit>, j: nat, necessary: set<Lit>)
    requires j <= |gen| && Searching(p, fr, i, c, gen, j, necessary)
    ensures Generalizes(p, fr, i, c, gen)
  {
  }

  lemma {:induction false} SearchSkips(
      p: Problem, fr: Frames, i: nat, c: IC3Formula, gen: seq<Lit>, j: nat, necessary: set<Lit>)
    requires j < |gen| && Searching(p, fr, i, c, gen, j, necessary) && gen[j] in necessary
    ensures Searching(p, fr, i, c, gen, j + 1, necessary)
  {
    hide Generalizes, AllTried;
  }

  lemma {:induction false} SearchDrops(
      p: Problem, fr: Frames, i: nat, c: IC3Formula, gen: seq<Lit>, j: nat, necessary: set<Lit>, gen': seq<Lit>)
    requires j < |gen| && Searching(p, fr, i, c, gen, j, necessary)
    requires Generalizes(p, fr, i, c, gen') && LitSet(gen') <= LitSet(gen) && Sorted(gen')
    ensures Searching(p, fr, i, c, gen', 0, necessary)
  {
    hide Generalizes, AllTried;
    TriedStays(p, fr, i, c, gen, gen', necessary);
  }

  lemma {:induction false} SearchPutsBack(
      p: Problem, fr: Frames, i: nat, c: IC3Formula, gen: seq<Lit>, j: nat, necessary: set<Lit>)
    requires j < |gen| && Searching(p, fr, i, c, gen, j, necessary) && gen[j] !in necessary
    requires Stuck(p, fr, i, Conjunction(gen[..j] + gen[j + 1..]))
    ensures var back := Conjunction(gen[..j] + gen[j + 1..]).children + [gen[j]];
      && |back| == |gen| && Searching(p, fr, i, c, back, j, necessary + {gen[j]})
      && |LitSet(back) - (necessary + {gen[j]})| < |LitSet(gen) - necessary|
  {
    hide Generalizes, AllTried, TriedBefore, Stuck;
    PutBackKeepsTried(gen, j, necessary);
    OneMoreTried(p, fr, i, c, gen, j, necessary);
    PutBackSame(gen, j);
    PutBack(p, fr, i, c, gen, j, necessary);
  }

  /** At the end the clause has the generalisation property, and every literal left was tried. */
  lemma {:induction false} SearchEnds(
      p: Problem, fr: Frames, i: nat, c: IC3Formula, gen: seq<Lit>, j: nat, necessary: set<Lit>)
    requires j <= |gen| && Searching(p, fr, i, c, gen, j, necessary) && (j == |gen| || |gen| <= 1)
    ensures var block := Negate(Conjunction(gen));
      && SubCube(Negate(block), c) && InitDisjoint(p, Negate(block)) && RelInductive(p, fr, i, Negate(block))
      && TriedAll(p, fr, i, c, Negate(block).children)
  {
    hide Generalizes, AllTried, TriedAll;
    var block := Negate(Conjunction(gen));
    NegatedTwice(gen);
    GeneralizationBlocks(p, fr, i, c, gen);
    LeftWereTried(p, fr, i, c, gen, Negate(block).children, necessary);
  }

  lemma {:induction false} LeftWereTried(
      p: Problem, fr: Frames, i: nat, c: IC3Formula, gen: seq<Lit>, gen': seq<Lit>, necessary: set<Lit>)
    requires AllTried(p, fr, i, c, gen, necessary) && (|gen| > 1 ==> AllIn(gen, |gen|, necessary))
    requires |gen'| == |gen| && LitSet(gen') == LitSet(gen)
    ensures TriedAll(p, fr, i, c, gen')
  {
    TriedStays(p, fr, i, c, gen, gen', necessary);
    forall l | |gen'| > 1 && l in gen' ensures Tried(p, fr, i, c, gen', l) {
      assert l in LitSet(gen);
    }
  }
}
