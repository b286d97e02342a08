/**
  Proof goals: cubes chained by `next` along which every state steps towards
  bad, the queue that orders them by frame, and the trace a chain stands for.
 */
module Ic3Goals {
  import opened Runs
  import opened Ic3Formulas
  import opened Ic3Solver
  import opened Ic3Frames
  import opened Ic3Queries

  datatype ProofGoal = ProofGoal(target: IC3Formula, idx: nat, next: Option<ProofGoal>)

  function NextTerm(g: ProofGoal): Term {
    match g.next
    case None => BadTerm
    case Some(n) => Unit(n.target)
  }

  /** Every state of each cube on the chain steps into the next cube, and of the last one into bad. */
  ghost predicate LeadsToBad(p: Problem, g: ProofGoal)
    decreases g
  {
    && !g.target.disjunction
    && AllStep(p, g.target, NextTerm(g))
    && (g.next.Some? ==> LeadsToBad(p, g.next.value))
  }

  ghost predicate Avoids(p: Problem, fr: Frames, i: nat, c: IC3Formula) {
    forall s :: p.Dom(s) && FrameHolds(p, fr, i, s) ==> !Eval(c, s)
  }

  /** The invariant of queued goals. */
  ghost predicate GoalOk(p: Problem, fr: Frames, g: ProofGoal) {
    && LeadsToBad(p, g)
    && g.idx < |fr|
    && (if g.idx == 0 then Meets(p, fr, 0, g.target) else Avoids(p, fr, g.idx - 1, g.target))
  }

  /** A goal never meets init, so dropped literals can always be repaired against it. */
  lemma {:induction false} GoalInitDisjoint(p: Problem, fr: Frames, g: ProofGoal)
    requires p.WellFormed() && FramesOk(p, fr) && GoalOk(p, fr, g) && g.idx > 0
    ensures InitDisjoint(p, g.target)
  {
    forall s | p.ts.init(s) ensures !Eval(g.target, s) {
      assert FrameHolds(p, fr, g.idx - 1, s);
    }
  }

  /** A predecessor cube found in frame `i - 1` stays out of frame `i - 2`. */
  lemma {:induction false} PredecessorOk(p: Problem, fr: Frames, g: ProofGoal, pred: IC3Formula)
    requires p.WellFormed() && FramesOk(p, fr) && GoalOk(p, fr, g) && g.idx > 0
    requires !pred.disjunction && AllStep(p, pred, Unit(g.target)) && Meets(p, fr, g.idx - 1, pred)
    ensures GoalOk(p, fr, ProofGoal(pred, g.idx - 1, Some(g)))
    ensures !Blocked(p, fr, ProofGoal(pred, g.idx - 1, Some(g)))
  {
    if g.idx > 1 {
      forall s | p.Dom(s) && FrameHolds(p, fr, g.idx - 2, s) ensures !Eval(pred, s) {
        forall u | Step(p.ts, s, u) ensures !Eval(g.target, u) {
          assert FrameHolds(p, fr, g.idx - 2 + 1, u);
        }
      }
    }
  }

  /** A goal found at the frontier stays out of the frame below it. */
  lemma {:induction false} FrontierGoalOk(p: Problem, fr: Frames, c: IC3Formula)
    requires p.WellFormed() && FramesOk(p, fr)
    requires !c.disjunction && AllStep(p, c, BadTerm)
    ensures GoalOk(p, fr, ProofGoal(c, |fr| - 1, None))
  {
    forall s | p.Dom(s) && FrameHolds(p, fr, |fr| - 2, s) ensures !Eval(c, s) {
      forall u | Step(p.ts, s, u) ensures !p.ts.bad(u) {
        assert FrameHolds(p, fr, |fr| - 2 + 1, u);
      }
    }
  }

  /** Strengthening frames 1 and above keeps a goal, and blocking it at `i` allows it at `i + 1`. */
  lemma {:induction false} GoalSurvives(p: Problem, fr: Frames, fr': Frames, g: ProofGoal)
    requires GoalOk(p, fr, g) && Stronger(p, fr', fr)
    ensures GoalOk(p, fr', g)
  {
    if g.idx == 0 {
      var s :| p.Dom(s) && FrameHolds(p, fr, 0, s) && Eval(g.target, s);
      assert FrameHolds(p, fr', 0, s);
    } else {
      forall s | p.Dom(s) && FrameHolds(p, fr', g.idx - 1, s) ensures !Eval(g.target, s) {
        assert FrameHolds(p, fr, g.idx - 1, s);
      }
    }
  }

  ghost predicate Blocked(p: Problem, fr: Frames, g: ProofGoal) {
    !Meets(p, fr, g.idx, g.target)
  }

  // ----- the two base checks -----

  lemma {:induction false} InitQuery(p: Problem, a: Answer)
    requires p.WellFormed() && AnswerOk(p, [Now(InitTerm), Now(BadTerm)], [], a)
    ensures a.Sat? ==> exists run :: Concretizes(p, [BadTerm], run)
    ensures a.Unsat? ==> forall s :: p.ts.init(s) ==> !p.ts.bad(s)
  {
    var query := [Now(InitTerm), Now(BadTerm)];
    assert query[0] in query && query[1] in query;
    if a.Sat? {
      assert Concretizes(p, [BadTerm], [a.m.cur]);
    } else {
      forall s | p.ts.init(s) ensures !p.ts.bad(s) {
        assert !IsModel(p, Model(s, {}, s), query);
      }
    }
  }

  lemma {:induction false} OneStepQuery(p: Problem, a: Answer)
    requires p.WellFormed() && AnswerOk(p, [Now(InitTerm), Trans, Next(BadTerm)], [], a)
    ensures a.Sat? ==> p.Dom(a.m.cur) && p.ts.init(a.m.cur)
    ensures a.Sat? ==> p.ts.trans(a.m.cur, a.m.inp, a.m.nxt) && p.ts.bad(a.m.nxt)
    ensures a.Unsat? ==> forall s, t :: p.ts.init(s) && Step(p.ts, s, t) ==> !p.ts.bad(t)
  {
    var query := [Now(InitTerm), Trans, Next(BadTerm)];
    assert query[0] in query && query[1] in query && query[2] in query;
    if a.Unsat? {
      forall s, t | p.ts.init(s) && Step(p.ts, s, t) ensures !p.ts.bad(t) {
        var inp :| p.ts.trans(s, inp, t);
        assert !IsModel(p, Model(s, inp, t), query);
      }
    }
  }

  /** A stored clause that subsumes the negated goal blocks it. */
  lemma {:induction false} SubsumedIsBlocked(p: Problem, fr: Frames, g: ProofGoal, j: nat, f: IC3Formula)
    requires OnlyClauses(fr) && 0 < g.idx <= j < |fr| && f in fr[j]
    requires !g.target.disjunction && Subsumes(f, Negate(g.target))
    ensures Blocked(p, fr, g)
  {
    forall s | FrameHolds(p, fr, g.idx, s) ensures !Eval(g.target, s) {
      SubsumesImplies(f, Negate(g.target), s);
      NegateComplements(g.target, s);
    }
  }

  ghost predicate QueueOk(p: Problem, fr: Frames, goals: seq<ProofGoal>) {
    forall g :: g in goals ==> GoalOk(p, fr, g)
  }

  lemma {:induction false} QueueSurvives(p: Problem, fr: Frames, fr': Frames, goals: seq<ProofGoal>)
    requires QueueOk(p, fr, goals) && Stronger(p, fr', fr)
    ensures QueueOk(p, fr', goals)
  {
    forall g | g in goals ensures GoalOk(p, fr', g) {
      GoalSurvives(p, fr, fr', g);
    }
  }

  lemma {:induction false} QueuePush(p: Problem, fr: Frames, goals: seq<ProofGoal>, g: ProofGoal)
    requires QueueOk(p, fr, goals) && GoalOk(p, fr, g)
    ensures QueueOk(p, fr, goals + [g])
  {
  }

  lemma {:induction false} QueueTop(p: Problem, fr: Frames, goals: seq<ProofGoal>)
    requires goals != [] && QueueOk(p, fr, goals)
    ensures GoalOk(p, fr, goals[TopIndex(goals)]) && QueueOk(p, fr, WithoutTop(goals))
    ensures goals[TopIndex(goals)].idx < |fr| && !goals[TopIndex(goals)].target.disjunction
  {
    assert goals[TopIndex(goals)] in goals;
  }

  // ----- traces -----

  function TraceOf(g: ProofGoal): (r: seq<Term>)
    ensures |r| >= 2 && r[0] == Unit(g.target)
  {
    [Unit(g.target)] +
    match g.next
    case None => [BadTerm]
    case Some(n) => TraceOf(n)
  }

  /** `r` is a counterexample whose states lie in the listed sets, one each. */
  ghost predicate Concretizes(p: Problem, cex: seq<Term>, r: seq<State>) {
    && IsCex(p.ts, r) && |r| == |cex|
    && forall k :: 0 <= k < |r| ==> Holds(p, cex[k], r[k])
  }

  lemma {:induction false} FollowGoals(p: Problem, g: ProofGoal, s: State) returns (r: seq<State>)
    requires p.WellFormed() && LeadsToBad(p, g) && p.Dom(s) && Eval(g.target, s)
    ensures IsPath(p.ts, r) && r[0] == s && |r| == |TraceOf(g)|
    ensures forall k :: 0 <= k < |r| ==> Holds(p, TraceOf(g)[k], r[k])
    ensures p.ts.bad(r[|r| - 1])
    decreases g
  {
    var u :| Step(p.ts, s, u) && Holds(p, NextTerm(g), u);
    var rest := [u];
    if g.next.Some? {
      rest := FollowGoals(p, g.next.value, u);
    }
    PathJoin(p.ts, [s], rest);
    r := [s] + rest;
    forall k | 0 <= k < |r| ensures Holds(p, TraceOf(g)[k], r[k]) {
      if k > 0 {
        assert r[k] == rest[k - 1];
      }
    }
  }

  /** A goal that reaches frame 0 stands for a real counterexample. */
  lemma {:induction false} GoalAtInitIsCex(p: Problem, fr: Frames, g: ProofGoal)
    requires p.WellFormed() && GoalOk(p, fr, g) && g.idx == 0
    ensures exists r :: Concretizes(p, TraceOf(g), r)
  {
    var s :| p.Dom(s) && FrameHolds(p, fr, 0, s) && Eval(g.target, s);
    var r := FollowGoals(p, g, s);
    assert Concretizes(p, TraceOf(g), r);
  }

  // ----- the queue -----

  /** A goal that is popped first: none has a lower frame index. */
  function TopIndex(goals: seq<ProofGoal>): (k: nat)
    requires goals != []
    ensures k < |goals| && forall m :: 0 <= m < |goals| ==> goals[k].idx <= goals[m].idx
  {
    if |goals| == 1 then 0 else
      var n := |goals| - 1;
      var k := TopIndex(goals[..n]);
      if goals[n].idx < goals[k].idx then n else k
  }

  function WithoutTop(goals: seq<ProofGoal>): seq<ProofGoal>
    requires goals != []
  {
    goals[..TopIndex(goals)] + goals[TopIndex(goals) + 1..]
  }

  /** The lowest frame index in the queue. */
  function TopFrame(goals: seq<ProofGoal>): nat {
    if goals == [] then 0 else goals[TopIndex(goals)].idx
  }

  class ProofGoalQueue {
    var goals: seq<ProofGoal>

    constructor ()
      ensures goals == []
    {
      goals := [];
    }

    method Clear()
      modifies this
      ensures goals == []
    {
      goals := [];
    }

    method NewProofGoal(c: IC3Formula, t: nat, n: Option<ProofGoal>)
      modifies this
      ensures goals == old(goals) + [ProofGoal(c, t, n)]
    {
      goals := goals + [ProofGoal(c, t, n)];
    }

    method Top() returns (g: ProofGoal)
      requires goals != []
      ensures g == goals[TopIndex(goals)]
    {
      g := goals[TopIndex(goals)];
    }

    method Pop()
      requires goals != []
      modifies this
      ensures goals == WithoutTop(old(goals))
    {
      goals := WithoutTop(goals);
    }
  }
}
