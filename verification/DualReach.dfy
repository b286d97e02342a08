/**
  Dual approximated reachability: a forward and a backward sequence of state
  sets that strengthen each other through interpolants.
 */
module DualReach {
  import opened Cardinality
  import opened Runs

  type States<!S> = S -> bool

  function And<S>(f: States<S>, g: States<S>): States<S> {
    s => f(s) && g(s)
  }

  function Or<S>(f: States<S>, g: States<S>): States<S> {
    s => f(s) || g(s)
  }

  function Not<S>(f: States<S>): States<S> {
    s => !f(s)
  }

  function Everything<S>(): States<S> {
    s => true
  }

  // ----- queries -----

  /** A path of `n` transitions from `f` to `b`; with no transition, one state in both. */
  ghost predicate PathBetween<S(!new), I(!new)>(ts: System<S, I>, f: States<S>, n: nat, b: States<S>, r: seq<S>) {
    |r| == n + 1 && IsPath(ts, r) && f(r[0]) && b(r[n])
  }

  ghost predicate HasPath<S(!new), I(!new)>(ts: System<S, I>, f: States<S>, n: nat, b: States<S>) {
    exists r: seq<S> :: PathBetween(ts, f, n, b, r)
  }

  datatype Answer<S> = Sat(r: seq<S>) | Unsat | Unknown

  /** What an interpolator returns; `Fails` is the solver's internal exception. */
  datatype Interpolation<!S> = Interpolants(itps: seq<States<S>>) | Satisfiable | Undecided | Fails

  ghost predicate AnswerOk<S(!new), I(!new)>(ts: System<S, I>, f: States<S>, n: nat, b: States<S>, a: Answer<S>) {
    match a
    case Sat(r) => PathBetween(ts, f, n, b, r)
    case Unsat => !HasPath(ts, f, n, b)
    case Unknown => true
  }

  /** The successors of `f` are in `i`. */
  ghost predicate PostIn<S(!new), I(!new)>(ts: System<S, I>, f: States<S>, i: States<S>) {
    forall s: S, t: S :: f(s) && Step(ts, s, t) ==> i(t)
  }

  /** The predecessors of `b` are in `i`. */
  ghost predicate PreIn<S(!new), I(!new)>(ts: System<S, I>, b: States<S>, i: States<S>) {
    forall s: S, t: S :: b(t) && Step(ts, s, t) ==> i(s)
  }

  ghost predicate Apart<S(!new)>(f: States<S>, g: States<S>) {
    forall s: S :: !(f(s) && g(s))
  }

  /** No transition from `f` to `b`. */
  ghost predicate NoStep<S(!new), I(!new)>(ts: System<S, I>, f: States<S>, b: States<S>) {
    forall s: S, t: S :: f(s) && b(t) ==> !Step(ts, s, t)
  }

  /** Interpolants of `f`, `n` transitions and `b`: one after each transition. */
  ghost predicate SequenceOk<S(!new), I(!new)>(
      ts: System<S, I>, f: States<S>, n: nat, b: States<S>, a: Interpolation<S>)
  {
    match a
    case Interpolants(itps) =>
      && |itps| == n > 0 && PostIn(ts, f, itps[0]) && Apart(itps[n - 1], b)
      && forall j :: 0 <= j < n - 1 ==> PostIn(ts, itps[j], itps[j + 1])
    case Satisfiable => HasPath(ts, f, n, b)
    case _ => true
  }

  /** The interpolant of `b` in the next state and the transition, against `f`. */
  ghost predicate BackwardOk<S(!new), I(!new)>(ts: System<S, I>, b: States<S>, f: States<S>, a: Interpolation<S>) {
    match a
    case Interpolants(itps) => |itps| == 1 && PreIn(ts, b, itps[0]) && Apart(itps[0], f)
    case Satisfiable => HasPath(ts, f, 1, b)
    case _ => true
  }

  /** The solver and the interpolator, each called with a counter. */
  datatype Tools<!S> = Tools(
    solve: (nat, States<S>, nat, States<S>) -> Answer<S>,
    forward: (nat, States<S>, nat, States<S>) -> Interpolation<S>,
    backward: (nat, States<S>, States<S>) -> Interpolation<S>)

  ghost predicate Correct<S(!new), I(!new)>(ts: System<S, I>, o: Tools<S>) {
    && (forall c: nat, f: States<S>, n: nat, b: States<S> :: AnswerOk(ts, f, n, b, o.solve(c, f, n, b)))
    && (forall c: nat, f: States<S>, n: nat, b: States<S> :: SequenceOk(ts, f, n, b, o.forward(c, f, n, b)))
    && (forall c: nat, f: States<S>, b: States<S> :: BackwardOk(ts, b, f, o.backward(c, b, f)))
  }

  /** Every query is decided. */
  ghost predicate Definite<S(!new)>(o: Tools<S>) {
    && (forall c: nat, f: States<S>, n: nat, b: States<S> :: !o.solve(c, f, n, b).Unknown?)
    && (forall c: nat, f: States<S>, n: nat, b: States<S> :: !o.forward(c, f, n, b).Undecided?)
    && (forall c: nat, f: States<S>, b: States<S> :: !o.backward(c, b, f).Undecided?)
  }

  ghost predicate NeverFails<S(!new)>(o: Tools<S>) {
    && (forall c: nat, f: States<S>, n: nat, b: States<S> :: !o.forward(c, f, n, b).Fails?)
    && (forall c: nat, f: States<S>, b: States<S> :: !o.backward(c, b, f).Fails?)
  }

  lemma {:induction false} OneStepPath<S(!new), I(!new)>(ts: System<S, I>, f: States<S>, b: States<S>)
    ensures HasPath(ts, f, 1, b) <==> !NoStep(ts, f, b)
  {
    if HasPath(ts, f, 1, b) {
      var r: seq<S> :| PathBetween(ts, f, 1, b, r);
      assert Step(ts, r[0], r[0 + 1]);
    }
    if s: S, t: S :| f(s) && b(t) && Step(ts, s, t) {
      assert PathBetween(ts, f, 1, b, [s, t]);
    }
  }

  lemma {:induction false} NoStepPath<S(!new), I(!new)>(ts: System<S, I>, f: States<S>, b: States<S>)
    ensures HasPath(ts, f, 0, b) <==> !Apart(f, b)
  {
    if HasPath(ts, f, 0, b) {
      var r: seq<S> :| PathBetween(ts, f, 0, b, r);
    }
    if s: S :| f(s) && b(s) {
      assert PathBetween(ts, f, 0, b, [s]);
    }
  }

  // ----- the two sequences -----

  ghost predicate ForwardLink<S(!new), I(!new)>(ts: System<S, I>, fs: seq<States<S>>, i: nat)
    requires i + 1 < |fs|
  {
    PostIn(ts, fs[i], fs[i + 1])
  }

  ghost predicate BackwardLink<S(!new), I(!new)>(ts: System<S, I>, bs: seq<States<S>>, i: nat)
    requires i + 1 < |bs|
  {
    PreIn(ts, bs[i], bs[i + 1])
  }

  /** F_0 is init, and the successors of F_i are in F_{i+1}. */
  ghost predicate ForwardSeq<S(!new), I(!new)>(ts: System<S, I>, fs: seq<States<S>>) {
    && |fs| > 0 && fs[0] == ts.init
    && forall i: nat :: i + 1 < |fs| ==> ForwardLink(ts, fs, i)
  }

  /** B_0 is bad, and the predecessors of B_i are in B_{i+1}. */
  ghost predicate BackwardSeq<S(!new), I(!new)>(ts: System<S, I>, bs: seq<States<S>>) {
    && |bs| > 0 && bs[0] == ts.bad
    && forall i: nat :: i + 1 < |bs| ==> BackwardLink(ts, bs, i)
  }

  /** Each of the first `n` sets is apart from `g`. */
  ghost predicate AllApart<S(!new)>(fs: seq<States<S>>, n: nat, g: States<S>)
    requires n <= |fs|
  {
    forall i :: 0 <= i < n ==> Apart(fs[i], g)
  }

  ghost predicate Sequences<S(!new), I(!new)>(ts: System<S, I>, fs: seq<States<S>>, bs: seq<States<S>>, n: nat) {
    && |fs| == |bs| == n && ForwardSeq(ts, fs) && BackwardSeq(ts, bs)
    && AllApart(fs, n, ts.bad) && AllApart(bs, n, ts.init)
  }

  lemma {:induction false} ForwardExtended<S(!new), I(!new)>(ts: System<S, I>, fs: seq<States<S>>, n: nat)
    requires n <= |fs| && ForwardSeq(ts, fs) && AllApart(fs, n, ts.bad)
    ensures ForwardSeq(ts, fs + [Everything()]) && AllApart(fs + [Everything()], n, ts.bad)
  {
    var fs' := fs + [Everything()];
    forall i: nat | i + 1 < |fs'| ensures ForwardLink(ts, fs', i) {
      if i + 1 < |fs| {
        assert ForwardLink(ts, fs, i);
      }
    }
  }

  lemma {:induction false} BackwardExtended<S(!new), I(!new)>(ts: System<S, I>, bs: seq<States<S>>, n: nat)
    requires n <= |bs| && BackwardSeq(ts, bs) && AllApart(bs, n, ts.init)
    ensures BackwardSeq(ts, bs + [Everything()]) && AllApart(bs + [Everything()], n, ts.init)
  {
    var bs' := bs + [Everything()];
    forall i: nat | i + 1 < |bs'| ensures BackwardLink(ts, bs', i) {
      if i + 1 < |bs| {
        assert BackwardLink(ts, bs, i);
      }
    }
  }

  /** Conjoining a superset of the successors of F_i to F_{i+1} keeps the sequence. */
  lemma {:induction false} ForwardStrengthened<S(!new), I(!new)>(
      ts: System<S, I>, fs: seq<States<S>>, n: nat, i: nat, itp: States<S>)
    requires n <= |fs| && ForwardSeq(ts, fs) && AllApart(fs, n, ts.bad)
    requires i + 1 < |fs| && PostIn(ts, fs[i], itp)
    ensures ForwardSeq(ts, fs[i + 1 := And(fs[i + 1], itp)]) && AllApart(fs[i + 1 := And(fs[i + 1], itp)], n, ts.bad)
  {
    var fs' := fs[i + 1 := And(fs[i + 1], itp)];
    forall j: nat | j + 1 < |fs'| ensures ForwardLink(ts, fs', j) {
      assert ForwardLink(ts, fs, j);
    }
    forall j | 0 <= j < n ensures Apart(fs'[j], ts.bad) {
      assert Apart(fs[j], ts.bad);
    }
  }

  lemma {:induction false} BackwardStrengthened<S(!new), I(!new)>(
      ts: System<S, I>, bs: seq<States<S>>, n: nat, i: nat, itp: States<S>)
    requires n <= |bs| && BackwardSeq(ts, bs) && AllApart(bs, n, ts.init)
    requires i + 1 < |bs| && PreIn(ts, bs[i], itp)
    ensures BackwardSeq(ts, bs[i + 1 := And(bs[i + 1], itp)]) && AllApart(bs[i + 1 := And(bs[i + 1], itp)], n, ts.init)
  {
    var bs' := bs[i + 1 := And(bs[i + 1], itp)];
    forall j: nat | j + 1 < |bs'| ensures BackwardLink(ts, bs', j) {
      assert BackwardLink(ts, bs, j);
    }
    forall j | 0 <= j < n ensures Apart(bs'[j], ts.init) {
      assert Apart(bs[j], ts.init);
    }
  }

  /** Apart from B_{j+1} means no step into B_j; apart from F_{j+1}, no step from F_j. */
  lemma {:induction false} ApartMeansNoStepInto<S(!new), I(!new)>(
      ts: System<S, I>, f: States<S>, bs: seq<States<S>>, j: nat)
    requires BackwardSeq(ts, bs) && j + 1 < |bs| && Apart(f, bs[j + 1])
    ensures NoStep(ts, f, bs[j])
  {
    assert BackwardLink(ts, bs, j);
    forall s: S, t: S | f(s) && bs[j](t) ensures !Step(ts, s, t) {
      assert !(f(s) && bs[j + 1](s));
    }
  }

  lemma {:induction false} ApartMeansNoStepFrom<S(!new), I(!new)>(
      ts: System<S, I>, fs: seq<States<S>>, b: States<S>, j: nat)
    requires ForwardSeq(ts, fs) && j + 1 < |fs| && Apart(b, fs[j + 1])
    ensures NoStep(ts, fs[j], b)
  {
    assert ForwardLink(ts, fs, j);
    forall s: S, t: S | fs[j](s) && b(t) ensures !Step(ts, s, t) {
      assert !(b(t) && fs[j + 1](t));
    }
  }

  /** A run stays in the forward sequence. */
  lemma {:induction false} RunInForward<S(!new), I(!new)>(ts: System<S, I>, fs: seq<States<S>>, r: seq<S>, k: nat)
    requires ForwardSeq(ts, fs) && IsRun(ts, r) && k < |r| && k < |fs|
    ensures fs[k](r[k])
  {
    if k > 0 {
      RunInForward(ts, fs, r, k - 1);
      assert ForwardLink(ts, fs, k - 1);
      assert Step(ts, r[k - 1], r[k - 1 + 1]);
    }
  }

  /** Every counterexample has at least `n` transitions. */
  ghost predicate NoCexBelow<S(!new), I(!new)>(ts: System<S, I>, n: int) {
    forall r: seq<S> :: IsCex(ts, r) ==> |r| > n
  }

  lemma {:induction false} ForwardExcludesCex<S(!new), I(!new)>(ts: System<S, I>, fs: seq<States<S>>, n: nat)
    requires n <= |fs| && ForwardSeq(ts, fs) && AllApart(fs, n, ts.bad)
    ensures NoCexBelow(ts, n)
  {
    forall r: seq<S> | IsRun(ts, r) && |r| <= n ensures !ts.bad(r[|r| - 1]) {
      RunInForward(ts, fs, r, |r| - 1);
      assert Apart(fs[|r| - 1], ts.bad);
    }
  }

  /** A path of `n` transitions from init to bad is shortest when there is no shorter one. */
  lemma {:induction false} PathIsShortestCex<S(!new), I(!new)>(ts: System<S, I>, n: nat) returns (r: seq<S>)
    requires HasPath(ts, ts.init, n, ts.bad) && NoCexBelow(ts, n)
    ensures IsShortestCex(ts, r) && |r| == n + 1
  {
    r :| PathBetween(ts, ts.init, n, ts.bad, r);
    assert IsCex(ts, r);
  }

  // ----- fixed points -----

  ghost predicate InSome<S(!new)>(fs: seq<States<S>>, n: nat, s: S)
    requires n <= |fs|
  {
    exists j :: 0 <= j < n && fs[j](s)
  }

  /** The union of the first `n` sets contains the next one. */
  ghost predicate Covered<S(!new)>(fs: seq<States<S>>, n: nat)
    requires n < |fs|
  {
    forall s: S :: fs[n](s) ==> InSome(fs, n, s)
  }

  lemma {:induction false} ForwardFixedPoint<S(!new), I(!new)>(ts: System<S, I>, fs: seq<States<S>>, n: nat)
    requires 0 < n < |fs| && ForwardSeq(ts, fs) && AllApart(fs, n, ts.bad) && Covered(fs, n)
    ensures IsInductiveInvariant(ts, iset s: S | InSome(fs, n, s))
  {
    var inv := iset s: S | InSome(fs, n, s);
    forall s: S, t: S | s in inv && Step(ts, s, t) ensures t in inv {
      var j :| 0 <= j < n && fs[j](s);
      assert ForwardLink(ts, fs, j);
      assert fs[j + 1](t);
    }
    forall s: S | s in inv ensures !ts.bad(s) {
      var j :| 0 <= j < n && fs[j](s);
      assert Apart(fs[j], ts.bad);
    }
  }

  lemma {:induction false} BackwardFixedPoint<S(!new), I(!new)>(ts: System<S, I>, bs: seq<States<S>>, n: nat)
    requires 0 < n < |bs| && BackwardSeq(ts, bs) && AllApart(bs, n, ts.init) && Covered(bs, n)
    ensures IsInductiveInvariant(ts, iset s: S | !InSome(bs, n, s))
  {
    var inv := iset s: S | !InSome(bs, n, s);
    forall s: S | ts.init(s) ensures s in inv {
      forall j | 0 <= j < n ensures !bs[j](s) {
        assert Apart(bs[j], ts.init);
      }
    }
    forall s: S, t: S | InSome(bs, n, t) && Step(ts, s, t) ensures InSome(bs, n, s) {
      var j :| 0 <= j < n && bs[j](t);
      assert BackwardLink(ts, bs, j);
      assert bs[j + 1](s);
    }
    forall s: S | ts.bad(s) ensures InSome(bs, n, s) {
      assert bs[0](s);
    }
  }

  /** `acc` is the union of the first `n` sets. */
  ghost predicate IsUnion<S(!new)>(acc: States<S>, fs: seq<States<S>>, n: nat)
    requires n <= |fs|
  {
    forall s: S :: acc(s) <==> InSome(fs, n, s)
  }

  ghost predicate GrowsBelow<S(!new)>(fs: seq<States<S>>, n: nat)
    requires n <= |fs|
  {
    forall m :: 0 < m < n ==> !Covered(fs, m)
  }

  /** Each set of the sequence adds a state to those before it. */
  ghost predicate KeepsGrowing<S(!new)>(fs: seq<States<S>>) {
    GrowsBelow(fs, |fs|)
  }

  ghost function StatesBelow<S(!new)>(fs: seq<States<S>>, n: nat, all: set<S>): set<S>
    requires n <= |fs|
  {
    set s | s in all && InSome(fs, n, s)
  }

  lemma {:induction false} GrowingIsShort<S(!new)>(fs: seq<States<S>>, n: nat, all: set<S>)
    requires 0 < n <= |fs| && KeepsGrowing(fs) && forall s: S :: s in all
    ensures n - 1 <= |StatesBelow(fs, n, all)| <= |all|
  {
    SubsetSmaller(StatesBelow(fs, n, all), all);
    if n > 1 {
      GrowingIsShort(fs, n - 1, all);
      assert !Covered(fs, n - 1);
      var s: S :| fs[n - 1](s) && !InSome(fs, n - 1, s);
      var was := StatesBelow(fs, n - 1, all);
      forall t | t in was + {s} ensures t in StatesBelow(fs, n, all) {
        if t != s {
          var j :| 0 <= j < n - 1 && fs[j](t);
        }
      }
      SubsetSmaller(was + {s}, StatesBelow(fs, n, all));
    }
  }

  // ----- the engine -----

  /** `Broke` is the exception for an answer the engine does not expect; `Failed` is the solver's own. */
  datatype Status = Fine | Broke | Failed

  datatype Outcome = Verdict(r: ProverResult) | Threw

  /** The queries of pairwise strengthening have no model from `idx` on. */
  ghost predicate Aligned<S(!new), I(!new)>(ts: System<S, I>, fs: seq<States<S>>, bs: seq<States<S>>, n: nat, idx: nat)
    requires idx < n <= |fs| && n <= |bs|
  {
    NoStep(ts, fs[idx], bs[n - 1 - idx])
  }

  class DualApproxReach<S(!new), I(!new)> {
    const ts: System<S, I>
    const tools: Tools<S>

    var reachedK: int
    var concreteCex: bool
    var forwardSeq: seq<States<S>>
    var backwardSeq: seq<States<S>>
    var invar: States<S>
    var calls: nat

    ghost predicate Fit() {
      Correct(ts, tools)
    }

    ghost predicate Valid(n: nat)
      reads this
    {
      Sequences(ts, forwardSeq, backwardSeq, n)
    }

    constructor (ts: System<S, I>, tools: Tools<S>)
      ensures this.ts == ts && this.tools == tools && reachedK == -1 && !concreteCex
      ensures forwardSeq == [ts.init] && backwardSeq == [ts.bad] && At(-1) && Growing()
    {
      this.ts, this.tools := ts, tools;
      reachedK, concreteCex, calls := -1, false, 0;
      forwardSeq, backwardSeq, invar := [ts.init], [ts.bad], Everything();
    }

    method CheckSat(f: States<S>, n: nat, b: States<S>) returns (a: Answer<S>)
      requires Fit()
      modifies `calls
      ensures AnswerOk(ts, f, n, b, a) && (Definite(tools) ==> !a.Unknown?)
    {
      calls := calls + 1;
      a := tools.solve(calls, f, n, b);
    }

    /** Without a step from `f` to `b` the query cannot come back satisfiable. */
    method InterpolateForward(f: States<S>, b: States<S>) returns (st: Status, itp: States<S>)
      requires Fit() && NoStep(ts, f, b)
      modifies `calls
      ensures (Definite(tools) ==> st != Broke) && (NeverFails(tools) ==> st != Failed)
      ensures st == Fine ==> PostIn(ts, f, itp) && Apart(itp, b)
    {
      OneStepPath(ts, f, b);
      calls := calls + 1;
      var a := tools.forward(calls, f, 1, b);
      ForwardAnswer(ts, f, b, a);
      match a
      case Interpolants(itps) => return Fine, itps[0];
      case Fails => return Failed, f;
      case _ => return Broke, f;
    }

    method InterpolateBackward(b: States<S>, f: States<S>) returns (st: Status, itp: States<S>)
      requires Fit() && NoStep(ts, f, b)
      modifies `calls
      ensures (Definite(tools) ==> st != Broke) && (NeverFails(tools) ==> st != Failed)
      ensures st == Fine ==> PreIn(ts, b, itp) && Apart(itp, f)
    {
      OneStepPath(ts, f, b);
      calls := calls + 1;
      var a := tools.backward(calls, b, f);
      BackwardAnswer(ts, f, b, a);
      match a
      case Interpolants(itps) => return Fine, itps[0];
      case Fails => return Failed, f;
      case _ => return Broke, f;
    }

    /** First loop of pairwise strengthening: F_{i+1} for i from `idx`, extending the sequence by one set. */
    method StrengthenForward(idx: nat) returns (st: Status)
      requires Fit() && Valid(|forwardSeq|) && idx < |forwardSeq|
      requires Aligned(ts, forwardSeq, backwardSeq, |forwardSeq|, idx)
      modifies `forwardSeq, `calls
      ensures Definite(tools) ==> st != Broke
      ensures NeverFails(tools) ==> st != Failed
      ensures st == Fine ==> |forwardSeq| == |backwardSeq| + 1 && ForwardSeq(ts, forwardSeq)
      ensures st == Fine ==> AllApart(forwardSeq, |forwardSeq|, ts.bad)
      ensures st == Fine ==> forwardSeq[..idx + 1] == old(forwardSeq)[..idx + 1]
    {
      hide ForwardSeq, BackwardSeq, AllApart, NoStep, Apart, PostIn;
      var n := |forwardSeq|;
      ForwardExtended(ts, forwardSeq, n);
      forwardSeq := forwardSeq + [Everything()];
      var i := idx;
      while i < n
        invariant idx <= i <= n && |forwardSeq| == n + 1 && forwardSeq[..idx + 1] == old(forwardSeq)[..idx + 1]
        invariant ForwardSeq(ts, forwardSeq) && AllApart(forwardSeq, n, ts.bad)
        invariant if i == idx then Aligned(ts, forwardSeq, backwardSeq, n, idx)
          else Apart(forwardSeq[i], backwardSeq[n - i])
      {
        var f, b := forwardSeq[i], backwardSeq[n - 1 - i];
        if i > idx {
          ApartMeansNoStepInto(ts, f, backwardSeq, n - 1 - i);
        }
        var itp;
        st, itp := InterpolateForward(f, b);
        if st != Fine {
          return;
        }
        ForwardStrengthened(ts, forwardSeq, n, i, itp);
        AndApart(forwardSeq[i + 1], itp, b);
        forwardSeq := forwardSeq[i + 1 := And(forwardSeq[i + 1], itp)];
        i := i + 1;
      }
      LastApart(ts, forwardSeq, backwardSeq, n);
      st := Fine;
    }

    /** Second loop: B_{i+1} for i from `n - 1 - idx`. */
    method StrengthenBackward(idx: nat) returns (st: Status)
      requires Fit() && idx < |backwardSeq| && |forwardSeq| == |backwardSeq| + 1
      requires ForwardSeq(ts, forwardSeq) && BackwardSeq(ts, backwardSeq)
      requires AllApart(backwardSeq, |backwardSeq|, ts.init)
      requires Aligned(ts, forwardSeq, backwardSeq, |backwardSeq|, idx)
      modifies `backwardSeq, `calls
      ensures Definite(tools) ==> st != Broke
      ensures NeverFails(tools) ==> st != Failed
      ensures st == Fine ==> |backwardSeq| == |forwardSeq| && BackwardSeq(ts, backwardSeq)
      ensures st == Fine ==> AllApart(backwardSeq, |backwardSeq|, ts.init)
      ensures st == Fine ==> var n := old(|backwardSeq|); backwardSeq[..n - idx] == old(backwardSeq)[..n - idx]
    {
      hide ForwardSeq, BackwardSeq, AllApart, NoStep, Apart, PreIn;
      var n := |backwardSeq|;
      BackwardExtended(ts, backwardSeq, n);
      backwardSeq := backwardSeq + [Everything()];
      var i := n - 1 - idx;
      while i < n
        invariant n - 1 - idx <= i <= n && |backwardSeq| == n + 1
        invariant backwardSeq[..n - idx] == old(backwardSeq)[..n - idx]
        invariant BackwardSeq(ts, backwardSeq) && AllApart(backwardSeq, n, ts.init)
        invariant if i == n - 1 - idx then Aligned(ts, forwardSeq, backwardSeq, n, idx)
          else Apart(backwardSeq[i], forwardSeq[n - i])
      {
        var f, b := forwardSeq[n - 1 - i], backwardSeq[i];
        if i > n - 1 - idx {
          ApartMeansNoStepFrom(ts, forwardSeq, b, n - 1 - i);
        }
        var itp;
        st, itp := InterpolateBackward(b, f);
        if st != Fine {
          return;
        }
        BackwardStrengthened(ts, backwardSeq, n, i, itp);
        AndApart(backwardSeq[i + 1], itp, f);
        backwardSeq := backwardSeq[i + 1 := And(backwardSeq[i + 1], itp)];
        i := i + 1;
      }
      FirstForward(ts, forwardSeq);
      LastBackwardApart(ts, backwardSeq, n);
      st := Fine;
    }

    method PairwiseStrengthen(idx: nat) returns (st: Status)
      requires Fit() && Valid(|forwardSeq|) && idx < |forwardSeq|
      requires Aligned(ts, forwardSeq, backwardSeq, |forwardSeq|, idx)
      modifies `forwardSeq, `backwardSeq, `calls
      ensures Definite(tools) ==> st != Broke
      ensures NeverFails(tools) ==> st != Failed
      ensures st == Fine ==> Valid(old(|forwardSeq|) + 1)
      ensures st == Fine ==> forwardSeq[..idx + 1] == old(forwardSeq)[..idx + 1]
      ensures st == Fine ==> var n := old(|backwardSeq|); backwardSeq[..n - idx] == old(backwardSeq)[..n - idx]
    {
      hide ForwardSeq, BackwardSeq, AllApart, NoStep;
      st := StrengthenForward(idx);
      if st == Fine {
        assert forwardSeq[idx] == forwardSeq[..idx + 1][idx];
        st := StrengthenBackward(idx);
      }
    }

    /** A pair of opposite sets without a step between. */
    ghost predicate Gap(fs: seq<States<S>>, bs: seq<States<S>>, idx: nat) {
      idx < |fs| == |bs| && Aligned(ts, fs, bs, |fs|, idx)
    }

    /** What local strengthening leaves: nothing changes up to the last such pair. */
    ghost predicate FromLastGap(
        fs: seq<States<S>>, bs: seq<States<S>>, fs': seq<States<S>>, bs': seq<States<S>>, idx: nat)
    {
      && Gap(fs, bs, idx) && (Definite(tools) ==> forall m: nat :: idx < m < |fs| ==> !Gap(fs, bs, m))
      && |fs'| == |bs'| == |fs| + 1
      && fs'[..idx + 1] == fs[..idx + 1] && bs'[..|bs| - idx] == bs[..|bs| - idx]
    }

    /** Looks from the end of the forward sequence for a pair without a step between, and strengthens from there. */
    method LocalStrengthen() returns (st: Status, found: bool, ghost idx: nat)
      requires Fit() && Valid(|forwardSeq|) && |forwardSeq| > 0
      modifies `forwardSeq, `backwardSeq, `calls
      ensures Definite(tools) ==> st != Broke
      ensures NeverFails(tools) ==> st != Failed
      ensures st == Fine && found ==> Valid(old(|forwardSeq|) + 1)
      ensures st == Fine && !found ==> forwardSeq == old(forwardSeq) && backwardSeq == old(backwardSeq)
      ensures st == Fine && !found ==> HasPath(ts, ts.init, 1, backwardSeq[|backwardSeq| - 1])
      ensures st == Fine && found ==> FromLastGap(old(forwardSeq), old(backwardSeq), forwardSeq, backwardSeq, idx)
      ensures st == Fine && !found && Definite(tools) ==> forall m: nat :: !Gap(old(forwardSeq), old(backwardSeq), m)
    {
      hide BackwardSeq, AllApart, NoStep, HasPath;
      var n := |forwardSeq|;
      var u := 0;
      while true
        invariant u < n && forwardSeq == old(forwardSeq) && backwardSeq == old(backwardSeq)
        invariant Definite(tools) ==> forall m: nat :: n - 1 - u < m < n ==> !Gap(forwardSeq, backwardSeq, m)
        decreases n - u
      {
        var f, b := forwardSeq[n - 1 - u], backwardSeq[u];
        var a := CheckSat(f, 1, b);
        OneStepPath(ts, f, b);
        if a.Unsat? {
          break;
        }
        if a.Sat? {
          SatHasPath(ts, f, 1, b, a.r);
        }
        if u == n - 1 {
          if !a.Sat? {
            return Broke, false, 0;
          }
          return Fine, false, 0;
        }
        u := u + 1;
      }
      idx := n - 1 - u;
      st := PairwiseStrengthen(n - 1 - u);
      found := true;
    }

    /** A path of `u + 1` transitions leads from init into the set opposite F_u. */
    ghost predicate Spans(bs: seq<States<S>>, u: nat) {
      u < |bs| && HasPath(ts, ts.init, u + 1, bs[|bs| - 1 - u])
    }

    /** What global strengthening leaves: the first missing path is interpolated, from there on the pairs are. */
    ghost predicate FromFirstMiss(
        fs: seq<States<S>>, bs: seq<States<S>>, fs': seq<States<S>>, bs': seq<States<S>>, u: nat, c: nat)
    {
      && |fs'| == |bs'| == |fs| + 1 == |bs| + 1
      && 1 <= u < |bs| && !Spans(bs, u) && (Definite(tools) ==> forall v: nat :: 1 <= v < u ==> Spans(bs, v))
      && bs'[..|bs| - u] == bs[..|bs| - u] && Conjoined(fs, fs', tools.forward(c, ts.init, u + 1, bs[|bs| - 1 - u]), u)
    }

    /** F_1 to F_u have got the interpolants of their index. */
    ghost predicate Conjoined(fs: seq<States<S>>, fs': seq<States<S>>, a: Interpolation<S>, u: nat) {
      && a.Interpolants? && |a.itps| > u && |fs'| >= |fs| > u && fs'[0] == fs[0]
      && forall m :: 1 <= m <= u ==> fs'[m] == And(fs[m], a.itps[m - 1])
    }

    /** Strengthening the pairs from `u` on leaves F_1 to F_u as they were. */
    lemma {:induction false} ConjoinedStays(
        fs: seq<States<S>>, mid: seq<States<S>>, fs': seq<States<S>>, a: Interpolation<S>, u: nat)
      requires Conjoined(fs, mid, a, u) && u < |mid| <= |fs'| && fs'[..u + 1] == mid[..u + 1]
      ensures Conjoined(fs, fs', a, u)
    {
      forall m | 0 <= m <= u ensures fs'[m] == mid[m] {
        assert fs'[..u + 1][m] == mid[..u + 1][m];
      }
    }

    /** Looks along the backward sequence for the first set that no path from init leads into. */
    method FirstMiss() returns (st: Status, u: nat, missing: bool)
      requires Fit() && Valid(|forwardSeq|) && |forwardSeq| > 1
      modifies `calls
      ensures st != Failed && (Definite(tools) ==> st != Broke)
      ensures st == Fine && missing ==> 1 <= u < |forwardSeq| && !Spans(backwardSeq, u)
      ensures st == Fine && Definite(tools) ==> forall v: nat :: 1 <= v < u ==> Spans(backwardSeq, v)
      ensures st == Fine && !missing ==> HasPath(ts, ts.init, |forwardSeq|, ts.bad)
    {
      hide AllApart, HasPath, ForwardSeq, BackwardSeq;
      var n := |forwardSeq|;
      FirstForward(ts, forwardSeq);
      FirstBackward(ts, backwardSeq);
      u := 1;
      while true
        invariant 1 <= u < n
        invariant Definite(tools) ==> forall v: nat :: 1 <= v < u ==> Spans(backwardSeq, v)
        decreases n - u
      {
        var b := backwardSeq[n - 1 - u];
        var a := CheckSat(forwardSeq[0], u + 1, b);
        if a.Unsat? {
          return Fine, u, true;
        }
        if a.Sat? {
          SatHasPath(ts, ts.init, u + 1, b, a.r);
        }
        if u == n - 1 {
          return if a.Sat? then Fine else Broke, u, false;
        }
        u := u + 1;
      }
    }

    /** Interpolates the first path from init that is missing, and strengthens from there. */
    method GlobalStrengthen() returns (st: Status, found: bool, ghost u0: nat, ghost c: nat)
      requires Fit() && Valid(|forwardSeq|) && |forwardSeq| > 1
      modifies `forwardSeq, `backwardSeq, `calls
      ensures Definite(tools) ==> st != Broke
      ensures NeverFails(tools) ==> st != Failed
      ensures st == Fine && found ==> Valid(old(|forwardSeq|) + 1)
      ensures st == Fine && !found ==> forwardSeq == old(forwardSeq) && backwardSeq == old(backwardSeq)
      ensures st == Fine && !found ==> HasPath(ts, ts.init, |forwardSeq|, ts.bad)
      ensures st == Fine && found ==>
        FromFirstMiss(old(forwardSeq), old(backwardSeq), forwardSeq, backwardSeq, u0, c)
    {
      hide AllApart, NoStep, HasPath, PostIn, Apart, Conjoined, ForwardSeq, BackwardSeq, SequenceOk;
      var u, missing;
      st, u, missing := FirstMiss();
      u0, c := u, calls + 1;
      if st != Fine || !missing {
        return st, false, u, c;
      }
      FirstForward(ts, forwardSeq);
      var n := |forwardSeq|;
      calls := calls + 1;
      var itp := tools.forward(calls, forwardSeq[0], u + 1, backwardSeq[n - 1 - u]);
      SequenceAnswer(ts, forwardSeq[0], u + 1, backwardSeq[n - 1 - u], itp);
      if itp.Fails? {
        return Failed, false, u, c;
      }
      if !itp.Interpolants? {
        return Broke, false, u, c;
      }
      ConjoinInterpolants(itp.itps, u);
      ghost var fs := forwardSeq;
      st := PairwiseStrengthen(u);
      found := true;
      if st == Fine {
        ConjoinedStays(old(forwardSeq), fs, forwardSeq, itp, u);
      }
    }

    /** F_i gets the i-th interpolant, for every index the sequence has. */
    method ConjoinInterpolants(itps: seq<States<S>>, u: nat)
      requires Valid(|forwardSeq|) && 1 <= u < |forwardSeq|
      requires SequenceOk(ts, ts.init, u + 1, backwardSeq[|backwardSeq| - 1 - u], Interpolants(itps))
      modifies `forwardSeq
      ensures Valid(old(|forwardSeq|)) && Aligned(ts, forwardSeq, backwardSeq, |forwardSeq|, u)
      ensures Conjoined(old(forwardSeq), forwardSeq, Interpolants(itps), u)
    {
      hide ForwardSeq, BackwardSeq, AllApart, NoStep, PostIn, Apart;
      var n := |forwardSeq|;
      FirstForward(ts, forwardSeq);
      var i := 1;
      while i < n && i < u + 2
        invariant 1 <= i <= n && i <= u + 2 && |forwardSeq| == n
        invariant ForwardSeq(ts, forwardSeq) && AllApart(forwardSeq, n, ts.bad)
        invariant i > 1 ==> Below(forwardSeq[i - 1], itps[i - 2])
        invariant i > u ==> Below(forwardSeq[u], itps[u - 1])
        invariant i == 1 ==> forwardSeq == old(forwardSeq)
        invariant forwardSeq[0] == old(forwardSeq)[0] && forwardSeq[i..] == old(forwardSeq)[i..]
        invariant forall m :: 1 <= m < i ==> forwardSeq[m] == And(old(forwardSeq)[m], itps[m - 1])
      {
        if i == 1 {
          FirstForward(ts, forwardSeq);
        } else {
          assert PostIn(ts, itps[i - 2], itps[i - 2 + 1]);
          BelowPost(ts, forwardSeq[i - 1], itps[i - 2], itps[i - 1]);
        }
        ForwardStrengthened(ts, forwardSeq, n, i - 1, itps[i - 1]);
        AndBelow(forwardSeq[i], itps[i - 1]);
        forwardSeq := forwardSeq[i := And(forwardSeq[i], itps[i - 1])];
        i := i + 1;
      }
      assert PostIn(ts, itps[u - 1], itps[u - 1 + 1]);
      BelowNoStep(ts, forwardSeq[u], itps[u - 1], itps[u], backwardSeq[n - 1 - u]);
    }

    /** Reports the first set contained in the union of those before it. */
    method FixedPointIn(reach: seq<States<S>>) returns (found: bool, acc: States<S>, ghost n: nat)
      requires Fit() && |reach| > 0
      modifies `calls
      ensures found ==> 0 < n < |reach| && Covered(reach, n) && IsUnion(acc, reach, n)
      ensures !found && Definite(tools) ==> KeepsGrowing(reach)
    {
      hide Covered, HasPath, Apart, InSome, KeepsGrowing, IsUnion;
      acc := reach[0];
      FirstUnion(reach);
      var i := 1;
      while i < |reach|
        invariant 1 <= i <= |reach| && IsUnion(acc, reach, i)
        invariant Definite(tools) ==> GrowsBelow(reach, i)
      {
        var a := CheckSat(reach[i], 0, Not(acc));
        NoStepPath(ts, reach[i], Not(acc));
        ApartIsCovered(reach, i, acc);
        if a.Unsat? {
          return true, acc, i;
        }
        if a.Sat? {
          SatHasPath(ts, reach[i], 0, Not(acc), a.r);
          if Definite(tools) {
            GrowsOn(reach, i);
          }
        }
        NextUnion(acc, reach, i);
        acc := Or(acc, reach[i]);
        i := i + 1;
      }
      if Definite(tools) {
        GrowsToEnd(reach);
      }
      return false, acc, 0;
    }

    method CheckFixedPoint() returns (found: bool)
      requires Fit() && Valid(|forwardSeq|) && |forwardSeq| > 1
      modifies `invar, `calls
      ensures found ==> IsInductiveInvariant(ts, iset s: S | invar(s))
      ensures !found && Definite(tools) ==> KeepsGrowing(forwardSeq) && KeepsGrowing(backwardSeq)
    {
      hide ForwardSeq, BackwardSeq, KeepsGrowing, Covered, InSome, IsInductiveInvariant;
      var acc; ghost var n;
      found, acc, n := FixedPointIn(forwardSeq);
      if found {
        ForwardApart(ts, forwardSeq, n);
        ForwardFixedPoint(ts, forwardSeq, n);
        invar := acc;
        assert (iset s: S | invar(s)) == (iset s: S | InSome(forwardSeq, n, s));
        return;
      }
      found, acc, n := FixedPointIn(backwardSeq);
      if found {
        BackwardApart(ts, backwardSeq, n);
        BackwardFixedPoint(ts, backwardSeq, n);
        invar := Not(acc);
        assert (iset s: S | invar(s)) == (iset s: S | !InSome(backwardSeq, n, s));
      }
    }

    /** What holds between two bounds. */
    ghost predicate At(i: int)
      reads this
    {
      && reachedK == i && !concreteCex
      && if i == -1 then forwardSeq == [ts.init] && backwardSeq == [ts.bad] else i >= 0 && Valid(i + 1)
    }

    method Step0() returns (st: Status)
      requires Fit() && At(-1)
      modifies this
      ensures Definite(tools) ==> st != Broke
      ensures st != Failed
      ensures st == Fine && !concreteCex ==> At(0)
      ensures st == Fine && concreteCex ==> reachedK == -1 && exists r: seq<S> :: IsShortestCex(ts, r) && |r| == 1
    {
      var a := CheckSat(forwardSeq[0], 0, backwardSeq[0]);
      NoStepPath(ts, ts.init, ts.bad);
      match a
      case Unsat =>
        reachedK := 0;
        st := Fine;
      case Sat(r) =>
        assert IsShortestCex(ts, r);
        concreteCex := true;
        st := Fine;
      case Unknown =>
        st := Broke;
    }

    /** A decided solver has left every set of both sequences with something new. */
    ghost predicate Growing()
      reads this
    {
      Definite(tools) && reachedK > 0 ==> KeepsGrowing(forwardSeq) && KeepsGrowing(backwardSeq)
    }

    /** Strengthened from the last pair without a step between; without such a pair, from the first missing path. */
    ghost predicate Strengthened(fs: seq<States<S>>, bs: seq<States<S>>)
      reads `forwardSeq, `backwardSeq
    {
      || (exists idx: nat :: FromLastGap(fs, bs, forwardSeq, backwardSeq, idx))
      || ((forall m: nat :: !Gap(fs, bs, m)) &&
          exists u: nat, c: nat :: FromFirstMiss(fs, bs, forwardSeq, backwardSeq, u, c))
    }

    /** One bound; bounds reached in an earlier call are passed over. */
    method Step(i: nat) returns (st: Status, proved: bool)
      requires Fit() && At(reachedK) && Growing() && i <= reachedK + 1
      modifies this
      ensures Definite(tools) ==> st != Broke
      ensures NeverFails(tools) ==> st != Failed
      ensures st == Fine && proved ==> IsInductiveInvariant(ts, iset s: S | invar(s))
      ensures st == Fine && !proved && !concreteCex ==>
        At(reachedK) && Growing() && reachedK == if i <= old(reachedK) then old(reachedK) else i
      ensures st == Fine && concreteCex ==>
        !proved && exists r: seq<S> :: IsShortestCex(ts, r) && |r| == i + 1 == reachedK + 2
      ensures st == Fine && !concreteCex && i > old(reachedK) && i > 0 && Definite(tools) ==>
        Strengthened(old(forwardSeq), old(backwardSeq))
    {
      hide ForwardSeq, AllApart, KeepsGrowing, IsInductiveInvariant, HasPath, IsShortestCex;
      hide FromLastGap, FromFirstMiss, Gap;
      if i <= reachedK {
        return Fine, false;
      }
      if i == 0 {
        st := Step0();
        return st, false;
      }
      var found; ghost var idx; ghost var u; ghost var c;
      st, found, idx := LocalStrengthen();
      if st == Fine && !found && i > 1 {
        st, found, u, c := GlobalStrengthen();
      }
      if st != Fine {
        return st, false;
      }
      if !found {
        ForwardExcludesCex(ts, forwardSeq, i);
        var r := PathIsShortestCex(ts, i);
        concreteCex := true;
        return Fine, false;
      }
      reachedK := reachedK + 1;
      proved := CheckFixedPoint();
    }

    /** The bound is at most the number of states, if that is finite. */
    ghost predicate WithinStates(k: int) {
      forall all: set<S> :: (forall s: S :: s in all) ==> k <= |all|
    }

    /** The loop over bounds; it can be called again with a larger one after UNKNOWN. */
    method CheckUntil(k: int) returns (o: Outcome)
      requires Fit() && At(reachedK) && Growing()
      modifies this
      ensures o == Verdict(TRUE) ==> IsInductiveInvariant(ts, iset s: S | invar(s)) && Safe(ts)
      ensures o == Verdict(FALSE) ==> exists r: seq<S> :: IsShortestCex(ts, r) && |r| == reachedK + 2
      ensures o == Verdict(UNKNOWN) && NeverFails(tools) ==>
        NoCexBelow(ts, k + 1) && At(reachedK) && Growing() && reachedK >= k
      ensures Definite(tools) ==> o != Threw
      ensures o == Verdict(UNKNOWN) && Definite(tools) && NeverFails(tools) ==> WithinStates(k)
      ensures o == Verdict(UNKNOWN) && Definite(tools) && NeverFails(tools) && k > 0 ==>
        |forwardSeq| == |backwardSeq| == reachedK + 1 && KeepsGrowing(forwardSeq) && KeepsGrowing(backwardSeq)
    {
      hide Safe, IsInductiveInvariant, KeepsGrowing, NoCexBelow, IsShortestCex;
      var i := 0;
      while i <= k
        invariant At(reachedK) && Growing() && i <= reachedK + 1
        decreases k - i
      {
        var st, proved := Step(i);
        if st == Broke {
          return Threw;
        }
        if st == Failed {
          return Verdict(UNKNOWN);
        }
        if proved {
          InvariantImpliesSafe(ts, iset s: S | invar(s));
          return Verdict(TRUE);
        }
        if concreteCex {
          return Verdict(FALSE);
        }
        i := i + 1;
      }
      if reachedK >= 0 {
        ForwardExcludesCex(ts, forwardSeq, reachedK + 1);
        FewerTransitions(ts, reachedK + 1, k + 1);
      } else {
        NothingBelowZero(ts, k + 1);
      }
      if Definite(tools) && reachedK > 0 {
        forall all: set<S> | forall s: S :: s in all ensures k <= |all| {
          GrowingIsShort(forwardSeq, reachedK + 1, all);
        }
      }
      o := Verdict(UNKNOWN);
    }
  }

  lemma {:induction false} FewerTransitions<S(!new), I(!new)>(ts: System<S, I>, n: int, m: int)
    requires NoCexBelow(ts, n) && m <= n
    ensures NoCexBelow(ts, m)
  {
  }

  /** `f` is contained in `g`. */
  ghost predicate Below<S(!new)>(f: States<S>, g: States<S>) {
    forall s: S :: f(s) ==> g(s)
  }

  lemma {:induction false} AndBelow<S(!new)>(f: States<S>, g: States<S>)
    ensures Below(And(f, g), g)
  {
  }

  lemma {:induction false} AndApart<S(!new)>(f: States<S>, g: States<S>, b: States<S>)
    requires Apart(g, b)
    ensures Apart(And(f, g), b)
  {
    forall s: S ensures !(And(f, g)(s) && b(s)) {
      assert !(g(s) && b(s));
    }
  }

  lemma {:induction false} BelowPost<S(!new), I(!new)>(ts: System<S, I>, f: States<S>, g: States<S>, i: States<S>)
    requires Below(f, g) && PostIn(ts, g, i)
    ensures PostIn(ts, f, i)
  {
  }

  lemma {:induction false} BelowNoStep<S(!new), I(!new)>(
      ts: System<S, I>, f: States<S>, g: States<S>, i: States<S>, b: States<S>)
    requires Below(f, g) && PostIn(ts, g, i) && Apart(i, b)
    ensures NoStep(ts, f, b)
  {
    forall s: S, t: S | f(s) && b(t) ensures !Step(ts, s, t) {
      assert !(i(t) && b(t));
    }
  }

  /** Without a step the interpolator does not report a model, and its interpolant separates. */
  lemma {:induction false} ForwardAnswer<S(!new), I(!new)>(
      ts: System<S, I>, f: States<S>, b: States<S>, a: Interpolation<S>)
    requires SequenceOk(ts, f, 1, b, a) && !HasPath(ts, f, 1, b)
    ensures !a.Satisfiable?
    ensures a.Interpolants? ==> |a.itps| == 1 && PostIn(ts, f, a.itps[0]) && Apart(a.itps[0], b)
  {
  }

  lemma {:induction false} BackwardAnswer<S(!new), I(!new)>(
      ts: System<S, I>, f: States<S>, b: States<S>, a: Interpolation<S>)
    requires BackwardOk(ts, b, f, a) && !HasPath(ts, f, 1, b)
    ensures !a.Satisfiable?
    ensures a.Interpolants? ==> |a.itps| == 1 && PreIn(ts, b, a.itps[0]) && Apart(a.itps[0], f)
  {
  }

  lemma {:induction false} SequenceAnswer<S(!new), I(!new)>(
      ts: System<S, I>, f: States<S>, n: nat, b: States<S>, a: Interpolation<S>)
    requires SequenceOk(ts, f, n, b, a) && !HasPath(ts, f, n, b)
    ensures !a.Satisfiable?
  {
  }

  lemma {:induction false} SatHasPath<S(!new), I(!new)>(ts: System<S, I>, f: States<S>, n: nat, b: States<S>, r: seq<S>)
    requires PathBetween(ts, f, n, b, r)
    ensures HasPath(ts, f, n, b)
  {
  }

  lemma {:induction false} FirstForward<S(!new), I(!new)>(ts: System<S, I>, fs: seq<States<S>>)
    requires ForwardSeq(ts, fs)
    ensures fs[0] == ts.init
  {
  }

  lemma {:induction false} FirstBackward<S(!new), I(!new)>(ts: System<S, I>, bs: seq<States<S>>)
    requires BackwardSeq(ts, bs)
    ensures bs[0] == ts.bad
  {
  }

  lemma {:induction false} LastApart<S(!new), I(!new)>(ts: System<S, I>, fs: seq<States<S>>, bs: seq<States<S>>, n: nat)
    requires |fs| == n + 1 && AllApart(fs, n, ts.bad) && BackwardSeq(ts, bs) && Apart(fs[n], bs[0])
    ensures AllApart(fs, n + 1, ts.bad)
  {
  }

  lemma {:induction false} LastBackwardApart<S(!new), I(!new)>(ts: System<S, I>, bs: seq<States<S>>, n: nat)
    requires |bs| == n + 1 && AllApart(bs, n, ts.init) && Apart(bs[n], ts.init)
    ensures AllApart(bs, n + 1, ts.init)
  {
  }

  lemma {:induction false} ForwardApart<S(!new), I(!new)>(ts: System<S, I>, fs: seq<States<S>>, n: nat)
    requires n <= |fs| && AllApart(fs, |fs|, ts.bad)
    ensures AllApart(fs, n, ts.bad)
  {
  }

  lemma {:induction false} BackwardApart<S(!new), I(!new)>(ts: System<S, I>, bs: seq<States<S>>, n: nat)
    requires n <= |bs| && AllApart(bs, |bs|, ts.init)
    ensures AllApart(bs, n, ts.init)
  {
  }

  lemma {:induction false} ApartIsCovered<S(!new)>(reach: seq<States<S>>, i: nat, acc: States<S>)
    requires i < |reach| && IsUnion(acc, reach, i)
    ensures Apart(reach[i], Not(acc)) <==> Covered(reach, i)
  {
    if Covered(reach, i) {
      forall s: S ensures !(reach[i](s) && Not(acc)(s)) {
      }
    }
    if Apart(reach[i], Not(acc)) {
      forall s: S | reach[i](s) ensures InSome(reach, i, s) {
        assert !(reach[i](s) && Not(acc)(s));
      }
    }
  }

  lemma {:induction false} FirstUnion<S(!new)>(reach: seq<States<S>>)
    requires |reach| > 0
    ensures IsUnion(reach[0], reach, 1) && GrowsBelow(reach, 1)
  {
  }

  lemma {:induction false} NextUnion<S(!new)>(acc: States<S>, reach: seq<States<S>>, i: nat)
    requires i < |reach| && IsUnion(acc, reach, i)
    ensures IsUnion(Or(acc, reach[i]), reach, i + 1)
  {
    forall s: S ensures InSome(reach, i + 1, s) <==> InSome(reach, i, s) || reach[i](s) {
    }
  }

  lemma {:induction false} GrowsOn<S(!new)>(reach: seq<States<S>>, i: nat)
    requires 0 < i < |reach| && GrowsBelow(reach, i) && !Covered(reach, i)
    ensures GrowsBelow(reach, i + 1)
  {
    hide Covered;
  }

  lemma {:induction false} GrowsToEnd<S(!new)>(reach: seq<States<S>>)
    requires GrowsBelow(reach, |reach|)
    ensures KeepsGrowing(reach)
  {
  }

  lemma {:induction false} NothingBelowZero<S(!new), I(!new)>(ts: System<S, I>, n: int)
    requires n <= 0
    ensures NoCexBelow(ts, n)
  {
  }
}
