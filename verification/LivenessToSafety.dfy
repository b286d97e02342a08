/**
  The liveness-to-safety translation, carried out in place on a transition
  system, and what the translated system means in terms of the original one.
 */
module LivenessToSafety {
  import opened Runs
  import opened Terms
  import opened TransitionSystems
  import opened Liveness

  ghost predicate Saving(env: Env) { IsTrue(env(Inp(Save))) }
  ghost predicate HasSaved(env: Env) { IsTrue(env(Cur(Saved))) }

  /** saved' = saved or save */
  ghost predicate SavedStep(env: Env) {
    env(Next(Saved)) == Bool(HasSaved(env) || Saving(env))
  }

  /** loop' = the current value when the state is saved, else loop */
  ghost predicate LoopStep(n: Name, env: Env) {
    env(Next(LoopOf(n))) == if Saving(env) && !HasSaved(env) then env(Cur(n)) else env(Cur(LoopOf(n)))
  }

  /** justice' = justice, or the condition holds now and the loop has begun */
  ghost predicate JusticeStep(k: nat, j: Term, env: Env, th: Theory) {
    env(Next(JusticeNo(k))) ==
      Bool(IsTrue(env(Cur(JusticeNo(k)))) || ((Saving(env) || HasSaved(env)) && Holds(j, env, th)))
  }

  /** `trans` is the original relation with the first `nl` loop and `nj` justice updates. */
  ghost predicate TransMeans(trans: Term, v0: View, justice: seq<Term>, nl: nat, nj: nat, th: Theory)
    requires nl <= |v0.vars| && nj <= |justice|
  {
    forall env: Env :: Holds(trans, env, th) <==>
      && Holds(v0.trans, env, th) && SavedStep(env)
      && (forall m :: 0 <= m < nl ==> LoopStep(v0.vars[m], env))
      && (forall k :: 0 <= k < nj ==> JusticeStep(k, justice[k], env, th))
  }

  /** `init` is the original one with nothing saved and the first `nj` conditions unmet. */
  ghost predicate InitMeans(init: Term, v0: View, nj: nat, th: Theory) {
    forall env: Env :: Holds(init, env, th) <==>
      && Holds(v0.init, env, th) && env(Cur(Saved)) == Bool(false)
      && (forall k :: 0 <= k < nj ==> env(Cur(JusticeNo(k))) == Bool(false))
  }

  ghost predicate LoopClosed(vars: seq<Name>, n: nat, env: Env)
    requires n <= |vars|
  {
    HasSaved(env) && forall m :: 0 <= m < n ==> env(Cur(vars[m])) == env(Cur(LoopOf(vars[m])))
  }

  ghost predicate BadMeans(bad: Term, vars: seq<Name>, nl: nat, nj: nat, th: Theory)
    requires nl <= |vars|
  {
    forall env: Env :: Holds(bad, env, th) <==>
      LoopClosed(vars, nl, env) && forall k :: 0 <= k < nj ==> IsTrue(env(Cur(JusticeNo(k))))
  }

  function LoopNames(vars: seq<Name>, n: nat): (r: seq<Name>)
    requires n <= |vars|
    ensures |r| == n
  {
    seq(n, m requires 0 <= m < n => LoopOf(vars[m]))
  }

  function JusticeNames(n: nat): (r: seq<Name>)
    ensures |r| == n
  {
    seq(n, k requires 0 <= k < n => JusticeNo(k))
  }

  function NewVars(vars: seq<Name>, nl: nat, nj: nat): seq<Name>
    requires nl <= |vars|
  {
    vars + [Saved] + LoopNames(vars, nl) + JusticeNames(nj)
  }

  predicate UserNames(names: seq<Name>) {
    forall n :: n in names ==> n.User?
  }

  /** What the translation makes of a system and its justice conditions. */
  ghost predicate Translated(v0: View, justice: seq<Term>, v: View, safe: Term, th: Theory) {
    && v.vars == NewVars(v0.vars, |v0.vars|, |justice|) && v.inputs == v0.inputs + [Save]
    && TransMeans(v.trans, v0, justice, |v0.vars|, |justice|, th)
    && InitMeans(v.init, v0, |justice|, th)
    && exists bad :: safe == MkNot(bad) && BadMeans(bad, v0.vars, |v0.vars|, |justice|, th)
  }

  // ----- the terms that are built -----

  const SaveNow: Term := Sym(Inp(Save))
  const SavedNow: Term := Sym(Cur(Saved))

  function LoopTerm(n: Name): Term {
    MkIte(MkAnd(SaveNow, MkNot(SavedNow)), Sym(Cur(n)), Sym(Cur(LoopOf(n))))
  }

  function JusticeTerm(k: nat, j: Term): Term {
    MkOr(Sym(Cur(JusticeNo(k))), MkAnd(MkOr(SaveNow, SavedNow), j))
  }

  lemma {:induction false} NoNextNot(t: Term, vars: seq<Name>, inputs: seq<Name>)
    requires NoNext(t, vars, inputs)
    ensures NoNext(MkNot(t), vars, inputs)
  {
  }

  lemma {:induction false} NoNextPair(op: Op, t: Term, u: Term, vars: seq<Name>, inputs: seq<Name>)
    requires NoNext(t, vars, inputs) && NoNext(u, vars, inputs)
    ensures NoNext(App(op, [t, u]), vars, inputs)
  {
  }

  lemma {:induction false} LoopTermNoNext(n: Name, vars: seq<Name>, inputs: seq<Name>)
    requires n in vars && LoopOf(n) in vars && Saved in vars && Save in inputs
    ensures NoNext(LoopTerm(n), vars, inputs)
  {
    NoNextNot(SavedNow, vars, inputs);
    NoNextPair(And, SaveNow, MkNot(SavedNow), vars, inputs);
  }

  lemma {:induction false} JusticeTermNoNext(k: nat, j: Term, vars: seq<Name>, inputs: seq<Name>)
    requires JusticeNo(k) in vars && Saved in vars && Save in inputs && NoNext(j, vars, inputs)
    ensures NoNext(JusticeTerm(k, j), vars, inputs)
  {
    NoNextPair(Or, SaveNow, SavedNow, vars, inputs);
    NoNextPair(And, MkOr(SaveNow, SavedNow), j, vars, inputs);
    NoNextPair(Or, Sym(Cur(JusticeNo(k))), MkAnd(MkOr(SaveNow, SavedNow), j), vars, inputs);
  }

  lemma {:induction false} SavedUpdate(v0: View, justice: seq<Term>, th: Theory)
    ensures TransMeans(MkAnd(v0.trans, MkEqual(Sym(Next(Saved)), MkOr(SavedNow, SaveNow))), v0, justice, 0, 0, th)
  {
    var val := MkOr(SavedNow, SaveNow);
    forall env: Env ensures Holds(MkAnd(v0.trans, MkEqual(Sym(Next(Saved)), val)), env, th) <==>
                              Holds(v0.trans, env, th) && SavedStep(env)
    {
      EvalAnd(v0.trans, MkEqual(Sym(Next(Saved)), val), env, th);
      EvalEqual(Sym(Next(Saved)), val, env, th);
      Arg2(Or, SavedNow, SaveNow, env, th);
      EvalOr(SavedNow, SaveNow, env, th);
    }
  }

  lemma {:induction false} LoopUpdate(trans: Term, v0: View, justice: seq<Term>, m: nat, th: Theory)
    requires m < |v0.vars| && TransMeans(trans, v0, justice, m, 0, th)
    ensures TransMeans(MkAnd(trans, MkEqual(Sym(Next(LoopOf(v0.vars[m]))), LoopTerm(v0.vars[m]))), v0, justice, m + 1,
      0, th)
  {
    var n := v0.vars[m];
    var eq := MkEqual(Sym(Next(LoopOf(n))), LoopTerm(n));
    forall env: Env ensures Holds(MkAnd(trans, eq), env, th) <==> Holds(trans, env, th) && LoopStep(n, env) {
      EvalAnd(trans, eq, env, th);
      EvalEqual(Sym(Next(LoopOf(n))), LoopTerm(n), env, th);
      EvalIte(MkAnd(SaveNow, MkNot(SavedNow)), Sym(Cur(n)), Sym(Cur(LoopOf(n))), env, th);
      EvalAnd(SaveNow, MkNot(SavedNow), env, th);
      EvalNot(SavedNow, env, th);
    }
  }

  lemma {:induction false} JusticeUpdate(trans: Term, v0: View, justice: seq<Term>, k: nat, th: Theory)
    requires k < |justice| && TransMeans(trans, v0, justice, |v0.vars|, k, th)
    ensures TransMeans(MkAnd(trans, MkEqual(Sym(Next(JusticeNo(k))), JusticeTerm(k, justice[k]))), v0, justice,
      |v0.vars|, k + 1, th)
  {
    var eq := MkEqual(Sym(Next(JusticeNo(k))), JusticeTerm(k, justice[k]));
    forall env: Env
      ensures Holds(MkAnd(trans, eq), env, th) <==> Holds(trans, env, th) && JusticeStep(k, justice[k], env, th)
    {
      EvalAnd(trans, eq, env, th);
      EvalEqual(Sym(Next(JusticeNo(k))), JusticeTerm(k, justice[k]), env, th);
      var loopNow := MkAnd(MkOr(SaveNow, SavedNow), justice[k]);
      Arg2(Or, Sym(Cur(JusticeNo(k))), loopNow, env, th);
      EvalOr(Sym(Cur(JusticeNo(k))), loopNow, env, th);
      EvalAnd(MkOr(SaveNow, SavedNow), justice[k], env, th);
      EvalOr(SaveNow, SavedNow, env, th);
    }
  }

  lemma {:induction false} InitUpdate(init: Term, x: Name, env: Env, th: Theory)
    ensures Holds(MkAnd(init, MkEqual(Sym(Cur(x)), FalseTerm)), env, th) <==>
      Holds(init, env, th) && env(Cur(x)) == Bool(false)
  {
    EvalAnd(init, MkEqual(Sym(Cur(x)), FalseTerm), env, th);
    EvalEqual(Sym(Cur(x)), FalseTerm, env, th);
  }

  lemma {:induction false} BadAndJustice(bad: Term, vars: seq<Name>, k: nat, th: Theory)
    requires BadMeans(bad, vars, |vars|, k, th)
    ensures BadMeans(MkAnd(bad, Sym(Cur(JusticeNo(k)))), vars, |vars|, k + 1, th)
  {
    hide LoopClosed;
    forall env: Env
      ensures Holds(MkAnd(bad, Sym(Cur(JusticeNo(k)))), env, th) <==>
        Holds(bad, env, th) && IsTrue(env(Cur(JusticeNo(k))))
    {
      EvalAnd(bad, Sym(Cur(JusticeNo(k))), env, th);
    }
  }

  class LivenessToSafetyTranslator {

    /** Adds the watching variables to `ts`; the result is violated when a loop meets every justice condition. */
    method Translate(ts: TransitionSystem, justice: seq<Term>) returns (safe: Term)
      requires ts.Valid() && UserNames(ts.statevars) && UserNames(ts.inputvars)
      requires forall k :: 0 <= k < |justice| ==> NoNext(justice[k], ts.statevars, ts.inputvars)
      modifies ts
      ensures ts.Valid()
      ensures Translated(old(ts.View()), justice, ts.View(), safe, ts.th)
    {
      hide Shaped, TransMeans, InitMeans, BadMeans;
      ghost var v0 := ts.View();
      var origStatevars := ts.statevars;
      AddSaved(ts, justice);
      AddLoopStates(ts, origStatevars, v0, justice);
      forall k | 0 <= k < |justice| ensures NoNext(justice[k], ts.statevars, ts.inputvars) {
        NoNextMono(justice[k], v0.vars, v0.inputs, ts.statevars, ts.inputvars);
      }
      AddJusticeStates(ts, v0, justice);
      var bad := LoopedTerm(origStatevars, ts.th);
      bad := AddJusticeConjuncts(bad, origStatevars, |justice|, ts.th);
      safe := MkNot(bad);
    }

    /** bad: looped, and every justice condition met */
    method AddJusticeConjuncts(looped: Term, ghost vars: seq<Name>, n: nat, ghost th: Theory) returns (bad: Term)
      requires BadMeans(looped, vars, |vars|, 0, th)
      ensures BadMeans(bad, vars, |vars|, n, th)
    {
      hide BadMeans;
      bad := looped;
      for k := 0 to n
        invariant BadMeans(bad, vars, |vars|, k, th)
      {
        BadAndJustice(bad, vars, k, th);
        bad := MkAnd(bad, Sym(Cur(JusticeNo(k))));
      }
    }

    method AddSaved(ts: TransitionSystem, ghost justice: seq<Term>)
      requires ts.Valid() && UserNames(ts.statevars) && UserNames(ts.inputvars)
      modifies ts
      ensures ts.Valid() && ts.statevars == NewVars(old(ts.statevars), 0, 0)
      ensures ts.inputvars == old(ts.inputvars) + [Save]
      ensures TransMeans(ts.trans, old(ts.View()), justice, 0, 0, ts.th) && InitMeans(ts.init, old(ts.View()), 0, ts.th)
    {
      hide Shaped, TransMeans;
      ghost var v0 := ts.View();
      UpdatesKnown(v0, ts.th);
      var ok := ts.MakeInputvar(Save);
      ok := ts.MakeStatevar(Saved);
      ok := ts.ConstrainInit(MkEqual(SavedNow, FalseTerm));
      forall env: Env
        ensures Holds(ts.init, env, ts.th) <==> Holds(v0.init, env, ts.th) && env(Cur(Saved)) == Bool(false)
      {
        InitUpdate(v0.init, Saved, env, ts.th);
      }
      NoNextPair(Or, SavedNow, SaveNow, ts.statevars, ts.inputvars);
      ok := ts.AssignNext(Saved, MkOr(SavedNow, SaveNow));
      SavedUpdate(v0, justice, ts.th);
    }

    method AddLoopStates(ts: TransitionSystem, orig: seq<Name>, ghost v0: View, ghost justice: seq<Term>)
      requires ts.Valid() && UserNames(orig) && v0.vars == orig && InputNames(ts.inputvars)
      requires forall i, j :: 0 <= i < j < |orig| ==> orig[i] != orig[j]
      requires ts.statevars == NewVars(orig, 0, 0) && TransMeans(ts.trans, v0, justice, 0, 0, ts.th)
      modifies ts
      ensures ts.Valid() && ts.statevars == NewVars(orig, |orig|, 0) && ts.inputvars == old(ts.inputvars)
      ensures ts.init == old(ts.init)
      ensures TransMeans(ts.trans, v0, justice, |orig|, 0, ts.th)
    {
      hide Shaped, TransMeans;
      for m := 0 to |orig|
        invariant ts.Valid() && ts.statevars == NewVars(orig, m, 0) && ts.inputvars == old(ts.inputvars)
        invariant ts.init == old(ts.init)
        invariant TransMeans(ts.trans, v0, justice, m, 0, ts.th)
      {
        UpdatesKnown(ts.View(), ts.th);
        FreshLoop(orig, ts.inputvars, m);
        ghost var trans := ts.trans;
        var ok := ts.MakeStatevar(LoopOf(orig[m]));
        NewVarsNextLoop(orig, m);
        LoopTermNoNext(orig[m], ts.statevars, ts.inputvars);
        ok := ts.AssignNext(LoopOf(orig[m]), LoopTerm(orig[m]));
        LoopUpdate(trans, v0, justice, m, ts.th);
      }
    }

    method AddJusticeStates(ts: TransitionSystem, ghost v0: View, justice: seq<Term>)
      requires ts.Valid() && UserNames(v0.vars) && InputNames(ts.inputvars)
      requires ts.statevars == NewVars(v0.vars, |v0.vars|, 0)
      requires forall k :: 0 <= k < |justice| ==> NoNext(justice[k], ts.statevars, ts.inputvars)
      requires TransMeans(ts.trans, v0, justice, |v0.vars|, 0, ts.th) && InitMeans(ts.init, v0, 0, ts.th)
      modifies ts
      ensures ts.Valid() && ts.statevars == NewVars(v0.vars, |v0.vars|, |justice|) && ts.inputvars == old(ts.inputvars)
      ensures TransMeans(ts.trans, v0, justice, |v0.vars|, |justice|, ts.th) && InitMeans(ts.init, v0, |justice|, ts.th)
    {
      hide Shaped, TransMeans, InitMeans;
      ghost var vars := ts.statevars;
      for k := 0 to |justice|
        invariant ts.Valid() && ts.statevars == NewVars(v0.vars, |v0.vars|, k) && ts.inputvars == old(ts.inputvars)
        invariant TransMeans(ts.trans, v0, justice, |v0.vars|, k, ts.th) && InitMeans(ts.init, v0, k, ts.th)
      {
        AddJusticeState(ts, v0, justice, k, vars);
      }
    }

    method AddJusticeState(ts: TransitionSystem, ghost v0: View, justice: seq<Term>, k: nat, ghost vars: seq<Name>)
      requires ts.Valid() && UserNames(v0.vars) && InputNames(ts.inputvars) && k < |justice|
      requires ts.statevars == NewVars(v0.vars, |v0.vars|, k) && vars == NewVars(v0.vars, |v0.vars|, 0)
      requires NoNext(justice[k], vars, ts.inputvars)
      requires TransMeans(ts.trans, v0, justice, |v0.vars|, k, ts.th) && InitMeans(ts.init, v0, k, ts.th)
      modifies ts
      ensures ts.Valid() && ts.statevars == NewVars(v0.vars, |v0.vars|, k + 1) && ts.inputvars == old(ts.inputvars)
      ensures TransMeans(ts.trans, v0, justice, |v0.vars|, k + 1, ts.th) && InitMeans(ts.init, v0, k + 1, ts.th)
    {
      hide Shaped, TransMeans, InitMeans;
      UpdatesKnown(ts.View(), ts.th);
      FreshJustice(v0.vars, ts.inputvars, k);
      var ok := ts.MakeStatevar(JusticeNo(k));
      NewVarsNextJustice(v0.vars, k);
      ok := ts.ConstrainInit(MkEqual(Sym(Cur(JusticeNo(k))), FalseTerm));
      InitJustice(old(ts.init), v0, k, ts.th);
      NoNextMono(justice[k], vars, ts.inputvars, ts.statevars, ts.inputvars);
      JusticeTermNoNext(k, justice[k], ts.statevars, ts.inputvars);
      ok := ts.AssignNext(JusticeNo(k), JusticeTerm(k, justice[k]));
      JusticeUpdate(old(ts.trans), v0, justice, k, ts.th);
    }

    /** looped: a state is saved and equal to the current one */
    method LoopedTerm(vars: seq<Name>, ghost th: Theory) returns (looped: Term)
      ensures BadMeans(looped, vars, |vars|, 0, th)
    {
      looped := SavedNow;
      for m := 0 to |vars|
        invariant BadMeans(looped, vars, m, 0, th)
      {
        var eq := MkEqual(Sym(Cur(vars[m])), Sym(Cur(LoopOf(vars[m]))));
        forall env: Env ensures Holds(MkAnd(looped, eq), env, th) <==>
                                  Holds(looped, env, th) && env(Cur(vars[m])) == env(Cur(LoopOf(vars[m]))) {
          EvalAnd(looped, eq, env, th);
          EvalEqual(Sym(Cur(vars[m])), Sym(Cur(LoopOf(vars[m]))), env, th);
        }
        looped := MkAnd(looped, eq);
      }
    }
  }

  /** The user's inputs and the oracle input. */
  predicate InputNames(names: seq<Name>) {
    Save in names && forall n :: n in names ==> n.User? || n == Save
  }

  lemma {:induction false} FreshLoop(vars: seq<Name>, inputs: seq<Name>, m: nat)
    requires UserNames(vars) && InputNames(inputs) && m < |vars|
    requires Distinct(vars)
    ensures LoopOf(vars[m]) !in NewVars(vars, m, 0) && LoopOf(vars[m]) !in inputs
  {
  }

  lemma {:induction false} FreshJustice(vars: seq<Name>, inputs: seq<Name>, k: nat)
    requires UserNames(vars) && InputNames(inputs)
    ensures JusticeNo(k) !in NewVars(vars, |vars|, k) && JusticeNo(k) !in inputs
  {
  }

  lemma {:induction false} NewVarsNextLoop(vars: seq<Name>, m: nat)
    requires m < |vars|
    ensures NewVars(vars, m + 1, 0) == NewVars(vars, m, 0) + [LoopOf(vars[m])]
    ensures vars[m] in NewVars(vars, m + 1, 0) && Saved in NewVars(vars, m + 1, 0)
  {
    assert LoopNames(vars, m + 1) == LoopNames(vars, m) + [LoopOf(vars[m])];
    assert NewVars(vars, m + 1, 0)[m] == vars[m];
    assert NewVars(vars, m + 1, 0)[|vars|] == Saved;
  }

  lemma {:induction false} NewVarsNextJustice(vars: seq<Name>, k: nat)
    ensures NewVars(vars, |vars|, k + 1) == NewVars(vars, |vars|, k) + [JusticeNo(k)]
    ensures VarSet(NewVars(vars, |vars|, 0)) <= VarSet(NewVars(vars, |vars|, k + 1))
    ensures Saved in NewVars(vars, |vars|, k + 1)
  {
    assert JusticeNames(k + 1) == JusticeNames(k) + [JusticeNo(k)];
    assert NewVars(vars, |vars|, k + 1)[|vars|] == Saved;
  }

  lemma {:induction false} InitJustice(init: Term, v0: View, k: nat, th: Theory)
    requires InitMeans(init, v0, k, th)
    ensures InitMeans(MkAnd(init, MkEqual(Sym(Cur(JusticeNo(k))), FalseTerm)), v0, k + 1, th)
  {
    forall env: Env ensures Holds(MkAnd(init, MkEqual(Sym(Cur(JusticeNo(k))), FalseTerm)), env, th) <==>
                              Holds(init, env, th) && env(Cur(JusticeNo(k))) == Bool(false) {
      InitUpdate(init, JusticeNo(k), env, th);
    }
  }
}
