/**
  The translated system is the watched system up to encoding of its states, so
  its safety is the absence of fair lassos in the original system.
 */
module LivenessToSafetyCorrect {
  import opened Runs
  import opened Terms
  import opened TransitionSystems
  import opened Liveness
  import opened LivenessToSafety

  ghost function FairOf(v0: View, justice: seq<Term>, th: Theory): Fair<State, Input> {
    var sys := Semantics(v0, TrueTerm, th);
    Fair(sys.init, sys.trans,
         seq(|justice|, k requires 0 <= k < |justice| =>
           (s: State, i: Input) => Holds(justice[k], EnvOf(s, i, s), th)))
  }

  function Part(w: State, vars: seq<Name>): State {
    map n | n in vars :: Lookup(w, n)
  }

  function LoopPart(w: State, vars: seq<Name>): State {
    map n | n in vars :: Lookup(w, LoopOf(n))
  }

  function Decode(w: State, vars: seq<Name>, nj: nat): Watch<State> {
    Watch(Part(w, vars), IsTrue(Lookup(w, Saved)), LoopPart(w, vars),
          seq(nj, k requires 0 <= k < nj => IsTrue(Lookup(w, JusticeNo(k)))))
  }

  /** The premises of the correctness argument: a well-shaped user system and well-formed conditions. */
  ghost predicate UserSystem(v0: View, justice: seq<Term>, th: Theory) {
    && Shaped(v0, th) && UserNames(v0.vars) && UserNames(v0.inputs)
    && forall k :: 0 <= k < |justice| ==> NoNext(justice[k], v0.vars, v0.inputs)
  }

  ghost predicate SameInputs(i: Input, j: Input) {
    forall n :: n != Save ==> Lookup(i, n) == Lookup(j, n)
  }

  lemma {:induction false} UserTermAgree(
      t: Term, v0: View, w: State, i: Input, j: Input, u: State, x: State, th: Theory)
    requires NoNext(t, v0.vars, v0.inputs) && UserNames(v0.inputs) && SameInputs(i, j)
    ensures Eval(t, EnvOf(w, i, u), th) == Eval(t, EnvOf(Part(w, v0.vars), j, x), th)
  {
    forall y | Occurs(y, t) ensures EnvOf(w, i, u)(y) == EnvOf(Part(w, v0.vars), j, x)(y) {
      NoNextOccurs(t, v0.vars, v0.inputs, y);
    }
    EvalAgree(t, EnvOf(w, i, u), EnvOf(Part(w, v0.vars), j, x), th);
  }

  lemma {:induction false} UpdatesOfParts(v0: View, w: State, i: Input, u: State, j: Input, th: Theory)
    requires Shaped(v0, th) && UserNames(v0.inputs) && SameInputs(i, j)
    ensures UpdatesHold(v0, w, i, u, th) <==> UpdatesHold(v0, Part(w, v0.vars), j, Part(u, v0.vars), th)
  {
    forall n | n in v0.updates
      ensures Eval(v0.updates[n], EnvOf(w, i, u), th) ==
        Eval(v0.updates[n], EnvOf(Part(w, v0.vars), j, Part(u, v0.vars)), th)
      ensures Lookup(u, n) == Lookup(Part(u, v0.vars), n)
    {
      UserTermAgree(v0.updates[n], v0, w, i, j, u, Part(u, v0.vars), th);
    }
  }

  lemma {:induction false} ConstraintsOfParts(
      cs: seq<Term>, v0: View, w: State, i: Input, u: State, j: Input, x: State, th: Theory)
    requires UserNames(v0.inputs) && SameInputs(i, j)
    requires forall c :: c in cs ==> NoNext(c, v0.vars, v0.inputs)
    ensures AllHold(cs, w, i, u, th) <==> AllHold(cs, Part(w, v0.vars), j, x, th)
  {
    forall c | c in cs ensures Eval(c, EnvOf(w, i, u), th) == Eval(c, EnvOf(Part(w, v0.vars), j, x), th) {
      UserTermAgree(c, v0, w, i, j, u, x, th);
    }
  }

  /** The original relation sees only the original variables. */
  lemma {:induction false} TransOfParts(v0: View, w: State, i: Input, u: State, j: Input, th: Theory)
    requires Shaped(v0, th) && UserNames(v0.inputs) && SameInputs(i, j)
    ensures Holds(v0.trans, EnvOf(w, i, u), th) <==>
      Semantics(v0, TrueTerm, th).trans(Part(w, v0.vars), j, Part(u, v0.vars))
  {
    hide EnvOf, Eval, NoNext, OnlyCurr, UpdatesHold, AllHold;
    var s, t := Part(w, v0.vars), Part(u, v0.vars);
    assert s.Keys == VarSet(v0.vars) && t.Keys == VarSet(v0.vars);
    UpdatesOfParts(v0, w, i, u, j, th);
    ConstraintsOfParts(v0.constraints, v0, w, i, u, j, t, th);
    forall c | c in v0.imposed ensures NoNext(c, v0.vars, v0.inputs) {
      OnlyCurrNoNext(c, v0.vars, v0.inputs);
    }
    ConstraintsOfParts(v0.imposed, v0, u, i, u, j, t, th);
  }

  lemma {:induction false} InitOfParts(v0: View, w: State, th: Theory)
    requires Shaped(v0, th) && UserNames(v0.inputs)
    ensures Holds(v0.init, EnvOf(w, map[], w), th) <==> Semantics(v0, TrueTerm, th).init(Part(w, v0.vars))
  {
    OnlyCurrNoNext(v0.init, v0.vars, v0.inputs);
    UserTermAgree(v0.init, v0, w, map[], map[], w, Part(w, v0.vars), th);
    assert Part(w, v0.vars).Keys == VarSet(v0.vars);
  }

  /** A translated state whose watching bits are Booleans. */
  ghost predicate Proper(w: State, vars: seq<Name>, nj: nat) {
    && w.Keys == VarSet(NewVars(vars, |vars|, nj))
    && Lookup(w, Saved).Bool?
    && forall k :: 0 <= k < nj ==> Lookup(w, JusticeNo(k)).Bool?
  }

  /** On proper states a translated transition is a watched one. */
  lemma {:induction false} StepDecodes(
      v0: View, justice: seq<Term>, v: View, safe: Term, th: Theory, w: State, i: Input, u: State, j: Input)
    requires UserSystem(v0, justice, th) && Translated(v0, justice, v, safe, th)
    requires Proper(w, v0.vars, |justice|) && Proper(u, v0.vars, |justice|) && SameInputs(i, j)
    ensures Semantics(v, MkNot(safe), th).trans(w, i, u) <==>
      WatchStep(FairOf(v0, justice, th), Decode(w, v0.vars, |justice|), j, IsTrue(Lookup(i, Save)),
        Decode(u, v0.vars, |justice|))
  {
    hide Shaped, Eval, LoopStep, JusticeStep, NoNext, LoopPart, Part;
    TransOfParts(v0, w, i, u, j, th);
    LoopStepsDecode(v0.vars, w, i, u, |justice|);
    JusticeStepsDecode(v0, justice, th, w, i, u, j);
    assert SavedStep(EnvOf(w, i, u)) <==>
      Decode(u, v0.vars, |justice|).saved == (Decode(w, v0.vars, |justice|).saved || IsTrue(Lookup(i, Save)));
  }

  lemma {:induction false} JusticeStepDecodes(
      v0: View, justice: seq<Term>, th: Theory, w: State, i: Input, u: State, j: Input, k: nat)
    requires UserSystem(v0, justice, th) && SameInputs(i, j) && k < |justice|
    requires Lookup(u, JusticeNo(k)).Bool?
    ensures var f, save := FairOf(v0, justice, th), IsTrue(Lookup(i, Save));
      var dw, du := Decode(w, v0.vars, |justice|), Decode(u, v0.vars, |justice|);
      JusticeStep(k, justice[k], EnvOf(w, i, u), th) <==>
      du.met[k] == (dw.met[k] || ((save || dw.saved) && f.justice[k](dw.st, j)))
  {
    hide Shaped, NoNext, Eval;
    UserTermAgree(justice[k], v0, w, i, j, u, Part(w, v0.vars), th);
  }

  lemma {:induction false} JusticeStepsDecode(
      v0: View, justice: seq<Term>, th: Theory, w: State, i: Input, u: State, j: Input)
    requires UserSystem(v0, justice, th) && SameInputs(i, j)
    requires Proper(u, v0.vars, |justice|)
    ensures var f, save := FairOf(v0, justice, th), IsTrue(Lookup(i, Save));
      var dw, du := Decode(w, v0.vars, |justice|), Decode(u, v0.vars, |justice|);
      (forall k :: 0 <= k < |justice| ==> JusticeStep(k, justice[k], EnvOf(w, i, u), th)) <==>
      (forall k :: 0 <= k < |justice| ==> du.met[k] == (dw.met[k] || ((save || dw.saved) && f.justice[k](dw.st, j))))
  {
    hide UserSystem, FairOf, JusticeStep, Decode, SameInputs;
    var f, save := FairOf(v0, justice, th), IsTrue(Lookup(i, Save));
    var dw, du := Decode(w, v0.vars, |justice|), Decode(u, v0.vars, |justice|);
    DecodeLength(w, v0.vars, |justice|);
    DecodeLength(u, v0.vars, |justice|);
    FairLength(v0, justice, th);
    forall k | 0 <= k < |justice|
      ensures JusticeStep(k, justice[k], EnvOf(w, i, u), th) <==>
        du.met[k] == (dw.met[k] || ((save || dw.saved) && f.justice[k](dw.st, j)))
    {
      JusticeStepDecodes(v0, justice, th, w, i, u, j, k);
    }
  }

  lemma {:induction false} DecodeLength(w: State, vars: seq<Name>, nj: nat)
    ensures |Decode(w, vars, nj).met| == nj
  {
  }

  lemma {:induction false} FairLength(v0: View, justice: seq<Term>, th: Theory)
    ensures |FairOf(v0, justice, th).justice| == |justice|
  {
  }

  lemma {:induction false} LoopStepsDecode(vars: seq<Name>, w: State, i: Input, u: State, nj: nat)
    ensures var dw, du := Decode(w, vars, nj), Decode(u, vars, nj);
      (forall m :: 0 <= m < |vars| ==> LoopStep(vars[m], EnvOf(w, i, u))) <==>
      du.loop == if IsTrue(Lookup(i, Save)) && !dw.saved then dw.st else dw.loop
  {
    var dw, du := Decode(w, vars, nj), Decode(u, vars, nj);
    var expected := if IsTrue(Lookup(i, Save)) && !dw.saved then dw.st else dw.loop;
    assert du.loop.Keys == expected.Keys == VarSet(vars);
    forall m | 0 <= m < |vars| ensures LoopStep(vars[m], EnvOf(w, i, u)) <==> du.loop[vars[m]] == expected[vars[m]] {
    }
    if forall m :: 0 <= m < |vars| ==> LoopStep(vars[m], EnvOf(w, i, u)) {
      forall n | n in vars ensures du.loop[n] == expected[n] {
        var m :| 0 <= m < |vars| && vars[m] == n;
        assert LoopStep(vars[m], EnvOf(w, i, u));
      }
      assert du.loop == expected;
    }
  }

  lemma {:induction false} InitDecodes(v0: View, justice: seq<Term>, v: View, safe: Term, th: Theory, w: State)
    requires UserSystem(v0, justice, th) && Translated(v0, justice, v, safe, th)
    requires Proper(w, v0.vars, |justice|)
    ensures Semantics(v, MkNot(safe), th).init(w) <==> WatchInit(FairOf(v0, justice, th), Decode(w, v0.vars, |justice|))
  {
    InitOfParts(v0, w, th);
    var d := Decode(w, v0.vars, |justice|);
    forall k | 0 <= k < |justice| ensures EnvOf(w, map[], w)(Cur(JusticeNo(k))) == Bool(false) <==> !d.met[k] {
    }
  }

  lemma {:induction false} LoopClosedDecodes(vars: seq<Name>, w: State, env: Env)
    requires env == EnvOf(w, map[], w)
    ensures LoopClosed(vars, |vars|, env) <==> IsTrue(Lookup(w, Saved)) && Part(w, vars) == LoopPart(w, vars)
  {
    var st, loop := Part(w, vars), LoopPart(w, vars);
    if LoopClosed(vars, |vars|, env) {
      forall n | n in vars ensures st[n] == loop[n] {
        var m :| 0 <= m < |vars| && vars[m] == n;
        assert env(Cur(vars[m])) == env(Cur(LoopOf(vars[m])));
      }
      assert st == loop;
    }
    if st == loop {
      forall m | 0 <= m < |vars| ensures env(Cur(vars[m])) == env(Cur(LoopOf(vars[m]))) {
        assert st[vars[m]] == loop[vars[m]];
      }
    }
  }

  lemma {:induction false} BadDecodes(v0: View, justice: seq<Term>, v: View, safe: Term, th: Theory, w: State)
    requires Translated(v0, justice, v, safe, th)
    ensures Semantics(v, MkNot(safe), th).bad(w) <==> WatchBad(Decode(w, v0.vars, |justice|))
  {
    hide Eval, LoopClosed, TransMeans, InitMeans, LoopPart, Part;
    var env := EnvOf(w, map[], w);
    var bad :| safe == MkNot(bad) && BadMeans(bad, v0.vars, |v0.vars|, |justice|, th);
    EvalNot(safe, env, th);
    EvalNot(bad, env, th);
    LoopClosedDecodes(v0.vars, w, env);
    var d := Decode(w, v0.vars, |justice|);
    assert forall k :: 0 <= k < |justice| ==> (IsTrue(env(Cur(JusticeNo(k)))) <==> d.met[k]);
  }

  /** Every state of a translated run is proper. */
  lemma {:induction false} RunProper(
      v0: View, justice: seq<Term>, v: View, safe: Term, th: Theory, r: seq<State>, k: nat)
    requires Translated(v0, justice, v, safe, th)
    requires IsRun(Semantics(v, MkNot(safe), th), r) && k < |r|
    ensures Proper(r[k], v0.vars, |justice|)
  {
    var sys := Semantics(v, MkNot(safe), th);
    if k > 0 {
      assert Step(sys, r[k - 1], r[k - 1 + 1]);
      var i :| sys.trans(r[k - 1], i, r[k]);
      var env := EnvOf(r[k - 1], i, r[k]);
      assert SavedStep(env);
      forall j | 0 <= j < |justice| ensures Lookup(r[k], JusticeNo(j)).Bool? {
        assert JusticeStep(j, justice[j], env, th);
      }
    } else {
      assert Holds(v.init, EnvOf(r[0], map[], r[0]), th);
      forall j | 0 <= j < |justice| ensures Lookup(r[0], JusticeNo(j)).Bool? {
        assert EnvOf(r[0], map[], r[0])(Cur(JusticeNo(j))) == Bool(false);
      }
    }
  }

  /** The translated state for a watched one. */
  function Encode(d: Watch<State>, vars: seq<Name>, nj: nat): (w: State) {
    map n | n in NewVars(vars, |vars|, nj) ::
      match n
      case Saved => Bool(d.saved)
      case LoopOf(m) => Lookup(d.loop, m)
      case JusticeNo(k) => Bool(k < |d.met| && d.met[k])
      case _ => Lookup(d.st, n)
  }

  lemma {:induction false} EncodeProper(d: Watch<State>, vars: seq<Name>, nj: nat)
    requires UserNames(vars) && d.st.Keys == VarSet(vars) && d.loop.Keys == VarSet(vars) && |d.met| == nj
    ensures Proper(Encode(d, vars, nj), vars, nj) && Decode(Encode(d, vars, nj), vars, nj) == d
  {
    hide Encode, NewVars;
    EncodeLookup(d, vars, nj);
    var w := Encode(d, vars, nj);
    assert Part(w, vars) == d.st;
    assert LoopPart(w, vars) == d.loop;
    assert Decode(w, vars, nj).met == d.met;
  }

  lemma {:induction false} EncodeLookup(d: Watch<State>, vars: seq<Name>, nj: nat)
    requires UserNames(vars) && d.st.Keys == VarSet(vars) && d.loop.Keys == VarSet(vars) && |d.met| == nj
    ensures var w := Encode(d, vars, nj);
      && w.Keys == VarSet(NewVars(vars, |vars|, nj))
      && Lookup(w, Saved) == Bool(d.saved)
      && (forall n :: n in vars ==> Lookup(w, n) == d.st[n] && Lookup(w, LoopOf(n)) == d.loop[n])
      && (forall k :: 0 <= k < nj ==> Lookup(w, JusticeNo(k)) == Bool(d.met[k]))
  {
    hide NewVars;
    NewVarsContain(vars, nj);
    assert forall n :: n in vars ==> n in VarSet(vars);
  }

  lemma {:induction false} NewVarsContain(vars: seq<Name>, nj: nat)
    ensures Saved in NewVars(vars, |vars|, nj)
    ensures forall n :: n in vars ==> n in NewVars(vars, |vars|, nj) && LoopOf(n) in NewVars(vars, |vars|, nj)
    ensures forall k :: 0 <= k < nj ==> JusticeNo(k) in NewVars(vars, |vars|, nj)
  {
    var all := NewVars(vars, |vars|, nj);
    assert all[|vars|] == Saved;
    forall n | n in vars ensures n in all && LoopOf(n) in all {
      var m :| 0 <= m < |vars| && vars[m] == n;
      assert all[m] == n && all[|vars| + 1 + m] == LoopOf(n);
    }
    forall k | 0 <= k < nj ensures JusticeNo(k) in all {
      assert all[|vars| + 1 + |vars| + k] == JusticeNo(k);
    }
  }

  // ----- runs -----

  /** A translated counterexample decodes to a watched one. */
  lemma {:induction false} DecodeCex(v0: View, justice: seq<Term>, v: View, safe: Term, th: Theory, r: seq<State>)
    requires UserSystem(v0, justice, th) && Translated(v0, justice, v, safe, th)
    requires IsCex(Semantics(v, MkNot(safe), th), r)
    ensures !Safe(Watched(FairOf(v0, justice, th)))
  {
    hide Translated, UserSystem, FairOf, Decode, Proper, WatchStep, WatchInit, WatchBad, Semantics;
    var sys, w := Semantics(v, MkNot(safe), th), Watched(FairOf(v0, justice, th));
    var q := seq(|r|, k requires 0 <= k < |r| => Decode(r[k], v0.vars, |justice|));
    forall k | 0 <= k < |r| ensures Proper(r[k], v0.vars, |justice|) {
      RunProper(v0, justice, v, safe, th, r, k);
    }
    forall k | 0 <= k < |q| - 1 ensures Step(w, q[k], q[k + 1]) {
      assert Step(sys, r[k], r[k + 1]);
      var i :| sys.trans(r[k], i, r[k + 1]);
      StepDecodes(v0, justice, v, safe, th, r[k], i, r[k + 1], i);
      assert w.trans(q[k], (i, IsTrue(Lookup(i, Save))), q[k + 1]);
    }
    InitDecodes(v0, justice, v, safe, th, r[0]);
    BadDecodes(v0, justice, v, safe, th, r[|r| - 1]);
    assert IsCex(w, q);
    CexIsUnsafe(w, q);
  }

  lemma {:induction false} LassoDomains(v0: View, justice: seq<Term>, th: Theory, p: seq<Point<State, Input>>, k: nat)
    requires Follows(FairOf(v0, justice, th), p) && k < |p|
    ensures p[k].st.Keys == VarSet(v0.vars)
  {
    if k > 0 {
      assert StepAt(FairOf(v0, justice, th), p, k - 1);
    }
  }

  /** A lasso of the original system encodes to a translated counterexample. */
  lemma {:induction false} EncodeLasso(
      v0: View, justice: seq<Term>, v: View, safe: Term, th: Theory, p: seq<Point<State, Input>>, l: nat)
    requires UserSystem(v0, justice, th) && Translated(v0, justice, v, safe, th)
    requires IsLasso(FairOf(v0, justice, th), p, l)
    ensures !Safe(Semantics(v, MkNot(safe), th))
  {
    hide Translated, FairOf, Decode, Proper, WatchStep, WatchInit, WatchBad, Semantics, Encode, Shaped;
    var f, nj := FairOf(v0, justice, th), |justice|;
    var sys, w := Semantics(v, MkNot(safe), th), Watched(f);
    var q := WatchLasso(f, p, l);
    FairLength(v0, justice, th);
    var r := seq(|q|, k requires 0 <= k < |q| => Encode(q[k], v0.vars, nj));
    forall k | 0 <= k < |r| ensures Proper(r[k], v0.vars, nj) && Decode(r[k], v0.vars, nj) == q[k] {
      LassoDomains(v0, justice, th, p, k);
      LassoDomains(v0, justice, th, p, l);
      EncodeProper(q[k], v0.vars, nj);
    }
    forall k | 0 <= k < |r| - 1 ensures Step(sys, r[k], r[k + 1]) {
      assert Step(w, q[k], q[k + 1]);
      var x :| w.trans(q[k], x, q[k + 1]);
      var i: Input := x.0[Save := Bool(x.1)];
      StepDecodes(v0, justice, v, safe, th, r[k], i, r[k + 1], x.0);
      assert sys.trans(r[k], i, r[k + 1]);
    }
    InitDecodes(v0, justice, v, safe, th, r[0]);
    BadDecodes(v0, justice, v, safe, th, r[|r| - 1]);
    assert IsCex(sys, r);
    CexIsUnsafe(sys, r);
  }

  /** The translated property fails exactly when the original system has a lasso meeting every justice condition. */
  lemma {:induction false} TranslationCorrect(v0: View, justice: seq<Term>, v: View, safe: Term, th: Theory)
    requires UserSystem(v0, justice, th) && Translated(v0, justice, v, safe, th)
    ensures !Safe(Semantics(v, MkNot(safe), th)) <==>
      exists p: seq<Point<State, Input>>, l: nat :: IsLasso(FairOf(v0, justice, th), p, l)
  {
    hide Translated, UserSystem, FairOf, Semantics, IsLasso, Safe;
    var sys := Semantics(v, MkNot(safe), th);
    var f := FairOf(v0, justice, th);
    if !Safe(sys) {
      var r := UnsafeHasCex(sys);
      DecodeCex(v0, justice, v, safe, th, r);
      WatchedBadIffLasso(f, map[]);
    }
    if p: seq<Point<State, Input>>, l: nat :| IsLasso(f, p, l) {
      EncodeLasso(v0, justice, v, safe, th, p, l);
    }
  }

  /** Over finitely many states: the translated property holds exactly when no infinite run is fair. */
  lemma {:induction false} TranslationCorrectFinite(
      v0: View, justice: seq<Term>, v: View, safe: Term, th: Theory, states: set<State>)
    requires UserSystem(v0, justice, th) && Translated(v0, justice, v, safe, th)
    requires forall s, i, t :: FairOf(v0, justice, th).trans(s, i, t) ==> s in states
    ensures Safe(Semantics(v, MkNot(safe), th)) <==> !HasFairRun(FairOf(v0, justice, th))
  {
    var f := FairOf(v0, justice, th);
    TranslationCorrect(v0, justice, v, safe, th);
    WatchedBadIffLasso(f, map[]);
    WatchedSafeIffNoFairRun(f, states, map[]);
  }
}
