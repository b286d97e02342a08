/**
  A functional transition system under construction: state variables, inputs,
  init, trans and the constraints, each extended in place by one method.
 */
module TransitionSystems {
  import opened Cardinality
  import opened Runs
  import opened Terms

  type State = map<Name, Value>
  type Input = map<Name, Value>

  const Unset: Value := Bool(false)

  function Lookup(m: map<Name, Value>, n: Name): Value {
    if n in m then m[n] else Unset
  }

  /** The assignment of a transition: current state, input, next state. */
  function EnvOf(s: State, i: Input, t: State): Env {
    (x: Symbol) =>
      match x
      case Cur(n) => Lookup(s, n)
      case Inp(n) => Lookup(i, n)
      case Next(n) => Lookup(t, n)
      case Timed(_, _) => Unset
  }

  /** Only current-state symbols of the system. */
  predicate OnlyCurr(t: Term, vars: seq<Name>) {
    match t
    case Const(_) => true
    case Sym(x) => x.Cur? && x.n in vars
    case App(_, args) => forall i :: 0 <= i < |args| ==> OnlyCurr(args[i], vars)
  }

  /** Only current-state and input symbols of the system. */
  predicate NoNext(t: Term, vars: seq<Name>, inputs: seq<Name>) {
    match t
    case Const(_) => true
    case Sym(x) => (x.Cur? && x.n in vars) || (x.Inp? && x.n in inputs)
    case App(_, args) => forall i :: 0 <= i < |args| ==> NoNext(args[i], vars, inputs)
  }

  lemma {:induction false} OnlyCurrOccurs(t: Term, vars: seq<Name>, x: Symbol)
    requires OnlyCurr(t, vars) && Occurs(x, t)
    ensures x.Cur? && x.n in vars
    decreases t
  {
    if t.App? {
      var i :| 0 <= i < |t.args| && Occurs(x, t.args[i]);
      OnlyCurrOccurs(t.args[i], vars, x);
    }
  }

  lemma {:induction false} NoNextOccurs(t: Term, vars: seq<Name>, inputs: seq<Name>, x: Symbol)
    requires NoNext(t, vars, inputs) && Occurs(x, t)
    ensures (x.Cur? && x.n in vars) || (x.Inp? && x.n in inputs)
    decreases t
  {
    if t.App? {
      var i :| 0 <= i < |t.args| && Occurs(x, t.args[i]);
      NoNextOccurs(t.args[i], vars, inputs, x);
    }
  }

  /** `next_map_` */
  function NextMap(vars: seq<Name>): map<Symbol, Term> {
    map n | n in vars :: Cur(n) := Sym(Next(n))
  }

  /** `next`: the term over next-state symbols */
  function NextTerm(t: Term, vars: seq<Name>): Term {
    Subst(t, NextMap(vars))
  }

  /** Renaming to next-state symbols evaluates a state formula in the next state. */
  lemma {:induction false} NextEval(t: Term, vars: seq<Name>, s: State, i: Input, u: State, th: Theory)
    requires OnlyCurr(t, vars)
    ensures Holds(NextTerm(t, vars), EnvOf(s, i, u), th) <==> Holds(t, EnvOf(u, i, u), th)
  {
    forall x | Occurs(x, t)
      ensures EnvOf(u, i, u)(x) ==
        if x in NextMap(vars) then Eval(NextMap(vars)[x], EnvOf(s, i, u), th) else EnvOf(s, i, u)(x)
    {
      OnlyCurrOccurs(t, vars, x);
    }
    SubstEval(t, NextMap(vars), EnvOf(s, i, u), EnvOf(u, i, u), th);
  }

  lemma {:induction false} StateFormula(
      t: Term, vars: seq<Name>, s: State, i: Input, u: State, j: Input, v: State, th: Theory)
    requires OnlyCurr(t, vars)
    ensures Eval(t, EnvOf(s, i, u), th) == Eval(t, EnvOf(s, j, v), th)
  {
    forall x | Occurs(x, t) ensures EnvOf(s, i, u)(x) == EnvOf(s, j, v)(x) {
      OnlyCurrOccurs(t, vars, x);
    }
    EvalAgree(t, EnvOf(s, i, u), EnvOf(s, j, v), th);
  }

  lemma {:induction false} UpdateFormula(
      t: Term, vars: seq<Name>, inputs: seq<Name>, s: State, i: Input, u: State, v: State, th: Theory)
    requires NoNext(t, vars, inputs)
    ensures Eval(t, EnvOf(s, i, u), th) == Eval(t, EnvOf(s, i, v), th)
  {
    forall x | Occurs(x, t) ensures EnvOf(s, i, u)(x) == EnvOf(s, i, v)(x) {
      NoNextOccurs(t, vars, inputs, x);
    }
    EvalAgree(t, EnvOf(s, i, u), EnvOf(s, i, v), th);
  }

  // ----- the shape of trans -----

  /**
    The fields that give a system its meaning; `imposed` are the constraints also added to init and to the
    next state.
   */
  datatype View = MkView(vars: seq<Name>, inputs: seq<Name>, init: Term, trans: Term,
                       updates: map<Name, Term>, constraints: seq<Term>, imposed: seq<Term>)

  ghost predicate UpdatesHold(v: View, s: State, i: Input, t: State, th: Theory) {
    forall n :: n in v.updates ==> Lookup(t, n) == Eval(v.updates[n], EnvOf(s, i, t), th)
  }

  ghost predicate AllHold(cs: seq<Term>, s: State, i: Input, t: State, th: Theory) {
    forall c :: c in cs ==> Holds(c, EnvOf(s, i, t), th)
  }

  /** trans is: every update, every constraint now, every imposed constraint next; init implies the imposed ones. */
  ghost predicate Shaped(v: View, th: Theory) {
    && (forall n :: n in v.updates ==> n in v.vars && NoNext(v.updates[n], v.vars, v.inputs))
    && (forall c :: c in v.constraints ==> NoNext(c, v.vars, v.inputs))
    && (forall c :: c in v.imposed ==> OnlyCurr(c, v.vars))
    && OnlyCurr(v.init, v.vars)
    && (forall s, i, t :: Holds(v.trans, EnvOf(s, i, t), th) <==>
          UpdatesHold(v, s, i, t, th) && AllHold(v.constraints, s, i, t, th) && AllHold(v.imposed, t, i, t, th))
    && (forall s, i, t :: Holds(v.init, EnvOf(s, i, t), th) ==> AllHold(v.imposed, s, i, t, th))
  }

  /** The semantic system of a view; its states assign exactly the state variables. */
  ghost function Semantics(v: View, bad: Term, th: Theory): System<State, Input> {
    System((s: State) => s.Keys == VarSet(v.vars) && Holds(v.init, EnvOf(s, map[], s), th),
           (s: State, i: Input, t: State) =>
             s.Keys == VarSet(v.vars) && t.Keys == VarSet(v.vars) && Holds(v.trans, EnvOf(s, i, t), th),
           (s: State) => Holds(bad, EnvOf(s, map[], s), th))
  }

  ghost function VarSet(vars: seq<Name>): set<Name> {
    set n | n in vars
  }

  ghost predicate AgreeOnUpdated(v: View, t: State, u: State) {
    forall n :: n in v.updates ==> Lookup(t, n) == Lookup(u, n)
  }

  /** A state that occurs in a run can replace a successor it agrees with on every updated variable. */
  lemma {:induction false} SuccessorReplaceable(v: View, bad: Term, th: Theory, s: State, i: Input, t: State, u: State)
    requires Shaped(v, th) && Semantics(v, bad, th).trans(s, i, t)
    requires AgreeOnUpdated(v, t, u)
    requires Semantics(v, bad, th).init(u) || exists q, j :: Semantics(v, bad, th).trans(q, j, u)
    ensures Semantics(v, bad, th).trans(s, i, u)
  {
    ImposedOnRuns(v, bad, th, u, i);
    forall n | n in v.updates ensures Lookup(u, n) == Eval(v.updates[n], EnvOf(s, i, u), th) {
      UpdateFormula(v.updates[n], v.vars, v.inputs, s, i, t, u, th);
    }
    forall c | c in v.constraints ensures Holds(c, EnvOf(s, i, u), th) {
      UpdateFormula(c, v.vars, v.inputs, s, i, t, u, th);
    }
  }

  lemma {:induction false} ImposedOnRuns(v: View, bad: Term, th: Theory, u: State, i: Input)
    requires Shaped(v, th)
    requires Semantics(v, bad, th).init(u) || exists q, j :: Semantics(v, bad, th).trans(q, j, u)
    ensures AllHold(v.imposed, u, i, u, th) && u.Keys == VarSet(v.vars)
  {
    var j: Input := map[];
    if !Semantics(v, bad, th).init(u) {
      var q;
      q, j :| Semantics(v, bad, th).trans(q, j, u);
    }
    forall c | c in v.imposed ensures Holds(c, EnvOf(u, i, u), th) {
      StateFormula(c, v.vars, u, j, u, i, u, th);
    }
  }

  // ----- how each extension keeps the shape -----

  lemma {:induction false} NoNextMono(t: Term, vars: seq<Name>, inputs: seq<Name>, vars': seq<Name>, inputs': seq<Name>)
    requires NoNext(t, vars, inputs) && VarSet(vars) <= VarSet(vars') && VarSet(inputs) <= VarSet(inputs')
    ensures NoNext(t, vars', inputs')
    decreases t
  {
    if t.App? {
      forall i | 0 <= i < |t.args| ensures NoNext(t.args[i], vars', inputs') {
        NoNextMono(t.args[i], vars, inputs, vars', inputs');
      }
    } else if t.Sym? {
      assert t.x.n in VarSet(vars) || t.x.n in VarSet(inputs);
    }
  }

  lemma {:induction false} OnlyCurrMono(t: Term, vars: seq<Name>, vars': seq<Name>)
    requires OnlyCurr(t, vars) && VarSet(vars) <= VarSet(vars')
    ensures OnlyCurr(t, vars')
    decreases t
  {
    if t.App? {
      forall i | 0 <= i < |t.args| ensures OnlyCurr(t.args[i], vars') {
        OnlyCurrMono(t.args[i], vars, vars');
      }
    } else if t.Sym? {
      assert t.x.n in VarSet(vars);
    }
  }

  lemma {:induction false} OnlyCurrNoNext(t: Term, vars: seq<Name>, inputs: seq<Name>)
    requires OnlyCurr(t, vars)
    ensures NoNext(t, vars, inputs)
    decreases t
  {
    if t.App? {
      forall i | 0 <= i < |t.args| ensures NoNext(t.args[i], vars, inputs) {
        OnlyCurrNoNext(t.args[i], vars, inputs);
      }
    }
  }

  lemma {:induction false} OnlyCurrAnd(t: Term, u: Term, vars: seq<Name>)
    requires OnlyCurr(t, vars) && OnlyCurr(u, vars)
    ensures OnlyCurr(MkAnd(t, u), vars)
  {
  }

  lemma {:induction false} ShapedMoreSymbols(v: View, th: Theory, vars: seq<Name>, inputs: seq<Name>)
    requires Shaped(v, th) && VarSet(v.vars) <= VarSet(vars) && VarSet(v.inputs) <= VarSet(inputs)
    ensures Shaped(v.(vars := vars, inputs := inputs), th)
  {
    var v' := v.(vars := vars, inputs := inputs);
    forall n | n in v.updates ensures n in vars && NoNext(v.updates[n], vars, inputs) {
      assert n in VarSet(v.vars);
      NoNextMono(v.updates[n], v.vars, v.inputs, vars, inputs);
    }
    forall c | c in v.constraints ensures NoNext(c, vars, inputs) {
      NoNextMono(c, v.vars, v.inputs, vars, inputs);
    }
    forall c | c in v.imposed ensures OnlyCurr(c, vars) {
      OnlyCurrMono(c, v.vars, vars);
    }
    OnlyCurrMono(v.init, v.vars, vars);
    forall s, i, t ensures UpdatesHold(v', s, i, t, th) <==> UpdatesHold(v, s, i, t, th) {
    }
  }

  lemma {:induction false} ShapedInit(v: View, th: Theory, c: Term)
    requires Shaped(v, th) && OnlyCurr(c, v.vars)
    ensures Shaped(v.(init := MkAnd(v.init, c)), th)
  {
    var v' := v.(init := MkAnd(v.init, c));
    OnlyCurrAnd(v.init, c, v.vars);
    forall s, i, t ensures UpdatesHold(v', s, i, t, th) <==> UpdatesHold(v, s, i, t, th) {
    }
    forall s, i, t | Holds(v'.init, EnvOf(s, i, t), th) ensures AllHold(v'.imposed, s, i, t, th) {
      EvalAnd(v.init, c, EnvOf(s, i, t), th);
    }
  }

  lemma {:induction false} ShapedUpdate(v: View, th: Theory, n: Name, val: Term)
    requires Shaped(v, th) && n in v.vars && n !in v.updates && NoNext(val, v.vars, v.inputs)
    ensures Shaped(v.(updates := v.updates[n := val], trans := MkAnd(v.trans, MkEqual(Sym(Next(n)), val))), th)
  {
    var v' := v.(updates := v.updates[n := val], trans := MkAnd(v.trans, MkEqual(Sym(Next(n)), val)));
    forall s, i, t
      ensures Holds(v'.trans, EnvOf(s, i, t), th) <==>
        Holds(v.trans, EnvOf(s, i, t), th) && Lookup(t, n) == Eval(val, EnvOf(s, i, t), th)
      ensures UpdatesHold(v', s, i, t, th) <==>
        UpdatesHold(v, s, i, t, th) && Lookup(t, n) == Eval(val, EnvOf(s, i, t), th)
    {
      EvalAnd(v.trans, MkEqual(Sym(Next(n)), val), EnvOf(s, i, t), th);
      EvalEqual(Sym(Next(n)), val, EnvOf(s, i, t), th);
      assert forall m :: m in v.updates ==> m in v'.updates && v'.updates[m] == v.updates[m];
      assert v'.updates[n] == val;
    }
  }

  lemma {:induction false} ShapedConstraint(v: View, th: Theory, c: Term)
    requires Shaped(v, th) && NoNext(c, v.vars, v.inputs)
    ensures Shaped(v.(constraints := v.constraints + [c], trans := MkAnd(v.trans, c)), th)
  {
    var v' := v.(constraints := v.constraints + [c], trans := MkAnd(v.trans, c));
    forall s, i, t
      ensures Holds(v'.trans, EnvOf(s, i, t), th) <==>
        Holds(v.trans, EnvOf(s, i, t), th) && Holds(c, EnvOf(s, i, t), th)
      ensures AllHold(v'.constraints, s, i, t, th) <==>
        AllHold(v.constraints, s, i, t, th) && Holds(c, EnvOf(s, i, t), th)
      ensures UpdatesHold(v', s, i, t, th) <==> UpdatesHold(v, s, i, t, th)
    {
      EvalAnd(v.trans, c, EnvOf(s, i, t), th);
      assert forall d :: d in v'.constraints <==> d in v.constraints || d == c;
    }
  }

  lemma {:induction false} ShapedImposed(v: View, th: Theory, c: Term)
    requires Shaped(v, th) && OnlyCurr(c, v.vars)
    ensures Shaped(v.(imposed := v.imposed + [c], trans := MkAnd(v.trans, NextTerm(c, v.vars)),
      init := MkAnd(v.init, c)), th)
  {
    var c' := NextTerm(c, v.vars);
    var v' := v.(imposed := v.imposed + [c], trans := MkAnd(v.trans, c'), init := MkAnd(v.init, c));
    OnlyCurrAnd(v.init, c, v.vars);
    forall s, i, t
      ensures AllHold(v'.imposed, s, i, t, th) <==> AllHold(v.imposed, s, i, t, th) && Holds(c, EnvOf(s, i, t), th)
    {
      assert forall d :: d in v'.imposed <==> d in v.imposed || d == c;
    }
    forall s, i, t
      ensures Holds(v'.trans, EnvOf(s, i, t), th) <==>
        Holds(v.trans, EnvOf(s, i, t), th) && Holds(c, EnvOf(t, i, t), th)
      ensures UpdatesHold(v', s, i, t, th) <==> UpdatesHold(v, s, i, t, th)
    {
      EvalAnd(v.trans, c', EnvOf(s, i, t), th);
      NextEval(c, v.vars, s, i, t, th);
    }
    forall s, i, t | Holds(v'.init, EnvOf(s, i, t), th) ensures AllHold(v'.imposed, s, i, t, th) {
      EvalAnd(v.init, c, EnvOf(s, i, t), th);
    }
  }

  // ----- determinism -----

  /** Every variable has an update and nothing is constrained. */
  ghost predicate AllUpdated(v: View) {
    v.updates.Keys == VarSet(v.vars) && v.constraints == [] && v.imposed == []
  }

  /** Then a state and an input have exactly one successor. */
  lemma {:induction false} AllUpdatedIsDeterministic(
      v: View, bad: Term, th: Theory, s: State, i: Input) returns (t: State)
    requires Shaped(v, th) && AllUpdated(v) && s.Keys == VarSet(v.vars)
    ensures forall u: State :: Semantics(v, bad, th).trans(s, i, u) <==> u == t
  {
    hide Eval, NoNext, OnlyCurr;
    t := map n | n in v.updates :: Eval(v.updates[n], EnvOf(s, i, map[]), th);
    forall u: State | u.Keys == VarSet(v.vars) ensures UpdatesHold(v, s, i, u, th) <==> u == t {
      forall n | n in v.updates ensures Eval(v.updates[n], EnvOf(s, i, u), th) == t[n] {
        UpdateFormula(v.updates[n], v.vars, v.inputs, s, i, u, map[], th);
      }
      if UpdatesHold(v, s, i, u, th) {
        forall n | n in u ensures u[n] == t[n] {
          assert n in v.updates;
        }
      }
    }
  }

  lemma {:induction false} UpdatesKnown(v: View, th: Theory)
    requires Shaped(v, th)
    ensures forall n :: n in v.updates ==> n in v.vars
  {
  }

  ghost predicate Distinct(vars: seq<Name>) {
    forall i, j :: 0 <= i < j < |vars| ==> vars[i] != vars[j]
  }

  lemma {:induction false} DistinctCount(vars: seq<Name>)
    requires Distinct(vars)
    ensures |VarSet(vars)| == |vars|
  {
    if vars != [] {
      var m := |vars| - 1;
      DistinctCount(vars[..m]);
      assert VarSet(vars) == VarSet(vars[..m]) + {vars[m]};
    } else {
      assert VarSet(vars) == {};
    }
  }

  /** As many updates as variables means an update for each. */
  lemma {:induction false} CountDecides(vars: seq<Name>, keys: set<Name>)
    requires Distinct(vars)
    requires forall n :: n in keys ==> n in vars
    ensures |keys| == |vars| ==> keys == VarSet(vars)
  {
    DistinctCount(vars);
    if keys != VarSet(vars) {
      var n :| n in VarSet(vars) && n !in keys;
      StrictSubsetSmaller(keys, VarSet(vars), n);
    }
  }

  /** The flag after an update: set by counting when nothing is constrained, and unset otherwise. */
  lemma {:induction false} DeterminismKept(v: View, was: View, free: bool, flag: bool)
    requires Distinct(v.vars)
    requires forall n :: n in v.updates ==> n in v.vars
    requires free ==> v.constraints == [] && v.imposed == [] && flag == (|v.updates| == |v.vars|)
    requires !free ==> was.constraints != [] && (flag ==> AllUpdated(was))
    ensures flag ==> AllUpdated(v)
  {
    assert |v.updates.Keys| == |v.updates|;
    CountDecides(v.vars, v.updates.Keys);
  }

  lemma {:induction false} MoreUpdates(updates: map<Name, Term>, n: Name, val: Term, vars: set<Name>)
    requires n !in updates
    ensures |updates[n := val]| == |updates| + 1
    ensures vars - updates[n := val].Keys == vars - updates.Keys - {n}
  {
    assert updates[n := val].Keys == updates.Keys + {n};
    assert |updates.Keys| == |updates| && |updates[n := val].Keys| == |updates[n := val]|;
  }

  // ----- the object -----

  class TransitionSystem {
    const th: Theory

    var statevars: seq<Name>
    var inputvars: seq<Name>
    var init: Term
    var trans: Term
    var updates: map<Name, Term>
    var noUpdate: set<Name>
    var constraints: seq<(Term, bool)>
    var deterministic: bool
    ghost var imposed: seq<Term>

    ghost function View(): View
      reads this
    {
      MkView(statevars, inputvars, init, trans, updates, Firsts(constraints), imposed)
    }

    ghost predicate Valid()
      reads this
    {
      && Shaped(View(), th)
      && noUpdate == VarSet(statevars) - updates.Keys
      && Distinct(statevars)
      && (constraints == [] ==> imposed == [])
      && (forall c :: c in imposed ==> (c, true) in constraints)
      && (deterministic ==> AllUpdated(View()))
    }

    constructor (theory: Theory)
      ensures Valid() && th == theory
      ensures View() == EmptyView() && !deterministic
    {
      th := theory;
      statevars, inputvars := [], [];
      init, trans := TrueTerm, TrueTerm;
      updates, noUpdate, constraints, imposed, deterministic := map[], {}, [], [], false;
    }

    /** A copy, for engines that extend the system they check. */
    constructor Copy(ts: TransitionSystem)
      requires ts.Valid()
      ensures Valid() && th == ts.th && View() == ts.View() && deterministic == ts.deterministic
    {
      th := ts.th;
      statevars, inputvars, init, trans := ts.statevars, ts.inputvars, ts.init, ts.trans;
      updates, noUpdate, constraints, imposed, deterministic := ts.updates, ts.noUpdate, ts.constraints, ts.imposed,
        ts.deterministic;
    }

    method MakeInputvar(n: Name) returns (ok: bool)
      requires Valid()
      modifies this
      ensures Valid() && ok == (n !in old(statevars) && n !in old(inputvars))
      ensures View() == if ok then old(View()).(inputs := old(inputvars) + [n]) else old(View())
      ensures deterministic == old(deterministic)
    {
      ok := n !in statevars && n !in inputvars;
      if ok {
        ShapedMoreSymbols(View(), th, statevars, inputvars + [n]);
        inputvars := inputvars + [n];
      }
    }

    method MakeStatevar(n: Name) returns (ok: bool)
      requires Valid()
      modifies this
      ensures Valid() && ok == (n !in old(statevars) && n !in old(inputvars))
      ensures View() == if ok then old(View()).(vars := old(statevars) + [n]) else old(View())
      ensures !deterministic
    {
      deterministic := false;
      ok := n !in statevars && n !in inputvars;
      if ok {
        ShapedMoreSymbols(View(), th, statevars + [n], inputvars);
        assert n !in updates;
        statevars := statevars + [n];
        noUpdate := noUpdate + {n};
      }
    }

    method ConstrainInit(c: Term) returns (ok: bool)
      requires Valid()
      modifies this
      ensures Valid() && ok == OnlyCurr(c, old(statevars))
      ensures View() == if ok then old(View()).(init := MkAnd(old(init), c)) else old(View())
      ensures deterministic == old(deterministic)
    {
      hide Shaped, OnlyCurr;
      ok := OnlyCurr(c, statevars);
      if ok {
        ShapedInit(View(), th, c);
        init := MkAnd(init, c);
      }
    }

    method AssignNext(n: Name, val: Term) returns (ok: bool)
      requires Valid()
      modifies this
      ensures Valid()
      ensures ok == (n in old(statevars) && NoNext(val, old(statevars), old(inputvars)) && n !in old(updates))
      ensures View() ==
        if ok then old(View()).(updates := old(updates)[n := val],
          trans := MkAnd(old(trans), MkEqual(Sym(Next(n)), val)))
        else old(View())
      ensures deterministic ==
        if ok && old(constraints) == [] then |old(updates)| + 1 == |statevars| else old(deterministic)
    {
      hide Shaped, NoNext, VarSet, AllUpdated, Distinct;
      ghost var v := View();
      UpdatesKnown(v, th);
      ok := n in statevars && NoNext(val, statevars, inputvars) && n !in updates;
      if ok {
        var grown := updates[n := val];
        var flag := if constraints == [] then |grown| == |statevars| else deterministic;
        ghost var w := v.(updates := grown, trans := MkAnd(trans, MkEqual(Sym(Next(n)), val)));
        ShapedUpdate(v, th, n, val);
        DeterminismKept(w, v, constraints == [], flag);
        MoreUpdates(updates, n, val, VarSet(statevars));
        updates := grown;
        noUpdate := noUpdate - {n};
        trans := MkAnd(trans, MkEqual(Sym(Next(n)), val));
        if constraints == [] {
          deterministic := flag;
        }
        assert View() == w;
      }
    }

    method ConstrainInputs(c: Term) returns (ok: bool)
      requires Valid()
      modifies this
      ensures Valid() && ok == NoNext(c, old(statevars), old(inputvars))
      ensures View() == if ok
        then old(View()).(trans := MkAnd(old(trans), c), constraints := old(View()).constraints + [c])
        else old(View())
      ensures constraints == if ok then old(constraints) + [(c, true)] else old(constraints)
      ensures !deterministic
    {
      hide Shaped, NoNext;
      deterministic := false;
      ok := NoNext(c, statevars, inputvars);
      if ok {
        ghost var v := View();
        ShapedConstraint(v, th, c);
        trans := MkAnd(trans, c);
        constraints := constraints + [(c, true)];
        assert Firsts(constraints) == v.constraints + [c];
      }
    }

    /** `add_invar`, and `add_constraint` for a state formula; the flag asks for init and the next state too. */
    method AddStateConstraint(c: Term, toInitAndNext: bool)
      requires Valid() && OnlyCurr(c, statevars)
      modifies this
      ensures Valid()
      ensures View().constraints == old(View()).constraints + [c]
      ensures constraints == old(constraints) + [(c, toInitAndNext)]
      ensures View().imposed == old(View()).imposed + if toInitAndNext then [c] else []
      ensures View().vars == old(View()).vars && View().inputs == old(View()).inputs
      ensures View().updates == old(View()).updates
      ensures init == (if toInitAndNext then MkAnd(old(init), c) else old(init)) && !deterministic
    {
      hide Shaped;
      deterministic := false;
      OnlyCurrNoNext(c, statevars, inputvars);
      ghost var v := View();
      ShapedConstraint(v, th, c);
      trans := MkAnd(trans, c);
      constraints := constraints + [(c, toInitAndNext)];
      assert Firsts(constraints) == v.constraints + [c];
      if toInitAndNext {
        ShapedImposed(View(), th, c);
        init := MkAnd(init, c);
        trans := MkAnd(trans, NextTerm(c, statevars));
        imposed := imposed + [c];
      }
    }

    method AddConstraint(c: Term, toInitAndNext: bool) returns (ok: bool)
      requires Valid()
      modifies this
      ensures Valid() && ok == (OnlyCurr(c, old(statevars)) || NoNext(c, old(statevars), old(inputvars)))
      ensures ok ==> View().constraints == old(View()).constraints + [c]
      ensures constraints == if ok then old(constraints) + [(c, toInitAndNext)] else old(constraints)
      ensures ok ==>
        View().imposed == old(View()).imposed + if toInitAndNext && OnlyCurr(c, old(statevars)) then [c] else []
      ensures View().updates == old(View()).updates && statevars == old(statevars) && inputvars == old(inputvars)
      ensures !ok ==> View() == old(View())
      ensures !deterministic
    {
      hide Shaped, OnlyCurr, NoNext;
      deterministic := false;
      ok := true;
      if OnlyCurr(c, statevars) {
        AddStateConstraint(c, toInitAndNext);
      } else if NoNext(c, statevars, inputvars) {
        ghost var v := View();
        ShapedConstraint(v, th, c);
        trans := MkAnd(trans, c);
        constraints := constraints + [(c, toInitAndNext)];
        assert Firsts(constraints) == v.constraints + [c];
        assert v.imposed + [] == v.imposed;
      } else {
        ok := false;
      }
    }
  }

  function Firsts(cs: seq<(Term, bool)>): (r: seq<Term>)
    ensures |r| == |cs| && forall k :: 0 <= k < |cs| ==> r[k] == cs[k].0
  {
    seq(|cs|, k requires 0 <= k < |cs| => cs[k].0)
  }

  function EmptyView(): View {
    MkView([], [], TrueTerm, TrueTerm, map[], [], [])
  }
}
