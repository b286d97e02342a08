/**
  Unrolling of terms: the plain unroller renames symbols to timed ones; the
  functional one substitutes updates and introduces timed symbols only now and then.
 */
module Unrollers {
  import opened Runs
  import opened Terms
  import opened TransitionSystems

  // ----- the plain unroller -----

  predicate InScope(x: Symbol, vars: seq<Name>, inputs: seq<Name>) {
    match x
    case Cur(n) => n in vars
    case Next(n) => n in vars
    case Inp(n) => n in inputs
    case Timed(_, _) => false
  }

  function TimedSymbol(x: Symbol, k: nat): Symbol {
    if x.Next? then Timed(Cur(x.n), k + 1) else Timed(x, k)
  }

  /** The substitution at time `k`: current and next variables, and inputs. */
  ghost predicate IsPlain(m: map<Symbol, Term>, vars: seq<Name>, inputs: seq<Name>, k: nat) {
    && (forall x :: x in m <==> InScope(x, vars, inputs))
    && (forall x :: x in m ==> m[x] == Sym(TimedSymbol(x, k)))
  }

  function PlainTerm(t: Term, k: nat): Term {
    match t
    case Const(_) => t
    case Sym(x) => Sym(TimedSymbol(x, k))
    case App(op, args) => App(op, seq(|args|, i requires 0 <= i < |args| => PlainTerm(args[i], k)))
  }

  /** Terms over symbols of the system. */
  predicate Scoped(t: Term, vars: seq<Name>, inputs: seq<Name>) {
    match t
    case Const(_) => true
    case Sym(x) => InScope(x, vars, inputs)
    case App(_, args) => forall i :: 0 <= i < |args| ==> Scoped(args[i], vars, inputs)
  }

  /** Symbols of the system are timed; any other symbol is left alone. */
  function TimedTerm(t: Term, vars: seq<Name>, inputs: seq<Name>, k: nat): Term {
    match t
    case Const(_) => t
    case Sym(x) => if InScope(x, vars, inputs) then Sym(TimedSymbol(x, k)) else t
    case App(op, args) => App(op, seq(|args|, i requires 0 <= i < |args| => TimedTerm(args[i], vars, inputs, k)))
  }

  lemma {:induction false} SubstIsTimed(t: Term, m: map<Symbol, Term>, vars: seq<Name>, inputs: seq<Name>, k: nat)
    requires IsPlain(m, vars, inputs, k)
    ensures Subst(t, m) == TimedTerm(t, vars, inputs, k)
    decreases t
  {
    if t.App? {
      var a := seq(|t.args|, i requires 0 <= i < |t.args| => Subst(t.args[i], m));
      var b := seq(|t.args|, i requires 0 <= i < |t.args| => TimedTerm(t.args[i], vars, inputs, k));
      forall i | 0 <= i < |t.args| ensures a[i] == b[i] {
        SubstIsTimed(t.args[i], m, vars, inputs, k);
      }
      assert a == b;
    }
  }

  lemma {:induction false} ScopedIsPlain(t: Term, vars: seq<Name>, inputs: seq<Name>, k: nat)
    requires Scoped(t, vars, inputs)
    ensures TimedTerm(t, vars, inputs, k) == PlainTerm(t, k)
    decreases t
  {
    if t.App? {
      var a := seq(|t.args|, i requires 0 <= i < |t.args| => TimedTerm(t.args[i], vars, inputs, k));
      var b := seq(|t.args|, i requires 0 <= i < |t.args| => PlainTerm(t.args[i], k));
      forall i | 0 <= i < |t.args| ensures a[i] == b[i] {
        ScopedIsPlain(t.args[i], vars, inputs, k);
      }
      assert a == b;
    }
  }

  lemma {:induction false} SubstIsPlain(t: Term, m: map<Symbol, Term>, vars: seq<Name>, inputs: seq<Name>, k: nat)
    requires Scoped(t, vars, inputs) && IsPlain(m, vars, inputs, k)
    ensures Subst(t, m) == PlainTerm(t, k)
  {
    SubstIsTimed(t, m, vars, inputs, k);
    ScopedIsPlain(t, vars, inputs, k);
  }

  /** A term at time `k` has the value that its symbols have there. */
  lemma {:induction false} PlainEval(t: Term, k: nat, env: Env, env': Env, th: Theory)
    requires forall x :: Occurs(x, t) ==> env'(x) == env(TimedSymbol(x, k))
    ensures Eval(PlainTerm(t, k), env, th) == Eval(t, env', th)
    decreases t
  {
    match t
    case Const(_) =>
    case Sym(x) =>
      assert Occurs(x, t);
    case App(op, args) =>
      var timed := seq(|args|, i requires 0 <= i < |args| => PlainTerm(args[i], k));
      assert PlainTerm(t, k) == App(op, timed);
      forall i | 0 <= i < |args| ensures Eval(timed[i], env, th) == Eval(args[i], env', th) {
        forall x | Occurs(x, args[i]) ensures env'(x) == env(TimedSymbol(x, k)) {
          assert Occurs(x, t);
        }
        PlainEval(args[i], k, env, env', th);
      }
      assert seq(|timed|, i requires 0 <= i < |timed| => Eval(timed[i], env, th))
          == seq(|args|, i requires 0 <= i < |args| => Eval(args[i], env', th));
  }

  /** What `untime` maps timed symbols to. */
  ghost predicate Untimes(u: map<Symbol, Term>) {
    forall x :: x in u ==> x.Timed? && u[x] == Sym(x.s)
  }

  ghost predicate Knows(u: map<Symbol, Term>, vars: seq<Name>, inputs: seq<Name>, k: nat) {
    forall x :: InScope(x, vars, inputs) ==> TimedSymbol(x, k) in u
  }

  /** Untiming undoes unrolling, for terms without next-state variables. */
  lemma {:induction false} UntimeUndoes(t: Term, u: map<Symbol, Term>, vars: seq<Name>, inputs: seq<Name>, k: nat)
    requires NoNext(t, vars, inputs) && Untimes(u) && Knows(u, vars, inputs, k)
    ensures Subst(PlainTerm(t, k), u) == t
    decreases t
  {
    match t
    case Const(_) =>
    case Sym(x) =>
      assert InScope(x, vars, inputs);
    case App(op, args) =>
      var a := seq(|args|, i requires 0 <= i < |args| => PlainTerm(args[i], k));
      var b := seq(|a|, i requires 0 <= i < |a| => Subst(a[i], u));
      forall i | 0 <= i < |args| ensures b[i] == args[i] {
        UntimeUndoes(args[i], u, vars, inputs, k);
      }
      assert b == args;
  }

  /** Terms over current variables and inputs at one time. */
  predicate AllAt(t: Term, vars: seq<Name>, inputs: seq<Name>, k: nat) {
    match t
    case Const(_) => true
    case Sym(x) => x.Timed? && x.k == k && !x.s.Next? && InScope(x.s, vars, inputs)
    case App(_, args) => forall i :: 0 <= i < |args| ==> AllAt(args[i], vars, inputs, k)
  }

  /** Unrolling undoes untiming, for terms at a single time. */
  lemma {:induction false} TimeUndoes(t: Term, u: map<Symbol, Term>, vars: seq<Name>, inputs: seq<Name>, k: nat)
    requires AllAt(t, vars, inputs, k) && Untimes(u) && Knows(u, vars, inputs, k)
    ensures PlainTerm(Subst(t, u), k) == t && NoNext(Subst(t, u), vars, inputs)
    decreases t
  {
    match t
    case Const(_) =>
    case Sym(x) =>
      assert TimedSymbol(x.s, k) == x;
    case App(op, args) =>
      var a := seq(|args|, i requires 0 <= i < |args| => Subst(args[i], u));
      var b := seq(|a|, i requires 0 <= i < |a| => PlainTerm(a[i], k));
      forall i | 0 <= i < |args| ensures b[i] == args[i] && NoNext(a[i], vars, inputs) {
        TimeUndoes(args[i], u, vars, inputs, k);
      }
      assert b == args;
  }

  class Unroller {
    const ts: TransitionSystem

    var numVars: nat
    var timeCache: seq<map<Symbol, Term>>
    var untimeCache: map<Symbol, Term>
    ghost var vars: seq<Name>      // the variables the cached substitutions cover
    ghost var inputs: seq<Name>

    ghost predicate Valid()
      reads this, ts
    {
      && vars <= ts.statevars && inputs <= ts.inputvars && numVars == |vars| + |inputs|
      && Untimes(untimeCache)
      && forall j: nat :: j < |timeCache| ==>
        IsPlain(timeCache[j], vars, inputs, j) && Knows(untimeCache, vars, inputs, j)
    }

    constructor (ts: TransitionSystem)
      ensures this.ts == ts && Valid() && timeCache == []
    {
      this.ts := ts;
      numVars := |ts.statevars| + |ts.inputvars|;
      timeCache, untimeCache := [], map[];
      vars, inputs := ts.statevars, ts.inputvars;
    }

    method VarAtTime(x: Symbol, k: nat) returns (t: Term)
      requires Untimes(untimeCache)
      modifies `untimeCache
      ensures t == Sym(Timed(x, k)) && Untimes(untimeCache)
      ensures untimeCache == old(untimeCache)[Timed(x, k) := Sym(x)]
    {
      t := Sym(Timed(x, k));
      untimeCache := untimeCache[Timed(x, k) := Sym(x)];
    }

    /** The substitution at time `t` for all variables of the system. */
    method FillCache(t: nat) returns (subst: map<Symbol, Term>)
      requires Untimes(untimeCache)
      modifies `untimeCache
      ensures IsPlain(subst, ts.statevars, ts.inputvars, t) && Knows(untimeCache, ts.statevars, ts.inputvars, t)
      ensures Untimes(untimeCache) && old(untimeCache).Keys <= untimeCache.Keys
    {
      subst := map[];
      for m := 0 to |ts.statevars|
        invariant IsPlain(subst, ts.statevars[..m], [], t) && Knows(untimeCache, ts.statevars[..m], [], t)
        invariant Untimes(untimeCache) && old(untimeCache).Keys <= untimeCache.Keys
      {
        var sv := ts.statevars[m];
        var newV := VarAtTime(Cur(sv), t);
        var newVn := VarAtTime(Cur(sv), t + 1);
        subst := subst[Cur(sv) := newV][Next(sv) := newVn];
        assert forall n :: n in ts.statevars[..m + 1] <==> n in ts.statevars[..m] || n == sv;
      }
      assert ts.statevars[..|ts.statevars|] == ts.statevars;
      for m := 0 to |ts.inputvars|
        invariant IsPlain(subst, ts.statevars, ts.inputvars[..m], t)
        invariant Knows(untimeCache, ts.statevars, ts.inputvars[..m], t)
        invariant Untimes(untimeCache) && old(untimeCache).Keys <= untimeCache.Keys
      {
        var iv := ts.inputvars[m];
        var newV := VarAtTime(Inp(iv), t);
        subst := subst[Inp(iv) := newV];
        assert forall n :: n in ts.inputvars[..m + 1] <==> n in ts.inputvars[..m] || n == iv;
      }
      assert ts.inputvars[..|ts.inputvars|] == ts.inputvars;
    }

    method ExtendCache(k: nat)
      requires Untimes(untimeCache)
      modifies `timeCache, `untimeCache
      ensures Untimes(untimeCache) && old(untimeCache).Keys <= untimeCache.Keys
      ensures k < |timeCache| && old(timeCache) <= timeCache && (k < |old(timeCache)| ==> timeCache == old(timeCache))
      ensures Caches(|old(timeCache)|, |timeCache|, ts.statevars, ts.inputvars)
    {
      while |timeCache| <= k
        invariant Untimes(untimeCache) && old(untimeCache).Keys <= untimeCache.Keys
        invariant old(timeCache) <= timeCache && (k < |old(timeCache)| ==> timeCache == old(timeCache))
        invariant Caches(|old(timeCache)|, |timeCache|, ts.statevars, ts.inputvars)
        decreases k + 1 - |timeCache|
      {
        var subst := FillCache(|timeCache|);
        timeCache := timeCache + [subst];
      }
    }

    /** Rebuilds every cached substitution for the variables the system has now. */
    method RefreshCache()
      requires Untimes(untimeCache)
      modifies `timeCache, `untimeCache
      ensures Untimes(untimeCache) && old(untimeCache).Keys <= untimeCache.Keys
      ensures |timeCache| == |old(timeCache)| && Caches(0, |timeCache|, ts.statevars, ts.inputvars)
    {
      for t := 0 to |timeCache|
        invariant |timeCache| == |old(timeCache)|
        invariant Untimes(untimeCache) && old(untimeCache).Keys <= untimeCache.Keys
        invariant Caches(0, t, ts.statevars, ts.inputvars)
      {
        var subst := FillCache(t);
        timeCache := timeCache[t := subst];
      }
    }

    /** Extends the cache to `k`, and refreshes it if variables were added to the system. */
    method VarCacheAtTime(k: nat) returns (cache: map<Symbol, Term>)
      requires Valid()
      modifies this
      ensures Valid() && vars == ts.statevars && inputs == ts.inputvars
      ensures k < |timeCache| && |timeCache| >= |old(timeCache)| && cache == timeCache[k]
      ensures old(untimeCache).Keys <= untimeCache.Keys
    {
      ghost var from := |timeCache|;
      ExtendCache(k);
      var current := |ts.statevars| + |ts.inputvars|;
      if current > numVars {
        numVars := current;
        RefreshCache();
        vars, inputs := ts.statevars, ts.inputvars;
      } else {
        assert vars == ts.statevars && inputs == ts.inputvars;
        assert Caches(from, |timeCache|, vars, inputs);
      }
      cache := timeCache[k];
    }

    ghost predicate Caches(lo: nat, hi: nat, vs: seq<Name>, ins: seq<Name>)
      reads `timeCache, `untimeCache
    {
      && hi <= |timeCache|
      && forall j: nat :: lo <= j < hi ==> IsPlain(timeCache[j], vs, ins, j) && Knows(untimeCache, vs, ins, j)
    }

    method AtTime(t: Term, k: nat) returns (r: Term)
      requires Valid()
      modifies this
      ensures Valid() && r == TimedTerm(t, ts.statevars, ts.inputvars, k)
      ensures Scoped(t, ts.statevars, ts.inputvars) ==> r == PlainTerm(t, k)
      ensures Knows(untimeCache, ts.statevars, ts.inputvars, k) && vars == ts.statevars && inputs == ts.inputvars
    {
      var cache := VarCacheAtTime(k);
      SubstIsTimed(t, cache, ts.statevars, ts.inputvars, k);
      if Scoped(t, ts.statevars, ts.inputvars) {
        ScopedIsPlain(t, ts.statevars, ts.inputvars, k);
      }
      if t.Sym? && t.x in cache {
        return cache[t.x];
      }
      r := Subst(t, cache);
    }

    /** Untiming returns the term that was unrolled. */
    method Untime(t: Term, ghost orig: Term, ghost k: nat) returns (r: Term)
      requires Valid() && Knows(untimeCache, ts.statevars, ts.inputvars, k)
      requires NoNext(orig, ts.statevars, ts.inputvars) && t == PlainTerm(orig, k)
      ensures r == orig
    {
      UntimeUndoes(orig, untimeCache, ts.statevars, ts.inputvars, k);
      r := Subst(t, untimeCache);
    }
  }

  // ----- the run a timed assignment defines -----

  function RunInput(v: View, env: Env, t: nat): Input {
    map n | n in v.inputs :: env(Timed(Inp(n), t))
  }

  /** Initial values and variables without update come from the assignment, the rest from the updates. */
  function RunState(v: View, env: Env, th: Theory, t: nat): State {
    map n | n in v.vars ::
      if t > 0 && n in v.updates
        then Eval(v.updates[n], EnvOf(RunState(v, env, th, t - 1), RunInput(v, env, t - 1), map[]), th)
      else env(Timed(Cur(n), t))
  }

  /** The state that the plain unrolling reads off the assignment. */
  function PlainState(v: View, env: Env, t: nat): State {
    map n | n in v.vars :: env(Timed(Cur(n), t))
  }

  ghost predicate UpdatesAt(v: View, env: Env, th: Theory, j: nat) {
    forall n :: n in v.updates ==>
      env(Timed(Cur(n), j + 1)) == Eval(v.updates[n], EnvOf(PlainState(v, env, j), RunInput(v, env, j), map[]), th)
  }

  /** The assignment satisfies the updates of the plain unrolling before `k`. */
  ghost predicate PlainConsistent(v: View, env: Env, th: Theory, k: nat) {
    forall j: nat :: j < k ==> UpdatesAt(v, env, th, j)
  }

  ghost predicate WellTyped(v: View) {
    forall n :: n in v.updates ==> n in v.vars && NoNext(v.updates[n], v.vars, v.inputs)
  }

  lemma {:induction false} PlainRun(v: View, env: Env, th: Theory, k: nat)
    requires WellTyped(v) && PlainConsistent(v, env, th, k)
    ensures RunState(v, env, th, k) == PlainState(v, env, k)
  {
    if k > 0 {
      PlainRun(v, env, th, k - 1);
      assert UpdatesAt(v, env, th, k - 1);
    }
  }

  // ----- the functional unroller -----

  ghost function EntryAt(v: View, cache: seq<map<Symbol, Term>>, anew: bool, t: nat, n: Name): Term
    requires t <= |cache|
  {
    if anew || t == 0 || n !in v.updates then Sym(Timed(Cur(n), t)) else Subst(v.updates[n], cache[t - 1])
  }

  /** A current variable or an input of the system. */
  predicate Covered(v: View, x: Symbol) {
    (x.Cur? && x.n in v.vars) || (x.Inp? && x.n in v.inputs)
  }

  ghost predicate OnlyCovered(v: View, m: map<Symbol, Term>) {
    forall x :: x in m ==> Covered(v, x)
  }

  /** The layer at `t`: fresh symbols, or the updates substituted into the layer before; nothing else is in it. */
  ghost predicate CacheAt(v: View, cache: seq<map<Symbol, Term>>, anew: bool, t: nat)
    requires t < |cache|
  {
    && (forall n :: n in v.vars ==> Cur(n) in cache[t] && cache[t][Cur(n)] == EntryAt(v, cache, anew, t, n))
    && (forall n :: n in v.inputs ==> Inp(n) in cache[t] && cache[t][Inp(n)] == Sym(Timed(Inp(n), t)))
    && OnlyCovered(v, cache[t])
  }

  ghost predicate Defined(v: View, cache: seq<map<Symbol, Term>>, t: nat, n: Name, env: Env, th: Theory)
    requires 0 < t <= |cache|
  {
    n in v.updates ==> env(Timed(Cur(n), t)) == Eval(Subst(v.updates[n], cache[t - 1]), env, th)
  }

  /** The extra constraint at `t`: each fresh symbol equals the update it stands for. */
  ghost predicate ExtraAt(
      v: View, cache: seq<map<Symbol, Term>>, extra: Term, anew: bool, t: nat, vars: seq<Name>, th: Theory)
    requires t <= |cache|
  {
    forall env: Env :: Holds(extra, env, th) <==>
      (t > 0 && anew ==> forall n :: n in vars ==> Defined(v, cache, t, n, env, th))
  }

  ghost predicate Layers(v: View, cache: seq<map<Symbol, Term>>, extra: seq<Term>, anew: seq<bool>, th: Theory) {
    && |cache| == |extra| == |anew|
    && forall t: nat :: t < |cache| ==>
      CacheAt(v, cache, anew[t], t) && ExtraAt(v, cache, extra[t], anew[t], t, v.vars, th)
  }

  ghost predicate Satisfies(env: Env, extra: seq<Term>, t: nat, th: Theory)
    requires t < |extra|
  {
    forall j: nat :: j <= t ==> Holds(extra[j], env, th)
  }

  /** Substituting a layer whose entries have the values of a state evaluates in that state. */
  lemma {:induction false} LayerEval(
      v: View, term: Term, m: map<Symbol, Term>, env: Env, s: State, i: Input, th: Theory)
    requires NoNext(term, v.vars, v.inputs)
    requires forall n :: n in v.vars ==> Cur(n) in m && Eval(m[Cur(n)], env, th) == Lookup(s, n)
    requires forall n :: n in v.inputs ==> Inp(n) in m && Eval(m[Inp(n)], env, th) == Lookup(i, n)
    ensures Eval(Subst(term, m), env, th) == Eval(term, EnvOf(s, i, map[]), th)
  {
    var there := EnvOf(s, i, map[]);
    var mixed: Env := (x: Symbol) => if x in m then Eval(m[x], env, th) else env(x);
    SubstEval(term, m, env, mixed, th);
    forall x | Occurs(x, term) ensures mixed(x) == there(x) {
      NoNextOccurs(term, v.vars, v.inputs, x);
    }
    EvalAgree(term, mixed, there, th);
  }

  /** Under an assignment that satisfies the extra constraints, every layer has the values of the run. */
  lemma {:induction false} LayerIsRun(
      v: View, cache: seq<map<Symbol, Term>>, extra: seq<Term>, anew: seq<bool>, env: Env, t: nat, th: Theory)
    requires WellTyped(v) && Layers(v, cache, extra, anew, th) && t < |cache| && Satisfies(env, extra, t, th)
    ensures CacheAt(v, cache, anew[t], t)
    ensures forall n :: n in v.vars ==> Eval(cache[t][Cur(n)], env, th) == RunState(v, env, th, t)[n]
    ensures forall n :: n in v.inputs ==> Eval(cache[t][Inp(n)], env, th) == RunInput(v, env, t)[n]
  {
    assert CacheAt(v, cache, anew[t], t);
    if t > 0 {
      LayerIsRun(v, cache, extra, anew, env, t - 1, th);
      assert CacheAt(v, cache, anew[t - 1], t - 1);
      assert Holds(extra[t], env, th) && ExtraAt(v, cache, extra[t], anew[t], t, v.vars, th);
      forall n | n in v.vars ensures Eval(cache[t][Cur(n)], env, th) == RunState(v, env, th, t)[n] {
        if n in v.updates {
          LayerEval(v, v.updates[n], cache[t - 1], env, RunState(v, env, th, t - 1), RunInput(v, env, t - 1), th);
          assert anew[t] ==> Defined(v, cache, t, n, env, th);
        }
      }
    }
  }

  /** The unrolled term has, under any such assignment, the value of the original term in the k-th state of the run. */
  lemma {:induction false} FunctionalMeansRun(
      v: View, cache: seq<map<Symbol, Term>>, extra: seq<Term>, anew: seq<bool>, term: Term, k: nat, env: Env,
      th: Theory)
    requires WellTyped(v) && Layers(v, cache, extra, anew, th) && k < |cache| && NoNext(term, v.vars, v.inputs)
    requires Satisfies(env, extra, k, th)
    ensures Eval(Subst(term, cache[k]), env, th) ==
      Eval(term, EnvOf(RunState(v, env, th, k), RunInput(v, env, k), map[]), th)
  {
    LayerIsRun(v, cache, extra, anew, env, k, th);
    assert CacheAt(v, cache, anew[k], k);
    LayerEval(v, term, cache[k], env, RunState(v, env, th, k), RunInput(v, env, k), th);
  }

  /** Every assignment of the plain unrolling satisfies the extra constraints. */
  lemma {:induction false} PlainSatisfiesExtra(
      v: View, cache: seq<map<Symbol, Term>>, extra: seq<Term>, anew: seq<bool>, env: Env, t: nat, th: Theory)
    requires WellTyped(v) && Layers(v, cache, extra, anew, th) && t < |cache| && PlainConsistent(v, env, th, t)
    ensures Satisfies(env, extra, t, th)
  {
    hide Eval, CacheAt, Subst;
    assert ExtraAt(v, cache, extra[t], anew[t], t, v.vars, th);
    if t > 0 {
      PlainSatisfiesExtra(v, cache, extra, anew, env, t - 1, th);
      forall n | n in v.vars ensures Defined(v, cache, t, n, env, th) {
        PlainDefines(v, cache, extra, anew, env, t, th, n);
      }
    }
  }

  lemma {:induction false} PlainDefines(
      v: View, cache: seq<map<Symbol, Term>>, extra: seq<Term>, anew: seq<bool>, env: Env, t: nat, th: Theory,
      n: Name)
    requires WellTyped(v) && Layers(v, cache, extra, anew, th) && 0 < t < |cache| && PlainConsistent(v, env, th, t)
    requires Satisfies(env, extra, t - 1, th)
    ensures Defined(v, cache, t, n, env, th)
  {
    hide Eval, Layers, Satisfies, Subst;
    assert UpdatesAt(v, env, th, t - 1);
    PlainRun(v, env, th, t - 1);
    if n in v.updates {
      FunctionalMeansRun(v, cache, extra, anew, v.updates[n], t - 1, env, th);
    }
  }

  lemma {:induction false} PlainMeansState(v: View, term: Term, k: nat, env: Env, th: Theory, m: map<Symbol, Term>)
    requires NoNext(term, v.vars, v.inputs) && IsPlain(m, v.vars, v.inputs, k)
    ensures Eval(PlainTerm(term, k), env, th) ==
      Eval(term, EnvOf(PlainState(v, env, k), RunInput(v, env, k), map[]), th)
  {
    NoNextScoped(term, v.vars, v.inputs);
    SubstIsPlain(term, m, v.vars, v.inputs, k);
    forall n | n in v.vars ensures Eval(m[Cur(n)], env, th) == Lookup(PlainState(v, env, k), n) {
      assert InScope(Cur(n), v.vars, v.inputs);
    }
    forall n | n in v.inputs ensures Eval(m[Inp(n)], env, th) == Lookup(RunInput(v, env, k), n) {
      assert InScope(Inp(n), v.vars, v.inputs);
    }
    LayerEval(v, term, m, env, PlainState(v, env, k), RunInput(v, env, k), th);
  }

  lemma {:induction false} NoNextScoped(t: Term, vars: seq<Name>, inputs: seq<Name>)
    requires NoNext(t, vars, inputs)
    ensures Scoped(t, vars, inputs)
    decreases t
  {
    if t.App? {
      forall i | 0 <= i < |t.args| ensures Scoped(t.args[i], vars, inputs) {
        NoNextScoped(t.args[i], vars, inputs);
      }
    }
  }

  /** On assignments of the plain unrolling both unrollers produce terms of the same value. */
  lemma {:induction false} FunctionalRefinesPlain(
      v: View, cache: seq<map<Symbol, Term>>, extra: seq<Term>, anew: seq<bool>, term: Term, k: nat,
      env: Env, th: Theory, m: map<Symbol, Term>)
    requires WellTyped(v) && Layers(v, cache, extra, anew, th) && k < |cache| && NoNext(term, v.vars, v.inputs)
    requires PlainConsistent(v, env, th, k) && IsPlain(m, v.vars, v.inputs, k)
    ensures Satisfies(env, extra, k, th) && Eval(Subst(term, cache[k]), env, th) == Eval(PlainTerm(term, k), env, th)
  {
    PlainSatisfiesExtra(v, cache, extra, anew, env, k, th);
    FunctionalMeansRun(v, cache, extra, anew, term, k, env, th);
    PlainRun(v, env, th, k);
    PlainMeansState(v, term, k, env, th, m);
  }

  /** The plain assignment that spells out the run of another one. */
  function SpellOut(v: View, env: Env, th: Theory): Env {
    (x: Symbol) => if x.Timed? && x.s.Cur? && x.s.n in v.vars then RunState(v, env, th, x.k)[x.s.n] else env(x)
  }

  /** Nothing is lost the other way: each satisfying assignment corresponds to a plain one with the same values. */
  lemma {:induction false} PlainCoversFunctional(
      v: View, cache: seq<map<Symbol, Term>>, extra: seq<Term>, anew: seq<bool>, term: Term, k: nat,
      env: Env, th: Theory, m: map<Symbol, Term>)
    requires WellTyped(v) && Layers(v, cache, extra, anew, th) && k < |cache| && NoNext(term, v.vars, v.inputs)
    requires Satisfies(env, extra, k, th) && IsPlain(m, v.vars, v.inputs, k)
    ensures PlainConsistent(v, SpellOut(v, env, th), th, k)
    ensures Eval(Subst(term, cache[k]), env, th) == Eval(PlainTerm(term, k), SpellOut(v, env, th), th)
  {
    var env' := SpellOut(v, env, th);
    forall j: nat
      ensures PlainState(v, env', j) == RunState(v, env, th, j) && RunInput(v, env', j) == RunInput(v, env, j)
    {
    }
    forall j: nat | j < k ensures UpdatesAt(v, env', th, j) {
      assert PlainState(v, env', j) == RunState(v, env, th, j);
    }
    FunctionalMeansRun(v, cache, extra, anew, term, k, env, th);
    PlainMeansState(v, term, k, env', th, m);
    assert PlainState(v, env', k) == RunState(v, env, th, k);
  }

  // ----- variables added after a layer was built -----

  ghost predicate AllTimed(t: Term) {
    forall x :: Occurs(x, t) ==> x.Timed?
  }

  /** Every symbol is one that the layers know, or timed already. */
  ghost predicate KnownSymbols(v: View, t: Term) {
    forall x :: Occurs(x, t) ==> x.Timed? || Covered(v, x)
  }

  /** What occurs after substitution comes from a symbol of the term. */
  lemma {:induction false} OccursInSubst(t: Term, m: map<Symbol, Term>, x: Symbol) returns (y: Symbol)
    requires Occurs(x, Subst(t, m))
    ensures Occurs(y, t) && if y in m then Occurs(x, m[y]) else x == y
    decreases t
  {
    match t
    case Const(_) => assert false; y := x;
    case Sym(z) => y := z;
    case App(op, args) =>
      var subs := seq(|args|, i requires 0 <= i < |args| => Subst(args[i], m));
      assert Subst(t, m) == App(op, subs);
      var i :| 0 <= i < |subs| && Occurs(x, subs[i]);
      y := OccursInSubst(args[i], m, x);
  }

  lemma {:induction false} UnknownStays(t: Term, m: map<Symbol, Term>, x: Symbol)
    requires Occurs(x, t) && x !in m
    ensures Occurs(x, Subst(t, m))
    decreases t
  {
    if t.App? {
      var subs := seq(|t.args|, i requires 0 <= i < |t.args| => Subst(t.args[i], m));
      assert Subst(t, m) == App(t.op, subs);
      var i :| 0 <= i < |t.args| && Occurs(x, t.args[i]);
      UnknownStays(t.args[i], m, x);
      assert Occurs(x, subs[i]);
    }
  }

  /** The entries of every layer have timed symbols only. */
  lemma {:induction false} LayersAreTimed(
      v: View, cache: seq<map<Symbol, Term>>, extra: seq<Term>, anew: seq<bool>, k: nat, y: Symbol, th: Theory)
    requires WellTyped(v) && Layers(v, cache, extra, anew, th) && k < |cache| && y in cache[k]
    ensures AllTimed(cache[k][y])
  {
    hide ExtraAt;
    assert CacheAt(v, cache, anew[k], k);
    if k > 0 && y.Cur? && !anew[k] && y.n in v.updates {
      forall x | Occurs(x, cache[k][y]) ensures x.Timed? {
        var z := OccursInSubst(v.updates[y.n], cache[k - 1], x);
        NoNextOccurs(v.updates[y.n], v.vars, v.inputs, z);
        assert CacheAt(v, cache, anew[k - 1], k - 1);
        LayersAreTimed(v, cache, extra, anew, k - 1, z, th);
      }
    }
  }

  /**
    Layers are not rebuilt when variables are added: a term is unrolled to timed symbols exactly
    when all its symbols belonged to the system for which the layers were built.
   */
  lemma {:induction false} TimedIffKnown(
      v: View, cache: seq<map<Symbol, Term>>, extra: seq<Term>, anew: seq<bool>, term: Term, k: nat, th: Theory)
    requires WellTyped(v) && Layers(v, cache, extra, anew, th) && k < |cache|
    ensures AllTimed(Subst(term, cache[k])) <==> KnownSymbols(v, term)
  {
    hide Subst, Occurs, ExtraAt;
    assert CacheAt(v, cache, anew[k], k);
    if KnownSymbols(v, term) {
      forall x | Occurs(x, Subst(term, cache[k])) ensures x.Timed? {
        var y := OccursInSubst(term, cache[k], x);
        if y in cache[k] {
          LayersAreTimed(v, cache, extra, anew, k, y, th);
        }
      }
    }
    if AllTimed(Subst(term, cache[k])) {
      forall x | Occurs(x, term) ensures x.Timed? || Covered(v, x) {
        if x !in cache[k] {
          UnknownStays(term, cache[k], x);
        }
      }
    }
  }

  /** A variable that was added later is left as it is in every layer built before. */
  lemma {:induction false} LateVariableStays(
      v: View, cache: seq<map<Symbol, Term>>, extra: seq<Term>, anew: seq<bool>, n: Name, k: nat, th: Theory)
    requires Layers(v, cache, extra, anew, th) && k < |cache| && n !in v.vars
    ensures Subst(Sym(Cur(n)), cache[k]) == Sym(Cur(n))
  {
    hide ExtraAt;
    assert CacheAt(v, cache, anew[k], k);
    assert Cur(n) !in cache[k];
  }

  /** Whether the step to time `t`, made for a request of time `k`, introduces fresh symbols. */
  predicate CreatesNew(interval: nat, k: nat, t: nat) {
    (interval > 0 && k % interval == 0) || t == 0
  }

  /** The layers after a request of time `k`: which of them have fresh symbols. */
  function Flags(interval: nat, flags: seq<bool>, k: nat): (r: seq<bool>)
    ensures |r| == if k < |flags| then |flags| else k + 1
    ensures forall t :: 0 <= t < |r| ==> r[t] == if t < |flags| then flags[t] else CreatesNew(interval, k, t)
    decreases k + 1 - |flags|
  {
    if k < |flags| then flags else Flags(interval, flags + [CreatesNew(interval, k, |flags|)], k)
  }

  function FlagsAfter(interval: nat, requests: seq<nat>): seq<bool> {
    if requests == [] then [] else
      var m := |requests| - 1;
      Flags(interval, FlagsAfter(interval, requests[..m]), requests[m])
  }

  predicate DueAt(interval: nat, t: nat) {
    t == 0 || (interval > 0 && t % interval == 0)
  }

  /** As documented: fresh symbols exactly at the multiples of the interval, and at 0. */
  ghost predicate OnSchedule(interval: nat, flags: seq<bool>) {
    forall t :: 0 <= t < |flags| ==> (flags[t] <==> DueAt(interval, t))
  }

  /**
    What a caller can check before a request: it adds one layer at most (the one at 0 aside), the
    interval makes no difference, or no multiple of it lies between the last layer and the requested one.
   */
  predicate NoMultipleSkipped(interval: nat, have: nat, k: nat) {
    var last := if have == 0 then 0 else have - 1;
    interval <= 1 || k <= last + 1 || k / interval == last / interval
  }

  /** A multiple of `n` in `(last, k]`, if the quotients differ. */
  lemma {:induction false} MultipleBetween(n: nat, last: nat, k: nat)
    requires n > 0 && last < k && k / n != last / n
    ensures last < (k / n) * n <= k && ((k / n) * n) % n == 0
  {
    QuotientGrows(n, last, k);
    var q := k / n;
    assert k == q * n + k % n;
    assert last == (last / n) * n + last % n;
    assert (last / n + 1) * n <= q * n by {
      if last / n + 1 < q {
        MulGrows(last / n + 1, q, n);
      }
    }
    ModOfMultiple(q, n);
  }

  lemma {:induction false} QuotientGrows(n: nat, a: nat, b: nat)
    requires n > 0 && a <= b
    ensures a / n <= b / n
  {
    assert a == (a / n) * n + a % n && b == (b / n) * n + b % n;
    if a / n > b / n {
      MulGrows(b / n + 1, a / n, n);
    }
  }

  lemma {:induction false} MulGrows(a: int, b: int, n: nat)
    requires a <= b
    ensures a * n <= b * n
  {
  }

  lemma {:induction false} SmallMultiple(d: int, n: int)
    requires 0 < n && -n < d * n < n
    ensures d == 0
  {
    if d > 0 {
      MulGrows(1, d, n);
    } else if d < 0 {
      MulGrows(d, -1, n);
    }
  }

  lemma {:induction false} ModOfMultiple(q: nat, n: nat)
    requires n > 0
    ensures (q * n) % n == 0
  {
    var m: int := q * n;
    var c: int, rest: int := m / n, m % n;
    assert m == c * n + rest;
    assert (q - c) * n == rest;
    SmallMultiple(q - c, n);
  }

  /** No multiple in between when the quotients agree. */
  lemma {:induction false} NoMultipleBetween(n: nat, last: nat, k: nat, t: nat)
    requires n > 0 && last < t <= k && k / n == last / n
    ensures t % n != 0
  {
    QuotientGrows(n, last, t);
    QuotientGrows(n, t, k);
    assert last == (last / n) * n + last % n && t == (t / n) * n + t % n;
  }

  /** A request keeps the documented schedule exactly when it skips no multiple of the interval. */
  lemma {:induction false} ScheduleKeptIff(interval: nat, flags: seq<bool>, k: nat)
    requires OnSchedule(interval, flags)
    ensures OnSchedule(interval, Flags(interval, flags, k)) <==> NoMultipleSkipped(interval, |flags|, k)
  {
    var after := Flags(interval, flags, k);
    var last := if |flags| == 0 then 0 else |flags| - 1;
    if NoMultipleSkipped(interval, |flags|, k) {
      forall t | 0 <= t < |after| ensures after[t] <==> DueAt(interval, t) {
        if t >= |flags| && t > 0 {
          SkippedNothing(interval, last, k, t);
        }
      }
    } else {
      MissesMultiple(interval, flags, k, last);
    }
  }

  lemma {:induction false} SkippedNothing(interval: nat, last: nat, k: nat, t: nat)
    requires last < t <= k && (interval <= 1 || k <= last + 1 || k / interval == last / interval)
    ensures CreatesNew(interval, k, t) <==> DueAt(interval, t)
  {
    if interval == 1 {
      assert k % 1 == 0 && t % 1 == 0;
    } else if interval > 1 && t != k {
      NoMultipleBetween(interval, last, k, t);
      NoMultipleBetween(interval, last, k, k);
    }
  }

  /** Either the multiple below the requested time is missed, or the time before it gets fresh symbols as well. */
  lemma {:induction false} MissesMultiple(interval: nat, flags: seq<bool>, k: nat, last: nat)
    requires interval > 1 && k > last + 1 && k / interval != last / interval
    requires last == if |flags| == 0 then 0 else |flags| - 1
    ensures !OnSchedule(interval, Flags(interval, flags, k))
  {
    var after := Flags(interval, flags, k);
    MultipleBetween(interval, last, k);
    var t := (k / interval) * interval;
    if k % interval == 0 {
      assert after[k - 1] && (k - 1) % interval != 0 by {
        BeforeMultiple(interval, k);
      }
    } else {
      assert !after[t] && DueAt(interval, t);
    }
  }

  lemma {:induction false} BeforeMultiple(n: nat, k: nat)
    requires n > 1 && k > 0 && k % n == 0
    ensures (k - 1) % n != 0
  {
    var a, b, rest := (k - 1) / n, k / n, (k - 1) % n;
    assert k - 1 == a * n + rest && k == b * n;
    if rest == 0 {
      assert (b - a) * n == 1;
      SmallMultiple(b - a, n);
    }
  }

  ghost predicate EachKeeps(interval: nat, requests: seq<nat>) {
    forall j :: 0 <= j < |requests| ==> NoMultipleSkipped(interval, |FlagsAfter(interval, requests[..j])|, requests[j])
  }

  lemma {:induction false} EachKeepsLast(interval: nat, requests: seq<nat>)
    requires requests != []
    ensures var m := |requests| - 1;
      EachKeeps(interval, requests) <==>
        EachKeeps(interval, requests[..m]) &&
          NoMultipleSkipped(interval, |FlagsAfter(interval, requests[..m])|, requests[m])
  {
    hide NoMultipleSkipped, FlagsAfter;
    var m := |requests| - 1;
    forall j | 0 <= j < m ensures requests[..m][..j] == requests[..j] {
    }
  }

  lemma {:induction false} OffScheduleStays(interval: nat, flags: seq<bool>, k: nat)
    requires OnSchedule(interval, Flags(interval, flags, k))
    ensures OnSchedule(interval, flags)
  {
    hide DueAt, CreatesNew;
    var after := Flags(interval, flags, k);
    forall t | 0 <= t < |flags| ensures flags[t] <==> DueAt(interval, t) {
      assert after[t] == flags[t];
    }
  }

  /** Over a whole history of requests the documented schedule holds exactly when no request skips a multiple. */
  lemma {:induction false} ScheduleIff(interval: nat, requests: seq<nat>)
    ensures OnSchedule(interval, FlagsAfter(interval, requests)) <==> EachKeeps(interval, requests)
  {
    hide OnSchedule, NoMultipleSkipped, EachKeeps, Flags;
    if requests == [] {
      NothingScheduled(interval);
    } else {
      var m := |requests| - 1;
      var before := FlagsAfter(interval, requests[..m]);
      ScheduleIff(interval, requests[..m]);
      EachKeepsLast(interval, requests);
      if OnSchedule(interval, before) {
        ScheduleKeptIff(interval, before, requests[m]);
      } else if OnSchedule(interval, Flags(interval, before, requests[m])) {
        OffScheduleStays(interval, before, requests[m]);
      }
    }
  }

  lemma {:induction false} NothingScheduled(interval: nat)
    ensures OnSchedule(interval, []) && EachKeeps(interval, [])
  {
  }

  function Times(n: nat): (r: seq<nat>)
    ensures |r| == n && forall j :: 0 <= j < n ==> r[j] == j
  {
    seq(n, j requires 0 <= j < n => j)
  }

  /** Unrolling one time after the other, as the engines do, is always on schedule. */
  lemma {:induction false} OneByOne(interval: nat, n: nat)
    ensures |FlagsAfter(interval, Times(n))| == n && OnSchedule(interval, FlagsAfter(interval, Times(n)))
  {
    if n > 0 {
      OneByOne(interval, n - 1);
      assert Times(n)[..n - 1] == Times(n - 1);
      ScheduleKeptIff(interval, FlagsAfter(interval, Times(n - 1)), n - 1);
    }
  }

  /**
    With interval 4, asking for time 5 first leaves time 4 without fresh symbols, and asking for 4 first
    gives them to 1 to 3 too.
   */
  lemma {:induction false} ScheduleMissed()
    ensures FlagsAfter(4, [5]) == [true, false, false, false, false, false]
    ensures FlagsAfter(4, [4]) == [true, true, true, true, true]
    ensures OnSchedule(4, FlagsAfter(4, [0, 1, 2, 3, 4, 5])) && FlagsAfter(4, [0, 1, 2, 3, 4, 5])[4]
  {
    assert [5][..0] == [] && [4][..0] == [];
    assert FlagsAfter(4, [5][..0]) == [];
    assert FlagsAfter(4, [4][..0]) == [];
    OneByOne(4, 6);
    assert Times(6) == [0, 1, 2, 3, 4, 5];
    assert |FlagsAfter(4, Times(6))| == 6;
  }

  /** The constraint built so far: the first `m` variables are defined. */
  ghost predicate PartialExtra(v: View, cache: seq<map<Symbol, Term>>, extra: Term, anew: bool, m: nat, th: Theory)
    requires m <= |v.vars|
  {
    ExtraAt(v, cache, extra, anew, |cache|, v.vars[..m], th)
  }

  ghost predicate PartialLayer(v: View, cache: seq<map<Symbol, Term>>, subst: map<Symbol, Term>, anew: bool, m: nat)
    requires m <= |v.vars|
  {
    forall n :: n in v.vars[..m] ==> Cur(n) in subst && subst[Cur(n)] == EntryAt(v, cache, anew, |cache|, n)
  }

  ghost predicate InputsTimed(subst: map<Symbol, Term>, inputs: seq<Name>, t: nat) {
    forall n :: n in inputs ==> Inp(n) in subst && subst[Inp(n)] == Sym(Timed(Inp(n), t))
  }

  lemma {:induction false} ExtraWith(v: View, cache: seq<map<Symbol, Term>>, extra: Term, m: nat, th: Theory)
    requires m < |v.vars| && |cache| > 0 && v.vars[m] in v.updates && PartialExtra(v, cache, extra, true, m, th)
    ensures var eq := MkEqual(Sym(Timed(Cur(v.vars[m]), |cache|)), Subst(v.updates[v.vars[m]], cache[|cache| - 1]));
      PartialExtra(v, cache, MkAnd(extra, eq), true, m + 1, th)
  {
    hide Subst;
    var n, t := v.vars[m], |cache|;
    var eq := MkEqual(Sym(Timed(Cur(n), t)), Subst(v.updates[n], cache[t - 1]));
    forall env: Env
      ensures Holds(MkAnd(extra, eq), env, th) <==>
        forall x :: x in v.vars[..m + 1] ==> Defined(v, cache, t, x, env, th)
    {
      EvalAnd(extra, eq, env, th);
      EvalEqual(Sym(Timed(Cur(n), t)), Subst(v.updates[n], cache[t - 1]), env, th);
      assert Holds(eq, env, th) <==> Defined(v, cache, t, n, env, th);
      assert forall x :: x in v.vars[..m + 1] <==> x in v.vars[..m] || x == n;
    }
  }

  lemma {:induction false} ExtraSkips(
      v: View, cache: seq<map<Symbol, Term>>, extra: Term, anew: bool, m: nat, th: Theory)
    requires m < |v.vars| && PartialExtra(v, cache, extra, anew, m, th)
    requires v.vars[m] !in v.updates || !anew || |cache| == 0
    ensures PartialExtra(v, cache, extra, anew, m + 1, th)
  {
    var n := v.vars[m];
    assert forall x :: x in v.vars[..m + 1] <==> x in v.vars[..m] || x == n;
  }

  class FunctionalUnroller {
    const ts: TransitionSystem
    const interval: nat

    var timeCache: seq<map<Symbol, Term>>
    var extraConstraints: seq<Term>
    ghost var anew: seq<bool>

    ghost predicate Valid()
      reads this, ts
    {
      ts.Valid() && Layers(ts.View(), timeCache, extraConstraints, anew, ts.th)
    }

    constructor (ts: TransitionSystem, interval: nat)
      requires ts.Valid()
      ensures this.ts == ts && this.interval == interval && Valid() && timeCache == [] && anew == []
    {
      this.ts, this.interval := ts, interval;
      timeCache, extraConstraints, anew := [], [], [];
    }

    /** One variable of a new layer: its entry, and the constraint extended by its definition if it is fresh. */
    method AddVariable(v: Name, createNew: bool, extra: Term, ghost m: nat) returns (entry: Term, extra': Term)
      requires Valid() && m < |ts.statevars| && ts.statevars[m] == v && (|timeCache| == 0 ==> createNew)
      requires PartialExtra(ts.View(), timeCache, extra, createNew, m, ts.th)
      ensures entry == EntryAt(ts.View(), timeCache, createNew, |timeCache|, v)
      ensures PartialExtra(ts.View(), timeCache, extra', createNew, m + 1, ts.th)
    {
      hide PartialExtra, Layers, Shaped;
      var t := |timeCache|;
      var noUpdate := v !in ts.updates;
      entry, extra' := Sym(Timed(Cur(v), t)), extra;
      if t == 0 || noUpdate {
        ExtraSkips(ts.View(), timeCache, extra, createNew, m, ts.th);
        return;
      }
      var funSubst := Subst(ts.updates[v], timeCache[t - 1]);
      if createNew {
        extra' := MkAnd(extra, MkEqual(entry, funSubst));
        ExtraWith(ts.View(), timeCache, extra, m, ts.th);
      } else {
        entry := funSubst;
        ExtraSkips(ts.View(), timeCache, extra, createNew, m, ts.th);
      }
    }

    /** A new layer with its extra constraint. */
    method NewLayer(createNew: bool) returns (subst: map<Symbol, Term>, extra: Term)
      requires Valid() && (|timeCache| == 0 ==> createNew)
      ensures CacheAt(ts.View(), timeCache + [subst], createNew, |timeCache|)
      ensures ExtraAt(ts.View(), timeCache + [subst], extra, createNew, |timeCache|, ts.statevars, ts.th)
    {
      hide Shaped, EntryAt, Layers;
      subst, extra := map[], TrueTerm;
      ghost var v := ts.View();
      for m := 0 to |ts.statevars|
        invariant PartialExtra(v, timeCache, extra, createNew, m, ts.th)
        invariant PartialLayer(v, timeCache, subst, createNew, m) && OnlyCovered(v, subst)
      {
        var sv := ts.statevars[m];
        var entry;
        entry, extra := AddVariable(sv, createNew, extra, m);
        subst := subst[Cur(sv) := entry];
        assert forall n :: n in ts.statevars[..m + 1] <==> n in ts.statevars[..m] || n == sv;
      }
      assert ts.statevars[..|ts.statevars|] == ts.statevars;
      for m := 0 to |ts.inputvars|
        invariant PartialLayer(v, timeCache, subst, createNew, |ts.statevars|) && OnlyCovered(v, subst)
        invariant InputsTimed(subst, ts.inputvars[..m], |timeCache|)
      {
        var iv := ts.inputvars[m];
        subst := subst[Inp(iv) := Sym(Timed(Inp(iv), |timeCache|))];
      }
      assert ts.inputvars[..|ts.inputvars|] == ts.inputvars;
      LayerComplete(v, timeCache, subst, extra, createNew, ts.th);
    }

    /** Fresh symbols are decided by the requested time; `Flags` gives the pattern this leaves. */
    method VarCacheAtTime(k: nat) returns (cache: map<Symbol, Term>)
      requires Valid()
      modifies this
      ensures Valid() && k < |timeCache| && cache == timeCache[k]
      ensures old(timeCache) <= timeCache && old(extraConstraints) <= extraConstraints
      ensures anew == Flags(interval, old(anew), k)
      ensures OnSchedule(interval, old(anew)) ==>
        (OnSchedule(interval, anew) <==> NoMultipleSkipped(interval, |old(timeCache)|, k))
    {
      hide Layers, CreatesNew, OnSchedule, NoMultipleSkipped;
      LayersSameLength(ts.View(), timeCache, extraConstraints, anew, ts.th);
      if OnSchedule(interval, anew) {
        ScheduleKeptIff(interval, anew, k);
      }
      while |timeCache| <= k
        invariant Valid() && |timeCache| == |extraConstraints| == |anew|
        invariant old(timeCache) <= timeCache && old(extraConstraints) <= extraConstraints
        invariant Flags(interval, anew, k) == Flags(interval, old(anew), k)
        decreases k + 1 - |timeCache|
      {
        var createNew := CreatesNew(interval, k, |timeCache|);
        NewAtZero(interval, k);
        var subst, extra := NewLayer(createNew);
        LayersExtended(ts.View(), timeCache, extraConstraints, anew, subst, extra, createNew, ts.th);
        timeCache := timeCache + [subst];
        extraConstraints := extraConstraints + [extra];
        anew := anew + [createNew];
      }
      cache := timeCache[k];
    }

    /** The term at time `k`, whatever was requested before; next-state variables are refused. */
    method AtTime(t: Term, k: nat) returns (r: Option<Term>)
      requires Valid()
      modifies this
      ensures Valid() && r.Some? == NoNext(t, ts.statevars, ts.inputvars)
      ensures r.Some? ==> k < |timeCache| && r.value == Subst(t, timeCache[k])
      ensures r.Some? ==> forall env: Env :: Satisfies(env, extraConstraints, k, ts.th) ==>
        Eval(r.value, env, ts.th) ==
          Eval(t, EnvOf(RunState(ts.View(), env, ts.th, k), RunInput(ts.View(), env, k), map[]), ts.th)
    {
      hide Layers, CreatesNew, Shaped, Eval;
      if !NoNext(t, ts.statevars, ts.inputvars) {
        return None;
      }
      var cache := VarCacheAtTime(k);
      ShapedIsWellTyped(ts.View(), ts.th);
      LayersSameLength(ts.View(), timeCache, extraConstraints, anew, ts.th);
      forall env: Env | Satisfies(env, extraConstraints, k, ts.th)
        ensures Eval(Subst(t, cache), env, ts.th) ==
          Eval(t, EnvOf(RunState(ts.View(), env, ts.th, k), RunInput(ts.View(), env, k), map[]), ts.th)
      {
        FunctionalMeansRun(ts.View(), timeCache, extraConstraints, anew, t, k, env, ts.th);
      }
      if t.Sym? && t.x in cache {
        return Some(cache[t.x]);
      }
      r := Some(Subst(t, cache));
    }
  }

  lemma {:induction false} ShapedIsWellTyped(v: View, th: Theory)
    requires Shaped(v, th)
    ensures WellTyped(v)
  {
  }

  lemma {:induction false} LayersSameLength(
      v: View, cache: seq<map<Symbol, Term>>, extra: seq<Term>, anew: seq<bool>, th: Theory)
    requires Layers(v, cache, extra, anew, th)
    ensures |cache| == |extra| == |anew|
  {
  }

  lemma {:induction false} NewAtZero(interval: nat, k: nat)
    ensures CreatesNew(interval, k, 0)
  {
  }

  lemma {:induction false} LayerComplete(
      v: View, cache: seq<map<Symbol, Term>>, subst: map<Symbol, Term>, extra: Term, anew: bool, th: Theory)
    requires PartialLayer(v, cache, subst, anew, |v.vars|) && PartialExtra(v, cache, extra, anew, |v.vars|, th)
    requires OnlyCovered(v, subst)
    requires InputsTimed(subst, v.inputs, |cache|)
    ensures CacheAt(v, cache + [subst], anew, |cache|) && ExtraAt(v, cache + [subst], extra, anew, |cache|, v.vars, th)
  {
    hide Eval, Holds;
    var all := cache + [subst];
    assert v.vars[..|v.vars|] == v.vars;
    forall n ensures EntryAt(v, all, anew, |cache|, n) == EntryAt(v, cache, anew, |cache|, n) {
    }
    forall n, env: Env | |cache| > 0
      ensures Defined(v, all, |cache|, n, env, th) == Defined(v, cache, |cache|, n, env, th)
    {
    }
  }

  lemma {:induction false} LayersExtended(
      v: View, cache: seq<map<Symbol, Term>>, extra: seq<Term>, anew: seq<bool>, subst: map<Symbol, Term>, e: Term,
      a: bool, th: Theory)
    requires Layers(v, cache, extra, anew, th)
    requires CacheAt(v, cache + [subst], a, |cache|) && ExtraAt(v, cache + [subst], e, a, |cache|, v.vars, th)
    ensures Layers(v, cache + [subst], extra + [e], anew + [a], th)
  {
    hide Eval, Holds;
    var all := cache + [subst];
    forall t: nat | t < |cache|
      ensures CacheAt(v, all, anew[t], t) && ExtraAt(v, all, extra[t], anew[t], t, v.vars, th)
    {
      LayerUnchanged(v, cache, extra[t], anew[t], subst, t, th);
    }
  }

  lemma {:induction false} LayerUnchanged(
      v: View, cache: seq<map<Symbol, Term>>, extra: Term, anew: bool, subst: map<Symbol, Term>, t: nat, th: Theory)
    requires t < |cache| && CacheAt(v, cache, anew, t) && ExtraAt(v, cache, extra, anew, t, v.vars, th)
    ensures CacheAt(v, cache + [subst], anew, t) && ExtraAt(v, cache + [subst], extra, anew, t, v.vars, th)
  {
    hide Eval, Holds, Subst;
    var all := cache + [subst];
    forall n ensures EntryAt(v, all, anew, t, n) == EntryAt(v, cache, anew, t, n) {
    }
    forall n, env: Env | t > 0 ensures Defined(v, all, t, n, env, th) == Defined(v, cache, t, n, env, th) {
    }
  }
}
