/**
  Justification of a value: a worklist over subterms, controlling arguments and
  updates that collects the symbols a term's value in a model depends on.
 */
module Justification {
  import opened Runs
  import opened Terms
  import opened TransitionSystems

  /** And, Or and Implies can be decided by one argument. */
  predicate IsControlled(op: Op, val: Value) {
    match op
    case And => !IsTrue(val)
    case Or => IsTrue(val)
    case Implies => IsTrue(val)
    case _ => false
  }

  function SmartNot(t: Term): Term {
    if t.App? && t.op == Not && |t.args| == 1 then t.args[0] else MkNot(t)
  }

  lemma {:induction false} SmartNotNegates(t: Term, env: Env, th: Theory)
    ensures Holds(SmartNot(t), env, th) <==> !Holds(t, env, th)
  {
    if t.App? && t.op == Not && |t.args| == 1 {
      assert t.args == [t.args[0]];
      EvalNot(t.args[0], env, th);
    } else {
      EvalNot(t, env, th);
    }
  }

  /** The arguments one of which controls the value; an implication is read as a disjunction. */
  function Candidates(t: Term): seq<Term>
    requires t.App?
  {
    if t.op == Implies && |t.args| == 2 then [SmartNot(t.args[0]), t.args[1]] else t.args
  }

  /** A controlling argument is false for And and true otherwise. */
  ghost predicate Controls(c: Term, t: Term, env: Env, th: Theory)
    requires t.App?
  {
    c in Candidates(t) && (Holds(c, env, th) <==> t.op != And)
  }

  ghost function ArgValues(args: seq<Term>, env: Env, th: Theory): (r: seq<Value>)
    ensures |r| == |args| && forall i :: 0 <= i < |args| ==> r[i] == Eval(args[i], env, th)
  {
    seq(|args|, i requires 0 <= i < |args| => Eval(args[i], env, th))
  }

  lemma {:induction false} EvalApp(op: Op, args: seq<Term>, env: Env, th: Theory)
    ensures Eval(App(op, args), env, th) == ApplyOp(op, ArgValues(args, env, th), th)
  {
    assert ArgValues(args, env, th) == seq(|args|, i requires 0 <= i < |args| => Eval(args[i], env, th));
  }

  /** A controlled term has a controlling argument. */
  lemma {:induction false} ControllingExists(t: Term, env: Env, th: Theory)
    requires t.App? && IsControlled(t.op, Eval(t, env, th))
    ensures exists j :: 0 <= j < |Candidates(t)| && (Holds(Candidates(t)[j], env, th) <==> t.op != And)
  {
    EvalApp(t.op, t.args, env, th);
    var vs := ArgValues(t.args, env, th);
    match t.op
    case And =>
      var i :| 0 <= i < |vs| && !IsTrue(vs[i]);
      assert !Holds(Candidates(t)[i], env, th);
    case Or =>
      var i :| 0 <= i < |vs| && IsTrue(vs[i]);
      assert Holds(Candidates(t)[i], env, th);
    case Implies =>
      SmartNotNegates(t.args[0], env, th);
      assert Holds(Candidates(t)[if IsTrue(vs[0]) then 1 else 0], env, th);
  }

  /** A controlling argument decides the value in any assignment. */
  lemma {:induction false} ControllingDecides(c: Term, t: Term, env: Env, env': Env, th: Theory)
    requires t.App? && IsControlled(t.op, Eval(t, env, th)) && Controls(c, t, env, th)
    requires Eval(c, env, th) == Eval(c, env', th)
    ensures Eval(t, env', th) == Eval(t, env, th)
  {
    EvalApp(t.op, t.args, env, th);
    EvalApp(t.op, t.args, env', th);
    var vs, vs' := ArgValues(t.args, env, th), ArgValues(t.args, env', th);
    if t.op == Implies {
      SmartNotNegates(t.args[0], env', th);
    } else {
      var j :| 0 <= j < |t.args| && t.args[j] == c;
      assert vs'[j] == vs[j];
    }
  }

  // ----- what a finished traversal guarantees -----

  function Children(t: Term): seq<Term> {
    if t.App? then t.args else []
  }

  predicate IsIte(t: Term) {
    t.App? && t.op == Ite && |t.args| == 3
  }

  ghost predicate InBoth(t: Term, a: set<Term>, b: seq<Term>) {
    t in a || t in b
  }

  /** A visited term has what its value depends on among the terms visited or still to visit. */
  ghost predicate Covered(
      t: Term, v: View, env: Env, th: Theory, visited: set<Term>, todo: seq<Term>, proj: set<Symbol>)
  {
    if IsIte(t) then
      InBoth(t.args[0], visited, todo) && InBoth(t.args[if Holds(t.args[0], env, th) then 1 else 2], visited, todo)
    else if t.App? && IsControlled(t.op, Eval(t, env, th)) then
      exists c :: Controls(c, t, env, th) && InBoth(c, visited, todo)
    else
      && (forall c :: c in Children(t) ==> InBoth(c, visited, todo))
      && (t.Sym? && t.x.Next? && t.x.n in v.updates ==> InBoth(v.updates[t.x.n], visited, todo))
      && (forall x :: Occurs(x, t) ==> x in proj)
  }

  ghost predicate AllCovered(v: View, env: Env, th: Theory, visited: set<Term>, todo: seq<Term>, proj: set<Symbol>) {
    forall t :: t in visited ==> Covered(t, v, env, th, visited, todo, proj)
  }

  /** Next-state values follow the updates. */
  ghost predicate Obeys(v: View, env: Env, th: Theory) {
    forall n :: n in v.updates ==> env(Next(n)) == Eval(v.updates[n], env, th)
  }

  /** Agreement on the projected symbols, except next-state symbols that an update determines. */
  ghost predicate Agree(v: View, env: Env, env': Env, proj: set<Symbol>) {
    forall x :: x in proj && !(x.Next? && x.n in v.updates) ==> env(x) == env'(x)
  }

  /** The projection is a sufficient partial model for the value of the term. */
  ghost predicate Sufficient(t: Term, v: View, env: Env, th: Theory, proj: set<Symbol>) {
    forall env': Env :: Obeys(v, env', th) && Agree(v, env, env', proj) ==> Eval(t, env', th) == Eval(t, env, th)
  }

  function Size(t: Term): nat {
    match t
    case Const(_) => 1
    case Sym(_) => 1
    case App(_, args) => 1 + SizeAll(args)
  }

  function SizeAll(ts: seq<Term>): nat {
    if ts == [] then 0 else Size(ts[0]) + SizeAll(ts[1..])
  }

  lemma {:induction false} SizeOfArg(ts: seq<Term>, i: nat)
    requires i < |ts|
    ensures Size(ts[i]) <= SizeAll(ts)
  {
    if i > 0 {
      SizeOfArg(ts[1..], i - 1);
    }
  }

  predicate HasNext(t: Term) {
    match t
    case Const(_) => false
    case Sym(x) => x.Next?
    case App(_, args) => exists i :: 0 <= i < |args| && HasNext(args[i])
  }

  function Level(t: Term): nat {
    if HasNext(t) then 1 else 0
  }

  lemma {:induction false} NoNextLevel(t: Term, vars: seq<Name>, inputs: seq<Name>)
    requires NoNext(t, vars, inputs)
    ensures !HasNext(t)
    decreases t
  {
    if t.App? {
      forall i | 0 <= i < |t.args| ensures !HasNext(t.args[i]) {
        NoNextLevel(t.args[i], vars, inputs);
      }
    }
  }

  /** Dependencies are smaller: arguments and their negations in size, updates in level. */
  lemma {:induction false} ArgSmaller(t: Term, c: Term)
    requires t.App? && c in t.args
    ensures Level(c) <= Level(t) && Size(c) < Size(t)
  {
    var i :| 0 <= i < |t.args| && t.args[i] == c;
    SizeOfArg(t.args, i);
    assert HasNext(c) ==> HasNext(t);
  }

  lemma {:induction false} CandidateSmaller(t: Term, c: Term)
    requires t.App? && c in Candidates(t)
    ensures Level(c) <= Level(t) && Size(c) < Size(t)
  {
    if c in t.args {
      ArgSmaller(t, c);
    } else {
      var a := t.args[0];
      ArgSmaller(t, a);
      if a.App? && a.op == Not && |a.args| == 1 {
        ArgSmaller(a, c);
      } else {
        NegationSize(a);
        ImplicationSize(t);
      }
    }
  }

  lemma {:induction false} NegationSize(a: Term)
    ensures Size(MkNot(a)) == 1 + Size(a) && Level(MkNot(a)) == Level(a)
  {
    var args := MkNot(a).args;
    assert args[0] == a && args[1..] == [];
    assert SizeAll(args) == Size(args[0]) + SizeAll(args[1..]);
  }

  lemma {:induction false} ImplicationSize(t: Term)
    requires t.App? && |t.args| == 2
    ensures Size(t) == 1 + Size(t.args[0]) + Size(t.args[1]) && Size(t.args[1]) > 0
  {
    var rest := t.args[1..];
    assert rest[0] == t.args[1] && rest[1..] == [];
    assert SizeAll(rest) == Size(rest[0]) + SizeAll(rest[1..]);
  }

  /** Every visited term keeps its value under assignments that agree on the projection. */
  lemma {:induction false} CoveredKeepsValue(
      t: Term, v: View, env: Env, env': Env, th: Theory, visited: set<Term>, proj: set<Symbol>)
    requires t in visited && AllCovered(v, env, th, visited, [], proj)
    requires Obeys(v, env, th) && Obeys(v, env', th) && Agree(v, env, env', proj)
    requires forall n :: n in v.updates ==> NoNext(v.updates[n], v.vars, v.inputs)
    ensures Eval(t, env', th) == Eval(t, env, th)
    decreases Level(t), Size(t)
  {
    assert Covered(t, v, env, th, visited, [], proj);
    if IsIte(t) {
      var pick := t.args[if Holds(t.args[0], env, th) then 1 else 2];
      ArgSmaller(t, t.args[0]);
      ArgSmaller(t, pick);
      CoveredKeepsValue(t.args[0], v, env, env', th, visited, proj);
      CoveredKeepsValue(pick, v, env, env', th, visited, proj);
      assert t.args == [t.args[0], t.args[1], t.args[2]];
      EvalIte(t.args[0], t.args[1], t.args[2], env, th);
      EvalIte(t.args[0], t.args[1], t.args[2], env', th);
    } else if t.App? && IsControlled(t.op, Eval(t, env, th)) {
      var c :| Controls(c, t, env, th) && InBoth(c, visited, []);
      CandidateSmaller(t, c);
      CoveredKeepsValue(c, v, env, env', th, visited, proj);
      ControllingDecides(c, t, env, env', th);
    } else if t.App? {
      forall i | 0 <= i < |t.args| ensures Eval(t.args[i], env', th) == Eval(t.args[i], env, th) {
        assert InBoth(t.args[i], visited, []);
        ArgSmaller(t, t.args[i]);
        CoveredKeepsValue(t.args[i], v, env, env', th, visited, proj);
      }
      EvalApp(t.op, t.args, env, th);
      EvalApp(t.op, t.args, env', th);
      assert ArgValues(t.args, env, th) == ArgValues(t.args, env', th);
    } else if t.Sym? {
      assert Occurs(t.x, t);
      if t.x.Next? && t.x.n in v.updates {
        var u := v.updates[t.x.n];
        assert InBoth(u, visited, []);
        NoNextLevel(u, v.vars, v.inputs);
        CoveredKeepsValue(u, v, env, env', th, visited, proj);
      }
    }
  }

  // ----- what a value depends on -----

  /** The first argument with the wanted truth value. */
  function FirstOf(args: seq<Term>, want: bool, env: Env, th: Theory): Term {
    if args == [] then TrueTerm
    else if IsTrue(Eval(args[0], env, th)) == want then args[0]
    else FirstOf(args[1..], want, env, th)
  }

  /** The argument that decides a controlled term. */
  function Pick(t: Term, env: Env, th: Theory): Term
    requires t.App?
  {
    FirstOf(Candidates(t), t.op != And, env, th)
  }

  lemma {:induction false} FirstOfDecides(args: seq<Term>, want: bool, env: Env, th: Theory, j: nat)
    requires j < |args| && (Holds(args[j], env, th) <==> want)
    ensures FirstOf(args, want, env, th) in args && (Holds(FirstOf(args, want, env, th), env, th) <==> want)
  {
    if IsTrue(Eval(args[0], env, th)) != want {
      FirstOfDecides(args[1..], want, env, th, j - 1);
    }
  }

  lemma {:induction false} PickControls(t: Term, env: Env, th: Theory)
    requires t.App? && IsControlled(t.op, Eval(t, env, th))
    ensures Controls(Pick(t, env, th), t, env, th)
  {
    hide Eval, IsControlled, FirstOf;
    ControllingExists(t, env, th);
    var j :| 0 <= j < |Candidates(t)| && (Holds(Candidates(t)[j], env, th) <==> t.op != And);
    FirstOfDecides(Candidates(t), t.op != And, env, th, j);
  }

  /** Neither a choice between branches nor decided by one argument. */
  ghost predicate IsPlain(t: Term, env: Env, th: Theory) {
    !IsIte(t) && !(t.App? && IsControlled(t.op, Eval(t, env, th)))
  }

  /**
    What the value of a term depends on under `env`: the condition and the chosen branch, the argument that
    decides, or all arguments and, for a next-state variable, its update.
   */
  ghost function Edges(t: Term, v: View, env: Env, th: Theory): set<Term> {
    if IsIte(t) then {t.args[0], t.args[if Holds(t.args[0], env, th) then 1 else 2]}
    else if t.App? && IsControlled(t.op, Eval(t, env, th)) then {Pick(t, env, th)}
    else (set c | c in Children(t)) + if t.Sym? && t.x.Next? && t.x.n in v.updates then {v.updates[t.x.n]} else {}
  }

  ghost predicate IsTrail(path: seq<Term>, v: View, env: Env, th: Theory) {
    |path| > 0 && forall k :: 0 < k < |path| ==> path[k] in Edges(path[k - 1], v, env, th)
  }

  /** A chain of dependencies leads from the root to the term. */
  ghost predicate Reached(root: Term, t: Term, v: View, env: Env, th: Theory) {
    exists path :: IsTrail(path, v, env, th) && path[0] == root && path[|path| - 1] == t
  }

  /** A symbol of a plain term that the root's value depends on. */
  ghost predicate Justified(x: Symbol, root: Term, v: View, env: Env, th: Theory) {
    exists t :: Reached(root, t, v, env, th) && IsPlain(t, env, th) && x in Symbols(t)
  }

  lemma {:induction false} ReachedItself(root: Term, v: View, env: Env, th: Theory)
    ensures Reached(root, root, v, env, th)
  {
    hide Edges;
    var path := [root];
    assert IsTrail(path, v, env, th) && path[0] == root && path[|path| - 1] == root;
  }

  lemma {:induction false} ReachedFurther(root: Term, t: Term, c: Term, v: View, env: Env, th: Theory)
    requires Reached(root, t, v, env, th) && c in Edges(t, v, env, th)
    ensures Reached(root, c, v, env, th)
  {
    hide Edges;
    var path :| IsTrail(path, v, env, th) && path[0] == root && path[|path| - 1] == t;
    var longer := path + [c];
    forall k | 0 < k < |longer| ensures longer[k] in Edges(longer[k - 1], v, env, th) {
      if k < |path| {
        assert path[k] in Edges(path[k - 1], v, env, th);
      }
    }
    assert IsTrail(longer, v, env, th) && longer[0] == root && longer[|longer| - 1] == c;
  }

  /**
    A root is justified by its own symbols, if it is plain, and by what it depends on: a decided term by its
    deciding argument alone.
   */
  lemma {:induction false} JustifiedUnfolds(x: Symbol, t: Term, v: View, env: Env, th: Theory)
    ensures Justified(x, t, v, env, th) <==>
      (IsPlain(t, env, th) && x in Symbols(t)) || exists c :: c in Edges(t, v, env, th) && Justified(x, c, v, env, th)
  {
    hide Edges, IsPlain;
    ReachedItself(t, v, env, th);
    if Justified(x, t, v, env, th) {
      var u :| Reached(t, u, v, env, th) && IsPlain(u, env, th) && x in Symbols(u);
      var path :| IsTrail(path, v, env, th) && path[0] == t && path[|path| - 1] == u;
      if |path| > 1 {
        var rest := path[1..];
        forall k | 0 < k < |rest| ensures rest[k] in Edges(rest[k - 1], v, env, th) {
          assert path[k + 1] in Edges(path[k + 1 - 1], v, env, th);
        }
        assert path[1] in Edges(path[1 - 1], v, env, th);
        assert IsTrail(rest, v, env, th) && rest[0] == path[1] && rest[|rest| - 1] == u;
        assert Reached(path[1], u, v, env, th);
      }
    }
    if c :| c in Edges(t, v, env, th) && Justified(x, c, v, env, th) {
      var u :| Reached(c, u, v, env, th) && IsPlain(u, env, th) && x in Symbols(u);
      ReachedThrough(t, c, u, v, env, th);
    }
  }

  lemma {:induction false} ReachedThrough(root: Term, c: Term, t: Term, v: View, env: Env, th: Theory)
    requires c in Edges(root, v, env, th) && Reached(c, t, v, env, th)
    ensures Reached(root, t, v, env, th)
  {
    hide Edges;
    var path :| IsTrail(path, v, env, th) && path[0] == c && path[|path| - 1] == t;
    var longer := [root] + path;
    forall k | 0 < k < |longer| ensures longer[k] in Edges(longer[k - 1], v, env, th) {
      if k > 1 {
        assert path[k - 1] in Edges(path[k - 1 - 1], v, env, th);
      }
    }
    assert IsTrail(longer, v, env, th) && longer[0] == root && longer[|longer| - 1] == t;
  }

  /** Dependencies of visited terms are visited or still to visit. */
  ghost predicate Closed(visited: set<Term>, todo: seq<Term>, v: View, env: Env, th: Theory) {
    forall t, c :: t in visited && c in Edges(t, v, env, th) ==> InBoth(c, visited, todo)
  }

  lemma {:induction false} ReachedIsVisited(
      root: Term, path: seq<Term>, visited: set<Term>, v: View, env: Env, th: Theory, k: nat)
    requires root in visited && Closed(visited, [], v, env, th)
    requires IsTrail(path, v, env, th) && path[0] == root && k < |path|
    ensures path[k] in visited
  {
    hide Edges;
    if k > 0 {
      ReachedIsVisited(root, path, visited, v, env, th, k - 1);
      assert InBoth(path[k], visited, []);
    }
  }

  /** The symbols of the plain terms among the visited ones. */
  ghost predicate Collected(x: Symbol, visited: set<Term>, env: Env, th: Theory) {
    exists t :: t in visited && IsPlain(t, env, th) && x in Symbols(t)
  }

  ghost predicate AllReached(root: Term, visited: set<Term>, todo: seq<Term>, v: View, env: Env, th: Theory) {
    forall t :: InBoth(t, visited, todo) ==> Reached(root, t, v, env, th)
  }

  /** After the traversal, what was collected is what is justified. */
  lemma {:induction false} CollectedIsJustified(root: Term, visited: set<Term>, v: View, env: Env, th: Theory)
    requires root in visited && Closed(visited, [], v, env, th) && AllReached(root, visited, [], v, env, th)
    ensures forall x :: Collected(x, visited, env, th) <==> Justified(x, root, v, env, th)
  {
    hide Edges, IsPlain, Closed;
    forall x ensures Collected(x, visited, env, th) <==> Justified(x, root, v, env, th) {
      if Collected(x, visited, env, th) {
        var t :| t in visited && IsPlain(t, env, th) && x in Symbols(t);
        assert InBoth(t, visited, []);
      }
      if Justified(x, root, v, env, th) {
        var t :| Reached(root, t, v, env, th) && IsPlain(t, env, th) && x in Symbols(t);
        var path :| IsTrail(path, v, env, th) && path[0] == root && path[|path| - 1] == t;
        ReachedIsVisited(root, path, visited, v, env, th, |path| - 1);
      }
    }
  }

  /** Dependencies visited and symbols collected cover every visited term. */
  lemma {:induction false} ClosedIsCovered(visited: set<Term>, v: View, env: Env, th: Theory, proj: set<Symbol>)
    requires Closed(visited, [], v, env, th) && forall x :: Collected(x, visited, env, th) ==> x in proj
    ensures AllCovered(v, env, th, visited, [], proj)
  {
    hide Eval, IsControlled, Pick, Closed;
    forall t | t in visited ensures Covered(t, v, env, th, visited, [], proj) {
      forall c | c in Edges(t, v, env, th) ensures InBoth(c, visited, []) {
        ClosedAt(visited, v, env, th, t, c);
      }
      if IsPlain(t, env, th) {
        forall x | Occurs(x, t) ensures x in proj {
          OccursInSymbols(t, x);
          assert Collected(x, visited, env, th);
        }
      } else if !IsIte(t) {
        PickControls(t, env, th);
      }
    }
  }

  lemma {:induction false} ClosedAt(visited: set<Term>, v: View, env: Env, th: Theory, t: Term, c: Term)
    requires Closed(visited, [], v, env, th) && t in visited && c in Edges(t, v, env, th)
    ensures InBoth(c, visited, [])
  {
  }

  // ----- the finite universe of the traversal -----

  function SubTerms(t: Term): set<Term> {
    {t} + if t.App? then SubTermsAll(t.args) else {}
  }

  function SubTermsAll(ts: seq<Term>): set<Term> {
    if ts == [] then {} else SubTerms(ts[0]) + SubTermsAll(ts[1..])
  }

  lemma {:induction false} SubTermsOfArg(ts: seq<Term>, i: nat)
    requires i < |ts|
    ensures SubTerms(ts[i]) <= SubTermsAll(ts)
  {
    if i > 0 {
      SubTermsOfArg(ts[1..], i - 1);
    }
  }

  ghost predicate ClosedUnderArgs(u: set<Term>) {
    forall t, i :: t in u && t.App? && 0 <= i < |t.args| ==> t.args[i] in u
  }

  lemma {:induction false} SubTermsClosed(t: Term)
    ensures ClosedUnderArgs(SubTerms(t))
    decreases t, 0
  {
    if t.App? {
      SubTermsAllClosed(t.args, t);
      forall i | 0 <= i < |t.args| ensures t.args[i] in SubTerms(t) {
        SubTermsOfArg(t.args, i);
      }
    }
  }

  lemma {:induction false} SubTermsAllClosed(ts: seq<Term>, parent: Term)
    requires parent.App? && forall c :: c in ts ==> c in parent.args
    ensures ClosedUnderArgs(SubTermsAll(ts))
    decreases parent, 0, |ts|
  {
    if ts != [] {
      assert ts[0] in parent.args;
      SubTermsClosed(ts[0]);
      SubTermsAllClosed(ts[1..], parent);
    }
  }

  /** Closed under everything the traversal can push. */
  ghost predicate IsUniverse(u: set<Term>, v: View) {
    && ClosedUnderArgs(u)
    && (forall n :: n in v.updates ==> v.updates[n] in u)
    && (forall t :: t in u && t.App? && t.op == Implies && |t.args| == 2 ==> SmartNot(t.args[0]) in u)
  }

  ghost function UpdateTerms(v: View): set<Term> {
    set n, t | n in v.updates && t in SubTerms(v.updates[n]) :: t
  }

  /** Subterms of the root and of the updates, and their negations. */
  ghost function Universe(root: Term, v: View): set<Term> {
    var base := SubTerms(root) + UpdateTerms(v);
    base + set t | t in base :: MkNot(t)
  }

  lemma {:induction false} UniverseIsUniverse(root: Term, v: View)
    ensures root in Universe(root, v) && IsUniverse(Universe(root, v), v)
  {
    var base := SubTerms(root) + UpdateTerms(v);
    var u := Universe(root, v);
    SubTermsClosed(root);
    forall t, i | t in base && t.App? && 0 <= i < |t.args| ensures t.args[i] in base {
      if t !in SubTerms(root) {
        var n :| n in v.updates && t in SubTerms(v.updates[n]);
        SubTermsClosed(v.updates[n]);
      }
    }
    forall t, i | t in u && t.App? && 0 <= i < |t.args| ensures t.args[i] in u {
      if t !in base {
        var s :| s in base && t == MkNot(s);
      }
    }
    forall n | n in v.updates ensures v.updates[n] in u {
      assert v.updates[n] in SubTerms(v.updates[n]);
    }
    forall t | t in u && t.App? && t.op == Implies && |t.args| == 2 ensures SmartNot(t.args[0]) in u {
      assert t in base;
    }
  }

  // ----- the traversal -----

  /** A symbol of a subterm of the term or of an update. */
  ghost predicate Relevant(x: Symbol, root: Term, v: View) {
    exists t :: t in Universe(root, v) && x in Symbols(t)
  }

  function Symbols(t: Term): set<Symbol> {
    match t
    case Const(_) => {}
    case Sym(x) => {x}
    case App(_, args) => SymbolsAll(args)
  }

  function SymbolsAll(ts: seq<Term>): set<Symbol> {
    if ts == [] then {} else Symbols(ts[0]) + SymbolsAll(ts[1..])
  }

  lemma {:induction false} SymbolsOfArg(ts: seq<Term>, i: nat)
    requires i < |ts|
    ensures Symbols(ts[i]) <= SymbolsAll(ts)
  {
    if i > 0 {
      SymbolsOfArg(ts[1..], i - 1);
    }
  }

  lemma {:induction false} OccursInSymbols(t: Term, x: Symbol)
    requires Occurs(x, t)
    ensures x in Symbols(t)
    decreases t
  {
    if t.App? {
      var i :| 0 <= i < |t.args| && Occurs(x, t.args[i]);
      OccursInSymbols(t.args[i], x);
      SymbolsOfArg(t.args, i);
    }
  }

  class IC3SA {
    const v: View
    const th: Theory

    constructor (v: View, th: Theory)
      ensures this.v == v && this.th == th
    {
      this.v, this.th := v, th;
    }

    /** The first argument that decides the value. */
    method GetControlling(t: Term, env: Env) returns (c: Term)
      requires t.App? && IsControlled(t.op, Eval(t, env, th))
      ensures Controls(c, t, env, th) && c == Pick(t, env, th)
    {
      ControllingExists(t, env, th);
      var args := Candidates(t);
      var i := 0;
      assert args[0..] == args;
      while true
        invariant 0 <= i <= |args|
        invariant exists j :: i <= j < |args| && (Holds(args[j], env, th) <==> t.op != And)
        invariant Pick(t, env, th) == FirstOf(args[i..], t.op != And, env, th)
        decreases |args| - i
      {
        if IsTrue(Eval(args[i], env, th)) == (t.op != And) {
          return args[i];
        }
        i := i + 1;
      }
    }

    /** What visiting a term pushes, and the symbols it adds: those of a plain term. */
    method Dependencies(c: Term, env: Env) returns (more: seq<Term>, symbols: set<Symbol>)
      ensures forall x :: x in more <==> x in Edges(c, v, env, th)
      ensures symbols == if IsPlain(c, env, th) then Symbols(c) else {}
    {
      hide Eval, IsControlled, Pick;
      symbols := {};
      if IsIte(c) {
        var cond := IsTrue(Eval(c.args[0], env, th));
        more := [c.args[0], c.args[if cond then 1 else 2]];
        return;
      }
      if c.App? && IsControlled(c.op, Eval(c, env, th)) {
        var controlling := GetControlling(c, env);
        more := [controlling];
        return;
      }
      more := Children(c);
      if c.Sym? && c.x.Next? && c.x.n in v.updates {
        more := more + [v.updates[c.x.n]];
      }
      symbols := Symbols(c);
    }

    /** The state of the traversal. */
    ghost predicate Traversing(
        term: Term, env: Env, projection: set<Symbol>, visited: set<Term>, todo: seq<Term>, proj: set<Symbol>)
    {
      && InBoth(term, visited, todo) && AllReached(term, visited, todo, v, env, th) && Closed(visited, todo, v, env, th)
      && forall x :: x in proj <==> x in projection || Collected(x, visited, env, th)
    }

    lemma {:induction false} Popped(
        term: Term, env: Env, projection: set<Symbol>, visited: set<Term>, todo: seq<Term>, proj: set<Symbol>)
      requires Traversing(term, env, projection, visited, todo, proj) && |todo| > 0 && todo[|todo| - 1] in visited
      ensures Traversing(term, env, projection, visited, todo[..|todo| - 1], proj)
    {
      hide Edges, IsPlain, Reached, Collected;
      var rest := todo[..|todo| - 1];
      assert todo == rest + [todo[|todo| - 1]];
      forall x ensures InBoth(x, visited, todo) <==> InBoth(x, visited, rest) {
      }
    }

    lemma {:induction false} Visited(
        term: Term, env: Env, projection: set<Symbol>, visited: set<Term>, todo: seq<Term>, proj: set<Symbol>,
        more: seq<Term>, symbols: set<Symbol>)
      requires Traversing(term, env, projection, visited, todo, proj) && |todo| > 0
      requires forall x :: x in more <==> x in Edges(todo[|todo| - 1], v, env, th)
      requires symbols == if IsPlain(todo[|todo| - 1], env, th) then Symbols(todo[|todo| - 1]) else {}
      ensures Traversing(term, env, projection, visited + {todo[|todo| - 1]}, todo[..|todo| - 1] + more, proj + symbols)
    {
      hide Edges, IsPlain, Reached;
      var c, rest := todo[|todo| - 1], todo[..|todo| - 1];
      var visited', todo' := visited + {c}, rest + more;
      assert todo == rest + [c];
      assert Reached(term, c, v, env, th) by {
        assert InBoth(c, visited, todo);
      }
      forall x | InBoth(x, visited', todo') ensures Reached(term, x, v, env, th) {
        if x in more {
          ReachedFurther(term, c, x, v, env, th);
        } else {
          assert InBoth(x, visited, todo);
        }
      }
      forall t, x | t in visited' && x in Edges(t, v, env, th) ensures InBoth(x, visited', todo') {
        if t != c {
          assert InBoth(x, visited, todo);
        }
      }
      CollectedMore(visited, c, env, th);
    }

    /** Adds to the projection exactly the symbols of plain terms that the value depends on; they suffice for it. */
    method JustifyCoi(term: Term, env: Env, projection: set<Symbol>) returns (proj: set<Symbol>)
      requires Obeys(v, env, th) && forall n :: n in v.updates ==> NoNext(v.updates[n], v.vars, v.inputs)
      ensures projection <= proj && Sufficient(term, v, env, th, proj)
      ensures forall x :: x in proj <==> x in projection || Justified(x, term, v, env, th)
      ensures forall x :: x in proj ==> x in projection || Relevant(x, term, v)
    {
      hide Universe, IsUniverse, Eval, Traversing, Edges, IsPlain, Justified, Closed, Relevant;
      proj := projection;
      var toVisit := [term];
      var visited: set<Term> := {};
      ghost var universe := Universe(term, v);
      UniverseIsUniverse(term, v);
      TraversalStarts(term, env, projection);
      while toVisit != []
        invariant visited <= universe && (forall t :: t in toVisit ==> t in universe)
        invariant Traversing(term, env, projection, visited, toVisit, proj)
        decreases |universe - visited|, |toVisit|
      {
        var c := toVisit[|toVisit| - 1];
        var rest := toVisit[..|toVisit| - 1];
        if c in visited {
          Popped(term, env, projection, visited, toVisit, proj);
          toVisit := rest;
          continue;
        }
        var more, symbols := Dependencies(c, env);
        Visited(term, env, projection, visited, toVisit, proj, more, symbols);
        EdgesInUniverse(c, v, env, th, universe);
        Shrinks(universe, visited, c);
        visited := visited + {c};
        toVisit := rest + more;
        proj := proj + symbols;
      }
      TraversalEnds(term, env, projection, visited, proj);
    }

    lemma {:induction false} TraversalStarts(term: Term, env: Env, projection: set<Symbol>)
      ensures Traversing(term, env, projection, {}, [term], projection)
    {
      hide Edges, IsPlain;
      ReachedItself(term, v, env, th);
      forall t | InBoth(t, {}, [term]) ensures Reached(term, t, v, env, th) {
      }
    }

    lemma {:induction false} TraversalEnds(
        term: Term, env: Env, projection: set<Symbol>, visited: set<Term>, proj: set<Symbol>)
      requires Obeys(v, env, th) && forall n :: n in v.updates ==> NoNext(v.updates[n], v.vars, v.inputs)
      requires Traversing(term, env, projection, visited, [], proj) && visited <= Universe(term, v)
      ensures projection <= proj && Sufficient(term, v, env, th, proj)
      ensures forall x :: x in proj <==> x in projection || Justified(x, term, v, env, th)
      ensures forall x :: x in proj ==> x in projection || Relevant(x, term, v)
    {
      hide Edges, IsPlain, Universe, Eval, Closed, AllReached, Justified, AllCovered;
      assert term in visited;
      CollectedIsJustified(term, visited, v, env, th);
      ClosedIsCovered(visited, v, env, th, proj);
      forall env': Env | Obeys(v, env', th) && Agree(v, env, env', proj)
        ensures Eval(term, env', th) == Eval(term, env, th)
      {
        CoveredKeepsValue(term, v, env, env', th, visited, proj);
      }
    }

    /** The projection of a predecessor: the next state is in the target, and every constraint holds. */
    method PredecessorProjection(target: Term, env: Env, projection: set<Symbol>) returns (proj: set<Symbol>)
      requires Shaped(v, th) && Obeys(v, env, th) && OnlyCurr(target, v.vars)
      ensures projection <= proj && SufficientForAll(Roots(v, target), v, env, th, proj)
      ensures forall x :: x in proj <==> x in projection || JustifiedBySome(x, Roots(v, target), v, env, th)
    {
      hide Eval, Shaped, Justified, Sufficient, Relevant;
      ShapedUpdates(v, th);
      var roots := Roots(v, target);
      proj := projection;
      for m := 0 to |roots|
        invariant projection <= proj && SufficientForAll(roots[..m], v, env, th, proj)
        invariant forall x :: x in proj <==> x in projection || JustifiedBySome(x, roots[..m], v, env, th)
      {
        ghost var was := proj;
        proj := JustifyCoi(roots[m], env, proj);
        SufficientMore(roots[..m], v, env, th, was, proj);
        assert roots[..m + 1] == roots[..m] + [roots[m]];
        forall t | t in roots[..m + 1] ensures Sufficient(t, v, env, th, proj) {
          assert t in roots[..m] || t == roots[m];
        }
        OneMoreRoot(roots[..m], roots[m], v, env, th);
      }
      assert roots[..|roots|] == roots;
    }
  }

  ghost predicate JustifiedBySome(x: Symbol, roots: seq<Term>, v: View, env: Env, th: Theory) {
    exists t :: t in roots && Justified(x, t, v, env, th)
  }

  lemma {:induction false} OneMoreRoot(roots: seq<Term>, t: Term, v: View, env: Env, th: Theory)
    ensures forall x :: JustifiedBySome(x, roots + [t], v, env, th) <==>
      JustifiedBySome(x, roots, v, env, th) || Justified(x, t, v, env, th)
  {
    hide Justified;
    forall x
      ensures JustifiedBySome(x, roots + [t], v, env, th) <==>
        JustifiedBySome(x, roots, v, env, th) || Justified(x, t, v, env, th)
    {
      if Justified(x, t, v, env, th) {
        assert t in roots + [t];
      }
      if JustifiedBySome(x, roots, v, env, th) {
        var r :| r in roots && Justified(x, r, v, env, th);
        assert r in roots + [t];
      }
    }
  }

  lemma {:induction false} CollectedMore(visited: set<Term>, c: Term, env: Env, th: Theory)
    ensures forall x :: Collected(x, visited + {c}, env, th) <==>
      Collected(x, visited, env, th) || (IsPlain(c, env, th) && x in Symbols(c))
  {
    hide IsPlain;
    forall x
      ensures Collected(x, visited + {c}, env, th) <==>
        Collected(x, visited, env, th) || (IsPlain(c, env, th) && x in Symbols(c))
    {
      if Collected(x, visited, env, th) {
        var t :| t in visited && IsPlain(t, env, th) && x in Symbols(t);
        assert t in visited + {c};
      }
      if IsPlain(c, env, th) && x in Symbols(c) {
        assert c in visited + {c};
      }
    }
  }

  lemma {:induction false} EdgesInUniverse(t: Term, v: View, env: Env, th: Theory, u: set<Term>)
    requires t in u && IsUniverse(u, v)
    ensures forall c :: c in Edges(t, v, env, th) ==> c in u
  {
    hide Eval, Pick, IsControlled;
    forall c | c in Edges(t, v, env, th) ensures c in u {
      if t.App? && !IsIte(t) && IsControlled(t.op, Eval(t, env, th)) {
        PickControls(t, env, th);
        if c in t.args {
          var i :| 0 <= i < |t.args| && t.args[i] == c;
        }
      } else if t.App? {
        var i :| 0 <= i < |t.args| && t.args[i] == c;
      }
    }
  }

  lemma {:induction false} ShapedUpdates(v: View, th: Theory)
    requires Shaped(v, th)
    ensures forall n :: n in v.updates ==> NoNext(v.updates[n], v.vars, v.inputs)
  {
  }

  lemma {:induction false} Shrinks(universe: set<Term>, visited: set<Term>, c: Term)
    requires c in universe && c !in visited
    ensures |universe - (visited + {c})| < |universe - visited|
  {
    assert universe - (visited + {c}) == (universe - visited) - {c};
  }

  // ----- the use in predecessor generalisation -----

  /** The target in the next state, the constraints, and those imposed on the next state. */
  function Roots(v: View, target: Term): seq<Term> {
    [NextTerm(target, v.vars)] + v.constraints +
      seq(|v.imposed|, k requires 0 <= k < |v.imposed| => NextTerm(v.imposed[k], v.vars))
  }

  ghost predicate SufficientForAll(roots: seq<Term>, v: View, env: Env, th: Theory, proj: set<Symbol>) {
    forall t :: t in roots ==> Sufficient(t, v, env, th, proj)
  }

  lemma {:induction false} SufficientMore(
      roots: seq<Term>, v: View, env: Env, th: Theory, proj: set<Symbol>, proj': set<Symbol>)
    requires SufficientForAll(roots, v, env, th, proj) && proj <= proj'
    ensures SufficientForAll(roots, v, env, th, proj')
  {
    hide Eval;
    forall t | t in roots ensures Sufficient(t, v, env, th, proj') {
      assert Sufficient(t, v, env, th, proj);
    }
  }

  /** The state the updates lead to; variables without update keep the model's next value. */
  function Successor(v: View, s: State, i: Input, t: State, th: Theory): State {
    map n | n in v.vars :: if n in v.updates then Eval(v.updates[n], EnvOf(s, i, map[]), th) else Lookup(t, n)
  }

  /** Agreement of a state and input with the model on the current symbols of the projection. */
  ghost predicate AgreeNow(s: State, i: Input, s': State, i': Input, proj: set<Symbol>) {
    && (forall n :: Cur(n) in proj ==> Lookup(s, n) == Lookup(s', n))
    && (forall n :: Inp(n) in proj ==> Lookup(i, n) == Lookup(i', n))
  }

  /** Every state that agrees with the model on the projection steps into the target. */
  lemma {:induction false} ProjectedStatesStep(
      v: View, th: Theory, target: Term, s: State, i: Input, t: State, proj: set<Symbol>, s': State, i': Input)
    requires Shaped(v, th) && OnlyCurr(target, v.vars) && Semantics(v, TrueTerm, th).trans(s, i, t)
    requires Holds(target, EnvOf(t, i, t), th) && SufficientForAll(Roots(v, target), v, EnvOf(s, i, t), th, proj)
    requires s'.Keys == VarSet(v.vars) && AgreeNow(s, i, s', i', proj)
    ensures Semantics(v, TrueTerm, th).trans(s', i', Successor(v, s', i', t, th))
    ensures Holds(target, EnvOf(Successor(v, s', i', t, th), i', Successor(v, s', i', t, th)), th)
  {
    hide Eval, OnlyCurr, NoNext;
    var t' := Successor(v, s', i', t, th);
    var env, env' := EnvOf(s, i, t), EnvOf(s', i', t');
    SuccessorFollows(v, th, s', i', t);
    SuccessorAgrees(v, th, s, i, t, proj, s', i');
    RootKept(v, th, target, 0, env, env', proj);
    NextEval(target, v.vars, s, i, t, th);
    NextEval(target, v.vars, s', i', t', th);
    forall c | c in v.constraints ensures Holds(c, env', th) {
      var k :| 0 <= k < |v.constraints| && v.constraints[k] == c;
      RootKept(v, th, target, 1 + k, env, env', proj);
    }
    forall c | c in v.imposed ensures Holds(c, EnvOf(t', i', t'), th) {
      var k :| 0 <= k < |v.imposed| && v.imposed[k] == c;
      RootKept(v, th, target, 1 + |v.constraints| + k, env, env', proj);
      NextEval(c, v.vars, s, i, t, th);
      NextEval(c, v.vars, s', i', t', th);
    }
  }

  lemma {:induction false} RootKept(v: View, th: Theory, target: Term, k: nat, env: Env, env': Env, proj: set<Symbol>)
    requires k < |Roots(v, target)| && SufficientForAll(Roots(v, target), v, env, th, proj)
    requires Obeys(v, env', th) && Agree(v, env, env', proj)
    ensures Holds(Roots(v, target)[k], env', th) == Holds(Roots(v, target)[k], env, th)
  {
    assert Roots(v, target)[k] in Roots(v, target);
    assert Sufficient(Roots(v, target)[k], v, env, th, proj);
  }

  lemma {:induction false} SuccessorFollows(v: View, th: Theory, s': State, i': Input, t: State)
    requires Shaped(v, th)
    ensures var t' := Successor(v, s', i', t, th);
      Obeys(v, EnvOf(s', i', t'), th) && UpdatesHold(v, s', i', t', th) && t'.Keys == VarSet(v.vars)
  {
    hide Eval, NoNext;
    var t' := Successor(v, s', i', t, th);
    forall n | n in v.updates ensures Lookup(t', n) == Eval(v.updates[n], EnvOf(s', i', t'), th) {
      UpdateFormula(v.updates[n], v.vars, v.inputs, s', i', map[], t', th);
    }
  }

  lemma {:induction false} SuccessorAgrees(
      v: View, th: Theory, s: State, i: Input, t: State, proj: set<Symbol>, s': State, i': Input)
    requires AgreeNow(s, i, s', i', proj) && t.Keys == VarSet(v.vars)
    ensures Agree(v, EnvOf(s, i, t), EnvOf(s', i', Successor(v, s', i', t, th)), proj)
  {
    hide Eval;
  }
}
