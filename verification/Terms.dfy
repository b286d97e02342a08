/**
  Terms over symbols, their value under an assignment, and substitution.
 */
module Terms {

  /** The symbols a tool adds to a system are told apart from the user's by construction. */
  datatype Name =
    User(id: nat) | Save | Saved | LoopOf(n: Name) | JusticeNo(k: nat) | KliveCounter(k: nat) | HatOf(n: Name)

  datatype Symbol = Cur(n: Name) | Next(n: Name) | Inp(n: Name) | Timed(s: Symbol, k: nat)

  datatype Value = Bool(b: bool) | Num(v: int)

  /** `Fun(f)` is any other operator, with the meaning `theory(f, ..)`. */
  datatype Op = Not | And | Or | Implies | Equal | Ite | Fun(f: nat)

  datatype Term = Const(val: Value) | Sym(x: Symbol) | App(op: Op, args: seq<Term>)

  type Theory = (nat, seq<Value>) -> Value
  type Env = Symbol -> Value

  const TrueTerm: Term := Const(Bool(true))
  const FalseTerm: Term := Const(Bool(false))

  function MkNot(t: Term): Term { App(Not, [t]) }
  function MkAnd(t: Term, u: Term): Term { App(And, [t, u]) }
  function MkOr(t: Term, u: Term): Term { App(Or, [t, u]) }
  function MkEqual(t: Term, u: Term): Term { App(Equal, [t, u]) }
  function MkIte(c: Term, t: Term, u: Term): Term { App(Ite, [c, t, u]) }

  predicate IsTrue(v: Value) {
    v == Bool(true)
  }

  function ApplyOp(op: Op, vs: seq<Value>, th: Theory): Value {
    match op
    case Not => Bool(|vs| == 1 && !IsTrue(vs[0]))
    case And => Bool(forall i :: 0 <= i < |vs| ==> IsTrue(vs[i]))
    case Or => Bool(exists i :: 0 <= i < |vs| && IsTrue(vs[i]))
    case Implies => Bool(|vs| == 2 && (IsTrue(vs[0]) ==> IsTrue(vs[1])))
    case Equal => Bool(|vs| == 2 && vs[0] == vs[1])
    case Ite => if |vs| != 3 then Bool(false) else if IsTrue(vs[0]) then vs[1] else vs[2]
    case Fun(f) => th(f, vs)
  }

  function Eval(t: Term, env: Env, th: Theory): Value {
    match t
    case Const(v) => v
    case Sym(x) => env(x)
    case App(op, args) => ApplyOp(op, seq(|args|, i requires 0 <= i < |args| => Eval(args[i], env, th)), th)
  }

  ghost predicate Holds(t: Term, env: Env, th: Theory) {
    IsTrue(Eval(t, env, th))
  }

  predicate Occurs(x: Symbol, t: Term) {
    match t
    case Const(_) => false
    case Sym(y) => x == y
    case App(_, args) => exists i :: 0 <= i < |args| && Occurs(x, args[i])
  }

  /** A term depends only on the symbols that occur in it. */
  lemma {:induction false} EvalAgree(t: Term, env: Env, env': Env, th: Theory)
    requires forall x :: Occurs(x, t) ==> env(x) == env'(x)
    ensures Eval(t, env, th) == Eval(t, env', th)
    decreases t
  {
    match t
    case Const(_) =>
    case Sym(x) =>
      assert Occurs(x, t);
    case App(op, args) =>
      forall i | 0 <= i < |args| ensures Eval(args[i], env, th) == Eval(args[i], env', th) {
        forall x | Occurs(x, args[i]) ensures env(x) == env'(x) {
          assert Occurs(x, t);
        }
        EvalAgree(args[i], env, env', th);
      }
      assert seq(|args|, i requires 0 <= i < |args| => Eval(args[i], env, th))
          == seq(|args|, i requires 0 <= i < |args| => Eval(args[i], env', th));
  }

  function Subst(t: Term, m: map<Symbol, Term>): Term {
    match t
    case Const(_) => t
    case Sym(x) => if x in m then m[x] else t
    case App(op, args) => App(op, seq(|args|, i requires 0 <= i < |args| => Subst(args[i], m)))
  }

  /** Substituting and then evaluating is evaluating under the values of the substituted terms. */
  lemma {:induction false} SubstEval(t: Term, m: map<Symbol, Term>, env: Env, env': Env, th: Theory)
    requires forall x :: Occurs(x, t) ==> env'(x) == if x in m then Eval(m[x], env, th) else env(x)
    ensures Eval(Subst(t, m), env, th) == Eval(t, env', th)
    decreases t
  {
    match t
    case Const(_) =>
    case Sym(x) =>
      assert Occurs(x, t);
    case App(op, args) =>
      var subs := seq(|args|, i requires 0 <= i < |args| => Subst(args[i], m));
      assert Subst(t, m) == App(op, subs);
      forall i | 0 <= i < |args| ensures Eval(subs[i], env, th) == Eval(args[i], env', th) {
        forall x | Occurs(x, args[i])
          ensures env'(x) == if x in m then Eval(m[x], env, th) else env(x)
        {
          assert Occurs(x, t);
        }
        SubstEval(args[i], m, env, env', th);
      }
      assert seq(|subs|, i requires 0 <= i < |subs| => Eval(subs[i], env, th))
          == seq(|args|, i requires 0 <= i < |args| => Eval(args[i], env', th));
  }

  // ----- the built connectives -----

  lemma {:induction false} EvalSym(x: Symbol, env: Env, th: Theory)
    ensures Eval(Sym(x), env, th) == env(x)
  {
  }

  lemma {:induction false} EvalConst(v: Value, env: Env, th: Theory)
    ensures Eval(Const(v), env, th) == v
  {
  }

  lemma {:induction false} EvalNot(t: Term, env: Env, th: Theory)
    ensures Holds(MkNot(t), env, th) <==> !Holds(t, env, th)
  {
    Arg1(Not, t, env, th);
  }

  lemma {:induction false} EvalAnd(t: Term, u: Term, env: Env, th: Theory)
    ensures Holds(MkAnd(t, u), env, th) <==> Holds(t, env, th) && Holds(u, env, th)
  {
    Arg2(And, t, u, env, th);
    var vs := [Eval(t, env, th), Eval(u, env, th)];
    assert IsTrue(vs[0]) && IsTrue(vs[1]) ==> forall i :: 0 <= i < |vs| ==> IsTrue(vs[i]);
  }

  lemma {:induction false} EvalOr(t: Term, u: Term, env: Env, th: Theory)
    ensures Holds(MkOr(t, u), env, th) <==> Holds(t, env, th) || Holds(u, env, th)
  {
    Arg2(Or, t, u, env, th);
    var vs := [Eval(t, env, th), Eval(u, env, th)];
    assert IsTrue(vs[0]) || IsTrue(vs[1]) <==> exists i :: 0 <= i < |vs| && IsTrue(vs[i]);
  }

  lemma {:induction false} EvalEqual(t: Term, u: Term, env: Env, th: Theory)
    ensures Holds(MkEqual(t, u), env, th) <==> Eval(t, env, th) == Eval(u, env, th)
  {
    Arg2(Equal, t, u, env, th);
  }

  lemma {:induction false} EvalIte(c: Term, t: Term, u: Term, env: Env, th: Theory)
    ensures Eval(MkIte(c, t, u), env, th) == if Holds(c, env, th) then Eval(t, env, th) else Eval(u, env, th)
  {
    var args := [c, t, u];
    assert seq(|args|, i requires 0 <= i < |args| => Eval(args[i], env, th))
        == [Eval(c, env, th), Eval(t, env, th), Eval(u, env, th)];
  }

  lemma {:induction false} Arg1(op: Op, t: Term, env: Env, th: Theory)
    ensures Eval(App(op, [t]), env, th) == ApplyOp(op, [Eval(t, env, th)], th)
  {
    var args := [t];
    assert seq(|args|, i requires 0 <= i < |args| => Eval(args[i], env, th)) == [Eval(t, env, th)];
  }

  lemma {:induction false} Arg2(op: Op, t: Term, u: Term, env: Env, th: Theory)
    ensures Eval(App(op, [t, u]), env, th) == ApplyOp(op, [Eval(t, env, th), Eval(u, env, th)], th)
  {
    var args := [t, u];
    assert seq(|args|, i requires 0 <= i < |args| => Eval(args[i], env, th)) == [Eval(t, env, th), Eval(u, env, th)];
  }
}
