/**
  The unit IC3 keeps in its frames: a clause or a cube over Boolean state
  variables, whose children are sorted on construction.
 */
module Ic3Formulas {

  /** A valuation of the state (or input) variables: the set of variables that are true. */
  type State = set<nat>
  type Input = set<nat>

  datatype Lit = Lit(v: nat, pos: bool)

  /** The identifier by which children are ordered. */
  function Key(l: Lit): nat {
    2 * l.v + if l.pos then 1 else 0
  }

  function SmartNot(l: Lit): Lit {
    l.(pos := !l.pos)
  }

  predicate LitHolds(l: Lit, s: State) {
    (l.v in s) == l.pos
  }

  datatype IC3Formula = IC3Formula(children: seq<Lit>, disjunction: bool)

  ghost predicate Eval(f: IC3Formula, s: State) {
    if f.disjunction then
      exists l :: l in f.children && LitHolds(l, s)
    else
      forall l :: l in f.children ==> LitHolds(l, s)
  }

  // ----- construction -----

  predicate Sorted(c: seq<Lit>) {
    forall i, j :: 0 <= i < j < |c| ==> Key(c[i]) <= Key(c[j])
  }

  function Insert(l: Lit, c: seq<Lit>): (r: seq<Lit>)
    ensures |r| == |c| + 1 && forall x :: x in r <==> x == l || x in c
  {
    if c == [] || Key(l) <= Key(c[0]) then [l] + c
    else [c[0]] + Insert(l, c[1..])
  }

  function Sort(c: seq<Lit>): (r: seq<Lit>)
    ensures |r| == |c| && forall x :: x in r <==> x in c
  {
    if c == [] then [] else Insert(c[0], Sort(c[1..]))
  }

  lemma {:induction false} InsertSorted(l: Lit, c: seq<Lit>)
    requires Sorted(c)
    ensures Sorted(Insert(l, c))
  {
    if !(c == [] || Key(l) <= Key(c[0])) {
      InsertSorted(l, c[1..]);
      var t := Insert(l, c[1..]);
      assert forall i :: 0 < i < |c| ==> Key(c[0]) <= Key(c[i]);
      forall i | 0 <= i < |t| ensures Key(c[0]) <= Key(t[i]) {
        assert t[i] in t;
      }
    }
  }

  lemma {:induction false} SortSorted(c: seq<Lit>)
    ensures Sorted(Sort(c))
  {
    if c != [] {
      SortSorted(c[1..]);
      InsertSorted(c[0], Sort(c[1..]));
    }
  }

  lemma {:induction false} InsertMultiset(l: Lit, c: seq<Lit>)
    ensures multiset(Insert(l, c)) == multiset(c) + multiset{l}
  {
    if !(c == [] || Key(l) <= Key(c[0])) {
      InsertMultiset(l, c[1..]);
      assert c == [c[0]] + c[1..];
    }
  }

  /** Sorting permutes. */
  lemma {:induction false} SortMultiset(c: seq<Lit>)
    ensures multiset(Sort(c)) == multiset(c)
  {
    if c != [] {
      SortMultiset(c[1..]);
      InsertMultiset(c[0], Sort(c[1..]));
      assert c == [c[0]] + c[1..];
    }
  }

  function Conjunction(c: seq<Lit>): IC3Formula {
    IC3Formula(Sort(c), false)
  }

  function NegateAll(c: seq<Lit>): (r: seq<Lit>)
    ensures |r| == |c| && forall i :: 0 <= i < |c| ==> r[i] == SmartNot(c[i])
  {
    seq(|c|, i requires 0 <= i < |c| => SmartNot(c[i]))
  }

  function Negate(u: IC3Formula): IC3Formula {
    IC3Formula(Sort(NegateAll(u.children)), !u.disjunction)
  }

  lemma {:induction false} NegateMembers(u: IC3Formula, l: Lit)
    ensures l in Negate(u).children <==> SmartNot(l) in u.children
  {
    var n := NegateAll(u.children);
    if SmartNot(l) in u.children {
      var i :| 0 <= i < |n| && u.children[i] == SmartNot(l);
      assert n[i] == l;
    }
  }

  /** Negation complements the meaning, whatever the polarity of the formula. */
  lemma {:induction false} NegateComplements(u: IC3Formula, s: State)
    ensures Eval(Negate(u), s) == !Eval(u, s)
  {
    forall l { NegateMembers(u, l); }
    if u.disjunction {
      if l :| l in u.children && LitHolds(l, s) {
        assert SmartNot(SmartNot(l)) == l;
        assert SmartNot(l) in Negate(u).children;
      }
    } else if !Eval(u, s) {
      var l :| l in u.children && !LitHolds(l, s);
      assert SmartNot(SmartNot(l)) == l;
      assert SmartNot(l) in Negate(u).children;
    }
  }

  // ----- subsumption -----

  /** `std::includes` on two ranges ordered by `Key`. */
  function Includes(b: seq<Lit>, a: seq<Lit>): bool
    decreases |b|
  {
    if a == [] then true
    else if b == [] || Key(a[0]) < Key(b[0]) then false
    else if Key(b[0]) < Key(a[0]) then Includes(b[1..], a)
    else Includes(b[1..], a[1..])
  }

  predicate Subsumes(a: IC3Formula, b: IC3Formula) {
    |a.children| <= |b.children| && Includes(b.children, a.children)
  }

  lemma {:induction false} HeadBelow(l: Lit, b: seq<Lit>)
    requires Sorted(b) && (b != [] ==> Key(l) < Key(b[0]))
    ensures multiset(b)[l] == 0
  {
    assert l !in b;
  }

  lemma {:induction false} HeadTail(b: seq<Lit>)
    requires b != []
    ensures multiset(b) == multiset{b[0]} + multiset(b[1..])
  {
    assert b == [b[0]] + b[1..];
  }

  lemma {:induction false} SkipAbsent(a: multiset<Lit>, b: multiset<Lit>, l: Lit)
    requires a[l] == 0
    ensures a <= multiset{l} + b <==> a <= b
  {
    if a <= multiset{l} + b {
      forall x ensures a[x] <= b[x] { assert a[x] <= (multiset{l} + b)[x]; }
    }
  }

  lemma {:induction false} SkipShared(a: multiset<Lit>, b: multiset<Lit>, l: Lit)
    ensures multiset{l} + a <= multiset{l} + b <==> a <= b
  {
    if multiset{l} + a <= multiset{l} + b {
      forall x ensures a[x] <= b[x] { assert (multiset{l} + a)[x] <= (multiset{l} + b)[x]; }
    }
  }

  /** On sorted ranges the merge decides multiset inclusion. */
  lemma {:induction false} IncludesIsMultisetInclusion(b: seq<Lit>, a: seq<Lit>)
    requires Sorted(a) && Sorted(b)
    ensures Includes(b, a) <==> multiset(a) <= multiset(b)
    decreases |b|
  {
    if a == [] {
    } else if b == [] || Key(a[0]) < Key(b[0]) {
      HeadBelow(a[0], b);
      assert a[0] in a;
    } else if Key(b[0]) < Key(a[0]) {
      IncludesIsMultisetInclusion(b[1..], a);
      HeadBelow(b[0], a);
      HeadTail(b);
      SkipAbsent(multiset(a), multiset(b[1..]), b[0]);
    } else {
      assert a[0] == b[0];
      IncludesIsMultisetInclusion(b[1..], a[1..]);
      HeadTail(a);
      HeadTail(b);
      SkipShared(multiset(a[1..]), multiset(b[1..]), a[0]);
    }
  }

  /** On sorted children subsumption is exactly multiset inclusion of the literals. */
  lemma {:induction false} SubsumesIff(a: IC3Formula, b: IC3Formula)
    requires Sorted(a.children) && Sorted(b.children)
    ensures Subsumes(a, b) <==> multiset(a.children) <= multiset(b.children)
  {
    IncludesIsMultisetInclusion(b.children, a.children);
    if multiset(a.children) <= multiset(b.children) {
      var rest := multiset(b.children) - multiset(a.children);
      assert multiset(b.children) == multiset(a.children) + rest;
      assert |multiset(b.children)| == |multiset(a.children)| + |rest|;
    }
  }

  lemma {:induction false} IncludesMembers(b: seq<Lit>, a: seq<Lit>, l: Lit)
    requires Includes(b, a) && l in a
    ensures l in b
    decreases |b|
  {
    if Key(b[0]) < Key(a[0]) {
      IncludesMembers(b[1..], a, l);
    } else if l != a[0] {
      IncludesMembers(b[1..], a[1..], l);
    }
  }

  /** A subsumed clause follows from the clause that subsumes it. */
  lemma {:induction false} SubsumesImplies(a: IC3Formula, b: IC3Formula, s: State)
    requires a.disjunction && b.disjunction && Subsumes(a, b) && Eval(a, s)
    ensures Eval(b, s)
  {
    var l :| l in a.children && LitHolds(l, s);
    IncludesMembers(b.children, a.children, l);
  }

  /** `c` is a cube with some of the literals of the cube `d`. */
  predicate SubCube(c: IC3Formula, d: IC3Formula) {
    !c.disjunction && !d.disjunction && forall l :: l in c.children ==> l in d.children
  }

  lemma {:induction false} SubCubeCovers(c: IC3Formula, d: IC3Formula, s: State)
    requires SubCube(c, d) && Eval(d, s)
    ensures Eval(c, s)
  {
  }
}
