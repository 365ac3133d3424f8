/** Sums and counts over lists, changed in one place at a time. */
module Counting {
  function Sum<T>(l: seq<T>, f: T -> nat): nat {
    if l == [] then 0 else f(l[0]) + Sum(l[1..], f)
  }

  lemma {:induction false} SumUpdate<T>(l: seq<T>, i: nat, x: T, f: T -> nat)
    requires i < |l|
    ensures Sum(l[i := x], f) + f(l[i]) == Sum(l, f) + f(x)
  {
    if i == 0 {
      assert l[i := x][1..] == l[1..];
    } else {
      assert l[i := x][1..] == l[1..][i - 1 := x];
      SumUpdate(l[1..], i - 1, x, f);
    }
  }

  lemma {:induction false} SumMore<T>(l: seq<T>, x: T, f: T -> nat)
    ensures Sum(l + [x], f) == Sum(l, f) + f(x)
  {
    if l == [] {
      assert (l + [x])[1..] == [];
    } else {
      assert (l + [x])[1..] == l[1..] + [x];
      SumMore(l[1..], x, f);
    }
  }

  function Indicator<T>(f: T -> bool): T -> nat {
    x => if f(x) then 1 else 0
  }

  /** How many elements have the property. */
  function HowMany<T>(l: seq<T>, f: T -> bool): nat {
    Sum(l, Indicator(f))
  }

  lemma HowManyUpdate<T>(l: seq<T>, i: nat, x: T, f: T -> bool)
    requires i < |l|
    ensures HowMany(l[i := x], f) + (if f(l[i]) then 1 else 0) == HowMany(l, f) + if f(x) then 1 else 0
  {
    SumUpdate(l, i, x, Indicator(f));
  }

  lemma HowManyMore<T>(l: seq<T>, x: T, f: T -> bool)
    ensures HowMany(l + [x], f) == HowMany(l, f) + if f(x) then 1 else 0
  {
    SumMore(l, x, Indicator(f));
  }

  /** Fewer elements have the stronger property, and still fewer if some element has the weaker one only. */
  lemma {:induction false} HowManyWithin<T>(l: seq<T>, f: T -> bool, g: T -> bool)
    requires forall i :: 0 <= i < |l| && f(l[i]) ==> g(l[i])
    ensures HowMany(l, f) <= HowMany(l, g)
    ensures (exists i :: 0 <= i < |l| && g(l[i]) && !f(l[i])) ==> HowMany(l, f) < HowMany(l, g)
  {
    if l != [] {
      HowManyWithin(l[1..], f, g);
      if i :| 0 < i < |l| && g(l[i]) && !f(l[i]) {
        assert g(l[1..][i - 1]) && !f(l[1..][i - 1]);
      }
    }
  }

  lemma OneMore<T>(l: seq<T>, x: T, y: T)
    ensures multiset(l + [x])[y] == multiset(l)[y] + if x == y then 1 else 0
  {
  }
}
