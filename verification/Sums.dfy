/** Sums over finite sets, and one sum dominating another through an injection. */
module Sums {
  ghost function Sum<T(!new)>(s: set<T>, f: T -> int): int
    decreases |s|
  {
    if s == {} then 0
    else
      var x :| x in s;
      f(x) + Sum(s - {x}, f)
  }

  lemma {:induction false} SumRemove<T(!new)>(s: set<T>, f: T -> int, x: T)
    requires x in s
    ensures Sum(s, f) == f(x) + Sum(s - {x}, f)
    decreases |s|
  {
    var y :| y in s && Sum(s, f) == f(y) + Sum(s - {y}, f);
    if y != x {
      SumRemove(s - {y}, f, x);
      SumRemove(s - {x}, f, y);
      assert s - {y} - {x} == s - {x} - {y};
    }
  }

  lemma {:induction false} SumNonnegative<T(!new)>(s: set<T>, f: T -> int)
    requires forall x :: x in s ==> f(x) >= 0
    ensures Sum(s, f) >= 0
    decreases |s|
  {
    if s != {} {
      var y :| y in s && Sum(s, f) == f(y) + Sum(s - {y}, f);
      SumNonnegative(s - {y}, f);
    }
  }

  /** w sends each element of a to its own element of b, where g is at least f: then the g-sum covers the f-sum. */
  lemma {:induction false} SumDominated<T(!new), U(!new)>(a: set<T>, f: T -> int, b: set<U>, g: U -> int, w: map<T, U>)
    requires forall x :: x in a ==> x in w && w[x] in b && f(x) <= g(w[x])
    requires forall x, y :: x in a && y in a && x != y ==> w[x] != w[y]
    requires forall u :: u in b ==> g(u) >= 0
    ensures Sum(a, f) <= Sum(b, g)
    decreases |a|
  {
    if a == {} {
      SumNonnegative(b, g);
    } else {
      var x :| x in a;
      SumRemove(a, f, x);
      SumRemove(b, g, w[x]);
      SumDominated(a - {x}, f, b - {w[x]}, g, w);
    }
  }
}
