/** Sums of natural numbers over finite sets: the only arithmetic the lease, heartbeat and
    quota proofs need. A sum is defined by picking any element; `SumRemove` makes the choice
    of element irrelevant, and the other lemmas follow from it. */
module FiniteSums {

  ghost function Sum<T(!new)>(keys: set<T>, f: T -> nat): nat
  {
    if keys == {} then 0 else
    var k :| k in keys;
    f(k) + Sum(keys - {k}, f)
  }

  lemma {:induction false} SumRemove<T(!new)>(keys: set<T>, f: T -> nat, k: T)
    requires k in keys
    ensures Sum(keys, f) == f(k) + Sum(keys - {k}, f)
    decreases keys
  {
    var p :| p in keys && Sum(keys, f) == f(p) + Sum(keys - {p}, f);
    if p != k {
      SumRemove(keys - {p}, f, k);
      SumRemove(keys - {k}, f, p);
      assert keys - {p} - {k} == keys - {k} - {p};
    }
  }

  lemma SumAdd<T(!new)>(keys: set<T>, f: T -> nat, k: T)
    requires k !in keys
    ensures Sum(keys + {k}, f) == Sum(keys, f) + f(k)
  {
    SumRemove(keys + {k}, f, k);
    assert keys + {k} - {k} == keys;
  }

  /** Pointwise smaller terms over fewer keys give a smaller sum. */
  lemma {:induction false} SumLeq<T(!new)>(a: set<T>, f: T -> nat, b: set<T>, g: T -> nat)
    requires a <= b
    requires forall k :: k in a ==> f(k) <= g(k)
    ensures Sum(a, f) <= Sum(b, g)
    decreases b
  {
    if b != {} {
      var k :| k in b;
      SumRemove(b, g, k);
      if k in a {
        SumRemove(a, f, k);
      }
      assert a - {k} <= b - {k};
      SumLeq(a - {k}, f, b - {k}, g);
      assert k !in a ==> a - {k} == a;
    }
  }

  lemma SumSame<T(!new)>(a: set<T>, f: T -> nat, g: T -> nat)
    requires forall k :: k in a ==> f(k) == g(k)
    ensures Sum(a, f) == Sum(a, g)
  {
    SumLeq(a, f, a, g);
    SumLeq(a, g, a, f);
  }

  /** Keys whose term is zero may be added freely. */
  lemma {:induction false} SumPadded<T(!new)>(a: set<T>, b: set<T>, f: T -> nat)
    requires a <= b
    requires forall k :: k in b - a ==> f(k) == 0
    ensures Sum(a, f) == Sum(b, f)
    decreases b
  {
    if b - a != {} {
      var k :| k in b - a;
      SumRemove(b, f, k);
      SumPadded(a, b - {k}, f);
    } else {
      assert a == b by { assert forall x :: x in b ==> x in b - a || x in a; }
    }
  }

  /** Changing one term changes the sum by exactly that term. */
  lemma SumReplace<T(!new)>(keys: set<T>, f: T -> nat, g: T -> nat, k: T)
    requires k in keys
    requires forall x :: x in keys && x != k ==> f(x) == g(x)
    ensures Sum(keys, g) + f(k) == Sum(keys, f) + g(k)
  {
    SumRemove(keys, f, k);
    SumRemove(keys, g, k);
    SumSame(keys - {k}, f, g);
  }

  lemma {:induction false} SumPlus<T(!new)>(keys: set<T>, f: T -> nat, g: T -> nat, h: T -> nat)
    requires forall k :: k in keys ==> h(k) == f(k) + g(k)
    ensures Sum(keys, h) == Sum(keys, f) + Sum(keys, g)
    decreases keys
  {
    if keys != {} {
      var k :| k in keys;
      SumRemove(keys, f, k);
      SumRemove(keys, g, k);
      SumRemove(keys, h, k);
      SumPlus(keys - {k}, f, g, h);
    }
  }

  lemma OneMoreTimes(n: nat, bound: nat)
    ensures (n + 1) * bound == n * bound + bound
  {
  }

  lemma {:induction false} SumBounded<T(!new)>(keys: set<T>, f: T -> nat, bound: nat)
    requires forall k :: k in keys ==> f(k) <= bound
    ensures Sum(keys, f) <= |keys| * bound
    decreases keys
  {
    if keys != {} {
      var k :| k in keys;
      var rest := keys - {k};
      SumRemove(keys, f, k);
      SumBounded(rest, f, bound);
      OneMoreTimes(|rest|, bound);
    }
  }
}
