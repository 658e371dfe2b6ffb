/** Sums over finite sets, in no particular order: the value of iterating a
    dictionary and adding up one term per key. */
module Sums {

  /** Some element of a non-empty set: the one a sum visits first. */
  ghost function Pick<K>(s: set<K>): (k: K)
    requires s != {}
    ensures k in s
  {
    var k :| k in s; k
  }

  /** The sum of `g` over the elements of `s`. */
  ghost function SetSum<K>(s: set<K>, g: K -> real): (r: real)
    decreases |s|
  {
    if s == {} then 0.0 else g(Pick(s)) + SetSum(s - {Pick(s)}, g)
  }

  /** Any element may be taken out first: the sum does not depend on the order
      in which the set is visited. */
  lemma {:induction false} SetSumRemove<K>(s: set<K>, g: K -> real, a: K)
    requires a in s
    ensures SetSum(s, g) == g(a) + SetSum(s - {a}, g)
    decreases |s|
  {
    var k := Pick(s);
    if k != a {
      SetSumRemove(s - {k}, g, a);
      SetSumRemove(s - {a}, g, k);
      assert s - {k} - {a} == s - {a} - {k};
    }
  }

  /** The sum depends only on the values of `g` on the set. */
  lemma {:induction false} SetSumExt<K>(s: set<K>, g: K -> real, h: K -> real)
    requires forall k :: k in s ==> g(k) == h(k)
    ensures SetSum(s, g) == SetSum(s, h)
    decreases |s|
  {
    if s != {} {
      SetSumExt(s - {Pick(s)}, g, h);
    }
  }

  /** Adding `m` to the term of `a`, which joins the set if it was not in it
      with a zero term, adds `m` to the sum. */
  lemma SetSumBump<K>(s: set<K>, g: K -> real, h: K -> real, a: K, m: real)
    requires forall k :: k in s && k != a ==> h(k) == g(k)
    requires h(a) == g(a) + m
    requires a !in s ==> g(a) == 0.0
    ensures SetSum(s + {a}, h) == SetSum(s, g) + m
  {
    SetSumRemove(s + {a}, h, a);
    assert (s + {a}) - {a} == s - {a};
    SetSumExt(s - {a}, h, g);
    if a in s {
      SetSumRemove(s, g, a);
      assert s + {a} == s;
    } else {
      assert s - {a} == s;
    }
  }

  /** `g` followed by `f`. */
  function Then<K>(g: K -> real, f: real -> real): (r: K -> real) {
    k => f(g(k))
  }

  /** `f` preserves zero and sums. */
  ghost predicate Additive(f: real -> real) {
    f(0.0) == 0.0 && forall x, y :: f(x + y) == f(x) + f(y)
  }

  /** An additive map commutes with a sum. */
  lemma {:induction false} SetSumLinear<K>(s: set<K>, g: K -> real, f: real -> real)
    requires Additive(f)
    ensures SetSum(s, Then(g, f)) == f(SetSum(s, g))
    decreases |s|
  {
    if s != {} {
      SetSumLinear(s - {Pick(s)}, g, f);
    }
  }

  /* The small named functions of this module and of Integration (Product,
     Times, Then, and Integration's Rate and One) exist only for the proofs:
     giving a product or a weight a name lets the verifier treat it as an
     opaque term and match equal ones syntactically, where a bare `*` of two
     unknowns would start nonlinear arithmetic. Product is plain `*`, so a
     method that calls it multiplies exactly as the source does. */

  /** The product of two reals, named so that equal factors give equal products
      without arithmetic. */
  function Product(a: real, b: real): (r: real) {
    a * b
  }

  /** Multiplication by `c`. */
  function Times(c: real): (r: real -> real) {
    x => Product(x, c)
  }

  /** Multiplication distributes over addition. */
  lemma Distribute(x: real, y: real, c: real)
    ensures Product(x + y, c) == Product(x, c) + Product(y, c)
  {
  }

  /** Multiplication by a constant is additive. */
  lemma TimesAdditive(c: real)
    ensures Additive(Times(c))
  {
    assert Times(c)(0.0) == Product(0.0, c) == 0.0;
    forall x, y ensures Times(c)(x + y) == Times(c)(x) + Times(c)(y) {
      Distribute(x, y, c);
    }
  }

  /** Scaling every term by `c` scales the sum by `c`. */
  lemma SetSumScaled<K>(s: set<K>, g: K -> real, h: K -> real, c: real)
    requires forall k :: k in s ==> h(k) == Then(g, Times(c))(k)
    ensures SetSum(s, h) == Times(c)(SetSum(s, g))
  {
    SetSumExt(s, h, Then(g, Times(c)));
    TimesAdditive(c);
    SetSumLinear(s, g, Times(c));
  }
}
