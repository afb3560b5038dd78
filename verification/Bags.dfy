/** Weighing finite bags: the sum of a weight over every element, with multiplicity. */
module Bags {

  ghost function Pick<T>(m: multiset<T>): (x: T)
    requires m != multiset{}
    ensures x in m
  {
    var x :| x in m; x
  }

  ghost function Weigh<T>(m: multiset<T>, w: T -> nat): nat
    decreases |m|
  {
    if m == multiset{} then 0
    else var x := Pick(m); w(x) + Weigh(m - multiset{x}, w)
  }

  /** Any element may be weighed first. */
  lemma {:induction false} WeighOut<T>(m: multiset<T>, x: T, w: T -> nat)
    requires x in m
    ensures Weigh(m, w) == w(x) + Weigh(m - multiset{x}, w)
    decreases |m|
  {
    var y := Pick(m);
    if x != y {
      WeighOut(m - multiset{y}, x, w);
      WeighOut(m - multiset{x}, y, w);
      assert m - multiset{y} - multiset{x} == m - multiset{x} - multiset{y};
    }
  }

  lemma WeighIn<T>(m: multiset<T>, x: T, w: T -> nat)
    ensures Weigh(m + multiset{x}, w) == Weigh(m, w) + w(x)
  {
    WeighOut(m + multiset{x}, x, w);
    assert m + multiset{x} - multiset{x} == m;
  }

  lemma WeighSwap<T>(m: multiset<T>, x: T, y: T, w: T -> nat)
    requires x in m
    ensures Weigh(m - multiset{x} + multiset{y}, w) + w(x) == Weigh(m, w) + w(y)
  {
    WeighOut(m, x, w);
    WeighIn(m - multiset{x}, y, w);
  }

  /** A weight that is pointwise no larger weighs no more. */
  lemma {:induction false} WeighMono<T>(m: multiset<T>, v: T -> nat, w: T -> nat)
    requires forall x :: x in m ==> v(x) <= w(x)
    ensures Weigh(m, v) <= Weigh(m, w)
    decreases |m|
  {
    if m != multiset{} {
      WeighMono(m - multiset{Pick(m)}, v, w);
    }
  }

  /** The weight of a sum of weights is the sum of the weighings. */
  lemma {:induction false} WeighSplit<T>(m: multiset<T>, u: T -> nat, v: T -> nat, w: T -> nat)
    requires forall x :: x in m ==> w(x) == u(x) + v(x)
    ensures Weigh(m, w) == Weigh(m, u) + Weigh(m, v)
    decreases |m|
  {
    if m != multiset{} {
      WeighSplit(m - multiset{Pick(m)}, u, v, w);
    }
  }

  lemma {:induction false} WeighUnion<T>(a: multiset<T>, b: multiset<T>, w: T -> nat)
    ensures Weigh(a + b, w) == Weigh(a, w) + Weigh(b, w)
    decreases |b|
  {
    if b == multiset{} {
      assert a + b == a;
    } else {
      var x := Pick(b);
      WeighUnion(a, b - multiset{x}, w);
      assert a + b == (a + (b - multiset{x})) + multiset{x};
      WeighIn(a + (b - multiset{x}), x, w);
    }
  }

  /** Two different elements, or one element twice, weigh at least the two together. */
  lemma WeighTwo<T>(m: multiset<T>, x: T, y: T, w: T -> nat)
    requires multiset{x, y} <= m
    ensures Weigh(m, w) >= w(x) + w(y)
  {
    WeighOut(m, x, w);
    WeighOut(m - multiset{x}, y, w);
  }
}
