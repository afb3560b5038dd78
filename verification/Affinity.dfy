/** Spreading the workers over the processors: the nested loops of set_cpu_affinity. */
module Affinity {
  import opened Arithmetic

  /** The k-th assignment of all goes to processor k modulo the number of processors. */
  function Dealt(from: nat, n: nat, cpus: nat): (r: seq<nat>)
    requires cpus > 0
    ensures |r| == n && forall k :: 0 <= k < n ==> r[k] == (from + k) % cpus
    decreases n
  {
    if n == 0 then [] else [from % cpus] + Dealt(from + 1, n - 1, cpus)
  }

  function Flat(sets: seq<seq<nat>>): seq<nat> {
    if sets == [] then [] else Flat(sets[..|sets| - 1]) + sets[|sets| - 1]
  }

  lemma {:induction false} DealtJoins(from: nat, m: nat, n: nat, cpus: nat)
    requires cpus > 0
    ensures Dealt(from, m + n, cpus) == Dealt(from, m, cpus) + Dealt(from + m, n, cpus)
  {
  }

  /** index after k assignments: it wraps only when the next one is made. */
  ghost function Position(k: nat, cpus: nat): nat {
    if k == 0 then 0
    else var p := Position(k - 1, cpus); if p == cpus then 1 else p + 1
  }

  lemma {:induction false} PositionIs(k: nat, cpus: nat)
    requires cpus > 0
    ensures Position(k, cpus) <= cpus && Position(k, cpus) % cpus == k % cpus
  {
    if k > 0 {
      PositionIs(k - 1, cpus);
      Wraps(Position(k - 1, cpus), k - 1, cpus);
    }
  }

  lemma Wraps(index: nat, k: nat, cpus: nat)
    requires cpus > 0 && index <= cpus && index % cpus == k % cpus
    ensures
      var i := if index == cpus then 0 else index;
      i < cpus && i == k % cpus && (i + 1) % cpus == (k + 1) % cpus
  {
    Euclid(cpus, cpus, 1, 0);
    var i := if index == cpus then 0 else index;
    Euclid(i, cpus, 0, i);
    NextQuotient(k, cpus);
    NextQuotient(i, cpus);
  }

  lemma NextDealt(before: nat, k: nat, cpus: nat)
    requires cpus > 0
    ensures
      var p := Position(before + k, cpus);
      Dealt(before, k + 1, cpus) == Dealt(before, k, cpus) + [if p == cpus then 0 else p]
  {
    PositionIs(before + k, cpus);
    Wraps(Position(before + k, cpus), before + k, cpus);
    DealtJoins(before, k, 1, cpus);
  }

  /** The inner loop: the next n processors, after `before` assignments. */
  method Deal(index: nat, n: int, cpus: nat, ghost before: nat) returns (affinity: seq<nat>, index': nat)
    requires cpus > 0 && index == Position(before, cpus)
    ensures affinity == Dealt(before, if n < 0 then 0 else n, cpus)
    ensures index' == Position(before + |affinity|, cpus)
  {
    affinity, index' := [], index;
    var k := 0;
    while k < n
      invariant 0 <= k == |affinity| && (if n < 0 then k == 0 else k <= n)
      invariant index' == Position(before + k, cpus)
      invariant affinity == Dealt(before, k, cpus)
    {
      NextDealt(before, k, cpus);
      if index' == cpus {
        index' := 0;
      }
      affinity := affinity + [index'];
      index' := index' + 1;
      k := k + 1;
    }
  }

  /** One affinity list per worker; none at all when n is 0 or covers every processor. */
  method SetCpuAffinity(n: int, workers: nat, cpus: nat) returns (sets: seq<seq<nat>>)
    requires cpus > 0
    ensures n == 0 || n >= cpus ==> sets == []
    ensures n < 0 ==> |sets| == workers && forall w :: 0 <= w < workers ==> sets[w] == []
    ensures 0 < n < cpus ==>
              && |sets| == workers && Flat(sets) == Dealt(0, workers * n, cpus)
              && forall w :: 0 <= w < workers ==> sets[w] == Dealt(w * n, n, cpus)
  {
    sets := [];
    if n == 0 || n >= cpus {
      return;
    }
    ghost var size := if n < 0 then 0 else n;
    var index := 0;
    for w := 0 to workers
      invariant |sets| == w && index == Position(w * size, cpus)
      invariant Flat(sets) == Dealt(0, w * size, cpus)
      invariant forall v :: 0 <= v < w ==> sets[v] == Dealt(v * size, size, cpus)
    {
      var affinity;
      affinity, index := Deal(index, n, cpus, w * size);
      assert (w + 1) * size == w * size + size;
      DealtJoins(0, w * size, size, cpus);
      ghost var was := sets;
      sets := sets + [affinity];
      assert sets[..|sets| - 1] == was;
    }
  }

  lemma Gap(d: nat, p: int, q: int)
    ensures p < q ==> d * p + d <= d * q
    ensures p >= q ==> d * q <= d * p
  {
    var e := q - p - 1;
    assert d * q == d * p + d + d * e;
    assert e >= 0 ==> d * e >= 0;
    assert e < 0 ==> d + d * e <= 0;
  }

  lemma RemaindersDiffer(a: nat, b: nat, d: nat)
    requires a < b < a + d
    ensures a % d != b % d
  {
    Gap(d, a / d, b / d);
    assert a == d * (a / d) + a % d && b == d * (b / d) + b % d;
  }

  /** Each worker gets n different processors. */
  lemma DealtDistinct(from: nat, n: nat, cpus: nat, j: nat, k: nat)
    requires n <= cpus && j < k < n
    ensures Dealt(from, n, cpus)[j] != Dealt(from, n, cpus)[k]
  {
    RemaindersDiffer(from + j, from + k, cpus);
  }

  function Uses(s: seq<nat>, cpu: nat): nat {
    if s == [] then 0 else Uses(s[..|s| - 1], cpu) + (if s[|s| - 1] == cpu then 1 else 0)
  }

  lemma {:induction false} EvenLoad(m: nat, cpus: nat, cpu: nat)
    requires cpu < cpus
    ensures Uses(Dealt(0, m, cpus), cpu) == m / cpus + (if cpu < m % cpus then 1 else 0)
  {
    if m > 0 {
      DealtJoins(0, m - 1, 1, cpus);
      var s, t := Dealt(0, m, cpus), Dealt(0, m - 1, cpus);
      assert s[..|s| - 1] == t && s[m - 1] == (m - 1) % cpus;
      EvenLoad(m - 1, cpus, cpu);
      NextQuotient(m - 1, cpus);
    } else {
      Euclid(0, cpus, 0, 0);
    }
  }

  lemma NextQuotient(m: nat, d: nat)
    requires d > 0
    ensures if m % d + 1 < d then (m + 1) / d == m / d && (m + 1) % d == m % d + 1
            else (m + 1) / d == m / d + 1 && (m + 1) % d == 0
  {
    if m % d + 1 < d {
      Euclid(m + 1, d, m / d, m % d + 1);
    } else {
      assert d * (m / d + 1) == d * (m / d) + d;
      Euclid(m + 1, d, m / d + 1, 0);
    }
  }

  /** After any number of workers, the loads of two processors differ by at most one. */
  lemma LoadsDiffer(n: nat, workers: nat, cpus: nat, a: nat, b: nat)
    requires 0 < n < cpus && a < cpus && b < cpus
    ensures
      var all := Dealt(0, workers * n, cpus);
      Uses(all, a) <= Uses(all, b) + 1
  {
    EvenLoad(workers * n, cpus, a);
    EvenLoad(workers * n, cpus, b);
  }
}
