/** Iterating a partial step on the integers: the points it visits, and the first beyond a bound. */
module Orbits {
  import opened Options

  type Step = int -> Option<int>

  /** The k-th point after t; None once the step has failed. */
  function Orbit(f: Step, t: int, k: nat): Option<int> {
    if k == 0 then Some(t)
    else
      var prev := Orbit(f, t, k - 1);
      if prev.None? then None else f(prev.value)
  }

  /** The step goes forward from every point up to the bound. */
  ghost predicate Forward(f: Step, bound: int) {
    forall u :: u <= bound && f(u).Some? ==> f(u).value > u
  }

  lemma {:induction false} OrbitShift(f: Step, t: int, k: nat)
    requires f(t).Some?
    ensures Orbit(f, t, k + 1) == Orbit(f, f(t).value, k)
  {
    if k == 0 {
      assert Orbit(f, t, 1) == f(t);
    } else {
      OrbitShift(f, t, k - 1);
    }
  }

  lemma {:induction false} OrbitPrefix(f: Step, t: int, j: nat, k: nat)
    requires j <= k && Orbit(f, t, k).Some?
    ensures Orbit(f, t, j).Some?
    decreases k - j
  {
    if j < k {
      OrbitPrefix(f, t, j, k - 1);
    }
  }

  /** A quantity that grows by p with each of the first k steps has grown by k * p after them. */
  lemma {:induction false} OrbitSum(f: Step, g: int -> int, p: int, t: int, k: nat)
    requires Orbit(f, t, k).Some?
    requires forall j: nat :: j < k && Orbit(f, t, j).Some? && Orbit(f, t, j + 1).Some? ==>
      g(Orbit(f, t, j + 1).value) == g(Orbit(f, t, j).value) + p
    ensures g(Orbit(f, t, k).value) == g(t) + k * p
  {
    if k > 0 {
      OrbitPrefix(f, t, k - 1, k);
      OrbitSum(f, g, p, t, k - 1);
      assert Orbit(f, t, (k - 1) + 1).Some?;
    }
  }

  // ---------------------------------------------------------------- the first point beyond now

  /** k is the number of steps to the first point after now, or to the failure of the step. */
  ghost predicate FirstBeyond(f: Step, t: int, now: int, k: nat) {
    && k >= 1
    && (Orbit(f, t, k).Some? ==> Orbit(f, t, k).value > now)
    && (forall j :: 1 <= j < k ==> Orbit(f, t, j).Some? && Orbit(f, t, j).value <= now)
  }

  lemma FirstBeyondUnique(f: Step, t: int, now: int, j: nat, k: nat)
    requires FirstBeyond(f, t, now, j) && FirstBeyond(f, t, now, k)
    ensures j == k
  {
  }

  /** Stepping on from u until the point lies after now. */
  function SkipTo(f: Step, u: Option<int>, now: int): Option<int>
    requires Forward(f, now)
    decreases if u.Some? then now - u.value + 1 else 0
  {
    if u.None? || u.value > now then u else SkipTo(f, f(u.value), now)
  }

  /** The loop that skips missed runs: at least one step, then on until the point lies after now. */
  method Skip(f: Step, t: int, now: int, catchUp: bool) returns (r: Option<int>, ghost k: nat)
    requires Forward(f, now)
    ensures r == if catchUp then f(t) else SkipTo(f, f(t), now)
    ensures r == Orbit(f, t, k)
    ensures catchUp ==> k == 1
    ensures !catchUp ==> FirstBeyond(f, t, now, k)
  {
    r, k := f(t), 1;
    assert Orbit(f, t, 1) == f(t);
    while !catchUp && r.Some? && r.value <= now
      invariant k >= 1 && r == Orbit(f, t, k)
      invariant catchUp ==> k == 1 && r == f(t)
      invariant SkipTo(f, r, now) == SkipTo(f, f(t), now)
      invariant forall j :: 1 <= j < k ==> Orbit(f, t, j).Some? && Orbit(f, t, j).value <= now
      decreases if r.Some? then now - r.value + 1 else 0
    {
      r := f(r.value);
      k := k + 1;
    }
  }

  /** Where that loop lands: on the first point of the orbit after now. */
  lemma {:induction false} SkipLands(f: Step, t: int, now: int) returns (k: nat)
    requires Forward(f, now)
    ensures FirstBeyond(f, t, now, k) && SkipTo(f, f(t), now) == Orbit(f, t, k)
    ensures SkipTo(f, f(t), now).Some? ==> SkipTo(f, f(t), now).value > now
    decreases if f(t).Some? then now - f(t).value + 1 else 0
  {
    assert Orbit(f, t, 1) == f(t);
    if f(t).Some? && f(t).value <= now {
      var n := SkipLands(f, f(t).value, now);
      k := n + 1;
      OrbitShift(f, t, n);
      forall j | 1 <= j < k
        ensures Orbit(f, t, j).Some? && Orbit(f, t, j).value <= now
      {
        if j > 1 {
          OrbitShift(f, t, j - 1);
        }
      }
    } else {
      k := 1;
    }
  }

  /** Without progress the loop would not end: a fixed point at or before now stays there. */
  lemma {:induction false} FixedPointNeverPasses(f: Step, t: int, now: int, k: nat)
    requires f(t) == Some(t) && t <= now
    ensures Orbit(f, t, k) == Some(t) && !FirstBeyond(f, t, now, k)
  {
    if k > 0 {
      FixedPointNeverPasses(f, t, now, k - 1);
    }
  }

  // ---------------------------------------------------------------- catching up pass by pass

  /** What repeated passes at one instant do with catch-up on: each fires the run and moves one step,
      as long as the run lies before now. */
  datatype CaughtUp = CaughtUp(fired: seq<int>, next: Option<int>)

  function CatchUp(f: Step, t: int, now: int, fuel: nat): CaughtUp
    decreases fuel
  {
    if t >= now || fuel == 0 then CaughtUp([], Some(t))
    else if f(t).None? then CaughtUp([t], None)
    else
      var rest := CatchUp(f, f(t).value, now, fuel - 1);
      CaughtUp([t] + rest.fired, rest.next)
  }

  /** One more pass moves on by one step, or finds nothing due. */
  lemma {:induction false} CatchUpOneMore(f: Step, t: int, now: int, fuel: nat)
    requires CatchUp(f, t, now, fuel + 1).next.Some?
    ensures
      var c, d := CatchUp(f, t, now, fuel), CatchUp(f, t, now, fuel + 1);
      && c.next.Some?
      && (c.next.value >= now ==> d == c)
      && (c.next.value < now ==> d == CaughtUp(c.fired + [c.next.value], f(c.next.value)))
    decreases fuel
  {
    if fuel > 0 && t < now {
      CatchUpOneMore(f, f(t).value, now, fuel - 1);
      var c := CatchUp(f, f(t).value, now, fuel - 1);
      assert [t] + (c.fired + [c.next.value]) == ([t] + c.fired) + [c.next.value];
    }
  }

  /** Each pass fires at most once; while passes last, a run before now is left only if each of them fired. */
  lemma {:induction false} CatchUpCount(f: Step, t: int, now: int, fuel: nat)
    ensures
      var c := CatchUp(f, t, now, fuel);
      |c.fired| <= fuel && (c.next.Some? && c.next.value < now ==> |c.fired| == fuel)
    decreases fuel
  {
    if t < now && fuel > 0 && f(t).Some? {
      CatchUpCount(f, f(t).value, now, fuel - 1);
    }
  }

  /** Catch-up passes fire every orbit point before now, once each and in order, and stop at the
      first point at or after now. now - t passes are always enough. */
  lemma {:induction false} CatchUpFiresAll(f: Step, t: int, now: int, fuel: nat)
    requires Forward(f, now) && now - t <= fuel
    ensures
      var c := CatchUp(f, t, now, fuel);
      && (c.next == Orbit(f, t, |c.fired|))
      && (c.next.Some? ==> c.next.value >= now)
      && (forall j :: 0 <= j < |c.fired| ==> Orbit(f, t, j) == Some(c.fired[j]) && c.fired[j] < now)
    decreases fuel
  {
    var c := CatchUp(f, t, now, fuel);
    if t < now && f(t).Some? {
      var u := f(t).value;
      CatchUpFiresAll(f, u, now, fuel - 1);
      var rest := CatchUp(f, u, now, fuel - 1);
      OrbitShift(f, t, |rest.fired|);
      forall j | 0 <= j < |c.fired|
        ensures Orbit(f, t, j) == Some(c.fired[j]) && c.fired[j] < now
      {
        if j > 0 {
          OrbitShift(f, t, j - 1);
          assert c.fired[j] == rest.fired[j - 1];
        }
      }
    } else if t < now {
      assert Orbit(f, t, 1) == f(t);
    }
  }

  /** Skipping and catching up end at the same point exactly when now is not itself a run. */
  lemma SkipIsCatchUp(f: Step, t: int, now: int, fuel: nat, k: nat)
    requires Forward(f, now) && t < now && now - t <= fuel && FirstBeyond(f, t, now, k)
    ensures
      CatchUp(f, t, now, fuel).next == Orbit(f, t, k) <==>
        forall j :: 1 <= j <= k ==> Orbit(f, t, j) != Some(now)
  {
    CatchUpFiresAll(f, t, now, fuel);
    var c := CatchUp(f, t, now, fuel);
    var n := |c.fired|;
    if n > k {
      assert false;
    }
    if n == k {
      forall j | 1 <= j <= k
        ensures Orbit(f, t, j) != Some(now)
      {
        if j < k {
          assert Orbit(f, t, j) == Some(c.fired[j]);
        }
      }
    } else {
      assert n >= 1;
      assert Orbit(f, t, n) == Some(now);
      assert Orbit(f, t, k) != Some(now);
    }
  }
}
