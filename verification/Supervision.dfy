/** The sentinel's pool of workers and the broker's list of cluster statistics: the two lists swept in place. */
module Supervision {
  import opened Sweep

  class Sentinel {
    var pool: seq<Key>
    var monitor: Key
    var pusher: Key
    var next: Key
    var reincarnations: nat

    /** Process identities are never reused. */
    ghost predicate Valid()
      reads this
    {
      && Good(pool, next)
      && monitor < next && pusher < next && monitor != pusher
      && monitor !in pool && pusher !in pool
    }

    /** spawn_cluster */
    constructor (poolSize: nat)
      ensures Valid() && |pool| == poolSize && reincarnations == 0
    {
      pool := Range(0, poolSize);
      monitor, pusher, next := poolSize, poolSize + 1, poolSize + 2;
      reincarnations := 0;
    }

    /** The three branches: the monitor, the pusher, a worker of the pool. */
    method Reincarnate(p: Key)
      requires Valid() && (p in pool || p == monitor || p == pusher)
      modifies this
      ensures Valid()
      ensures next == old(next) + 1 && reincarnations == old(reincarnations) + 1
      ensures monitor == if p == old(monitor) then old(next) else old(monitor)
      ensures pusher == if p == old(pusher) then old(next) else old(pusher)
      ensures pool == if p in old(pool) then Remove(old(pool), p) + [old(next)] else old(pool)
    {
      if p == monitor {
        monitor := next;
      } else if p == pusher {
        pusher := next;
      } else {
        RemoveGood(pool, p, next);
        JoinDistinct(Remove(pool, p), [next]);
        pool := Remove(pool, p);
        pool := pool + [next];
      }
      next := next + 1;
      reincarnations := reincarnations + 1;
    }

    /** The worker loop of one guard pass. `due`: not alive, or timed out. */
    method CheckWorkers(due: set<Key>)
      requires Valid() && forall x :: x in due ==> x < next
      modifies this
      ensures Valid() && monitor == old(monitor) && pusher == old(pusher)
      ensures pool == Pass(old(pool), due, true, old(next))
      ensures next - old(next) == reincarnations - old(reincarnations) == Removed(old(pool), due)
    {
      var i := 0;
      while i < |pool|
        invariant Valid() && monitor == old(monitor) && pusher == old(pusher)
        invariant old(next) <= next && next - old(next) == reincarnations - old(reincarnations)
        invariant i <= |pool| == |old(pool)|
        invariant PassFrom(pool, due, true, next, i) == Pass(old(pool), due, true, old(next))
        invariant if next == old(next) then pool == old(pool) else pool != [] && pool[|pool| - 1] == next - 1
        decreases |pool| - i
      {
        var p := pool[i];
        if p in due {
          Reincarnate(p);
        }
        i := i + 1;
      }
      LastSpawned(old(pool), due, old(next), next);
    }

    /** One turn of the guard's loop, as far as processes go. */
    method Guard(due: set<Key>)
      requires Valid() && forall x :: x in due ==> x < next
      modifies this
      ensures Valid()
      ensures pool == Pass(old(pool), due, true, old(next)) && |pool| == |old(pool)|
      ensures Due(pool, due) <= Due(old(pool), due) / 2
      ensures Live(old(pool), due) <= Live(pool, due)
      ensures old(next) <= next && monitor !in due && pusher !in due
      ensures (old(monitor) !in due ==> monitor == old(monitor)) && (old(pusher) !in due ==> pusher == old(pusher))
      ensures reincarnations - old(reincarnations) == Removed(old(pool), due) +
                (if old(monitor) in due then 1 else 0) + (if old(pusher) in due then 1 else 0)
    {
      OnePass(pool, due, true, next);
      CheckWorkers(due);
      if monitor in due {
        Reincarnate(monitor);
      }
      if pusher in due {
        Reincarnate(pusher);
      }
    }

    /** The guard's loop for so many turns in which nothing more becomes due: every due worker of a pool of
        n has been replaced after floor(log2 n) + 1 turns. */
    method GuardFor(due: set<Key>, turns: nat)
      requires Valid() && forall x :: x in due ==> x < next
      modifies this
      ensures Valid() && |pool| == |old(pool)|
      ensures Live(old(pool), due) <= Live(pool, due)
      ensures Due(pool, due) <= Halved(Due(old(pool), due), turns)
      ensures turns > Log2(|old(pool)|) ==> forall x :: x in pool ==> x !in due
      ensures turns > 0 ==> monitor !in due && pusher !in due
    {
      for t := 0 to turns
        invariant Valid() && |pool| == |old(pool)| && old(next) <= next
        invariant Live(old(pool), due) <= Live(pool, due)
        invariant Due(pool, due) <= Halved(Due(old(pool), due), t)
        invariant t > 0 ==> monitor !in due && pusher !in due
      {
        HalvedNext(Due(old(pool), due), t);
        Guard(due);
      }
      AtMostDue(old(pool), due);
      HalvedMono(Due(old(pool), due), |old(pool)|, turns);
      HalvedAway(|old(pool)|, turns);
      AtMostDue(pool, due);
    }

    /** The loop of stop that waits for the workers: one pass after another until the pool is empty, with
        the workers found dead in each. */
    method Drain(dead: seq<set<Key>>) returns (rounds: nat)
      requires Valid()
      modifies this`pool
      ensures Valid() && rounds <= |dead|
      ensures pool == Passes(old(pool), dead[..rounds], false, 0)
      ensures rounds == |dead| || pool == []
      ensures forall r :: 0 <= r < rounds ==> Passes(old(pool), dead[..r], false, 0) != []
    {
      rounds := 0;
      assert Passes(pool, dead[..0], false, 0) == pool;
      while |pool| > 0 && rounds < |dead|
        invariant Valid() && rounds <= |dead|
        invariant pool == Passes(old(pool), dead[..rounds], false, 0)
        invariant forall r :: 0 <= r < rounds ==> Passes(old(pool), dead[..r], false, 0) != []
        decreases |dead| - rounds
      {
        OneMorePass(old(pool), dead[..rounds], dead[rounds]);
        assert dead[..rounds] + [dead[rounds]] == dead[..rounds + 1];
        RemoveDead(dead[rounds]);
        rounds := rounds + 1;
      }
    }

    method RemoveDead(dead: set<Key>)
      requires Valid()
      modifies this`pool
      ensures Valid() && pool == Pass(old(pool), dead, false, 0)
    {
      var i := 0;
      while i < |pool|
        invariant Valid()
        invariant PassFrom(pool, dead, false, 0, i) == Pass(old(pool), dead, false, 0)
        decreases |pool| - i
      {
        var p := pool[i];
        if p in dead {
          RemoveGood(pool, p, next);
          NextUnused(Remove(pool, p), dead, 0, 1, i + 1);
          assert Remove(pool, p) + Refill(false, 0) == Remove(pool, p);
          pool := Remove(pool, p);
        }
        i := i + 1;
      }
    }
  }

  lemma {:induction false} RemoveGood(l: seq<Key>, p: Key, next: Key)
    requires Good(l, next) && p in l
    ensures Good(Remove(l, p), next) && p !in Remove(l, p) && forall x :: x in Remove(l, p) ==> x in l
  {
    DistinctParts(l, 1);
    assert forall x :: x in l <==> x == l[0] || x in l[1..];
    if l[0] != p {
      RemoveGood(l[1..], p, next);
      JoinDistinct([l[0]], Remove(l[1..], p));
    }
  }

  lemma {:induction false} NextUnused(l: seq<Key>, due: set<Key>, a: Key, b: Key, i: nat)
    ensures PassFrom(l, due, false, a, i) == PassFrom(l, due, false, b, i)
    decreases |l| - i
  {
    if i < |l| {
      if l[i] in due {
        NextUnused(Remove(l, l[i]) + Refill(false, a), due, a + 1, b + 1, i + 1);
      } else {
        NextUnused(l, due, a, b, i + 1);
      }
    }
  }

  lemma LastSpawned(l: seq<Key>, due: set<Key>, next: Key, after: Key)
    requires Good(l, next) && (forall x :: x in due ==> x < next) && next <= after
    requires var l' := Pass(l, due, true, next);
      if after == next then l' == l else l' != [] && l'[|l'| - 1] == after - 1
    ensures after == next + Removed(l, due)
  {
    PassResult(l, due, true, next);
    LeftComesFrom(l, due);
    EndsWith(Left(l, due), next, Removed(l, due));
  }

  lemma EndsWith(left: seq<Key>, next: Key, n: nat)
    ensures
      var l := left + Range(next, n);
      && (n > 0 ==> next + n - 1 in l && l[|l| - 1] == next + n - 1)
      && (n == 0 ==> l == left)
      && (l != [] ==> l[|l| - 1] in l)
  {
    var l := left + Range(next, n);
    if n > 0 {
      assert l[|l| - 1] == next + n - 1;
    }
  }

  lemma {:induction false} OneMorePass(l: seq<Key>, dues: seq<set<Key>>, due: set<Key>)
    ensures Passes(l, dues + [due], false, 0) == Pass(Passes(l, dues, false, 0), due, false, 0)
  {
    MorePasses(l, dues, due, 0);
  }

  lemma {:induction false} MorePasses(l: seq<Key>, dues: seq<set<Key>>, due: set<Key>, next: Key)
    ensures Passes(l, dues + [due], false, next) == Pass(Passes(l, dues, false, next), due, false, 0)
    decreases |dues|
  {
    if dues == [] {
      assert [] + [due] == [due];
      NextUnused(l, due, next, 0, 0);
      assert Passes(Pass(l, due, false, next), [], false, next + Removed(l, due)) == Pass(l, due, false, next);
    } else {
      assert (dues + [due])[1..] == dues[1..] + [due];
      MorePasses(Pass(l, dues[0], false, next), dues[1..], due, next + Removed(l, dues[0]));
    }
  }

  /** Once every worker is dead, stop's loop removes them all within floor(log2 n) + 1 passes; until then
      a live worker is never taken out. */
  lemma DrainEnds(pool: seq<Key>, next: Key, dead: set<Key>, passes: seq<set<Key>>)
    requires Good(pool, next) && (forall x :: x in pool ==> x in dead) && forall x :: x in dead ==> x < next
    requires |passes| > Log2(|pool|) && forall k :: 0 <= k < |passes| ==> passes[k] == dead
    ensures Passes(pool, passes, false, next) == []
  {
    AllGone(pool, dead, passes, false, next);
    StaysWithin(pool, passes, next);
    Inhabited(Passes(pool, passes, false, next));
  }

  lemma Inhabited(l: seq<Key>)
    ensures l != [] ==> exists x :: x in l
  {
    if l != [] {
      assert l[0] in l;
    }
  }

  lemma {:induction false} StaysWithin(l: seq<Key>, dues: seq<set<Key>>, next: Key)
    requires Good(l, next) && forall k, x :: 0 <= k < |dues| && x in dues[k] ==> x < next
    ensures forall x :: x in Passes(l, dues, false, next) ==> x in l
    decreases |dues|
  {
    if dues != [] {
      PassResult(l, dues[0], false, next);
      GoodAfter(l, dues[0], false, next);
      LeftComesFrom(l, dues[0]);
      assert forall k :: 0 <= k < |dues[1..]| ==> dues[1..][k] == dues[k + 1];
      StaysWithin(Pass(l, dues[0], false, next), dues[1..], next + Removed(l, dues[0]));
    }
  }

  // ---------------------------------------------------------------- cluster statistics

  type Stat = int

  /** The cached master list of keys, and the cached statistics, which expire on their own. */
  class StatCache {
    var keys: seq<Key>
    var stats: map<Key, Stat>

    constructor ()
      ensures keys == [] && stats == map[]
    {
      keys, stats := [], map[];
    }

    /** set_stat: a key not listed yet first clears the list of expired ones. */
    method SetStat(key: Key, value: Stat)
      requires Distinct(keys)
      modifies this
      ensures Distinct(keys)
      ensures forall k :: k in keys <==> k == key || (k in old(keys) && (key in old(keys) || k in old(stats)))
      ensures keys == if key in old(keys) then old(keys) else Live(old(keys), Expired(old(keys), old(stats))) + [key]
      ensures stats == old(stats)[key := value]
    {
      if key !in keys {
        var list, live := keys, [];
        ghost var gone := Expired(list, stats);
        for i := 0 to |list|
          invariant live == Live(list[..i], gone) && keys == list && stats == old(stats)
        {
          assert list[..i + 1] == list[..i] + [list[i]];
          LiveJoin(list[..i], [list[i]], gone);
          if list[i] in stats {
            live := live + [list[i]];
          }
        }
        assert list[..|list|] == list;
        LiveDistinct(list, gone);
        forall k
          ensures k in live <==> k in list && k in stats
        {
          InLive(list, gone, k);
        }
        JoinDistinct(live, [key]);
        keys := live + [key];
      }
      stats := stats[key := value];
    }

    /** get_stats: reports the live keys it meets and removes the expired ones while iterating. */
    method GetStats() returns (found: seq<Key>)
      requires Distinct(keys)
      modifies this`keys
      ensures Distinct(keys) && keys == Pass(old(keys), Expired(old(keys), stats), false, 0)
      ensures found == Met(old(keys), Expired(old(keys), stats))
      ensures found == Live(old(keys), Expired(old(keys), stats)) <==> EvenGaps(old(keys), Expired(old(keys), stats))
      ensures forall k :: k in found ==> k in stats
    {
      found := [];
      var i := 0;
      ghost var gone := Expired(keys, stats);
      while i < |keys|
        invariant Distinct(keys) && forall k :: k in keys ==> k in old(keys)
        invariant PassFrom(keys, gone, false, 0, i) == Pass(old(keys), gone, false, 0)
        invariant found + Met(keys[if i < |keys| then i else |keys|..], gone) == Met(old(keys), gone)
        invariant forall k :: k in found ==> k in stats
        decreases |keys| - i
      {
        var key := keys[i];
        assert keys[i..][0] == key && keys[i..][1..] == keys[i + 1..];
        if key in stats {
          found := found + [key];
        } else {
          RemoveMet(keys, i, gone);
          keys := Remove(keys, key);
        }
        i := i + 1;
      }
      OneCallReportsAll(old(keys), gone);
    }
  }

  ghost function Expired(keys: seq<Key>, stats: map<Key, Stat>): set<Key> {
    set k | k in keys && k !in stats
  }

  lemma RemoveMet(keys: seq<Key>, i: nat, gone: set<Key>)
    requires Distinct(keys) && i < |keys| && keys[i] in gone
    ensures
      var rest := Remove(keys, keys[i]);
      && Distinct(rest) && (forall k :: k in rest ==> k in keys)
      && PassFrom(keys, gone, false, 0, i) == PassFrom(rest, gone, false, 0, i + 1)
      && Met(keys[i..], gone) == Met(rest[if i + 1 < |rest| then i + 1 else |rest|..], gone)
  {
    var rest := Remove(keys, keys[i]);
    NextUnused(rest, gone, 0, 1, i + 1);
    assert rest + Refill(false, 0) == rest;
    FirstOfItsKind(keys, i);
    RemoveAt(keys, i);
    assert i + 1 < |keys| ==> keys[i..][2..] == rest[i + 1..];
    RemoveDistinct(keys, keys[i]);
  }

  /** The live keys a pass looks at: the one after an expired key is not among them. */
  function Met(s: seq<Key>, due: set<Key>): seq<Key> {
    if s == [] then []
    else if s[0] !in due then [s[0]] + Met(s[1..], due)
    else if |s| == 1 then []
    else Met(s[2..], due)
  }

  lemma {:induction false} RemoveDistinct(l: seq<Key>, p: Key)
    requires Distinct(l)
    ensures Distinct(Remove(l, p)) && forall x :: x in Remove(l, p) ==> x in l
  {
    if l != [] {
      DistinctParts(l, 1);
      assert forall x :: x in l <==> x == l[0] || x in l[1..];
      if l[0] != p {
        RemoveDistinct(l[1..], p);
        JoinDistinct([l[0]], Remove(l[1..], p));
      }
    }
  }

  lemma {:induction false} LiveDistinct(l: seq<Key>, due: set<Key>)
    requires Distinct(l)
    ensures Distinct(Live(l, due))
  {
    if l != [] {
      DistinctParts(l, 1);
      LiveDistinct(l[1..], due);
      InLive(l[1..], due, l[0]);
      JoinDistinct([l[0]], Live(l[1..], due));
      assert [] + Live(l[1..], due) == Live(l[1..], due);
    }
  }

  /** How many expired keys stand directly in front of index i. */
  function Gap(s: seq<Key>, due: set<Key>, i: nat): nat
    requires i <= |s|
  {
    if i == 0 || s[i - 1] !in due then 0 else 1 + Gap(s, due, i - 1)
  }

  /** Every live key stands behind an even number of expired ones, none included. */
  ghost predicate EvenGaps(s: seq<Key>, due: set<Key>) {
    forall i :: 0 <= i < |s| && s[i] !in due ==> Gap(s, due, i) % 2 == 0
  }

  lemma {:induction false} GapBehind(s: seq<Key>, due: set<Key>, k: nat, i: nat)
    requires k <= i <= |s|
    ensures
      var rest, whole := Gap(s[k..], due, i - k), Gap(s, due, i);
      && (rest < i - k ==> whole == rest)
      && (rest == i - k ==> whole == rest + Gap(s, due, k))
    ensures Gap(s[k..], due, i - k) <= i - k
  {
    if i > k {
      assert s[k..][i - k - 1] == s[i - 1];
      GapBehind(s, due, k, i - 1);
    }
  }

  lemma GapParity(s: seq<Key>, due: set<Key>, k: nat)
    requires k <= |s| && Gap(s, due, k) % 2 == 0
    ensures forall i :: k <= i <= |s| ==> Gap(s, due, i) % 2 == Gap(s[k..], due, i - k) % 2
  {
    forall i | k <= i <= |s|
      ensures Gap(s, due, i) % 2 == Gap(s[k..], due, i - k) % 2
    {
      GapBehind(s, due, k, i);
    }
  }

  lemma EvenGapsBehind(s: seq<Key>, due: set<Key>, k: nat)
    requires k <= |s| && Gap(s, due, k) % 2 == 0
    requires forall i :: 0 <= i < k && s[i] !in due ==> Gap(s, due, i) % 2 == 0
    ensures EvenGaps(s, due) <==> EvenGaps(s[k..], due)
  {
    GapParity(s, due, k);
    assert forall i :: k <= i < |s| ==> s[i] == s[k..][i - k];
    if EvenGaps(s, due) {
      forall i | 0 <= i < |s[k..]| && s[k..][i] !in due
        ensures Gap(s[k..], due, i) % 2 == 0
      {
        assert s[k + i] == s[k..][i];
      }
    }
  }

  lemma {:induction false} MetIsLive(s: seq<Key>, due: set<Key>)
    ensures |Met(s, due)| <= |Live(s, due)|
    ensures |Met(s, due)| == |Live(s, due)| ==> Met(s, due) == Live(s, due)
  {
    if s == [] {
    } else if s[0] !in due {
      MetIsLive(s[1..], due);
    } else if |s| > 1 {
      MetIsLive(s[2..], due);
      assert s[1..][1..] == s[2..];
    }
  }

  lemma SameHead(x: Key, a: seq<Key>, b: seq<Key>)
    ensures [x] + a == [x] + b <==> a == b
  {
    assert ([x] + a)[1..] == a && ([x] + b)[1..] == b;
  }

  /** One call reports every live cluster, in the list's order, exactly when every live key stands behind
      an even number of expired ones. */
  lemma {:induction false} OneCallReportsAll(s: seq<Key>, due: set<Key>)
    ensures Met(s, due) == Live(s, due) <==> EvenGaps(s, due)
    decreases |s|
  {
    if |s| == 0 {
    } else if s[0] !in due {
      OneCallReportsAll(s[1..], due);
      SameHead(s[0], Met(s[1..], due), Live(s[1..], due));
      EvenGapsBehind(s, due, 1);
    } else if |s| == 1 {
      assert Live(s, due) == [] + Live([], due);
    } else if s[1] in due {
      OneCallReportsAll(s[2..], due);
      assert s[1..][1..] == s[2..] && Live(s, due) == [] + ([] + Live(s[2..], due));
      assert Gap(s, due, 0) == 0 && Gap(s, due, 1) == 1 && Gap(s, due, 2) == 2;
      EvenGapsBehind(s, due, 2);
    } else {
      SkippedOne(s, due);
    }
  }

  /** A live key right behind an expired first one is skipped. */
  lemma SkippedOne(s: seq<Key>, due: set<Key>)
    requires |s| > 1 && s[0] in due && s[1] !in due
    ensures Met(s, due) != Live(s, due) && !EvenGaps(s, due)
  {
    MetIsLive(s[2..], due);
    assert s[1..][1..] == s[2..] && Live(s, due) == [] + ([s[1]] + Live(s[2..], due));
    assert Gap(s, due, 0) == 0 && Gap(s, due, 1) == 1;
  }

  lemma {:induction false} NothingExpired(l: seq<Key>, due: set<Key>)
    requires forall x :: x in l ==> x !in due
    ensures Met(l, due) == l && Live(l, due) == l
  {
    if l != [] {
      NothingExpired(l[1..], due);
    }
  }

  /** Repeated calls, nothing expiring in between, never drop a live key, and after floor(log2 n) + 1 of
      them the list is exactly the live keys, in their old order, and the next call reports them all. */
  lemma CallsConverge(keys: seq<Key>, next: Key, gone: set<Key>, calls: seq<set<Key>>)
    requires Good(keys, next) && forall x :: x in gone ==> x < next
    requires forall k :: 0 <= k < |calls| ==> calls[k] == gone
    ensures
      var l := Passes(keys, calls, false, next);
      && Live(l, gone) == Live(keys, gone)
      && (|calls| > Log2(|keys|) ==> l == Live(keys, gone) && Met(l, gone) == Live(keys, gone))
  {
    LiveStays(keys, gone, calls, next);
    if |calls| > Log2(|keys|) {
      AllGone(keys, gone, calls, false, next);
      NothingExpired(Passes(keys, calls, false, next), gone);
    }
  }

  /** get_stats writes back what is left of the list it read. So a live cluster is listed after the call if and
      only if it was listed when the call began: one that registers in between is lost from the list, and not
      reported, until its next set_stat. */
  lemma ListedAfterIffBefore(read: seq<Key>, next: Key, gone: set<Key>, key: Key)
    requires Good(read, next) && (forall x :: x in gone ==> x < next) && key !in gone
    ensures key in Pass(read, gone, false, next) <==> key in read
  {
    OnePass(read, gone, false, next);
    InLive(read, gone, key);
    InLive(Pass(read, gone, false, next), gone, key);
  }

  lemma {:induction false} LiveStays(l: seq<Key>, due: set<Key>, dues: seq<set<Key>>, next: Key)
    requires Good(l, next) && forall x :: x in due ==> x < next
    requires forall k :: 0 <= k < |dues| ==> dues[k] == due
    ensures Live(Passes(l, dues, false, next), due) == Live(l, due)
    decreases |dues|
  {
    if dues != [] {
      OnePass(l, due, false, next);
      LiveStays(Pass(l, due, false, next), due, dues[1..], next + Removed(l, due));
    }
  }
}
