/** The save limit: how far several monitors can overshoot it, and what one monitor keeps. */
module SaveLimit {
  import opened Arithmetic
  import opened Options
  import opened TaskTable
  import opened SaveTask

  // ---------------------------------------------------------------- several monitors

  /** Where a monitor is: between results, past the pruning of one, or past the get of its row as well. */
  datatype Phase = Idle | Cleared(p: Package) | Looked(p: Package, found: Option<Row>)

  datatype Monitors = Monitors(table: Table, phases: seq<Phase>)

  datatype Step = Begin(m: nat, p: Package) | Look(m: nat) | Write(m: nat) | Dies(m: nat)

  ghost predicate Enabled(conf: Conf, s: Monitors, st: Step) {
    st.m < |s.phases| &&
    match st
    case Begin(m, p) => s.phases[m].Idle? && Kept(conf, p)
    case Look(m) => s.phases[m].Cleared?
    case Write(m) => s.phases[m].Looked?
    case Dies(m) => true
  }

  /** The row as a monitor's get finds it. */
  function Seen(t: Table, p: Package): Phase {
    Looked(p, Found(t, p.id, p.meta))
  }

  /** The table after a monitor in this phase has written. */
  function WrittenBy(t: Table, ph: Phase): Table
    requires ph.Looked?
  {
    Written(t, ph.p.id, ph.found, ph.p.meta, ph.p.out)
  }

  ghost function After(conf: Conf, s: Monitors, st: Step): Monitors
    requires Enabled(conf, s, st)
  {
    match st
    case Begin(m, p) => Monitors(Pruned(conf, s.table, p), s.phases[m := Cleared(p)])
    case Look(m) => s.(phases := s.phases[m := Seen(s.table, s.phases[m].p)])
    case Write(m) => Monitors(WrittenBy(s.table, s.phases[m]), s.phases[m := Idle])
    case Dies(m) => s.(phases := s.phases[m := Idle])
  }

  /** Two packages compete for the same limit. */
  predicate SameKey(per: Per, a: Meta, b: Meta) {
    match per
    case Global => true
    case PerGroup => a.group == b.group
    case PerName => a.name == b.name
    case PerFunc => a.func == b.func
  }

  function Weight(per: Per, q: Meta, ph: Phase): nat {
    if !ph.Idle? && ph.p.out.success && SameKey(per, ph.p.meta, q) then 1 else 0
  }

  /** Monitors about to save a success that counts against the limit of q. */
  function Saving(per: Per, q: Meta, phases: seq<Phase>): nat {
    if phases == [] then 0 else Weight(per, q, phases[0]) + Saving(per, q, phases[1..])
  }

  lemma {:induction false} SavingUpdate(per: Per, q: Meta, phases: seq<Phase>, m: nat, ph: Phase)
    requires m < |phases|
    ensures Saving(per, q, phases[m := ph]) + Weight(per, q, phases[m]) == Saving(per, q, phases) + Weight(per, q, ph)
  {
    if m > 0 {
      assert phases[m := ph][1..] == phases[1..][m - 1 := ph];
      SavingUpdate(per, q, phases[1..], m - 1, ph);
    } else {
      assert phases[m := ph][1..] == phases[1..];
    }
  }

  lemma {:induction false} SavingAtMost(per: Per, q: Meta, phases: seq<Phase>)
    ensures Saving(per, q, phases) <= |phases|
  {
    if phases != [] {
      SavingAtMost(per, q, phases[1..]);
    }
  }

  /** A package keeps its id, name, function and group through every retry. */
  ghost predicate Consistent(metaOf: Id -> Meta, s: Monitors) {
    && (forall id :: id in s.table ==> s.table[id].meta == metaOf(id))
    && (forall m :: 0 <= m < |s.phases| ==> Named(metaOf, s.phases[m]))
  }

  predicate Named(metaOf: Id -> Meta, ph: Phase) {
    && (!ph.Idle? ==> ph.p.meta == metaOf(ph.p.id))
    && (ph.Looked? && ph.found.Some? ==> ph.found.value.meta == metaOf(ph.p.id))
  }

  ghost predicate WithinLimit(conf: Conf, q: Meta, s: Monitors) {
    |Successes(s.table, conf.per, q)| + Saving(conf.per, q, s.phases) <= conf.limit + |s.phases| - 1
  }

  lemma PruningShrinks(conf: Conf, t: Table, p: Package, q: Meta)
    ensures Successes(Pruned(conf, t, p), conf.per, q) <= Successes(t, conf.per, q)
    ensures |Successes(Pruned(conf, t, p), conf.per, q)| <= |Successes(t, conf.per, q)|
  {
    SubsetSize(Successes(Pruned(conf, t, p), conf.per, q), Successes(t, conf.per, q));
  }

  /** A package that saves a success under the limit of q first brings that limit below SAVE_LIMIT. */
  lemma PruningMakesRoom(conf: Conf, t: Table, p: Package, q: Meta)
    requires conf.limit > 0 && !conf.per.PerGroup? && p.out.success && SameKey(conf.per, p.meta, q)
    ensures
      var n := |Successes(t, conf.per, q)|;
      |Successes(Pruned(conf, t, p), conf.per, q)| == if n >= conf.limit then n - 1 else n
  {
    var s := Successes(t, conf.per, q);
    assert s == Successes(t, conf.per, p.meta);
    var v := Victim(conf, t, p);
    if v.Some? {
      assert Successes(Pruned(conf, t, p), conf.per, q) == s - {v.value};
    }
  }

  lemma WritingAddsOne(t: Table, ph: Phase, per: Per, q: Meta)
    requires !per.PerGroup? && ph.Looked? && (ph.found.Some? ==> ph.found.value.meta == ph.p.meta)
    ensures |Successes(WrittenBy(t, ph), per, q)| <= |Successes(t, per, q)| + Weight(per, q, ph)
  {
    var s, s' := Successes(t, per, q), Successes(WrittenBy(t, ph), per, q);
    if Weight(per, q, ph) == 1 {
      SubsetSize(s', s + {ph.p.id});
    } else {
      SubsetSize(s', s);
    }
  }

  lemma StepWithinLimit(conf: Conf, metaOf: Id -> Meta, q: Meta, s: Monitors, st: Step)
    requires conf.limit > 0 && !conf.per.PerGroup?
    requires Enabled(conf, s, st) && Consistent(metaOf, s) && WithinLimit(conf, q, s)
    requires st.Begin? ==> st.p.meta == metaOf(st.p.id)
    ensures Consistent(metaOf, After(conf, s, st)) && WithinLimit(conf, q, After(conf, s, st))
  {
    var s' := After(conf, s, st);
    SavingUpdate(conf.per, q, s.phases, st.m, s'.phases[st.m]);
    match st {
      case Begin(m, p) =>
        PruningShrinks(conf, s.table, p, q);
        if p.out.success && SameKey(conf.per, p.meta, q) {
          PruningMakesRoom(conf, s.table, p, q);
          SavingAtMost(conf.per, q, s'.phases);
        }
      case Look(m) =>
      case Write(m) =>
        WritingAddsOne(s.table, s.phases[m], conf.per, q);
      case Dies(m) =>
    }
  }

  /** The i-th step is possible and leads on to the next state; packages carry what belongs to their id. */
  ghost predicate Follows(conf: Conf, metaOf: Id -> Meta, tr: seq<Monitors>, sts: seq<Step>, i: nat)
    requires i < |sts| && |tr| == |sts| + 1
  {
    && Enabled(conf, tr[i], sts[i]) && tr[i + 1] == After(conf, tr[i], sts[i])
    && (sts[i].Begin? ==> sts[i].p.meta == metaOf(sts[i].p.id))
  }

  ghost predicate Run(conf: Conf, metaOf: Id -> Meta, tr: seq<Monitors>, sts: seq<Step>) {
    |tr| == |sts| + 1 && forall i :: 0 <= i < |sts| ==> Follows(conf, metaOf, tr, sts, i)
  }

  /** With M monitors, successes stored plus monitors about to store one never exceed SAVE_LIMIT + M - 1,
      in any interleaving from an empty table. */
  lemma {:induction false} OvershootIsBounded(conf: Conf, metaOf: Id -> Meta, q: Meta, tr: seq<Monitors>,
      sts: seq<Step>, i: nat)
    requires conf.limit > 0 && !conf.per.PerGroup? && Run(conf, metaOf, tr, sts) && i < |tr|
    requires tr[0].table == map[] && |tr[0].phases| > 0
    requires forall m :: 0 <= m < |tr[0].phases| ==> tr[0].phases[m] == Idle
    ensures |tr[i].phases| == |tr[0].phases|
    ensures Consistent(metaOf, tr[i])
    ensures |Successes(tr[i].table, conf.per, q)| + Saving(conf.per, q, tr[i].phases) <=
      conf.limit + |tr[0].phases| - 1
  {
    if i == 0 {
      NobodySaving(conf.per, q, tr[0].phases);
      assert Successes(tr[0].table, conf.per, q) == {};
    } else {
      OvershootIsBounded(conf, metaOf, q, tr, sts, i - 1);
      assert Follows(conf, metaOf, tr, sts, i - 1);
      StepWithinLimit(conf, metaOf, q, tr[i - 1], sts[i - 1]);
    }
  }

  lemma {:induction false} NobodySaving(per: Per, q: Meta, phases: seq<Phase>)
    requires forall m :: 0 <= m < |phases| ==> phases[m] == Idle
    ensures Saving(per, q, phases) == 0
  {
    if phases != [] {
      NobodySaving(per, q, phases[1..]);
    }
  }

  /** Some interleaving leads there. */
  ghost predicate Reachable(conf: Conf, metaOf: Id -> Meta, s0: Monitors, s: Monitors) {
    exists tr, sts :: Run(conf, metaOf, tr, sts) && tr[0] == s0 && tr[|sts|] == s
  }

  lemma ReachStart(conf: Conf, metaOf: Id -> Meta, s0: Monitors)
    ensures Reachable(conf, metaOf, s0, s0)
  {
    assert Run(conf, metaOf, [s0], []);
  }

  lemma ReachNext(conf: Conf, metaOf: Id -> Meta, s0: Monitors, s: Monitors, st: Step)
    requires Reachable(conf, metaOf, s0, s) && Enabled(conf, s, st)
    requires st.Begin? ==> st.p.meta == metaOf(st.p.id)
    ensures Reachable(conf, metaOf, s0, After(conf, s, st))
  {
    var tr, sts :| Run(conf, metaOf, tr, sts) && tr[0] == s0 && tr[|sts|] == s;
    var tr', sts' := tr + [After(conf, s, st)], sts + [st];
    assert Run(conf, metaOf, tr', sts') by {
      forall i | 0 <= i < |sts'|
        ensures Follows(conf, metaOf, tr', sts', i)
      {
        if i < |sts| {
          assert Follows(conf, metaOf, tr, sts, i);
        }
      }
    }
  }

  /** Successes of different tasks that all count against the limit of q. */
  ghost predicate AllCount(conf: Conf, metaOf: Id -> Meta, q: Meta, ps: seq<Package>) {
    && (forall i :: 0 <= i < |ps| ==> ps[i].out.success && ps[i].meta == q == metaOf(ps[i].id) && Kept(conf, ps[i]))
    && (forall i, j :: 0 <= i < j < |ps| ==> ps[i].id != ps[j].id)
  }

  function StoredAll(ps: seq<Package>): Table {
    if ps == [] then map[] else Stored(StoredAll(ps[..|ps| - 1]), ps[|ps| - 1])
  }

  lemma StoringNew(t: Table, p: Package, per: Per)
    requires p.id !in t && p.out.success && !per.PerGroup?
    ensures Stored(t, p).Keys == t.Keys + {p.id}
    ensures Successes(Stored(t, p), per, p.meta) == Successes(t, per, p.meta) + {p.id}
  {
  }

  lemma IdsOfOneMore(ps: seq<Package>, p: Package)
    ensures IdsOf(ps + [p]) == IdsOf(ps) + {p.id}
  {
    forall id | id in IdsOf(ps) + {p.id}
      ensures id in IdsOf(ps + [p])
    {
      if id == p.id {
        assert (ps + [p])[|ps|].id == id;
      } else {
        var i :| 0 <= i < |ps| && ps[i].id == id;
        assert (ps + [p])[i].id == id;
      }
    }
  }

  lemma {:induction false} EachIsASuccess(conf: Conf, metaOf: Id -> Meta, q: Meta, ps: seq<Package>)
    requires AllCount(conf, metaOf, q, ps) && !conf.per.PerGroup?
    ensures StoredAll(ps).Keys == IdsOf(ps)
    ensures Successes(StoredAll(ps), conf.per, q) == IdsOf(ps) && |IdsOf(ps)| == |ps|
  {
    if ps == [] {
      assert IdsOf(ps) == {};
    } else {
      var before, p := ps[..|ps| - 1], ps[|ps| - 1];
      EachIsASuccess(conf, metaOf, q, before);
      assert ps == before + [p];
      IdsOfOneMore(before, p);
      assert p.id !in IdsOf(before);
      StoringNew(StoredAll(before), p, conf.per);
    }
  }

  function AtRest(monitors: nat): Monitors {
    Monitors(map[], seq(monitors, _ => Idle))
  }

  /** Monitors lo to hi - 1 hold a package each, from ps[at] on. */
  function Holding(ps: seq<Package>, at: nat, lo: nat, hi: nat, monitors: nat): seq<Phase>
    requires at + hi <= |ps| && lo <= hi <= monitors
  {
    seq(monitors, i requires 0 <= i < monitors => if lo <= i < hi then Cleared(ps[at + i]) else Idle)
  }

  /** A step from one of these states leads to another of them. */
  ghost predicate Closed(conf: Conf, metaOf: Id -> Meta, reach: Monitors -> bool) {
    forall s, st :: reach(s) && Enabled(conf, s, st) && (st.Begin? ==> st.p.meta == metaOf(st.p.id)) ==>
      reach(After(conf, s, st))
  }

  lemma BeginBelow(
      conf: Conf, metaOf: Id -> Meta, reach: Monitors -> bool, s: Monitors, m: nat, p: Package, phases: seq<Phase>)
    requires Closed(conf, metaOf, reach) && reach(s)
    requires m < |s.phases| && s.phases[m].Idle? && phases == s.phases[m := Cleared(p)]
    requires Kept(conf, p) && p.meta == metaOf(p.id) && |Successes(s.table, conf.per, p.meta)| < conf.limit
    ensures reach(Monitors(s.table, phases))
  {
    assert Enabled(conf, s, Begin(m, p));
    assert After(conf, s, Begin(m, p)) == Monitors(s.table, phases);
  }

  /** The get and the write of one monitor, with nothing in between. */
  lemma FinishOne(
      conf: Conf, metaOf: Id -> Meta, reach: Monitors -> bool, s: Monitors, m: nat, p: Package, phases: seq<Phase>)
    requires Closed(conf, metaOf, reach) && reach(s)
    requires m < |s.phases| && s.phases[m] == Cleared(p) && phases == s.phases[m := Idle]
    ensures reach(Monitors(Stored(s.table, p), phases))
  {
    assert Enabled(conf, s, Look(m));
    var s' := After(conf, s, Look(m));
    assert Enabled(conf, s', Write(m));
    assert s'.phases[m := Idle] == phases;
    assert After(conf, s', Write(m)) == Monitors(Stored(s.table, p), phases);
  }

  lemma {:induction false} FillTo(
      conf: Conf, metaOf: Id -> Meta, q: Meta, ps: seq<Package>, reach: Monitors -> bool, monitors: nat, k: nat)
    requires AllCount(conf, metaOf, q, ps) && !conf.per.PerGroup? && monitors > 0 && k <= |ps| && k < conf.limit
    requires Closed(conf, metaOf, reach) && reach(AtRest(monitors))
    ensures reach(Monitors(StoredAll(ps[..k]), AtRest(monitors).phases))
    decreases k
  {
    if k > 0 {
      FillTo(conf, metaOf, q, ps, reach, monitors, k - 1);
      SuccessesSoFar(conf, metaOf, q, ps, k - 1);
      var idle, p := AtRest(monitors).phases, ps[k - 1];
      var s := Monitors(StoredAll(ps[..k - 1]), idle);
      BeginBelow(conf, metaOf, reach, s, 0, p, idle[0 := Cleared(p)]);
      assert idle[0 := Cleared(p)][0 := Idle] == idle;
      FinishOne(conf, metaOf, reach, Monitors(s.table, idle[0 := Cleared(p)]), 0, p, idle);
      StoredNext(ps, k);
    }
  }

  lemma StoredNext(ps: seq<Package>, k: nat)
    requires 0 < k <= |ps|
    ensures StoredAll(ps[..k]) == Stored(StoredAll(ps[..k - 1]), ps[k - 1])
  {
    assert ps[..k][..k - 1] == ps[..k - 1];
  }

  lemma {:induction false} AllBegin(
      conf: Conf, metaOf: Id -> Meta, q: Meta, ps: seq<Package>, at: nat, t: Table, reach: Monitors -> bool,
      monitors: nat, m: nat)
    requires AllCount(conf, metaOf, q, ps) && m <= monitors && at + monitors <= |ps|
    requires |Successes(t, conf.per, q)| < conf.limit
    requires Closed(conf, metaOf, reach) && reach(Monitors(t, Holding(ps, at, 0, 0, monitors)))
    ensures reach(Monitors(t, Holding(ps, at, 0, m, monitors)))
    decreases m
  {
    if m > 0 {
      AllBegin(conf, metaOf, q, ps, at, t, reach, monitors, m - 1);
      var s := Monitors(t, Holding(ps, at, 0, m - 1, monitors));
      BeginBelow(conf, metaOf, reach, s, m - 1, ps[at + m - 1], Holding(ps, at, 0, m, monitors));
    }
  }

  lemma {:induction false} AllFinish(
      conf: Conf, metaOf: Id -> Meta, q: Meta, ps: seq<Package>, reach: Monitors -> bool, monitors: nat, m: nat)
    requires m <= monitors && conf.limit > 0 && |ps| == conf.limit - 1 + monitors
    requires Closed(conf, metaOf, reach)
    requires reach(Monitors(StoredAll(ps[..conf.limit - 1]), Holding(ps, conf.limit - 1, 0, monitors, monitors)))
    ensures
      reach(Monitors(StoredAll(ps[..conf.limit - 1 + m]), Holding(ps, conf.limit - 1, m, monitors, monitors)))
    decreases m
  {
    if m > 0 {
      var k := conf.limit - 1;
      AllFinish(conf, metaOf, q, ps, reach, monitors, m - 1);
      var s := Monitors(StoredAll(ps[..k + m - 1]), Holding(ps, k, m - 1, monitors, monitors));
      FinishOne(conf, metaOf, reach, s, m - 1, ps[k + m - 1], Holding(ps, k, m, monitors, monitors));
      StoredNext(ps, k + m);
    }
  }

  lemma NoneHolding(ps: seq<Package>, at: nat, monitors: nat)
    requires at + monitors <= |ps|
    ensures Holding(ps, at, 0, 0, monitors) == AtRest(monitors).phases == Holding(ps, at, monitors, monitors, monitors)
  {
  }

  lemma SuccessesSoFar(conf: Conf, metaOf: Id -> Meta, q: Meta, ps: seq<Package>, k: nat)
    requires AllCount(conf, metaOf, q, ps) && !conf.per.PerGroup? && k <= |ps|
    ensures |Successes(StoredAll(ps[..k]), conf.per, q)| == k
  {
    EachIsASuccess(conf, metaOf, q, ps[..k]);
  }

  lemma AllAtOnce(
      conf: Conf, metaOf: Id -> Meta, q: Meta, ps: seq<Package>, reach: Monitors -> bool, monitors: nat)
    requires conf.limit > 0 && !conf.per.PerGroup? && monitors > 0
    requires AllCount(conf, metaOf, q, ps) && |ps| == conf.limit + monitors - 1
    requires Closed(conf, metaOf, reach) && reach(AtRest(monitors))
    ensures reach(Monitors(StoredAll(ps), AtRest(monitors).phases))
  {
    var k := conf.limit - 1;
    FillTo(conf, metaOf, q, ps, reach, monitors, k);
    NoneHolding(ps, k, monitors);
    SuccessesSoFar(conf, metaOf, q, ps, k);
    AllBegin(conf, metaOf, q, ps, k, StoredAll(ps[..k]), reach, monitors, monitors);
    AllFinish(conf, metaOf, q, ps, reach, monitors, monitors);
    TakeAll(ps, k + monitors);
  }

  lemma TakeAll(ps: seq<Package>, n: nat)
    requires n == |ps|
    ensures ps[..n] == ps
  {
  }

  /** The bound is reached, for every limit and every number of monitors: with so many successes to save
      there is an interleaving that leaves all of them in the table. */
  lemma OvershootHappens(conf: Conf, metaOf: Id -> Meta, q: Meta, ps: seq<Package>, monitors: nat)
    requires conf.limit > 0 && !conf.per.PerGroup? && monitors > 0
    requires AllCount(conf, metaOf, q, ps) && |ps| == conf.limit + monitors - 1
    ensures
      exists s ::
        && Reachable(conf, metaOf, AtRest(monitors), s)
        && |Successes(s.table, conf.per, q)| == conf.limit + monitors - 1
  {
    var reach: Monitors -> bool := s => Reachable(conf, metaOf, AtRest(monitors), s);
    ReachStart(conf, metaOf, AtRest(monitors));
    forall s, st | reach(s) && Enabled(conf, s, st) && (st.Begin? ==> st.p.meta == metaOf(st.p.id))
      ensures reach(After(conf, s, st))
    {
      ReachNext(conf, metaOf, AtRest(monitors), s, st);
    }
    AllAtOnce(conf, metaOf, q, ps, reach, monitors);
    SuccessesSoFar(conf, metaOf, q, ps, |ps|);
    assert ps[..|ps|] == ps;
  }

  // ---------------------------------------------------------------- one monitor

  ghost function SaveAll(conf: Conf, ps: seq<Package>): Table {
    if ps == [] then map[] else Saved(conf, SaveAll(conf, ps[..|ps| - 1]), ps[|ps| - 1])
  }

  /** The successes among the results, in order of arrival. */
  function Wins(ps: seq<Package>): seq<Package> {
    if ps == [] then []
    else if ps[|ps| - 1].out.success then Wins(ps[..|ps| - 1]) + [ps[|ps| - 1]]
    else Wins(ps[..|ps| - 1])
  }

  function Newest(w: seq<Package>, n: nat): seq<Package> {
    if |w| <= n then w else w[|w| - n..]
  }

  /** Successes arrive in the order they stopped, each for a task that has not succeeded before. */
  ghost predicate Ordered(w: seq<Package>) {
    && (forall i, j :: 0 <= i < j < |w| ==> w[i].out.stopped < w[j].out.stopped && w[i].id != w[j].id)
    && (forall i :: 0 <= i < |w| ==> w[i].out.success)
  }

  function IdsOf(w: seq<Package>): set<Id> {
    set i | 0 <= i < |w| :: w[i].id
  }

  /** The Success table is exactly these packages. */
  ghost predicate Holds(t: Table, w: seq<Package>) {
    && (forall i :: 0 <= i < |w| ==> w[i].id in t && t[w[i].id].out == w[i].out)
    && (forall id :: id in t && t[id].out.success ==> id in IdsOf(w))
  }

  ghost predicate Writes(metaOf: Id -> Meta, t: Table) {
    forall id :: id in t ==> t[id].meta == metaOf(id)
  }

  lemma {:induction false} IdsOfSize(w: seq<Package>)
    requires Ordered(w)
    ensures |IdsOf(w)| == |w|
  {
    if w == [] {
      assert IdsOf(w) == {};
    } else {
      var n := |w| - 1;
      IdsOfSize(w[..n]);
      assert forall i :: 0 <= i < n ==> w[..n][i] == w[i];
      assert IdsOf(w) == IdsOf(w[..n]) + {w[n].id};
      assert w[n].id !in IdsOf(w[..n]);
    }
  }

  lemma SuccessesAreTheWindow(t: Table, meta: Meta, w: seq<Package>)
    requires Holds(t, w) && Ordered(w)
    ensures Successes(t, Global, meta) == IdsOf(w) && |Successes(t, Global, meta)| == |w|
  {
    IdsOfSize(w);
    forall i | 0 <= i < |w| ensures w[i].id in Successes(t, Global, meta) {
    }
  }

  /** The oldest success is the first of the window. */
  lemma OldestIsFirst(t: Table, w: seq<Package>, a: Id)
    requires Holds(t, w) && Ordered(w) && w != [] && IsOldest(t, IdsOf(w), a)
    ensures a == w[0].id
  {
    var i :| 0 <= i < |w| && w[i].id == a;
    assert w[0].id in IdsOf(w);
    assert Older(t, a, w[0].id);
  }

  lemma HoldsWithoutFirst(t: Table, w: seq<Package>)
    requires Holds(t, w) && Ordered(w) && w != []
    ensures Holds(t - {w[0].id}, w[1..]) && Ordered(w[1..])
  {
    var t' := t - {w[0].id};
    assert forall i :: 0 <= i < |w[1..]| ==> w[1..][i] == w[i + 1];
    forall id | id in t' && t'[id].out.success ensures id in IdsOf(w[1..]) {
      var i :| 0 <= i < |w| && w[i].id == id;
      assert w[1..][i - 1].id == id;
    }
  }

  lemma HoldsWithOneMore(t: Table, w: seq<Package>, p: Package)
    requires Holds(t, w) && p.out.success && p.id !in IdsOf(w) && (p.id in t ==> t[p.id].meta == p.meta)
    ensures Holds(Stored(t, p), w + [p])
  {
    var t', w' := Stored(t, p), w + [p];
    forall i | 0 <= i < |w'| ensures w'[i].id in t' && t'[w'[i].id].out == w'[i].out {
      if i < |w| {
        assert w[i].id in IdsOf(w);
      }
    }
    forall id | id in t' && t'[id].out.success ensures id in IdsOf(w') {
      if id == p.id {
        assert w'[|w|].id == id;
      } else {
        var i :| 0 <= i < |w| && w[i].id == id;
        assert w'[i].id == id;
      }
    }
  }

  lemma HoldsAfterFailure(t: Table, w: seq<Package>, p: Package)
    requires Holds(t, w) && !p.out.success && (forall i :: 0 <= i < |w| ==> w[i].out.success)
    ensures Holds(Stored(t, p), w)
  {
  }

  lemma OrderedBefore(w: seq<Package>, p: Package)
    requires Ordered(w + [p])
    ensures Ordered(w) && p.out.success && p.id !in IdsOf(w)
  {
    assert (w + [p])[|w|] == p && forall i :: 0 <= i < |w| ==> (w + [p])[i] == w[i];
  }

  /** At the limit, the first of the window makes room. */
  lemma PrunesFirst(conf: Conf, t: Table, w: seq<Package>, p: Package)
    requires conf.limit > 0 && conf.per.Global? && |w| == conf.limit && p.out.success
    requires Holds(t, w) && Ordered(w)
    ensures Pruned(conf, t, p) == t - {w[0].id}
  {
    SuccessesAreTheWindow(t, p.meta, w);
    OldestIsFirst(t, w, Oldest(t, IdsOf(w)));
  }

  lemma LaterIds(w: seq<Package>, id: Id)
    requires w != [] && id !in IdsOf(w)
    ensures id !in IdsOf(w[1..])
  {
    forall i | 0 <= i < |w[1..]|
      ensures w[1..][i].id != id
    {
      assert w[1..][i] == w[i + 1];
    }
  }

  /** One more success moves the window on by one. */
  lemma SuccessMovesWindow(conf: Conf, t: Table, w: seq<Package>, p: Package)
    requires conf.limit > 0 && conf.per.Global? && Kept(conf, p) && |w| <= conf.limit
    requires Holds(t, w) && Ordered(w + [p]) && (p.id in t ==> t[p.id].meta == p.meta)
    ensures Holds(Saved(conf, t, p), (if |w| == conf.limit then w[1..] else w) + [p])
  {
    OrderedBefore(w, p);
    if |w| == conf.limit {
      PrunesFirst(conf, t, w, p);
      HoldsWithoutFirst(t, w);
      LaterIds(w, p.id);
      HoldsWithOneMore(Pruned(conf, t, p), w[1..], p);
    } else {
      SuccessesAreTheWindow(t, p.meta, w);
      HoldsWithOneMore(t, w, p);
    }
  }

  lemma NewestAfter(w: seq<Package>, p: Package, n: nat)
    requires n > 0
    ensures
      var was := Newest(w, n);
      |was| <= n && Newest(w + [p], n) == (if |was| == n then was[1..] else was) + [p]
  {
  }

  lemma OrderedPart(w: seq<Package>, lo: nat, hi: nat)
    requires Ordered(w) && lo <= hi <= |w|
    ensures Ordered(w[lo..hi])
  {
    var part := w[lo..hi];
    assert forall i :: 0 <= i < |part| ==> part[i] == w[lo + i];
  }

  lemma NewestParts(w: seq<Package>, p: Package, n: nat)
    ensures
      var all, k := w + [p], |w| - |Newest(w, n)|;
      && |all| == |w| + 1 && 0 <= k <= |w|
      && all[0..|w|] == w && all[k..|w|] == Newest(w, n) && all[k..|w| + 1] == Newest(w, n) + [p]
  {
  }

  lemma OrderedNewest(w: seq<Package>, p: Package, n: nat)
    requires Ordered(w + [p])
    ensures Ordered(w) && Ordered(Newest(w, n)) && Ordered(Newest(w, n) + [p])
  {
    var k := |w| - |Newest(w, n)|;
    NewestParts(w, p, n);
    OrderedPart(w + [p], 0, |w|);
    OrderedPart(w + [p], k, |w|);
    OrderedPart(w + [p], k, |w| + 1);
  }

  lemma KeepsMetas(conf: Conf, metaOf: Id -> Meta, t: Table, p: Package)
    requires Writes(metaOf, t) && p.meta == metaOf(p.id)
    ensures Writes(metaOf, Saved(conf, t, p))
  {
  }

  lemma {:induction false} WindowWhileSaving(conf: Conf, metaOf: Id -> Meta, ps: seq<Package>)
    requires conf.limit > 0 && conf.per.Global? && Ordered(Wins(ps))
    requires forall i :: 0 <= i < |ps| ==> Kept(conf, ps[i]) && ps[i].meta == metaOf(ps[i].id)
    ensures Holds(SaveAll(conf, ps), Newest(Wins(ps), conf.limit)) && Writes(metaOf, SaveAll(conf, ps))
  {
    if ps != [] {
      var before, p := ps[..|ps| - 1], ps[|ps| - 1];
      var t, w := SaveAll(conf, before), Wins(before);
      if p.out.success {
        OrderedNewest(w, p, conf.limit);
        WindowWhileSaving(conf, metaOf, before);
        NewestAfter(w, p, conf.limit);
        SuccessMovesWindow(conf, t, Newest(w, conf.limit), p);
      } else {
        WindowWhileSaving(conf, metaOf, before);
        HoldsAfterFailure(t, Newest(w, conf.limit), p);
      }
      KeepsMetas(conf, metaOf, t, p);
    }
  }

  /** One monitor, successes of distinct tasks in the order they stopped: the Success table is exactly
      the last SAVE_LIMIT of them, whatever failures come in between. */
  lemma TheLastAreKept(conf: Conf, metaOf: Id -> Meta, ps: seq<Package>)
    requires conf.limit > 0 && conf.per.Global? && Ordered(Wins(ps))
    requires forall i :: 0 <= i < |ps| ==> Kept(conf, ps[i]) && ps[i].meta == metaOf(ps[i].id)
    ensures
      var t, last := SaveAll(conf, ps), Newest(Wins(ps), conf.limit);
      && |last| == (if |Wins(ps)| < conf.limit then |Wins(ps)| else conf.limit)
      && Holds(t, last)
      && forall meta: Meta :: Successes(t, Global, meta) == IdsOf(last)
  {
    WindowWhileSaving(conf, metaOf, ps);
    var t, last := SaveAll(conf, ps), Newest(Wins(ps), conf.limit);
    var n := |Wins(ps)|;
    OrderedPart(Wins(ps), n - |last|, n);
    assert Wins(ps)[n - |last|..n] == last;
    forall meta: Meta ensures Successes(t, Global, meta) == IdsOf(last) {
      SuccessesAreTheWindow(t, meta, last);
    }
  }
}
