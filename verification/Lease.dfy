/**
 The three brokers. ORM and Mongo keep a package until it is acknowledged and lease it out; one stores
 when the lease ends and compares-and-sets it, the other stores when it began and updates atomically.
 Redis pops a list.
 */
module Lease {

  type Pk = nat

  // ---------------------------------------------------------------- one abstract lease queue

  /** For each package in the broker, the instant its present lease ends. */
  type Leases = map<Pk, int>

  datatype Op = Enqueue(pk: Pk, at: int) | Lease(pk: Pk, at: int) | Remove(pk: Pk)

  /** Whether the lease may be taken; strict says that one ending at this very instant still holds. */
  predicate Free(l: Leases, pk: Pk, at: int, strict: bool) {
    pk in l && (l[pk] < at || (!strict && l[pk] == at))
  }

  function Abstract(l: Leases, op: Op, retry: nat, strict: bool): Leases {
    match op
    case Enqueue(pk, at) => if pk in l then l else l[pk := at]
    case Lease(pk, at) => if Free(l, pk, at, strict) then l[pk := at + retry] else l
    case Remove(pk) => l - {pk}
  }

  /** An operation, and whether this broker client did it or a rival. */
  datatype Step = Step(op: Op, ours: bool)

  function AbstractAll(l: Leases, steps: seq<Step>, retry: nat, strict: bool): Leases
    decreases steps
  {
    if steps == [] then l else AbstractAll(Abstract(l, steps[0].op, retry, strict), steps[1..], retry, strict)
  }

  /** Every lease in the history was free when it was taken. */
  predicate Granting(l: Leases, steps: seq<Step>, retry: nat, strict: bool)
    decreases steps
  {
    steps == [] ||
    ((steps[0].op.Lease? ==> Free(l, steps[0].op.pk, steps[0].op.at, strict)) &&
     Granting(Abstract(l, steps[0].op, retry, strict), steps[1..], retry, strict))
  }

  /** The leases this client took, in order. */
  function Taken(steps: seq<Step>): seq<Pk> {
    if steps == [] then []
    else (if steps[0].ours && steps[0].op.Lease? then [steps[0].op.pk] else []) + Taken(steps[1..])
  }

  lemma {:induction false} StepsJoin(l: Leases, a: seq<Step>, b: seq<Step>, retry: nat, strict: bool)
    ensures
      var m := AbstractAll(l, a, retry, strict);
      && AbstractAll(l, a + b, retry, strict) == AbstractAll(m, b, retry, strict)
      && (Granting(l, a + b, retry, strict) <==> Granting(l, a, retry, strict) && Granting(m, b, retry, strict))
    decreases a
  {
    if a == [] {
      assert a + b == b;
    } else {
      assert (a + b)[0] == a[0] && (a + b)[1..] == a[1..] + b;
      StepsJoin(Abstract(l, a[0].op, retry, strict), a[1..], b, retry, strict);
    }
  }

  /** The steps lead from one view to the other, every lease free when taken, ours being these. */
  predicate Leads(l: Leases, steps: seq<Step>, retry: nat, strict: bool, m: Leases, ours: seq<Pk>) {
    m == AbstractAll(l, steps, retry, strict) && Granting(l, steps, retry, strict) && Taken(steps) == ours
  }

  lemma LeadsOn(l: Leases, a: seq<Step>, m: Leases, b: seq<Step>, n: Leases, retry: nat, strict: bool, u: seq<Pk>,
      v: seq<Pk>)
    requires Leads(l, a, retry, strict, m, u) && Leads(m, b, retry, strict, n, v)
    ensures Leads(l, a + b, retry, strict, n, u + v)
  {
    StepsJoin(l, a, b, retry, strict);
    TakenJoin(a, b);
  }

  lemma {:induction false} TakenJoin(a: seq<Step>, b: seq<Step>)
    ensures Taken(a + b) == Taken(a) + Taken(b)
    decreases a
  {
    if a == [] {
      assert a + b == b;
    } else {
      assert (a + b)[0] == a[0] && (a + b)[1..] == a[1..] + b;
      TakenJoin(a[1..], b);
    }
  }

  /** The attempt falls on the very instant the lease ends. */
  predicate OnBoundary(l: Leases, op: Op) {
    op.Lease? && op.pk in l && l[op.pk] == op.at
  }

  /** One operation tells the two kinds of queue apart exactly when it leases at the boundary instant. */
  lemma BoundaryTells(l: Leases, op: Op, retry: nat)
    requires retry > 0
    ensures Abstract(l, op, retry, true) != Abstract(l, op, retry, false) <==> OnBoundary(l, op)
  {
    if OnBoundary(l, op) {
      assert Abstract(l, op, retry, true)[op.pk] != Abstract(l, op, retry, false)[op.pk];
    }
  }

  ghost predicate NoBoundary(l: Leases, steps: seq<Step>, retry: nat)
    decreases steps
  {
    steps == [] || (!OnBoundary(l, steps[0].op) && NoBoundary(Abstract(l, steps[0].op, retry, true), steps[1..], retry))
  }

  /** Over any history that never leases at a boundary instant, the two kinds of queue are the same. */
  lemma {:induction false} KindsAgree(l: Leases, steps: seq<Step>, retry: nat)
    requires NoBoundary(l, steps, retry)
    ensures AbstractAll(l, steps, retry, true) == AbstractAll(l, steps, retry, false)
    ensures Granting(l, steps, retry, true) <==> Granting(l, steps, retry, false)
    decreases steps
  {
    if steps != [] {
      assert Abstract(l, steps[0].op, retry, true) == Abstract(l, steps[0].op, retry, false);
      KindsAgree(Abstract(l, steps[0].op, retry, true), steps[1..], retry);
    }
  }

  // ---------------------------------------------------------------- ORM: lock holds the expiry

  datatype OrmRow = OrmRow(key: string, payload: string, lock: int)
  type OrmTable = map<Pk, OrmRow>

  /** A row as a SELECT saw it. */
  datatype Candidate = Candidate(pk: Pk, lock: int)

  /** The compare of the compare-and-set: the lease is still the one that was seen. */
  predicate Matches(l: Leases, c: Candidate) {
    c.pk in l && l[c.pk] == c.lock
  }

  function OrmView(t: OrmTable): Leases {
    map pk | pk in t :: t[pk].lock
  }

  predicate Expired(t: OrmTable, key: string, pk: Pk, now: int) {
    pk in t && t[pk].key == key && t[pk].lock < now
  }

  /** UPDATE ... SET lock = until WHERE id = pk AND lock = seen, by any cluster. */
  predicate Unchanged(t: OrmTable, c: Candidate) {
    c.pk in t && t[c.pk].lock == c.lock
  }

  function Relock(t: OrmTable, pk: Pk, until: int): OrmTable
    requires pk in t
  {
    t[pk := t[pk].(lock := until)]
  }

  /** What other clusters may do to the table between two statements of this one. A rival's UPDATE is for a
      candidate it selected earlier; it sets the lock RETRY after the clock it has just read. */
  datatype Rival = Takes(c: Candidate, selected: int, read: int) | Deletes(pk: Pk) | Inserts(pk: Pk, row: OrmRow)

  /** The SELECT saw an expired lock, and the clock has not gone back since. */
  predicate Clocked(r: Rival) {
    r.Takes? ==> r.c.lock < r.selected <= r.read
  }

  function Act(t: OrmTable, r: Rival, retry: nat): OrmTable {
    match r
    case Takes(c, _, read) => if Unchanged(t, c) then Relock(t, c.pk, read + retry) else t
    case Deletes(pk) => t - {pk}
    case Inserts(pk, row) => if pk in t then t else t[pk := row]
  }

  function ActAll(t: OrmTable, rs: seq<Rival>, retry: nat): OrmTable
    decreases rs
  {
    if rs == [] then t else ActAll(Act(t, rs[0], retry), rs[1..], retry)
  }

  datatype Raced = Raced(table: OrmTable, won: seq<Pk>)

  /** The update loop of dequeue: before its i-th UPDATE, at times[i], the rivals do rivals[i]. */
  function Race(t: OrmTable, cs: seq<Candidate>, retry: nat, times: seq<int>, rivals: seq<seq<Rival>>): Raced
    requires |times| == |rivals| == |cs|
    decreases cs
  {
    if cs == [] then Raced(t, [])
    else
      var t1 := ActAll(t, rivals[0], retry);
      if Unchanged(t1, cs[0]) then
        var rest := Race(Relock(t1, cs[0].pk, times[0] + retry), cs[1..], retry, times[1..], rivals[1..]);
        Raced(rest.table, [cs[0].pk] + rest.won)
      else Race(t1, cs[1..], retry, times[1..], rivals[1..])
  }

  /** What rivals do, as operations on the abstract queue. */
  function RivalStep(t: OrmTable, r: Rival): seq<Step> {
    match r
    case Takes(c, _, read) => if Unchanged(t, c) then [Step(Lease(c.pk, read), false)] else []
    case Deletes(pk) => [Step(Remove(pk), false)]
    case Inserts(pk, row) => [Step(Enqueue(pk, row.lock), false)]
  }

  function RivalSteps(t: OrmTable, rs: seq<Rival>, retry: nat): seq<Step>
    decreases rs
  {
    if rs == [] then [] else RivalStep(t, rs[0]) + RivalSteps(Act(t, rs[0], retry), rs[1..], retry)
  }

  /** What happens during the update loop, as operations on the abstract queue. */
  function RaceSteps(t: OrmTable, cs: seq<Candidate>, retry: nat, times: seq<int>, rivals: seq<seq<Rival>>): seq<Step>
    requires |times| == |rivals| == |cs|
    decreases cs
  {
    if cs == [] then []
    else
      var t1 := ActAll(t, rivals[0], retry);
      var before := RivalSteps(t, rivals[0], retry);
      if Unchanged(t1, cs[0]) then
        before + [Step(Lease(cs[0].pk, times[0]), true)] +
        RaceSteps(Relock(t1, cs[0].pk, times[0] + retry), cs[1..], retry, times[1..], rivals[1..])
      else before + RaceSteps(t1, cs[1..], retry, times[1..], rivals[1..])
  }

  lemma OneRivalRefines(t: OrmTable, r: Rival, retry: nat)
    requires Clocked(r)
    ensures Leads(OrmView(t), RivalStep(t, r), retry, true, OrmView(Act(t, r, retry)), [])
  {
    var steps := RivalStep(t, r);
    assert steps != [] ==> steps == [steps[0]] && steps[1..] == [];
  }

  lemma {:induction false} RivalsRefine(t: OrmTable, rs: seq<Rival>, retry: nat)
    requires forall r :: r in rs ==> Clocked(r)
    ensures Leads(OrmView(t), RivalSteps(t, rs, retry), retry, true, OrmView(ActAll(t, rs, retry)), [])
    decreases rs
  {
    if rs != [] {
      var t1 := Act(t, rs[0], retry);
      OneRivalRefines(t, rs[0], retry);
      RivalsRefine(t1, rs[1..], retry);
      LeadsOn(OrmView(t), RivalStep(t, rs[0]), OrmView(t1), RivalSteps(t1, rs[1..], retry),
              OrmView(ActAll(t, rs, retry)), retry, true, [], []);
    }
  }

  /** A winning UPDATE, at whatever distance from its SELECT, leases a package whose lease had ended. */
  lemma UpdateRefines(t: OrmTable, c: Candidate, selected: int, read: int, retry: nat)
    requires Unchanged(t, c) && c.lock < selected <= read
    ensures
      Leads(OrmView(t), [Step(Lease(c.pk, read), true)], retry, true, OrmView(Relock(t, c.pk, read + retry)), [c.pk])
  {
    var steps := [Step(Lease(c.pk, read), true)];
    assert steps[1..] == [];
    assert OrmView(Relock(t, c.pk, read + retry)) == OrmView(t)[c.pk := read + retry];
  }

  /** One turn of the update loop: what it does to the table, as operations, and the row it wins. */
  function OneUpdate(t: OrmTable, c: Candidate, retry: nat, time: int, rivals: seq<Rival>)
    : (OrmTable, seq<Step>, seq<Pk>)
  {
    var t1, before := ActAll(t, rivals, retry), RivalSteps(t, rivals, retry);
    if Unchanged(t1, c) then (Relock(t1, c.pk, time + retry), before + [Step(Lease(c.pk, time), true)], [c.pk])
    else (t1, before, [])
  }

  lemma OneUpdateRefines(t: OrmTable, c: Candidate, selected: int, retry: nat, time: int, rivals: seq<Rival>)
    requires c.lock < selected <= time && forall r :: r in rivals ==> Clocked(r)
    ensures
      var u := OneUpdate(t, c, retry, time, rivals);
      Leads(OrmView(t), u.1, retry, true, OrmView(u.0), u.2)
  {
    var t1, before := ActAll(t, rivals, retry), RivalSteps(t, rivals, retry);
    RivalsRefine(t, rivals, retry);
    if Unchanged(t1, c) {
      UpdateRefines(t1, c, selected, time, retry);
      LeadsOn(OrmView(t), before, OrmView(t1), [Step(Lease(c.pk, time), true)], OrmView(Relock(t1, c.pk, time + retry)),
              retry, true, [], [c.pk]);
    }
  }

  lemma RaceByUpdate(t: OrmTable, cs: seq<Candidate>, retry: nat, times: seq<int>, rivals: seq<seq<Rival>>)
    requires |times| == |rivals| == |cs| && cs != []
    ensures
      var u := OneUpdate(t, cs[0], retry, times[0], rivals[0]);
      var rest := Race(u.0, cs[1..], retry, times[1..], rivals[1..]);
      && Race(t, cs, retry, times, rivals) == Raced(rest.table, u.2 + rest.won)
      && RaceSteps(t, cs, retry, times, rivals) == u.1 + RaceSteps(u.0, cs[1..], retry, times[1..], rivals[1..])
  {
  }

  /** The whole update loop, rivals at work before each UPDATE, is a history of the abstract queue in which
      every lease was free when taken, and the rows it returns are the leases it took. */
  lemma {:induction false} RaceRefines(t: OrmTable, cs: seq<Candidate>, selected: int, retry: nat, times: seq<int>,
                                       rivals: seq<seq<Rival>>)
    requires |times| == |rivals| == |cs|
    requires forall i :: 0 <= i < |cs| ==> cs[i].lock < selected <= times[i]
    requires forall i, r :: 0 <= i < |rivals| && r in rivals[i] ==> Clocked(r)
    ensures
      var race, steps := Race(t, cs, retry, times, rivals), RaceSteps(t, cs, retry, times, rivals);
      Leads(OrmView(t), steps, retry, true, OrmView(race.table), race.won)
    decreases cs
  {
    if cs != [] {
      var u := OneUpdate(t, cs[0], retry, times[0], rivals[0]);
      OneUpdateRefines(t, cs[0], selected, retry, times[0], rivals[0]);
      RaceRefines(u.0, cs[1..], selected, retry, times[1..], rivals[1..]);
      RaceByUpdate(t, cs, retry, times, rivals);
      var rest := Race(u.0, cs[1..], retry, times[1..], rivals[1..]);
      LeadsOn(OrmView(t), u.1, OrmView(u.0), RaceSteps(u.0, cs[1..], retry, times[1..], rivals[1..]),
              OrmView(rest.table), retry, true, u.2, rest.won);
    }
  }

  /** What a SELECT of dequeue yields: expired rows of this key, each once and with the lock it has; all of them
      when they are fewer than BULK. */
  ghost predicate Selects(t: OrmTable, key: string, now: int, bulk: nat, cs: seq<Candidate>) {
    && (forall i :: 0 <= i < |cs| ==>
         cs[i].pk in t && t[cs[i].pk].key == key && t[cs[i].pk].lock < now && cs[i].lock == t[cs[i].pk].lock)
    && (forall i, j :: 0 <= i < j < |cs| ==> cs[i].pk != cs[j].pk)
    && |cs| <= bulk
    && (|cs| < bulk ==> forall pk :: pk in t && t[pk].key == key && t[pk].lock < now ==>
         exists i :: 0 <= i < |cs| && cs[i].pk == pk)
  }

  function PksOf(taskList: seq<(Pk, string)>): seq<Pk> {
    seq(|taskList|, i requires 0 <= i < |taskList| => taskList[i].0)
  }

  /** The keys of some of the candidates, in their order, none twice. */
  ghost predicate InOrder(pks: seq<Pk>, cs: seq<Candidate>) {
    exists at: seq<nat> :: Picks(pks, cs, at)
  }

  ghost predicate Picks(pks: seq<Pk>, cs: seq<Candidate>, at: seq<nat>) {
    && |at| == |pks|
    && (forall j :: 0 <= j < |at| ==> at[j] < |cs| && cs[at[j]].pk == pks[j])
    && (forall j, k :: 0 <= j < k < |at| ==> at[j] < at[k])
  }

  /** When its own update comes, the i-th candidate's row is there with the lock that was selected. */
  predicate Untouched(t: OrmTable, cs: seq<Candidate>, retry: nat, times: seq<int>, rivals: seq<seq<Rival>>, i: nat)
    requires |times| == |rivals| == |cs| && i < |cs|
  {
    var now := ActAll(Race(t, cs[..i], retry, times[..i], rivals[..i]).table, rivals[i], retry);
    cs[i].pk in now && now[cs[i].pk].lock == cs[i].lock
  }

  /** The rows of the candidates are leased until RETRY after their own update; nothing else has changed. */
  ghost predicate Releases(t: OrmTable, t': OrmTable, cs: seq<Candidate>, retry: nat, times: seq<int>)
    requires |times| == |cs|
  {
    && t'.Keys == t.Keys
    && (forall i :: 0 <= i < |cs| ==>
         cs[i].pk in t && t'[cs[i].pk] == OrmRow(t[cs[i].pk].key, t[cs[i].pk].payload, times[i] + retry))
    && (forall pk :: pk in t && (forall i :: 0 <= i < |cs| ==> cs[i].pk != pk) ==> t'[pk] == t[pk])
  }

  /** The rows queue_size and lock_size count. */
  function Waiting(t: OrmTable, key: string, now: int): set<Pk> {
    set pk | pk in t && t[pk].key == key && t[pk].lock <= now
  }

  function Leased(t: OrmTable, key: string, now: int): set<Pk> {
    set pk | pk in t && t[pk].key == key && t[pk].lock > now
  }

  class Orm {
    var rows: OrmTable
    var nextPk: Pk
    const key: string
    const retry: nat
    const bulk: nat

    constructor (key: string, retry: nat, bulk: nat)
      ensures rows == map[] && this.key == key && this.retry == retry && this.bulk == bulk && Valid()
    {
      rows, nextPk := map[], 1;
      this.key, this.retry, this.bulk := key, retry, bulk;
    }

    ghost predicate Valid()
      reads this
    {
      nextPk > 0 && forall pk :: pk in rows ==> 0 < pk < nextPk
    }

    /** The new row can be leased at once; every other row is untouched. */
    method Enqueue(payload: string, now: int) returns (pk: Pk)
      requires Valid()
      modifies this
      ensures Valid() && pk !in old(rows) && pk > 0
      ensures rows == old(rows)[pk := OrmRow(key, payload, now)]
      ensures OrmView(rows) == Abstract(OrmView(old(rows)), Op.Enqueue(pk, now), retry, true)
    {
      pk := nextPk;
      rows := rows[pk := OrmRow(key, payload, now)];
      nextPk := nextPk + 1;
    }

    /** The filter of dequeue, cut off at BULK rows; the database chooses which. */
    method Select(now: int) returns (cs: seq<Candidate>)
      ensures Selects(rows, key, now, bulk, cs)
    {
      cs := [];
      var todo := set pk | pk in rows && Expired(rows, key, pk, now);
      while |cs| < bulk && todo != {}
        invariant |cs| <= bulk
        invariant forall i :: 0 <= i < |cs| ==> Expired(rows, key, cs[i].pk, now) && cs[i].lock == rows[cs[i].pk].lock
        invariant forall i :: 0 <= i < |cs| ==> cs[i].pk !in todo
        invariant forall i, j :: 0 <= i < j < |cs| ==> cs[i].pk != cs[j].pk
        invariant forall pk :: Expired(rows, key, pk, now) ==> pk in todo || exists i :: 0 <= i < |cs| && cs[i].pk == pk
        invariant forall pk :: pk in todo ==> Expired(rows, key, pk, now)
        decreases todo
      {
        var pk :| pk in todo;
        ghost var before := cs;
        cs := cs + [Candidate(pk, rows[pk].lock)];
        todo := todo - {pk};
        assert cs[|before|].pk == pk;
        assert forall i :: 0 <= i < |before| ==> cs[i] == before[i];
      }
      if |cs| < bulk {
        forall pk | pk in rows && rows[pk].key == key && rows[pk].lock < now
          ensures exists i :: 0 <= i < |cs| && cs[i].pk == pk
        {
          assert Expired(rows, key, pk, now);
        }
      }
    }

    /** The loop of compare-and-set updates, with the other clusters at work in between. */
    method Grab(cs: seq<Candidate>, times: seq<int>, rivals: seq<seq<Rival>>) returns (taskList: seq<Pk>)
      requires |times| == |rivals| == |cs|
      modifies this`rows
      ensures Raced(rows, taskList) == Race(old(rows), cs, retry, times, rivals)
    {
      taskList := [];
      ghost var start := rows;
      var i := 0;
      while i < |cs|
        invariant 0 <= i <= |cs|
        invariant
          var rest := Race(rows, cs[i..], retry, times[i..], rivals[i..]);
          Race(start, cs, retry, times, rivals) == Raced(rest.table, taskList + rest.won)
      {
        rows := ActAll(rows, rivals[i], retry);
        if Unchanged(rows, cs[i]) {
          rows := Relock(rows, cs[i].pk, times[i] + retry);
          taskList := taskList + [cs[i].pk];
        }
        i := i + 1;
      }
    }

    /** dequeue: the SELECT at `now`, then the updates, each after a new reading of the clock, with rivals
        before each. The candidates tried are what the SELECT yields; the packages returned are, in that
        order, those that nobody had touched at their own update, with the payload the SELECT read. What
        happens is a history of the abstract lease queue in which every lease was free when taken. */
    method Dequeue(now: int, times: seq<int>, rivals: seq<seq<Rival>>)
        returns (taskList: seq<(Pk, string)>, ghost cs: seq<Candidate>, ghost steps: seq<Step>)
      requires |times| == |rivals| == bulk
      requires forall i :: 0 <= i < bulk ==> now <= times[i]
      requires forall i, r :: 0 <= i < bulk && r in rivals[i] ==> Clocked(r)
      modifies this`rows
      ensures Selects(old(rows), key, now, bulk, cs) && |taskList| <= |cs|
      ensures forall i :: 0 <= i < |taskList| ==>
        taskList[i].0 in old(rows) && taskList[i].1 == old(rows)[taskList[i].0].payload
      ensures InOrder(PksOf(taskList), cs)
      ensures forall i :: 0 <= i < |cs| ==>
        (cs[i].pk in PksOf(taskList) <==> Untouched(old(rows), cs, retry, times[..|cs|], rivals[..|cs|], i))
      ensures NoRivals(rivals[..|cs|]) ==>
        PksOf(taskList) == seq(|cs|, i requires 0 <= i < |cs| => cs[i].pk) &&
        Releases(old(rows), rows, cs, retry, times[..|cs|])
      ensures Leads(OrmView(old(rows)), steps, retry, true, OrmView(rows), PksOf(taskList))
    {
      var selected := rows;
      var found := Select(now);
      var n := |found|;
      steps := RaceSteps(rows, found, retry, times[..n], rivals[..n]);
      RaceRefines(rows, found, now, retry, times[..n], rivals[..n]);
      RaceTells(rows, found, retry, times[..n], rivals[..n]);
      var won := Grab(found, times[..n], rivals[..n]);
      cs := found;
      taskList := seq(|won|, i requires 0 <= i < |won| && won[i] in selected => (won[i], selected[won[i]].payload));
      assert PksOf(taskList) == won;
    }

    method Delete(pk: Pk)
      requires Valid()
      modifies this`rows
      ensures Valid() && rows == old(rows) - {pk}
      ensures OrmView(rows) == Abstract(OrmView(old(rows)), Remove(pk), retry, true)
    {
      rows := rows - {pk};
    }

    method QueueSize(now: int) returns (n: nat)
      ensures n == |Waiting(rows, key, now)|
    {
      var found := set pk | pk in rows && rows[pk].key == key && rows[pk].lock <= now;
      assert found == Waiting(rows, key, now);
      n := |found|;
    }

    method LockSize(now: int) returns (n: nat)
      ensures n == |Leased(rows, key, now)|
    {
      var found := set pk | pk in rows && rows[pk].key == key && rows[pk].lock > now;
      assert found == Leased(rows, key, now);
      n := |found|;
    }
  }

  lemma {:induction false} WonAtMost(t: OrmTable, cs: seq<Candidate>, retry: nat, times: seq<int>,
      rivals: seq<seq<Rival>>)
    requires |times| == |rivals| == |cs|
    ensures |Race(t, cs, retry, times, rivals).won| <= |cs|
    decreases cs
  {
    if cs != [] {
      var t1 := ActAll(t, rivals[0], retry);
      var t2 := if Unchanged(t1, cs[0]) then Relock(t1, cs[0].pk, times[0] + retry) else t1;
      WonAtMost(t2, cs[1..], retry, times[1..], rivals[1..]);
    }
  }

  function OfKey(t: OrmTable, key: string): set<Pk> {
    set pk | pk in t && t[pk].key == key
  }

  function Due(t: OrmTable, key: string, now: int): set<Pk> {
    set pk | pk in t && Expired(t, key, pk, now)
  }

  function AtBoundary(t: OrmTable, key: string, now: int): set<Pk> {
    set pk | pk in t && t[pk].key == key && t[pk].lock == now
  }

  /** queue_size and lock_size add up to the rows of the queue. queue_size exceeds what dequeue can take by
      the rows whose lease ends at this very instant. */
  lemma OrmSizesAddUp(t: OrmTable, key: string, now: int)
    ensures |Waiting(t, key, now)| + |Leased(t, key, now)| == |OfKey(t, key)|
    ensures |Waiting(t, key, now)| == |Due(t, key, now)| + |AtBoundary(t, key, now)|
  {
    assert Waiting(t, key, now) + Leased(t, key, now) == OfKey(t, key);
    assert Waiting(t, key, now) !! Leased(t, key, now);
    assert Due(t, key, now) + AtBoundary(t, key, now) == Waiting(t, key, now);
    assert Due(t, key, now) !! AtBoundary(t, key, now);
  }

  // ---------------------------------------------------------------- no ABA, no double lease

  /** A new row has a primary key of its own. */
  predicate OwnKey(pk: Pk, r: Rival) {
    r.Inserts? ==> r.pk != pk
  }

  /** A rival's lease pushes the lock forward: what it saw had ended when it looked, and what it sets ends
      RETRY after it wrote. */
  lemma RivalPushesOn(t: OrmTable, r: Rival, retry: nat)
    requires Clocked(r) && r.Takes? && Unchanged(t, r.c)
    ensures Act(t, r, retry)[r.c.pk].lock > t[r.c.pk].lock
  {
  }

  lemma {:induction false} LockOnlyGrows(t: OrmTable, rs: seq<Rival>, retry: nat, pk: Pk)
    requires forall r :: r in rs ==> Clocked(r) && OwnKey(pk, r)
    decreases rs
    ensures pk in ActAll(t, rs, retry) ==> pk in t && t[pk].lock <= ActAll(t, rs, retry)[pk].lock
  {
    if rs != [] {
      assert Clocked(rs[0]) && OwnKey(pk, rs[0]);
      LockOnlyGrows(Act(t, rs[0], retry), rs[1..], retry, pk);
    }
  }

  lemma {:induction false} ActAllSplit(t: OrmTable, rs: seq<Rival>, us: seq<Rival>, retry: nat)
    decreases rs
    ensures ActAll(t, rs + us, retry) == ActAll(ActAll(t, rs, retry), us, retry)
  {
    if rs == [] {
      assert rs + us == us;
    } else {
      assert (rs + us)[1..] == rs[1..] + us;
      ActAllSplit(Act(t, rs[0], retry), rs[1..], us, retry);
    }
  }

  /** If a rival took the lease in between, the compare-and-set fails, whatever was done after. */
  lemma TakenIsTaken(t: OrmTable, before: seq<Rival>, r: Rival, after: seq<Rival>, c: Candidate, retry: nat)
    requires forall u :: u in before + [r] + after ==> Clocked(u) && OwnKey(c.pk, u)
    requires r.Takes? && r.c.pk == c.pk && Unchanged(ActAll(t, before, retry), r.c)
    requires Unchanged(t, c)
    ensures !Unchanged(ActAll(t, before + [r] + after, retry), c)
  {
    var t1 := ActAll(t, before, retry);
    var t2 := Act(t1, r, retry);
    assert ActAll(t1, [r], retry) == t2 by { assert [r][1..] == []; }
    ActAllSplit(t, before, [r], retry);
    ActAllSplit(t, before + [r], after, retry);
    assert before + [r] + after == (before + [r]) + after;
    var all := before + [r] + after;
    assert all[|before|] == r && r in all && Clocked(r);
    assert forall u :: u in before ==> u in all;
    assert forall u :: u in after ==> u in all;
    RivalPushesOn(t1, r, retry);
    LockOnlyGrows(t, before, retry, c.pk);
    LockOnlyGrows(t2, after, retry, c.pk);
  }

  /** dequeue returns exactly the candidates that, at their own UPDATE, nobody had touched since the
      SELECT. */
  lemma {:induction false} WonIffUntouched(t: OrmTable, cs: seq<Candidate>, retry: nat, times: seq<int>,
                                           rivals: seq<seq<Rival>>, i: nat)
    requires |times| == |rivals| == |cs| && i < |cs|
    requires forall j, k :: 0 <= j < k < |cs| ==> cs[j].pk != cs[k].pk
    ensures
      var t1 := Race(t, cs[..i], retry, times[..i], rivals[..i]).table;
      cs[i].pk in Race(t, cs, retry, times, rivals).won <==> Unchanged(ActAll(t1, rivals[i], retry), cs[i])
    decreases cs
  {
    var t1 := ActAll(t, rivals[0], retry);
    var t2 := if Unchanged(t1, cs[0]) then Relock(t1, cs[0].pk, times[0] + retry) else t1;
    if i == 0 {
      WonAreCandidates(t2, cs[1..], retry, times[1..], rivals[1..], cs[0].pk);
    } else {
      WonIffUntouched(t2, cs[1..], retry, times[1..], rivals[1..], i - 1);
      assert cs[..i][1..] == cs[1..][..i - 1] && times[..i][1..] == times[1..][..i - 1];
      assert rivals[..i][1..] == rivals[1..][..i - 1];
    }
  }

  function Later(at: seq<nat>): (r: seq<nat>)
    ensures |r| == |at| && forall j :: 0 <= j < |at| ==> r[j] == at[j] + 1
  {
    seq(|at|, j requires 0 <= j < |at| => at[j] + 1)
  }

  lemma PicksLater(c: Candidate, cs: seq<Candidate>, pks: seq<Pk>, at: seq<nat>)
    requires Picks(pks, cs, at)
    ensures Picks(pks, [c] + cs, Later(at))
  {
    forall j | 0 <= j < |at|
      ensures Later(at)[j] < |[c] + cs| && ([c] + cs)[Later(at)[j]].pk == pks[j]
    {
      assert at[j] < |cs| && cs[at[j]].pk == pks[j];
    }
  }

  lemma PicksFirst(c: Candidate, cs: seq<Candidate>, pks: seq<Pk>, at: seq<nat>)
    requires Picks(pks, [c] + cs, at) && forall j :: 0 <= j < |at| ==> at[j] > 0
    ensures Picks([c.pk] + pks, [c] + cs, [0] + at)
  {
  }

  lemma {:induction false} WonInOrder(t: OrmTable, cs: seq<Candidate>, retry: nat, times: seq<int>,
      rivals: seq<seq<Rival>>) returns (at: seq<nat>)
    requires |times| == |rivals| == |cs|
    ensures Picks(Race(t, cs, retry, times, rivals).won, cs, at)
    decreases cs
  {
    at := [];
    if cs != [] {
      var t1 := ActAll(t, rivals[0], retry);
      var t2 := if Unchanged(t1, cs[0]) then Relock(t1, cs[0].pk, times[0] + retry) else t1;
      var rest := WonInOrder(t2, cs[1..], retry, times[1..], rivals[1..]);
      var won := Race(t2, cs[1..], retry, times[1..], rivals[1..]).won;
      assert [cs[0]] + cs[1..] == cs;
      PicksLater(cs[0], cs[1..], won, rest);
      at := Later(rest);
      if Unchanged(t1, cs[0]) {
        PicksFirst(cs[0], cs[1..], won, at);
        at := [0] + at;
      }
    }
  }

  lemma AllUntouched(t: OrmTable, cs: seq<Candidate>, retry: nat, times: seq<int>, rivals: seq<seq<Rival>>)
    requires |times| == |rivals| == |cs|
    requires forall j, k :: 0 <= j < k < |cs| ==> cs[j].pk != cs[k].pk
    ensures forall i :: 0 <= i < |cs| ==>
      (cs[i].pk in Race(t, cs, retry, times, rivals).won <==> Untouched(t, cs, retry, times, rivals, i))
  {
    forall i | 0 <= i < |cs|
      ensures cs[i].pk in Race(t, cs, retry, times, rivals).won <==> Untouched(t, cs, retry, times, rivals, i)
    {
      WonIffUntouched(t, cs, retry, times, rivals, i);
    }
  }

  lemma AllWonSelected(t: OrmTable, cs: seq<Candidate>, retry: nat, times: seq<int>, rivals: seq<seq<Rival>>)
    requires |times| == |rivals| == |cs| && forall i :: 0 <= i < |cs| ==> cs[i].pk in t
    ensures forall pk :: pk in Race(t, cs, retry, times, rivals).won ==> pk in t
  {
    forall pk | pk in Race(t, cs, retry, times, rivals).won
      ensures pk in t
    {
      WonAreCandidates(t, cs, retry, times, rivals, pk);
    }
  }

  /** With nobody else about, every candidate is won, in order. */
  lemma {:induction false} RaceAlone(t: OrmTable, cs: seq<Candidate>, retry: nat, times: seq<int>,
      rivals: seq<seq<Rival>>)
    requires |times| == |rivals| == |cs| && NoRivals(rivals)
    requires forall i :: 0 <= i < |cs| ==> cs[i].pk in t && t[cs[i].pk].lock == cs[i].lock
    requires forall i, j :: 0 <= i < j < |cs| ==> cs[i].pk != cs[j].pk
    ensures
      var r := Race(t, cs, retry, times, rivals);
      && r.won == seq(|cs|, i requires 0 <= i < |cs| => cs[i].pk)
      && Releases(t, r.table, cs, retry, times)
    decreases cs
  {
    if cs != [] {
      var t1 := Relock(t, cs[0].pk, times[0] + retry);
      RaceAlone(t1, cs[1..], retry, times[1..], rivals[1..]);
      var t2 := Race(t1, cs[1..], retry, times[1..], rivals[1..]).table;
      assert Race(t, cs, retry, times, rivals).table == t2;
      forall i | 0 <= i < |cs|
        ensures t2[cs[i].pk] == OrmRow(t[cs[i].pk].key, t[cs[i].pk].payload, times[i] + retry)
      {
        if i == 0 {
          assert forall j :: 0 <= j < |cs[1..]| ==> cs[1..][j].pk != cs[0].pk;
        } else {
          assert cs[1..][i - 1] == cs[i] && times[1..][i - 1] == times[i];
        }
      }
      forall pk | pk in t && (forall i :: 0 <= i < |cs| ==> cs[i].pk != pk)
        ensures t2[pk] == t[pk]
      {
        assert forall j :: 0 <= j < |cs[1..]| ==> cs[1..][j].pk != pk;
        assert cs[0].pk != pk;
      }
    }
  }

  predicate NoRivals(rivals: seq<seq<Rival>>) {
    forall i :: 0 <= i < |rivals| ==> rivals[i] == []
  }

  /** What the update loop returns. */
  lemma RaceTells(t: OrmTable, cs: seq<Candidate>, retry: nat, times: seq<int>, rivals: seq<seq<Rival>>)
    requires |times| == |rivals| == |cs|
    requires forall i :: 0 <= i < |cs| ==> cs[i].pk in t && t[cs[i].pk].lock == cs[i].lock
    requires forall i, j :: 0 <= i < j < |cs| ==> cs[i].pk != cs[j].pk
    ensures
      var r := Race(t, cs, retry, times, rivals);
      && |r.won| <= |cs| && (forall pk :: pk in r.won ==> pk in t) && InOrder(r.won, cs)
      && (forall i :: 0 <= i < |cs| ==> (cs[i].pk in r.won <==> Untouched(t, cs, retry, times, rivals, i)))
      && (NoRivals(rivals) ==>
            r.won == seq(|cs|, i requires 0 <= i < |cs| => cs[i].pk) && Releases(t, r.table, cs, retry, times))
  {
    WonAtMost(t, cs, retry, times, rivals);
    var at := WonInOrder(t, cs, retry, times, rivals);
    AllUntouched(t, cs, retry, times, rivals);
    AllWonSelected(t, cs, retry, times, rivals);
    if NoRivals(rivals) {
      RaceAlone(t, cs, retry, times, rivals);
    }
  }

  lemma {:induction false} WonAreCandidates(t: OrmTable, cs: seq<Candidate>, retry: nat, times: seq<int>,
                                            rivals: seq<seq<Rival>>, pk: Pk)
    requires |times| == |rivals| == |cs|
    ensures pk in Race(t, cs, retry, times, rivals).won ==> exists i :: 0 <= i < |cs| && cs[i].pk == pk
    decreases cs
  {
    if cs != [] {
      var t1 := ActAll(t, rivals[0], retry);
      var t2 := if Unchanged(t1, cs[0]) then Relock(t1, cs[0].pk, times[0] + retry) else t1;
      WonAreCandidates(t2, cs[1..], retry, times[1..], rivals[1..], pk);
      if pk in Race(t2, cs[1..], retry, times[1..], rivals[1..]).won {
        var i :| 0 <= i < |cs[1..]| && cs[1..][i].pk == pk;
        assert cs[i + 1].pk == pk;
      } else if cs[0].pk == pk {
      }
    }
  }

  // ---------------------------------------------------------------- Mongo: lock holds the start

  type MongoTable = map<Pk, int>

  function MongoView(docs: MongoTable, retry: nat): Leases {
    map d | d in docs :: docs[d] + retry
  }

  /** The documents whose lease began RETRY ago or earlier. */
  function MongoDue(docs: MongoTable, retry: nat, now: int): set<Pk> {
    set d | d in docs && docs[d] <= now - retry
  }

  class Mongo {
    var docs: MongoTable
    var nextId: Pk
    const retry: nat

    constructor (retry: nat)
      ensures docs == map[] && this.retry == retry && Valid()
    {
      docs, nextId := map[], 1;
      this.retry := retry;
    }

    ghost predicate Valid()
      reads this
    {
      forall id :: id in docs ==> id < nextId
    }

    /** _timeout(): a lease begun at or before this instant is over. */
    function Horizon(now: int): int {
      now - retry
    }

    method Enqueue(now: int) returns (id: Pk)
      requires Valid()
      modifies this
      ensures Valid() && id !in old(docs) && docs == old(docs)[id := now - retry]
      ensures MongoView(docs, retry) == Abstract(MongoView(old(docs), retry), Op.Enqueue(id, now), retry, false)
    {
      id := nextId;
      docs := docs[id := Horizon(now)];
      nextId := nextId + 1;
    }

    /** find_one_and_update: one atomic step, after two readings of the clock. A document is found exactly
        when one is due at the first; it is leased from the second on. */
    method Dequeue(now: int, later: int) returns (found: bool, id: Pk)
      requires Valid() && now <= later
      modifies this`docs
      ensures Valid() && (found <==> MongoDue(old(docs), retry, now) != {})
      ensures found ==> id in MongoDue(old(docs), retry, now) && docs == old(docs)[id := later]
      ensures !found ==> docs == old(docs)
      ensures found ==>
                && Free(MongoView(old(docs), retry), id, later, false)
                && MongoView(docs, retry) == Abstract(MongoView(old(docs), retry), Lease(id, later), retry, false)
    {
      var due := set d | d in docs && docs[d] <= Horizon(now);
      assert due == MongoDue(docs, retry, now);
      found, id := false, 0;
      if due != {} {
        id :| id in due;
        found := true;
        docs := docs[id := later];
      }
    }

    method Delete(id: Pk)
      requires Valid()
      modifies this`docs
      ensures Valid() && docs == old(docs) - {id}
      ensures MongoView(docs, retry) == Abstract(MongoView(old(docs), retry), Remove(id), retry, false)
    {
      docs := docs - {id};
    }

    method QueueSize(now: int) returns (n: nat)
      ensures n == |MongoDue(docs, retry, now)|
    {
      var found := set d | d in docs && docs[d] <= Horizon(now);
      assert found == MongoDue(docs, retry, now);
      n := |found|;
    }
  }

  // ---------------------------------------------------------------- the two dequeues side by side

  /** The rows of one queue, as the abstract queue sees them. */
  function KeyView(t: OrmTable, key: string): Leases {
    map pk | pk in t && t[pk].key == key :: t[pk].lock
  }

  /** Holding the same leases and asked at the same instant, the two dequeues can take the same packages if
      and only if no lease ends at that very instant; the two queue sizes count the same ones regardless. */
  lemma DequeuesDiffer(t: OrmTable, key: string, docs: MongoTable, retry: nat, now: int)
    requires KeyView(t, key) == MongoView(docs, retry)
    ensures Due(t, key, now) == MongoDue(docs, retry, now) <==> AtBoundary(t, key, now) == {}
    ensures Waiting(t, key, now) == MongoDue(docs, retry, now)
  {
    forall pk
      ensures pk in Waiting(t, key, now) <==> pk in MongoDue(docs, retry, now)
    {
      assert pk in KeyView(t, key) <==> pk in MongoView(docs, retry);
      if pk in KeyView(t, key) {
        assert KeyView(t, key)[pk] == MongoView(docs, retry)[pk];
      }
    }
    assert Waiting(t, key, now) == Due(t, key, now) + AtBoundary(t, key, now);
    assert Due(t, key, now) !! AtBoundary(t, key, now);
  }

  // ---------------------------------------------------------------- Redis: a list, popped

  class Redis {
    var list: seq<string>

    constructor ()
      ensures list == []
    {
      list := [];
    }

    method Enqueue(payload: string)
      modifies this
      ensures list == old(list) + [payload]
    {
      list := list + [payload];
    }

    /** blpop: the head, or nothing after a second on an empty list; no receipt. */
    method Dequeue() returns (got: seq<string>)
      modifies this
      ensures old(list) == got + list && |got| <= 1 && (got == [] <==> old(list) == [])
    {
      got := [];
      if list != [] {
        got := [list[0]];
        list := list[1..];
      }
    }
  }

  datatype RedisOp = Push(payload: string) | Pop

  datatype RedisState = RedisState(list: seq<string>, pushed: seq<string>, popped: seq<string>)

  function RedisStep(s: RedisState, op: RedisOp): RedisState {
    match op
    case Push(p) => s.(list := s.list + [p], pushed := s.pushed + [p])
    case Pop => if s.list == [] then s else s.(list := s.list[1..], popped := s.popped + [s.list[0]])
  }

  function RedisRun(s: RedisState, ops: seq<RedisOp>): RedisState
    decreases ops
  {
    if ops == [] then s else RedisRun(RedisStep(s, ops[0]), ops[1..])
  }

  /** Whichever clusters push and pop, the deliveries are a prefix of the pushes: each package at
      most once, in order. */
  lemma {:induction false} RedisDeliversOnce(s: RedisState, ops: seq<RedisOp>)
    requires s.popped + s.list == s.pushed
    ensures RedisRun(s, ops).popped + RedisRun(s, ops).list == RedisRun(s, ops).pushed
    ensures RedisRun(s, ops).popped <= RedisRun(s, ops).pushed
    decreases ops
  {
    if ops != [] {
      var s' := RedisStep(s, ops[0]);
      if ops[0].Push? {
        assert s'.popped + s'.list == (s.popped + s.list) + [ops[0].payload];
      } else if s.list != [] {
        assert s.list == [s.list[0]] + s.list[1..];
      }
      RedisDeliversOnce(s', ops[1..]);
    }
  }
}
