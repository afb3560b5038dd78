/**
 The monitor: prune, update-or-create, acknowledge. The save limit keeps the newest successes; with
 several monitors the pruning of one result, the get and the write are separate steps.
 */
module SaveTask {
  import opened Options
  import opened TaskTable

  datatype Per = Global | PerGroup | PerName | PerFunc

  datatype Conf = Conf(limit: int, per: Per, max: nat)

  datatype Package = Package(id: Id, meta: Meta, out: Outcome, save: Option<bool>, ackFailure: bool, ackId: nat)

  // ---------------------------------------------------------------- pruning

  /** Whether a row falls under the filter that saving a package with this meta applies. A package
      without a group is limited over all rows. */
  predicate SameLimit(per: Per, meta: Meta, row: Row) {
    match per
    case Global => true
    case PerGroup => meta.group.None? || row.meta.group == meta.group
    case PerName => row.meta.name == meta.name
    case PerFunc => row.meta.func == meta.func
  }

  function Successes(t: Table, per: Per, meta: Meta): set<Id> {
    set id | id in t && t[id].out.success && SameLimit(per, meta, t[id])
  }

  /** Older first; the database leaves ties open, here the smaller id is older. */
  predicate Older(t: Table, a: Id, b: Id)
    requires a in t && b in t
  {
    t[a].out.stopped < t[b].out.stopped || (t[a].out.stopped == t[b].out.stopped && a <= b)
  }

  predicate IsOldest(t: Table, ids: set<Id>, a: Id)
    requires forall id :: id in ids ==> id in t
  {
    a in ids && forall id :: id in ids ==> Older(t, a, id)
  }

  lemma {:induction false} OldestExists(t: Table, ids: set<Id>)
    requires ids != {} && forall id :: id in ids ==> id in t
    ensures exists a :: IsOldest(t, ids, a)
    decreases ids
  {
    var a :| a in ids;
    var rest := ids - {a};
    assert forall id :: id in ids ==> id == a || id in rest;
    if rest == {} {
      assert IsOldest(t, ids, a);
    } else {
      OldestExists(t, rest);
      var b :| IsOldest(t, rest, b);
      assert IsOldest(t, ids, if Older(t, a, b) then a else b);
    }
  }

  ghost function Oldest(t: Table, ids: set<Id>): (a: Id)
    requires ids != {} && forall id :: id in ids ==> id in t
    ensures IsOldest(t, ids, a)
  {
    OldestExists(t, ids);
    var a :| IsOldest(t, ids, a);
    a
  }

  /** The success deleted to make room, if any. */
  ghost function Victim(conf: Conf, t: Table, p: Package): Option<Id> {
    var s := Successes(t, conf.per, p.meta);
    if conf.limit > 0 && p.out.success && |s| >= conf.limit then Some(Oldest(t, s)) else None
  }

  ghost function Pruned(conf: Conf, t: Table, p: Package): Table {
    var v := Victim(conf, t, p);
    if v.Some? then t - {v.value} else t
  }

  /** The get and the write, one after the other; an id stored under another name makes create raise. */
  function Stored(t: Table, p: Package): Table {
    Upsert(t, p.id, p.meta, p.out)
  }

  predicate Kept(conf: Conf, p: Package) {
    !p.out.success || (if p.save.Some? then p.save.value else conf.limit >= 0)
  }

  ghost function Saved(conf: Conf, t: Table, p: Package): Table {
    if Kept(conf, p) then Stored(Pruned(conf, t, p), p) else t
  }

  /** The acknowledgement inside save_task. */
  ghost predicate ReachesMax(conf: Conf, t: Table, p: Package) {
    && Kept(conf, p) && conf.max > 0
    && !Clashes(Pruned(conf, t, p), p.id, Found(Pruned(conf, t, p), p.id, p.meta))
    && Attempts(Saved(conf, t, p), p.id) >= conf.max
  }

  /** The row leaves the broker on success, on a failure with ack_failure, or at MAX_ATTEMPTS. */
  ghost predicate Acknowledged(conf: Conf, t: Table, p: Package) {
    p.out.success || p.ackFailure || ReachesMax(conf, t, p)
  }

  datatype Message = Result(p: Package) | Stop

  /** What a run of the monitor makes of the table and the broker rows. */
  ghost function Handled(conf: Conf, t: Table, rows: set<nat>, ps: seq<Package>): (Table, set<nat>)
    decreases |ps|
  {
    if ps == [] then (t, rows)
    else
      var before := Handled(conf, t, rows, ps[..|ps| - 1]);
      var p := ps[|ps| - 1];
      (Saved(conf, before.0, p), if Acknowledged(conf, before.0, p) then before.1 - {p.ackId} else before.1)
  }

  /** The results in front of the first STOP. */
  function UntilStop(q: seq<Message>): (ps: seq<Package>)
    ensures |ps| <= |q|
  {
    if q == [] || q[0].Stop? then [] else [q[0].p] + UntilStop(q[1..])
  }

  lemma {:induction false} UntilStopTells(q: seq<Message>)
    ensures forall i :: 0 <= i < |UntilStop(q)| ==> q[i] == Result(UntilStop(q)[i])
    ensures |UntilStop(q)| < |q| ==> q[|UntilStop(q)|] == Stop
  {
    if q != [] && q[0].Result? {
      UntilStopTells(q[1..]);
    }
  }

  class Monitor {
    var tasks: Table
    var rows: set<nat>
    const conf: Conf

    constructor (conf: Conf, tasks: Table, rows: set<nat>)
      ensures this.conf == conf && this.tasks == tasks && this.rows == rows
    {
      this.conf, this.tasks, this.rows := conf, tasks, rows;
    }

    /** success_tasks_qs.last() */
    method FindOldest(ids: set<Id>) returns (a: Id)
      requires ids != {} && forall id :: id in ids ==> id in tasks
      ensures a == Oldest(tasks, ids)
    {
      a :| a in ids;
      var todo := ids - {a};
      while todo != {}
        invariant todo <= ids && a in ids && a !in todo
        invariant forall id :: id in ids - todo ==> Older(tasks, a, id)
        decreases todo
      {
        var b :| b in todo;
        assert forall id :: id in ids - (todo - {b}) ==> id in ids - todo || id == b;
        if !Older(tasks, a, b) {
          a := b;
        }
        todo := todo - {b};
      }
      assert forall id :: id in ids ==> id in ids - todo;
    }

    method Prune(p: Package)
      modifies this`tasks
      ensures tasks == Pruned(conf, old(tasks), p)
    {
      if conf.limit > 0 {
        var s := set id | id in tasks && tasks[id].out.success && SameLimit(conf.per, p.meta, tasks[id]);
        assert s == Successes(tasks, conf.per, p.meta);
        if p.out.success && |s| >= conf.limit {
          var a := FindOldest(s);
          tasks := tasks - {a};
        }
      }
    }

    /** save_task, without its chain step. */
    method Save(p: Package)
      modifies this
      ensures tasks == Saved(conf, old(tasks), p)
      ensures rows == if ReachesMax(conf, old(tasks), p) then old(rows) - {p.ackId} else old(rows)
    {
      var keep := if p.save.Some? then p.save.value else conf.limit >= 0;
      if !keep && p.out.success {
        return;
      }
      Prune(p);
      if p.id in tasks && tasks[p.id].meta.name != p.meta.name {
        return;
      }
      var attempts := 1;
      if p.id in tasks {
        var row := tasks[p.id];
        if !row.out.success {
          row := row.(out := p.out, attempts := row.attempts + 1);
          tasks := tasks[p.id := row];
        }
        attempts := row.attempts;
      } else {
        tasks := tasks[p.id := Row(p.meta, p.out, 1)];
      }
      if conf.max > 0 && attempts >= conf.max {
        rows := rows - {p.ackId};
      }
    }

    /** One turn of the monitor's loop. */
    method Handle(p: Package)
      modifies this
      ensures tasks == Saved(conf, old(tasks), p)
      ensures rows == if Acknowledged(conf, old(tasks), p) then old(rows) - {p.ackId} else old(rows)
    {
      Save(p);
      if p.out.success || p.ackFailure {
        rows := rows - {p.ackId};
      }
    }

    /** The loop: every result before the STOP is saved and acknowledged, in order; none after. The STOP is
        taken too. */
    method Run(queue: seq<Message>) returns (left: seq<Message>)
      modifies this
      ensures (tasks, rows) == Handled(conf, old(tasks), old(rows), UntilStop(queue))
      ensures
        var n := |UntilStop(queue)|;
        Stop !in queue[..n] && if n < |queue| then queue[n] == Stop && left == queue[n + 1..] else left == []
    {
      UntilStopTells(queue);
      ghost var ps, t0, r0, i := UntilStop(queue), tasks, rows, 0;
      left := queue;
      while left != []
        invariant i <= |ps| && left == queue[i..] && (tasks, rows) == Handled(conf, t0, r0, ps[..i])
        decreases left
      {
        var m := left[0];
        left := left[1..];
        if m.Stop? {
          assert i == |ps| && ps[..i] == ps;
          return;
        }
        assert i < |ps| && m.p == ps[i];
        Handle(m.p);
        assert ps[..i + 1][..i] == ps[..i];
        i := i + 1;
      }
      assert ps[..i] == ps;
    }
  }

  // ---------------------------------------------------------------- one result, in its own terms

  /** At the limit an oldest of the successes under it makes room for a success; nothing else is deleted. Without a
      group of its own a package is limited over all successes. */
  lemma PruneTells(conf: Conf, t: Table, p: Package) returns (a: Id)
    ensures
      var limited := set id | id in t && t[id].out.success &&
                       (conf.per == PerName ==> t[id].meta.name == p.meta.name) &&
                       (conf.per == PerFunc ==> t[id].meta.func == p.meta.func) &&
                       (conf.per == PerGroup && p.meta.group.Some? ==> t[id].meta.group == p.meta.group);
      if conf.limit > 0 && p.out.success && |limited| >= conf.limit then
        && a in limited && (forall id :: id in limited ==> t[a].out.stopped <= t[id].out.stopped)
        && Pruned(conf, t, p) == map id | id in t && id != a :: t[id]
      else Pruned(conf, t, p) == t
  {
    var limited := set id | id in t && t[id].out.success &&
                     (conf.per == PerName ==> t[id].meta.name == p.meta.name) &&
                     (conf.per == PerFunc ==> t[id].meta.func == p.meta.func) &&
                     (conf.per == PerGroup && p.meta.group.Some? ==> t[id].meta.group == p.meta.group);
    var s := Successes(t, conf.per, p.meta);
    assert limited == s;
    a := if Victim(conf, t, p).Some? then Victim(conf, t, p).value else 0;
    assert Victim(conf, t, p).Some? ==> IsOldest(t, s, a);
  }

  /** A success that is not to be saved leaves no trace. Else, after the pruning, the row found by id and name is
      left alone if it succeeded, and holds this result and counts one more if it failed; a row under
      another name stops the save; and there is a new one if there was none. The broker row goes when the
      count of the row is MAX_ATTEMPTS or more. */
  lemma SaveTells(conf: Conf, t: Table, p: Package)
    ensures
      if p.out.success && (p.save == Some(false) || (p.save == None && conf.limit < 0)) then
        Saved(conf, t, p) == t && !ReachesMax(conf, t, p)
      else
        var t1 := Pruned(conf, t, p);
        if p.id !in t1 then
          Saved(conf, t, p) == t1[p.id := Row(p.meta, p.out, 1)] && (ReachesMax(conf, t, p) <==> conf.max == 1)
        else if t1[p.id].meta.name != p.meta.name then Saved(conf, t, p) == t1 && !ReachesMax(conf, t, p)
        else if t1[p.id].out.success then
          Saved(conf, t, p) == t1 && (ReachesMax(conf, t, p) <==> 0 < conf.max <= t1[p.id].attempts)
        else
          && Saved(conf, t, p) == t1[p.id := Row(t1[p.id].meta, p.out, t1[p.id].attempts + 1)]
          && (ReachesMax(conf, t, p) <==> 0 < conf.max <= t1[p.id].attempts + 1)
  {
  }

  /** Which rows a run takes out of the broker: none but those of its results; every one with a success or with
      ack_failure. LeavesAfterMax says when the others go. */
  lemma {:induction false} RunAcknowledges(conf: Conf, t: Table, rows: set<nat>, ps: seq<Package>, ackId: nat)
    ensures
      var left := Handled(conf, t, rows, ps).1;
      && left <= rows
      && (ackId in rows && ackId !in left ==> exists i :: 0 <= i < |ps| && ps[i].ackId == ackId)
      && ((exists i :: 0 <= i < |ps| && ps[i].ackId == ackId && (ps[i].out.success || ps[i].ackFailure)) ==>
            ackId !in left)
    decreases |ps|
  {
    if ps != [] {
      var n := |ps| - 1;
      RunAcknowledges(conf, t, rows, ps[..n], ackId);
      assert forall i :: 0 <= i < n ==> ps[..n][i] == ps[i];
    }
  }

  // ---------------------------------------------------------------- a success is final

  /** Neither transaction touches a success that is there before and after. */
  lemma SuccessIsFinal(conf: Conf, t: Table, p: Package, id: Id)
    requires id in t && t[id].out.success
    ensures id in Pruned(conf, t, p) ==> Pruned(conf, t, p)[id] == t[id]
    ensures id in Stored(t, p) && Stored(t, p)[id] == t[id]
  {
  }

  lemma FailuresAreNeverPruned(conf: Conf, t: Table, p: Package, id: Id)
    requires id in t && !t[id].out.success
    ensures id in Pruned(conf, t, p) && Pruned(conf, t, p)[id] == t[id]
  {
  }

  /** Taken together they replace a success exactly when it is its own victim: redelivered, at the
      limit, and the oldest. Its attempt count then starts again. */
  lemma RedeliveryReplaces(conf: Conf, t: Table, p: Package)
    requires p.id in t && t[p.id].out.success && Kept(conf, p)
    ensures Victim(conf, t, p) == Some(p.id) ==> Saved(conf, t, p)[p.id] == Row(p.meta, p.out, 1)
    ensures Victim(conf, t, p) != Some(p.id) ==> p.id in Saved(conf, t, p) && Saved(conf, t, p)[p.id] == t[p.id]
  {
  }

  // ---------------------------------------------------------------- a task that keeps failing

  function ResultsFor(ps: seq<Package>, id: Id): nat {
    if ps == [] then 0
    else ResultsFor(ps[..|ps| - 1], id) + (if ps[|ps| - 1].id == id then 1 else 0)
  }

  /** Failures of one task without ack_failure, and results of other tasks, delivered under other receipts. */
  predicate KeepsFailing(p: Package, id: Id, meta: Meta, ackId: nat) {
    if p.id == id then p.meta == meta && p.ackId == ackId && !p.out.success && !p.ackFailure
    else p.ackId != ackId
  }

  predicate Counted(t: Table, id: Id, meta: Meta, n: nat) {
    if n == 0 then id !in t
    else id in t && !t[id].out.success && t[id].meta == meta && t[id].attempts == n
  }

  lemma FailsOnceMore(conf: Conf, t: Table, p: Package, n: nat)
    requires Counted(t, p.id, p.meta, n) && !p.out.success
    ensures Counted(Saved(conf, t, p), p.id, p.meta, n + 1)
    ensures ReachesMax(conf, t, p) <==> 0 < conf.max <= n + 1
  {
  }

  lemma FailsBeside(conf: Conf, t: Table, p: Package, id: Id, meta: Meta, n: nat)
    requires Counted(t, id, meta, n) && p.id != id
    ensures Counted(Saved(conf, t, p), id, meta, n)
  {
  }

  /** A task that keeps failing, among the results of others: its row counts the attempts, and it is in the broker
      as long as they are fewer than MAX_ATTEMPTS; for ever, if that is 0. */
  lemma {:induction false} LeavesAfterMax(conf: Conf, t: Table, rows: set<nat>, ps: seq<Package>, id: Id, meta: Meta,
      ackId: nat)
    requires id !in t && ackId in rows && forall i :: 0 <= i < |ps| ==> KeepsFailing(ps[i], id, meta, ackId)
    ensures
      var r, n := Handled(conf, t, rows, ps), ResultsFor(ps, id);
      && Counted(r.0, id, meta, n)
      && (ackId in r.1 <==> conf.max == 0 || n < conf.max)
    decreases |ps|
  {
    if ps != [] {
      var before, p := ps[..|ps| - 1], ps[|ps| - 1];
      var r, n := Handled(conf, t, rows, before), ResultsFor(before, id);
      LeavesAfterMax(conf, t, rows, before, id, meta, ackId);
      assert KeepsFailing(p, id, meta, ackId);
      if p.id == id {
        FailsOnceMore(conf, r.0, p, n);
      } else {
        FailsBeside(conf, r.0, p, id, meta, n);
      }
    }
  }
}
