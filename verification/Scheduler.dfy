/** One pass of the scheduler over the schedule table, and what any series of passes adds up to. */
module Scheduler {
  import opened Options
  import opened Orbits
  import opened NextRun

  type Id = nat

  datatype Sched = Sched(
    kind: Kind,
    minutes: nat,
    repeats: int,
    nextRun: Option<int>,
    cluster: Option<string>,
    argsParse: bool)

  datatype Site = Site(name: string, prefix: string, catchUp: bool)

  /** The croniter oracle: the next match after an instant; None where it raises. */
  type CronTab = int -> Option<int>

  datatype Fired = Fired(id: Id, intended: int)

  /** The schedules this cluster handles: its own, and the unnamed ones if it is the default. */
  predicate Mine(site: Site, s: Sched) {
    if s.cluster.None? then site.name == site.prefix else s.cluster.value == site.name
  }

  predicate Due(site: Site, s: Sched, now: int) {
    s.repeats != 0 && s.nextRun.Some? && s.nextRun.value < now && Mine(site, s)
  }

  ghost predicate Sane(zone: Zone, cron: CronTab) {
    Calm(zone) && forall t :: cron(t).Some? ==> cron(t).value > t
  }

  function Countdown(repeats: int): int {
    var r := if repeats < -1 then -1 else repeats;
    if r > 0 then r - 1 else r
  }

  /** The new next_run of a recurring schedule. */
  function Advance(site: Site, zone: Zone, cron: CronTab, s: Sched, now: int): Option<int>
    requires Sane(zone, cron) && s.nextRun.Some?
  {
    if s.kind.Cron? then cron(now)
    else
      var f := Stepper(s.kind, s.minutes, zone);
      StepperGoesForward(s.kind, s.minutes, zone, now);
      if site.catchUp then f(s.nextRun.value) else SkipTo(f, f(s.nextRun.value), now)
  }

  datatype Outcome = Raises | Stays(s: Sched) | Deleted

  /** What the loop body does to a due row. */
  function Process(site: Site, zone: Zone, cron: CronTab, s: Sched, now: int): Outcome
    requires Sane(zone, cron) && s.nextRun.Some?
  {
    if !s.argsParse then Raises
    else if s.kind.Once? then (if s.repeats < 0 then Deleted else Stays(s.(repeats := 0)))
    else
      var n := Advance(site, zone, cron, s, now);
      if n.None? then Raises else Stays(s.(nextRun := n, repeats := Countdown(s.repeats)))
  }

  type Schedules = map<Id, Sched>

  /** Due and Process for one pass, as functions of the row alone. */
  ghost function DueIn(site: Site, now: int): Sched -> bool {
    (s: Sched) => Due(site, s, now)
  }

  ghost function ProcessIn(site: Site, zone: Zone, cron: CronTab, now: int): Sched -> Outcome
    requires Sane(zone, cron)
  {
    (s: Sched) => if s.nextRun.Some? then Process(site, zone, cron, s, now) else Raises
  }

  /** What a committed pass does to one row: untouched if not due, else processed. */
  ghost predicate RowPassed(due: Sched -> bool, process: Sched -> Outcome, s: Sched, s': Option<Sched>) {
    if !due(s) then s' == Some(s)
    else
      match process(s)
      case Raises => false
      case Stays(t) => s' == Some(t)
      case Deleted => s' == None
  }

  function Lookup(rows: Schedules, id: Id): Option<Sched> {
    if id in rows then Some(rows[id]) else None
  }

  /** The table after a pass in which no row raised. */
  ghost predicate Passed(due: Sched -> bool, process: Sched -> Outcome, old_: Schedules, new_: Schedules) {
    && (forall id :: id in new_ ==> id in old_)
    && (forall id :: id in old_ ==> RowPassed(due, process, old_[id], Lookup(new_, id)))
  }

  ghost function DueIds(due: Sched -> bool, rows: Schedules): set<Id> {
    set id | id in rows && due(rows[id])
  }

  /** The ids of a list of created tasks. */
  ghost function Ids(fired: seq<Fired>): set<Id> {
    if fired == [] then {} else Ids(fired[..|fired| - 1]) + {fired[|fired| - 1].id}
  }

  /** One task per row, for the run the row was due for. */
  ghost predicate FiresRows(rows: Schedules, fired: seq<Fired>) {
    fired == [] ||
    var f := fired[|fired| - 1];
    FiresRows(rows, fired[..|fired| - 1]) && f.id !in Ids(fired[..|fired| - 1]) && Lookup(rows, f.id).Some? &&
    rows[f.id].nextRun == Some(f.intended)
  }

  /** In the middle of a pass: the rows still to do are untouched, the others have been passed. */
  ghost predicate Midway(due: Sched -> bool, process: Sched -> Outcome, before: Schedules, rows: Schedules,
      todo: set<Id>)
  {
    && (forall id :: id in rows ==> id in before)
    && (forall id :: id in todo ==> id in rows && id in before && rows[id] == before[id])
    && (forall id :: id in before && id !in todo ==> RowPassed(due, process, before[id], Lookup(rows, id)))
  }

  function Applied(rows: Schedules, id: Id, o: Outcome): Schedules {
    if o.Deleted? then rows - {id} else if o.Stays? then rows[id := o.s] else rows
  }

  lemma MidwayStep(due: Sched -> bool, process: Sched -> Outcome, before: Schedules, rows: Schedules, todo: set<Id>,
      id: Id)
    requires Midway(due, process, before, rows, todo) && id in todo
    requires due(before[id]) && !process(before[id]).Raises?
    ensures Midway(due, process, before, Applied(rows, id, process(before[id])), todo - {id})
  {
    var rows' := Applied(rows, id, process(before[id]));
    forall j | j in before && j !in todo - {id}
      ensures RowPassed(due, process, before[j], Lookup(rows', j))
    {
      if j != id {
        assert Lookup(rows', j) == Lookup(rows, j);
      }
    }
  }

  lemma FiresStep(rows: Schedules, fired: seq<Fired>, f: Fired, dueIds: set<Id>, todo: set<Id>)
    requires FiresRows(rows, fired) && f.id in rows && rows[f.id].nextRun == Some(f.intended)
    requires f.id in todo && todo <= dueIds && Ids(fired) == dueIds - todo
    ensures FiresRows(rows, fired + [f]) && Ids(fired + [f]) == dueIds - (todo - {f.id})
  {
    assert (fired + [f])[..|fired|] == fired;
  }

  lemma MidwayEnds(due: Sched -> bool, process: Sched -> Outcome, before: Schedules, rows: Schedules)
    requires Midway(due, process, before, rows, {})
    ensures Passed(due, process, before, rows)
    ensures forall id :: id in DueIds(due, before) ==> !process(before[id]).Raises?
  {
    forall id | id in DueIds(due, before)
      ensures !process(before[id]).Raises?
    {
      assert RowPassed(due, process, before[id], Lookup(rows, id));
    }
  }

  /** Marks the rows at which Implements is to be used: its quantifier says nothing about any other. */
  predicate Taken(s: Sched) {
    true
  }

  ghost predicate Implements(process: Sched -> Outcome, site: Site, zone: Zone, cron: CronTab, now: int)
    requires Sane(zone, cron)
  {
    forall s: Sched {:trigger Taken(s)} :: Taken(s) && s.nextRun.Some? ==>
      process(s) == Process(site, zone, cron, s, now)
  }

  /** The tasks of a pass that are in the queue afterwards. A pass that is rolled back takes its tasks with it
      if they were enqueued in the same transaction, as with the ORM broker on the schedules' database. */
  function Enqueued(shared: bool, ok: bool, fired: seq<Fired>): seq<Fired> {
    if !ok && shared then [] else fired
  }

  /** shared: the broker enqueues within the transaction of the pass. */
  class Table {
    const shared: bool
    var rows: Schedules
    var created: seq<Fired>

    constructor (shared: bool, rows: Schedules)
      ensures this.shared == shared && this.rows == rows && created == []
    {
      this.shared, this.rows, created := shared, rows, [];
    }

    /** The due rows are processed in whatever order the query yields them. If one raises, the whole
        transaction is rolled back; tasks already enqueued for earlier rows stay if they are not part of it. */
    method Pass(site: Site, zone: Zone, cron: CronTab, now: int) returns (ok: bool, fired: seq<Fired>)
      requires Sane(zone, cron)
      modifies this
      ensures created == old(created) + Enqueued(shared, ok, fired) && FiresRows(old(rows), fired)
      ensures
        var due, process := DueIn(site, now), ProcessIn(site, zone, cron, now);
        && (ok <==> forall id :: id in DueIds(due, old(rows)) ==> !process(old(rows)[id]).Raises?)
        && (ok ==> Passed(due, process, old(rows), rows) && Ids(fired) == DueIds(due, old(rows)))
        && (!ok ==> rows == old(rows) && Ids(fired) < DueIds(due, old(rows)))
        && (forall id :: id in Ids(fired) ==> id in old(rows) && !process(old(rows)[id]).Raises?)
    {
      var todo := set id | id in rows && Due(site, rows[id], now);
      ghost var due, process := DueIn(site, now), ProcessIn(site, zone, cron, now);
      assert todo == DueIds(due, rows);
      ok, fired := Loop(site, zone, cron, now, todo, due, process);
    }

    /** One pass, with the record of it. */
    method Recorded(site: Site, zone: Zone, cron: CronTab, now: int, ghost isPass: Record -> bool)
      returns (ghost r: Record)
      requires Sane(zone, cron) && Tells(isPass, zone, cron)
      modifies this
      ensures isPass(r) && r.site == site && r.now == now
      ensures r.before == old(rows) && r.after == rows && created == old(created) + Enqueued(shared, r.ok, r.fired)
    {
      ghost var before := rows;
      var ok, fired := Pass(site, zone, cron, now);
      r := Record(site, now, before, rows, ok, fired);
      assert Seen(r);
    }

    /** Pass after pass, by whichever clusters: the records of the calls are linked, and account for every
        task created. */
    method PassAll(calls: seq<(Site, int)>, zone: Zone, cron: CronTab) returns (ghost rs: seq<Record>)
      requires Sane(zone, cron)
      modifies this
      ensures |rs| == |calls| && created == old(created) + AllEnqueued(shared, rs)
      ensures Linked(PassIn(zone, cron), rs, old(rows), rows)
    {
      rs := Repeat(calls, zone, cron, PassIn(zone, cron));
    }

    method Repeat(calls: seq<(Site, int)>, zone: Zone, cron: CronTab, ghost isPass: Record -> bool)
      returns (ghost rs: seq<Record>)
      requires Sane(zone, cron) && Tells(isPass, zone, cron)
      modifies this
      ensures |rs| == |calls| && created == old(created) + AllEnqueued(shared, rs)
      ensures Linked(isPass, rs, old(rows), rows)
    {
      rs := [];
      for n := 0 to |calls|
        invariant |rs| == n && created == old(created) + AllEnqueued(shared, rs)
        invariant Linked(isPass, rs, old(rows), rows)
      {
        ghost var r := Recorded(calls[n].0, zone, cron, calls[n].1, isPass);
        LinkedOn(shared, isPass, rs, r, old(rows));
        rs := rs + [r];
      }
    }

    method Loop(site: Site, zone: Zone, cron: CronTab, now: int, dueIds: set<Id>, ghost due: Sched -> bool,
        ghost process: Sched -> Outcome)
      returns (ok: bool, fired: seq<Fired>)
      requires Sane(zone, cron) && dueIds == DueIds(due, rows)
      requires forall s: Sched :: due(s) ==> s.nextRun.Some?
      requires Implements(process, site, zone, cron, now)
      modifies this
      ensures created == old(created) + Enqueued(shared, ok, fired) && FiresRows(old(rows), fired)
      ensures ok <==> forall id :: id in dueIds ==> !process(old(rows)[id]).Raises?
      ensures ok ==> Passed(due, process, old(rows), rows) && Ids(fired) == dueIds
      ensures !ok ==> rows == old(rows) && Ids(fired) < dueIds
      ensures forall id :: id in Ids(fired) ==> id in old(rows) && !process(old(rows)[id]).Raises?
    {
      var before := rows;
      var todo := dueIds;
      ok, fired := true, [];
      var sent := created;
      while todo != {}
        invariant ok && created == sent + fired
        invariant FiresRows(before, fired) && Ids(fired) == dueIds - todo
        invariant todo <= dueIds && Midway(due, process, before, rows, todo)
        invariant forall id :: id in dueIds - todo ==> !process(before[id]).Raises?
        decreases todo
      {
        var id :| id in todo;
        ok := One(site, zone, cron, now, id, due, process, before, todo);
        if !ok {
          rows := before;
          if shared {
            created := sent;
          }
          return;
        }
        FiresStep(before, fired, Fired(id, before[id].nextRun.value), dueIds, todo);
        fired := fired + [Fired(id, before[id].nextRun.value)];
        todo := todo - {id};
      }
      MidwayEnds(due, process, before, rows);
    }

    /** The loop body: process one due row, create its task, save or delete the row. */
    method One(site: Site, zone: Zone, cron: CronTab, now: int, id: Id,
               ghost due: Sched -> bool, ghost process: Sched -> Outcome, ghost before: Schedules, ghost todo: set<Id>)
      returns (ok: bool)
      requires Sane(zone, cron) && Implements(process, site, zone, cron, now)
      requires Midway(due, process, before, rows, todo) && id in todo && due(before[id]) && before[id].nextRun.Some?
      modifies this
      ensures ok <==> !process(before[id]).Raises?
      ensures ok ==> created == old(created) + [Fired(id, before[id].nextRun.value)]
      ensures ok ==> Midway(due, process, before, rows, todo - {id})
      ensures !ok ==> created == old(created)
    {
      var s := rows[id];
      var outcome := Body(site, zone, cron, s, now, process);
      ok := !outcome.Raises?;
      if ok {
        MidwayStep(due, process, before, rows, todo, id);
        created := created + [Fired(id, s.nextRun.value)];
        rows := Applied(rows, id, outcome);
      }
    }

    /** ProcessRow, specified by the function that the pass was given for it. */
    method Body(site: Site, zone: Zone, cron: CronTab, s: Sched, now: int, ghost process: Sched -> Outcome)
        returns (r: Outcome)
      requires Sane(zone, cron) && s.nextRun.Some? && Implements(process, site, zone, cron, now)
      ensures r == process(s)
    {
      assert Taken(s);
      r := ProcessRow(site, zone, cron, s, now);
    }

    /** The new next_run, with the inner skipping loop. */
    method NextOf(site: Site, zone: Zone, cron: CronTab, s: Sched, now: int) returns (next: Option<int>)
      requires Sane(zone, cron) && s.nextRun.Some?
      ensures next == Advance(site, zone, cron, s, now)
    {
      if s.kind.Cron? {
        next := cron(now);
      } else {
        StepperGoesForward(s.kind, s.minutes, zone, now);
        var n, _ := Skip(Stepper(s.kind, s.minutes, zone), s.nextRun.value, now, site.catchUp);
        next := n;
      }
    }

    /** The loop body for one row. */
    method ProcessRow(site: Site, zone: Zone, cron: CronTab, s: Sched, now: int) returns (r: Outcome)
      requires Sane(zone, cron) && s.nextRun.Some?
      ensures r == Process(site, zone, cron, s, now)
    {
      if !s.argsParse { return Raises; }
      if s.kind.Once? {
        return if s.repeats < 0 then Deleted else Stays(s.(repeats := 0));
      }
      var next := NextOf(site, zone, cron, s, now);
      if next.None? { return Raises; }
      var repeats := s.repeats;
      if repeats < -1 { repeats := -1; }
      if repeats > 0 { repeats := repeats - 1; }
      r := Stays(s.(nextRun := next, repeats := repeats));
    }
  }

  // ---------------------------------------------------------------- one row through many passes

  /** A pass as one row sees it: by which cluster, when, whether the transaction was committed, and, if it was
      rolled back for another row's sake, whether a task for this row is in the queue all the same. */
  datatype Visit = Visit(site: Site, now: int, commits: bool, leaves: bool)

  /** fired: the runs that tasks were created for, in order; undone: how many of them in rolled-back passes. */
  datatype History = History(row: Option<Sched>, fired: seq<int>, undone: nat)

  ghost function See(h: History, zone: Zone, cron: CronTab, v: Visit): History
    requires Sane(zone, cron)
  {
    if h.row.None? || !Due(v.site, h.row.value, v.now) then h
    else
      var run := h.row.value.nextRun.value;
      match Process(v.site, zone, cron, h.row.value, v.now)
      case Raises => h
      case Stays(t) => if v.commits then h.(row := Some(t), fired := h.fired + [run]) else Undo(h, run, v)
      case Deleted => if v.commits then h.(row := None, fired := h.fired + [run]) else Undo(h, run, v)
  }

  /** A rolled-back pass leaves the row as it was, but its task may be in the queue. */
  ghost function Undo(h: History, run: int, v: Visit): History {
    if v.leaves then h.(fired := h.fired + [run], undone := h.undone + 1) else h
  }

  ghost function SeeAll(h: History, zone: Zone, cron: CronTab, vs: seq<Visit>): History
    requires Sane(zone, cron)
    decreases |vs|
  {
    if vs == [] then h else See(SeeAll(h, zone, cron, vs[..|vs| - 1]), zone, cron, vs[|vs| - 1])
  }

  /** A schedule to be repeated n times: every task created is one less to come, but for the tasks of
      rolled-back passes. Without those, it stops after n. */
  lemma {:induction false} RepeatsCountDown(s: Sched, zone: Zone, cron: CronTab, vs: seq<Visit>)
    requires Sane(zone, cron) && !s.kind.Once? && s.repeats > 0
    ensures
      var h := SeeAll(History(Some(s), [], 0), zone, cron, vs);
      h.row.Some? && h.row.value.kind == s.kind && h.row.value.repeats >= 0 &&
      |h.fired| + h.row.value.repeats == s.repeats + h.undone
    decreases |vs|
  {
    if vs != [] {
      RepeatsCountDown(s, zone, cron, vs[..|vs| - 1]);
    }
  }

  /** A negative count means forever: it stays as it is until the first committed run, then is -1. */
  lemma {:induction false} NegativeIsForever(s: Sched, zone: Zone, cron: CronTab, vs: seq<Visit>)
    requires Sane(zone, cron) && !s.kind.Once? && s.repeats < 0
    ensures
      var h := SeeAll(History(Some(s), [], 0), zone, cron, vs);
      h.row.Some? && h.row.value.kind == s.kind &&
      h.row.value.repeats == (if |h.fired| > h.undone then -1 else s.repeats) && |h.fired| >= h.undone
    decreases |vs|
  {
    if vs != [] {
      NegativeIsForever(s, zone, cron, vs[..|vs| - 1]);
    }
  }

  lemma {:induction false} ZeroNeverFires(s: Sched, zone: Zone, cron: CronTab, vs: seq<Visit>)
    requires Sane(zone, cron) && s.repeats == 0
    ensures SeeAll(History(Some(s), [], 0), zone, cron, vs) == History(Some(s), [], 0)
    decreases |vs|
  {
    if vs != [] {
      ZeroNeverFires(s, zone, cron, vs[..|vs| - 1]);
    }
  }

  /** A ONCE schedule creates at most one task, but for the tasks of rolled-back passes. */
  lemma {:induction false} OnceIsOnce(s: Sched, zone: Zone, cron: CronTab, vs: seq<Visit>)
    requires Sane(zone, cron) && s.kind.Once?
    ensures
      var h := SeeAll(History(Some(s), [], 0), zone, cron, vs);
      h.undone <= |h.fired| <= h.undone + 1 &&
      (|h.fired| == h.undone ==> h.row == Some(s)) &&
      (|h.fired| > h.undone ==> h.row == if s.repeats < 0 then None else Some(s.(repeats := 0)))
    decreases |vs|
  {
    if vs != [] {
      OnceIsOnce(s, zone, cron, vs[..|vs| - 1]);
    }
  }

  // ---------------------------------------------------------------- passes of the table are visits of its rows

  /** What one call of Table.Pass promises, as a record of the call. */
  datatype Record = Record(site: Site, now: int, before: Schedules, after: Schedules, ok: bool, fired: seq<Fired>)

  ghost predicate IsPass(r: Record, zone: Zone, cron: CronTab)
    requires Sane(zone, cron)
  {
    var due, process := DueIn(r.site, r.now), ProcessIn(r.site, zone, cron, r.now);
    && FiresRows(r.before, r.fired)
    && (r.ok <==> forall id :: id in DueIds(due, r.before) ==> !process(r.before[id]).Raises?)
    && (r.ok ==> Passed(due, process, r.before, r.after) && Ids(r.fired) == DueIds(due, r.before))
    && (!r.ok ==> r.after == r.before && Ids(r.fired) < DueIds(due, r.before))
    && (forall id :: id in Ids(r.fired) ==> id in r.before && !process(r.before[id]).Raises?)
  }

  /** The next_run that a committed pass gives a recurring row: CRON, the next match after now; with catch-up,
      one step on; without, the first point of its orbit after now. None where the code raises on the way. */
  ghost predicate IsNext(site: Site, zone: Zone, cron: CronTab, s: Sched, now: int, next: Option<int>)
    requires s.nextRun.Some?
  {
    var f := Stepper(s.kind, s.minutes, zone);
    if s.kind == Cron then next == cron(now)
    else if site.catchUp then next == NextRun.NextRun(s.kind, s.minutes, zone, s.nextRun.value)
    else exists k :: FirstBeyond(f, s.nextRun.value, now, k) && next == Orbit(f, s.nextRun.value, k)
  }

  lemma AdvanceIsNext(site: Site, zone: Zone, cron: CronTab, s: Sched, now: int)
    requires Sane(zone, cron) && s.nextRun.Some?
    ensures IsNext(site, zone, cron, s, now, Advance(site, zone, cron, s, now))
  {
    if s.kind != Cron {
      StepperGoesForward(s.kind, s.minutes, zone, now);
      if !site.catchUp {
        var k := SkipLands(Stepper(s.kind, s.minutes, zone), s.nextRun.value, now);
      }
    }
  }

  lemma NextIsUnique(site: Site, zone: Zone, cron: CronTab, s: Sched, now: int, a: Option<int>, b: Option<int>)
    requires s.nextRun.Some? && IsNext(site, zone, cron, s, now, a) && IsNext(site, zone, cron, s, now, b)
    ensures a == b
  {
    if s.kind != Cron && !site.catchUp {
      var f, t := Stepper(s.kind, s.minutes, zone), s.nextRun.value;
      var j :| FirstBeyond(f, t, now, j) && a == Orbit(f, t, j);
      var k :| FirstBeyond(f, t, now, k) && b == Orbit(f, t, k);
      FirstBeyondUnique(f, t, now, j, k);
    }
  }

  /** What becomes of a row that is due: its arguments must parse. A ONCE row is deleted if its count is negative and
      else left at 0. Any other needs a next run, and counts down; below 0 it is set to -1. */
  ghost predicate RowRuns(site: Site, zone: Zone, cron: CronTab, s: Sched, now: int, o: Outcome)
    requires s.nextRun.Some?
  {
    if !s.argsParse then o == Raises
    else if s.kind == Once then (if s.repeats < 0 then o == Deleted else o == Stays(s.(repeats := 0)))
    else if IsNext(site, zone, cron, s, now, None) then o == Raises
    else
      && o.Stays? && IsNext(site, zone, cron, s, now, o.s.nextRun)
      && o.s.repeats == (if s.repeats > 0 then s.repeats - 1 else if s.repeats < 0 then -1 else 0)
      && o.s == s.(nextRun := o.s.nextRun, repeats := o.s.repeats)
  }

  lemma RowsRun(site: Site, zone: Zone, cron: CronTab, s: Sched, now: int)
    requires Sane(zone, cron) && s.nextRun.Some?
    ensures RowRuns(site, zone, cron, s, now, Process(site, zone, cron, s, now))
    ensures RowRuns(site, zone, cron, s, now, Raises) <==> Process(site, zone, cron, s, now).Raises?
  {
    var next := Advance(site, zone, cron, s, now);
    AdvanceIsNext(site, zone, cron, s, now);
    if IsNext(site, zone, cron, s, now, None) {
      NextIsUnique(site, zone, cron, s, now, next, None);
    }
  }

  /** A pass, with what becomes of a row behind a function value. */
  lemma PassTellsOf(r: Record, due: Sched -> bool, process: Sched -> Outcome, runs: (Sched, Outcome) -> bool)
    requires forall id :: id in DueIds(due, r.before) ==>
      runs(r.before[id], process(r.before[id])) && (runs(r.before[id], Raises) <==> process(r.before[id]).Raises?)
    requires r.ok <==> forall id :: id in DueIds(due, r.before) ==> !process(r.before[id]).Raises?
    requires r.ok ==> Passed(due, process, r.before, r.after)
    ensures r.ok <==> forall id :: id in DueIds(due, r.before) ==> !runs(r.before[id], Raises)
    ensures r.ok ==> forall id :: id in DueIds(due, r.before) ==>
      runs(r.before[id], if id in r.after then Stays(r.after[id]) else Deleted)
    ensures r.ok ==> forall id :: id in r.before && id !in DueIds(due, r.before) ==>
      id in r.after && r.after[id] == r.before[id]
  {
    if r.ok {
      assert forall id :: id in r.before ==> RowPassed(due, process, r.before[id], Lookup(r.after, id));
    }
  }

  ghost function RunsIn(site: Site, zone: Zone, cron: CronTab, now: int): (Sched, Outcome) -> bool {
    (s: Sched, o: Outcome) => s.nextRun.Some? && RowRuns(site, zone, cron, s, now, o)
  }

  /** The rows the query yields: a run before now, a count other than 0, and this cluster's name, or none for the
      default cluster. */
  lemma DueTells(site: Site, now: int, rows: Schedules)
    ensures
      DueIds(DueIn(site, now), rows) ==
        set id | id in rows && rows[id].repeats != 0 && rows[id].nextRun.Some? && rows[id].nextRun.value < now &&
          (rows[id].cluster == Some(site.name) || (rows[id].cluster == None && site.name == site.prefix))
  {
  }

  lemma RowsRunIn(site: Site, zone: Zone, cron: CronTab, now: int, rows: Schedules)
    requires Sane(zone, cron)
    ensures forall id :: id in DueIds(DueIn(site, now), rows) ==>
      && RunsIn(site, zone, cron, now)(rows[id], ProcessIn(site, zone, cron, now)(rows[id]))
      && (RunsIn(site, zone, cron, now)(rows[id], Raises) <==> ProcessIn(site, zone, cron, now)(rows[id]).Raises?)
  {
    forall id | id in DueIds(DueIn(site, now), rows)
      ensures RunsIn(site, zone, cron, now)(rows[id], ProcessIn(site, zone, cron, now)(rows[id]))
      ensures RunsIn(site, zone, cron, now)(rows[id], Raises) <==> ProcessIn(site, zone, cron, now)(rows[id]).Raises?
    {
      RowsRun(site, zone, cron, rows[id], now);
    }
  }

  /** A pass, row by row. If none of the rows it runs raises it is committed: each has its task and its new row, the
      others are as they were. If one raises it is rolled back. */
  lemma PassTells(r: Record, zone: Zone, cron: CronTab)
    requires Sane(zone, cron) && IsPass(r, zone, cron)
    ensures
      var runs, due := RunsIn(r.site, zone, cron, r.now), DueIds(DueIn(r.site, r.now), r.before);
      && (r.ok <==> forall id :: id in due ==> !runs(r.before[id], Raises))
      && (r.ok ==> Ids(r.fired) == due && r.after.Keys <= r.before.Keys)
      && (r.ok ==> forall id :: id in due ==> runs(r.before[id], if id in r.after then Stays(r.after[id]) else Deleted))
      && (r.ok ==> forall id :: id in r.before && id !in due ==> id in r.after && r.after[id] == r.before[id])
      && (!r.ok ==> r.after == r.before && Ids(r.fired) < due)
  {
    var due, process := DueIn(r.site, r.now), ProcessIn(r.site, zone, cron, r.now);
    RowsRunIn(r.site, zone, cron, r.now, r.before);
    PassTellsOf(r, due, process, RunsIn(r.site, zone, cron, r.now));
  }

  ghost function PassIn(zone: Zone, cron: CronTab): Record -> bool
    requires Sane(zone, cron)
  {
    (r: Record) => IsPass(r, zone, cron)
  }

  /** Marks the records at which Tells is to be used, as Taken does for rows. */
  predicate Seen(r: Record) {
    true
  }

  ghost predicate Tells(isPass: Record -> bool, zone: Zone, cron: CronTab)
    requires Sane(zone, cron)
  {
    forall r: Record {:trigger Seen(r)} :: Seen(r) ==> isPass(r) == IsPass(r, zone, cron)
  }

  /** Passes one after the other, from one state of the table to another. */
  ghost predicate Linked(isPass: Record -> bool, rs: seq<Record>, first: Schedules, last: Schedules)
    decreases |rs|
  {
    if rs == [] then first == last
    else
      var r := rs[|rs| - 1];
      isPass(r) && r.after == last && Linked(isPass, rs[..|rs| - 1], first, r.before)
  }

  lemma LinkedOn(shared: bool, isPass: Record -> bool, rs: seq<Record>, r: Record, first: Schedules)
    requires isPass(r) && Linked(isPass, rs, first, r.before)
    ensures Linked(isPass, rs + [r], first, r.after)
    ensures AllEnqueued(shared, rs + [r]) == AllEnqueued(shared, rs) + Enqueued(shared, r.ok, r.fired)
  {
    assert (rs + [r])[..|rs|] == rs;
  }

  /** The runs that a list of created tasks has for one schedule. */
  function RunsOf(fired: seq<Fired>, id: Id): seq<int> {
    if fired == [] then []
    else
      var last := fired[|fired| - 1];
      RunsOf(fired[..|fired| - 1], id) + (if last.id == id then [last.intended] else [])
  }

  /** In one pass: the run the row was due for, or none. */
  lemma {:induction false} OneRunEach(rows: Schedules, fired: seq<Fired>, id: Id)
    requires FiresRows(rows, fired)
    ensures id !in Ids(fired) ==> RunsOf(fired, id) == []
    ensures id in Ids(fired) ==> id in rows && rows[id].nextRun.Some? && RunsOf(fired, id) == [rows[id].nextRun.value]
  {
    if fired != [] {
      OneRunEach(rows, fired[..|fired| - 1], id);
    }
  }

  ghost function VisitOf(shared: bool, r: Record, id: Id): Visit {
    Visit(r.site, r.now, r.ok, !shared && id in Ids(r.fired))
  }

  lemma CommittedIsVisit(shared: bool, r: Record, zone: Zone, cron: CronTab, id: Id, h: History)
    requires Sane(zone, cron) && IsPass(r, zone, cron) && r.ok && h.row == Lookup(r.before, id)
    ensures
      See(h, zone, cron, VisitOf(shared, r, id)) ==
        History(Lookup(r.after, id), h.fired + RunsOf(Enqueued(shared, r.ok, r.fired), id), h.undone)
  {
    OneRunEach(r.before, r.fired, id);
    if id in r.before {
      assert RowPassed(DueIn(r.site, r.now), ProcessIn(r.site, zone, cron, r.now), r.before[id], Lookup(r.after, id));
    }
    assert h.fired + [] == h.fired;
  }

  /** With a broker in the transaction such a visit leaves nothing at all. */
  lemma RolledBackIsVisit(shared: bool, r: Record, zone: Zone, cron: CronTab, id: Id, h: History)
    requires Sane(zone, cron) && IsPass(r, zone, cron) && !r.ok && h.row == Lookup(r.before, id)
    ensures
      var runs := RunsOf(Enqueued(shared, r.ok, r.fired), id);
      && See(h, zone, cron, VisitOf(shared, r, id)) ==
           History(Lookup(r.after, id), h.fired + runs, h.undone + |runs|)
      && (shared ==> See(h, zone, cron, VisitOf(shared, r, id)) == h)
  {
    OneRunEach(r.before, r.fired, id);
    assert id in Ids(r.fired) ==> id in DueIds(DueIn(r.site, r.now), r.before);
    assert h.fired + [] == h.fired;
  }

  // ---------------------------------------------------------------- the count laws, for the table

  /** Any number of passes, by any clusters; between them nothing else touches the row with this id. */
  ghost predicate Series(rs: seq<Record>, zone: Zone, cron: CronTab, id: Id)
    requires Sane(zone, cron)
  {
    && (forall i :: 0 <= i < |rs| ==> IsPass(rs[i], zone, cron))
    && (forall i :: 0 <= i < |rs| - 1 ==> Lookup(rs[i].after, id) == Lookup(rs[i + 1].before, id))
  }

  /** The passes of one table are such a series for each of its rows. */
  lemma {:induction false} LinkedIsSeries(rs: seq<Record>, zone: Zone, cron: CronTab, first: Schedules,
      last: Schedules, id: Id)
    requires Sane(zone, cron) && Linked(PassIn(zone, cron), rs, first, last)
    ensures Series(rs, zone, cron, id)
    ensures rs != [] ==> rs[0].before == first && rs[|rs| - 1].after == last
    decreases |rs|
  {
    if rs != [] {
      var n := |rs| - 1;
      LinkedIsSeries(rs[..n], zone, cron, first, rs[n].before, id);
      forall i | 0 <= i < n
        ensures IsPass(rs[i], zone, cron) && Lookup(rs[i].after, id) == Lookup(rs[i + 1].before, id)
      {
        assert rs[..n][i] == rs[i];
        if i < n - 1 {
          assert rs[..n][i + 1] == rs[i + 1];
        }
      }
    }
  }

  /** Everything a series adds to the list of created tasks. */
  function AllEnqueued(shared: bool, rs: seq<Record>): seq<Fired> {
    if rs == [] then []
    else
      var last := rs[|rs| - 1];
      AllEnqueued(shared, rs[..|rs| - 1]) + Enqueued(shared, last.ok, last.fired)
  }

  /** The tasks of one schedule that are in the queue although their pass was rolled back. */
  function Undone(shared: bool, rs: seq<Record>, id: Id): nat {
    if rs == [] then 0
    else
      var last := rs[|rs| - 1];
      Undone(shared, rs[..|rs| - 1], id) +
      (if last.ok then 0 else |RunsOf(Enqueued(shared, last.ok, last.fired), id)|)
  }

  /** There are none when the broker enqueues within the transaction. */
  lemma {:induction false} NoneUndone(rs: seq<Record>, id: Id)
    ensures Undone(true, rs, id) == 0
  {
    if rs != [] {
      NoneUndone(rs[..|rs| - 1], id);
    }
  }

  ghost function Visits(shared: bool, rs: seq<Record>, id: Id): seq<Visit> {
    seq(|rs|, i requires 0 <= i < |rs| => VisitOf(shared, rs[i], id))
  }

  lemma {:induction false} RunsJoin(a: seq<Fired>, b: seq<Fired>, id: Id)
    ensures RunsOf(a + b, id) == RunsOf(a, id) + RunsOf(b, id)
  {
    if b == [] {
      assert a + b == a;
    } else {
      assert (a + b)[..|a + b| - 1] == a + b[..|b| - 1];
      RunsJoin(a, b[..|b| - 1], id);
    }
  }

  lemma SeesLast(shared: bool, h: History, rs: seq<Record>, zone: Zone, cron: CronTab, id: Id)
    requires Sane(zone, cron) && rs != []
    ensures
      SeeAll(h, zone, cron, Visits(shared, rs, id)) ==
        See(SeeAll(h, zone, cron, Visits(shared, rs[..|rs| - 1], id)), zone, cron, VisitOf(shared, rs[|rs| - 1], id))
  {
    assert Visits(shared, rs, id)[..|rs| - 1] == Visits(shared, rs[..|rs| - 1], id);
  }

  lemma SeesPass(shared: bool, r: Record, zone: Zone, cron: CronTab, id: Id, h: History)
    requires Sane(zone, cron) && IsPass(r, zone, cron) && h.row == Lookup(r.before, id)
    ensures
      var runs := RunsOf(Enqueued(shared, r.ok, r.fired), id);
      See(h, zone, cron, VisitOf(shared, r, id)) ==
        History(Lookup(r.after, id), h.fired + runs, h.undone + (if r.ok then 0 else |runs|))
  {
    if r.ok {
      CommittedIsVisit(shared, r, zone, cron, id, h);
    } else {
      RolledBackIsVisit(shared, r, zone, cron, id, h);
    }
  }

  lemma SeriesParts(rs: seq<Record>, zone: Zone, cron: CronTab, id: Id)
    requires Sane(zone, cron) && rs != [] && Series(rs, zone, cron, id)
    ensures IsPass(rs[|rs| - 1], zone, cron) && Series(rs[..|rs| - 1], zone, cron, id)
    ensures |rs| > 1 ==> Lookup(rs[|rs| - 2].after, id) == Lookup(rs[|rs| - 1].before, id)
  {
  }

  /** Through any series of passes, one row's story is that of its visits. */
  lemma {:induction false} SeriesIsVisits(shared: bool, rs: seq<Record>, zone: Zone, cron: CronTab, id: Id, s: Sched)
    requires Sane(zone, cron) && rs != [] && Series(rs, zone, cron, id) && Lookup(rs[0].before, id) == Some(s)
    ensures
      SeeAll(History(Some(s), [], 0), zone, cron, Visits(shared, rs, id)) ==
        History(Lookup(rs[|rs| - 1].after, id), RunsOf(AllEnqueued(shared, rs), id), Undone(shared, rs, id))
    decreases |rs|
  {
    var start, before, last := History(Some(s), [], 0), rs[..|rs| - 1], rs[|rs| - 1];
    SeriesParts(rs, zone, cron, id);
    if before == [] {
      assert AllEnqueued(shared, before) == [] && SeeAll(start, zone, cron, Visits(shared, before, id)) == start;
    } else {
      SeriesIsVisits(shared, before, zone, cron, id, s);
    }
    SeesLast(shared, start, rs, zone, cron, id);
    SeesPass(shared, last, zone, cron, id, SeeAll(start, zone, cron, Visits(shared, before, id)));
    RunsJoin(AllEnqueued(shared, before), Enqueued(shared, last.ok, last.fired), id);
  }

  /** Over any series of passes, a recurring schedule with repeats n > 0: the tasks created for it and the
      repeats left add up to n and the tasks that outlived a rolled-back pass. There are none of those when the
      broker enqueues within the transaction: then it is n exactly. */
  lemma CreatedAndLeft(shared: bool, rs: seq<Record>, zone: Zone, cron: CronTab, id: Id, s: Sched)
    requires Sane(zone, cron) && rs != [] && Series(rs, zone, cron, id) && Lookup(rs[0].before, id) == Some(s)
    requires !s.kind.Once? && s.repeats > 0
    ensures
      var end, created := Lookup(rs[|rs| - 1].after, id), |RunsOf(AllEnqueued(shared, rs), id)|;
      && end.Some? && end.value.repeats >= 0
      && created + end.value.repeats == s.repeats + Undone(shared, rs, id)
      && (shared ==> created + end.value.repeats == s.repeats)
  {
    SeriesIsVisits(shared, rs, zone, cron, id, s);
    RepeatsCountDown(s, zone, cron, Visits(shared, rs, id));
    NoneUndone(rs, id);
  }

  /** A negative count never runs out; a count of 0 never creates a task. */
  lemma EndlessAndNever(shared: bool, rs: seq<Record>, zone: Zone, cron: CronTab, id: Id, s: Sched)
    requires Sane(zone, cron) && rs != [] && Series(rs, zone, cron, id) && Lookup(rs[0].before, id) == Some(s)
    ensures
      var end, created := Lookup(rs[|rs| - 1].after, id), RunsOf(AllEnqueued(shared, rs), id);
      && (!s.kind.Once? && s.repeats < 0 ==>
            end.Some? && end.value.repeats == if |created| > Undone(shared, rs, id) then -1 else s.repeats)
      && (s.repeats == 0 ==> end == Some(s) && created == [])
  {
    SeriesIsVisits(shared, rs, zone, cron, id, s);
    if s.repeats == 0 {
      ZeroNeverFires(s, zone, cron, Visits(shared, rs, id));
    } else if !s.kind.Once? && s.repeats < 0 {
      NegativeIsForever(s, zone, cron, Visits(shared, rs, id));
    }
  }

  /** A ONCE schedule: at most one task in committed passes, and then its row is gone if its
      count was negative, and else at 0. */
  lemma OnceInSeries(shared: bool, rs: seq<Record>, zone: Zone, cron: CronTab, id: Id, s: Sched)
    requires Sane(zone, cron) && rs != [] && Series(rs, zone, cron, id) && Lookup(rs[0].before, id) == Some(s)
    requires s.kind.Once?
    ensures
      var end, n := Lookup(rs[|rs| - 1].after, id), |RunsOf(AllEnqueued(shared, rs), id)|;
      && Undone(shared, rs, id) <= n <= Undone(shared, rs, id) + 1
      && (n == Undone(shared, rs, id) ==> end == Some(s))
      && (n > Undone(shared, rs, id) ==> end == if s.repeats < 0 then None else Some(s.(repeats := 0)))
      && (shared ==> n <= 1)
  {
    NoneUndone(rs, id);
    SeriesIsVisits(shared, rs, zone, cron, id, s);
    OnceIsOnce(s, zone, cron, Visits(shared, rs, id));
  }

  /** Whatever the type, a committed run moves next_run on; without catch-up it lands on the first point of
      its orbit after now, and with it on the next point. */
  lemma RunLands(site: Site, zone: Zone, cron: CronTab, s: Sched, now: int)
    requires Sane(zone, cron) && Due(site, s, now) && !s.kind.Once?
    requires Process(site, zone, cron, s, now).Stays?
    ensures
      var t := Process(site, zone, cron, s, now).s;
      && t.nextRun.Some? && t.nextRun.value > s.nextRun.value
      && (!site.catchUp || s.kind.Cron? ==> t.nextRun.value > now)
      && (!s.kind.Cron? ==>
            var f := Stepper(s.kind, s.minutes, zone);
            if site.catchUp then t.nextRun == f(s.nextRun.value)
            else exists k :: FirstBeyond(f, s.nextRun.value, now, k) && t.nextRun == Orbit(f, s.nextRun.value, k))
  {
    if !s.kind.Cron? {
      var f := Stepper(s.kind, s.minutes, zone);
      StepperGoesForward(s.kind, s.minutes, zone, now);
      if !site.catchUp {
        var k := SkipLands(f, s.nextRun.value, now);
      }
    }
  }

  // ---------------------------------------------------------------- catching up pass by pass

  /** k passes in a row of one cluster, at one instant, all committed. */
  function Repeated(site: Site, now: int, k: nat): seq<Visit> {
    seq(k, _ => Visit(site, now, true, true))
  }

  /** How many of k passes a schedule with this count can fire in. */
  function Allowed(repeats: int, k: nat): nat {
    if 0 <= repeats < k then repeats else k
  }

  function LeftAfter(repeats: int, n: nat): int {
    if repeats >= 0 then repeats - n else if n == 0 then repeats else -1
  }

  /** The schedule after catching up so far. */
  function CaughtUpHistory(s: Sched, c: CaughtUp): History {
    History(Some(s.(nextRun := c.next, repeats := LeftAfter(s.repeats, |c.fired|))), c.fired, 0)
  }

  /** The same visit, with the step and the visit behind function values. */
  ghost predicate Moves(see: History -> History, f: Step, now: int, h: History)
    requires h.row.Some? && h.row.value.nextRun.Some?
  {
    var u, r := h.row.value.nextRun.value, h.row.value.repeats;
    && (u >= now || r == 0 ==> see(h) == h)
    && (u < now && r != 0 && f(u).Some? ==>
          see(h) == History(Some(h.row.value.(nextRun := f(u), repeats := Countdown(r))), h.fired + [u], h.undone))
  }

  lemma OnePassMore(see: History -> History, f: Step, s: Sched, t: int, now: int, k: nat)
    requires CatchUp(f, t, now, Allowed(s.repeats, k + 1)).next.Some?
    ensures
      var c, d := CatchUp(f, t, now, Allowed(s.repeats, k)), CatchUp(f, t, now, Allowed(s.repeats, k + 1));
      && c.next.Some? && Fits(s, c) && Fits(s, d)
      && (Moves(see, f, now, CaughtUpHistory(s, c)) ==> see(CaughtUpHistory(s, c)) == CaughtUpHistory(s, d))
  {
    var m, m' := Allowed(s.repeats, k), Allowed(s.repeats, k + 1);
    CatchUpCount(f, t, now, m);
    CatchUpCount(f, t, now, m');
    if m < m' {
      CatchUpOneMore(f, t, now, k);
    }
  }

  predicate Fits(s: Sched, c: CaughtUp) {
    s.repeats < 0 || |c.fired| <= s.repeats
  }

  /** A sequence that starts where another does and takes the same steps is the other. */
  lemma {:induction false} SameSteps(see: History -> History, g: nat -> History, d: nat -> History, k: nat)
    requires g(0) == d(0) && forall i: nat :: i < k ==> g(i + 1) == see(g(i))
    requires forall i: nat :: i < k ==> see(d(i)) == d(i + 1)
    ensures g(k) == d(k)
  {
    if k > 0 {
      SameSteps(see, g, d, k - 1);
    }
  }

  /** Visits of a pass that catches up are such steps. */
  lemma VisitMoves(site: Site, zone: Zone, cron: CronTab, s: Sched, now: int, h: History)
    requires Sane(zone, cron) && site.catchUp && Mine(site, s) && !s.kind.Once? && !s.kind.Cron? && s.argsParse
    requires h.row.Some? && h.row.value.nextRun.Some?
    requires h.row == Some(s.(nextRun := h.row.value.nextRun, repeats := h.row.value.repeats))
    ensures
      var see := (g: History) => See(g, zone, cron, Visit(site, now, true, true));
      Moves(see, Stepper(s.kind, s.minutes, zone), now, h)
  {
  }

  lemma {:induction false} CatchUpBefore(f: Step, t: int, now: int, a: nat, b: nat)
    requires a <= b && CatchUp(f, t, now, b).next.Some?
    ensures CatchUp(f, t, now, a).next.Some?
    decreases b
  {
    if a < b {
      CatchUpOneMore(f, t, now, b - 1);
      CatchUpBefore(f, t, now, a, b - 1);
    }
  }

  /** Catching up, with the step and the visit behind function values. */
  lemma CatchesUp(see: History -> History, f: Step, s: Sched, t: int, now: int, g: nat -> History, k: nat)
    requires s.nextRun == Some(t) && CatchUp(f, t, now, Allowed(s.repeats, k)).next.Some?
    requires g(0) == History(Some(s), [], 0) && forall i: nat :: i < k ==> g(i + 1) == see(g(i))
    requires forall h: History :: Variant(s, h) ==> Moves(see, f, now, h)
    ensures g(k) == CaughtUpHistory(s, CatchUp(f, t, now, Allowed(s.repeats, k)))
  {
    var d := (i: nat) => CaughtUpHistory(s, CatchUp(f, t, now, Allowed(s.repeats, i)));
    forall i: nat | i < k
      ensures see(d(i)) == d(i + 1)
    {
      CatchUpBefore(f, t, now, Allowed(s.repeats, i + 1), Allowed(s.repeats, k));
      OnePassMore(see, f, s, t, now, i);
      assert Variant(s, d(i));
    }
    SameSteps(see, g, d, k);
  }

  /** The same schedule at another run and count. */
  predicate Variant(s: Sched, h: History) {
    && h.row.Some? && h.row.value.nextRun.Some?
    && h.row.value == s.(nextRun := h.row.value.nextRun, repeats := h.row.value.repeats)
  }

  /** With catch-up on, repeated passes over the table do to a schedule what catching up on the orbit of its
      step says, for as long as its repeats last: one task for each orbit point before now, for that very
      point and in order, and the same next_run. */
  lemma PassesCatchUp(site: Site, zone: Zone, cron: CronTab, s: Sched, now: int, k: nat)
    requires Sane(zone, cron) && site.catchUp && Mine(site, s)
    requires !s.kind.Once? && !s.kind.Cron? && s.argsParse && s.nextRun.Some?
    requires CatchUp(Stepper(s.kind, s.minutes, zone), s.nextRun.value, now, Allowed(s.repeats, k)).next.Some?
    ensures
      var c := CatchUp(Stepper(s.kind, s.minutes, zone), s.nextRun.value, now, Allowed(s.repeats, k));
      SeeAll(History(Some(s), [], 0), zone, cron, Repeated(site, now, k)) == CaughtUpHistory(s, c)
  {
    var f := Stepper(s.kind, s.minutes, zone);
    var see := (h: History) => See(h, zone, cron, Visit(site, now, true, true));
    var g := (i: nat) => SeeAll(History(Some(s), [], 0), zone, cron, Repeated(site, now, i));
    forall i: nat | i < k
      ensures g(i + 1) == see(g(i))
    {
      assert Repeated(site, now, i + 1)[..i] == Repeated(site, now, i);
    }
    forall h: History | Variant(s, h)
      ensures Moves(see, f, now, h)
    {
      VisitMoves(site, zone, cron, s, now, h);
    }
    CatchesUp(see, f, s, s.nextRun.value, now, g, k);
  }
}
