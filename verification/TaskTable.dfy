/** The Task table as save_task sees it: one row per task id, found by one statement and written by another. */
module TaskTable {
  import opened Options

  /** The fields of a task package that SAVE_LIMIT_PER may select on. */
  datatype Meta = Meta(name: string, func: string, group: Option<string>)

  /** What the worker writes into the package: the result, the success flag and the stop time. */
  datatype Outcome = Outcome(success: bool, result: int, stopped: int)

  datatype Row = Row(meta: Meta, out: Outcome, attempts: nat)

  type Id = nat
  type Table = map<Id, Row>

  /** What Task.objects.get finds, by id and name. */
  function Found(t: Table, id: Id, meta: Meta): Option<Row> {
    if id in t && t[id].meta.name == meta.name then Some(t[id]) else None
  }

  /** A success that was found is left alone. */
  predicate Open(found: Option<Row>) {
    found.Some? ==> !found.value.out.success
  }

  function CountOf(found: Option<Row>): nat {
    if found.Some? then found.value.attempts else 0
  }

  /** The row a monitor goes on with: the success it found, or the one it is about to create or save. */
  function Own(found: Option<Row>, meta: Meta, out: Outcome): Row {
    if found.None? then Row(meta, out, 1)
    else if found.value.out.success then found.value
    else found.value.(out := out, attempts := found.value.attempts + 1)
  }

  /** create raises when a row has this id by now, under whatever name. */
  predicate Clashes(t: Table, id: Id, found: Option<Row>) {
    found.None? && id in t
  }

  /** The statement after the get: create inserts the row, save writes all of it over whatever is there, or
      inserts it again if it has been pruned. */
  function Written(t: Table, id: Id, found: Option<Row>, meta: Meta, out: Outcome): Table {
    if Clashes(t, id, found) || !Open(found) then t else t[id := Own(found, meta, out)]
  }

  /** Both statements with nothing in between: a row that has succeeded is left alone. */
  function Upsert(t: Table, id: Id, meta: Meta, out: Outcome): Table {
    Written(t, id, Found(t, id, meta), meta, out)
  }

  /** The attempt_count a pusher reads before it stamps a package: 0 when there is no row. */
  function Attempts(t: Table, id: Id): nat {
    if id in t then t[id].attempts else 0
  }
}
