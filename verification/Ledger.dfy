/**
 The delivery protocol, with every queue and process forgotten: broker rows under a lease, the bag
 of deliveries still travelling through some cluster, and the bags of deliveries that ended. A
 delivery is one grant of one broker row to one cluster and carries a token of its own.
 */
module Ledger {
  import opened Bags
  import opened Options
  import opened TaskTable

  type Pk = nat

  /** retry and max are RETRY and MAX_ATTEMPTS; strict says a lease must have expired before now
      (the ORM filter) rather than at or before now (the Mongo filter). */
  datatype Conf = Conf(retry: nat, max: nat, strict: bool, saveByDefault: bool)

  datatype Package = Package(meta: Meta, decodable: bool, ackFailure: bool, cached: bool, save: Option<bool>)

  datatype Stamp = Unstamped | Stamped(attempt: nat, fromTable: bool)
  datatype Result = Pending | Finished(out: Outcome)

  /** How far a monitor has got with saving the result: not begun; the row found, if any; nothing stored; or
      stored with this count, perhaps still to be acknowledged for it, and perhaps over a row that was no
      longer the one found. */
  datatype Mark =
    | Unsaved
    | Looked(found: Option<Row>)
    | Skipped
    | Saved(count: nat, owes: bool, overtaken: bool)

  datatype Delivery = Delivery(tok: nat, pk: Pk, granted: int, stamp: Stamp, result: Result, mark: Mark)

  datatype Ledger = Ledger(
    clock: int,
    rows: map<Pk, int>,
    pkgs: map<Pk, Package>,
    tasks: Table,
    live: multiset<Delivery>,
    monitored: multiset<Delivery>,
    rejected: multiset<Delivery>,
    lost: multiset<Delivery>,
    next: nat)
  {
    /** Every delivery ever granted, wherever it is now. */
    ghost function All(): multiset<Delivery> {
      live + monitored + rejected + lost
    }
  }

  datatype Act =
    | Stutter
    | Enqueue(pk: Pk, pkg: Package)
    | Tick(dt: nat)
    | Grant(pk: Pk)
    | Reject(d: Delivery)
    | Stamp_(d: Delivery, lookup: bool)
    | Finish(d: Delivery, out: Outcome)
    | Look(d: Delivery, reaches: bool)
    | Write(d: Delivery, writes: bool)
    | AckMax(d: Delivery)
    | Close(d: Delivery)
    | Prune(id: Id)
    | Lose(ds: multiset<Delivery>)

  const START := Ledger(0, map[], map[], map[], multiset{}, multiset{}, multiset{}, multiset{}, 0)

  predicate Free(k: Conf, until: int, now: int) {
    until < now || (!k.strict && until == now)
  }

  /** task.get("save", SAVE_LIMIT >= 0) */
  predicate Keeps(k: Conf, p: Package) {
    if p.save.Some? then p.save.value else k.saveByDefault
  }

  predicate Enabled(k: Conf, l: Ledger, a: Act) {
    match a
    case Stutter => true
    case Enqueue(pk, _) => pk !in l.pkgs
    case Tick(_) => true
    case Grant(pk) => pk in l.rows && Free(k, l.rows[pk], l.clock)
    case Reject(d) => d in l.live && d.pk in l.pkgs && d.stamp.Unstamped? && !l.pkgs[d.pk].decodable
    case Stamp_(d, _) => d in l.live && d.pk in l.pkgs && d.stamp.Unstamped? && l.pkgs[d.pk].decodable
    case Finish(d, _) => d in l.live && d.stamp.Stamped? && d.result.Pending?
    case Look(d, _) => d in l.live && d.pk in l.pkgs && d.result.Finished? && d.mark.Unsaved?
    case Write(d, _) => d in l.live && d.pk in l.pkgs && d.result.Finished? && d.mark.Looked?
    case AckMax(d) => d in l.live && d.mark.Saved? && d.mark.owes
    case Close(d) =>
      d in l.live && d.pk in l.pkgs && d.result.Finished? &&
      (d.mark.Skipped? || (d.mark.Saved? && !d.mark.owes))
    case Prune(id) => id in l.tasks && l.tasks[id].out.success
    case Lose(ds) => ds <= l.live
  }

  /** The attempt a package is stamped with; a failed lookup counts as no row. */
  function Restamp(tasks: Table, d: Delivery, lookup: bool): Delivery {
    d.(stamp := Stamped(if lookup then Attempts(tasks, d.pk) + 1 else 1, lookup))
  }

  /** Whether saving this result reaches the Task table at all. */
  predicate Reaches(k: Conf, pkgs: map<Pk, Package>, d: Delivery, reaches: bool)
    requires d.pk in pkgs && d.result.Finished?
  {
    !pkgs[d.pk].cached && (Keeps(k, pkgs[d.pk]) || !d.result.out.success) && reaches
  }

  /** The get: the monitor goes on with the row as it is now. */
  function AfterLook(k: Conf, pkgs: map<Pk, Package>, tasks: Table, d: Delivery, reaches: bool): Delivery
    requires d.pk in pkgs && d.result.Finished?
  {
    d.(mark := if Reaches(k, pkgs, d, reaches) then Looked(Found(tasks, d.pk, pkgs[d.pk].meta)) else Skipped)
  }

  /** Whether the statement after the get succeeds. */
  predicate Stores(tasks: Table, d: Delivery, writes: bool)
    requires d.mark.Looked?
  {
    writes && !Clashes(tasks, d.pk, d.mark.found)
  }

  function Saving(pkgs: map<Pk, Package>, tasks: Table, d: Delivery, writes: bool): Table
    requires d.pk in pkgs && d.result.Finished? && d.mark.Looked?
  {
    if Stores(tasks, d, writes) then Written(tasks, d.pk, d.mark.found, pkgs[d.pk].meta, d.result.out) else tasks
  }

  function Marked(k: Conf, pkgs: map<Pk, Package>, tasks: Table, d: Delivery, writes: bool): Delivery
    requires d.pk in pkgs && d.result.Finished? && d.mark.Looked?
  {
    if Stores(tasks, d, writes) then
      var p, found := pkgs[d.pk], d.mark.found;
      var n := Own(found, p.meta, d.result.out).attempts;
      d.(mark := Saved(n, k.max > 0 && n >= k.max, Open(found) && Found(tasks, d.pk, p.meta) != found))
    else d.(mark := Skipped)
  }

  /** The monitor's own rule: acknowledge a success, or a failure with ack_failure. */
  predicate Acked(pkgs: map<Pk, Package>, d: Delivery)
    requires d.pk in pkgs && d.result.Finished?
  {
    d.result.out.success || pkgs[d.pk].ackFailure
  }

  function Settle(d: Delivery): Delivery
    requires d.mark.Saved?
  {
    d.(mark := d.mark.(owes := false))
  }

  ghost function Do(k: Conf, l: Ledger, a: Act): Ledger
    requires Enabled(k, l, a)
  {
    match a
    case Stutter => l
    case Enqueue(pk, pkg) => l.(rows := l.rows[pk := l.clock], pkgs := l.pkgs[pk := pkg])
    case Tick(dt) => l.(clock := l.clock + dt)
    case Grant(pk) =>
      l.(rows := l.rows[pk := l.clock + k.retry],
         live := l.live + multiset{Delivery(l.next, pk, l.clock, Unstamped, Pending, Unsaved)},
         next := l.next + 1)
    case Reject(d) =>
      l.(rows := l.rows - {d.pk}, live := l.live - multiset{d}, rejected := l.rejected + multiset{d})
    case Stamp_(d, lookup) =>
      l.(live := l.live - multiset{d} + multiset{Restamp(l.tasks, d, lookup)})
    case Finish(d, out) =>
      l.(live := l.live - multiset{d} + multiset{d.(result := Finished(out))})
    case Look(d, reaches) =>
      l.(live := l.live - multiset{d} + multiset{AfterLook(k, l.pkgs, l.tasks, d, reaches)})
    case Write(d, writes) =>
      l.(
        tasks := Saving(l.pkgs, l.tasks, d, writes),
        live := l.live - multiset{d} + multiset{Marked(k, l.pkgs, l.tasks, d, writes)})
    case AckMax(d) =>
      l.(rows := l.rows - {d.pk}, live := l.live - multiset{d} + multiset{Settle(d)})
    case Close(d) =>
      l.(rows := if Acked(l.pkgs, d) then l.rows - {d.pk} else l.rows,
         live := l.live - multiset{d}, monitored := l.monitored + multiset{d})
    case Prune(id) => l.(tasks := l.tasks - {id})
    case Lose(ds) => l.(live := l.live - ds, lost := l.lost + ds)
  }

  ghost predicate Next(k: Conf, l: Ledger, l': Ledger) {
    exists a :: Enabled(k, l, a) && l' == Do(k, l, a)
  }

  /** The i-th state follows from the one before it. */
  ghost predicate Follows(k: Conf, tr: seq<Ledger>, i: nat)
    requires 0 < i < |tr|
  {
    Next(k, tr[i - 1], tr[i])
  }

  /** A run: any number of steps, in any interleaving, from the empty system. */
  ghost predicate Run(k: Conf, tr: seq<Ledger>) {
    |tr| > 0 && tr[0] == START && forall i :: 0 < i < |tr| ==> Follows(k, tr, i)
  }

  lemma RunStep(k: Conf, tr: seq<Ledger>, i: nat) returns (a: Act)
    requires Run(k, tr) && 0 < i < |tr|
    ensures Enabled(k, tr[i - 1], a) && tr[i] == Do(k, tr[i - 1], a)
  {
    assert Follows(k, tr, i);
    a :| Enabled(k, tr[i - 1], a) && tr[i] == Do(k, tr[i - 1], a);
  }

  // ---------------------------------------------------------------- how a step changes the bag

  datatype Change = Same | Fresh(new_: Delivery) | Swap(old_: Delivery, new_: Delivery)

  function ChangeOf(k: Conf, l: Ledger, a: Act): Change
    requires Enabled(k, l, a)
  {
    match a
    case Grant(pk) => Fresh(Delivery(l.next, pk, l.clock, Unstamped, Pending, Unsaved))
    case Stamp_(d, lookup) => Swap(d, Restamp(l.tasks, d, lookup))
    case Finish(d, out) => Swap(d, d.(result := Finished(out)))
    case Look(d, reaches) => Swap(d, AfterLook(k, l.pkgs, l.tasks, d, reaches))
    case Write(d, writes) => Swap(d, Marked(k, l.pkgs, l.tasks, d, writes))
    case AckMax(d) => Swap(d, Settle(d))
    case _ => Same
  }

  ghost function Changed(m: multiset<Delivery>, c: Change): multiset<Delivery> {
    match c
    case Same => m
    case Fresh(n) => m + multiset{n}
    case Swap(o, n) => m - multiset{o} + multiset{n}
  }

  lemma MoveOut(a: multiset<Delivery>, b: multiset<Delivery>, c: multiset<Delivery>, e: multiset<Delivery>,
      ds: multiset<Delivery>)
    requires ds <= a
    ensures (a - ds) + (b + ds) + c + e == a + b + c + e
    ensures (a - ds) + b + (c + ds) + e == a + b + c + e
    ensures (a - ds) + b + c + (e + ds) == a + b + c + e
  {
  }

  lemma Rewrite(a: multiset<Delivery>, b: multiset<Delivery>, c: multiset<Delivery>, e: multiset<Delivery>,
      o: Delivery, n: Delivery)
    requires o in a
    ensures (a - multiset{o} + multiset{n}) + b + c + e == a + b + c + e - multiset{o} + multiset{n}
  {
  }

  lemma Grow(a: multiset<Delivery>, b: multiset<Delivery>, c: multiset<Delivery>, e: multiset<Delivery>, n: Delivery)
    ensures (a + multiset{n}) + b + c + e == a + b + c + e + multiset{n}
  {
  }

  lemma MoveShape(k: Conf, l: Ledger, a: Act)
    requires a.Reject? || a.Close? || a.Lose?
    requires Enabled(k, l, a)
    ensures Do(k, l, a).All() == l.All()
  {
    var ds := if a.Lose? then a.ds else multiset{a.d};
    MoveOut(l.live, l.monitored, l.rejected, l.lost, ds);
  }

  lemma RewriteShape(k: Conf, l: Ledger, a: Act)
    requires a.Stamp_? || a.Finish? || a.Look? || a.Write? || a.AckMax?
    requires Enabled(k, l, a)
    ensures Do(k, l, a).All() == Changed(l.All(), ChangeOf(k, l, a))
  {
    var c := ChangeOf(k, l, a);
    Rewrite(l.live, l.monitored, l.rejected, l.lost, c.old_, c.new_);
  }

  lemma GrantShape(k: Conf, l: Ledger, a: Act)
    requires a.Grant?
    requires Enabled(k, l, a)
    ensures Do(k, l, a).All() == Changed(l.All(), ChangeOf(k, l, a))
  {
    Grow(l.live, l.monitored, l.rejected, l.lost, ChangeOf(k, l, a).new_);
  }

  /** Apart from a grant, a step only moves deliveries about or rewrites one of them in place. */
  lemma StepShape(k: Conf, l: Ledger, a: Act)
    requires Enabled(k, l, a)
    ensures Do(k, l, a).All() == Changed(l.All(), ChangeOf(k, l, a))
  {
    if a.Reject? || a.Close? || a.Lose? {
      MoveShape(k, l, a);
    } else if a.Grant? {
      GrantShape(k, l, a);
    } else if a.Stamp_? || a.Finish? || a.Look? || a.Write? || a.AckMax? {
      RewriteShape(k, l, a);
    }
  }

  /** Weighing the bag before and after a step. */
  lemma StepWeight(k: Conf, l: Ledger, a: Act, w: Delivery -> nat)
    requires Enabled(k, l, a)
    ensures
      var c := ChangeOf(k, l, a);
      var before, after := Weigh(l.All(), w), Weigh(Do(k, l, a).All(), w);
      match c
      case Same => after == before
      case Fresh(n) => after == before + w(n)
      case Swap(o, n) => o in l.All() && after + w(o) == before + w(n)
  {
    StepShape(k, l, a);
    match ChangeOf(k, l, a)
    case Same =>
    case Fresh(n) => WeighIn(l.All(), n, w);
    case Swap(o, n) => WeighSwap(l.All(), o, n, w);
  }
}
