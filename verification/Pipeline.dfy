/**
 The delivery pipeline as it runs: any number of clusters racing for the rows of one ORM broker, each
 with a pusher (a snapshot of candidate rows and the list it has leased), a task queue, a pool of
 workers, a result queue and a monitor. Every process can die at any step. Each step of this system
 is a step of the delivery protocol in Ledger, so every run keeps the laws proved there.
 */
module Pipeline {
  import opened Bags
  import opened TaskTable
  import opened Ledger
  import opened LedgerLaws
  import Lease

  /** A row as the pusher's SELECT saw it. */
  type Candidate = Lease.Candidate

  datatype Slot = Idle | Holds(d: Delivery)

  datatype Cluster = Cluster(
    candidates: seq<Candidate>,
    hand: seq<Delivery>,
    taskQueue: seq<Delivery>,
    pool: seq<Slot>,
    resultQueue: seq<Delivery>,
    monitor: Slot)

  datatype State = State(
    clock: int,
    locks: map<Pk, int>,
    payloads: map<Pk, Package>,
    tasks: Table,
    clusters: seq<Cluster>,
    monitored: multiset<Delivery>,
    rejected: multiset<Delivery>,
    lost: multiset<Delivery>,
    next: nat)

  const BOOT := State(0, map[], map[], map[], [], multiset{}, multiset{}, multiset{}, 0)

  function Empty(workers: nat): Cluster {
    Cluster([], [], [], seq(workers, _ => Idle), [], Idle)
  }

  // ---------------------------------------------------------------- what a cluster holds

  ghost function InSlot(s: Slot): multiset<Delivery> {
    if s.Holds? then multiset{s.d} else multiset{}
  }

  ghost function InPool(p: seq<Slot>): multiset<Delivery> {
    if p == [] then multiset{} else InSlot(p[0]) + InPool(p[1..])
  }

  ghost function Held(c: Cluster): multiset<Delivery> {
    multiset(c.hand) + multiset(c.taskQueue) + InPool(c.pool) + multiset(c.resultQueue) + InSlot(c.monitor)
  }

  ghost function Bag(cs: seq<Cluster>): multiset<Delivery> {
    if cs == [] then multiset{} else Held(cs[0]) + Bag(cs[1..])
  }

  /** The delivery protocol's view of the pipeline. */
  ghost function Abs(s: State): Ledger {
    Ledger(s.clock, s.locks, s.payloads, s.tasks, Bag(s.clusters), s.monitored, s.rejected, s.lost, s.next)
  }

  // ---------------------------------------------------------------- steps

  function Put(s: State, c: nat, cluster: Cluster): State
    requires c < |s.clusters|
  {
    s.(clusters := s.clusters[c := cluster])
  }

  function DoEnqueue(s: State, pk: Pk, payload: Package): State {
    s.(locks := s.locks[pk := s.clock], payloads := s.payloads[pk := payload])
  }

  function DoWait(s: State, dt: nat): State {
    s.(clock := s.clock + dt)
  }

  /** save_task deletes a stored success to keep within SAVE_LIMIT. */
  function DoPrune(s: State, id: Id): State {
    s.(tasks := s.tasks - {id})
  }

  function DoJoin(s: State, workers: nat): State {
    s.(clusters := [Empty(workers)] + s.clusters)
  }

  /** The SELECT of dequeue: some rows whose lock lies before now. */
  predicate CanSelect(s: State, c: nat, sel: seq<Pk>) {
    && c < |s.clusters| && s.clusters[c].candidates == [] && s.clusters[c].hand == []
    && forall i :: 0 <= i < |sel| ==> sel[i] in s.locks && s.locks[sel[i]] < s.clock
  }

  function DoSelect(s: State, c: nat, sel: seq<Pk>): State
    requires CanSelect(s, c, sel)
  {
    Put(s, c, s.clusters[c].(candidates :=
      seq(|sel|, i requires 0 <= i < |sel| => Lease.Candidate(sel[i], s.locks[sel[i]]))))
  }

  predicate CanCas(s: State, c: nat) {
    c < |s.clusters| && s.clusters[c].candidates != []
  }

  /** The row still carries the lock value that was read, so the UPDATE touches one row. */
  predicate Wins(s: State, cand: Candidate) {
    Lease.Matches(s.locks, cand)
  }

  /** The delivery that a successful UPDATE starts. */
  function Granted(s: State, pk: Pk): Delivery {
    Delivery(s.next, pk, s.clock, Unstamped, Pending, Unsaved)
  }

  /** The cluster after its first candidate was won. */
  function Winner(s: State, c: nat): Cluster
    requires CanCas(s, c)
  {
    var cl := s.clusters[c];
    cl.(candidates := cl.candidates[1..], hand := cl.hand + [Granted(s, cl.candidates[0].pk)])
  }

  function DoWin(k: Conf, s: State, c: nat): State
    requires CanCas(s, c)
  {
    var cl := s.clusters[c];
    var pk := cl.candidates[0].pk;
    s.(clusters := s.clusters[c := Winner(s, c)],
       locks := s.locks[pk := s.clock + k.retry],
       next := s.next + 1)
  }

  function DoMiss(s: State, c: nat): State
    requires CanCas(s, c)
  {
    Put(s, c, s.clusters[c].(candidates := s.clusters[c].candidates[1..]))
  }

  function DoCas(k: Conf, s: State, c: nat): State
    requires CanCas(s, c)
  {
    if Wins(s, s.clusters[c].candidates[0]) then DoWin(k, s, c) else DoMiss(s, c)
  }

  /** dequeue has returned a list and the pusher looks at its head. */
  predicate CanHandle(s: State, c: nat, decodable: bool) {
    && c < |s.clusters| && s.clusters[c].candidates == [] && s.clusters[c].hand != []
    && var d := s.clusters[c].hand[0];
    d.pk in s.payloads && d.stamp.Unstamped? && s.payloads[d.pk].decodable == decodable
  }

  function DoReject(s: State, c: nat): State
    requires CanHandle(s, c, false)
  {
    var cl := s.clusters[c];
    Put(s, c, cl.(hand := cl.hand[1..]))
      .(locks := s.locks - {cl.hand[0].pk}, rejected := s.rejected + multiset{cl.hand[0]})
  }

  function DoPush(s: State, c: nat, lookup: bool): State
    requires CanHandle(s, c, true)
  {
    var cl := s.clusters[c];
    Put(s, c, cl.(hand := cl.hand[1..], taskQueue := cl.taskQueue + [Restamp(s.tasks, cl.hand[0], lookup)]))
  }

  predicate CanTake(s: State, c: nat, w: nat) {
    c < |s.clusters| && s.clusters[c].taskQueue != [] && w < |s.clusters[c].pool| && s.clusters[c].pool[w].Idle?
  }

  function DoTake(s: State, c: nat, w: nat): State
    requires CanTake(s, c, w)
  {
    var cl := s.clusters[c];
    Put(s, c, cl.(taskQueue := cl.taskQueue[1..], pool := cl.pool[w := Holds(cl.taskQueue[0])]))
  }

  predicate CanPublish(s: State, c: nat, w: nat) {
    && c < |s.clusters| && w < |s.clusters[c].pool| && s.clusters[c].pool[w].Holds?
    && s.clusters[c].pool[w].d.stamp.Stamped? && s.clusters[c].pool[w].d.result.Pending?
  }

  function DoPublish(s: State, c: nat, w: nat, out: Outcome): State
    requires CanPublish(s, c, w)
  {
    var cl := s.clusters[c];
    Put(s, c, cl.(pool := cl.pool[w := Idle], resultQueue := cl.resultQueue + [cl.pool[w].d.(result := Finished(out))]))
  }

  predicate CanFetch(s: State, c: nat) {
    c < |s.clusters| && s.clusters[c].monitor.Idle? && s.clusters[c].resultQueue != []
  }

  function DoFetch(s: State, c: nat): State
    requires CanFetch(s, c)
  {
    var cl := s.clusters[c];
    Put(s, c, cl.(resultQueue := cl.resultQueue[1..], monitor := Holds(cl.resultQueue[0])))
  }

  /** The monitor holds a finished result of a known package. */
  predicate Monitoring(s: State, c: nat) {
    && c < |s.clusters| && s.clusters[c].monitor.Holds?
    && s.clusters[c].monitor.d.pk in s.payloads && s.clusters[c].monitor.d.result.Finished?
  }

  predicate CanLook(s: State, c: nat) {
    Monitoring(s, c) && s.clusters[c].monitor.d.mark.Unsaved?
  }

  /** The get of save_task. */
  function DoLook(k: Conf, s: State, c: nat, reaches: bool): State
    requires CanLook(s, c)
  {
    var cl := s.clusters[c];
    Put(s, c, cl.(monitor := Holds(AfterLook(k, s.payloads, s.tasks, cl.monitor.d, reaches))))
  }

  predicate CanWrite(s: State, c: nat) {
    Monitoring(s, c) && s.clusters[c].monitor.d.mark.Looked?
  }

  /** The write after it. */
  function DoWrite(k: Conf, s: State, c: nat, writes: bool): State
    requires CanWrite(s, c)
  {
    var cl := s.clusters[c];
    Put(s, c, cl.(monitor := Holds(Marked(k, s.payloads, s.tasks, cl.monitor.d, writes))))
      .(tasks := Saving(s.payloads, s.tasks, cl.monitor.d, writes))
  }

  predicate CanAckMax(s: State, c: nat) {
    c < |s.clusters| && s.clusters[c].monitor.Holds? && Owes(s.clusters[c].monitor.d)
  }

  function DoAckMax(s: State, c: nat): State
    requires CanAckMax(s, c)
  {
    var cl := s.clusters[c];
    Put(s, c, cl.(monitor := Holds(Settle(cl.monitor.d)))).(locks := s.locks - {cl.monitor.d.pk})
  }

  predicate CanAck(s: State, c: nat) {
    && Monitoring(s, c) && !Owes(s.clusters[c].monitor.d)
    && (s.clusters[c].monitor.d.mark.Skipped? || s.clusters[c].monitor.d.mark.Saved?)
  }

  function DoAck(s: State, c: nat): State
    requires CanAck(s, c)
  {
    var cl := s.clusters[c];
    Put(s, c, cl.(monitor := Idle))
      .(locks := if Acked(s.payloads, cl.monitor.d) then s.locks - {cl.monitor.d.pk} else s.locks,
        monitored := s.monitored + multiset{cl.monitor.d})
  }

  datatype Victim = Pusher | Worker(w: nat) | Monitor | Everything

  predicate CanDie(s: State, c: nat, v: Victim) {
    c < |s.clusters| && (v.Worker? ==> v.w < |s.clusters[c].pool|)
  }

  /** What dies with a process. */
  ghost function Casualties(cl: Cluster, v: Victim): multiset<Delivery>
    requires v.Worker? ==> v.w < |cl.pool|
  {
    match v
    case Pusher => multiset(cl.hand)
    case Worker(w) => InSlot(cl.pool[w])
    case Monitor => InSlot(cl.monitor)
    case Everything => Held(cl)
  }

  function Survivors(cl: Cluster, v: Victim): Cluster
    requires v.Worker? ==> v.w < |cl.pool|
  {
    match v
    case Pusher => cl.(candidates := [], hand := [])
    case Worker(w) => cl.(pool := cl.pool[w := Idle])
    case Monitor => cl.(monitor := Idle)
    case Everything => Empty(0)
  }

  ghost function DoDie(s: State, c: nat, v: Victim): State
    requires CanDie(s, c, v)
  {
    Put(s, c, Survivors(s.clusters[c], v)).(lost := s.lost + Casualties(s.clusters[c], v))
  }

  datatype Step =
    | EnqueueTask(pk: Pk, payload: Package)
    | Wait(dt: nat)
    | Join(workers: nat)
    | Select(c: nat, sel: seq<Pk>)
    | CompareAndSet(c: nat)
    | RejectHead(c: nat)
    | PushHead(c: nat, lookup: bool)
    | Take(c: nat, w: nat)
    | Publish(c: nat, w: nat, out: Outcome)
    | Fetch(c: nat)
    | LookUp(c: nat, reaches: bool)
    | WriteRow(c: nat, writes: bool)
    | AckAtMax(c: nat)
    | AckResult(c: nat)
    | PruneRow(id: Id)
    | Dies(c: nat, v: Victim)

  ghost predicate StepBy(k: Conf, s: State, s': State, st: Step) {
    match st
    case EnqueueTask(pk, payload) => pk !in s.payloads && s' == DoEnqueue(s, pk, payload)
    case Wait(dt) => s' == DoWait(s, dt)
    case Join(workers) => s' == DoJoin(s, workers)
    case Select(c, sel) => CanSelect(s, c, sel) && s' == DoSelect(s, c, sel)
    case CompareAndSet(c) => CanCas(s, c) && s' == DoCas(k, s, c)
    case RejectHead(c) => CanHandle(s, c, false) && s' == DoReject(s, c)
    case PushHead(c, lookup) => CanHandle(s, c, true) && s' == DoPush(s, c, lookup)
    case Take(c, w) => CanTake(s, c, w) && s' == DoTake(s, c, w)
    case Publish(c, w, out) => CanPublish(s, c, w) && s' == DoPublish(s, c, w, out)
    case Fetch(c) => CanFetch(s, c) && s' == DoFetch(s, c)
    case LookUp(c, reaches) => CanLook(s, c) && s' == DoLook(k, s, c, reaches)
    case WriteRow(c, writes) => CanWrite(s, c) && s' == DoWrite(k, s, c, writes)
    case AckAtMax(c) => CanAckMax(s, c) && s' == DoAckMax(s, c)
    case AckResult(c) => CanAck(s, c) && s' == DoAck(s, c)
    case PruneRow(id) => id in s.tasks && s.tasks[id].out.success && s' == DoPrune(s, id)
    case Dies(c, v) => CanDie(s, c, v) && s' == DoDie(s, c, v)
  }

  ghost predicate Steps(k: Conf, s: State, s': State) {
    exists st :: StepBy(k, s, s', st)
  }

  ghost predicate Execution(k: Conf, tr: seq<State>) {
    |tr| > 0 && tr[0] == BOOT && forall i :: 0 <= i < |tr| - 1 ==> Steps(k, tr[i], tr[i + 1])
  }

  // ---------------------------------------------------------------- moving things between containers

  lemma {:induction false} PoolUpdate(p: seq<Slot>, w: nat, v: Slot)
    requires w < |p|
    ensures InPool(p[w := v]) + InSlot(p[w]) == InPool(p) + InSlot(v)
  {
    if w > 0 {
      PoolUpdate(p[1..], w - 1, v);
      assert p[w := v][1..] == p[1..][w - 1 := v];
      Regroup(InSlot(p[0]), InPool(p[1..][w - 1 := v]), InSlot(p[w]), InPool(p[1..]), InSlot(v));
    } else {
      assert p[w := v][1..] == p[1..];
    }
  }

  lemma {:induction false} IdlePool(workers: nat)
    ensures InPool(seq(workers, _ => Idle)) == multiset{}
  {
    if workers > 0 {
      IdlePool(workers - 1);
      assert seq(workers, _ => Idle)[1..] == seq(workers - 1, _ => Idle);
    }
  }

  lemma {:induction false} BagUpdate(cs: seq<Cluster>, i: nat, c: Cluster)
    requires i < |cs|
    ensures Bag(cs[i := c]) + Held(cs[i]) == Bag(cs) + Held(c)
    ensures Held(cs[i]) <= Bag(cs)
  {
    if i > 0 {
      BagUpdate(cs[1..], i - 1, c);
      assert cs[i := c][1..] == cs[1..][i - 1 := c];
      Regroup(Held(cs[0]), Bag(cs[1..][i - 1 := c]), Held(cs[i]), Bag(cs[1..]), Held(c));
    } else {
      assert cs[i := c][1..] == cs[1..];
    }
  }

  lemma Regroup(h: multiset<Delivery>, b': multiset<Delivery>, o: multiset<Delivery>, b: multiset<Delivery>,
      n: multiset<Delivery>)
    requires b' + o == b + n
    ensures (h + b') + o == (h + b) + n
    ensures o <= b ==> o <= h + b
  {
    assert (h + b') + o == h + (b' + o);
    assert (h + b) + n == h + (b + n);
  }

  /** Taking the head of one queue. */
  lemma HeadTail(q: seq<Delivery>)
    requires q != []
    ensures multiset(q) == multiset{q[0]} + multiset(q[1..])
  {
    assert q == [q[0]] + q[1..];
  }

  lemma CancelSwap(b: multiset<Delivery>, b': multiset<Delivery>, h: multiset<Delivery>, o: Delivery, n: Delivery)
    requires h <= b && o in h
    requires b' + h == b + (h - multiset{o} + multiset{n})
    ensures o in b && b' == b - multiset{o} + multiset{n}
  {
    forall x
      ensures b'[x] == (b - multiset{o} + multiset{n})[x]
    {
      assert (b' + h)[x] == (b + (h - multiset{o} + multiset{n}))[x];
    }
  }

  lemma CancelLess(b: multiset<Delivery>, b': multiset<Delivery>, h: multiset<Delivery>, ds: multiset<Delivery>)
    requires h <= b && ds <= h
    requires b' + h == b + (h - ds)
    ensures ds <= b && b' == b - ds
  {
    forall x
      ensures b'[x] == (b - ds)[x]
    {
      assert (b' + h)[x] == (b + (h - ds))[x];
    }
  }

  lemma CancelMore(b: multiset<Delivery>, b': multiset<Delivery>, h: multiset<Delivery>, n: multiset<Delivery>)
    requires b' + h == b + (h + n)
    ensures b' == b + n
  {
    forall x
      ensures b'[x] == (b + n)[x]
    {
      assert (b' + h)[x] == (b + (h + n))[x];
    }
  }

  /** One delivery of one cluster rewritten, moved within the cluster, or both. */
  lemma BagSwap(cs: seq<Cluster>, i: nat, c: Cluster, o: Delivery, n: Delivery)
    requires i < |cs| && o in Held(cs[i]) && Held(c) == Held(cs[i]) - multiset{o} + multiset{n}
    ensures o in Bag(cs) && Bag(cs[i := c]) == Bag(cs) - multiset{o} + multiset{n}
  {
    BagUpdate(cs, i, c);
    CancelSwap(Bag(cs), Bag(cs[i := c]), Held(cs[i]), o, n);
  }

  lemma BagLess(cs: seq<Cluster>, i: nat, c: Cluster, ds: multiset<Delivery>)
    requires i < |cs| && ds <= Held(cs[i]) && Held(c) == Held(cs[i]) - ds
    ensures ds <= Bag(cs) && Bag(cs[i := c]) == Bag(cs) - ds
  {
    BagUpdate(cs, i, c);
    CancelLess(Bag(cs), Bag(cs[i := c]), Held(cs[i]), ds);
  }

  lemma BagMore(cs: seq<Cluster>, i: nat, c: Cluster, n: multiset<Delivery>)
    requires i < |cs| && Held(c) == Held(cs[i]) + n
    ensures Bag(cs[i := c]) == Bag(cs) + n
  {
    BagUpdate(cs, i, c);
    CancelMore(Bag(cs), Bag(cs[i := c]), Held(cs[i]), n);
  }

  // ---------------------------------------------------------------- one cluster at a time

  lemma Parts(a: multiset<Delivery>, b: multiset<Delivery>, p: multiset<Delivery>, r: multiset<Delivery>, o: Delivery,
      n: Delivery)
    ensures o in a ==> forall m ::
      (a - multiset{o}) + (b + multiset{n}) + p + r + m == a + b + p + r + m - multiset{o} + multiset{n}
    ensures o in p ==> forall m ::
      a + b + (p - multiset{o}) + (r + multiset{n}) + m == a + b + p + r + m - multiset{o} + multiset{n}
    ensures a + b + p + r + multiset{n} == a + b + p + r + multiset{o} - multiset{o} + multiset{n}
  {
  }

  lemma HeldPush(cl: Cluster, n: Delivery)
    requires cl.hand != []
    ensures
      var cl' := cl.(hand := cl.hand[1..], taskQueue := cl.taskQueue + [n]);
      cl.hand[0] in Held(cl) && Held(cl') == Held(cl) - multiset{cl.hand[0]} + multiset{n}
  {
    var o := cl.hand[0];
    HeadTail(cl.hand);
    assert multiset(cl.hand[1..]) == multiset(cl.hand) - multiset{o};
    Parts(multiset(cl.hand), multiset(cl.taskQueue), InPool(cl.pool), multiset(cl.resultQueue), o, n);
  }

  lemma HeldReject(cl: Cluster)
    requires cl.hand != []
    ensures
      var cl' := cl.(hand := cl.hand[1..]);
      cl.hand[0] in Held(cl) && Held(cl') == Held(cl) - multiset{cl.hand[0]}
  {
    HeadTail(cl.hand);
  }

  lemma HeldGrant(cl: Cluster, rest: seq<Candidate>, n: Delivery)
    ensures Held(cl.(candidates := rest, hand := cl.hand + [n])) == Held(cl) + multiset{n}
    ensures Held(cl.(candidates := rest)) == Held(cl) + multiset{}
  {
  }

  lemma HeldTake(cl: Cluster, w: nat)
    requires cl.taskQueue != [] && w < |cl.pool| && cl.pool[w].Idle?
    ensures Held(cl.(taskQueue := cl.taskQueue[1..], pool := cl.pool[w := Holds(cl.taskQueue[0])])) ==
      Held(cl) + multiset{}
  {
    var o := cl.taskQueue[0];
    HeadTail(cl.taskQueue);
    PoolUpdate(cl.pool, w, Holds(o));
    var p' := InPool(cl.pool[w := Holds(o)]);
    assert p' == InPool(cl.pool) + multiset{o};
    var b, b' := multiset(cl.taskQueue), multiset(cl.taskQueue[1..]);
    Shift(b', InPool(cl.pool), multiset{o});
    Sandwich(multiset(cl.hand), b, InPool(cl.pool), b', p', multiset(cl.resultQueue), InSlot(cl.monitor));
  }

  lemma Shift(b': multiset<Delivery>, p: multiset<Delivery>, o: multiset<Delivery>)
    ensures b' + (p + o) == (o + b') + p
  {
  }

  lemma Sandwich(a: multiset<Delivery>, b: multiset<Delivery>, p: multiset<Delivery>, b': multiset<Delivery>,
      p': multiset<Delivery>, r: multiset<Delivery>, m: multiset<Delivery>)
    requires b + p == b' + p'
    ensures a + b + p + r + m == a + b' + p' + r + m
  {
    assert a + b + p == a + (b + p);
    assert a + b' + p' == a + (b' + p');
  }

  lemma HeldByWorker(cl: Cluster, w: nat)
    requires w < |cl.pool|
    ensures InSlot(cl.pool[w]) <= InPool(cl.pool)
    ensures InPool(cl.pool[w := Idle]) == InPool(cl.pool) - InSlot(cl.pool[w])
  {
    PoolUpdate(cl.pool, w, Idle);
    assert InPool(cl.pool) == InPool(cl.pool[w := Idle]) + InSlot(cl.pool[w]);
  }

  lemma HeldPublish(cl: Cluster, w: nat, n: Delivery)
    requires w < |cl.pool| && cl.pool[w].Holds?
    ensures
      var cl' := cl.(pool := cl.pool[w := Idle], resultQueue := cl.resultQueue + [n]);
      cl.pool[w].d in Held(cl) && Held(cl') == Held(cl) - multiset{cl.pool[w].d} + multiset{n}
  {
    HeldByWorker(cl, w);
    Parts(multiset(cl.hand), multiset(cl.taskQueue), InPool(cl.pool), multiset(cl.resultQueue), cl.pool[w].d, n);
  }

  lemma HeldFetch(cl: Cluster)
    requires cl.monitor.Idle? && cl.resultQueue != []
    ensures Held(cl.(resultQueue := cl.resultQueue[1..], monitor := Holds(cl.resultQueue[0]))) == Held(cl) + multiset{}
  {
    var o := cl.resultQueue[0];
    HeadTail(cl.resultQueue);
    var front := multiset(cl.hand) + multiset(cl.taskQueue) + InPool(cl.pool);
    assert front + multiset(cl.resultQueue) == front + multiset(cl.resultQueue[1..]) + multiset{o};
  }

  lemma HeldRemark(cl: Cluster, n: Delivery)
    requires cl.monitor.Holds?
    ensures
      cl.monitor.d in Held(cl) && Held(cl.(monitor := Holds(n))) == Held(cl) - multiset{cl.monitor.d} + multiset{n}
  {
    Parts(multiset(cl.hand), multiset(cl.taskQueue), InPool(cl.pool), multiset(cl.resultQueue), cl.monitor.d, n);
  }

  lemma LessPusher(h: multiset<Delivery>, b: multiset<Delivery>, p: multiset<Delivery>, r: multiset<Delivery>,
      m: multiset<Delivery>)
    ensures h <= h + b + p + r + m && multiset{} + b + p + r + m == h + b + p + r + m - h
  {
  }

  lemma LessWorker(h: multiset<Delivery>, b: multiset<Delivery>, p: multiset<Delivery>, r: multiset<Delivery>,
      m: multiset<Delivery>, o: multiset<Delivery>)
    requires o <= p
    ensures o <= h + b + p + r + m && h + b + (p - o) + r + m == h + b + p + r + m - o
  {
  }

  lemma HeldDie(cl: Cluster, v: Victim)
    requires v.Worker? ==> v.w < |cl.pool|
    ensures Casualties(cl, v) <= Held(cl) && Held(Survivors(cl, v)) == Held(cl) - Casualties(cl, v)
  {
    var h, b, p, r, m := multiset(cl.hand), multiset(cl.taskQueue), InPool(cl.pool), multiset(cl.resultQueue),
      InSlot(cl.monitor);
    match v {
      case Pusher => LessPusher(h, b, p, r, m);
      case Worker(w) =>
        HeldByWorker(cl, w);
        LessWorker(h, b, p, r, m, InSlot(cl.pool[w]));
      case Monitor =>
      case Everything => IdlePool(0);
    }
  }

  // ---------------------------------------------------------------- each step is a protocol step

  ghost predicate Means(k: Conf, s: State, s': State, a: Act) {
    Enabled(k, Abs(s), a) && Abs(s') == Do(k, Abs(s), a)
  }

  lemma MeansEnqueue(k: Conf, s: State, pk: Pk, payload: Package)
    requires pk !in s.payloads
    ensures Means(k, s, DoEnqueue(s, pk, payload), Enqueue(pk, payload))
  {
  }

  lemma FieldsTick(k: Conf, s: State, s': State, dt: nat)
    requires s'.clock == s.clock + dt && s' == s.(clock := s'.clock)
    ensures Means(k, s, s', Tick(dt))
  {
    assert Abs(s') == Abs(s).(clock := s'.clock);
  }

  lemma MeansWait(k: Conf, s: State, dt: nat)
    ensures Means(k, s, DoWait(s, dt), Tick(dt))
  {
    FieldsTick(k, s, DoWait(s, dt), dt);
  }

  lemma MeansPrune(k: Conf, s: State, id: Id)
    requires id in s.tasks && s.tasks[id].out.success
    ensures Means(k, s, DoPrune(s, id), Prune(id))
  {
  }

  lemma MeansJoin(k: Conf, s: State, workers: nat)
    ensures Means(k, s, DoJoin(s, workers), Stutter)
  {
    IdlePool(workers);
    assert ([Empty(workers)] + s.clusters)[1..] == s.clusters;
    assert Held(Empty(workers)) == multiset{};
  }

  /** The list of candidates holds no delivery. */
  lemma BagCandidates(cs: seq<Cluster>, c: nat, candidates: seq<Lease.Candidate>)
    requires c < |cs|
    ensures Bag(cs[c := cs[c].(candidates := candidates)]) == Bag(cs)
  {
    BagMore(cs, c, cs[c].(candidates := candidates), multiset{});
  }

  lemma MeansSelect(k: Conf, s: State, c: nat, sel: seq<Pk>)
    requires CanSelect(s, c, sel)
    ensures Means(k, s, DoSelect(s, c, sel), Stutter)
  {
    BagCandidates(s.clusters, c, DoSelect(s, c, sel).clusters[c].candidates);
  }

  /** A candidate was read with an expired lock, and the clock has not gone back since. */
  ghost predicate Stale(s: State) {
    forall c, i :: 0 <= c < |s.clusters| && 0 <= i < |s.clusters[c].candidates| ==>
      s.clusters[c].candidates[i].lock < s.clock
  }

  lemma BagCas(cs: seq<Cluster>, c: nat, n: Delivery)
    requires c < |cs| && cs[c].candidates != []
    ensures
      var cl := cs[c];
      Bag(cs[c := cl.(candidates := cl.candidates[1..], hand := cl.hand + [n])]) == Bag(cs) + multiset{n} &&
      Bag(cs[c := cl.(candidates := cl.candidates[1..])]) == Bag(cs)
  {
    var cl := cs[c];
    HeldGrant(cl, cl.candidates[1..], n);
    BagMore(cs, c, cl.(candidates := cl.candidates[1..], hand := cl.hand + [n]), multiset{n});
    BagMore(cs, c, cl.(candidates := cl.candidates[1..]), multiset{});
  }

  /** A grant, as a relation between the fields of two ledgers. */
  ghost predicate Grants(k: Conf, l: Ledger, l': Ledger, pk: Pk) {
    && pk in l.rows && Free(k, l.rows[pk], l.clock)
    && l'.clock == l.clock && l'.rows == l.rows[pk := l.clock + k.retry]
    && l'.pkgs == l.pkgs && l'.tasks == l.tasks
    && l'.live == l.live + multiset{Delivery(l.next, pk, l.clock, Unstamped, Pending, Unsaved)}
    && l'.monitored == l.monitored && l'.rejected == l.rejected && l'.lost == l.lost && l'.next == l.next + 1
  }

  lemma GrantIs(k: Conf, l: Ledger, l': Ledger, pk: Pk)
    requires Grants(k, l, l', pk)
    ensures Enabled(k, l, Grant(pk)) && l' == Do(k, l, Grant(pk))
  {
  }

  lemma WinBag(s: State, c: nat)
    requires CanCas(s, c)
    ensures Bag(s.clusters[c := Winner(s, c)]) == Bag(s.clusters) + multiset{Granted(s, s.clusters[c].candidates[0].pk)}
  {
    BagCas(s.clusters, c, Granted(s, s.clusters[c].candidates[0].pk));
  }

  lemma CandidateExpired(s: State, c: nat)
    requires CanCas(s, c) && Stale(s) && Wins(s, s.clusters[c].candidates[0])
    ensures s.locks[s.clusters[c].candidates[0].pk] < s.clock
  {
  }

  lemma WinFields(k: Conf, s: State, c: nat, pk: Pk)
    requires CanCas(s, c) && s.clusters[c].candidates[0].pk == pk
    ensures
      var s' := DoWin(k, s, c);
      && s'.clock == s.clock && s'.locks == s.locks[pk := s.clock + k.retry]
      && s'.payloads == s.payloads && s'.tasks == s.tasks
      && s'.monitored == s.monitored && s'.rejected == s.rejected && s'.lost == s.lost && s'.next == s.next + 1
      && s'.clusters == s.clusters[c := Winner(s, c)]
  {
  }

  lemma FieldsGrant(k: Conf, s: State, s': State, pk: Pk)
    requires pk in s.locks && s.locks[pk] < s.clock
    requires
      && s'.clock == s.clock && s'.locks == s.locks[pk := s.clock + k.retry]
      && s'.payloads == s.payloads && s'.tasks == s.tasks
      && s'.monitored == s.monitored && s'.rejected == s.rejected && s'.lost == s.lost && s'.next == s.next + 1
      && Bag(s'.clusters) == Bag(s.clusters) + multiset{Granted(s, pk)}
    ensures Grants(k, Abs(s), Abs(s'), pk)
  {
  }

  /** A compare-and-set that succeeds is one atomic grant, however old the snapshot it started from. */
  lemma MeansCasWon(k: Conf, s: State, c: nat)
    requires CanCas(s, c) && Stale(s) && Wins(s, s.clusters[c].candidates[0])
    ensures Means(k, s, DoWin(k, s, c), Grant(s.clusters[c].candidates[0].pk))
  {
    var pk := s.clusters[c].candidates[0].pk;
    CandidateExpired(s, c);
    WinBag(s, c);
    WinFields(k, s, c, pk);
    FieldsGrant(k, s, DoWin(k, s, c), pk);
    GrantIs(k, Abs(s), Abs(DoWin(k, s, c)), pk);
  }

  /** One that fails changes nothing but the candidate list. */
  lemma MeansCasLost(k: Conf, s: State, c: nat)
    requires CanCas(s, c)
    ensures Means(k, s, DoMiss(s, c), Stutter)
  {
    BagCas(s.clusters, c, Granted(s, 0));
  }

  lemma BagReject(cs: seq<Cluster>, c: nat)
    requires c < |cs| && cs[c].hand != []
    ensures
      var cl := cs[c];
      cl.hand[0] in Bag(cs) && Bag(cs[c := cl.(hand := cl.hand[1..])]) == Bag(cs) - multiset{cl.hand[0]}
  {
    HeldReject(cs[c]);
    BagLess(cs, c, cs[c].(hand := cs[c].hand[1..]), multiset{cs[c].hand[0]});
  }

  lemma MeansReject(k: Conf, s: State, c: nat)
    requires CanHandle(s, c, false)
    ensures Means(k, s, DoReject(s, c), Reject(s.clusters[c].hand[0]))
  {
    BagReject(s.clusters, c);
  }

  lemma BagPush(cs: seq<Cluster>, c: nat, n: Delivery)
    requires c < |cs| && cs[c].hand != []
    ensures
      var cl := cs[c];
      cl.hand[0] in Bag(cs) &&
      Bag(cs[c := cl.(hand := cl.hand[1..], taskQueue := cl.taskQueue + [n])]) ==
        Bag(cs) - multiset{cl.hand[0]} + multiset{n}
  {
    HeldPush(cs[c], n);
    BagSwap(cs, c, cs[c].(hand := cs[c].hand[1..], taskQueue := cs[c].taskQueue + [n]), cs[c].hand[0], n);
  }

  lemma MeansPush(k: Conf, s: State, c: nat, lookup: bool)
    requires CanHandle(s, c, true)
    ensures Means(k, s, DoPush(s, c, lookup), Stamp_(s.clusters[c].hand[0], lookup))
  {
    var cl := s.clusters[c];
    var n := Restamp(s.tasks, cl.hand[0], lookup);
    BagPush(s.clusters, c, n);
    assert DoPush(s, c, lookup).clusters == s.clusters[c := cl.(hand := cl.hand[1..], taskQueue := cl.taskQueue + [n])];
  }

  lemma BagTake(cs: seq<Cluster>, c: nat, w: nat)
    requires c < |cs| && cs[c].taskQueue != [] && w < |cs[c].pool| && cs[c].pool[w].Idle?
    ensures
      var cl := cs[c];
      Bag(cs[c := cl.(taskQueue := cl.taskQueue[1..], pool := cl.pool[w := Holds(cl.taskQueue[0])])]) == Bag(cs)
  {
    HeldTake(cs[c], w);
    BagMore(cs, c, cs[c].(taskQueue := cs[c].taskQueue[1..], pool := cs[c].pool[w := Holds(cs[c].taskQueue[0])]),
      multiset{});
  }

  lemma MeansTake(k: Conf, s: State, c: nat, w: nat)
    requires CanTake(s, c, w)
    ensures Means(k, s, DoTake(s, c, w), Stutter)
  {
    BagTake(s.clusters, c, w);
  }

  lemma BagPublish(cs: seq<Cluster>, c: nat, w: nat, n: Delivery)
    requires c < |cs| && w < |cs[c].pool| && cs[c].pool[w].Holds?
    ensures
      var cl := cs[c];
      cl.pool[w].d in Bag(cs) &&
      Bag(cs[c := cl.(pool := cl.pool[w := Idle], resultQueue := cl.resultQueue + [n])])
        == Bag(cs) - multiset{cl.pool[w].d} + multiset{n}
  {
    var cl := cs[c];
    HeldPublish(cl, w, n);
    BagSwap(cs, c, cl.(pool := cl.pool[w := Idle], resultQueue := cl.resultQueue + [n]), cl.pool[w].d, n);
  }

  lemma MeansPublish(k: Conf, s: State, c: nat, w: nat, out: Outcome)
    requires CanPublish(s, c, w)
    ensures Means(k, s, DoPublish(s, c, w, out), Finish(s.clusters[c].pool[w].d, out))
  {
    BagPublish(s.clusters, c, w, s.clusters[c].pool[w].d.(result := Finished(out)));
  }

  lemma BagFetch(cs: seq<Cluster>, c: nat)
    requires c < |cs| && cs[c].monitor.Idle? && cs[c].resultQueue != []
    ensures
      var cl := cs[c];
      Bag(cs[c := cl.(resultQueue := cl.resultQueue[1..], monitor := Holds(cl.resultQueue[0]))]) == Bag(cs)
  {
    HeldFetch(cs[c]);
    BagMore(cs, c, cs[c].(resultQueue := cs[c].resultQueue[1..], monitor := Holds(cs[c].resultQueue[0])), multiset{});
  }

  lemma MeansFetch(k: Conf, s: State, c: nat)
    requires CanFetch(s, c)
    ensures Means(k, s, DoFetch(s, c), Stutter)
  {
    BagFetch(s.clusters, c);
  }

  lemma BagRemark(cs: seq<Cluster>, c: nat, n: Delivery)
    requires c < |cs| && cs[c].monitor.Holds?
    ensures
      cs[c].monitor.d in Bag(cs) &&
      Bag(cs[c := cs[c].(monitor := Holds(n))]) == Bag(cs) - multiset{cs[c].monitor.d} + multiset{n}
  {
    HeldRemark(cs[c], n);
    BagSwap(cs, c, cs[c].(monitor := Holds(n)), cs[c].monitor.d, n);
  }

  lemma MeansLook(k: Conf, s: State, c: nat, reaches: bool)
    requires CanLook(s, c)
    ensures Means(k, s, DoLook(k, s, c, reaches), Look(s.clusters[c].monitor.d, reaches))
  {
    var d := s.clusters[c].monitor.d;
    var n := AfterLook(k, s.payloads, s.tasks, d, reaches);
    BagRemark(s.clusters, c, n);
    assert DoLook(k, s, c, reaches).clusters == s.clusters[c := s.clusters[c].(monitor := Holds(n))];
  }

  lemma MeansWrite(k: Conf, s: State, c: nat, writes: bool)
    requires CanWrite(s, c)
    ensures Means(k, s, DoWrite(k, s, c, writes), Write(s.clusters[c].monitor.d, writes))
  {
    var d := s.clusters[c].monitor.d;
    var n := Marked(k, s.payloads, s.tasks, d, writes);
    BagRemark(s.clusters, c, n);
    assert DoWrite(k, s, c, writes).clusters == s.clusters[c := s.clusters[c].(monitor := Holds(n))];
  }

  lemma MeansAckMax(k: Conf, s: State, c: nat)
    requires CanAckMax(s, c)
    ensures Means(k, s, DoAckMax(s, c), AckMax(s.clusters[c].monitor.d))
  {
    var d := s.clusters[c].monitor.d;
    BagRemark(s.clusters, c, Settle(d));
    assert DoAckMax(s, c).clusters == s.clusters[c := s.clusters[c].(monitor := Holds(Settle(d)))];
  }

  lemma BagDie(cs: seq<Cluster>, c: nat, v: Victim)
    requires c < |cs| && (v.Worker? ==> v.w < |cs[c].pool|)
    ensures Casualties(cs[c], v) <= Bag(cs) && Bag(cs[c := Survivors(cs[c], v)]) == Bag(cs) - Casualties(cs[c], v)
  {
    HeldDie(cs[c], v);
    BagLess(cs, c, Survivors(cs[c], v), Casualties(cs[c], v));
  }

  lemma FieldsClose(k: Conf, s: State, s': State, d: Delivery)
    requires d in Bag(s.clusters) && Bag(s'.clusters) == Bag(s.clusters) - multiset{d}
    requires d.pk in s.payloads && d.result.Finished? && !Owes(d) && (d.mark.Skipped? || d.mark.Saved?)
    requires
      s' == s.(
        clusters := s'.clusters,
        locks := if Acked(s.payloads, d) then s.locks - {d.pk} else s.locks,
        monitored := s.monitored + multiset{d})
    ensures Means(k, s, s', Close(d))
  {
    CloseIs(k, Abs(s), Abs(s'), d);
  }

  lemma CloseIs(k: Conf, l: Ledger, l': Ledger, d: Delivery)
    requires d in l.live && d.pk in l.pkgs && d.result.Finished?
    requires !Owes(d) && (d.mark.Skipped? || d.mark.Saved?)
    requires
      l' == l.(
        rows := if Acked(l.pkgs, d) then l.rows - {d.pk} else l.rows,
        live := l.live - multiset{d},
        monitored := l.monitored + multiset{d})
    ensures Enabled(k, l, Close(d)) && l' == Do(k, l, Close(d))
  {
  }

  lemma MeansAck(k: Conf, s: State, c: nat)
    requires CanAck(s, c)
    ensures Means(k, s, DoAck(s, c), Close(s.clusters[c].monitor.d))
  {
    BagDie(s.clusters, c, Monitor);
    assert DoAck(s, c).clusters == s.clusters[c := Survivors(s.clusters[c], Monitor)];
    FieldsClose(k, s, DoAck(s, c), s.clusters[c].monitor.d);
  }

  lemma FieldsLose(k: Conf, s: State, s': State, ds: multiset<Delivery>)
    requires ds <= Bag(s.clusters) && Bag(s'.clusters) == Bag(s.clusters) - ds
    requires s' == s.(clusters := s'.clusters, lost := s.lost + ds)
    ensures Means(k, s, s', Lose(ds))
  {
    assert Abs(s') == Abs(s).(live := Bag(s'.clusters), lost := s.lost + ds);
  }

  lemma MeansDie(k: Conf, s: State, c: nat, v: Victim)
    requires CanDie(s, c, v)
    ensures Means(k, s, DoDie(s, c, v), Lose(Casualties(s.clusters[c], v)))
  {
    BagDie(s.clusters, c, v);
    FieldsLose(k, s, DoDie(s, c, v), Casualties(s.clusters[c], v));
  }

  // ---------------------------------------------------------------- whole executions

  /** Pusher steps. */
  lemma PusherMeans(k: Conf, s: State, s': State, st: Step)
    requires StepBy(k, s, s', st) && Stale(s)
    requires st.Select? || st.CompareAndSet? || st.RejectHead? || st.PushHead?
    ensures exists a :: Means(k, s, s', a)
  {
    match st {
      case Select(c, sel) => MeansSelect(k, s, c, sel);
      case CompareAndSet(c) =>
        if Wins(s, s.clusters[c].candidates[0]) {
          MeansCasWon(k, s, c);
        } else {
          MeansCasLost(k, s, c);
        }
      case RejectHead(c) => MeansReject(k, s, c);
      case PushHead(c, lookup) => MeansPush(k, s, c, lookup);
    }
  }

  /** Worker steps, and the arrival of tasks, clusters and time. */
  lemma WorkerMeans(k: Conf, s: State, s': State, st: Step)
    requires StepBy(k, s, s', st)
    requires st.EnqueueTask? || st.Wait? || st.Join? || st.Take? || st.Publish?
    ensures exists a :: Means(k, s, s', a)
  {
    match st {
      case EnqueueTask(pk, payload) => MeansEnqueue(k, s, pk, payload);
      case Wait(dt) => MeansWait(k, s, dt);
      case Join(workers) => MeansJoin(k, s, workers);
      case Take(c, w) => MeansTake(k, s, c, w);
      case Publish(c, w, out) => MeansPublish(k, s, c, w, out);
    }
  }

  /** Monitor steps and deaths. */
  lemma MonitorMeans(k: Conf, s: State, s': State, st: Step)
    requires StepBy(k, s, s', st)
    requires st.Fetch? || st.LookUp? || st.WriteRow? || st.AckAtMax? || st.AckResult? || st.PruneRow? || st.Dies?
    ensures exists a :: Means(k, s, s', a)
  {
    match st {
      case Fetch(c) => MeansFetch(k, s, c);
      case LookUp(c, reaches) => MeansLook(k, s, c, reaches);
      case WriteRow(c, writes) => MeansWrite(k, s, c, writes);
      case AckAtMax(c) => MeansAckMax(k, s, c);
      case AckResult(c) => MeansAck(k, s, c);
      case PruneRow(id) => MeansPrune(k, s, id);
      case Dies(c, v) => MeansDie(k, s, c, v);
    }
  }

  lemma StepMeans(k: Conf, s: State, s': State, st: Step)
    requires StepBy(k, s, s', st) && Stale(s)
    ensures Next(k, Abs(s), Abs(s'))
  {
    if st.Select? || st.CompareAndSet? || st.RejectHead? || st.PushHead? {
      PusherMeans(k, s, s', st);
    } else if st.EnqueueTask? || st.Wait? || st.Join? || st.Take? || st.Publish? {
      WorkerMeans(k, s, s', st);
    } else {
      MonitorMeans(k, s, s', st);
    }
    var a :| Means(k, s, s', a);
  }

  lemma CandidatesKept(k: Conf, s: State, s': State, st: Step)
    requires StepBy(k, s, s', st) && !st.Join? && !st.Select? && !st.CompareAndSet? && !st.Dies?
    ensures |s'.clusters| == |s.clusters|
    ensures forall c :: 0 <= c < |s.clusters| ==> s'.clusters[c].candidates == s.clusters[c].candidates
  {
  }

  lemma SelectReadsExpired(s: State, c: nat, sel: seq<Pk>)
    requires CanSelect(s, c, sel) && Stale(s)
    ensures Stale(DoSelect(s, c, sel))
  {
  }

  lemma CasDropsOne(k: Conf, s: State, c: nat)
    requires CanCas(s, c) && Stale(s)
    ensures Stale(DoCas(k, s, c))
  {
    var s' := DoCas(k, s, c);
    forall d, i | 0 <= d < |s'.clusters| && 0 <= i < |s'.clusters[d].candidates|
      ensures s'.clusters[d].candidates[i].lock < s'.clock
    {
      assert d == c ==> s'.clusters[d].candidates[i] == s.clusters[d].candidates[i + 1];
    }
  }

  lemma DeathKeepsStale(s: State, c: nat, v: Victim)
    requires CanDie(s, c, v) && Stale(s)
    ensures Stale(DoDie(s, c, v))
  {
  }

  lemma JoinKeepsStale(s: State, workers: nat)
    requires Stale(s)
    ensures Stale(DoJoin(s, workers))
  {
    var s' := DoJoin(s, workers);
    forall c, i | 0 <= c < |s'.clusters| && 0 <= i < |s'.clusters[c].candidates|
      ensures s'.clusters[c].candidates[i].lock < s'.clock
    {
      assert s'.clusters[c] == if c == 0 then Empty(workers) else s.clusters[c - 1];
    }
  }

  lemma StepStale(k: Conf, s: State, s': State, st: Step)
    requires StepBy(k, s, s', st) && Stale(s)
    ensures Stale(s')
  {
    if st.Join? {
      JoinKeepsStale(s, st.workers);
    } else if st.Select? {
      SelectReadsExpired(s, st.c, st.sel);
    } else if st.CompareAndSet? {
      CasDropsOne(k, s, st.c);
    } else if st.Dies? {
      DeathKeepsStale(s, st.c, st.v);
    } else {
      CandidatesKept(k, s, s', st);
      ClockGoesOn(k, s, s', st);
    }
  }

  lemma ClockGoesOn(k: Conf, s: State, s': State, st: Step)
    requires StepBy(k, s, s', st)
    ensures s.clock <= s'.clock
  {
  }

  lemma {:induction false} ExecutionStale(k: Conf, tr: seq<State>, i: nat)
    requires Execution(k, tr) && i < |tr|
    ensures Stale(tr[i])
  {
    if i > 0 {
      ExecutionStale(k, tr, i - 1);
      assert Steps(k, tr[i - 1], tr[i - 1 + 1]);
      var st :| StepBy(k, tr[i - 1], tr[i], st);
      StepStale(k, tr[i - 1], tr[i], st);
    }
  }

  ghost function AbsRun(tr: seq<State>): seq<Ledger> {
    seq(|tr|, i requires 0 <= i < |tr| => Abs(tr[i]))
  }

  /** Refinement: seen through Abs, every execution of the pipeline is a run of the protocol. */
  lemma PipelineRefinesLedger(k: Conf, tr: seq<State>)
    requires Execution(k, tr)
    ensures Run(k, AbsRun(tr))
  {
    forall i | 0 < i < |tr|
      ensures Follows(k, AbsRun(tr), i)
    {
      ExecutionStale(k, tr, i - 1);
      assert Steps(k, tr[i - 1], tr[i - 1 + 1]);
      var st :| StepBy(k, tr[i - 1], tr[i], st);
      StepMeans(k, tr[i - 1], tr[i], st);
    }
  }

  lemma PipelineInv(k: Conf, tr: seq<State>, i: nat)
    requires Execution(k, tr) && i < |tr|
    ensures Inv(k, Abs(tr[i]))
  {
    PipelineRefinesLedger(k, tr);
    RunInv(k, AbsRun(tr), i);
  }

  /** Every delivery granted so far is in exactly one place: in the hand, task queue, pool, result
      queue or monitor of one cluster, or monitored, or rejected, or lost. */
  lemma DeliveredInOnePlace(k: Conf, tr: seq<State>, i: nat, t: nat)
    requires Execution(k, tr) && i < |tr|
    ensures
      Weigh(Bag(tr[i].clusters), OnTok(t)) + Weigh(tr[i].monitored, OnTok(t))
        + Weigh(tr[i].rejected, OnTok(t)) + Weigh(tr[i].lost, OnTok(t))
      == if t < tr[i].next then 1 else 0
  {
    PipelineInv(k, tr, i);
    var s := tr[i];
    WeighUnion(Bag(s.clusters) + s.monitored + s.rejected, s.lost, OnTok(t));
    WeighUnion(Bag(s.clusters) + s.monitored, s.rejected, OnTok(t));
    WeighUnion(Bag(s.clusters), s.monitored, OnTok(t));
  }

  /** Whichever processes die, a package stays in the broker until a result of it was monitored that
      entitles its removal, or its payload was found not to decode. */
  lemma NoPackageDropped(k: Conf, tr: seq<State>, i: nat, pk: Pk)
    requires Execution(k, tr) && i < |tr| && pk in tr[i].payloads
    ensures pk in tr[i].locks || Entitled(k, Abs(tr[i]), pk) || Refused(Abs(tr[i]), pk)
  {
    PipelineInv(k, tr, i);
  }

  /** And once a success of it was monitored, or a failure with ack_failure, or a save that left attempt_count at
      MAX_ATTEMPTS, it is in the broker no more: nothing finished is delivered again. */
  lemma FinishedLeavesBroker(k: Conf, tr: seq<State>, i: nat, d: Delivery)
    requires Execution(k, tr) && i < |tr| && d in tr[i].monitored && d.result.Finished?
    requires
      || d.result.out.success
      || (d.pk in tr[i].payloads && tr[i].payloads[d.pk].ackFailure)
      || (d.mark.Saved? && k.max > 0 && d.mark.count >= k.max)
    ensures d.pk in tr[i].payloads && d.pk !in tr[i].locks
  {
    PipelineInv(k, tr, i);
    var l := Abs(tr[i]);
    assert d in l.All() && Sound(l.clock, l.pkgs, d);
  }

  /** So it is with one whose payload was rejected. */
  lemma RejectedLeavesBroker(k: Conf, tr: seq<State>, i: nat, d: Delivery)
    requires Execution(k, tr) && i < |tr| && d in tr[i].rejected
    ensures d.pk in tr[i].payloads && d.pk !in tr[i].locks
  {
    PipelineRefinesLedger(k, tr);
    RunRejectedLeft(k, AbsRun(tr), i);
    assert RejectedLeft(Abs(tr[i]));
  }

  /** No two clusters ever hold one lease: grants of a row lie more than RETRY apart for the ORM. */
  lemma GrantsApart(k: Conf, tr: seq<State>, i: nat, d: Delivery, e: Delivery)
    requires Execution(k, tr) && i < |tr| && k.strict
    requires d in Abs(tr[i]).All() && e in Abs(tr[i]).All() && d.pk == e.pk && d.tok < e.tok
    ensures d.granted + k.retry < e.granted
  {
    PipelineInv(k, tr, i);
  }

  /** Nothing is forgotten: a package in the broker can be selected if and only if RETRY has passed since each of its
      grants, and one never granted as soon as the clock moves on. */
  lemma SelectableAfterRetry(k: Conf, tr: seq<State>, i: nat, pk: Pk)
    requires Execution(k, tr) && i < |tr| && pk in tr[i].locks
    ensures
      var s, all := tr[i], Abs(tr[i]).All();
      if exists d :: d in all && d.pk == pk then
        s.locks[pk] < s.clock <==> forall d :: d in all && d.pk == pk ==> d.granted + k.retry < s.clock
      else s.locks[pk] <= s.clock
  {
    PipelineRefinesLedger(k, tr);
    PipelineInv(k, tr, i);
    RunAllLockedBy(k, AbsRun(tr), i);
    assert LockedBy(k, Abs(tr[i]), pk);
  }
}
