/**
 The stop procedure of a cluster: the pusher finishes, each pooled worker is sent a pill, dead workers
 leave the pool, and last the monitor is told to stop. Workers run on meanwhile and may die at any step.
 */
module Shutdown {

  type Task = nat

  datatype Job = Job(task: Task) | Pill
  datatype Mail = Result(task: Task) | Stop

  datatype Life = Waiting | Busy(task: Task) | Exited
  datatype Worker = Worker(life: Life, pooled: bool)

  /** event_out is set: the pusher dequeues at most once more. */
  datatype Pusher = Dequeuing | Handing(left: seq<Task>) | Gone

  /** Joining waits for the pusher; Pilling has so many pills to go; Draining waits for the pool. */
  datatype Phase = Joining | Pilling(togo: nat) | Draining | Closing

  /** pushed, taken, published and monitored are the tasks in the order that happened; pilled tells that
      some worker left by taking a pill. */
  datatype St = St(
    phase: Phase, pusher: Pusher, jobs: seq<Job>, workers: seq<Worker>, mail: seq<Mail>, monitoring: bool,
    pushed: seq<Task>, taken: seq<Task>, published: seq<Task>, monitored: seq<Task>, pilled: bool)

  datatype Act =
    | Dequeue(tasks: seq<Task>) | Push | PusherEnds | PusherDies
    | Take(w: nat) | Publish(w: nat, last: bool) | Die(w: nat)
    | Join | SendPill | AllPilled | RemoveDead(w: nat) | CloseMail
    | Monitor

  predicate WorkerIs(s: St, w: nat, waiting: bool) {
    w < |s.workers| && if waiting then s.workers[w].life.Waiting? else s.workers[w].life.Busy?
  }

  predicate Enabled(s: St, a: Act) {
    match a
    case Dequeue(_) => s.pusher.Dequeuing?
    case Push => s.pusher.Handing? && s.pusher.left != []
    case PusherEnds => s.pusher.Handing? && s.pusher.left == []
    case PusherDies => !s.pusher.Gone?
    case Take(w) => WorkerIs(s, w, true) && s.jobs != []
    case Publish(w, _) => WorkerIs(s, w, false)
    case Die(w) => w < |s.workers| && !s.workers[w].life.Exited?
    case Join => s.phase.Joining? && s.pusher.Gone?
    case SendPill => s.phase.Pilling? && s.phase.togo > 0
    case AllPilled => s.phase.Pilling? && s.phase.togo == 0
    case RemoveDead(w) => s.phase.Draining? && w < |s.workers| && s.workers[w].pooled && s.workers[w].life.Exited?
    case CloseMail => s.phase.Draining? && Pooled(s.workers) == 0
    case Monitor => s.monitoring && s.mail != []
  }

  function Pooled(ws: seq<Worker>): nat {
    if ws == [] then 0 else (if ws[0].pooled then 1 else 0) + Pooled(ws[1..])
  }

  function Alive(ws: seq<Worker>): nat {
    if ws == [] then 0 else (if ws[0].life.Exited? then 0 else 1) + Alive(ws[1..])
  }

  function Pills(q: seq<Job>): nat {
    if q == [] then 0 else (if q[0].Pill? then 1 else 0) + Pills(q[1..])
  }

  function Lives(s: St, w: nat, life: Life): seq<Worker>
    requires w < |s.workers|
  {
    s.workers[w := s.workers[w].(life := life)]
  }

  function DoTake(s: St, w: nat): St
    requires Enabled(s, Take(w))
  {
    match s.jobs[0]
    case Job(task) => s.(jobs := s.jobs[1..], workers := Lives(s, w, Busy(task)), taken := s.taken + [task])
    case Pill => s.(jobs := s.jobs[1..], workers := Lives(s, w, Exited), pilled := true)
  }

  function DoPublish(s: St, w: nat, last: bool): St
    requires Enabled(s, Publish(w, last))
  {
    var task := s.workers[w].life.task;
    s.(workers := Lives(s, w, if last then Exited else Waiting), mail := s.mail + [Result(task)],
      published := s.published + [task])
  }

  function DoMonitor(s: St): St
    requires Enabled(s, Monitor)
  {
    match s.mail[0]
    case Result(task) => s.(mail := s.mail[1..], monitored := s.monitored + [task])
    case Stop => s.(mail := s.mail[1..], monitoring := false)
  }

  function Do(s: St, a: Act): St
    requires Enabled(s, a)
  {
    match a
    case Dequeue(tasks) => s.(pusher := Handing(tasks))
    case Push => s.(pusher := Handing(s.pusher.left[1..]), jobs := s.jobs + [Job(s.pusher.left[0])],
      pushed := s.pushed + [s.pusher.left[0]])
    case PusherEnds => s.(pusher := Gone)
    case PusherDies => s.(pusher := Gone)
    case Take(w) => DoTake(s, w)
    case Publish(w, last) => DoPublish(s, w, last)
    case Die(w) => s.(workers := Lives(s, w, Exited))
    case Join => s.(phase := Pilling(Pooled(s.workers)))
    case SendPill => s.(phase := Pilling(s.phase.togo - 1), jobs := s.jobs + [Pill])
    case AllPilled => s.(phase := Draining)
    case RemoveDead(w) => s.(workers := s.workers[w := s.workers[w].(pooled := false)])
    case CloseMail => s.(phase := Closing, mail := s.mail + [Stop])
    case Monitor => DoMonitor(s)
  }

  // ---------------------------------------------------------------- counting under updates

  lemma {:induction false} WorkerChanges(ws: seq<Worker>, w: nat, v: Worker)
    requires w < |ws|
    ensures Pooled(ws[w := v]) + (if ws[w].pooled then 1 else 0) == Pooled(ws) + (if v.pooled then 1 else 0)
    ensures Alive(ws[w := v]) + (if ws[w].life.Exited? then 0 else 1) == Alive(ws) + (if v.life.Exited? then 0 else 1)
  {
    if w == 0 {
      assert ws[w := v][1..] == ws[1..];
    } else {
      assert ws[w := v][1..] == ws[1..][w - 1 := v];
      WorkerChanges(ws[1..], w - 1, v);
    }
  }

  lemma {:induction false} OneMoreJob(q: seq<Job>, j: Job)
    ensures Pills(q + [j]) == Pills(q) + (if j.Pill? then 1 else 0)
  {
    if q != [] {
      assert (q + [j])[1..] == q[1..] + [j];
      OneMoreJob(q[1..], j);
    }
  }

  // ---------------------------------------------------------------- the invariant

  function TasksIn(q: seq<Job>): seq<Task> {
    if q == [] then [] else (if q[0].Job? then [q[0].task] else []) + TasksIn(q[1..])
  }

  function ResultsIn(m: seq<Mail>): seq<Task> {
    if m == [] then [] else (if m[0].Result? then [m[0].task] else []) + ResultsIn(m[1..])
  }

  lemma {:induction false} OneMoreTask(q: seq<Job>, j: Job)
    ensures TasksIn(q + [j]) == TasksIn(q) + (if j.Job? then [j.task] else [])
  {
    if q != [] {
      assert (q + [j])[1..] == q[1..] + [j];
      OneMoreTask(q[1..], j);
    }
  }

  lemma {:induction false} OneMoreResult(m: seq<Mail>, x: Mail)
    ensures ResultsIn(m + [x]) == ResultsIn(m) + (if x.Result? then [x.task] else [])
  {
    if m != [] {
      assert (m + [x])[1..] == m[1..] + [x];
      OneMoreResult(m[1..], x);
    }
  }

  ghost predicate PillsLast(q: seq<Job>) {
    forall i, j :: 0 <= i < j < |q| && q[i].Pill? ==> q[j].Pill?
  }

  ghost predicate AllPills(q: seq<Job>) {
    forall i :: 0 <= i < |q| ==> q[i].Pill?
  }

  ghost predicate AllResults(m: seq<Mail>) {
    forall i :: 0 <= i < |m| ==> m[i].Result?
  }

  /** No worker is alive outside the pool. */
  ghost predicate PoolInv(ws: seq<Worker>) {
    forall w :: 0 <= w < |ws| && !ws[w].life.Exited? ==> ws[w].pooled
  }

  /** There is a pill, sent or to be sent, for every worker alive. */
  ghost predicate PillInv(s: St) {
    && (!s.phase.Joining? ==> s.pusher.Gone?)
    && match s.phase
       case Joining => Pills(s.jobs) == 0 && !s.pilled
       case Pilling(togo) => Pills(s.jobs) + togo >= Alive(s.workers)
       case _ => Pills(s.jobs) >= Alive(s.workers)
  }

  /** Tasks come before pills, none is dropped by the queue, and none is left once a pill was taken. */
  ghost predicate JobInv(s: St) {
    && PillsLast(s.jobs)
    && s.pushed == s.taken + TasksIn(s.jobs)
    && (s.pilled ==> AllPills(s.jobs))
  }

  /** Results come before the STOP, which is sent when no worker is alive to add another. */
  ghost predicate MailInv(s: St) {
    && s.published == s.monitored + ResultsIn(s.mail)
    && (!s.phase.Closing? ==> s.monitoring && AllResults(s.mail))
    && (s.phase.Closing? ==> Alive(s.workers) == 0 && Pooled(s.workers) == 0)
    && (s.phase.Closing? && s.monitoring ==>
         s.mail != [] && s.mail[|s.mail| - 1].Stop? && AllResults(s.mail[..|s.mail| - 1]))
    && (!s.monitoring ==> s.mail == [])
  }

  ghost predicate Inv(s: St) {
    PoolInv(s.workers) && PillInv(s) && JobInv(s) && MailInv(s)
  }

  lemma {:induction false} AliveArePooled(ws: seq<Worker>)
    requires PoolInv(ws)
    ensures Alive(ws) <= Pooled(ws) <= |ws|
  {
    if ws != [] {
      assert forall w :: 0 <= w < |ws[1..]| ==> ws[1..][w] == ws[w + 1];
      AliveArePooled(ws[1..]);
    }
  }

  lemma {:induction false} NonePill(q: seq<Job>)
    ensures Pills(q) == 0 ==> forall i :: 0 <= i < |q| ==> q[i].Job?
    ensures AllPills(q) ==> TasksIn(q) == []
    ensures Pills(q) <= |q|
  {
    if q != [] {
      NonePill(q[1..]);
      if Pills(q) == 0 {
        forall i | 0 <= i < |q| ensures q[i].Job? {
          if i > 0 {
            assert q[i] == q[1..][i - 1];
          }
        }
      }
    }
  }

  lemma {:induction false} SomeAlive(ws: seq<Worker>, w: nat)
    requires w < |ws| && !ws[w].life.Exited?
    ensures Alive(ws) > 0
  {
    if w > 0 {
      SomeAlive(ws[1..], w - 1);
    }
  }

  lemma PoolStep(s: St, a: Act)
    requires Enabled(s, a) && PoolInv(s.workers)
    ensures PoolInv(Do(s, a).workers)
  {
  }

  lemma PillTaken(s: St, w: nat)
    requires Enabled(s, Take(w)) && PoolInv(s.workers) && PillInv(s)
    ensures PillInv(DoTake(s, w))
  {
    WorkerChanges(s.workers, w, DoTake(s, w).workers[w]);
  }

  lemma PillStep(s: St, a: Act)
    requires Enabled(s, a) && PoolInv(s.workers) && PillInv(s)
    ensures PillInv(Do(s, a))
  {
    var s' := Do(s, a);
    match a {
      case Take(w) => PillTaken(s, w);
      case Publish(w, last) => WorkerChanges(s.workers, w, s'.workers[w]);
      case Die(w) => WorkerChanges(s.workers, w, s'.workers[w]);
      case RemoveDead(w) => WorkerChanges(s.workers, w, s'.workers[w]);
      case Join => AliveArePooled(s.workers);
      case SendPill => OneMoreJob(s.jobs, Pill);
      case Push => OneMoreJob(s.jobs, Job(s.pusher.left[0]));
      case Dequeue(_) =>
      case PusherEnds =>
      case PusherDies =>
      case AllPilled =>
      case CloseMail =>
      case Monitor =>
    }
  }

  lemma TakeJobs(s: St, w: nat)
    requires Enabled(s, Take(w)) && JobInv(s)
    ensures JobInv(DoTake(s, w))
  {
    var q := s.jobs;
    assert forall i :: 0 <= i < |q[1..]| ==> q[1..][i] == q[i + 1];
    if q[0].Job? {
      assert TasksIn(q) == [q[0].task] + TasksIn(q[1..]);
    } else {
      assert forall i :: 1 <= i < |q| ==> q[i].Pill?;
      assert TasksIn(q) == TasksIn(q[1..]);
    }
  }

  lemma PushJobs(s: St)
    requires Enabled(s, Push) && PillInv(s) && JobInv(s)
    ensures JobInv(Do(s, Push))
  {
    NonePill(s.jobs);
    OneMoreTask(s.jobs, Job(s.pusher.left[0]));
  }

  lemma JobStep(s: St, a: Act)
    requires Enabled(s, a) && PillInv(s) && JobInv(s)
    ensures JobInv(Do(s, a))
  {
    match a {
      case Take(w) => TakeJobs(s, w);
      case SendPill =>
        OneMoreTask(s.jobs, Pill);
      case Push =>
        PushJobs(s);
      case Publish(_, _) =>
      case Die(_) =>
      case RemoveDead(_) =>
      case Join =>
      case Dequeue(_) =>
      case PusherEnds =>
      case PusherDies =>
      case AllPilled =>
      case CloseMail =>
      case Monitor =>
    }
  }

  lemma MailStep(s: St, a: Act)
    requires Enabled(s, a) && PoolInv(s.workers) && MailInv(s)
    ensures MailInv(Do(s, a))
  {
    var s' := Do(s, a);
    match a {
      case Take(w) => SomeAlive(s.workers, w);
      case Publish(w, last) =>
        SomeAlive(s.workers, w);
        OneMoreResult(s.mail, Result(s.workers[w].life.task));
      case Die(w) => SomeAlive(s.workers, w);
      case RemoveDead(w) =>
      case CloseMail =>
        AliveArePooled(s.workers);
        OneMoreResult(s.mail, Stop);
        assert (s.mail + [Stop])[..|s.mail|] == s.mail;
      case Monitor => MonitorMail(s);
      case Join =>
      case SendPill =>
      case Push =>
      case Dequeue(_) =>
      case PusherEnds =>
      case PusherDies =>
      case AllPilled =>
    }
  }

  lemma MonitorMail(s: St)
    requires Enabled(s, Monitor) && MailInv(s)
    ensures MailInv(DoMonitor(s))
  {
    var m := s.mail;
    assert forall i :: 0 <= i < |m[1..]| ==> m[1..][i] == m[i + 1];
    assert forall i :: 0 <= i < |m| - 1 ==> m[..|m| - 1][i] == m[i];
    if m[0].Result? {
      assert ResultsIn(m) == [m[0].task] + ResultsIn(m[1..]);
      if s.phase.Closing? {
        assert m[1..][..|m[1..]| - 1] == m[..|m| - 1][1..];
      }
    }
  }

  lemma StepInv(s: St, a: Act)
    requires Enabled(s, a) && Inv(s)
    ensures Inv(Do(s, a))
  {
    PoolStep(s, a);
    PillStep(s, a);
    JobStep(s, a);
    MailStep(s, a);
  }

  /** stop() begins: nothing pilled yet, and every live worker is in the pool. */
  ghost predicate Begins(s: St) {
    && s.phase.Joining? && s.monitoring && !s.pilled
    && PoolInv(s.workers)
    && Pills(s.jobs) == 0 && s.pushed == s.taken + TasksIn(s.jobs)
    && AllResults(s.mail) && s.published == s.monitored + ResultsIn(s.mail)
  }

  ghost predicate Run(tr: seq<St>, acts: seq<Act>) {
    && |tr| == |acts| + 1 && Begins(tr[0])
    && forall i :: 0 <= i < |acts| ==> Enabled(tr[i], acts[i]) && tr[i + 1] == Do(tr[i], acts[i])
  }

  lemma {:induction false} RunInv(tr: seq<St>, acts: seq<Act>, i: nat)
    requires Run(tr, acts) && i < |tr|
    ensures Inv(tr[i])
  {
    if i == 0 {
      NonePill(tr[0].jobs);
    } else {
      RunInv(tr, acts, i - 1);
      StepInv(tr[i - 1], acts[i - 1]);
    }
  }

  // ---------------------------------------------------------------- what stop guarantees

  /** No worker waits forever: while one waits, a pill or a task is in the queue or about to be sent. */
  lemma NobodyWaitsForever(tr: seq<St>, acts: seq<Act>, i: nat, w: nat)
    requires Run(tr, acts) && i < |tr| && WorkerIs(tr[i], w, true)
    ensures Pills(tr[i].jobs) + (if tr[i].phase.Pilling? then tr[i].phase.togo else 0) >= Alive(tr[i].workers) > 0
            || tr[i].phase.Joining?
    ensures tr[i].phase.Draining? || tr[i].phase.Closing? ==> Enabled(tr[i], Take(w))
  {
    RunInv(tr, acts, i);
    SomeAlive(tr[i].workers, w);
    NonePill(tr[i].jobs);
  }

  lemma {:induction false} StaysPilled(tr: seq<St>, acts: seq<Act>, k: nat, i: nat)
    requires Run(tr, acts) && k < i < |tr| && acts[k].Take? && tr[k].jobs[0].Pill?
    ensures tr[i].pilled
    decreases i
  {
    if k < i - 1 {
      StaysPilled(tr, acts, k, i - 1);
    }
  }

  /** If any worker leaves by taking a pill, every task ever pushed has been taken before. */
  lemma PillTakenLast(tr: seq<St>, acts: seq<Act>, k: nat, i: nat)
    requires Run(tr, acts) && k < i < |tr| && acts[k].Take? && tr[k].jobs[0].Pill?
    ensures tr[i].taken == tr[i].pushed == tr[k].pushed && tr[i].pusher.Gone?
  {
    StaysPilled(tr, acts, k, i);
    StaysPilled(tr, acts, k, k + 1);
    RunInv(tr, acts, i);
    NonePill(tr[i].jobs);
    NonePushed(tr, acts, k, i - 1);
  }

  lemma PushedStays(s: St, a: Act)
    requires Enabled(s, a) && PillInv(s) && (s.pilled || HeadIsPill(s))
    ensures Do(s, a).pushed == s.pushed
  {
    NonePill(s.jobs);
  }

  lemma {:induction false} NonePushed(tr: seq<St>, acts: seq<Act>, k: nat, i: nat)
    requires Run(tr, acts) && k <= i < |acts| && acts[k].Take? && tr[k].jobs[0].Pill?
    ensures tr[i + 1].pushed == tr[k].pushed
    decreases i
  {
    RunInv(tr, acts, i);
    if k < i {
      NonePushed(tr, acts, k, i - 1);
      StaysPilled(tr, acts, k, i);
    }
    PushedStays(tr[i], acts[i]);
  }

  /** A worker leaves only by dying, by a pill or with its last result, and by each of them it does. */
  lemma LeavesExactlyBy(s: St, a: Act, w: nat)
    requires Enabled(s, a) && w < |s.workers| && !s.workers[w].life.Exited?
    ensures |Do(s, a).workers| == |s.workers|
    ensures
      Do(s, a).workers[w].life.Exited? <==>
        a == Die(w) || a == Publish(w, true) || (a == Take(w) && s.jobs[0] == Pill)
  {
  }

  predicate HeadIsPill(s: St) {
    s.jobs != [] && s.jobs[0] == Pill
  }

  /** How many pills were taken in the first i steps, and how many were sent. */
  ghost function Swallowed(tr: seq<St>, acts: seq<Act>, i: nat): nat
    requires i <= |acts| < |tr|
  {
    if i == 0 then 0
    else Swallowed(tr, acts, i - 1) + (if acts[i - 1].Take? && HeadIsPill(tr[i - 1]) then 1 else 0)
  }

  function Sent(acts: seq<Act>, i: nat): nat
    requires i <= |acts|
  {
    if i == 0 then 0 else Sent(acts, i - 1) + (if acts[i - 1].SendPill? then 1 else 0)
  }

  /** Every pill serves one worker: those taken and those still in the queue are those sent. */
  lemma {:induction false} OnePillEach(tr: seq<St>, acts: seq<Act>, i: nat)
    requires Run(tr, acts) && i < |tr|
    ensures Swallowed(tr, acts, i) + Pills(tr[i].jobs) == Sent(acts, i)
  {
    if i > 0 {
      OnePillEach(tr, acts, i - 1);
      PillsMove(tr[i - 1], acts[i - 1]);
    }
  }

  lemma PillsMove(s: St, a: Act)
    requires Enabled(s, a)
    ensures
      Pills(Do(s, a).jobs) + (if a.Take? && HeadIsPill(s) then 1 else 0) ==
        Pills(s.jobs) + (if a.SendPill? then 1 else 0)
  {
    if a.SendPill? {
      OneMoreJob(s.jobs, Pill);
    } else if a.Push? {
      OneMoreJob(s.jobs, Job(s.pusher.left[0]));
    }
  }

  /** What the pusher leases while it stops. */
  function Dequeued(acts: seq<Act>, i: nat): seq<Task>
    requires i <= |acts|
  {
    if i == 0 then [] else Dequeued(acts, i - 1) + (if acts[i - 1].Dequeue? then acts[i - 1].tasks else [])
  }

  function InHand(p: Pusher): seq<Task> {
    if p.Handing? then p.left else []
  }

  lemma {:induction false} HandedSoFar(tr: seq<St>, acts: seq<Act>, i: nat)
    requires Run(tr, acts) && i < |tr| && forall k :: 0 <= k < i ==> !acts[k].PusherDies?
    ensures tr[i].pushed + InHand(tr[i].pusher) == (tr[0].pushed + InHand(tr[0].pusher)) + Dequeued(acts, i)
  {
    if i > 0 {
      HandedSoFar(tr, acts, i - 1);
      HandedOn(tr, acts, i - 1);
      Regroup(tr[0].pushed + InHand(tr[0].pusher), Dequeued(acts, i - 1),
              if acts[i - 1].Dequeue? then acts[i - 1].tasks else []);
    }
  }

  lemma Regroup(a: seq<Task>, b: seq<Task>, c: seq<Task>)
    ensures (a + b) + c == a + (b + c)
  {
  }

  /** Unless it dies, the pusher hands over all it has leased, in order, before it goes. */
  lemma AllHandedOver(tr: seq<St>, acts: seq<Act>, i: nat)
    requires Run(tr, acts) && i < |tr| && forall k :: 0 <= k < i ==> !acts[k].PusherDies?
    ensures tr[i].pushed <= tr[0].pushed + InHand(tr[0].pusher) + Dequeued(acts, i)
    ensures tr[i].pusher.Gone? ==> tr[i].pushed == tr[0].pushed + InHand(tr[0].pusher) + Dequeued(acts, i)
  {
    HandedSoFar(tr, acts, i);
    assert tr[i].pusher.Gone? ==> tr[i].pushed + InHand(tr[i].pusher) == tr[i].pushed;
  }

  lemma HandedOn(tr: seq<St>, acts: seq<Act>, i: nat)
    requires Run(tr, acts) && i < |acts| && !acts[i].PusherDies?
    ensures
      tr[i + 1].pushed + InHand(tr[i + 1].pusher) ==
        tr[i].pushed + InHand(tr[i].pusher) + (if acts[i].Dequeue? then acts[i].tasks else [])
  {
    HandMoves(tr[i], acts[i]);
  }

  lemma HandMoves(s: St, a: Act)
    requires Enabled(s, a) && !a.PusherDies?
    ensures
      Do(s, a).pushed + InHand(Do(s, a).pusher) ==
        s.pushed + InHand(s.pusher) + (if a.Dequeue? then a.tasks else [])
  {
    if a.Push? {
      assert s.pusher.left == [s.pusher.left[0]] + s.pusher.left[1..];
    }
  }

  /** The monitor leaves only when every worker has, with every published result monitored, in order. */
  lemma MonitoredBeforeClosing(tr: seq<St>, acts: seq<Act>, i: nat)
    requires Run(tr, acts) && i < |tr|
    ensures tr[i].monitored <= tr[i].published
    ensures !tr[i].monitoring ==>
              tr[i].monitored == tr[i].published && Alive(tr[i].workers) == 0 && Pooled(tr[i].workers) == 0
  {
    RunInv(tr, acts, i);
  }

  // ---------------------------------------------------------------- it ends

  function LoadOf(v: Worker): nat {
    (match v.life case Waiting => 1 case Busy(_) => 3 case Exited => 0) + (if v.pooled then 1 else 0)
  }

  function Load(ws: seq<Worker>): nat {
    if ws == [] then 0 else LoadOf(ws[0]) + Load(ws[1..])
  }

  lemma {:induction false} LoadChanges(ws: seq<Worker>, w: nat, v: Worker)
    requires w < |ws|
    ensures Load(ws[w := v]) + LoadOf(ws[w]) == Load(ws) + LoadOf(v)
  {
    if w == 0 {
      assert ws[w := v][1..] == ws[1..];
    } else {
      assert ws[w := v][1..] == ws[1..][w - 1 := v];
      LoadChanges(ws[1..], w - 1, v);
    }
  }

  function Stage(s: St): nat {
    match s.pusher
    case Dequeuing => 2
    case Handing(_) => 1
    case Gone => 0
  }

  function Work(s: St): nat {
    (if s.pusher.Handing? then 6 * |s.pusher.left| else 0)
    + (match s.phase
       case Joining => 4 * |s.workers| + 4
       case Pilling(togo) => 4 * togo + 3
       case Draining => 2
       case Closing => 0)
    + 3 * |s.jobs| + Load(s.workers) + |s.mail|
  }

  predicate Shrinks(s: St, s': St) {
    Stage(s') < Stage(s) || (Stage(s') == Stage(s) && Work(s') < Work(s))
  }

  lemma WorkerShrinks(s: St, a: Act)
    requires Enabled(s, a) && (a.Publish? || a.Die? || a.RemoveDead?)
    ensures Shrinks(s, Do(s, a))
  {
    LoadChanges(s.workers, a.w, Do(s, a).workers[a.w]);
  }

  lemma TakeShrinks(s: St, w: nat)
    requires Enabled(s, Take(w))
    ensures Shrinks(s, DoTake(s, w))
  {
    LoadChanges(s.workers, w, DoTake(s, w).workers[w]);
  }

  /** Every step does some of the remaining work. */
  lemma StepShrinks(s: St, a: Act)
    requires Enabled(s, a) && PoolInv(s.workers)
    ensures Shrinks(s, Do(s, a))
  {
    if a.Take? {
      TakeShrinks(s, a.w);
    } else if a.Publish? || a.Die? || a.RemoveDead? {
      WorkerShrinks(s, a);
    } else if a.Join? {
      AliveArePooled(s.workers);
    }
  }

  /** Once the pusher is gone, a run has at most Work more steps. */
  lemma {:induction false} StopEnds(tr: seq<St>, acts: seq<Act>, i: nat, j: nat)
    requires Run(tr, acts) && i <= j < |tr| && tr[i].pusher.Gone?
    ensures tr[j].pusher.Gone? && j - i + Work(tr[j]) <= Work(tr[i])
    decreases j
  {
    if i < j {
      StopEnds(tr, acts, i, j - 1);
      RunInv(tr, acts, j - 1);
      StepShrinks(tr[j - 1], acts[j - 1]);
    }
  }

  /** Nothing more happens, unless something dies. */
  ghost predicate Quiet(s: St) {
    forall a: Act :: Enabled(s, a) ==> a.Die? || a.PusherDies?
  }

  lemma {:induction false} SomePooled(ws: seq<Worker>)
    requires Pooled(ws) > 0
    ensures exists w :: 0 <= w < |ws| && ws[w].pooled
  {
    if !ws[0].pooled {
      SomePooled(ws[1..]);
      var w :| 0 <= w < |ws[1..]| && ws[1..][w].pooled;
      assert ws[w + 1].pooled;
    }
  }

  lemma DrainingGoesOn(s: St)
    requires Inv(s) && s.phase.Draining?
    ensures !Quiet(s)
  {
    if Pooled(s.workers) == 0 {
      assert Enabled(s, CloseMail);
    } else {
      SomePooled(s.workers);
      var w :| 0 <= w < |s.workers| && s.workers[w].pooled;
      match s.workers[w].life {
        case Exited => assert Enabled(s, RemoveDead(w));
        case Busy(_) => assert Enabled(s, Publish(w, false));
        case Waiting =>
          SomeAlive(s.workers, w);
          NonePill(s.jobs);
          assert Enabled(s, Take(w));
      }
    }
  }

  /** And it comes to rest only with the monitor gone: no worker, pill or result is waited for in vain. */
  lemma RestsOnlyWhenDone(tr: seq<St>, acts: seq<Act>, i: nat)
    requires Run(tr, acts) && i < |tr| && Quiet(tr[i])
    ensures !tr[i].monitoring && tr[i].monitored == tr[i].published
  {
    var s := tr[i];
    RunInv(tr, acts, i);
    assert !Enabled(s, PusherEnds) && !Enabled(s, Push) && !Enabled(s, Dequeue([]));
    assert !Enabled(s, Join) && !Enabled(s, SendPill) && !Enabled(s, AllPilled) && !Enabled(s, Monitor);
    if s.phase.Draining? {
      DrainingGoesOn(s);
    }
  }
}
