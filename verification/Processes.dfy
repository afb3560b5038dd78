/**
 The loops of one pusher and one worker, as the code runs them when nothing else moves: what a pusher
 makes of the list it has leased, and what a worker makes of the task queue.
 */
module Processes {
  import opened Options
  import Timer

  type Id = nat

  // ---------------------------------------------------------------- the pusher

  /** What broker.dequeue returns: the row and its payload, None when it does not decode. */
  datatype Leased = Leased(ackId: nat, task: Option<Task>)

  /** timeout: the task's own option; ends: what running it will do. */
  datatype Task = Task(id: Id, timeout: Option<real>, ends: Ending)

  datatype Ending = Returns(value: int) | Raises(error: int) | TimesOut

  datatype Job = Job(task: Task, ackId: nat, cluster: string, attempt: nat)

  /** attempt_count of the task's row, None when there is none or the lookup raises. */
  type Lookup = Id -> Option<nat>

  function Stamped(x: Leased, cluster: string, lookup: Lookup): Job
    requires x.task.Some?
  {
    var row := lookup(x.task.value.id);
    Job(x.task.value, x.ackId, cluster, if row.Some? then row.value + 1 else 1)
  }

  /** The tasks handed over: the decodable ones, in order, stamped with the attempt that is to come. */
  function Handed(set_: seq<Leased>, cluster: string, lookup: Lookup): seq<Job> {
    if set_ == [] then []
    else
      var last := set_[|set_| - 1];
      Handed(set_[..|set_| - 1], cluster, lookup) + (if last.task.Some? then [Stamped(last, cluster, lookup)] else [])
  }

  function Undecodable(set_: seq<Leased>): set<nat> {
    set i | 0 <= i < |set_| && set_[i].task.None? :: set_[i].ackId
  }

  /** How many of the first n leased rows decode. */
  function Decodable(set_: seq<Leased>, n: nat): nat
    requires n <= |set_|
  {
    if n == 0 then 0 else Decodable(set_, n - 1) + (if set_[n - 1].task.Some? then 1 else 0)
  }

  /** The job of a row: its task and receipt, this cluster, and the attempt after those the table counts. */
  predicate IsJobOf(job: Job, x: Leased, cluster: string, lookup: Lookup) {
    && x.task == Some(job.task) && job.ackId == x.ackId && job.cluster == cluster
    && (lookup(job.task.id).None? ==> job.attempt == 1)
    && (lookup(job.task.id).Some? ==> job.attempt == lookup(job.task.id).value + 1)
  }

  /** One job for every decodable row, and in the order of the rows. */
  predicate IsHanded(jobs: seq<Job>, set_: seq<Leased>, cluster: string, lookup: Lookup) {
    && |jobs| == Decodable(set_, |set_|)
    && forall i :: 0 <= i < |set_| && set_[i].task.Some? ==>
         Decodable(set_, i) < |jobs| && IsJobOf(jobs[Decodable(set_, i)], set_[i], cluster, lookup)
  }

  lemma {:induction false} DecodableOfPrefix(set_: seq<Leased>, k: nat, n: nat)
    requires n <= k <= |set_|
    ensures Decodable(set_[..k], n) == Decodable(set_, n)
  {
    if n > 0 {
      DecodableOfPrefix(set_, k, n - 1);
    }
  }

  lemma {:induction false} DecodableGrows(set_: seq<Leased>, i: nat, n: nat)
    requires i < n <= |set_| && set_[i].task.Some?
    ensures Decodable(set_, i) < Decodable(set_, n)
    decreases n
  {
    if i < n - 1 {
      DecodableGrows(set_, i, n - 1);
    }
  }

  lemma {:induction false} HandedIsHanded(set_: seq<Leased>, cluster: string, lookup: Lookup)
    ensures IsHanded(Handed(set_, cluster, lookup), set_, cluster, lookup)
  {
    if set_ != [] {
      var n := |set_| - 1;
      var before, jobs, more := set_[..n], Handed(set_, cluster, lookup), Handed(set_[..n], cluster, lookup);
      HandedIsHanded(before, cluster, lookup);
      DecodableOfPrefix(set_, n, n);
      assert more == jobs[..|more|];
      forall i | 0 <= i < |set_| && set_[i].task.Some?
        ensures Decodable(set_, i) < |jobs| && IsJobOf(jobs[Decodable(set_, i)], set_[i], cluster, lookup)
      {
        DecodableOfPrefix(set_, n, i);
        if i < n {
          assert before[i] == set_[i];
        }
      }
    }
  }

  class Pusher {
    var taskQueue: seq<Job>
    var rows: set<nat>
    const cluster: string

    constructor (cluster: string, rows: set<nat>)
      ensures this.cluster == cluster && this.rows == rows && taskQueue == []
    {
      this.cluster, this.rows, taskQueue := cluster, rows, [];
    }

    /** One turn of the loop: every leased row is handed over or, if it does not decode, failed. */
    method Push(taskSet: seq<Leased>, lookup: Lookup)
      modifies this
      ensures old(taskQueue) <= taskQueue
      ensures IsHanded(taskQueue[|old(taskQueue)|..], taskSet, cluster, lookup)
      ensures taskQueue == old(taskQueue) + Handed(taskSet, cluster, lookup)
      ensures rows == old(rows) - Undecodable(taskSet)
    {
      var i := 0;
      while i < |taskSet|
        invariant i <= |taskSet|
        invariant taskQueue == old(taskQueue) + Handed(taskSet[..i], cluster, lookup)
        invariant rows == old(rows) - Undecodable(taskSet[..i])
      {
        assert taskSet[..i + 1][..i] == taskSet[..i];
        assert Undecodable(taskSet[..i + 1]) ==
          Undecodable(taskSet[..i]) + (if taskSet[i].task.None? then {taskSet[i].ackId} else {}) by {
          assert taskSet[..i + 1][i] == taskSet[i];
          assert forall j :: 0 <= j < i ==> taskSet[..i + 1][j] == taskSet[..i][j];
        }
        var ackId := taskSet[i].ackId;
        if taskSet[i].task.None? {
          rows := rows - {ackId};
        } else {
          var task := taskSet[i].task.value;
          var row := lookup(task.id);
          var attempt := if row.Some? then row.value + 1 else 1;
          taskQueue := taskQueue + [Job(task, ackId, cluster, attempt)];
        }
        i := i + 1;
      }
      assert taskSet[..i] == taskSet;
      HandedIsHanded(taskSet, cluster, lookup);
      assert taskQueue[|old(taskQueue)|..] == Handed(taskSet, cluster, lookup);
    }
  }

  function AckIds(jobs: seq<Job>): seq<nat> {
    seq(|jobs|, i requires 0 <= i < |jobs| => jobs[i].ackId)
  }

  /** How many decodable rows with this receipt were leased. */
  function Offered(taskSet: seq<Leased>, x: nat): nat {
    if taskSet == [] then 0
    else
      var last := taskSet[|taskSet| - 1];
      Offered(taskSet[..|taskSet| - 1], x) + (if last.task.Some? && last.ackId == x then 1 else 0)
  }

  lemma {:induction false} HandedAsOffered(taskSet: seq<Leased>, cluster: string, lookup: Lookup, x: nat)
    ensures multiset(AckIds(Handed(taskSet, cluster, lookup)))[x] == Offered(taskSet, x)
  {
    if taskSet == [] {
      assert AckIds(Handed(taskSet, cluster, lookup)) == [];
    } else {
      var before, last := taskSet[..|taskSet| - 1], taskSet[|taskSet| - 1];
      HandedAsOffered(before, cluster, lookup, x);
      if last.task.Some? {
        var jobs := Handed(before, cluster, lookup);
        assert AckIds(jobs + [Stamped(last, cluster, lookup)]) == AckIds(jobs) + [last.ackId];
      } else {
        assert Handed(taskSet, cluster, lookup) == Handed(before, cluster, lookup);
      }
    }
  }

  lemma {:induction false} OfferedOnce(taskSet: seq<Leased>, k: int, x: nat)
    requires forall i, j :: 0 <= i < j < |taskSet| ==> taskSet[i].ackId != taskSet[j].ackId
    requires
      if 0 <= k < |taskSet| then taskSet[k].ackId == x
      else forall i :: 0 <= i < |taskSet| ==> taskSet[i].ackId != x
    ensures Offered(taskSet, x) == if 0 <= k < |taskSet| && taskSet[k].task.Some? then 1 else 0
  {
    if taskSet != [] {
      OfferedOnce(taskSet[..|taskSet| - 1], if k == |taskSet| - 1 then -1 else k, x);
    }
  }

  /** Every leased row is accounted for exactly once: its task is handed over, or the row is failed. */
  lemma EveryRowHandled(taskSet: seq<Leased>, cluster: string, lookup: Lookup, k: nat)
    requires k < |taskSet|
    requires forall i, j :: 0 <= i < j < |taskSet| ==> taskSet[i].ackId != taskSet[j].ackId
    ensures taskSet[k].ackId in Undecodable(taskSet) <==> taskSet[k].task.None?
    ensures
      multiset(AckIds(Handed(taskSet, cluster, lookup)))[taskSet[k].ackId] ==
        if taskSet[k].task.Some? then 1 else 0
  {
    HandedAsOffered(taskSet, cluster, lookup, taskSet[k].ackId);
    OfferedOnce(taskSet, k, taskSet[k].ackId);
  }

  // ---------------------------------------------------------------- the worker

  datatype Message = Run(job: Job) | Stop

  datatype Report = Report(job: Job, value: int, success: bool)

  /** timeout: the worker's default, Timer.OFF for none; recycle: RECYCLE; heavy: what rss_check says
      after so many tasks. */
  datatype Conf = Conf(timeout: real, recycle: nat, heavy: nat -> bool)

  function ReportOf(job: Job): Report {
    match job.task.ends
    case Returns(v) => Report(job, v, true)
    case Raises(e) => Report(job, e, false)
    case TimesOut => Report(job, 0, false)
  }

  /** What a report says: success when the task returned, with what it returned; else the error it raised. */
  predicate Tells(r: Report) {
    && (r.success <==> r.job.task.ends.Returns?)
    && (r.job.task.ends.Returns? ==> r.value == r.job.task.ends.value)
    && (r.job.task.ends.Raises? ==> r.value == r.job.task.ends.error)
  }

  /** Where a worker is after the task that was its count-th. */
  function TimerAfter(conf: Conf, job: Job, count: nat): real {
    if job.task.ends.TimesOut? then 0.0
    else if count == conf.recycle || conf.heavy(count) then Timer.RECYCLED
    else Timer.OFF
  }

  /** The tasks a worker that has done `count` gets through: up to the pill, or to the task after which it leaves. */
  function Done(conf: Conf, queue: seq<Message>, count: nat): (r: seq<Job>)
    ensures |r| <= |queue|
  {
    if queue == [] || queue[0].Stop? then []
    else if TimerAfter(conf, queue[0].job, count + 1) != Timer.OFF then [queue[0].job]
    else [queue[0].job] + Done(conf, queue[1..], count + 1)
  }

  function Reports(jobs: seq<Job>): seq<Report> {
    seq(|jobs|, i requires 0 <= i < |jobs| => ReportOf(jobs[i]))
  }

  predicate Leaves(conf: Conf, jobs: seq<Job>, count: nat) {
    jobs != [] && TimerAfter(conf, jobs[|jobs| - 1], count + |jobs|) != Timer.OFF
  }

  class Worker {
    var timer: real
    var count: nat
    var resultQueue: seq<Report>
    const conf: Conf

    constructor (conf: Conf)
      ensures this.conf == conf && timer == Timer.OFF && count == 0 && resultQueue == []
    {
      this.conf, timer, count, resultQueue := conf, Timer.OFF, 0, [];
    }

    /** The body of the loop, from the pill check on; `leave` is its break. */
    method Turn(job: Job) returns (leave: bool)
      modifies this
      ensures count == old(count) + 1 && resultQueue == old(resultQueue) + [ReportOf(job)]
      ensures ReportOf(job).job == job && Tells(ReportOf(job))
      ensures timer == TimerAfter(conf, job, count) && (leave <==> timer != Timer.OFF)
      ensures leave <==> job.task.ends.TimesOut? || count == conf.recycle || conf.heavy(count)
      ensures timer == if !leave then -1.0 else if job.task.ends.TimesOut? then 0.0 else -2.0
    {
      timer := Timer.OFF;
      count := count + 1;
      var timedOut, value, success := false, 0, false;
      match job.task.ends {
        case Returns(v) => value, success := v, true;
        case Raises(e) => value := e;
        case TimesOut => timedOut := true;
      }
      resultQueue := resultQueue + [Report(job, value, success)];
      if timedOut {
        timer := 0.0;
        return true;
      }
      timer := Timer.OFF;
      if count == conf.recycle || conf.heavy(count) {
        timer := Timer.RECYCLED;
        return true;
      }
      leave := false;
    }

    /** The loop, on a queue that nobody else takes from. */
    method Work(queue: seq<Message>) returns (left: seq<Message>)
      requires timer == Timer.OFF
      modifies this
      ensures Shift(resultQueue, count, timer, left) == WorkOff(conf, queue, old(count), old(resultQueue))
      ensures IsShift(conf, queue, old(count), old(resultQueue), Shift(resultQueue, count, timer, left))
    {
      ShiftTells(conf, queue, count, resultQueue);
      left := queue;
      while left != []
        invariant timer == Timer.OFF
        invariant WorkOff(conf, left, count, resultQueue) == WorkOff(conf, queue, old(count), old(resultQueue))
        decreases |left|
      {
        var m := left[0];
        left := left[1..];
        if m.Stop? {
          return;
        }
        var leave := Turn(m.job);
        if leave {
          return;
        }
      }
    }
  }

  /** What one worker leaves behind. */
  datatype Shift = Shift(reports: seq<Report>, count: nat, timer: real, left: seq<Message>)

  function WorkOff(conf: Conf, queue: seq<Message>, count: nat, reports: seq<Report>): Shift
    decreases |queue|
  {
    if queue == [] then Shift(reports, count, Timer.OFF, [])
    else if queue[0].Stop? then Shift(reports, count, Timer.OFF, queue[1..])
    else
      var job, t := queue[0].job, TimerAfter(conf, queue[0].job, count + 1);
      if t != Timer.OFF then Shift(reports + [ReportOf(job)], count + 1, t, queue[1..])
      else WorkOff(conf, queue[1..], count + 1, reports + [ReportOf(job)])
  }

  predicate LeavesAfter(conf: Conf, job: Job, count: nat) {
    job.task.ends.TimesOut? || count == conf.recycle || conf.heavy(count)
  }

  /** The first n messages are tasks, and there is a report of each, in order. */
  predicate Answered(queue: seq<Message>, n: nat, reports: seq<Report>, all: seq<Report>)
    requires n <= |queue|
  {
    && |all| == |reports| + n && reports <= all
    && forall i :: 0 <= i < n ==> queue[i] == Run(all[|reports| + i].job) && Tells(all[|reports| + i])
  }

  /** None of the first n is a task to leave after. */
  predicate NoneLeaves(conf: Conf, queue: seq<Message>, n: nat, count: nat)
    requires n <= |queue|
  {
    forall i :: 0 <= i < n ==> queue[i].Run? && !LeavesAfter(conf, queue[i].job, count + i + 1)
  }

  /** The timer tells which way the worker left after the last of n tasks, if it did; else it took a pill, if there
      was one. What it took is gone. */
  predicate Left(conf: Conf, queue: seq<Message>, n: nat, s: Shift)
    requires n <= |queue|
  {
    && s.timer == (
         if n == 0 || queue[n - 1].Stop? || !LeavesAfter(conf, queue[n - 1].job, s.count) then Timer.OFF
         else if queue[n - 1].job.task.ends.TimesOut? then 0.0
         else Timer.RECYCLED)
    && (s.timer == Timer.OFF && n < |queue| ==> queue[n].Stop?)
    && s.left == (if s.timer == Timer.OFF && n < |queue| then queue[n + 1..] else queue[n..])
  }

  /** A shift, from the queue as it was: the tasks are taken from the front, each gets its report, in order; only
      the last can be one to leave after. */
  predicate IsShift(conf: Conf, queue: seq<Message>, count: nat, reports: seq<Report>, s: Shift) {
    var n := s.count - count;
    && 0 <= n <= |queue| && Answered(queue, n, reports, s.reports)
    && NoneLeaves(conf, queue, if n == 0 then 0 else n - 1, count)
    && Left(conf, queue, n, s)
  }

  lemma StayingTells(conf: Conf, job: Job, count: nat)
    requires TimerAfter(conf, job, count) == Timer.OFF
    ensures ReportOf(job).job == job && Tells(ReportOf(job)) && !LeavesAfter(conf, job, count)
  {
  }

  lemma AnsweredOn(queue: seq<Message>, n: nat, reports: seq<Report>, r: Report, all: seq<Report>)
    requires n < |queue| && queue[0] == Run(r.job) && Tells(r) && Answered(queue[1..], n, reports + [r], all)
    ensures Answered(queue, n + 1, reports, all)
  {
    var on := reports + [r];
    assert all[|reports|] == on[|reports|] == r;
    forall i | 0 <= i < n + 1
      ensures queue[i] == Run(all[|reports| + i].job) && Tells(all[|reports| + i])
    {
      if i > 0 {
        assert queue[1..][i - 1] == Run(all[|on| + (i - 1)].job) && Tells(all[|on| + (i - 1)]);
      }
    }
  }

  lemma NoneLeavesOn(conf: Conf, queue: seq<Message>, n: nat, count: nat)
    requires n < |queue| && queue[0].Run? && !LeavesAfter(conf, queue[0].job, count + 1)
    requires NoneLeaves(conf, queue[1..], n, count + 1)
    ensures NoneLeaves(conf, queue, n + 1, count)
  {
    forall i | 0 <= i < n + 1
      ensures queue[i].Run? && !LeavesAfter(conf, queue[i].job, count + i + 1)
    {
      if i > 0 {
        assert queue[1..][i - 1].Run? && !LeavesAfter(conf, queue[1..][i - 1].job, count + 1 + (i - 1) + 1);
      }
    }
  }

  lemma LeftOn(conf: Conf, queue: seq<Message>, n: nat, s: Shift)
    requires n < |queue| && queue[0].Run? && Left(conf, queue[1..], n, s)
    requires n == 0 ==> !LeavesAfter(conf, queue[0].job, s.count)
    ensures Left(conf, queue, n + 1, s)
  {
    var rest := queue[1..];
    assert n > 0 ==> queue[n] == rest[n - 1];
    assert rest[n..] == queue[n + 1..];
    assert n < |rest| ==> rest[n] == queue[n + 1] && rest[n + 1..] == queue[n + 2..];
  }

  lemma ShiftTellsOn(conf: Conf, queue: seq<Message>, count: nat, reports: seq<Report>, r: Report, s: Shift)
    requires queue != [] && queue[0] == Run(r.job) && Tells(r) && !LeavesAfter(conf, r.job, count + 1)
    requires IsShift(conf, queue[1..], count + 1, reports + [r], s)
    ensures IsShift(conf, queue, count, reports, s)
  {
    var n := s.count - count - 1;
    AnsweredOn(queue, n, reports, r, s.reports);
    LeftOn(conf, queue, n, s);
    if n > 0 {
      NoneLeavesOn(conf, queue, n - 1, count);
    }
  }

  lemma {:induction false} ShiftTells(conf: Conf, queue: seq<Message>, count: nat, reports: seq<Report>)
    ensures IsShift(conf, queue, count, reports, WorkOff(conf, queue, count, reports))
    decreases |queue|
  {
    if queue != [] && queue[0].Run? && TimerAfter(conf, queue[0].job, count + 1) == Timer.OFF {
      var r := ReportOf(queue[0].job);
      StayingTells(conf, queue[0].job, count + 1);
      ShiftTells(conf, queue[1..], count + 1, reports + [r]);
      ShiftTellsOn(conf, queue, count, reports, r, WorkOff(conf, queue[1..], count + 1, reports + [r]));
    }
  }

  predicate ShiftFits(conf: Conf, queue: seq<Message>, count: nat, reports: seq<Report>, s: Shift) {
    var jobs := Done(conf, queue, count);
    && s.reports == reports + Reports(jobs) && s.count == count + |jobs|
    && s.timer == (if Leaves(conf, jobs, count) then TimerAfter(conf, jobs[|jobs| - 1], s.count) else Timer.OFF)
    && s.left == (if Leaves(conf, jobs, count) || |jobs| == |queue| then queue[|jobs|..] else queue[|jobs| + 1..])
  }

  lemma DoneOn(conf: Conf, queue: seq<Message>, count: nat)
    requires queue != [] && queue[0].Run? && TimerAfter(conf, queue[0].job, count + 1) == Timer.OFF
    ensures
      var rest, jobs := Done(conf, queue[1..], count + 1), Done(conf, queue, count);
      && jobs == [queue[0].job] + rest
      && (Leaves(conf, jobs, count) <==> Leaves(conf, rest, count + 1))
      && (rest != [] ==> jobs[|jobs| - 1] == rest[|rest| - 1])
  {
  }

  lemma ReportsOn(reports: seq<Report>, job: Job, rest: seq<Job>)
    ensures reports + Reports([job] + rest) == (reports + [ReportOf(job)]) + Reports(rest)
  {
    assert Reports([job] + rest) == [ReportOf(job)] + Reports(rest);
  }

  lemma ShiftGoesOn(conf: Conf, queue: seq<Message>, count: nat, reports: seq<Report>, s: Shift)
    requires queue != [] && queue[0].Run? && TimerAfter(conf, queue[0].job, count + 1) == Timer.OFF
    requires ShiftFits(conf, queue[1..], count + 1, reports + [ReportOf(queue[0].job)], s)
    ensures ShiftFits(conf, queue, count, reports, s)
  {
    var rest := Done(conf, queue[1..], count + 1);
    DoneOn(conf, queue, count);
    ReportsOn(reports, queue[0].job, rest);
    assert queue[1..][|rest|..] == queue[|rest| + 1..];
    assert |rest| < |queue[1..]| ==> queue[1..][|rest| + 1..] == queue[|rest| + 2..];
  }

  /** A shift reports what Done says, and leaves the queue behind the last task, and the pill, it took. */
  lemma {:induction false} ShiftIsDone(conf: Conf, queue: seq<Message>, count: nat, reports: seq<Report>)
    ensures ShiftFits(conf, queue, count, reports, WorkOff(conf, queue, count, reports))
    decreases |queue|
  {
    if queue == [] || queue[0].Stop? {
      assert reports + Reports([]) == reports;
    } else if TimerAfter(conf, queue[0].job, count + 1) != Timer.OFF {
      assert Reports([queue[0].job]) == [ReportOf(queue[0].job)];
    } else {
      var on := reports + [ReportOf(queue[0].job)];
      ShiftIsDone(conf, queue[1..], count + 1, on);
      ShiftGoesOn(conf, queue, count, reports, WorkOff(conf, queue[1..], count + 1, on));
    }
  }

  /** What a worker reports: exactly the tasks at the front of the queue, each once and in order; only the
      last can be one after which it leaves, and it never does more than RECYCLE. */
  lemma {:induction false} WorksFromTheFront(conf: Conf, queue: seq<Message>, count: nat)
    ensures
      var jobs := Done(conf, queue, count);
      && (forall i :: 0 <= i < |jobs| ==> queue[i] == Run(jobs[i]))
      && (forall i :: 0 <= i < |jobs| - 1 ==> !jobs[i].task.ends.TimesOut? && count + i + 1 != conf.recycle)
      && (count < conf.recycle ==> count + |jobs| <= conf.recycle)
      && (|jobs| == |queue| || queue[|jobs|].Stop? || Leaves(conf, jobs, count))
  {
    if queue != [] && queue[0].Run? && TimerAfter(conf, queue[0].job, count + 1) == Timer.OFF {
      WorksFromTheFront(conf, queue[1..], count + 1);
      var jobs, rest := Done(conf, queue, count), Done(conf, queue[1..], count + 1);
      assert jobs == [queue[0].job] + rest;
      assert forall i :: 1 <= i < |jobs| ==> jobs[i] == rest[i - 1] && queue[i] == queue[1..][i - 1];
      assert rest != [] ==> jobs[|jobs| - 1] == rest[|rest| - 1];
    }
  }

  function Limit(conf: Conf, task: Task): real {
    if task.timeout.Some? then task.timeout.value else conf.timeout
  }

  function OneTask(conf: Conf, job: Job, count: nat): seq<Timer.Act> {
    [Timer.Fetch, Timer.Start(Limit(conf, job.task)), Timer.Lock,
     Timer.Publish(job.task.ends.TimesOut?, conf.heavy(count + 1))]
  }

  predicate Turned(conf: Conf, job: Job, s: Timer.St, t: Timer.St) {
    && t.timer == TimerAfter(conf, job, s.count + 1)
    && t.count == s.count + 1 && t.published == s.published + 1 && t.lock.Nobody? && Timer.WorkerMay(t)
    && (t.pc.Waiting? <==> t.timer == Timer.OFF)
    && (t.pc.Exited? <==> t.timer != Timer.OFF)
  }

  /** A turn of the worker's loop is four steps of the timer protocol: undisturbed by the guard they are
      possible one after the other, and leave the timer, the counts and the worker as the loop does. While
      the task runs, the timer shows its own timeout, or else the worker's, and three seconds. */
  lemma TurnIsFourSteps(conf: Conf, cycle: real, s: Timer.St, job: Job) returns (tr: seq<Timer.St>)
    requires s.pc.Waiting? && s.lock.Nobody? && Timer.WorkerMay(s)
    ensures |tr| == 5 && tr[0] == s && Turned(conf, job, s, tr[4])
    ensures
      var limit := if job.task.timeout == None then conf.timeout else job.task.timeout.value;
      tr[2].pc.Running? && tr[2].timer == if limit == -1.0 then -1.0 else limit + 3.0
    ensures
      var k, acts := Timer.Conf(cycle, conf.recycle), OneTask(conf, job, s.count);
      forall i :: 0 <= i < 4 ==> Timer.Enabled(k, tr[i], acts[i]) && tr[i + 1] == Timer.Do(k, tr[i], acts[i])
  {
    var k, acts := Timer.Conf(cycle, conf.recycle), OneTask(conf, job, s.count);
    var s1 := Timer.Do(k, s, acts[0]);
    var s2 := Timer.Do(k, s1, acts[1]);
    var s3 := Timer.Do(k, s2, acts[2]);
    tr := [s, s1, s2, s3, Timer.Do(k, s3, acts[3])];
  }

  /** Steps of the timer protocol, one after the other. */
  ghost predicate Steps(k: Timer.Conf, tr: seq<Timer.St>, acts: seq<Timer.Act>, s: Timer.St) {
    && |tr| == |acts| + 1 && tr[0] == s
    && forall i :: 0 <= i < |acts| ==> Timer.Enabled(k, tr[i], acts[i]) && tr[i + 1] == Timer.Do(k, tr[i], acts[i])
  }

  /** Where they leave the worker, given what the loop leaves. */
  predicate Agrees(s: Timer.St, t: Timer.St, queue: seq<Message>, count: nat, shift: Shift) {
    && t.timer == shift.timer && t.count == shift.count && t.published - s.published == shift.count - count
    && (t.pc.Exited? <==> shift.timer != Timer.OFF || count + |queue| - |shift.left| > shift.count)
    && (t.pc.Waiting? <==> !t.pc.Exited?)
  }

  lemma StepsJoin(k: Timer.Conf, a: seq<Timer.St>, x: seq<Timer.Act>, b: seq<Timer.St>, y: seq<Timer.Act>,
      s: Timer.St, t: Timer.St)
    requires Steps(k, a, x, s) && a[|x|] == t && Steps(k, b, y, t)
    ensures Steps(k, a + b[1..], x + y, s) && (a + b[1..])[|x + y|] == b[|y|]
  {
    var tr, acts := a + b[1..], x + y;
    forall i | 0 <= i < |acts|
      ensures Timer.Enabled(k, tr[i], acts[i]) && tr[i + 1] == Timer.Do(k, tr[i], acts[i])
    {
      if i < |x| {
        assert tr[i] == a[i] && tr[i + 1] == a[i + 1];
      } else {
        assert tr[i] == b[i - |x|] && tr[i + 1] == b[i - |x| + 1];
      }
    }
  }

  lemma OneTurn(conf: Conf, cycle: real, s: Timer.St, job: Job) returns (tr: seq<Timer.St>, acts: seq<Timer.Act>)
    requires s.pc.Waiting? && s.lock.Nobody? && Timer.WorkerMay(s)
    ensures Steps(Timer.Conf(cycle, conf.recycle), tr, acts, s) && Turned(conf, job, s, tr[|acts|])
  {
    tr := TurnIsFourSteps(conf, cycle, s, job);
    acts := OneTask(conf, job, s.count);
  }

  /** The whole loop, on any queue, is a course of the timer protocol that the guard does not disturb. */
  lemma {:induction false} ShiftIsSteps(conf: Conf, cycle: real, s: Timer.St, queue: seq<Message>, reports: seq<Report>)
      returns (tr: seq<Timer.St>, acts: seq<Timer.Act>)
    requires s.pc.Waiting? && s.lock.Nobody? && Timer.WorkerMay(s) && s.timer == Timer.OFF
    ensures Steps(Timer.Conf(cycle, conf.recycle), tr, acts, s)
    ensures Agrees(s, tr[|acts|], queue, s.count, WorkOff(conf, queue, s.count, reports))
    decreases |queue|
  {
    var k := Timer.Conf(cycle, conf.recycle);
    tr, acts := [s], [];
    if queue == [] {
    } else if queue[0].Stop? {
      tr, acts := [s, Timer.Do(k, s, Timer.Pill)], [Timer.Pill];
    } else {
      var job := queue[0].job;
      tr, acts := OneTurn(conf, cycle, s, job);
      var t := tr[|acts|];
      if t.timer == Timer.OFF {
        var rest, on := ShiftIsSteps(conf, cycle, t, queue[1..], reports + [ReportOf(job)]);
        StepsJoin(k, tr, acts, rest, on, s, t);
        tr, acts := tr + rest[1..], acts + on;
      }
    }
  }

  /** So a newly spawned worker has a run of the protocol that ends as its loop does. */
  lemma LoopIsRun(conf: Conf, cycle: real, spawned: real, queue: seq<Message>)
      returns (tr: seq<Timer.St>, acts: seq<Timer.Act>)
    requires cycle > 0.0
    ensures Timer.Run(Timer.Conf(cycle, conf.recycle), tr, acts)
    ensures tr[0].count == tr[0].published == 0
    ensures Agrees(tr[0], tr[|acts|], queue, 0, WorkOff(conf, queue, 0, []))
  {
    var k := Timer.Conf(cycle, conf.recycle);
    tr, acts := ShiftIsSteps(conf, cycle, Timer.Spawned(k, spawned), queue, []);
  }
}
