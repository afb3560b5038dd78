/**
 One worker and the guard, sharing the worker's countdown timer and its lock. The worker publishes its
 result, and the guard checks and counts down, while holding the lock; either may be overtaken anywhere
 else, and the worker may die at any step.
 */
module Timer {

  const OFF := -1.0
  const RECYCLED := -2.0
  const BUFFER := 3.0

  datatype Conf = Conf(cycle: real, recycle: nat)
  {
    ghost predicate Ok() { cycle > 0.0 }
  }

  /** Where the worker is in its loop. Running lasts until it has the lock. */
  datatype Pc = Waiting | Starting | Running | Publishing | Exited

  datatype Holder = Nobody | Worker | Guard

  /** start, timeout and visits describe the current countdown: when it was set, for which timeout, and
      how many times the guard has been by since. */
  datatype St = St(
    timer: real, pc: Pc, lock: Holder, alive: bool, replaced: bool,
    count: nat, published: nat,
    clock: real, lastVisit: real,
    start: real, timeout: real, visits: nat)

  datatype Act =
    | Fetch                                     // task_queue.get, timer idle
    | Start(timeout: real)                      // timer busy, with the buffer
    | Lock                                      // the worker enters its publish section
    | Publish(timedOut: bool, overweight: bool)
    | Pill
    | Die
    | Tick(d: real)
    | GuardLock
    | GuardCheck

  predicate WorkerMay(s: St) { s.alive && !s.replaced }

  ghost predicate Enabled(conf: Conf, s: St, a: Act) {
    match a
    case Fetch => WorkerMay(s) && s.pc.Waiting? && s.lock.Nobody?
    case Start(_) => WorkerMay(s) && s.pc.Starting? && s.lock.Nobody?
    case Lock => WorkerMay(s) && s.pc.Running? && s.lock.Nobody?
    case Publish(_, _) => WorkerMay(s) && s.pc.Publishing?
    case Pill => WorkerMay(s) && s.pc.Waiting?
    case Die => s.alive
    case Tick(d) => d >= 0.0
    case GuardLock => !s.replaced && s.lock.Nobody? && s.clock >= s.lastVisit + conf.cycle
    case GuardCheck => s.lock.Guard?
  }

  function DoStart(s: St, timeout: real): St {
    s.(pc := Running, timer := if timeout != OFF then timeout + BUFFER else timeout,
       start := s.clock, timeout := timeout, visits := 0)
  }

  function DoPublish(conf: Conf, s: St, timedOut: bool, overweight: bool): St {
    var s := s.(lock := Nobody, published := s.published + 1);
    if timedOut then s.(timer := 0.0, pc := Exited)
    else if s.count == conf.recycle || overweight then s.(timer := RECYCLED, pc := Exited)
    else s.(timer := OFF, pc := Waiting)
  }

  function DoCheck(conf: Conf, s: St): St {
    var s := s.(lock := Nobody, lastVisit := s.clock, visits := s.visits + 1);
    if !s.alive || s.timer == 0.0 then s.(replaced := true)
    else if s.timer > 0.0 then s.(timer := s.timer - conf.cycle)
    else s
  }

  function Do(conf: Conf, s: St, a: Act): St {
    match a
    case Fetch => s.(pc := Starting, timer := OFF, count := s.count + 1)
    case Start(timeout) => DoStart(s, timeout)
    case Lock => s.(pc := Publishing, lock := Worker)
    case Publish(timedOut, overweight) => DoPublish(conf, s, timedOut, overweight)
    case Pill => s.(pc := Exited)
    case Die => s.(alive := false)
    case Tick(d) => s.(clock := s.clock + d)
    case GuardLock => s.(lock := Guard)
    case GuardCheck => DoCheck(conf, s)
  }

  /** A worker just spawned at time t. */
  function Spawned(conf: Conf, t: real): St {
    St(OFF, Waiting, Nobody, true, false, 0, 0, t, t - conf.cycle, t, OFF, 0)
  }

  ghost predicate Run(conf: Conf, tr: seq<St>, acts: seq<Act>) {
    && conf.Ok()
    && |tr| == |acts| + 1
    && (exists t :: tr[0] == Spawned(conf, t))
    && forall i :: 0 <= i < |acts| ==> Enabled(conf, tr[i], acts[i]) && tr[i + 1] == Do(conf, tr[i], acts[i])
  }

  // ---------------------------------------------------------------- the countdown

  /** n cycles. */
  function Cycles(cycle: real, n: nat): real {
    if n == 0 then 0.0 else Cycles(cycle, n - 1) + cycle
  }

  /** What the timer of a running task shows after n visits of the guard. */
  function Shows(conf: Conf, timeout: real, n: nat): real {
    if n == 0 then if timeout != OFF then timeout + BUFFER else timeout
    else
      var t := Shows(conf, timeout, n - 1);
      if t > 0.0 then t - conf.cycle else t
  }

  /** The timeout and its buffer are m <= n whole cycles. */
  ghost predicate Whole(conf: Conf, timeout: real, n: nat) {
    exists m: nat :: m <= n && timeout + BUFFER == Cycles(conf.cycle, m)
  }

  lemma WholeUpTo(conf: Conf, timeout: real, n: nat)
    ensures Whole(conf, timeout, n) <==>
            timeout + BUFFER == Cycles(conf.cycle, n) || (n > 0 && Whole(conf, timeout, n - 1))
  {
  }

  /** The timer shows n cycles less than it started with for as long as that is not below 0. */
  lemma {:induction false} ShowsCycles(conf: Conf, timeout: real, n: nat)
    requires conf.Ok() && timeout != OFF
    ensures timeout + BUFFER >= Cycles(conf.cycle, n) ==>
              Shows(conf, timeout, n) == timeout + BUFFER - Cycles(conf.cycle, n) &&
              (n > 0 ==> !Whole(conf, timeout, n - 1))
    ensures timeout + BUFFER < Cycles(conf.cycle, n) ==>
              if Whole(conf, timeout, n) then Shows(conf, timeout, n) == 0.0 else Shows(conf, timeout, n) < 0.0
  {
    WholeUpTo(conf, timeout, n);
    if n > 0 {
      ShowsCycles(conf, timeout, n - 1);
      WholeUpTo(conf, timeout, n - 1);
    }
  }

  /** The guard finds 0 exactly when the timeout and its buffer are a whole number of cycles, at the visit
      after that many, and from then on. Otherwise the timer jumps over 0 and the task is never counted out. */
  lemma FindsZero(conf: Conf, timeout: real, n: nat)
    requires conf.Ok()
    ensures Shows(conf, timeout, n) == 0.0 <==> timeout != OFF && Whole(conf, timeout, n)
  {
    if timeout == OFF {
      NoTimeout(conf, n);
    } else {
      ShowsCycles(conf, timeout, n);
      WholeUpTo(conf, timeout, n);
    }
  }

  lemma {:induction false} NoTimeout(conf: Conf, n: nat)
    ensures Shows(conf, OFF, n) == OFF
  {
    if n > 0 {
      NoTimeout(conf, n - 1);
    }
  }

  // ---------------------------------------------------------------- every interleaving

  /** The countdown so far, and the time it took: the guard comes by at most once a cycle. */
  ghost predicate Counting(conf: Conf, s: St) {
    && s.timer == Shows(conf, s.timeout, s.visits)
    && s.start <= s.clock
    && (s.visits > 0 ==> s.lastVisit >= s.start + Cycles(conf.cycle, s.visits - 1))
    && (s.visits > 0 ==> Shows(conf, s.timeout, s.visits - 1) != 0.0)
  }

  ghost predicate Inv(conf: Conf, s: St) {
    && s.lastVisit <= s.clock
    && (s.lock.Worker? <==> s.pc.Publishing?)
    && (s.lock.Guard? ==> s.clock >= s.lastVisit + conf.cycle)
    && (s.pc.Waiting? || s.pc.Starting? ==> s.timer == OFF)
    && (!s.replaced && (s.pc.Running? || s.pc.Publishing?) ==> Counting(conf, s))
    && (s.pc.Exited? ==> s.timer == OFF || s.timer == 0.0 || s.timer == RECYCLED)
    && s.count == s.published + (if s.pc.Starting? || s.pc.Running? || s.pc.Publishing? then 1 else 0)
    && (s.pc.Waiting? && conf.recycle > 0 ==> s.count < conf.recycle)
    && (conf.recycle > 0 ==> s.count <= conf.recycle)
  }

  lemma CountingGoesOn(conf: Conf, s: St, a: Act)
    requires conf.Ok() && Inv(conf, s) && Enabled(conf, s, a)
    ensures
      var s' := Do(conf, s, a);
      !s'.replaced && (s'.pc.Running? || s'.pc.Publishing?) ==> Counting(conf, s')
  {
    if s.pc.Running? && s.visits > 0 {
      assert Cycles(conf.cycle, s.visits) == Cycles(conf.cycle, s.visits - 1) + conf.cycle;
    }
  }

  lemma StepInv(conf: Conf, s: St, a: Act)
    requires conf.Ok() && Inv(conf, s) && Enabled(conf, s, a)
    ensures Inv(conf, Do(conf, s, a))
  {
    CountingGoesOn(conf, s, a);
  }

  lemma {:induction false} RunInv(conf: Conf, tr: seq<St>, acts: seq<Act>, i: nat)
    requires Run(conf, tr, acts) && i < |tr|
    ensures Inv(conf, tr[i])
  {
    if i > 0 {
      RunInv(conf, tr, acts, i - 1);
      StepInv(conf, tr[i - 1], acts[i - 1]);
    }
  }

  /** The guard and the publish section exclude each other, and every task taken but the current one has
      been published exactly once; a worker that recycles takes no more than RECYCLE tasks. */
  lemma PublishExcludesGuard(conf: Conf, tr: seq<St>, acts: seq<Act>, i: nat)
    requires Run(conf, tr, acts) && i < |tr|
    ensures tr[i].pc.Publishing? ==> !Enabled(conf, tr[i], GuardCheck) && !Enabled(conf, tr[i], GuardLock)
    ensures tr[i].lock.Guard? ==> !tr[i].pc.Publishing?
    ensures tr[i].published <= tr[i].count <= tr[i].published + 1
    ensures tr[i].count == tr[i].published <==> tr[i].pc.Waiting? || tr[i].pc.Exited?
    ensures conf.recycle > 0 ==> tr[i].count <= conf.recycle
  {
    RunInv(conf, tr, acts, i);
  }

  /** A check by the guard replaces a live worker with a task still running exactly when the timeout and
      its buffer are as many cycles as the guard has counted down; that is never before timeout + 3
      seconds have passed since the task started. A task without a timeout is never cut off. */
  lemma CutOffExactly(conf: Conf, tr: seq<St>, acts: seq<Act>, i: nat)
    requires Run(conf, tr, acts) && i < |acts| && acts[i].GuardCheck?
    requires tr[i].alive && !tr[i].replaced && tr[i].pc.Running?
    ensures
      var s := tr[i];
      && (tr[i + 1].replaced <==> s.timeout != OFF && s.timeout + BUFFER == Cycles(conf.cycle, s.visits))
      && (tr[i + 1].replaced ==> s.clock >= s.start + s.timeout + BUFFER && s.published == s.count - 1)
  {
    var s := tr[i];
    RunInv(conf, tr, acts, i);
    FindsZero(conf, s.timeout, s.visits);
    WholeUpTo(conf, s.timeout, s.visits);
    if s.visits > 0 {
      FindsZero(conf, s.timeout, s.visits - 1);
      assert Cycles(conf.cycle, s.visits) == Cycles(conf.cycle, s.visits - 1) + conf.cycle;
    }
  }

  /** A live worker that is not running a task is replaced only when it gave up on a timeout by itself,
      after publishing: entering the publish section ends the countdown. */
  lemma PublishingEndsCountdown(conf: Conf, tr: seq<St>, acts: seq<Act>, i: nat)
    requires Run(conf, tr, acts) && i < |acts| && acts[i].GuardCheck?
    requires tr[i].alive && !tr[i].replaced && !tr[i].pc.Running?
    ensures tr[i + 1].replaced <==> tr[i].pc.Exited? && tr[i].timer == 0.0
    ensures tr[i + 1].replaced ==> tr[i].published == tr[i].count
    ensures tr[i + 1].timer == tr[i].timer
  {
    RunInv(conf, tr, acts, i);
  }

  /** A worker found dead is replaced by that check, whatever its timer shows. */
  lemma DeadIsReplaced(conf: Conf, tr: seq<St>, acts: seq<Act>, k: nat, i: nat)
    requires Run(conf, tr, acts) && k < i < |acts| && acts[k].Die? && acts[i].GuardCheck?
    ensures tr[i + 1].replaced
  {
    StaysGone(conf, tr, acts, k, i);
  }

  predicate ByWorker(a: Act) {
    a.Fetch? || a.Start? || a.Lock? || a.Publish? || a.Pill?
  }

  /** The step after which a worker is gone: its death, a pill, a task that timed out, was too heavy or was the
      last before recycling, or the check that replaces it. */
  predicate Ends(conf: Conf, s: St, a: Act, t: St) {
    || a.Die? || a.Pill?
    || (a.Publish? && (a.timedOut || a.overweight || s.count == conf.recycle))
    || (a.GuardCheck? && t.replaced)
  }

  lemma {:induction false} StaysGone(conf: Conf, tr: seq<St>, acts: seq<Act>, k: nat, i: nat)
    requires Run(conf, tr, acts) && k < i < |tr| && Ends(conf, tr[k], acts[k], tr[k + 1])
    ensures tr[i].pc.Exited? || !WorkerMay(tr[i])
    ensures acts[k].Die? ==> !tr[i].alive
    decreases i
  {
    if k < i - 1 {
      StaysGone(conf, tr, acts, k, i - 1);
    }
  }

  /** From then on the worker takes no step. */
  lemma GoneDoesNothing(conf: Conf, tr: seq<St>, acts: seq<Act>, k: nat, i: nat)
    requires Run(conf, tr, acts) && k < i < |acts| && Ends(conf, tr[k], acts[k], tr[k + 1])
    ensures !ByWorker(acts[i])
  {
    StaysGone(conf, tr, acts, k, i);
  }

  // ---------------------------------------------------------------- when the guard is blocked

  ghost predicate Follows(conf: Conf, tr: seq<St>, acts: seq<Act>, n: nat)
    requires n < |acts| && |tr| == |acts| + 1
  {
    Enabled(conf, tr[n], acts[n]) && tr[n + 1] == Do(conf, tr[n], acts[n])
  }

  ghost predicate Path(conf: Conf, tr: seq<St>, acts: seq<Act>, s: St, s': St) {
    && |tr| == |acts| + 1 && tr[0] == s && tr[|acts|] == s'
    && forall n :: 0 <= n < |acts| ==> Follows(conf, tr, acts, n)
  }

  ghost predicate Leads(conf: Conf, s: St, s': St) {
    exists tr, acts :: Path(conf, tr, acts, s, s')
  }

  /** The guard has the lock and can check the worker. */
  ghost predicate GuardMay(conf: Conf, s: St) {
    Enabled(conf, s, GuardCheck)
  }

  /** The worker died inside its publish section and took the lock with it. */
  predicate DiedPublishing(s: St) {
    s.pc.Publishing? && s.lock.Worker? && !s.alive
  }

  lemma {:induction false} NeverReleased(conf: Conf, tr: seq<St>, acts: seq<Act>, s: St, s': St, n: nat)
    requires Path(conf, tr, acts, s, s') && n < |tr| && DiedPublishing(s)
    ensures DiedPublishing(tr[n]) && !GuardMay(conf, tr[n])
  {
    if n > 0 {
      NeverReleased(conf, tr, acts, s, s', n - 1);
      assert Follows(conf, tr, acts, n - 1);
    }
  }

  /** Otherwise the lock is free, the guard's, or a live worker's that will publish. */
  lemma GuardGetsThere(conf: Conf, s: St) returns (s': St)
    requires conf.Ok() && Inv(conf, s) && !s.replaced && !DiedPublishing(s)
    ensures Leads(conf, s, s') && GuardMay(conf, s')
  {
    if s.lock.Guard? {
      s' := s;
      assert Path(conf, [s], [], s, s');
    } else if s.lock.Nobody? {
      var s1 := Do(conf, s, Tick(conf.cycle));
      s' := Do(conf, s1, GuardLock);
      var tr, acts := [s, s1, s'], [Tick(conf.cycle), GuardLock];
      assert Follows(conf, tr, acts, 0) && Follows(conf, tr, acts, 1);
      assert Path(conf, tr, acts, s, s');
    } else {
      var s1 := Do(conf, s, Publish(false, false));
      var s2 := Do(conf, s1, Tick(conf.cycle));
      s' := Do(conf, s2, GuardLock);
      var tr, acts := [s, s1, s2, s'], [Publish(false, false), Tick(conf.cycle), GuardLock];
      assert Follows(conf, tr, acts, 0) && Follows(conf, tr, acts, 1) && Follows(conf, tr, acts, 2);
      assert Path(conf, tr, acts, s, s');
    }
  }

  /** The guard can come to check this worker again if and only if the worker did not die inside its publish
      section: a lock that died with its holder blocks the guard, and with it the whole cluster, for good. */
  lemma GuardBlockedIffDiedPublishing(conf: Conf, tr: seq<St>, acts: seq<Act>, i: nat)
    requires Run(conf, tr, acts) && i < |tr| && !tr[i].replaced
    ensures (exists s' :: Leads(conf, tr[i], s') && GuardMay(conf, s')) <==> !(tr[i].pc.Publishing? && !tr[i].alive)
  {
    RunInv(conf, tr, acts, i);
    if DiedPublishing(tr[i]) {
      forall s' | Leads(conf, tr[i], s')
        ensures !GuardMay(conf, s')
      {
        var path, on :| Path(conf, path, on, tr[i], s');
        NeverReleased(conf, path, on, tr[i], s', |on|);
      }
    } else {
      var s' := GuardGetsThere(conf, tr[i]);
    }
  }
}
