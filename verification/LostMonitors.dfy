/**
 A cluster whose monitor dies each time between saving a result and acknowledging it: the package is
 retried for ever, and attempt_count passes MAX_ATTEMPTS and every other bound.
 */
module LostMonitors {
  import opened TaskTable
  import opened Ledger
  import opened Pipeline
  import Lease

  const FAILED := Outcome(false, 0, 0)

  /** A package that decodes and is not cached. */
  predicate Plain(p: Package) {
    p.decodable && !p.cached
  }

  /** The system with this one cluster. */
  function One(s: State, cl: Cluster): State {
    s.(clusters := [cl])
  }

  /** A cluster of one worker with nothing in its queues. */
  function Worker(slot: Slot): Cluster {
    Cluster([], [], [], [slot], [], Idle)
  }

  ghost predicate Path(k: Conf, tr: seq<State>) {
    forall i :: 0 <= i < |tr| - 1 ==> Steps(k, tr[i], tr[i + 1])
  }

  lemma Line(k: Conf, a: State, b: State, c: State)
    requires Steps(k, a, b) && Steps(k, b, c)
    ensures Path(k, [a, b, c])
  {
    forall i | 0 <= i < 2
      ensures Steps(k, [a, b, c][i], [a, b, c][i + 1])
    {
      if i == 0 {
        assert [a, b, c][i] == a && [a, b, c][i + 1] == b;
      } else {
        assert [a, b, c][i] == b && [a, b, c][i + 1] == c;
      }
    }
  }

  // ---------------------------------------------------------------- one step at a time

  lemma SelectStep(k: Conf, s: State, pk: Pk)
    requires s.clusters == [Worker(Idle)] && pk in s.locks && s.locks[pk] < s.clock
    ensures Steps(k, s, One(s, Worker(Idle).(candidates := [Lease.Candidate(pk, s.locks[pk])])))
  {
    var s' := One(s, Worker(Idle).(candidates := [Lease.Candidate(pk, s.locks[pk])]));
    assert DoSelect(s, 0, [pk]).clusters == s'.clusters by {
      assert DoSelect(s, 0, [pk]).clusters[0].candidates == s'.clusters[0].candidates;
    }
    assert StepBy(k, s, s', Select(0, [pk]));
  }

  lemma WinStep(k: Conf, s: State, pk: Pk)
    requires pk in s.locks && s.clusters == [Worker(Idle).(candidates := [Lease.Candidate(pk, s.locks[pk])])]
    ensures Steps(k, s, One(Leased(k, s, pk), Worker(Idle).(hand := [Granted(s, pk)])))
  {
    var s' := One(Leased(k, s, pk), Worker(Idle).(hand := [Granted(s, pk)]));
    assert Winner(s, 0) == s'.clusters[0];
    assert DoCas(k, s, 0).clusters == s'.clusters;
    assert StepBy(k, s, s', CompareAndSet(0));
  }

  function Leased(k: Conf, s: State, pk: Pk): State {
    s.(locks := s.locks[pk := s.clock + k.retry], next := s.next + 1)
  }

  lemma PushStep(k: Conf, s: State, d: Delivery)
    requires s.clusters == [Worker(Idle).(hand := [d])]
    requires d.pk in s.payloads && s.payloads[d.pk].decodable && d.stamp.Unstamped?
    ensures Steps(k, s, One(s, Worker(Idle).(taskQueue := [Restamp(s.tasks, d, true)])))
  {
    var s' := One(s, Worker(Idle).(taskQueue := [Restamp(s.tasks, d, true)]));
    assert DoPush(s, 0, true).clusters == s'.clusters by {
      assert [d][1..] == [] && [] + [Restamp(s.tasks, d, true)] == [Restamp(s.tasks, d, true)];
    }
    assert StepBy(k, s, s', PushHead(0, true));
  }

  lemma TakeStep(k: Conf, s: State, d: Delivery)
    requires s.clusters == [Worker(Idle).(taskQueue := [d])]
    ensures Steps(k, s, One(s, Worker(Holds(d))))
  {
    var s' := One(s, Worker(Holds(d)));
    assert DoTake(s, 0, 0).clusters == s'.clusters by {
      assert [d][1..] == [] && [Idle][0 := Holds(d)] == [Holds(d)];
    }
    assert StepBy(k, s, s', Take(0, 0));
  }

  lemma PublishStep(k: Conf, s: State, d: Delivery)
    requires s.clusters == [Worker(Holds(d))] && d.stamp.Stamped? && d.result.Pending?
    ensures Steps(k, s, One(s, Worker(Idle).(resultQueue := [d.(result := Finished(FAILED))])))
  {
    var s' := One(s, Worker(Idle).(resultQueue := [d.(result := Finished(FAILED))]));
    assert DoPublish(s, 0, 0, FAILED).clusters == s'.clusters by {
      assert [Holds(d)][0 := Idle] == [Idle];
      assert [] + [d.(result := Finished(FAILED))] == [d.(result := Finished(FAILED))];
    }
    assert StepBy(k, s, s', Publish(0, 0, FAILED));
  }

  lemma FetchStep(k: Conf, s: State, d: Delivery)
    requires s.clusters == [Worker(Idle).(resultQueue := [d])]
    ensures Steps(k, s, One(s, Worker(Idle).(monitor := Holds(d))))
  {
    var s' := One(s, Worker(Idle).(monitor := Holds(d)));
    assert DoFetch(s, 0).clusters == s'.clusters by {
      assert [d][1..] == [];
    }
    assert StepBy(k, s, s', Fetch(0));
  }

  lemma LookStep(k: Conf, s: State, d: Delivery)
    requires s.clusters == [Worker(Idle).(monitor := Holds(d))]
    requires d.pk in s.payloads && d.result == Finished(FAILED) && d.mark.Unsaved?
    ensures Steps(k, s, One(s, Worker(Idle).(monitor := Holds(AfterLook(k, s.payloads, s.tasks, d, true)))))
  {
    var s' := One(s, Worker(Idle).(monitor := Holds(AfterLook(k, s.payloads, s.tasks, d, true))));
    assert DoLook(k, s, 0, true).clusters == s'.clusters;
    assert StepBy(k, s, s', LookUp(0, true));
  }

  lemma WriteStep(k: Conf, s: State, d: Delivery)
    requires s.clusters == [Worker(Idle).(monitor := Holds(d))]
    requires d.pk in s.payloads && d.result == Finished(FAILED) && d.mark.Looked?
    ensures
      var t := s.(tasks := Saving(s.payloads, s.tasks, d, true));
      Steps(k, s, One(t, Worker(Idle).(monitor := Holds(Marked(k, s.payloads, s.tasks, d, true)))))
  {
    var t := s.(tasks := Saving(s.payloads, s.tasks, d, true));
    var s' := One(t, Worker(Idle).(monitor := Holds(Marked(k, s.payloads, s.tasks, d, true))));
    assert DoWrite(k, s, 0, true).clusters == s'.clusters;
    assert StepBy(k, s, s', WriteRow(0, true));
  }

  lemma MonitorDies(k: Conf, s: State, d: Delivery)
    requires s.clusters == [Worker(Idle).(monitor := Holds(d))]
    ensures Steps(k, s, One(s, Worker(Idle)).(lost := s.lost + multiset{d}))
  {
    var s' := One(s, Worker(Idle)).(lost := s.lost + multiset{d});
    assert DoDie(s, 0, Monitor).clusters == s'.clusters;
    assert StepBy(k, s, s', Dies(0, Monitor));
  }

  lemma WaitStep(k: Conf, s: State, dt: nat)
    ensures Steps(k, s, s.(clock := s.clock + dt))
  {
    assert StepBy(k, s, s.(clock := s.clock + dt), Wait(dt));
  }

  // ---------------------------------------------------------------- one round

  /** Nothing under way, the package's lease run out, and its row showing n failed attempts. */
  ghost predicate Ready(s: State, pk: Pk, p: Package, n: nat) {
    && s.clusters == [Worker(Idle)]
    && pk in s.locks && s.locks[pk] < s.clock
    && pk in s.payloads && s.payloads[pk] == p
    && (if n == 0 then pk !in s.tasks else pk in s.tasks && s.tasks[pk] == Row(p.meta, FAILED, n))
  }

  /** From the broker into the pusher's hand. */
  lemma Leasing(k: Conf, s: State, pk: Pk) returns (tr: seq<State>)
    requires s.clusters == [Worker(Idle)] && pk in s.locks && s.locks[pk] < s.clock
    ensures |tr| == 3 && tr[0] == s && Path(k, tr)
    ensures tr[2] == One(Leased(k, s, pk), Worker(Idle).(hand := [Granted(s, pk)]))
  {
    var s1 := One(s, Worker(Idle).(candidates := [Lease.Candidate(pk, s.locks[pk])]));
    var s2 := One(Leased(k, s, pk), Worker(Idle).(hand := [Granted(s, pk)]));
    SelectStep(k, s, pk);
    WinStep(k, s1, pk);
    assert s2 == One(Leased(k, s1, pk), Worker(Idle).(hand := [Granted(s1, pk)]));
    Line(k, s, s1, s2);
    tr := [s, s1, s2];
  }

  /** On to the worker. */
  lemma Handing(k: Conf, s: State, d: Delivery) returns (tr: seq<State>)
    requires s.clusters == [Worker(Idle).(hand := [d])]
    requires d.pk in s.payloads && s.payloads[d.pk].decodable && d.stamp.Unstamped?
    ensures |tr| == 3 && tr[0] == s && Path(k, tr)
    ensures tr[2] == One(s, Worker(Holds(Restamp(s.tasks, d, true))))
  {
    var e := Restamp(s.tasks, d, true);
    var s1, s2 := One(s, Worker(Idle).(taskQueue := [e])), One(s, Worker(Holds(e)));
    PushStep(k, s, d);
    TakeStep(k, s1, e);
    Line(k, s, s1, s2);
    tr := [s, s1, s2];
  }

  /** On to the monitor. */
  lemma Finishing(k: Conf, s: State, d: Delivery) returns (tr: seq<State>)
    requires s.clusters == [Worker(Holds(d))] && d.stamp.Stamped? && d.result.Pending?
    ensures |tr| == 3 && tr[0] == s && Path(k, tr)
    ensures tr[2] == One(s, Worker(Idle).(monitor := Holds(d.(result := Finished(FAILED)))))
  {
    var done := d.(result := Finished(FAILED));
    var s1, s2 := One(s, Worker(Idle).(resultQueue := [done])), One(s, Worker(Idle).(monitor := Holds(done)));
    PublishStep(k, s, d);
    FetchStep(k, s1, done);
    Line(k, s, s1, s2);
    tr := [s, s1, s2];
  }

  /** The monitor finds the row and writes it. */
  lemma Storing(k: Conf, s: State, d: Delivery) returns (tr: seq<State>)
    requires s.clusters == [Worker(Idle).(monitor := Holds(d))] && d.mark.Unsaved?
    requires d.pk in s.payloads && Plain(s.payloads[d.pk]) && d.result == Finished(FAILED)
    ensures |tr| == 3 && tr[0] == s && Path(k, tr)
    ensures
      var looked := AfterLook(k, s.payloads, s.tasks, d, true);
      var t := s.(tasks := Saving(s.payloads, s.tasks, looked, true));
      && looked.mark.Looked?
      && tr[2] == One(t, Worker(Idle).(monitor := Holds(Marked(k, s.payloads, s.tasks, looked, true))))
  {
    var looked := AfterLook(k, s.payloads, s.tasks, d, true);
    var t := s.(tasks := Saving(s.payloads, s.tasks, looked, true));
    var s1 := One(s, Worker(Idle).(monitor := Holds(looked)));
    var s2 := One(t, Worker(Idle).(monitor := Holds(Marked(k, s.payloads, s.tasks, looked, true))));
    LookStep(k, s, d);
    WriteStep(k, s1, looked);
    Line(k, s, s1, s2);
    tr := [s, s1, s2];
  }

  /** The monitor dies before it acknowledges, and the lease runs out. */
  lemma Losing(k: Conf, s: State, d: Delivery, dt: nat) returns (tr: seq<State>)
    requires s.clusters == [Worker(Idle).(monitor := Holds(d))]
    ensures |tr| == 3 && tr[0] == s && Path(k, tr)
    ensures tr[2] == One(s, Worker(Idle)).(lost := s.lost + multiset{d}, clock := s.clock + dt)
  {
    var s1 := One(s, Worker(Idle)).(lost := s.lost + multiset{d});
    MonitorDies(k, s, d);
    WaitStep(k, s1, dt);
    Line(k, s, s1, s1.(clock := s1.clock + dt));
    tr := [s, s1, s1.(clock := s1.clock + dt)];
  }

  lemma OneMore(k: Conf, s: State, pk: Pk, p: Package, n: nat, d: Delivery)
    requires Plain(p) && d.pk == pk && d.result == Finished(FAILED)
    requires pk in s.payloads && s.payloads[pk] == p
    requires if n == 0 then pk !in s.tasks else pk in s.tasks && s.tasks[pk] == Row(p.meta, FAILED, n)
    ensures
      var looked := AfterLook(k, s.payloads, s.tasks, d, true);
      var tasks := Saving(s.payloads, s.tasks, looked, true);
      pk in tasks && tasks[pk] == Row(p.meta, FAILED, n + 1)
  {
  }

  // ---------------------------------------------------------------- any number of rounds

  lemma Joined(k: Conf, a: seq<State>, b: seq<State>)
    requires |a| > 0 && |b| > 0 && a[|a| - 1] == b[0] && Path(k, a) && Path(k, b)
    ensures Path(k, a + b[1..])
  {
    var all := a + b[1..];
    forall i | 0 <= i < |all| - 1
      ensures Steps(k, all[i], all[i + 1])
    {
      if i < |a| - 1 {
        assert Steps(k, a[i], a[i + 1]);
      } else {
        assert all[i] == b[i - (|a| - 1)] && all[i + 1] == b[i - (|a| - 1) + 1];
        assert Steps(k, b[i - (|a| - 1)], b[i - (|a| - 1) + 1]);
      }
    }
  }

  /** All steps of one attempt, and the lease running out again. */
  lemma Round(k: Conf, s: State, pk: Pk, p: Package, n: nat) returns (tr: seq<State>)
    requires Ready(s, pk, p, n) && Plain(p)
    ensures |tr| > 0 && tr[0] == s && Path(k, tr) && Ready(tr[|tr| - 1], pk, p, n + 1)
  {
    var a := Leasing(k, s, pk);
    var d := Granted(s, pk);
    var b := Handing(k, a[2], d);
    var e := Restamp(a[2].tasks, d, true);
    var c := Finishing(k, b[2], e);
    var done := e.(result := Finished(FAILED));
    var f := Storing(k, c[2], done);
    OneMore(k, c[2], pk, p, n, done);
    var g := Losing(k, f[2], f[2].clusters[0].monitor.d, k.retry + 1);
    tr := JoinedAll(k, a, b, c, f, g);
  }

  lemma JoinedAll(k: Conf, a: seq<State>, b: seq<State>, c: seq<State>, d: seq<State>, e: seq<State>)
    returns (tr: seq<State>)
    requires |a| == |b| == |c| == |d| == |e| == 3
    requires a[2] == b[0] && b[2] == c[0] && c[2] == d[0] && d[2] == e[0]
    requires Path(k, a) && Path(k, b) && Path(k, c) && Path(k, d) && Path(k, e)
    ensures |tr| > 0 && tr[0] == a[0] && tr[|tr| - 1] == e[2] && Path(k, tr)
  {
    Joined(k, a, b);
    tr := a + b[1..];
    Joined(k, tr, c);
    tr := tr + c[1..];
    Joined(k, tr, d);
    tr := tr + d[1..];
    Joined(k, tr, e);
    tr := tr + e[1..];
  }

  lemma {:induction false} Rounds(k: Conf, pk: Pk, p: Package, n: nat) returns (tr: seq<State>)
    requires Plain(p)
    ensures Execution(k, tr) && Ready(tr[|tr| - 1], pk, p, n)
    decreases n
  {
    if n == 0 {
      tr := Start(k, pk, p);
    } else {
      var before := Rounds(k, pk, p, n - 1);
      var round := Round(k, before[|before| - 1], pk, p, n - 1);
      Joined(k, before, round);
      tr := before + round[1..];
    }
  }

  lemma Start(k: Conf, pk: Pk, p: Package) returns (tr: seq<State>)
    ensures Execution(k, tr) && Ready(tr[|tr| - 1], pk, p, 0)
  {
    var s1 := BOOT.(clusters := [Worker(Idle)]);
    var s2 := DoEnqueue(s1, pk, p);
    tr := [BOOT, s1, s2, s2.(clock := s2.clock + 1)];
    assert DoJoin(BOOT, 1).clusters == s1.clusters by {
      assert seq(1, _ => Idle) == [Idle];
    }
    assert StepBy(k, BOOT, s1, Join(1));
    assert StepBy(k, s1, s2, EnqueueTask(pk, p));
    WaitStep(k, s2, 1);
  }

  /** For every configuration, MAX_ATTEMPTS included, every package that decodes and is not cached, and every
      n there is an execution in which attempt_count reaches n while the package is still in the broker,
      free to be leased again, with nothing of it under way. */
  lemma AttemptsWithoutBound(k: Conf, pk: Pk, p: Package, n: nat) returns (tr: seq<State>)
    requires p.decodable && !p.cached
    ensures Execution(k, tr)
    ensures
      var s := tr[|tr| - 1];
      Attempts(s.tasks, pk) == n && pk in s.locks && s.locks[pk] < s.clock && Bag(s.clusters) == multiset{}
  {
    tr := Rounds(k, pk, p, n);
    assert [Worker(Idle)][1..] == [] && [Idle][1..] == [];
    assert InPool([Idle]) == multiset{};
    assert Held(Worker(Idle)) == multiset{};
  }
}
