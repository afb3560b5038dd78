/** MAX_ATTEMPTS plus the deliveries in flight: when attempt_count keeps to that bound, and when it need not. */
module AttemptLimit {
  import opened Bags
  import opened Options
  import opened TaskTable
  import opened Ledger
  import opened LedgerLaws
  import opened AttemptBound
  import opened Numbering

  /** No monitor died between saving an attempt at the maximum and acknowledging it. */
  ghost predicate NoneOwedLost(l: Ledger, pk: Pk) {
    forall d :: d in l.lost && d.pk == pk ==> !Owes(d)
  }

  lemma LostOwed(l: Ledger, pk: Pk)
    ensures NoneOwedLost(l, pk) <==> Weigh(l.lost, OwedOf(pk)) == 0
  {
    if NoneOwedLost(l, pk) {
      WeighNone(l.lost, OwedOf(pk));
    } else {
      var d :| d in l.lost && d.pk == pk && Owes(d);
      WeighOut(l.lost, d, OwedOf(pk));
    }
  }

  /** Saves that owe an acknowledgement are in the hands of a monitor, or were lost with one. */
  lemma OwedLiveOrLost(l: Ledger, pk: Pk)
    requires Ended(l) && Shape(l)
    ensures Weigh(l.All(), OwedOf(pk)) == Weigh(l.live, OwedOf(pk)) + Weigh(l.lost, OwedOf(pk))
  {
    WeighUnion(l.live + l.monitored + l.rejected, l.lost, OwedOf(pk));
    WeighUnion(l.live + l.monitored, l.rejected, OwedOf(pk));
    WeighUnion(l.live, l.monitored, OwedOf(pk));
    WeighNone(l.monitored, OwedOf(pk));
    forall d | d in l.rejected
      ensures OwedOf(pk)(d) == 0
    {
      assert d in l.All() && Sound(l.clock, l.pkgs, d);
    }
    WeighNone(l.rejected, OwedOf(pk));
  }

  /** At every moment while the row is in the broker: attempt_count is past MAX_ATTEMPTS - 1 by at most the
      number of saves owing an acknowledgement, held or lost; so without lost ones it keeps to the held.
      While the package keeps failing and no save of it was overtaken, it is past by exactly that number,
      and keeps to the held ones if and only if no monitor was lost owing one. */
  lemma ExcessIsOwed(k: Conf, tr: seq<Ledger>, i: nat, pk: Pk)
    requires Run(k, tr) && i < |tr| && k.max > 0 && pk in tr[i].rows
    ensures
      var l := tr[i];
      var held, lost := Weigh(l.live, OwedOf(pk)), Weigh(l.lost, OwedOf(pk));
      && Excess(k, Attempts(l.tasks, pk)) <= held + lost
      && (NoneOwedLost(l, pk) ==> Attempts(l.tasks, pk) <= k.max - 1 + held)
      && (Failing(l.All(), pk) && NoneOvertaken(l.All(), pk) ==>
            Excess(k, Attempts(l.tasks, pk)) == held + lost &&
            (Attempts(l.tasks, pk) <= k.max - 1 + held <==> NoneOwedLost(l, pk)))
  {
    RunAttemptInv(k, tr, i, pk);
    RunShape(k, tr, i);
    RunEnded(k, tr, i);
    OwedLiveOrLost(tr[i], pk);
    LostOwed(tr[i], pk);
  }

  /** A monitor that found the row at one below the maximum writes the maximum and owes for it, whatever the
      row shows by now. */
  lemma OwesForMaximum(k: Conf, l: Ledger, d: Delivery, row: Row)
    requires k.max > 0 && Shape(l) && d in l.live && d.result.Finished? && d.mark == Looked(Some(row))
    requires !row.out.success && row.attempts + 1 == k.max
    ensures
      Enabled(k, l, Write(d, true)) &&
      var l' := Do(k, l, Write(d, true));
      && Shape(l') && Attempts(l'.tasks, d.pk) == k.max
      && Weigh(l'.All(), OwedOf(d.pk)) == Weigh(l.All(), OwedOf(d.pk)) + 1
      && forall e :: e in l.live && e != d ==> e in l'.live
  {
    assert d in l.All() && Sound(l.clock, l.pkgs, d);
    var a := Write(d, true);
    TableChange(k, l, a, d.pk);
    OwedChange(k, l, a, d.pk);
    MarkIsCount(k, l, a, d.pk);
    StepShapeKept(k, l, a);
    StepRowsKept(k, l, a);
    StepTasksKept(k, l, a);
  }

  /** So the equality needs its premise: two such monitors count one attempt, and both owe for it. */
  lemma BothOweForOne(k: Conf, l: Ledger, d: Delivery, e: Delivery, row: Row)
    requires k.max > 0 && Shape(l) && d in l.live && e in l.live && d != e && d.pk == e.pk
    requires d.result.Finished? && e.result.Finished? && d.mark == e.mark == Looked(Some(row))
    requires !row.out.success && row.attempts + 1 == k.max
    ensures
      Enabled(k, l, Write(d, true)) &&
      var l1 := Do(k, l, Write(d, true));
      Enabled(k, l1, Write(e, true)) &&
      var l2 := Do(k, l1, Write(e, true));
      && Attempts(l2.tasks, d.pk) == k.max && Excess(k, Attempts(l2.tasks, d.pk)) == 1
      && Weigh(l2.All(), OwedOf(d.pk)) == Weigh(l.All(), OwedOf(d.pk)) + 2
  {
    OwesForMaximum(k, l, d, row);
    OwesForMaximum(k, Do(k, l, Write(d, true)), e, row);
  }

  lemma OwedAndUnsaved(m: multiset<Delivery>, pk: Pk)
    ensures Weigh(m, OwedOf(pk)) + Weigh(m, UnsavedOf(pk)) <= Weigh(m, Of(pk))
  {
    ghost var both := (d: Delivery) => OwedOf(pk)(d) + UnsavedOf(pk)(d);
    WeighSplit(m, OwedOf(pk), UnsavedOf(pk), both);
    WeighMono(m, both, Of(pk));
  }

  /** The plain bound, MAX_ATTEMPTS - 1 plus all deliveries of the package that are live, holds at a moment
      while the row is there if no more monitors were lost owing an acknowledgement than there are live
      deliveries that owe none; and, for a failing package none of whose saves was overtaken, only then. */
  lemma PlainBoundNow(k: Conf, tr: seq<Ledger>, i: nat, pk: Pk)
    requires Run(k, tr) && i < |tr| && k.max > 0 && pk in tr[i].rows
    ensures
      var l := tr[i];
      var plain := Attempts(l.tasks, pk) <= k.max - 1 + Weigh(l.live, Of(pk));
      var covered := Weigh(l.lost, OwedOf(pk)) <= Weigh(l.live, Of(pk)) - Weigh(l.live, OwedOf(pk));
      && (covered ==> plain)
      && (Failing(l.All(), pk) && NoneOvertaken(l.All(), pk) ==> (plain <==> covered))
  {
    ExcessIsOwed(k, tr, i, pk);
    OwedAndUnsaved(tr[i].live, pk);
  }

  /** And it holds for all time after the row has left, in the step from i to i + 1, if no monitor was lost
      owing one: MAX_ATTEMPTS - 1 plus the deliveries live at that moment. */
  lemma PlainBoundAfterExit(k: Conf, tr: seq<Ledger>, i: nat, j: nat, pk: Pk)
    requires Run(k, tr) && i < j < |tr| && k.max > 0
    requires pk in tr[i].rows && pk !in tr[i + 1].rows
    requires NoneOwedLost(tr[i], pk)
    ensures Attempts(tr[j].tasks, pk) <= k.max - 1 + Weigh(tr[i].live, Of(pk))
  {
    AttemptsAfterExit(k, tr, i, j, pk);
    RunShape(k, tr, i);
    RunEnded(k, tr, i);
    RunNext(k, tr, i + 1);
    ExitAddsNone(k, tr[i], tr[i + 1], pk);
    LiveCoverOwed(tr[i], pk);
  }

  lemma LiveCoverOwed(l: Ledger, pk: Pk)
    requires Ended(l) && Shape(l) && NoneOwedLost(l, pk)
    ensures Weigh(l.All(), OwedOf(pk)) + Weigh(l.live, UnsavedOf(pk)) <= Weigh(l.live, Of(pk))
  {
    OwedLiveOrLost(l, pk);
    LostOwed(l, pk);
    OwedAndUnsaved(l.live, pk);
  }

  lemma ExitAddsNone(k: Conf, l: Ledger, l': Ledger, pk: Pk)
    requires Next(k, l, l') && Shape(l) && pk in l.rows && pk !in l'.rows
    ensures Weigh(l'.live, UnsavedOf(pk)) <= Weigh(l.live, UnsavedOf(pk))
  {
    var a :| Enabled(k, l, a) && l' == Do(k, l, a);
    assert a.Reject? || a.AckMax? || a.Close?;
    LiveUnsavedChange(k, l, a, pk);
  }
}
