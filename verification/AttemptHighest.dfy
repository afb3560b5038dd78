/** The highest count a package can still get to once its row has left the broker, and when that is too high. */
module AttemptHighest {
  import opened Bags
  import opened Options
  import opened TaskTable
  import opened Ledger
  import opened LedgerLaws
  import opened AttemptBound
  import opened Numbering
  import opened AttemptLimit

  const FAILED := Outcome(false, 0, 0)

  // ---------------------------------------------------------------- where the system can go from a state

  ghost predicate Path(k: Conf, tr: seq<Ledger>, l: Ledger, l': Ledger) {
    |tr| > 0 && tr[0] == l && tr[|tr| - 1] == l' && forall i :: 0 < i < |tr| ==> Follows(k, tr, i)
  }

  ghost predicate Continues(k: Conf, l: Ledger, l': Ledger) {
    exists tr :: Path(k, tr, l, l')
  }

  /** With a state, whatever follows from it in one step. */
  ghost predicate Closed(k: Conf, reach: Ledger -> bool) {
    forall l, a :: reach(l) && Enabled(k, l, a) ==> reach(Do(k, l, a))
  }

  lemma StaysHere(k: Conf, l: Ledger)
    ensures Continues(k, l, l)
  {
    assert Path(k, [l], l, l);
  }

  lemma OneStepOn(k: Conf, l: Ledger, l': Ledger, a: Act)
    requires Continues(k, l, l') && Enabled(k, l', a)
    ensures Continues(k, l, Do(k, l', a))
  {
    var tr :| Path(k, tr, l, l');
    var tr' := tr + [Do(k, l', a)];
    forall i | 0 < i < |tr'|
      ensures Follows(k, tr', i)
    {
      if i < |tr| {
        assert Follows(k, tr, i);
      }
    }
    assert Path(k, tr', l, Do(k, l', a));
  }

  // ---------------------------------------------------------------- no continuation gets higher

  ghost predicate SoundOver(k: Conf, l: Ledger, pk: Pk, limit: int) {
    Inv(k, l) && Over(l, pk, limit)
  }

  lemma NextSoundOver(k: Conf, l: Ledger, l': Ledger, pk: Pk, limit: int)
    requires Next(k, l, l') && SoundOver(k, l, pk, limit)
    ensures SoundOver(k, l', pk, limit)
  {
    var a :| Enabled(k, l, a) && l' == Do(k, l, a);
    StepInv(k, l, a);
    StepAfterExit(k, l, a, pk, limit);
  }

  lemma PathOver(k: Conf, tr: seq<Ledger>, j: nat, pk: Pk, limit: int)
    requires j < |tr| && SoundOver(k, tr[0], pk, limit) && forall i :: 0 < i < |tr| ==> Follows(k, tr, i)
    ensures SoundOver(k, tr[j], pk, limit)
  {
    var p := (l: Ledger) => SoundOver(k, l, pk, limit);
    forall n | 0 < n <= j
      ensures Passes(tr, n, p)
    {
      assert Follows(k, tr, n);
      if p(tr[n - 1]) {
        NextSoundOver(k, tr[n - 1], tr[n], pk, limit);
      }
    }
    PassedOn(tr, 0, j, p);
  }

  lemma NeverHigher(k: Conf, l: Ledger, l': Ledger, pk: Pk, limit: int)
    requires Inv(k, l) && Over(l, pk, limit) && Continues(k, l, l')
    ensures Attempts(l'.tasks, pk) <= limit
  {
    var tr :| Path(k, tr, l, l');
    PathOver(k, tr, |tr| - 1, pk, limit);
  }

  // ---------------------------------------------------------------- one continuation gets that high

  /** No monitor is between finding the row and writing it. */
  ghost predicate NoneLooked(l: Ledger, pk: Pk) {
    forall d :: d in l.live && d.pk == pk ==> !d.mark.Looked?
  }

  /** A package whose results can all still fail and be saved. */
  ghost predicate Willing(l: Ledger, pk: Pk) {
    && pk in l.pkgs && l.pkgs[pk].decodable && !l.pkgs[pk].cached
    && (pk in l.tasks ==> !l.tasks[pk].out.success && l.tasks[pk].meta == l.pkgs[pk].meta)
    && NoneLooked(l, pk)
    && (forall d :: d in l.live && d.pk == pk && d.result.Finished? ==> !d.result.out.success)
  }

  /** The state with this delivery live beside the others. */
  ghost function With(l: Ledger, others: multiset<Delivery>, d: Delivery): Ledger {
    l.(live := others + multiset{d})
  }

  lemma Replaced(others: multiset<Delivery>, d: Delivery, n: Delivery)
    ensures (others + multiset{d}) - multiset{d} + multiset{n} == others + multiset{n}
  {
  }

  lemma StampIt(k: Conf, reach: Ledger -> bool, l: Ledger, others: multiset<Delivery>, d: Delivery)
    returns (n: Delivery)
    requires Closed(k, reach) && reach(With(l, others, d)) && d.pk in l.pkgs && l.pkgs[d.pk].decodable
    ensures reach(With(l, others, n)) && n.stamp.Stamped? && n == d.(stamp := n.stamp)
  {
    n := d;
    if d.stamp.Unstamped? {
      n := Restamp(l.tasks, d, true);
      Replaced(others, d, n);
      assert Enabled(k, With(l, others, d), Stamp_(d, true));
      assert Do(k, With(l, others, d), Stamp_(d, true)) == With(l, others, n);
    }
  }

  lemma FinishIt(k: Conf, reach: Ledger -> bool, l: Ledger, others: multiset<Delivery>, d: Delivery)
    returns (n: Delivery)
    requires Closed(k, reach) && reach(With(l, others, d)) && d.stamp.Stamped?
    ensures reach(With(l, others, n)) && n.result == (if d.result.Finished? then d.result else Finished(FAILED))
    ensures n == d.(result := n.result)
  {
    n := d;
    if d.result.Pending? {
      n := d.(result := Finished(FAILED));
      Replaced(others, d, n);
      assert Enabled(k, With(l, others, d), Finish(d, FAILED));
      assert Do(k, With(l, others, d), Finish(d, FAILED)) == With(l, others, n);
    }
  }

  lemma LookIt(k: Conf, reach: Ledger -> bool, l: Ledger, others: multiset<Delivery>, d: Delivery)
    returns (n: Delivery)
    requires Closed(k, reach) && reach(With(l, others, d)) && d.mark.Unsaved?
    requires d.pk in l.pkgs && !l.pkgs[d.pk].cached && d.result.Finished? && !d.result.out.success
    ensures reach(With(l, others, n)) && n == d.(mark := Looked(Found(l.tasks, d.pk, l.pkgs[d.pk].meta)))
  {
    n := AfterLook(k, l.pkgs, l.tasks, d, true);
    Replaced(others, d, n);
    assert Enabled(k, With(l, others, d), Look(d, true));
    assert Do(k, With(l, others, d), Look(d, true)) == With(l, others, n);
  }

  lemma WriteIt(k: Conf, reach: Ledger -> bool, l: Ledger, others: multiset<Delivery>, d: Delivery)
    returns (n: Delivery, t: Table)
    requires Closed(k, reach) && reach(With(l, others, d))
    requires d.pk in l.pkgs && d.result.Finished? && !d.result.out.success
    requires d.pk in l.tasks ==> !l.tasks[d.pk].out.success && l.tasks[d.pk].meta == l.pkgs[d.pk].meta
    requires d.mark == Looked(Found(l.tasks, d.pk, l.pkgs[d.pk].meta))
    ensures reach(With(l.(tasks := t), others, n)) && n.mark.Saved? && n == d.(mark := n.mark)
    ensures Attempts(t, d.pk) == Attempts(l.tasks, d.pk) + 1
    ensures d.pk in t && !t[d.pk].out.success && t[d.pk].meta == l.pkgs[d.pk].meta
  {
    t := Saving(l.pkgs, l.tasks, d, true);
    n := Marked(k, l.pkgs, l.tasks, d, true);
    Replaced(others, d, n);
    assert Enabled(k, With(l, others, d), Write(d, true));
    assert Do(k, With(l, others, d), Write(d, true)) == With(l.(tasks := t), others, n);
  }

  /** One delivery is stamped, fails and is saved, with nothing else happening. */
  lemma SaveIt(k: Conf, reach: Ledger -> bool, l: Ledger, d: Delivery) returns (l': Ledger)
    requires Closed(k, reach) && reach(l) && Willing(l, d.pk) && d in l.live && d.mark.Unsaved?
    ensures reach(l') && Willing(l', d.pk)
    ensures Attempts(l'.tasks, d.pk) == Attempts(l.tasks, d.pk) + 1
    ensures Weigh(l'.live, UnsavedOf(d.pk)) + 1 == Weigh(l.live, UnsavedOf(d.pk))
  {
    var others := l.live - multiset{d};
    assert others + multiset{d} == l.live && With(l, others, d) == l;
    var d1 := StampIt(k, reach, l, others, d);
    var d2 := FinishIt(k, reach, l, others, d1);
    var d3 := LookIt(k, reach, l, others, d2);
    var d4, t := WriteIt(k, reach, l, others, d3);
    l' := With(l.(tasks := t), others, d4);
    OneLess(others, d, d4);
    StillWilling(l, l', others, d, d4);
  }

  lemma OneLess(others: multiset<Delivery>, d: Delivery, n: Delivery)
    requires d.mark.Unsaved? && n.mark.Saved?
    ensures
      Weigh(others + multiset{n}, UnsavedOf(d.pk)) + 1 == Weigh(others + multiset{d}, UnsavedOf(d.pk))
  {
    WeighIn(others, d, UnsavedOf(d.pk));
    WeighIn(others, n, UnsavedOf(d.pk));
  }

  lemma StillWilling(l: Ledger, l': Ledger, others: multiset<Delivery>, d: Delivery, n: Delivery)
    requires Willing(l, d.pk) && l.live == others + multiset{d} && l'.live == others + multiset{n}
    requires l'.pkgs == l.pkgs && n.mark.Saved? && n.result.Finished? && !n.result.out.success
    requires d.pk in l'.tasks && !l'.tasks[d.pk].out.success && l'.tasks[d.pk].meta == l.pkgs[d.pk].meta
    ensures Willing(l', d.pk)
  {
    forall e | e in l'.live && e.pk == d.pk
      ensures !e.mark.Looked? && (e.result.Finished? ==> !e.result.out.success)
    {
      assert e in l.live || e == n;
    }
  }

  lemma SomeUnsaved(l: Ledger, pk: Pk) returns (d: Delivery)
    requires NoneLooked(l, pk) && Weigh(l.live, UnsavedOf(pk)) > 0
    ensures d in l.live && d.pk == pk && d.mark.Unsaved?
  {
    if forall e :: e in l.live ==> UnsavedOf(pk)(e) == 0 {
      WeighNone(l.live, UnsavedOf(pk));
    }
    d :| d in l.live && UnsavedOf(pk)(d) != 0;
  }

  /** All of them, one after the other. */
  lemma {:induction false} SaveAll(k: Conf, reach: Ledger -> bool, l: Ledger, pk: Pk) returns (l': Ledger)
    requires Closed(k, reach) && reach(l) && Willing(l, pk)
    ensures reach(l') && Attempts(l'.tasks, pk) == Attempts(l.tasks, pk) + Weigh(l.live, UnsavedOf(pk))
    decreases Weigh(l.live, UnsavedOf(pk))
  {
    if Weigh(l.live, UnsavedOf(pk)) == 0 {
      l' := l;
    } else {
      var d := SomeUnsaved(l, pk);
      var l1 := SaveIt(k, reach, l, d);
      l' := SaveAll(k, reach, l1, pk);
    }
  }

  lemma GetsThere(k: Conf, l: Ledger, pk: Pk) returns (l': Ledger)
    requires Willing(l, pk)
    ensures Continues(k, l, l')
    ensures Attempts(l'.tasks, pk) == Attempts(l.tasks, pk) + Weigh(l.live, UnsavedOf(pk))
  {
    var reach: Ledger -> bool := (m: Ledger) => Continues(k, l, m);
    StaysHere(k, l);
    forall m, a | reach(m) && Enabled(k, m, a)
      ensures reach(Do(k, m, a))
    {
      OneStepOn(k, l, m, a);
    }
    l' := SaveAll(k, reach, l, pk);
  }

  // ---------------------------------------------------------------- the plain bound, for good

  lemma FindsCount(l: Ledger, pk: Pk)
    requires pk in l.pkgs && pk !in l.rows && NoneLooked(l, pk)
    ensures Over(l, pk, Attempts(l.tasks, pk) + Weigh(l.live, UnsavedOf(pk)))
  {
  }

  /** Once its row has gone, a failing package that no monitor is just saving can get to the present count
      plus the deliveries still to be saved, and no higher. */
  lemma HighestCount(k: Conf, tr: seq<Ledger>, i: nat, pk: Pk) returns (l': Ledger)
    requires Run(k, tr) && i < |tr| && pk !in tr[i].rows && Failing(tr[i].All(), pk) && NoneLooked(tr[i], pk)
    requires pk in tr[i].pkgs && tr[i].pkgs[pk].decodable && !tr[i].pkgs[pk].cached
    ensures Continues(k, tr[i], l')
    ensures Attempts(l'.tasks, pk) == Attempts(tr[i].tasks, pk) + Weigh(tr[i].live, UnsavedOf(pk))
    ensures forall m :: Continues(k, tr[i], m) ==> Attempts(m.tasks, pk) <= Attempts(l'.tasks, pk)
  {
    var l := tr[i];
    RunInv(k, tr, i);
    RunAttemptInv(k, tr, i, pk);
    assert RowFails(l, pk);
    assert Willing(l, pk) by {
      forall d | d in l.live && d.pk == pk && d.result.Finished?
        ensures !d.result.out.success
      {
        assert d in l.All();
      }
    }
    l' := GetsThere(k, l, pk);
    FindsCount(l, pk);
    forall m | Continues(k, l, m)
      ensures Attempts(m.tasks, pk) <= Attempts(l'.tasks, pk)
    {
      NeverHigher(k, l, m, pk, Attempts(l'.tasks, pk));
    }
  }

  /** The row of a failing package, none of whose saves was overtaken and none of which is just being saved,
      leaves in the step from i to i + 1. Every continuation keeps to MAX_ATTEMPTS - 1 plus the deliveries
      live at that moment if and only if no more monitors were lost owing an acknowledgement than there were
      live deliveries that can add none: neither owing one nor still to be saved. */
  lemma PlainBoundForGood(k: Conf, tr: seq<Ledger>, i: nat, pk: Pk)
    requires Run(k, tr) && i + 1 < |tr| && k.max > 0
    requires pk in tr[i].rows && pk !in tr[i + 1].rows
    requires Failing(tr[i].All(), pk) && NoneOvertaken(tr[i].All(), pk) && NoneLooked(tr[i], pk)
    requires pk in tr[i].pkgs && tr[i].pkgs[pk].decodable && !tr[i].pkgs[pk].cached
    ensures
      var l := tr[i];
      (forall m :: Continues(k, tr[i + 1], m) ==> Attempts(m.tasks, pk) <= k.max - 1 + Weigh(l.live, Of(pk))) <==>
        Weigh(l.lost, OwedOf(pk)) <= Weigh(l.live, Of(pk)) - Weigh(l.live, OwedOf(pk)) - Weigh(l.live, UnsavedOf(pk))
  {
    var l, l1 := tr[i], tr[i + 1];
    ExcessIsOwed(k, tr, i, pk);
    RunShape(k, tr, i);
    var a := RunStep(k, tr, i + 1);
    LeavingStep(k, l, a, pk);
    LeavingFails(k, l, a, pk);
    LeavingKeeps(k, l, a, pk);
    OwedAndUnsaved(l.live, pk);
    var m := HighestCount(k, tr, i + 1, pk);
  }

  lemma LeavingStep(k: Conf, l: Ledger, a: Act, pk: Pk)
    requires Enabled(k, l, a) && Shape(l) && pk in l.rows && pk !in Do(k, l, a).rows && pk in l.pkgs
    requires l.pkgs[pk].decodable
    ensures a.AckMax? || a.Close?
    ensures Do(k, l, a).tasks == l.tasks && Do(k, l, a).pkgs == l.pkgs
  {
  }

  lemma LeavingFails(k: Conf, l: Ledger, a: Act, pk: Pk)
    requires Enabled(k, l, a) && Shape(l) && (a.AckMax? || a.Close?) && Failing(l.All(), pk)
    ensures Failing(Do(k, l, a).All(), pk)
  {
    StepShape(k, l, a);
    if a.AckMax? {
      assert a.d in l.All();
    }
  }

  lemma SettlingKeeps(k: Conf, l: Ledger, d: Delivery, pk: Pk)
    requires Enabled(k, l, AckMax(d)) && NoneLooked(l, pk)
    ensures Weigh(Do(k, l, AckMax(d)).live, UnsavedOf(pk)) == Weigh(l.live, UnsavedOf(pk))
    ensures NoneLooked(Do(k, l, AckMax(d)), pk)
  {
    WeighSwap(l.live, d, Settle(d), UnsavedOf(pk));
  }

  lemma ClosingKeeps(k: Conf, l: Ledger, d: Delivery, pk: Pk)
    requires Enabled(k, l, Close(d)) && NoneLooked(l, pk)
    ensures Weigh(Do(k, l, Close(d)).live, UnsavedOf(pk)) == Weigh(l.live, UnsavedOf(pk))
    ensures NoneLooked(Do(k, l, Close(d)), pk)
  {
    WeighOut(l.live, d, UnsavedOf(pk));
  }

  /** The step that takes the row out changes nothing of what is still to be saved. */
  lemma LeavingKeeps(k: Conf, l: Ledger, a: Act, pk: Pk)
    requires Enabled(k, l, a) && (a.AckMax? || a.Close?) && NoneLooked(l, pk)
    ensures Weigh(Do(k, l, a).live, UnsavedOf(pk)) == Weigh(l.live, UnsavedOf(pk))
    ensures NoneLooked(Do(k, l, a), pk)
  {
    if a.AckMax? {
      SettlingKeeps(k, l, a.d, pk);
    } else {
      ClosingKeeps(k, l, a.d, pk);
    }
  }
}
