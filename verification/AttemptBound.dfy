/**
 The attempt counter over every run: what it counts, how far past MAX_ATTEMPTS it can go, and what
 monitoring every delivery within RETRY of its grant buys. A monitor finds a row and writes it in two
 statements, so saves of one package can overtake each other; every law says what that does to it.
 */
module AttemptBound {
  import opened Bags
  import opened Options
  import opened TaskTable
  import opened Ledger
  import opened LedgerLaws

  ghost function Of(pk: Pk): Delivery -> nat {
    (d: Delivery) => if d.pk == pk then 1 else 0
  }

  ghost function SavedOf(pk: Pk): Delivery -> nat {
    (d: Delivery) => if d.pk == pk && d.mark.Saved? then 1 else 0
  }

  /** A result not saved yet: its monitor may still write. */
  ghost function UnsavedOf(pk: Pk): Delivery -> nat {
    (d: Delivery) => if d.pk == pk && (d.mark.Unsaved? || d.mark.Looked?) then 1 else 0
  }

  ghost function OwedOf(pk: Pk): Delivery -> nat {
    (d: Delivery) => if d.pk == pk && Owes(d) then 1 else 0
  }

  /** Deliveries of pk granted before the one with this token. */
  ghost function BeforeOf(pk: Pk, tok: nat): Delivery -> nat {
    (d: Delivery) => if d.pk == pk && d.tok < tok then 1 else 0
  }

  /** No delivery of the package has succeeded so far. */
  ghost predicate Failing(m: multiset<Delivery>, pk: Pk) {
    forall d :: d in m && d.pk == pk && d.result.Finished? ==> !d.result.out.success
  }

  lemma {:induction false} WeighNone(m: multiset<Delivery>, w: Delivery -> nat)
    requires forall d :: d in m ==> w(d) == 0
    ensures Weigh(m, w) == 0
    decreases |m|
  {
    if m != multiset{} {
      WeighNone(m - multiset{Pick(m)}, w);
    }
  }

  // ---------------------------------------------------------------- how one step changes counts and saves

  /** The step stores a result of pk. */
  ghost predicate StoresOf(k: Conf, l: Ledger, a: Act, pk: Pk)
    requires Enabled(k, l, a)
  {
    a.Write? && a.d.pk == pk && Stores(l.tasks, a.d, a.writes)
  }

  /** The step stores a result of pk over a row that is no longer the one its monitor found. */
  ghost predicate Overtakes(k: Conf, l: Ledger, a: Act, pk: Pk)
    requires Enabled(k, l, a)
  {
    StoresOf(k, l, a, pk) && Open(a.d.mark.found) && Found(l.tasks, pk, l.pkgs[pk].meta) != a.d.mark.found
  }

  /** The count in the table goes up only by a store, to one more than its monitor had found. */
  lemma TableChange(k: Conf, l: Ledger, a: Act, pk: Pk)
    requires Enabled(k, l, a)
    ensures
      var before, after := Attempts(l.tasks, pk), Attempts(Do(k, l, a).tasks, pk);
      if StoresOf(k, l, a, pk) && Open(a.d.mark.found) then after == CountOf(a.d.mark.found) + 1 else after <= before
  {
  }

  /** Only a get makes a delivery one whose monitor has looked. */
  lemma LooksNow(k: Conf, l: Ledger, a: Act)
    requires Enabled(k, l, a) && Shape(l) && ChangeOf(k, l, a).Swap? && ChangeOf(k, l, a).new_.mark.Looked?
    ensures a.Look? && a.d.pk in l.pkgs
    ensures
      var n := ChangeOf(k, l, a).new_;
      n.pk == a.d.pk && n.mark.found == Found(l.tasks, a.d.pk, l.pkgs[a.d.pk].meta)
  {
    SameDelivery(k, l, a);
    assert Sound(l.clock, l.pkgs, ChangeOf(k, l, a).old_);
  }

  /** A delivery whose monitor has looked was there before, or its monitor has just found the row. */
  lemma LookedOrigin(k: Conf, l: Ledger, a: Act, d: Delivery)
    requires Enabled(k, l, a) && Shape(l) && d.mark.Looked? && d in Changed(l.All(), ChangeOf(k, l, a))
    ensures d in l.All() || (a.Look? && d.pk in l.pkgs && d.mark.found == Found(l.tasks, d.pk, l.pkgs[d.pk].meta))
  {
    var c := ChangeOf(k, l, a);
    if c.Swap? && d == c.new_ {
      LooksNow(k, l, a);
    }
  }

  lemma LiveLookedOrigin(k: Conf, l: Ledger, a: Act, d: Delivery)
    requires Enabled(k, l, a) && Shape(l) && d.mark.Looked? && d in Do(k, l, a).live
    ensures d in l.live || (a.Look? && d.pk in l.pkgs && d.mark.found == Found(l.tasks, d.pk, l.pkgs[d.pk].meta))
  {
    if d !in l.live {
      LiveIsChanged(k, l, a, d);
      LooksNow(k, l, a);
    }
  }

  /** What is live after a step was live before, or is what the step made of one. */
  lemma LiveIsChanged(k: Conf, l: Ledger, a: Act, d: Delivery)
    requires Enabled(k, l, a) && d in Do(k, l, a).live && d !in l.live && !d.mark.Unsaved?
    ensures ChangeOf(k, l, a).Swap? && d == ChangeOf(k, l, a).new_
  {
  }

  /** How one step changes the number of saved results of pk. */
  lemma SavedChange(k: Conf, l: Ledger, a: Act, pk: Pk)
    requires Enabled(k, l, a) && Shape(l)
    ensures
      Weigh(Do(k, l, a).All(), SavedOf(pk)) == Weigh(l.All(), SavedOf(pk)) + (if StoresOf(k, l, a, pk) then 1 else 0)
  {
    StepWeight(k, l, a, SavedOf(pk));
    var c := ChangeOf(k, l, a);
    if c.Swap? {
      SameDelivery(k, l, a);
      assert Sound(l.clock, l.pkgs, c.old_);
    }
  }

  // ---------------------------------------------------------------- a bound on every count there is

  /** Neither the row nor what a monitor has found of it shows more than n. */
  ghost predicate UpTo(t: Table, m: multiset<Delivery>, pk: Pk, n: int) {
    Attempts(t, pk) <= n && FoundUpTo(m, pk, n)
  }

  ghost predicate FoundUpTo(m: multiset<Delivery>, pk: Pk, n: int) {
    forall d :: d in m && d.pk == pk && d.mark.Looked? ==> CountOf(d.mark.found) <= n
  }

  lemma FoundCount(t: Table, id: Id, meta: Meta)
    ensures CountOf(Found(t, id, meta)) <= Attempts(t, id)
    ensures id in t && t[id].meta == meta ==> CountOf(Found(t, id, meta)) == Attempts(t, id)
  {
  }

  lemma StepFoundUpTo(k: Conf, l: Ledger, a: Act, pk: Pk, n: int)
    requires Enabled(k, l, a) && Shape(l) && UpTo(l.tasks, l.All(), pk, n)
    ensures FoundUpTo(Changed(l.All(), ChangeOf(k, l, a)), pk, n)
  {
    forall d | d in Changed(l.All(), ChangeOf(k, l, a)) && d.pk == pk && d.mark.Looked?
      ensures CountOf(d.mark.found) <= n
    {
      LookedOrigin(k, l, a, d);
      if d !in l.All() {
        FoundCount(l.tasks, pk, l.pkgs[pk].meta);
      }
    }
  }

  lemma StepLiveFoundUpTo(k: Conf, l: Ledger, a: Act, pk: Pk, n: int)
    requires Enabled(k, l, a) && Shape(l) && UpTo(l.tasks, l.live, pk, n)
    ensures FoundUpTo(Do(k, l, a).live, pk, n)
  {
    forall d | d in Do(k, l, a).live && d.pk == pk && d.mark.Looked?
      ensures CountOf(d.mark.found) <= n
    {
      LiveLookedOrigin(k, l, a, d);
      if d !in l.live {
        FoundCount(l.tasks, pk, l.pkgs[pk].meta);
      }
    }
  }

  // ---------------------------------------------------------------- what attempt_count counts

  /** attempt_count is at most the number of saved results. */
  ghost predicate Counts(l: Ledger, pk: Pk) {
    UpTo(l.tasks, l.All(), pk, Weigh(l.All(), SavedOf(pk)))
  }

  lemma StepCounts(k: Conf, l: Ledger, a: Act, pk: Pk)
    requires Enabled(k, l, a) && Shape(l) && Counts(l, pk)
    ensures Counts(Do(k, l, a), pk)
  {
    StepFoundUpTo(k, l, a, pk, Weigh(l.All(), SavedOf(pk)));
    TableChange(k, l, a, pk);
    if StoresOf(k, l, a, pk) {
      assert a.d in l.All();
    }
    SavedChange(k, l, a, pk);
    StepShape(k, l, a);
  }

  /** No save of pk wrote over a row that was no longer the one its monitor had found. */
  ghost predicate NoneOvertaken(m: multiset<Delivery>, pk: Pk) {
    forall d :: d in m && d.pk == pk && d.mark.Saved? ==> !d.mark.overtaken
  }

  /** The row has not succeeded, nor had it when a monitor found it, and what was found is what is there
      unless another result has been saved since. */
  ghost predicate RowFails(l: Ledger, pk: Pk) {
    && (pk in l.tasks ==> !l.tasks[pk].out.success)
    && forall d :: d in l.All() && d.pk == pk && d.mark.Looked? ==> FoundFails(l, d)
  }

  ghost predicate FoundFails(l: Ledger, d: Delivery)
    requires d.mark.Looked?
  {
    && Open(d.mark.found) && d.pk in l.pkgs
    && (d.mark.found == Found(l.tasks, d.pk, l.pkgs[d.pk].meta) ||
        CountOf(d.mark.found) < Weigh(l.All(), SavedOf(d.pk)))
  }

  /** While a package keeps failing, attempt_count is the number of its saved results if and only if none
      of the saves was overtaken. */
  ghost predicate Exact(l: Ledger, pk: Pk) {
    Failing(l.All(), pk) ==>
      RowFails(l, pk) && (Attempts(l.tasks, pk) == Weigh(l.All(), SavedOf(pk)) <==> NoneOvertaken(l.All(), pk))
  }

  lemma FailingBefore(k: Conf, l: Ledger, a: Act, pk: Pk)
    requires Enabled(k, l, a) && Shape(l) && Failing(Changed(l.All(), ChangeOf(k, l, a)), pk)
    ensures Failing(l.All(), pk)
  {
    var c := ChangeOf(k, l, a);
    if c.Swap? {
      SameDelivery(k, l, a);
    }
    forall d | d in l.All() && d.pk == pk && d.result.Finished?
      ensures !d.result.out.success
    {
      if d !in Changed(l.All(), c) {
        ResultKept(k, l, a);
        assert c.new_ in Changed(l.All(), c);
      }
    }
  }

  lemma ResultKept(k: Conf, l: Ledger, a: Act)
    requires Enabled(k, l, a) && ChangeOf(k, l, a).Swap?
    ensures var c := ChangeOf(k, l, a); c.old_.result.Finished? ==> c.new_.result == c.old_.result
  {
  }

  lemma OvertakenChange(k: Conf, l: Ledger, a: Act, pk: Pk)
    requires Enabled(k, l, a) && Shape(l)
    ensures
      NoneOvertaken(Changed(l.All(), ChangeOf(k, l, a)), pk) <==>
        NoneOvertaken(l.All(), pk) && !Overtakes(k, l, a, pk)
  {
    var c := ChangeOf(k, l, a);
    var m' := Changed(l.All(), c);
    if c.Swap? {
      SameDelivery(k, l, a);
      assert Sound(l.clock, l.pkgs, c.old_);
      assert c.new_ in m';
    }
    if NoneOvertaken(m', pk) {
      forall d | d in l.All() && d.pk == pk && d.mark.Saved?
        ensures !d.mark.overtaken
      {
        InChanged(l.All(), c, d);
      }
    }
  }

  /** A failure written over a failed row leaves a failed row. */
  lemma StoredFails(k: Conf, l: Ledger, a: Act, pk: Pk)
    requires Enabled(k, l, a) && StoresOf(k, l, a, pk) && Open(a.d.mark.found) && !a.d.result.out.success
    ensures pk in Do(k, l, a).tasks && !Do(k, l, a).tasks[pk].out.success
  {
  }

  /** What does not store leaves a failed row as it is. */
  lemma RowUntouched(k: Conf, l: Ledger, a: Act, pk: Pk)
    requires Enabled(k, l, a) && !StoresOf(k, l, a, pk) && (pk in l.tasks ==> !l.tasks[pk].out.success)
    ensures pk in Do(k, l, a).tasks <==> pk in l.tasks
    ensures pk in l.tasks ==> Do(k, l, a).tasks[pk] == l.tasks[pk]
  {
  }

  lemma RowKeepsFailing(k: Conf, l: Ledger, a: Act, pk: Pk)
    requires Enabled(k, l, a) && Shape(l) && RowFails(l, pk) && Failing(l.All(), pk)
    ensures pk in Do(k, l, a).tasks ==> !Do(k, l, a).tasks[pk].out.success
  {
    if StoresOf(k, l, a, pk) {
      assert a.d in l.All() && FoundFails(l, a.d);
      StoredFails(k, l, a, pk);
    } else {
      RowUntouched(k, l, a, pk);
    }
  }

  /** A result saved in between makes what was found too low; anything else leaves the row alone. */
  lemma FoundKeepsFailing(k: Conf, l: Ledger, a: Act, d: Delivery)
    requires Enabled(k, l, a) && Shape(l) && Counts(l, d.pk) && RowFails(l, d.pk)
    requires d.mark.Looked? && d in Changed(l.All(), ChangeOf(k, l, a))
    ensures FoundFails(Do(k, l, a), d)
  {
    LookedOrigin(k, l, a, d);
    SavedChange(k, l, a, d.pk);
    Monotone(k, l, a);
    if d in l.All() {
      assert FoundFails(l, d);
    }
    if !StoresOf(k, l, a, d.pk) {
      RowUntouched(k, l, a, d.pk);
    }
  }

  lemma StepRowFails(k: Conf, l: Ledger, a: Act, pk: Pk)
    requires Enabled(k, l, a) && Shape(l) && Counts(l, pk) && RowFails(l, pk)
    requires Failing(l.All(), pk)
    ensures RowFails(Do(k, l, a), pk)
  {
    RowKeepsFailing(k, l, a, pk);
    StepShape(k, l, a);
    forall d | d in Changed(l.All(), ChangeOf(k, l, a)) && d.pk == pk && d.mark.Looked?
      ensures FoundFails(Do(k, l, a), d)
    {
      FoundKeepsFailing(k, l, a, d);
    }
  }

  /** A store over the row its monitor found counts one up; one that was overtaken falls behind. */
  lemma StoreCount(k: Conf, l: Ledger, a: Act, pk: Pk)
    requires Enabled(k, l, a) && Shape(l) && RowFails(l, pk) && StoresOf(k, l, a, pk)
    ensures Open(a.d.mark.found)
    ensures
      if Overtakes(k, l, a, pk) then Attempts(Do(k, l, a).tasks, pk) <= Weigh(l.All(), SavedOf(pk))
      else Attempts(Do(k, l, a).tasks, pk) == Attempts(l.tasks, pk) + 1
  {
    assert a.d in l.All() && FoundFails(l, a.d);
    TableChange(k, l, a, pk);
    FoundCount(l.tasks, pk, l.pkgs[pk].meta);
  }

  lemma StepExact(k: Conf, l: Ledger, a: Act, pk: Pk)
    requires Enabled(k, l, a) && Shape(l) && Counts(l, pk) && Exact(l, pk)
    requires Failing(Changed(l.All(), ChangeOf(k, l, a)), pk)
    ensures
      var l' := Do(k, l, a);
      && RowFails(l', pk)
      && (Attempts(l'.tasks, pk) == Weigh(l'.All(), SavedOf(pk)) <==> NoneOvertaken(l'.All(), pk))
  {
    FailingBefore(k, l, a, pk);
    StepRowFails(k, l, a, pk);
    StepShape(k, l, a);
    SavedChange(k, l, a, pk);
    OvertakenChange(k, l, a, pk);
    if StoresOf(k, l, a, pk) {
      StoreCount(k, l, a, pk);
    } else {
      RowUntouched(k, l, a, pk);
    }
  }

  // ---------------------------------------------------------------- how far past MAX_ATTEMPTS

  /** How far a count is past MAX_ATTEMPTS - 1. */
  function Excess(k: Conf, n: nat): nat
    requires k.max > 0
  {
    if n < k.max then 0 else n - (k.max - 1)
  }

  /** While the broker row is there, no count exceeds MAX_ATTEMPTS - 1 by more than the number of saves that
      have reached it and whose acknowledgement has not happened (yet, or ever: their monitor died). */
  ghost predicate Bounded(k: Conf, l: Ledger, pk: Pk) {
    k.max > 0 && pk in l.rows ==> UpTo(l.tasks, l.All(), pk, k.max - 1 + Weigh(l.All(), OwedOf(pk)))
  }

  /** While the package keeps failing and no save of it was overtaken, the excess is exactly that number. */
  ghost predicate OwedExactly(k: Conf, l: Ledger, pk: Pk) {
    k.max > 0 && pk in l.rows && Failing(l.All(), pk) && NoneOvertaken(l.All(), pk) ==>
      Weigh(l.All(), OwedOf(pk)) == Excess(k, Attempts(l.tasks, pk))
  }

  /** How one step changes the number of saves of pk owing an acknowledgement. */
  function OwedDelta(k: Conf, l: Ledger, a: Act, pk: Pk): int
    requires Enabled(k, l, a)
  {
    if a.Write? && a.d.pk == pk && Owes(Marked(k, l.pkgs, l.tasks, a.d, a.writes)) then 1
    else if a.AckMax? && a.d.pk == pk then -1
    else 0
  }

  lemma OwedSwap(k: Conf, l: Ledger, a: Act, pk: Pk)
    requires Enabled(k, l, a) && Shape(l) && ChangeOf(k, l, a).Swap?
    ensures
      var c := ChangeOf(k, l, a);
      OwedOf(pk)(c.new_) == OwedOf(pk)(c.old_) + OwedDelta(k, l, a, pk)
  {
    SameDelivery(k, l, a);
    assert Sound(l.clock, l.pkgs, ChangeOf(k, l, a).old_);
  }

  lemma OwedOther(k: Conf, l: Ledger, a: Act, pk: Pk)
    requires Enabled(k, l, a) && !ChangeOf(k, l, a).Swap?
    ensures OwedDelta(k, l, a, pk) == 0
    ensures ChangeOf(k, l, a).Fresh? ==> OwedOf(pk)(ChangeOf(k, l, a).new_) == 0
  {
  }

  lemma OwedChange(k: Conf, l: Ledger, a: Act, pk: Pk)
    requires Enabled(k, l, a) && Shape(l)
    ensures Weigh(Do(k, l, a).All(), OwedOf(pk)) == Weigh(l.All(), OwedOf(pk)) + OwedDelta(k, l, a, pk)
  {
    StepWeight(k, l, a, OwedOf(pk));
    if ChangeOf(k, l, a).Swap? {
      OwedSwap(k, l, a, pk);
    } else {
      OwedOther(k, l, a, pk);
    }
  }

  lemma NeverGranted(l: Ledger, pk: Pk)
    requires Shape(l) && pk !in l.pkgs
    ensures forall d :: d in l.All() ==> d.pk != pk
  {
    forall d | d in l.All()
      ensures d.pk != pk
    {
      assert Sound(l.clock, l.pkgs, d);
    }
  }

  /** What a save marks its delivery with. */
  lemma MarkIsCount(k: Conf, l: Ledger, a: Act, pk: Pk)
    requires Enabled(k, l, a) && k.max > 0 && StoresOf(k, l, a, pk) && Open(a.d.mark.found)
    ensures OwedDelta(k, l, a, pk) == if CountOf(a.d.mark.found) + 1 >= k.max then 1 else 0
  {
  }

  /** While the row stays in the broker nothing is acknowledged, and only a save can come to owe it. */
  lemma DeltaWhileThere(k: Conf, l: Ledger, a: Act, pk: Pk)
    requires Enabled(k, l, a) && pk in Do(k, l, a).rows
    ensures OwedDelta(k, l, a, pk) >= 0
    ensures !StoresOf(k, l, a, pk) ==> OwedDelta(k, l, a, pk) == 0
  {
  }

  lemma BeforeEnqueue(k: Conf, l: Ledger, a: Act, pk: Pk)
    requires Enabled(k, l, a) && Shape(l) && pk !in l.rows && pk in Do(k, l, a).rows
    ensures Weigh(l.All(), OwedOf(pk)) == 0 && Attempts(l.tasks, pk) == 0 && !StoresOf(k, l, a, pk)
    ensures FoundUpTo(l.All(), pk, 0)
  {
    RowsEnter(k, l, a, pk);
    NeverGranted(l, pk);
    WeighNone(l.All(), OwedOf(pk));
  }

  lemma StepBounded(k: Conf, l: Ledger, a: Act, pk: Pk)
    requires Enabled(k, l, a) && Shape(l) && Bounded(k, l, pk) && k.max > 0 && pk in Do(k, l, a).rows
    ensures UpTo(Do(k, l, a).tasks, Do(k, l, a).All(), pk, k.max - 1 + Weigh(Do(k, l, a).All(), OwedOf(pk)))
  {
    var n := k.max - 1 + Weigh(l.All(), OwedOf(pk));
    if pk !in l.rows {
      BeforeEnqueue(k, l, a, pk);
    }
    assert UpTo(l.tasks, l.All(), pk, n);
    OwedChange(k, l, a, pk);
    DeltaWhileThere(k, l, a, pk);
    TableChange(k, l, a, pk);
    StepFoundUpTo(k, l, a, pk, n);
    StepShape(k, l, a);
    if StoresOf(k, l, a, pk) && Open(a.d.mark.found) {
      assert a.d in l.All();
      MarkIsCount(k, l, a, pk);
    }
  }

  /** A save that was not overtaken raises the count by one, and is owed for exactly when that reaches the
      maximum. */
  lemma StoreOwed(k: Conf, l: Ledger, a: Act, pk: Pk)
    requires Enabled(k, l, a) && Shape(l) && RowFails(l, pk) && k.max > 0
    requires StoresOf(k, l, a, pk) && !Overtakes(k, l, a, pk)
    ensures Attempts(Do(k, l, a).tasks, pk) == Attempts(l.tasks, pk) + 1
    ensures OwedDelta(k, l, a, pk) == if Attempts(l.tasks, pk) + 1 >= k.max then 1 else 0
  {
    StoreCount(k, l, a, pk);
    TableChange(k, l, a, pk);
    MarkIsCount(k, l, a, pk);
  }

  lemma OtherOwed(k: Conf, l: Ledger, a: Act, pk: Pk)
    requires Enabled(k, l, a) && RowFails(l, pk) && !StoresOf(k, l, a, pk) && pk in Do(k, l, a).rows
    ensures Attempts(Do(k, l, a).tasks, pk) == Attempts(l.tasks, pk) && OwedDelta(k, l, a, pk) == 0
  {
    RowUntouched(k, l, a, pk);
    DeltaWhileThere(k, l, a, pk);
  }

  lemma StepOwedExactly(k: Conf, l: Ledger, a: Act, pk: Pk)
    requires Enabled(k, l, a) && Shape(l) && Exact(l, pk) && OwedExactly(k, l, pk)
    requires k.max > 0 && pk in Do(k, l, a).rows
    requires Failing(l.All(), pk) && NoneOvertaken(l.All(), pk) && !Overtakes(k, l, a, pk)
    ensures Weigh(Do(k, l, a).All(), OwedOf(pk)) == Excess(k, Attempts(Do(k, l, a).tasks, pk))
  {
    OwedChange(k, l, a, pk);
    if pk !in l.rows {
      BeforeEnqueue(k, l, a, pk);
    }
    if StoresOf(k, l, a, pk) {
      StoreOwed(k, l, a, pk);
    } else {
      OtherOwed(k, l, a, pk);
    }
  }

  // ---------------------------------------------------------------- after the row has gone

  lemma LiveUnsavedSwap(k: Conf, l: Ledger, a: Act, pk: Pk)
    requires Enabled(k, l, a) && Shape(l) && ChangeOf(k, l, a).Swap?
    ensures
      Weigh(Do(k, l, a).live, UnsavedOf(pk)) + (if a.Write? && a.d.pk == pk then 1 else 0) <=
        Weigh(l.live, UnsavedOf(pk))
  {
    var c := ChangeOf(k, l, a);
    SameDelivery(k, l, a);
    WeighSwap(l.live, c.old_, c.new_, UnsavedOf(pk));
    assert Sound(l.clock, l.pkgs, c.old_);
  }

  lemma LiveUnsavedOut(k: Conf, l: Ledger, a: Act, pk: Pk)
    requires Enabled(k, l, a) && Shape(l) && (a.Reject? || a.Close?)
    ensures
      Weigh(Do(k, l, a).live, UnsavedOf(pk)) + (if a.Reject? && a.d.pk == pk then 1 else 0) <=
        Weigh(l.live, UnsavedOf(pk))
  {
    WeighOut(l.live, a.d, UnsavedOf(pk));
    assert a.d in l.All();
    assert Sound(l.clock, l.pkgs, a.d);
  }

  lemma LiveUnsavedGrant(k: Conf, l: Ledger, a: Act, pk: Pk)
    requires Enabled(k, l, a) && a.Grant?
    ensures Weigh(Do(k, l, a).live, UnsavedOf(pk)) == Weigh(l.live, UnsavedOf(pk)) + (if a.pk == pk then 1 else 0)
  {
    WeighIn(l.live, ChangeOf(k, l, a).new_, UnsavedOf(pk));
  }

  lemma LiveUnsavedLost(k: Conf, l: Ledger, a: Act, pk: Pk)
    requires Enabled(k, l, a) && a.Lose?
    ensures Weigh(Do(k, l, a).live, UnsavedOf(pk)) <= Weigh(l.live, UnsavedOf(pk))
  {
    WeighUnion(l.live - a.ds, a.ds, UnsavedOf(pk));
    assert l.live - a.ds + a.ds == l.live;
  }

  /** A save or a rejection is one less to come; only a grant is one more. */
  lemma LiveUnsavedChange(k: Conf, l: Ledger, a: Act, pk: Pk)
    requires Enabled(k, l, a) && Shape(l)
    ensures
      Weigh(Do(k, l, a).live, UnsavedOf(pk)) + (if (a.Write? || a.Reject?) && a.d.pk == pk then 1 else 0)
        <= Weigh(l.live, UnsavedOf(pk)) + (if a.Grant? && a.pk == pk then 1 else 0)
  {
    if a.Grant? {
      LiveUnsavedGrant(k, l, a, pk);
    } else if ChangeOf(k, l, a).Swap? {
      LiveUnsavedSwap(k, l, a, pk);
    } else if a.Reject? || a.Close? {
      LiveUnsavedOut(k, l, a, pk);
    } else if a.Lose? {
      LiveUnsavedLost(k, l, a, pk);
    }
  }

  /** The row has gone, and no count can pass the limit any more: every result still to be saved adds one
      at most. */
  ghost predicate Over(l: Ledger, pk: Pk, limit: int) {
    pk in l.pkgs && pk !in l.rows && UpTo(l.tasks, l.live, pk, limit - Weigh(l.live, UnsavedOf(pk)))
  }

  lemma StaysOut(k: Conf, l: Ledger, a: Act, pk: Pk)
    requires Enabled(k, l, a) && Shape(l) && pk in l.pkgs && pk !in l.rows
    ensures pk in Do(k, l, a).pkgs && pk !in Do(k, l, a).rows && !(a.Grant? && a.pk == pk)
  {
    Monotone(k, l, a);
  }

  /** Once the row has gone it stays gone, and so does every limit. */
  lemma StepAfterExit(k: Conf, l: Ledger, a: Act, pk: Pk, limit: int)
    requires Enabled(k, l, a) && Shape(l) && Over(l, pk, limit)
    ensures Over(Do(k, l, a), pk, limit)
  {
    StaysOut(k, l, a, pk);
    LiveUnsavedChange(k, l, a, pk);
    TableChange(k, l, a, pk);
    StepLiveFoundUpTo(k, l, a, pk, limit - Weigh(l.live, UnsavedOf(pk)));
  }

  // ---------------------------------------------------------------- the laws, over whole runs

  ghost predicate AttemptInv(k: Conf, l: Ledger, pk: Pk) {
    Counts(l, pk) && Exact(l, pk) && Bounded(k, l, pk) && OwedExactly(k, l, pk)
  }

  lemma StepAttemptInv(k: Conf, l: Ledger, a: Act, pk: Pk)
    requires Enabled(k, l, a) && Shape(l) && AttemptInv(k, l, pk)
    ensures AttemptInv(k, Do(k, l, a), pk)
  {
    StepShape(k, l, a);
    StepCounts(k, l, a, pk);
    if k.max > 0 && pk in Do(k, l, a).rows {
      StepBounded(k, l, a, pk);
    }
    if Failing(Changed(l.All(), ChangeOf(k, l, a)), pk) {
      StepExact(k, l, a, pk);
      if k.max > 0 && pk in Do(k, l, a).rows && NoneOvertaken(Changed(l.All(), ChangeOf(k, l, a)), pk) {
        FailingBefore(k, l, a, pk);
        OvertakenChange(k, l, a, pk);
        StepOwedExactly(k, l, a, pk);
      }
    }
  }

  lemma StartAttemptInv(k: Conf, pk: Pk)
    ensures AttemptInv(k, START, pk)
  {
    assert START.All() == multiset{};
  }

  lemma RunShape(k: Conf, tr: seq<Ledger>, i: nat)
    requires Run(k, tr) && i < |tr|
    ensures Shape(tr[i])
  {
    RunInv(k, tr, i);
  }

  lemma RunNext(k: Conf, tr: seq<Ledger>, i: nat)
    requires Run(k, tr) && 0 < i < |tr|
    ensures Next(k, tr[i - 1], tr[i])
  {
    assert Follows(k, tr, i);
  }

  lemma NextOver(k: Conf, l: Ledger, l': Ledger, pk: Pk, limit: int)
    requires Next(k, l, l') && Shape(l) && Over(l, pk, limit)
    ensures Over(l', pk, limit)
  {
    var a :| Enabled(k, l, a) && l' == Do(k, l, a);
    StepAfterExit(k, l, a, pk, limit);
  }

  /** What every step from a sound state keeps is kept along a run. */
  ghost predicate Kept(k: Conf, p: Ledger -> bool) {
    forall l, l' :: Next(k, l, l') && Shape(l) && p(l) ==> p(l')
  }

  predicate Passes<T>(s: seq<T>, n: nat, p: T -> bool)
    requires 0 < n < |s|
  {
    p(s[n - 1]) ==> p(s[n])
  }

  lemma {:induction false} PassedOn<T>(s: seq<T>, i: nat, j: nat, p: T -> bool)
    requires i <= j < |s| && p(s[i])
    requires forall n :: i < n <= j ==> Passes(s, n, p)
    ensures p(s[j])
    decreases j
  {
    if i < j {
      PassedOn(s, i, j - 1, p);
      assert Passes(s, j, p);
    }
  }

  lemma KeptOnce(k: Conf, l: Ledger, l': Ledger, p: Ledger -> bool)
    requires Kept(k, p) && Next(k, l, l') && Shape(l)
    ensures p(l) ==> p(l')
  {
  }

  lemma RunKeepsOnce(k: Conf, tr: seq<Ledger>, n: nat, p: Ledger -> bool)
    requires Run(k, tr) && 0 < n < |tr| && Kept(k, p)
    ensures Passes(tr, n, p)
  {
    RunShape(k, tr, n - 1);
    RunNext(k, tr, n);
    KeptOnce(k, tr[n - 1], tr[n], p);
  }

  lemma RunKeeps(k: Conf, tr: seq<Ledger>, i: nat, j: nat, p: Ledger -> bool)
    requires Run(k, tr) && i <= j < |tr| && Kept(k, p) && p(tr[i])
    ensures p(tr[j])
  {
    forall n | i < n <= j
      ensures Passes(tr, n, p)
    {
      RunKeepsOnce(k, tr, n, p);
    }
    PassedOn(tr, i, j, p);
  }

  lemma NextAttemptInv(k: Conf, l: Ledger, l': Ledger, pk: Pk)
    requires Next(k, l, l') && Shape(l) && AttemptInv(k, l, pk)
    ensures AttemptInv(k, l', pk)
  {
    var a :| Enabled(k, l, a) && l' == Do(k, l, a);
    StepAttemptInv(k, l, a, pk);
  }

  lemma RunAttemptInv(k: Conf, tr: seq<Ledger>, i: nat, pk: Pk)
    requires Run(k, tr) && i < |tr|
    ensures AttemptInv(k, tr[i], pk)
  {
    var p: Ledger -> bool := (l: Ledger) => AttemptInv(k, l, pk);
    forall l, l' | Next(k, l, l') && Shape(l) && p(l)
      ensures p(l')
    {
      NextAttemptInv(k, l, l', pk);
    }
    StartAttemptInv(k, pk);
    RunKeeps(k, tr, 0, i, p);
  }

  lemma RunAfterExit(k: Conf, tr: seq<Ledger>, i: nat, j: nat, pk: Pk, limit: int)
    requires Run(k, tr) && i <= j < |tr| && Over(tr[i], pk, limit)
    ensures Over(tr[j], pk, limit)
  {
    var p: Ledger -> bool := (l: Ledger) => Over(l, pk, limit);
    forall l, l' | Next(k, l, l') && Shape(l) && p(l)
      ensures p(l')
    {
      NextOver(k, l, l', pk, limit);
    }
    RunKeeps(k, tr, i, j, p);
  }

  ghost function LimitAtExit(k: Conf, l: Ledger, l': Ledger, pk: Pk): nat
    requires k.max > 0
  {
    k.max - 1 + Weigh(l.All(), OwedOf(pk)) + Weigh(l'.live, UnsavedOf(pk))
  }

  /** The step that takes the row out stores nothing. */
  lemma OverAtExit(k: Conf, l: Ledger, a: Act, pk: Pk)
    requires Enabled(k, l, a) && Shape(l) && Bounded(k, l, pk) && k.max > 0
    requires pk in l.rows && pk !in Do(k, l, a).rows
    ensures Over(Do(k, l, a), pk, LimitAtExit(k, l, Do(k, l, a), pk))
  {
    var n := k.max - 1 + Weigh(l.All(), OwedOf(pk));
    Monotone(k, l, a);
    TableChange(k, l, a, pk);
    forall d | d in l.live && d.pk == pk && d.mark.Looked?
      ensures CountOf(d.mark.found) <= n
    {
      assert d in l.All();
    }
    StepLiveFoundUpTo(k, l, a, pk, n);
  }

  lemma RunOverAtExit(k: Conf, tr: seq<Ledger>, i: nat, pk: Pk)
    requires Run(k, tr) && i + 1 < |tr| && k.max > 0
    requires pk in tr[i].rows && pk !in tr[i + 1].rows
    ensures Over(tr[i + 1], pk, LimitAtExit(k, tr[i], tr[i + 1], pk))
  {
    RunAttemptInv(k, tr, i, pk);
    RunShape(k, tr, i);
    var a := RunStep(k, tr, i + 1);
    OverAtExit(k, tr[i], a, pk);
  }

  /** The row leaves in the step from i to i + 1. From then on attempt_count never exceeds
      MAX_ATTEMPTS - 1, plus the saves that had reached it and were not acknowledged, plus the
      deliveries then in flight. AttemptLimit says when that is the plain bound. */
  lemma AttemptsAfterExit(k: Conf, tr: seq<Ledger>, i: nat, j: nat, pk: Pk)
    requires Run(k, tr) && i < j < |tr| && k.max > 0
    requires pk in tr[i].rows && pk !in tr[i + 1].rows
    ensures Attempts(tr[j].tasks, pk) <=
      k.max - 1 + Weigh(tr[i].All(), OwedOf(pk)) + Weigh(tr[i + 1].live, UnsavedOf(pk))
  {
    RunOverAtExit(k, tr, i, pk);
    RunAfterExit(k, tr, i + 1, j, pk, LimitAtExit(k, tr[i], tr[i + 1], pk));
  }

  // ---------------------------------------------------------------- deliveries monitored in time

  /** Every delivery still under way was granted less than RETRY ago (or exactly, for the ORM). */
  ghost predicate Prompt(k: Conf, l: Ledger) {
    forall d :: d in l.live ==> !Apart(k, d.granted, l.clock)
  }

  ghost predicate PromptRun(k: Conf, tr: seq<Ledger>) {
    Run(k, tr) && forall i :: 0 <= i < |tr| ==> Prompt(k, tr[i])
  }

  /** A live delivery is the latest of its package, and the only live one. */
  lemma NoOverlap(k: Conf, l: Ledger, d: Delivery, e: Delivery)
    requires Inv(k, l) && Prompt(k, l)
    requires d in l.live && e in l.All() && d.pk == e.pk
    ensures e.tok <= d.tok
    ensures e in l.live ==> d == e && l.live[d] == 1
  {
    assert d in l.All();
    assert Sound(l.clock, l.pkgs, e) && Sound(l.clock, l.pkgs, d);
    if e.tok == d.tok {
      SoleHolder(l, d, e);
    }
  }
}
