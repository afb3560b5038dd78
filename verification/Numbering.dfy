/**
 When every delivery is monitored within RETRY seconds of its grant: the n-th delivery of a package
 that keeps failing is stamped n, its save leaves attempt_count n, and there are MAX_ATTEMPTS of them.
 */
module Numbering {
  import opened Bags
  import opened Options
  import opened TaskTable
  import opened Ledger
  import opened LedgerLaws
  import opened AttemptBound

  // ---------------------------------------------------------------- where deliveries end

  ghost predicate Ended(l: Ledger) {
    && (forall d :: d in l.monitored ==> (d.mark.Skipped? || d.mark.Saved?) && !Owes(d))
    && (forall d :: d in l.rejected ==> d.pk in l.pkgs && !l.pkgs[d.pk].decodable)
  }

  lemma StepEnded(k: Conf, l: Ledger, a: Act)
    requires Enabled(k, l, a) && Ended(l)
    ensures Ended(Do(k, l, a))
  {
    Monotone(k, l, a);
  }

  lemma {:induction false} RunEnded(k: Conf, tr: seq<Ledger>, i: nat)
    requires Run(k, tr) && i < |tr|
    ensures Ended(tr[i])
  {
    if i > 0 {
      RunEnded(k, tr, i - 1);
      var a := RunStep(k, tr, i);
      StepEnded(k, tr[i - 1], a);
    }
  }

  // ---------------------------------------------------------------- handled in time, no save is overtaken

  /** What a monitor that has yet to write found is still what is there. */
  ghost predicate UpToDate(l: Ledger) {
    forall d :: d in l.live && d.mark.Looked? && Open(d.mark.found) ==> StillThere(l, d)
  }

  ghost predicate StillThere(l: Ledger, d: Delivery)
    requires d.mark.Looked?
  {
    d.pk in l.pkgs && Found(l.tasks, d.pk, l.pkgs[d.pk].meta) == d.mark.found
  }

  ghost predicate Orderly(l: Ledger, pk: Pk) {
    UpToDate(l) && NoneOvertaken(l.All(), pk)
  }

  /** The only live delivery of a package is the only one whose monitor can write its row. */
  lemma StoresOfItself(k: Conf, l: Ledger, a: Act, d: Delivery)
    requires Enabled(k, l, a) && Inv(k, l) && Prompt(k, l)
    requires d in l.live && d.mark.Looked? && d in Do(k, l, a).live
    ensures !StoresOf(k, l, a, d.pk)
  {
    if StoresOf(k, l, a, d.pk) {
      assert a.d in l.All() && d in l.All();
      NoOverlap(k, l, d, a.d);
    }
  }

  lemma StaysThere(k: Conf, l: Ledger, a: Act, d: Delivery)
    requires Enabled(k, l, a) && Shape(l) && d.mark.Looked? && Open(d.mark.found)
    requires StillThere(l, d) && !StoresOf(k, l, a, d.pk)
    ensures StillThere(Do(k, l, a), d)
  {
    Monotone(k, l, a);
    RowUntouched(k, l, a, d.pk);
  }

  lemma StepUpToDate(k: Conf, l: Ledger, a: Act)
    requires Enabled(k, l, a) && Inv(k, l) && Prompt(k, l) && UpToDate(l)
    ensures UpToDate(Do(k, l, a))
  {
    forall d | d in Do(k, l, a).live && d.mark.Looked? && Open(d.mark.found)
      ensures StillThere(Do(k, l, a), d)
    {
      LiveLookedOrigin(k, l, a, d);
      if d in l.live {
        StoresOfItself(k, l, a, d);
        StaysThere(k, l, a, d);
      }
    }
  }

  lemma StepOrderly(k: Conf, l: Ledger, a: Act, pk: Pk)
    requires Enabled(k, l, a) && Inv(k, l) && Prompt(k, l) && Orderly(l, pk)
    ensures Orderly(Do(k, l, a), pk)
  {
    StepUpToDate(k, l, a);
    StepShape(k, l, a);
    OvertakenChange(k, l, a, pk);
    if StoresOf(k, l, a, pk) && Open(a.d.mark.found) {
      assert StillThere(l, a.d);
    }
  }

  // ---------------------------------------------------------------- the premise about one package

  predicate Plain(d: Delivery) {
    (d.result.Finished? ==> !d.result.out.success) && !d.mark.Skipped? && (d.stamp.Stamped? ==> d.stamp.fromTable)
  }

  ghost predicate AllPlain(m: multiset<Delivery>, pk: Pk) {
    forall d :: d in m && d.pk == pk ==> Plain(d)
  }

  /** The package always fails, every result of it is saved, no stamp lookup raises, and no delivery
      of it is lost with a killed process. */
  ghost predicate Clean(l: Ledger, pk: Pk) {
    && (pk in l.pkgs ==> l.pkgs[pk].decodable)
    && AllPlain(l.All(), pk)
    && (forall d :: d in l.lost ==> d.pk != pk)
  }

  lemma PlainBefore(k: Conf, l: Ledger, a: Act)
    requires Enabled(k, l, a) && ChangeOf(k, l, a).Swap? && Shape(l)
    requires Plain(ChangeOf(k, l, a).new_)
    ensures Plain(ChangeOf(k, l, a).old_)
  {
    SameDelivery(k, l, a);
    assert Sound(l.clock, l.pkgs, ChangeOf(k, l, a).old_);
  }

  lemma LostBefore(k: Conf, l: Ledger, a: Act, pk: Pk)
    requires Enabled(k, l, a)
    requires forall d :: d in Do(k, l, a).lost ==> d.pk != pk
    ensures forall d :: d in l.lost ==> d.pk != pk
  {
    forall d | d in l.lost
      ensures d.pk != pk
    {
      assert d in Do(k, l, a).lost;
    }
  }

  lemma AllPlainBefore(m: multiset<Delivery>, c: Change, pk: Pk)
    requires AllPlain(Changed(m, c), pk)
    requires c.Swap? ==> c.new_.pk == c.old_.pk && (Plain(c.new_) ==> Plain(c.old_))
    ensures AllPlain(m, pk)
  {
    forall d | d in m && d.pk == pk
      ensures Plain(d)
    {
      if d !in Changed(m, c) {
        assert c.new_ in Changed(m, c);
      }
    }
  }

  lemma CleanBefore(k: Conf, l: Ledger, a: Act, pk: Pk)
    requires Enabled(k, l, a) && Shape(l) && Clean(Do(k, l, a), pk)
    ensures Clean(l, pk)
  {
    Monotone(k, l, a);
    LostBefore(k, l, a, pk);
    StepShape(k, l, a);
    var c := ChangeOf(k, l, a);
    if c.Swap? {
      SameDelivery(k, l, a);
      if Plain(c.new_) {
        PlainBefore(k, l, a);
      }
    }
    AllPlainBefore(l.All(), c, pk);
  }

  // ---------------------------------------------------------------- counting in one state

  lemma OnlyFirst(a: multiset<Delivery>, b: multiset<Delivery>, c: multiset<Delivery>, e: multiset<Delivery>,
      w: Delivery -> nat)
    requires forall d :: d in b || d in c || d in e ==> w(d) == 0
    ensures Weigh(a + b + c + e, w) == Weigh(a, w)
  {
    WeighUnion(a + b + c, e, w);
    WeighUnion(a + b, c, w);
    WeighUnion(a, b, w);
    WeighNone(b, w);
    WeighNone(c, w);
    WeighNone(e, w);
  }

  lemma NotLiveNotUnsaved(l: Ledger, pk: Pk)
    requires Ended(l) && Clean(l, pk)
    ensures Weigh(l.All(), UnsavedOf(pk)) == Weigh(l.live, UnsavedOf(pk))
  {
    OnlyFirst(l.live, l.monitored, l.rejected, l.lost, UnsavedOf(pk));
  }

  lemma NotLiveNotOwed(l: Ledger, pk: Pk)
    requires Ended(l) && Clean(l, pk)
    ensures Weigh(l.All(), OwedOf(pk)) == Weigh(l.live, OwedOf(pk))
  {
    OnlyFirst(l.live, l.monitored, l.rejected, l.lost, OwedOf(pk));
  }

  /** Every delivery of the package is saved, or still on its way to being saved. */
  lemma SavedOrUnderWay(l: Ledger, pk: Pk)
    requires Ended(l) && Clean(l, pk)
    ensures Weigh(l.All(), Of(pk)) == Weigh(l.All(), SavedOf(pk)) + Weigh(l.live, UnsavedOf(pk))
  {
    forall d | d in l.All()
      ensures Of(pk)(d) == SavedOf(pk)(d) + UnsavedOf(pk)(d)
    {
      assert d.pk == pk ==> Plain(d);
    }
    WeighSplit(l.All(), SavedOf(pk), UnsavedOf(pk), Of(pk));
    NotLiveNotUnsaved(l, pk);
  }

  lemma OneUnderWay(k: Conf, l: Ledger, d: Delivery)
    requires Inv(k, l) && Prompt(k, l) && d in l.live && (d.mark.Unsaved? || d.mark.Looked?)
    ensures Weigh(l.live, UnsavedOf(d.pk)) == 1
  {
    WeighOut(l.live, d, UnsavedOf(d.pk));
    var rest := l.live - multiset{d};
    forall e | e in rest
      ensures UnsavedOf(d.pk)(e) == 0
    {
      assert e in l.live && e in l.All();
      if e.pk == d.pk {
        NoOverlap(k, l, d, e);
      }
    }
    WeighNone(rest, UnsavedOf(d.pk));
  }

  lemma AllOthersBefore(k: Conf, l: Ledger, d: Delivery)
    requires Inv(k, l) && Prompt(k, l) && d in l.live
    ensures Weigh(l.All(), Of(d.pk)) == Weigh(l.All(), BeforeOf(d.pk, d.tok)) + 1
  {
    assert d in l.All();
    forall e | e in l.All()
      ensures Of(d.pk)(e) == BeforeOf(d.pk, d.tok)(e) + OnTok(d.tok)(e)
    {
      if e.pk == d.pk {
        NoOverlap(k, l, d, e);
      } else if e.tok == d.tok {
        SoleHolder(l, d, e);
      }
    }
    WeighSplit(l.All(), BeforeOf(d.pk, d.tok), OnTok(d.tok), Of(d.pk));
    SoleHolder(l, d, d);
  }

  /** The delivery under way finds in the table exactly the number of deliveries before it. */
  lemma TableCountsEarlier(k: Conf, l: Ledger, d: Delivery)
    requires Inv(k, l) && Prompt(k, l) && Ended(l) && Clean(l, d.pk)
    requires Exact(l, d.pk) && NoneOvertaken(l.All(), d.pk)
    requires d in l.live && (d.mark.Unsaved? || d.mark.Looked?)
    ensures Attempts(l.tasks, d.pk) == Weigh(l.All(), BeforeOf(d.pk, d.tok))
  {
    CleanIsFailing(l, d.pk);
    SavedOrUnderWay(l, d.pk);
    OneUnderWay(k, l, d);
    AllOthersBefore(k, l, d);
  }

  // ---------------------------------------------------------------- the numbering, kept by each step

  ghost predicate Nth(m: multiset<Delivery>, d: Delivery) {
    && (d.stamp.Stamped? ==> d.stamp.attempt == 1 + Weigh(m, BeforeOf(d.pk, d.tok)))
    && (d.mark.Saved? ==> d.stamp.Stamped? && d.mark.count == d.stamp.attempt)
  }

  ghost predicate Numbered(m: multiset<Delivery>, pk: Pk) {
    forall d :: d in m && d.pk == pk ==> Nth(m, d)
  }

  /** Later grants and rewrites leave the number of earlier deliveries alone. */
  lemma EarlierFixed(k: Conf, l: Ledger, a: Act, pk: Pk, tok: nat)
    requires Enabled(k, l, a) && tok < l.next
    ensures Weigh(Do(k, l, a).All(), BeforeOf(pk, tok)) == Weigh(l.All(), BeforeOf(pk, tok))
  {
    StepWeight(k, l, a, BeforeOf(pk, tok));
    if ChangeOf(k, l, a).Swap? {
      SameDelivery(k, l, a);
    }
  }

  lemma RewrittenNth(k: Conf, l: Ledger, a: Act)
    requires Enabled(k, l, a) && Inv(k, l) && Prompt(k, l) && Ended(l)
    requires ChangeOf(k, l, a).Swap?
    requires
      var o := ChangeOf(k, l, a).old_;
      Clean(l, o.pk) && Exact(l, o.pk) && Orderly(l, o.pk) && Nth(l.All(), o)
    requires Plain(ChangeOf(k, l, a).new_)
    ensures Nth(l.All(), ChangeOf(k, l, a).new_)
  {
    SameDelivery(k, l, a);
    var o := ChangeOf(k, l, a).old_;
    assert Sound(l.clock, l.pkgs, o);
    if a.Stamp_? || a.Write? {
      TableCountsEarlier(k, l, o);
    }
    if a.Write? {
      CleanIsFailing(l, o.pk);
      SaveMark(k, l, a);
    }
  }

  lemma SaveMark(k: Conf, l: Ledger, a: Act)
    requires Enabled(k, l, a) && a.Write? && Shape(l) && Failing(l.All(), a.d.pk)
    requires Exact(l, a.d.pk) && UpToDate(l)
    ensures
      var n := ChangeOf(k, l, a).new_;
      n.stamp == a.d.stamp && (n.mark.Saved? ==> n.mark.count == Attempts(l.tasks, a.d.pk) + 1)
  {
    assert a.d in l.All() && FoundFails(l, a.d) && StillThere(l, a.d);
    FoundCount(l.tasks, a.d.pk, l.pkgs[a.d.pk].meta);
  }

  lemma CleanIsFailing(l: Ledger, pk: Pk)
    requires Clean(l, pk)
    ensures Failing(l.All(), pk)
  {
    forall e | e in l.All() && e.pk == pk && e.result.Finished?
      ensures !e.result.out.success
    {
      assert Plain(e);
    }
  }

  lemma ChangedCases(m: multiset<Delivery>, c: Change, d: Delivery)
    requires d in Changed(m, c)
    ensures d in m || (!c.Same? && d == c.new_)
  {
  }

  lemma NewestIsFresh(k: Conf, l: Ledger, a: Act)
    requires Enabled(k, l, a) && Inv(k, l)
    ensures forall d :: d in Changed(l.All(), ChangeOf(k, l, a)) && d.tok == l.next ==>
      d.stamp.Unstamped? && d.mark.Unsaved?
  {
    var c := ChangeOf(k, l, a);
    if c.Swap? {
      SameDelivery(k, l, a);
      SoleHolder(l, c.old_, c.old_);
    }
    forall d | d in Changed(l.All(), c) && d.tok == l.next
      ensures d.stamp.Unstamped? && d.mark.Unsaved?
    {
      ChangedCases(l.All(), c, d);
      if d in l.All() {
        SoleHolder(l, d, d);
      }
    }
  }

  lemma NumberedChange(k: Conf, l: Ledger, a: Act, pk: Pk)
    requires Enabled(k, l, a) && Inv(k, l) && Prompt(k, l) && Ended(l)
    requires Clean(l, pk) && Exact(l, pk) && Orderly(l, pk) && Numbered(l.All(), pk)
    requires AllPlain(Changed(l.All(), ChangeOf(k, l, a)), pk)
    ensures forall d :: d in Changed(l.All(), ChangeOf(k, l, a)) && d.pk == pk ==> d.tok <= l.next && Nth(l.All(), d)
  {
    var c := ChangeOf(k, l, a);
    if c.Swap? {
      SameDelivery(k, l, a);
    }
    forall d | d in Changed(l.All(), c) && d.pk == pk
      ensures d.tok <= l.next && Nth(l.All(), d)
    {
      if c.Swap? && d == c.new_ {
        SoleHolder(l, c.old_, c.old_);
        RewrittenNth(k, l, a);
      } else if d in l.All() {
        SoleHolder(l, d, d);
      } else {
        ChangedCases(l.All(), c, d);
      }
    }
  }

  lemma StepNumbered(k: Conf, l: Ledger, a: Act, pk: Pk)
    requires Enabled(k, l, a) && Inv(k, l) && Prompt(k, l) && Ended(l)
    requires Clean(l, pk) && Exact(l, pk) && Orderly(l, pk) && Numbered(l.All(), pk)
    requires Clean(Do(k, l, a), pk)
    ensures Numbered(Do(k, l, a).All(), pk)
  {
    StepShape(k, l, a);
    NumberedChange(k, l, a, pk);
    NewestIsFresh(k, l, a);
    var m' := Do(k, l, a).All();
    forall d | d in m' && d.pk == pk
      ensures Nth(m', d)
    {
      if d.tok < l.next {
        EarlierFixed(k, l, a, pk, d.tok);
      }
    }
  }

  // ---------------------------------------------------------------- no more than MAX_ATTEMPTS deliveries

  ghost predicate Few(k: Conf, l: Ledger, pk: Pk) {
    k.max > 0 ==> Weigh(l.All(), Of(pk)) <= k.max
  }

  lemma LeaseHasExpired(k: Conf, l: Ledger, a: Act, d: Delivery)
    requires Enabled(k, l, a) && a.Grant? && Leased(k, l.All(), l.rows)
    requires d in l.live && d.pk == a.pk
    ensures Apart(k, d.granted, l.clock)
  {
    assert d in l.All();
  }

  /** A grant finds no delivery of the row under way: the one before must have been monitored. */
  lemma GrantFindsNone(k: Conf, l: Ledger, a: Act)
    requires Enabled(k, l, a) && a.Grant? && Leased(k, l.All(), l.rows) && Prompt(k, l)
    ensures forall d :: d in l.live ==> d.pk != a.pk
  {
    forall d | d in l.live
      ensures d.pk != a.pk
    {
      if d.pk == a.pk {
        LeaseHasExpired(k, l, a, d);
        assert false;
      }
    }
  }

  lemma GrantFew(k: Conf, l: Ledger, a: Act)
    requires Enabled(k, l, a) && a.Grant? && Inv(k, l) && Ended(l) && Clean(l, a.pk)
    requires AttemptInv(k, l, a.pk) && NoneOvertaken(l.All(), a.pk) && Prompt(k, l) && k.max > 0
    ensures Weigh(l.All(), Of(a.pk)) < k.max
  {
    GrantFindsNone(k, l, a);
    CleanIsFailing(l, a.pk);
    SavedOrUnderWay(l, a.pk);
    NotLiveNotOwed(l, a.pk);
    WeighNone(l.live, UnsavedOf(a.pk));
    WeighNone(l.live, OwedOf(a.pk));
  }

  lemma OfWeight(k: Conf, l: Ledger, a: Act, pk: Pk)
    requires Enabled(k, l, a)
    ensures Weigh(Do(k, l, a).All(), Of(pk)) == Weigh(l.All(), Of(pk)) + (if a.Grant? && a.pk == pk then 1 else 0)
  {
    StepWeight(k, l, a, Of(pk));
    if ChangeOf(k, l, a).Swap? {
      SameDelivery(k, l, a);
    }
  }

  lemma StepFew(k: Conf, l: Ledger, a: Act, pk: Pk)
    requires Enabled(k, l, a) && Inv(k, l) && Ended(l) && Clean(l, pk)
    requires AttemptInv(k, l, pk) && NoneOvertaken(l.All(), pk) && Few(k, l, pk) && Prompt(k, l)
    ensures Few(k, Do(k, l, a), pk)
  {
    OfWeight(k, l, a, pk);
    if a.Grant? && a.pk == pk && k.max > 0 {
      GrantFew(k, l, a);
    }
  }

  ghost predicate NumberInv(k: Conf, l: Ledger, pk: Pk) {
    Orderly(l, pk) && (Clean(l, pk) ==> Numbered(l.All(), pk) && Few(k, l, pk))
  }

  lemma NextNumberInv(k: Conf, l: Ledger, l': Ledger, pk: Pk)
    requires Next(k, l, l') && Inv(k, l) && Prompt(k, l) && Ended(l)
    requires AttemptInv(k, l, pk) && NumberInv(k, l, pk)
    ensures NumberInv(k, l', pk)
  {
    var a :| Enabled(k, l, a) && l' == Do(k, l, a);
    StepOrderly(k, l, a, pk);
    if Clean(l', pk) {
      CleanBefore(k, l, a, pk);
      StepNumbered(k, l, a, pk);
      StepFew(k, l, a, pk);
    }
  }

  /** What every step from a sound and prompt state keeps is kept along a prompt run. */
  ghost predicate KeptPromptly(k: Conf, pk: Pk, p: Ledger -> bool) {
    forall l, l' :: Next(k, l, l') && Inv(k, l) && Prompt(k, l) && Ended(l) && AttemptInv(k, l, pk) && p(l) ==> p(l')
  }

  lemma KeptOncePromptly(k: Conf, l: Ledger, l': Ledger, pk: Pk, p: Ledger -> bool)
    requires KeptPromptly(k, pk, p)
    requires Next(k, l, l') && Inv(k, l) && Prompt(k, l) && Ended(l) && AttemptInv(k, l, pk)
    ensures p(l) ==> p(l')
  {
  }

  lemma PromptlyOnce(k: Conf, tr: seq<Ledger>, i: nat, pk: Pk, p: Ledger -> bool)
    requires PromptRun(k, tr) && i + 1 < |tr| && KeptPromptly(k, pk, p)
    ensures Passes(tr, i + 1, p)
  {
    RunInv(k, tr, i);
    RunEnded(k, tr, i);
    RunAttemptInv(k, tr, i, pk);
    RunNext(k, tr, i + 1);
    KeptOncePromptly(k, tr[i], tr[i + 1], pk, p);
  }

  lemma StartNumberInv(k: Conf, pk: Pk)
    ensures NumberInv(k, START, pk)
  {
    assert START.All() == multiset{};
  }

  lemma PromptRunKeeps(k: Conf, tr: seq<Ledger>, i: nat, pk: Pk, p: Ledger -> bool)
    requires PromptRun(k, tr) && i < |tr| && KeptPromptly(k, pk, p) && p(START)
    ensures p(tr[i])
  {
    forall n | 0 < n <= i
      ensures Passes(tr, n, p)
    {
      PromptlyOnce(k, tr, n - 1, pk, p);
    }
    PassedOn(tr, 0, i, p);
  }

  lemma RunNumberInv(k: Conf, tr: seq<Ledger>, i: nat, pk: Pk)
    requires PromptRun(k, tr) && i < |tr|
    ensures NumberInv(k, tr[i], pk)
  {
    var p := (l: Ledger) => NumberInv(k, l, pk);
    forall l, l' | Next(k, l, l') && Inv(k, l) && Prompt(k, l) && Ended(l) && AttemptInv(k, l, pk) && p(l)
      ensures p(l')
    {
      NextNumberInv(k, l, l', pk);
    }
    StartNumberInv(k, pk);
    PromptRunKeeps(k, tr, i, pk, p);
  }

  /** When every delivery is handled in time, no save is overtaken by another. */
  lemma NoneOvertakenInTime(k: Conf, tr: seq<Ledger>, i: nat, pk: Pk)
    requires PromptRun(k, tr) && i < |tr|
    ensures NoneOvertaken(tr[i].All(), pk)
  {
    RunNumberInv(k, tr, i, pk);
  }

  /** The main result: deliveries do not overlap, the n-th is stamped n and saved as attempt n, and
      neither the deliveries nor attempt_count pass MAX_ATTEMPTS. */
  lemma StampedInOrder(k: Conf, tr: seq<Ledger>, i: nat, d: Delivery)
    requires PromptRun(k, tr) && i < |tr| && d in tr[i].All() && Clean(tr[i], d.pk)
    ensures forall e :: e in tr[i].live && d in tr[i].live && e.pk == d.pk ==> e == d
    ensures d.stamp.Stamped? ==> d.stamp.attempt == 1 + Weigh(tr[i].All(), BeforeOf(d.pk, d.tok))
    ensures d.mark.Saved? ==> d.stamp.Stamped? && d.mark.count == d.stamp.attempt
    ensures k.max > 0 ==> Attempts(tr[i].tasks, d.pk) <= Weigh(tr[i].All(), Of(d.pk)) <= k.max
  {
    RunInv(k, tr, i);
    RunNumberInv(k, tr, i, d.pk);
    RunAttemptInv(k, tr, i, d.pk);
    CleanIsFailing(tr[i], d.pk);
    WeighMono(tr[i].All(), SavedOf(d.pk), Of(d.pk));
    assert Nth(tr[i].All(), d);
    forall e | e in tr[i].live && d in tr[i].live && e.pk == d.pk
      ensures e == d
    {
      NoOverlap(k, tr[i], d, e);
    }
  }
}
