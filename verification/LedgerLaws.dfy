/** What every run of the delivery protocol keeps: one place per delivery, spaced leases, no lost work. */
module LedgerLaws {
  import opened Bags
  import opened Options
  import opened TaskTable
  import opened Ledger

  // ---------------------------------------------------------------- every delivery in one place

  ghost function OnTok(t: nat): Delivery -> nat {
    (d: Delivery) => if d.tok == t then 1 else 0
  }

  /** Each token granted so far lies in exactly one place, each later one in none. */
  ghost predicate OnePlace(l: Ledger) {
    forall t: nat :: Weigh(l.All(), OnTok(t)) == if t < l.next then 1 else 0
  }

  lemma StepOneToken(k: Conf, l: Ledger, a: Act, t: nat)
    requires Enabled(k, l, a)
    ensures Weigh(Do(k, l, a).All(), OnTok(t)) == Weigh(l.All(), OnTok(t)) + (if a.Grant? && t == l.next then 1 else 0)
  {
    StepWeight(k, l, a, OnTok(t));
    if ChangeOf(k, l, a).Swap? {
      SameDelivery(k, l, a);
    }
  }

  lemma NextToken(k: Conf, l: Ledger, a: Act)
    requires Enabled(k, l, a)
    ensures Do(k, l, a).next == l.next + (if a.Grant? then 1 else 0)
  {
  }

  lemma StepOnePlace(k: Conf, l: Ledger, a: Act)
    requires Enabled(k, l, a) && OnePlace(l)
    ensures OnePlace(Do(k, l, a))
  {
    forall t: nat
      ensures Weigh(Do(k, l, a).All(), OnTok(t)) == if t < Do(k, l, a).next then 1 else 0
    {
      StepOneToken(k, l, a, t);
      NextToken(k, l, a);
    }
  }

  /** No token twice: a delivery occurs once, and no other delivery shares its token. */
  lemma SoleHolder(l: Ledger, d: Delivery, e: Delivery)
    requires OnePlace(l) && d in l.All() && e in l.All() && d.tok == e.tok
    ensures d == e && l.All()[d] == 1 && d.tok < l.next
  {
    WeighOut(l.All(), d, OnTok(d.tok));
    if d != e || l.All()[d] > 1 {
      WeighTwo(l.All(), d, e, OnTok(d.tok));
    }
  }

  // ---------------------------------------------------------------- facts about single deliveries

  predicate Sound(clock: int, pkgs: map<Pk, Package>, d: Delivery) {
    && d.pk in pkgs
    && d.granted <= clock
    && (d.stamp.Unstamped? ==> d.result.Pending?)
    && (d.result.Pending? ==> d.mark.Unsaved?)
    && (d.stamp.Stamped? ==> pkgs[d.pk].decodable)
    && (d.mark.Looked? && d.mark.found.Some? ==> d.mark.found.value.meta == pkgs[d.pk].meta)
  }

  ghost predicate AllSound(clock: int, pkgs: map<Pk, Package>, m: multiset<Delivery>) {
    forall d :: d in m ==> Sound(clock, pkgs, d)
  }

  ghost predicate Shape(l: Ledger) {
    && AllSound(l.clock, l.pkgs, l.All())
    && (forall pk :: pk in l.rows ==> pk in l.pkgs)
    && (forall id :: id in l.tasks ==> id in l.pkgs && l.tasks[id].meta == l.pkgs[id].meta)
  }

  /** A delivery that is rewritten keeps its identity, and was live. */
  lemma SameDelivery(k: Conf, l: Ledger, a: Act)
    requires Enabled(k, l, a) && ChangeOf(k, l, a).Swap?
    ensures
      var c := ChangeOf(k, l, a);
      c.old_ in l.live && c.old_ in l.All() &&
      c.new_.tok == c.old_.tok && c.new_.pk == c.old_.pk && c.new_.granted == c.old_.granted
  {
  }

  lemma NewSound(k: Conf, l: Ledger, a: Act)
    requires Enabled(k, l, a) && Shape(l)
    ensures ChangeOf(k, l, a).Fresh? ==> Sound(l.clock, l.pkgs, ChangeOf(k, l, a).new_)
    ensures ChangeOf(k, l, a).Swap? ==> Sound(l.clock, l.pkgs, ChangeOf(k, l, a).new_)
  {
    var c := ChangeOf(k, l, a);
    if c.Swap? {
      SameDelivery(k, l, a);
      assert Sound(l.clock, l.pkgs, c.old_);
    }
  }

  /** The clock never goes back and a package, once enqueued, never changes. */
  lemma Monotone(k: Conf, l: Ledger, a: Act)
    requires Enabled(k, l, a)
    ensures l.clock <= Do(k, l, a).clock && l.next <= Do(k, l, a).next
    ensures forall pk :: pk in l.pkgs ==> pk in Do(k, l, a).pkgs && Do(k, l, a).pkgs[pk] == l.pkgs[pk]
  {
  }

  lemma SoundGrows(clock: int, pkgs: map<Pk, Package>, clock': int, pkgs': map<Pk, Package>, m: multiset<Delivery>,
      c: Change)
    requires AllSound(clock, pkgs, m) && clock <= clock'
    requires forall pk :: pk in pkgs ==> pk in pkgs' && pkgs'[pk] == pkgs[pk]
    requires !c.Same? ==> Sound(clock, pkgs, c.new_)
    ensures AllSound(clock', pkgs', Changed(m, c))
  {
    forall d | d in Changed(m, c)
      ensures Sound(clock', pkgs', d)
    {
      assert Sound(clock, pkgs, d);
    }
  }

  lemma StepShapeKept(k: Conf, l: Ledger, a: Act)
    requires Enabled(k, l, a) && Shape(l)
    ensures AllSound(Do(k, l, a).clock, Do(k, l, a).pkgs, Do(k, l, a).All())
  {
    var l' := Do(k, l, a);
    NewSound(k, l, a);
    Monotone(k, l, a);
    SoundGrows(l.clock, l.pkgs, l'.clock, l'.pkgs, l.All(), ChangeOf(k, l, a));
    StepShape(k, l, a);
  }

  lemma StepRowsKept(k: Conf, l: Ledger, a: Act)
    requires Enabled(k, l, a) && Shape(l)
    ensures forall pk :: pk in Do(k, l, a).rows ==> pk in Do(k, l, a).pkgs
  {
  }

  lemma StepTasksKept(k: Conf, l: Ledger, a: Act)
    requires Enabled(k, l, a) && Shape(l)
    ensures forall id :: id in Do(k, l, a).tasks ==>
      id in Do(k, l, a).pkgs && Do(k, l, a).tasks[id].meta == Do(k, l, a).pkgs[id].meta
  {
    Monotone(k, l, a);
    var t, t' := l.tasks, Do(k, l, a).tasks;
    forall id | id in t'
      ensures id in l.pkgs && t'[id].meta == l.pkgs[id].meta
    {
      TaskRowOrigin(k, l, a, id);
    }
  }

  lemma TaskRowOrigin(k: Conf, l: Ledger, a: Act, id: Id)
    requires Enabled(k, l, a) && Shape(l) && id in Do(k, l, a).tasks
    ensures
      || (id in l.tasks && Do(k, l, a).tasks[id].meta == l.tasks[id].meta)
      || (id in l.pkgs && Do(k, l, a).tasks[id].meta == l.pkgs[id].meta)
  {
    if a.Write? {
      assert a.d in l.All() && Sound(l.clock, l.pkgs, a.d);
    }
  }

  // ---------------------------------------------------------------- leases

  /** The later of two grants came no sooner than RETRY after the earlier one. */
  predicate Apart(k: Conf, g: int, h: int) {
    g + k.retry < h || (!k.strict && g + k.retry == h)
  }

  /** A row is locked at least until RETRY after each grant of it. */
  ghost predicate Leased(k: Conf, m: multiset<Delivery>, rows: map<Pk, int>) {
    forall d :: d in m && d.pk in rows ==> d.granted + k.retry <= rows[d.pk]
  }

  ghost predicate Spaced(k: Conf, m: multiset<Delivery>) {
    forall d, e :: d in m && e in m && d.pk == e.pk && d.tok < e.tok ==> Apart(k, d.granted, e.granted)
  }

  /** A lock value only ever changes by growing: a compare-and-set never meets an old value again. */
  lemma LocksGrow(k: Conf, l: Ledger, a: Act, pk: Pk)
    requires Enabled(k, l, a) && Shape(l)
    requires pk in l.rows && pk in Do(k, l, a).rows
    ensures l.rows[pk] <= Do(k, l, a).rows[pk]
    ensures l.rows[pk] == Do(k, l, a).rows[pk] || (a.Grant? && a.pk == pk && Do(k, l, a).rows[pk] == l.clock + k.retry)
    ensures a.Grant? && a.pk == pk && (k.strict || k.retry > 0) ==> l.rows[pk] < Do(k, l, a).rows[pk]
  {
  }

  /** A row that was not there before is a new package, never granted. */
  lemma RowsEnter(k: Conf, l: Ledger, a: Act, pk: Pk)
    requires Enabled(k, l, a)
    requires pk !in l.rows && pk in Do(k, l, a).rows
    ensures pk !in l.pkgs && ChangeOf(k, l, a).Same?
  {
  }

  /** A delivery after the step is one of before, up to stamp, result and mark, or the fresh one. */
  lemma Origin(m: multiset<Delivery>, c: Change, d: Delivery) returns (o: Delivery)
    requires d in Changed(m, c)
    requires c.Swap? ==>
      c.old_ in m && c.new_.tok == c.old_.tok && c.new_.pk == c.old_.pk && c.new_.granted == c.old_.granted
    ensures o.tok == d.tok && o.pk == d.pk && o.granted == d.granted
    ensures o in m || (c.Fresh? && o == d == c.new_)
  {
    o := if c.Swap? && d == c.new_ then c.old_ else d;
  }

  lemma LeasedChange(k: Conf, l: Ledger, a: Act)
    requires Enabled(k, l, a) && Shape(l) && Leased(k, l.All(), l.rows)
    ensures Leased(k, Changed(l.All(), ChangeOf(k, l, a)), Do(k, l, a).rows)
  {
    var c := ChangeOf(k, l, a);
    var rows' := Do(k, l, a).rows;
    if c.Swap? { SameDelivery(k, l, a); }
    forall d | d in Changed(l.All(), c) && d.pk in rows'
      ensures d.granted + k.retry <= rows'[d.pk]
    {
      var o := Origin(l.All(), c, d);
      if o in l.All() {
        assert Sound(l.clock, l.pkgs, o);
        if d.pk in l.rows {
          LocksGrow(k, l, a, d.pk);
        } else {
          RowsEnter(k, l, a, d.pk);
        }
      }
    }
  }

  lemma SpacedChange(k: Conf, m: multiset<Delivery>, c: Change)
    requires Spaced(k, m)
    requires c.Swap? ==>
      c.old_ in m && c.new_.tok == c.old_.tok && c.new_.pk == c.old_.pk && c.new_.granted == c.old_.granted
    requires c.Fresh? ==> forall d :: d in m ==>
      d.tok < c.new_.tok && (d.pk == c.new_.pk ==> Apart(k, d.granted, c.new_.granted))
    ensures Spaced(k, Changed(m, c))
  {
    forall d, e | d in Changed(m, c) && e in Changed(m, c) && d.pk == e.pk && d.tok < e.tok
      ensures Apart(k, d.granted, e.granted)
    {
      var o := Origin(m, c, d);
      var p := Origin(m, c, e);
    }
  }

  lemma FreshIsApart(k: Conf, l: Ledger, a: Act, d: Delivery)
    requires Enabled(k, l, a) && a.Grant? && OnePlace(l) && Leased(k, l.All(), l.rows)
    requires d in l.All()
    ensures d.tok < l.next && (d.pk == a.pk ==> Apart(k, d.granted, l.clock))
  {
    SoleHolder(l, d, d);
  }

  lemma StepSpaced(k: Conf, l: Ledger, a: Act)
    requires Enabled(k, l, a) && OnePlace(l) && Shape(l) && Leased(k, l.All(), l.rows) && Spaced(k, l.All())
    ensures Leased(k, Do(k, l, a).All(), Do(k, l, a).rows) && Spaced(k, Do(k, l, a).All())
  {
    StepShape(k, l, a);
    LeasedChange(k, l, a);
    var c := ChangeOf(k, l, a);
    if c.Swap? { SameDelivery(k, l, a); }
    if c.Fresh? {
      forall d | d in l.All()
        ensures d.tok < c.new_.tok && (d.pk == c.new_.pk ==> Apart(k, d.granted, c.new_.granted))
      {
        FreshIsApart(k, l, a, d);
      }
    }
    SpacedChange(k, l.All(), c);
  }

  // ---------------------------------------------------------------- no unfinished task is dropped

  /** A success, a failure with ack_failure, or a save that left attempt_count at the maximum. */
  predicate Finishes(k: Conf, pkgs: map<Pk, Package>, d: Delivery) {
    && d.pk in pkgs && d.result.Finished?
    && (d.result.out.success || pkgs[d.pk].ackFailure || (d.mark.Saved? && k.max > 0 && d.mark.count >= k.max))
  }

  /** A monitored result that entitles the cluster to remove the broker row: it succeeded, or has
      ack_failure, or its save left attempt_count at MAX_ATTEMPTS or more. */
  predicate Entitles(k: Conf, pkgs: map<Pk, Package>, d: Delivery) {
    Finishes(k, pkgs, d) && (d.mark.Skipped? || d.mark.Saved?)
  }

  ghost predicate Entitled(k: Conf, l: Ledger, pk: Pk) {
    exists d :: d in l.All() && d.pk == pk && Entitles(k, l.pkgs, d)
  }

  ghost predicate Refused(l: Ledger, pk: Pk) {
    exists d :: d in l.rejected && d.pk == pk && pk in l.pkgs && !l.pkgs[pk].decodable
  }

  /** Every package ever enqueued is still in the broker, or left it for one of the two reasons. */
  ghost predicate NoneDropped(k: Conf, l: Ledger) {
    forall pk :: pk in l.pkgs ==> pk in l.rows || Entitled(k, l, pk) || Refused(l, pk)
  }

  predicate Owes(d: Delivery) {
    d.mark.Saved? && d.mark.owes
  }

  ghost predicate OwedAtMax(k: Conf, m: multiset<Delivery>) {
    forall d :: d in m && Owes(d) ==> k.max > 0 && d.mark.count >= k.max
  }

  lemma StepOwedAtMax(k: Conf, l: Ledger, a: Act)
    requires Enabled(k, l, a) && OwedAtMax(k, l.All())
    requires Shape(l)
    ensures OwedAtMax(k, Changed(l.All(), ChangeOf(k, l, a)))
  {
    var c := ChangeOf(k, l, a);
    if c.Swap? {
      SameDelivery(k, l, a);
      assert Sound(l.clock, l.pkgs, c.old_);
    }
  }

  lemma RemovalIsEntitled(k: Conf, l: Ledger, a: Act, pk: Pk)
    requires Enabled(k, l, a) && Shape(l) && OwedAtMax(k, l.All())
    requires pk in l.rows && pk !in Do(k, l, a).rows
    ensures (a.Reject? && a.d.pk == pk) ||
      ((a.AckMax? || a.Close?) && a.d in l.live && a.d.pk == pk && Entitles(k, l.pkgs, a.d))
  {
    if a.AckMax? || a.Close? {
      assert a.d in l.All();
      assert Sound(l.clock, l.pkgs, a.d);
    }
  }

  lemma SettledStillEntitles(k: Conf, l: Ledger, a: Act)
    requires Enabled(k, l, a) && Shape(l) && ChangeOf(k, l, a).Swap?
    requires Entitles(k, l.pkgs, ChangeOf(k, l, a).old_)
    ensures Entitles(k, l.pkgs, ChangeOf(k, l, a).new_) && ChangeOf(k, l, a).new_.pk == ChangeOf(k, l, a).old_.pk
  {
    SameDelivery(k, l, a);
    assert Sound(l.clock, l.pkgs, ChangeOf(k, l, a).old_);
  }

  lemma InChanged(m: multiset<Delivery>, c: Change, d: Delivery)
    ensures d in m && !(c.Swap? && c.old_ == d) ==> d in Changed(m, c)
    ensures c.Swap? ==> c.new_ in Changed(m, c)
  {
  }

  /** A delivery that entitles stays entitling wherever it moves. */
  lemma EntitlingStays(k: Conf, l: Ledger, a: Act, d: Delivery) returns (d': Delivery)
    requires Enabled(k, l, a) && Shape(l) && d in l.All() && Entitles(k, l.pkgs, d)
    ensures d' in Changed(l.All(), ChangeOf(k, l, a)) && d'.pk == d.pk && Entitles(k, Do(k, l, a).pkgs, d')
  {
    Monotone(k, l, a);
    var c := ChangeOf(k, l, a);
    InChanged(l.All(), c, d);
    d' := d;
    if c.Swap? && c.old_ == d {
      SettledStillEntitles(k, l, a);
      d' := c.new_;
    }
  }

  lemma RefusalStays(k: Conf, l: Ledger, a: Act, pk: Pk)
    requires Enabled(k, l, a)
    requires Refused(l, pk) || (a.Reject? && a.d.pk == pk)
    ensures Refused(Do(k, l, a), pk)
  {
    Monotone(k, l, a);
    if a.Reject? && a.d.pk == pk {
      assert a.d in Do(k, l, a).rejected;
    } else {
      var d :| d in l.rejected && d.pk == pk && pk in l.pkgs && !l.pkgs[pk].decodable;
      assert d in Do(k, l, a).rejected;
    }
  }

  lemma StepNoneDropped(k: Conf, l: Ledger, a: Act)
    requires Enabled(k, l, a) && Shape(l) && OwedAtMax(k, l.All()) && NoneDropped(k, l)
    ensures NoneDropped(k, Do(k, l, a))
  {
    var l' := Do(k, l, a);
    StepShape(k, l, a);
    forall pk | pk in l'.pkgs && pk !in l'.rows
      ensures Entitled(k, l', pk) || Refused(l', pk)
    {
      if pk in l.rows {
        RemovalIsEntitled(k, l, a, pk);
        if a.Reject? {
          RefusalStays(k, l, a, pk);
        } else {
          var d' := EntitlingStays(k, l, a, a.d);
        }
      } else {
        assert pk in l.pkgs by { OldPackage(k, l, a, pk); }
        if Refused(l, pk) {
          RefusalStays(k, l, a, pk);
        } else {
          var d :| d in l.All() && d.pk == pk && Entitles(k, l.pkgs, d);
          var d' := EntitlingStays(k, l, a, d);
        }
      }
    }
  }

  lemma OldPackage(k: Conf, l: Ledger, a: Act, pk: Pk)
    requires Enabled(k, l, a) && pk in Do(k, l, a).pkgs && pk !in Do(k, l, a).rows
    ensures pk in l.pkgs
  {
  }

  // ---------------------------------------------------------------- finished work is not delivered again

  /** A delivery that a step adds to the monitored ones takes its row along if it succeeded or its package has
      ack_failure, and leaves the row as it was otherwise. */
  lemma MonitoringDecidesRow(k: Conf, l: Ledger, a: Act, d: Delivery)
    requires Enabled(k, l, a) && Do(k, l, a).monitored[d] > l.monitored[d]
    ensures
      var rows, rows' := l.rows, Do(k, l, a).rows;
      && d.pk in l.pkgs && d.result.Finished?
      && (forall pk :: pk != d.pk ==> (pk in rows' <==> pk in rows))
      && (forall pk :: pk != d.pk && pk in rows ==> rows'[pk] == rows[pk])
      && if d.result.out.success || l.pkgs[d.pk].ackFailure then d.pk !in rows'
         else (d.pk in rows' <==> d.pk in rows) && (d.pk in rows ==> rows'[d.pk] == rows[d.pk])
  {
  }

  /** A save that reached the maximum and no longer owes its acknowledgement has had it. */
  ghost predicate SettledLeft(k: Conf, l: Ledger) {
    forall d :: d in l.All() && d.mark.Saved? && !d.mark.owes && k.max > 0 && d.mark.count >= k.max ==> d.pk !in l.rows
  }

  /** What was monitored and finishes its package has made it leave the broker. */
  ghost predicate FinishedLeft(k: Conf, l: Ledger) {
    forall d :: d in l.monitored && Finishes(k, l.pkgs, d) ==> d.pk !in l.rows
  }

  lemma StaysLeft(k: Conf, l: Ledger, a: Act, pk: Pk)
    requires Enabled(k, l, a) && pk in l.pkgs && pk !in l.rows
    ensures pk in Do(k, l, a).pkgs && pk !in Do(k, l, a).rows
  {
    Monotone(k, l, a);
  }

  lemma NewSettled(k: Conf, l: Ledger, a: Act)
    requires Enabled(k, l, a) && Shape(l) && ChangeOf(k, l, a).Swap?
    ensures
      var n := ChangeOf(k, l, a).new_;
      n.mark.Saved? && !n.mark.owes && k.max > 0 && n.mark.count >= k.max ==> a.AckMax? && n.pk !in Do(k, l, a).rows
  {
    SameDelivery(k, l, a);
    assert Sound(l.clock, l.pkgs, ChangeOf(k, l, a).old_);
  }

  lemma OldSettled(k: Conf, l: Ledger, a: Act, d: Delivery)
    requires Enabled(k, l, a) && Shape(l) && SettledLeft(k, l) && d in l.All()
    requires d.mark.Saved? && !d.mark.owes && k.max > 0 && d.mark.count >= k.max
    ensures d.pk !in Do(k, l, a).rows
  {
    assert Sound(l.clock, l.pkgs, d);
    StaysLeft(k, l, a, d.pk);
  }

  lemma StepSettledLeft(k: Conf, l: Ledger, a: Act)
    requires Enabled(k, l, a) && Shape(l) && SettledLeft(k, l)
    ensures SettledLeft(k, Do(k, l, a))
  {
    var c := ChangeOf(k, l, a);
    StepShape(k, l, a);
    forall d | d in Changed(l.All(), c) && d.mark.Saved? && !d.mark.owes && k.max > 0 && d.mark.count >= k.max
      ensures d.pk !in Do(k, l, a).rows
    {
      if c.Swap? && d == c.new_ {
        NewSettled(k, l, a);
      } else if d in l.All() {
        OldSettled(k, l, a, d);
      }
    }
  }

  lemma NewlyMonitored(k: Conf, l: Ledger, a: Act, d: Delivery)
    requires Enabled(k, l, a) && d in Do(k, l, a).monitored && d !in l.monitored
    ensures a.Close? && a.d == d && d in l.live && d in l.All() && !Owes(d)
  {
  }

  lemma StepFinishedLeft(k: Conf, l: Ledger, a: Act)
    requires Enabled(k, l, a) && Shape(l) && SettledLeft(k, l) && FinishedLeft(k, l)
    ensures FinishedLeft(k, Do(k, l, a))
  {
    Monotone(k, l, a);
    forall d | d in Do(k, l, a).monitored && Finishes(k, Do(k, l, a).pkgs, d)
      ensures d.pk !in Do(k, l, a).rows
    {
      if d in l.monitored {
        assert d in l.All() && Sound(l.clock, l.pkgs, d);
        StaysLeft(k, l, a, d.pk);
      } else {
        NewlyMonitored(k, l, a, d);
        assert Sound(l.clock, l.pkgs, d);
        MonitoringDecidesRow(k, l, a, d);
        if d.pk !in l.rows {
          StaysLeft(k, l, a, d.pk);
        }
      }
    }
  }

  // ---------------------------------------------------------------- what is saved, and what is not

  /** Results of a cached package are not for the Task table, nor are its successes unless they are to be kept. */
  predicate ForTable(k: Conf, pkgs: map<Pk, Package>, pk: Pk, success: bool) {
    && pk in pkgs && !pkgs[pk].cached
    && (success ==> pkgs[pk].save == Some(true) || (pkgs[pk].save.None? && k.saveByDefault))
  }

  ghost predicate OnlyKeptSaved(k: Conf, l: Ledger) {
    && (forall id :: id in l.tasks ==> ForTable(k, l.pkgs, id, l.tasks[id].out.success))
    && (forall d :: d in l.All() && (d.mark.Looked? || d.mark.Saved?) ==>
         d.result.Finished? && ForTable(k, l.pkgs, d.pk, d.result.out.success))
  }

  lemma SavedResultKept(k: Conf, l: Ledger, a: Act)
    requires Enabled(k, l, a) && Shape(l) && OnlyKeptSaved(k, l) && ChangeOf(k, l, a).Swap?
    ensures
      var n := ChangeOf(k, l, a).new_;
      n.mark.Looked? || n.mark.Saved? ==> n.result.Finished? && ForTable(k, l.pkgs, n.pk, n.result.out.success)
  {
    SameDelivery(k, l, a);
    assert Sound(l.clock, l.pkgs, ChangeOf(k, l, a).old_);
  }

  lemma SavedRowKept(k: Conf, l: Ledger, a: Act, id: Id)
    requires Enabled(k, l, a) && Shape(l) && OnlyKeptSaved(k, l) && id in Do(k, l, a).tasks
    ensures ForTable(k, l.pkgs, id, Do(k, l, a).tasks[id].out.success)
  {
    if a.Write? {
      assert a.d in l.All();
    }
  }

  lemma StepOnlyKeptSaved(k: Conf, l: Ledger, a: Act)
    requires Enabled(k, l, a) && Shape(l) && OnlyKeptSaved(k, l)
    ensures OnlyKeptSaved(k, Do(k, l, a))
  {
    var l', c := Do(k, l, a), ChangeOf(k, l, a);
    Monotone(k, l, a);
    StepShape(k, l, a);
    forall id | id in l'.tasks
      ensures ForTable(k, l'.pkgs, id, l'.tasks[id].out.success)
    {
      SavedRowKept(k, l, a, id);
    }
    forall d | d in Changed(l.All(), c) && (d.mark.Looked? || d.mark.Saved?)
      ensures d.result.Finished? && ForTable(k, l'.pkgs, d.pk, d.result.out.success)
    {
      if c.Swap? && d == c.new_ {
        SavedResultKept(k, l, a);
      }
    }
  }

  /** A result for the table, unless something raises: the monitor goes on with the row as it is. */
  lemma LookTells(k: Conf, l: Ledger, d: Delivery)
    requires Enabled(k, l, Look(d, true)) && Shape(l) && ForTable(k, l.pkgs, d.pk, d.result.out.success)
    ensures
      var found := if d.pk in l.tasks then Some(l.tasks[d.pk]) else None;
      Do(k, l, Look(d, true)) == l.(live := l.live - multiset{d} + multiset{d.(mark := Looked(found))})
  {
  }

  /** If that is still the row when it writes, a row that has succeeded is left alone; else it holds this result and
      counts one more. The delivery carries the count of the row, and owes the acknowledgement if and only if
      that is MAX_ATTEMPTS or more. */
  lemma WriteTells(k: Conf, l: Ledger, d: Delivery)
    requires Enabled(k, l, Write(d, true)) && Shape(l)
    requires d.mark == Looked(if d.pk in l.tasks then Some(l.tasks[d.pk]) else None)
    ensures
      var l' := Do(k, l, Write(d, true));
      && d.pk in l'.tasks
      && (if d.pk in l.tasks && l.tasks[d.pk].out.success then l'.tasks == l.tasks
          else l'.tasks == l.tasks[d.pk := Row(l.pkgs[d.pk].meta, d.result.out,
                                               (if d.pk in l.tasks then l.tasks[d.pk].attempts else 0) + 1)])
      && var n := l'.tasks[d.pk].attempts;
         l'.live == l.live - multiset{d} + multiset{d.(mark := Saved(n, 0 < k.max <= n, false))}
  {
  }

  /** An exception on the way is swallowed: before the get or at the write, the table stays as it is and the monitor
      goes on to its own rule. So it is with a result that is not for the table. */
  lemma SwallowedTells(k: Conf, l: Ledger, d: Delivery, reaches: bool)
    requires d.pk in l.pkgs && d.result.Finished?
    ensures
      Enabled(k, l, Look(d, reaches)) && (!reaches || !ForTable(k, l.pkgs, d.pk, d.result.out.success)) ==>
        Do(k, l, Look(d, reaches)) == l.(live := l.live - multiset{d} + multiset{d.(mark := Skipped)})
    ensures
      Enabled(k, l, Write(d, false)) ==>
        Do(k, l, Write(d, false)) == l.(live := l.live - multiset{d} + multiset{d.(mark := Skipped)})
  {
  }

  /** A pusher stamps the count it reads and one; where it reads none, or the lookup raises, one. */
  lemma StampTells(k: Conf, l: Ledger, d: Delivery, lookup: bool)
    requires Enabled(k, l, Stamp_(d, lookup))
    ensures
      var attempt := if lookup && d.pk in l.tasks then l.tasks[d.pk].attempts + 1 else 1;
      Do(k, l, Stamp_(d, lookup)).live == l.live - multiset{d} + multiset{d.(stamp := Stamped(attempt, lookup))}
  {
  }

  // ---------------------------------------------------------------- all of it, over whole runs

  ghost predicate Inv(k: Conf, l: Ledger) {
    && OnePlace(l) && Shape(l)
    && Leased(k, l.All(), l.rows) && Spaced(k, l.All())
    && OwedAtMax(k, l.All()) && NoneDropped(k, l)
    && SettledLeft(k, l) && FinishedLeft(k, l) && OnlyKeptSaved(k, l)
  }

  lemma StartInv(k: Conf)
    ensures Inv(k, START)
  {
    assert START.All() == multiset{};
    forall t: nat
      ensures Weigh(START.All(), OnTok(t)) == 0
    {
    }
  }

  lemma StepInv(k: Conf, l: Ledger, a: Act)
    requires Enabled(k, l, a) && Inv(k, l)
    ensures Inv(k, Do(k, l, a))
  {
    StepShape(k, l, a);
    StepOnePlace(k, l, a);
    StepShapeKept(k, l, a);
    StepRowsKept(k, l, a);
    StepTasksKept(k, l, a);
    StepSpaced(k, l, a);
    StepOwedAtMax(k, l, a);
    StepNoneDropped(k, l, a);
    StepSettledLeft(k, l, a);
    StepFinishedLeft(k, l, a);
    StepOnlyKeptSaved(k, l, a);
  }

  /** Whatever the interleaving and whichever processes die. */
  lemma {:induction false} RunInv(k: Conf, tr: seq<Ledger>, i: nat)
    requires Run(k, tr) && i < |tr|
    ensures Inv(k, tr[i])
  {
    if i == 0 {
      StartInv(k);
    } else {
      RunInv(k, tr, i - 1);
      var a := RunStep(k, tr, i);
      StepInv(k, tr[i - 1], a);
    }
  }

  // ---------------------------------------------------------------- an undecodable payload leaves

  /** Only what does not decode is rejected, and that takes its row along and no other. */
  lemma RejectionTakesRow(k: Conf, l: Ledger, a: Act, d: Delivery)
    requires Enabled(k, l, a) && Do(k, l, a).rejected[d] > l.rejected[d]
    ensures d.pk in l.pkgs && !l.pkgs[d.pk].decodable && d.stamp.Unstamped?
    ensures Do(k, l, a).rows == map pk | pk in l.rows && pk != d.pk :: l.rows[pk]
  {
  }

  ghost predicate RejectedLeft(l: Ledger) {
    forall d :: d in l.rejected ==> d.pk in l.pkgs && d.pk !in l.rows
  }

  lemma StepRejectedLeft(k: Conf, l: Ledger, a: Act)
    requires Enabled(k, l, a) && Shape(l) && RejectedLeft(l)
    ensures RejectedLeft(Do(k, l, a))
  {
    Monotone(k, l, a);
    forall d | d in Do(k, l, a).rejected
      ensures d.pk in Do(k, l, a).pkgs && d.pk !in Do(k, l, a).rows
    {
      if d in l.rejected {
        StaysLeft(k, l, a, d.pk);
      } else {
        RejectionTakesRow(k, l, a, d);
      }
    }
  }

  lemma RejectedOn(k: Conf, tr: seq<Ledger>, i: nat)
    requires Run(k, tr) && i + 1 < |tr| && RejectedLeft(tr[i])
    ensures RejectedLeft(tr[i + 1])
  {
    RunInv(k, tr, i);
    var a := RunStep(k, tr, i + 1);
    StepRejectedLeft(k, tr[i], a);
  }

  lemma {:induction false} RunRejectedLeft(k: Conf, tr: seq<Ledger>, i: nat)
    requires Run(k, tr) && i < |tr|
    ensures RejectedLeft(tr[i])
  {
    if i > 0 {
      RunRejectedLeft(k, tr, i - 1);
      RejectedOn(k, tr, i - 1);
    }
  }

  // ---------------------------------------------------------------- an expired lease is granted again

  /** The lock is RETRY after one of the row's grants, or lies no later than now if there has been none. */
  ghost predicate HeldBy(k: Conf, m: multiset<Delivery>, lock: int, clock: int, pk: Pk) {
    || (lock <= clock && forall d :: d in m ==> d.pk != pk)
    || exists d :: d in m && d.pk == pk && lock == d.granted + k.retry
  }

  ghost predicate LockedBy(k: Conf, l: Ledger, pk: Pk)
    requires pk in l.rows
  {
    HeldBy(k, l.All(), l.rows[pk], l.clock, pk)
  }

  ghost predicate AllLockedBy(k: Conf, l: Ledger) {
    forall pk :: pk in l.rows ==> LockedBy(k, l, pk)
  }

  /** After a step there is a delivery with the row and the grant of one from before. */
  lemma Onward(m: multiset<Delivery>, c: Change, o: Delivery) returns (d: Delivery)
    requires o in m
    requires c.Swap? ==> c.old_ in m && c.new_.pk == c.old_.pk && c.new_.granted == c.old_.granted
    ensures d in Changed(m, c) && d.pk == o.pk && d.granted == o.granted
  {
    d := if c.Swap? && o == c.old_ then c.new_ else o;
  }

  lemma HeldOn(k: Conf, m: multiset<Delivery>, c: Change, lock: int, clock: int, clock': int, pk: Pk)
    requires HeldBy(k, m, lock, clock, pk) && clock <= clock' && (c.Fresh? ==> c.new_.pk != pk)
    requires c.Swap? ==>
      c.old_ in m && c.new_.tok == c.old_.tok && c.new_.pk == c.old_.pk && c.new_.granted == c.old_.granted
    ensures HeldBy(k, Changed(m, c), lock, clock', pk)
  {
    if o :| o in m && o.pk == pk && lock == o.granted + k.retry {
      var d := Onward(m, c, o);
    } else {
      forall d | d in Changed(m, c)
        ensures d.pk != pk
      {
        var o := Origin(m, c, d);
      }
    }
  }

  lemma GrantedPk(k: Conf, l: Ledger, a: Act)
    requires Enabled(k, l, a) && ChangeOf(k, l, a).Fresh?
    ensures a.Grant? && ChangeOf(k, l, a).new_.pk == a.pk
  {
  }

  lemma StepLockedBy(k: Conf, l: Ledger, a: Act, pk: Pk)
    requires Enabled(k, l, a) && Shape(l) && pk in l.rows && pk in Do(k, l, a).rows && !(a.Grant? && a.pk == pk)
    requires LockedBy(k, l, pk)
    ensures LockedBy(k, Do(k, l, a), pk)
  {
    var c := ChangeOf(k, l, a);
    StepShape(k, l, a);
    Monotone(k, l, a);
    LocksGrow(k, l, a, pk);
    if c.Swap? {
      SameDelivery(k, l, a);
    } else if c.Fresh? {
      GrantedPk(k, l, a);
    }
    HeldOn(k, l.All(), c, l.rows[pk], l.clock, Do(k, l, a).clock, pk);
  }

  lemma GrantLockedBy(k: Conf, l: Ledger, pk: Pk)
    requires Enabled(k, l, Grant(pk))
    ensures LockedBy(k, Do(k, l, Grant(pk)), pk)
  {
    StepShape(k, l, Grant(pk));
    assert ChangeOf(k, l, Grant(pk)).new_ in Do(k, l, Grant(pk)).All();
  }

  lemma StepAllLockedBy(k: Conf, l: Ledger, a: Act)
    requires Enabled(k, l, a) && Shape(l) && AllLockedBy(k, l)
    ensures AllLockedBy(k, Do(k, l, a))
  {
    forall pk | pk in Do(k, l, a).rows
      ensures LockedBy(k, Do(k, l, a), pk)
    {
      if pk !in l.rows {
        RowsEnter(k, l, a, pk);
        NewLockedBy(k, l, a, pk);
      } else if a.Grant? && a.pk == pk {
        GrantLockedBy(k, l, pk);
      } else {
        StepLockedBy(k, l, a, pk);
      }
    }
  }

  lemma NewLockedBy(k: Conf, l: Ledger, a: Act, pk: Pk)
    requires Enabled(k, l, a) && Shape(l) && pk !in l.rows && pk in Do(k, l, a).rows
    ensures LockedBy(k, Do(k, l, a), pk)
  {
    StepShape(k, l, a);
    RowsEnter(k, l, a, pk);
    assert forall d :: d in l.All() ==> Sound(l.clock, l.pkgs, d);
  }

  lemma LockedOn(k: Conf, tr: seq<Ledger>, i: nat)
    requires Run(k, tr) && i + 1 < |tr| && AllLockedBy(k, tr[i])
    ensures AllLockedBy(k, tr[i + 1])
  {
    RunInv(k, tr, i);
    var a := RunStep(k, tr, i + 1);
    StepAllLockedBy(k, tr[i], a);
  }

  lemma {:induction false} RunAllLockedBy(k: Conf, tr: seq<Ledger>, i: nat)
    requires Run(k, tr) && i < |tr|
    ensures AllLockedBy(k, tr[i])
  {
    if i > 0 {
      RunAllLockedBy(k, tr, i - 1);
      LockedOn(k, tr, i - 1);
    }
  }

  /** A package in the broker can be granted again if and only if RETRY has run out since each of its grants,
      whatever has become of those deliveries; before the first, once its row has been put there. */
  lemma GrantedAgainAfterRetry(k: Conf, tr: seq<Ledger>, i: nat, pk: Pk)
    requires Run(k, tr) && i < |tr| && pk in tr[i].rows
    ensures
      var l := tr[i];
      if exists d :: d in l.All() && d.pk == pk then
        Enabled(k, l, Grant(pk)) <==> forall d :: d in l.All() && d.pk == pk ==> Free(k, d.granted + k.retry, l.clock)
      else l.rows[pk] <= l.clock && (Enabled(k, l, Grant(pk)) <==> Free(k, l.rows[pk], l.clock))
  {
    RunInv(k, tr, i);
    RunAllLockedBy(k, tr, i);
    assert LockedBy(k, tr[i], pk);
  }
}
