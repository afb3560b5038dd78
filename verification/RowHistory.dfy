/**
 One row of the Task table through any interleaving of monitors. A monitor finds the row with one statement
 and writes it with another; what other monitors write in between is lost.
 */
module RowHistory {
  import opened Options
  import opened TaskTable
  import opened SaveTask
  import opened SaveLimit

  /** Row id is there at each of the states i to j of a run. */
  ghost predicate ThereThrough(tr: seq<Monitors>, id: Id, i: nat, j: nat)
    requires i <= j < |tr|
  {
    forall n :: i <= n <= j ==> id in tr[n].table
  }

  // ---------------------------------------------------------------- a success, and who can still undo it

  /** The monitor found the row before it succeeded, and will write something else over it. */
  ghost predicate HoldsOld(s: Monitors, m: nat, id: Id) {
    && m < |s.phases| && s.phases[m].Looked? && s.phases[m].p.id == id
    && s.phases[m].found.Some? && Open(s.phases[m].found)
    && id in s.table && Own(s.phases[m].found, s.phases[m].p.meta, s.phases[m].p.out) != s.table[id]
  }

  ghost predicate NoneHoldsOld(s: Monitors, id: Id) {
    forall m: nat :: !HoldsOld(s, m, id)
  }

  /** A step changes a row that has succeeded, other than by pruning it, exactly when it is the write of a
      monitor that had found the row before. */
  lemma StepKeepsSuccess(conf: Conf, s: Monitors, st: Step, id: Id)
    requires Enabled(conf, s, st) && id in s.table && s.table[id].out.success && id in After(conf, s, st).table
    ensures After(conf, s, st).table[id] == s.table[id] <==> !(st.Write? && HoldsOld(s, st.m, id))
  {
    if st.Begin? {
      SuccessIsFinal(conf, s.table, st.p, id);
    }
  }

  /** A get that finds the success gives nobody a reason to write. */
  lemma StepKeepsNone(conf: Conf, s: Monitors, st: Step, id: Id)
    requires Enabled(conf, s, st) && id in s.table && s.table[id].out.success && id in After(conf, s, st).table
    requires NoneHoldsOld(s, id)
    ensures After(conf, s, st).table[id] == s.table[id] && NoneHoldsOld(After(conf, s, st), id)
  {
    StepKeepsSuccess(conf, s, st, id);
    var s' := After(conf, s, st);
    forall m: nat
      ensures !HoldsOld(s', m, id)
    {
      if HoldsOld(s', m, id) {
        assert s'.phases[m] == s.phases[m];
        assert HoldsOld(s, m, id);
      }
    }
  }

  /** Once successful, with no monitor holding the row as it was before: result, stop time and attempt_count
      never change for as long as the row exists, whatever is redelivered. */
  lemma {:induction false} SuccessStays(conf: Conf, metaOf: Id -> Meta, tr: seq<Monitors>, sts: seq<Step>, id: Id,
      i: nat, j: nat)
    requires Run(conf, metaOf, tr, sts) && i <= j < |tr| && ThereThrough(tr, id, i, j)
    requires tr[i].table[id].out.success && NoneHoldsOld(tr[i], id)
    ensures tr[j].table[id] == tr[i].table[id] && NoneHoldsOld(tr[j], id)
    decreases j
  {
    if i < j {
      SuccessStays(conf, metaOf, tr, sts, id, i, j - 1);
      assert Follows(conf, metaOf, tr, sts, j - 1);
      StepKeepsNone(conf, tr[j - 1], sts[j - 1], id);
    }
  }

  /** The row is the same at the end of every run from here that does not prune it. */
  ghost predicate Safe(conf: Conf, metaOf: Id -> Meta, s: Monitors, id: Id)
    requires id in s.table
  {
    forall tr: seq<Monitors>, sts: seq<Step> ::
      Run(conf, metaOf, tr, sts) && tr[0] == s && ThereThrough(tr, id, 0, |sts|) ==> tr[|sts|].table[id] == s.table[id]
  }

  /** A success is safe from here on if and only if no monitor holds the row as it was before. */
  lemma SafeIffNoneHoldsOld(conf: Conf, metaOf: Id -> Meta, s: Monitors, id: Id)
    requires id in s.table && s.table[id].out.success
    ensures Safe(conf, metaOf, s, id) <==> NoneHoldsOld(s, id)
  {
    if NoneHoldsOld(s, id) {
      forall tr: seq<Monitors>, sts: seq<Step> |
        Run(conf, metaOf, tr, sts) && tr[0] == s && ThereThrough(tr, id, 0, |sts|)
        ensures tr[|sts|].table[id] == s.table[id]
      {
        SuccessStays(conf, metaOf, tr, sts, id, 0, |sts|);
      }
    } else {
      var m: nat :| HoldsOld(s, m, id);
      var s' := After(conf, s, Write(m));
      var tr, sts := [s, s'], [Write(m)];
      assert Enabled(conf, s, Write(m)) && Follows(conf, metaOf, tr, sts, 0);
      assert Run(conf, metaOf, tr, sts) && ThereThrough(tr, id, 0, |sts|);
      StepKeepsSuccess(conf, s, Write(m), id);
      assert tr[|sts|].table[id] != s.table[id];
    }
  }

  lemma BothLook(conf: Conf, row: Row, a: Package, b: Package)
    requires a.id == b.id && a.meta == b.meta == row.meta && !row.out.success && !a.out.success && Kept(conf, b)
    ensures
      var t := map[a.id := row];
      && After(conf, Monitors(t, [Idle, Idle]), Begin(0, a)) == Monitors(t, [Cleared(a), Idle])
      && After(conf, Monitors(t, [Cleared(a), Idle]), Look(0)) == Monitors(t, [Looked(a, Some(row)), Idle])
      && After(conf, Monitors(t, [Looked(a, Some(row)), Idle]), Begin(1, b)) ==
           Monitors(t, [Looked(a, Some(row)), Cleared(b)])
      && After(conf, Monitors(t, [Looked(a, Some(row)), Cleared(b)]), Look(1)) ==
           Monitors(t, [Looked(a, Some(row)), Looked(b, Some(row))])
  {
    assert Successes(map[a.id := row], conf.per, b.meta) == {};
  }

  lemma BothWrite(conf: Conf, row: Row, a: Package, b: Package)
    requires a.id == b.id && !row.out.success
    ensures
      var u, v := row.(out := b.out, attempts := row.attempts + 1), row.(out := a.out, attempts := row.attempts + 1);
      && After(conf, Monitors(map[a.id := row], [Looked(a, Some(row)), Looked(b, Some(row))]), Write(1)) ==
           Monitors(map[a.id := u], [Looked(a, Some(row)), Idle])
      && After(conf, Monitors(map[a.id := u], [Looked(a, Some(row)), Idle]), Write(0)) ==
           Monitors(map[a.id := v], [Idle, Idle])
  {
  }

  /** The lost update: both monitors find the failed row, one saves a success, and the other saves its
      failure over it. Three results are stored by then, and the count says two. */
  lemma LostUpdate(conf: Conf, metaOf: Id -> Meta, first: Outcome, a: Package, b: Package)
    returns (tr: seq<Monitors>, sts: seq<Step>)
    requires !first.success && !a.out.success && b.out.success && Kept(conf, b)
    requires a.id == b.id && a.meta == b.meta == metaOf(a.id)
    ensures Run(conf, metaOf, tr, sts) && |sts| == 6
    ensures tr[0] == Monitors(map[a.id := Row(a.meta, first, 1)], [Idle, Idle])
    ensures tr[5].table == map[a.id := Row(a.meta, b.out, 2)]
    ensures tr[6].table == map[a.id := Row(a.meta, a.out, 2)]
  {
    var row := Row(a.meta, first, 1);
    var t, t5, t6 := map[a.id := row], map[a.id := Row(a.meta, b.out, 2)], map[a.id := Row(a.meta, a.out, 2)];
    sts := [Begin(0, a), Look(0), Begin(1, b), Look(1), Write(1), Write(0)];
    tr := [
      Monitors(t, [Idle, Idle]),
      Monitors(t, [Cleared(a), Idle]),
      Monitors(t, [Looked(a, Some(row)), Idle]),
      Monitors(t, [Looked(a, Some(row)), Cleared(b)]),
      Monitors(t, [Looked(a, Some(row)), Looked(b, Some(row))]),
      Monitors(t5, [Looked(a, Some(row)), Idle]),
      Monitors(t6, [Idle, Idle])];
    BothLook(conf, row, a, b);
    BothWrite(conf, row, a, b);
    forall n | 0 <= n < 6
      ensures Follows(conf, metaOf, tr, sts, n)
    {
    }
  }

  /** A failed row is never taken out, by any step of any monitor. */
  lemma StepKeepsFailure(conf: Conf, s: Monitors, st: Step, id: Id)
    requires Enabled(conf, s, st) && id in s.table && !s.table[id].out.success
    ensures id in After(conf, s, st).table
    ensures !(st.Write? && s.phases[st.m].p.id == id) ==> After(conf, s, st).table[id] == s.table[id]
  {
    if st.Begin? {
      FailuresAreNeverPruned(conf, s.table, st.p, id);
    }
  }

  // ---------------------------------------------------------------- what attempt_count counts

  /** The step stores a result of the task. */
  ghost predicate Stores(s: Monitors, st: Step, id: Id) {
    && st.Write? && st.m < |s.phases| && s.phases[st.m].Looked? && s.phases[st.m].p.id == id
    && Open(s.phases[st.m].found) && !Clashes(s.table, id, s.phases[st.m].found)
  }

  /** The results of a task stored from state i to j. */
  ghost function StoresFrom(tr: seq<Monitors>, sts: seq<Step>, id: Id, i: nat, j: nat): nat
    requires i <= j < |tr| && |tr| == |sts| + 1
    decreases j
  {
    if i == j then 0 else StoresFrom(tr, sts, id, i, j - 1) + (if Stores(tr[j - 1], sts[j - 1], id) then 1 else 0)
  }

  /** Those of them stored since monitor m last looked. */
  ghost function Since(tr: seq<Monitors>, sts: seq<Step>, id: Id, m: nat, i: nat, j: nat): nat
    requires i <= j < |tr| && |tr| == |sts| + 1
    decreases j
  {
    if i == j || sts[j - 1] == Look(m) then 0
    else Since(tr, sts, id, m, i, j - 1) + (if Stores(tr[j - 1], sts[j - 1], id) then 1 else 0)
  }

  /** Step n stores a result of the task, and another one was stored after its monitor had looked. */
  ghost predicate Overtaken(tr: seq<Monitors>, sts: seq<Step>, id: Id, i: nat, n: nat)
    requires i <= n < |sts| && |tr| == |sts| + 1
  {
    Stores(tr[n], sts[n], id) && Since(tr, sts, id, sts[n].m, i, n) > 0
  }

  ghost predicate NoneOvertaken(tr: seq<Monitors>, sts: seq<Step>, id: Id, i: nat, j: nat)
    requires i <= j < |tr| && |tr| == |sts| + 1
  {
    forall n :: i <= n < j ==> !Overtaken(tr, sts, id, i, n)
  }

  /** What a monitor that has looked found, compared with the row now and with what has been stored. */
  ghost predicate LookedAt(t: Table, ph: Phase, id: Id, meta: Meta, since: nat, stored: nat) {
    ph.Looked? && ph.p.id == id ==>
      CountOf(ph.found) + since <= stored && (since == 0 ==> ph.found == Found(t, id, meta))
  }

  ghost predicate AllLookedAt(tr: seq<Monitors>, sts: seq<Step>, id: Id, meta: Meta, i: nat, j: nat)
    requires i <= j < |tr| && |tr| == |sts| + 1
  {
    forall m :: 0 <= m < |tr[j].phases| ==>
      LookedAt(tr[j].table, tr[j].phases[m], id, meta, Since(tr, sts, id, m, i, j), StoresFrom(tr, sts, id, i, j))
  }

  /** A step that does not store leaves the row as it is, unless it prunes a success. */
  lemma OnlyStoresWrite(conf: Conf, s: Monitors, st: Step, id: Id, meta: Meta)
    requires Enabled(conf, s, st) && !Stores(s, st, id)
    requires id in s.table && s.table[id].out.success ==> id in After(conf, s, st).table
    ensures Found(After(conf, s, st).table, id, meta) == Found(s.table, id, meta)
    ensures Attempts(After(conf, s, st).table, id) == Attempts(s.table, id)
  {
    if id in s.table && !s.table[id].out.success {
      StepKeepsFailure(conf, s, st, id);
    }
  }

  lemma StoringCounts(conf: Conf, s: Monitors, st: Step, id: Id)
    requires Enabled(conf, s, st) && Stores(s, st, id)
    ensures Attempts(After(conf, s, st).table, id) == CountOf(s.phases[st.m].found) + 1
  {
  }

  lemma StepLookedAt(conf: Conf, metaOf: Id -> Meta, s: Monitors, st: Step, id: Id, m: nat, since: nat, stored: nat)
    requires Enabled(conf, s, st) && Consistent(metaOf, s) && m < |s.phases| == |After(conf, s, st).phases|
    requires id in s.table && s.table[id].out.success ==> id in After(conf, s, st).table
    requires Attempts(s.table, id) <= stored && LookedAt(s.table, s.phases[m], id, metaOf(id), since, stored)
    ensures
      var more := if Stores(s, st, id) then 1 else 0;
      var s' := After(conf, s, st);
      LookedAt(s'.table, s'.phases[m], id, metaOf(id), if st == Look(m) then 0 else since + more, stored + more)
  {
    if !Stores(s, st, id) {
      OnlyStoresWrite(conf, s, st, id, metaOf(id));
    }
    if st == Look(m) && s.phases[m].p.id == id {
      assert Named(metaOf, s.phases[m]);
    }
  }

  lemma SamePhases(conf: Conf, s: Monitors, st: Step)
    requires Enabled(conf, s, st)
    ensures |After(conf, s, st).phases| == |s.phases|
  {
  }

  lemma {:induction false} RunConsistent(conf: Conf, metaOf: Id -> Meta, tr: seq<Monitors>, sts: seq<Step>, i: nat,
      j: nat)
    requires Run(conf, metaOf, tr, sts) && i <= j < |tr| && Consistent(metaOf, tr[i])
    ensures Consistent(metaOf, tr[j])
    decreases j
  {
    if i < j {
      RunConsistent(conf, metaOf, tr, sts, i, j - 1);
      assert Follows(conf, metaOf, tr, sts, j - 1);
      StepConsistent(conf, metaOf, tr[j - 1], sts[j - 1]);
    }
  }

  lemma StepConsistent(conf: Conf, metaOf: Id -> Meta, s: Monitors, st: Step)
    requires Enabled(conf, s, st) && Consistent(metaOf, s) && (st.Begin? ==> st.p.meta == metaOf(st.p.id))
    ensures Consistent(metaOf, After(conf, s, st))
  {
  }

  /** Nothing is known of the task yet: no row, and no monitor that has found one. */
  ghost predicate Unknown(s: Monitors, id: Id) {
    id !in s.table && forall m :: 0 <= m < |s.phases| && s.phases[m].Looked? && s.phases[m].p.id == id ==>
      s.phases[m].found.None?
  }

  /** The row of the task is not pruned. */
  ghost predicate NotPruned(tr: seq<Monitors>, id: Id, i: nat, j: nat)
    requires i <= j < |tr|
  {
    forall n :: i <= n < j ==> KeptIn(tr, id, n)
  }

  ghost predicate KeptIn(tr: seq<Monitors>, id: Id, n: nat)
    requires n + 1 < |tr|
  {
    id in tr[n].table && tr[n].table[id].out.success ==> id in tr[n + 1].table
  }

  ghost predicate Told(tr: seq<Monitors>, sts: seq<Step>, id: Id, meta: Meta, i: nat, j: nat)
    requires i <= j < |tr| && |tr| == |sts| + 1
  {
    var count, stored := Attempts(tr[j].table, id), StoresFrom(tr, sts, id, i, j);
    && AllLookedAt(tr, sts, id, meta, i, j)
    && count <= stored && (count == stored <==> NoneOvertaken(tr, sts, id, i, j))
  }

  lemma StartTold(tr: seq<Monitors>, sts: seq<Step>, id: Id, meta: Meta, i: nat)
    requires i < |tr| == |sts| + 1 && Unknown(tr[i], id)
    ensures Told(tr, sts, id, meta, i, i)
  {
  }

  lemma StepTold(conf: Conf, metaOf: Id -> Meta, tr: seq<Monitors>, sts: seq<Step>, id: Id, i: nat, n: nat)
    requires Run(conf, metaOf, tr, sts) && i <= n && n + 1 < |tr| && Consistent(metaOf, tr[i])
    requires KeptIn(tr, id, n) && Told(tr, sts, id, metaOf(id), i, n)
    ensures Told(tr, sts, id, metaOf(id), i, n + 1)
  {
    var j, s, st := n + 1, tr[n], sts[n];
    RunConsistent(conf, metaOf, tr, sts, i, n);
    assert Follows(conf, metaOf, tr, sts, n);
    SamePhases(conf, s, st);
    forall m | 0 <= m < |tr[j].phases|
      ensures
        LookedAt(tr[j].table, tr[j].phases[m], id, metaOf(id),
          Since(tr, sts, id, m, i, j), StoresFrom(tr, sts, id, i, j))
    {
      StepLookedAt(conf, metaOf, s, st, id, m, Since(tr, sts, id, m, i, n), StoresFrom(tr, sts, id, i, n));
    }
    StepCount(conf, metaOf, tr, sts, id, i, n);
    OneMoreOvertaken(tr, sts, id, i, n);
  }

  lemma OneMoreOvertaken(tr: seq<Monitors>, sts: seq<Step>, id: Id, i: nat, n: nat)
    requires i <= n && n + 1 < |tr| == |sts| + 1
    ensures
      NoneOvertaken(tr, sts, id, i, n + 1) <==> NoneOvertaken(tr, sts, id, i, n) && !Overtaken(tr, sts, id, i, n)
  {
    if NoneOvertaken(tr, sts, id, i, n + 1) {
      assert !Overtaken(tr, sts, id, i, n);
    }
  }

  /** A store after nothing else was stored counts one up; one that was overtaken falls behind for good. */
  lemma StepCount(conf: Conf, metaOf: Id -> Meta, tr: seq<Monitors>, sts: seq<Step>, id: Id, i: nat, n: nat)
    requires Run(conf, metaOf, tr, sts) && i <= n && n + 1 < |tr|
    requires KeptIn(tr, id, n) && Told(tr, sts, id, metaOf(id), i, n) && Consistent(metaOf, tr[n])
    ensures
      var before, after := Attempts(tr[n].table, id), Attempts(tr[n + 1].table, id);
      if !Stores(tr[n], sts[n], id) then after == before
      else if Overtaken(tr, sts, id, i, n) then after <= StoresFrom(tr, sts, id, i, n)
      else after == before + 1
  {
    var s, st := tr[n], sts[n];
    assert Follows(conf, metaOf, tr, sts, n);
    if Stores(s, st, id) {
      StoringCounts(conf, s, st, id);
      var ph := s.phases[st.m];
      assert LookedAt(s.table, ph, id, metaOf(id), Since(tr, sts, id, st.m, i, n), StoresFrom(tr, sts, id, i, n));
      FoundCount(s.table, id, ph.p.meta);
    } else {
      OnlyStoresWrite(conf, s, st, id, metaOf(id));
    }
  }

  lemma {:induction false} RunTold(conf: Conf, metaOf: Id -> Meta, tr: seq<Monitors>, sts: seq<Step>, id: Id,
      i: nat, j: nat)
    requires Run(conf, metaOf, tr, sts) && i <= j < |tr| && Consistent(metaOf, tr[i]) && Unknown(tr[i], id)
    requires NotPruned(tr, id, i, j)
    ensures Told(tr, sts, id, metaOf(id), i, j)
    decreases j
  {
    if i == j {
      StartTold(tr, sts, id, metaOf(id), i);
    } else {
      RunTold(conf, metaOf, tr, sts, id, i, j - 1);
      assert KeptIn(tr, id, j - 1);
      StepTold(conf, metaOf, tr, sts, id, i, j - 1);
    }
  }

  lemma FoundCount(t: Table, id: Id, meta: Meta)
    ensures Found(t, id, meta).Some? || id !in t ==> CountOf(Found(t, id, meta)) == Attempts(t, id)
  {
  }

  /** From before a row exists, for as long as it is not pruned: attempt_count is at most the number of
      results stored for the task, and is that number if and only if no result was stored between the get
      and the write of another. */
  lemma CountsStores(conf: Conf, metaOf: Id -> Meta, tr: seq<Monitors>, sts: seq<Step>, id: Id, i: nat, j: nat)
    requires Run(conf, metaOf, tr, sts) && i <= j < |tr| && Consistent(metaOf, tr[i]) && Unknown(tr[i], id)
    requires NotPruned(tr, id, i, j)
    ensures
      var count, stored := Attempts(tr[j].table, id), StoresFrom(tr, sts, id, i, j);
      count <= stored && (count == stored <==> NoneOvertaken(tr, sts, id, i, j))
  {
    RunTold(conf, metaOf, tr, sts, id, i, j);
  }

  // ---------------------------------------------------------------- one monitor

  lemma {:induction false} AloneSinceLook(conf: Conf, metaOf: Id -> Meta, tr: seq<Monitors>, sts: seq<Step>, id: Id,
      i: nat, j: nat)
    requires Run(conf, metaOf, tr, sts) && i <= j < |tr| && |tr[i].phases| == 1
    ensures |tr[j].phases| == 1 && (tr[j].phases[0].Looked? ==> Since(tr, sts, id, 0, i, j) == 0)
    decreases j
  {
    if i < j {
      AloneSinceLook(conf, metaOf, tr, sts, id, i, j - 1);
      assert Follows(conf, metaOf, tr, sts, j - 1);
    }
  }

  /** One monitor alone is never overtaken, so its attempt_count is exact. */
  lemma AloneCountsExactly(conf: Conf, metaOf: Id -> Meta, tr: seq<Monitors>, sts: seq<Step>, id: Id, i: nat, j: nat)
    requires Run(conf, metaOf, tr, sts) && i <= j < |tr| && Consistent(metaOf, tr[i]) && Unknown(tr[i], id)
    requires NotPruned(tr, id, i, j) && |tr[i].phases| == 1
    ensures NoneOvertaken(tr, sts, id, i, j)
    ensures Attempts(tr[j].table, id) == StoresFrom(tr, sts, id, i, j)
  {
    forall n | i <= n < j
      ensures !Overtaken(tr, sts, id, i, n)
    {
      AloneSinceLook(conf, metaOf, tr, sts, id, i, n);
    }
    CountsStores(conf, metaOf, tr, sts, id, i, j);
  }

  /** What the only monitor found is what is there. */
  ghost predicate UpToDate(s: Monitors) {
    |s.phases| == 1 && (s.phases[0].Looked? ==> s.phases[0] == Seen(s.table, s.phases[0].p))
  }

  lemma {:induction false} AloneUpToDate(conf: Conf, metaOf: Id -> Meta, tr: seq<Monitors>, sts: seq<Step>, i: nat,
      j: nat)
    requires Run(conf, metaOf, tr, sts) && i <= j < |tr| && UpToDate(tr[i])
    ensures UpToDate(tr[j])
    decreases j
  {
    if i < j {
      AloneUpToDate(conf, metaOf, tr, sts, i, j - 1);
      assert Follows(conf, metaOf, tr, sts, j - 1);
    }
  }

  /** So under one monitor a success is safe at every moment. */
  lemma AloneSuccessIsSafe(conf: Conf, metaOf: Id -> Meta, tr: seq<Monitors>, sts: seq<Step>, id: Id, j: nat)
    requires Run(conf, metaOf, tr, sts) && j < |tr| && tr[0].phases == [Idle]
    requires id in tr[j].table && tr[j].table[id].out.success
    ensures Safe(conf, metaOf, tr[j], id)
  {
    AloneUpToDate(conf, metaOf, tr, sts, 0, j);
    forall m: nat
      ensures !HoldsOld(tr[j], m, id)
    {
    }
    SafeIffNoneHoldsOld(conf, metaOf, tr[j], id);
  }
}
