/** The attempt laws of the protocol, read off the queues and processes of the pipeline. */
module PipelineLaws {
  import opened Bags
  import opened TaskTable
  import opened Ledger
  import opened LedgerLaws
  import opened AttemptBound
  import opened Numbering
  import opened AttemptLimit
  import opened Pipeline

  /** Each delivery is monitored, rejected or lost before RETRY has passed since its grant. */
  ghost predicate InTime(k: Conf, tr: seq<State>) {
    Execution(k, tr) && forall i, d :: 0 <= i < |tr| && d in Bag(tr[i].clusters) ==> !Apart(k, d.granted, tr[i].clock)
  }

  /** No result of the package so far was a success. */
  ghost predicate KeepsFailing(s: State, pk: Pk) {
    Failing(Abs(s).All(), pk)
  }

  /** Always failing and always saved, and nothing of it lost: see Numbering.Clean. */
  ghost predicate Regular(s: State, pk: Pk) {
    Clean(Abs(s), pk)
  }

  /** In the execution's n-th and any later state of the pipeline, deliveries of a package that are
      handled in time never overlap, are stamped 1, 2, 3 and so on in the order granted, are saved under
      the number stamped, and are at most MAX_ATTEMPTS, as is attempt_count. */
  lemma AttemptsInOrder(k: Conf, tr: seq<State>, i: nat, d: Delivery)
    requires InTime(k, tr) && i < |tr| && d in Abs(tr[i]).All() && Regular(tr[i], d.pk)
    ensures forall e :: e in Bag(tr[i].clusters) && d in Bag(tr[i].clusters) && e.pk == d.pk ==> e == d
    ensures d.stamp.Stamped? ==> d.stamp.attempt == 1 + Weigh(Abs(tr[i]).All(), BeforeOf(d.pk, d.tok))
    ensures d.mark.Saved? ==> d.stamp.Stamped? && d.mark.count == d.stamp.attempt
    ensures k.max > 0 ==> Attempts(tr[i].tasks, d.pk) <= Weigh(Abs(tr[i]).All(), Of(d.pk)) <= k.max
  {
    PipelineRefinesLedger(k, tr);
    forall j | 0 <= j < |AbsRun(tr)| ensures Prompt(k, AbsRun(tr)[j]) {
      assert AbsRun(tr)[j].live == Bag(tr[j].clusters);
    }
    StampedInOrder(k, AbsRun(tr), i, d);
  }

  /** No save of the package was written over a row that was no longer the one its monitor had found. */
  ghost predicate SavedInTurn(s: State, pk: Pk) {
    NoneOvertaken(Abs(s).All(), pk)
  }

  /** Whatever the timing: attempt_count is at most the number of saved results, and for a package that keeps
      failing is that number if and only if its results were saved in turn. */
  lemma AttemptsCountSaves(k: Conf, tr: seq<State>, i: nat, pk: Pk)
    requires Execution(k, tr) && i < |tr|
    ensures
      var count, saved := Attempts(tr[i].tasks, pk), Weigh(Abs(tr[i]).All(), SavedOf(pk));
      count <= saved && (KeepsFailing(tr[i], pk) ==> (count == saved <==> SavedInTurn(tr[i], pk)))
  {
    PipelineRefinesLedger(k, tr);
    RunAttemptInv(k, AbsRun(tr), i, pk);
  }

  /** Handling every delivery within RETRY is enough for that. */
  lemma InTimeIsInTurn(k: Conf, tr: seq<State>, i: nat, pk: Pk)
    requires InTime(k, tr) && i < |tr|
    ensures SavedInTurn(tr[i], pk)
  {
    PipelineRefinesLedger(k, tr);
    forall j | 0 <= j < |AbsRun(tr)| ensures Prompt(k, AbsRun(tr)[j]) {
      assert AbsRun(tr)[j].live == Bag(tr[j].clusters);
    }
    NoneOvertakenInTime(k, AbsRun(tr), i, pk);
  }

  /** Once the row has left the broker, attempt_count is at most MAX_ATTEMPTS - 1, plus the saves at the
      maximum not yet acknowledged, plus the deliveries then in the hands of any process. */
  lemma AttemptsBounded(k: Conf, tr: seq<State>, i: nat, j: nat, pk: Pk)
    requires Execution(k, tr) && i < j < |tr| && k.max > 0
    requires pk in tr[i].locks && pk !in tr[i + 1].locks
    ensures Attempts(tr[j].tasks, pk) <=
      k.max - 1 + Weigh(Abs(tr[i]).All(), OwedOf(pk)) + Weigh(Bag(tr[i + 1].clusters), UnsavedOf(pk))
  {
    PipelineRefinesLedger(k, tr);
    AttemptsAfterExit(k, AbsRun(tr), i, j, pk);
  }

  /** If no monitor died between saving an attempt at the maximum and acknowledging it, that is at most
      MAX_ATTEMPTS - 1 plus the deliveries in the hands of any process when the row left. */
  lemma AttemptsKeepToLimit(k: Conf, tr: seq<State>, i: nat, j: nat, pk: Pk)
    requires Execution(k, tr) && i < j < |tr| && k.max > 0
    requires pk in tr[i].locks && pk !in tr[i + 1].locks
    requires forall d :: d in tr[i].lost && d.pk == pk ==> !Owes(d)
    ensures Attempts(tr[j].tasks, pk) <= k.max - 1 + Weigh(Bag(tr[i].clusters), Of(pk))
  {
    PipelineRefinesLedger(k, tr);
    PlainBoundAfterExit(k, AbsRun(tr), i, j, pk);
  }

  /** While the row is there, attempt_count keeps to MAX_ATTEMPTS - 1 plus the saves a monitor holds
      unacknowledged if no monitor died holding one; and, for a package that keeps failing and was saved in
      turn, only then. */
  lemma AttemptsKeepToHeld(k: Conf, tr: seq<State>, i: nat, pk: Pk)
    requires Execution(k, tr) && i < |tr| && k.max > 0 && pk in tr[i].locks
    ensures
      var keeps := Attempts(tr[i].tasks, pk) <= k.max - 1 + Weigh(Bag(tr[i].clusters), OwedOf(pk));
      var noneDied := forall d :: d in tr[i].lost && d.pk == pk ==> !Owes(d);
      && (noneDied ==> keeps)
      && (KeepsFailing(tr[i], pk) && SavedInTurn(tr[i], pk) ==> (keeps <==> noneDied))
  {
    PipelineRefinesLedger(k, tr);
    ExcessIsOwed(k, AbsRun(tr), i, pk);
  }
}
