/**
 The queue with its own size counter. Putting or getting an item and counting it are two steps, and the
 counting itself is a read and a write under the counter's lock.
 */
module Counter {

  type Item = nat

  /** What a process still has to do: d is +1 after a put, -1 after a get. */
  datatype Pc = Idle | Owes(d: int) | Locked(d: int) | Loaded(d: int, v: int)

  datatype St = St(items: seq<Item>, size: int, procs: seq<Pc>, dead: set<nat>)

  datatype Act = Put(p: nat, x: Item) | Get(p: nat) | Lock(p: nat) | Load(p: nat) | Store(p: nat) | Die(p: nat)

  predicate Holds(c: Pc) { c.Locked? || c.Loaded? }

  function Debt(c: Pc): int { if c.Idle? then 0 else c.d }

  /** A dead process that held the lock holds it forever. */
  ghost predicate Unlocked(s: St) {
    forall p :: 0 <= p < |s.procs| ==> !Holds(s.procs[p])
  }

  ghost predicate Enabled(s: St, a: Act) {
    && a.p < |s.procs| && a.p !in s.dead
    && match a
       case Put(p, _) => s.procs[p].Idle?
       case Get(p) => s.procs[p].Idle? && s.items != []
       case Lock(p) => s.procs[p].Owes? && Unlocked(s)
       case Load(p) => s.procs[p].Locked?
       case Store(p) => s.procs[p].Loaded?
       case Die(_) => true
  }

  function Moves(procs: seq<Pc>, p: nat, c: Pc): seq<Pc>
    requires p < |procs|
  {
    procs[p := c]
  }

  ghost function Do(s: St, a: Act): St
    requires Enabled(s, a)
  {
    match a
    case Put(p, x) => s.(items := s.items + [x], procs := Moves(s.procs, p, Owes(1)))
    case Get(p) => s.(items := s.items[1..], procs := Moves(s.procs, p, Owes(-1)))
    case Lock(p) => s.(procs := Moves(s.procs, p, Locked(s.procs[p].d)))
    case Load(p) => s.(procs := Moves(s.procs, p, Loaded(s.procs[p].d, s.size)))
    case Store(p) => s.(size := s.procs[p].v + s.procs[p].d, procs := Moves(s.procs, p, Idle))
    case Die(p) => s.(dead := s.dead + {p})
  }

  /** Puts not yet counted less gets not yet counted. */
  function Debts(procs: seq<Pc>): int {
    if procs == [] then 0 else Debt(procs[0]) + Debts(procs[1..])
  }

  function Pending(procs: seq<Pc>): nat {
    if procs == [] then 0 else (if procs[0].Idle? then 0 else 1) + Pending(procs[1..])
  }

  lemma {:induction false} DebtMoves(procs: seq<Pc>, p: nat, c: Pc)
    requires p < |procs|
    ensures Debts(Moves(procs, p, c)) == Debts(procs) - Debt(procs[p]) + Debt(c)
  {
    if p == 0 {
      assert procs[p := c][1..] == procs[1..];
    } else {
      assert procs[p := c][1..] == procs[1..][p - 1 := c];
      DebtMoves(procs[1..], p - 1, c);
    }
  }

  lemma {:induction false} DebtsBounded(procs: seq<Pc>)
    requires forall p :: 0 <= p < |procs| && !procs[p].Idle? ==> procs[p].d == 1 || procs[p].d == -1
    ensures Debts(procs) <= Pending(procs) && 0 <= Debts(procs) + Pending(procs)
  {
    if procs != [] {
      assert forall p :: 0 <= p < |procs[1..]| ==> procs[1..][p] == procs[p + 1];
      DebtsBounded(procs[1..]);
    }
  }

  /** At most one process is inside the counter's lock, and what it read is still there. */
  ghost predicate Inv(s: St) {
    && (forall p, q :: 0 <= p < q < |s.procs| ==> !(Holds(s.procs[p]) && Holds(s.procs[q])))
    && (forall p :: 0 <= p < |s.procs| && s.procs[p].Loaded? ==> s.procs[p].v == s.size)
    && (forall p :: 0 <= p < |s.procs| && !s.procs[p].Idle? ==> s.procs[p].d == 1 || s.procs[p].d == -1)
    && s.size + Debts(s.procs) == |s.items|
  }

  lemma StepInv(s: St, a: Act)
    requires Inv(s) && Enabled(s, a)
    ensures Inv(Do(s, a))
  {
    if !a.Die? {
      DebtMoves(s.procs, a.p, Do(s, a).procs[a.p]);
    }
  }

  ghost predicate Run(tr: seq<St>, acts: seq<Act>) {
    && |tr| == |acts| + 1
    && tr[0].items == [] && tr[0].size == 0 && (forall p :: 0 <= p < |tr[0].procs| ==> tr[0].procs[p].Idle?)
    && forall i :: 0 <= i < |acts| ==> Enabled(tr[i], acts[i]) && tr[i + 1] == Do(tr[i], acts[i])
  }

  lemma {:induction false} NoDebts(procs: seq<Pc>)
    ensures (forall p :: 0 <= p < |procs| ==> procs[p].Idle?) ==> Debts(procs) == 0 && Pending(procs) == 0
    ensures Pending(procs) == 0 ==> forall p :: 0 <= p < |procs| ==> procs[p].Idle?
  {
    if procs != [] {
      assert forall p :: 0 <= p < |procs[1..]| ==> procs[1..][p] == procs[p + 1];
      NoDebts(procs[1..]);
      assert forall p :: 0 < p < |procs| ==> procs[p] == procs[1..][p - 1];
    }
  }

  lemma {:induction false} RunInv(tr: seq<St>, acts: seq<Act>, i: nat)
    requires Run(tr, acts) && i < |tr|
    ensures Inv(tr[i])
  {
    if i == 0 {
      NoDebts(tr[0].procs);
    } else {
      RunInv(tr, acts, i - 1);
      StepInv(tr[i - 1], acts[i - 1]);
    }
  }

  /** In every interleaving, processes dying anywhere: the counter, plus puts and less gets not counted
      yet, is the length of the queue. So qsize is off by at most the operations pending, and qsize and
      empty are exact when none is. */
  lemma CountsTheQueue(tr: seq<St>, acts: seq<Act>, i: nat)
    requires Run(tr, acts) && i < |tr|
    ensures
      var s := tr[i];
      && s.size + Debts(s.procs) == |s.items|
      && s.size - |s.items| <= Pending(s.procs) && |s.items| - s.size <= Pending(s.procs)
      && (Pending(s.procs) == 0 ==> s.size == |s.items| && (!(s.size > 0) <==> s.items == []))
  {
    RunInv(tr, acts, i);
    DebtsBounded(tr[i].procs);
  }

  /** A process that has died does nothing more; what it had not counted is never counted. */
  lemma {:induction false} DeadDoNothing(tr: seq<St>, acts: seq<Act>, k: nat, i: nat)
    requires Run(tr, acts) && k < i < |tr| && acts[k].Die?
    ensures acts[k].p in tr[i].dead && |tr[i].procs| == |tr[k].procs|
    ensures tr[i].procs[acts[k].p] == tr[k].procs[acts[k].p]
    ensures i < |acts| ==> acts[i].p != acts[k].p
    decreases i
  {
    if k < i - 1 {
      DeadDoNothing(tr, acts, k, i - 1);
    }
  }

  /** The bound is reached: a get counted before the put it took from leaves qsize at -1. */
  lemma CanBeNegative(x: Item) returns (tr: seq<St>, acts: seq<Act>)
    ensures Run(tr, acts)
    ensures
      var s := tr[|tr| - 1];
      s.items == [] && s.size == -1 && Pending(s.procs) == 1
  {
    acts := [Put(0, x), Get(1), Lock(1), Load(1), Store(1)];
    tr := [St([], 0, [Idle, Idle], {}), St([x], 0, [Owes(1), Idle], {}), St([], 0, [Owes(1), Owes(-1)], {}),
           St([], 0, [Owes(1), Locked(-1)], {}), St([], 0, [Owes(1), Loaded(-1, 0)], {}),
           St([], -1, [Owes(1), Idle], {})];
    assert [Owes(1), Idle][1..] == [Idle];
  }
}
