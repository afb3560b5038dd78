/**
 A `for` loop over a list from which the body removes the element it stands on. The loop's index moves
 on regardless, so the element after a removed one is never looked at in that pass.
 */
module Sweep {

  type Key = nat

  /** list.remove: the first occurrence goes. */
  function Remove(l: seq<Key>, x: Key): (r: seq<Key>)
    ensures |r| == if x in l then |l| - 1 else |l|
  {
    if l == [] then []
    else if l[0] == x then l[1..]
    else [l[0]] + Remove(l[1..], x)
  }

  ghost predicate Distinct(l: seq<Key>) {
    forall i, j :: 0 <= i < j < |l| ==> l[i] != l[j]
  }

  lemma {:induction false} RemoveAt(l: seq<Key>, i: nat)
    requires i < |l| && forall j :: 0 <= j < i ==> l[j] != l[i]
    ensures Remove(l, l[i]) == l[..i] + l[i + 1..]
  {
    if i > 0 {
      RemoveAt(l[1..], i - 1);
      assert l[..i] + l[i + 1..] == [l[0]] + (l[1..][..i - 1] + l[1..][i..]);
    }
  }

  function Refill(refill: bool, next: Key): seq<Key> {
    if refill then [next] else []
  }

  /** One pass from index i on: a due element met is removed and, with `refill`, a fresh one appended. */
  function PassFrom(l: seq<Key>, due: set<Key>, refill: bool, next: Key, i: nat): seq<Key>
    decreases |l| - i
  {
    if i >= |l| then l
    else if l[i] in due then PassFrom(Remove(l, l[i]) + Refill(refill, next), due, refill, next + 1, i + 1)
    else PassFrom(l, due, refill, next, i + 1)
  }

  function Pass(l: seq<Key>, due: set<Key>, refill: bool, next: Key): seq<Key> {
    PassFrom(l, due, refill, next, 0)
  }

  // ---------------------------------------------------------------- what a pass leaves

  /** What is left of a list when the element after each removed one is skipped. */
  function Left(s: seq<Key>, due: set<Key>): (r: seq<Key>)
    ensures |r| <= |s|
  {
    if s == [] then []
    else if s[0] !in due then [s[0]] + Left(s[1..], due)
    else if |s| == 1 then []
    else [s[1]] + Left(s[2..], due)
  }

  function Due(s: seq<Key>, due: set<Key>): nat {
    if s == [] then 0 else (if s[0] in due then 1 else 0) + Due(s[1..], due)
  }

  function Live(s: seq<Key>, due: set<Key>): seq<Key> {
    if s == [] then [] else (if s[0] in due then [] else [s[0]]) + Live(s[1..], due)
  }

  function Range(from: Key, n: nat): (r: seq<Key>)
    ensures |r| == n && forall k :: 0 <= k < n ==> r[k] == from + k
    decreases n
  {
    if n == 0 then [] else [from] + Range(from + 1, n - 1)
  }

  lemma {:induction false} NothingDue(l: seq<Key>, due: set<Key>, refill: bool, next: Key, i: nat)
    requires forall j :: i <= j < |l| ==> l[j] !in due
    ensures PassFrom(l, due, refill, next, i) == l
    decreases |l| - i
  {
    if i < |l| {
      NothingDue(l, due, refill, next, i + 1);
    }
  }

  function Fresh(refill: bool, next: Key, n: nat): seq<Key> {
    if refill then Range(next, n) else []
  }

  lemma FreshGrows(refill: bool, next: Key, n: nat)
    ensures Fresh(refill, next, n + 1) == Refill(refill, next) + Fresh(refill, next + 1, n)
  {
  }

  /** Where the pass ends that is at index |a|, with s still to be looked at and f appended so far. */
  function Ends(a: seq<Key>, s: seq<Key>, f: seq<Key>, due: set<Key>, refill: bool, next: Key): seq<Key> {
    a + Left(s, due) + f + Fresh(refill, next, |s| - |Left(s, due)|)
  }

  lemma EndsAtEnd(a: seq<Key>, f: seq<Key>, due: set<Key>, refill: bool, next: Key)
    ensures Ends(a, [], f, due, refill, next) == a + [] + f
  {
  }

  lemma FirstJoins(a: seq<Key>, s: seq<Key>, f: seq<Key>)
    requires s != []
    ensures a + s + f == (a + [s[0]]) + s[1..] + f && (a + s + f)[|a|] == s[0] && |a + [s[0]]| == |a| + 1
  {
  }

  lemma EndsAfterKeeping(a: seq<Key>, s: seq<Key>, f: seq<Key>, due: set<Key>, refill: bool, next: Key)
    requires s != [] && s[0] !in due
    ensures Ends(a, s, f, due, refill, next) == Ends(a + [s[0]], s[1..], f, due, refill, next)
  {
    assert Left(s, due) == [s[0]] + Left(s[1..], due);
    Assoc(a, [s[0]], Left(s[1..], due));
  }

  lemma PassKeepsOne(l: seq<Key>, i: nat, due: set<Key>, refill: bool, next: Key)
    requires i < |l| && l[i] !in due
    ensures PassFrom(l, due, refill, next, i) == PassFrom(l, due, refill, next, i + 1)
  {
  }

  lemma EndsAfterLast(a: seq<Key>, x: Key, f: seq<Key>, due: set<Key>, refill: bool, next: Key)
    requires x in due
    ensures Ends(a, [x], f, due, refill, next) == a + f + Refill(refill, next)
  {
    FreshGrows(refill, next, 0);
    assert a + Left([x], due) + f == a + f;
  }

  lemma EndsAfterRemoving(a: seq<Key>, s: seq<Key>, f: seq<Key>, due: set<Key>, refill: bool, next: Key)
    requires |s| > 1 && s[0] in due
    ensures Ends(a, s, f, due, refill, next) ==
      Ends(a + [s[1]], s[2..], f + Refill(refill, next), due, refill, next + 1)
  {
    var left := Left(s[2..], due);
    FreshGrows(refill, next, |s[2..]| - |left|);
    Regroup(a, [s[1]], left, f, Refill(refill, next), Fresh(refill, next + 1, |s[2..]| - |left|));
  }

  /** Given the keys are distinct and the fresh ones not due, that is where it ends. */
  lemma {:induction false} PassLeaves(a: seq<Key>, s: seq<Key>, f: seq<Key>, due: set<Key>, refill: bool, next: Key)
    requires Distinct(a + s + f) && (forall x :: x in due ==> x < next) && forall x :: x in f ==> x !in due
    requires forall x :: x in a + s + f ==> x < next
    ensures PassFrom(a + s + f, due, refill, next, |a|) == Ends(a, s, f, due, refill, next)
    decreases |s|
  {
    if s == [] {
      NothingDue(a + s + f, due, refill, next, |a|);
      EndsAtEnd(a, f, due, refill, next);
    } else if s[0] !in due {
      FirstJoins(a, s, f);
      EndsAfterKeeping(a, s, f, due, refill, next);
      PassKeepsOne(a + s + f, |a|, due, refill, next);
      PassLeaves(a + [s[0]], s[1..], f, due, refill, next);
    } else if |s| == 1 {
      assert s == [s[0]];
      PassRemovesLast(a, s[0], f, due, refill, next);
      EndsAfterLast(a, s[0], f, due, refill, next);
    } else {
      PassStepParts(a, s, f, due, refill, next);
      DistinctAfter(a, s, f, refill, next);
      PassLeaves(a + [s[1]], s[2..], f + Refill(refill, next), due, refill, next + 1);
      EndsAfterRemoving(a, s, f, due, refill, next);
      SecondJoins(a, s, f + Refill(refill, next));
    }
  }

  lemma SecondJoins(a: seq<Key>, s: seq<Key>, g: seq<Key>)
    requires |s| > 1
    ensures (a + [s[1]]) + s[2..] + g == a + s[1..] + g && |a + [s[1]]| == |a| + 1
  {
  }

  lemma DistinctAfter(a: seq<Key>, s: seq<Key>, f: seq<Key>, refill: bool, next: Key)
    requires Distinct(a + s + f) && (forall x :: x in a + s + f ==> x < next) && |s| > 1
    ensures
      var l := (a + [s[1]]) + s[2..] + (f + Refill(refill, next));
      Distinct(l) && forall x :: x in l ==> x < next + 1
  {
    var was, l := a + s + f, (a + [s[1]]) + s[2..] + (f + Refill(refill, next));
    var n := |was| - 1;
    forall j | 0 <= j < n ensures l[j] == was[if j < |a| then j else j + 1] && l[j] < next {
      assert l[j] == was[if j < |a| then j else j + 1];
      assert l[j] in was;
    }
    assert |l| > n ==> |l| == n + 1 && l[n] == next;
  }

  /** The step at a due element: it goes, and the index moves on past the next one. */
  lemma PassStep(l: seq<Key>, i: nat, due: set<Key>, refill: bool, next: Key)
    requires i < |l| && l[i] in due && forall j :: 0 <= j < i ==> l[j] != l[i]
    ensures PassFrom(l, due, refill, next, i) ==
            PassFrom(l[..i] + l[i + 1..] + Refill(refill, next), due, refill, next + 1, i + 1)
  {
    RemoveAt(l, i);
  }

  lemma Without(a: seq<Key>, s: seq<Key>, f: seq<Key>, r: seq<Key>)
    requires s != []
    ensures
      var l, i := a + s + f, |a|;
      l[i] == s[0] && l[..i] + l[i + 1..] + r == a + s[1..] + (f + r)
  {
  }

  lemma FirstOfItsKind(l: seq<Key>, i: nat)
    requires Distinct(l) && i < |l|
    ensures forall j :: 0 <= j < i ==> l[j] != l[i]
  {
  }

  lemma Regroup(a: seq<Key>, x: seq<Key>, left: seq<Key>, f: seq<Key>, r: seq<Key>, more: seq<Key>)
    ensures (a + x) + left + (f + r) + more == a + (x + left) + f + (r + more)
  {
  }

  lemma PassStepParts(a: seq<Key>, s: seq<Key>, f: seq<Key>, due: set<Key>, refill: bool, next: Key)
    requires Distinct(a + s + f) && s != [] && s[0] in due
    ensures PassFrom(a + s + f, due, refill, next, |a|) ==
            PassFrom(a + s[1..] + (f + Refill(refill, next)), due, refill, next + 1, |a| + 1)
  {
    var l := a + s + f;
    Without(a, s, f, Refill(refill, next));
    FirstOfItsKind(l, |a|);
    PassStep(l, |a|, due, refill, next);
  }

  lemma PassRemovesLast(a: seq<Key>, x: Key, f: seq<Key>, due: set<Key>, refill: bool, next: Key)
    requires Distinct(a + [x] + f) && x in due && next !in due && forall y :: y in f ==> y !in due
    ensures PassFrom(a + [x] + f, due, refill, next, |a|) == a + f + Refill(refill, next)
  {
    var rest := a + [x][1..] + (f + Refill(refill, next));
    PassStepParts(a, [x], f, due, refill, next);
    assert rest == a + f + Refill(refill, next);
    forall j | |a| + 1 <= j < |rest| ensures rest[j] !in due {
      assert rest[j] in f + Refill(refill, next);
    }
    NothingDue(rest, due, refill, next + 1, |a| + 1);
  }

  // ---------------------------------------------------------------- how many are left

  lemma {:induction false} DueJoin(s: seq<Key>, t: seq<Key>, due: set<Key>)
    ensures Due(s + t, due) == Due(s, due) + Due(t, due)
  {
    if s == [] {
      assert s + t == t;
    } else {
      DueJoin(s[1..], t, due);
      assert (s + t)[1..] == s[1..] + t;
    }
  }

  lemma {:induction false} LiveJoin(s: seq<Key>, t: seq<Key>, due: set<Key>)
    ensures Live(s + t, due) == Live(s, due) + Live(t, due)
  {
    if s == [] {
      assert s + t == t;
    } else {
      var head := if s[0] in due then [] else [s[0]];
      calc {
        Live(s + t, due);
        { assert (s + t)[0] == s[0] && (s + t)[1..] == s[1..] + t; }
        head + Live(s[1..] + t, due);
        { LiveJoin(s[1..], t, due); }
        head + (Live(s[1..], due) + Live(t, due));
        (head + Live(s[1..], due)) + Live(t, due);
        Live(s, due) + Live(t, due);
      }
    }
  }

  lemma {:induction false} NoneDue(s: seq<Key>, due: set<Key>)
    requires forall x :: x in s ==> x !in due
    ensures Due(s, due) == 0 && Live(s, due) == s
  {
    if s != [] {
      NoneDue(s[1..], due);
    }
  }

  /** Each removal hides at most one due element, so at most as many are left as were removed. */
  lemma {:induction false} AtMostHalf(s: seq<Key>, due: set<Key>)
    ensures Due(s, due) - Due(Left(s, due), due) == |s| - |Left(s, due)|
    ensures Due(Left(s, due), due) <= Due(s, due) / 2
    ensures Live(Left(s, due), due) == Live(s, due)
  {
    if s == [] {
    } else if s[0] !in due {
      AtMostHalf(s[1..], due);
    } else if |s| > 1 {
      AtMostHalf(s[2..], due);
      assert s[1..][1..] == s[2..];
      assert Left(s, due) == [s[1]] + Left(s[2..], due);
    }
  }

  lemma {:induction false} LeftComesFrom(s: seq<Key>, due: set<Key>)
    ensures forall x :: x in Left(s, due) ==> x in s
  {
    if s == [] {
    } else if s[0] !in due {
      LeftComesFrom(s[1..], due);
    } else if |s| > 1 {
      LeftComesFrom(s[2..], due);
    }
  }

  lemma DistinctParts(s: seq<Key>, k: nat)
    requires Distinct(s) && 0 < k <= |s|
    ensures Distinct(s[k..]) && s[k - 1] !in s[k..]
  {
    assert forall i :: 0 <= i < |s[k..]| ==> s[k..][i] == s[k + i];
  }

  lemma {:induction false} LeftDistinct(s: seq<Key>, due: set<Key>)
    requires Distinct(s)
    ensures Distinct(Left(s, due))
  {
    if s != [] {
      var k := if s[0] in due then 2 else 1;
      if k <= |s| {
        DistinctParts(s, k);
        LeftDistinct(s[k..], due);
        LeftComesFrom(s[k..], due);
        assert Left(s, due) == [s[k - 1]] + Left(s[k..], due);
      }
    }
  }

  // ---------------------------------------------------------------- pass after pass

  /** No key twice, and `next` is a key not given out yet. */
  ghost predicate Good(l: seq<Key>, next: Key) {
    Distinct(l) && forall x :: x in l ==> x < next
  }

  function Removed(l: seq<Key>, due: set<Key>): nat {
    |l| - |Left(l, due)|
  }

  lemma BareEnds(l: seq<Key>)
    ensures [] + l + [] == l
  {
  }

  lemma JoinDistinct(s: seq<Key>, t: seq<Key>)
    requires Distinct(s) && Distinct(t) && forall x :: x in s ==> x !in t
    ensures Distinct(s + t)
  {
    forall i, j | 0 <= i < j < |s + t| ensures (s + t)[i] != (s + t)[j] {
      if i < |s| <= j {
        assert (s + t)[i] in s && (s + t)[j] in t;
      }
    }
  }

  lemma PassResult(l: seq<Key>, due: set<Key>, refill: bool, next: Key)
    requires Good(l, next) && forall x :: x in due ==> x < next
    ensures |Left(l, due)| <= |l|
    ensures Pass(l, due, refill, next) == Left(l, due) + Fresh(refill, next, Removed(l, due))
  {
    BareEnds(l);
    BareEnds(Left(l, due));
    PassLeaves([], l, [], due, refill, next);
  }

  lemma GoodAfter(l: seq<Key>, due: set<Key>, refill: bool, next: Key)
    requires Good(l, next)
    ensures Good(Left(l, due) + Fresh(refill, next, Removed(l, due)), next + Removed(l, due))
  {
    var left, f := Left(l, due), Fresh(refill, next, Removed(l, due));
    LeftDistinct(l, due);
    LeftComesFrom(l, due);
    assert forall x :: x in f ==> next <= x < next + Removed(l, due);
    JoinDistinct(left, f);
    assert forall x :: x in left + f ==> x in left || x in f;
  }

  lemma FreshNotDue(due: set<Key>, refill: bool, next: Key, n: nat)
    requires forall x :: x in due ==> x < next
    ensures Due(Fresh(refill, next, n), due) == 0
    ensures Live(Fresh(refill, next, n), due) == Fresh(refill, next, n)
  {
    NoneDue(Fresh(refill, next, n), due);
  }

  /** One whole pass: the size is kept when refilling, live keys stay in order, and of the due ones at
      most half, rounded down, are left. */
  lemma OnePass(l: seq<Key>, due: set<Key>, refill: bool, next: Key)
    requires Good(l, next) && forall x :: x in due ==> x < next
    ensures
      var l', n := Pass(l, due, refill, next), Removed(l, due);
      && Good(l', next + n)
      && |l'| == (if refill then |l| else |l| - n)
      && Live(l', due) == Live(l, due) + Fresh(refill, next, n)
      && Due(l', due) == Due(l, due) - n <= Due(l, due) / 2
  {
    PassResult(l, due, refill, next);
    GoodAfter(l, due, refill, next);
    AtMostHalf(l, due);
    var left, f := Left(l, due), Fresh(refill, next, Removed(l, due));
    FreshNotDue(due, refill, next, Removed(l, due));
    DueJoin(left, f, due);
    LiveJoin(left, f, due);
  }

  /** Passes one after another, each with its own due set. */
  function Passes(l: seq<Key>, dues: seq<set<Key>>, refill: bool, next: Key): seq<Key>
    decreases |dues|
  {
    if dues == [] then l
    else Passes(Pass(l, dues[0], refill, next), dues[1..], refill, next + Removed(l, dues[0]))
  }

  /** n halved j times, rounding down. */
  function Halved(n: nat, j: nat): nat
    decreases j
  {
    if j == 0 then n else Halved(n / 2, j - 1)
  }

  /** The logarithm to base 2, rounded down. */
  function Log2(n: nat): nat {
    if n <= 1 then 0 else 1 + Log2(n / 2)
  }

  lemma {:induction false} HalvedAway(n: nat, j: nat)
    ensures Halved(n, j) == 0 <==> n == 0 || j > Log2(n)
    decreases j
  {
    if j > 0 {
      HalvedAway(n / 2, j - 1);
    }
  }

  lemma {:induction false} HalvedNext(n: nat, j: nat)
    ensures Halved(n, j + 1) == Halved(n, j) / 2
    decreases j
  {
    if j > 0 {
      HalvedNext(n / 2, j - 1);
    }
  }

  lemma {:induction false} HalvedMono(a: nat, b: nat, j: nat)
    requires a <= b
    ensures Halved(a, j) <= Halved(b, j)
    decreases j
  {
    if j > 0 {
      HalvedMono(a / 2, b / 2, j - 1);
    }
  }

  lemma {:induction false} AtMostDue(l: seq<Key>, due: set<Key>)
    ensures Due(l, due) <= |l|
    ensures Due(l, due) == 0 ==> forall x :: x in l ==> x !in due
  {
    if l != [] {
      AtMostDue(l[1..], due);
    }
  }

  /** With nothing new due, each pass at least halves the due keys. */
  lemma {:induction false} PassesHalve(l: seq<Key>, due: set<Key>, dues: seq<set<Key>>, refill: bool, next: Key)
    requires Good(l, next) && forall x :: x in due ==> x < next
    requires forall k :: 0 <= k < |dues| ==> dues[k] == due
    ensures Due(Passes(l, dues, refill, next), due) <= Halved(Due(l, due), |dues|)
    decreases |dues|
  {
    if dues != [] {
      var l' := Pass(l, due, refill, next);
      OnePass(l, due, refill, next);
      PassesHalve(l', due, dues[1..], refill, next + Removed(l, due));
      HalvedMono(Due(l', due), Due(l, due) / 2, |dues| - 1);
    }
  }

  /** So floor(log2 n) + 1 passes replace, or remove, every due key of a list of n. */
  lemma AllGone(l: seq<Key>, due: set<Key>, dues: seq<set<Key>>, refill: bool, next: Key)
    requires Good(l, next) && forall x :: x in due ==> x < next
    requires |dues| > Log2(|l|) && forall k :: 0 <= k < |dues| ==> dues[k] == due
    ensures forall x :: x in Passes(l, dues, refill, next) ==> x !in due
  {
    PassesHalve(l, due, dues, refill, next);
    AtMostDue(l, due);
    HalvedMono(Due(l, due), |l|, |dues|);
    HalvedAway(|l|, |dues|);
    AtMostDue(Passes(l, dues, refill, next), due);
  }

  /** Whatever becomes due in whichever pass: a refilled list keeps its length, and a key that is never
      due is never dropped. */
  lemma {:induction false} PassesKeep(l: seq<Key>, dues: seq<set<Key>>, refill: bool, next: Key, x: Key)
    requires Good(l, next) && forall k, y :: 0 <= k < |dues| && y in dues[k] ==> y < next
    ensures refill ==> |Passes(l, dues, refill, next)| == |l|
    ensures x in l && (forall k :: 0 <= k < |dues| ==> x !in dues[k]) ==> x in Passes(l, dues, refill, next)
    decreases |dues|
  {
    if dues != [] {
      PassKeeps(l, dues[0], refill, next, x);
      assert forall k :: 0 <= k < |dues[1..]| ==> dues[1..][k] == dues[k + 1];
      PassesKeep(Pass(l, dues[0], refill, next), dues[1..], refill, next + Removed(l, dues[0]), x);
    }
  }

  lemma PassKeeps(l: seq<Key>, due: set<Key>, refill: bool, next: Key, x: Key)
    requires Good(l, next) && forall y :: y in due ==> y < next
    ensures
      var l' := Pass(l, due, refill, next);
      Good(l', next + Removed(l, due)) && (refill ==> |l'| == |l|) && (x in l && x !in due ==> x in l')
  {
    OnePass(l, due, refill, next);
    InLive(l, due, x);
    InLive(Pass(l, due, refill, next), due, x);
  }

  lemma {:induction false} InLive(l: seq<Key>, due: set<Key>, x: Key)
    ensures x in Live(l, due) <==> x in l && x !in due
  {
    if l != [] {
      InLive(l[1..], due, x);
    }
  }

  // ---------------------------------------------------------------- the bound is reached

  lemma {:induction false} LeftOfLive(t: seq<Key>, due: set<Key>)
    requires forall x :: x in t ==> x !in due
    ensures Left(t, due) == t
  {
    if t != [] {
      LeftOfLive(t[1..], due);
    }
  }

  lemma {:induction false} LeftOfBlock(s: seq<Key>, t: seq<Key>, due: set<Key>)
    requires (forall x :: x in s ==> x in due) && forall x :: x in t ==> x !in due
    ensures |Left(s, due)| == |s| / 2 && (forall x :: x in Left(s, due) ==> x in due)
    ensures Left(s + t, due) == Left(s, due) + t
    decreases |s|
  {
    if s == [] {
      assert s + t == t;
      LeftOfLive(t, due);
    } else if |s| == 1 {
      if t == [] {
        assert s + t == s;
      } else {
        assert (s + t)[1] == t[0] && (s + t)[2..] == t[1..];
        LeftOfLive(t[1..], due);
      }
    } else {
      LeftOfBlock(s[2..], t, due);
      assert (s + t)[2..] == s[2..] + t;
      assert (s + t)[0] == s[0] && (s + t)[1] == s[1];
      assert [s[1]] + (Left(s[2..], due) + t) == Left(s, due) + t;
    }
  }

  lemma {:induction false} AllDue(s: seq<Key>, due: set<Key>)
    requires forall x :: x in s ==> x in due
    ensures Due(s, due) == |s|
  {
    if s != [] {
      AllDue(s[1..], due);
    }
  }

  lemma BlockPass(s: seq<Key>, t: seq<Key>, due: set<Key>, next: Key)
    requires Good(s + t, next) && forall x :: x in due ==> x < next
    requires (forall x :: x in s ==> x in due) && forall x :: x in t ==> x !in due
    ensures
      var n := Removed(s + t, due);
      && Pass(s + t, due, true, next) == Left(s, due) + (t + Range(next, n))
      && Good(Left(s, due) + (t + Range(next, n)), next + n)
  {
    var n := Removed(s + t, due);
    PassResult(s + t, due, true, next);
    GoodAfter(s + t, due, true, next);
    LeftOfBlock(s, t, due);
    Assoc(Left(s, due), t, Range(next, n));
  }

  lemma Assoc(a: seq<Key>, b: seq<Key>, c: seq<Key>)
    ensures (a + b) + c == a + (b + c)
  {
  }

  /** When n workers are due at once, in a block at the front, exactly n halved j times are left after j
      passes: fewer than floor(log2 n) + 1 passes are never enough. */
  lemma {:induction false} BlockHalves(s: seq<Key>, t: seq<Key>, due: set<Key>, dues: seq<set<Key>>, next: Key)
    requires Good(s + t, next) && forall x :: x in due ==> x < next
    requires (forall x :: x in s ==> x in due) && forall x :: x in t ==> x !in due
    requires forall k :: 0 <= k < |dues| ==> dues[k] == due
    ensures Due(Passes(s + t, dues, true, next), due) == Halved(|s|, |dues|)
    decreases |dues|
  {
    if dues == [] {
      DueJoin(s, t, due);
      NoneDue(t, due);
      AllDue(s, due);
    } else {
      var n := Removed(s + t, due);
      BlockPass(s, t, due, next);
      LeftOfBlock(s, t, due);
      BlockHalves(Left(s, due), t + Range(next, n), due, dues[1..], next + n);
    }
  }
}
