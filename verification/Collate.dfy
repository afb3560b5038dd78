/**
 Collating an iterable task through the cache: the monitor's save_cached, for packages without a chain.
 Entries do not expire, and one monitor does all the saving.
 */
module Collate {
  import opened Arithmetic
  import opened Options

  type Id = nat

  datatype Value = Atom(n: int) | List(items: seq<Value>)

  datatype Package = Package(id: Id, group: Option<Id>, iterCount: nat, iterCached: bool, args: Value, result: Value,
    success: bool)

  datatype Key = TaskKey(id: Id) | GroupKey(group: Id) | ArgsKey(group_: Id)

  datatype Entry = Saved(p: Package) | Keys(keys: seq<Key>) | Args(args: Value)

  type Store = map<Key, Entry>

  /** cache.get(group_key) or [] */
  function Listed(store: Store, g: Id): seq<Key> {
    if GroupKey(g) in store && store[GroupKey(g)].Keys? then store[GroupKey(g)].keys else []
  }

  predicate Live(store: Store, k: Key) {
    k in store && store[k].Saved?
  }

  function Results(store: Store, keys: seq<Key>): (r: seq<Value>)
    requires forall k :: k in keys ==> Live(store, k)
    ensures |r| == |keys|
  {
    if keys == [] then []
    else
      var last := keys[|keys| - 1];
      assert last in keys && Live(store, last);
      Results(store, keys[..|keys| - 1]) + [store[last].p.result]
  }

  /** Whether collating raises: an entry of the group list, or the original arguments, are not there. */
  predicate Collects(store: Store, g: Id) {
    && (forall k :: k in Listed(store, g) ==> Live(store, k))
    && ArgsKey(g) in store && store[ArgsKey(g)].Args?
  }

  /** The package of the last sub-task turned into that of the whole iterable. */
  function Combined(store: Store, g: Id, p: Package): Package
    requires Collects(store, g)
  {
    p.(id := g, group := None, iterCount := 0, iterCached := false,
       args := store[ArgsKey(g)].args, result := List(Results(store, Listed(store, g)) + [p.result]))
  }

  function Elements(keys: seq<Key>): set<Key> {
    set k | k in keys
  }

  /** The cache, and the packages handed to save_task, after save_cached. */
  ghost function SavedCached(store: Store, saved: seq<Package>, p: Package): (Store, seq<Package>)
    decreases if p.group.Some? then 1 else 0
  {
    if p.group.None? then (store[TaskKey(p.id) := Saved(p)], saved)
    else
      var g := p.group.value;
      var list := Listed(store, g);
      if p.iterCount > 0 && |list| == p.iterCount - 1 then
        if !Collects(store, g) then (store, saved)
        else
          var c := Combined(store, g, p);
          var r := if p.iterCached then SavedCached(store, saved, c) else (store, saved + [c]);
          (r.0 - Elements(list) - {GroupKey(g), ArgsKey(g)}, r.1)
      else (store[GroupKey(g) := Keys(list + [TaskKey(p.id)])][TaskKey(p.id) := Saved(p)], saved)
  }

  class Cache {
    var store: Store
    var saved: seq<Package>

    constructor (store: Store)
      ensures this.store == store && saved == []
    {
      this.store, saved := store, [];
    }

    /** Raising part way leaves the cache alone: nothing is written before everything is read. */
    method Collect(g: Id, keys: seq<Key>) returns (ok: bool, results: seq<Value>)
      ensures ok <==> forall k :: k in keys ==> Live(store, k)
      ensures ok ==> results == Results(store, keys)
    {
      results := [];
      var i := 0;
      while i < |keys|
        invariant i <= |keys|
        invariant forall k :: k in keys[..i] ==> Live(store, k)
        invariant results == Results(store, keys[..i])
      {
        if !(keys[i] in store && store[keys[i]].Saved?) {
          assert keys[i] in keys && !Live(store, keys[i]);
          return false, [];
        }
        assert keys[..i + 1] == keys[..i] + [keys[i]];
        assert keys[..i + 1][..i] == keys[..i];
        results := results + [store[keys[i]].p.result];
        i := i + 1;
      }
      assert keys[..i] == keys;
      ok := true;
    }

    method SaveCached(p: Package)
      modifies this
      ensures (store, saved) == SavedCached(old(store), old(saved), p)
      decreases if p.group.Some? then 1 else 0
    {
      if p.group.None? {
        store := store[TaskKey(p.id) := Saved(p)];
        return;
      }
      var g := p.group.value;
      var list := if GroupKey(g) in store && store[GroupKey(g)].Keys? then store[GroupKey(g)].keys else [];
      if p.iterCount > 0 && |list| == p.iterCount - 1 {
        var ok, results := Collect(g, list);
        if !ok || !(ArgsKey(g) in store && store[ArgsKey(g)].Args?) {
          return;
        }
        var task := p.(result := List(results + [p.result]), id := g, args := store[ArgsKey(g)].args,
                       iterCount := 0, group := None);
        if task.iterCached {
          task := task.(iterCached := false);
          SaveCached(task);
        } else {
          saved := saved + [task];
        }
        store := store - (set k | k in list);
        store := store - {GroupKey(g), ArgsKey(g)};
        return;
      }
      list := list + [TaskKey(p.id)];
      store := store[GroupKey(g) := Keys(list)];
      store := store[TaskKey(p.id) := Saved(p)];
    }
  }

  // ---------------------------------------------------------------- one iterable among other work

  function IdsOf(ps: seq<Package>): set<Id> {
    set i | 0 <= i < |ps| :: ps[i].id
  }

  /** The sub-tasks of one async_iter: one group, the right count, ids of their own. */
  ghost predicate Iterable(subs: seq<Package>, g: Id, n: nat, cached: bool) {
    && |subs| <= n && g !in IdsOf(subs)
    && (forall i :: 0 <= i < |subs| ==>
         subs[i].group == Some(g) && subs[i].iterCount == n && subs[i].iterCached == cached)
    && (forall i, j :: 0 <= i < j < |subs| ==> subs[i].id != subs[j].id)
  }

  function KeysOf(ps: seq<Package>): seq<Key> {
    seq(|ps|, i requires 0 <= i < |ps| => TaskKey(ps[i].id))
  }

  function ResultsOf(ps: seq<Package>): seq<Value> {
    seq(|ps|, i requires 0 <= i < |ps| => ps[i].result)
  }

  /** Some sub-tasks are saved, not yet all: the group list has them in order of completion, each with a
      live entry. */
  ghost predicate Collecting(store: Store, g: Id, done: seq<Package>, args: Value) {
    && (if done == [] then GroupKey(g) !in store else GroupKey(g) in store && store[GroupKey(g)] == Keys(KeysOf(done)))
    && (forall i :: 0 <= i < |done| ==> TaskKey(done[i].id) in store && store[TaskKey(done[i].id)] == Saved(done[i]))
    && ArgsKey(g) in store && store[ArgsKey(g)] == Args(args)
  }

  /** What the whole iterable is saved as. */
  function Whole(g: Id, done: seq<Package>, args: Value): Package
    requires done != []
  {
    Package(g, None, 0, false, args, List(ResultsOf(done)), done[|done| - 1].success)
  }

  lemma {:induction false} ResultsAre(store: Store, done: seq<Package>)
    requires forall i :: 0 <= i < |done| ==>
      TaskKey(done[i].id) in store && store[TaskKey(done[i].id)] == Saved(done[i])
    ensures forall k :: k in KeysOf(done) ==> Live(store, k)
    ensures Results(store, KeysOf(done)) == ResultsOf(done)
  {
    if done != [] {
      var n := |done| - 1;
      ResultsAre(store, done[..n]);
      assert KeysOf(done)[..n] == KeysOf(done[..n]);
      assert ResultsOf(done) == ResultsOf(done[..n]) + [done[n].result];
    }
  }

  lemma NotTheLast(store: Store, saved: seq<Package>, g: Id, n: nat, cached: bool, done: seq<Package>, p: Package,
      args: Value)
    requires Iterable(done + [p], g, n, cached) && |done| < n - 1 && Collecting(store, g, done, args)
    ensures
      var r := SavedCached(store, saved, p);
      && Collecting(r.0, g, done + [p], args) && r.1 == saved
      && (forall k :: k !in {GroupKey(g), TaskKey(p.id)} ==>
           (k in r.0 <==> k in store) && (k in store ==> r.0[k] == store[k]))
  {
    assert (done + [p])[|done|] == p;
    assert forall i :: 0 <= i < |done| ==> (done + [p])[i] == done[i];
    assert Listed(store, g) == KeysOf(done);
    assert KeysOf(done) + [TaskKey(p.id)] == KeysOf(done + [p]);
  }

  /** The last one: the combined package takes the place of everything the iterable had in the cache. */
  lemma TheLast(store: Store, saved: seq<Package>, g: Id, n: nat, cached: bool, done: seq<Package>, p: Package,
      args: Value)
    requires Iterable(done + [p], g, n, cached) && |done| == n - 1 && Collecting(store, g, done, args)
    ensures
      var r := SavedCached(store, saved, p);
      var whole := Whole(g, done + [p], args);
      && GroupKey(g) !in r.0 && ArgsKey(g) !in r.0 && (forall id :: id in IdsOf(done) ==> TaskKey(id) !in r.0)
      && (forall k :: k !in Elements(KeysOf(done)) + {GroupKey(g), ArgsKey(g), TaskKey(g)} ==>
            (k in r.0 <==> k in store) && (k in store ==> r.0[k] == store[k]))
      && (if cached then r.1 == saved && TaskKey(g) in r.0 && r.0[TaskKey(g)] == Saved(whole)
          else r.1 == saved + [whole] && (TaskKey(g) in r.0 <==> TaskKey(g) in store))
  {
    var all := done + [p];
    assert all[|done|] == p && forall i :: 0 <= i < |done| ==> all[i] == done[i];
    assert Listed(store, g) == KeysOf(done);
    ResultsAre(store, done);
    assert ResultsOf(done) + [p.result] == ResultsOf(all);
    assert Combined(store, g, p) == Whole(g, all, args);
    forall i | 0 <= i < |done| ensures TaskKey(done[i].id) in Elements(KeysOf(done)) && done[i].id != g {
      assert KeysOf(done)[i] == TaskKey(done[i].id);
      assert all[i].id in IdsOf(all);
    }
  }

  // ---------------------------------------------------------------- the whole run

  ghost function SaveEach(store: Store, saved: seq<Package>, ps: seq<Package>): (Store, seq<Package>)
    decreases |ps|
  {
    if ps == [] then (store, saved)
    else
      var r := SaveEach(store, saved, ps[..|ps| - 1]);
      SavedCached(r.0, r.1, ps[|ps| - 1])
  }

  /** The sub-tasks among the results, in order of completion. */
  function Members(ps: seq<Package>, g: Id): seq<Package> {
    if ps == [] then []
    else
      var before := Members(ps[..|ps| - 1], g);
      if ps[|ps| - 1].group == Some(g) then before + [ps[|ps| - 1]] else before
  }

  function OfId(saved: seq<Package>, g: Id): seq<Package> {
    if saved == [] then []
    else
      var before := OfId(saved[..|saved| - 1], g);
      if saved[|saved| - 1].id == g then before + [saved[|saved| - 1]] else before
  }

  /** The keys of the iterable: its list, its arguments, its result and its sub-tasks. */
  predicate Mine(k: Key, g: Id, ids: set<Id>) {
    match k
    case TaskKey(id) => id == g || id in ids
    case GroupKey(h) => h == g
    case ArgsKey(h) => h == g
  }

  /** uuids: nothing else uses the ids of the iterable. */
  ghost predicate Fits(p: Package, g: Id, ids: set<Id>) {
    if p.group == Some(g) then p.id in ids
    else p.id != g && p.id !in ids && (p.group.Some? ==> p.group.value !in ids)
  }

  ghost predicate ListsApart(store: Store, g: Id, ids: set<Id>) {
    forall h, k :: h != g && k in Listed(store, h) ==> !Mine(k, g, ids)
  }

  ghost predicate Agree(s: Store, t: Store, k: Key) {
    (k in s <==> k in t) && (k in s ==> s[k] == t[k])
  }

  lemma OneMoreSaved(saved: seq<Package>, c: Package, g: Id)
    ensures OfId(saved + [c], g) == OfId(saved, g) + (if c.id == g then [c] else [])
  {
    assert (saved + [c])[..|saved + [c]| - 1] == saved;
  }

  lemma OtherGroupKept(store: Store, saved: seq<Package>, p: Package, i: Id)
    requires p.group != Some(i)
    ensures
      var r := SavedCached(store, saved, p);
      GroupKey(i) in r.0 ==> GroupKey(i) in store && r.0[GroupKey(i)] == store[GroupKey(i)]
  {
  }

  lemma OwnGroupGrows(store: Store, saved: seq<Package>, p: Package, k: Key)
    requires p.group.Some?
    ensures
      var r := SavedCached(store, saved, p);
      k in Listed(r.0, p.group.value) ==> k in Listed(store, p.group.value) || k == TaskKey(p.id)
  {
  }

  /** Saving anything else does not touch the iterable. */
  lemma ForeignStep(store: Store, saved: seq<Package>, p: Package, g: Id, ids: set<Id>)
    requires p.group != Some(g) && Fits(p, g, ids) && ListsApart(store, g, ids)
    ensures
      var r := SavedCached(store, saved, p);
      && (forall k :: Mine(k, g, ids) ==> Agree(r.0, store, k))
      && ListsApart(r.0, g, ids)
      && OfId(r.1, g) == OfId(saved, g)
  {
    var r := SavedCached(store, saved, p);
    if p.group.Some? {
      var h := p.group.value;
      if Collects(store, h) {
        OneMoreSaved(saved, Combined(store, h, p), g);
      }
    }
    forall i, k | i != g && k in Listed(r.0, i) ensures !Mine(k, g, ids) {
      if p.group == Some(i) {
        OwnGroupGrows(store, saved, p, k);
      } else {
        OtherGroupKept(store, saved, p, i);
        assert k in Listed(store, i);
      }
    }
  }

  /** Of the iterable's sub-tasks, only those already saved are in the cache. */
  ghost predicate Underway(store: Store, saved: seq<Package>, g: Id, ids: set<Id>, own: seq<Package>, args: Value) {
    && Collecting(store, g, own, args)
    && TaskKey(g) !in store && OfId(saved, g) == []
    && forall id :: id in ids && TaskKey(id) in store ==> id in IdsOf(own)
  }

  /** Exactly one result of the whole is left, in the Task table or under its own key, and nothing else. */
  ghost predicate Complete(store: Store, saved: seq<Package>, g: Id, ids: set<Id>, cached: bool, whole: Package) {
    && (forall k :: Mine(k, g, ids) && k in store ==> cached && k == TaskKey(g))
    && (cached ==> TaskKey(g) in store && store[TaskKey(g)] == Saved(whole))
    && OfId(saved, g) == if cached then [] else [whole]
  }

  ghost predicate Progress(store: Store, saved: seq<Package>, g: Id, ids: set<Id>, n: nat, cached: bool,
      own: seq<Package>, args: Value)
  {
    if |own| < n then Underway(store, saved, g, ids, own, args)
    else own != [] && Complete(store, saved, g, ids, cached, Whole(g, own, args))
  }

  lemma Undisturbed(s: Store, saved: seq<Package>, t: Store, saved': seq<Package>,
      g: Id, ids: set<Id>, n: nat, cached: bool, own: seq<Package>, args: Value)
    requires Progress(s, saved, g, ids, n, cached, own, args) && IdsOf(own) <= ids
    requires (forall k :: Mine(k, g, ids) ==> Agree(t, s, k)) && OfId(saved', g) == OfId(saved, g)
    ensures Progress(t, saved', g, ids, n, cached, own, args)
  {
    assert Mine(TaskKey(g), g, ids) && Mine(GroupKey(g), g, ids) && Mine(ArgsKey(g), g, ids);
    assert forall i :: 0 <= i < |own| ==> own[i].id in IdsOf(own) && Mine(TaskKey(own[i].id), g, ids);
    assert forall id :: id in ids ==> Mine(TaskKey(id), g, ids);
  }

  lemma OwnNotLast(store: Store, saved: seq<Package>, p: Package, g: Id, ids: set<Id>, n: nat, cached: bool,
      own: seq<Package>, args: Value)
    requires p.group == Some(g) && Fits(p, g, ids) && g !in ids
    requires Iterable(own + [p], g, n, cached) && IdsOf(own) <= ids
    requires Underway(store, saved, g, ids, own, args)
    requires |own| < n - 1
    ensures
      var r := SavedCached(store, saved, p);
      Underway(r.0, r.1, g, ids, own + [p], args)
  {
    NotTheLast(store, saved, g, n, cached, own, p, args);
    assert (own + [p])[|own|] == p && forall i :: 0 <= i < |own| ==> (own + [p])[i] == own[i];
    assert (own + [p])[|own|].id in IdsOf(own + [p]);
    assert forall i :: 0 <= i < |own| ==> (own + [p])[i].id in IdsOf(own + [p]);
    PartOf(own, p, g, n, cached);
  }

  lemma OwnLast(store: Store, saved: seq<Package>, p: Package, g: Id, ids: set<Id>, n: nat, cached: bool,
      own: seq<Package>, args: Value)
    requires p.group == Some(g) && Fits(p, g, ids) && g !in ids
    requires Iterable(own + [p], g, n, cached) && IdsOf(own) <= ids
    requires Underway(store, saved, g, ids, own, args)
    requires |own| == n - 1
    ensures
      var r := SavedCached(store, saved, p);
      Complete(r.0, r.1, g, ids, cached, Whole(g, own + [p], args))
  {
    TheLast(store, saved, g, n, cached, own, p, args);
    OneMoreSaved(saved, Whole(g, own + [p], args), g);
    forall i | 0 <= i < |own| ensures TaskKey(own[i].id) in Elements(KeysOf(own)) {
      assert KeysOf(own)[i] == TaskKey(own[i].id);
    }
  }

  lemma StillApart(s: Store, t: Store, g: Id, ids: set<Id>)
    requires ListsApart(s, g, ids) && forall h :: h != g ==> Agree(t, s, GroupKey(h))
    ensures ListsApart(t, g, ids)
  {
    assert forall h :: h != g ==> Listed(t, h) == Listed(s, h);
  }

  lemma OwnApart(store: Store, saved: seq<Package>, p: Package, g: Id, ids: set<Id>, n: nat, cached: bool,
      own: seq<Package>, args: Value)
    requires p.group == Some(g) && Fits(p, g, ids) && g !in ids
    requires Iterable(own + [p], g, n, cached) && IdsOf(own) <= ids
    requires Underway(store, saved, g, ids, own, args)
    requires ListsApart(store, g, ids)
    ensures ListsApart(SavedCached(store, saved, p).0, g, ids)
  {
    var r := SavedCached(store, saved, p);
    PartOf(own, p, g, n, cached);
    if |own| < n - 1 {
      NotTheLast(store, saved, g, n, cached, own, p, args);
    } else {
      TheLast(store, saved, g, n, cached, own, p, args);
      assert forall h :: GroupKey(h) !in Elements(KeysOf(own));
    }
    StillApart(store, r.0, g, ids);
  }

  lemma OwnStep(store: Store, saved: seq<Package>, p: Package, g: Id, ids: set<Id>, n: nat, cached: bool,
      own: seq<Package>, args: Value)
    requires p.group == Some(g) && Fits(p, g, ids) && g !in ids
    requires Iterable(own + [p], g, n, cached) && IdsOf(own) <= ids
    requires Underway(store, saved, g, ids, own, args)
    requires ListsApart(store, g, ids)
    ensures
      var r := SavedCached(store, saved, p);
      Progress(r.0, r.1, g, ids, n, cached, own + [p], args) && ListsApart(r.0, g, ids)
  {
    PartOf(own, p, g, n, cached);
    OwnApart(store, saved, p, g, ids, n, cached, own, args);
    if |own| < n - 1 {
      OwnNotLast(store, saved, p, g, ids, n, cached, own, args);
    } else {
      OwnLast(store, saved, p, g, ids, n, cached, own, args);
    }
  }

  /** async_iter has stored the arguments; its group id and its sub-tasks' ids are new. */
  ghost predicate Started(store: Store, g: Id, ids: set<Id>, args: Value) {
    && g !in ids && ListsApart(store, g, ids)
    && (forall k :: Mine(k, g, ids) && k in store ==> k == ArgsKey(g))
    && ArgsKey(g) in store && store[ArgsKey(g)] == Args(args)
  }

  lemma OnePart(ps: seq<Package>, g: Id)
    requires ps != []
    ensures
      var own, before, p := Members(ps, g), Members(ps[..|ps| - 1], g), ps[|ps| - 1];
      own == if p.group == Some(g) then before + [p] else before
  {
  }

  lemma PartOf(own: seq<Package>, p: Package, g: Id, n: nat, cached: bool)
    requires Iterable(own + [p], g, n, cached)
    ensures Iterable(own, g, n, cached) && |own| < n
  {
    assert forall i :: 0 <= i < |own| ==> (own + [p])[i] == own[i];
    assert forall i :: 0 <= i < |own| ==> own[i].id in IdsOf(own + [p]);
  }

  lemma {:induction false} MembersFit(ps: seq<Package>, g: Id, ids: set<Id>)
    requires forall i :: 0 <= i < |ps| ==> Fits(ps[i], g, ids)
    ensures IdsOf(Members(ps, g)) <= ids
  {
    if ps != [] {
      MembersFit(ps[..|ps| - 1], g, ids);
      OnePart(ps, g);
      var before := Members(ps[..|ps| - 1], g);
      forall id | id in IdsOf(Members(ps, g)) ensures id in ids {
        var i :| 0 <= i < |Members(ps, g)| && Members(ps, g)[i].id == id;
        if i < |before| {
          assert before[i].id in IdsOf(before);
        } else {
          assert Fits(ps[|ps| - 1], g, ids);
        }
      }
    }
  }

  /** Results of one iterable of n sub-tasks, each saved once, in any order and among any other results:
      before the last, the group list has one live entry per finished sub-task in completion order; from
      the n-th on, exactly one result of the whole is left, with all n results, under the group's id and
      with the original arguments, and no other key of the iterable. */
  lemma {:induction false} IterableCollates(store: Store, ps: seq<Package>, g: Id, ids: set<Id>, n: nat, cached: bool,
      args: Value)
    requires n > 0 && Started(store, g, ids, args) && Iterable(Members(ps, g), g, n, cached)
    requires forall i :: 0 <= i < |ps| ==> Fits(ps[i], g, ids)
    ensures
      var r, own := SaveEach(store, [], ps), Members(ps, g);
      Progress(r.0, r.1, g, ids, n, cached, own, args) && ListsApart(r.0, g, ids)
    decreases |ps|
  {
    if ps == [] {
      assert Mine(TaskKey(g), g, ids) && Mine(GroupKey(g), g, ids);
      assert forall id :: id in ids ==> Mine(TaskKey(id), g, ids);
    } else {
      var before, p := ps[..|ps| - 1], ps[|ps| - 1];
      var r, own := SaveEach(store, [], before), Members(before, g);
      OnePart(ps, g);
      MembersFit(before, g, ids);
      assert Fits(p, g, ids);
      if p.group == Some(g) {
        PartOf(own, p, g, n, cached);
        IterableCollates(store, before, g, ids, n, cached, args);
        OwnStep(r.0, r.1, p, g, ids, n, cached, own, args);
      } else {
        IterableCollates(store, before, g, ids, n, cached, args);
        ForeignStep(r.0, r.1, p, g, ids);
        var t := SavedCached(r.0, r.1, p);
        Undisturbed(r.0, r.1, t.0, t.1, g, ids, n, cached, own, args);
      }
    }
  }

  // ---------------------------------------------------------------- when a sub-task is saved twice

  /** Results of one iterable's sub-tasks, any of them any number of times. */
  ghost predicate Deliveries(own: seq<Package>, g: Id, ids: set<Id>, n: nat, cached: bool) {
    && g !in ids
    && forall i :: 0 <= i < |own| ==>
         own[i].group == Some(g) && own[i].iterCount == n && own[i].iterCached == cached && own[i].id in ids
  }

  /** Up to the n-th save the list fills up, every key on it live; the n-th clears it and the arguments
      away; from the next on, the list fills up again, and stays. */
  ghost predicate Stage(store: Store, g: Id, n: nat, own: seq<Package>) {
    var list := Listed(store, g);
    if |own| < n then
      && list == KeysOf(own) && (forall k :: k in list ==> Live(store, k))
      && ArgsKey(g) in store && store[ArgsKey(g)].Args?
    else
      && ArgsKey(g) !in store
      && (if |own| == n then list == [] else list != [])
  }

  lemma FillsUp(store: Store, saved: seq<Package>, g: Id, ids: set<Id>, n: nat, cached: bool, own: seq<Package>,
      p: Package)
    requires Deliveries(own + [p], g, ids, n, cached) && |own| + 1 < n && Stage(store, g, n, own)
    ensures Stage(SavedCached(store, saved, p).0, g, n, own + [p])
  {
    assert (own + [p])[|own|] == p;
    assert KeysOf(own) + [TaskKey(p.id)] == KeysOf(own + [p]);
  }

  lemma ClearsAway(store: Store, saved: seq<Package>, g: Id, ids: set<Id>, n: nat, cached: bool, own: seq<Package>,
      p: Package)
    requires Deliveries(own + [p], g, ids, n, cached) && |own| + 1 == n && Stage(store, g, n, own)
    ensures Stage(SavedCached(store, saved, p).0, g, n, own + [p])
  {
    assert (own + [p])[|own|] == p;
  }

  lemma FillsAgain(store: Store, saved: seq<Package>, g: Id, ids: set<Id>, n: nat, cached: bool, own: seq<Package>,
      p: Package)
    requires Deliveries(own + [p], g, ids, n, cached) && 2 <= n <= |own| && Stage(store, g, n, own)
    ensures Stage(SavedCached(store, saved, p).0, g, n, own + [p])
  {
    assert (own + [p])[|own|] == p;
  }

  lemma OwnKeepsApart(store: Store, saved: seq<Package>, p: Package, g: Id, ids: set<Id>)
    requires p.group == Some(g) && ListsApart(store, g, ids)
    ensures ListsApart(SavedCached(store, saved, p).0, g, ids)
  {
    var r := SavedCached(store, saved, p);
    forall h, k | h != g && k in Listed(r.0, h)
      ensures !Mine(k, g, ids)
    {
      OtherGroupKept(store, saved, p, h);
      assert k in Listed(store, h);
    }
  }

  lemma {:induction false} KeysAreMine(own: seq<Package>, g: Id, ids: set<Id>, n: nat, cached: bool, k: Key)
    requires Deliveries(own, g, ids, n, cached) && k in KeysOf(own)
    ensures Mine(k, g, ids)
  {
    var i :| 0 <= i < |own| && KeysOf(own)[i] == k;
    assert own[i].id in ids;
  }

  lemma StageUndisturbed(s: Store, t: Store, g: Id, ids: set<Id>, n: nat, cached: bool, own: seq<Package>)
    requires Deliveries(own, g, ids, n, cached) && Stage(s, g, n, own)
    requires forall k :: Mine(k, g, ids) ==> Agree(t, s, k)
    ensures Stage(t, g, n, own)
  {
    assert Mine(GroupKey(g), g, ids) && Mine(ArgsKey(g), g, ids);
    assert Listed(t, g) == Listed(s, g);
    if |own| < n {
      forall k | k in Listed(t, g)
        ensures Live(t, k)
      {
        KeysAreMine(own, g, ids, n, cached, k);
      }
    }
  }

  lemma PartDelivered(own: seq<Package>, p: Package, g: Id, ids: set<Id>, n: nat, cached: bool)
    requires Deliveries(own + [p], g, ids, n, cached)
    ensures Deliveries(own, g, ids, n, cached)
  {
    assert forall i :: 0 <= i < |own| ==> (own + [p])[i] == own[i];
  }

  /** The stages, through any sequence of saves with the iterable's sub-tasks delivered any number of times. */
  lemma {:induction false} StagesPass(store: Store, ps: seq<Package>, g: Id, ids: set<Id>, n: nat, cached: bool,
      args: Value)
    requires n >= 2 && Started(store, g, ids, args) && Deliveries(Members(ps, g), g, ids, n, cached)
    requires forall i :: 0 <= i < |ps| ==> Fits(ps[i], g, ids)
    ensures
      var r := SaveEach(store, [], ps);
      Stage(r.0, g, n, Members(ps, g)) && ListsApart(r.0, g, ids)
    decreases |ps|
  {
    if ps == [] {
      assert Mine(GroupKey(g), g, ids);
      assert KeysOf([]) == [];
    } else {
      var before, p := ps[..|ps| - 1], ps[|ps| - 1];
      var r, own := SaveEach(store, [], before), Members(before, g);
      OnePart(ps, g);
      assert Fits(p, g, ids);
      if p.group == Some(g) {
        PartDelivered(own, p, g, ids, n, cached);
        StagesPass(store, before, g, ids, n, cached, args);
        OwnKeepsApart(r.0, r.1, p, g, ids);
        if |own| + 1 < n {
          FillsUp(r.0, r.1, g, ids, n, cached, own, p);
        } else if |own| + 1 == n {
          ClearsAway(r.0, r.1, g, ids, n, cached, own, p);
        } else {
          FillsAgain(r.0, r.1, g, ids, n, cached, own, p);
        }
      } else {
        StagesPass(store, before, g, ids, n, cached, args);
        ForeignStep(r.0, r.1, p, g, ids);
        StageUndisturbed(r.0, SavedCached(r.0, r.1, p).0, g, ids, n, cached, own);
      }
    }
  }

  ghost predicate NoneTwice(own: seq<Package>) {
    forall i, j :: 0 <= i < j < |own| ==> own[i].id != own[j].id
  }

  lemma OneMoreId(own: seq<Package>, p: Package)
    ensures IdsOf(own + [p]) == IdsOf(own) + {p.id}
    ensures NoneTwice(own) && p.id !in IdsOf(own) ==> NoneTwice(own + [p])
  {
    var more := own + [p];
    assert forall i :: 0 <= i < |own| ==> more[i] == own[i] && own[i].id in IdsOf(own);
    assert more[|own|] == p;
    forall id | id in IdsOf(own) + {p.id}
      ensures id in IdsOf(more)
    {
      if id in IdsOf(own) {
        var i :| 0 <= i < |own| && own[i].id == id;
        assert more[i].id == id;
      } else {
        assert more[|own|].id == id;
      }
    }
  }

  lemma {:induction false} IdsAtMost(own: seq<Package>)
    ensures |IdsOf(own)| <= |own|
    ensures |IdsOf(own)| == |own| ==> NoneTwice(own)
  {
    if own == [] {
      assert IdsOf(own) == {};
    } else {
      var n := |own| - 1;
      IdsAtMost(own[..n]);
      OneMoreId(own[..n], own[n]);
      assert own[..n] + [own[n]] == own;
    }
  }

  /** For an iterable of two sub-tasks or more, all of them saved, in whatever order and among whatever else:
      exactly one result of the whole and nothing else of the iterable is left if and only if none was
      saved twice; it then holds all n results. Otherwise the group list is left in the cache. */
  lemma CollatesIffNoneTwice(store: Store, ps: seq<Package>, g: Id, ids: set<Id>, n: nat, cached: bool, args: Value)
    requires n >= 2 && Started(store, g, ids, args) && Deliveries(Members(ps, g), g, ids, n, cached)
    requires forall i :: 0 <= i < |ps| ==> Fits(ps[i], g, ids)
    requires |ids| == n && IdsOf(Members(ps, g)) == ids
    ensures
      var r, own := SaveEach(store, [], ps), Members(ps, g);
      && own != []
      && (Complete(r.0, r.1, g, ids, cached, Whole(g, own, args)) <==> NoneTwice(own))
      && ((exists whole :: Complete(r.0, r.1, g, ids, cached, whole)) <==> NoneTwice(own))
      && (NoneTwice(own) ==> |own| == n)
      && (!NoneTwice(own) ==> GroupKey(g) in r.0)
  {
    var r, own := SaveEach(store, [], ps), Members(ps, g);
    StagesPass(store, ps, g, ids, n, cached, args);
    IdsAtMost(own);
    if NoneTwice(own) {
      DistinctSize(own);
      IterableCollates(store, ps, g, ids, n, cached, args);
    } else {
      assert Mine(GroupKey(g), g, ids);
    }
  }

  function First(own: seq<Package>): seq<Package> {
    if own == [] then [] else own[..1]
  }

  /** An iterable of one sub-task collates at its first save, and is not harmed by others. */
  lemma {:induction false} OneSubTask(store: Store, ps: seq<Package>, g: Id, ids: set<Id>, cached: bool, args: Value)
    requires Started(store, g, ids, args) && Deliveries(Members(ps, g), g, ids, 1, cached)
    requires forall i :: 0 <= i < |ps| ==> Fits(ps[i], g, ids)
    ensures
      var r := SaveEach(store, [], ps);
      Progress(r.0, r.1, g, ids, 1, cached, First(Members(ps, g)), args) && ListsApart(r.0, g, ids)
    decreases |ps|
  {
    if ps == [] {
      assert Mine(TaskKey(g), g, ids) && Mine(GroupKey(g), g, ids);
      assert forall id :: id in ids ==> Mine(TaskKey(id), g, ids);
    } else {
      var before, p := ps[..|ps| - 1], ps[|ps| - 1];
      var r, own := SaveEach(store, [], before), Members(before, g);
      OnePart(ps, g);
      assert Fits(p, g, ids);
      if p.group == Some(g) {
        PartDelivered(own, p, g, ids, 1, cached);
        OneSubTask(store, before, g, ids, cached, args);
        assert (own + [p])[|own|] == p;
        if own == [] {
          assert [] + [p] == [p] && First(own + [p]) == [p];
          OwnStep(r.0, r.1, p, g, ids, 1, cached, [], args);
        } else {
          assert First(own + [p]) == First(own);
          assert Mine(GroupKey(g), g, ids) && Mine(ArgsKey(g), g, ids);
          assert SavedCached(r.0, r.1, p) == r;
        }
      } else {
        OneSubTask(store, before, g, ids, cached, args);
        ForeignStep(r.0, r.1, p, g, ids);
        var t := SavedCached(r.0, r.1, p);
        assert forall i :: 0 <= i < |First(own)| ==> First(own)[i] == own[i];
        Undisturbed(r.0, r.1, t.0, t.1, g, ids, 1, cached, First(own), args);
      }
    }
  }

  // ---------------------------------------------------------------- groups that are no iterable

  /** The group list has a key for each save, in order, behind what it had; each entry is the last saved under
      its id. */
  ghost predicate GroupKept(store: Store, list: seq<Key>, g: Id, own: seq<Package>) {
    && Listed(store, g) == list + KeysOf(own)
    && forall i :: 0 <= i < |own| && (forall j :: i < j < |own| ==> own[j].id != own[i].id) ==>
         TaskKey(own[i].id) in store && store[TaskKey(own[i].id)] == Saved(own[i])
  }

  lemma KeptOn(store: Store, saved: seq<Package>, list: seq<Key>, g: Id, own: seq<Package>, p: Package)
    requires GroupKept(store, list, g, own) && p.group == Some(g) && p.iterCount == 0
    ensures GroupKept(SavedCached(store, saved, p).0, list, g, own + [p]) && SavedCached(store, saved, p).1 == saved
  {
    var t, more := SavedCached(store, saved, p).0, own + [p];
    assert KeysOf(more) == KeysOf(own) + [TaskKey(p.id)];
    assert more[|own|] == p;
    forall i | 0 <= i < |more| && forall j :: i < j < |more| ==> more[j].id != more[i].id
      ensures TaskKey(more[i].id) in t && t[TaskKey(more[i].id)] == Saved(more[i])
    {
      if i < |own| {
        assert more[|own|].id != more[i].id;
        assert forall j :: i < j < |own| ==> own[j] == more[j];
        assert TaskKey(own[i].id) in store && store[TaskKey(own[i].id)] == Saved(own[i]);
      }
    }
  }

  lemma KeptBeside(s: Store, t: Store, list: seq<Key>, g: Id, ids: set<Id>, own: seq<Package>)
    requires GroupKept(s, list, g, own) && IdsOf(own) <= ids && forall k :: Mine(k, g, ids) ==> Agree(t, s, k)
    ensures GroupKept(t, list, g, own)
  {
    assert Mine(GroupKey(g), g, ids);
    forall i | 0 <= i < |own|
      ensures Agree(t, s, TaskKey(own[i].id))
    {
      assert own[i].id in IdsOf(own);
      assert Mine(TaskKey(own[i].id), g, ids);
    }
  }

  lemma KeepsOneMore(store: Store, saved: seq<Package>, list: seq<Key>, g: Id, ids: set<Id>, own: seq<Package>,
      p: Package)
    requires GroupKept(store, list, g, own) && ListsApart(store, g, ids) && IdsOf(own) <= ids && OfId(saved, g) == []
    requires Fits(p, g, ids) && (p.group == Some(g) ==> p.iterCount == 0)
    ensures
      var r := SavedCached(store, saved, p);
      && GroupKept(r.0, list, g, if p.group == Some(g) then own + [p] else own)
      && ListsApart(r.0, g, ids) && OfId(r.1, g) == []
  {
    if p.group == Some(g) {
      KeptOn(store, saved, list, g, own, p);
      StillApart(store, SavedCached(store, saved, p).0, g, ids);
    } else {
      ForeignStep(store, saved, p, g, ids);
      KeptBeside(store, SavedCached(store, saved, p).0, list, g, ids, own);
    }
  }

  /** Cached results of a group that is no iterable, among any other saves: none is collated, each is listed, and
      the entry under a key is the result saved last. */
  lemma {:induction false} GroupKeepsAll(store: Store, ps: seq<Package>, g: Id, ids: set<Id>)
    requires ListsApart(store, g, ids)
    requires forall i :: 0 <= i < |ps| ==> Fits(ps[i], g, ids) && (ps[i].group == Some(g) ==> ps[i].iterCount == 0)
    ensures
      var r := SaveEach(store, [], ps);
      GroupKept(r.0, Listed(store, g), g, Members(ps, g)) && ListsApart(r.0, g, ids) && OfId(r.1, g) == []
    decreases |ps|
  {
    if ps == [] {
      assert Listed(store, g) + KeysOf([]) == Listed(store, g);
    } else {
      var before := ps[..|ps| - 1];
      var r := SaveEach(store, [], before);
      GroupKeepsAll(store, before, g, ids);
      OnePart(ps, g);
      MembersFit(before, g, ids);
      KeepsOneMore(r.0, r.1, Listed(store, g), g, ids, Members(before, g), ps[|ps| - 1]);
    }
  }

  // ---------------------------------------------------------------- from async_iter on

  /** Ids from `next` on have not been given out: nothing in the cache mentions them. */
  ghost predicate Unused(store: Store, next: Id) {
    && (forall k :: k in store ==> Named(k) < next)
    && (forall h, k :: k in Listed(store, h) ==> Named(k) < next)
  }

  function Named(k: Key): Id {
    match k
    case TaskKey(id) => id
    case GroupKey(h) => h
    case ArgsKey(h) => h
  }

  /** The i-th sub-task as it is queued; its result is not there yet. */
  function SubTask(g: Id, i: nat, args: Value, n: nat, cached: bool): Package {
    Package(g + 1 + i, Some(g), n, cached, args, Atom(0), false)
  }

  /** A finished run of a sub-task: all but result and success is as it was queued. */
  predicate Finishes(p: Package, sub: Package) {
    p == sub.(result := p.result, success := p.success)
  }

  class Client {
    var store: Store
    var queue: seq<Package>
    var next: Id

    constructor ()
      ensures store == map[] && queue == [] && Unused(store, next)
    {
      store, queue, next := map[], [], 0;
    }

    /** async_iter: the arguments are stored, and one sub-task queued for each. */
    method AsyncIter(args: seq<Value>, cached: bool) returns (g: Id)
      requires Unused(store, next)
      modifies this
      ensures g == old(next) && next == g + 1 + |args|
      ensures store == old(store)[ArgsKey(g) := Args(List(args))]
      ensures |queue| == |old(queue)| + |args| && old(queue) <= queue
      ensures forall i :: 0 <= i < |args| ==>
        var p := queue[|old(queue)| + i];
        && p.args == args[i] && p.id == old(next) + 1 + i
        && p.group == Some(g) && p.iterCount == |args| && p.iterCached == cached
      ensures Unused(store, next)
      ensures queue == old(queue) + SubTasks(g, args, |args|, cached)
    {
      g := next;
      next := next + 1;
      var n := |args|;
      store := store[ArgsKey(g) := Args(List(args))];
      for i := 0 to n
        invariant next == g + 1 + i && queue == old(queue) + SubTasks(g, args[..i], n, cached)
        invariant store == old(store)[ArgsKey(g) := Args(List(args))]
      {
        assert args[..i + 1] == args[..i] + [args[i]];
        assert SubTasks(g, args[..i + 1], n, cached) ==
          SubTasks(g, args[..i], n, cached) + [SubTask(g, i, args[i], n, cached)];
        queue := queue + [SubTask(g, i, args[i], n, cached)];
        next := next + 1;
      }
      assert args[..n] == args;
      assert forall h :: Listed(store, h) == Listed(old(store), h);
    }
  }

  function SubTasks(g: Id, args: seq<Value>, n: nat, cached: bool): seq<Package> {
    seq(|args|, i requires 0 <= i < |args| => SubTask(g, i, args[i], n, cached))
  }

  function IdsFrom(first: Id, n: nat): (ids: set<Id>)
    ensures forall id :: id in ids <==> first <= id < first + n
  {
    if n == 0 then {} else IdsFrom(first, n - 1) + {first + n - 1}
  }

  lemma IterStarts(store: Store, g: Id, args: seq<Value>)
    requires Unused(store, g)
    ensures Started(store[ArgsKey(g) := Args(List(args))], g, IdsFrom(g + 1, |args|), List(args))
  {
    var t := store[ArgsKey(g) := Args(List(args))];
    forall h, k | h != g && k in Listed(t, h) ensures !Mine(k, g, IdsFrom(g + 1, |args|)) {
      assert Listed(t, h) == Listed(store, h);
      assert Named(k) < g;
    }
  }

  lemma {:induction false} SizeOfRange(first: Id, n: nat)
    ensures |IdsFrom(first, n)| == n
  {
    if n > 0 {
      SizeOfRange(first, n - 1);
    }
  }

  lemma {:induction false} DistinctSize(ps: seq<Package>)
    requires forall i, j :: 0 <= i < j < |ps| ==> ps[i].id != ps[j].id
    ensures |IdsOf(ps)| == |ps|
  {
    if ps == [] {
      assert IdsOf(ps) == {};
    } else {
      var n := |ps| - 1;
      DistinctSize(ps[..n]);
      assert forall i :: 0 <= i < n ==> ps[..n][i] == ps[i];
      assert IdsOf(ps) == IdsOf(ps[..n]) + {ps[n].id};
    }
  }

  ghost predicate RunOfOne(p: Package, g: Id, args: seq<Value>, cached: bool) {
    exists k :: 0 <= k < |args| && Finishes(p, SubTask(g, k, args[k], |args|, cached))
  }

  /** Finished sub-tasks of one call, none twice: there are at most as many as were queued, and if there
      are as many, they are all of them. */
  lemma FinishedAreIterable(own: seq<Package>, g: Id, args: seq<Value>, cached: bool)
    requires forall i :: 0 <= i < |own| ==> RunOfOne(own[i], g, args, cached)
    requires forall i, j :: 0 <= i < j < |own| ==> own[i].id != own[j].id
    ensures Iterable(own, g, |args|, cached)
    ensures |own| == |args| ==> IdsOf(own) == IdsFrom(g + 1, |args|)
  {
    var ids := IdsFrom(g + 1, |args|);
    forall id | id in IdsOf(own) ensures id in ids {
      var i :| 0 <= i < |own| && own[i].id == id;
      assert RunOfOne(own[i], g, args, cached);
    }
    assert forall i :: 0 <= i < |own| ==> RunOfOne(own[i], g, args, cached);
    DistinctSize(own);
    SizeOfRange(g + 1, |args|);
    SubsetSize(IdsOf(own), ids);
  }

  /** The results that belong to one call of async_iter are finished runs of its sub-tasks, each saved
      once; everything else uses ids of its own. */
  ghost predicate Outcome(ps: seq<Package>, g: Id, args: seq<Value>, cached: bool) {
    var own := Members(ps, g);
    && (forall i :: 0 <= i < |own| ==> RunOfOne(own[i], g, args, cached))
    && (forall i, j :: 0 <= i < j < |own| ==> own[i].id != own[j].id)
    && (forall i :: 0 <= i < |ps| ==> Fits(ps[i], g, IdsFrom(g + 1, |args|)))
  }

  /** Each run got the argument that its id tells, and no argument was left out. */
  ghost predicate OneForEach(own: seq<Package>, g: Id, args: seq<Value>) {
    && |own| == |args|
    && (forall i :: 0 <= i < |own| ==> g < own[i].id <= g + |args| && own[i].args == args[own[i].id - g - 1])
    && (forall i, j :: 0 <= i < j < |own| ==> own[i].id != own[j].id)
    && (forall id :: id in IdsOf(own) <==> g < id <= g + |args|)
  }

  lemma RunOfArgument(p: Package, g: Id, args: seq<Value>, cached: bool)
    requires RunOfOne(p, g, args, cached)
    ensures g < p.id <= g + |args| && p.args == args[p.id - g - 1]
  {
  }

  lemma RunsOfArguments(own: seq<Package>, g: Id, args: seq<Value>, cached: bool)
    requires forall i :: 0 <= i < |own| ==> RunOfOne(own[i], g, args, cached)
    requires forall i, j :: 0 <= i < j < |own| ==> own[i].id != own[j].id
    requires |own| == |args|
    ensures OneForEach(own, g, args)
  {
    FinishedAreIterable(own, g, args, cached);
    forall i | 0 <= i < |own|
      ensures g < own[i].id <= g + |args| && own[i].args == args[own[i].id - g - 1]
    {
      assert RunOfOne(own[i], g, args, cached);
      RunOfArgument(own[i], g, args, cached);
    }
  }

  /** From the call to the result: once every sub-task of async_iter has been saved, in whatever order and
      among whatever else, there is exactly one combined result, under the id the call returned, with the
      original arguments and no other key of the iterable. Its elements are one for each argument: the k-th
      argument's is the result of the run that got it, wherever in the list it is. */
  lemma AsyncIterCollates(store: Store, g: Id, args: seq<Value>, cached: bool, ps: seq<Package>)
    requires args != [] && Unused(store, g) && Outcome(ps, g, args, cached) && |Members(ps, g)| == |args|
    ensures
      var r := SaveEach(store[ArgsKey(g) := Args(List(args))], [], ps);
      var own, ids := Members(ps, g), IdsFrom(g + 1, |args|);
      var whole := Whole(g, own, List(args));
      && Complete(r.0, r.1, g, ids, cached, whole)
      && whole.id == g && whole.args == List(args) && whole.success == own[|own| - 1].success
      && OneForEach(own, g, args) && |whole.result.items| == |args|
      && forall i :: 0 <= i < |own| ==> whole.result.items[i] == own[i].result
  {
    var own := Members(ps, g);
    FinishedAreIterable(own, g, args, cached);
    RunsOfArguments(own, g, args, cached);
    IterStarts(store, g, args);
    IterableCollates(store[ArgsKey(g) := Args(List(args))], ps, g, IdsFrom(g + 1, |args|), |args|, cached, List(args));
  }
}
