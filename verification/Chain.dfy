/**
 Chains: each saved link enqueues the next, between a pre and a post signal. Synchronously the next link
 runs, and is saved, inside that step; asynchronously it is only put on the broker.
 */
module Chain {
  import opened Options

  /** raises: what running the link does; keeps: its `save` option, or SAVE_LIMIT >= 0 without one. */
  datatype Link = Link(name: nat, raises: bool, keeps: bool)

  datatype Event = Enqueued(link: Link, group: nat) | Pre(link: Link) | Post(link: Link)

  /** Signals sent, rows created, the cached group list, and the cached entries, each in order. */
  datatype State = State(log: seq<Event>, rows: seq<Link>, list: seq<Link>, entries: seq<Link>)

  function Sends(s: State, e: Event): State {
    s.(log := s.log + [e])
  }

  // ---------------------------------------------------------------- synchronous chains

  /** async_chain with sync set, and whether it raises. */
  function RunChain(cached: bool, chain: seq<Link>, group: nat, s: State): (State, bool)
    requires chain != []
    decreases |chain|, 1
  {
    var s := Sends(s, Enqueued(chain[0], group));
    if chain[0].raises then (s, true)
    else if cached then SaveCached(chain[0], chain[1..], group, s)
    else SaveTask(chain[0], chain[1..], group, s)
  }

  /** save_task: an exception of the nested chain leaves through the finally, before anything is saved. */
  function SaveTask(link: Link, rest: seq<Link>, group: nat, s: State): (State, bool)
    decreases |rest| + 1, 0
  {
    if !link.keeps then (s, false)
    else if rest == [] then (s.(rows := s.rows + [link]), false)
    else
      var r := RunChain(false, rest, group, Sends(s, Pre(link)));
      var s := Sends(r.0, Post(link));
      if r.1 then (s, true) else (s.(rows := s.rows + [link]), false)
  }

  /** save_cached: the key is listed first; an exception of the nested chain is swallowed, but the entry
      is then not written. */
  function SaveCached(link: Link, rest: seq<Link>, group: nat, s: State): (State, bool)
    decreases |rest| + 1, 0
  {
    var s := s.(list := s.list + [link]);
    if rest == [] then (s.(entries := s.entries + [link]), false)
    else
      var r := RunChain(true, rest, group, Sends(s, Pre(link)));
      var s := Sends(r.0, Post(link));
      if r.1 then (s, false) else (s.(entries := s.entries + [link]), false)
  }

  class Site {
    var log: seq<Event>
    var rows: seq<Link>
    var list: seq<Link>
    var entries: seq<Link>

    ghost function Now(): State
      reads this
    {
      State(log, rows, list, entries)
    }

    constructor ()
      ensures Now() == State([], [], [], [])
    {
      log, rows, list, entries := [], [], [], [];
    }

    /** async_chain: the first link is popped and travels through _sync with the rest of the chain. */
    method AsyncChain(cached: bool, chain: seq<Link>, group: nat) returns (raised: bool)
      requires chain != []
      modifies this
      ensures (Now(), raised) == RunChain(cached, chain, group, old(Now()))
      decreases |chain|, 1
    {
      var link, rest := chain[0], chain[1..];
      log := log + [Enqueued(link, group)];
      if link.raises {
        return true;
      }
      if cached {
        SaveToCache(link, rest, group);
        raised := false;
      } else {
        raised := SaveToTable(link, rest, group);
      }
    }

    method SaveToTable(link: Link, rest: seq<Link>, group: nat) returns (raised: bool)
      modifies this
      ensures (Now(), raised) == SaveTask(link, rest, group, old(Now()))
      decreases |rest| + 1, 0
    {
      raised := false;
      if !link.keeps {
        return;
      }
      if rest != [] {
        log := log + [Pre(link)];
        raised := AsyncChain(false, rest, group);
        log := log + [Post(link)];
        if raised {
          return;
        }
      }
      rows := rows + [link];
    }

    method SaveToCache(link: Link, rest: seq<Link>, group: nat)
      modifies this
      ensures (Now(), false) == SaveCached(link, rest, group, old(Now()))
      decreases |rest| + 1, 0
    {
      list := list + [link];
      if rest != [] {
        log := log + [Pre(link)];
        var raised := AsyncChain(true, rest, group);
        log := log + [Post(link)];
        if raised {
          return;
        }
      }
      entries := entries + [link];
    }
  }

  /** The links that run: up to the first that raises or, unless cached, is not kept. */
  function Ran(cached: bool, chain: seq<Link>): (r: seq<Link>)
    ensures r <= chain && (chain != [] ==> r != [])
  {
    if chain == [] then []
    else if chain[0].raises || (!cached && !chain[0].keeps) then [chain[0]]
    else [chain[0]] + Ran(cached, chain[1..])
  }

  function Down(ran: seq<Link>, group: nat): seq<Event> {
    if ran == [] then []
    else if |ran| == 1 then [Enqueued(ran[0], group)]
    else [Enqueued(ran[0], group), Pre(ran[0])] + Down(ran[1..], group)
  }

  function Up(ran: seq<Link>): seq<Event> {
    if |ran| <= 1 then [] else Up(ran[1..]) + [Post(ran[0])]
  }

  function Reverse(links: seq<Link>): seq<Link> {
    if links == [] then [] else Reverse(links[1..]) + [links[0]]
  }

  function Last(ran: seq<Link>): Link
    requires ran != []
  {
    ran[|ran| - 1]
  }

  function Without(ran: seq<Link>, n: nat): seq<Link> {
    if |ran| <= n then [] else ran[..|ran| - n]
  }

  lemma RanOn(cached: bool, chain: seq<Link>)
    requires |chain| > 1 && !chain[0].raises && (cached || chain[0].keeps)
    ensures
      var ran, on := Ran(cached, chain), Ran(cached, chain[1..]);
      && ran == [chain[0]] + on && ran[1..] == on && |ran| > 1 && Last(ran) == Last(on)
      && Without(ran, 1) == [chain[0]] + Without(on, 1)
      && (|on| > 1 ==> Without(ran, 2) == [chain[0]] + Without(on, 2))
  {
  }

  lemma ReverseOn(link: Link, links: seq<Link>)
    ensures Reverse([link] + links) == Reverse(links) + [link]
  {
    assert ([link] + links)[1..] == links;
  }

  lemma Around(l: seq<Event>, a: Event, b: Event, down: seq<Event>, up: seq<Event>, c: Event)
    ensures ((l + [a]) + [b] + down + up) + [c] == l + ([a, b] + down) + (up + [c])
  {
  }

  function Opened(cached: bool, link: Link, group: nat, s: State): State {
    State(s.log + [Enqueued(link, group)] + [Pre(link)], s.rows, if cached then s.list + [link] else s.list, s.entries)
  }

  /** One level of the recursion: the state the rest of the chain starts in, and what is done after it. */
  lemma OneLevel(cached: bool, chain: seq<Link>, group: nat, s: State)
    requires |chain| > 1 && !chain[0].raises && (cached || chain[0].keeps)
    ensures
      var link := chain[0];
      var on := RunChain(cached, chain[1..], group, Opened(cached, link, group, s));
      var t := Sends(on.0, Post(link));
      RunChain(cached, chain, group, s) ==
        if on.1 then (t, !cached)
        else if cached then (t.(entries := t.entries + [link]), false)
        else (t.(rows := t.rows + [link]), false)
  {
  }

  /** A synchronous chain of cached links: signals nested, the group list in chain order, an entry for
      each link but, when one raises, the raising link and the one before it. */
  lemma {:induction false} CachedChain(chain: seq<Link>, group: nat, s: State)
    requires chain != []
    ensures
      var r, ran := RunChain(true, chain, group, s), Ran(true, chain);
      && r.1 == chain[0].raises
      && r.0.log == s.log + Down(ran, group) + Up(ran)
      && r.0.rows == s.rows
      && r.0.list == s.list + (if Last(ran).raises then Without(ran, 1) else ran)
      && r.0.entries == s.entries + Reverse(if Last(ran).raises then Without(ran, 2) else ran)
    decreases |chain|
  {
    if chain[0].raises || |chain| == 1 {
      assert Reverse([chain[0]]) == [chain[0]];
    } else {
      var link, rest := chain[0], chain[1..];
      OneLevel(true, chain, group, s);
      CachedChain(rest, group, Opened(true, link, group, s));
      RanOn(true, chain);
      LogLevel(link, Ran(true, rest), group, s.log);
      ListLevel(link, Ran(true, rest), s.list);
      EntriesAll(link, Ran(true, rest), s.entries);
      EntriesWhenRaised(link, Ran(true, rest), s.entries);
    }
  }

  lemma LogLevel(link: Link, on: seq<Link>, group: nat, log: seq<Event>)
    requires on != []
    ensures
      var ran := [link] + on;
      (log + [Enqueued(link, group)]) + [Pre(link)] + Down(on, group) + Up(on) + [Post(link)] ==
        log + Down(ran, group) + Up(ran)
  {
    assert ([link] + on)[1..] == on;
    Around(log, Enqueued(link, group), Pre(link), Down(on, group), Up(on), Post(link));
  }

  lemma ReverseLevel(link: Link, on: seq<Link>, n: nat, rows: seq<Link>)
    requires n <= |on|
    ensures (rows + Reverse(Without(on, n))) + [link] == rows + Reverse(Without([link] + on, n))
  {
    ReverseOn(link, Without(on, n));
    assert Without([link] + on, n) == [link] + Without(on, n);
  }

  lemma ListLevel(link: Link, on: seq<Link>, list: seq<Link>)
    requires on != []
    ensures (list + [link]) + on == list + ([link] + on)
    ensures (list + [link]) + Without(on, 1) == list + Without([link] + on, 1)
  {
    assert Without([link] + on, 1) == [link] + Without(on, 1);
  }

  lemma EntriesAll(link: Link, on: seq<Link>, entries: seq<Link>)
    ensures (entries + Reverse(on)) + [link] == entries + Reverse([link] + on)
  {
    ReverseOn(link, on);
  }

  lemma EntriesWhenRaised(link: Link, on: seq<Link>, entries: seq<Link>)
    requires on != []
    ensures |on| > 1 ==> (entries + Reverse(Without(on, 2))) + [link] == entries + Reverse(Without([link] + on, 2))
    ensures |on| == 1 ==> entries + Reverse(Without([link] + on, 2)) == entries
  {
    if |on| > 1 {
      ReverseLevel(link, on, 2, entries);
    } else {
      assert Without([link] + on, 2) == [];
      assert entries + Reverse([]) == entries;
    }
  }

  /** The same for links kept in the Task table: rows appear in reverse order, and when a link raises none
      at all; a link that is not kept ends the chain. */
  lemma {:induction false} TableChain(chain: seq<Link>, group: nat, s: State)
    requires chain != []
    ensures
      var r, ran := RunChain(false, chain, group, s), Ran(false, chain);
      && r.1 == Last(ran).raises
      && r.0.log == s.log + Down(ran, group) + Up(ran)
      && r.0.list == s.list && r.0.entries == s.entries
      && r.0.rows == s.rows +
           (if Last(ran).raises then [] else Reverse(if Last(ran).keeps then ran else Without(ran, 1)))
    decreases |chain|
  {
    if chain[0].raises || !chain[0].keeps || |chain| == 1 {
      assert Reverse([chain[0]]) == [chain[0]];
    } else {
      var link, rest := chain[0], chain[1..];
      OneLevel(false, chain, group, s);
      TableChain(rest, group, Opened(false, link, group, s));
      RanOn(false, chain);
      var on := Ran(false, rest);
      LogLevel(link, on, group, s.log);
      assert Without(on, 0) == on && Without([link] + on, 0) == [link] + on;
      ReverseLevel(link, on, 0, s.rows);
      ReverseLevel(link, on, 1, s.rows);
    }
  }

  // ---------------------------------------------------------------- brackets

  /** Pre opens, Post closes the innermost one open; None when it does not match. */
  function Brackets(open: seq<Link>, log: seq<Event>): Option<seq<Link>>
    decreases |log|
  {
    if log == [] then Some(open)
    else match log[0]
      case Enqueued(_, _) => Brackets(open, log[1..])
      case Pre(link) => Brackets(open + [link], log[1..])
      case Post(link) => if open != [] && Last(open) == link then Brackets(open[..|open| - 1], log[1..]) else None
  }

  function Links(log: seq<Event>): seq<Link> {
    if log == [] then []
    else (if log[0].Enqueued? then [log[0].link] else []) + Links(log[1..])
  }

  lemma {:induction false} BracketsJoin(open: seq<Link>, a: seq<Event>, b: seq<Event>)
    ensures
      var r := Brackets(open, a);
      Brackets(open, a + b) == if r.Some? then Brackets(r.value, b) else None
    decreases |a|
  {
    if a == [] {
      assert a + b == b;
    } else {
      assert (a + b)[0] == a[0] && (a + b)[1..] == a[1..] + b;
      match a[0] {
        case Enqueued(_, _) => BracketsJoin(open, a[1..], b);
        case Pre(link) => BracketsJoin(open + [link], a[1..], b);
        case Post(link) =>
          if open != [] && Last(open) == link {
            BracketsJoin(open[..|open| - 1], a[1..], b);
          }
      }
    }
  }

  lemma {:induction false} LinksJoin(a: seq<Event>, b: seq<Event>)
    ensures Links(a + b) == Links(a) + Links(b)
  {
    if a == [] {
      assert a + b == b;
    } else {
      assert (a + b)[0] == a[0] && (a + b)[1..] == a[1..] + b;
      LinksJoin(a[1..], b);
    }
  }

  lemma {:induction false} NestedBalances(ran: seq<Link>, group: nat, open: seq<Link>)
    ensures Brackets(open, Down(ran, group) + Up(ran)) == Some(open)
    ensures Links(Down(ran, group) + Up(ran)) == ran
  {
    if |ran| <= 1 {
      assert Down(ran, group) + Up(ran) == Down(ran, group);
    } else {
      var on, link := ran[1..], ran[0];
      var head, body, tail := [Enqueued(link, group), Pre(link)], Down(on, group) + Up(on), [Post(link)];
      NestedBalances(on, group, open + [link]);
      assert Down(ran, group) + Up(ran) == head + (body + tail);
      BracketsJoin(open + [link], body, tail);
      HeadBalances(open, link, group, body + tail);
      assert (open + [link])[..|open|] == open;
      LinksJoin(body, tail);
      assert ran == [link] + on;
    }
  }

  lemma HeadBalances(open: seq<Link>, link: Link, group: nat, log: seq<Event>)
    ensures Brackets(open, [Enqueued(link, group), Pre(link)] + log) == Brackets(open + [link], log)
    ensures Links([Enqueued(link, group), Pre(link)] + log) == [link] + Links(log)
  {
    var all, tail := [Enqueued(link, group), Pre(link)] + log, [Pre(link)] + log;
    assert all[1..] == tail && tail[1..] == log;
    assert Brackets(open, all) == Brackets(open, tail) && Links(all) == [link] + Links(tail);
  }

  ghost predicate InGroup(log: seq<Event>, group: nat) {
    forall i :: 0 <= i < |log| && log[i].Enqueued? ==> log[i].group == group
  }

  lemma {:induction false} OneGroup(ran: seq<Link>, group: nat)
    ensures InGroup(Down(ran, group) + Up(ran), group)
  {
    if |ran| > 1 {
      OneGroup(ran[1..], group);
      var body := Down(ran[1..], group) + Up(ran[1..]);
      var log := [Enqueued(ran[0], group), Pre(ran[0])] + body + [Post(ran[0])];
      assert Down(ran, group) + Up(ran) == log;
      forall i | 0 <= i < |log| && log[i].Enqueued?
        ensures log[i].group == group
      {
        if 2 <= i < |log| - 1 {
          assert log[i] == body[i - 2];
        }
      }
    }
  }

  /** The first links, up to one after which the chain does not go on: it raised or, in the table, is not kept. */
  ghost predicate UpToStop(cached: bool, chain: seq<Link>, ran: seq<Link>) {
    && ran <= chain && ran != []
    && (forall i :: 0 <= i < |ran| - 1 ==> !chain[i].raises && (cached || chain[i].keeps))
    && (|ran| < |chain| ==> Last(ran).raises || (!cached && !Last(ran).keeps))
  }

  lemma {:induction false} RanUpToStop(cached: bool, chain: seq<Link>)
    requires chain != []
    ensures UpToStop(cached, chain, Ran(cached, chain))
  {
    if |chain| > 1 && !chain[0].raises && (cached || chain[0].keeps) {
      RanUpToStop(cached, chain[1..]);
      RanOn(cached, chain);
      assert forall i :: 1 <= i < |chain| ==> chain[i] == chain[1..][i - 1];
    }
  }

  lemma SyncLog(cached: bool, chain: seq<Link>, group: nat)
    requires chain != []
    ensures
      var ran := Ran(cached, chain);
      RunChain(cached, chain, group, State([], [], [], [])).0.log == Down(ran, group) + Up(ran)
  {
    var s, ran := State([], [], [], []), Ran(cached, chain);
    if cached {
      CachedChain(chain, group, s);
    } else {
      TableChain(chain, group, s);
    }
    assert [] + Down(ran, group) + Up(ran) == Down(ran, group) + Up(ran);
  }

  /** Whatever a link does, a synchronous chain leaves its signals balanced, and has enqueued once, in order and in
      one group, each link up to the one at which it stops. */
  lemma SyncSignalsBalance(cached: bool, chain: seq<Link>, group: nat)
    requires chain != []
    ensures
      var r := RunChain(cached, chain, group, State([], [], [], []));
      && Brackets([], r.0.log) == Some([])
      && Links(r.0.log) == Ran(cached, chain) && UpToStop(cached, chain, Links(r.0.log))
      && InGroup(r.0.log, group)
  {
    RanUpToStop(cached, chain);
    SyncLog(cached, chain, group);
    NestedBalances(Ran(cached, chain), group, []);
    OneGroup(Ran(cached, chain), group);
  }

  /** When no link raises, and none drops out of a table chain, all of it is there at the end. */
  lemma {:induction false} AllRun(cached: bool, chain: seq<Link>)
    requires forall i :: 0 <= i < |chain| ==> !chain[i].raises && (cached || chain[i].keeps)
    ensures Ran(cached, chain) == chain
  {
    if chain != [] {
      AllRun(cached, chain[1..]);
    }
  }

  /** A cached synchronous chain ends with its group list in chain order and every key present exactly
      when no link raises. */
  lemma CachedChainComplete(chain: seq<Link>, group: nat)
    requires chain != []
    ensures
      var s := RunChain(true, chain, group, State([], [], [], [])).0;
      (s.list == chain && s.entries == Reverse(chain)) <==> forall i :: 0 <= i < |chain| ==> !chain[i].raises
  {
    var s := State([], [], [], []);
    var ran := Ran(true, chain);
    CachedChain(chain, group, s);
    if forall i :: 0 <= i < |chain| ==> !chain[i].raises {
      AllRun(true, chain);
      assert !Last(ran).raises;
    } else {
      StopsAtRaise(chain);
    }
  }

  lemma {:induction false} StopsAtRaise(chain: seq<Link>)
    requires exists i :: 0 <= i < |chain| && chain[i].raises
    ensures Last(Ran(true, chain)).raises
  {
    if !chain[0].raises {
      var i :| 0 <= i < |chain| && chain[i].raises;
      assert chain[1..][i - 1].raises;
      StopsAtRaise(chain[1..]);
    }
  }

  // ---------------------------------------------------------------- asynchronous chains

  /** A link waiting on the broker, with the rest of its chain and the chain's group. */
  datatype Job = Job(link: Link, rest: seq<Link>, group: nat)

  /** Whether saving the link's result goes on to the next: a success that is not kept does not, a failure does. */
  predicate GoesOn(cached: bool, j: Job) {
    j.rest != [] && (cached || j.link.keeps || j.link.raises)
  }

  function NextJob(j: Job): Job
    requires j.rest != []
  {
    Job(j.rest[0], j.rest[1..], j.group)
  }

  /** The broker's queue and the signals, while results of chain links are saved. */
  class Progress {
    var queue: seq<Job>
    var log: seq<Event>

    constructor (chain: seq<Link>, group: nat)
      requires chain != []
      ensures queue == [Job(chain[0], chain[1..], group)] && log == [Enqueued(chain[0], group)]
    {
      queue, log := [Job(chain[0], chain[1..], group)], [Enqueued(chain[0], group)];
    }

    /** The chain step of save_task or save_cached, for a result of j. */
    method Save(cached: bool, j: Job)
      modifies this
      ensures log == old(log) + Signals(cached, j)
      ensures queue == old(queue) + (if GoesOn(cached, j) then [NextJob(j)] else [])
    {
      if !cached && !j.link.keeps && !j.link.raises {
        return;
      }
      if j.rest != [] {
        log := log + [Pre(j.link)];
        queue := queue + [Job(j.rest[0], j.rest[1..], j.group)];
        log := log + [Enqueued(j.rest[0], j.group)];
        log := log + [Post(j.link)];
      }
    }

    /** Each link delivered once: the queue is worked off from the front. */
    method RunDry(cached: bool, ghost chain: seq<Link>, ghost group: nat)
      requires chain != [] && queue == [JobAt(chain, group, 0)] && log == [Enqueued(chain[0], group)]
      modifies this
      ensures queue == [] && log == Flat(Reached(cached, chain), group)
      ensures Links(log) <= chain
      ensures forall p :: 0 <= p < |chain| ==> (p < |Links(log)| <==> AllGoOn(cached, chain, p))
    {
      ReachedTells(cached, chain, group);
      ghost var at := 0;
      Begins(cached, chain, group);
      while queue != []
        invariant at < |chain|
        invariant if queue == [] then log == Flat(Reached(cached, chain), group)
                  else AtLink(cached, chain, group, at, queue, log)
        decreases |chain| - at, |queue|
      {
        var j := queue[0];
        queue := queue[1..];
        NextOrEnd(cached, chain, group, at, log);
        Save(cached, j);
        if GoesOn(cached, j) {
          at := at + 1;
        }
      }
    }

    /** A result of the at-th job on the broker is saved; unless its receipt is lost, the job is gone then. */
    method Deliver(cached: bool, at: nat, again: bool)
      requires at < |queue|
      modifies this
      ensures log == old(log) + Signals(cached, old(queue)[at])
      ensures queue == After(cached, old(queue), Delivery(at, again))
    {
      var j := queue[at];
      if !again {
        queue := queue[..at] + queue[at + 1..];
      }
      Save(cached, j);
    }

    /** Any number of deliveries, in any order. */
    method DeliverAll(cached: bool, ds: seq<Delivery>)
      requires Possible(cached, queue, ds)
      modifies this
      ensures Line(queue, log) == Played(cached, Line(old(queue), old(log)), ds)
    {
      var i := 0;
      while i < |ds|
        invariant i <= |ds| && Possible(cached, queue, ds[i..])
        invariant Played(cached, Line(queue, log), ds[i..]) == Played(cached, Line(old(queue), old(log)), ds)
      {
        assert ds[i..][0] == ds[i] && ds[i..][1..] == ds[i + 1..];
        Deliver(cached, ds[i].at, ds[i].again);
        i := i + 1;
      }
    }
  }

  /** The job of the i-th link. */
  function JobAt(chain: seq<Link>, group: nat, i: nat): Job
    requires i < |chain|
  {
    Job(chain[i], chain[i + 1..], group)
  }

  /** The chain has got to this link, whose job is the one on the broker. */
  ghost predicate AtLink(cached: bool, chain: seq<Link>, group: nat, at: nat, queue: seq<Job>, log: seq<Event>)
    requires at < |chain|
  {
    && at < Reach(cached, chain)
    && queue == [JobAt(chain, group, at)]
    && log == Flat(chain[..at + 1], group)
  }

  lemma Begins(cached: bool, chain: seq<Link>, group: nat)
    requires chain != []
    ensures AtLink(cached, chain, group, 0, [JobAt(chain, group, 0)], [Enqueued(chain[0], group)])
  {
    assert chain[..1] == [chain[0]];
  }

  lemma NextOrEnd(cached: bool, chain: seq<Link>, group: nat, at: nat, log: seq<Event>)
    requires at < |chain| && AtLink(cached, chain, group, at, [JobAt(chain, group, at)], log)
    ensures
      var j := JobAt(chain, group, at);
      if GoesOn(cached, j) then
        at + 1 < |chain| && AtLink(cached, chain, group, at + 1, [] + [NextJob(j)], log + Signals(cached, j))
      else log + Signals(cached, j) == Flat(Reached(cached, chain), group)
  {
    ReachStep(cached, chain, at);
    if at + 1 < |chain| {
      FlatNext(chain, at, group);
    }
  }

  function Signals(cached: bool, j: Job): seq<Event> {
    if GoesOn(cached, j) then [Pre(j.link), Enqueued(j.rest[0], j.group), Post(j.link)] else []
  }

  /** How many links an asynchronous chain gets to: up to the first success that is not kept. */
  function Reach(cached: bool, chain: seq<Link>): (n: nat)
    ensures n <= |chain| && (chain != [] ==> n > 0)
  {
    if chain == [] then 0
    else if !cached && !chain[0].keeps && !chain[0].raises then 1
    else 1 + Reach(cached, chain[1..])
  }

  function Reached(cached: bool, chain: seq<Link>): seq<Link> {
    chain[..Reach(cached, chain)]
  }

  /** Every link before this one has its result saved by a monitor that goes on with the chain. */
  ghost predicate AllGoOn(cached: bool, chain: seq<Link>, p: nat)
    requires p <= |chain|
  {
    forall q :: 0 <= q < p ==> cached || chain[q].keeps || chain[q].raises
  }

  lemma {:induction false} ReachTells(cached: bool, chain: seq<Link>, p: nat)
    requires p < |chain|
    ensures p < Reach(cached, chain) <==> AllGoOn(cached, chain, p)
    decreases p
  {
    if p > 0 {
      ReachTells(cached, chain[1..], p - 1);
      if AllGoOn(cached, chain[1..], p - 1) && (cached || chain[0].keeps || chain[0].raises) {
        assert forall q :: 1 <= q < p ==> chain[q] == chain[1..][q - 1];
      }
      if AllGoOn(cached, chain, p) {
        assert forall q :: 0 <= q < p - 1 ==> chain[1..][q] == chain[q + 1];
      }
    }
  }

  lemma ReachedTells(cached: bool, chain: seq<Link>, group: nat)
    requires chain != []
    ensures
      var links := Links(Flat(Reached(cached, chain), group));
      links <= chain && forall p :: 0 <= p < |chain| ==> (p < |links| <==> AllGoOn(cached, chain, p))
  {
    FlatBalances(Reached(cached, chain), group);
    forall p | 0 <= p < |chain|
      ensures p < Reach(cached, chain) <==> AllGoOn(cached, chain, p)
    {
      ReachTells(cached, chain, p);
    }
  }

  lemma {:induction false} ReachStep(cached: bool, chain: seq<Link>, at: nat)
    requires at < Reach(cached, chain)
    ensures GoesOn(cached, JobAt(chain, 0, at)) <==> at + 1 < Reach(cached, chain)
    decreases at
  {
    if at > 0 {
      ReachStep(cached, chain[1..], at - 1);
      assert chain[1..][at..] == chain[at + 1..];
    }
  }

  /** Signals side by side: one pre and one post around each link but the first. */
  function Flat(links: seq<Link>, group: nat): seq<Event> {
    if links == [] then []
    else if |links| == 1 then [Enqueued(links[0], group)]
    else
      var a, b := links[|links| - 2], links[|links| - 1];
      Flat(links[..|links| - 1], group) + [Pre(a), Enqueued(b, group), Post(a)]
  }

  lemma FlatNext(chain: seq<Link>, at: nat, group: nat)
    requires at + 1 < |chain|
    ensures
      Flat(chain[..at + 2], group) ==
        Flat(chain[..at + 1], group) + [Pre(chain[at]), Enqueued(chain[at + 1], group), Post(chain[at])]
    ensures chain[at + 1..][1..] == chain[at + 2..]
  {
    assert chain[..at + 2][..at + 1] == chain[..at + 1];
  }

  lemma OneTriple(a: Link, b: Link, group: nat)
    ensures Brackets([], [Pre(a), Enqueued(b, group), Post(a)]) == Some([])
    ensures Links([Pre(a), Enqueued(b, group), Post(a)]) == [b]
  {
    HeadOff(Pre(a), [Enqueued(b, group), Post(a)]);
    HeadOff(Enqueued(b, group), [Post(a)]);
    HeadOff(Post(a), []);
    assert [Pre(a)] + [Enqueued(b, group), Post(a)] == [Pre(a), Enqueued(b, group), Post(a)];
    assert [Enqueued(b, group)] + [Post(a)] == [Enqueued(b, group), Post(a)] && [Post(a)] + [] == [Post(a)];
    calc {
      Brackets([], [Pre(a), Enqueued(b, group), Post(a)]);
      { assert [] + [a] == [a]; }
      Brackets([a], [Enqueued(b, group), Post(a)]);
      Brackets([a], [Post(a)]);
      { assert [a][..0] == []; }
      Brackets([], []);
    }
  }

  lemma HeadOff(e: Event, log: seq<Event>)
    ensures ([e] + log)[1..] == log
    ensures Links([e] + log) == (if e.Enqueued? then [e.link] else []) + Links(log)
  {
  }

  lemma FlatOne(link: Link, group: nat)
    ensures Flat([link], group) == [Enqueued(link, group)] && Links([Enqueued(link, group)]) == [link]
    ensures Brackets([], [Enqueued(link, group)]) == Some([])
  {
    assert [Enqueued(link, group)][1..] == [] && Links([]) == [];
  }

  /** An asynchronous chain, each link delivered once: each link is enqueued once, in order, and each pair
      of signals is closed before the next is opened. */
  lemma {:induction false} FlatBalances(links: seq<Link>, group: nat)
    ensures Brackets([], Flat(links, group)) == Some([])
    ensures Links(Flat(links, group)) == links
  {
    if |links| == 1 {
      FlatOne(links[0], group);
      assert links == [links[0]];
    } else if links != [] {
      var n := |links| - 1;
      var before := Flat(links[..n], group);
      var triple := [Pre(links[n - 1]), Enqueued(links[n], group), Post(links[n - 1])];
      FlatBalances(links[..n], group);
      assert links == links[..n] + [links[n]];
      OneTriple(links[n - 1], links[n], group);
      BracketsJoin([], before, triple);
      LinksJoin(before, triple);
    }
  }

  // ---------------------------------------------------------------- links delivered more than once

  /** The at-th job on the broker is run and its result saved; `again`: it will be delivered once more. */
  datatype Delivery = Delivery(at: nat, again: bool)

  /** The broker's queue and the signals. */
  datatype Line = Line(queue: seq<Job>, log: seq<Event>)

  function Put(cached: bool, e: Job): seq<Job> {
    if GoesOn(cached, e) then [NextJob(e)] else []
  }

  function After(cached: bool, queue: seq<Job>, d: Delivery): seq<Job>
    requires d.at < |queue|
  {
    var j := queue[d.at];
    (if d.again then queue else queue[..d.at] + queue[d.at + 1..]) + Put(cached, j)
  }

  predicate Possible(cached: bool, queue: seq<Job>, ds: seq<Delivery>)
    decreases |ds|
  {
    ds == [] || (ds[0].at < |queue| && Possible(cached, After(cached, queue, ds[0]), ds[1..]))
  }

  function Played(cached: bool, l: Line, ds: seq<Delivery>): Line
    requires Possible(cached, l.queue, ds)
    decreases |ds|
  {
    if ds == [] then l
    else Played(cached, Line(After(cached, l.queue, ds[0]), l.log + Signals(cached, l.queue[ds[0].at])), ds[1..])
  }

  /** How often a job was delivered to be delivered again, or for the last time. */
  function Times(cached: bool, queue: seq<Job>, ds: seq<Delivery>, j: Job, again: bool): nat
    requires Possible(cached, queue, ds)
    decreases |ds|
  {
    if ds == [] then 0
    else
      (if queue[ds[0].at] == j && ds[0].again == again then 1 else 0) +
      Times(cached, After(cached, queue, ds[0]), ds[1..], j, again)
  }

  predicate IsLink(chain: seq<Link>, group: nat, j: Job) {
    |j.rest| < |chain| && j == JobAt(chain, group, |chain| - 1 - |j.rest|)
  }

  ghost predicate OfChain(chain: seq<Link>, group: nat, queue: seq<Job>) {
    forall i :: 0 <= i < |queue| ==> IsLink(chain, group, queue[i])
  }

  /** The jobs put on the broker, in order. */
  function Added(cached: bool, queue: seq<Job>, ds: seq<Delivery>): seq<Job>
    requires Possible(cached, queue, ds)
    decreases |ds|
  {
    if ds == [] then []
    else
      var e := queue[ds[0].at];
      Put(cached, e) + Added(cached, After(cached, queue, ds[0]), ds[1..])
  }

  function LinksOf(jobs: seq<Job>): seq<Link> {
    seq(|jobs|, i requires 0 <= i < |jobs| => jobs[i].link)
  }

  function Count(jobs: seq<Job>, j: Job): nat {
    multiset(jobs)[j]
  }

  /** Signals balanced and every link enqueued in this group. */
  ghost predicate Tidy(log: seq<Event>, group: nat) {
    Brackets([], log) == Some([]) && InGroup(log, group)
  }

  lemma SignalsTell(cached: bool, log: seq<Event>, j: Job)
    requires Tidy(log, j.group)
    ensures Tidy(log + Signals(cached, j), j.group)
    ensures Links(log + Signals(cached, j)) == Links(log) + LinksOf(Put(cached, j))
  {
    BracketsJoin([], log, Signals(cached, j));
    LinksJoin(log, Signals(cached, j));
    if GoesOn(cached, j) {
      OneTriple(j.link, j.rest[0], j.group);
    } else {
      assert Links([]) == [];
    }
  }

  lemma LinksOfJoin(links: seq<Link>, a: seq<Job>, b: seq<Job>)
    ensures (links + LinksOf(a)) + LinksOf(b) == links + LinksOf(a + b)
  {
  }

  /** However often and in whatever order links are delivered, the signals stay balanced, every link is in
      the chain's group, and the log names the jobs put on the broker. */
  lemma {:induction false} LogTells(cached: bool, l: Line, ds: seq<Delivery>, chain: seq<Link>, group: nat)
    requires Possible(cached, l.queue, ds) && OfChain(chain, group, l.queue) && Tidy(l.log, group)
    ensures Tidy(Played(cached, l, ds).log, group)
    ensures Links(Played(cached, l, ds).log) == Links(l.log) + LinksOf(Added(cached, l.queue, ds))
    decreases |ds|
  {
    if ds == [] {
    } else {
      var e := l.queue[ds[0].at];
      StaysOfChain(cached, chain, group, l.queue, ds[0]);
      SignalsTell(cached, l.log, e);
      var on := Line(After(cached, l.queue, ds[0]), l.log + Signals(cached, e));
      LogTells(cached, on, ds[1..], chain, group);
      LinksOfJoin(Links(l.log), Put(cached, e), Added(cached, on.queue, ds[1..]));
    }
  }

  lemma NextIsLink(cached: bool, chain: seq<Link>, group: nat, e: Job)
    requires IsLink(chain, group, e) && e.rest != []
    ensures IsLink(chain, group, NextJob(e))
  {
    assert chain[|chain| - |e.rest|..] == e.rest;
  }

  lemma StaysOfChain(cached: bool, chain: seq<Link>, group: nat, queue: seq<Job>, d: Delivery)
    requires d.at < |queue| && OfChain(chain, group, queue)
    ensures OfChain(chain, group, After(cached, queue, d))
    ensures queue[d.at].group == group
  {
    var e := queue[d.at];
    if GoesOn(cached, e) {
      NextIsLink(cached, chain, group, e);
    }
  }

  /** How one delivery changes what waits. */
  lemma OneDelivery(cached: bool, queue: seq<Job>, d: Delivery, j: Job)
    requires d.at < |queue|
    ensures
      Count(After(cached, queue, d), j) ==
        Count(queue, j) - (if queue[d.at] == j && !d.again then 1 else 0) + Count(Put(cached, queue[d.at]), j)
    ensures Count(queue, j) == 0 ==> queue[d.at] != j
  {
    assert queue == queue[..d.at] + [queue[d.at]] + queue[d.at + 1..];
  }

  /** What was put on the broker has been delivered for the last time or is still there. */
  lemma {:induction false} JobsAreKept(cached: bool, l: Line, ds: seq<Delivery>, j: Job)
    requires Possible(cached, l.queue, ds)
    ensures
      Count(Played(cached, l, ds).queue, j) + Times(cached, l.queue, ds, j, false) ==
        Count(l.queue, j) + Count(Added(cached, l.queue, ds), j)
    decreases |ds|
  {
    if ds == [] {
    } else {
      var e := l.queue[ds[0].at];
      OneDelivery(cached, l.queue, ds[0], j);
      JobsAreKept(cached, Line(After(cached, l.queue, ds[0]), l.log + Signals(cached, e)), ds[1..], j);
    }
  }

  lemma PutBy(cached: bool, chain: seq<Link>, group: nat, e: Job, p: nat)
    requires IsLink(chain, group, e) && p < |chain|
    ensures
      Count(Put(cached, e), JobAt(chain, group, p)) ==
        if p > 0 && GoesOn(cached, JobAt(chain, group, p - 1)) && e == JobAt(chain, group, p - 1) then 1 else 0
  {
    assert p > 0 ==> |JobAt(chain, group, p - 1).rest| == |chain| - p;
    if GoesOn(cached, e) {
      NextIsLink(cached, chain, group, e);
    }
  }

  lemma CountJoin(a: seq<Job>, b: seq<Job>, j: Job)
    ensures Count(a + b, j) == Count(a, j) + Count(b, j)
  {
  }

  /** The job of a link is put on the broker by each delivery of the link before it, and by nothing else. */
  lemma {:induction false} AddedByTheOneBefore(
      cached: bool, chain: seq<Link>, group: nat, queue: seq<Job>, ds: seq<Delivery>, p: nat)
    requires Possible(cached, queue, ds) && OfChain(chain, group, queue) && p < |chain|
    ensures
      Count(Added(cached, queue, ds), JobAt(chain, group, p)) ==
        if p == 0 || !GoesOn(cached, JobAt(chain, group, p - 1)) then 0
        else
          Times(cached, queue, ds, JobAt(chain, group, p - 1), false) +
          Times(cached, queue, ds, JobAt(chain, group, p - 1), true)
    decreases |ds|
  {
    if ds == [] {
    } else {
      var e, on := queue[ds[0].at], After(cached, queue, ds[0]);
      StaysOfChain(cached, chain, group, queue, ds[0]);
      AddedByTheOneBefore(cached, chain, group, on, ds[1..], p);
      PutBy(cached, chain, group, e, p);
      CountJoin(Put(cached, e), Added(cached, on, ds[1..]), JobAt(chain, group, p));
    }
  }

  lemma {:induction false} NeverThere(cached: bool, queue: seq<Job>, ds: seq<Delivery>, j: Job, again: bool)
    requires Possible(cached, queue, ds)
    requires Count(queue, j) == 0 == Count(Added(cached, queue, ds), j)
    ensures Times(cached, queue, ds, j, again) == 0
    decreases |ds|
  {
    if ds == [] {
    } else {
      OneDelivery(cached, queue, ds[0], j);
      NeverThere(cached, After(cached, queue, ds[0]), ds[1..], j, again);
    }
  }

  /** For each link, how many of its deliveries were not the last of their job. */
  function Extras(cached: bool, chain: seq<Link>, group: nat, ds: seq<Delivery>): seq<nat>
    requires chain != [] && Possible(cached, [JobAt(chain, group, 0)], ds)
  {
    seq(|chain|, q requires 0 <= q < |chain| =>
      Times(cached, [JobAt(chain, group, 0)], ds, JobAt(chain, group, q), true))
  }

  function Total(ns: seq<nat>): nat {
    if ns == [] then 0 else Total(ns[..|ns| - 1]) + ns[|ns| - 1]
  }

  /** For each link, how often its job was put on the broker, the call that starts the chain included. */
  function Enqueues(cached: bool, chain: seq<Link>, group: nat, ds: seq<Delivery>): seq<nat>
    requires chain != [] && Possible(cached, [JobAt(chain, group, 0)], ds)
  {
    seq(|chain|, p requires 0 <= p < |chain| =>
      Count([JobAt(chain, group, 0)] + Added(cached, [JobAt(chain, group, 0)], ds), JobAt(chain, group, p)))
  }

  lemma StartsTidy(chain: seq<Link>, group: nat, l: Line)
    requires chain != [] && l.queue == [JobAt(chain, group, 0)] && l.log == [Enqueued(chain[0], group)]
    ensures OfChain(chain, group, l.queue) && Tidy(l.log, group) && Links(l.log) == [] + LinksOf(l.queue)
  {
    FlatOne(chain[0], group);
    assert IsLink(chain, group, l.queue[0]);
  }

  /** The log of a chain, however it is delivered: balanced, in the chain's group, and naming the jobs that
      Enqueues counts. */
  lemma LogOfChain(cached: bool, chain: seq<Link>, group: nat, l: Line, ds: seq<Delivery>)
    requires chain != [] && l.queue == [JobAt(chain, group, 0)] && l.log == [Enqueued(chain[0], group)]
    requires Possible(cached, l.queue, ds)
    ensures Tidy(Played(cached, l, ds).log, group)
    ensures Links(Played(cached, l, ds).log) == LinksOf(l.queue + Added(cached, l.queue, ds))
  {
    StartsTidy(chain, group, l);
    LogTells(cached, l, ds, chain, group);
    LinksOfJoin([], l.queue, Added(cached, l.queue, ds));
  }

  /** Worked off to the end, a link is put on the broker once for each time the one before it was there,
      and once for each of that one's extra deliveries. */
  lemma AfterTheOneBefore(cached: bool, chain: seq<Link>, group: nat, queue: seq<Job>, ds: seq<Delivery>, p: nat)
    requires 0 < p < |chain| && Possible(cached, queue, ds) && OfChain(chain, group, queue)
    requires Played(cached, Line(queue, []), ds).queue == []
    ensures
      var before, added := JobAt(chain, group, p - 1), Added(cached, queue, ds);
      Count(added, JobAt(chain, group, p)) ==
        if !GoesOn(cached, before) then 0 else Count(queue + added, before) + Times(cached, queue, ds, before, true)
    ensures
      Count(queue + Added(cached, queue, ds), JobAt(chain, group, p - 1)) == 0 ==>
        Count(Added(cached, queue, ds), JobAt(chain, group, p)) == 0
  {
    var before := JobAt(chain, group, p - 1);
    AddedByTheOneBefore(cached, chain, group, queue, ds, p);
    JobsAreKept(cached, Line(queue, []), ds, before);
    CountJoin(queue, Added(cached, queue, ds), before);
    if Count(queue + Added(cached, queue, ds), before) == 0 {
      NeverThere(cached, queue, ds, before, true);
    }
  }

  /** A job after the first is put there by the deliveries of the one before it. */
  lemma FirstIsApart(chain: seq<Link>, group: nat, more: seq<Job>, p: nat)
    requires 0 < p < |chain|
    ensures Count([JobAt(chain, group, 0)] + more, JobAt(chain, group, p)) == Count(more, JobAt(chain, group, p))
  {
    assert |JobAt(chain, group, p).rest| == |chain| - p - 1 && |JobAt(chain, group, 0).rest| == |chain| - 1;
    CountJoin([JobAt(chain, group, 0)], more, JobAt(chain, group, p));
  }

  lemma EnqueuesAt(cached: bool, chain: seq<Link>, group: nat, ds: seq<Delivery>, p: nat)
    requires p < |chain| && Possible(cached, [JobAt(chain, group, 0)], ds)
    ensures
      var first := [JobAt(chain, group, 0)];
      Enqueues(cached, chain, group, ds)[p] == Count(first + Added(cached, first, ds), JobAt(chain, group, p))
  {
  }

  lemma EnqueuedByTheOneBefore(cached: bool, chain: seq<Link>, group: nat, ds: seq<Delivery>, p: nat)
    requires 0 < p < |chain| && Possible(cached, [JobAt(chain, group, 0)], ds)
    requires Played(cached, Line([JobAt(chain, group, 0)], []), ds).queue == []
    ensures
      var before := JobAt(chain, group, p - 1);
      Enqueues(cached, chain, group, ds)[p] ==
        if !GoesOn(cached, before) then 0
        else Enqueues(cached, chain, group, ds)[p - 1] + Times(cached, [JobAt(chain, group, 0)], ds, before, true)
    ensures Enqueues(cached, chain, group, ds)[p - 1] == 0 ==> Enqueues(cached, chain, group, ds)[p] == 0
  {
    var first := [JobAt(chain, group, 0)];
    assert IsLink(chain, group, first[0]);
    EnqueuesAt(cached, chain, group, ds, p - 1);
    EnqueuesAt(cached, chain, group, ds, p);
    AfterTheOneBefore(cached, chain, group, first, ds, p);
    FirstIsApart(chain, group, Added(cached, first, ds), p);
  }

  lemma FirstOnlyOnce(cached: bool, chain: seq<Link>, group: nat, ds: seq<Delivery>)
    requires chain != [] && Possible(cached, [JobAt(chain, group, 0)], ds)
    ensures Enqueues(cached, chain, group, ds)[0] == 1
  {
    assert IsLink(chain, group, JobAt(chain, group, 0));
    AddedByTheOneBefore(cached, chain, group, [JobAt(chain, group, 0)], ds, 0);
  }

  predicate Grows(enqueues: seq<nat>, extras: seq<nat>, reach: nat, q: nat)
    requires 0 < q < |enqueues| == |extras|
  {
    && (q < reach ==> enqueues[q] == enqueues[q - 1] + extras[q - 1])
    && (q == reach || enqueues[q - 1] == 0 ==> enqueues[q] == 0)
  }

  lemma {:induction false} GrowsByExtras(enqueues: seq<nat>, extras: seq<nat>, reach: nat, p: nat)
    requires p < |enqueues| == |extras| && 0 < reach && enqueues[0] == 1
    requires forall q :: 0 < q < |enqueues| ==> Grows(enqueues, extras, reach, q)
    ensures enqueues[p] == if p < reach then 1 + Total(extras[..p]) else 0
    decreases p
  {
    if p > 0 {
      assert Grows(enqueues, extras, reach, p);
      GrowsByExtras(enqueues, extras, reach, p - 1);
      assert extras[..p][..p - 1] == extras[..p - 1];
    }
  }

  lemma EnqueuesStep(cached: bool, chain: seq<Link>, group: nat, ds: seq<Delivery>, p: nat)
    requires 0 < p < |chain| && Possible(cached, [JobAt(chain, group, 0)], ds)
    requires Played(cached, Line([JobAt(chain, group, 0)], []), ds).queue == []
    ensures Grows(Enqueues(cached, chain, group, ds), Extras(cached, chain, group, ds), Reach(cached, chain), p)
  {
    EnqueuedByTheOneBefore(cached, chain, group, ds, p);
    if p <= Reach(cached, chain) {
      ReachStep(cached, chain, p - 1);
    }
  }

  /** An asynchronous chain worked off to the end, in any order of deliveries: each link with no unkept success
      before it is enqueued once, and once more for every extra delivery of a link before it; the others never. */
  lemma EnqueuedOnceAndExtra(cached: bool, chain: seq<Link>, group: nat, ds: seq<Delivery>, p: nat)
    requires p < |chain| && Possible(cached, [JobAt(chain, group, 0)], ds)
    requires Played(cached, Line([JobAt(chain, group, 0)], []), ds).queue == []
    ensures
      Enqueues(cached, chain, group, ds)[p] ==
        if AllGoOn(cached, chain, p) then 1 + Total(Extras(cached, chain, group, ds)[..p]) else 0
  {
    ReachTells(cached, chain, p);
    var enqueues, extras := Enqueues(cached, chain, group, ds), Extras(cached, chain, group, ds);
    FirstOnlyOnce(cached, chain, group, ds);
    forall q | 0 < q < |chain|
      ensures Grows(enqueues, extras, Reach(cached, chain), q)
    {
      EnqueuesStep(cached, chain, group, ds, q);
    }
    GrowsByExtras(enqueues, extras, Reach(cached, chain), p);
  }

  lemma {:induction false} TotalOfOne(ns: seq<nat>, i: nat)
    requires forall q :: 0 <= q < |ns| ==> ns[q] == if q == i then 1 else 0
    ensures Total(ns) == if i < |ns| then 1 else 0
  {
    if ns != [] {
      TotalOfOne(ns[..|ns| - 1], i);
    }
  }

  /** With one extra delivery, of link i, the links after i are enqueued twice and the others once. */
  lemma OneExtraDoublesTheRest(cached: bool, chain: seq<Link>, group: nat, ds: seq<Delivery>, i: nat, p: nat)
    requires p < |chain| && AllGoOn(cached, chain, p) && Possible(cached, [JobAt(chain, group, 0)], ds)
    requires Played(cached, Line([JobAt(chain, group, 0)], []), ds).queue == []
    requires forall q :: 0 <= q < |chain| ==> Extras(cached, chain, group, ds)[q] == if q == i then 1 else 0
    ensures Enqueues(cached, chain, group, ds)[p] == if p <= i then 1 else 2
  {
    EnqueuedOnceAndExtra(cached, chain, group, ds, p);
    TotalOfOne(Extras(cached, chain, group, ds)[..p], i);
  }
}
