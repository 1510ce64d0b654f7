/** Whole crawls: the steps of the LRU crawler interleaved with items being linked at the head and
    unlinked anywhere, and the crawl loop of crawler.c over one queue. */
module Crawler {
  import opened Common
  import opened LruQueue

  // ---- A crawl as a state machine ----

  datatype Event<T> = Step | LinkHead(x: T) | Unlink(j: nat)

  /** The queue, where the crawler stands in it, and what it has returned so far. */
  datatype Crawl<T> = Crawl(q: seq<T>, pos: nat, returned: seq<T>)

  ghost predicate Next<T>(s: Crawl<T>, e: Event<T>, s': Crawl<T>) {
    s.pos < |s.q| &&
    match e
    case Step => s.pos >= 1 && s' == Crawl(Transpose(s.q, s.pos), s.pos - 1, s.returned + [s.q[s.pos - 1]])
    case LinkHead(x) => x !in s.q && s' == Crawl([x] + s.q, s.pos + 1, s.returned)
    case Unlink(j) => j < |s.q| && j != s.pos && s' == Crawl(Without(s.q, j), if j < s.pos then s.pos - 1 else s.pos,
           s.returned)
  }

  /** A run from a crawler that has just entered at the tail. */
  ghost predicate Run<T>(states: seq<Crawl<T>>, events: seq<Event<T>>) {
    && |states| == |events| + 1
    && states[0].q != [] && states[0].pos == |states[0].q| - 1 && states[0].returned == [] && NoRepeat(states[0].q)
    && forall i :: 0 <= i < |events| ==> Next(states[i], events[i], states[i + 1])
  }

  /** How often `x` has been returned. */
  function Count<T(==)>(s: seq<T>, x: T): nat {
    if s == [] then 0 else Count(s[..|s| - 1], x) + if s[|s| - 1] == x then 1 else 0
  }

  ghost predicate Unlinks<T>(states: seq<Crawl<T>>, events: seq<Event<T>>, i: nat, x: T)
    requires i < |events| && i < |states|
  {
    events[i].Unlink? && events[i].j < |states[i].q| && states[i].q[events[i].j] == x
  }

  /** The order of the items themselves, without the crawler. */
  function Order<T>(s: Crawl<T>): seq<T>
    requires s.pos < |s.q|
  {
    Without(s.q, s.pos)
  }

  /** A crawl step moves no item past another. */
  lemma StepKeepsOrder<T>(s: Crawl<T>, s': Crawl<T>)
    requires Next(s, Step, s')
    ensures s'.pos < |s'.q| && Order(s') == Order(s)
    ensures s'.q[s'.pos] == s.q[s.pos]
  {
    TransposeAt(s.q, s.pos);
  }

  lemma NextShape<T>(s: Crawl<T>, e: Event<T>, s': Crawl<T>)
    requires Next(s, e, s') && NoRepeat(s.q)
    ensures s'.pos < |s'.q| && NoRepeat(s'.q) && s'.q[s'.pos] == s.q[s.pos]
  {
    match e
    case Step => DistinctAfter(s.q, s.pos);
    case LinkHead(x) =>
    case Unlink(j) => DistinctAfter(s.q, j);
  }

  lemma {:induction false} RunShape<T>(states: seq<Crawl<T>>, events: seq<Event<T>>, i: nat)
    requires Run(states, events) && i < |states|
    ensures states[i].pos < |states[i].q| && NoRepeat(states[i].q)
    ensures states[i].q[states[i].pos] == states[0].q[states[0].pos]
  {
    if i > 0 {
      RunShape(states, events, i - 1);
      NextShape(states[i - 1], events[i - 1], states[i]);
    }
  }

  /** Behind the crawler: returned once.  In front of it: not yet.  Not in the queue: never linked yet. */
  ghost predicate Tracked<T>(s: Crawl<T>, x: T)
    requires s.pos < |s.q|
  {
    && (forall j :: 0 <= j < |s.q| && s.q[j] == x && j != s.pos ==> Count(s.returned, x) == if j > s.pos then 1 else 0)
    && (x !in s.q ==> Count(s.returned, x) == 0)
  }

  lemma TrackedStep<T>(s: Crawl<T>, s': Crawl<T>, x: T)
    requires Next(s, Step, s') && NoRepeat(s.q) && Tracked(s, x) && x != s.q[s.pos]
    ensures s'.pos < |s'.q| && Tracked(s', x)
  {
    TransposeAt(s.q, s.pos);
    hide Transpose;
    assert s'.returned[..|s.returned|] == s.returned;
    assert Count(s'.returned, x) == Count(s.returned, x) + if s.q[s.pos - 1] == x then 1 else 0;
    assert x !in s'.q ==> x !in s.q by {
      if x in s.q {
        var j :| 0 <= j < |s.q| && s.q[j] == x;
        assert s'.q[if j == s.pos - 1 then s.pos else j] == x;
      }
    }
  }

  lemma TrackedLink<T>(s: Crawl<T>, y: T, s': Crawl<T>, x: T)
    requires Next(s, LinkHead(y), s') && Tracked(s, x) && x != s.q[s.pos]
    ensures s'.pos < |s'.q| && Tracked(s', x)
  {
    assert forall j :: 0 <= j < |s.q| ==> s'.q[j + 1] == s.q[j];
  }

  lemma TrackedUnlink<T>(s: Crawl<T>, k: nat, s': Crawl<T>, x: T)
    requires Next(s, Unlink(k), s') && NoRepeat(s.q) && Tracked(s, x) && x != s.q[s.pos] && s.q[k] != x
    ensures s'.pos < |s'.q| && Tracked(s', x)
  {
    assert forall j :: 0 <= j < |s'.q| ==> s'.q[j] == s.q[if j < k then j else j + 1];
    if x in s.q {
      var j :| 0 <= j < |s.q| && s.q[j] == x;
      assert s'.q[if j < k then j else j - 1] == x;
    }
  }

  lemma TrackedNext<T>(s: Crawl<T>, e: Event<T>, s': Crawl<T>, x: T)
    requires Next(s, e, s') && NoRepeat(s.q) && Tracked(s, x) && x != s.q[s.pos]
    requires e.Unlink? ==> s.q[e.j] != x
    ensures s'.pos < |s'.q| && Tracked(s', x)
  {
    hide Tracked, Transpose, Without;
    match e
    case Step => TrackedStep(s, s', x);
    case LinkHead(y) => TrackedLink(s, y, s', x);
    case Unlink(k) => TrackedUnlink(s, k, s', x);
  }

  /** Over a whole crawl, whatever else is linked and unlinked meanwhile, an item that is never unlinked is
      returned exactly once if the crawler has passed it and not at all before. */
  lemma {:induction false} ReturnedOnce<T>(states: seq<Crawl<T>>, events: seq<Event<T>>, i: nat, x: T)
    requires Run(states, events) && i < |states|
    requires x != states[0].q[states[0].pos]
    requires forall k :: 0 <= k < i ==> !Unlinks(states, events, k, x)
    ensures states[i].pos < |states[i].q| && Tracked(states[i], x)
  {
    RunShape(states, events, i);
    if i > 0 {
      ReturnedOnce(states, events, i - 1, x);
      RunShape(states, events, i - 1);
      assert !Unlinks(states, events, i - 1, x);
      TrackedNext(states[i - 1], events[i - 1], states[i], x);
    }
  }

  /** When the crawler reaches the head, every item in the queue that was never unlinked has been returned
      exactly once. */
  lemma CompleteCrawl<T>(states: seq<Crawl<T>>, events: seq<Event<T>>, x: T)
    requires Run(states, events) && states[|events|].pos == 0
    requires x in states[|events|].q && x != states[0].q[states[0].pos]
    requires forall k :: 0 <= k < |events| ==> !Unlinks(states, events, k, x)
    ensures Count(states[|events|].returned, x) == 1
  {
    RunShape(states, events, |events|);
    ReturnedOnce(states, events, |events|, x);
    var s := states[|events|];
    var j :| 0 <= j < |s.q| && s.q[j] == x;
    assert j != s.pos;
  }

  function CountSteps<T>(events: seq<Event<T>>): nat {
    if events == [] then 0 else CountSteps(events[..|events| - 1]) + if events[|events| - 1].Step? then 1 else 0
  }

  function CountLinks<T>(events: seq<Event<T>>): nat {
    if events == [] then 0 else CountLinks(events[..|events| - 1]) + if events[|events| - 1].LinkHead? then 1 else 0
  }

  /** The crawler's position is what is left to do: it pays for every step, and only new items at the head
      add to it. */
  lemma {:induction false} StepsBounded<T>(states: seq<Crawl<T>>, events: seq<Event<T>>)
    requires Run(states, events)
    ensures CountSteps(events) + states[|events|].pos <= |states[0].q| - 1 + CountLinks(events)
  {
    var n := |events|;
    if n > 0 {
      StepsBounded(states[..n], events[..n - 1]);
    }
  }

  // ---- The crawl loop over one queue ----

  /** The nodes that are not to be reclaimed, in order. */
  function Alive(s: seq<Node>, dead: set<Node>): seq<Node> {
    if s == [] then [] else (if s[0] in dead then [] else [s[0]]) + Alive(s[1..], dead)
  }

  /** How many items a crawl of a queue of `n` looks at; zero `remaining` means all, otherwise the item
      found when the budget runs out is not looked at any more. */
  function Checked(n: nat, remaining: nat): nat {
    if remaining == 0 || n < remaining then n else remaining - 1
  }

  ghost predicate Within(a: seq<Node>, b: seq<Node>) {
    forall i :: 0 <= i < |a| ==> a[i] in b
  }

  lemma WithinTrans(a: seq<Node>, b: seq<Node>, c: seq<Node>)
    requires Within(a, b) && Within(b, c)
    ensures Within(a, c)
  {
  }

  /** A crawl step with what is in front of and behind the crawler spelled out. */
  method Advance(q: Queue, it: Node, ghost front: seq<Node>, ghost back: seq<Node>) returns (found: Node?)
    requires q.Valid() && q.nodes == front + [it] + back && it.crawler
    modifies q, q.nodes
    ensures q.Valid() && Within(q.nodes, old(q.nodes))
    ensures front != [] ==>
              found == front[|front| - 1] && q.nodes == front[..|front| - 1] + [it] + ([front[|front| - 1]] + back)
    ensures front == [] ==> found == null
    ensures front == [] && back == [] ==> q.nodes == [it]
    ensures front == [] && back != [] ==> q.nodes == back && it !in back && it.prev == null && it.next == back[0]
  {
    ghost var i := |front|;
    ghost var s := q.nodes;
    if i >= 1 {
      TransposeAt(s, i);
      assert Transpose(s, i) == front[..i - 1] + [it] + ([front[i - 1]] + back);
    } else {
      assert s[1..] == back;
    }
    hide Transpose;
    found := q.Crawl(it, i);
  }

  /** The crawler leaves, from the middle of the queue or after it has been popped off. */
  method Leave(q: Queue, it: Node, ghost front: seq<Node>, ghost back: seq<Node>)
    requires q.Valid() && it.crawler
    requires q.nodes == front + [it] + back ||
             (front == [] && back != [] && q.nodes == back && it !in back && it.prev == null && it.next == back[0])
    modifies q, q.nodes
    ensures q.Valid() && q.nodes == front + back && Within(q.nodes, old(q.nodes))
  {
    if q.nodes == front + [it] + back {
      assert q.nodes[|front|] == it;
      assert Without(q.nodes, |front|) == front + back;
    } else {
      assert front + back == back;
    }
    q.UnlinkTail(it, |front|);
  }

  /** The item just behind the crawler is unlinked if it is dead, unless its lock is taken or somebody holds it. */
  method Look(q: Queue, it: Node, found: Node, dead: set<Node>, busy: set<Node>, ghost front: seq<Node>,
    ghost back: seq<Node>)
    requires q.Valid() && q.nodes == front + [it] + ([found] + back) && !found.crawler
    modifies q, q.nodes
    ensures q.Valid() && q.nodes == front + [it] + ((if found in dead - busy then [] else [found]) + back)
    ensures Within(q.nodes, old(q.nodes))
  {
    if found in busy {
      return;
    }
    if found in dead {
      assert q.nodes[|front| + 1] == found;
      assert Without(q.nodes, |front| + 1) == front + [it] + ([] + back);
      q.Unlink(found, |front| + 1);
    }
  }

  /** One turn of the loop: the crawler moves on by one item and looks at it, or is done. */
  method Turn(q: Queue, it: Node, dead: set<Node>, busy: set<Node>, left: nat, ghost front: seq<Node>,
    ghost back: seq<Node>)
    returns (done: bool)
    requires q.Valid() && q.nodes == front + [it] + back && it.crawler
    requires forall n :: n in front ==> !n.crawler
    modifies q, q.nodes
    ensures q.Valid() && (done <==> front == [] || left == 1)
    ensures Within(q.nodes, old(q.nodes))
    ensures done ==> q.nodes == front + back
    ensures !done ==> var found := front[|front| - 1];
                      q.nodes == front[..|front| - 1] + [it] + ((if found in dead - busy then [] else [found]) + back)
  {
    hide Items, ItemBytes, Chained, NoRepeat;
    var found := Advance(q, it, front, back);
    if found == null {
      Leave(q, it, front, back);
      return true;
    }
    ghost var front' := front[..|front| - 1];
    if left > 0 && left - 1 < 1 {
      Leave(q, it, front', [found] + back);
      assert front' + ([found] + back) == front + back;
      return true;
    }
    Look(q, it, found, dead, busy, front', back);
    return false;
  }

  /** The queue after the last k of `s` have been looked at, with the crawler in between. */
  function Midway(s: seq<Node>, k: nat, it: Node, dead: set<Node>): seq<Node>
    requires k <= |s|
  {
    s[..|s| - k] + [it] + Alive(s[|s| - k..], dead)
  }

  lemma MidwayNext(s: seq<Node>, k: nat, it: Node, dead: set<Node>)
    requires k < |s|
    ensures var front := s[..|s| - k];
            var found := front[|front| - 1];
            front[..|front| - 1] + [it] + ((if found in dead then [] else [found]) + Alive(s[|s| - k..],
              dead)) == Midway(s, k + 1, it, dead)
  {
    var i := |s| - k - 1;
    assert s[i..][1..] == s[i + 1..];
    assert s[..i + 1][..i] == s[..i];
  }

  /** The loop over one queue whose crawler has entered at the tail. */
  method CrawlLoop(q: Queue, it: Node, dead: set<Node>, busy: set<Node>, remaining: nat, ghost s: seq<Node>)
    requires q.Valid() && it.crawler && q.nodes == s + [it]
    requires forall n :: n in s ==> !n.crawler
    modifies q, q.nodes
    ensures q.Valid()
    ensures var n, k := |s|, Checked(|s|, remaining);
            q.nodes == s[..n - k] + Alive(s[n - k..], dead - busy)
  {
    hide Alive, Midway, Items, ItemBytes, Chained, NoRepeat;
    MidwayStart(s, it, dead - busy);
    var left, done := remaining, false;
    ghost var n, k := |s|, 0;
    ghost var all := q.nodes;
    while !done
      invariant k <= n && q.Valid() && Within(q.nodes, all)
      invariant !done ==> q.nodes == Midway(s, k, it, dead - busy)
      invariant done ==> q.nodes == s[..n - k] + Alive(s[n - k..], dead - busy) && (k == n || left == 1)
      invariant if remaining == 0 then left == 0 else left == remaining - k >= 1
      decreases !done, n - k
    {
      ghost var was := q.nodes;
      MidwayIs(s, k, it, dead - busy);
      done := Turn(q, it, dead, busy, left, s[..n - k], Alive(s[n - k..], dead - busy));
      WithinTrans(q.nodes, was, all);
      if !done {
        MidwayNext(s, k, it, dead - busy);
        k := k + 1;
        if left > 0 {
          left := left - 1;
        }
      }
    }
  }

  /** item_crawler_thread on one queue: the crawler enters at the tail, looks at items from the tail up,
      unlinking the dead ones that are not in use, and leaves.  The dead among those it looked at are gone
      unless they were in use, everything else is there in the order it was. */
  method CrawlQueue(q: Queue, it: Node, dead: set<Node>, busy: set<Node>, remaining: nat)
    requires q.Valid() && it.crawler && it !in q.nodes
    requires forall n :: n in q.nodes ==> !n.crawler
    modifies q, q.nodes, it
    ensures q.Valid()
    ensures var n, k := old(|q.nodes|), Checked(old(|q.nodes|), remaining);
            q.nodes == old(q.nodes)[..n - k] + Alive(old(q.nodes)[n - k..], dead - busy)
  {
    ghost var s := q.nodes;
    q.LinkTail(it);
    CrawlLoop(q, it, dead, busy, remaining, s);
  }

  lemma MidwayStart(s: seq<Node>, it: Node, dead: set<Node>)
    ensures Midway(s, 0, it, dead) == s + [it]
  {
    assert s[..|s|] == s && s[|s|..] == [];
  }

  lemma MidwayIs(s: seq<Node>, k: nat, it: Node, dead: set<Node>)
    requires k <= |s|
    ensures Midway(s, k, it, dead) == s[..|s| - k] + [it] + Alive(s[|s| - k..], dead)
  {
  }
}
