/** The LRU queues of items.c and the crawler that travels through them: the pointer surgery, proved
    against the sequence of linked nodes. */
module LruQueue {
  import opened Common

  /** An item, or a crawler standing in for one; `ntotal` is the size a linked item counts for. */
  class Node {
    const crawler: bool
    const ntotal: nat
    var next: Node?
    var prev: Node?

    constructor (crawler: bool, ntotal: nat)
      ensures this.crawler == crawler && this.ntotal == ntotal
    {
      this.crawler := crawler;
      this.ntotal := ntotal;
      next, prev := null, null;
    }
  }

  /** Element i changes places with its predecessor. */
  function Transpose<T>(s: seq<T>, i: nat): seq<T>
    requires 1 <= i < |s|
  {
    s[..i - 1] + [s[i], s[i - 1]] + s[i + 1..]
  }

  lemma TransposeAt<T>(s: seq<T>, i: nat)
    requires 1 <= i < |s|
    ensures |Transpose(s, i)| == |s|
    ensures forall j :: 0 <= j < |s| ==> Transpose(s, i)[j] == if j == i - 1 then s[i]
              else if j == i then s[i - 1] else s[j]
  {
  }

  lemma DistinctAfter<T>(s: seq<T>, i: nat)
    requires i < |s| && NoRepeat(s)
    ensures NoRepeat(Without(s, i)) && s[i] !in Without(s, i)
    ensures i >= 1 ==> NoRepeat(Transpose(s, i)) && Without(s, i)[..i - 1] + [s[i]] + Without(s,
              i)[i - 1..] == Transpose(s, i)
  {
  }

  /** How many of the nodes are items, and their total size. */
  function Items(s: seq<Node>): nat {
    if s == [] then 0 else Items(s[..|s| - 1]) + if s[|s| - 1].crawler then 0 else 1
  }

  function ItemBytes(s: seq<Node>): nat {
    if s == [] then 0 else ItemBytes(s[..|s| - 1]) + if s[|s| - 1].crawler then 0 else s[|s| - 1].ntotal
  }

  lemma {:induction false} SumsConcat(s: seq<Node>, t: seq<Node>)
    ensures Items(s + t) == Items(s) + Items(t)
    ensures ItemBytes(s + t) == ItemBytes(s) + ItemBytes(t)
  {
    if t == [] {
      assert s + t == s;
    } else {
      var t' := t[..|t| - 1];
      assert (s + t)[..|s + t| - 1] == s + t';
      SumsConcat(s, t');
    }
  }

  lemma SumsOne(n: Node)
    ensures Items([n]) == if n.crawler then 0 else 1
    ensures ItemBytes([n]) == if n.crawler then 0 else n.ntotal
  {
    assert [n][..0] == [];
  }

  lemma SumsDrop(s: seq<Node>, i: nat)
    requires i < |s|
    ensures Items(Without(s, i)) + Items([s[i]]) == Items(s)
    ensures ItemBytes(Without(s, i)) + ItemBytes([s[i]]) == ItemBytes(s)
  {
    hide Items, ItemBytes;
    assert s == s[..i] + ([s[i]] + s[i + 1..]);
    SumsConcat(s[..i], [s[i]] + s[i + 1..]);
    SumsConcat([s[i]], s[i + 1..]);
    SumsConcat(s[..i], s[i + 1..]);
  }

  /** A crawler at the front counts for nothing. */
  lemma RestSums(s: seq<Node>)
    requires s != [] && s[0].crawler
    ensures Items(s[1..]) == Items(s) && ItemBytes(s[1..]) == ItemBytes(s)
  {
    hide Items, ItemBytes;
    SumsDrop(s, 0);
    SumsOne(s[0]);
    assert Without(s, 0) == s[1..];
  }

  lemma SumsTranspose(s: seq<Node>, i: nat)
    requires 1 <= i < |s|
    ensures Items(Transpose(s, i)) == Items(s) && ItemBytes(Transpose(s, i)) == ItemBytes(s)
  {
    hide Items, ItemBytes;
    var p, ab, ba, r := s[..i - 1], [s[i - 1], s[i]], [s[i], s[i - 1]], s[i + 1..];
    assert s == p + ab + r;
    assert Transpose(s, i) == p + ba + r;
    hide Transpose;
    SumsConcat(p + ab, r);
    SumsConcat(p, ab);
    SumsConcat(p + ba, r);
    SumsConcat(p, ba);
    SumsPair(s[i - 1], s[i]);
  }

  lemma SumsPair(a: Node, b: Node)
    ensures Items([a, b]) == Items([b, a]) && ItemBytes([a, b]) == ItemBytes([b, a])
  {
    hide Items, ItemBytes;
    assert [a, b] == [a] + [b] && [b, a] == [b] + [a];
    SumsConcat([a], [b]);
    SumsConcat([b], [a]);
  }

  /** Neighbours point at each other, ends point at nothing. */
  ghost predicate Chained(s: seq<Node>)
    reads s
  {
    BackOk(s) && ForthOk(s)
  }

  ghost predicate BackOk(s: seq<Node>)
    reads s
  {
    forall i {:trigger s[i].prev} :: 0 <= i < |s| ==> s[i].prev == if i == 0 then null else s[i - 1]
  }

  ghost predicate ForthOk(s: seq<Node>)
    reads s
  {
    forall i {:trigger s[i].next} :: 0 <= i < |s| ==> s[i].next == if i == |s| - 1 then null else s[i + 1]
  }

  /** The neighbours of `it` are pointed at each other. */
  method Bypass(it: Node, ghost s: seq<Node>, ghost i: nat)
    requires NoRepeat(s) && Chained(s) && 1 <= i < |s| && s[i] == it
    modifies s
    ensures Chained(Without(s, i)) && it.prev == s[i - 1]
  {
    if it.next != null {
      it.prev.next := it.next;
      it.next.prev := it.prev;
    } else {
      it.prev.next := null;
    }
  }

  /** `it`, outside the chain, is hung in front of `p`. */
  method InsertBefore(it: Node, p: Node, ghost s: seq<Node>, ghost i: nat)
    requires NoRepeat(s) && Chained(s) && i < |s| && s[i] == p && it !in s && it.prev == p
    modifies s, it
    ensures Chained(s[..i] + [it] + s[i..]) && it.next == p
  {
    it.next := it.prev;
    it.prev := it.next.prev;
    it.next.prev := it;
    if it.prev != null {
      it.prev.next := it;
    }
  }

  /** `it` and its predecessor change places. */
  method SwingChain(it: Node, ghost s: seq<Node>, ghost i: nat)
    requires NoRepeat(s) && Chained(s) && 1 <= i < |s| && s[i] == it
    modifies s
    ensures Chained(Transpose(s, i)) && it.next == s[i - 1]
  {
    DistinctAfter(s, i);
    hide Chained, Transpose, NoRepeat;
    Bypass(it, s, i);
    assert forall n :: n in Without(s, i) ==> n in s;
    InsertBefore(it, it.prev, Without(s, i), i - 1);
  }

  class Queue {
    var head: Node?
    var tail: Node?
    var sizes: nat
    var sizesBytes: nat
    ghost var nodes: seq<Node>

    ghost predicate Linked()
      reads this, nodes
    {
      && NoRepeat(nodes)
      && head == (if nodes == [] then null else nodes[0])
      && tail == (if nodes == [] then null else nodes[|nodes| - 1])
      && Chained(nodes)
    }

    /** A well-formed doubly linked list whose counters count the items and not the crawlers. */
    ghost predicate Valid()
      reads this, nodes
    {
      Linked() && sizes == Items(nodes) && sizesBytes == ItemBytes(nodes)
    }

    constructor ()
      ensures Valid() && nodes == []
    {
      head, tail, sizes, sizesBytes, nodes := null, null, 0, 0, [];
    }

    /** do_item_link_q: the item becomes the head. */
    method LinkHead(it: Node)
      requires Valid() && it !in nodes && !it.crawler
      modifies this, nodes, it
      ensures Valid() && nodes == [it] + old(nodes)
    {
      hide Items, ItemBytes;
      ghost var s := nodes;
      it.prev := null;
      it.next := head;
      if it.next != null {
        it.next.prev := it;
      }
      head := it;
      if tail == null {
        tail := it;
      }
      sizes := sizes + 1;
      sizesBytes := sizesBytes + it.ntotal;
      nodes := [it] + nodes;
      SumsConcat([it], s);
      SumsOne(it);
    }

    /** The surgery that do_item_unlink_q and do_item_unlinktail_q share. */
    method Cut(it: Node, ghost i: nat)
      requires Linked()
      requires
                  if it in nodes then i < |nodes| && nodes[i] == it
                  else nodes != [] && it.prev == null && it.next == nodes[0]
      modifies this`head, this`tail, this`nodes, nodes
      ensures Linked() && nodes == if it in old(nodes) then Without(old(nodes), i) else old(nodes)
    {
      if head == it {
        head := it.next;
      }
      if tail == it {
        tail := it.prev;
      }
      Splice(it, nodes, i);
      if it in nodes {
        DistinctAfter(nodes, i);
        nodes := Without(nodes, i);
      }
    }

    /** The neighbours of `it` point past it. */
    static method Splice(it: Node, ghost s: seq<Node>, ghost i: nat)
      requires NoRepeat(s) && Chained(s)
      requires if it in s then i < |s| && s[i] == it else s != [] && it.prev == null && it.next == s[0]
      modifies s
      ensures Chained(if it in s then Without(s, i) else s)
    {
      ghost var r := if it in s then Without(s, i) else s;
      SplicePrev(it, s, r, i);
      SpliceNext(it, s, r, i);
    }

    static method SplicePrev(it: Node, ghost s: seq<Node>, ghost r: seq<Node>, ghost i: nat)
      requires NoRepeat(s) && BackOk(s) && ForthOk(s)
      requires
                  if it in s then i < |s| && s[i] == it && r == Without(s, i)
                  else s != [] && it.prev == null && it.next == s[0] && r == s
      modifies s`prev
      ensures BackOk(r) && it.prev == old(it.prev)
    {
      hide ForthOk;
      NextOf(it, s, i);
      if it.next != null {
        it.next.prev := it.prev;
      }
    }

    static method SpliceNext(it: Node, ghost s: seq<Node>, ghost r: seq<Node>, ghost i: nat)
      requires NoRepeat(s) && ForthOk(s) && it.prev == if it in s && i < |s| && i > 0 then s[i - 1] else null
      requires if it in s then i < |s| && s[i] == it && r == Without(s, i) else r == s
      modifies s`next
      ensures ForthOk(r)
    {
      if it.prev != null {
        it.prev.next := it.next;
      }
    }

    static lemma NextOf(it: Node, s: seq<Node>, i: nat)
      requires ForthOk(s)
      ensures it in s && i < |s| && s[i] == it ==> it.next == if i == |s| - 1 then null else s[i + 1]
    {
    }

    /** do_item_unlink_q. */
    method Unlink(it: Node, ghost i: nat)
      requires Valid() && i < |nodes| && nodes[i] == it && !it.crawler
      modifies this, nodes
      ensures Valid() && nodes == Without(old(nodes), i)
    {
      hide Items, ItemBytes;
      SumsDrop(nodes, i);
      SumsOne(it);
      Cut(it, i);
      sizes := sizes - 1;
      sizesBytes := sizesBytes - it.ntotal;
    }

    /** do_item_linktail_q: a crawler enters at the tail and is not counted. */
    method LinkTail(it: Node)
      requires Valid() && it !in nodes && it.crawler
      modifies this, nodes, it
      ensures Valid() && nodes == old(nodes) + [it]
    {
      hide Items, ItemBytes;
      ghost var s := nodes;
      it.prev := tail;
      it.next := null;
      if it.prev != null {
        it.prev.next := it;
      }
      tail := it;
      if head == null {
        head := it;
      }
      nodes := nodes + [it];
      SumsConcat(s, [it]);
      SumsOne(it);
    }

    /** do_item_unlinktail_q: takes a crawler out, wherever it stands; a crawler that has already been
        popped off the head, and still points at the new head, is left out. */
    method UnlinkTail(it: Node, ghost i: nat)
      requires Valid() && it.crawler
      requires
                  if it in nodes then i < |nodes| && nodes[i] == it
                  else nodes != [] && it.prev == null && it.next == nodes[0]
      modifies this, nodes
      ensures Valid() && it !in nodes
      ensures nodes == if it in old(nodes) then Without(old(nodes), i) else old(nodes)
    {
      hide Items, ItemBytes;
      if it in nodes {
        SumsDrop(nodes, i);
        SumsOne(it);
        assert it !in Without(nodes, i);
      }
      Cut(it, i);
    }

    /** The list behind `it` no longer points back at it. */
    static method Behead(first: Node, ghost it: Node, ghost s: seq<Node>)
      requires s != [] && first == s[0] && NoRepeat([it] + s) && Chained([it] + s)
      modifies first`prev
      ensures Chained(s)
    {
      assert forall j :: 0 <= j < |s| ==> ([it] + s)[j + 1] == s[j];
      first.prev := null;
    }

    /** The crawler at the head steps off the front of what follows it. */
    method PopCrawler(it: Node)
      requires Valid() && nodes != [] && nodes[0] == it && it.crawler
      modifies this, nodes
      ensures Valid()
      ensures old(|nodes|) == 1 ==> nodes == old(nodes)
      ensures old(|nodes|) > 1 ==> nodes == old(nodes)[1..] && it.prev == null && it.next == nodes[0]
    {
      hide Items, ItemBytes;
      if it.next != null {
        PopFront(it);
      }
    }

    /** The list goes on without its first node, a crawler. */
    method PopFront(it: Node)
      requires Valid() && |nodes| > 1 && nodes[0] == it && it.crawler
      modifies this`head, this`nodes, nodes
      ensures Valid() && nodes == old(nodes)[1..] && it.prev == null && it.next == nodes[0]
    {
      hide Items, ItemBytes, Without;
      ghost var s := nodes[1..];
      RestSums(nodes);
      assert nodes == [it] + s && it.next == s[0];
      head := it.next;
      Behead(it.next, it, s);
      nodes := s;
    }

    /** Head and tail for the crawler one place further on. */
    method SwingEnds(it: Node, ghost i: nat)
      requires Linked() && 1 <= i < |nodes| && nodes[i] == it
      modifies this`head, this`tail
      ensures head == Transpose(nodes, i)[0] && tail == Transpose(nodes, i)[|nodes| - 1]
    {
      if head == it.prev {
        head := it;
      }
      if tail == it {
        tail := it.prev;
      }
    }

    /** The crawler swings itself in front of its predecessor. */
    method Swing(it: Node, ghost i: nat)
      requires Linked() && 1 <= i < |nodes| && nodes[i] == it
      modifies this`head, this`tail, this`nodes, nodes
      ensures Linked() && nodes == Transpose(old(nodes), i) && it.next == old(nodes)[i - 1]
    {
      ghost var s' := Transpose(nodes, i);
      DistinctAfter(nodes, i);
      TransposeAt(nodes, i);
      SwingEnds(it, i);
      SwingChain(it, nodes, i);
      hide Chained, Transpose, NoRepeat;
      nodes := s';
    }

    /** do_item_crawl_q.  In front of something, the crawler and its predecessor change places and the
        predecessor is returned; at the head, the crawler is popped off. */
    method Crawl(it: Node, ghost i: nat) returns (found: Node?)
      requires Valid() && i < |nodes| && nodes[i] == it && it.crawler
      modifies this, nodes
      ensures Valid()
      ensures i >= 1 ==> found == old(nodes)[i - 1] && nodes == Transpose(old(nodes), i)
      ensures i == 0 ==> found == null
      ensures i == 0 && old(|nodes|) == 1 ==> nodes == old(nodes)
      ensures i == 0 && old(|nodes|) > 1 ==> nodes == old(nodes)[1..] && it.prev == null && it.next == nodes[0]
    {
      hide Items, ItemBytes, Transpose;
      if it.prev == null {
        PopCrawler(it);
        return null;
      }
      SumsTranspose(nodes, i);
      Swing(it, i);
      return it.next;
    }

    /** lru_crawler_class_done after the crawl has reached the head: the list is well formed and holds
        every node but the crawler, in the order it had. */
    method CrawlEnd(it: Node)
      requires Valid() && nodes != [] && nodes[0] == it && it.crawler
      modifies this, nodes
      ensures Valid() && nodes == old(nodes)[1..]
    {
      ghost var s := nodes;
      var found := Crawl(it, 0);
      UnlinkTail(it, 0);
    }
  }
}
