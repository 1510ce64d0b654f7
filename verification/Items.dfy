/** The life of an item: the hash table, the LRU queues, the linked flag and the reference count, through
    allocation, linking, unlinking, replacing, fetching, bumping and pulling the tail of a queue. Operations on
    one item are serialized by its lock, so each method here is one whole operation. */
module Items {
  import opened Common

  type Id = nat
  type Key = seq<bv8>

  const HOT: nat := 0
  const WARM: nat := 64
  const COLD: nat := 128
  const TEMP: nat := 192
  const QUEUES: nat := 256
  const UPDATE_INTERVAL: nat := 60
  const HDR_BYTES: nat := 12
  const WORD: nat := 0x1_0000_0000

  datatype Item = Item(
    key: Key, ntotal: nat, nbytes: nat, hdr: bool, clsid: nat, linked: bool, active: bool, fetched: bool,
    time: nat, exptime: nat, cas: nat, refcount: nat)

  // A queue holds items and, while it is being crawled, a crawler.
  datatype Entry = It(id: Id) | Crawler

  function Cls(c: nat): nat { c % 64 }
  function Lru(c: nat): nat { c - c % 64 }

  /** The bytes an item counts for in its queue. */
  function Charge(it: Item): int { if it.hdr then it.ntotal - it.nbytes + HDR_BYTES else it.ntotal }

  function Count(e: seq<Entry>): nat {
    if e == [] then 0 else (if e[0].It? then 1 else 0) + Count(e[1..])
  }

  function One(items: map<Id, Item>, x: Entry): int { if x.It? && x.id in items then Charge(items[x.id]) else 0 }

  function Sum(items: map<Id, Item>, e: seq<Entry>): int {
    if e == [] then 0 else One(items, e[0]) + Sum(items, e[1..])
  }

  lemma {:induction false} CountConcat(a: seq<Entry>, b: seq<Entry>)
    ensures Count(a + b) == Count(a) + Count(b)
  {
    if a == [] {
      assert a + b == b;
    } else {
      CountConcat(a[1..], b);
      assert (a + b)[1..] == a[1..] + b;
    }
  }

  lemma {:induction false} SumConcat(items: map<Id, Item>, a: seq<Entry>, b: seq<Entry>)
    ensures Sum(items, a + b) == Sum(items, a) + Sum(items, b)
  {
    if a == [] {
      assert a + b == b;
    } else {
      SumConcat(items, a[1..], b);
      assert (a + b)[1..] == a[1..] + b;
    }
  }

  lemma {:induction false} SumSame(items: map<Id, Item>, items': map<Id, Item>, e: seq<Entry>)
    requires forall x :: x in e ==> One(items, x) == One(items', x)
    ensures Sum(items, e) == Sum(items', e)
  {
    if e != [] {
      SumSame(items, items', e[1..]);
    }
  }

  lemma CountOne(x: Entry)
    ensures Count([x]) == if x.It? then 1 else 0
  {
  }

  lemma SumOne(items: map<Id, Item>, x: Entry)
    ensures Sum(items, [x]) == One(items, x)
  {
    assert Sum(items, [x]) == One(items, x) + Sum(items, [x][1..]);
  }

  lemma CountWithout(e: seq<Entry>, i: nat)
    requires i < |e|
    ensures Count(Without(e, i)) == Count(e) - (if e[i].It? then 1 else 0)
  {
    hide Count;
    CountOne(e[i]);
    assert e == e[..i] + ([e[i]] + e[i + 1..]);
    CountConcat(e[..i], [e[i]] + e[i + 1..]);
    CountConcat([e[i]], e[i + 1..]);
    CountConcat(e[..i], e[i + 1..]);
  }

  lemma SumWithout(items: map<Id, Item>, e: seq<Entry>, i: nat)
    requires i < |e|
    ensures Sum(items, Without(e, i)) == Sum(items, e) - One(items, e[i])
  {
    hide Sum, One;
    SumOne(items, e[i]);
    assert e == e[..i] + ([e[i]] + e[i + 1..]);
    SumConcat(items, e[..i], [e[i]] + e[i + 1..]);
    SumConcat(items, [e[i]], e[i + 1..]);
    SumConcat(items, e[..i], e[i + 1..]);
  }

  // ---- What holds between operations ----

  datatype State = State(
    items: map<Id, Item>, table: map<Key, Id>, queues: seq<seq<Entry>>, sizes: seq<int>, bytes: seq<int>,
    currItems: int,
    holders: multiset<Id>)

  /** An item is linked exactly when the table has it under its key. */
  ghost predicate TableOk(items: map<Id, Item>, table: map<Key, Id>) {
    && (forall k :: k in table ==> table[k] in items && items[table[k]].linked && items[table[k]].key == k)
    && (forall id :: id in items && items[id].linked ==> items[id].key in table && table[items[id].key] == id)
  }

  predicate Queued(items: map<Id, Item>, id: Id, q: nat) { id in items && items[id].linked && items[id].clsid == q }

  /** A queue holds, once each, the linked items that name it. */
  ghost predicate QueueOk(items: map<Id, Item>, e: seq<Entry>, q: nat) {
    && (forall id :: It(id) in e <==> Queued(items, id, q))
    && Once(e)
  }

  ghost predicate Once(e: seq<Entry>) { forall i, j :: 0 <= i < j < |e| && e[i].It? ==> e[i] != e[j] }

  ghost predicate QueuesOk(items: map<Id, Item>, queues: seq<seq<Entry>>, sizes: seq<int>, bytes: seq<int>) {
    && |queues| == |sizes| == |bytes| == QUEUES
    && (forall id :: id in items ==> items[id].clsid < QUEUES)
    && (forall q :: 0 <= q < QUEUES
          ==> QueueOk(items, queues[q], q) && sizes[q] == Count(queues[q]) && bytes[q] == Sum(items, queues[q]))
  }

  /** The count of an item is its link plus the references held on it, and it is not zero. */
  ghost predicate RefsOk(items: map<Id, Item>, holders: multiset<Id>) {
    && (forall id :: id in items ==> 0 < items[id].refcount == (if items[id].linked then 1 else 0) + holders[id])
    && (forall id :: id in holders ==> id in items)
  }

  ghost predicate Inv(s: State) {
    TableOk(s.items, s.table) && QueuesOk(s.items, s.queues, s.sizes, s.bytes) && RefsOk(s.items, s.holders) &&
      s.currItems == |s.table|
  }

  /** Linked, in the table, and in exactly one queue, the one it names, are the same thing. */
  lemma LinkedEverywhere(s: State, id: Id)
    requires Inv(s) && id in s.items
    ensures s.items[id].linked <==> s.items[id].key in s.table && s.table[s.items[id].key] == id
    ensures s.items[id].linked <==> exists q :: 0 <= q < |s.queues| && It(id) in s.queues[q]
    ensures forall q :: 0 <= q < |s.queues| && It(id) in s.queues[q] ==> q == s.items[id].clsid
    ensures forall q, i, j :: 0 <= q < |s.queues| && 0 <= i < j < |s.queues[q]| ==>
              !(s.queues[q][i] == s.queues[q][j] == It(id))
    ensures s.items[id].refcount == (if s.items[id].linked then 1 else 0) + s.holders[id]
  {
    assert QueueOk(s.items, s.queues[s.items[id].clsid], s.items[id].clsid) &&
             Queued(s.items, id, s.items[id].clsid) == s.items[id].linked;
    forall q | 0 <= q < |s.queues| && It(id) in s.queues[q]
      ensures q == s.items[id].clsid && s.items[id].linked
    {
      assert QueueOk(s.items, s.queues[q], q) && Queued(s.items, id, q);
    }
    assert forall q :: 0 <= q < |s.queues| ==> QueueOk(s.items, s.queues[q], q);
  }

  // ---- Changes that do not concern the queues ----

  predicate SameSeat(a: Item, b: Item) {
    a.key == b.key && a.linked == b.linked && a.clsid == b.clsid && Charge(a) == Charge(b)
  }

  lemma FieldTable(items: map<Id, Item>, table: map<Key, Id>, id: Id, it: Item)
    requires TableOk(items, table) && id in items && SameSeat(items[id], it)
    ensures TableOk(items[id := it], table)
  {
  }

  lemma FieldQueues(items: map<Id, Item>, queues: seq<seq<Entry>>, sizes: seq<int>, bytes: seq<int>, id: Id, it: Item)
    requires QueuesOk(items, queues, sizes, bytes) && id in items && SameSeat(items[id], it)
    ensures QueuesOk(items[id := it], queues, sizes, bytes)
  {
    var items' := items[id := it];
    forall q | 0 <= q < QUEUES
      ensures QueueOk(items', queues[q], q) && sizes[q] == Count(queues[q]) && bytes[q] == Sum(items', queues[q])
    {
      assert QueueOk(items, queues[q], q);
      SumSame(items, items', queues[q]);
    }
  }

  /** A new item, or one about to be freed, is in no queue. */
  lemma UnlinkedQueues(items: map<Id, Item>, items': map<Id, Item>, queues: seq<seq<Entry>>, sizes: seq<int>,
      bytes: seq<int>, id: Id)
    requires QueuesOk(items, queues, sizes, bytes)
    requires id in items ==> !items[id].linked
    requires id in items' ==> !items'[id].linked && items'[id].clsid < QUEUES
    requires forall x :: x != id ==> (x in items <==> x in items') && (x in items ==> items'[x] == items[x])
    ensures QueuesOk(items', queues, sizes, bytes)
  {
    forall q | 0 <= q < QUEUES
      ensures QueueOk(items', queues[q], q) && sizes[q] == Count(queues[q]) && bytes[q] == Sum(items', queues[q])
    {
      assert QueueOk(items, queues[q], q) && !Queued(items, id, q) && It(id) !in queues[q];
      assert forall x :: Queued(items, x, q) == Queued(items', x, q);
      forall x | x in queues[q]
        ensures One(items, x) == One(items', x)
      {
      }
      SumSame(items, items', queues[q]);
    }
  }

  // ---- Entering and leaving a queue ----

  lemma LinkQueue(items: map<Id, Item>, items': map<Id, Item>, e: seq<Entry>, q: nat, id: Id)
    requires QueueOk(items, e, q) && id in items && !items[id].linked && id in items' && items'[id].linked
    requires items'[id].clsid == q
    requires forall x :: x != id ==> (x in items <==> x in items') && (x in items ==> items'[x] == items[x])
    ensures QueueOk(items', [It(id)] + e, q)
    ensures Count([It(id)] + e) == Count(e) + 1 && Sum(items', [It(id)] + e) == Sum(items, e) + Charge(items'[id])
  {
    assert !Queued(items, id, q) && It(id) !in e;
    assert forall x :: x != id ==> Queued(items, x, q) == Queued(items', x, q);
    forall x | x in e
      ensures One(items, x) == One(items', x)
    {
    }
    SumSame(items, items', e);
    CountConcat([It(id)], e);
    SumConcat(items', [It(id)], e);
    forall x
      ensures It(x) in [It(id)] + e <==> Queued(items', x, q)
    {
    }
  }

  lemma UnlinkQueue(items: map<Id, Item>, items': map<Id, Item>, e: seq<Entry>, q: nat, id: Id, i: nat)
    requires QueueOk(items, e, q) && i < |e| && e[i] == It(id)
    requires !(id in items' && items'[id].linked && items'[id].clsid == q)
    requires forall x :: x != id ==> (x in items <==> x in items') && (x in items ==> items'[x] == items[x])
    ensures id in items && QueueOk(items', Without(e, i), q)
    ensures Count(Without(e, i)) == Count(e) - 1 && Sum(items', Without(e, i)) == Sum(items, e) - Charge(items[id])
  {
    var r := Without(e, i);
    assert e[i] in e && Queued(items, id, q);
    WithoutMembers(e, i, id);
    assert forall x :: x != id ==> Queued(items, x, q) == Queued(items', x, q);
    CountWithout(e, i);
    SumWithout(items, e, i);
    hide Without, Count, Sum;
    forall x | x in r
      ensures One(items, x) == One(items', x)
    {
    }
    SumSame(items, items', r);
  }

  lemma WithoutMembers(e: seq<Entry>, i: nat, id: Id)
    requires i < |e| && e[i] == It(id) && forall j, k :: 0 <= j < k < |e| && e[j].It? ==> e[j] != e[k]
    ensures forall x: Id :: It(x) in Without(e, i) <==> It(x) in e && x != id
    ensures var r := Without(e, i); forall j, k :: 0 <= j < k < |r| && r[j].It? ==> r[j] != r[k]
  {
    var r := Without(e, i);
    assert |r| == |e| - 1 && forall j :: 0 <= j < |r| ==> r[j] == if j < i then e[j] else e[j + 1];
    hide Without;
    forall x: Id
      ensures It(x) in r <==> It(x) in e && x != id
    {
      if It(x) in e && x != id {
        var j :| 0 <= j < |e| && e[j] == It(x);
        assert r[if j < i then j else j - 1] == It(x);
      }
    }
  }

  lemma OtherQueue(items: map<Id, Item>, items': map<Id, Item>, e: seq<Entry>, q: nat, id: Id)
    requires QueueOk(items, e, q) && !Queued(items, id, q) && !Queued(items', id, q)
    requires forall x :: x != id ==> (x in items <==> x in items') && (x in items ==> items'[x] == items[x])
    ensures QueueOk(items', e, q) && Sum(items', e) == Sum(items, e)
  {
    assert It(id) !in e;
    assert forall x :: Queued(items, x, q) == Queued(items', x, q);
    forall x | x in e
      ensures One(items, x) == One(items', x)
    {
    }
    SumSame(items, items', e);
  }

  // ---- The operations on the state ----

  function IndexOf(e: seq<Entry>, x: Entry): (i: nat)
    requires x in e
    ensures i < |e| && e[i] == x
  {
    if e[0] == x then 0 else 1 + IndexOf(e[1..], x)
  }

  /** The item joins the table and the head of its queue, and the link is a reference. */
  function Link(s: State, id: Id, now: nat, cas: nat): State
    requires id in s.items && s.items[id].clsid < |s.queues| == |s.sizes| == |s.bytes|
  {
    var it := s.items[id].(linked := true, time := now, cas := cas, refcount := s.items[id].refcount + 1);
    s.(items := s.items[id := it], table := s.table[it.key := id],
      queues := s.queues[it.clsid := [It(id)] + s.queues[it.clsid]],
       sizes := s.sizes[it.clsid := s.sizes[it.clsid] + 1],
       bytes := s.bytes[it.clsid := s.bytes[it.clsid] + Charge(it)], currItems := s.currItems + 1)
  }

  predicate InQueue(s: State, id: Id) {
    id in s.items && s.items[id].clsid < |s.queues| == |s.sizes| == |s.bytes| && It(id) in s.queues[s.items[id].clsid]
  }

  /** The item leaves the table and its queue, and the link's reference goes. */
  function Unlink(s: State, id: Id): State
    requires InQueue(s, id) && 0 < s.items[id].refcount
  {
    var it := s.items[id];
    var e := s.queues[it.clsid];
    s.(items := Drop(s.items, id, it.(linked := false)), table := s.table - {it.key},
       queues := s.queues[it.clsid := Without(e, IndexOf(e, It(id)))],
       sizes := s.sizes[it.clsid := s.sizes[it.clsid] - 1],
       bytes := s.bytes[it.clsid := s.bytes[it.clsid] - Charge(it)], currItems := s.currItems - 1)
  }

  /** One reference fewer; at zero the item is freed. */
  function Drop(items: map<Id, Item>, id: Id, it: Item): map<Id, Item>
    requires 0 < it.refcount
  {
    if it.refcount == 1 then items - {id} else items[id := it.(refcount := it.refcount - 1)]
  }

  /** The item moves to the head of the queue that its new fields name. */
  function Requeue(s: State, id: Id, it': Item): State
    requires InQueue(s, id) && it'.clsid < |s.queues|
  {
    var it := s.items[id];
    var e := s.queues[it.clsid];
    var queues, sizes, bytes := s.queues[it.clsid := Without(e,
      IndexOf(e, It(id)))], s.sizes[it.clsid := s.sizes[it.clsid] - 1],
        s.bytes[it.clsid := s.bytes[it.clsid] - Charge(it)];
    s.(items := s.items[id := it'], queues := queues[it'.clsid := [It(id)] + queues[it'.clsid]],
       sizes := sizes[it'.clsid := sizes[it'.clsid] + 1], bytes := bytes[it'.clsid := bytes[it'.clsid] + Charge(it')])
  }

  lemma LinkedInQueue(s: State, id: Id)
    requires Inv(s) && id in s.items && s.items[id].linked
    ensures InQueue(s, id) && s.items[id].key in s.table && s.table[s.items[id].key] == id && 0 < s.items[id].refcount
  {
    assert QueueOk(s.items, s.queues[s.items[id].clsid], s.items[id].clsid);
    assert Queued(s.items, id, s.items[id].clsid);
  }

  lemma Bounds(s: State, id: Id)
    requires QueuesOk(s.items, s.queues, s.sizes, s.bytes) && id in s.items
    ensures s.items[id].clsid < |s.queues| == |s.sizes| == |s.bytes| == QUEUES
  {
  }

  lemma QueueAt(s: State, q: nat)
    requires QueuesOk(s.items, s.queues, s.sizes, s.bytes) && q < QUEUES
    ensures |s.queues| == |s.sizes| == |s.bytes| == QUEUES
    ensures QueueOk(s.items, s.queues[q], q) && s.sizes[q] == Count(s.queues[q])
    ensures s.bytes[q] == Sum(s.items, s.queues[q])
  {
  }

  lemma LinkQueues(s: State, s': State, id: Id, now: nat, cas: nat)
    requires QueuesOk(s.items, s.queues, s.sizes, s.bytes) && id in s.items && !s.items[id].linked
    requires s.items[id].clsid < |s.queues| == |s.sizes| == |s.bytes| && s' == Link(s, id, now, cas)
    ensures QueuesOk(s'.items, s'.queues, s'.sizes, s'.bytes)
  {
    forall q | 0 <= q < QUEUES
      ensures QueueOk(s'.items, s'.queues[q], q) && s'.sizes[q] == Count(s'.queues[q])
      ensures s'.bytes[q] == Sum(s'.items, s'.queues[q])
    {
      QueueAt(s, q);
      hide QueueOk, QueuesOk, Count, Sum, Charge;
      if q == s.items[id].clsid {
        LinkQueue(s.items, s'.items, s.queues[q], q, id);
      } else {
        OtherQueue(s.items, s'.items, s.queues[q], q, id);
      }
    }
  }

  lemma LinkTable(items: map<Id, Item>, table: map<Key, Id>, id: Id, it: Item)
    requires TableOk(items, table) && id in items && !items[id].linked && items[id].key !in table && it.linked
    requires it.key == items[id].key
    ensures TableOk(items[id := it], table[it.key := id]) && |table[it.key := id]| == |table| + 1
  {
  }

  lemma LinkRefs(items: map<Id, Item>, holders: multiset<Id>, id: Id, it: Item)
    requires RefsOk(items, holders) && id in items && !items[id].linked && it.linked
    requires it.refcount == items[id].refcount + 1
    ensures RefsOk(items[id := it], holders)
  {
  }

  lemma LinkKeeps(s: State, id: Id, now: nat, cas: nat)
    requires Inv(s) && id in s.items && !s.items[id].linked && s.items[id].key !in s.table
    ensures s.items[id].clsid < |s.queues| == |s.sizes| == |s.bytes| && Inv(Link(s, id, now, cas))
  {
    hide RefsOk, TableOk, QueuesOk;
    Bounds(s, id);
    var it := s.items[id].(linked := true, time := now, cas := cas, refcount := s.items[id].refcount + 1);
    LinkQueues(s, Link(s, id, now, cas), id, now, cas);
    LinkTable(s.items, s.table, id, it);
    LinkRefs(s.items, s.holders, id, it);
  }

  lemma UnlinkQueues(s: State, s': State, id: Id)
    requires QueuesOk(s.items, s.queues, s.sizes, s.bytes) && id in s.items && s.items[id].linked
    requires InQueue(s, id) && 0 < s.items[id].refcount && s' == Unlink(s, id)
    ensures QueuesOk(s'.items, s'.queues, s'.sizes, s'.bytes)
  {
    forall q | 0 <= q < QUEUES
      ensures QueueOk(s'.items, s'.queues[q], q) && s'.sizes[q] == Count(s'.queues[q])
      ensures s'.bytes[q] == Sum(s'.items, s'.queues[q])
    {
      QueueAt(s, q);
      hide QueueOk, QueuesOk, Count, Sum, Charge;
      if q == s.items[id].clsid {
        UnlinkQueue(s.items, s'.items, s.queues[q], q, id, IndexOf(s.queues[q], It(id)));
      } else {
        OtherQueue(s.items, s'.items, s.queues[q], q, id);
      }
    }
  }

  lemma UnlinkKeeps(s: State, id: Id)
    requires Inv(s) && id in s.items && s.items[id].linked
    ensures InQueue(s, id) && 0 < s.items[id].refcount && Inv(Unlink(s, id))
  {
    LinkedInQueue(s, id);
    hide RefsOk, TableOk, QueuesOk, InQueue;
    UnlinkRefs(s.items, s.holders, id);
    UnlinkTable(s, Unlink(s, id), id);
    UnlinkQueues(s, Unlink(s, id), id);
  }

  lemma UnlinkRefs(items: map<Id, Item>, holders: multiset<Id>, id: Id)
    requires RefsOk(items, holders) && id in items && items[id].linked
    ensures RefsOk(Drop(items, id, items[id].(linked := false)), holders)
  {
  }

  lemma UnlinkTable(s: State, s': State, id: Id)
    requires TableOk(s.items, s.table) && id in s.items && s.items[id].linked && s.items[id].refcount > 0
    requires s'.items == Drop(s.items, id, s.items[id].(linked := false)) && s'.table == s.table - {s.items[id].key}
    ensures TableOk(s'.items, s'.table) && |s'.table| == |s.table| - 1
  {
    assert s'.table.Keys == s.table.Keys - {s.items[id].key};
    assert |s'.table| == |s'.table.Keys| && |s.table| == |s.table.Keys|;
  }

  lemma RequeueQueues(s: State, s': State, id: Id, it': Item)
    requires QueuesOk(s.items, s.queues, s.sizes, s.bytes) && InQueue(s, id) && it'.clsid < |s.queues|
    requires s.items[id].linked
    requires it'.linked && Charge(it') == Charge(s.items[id]) && s' == Requeue(s, id, it')
    ensures QueuesOk(s'.items, s'.queues, s'.sizes, s'.bytes)
  {
    forall q | 0 <= q < QUEUES
      ensures QueueOk(s'.items, s'.queues[q], q) && s'.sizes[q] == Count(s'.queues[q])
      ensures s'.bytes[q] == Sum(s'.items, s'.queues[q])
    {
      QueueAt(s, q);
      hide QueueOk, QueuesOk, Count, Sum, Charge;
      RequeueOne(s, s', id, it', q);
    }
  }

  lemma RequeueKeeps(s: State, id: Id, it': Item)
    requires Inv(s) && id in s.items && s.items[id].linked && it'.clsid < QUEUES
    requires it' == s.items[id].(clsid := it'.clsid, time := it'.time, active := it'.active)
    ensures InQueue(s, id) && it'.clsid < |s.queues| && Inv(Requeue(s, id, it'))
  {
    LinkedInQueue(s, id);
    Bounds(s, id);
    assert RefsOk(s.items[id := it'], s.holders);
    hide RefsOk, QueuesOk;
    assert TableOk(s.items[id := it'], s.table);
    hide TableOk;
    RequeueQueues(s, Requeue(s, id, it'), id, it');
  }

  lemma RequeueOne(s: State, s': State, id: Id, it': Item, q: nat)
    requires InQueue(s, id) && it'.clsid < |s.queues| && q < |s.queues| && QueueOk(s.items, s.queues[q], q)
    requires s.items[id].linked
    requires s.sizes[q] == Count(s.queues[q]) && s.bytes[q] == Sum(s.items, s.queues[q])
    requires it'.linked && Charge(it') == Charge(s.items[id]) && s' == Requeue(s, id, it')
    ensures QueueOk(s'.items, s'.queues[q], q) && s'.sizes[q] == Count(s'.queues[q])
    ensures s'.bytes[q] == Sum(s'.items, s'.queues[q])
  {
    var c, c' := s.items[id].clsid, it'.clsid;
    var out := s.items[id := s.items[id].(linked := false)];
    var e := if q == c then Without(s.queues[c], IndexOf(s.queues[c], It(id))) else s.queues[q];
    if q == c {
      UnlinkQueue(s.items, out, s.queues[q], q, id, IndexOf(s.queues[q], It(id)));
    } else {
      OtherQueue(s.items, out, s.queues[q], q, id);
    }
    assert QueueOk(out, e, q);
    hide QueueOk;
    if q == c' {
      LinkQueue(out, s'.items, e, q, id);
    } else {
      OtherQueue(out, s'.items, e, q, id);
    }
  }

  // ---- References ----

  lemma FieldKeeps(s: State, id: Id, it: Item)
    requires Inv(s) && id in s.items && SameSeat(s.items[id], it) && it.refcount == s.items[id].refcount
    ensures Inv(s.(items := s.items[id := it]))
  {
    assert RefsOk(s.items[id := it], s.holders);
    hide RefsOk, TableOk, QueuesOk, SameSeat;
    FieldTable(s.items, s.table, id, it);
    FieldQueues(s.items, s.queues, s.sizes, s.bytes, id, it);
  }

  function Hold(s: State, id: Id): State
    requires id in s.items
  {
    s.(items := s.items[id := s.items[id].(refcount := s.items[id].refcount + 1)], holders := s.holders + multiset{id})
  }

  lemma HoldKeeps(s: State, id: Id)
    requires Inv(s) && id in s.items
    ensures Inv(Hold(s, id))
  {
    var it := s.items[id].(refcount := s.items[id].refcount + 1);
    assert RefsOk(s.items[id := it], s.holders + multiset{id});
    hide RefsOk, TableOk, QueuesOk;
    FieldTable(s.items, s.table, id, it);
    FieldQueues(s.items, s.queues, s.sizes, s.bytes, id, it);
  }

  function Release(s: State, id: Id): State
    requires id in s.items && 0 < s.items[id].refcount
  {
    s.(items := Drop(s.items, id, s.items[id]), holders := s.holders - multiset{id})
  }

  lemma ReleaseRefs(items: map<Id, Item>, holders: multiset<Id>, id: Id)
    requires RefsOk(items, holders) && holders[id] > 0
    ensures id in items && 0 < items[id].refcount && RefsOk(Drop(items, id, items[id]), holders - multiset{id})
    ensures items[id].refcount == 1 <==> !items[id].linked && holders[id] == 1
  {
    assert id in holders;
  }

  lemma ReleaseKeeps(s: State, id: Id)
    requires Inv(s) && s.holders[id] > 0
    ensures id in s.items && 0 < s.items[id].refcount && Inv(Release(s, id))
    ensures id !in Release(s, id).items <==> !s.items[id].linked && s.holders[id] == 1
  {
    hide RefsOk, QueuesOk, TableOk;
    ReleaseRefs(s.items, s.holders, id);
    var s' := Release(s, id);
    if s.items[id].refcount == 1 {
      FreeTable(s.items, s.table, id);
      UnlinkedQueues(s.items, s'.items, s.queues, s.sizes, s.bytes, id);
    } else {
      FieldTable(s.items, s.table, id, s'.items[id]);
      FieldQueues(s.items, s.queues, s.sizes, s.bytes, id, s'.items[id]);
    }
  }

  lemma FreeTable(items: map<Id, Item>, table: map<Key, Id>, id: Id)
    requires TableOk(items, table) && id in items && !items[id].linked
    ensures TableOk(items - {id}, table)
  {
  }

  function Alloc(s: State, id: Id, it: Item): State {
    s.(items := s.items[id := it], holders := s.holders + multiset{id})
  }

  lemma AllocRefs(items: map<Id, Item>, holders: multiset<Id>, id: Id, it: Item)
    requires RefsOk(items, holders) && id !in items && !it.linked && it.refcount == 1
    ensures RefsOk(items[id := it], holders + multiset{id})
  {
    assert id !in holders;
  }

  lemma AllocTable(items: map<Id, Item>, table: map<Key, Id>, id: Id, it: Item)
    requires TableOk(items, table) && id !in items && !it.linked
    ensures TableOk(items[id := it], table)
  {
  }

  lemma AllocKeeps(s: State, id: Id, it: Item)
    requires Inv(s) && id !in s.items && !it.linked && it.refcount == 1 && it.clsid < QUEUES
    ensures Inv(Alloc(s, id, it))
  {
    hide RefsOk, TableOk, QueuesOk;
    var s' := Alloc(s, id, it);
    AllocRefs(s.items, s.holders, id, it);
    AllocTable(s.items, s.table, id, it);
    UnlinkedQueues(s.items, s'.items, s.queues, s.sizes, s.bytes, id);
  }

  // ---- Time ----

  // Times are 32-bit words, and their differences wrap.
  function Minus(a: nat, b: nat): (r: nat)
    ensures r < WORD
    ensures b <= a < WORD ==> r == a - b
  {
    (a - b) % WORD
  }

  datatype Clock = Clock(now: nat, oldestLive: nat, oldestCas: nat)

  /** item_is_flushed. */
  predicate Flushed(it: Item, t: Clock) {
    t.oldestLive != 0 && t.oldestLive <= t.now && (it.time <= t.oldestLive || (t.oldestCas != 0 && it.cas != 0 &&
      it.cas < t.oldestCas))
  }

  predicate Expired(it: Item, t: Clock) { it.exptime != 0 && it.exptime <= t.now }

  // The tail is stricter: an item is past its time only one tick later.
  predicate Overdue(it: Item, t: Clock) { (it.exptime != 0 && it.exptime < t.now) || Flushed(it, t) }

  predicate Restless(it: Item, t: Clock) { it.time < Minus(t.now, UPDATE_INTERVAL) }

  /** Nothing has changed but the queues, and the times, activity and queue of items. */
  ghost predicate OnlyMoves(s: State, s': State) {
    && s'.table == s.table && s'.holders == s.holders && s'.items.Keys == s.items.Keys
    && forall id :: id in s.items ==>
         s'.items[id] == s.items[id].(clsid := s'.items[id].clsid, time := s'.items[id].time,
           active := s'.items[id].active)
  }

  // ---- Pulling the tail of a queue ----

  datatype Pull = Pull(evict: bool, returnItem: bool, crawlBlocks: bool)

  datatype Limits = Limits(total: nat, hotPct: nat, warmPct: nat, maxAge: nat, evictToFree: bool)

  // The share of memory a queue may use; a hot share of zero falls back to the warm one.
  function Limit(lru: nat, l: Limits): nat {
    var hot := l.total * l.hotPct / 100;
    if lru == HOT && hot != 0 then hot else l.total * l.warmPct / 100
  }

  /** What a pull does to an item that stays: its queue, activity, count, and perhaps its time. */
  predicate Kin(a: Item, b: Item, t: Clock) {
    b == a.(clsid := b.clsid, active := b.active, refcount := b.refcount, time := b.time, linked := b.linked) &&
      (b.time == a.time || b.time == t.now)
  }

  predicate Past(it: Item, t: Clock) { Overdue(it, t) || Overdue(it.(time := t.now), t) }

  ghost predicate Kept(s: State, s': State, t: Clock) {
    forall id :: id in s'.items ==> id in s.items && Kin(s.items[id], s'.items[id], t)
  }

  /** A pull takes from the table only items that are past their time, and the one it evicts. */
  ghost predicate Pruned(s: State, s': State, t: Clock, evicted: Option<Id>) {
    && (forall k :: k in s'.table ==> k in s.table && s'.table[k] == s.table[k])
    && (forall k :: k in s.table && k !in s'.table
          ==> s.table[k] in s.items && (Past(s.items[s.table[k]], t) || evicted == Some(s.table[k])))
  }

  lemma KeptTrans(s: State, s1: State, s2: State, t: Clock)
    requires Kept(s, s1, t) && Kept(s1, s2, t)
    ensures Kept(s, s2, t)
  {
  }

  lemma PrunedTrans(s: State, s1: State, s2: State, t: Clock, id: Id, evicted: Option<Id>)
    requires Inv(s1) && Kept(s, s1, t) && Pruned(s, s1, t, None) && id in s1.items && s1.items[id].linked
    requires s2.table == s1.table || (s2.table == s1.table - {s1.items[id].key} &&
               (Overdue(s1.items[id], t) || evicted == Some(id)))
    ensures Pruned(s, s2, t, evicted)
  {
    hide Kin;
    forall k | k in s.table && k !in s2.table
      ensures s.table[k] in s.items && (Past(s.items[s.table[k]], t) || evicted == Some(s.table[k]))
    {
      if k in s1.table {
        assert k == s1.items[id].key && s1.table[k] == id;
        KinPast(s.items[id], s1.items[id], t);
      }
    }
  }

  lemma KinPast(a: Item, b: Item, t: Clock)
    requires Kin(a, b, t)
    ensures Overdue(b, t) ==> Past(a, t)
  {
  }

  // ---- The cache ----

  class Cache {
    const segmented: bool
    var items: map<Id, Item>
    var table: map<Key, Id>
    var queues: seq<seq<Entry>>
    var sizes: seq<int>
    var bytes: seq<int>
    var currItems: int
    // The references that threads, connections and the bump buffers hold.
    ghost var holders: multiset<Id>

    ghost function St(): State
      reads this
    {
      State(items, table, queues, sizes, bytes, currItems, holders)
    }

    ghost predicate Valid()
      reads this
    {
      Inv(St())
    }

    constructor (segmented: bool)
      ensures Valid() && items == map[] && table == map[] && holders == multiset{}
    {
      this.segmented := segmented;
      items, table, currItems, holders := map[], map[], 0, multiset{};
      queues, sizes, bytes := seq(QUEUES, _ => []), seq(QUEUES, _ => 0), seq(QUEUES, _ => 0);
    }

    /** do_item_alloc: a new item, held by the caller. */
    method AllocItem(id: Id, key: Key, ntotal: nat, nbytes: nat, cls: nat, lru: nat, exptime: nat)
      requires Valid() && id !in items && cls + lru < QUEUES
      modifies this
      ensures Valid()
      ensures St() == Alloc(old(St()), id, Item(key, ntotal, nbytes, false, cls + lru, false, false, false, 0,
                exptime, 0, 1))
    {
      hide Inv;
      AllocKeeps(St(), id, Item(key, ntotal, nbytes, false, cls + lru, false, false, false, 0, exptime, 0, 1));
      items := items[id := Item(key, ntotal, nbytes, false, cls + lru, false, false, false, 0, exptime, 0, 1)];
      holders := holders + multiset{id};
    }

    /** do_item_link. */
    method LinkItem(id: Id, now: nat, cas: nat)
      requires Valid() && id in items && !items[id].linked && items[id].key !in table
      requires items[id].clsid < |queues| == |sizes| == |bytes|
      modifies this
      ensures Valid() && St() == Link(old(St()), id, now, cas)
    {
      hide Inv;
      LinkKeeps(St(), id, now, cas);
      items := items[id := items[id].(linked := true, time := now, cas := cas)];
      currItems := currItems + 1;
      table := table[items[id].key := id];
      LinkQ(id);
      items := items[id := items[id].(refcount := items[id].refcount + 1)];
      assert items == old(items)[id := old(items)[id].(linked := true, time := now, cas := cas,
               refcount := old(items)[id].refcount + 1)];
    }

    /** do_item_link_q. */
    method LinkQ(id: Id)
      requires id in items && items[id].clsid < |queues| == |sizes| == |bytes|
      modifies this`queues, this`sizes, this`bytes
      ensures queues == old(queues)[items[id].clsid := [It(id)] + old(queues)[items[id].clsid]]
      ensures sizes == old(sizes)[items[id].clsid := old(sizes)[items[id].clsid] + 1]
      ensures bytes == old(bytes)[items[id].clsid := old(bytes)[items[id].clsid] + Charge(items[id])]
    {
      var q := items[id].clsid;
      queues := queues[q := [It(id)] + queues[q]];
      sizes := sizes[q := sizes[q] + 1];
      bytes := bytes[q := bytes[q] + Charge(items[id])];
    }

    /** do_item_unlink_q. */
    method UnlinkQ(id: Id)
      requires id in items && items[id].clsid < |queues| == |sizes| == |bytes| && It(id) in queues[items[id].clsid]
      modifies this`queues, this`sizes, this`bytes
      ensures var q, e := items[id].clsid, old(queues)[items[id].clsid]; queues == old(queues)[q := Without(e,
                IndexOf(e, It(id)))]
      ensures sizes == old(sizes)[items[id].clsid := old(sizes)[items[id].clsid] - 1]
      ensures bytes == old(bytes)[items[id].clsid := old(bytes)[items[id].clsid] - Charge(items[id])]
    {
      var q := items[id].clsid;
      queues := queues[q := Without(queues[q], IndexOf(queues[q], It(id)))];
      sizes := sizes[q := sizes[q] - 1];
      bytes := bytes[q := bytes[q] - Charge(items[id])];
    }

    /** do_item_unlink and do_item_unlink_nolock, with the reference that do_item_remove drops at the end. */
    method UnlinkItem(id: Id)
      requires Valid() && id in items
      modifies this
      ensures Valid()
      ensures !old(items)[id].linked ==> St() == old(St())
      ensures old(items)[id].linked ==>
                InQueue(old(St()), id) && 0 < old(items)[id].refcount && St() == Unlink(old(St()), id)
    {
      hide Inv;
      if items[id].linked {
        UnlinkKeeps(St(), id);
        items := items[id := items[id].(linked := false)];
        currItems := currItems - 1;
        table := table - {items[id].key};
        UnlinkQ(id);
        items := Drop(items, id, items[id]);
        assert items == Drop(old(items), id, old(items)[id].(linked := false));
      }
    }

    /** do_item_remove: give a reference back; the item is freed exactly when it was the last and there is no link. */
    method RemoveItem(id: Id)
      requires Valid() && holders[id] > 0 && id in items
      modifies this
      ensures Valid() && 0 < old(items)[id].refcount && St() == Release(old(St()), id)
      ensures id !in items <==> !old(items)[id].linked && old(holders)[id] == 1
    {
      hide Inv;
      ReleaseKeeps(St(), id);
      assert items[id].refcount > 0;
      items := Drop(items, id, items[id]);
      holders := holders - multiset{id};
    }

    /** refcount_incr, by someone who may use the item. */
    method HoldItem(id: Id)
      requires Valid() && id in items
      modifies this
      ensures Valid() && St() == Hold(old(St()), id)
    {
      hide Inv;
      HoldKeeps(St(), id);
      items := items[id := items[id].(refcount := items[id].refcount + 1)];
      holders := holders + multiset{id};
    }

    /** The item leaves its queue and enters the head of the one it now names. */
    method Move(id: Id, it: Item)
      requires Valid() && id in items && items[id].linked && it.clsid < QUEUES
      requires it == items[id].(clsid := it.clsid, time := it.time, active := it.active)
      modifies this
      ensures Valid() && InQueue(old(St()), id) && it.clsid < |old(queues)| && St() == Requeue(old(St()), id, it)
    {
      hide Inv;
      RequeueKeeps(St(), id, it);
      UnlinkQ(id);
      items := items[id := it];
      LinkQ(id);
    }

    /** A change to the flags or times of an item. */
    method Touch(id: Id, it: Item)
      requires Valid() && id in items
      requires it == items[id].(fetched := it.fetched, active := it.active, time := it.time, exptime := it.exptime)
      modifies this
      ensures Valid() && St() == old(St()).(items := old(items)[id := it])
    {
      hide Inv;
      FieldKeeps(St(), id, it);
      items := items[id := it];
    }

    /** do_item_update: an active item that is cold moves to the warm queue; without segments a stale one moves to the
        head of its queue. */
    method Update(id: Id, t: Clock)
      requires Valid() && id in items
      modifies this
      ensures Valid() && OnlyMoves(old(St()), St())
      ensures var it := old(items)[id]; segmented && it.linked && Lru(it.clsid) == COLD && it.active ==>
                items[id] == it.(time := t.now, clsid := Cls(it.clsid) + WARM, active := false) &&
                  |queues[Cls(it.clsid) + WARM]| > 0 && queues[Cls(it.clsid) + WARM][0] == It(id)
      ensures !old(items)[id].linked ==> St() == old(St())
    {
      hide Inv;
      var it := items[id];
      Seated(St(), id);
      if segmented {
        if it.linked {
          if Lru(it.clsid) == COLD && it.active {
            Move(id, it.(time := t.now, clsid := Cls(it.clsid) + WARM, active := false));
          } else if Restless(it, t) {
            Touch(id, it.(time := t.now));
          }
        }
      } else if Restless(it, t) {
        if it.linked {
          Move(id, it.(time := t.now));
        }
      }
    }

    /** do_item_update_nolock. */
    method UpdateNolock(id: Id, t: Clock) returns (moved: bool)
      requires Valid() && id in items
      modifies this
      ensures Valid() && OnlyMoves(old(St()), St())
      ensures moved == (Restless(old(items)[id], t) && old(items)[id].linked)
      ensures !moved ==> St() == old(St())
      ensures moved ==>
                && InQueue(old(St()), id)
                && old(items)[id].clsid < |old(queues)|
                && St() == Requeue(old(St()), id, old(items)[id].(time := t.now))
    {
      hide Inv;
      Seated(St(), id);
      moved := false;
      if Restless(items[id], t) {
        if items[id].linked {
          Move(id, items[id].(time := t.now));
          moved := true;
        }
      }
    }

    /** do_item_replace: the old item leaves, the new one takes its key. */
    method Replace(id: Id, new_: Id, now: nat, cas: nat)
      requires Valid() && id in items && new_ in items && id != new_ && !items[new_].linked
      requires items[new_].key == items[id].key && items[id].linked
      modifies this
      ensures Valid() && new_ in items && items[new_].linked && holders == old(holders)
      ensures table == old(table)[old(items)[id].key := new_]
      ensures id !in items <==> old(holders)[id] == 0
      ensures id in items ==> !items[id].linked
    {
      hide Inv;
      LinkedInQueue(St(), id);
      Referenced(St(), id);
      UnlinkItem(id);
      Seated(St(), new_);
      LinkItem(new_, now, cas);
    }

    /** do_item_get: an item past its time is unlinked and missed; otherwise the caller holds it, and the bump buffer
        may hold it too. */
    method Get(key: Key, t: Clock, doUpdate: bool, bumpRoom: bool) returns (r: Option<Id>)
      requires Valid()
      modifies this
      ensures Valid()
      ensures r.Some? <==>
                && key in old(table)
                && old(table)[key] in old(items)
                && !Flushed(old(items)[old(table)[key]], t)
                && !Expired(old(items)[old(table)[key]], t)
      ensures r.Some? ==>
                && r.value == old(table)[key]
                && r.value in items
                && items[r.value].linked
                && items[r.value].key == key
                && table == old(table)
      ensures r.Some? ==>
                || holders == old(holders) + multiset{r.value}
                || (bumpRoom && doUpdate && segmented && holders == old(holders) + multiset{r.value, r.value})
      ensures r.None? ==> table == old(table) - {key} && holders == old(holders)
    {
      hide Inv;
      if key !in table {
        return None;
      }
      var id := table[key];
      Found(St(), key);
      HoldItem(id);
      if Flushed(items[id], t) {
        Discard(id);
        return None;
      } else if Expired(items[id], t) {
        Discard(id);
        return None;
      }
      if doUpdate {
        var bumped := Hit(id, t, bumpRoom);
      }
      return Some(id);
    }

    /** What a fetch does to the item it finds: the first hit marks it fetched, a later one active, and an active
        item is bumped, at once or, when it is cold, through the bump buffer. */
    method Hit(id: Id, t: Clock, bumpRoom: bool) returns (bumped: bool)
      requires Valid() && id in items
      modifies this
      ensures Valid() && table == old(table) && id in items && items[id].linked == old(items)[id].linked
      ensures items[id].key == old(items)[id].key
      ensures bumped == (segmented && bumpRoom && !old(items)[id].active && old(items)[id].fetched &&
                Lru(old(items)[id].clsid) == COLD)
      ensures holders == if bumped then old(holders) + multiset{id} else old(holders)
    {
      hide Inv;
      bumped := false;
      if segmented {
        if !items[id].active {
          if !items[id].fetched {
            Touch(id, items[id].(fetched := true));
          } else {
            Touch(id, items[id].(active := true));
            if Lru(items[id].clsid) != COLD {
              Update(id, t);
            } else if bumpRoom {
              HoldItem(id);
              bumped := true;
            } else {
              Touch(id, items[id].(active := false));
            }
          }
        }
      } else {
        Touch(id, items[id].(fetched := true));
        Update(id, t);
      }
    }

    /** Unlink an item that the caller holds, and let go of it. */
    method Discard(id: Id)
      requires Valid() && id in items && items[id].linked && holders[id] > 0
      modifies this
      ensures Valid() && table == old(table) - {old(items)[id].key} && holders == old(holders) - multiset{id}
      ensures id !in items <==> old(holders)[id] == 1
      ensures forall x :: x != id ==> (x in items <==> x in old(items)) && (x in items ==> items[x] == old(items)[x])
      ensures id in items ==> items[id] == old(items)[id].(linked := false, refcount := items[id].refcount)
      ensures InQueue(old(St()), id) && 0 < old(items)[id].refcount && queues == Unlink(old(St()), id).queues
    {
      hide Inv;
      Referenced(St(), id);
      UnlinkItem(id);
      RemoveItem(id);
    }

    /** One entry of a bump buffer. */
    method Bump(id: Id, t: Clock)
      requires Valid() && holders[id] > 0 && id in items
      modifies this
      ensures Valid() && table == old(table) && holders == old(holders) - multiset{id} && items.Keys <= old(items).Keys
      ensures forall x :: x in old(items) && x !in items ==> x == id && !old(items)[x].linked
      ensures forall x :: x in items ==> items[x].linked == old(items)[x].linked
    {
      hide Inv;
      Update(id, t);
      RemoveItem(id);
    }

    /** lru_maintainer_bumps, on the entries of one bump buffer: each is updated and its reference given back. */
    method Bumps(entries: seq<Id>, t: Clock)
      requires Valid() && multiset(entries) <= holders
      modifies this
      ensures Valid() && table == old(table) && holders == old(holders) - multiset(entries)
      ensures forall x :: x in old(items) && x !in items ==> !old(items)[x].linked
    {
      hide Inv;
      for k := 0 to |entries|
        invariant Valid() && table == old(table) && holders == old(holders) - multiset(entries[..k])
        invariant items.Keys <= old(items).Keys && forall x :: x in items ==> items[x].linked == old(items)[x].linked
        invariant forall x :: x in old(items) && x !in items ==> !old(items)[x].linked
      {
        StillHeld(old(holders), entries, k);
        Held(St(), entries[k]);
        Bump(entries[k], t);
      }
      assert entries[..|entries|] == entries;
    }

    /** An active item of the warm queue goes back to its head when its time is old enough; the walk goes on with
        the item that was ahead of it. */
    method Rescue(id: Id, i: nat, q: nat, t: Clock) returns (next: int)
      requires Valid() && q < |queues| && i < |queues[q]| && id in items && items[id].linked && items[id].clsid == q
      requires holders[id] > 0
      modifies this
      ensures Valid() && Kept(old(St()), St(), t) && table == old(table) && id in items && items[id].linked
      ensures holders == old(holders) - multiset{id} && q < |queues| && -1 <= next < |queues[q]|
    {
      hide Inv, Kept, Requeue, Restless;
      next := i - 1;
      ghost var s := St();
      RequeueIs(s, id, items[id].(time := t.now), t);
      SameKept(s, t);
      var moved := UpdateNolock(id, t);
      if moved && i > 0 {
        next := i;
      }
      ghost var s1 := St();
      RemoveItem(id);
      ReleaseKept(s1, id, t);
      KeptTrans(s, s1, St(), t);
    }

    /** lru_pull_tail on an item of the hot or warm queue that it holds: active ones are rescued, the others move to the
        cold queue when there is too much or they are too old. */
    method FromHotOrWarm(id: Id, i: nat, q: nat, lru: nat, t: Clock, l: Limits)
      returns (it: Option<Id>, moveTo: nat, removed: nat, next: int)
      requires Valid() && q < |queues| && i < |queues[q]| && id in items && items[id].linked && items[id].clsid == q
      requires holders[id] > 0
      requires q < |bytes| && (lru == HOT || lru == WARM)
      modifies this
      ensures Valid() && Kept(old(St()), St(), t) && table == old(table) && |queues| == |bytes| == QUEUES
      ensures -1 <= next < |queues[q]|
      ensures id in items && items[id].linked
      ensures it == if old(items)[id].active && lru == WARM then None else Some(id)
      ensures holders == if it.Some? then old(holders) else old(holders) - multiset{id}
      ensures moveTo == if old(items)[id].active then (if lru == HOT then WARM else 0)
                        else if old(bytes)[q] > Limit(lru, l) || Minus(t.now, old(items)[id].time) > l.maxAge
                          then COLD else 0
    {
      hide Inv, Charge, Limit, Minus;
      it, moveTo, removed, next := None, 0, 0, i - 1;
      if items[id].active {
        Touch(id, items[id].(active := false));
        removed := 1;
        if lru == WARM {
          next := Rescue(id, i, q, t);
        } else {
          moveTo := WARM;
          it := Some(id);
        }
      } else if bytes[q] > Limit(lru, l) || Minus(t.now, items[id].time) > l.maxAge {
        moveTo := COLD;
        it := Some(id);
        removed := 1;
      } else {
        it := Some(id);
      }
      QueuesLength(St());
    }

    /** lru_pull_tail on an item of the cold queue that it holds: the walk stops here, after evicting the item, or
        with the item for the caller, or to move an active one to the warm queue. */
    method FromCold(id: Id, flags: Pull, t: Clock, l: Limits) returns (moveTo: nat, ret: Option<Id>, removed: nat)
      requires Valid() && id in items && items[id].linked && holders[id] > 0
      modifies this
      ensures Valid() && Kept(old(St()), St(), t) && holders == old(holders) && id in items
      ensures table == if flags.evict && l.evictToFree then old(table) - {old(items)[id].key} else old(table)
      ensures removed == 0 ==> table == old(table)
      ensures items[id].linked == !(flags.evict && l.evictToFree)
      ensures ret == if !flags.evict && flags.returnItem then Some(id) else None
      ensures moveTo == if !flags.evict && !flags.returnItem && old(items)[id].active && segmented then WARM else 0
    {
      hide Inv, Charge;
      moveTo, ret, removed := 0, None, 0;
      if flags.evict {
        if l.evictToFree {
          Referenced(St(), id);
          UnlinkItem(id);
          removed := 1;
        }
      } else if flags.returnItem {
        ret := Some(id);
      } else if items[id].active && segmented {
        Touch(id, items[id].(active := false));
        moveTo := WARM;
        removed := 1;
      }
    }

    /** One item met by lru_pull_tail, its lock taken; `it` is set when the walk stops here with the item held. */
    method Consider(id: Id, i: nat, q: nat, lru: nat, flags: Pull, t: Clock, l: Limits)
      returns (it: Option<Id>, moveTo: nat, ret: Option<Id>, removed: nat, next: int)
      requires Valid() && q < |queues| && i < |queues[q]| && id in items && items[id].linked && items[id].clsid == q
      requires q < |bytes| && (lru == HOT || lru == WARM || lru == COLD || lru == TEMP)
      modifies this
      ensures Valid() && Kept(old(St()), St(), t) && |queues| == |bytes| == QUEUES
      ensures (it.None? ==> -1 <= next < |queues[q]|)
      ensures it.Some? ==> it.value == id && id in items && holders == old(holders) + multiset{id}
      ensures it.None? ==> holders == old(holders)
      ensures moveTo != 0 ==> it.Some? && items[id].linked && (moveTo == WARM || moveTo == COLD)
      ensures ret == if it.Some? && lru == COLD && !flags.evict && flags.returnItem then it else None
      ensures Overdue(old(items)[id], t) ==> it.None? && table == old(table) - {old(items)[id].key}
      ensures !Overdue(old(items)[id], t) ==> table == if lru == COLD && flags.evict &&
                l.evictToFree then old(table) - {old(items)[id].key} else old(table)
      ensures !Overdue(old(items)[id], t) && lru == COLD ==> it.Some?
      ensures removed == 0 ==> table == old(table)
    {
      hide Inv, Charge, Kept, Limit;
      it, moveTo, ret, removed, next := None, 0, None, 0, i - 1;
      ghost var s := St();
      HoldItem(id);
      HoldKept(s, id, t);
      ghost var s1 := St();
      if Overdue(items[id], t) {
        UnlinkLength(St(), id);
        Discard(id);
        DiscardKept(s1, St(), id, t);
        removed := 1;
      } else if lru == HOT || lru == WARM {
        it, moveTo, removed, next := FromHotOrWarm(id, i, q, lru, t, l);
      } else if lru == COLD {
        it := Some(id);
        moveTo, ret, removed := FromCold(id, flags, t, l);
      } else {
        it := Some(id);
        SameKept(s1, t);
      }
      KeptTrans(s, s1, St(), t);
      QueuesLength(St());
    }

    /** `Consider`, in the course of a pull that began in state `s`. */
    method Probe(id: Id, i: nat, q: nat, lru: nat, flags: Pull, t: Clock, l: Limits, ghost s: State)
      returns (it: Option<Id>, moveTo: nat, ret: Option<Id>, removed: nat, next: int, ghost evicted: Option<Id>)
      requires Valid() && q < |queues| && i < |queues[q]| && id in items && items[id].linked && items[id].clsid == q
      requires q < |bytes| && (lru == HOT || lru == WARM || lru == COLD || lru == TEMP)
      requires Kept(s, St(), t) && Pruned(s, St(), t, None)
      modifies this
      ensures Valid() && Kept(s, St(), t) && Pruned(s, St(), t, evicted) && |queues| == |bytes| == QUEUES
      ensures it.None? ==> -1 <= next < |queues[q]| && holders == old(holders) && evicted.None? && moveTo == 0
      ensures it.Some? ==> it.value == id && id in items && holders == old(holders) + multiset{id}
      ensures evicted.Some? ==> lru == COLD && flags.evict && l.evictToFree
      ensures moveTo != 0 ==> items[id].linked && (moveTo == WARM || moveTo == COLD)
      ensures ret == if it.Some? && lru == COLD && !flags.evict && flags.returnItem then it else None
      ensures removed == 0 ==> table == old(table)
    {
      hide Inv, Kept, Pruned, Charge, Overdue;
      ghost var s1 := St();
      it, moveTo, ret, removed, next := Consider(id, i, q, lru, flags, t, l);
      evicted := if it.Some? && table != s1.table then Some(id) else None;
      KeptTrans(s, s1, St(), t);
      Found2(s1, id);
      PrunedTrans(s, s1, St(), t, id, evicted);
    }

    /** The end of lru_pull_tail: the item enters the queue it moves to, and is let go unless the caller keeps it. */
    method Settle(id: Id, moveTo: nat, keep: bool, t: Clock)
      requires Valid() && id in items && holders[id] > 0
      requires (moveTo != 0 ==> items[id].linked && (moveTo == WARM || moveTo == COLD))
      modifies this
      ensures Valid() && Kept(old(St()), St(), t) && table == old(table)
      ensures holders == (if keep then old(holders) else old(holders) - multiset{id}) && (keep ==> id in items)
    {
      hide Inv, Kept, Charge;
      ghost var s := St();
      SameKept(s, t);
      if moveTo != 0 {
        Seated(s, id);
        var moved := items[id].(clsid := Cls(items[id].clsid) + moveTo);
        MoveIs(s, id, moved, t);
        Move(id, moved);
      }
      if !keep {
        ghost var s1 := St();
        RemoveItem(id);
        ReleaseKept(s1, id, t);
        KeptTrans(s, s1, St(), t);
      }
    }

    /** lru_pull_tail. At most five items from the tail are tried, crawlers aside; items whose lock is taken are
        passed over. Only items past their time leave the table, and at most one more, evicted from the cold queue;
        references are as before, except for one on the item at which a caller that asks for it makes the walk stop. */
    method PullTail(cls: nat, lru: nat, flags: Pull, t: Clock, l: Limits, busy: set<Id>)
      returns (removed: nat, ret: Option<Id>, ghost kept: Option<Id>, ghost evicted: Option<Id>)
      requires Valid() && cls < 64 && (lru == HOT || lru == WARM || lru == COLD || lru == TEMP)
      modifies this
      ensures Valid() && Pruned(old(St()), St(), t, evicted) && Kept(old(St()), St(), t)
      ensures evicted.Some? ==> lru == COLD && flags.evict && l.evictToFree
      ensures holders == if kept.Some? then old(holders) + multiset{kept.value} else old(holders)
      ensures kept.Some? ==> flags.returnItem && kept.value in items
      ensures lru == COLD && !flags.evict ==> ret == kept
      ensures cls == 0 ==> St() == old(St()) && removed == 0
      ensures removed == 0 && !flags.crawlBlocks ==> table == old(table)
    {
      hide Inv, Kept, Pruned, Charge, Overdue;
      removed, ret, kept, evicted := 0, None, None, None;
      ghost var s := St();
      SameKept(s, t);
      SamePruned(s, t);
      if cls == 0 {
        return;
      }
      var q := cls + lru;
      QueuesLength(St());
      var tries, search := 5, |queues[q]| - 1;
      var it: Option<Id>, moveTo := None, 0;
      while tries > 0 && search >= 0 && it.None?
        invariant Valid() && Kept(s, St(), t) && |queues| == |bytes| == QUEUES
        invariant it.None? ==>
                    && Pruned(s, St(), t, None)
                    && evicted.None?
                    && holders == s.holders
                    && ret.None?
                    && moveTo == 0
                    && -1 <= search < |queues[q]|
        invariant it.Some? ==>
                    Pruned(s, St(), t, evicted) && it.value in items && holders == s.holders + multiset{it.value}
        invariant evicted.Some? ==> lru == COLD && flags.evict && l.evictToFree
        invariant removed == 0 ==> table == s.table
        invariant it.Some? && moveTo != 0 ==> items[it.value].linked && (moveTo == WARM || moveTo == COLD)
        invariant it.Some? ==> ret == if lru == COLD && !flags.evict && flags.returnItem then it else None
        decreases if it.None? then 1 else 0, tries, search
      {
        match queues[q][search]
        case Crawler =>
          if flags.crawlBlocks {
            return 0, None, None, None;
          }
          search := search - 1;
        case It(id) =>
          EntryAt(St(), q, search);
          if id in busy {
            search := search - 1;
          } else {
            var n;
            it, moveTo, ret, n, search, evicted := Probe(id, search, q, lru, flags, t, l, s);
            removed := removed + n;
          }
          tries := tries - 1;
      }
      if it.Some? {
        ghost var s1 := St();
        Settle(it.value, moveTo, flags.returnItem, t);
        MovePruned(s, s1, St(), t, evicted);
        KeptTrans(s, s1, St(), t);
        kept := if flags.returnItem then it else None;
      }
    }
  }

  lemma Seated(s: State, id: Id)
    requires Inv(s) && id in s.items
    ensures s.items[id].clsid < |s.queues| == |s.sizes| == |s.bytes| == QUEUES
    ensures Cls(s.items[id].clsid) < 64
  {
  }

  lemma Referenced(s: State, id: Id)
    requires Inv(s) && id in s.items
    ensures s.items[id].refcount == (if s.items[id].linked then 1 else 0) + s.holders[id] && 0 < s.items[id].refcount
  {
  }

  lemma Found(s: State, key: Key)
    requires Inv(s) && key in s.table
    ensures s.table[key] in s.items && s.items[s.table[key]].linked && s.items[s.table[key]].key == key
  {
  }

  lemma Held(s: State, id: Id)
    requires Inv(s) && s.holders[id] > 0
    ensures id in s.items
  {
    assert id in s.holders;
  }

  lemma StillHeld(holders: multiset<Id>, entries: seq<Id>, k: nat)
    requires multiset(entries) <= holders && k < |entries|
    ensures (holders - multiset(entries[..k]))[entries[k]] > 0
    ensures holders - multiset(entries[..k + 1]) == holders - multiset(entries[..k]) - multiset{entries[k]}
  {
    assert entries == entries[..k] + ([entries[k]] + entries[k + 1..]);
    assert entries[..k + 1] == entries[..k] + [entries[k]];
    assert multiset(entries) == multiset(entries[..k]) + (multiset{entries[k]} + multiset(entries[k + 1..]));
  }

  lemma Found2(s: State, id: Id)
    requires Inv(s) && id in s.items && s.items[id].linked
    ensures s.items[id].key in s.table && s.table[s.items[id].key] == id
  {
  }

  lemma QueuesLength(s: State)
    requires Inv(s)
    ensures |s.queues| == |s.sizes| == |s.bytes| == QUEUES
  {
  }

  lemma UnlinkLength(s: State, id: Id)
    requires Inv(s) && id in s.items && s.items[id].linked
    ensures InQueue(s, id) && 0 < s.items[id].refcount
    ensures var q := s.items[id].clsid; |Unlink(s, id).queues[q]| == |s.queues[q]| - 1
  {
    LinkedInQueue(s, id);
  }

  lemma RequeueIs(s: State, id: Id, it: Item, t: Clock)
    requires Inv(s) && id in s.items && s.items[id].linked && it.clsid == s.items[id].clsid && Kin(s.items[id], it, t)
    ensures InQueue(s, id) && |Requeue(s, id, it).queues| == |s.queues|
    ensures |Requeue(s, id, it).queues[it.clsid]| == |s.queues[it.clsid]|
    ensures Kept(s, Requeue(s, id, it), t)
  {
    LinkedInQueue(s, id);
  }

  lemma ReleaseKept(s: State, id: Id, t: Clock)
    requires id in s.items && 0 < s.items[id].refcount
    ensures Kept(s, Release(s, id), t)
  {
  }

  lemma HoldKept(s: State, id: Id, t: Clock)
    requires id in s.items
    ensures Kept(s, Hold(s, id), t)
  {
  }

  lemma SameKept(s: State, t: Clock)
    ensures Kept(s, s, t)
  {
  }

  lemma DiscardKept(s: State, s': State, id: Id, t: Clock)
    requires id in s.items
    requires forall x :: x != id ==> (x in s'.items <==> x in s.items) && (x in s'.items ==> s'.items[x] == s.items[x])
    requires id in s'.items ==> s'.items[id] == s.items[id].(linked := false, refcount := s'.items[id].refcount)
    ensures Kept(s, s', t)
  {
  }

  lemma EntryAt(s: State, q: nat, i: nat)
    requires Inv(s) && q < QUEUES && q < |s.queues| && i < |s.queues[q]| && s.queues[q][i].It?
    ensures var id := s.queues[q][i].id; id in s.items && s.items[id].linked && s.items[id].clsid == q
  {
    assert QueueOk(s.items, s.queues[q], q);
    assert It(s.queues[q][i].id) in s.queues[q];
  }

  lemma MoveIs(s: State, id: Id, it: Item, t: Clock)
    requires Inv(s) && id in s.items && s.items[id].linked && it.clsid < QUEUES && Kin(s.items[id], it, t)
    ensures InQueue(s, id) && it.clsid < |s.queues| && Kept(s, Requeue(s, id, it), t)
  {
    LinkedInQueue(s, id);
  }

  lemma SamePruned(s: State, t: Clock)
    ensures Pruned(s, s, t, None)
  {
  }

  lemma MovePruned(s: State, s1: State, s2: State, t: Clock, evicted: Option<Id>)
    requires Pruned(s, s1, t, evicted) && s2.table == s1.table
    ensures Pruned(s, s2, t, evicted)
  {
  }

  // ---- Whole runs ----

  datatype Action =
    | Allocates(id: Id, it: Item)
    | Links(id: Id, now: nat, cas: nat)
    | Unlinks(id: Id)
    | Moves(id: Id, it: Item)
    | Takes(id: Id)
    | Returns(id: Id)
    | Marks(id: Id, it: Item)
    | Crawls(q: nat, e: seq<Entry>)

  /** The crawler enters, leaves or changes its place: the queues are the same without it. */
  ghost predicate CrawlerMoves(e: seq<Entry>, e': seq<Entry>) {
    || Apart(e, e') || Apart(e', e)
    || exists m :: Apart(e, m) && Apart(e', m)
  }

  ghost predicate Apart(e: seq<Entry>, m: seq<Entry>) {
     exists i :: 0 <= i < |e| && e[i].Crawler? && m == Without(e, i) }

  lemma CrawlerApart(items: map<Id, Item>, e: seq<Entry>, m: seq<Entry>, q: nat)
    requires Apart(e, m)
    ensures QueueOk(items, e, q) <==> QueueOk(items, m, q)
    ensures Count(e) == Count(m) && Sum(items, e) == Sum(items, m)
  {
    var i :| 0 <= i < |e| && e[i].Crawler? && m == Without(e, i);
    CountWithout(e, i);
    SumWithout(items, e, i);
    CrawlerSame(e, i);
    CrawlerOnce(e, i);
    hide Count, Sum, Without, Queued;
  }

  lemma CrawlerOnce(e: seq<Entry>, i: nat)
    requires i < |e| && e[i].Crawler?
    ensures Once(e) <==> Once(Without(e, i))
  {
    var m := Without(e, i);
    if Once(m) {
      forall a, b | 0 <= a < b < |e| && e[a].It? ensures e[a] != e[b] {
        var a', b' := if a < i then a else a - 1, if b < i then b else b - 1;
        assert e[b].Crawler? || m[a'] != m[b'];
      }
    }
    if Once(e) {
      forall a, b | 0 <= a < b < |m| && m[a].It? ensures m[a] != m[b] {
        var a', b' := if a < i then a else a + 1, if b < i then b else b + 1;
        assert e[a'] != e[b'];
      }
    }
  }

  lemma CrawlerSame(e: seq<Entry>, i: nat)
    requires i < |e| && e[i].Crawler?
    ensures forall id :: It(id) in e <==> It(id) in Without(e, i)
  {
    forall id ensures It(id) in e <==> It(id) in Without(e, i) {
      if It(id) in e {
        var k :| 0 <= k < |e| && e[k] == It(id);
        assert Without(e, i)[if k < i then k else k - 1] == It(id);
      }
    }
  }

  lemma CrawlsKeeps(s: State, q: nat, e: seq<Entry>)
    requires Inv(s) && q < |s.queues| && CrawlerMoves(s.queues[q], e)
    ensures Inv(s.(queues := s.queues[q := e]))
  {
    if Apart(s.queues[q], e) {
      CrawlerApart(s.items, s.queues[q], e, q);
    } else if Apart(e, s.queues[q]) {
      CrawlerApart(s.items, e, s.queues[q], q);
    } else {
      var m :| Apart(s.queues[q], m) && Apart(e, m);
      CrawlerApart(s.items, s.queues[q], m, q);
      CrawlerApart(s.items, e, m, q);
    }
    hide QueueOk, TableOk, RefsOk, Count, Sum, CrawlerMoves, Apart;
  }

  /** One operation on one item, under its lock. */
  ghost predicate Next(s: State, a: Action, s': State) {
    match a
    case Allocates(id, it) =>
      id !in s.items && !it.linked && it.refcount == 1 && it.clsid < QUEUES && s' == Alloc(s, id, it)
    case Links(id, now, cas) =>
      && id in s.items && !s.items[id].linked && s.items[id].key !in s.table
      && s.items[id].clsid < |s.queues| == |s.sizes| == |s.bytes| && s' == Link(s, id, now, cas)
    case Unlinks(id) => id in s.items && s.items[id].linked && InQueue(s, id) && 0 < s.items[id].refcount &&
           s' == Unlink(s, id)
    case Moves(id, it) =>
      && id in s.items && s.items[id].linked && it.clsid < QUEUES && InQueue(s, id) && it.clsid < |s.queues|
      && it == s.items[id].(clsid := it.clsid, time := it.time, active := it.active) && s' == Requeue(s, id, it)
    case Takes(id) => id in s.items && s' == Hold(s, id)
    case Returns(id) => s.holders[id] > 0 && id in s.items && 0 < s.items[id].refcount && s' == Release(s, id)
    case Marks(id, it) =>
      && id in s.items && it == s.items[id].(fetched := it.fetched, active := it.active, time := it.time,
           exptime := it.exptime)
      && s' == s.(items := s.items[id := it])
    case Crawls(q, e) => q < |s.queues| && CrawlerMoves(s.queues[q], e) && s' == s.(queues := s.queues[q := e])
  }

  lemma NextKeeps(s: State, a: Action, s': State)
    requires Inv(s) && Next(s, a, s')
    ensures Inv(s')
  {
    hide Inv, InQueue;
    match a
    case Allocates(id, it) => AllocKeeps(s, id, it);
    case Links(id, now, cas) => LinkKeeps(s, id, now, cas);
    case Unlinks(id) => UnlinkKeeps(s, id);
    case Moves(id, it) => RequeueKeeps(s, id, it);
    case Takes(id) => HoldKeeps(s, id);
    case Returns(id) => ReleaseKeeps(s, id);
    case Marks(id, it) => FieldKeeps(s, id, it);
    case Crawls(q, e) => CrawlsKeeps(s, q, e);
  }

  /** An item goes away in exactly two ways: its last reference is given back when it is not linked, or it is
      unlinked when nobody holds it. */
  lemma FreedExactly(s: State, a: Action, s': State, id: Id)
    requires Inv(s) && Next(s, a, s') && id in s.items
    ensures id !in s'.items <==>
      (a == Returns(id) && !s.items[id].linked && s.holders[id] == 1) || (a == Unlinks(id) && s.holders[id] == 0)
    ensures id !in s'.items ==> id !in s'.holders
  {
    hide Inv, InQueue;
    Referenced(s, id);
    if a.Returns? && a.id == id {
      ReleaseKeeps(s, id);
    }
  }

  ghost predicate Run(states: seq<State>, actions: seq<Action>) {
    && |states| == |actions| + 1
    && states[0] == State(map[], map[], seq(QUEUES, _ => []), seq(QUEUES, _ => 0), seq(QUEUES, _ => 0), 0, multiset{})
    && forall i :: 0 <= i < |actions| ==> Next(states[i], actions[i], states[i + 1])
  }

  /** From an empty cache, at every quiescent point of every run: linked, in the table, and in exactly the queue it
      names are the same thing, and the count of an item is its link and the references held on it. */
  lemma {:induction false} RunKeeps(states: seq<State>, actions: seq<Action>, i: nat)
    requires Run(states, actions) && i < |states|
    ensures Inv(states[i])
  {
    if i == 0 {
      assert forall q :: 0 <= q < QUEUES ==> states[0].queues[q] == [];
    } else {
      hide Inv, Next;
      RunKeeps(states, actions, i - 1);
      NextKeeps(states[i - 1], actions[i - 1], states[i]);
    }
  }
}
