/** The external store: pages of a file, filled through write buffers that are flushed by other threads, read
    back through handles (page, version, offset), and recycled by a maintenance thread. Every method of `Engine`
    is one critical section of the original, so any interleaving of threads is a sequence of calls. */
module Extstore {
  import opened Common
  import opened Pow

  type Bytes = seq<bv8>

  datatype Sizes = Sizes(page: nat, wbuf: nat)

  datatype Page = Page(
    version: nat, refcount: nat, reserved: nat, written: nat, bucket: nat,
    active: bool, closed: bool, free: bool, wbuf: Option<nat>, objCount: nat, bytesUsed: nat)

  // A write buffer: where it goes in its page, the bytes handed out so far, and whether it was submitted.
  datatype Wbuf = Wbuf(offset: nat, used: Bytes, full: bool)

  // A submitted buffer; `done` once the write to the file has happened.
  datatype WriteIo = WriteIo(page: nat, wbuf: nat, done: bool)

  datatype Key = Key(page: nat, version: nat, offset: nat)

  // A read of the file in progress.
  datatype Pin = Pin(key: Key, len: nat)

  // Where the writer of a bucket stands between its critical sections.
  datatype Writer = Idle | Picked(page: nat) | Full

  // ---- Arithmetic ----

  predicate Divides(w: nat, x: nat)
    requires w > 0
  {
    x % w == 0
  }

  lemma Monotone(w: nat, n: nat, k: nat)
    requires n <= k
    ensures w * n <= w * k
  {
  }

  lemma NextMultiple(w: nat, x: nat, p: nat)
    requires w > 0 && Divides(w, x) && Divides(w, p) && x < p
    ensures x + w <= p && Divides(w, x + w)
  {
    var k, n := x / w, p / w;
    assert x == w * k && p == w * n;
    assert k < n by {
      if n <= k {
        Monotone(w, n, k);
        assert false;
      }
    }
    assert w * (k + 1) <= w * n;
    assert (x + w) == w * (k + 1);
    Multiple(w, k + 1);
  }

  lemma Multiple(w: nat, k: nat)
    requires w > 0
    ensures Divides(w, w * k)
  {
    ModUnique(w * k, w, k, 0);
  }

  predicate SizesOk(z: Sizes) { z.wbuf > 0 && z.page > 0 && Divides(z.wbuf, z.page) }

  // ---- Pages ----

  predicate PageOk(z: Sizes, clock: nat, p: Page)
    requires SizesOk(z)
  {
    if p.free then p.version == 0 && p.refcount == 0 && p.reserved == 0 && p.written == 0 && !p.active &&
         !p.closed && p.wbuf.None?
    else
      && 0 < p.version < clock
      && p.active == (p.written < z.page)
      && (!p.active ==> p.wbuf.None?)
      && p.reserved == p.written + (if p.wbuf.Some? then z.wbuf else 0)
      && p.reserved <= z.page
      && Divides(z.wbuf, p.written)
  }

  ghost predicate PagesOk(z: Sizes, clock: nat, pages: seq<Page>) {
    && SizesOk(z)
    && (forall i :: 0 <= i < |pages| ==> PageOk(z, clock, pages[i]))
    && (forall i, j :: 0 <= i < j < |pages| && !pages[i].free && !pages[j].free ==>
         pages[i].version != pages[j].version)
    && (|pages| > 0 ==> pages[0].free)
  }

  // ---- Write buffers ----

  ghost predicate Holds(pages: seq<Page>, i: nat, b: nat) { i < |pages| && pages[i].wbuf == Some(b) }

  /** Every buffer is on the stack once or attached to one page, where its place is the end of what is written. */
  ghost predicate BufsOk(z: Sizes, pages: seq<Page>, wbufs: seq<Wbuf>, stack: seq<nat>) {
    && (forall b :: 0 <= b < |wbufs| ==> |wbufs[b].used| <= z.wbuf)
    && NoRepeat(stack) && (forall k :: 0 <= k < |stack| ==> stack[k] < |wbufs|)
    && (forall i: nat, b: nat :: Holds(pages, i, b)
          ==> b < |wbufs| && b !in stack && wbufs[b].offset == pages[i].written)
    && (forall i: nat, j: nat, b: nat :: Holds(pages, i, b) && Holds(pages, j, b) ==> i == j)
    && (forall b :: 0 <= b < |wbufs| && b !in stack ==> exists i :: Holds(pages, i, b))
  }

  // ---- Submitted buffers ----

  /** Every IO object is on the stack once or in flight with a full, attached buffer of its own; every full
      attached buffer is in flight. */
  ghost predicate IosOk(pages: seq<Page>, wbufs: seq<Wbuf>, stack: seq<nat>, inflight: map<nat, WriteIo>) {
    IoStackOk(|wbufs|, stack, inflight.Keys) && IoBufsOk(pages, wbufs, inflight)
  }

  ghost predicate IoStackOk(n: nat, stack: seq<nat>, ios: set<nat>) {
    && NoRepeat(stack) && (forall k :: 0 <= k < |stack| ==> stack[k] < n && stack[k] !in ios)
    && (forall o :: o in ios ==> o < n) && |stack| + |ios| == n
  }

  ghost predicate IoBufsOk(pages: seq<Page>, wbufs: seq<Wbuf>, inflight: map<nat, WriteIo>) {
    && (forall o :: o in inflight ==> IoOk(pages, wbufs, inflight[o]))
    && Injective(inflight)
    && (forall i: nat, b: nat :: Holds(pages, i, b) && b < |wbufs| && wbufs[b].full ==> InFlight(inflight, b))
  }

  ghost predicate IoOk(pages: seq<Page>, wbufs: seq<Wbuf>, io: WriteIo) {
    io.wbuf < |wbufs| && Holds(pages, io.page, io.wbuf) && wbufs[io.wbuf].full
  }

  ghost predicate Injective(inflight: map<nat, WriteIo>) {
    forall o, q :: o in inflight && q in inflight && inflight[o].wbuf == inflight[q].wbuf ==> o == q
  }

  ghost predicate InFlight(inflight: map<nat, WriteIo>, b: nat) { exists o :: o in inflight && inflight[o].wbuf == b }

  // ---- Objects ----

  function Zeros(n: nat): (r: Bytes)
    ensures |r| == n
  {
    seq(n, _ => 0)
  }

  /** What a submitted buffer writes: its bytes, then zeros. */
  function Padded(z: Sizes, w: Wbuf): (r: Bytes)
    requires |w.used| <= z.wbuf
    ensures |r| == z.wbuf
  {
    w.used + Zeros(z.wbuf - |w.used|)
  }

  predicate OnDisk(p: Page, d: Bytes, off: nat, o: Bytes) {
    off + |o| <= p.written && off + |o| <= |d| && d[off..off + |o|] == o
  }

  predicate InBuf(p: Page, wbufs: seq<Wbuf>, off: nat, o: Bytes) {
    p.wbuf.Some? && p.wbuf.value < |wbufs| && var w := wbufs[p.wbuf.value];
    w.offset == p.written <= off && off - w.offset + |o| <= |w.used| &&
      w.used[off - w.offset..off - w.offset + |o|] == o
  }

  predicate ObjectOk(clock: nat, pages: seq<Page>, wbufs: seq<Wbuf>, disk: seq<Bytes>, k: Key, o: Bytes) {
    && 0 < |o| && k.page < |pages| && k.page < |disk| && 0 < k.version < clock
    && (pages[k.page].version == k.version ==>
         OnDisk(pages[k.page], disk[k.page], k.offset, o) || InBuf(pages[k.page], wbufs, k.offset, o))
  }

  ghost predicate ObjectsOk(clock: nat, pages: seq<Page>, wbufs: seq<Wbuf>, disk: seq<Bytes>,
      objects: map<Key, Bytes>) {
    forall k :: k in objects ==> ObjectOk(clock, pages, wbufs, disk, k, objects[k])
  }

  predicate Flushed(z: Sizes, pages: seq<Page>, wbufs: seq<Wbuf>, disk: seq<Bytes>, io: WriteIo) {
    && io.page < |pages| && io.page < |disk| && io.wbuf < |wbufs| && |wbufs[io.wbuf].used| <= z.wbuf
    && pages[io.page].written + z.wbuf <= |disk[io.page]|
    && disk[io.page][pages[io.page].written..pages[io.page].written + z.wbuf] == Padded(z, wbufs[io.wbuf])
  }

  ghost predicate DiskOk(z: Sizes, pages: seq<Page>, wbufs: seq<Wbuf>, disk: seq<Bytes>, inflight: map<nat, WriteIo>) {
    && |disk| == |pages| && (forall i :: 0 <= i < |disk| ==> |disk[i]| == z.page)
    && (forall o :: o in inflight && inflight[o].done ==> Flushed(z, pages, wbufs, disk, inflight[o]))
  }

  // ---- Reads in progress ----

  ghost function PinsOn(pins: map<nat, Pin>, i: nat): set<nat> {
    set h | h in pins && pins[h].key.page == i
  }

  predicate PinOk(pages: seq<Page>, objects: map<Key, Bytes>, p: Pin) {
    && p.key.page < |pages| && pages[p.key.page].version == p.key.version && 0 < p.key.version
    && p.key in objects && |objects[p.key]| == p.len && p.key.offset + p.len <= pages[p.key.page].written
  }

  ghost predicate PinsOk(pages: seq<Page>, objects: map<Key, Bytes>, pins: map<nat, Pin>) {
    && (forall h :: h in pins ==> PinOk(pages, objects, pins[h]))
    && (forall i :: 0 <= i < |pages| ==> pages[i].refcount == |PinsOn(pins, i)|)
  }

  // ---- The free list and the bucket stacks ----

  /** Free pages other than page 0 are on the free list, pages in use in the stack of their bucket, each once; all
      but the head of a stack are full. */
  ghost predicate ListsOk(z: Sizes, pages: seq<Page>, freelist: seq<nat>, buckets: seq<seq<nat>>) {
    && NoRepeat(freelist)
    && (forall i: nat :: i in freelist <==> 0 < i < |pages| && pages[i].free)
    && (forall b :: 0 <= b < |buckets| ==> StackOk(z, pages, buckets[b], b))
    && (forall i :: 0 <= i < |pages| && !pages[i].free ==> pages[i].bucket < |buckets|)
  }

  ghost predicate StackOk(z: Sizes, pages: seq<Page>, s: seq<nat>, b: nat) {
    && NoRepeat(s)
    && (forall i: nat :: i in s <==> i < |pages| && !pages[i].free && pages[i].bucket == b)
    && (forall k :: 0 < k < |s| ==> s[k] < |pages| && pages[s[k]].reserved == z.page)
  }

  /** The stack of a bucket can take a new page. */
  predicate HeadFull(z: Sizes, pages: seq<Page>, s: seq<nat>) {
    s == [] || (s[0] < |pages| && pages[s[0]].reserved == z.page)
  }

  predicate WriterOk(z: Sizes, pages: seq<Page>, s: seq<nat>, w: Writer) {
    match w
    case Idle => true
    case Picked(p) => p < |pages| && (HeadFull(z, pages, s) || s[0] == p)
    case Full => HeadFull(z, pages, s)
  }

  ghost predicate WritersOk(z: Sizes, pages: seq<Page>, buckets: seq<seq<nat>>, writers: seq<Writer>) {
    |writers| == |buckets| && forall b :: 0 <= b < |buckets| ==> WriterOk(z, pages, buckets[b], writers[b])
  }

  // ---- What the predicates depend on ----

  /** Changes to a page that leave its version, its buffer and what is written alone do not concern buffers,
      IOs or objects. */
  lemma SameContent(z: Sizes, clock: nat, pages: seq<Page>, wbufs: seq<Wbuf>, wstack: seq<nat>, iostack: seq<nat>,
      inflight: map<nat, WriteIo>, disk: seq<Bytes>, objects: map<Key, Bytes>, i: nat, p: Page)
    requires i < |pages| && p.version == pages[i].version && p.written == pages[i].written && p.wbuf == pages[i].wbuf
    requires BufsOk(z, pages, wbufs, wstack) && IosOk(pages, wbufs, iostack, inflight)
    requires DiskOk(z, pages, wbufs, disk, inflight) && ObjectsOk(clock, pages, wbufs, disk, objects)
    ensures BufsOk(z, pages[i := p], wbufs, wstack) && IosOk(pages[i := p], wbufs, iostack, inflight)
    ensures DiskOk(z, pages[i := p], wbufs, disk, inflight) && ObjectsOk(clock, pages[i := p], wbufs, disk, objects)
  {
    hide BufsOk, IosOk, DiskOk, ObjectsOk;
    BufsSame(z, pages, wbufs, wstack, i, p);
    IosSame(pages, wbufs, iostack, inflight, i, p);
    DiskSame(z, pages, wbufs, disk, inflight, i, p);
    ObjectsSame(clock, pages, wbufs, disk, objects, i, p);
  }

  lemma DiskSame(z: Sizes, pages: seq<Page>, wbufs: seq<Wbuf>, disk: seq<Bytes>, inflight: map<nat, WriteIo>, i: nat,
    p: Page)
    requires i < |pages| && p.version == pages[i].version && p.written == pages[i].written && p.wbuf == pages[i].wbuf
    requires DiskOk(z, pages, wbufs, disk, inflight)
    ensures DiskOk(z, pages[i := p], wbufs, disk, inflight)
  {
    var pages' := pages[i := p];
    forall o | o in inflight && inflight[o].done
      ensures Flushed(z, pages', wbufs, disk, inflight[o])
    {
      assert Flushed(z, pages, wbufs, disk, inflight[o]);
    }
  }

  lemma ObjectsSame(clock: nat, pages: seq<Page>, wbufs: seq<Wbuf>, disk: seq<Bytes>, objects: map<Key, Bytes>,
    i: nat, p: Page)
    requires i < |pages| && p.version == pages[i].version && p.written == pages[i].written && p.wbuf == pages[i].wbuf
    requires ObjectsOk(clock, pages, wbufs, disk, objects)
    ensures ObjectsOk(clock, pages[i := p], wbufs, disk, objects)
  {
    var pages' := pages[i := p];
    forall k | k in objects
      ensures ObjectOk(clock, pages', wbufs, disk, k, objects[k])
    {
      assert ObjectOk(clock, pages, wbufs, disk, k, objects[k]);
    }
  }

  lemma IosSame(pages: seq<Page>, wbufs: seq<Wbuf>, iostack: seq<nat>, inflight: map<nat, WriteIo>, i: nat, p: Page)
    requires i < |pages| && p.wbuf == pages[i].wbuf && IosOk(pages, wbufs, iostack, inflight)
    ensures IosOk(pages[i := p], wbufs, iostack, inflight)
  {
    var pages' := pages[i := p];
    forall j: nat, b: nat
      ensures Holds(pages, j, b) == Holds(pages', j, b)
    {
    }
    hide Holds, InFlight;
  }

  lemma BufsSame(z: Sizes, pages: seq<Page>, wbufs: seq<Wbuf>, wstack: seq<nat>, i: nat, p: Page)
    requires i < |pages| && p.written == pages[i].written && p.wbuf == pages[i].wbuf
    requires BufsOk(z, pages, wbufs, wstack)
    ensures BufsOk(z, pages[i := p], wbufs, wstack)
  {
    var pages' := pages[i := p];
    assert forall j: nat, b: nat :: Holds(pages, j, b) == Holds(pages', j, b);
    assert forall j: nat, b: nat :: Holds(pages, j, b) ==> pages'[j].written == pages[j].written;
    hide Holds;
    forall b | 0 <= b < |wbufs| && b !in wstack
      ensures exists j :: Holds(pages', j, b)
    {
      var j :| Holds(pages, j, b);
      assert Holds(pages', j, b);
    }
  }

  /** Changes to a page that leave its place and how much of it is reserved alone do not concern the lists. */
  lemma SamePlace(z: Sizes, pages: seq<Page>, freelist: seq<nat>, buckets: seq<seq<nat>>, writers: seq<Writer>,
      i: nat, p: Page)
    requires i < |pages| && p.free == pages[i].free && p.bucket == pages[i].bucket && p.reserved == pages[i].reserved
    requires ListsOk(z, pages, freelist, buckets) && WritersOk(z, pages, buckets, writers)
    ensures ListsOk(z, pages[i := p], freelist, buckets) && WritersOk(z, pages[i := p], buckets, writers)
  {
    forall b | 0 <= b < |buckets|
      ensures StackOk(z, pages[i := p], buckets[b], b) && WriterOk(z, pages[i := p], buckets[b], writers[b])
    {
      assert StackOk(z, pages, buckets[b], b) && WriterOk(z, pages, buckets[b], writers[b]);
    }
  }

  lemma PagesSame(z: Sizes, clock: nat, pages: seq<Page>, i: nat, p: Page)
    requires PagesOk(z, clock, pages) && i < |pages| && PageOk(z, clock, p)
    requires p.version == pages[i].version && p.free == pages[i].free
    ensures PagesOk(z, clock, pages[i := p])
  {
  }

  lemma PinsSame(pages: seq<Page>, objects: map<Key, Bytes>, pins: map<nat, Pin>, i: nat, p: Page)
    requires i < |pages| && p.version == pages[i].version && p.written >= pages[i].written
    requires p.refcount == pages[i].refcount
    requires PinsOk(pages, objects, pins)
    ensures PinsOk(pages[i := p], objects, pins)
  {
    forall h | h in pins
      ensures PinOk(pages[i := p], objects, pins[h])
    {
      assert PinOk(pages, objects, pins[h]);
    }
  }

  // ---- Taking and returning a page ----

  lemma TakePages(z: Sizes, clock: nat, pages: seq<Page>, i: nat, b: nat)
    requires PagesOk(z, clock, pages) && 0 < i < |pages| && pages[i].free && clock > 0
    ensures PagesOk(z, clock + 1, pages[i := pages[i].(active := true, free := false, closed := false,
              version := clock, bucket := b)])
  {
  }

  lemma GiveContent(z: Sizes, clock: nat, clock': nat, pages: seq<Page>, wbufs: seq<Wbuf>, wstack: seq<nat>,
      iostack: seq<nat>, inflight: map<nat, WriteIo>, disk: seq<Bytes>, objects: map<Key, Bytes>, i: nat, p: Page)
    requires i < |pages| && p.wbuf == pages[i].wbuf == None && (p.version == 0 || p.version == clock) && clock <= clock'
    requires BufsOk(z, pages, wbufs, wstack) && IosOk(pages, wbufs, iostack, inflight)
    requires DiskOk(z, pages, wbufs, disk, inflight) && ObjectsOk(clock, pages, wbufs, disk, objects)
    ensures BufsOk(z, pages[i := p], wbufs, wstack) && IosOk(pages[i := p], wbufs, iostack, inflight)
    ensures DiskOk(z, pages[i := p], wbufs, disk, inflight) && ObjectsOk(clock', pages[i := p], wbufs, disk, objects)
  {
    var pages' := pages[i := p];
    forall o | o in inflight && inflight[o].done
      ensures Flushed(z, pages', wbufs, disk, inflight[o])
    {
      assert Flushed(z, pages, wbufs, disk, inflight[o]) && Holds(pages, inflight[o].page, inflight[o].wbuf);
    }
    IosSame(pages, wbufs, iostack, inflight, i, p);
    hide IosOk;
    BufsDetached(z, pages, wbufs, wstack, i, p);
    hide BufsOk;
    forall k | k in objects
      ensures ObjectOk(clock', pages', wbufs, disk, k, objects[k])
    {
      assert ObjectOk(clock, pages, wbufs, disk, k, objects[k]);
    }
  }

  lemma BufsDetached(z: Sizes, pages: seq<Page>, wbufs: seq<Wbuf>, wstack: seq<nat>, i: nat, p: Page)
    requires i < |pages| && p.wbuf == pages[i].wbuf == None
    requires BufsOk(z, pages, wbufs, wstack)
    ensures BufsOk(z, pages[i := p], wbufs, wstack)
  {
    var pages' := pages[i := p];
    assert forall j: nat, b: nat :: Holds(pages, j, b) == Holds(pages', j, b);
    assert forall j: nat, b: nat :: Holds(pages, j, b) ==> pages'[j].written == pages[j].written;
    hide Holds;
    forall b | 0 <= b < |wbufs| && b !in wstack
      ensures exists j :: Holds(pages', j, b)
    {
      var j :| Holds(pages, j, b);
      assert Holds(pages', j, b);
    }
  }

  lemma GivePins(pages: seq<Page>, objects: map<Key, Bytes>, pins: map<nat, Pin>, i: nat, p: Page)
    requires i < |pages| && pages[i].refcount == 0 == p.refcount && PinsOk(pages, objects, pins)
    ensures PinsOk(pages[i := p], objects, pins)
  {
    assert PinsOn(pins, i) == {};
    forall h | h in pins
      ensures PinOk(pages[i := p], objects, pins[h])
    {
      assert PinOk(pages, objects, pins[h]) && h !in PinsOn(pins, i);
    }
  }

  lemma TakeLists(z: Sizes, pages: seq<Page>, freelist: seq<nat>, buckets: seq<seq<nat>>, writers: seq<Writer>,
      b: nat, p: Page, w: Writer)
    requires ListsOk(z, pages, freelist, buckets) && WritersOk(z, pages, buckets, writers) && b < |buckets|
    requires HeadFull(z, pages, buckets[b])
    requires freelist != [] && !p.free && p.bucket == b
    requires w == Idle || w == Picked(freelist[0])
    ensures freelist[0] < |pages|
    ensures ListsOk(z, pages[freelist[0] := p], freelist[1..], buckets[b := [freelist[0]] + buckets[b]])
    ensures WritersOk(z, pages[freelist[0] := p], buckets[b := [freelist[0]] + buckets[b]], writers[b := w])
  {
    var i := freelist[0];
    assert i in freelist;
    var pages', free', buckets' := pages[i := p], freelist[1..], buckets[b := [i] + buckets[b]];
    assert freelist == [i] + free';
    assert forall j: nat :: j in freelist <==> j == i || j in free';
    assert forall k :: 0 <= k < |free'| ==> free'[k] == freelist[k + 1];
    forall c | 0 <= c < |buckets|
      ensures StackOk(z, pages', buckets'[c], c) && WriterOk(z, pages', buckets'[c], writers[b := w][c])
    {
      assert StackOk(z, pages, buckets[c], c) && WriterOk(z, pages, buckets[c], writers[c]);
      assert i !in buckets[c];
      assert forall k :: 0 <= k < |buckets[c]| ==> buckets[c][k] in buckets[c];
    }
  }

  lemma GiveLists(z: Sizes, pages: seq<Page>, freelist: seq<nat>, buckets: seq<seq<nat>>, writers: seq<Writer>,
      i: nat, k: nat, p: Page)
    requires ListsOk(z, pages, freelist, buckets) && WritersOk(z, pages, buckets, writers)
    requires 0 < i < |pages| && !pages[i].free && p.free && pages[i].bucket < |buckets| && pages[i].reserved == z.page
    requires k < |buckets[pages[i].bucket]| && buckets[pages[i].bucket][k] == i
    ensures ListsOk(z, pages[i := p], [i] + freelist, buckets[pages[i].bucket := Without(buckets[pages[i].bucket], k)])
    ensures WritersOk(z, pages[i := p], buckets[pages[i].bucket := Without(buckets[pages[i].bucket], k)], writers)
  {
    var b := pages[i].bucket;
    var pages', free', buckets' := pages[i := p], [i] + freelist, buckets[b := Without(buckets[b], k)];
    assert i !in freelist;
    assert forall j: nat :: j in free' <==> j == i || j in freelist;
    forall c | 0 <= c < |buckets|
      ensures StackOk(z, pages', buckets'[c], c) && WriterOk(z, pages', buckets'[c], writers[c])
    {
      assert StackOk(z, pages, buckets[c], c) && WriterOk(z, pages, buckets[c], writers[c]);
      assert forall j :: 0 <= j < |buckets[c]| ==> buckets[c][j] in buckets[c];
      if c == b {
        GiveStack(z, pages, buckets[b], writers[b], i, k, p);
      } else {
        assert i !in buckets[c];
      }
    }
  }

  lemma GiveStack(z: Sizes, pages: seq<Page>, s: seq<nat>, w: Writer, i: nat, k: nat, p: Page)
    requires 0 < i < |pages| && !pages[i].free && p.free && pages[i].reserved == z.page && k < |s| && s[k] == i
    requires StackOk(z, pages, s, pages[i].bucket) && WriterOk(z, pages, s, w)
    ensures StackOk(z, pages[i := p], Without(s, k), pages[i].bucket) && WriterOk(z, pages[i := p], Without(s, k), w)
  {
    WithoutIs(s, k);
    hide Without;
    var t := Without(s, k);
    GiveFull(z, pages, s, i, k, p);
    assert forall x :: x in t ==> x != i;
    hide HeadFull;
  }

  /** Behind the head of what is left there are only full pages, and the head is the old one or full too. */
  lemma GiveFull(z: Sizes, pages: seq<Page>, s: seq<nat>, i: nat, k: nat, p: Page)
    requires i < |pages| && k < |s| && s[k] == i && NoRepeat(s)
    requires forall j :: 0 < j < |s| ==> s[j] < |pages| && pages[s[j]].reserved == z.page
    ensures forall j :: 0 < j < |s| - 1
               ==> Without(s, k)[j] < |pages| && pages[i := p][Without(s, k)[j]].reserved == z.page
    ensures HeadFull(z, pages, s) || k == 0 ==> HeadFull(z, pages[i := p], Without(s, k))
    ensures k > 0 ==> Without(s, k)[0] == s[0]
  {
    WithoutIs(s, k);
    hide Without;
    var t := Without(s, k);
    forall j | 0 <= j < |t| && (j > 0 || k == 0 || HeadFull(z, pages, s))
      ensures t[j] < |pages| && pages[i := p][t[j]].reserved == z.page
    {
      assert t[j] in t;
    }
  }

  // ---- Attaching, filling, submitting and flushing a buffer ----

  lemma AttachBufs(z: Sizes, pages: seq<Page>, wbufs: seq<Wbuf>, stack: seq<nat>, i: nat, p: Page)
    requires BufsOk(z, pages, wbufs, stack) && stack != [] && i < |pages| && pages[i].wbuf.None?
    requires p.wbuf == Some(stack[0])
    ensures stack[0] < |wbufs|
    ensures forall j: nat :: !Holds(pages, j, stack[0])
    ensures BufsOk(z, pages[i := p], wbufs[stack[0] := Wbuf(p.written, [], false)], stack[1..])
  {
    var b, pages', stack' := stack[0], pages[i := p], stack[1..];
    assert stack == [b] + stack' && b in stack && b !in stack';
    assert forall x :: x in stack' <==> x in stack && x != b;
    forall j: nat, c: nat
      ensures Holds(pages', j, c) <==> (j == i && c == b) || Holds(pages, j, c)
    {
    }
    assert Holds(pages', i, b);
    assert forall j: nat, c: nat :: Holds(pages, j, c) ==> c in stack' || c !in stack;
    hide Holds;
    forall c | 0 <= c < |wbufs| && c !in stack'
      ensures exists j :: Holds(pages', j, c)
    {
      if c != b {
        var j :| Holds(pages, j, c);
        assert Holds(pages', j, c);
      }
    }
  }

  lemma AttachIos(pages: seq<Page>, wbufs: seq<Wbuf>, iostack: seq<nat>, inflight: map<nat, WriteIo>, i: nat,
      p: Page, b: nat, w: Wbuf)
    requires i < |pages| && pages[i].wbuf.None? && p.wbuf == Some(b) && !w.full
    requires b < |wbufs| && forall j: nat :: !Holds(pages, j, b)
    requires IosOk(pages, wbufs, iostack, inflight)
    ensures IosOk(pages[i := p], wbufs[b := w], iostack, inflight)
  {
    var pages' := pages[i := p];
    forall j: nat, c: nat
      ensures Holds(pages', j, c) <==> (j == i && c == b) || Holds(pages, j, c)
    {
    }
    hide Holds, InFlight;
    assert forall o :: o in inflight ==> inflight[o].wbuf != b;
  }

  lemma AttachDisk(z: Sizes, pages: seq<Page>, wbufs: seq<Wbuf>, iostack: seq<nat>, inflight: map<nat, WriteIo>,
      disk: seq<Bytes>, i: nat, p: Page, b: nat, w: Wbuf)
    requires i < |pages| && p.written == pages[i].written && b < |wbufs| && forall j: nat :: !Holds(pages, j, b)
    requires IosOk(pages, wbufs, iostack, inflight) && DiskOk(z, pages, wbufs, disk, inflight)
    ensures DiskOk(z, pages[i := p], wbufs[b := w], disk, inflight)
  {
    forall o | o in inflight && inflight[o].done
      ensures Flushed(z, pages[i := p], wbufs[b := w], disk, inflight[o])
    {
      assert Flushed(z, pages, wbufs, disk, inflight[o]) && Holds(pages, inflight[o].page, inflight[o].wbuf);
    }
  }

  lemma AttachObjects(clock: nat, pages: seq<Page>, wbufs: seq<Wbuf>, disk: seq<Bytes>, objects: map<Key, Bytes>,
      i: nat, p: Page, b: nat, w: Wbuf)
    requires i < |pages| && pages[i].wbuf.None? && p.version == pages[i].version && p.written == pages[i].written
    requires b < |wbufs| && forall j: nat :: !Holds(pages, j, b)
    requires ObjectsOk(clock, pages, wbufs, disk, objects)
    ensures ObjectsOk(clock, pages[i := p], wbufs[b := w], disk, objects)
  {
    forall k | k in objects
      ensures ObjectOk(clock, pages[i := p], wbufs[b := w], disk, k, objects[k])
    {
      assert ObjectOk(clock, pages, wbufs, disk, k, objects[k]) && !Holds(pages, k.page, b);
    }
  }

  /** A new object takes an address that no other object has. */
  lemma AppendFresh(clock: nat, pages: seq<Page>, wbufs: seq<Wbuf>, disk: seq<Bytes>, objects: map<Key, Bytes>,
      i: nat, b: nat)
    requires i < |pages| && pages[i].wbuf == Some(b) && b < |wbufs| && wbufs[b].offset == pages[i].written
    requires ObjectsOk(clock, pages, wbufs, disk, objects)
    ensures Key(i, pages[i].version, wbufs[b].offset + |wbufs[b].used|) !in objects
  {
    var k := Key(i, pages[i].version, wbufs[b].offset + |wbufs[b].used|);
    assert k in objects ==> ObjectOk(clock, pages, wbufs, disk, k, objects[k]);
  }

  lemma AppendBufs(z: Sizes, pages: seq<Page>, wbufs: seq<Wbuf>, wstack: seq<nat>, iostack: seq<nat>,
      inflight: map<nat, WriteIo>, b: nat, w: Wbuf)
    requires b < |wbufs| && w.offset == wbufs[b].offset && w.full == wbufs[b].full && |w.used| <= z.wbuf
    requires BufsOk(z, pages, wbufs, wstack) && IosOk(pages, wbufs, iostack, inflight)
    ensures BufsOk(z, pages, wbufs[b := w], wstack) && IosOk(pages, wbufs[b := w], iostack, inflight)
  {
    hide Holds, InFlight;
  }

  lemma AppendDisk(z: Sizes, pages: seq<Page>, wbufs: seq<Wbuf>, iostack: seq<nat>, inflight: map<nat, WriteIo>,
      disk: seq<Bytes>, b: nat, w: Wbuf)
    requires b < |wbufs| && !wbufs[b].full && IosOk(pages, wbufs, iostack, inflight)
    requires DiskOk(z, pages, wbufs, disk, inflight)
    ensures DiskOk(z, pages, wbufs[b := w], disk, inflight)
  {
    forall o | o in inflight && inflight[o].done
      ensures Flushed(z, pages, wbufs[b := w], disk, inflight[o])
    {
      assert Flushed(z, pages, wbufs, disk, inflight[o]) && inflight[o].wbuf != b;
    }
  }

  lemma AppendObjects(clock: nat, pages: seq<Page>, wbufs: seq<Wbuf>, disk: seq<Bytes>, objects: map<Key, Bytes>,
      objects': map<Key, Bytes>, i: nat, b: nat, data: Bytes)
    requires i < |pages| && pages[i].wbuf == Some(b) && b < |wbufs| && wbufs[b].offset == pages[i].written && 0 < |data|
    requires |disk| == |pages| && 0 < pages[i].version < clock && ObjectsOk(clock, pages, wbufs, disk, objects)
    requires objects' == objects[Key(i, pages[i].version, wbufs[b].offset + |wbufs[b].used|) := data]
    ensures ObjectsOk(clock, pages, wbufs[b := wbufs[b].(used := wbufs[b].used + data)], disk, objects')
  {
    forall k | k in objects'
      ensures ObjectOk(clock, pages, wbufs[b := wbufs[b].(used := wbufs[b].used + data)], disk, k, objects'[k])
    {
      AppendObject(clock, pages, wbufs, disk, i, b, data, k, objects'[k]);
    }
  }

  lemma AppendObject(clock: nat, pages: seq<Page>, wbufs: seq<Wbuf>, disk: seq<Bytes>, i: nat, b: nat,
      data: Bytes, k: Key, o: Bytes)
    requires i < |pages| && pages[i].wbuf == Some(b) && b < |wbufs| && wbufs[b].offset == pages[i].written && 0 < |data|
    requires |disk| == |pages| && 0 < pages[i].version < clock
    requires (k == Key(i, pages[i].version, wbufs[b].offset + |wbufs[b].used|) &&
               o == data) || ObjectOk(clock, pages, wbufs, disk, k, o)
    ensures ObjectOk(clock, pages, wbufs[b := wbufs[b].(used := wbufs[b].used + data)], disk, k, o)
  {
    var used := wbufs[b].used;
    if k == Key(i, pages[i].version, wbufs[b].offset + |used|) && o == data {
      assert (used + data)[|used|..|used| + |data|] == data;
    } else if k.page < |pages| && InBuf(pages[k.page], wbufs, k.offset, o) && pages[k.page].wbuf == Some(b) {
      var at := k.offset - wbufs[b].offset;
      assert (used + data)[at..at + |o|] == used[at..at + |o|];
    }
  }

  lemma Pigeons(inflight: map<nat, WriteIo>, n: nat, b: nat)
    requires b < n && forall o :: o in inflight ==> inflight[o].wbuf < n && inflight[o].wbuf != b
    requires Injective(inflight)
    ensures |inflight| < n
  {
    var used := set o | o in inflight.Keys :: inflight[o].wbuf;
    ImageSize(inflight, inflight.Keys);
    assert |inflight| == |inflight.Keys|;
    SmallSet(used + {b}, n);
  }

  lemma {:induction false} ImageSize(inflight: map<nat, WriteIo>, d: set<nat>)
    requires d <= inflight.Keys
    requires Injective(inflight)
    ensures |set o | o in d :: inflight[o].wbuf| == |d|
    decreases d
  {
    if d != {} {
      var x :| x in d;
      ImageSize(inflight, d - {x});
      var rest := set o | o in d - {x} :: inflight[o].wbuf;
      assert inflight[x].wbuf !in rest;
      assert (set o | o in d :: inflight[o].wbuf) == rest + {inflight[x].wbuf};
    }
  }

  /** A buffer that has not been submitted yet always finds an IO object. */
  lemma IoAvailable(pages: seq<Page>, wbufs: seq<Wbuf>, stack: seq<nat>, inflight: map<nat, WriteIo>, b: nat)
    requires IosOk(pages, wbufs, stack, inflight) && b < |wbufs| && !wbufs[b].full
    ensures stack != []
  {
    hide Holds;
    assert forall o :: o in inflight ==> IoOk(pages, wbufs, inflight[o]);
    Pigeons(inflight, |wbufs|, b);
  }

  lemma InFlightAdd(inflight: map<nat, WriteIo>, o: nat, io: WriteIo, c: nat)
    requires o !in inflight
    ensures InFlight(inflight[o := io], c) <==> InFlight(inflight, c) || c == io.wbuf
  {
    var inflight' := inflight[o := io];
    assert inflight'[o].wbuf == io.wbuf;
    if InFlight(inflight, c) {
      var q :| q in inflight && inflight[q].wbuf == c;
      assert q in inflight' && inflight'[q].wbuf == c;
    }
  }

  lemma SubmitBufs(pages: seq<Page>, wbufs: seq<Wbuf>, inflight: map<nat, WriteIo>, inflight': map<nat, WriteIo>,
      i: nat, b: nat, o: nat)
    requires IoBufsOk(pages, wbufs, inflight) && Holds(pages, i, b) && b < |wbufs| && !wbufs[b].full && o !in inflight
    requires inflight' == inflight[o := WriteIo(i, b, false)]
    ensures IoBufsOk(pages, wbufs[b := wbufs[b].(full := true)], inflight')
  {
    var wbufs' := wbufs[b := wbufs[b].(full := true)];
    forall c: nat
      ensures InFlight(inflight', c) <==> InFlight(inflight, c) || c == b
    {
      InFlightAdd(inflight, o, WriteIo(i, b, false), c);
    }
    hide Holds, InFlight;
    forall q | q in inflight'
      ensures IoOk(pages, wbufs', inflight'[q])
    {
      assert q != o ==> IoOk(pages, wbufs, inflight[q]);
    }
    assert forall q :: q in inflight ==> IoOk(pages, wbufs, inflight[q]);
  }

  lemma SubmitIos(pages: seq<Page>, wbufs: seq<Wbuf>, stack: seq<nat>, inflight: map<nat, WriteIo>,
      inflight': map<nat, WriteIo>, i: nat, b: nat)
    requires IosOk(pages, wbufs, stack, inflight) && Holds(pages, i, b) && b < |wbufs| && !wbufs[b].full && stack != []
    requires inflight' == inflight[stack[0] := WriteIo(i, b, false)]
    ensures IosOk(pages, wbufs[b := wbufs[b].(full := true)], stack[1..], inflight')
  {
    hide IoBufsOk, Holds;
    var o := stack[0];
    SubmitBufs(pages, wbufs, inflight, inflight', i, b, o);
    assert stack == [o] + stack[1..];
    assert inflight'.Keys == inflight.Keys + {o};
  }

  lemma SubmitRest(z: Sizes, clock: nat, pages: seq<Page>, wbufs: seq<Wbuf>, wstack: seq<nat>,
      inflight: map<nat, WriteIo>, disk: seq<Bytes>, objects: map<Key, Bytes>, o: nat, i: nat, b: nat)
    requires b < |wbufs| && o !in inflight
    requires BufsOk(z, pages, wbufs, wstack) && DiskOk(z, pages, wbufs, disk, inflight)
    requires ObjectsOk(clock, pages, wbufs, disk, objects)
    ensures BufsOk(z, pages, wbufs[b := wbufs[b].(full := true)], wstack)
    ensures DiskOk(z, pages, wbufs[b := wbufs[b].(full := true)], disk, inflight[o := WriteIo(i, b, false)])
    ensures ObjectsOk(clock, pages, wbufs[b := wbufs[b].(full := true)], disk, objects)
  {
    hide Holds;
    var wbufs' := wbufs[b := wbufs[b].(full := true)];
    forall q | q in inflight && inflight[q].done
      ensures Flushed(z, pages, wbufs', disk, inflight[q])
    {
      assert Flushed(z, pages, wbufs, disk, inflight[q]);
    }
    forall k | k in objects
      ensures ObjectOk(clock, pages, wbufs', disk, k, objects[k])
    {
      assert ObjectOk(clock, pages, wbufs, disk, k, objects[k]);
    }
  }

  function Patch(d: Bytes, at: nat, w: Bytes): (r: Bytes)
    requires at + |w| <= |d|
    ensures |r| == |d| && r[at..at + |w|] == w
    ensures forall n, m :: 0 <= n <= m <= at ==> r[n..m] == d[n..m]
  {
    d[..at] + w + d[at + |w|..]
  }

  lemma PatchIs(d: Bytes, at: nat, w: Bytes)
    requires at + |w| <= |d|
    ensures var r := Patch(d, at, w); |r| == |d| && r[at..at + |w|] == w && forall n, m :: 0 <= n <= m <= at ==>
              r[n..m] == d[n..m]
  {
  }

  /** Two writes in flight are to different pages. */
  lemma OnePerPage(pages: seq<Page>, wbufs: seq<Wbuf>, inflight: map<nat, WriteIo>, o: nat, q: nat)
    requires IoBufsOk(pages, wbufs, inflight) && o in inflight && q in inflight && inflight[o].page == inflight[q].page
    ensures o == q
  {
    assert IoOk(pages, wbufs, inflight[o]) && IoOk(pages, wbufs, inflight[q]);
  }

  lemma WriteDisk(z: Sizes, clock: nat, pages: seq<Page>, wbufs: seq<Wbuf>, iostack: seq<nat>,
      inflight: map<nat, WriteIo>, disk: seq<Bytes>, objects: map<Key, Bytes>, o: nat, d: Bytes)
    requires IosOk(pages, wbufs, iostack, inflight) && DiskOk(z, pages, wbufs, disk, inflight)
    requires ObjectsOk(clock, pages, wbufs, disk, objects)
    requires o in inflight && IoOk(pages, wbufs, inflight[o]) && inflight[o].page < |disk|
    requires |wbufs[inflight[o].wbuf].used| <= z.wbuf
    requires pages[inflight[o].page].written + z.wbuf <= |disk[inflight[o].page]|
    requires d == Patch(disk[inflight[o].page], pages[inflight[o].page].written, Padded(z, wbufs[inflight[o].wbuf]))
    ensures IosOk(pages, wbufs, iostack, inflight[o := inflight[o].(done := true)])
    ensures DiskOk(z, pages, wbufs, disk[inflight[o].page := d], inflight[o := inflight[o].(done := true)])
    ensures ObjectsOk(clock, pages, wbufs, disk[inflight[o].page := d], objects)
  {
    hide IoBufsOk, IoStackOk, Patch, Padded;
    WriteIos(pages, wbufs, iostack, inflight, o);
    var i := inflight[o].page;
    var disk', inflight' := disk[i := d], inflight[o := inflight[o].(done := true)];
    PatchIs(disk[i], pages[i].written, Padded(z, wbufs[inflight[o].wbuf]));
    forall q | q in inflight' && inflight'[q].done
      ensures Flushed(z, pages, wbufs, disk', inflight'[q])
    {
      if q != o {
        assert Flushed(z, pages, wbufs, disk, inflight[q]);
        if inflight[q].page == i {
          OnePerPage(pages, wbufs, inflight, o, q);
        }
      }
    }
    forall k | k in objects
      ensures ObjectOk(clock, pages, wbufs, disk', k, objects[k])
    {
      assert ObjectOk(clock, pages, wbufs, disk, k, objects[k]);
    }
  }

  lemma WriteIos(pages: seq<Page>, wbufs: seq<Wbuf>, iostack: seq<nat>, inflight: map<nat, WriteIo>, o: nat)
    requires IosOk(pages, wbufs, iostack, inflight) && o in inflight
    ensures IosOk(pages, wbufs, iostack, inflight[o := inflight[o].(done := true)])
  {
    hide IoStackOk, IoBufsOk;
    var inflight' := inflight[o := inflight[o].(done := true)];
    assert inflight'.Keys == inflight.Keys;
    WriteIoBufs(pages, wbufs, inflight, inflight', o);
  }

  lemma WriteIoBufs(pages: seq<Page>, wbufs: seq<Wbuf>, inflight: map<nat, WriteIo>, inflight': map<nat, WriteIo>,
      o: nat)
    requires IoBufsOk(pages, wbufs, inflight) && o in inflight && inflight' == inflight[o := inflight[o].(done := true)]
    ensures IoBufsOk(pages, wbufs, inflight')
  {
    hide Holds;
    assert forall q :: q in inflight' <==> q in inflight;
    forall q | q in inflight'
      ensures inflight'[q].wbuf == inflight[q].wbuf && IoOk(pages, wbufs, inflight'[q])
    {
      assert IoOk(pages, wbufs, inflight[q]);
    }
    forall c: nat | InFlight(inflight, c)
      ensures InFlight(inflight', c)
    {
      var q :| q in inflight && inflight[q].wbuf == c;
      assert q in inflight' && inflight'[q].wbuf == c;
    }
    hide InFlight, IoOk;
  }

  lemma FlushBufs(z: Sizes, pages: seq<Page>, wbufs: seq<Wbuf>, stack: seq<nat>, i: nat, b: nat, p: Page)
    requires BufsOk(z, pages, wbufs, stack) && Holds(pages, i, b) && p.wbuf.None?
    ensures BufsOk(z, pages[i := p], wbufs, [b] + stack)
  {
    var pages', stack' := pages[i := p], [b] + stack;
    assert b !in stack;
    assert forall x :: x in stack' <==> x == b || x in stack;
    forall j: nat, c: nat
      ensures Holds(pages', j, c) <==> j != i && Holds(pages, j, c)
    {
    }
    assert forall j: nat, c: nat :: Holds(pages', j, c) ==> pages'[j].written == pages[j].written && c != b;
    assert forall c: nat :: Holds(pages, i, c) ==> c == b;
    hide Holds;
    forall c | 0 <= c < |wbufs| && c !in stack'
      ensures exists j :: Holds(pages', j, c)
    {
      var j :| Holds(pages, j, c);
      assert Holds(pages', j, c);
    }
  }

  lemma FlushIos(pages: seq<Page>, wbufs: seq<Wbuf>, stack: seq<nat>, inflight: map<nat, WriteIo>,
      inflight': map<nat, WriteIo>, o: nat, p: Page)
    requires IosOk(pages, wbufs, stack, inflight) && o in inflight && IoOk(pages, wbufs, inflight[o]) && p.wbuf.None?
    requires inflight' == inflight - {o} && forall j: nat :: Holds(pages, j, inflight[o].wbuf) ==> j == inflight[o].page
    ensures IosOk(pages[inflight[o].page := p], wbufs, [o] + stack, inflight')
  {
    FlushIoBufs(pages, wbufs, inflight, inflight', o, p);
    hide IoBufsOk, Holds, IoOk;
    assert inflight'.Keys == inflight.Keys - {o};
    assert o !in stack;
  }

  lemma FlushIoBufs(pages: seq<Page>, wbufs: seq<Wbuf>, inflight: map<nat, WriteIo>, inflight': map<nat, WriteIo>,
      o: nat, p: Page)
    requires IoBufsOk(pages, wbufs, inflight) && o in inflight && IoOk(pages, wbufs, inflight[o]) && p.wbuf.None?
    requires inflight' == inflight - {o} && forall j: nat :: Holds(pages, j, inflight[o].wbuf) ==> j == inflight[o].page
    ensures IoBufsOk(pages[inflight[o].page := p], wbufs, inflight')
  {
    var i, b := inflight[o].page, inflight[o].wbuf;
    var pages' := pages[i := p];
    forall j: nat, c: nat
      ensures Holds(pages', j, c) <==> j != i && Holds(pages, j, c)
    {
    }
    assert forall c: nat :: Holds(pages, i, c) ==> c == b;
    hide Holds;
    forall q | q in inflight'
      ensures IoOk(pages', wbufs, inflight'[q])
    {
      assert IoOk(pages, wbufs, inflight[q]);
      assert inflight[q].wbuf != b;
    }
    forall j: nat, c: nat | Holds(pages', j, c) && c < |wbufs| && wbufs[c].full
      ensures InFlight(inflight', c)
    {
      assert InFlight(inflight, c);
      var q :| q in inflight && inflight[q].wbuf == c;
      assert IoOk(pages, wbufs, inflight[q]);
      assert q in inflight' && inflight'[q].wbuf == c;
    }
  }

  lemma FlushDisk(z: Sizes, pages: seq<Page>, wbufs: seq<Wbuf>, disk: seq<Bytes>, inflight: map<nat, WriteIo>,
      inflight': map<nat, WriteIo>, o: nat, p: Page)
    requires IoBufsOk(pages, wbufs, inflight) && DiskOk(z, pages, wbufs, disk, inflight) && o in inflight
    requires inflight' == inflight - {o} && inflight[o].page < |pages|
    ensures DiskOk(z, pages[inflight[o].page := p], wbufs, disk, inflight')
  {
    hide IoBufsOk;
    forall q | q in inflight' && inflight'[q].done
      ensures Flushed(z, pages[inflight[o].page := p], wbufs, disk, inflight'[q])
    {
      assert Flushed(z, pages, wbufs, disk, inflight[q]);
      if inflight[q].page == inflight[o].page {
        OnePerPage(pages, wbufs, inflight, o, q);
      }
    }
  }

  lemma SliceOfSlice(d: Bytes, a: nat, n: nat, at: nat, len: nat)
    requires a + n <= |d| && at + len <= n
    ensures d[a..a + n][at..at + len] == d[a + at..a + at + len]
  {
    var l, r := d[a..a + n][at..at + len], d[a + at..a + at + len];
    assert |l| == |r| && forall x :: 0 <= x < len ==> l[x] == d[a + at + x] == r[x];
  }

  /** Flushing moves the objects of the buffer to the file, where they read the same. */
  lemma FlushObject(z: Sizes, clock: nat, pages: seq<Page>, wbufs: seq<Wbuf>, disk: seq<Bytes>, io: WriteIo,
      p: Page, k: Key, o: Bytes)
    requires ObjectOk(clock, pages, wbufs, disk, k, o) && Flushed(z, pages, wbufs, disk, io)
    requires pages[io.page].wbuf == Some(io.wbuf)
    requires p.version == pages[io.page].version && p.written == pages[io.page].written + z.wbuf
    ensures ObjectOk(clock, pages[io.page := p], wbufs, disk, k, o)
  {
    if k.page == io.page && InBuf(pages[k.page], wbufs, k.offset, o) {
      var w, d := wbufs[io.wbuf], disk[io.page];
      var at := k.offset - w.offset;
      assert d[w.offset..w.offset + z.wbuf] == Padded(z, w);
      assert Padded(z, w)[at..at + |o|] == w.used[at..at + |o|];
      SliceOfSlice(d, w.offset, z.wbuf, at, |o|);
    }
  }

  lemma FlushObjects(z: Sizes, clock: nat, pages: seq<Page>, wbufs: seq<Wbuf>, disk: seq<Bytes>,
      objects: map<Key, Bytes>, io: WriteIo, p: Page)
    requires ObjectsOk(clock, pages, wbufs, disk, objects) && Flushed(z, pages, wbufs, disk, io)
    requires pages[io.page].wbuf == Some(io.wbuf)
    requires p.version == pages[io.page].version && p.written == pages[io.page].written + z.wbuf
    ensures ObjectsOk(clock, pages[io.page := p], wbufs, disk, objects)
  {
    forall k | k in objects
      ensures ObjectOk(clock, pages[io.page := p], wbufs, disk, k, objects[k])
    {
      FlushObject(z, clock, pages, wbufs, disk, io, p, k, objects[k]);
    }
  }

  // ---- Pinning a page for a read ----

  lemma PinKeeps(pages: seq<Page>, objects: map<Key, Bytes>, pins: map<nat, Pin>, pins': map<nat, Pin>, h: nat,
      pin: Pin)
    requires PinsOk(pages, objects, pins) && PinOk(pages, objects, pin) && h !in pins && pins' == pins[h := pin]
    ensures PinsOk(pages[pin.key.page := pages[pin.key.page].(refcount := pages[pin.key.page].refcount + 1)],
              objects, pins')
  {
    var i := pin.key.page;
    var pages' := pages[i := pages[i].(refcount := pages[i].refcount + 1)];
    forall g | g in pins'
      ensures PinOk(pages', objects, pins'[g])
    {
      assert g != h ==> PinOk(pages, objects, pins[g]);
    }
    hide PinOk;
    forall j | 0 <= j < |pages|
      ensures pages'[j].refcount == |PinsOn(pins', j)|
    {
      PinsOnAdd(pins, pins', h, pin, j);
      hide PinsOn;
    }
  }

  lemma PinsOnAdd(pins: map<nat, Pin>, pins': map<nat, Pin>, h: nat, pin: Pin, j: nat)
    requires h !in pins && pins' == pins[h := pin]
    ensures h !in PinsOn(pins, j) && PinsOn(pins', j) == if j == pin.key.page then PinsOn(pins, j) + {h}
              else PinsOn(pins, j)
  {
  }

  lemma UnpinKeeps(pages: seq<Page>, objects: map<Key, Bytes>, pins: map<nat, Pin>, pins': map<nat, Pin>, h: nat)
    requires PinsOk(pages, objects, pins) && h in pins && pins' == pins - {h}
    ensures pins[h].key.page < |pages| && 0 < pages[pins[h].key.page].refcount
    ensures var i := pins[h].key.page; PinsOk(pages[i := pages[i].(refcount := pages[i].refcount - 1)], objects, pins')
  {
    var i := pins[h].key.page;
    assert PinOk(pages, objects, pins[h]);
    assert h in PinsOn(pins, i);
    var pages' := pages[i := pages[i].(refcount := pages[i].refcount - 1)];
    forall g | g in pins'
      ensures PinOk(pages', objects, pins'[g])
    {
      assert PinOk(pages, objects, pins[g]);
    }
    forall j | 0 <= j < |pages|
      ensures pages'[j].refcount == |PinsOn(pins', j)|
    {
      assert PinsOn(pins', j) == if j == i then PinsOn(pins, j) - {h} else PinsOn(pins, j);
    }
  }

  lemma PinsMoreObjects(pages: seq<Page>, objects: map<Key, Bytes>, objects': map<Key, Bytes>,
      pins: map<nat, Pin>, k: Key, o: Bytes)
    requires PinsOk(pages, objects, pins) && k !in objects && objects' == objects[k := o]
    ensures PinsOk(pages, objects', pins)
  {
    forall h | h in pins
      ensures PinOk(pages, objects', pins[h])
    {
      assert PinOk(pages, objects, pins[h]);
    }
  }

  /** A pinned object is in the file. */
  lemma PinnedOnDisk(z: Sizes, clock: nat, pages: seq<Page>, wbufs: seq<Wbuf>, disk: seq<Bytes>,
      objects: map<Key, Bytes>, pins: map<nat, Pin>, h: nat)
    requires ObjectsOk(clock, pages, wbufs, disk, objects) && PinsOk(pages, objects, pins) && h in pins
    ensures PinOk(pages, objects, pins[h])
    ensures pins[h].key.page < |disk|
    ensures OnDisk(pages[pins[h].key.page], disk[pins[h].key.page], pins[h].key.offset, objects[pins[h].key])
  {
    assert PinOk(pages, objects, pins[h]);
    assert ObjectOk(clock, pages, wbufs, disk, pins[h].key, objects[pins[h].key]);
  }

  // ---- The whole state ----

  /** The engine at one moment, with every object ever stored. */
  datatype State = State(
    z: Sizes, pages: seq<Page>, wbufs: seq<Wbuf>, wbufStack: seq<nat>, ioStack: seq<nat>, inflight: map<nat, WriteIo>,
    freelist: seq<nat>, buckets: seq<seq<nat>>, version: nat, disk: seq<Bytes>, pins: map<nat, Pin>,
    writers: seq<Writer>,
    objects: map<Key, Bytes>)

  ghost predicate Inv(s: State) {
    && PagesOk(s.z, s.version, s.pages) && 0 < s.version
    && BufsOk(s.z, s.pages, s.wbufs, s.wbufStack)
    && IosOk(s.pages, s.wbufs, s.ioStack, s.inflight)
    && DiskOk(s.z, s.pages, s.wbufs, s.disk, s.inflight)
    && ObjectsOk(s.version, s.pages, s.wbufs, s.disk, s.objects)
    && PinsOk(s.pages, s.objects, s.pins)
    && ListsOk(s.z, s.pages, s.freelist, s.buckets)
    && WritersOk(s.z, s.pages, s.buckets, s.writers)
  }

  lemma FreeListed(s: State)
    requires Inv(s) && s.freelist != []
    ensures 0 < s.freelist[0] < |s.pages| && s.pages[s.freelist[0]].free
    ensures PageOk(s.z, s.version, s.pages[s.freelist[0]])
    ensures |s.writers| == |s.buckets|
  {
    assert s.freelist[0] in s.freelist;
    hide BufsOk, IosOk, DiskOk, ObjectsOk, PinsOk, StackOk, PageOk, WriterOk;
  }

  lemma TakeKeeps(s: State, s': State, b: nat, w: Writer)
    requires Inv(s) && s.freelist != [] && b < |s.buckets| && HeadFull(s.z, s.pages, s.buckets[b])
    requires w == Idle || w == Picked(s.freelist[0])
    requires s.freelist[0] < |s.pages| && |s.writers| == |s.buckets|
    requires var i := s.freelist[0];
             var p := s.pages[i].(active := true, free := false, closed := false, version := s.version, bucket := b);
             s' == s.(pages := s.pages[i := p], freelist := s.freelist[1..],
               buckets := s.buckets[b := [i] + s.buckets[b]],
                      writers := s.writers[b := w], version := s.version + 1)
    ensures Inv(s')
  {
    FreeListed(s);
    hide PagesOk, BufsOk, IosOk, DiskOk, ObjectsOk, PinsOk, ListsOk, WritersOk;
    var i := s.freelist[0];
    var p := s.pages[i].(active := true, free := false, closed := false, version := s.version, bucket := b);
    TakePages(s.z, s.version, s.pages, i, b);
    GiveContent(s.z, s.version, s.version + 1, s.pages, s.wbufs, s.wbufStack, s.ioStack, s.inflight, s.disk,
      s.objects, i, p);
    GivePins(s.pages, s.objects, s.pins, i, p);
    TakeLists(s.z, s.pages, s.freelist, s.buckets, s.writers, b, p, w);
  }

  /** Why a bucket has one writer: after a page has been taken, a second writer that had also found the bucket full
      would fail the assertion of _allocate_page. */
  lemma SecondWriterFails(s: State, s': State, b: nat, w: Writer)
    requires Inv(s) && s.freelist != [] && b < |s.buckets| && s.freelist[0] < |s.pages|
    requires var i := s.freelist[0];
             var p := s.pages[i].(active := true, free := false, closed := false, version := s.version, bucket := b);
             s'.pages == s.pages[i := p] && |s'.buckets| == |s.buckets| && s'.buckets[b] == [i] + s.buckets[b]
    ensures !HeadFull(s.z, s'.pages, s'.buckets[b])
  {
    FreeListed(s);
    assert SizesOk(s.z);
    hide Inv;
  }

  lemma AttachLists(z: Sizes, pages: seq<Page>, freelist: seq<nat>, buckets: seq<seq<nat>>, writers: seq<Writer>,
      i: nat, p: Page)
    requires i < |pages| && p.free == pages[i].free && p.bucket == pages[i].bucket && pages[i].reserved < z.page
    requires ListsOk(z, pages, freelist, buckets) && WritersOk(z, pages, buckets, writers)
    ensures ListsOk(z, pages[i := p], freelist, buckets) && WritersOk(z, pages[i := p], buckets, writers)
  {
    forall b | 0 <= b < |buckets|
      ensures StackOk(z, pages[i := p], buckets[b], b) && WriterOk(z, pages[i := p], buckets[b], writers[b])
    {
      assert StackOk(z, pages, buckets[b], b) && WriterOk(z, pages, buckets[b], writers[b]);
    }
  }

  lemma PageAt(s: State, i: nat)
    requires Inv(s) && i < |s.pages|
    ensures SizesOk(s.z) && PageOk(s.z, s.version, s.pages[i])
    ensures s.pages[i].wbuf.Some? ==>
              && Holds(s.pages, i, s.pages[i].wbuf.value)
              && s.pages[i].wbuf.value < |s.wbufs|
              && s.wbufs[s.pages[i].wbuf.value].offset == s.pages[i].written
    ensures |s.disk| == |s.pages| && |s.disk[i]| == s.z.page
    ensures s.pages[i].wbuf.Some? ==> |s.wbufs[s.pages[i].wbuf.value].used| <= s.z.wbuf
    ensures s.pages[i].refcount == |PinsOn(s.pins, i)|
  {
    hide IosOk, ObjectsOk, ListsOk, WritersOk, Divides, PageOk, Flushed, PinOk;
    assert s.pages[i].wbuf.Some? ==> Holds(s.pages, i, s.pages[i].wbuf.value);
  }

  lemma AttachedOk(z: Sizes, clock: nat, p: Page, b: nat)
    requires SizesOk(z) && PageOk(z, clock, p) && p.active && p.wbuf.None?
    ensures PageOk(z, clock, p.(wbuf := Some(b), reserved := p.reserved + z.wbuf))
    ensures p.reserved == p.written < z.page && !p.free
  {
    NextMultiple(z.wbuf, p.written, z.page);
  }

  lemma FlushedOk(z: Sizes, clock: nat, p: Page)
    requires SizesOk(z) && PageOk(z, clock, p) && p.active && p.wbuf.Some?
    ensures PageOk(z, clock, p.(written := p.written + z.wbuf, wbuf := None, active := p.active &&
              p.written + z.wbuf != z.page))
  {
    NextMultiple(z.wbuf, p.written, z.page);
  }

  lemma AttachKeeps(s: State, s': State, i: nat)
    requires Inv(s) && i < |s.pages| && s.pages[i].active && s.pages[i].wbuf.None? && s.wbufStack != []
    requires s.wbufStack[0] < |s.wbufs|
    requires var b := s.wbufStack[0];
             var p := s.pages[i].(wbuf := Some(b), reserved := s.pages[i].reserved + s.z.wbuf);
             s' == s.(pages := s.pages[i := p], wbufs := s.wbufs[b := Wbuf(s.pages[i].reserved, [], false)],
               wbufStack := s.wbufStack[1..])
    ensures Inv(s')
  {
    hide PagesOk, BufsOk, IosOk, DiskOk, ObjectsOk, PinsOk, ListsOk, WritersOk, PageOk, Holds;
    PageAt(s, i);
    var b := s.wbufStack[0];
    var p := s.pages[i].(wbuf := Some(b), reserved := s.pages[i].reserved + s.z.wbuf);
    AttachedOk(s.z, s.version, s.pages[i], b);
    var w := Wbuf(p.written, [], false);
    PagesSame(s.z, s.version, s.pages, i, p);
    AttachBufs(s.z, s.pages, s.wbufs, s.wbufStack, i, p);
    AttachIos(s.pages, s.wbufs, s.ioStack, s.inflight, i, p, b, w);
    AttachDisk(s.z, s.pages, s.wbufs, s.ioStack, s.inflight, s.disk, i, p, b, w);
    AttachObjects(s.version, s.pages, s.wbufs, s.disk, s.objects, i, p, b, w);
    PinsSame(s.pages, s.objects, s.pins, i, p);
    AttachLists(s.z, s.pages, s.freelist, s.buckets, s.writers, i, p);
  }

  lemma SubmitKeeps(s: State, s': State, i: nat, b: nat)
    requires Inv(s) && Holds(s.pages, i, b) && b < |s.wbufs| && !s.wbufs[b].full && s.ioStack != []
    requires s' == s.(wbufs := s.wbufs[b := s.wbufs[b].(full := true)], ioStack := s.ioStack[1..],
               inflight := s.inflight[s.ioStack[0] := WriteIo(i, b, false)])
    ensures Inv(s')
  {
    assert s.ioStack[0] !in s.inflight;
    hide PagesOk, BufsOk, IosOk, DiskOk, ObjectsOk, PinsOk, ListsOk, WritersOk, Holds;
    SubmitIos(s.pages, s.wbufs, s.ioStack, s.inflight, s'.inflight, i, b);
    SubmitRest(s.z, s.version, s.pages, s.wbufs, s.wbufStack, s.inflight, s.disk, s.objects, s.ioStack[0], i, b);
  }

  lemma InUse(z: Sizes, clock: nat, p: Page)
    requires SizesOk(z) && PageOk(z, clock, p) && p.wbuf.Some?
    ensures 0 < p.version < clock && !p.free
  {
  }

  lemma AppendKeeps(s: State, s': State, i: nat, b: nat, data: Bytes, key: Key)
    requires Inv(s) && Holds(s.pages, i, b) && b < |s.wbufs| && !s.wbufs[b].full
    requires |s.wbufs[b].used| + |data| <= s.z.wbuf && 0 < |data|
    requires key == Key(i, s.pages[i].version, s.wbufs[b].offset + |s.wbufs[b].used|)
    requires s' == s.(wbufs := s.wbufs[b := s.wbufs[b].(used := s.wbufs[b].used + data)],
               objects := s.objects[key := data])
    ensures Inv(s') && key !in s.objects
  {
    hide PagesOk, BufsOk, IosOk, DiskOk, ObjectsOk, PinsOk, ListsOk, WritersOk, PageOk, Divides;
    PageAt(s, i);
    InUse(s.z, s.version, s.pages[i]);
    var w := s.wbufs[b].(used := s.wbufs[b].used + data);
    AppendFresh(s.version, s.pages, s.wbufs, s.disk, s.objects, i, b);
    AppendBufs(s.z, s.pages, s.wbufs, s.wbufStack, s.ioStack, s.inflight, b, w);
    AppendDisk(s.z, s.pages, s.wbufs, s.ioStack, s.inflight, s.disk, b, w);
    AppendObjects(s.version, s.pages, s.wbufs, s.disk, s.objects, s'.objects, i, b, data);
    PinsMoreObjects(s.pages, s.objects, s'.objects, s.pins, key, data);
  }

  lemma StoreKeeps(s: State, s': State, i: nat, b: nat, data: Bytes, key: Key, p: Page)
    requires Inv(s) && Holds(s.pages, i, b) && b < |s.wbufs| && !s.wbufs[b].full
    requires |s.wbufs[b].used| + |data| <= s.z.wbuf && 0 < |data|
    requires key == Key(i, s.pages[i].version, s.wbufs[b].offset + |s.wbufs[b].used|)
    requires p == s.pages[i].(objCount := p.objCount, bytesUsed := p.bytesUsed)
    requires s' == s.(pages := s.pages[i := p], wbufs := s.wbufs[b := s.wbufs[b].(used := s.wbufs[b].used + data)],
               objects := s.objects[key := data])
    ensures Inv(s') && key !in s.objects
  {
    hide Inv;
    var t := s.(wbufs := s'.wbufs, objects := s'.objects);
    AppendKeeps(s, t, i, b, data, key);
    CountersKeep(t, s', i, p);
  }

  /** Flags and counters that decide nothing about where the bytes are. */
  lemma CountersKeep(s: State, s': State, i: nat, p: Page)
    requires Inv(s) && i < |s.pages|
    requires p == s.pages[i].(objCount := p.objCount, bytesUsed := p.bytesUsed, closed := p.closed)
    requires s.pages[i].free ==> p.closed == s.pages[i].closed
    requires s' == s.(pages := s.pages[i := p])
    ensures Inv(s')
  {
    PageAt(s, i);
    hide PagesOk, BufsOk, IosOk, DiskOk, ObjectsOk, PinsOk, ListsOk, WritersOk, Divides;
    PagesSame(s.z, s.version, s.pages, i, p);
    SameContent(s.z, s.version, s.pages, s.wbufs, s.wbufStack, s.ioStack, s.inflight, s.disk, s.objects, i, p);
    PinsSame(s.pages, s.objects, s.pins, i, p);
    SamePlace(s.z, s.pages, s.freelist, s.buckets, s.writers, i, p);
  }

  lemma WriterKeeps(s: State, s': State, b: nat, w: Writer)
    requires Inv(s) && b < |s.buckets| && |s.writers| == |s.buckets| && WriterOk(s.z, s.pages, s.buckets[b], w)
    requires s' == s.(writers := s.writers[b := w])
    ensures Inv(s')
  {
    hide PagesOk, BufsOk, IosOk, DiskOk, ObjectsOk, PinsOk, ListsOk;
  }

  /** A writer that finds its page full leaves a bucket whose head is full. */
  lemma FoundFull(s: State, b: nat)
    requires Inv(s) && b < |s.buckets| && |s.writers| == |s.buckets| && s.writers[b].Picked?
    requires s.writers[b].page < |s.pages|
    requires !s.pages[s.writers[b].page].active || s.pages[s.writers[b].page].reserved >= s.z.page
    ensures WriterOk(s.z, s.pages, s.buckets[b], Full)
  {
    var i := s.writers[b].page;
    PageAt(s, i);
    assert WriterOk(s.z, s.pages, s.buckets[b], s.writers[b]) && StackOk(s.z, s.pages, s.buckets[b], b);
    hide Inv;
    assert s.buckets[b] != [] ==> s.buckets[b][0] in s.buckets[b];
  }

  lemma DiskWriteKeeps(s: State, s': State, o: nat)
    requires Inv(s) && o in s.inflight && IoOk(s.pages, s.wbufs, s.inflight[o])
    requires s.inflight[o].page < |s.disk| && |s.wbufs[s.inflight[o].wbuf].used| <= s.z.wbuf
    requires s.pages[s.inflight[o].page].written + s.z.wbuf <= |s.disk[s.inflight[o].page]|
    requires var i := s.inflight[o].page;
             s' == s.(disk := s.disk[i := Patch(s.disk[i], s.pages[i].written,
               Padded(s.z, s.wbufs[s.inflight[o].wbuf]))],
                      inflight := s.inflight[o := s.inflight[o].(done := true)])
    ensures Inv(s')
  {
    hide PagesOk, BufsOk, IosOk, DiskOk, ObjectsOk, PinsOk, ListsOk, WritersOk, IoOk, Patch, Padded;
    WriteDisk(s.z, s.version, s.pages, s.wbufs, s.ioStack, s.inflight, s.disk, s.objects, o,
      s'.disk[s.inflight[o].page]);
  }

  /** What is known of a write in flight: its page is being written to and stays so. */
  lemma IoAt(s: State, o: nat)
    requires Inv(s) && o in s.inflight
    ensures IoOk(s.pages, s.wbufs, s.inflight[o]) && s.inflight[o].page < |s.disk|
    ensures var p := s.pages[s.inflight[o].page];
            && p.wbuf == Some(s.inflight[o].wbuf) && p.active && !p.free &&
                 p.written == s.wbufs[s.inflight[o].wbuf].offset
            && p.written + s.z.wbuf <= s.z.page && |s.disk[s.inflight[o].page]| == s.z.page &&
                 |s.wbufs[s.inflight[o].wbuf].used| <= s.z.wbuf
    ensures forall j: nat :: Holds(s.pages, j, s.inflight[o].wbuf) ==> j == s.inflight[o].page
    ensures s.inflight[o].done ==> Flushed(s.z, s.pages, s.wbufs, s.disk, s.inflight[o])
  {
    assert IoOk(s.pages, s.wbufs, s.inflight[o]);
    assert forall j: nat :: Holds(s.pages, j, s.inflight[o].wbuf) ==> j == s.inflight[o].page;
    assert s.inflight[o].done ==> Flushed(s.z, s.pages, s.wbufs, s.disk, s.inflight[o]);
    PageAt(s, s.inflight[o].page);
    hide Inv, Flushed, Divides;
  }

  lemma FlushKeeps(s: State, s': State, o: nat, p: Page)
    requires Inv(s) && o in s.inflight && s.inflight[o].done && s.inflight[o].page < |s.pages|
    requires var q := s.pages[s.inflight[o].page]; p == q.(written := q.written + s.z.wbuf, wbuf := None,
               active := q.active && q.written + s.z.wbuf != s.z.page)
    requires s' == s.(pages := s.pages[s.inflight[o].page := p], wbufStack := [s.inflight[o].wbuf] + s.wbufStack,
               ioStack := [o] + s.ioStack, inflight := s.inflight - {o})
    ensures Inv(s')
  {
    hide PagesOk, BufsOk, IosOk, DiskOk, ObjectsOk, PinsOk, ListsOk, WritersOk, PageOk, Divides, Flushed;
    var i, b := s.inflight[o].page, s.inflight[o].wbuf;
    IoAt(s, o);
    PageAt(s, i);
    FlushedOk(s.z, s.version, s.pages[i]);
    PagesSame(s.z, s.version, s.pages, i, p);
    FlushBufs(s.z, s.pages, s.wbufs, s.wbufStack, i, b, p);
    IosParts(s);
    FlushIos(s.pages, s.wbufs, s.ioStack, s.inflight, s'.inflight, o, p);
    FlushDisk(s.z, s.pages, s.wbufs, s.disk, s.inflight, s'.inflight, o, p);
    FlushObjects(s.z, s.version, s.pages, s.wbufs, s.disk, s.objects, s.inflight[o], p);
    PinsSame(s.pages, s.objects, s.pins, i, p);
    SamePlace(s.z, s.pages, s.freelist, s.buckets, s.writers, i, p);
  }

  lemma IosParts(s: State)
    requires Inv(s)
    ensures IoBufsOk(s.pages, s.wbufs, s.inflight)
  {
  }

  lemma GiveKeeps(s: State, s': State, i: nat, k: nat)
    requires Inv(s) && i < |s.pages| && !s.pages[i].active && !s.pages[i].free && s.pages[i].refcount == 0
    requires s.pages[i].bucket < |s.buckets| && k < |s.buckets[s.pages[i].bucket]|
    requires s.buckets[s.pages[i].bucket][k] == i
    requires var p := s.pages[i].(version := 0, objCount := 0, bytesUsed := 0, reserved := 0, written := 0,
               bucket := 0, active := false, closed := false, free := true);
             s' == s.(pages := s.pages[i := p], freelist := [i] + s.freelist,
               buckets := s.buckets[s.pages[i].bucket := Without(s.buckets[s.pages[i].bucket], k)])
    ensures Inv(s')
  {
    var p := s.pages[i].(version := 0, objCount := 0, bytesUsed := 0, reserved := 0, written := 0, bucket := 0,
      active := false, closed := false, free := true);
    PageAt(s, i);
    assert PageOk(s.z, s.version, p) && s.pages[i].reserved == s.z.page && 0 < i;
    GivePages(s.z, s.version, s.pages, i, p);
    hide PagesOk, BufsOk, IosOk, DiskOk, ObjectsOk, PinsOk, ListsOk, WritersOk, PageOk, Without;
    GiveContent(s.z, s.version, s.version, s.pages, s.wbufs, s.wbufStack, s.ioStack, s.inflight, s.disk, s.objects,
      i, p);
    GivePins(s.pages, s.objects, s.pins, i, p);
    GiveLists(s.z, s.pages, s.freelist, s.buckets, s.writers, i, k, p);
  }

  lemma GivePages(z: Sizes, clock: nat, pages: seq<Page>, i: nat, p: Page)
    requires PagesOk(z, clock, pages) && 0 < i < |pages| && p.free && PageOk(z, clock, p)
    ensures PagesOk(z, clock, pages[i := p])
  {
  }

  lemma Recounted(z: Sizes, clock: nat, p: Page, n: nat)
    requires SizesOk(z) && PageOk(z, clock, p) && !p.free
    ensures PageOk(z, clock, p.(refcount := n))
  {
  }

  lemma InvPins(s: State)
    requires Inv(s)
    ensures PinsOk(s.pages, s.objects, s.pins)
  {
    hide PagesOk, BufsOk, IosOk, DiskOk, ObjectsOk, PinsOk, ListsOk, WritersOk;
  }

  lemma RefcountKeeps(s: State, s': State, i: nat, p: Page)
    requires Inv(s) && i < |s.pages| && !s.pages[i].free && p == s.pages[i].(refcount := p.refcount)
    requires s' == s.(pages := s.pages[i := p], pins := s'.pins) && PinsOk(s'.pages, s'.objects, s'.pins)
    ensures Inv(s')
  {
    hide PagesOk, BufsOk, IosOk, DiskOk, ObjectsOk, PinsOk, ListsOk, WritersOk, PageOk, Holds, PinsOn;
    PageAt(s, i);
    Recounted(s.z, s.version, s.pages[i], p.refcount);
    PagesSame(s.z, s.version, s.pages, i, p);
    SameContent(s.z, s.version, s.pages, s.wbufs, s.wbufStack, s.ioStack, s.inflight, s.disk, s.objects, i, p);
    SamePlace(s.z, s.pages, s.freelist, s.buckets, s.writers, i, p);
  }

  lemma PinAll(s: State, s': State, h: nat, pin: Pin, p: Page)
    requires Inv(s) && PinOk(s.pages, s.objects, pin) && h !in s.pins && pin.key.page < |s.pages|
    requires !s.pages[pin.key.page].free
    requires p == s.pages[pin.key.page].(refcount := s.pages[pin.key.page].refcount + 1)
    requires s' == s.(pages := s.pages[pin.key.page := p], pins := s.pins[h := pin])
    ensures Inv(s')
  {
    var i := pin.key.page;
    hide *;
    InvPins(s);
    PinKeeps(s.pages, s.objects, s.pins, s'.pins, h, pin);
    RefcountKeeps(s, s', i, p);
  }

  lemma PinAt(s: State, h: nat)
    requires Inv(s) && h in s.pins
    ensures PinOk(s.pages, s.objects, s.pins[h]) && s.pins[h].key.page < |s.disk|
    ensures 0 < s.pages[s.pins[h].key.page].refcount
    ensures OnDisk(s.pages[s.pins[h].key.page], s.disk[s.pins[h].key.page], s.pins[h].key.offset,
              s.objects[s.pins[h].key])
    ensures !s.pages[s.pins[h].key.page].free
  {
    hide PagesOk, BufsOk, IosOk, DiskOk, ListsOk, WritersOk, PinOk, ObjectsOk, PinsOk;
    PinnedOnDisk(s.z, s.version, s.pages, s.wbufs, s.disk, s.objects, s.pins, h);
    UnpinKeeps(s.pages, s.objects, s.pins, s.pins - {h}, h);
    PinPage(s, h);
  }

  lemma PinPage(s: State, h: nat)
    requires Inv(s) && h in s.pins && PinOk(s.pages, s.objects, s.pins[h])
    ensures !s.pages[s.pins[h].key.page].free
  {
    PageAt(s, s.pins[h].key.page);
    hide Inv;
  }

  lemma UnpinAll(s: State, s': State, h: nat, i: nat, p: Page)
    requires Inv(s) && h in s.pins && i == s.pins[h].key.page && i < |s.pages| && 0 < s.pages[i].refcount
    requires !s.pages[i].free
    requires p == s.pages[i].(refcount := s.pages[i].refcount - 1)
    requires s' == s.(pages := s.pages[i := p], pins := s.pins - {h})
    ensures Inv(s')
  {
    hide *;
    InvPins(s);
    UnpinKeeps(s.pages, s.objects, s.pins, s'.pins, h);
    RefcountKeeps(s, s', i, p);
  }

  /** The bytes behind a handle whose page has not been recycled: in the buffer, past what is written, or in the
      file. */
  lemma ObjectAt(s: State, k: Key)
    requires Inv(s) && k in s.objects
    ensures k.page < |s.pages| && 0 < |s.objects[k]| && 0 < k.version
    ensures s.pages[k.page].version == k.version ==> !s.pages[k.page].free
    ensures s.pages[k.page].version == k.version ==>
              if s.pages[k.page].active &&
                   k.offset >= s.pages[k.page].written then InBuf(s.pages[k.page], s.wbufs, k.offset, s.objects[k])
              else k.offset + |s.objects[k]| <= s.pages[k.page].written
  {
    assert ObjectOk(s.version, s.pages, s.wbufs, s.disk, k, s.objects[k]);
    PageAt(s, k.page);
    hide Inv, Divides;
  }

  // ---- The engine ----

  datatype StoreResult = Stored(key: Key) | Retry | PageFull

  // Subtraction that stops at zero.
  function Less(x: nat, y: nat): nat { if x >= y then x - y else 0 }

  predicate Reclaimable(p: Page) { !p.active && !p.free && (p.objCount == 0 || p.closed) && p.refcount == 0 }

  predicate Evictable(p: Page) { !p.active && !p.free && p.objCount > 0 && !p.closed }

  datatype ReadResult = Miss | Hit(bytes: Bytes) | Pinned(handle: nat)

  datatype Conf = Conf(pageSize: nat, wbufSize: nat, pageCount: nat, bucketCount: nat, wbufCount: nat)

  datatype InitError = BadWbufSize | NeedMoreWbuf | NeedMoreBuckets | Alignment

  const TWO_MEGABYTES: nat := 1024 * 1024 * 2

  /** The checks of extstore_init on its configuration. */
  function ConfError(c: Conf): Option<InitError>
    requires c.wbufSize > 0
  {
    if !Divides(c.wbufSize, c.pageSize) then Some(BadWbufSize)
    else if c.bucketCount > c.wbufCount then Some(NeedMoreWbuf)
    else if c.bucketCount < 1 then Some(NeedMoreBuckets)
    else if !Divides(TWO_MEGABYTES, c.pageSize) || !Divides(TWO_MEGABYTES, c.wbufSize) then Some(Alignment)
    else None
  }

  const EMPTY_PAGE := Page(0, 0, 0, 0, 0, false, false, true, None, 0, 0)

  function Start(c: Conf): State
    requires c.wbufSize > 0
  {
    State(
      Sizes(c.pageSize, c.wbufSize), seq(c.pageCount, _ => EMPTY_PAGE), seq(c.wbufCount, _ => Wbuf(0, [], false)),
      Down(c.wbufCount), Down(c.wbufCount), map[], seq(if c.pageCount == 0 then 0 else c.pageCount - 1, i => i + 1),
      seq(c.bucketCount, _ => []), 1, seq(c.pageCount, _ => Zeros(c.pageSize)), map[], seq(c.bucketCount,
        _ => Idle), map[])
  }

  // The order in which pushing 0, 1, .. leaves a stack.
  function Down(n: nat): (r: seq<nat>)
    ensures |r| == n && forall i :: 0 <= i < n ==> r[i] == n - 1 - i
  {
    seq(n, i requires 0 <= i < n => n - 1 - i)
  }

  lemma StartOk(c: Conf)
    requires c.wbufSize > 0 && c.pageSize > 0 && ConfError(c).None?
    ensures Inv(Start(c))
  {
    var s := Start(c);
    forall b: nat | b < |s.wbufs|
      ensures b in s.wbufStack
    {
      assert s.wbufStack[|s.wbufs| - 1 - b] == b;
    }
    forall i: nat | 0 < i < |s.pages|
      ensures i in s.freelist
    {
      assert s.freelist[i - 1] == i;
    }
    assert forall i: nat :: i < |s.pages| ==> s.pages[i] == EMPTY_PAGE;
    assert forall i: nat :: PinsOn(s.pins, i) == {};
    assert forall b :: 0 <= b < |s.buckets| ==> s.buckets[b] == [];
    StartBufs(s.z, s.pages, s.wbufs, s.wbufStack);
    hide BufsOk, Divides;
  }

  lemma StartBufs(z: Sizes, pages: seq<Page>, wbufs: seq<Wbuf>, stack: seq<nat>)
    requires forall i :: 0 <= i < |pages| ==> pages[i] == EMPTY_PAGE
    requires forall b :: 0 <= b < |wbufs| ==> wbufs[b] == Wbuf(0, [], false)
    requires stack == Down(|wbufs|) && forall b: nat :: b < |wbufs| ==> b in stack
    ensures BufsOk(z, pages, wbufs, stack)
  {
  }

  class Engine {
    const z: Sizes
    var pages: seq<Page>
    var wbufs: seq<Wbuf>
    var wbufStack: seq<nat>
    var ioStack: seq<nat>
    var inflight: map<nat, WriteIo>
    var freelist: seq<nat>
    var pageFree: nat
    var buckets: seq<seq<nat>>
    var version: nat
    // The file, by page.
    var disk: seq<Bytes>
    // Threads between two of their critical sections: readers with a page pinned, one writer for each bucket, and
    // the eviction candidate of the maintenance thread.
    var pins: map<nat, Pin>
    var writers: seq<Writer>
    var candidate: Option<nat>
    // Everything ever stored.
    ghost var objects: map<Key, Bytes>
    // The run so far, one state for every critical section.
    ghost const conf: Conf
    ghost var history: seq<State>
    ghost var actions: seq<Action>

    ghost function St(): State
      reads this
    {
      State(z, pages, wbufs, wbufStack, ioStack, inflight, freelist, buckets, version, disk, pins, writers, objects)
    }

    /** The run so far has led to `s`. */
    ghost predicate Logged(s: State)
      reads this`history, this`actions
    {
      Run(conf, history, actions) && history[|history| - 1] == s
    }

    ghost predicate Valid()
      reads this
    {
      && Inv(St()) && pageFree == |freelist|
      && Logged(St())
      && (candidate.Some? ==>
            candidate.value < |pages| && !pages[candidate.value].active && !pages[candidate.value].free)
    }

    /** extstore_init, its checks passed: everything is free but page 0, which is never handed out. */
    constructor (c: Conf)
      requires c.wbufSize > 0 && c.pageSize > 0 && ConfError(c).None?
      ensures Valid() && objects == map[] && pins == map[] && candidate.None? && |buckets| == |writers| == c.bucketCount
    {
      var s := Start(c);
      z, pages, wbufs, wbufStack, ioStack, inflight := s.z, s.pages, s.wbufs, s.wbufStack, s.ioStack, s.inflight;
      freelist, buckets, version, disk, pins, writers := s.freelist, s.buckets, s.version, s.disk, s.pins, s.writers;
      pageFree, candidate, objects := |s.freelist|, None, map[];
      conf, history, actions := c, [s], [];
      new;
      StartOk(c);
    }

    /** The critical section just left joins the run. */
    ghost method Record(s: State, a: Action)
      requires Logged(s) && Next(s, a, St())
      modifies this`history, this`actions
      ensures Logged(St()) && St() == old(St()) && Next(s, a, St())
      ensures history == old(history) + [St()] && actions == old(actions) + [a]
    {
      history, actions := history + [St()], actions + [a];
    }

    /** _allocate_page. */
    method AllocatePage(b: nat, w: Writer) returns (r: Option<nat>)
      requires Valid() && b < |buckets| && HeadFull(z, pages, buckets[b])
      requires (w == Idle || (freelist != [] && w == Picked(freelist[0])))
      modifies this
      ensures Valid() && objects == old(objects)
      ensures r.None? <==> old(freelist) == []
      ensures r.None? ==> St() == old(St())
      ensures r.Some? ==>
                r.value == old(freelist)[0] && |buckets| == |old(buckets)| && buckets[b] == [r.value] + old(buckets)[b]
      ensures r.Some? ==> |writers| == |buckets| && writers[b] == w
    {
      hide Inv, Logged, HeadFull;
      if pageFree > 0 {
        r := Some(freelist[0]);
        TakePageFor(b, w);
      } else {
        r := None;
      }
    }

    /** The first free page becomes the head of the bucket, with the next version. */
    method TakePageFor(b: nat, w: Writer)
      requires Valid() && b < |buckets| && HeadFull(z, pages, buckets[b])
      requires freelist != [] && (w == Idle || w == Picked(freelist[0]))
      modifies this
      ensures Valid() && Next(old(St()), TakePage(b, w), St())
    {
      hide Inv, Logged, Next, HeadFull;
      ghost var s := St();
      FreeListed(s);
      var i := freelist[0];
      var p := pages[i].(active := true, free := false, closed := false, version := version, bucket := b);
      pages, buckets, writers := pages[i := p], buckets[b := [i] + buckets[b]], writers[b := w];
      version, freelist, pageFree := version + 1, freelist[1..], pageFree - 1;
      TakeNext(s, St(), b, w);
      TakeKeeps(s, St(), b, w);
      Record(s, TakePage(b, w));
    }

    /** The writer of a bucket goes on to its next section. */
    method MoveWriter(b: nat, w: Writer)
      requires Valid() && b < |buckets| && |writers| == |buckets| && WriterOk(z, pages, buckets[b], w)
      modifies this`writers, this`history, this`actions
      ensures Valid() && writers == old(writers)[b := w]
    {
      hide Inv, Logged, Next, WriterOk;
      ghost var s := St();
      writers := writers[b := w];
      WriterKeeps(s, St(), b, w);
      WritesNext(s, St(), b, w);
      Record(s, Writes(b, w));
    }

    /** extstore_write_request, first section: the head of the bucket, or a new page. */
    method Pick(b: nat) returns (ok: bool)
      requires Valid() && (b < |buckets| ==> b < |writers| && writers[b].Idle?)
      modifies this
      ensures ok ==>
                b < |buckets| == |old(buckets)| == |writers| && buckets[b] != [] && writers[b] == Picked(buckets[b][0])
      ensures ok && old(buckets)[b] != [] ==> buckets[b] == old(buckets)[b]
      ensures ok && old(buckets)[b] == [] ==> old(freelist) != [] && buckets[b] == [old(freelist)[0]]
      ensures Valid() && objects == old(objects)
      ensures !ok <==> b >= |old(buckets)| || (old(buckets)[b] == [] && old(freelist) == [])
    {
      hide Inv, Logged, Next;
      if b >= |buckets| {
        return false;
      }
      WritersMatch(St());
      if buckets[b] == [] {
        if freelist == [] {
          return false;
        }
        var r := AllocatePage(b, Picked(freelist[0]));
        ok := true;
      } else {
        HeadAt(St(), b);
        MoveWriter(b, Picked(buckets[b][0]));
        ok := true;
      }
    }

    /** _submit_wbuf, and the mark that nothing more goes into the buffer. */
    method SubmitWbuf(i: nat)
      requires Valid() && i < |pages| && pages[i].wbuf.Some? && pages[i].wbuf.value < |wbufs|
      requires !wbufs[pages[i].wbuf.value].full
      modifies this
      ensures Valid() && pages == old(pages) && buckets == old(buckets) && writers == old(writers)
      ensures objects == old(objects)
      ensures Next(old(St()), Submit(i, pages[i].wbuf.value), St())
      ensures |wbufs| == |old(wbufs)| && wbufs[pages[i].wbuf.value].full
    {
      hide Inv, Logged, Next;
      ghost var s := St();
      var b := pages[i].wbuf.value;
      IoReady(s, b);
      var o := ioStack[0];
      ioStack := ioStack[1..];
      inflight := inflight[o := WriteIo(i, b, false)];
      wbufs := wbufs[b := wbufs[b].(full := true)];
      SubmitKeeps(s, St(), i, b);
      Record(s, Submit(i, b));
    }

    /** _allocate_wbuf: the page gets a buffer if there is one. */
    method AllocateWbuf(i: nat)
      requires Valid() && i < |pages| && pages[i].active && pages[i].wbuf.None?
      modifies this
      ensures Valid() && |pages| == |old(pages)| && buckets == old(buckets) && writers == old(writers)
      ensures objects == old(objects)
      ensures if old(wbufStack) == [] then St() == old(St()) else Next(old(St()), Attach(i), St())
      ensures old(wbufStack) != [] ==>
                && pages[i].wbuf.Some?
                && pages[i].wbuf.value < |wbufs|
                && wbufs[pages[i].wbuf.value] == Wbuf(old(pages)[i].reserved, [], false)
    {
      hide Inv, Logged, Next;
      if wbufStack != [] {
        ghost var s := St();
        WbufReady(s);
        var b := wbufStack[0];
        wbufStack := wbufStack[1..];
        wbufs := wbufs[b := Wbuf(pages[i].reserved, [], false)];
        pages := pages[i := pages[i].(wbuf := Some(b), reserved := pages[i].reserved + z.wbuf)];
        AttachKeeps(s, St(), i);
        Record(s, Attach(i));
      }
    }

    /** The caller's copy into the buffer and extstore_write. */
    method Append(i: nat, data: Bytes) returns (key: Key)
      requires Valid() && 0 < |data| && i < |pages| && pages[i].wbuf.Some? && pages[i].wbuf.value < |wbufs|
      requires !wbufs[pages[i].wbuf.value].full && |wbufs[pages[i].wbuf.value].used| + |data| <= z.wbuf
      modifies this
      ensures Valid() && key !in old(objects) && objects == old(objects)[key := data]
      ensures buckets == old(buckets) && writers == old(writers)
      ensures key.page == i && key.version == old(pages)[i].version
      ensures Next(old(St()), Store(i, old(pages)[i].wbuf.value, data), St())
    {
      hide Inv, Logged, Next;
      ghost var s := St();
      var b := pages[i].wbuf.value;
      key := Key(i, pages[i].version, wbufs[b].offset + |wbufs[b].used|);
      wbufs := wbufs[b := wbufs[b].(used := wbufs[b].used + data)];
      pages := pages[i := pages[i].(objCount := pages[i].objCount + 1, bytesUsed := pages[i].bytesUsed + |data|)];
      objects := objects[key := data];
      StoreKeeps(s, St(), i, b, data, key, pages[i]);
      Record(s, Store(i, b, data));
    }

    /** extstore_write_request, second section, with the page locked up to the end of extstore_write: submit a
        buffer the object does not fit in, take a new one, store the object. */
    method Fill(b: nat, data: Bytes) returns (r: StoreResult)
      requires Valid() && 0 < |data| && b < |buckets| && b < |writers| && writers[b].Picked?
      requires writers[b].page < |pages|
      requires pages[writers[b].page].wbuf.Some? ==> pages[writers[b].page].wbuf.value < |wbufs|
      modifies this
      ensures Valid() && |buckets| == |writers| == |old(buckets)|
      ensures r.Stored? ==> r.key !in old(objects) && objects == old(objects)[r.key := data]
      ensures !r.Stored? ==> objects == old(objects)
      ensures writers[b] == if r.PageFull? then Full else Idle
      ensures r.Stored? ==> r.key.page == old(writers)[b].page
      ensures |data| > z.wbuf ==> !r.Stored?
      ensures var p := old(pages)[old(writers)[b].page];
              p.active && p.wbuf.Some? && !old(wbufs)[p.wbuf.value].full &&
              |old(wbufs)[p.wbuf.value].used| + |data| <= z.wbuf ==>
                r.Stored?
    {
      hide Inv, Logged, Next, HeadFull, WriterOk;
      WritersMatch(St());
      var i := writers[b].page;
      PickedAt(St(), b);
      if !pages[i].active || ((pages[i].wbuf.None? || wbufs[pages[i].wbuf.value].full) && pages[i].reserved >= z.page) {
        FoundFull(St(), b);
        MoveWriter(b, Full);
        return PageFull;
      }
      if pages[i].wbuf.Some? && z.wbuf - |wbufs[pages[i].wbuf.value].used| < |data| &&
           !wbufs[pages[i].wbuf.value].full {
        SubmitWbuf(i);
      }
      if pages[i].wbuf.None? && pages[i].reserved < z.page {
        AllocateWbuf(i);
      }
      if pages[i].wbuf.Some? && !wbufs[pages[i].wbuf.value].full &&
           z.wbuf - |wbufs[pages[i].wbuf.value].used| >= |data| {
        var key := Append(i, data);
        r := Stored(key);
      } else {
        r := Retry;
      }
      IdleOk(z, pages, buckets[b]);
      MoveWriter(b, Idle);
    }

    /** extstore_write_request on a full page: put a new page at the head of the bucket for the next try. */
    method Reallocate(b: nat)
      requires Valid() && b < |buckets| && b < |writers| && writers[b].Full?
      modifies this
      ensures Valid() && objects == old(objects) && |writers| == |buckets| == |old(buckets)| && writers[b].Idle?
      ensures buckets[b] == if old(freelist) == [] then old(buckets)[b] else [old(freelist)[0]] + old(buckets)[b]
    {
      hide Inv, Logged, Next, HeadFull, WriterOk;
      WritersMatch(St());
      FullHead(St(), b);
      var r := AllocatePage(b, Idle);
      if r.None? {
        IdleOk(z, pages, buckets[b]);
        MoveWriter(b, Idle);
      }
    }

    /** An IO thread writes a submitted buffer to the file, holding no lock. */
    method DiskWrite(o: nat)
      requires Valid() && o in inflight && !inflight[o].done
      modifies this`disk, this`inflight, this`history, this`actions
      ensures Valid() && inflight == old(inflight)[o := old(inflight)[o].(done := true)]
      ensures Next(old(St()), WriteFile(o), St())
    {
      hide Inv, Logged, Next, Patch, Padded;
      ghost var s := St();
      IoAt(s, o);
      var io := inflight[o];
      disk := disk[io.page := Patch(disk[io.page], wbufs[io.wbuf].offset, Padded(z, wbufs[io.wbuf]))];
      inflight := inflight[o := io.(done := true)];
      DiskWriteKeeps(s, St(), o);
      Record(s, WriteFile(o));
    }

    /** _wbuf_cb. */
    method WbufCallback(o: nat)
      requires Valid() && o in inflight && inflight[o].done
      modifies this
      ensures Valid() && objects == old(objects) && inflight == old(inflight) - {o}
      ensures Next(old(St()), Complete(o), St())
    {
      hide Inv, Logged, Next;
      ghost var s := St();
      var i, b := inflight[o].page, inflight[o].wbuf;
      IoAt(s, o);
      assert pages[i].wbuf == Some(b);
      assert pages[i].written == wbufs[b].offset;
      var p := pages[i].(written := pages[i].written + z.wbuf, wbuf := None);
      if p.written == z.page {
        p := p.(active := false);
      }
      pages, wbufStack, ioStack, inflight := pages[i := p], [b] + wbufStack, [o] + ioStack, inflight - {o};
      FlushKeeps(s, St(), o, p);
      CompleteNext(s, St(), o, p);
      Record(s, Complete(o));
    }

    /** An IO thread takes up a read: a miss, a copy out of the buffer, or a pinned page. */
    method BeginRead(thread: nat, k: Key, len: nat) returns (r: ReadResult)
      requires Valid() && thread !in pins && k in objects && |objects[k]| == len
      modifies this
      ensures Valid() && objects == old(objects) && |pages| == |old(pages)| && k.page < |pages|
      ensures r.Miss? <==> old(pages)[k.page].version != k.version || old(pages)[k.page].closed
      ensures r.Hit? ==> r.bytes == objects[k]
      ensures r.Pinned? ==> r.handle == thread && pins == old(pins)[thread := Pin(k, len)]
      ensures r.Pinned? ==> Next(old(St()), StartRead(thread, Pin(k, len)), St())
      ensures !r.Pinned? ==> St() == old(St())
    {
      hide Inv, Logged, Next, InBuf;
      ghost var s := St();
      ObjectAt(s, k);
      var p := pages[k.page];
      if !p.free && !p.closed && p.version == k.version {
        if p.active && k.offset >= p.written {
          FromBuf(s, k);
          assert p.wbuf.Some?;
          var w := wbufs[p.wbuf.value];
          assert k.offset < p.written + z.wbuf;
          r := Hit(w.used[k.offset - w.offset..][..len]);
        } else {
          pages := pages[k.page := p.(refcount := p.refcount + 1)];
          pins := pins[thread := Pin(k, len)];
          PinAll(s, St(), thread, Pin(k, len), pages[k.page]);
          Record(s, StartRead(thread, Pin(k, len)));
          r := Pinned(thread);
        }
      } else {
        r := Miss;
      }
    }

    /** The read of the file itself, holding no lock. */
    method DiskRead(thread: nat) returns (bytes: Bytes)
      requires Valid() && thread in pins
      ensures pins[thread].key in objects && bytes == objects[pins[thread].key]
    {
      hide Inv, Logged, Next;
      PinAt(St(), thread);
      var k := pins[thread].key;
      bytes := disk[k.page][k.offset..k.offset + pins[thread].len];
    }

    method EndRead(thread: nat)
      requires Valid() && thread in pins
      modifies this
      ensures Valid() && objects == old(objects) && pins == old(pins) - {thread}
      ensures Next(old(St()), FinishRead(thread), St())
    {
      hide Inv, Logged, Next, PinOk;
      ghost var s := St();
      PinAt(s, thread);
      var i := pins[thread].key.page;
      PinnedPage(s, thread);
      pages := pages[i := pages[i].(refcount := pages[i].refcount - 1)];
      pins := pins - {thread};
      UnpinAll(s, St(), thread, i, pages[i]);
      Record(s, FinishRead(thread));
    }

    /** extstore_delete: only the counters change, and only for a page that still has that version. */
    method Delete(i: nat, pageVersion: nat, count: nat, bytes: nat) returns (ok: bool)
      requires Valid() && i < |pages|
      modifies this
      ensures Valid() && objects == old(objects)
      ensures ok == (!old(pages)[i].closed && old(pages)[i].version == pageVersion)
      ensures !ok ==> pages == old(pages)
      ensures ok ==> pages == old(pages)[i := old(pages)[i].(objCount := Less(old(pages)[i].objCount, count),
                bytesUsed := Less(old(pages)[i].bytesUsed, bytes))]
    {
      hide Inv, Logged, Next;
      ghost var s := St();
      ok := !pages[i].closed && pages[i].version == pageVersion;
      if ok {
        pages := pages[i := pages[i].(objCount := Less(pages[i].objCount, count),
          bytesUsed := Less(pages[i].bytesUsed, bytes))];
        CountersKeep(s, St(), i, pages[i]);
        Record(s, Counters(i, pages[i]));
      }
    }

    /** extstore_close_page. */
    method ClosePage(i: nat, pageVersion: nat)
      requires Valid() && i < |pages| && 0 < pageVersion
      modifies this
      ensures Valid() && objects == old(objects)
      ensures pages == if old(pages)[i].version == pageVersion
                then old(pages)[i := old(pages)[i].(closed := true)] else old(pages)
    {
      hide Inv, Logged, Next;
      ghost var s := St();
      PageAt(s, i);
      if !pages[i].closed && pages[i].version == pageVersion {
        pages := pages[i := pages[i].(closed := true)];
        CountersKeep(s, St(), i, pages[i]);
        Record(s, Counters(i, pages[i]));
      }
    }

    /** _free_page: unlink the page from the stack of its bucket and reset it. */
    method FreePage(i: nat)
      requires Valid() && i < |pages| && !pages[i].active && !pages[i].free && pages[i].refcount == 0
      requires candidate != Some(i)
      modifies this
      ensures Valid() && objects == old(objects) && pins == old(pins) && candidate == old(candidate)
      ensures |pages| == |old(pages)| && pages[i].free
      ensures forall j :: 0 <= j < |pages| && j != i ==> pages[j] == old(pages)[j]
      ensures freelist == [i] + old(freelist)
      ensures exists k: nat :: Next(old(St()), Recycle(i, k), St())
    {
      hide Inv, Logged, Next, Without;
      ghost var s := St();
      var b := pages[i].bucket;
      ListedAt(s, i);
      var k := 0;
      while buckets[b][k] != i
        invariant 0 <= k < |buckets[b]| && i in buckets[b][k..]
        decreases |buckets[b]| - k
      {
        k := k + 1;
      }
      buckets := buckets[b := Without(buckets[b], k)];
      pages := pages[i := pages[i].(version := 0, objCount := 0, bytesUsed := 0, reserved := 0, written := 0,
        bucket := 0, active := false, closed := false, free := true)];
      freelist := [i] + freelist;
      pageFree := pageFree + 1;
      GiveKeeps(s, St(), i, k);
      Record(s, Recycle(i, k));
    }

    /** One page of the maintenance pass. */
    method Visit(i: nat) returns (freed: bool)
      requires Valid() && i < |pages| && (candidate.Some? ==> candidate.value < i)
      modifies this
      ensures Valid() && objects == old(objects) && pins == old(pins) && |pages| == |old(pages)|
      ensures forall j :: 0 <= j < |pages| && j != i ==> pages[j] == old(pages)[j]
      ensures freed == Reclaimable(old(pages)[i])
      ensures freed ==> pages[i].free
      ensures !freed ==> pages == old(pages) && freelist == old(freelist)
      ensures candidate == if Evictable(old(pages)[i]) &&
                (old(candidate).None? || old(pages)[i].version < old(pages)[old(candidate).value].version)
                  then Some(i) else old(candidate)
    {
      hide Inv, Logged, Next;
      var p := pages[i];
      if p.active || p.free {
        return false;
      }
      if p.objCount > 0 && !p.closed && (candidate.None? || p.version < pages[candidate.value].version) {
        candidate := Some(i);
      }
      if (p.objCount == 0 || p.closed) && p.refcount == 0 {
        FreePage(i);
        return true;
      }
      return false;
    }

    /** The eviction at the end of a pass: close the candidate, and free it unless it is being read. */
    method Evict()
      requires Valid() && candidate.Some?
      modifies this
      ensures Valid() && objects == old(objects) && pins == old(pins) && candidate.None?
      ensures var i := old(candidate).value; |pages| == |old(pages)| && (forall j :: 0 <= j < |pages| && j != i ==>
                pages[j] == old(pages)[j])
      ensures var i := old(candidate).value; if !old(pages)[i].closed &&
                old(pages)[i].refcount == 0 then pages[i].free else pages[i] == old(pages)[i].(closed := true)
    {
      hide Inv, Logged, Next;
      var i := candidate.value;
      candidate := None;
      if !pages[i].closed {
        ghost var s := St();
        pages := pages[i := pages[i].(closed := true)];
        CountersKeep(s, St(), i, pages[i]);
        Record(s, Counters(i, pages[i]));
        if pages[i].refcount == 0 {
          FreePage(i);
        }
      }
    }

    /** A maintenance pass that no other thread disturbs: it frees every page that can be freed, and when there was
        no free page and nothing could be freed it closes the oldest of the others; pages being read stay. */
    method Pass() returns (evicted: Option<nat>)
      requires Valid() && candidate.None?
      modifies this
      ensures Valid() && objects == old(objects) && pins == old(pins) && |pages| == |old(pages)| && candidate.None?
      ensures forall j :: 0 <= j < |pages| && Reclaimable(old(pages)[j]) ==> pages[j].free
      ensures forall j :: 0 <= j < |pages| && !Reclaimable(old(pages)[j]) && evicted != Some(j) ==>
                pages[j] == old(pages)[j]
      ensures evicted.Some? ==>
                && old(freelist) == [] && evicted.value < |pages| && Evictable(old(pages)[evicted.value])
                && (forall j :: 0 <= j < |pages| ==> !Reclaimable(old(pages)[j]))
                && (forall j :: 0 <= j < |pages| && Evictable(old(pages)[j]) ==>
                     old(pages)[evicted.value].version <= old(pages)[j].version)
                && (if old(pages)[evicted.value].refcount == 0 then pages[evicted.value].free
                     else pages[evicted.value].closed)
      ensures old(freelist) == [] && (forall j :: 0 <= j < |pages| ==> !Reclaimable(old(pages)[j])) ==>
                (exists j :: 0 <= j < |pages| && Evictable(old(pages)[j])) ==> evicted.Some?
    {
      hide Inv, Logged, Next;
      var doEvict := pageFree == 0;
      for i := 0 to |pages|
        invariant Valid() && objects == old(objects) && pins == old(pins) && |pages| == |old(pages)|
        invariant candidate.Some? ==> candidate.value < i
        invariant doEvict ==> pages == old(pages) && freelist == old(freelist)
        invariant doEvict == (old(freelist) == [] && forall j :: 0 <= j < i ==> !Reclaimable(old(pages)[j]))
        invariant forall j :: 0 <= j < |pages| ==> if j < i &&
                    Reclaimable(old(pages)[j]) then pages[j].free else pages[j] == old(pages)[j]
        invariant candidate.Some? ==>
                    && Evictable(old(pages)[candidate.value])
                    && forall j :: 0 <= j < i && Evictable(old(pages)[j]) ==>
                         old(pages)[candidate.value].version <= old(pages)[j].version
        invariant candidate.None? ==> forall j :: 0 <= j < i ==> !Evictable(old(pages)[j])
      {
        var freed := Visit(i);
        if freed {
          doEvict := false;
        }
      }
      evicted := if doEvict then candidate else None;
      if doEvict && candidate.Some? {
        Evict();
      }
      candidate := None;
    }
  }

  lemma WritersMatch(s: State)
    requires Inv(s)
    ensures |s.writers| == |s.buckets|
  {
  }

  lemma HeadAt(s: State, b: nat)
    requires Inv(s) && b < |s.buckets| && s.buckets[b] != []
    ensures s.buckets[b][0] < |s.pages| && WriterOk(s.z, s.pages, s.buckets[b], Picked(s.buckets[b][0]))
  {
    assert StackOk(s.z, s.pages, s.buckets[b], b);
    hide Inv;
    assert s.buckets[b][0] in s.buckets[b];
  }

  lemma IoReady(s: State, b: nat)
    requires Inv(s) && b < |s.wbufs| && !s.wbufs[b].full
    ensures s.ioStack != []
  {
    hide PagesOk, BufsOk, IosOk, DiskOk, ObjectsOk, PinsOk, ListsOk, WritersOk;
    IoAvailable(s.pages, s.wbufs, s.ioStack, s.inflight, b);
  }

  lemma WbufReady(s: State)
    requires Inv(s) && s.wbufStack != []
    ensures s.wbufStack[0] < |s.wbufs|
  {
    hide PagesOk, IosOk, DiskOk, ObjectsOk, PinsOk, ListsOk, WritersOk;
  }

  lemma PickedAt(s: State, b: nat)
    requires Inv(s) && b < |s.buckets| && |s.writers| == |s.buckets| && s.writers[b].Picked?
    ensures s.writers[b].page < |s.pages|
    ensures var p := s.pages[s.writers[b].page]; p.wbuf.Some? ==> p.wbuf.value < |s.wbufs|
  {
    assert WriterOk(s.z, s.pages, s.buckets[b], s.writers[b]);
    PageAt(s, s.writers[b].page);
    hide Inv;
  }

  lemma IdleOk(z: Sizes, pages: seq<Page>, s: seq<nat>)
    ensures WriterOk(z, pages, s, Idle)
  {
  }

  lemma FullHead(s: State, b: nat)
    requires Inv(s) && b < |s.buckets| && |s.writers| == |s.buckets| && s.writers[b].Full?
    ensures HeadFull(s.z, s.pages, s.buckets[b])
  {
    assert WriterOk(s.z, s.pages, s.buckets[b], s.writers[b]);
  }

  lemma PinnedPage(s: State, h: nat)
    requires h in s.pins && PinOk(s.pages, s.objects, s.pins[h])
    ensures s.pins[h].key.page < |s.pages|
  {
  }

  /** What the assertions of _read_from_wbuf ask for. */
  lemma FromBuf(s: State, k: Key)
    requires Inv(s) && k in s.objects && k.page < |s.pages| && s.pages[k.page].version == k.version
    requires s.pages[k.page].active && k.offset >= s.pages[k.page].written
    ensures var p := s.pages[k.page];
            && p.wbuf.Some? && p.wbuf.value < |s.wbufs| && k.offset < p.written + s.z.wbuf
            && s.wbufs[p.wbuf.value].offset <= k.offset &&
                 k.offset - s.wbufs[p.wbuf.value].offset + |s.objects[k]| <= |s.wbufs[p.wbuf.value].used|
            && s.wbufs[p.wbuf.value].used[k.offset - s.wbufs[p.wbuf.value].offset..][..|s.objects[k]|] == s.objects[k]
  {
    ObjectAt(s, k);
    PageAt(s, k.page);
    hide Inv;
  }

  lemma ListedAt(s: State, i: nat)
    requires Inv(s) && i < |s.pages| && !s.pages[i].free
    ensures s.pages[i].bucket < |s.buckets| && i in s.buckets[s.pages[i].bucket]
  {
    assert StackOk(s.z, s.pages, s.buckets[s.pages[i].bucket], s.pages[i].bucket);
    hide PagesOk, BufsOk, IosOk, DiskOk, ObjectsOk, PinsOk, WritersOk;
  }

  // ---- Whole runs ----

  /** One critical section of one thread: taking a page for a bucket, attaching, submitting and filling a buffer,
      moving a bucket's writer on, writing a buffer to the file and completing it, starting and ending a read of the
      file, changing the counters or closing, and recycling a page. */
  datatype Action =
    | TakePage(b: nat, w: Writer)
    | Attach(i: nat)
    | Submit(i: nat, wbuf: nat)
    | Store(i: nat, wbuf: nat, data: Bytes)
    | Writes(b: nat, w: Writer)
    | WriteFile(o: nat)
    | Complete(o: nat)
    | StartRead(h: nat, pin: Pin)
    | FinishRead(h: nat)
    | Counters(i: nat, p: Page)
    | Recycle(i: nat, k: nat)

  ghost predicate Next(s: State, a: Action, s': State) {
    match a
    case TakePage(b, w) =>
      && s.freelist != [] && b < |s.buckets| && HeadFull(s.z, s.pages,
           s.buckets[b]) && (w == Idle || w == Picked(s.freelist[0]))
      && s.freelist[0] < |s.pages| && |s.writers| == |s.buckets|
      && var i := s.freelist[0];
      var p := s.pages[i].(active := true, free := false, closed := false, version := s.version, bucket := b);
      s' == s.(pages := s.pages[i := p], freelist := s.freelist[1..], buckets := s.buckets[b := [i] + s.buckets[b]],
               writers := s.writers[b := w], version := s.version + 1)
    case Attach(i) =>
      && i < |s.pages| && s.pages[i].active && s.pages[i].wbuf.None? && s.wbufStack != [] && s.wbufStack[0] < |s.wbufs|
      && var b := s.wbufStack[0];
      s' == s.(pages := s.pages[i := s.pages[i].(wbuf := Some(b), reserved := s.pages[i].reserved + s.z.wbuf)],
               wbufs := s.wbufs[b := Wbuf(s.pages[i].reserved, [], false)], wbufStack := s.wbufStack[1..])
    case Submit(i, b) =>
      && Holds(s.pages, i, b) && b < |s.wbufs| && !s.wbufs[b].full && s.ioStack != []
      && s' == s.(wbufs := s.wbufs[b := s.wbufs[b].(full := true)], ioStack := s.ioStack[1..],
                  inflight := s.inflight[s.ioStack[0] := WriteIo(i, b, false)])
    case Store(i, b, data) =>
      && Holds(s.pages, i, b) && b < |s.wbufs| && !s.wbufs[b].full && |s.wbufs[b].used| + |data| <= s.z.wbuf &&
           0 < |data|
      && var p := s.pages[i].(objCount := s.pages[i].objCount + 1, bytesUsed := s.pages[i].bytesUsed + |data|);
      s' == s.(pages := s.pages[i := p], wbufs := s.wbufs[b := s.wbufs[b].(used := s.wbufs[b].used + data)],
               objects := s.objects[Key(i, s.pages[i].version, s.wbufs[b].offset + |s.wbufs[b].used|) := data])
    case Writes(b, w) =>
      && b < |s.buckets| && |s.writers| == |s.buckets| && WriterOk(s.z, s.pages, s.buckets[b], w)
      && s' == s.(writers := s.writers[b := w])
    case WriteFile(o) =>
      && o in s.inflight && IoOk(s.pages, s.wbufs, s.inflight[o]) && !s.inflight[o].done
      && s.inflight[o].page < |s.disk| && |s.wbufs[s.inflight[o].wbuf].used| <= s.z.wbuf
      && s.pages[s.inflight[o].page].written + s.z.wbuf <= |s.disk[s.inflight[o].page]|
      && var i := s.inflight[o].page;
      s' == s.(disk := s.disk[i := Patch(s.disk[i], s.pages[i].written, Padded(s.z, s.wbufs[s.inflight[o].wbuf]))],
               inflight := s.inflight[o := s.inflight[o].(done := true)])
    case Complete(o) =>
      && o in s.inflight && s.inflight[o].done && s.inflight[o].page < |s.pages|
      && var q := s.pages[s.inflight[o].page];
      var p := q.(written := q.written + s.z.wbuf, wbuf := None, active := q.active &&
        q.written + s.z.wbuf != s.z.page);
      s' == s.(pages := s.pages[s.inflight[o].page := p], wbufStack := [s.inflight[o].wbuf] + s.wbufStack,
               ioStack := [o] + s.ioStack, inflight := s.inflight - {o})
    case StartRead(h, pin) =>
      && PinOk(s.pages, s.objects, pin) && h !in s.pins && !s.pages[pin.key.page].free
      && s' == s.(pages :=
                    s.pages[pin.key.page := s.pages[pin.key.page].(refcount := s.pages[pin.key.page].refcount + 1)],
                  pins := s.pins[h := pin])
    case FinishRead(h) =>
      && h in s.pins && s.pins[h].key.page < |s.pages| && 0 < s.pages[s.pins[h].key.page].refcount
      && var i := s.pins[h].key.page;
      !s.pages[i].free && s' == s.(pages := s.pages[i := s.pages[i].(refcount := s.pages[i].refcount - 1)],
        pins := s.pins - {h})
    case Counters(i, p) =>
      && i < |s.pages| && p == s.pages[i].(objCount := p.objCount, bytesUsed := p.bytesUsed, closed := p.closed)
      && (s.pages[i].free ==> p.closed == s.pages[i].closed) && s' == s.(pages := s.pages[i := p])
    case Recycle(i, k) =>
      && i < |s.pages| && !s.pages[i].active && !s.pages[i].free && s.pages[i].refcount == 0
      && s.pages[i].bucket < |s.buckets| && k < |s.buckets[s.pages[i].bucket]| && s.buckets[s.pages[i].bucket][k] == i
      && var p := s.pages[i].(version := 0, objCount := 0, bytesUsed := 0, reserved := 0, written := 0, bucket := 0,
                              active := false, closed := false, free := true);
      s' == s.(pages := s.pages[i := p], freelist := [i] + s.freelist,
               buckets := s.buckets[s.pages[i].bucket := Without(s.buckets[s.pages[i].bucket], k)])
  }

  lemma TakeNext(s: State, s': State, b: nat, w: Writer)
    requires s.freelist != [] && b < |s.buckets| && HeadFull(s.z, s.pages,
               s.buckets[b]) && (w == Idle || w == Picked(s.freelist[0]))
    requires s.freelist[0] < |s.pages| && |s.writers| == |s.buckets|
    requires var i := s.freelist[0];
             var p := s.pages[i].(active := true, free := false, closed := false, version := s.version, bucket := b);
             s' == s.(pages := s.pages[i := p], freelist := s.freelist[1..],
               buckets := s.buckets[b := [i] + s.buckets[b]],
                      writers := s.writers[b := w], version := s.version + 1)
    ensures Next(s, TakePage(b, w), s')
  {
  }

  lemma WritesNext(s: State, s': State, b: nat, w: Writer)
    requires b < |s.buckets| && |s.writers| == |s.buckets| && WriterOk(s.z, s.pages, s.buckets[b], w)
    requires s' == s.(writers := s.writers[b := w])
    ensures Next(s, Writes(b, w), s')
  {
  }

  lemma CompleteNext(s: State, s': State, o: nat, p: Page)
    requires o in s.inflight && s.inflight[o].done && s.inflight[o].page < |s.pages|
    requires var q := s.pages[s.inflight[o].page]; p == q.(written := q.written + s.z.wbuf, wbuf := None,
               active := q.active && q.written + s.z.wbuf != s.z.page)
    requires s' == s.(pages := s.pages[s.inflight[o].page := p], wbufStack := [s.inflight[o].wbuf] + s.wbufStack,
               ioStack := [o] + s.ioStack, inflight := s.inflight - {o})
    ensures Next(s, Complete(o), s')
  {
  }

  lemma NextKeeps(s: State, a: Action, s': State)
    requires Inv(s) && Next(s, a, s')
    ensures Inv(s')
  {
    hide Inv, HeadFull, WriterOk, IoOk, PinOk, Holds, Patch, Padded, Without;
    match a
    case TakePage(b, w) => TakeKeeps(s, s', b, w);
    case Attach(i) => AttachKeeps(s, s', i);
    case Submit(i, b) => SubmitKeeps(s, s', i, b);
    case Store(i, b, data) =>
      HeldPage(s.pages, i, b);
      StoreKeeps(s, s', i, b, data, Key(i, s.pages[i].version, s.wbufs[b].offset + |s.wbufs[b].used|), s'.pages[i]);
    case Writes(b, w) => WriterKeeps(s, s', b, w);
    case WriteFile(o) => DiskWriteKeeps(s, s', o);
    case Complete(o) => FlushKeeps(s, s', o, s'.pages[s.inflight[o].page]);
    case StartRead(h, pin) =>
      PinPageOk(s.pages, s.objects, pin);
      PinAll(s, s', h, pin, s'.pages[pin.key.page]);
    case FinishRead(h) => UnpinAll(s, s', h, s.pins[h].key.page, s'.pages[s.pins[h].key.page]);
    case Counters(i, p) => CountersKeep(s, s', i, p);
    case Recycle(i, k) => GiveKeeps(s, s', i, k);
  }

  lemma HeldPage(pages: seq<Page>, i: nat, b: nat)
    requires Holds(pages, i, b)
    ensures i < |pages|
  {
  }

  lemma PinPageOk(pages: seq<Page>, objects: map<Key, Bytes>, p: Pin)
    requires PinOk(pages, objects, p)
    ensures p.key.page < |pages|
  {
  }

  /** What has been stored stays what it was. */
  lemma NextObjects(s: State, a: Action, s': State, k: Key)
    requires Inv(s) && Next(s, a, s') && k in s.objects
    ensures k in s'.objects && s'.objects[k] == s.objects[k]
  {
    hide Inv, HeadFull, WriterOk, IoOk, PinOk, Patch, Padded, Without;
    if a.Store? {
      PageAt(s, a.i);
      FreshKey(s, a.i, a.wbuf);
    }
  }

  lemma FreshKey(s: State, i: nat, b: nat)
    requires Inv(s) && i < |s.pages| && s.pages[i].wbuf == Some(b) && b < |s.wbufs| &&
               s.wbufs[b].offset == s.pages[i].written
    ensures Key(i, s.pages[i].version, s.wbufs[b].offset + |s.wbufs[b].used|) !in s.objects
  {
    hide PagesOk, BufsOk, IosOk, DiskOk, ObjectsOk, PinsOk, ListsOk, WritersOk;
    AppendFresh(s.version, s.pages, s.wbufs, s.disk, s.objects, i, b);
  }

  ghost predicate Run(c: Conf, states: seq<State>, actions: seq<Action>) {
    && c.wbufSize > 0 && c.pageSize > 0 && ConfError(c).None?
    && |states| == |actions| + 1 && states[0] == Start(c)
    && forall i :: 0 <= i < |actions| ==> Next(states[i], actions[i], states[i + 1])
  }

  lemma {:induction false} RunKeeps(c: Conf, states: seq<State>, actions: seq<Action>, i: nat)
    requires Run(c, states, actions) && i < |states|
    ensures Inv(states[i])
  {
    hide Next, Inv;
    if i == 0 {
      StartOk(c);
    } else {
      RunKeeps(c, states, actions, i - 1);
      NextKeeps(states[i - 1], actions[i - 1], states[i]);
    }
  }

  lemma {:induction false} RunObjects(c: Conf, states: seq<State>, actions: seq<Action>, i: nat, j: nat, k: Key)
    requires Run(c, states, actions) && i <= j < |states| && k in states[i].objects
    ensures k in states[j].objects && states[j].objects[k] == states[i].objects[k]
    decreases j
  {
    hide Next, Inv;
    if i < j {
      RunObjects(c, states, actions, i, j - 1, k);
      RunKeeps(c, states, actions, j - 1);
      NextObjects(states[j - 1], actions[j - 1], states[j], k);
    }
  }

  /** What the IO thread answers to a read: nothing when the page has another version or is closed, the bytes in the
      buffer when they have not been written yet, the bytes in the file otherwise. */
  function Answer(s: State, k: Key, len: nat): Option<Bytes> {
    if k.page >= |s.pages| || s.pages[k.page].free || s.pages[k.page].closed || s.pages[k.page].version != k.version
    then None
    else
      var p := s.pages[k.page];
      if p.active && k.offset >= p.written then
        if p.wbuf.Some? && p.wbuf.value < |s.wbufs| && s.wbufs[p.wbuf.value].offset <= k.offset
        then Some(Piece(s.wbufs[p.wbuf.value].used, k.offset - s.wbufs[p.wbuf.value].offset, len)) else None
      else if k.page < |s.disk| then Some(Piece(s.disk[k.page], k.offset, len)) else None
  }

  function Piece(b: Bytes, at: nat, len: nat): Bytes { if at + len <= |b| then b[at..at + len] else [] }

  /** The store is a map: whatever happens between storing an object and reading it, the answer is that object or a
      miss. */
  lemma ReadsWhatWasStored(c: Conf, states: seq<State>, actions: seq<Action>, i: nat, j: nat, k: Key)
    requires Run(c, states, actions) && i <= j < |states| && k in states[i].objects
    ensures k.page < |states[j].pages|
    ensures Answer(states[j], k, |states[i].objects[k]|) ==
      if states[j].pages[k.page].version != k.version || states[j].pages[k.page].closed then None
           else Some(states[i].objects[k])
  {
    hide Run, Inv, Next, Answer;
    RunKeeps(c, states, actions, j);
    RunObjects(c, states, actions, i, j, k);
    AnswerIs(states[j], k);
  }

  lemma AnswerIs(s: State, k: Key)
    requires Inv(s) && k in s.objects
    ensures k.page < |s.pages| && Answer(s, k, |s.objects[k]|) ==
              if s.pages[k.page].version != k.version || s.pages[k.page].closed then None else Some(s.objects[k])
  {
    hide Inv, Divides;
    ObjectPart(s, k);
    PageAt(s, k.page);
  }

  lemma ObjectPart(s: State, k: Key)
    requires Inv(s) && k in s.objects
    ensures ObjectOk(s.version, s.pages, s.wbufs, s.disk, k, s.objects[k])
  {
    hide PagesOk, BufsOk, IosOk, DiskOk, PinsOk, ListsOk, WritersOk, ObjectOk;
  }

  /** While a read of the file is going on its page is not recycled, and the bytes it is after stay where they are. */
  lemma PinnedReadSafe(c: Conf, states: seq<State>, actions: seq<Action>, i: nat, j: nat, h: nat)
    requires Run(c, states, actions) && i <= j < |states| && h in states[i].pins && h in states[j].pins &&
               states[j].pins[h] == states[i].pins[h]
    ensures var pin := states[i].pins[h];
            && pin.key in states[i].objects && pin.key.page < |states[j].pages| && !states[j].pages[pin.key.page].free
            && states[j].pages[pin.key.page].version == pin.key.version && pin.key.page < |states[j].disk|
            && Piece(states[j].disk[pin.key.page], pin.key.offset, pin.len) == states[i].objects[pin.key]
  {
    hide Run, Inv, Next;
    RunKeeps(c, states, actions, i);
    RunKeeps(c, states, actions, j);
    PinAt(states[i], h);
    PinAt(states[j], h);
    RunObjects(c, states, actions, i, j, states[i].pins[h].key);
  }
}
