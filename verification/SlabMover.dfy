/** Moving a page of memory from one slab class to another while the cache is in use: the mover visits the chunks of
    the page again and again, clearing free ones, copying live ones elsewhere and waiting for busy ones, until a whole
    visit finds nothing busy. */
module SlabMover {
  import opened Common

  type Key = seq<bv8>
  type Bytes = seq<bv8>

  /** A chunk of memory: its page and its place there. */
  datatype Ref = Ref(page: nat, i: nat)

  // An item, or the header of one whose value continues in other chunks.
  datatype Entry = Entry(
    key: Key, data: Bytes, linked: bool, refs: nat, time: nat, exptime: nat, cas: nat, chunks: seq<Ref>)

  // Cleared chunks are on no free list and belong to nobody.
  datatype Slot = Free | Cleared | Item(it: Entry) | Part(head: Ref, data: Bytes)

  const BLANK := Entry([], [], false, 1, 0, 0, 0, [])

  const MAX_LOOPS := 1000

  // The page being moved from class `s` to class `d`, and how far the current visit has come.
  datatype Mover = Mover(s: nat, d: nat, page: nat, pos: nat, busy: nat, loops: nat, done: bool)

  // An item that the mover has locked for the chunk it is visiting, and the chunk it has found to copy it to.
  datatype Pending = Pending(item: Ref, target: Ref, dest: Option<Ref>)

  datatype State = State(
    slots: map<Ref, Slot>, owner: map<nat, nat>, lists: seq<seq<nat>>, perslab: seq<nat>, free: seq<seq<Ref>>,
    table: map<Key, Ref>, mover: Option<Mover>, pending: Option<Pending>)

  // ---- What holds at every moment ----

  predicate InClass(owner: map<nat, nat>, perslab: seq<nat>, r: Ref, c: nat) {
    r.page in owner && owner[r.page] == c && c < |perslab| && r.i < perslab[c]
  }

  /** The lists of the classes hold their pages once each, and the memory is what these pages are divided into.
      Class 0 is the pool of whole pages. */
  ghost predicate PagesOk(slots: map<Ref, Slot>, owner: map<nat, nat>, lists: seq<seq<nat>>, perslab: seq<nat>) {
    && 0 < |lists| == |perslab| && perslab[0] == 0 && (forall c :: 0 < c < |perslab| ==> 0 < perslab[c])
    && (forall p :: p in owner ==> owner[p] < |lists|)
    && (forall c :: 0 <= c < |lists| ==> NoRepeat(lists[c]))
    && (forall c, p: nat :: 0 <= c < |lists| ==> (p in lists[c] <==> p in owner && owner[p] == c))
    && (forall r :: r in slots <==> r.page in owner && InClass(owner, perslab, r, owner[r.page]))
  }

  /** A free list holds the free chunks of its class once each. */
  ghost predicate FreeOk(slots: map<Ref, Slot>, owner: map<nat, nat>, perslab: seq<nat>, free: seq<seq<Ref>>) {
    |free| == |perslab| && forall c :: 0 <= c < |free| ==> FreeListOk(slots, owner, perslab, free[c], c)
  }

  ghost predicate FreeListOk(slots: map<Ref, Slot>, owner: map<nat, nat>, perslab: seq<nat>, s: seq<Ref>, c: nat) {
    NoRepeat(s) && forall r :: r in s <==> r in slots && slots[r].Free? && InClass(owner, perslab, r, c)
  }

  predicate LinkedAt(slots: map<Ref, Slot>, r: Ref) { r in slots && slots[r].Item? && slots[r].it.linked }

  ghost predicate TableOk(slots: map<Ref, Slot>, table: map<Key, Ref>) {
    && (forall k :: k in table ==> LinkedAt(slots, table[k]) && slots[table[k]].it.key == k)
    && (forall r :: LinkedAt(slots, r) ==> slots[r].it.key in table && table[slots[r].it.key] == r)
    && (forall r :: LinkedAt(slots, r) ==> 0 < slots[r].it.refs)
  }

  /** The chunks of an item name it as their head, and every chunk is in the item it names. */
  ghost predicate ChunksOk(slots: map<Ref, Slot>) {
    && (forall r :: r in slots && slots[r].Item? ==> ChainOk(slots, r, slots[r].it.chunks))
    && (forall x :: x in slots && slots[x].Part? ==> InChain(slots, x, slots[x].head))
  }

  ghost predicate ChainOk(slots: map<Ref, Slot>, r: Ref, chunks: seq<Ref>) {
    NoRepeat(chunks) && forall x :: x in chunks ==> x in slots && slots[x].Part? && slots[x].head == r
  }

  predicate InChain(slots: map<Ref, Slot>, x: Ref, h: Ref) { h in slots && slots[h].Item? && x in slots[h].it.chunks }

  predicate ClearedAt(slots: map<Ref, Slot>, r: Ref) { r in slots && slots[r].Cleared? }

  /** Chunks are cleared only in the page that moves; the ones the current visit has passed are cleared, unless it
      has met a busy one; and when the move is done the whole page is cleared. */
  ghost predicate MoverOk(slots: map<Ref, Slot>, owner: map<nat, nat>, lists: seq<seq<nat>>, perslab: seq<nat>,
      mover: Option<Mover>) {
    && (forall r :: ClearedAt(slots, r) ==> mover.Some? && r.page == mover.value.page)
    && (mover.Some? ==> VisitOk(slots, lists, perslab, mover.value))
  }

  ghost predicate VisitOk(slots: map<Ref, Slot>, lists: seq<seq<nat>>, perslab: seq<nat>, m: Mover) {
    && 0 < m.s < |lists| == |perslab| && m.d < |lists| && m.d != m.s && |lists[m.s]| >= 2 && lists[m.s][0] == m.page
    && (if m.done then m.pos == perslab[m.s] && m.busy == 0 else m.pos < perslab[m.s])
    && (m.busy == 0 ==> forall i :: 0 <= i < m.pos ==> ClearedAt(slots, Ref(m.page, i)))
  }

  ghost predicate PendingOk(slots: map<Ref, Slot>, owner: map<nat, nat>, perslab: seq<nat>, mover: Option<Mover>,
      pending: Option<Pending>) {
    pending.Some? ==>
      && mover.Some? && !mover.value.done && pending.value.target == Ref(mover.value.page, mover.value.pos)
      && HeldOk(slots, pending.value)
      && (pending.value.dest.Some? ==> DestOk(slots, owner, perslab, mover.value, pending.value.dest.value))
  }

  predicate HeldOk(slots: map<Ref, Slot>, p: Pending) {
    && LinkedAt(slots, p.item) && slots[p.item].it.refs == 2
    && (p.target == p.item || (p.target in slots && slots[p.target].Part? && slots[p.target].head == p.item))
  }

  predicate DestOk(slots: map<Ref, Slot>, owner: map<nat, nat>, perslab: seq<nat>, m: Mover, r: Ref) {
    r in slots && slots[r] == Item(BLANK) && r.page != m.page && InClass(owner, perslab, r, m.s)
  }

  ghost predicate Inv(s: State) {
    && PagesOk(s.slots, s.owner, s.lists, s.perslab)
    && FreeOk(s.slots, s.owner, s.perslab, s.free)
    && TableOk(s.slots, s.table)
    && ChunksOk(s.slots)
    && MoverOk(s.slots, s.owner, s.lists, s.perslab, s.mover)
    && PendingOk(s.slots, s.owner, s.perslab, s.mover, s.pending)
  }

  // ---- Values ----

  function PartData(slots: map<Ref, Slot>, r: Ref): Bytes { if r in slots && slots[r].Part? then slots[r].data else [] }

  function Joined(slots: map<Ref, Slot>, chunks: seq<Ref>): Bytes {
    if chunks == [] then [] else PartData(slots, chunks[0]) + Joined(slots, chunks[1..])
  }

  /** The value of an item: what its own chunk holds, then what its other chunks hold, in order. */
  function ValueAt(slots: map<Ref, Slot>, r: Ref): Bytes
    requires r in slots && slots[r].Item?
  {
    slots[r].it.data + Joined(slots, slots[r].it.chunks)
  }

  function ValueOf(s: State, k: Key): Option<Bytes> {
    if k in s.table && s.table[k] in s.slots && s.slots[s.table[k]].Item?
         then Some(ValueAt(s.slots, s.table[k])) else None
  }

  lemma {:induction false} JoinedSame(slots: map<Ref, Slot>, slots': map<Ref, Slot>, chunks: seq<Ref>,
      chunks': seq<Ref>)
    requires |chunks| == |chunks'|
    requires forall j :: 0 <= j < |chunks| ==> PartData(slots, chunks[j]) == PartData(slots', chunks'[j])
    ensures Joined(slots, chunks) == Joined(slots', chunks')
  {
    if chunks != [] {
      assert PartData(slots, chunks[0]) == PartData(slots', chunks'[0]);
      JoinedSame(slots, slots', chunks[1..], chunks'[1..]);
    }
  }

  // ---- The free lists ----

  predicate FreeAt(slots: map<Ref, Slot>, r: Ref) { r in slots && slots[r].Free? }

  lemma SameFree(slots: map<Ref, Slot>, slots': map<Ref, Slot>, owner: map<nat, nat>, perslab: seq<nat>,
      free: seq<seq<Ref>>)
    requires FreeOk(slots, owner, perslab, free) && forall r :: FreeAt(slots, r) == FreeAt(slots', r)
    ensures FreeOk(slots', owner, perslab, free)
  {
    forall c | 0 <= c < |free|
      ensures FreeListOk(slots', owner, perslab, free[c], c)
    {
      assert FreeListOk(slots, owner, perslab, free[c], c);
      assert forall r :: FreeAt(slots, r) <==> r in slots && slots[r].Free?;
      assert forall r :: FreeAt(slots', r) <==> r in slots' && slots'[r].Free?;
    }
  }

  lemma TopIsFree(slots: map<Ref, Slot>, owner: map<nat, nat>, perslab: seq<nat>, free: seq<seq<Ref>>, c: nat, k: nat)
    requires FreeOk(slots, owner, perslab, free) && c < |free| && k < |free[c]|
    ensures FreeAt(slots, free[c][k]) && InClass(owner, perslab, free[c][k], c)
  {
    assert FreeListOk(slots, owner, perslab, free[c], c);
    assert free[c][k] in free[c];
  }

  /** A chunk leaves its free list, from the top or from the middle. */
  lemma CutFree(slots: map<Ref, Slot>, owner: map<nat, nat>, perslab: seq<nat>, free: seq<seq<Ref>>, c: nat,
      k: nat, x: Slot)
    requires FreeOk(slots, owner, perslab, free) && c < |free| && k < |free[c]| && !x.Free?
    ensures FreeOk(slots[free[c][k] := x], owner, perslab, free[c := Without(free[c], k)])
  {
    TopIsFree(slots, owner, perslab, free, c, k);
    var r := free[c][k];
    var slots', free' := slots[r := x], free[c := Without(free[c], k)];
    forall d | 0 <= d < |free'|
      ensures FreeListOk(slots', owner, perslab, free'[d], d)
    {
      assert FreeListOk(slots, owner, perslab, free[d], d);
      if d == c {
        WithoutIs(free[c], k);
      }
    }
  }

  function Push(free: seq<seq<Ref>>, owner: map<nat, nat>, r: Ref): seq<seq<Ref>>
    requires r.page in owner && owner[r.page] < |free|
  {
    free[owner[r.page] := [r] + free[owner[r.page]]]
  }

  lemma PushFree(slots: map<Ref, Slot>, owner: map<nat, nat>, perslab: seq<nat>, free: seq<seq<Ref>>, r: Ref)
    requires FreeOk(slots, owner, perslab, free) && r in slots && !slots[r].Free? && r.page in owner
    requires InClass(owner, perslab, r, owner[r.page])
    ensures owner[r.page] < |free| && FreeOk(slots[r := Free], owner, perslab, Push(free, owner, r))
  {
    var c := owner[r.page];
    var free' := Push(free, owner, r);
    forall d | 0 <= d < |free'|
      ensures FreeListOk(slots[r := Free], owner, perslab, free'[d], d)
    {
      assert FreeListOk(slots, owner, perslab, free[d], d);
      assert r !in free[d];
    }
  }

  /** Every chunk of `refs` is free. */
  function Release(slots: map<Ref, Slot>, refs: seq<Ref>): map<Ref, Slot>
    decreases |refs|
  {
    if refs == [] then slots else Release(slots[refs[0] := Free], refs[1..])
  }

  lemma {:induction false} ReleaseIs(slots: map<Ref, Slot>, refs: seq<Ref>)
    requires forall r :: r in refs ==> r in slots
    ensures Release(slots, refs).Keys == slots.Keys
    ensures forall r :: r in slots ==> Release(slots, refs)[r] == if r in refs then Free else slots[r]
  {
    if refs != [] {
      assert refs == [refs[0]] + refs[1..];
      ReleaseIs(slots[refs[0] := Free], refs[1..]);
      assert slots[refs[0] := Free].Keys == slots.Keys;
    }
  }

  // ---- The other predicates, when little changes ----

  lemma SameTable(slots: map<Ref, Slot>, slots': map<Ref, Slot>, table: map<Key, Ref>)
    requires TableOk(slots, table)
    requires forall r :: LinkedAt(slots, r) == LinkedAt(slots', r)
    requires forall r :: LinkedAt(slots, r) && LinkedAt(slots', r) ==>
               slots'[r].it.key == slots[r].it.key && (0 < slots'[r].it.refs || slots'[r] == slots[r])
    ensures TableOk(slots', table)
  {
  }

  predicate Loose(x: Slot) { x.Free? || x.Cleared? || (x.Item? && x.it.chunks == []) }

  /** A chunk that belongs to no chain can become anything that starts none. */
  lemma LooseChunks(slots: map<Ref, Slot>, r: Ref, x: Slot)
    requires ChunksOk(slots) && r in slots && Loose(slots[r]) && Loose(x)
    ensures ChunksOk(slots[r := x])
  {
  }

  lemma SamePages(slots: map<Ref, Slot>, slots': map<Ref, Slot>, owner: map<nat, nat>, lists: seq<seq<nat>>,
      perslab: seq<nat>)
    requires PagesOk(slots, owner, lists, perslab) && slots'.Keys == slots.Keys
    ensures PagesOk(slots', owner, lists, perslab)
  {
    forall r
      ensures r in slots' <==> r in slots
    {
      assert r in slots' <==> r in slots'.Keys;
    }
  }

  lemma SameMover(slots: map<Ref, Slot>, slots': map<Ref, Slot>, owner: map<nat, nat>, lists: seq<seq<nat>>,
      perslab: seq<nat>, mover: Option<Mover>)
    requires MoverOk(slots, owner, lists, perslab, mover)
    requires forall r :: ClearedAt(slots, r) ==> ClearedAt(slots', r)
    requires forall r :: ClearedAt(slots', r) ==> ClearedAt(slots, r) || (mover.Some? && r.page == mover.value.page)
    ensures MoverOk(slots', owner, lists, perslab, mover)
  {
  }

  predicate Untouched(slots: map<Ref, Slot>, slots': map<Ref, Slot>, r: Ref) {
    (r in slots <==> r in slots') && (r in slots ==> slots'[r] == slots[r])
  }

  /** The chunks that the mover has locked or reserved. */
  predicate Reserved(pending: Option<Pending>, r: Ref) {
    pending.Some? && (r == pending.value.item || r == pending.value.target || pending.value.dest == Some(r))
  }

  lemma SamePending(slots: map<Ref, Slot>, slots': map<Ref, Slot>, owner: map<nat, nat>, perslab: seq<nat>,
      mover: Option<Mover>, pending: Option<Pending>)
    requires PendingOk(slots, owner, perslab, mover, pending)
    requires forall r :: Reserved(pending, r) ==> Untouched(slots, slots', r)
    ensures PendingOk(slots', owner, perslab, mover, pending)
  {
    if pending.Some? {
      assert Reserved(pending, pending.value.item) && Reserved(pending, pending.value.target);
      assert pending.value.dest.Some? ==> Reserved(pending, pending.value.dest.value);
    }
  }

  // ---- What the other threads do ----

  lemma FreeNotReserved(s: State, r: Ref)
    requires Inv(s) && (FreeAt(s.slots, r) || ClearedAt(s.slots, r))
    ensures !Reserved(s.pending, r)
  {
  }

  /** Changes to chunks that are neither cleared nor locked by the mover leave its bookkeeping alone. */
  lemma Frame(s: State, slots': map<Ref, Slot>)
    requires Inv(s) && slots'.Keys == s.slots.Keys
    requires forall r :: ClearedAt(s.slots, r) == ClearedAt(slots', r)
    requires forall r :: Reserved(s.pending, r) ==> Untouched(s.slots, slots', r)
    ensures PagesOk(slots', s.owner, s.lists, s.perslab) && MoverOk(slots', s.owner, s.lists, s.perslab, s.mover)
    ensures PendingOk(slots', s.owner, s.perslab, s.mover, s.pending)
  {
    hide PagesOk, MoverOk, PendingOk, FreeOk, TableOk, ChunksOk;
    SamePages(s.slots, slots', s.owner, s.lists, s.perslab);
    SameMover(s.slots, slots', s.owner, s.lists, s.perslab, s.mover);
    SamePending(s.slots, slots', s.owner, s.perslab, s.mover, s.pending);
  }

  lemma FrameOne(s: State, r: Ref, x: Slot)
    requires Inv(s) && r in s.slots && !Reserved(s.pending, r) && !s.slots[r].Cleared? && !x.Cleared?
    ensures PagesOk(s.slots[r := x], s.owner, s.lists, s.perslab)
    ensures MoverOk(s.slots[r := x], s.owner, s.lists, s.perslab, s.mover)
    ensures PendingOk(s.slots[r := x], s.owner, s.perslab, s.mover, s.pending)
    ensures !s.slots[r].Free? && !x.Free? ==> FreeOk(s.slots[r := x], s.owner, s.perslab, s.free)
  {
    hide Inv;
    var slots' := s.slots[r := x];
    assert slots'.Keys == s.slots.Keys;
    Frame(s, slots');
    if !s.slots[r].Free? && !x.Free? {
      TablePart(s);
      SameFree(s.slots, slots', s.owner, s.perslab, s.free);
    }
  }

  function Take(s: State, c: nat, x: Slot): State
    requires c < |s.free| && s.free[c] != []
  {
    s.(slots := s.slots[s.free[c][0] := x], free := s.free[c := Without(s.free[c], 0)])
  }

  /** do_slabs_alloc, without a new page. */
  lemma TakeKeeps(s: State, c: nat)
    requires Inv(s) && c < |s.free| && s.free[c] != []
    ensures Inv(Take(s, c, Item(BLANK)))
  {
    var r := s.free[c][0];
    var slots' := s.slots[r := Item(BLANK)];
    hide PagesOk, MoverOk, PendingOk, FreeOk, TableOk, ChunksOk;
    TablePart(s);
    TopIsFree(s.slots, s.owner, s.perslab, s.free, c, 0);
    FreeNotReserved(s, r);
    CutFree(s.slots, s.owner, s.perslab, s.free, c, 0, Item(BLANK));
    LooseChunks(s.slots, r, Item(BLANK));
    SameTable(s.slots, slots', s.table);
    FrameOne(s, r, Item(BLANK));
  }

  /** A change to an item that stays as linked as it is, under its key and with its chunks. */
  lemma EditKeeps(s: State, s': State, r: Ref, e: Entry)
    requires Inv(s) && r in s.slots && s.slots[r].Item? && !Reserved(s.pending, r)
    requires e.linked == s.slots[r].it.linked && e.chunks == s.slots[r].it.chunks
    requires (e.linked ==> e.key == s.slots[r].it.key && 0 < e.refs)
    requires s' == s.(slots := s.slots[r := Item(e)])
    ensures Inv(s')
  {
    hide PagesOk, MoverOk, PendingOk, FreeOk, TableOk, ChunksOk;
    TablePart(s);
    EditChunks(s.slots, r, e);
    EditTable(s.slots, s.table, r, e);
    FrameOne(s, r, Item(e));
  }

  lemma TablePart(s: State)
    requires Inv(s)
    ensures TableOk(s.slots, s.table) && ChunksOk(s.slots) && FreeOk(s.slots, s.owner, s.perslab, s.free)
  {
    hide PagesOk, MoverOk, PendingOk, FreeOk, TableOk, ChunksOk;
  }

  lemma EditTable(slots: map<Ref, Slot>, table: map<Key, Ref>, r: Ref, e: Entry)
    requires TableOk(slots, table) && r in slots && slots[r].Item? && e.linked == slots[r].it.linked
    requires (e.linked ==> e.key == slots[r].it.key && 0 < e.refs)
    ensures TableOk(slots[r := Item(e)], table)
  {
  }

  lemma EditChunks(slots: map<Ref, Slot>, r: Ref, e: Entry)
    requires ChunksOk(slots) && r in slots && slots[r].Item? && e.chunks == slots[r].it.chunks
    ensures ChunksOk(slots[r := Item(e)])
  {
  }

  /** do_item_link. */
  lemma LinkKeeps(s: State, s': State, r: Ref)
    requires Inv(s) && r in s.slots && s.slots[r].Item? && !s.slots[r].it.linked && s.slots[r].it.key !in s.table
    requires !Reserved(s.pending, r)
    requires s' == s.(slots := s.slots[r := Item(s.slots[r].it.(linked := true, refs := s.slots[r].it.refs + 1))],
               table := s.table[s.slots[r].it.key := r])
    ensures Inv(s')
  {
    var e := s.slots[r].it.(linked := true, refs := s.slots[r].it.refs + 1);
    hide PagesOk, MoverOk, PendingOk, FreeOk, TableOk, ChunksOk;
    TablePart(s);
    EditChunks(s.slots, r, e);
    LinkTable(s.slots, s.table, r, e);
    FrameOne(s, r, Item(e));
  }

  lemma LinkTable(slots: map<Ref, Slot>, table: map<Key, Ref>, r: Ref, e: Entry)
    requires TableOk(slots, table) && r in slots && !LinkedAt(slots, r) && e.linked && 0 < e.refs && e.key !in table
    ensures TableOk(slots[r := Item(e)], table[e.key := r])
  {
  }

  /** do_item_unlink of an item that somebody still holds. */
  lemma UnlinkKeeps(s: State, s': State, r: Ref)
    requires Inv(s) && LinkedAt(s.slots, r) && !Reserved(s.pending, r) && 0 < s.slots[r].it.refs
    requires s' == s.(slots := s.slots[r := Item(s.slots[r].it.(linked := false, refs := s.slots[r].it.refs - 1))],
               table := s.table - {s.slots[r].it.key})
    ensures Inv(s')
  {
    var e := s.slots[r].it.(linked := false, refs := s.slots[r].it.refs - 1);
    hide PagesOk, MoverOk, PendingOk, FreeOk, TableOk, ChunksOk;
    TablePart(s);
    EditChunks(s.slots, r, e);
    UnlinkTable(s.slots, s.table, r, Item(e));
    FrameOne(s, r, Item(e));
  }

  lemma UnlinkTable(slots: map<Ref, Slot>, table: map<Key, Ref>, r: Ref, x: Slot)
    requires TableOk(slots, table) && LinkedAt(slots, r) && (x.Item? ==> !x.it.linked)
    ensures TableOk(slots[r := x], table - {slots[r].it.key})
  {
  }

  /** do_item_alloc_chunk: a free chunk joins the end of an item that is being uploaded. */
  lemma AddChunkKeeps(s: State, s': State, h: Ref, c: nat, r: Ref, e: Entry)
    requires Inv(s) && c < |s.free| && s.free[c] != [] && r == s.free[c][0]
    requires h in s.slots && s.slots[h].Item? && !s.slots[h].it.linked && !Reserved(s.pending, h)
    requires e == s.slots[h].it.(chunks := s.slots[h].it.chunks + [r])
    requires s' == s.(slots := s.slots[r := Part(h, [])][h := Item(e)], free := s.free[c := Without(s.free[c], 0)])
    ensures Inv(s')
  {
    hide PagesOk, MoverOk, PendingOk, FreeOk, TableOk, ChunksOk;
    TablePart(s);
    TopIsFree(s.slots, s.owner, s.perslab, s.free, c, 0);
    FreeNotReserved(s, r);
    CutFree(s.slots, s.owner, s.perslab, s.free, c, 0, Part(h, []));
    SameFree(s.slots[r := Part(h, [])], s'.slots, s.owner, s.perslab, s'.free);
    AddChunks(s.slots, h, r, e);
    SameTable(s.slots, s'.slots, s.table);
    assert s'.slots.Keys == s.slots.Keys;
    Frame(s, s'.slots);
  }

  lemma AddChunks(slots: map<Ref, Slot>, h: Ref, r: Ref, e: Entry)
    requires ChunksOk(slots) && FreeAt(slots, r) && h in slots && slots[h].Item? && e.chunks == slots[h].it.chunks + [r]
    ensures ChunksOk(slots[r := Part(h, [])][h := Item(e)])
  {
    assert forall x :: x in e.chunks <==> x in slots[h].it.chunks || x == r;
    assert r !in slots[h].it.chunks;
  }

  /** Bytes arrive in a chunk of an item that the mover has not locked. */
  lemma WritePartKeeps(s: State, s': State, x: Ref, data: Bytes)
    requires Inv(s) && x in s.slots && s.slots[x].Part? && !Reserved(s.pending, x)
    requires s' == s.(slots := s.slots[x := Part(s.slots[x].head, data)])
    ensures Inv(s')
  {
    hide PagesOk, MoverOk, PendingOk, FreeOk, TableOk, ChunksOk;
    TablePart(s);
    FrameOne(s, x, Part(s.slots[x].head, data));
    SameTable(s.slots, s'.slots, s.table);
    PartChunks(s.slots, x, data);
  }

  lemma PartChunks(slots: map<Ref, Slot>, x: Ref, data: Bytes)
    requires ChunksOk(slots) && x in slots && slots[x].Part?
    ensures ChunksOk(slots[x := Part(slots[x].head, data)])
  {
  }

  // ---- Freeing an item ----

  function PushAll(free: seq<seq<Ref>>, owner: map<nat, nat>, refs: seq<Ref>): (r: seq<seq<Ref>>)
    requires forall x :: x in refs ==> x.page in owner && owner[x.page] < |free|
    ensures |r| == |free|
    decreases |refs|
  {
    if refs == [] then free else PushAll(Push(free, owner, refs[0]), owner, refs[1..])
  }

  lemma {:induction false} PushAllFree(slots: map<Ref, Slot>, owner: map<nat, nat>, perslab: seq<nat>,
      free: seq<seq<Ref>>, refs: seq<Ref>)
    requires FreeOk(slots, owner, perslab, free) && NoRepeat(refs)
    requires forall x :: x in refs
                ==> x in slots && !slots[x].Free? && x.page in owner && InClass(owner, perslab, x, owner[x.page])
    ensures forall x :: x in refs ==> owner[x.page] < |free|
    ensures FreeOk(Release(slots, refs), owner, perslab, PushAll(free, owner, refs))
    decreases |refs|
  {
    assert forall x :: x in refs ==> owner[x.page] < |free|;
    if refs != [] {
      var r := refs[0];
      assert refs == [r] + refs[1..] && r !in refs[1..];
      hide FreeOk;
      PushFree(slots, owner, perslab, free, r);
      PushAllFree(slots[r := Free], owner, perslab, Push(free, owner, r), refs[1..]);
    }
  }

  lemma ReleaseTable(slots: map<Ref, Slot>, slots': map<Ref, Slot>, table: map<Key, Ref>, refs: seq<Ref>)
    requires TableOk(slots, table) && slots'.Keys == slots.Keys
    requires forall r :: r in slots ==> slots'[r] == if r in refs then Free else slots[r]
    requires forall r :: r in refs ==> !LinkedAt(slots, r)
    ensures TableOk(slots', table)
  {
    forall r
      ensures LinkedAt(slots, r) == LinkedAt(slots', r) && (LinkedAt(slots, r) ==> slots'[r] == slots[r])
    {
      assert r in slots' <==> r in slots'.Keys;
    }
  }

  lemma ReleaseChunks(slots: map<Ref, Slot>, slots': map<Ref, Slot>, r: Ref, refs: seq<Ref>)
    requires ChunksOk(slots) && r in slots && slots[r].Item? && refs == [r] + slots[r].it.chunks
    requires slots'.Keys == slots.Keys && forall x :: x in slots ==> slots'[x] == if x in refs then Free else slots[x]
    ensures ChunksOk(slots') && NoRepeat(refs)
    ensures forall x :: x in refs ==> x in slots && (slots[x].Item? || slots[x].Part?)
  {
    forall x
      ensures x in slots' <==> x in slots
    {
      assert x in slots' <==> x in slots'.Keys;
    }
    assert forall x :: x in refs <==> x == r || x in slots[r].it.chunks;
    assert ChainOk(slots, r, slots[r].it.chunks);
    forall h | h in slots' && slots'[h].Item?
      ensures ChainOk(slots', h, slots'[h].it.chunks)
    {
      assert ChainOk(slots, h, slots[h].it.chunks);
    }
    forall x | x in slots' && slots'[x].Part?
      ensures InChain(slots', x, slots'[x].head)
    {
      assert InChain(slots, x, slots[x].head);
    }
  }

  /** slabs_free of an item that nobody refers to: its chunk and all the chunks of its value. */
  lemma FreeItemKeeps(s: State, s': State, r: Ref, refs: seq<Ref>)
    requires Inv(s) && r in s.slots && s.slots[r].Item? && !s.slots[r].it.linked && !Reserved(s.pending, r)
    requires refs == [r] + s.slots[r].it.chunks
    requires forall x :: x in refs ==> x.page in s.owner && s.owner[x.page] < |s.free|
    requires s' == s.(slots := Release(s.slots, refs), free := PushAll(s.free, s.owner, refs))
    ensures Inv(s')
  {
    hide Release, PushAll, PagesOk, MoverOk, PendingOk, FreeOk, TableOk, ChunksOk, InClass;
    TablePart(s);
    ItemRefs(s, r, refs);
    ReleaseIs(s.slots, refs);
    ReleaseChunks(s.slots, s'.slots, r, refs);
    PushAllFree(s.slots, s.owner, s.perslab, s.free, refs);
    ItemNotReserved(s, r, refs);
    ReleaseTable(s.slots, s'.slots, s.table, refs);
    ReleaseFrame(s, s'.slots, refs);
  }

  lemma ItemRefs(s: State, r: Ref, refs: seq<Ref>)
    requires Inv(s) && r in s.slots && s.slots[r].Item? && refs == [r] + s.slots[r].it.chunks
    ensures forall x :: x in refs
               ==> x in s.slots && x.page in s.owner && InClass(s.owner, s.perslab, x, s.owner[x.page])
  {
    hide PagesOk, MoverOk, PendingOk, FreeOk, TableOk, ChunksOk, InClass;
    InSlots(s, r);
    forall x | x in refs
      ensures x in s.slots && x.page in s.owner && InClass(s.owner, s.perslab, x, s.owner[x.page])
    {
      InSlots(s, x);
    }
  }

  lemma ReleaseFrame(s: State, slots': map<Ref, Slot>, refs: seq<Ref>)
    requires Inv(s) && slots'.Keys == s.slots.Keys
    requires forall x :: x in s.slots ==> slots'[x] == if x in refs then Free else s.slots[x]
    requires forall x :: x in refs ==> x in s.slots && !s.slots[x].Cleared? && !Reserved(s.pending, x)
    ensures PagesOk(slots', s.owner, s.lists, s.perslab) && MoverOk(slots', s.owner, s.lists, s.perslab, s.mover)
    ensures PendingOk(slots', s.owner, s.perslab, s.mover, s.pending)
  {
    hide Inv;
    forall x
      ensures x in slots' <==> x in s.slots
    {
      assert x in slots' <==> x in slots'.Keys;
    }
    Frame(s, slots');
  }

  lemma InSlots(s: State, r: Ref)
    requires Inv(s) && r in s.slots
    ensures r.page in s.owner && InClass(s.owner, s.perslab, r, s.owner[r.page])
    ensures s.slots[r].Item? ==> forall x :: x in s.slots[r].it.chunks ==>
              x in s.slots && s.slots[x] == Part(r, s.slots[x].data)
  {
    hide MoverOk, PendingOk, FreeOk, TableOk;
  }

  lemma ItemNotReserved(s: State, r: Ref, refs: seq<Ref>)
    requires Inv(s) && r in s.slots && s.slots[r].Item? && !s.slots[r].it.linked && !Reserved(s.pending, r)
    requires refs == [r] + s.slots[r].it.chunks
    ensures forall x :: x in refs ==> !Reserved(s.pending, x) && !LinkedAt(s.slots, x)
  {
    hide PagesOk, MoverOk, FreeOk, TableOk;
    forall x | x in refs
      ensures !Reserved(s.pending, x) && !LinkedAt(s.slots, x)
    {
      if x != r {
        assert x in s.slots[r].it.chunks;
      }
    }
  }

  // ---- What the mover does ----

  /** A free chunk of the page leaves its free list, cleared (slab_rebalance_cut_free, slab_rebalance_alloc). */
  lemma ClearKeeps(s: State, s': State, k: nat, r: Ref)
    requires Inv(s) && s.mover.Some? && s.pending.None? && s.mover.value.s < |s.free| && k < |s.free[s.mover.value.s]|
    requires r == s.free[s.mover.value.s][k] && r.page == s.mover.value.page
    requires s' == s.(slots := s.slots[r := Cleared],
                     free := s.free[s.mover.value.s := Without(s.free[s.mover.value.s], k)])
    ensures Inv(s')
  {
    hide PagesOk, MoverOk, PendingOk, FreeOk, TableOk, ChunksOk, Without;
    TablePart(s);
    TopIsFree(s.slots, s.owner, s.perslab, s.free, s.mover.value.s, k);
    CutFree(s.slots, s.owner, s.perslab, s.free, s.mover.value.s, k, Cleared);
    LooseChunks(s.slots, r, Cleared);
    SameTable(s.slots, s'.slots, s.table);
    assert s'.slots.Keys == s.slots.Keys;
    SamePages(s.slots, s'.slots, s.owner, s.lists, s.perslab);
    SameMover(s.slots, s'.slots, s.owner, s.lists, s.perslab, s.mover);
    SamePending(s.slots, s'.slots, s.owner, s.perslab, s.mover, s.pending);
  }

  /** The mover locks an item that nobody else holds, for the chunk it is visiting. */
  lemma HoldKeeps(s: State, s': State, p: Pending)
    requires Inv(s) && s.mover.Some? && !s.mover.value.done && s.pending.None?
    requires p.target == Ref(s.mover.value.page, s.mover.value.pos)
    requires LinkedAt(s.slots, p.item) && s.slots[p.item].it.refs == 1
    requires p.target == p.item || (p.target in s.slots && s.slots[p.target].Part? && s.slots[p.target].head == p.item)
    requires p.dest.Some? ==> DestOk(s.slots, s.owner, s.perslab, s.mover.value, p.dest.value)
    requires s' == s.(slots := s.slots[p.item := Item(s.slots[p.item].it.(refs := 2))], pending := Some(p))
    ensures Inv(s')
  {
    hide PagesOk, MoverOk, FreeOk, TableOk, ChunksOk, PendingOk, DestOk;
    var t := s.(slots := s'.slots);
    EditKeeps(s, t, p.item, s.slots[p.item].it.(refs := 2));
    HoldPending(s, s', p);
  }

  /** The item is locked; if there is a place to copy it to, that is taken from the free list in the same section. */
  function LockedFor(s: State, p: Pending): State
    requires LinkedAt(s.slots, p.item) && (p.dest.Some? ==> DestFree(s, p.dest.value))
  {
    var t := if p.dest.Some? then Take(s, s.mover.value.s, Item(BLANK)) else s;
    t.(slots := t.slots[p.item := Item(s.slots[p.item].it.(refs := 2))], pending := Some(p))
  }

  /** The head of the free list of the moving class, when it is not in the page. */
  predicate DestFree(s: State, n: Ref) {
    && s.mover.Some? && s.mover.value.s < |s.free| && s.free[s.mover.value.s] != []
    && n == s.free[s.mover.value.s][0] && n.page != s.mover.value.page
  }

  lemma LockKeeps(s: State, p: Pending)
    requires Inv(s) && s.mover.Some? && !s.mover.value.done && s.pending.None?
    requires p.target == Ref(s.mover.value.page, s.mover.value.pos)
    requires LinkedAt(s.slots, p.item) && s.slots[p.item].it.refs == 1
    requires p.target == p.item || (p.target in s.slots && s.slots[p.target].Part? && s.slots[p.target].head == p.item)
    requires p.dest.Some? ==> DestFree(s, p.dest.value)
    ensures Inv(LockedFor(s, p))
  {
    hide Inv, Without;
    if p.dest.Some? {
      ListedAt(s, s.mover.value.s, 0);
      TakeKeeps(s, s.mover.value.s);
      HoldKeeps(Take(s, s.mover.value.s, Item(BLANK)), LockedFor(s, p), p);
    } else {
      HoldKeeps(s, LockedFor(s, p), p);
    }
  }

  lemma HoldPending(s: State, s': State, p: Pending)
    requires s.mover.Some? && !s.mover.value.done && p.target == Ref(s.mover.value.page, s.mover.value.pos)
    requires LinkedAt(s.slots, p.item)
    requires (p.target == p.item ||
              (p.target in s.slots && s.slots[p.target].Part? && s.slots[p.target].head == p.item))
    requires p.dest.Some? ==> DestOk(s.slots, s.owner, s.perslab, s.mover.value, p.dest.value)
    requires s' == s.(slots := s.slots[p.item := Item(s.slots[p.item].it.(refs := 2))], pending := Some(p))
    ensures PendingOk(s'.slots, s'.owner, s'.perslab, s'.mover, s'.pending)
  {
  }

  lemma LetGo(s: State)
    requires Inv(s)
    ensures Inv(s.(pending := None))
  {
    hide PagesOk, MoverOk, FreeOk, TableOk, ChunksOk;
  }

  /** The chunks of `refs` name `n` as their head. */
  function Repoint(slots: map<Ref, Slot>, refs: seq<Ref>, n: Ref): map<Ref, Slot>
    decreases |refs|
  {
    if refs == [] then slots else Repoint(slots[refs[0] := Part(n, PartData(slots, refs[0]))], refs[1..], n)
  }

  lemma {:induction false} RepointIs(slots: map<Ref, Slot>, refs: seq<Ref>, n: Ref)
    requires forall r :: r in refs ==> r in slots
    ensures Repoint(slots, refs, n).Keys == slots.Keys
    ensures forall r :: r in slots ==> Repoint(slots, refs, n)[r] == if r in refs
              then Part(n, PartData(slots, r)) else slots[r]
    decreases |refs|
  {
    if refs != [] {
      assert refs == [refs[0]] + refs[1..];
      var slots1 := slots[refs[0] := Part(n, PartData(slots, refs[0]))];
      assert slots1.Keys == slots.Keys;
      RepointIs(slots1, refs[1..], n);
      forall r | r in slots
        ensures Repoint(slots, refs, n)[r] == if r in refs then Part(n, PartData(slots, r)) else slots[r]
      {
        assert PartData(slots1, r) == if r == refs[0] then PartData(slots, refs[0]) else PartData(slots, r);
      }
    }
  }

  /** A copy is linked anew: nobody else holds it, and its time and CAS are new. */
  predicate CopyOf(e: Entry, f: Entry) { f == e.(refs := 1, time := f.time, cas := f.cas) }

  /** What memory looks like after an item has been copied from `r` to `n`. */
  ghost predicate Copied(slots: map<Ref, Slot>, slots': map<Ref, Slot>, r: Ref, n: Ref, e: Entry, f: Entry) {
    slots'.Keys == slots.Keys && forall x :: x in slots ==>
      slots'[x] == if x == r then Cleared else if x == n then Item(f)
        else if x in e.chunks then Part(n, PartData(slots, x)) else slots[x]
  }

  lemma CopiedIs(slots: map<Ref, Slot>, r: Ref, n: Ref, e: Entry, f: Entry)
    requires r in slots && n in slots && r != n && slots[r].Item? && slots[n].Item?
    requires forall x :: x in e.chunks ==> x in slots && slots[x].Part?
    ensures Copied(slots, Repoint(slots[n := Item(f)], e.chunks, n)[r := Cleared], r, n, e, f)
  {
    var slots1 := slots[n := Item(f)];
    assert slots1.Keys == slots.Keys;
    forall x | x in slots && x in e.chunks
      ensures PartData(slots1, x) == PartData(slots, x)
    {
    }
    hide PartData, Repoint;
    RepointIs(slots1, e.chunks, n);
    var slots2 := Repoint(slots1, e.chunks, n);
    assert slots2[r := Cleared].Keys == slots.Keys;
  }

  lemma CopiedChunks(slots: map<Ref, Slot>, slots': map<Ref, Slot>, r: Ref, n: Ref, e: Entry, f: Entry)
    requires ChunksOk(slots) && r in slots && n in slots && r != n && slots[r] == Item(e) && slots[n] == Item(BLANK)
    requires CopyOf(e, f)
    requires Copied(slots, slots', r, n, e, f)
    ensures ChunksOk(slots')
  {
    assert forall x :: x in slots' <==> x in slots'.Keys;
    assert ChainOk(slots, r, e.chunks);
    forall h | h in slots' && slots'[h].Item?
      ensures ChainOk(slots', h, slots'[h].it.chunks)
    {
      if h != n {
        assert ChainOk(slots, h, slots[h].it.chunks);
      }
    }
    forall x | x in slots' && slots'[x].Part?
      ensures InChain(slots', x, slots'[x].head)
    {
      assert slots[x].Part? && InChain(slots, x, slots[x].head);
    }
  }

  lemma CopiedTable(slots: map<Ref, Slot>, slots': map<Ref, Slot>, table: map<Key, Ref>, r: Ref, n: Ref, e: Entry,
    f: Entry)
    requires TableOk(slots, table) && r in slots && n in slots && r != n && slots[r] == Item(e) && e.linked
    requires slots[n] == Item(BLANK)
    requires CopyOf(e, f)
    requires Copied(slots, slots', r, n, e, f) && forall x :: x in e.chunks ==> x in slots && slots[x].Part?
    ensures TableOk(slots', table[e.key := n])
  {
    forall x
      ensures LinkedAt(slots', x) <==> x == n || (LinkedAt(slots, x) && x != r)
    {
      assert x in slots' <==> x in slots'.Keys;
    }
    assert LinkedAt(slots, r);
  }

  lemma CopiedFree(slots: map<Ref, Slot>, slots': map<Ref, Slot>, owner: map<nat, nat>, perslab: seq<nat>,
      free: seq<seq<Ref>>, r: Ref, n: Ref, e: Entry, f: Entry)
    requires FreeOk(slots, owner, perslab, free) && r in slots && n in slots && r != n && slots[r].Item?
    requires slots[n].Item?
    requires Copied(slots, slots', r, n, e, f) && forall x :: x in e.chunks ==> x in slots && slots[x].Part?
    ensures FreeOk(slots', owner, perslab, free)
    ensures forall x :: ClearedAt(slots', x) <==> ClearedAt(slots, x) || x == r
  {
    forall x
      ensures FreeAt(slots, x) == FreeAt(slots', x) && (ClearedAt(slots', x) <==> ClearedAt(slots, x) || x == r)
    {
      assert x in slots' <==> x in slots'.Keys;
    }
    SameFree(slots, slots', owner, perslab, free);
  }

  /** What is known while an item is locked for a copy. */
  lemma PendingAt(s: State)
    requires Inv(s) && s.pending.Some?
    ensures s.mover.Some? && !s.mover.value.done && s.pending.value.target == Ref(s.mover.value.page, s.mover.value.pos)
    ensures LinkedAt(s.slots, s.pending.value.item) && s.slots[s.pending.value.item].it.refs == 2
    ensures s.pending.value.target == s.pending.value.item || (s.pending.value.target in s.slots &&
              s.slots[s.pending.value.target].Part? && s.slots[s.pending.value.target].head == s.pending.value.item)
    ensures s.pending.value.dest.Some? ==> DestOk(s.slots, s.owner, s.perslab, s.mover.value,
              s.pending.value.dest.value)
    ensures forall x :: x in s.slots[s.pending.value.item].it.chunks ==> x in s.slots && s.slots[x].Part?
    ensures s.pending.value.target != s.pending.value.item ==>
              s.pending.value.target in s.slots[s.pending.value.item].it.chunks
  {
    hide PagesOk, MoverOk, FreeOk, TableOk;
    assert ChainOk(s.slots, s.pending.value.item, s.slots[s.pending.value.item].it.chunks);
    if s.pending.value.target != s.pending.value.item {
      assert InChain(s.slots, s.pending.value.target, s.pending.value.item);
    }
  }

  /** An item is copied out of the page: the table has the copy, the old chunk is cleared. */
  lemma RescueItemKeeps(s: State, s': State, r: Ref, n: Ref, e: Entry, f: Entry)
    requires Inv(s) && s.pending == Some(Pending(r, r, Some(n))) && r in s.slots && s.slots[r] == Item(e)
    requires CopyOf(e, f)
    requires s' == s.(slots := Repoint(s.slots[n := Item(f)], e.chunks, n)[r := Cleared],
               table := s.table[e.key := n], pending := None)
    ensures Inv(s') && ClearedAt(s'.slots, r)
  {
    PendingAt(s);
    hide PagesOk, MoverOk, FreeOk, TableOk, ChunksOk, PendingOk;
    CopiedIs(s.slots, r, n, e, f);
    hide Repoint;
    TablePart(s);
    CopiedChunks(s.slots, s'.slots, r, n, e, f);
    CopiedTable(s.slots, s'.slots, s.table, r, n, e, f);
    CopiedFree(s.slots, s'.slots, s.owner, s.perslab, s.free, r, n, e, f);
    RescueFrame(s, s', r);
  }

  lemma RescueFrame(s: State, s': State, r: Ref)
    requires Inv(s) && s.mover.Some? && r.page == s.mover.value.page && s'.slots.Keys == s.slots.Keys
    requires forall x :: ClearedAt(s'.slots, x) <==> ClearedAt(s.slots, x) || x == r
    requires s' == s.(slots := s'.slots, table := s'.table, pending := None)
    ensures PagesOk(s'.slots, s'.owner, s'.lists, s'.perslab)
    ensures MoverOk(s'.slots, s'.owner, s'.lists, s'.perslab, s'.mover)
    ensures PendingOk(s'.slots, s'.owner, s'.perslab, s'.mover, s'.pending)
  {
    hide PagesOk, MoverOk, FreeOk, TableOk, ChunksOk;
    SamePages(s.slots, s'.slots, s.owner, s.lists, s.perslab);
    SameMover(s.slots, s'.slots, s.owner, s.lists, s.perslab, s.mover);
  }

  /** The chunk `x` of an item, number `j` of its chain, is copied out of the page. */
  lemma RescuePartKeeps(s: State, s': State, r: Ref, x: Ref, n: Ref, j: nat, e: Entry)
    requires Inv(s) && s.pending == Some(Pending(r, x, Some(n))) && x != r && r in s.slots && s.slots[r] == Item(e)
    requires j < |e.chunks| && e.chunks[j] == x && x in s.slots
    requires s' == s.(slots := s.slots[n := Part(r, PartData(s.slots, x))][r := Item(e.(chunks := e.chunks[j := n],
               refs := 1))][x := Cleared], pending := None)
    ensures Inv(s') && ClearedAt(s'.slots, x)
  {
    PendingAt(s);
    hide PagesOk, MoverOk, FreeOk, TableOk, ChunksOk, PendingOk;
    TablePart(s);
    PartCopied(s.slots, s'.slots, r, x, n, j, e);
    PartSeats(s.slots, s'.slots, r, x, n, j, e);
    hide LinkedAt, FreeAt, ClearedAt;
    PartTable(s.slots, s'.slots, s.table, r, x, n, j, e);
    SameFree(s.slots, s'.slots, s.owner, s.perslab, s.free);
    RescueFrame(s, s', x);
  }

  lemma PartSeats(slots: map<Ref, Slot>, slots': map<Ref, Slot>, r: Ref, x: Ref, n: Ref, j: nat, e: Entry)
    requires r in slots && slots[r] == Item(e) && x in slots && slots[x].Part? && n in slots
    requires slots[n] == Item(BLANK) && n != r && j < |e.chunks|
    requires slots' == slots[n := Part(r, PartData(slots, x))][r := Item(e.(chunks := e.chunks[j := n],
               refs := 1))][x := Cleared]
    ensures slots'.Keys == slots.Keys
    ensures forall y :: FreeAt(slots, y) == FreeAt(slots', y)
    ensures forall y :: ClearedAt(slots', y) <==> ClearedAt(slots, y) || y == x
  {
  }

  lemma PartTable(slots: map<Ref, Slot>, slots': map<Ref, Slot>, table: map<Key, Ref>, r: Ref, x: Ref, n: Ref,
      j: nat, e: Entry)
    requires r in slots && slots[r] == Item(e) && x in slots && slots[x].Part? && n in slots
    requires slots[n] == Item(BLANK) && n != r && j < |e.chunks|
    requires slots' == slots[n := Part(r, PartData(slots, x))][r := Item(e.(chunks := e.chunks[j := n],
               refs := 1))][x := Cleared]
    requires TableOk(slots, table)
    ensures TableOk(slots', table)
  {
    hide TableOk;
    SameTable(slots, slots', table);
  }

  lemma PartCopied(slots: map<Ref, Slot>, slots': map<Ref, Slot>, r: Ref, x: Ref, n: Ref, j: nat, e: Entry)
    requires ChunksOk(slots) && r in slots && slots[r] == Item(e) && x in slots && slots[x].Part? && n in slots
    requires slots[n] == Item(BLANK) && n != r && j < |e.chunks| && e.chunks[j] == x
    requires slots' == slots[n := Part(r, PartData(slots, x))][r := Item(e.(chunks := e.chunks[j := n],
               refs := 1))][x := Cleared]
    ensures ChunksOk(slots')
  {
    assert ChainOk(slots, r, e.chunks) && n !in e.chunks;
    var c := e.chunks[j := n];
    assert forall y :: y in c <==> y == n || (y in e.chunks && y != x) by {
      assert c[j] == n;
      assert forall i :: 0 <= i < |c| && i != j ==> c[i] == e.chunks[i];
    }
    forall h | h in slots' && slots'[h].Item?
      ensures ChainOk(slots', h, slots'[h].it.chunks)
    {
      assert ChainOk(slots, h, slots[h].it.chunks);
    }
    forall y | y in slots' && slots'[y].Part?
      ensures InChain(slots', y, slots'[y].head)
    {
      assert y != n ==> InChain(slots, y, slots[y].head);
    }
  }

  // ---- Visiting the page ----

  /** The next chunk; at the end of the page the visit starts over if it has met a busy chunk, and the move is done
      otherwise. */
  function Advance(m: Mover, busy: bool, perslab: nat): Mover
    requires m.pos < perslab
  {
    var m := if busy then m.(busy := m.busy + 1) else m;
    if m.pos + 1 < perslab then m.(pos := m.pos + 1)
    else if m.busy > 0 then m.(pos := 0, busy := 0, loops := m.loops + 1)
    else m.(pos := m.pos + 1, done := true)
  }

  lemma AdvanceKeeps(s: State, s': State, busy: bool)
    requires Inv(s) && s.mover.Some? && !s.mover.value.done && s.pending.None? && s.mover.value.s < |s.perslab|
    requires s.mover.value.pos < s.perslab[s.mover.value.s]
    requires busy || ClearedAt(s.slots, Ref(s.mover.value.page, s.mover.value.pos))
    requires s' == s.(mover := Some(Advance(s.mover.value, busy, s.perslab[s.mover.value.s])))
    ensures Inv(s')
  {
    hide PagesOk, FreeOk, TableOk, ChunksOk;
  }

  lemma VisitAt(s: State)
    requires Inv(s) && s.mover.Some?
    ensures VisitOk(s.slots, s.lists, s.perslab, s.mover.value) && |s.free| == |s.lists| == |s.perslab|
    ensures s.mover.value.page in s.owner && s.owner[s.mover.value.page] == s.mover.value.s
    ensures forall i :: 0 <= i < s.perslab[s.mover.value.s] ==> Ref(s.mover.value.page, i) in s.slots
  {
    assert s.lists[s.mover.value.s][0] in s.lists[s.mover.value.s];
    hide TableOk, ChunksOk, VisitOk, FreeListOk;
    assert VisitOk(s.slots, s.lists, s.perslab, s.mover.value);
  }

  /** When the mover reports that it is done, every chunk of the page is cleared: none is linked, held, part of an
      item or on a free list. */
  lemma DoneMeansCleared(s: State, i: nat, c: nat)
    requires Inv(s) && s.mover.Some? && s.mover.value.done && s.mover.value.s < |s.perslab|
    requires i < s.perslab[s.mover.value.s] && c < |s.free|
    ensures ClearedAt(s.slots, Ref(s.mover.value.page, i)) && Ref(s.mover.value.page, i) !in s.free[c]
    ensures !LinkedAt(s.slots, Ref(s.mover.value.page, i)) && Holders(s, Ref(s.mover.value.page, i)) == 0
    ensures forall r :: r in s.slots && s.slots[r].Item? ==> Ref(s.mover.value.page, i) !in s.slots[r].it.chunks
    ensures forall k :: k in s.table ==> s.table[k] != Ref(s.mover.value.page, i)
  {
    assert FreeListOk(s.slots, s.owner, s.perslab, s.free[c], c);
    assert VisitOk(s.slots, s.lists, s.perslab, s.mover.value);
    hide PagesOk, PendingOk, NoRepeat;
    forall r | r in s.slots && s.slots[r].Item?
      ensures Ref(s.mover.value.page, i) !in s.slots[r].it.chunks
    {
      assert ChainOk(s.slots, r, s.slots[r].it.chunks);
    }
  }

  // ---- Who holds an item ----

  /** The references of other threads: not the link, and not those of the mover. */
  function Holders(s: State, r: Ref): int {
    if r in s.slots && s.slots[r].Item? then
      s.slots[r].it.refs - (if s.slots[r].it.linked then 1 else 0)
        - (if s.pending.Some? && s.pending.value.item == r then 1 else 0)
        - (if s.pending.Some? && s.pending.value.dest == Some(r) then 1 else 0)
    else 0
  }

  // ---- Values survive ----

  lemma ChainAt(s: State, k: Key)
    requires Inv(s) && k in s.table
    ensures LinkedAt(s.slots, s.table[k]) && s.slots[s.table[k]].it.key == k
    ensures forall x :: x in s.slots[s.table[k]].it.chunks ==>
              x in s.slots && s.slots[x].Part? && s.slots[x].head == s.table[k]
  {
    assert ChainOk(s.slots, s.table[k], s.slots[s.table[k]].it.chunks);
    hide PagesOk, FreeOk, MoverOk, PendingOk;
  }

  lemma CopiedValue(slots: map<Ref, Slot>, slots': map<Ref, Slot>, r: Ref, n: Ref, e: Entry, f: Entry, h: Ref)
    requires r in slots && n in slots && r != n && slots[r] == Item(e) && slots[n].Item?
    requires CopyOf(e, f)
    requires Copied(slots, slots', r, n, e, f)
    requires h in slots && slots[h].Item? && h != n
    requires forall x :: x in slots[h].it.chunks ==> x in slots && slots[x].Part?
    requires forall x :: x in e.chunks ==> x in slots && slots[x].Part?
    ensures
               var h' := if h == r then n else h;
               h' in slots' && slots'[h'].Item? && ValueAt(slots', h') == ValueAt(slots, h)
  {
    var c := slots[h].it.chunks;
    assert forall x :: x in slots' <==> x in slots'.Keys;
    forall j | 0 <= j < |c|
      ensures PartData(slots, c[j]) == PartData(slots', c[j])
    {
      assert c[j] in c;
    }
    JoinedSame(slots, slots', c, c);
  }

  lemma RescueItemValue(s: State, s': State, r: Ref, n: Ref, e: Entry, f: Entry, k: Key)
    requires Inv(s) && s.pending == Some(Pending(r, r, Some(n))) && r in s.slots && s.slots[r] == Item(e)
    requires CopyOf(e, f)
    requires s' == s.(slots := Repoint(s.slots[n := Item(f)], e.chunks, n)[r := Cleared],
               table := s.table[e.key := n], pending := None)
    ensures ValueOf(s', k) == ValueOf(s, k)
  {
    hide Inv, Repoint, ValueAt, Copied;
    PendingAt(s);
    CopiedIs(s.slots, r, n, e, f);
    LinkedKey(s, r);
    if k in s.table {
      ChainAt(s, k);
      CopiedValue(s.slots, s'.slots, r, n, e, f, s.table[k]);
    }
  }

  lemma LinkedKey(s: State, r: Ref)
    requires Inv(s) && LinkedAt(s.slots, r)
    ensures s.slots[r].it.key in s.table && s.table[s.slots[r].it.key] == r
  {
    hide PagesOk, FreeOk, MoverOk, PendingOk, ChunksOk;
  }

  lemma RescuePartValue(s: State, s': State, r: Ref, x: Ref, n: Ref, j: nat, e: Entry, k: Key)
    requires Inv(s) && s.pending == Some(Pending(r, x, Some(n))) && x != r && r in s.slots && s.slots[r] == Item(e)
    requires j < |e.chunks| && e.chunks[j] == x && x in s.slots
    requires s' == s.(slots := s.slots[n := Part(r, PartData(s.slots, x))][r := Item(e.(chunks := e.chunks[j := n],
               refs := 1))][x := Cleared], pending := None)
    ensures ValueOf(s', k) == ValueOf(s, k)
  {
    hide Inv, ValueAt;
    PendingAt(s);
    if k in s.table {
      ChainAt(s, k);
      PartDistinct(s, r, j);
      PartValue(s.slots, s'.slots, r, x, n, j, e, s.table[k]);
    }
  }

  lemma PartDistinct(s: State, r: Ref, j: nat)
    requires Inv(s) && r in s.slots && s.slots[r].Item? && j < |s.slots[r].it.chunks|
    ensures forall i :: 0 <= i < |s.slots[r].it.chunks| && i != j ==> s.slots[r].it.chunks[i] != s.slots[r].it.chunks[j]
  {
    assert ChainOk(s.slots, r, s.slots[r].it.chunks);
  }

  lemma PartValue(slots: map<Ref, Slot>, slots': map<Ref, Slot>, r: Ref, x: Ref, n: Ref, j: nat, e: Entry, h: Ref)
    requires r in slots && slots[r] == Item(e) && x in slots && slots[x].Part? && slots[x].head == r && n in slots
    requires slots[n] == Item(BLANK) && n != r && j < |e.chunks| && e.chunks[j] == x
    requires slots' == slots[n := Part(r, PartData(slots, x))][r := Item(e.(chunks := e.chunks[j := n],
               refs := 1))][x := Cleared]
    requires h in slots && slots[h].Item? && h != n
    requires forall y :: y in slots[h].it.chunks ==> y in slots && slots[y].Part? && slots[y].head == h
    requires forall i :: 0 <= i < |e.chunks| && i != j ==> e.chunks[i] != x
    ensures h in slots' && slots'[h].Item? && ValueAt(slots', h) == ValueAt(slots, h)
  {
    var c := slots[h].it.chunks;
    var c' := slots'[h].it.chunks;
    forall i | 0 <= i < |c|
      ensures PartData(slots, c[i]) == PartData(slots', c'[i])
    {
      assert c[i] in c;
    }
    JoinedSame(slots, slots', c, c');
  }

  // ---- Pages come and go ----

  /** A page is divided into free chunks (split_slab_page_into_freelist). */
  function Split(slots: map<Ref, Slot>, page: nat, n: nat): map<Ref, Slot> {
    if n == 0 then slots else Split(slots, page, n - 1)[Ref(page, n - 1) := Free]
  }

  function SplitFree(free: seq<Ref>, page: nat, n: nat): seq<Ref> {
    if n == 0 then free else [Ref(page, n - 1)] + SplitFree(free, page, n - 1)
  }

  lemma {:induction false} SplitIs(slots: map<Ref, Slot>, page: nat, n: nat)
    requires forall r :: r in slots ==> r.page != page
    ensures forall r :: r in Split(slots, page, n) <==> r in slots || (r.page == page && r.i < n)
    ensures forall r :: r in Split(slots, page, n) ==> Split(slots, page, n)[r] == if r.page == page then Free
              else slots[r]
  {
    if n > 0 {
      SplitIs(slots, page, n - 1);
      var rest := Split(slots, page, n - 1);
      forall r
        ensures r in Split(slots, page, n) <==> r in slots || (r.page == page && r.i < n)
      {
        assert r.page == page && r.i == n - 1 <==> r == Ref(page, n - 1);
      }
    }
  }

  lemma {:induction false} SplitFreeIs(free: seq<Ref>, page: nat, n: nat)
    requires NoRepeat(free) && forall r :: r in free ==> r.page != page
    ensures NoRepeat(SplitFree(free, page, n))
    ensures forall r :: r in SplitFree(free, page, n) <==> r in free || (r.page == page && r.i < n)
  {
    if n > 0 {
      SplitFreeIs(free, page, n - 1);
      forall r
        ensures r in SplitFree(free, page, n) <==> r in free || (r.page == page && r.i < n)
      {
        assert r.page == page && r.i == n - 1 <==> r == Ref(page, n - 1);
      }
    }
  }

  function AddPage(s: State, page: nat, c: nat): State
    requires c < |s.lists| == |s.perslab| == |s.free|
  {
    s.(slots := Split(s.slots, page, s.perslab[c]), owner := s.owner[page := c],
      lists := s.lists[c := s.lists[c] + [page]],
       free := s.free[c := SplitFree(s.free[c], page, s.perslab[c])])
  }

  lemma NoSlots(s: State, page: nat)
    requires PagesOk(s.slots, s.owner, s.lists, s.perslab) && page !in s.owner
    ensures forall r :: r in s.slots ==> r.page != page
  {
  }

  lemma AddPages(s: State, s': State, page: nat, c: nat)
    requires PagesOk(s.slots, s.owner, s.lists, s.perslab) && page !in s.owner
    requires c < |s.lists| == |s.perslab| == |s.free| && s' == AddPage(s, page, c)
    requires forall r :: r in s'.slots <==> r in s.slots || (r.page == page && r.i < s.perslab[c])
    ensures PagesOk(s'.slots, s'.owner, s'.lists, s'.perslab)
  {
    hide Split, SplitFree;
    forall d, p: nat | 0 <= d < |s'.lists|
      ensures p in s'.lists[d] <==> p in s'.owner && s'.owner[p] == d
    {
      assert p in s.lists[d] <==> p in s.owner && s.owner[p] == d;
    }
    forall d | 0 <= d < |s'.lists|
      ensures NoRepeat(s'.lists[d])
    {
      assert NoRepeat(s.lists[d]) && page !in s.lists[d];
    }
    forall r
      ensures r in s'.slots <==> r.page in s'.owner && InClass(s'.owner, s'.perslab, r, s'.owner[r.page])
    {
      assert r in s.slots <==> r.page in s.owner && InClass(s.owner, s.perslab, r, s.owner[r.page]);
    }
  }

  lemma AddFree(s: State, s': State, page: nat, c: nat)
    requires FreeOk(s.slots, s.owner, s.perslab, s.free) && page !in s.owner
    requires c < |s.lists| == |s.perslab| == |s.free| && s' == AddPage(s, page, c)
    requires forall r :: r in s.slots ==> r.page != page
    ensures FreeOk(s'.slots, s'.owner, s'.perslab, s'.free)
  {
    SplitIs(s.slots, page, s.perslab[c]);
    hide Split;
    forall d | 0 <= d < |s'.free|
      ensures FreeListOk(s'.slots, s'.owner, s'.perslab, s'.free[d], d)
    {
      assert FreeListOk(s.slots, s.owner, s.perslab, s.free[d], d);
      if d == c {
        SplitFreeIs(s.free[c], page, s.perslab[c]);
      }
    }
  }

  /** Another page for a class: do_slabs_newslab, and the end of a move. */
  lemma AddPageKeeps(s: State, page: nat, c: nat)
    requires Inv(s) && page !in s.owner && c < |s.lists| == |s.perslab| == |s.free|
    ensures Inv(AddPage(s, page, c))
  {
    var s' := AddPage(s, page, c);
    hide FreeOk, PagesOk, ChunksOk, TableOk, MoverOk, PendingOk;
    PagesPart(s);
    NoSlots(s, page);
    SplitIs(s.slots, page, s.perslab[c]);
    AddPages(s, s', page, c);
    TablePart(s);
    AddFree(s, s', page, c);
    hide Split, SplitFree;
    SameTable(s.slots, s'.slots, s.table);
    AddChunksPage(s.slots, s'.slots, page);
    AddMover(s, s', page, c);
  }

  lemma PagesPart(s: State)
    requires Inv(s)
    ensures PagesOk(s.slots, s.owner, s.lists, s.perslab) && MoverOk(s.slots, s.owner, s.lists, s.perslab, s.mover)
    ensures PendingOk(s.slots, s.owner, s.perslab, s.mover, s.pending)
  {
    hide PagesOk, MoverOk, PendingOk, FreeOk, TableOk, ChunksOk;
  }

  lemma AddChunksPage(slots: map<Ref, Slot>, slots': map<Ref, Slot>, page: nat)
    requires ChunksOk(slots) && forall r :: r in slots ==> r in slots' && slots'[r] == slots[r]
    requires forall r :: r in slots' && r !in slots ==> slots'[r].Free?
    ensures ChunksOk(slots')
  {
    forall h | h in slots' && slots'[h].Item?
      ensures ChainOk(slots', h, slots'[h].it.chunks)
    {
      assert ChainOk(slots, h, slots[h].it.chunks);
    }
    forall x | x in slots' && slots'[x].Part?
      ensures InChain(slots', x, slots'[x].head)
    {
      assert InChain(slots, x, slots[x].head);
    }
  }

  lemma AddMover(s: State, s': State, page: nat, c: nat)
    requires Inv(s) && page !in s.owner && c < |s.lists| && s'.lists == s.lists[c := s.lists[c] + [page]]
    requires s'.perslab == s.perslab && s'.owner == s.owner[page := c]
    requires forall r :: r in s.slots ==> r in s'.slots && s'.slots[r] == s.slots[r]
    requires forall r :: r in s'.slots && r !in s.slots ==> s'.slots[r].Free?
    requires s'.mover == s.mover && s'.pending == s.pending
    ensures MoverOk(s'.slots, s'.owner, s'.lists, s'.perslab, s'.mover)
    ensures PendingOk(s'.slots, s'.owner, s'.perslab, s'.mover, s'.pending)
  {
    hide PagesOk, FreeOk, TableOk, ChunksOk;
    PagesPart(s);
    hide Inv;
    assert forall r :: ClearedAt(s'.slots, r) == ClearedAt(s.slots, r);
    AddPending(s, s', page, c);
    hide PendingOk, ClearedAt;
  }

  lemma AddPending(s: State, s': State, page: nat, c: nat)
    requires PendingOk(s.slots, s.owner, s.perslab, s.mover, s.pending) && page !in s.owner
    requires s'.perslab == s.perslab && s'.owner == s.owner[page := c]
    requires forall r :: r in s.slots ==> r in s'.slots && s'.slots[r] == s.slots[r]
    requires s'.mover == s.mover && s'.pending == s.pending
    ensures PendingOk(s'.slots, s'.owner, s'.perslab, s'.mover, s'.pending)
  {
  }

  /** The end of a move takes the cleared page from its class. */
  function DropPage(s: State): State
    requires s.mover.Some? && s.mover.value.s < |s.lists| && s.lists[s.mover.value.s] != []
  {
    var m := s.mover.value;
    s.(slots := map r | r in s.slots &&
      r.page != m.page :: s.slots[r],
    owner := s.owner - {m.page}, lists := s.lists[m.s := s.lists[m.s][1..]], mover := None)
  }

  lemma DropPages(s: State, s': State)
    requires PagesOk(s.slots, s.owner, s.lists, s.perslab) && s.mover.Some? && s.mover.value.s < |s.lists|
    requires s.lists[s.mover.value.s] != []
    requires s.lists[s.mover.value.s][0] == s.mover.value.page && s' == DropPage(s)
    ensures PagesOk(s'.slots, s'.owner, s'.lists, s'.perslab)
  {
    var m := s.mover.value;
    assert s.lists[m.s] == [m.page] + s.lists[m.s][1..];
    forall d, p: nat | 0 <= d < |s'.lists|
      ensures p in s'.lists[d] <==> p in s'.owner && s'.owner[p] == d
    {
      assert p in s.lists[d] <==> p in s.owner && s.owner[p] == d;
      assert m.page in s.lists[m.s];
    }
    forall d | 0 <= d < |s'.lists|
      ensures NoRepeat(s'.lists[d])
    {
      assert NoRepeat(s.lists[d]);
    }
    forall r
      ensures r in s'.slots <==> r.page in s'.owner && InClass(s'.owner, s'.perslab, r, s'.owner[r.page])
    {
      assert r in s.slots <==> r.page in s.owner && InClass(s.owner, s.perslab, r, s.owner[r.page]);
    }
  }

  lemma DropKeeps(s: State)
    requires Inv(s) && s.mover.Some? && s.mover.value.done && s.pending.None? && s.mover.value.s < |s.lists|
    requires s.lists[s.mover.value.s] != []
    ensures Inv(DropPage(s)) && s.mover.value.page !in DropPage(s).owner
  {
    VisitAt(s);
    PagesPart(s);
    var s' := DropPage(s);
    var m := s.mover.value;
    PageCleared(s);
    hide FreeOk, PagesOk, ChunksOk, TableOk, MoverOk, PendingOk, VisitOk;
    assert m.page == s.lists[m.s][0] by {
      VisitHead(s);
    }
    DropPages(s, s');
    TablePart(s);
    DropFree(s, s');
    SameTable(s.slots, s'.slots, s.table);
    DropChunks(s, s');
    assert MoverOk(s'.slots, s'.owner, s'.lists, s'.perslab, s'.mover) &&
             PendingOk(s'.slots, s'.owner, s'.perslab, s'.mover, s'.pending) by {
      DropMover(s, s');
    }
  }

  lemma VisitClasses(s: State)
    requires Inv(s) && s.mover.Some?
    ensures s.mover.value.d < |s.lists| && s.mover.value.s != s.mover.value.d
  {
    hide PagesOk, FreeOk, TableOk, ChunksOk, PendingOk;
  }

  lemma VisitHead(s: State)
    requires Inv(s) && s.mover.Some?
    ensures s.mover.value.s < |s.lists| && |s.lists[s.mover.value.s]| >= 2
    ensures s.mover.value.page == s.lists[s.mover.value.s][0]
  {
    hide PagesOk, FreeOk, TableOk, ChunksOk, PendingOk;
  }

  lemma PageCleared(s: State)
    requires Inv(s) && s.mover.Some? && s.mover.value.done
    ensures forall r :: r in s.slots && r.page == s.mover.value.page ==> s.slots[r].Cleared?
  {
    VisitAt(s);
    forall r | r in s.slots && r.page == s.mover.value.page
      ensures s.slots[r].Cleared?
    {
      InSlots(s, r);
      assert r == Ref(s.mover.value.page, r.i);
      assert ClearedAt(s.slots, Ref(s.mover.value.page, r.i));
    }
  }

  lemma DropFree(s: State, s': State)
    requires FreeOk(s.slots, s.owner, s.perslab, s.free) && s.mover.Some? && s.mover.value.s < |s.lists|
    requires s.lists[s.mover.value.s] != [] && s' == DropPage(s)
    requires forall r :: r in s.slots && r.page == s.mover.value.page ==> s.slots[r].Cleared?
    ensures FreeOk(s'.slots, s'.owner, s'.perslab, s'.free)
  {
    forall d | 0 <= d < |s'.free|
      ensures FreeListOk(s'.slots, s'.owner, s'.perslab, s'.free[d], d)
    {
      assert FreeListOk(s.slots, s.owner, s.perslab, s.free[d], d);
    }
  }

  lemma DropChunks(s: State, s': State)
    requires ChunksOk(s.slots) && s.mover.Some? && s.mover.value.s < |s.lists| && s.lists[s.mover.value.s] != []
    requires s' == DropPage(s)
    requires forall r :: r in s.slots && r.page == s.mover.value.page ==> s.slots[r].Cleared?
    ensures ChunksOk(s'.slots)
  {
    forall h | h in s'.slots && s'.slots[h].Item?
      ensures ChainOk(s'.slots, h, s'.slots[h].it.chunks)
    {
      assert ChainOk(s.slots, h, s.slots[h].it.chunks);
    }
    forall x | x in s'.slots && s'.slots[x].Part?
      ensures InChain(s'.slots, x, s'.slots[x].head)
    {
      assert InChain(s.slots, x, s.slots[x].head);
    }
  }

  lemma DropMover(s: State, s': State)
    requires MoverOk(s.slots, s.owner, s.lists, s.perslab, s.mover) && s.mover.Some? && s.mover.value.s < |s.lists|
    requires s.lists[s.mover.value.s] != [] && s' == DropPage(s)
    requires s.pending.None?
    ensures MoverOk(s'.slots, s'.owner, s'.lists, s'.perslab, s'.mover)
    ensures PendingOk(s'.slots, s'.owner, s'.perslab, s'.mover, s'.pending)
  {
    assert forall r :: ClearedAt(s'.slots, r) ==> ClearedAt(s.slots, r);
  }

  // ---- Giving an item up ----

  /** An item for which there is no room, or no reason, leaves the table and goes back to the free lists. */
  lemma EvictKeeps(s: State, s': State, r: Ref, e: Entry, refs: seq<Ref>)
    requires Inv(s) && s.pending.Some? && s.pending.value.item == r && s.pending.value.dest.None? && r in s.slots
    requires s.slots[r] == Item(e)
    requires refs == [r] + e.chunks && forall x :: x in refs ==> x.page in s.owner && s.owner[x.page] < |s.free|
    requires s' == s.(slots := Release(s.slots[r := Item(e.(linked := false, refs := 1))], refs),
               free := PushAll(s.free, s.owner, refs), table := s.table - {e.key}, pending := None)
    ensures Inv(s')
  {
    hide Inv, Release, PushAll;
    PendingAt(s);
    LetGo(s);
    var t := s.(pending := None);
    var u := t.(slots := s.slots[r := Item(e.(linked := false, refs := 1))], table := s.table - {e.key});
    UnlinkKeeps(t, u, r);
    FreeItemKeeps(u, s', r, refs);
  }

  lemma EvictValue(s: State, s': State, r: Ref, e: Entry, refs: seq<Ref>, k: Key)
    requires Inv(s) && LinkedAt(s.slots, r) && s.slots[r] == Item(e) && refs == [r] + e.chunks && k != e.key
    requires s'.slots == Release(s.slots[r := Item(e.(linked := false, refs := 1))], refs)
    requires s'.table == s.table - {e.key}
    ensures ValueOf(s', k) == ValueOf(s, k)
  {
    hide Inv, ValueAt, Release;
    LinkedKey(s, r);
    ChainAt(s, e.key);
    var slots1 := s.slots[r := Item(e.(linked := false, refs := 1))];
    assert slots1.Keys == s.slots.Keys;
    ReleaseIs(slots1, refs);
    if k in s.table {
      ChainAt(s, k);
      var h := s.table[k];
      assert h !in refs;
      OthersValue(s.slots, s'.slots, h);
    }
  }

  lemma OthersValue(slots: map<Ref, Slot>, slots': map<Ref, Slot>, h: Ref)
    requires h in slots && slots[h].Item? && h in slots' && slots'[h] == slots[h]
    requires forall x :: x in slots[h].it.chunks ==> x in slots && x in slots' && slots'[x] == slots[x]
    ensures ValueAt(slots', h) == ValueAt(slots, h)
  {
    var c := slots[h].it.chunks;
    forall j | 0 <= j < |c|
      ensures PartData(slots, c[j]) == PartData(slots', c[j])
    {
      assert c[j] in c;
    }
    JoinedSame(slots, slots', c, c);
  }

  // ---- The slab classes ----

  datatype Clock = Clock(now: nat, oldestLive: nat)

  predicate Past(e: Entry, t: Clock) {
    (e.exptime != 0 && e.exptime < t.now) || (t.oldestLive != 0 && t.oldestLive <= t.now && e.time <= t.oldestLive)
  }

  /** Only free chunks have changed. */
  ghost predicate Preserved(slots: map<Ref, Slot>, slots': map<Ref, Slot>) {
    forall x :: x in slots && !slots[x].Free? ==> x in slots' && slots'[x] == slots[x]
  }

  lemma PreservedSame(slots: map<Ref, Slot>)
    ensures Preserved(slots, slots)
  {
  }

  lemma PreservedMore(slots: map<Ref, Slot>, slots': map<Ref, Slot>, n: Ref, x: Slot)
    requires Preserved(slots, slots') && FreeAt(slots', n)
    ensures Preserved(slots, slots'[n := x])
  {
  }

  /** Chunks of the page, other than the one being visited, that have been cleared. */
  ghost predicate Popped(slots: map<Ref, Slot>, m: Mover, n: nat, popped: set<nat>) {
    forall i :: i in popped ==> i < n && i != m.pos && ClearedAt(slots, Ref(m.page, i))
  }

  lemma PoppedNone(slots: map<Ref, Slot>, m: Mover, n: nat)
    ensures Popped(slots, m, n, {})
  {
  }

  lemma PoppedMore(slots: map<Ref, Slot>, m: Mover, n: nat, popped: set<nat>, r: Ref)
    requires Popped(slots, m, n, popped) && FreeAt(slots, r) && r.page == m.page && r.i < n && m.pos < n
    requires r != Ref(m.page, m.pos)
    ensures Popped(slots[r := Cleared], m, n, popped + {r.i}) && |popped + {r.i}| == |popped| + 1 < n
  {
    assert r == Ref(m.page, r.i) && r.i !in popped;
    SmallSet(popped + {r.i} + {m.pos}, n);
  }

  lemma PoppedSame(slots: map<Ref, Slot>, m: Mover, n: nat, popped: set<nat>, r: Ref, x: Slot)
    requires Popped(slots, m, n, popped) && FreeAt(slots, r)
    ensures Popped(slots[r := x], m, n, popped)
  {
  }

  class Slabs {
    var slots: map<Ref, Slot>
    var owner: map<nat, nat>
    var lists: seq<seq<nat>>
    var perslab: seq<nat>
    var free: seq<seq<Ref>>
    var table: map<Key, Ref>
    var mover: Option<Mover>
    var pending: Option<Pending>
    // The run so far, one state for every critical section.
    ghost const classes: seq<nat>
    ghost var history: seq<State>
    ghost var actions: seq<Action>

    ghost function St(): State
      reads this
    {
      State(slots, owner, lists, perslab, free, table, mover, pending)
    }

    ghost predicate Valid()
      reads this
    {
      Inv(St()) && Logged(St())
    }

    /** The run so far has led to `s`. */
    ghost predicate Logged(s: State)
      reads this`history, this`actions
    {
      Run(classes, history, actions) && history[|history| - 1] == s
    }

    /** slabs_init: no pages yet; `perslab` says how many chunks a page of each class is divided into, class 0 being the
        pool of whole pages. */
    constructor (perslab: seq<nat>)
      requires ClassesOk(perslab)
      ensures Valid() && this.perslab == perslab && owner == map[] && table == map[] && mover.None? && pending.None?
    {
      slots, owner, table, mover, pending := map[], map[], map[], None, None;
      this.perslab := perslab;
      lists, free := seq(|perslab|, _ => []), seq(|perslab|, _ => []);
      classes, history, actions := perslab, [Blank(perslab)], [];
      new;
      BlankOk(perslab);
    }

    /** The critical section just left joins the run. */
    ghost method Record(s: State, a: Action)
      requires Logged(s) && Next(s, a, St())
      modifies this`history, this`actions
      ensures Logged(St()) && St() == old(St()) && Next(s, a, St())
      ensures history == old(history) + [St()] && actions == old(actions) + [a]
    {
      hide WorkerNext, MoverNext;
      history, actions := history + [St()], actions + [a];
    }

    /** slab_rebalance_start; `grown` says whether the list of the receiving class has room for one more page. */
    method Start(s: nat, d: nat, grown: bool) returns (code: int)
      requires Valid() && mover.None?
      modifies this`mover, this`history, this`actions
      ensures Valid()
      ensures code == if s >= |lists| || |lists[s]| < 2 then -3 else if !grown then -1
                      else if s == 0 || d >= |lists| || s == d then -2 else 0
      ensures code == 0 ==>
                mover == Some(Mover(s, d, lists[s][0], 0, 0, 0, false)) && MoverNext(old(St()), Begin(s, d), St())
      ensures code != 0 ==> mover.None?
    {
      hide Inv, Logged;
      if s >= |lists| || |lists[s]| < 2 {
        return -3;
      }
      if !grown {
        return -1;
      }
      if s == 0 || d >= |lists| || s == d {
        return -2;
      }
      ghost var st := St();
      mover := Some(Mover(s, d, lists[s][0], 0, 0, 0, false));
      StartKeeps(st, St(), s, d);
      Record(st, Begin(s, d));
      return 0;
    }

    /** slab_rebalance_alloc: a free chunk outside the page, clearing the chunks of the page that come up. There is
        none only when the free list has run out. The chunk leaves the free list when the item is locked, in the
        same section. */
    method RebalanceAlloc() returns (r: Option<Ref>)
      requires Valid() && mover.Some? && !mover.value.done && pending.None? && mover.value.s < |perslab| == |free|
      requires mover.value.pos < perslab[mover.value.s] && Ref(mover.value.page, mover.value.pos) in slots
      requires !slots[Ref(mover.value.page, mover.value.pos)].Free?
      modifies this`slots, this`free, this`history, this`actions
      ensures Valid() && |free| == |perslab|
      ensures r.Some? ==> DestFree(St(), r.value)
      ensures r.None? ==> free[mover.value.s] == []
      ensures Preserved(old(slots), slots)
    {
      hide Inv, Logged, Without, Preserved, Popped;
      var m := mover.value;
      ghost var target := Ref(m.page, m.pos);
      r := None;
      var x := 0;
      PreservedSame(slots);
      ghost var popped: set<nat> := {};
      PoppedNone(slots, m, perslab[m.s]);
      while x < perslab[m.s] && free[m.s] != [] && r.None?
        invariant Valid() && |free| == |perslab| && mover == Some(m)
        invariant Preserved(old(slots), slots) && target in slots && !slots[target].Free?
        invariant r.Some? ==> DestFree(St(), r.value)
        invariant Popped(slots, m, perslab[m.s], popped)
        invariant r.None? ==> |popped| == x < perslab[m.s]
        invariant x <= perslab[m.s]
      {
        var n := free[m.s][0];
        ghost var before := slots;
        if n.page == m.page {
          Clear(0);
          PreservedMore(old(slots), before, n, Cleared);
          PoppedMore(before, m, perslab[m.s], popped, n);
          popped := popped + {n.i};
        } else {
          r := Some(n);
        }
        x := x + 1;
      }
    }

    /** The chunk at place `k` of the free list of the moving class, one of the page, is cleared. */
    method Clear(k: nat)
      requires Valid() && mover.Some? && pending.None? && mover.value.s < |free| && k < |free[mover.value.s]|
      requires free[mover.value.s][k].page == mover.value.page
      modifies this`slots, this`free, this`history, this`actions
      ensures Valid() && |free| == |old(free)|
      ensures MoverNext(old(St()), ClearFree(k), St())
      ensures var n := old(free)[mover.value.s][k];
              && FreeAt(old(slots), n)
              && InClass(owner, perslab, n, mover.value.s)
              && slots == old(slots)[n := Cleared]
    {
      hide Inv, Logged, Without;
      ghost var s := St();
      var c := mover.value.s;
      var n := free[c][k];
      ListedAt(s, c, k);
      free := free[c := Without(free[c], k)];
      slots := slots[n := Cleared];
      ClearKeeps(s, St(), k, n);
      Record(s, ClearFree(k));
    }

    /** do_slabs_alloc from the free list. */
    method AllocChunk(c: nat) returns (n: Ref)
      requires Valid() && c < |free| && free[c] != []
      modifies this`slots, this`free, this`history, this`actions
      ensures Valid() && |free| == |old(free)| && n == old(free)[c][0] && WorkerNext(old(St()), Alloc(c), St())
      ensures FreeAt(old(slots), n) && InClass(owner, perslab, n, c) && slots == old(slots)[n := Item(BLANK)]
    {
      hide Inv, Logged, Without;
      ghost var s := St();
      n := free[c][0];
      ListedAt(s, c, 0);
      free := free[c := Without(free[c], 0)];
      slots := slots[n := Item(BLANK)];
      TakeKeeps(s, c);
      Record(s, Alloc(c));
    }

    /** The mover goes on to the next chunk. */
    method Step(busy: bool)
      requires Valid() && mover.Some? && !mover.value.done && pending.None? && mover.value.s < |perslab|
      requires mover.value.pos < perslab[mover.value.s]
      requires busy || ClearedAt(slots, Ref(mover.value.page, mover.value.pos))
      modifies this`mover, this`history, this`actions
      ensures Valid() && mover == Some(Advance(old(mover).value, busy, perslab[old(mover).value.s]))
      ensures MoverNext(old(St()), Action.Step(busy), St())
    {
      hide Inv, Logged, Advance;
      ghost var s := St();
      mover := Some(Advance(mover.value, busy, perslab[mover.value.s]));
      AdvanceKeeps(s, St(), busy);
      Record(s, Action.Step(busy));
    }

    /** slab_rebalance_move on one chunk, up to where it lets go of the slabs lock: cleared chunks are passed, free
        ones cleared, busy ones counted; an item that nobody holds is locked, with a chunk to copy it to if it is
        worth saving and there is one. */
    method Visit(lockFree: bool, t: Clock)
      requires Valid() && mover.Some? && !mover.value.done && pending.None?
      modifies this
      ensures Valid() && (pending.Some? ==> mover == old(mover))
      ensures pending.Some? && pending.value.dest.None? ==>
                && pending.value.item in slots
                && slots[pending.value.item].Item?
                && (Past(slots[pending.value.item].it, t) || (mover.value.s < |free| && free[mover.value.s] == []))
      ensures forall r :: ClearedAt(old(slots), r) ==> ClearedAt(slots, r)
      ensures table == old(table) || (old(mover).value.loops > MAX_LOOPS &&
                 exists r :: LinkedAt(old(slots), r) && old(slots)[r].it.refs > 1 &&
                   table == old(table) - {old(slots)[r].it.key})
    {
      hide Inv, Logged, VisitOk, Advance;
      VisitAt(St());
      VisitBounds(St());
      var m := mover.value;
      var target := Ref(m.page, m.pos);
      match slots[target]
      case Cleared =>
        Step(false);
      case Free =>
        FreeListed(St(), target);
        var k := 0;
        while free[m.s][k] != target
          invariant k < |free[m.s]| && target in free[m.s][k..]
          decreases |free[m.s]| - k
        {
          k := k + 1;
        }
        Clear(k);
        Step(false);
      case Item(_) =>
        Examine(target, lockFree, t);
      case Part(h, _) =>
        PartHead(St(), target);
        Examine(h, lockFree, t);
    }

    /** The item is locked and held for the chunk being visited, and the place to copy it to, if there is one,
        leaves the free list (do_slabs_alloc). */
    method Lock(p: Pending)
      requires Valid() && mover.Some? && !mover.value.done && pending.None?
      requires p.target == Ref(mover.value.page, mover.value.pos) && LinkedAt(slots, p.item) &&
                 slots[p.item].it.refs == 1
      requires Behind(slots, p.target, p.item)
      requires p.dest.Some? ==> DestFree(St(), p.dest.value)
      modifies this`slots, this`free, this`pending, this`history, this`actions
      ensures Valid() && St() == LockedFor(old(St()), p) && MoverNext(old(St()), LockItem(p), St())
      ensures forall r :: ClearedAt(old(slots), r) ==> ClearedAt(slots, r)
    {
      hide Inv, Logged, Without;
      ghost var s := St();
      var e := slots[p.item].it;
      if p.dest.Some? {
        var c := mover.value.s;
        ListedAt(s, c, 0);
        slots := slots[p.dest.value := Item(BLANK)];
        free := free[c := Without(free[c], 0)];
      }
      slots := slots[p.item := Item(e.(refs := 2))];
      pending := Some(p);
      LockKeeps(s, p);
      Record(s, LockItem(p));
    }

    /** A busy item behind the chunk being visited, met too often, is unlinked. */
    method Drop(item: Ref)
      requires Valid() && mover.Some? && !mover.value.done && pending.None? && mover.value.loops > MAX_LOOPS
      requires LinkedAt(slots, item) && slots[item].it.refs > 1
      requires Behind(slots, Ref(mover.value.page, mover.value.pos), item)
      modifies this`slots, this`table, this`history, this`actions
      ensures Valid() && MoverNext(old(St()), DropBusy(item), St())
      ensures slots == old(slots)[item := Item(old(slots)[item].it.(linked := false,
                refs := old(slots)[item].it.refs - 1))]
      ensures table == old(table) - {old(slots)[item].it.key}
    {
      hide Inv, Logged;
      ghost var s := St();
      table := table - {slots[item].it.key};
      slots := slots[item := Item(slots[item].it.(linked := false, refs := slots[item].it.refs - 1))];
      UnlinkKeeps(s, St(), item);
      Record(s, DropBusy(item));
    }

    /** The item behind the chunk being visited. */
    method Examine(item: Ref, lockFree: bool, t: Clock)
      requires Valid() && mover.Some? && !mover.value.done && pending.None? && mover.value.s < |perslab| == |free|
      requires mover.value.pos < perslab[mover.value.s]
      requires item in slots && slots[item].Item?
      requires Ref(mover.value.page, mover.value.pos) in slots &&
                 Behind(slots, Ref(mover.value.page, mover.value.pos), item)
      modifies this
      ensures Valid() && (pending.Some? ==> mover == old(mover))
      ensures pending.Some? && pending.value.dest.None? ==>
                && pending.value.item in slots
                && slots[pending.value.item].Item?
                && (Past(slots[pending.value.item].it, t) || (mover.value.s < |free| && free[mover.value.s] == []))
      ensures forall r :: ClearedAt(old(slots), r) ==> ClearedAt(slots, r)
      ensures table == old(table) || (old(mover).value.loops > MAX_LOOPS && LinkedAt(old(slots), item) &&
                old(slots)[item].it.refs > 1 && table == old(table) - {old(slots)[item].it.key})
    {
      hide Inv, Logged, VisitOk, Advance;
      var m := mover.value;
      var e := slots[item].it;
      if !e.linked || !lockFree {
        Step(true);
      } else if e.refs == 1 {
        var dest := None;
        if !Past(e, t) {
          dest := RebalanceAlloc();
          assert item in slots && slots[item] == Item(e);
        }
        Lock(Pending(item, Ref(m.page, m.pos), dest));
      } else {
        if m.loops > MAX_LOOPS {
          LinkedRefs(St(), item);
          Drop(item);
        }
        Step(true);
      }
    }

    /** slab_rebalance_move after the slabs lock was dropped: the locked item, or the chunk of it, is copied and its old
        place cleared; without a place to copy to, the item is freed and its chunk counted busy. */
    method Complete(now: nat, cas: nat)
      requires Valid() && pending.Some? && pending.value.item in slots && slots[pending.value.item].Item?
      modifies this
      ensures Valid() && pending.None?
      ensures forall k :: old(pending).value.dest.Some? || k != old(slots)[old(pending).value.item].it.key ==>
                ValueOf(St(), k) == ValueOf(old(St()), k)
      ensures old(pending).value.dest.None? ==> old(slots)[old(pending).value.item].it.key !in table
    {
      hide Inv, Logged, VisitOk, Advance, ValueOf;
      PendingAt(St());
      VisitBounds(St());
      var p := pending.value;
      var e := slots[p.item].it;
      match p.dest
      case Some(n) =>
        if p.target == p.item {
          CopyItem(n, now, cas);
        } else {
          CopyPart(n);
        }
        StepValue(St());
        Step(false);
      case None =>
        GiveUp();
        StepValue(St());
        Step(true);
    }

    /** The copy is linked with a new time and a new CAS. */
    method CopyItem(n: Ref, now: nat, cas: nat)
      requires Valid() && pending.Some? && pending.value.target == pending.value.item
      requires pending.value.dest == Some(n) && pending.value.item in slots && slots[pending.value.item].Item?
      modifies this`slots, this`table, this`pending, this`history, this`actions
      ensures Valid() && pending.None? && ClearedAt(slots, old(pending).value.target) &&
                MoverNext(old(St()), Copy(now, cas), St())
      ensures forall k :: ValueOf(St(), k) == ValueOf(old(St()), k)
    {
      hide Inv, Logged, ValueOf, Repoint;
      ghost var s := St();
      var r := pending.value.item;
      var e := slots[r].it;
      var f := e.(refs := 1, time := now, cas := cas);
      slots := slots[n := Item(f)];
      slots := Repoint(slots, e.chunks, n);
      table := table[e.key := n];
      slots := slots[r := Cleared];
      pending := None;
      RescueItemKeeps(s, St(), r, n, e, f);
      Record(s, Copy(now, cas));
      forall k
        ensures ValueOf(St(), k) == ValueOf(s, k)
      {
        RescueItemValue(s, St(), r, n, e, f, k);
      }
    }

    method CopyPart(n: Ref)
      requires Valid() && pending.Some? && pending.value.target != pending.value.item
      requires pending.value.dest == Some(n) && pending.value.item in slots && slots[pending.value.item].Item?
      modifies this`slots, this`pending, this`history, this`actions
      ensures Valid() && pending.None? && ClearedAt(slots, old(pending).value.target)
      ensures exists j: nat :: MoverNext(old(St()), CopyChunk(j), St())
      ensures forall k :: ValueOf(St(), k) == ValueOf(old(St()), k)
    {
      hide Inv, Logged, ValueOf;
      ghost var s := St();
      PendingAt(s);
      var r, x := pending.value.item, pending.value.target;
      var e := slots[r].it;
      var j := 0;
      while e.chunks[j] != x
        invariant j < |e.chunks| && x in e.chunks[j..]
        decreases |e.chunks| - j
      {
        j := j + 1;
      }
      slots := slots[n := Part(r, PartData(slots, x))][r := Item(e.(chunks := e.chunks[j := n],
        refs := 1))][x := Cleared];
      pending := None;
      RescuePartKeeps(s, St(), r, x, n, j, e);
      Record(s, CopyChunk(j));
      forall k
        ensures ValueOf(St(), k) == ValueOf(s, k)
      {
        RescuePartValue(s, St(), r, x, n, j, e, k);
      }
    }

    method GiveUp()
      requires Valid() && pending.Some? && pending.value.dest.None? && pending.value.item in slots
      requires slots[pending.value.item].Item?
      modifies this`slots, this`table, this`pending, this`free, this`history, this`actions
      ensures Valid() && pending.None? && old(slots)[old(pending).value.item].it.key !in table
      ensures MoverNext(old(St()), GiveUpItem, St())
      ensures forall k :: k != old(slots)[old(pending).value.item].it.key ==> ValueOf(St(), k) == ValueOf(old(St()), k)
    {
      hide Inv, Logged, ValueOf, Release, PushAll;
      ghost var s := St();
      PendingAt(s);
      var r := pending.value.item;
      var e := slots[r].it;
      var refs := [r] + e.chunks;
      RefsOwned(s, r, refs);
      table := table - {e.key};
      slots := slots[r := Item(e.(linked := false, refs := 1))];
      slots := Release(slots, refs);
      free := PushAll(free, owner, refs);
      pending := None;
      EvictKeeps(s, St(), r, e, refs);
      Record(s, GiveUpItem);
      forall k | k != e.key
        ensures ValueOf(St(), k) == ValueOf(s, k)
      {
        EvictValue(s, St(), r, e, refs, k);
      }
    }

    /** slab_rebalance_finish: the cleared page leaves the front of its class's list and joins the end of the
        other's, divided into free chunks unless it goes to the pool of pages. */
    method Finish()
      requires Valid() && mover.Some? && mover.value.done && pending.None?
      modifies this
      ensures MoverNext(old(St()), End, St())
      ensures Valid() && mover.None? && table == old(table) && forall k :: ValueOf(St(), k) == ValueOf(old(St()), k)
      ensures old(mover).value.s < |old(lists)| && old(mover).value.d < |old(lists)|
      ensures old(mover).value.s != old(mover).value.d && old(lists)[old(mover).value.s] != []
      ensures var m := old(mover).value;
              lists == old(lists)[m.s := old(lists)[m.s][1..]][m.d := old(lists)[m.d] + [m.page]]
    {
      hide Inv, Logged, ValueOf, Split, SplitFree, VisitOk;
      ghost var s := St();
      VisitAt(s);
      VisitHead(s);
      VisitClasses(s);
      DropKeeps(s);
      var m := mover.value;
      slots := map r | r in slots && r.page != m.page :: slots[r];
      owner := owner - {m.page};
      lists := lists[m.s := lists[m.s][1..]];
      mover := None;
      ghost var s1 := St();
      assert s1 == DropPage(s);
      hide DropPage;
      AddPageKeeps(s1, m.page, m.d);
      Divide(m.page, m.d);
      EndNext(s, St());
      Record(s, End);
      forall k
        ensures ValueOf(St(), k) == ValueOf(s, k)
      {
        FinishValue(s, s1, St(), m.page, m.d, k);
      }
    }

    // ---- What the other threads do between the mover's sections ----

    /** do_slabs_newslab. */
    method NewPage(page: nat, c: nat)
      requires Valid() && page !in owner && c < |lists| == |perslab| == |free|
      modifies this
      ensures Valid() && St() == AddPage(old(St()), page, c)
    {
      hide Inv, Logged, AddPage;
      ghost var s := St();
      AddPageKeeps(s, page, c);
      Divide(page, c);
      Record(s, NewSlab(page, c));
    }

    /** The page goes to the end of the list of the class and its chunks to the free list. */
    method Divide(page: nat, c: nat)
      requires c < |lists| == |perslab| == |free|
      modifies this`slots, this`free, this`owner, this`lists
      ensures St() == AddPage(old(St()), page, c)
    {
      hide Split, SplitFree;
      slots := Split(slots, page, perslab[c]);
      free := free[c := SplitFree(free[c], page, perslab[c])];
      owner := owner[page := c];
      lists := lists[c := lists[c] + [page]];
    }

    /** slabs_free of an item without link or reference. */
    method FreeItem(r: Ref)
      requires Valid() && r in slots && slots[r].Item? && !slots[r].it.linked && slots[r].it.refs == 0
      requires !Reserved(pending, r)
      modifies this`slots, this`free, this`history, this`actions
      ensures Valid() && slots == Release(old(slots), [r] + old(slots)[r].it.chunks) &&
                WorkerNext(old(St()), FreeAll(r), St())
    {
      hide Inv, Logged, Release, PushAll;
      ghost var s := St();
      var refs := [r] + slots[r].it.chunks;
      RefsOwned(s, r, refs);
      slots := Release(slots, refs);
      free := PushAll(free, owner, refs);
      FreeItemKeeps(s, St(), r, refs);
      Record(s, FreeAll(r));
    }

    /** Filling in an item that is not linked, or a change to the references or times of one that is. */
    method Edit(r: Ref, e: Entry)
      requires Valid() && r in slots && slots[r].Item? && !Reserved(pending, r)
      requires e.linked == slots[r].it.linked && e.chunks == slots[r].it.chunks
      requires (e.linked ==> e.key == slots[r].it.key && 0 < e.refs)
      modifies this`slots, this`history, this`actions
      ensures Valid() && slots == old(slots)[r := Item(e)]
    {
      hide Inv, Logged;
      ghost var s := St();
      slots := slots[r := Item(e)];
      EditKeeps(s, St(), r, e);
      Record(s, Change(r, e));
    }

    method LinkItem(r: Ref)
      requires Valid() && r in slots && slots[r].Item? && !slots[r].it.linked && slots[r].it.key !in table
      requires !Reserved(pending, r)
      modifies this`slots, this`table, this`history, this`actions
      ensures Valid() && table == old(table)[old(slots)[r].it.key := r]
      ensures slots == old(slots)[r := Item(old(slots)[r].it.(linked := true, refs := old(slots)[r].it.refs + 1))]
    {
      hide Inv, Logged;
      ghost var s := St();
      table := table[slots[r].it.key := r];
      slots := slots[r := Item(slots[r].it.(linked := true, refs := slots[r].it.refs + 1))];
      LinkKeeps(s, St(), r);
      Record(s, Join(r));
    }

    method UnlinkItem(r: Ref)
      requires Valid() && LinkedAt(slots, r) && !Reserved(pending, r)
      modifies this`slots, this`table, this`history, this`actions
      ensures Valid() && table == old(table) - {old(slots)[r].it.key}
      ensures 0 < old(slots)[r].it.refs
      ensures slots == old(slots)[r := Item(old(slots)[r].it.(linked := false, refs := old(slots)[r].it.refs - 1))]
    {
      hide Inv, Logged;
      ghost var s := St();
      LinkedRefs(s, r);
      table := table - {slots[r].it.key};
      slots := slots[r := Item(slots[r].it.(linked := false, refs := slots[r].it.refs - 1))];
      UnlinkKeeps(s, St(), r);
      Record(s, Leave(r));
    }

    /** do_item_alloc_chunk. */
    method AddChunk(h: Ref, c: nat)
      requires Valid() && c < |free| && free[c] != [] && h in slots && slots[h].Item? && !slots[h].it.linked
      requires !Reserved(pending, h)
      modifies this`slots, this`free, this`history, this`actions
      ensures Valid() && WorkerNext(old(St()), Grow(h, c), St())
      ensures slots == old(slots)[old(free)[c][0] := Part(h,
                [])][h := Item(old(slots)[h].it.(chunks := old(slots)[h].it.chunks + [old(free)[c][0]]))]
    {
      hide Inv, Logged, Without;
      ghost var s := St();
      var r := free[c][0];
      ListedAt(s, c, 0);
      free := free[c := Without(free[c], 0)];
      slots := slots[r := Part(h, [])][h := Item(slots[h].it.(chunks := slots[h].it.chunks + [r]))];
      AddChunkKeeps(s, St(), h, c, r, slots[h].it);
      Record(s, Grow(h, c));
    }

    method WritePart(x: Ref, data: Bytes)
      requires Valid() && x in slots && slots[x].Part? && !Reserved(pending, x)
      modifies this`slots, this`history, this`actions
      ensures Valid() && slots == old(slots)[x := Part(old(slots)[x].head, data)]
    {
      hide Inv, Logged;
      ghost var s := St();
      slots := slots[x := Part(slots[x].head, data)];
      WritePartKeeps(s, St(), x, data);
      Record(s, Upload(x, data));
    }
  }

  lemma ListedAt(s: State, c: nat, k: nat)
    requires Inv(s) && c < |s.free| && k < |s.free[c]|
    ensures FreeAt(s.slots, s.free[c][k]) && InClass(s.owner, s.perslab, s.free[c][k], c)
  {
    hide PagesOk, TableOk, ChunksOk, MoverOk, PendingOk, FreeOk;
    TopIsFree(s.slots, s.owner, s.perslab, s.free, c, k);
  }

  lemma StartKeeps(s: State, s': State, c: nat, d: nat)
    requires Inv(s) && s.mover.None? && 0 < c < |s.lists| && d < |s.lists| && c != d && |s.lists[c]| >= 2
    requires s' == s.(mover := Some(Mover(c, d, s.lists[c][0], 0, 0, 0, false)))
    ensures Inv(s')
  {
    assert 0 < s.perslab[c] && |s.perslab| == |s.lists|;
    hide PagesOk, FreeOk, TableOk, ChunksOk;
  }

  lemma VisitBounds(s: State)
    requires Inv(s) && s.mover.Some? && !s.mover.value.done
    ensures s.mover.value.s < |s.perslab| && s.mover.value.pos < s.perslab[s.mover.value.s]
  {
    hide PagesOk, TableOk, ChunksOk, FreeOk, PendingOk;
  }

  lemma FreeListed(s: State, r: Ref)
    requires Inv(s) && FreeAt(s.slots, r)
    ensures r.page in s.owner && s.owner[r.page] < |s.free| && r in s.free[s.owner[r.page]]
  {
    InSlots(s, r);
    assert s.owner[r.page] < |s.free|;
    assert FreeListOk(s.slots, s.owner, s.perslab, s.free[s.owner[r.page]], s.owner[r.page]);
    hide PagesOk, TableOk, ChunksOk, MoverOk, PendingOk;
  }

  lemma PartHead(s: State, x: Ref)
    requires Inv(s) && x in s.slots && s.slots[x].Part?
    ensures s.slots[x].head in s.slots && s.slots[s.slots[x].head].Item? && x in s.slots[s.slots[x].head].it.chunks
  {
    hide PagesOk, TableOk, FreeOk, MoverOk, PendingOk;
    assert InChain(s.slots, x, s.slots[x].head);
  }

  lemma LinkedRefs(s: State, r: Ref)
    requires Inv(s) && LinkedAt(s.slots, r)
    ensures 0 < s.slots[r].it.refs
  {
    hide PagesOk, ChunksOk, FreeOk, MoverOk, PendingOk;
  }

  lemma StepValue(s: State)
    ensures forall k, m :: ValueOf(s.(mover := m), k) == ValueOf(s, k)
  {
  }

  lemma RefsOwned(s: State, r: Ref, refs: seq<Ref>)
    requires Inv(s) && r in s.slots && s.slots[r].Item? && refs == [r] + s.slots[r].it.chunks
    ensures forall x :: x in refs ==> x in s.slots && x.page in s.owner && s.owner[x.page] < |s.free|
  {
    InSlots(s, r);
    forall x | x in refs
      ensures x in s.slots && x.page in s.owner && s.owner[x.page] < |s.free|
    {
      InSlots(s, x);
    }
  }

  lemma FinishValue(s: State, s1: State, s': State, page: nat, d: nat, k: Key)
    requires Inv(s) && s.mover.Some? && s.mover.value.done && s.mover.value.page == page
    requires s1.slots == map r | r in s.slots && r.page != page :: s.slots[r]
    requires d < |s'.perslab| && s'.slots == Split(s1.slots, page, s'.perslab[d]) && s'.table == s.table
    ensures ValueOf(s', k) == ValueOf(s, k)
  {
    PageCleared(s);
    hide Inv, ValueAt;
    SplitIs(s1.slots, page, s'.perslab[d]);
    hide Split;
    if k in s.table {
      ChainAt(s, k);
      OthersValue(s.slots, s'.slots, s.table[k]);
    }
  }

  // ---- Whole runs ----

  /** One critical section: first what the other threads do, then what the mover does. */
  datatype Action =
    | NewSlab(page: nat, c: nat)
    | Alloc(c: nat)
    | Change(r: Ref, e: Entry)
    | Join(r: Ref)
    | Leave(r: Ref)
    | Grow(h: Ref, c: nat)
    | Upload(x: Ref, data: Bytes)
    | FreeAll(r: Ref)
    | Begin(s: nat, d: nat)
    | ClearFree(k: nat)
    | LockItem(p: Pending)
    | DropBusy(r: Ref)
    | Copy(now: nat, cas: nat)
    | CopyChunk(j: nat)
    | GiveUpItem
    | Step(busy: bool)
    | End

  /** The item behind a chunk: itself, or the one it is a part of. */
  predicate Behind(slots: map<Ref, Slot>, target: Ref, item: Ref) {
    target == item || (target in slots && slots[target].Part? && slots[target].head == item)
  }

  ghost predicate WorkerNext(s: State, a: Action, s': State) {
    match a
    case NewSlab(page, c) => page !in s.owner && c < |s.lists| == |s.perslab| == |s.free| && s' == AddPage(s, page, c)
    case Alloc(c) => c < |s.free| && s.free[c] != [] && s' == Take(s, c, Item(BLANK))
    case Change(r, e) =>
      && r in s.slots && s.slots[r].Item? && !Reserved(s.pending, r) && e.linked == s.slots[r].it.linked
      && e.chunks == s.slots[r].it.chunks && (e.linked ==> e.key == s.slots[r].it.key && 0 < e.refs)
      && s' == s.(slots := s.slots[r := Item(e)])
    case Join(r) =>
      && r in s.slots && s.slots[r].Item? && !s.slots[r].it.linked && s.slots[r].it.key !in s.table
      && !Reserved(s.pending, r)
      && s' == s.(slots := s.slots[r := Item(s.slots[r].it.(linked := true, refs := s.slots[r].it.refs + 1))],
                  table := s.table[s.slots[r].it.key := r])
    case Leave(r) =>
      && LinkedAt(s.slots, r) && !Reserved(s.pending, r) && 0 < s.slots[r].it.refs
      && s' == s.(slots := s.slots[r := Item(s.slots[r].it.(linked := false, refs := s.slots[r].it.refs - 1))],
                  table := s.table - {s.slots[r].it.key})
    case Grow(h, c) =>
      && c < |s.free| && s.free[c] != []
      && h in s.slots && s.slots[h].Item? && !s.slots[h].it.linked && !Reserved(s.pending, h)
      && s' == s.(slots := s.slots[s.free[c][0] := Part(h, [])]
                             [h := Item(s.slots[h].it.(chunks := s.slots[h].it.chunks + [s.free[c][0]]))],
                  free := s.free[c := Without(s.free[c], 0)])
    case Upload(x, data) =>
      && x in s.slots && s.slots[x].Part? && !Reserved(s.pending, x)
      && s' == s.(slots := s.slots[x := Part(s.slots[x].head, data)])
    case FreeAll(r) =>
      && r in s.slots && s.slots[r].Item? && !s.slots[r].it.linked && s.slots[r].it.refs == 0 && !Reserved(s.pending, r)
      && (forall x :: x in [r] + s.slots[r].it.chunks ==> x.page in s.owner && s.owner[x.page] < |s.free|)
      && s' == s.(slots := Release(s.slots, [r] + s.slots[r].it.chunks),
           free := PushAll(s.free, s.owner, [r] + s.slots[r].it.chunks))
    case _ => false
  }

  ghost predicate MoverNext(s: State, a: Action, s': State) {
    match a
    case Begin(c, d) =>
      && s.mover.None? && 0 < c < |s.lists| && d < |s.lists| && c != d && |s.lists[c]| >= 2
      && s' == s.(mover := Some(Mover(c, d, s.lists[c][0], 0, 0, 0, false)))
    case ClearFree(k) =>
      && s.mover.Some? && s.pending.None? && s.mover.value.s < |s.free| && k < |s.free[s.mover.value.s]|
      && s.free[s.mover.value.s][k].page == s.mover.value.page
      && s' == s.(slots := s.slots[s.free[s.mover.value.s][k] := Cleared],
                  free := s.free[s.mover.value.s := Without(s.free[s.mover.value.s], k)])
    case LockItem(p) =>
      && s.mover.Some? && !s.mover.value.done && s.pending.None? &&
           p.target == Ref(s.mover.value.page, s.mover.value.pos)
      && LinkedAt(s.slots, p.item) && s.slots[p.item].it.refs == 1
      && (p.target == p.item || (p.target in s.slots && s.slots[p.target].Part? && s.slots[p.target].head == p.item))
      && (p.dest.Some? ==> DestFree(s, p.dest.value)) && s' == LockedFor(s, p)
    case DropBusy(r) =>
      && s.mover.Some? && !s.mover.value.done && s.pending.None? && s.mover.value.loops > MAX_LOOPS
      && LinkedAt(s.slots, r) && s.slots[r].it.refs > 1 && Behind(s.slots,
           Ref(s.mover.value.page, s.mover.value.pos), r)
      && s' == s.(slots := s.slots[r := Item(s.slots[r].it.(linked := false, refs := s.slots[r].it.refs - 1))],
                  table := s.table - {s.slots[r].it.key})
    case Copy(now, cas) =>
      && s.pending.Some? && s.pending.value.target == s.pending.value.item && s.pending.value.dest.Some?
      && s.pending.value.item in s.slots && s.slots[s.pending.value.item].Item?
      && var r, n, e := s.pending.value.item, s.pending.value.dest.value, s.slots[s.pending.value.item].it;
      s' == s.(slots := Repoint(s.slots[n := Item(e.(refs := 1, time := now, cas := cas))], e.chunks, n)[r := Cleared],
               table := s.table[e.key := n], pending := None)
    case CopyChunk(j) =>
      && s.pending.Some? && s.pending.value.target != s.pending.value.item && s.pending.value.dest.Some?
      && s.pending.value.item in s.slots && s.slots[s.pending.value.item].Item?
      && j < |s.slots[s.pending.value.item].it.chunks|
      && s.slots[s.pending.value.item].it.chunks[j] == s.pending.value.target && s.pending.value.target in s.slots
      && var r, x, n, e :=
           s.pending.value.item, s.pending.value.target, s.pending.value.dest.value, s.slots[s.pending.value.item].it;
      s' == s.(slots := s.slots[n := Part(r, PartData(s.slots, x))]
                          [r := Item(e.(chunks := e.chunks[j := n], refs := 1))][x := Cleared],
               pending := None)
    case GiveUpItem =>
      && s.pending.Some? && s.pending.value.dest.None?
      && s.pending.value.item in s.slots && s.slots[s.pending.value.item].Item?
      && var r, e := s.pending.value.item, s.slots[s.pending.value.item].it;
      && (forall x :: x in [r] + e.chunks ==> x.page in s.owner && s.owner[x.page] < |s.free|)
      && s' == s.(slots := Release(s.slots[r := Item(e.(linked := false, refs := 1))], [r] + e.chunks),
                  free := PushAll(s.free, s.owner, [r] + e.chunks), table := s.table - {e.key}, pending := None)
    case Step(busy) =>
      && s.mover.Some? && !s.mover.value.done && s.pending.None? && s.mover.value.s < |s.perslab|
      && s.mover.value.pos < s.perslab[s.mover.value.s]
      && (busy || ClearedAt(s.slots, Ref(s.mover.value.page, s.mover.value.pos)))
      && s' == s.(mover := Some(Advance(s.mover.value, busy, s.perslab[s.mover.value.s])))
    case End =>
      && s.mover.Some? && s.mover.value.done && s.pending.None?
      && s.mover.value.s < |s.lists| && s.lists[s.mover.value.s] != []
      && s.mover.value.d < |s.lists| == |s.perslab| == |s.free|
      && s' == AddPage(DropPage(s), s.mover.value.page, s.mover.value.d)
    case _ => false
  }

  ghost predicate Next(s: State, a: Action, s': State) { WorkerNext(s, a, s') || MoverNext(s, a, s') }

  lemma WorkerKeeps(s: State, a: Action, s': State)
    requires Inv(s) && WorkerNext(s, a, s')
    ensures Inv(s')
  {
    hide Inv, Reserved, LinkedAt, Release, PushAll, Without, AddPage;
    match a
    case NewSlab(page, c) => AddPageKeeps(s, page, c);
    case Alloc(c) => TakeKeeps(s, c);
    case Change(r, e) => EditKeeps(s, s', r, e);
    case Join(r) => LinkKeeps(s, s', r);
    case Leave(r) => UnlinkKeeps(s, s', r);
    case Grow(h, c) =>
      ListedAt(s, c, 0);
      AddChunkKeeps(s, s', h, c, s.free[c][0], s.slots[h].it.(chunks := s.slots[h].it.chunks + [s.free[c][0]]));
    case Upload(x, data) => WritePartKeeps(s, s', x, data);
    case FreeAll(r) => FreeItemKeeps(s, s', r, [r] + s.slots[r].it.chunks);
  }

  lemma MoverKeeps(s: State, a: Action, s': State)
    requires Inv(s) && MoverNext(s, a, s')
    ensures Inv(s')
  {
    hide Inv, LinkedAt, DestOk, Release, PushAll, Repoint, Without, Advance, ClearedAt, AddPage, DropPage;
    match a
    case Begin(c, d) => StartKeeps(s, s', c, d);
    case ClearFree(k) => ClearKeeps(s, s', k, s.free[s.mover.value.s][k]);
    case LockItem(p) => LockKeeps(s, p);
    case DropBusy(r) => UnlinkKeeps(s, s', r);
    case Copy(now, cas) =>
      var e := s.slots[s.pending.value.item].it;
      RescueItemKeeps(s, s', s.pending.value.item, s.pending.value.dest.value, e,
        e.(refs := 1, time := now, cas := cas));
    case CopyChunk(j) =>
      RescuePartKeeps(s, s', s.pending.value.item, s.pending.value.target, s.pending.value.dest.value, j,
        s.slots[s.pending.value.item].it);
    case GiveUpItem =>
      var r := s.pending.value.item;
      EvictKeeps(s, s', r, s.slots[r].it, [r] + s.slots[r].it.chunks);
    case Step(busy) => AdvanceKeeps(s, s', busy);
    case End =>
      DropKeeps(s);
      DropSizes(s);
      AddPageKeeps(DropPage(s), s.mover.value.page, s.mover.value.d);
  }

  lemma EndNext(s: State, s': State)
    requires s.mover.Some? && s.mover.value.done && s.pending.None? && s.mover.value.s < |s.lists|
    requires s.lists[s.mover.value.s] != [] && s.mover.value.d < |s.lists| == |s.perslab| == |s.free|
    requires |DropPage(s).lists| == |DropPage(s).perslab| == |DropPage(s).free| == |s.lists|
    requires s' == AddPage(DropPage(s), s.mover.value.page, s.mover.value.d)
    ensures MoverNext(s, End, s')
  {
  }

  lemma DropSizes(s: State)
    requires s.mover.Some? && s.mover.value.s < |s.lists| && s.lists[s.mover.value.s] != []
    ensures |DropPage(s).lists| == |s.lists| && DropPage(s).perslab == s.perslab && DropPage(s).free == s.free
  {
  }

  /** The key that a step of the mover takes away: of an item it gives up, or of a busy one it has met too often. */
  function Lost(s: State, a: Action): Option<Key> {
    match a
    case DropBusy(r) => if r in s.slots && s.slots[r].Item? then Some(s.slots[r].it.key) else None
    case GiveUpItem =>
      if s.pending.Some? && s.pending.value.item in s.slots && s.slots[s.pending.value.item].Item?
      then Some(s.slots[s.pending.value.item].it.key) else None
    case _ => None
  }

  /** No step of the mover changes the value of any key, except that the one it takes away is gone. */
  lemma MoverValues(s: State, a: Action, s': State, k: Key)
    requires Inv(s) && MoverNext(s, a, s')
    ensures ValueOf(s', k) == if Lost(s, a) == Some(k) then None else ValueOf(s, k)
  {
    hide Inv, DestOk, Release, PushAll, Repoint, Without, Advance, ClearedAt, Split, SplitFree, ValueAt, Behind;
    match a
    case Begin(c, d) =>
    case ClearFree(i) =>
      ListedAt(s, s.mover.value.s, i);
      SparedValue(s, s', s.free[s.mover.value.s][i], Cleared, k);
    case LockItem(p) =>
      if p.dest.Some? {
        ListedAt(s, s.mover.value.s, 0);
        TakeKeeps(s, s.mover.value.s);
        SparedValue(s, Take(s, s.mover.value.s, Item(BLANK)), p.dest.value, Item(BLANK), k);
        RefsValue(Take(s, s.mover.value.s, Item(BLANK)), s', p.item, k);
      } else {
        RefsValue(s, s', p.item, k);
      }
    case DropBusy(r) =>
      if k != s.slots[r].it.key {
        LeaveValue(s, s', r, k);
      }
    case Copy(now, cas) =>
      var e := s.slots[s.pending.value.item].it;
      RescueItemValue(s, s', s.pending.value.item, s.pending.value.dest.value, e,
        e.(refs := 1, time := now, cas := cas), k);
    case CopyChunk(j) =>
      RescuePartValue(s, s', s.pending.value.item, s.pending.value.target, s.pending.value.dest.value, j,
        s.slots[s.pending.value.item].it, k);
    case GiveUpItem =>
      PendingAt(s);
      var r := s.pending.value.item;
      if k != s.slots[r].it.key {
        EvictValue(s, s', r, s.slots[r].it, [r] + s.slots[r].it.chunks, k);
      }
    case Step(busy) =>
    case End => FinishValue(s, DropPage(s), s', s.mover.value.page, s.mover.value.d, k);
  }

  /** The item under a key, and everything of it, is as it was. */
  ghost predicate Undisturbed(s: State, s': State, k: Key) {
    if k !in s.table then k !in s'.table else
      && k in s'.table && s'.table[k] == s.table[k] && Same(s, s', s.table[k])
      && (s.table[k] in s.slots && s.slots[s.table[k]].Item? ==> forall x :: x in s.slots[s.table[k]].it.chunks ==>
           Same(s, s', x))
  }

  predicate Same(s: State, s': State, x: Ref) { x in s.slots && x in s'.slots && s'.slots[x] == s.slots[x] }

  lemma UndisturbedValue(s: State, s': State, k: Key)
    requires Inv(s) && Undisturbed(s, s', k)
    ensures ValueOf(s', k) == ValueOf(s, k)
  {
    hide Inv, ValueAt;
    if k in s.table {
      ChainAt(s, k);
      OthersValue(s.slots, s'.slots, s.table[k]);
    }
  }

  lemma LeaveValue(s: State, s': State, r: Ref, k: Key)
    requires Inv(s) && LinkedAt(s.slots, r) && k != s.slots[r].it.key && s'.table == s.table - {s.slots[r].it.key}
    requires 0 < s.slots[r].it.refs
    requires s'.slots == s.slots[r := Item(s.slots[r].it.(linked := false, refs := s.slots[r].it.refs - 1))]
    ensures ValueOf(s', k) == ValueOf(s, k)
  {
    hide Inv;
    if k in s.table {
      ChainAt(s, k);
    }
    UndisturbedValue(s, s', k);
  }

  /** Whether a step of another thread is about the item that a key leads to. */
  predicate Concerns(s: State, a: Action, k: Key) {
    match a
    case Change(r, _) => k in s.table && s.table[k] == r
    case Join(r) => r in s.slots && s.slots[r].Item? && s.slots[r].it.key == k
    case Leave(r) => r in s.slots && s.slots[r].Item? && s.slots[r].it.key == k
    case Upload(x, _) => x in s.slots && s.slots[x].Part? && k in s.table && s.table[k] == s.slots[x].head
    case _ => false
  }

  /** Steps of other threads leave alone the values of the keys they are not about. */
  lemma WorkerValues(s: State, a: Action, s': State, k: Key)
    requires Inv(s) && WorkerNext(s, a, s') && !Concerns(s, a, k)
    ensures ValueOf(s', k) == ValueOf(s, k)
  {
    hide Inv, Release, PushAll, Without, Split, SplitFree, Reserved, ValueAt;
    if k in s.table {
      ChainAt(s, k);
    }
    match a {
      case NewSlab(page, c) => SplitKeeps(s, page, c);
      case Alloc(c) => ListedAt(s, c, 0);
      case Grow(h, c) => ListedAt(s, c, 0);
      case FreeAll(r) => FreedOthers(s, r, k);
      case _ =>
    }
    assert Undisturbed(s, s', k);
    UndisturbedValue(s, s', k);
  }

  lemma SplitKeeps(s: State, page: nat, c: nat)
    requires Inv(s) && page !in s.owner && c < |s.lists| == |s.perslab| == |s.free|
    ensures forall x :: x in s.slots ==> x in AddPage(s, page, c).slots && AddPage(s, page, c).slots[x] == s.slots[x]
    ensures forall x :: x in AddPage(s, page, c).slots && x !in s.slots ==>
              x.page == page && AddPage(s, page, c).slots[x] == Free
  {
    hide FreeOk, TableOk, ChunksOk, MoverOk, PendingOk;
    NoSlots(s, page);
    SplitIs(s.slots, page, s.perslab[c]);
    hide Split;
  }

  lemma FreedOthers(s: State, r: Ref, k: Key)
    requires Inv(s) && r in s.slots && s.slots[r].Item? && !s.slots[r].it.linked
    ensures var slots' := Release(s.slots, [r] + s.slots[r].it.chunks);
            k in s.table ==>
              && LinkedAt(s.slots, s.table[k]) && s.table[k] in slots' && slots'[s.table[k]] == s.slots[s.table[k]]
              && forall x :: x in s.slots[s.table[k]].it.chunks ==> x in slots' && slots'[x] == s.slots[x]
  {
    var refs := [r] + s.slots[r].it.chunks;
    assert ChainOk(s.slots, r, s.slots[r].it.chunks);
    ReleaseIs(s.slots, refs);
    hide Inv, Release;
    if k in s.table {
      ChainAt(s, k);
    }
  }

  lemma SparedValue(s: State, s': State, r: Ref, x: Slot, k: Key)
    requires Inv(s) && FreeAt(s.slots, r) && s'.slots == s.slots[r := x] && s'.table == s.table
    ensures ValueOf(s', k) == ValueOf(s, k)
  {
    hide Inv, ValueAt;
    if k in s.table {
      ChainAt(s, k);
      OthersValue(s.slots, s'.slots, s.table[k]);
    }
  }

  lemma RefsValue(s: State, s': State, r: Ref, k: Key)
    requires Inv(s) && LinkedAt(s.slots, r) && s'.slots == s.slots[r := Item(s.slots[r].it.(refs := 2))] &&
               s'.table == s.table
    ensures ValueOf(s', k) == ValueOf(s, k)
  {
    hide Inv;
    if k in s.table {
      ChainAt(s, k);
      var c := s.slots[s.table[k]].it.chunks;
      forall j | 0 <= j < |c|
        ensures PartData(s.slots, c[j]) == PartData(s'.slots, c[j])
      {
        assert c[j] in c;
      }
      JoinedSame(s.slots, s'.slots, c, c);
    }
  }

  /** No pages yet; `perslab` says how many chunks a page of each class is divided into. */
  function Blank(perslab: seq<nat>): State {
    State(map[], map[], seq(|perslab|, _ => []), perslab, seq(|perslab|, _ => []), map[], None, None)
  }

  ghost predicate ClassesOk(perslab: seq<nat>) {
    0 < |perslab| && perslab[0] == 0 && forall c :: 0 < c < |perslab| ==> 0 < perslab[c]
  }

  lemma BlankOk(perslab: seq<nat>)
    requires ClassesOk(perslab)
    ensures Inv(Blank(perslab))
  {
  }

  ghost predicate Run(perslab: seq<nat>, states: seq<State>, actions: seq<Action>) {
    && ClassesOk(perslab) && |states| == |actions| + 1 && states[0] == Blank(perslab)
    && forall i :: 0 <= i < |actions| ==> Next(states[i], actions[i], states[i + 1])
  }

  lemma {:induction false} RunKeeps(perslab: seq<nat>, states: seq<State>, actions: seq<Action>, i: nat)
    requires Run(perslab, states, actions) && i < |states|
    ensures Inv(states[i])
  {
    hide Inv, Next, Blank, ClassesOk;
    if i == 0 {
      BlankOk(perslab);
    } else {
      RunKeeps(perslab, states, actions, i - 1);
      NextKeeps(states[i - 1], actions[i - 1], states[i]);
    }
  }

  lemma NextKeeps(s: State, a: Action, s': State)
    requires Inv(s) && Next(s, a, s')
    ensures Inv(s')
  {
    hide Inv, WorkerNext, MoverNext;
    if WorkerNext(s, a, s') {
      WorkerKeeps(s, a, s');
    } else {
      MoverKeeps(s, a, s');
    }
  }

  /** In every run a key keeps its value from any moment to any later one, unless a thread changes, links or unlinks its
      item in between, or the mover takes it away. */
  lemma {:induction false} RunValues(perslab: seq<nat>, states: seq<State>, actions: seq<Action>, i: nat, j: nat,
    k: Key)
    requires Run(perslab, states, actions) && i <= j < |states|
    requires forall l :: i <= l < j ==> !Concerns(states[l], actions[l], k) && Lost(states[l], actions[l]) != Some(k)
    ensures ValueOf(states[j], k) == ValueOf(states[i], k)
    decreases j
  {
    hide Inv, WorkerNext, MoverNext, ValueOf, Concerns, Lost, Blank, ClassesOk;
    if i < j {
      RunValues(perslab, states, actions, i, j - 1, k);
      RunKeeps(perslab, states, actions, j - 1);
      var s, a, s' := states[j - 1], actions[j - 1], states[j];
      assert Next(s, a, states[j - 1 + 1]);
      if WorkerNext(s, a, s') {
        WorkerValues(s, a, s', k);
      } else {
        MoverValues(s, a, s', k);
      }
    }
  }

  /** In every run, with the other threads doing what they like in between: when the mover reports that it is done,
      every chunk of the page is cleared, nobody holds it, no key leads to it and no item or free list has it. */
  lemma MoveIsSafe(perslab: seq<nat>, states: seq<State>, actions: seq<Action>, i: nat, k: nat)
    requires Run(perslab, states, actions) && i < |states| && states[i].mover.Some? && states[i].mover.value.done
    requires states[i].mover.value.s < |states[i].perslab| && k < states[i].perslab[states[i].mover.value.s]
    ensures ClearedAt(states[i].slots, Ref(states[i].mover.value.page, k))
    ensures Holders(states[i], Ref(states[i].mover.value.page, k)) == 0
    ensures forall r :: r in states[i].slots && states[i].slots[r].Item? ==>
              Ref(states[i].mover.value.page, k) !in states[i].slots[r].it.chunks
    ensures forall key :: key in states[i].table ==> states[i].table[key] != Ref(states[i].mover.value.page, k)
    ensures forall c :: 0 <= c < |states[i].free| ==> Ref(states[i].mover.value.page, k) !in states[i].free[c]
  {
    RunKeeps(perslab, states, actions, i);
    hide Run, Inv, ClearedAt;
    var s := states[i];
    DoneMeansCleared(s, k, 0);
    forall c | 0 <= c < |s.free|
      ensures Ref(s.mover.value.page, k) !in s.free[c]
    {
      DoneMeansCleared(s, k, c);
    }
  }

  // ---- Items that somebody holds ----

  /** The item at `r` is still there with its key, its value and its chunks, and the same threads hold it. */
  ghost predicate StillHeld(s: State, s': State, r: Ref)
    requires r in s.slots && s.slots[r].Item?
  {
    && r in s'.slots && s'.slots[r].Item? && Holders(s', r) == Holders(s, r)
    && s'.slots[r].it == s.slots[r].it.(linked := s'.slots[r].it.linked, refs := s'.slots[r].it.refs)
    && forall x :: x in s.slots[r].it.chunks ==> Same(s, s', x)
  }

  /** No step of the mover frees, moves, clears or changes an item that another thread holds, or a chunk of one. */
  lemma MoverSparesHeld(s: State, a: Action, s': State, r: Ref)
    requires Inv(s) && MoverNext(s, a, s') && Holders(s, r) > 0
    ensures r in s.slots && s.slots[r].Item? && StillHeld(s, s', r)
  {
    hide Inv, Release, PushAll, Repoint, Without, Advance, Split, SplitFree, Behind, DestOk;
    HeldParts(s, r);
    match a
    case Begin(c, d) =>
    case ClearFree(i) => ListedAt(s, s.mover.value.s, i);
    case LockItem(p) =>
      if p.dest.Some? {
        ListedAt(s, s.mover.value.s, 0);
      }
    case DropBusy(x) =>
    case Copy(now, cas) => CopySparesHeld(s, now, cas, s', r);
    case CopyChunk(j) => CopyChunkSparesHeld(s, j, s', r);
    case GiveUpItem => GiveUpSparesHeld(s, s', r);
    case Step(busy) =>
    case End => EndSparesHeld(s, s', r);
  }

  lemma EndSparesHeld(s: State, s': State, r: Ref)
    requires Inv(s) && MoverNext(s, End, s') && Holders(s, r) > 0
    ensures StillHeld(s, s', r)
  {
    hide Inv, Split, SplitFree;
    HeldParts(s, r);
    PageCleared(s);
    DropKeeps(s);
    DropSizes(s);
    SplitKeeps(DropPage(s), s.mover.value.page, s.mover.value.d);
  }

  lemma CopySparesHeld(s: State, now: nat, cas: nat, s': State, r: Ref)
    requires Inv(s) && MoverNext(s, Copy(now, cas), s') && Holders(s, r) > 0
    ensures StillHeld(s, s', r)
  {
    hide Inv, Repoint;
    HeldParts(s, r);
    PendingAt(s);
    var e := s.slots[s.pending.value.item].it;
    CopiedIs(s.slots, s.pending.value.item, s.pending.value.dest.value, e, e.(refs := 1, time := now, cas := cas));
    HeldParts(s, s.pending.value.item);
  }

  lemma CopyChunkSparesHeld(s: State, j: nat, s': State, r: Ref)
    requires Inv(s) && MoverNext(s, CopyChunk(j), s') && Holders(s, r) > 0
    ensures StillHeld(s, s', r)
  {
    hide Inv;
    HeldParts(s, r);
    PendingAt(s);
  }

  lemma GiveUpSparesHeld(s: State, s': State, r: Ref)
    requires Inv(s) && MoverNext(s, GiveUpItem, s') && Holders(s, r) > 0
    ensures StillHeld(s, s', r)
  {
    hide Inv, Release, PushAll;
    HeldParts(s, r);
    PendingAt(s);
    var i := s.pending.value.item;
    HeldParts(s, i);
    ReleaseIs(s.slots[i := Item(s.slots[i].it.(linked := false, refs := 1))], [i] + s.slots[i].it.chunks);
  }

  lemma HeldParts(s: State, r: Ref)
    requires Inv(s) && r in s.slots && s.slots[r].Item?
    ensures forall x :: x in s.slots[r].it.chunks ==> x in s.slots && s.slots[x].Part? && s.slots[x].head == r
  {
    assert ChainOk(s.slots, r, s.slots[r].it.chunks);
  }

  /** Other threads do not either, unless the step is about that item or a chunk of it. */
  lemma WorkerSparesHeld(s: State, a: Action, s': State, r: Ref)
    requires Inv(s) && WorkerNext(s, a, s') && Holders(s, r) > 0 && !(a.Change? && a.r == r)
    ensures r in s.slots && s.slots[r].Item? && r in s'.slots && s'.slots[r].Item? && Holders(s', r) == Holders(s, r)
    ensures s'.slots[r].it.key == s.slots[r].it.key && s'.slots[r].it.data == s.slots[r].it.data
    ensures s.slots[r].it.chunks <= s'.slots[r].it.chunks
  {
    hide Inv, Release, PushAll, Without, Split, SplitFree, Reserved;
    HeldParts(s, r);
    match a {
      case NewSlab(page, c) => SplitKeeps(s, page, c);
      case Alloc(c) => ListedAt(s, c, 0);
      case Grow(h, c) => ListedAt(s, c, 0);
      case FreeAll(f) =>
        HeldParts(s, f);
        ReleaseIs(s.slots, [f] + s.slots[f].it.chunks);
      case _ =>
    }
  }

  /** In every run: from the moment a thread holds an item until it changes its references itself, the item is an item,
      as many hold it as before, it has its key and its data, and the chunks it had are still parts of it. */
  lemma {:induction false} RunHeld(perslab: seq<nat>, states: seq<State>, actions: seq<Action>, i: nat, j: nat, r: Ref)
    requires Run(perslab, states, actions) && i <= j < |states| && Holders(states[i], r) > 0
    requires forall l :: i <= l < j ==> !(actions[l].Change? && actions[l].r == r)
    ensures r in states[i].slots && states[i].slots[r].Item? && r in states[j].slots && states[j].slots[r].Item?
    ensures Holders(states[j], r) == Holders(states[i], r)
    ensures states[j].slots[r].it.key == states[i].slots[r].it.key
    ensures states[j].slots[r].it.data == states[i].slots[r].it.data
    ensures states[i].slots[r].it.chunks <= states[j].slots[r].it.chunks
    ensures forall x :: x in states[i].slots[r].it.chunks ==>
              x in states[j].slots && states[j].slots[x].Part? && states[j].slots[x].head == r
    decreases j
  {
    hide Inv, WorkerNext, MoverNext, Blank, ClassesOk;
    RunKeeps(perslab, states, actions, j);
    if i == j {
      HeldParts(states[j], r);
    } else {
      RunHeld(perslab, states, actions, i, j - 1, r);
      RunKeeps(perslab, states, actions, j - 1);
      var s, a, s' := states[j - 1], actions[j - 1], states[j];
      assert Next(s, a, states[j - 1 + 1]);
      if WorkerNext(s, a, s') {
        WorkerSparesHeld(s, a, s', r);
      } else {
        MoverSparesHeld(s, a, s', r);
      }
      HeldParts(states[j], r);
    }
  }

  // ---- Conservation ----

  ghost function RefsOf(pages: seq<nat>, n: nat): set<Ref> {
    if pages == [] then {} else RefsOf(pages[1..], n) + PageRefs(pages[0], n)
  }

  ghost function PageRefs(page: nat, n: nat): set<Ref> {
    if n == 0 then {} else PageRefs(page, n - 1) + {Ref(page, n - 1)}
  }

  lemma {:induction false} PageRefsAre(page: nat, n: nat)
    ensures |PageRefs(page, n)| == n && forall r :: r in PageRefs(page, n) <==> r.page == page && r.i < n
  {
    if n > 0 {
      PageRefsAre(page, n - 1);
      assert Ref(page, n - 1) !in PageRefs(page, n - 1);
      forall r
        ensures r in PageRefs(page, n) <==> r.page == page && r.i < n
      {
        assert r.page == page && r.i == n - 1 <==> r == Ref(page, n - 1);
      }
    }
  }

  function Times(k: nat, n: nat): nat { if k == 0 then 0 else Times(k - 1, n) + n }

  lemma {:induction false} TimesIs(k: nat, n: nat)
    ensures Times(k, n) == k * n
  {
    if k > 0 {
      TimesIs(k - 1, n);
    }
  }

  lemma {:induction false} RefsOfAre(pages: seq<nat>, n: nat)
    requires NoRepeat(pages)
    ensures |RefsOf(pages, n)| == Times(|pages|, n) && forall r :: r in RefsOf(pages, n) <==> r.page in pages && r.i < n
  {
    if pages != [] {
      assert pages == [pages[0]] + pages[1..];
      RefsOfAre(pages[1..], n);
      PageRefsAre(pages[0], n);
      assert pages[0] !in pages[1..];
      assert RefsOf(pages[1..], n) !! PageRefs(pages[0], n);
    }
  }

  lemma {:induction false} SeqSize(s: seq<Ref>, t: set<Ref>)
    requires NoRepeat(s) && forall r :: r in t <==> r in s
    ensures |t| == |s|
  {
    if s == [] {
      assert t == {};
    } else {
      assert s == [s[0]] + s[1..];
      SeqSize(s[1..], t - {s[0]});
    }
  }

  ghost function FreeIn(s: State, c: nat): set<Ref> { set r | r in s.slots && s.slots[r].Free? &&
    InClass(s.owner, s.perslab, r, c) }

  ghost function ClearedIn(s: State, c: nat): set<Ref> { set r | r in s.slots && s.slots[r].Cleared? &&
    InClass(s.owner, s.perslab, r, c) }

  ghost function UsedIn(s: State, c: nat): set<Ref> { set r | r in s.slots &&
    (s.slots[r].Item? || s.slots[r].Part?) && InClass(s.owner, s.perslab, r, c) }

  /** At every moment the pages of a class times its chunks per page are its free, used and cleared chunks, and the free
      ones are the free list. */
  lemma Conserved(s: State, c: nat)
    requires Inv(s) && c < |s.lists| == |s.perslab| == |s.free|
    ensures |s.lists[c]| * s.perslab[c] == |s.free[c]| + |UsedIn(s, c)| + |ClearedIn(s, c)|
  {
    hide *;
    ClassPart(s, c);
    RefsOfAre(s.lists[c], s.perslab[c]);
    TimesIs(|s.lists[c]|, s.perslab[c]);
    SeqSize(s.free[c], FreeIn(s, c));
    Kinds(s, c, RefsOf(s.lists[c], s.perslab[c]));
    ThreeParts(FreeIn(s, c), UsedIn(s, c), ClearedIn(s, c));
  }

  lemma ThreeParts(a: set<Ref>, b: set<Ref>, c: set<Ref>)
    requires a !! b && a !! c && b !! c
    ensures |a + b + c| == |a| + |b| + |c|
  {
  }

  lemma Kinds(s: State, c: nat, all: set<Ref>)
    requires forall r :: r in all <==> r in s.slots && InClass(s.owner, s.perslab, r, c)
    ensures all == FreeIn(s, c) + UsedIn(s, c) + ClearedIn(s, c)
    ensures FreeIn(s, c) !! UsedIn(s, c) && FreeIn(s, c) !! ClearedIn(s, c) && UsedIn(s, c) !! ClearedIn(s, c)
  {
    hide InClass;
  }

  lemma ClassPart(s: State, c: nat)
    requires Inv(s) && c < |s.lists| == |s.perslab| == |s.free|
    ensures NoRepeat(s.lists[c]) && NoRepeat(s.free[c]) && forall r :: r in s.free[c] <==> r in FreeIn(s, c)
    ensures forall r: Ref :: r.page in s.lists[c] && r.i < s.perslab[c] <==>
              r in s.slots && InClass(s.owner, s.perslab, r, c)
  {
    assert FreeListOk(s.slots, s.owner, s.perslab, s.free[c], c);
    hide TableOk, ChunksOk, MoverOk, PendingOk, FreeOk;
    forall r: Ref
      ensures r.page in s.lists[c] && r.i < s.perslab[c] <==> r in s.slots && InClass(s.owner, s.perslab, r, c)
    {
      assert r.page in s.lists[c] <==> r.page in s.owner && s.owner[r.page] == c;
    }
  }
}
