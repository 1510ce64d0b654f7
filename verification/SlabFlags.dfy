/** What the slab mover sees of a chunk. It knows chunks only by their flag bytes and by the pointer that a chunk of a
    larger item keeps to its head. A build with persistent slabs gives one bit of the flag byte two meanings: part of a
    larger item, and in persistent memory. This module puts flags and pointers beside the chunks of `SlabMover`, lets
    the mover decide by them, and says when they tell the truth. */
module SlabFlags {
  import opened Common
  import opened SlabMover

  // `chunk` is ITEM_CHUNK, which is also ITEM_PSLAB; `fetched` counts only beside `slabbed`.
  datatype Flags = Flags(slabbed: bool, chunk: bool, chunked: bool, fetched: bool)

  const ON_LIST := Flags(true, false, false, false)
  const WIPED := Flags(true, false, false, true)
  const PART := Flags(false, true, false, false)

  // `ptr` is the third word of a chunk: the head of a part, the hash chain of an item. `verdict` is what the visit of
  // the present chunk has come to, cleared or busy, until the mover goes on to the next.
  datatype Flagged = Flagged(
    s: State, flags: map<Ref, Flags>, ptr: map<Ref, Option<Ref>>, verdict: Option<bool>)

  // Nothing to do, a free chunk to take off its list, an item to move or to wait for, something unfinished, a wild
  // pointer.
  datatype Sight = Pass | Cut(it: Ref, part: bool) | Live(it: Ref, part: bool) | Wait | Wild

  // ---- What the flags say and what is so ----

  /** slab_rebalance_move: what the mover takes the chunk `x` for. */
  function Sees(pslab: bool, f: Flagged, x: Ref): Sight {
    if x !in f.flags then Wild
    else if f.flags[x].chunk && !(pslab && f.flags[x].chunked) then
      if x in f.ptr && f.ptr[x].Some? && f.ptr[x].value in f.flags then SeesItem(f, f.ptr[x].value, true) else Wild
    else SeesItem(f, x, false)
  }

  function SeesItem(f: Flagged, it: Ref, part: bool): Sight
    requires it in f.flags
  {
    if f.flags[it] == WIPED then Pass
    else if f.flags[it].slabbed then Cut(it, part)
    else if LinkedAt(f.s.slots, it) then Live(it, part) else Wait
  }

  /** What the chunk is. */
  function Truth(s: State, x: Ref): Sight
    requires x in s.slots
  {
    match s.slots[x]
    case Free => Cut(x, false)
    case Cleared => Pass
    case Item(e) => if e.linked then Live(x, false) else Wait
    case Part(h, _) => if LinkedAt(s.slots, h) then Live(h, true) else Wait
  }

  ghost predicate LooksRight(pslab: bool, f: Flagged) {
    forall x :: x in f.s.slots ==> Sees(pslab, f, x) == Truth(f.s, x)
  }

  function Target(s: State): Ref
    requires s.mover.Some?
  {
    Ref(s.mover.value.page, s.mover.value.pos)
  }

  // ---- Steps ----

  // A step of `SlabMover` (`large` for the header of a larger item), the mover taking a chunk off its free list, or the
  // mover going on to the next chunk.
  datatype Act = Do(a: Action, large: bool) | CutFree(k: nat) | GoOn(busy: bool)

  /** The step of `SlabMover` that an act is meant to be. */
  function Meant(a: Act): Action {
    match a
    case Do(b, _) => b
    case CutFree(k) => ClearFree(k)
    case GoOn(busy) => Step(busy)
  }

  function First(free: seq<seq<Ref>>, c: nat): Option<Ref> {
    if c < |free| && free[c] != [] then Some(free[c][0]) else None
  }

  predicate IsCut(sight: Sight, x: Ref) { sight.Cut? && sight.it == x }

  function ChunksOf(s: State, r: Ref): seq<Ref> { if r in s.slots &&
    s.slots[r].Item? then s.slots[r].it.chunks else [] }

  predicate IsChunk(f: Flagged, x: Ref) { x in f.flags && f.flags[x].chunk }

  /** The mark of a chunk cleared for the move: the shared bit is kept. */
  function Wiped(pslab: bool, g: Flags): Flags { if pslab && g.chunk then WIPED.(chunk := true) else WIPED }

  /** do_slabs_free and do_slabs_free_chunked: in a build with persistent slabs the loop over the chunks takes the
      bit that says they are chunks for the one that says they are persistent, and then marks the header in their
      place. */
  function FreedFlags(pslab: bool, f: Flagged, r: Ref, x: Ref): Flags
    requires x in f.flags
  {
    if x == r then
      ON_LIST.(chunk := f.flags[r].chunked && pslab && (f.flags[r].chunk ||
         exists y :: y in ChunksOf(f.s, r) && IsChunk(f, y)))
    else if x in ChunksOf(f.s, r) then (if pslab && f.flags[x].chunk then f.flags[x] else ON_LIST)
    else f.flags[x]
  }

  function FlagsAfter(pslab: bool, f: Flagged, a: Act, x: Ref): Flags {
    if x !in f.flags then ON_LIST
    else match a
      case Do(Alloc(c), large) =>
        if First(f.s.free, c) == Some(x) then f.flags[x].(slabbed := false, chunked := f.flags[x].chunked || large)
        else f.flags[x]
      case Do(Grow(h, c), _) =>
        if First(f.s.free, c) == Some(x) then f.flags[x].(slabbed := false, chunk := true) else f.flags[x]
      case Do(FreeAll(r), _) => FreedFlags(pslab, f, r, x)
      case Do(ClearFree(_), _) =>
        if f.s.mover.Some? && First(f.s.free, f.s.mover.value.s) == Some(x) then Wiped(pslab, f.flags[x])
             else f.flags[x]
      case CutFree(_) =>
        if f.s.mover.Some? && IsCut(Sees(pslab, f, Target(f.s)), x) then Wiped(pslab, f.flags[x]) else f.flags[x]
      case Do(LockItem(p), _) => if p.dest == Some(x) then f.flags[x].(slabbed := false) else f.flags[x]
      case Do(Copy(_, _), _) =>
        if f.s.pending.Some? && f.s.pending.value.dest == Some(x) && f.s.pending.value.item in f.flags then
          f.flags[f.s.pending.value.item]
        else if f.s.pending.Some? && f.s.pending.value.item == x then Wiped(pslab, f.flags[x])
        else f.flags[x]
      case Do(CopyChunk(_), _) =>
        if f.s.pending.Some? && f.s.pending.value.dest == Some(x) && f.s.pending.value.target in f.flags then
          f.flags[f.s.pending.value.target]
        else if f.s.pending.Some? && f.s.pending.value.target == x then WIPED
        else f.flags[x]
      case Do(GiveUpItem, _) =>
        if f.s.pending.Some? then FreedFlags(pslab, f, f.s.pending.value.item, x) else f.flags[x]
      case Do(End, _) => if f.s.mover.Some? && x.page == f.s.mover.value.page then ON_LIST else f.flags[x]
      case _ => f.flags[x]
  }

  /** The third word of a chunk that is no item; the hash table writes it in items. */
  function PtrAfter(f: Flagged, a: Act, x: Ref): Option<Ref> {
    if x !in f.ptr then None
    else match a
      case Do(Grow(h, c), _) => if First(f.s.free, c) == Some(x) then Some(h) else f.ptr[x]
      case Do(Copy(_, _), _) =>
        if f.s.pending.Some? && x in ChunksOf(f.s, f.s.pending.value.item) then f.s.pending.value.dest else f.ptr[x]
      case Do(CopyChunk(_), _) =>
        if f.s.pending.Some? && f.s.pending.value.dest == Some(x) && f.s.pending.value.target in f.ptr then
          f.ptr[f.s.pending.value.target]
        else f.ptr[x]
      case Do(End, _) => if f.s.mover.Some? && x.page == f.s.mover.value.page then None else f.ptr[x]
      case _ => f.ptr[x]
  }

  function VerdictAfter(f: Flagged, a: Act): Option<bool> {
    match a
    case Do(DropBusy(_), _) => Some(true)
    case Do(GiveUpItem, _) => Some(true)
    case Do(Copy(_, _), _) => Some(false)
    case Do(CopyChunk(_), _) => Some(false)
    case CutFree(_) => Some(false)
    case GoOn(_) => None
    case _ => f.verdict
  }

  predicate Visiting(f: Flagged) {
    f.s.mover.Some? && !f.s.mover.value.done && f.s.pending.None? && f.verdict.None?
  }

  /** What the flags must say before a step: chunks are added to headers of larger items, and the mover acts on what it
      sees. */
  ghost predicate Seen(pslab: bool, f: Flagged, a: Action) {
    match a
    case Grow(h, _) => h in f.flags && f.flags[h].chunked
    case ClearFree(k) => k == 0 && Visiting(f) && Sees(pslab, f, Target(f.s)).Live?
    case LockItem(p) => Visiting(f) && Sees(pslab, f, Target(f.s)) == Live(p.item, p.target != p.item)
    case DropBusy(r) => Visiting(f) && Sees(pslab, f, Target(f.s)) == Live(r, r != Target(f.s))
    case Step(_) => false
    case _ => true
  }

  /** slab_rebalance_cut_free: a chunk leaves the list it is on, except that the first chunk of another class stays
      there. */
  ghost predicate CutNext(pslab: bool, f: Flagged, k: nat, s': State) {
    && Visiting(f) && Sees(pslab, f, Target(f.s)).Cut?
    && var s, x := f.s, Sees(pslab, f, Target(f.s)).it;
    && x in s.slots && s.slots[x].Free? && x.page in s.owner && s.owner[x.page] < |s.free|
    && var c := s.owner[x.page];
    && k < |s.free[c]| && s.free[c][k] == x
    && s' == s.(slots := s.slots[x := Cleared],
                free := if c == s.mover.value.s || k != 0 then s.free[c := Without(s.free[c], k)] else s.free)
  }

  ghost predicate GoOnNext(pslab: bool, f: Flagged, busy: bool, s': State) {
    && f.s.mover.Some? && !f.s.mover.value.done && f.s.pending.None?
    && var m := f.s.mover.value;
    && m.s < |f.s.perslab| && m.pos < f.s.perslab[m.s]
    && (if f.verdict.Some? then f.verdict.value == busy
        else if busy then Sees(pslab, f, Target(f.s)).Live? || Sees(pslab, f, Target(f.s)).Wait?
        else Sees(pslab, f, Target(f.s)).Pass?)
    && s' == f.s.(mover := Some(Advance(m, busy, f.s.perslab[m.s])))
  }

  ghost predicate ActNext(pslab: bool, f: Flagged, a: Act, s': State) {
    match a
    case Do(b, _) => Seen(pslab, f, b) && Next(f.s, b, s')
    case CutFree(k) => CutNext(pslab, f, k, s')
    case GoOn(busy) => GoOnNext(pslab, f, busy, s')
  }

  ghost predicate FlagsNext(pslab: bool, f: Flagged, a: Act, f': Flagged) {
    && ActNext(pslab, f, a, f'.s)
    && f'.flags.Keys == f'.s.slots.Keys && (forall x :: x in f'.flags ==> f'.flags[x] == FlagsAfter(pslab, f, a, x))
    && f'.ptr.Keys == f'.s.slots.Keys
    && (forall x :: x in f'.ptr && !f'.s.slots[x].Item? ==> f'.ptr[x] == PtrAfter(f, a, x))
    && f'.verdict == VerdictAfter(f, a)
  }

  // ---- What a step makes of a chunk ----

  datatype Shape = OnList | Gone | Whole(chunks: seq<Ref>) | PartOf(head: Ref)

  function ShapeOf(slot: Slot): Shape {
    match slot
    case Free => OnList
    case Cleared => Gone
    case Item(e) => Whole(e.chunks)
    case Part(h, _) => PartOf(h)
  }

  function Frees(s: State, a: Action): seq<Ref> {
    match a
    case FreeAll(r) => [r] + ChunksOf(s, r)
    case GiveUpItem => if s.pending.Some? then [s.pending.value.item] + ChunksOf(s, s.pending.value.item) else []
    case _ => []
  }

  function ShapeAfter(s: State, a: Action, x: Ref): Shape
    requires x in s.slots
  {
    match a
    case Alloc(c) => if First(s.free, c) == Some(x) then Whole([]) else ShapeOf(s.slots[x])
    case Grow(h, c) =>
      if First(s.free, c) == Some(x) then PartOf(h)
      else if x == h && First(s.free, c).Some? then Whole(ChunksOf(s, h) + [First(s.free, c).value])
      else ShapeOf(s.slots[x])
    case FreeAll(_) => if x in Frees(s, a) then OnList else ShapeOf(s.slots[x])
    case GiveUpItem => if x in Frees(s, a) then OnList else ShapeOf(s.slots[x])
    case ClearFree(k) =>
      if s.mover.Some? && s.mover.value.s < |s.free| && k < |s.free[s.mover.value.s]| && s.free[s.mover.value.s][k] == x
      then Gone else ShapeOf(s.slots[x])
    case LockItem(p) => if p.dest == Some(x) then Whole([]) else ShapeOf(s.slots[x])
    case Copy(_, _) =>
      if s.pending.None? || s.pending.value.dest.None? then ShapeOf(s.slots[x])
      else if x == s.pending.value.item then Gone
      else if x == s.pending.value.dest.value then Whole(ChunksOf(s, s.pending.value.item))
      else if x in ChunksOf(s, s.pending.value.item) then PartOf(s.pending.value.dest.value)
      else ShapeOf(s.slots[x])
    case CopyChunk(j) =>
      if s.pending.None? || s.pending.value.dest.None? then ShapeOf(s.slots[x])
      else if x == s.pending.value.target then Gone
      else if x == s.pending.value.item && j < |ChunksOf(s, x)|
        then Whole(ChunksOf(s, x)[j := s.pending.value.dest.value])
      else if x == s.pending.value.dest.value then PartOf(s.pending.value.item)
      else ShapeOf(s.slots[x])
    case _ => ShapeOf(s.slots[x])
  }

  lemma WorkerShape(s: State, a: Action, s': State, x: Ref)
    requires Inv(s) && WorkerNext(s, a, s') && (x in s.slots || x in s'.slots)
    ensures x in s'.slots && if x in s.slots then ShapeOf(s'.slots[x]) == ShapeAfter(s, a, x) else s'.slots[x] == Free
  {
    hide Inv, Release, PushAll, Without, Split, SplitFree, Reserved;
    match a {
      case NewSlab(page, c) => SplitKeeps(s, page, c);
      case Alloc(c) => ListedAt(s, c, 0);
      case Grow(h, c) => ListedAt(s, c, 0);
      case FreeAll(r) =>
        HeldParts(s, r);
        ReleaseIs(s.slots, [r] + s.slots[r].it.chunks);
      case _ =>
    }
  }

  lemma MoverShape(s: State, a: Action, s': State, x: Ref)
    requires Inv(s) && MoverNext(s, a, s') && a != End && (x in s.slots || x in s'.slots)
    ensures x in s.slots && x in s'.slots && ShapeOf(s'.slots[x]) == ShapeAfter(s, a, x)
  {
    hide Inv, Release, PushAll, Repoint, Without, Advance, Behind;
    match a {
      case ClearFree(k) => ListedAt(s, s.mover.value.s, k);
      case LockItem(p) =>
        if p.dest.Some? {
          ListedAt(s, s.mover.value.s, 0);
        }
      case Copy(now, cas) =>
        PendingAt(s);
        var e := s.slots[s.pending.value.item].it;
        CopiedIs(s.slots, s.pending.value.item, s.pending.value.dest.value, e, e.(refs := 1, time := now, cas := cas));
      case CopyChunk(j) => PendingAt(s);
      case GiveUpItem => GiveUpShape(s, s', x);
      case _ =>
    }
  }

  lemma GiveUpShape(s: State, s': State, x: Ref)
    requires Inv(s) && MoverNext(s, GiveUpItem, s') && (x in s.slots || x in s'.slots)
    ensures x in s.slots && x in s'.slots && ShapeOf(s'.slots[x]) == ShapeAfter(s, GiveUpItem, x)
  {
    hide Inv, Release, PushAll;
    PendingAt(s);
    var r := s.pending.value.item;
    HeldParts(s, r);
    ReleaseIs(s.slots[r := Item(s.slots[r].it.(linked := false, refs := 1))], [r] + s.slots[r].it.chunks);
  }

  lemma EndShape(s: State, s': State, x: Ref)
    requires Inv(s) && MoverNext(s, End, s') && x in s'.slots
    ensures if x in s.slots && x.page != s.mover.value.page then s'.slots[x] == s.slots[x] else s'.slots[x] == Free
    ensures x !in s.slots ==> x.page == s.mover.value.page
  {
    hide Inv, Split, SplitFree;
    PageCleared(s);
    DropKeeps(s);
    DropSizes(s);
    SplitKeeps(DropPage(s), s.mover.value.page, s.mover.value.d);
  }

  // ---- Flags that tell the truth ----

  predicate Honest(shape: Shape, g: Flags, ptr: Option<Ref>) {
    match shape
    case OnList => g == ON_LIST
    case Gone => g == WIPED
    case Whole(chunks) => !g.slabbed && !g.chunk && (chunks != [] ==> g.chunked)
    case PartOf(h) => g == PART && ptr == Some(h)
  }

  predicate HonestAt(f: Flagged, x: Ref) {
    x in f.s.slots && x in f.flags && x in f.ptr ==> Honest(ShapeOf(f.s.slots[x]), f.flags[x], f.ptr[x])
  }

  ghost predicate Clean(f: Flagged) {
    && f.flags.Keys == f.s.slots.Keys && f.ptr.Keys == f.s.slots.Keys
    && (forall x :: x in f.s.slots ==> HonestAt(f, x))
    && VerdictOk(f)
  }

  predicate VerdictOk(f: Flagged) {
    f.verdict.Some? ==>
      && f.s.mover.Some? && !f.s.mover.value.done && f.s.pending.None?
      && (!f.verdict.value ==> ClearedAt(f.s.slots, Target(f.s)))
  }

  lemma CleanLooksRight(pslab: bool, f: Flagged)
    requires ChunksOk(f.s.slots) && Clean(f)
    ensures LooksRight(pslab, f)
  {
    forall x | x in f.s.slots
      ensures Sees(pslab, f, x) == Truth(f.s, x)
    {
      assert HonestAt(f, x);
      if f.s.slots[x].Part? {
        assert InChain(f.s.slots, x, f.s.slots[x].head);
        assert HonestAt(f, f.s.slots[x].head);
      }
    }
  }

  /** An item whose value continues in other chunks is freed, by a client or by the mover for want of room. */
  predicate FreesChunks(s: State, a: Act) {
    match a
    case Do(FreeAll(r), _) => ChunksOf(s, r) != []
    case Do(GiveUpItem, _) => s.pending.Some? && ChunksOf(s, s.pending.value.item) != []
    case _ => false
  }

  // ---- Acts that are what they are meant to be ----

  lemma TargetAt(s: State)
    requires Inv(s) && s.mover.Some? && !s.mover.value.done
    ensures Target(s) in s.slots && s.mover.value.page in s.owner && s.owner[s.mover.value.page] == s.mover.value.s
    ensures s.mover.value.s < |s.perslab| == |s.free| && s.mover.value.pos < s.perslab[s.mover.value.s]
  {
    hide TableOk, ChunksOk, PendingOk, NoRepeat;
    var m := s.mover.value;
    assert VisitOk(s.slots, s.lists, s.perslab, m);
    assert s.lists[m.s][0] in s.lists[m.s];
    assert InClass(s.owner, s.perslab, Target(s), m.s);
  }

  /** While the flags tell the truth, the mover does nothing but what `SlabMover` lets it do. */
  lemma ActIsMeant(pslab: bool, f: Flagged, a: Act, s': State)
    requires Inv(f.s) && LooksRight(pslab, f) && VerdictOk(f) && ActNext(pslab, f, a, s')
    ensures Next(f.s, Meant(a), s')
  {
    hide Inv, Sees, Without, Advance;
    match a {
      case Do(_, _) =>
      case CutFree(k) => TargetAt(f.s);
      case GoOn(busy) => TargetAt(f.s);
    }
  }

  /** And nothing it sees is kept from it: the item it finds is linked and holds the chunk being visited. */
  lemma SeenIsThere(pslab: bool, f: Flagged)
    requires Inv(f.s) && LooksRight(pslab, f) && Visiting(f)
    ensures var x := Target(f.s); match Sees(pslab, f, x)
      case Live(r, part) => LinkedAt(f.s.slots, r) && Behind(f.s.slots, x, r) && part == (r != x)
      case Cut(r, part) => r == x && !part && f.s.mover.value.s < |f.s.free| && r in f.s.free[f.s.mover.value.s]
      case Pass => ClearedAt(f.s.slots, x)
      case Wait => x in f.s.slots && !FreeAt(f.s.slots, x) && !ClearedAt(f.s.slots, x) && !LinkedAt(f.s.slots, x)
      case Wild => false
  {
    hide Sees, TableOk, PendingOk, NoRepeat, MoverOk, PagesOk;
    TargetAt(f.s);
    var x := Target(f.s);
    var m := f.s.mover.value;
    assert FreeListOk(f.s.slots, f.s.owner, f.s.perslab, f.s.free[m.s], m.s);
    if f.s.slots[x].Part? {
      assert InChain(f.s.slots, x, f.s.slots[x].head);
    }
  }

  // ---- They stay that way until an item with chunks is freed ----

  lemma ClearedApart(s: State, x: Ref)
    requires Inv(s) && ClearedAt(s.slots, x)
    ensures (forall c :: First(s.free, c) != Some(x)) && (forall r :: x !in ChunksOf(s, r))
    ensures s.pending.Some? ==> x != s.pending.value.item && s.pending.value.dest != Some(x)
  {
    forall c: nat
      ensures First(s.free, c) != Some(x)
    {
      if First(s.free, c).Some? {
        ListedAt(s, c, 0);
      }
    }
    forall r
      ensures x !in ChunksOf(s, r)
    {
      if ChunksOf(s, r) != [] {
        HeldParts(s, r);
      }
    }
    if s.pending.Some? {
      PendingAt(s);
    }
  }

  lemma ClearedStays(s: State, a: Action, s': State, x: Ref)
    requires Inv(s) && Next(s, a, s') && a != End && ClearedAt(s.slots, x)
    ensures ClearedAt(s'.slots, x)
  {
    hide Inv, WorkerNext, MoverNext, First, ChunksOf;
    ClearedApart(s, x);
    if WorkerNext(s, a, s') {
      WorkerShape(s, a, s', x);
      WorkerTakes(s, a, s');
    } else {
      MoverShape(s, a, s', x);
      MoverTakes(s, a, s');
    }
  }

  lemma WorkerTakes(s: State, a: Action, s': State)
    requires WorkerNext(s, a, s')
    ensures a.FreeAll? ==> a.r in s.slots && s.slots[a.r].Item? && !Reserved(s.pending, a.r)
    ensures a.Grow? ==> a.h in s.slots && s.slots[a.h].Item? && First(s.free, a.c).Some?
    ensures s'.mover == s.mover && s'.pending == s.pending
    ensures a.NewSlab? || a.Alloc? || a.Change? || a.Join? || a.Leave? || a.Grow? || a.Upload? || a.FreeAll?
  {
    hide Without, Release, PushAll, Split, SplitFree;
  }

  lemma MoverTakes(s: State, a: Action, s': State)
    requires MoverNext(s, a, s')
    ensures a.LockItem? && a.p.dest.Some? ==> s.mover.Some? && a.p.dest == First(s.free, s.mover.value.s)
    ensures a.Copy? ==> s.pending.Some? && s.pending.value.dest.Some? && s.pending.value.target == s.pending.value.item
    ensures a.CopyChunk? ==>
              && s.pending.Some? && s.pending.value.dest.Some? && s.pending.value.target != s.pending.value.item
              && a.j < |ChunksOf(s, s.pending.value.item)|
    ensures a.GiveUpItem? ==> s.pending.Some?
    ensures a.Copy? || a.CopyChunk? || a.GiveUpItem? ==> s'.pending.None? && s'.mover == s.mover
    ensures a.DropBusy? || a.ClearFree? ==> s'.pending == s.pending == None && s'.mover == s.mover && s.mover.Some?
    ensures a.End? ==> s.mover.Some? && s.mover.value.done
    ensures a.Begin? ==> s.mover.None?
    ensures a.LockItem? || a.Step? || a.Copy? || a.CopyChunk? || a.GiveUpItem? || a.DropBusy? || a.ClearFree? || a.End?
            || a.Begin?
  {
    hide Without, Release, PushAll, Repoint, Split, SplitFree;
  }

  lemma VerdictKeeps(pslab: bool, f: Flagged, a: Act, f': Flagged)
    requires Inv(f.s) && Clean(f) && LooksRight(pslab, f) && FlagsNext(pslab, f, a, f') && Next(f.s, Meant(a), f'.s)
    ensures VerdictOk(f')
  {
    hide Inv, FlagsAfter, PtrAfter, Sees, WorkerNext, MoverNext, HonestAt, Without, Advance;
    if f.verdict == Some(false) && Meant(a) != End {
      ClearedStays(f.s, Meant(a), f'.s, Target(f.s));
    }
    if WorkerNext(f.s, Meant(a), f'.s) {
      WorkerTakes(f.s, Meant(a), f'.s);
    } else {
      MoverTakes(f.s, Meant(a), f'.s);
      if a.Do? && (a.a.Copy? || a.a.CopyChunk? || a.a.GiveUpItem?) {
        PendingAt(f.s);
        MoverShape(f.s, a.a, f'.s, Target(f.s));
      } else if a.CutFree? {
        TargetAt(f.s);
      }
    }
  }

  lemma FreedHonest(pslab: bool, f: Flagged, r: Ref, x: Ref)
    requires Inv(f.s) && Clean(f) && r in f.s.slots && f.s.slots[r].Item? && x in f.s.slots
    requires !pslab || ChunksOf(f.s, r) == []
    ensures FreedFlags(pslab, f, r, x) == if x in [r] + ChunksOf(f.s, r) then ON_LIST else f.flags[x]
  {
    hide Inv;
    assert HonestAt(f, r);
    assert HonestAt(f, x);
  }

  lemma After(pslab: bool, f: Flagged, a: Act, f': Flagged, x: Ref)
    requires FlagsNext(pslab, f, a, f') && x in f'.s.slots
    ensures x in f'.flags && x in f'.ptr && f'.flags[x] == FlagsAfter(pslab, f, a, x)
    ensures !f'.s.slots[x].Item? ==> f'.ptr[x] == PtrAfter(f, a, x)
    ensures a.Do? && a.a.Grow? ==> a.a.h in f.flags && f.flags[a.a.h].chunked
    ensures a.Do? && a.a.ClearFree? ==> a.a.k == 0
  {
    hide FlagsAfter, PtrAfter, Next, Sees;
  }

  lemma FirstFree(s: State, c: nat)
    requires Inv(s) && First(s.free, c).Some?
    ensures FreeAt(s.slots, First(s.free, c).value)
  {
    hide Inv;
    ListedAt(s, c, 0);
  }

  lemma WorkerHonest(pslab: bool, f: Flagged, a: Act, f': Flagged, x: Ref)
    requires Inv(f.s) && Clean(f) && a.Do? && FlagsNext(pslab, f, a, f') && WorkerNext(f.s, a.a, f'.s)
    requires x in f'.s.slots && (!pslab || !FreesChunks(f.s, a))
    ensures HonestAt(f', x)
  {
    hide Inv, WorkerNext, MoverNext, First, ChunksOf, FreedFlags, Sees, FlagsNext;
    WorkerShape(f.s, a.a, f'.s, x);
    WorkerTakes(f.s, a.a, f'.s);
    After(pslab, f, a, f', x);
    if x in f.s.slots {
      assert HonestAt(f, x);
      if (a.a.Alloc? || a.a.Grow?) && First(f.s.free, a.a.c) == Some(x) {
        FirstFree(f.s, a.a.c);
      }
      if a.a.FreeAll? {
        FreedHonest(pslab, f, a.a.r, x);
      }
    }
  }

  lemma CopyHonest(pslab: bool, f: Flagged, a: Act, f': Flagged, x: Ref)
    requires Inv(f.s) && Clean(f) && a.Do? && FlagsNext(pslab, f, a, f') && MoverNext(f.s, a.a, f'.s) && x in f'.s.slots
    requires a.a.Copy?
    ensures HonestAt(f', x)
  {
    hide Inv, MoverNext, FreedFlags, Sees, FlagsNext, VerdictOk;
    MoverShape(f.s, a.a, f'.s, x);
    MoverTakes(f.s, a.a, f'.s);
    After(pslab, f, a, f', x);
    PendingAt(f.s);
    assert HonestAt(f, x);
    assert HonestAt(f, f.s.pending.value.item);
  }

  lemma CopyChunkHonest(pslab: bool, f: Flagged, a: Act, f': Flagged, x: Ref)
    requires Inv(f.s) && Clean(f) && a.Do? && FlagsNext(pslab, f, a, f') && MoverNext(f.s, a.a, f'.s) && x in f'.s.slots
    requires a.a.CopyChunk?
    ensures HonestAt(f', x)
  {
    hide Inv, MoverNext, FreedFlags, Sees, FlagsNext, VerdictOk;
    MoverShape(f.s, a.a, f'.s, x);
    MoverTakes(f.s, a.a, f'.s);
    After(pslab, f, a, f', x);
    PendingAt(f.s);
    assert HonestAt(f, x);
    assert HonestAt(f, f.s.pending.value.target);
  }

  lemma MoverHonest(pslab: bool, f: Flagged, a: Act, f': Flagged, x: Ref)
    requires Inv(f.s) && Clean(f) && a.Do? && FlagsNext(pslab, f, a, f') && MoverNext(f.s, a.a, f'.s) && a.a != End
    requires x in f'.s.slots && (!pslab || !FreesChunks(f.s, a))
    ensures HonestAt(f', x)
  {
    hide Inv, WorkerNext, MoverNext, First, ChunksOf, FreedFlags, Sees, FlagsNext;
    MoverShape(f.s, a.a, f'.s, x);
    MoverTakes(f.s, a.a, f'.s);
    After(pslab, f, a, f', x);
    match a.a {
      case LockItem(p) =>
        if p.dest == Some(x) {
          FirstFree(f.s, f.s.mover.value.s);
        }
      case ClearFree(k) => ClearedIsFirst(f.s, a.a, f'.s);
      case Copy(now, cas) => CopyHonest(pslab, f, a, f', x);
      case CopyChunk(j) => CopyChunkHonest(pslab, f, a, f', x);
      case GiveUpItem =>
        PendingAt(f.s);
        FreedHonest(pslab, f, f.s.pending.value.item, x);
      case _ =>
    }
  }

  lemma ClearedIsFirst(s: State, a: Action, s': State)
    requires Inv(s) && MoverNext(s, a, s') && a == ClearFree(0)
    ensures s.mover.Some? && s.mover.value.s < |s.free| && 0 < |s.free[s.mover.value.s]|
    ensures First(s.free, s.mover.value.s) == Some(s.free[s.mover.value.s][0])
    ensures FreeAt(s.slots, s.free[s.mover.value.s][0])
  {
    hide Inv, Without;
    ListedAt(s, s.mover.value.s, 0);
  }

  lemma EndHonest(pslab: bool, f: Flagged, a: Act, f': Flagged, x: Ref)
    requires Inv(f.s) && Clean(f) && a.Do? && a.a == End && FlagsNext(pslab, f, a, f') && MoverNext(f.s, End, f'.s)
    requires x in f'.s.slots
    ensures HonestAt(f', x)
  {
    hide Inv, MoverNext, FlagsNext, FreedFlags, Sees;
    EndShape(f.s, f'.s, x);
    MoverTakes(f.s, End, f'.s);
    After(pslab, f, a, f', x);
    assert HonestAt(f, x);
  }

  lemma VisitIs(pslab: bool, f: Flagged, a: Act, f': Flagged)
    requires Inv(f.s) && LooksRight(pslab, f) && !a.Do? && FlagsNext(pslab, f, a, f')
    ensures f.s.mover.Some?
    ensures a.CutFree? ==>
              && Sees(pslab, f, Target(f.s)) == Cut(Target(f.s), false) && FreeAt(f.s.slots, Target(f.s))
              && f'.s.slots == f.s.slots[Target(f.s) := Cleared]
    ensures a.GoOn? ==> f'.s.slots == f.s.slots
  {
    hide Inv, Sees, Without, Advance, FlagsAfter, PtrAfter;
    TargetAt(f.s);
  }

  lemma VisitHonest(pslab: bool, f: Flagged, a: Act, f': Flagged, x: Ref)
    requires Inv(f.s) && Clean(f) && LooksRight(pslab, f) && !a.Do? && FlagsNext(pslab, f, a, f') && x in f'.s.slots
    ensures HonestAt(f', x)
  {
    hide Inv, Sees, LooksRight, FlagsNext, FreedFlags;
    VisitIs(pslab, f, a, f');
    After(pslab, f, a, f', x);
    assert HonestAt(f, x);
  }

  /** Flags that tell the truth go on telling it, and the step is one of `SlabMover`, unless a build with persistent
      slabs frees an item with chunks. */
  lemma CleanKeeps(pslab: bool, f: Flagged, a: Act, f': Flagged)
    requires Inv(f.s) && Clean(f) && FlagsNext(pslab, f, a, f') && (!pslab || !FreesChunks(f.s, a))
    ensures Next(f.s, Meant(a), f'.s) && Inv(f'.s) && Clean(f')
  {
    assert ChunksOk(f.s.slots);
    hide Inv, Next, LooksRight, HonestAt, VerdictOk, ActNext, FreesChunks, ChunksOk;
    CleanLooksRight(pslab, f);
    ActIsMeant(pslab, f, a, f'.s);
    NextKeeps(f.s, Meant(a), f'.s);
    VerdictKeeps(pslab, f, a, f');
    forall x | x in f'.s.slots
      ensures HonestAt(f', x)
    {
      AtHonest(pslab, f, a, f', x);
    }
  }

  lemma AtHonest(pslab: bool, f: Flagged, a: Act, f': Flagged, x: Ref)
    requires Inv(f.s) && Clean(f) && LooksRight(pslab, f) && FlagsNext(pslab, f, a, f') && Next(f.s, Meant(a), f'.s)
    requires x in f'.s.slots && (!pslab || !FreesChunks(f.s, a))
    ensures HonestAt(f', x)
  {
    hide Inv, Clean, LooksRight, HonestAt, FlagsNext, FreesChunks, WorkerNext, MoverNext;
    if !a.Do? {
      VisitHonest(pslab, f, a, f', x);
    } else if WorkerNext(f.s, a.a, f'.s) {
      WorkerHonest(pslab, f, a, f', x);
    } else if a.a == End {
      EndHonest(pslab, f, a, f', x);
    } else {
      MoverHonest(pslab, f, a, f', x);
    }
  }

  /** The item that an act frees. */
  function Freed(s: State, a: Act): Option<Ref> {
    match a
    case Do(FreeAll(r), _) => Some(r)
    case Do(GiveUpItem, _) => if s.pending.Some? then Some(s.pending.value.item) else None
    case _ => None
  }

  /** That is the only exception: with persistent slabs, freeing an item with chunks leaves each of them on its free
      list with flags that still say it is part of that item. */
  lemma FreeLeavesChunks(f: Flagged, a: Act, f': Flagged, r: Ref, x: Ref)
    requires Inv(f.s) && Clean(f) && FlagsNext(true, f, a, f') && Freed(f.s, a) == Some(r) && x in ChunksOf(f.s, r)
    ensures FreeAt(f'.s.slots, x) && x in f'.flags && f'.flags[x] == PART && x in f'.ptr && f'.ptr[x] == Some(r)
    ensures Sees(true, f', x) != Truth(f'.s, x)
  {
    hide Inv, WorkerNext, MoverNext;
    HeldParts(f.s, r);
    assert HonestAt(f, x);
    if WorkerNext(f.s, a.a, f'.s) {
      WorkerShape(f.s, a.a, f'.s, x);
    } else {
      MoverShape(f.s, a.a, f'.s, x);
    }
    After(true, f, a, f', x);
  }

  // ---- Whole runs ----

  ghost predicate FlagRun(pslab: bool, perslab: seq<nat>, states: seq<Flagged>, acts: seq<Act>) {
    && ClassesOk(perslab) && |states| == |acts| + 1 && states[0] == Flagged(Blank(perslab), map[], map[], None)
    && forall i :: 0 <= i < |acts| ==> FlagsNext(pslab, states[i], acts[i], states[i + 1])
  }

  /** No act before the `i`-th frees an item with chunks, or this is not a build with persistent slabs. */
  ghost predicate NoneFreed(pslab: bool, states: seq<Flagged>, acts: seq<Act>, i: nat)
    requires i <= |acts| < |states|
  {
    !pslab || forall j :: 0 <= j < i ==> !FreesChunks(states[j].s, acts[j])
  }

  lemma {:induction false} RunClean(pslab: bool, perslab: seq<nat>, states: seq<Flagged>, acts: seq<Act>, i: nat)
    requires FlagRun(pslab, perslab, states, acts) && i < |states| && NoneFreed(pslab, states, acts, i)
    ensures Inv(states[i].s) && Clean(states[i])
    ensures forall j :: 0 <= j < i ==> Next(states[j].s, Meant(acts[j]), states[j + 1].s)
  {
    hide Inv, Clean, Next, FlagsNext, FreesChunks;
    if i == 0 {
      BlankOk(perslab);
      BlankClean(perslab);
    } else {
      RunClean(pslab, perslab, states, acts, i - 1);
      assert FlagsNext(pslab, states[i - 1], acts[i - 1], states[i - 1 + 1]);
      CleanKeeps(pslab, states[i - 1], acts[i - 1], states[i]);
    }
  }

  lemma BlankClean(perslab: seq<nat>)
    ensures Clean(Flagged(Blank(perslab), map[], map[], None))
  {
  }

  function Plain(states: seq<Flagged>): seq<State> { seq(|states|, i requires 0 <= i < |states| => states[i].s) }

  function MeantBy(acts: seq<Act>): seq<Action> { seq(|acts|, i requires 0 <= i < |acts| => Meant(acts[i])) }

  /** Up to the first item with chunks that is freed, or for ever without persistent slabs, what the code does is a
      run of `SlabMover`: all that is proved of those runs holds. */
  lemma RunIsMeant(pslab: bool, perslab: seq<nat>, states: seq<Flagged>, acts: seq<Act>, i: nat)
    requires FlagRun(pslab, perslab, states, acts) && i < |states| && NoneFreed(pslab, states, acts, i)
    ensures Run(perslab, Plain(states)[..i + 1], MeantBy(acts)[..i])
  {
    hide Inv, Clean, Next, FlagsNext, FreesChunks, ClassesOk, Blank;
    RunClean(pslab, perslab, states, acts, i);
    var plain, meant := Plain(states)[..i + 1], MeantBy(acts)[..i];
    forall j | 0 <= j < i
      ensures Next(plain[j], meant[j], plain[j + 1])
    {
      assert Next(states[j].s, Meant(acts[j]), states[j + 1].s);
    }
  }

  /** The mover sees every chunk for what it is throughout a run if and only if no item with chunks is freed in it, or
      this is not a build with persistent slabs. */
  lemma LooksRightIff(pslab: bool, perslab: seq<nat>, states: seq<Flagged>, acts: seq<Act>, i: nat)
    requires FlagRun(pslab, perslab, states, acts) && i < |states|
    ensures (forall j :: 0 <= j <= i ==> LooksRight(pslab, states[j])) <==> NoneFreed(pslab, states, acts, i)
  {
    hide Inv, Clean, FlagsNext, FreesChunks, LooksRight;
    if NoneFreed(pslab, states, acts, i) {
      forall j | 0 <= j <= i
        ensures LooksRight(pslab, states[j])
      {
        RunLooksRight(pslab, perslab, states, acts, j);
      }
    } else {
      var j := FirstFreed(pslab, states, acts, i);
      RunFreed(pslab, perslab, states, acts, j);
    }
  }

  lemma FirstFreed(pslab: bool, states: seq<Flagged>, acts: seq<Act>, i: nat) returns (j: nat)
    requires i <= |acts| < |states| && !NoneFreed(pslab, states, acts, i)
    ensures j < i && pslab && NoneFreed(pslab, states, acts, j) && FreesChunks(states[j].s, acts[j])
  {
    hide FreesChunks;
    j := 0;
    while !FreesChunks(states[j].s, acts[j])
      invariant j < i && forall l :: 0 <= l < j ==> !FreesChunks(states[l].s, acts[l])
      decreases i - j
    {
      j := j + 1;
    }
  }

  lemma RunLooksRight(pslab: bool, perslab: seq<nat>, states: seq<Flagged>, acts: seq<Act>, i: nat)
    requires FlagRun(pslab, perslab, states, acts) && i < |states| && NoneFreed(pslab, states, acts, i)
    ensures LooksRight(pslab, states[i])
  {
    RunClean(pslab, perslab, states, acts, i);
    hide Clean, PagesOk, FreeOk, TableOk, ChunksOk, MoverOk, PendingOk, FlagRun;
    CleanLooksRight(pslab, states[i]);
  }

  lemma RunFreed(pslab: bool, perslab: seq<nat>, states: seq<Flagged>, acts: seq<Act>, i: nat)
    requires FlagRun(pslab, perslab, states, acts) && i < |acts| && pslab && NoneFreed(pslab, states, acts, i)
    requires FreesChunks(states[i].s, acts[i])
    ensures !LooksRight(pslab, states[i + 1])
  {
    RunClean(pslab, perslab, states, acts, i);
    hide Inv, Clean, FlagsNext, Next;
    var f, a, f' := states[i], acts[i], states[i + 1];
    assert FlagsNext(pslab, f, a, f');
    var r := Freed(f.s, a).value;
    FreeLeavesChunks(f, a, f', r, ChunksOf(f.s, r)[0]);
  }

  /** So, up to the first item with chunks that is freed, a page that is done is cleared: no key leads into it,
      nobody holds a chunk of it and no item or free list has one. */
  lemma DoneIsSafe(pslab: bool, perslab: seq<nat>, states: seq<Flagged>, acts: seq<Act>, i: nat, k: nat)
    requires FlagRun(pslab, perslab, states, acts) && i < |states| && NoneFreed(pslab, states, acts, i)
    requires states[i].s.mover.Some? && states[i].s.mover.value.done
    requires states[i].s.mover.value.s < |states[i].s.perslab| && k < states[i].s.perslab[states[i].s.mover.value.s]
    ensures var s, x := states[i].s, Ref(states[i].s.mover.value.page, k);
            && ClearedAt(s.slots, x) && Holders(s, x) == 0
            && (forall r :: r in s.slots && s.slots[r].Item? ==> x !in s.slots[r].it.chunks)
            && (forall key :: key in s.table ==> s.table[key] != x)
            && (forall c :: 0 <= c < |s.free| ==> x !in s.free[c])
  {
    hide Run, FlagsNext, FreesChunks, ClearedAt, Holders, ClassesOk, Blank;
    RunIsMeant(pslab, perslab, states, acts, i);
    MoveIsSafe(perslab, Plain(states)[..i + 1], MeantBy(acts)[..i], i, k);
  }

  // ---- A chunk that was left on its list ----

  /** On its free list, with flags that say it is part of an item. */
  predicate Stale(f: Flagged, x: Ref) {
    && FreeAt(f.s.slots, x) && x in f.flags && f.flags[x].chunk && !f.flags[x].chunked
    && x in f.ptr && f.ptr[x] != Some(x)
  }

  /** The mover never sees what such a chunk is, on its list or used again for an item that is linked. */
  lemma StaleMisread(f: Flagged, x: Ref)
    requires x in f.s.slots && x in f.flags && f.flags[x].chunk && !f.flags[x].chunked
    requires FreeAt(f.s.slots, x) || LinkedAt(f.s.slots, x)
    ensures Sees(true, f, x) != Truth(f.s, x)
  {
    var p := f.ptr;
    assert x in p && p[x].Some? && p[x].value in f.flags ==> Sees(true, f, x) == SeesItem(f, p[x].value, true);
  }

  /** Allocation clears one bit and leaves the other: an ordinary item made of such a chunk carries it too. */
  lemma ReuseStaysStale(f: Flagged, c: nat, f': Flagged, x: Ref)
    requires Inv(f.s) && Stale(f, x) && First(f.s.free, c) == Some(x) && FlagsNext(true, f, Do(Alloc(c), false), f')
    ensures x in f'.s.slots && f'.s.slots[x] == Item(BLANK) && x in f'.flags && f'.flags[x].chunk &&
              !f'.flags[x].chunked
  {
    hide Inv, FreedFlags, Without;
  }

  /** Whatever the mover takes such a chunk for, its visit neither clears it nor takes it off its list. */
  lemma StaleStays(f: Flagged, a: Act, f': Flagged)
    requires Inv(f.s) && Visiting(f) && Stale(f, Target(f.s)) && (a.CutFree? || a.GoOn?) && FlagsNext(true, f, a, f')
    ensures var x, c := Target(f.s), f.s.mover.value.s;
            && FreeAt(f'.s.slots, x) && c < |f'.s.free| && x in f'.s.free[c]
            && x in f'.flags && f'.flags[x] == f.flags[x] && x in f'.ptr && f'.ptr[x] == f.ptr[x]
  {
    hide Inv, FreedFlags, Advance, Next, Without, NoRepeat;
    OnItsList(f.s, Target(f.s));
    TargetAt(f.s);
    if a.CutFree? {
      var it := Sees(true, f, Target(f.s)).it;
      OnItsList(f.s, it);
      WithoutIs(f.s.free[f.s.owner[it.page]], a.k);
    }
    After(true, f, a, f', Target(f.s));
  }

  lemma OnItsList(s: State, x: Ref)
    requires Inv(s) && FreeAt(s.slots, x)
    ensures x.page in s.owner && s.owner[x.page] < |s.free| && x in s.free[s.owner[x.page]]
    ensures NoRepeat(s.free[s.owner[x.page]])
  {
    hide TableOk, ChunksOk, MoverOk, PendingOk, NoRepeat;
    assert InClass(s.owner, s.perslab, x, s.owner[x.page]);
    assert FreeListOk(s.slots, s.owner, s.perslab, s.free[s.owner[x.page]], s.owner[x.page]);
  }

  lemma GoOnIs(pslab: bool, f: Flagged, busy: bool, f': Flagged)
    requires FlagsNext(pslab, f, GoOn(busy), f')
    ensures f.s.mover.Some? && f.s.mover.value.s < |f.s.perslab| && f.s.mover.value.pos < f.s.perslab[f.s.mover.value.s]
    ensures f'.s == f.s.(mover := Some(Advance(f.s.mover.value, busy, f.s.perslab[f.s.mover.value.s])))
  {
    hide FlagsAfter, PtrAfter, Sees, Advance;
  }

  lemma CutLeaves(pslab: bool, f: Flagged, k: nat, f': Flagged)
    requires FlagsNext(pslab, f, CutFree(k), f')
    ensures f'.s.mover == f.s.mover && f'.s.perslab == f.s.perslab
  {
    hide FlagsAfter, PtrAfter, Sees, Without;
  }

  /** At the end of a visit that met nothing busy, if the head it points to is on a free list as well, the mover is done
      with the page: a chunk of it is still on the free list. */
  lemma StaleDone(f: Flagged, k: nat, f': Flagged, f'': Flagged)
    requires Inv(f.s) && Visiting(f) && Stale(f, Target(f.s)) && f.s.mover.value.busy == 0
    requires f.s.mover.value.s < |f.s.perslab| && f.s.mover.value.pos + 1 == f.s.perslab[f.s.mover.value.s]
    requires FlagsNext(true, f, CutFree(k), f') && FlagsNext(true, f', GoOn(false), f'')
    ensures f''.s.mover.Some? && f''.s.mover.value.done && f''.s.mover.value.page == f.s.mover.value.page
    ensures FreeAt(f''.s.slots, Target(f.s)) && f.s.mover.value.s < |f''.s.free|
    ensures Target(f.s) in f''.s.free[f.s.mover.value.s]
  {
    hide Inv, Stale, FlagsNext;
    StaleStays(f, CutFree(k), f');
    CutLeaves(true, f, k, f');
    GoOnIs(true, f', false, f'');
  }

  // ---- Such a run: a large item with one chunk is made and freed, and then the page of the chunk is moved ----

  const H := Ref(0, 0)
  const X := Ref(1, 0)
  const Y := Ref(2, 0)

  const HEADER := BLANK.(chunks := [X])

  const NONE: Option<Ref> := None
  const LARGE := Flags(false, false, true, false)
  const FREED := Flags(true, true, false, false)

  const SIZES: seq<nat> := [0, 1, 1]
  const ONE_PAGE := State(map[H := Free], map[0 := 1], [[], [0], []], SIZES, [[], [H], []], map[], None, None)
  const TWO_PAGES :=
    State(map[H := Free, X := Free], map[0 := 1, 1 := 2], [[], [0], [1]], SIZES, [[], [H], [X]], map[], None, None)
  const THREE_PAGES :=
    State(map[H := Free, X := Free, Y := Free], map[0 := 1, 1 := 2, 2 := 2], [[], [0], [1, 2]], SIZES,
      [[], [H], [Y, X]],
          map[], None, None)

  function F0(): Flagged { Flagged(Blank(SIZES), map[], map[], None) }

  function F1(): Flagged { Flagged(ONE_PAGE, map[H := ON_LIST], map[H := NONE], None) }

  function F2(): Flagged {
    Flagged(TWO_PAGES, map[H := ON_LIST, X := ON_LIST], map[H := NONE, X := NONE], None)
  }

  function F3(): Flagged {
    Flagged(TWO_PAGES.(slots := map[H := Item(BLANK), X := Free], free := [[], [], [X]]), map[H := LARGE, X := ON_LIST],
            map[H := NONE, X := NONE], None)
  }

  function F4(): Flagged {
    Flagged(TWO_PAGES.(slots := map[H := Item(HEADER), X := Part(H, [])], free := [[], [], []]),
            map[H := LARGE, X := PART], map[H := NONE, X := Some(H)], None)
  }

  function F5(): Flagged {
    Flagged(TWO_PAGES.(slots := map[H := Item(HEADER.(refs := 0)), X := Part(H, [])], free := [[], [], []]),
            map[H := LARGE, X := PART], map[H := NONE, X := Some(H)], None)
  }

  function F6(): Flagged { Flagged(TWO_PAGES, map[H := FREED, X := PART], map[H := NONE, X := Some(H)], None) }

  function F7(): Flagged {
    Flagged(THREE_PAGES, map[H := FREED, X := PART, Y := ON_LIST], map[H := NONE, X := Some(H), Y := NONE], None)
  }

  function F8(): Flagged { F7().(s := THREE_PAGES.(mover := Some(Mover(2, 0, 1, 0, 0, 0, false)))) }

  function F9(): Flagged {
    Flagged(THREE_PAGES.(slots := map[H := Cleared, X := Free, Y := Free],
      mover := Some(Mover(2, 0, 1, 0, 0, 0, false))),
            map[H := FREED.(fetched := true), X := PART, Y := ON_LIST], map[H := NONE, X := Some(H),
              Y := NONE], Some(false))
  }

  function F10(): Flagged { F9().(s := F9().s.(mover := Some(Mover(2, 0, 1, 1, 0, 0, true))), verdict := None) }

  lemma Next0()
    ensures Next(F0().s, NewSlab(0, 1), F1().s)
  {
    assert Split(F0().s.slots, 0, 0) == map[];
    assert F0().s.free == [[], [], []] && F0().s.lists == [[], [], []];
    assert SplitFree([], 0, 1) == [H] && F0().s.lists[1] + [0] == [0];
    assert F1().s.free == F0().s.free[1 := [H]] && F1().s.lists == F0().s.lists[1 := [0]];
    assert F1().s.owner == F0().s.owner[0 := 1] && F1().s.slots == Split(F0().s.slots, 0, 1);
  }

  lemma Next1()
    ensures Next(F1().s, NewSlab(1, 2), F2().s)
  {
    assert Split(F1().s.slots, 1, 0) == F1().s.slots;
    assert SplitFree([], 1, 1) == [X] && F1().s.lists[2] + [1] == [1];
    assert F2().s.free == F1().s.free[2 := [X]] && F2().s.lists == F1().s.lists[2 := [1]];
    assert F2().s.owner == F1().s.owner[1 := 2] && F2().s.slots == Split(F1().s.slots, 1, 1);
  }

  lemma Next2()
    ensures Next(F2().s, Alloc(1), F3().s)
  {
    assert Without([H], 0) == [];
    assert F3().s.free == F2().s.free[1 := []];
    assert Take(F2().s, 1, Item(BLANK)) == F3().s;
  }

  lemma Next3()
    ensures Next(F3().s, Grow(H, 2), F4().s)
  {
    assert Without([X], 0) == [];
    assert F4().s.free == F3().s.free[2 := []];
    assert BLANK.chunks + [X] == [X];
  }

  lemma Next4()
    ensures Next(F4().s, Change(H, HEADER.(refs := 0)), F5().s)
  {
  }

  lemma Next5()
    ensures Next(F5().s, FreeAll(H), F6().s)
  {
    var refs := [H] + F5().s.slots[H].it.chunks;
    assert refs == [H, X];
    FreeBoth();
  }

  lemma FreeBoth()
    ensures Release(F5().s.slots, [H, X]) == F6().s.slots
    ensures PushAll(F5().s.free, F5().s.owner, [H, X]) == F6().s.free
  {
    ReleaseIs(F5().s.slots, [H, X]);
    hide Release;
    assert Release(F5().s.slots, [H, X]) == F6().s.slots;
    assert [H, X][1..] == [X] && [X][1..] == [];
    assert [H] + [] == [H] && [X] + [] == [X];
    assert Push(F5().s.free, F5().s.owner, H) == [[], [H], []];
    assert Push([[], [H], []], F5().s.owner, X) == [[], [H], [X]];
    assert PushAll([[], [H], []], F5().s.owner, [X]) == [[], [H], [X]];
  }

  lemma Next6()
    ensures Next(F6().s, NewSlab(2, 2), F7().s)
  {
    assert Split(F6().s.slots, 2, 0) == F6().s.slots;
    assert SplitFree([X], 2, 1) == [Y, X] && F6().s.lists[2] + [2] == [1, 2];
    assert F7().s.free == F6().s.free[2 := [Y, X]] && F7().s.lists == F6().s.lists[2 := [1, 2]];
    assert F7().s.owner == F6().s.owner[2 := 2] && F7().s.slots == Split(F6().s.slots, 2, 1);
  }

  lemma Step0()
    ensures FlagsNext(true, F0(), Do(NewSlab(0, 1), false), F1())
  {
    hide Next, Sees, Visiting, FreedFlags;
    Next0();
  }

  lemma Step1()
    ensures FlagsNext(true, F1(), Do(NewSlab(1, 2), false), F2())
  {
    hide Next, Sees, Visiting, FreedFlags;
    Next1();
  }

  lemma Step2()
    ensures FlagsNext(true, F2(), Do(Alloc(1), true), F3())
  {
    hide Next, Sees, Visiting, FreedFlags;
    Next2();
  }

  lemma Step3()
    ensures FlagsNext(true, F3(), Do(Grow(H, 2), false), F4())
  {
    hide Next, Sees, Visiting, FreedFlags;
    Next3();
  }

  lemma Step4()
    ensures FlagsNext(true, F4(), Do(Change(H, HEADER.(refs := 0)), false), F5())
  {
    hide Next, Sees, Visiting, FreedFlags;
    Next4();
  }

  lemma Flags5()
    ensures FreedFlags(true, F5(), H, H) == FREED && FreedFlags(true, F5(), H, X) == PART
  {
    assert X in ChunksOf(F5().s, H) && IsChunk(F5(), X);
  }

  lemma Step5()
    ensures FlagsNext(true, F5(), Do(FreeAll(H), false), F6())
  {
    hide Next, Sees, Visiting, FreedFlags;
    Next5();
    Flags5();
  }

  lemma Step6()
    ensures FlagsNext(true, F6(), Do(NewSlab(2, 2), false), F7())
  {
    hide Next, Sees, Visiting, FreedFlags;
    Next6();
  }

  lemma Step7()
    ensures FlagsNext(true, F7(), Do(Begin(2, 0), false), F8())
  {
  }

  lemma Step8()
    ensures FlagsNext(true, F8(), CutFree(0), F9())
  {
    assert Target(F8().s) == X && Sees(true, F8(), X) == Cut(H, true);
  }

  lemma Step9()
    ensures FlagsNext(true, F9(), GoOn(false), F10())
  {
  }

  lemma Starts()
    ensures F0() == Flagged(Blank(SIZES), map[], map[], None) && ClassesOk(SIZES)
  {
  }

  /** With persistent slabs the mover can be done with a page while a free list still has a chunk of it. */
  lemma MoverLeavesChunk() returns (states: seq<Flagged>, acts: seq<Act>)
    ensures FlagRun(true, SIZES, states, acts)
    ensures var s := states[|acts|].s;
            && s.mover.Some? && s.mover.value.done && s.mover.value.s < |s.free|
            && exists x :: x in s.free[s.mover.value.s] && x.page == s.mover.value.page
  {
    hide F0, F1, F2, F3, F4, F5, F6, F7, F8, F9, FlagsNext;
    Starts();
    Step0();
    Step1();
    Step2();
    Step3();
    Step4();
    Step5();
    Step6();
    Step7();
    Step8();
    Step9();
    states, acts := [F0(), F1(), F2(), F3(), F4(), F5(), F6(), F7(), F8(), F9(), F10()],
      [Do(NewSlab(0, 1), false), Do(NewSlab(1, 2), false), Do(Alloc(1), true), Do(Grow(H, 2), false),
       Do(Change(H, HEADER.(refs := 0)), false), Do(FreeAll(H), false), Do(NewSlab(2, 2), false),
       Do(Begin(2, 0), false), CutFree(0), GoOn(false)];
    forall i | 0 <= i < |acts|
      ensures FlagsNext(true, states[i], acts[i], states[i + 1])
    {
    }
    LastLeaves();
    assert X in states[|acts|].s.free[states[|acts|].s.mover.value.s] && X.page == 1;
  }

  lemma LastLeaves()
    ensures |F10().s.free| == 3 && X in F10().s.free[2] && F10().s.mover == Some(Mover(2, 0, 1, 1, 0, 0, true))
  {
  }
}
