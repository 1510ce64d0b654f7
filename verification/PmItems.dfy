/** Items in persistent memory: what a crash can find while worker threads allocate, fill, link, unlink,
    free and reuse flat items, one persistent-memory operation at a time. */
module PmItems {
  import opened Pmem

  type Key = seq<Byte>

  // Byte offsets inside an item.
  const TIME := 24
  const EXPTIME := 28
  const NBYTES := 32
  const REFCOUNT := 36
  const NSUFFIX := 38
  const FLAGS := 39
  const CLSID := 40
  const NKEY := 41
  const DATA := 48

  predicate LinkedBit(flags: Byte) { flags & 1 == 1 }
  function WithLinked(flags: Byte): (r: Byte)
    ensures LinkedBit(r)
  {
    flags | 1
  }
  function WithoutLinked(flags: Byte): (r: Byte)
    ensures !LinkedBit(r)
  {
    flags & 0xfe
  }

  /** The flags of an item in one piece: the CAS flag is there exactly when items carry a CAS value, the chunked flag is
      not. Where the key and the value begin depends on them. */
  predicate FlatFlags(flags: Byte, cas: nat) { (flags & 2 == 2 <==> cas == 8) && flags & 32 == 0 }

  /** The flags that are fixed when the item is allocated. */
  function Form(flags: Byte): Byte { flags & 0x22 }

  lemma SameForm(f: Byte, g: Byte, cas: nat)
    requires Form(f) == Form(g) && FlatFlags(f, cas)
    ensures FlatFlags(g, cas)
  {
    FormBits(f);
    FormBits(g);
  }

  lemma FormBits(f: Byte)
    ensures f & 2 == Form(f) & 2 && f & 32 == Form(f) & 32
  {
  }

  lemma LinkedForm(f: Byte)
    ensures Form(WithLinked(f)) == Form(f)
  {
  }

  function Num(b: Byte): (n: nat)
    ensures n < 256
  {
    b as int
  }

  /** The cached bytes of a slot. */
  function View(m: Memory): (v: seq<Byte>)
    requires AllSane(m)
    ensures |v| == |m| && forall a :: 0 <= a < |m| ==> v[a] == Cached(m[a])
  {
    seq(|m|, a requires 0 <= a < |m| => Cached(m[a]))
  }

  // ---- Reading an item out of its bytes; `cas` is 8 when items carry a CAS value and 0 when not ----

  predicate Roomy(b: seq<Byte>) { |b| > DATA }

  function ValueBytes(b: seq<Byte>): nat
    requires Roomy(b)
  {
    Num(b[NBYTES]) + 0x100 * Num(b[NBYTES + 1]) + 0x1_0000 * Num(b[NBYTES + 2]) + 0x100_0000 * Num(b[NBYTES + 3])
  }

  /** End of the variable part: key, terminator, suffix and value. */
  function End(b: seq<Byte>, cas: nat): nat
    requires Roomy(b)
  {
    DATA + cas + Num(b[NKEY]) + 1 + Num(b[NSUFFIX]) + ValueBytes(b)
  }

  predicate Fits(b: seq<Byte>, cas: nat) { Roomy(b) && End(b, cas) <= |b| }

  function KeyOf(b: seq<Byte>, cas: nat): Key
    requires Fits(b, cas)
  {
    b[DATA + cas..DATA + cas + Num(b[NKEY])]
  }

  /** The bytes that make up the stored item: expiry, lengths, key, suffix and value, and not the pointers,
      the access time, the reference count, the flags, the class or the CAS value. */
  predicate Content(b: seq<Byte>, cas: nat, a: nat)
    requires Roomy(b)
  {
    EXPTIME <= a < REFCOUNT || a == NSUFFIX || a == NKEY || DATA + cas <= a < End(b, cas)
  }

  /** Header bytes that are fixed once the allocation has flushed them. */
  predicate HeaderContent(a: nat) { EXPTIME <= a < REFCOUNT || a == NSUFFIX || a == NKEY }

  // ---- The machine ----

  /** What is going on with a slot.  The middle ones are the stages of do_item_link and do_item_unlink. */
  datatype Status =
    | Free
    | Draft(owner: nat, isSealed: bool)  // being filled; sealed once the header has been flushed
    | Filled                             // value flushed
    | Fixed                              // header, key and value drained
    | Raised                             // LINKED stored
    | RaisedMarked                       // LINKED flushed
    | Linked                             // LINKED drained
    | Lowered                            // LINKED cleared again
    | LoweredMarked                      // clearing flushed
    | Cleared                            // clearing drained
    | Zombie                             // out of the table, still referred to

  datatype Pc = Idle | Locked(k: Key) | Linking(k: Key, s: nat) | Unlinking(k: Key, s: nat)

  datatype State = State(cas: nat, mem: seq<Memory>, status: seq<Status>, snap: seq<seq<Byte>>, table: map<Key, nat>,
    pc: seq<Pc>)

  datatype Action =
    | Alloc(t: nat, s: nat, flags: Byte)
    | Write(t: nat, s: nat, a: nat, v: Byte)
    | Seal(t: nat, s: nat)
    | DropDraft(t: nat, s: nat, flags: Byte)
    | Lock(t: nat, k: Key)
    | Unlock(t: nat)
    | LinkFlush(t: nat, s: nat)
    | LinkDrain(t: nat)
    | LinkStore(t: nat)
    | LinkMark(t: nat)
    | LinkFlagDrain(t: nat)
    | LinkInsert(t: nat)
    | UnlinkStore(t: nat)
    | UnlinkMark(t: nat)
    | UnlinkFlagDrain(t: nat)
    | UnlinkRemove(t: nat)
    | Recycle(s: nat, flags: Byte)
    | Touch(s: nat, a: nat, v: Byte)
    | Hit(t: nat, flags: Byte)
    | ExtraFlush(s: nat, lo: nat, hi: nat)
    | ExtraDrain(s: nat)

  function Do(m: Memory, op: Op): (m': Memory)
    requires AllSane(m)
    ensures |m'| == |m| && AllSane(m') && forall a :: 0 <= a < |m| ==> m'[a] == CellStep(a, m[a], op)
  {
    seq(|m|, a requires 0 <= a < |m| => CellStep(a, m[a], op))
  }

  /** An operation on a slot that also moves the slot to status `x`. */
  function OnSlot(st: State, s: nat, op: Op, x: Status): State
    requires s < |st.mem| && s < |st.status| && AllSane(st.mem[s])
  {
    st.(mem := st.mem[s := Do(st.mem[s], op)], status := st.status[s := x])
  }

  function Goto(st: State, t: nat, pc: Pc): State
    requires t < |st.pc|
  {
    st.(pc := st.pc[t := pc])
  }

  function FlagsOf(st: State, s: nat): Byte
    requires s < |st.mem| && AllSane(st.mem[s]) && |st.mem[s]| > DATA
  {
    Cached(st.mem[s][FLAGS])
  }

  predicate Shape(st: State) {
    && |st.mem| == |st.status| == |st.snap| && (st.cas == 0 || st.cas == 8)
    && (forall s :: 0 <= s < |st.mem| ==> AllSane(st.mem[s]) && |st.mem[s]| > DATA)
  }

  predicate Holds(pc: Pc, k: Key) { !pc.Idle? && pc.k == k }

  /** Bytes other threads change on an item at any time: list pointers, access time, reference count, class
      and CAS value. */
  predicate Volatile(cas: nat, a: nat) {
    a < EXPTIME || REFCOUNT <= a < NSUFFIX || a == CLSID || DATA <= a < DATA + cas }

  predicate LinkingAt(st: State, t: nat, x: Status)
    requires Shape(st)
  {
    t < |st.pc| && st.pc[t].Linking? && st.pc[t].s < |st.mem| && st.status[st.pc[t].s] == x
  }

  predicate UnlinkingAt(st: State, t: nat, x: Status)
    requires Shape(st)
  {
    t < |st.pc| && st.pc[t].Unlinking? && st.pc[t].s < |st.mem| && st.status[st.pc[t].s] == x
  }

  predicate Owns(st: State, t: nat, s: nat)
    requires Shape(st)
  {
    s < |st.mem| && st.status[s].Draft? && st.status[s].owner == t
  }

  /** The thread holds the lock of a key that is in the table. */
  predicate AtItem(st: State, t: nat)
    requires Shape(st)
  {
    t < |st.pc| && st.pc[t].Locked? && st.pc[t].k in st.table && st.table[st.pc[t].k] < |st.mem|
  }

  /** One atomic step. */
  predicate Next(st: State, x: Action, st': State)
    requires Shape(st)
  {
    match x
    // slabs_alloc hands out a free slot; its flags are rewritten without LINKED
    case Alloc(t, s, f) => s < |st.mem| && st.status[s].Free? && !LinkedBit(f) &&
           st' == OnSlot(st, s, Store(FLAGS, f), Draft(t, false))
    // do_item_alloc and the upload fill the slot, byte by byte; the sealed header is left alone
    case Write(t, s, a, v) => Owns(st, t, s) && (a == FLAGS ==> !LinkedBit(v)) && (st.status[s].isSealed ==>
           !HeaderContent(a)) &&
      st' == OnSlot(st, s, Store(a, v), st.status[s])
    // the header flush at the end of do_item_alloc
    case Seal(t, s) => Owns(st, t, s) && st' == OnSlot(st, s, Flush(TIME, DATA), Draft(t, true))
    case DropDraft(t, s, f) => Owns(st, t, s) && !LinkedBit(f) && st' == OnSlot(st, s, Store(FLAGS, f), Free)
    case Lock(t, k) => t < |st.pc| && st.pc[t].Idle? && (forall u :: 0 <= u < |st.pc| ==> !Holds(st.pc[u], k)) &&
           st' == Goto(st, t, Locked(k))
    case Unlock(t) => t < |st.pc| && st.pc[t].Locked? && st' == Goto(st, t, Idle)
    // do_item_link
    case LinkFlush(t, s) =>
      t < |st.pc| && st.pc[t].Locked? && st.pc[t].k !in st.table && Owns(st, t, s) && st.status[s].isSealed &&
      var b := View(st.mem[s]);
      Fits(b, st.cas) && KeyOf(b, st.cas) == st.pc[t].k && FlatFlags(b[FLAGS], st.cas) &&
      st' == Goto(OnSlot(st, s, Flush(DATA, End(b, st.cas)), Filled), t,
        Linking(st.pc[t].k, s)).(snap := st.snap[s := b])
    case LinkDrain(t) => LinkingAt(st, t, Filled) && st' == OnSlot(st, st.pc[t].s, Drain, Fixed)
    case LinkStore(t) => LinkingAt(st, t, Fixed) &&
           st' == OnSlot(st, st.pc[t].s, Store(FLAGS, WithLinked(FlagsOf(st, st.pc[t].s))), Raised)
    case LinkMark(t) => LinkingAt(st, t, Raised) && st' == OnSlot(st, st.pc[t].s, Flush(FLAGS, FLAGS + 1), RaisedMarked)
    case LinkFlagDrain(t) => LinkingAt(st, t, RaisedMarked) && st' == OnSlot(st, st.pc[t].s, Drain, Linked)
    case LinkInsert(t) => LinkingAt(st, t, Linked) &&
      st' == Goto(st, t, Locked(st.pc[t].k)).(table := st.table[st.pc[t].k := st.pc[t].s])
    // do_item_unlink
    case UnlinkStore(t) => AtItem(st, t) && st.status[st.table[st.pc[t].k]].Linked? &&
      var s := st.table[st.pc[t].k];
      st' == Goto(OnSlot(st, s, Store(FLAGS, WithoutLinked(FlagsOf(st, s))), Lowered), t, Unlinking(st.pc[t].k, s))
    case UnlinkMark(t) => UnlinkingAt(st, t, Lowered) && st' == OnSlot(st, st.pc[t].s, Flush(FLAGS, FLAGS + 1),
           LoweredMarked)
    case UnlinkFlagDrain(t) => UnlinkingAt(st, t, LoweredMarked) && st' == OnSlot(st, st.pc[t].s, Drain, Cleared)
    case UnlinkRemove(t) => UnlinkingAt(st, t, Cleared) &&
      st' == Goto(st, t, Locked(st.pc[t].k)).(table := st.table - {st.pc[t].k},
        status := st.status[st.pc[t].s := Zombie])
    // slabs_free once nobody refers to the item
    case Recycle(s, f) => s < |st.mem| && st.status[s].Zombie? && !LinkedBit(f) &&
           st' == OnSlot(st, s, Store(FLAGS, f), Free)
    // pointers, times, counts and CAS values change under other locks, without any flush
    case Touch(s, a, v) => s < |st.mem| && Volatile(st.cas, a) && st' == OnSlot(st, s, Store(a, v), st.status[s])
    // fetched and active marks, set by the holder of the item's lock
    case Hit(t, f) => AtItem(st, t) && LinkedBit(f) && Form(f) == Form(FlagsOf(st, st.table[st.pc[t].k])) &&
           st' == OnSlot(st, st.table[st.pc[t].k], Store(FLAGS, f), st.status[st.table[st.pc[t].k]])
    // neighbours on the same cache line, other drains: more may be on the medium than asked for
    case ExtraFlush(s, lo, hi) => s < |st.mem| && st' == OnSlot(st, s, Flush(lo, hi), st.status[s])
    case ExtraDrain(s) => s < |st.mem| && st' == OnSlot(st, s, Drain, st.status[s])
  }

  // ---- The invariant ----

  predicate NeverLinked(m: Memory)
    requires |m| > DATA
  {
    forall i :: 0 <= i < |m[FLAGS].hist| ==> !LinkedBit(m[FLAGS].hist[i])
  }

  predicate AlwaysLinked(m: Memory)
    requires |m| > DATA
  {
    forall i :: 0 <= i < |m[FLAGS].hist| ==> LinkedBit(m[FLAGS].hist[i])
  }

  /** Whenever LINKED is on the medium, so are the flags that say where the key and the value begin. */
  predicate FlagsFixed(m: Memory, cas: nat)
    requires |m| > DATA
  {
    forall i :: 0 <= i < |m[FLAGS].hist| && LinkedBit(m[FLAGS].hist[i]) ==> FlatFlags(m[FLAGS].hist[i], cas)
  }

  predicate FlagsReady(m: Memory, cas: nat)
    requires AllSane(m) && |m| > DATA
  {
    FlatFlags(Cached(m[FLAGS]), cas)
  }

  /** The next drain leaves only the cached value. */
  predicate Marked(c: Cell) { c.flushed == |c.hist| - 1 }

  predicate HeaderMarked(m: Memory)
    requires |m| > DATA
  {
    forall a :: 0 <= a < |m| && HeaderContent(a) ==> Marked(m[a])
  }

  /** The content bytes of `b` are cached, flushed and waiting for a drain. */
  predicate ContentMarked(m: Memory, b: seq<Byte>, cas: nat)
    requires AllSane(m) && |m| > DATA
  {
    |b| == |m| && Fits(b, cas) && forall a :: 0 <= a < |m| && Content(b, cas, a) ==>
      Marked(m[a]) && Cached(m[a]) == b[a]
  }

  /** The content bytes of `b` are on the medium. */
  predicate ContentFixed(m: Memory, b: seq<Byte>, cas: nat)
    requires |m| > DATA
  {
    |b| == |m| && Fits(b, cas) && forall a :: 0 <= a < |m| && Content(b, cas, a) ==> m[a] == Cell([b[a]], 0)
  }

  predicate SlotOk(m: Memory, x: Status, b: seq<Byte>, cas: nat)
    requires AllSane(m) && |m| > DATA
  {
    match x
    case Free => NeverLinked(m)
    case Draft(_, isSealed) => NeverLinked(m) && (isSealed ==> HeaderMarked(m))
    case Filled => NeverLinked(m) && ContentMarked(m, b, cas) && FlagsReady(m, cas)
    case Fixed => NeverLinked(m) && ContentFixed(m, b, cas) && FlagsReady(m, cas)
    case Raised => ContentFixed(m, b, cas) && FlagsFixed(m, cas) && LinkedBit(Cached(m[FLAGS]))
    case RaisedMarked => ContentFixed(m, b, cas) && FlagsFixed(m, cas) && LinkedBit(Cached(m[FLAGS])) &&
           Marked(m[FLAGS])
    case Linked => ContentFixed(m, b, cas) && FlagsFixed(m, cas) && AlwaysLinked(m)
    case Lowered => ContentFixed(m, b, cas) && FlagsFixed(m, cas) && !LinkedBit(Cached(m[FLAGS]))
    case LoweredMarked => ContentFixed(m, b, cas) && FlagsFixed(m, cas) && !LinkedBit(Cached(m[FLAGS])) &&
           Marked(m[FLAGS])
    case Cleared => ContentFixed(m, b, cas) && NeverLinked(m)
    case Zombie => NeverLinked(m)
  }

  predicate Claimed(x: Status) { !x.Free? && !x.Draft? && !x.Zombie? }

  predicate BeingLinked(x: Status) { x.Filled? || x.Fixed? || x.Raised? || x.RaisedMarked? || x.Linked? }
  predicate BeingUnlinked(x: Status) { x.Lowered? || x.LoweredMarked? || x.Cleared? }

  /** A slot past its draft belongs to one key: it is in the table under it, or its lock holder is linking it. */
  predicate ClaimOk(st: State, s: nat)
    requires Shape(st) && s < |st.mem|
  {
    Fits(st.snap[s], st.cas) &&
    var k := KeyOf(st.snap[s], st.cas);
    (k in st.table && st.table[k] == s) || exists t :: 0 <= t < |st.pc| && st.pc[t] == Linking(k, s)
  }

  predicate PcOk(st: State, p: Pc)
    requires Shape(st)
  {
    match p
    case Idle => true
    case Locked(k) => k in st.table ==> st.table[k] < |st.mem| && st.status[st.table[k]].Linked?
    case Linking(k, s) => s < |st.mem| && BeingLinked(st.status[s]) && Fits(st.snap[s], st.cas) &&
           KeyOf(st.snap[s], st.cas) == k && k !in st.table
    case Unlinking(k, s) => s < |st.mem| && BeingUnlinked(st.status[s]) && k in st.table && st.table[k] == s
  }

  predicate EntryOk(st: State, k: Key)
    requires Shape(st) && k in st.table
  {
    var s := st.table[k];
    s < |st.mem| && (st.status[s].Linked? || BeingUnlinked(st.status[s])) && Fits(st.snap[s], st.cas) &&
      KeyOf(st.snap[s], st.cas) == k &&
    (BeingUnlinked(st.status[s]) ==> exists t :: 0 <= t < |st.pc| && st.pc[t] == Unlinking(k, s))
  }

  /** No two threads hold the same key. */
  predicate LocksOk(st: State) {
    forall t, u :: 0 <= t < u < |st.pc| && !st.pc[t].Idle? && !st.pc[u].Idle? ==> st.pc[t].k != st.pc[u].k
  }

  predicate Claims(st: State)
    requires Shape(st)
  {
    forall s :: 0 <= s < |st.mem| && Claimed(st.status[s]) ==> ClaimOk(st, s)
  }

  predicate Pcs(st: State)
    requires Shape(st)
  {
    forall t :: 0 <= t < |st.pc| ==> PcOk(st, st.pc[t])
  }

  predicate Entries(st: State)
    requires Shape(st)
  {
    forall k :: k in st.table ==> EntryOk(st, k)
  }

  /** Who owns which slot. */
  predicate Roles(st: State)
    requires Shape(st)
  {
    Claims(st) && Pcs(st) && Entries(st) && LocksOk(st)
  }

  predicate Slots(st: State)
    requires Shape(st)
  {
    forall s :: 0 <= s < |st.mem| ==> SlotOk(st.mem[s], st.status[s], st.snap[s], st.cas)
  }

  predicate Inv(st: State) { Shape(st) && Slots(st) && Roles(st) }

  // ---- What an operation does to one slot ----

  /** Operations that touch no content byte and leave LINKED alone. */
  predicate Harmless(cas: nat, op: Op) { op.Store? ==> Volatile(cas, op.addr) }

  lemma HarmlessFlags(m: Memory, cas: nat, op: Op)
    requires AllSane(m) && |m| > DATA && cas <= 8 && Harmless(cas, op)
    ensures var m' := Do(m, op);
            && (NeverLinked(m) ==> NeverLinked(m')) && (AlwaysLinked(m) ==> AlwaysLinked(m'))
            && (FlagsFixed(m, cas) ==> FlagsFixed(m', cas)) && Cached(m'[FLAGS]) == Cached(m[FLAGS])
            && (Marked(m[FLAGS]) ==> Marked(m'[FLAGS]))
  {
    hide LinkedBit, FlatFlags;
    var m' := Do(m, op);
    assert m'[FLAGS] == CellStep(FLAGS, m[FLAGS], op);
  }

  lemma HarmlessContent(m: Memory, b: seq<Byte>, cas: nat, op: Op)
    requires AllSane(m) && |m| > DATA && cas <= 8 && Harmless(cas, op)
    ensures HeaderMarked(m) ==> HeaderMarked(Do(m, op))
    ensures ContentMarked(m, b, cas) ==> ContentMarked(Do(m, op), b, cas)
    ensures ContentFixed(m, b, cas) ==> ContentFixed(Do(m, op), b, cas)
  {
    hide End;
    assert forall a :: 0 <= a < |m| && Roomy(b) && (Content(b, cas, a) || HeaderContent(a)) ==>
             (op.Store? ==> op.addr != a);
  }

  lemma HarmlessKeeps(m: Memory, x: Status, b: seq<Byte>, cas: nat, op: Op)
    requires AllSane(m) && |m| > DATA && cas <= 8 && SlotOk(m, x, b, cas) && Harmless(cas, op)
    ensures SlotOk(Do(m, op), x, b, cas)
  {
    hide NeverLinked, AlwaysLinked, FlagsFixed, HeaderMarked, ContentMarked, ContentFixed, LinkedBit, FlatFlags, Do;
    HarmlessFlags(m, cas, op);
    HarmlessContent(m, b, cas, op);
  }

  /** Filling a draft. */
  lemma DraftWrite(m: Memory, t: nat, isSealed: bool, b: seq<Byte>, cas: nat, a: nat, v: Byte)
    requires AllSane(m) && |m| > DATA && SlotOk(m, Draft(t, isSealed), b, cas)
    requires (a == FLAGS ==> !LinkedBit(v)) && (isSealed ==> !HeaderContent(a))
    ensures SlotOk(Do(m, Store(a, v)), Draft(t, isSealed), b, cas)
  {
    hide LinkedBit, FlatFlags;
  }

  lemma FlagsRewritten(m: Memory, x: Status, y: Status, b: seq<Byte>, cas: nat, f: Byte)
    requires AllSane(m) && |m| > DATA && SlotOk(m, x, b, cas) && !LinkedBit(f)
    requires (x.Free? && y.Draft? && !y.isSealed) || (x.Draft? && y.Free?) || (x.Zombie? && y.Free?)
    ensures SlotOk(Do(m, Store(FLAGS, f)), y, b, cas)
  {
    hide LinkedBit, FlatFlags;
  }

  lemma DraftSealed(m: Memory, t: nat, b: seq<Byte>, cas: nat, was: bool)
    requires AllSane(m) && |m| > DATA && SlotOk(m, Draft(t, was), b, cas)
    ensures SlotOk(Do(m, Flush(TIME, DATA)), Draft(t, true), b, cas)
  {
    hide LinkedBit, FlatFlags;
  }

  lemma DraftFilled(m: Memory, t: nat, b: seq<Byte>, cas: nat)
    requires AllSane(m) && |m| > DATA && SlotOk(m, Draft(t, true), b, cas) && Fits(View(m), cas) &&
               FlatFlags(View(m)[FLAGS], cas)
    ensures SlotOk(Do(m, Flush(DATA, End(View(m), cas))), Filled, View(m), cas)
  {
    hide LinkedBit, End, FlatFlags;
    var v := View(m);
    var m' := Do(m, Flush(DATA, End(v, cas)));
    assert m'[FLAGS] == m[FLAGS];
  }

  lemma FilledFixed(m: Memory, b: seq<Byte>, cas: nat)
    requires AllSane(m) && |m| > DATA && SlotOk(m, Filled, b, cas)
    ensures SlotOk(Do(m, Drain), Fixed, b, cas)
  {
    hide LinkedBit, End, FlatFlags;
  }

  lemma FlagStored(m: Memory, x: Status, y: Status, b: seq<Byte>, cas: nat, f: Byte)
    requires AllSane(m) && |m| > DATA && cas <= 8 && SlotOk(m, x, b, cas)
    requires (x.Fixed? && y.Raised? && LinkedBit(f)) || (x.Linked? && y.Lowered? && !LinkedBit(f)) || (x.Linked? &&
               y.Linked? && LinkedBit(f))
    requires LinkedBit(f) ==> FlatFlags(f, cas)
    ensures SlotOk(Do(m, Store(FLAGS, f)), y, b, cas)
  {
    hide LinkedBit, End, FlatFlags;
    var m' := Do(m, Store(FLAGS, f));
    assert m'[FLAGS].hist == m[FLAGS].hist + [f];
    assert forall a :: 0 <= a < |m| && Content(b, cas, a) ==> m'[a] == m[a];
  }

  lemma FlagFlushed(m: Memory, x: Status, y: Status, b: seq<Byte>, cas: nat)
    requires AllSane(m) && |m| > DATA && SlotOk(m, x, b, cas)
    requires (x.Raised? && y.RaisedMarked?) || (x.Lowered? && y.LoweredMarked?)
    ensures SlotOk(Do(m, Flush(FLAGS, FLAGS + 1)), y, b, cas)
  {
    hide LinkedBit, End, FlatFlags;
    var m' := Do(m, Flush(FLAGS, FLAGS + 1));
    assert m'[FLAGS] == FlushCell(m[FLAGS]);
    assert forall a :: 0 <= a < |m| && a != FLAGS ==> m'[a] == m[a];
  }

  lemma FlagDrained(m: Memory, x: Status, y: Status, b: seq<Byte>, cas: nat)
    requires AllSane(m) && |m| > DATA && SlotOk(m, x, b, cas)
    requires (x.RaisedMarked? && y.Linked?) || (x.LoweredMarked? && y.Cleared?)
    ensures SlotOk(Do(m, Drain), y, b, cas)
  {
    hide LinkedBit, End, FlatFlags;
    var m' := Do(m, Drain);
    assert m'[FLAGS] == DrainCell(m[FLAGS]);
  }

  // ---- Steps that leave the roles of slots and threads as they are ----

  predicate SameRole(x: Status, y: Status) {
    && (x.Linked? ==> y.Linked?) && (y.Linked? ==> x.Linked? || x.RaisedMarked?)
    && BeingLinked(x) == BeingLinked(y) && BeingUnlinked(x) == BeingUnlinked(y)
  }

  lemma RolesKept(st: State, st': State, s: nat, y: Status)
    requires Shape(st) && Roles(st) && s < |st.mem| && SameRole(st.status[s], y)
    requires Shape(st') && |st'.mem| == |st.mem| && st'.status == st.status[s := y]
    requires st'.cas == st.cas && st'.snap == st.snap && st'.table == st.table && st'.pc == st.pc
    ensures Roles(st')
  {
    hide KeyOf, Fits, AllSane;
    forall r | 0 <= r < |st'.mem| && Claimed(st'.status[r])
      ensures ClaimOk(st', r)
    {
      assert ClaimOk(st, r);
    }
    forall t | 0 <= t < |st'.pc|
      ensures PcOk(st', st'.pc[t])
    {
      assert PcOk(st, st.pc[t]);
    }
    forall k | k in st'.table
      ensures EntryOk(st', k)
    {
      assert EntryOk(st, k);
    }
  }

  lemma SlotsKept(st: State, s: nat, op: Op, y: Status)
    requires Shape(st) && Slots(st) && s < |st.mem| && SlotOk(Do(st.mem[s], op), y, st.snap[s], st.cas)
    ensures Shape(OnSlot(st, s, op, y)) && Slots(OnSlot(st, s, op, y))
  {
    hide Do, SlotOk;
  }

  lemma SlotStep(st: State, s: nat, op: Op, y: Status)
    requires Inv(st) && s < |st.mem| && SameRole(st.status[s], y)
    requires SlotOk(Do(st.mem[s], op), y, st.snap[s], st.cas)
    ensures Inv(OnSlot(st, s, op, y))
  {
    hide Do, SlotOk, Roles, Slots, SameRole;
    SlotsKept(st, s, op, y);
    RolesKept(st, OnSlot(st, s, op, y), s, y);
  }

  // ---- Steps that change hands ----

  lemma LockStep(st: State, x: Action, st': State)
    requires Inv(st) && Next(st, x, st') && (x.Lock? || x.Unlock?)
    ensures Inv(st')
  {
    hide KeyOf, Fits, AllSane, SlotOk;
    forall r | 0 <= r < |st'.mem| && Claimed(st'.status[r])
      ensures ClaimOk(st', r)
    {
      assert ClaimOk(st, r);
      if exists t :: 0 <= t < |st.pc| && st.pc[t] == Linking(KeyOf(st.snap[r], st.cas), r) {
        var t :| 0 <= t < |st.pc| && st.pc[t] == Linking(KeyOf(st.snap[r], st.cas), r);
        assert st'.pc[t] == st.pc[t];
      }
    }
    forall t | 0 <= t < |st'.pc|
      ensures PcOk(st', st'.pc[t])
    {
      assert PcOk(st, st.pc[t]);
      if x.Lock? && t == x.t && x.k in st.table {
        assert EntryOk(st, x.k);
        assert forall u :: 0 <= u < |st.pc| ==> !Holds(st.pc[u], x.k);
      }
    }
    forall k | k in st'.table
      ensures EntryOk(st', k)
    {
      assert EntryOk(st, k);
      var s := st.table[k];
      if BeingUnlinked(st.status[s]) {
        var t :| 0 <= t < |st.pc| && st.pc[t] == Unlinking(k, s);
        assert st'.pc[t] == st.pc[t];
      }
    }
  }

  /** Slots other than `s` keep their memory, status and snapshot. */
  predicate OnlySlot(st: State, st': State, s: nat)
    requires Shape(st) && Shape(st')
  {
    |st'.mem| == |st.mem| && st'.cas == st.cas &&
    forall r :: 0 <= r < |st.mem| && r != s
       ==> st'.mem[r] == st.mem[r] && st'.status[r] == st.status[r] && st'.snap[r] == st.snap[r]
  }

  lemma SlotsMoved(st: State, st': State, s: nat)
    requires Shape(st) && Shape(st') && Slots(st) && OnlySlot(st, st', s) && s < |st.mem|
    requires SlotOk(st'.mem[s], st'.status[s], st'.snap[s], st'.cas)
    ensures Slots(st')
  {
    hide SlotOk;
  }

  lemma RolesLinkFlush(st: State, st': State, t: nat, s: nat)
    requires Shape(st) && Shape(st') && Roles(st) && OnlySlot(st, st', s)
    requires t < |st.pc| && st.pc[t].Locked? && s < |st.mem| && st.status[s].Draft? && st.pc[t].k !in st.table
    requires st'.status[s].Filled? && Fits(st'.snap[s], st.cas) && KeyOf(st'.snap[s], st.cas) == st.pc[t].k
    requires st'.table == st.table && st'.pc == st.pc[t := Linking(st.pc[t].k, s)]
    ensures Roles(st')
  {
    hide KeyOf, Fits, AllSane;
    assert st'.pc[t] == Linking(st.pc[t].k, s);
    forall r | 0 <= r < |st'.mem| && Claimed(st'.status[r])
      ensures ClaimOk(st', r)
    {
      if r != s {
        assert ClaimOk(st, r);
        var k' := KeyOf(st.snap[r], st.cas);
        if !(k' in st.table && st.table[k'] == r) {
          var u :| 0 <= u < |st.pc| && st.pc[u] == Linking(k', r);
          assert st'.pc[u] == st.pc[u];
        }
      }
    }
    forall u | 0 <= u < |st'.pc|
      ensures PcOk(st', st'.pc[u])
    {
      assert PcOk(st, st.pc[u]);
    }
    forall k' | k' in st'.table
      ensures EntryOk(st', k')
    {
      assert EntryOk(st, k');
      EntryThread(st, st', k');
    }
  }

  /** A thread that is unlinking an item goes on doing so while others move. */
  lemma EntryThread(st: State, st': State, k: Key)
    requires Shape(st) && k in st.table && EntryOk(st, k) && |st'.pc| == |st.pc|
    requires forall u :: 0 <= u < |st.pc| && st.pc[u].Unlinking? && st.pc[u].k == k ==> st'.pc[u] == st.pc[u]
    ensures BeingUnlinked(st.status[st.table[k]]) ==>
               exists t :: 0 <= t < |st'.pc| && st'.pc[t] == Unlinking(k, st.table[k])
  {
    hide KeyOf, Fits, AllSane;
    var s := st.table[k];
    if BeingUnlinked(st.status[s]) {
      var u :| 0 <= u < |st.pc| && st.pc[u] == Unlinking(k, s);
      assert st'.pc[u] == Unlinking(k, s);
    }
  }

  lemma LinkFlushStep(st: State, x: Action, st': State)
    requires Inv(st) && Next(st, x, st') && x.LinkFlush?
    ensures Inv(st')
  {
    var t, s := x.t, x.s;
    DraftFilled(st.mem[s], t, st.snap[s], st.cas);
    hide KeyOf, Fits, SlotOk, Do, End, Roles;
    assert Shape(st') && OnlySlot(st, st', s);
    SlotsMoved(st, st', s);
    RolesLinkFlush(st, st', t, s);
  }

  lemma LinkInsertStep(st: State, x: Action, st': State)
    requires Inv(st) && Next(st, x, st') && x.LinkInsert?
    ensures Inv(st')
  {
    hide KeyOf, Fits, AllSane, SlotOk;
    var t := x.t;
    var k, s := st.pc[t].k, st.pc[t].s;
    assert PcOk(st, st.pc[t]);
    forall r | 0 <= r < |st'.mem| && Claimed(st'.status[r])
      ensures ClaimOk(st', r)
    {
      assert ClaimOk(st, r);
      var k' := KeyOf(st.snap[r], st.cas);
      if r != s && !(k' in st.table && st.table[k'] == r) {
        var u :| 0 <= u < |st.pc| && st.pc[u] == Linking(k', r);
        assert st'.pc[u] == st.pc[u];
      }
    }
    forall u | 0 <= u < |st'.pc|
      ensures PcOk(st', st'.pc[u])
    {
      assert PcOk(st, st.pc[u]);
    }
    forall k' | k' in st'.table
      ensures EntryOk(st', k')
    {
      if k' != k {
        assert EntryOk(st, k');
        var r := st.table[k'];
        if BeingUnlinked(st.status[r]) {
          var u :| 0 <= u < |st.pc| && st.pc[u] == Unlinking(k', r);
          assert st'.pc[u] == st.pc[u];
        }
      }
    }
  }

  lemma RolesUnlinkStore(st: State, st': State, t: nat, s: nat)
    requires Shape(st) && Shape(st') && Roles(st) && OnlySlot(st, st', s)
    requires t < |st.pc| && st.pc[t].Locked? && st.pc[t].k in st.table && st.table[st.pc[t].k] == s && s < |st.mem|
    requires st.status[s].Linked?
    requires st'.status[s].Lowered? && st'.snap[s] == st.snap[s]
    requires st'.table == st.table && st'.pc == st.pc[t := Unlinking(st.pc[t].k, s)]
    ensures Roles(st')
  {
    ClaimsUnlinkStore(st, st', t, s);
    PcsUnlinkStore(st, st', t, s);
    EntriesUnlinkStore(st, st', t, s);
    hide ClaimOk, PcOk, EntryOk;
  }

  lemma ClaimsUnlinkStore(st: State, st': State, t: nat, s: nat)
    requires Shape(st) && Shape(st') && Roles(st) && OnlySlot(st, st', s)
    requires t < |st.pc| && st.pc[t].Locked? && st.pc[t].k in st.table && st.table[st.pc[t].k] == s && s < |st.mem|
    requires st.status[s].Linked?
    requires st'.status[s].Lowered? && st'.snap[s] == st.snap[s]
    requires st'.table == st.table && st'.pc == st.pc[t := Unlinking(st.pc[t].k, s)]
    ensures forall r :: 0 <= r < |st'.mem| && Claimed(st'.status[r]) ==> ClaimOk(st', r)
  {
    hide KeyOf, Fits, AllSane;
    var k := st.pc[t].k;
    assert EntryOk(st, k);
    assert st'.pc[t] == Unlinking(k, s);
    forall r | 0 <= r < |st'.mem| && Claimed(st'.status[r])
      ensures ClaimOk(st', r)
    {
      assert ClaimOk(st, r);
      var k' := KeyOf(st.snap[r], st.cas);
      if !(k' in st.table && st.table[k'] == r) {
        var u :| 0 <= u < |st.pc| && st.pc[u] == Linking(k', r);
        assert st'.pc[u] == st.pc[u];
      }
    }
  }

  lemma PcsUnlinkStore(st: State, st': State, t: nat, s: nat)
    requires Shape(st) && Shape(st') && Roles(st) && OnlySlot(st, st', s)
    requires t < |st.pc| && st.pc[t].Locked? && st.pc[t].k in st.table && st.table[st.pc[t].k] == s && s < |st.mem|
    requires st.status[s].Linked?
    requires st'.status[s].Lowered? && st'.snap[s] == st.snap[s]
    requires st'.table == st.table && st'.pc == st.pc[t := Unlinking(st.pc[t].k, s)]
    ensures forall u :: 0 <= u < |st'.pc| ==> PcOk(st', st'.pc[u])
  {
    hide KeyOf, Fits, AllSane;
    var k := st.pc[t].k;
    assert EntryOk(st, k);
    assert st'.pc[t] == Unlinking(k, s);
    forall u | 0 <= u < |st'.pc|
      ensures PcOk(st', st'.pc[u])
    {
      assert PcOk(st, st.pc[u]);
      if u != t && st.pc[u].Locked? && st.pc[u].k in st.table {
        assert EntryOk(st, st.pc[u].k);
      }
    }
  }

  lemma EntriesUnlinkStore(st: State, st': State, t: nat, s: nat)
    requires Shape(st) && Shape(st') && Roles(st) && OnlySlot(st, st', s)
    requires t < |st.pc| && st.pc[t].Locked? && st.pc[t].k in st.table && st.table[st.pc[t].k] == s && s < |st.mem|
    requires st.status[s].Linked?
    requires st'.status[s].Lowered? && st'.snap[s] == st.snap[s]
    requires st'.table == st.table && st'.pc == st.pc[t := Unlinking(st.pc[t].k, s)]
    ensures forall k' :: k' in st'.table ==> EntryOk(st', k')
  {
    hide KeyOf, Fits, AllSane;
    var k := st.pc[t].k;
    assert EntryOk(st, k);
    assert st'.pc[t] == Unlinking(k, s);
    forall k' | k' in st'.table
      ensures EntryOk(st', k')
    {
      assert EntryOk(st, k');
      EntryThread(st, st', k');
    }
  }

  lemma UnlinkStoreStep(st: State, x: Action, st': State)
    requires Inv(st) && Next(st, x, st') && x.UnlinkStore?
    ensures Inv(st')
  {
    hide KeyOf, Fits, SlotOk, Do, WithoutLinked, Roles, FlatFlags, LinkedBit, AllSane;
    var t := x.t;
    var s := st.table[st.pc[t].k];
    SlotFact(st, s);
    FlagStored(st.mem[s], Linked, Lowered, st.snap[s], st.cas, WithoutLinked(FlagsOf(st, s)));
    assert Shape(st') && OnlySlot(st, st', s);
    SlotsMoved(st, st', s);
    RolesUnlinkStore(st, st', t, s);
  }

  lemma RolesUnlinkRemove(st: State, st': State, t: nat, s: nat)
    requires Shape(st) && Shape(st') && Roles(st) && OnlySlot(st, st', s)
    requires t < |st.pc| && st.pc[t].Unlinking? && st.pc[t].s == s && s < |st.mem| && st'.status[s].Zombie?
    requires st'.snap[s] == st.snap[s]
    requires st'.table == st.table - {st.pc[t].k} && st'.pc == st.pc[t := Locked(st.pc[t].k)]
    ensures Roles(st')
  {
    ClaimsUnlinkRemove(st, st', t, s);
    PcsUnlinkRemove(st, st', t, s);
    EntriesUnlinkRemove(st, st', t, s);
    hide ClaimOk, PcOk, EntryOk;
  }

  lemma ClaimsUnlinkRemove(st: State, st': State, t: nat, s: nat)
    requires Shape(st) && Shape(st') && Roles(st) && OnlySlot(st, st', s)
    requires t < |st.pc| && st.pc[t].Unlinking? && st.pc[t].s == s && s < |st.mem| && st'.status[s].Zombie?
    requires st'.snap[s] == st.snap[s]
    requires st'.table == st.table - {st.pc[t].k} && st'.pc == st.pc[t := Locked(st.pc[t].k)]
    ensures forall r :: 0 <= r < |st'.mem| && Claimed(st'.status[r]) ==> ClaimOk(st', r)
  {
    hide KeyOf, Fits, AllSane;
    var k := st.pc[t].k;
    assert PcOk(st, st.pc[t]);
    assert EntryOk(st, k);
    forall r | 0 <= r < |st'.mem| && Claimed(st'.status[r])
      ensures ClaimOk(st', r)
    {
      assert ClaimOk(st, r);
      var k' := KeyOf(st.snap[r], st.cas);
      if !(k' in st.table && st.table[k'] == r) {
        var u :| 0 <= u < |st.pc| && st.pc[u] == Linking(k', r);
        assert st'.pc[u] == st.pc[u];
      }
    }
  }

  lemma PcsUnlinkRemove(st: State, st': State, t: nat, s: nat)
    requires Shape(st) && Shape(st') && Roles(st) && OnlySlot(st, st', s)
    requires t < |st.pc| && st.pc[t].Unlinking? && st.pc[t].s == s && s < |st.mem| && st'.status[s].Zombie?
    requires st'.snap[s] == st.snap[s]
    requires st'.table == st.table - {st.pc[t].k} && st'.pc == st.pc[t := Locked(st.pc[t].k)]
    ensures forall u :: 0 <= u < |st'.pc| ==> PcOk(st', st'.pc[u])
  {
    hide KeyOf, Fits, AllSane;
    var k := st.pc[t].k;
    assert PcOk(st, st.pc[t]);
    assert EntryOk(st, k);
    forall u | 0 <= u < |st'.pc|
      ensures PcOk(st', st'.pc[u])
    {
      assert PcOk(st, st.pc[u]);
      if u != t && (st.pc[u].Locked? || st.pc[u].Unlinking?) && st.pc[u].k in st.table {
        assert EntryOk(st, st.pc[u].k);
      }
    }
  }

  lemma EntriesUnlinkRemove(st: State, st': State, t: nat, s: nat)
    requires Shape(st) && Shape(st') && Roles(st) && OnlySlot(st, st', s)
    requires t < |st.pc| && st.pc[t].Unlinking? && st.pc[t].s == s && s < |st.mem| && st'.status[s].Zombie?
    requires st'.snap[s] == st.snap[s]
    requires st'.table == st.table - {st.pc[t].k} && st'.pc == st.pc[t := Locked(st.pc[t].k)]
    ensures forall k' :: k' in st'.table ==> EntryOk(st', k')
  {
    hide KeyOf, Fits, AllSane;
    var k := st.pc[t].k;
    assert PcOk(st, st.pc[t]);
    assert EntryOk(st, k);
    forall k' | k' in st'.table
      ensures EntryOk(st', k')
    {
      assert EntryOk(st, k');
      EntryThread(st, st', k');
    }
  }

  lemma ClearedZombie(m: Memory, b: seq<Byte>, cas: nat)
    requires AllSane(m) && |m| > DATA && SlotOk(m, Cleared, b, cas)
    ensures SlotOk(m, Zombie, b, cas)
  {
  }

  lemma UnlinkRemoveStep(st: State, x: Action, st': State)
    requires Inv(st) && Next(st, x, st') && x.UnlinkRemove?
    ensures Inv(st')
  {
    hide KeyOf, Fits, SlotOk, Roles, AllSane;
    var s := st.pc[x.t].s;
    SlotFact(st, s);
    ClearedZombie(st.mem[s], st.snap[s], st.cas);
    assert Shape(st') && OnlySlot(st, st', s);
    SlotsMoved(st, st', s);
    RolesUnlinkRemove(st, st', x.t, s);
  }

  // ---- Whole runs ----

  lemma DraftStep(st: State, x: Action, st': State)
    requires Inv(st) && Next(st, x, st') && (x.Alloc? || x.Write? || x.Seal? || x.DropDraft? || x.Recycle?)
    ensures Inv(st')
  {
    var s := x.s;
    var m, b, y := st.mem[s], st.snap[s], st.status[s];
    assert SlotOk(m, y, b, st.cas);
    hide SlotOk, Do, Roles, Slots, LinkedBit, Shape;
    match x
    case Alloc(t, _, f) =>
      FlagsRewritten(m, y, Draft(t, false), b, st.cas, f);
      SlotStep(st, s, Store(FLAGS, f), Draft(t, false));
    case Write(t, _, a, v) =>
      DraftWrite(m, t, y.isSealed, b, st.cas, a, v);
      SlotStep(st, s, Store(a, v), y);
    case Seal(t, _) =>
      DraftSealed(m, t, b, st.cas, y.isSealed);
      SlotStep(st, s, Flush(TIME, DATA), Draft(t, true));
    case DropDraft(_, _, f) =>
      FlagsRewritten(m, y, Free, b, st.cas, f);
      SlotStep(st, s, Store(FLAGS, f), Free);
    case Recycle(_, f) =>
      FlagsRewritten(m, y, Free, b, st.cas, f);
      SlotStep(st, s, Store(FLAGS, f), Free);
  }

  lemma NoiseStep(st: State, x: Action, st': State)
    requires Inv(st) && Next(st, x, st') && (x.Touch? || x.ExtraFlush? || x.ExtraDrain?)
    ensures Inv(st')
  {
    var s := x.s;
    var op := match x case Touch(_, a, v) => Store(a, v) case ExtraFlush(_, lo, hi) => Flush(lo, hi) case _ => Drain;
    assert SlotOk(st.mem[s], st.status[s], st.snap[s], st.cas);
    assert st' == OnSlot(st, s, op, st.status[s]);
    hide SlotOk, Do, Roles, Slots;
    HarmlessKeeps(st.mem[s], st.status[s], st.snap[s], st.cas, op);
    SlotStep(st, s, op, st.status[s]);
  }

  lemma SlotFact(st: State, s: nat)
    requires Inv(st) && s < |st.mem|
    ensures st.cas <= 8 && |st.status| == |st.snap| == |st.mem|
    ensures AllSane(st.mem[s]) && |st.mem[s]| > DATA && SlotOk(st.mem[s], st.status[s], st.snap[s], st.cas)
  {
  }

  lemma LinkedFlags(m: Memory, b: seq<Byte>, cas: nat)
    requires AllSane(m) && |m| > DATA && SlotOk(m, Linked, b, cas)
    ensures FlatFlags(Cached(m[FLAGS]), cas)
  {
    hide LinkedBit, FlatFlags;
    assert Sane(m[FLAGS]);
  }

  /** The flag operations of linking and unlinking, each with the stage it leads to. */
  predicate StageOp(cas: nat, x: Status, op: Op, y: Status) {
    || (x.Filled? && op.Drain? && y.Fixed?)
    || (op.Store? && op.addr == FLAGS && FlatFlags(op.v, cas) &&
         ((x.Fixed? && y.Raised? && LinkedBit(op.v)) || (x.Linked? && y.Linked? && LinkedBit(op.v))))
    || (op == Flush(FLAGS, FLAGS + 1) && ((x.Raised? && y.RaisedMarked?) || (x.Lowered? && y.LoweredMarked?)))
    || (op.Drain? && ((x.RaisedMarked? && y.Linked?) || (x.LoweredMarked? && y.Cleared?)))
  }

  lemma StageStep(st: State, s: nat, op: Op, y: Status)
    requires Inv(st) && s < |st.mem| && s < |st.status| && AllSane(st.mem[s]) && StageOp(st.cas, st.status[s], op, y)
    ensures Inv(OnSlot(st, s, op, y))
  {
    hide Inv, SlotOk, Do, LinkedBit, AllSane;
    SlotFact(st, s);
    var m, b, x := st.mem[s], st.snap[s], st.status[s];
    if x.Filled? {
      FilledFixed(m, b, st.cas);
    } else if op.Store? {
      FlagStored(m, x, y, b, st.cas, op.v);
    } else if op.Flush? {
      FlagFlushed(m, x, y, b, st.cas);
    } else {
      FlagDrained(m, x, y, b, st.cas);
    }
    SlotStep(st, s, op, y);
  }

  lemma LinkStageStep(st: State, x: Action, st': State)
    requires Inv(st) && Next(st, x, st') && (x.LinkDrain? || x.LinkStore? || x.LinkMark? || x.LinkFlagDrain?)
    ensures Inv(st')
  {
    var s := st.pc[x.t].s;
    assert AllSane(st.mem[s]);
    var op := if x.LinkStore? then Store(FLAGS, WithLinked(FlagsOf(st, s)))
      else if x.LinkMark? then Flush(FLAGS, FLAGS + 1) else Drain;
    SlotFact(st, s);
    LinkedForm(FlagsOf(st, s));
    if x.LinkStore? {
      SameForm(FlagsOf(st, s), op.v, st.cas);
    }
    hide FlatFlags, LinkedBit;
    assert st' == OnSlot(st, s, op, st'.status[s]) && StageOp(st.cas, st.status[s], op, st'.status[s]);
    hide *;
    StageStep(st, s, op, st'.status[s]);
  }

  lemma UnlinkStageStep(st: State, x: Action, st': State)
    requires Inv(st) && Next(st, x, st') && (x.UnlinkMark? || x.UnlinkFlagDrain? || x.Hit?)
    ensures Inv(st')
  {
    assert PcOk(st, st.pc[x.t]);
    var s := if x.Hit? then st.table[st.pc[x.t].k] else st.pc[x.t].s;
    assert AllSane(st.mem[s]);
    var op := if x.Hit? then Store(FLAGS, x.flags) else if x.UnlinkMark? then Flush(FLAGS, FLAGS + 1) else Drain;
    SlotFact(st, s);
    if x.Hit? {
      LinkedFlags(st.mem[s], st.snap[s], st.cas);
      SameForm(FlagsOf(st, s), x.flags, st.cas);
    }
    hide FlatFlags, LinkedBit;
    assert st' == OnSlot(st, s, op, st'.status[s]) && StageOp(st.cas, st.status[s], op, st'.status[s]);
    hide *;
    StageStep(st, s, op, st'.status[s]);
  }

  lemma StepKeeps(st: State, x: Action, st': State)
    requires Inv(st) && Next(st, x, st')
    ensures Inv(st')
  {
    assert Shape(st);
    hide *;
    if x.Lock? || x.Unlock? {
      LockStep(st, x, st');
    } else if x.LinkFlush? {
      LinkFlushStep(st, x, st');
    } else if x.LinkInsert? {
      LinkInsertStep(st, x, st');
    } else if x.UnlinkStore? {
      UnlinkStoreStep(st, x, st');
    } else if x.UnlinkRemove? {
      UnlinkRemoveStep(st, x, st');
    } else if x.LinkDrain? || x.LinkStore? || x.LinkMark? || x.LinkFlagDrain? {
      LinkStageStep(st, x, st');
    } else if x.UnlinkMark? || x.UnlinkFlagDrain? || x.Hit? {
      UnlinkStageStep(st, x, st');
    } else if x.Touch? || x.ExtraFlush? || x.ExtraDrain? {
      NoiseStep(st, x, st');
    } else {
      DraftStep(st, x, st');
    }
  }

  /** A pool with nothing in it. */
  predicate Empty(st: State)
    requires Shape(st)
  {
    st.table == map[] && forall s :: 0 <= s < |st.mem| ==> st.status[s].Free? && NeverLinked(st.mem[s])
  }

  predicate LinkedSlot(st: State, s: nat)
    requires Shape(st) && s < |st.mem|
  {
    LinkedBit(FlagsOf(st, s))
  }

  /** A pool after recovery: everything is on the medium, and the table holds exactly the LINKED items. */
  predicate Reopened(st: State)
    requires Shape(st)
  {
    && (forall s :: 0 <= s < |st.mem| ==> Solid(st.mem[s], st.snap[s]))
    && (forall s :: 0 <= s < |st.mem| ==> st.status[s] == if LinkedSlot(st, s) then Linked else Free)
    && (forall s :: 0 <= s < |st.mem| && LinkedSlot(st, s) ==>
          && Fits(st.snap[s], st.cas) && FlatFlags(st.snap[s][FLAGS], st.cas)
          && KeyOf(st.snap[s], st.cas) in st.table && st.table[KeyOf(st.snap[s], st.cas)] == s)
    && (forall k :: k in st.table ==>
          st.table[k] < |st.mem| && LinkedSlot(st, st.table[k]) && Fits(st.snap[st.table[k]], st.cas) &&
            KeyOf(st.snap[st.table[k]], st.cas) == k)
  }

  predicate Init(st: State) {
    Shape(st) && (Empty(st) || Reopened(st)) && forall t :: 0 <= t < |st.pc| ==> st.pc[t].Idle?
  }

  lemma InitHolds(st: State)
    requires Init(st)
    ensures Inv(st)
  {
    hide LinkedBit, KeyOf, End, FlatFlags;
    if Reopened(st) {
      forall s | 0 <= s < |st.mem|
        ensures SlotOk(st.mem[s], st.status[s], st.snap[s], st.cas)
      {
        assert Solid(st.mem[s], st.snap[s]);
        assert st.mem[s][FLAGS] == Cell([st.snap[s][FLAGS]], 0);
      }
      forall s | 0 <= s < |st.mem| && Claimed(st.status[s])
        ensures ClaimOk(st, s)
      {
        assert LinkedSlot(st, s);
      }
      forall k | k in st.table
        ensures EntryOk(st, k)
      {
        assert LinkedSlot(st, st.table[k]);
      }
    }
  }

  ghost predicate Run(states: seq<State>, actions: seq<Action>) {
    && |states| == |actions| + 1 && Init(states[0])
    && forall i :: 0 <= i < |actions| ==> Shape(states[i]) && Next(states[i], actions[i], states[i + 1])
  }

  lemma {:induction false} RunKeeps(states: seq<State>, actions: seq<Action>, i: nat)
    requires Run(states, actions) && i < |states|
    ensures Inv(states[i])
  {
    hide Inv, Init;
    if i == 0 {
      InitHolds(states[0]);
    } else {
      RunKeeps(states, actions, i - 1);
      StepKeeps(states[i - 1], actions[i - 1], states[i]);
    }
  }

  // ---- What a crash finds ----

  /** One image per slot. */
  ghost predicate CrashImage(st: State, imgs: seq<seq<Byte>>) {
    |imgs| == |st.mem| && forall s :: 0 <= s < |imgs| ==> Image(st.mem[s], imgs[s]) && |imgs[s]| > DATA
  }

  /** The image holds the content that `b` had. */
  predicate SameContent(b: seq<Byte>, img: seq<Byte>, cas: nat)
    requires Fits(b, cas)
  {
    |img| == |b| && forall a :: 0 <= a < |b| && Content(b, cas, a) ==> img[a] == b[a]
  }

  lemma SameContentReads(b: seq<Byte>, img: seq<Byte>, cas: nat)
    requires Fits(b, cas) && SameContent(b, img, cas)
    ensures Fits(img, cas) && KeyOf(img, cas) == KeyOf(b, cas) && End(img, cas) == End(b, cas)
    ensures img[EXPTIME..REFCOUNT] == b[EXPTIME..REFCOUNT] && img[DATA + cas..End(b, cas)] == b[DATA + cas..End(b, cas)]
  {
    assert Content(b, cas, NKEY) && Content(b, cas, NSUFFIX) && Content(b, cas, NBYTES) &&
             Content(b, cas, NBYTES + 1) &&
           Content(b, cas, NBYTES + 2) && Content(b, cas, NBYTES + 3);
    assert End(img, cas) == End(b, cas);
    var e := End(b, cas);
    hide End;
    assert forall a :: EXPTIME <= a < REFCOUNT || DATA + cas <= a < e ==> Content(b, cas, a);
  }

  lemma LinkedImage(m: Memory, x: Status, b: seq<Byte>, cas: nat, img: seq<Byte>)
    requires AllSane(m) && |m| > DATA && SlotOk(m, x, b, cas) && Image(m, img)
    ensures LinkedBit(img[FLAGS]) ==> Claimed(x) && Fits(b, cas) && SameContent(b, img, cas)
    ensures LinkedBit(img[FLAGS]) ==> FlatFlags(img[FLAGS], cas)
    ensures x.Linked? ==> LinkedBit(img[FLAGS])
  {
    hide LinkedBit, End, FlatFlags;
    assert img[FLAGS] in m[FLAGS].hist;
    if Claimed(x) && !x.Filled? {
      forall a | 0 <= a < |m| && Content(b, cas, a)
        ensures img[a] == b[a]
      {
        assert img[a] in m[a].hist;
      }
    }
  }

  /** In every crash image of every run, an item that is LINKED on the medium has on the medium the expiry, lengths,
      key, suffix and value that were in its slot when it was linked, and the flags that say where they begin. */
  lemma LinkedItemsIntact(states: seq<State>, actions: seq<Action>, i: nat, imgs: seq<seq<Byte>>, s: nat)
    requires Run(states, actions) && i < |states| && CrashImage(states[i], imgs) && s < |imgs|
    requires LinkedBit(imgs[s][FLAGS])
    ensures var st := states[i];
            && |st.snap| == |st.mem| && Fits(st.snap[s], st.cas) && SameContent(st.snap[s], imgs[s], st.cas)
            && Fits(imgs[s], st.cas) && KeyOf(imgs[s], st.cas) == KeyOf(st.snap[s], st.cas)
            && FlatFlags(imgs[s][FLAGS], st.cas)
  {
    RunKeeps(states, actions, i);
    var st := states[i];
    hide LinkedBit, SlotOk, Run, KeyOf, End, FlatFlags;
    LinkedImage(st.mem[s], st.status[s], st.snap[s], st.cas, imgs[s]);
    SameContentReads(st.snap[s], imgs[s], st.cas);
  }

  lemma ClaimedKeysDistinct(st: State, s: nat, r: nat)
    requires Inv(st) && s < |st.mem| && r < |st.mem| && s != r && Claimed(st.status[s]) && Claimed(st.status[r])
    ensures Fits(st.snap[s], st.cas) && Fits(st.snap[r], st.cas)
    ensures KeyOf(st.snap[s], st.cas) != KeyOf(st.snap[r], st.cas)
  {
    hide KeyOf, Fits, SlotOk, AllSane;
    assert ClaimOk(st, s) && ClaimOk(st, r);
  }

  /** ... and no two of them have the same key. */
  lemma LinkedKeysDistinct(states: seq<State>, actions: seq<Action>, i: nat, imgs: seq<seq<Byte>>, s: nat, r: nat)
    requires Run(states, actions) && i < |states| && CrashImage(states[i], imgs) && s < |imgs| && r < |imgs| && s != r
    requires LinkedBit(imgs[s][FLAGS]) && LinkedBit(imgs[r][FLAGS])
    ensures var c := states[i].cas; Fits(imgs[s], c) && Fits(imgs[r], c) && KeyOf(imgs[s], c) != KeyOf(imgs[r], c)
  {
    RunKeeps(states, actions, i);
    LinkedItemsIntact(states, actions, i, imgs, s);
    LinkedItemsIntact(states, actions, i, imgs, r);
    var st := states[i];
    hide LinkedBit, SlotOk, Run, KeyOf, End;
    LinkedImage(st.mem[s], st.status[s], st.snap[s], st.cas, imgs[s]);
    LinkedImage(st.mem[r], st.status[r], st.snap[r], st.cas, imgs[r]);
    hide Fits, SameContent;
    ClaimedKeysDistinct(st, s, r);
  }

  /** What recovery finds under a key.  An item in the table that nobody is unlinking is there; whatever is
      there is in the table or is just being linked by the holder of the key's lock. */
  lemma CrashAgreesWithTable(states: seq<State>, actions: seq<Action>, i: nat, imgs: seq<seq<Byte>>)
    requires Run(states, actions) && i < |states| && CrashImage(states[i], imgs)
    ensures var st := states[i];
            forall k :: k in st.table && (forall t :: 0 <= t < |st.pc| ==>
              !(st.pc[t].Unlinking? && st.pc[t].k == k)) ==>
              st.table[k] < |imgs| && LinkedBit(imgs[st.table[k]][FLAGS]) &&
              Fits(imgs[st.table[k]], st.cas) && KeyOf(imgs[st.table[k]], st.cas) == k
    ensures var st := states[i];
            forall s :: 0 <= s < |imgs| && LinkedBit(imgs[s][FLAGS]) ==>
              Fits(imgs[s], st.cas) &&
              var k := KeyOf(imgs[s], st.cas);
              (k in st.table && st.table[k] == s) || exists t :: 0 <= t < |st.pc| && st.pc[t] == Linking(k, s)
  {
    RunKeeps(states, actions, i);
    var st := states[i];
    forall k | k in st.table && (forall t :: 0 <= t < |st.pc| ==> !(st.pc[t].Unlinking? && st.pc[t].k == k))
      ensures st.table[k] < |imgs| && LinkedBit(imgs[st.table[k]][FLAGS]) &&
              Fits(imgs[st.table[k]], st.cas) && KeyOf(imgs[st.table[k]], st.cas) == k
    {
      TableItemFound(st, imgs, k);
    }
    forall s | 0 <= s < |imgs| && LinkedBit(imgs[s][FLAGS])
      ensures Fits(imgs[s], st.cas) &&
              var k := KeyOf(imgs[s], st.cas);
              (k in st.table && st.table[k] == s) || exists t :: 0 <= t < |st.pc| && st.pc[t] == Linking(k, s)
    {
      LinkedItemsIntact(states, actions, i, imgs, s);
      LinkedImage(st.mem[s], st.status[s], st.snap[s], st.cas, imgs[s]);
      assert ClaimOk(st, s);
    }
  }

  lemma TableItemFound(st: State, imgs: seq<seq<Byte>>, k: Key)
    requires Inv(st) && CrashImage(st, imgs) && k in st.table
    requires forall t :: 0 <= t < |st.pc| ==> !(st.pc[t].Unlinking? && st.pc[t].k == k)
    ensures var s := st.table[k];
            s < |imgs| && LinkedBit(imgs[s][FLAGS]) && Fits(imgs[s], st.cas) && KeyOf(imgs[s], st.cas) == k
  {
    hide LinkedBit, SlotOk, KeyOf, End;
    assert EntryOk(st, k);
    var s := st.table[k];
    LinkedImage(st.mem[s], st.status[s], st.snap[s], st.cas, imgs[s]);
    SameContentReads(st.snap[s], imgs[s], st.cas);
  }

  // ---- Crash, recovery, and on again ----

  function Settle(img: seq<Byte>): (m: Memory)
    ensures Solid(m, img)
  {
    seq(|img|, a requires 0 <= a < |img| => Cell([img[a]], 0))
  }

  /** Items that recovery does not keep lose LINKED; the rest of every slot stays as the crash left it. */
  predicate Kept(img: seq<Byte>, img': seq<Byte>) {
    |img| > DATA && |img'| == |img| && (img' == img || (!LinkedBit(img'[FLAGS]) && img' == img[FLAGS := img'[FLAGS]]))
  }

  /** The images that still carry LINKED are complete items under different keys. */
  predicate Recoverable(imgs: seq<seq<Byte>>, cas: nat) {
    && (forall s :: 0 <= s < |imgs| ==> |imgs[s]| > DATA)
    && (forall s :: 0 <= s < |imgs| && LinkedBit(imgs[s][FLAGS]) ==>
         Fits(imgs[s], cas) && FlatFlags(imgs[s][FLAGS], cas))
    && (forall s, r :: 0 <= s < r < |imgs| && LinkedBit(imgs[s][FLAGS]) && LinkedBit(imgs[r][FLAGS]) ==>
         KeyOf(imgs[s], cas) != KeyOf(imgs[r], cas))
  }

  ghost function SlotWith(imgs: seq<seq<Byte>>, cas: nat, k: Key): (s: nat)
    requires Recoverable(imgs, cas)
    requires exists s :: 0 <= s < |imgs| && LinkedBit(imgs[s][FLAGS]) && KeyOf(imgs[s], cas) == k
    ensures s < |imgs| && LinkedBit(imgs[s][FLAGS]) && KeyOf(imgs[s], cas) == k
  {
    var s :| 0 <= s < |imgs| && LinkedBit(imgs[s][FLAGS]) && KeyOf(imgs[s], cas) == k;
    s
  }

  ghost function Keys(imgs: seq<seq<Byte>>, cas: nat): set<Key>
    requires Recoverable(imgs, cas)
  {
    set s | 0 <= s < |imgs| && LinkedBit(imgs[s][FLAGS]) :: KeyOf(imgs[s], cas)
  }

  /** The table of the LINKED images. */
  ghost function TableOf(imgs: seq<seq<Byte>>, cas: nat): (m: map<Key, nat>)
    requires Recoverable(imgs, cas)
    ensures forall s :: 0 <= s < |imgs| && LinkedBit(imgs[s][FLAGS]) ==>
              KeyOf(imgs[s], cas) in m && m[KeyOf(imgs[s], cas)] == s
    ensures forall k :: k in m ==> m[k] < |imgs| && LinkedBit(imgs[m[k]][FLAGS]) && KeyOf(imgs[m[k]], cas) == k
  {
    map k | k in Keys(imgs, cas) :: SlotWith(imgs, cas, k)
  }

  ghost function Reopen(imgs: seq<seq<Byte>>, cas: nat, threads: nat): State
    requires Recoverable(imgs, cas)
  {
    State(cas, seq(|imgs|, s requires 0 <= s < |imgs| => Settle(imgs[s])),
          seq(|imgs|, s requires 0 <= s < |imgs| && |imgs[s]| > DATA => if LinkedBit(imgs[s][FLAGS])
            then Linked else Free),
          imgs, TableOf(imgs, cas), seq(threads, _ => Idle))
  }

  lemma ReopenInit(imgs: seq<seq<Byte>>, cas: nat, threads: nat)
    requires Recoverable(imgs, cas) && (cas == 0 || cas == 8)
    ensures Init(Reopen(imgs, cas, threads))
  {
    hide LinkedBit, KeyOf, Fits, FlatFlags;
    var st := Reopen(imgs, cas, threads);
    forall s | 0 <= s < |imgs|
      ensures AllSane(st.mem[s]) && Solid(st.mem[s], imgs[s]) && |st.mem[s]| == |imgs[s]|
    {
      Settled(imgs[s]);
    }
    assert forall s :: 0 <= s < |imgs| ==> FlagsOf(st, s) == imgs[s][FLAGS];
    hide Settle, AllSane, Solid;
  }

  lemma Settled(img: seq<Byte>)
    ensures AllSane(Settle(img)) && Solid(Settle(img), img) && |Settle(img)| == |img|
  {
  }

  /** Whatever a crash leaves, and whichever of its items are dropped as expired or flushed, there is a table
      of exactly the remaining LINKED items, and the pool can go on from it: the next run satisfies
      everything proved of the first. */
  lemma CrashCanReopen(states: seq<State>, actions: seq<Action>, i: nat, imgs: seq<seq<Byte>>,
      imgs': seq<seq<Byte>>, threads: nat)
    requires Run(states, actions) && i < |states| && CrashImage(states[i], imgs)
    requires |imgs'| == |imgs| && forall s :: 0 <= s < |imgs| ==> Kept(imgs[s], imgs'[s])
    ensures Recoverable(imgs', states[i].cas) && Init(Reopen(imgs', states[i].cas, threads))
  {
    var cas := states[i].cas;
    RunKeeps(states, actions, i);
    assert cas == 0 || cas == 8;
    hide Run, Inv, SlotOk, KeyOf, End, LinkedBit, FlatFlags;
    assert forall s :: 0 <= s < |imgs| ==> |imgs'[s]| > DATA && (LinkedBit(imgs'[s][FLAGS]) ==>
             imgs'[s] == imgs[s]) by {
      assert forall s :: 0 <= s < |imgs| ==> Kept(imgs[s], imgs'[s]);
    }
    forall s | 0 <= s < |imgs'| && LinkedBit(imgs'[s][FLAGS])
      ensures Fits(imgs'[s], cas) && FlatFlags(imgs'[s][FLAGS], cas)
    {
      LinkedItemsIntact(states, actions, i, imgs, s);
    }
    forall s, r | 0 <= s < r < |imgs'| && LinkedBit(imgs'[s][FLAGS]) && LinkedBit(imgs'[r][FLAGS])
      ensures KeyOf(imgs'[s], cas) != KeyOf(imgs'[r], cas)
    {
      LinkedKeysDistinct(states, actions, i, imgs, s, r);
    }
    hide Fits, Init, Reopen;
    ReopenInit(imgs', cas, threads);
  }
}
