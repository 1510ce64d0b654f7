/** From a crash to the next run: what a crash leaves in the slots, read as the frames that recovery walks, and what
    recovery makes of it. Items are in one piece, as in `PmItems`. */
module CrashRecovery {
  import opened Common
  import opened Pmem
  import P = PmItems
  import R = Recovery

  // ---- The pool as recovery reads it ----

  const CHAIN := 16

  // A frame: its class, and which slots it is divided into.
  datatype Page = Page(id: nat, slots: seq<nat>)

  predicate InPage(pages: seq<Page>, r: R.Ref) { r.f < |pages| && r.i < |pages[r.f].slots| }

  function SlotAt(pages: seq<Page>, r: R.Ref): nat
    requires InPage(pages, r)
  {
    pages[r.f].slots[r.i]
  }

  /** Each of the `n` slots is in one place of one frame that is in use. */
  ghost predicate Laid(pages: seq<Page>, n: nat) {
    && (forall f :: 0 <= f < |pages| ==> pages[f].id < R.CLASSES && (pages[f].id == 0 ==> pages[f].slots == []))
    && (forall r :: InPage(pages, r) ==> SlotAt(pages, r) < n)
    && (forall r, q :: InPage(pages, r) && InPage(pages, q) && SlotAt(pages, r) == SlotAt(pages, q) ==> r == q)
    && (forall s: nat :: s < n ==> Placed(pages, s))
  }

  ghost predicate Placed(pages: seq<Page>, s: nat) { exists r :: InPage(pages, r) && SlotAt(pages, r) == s }

  function Word(img: seq<Byte>, a: nat): nat
    requires a + 4 <= |img|
  {
    P.Num(img[a]) + 0x100 * P.Num(img[a + 1]) + 0x1_0000 * P.Num(img[a + 2]) + 0x100_0000 * P.Num(img[a + 3])
  }

  predicate NullAt(img: seq<Byte>, a: nat)
    requires a + 8 <= |img|
  {
    forall i :: a <= i < a + 8 ==> img[i] == 0
  }

  predicate HeaderBit(flags: Byte) { flags & 32 == 32 }
  predicate PslabBit(flags: Byte) { flags & 64 == 64 }

  function ReadSlot(img: seq<Byte>, cas: nat): R.Slot
    requires |img| > P.DATA
  {
    R.Slot(P.LinkedBit(img[P.FLAGS]), HeaderBit(img[P.FLAGS]), PslabBit(img[P.FLAGS]),
           if P.Fits(img, cas) then P.KeyOf(img, cas) else [], Word(img, P.TIME), Word(img, P.EXPTIME), None,
           if NullAt(img, CHAIN) then R.Null else R.Stale)
  }

  ghost predicate Sized(pages: seq<Page>, imgs: seq<seq<Byte>>) {
    && (forall s :: 0 <= s < |imgs| ==> |imgs[s]| > P.DATA)
    && (forall r :: InPage(pages, r) ==> SlotAt(pages, r) < |imgs|)
  }

  /** `p` is the pool with the bytes `imgs` in its slots. */
  ghost predicate Reads(p: seq<R.Frame>, pages: seq<Page>, imgs: seq<seq<Byte>>, cas: nat) {
    && |p| == |pages| && Sized(pages, imgs)
    && (forall f :: 0 <= f < |p| ==> p[f].id == pages[f].id && |p[f].slots| == |pages[f].slots|)
    && (forall r :: InPage(pages, r) ==> R.InPool(p, r) && R.At(p, r) == ReadSlot(imgs[SlotAt(pages, r)], cas))
  }

  lemma ReadAt(p: seq<R.Frame>, pages: seq<Page>, imgs: seq<seq<Byte>>, cas: nat, r: R.Ref)
    requires Reads(p, pages, imgs, cas) && R.InPool(p, r)
    ensures InPage(pages, r) && SlotAt(pages, r) < |imgs| && |imgs[SlotAt(pages, r)]| > P.DATA
    ensures R.At(p, r) == ReadSlot(imgs[SlotAt(pages, r)], cas)
  {
  }

  // ---- What a crash leaves is something recovery can work on ----

  lemma FlatHasNoChunks(flags: Byte, cas: nat)
    requires P.FlatFlags(flags, cas)
    ensures !HeaderBit(flags)
  {
  }

  /** In every crash image of every run, the live items have different keys and no chunks. */
  lemma CrashWellFormed(states: seq<P.State>, actions: seq<P.Action>, i: nat, imgs: seq<seq<Byte>>, pages: seq<Page>,
      p: seq<R.Frame>, oldest: nat, now: nat)
    requires P.Run(states, actions) && i < |states| && P.CrashImage(states[i], imgs)
    requires Laid(pages, |imgs|) && Reads(p, pages, imgs, states[i].cas)
    ensures R.WellFormed(p, map[], oldest, now)
  {
    hide P.Run, P.CrashImage, P.KeyOf, P.Fits, P.LinkedBit, HeaderBit, PslabBit, NullAt, Word, R.Dead, Reads;
    var cas := states[i].cas;
    forall r, q | R.Live(p, r, oldest, now) && R.Live(p, q, oldest, now) && R.At(p, r).key == R.At(p, q).key
      ensures r == q
    {
      ReadAt(p, pages, imgs, cas, r);
      ReadAt(p, pages, imgs, cas, q);
      if SlotAt(pages, r) != SlotAt(pages, q) {
        P.LinkedKeysDistinct(states, actions, i, imgs, SlotAt(pages, r), SlotAt(pages, q));
      }
    }
    forall r
      ensures !R.LiveChunked(p, r, oldest, now)
    {
      if R.Live(p, r, oldest, now) {
        ReadAt(p, pages, imgs, cas, r);
        P.LinkedItemsIntact(states, actions, i, imgs, SlotAt(pages, r));
        FlatHasNoChunks(imgs[SlotAt(pages, r)][P.FLAGS], cas);
      }
    }
    FrameIds(p, pages, imgs, cas);
  }

  lemma FrameIds(p: seq<R.Frame>, pages: seq<Page>, imgs: seq<seq<Byte>>, cas: nat)
    requires Laid(pages, |imgs|) && Reads(p, pages, imgs, cas)
    ensures forall f :: 0 <= f < |p| ==> p[f].id < R.CLASSES
  {
    hide ReadSlot;
  }

  // ---- What recovery makes of it ----

  /** The first walk takes LINKED away from items that have expired or were flushed. */
  function Drop(img: seq<Byte>, cas: nat, oldest: nat, now: nat): (r: seq<Byte>)
    requires |img| > P.DATA
    ensures P.Kept(img, r)
  {
    if P.LinkedBit(img[P.FLAGS]) && R.Dead(ReadSlot(img, cas), oldest, now) then img[P.FLAGS := 64] else img
  }

  predicate Dropped(imgs: seq<seq<Byte>>, imgs': seq<seq<Byte>>, cas: nat, oldest: nat, now: nat) {
    && |imgs'| == |imgs|
    && forall s :: 0 <= s < |imgs| ==> |imgs[s]| > P.DATA && imgs'[s] == Drop(imgs[s], cas, oldest, now)
  }

  lemma LiveIs(p: seq<R.Frame>, pages: seq<Page>, imgs: seq<seq<Byte>>, imgs': seq<seq<Byte>>, cas: nat, oldest: nat,
      now: nat, r: R.Ref)
    requires Laid(pages, |imgs|) && Reads(p, pages, imgs, cas) && Dropped(imgs, imgs', cas, oldest, now)
    ensures R.Live(p, r, oldest, now) <==>
              InPage(pages, r) && P.LinkedBit(imgs'[SlotAt(pages, r)][P.FLAGS])
    ensures R.Live(p, r, oldest, now) ==> imgs'[SlotAt(pages, r)] == imgs[SlotAt(pages, r)]
  {
    hide P.KeyOf, P.Fits, HeaderBit, PslabBit, NullAt, Word, R.Dead;
    if R.InPool(p, r) {
      ReadAt(p, pages, imgs, cas, r);
    }
  }

  /** The table that recovery builds, with slots for their places, is the table of the LINKED images. */
  ghost predicate SameTable(table: map<P.Key, R.Ref>, pages: seq<Page>, imgs: seq<seq<Byte>>, cas: nat)
    requires P.Recoverable(imgs, cas)
  {
    && table.Keys == P.TableOf(imgs, cas).Keys
    && forall k :: k in table ==> InPage(pages, table[k]) && SlotAt(pages, table[k]) == P.TableOf(imgs, cas)[k]
  }

  lemma TableAgrees(p: seq<R.Frame>, pages: seq<Page>, imgs: seq<seq<Byte>>, imgs': seq<seq<Byte>>, cas: nat,
      oldest: nat, now: nat, table: map<P.Key, R.Ref>)
    requires Laid(pages, |imgs|) && Reads(p, pages, imgs, cas) && Dropped(imgs, imgs', cas, oldest, now)
    requires P.Recoverable(imgs', cas) && R.TableIs(p, table, oldest, now)
    ensures SameTable(table, pages, imgs', cas)
  {
    hide P.KeyOf, P.Fits, P.LinkedBit, Reads, Dropped, R.Live, P.TableOf, Placed;
    DroppedSizes(imgs, imgs', cas, oldest, now);
    forall k | k in table
      ensures k in P.TableOf(imgs', cas) && InPage(pages, table[k]) &&
                SlotAt(pages, table[k]) == P.TableOf(imgs', cas)[k]
    {
      LiveIs(p, pages, imgs, imgs', cas, oldest, now, table[k]);
      LiveReads(p, pages, imgs, imgs', cas, oldest, now, table[k]);
    }
    forall k | k in P.TableOf(imgs', cas)
      ensures k in table
    {
      var r := PlaceOf(pages, |imgs|, P.TableOf(imgs', cas)[k]);
      LiveIs(p, pages, imgs, imgs', cas, oldest, now, r);
      LiveReads(p, pages, imgs, imgs', cas, oldest, now, r);
    }
  }

  lemma PlaceOf(pages: seq<Page>, n: nat, s: nat) returns (r: R.Ref)
    requires Laid(pages, n) && s < n
    ensures InPage(pages, r) && SlotAt(pages, r) == s
  {
    assert Placed(pages, s);
    r :| InPage(pages, r) && SlotAt(pages, r) == s;
  }

  lemma LiveReads(p: seq<R.Frame>, pages: seq<Page>, imgs: seq<seq<Byte>>, imgs': seq<seq<Byte>>, cas: nat,
      oldest: nat, now: nat, r: R.Ref)
    requires Laid(pages, |imgs|) && Reads(p, pages, imgs, cas) && Dropped(imgs, imgs', cas, oldest, now)
    requires P.Recoverable(imgs', cas) && R.Live(p, r, oldest, now)
    ensures InPage(pages, r) && SlotAt(pages, r) < |imgs'| && P.Fits(imgs'[SlotAt(pages, r)], cas)
    ensures R.At(p, r).key == P.KeyOf(imgs'[SlotAt(pages, r)], cas)
  {
    hide P.KeyOf, P.Fits, P.LinkedBit, Reads, Dropped, HeaderBit, PslabBit, NullAt, Word, R.Dead;
    LiveIs(p, pages, imgs, imgs', cas, oldest, now, r);
    ReadAt(p, pages, imgs, cas, r);
    DroppedSizes(imgs, imgs', cas, oldest, now);
  }

  lemma DroppedSizes(imgs: seq<seq<Byte>>, imgs': seq<seq<Byte>>, cas: nat, oldest: nat, now: nat)
    requires Dropped(imgs, imgs', cas, oldest, now)
    ensures |imgs'| == |imgs| && forall s :: 0 <= s < |imgs| ==> P.Kept(imgs[s], imgs'[s])
  {
    hide Drop;
  }

  /** Recovery of what a crash of any run has left. It completes unless a slot in a frame with a live item is flagged as
      the header of a chunked item and is not linked. Then its table holds exactly the LINKED items that have neither
      expired nor been flushed, and with that table the pool can go on: the next run satisfies all that is proved of the
      first. */
  method RecoverCrash(ghost states: seq<P.State>, ghost actions: seq<P.Action>, ghost i: nat,
    ghost imgs: seq<seq<Byte>>,
      ghost imgs': seq<seq<Byte>>, ghost pages: seq<Page>, p: seq<R.Frame>, oldest: nat, now: nat, ghost threads: nat)
    returns (ok: bool, table: map<P.Key, R.Ref>)
    requires P.Run(states, actions) && i < |states| && P.CrashImage(states[i], imgs)
    requires Laid(pages, |imgs|) && Reads(p, pages, imgs, states[i].cas)
    requires Dropped(imgs, imgs', states[i].cas, oldest, now)
    ensures ok <==> forall r :: R.Unfinished(p, r) ==> !R.FrameKept(p, map[], oldest, now, r.f)
    ensures P.Recoverable(imgs', states[i].cas) && P.Init(P.Reopen(imgs', states[i].cas, threads))
    ensures ok ==> SameTable(table, pages, imgs', states[i].cas)
  {
    hide P.Run, P.CrashImage, Laid, Reads, Dropped, R.WellFormed, R.TableIs, SameTable, P.Recoverable, P.Init, P.Reopen;
    hide R.Unfinished, R.FrameKept, R.ListsAre, R.Kept, R.HeadsBack;
    CrashWellFormed(states, actions, i, imgs, pages, p, oldest, now);
    DroppedSizes(imgs, imgs', states[i].cas, oldest, now);
    P.CrashCanReopen(states, actions, i, imgs, imgs', threads);
    ghost var chains: map<R.Ref, seq<R.Ref>> := map[];
    var q, m, lists, free;
    ok, q, m, lists, table, free := R.Recover(p, oldest, now, chains);
    if ok {
      TableAgrees(p, pages, imgs, imgs', states[i].cas, oldest, now, table);
    }
  }

  // ---- It completes when no chunked item was begun ----

  /** A step that writes no flags of a chunked item. */
  predicate Flat(x: P.Action) {
    match x
    case Alloc(_, _, f) => !HeaderBit(f)
    case Write(_, _, a, v) => a == P.FLAGS ==> !HeaderBit(v)
    case DropDraft(_, _, f) => !HeaderBit(f)
    case Recycle(_, f) => !HeaderBit(f)
    case _ => true
  }

  predicate NoHeader(m: Memory) { |m| > P.DATA && forall v :: v in m[P.FLAGS].hist ==> !HeaderBit(v) }

  predicate NoHeaders(st: P.State) { forall s :: 0 <= s < |st.mem| ==> NoHeader(st.mem[s]) }

  lemma OpNoHeader(m: Memory, op: Op)
    requires AllSane(m) && NoHeader(m) && (op.Store? && op.addr == P.FLAGS ==> !HeaderBit(op.v))
    ensures NoHeader(P.Do(m, op))
  {
    hide HeaderBit;
    assert P.Do(m, op)[P.FLAGS] == CellStep(P.FLAGS, m[P.FLAGS], op);
  }

  lemma FlagNoHeader(f: Byte, g: Byte)
    requires !HeaderBit(f)
    ensures !HeaderBit(P.WithLinked(f)) && !HeaderBit(P.WithoutLinked(f)) && (P.Form(g) == P.Form(f) ==> !HeaderBit(g))
  {
    P.FormBits(f);
    P.FormBits(g);
  }

  lemma SlotNoHeaders(st: P.State, s: nat, op: Op, x: P.Status, st': P.State)
    requires P.Shape(st) && NoHeaders(st) && s < |st.mem| && st'.mem == P.OnSlot(st, s, op, x).mem
    requires op.Store? && op.addr == P.FLAGS ==> !HeaderBit(op.v)
    ensures NoHeaders(st')
  {
    hide NoHeader, P.Do, HeaderBit;
    OpNoHeader(st.mem[s], op);
  }

  lemma CachedNoHeader(st: P.State, s: nat, g: Byte)
    requires P.Shape(st) && NoHeaders(st) && s < |st.mem|
    ensures var f := P.FlagsOf(st, s);
            !HeaderBit(P.WithLinked(f)) && !HeaderBit(P.WithoutLinked(f)) && (P.Form(g) == P.Form(f) ==> !HeaderBit(g))
  {
    hide HeaderBit, P.WithLinked, P.WithoutLinked, P.Form;
    assert NoHeader(st.mem[s]);
    FlagNoHeader(P.FlagsOf(st, s), g);
  }

  lemma LinkNoHeaders(st: P.State, x: P.Action, st': P.State)
    requires P.Shape(st) && NoHeaders(st) && P.Next(st, x, st')
    requires x.LinkFlush? || x.LinkDrain? || x.LinkStore? || x.LinkMark? || x.LinkFlagDrain?
    ensures NoHeaders(st')
  {
    hide NoHeaders, HeaderBit, P.Do, P.WithLinked, P.WithoutLinked, P.Form, P.View, P.Fits, P.KeyOf, P.End, P.FlatFlags;
    match x
    case LinkFlush(t, s) => SlotNoHeaders(st, s, Flush(P.DATA, P.End(P.View(st.mem[s]), st.cas)), P.Free, st');
    case LinkDrain(t) => SlotNoHeaders(st, st.pc[t].s, Drain, P.Free, st');
    case LinkStore(t) =>
      CachedNoHeader(st, st.pc[t].s, 0);
      SlotNoHeaders(st, st.pc[t].s, Store(P.FLAGS, P.WithLinked(P.FlagsOf(st, st.pc[t].s))), P.Free, st');
    case LinkMark(t) => SlotNoHeaders(st, st.pc[t].s, Flush(P.FLAGS, P.FLAGS + 1), P.Free, st');
    case LinkFlagDrain(t) => SlotNoHeaders(st, st.pc[t].s, Drain, P.Free, st');
  }

  lemma UnlinkNoHeaders(st: P.State, x: P.Action, st': P.State)
    requires P.Shape(st) && NoHeaders(st) && P.Next(st, x, st')
    requires x.UnlinkStore? || x.UnlinkMark? || x.UnlinkFlagDrain? || x.Hit?
    ensures NoHeaders(st')
  {
    hide NoHeaders, HeaderBit, P.Do, P.WithLinked, P.WithoutLinked, P.Form, P.LinkedBit;
    match x
    case UnlinkStore(t) =>
      var s := st.table[st.pc[t].k];
      CachedNoHeader(st, s, 0);
      SlotNoHeaders(st, s, Store(P.FLAGS, P.WithoutLinked(P.FlagsOf(st, s))), P.Free, st');
    case UnlinkMark(t) => SlotNoHeaders(st, st.pc[t].s, Flush(P.FLAGS, P.FLAGS + 1), P.Free, st');
    case UnlinkFlagDrain(t) => SlotNoHeaders(st, st.pc[t].s, Drain, P.Free, st');
    case Hit(t, f) =>
      var s := st.table[st.pc[t].k];
      CachedNoHeader(st, s, f);
      SlotNoHeaders(st, s, Store(P.FLAGS, f), P.Free, st');
  }

  lemma DraftNoHeaders(st: P.State, x: P.Action, st': P.State)
    requires P.Shape(st) && NoHeaders(st) && Flat(x) && P.Next(st, x, st')
    requires x.Alloc? || x.Write? || x.Seal? || x.DropDraft? || x.Recycle? || x.Touch? || x.ExtraFlush? || x.ExtraDrain?
    ensures NoHeaders(st')
  {
    hide NoHeaders, HeaderBit, P.Do, P.LinkedBit;
    match x
    case Alloc(t, s, f) => SlotNoHeaders(st, s, Store(P.FLAGS, f), P.Free, st');
    case Write(t, s, a, v) => SlotNoHeaders(st, s, Store(a, v), P.Free, st');
    case Seal(t, s) => SlotNoHeaders(st, s, Flush(P.TIME, P.DATA), P.Free, st');
    case DropDraft(t, s, f) => SlotNoHeaders(st, s, Store(P.FLAGS, f), P.Free, st');
    case Recycle(s, f) => SlotNoHeaders(st, s, Store(P.FLAGS, f), P.Free, st');
    case Touch(s, a, v) => SlotNoHeaders(st, s, Store(a, v), P.Free, st');
    case ExtraFlush(s, lo, hi) => SlotNoHeaders(st, s, Flush(lo, hi), P.Free, st');
    case ExtraDrain(s) => SlotNoHeaders(st, s, Drain, P.Free, st');
  }

  lemma StepNoHeaders(st: P.State, x: P.Action, st': P.State)
    requires P.Shape(st) && NoHeaders(st) && Flat(x) && P.Next(st, x, st')
    ensures NoHeaders(st')
  {
    hide NoHeaders, HeaderBit;
    if x.Lock? || x.Unlock? || x.LinkInsert? || x.UnlinkRemove? {
      SameNoHeaders(st, st');
    } else {
      hide P.Next, Flat;
      if x.LinkFlush? || x.LinkDrain? || x.LinkStore? || x.LinkMark? || x.LinkFlagDrain? {
        LinkNoHeaders(st, x, st');
      } else if x.UnlinkStore? || x.UnlinkMark? || x.UnlinkFlagDrain? || x.Hit? {
        UnlinkNoHeaders(st, x, st');
      } else {
        DraftNoHeaders(st, x, st');
      }
    }
  }

  lemma SameNoHeaders(st: P.State, st': P.State)
    requires NoHeaders(st) && st'.mem == st.mem
    ensures NoHeaders(st')
  {
  }

  lemma {:induction false} RunNoHeaders(states: seq<P.State>, actions: seq<P.Action>, i: nat)
    requires P.Run(states, actions) && i < |states| && NoHeaders(states[0])
    requires forall j :: 0 <= j < i ==> Flat(actions[j])
    ensures NoHeaders(states[i])
  {
    hide NoHeaders, P.Init, P.Next, Flat;
    if i > 0 {
      RunNoHeaders(states, actions, i - 1);
      assert P.Shape(states[i - 1]) && P.Next(states[i - 1], actions[i - 1], states[i - 1 + 1]);
      StepNoHeaders(states[i - 1], actions[i - 1], states[i]);
    }
  }

  /** A run that begins without chunked items and writes no flags of one leaves nothing that recovery stops at, and what
      the next run begins with is without them again. */
  lemma CrashCompletes(states: seq<P.State>, actions: seq<P.Action>, i: nat, imgs: seq<seq<Byte>>,
    imgs': seq<seq<Byte>>,
      pages: seq<Page>, p: seq<R.Frame>, oldest: nat, now: nat, threads: nat)
    requires P.Run(states, actions) && i < |states| && P.CrashImage(states[i], imgs)
    requires NoHeaders(states[0]) && forall j :: 0 <= j < i ==> Flat(actions[j])
    requires Laid(pages, |imgs|) && Reads(p, pages, imgs, states[i].cas) &&
               Dropped(imgs, imgs', states[i].cas, oldest, now)
    ensures forall r :: !R.Unfinished(p, r)
    ensures P.Recoverable(imgs', states[i].cas) && NoHeaders(P.Reopen(imgs', states[i].cas, threads))
  {
    RunNoHeaders(states, actions, i);
    hide P.Run, P.KeyOf, P.Fits, P.LinkedBit, HeaderBit, PslabBit, NullAt, Word, R.Dead, Reads, Flat, Drop, Laid;
    forall s | 0 <= s < |imgs|
      ensures !HeaderBit(imgs[s][P.FLAGS])
    {
      assert NoHeader(states[i].mem[s]);
    }
    forall r
      ensures !R.Unfinished(p, r)
    {
      if R.InPool(p, r) {
        ReadAt(p, pages, imgs, states[i].cas, r);
      }
    }
    DroppedSizes(imgs, imgs', states[i].cas, oldest, now);
    P.CrashCanReopen(states, actions, i, imgs, imgs', threads);
    ReopenNoHeaders(imgs, imgs', states[i].cas, oldest, now, threads);
  }

  lemma ReopenNoHeaders(imgs: seq<seq<Byte>>, imgs': seq<seq<Byte>>, cas: nat, oldest: nat, now: nat, threads: nat)
    requires Dropped(imgs, imgs', cas, oldest, now) && P.Recoverable(imgs', cas)
    requires forall s :: 0 <= s < |imgs| ==> !HeaderBit(imgs[s][P.FLAGS])
    ensures NoHeaders(P.Reopen(imgs', cas, threads))
  {
    hide P.KeyOf, P.Fits, P.LinkedBit, R.Dead, ReadSlot, P.TableOf, P.Settle;
    forall s | 0 <= s < |imgs'|
      ensures NoHeader(P.Settle(imgs'[s]))
    {
      assert Solid(P.Settle(imgs'[s]), imgs'[s]);
      assert imgs'[s] == Drop(imgs[s], cas, oldest, now);
    }
  }
}
