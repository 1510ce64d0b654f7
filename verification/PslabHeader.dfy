/** The header of the persistent slab pool (pslab.c): its checksum, the two flush-time slots that are
    switched by one byte, and the creation of a pool. */
module PslabHeader {
  import opened Pmem

  // Byte offsets of the packed header.
  const CHECKSUM := 21
  const VALID := 23
  const STARTED := 24
  const FLUSH_TIME := 32
  const SLAB_NUM := 40
  const MIN_LENGTH := 52

  function Add(a: Byte, b: Byte): Byte { a + b }
  function Negate(a: Byte): Byte { !a + 1 }

  function ByteSum(s: seq<Byte>): Byte {
    if s == [] then 0 else Add(ByteSum(s[..|s| - 1]), s[|s| - 1])
  }

  /** pslab_do_checksum: the loop over a buffer. */
  method DoChecksum(buf: seq<Byte>) returns (sum: Byte)
    ensures sum == ByteSum(buf)
  {
    hide Add;
    sum := 0;
    for cur := 0 to |buf|
      invariant sum == ByteSum(buf[..cur])
    {
      assert buf[..cur + 1][..cur] == buf[..cur];
      sum := Add(sum, buf[cur]);
    }
    assert buf[..|buf|] == buf;
  }

  /** The part of the checksum that never changes after creation. */
  function StaticSum(h: seq<Byte>): Byte
    requires |h| >= MIN_LENGTH
  {
    Add(Add(ByteSum(h[..CHECKSUM]), ByteSum(h[STARTED..FLUSH_TIME])), ByteSum(h[SLAB_NUM..]))
  }

  function SlotTime(h: seq<Byte>, i: nat): seq<Byte>
    requires |h| >= MIN_LENGTH && i < 2
  {
    h[FLUSH_TIME + 4 * i..FLUSH_TIME + 4 * i + 4]
  }

  /** pslab_checksum_check: zero means the slot is intact. */
  function Check(h: seq<Byte>, i: nat): Byte
    requires |h| >= MIN_LENGTH && i < 2
  {
    Add(Add(StaticSum(h), h[CHECKSUM + i]), ByteSum(SlotTime(h, i)))
  }

  /** pslab_checksum_update. */
  function SlotChecksum(h: seq<Byte>, time: seq<Byte>): Byte
    requires |h| >= MIN_LENGTH
  {
    Negate(Add(StaticSum(h), ByteSum(time)))
  }

  lemma ChecksumCancels(s: Byte, t: Byte)
    ensures Add(Add(s, Negate(Add(s, t))), t) == 0
  {
  }

  /** The valid byte names one of the two slots. */
  predicate Marked(h: seq<Byte>)
    requires |h| >= MIN_LENGTH
  {
    h[VALID] == 1 || h[VALID] == 2
  }

  /** A header whose valid byte names an intact slot that holds `time`. */
  predicate Good(h: seq<Byte>, time: seq<Byte>) {
    && |h| >= MIN_LENGTH && Marked(h)
    && var i := Current(h);
    && Check(h, i) == 0 && SlotTime(h, i) == time
  }

  function Current(h: seq<Byte>): (i: nat)
    requires |h| >= MIN_LENGTH
    ensures i < 2
  {
    if h[VALID] == 1 then 0 else 1
  }

  function Slot(i: nat): Byte { if i == 0 then 1 else 2 }

  // ---- pslab_update_flushtime, operation by operation ----

  function SlotStores(h: seq<Byte>, time: seq<Byte>): seq<Op>
    requires |h| >= MIN_LENGTH && |time| == 4
  {
    var i := 1 - Current(h);
    var t := FLUSH_TIME + 4 * i;
    [Store(t, time[0]), Store(t + 1, time[1]), Store(t + 2, time[2]), Store(t + 3, time[3]),
     Store(CHECKSUM + i, SlotChecksum(h, time))]
  }

  const SlotFlushes: seq<Op> := [Flush(FLUSH_TIME, FLUSH_TIME + 8), Flush(CHECKSUM, CHECKSUM + 2)]

  function SwitchOps(h: seq<Byte>): seq<Op>
    requires |h| >= MIN_LENGTH
  {
    [Store(VALID, Slot(1 - Current(h)))] + [Flush(VALID, VALID + 1)] + [Drain]
  }

  function UpdateOps(h: seq<Byte>, time: seq<Byte>): seq<Op>
    requires |h| >= MIN_LENGTH && |time| == 4
  {
    (SlotStores(h, time) + SlotFlushes + [Drain]) + SwitchOps(h)
  }

  /** The header with the other slot filled in, and with the valid byte switched to it. */
  function Filled(h: seq<Byte>, time: seq<Byte>): seq<Byte>
    requires |h| >= MIN_LENGTH && |time| == 4
  {
    Written(h, SlotStores(h, time))
  }

  lemma FilledIs(h: seq<Byte>, time: seq<Byte>)
    requires |h| >= MIN_LENGTH && |time| == 4
    ensures var i, f := 1 - Current(h), Filled(h, time);
            && |f| == |h| && f[VALID] == h[VALID]
            && SlotTime(f, i) == time && f[CHECKSUM + i] == SlotChecksum(h, time)
            && SlotTime(f, 1 - i) == SlotTime(h, 1 - i) && f[CHECKSUM + 1 - i] == h[CHECKSUM + 1 - i]
            && f[..CHECKSUM] == h[..CHECKSUM] && f[STARTED..FLUSH_TIME] == h[STARTED..FLUSH_TIME] &&
                 f[SLAB_NUM..] == h[SLAB_NUM..]
  {
    hide SlotChecksum;
    var i := 1 - Current(h);
    var t := FLUSH_TIME + 4 * i;
    var cs := SlotChecksum(h, time);
    var ops := SlotStores(h, time);
    assert ops[..4][..3] == ops[..3] && ops[..3][..2] == ops[..2] && ops[..2][..1] == ops[..1] && ops[..1][..0] == [];
    assert Written(h, ops[..1]) == h[t := time[0]];
    assert Written(h, ops[..2]) == h[t := time[0]][t + 1 := time[1]];
    assert Written(h, ops[..3]) == h[t := time[0]][t + 1 := time[1]][t + 2 := time[2]];
    assert Written(h, ops[..4]) == h[t := time[0]][t + 1 := time[1]][t + 2 := time[2]][t + 3 := time[3]];
    assert Filled(h, time) == h[t := time[0]][t + 1 := time[1]][t + 2 := time[2]][t + 3 := time[3]][CHECKSUM + i := cs];
  }

  lemma FilledGood(h: seq<Byte>, cur: seq<Byte>, time: seq<Byte>)
    requires Good(h, cur) && |time| == 4
    ensures Good(Filled(h, time), cur)
    ensures Good(Filled(h, time)[VALID := Slot(1 - Current(h))], time)
  {
    hide Add, Negate, ByteSum, Filled;
    FilledIs(h, time);
    var f, i := Filled(h, time), 1 - Current(h);
    assert StaticSum(f) == StaticSum(h);
    ChecksumCancels(StaticSum(h), ByteSum(time));
    var g := f[VALID := Slot(i)];
    assert SlotTime(g, i) == SlotTime(f, i) && Current(g) == i;
    assert g[..CHECKSUM] == f[..CHECKSUM] && g[STARTED..FLUSH_TIME] == f[STARTED..FLUSH_TIME] &&
             g[SLAB_NUM..] == f[SLAB_NUM..];
    assert StaticSum(g) == StaticSum(h);
  }

  /** An image that differs from a good header only inside the slot that is not current is good as well. */
  lemma OtherSlotFree(h: seq<Byte>, img: seq<Byte>, time: seq<Byte>)
    requires Good(h, time) && |img| == |h|
    requires var i := 1 - Current(h);
             forall a :: 0 <= a < |h| && a != CHECKSUM + i && !(FLUSH_TIME + 4 * i <= a < FLUSH_TIME + 4 * i + 4) ==>
               img[a] == h[a]
    ensures Good(img, time)
  {
    hide Add, ByteSum;
    var j := Current(h);
    assert img[..CHECKSUM] == h[..CHECKSUM] && img[STARTED..FLUSH_TIME] == h[STARTED..FLUSH_TIME] &&
             img[SLAB_NUM..] == h[SLAB_NUM..];
    assert SlotTime(img, j) == SlotTime(h, j);
  }

  /** Bytes that no operation stores to are in every image what they were on the medium. */
  lemma ImageElsewhere(m: Memory, h: seq<Byte>, ops: seq<Op>, img: seq<Byte>, a: nat)
    requires Solid(m, h) && AllSane(m) && Image(Run(m, ops), img) && a < |h| && !StoresTo(ops, a)
    ensures img[a] == h[a]
  {
    UntouchedStays(a, h[a], ops);
  }

  /** A crash while the slot that is not current is being written. */
  lemma CrashInSlot(m: Memory, h: seq<Byte>, cur: seq<Byte>, time: seq<Byte>, k: nat, img: seq<Byte>)
    requires Solid(m, h) && AllSane(m) && Good(h, cur) && |time| == 4
    requires k <= |SlotStores(h, time) + SlotFlushes + [Drain]|
    requires Image(Run(m, (SlotStores(h, time) + SlotFlushes + [Drain])[..k]), img)
    ensures Good(img, cur)
  {
    var ops := (SlotStores(h, time) + SlotFlushes + [Drain])[..k];
    var i := 1 - Current(h);
    hide SlotChecksum, Run, Image, Solid, AllSane, Good;
    ImageLength(m, h, ops, img);
    forall a | 0 <= a < |h| && a != CHECKSUM + i && !(FLUSH_TIME + 4 * i <= a < FLUSH_TIME + 4 * i + 4)
      ensures img[a] == h[a]
    {
      OutsideSlot(h, time, k, a);
      ImageElsewhere(m, h, ops, img, a);
    }
    OtherSlotFree(h, img, cur);
  }

  lemma ImageLength(m: Memory, h: seq<Byte>, ops: seq<Op>, img: seq<Byte>)
    requires Solid(m, h) && Image(Run(m, ops), img)
    ensures |img| == |h|
  {
  }

  lemma OutsideSlot(h: seq<Byte>, time: seq<Byte>, k: nat, a: nat)
    requires |h| >= MIN_LENGTH && |time| == 4 && k <= |SlotStores(h, time) + SlotFlushes + [Drain]|
    requires var i := 1 - Current(h); a != CHECKSUM + i && !(FLUSH_TIME + 4 * i <= a < FLUSH_TIME + 4 * i + 4)
    ensures !StoresTo((SlotStores(h, time) + SlotFlushes + [Drain])[..k], a)
  {
    hide SlotChecksum;
    var ops := (SlotStores(h, time) + SlotFlushes + [Drain])[..k];
    assert forall j :: 0 <= j < k && ops[j].Store? ==> ops[j] in SlotStores(h, time);
  }

  /** A crash while the valid byte is being switched. */
  lemma CrashInSwitch(m: Memory, f: seq<Byte>, v: Byte, k: nat, img: seq<Byte>)
    requires Solid(m, f) && AllSane(m) && |f| >= MIN_LENGTH && k <= 3
    requires Image(Run(m, ([Store(VALID, v)] + [Flush(VALID, VALID + 1)] + [Drain])[..k]), img)
    ensures img == f || img == f[VALID := v]
  {
    var ops := ([Store(VALID, v)] + [Flush(VALID, VALID + 1)] + [Drain])[..k];
    forall a | 0 <= a < |f| && a != VALID
      ensures img[a] == f[a]
    {
      ImageElsewhere(m, f, ops, img, a);
    }
    ValuesKnown(VALID, m[VALID], ops, img[VALID]);
    assert img[VALID] == f[VALID] || img[VALID] == v;
    if img[VALID] == v {
      assert img == f[VALID := v];
    } else {
      assert img == f;
    }
  }

  lemma RunConcat(m: Memory, p: seq<Op>, q: seq<Op>)
    requires AllSane(m)
    ensures Run(m, p + q) == Run(Run(m, p), q)
  {
    forall a | 0 <= a < |m|
      ensures Run(m, p + q)[a] == Run(Run(m, p), q)[a]
    {
      CellRunConcat(a, m[a], p, q);
    }
  }

  lemma SlotCommitted(m: Memory, h: seq<Byte>, time: seq<Byte>)
    requires Solid(m, h) && AllSane(m) && |h| >= MIN_LENGTH && |time| == 4
    ensures Solid(Run(m, SlotStores(h, time) + SlotFlushes + [Drain]), Filled(h, time))
  {
    hide SlotChecksum;
    var st := SlotStores(h, time);
    forall a | 0 <= a < |m| && StoresTo(st, a)
      ensures Covers(SlotFlushes, a)
    {
      assert SlotFlushes[0] == Flush(FLUSH_TIME, FLUSH_TIME + 8) && SlotFlushes[1] == Flush(CHECKSUM, CHECKSUM + 2);
    }
    CommitSolid(m, h, st, SlotFlushes);
  }

  lemma SwitchCommitted(m: Memory, f: seq<Byte>, v: Byte)
    requires Solid(m, f) && AllSane(m) && |f| >= MIN_LENGTH
    ensures Solid(Run(m, [Store(VALID, v)] + [Flush(VALID, VALID + 1)] + [Drain]), f[VALID := v])
  {
    var st, fl := [Store(VALID, v)], [Flush(VALID, VALID + 1)];
    assert fl[0] == Flush(VALID, VALID + 1);
    assert st[..0] == [] && Written(f, st) == f[VALID := v];
    CommitSolid(m, f, st, fl);
  }

  /** The header after a complete update. */
  function Updated(h: seq<Byte>, time: seq<Byte>): seq<Byte>
    requires |h| >= MIN_LENGTH && |time| == 4
  {
    Filled(h, time)[VALID := Slot(1 - Current(h))]
  }

  /** A crash anywhere in an update, torn bytes included, leaves a header whose valid byte names an intact
      slot with the old or the new flush time; a complete update leaves the new one on the medium. */
  lemma UpdateCrashSafe(m: Memory, h: seq<Byte>, cur: seq<Byte>, time: seq<Byte>, k: nat, img: seq<Byte>)
    requires Solid(m, h) && AllSane(m) && Good(h, cur) && |time| == 4 && k <= |UpdateOps(h, time)|
    requires Image(Run(m, UpdateOps(h, time)[..k]), img)
    ensures Good(img, cur) || Good(img, time)
  {
    assert |h| >= MIN_LENGTH;
    hide SlotChecksum, Good;
    var p, q := SlotStores(h, time) + SlotFlushes + [Drain], SwitchOps(h);
    if k <= |p| {
      assert UpdateOps(h, time)[..k] == p[..k];
      CrashInSlot(m, h, cur, time, k, img);
    } else {
      assert UpdateOps(h, time)[..k] == p + q[..k - |p|];
      RunConcat(m, p, q[..k - |p|]);
      SlotCommitted(m, h, time);
      FilledGood(h, cur, time);
      CrashInSwitch(Run(m, p), Filled(h, time), Slot(1 - Current(h)), k - |p|, img);
    }
  }

  lemma UpdateCommits(m: Memory, h: seq<Byte>, cur: seq<Byte>, time: seq<Byte>)
    requires Solid(m, h) && AllSane(m) && Good(h, cur) && |time| == 4
    ensures Solid(Run(m, UpdateOps(h, time)), Updated(h, time)) && Good(Updated(h, time), time)
  {
    assert |h| >= MIN_LENGTH;
    hide SlotChecksum, Good;
    var p, q := SlotStores(h, time) + SlotFlushes + [Drain], SwitchOps(h);
    RunConcat(m, p, q);
    SlotCommitted(m, h, time);
    FilledGood(h, cur, time);
    SwitchCommitted(Run(m, p), Filled(h, time), Slot(1 - Current(h)));
  }

  // ---- Any number of updates ----

  function HeaderAfter(h: seq<Byte>, times: seq<seq<Byte>>): (r: seq<Byte>)
    requires |h| >= MIN_LENGTH && forall i :: 0 <= i < |times| ==> |times[i]| == 4
    ensures |r| == |h|
  {
    if times == [] then h else Updated(HeaderAfter(h, times[..|times| - 1]), times[|times| - 1])
  }

  function MemoryAfter(m: Memory, h: seq<Byte>, times: seq<seq<Byte>>): (r: Memory)
    requires AllSane(m) && |h| >= MIN_LENGTH && forall i :: 0 <= i < |times| ==> |times[i]| == 4
    ensures AllSane(r)
  {
    if times == [] then m
    else var t := times[..|times| - 1];
         Run(MemoryAfter(m, h, t), UpdateOps(HeaderAfter(h, t), times[|times| - 1]))
  }

  lemma {:induction false} UpdatesCommit(m: Memory, h: seq<Byte>, first: seq<Byte>, times: seq<seq<Byte>>)
    requires Solid(m, h) && AllSane(m) && Good(h, first) && forall i :: 0 <= i < |times| ==> |times[i]| == 4
    ensures Solid(MemoryAfter(m, h, times), HeaderAfter(h, times))
    ensures Good(HeaderAfter(h, times), if times == [] then first else times[|times| - 1])
  {
    assert |h| >= MIN_LENGTH;
    hide Good, UpdateOps, Updated;
    if times != [] {
      var t := times[..|times| - 1];
      UpdatesCommit(m, h, first, t);
      var cur := if t == [] then first else t[|t| - 1];
      UpdateCommits(MemoryAfter(m, h, t), HeaderAfter(h, t), cur, times[|times| - 1]);
    }
  }

  /** After any number of complete updates and any part of one more, every crash image is a good header
      with the last complete flush time or the one being written. */
  lemma FlushTimeSurvives(m: Memory, h: seq<Byte>, first: seq<Byte>, times: seq<seq<Byte>>, next: seq<Byte>,
      k: nat, img: seq<Byte>)
    requires Solid(m, h) && AllSane(m) && Good(h, first) && forall i :: 0 <= i < |times| ==> |times[i]| == 4
    requires |next| == 4 && k <= |UpdateOps(HeaderAfter(h, times), next)|
    requires Image(Run(MemoryAfter(m, h, times), UpdateOps(HeaderAfter(h, times), next)[..k]), img)
    ensures Good(img, if times == [] then first else times[|times| - 1]) || Good(img, next)
  {
    assert |h| >= MIN_LENGTH;
    hide Good, UpdateOps, Updated;
    UpdatesCommit(m, h, first, times);
    UpdateCrashSafe(MemoryAfter(m, h, times), HeaderAfter(h, times), if times == [] then first
      else times[|times| - 1], next, k, img);
  }

  // ---- pslab_create ----

  const FRAME_HEADER := 12

  function Zeros(n: nat): seq<Byte> { seq(n, _ => 0) }

  /** pmem_memset_nodrain to zero. */
  function ZeroOps(lo: nat, n: nat): seq<Op> { CopyOps(lo, Zeros(n)) + [Flush(lo, lo + n)] }

  function FrameOps(frames: seq<nat>): seq<Op> {
    if frames == [] then [] else FrameOps(frames[..|frames| - 1]) + ZeroOps(frames[|frames| - 1], FRAME_HEADER)
  }

  /** What creation fills the header with: every field but the checksums, the valid byte and the flush
      times, which are zero. */
  predicate HeaderContent(c: seq<Byte>) {
    && |c| >= MIN_LENGTH && c[0] != 0 && c[20] == 0 && c[CHECKSUM] == c[CHECKSUM + 1] == c[VALID] == 0
    && SlotTime(c, 0) == Zeros(4) && SlotTime(c, 1) == Zeros(4)
  }

  /** Frames follow the header and do not overlap it. */
  predicate FramesFit(c: seq<Byte>, frames: seq<nat>, size: nat) {
    |c| <= size && forall i :: 0 <= i < |frames| ==> |c| <= frames[i] && frames[i] + FRAME_HEADER <= size
  }

  /** Everything up to the drain that precedes the setting of the valid byte. */
  function FillOps(c: seq<Byte>, frames: seq<nat>): seq<Op>
    requires HeaderContent(c)
  {
    ZeroOps(0, |c|) +
    (CopyOps(0, c[..20]) + CopyOps(44, c[44..48]) + CopyOps(40, c[40..44])) +
    FrameOps(frames) +
    (CopyOps(48, c[48..]) + CopyOps(STARTED, c[STARTED..FLUSH_TIME]) + [Store(CHECKSUM, SlotChecksum(c, Zeros(4)))]) +
    [Flush(0, |c|)]
  }

  function CreateOps(c: seq<Byte>, frames: seq<nat>): seq<Op>
    requires HeaderContent(c)
  {
    (FillOps(c, frames) + [Drain]) + ([Store(VALID, 1)] + [Flush(VALID, VALID + 1)] + [Drain])
  }

  /** The finished header. */
  function Complete(c: seq<Byte>): seq<Byte>
    requires HeaderContent(c)
  {
    c[CHECKSUM := SlotChecksum(c, Zeros(4))][VALID := 1]
  }

  lemma CompleteGood(c: seq<Byte>)
    requires HeaderContent(c)
    ensures Good(Complete(c), Zeros(4))
  {
    hide Add, Negate, ByteSum, Zeros;
    var h := Complete(c);
    assert h[..CHECKSUM] == c[..CHECKSUM] && h[STARTED..FLUSH_TIME] == c[STARTED..FLUSH_TIME] &&
             h[SLAB_NUM..] == c[SLAB_NUM..];
    assert StaticSum(h) == StaticSum(c) && SlotTime(h, 0) == SlotTime(c, 0);
    ChecksumCancels(StaticSum(c), ByteSum(Zeros(4)));
  }

  // ---- What the fill operations do ----

  predicate Benign(op: Op) { !op.Drain? && (op.Store? && op.addr == VALID ==> op.v == 0) }

  predicate AllBenign(ops: seq<Op>) { forall i :: 0 <= i < |ops| ==> Benign(ops[i]) }

  lemma {:induction false} FramesBenign(frames: seq<nat>)
    requires forall i :: 0 <= i < |frames| ==> frames[i] >= MIN_LENGTH
    ensures AllBenign(FrameOps(frames))
  {
    if frames != [] {
      FramesBenign(frames[..|frames| - 1]);
    }
  }

  lemma FillBenign(c: seq<Byte>, frames: seq<nat>, size: nat)
    requires HeaderContent(c) && FramesFit(c, frames, size)
    ensures AllBenign(FillOps(c, frames))
  {
    FramesBenign(frames);
    hide SlotChecksum, FrameOps;
    assert AllBenign(ZeroOps(0, |c|));
    assert AllBenign(CopyOps(0, c[..20]) + CopyOps(44, c[44..48]) + CopyOps(40, c[40..44]));
    assert AllBenign(CopyOps(48, c[48..]) + CopyOps(STARTED,
             c[STARTED..FLUSH_TIME]) + [Store(CHECKSUM, SlotChecksum(c, Zeros(4)))]);
  }

  lemma ZeroOpsClean(lo: nat, n: nat, a: nat)
    ensures StoresTo(ZeroOps(lo, n), a) <==> lo <= a < lo + n
    ensures Clean(ZeroOps(lo, n), a)
  {
    CopyStoresTo(lo, Zeros(n), a);
    StoresConcat(CopyOps(lo, Zeros(n)), [Flush(lo, lo + n)], a);
    if lo <= a < lo + n {
      FlushedLast(CopyOps(lo, Zeros(n)), lo, lo + n, a);
    }
  }

  lemma {:induction false} FramesClean(frames: seq<nat>, a: nat)
    ensures Clean(FrameOps(frames), a)
  {
    if frames != [] {
      var p, f := FrameOps(frames[..|frames| - 1]), frames[|frames| - 1];
      FramesClean(frames[..|frames| - 1], a);
      ZeroOpsClean(f, FRAME_HEADER, a);
      if StoresTo(ZeroOps(f, FRAME_HEADER), a) {
        QuietThenClean(p, ZeroOps(f, FRAME_HEADER), a);
      } else {
        CleanThenQuiet(p, ZeroOps(f, FRAME_HEADER), a);
      }
    }
  }

  lemma FillClean(c: seq<Byte>, frames: seq<nat>, a: nat)
    requires HeaderContent(c)
    ensures Clean(FillOps(c, frames), a)
  {
    hide SlotChecksum;
    var z := ZeroOps(0, |c|);
    var p1, p2, p3 := CopyOps(0, c[..20]), CopyOps(44, c[44..48]), CopyOps(40, c[40..44]);
    var fr := FrameOps(frames);
    var q1, q2, q3 := CopyOps(48, c[48..]), CopyOps(STARTED,
      c[STARTED..FLUSH_TIME]), [Store(CHECKSUM, SlotChecksum(c, Zeros(4)))];
    var fl := [Flush(0, |c|)];
    if a < |c| {
      FlushedLast(z + (p1 + p2 + p3) + fr + (q1 + q2 + q3), 0, |c|, a);
    } else {
      CopyStoresTo(0, c[..20], a);
      CopyStoresTo(44, c[44..48], a);
      CopyStoresTo(40, c[40..44], a);
      CopyStoresTo(48, c[48..], a);
      CopyStoresTo(STARTED, c[STARTED..FLUSH_TIME], a);
      ZeroOpsClean(0, |c|, a);
      hide CopyOps, ZeroOps, FrameOps;
      StoresConcat(p1, p2, a);
      StoresConcat(p1 + p2, p3, a);
      StoresConcat(z, p1 + p2 + p3, a);
      StoresConcat(q1, q2, a);
      StoresConcat(q1 + q2, q3, a);
      FramesClean(frames, a);
      assert !StoresTo(q3, a) && !StoresTo(fl, a);
      QuietThenClean(z + (p1 + p2 + p3), fr, a);
      CleanThenQuiet(z + (p1 + p2 + p3) + fr, q1 + q2 + q3, a);
      CleanThenQuiet(z + (p1 + p2 + p3) + fr + (q1 + q2 + q3), fl, a);
    }
  }

  // ---- The content that is on the medium before the valid byte is set ----

  lemma WrittenZero(b: seq<Byte>, lo: nat, n: nat)
    requires lo + n <= |b|
    ensures Written(b, ZeroOps(lo, n)) == b[..lo] + Zeros(n) + b[lo + n..]
  {
    ZerosLength(n);
    hide Written, CopyOps, Zeros;
    var flush := [Flush(lo, lo + n)];
    WrittenConcat(b, CopyOps(lo, Zeros(n)), flush);
    WrittenFlushes(Written(b, CopyOps(lo, Zeros(n))), flush);
    WrittenCopy(b, lo, Zeros(n));
  }

  lemma ZerosLength(n: nat)
    ensures |Zeros(n)| == n
  {
  }

  predicate ZeroAt(b: seq<Byte>, lo: nat, n: nat) {
    lo + n <= |b| && forall a :: lo <= a < lo + n ==> b[a] == 0
  }

  lemma {:induction false} WrittenFrames(b: seq<Byte>, len: nat, frames: seq<nat>)
    requires forall i :: 0 <= i < |frames| ==> len <= frames[i] && frames[i] + FRAME_HEADER <= |b|
    ensures var r := Written(b, FrameOps(frames));
            && |r| == |b| && (forall a :: 0 <= a < len && a < |b| ==> r[a] == b[a])
            && (forall i :: 0 <= i < |frames| ==> ZeroAt(r, frames[i], FRAME_HEADER))
  {
    if frames != [] {
      var n := |frames| - 1;
      var fs, f := frames[..n], frames[n];
      WrittenFrames(b, len, fs);
      WrittenConcat(b, FrameOps(fs), ZeroOps(f, FRAME_HEADER));
      var r := Written(b, FrameOps(fs));
      WrittenZero(r, f, FRAME_HEADER);
      var r' := r[..f] + Zeros(FRAME_HEADER) + r[f + FRAME_HEADER..];
      hide FrameOps, ZeroOps, Written;
      forall i | 0 <= i < |frames|
        ensures ZeroAt(r', frames[i], FRAME_HEADER)
      {
        if i < n {
          assert ZeroAt(r, fs[i], FRAME_HEADER);
        }
      }
    }
  }

  lemma FillWritten(b: seq<Byte>, c: seq<Byte>, frames: seq<nat>)
    requires HeaderContent(c) && FramesFit(c, frames, |b|)
    ensures var w := Written(b, FillOps(c, frames));
            && |w| == |b| && w[..|c|] == c[CHECKSUM := SlotChecksum(c, Zeros(4))]
            && (forall i :: 0 <= i < |frames| ==> ZeroAt(w, frames[i], FRAME_HEADER))
  {
    hide SlotChecksum, Written, ZeroOps, CopyOps, FrameOps;
    var z := ZeroOps(0, |c|);
    var p1, p2, p3 := CopyOps(0, c[..20]), CopyOps(44, c[44..48]), CopyOps(40, c[40..44]);
    var fr := FrameOps(frames);
    var cs := SlotChecksum(c, Zeros(4));
    var q1, q2, q3 := CopyOps(48, c[48..]), CopyOps(STARTED, c[STARTED..FLUSH_TIME]), [Store(CHECKSUM, cs)];
    var fl := [Flush(0, |c|)];
    WrittenConcat(b, z + (p1 + p2 + p3) + fr + (q1 + q2 + q3), fl);
    WrittenConcat(b, z + (p1 + p2 + p3) + fr, q1 + q2 + q3);
    WrittenConcat(b, z + (p1 + p2 + p3), fr);
    WrittenConcat(b, z, p1 + p2 + p3);
    WrittenZero(b, 0, |c|);
    var b1 := Zeros(|c|) + b[|c|..];
    assert b[..0] + Zeros(|c|) + b[|c|..] == b1;
    var b2 := Written(b1, p1 + p2 + p3);
    FirstFields(b1, c);
    var b3 := Written(b2, fr);
    WrittenFrames(b2, |c|, frames);
    var b4 := Written(b3, q1 + q2 + q3);
    LastFields(b3, c);
    WrittenFlushes(b4, fl);
    var h := c[CHECKSUM := cs];
    assert c[..20] + c[20..] == c;
    forall a | 0 <= a < |c|
      ensures b4[a] == h[a]
    {
      SlotsAreZero(c, a);
    }
    forall i | 0 <= i < |frames|
      ensures ZeroAt(b4, frames[i], FRAME_HEADER)
    {
      assert ZeroAt(b3, frames[i], FRAME_HEADER);
    }
  }

  lemma SlotsAreZero(c: seq<Byte>, a: nat)
    requires HeaderContent(c)
    ensures FLUSH_TIME <= a < SLAB_NUM ==> c[a] == 0
  {
    if FLUSH_TIME <= a < FLUSH_TIME + 4 {
      assert c[a] == SlotTime(c, 0)[a - FLUSH_TIME];
    } else if FLUSH_TIME + 4 <= a < SLAB_NUM {
      assert c[a] == SlotTime(c, 1)[a - FLUSH_TIME - 4];
    }
  }

  lemma FirstFields(b: seq<Byte>, c: seq<Byte>)
    requires HeaderContent(c) && |b| >= |c|
    ensures var r := Written(b, CopyOps(0, c[..20]) + CopyOps(44, c[44..48]) + CopyOps(40, c[40..44]));
            |r| == |b| && forall a :: 0 <= a < |b| ==> r[a] == if a < 20 || 40 <= a < 48 then c[a] else b[a]
  {
    hide Written, CopyOps;
    var p1, p2, p3 := CopyOps(0, c[..20]), CopyOps(44, c[44..48]), CopyOps(40, c[40..44]);
    WrittenConcat(b, p1 + p2, p3);
    WrittenConcat(b, p1, p2);
    WrittenCopy(b, 0, c[..20]);
    var r1 := Written(b, p1);
    WrittenCopy(r1, 44, c[44..48]);
    var r2 := Written(r1, p2);
    WrittenCopy(r2, 40, c[40..44]);
  }

  lemma LastFields(b: seq<Byte>, c: seq<Byte>)
    requires HeaderContent(c) && |b| >= |c|
    ensures var cs := SlotChecksum(c, Zeros(4));
            var r := Written(b, CopyOps(48, c[48..]) + CopyOps(STARTED,
              c[STARTED..FLUSH_TIME]) + [Store(CHECKSUM, cs)]);
            |r| == |b| && forall a :: 0 <= a < |b| ==>
              r[a] == if a == CHECKSUM then cs else if STARTED <= a < FLUSH_TIME || 48 <= a < |c| then c[a] else b[a]
  {
    var cs := SlotChecksum(c, Zeros(4));
    hide CopyOps, SlotChecksum, Written, Zeros, SlotTime;
    var q1, q2, q3 := CopyOps(48, c[48..]), CopyOps(STARTED, c[STARTED..FLUSH_TIME]), [Store(CHECKSUM, cs)];
    WrittenConcat(b, q1 + q2, q3);
    WrittenConcat(b, q1, q2);
    CopiedAt(b, 48, c[48..]);
    var r1 := Written(b, q1);
    CopiedAt(r1, STARTED, c[STARTED..FLUSH_TIME]);
    var r2 := Written(r1, q2);
    WrittenOne(r2, CHECKSUM, cs);
  }

  lemma CopiedAt(b: seq<Byte>, lo: nat, s: seq<Byte>)
    requires lo + |s| <= |b|
    ensures var r := Written(b, CopyOps(lo, s)); |r| == |b| && forall a :: 0 <= a < |b| ==>
              r[a] == if lo <= a < lo + |s| then s[a - lo] else b[a]
  {
    WrittenCopy(b, lo, s);
    hide Written, CopyOps;
  }

  lemma WrittenOne(b: seq<Byte>, a: nat, v: Byte)
    requires a < |b|
    ensures Written(b, [Store(a, v)]) == b[a := v]
  {
    assert [Store(a, v)][..0] == [];
  }

  // ---- When a pool that is marked valid has a complete header ----

  /** The pool has its complete header, and the headers of all its frames are clear. */
  predicate Created(img: seq<Byte>, c: seq<Byte>, frames: seq<nat>)
    requires HeaderContent(c)
  {
    |img| >= |c| && img[..|c|] == Complete(c) && forall i :: 0 <= i < |frames| ==> ZeroAt(img, frames[i], FRAME_HEADER)
  }

  lemma CrashInFill(m: Memory, b: seq<Byte>, c: seq<Byte>, frames: seq<nat>, k: nat, img: seq<Byte>)
    requires HeaderContent(c) && FramesFit(c, frames, |b|) && Solid(m, b) && AllSane(m) && !Marked(b)
    requires k <= |FillOps(c, frames) + [Drain]| && Image(Run(m, (FillOps(c, frames) + [Drain])[..k]), img)
    ensures !Marked(img)
  {
    FillBenign(c, frames, |b|);
    hide FillOps;
    var ops := (FillOps(c, frames) + [Drain])[..k];
    assert forall i :: 0 <= i < |ops| && ops[i].Store? ==> ops[i] == FillOps(c, frames)[i];
    if Marked(img) {
      ValuesKnown(VALID, m[VALID], ops, img[VALID]);
    }
  }

  lemma FillCommitted(m: Memory, b: seq<Byte>, c: seq<Byte>, frames: seq<nat>)
    requires HeaderContent(c) && FramesFit(c, frames, |b|) && Solid(m, b) && AllSane(m)
    ensures Solid(Run(m, FillOps(c, frames) + [Drain]), Written(b, FillOps(c, frames)))
  {
    FillBenign(c, frames, |b|);
    hide FillOps, Clean;
    forall a | 0 <= a < |m|
      ensures Clean(FillOps(c, frames), a)
    {
      FillClean(c, frames, a);
    }
    CommitClean(m, b, FillOps(c, frames));
  }

  /** Creation over a pool that is not marked valid: at whatever operation the crash comes, an image that is
      marked valid has the whole header and the frame headers. */
  lemma CreateCrashSafe(m: Memory, b: seq<Byte>, c: seq<Byte>, frames: seq<nat>, k: nat, img: seq<Byte>)
    requires HeaderContent(c) && FramesFit(c, frames, |b|) && Solid(m, b) && AllSane(m)
    requires k <= |CreateOps(c, frames)| && Image(Run(m, CreateOps(c, frames)[..k]), img)
    requires !Marked(b) && Marked(img)
    ensures Created(img, c, frames)
  {
    var p := FillOps(c, frames) + [Drain];
    var q := [Store(VALID, 1)] + [Flush(VALID, VALID + 1)] + [Drain];
    hide FillOps, Written, SlotChecksum, Solid, AllSane, Created, ZeroAt, Zeros;
    if k <= |p| {
      assert CreateOps(c, frames)[..k] == p[..k];
      CrashInFill(m, b, c, frames, k, img);
    } else {
      assert CreateOps(c, frames)[..k] == p + q[..k - |p|];
      RunConcat(m, p, q[..k - |p|]);
      FillCommitted(m, b, c, frames);
      var w := Written(b, FillOps(c, frames));
      FillWritten(b, c, frames);
      CrashInSwitch(Run(m, p), w, 1, k - |p|, img);
      SwitchedIsCreated(w, img, c, frames);
    }
  }

  lemma SwitchedIsCreated(w: seq<Byte>, img: seq<Byte>, c: seq<Byte>, frames: seq<nat>)
    requires HeaderContent(c) && FramesFit(c, frames, |w|) && w[..|c|] == c[CHECKSUM := SlotChecksum(c, Zeros(4))]
    requires forall i :: 0 <= i < |frames| ==> ZeroAt(w, frames[i], FRAME_HEADER)
    requires (img == w || img == w[VALID := 1]) && Marked(img)
    ensures Created(img, c, frames)
  {
    hide SlotChecksum;
    assert w[VALID] == w[..|c|][VALID] == 0;
    assert w[VALID := 1][..|c|] == w[..|c|][VALID := 1];
    forall i | 0 <= i < |frames|
      ensures ZeroAt(img, frames[i], FRAME_HEADER)
    {
      assert ZeroAt(w, frames[i], FRAME_HEADER);
    }
  }

  /** Over an old pool that is marked valid, by either slot, there is a crash that leaves it marked valid and
      incomplete. */
  lemma CreateOverValidPool(m: Memory, b: seq<Byte>, c: seq<Byte>, frames: seq<nat>)
    requires HeaderContent(c) && FramesFit(c, frames, |b|) && Solid(m, b) && AllSane(m) && Marked(b)
    ensures exists k, img :: 0 <= k <= |CreateOps(c, frames)| && Image(Run(m, CreateOps(c, frames)[..k]), img) &&
                             img[VALID] == b[VALID] && Marked(img) && !Created(img, c, frames)
  {
    var ops := CreateOps(c, frames)[..1];
    assert CreateOps(c, frames)[0] == Store(0, 0);
    assert ops == [Store(0, 0)] && ops[..0] == [];
    var img := b[0 := 0];
    forall a | 0 <= a < |m|
      ensures img[a] in Run(m, ops)[a].hist
    {
      assert Run(m, ops)[a] == CellStep(a, CellRun(a, m[a], ops[..0]), Store(0, 0));
      assert CellRun(a, m[a], ops[..0]) == m[a];
      if a == 0 {
        assert Run(m, ops)[0].hist == [b[0], 0];
      }
    }
    assert img[..|c|][0] == 0 != Complete(c)[0];
  }

  /** Exactly the pools that are not marked valid can be created safely. */
  lemma CreateSafeIff(m: Memory, b: seq<Byte>, c: seq<Byte>, frames: seq<nat>)
    requires HeaderContent(c) && FramesFit(c, frames, |b|) && Solid(m, b) && AllSane(m)
    ensures !Marked(b) <==>
            forall k, img ::
              0 <= k <= |CreateOps(c, frames)| && Image(Run(m, CreateOps(c, frames)[..k]), img) && Marked(img) ==>
              Created(img, c, frames)
  {
    hide CreateOps, Created;
    if !Marked(b) {
      forall k, img | 0 <= k <= |CreateOps(c, frames)| && Image(Run(m, CreateOps(c, frames)[..k]), img) && Marked(img)
        ensures Created(img, c, frames)
      {
        CreateCrashSafe(m, b, c, frames, k, img);
      }
    } else {
      CreateOverValidPool(m, b, c, frames);
    }
  }

  // ---- Opening a pool whose valid byte is zero ----

  /** The check at open does not look at the valid byte itself: for zero it reads the slot before the first, that is the
      reserved byte as its checksum and the upper half of the start time as its flush time. */
  function CheckBefore(h: seq<Byte>): Byte
    requires |h| >= MIN_LENGTH
  {
    Add(Add(StaticSum(h), h[CHECKSUM - 1]), ByteSum(h[FLUSH_TIME - 4..FLUSH_TIME]))
  }

  /** A crash just before creation sets the valid byte leaves an image that the check at open accepts if and only if the
      bytes of the header, the upper half of the start time counted twice, add up to zero. */
  lemma UnmarkedAcceptedIff(m: Memory, b: seq<Byte>, c: seq<Byte>, frames: seq<nat>)
    requires HeaderContent(c) && FramesFit(c, frames, |b|) && Solid(m, b) && AllSane(m)
    ensures var w := Written(b, FillOps(c, frames));
            && Image(Run(m, FillOps(c, frames) + [Drain]), w) && |w| == |b| && w[VALID] == 0
            && (CheckBefore(w[..|c|]) == 0 <==> Add(StaticSum(c), ByteSum(c[FLUSH_TIME - 4..FLUSH_TIME])) == 0)
  {
    hide FillOps, Written, SlotChecksum, Add, ByteSum, Zeros, ZeroAt;
    FillCommitted(m, b, c, frames);
    FillWritten(b, c, frames);
    var w := Written(b, FillOps(c, frames));
    var h := w[..|c|];
    assert w[VALID] == h[VALID] == 0 && h[CHECKSUM - 1] == 0;
    assert h[..CHECKSUM] == c[..CHECKSUM] && h[STARTED..FLUSH_TIME] == c[STARTED..FLUSH_TIME] &&
             h[SLAB_NUM..] == c[SLAB_NUM..];
    assert h[FLUSH_TIME - 4..FLUSH_TIME] == c[FLUSH_TIME - 4..FLUSH_TIME];
    AddZero(StaticSum(c));
  }

  lemma AddZero(a: Byte)
    ensures Add(a, 0) == a
  {
  }

  lemma AddAssoc(x: Byte, y: Byte, z: Byte)
    ensures Add(Add(x, y), z) == Add(x, Add(y, z)) && Add(y, z) == Add(z, y)
  {
    calc {
      Add(Add(x, y), z);
      Add(x + y, z);
      x + y + z;
      x + (y + z);
      Add(x, y + z);
      Add(x, Add(y, z));
    }
    calc {
      Add(y, z);
      y + z;
      z + y;
      Add(z, y);
    }
  }

  /** What is added to a byte is added to the sum. */
  lemma {:induction false} SumAdd(s: seq<Byte>, i: nat, d: Byte)
    requires i < |s|
    ensures ByteSum(s[i := Add(s[i], d)]) == Add(ByteSum(s), d)
  {
    hide Add;
    var n, t := |s| - 1, s[i := Add(s[i], d)];
    if i == n {
      assert t[..n] == s[..n];
      AddAssoc(ByteSum(s[..n]), s[n], d);
    } else {
      SumAdd(s[..n], i, d);
      assert t[..n] == s[..n][i := Add(s[i], d)];
      AddAssoc(ByteSum(s[..n]), d, s[n]);
      AddAssoc(ByteSum(s[..n]), s[n], d);
    }
  }

  /** Whatever else the header holds, there is a start time for which it is accepted. */
  lemma UnmarkedAccepted(c: seq<Byte>) returns (v: Byte)
    requires HeaderContent(c)
    ensures HeaderContent(c[STARTED := v])
    ensures Add(StaticSum(c[STARTED := v]), ByteSum(c[STARTED := v][FLUSH_TIME - 4..FLUSH_TIME])) == 0
  {
    hide Add, Negate, ByteSum, Zeros;
    var sum := Add(StaticSum(c), ByteSum(c[FLUSH_TIME - 4..FLUSH_TIME]));
    var d := Negate(Add(sum, 0));
    v := Add(c[STARTED], d);
    var c' := c[STARTED := v];
    assert SlotTime(c', 0) == SlotTime(c, 0) && SlotTime(c', 1) == SlotTime(c, 1);
    assert c'[..CHECKSUM] == c[..CHECKSUM] && c'[SLAB_NUM..] == c[SLAB_NUM..];
    assert c'[FLUSH_TIME - 4..FLUSH_TIME] == c[FLUSH_TIME - 4..FLUSH_TIME];
    var s := c[STARTED..FLUSH_TIME];
    assert c'[STARTED..FLUSH_TIME] == s[0 := v];
    SumAdd(s, 0, d);
    Moved(ByteSum(c[..CHECKSUM]), ByteSum(s), ByteSum(c[SLAB_NUM..]), ByteSum(c[FLUSH_TIME - 4..FLUSH_TIME]), d);
    ChecksumCancels(sum, 0);
    AddZero(Add(sum, d));
  }

  lemma Moved(a: Byte, b: Byte, c: Byte, e: Byte, d: Byte)
    ensures Add(Add(Add(a, Add(b, d)), c), e) == Add(Add(Add(Add(a, b), c), e), d)
  {
    hide Add;
    AddAssoc(a, b, d);
    Swapped(Add(a, b), d, c);
    Swapped(Add(Add(a, b), c), d, e);
  }

  lemma Swapped(x: Byte, y: Byte, z: Byte)
    ensures Add(Add(x, y), z) == Add(Add(x, z), y)
  {
    hide Add;
    AddAssoc(x, y, z);
    AddAssoc(x, z, y);
  }

  // ---- The mapped header ----

  /** The header memory.  `log` is every persistent-memory operation so far: a crash finds an image of the
      memory after some prefix of it. */
  class Pool {
    var mem: Memory
    ghost const start: Memory
    ghost var log: seq<Op>

    ghost predicate Valid()
      reads this
    {
      AllSane(start) && |start| >= MIN_LENGTH && mem == Run(start, log)
    }

    constructor (content: seq<Byte>)
      requires |content| >= MIN_LENGTH
      ensures Valid() && Solid(start, content) && log == []
    {
      var m := seq(|content|, a requires 0 <= a < |content| => Cell([content[a]], 0));
      mem, start, log := m, m, [];
    }

    function Header(): seq<Byte>
      requires Valid()
      reads this
    {
      var m := mem;
      seq(|m|, a requires 0 <= a < |m| => Cached(m[a]))
    }

    method Do(op: Op)
      requires Valid()
      modifies this
      ensures Valid() && log == old(log) + [op] && |mem| == old(|mem|)
    {
      RunConcat(start, log, [op]);
      mem := Run(mem, [op]);
      log := log + [op];
    }

    /** A list of operations in order. */
    method DoAll(ops: seq<Op>)
      requires Valid()
      modifies this
      ensures Valid() && log == old(log) + ops
    {
      for i := 0 to |ops|
        invariant Valid() && log == old(log) + ops[..i]
      {
        Do(ops[i]);
      }
    }

    /** pslab_update_flushtime: the statements issue exactly the operations whose crashes are analysed. */
    method UpdateFlushTime(time: seq<Byte>)
      requires Valid() && |time| == 4 && Marked(Header())
      modifies this
      ensures Valid() && log == old(log) + UpdateOps(old(Header()), time)
    {
      hide StaticSum, Negate, Add, Run;
      var h := Header();
      var i := if h[VALID] == 1 then 1 else 0;
      var sum := DoChecksum(time);
      var t := FLUSH_TIME + 4 * i;
      DoAll([Store(t, time[0]), Store(t + 1, time[1]), Store(t + 2, time[2]), Store(t + 3, time[3]),
             Store(CHECKSUM + i, Negate(Add(StaticSum(h), sum)))]);
      DoAll([Flush(FLUSH_TIME, FLUSH_TIME + 8), Flush(CHECKSUM, CHECKSUM + 2), Drain]);
      DoAll([Store(VALID, if i == 0 then 1 else 2), Flush(VALID, VALID + 1), Drain]);
    }
  }
}
