/** The two-region byte buffer of bipbuffer.c: region A, read first, and region B, which starts again at
    the front of the array once the space there exceeds the space behind A. */
module BipBuffer {
  import opened Common

  type Byte = bv8
  // An unsigned 32-bit number.
  type Word = x: int | 0 <= x < WORD
  const WORD := 0x1_0000_0000

  function Wrapped(x: int): Word { x % WORD }

  /** Buffer size, region A as [aStart, aEnd) and region B as [0, bEnd). */
  datatype Cursors = Cursors(size: nat, aStart: nat, aEnd: nat, bEnd: nat, bInuse: bool)

  datatype Buf = Buf(c: Cursors, data: seq<Byte>)

  predicate Ok(c: Cursors) {
    && c.bEnd <= c.aStart <= c.aEnd <= c.size < 0x8000_0000
    && (!c.bInuse ==> c.bEnd == 0)
    && (c.aStart == c.aEnd ==> c.aStart == 0 && !c.bInuse)
  }

  predicate Valid(b: Buf) { Ok(b.c) && |b.data| == b.c.size }

  /** The queued bytes, oldest first. */
  function Contents(b: Buf): seq<Byte>
    requires Valid(b)
  {
    b.data[b.c.aStart..b.c.aEnd] + b.data[..b.c.bEnd]
  }

  // ---- Reading the cursors ----

  function Unused(c: Cursors): int { if c.bInuse then c.aStart - c.bEnd else c.size - c.aEnd }

  function Used(c: Cursors): int { (c.aEnd - c.aStart) + c.bEnd }

  predicate IsEmpty(c: Cursors) { c.aStart == c.aEnd }

  lemma EmptyIffUnused(b: Buf)
    requires Valid(b)
    ensures IsEmpty(b.c) <==> Used(b.c) == 0
    ensures IsEmpty(b.c) <==> Contents(b) == []
    ensures Used(b.c) == |Contents(b)|
  {
  }

  /** Where the next bytes go. */
  function Tail(c: Cursors): nat { if c.bInuse then c.bEnd else c.aEnd }

  function Request(c: Cursors, k: nat): (pos: Option<nat>)
    requires Ok(c)
    ensures pos.Some? <==> k <= Unused(c)
    ensures pos.Some? ==> pos.value + k <= c.size && (pos.value + k <= c.aStart || c.aEnd <= pos.value)
  {
    if Unused(c) < k then None else Some(Tail(c))
  }

  // ---- The cursor moves ----

  /** Region B is opened when there is more room in front of A than behind it.  The subtractions are on
      unsigned 32-bit cursors. */
  function CheckSwitch(c: Cursors): Cursors {
    if c.size - c.aEnd < Wrapped(c.aStart - c.bEnd) then c.(bInuse := true) else c
  }

  function PushCursors(c: Cursors, k: nat): Cursors {
    CheckSwitch(if c.bInuse then c.(bEnd := c.bEnd + k) else c.(aEnd := c.aEnd + k))
  }

  /** The cursors after a poll of n that was not refused. */
  function PollCursors(c: Cursors, n: Word): Cursors {
    var c1 := c.(aStart := Wrapped(c.aStart + n));
    CheckSwitch(
      if c1.aStart != c1.aEnd then c1
      else if c1.bInuse then c1.(aStart := 0, aEnd := c1.bEnd, bEnd := 0, bInuse := false)
      else c1.(aStart := 0, aEnd := 0))
  }

  predicate PollRefused(c: Cursors, n: Word) { IsEmpty(c) || c.size < Wrapped(c.aStart + n) }

  /** A push of k keeps the cursors in order, and costs at most k of the room even when regions switch. */
  lemma PushOk(c: Cursors, k: nat)
    requires Ok(c) && k <= Unused(c)
    ensures Ok(PushCursors(c, k))
    ensures Unused(PushCursors(c, k)) >= Unused(c) - k
    ensures PushCursors(c, k).aStart == c.aStart && PushCursors(c, k).aEnd >= c.aEnd
    ensures Used(PushCursors(c, k)) == Used(c) + k
  {
  }

  /** A poll that is not refused keeps the cursors in order and takes what it says exactly when it stays inside
      region A. */
  lemma PollOkIff(c: Cursors, n: Word)
    requires Ok(c) && !PollRefused(c, n)
    ensures Ok(PollCursors(c, n)) && Used(PollCursors(c, n)) == Used(c) - n <==> n <= c.aEnd - c.aStart
    ensures n <= c.aEnd - c.aStart ==> Unused(PollCursors(c, n)) >= Unused(c)
  {
    hide Wrapped;
    WrappedSmall(c.aStart + n);
    WrappedSmall(PollCursors(c, n).aStart - c.bEnd);
    WrappedSmall(0);
  }

  lemma WrappedSmall(x: int)
    ensures 0 <= x < WORD ==> Wrapped(x) == x
    ensures WORD <= x < 2 * WORD ==> Wrapped(x) == x - WORD
  {
  }

  /** There are polls the code accepts that run past region A, and some that wrap around and open it again. */
  lemma PollCanOverrun()
    ensures exists c, n: Word :: Ok(c) && !PollRefused(c, n) && !Ok(PollCursors(c, n))
    ensures exists c, n: Word :: Ok(c) && !PollRefused(c, n) && n > c.size && Used(PollCursors(c, n)) > Used(c)
  {
    var c := Cursors(8, 0, 4, 0, false);
    assert Ok(c) && !PollRefused(c, 6) && !Ok(PollCursors(c, 6));
    var d := Cursors(8, 2, 4, 0, false);
    assert Ok(d) && !PollRefused(d, WORD - 1) && PollCursors(d, WORD - 1).aStart == 1;
  }

  /** After one request for `line + reserve` bytes, a push below the reserve and the line itself both fit. */
  lemma PushThenOfferFits(c: Cursors, line: nat, reserve: nat, skip: nat)
    requires Ok(c) && Request(c, line + reserve).Some? && skip < reserve
    ensures Request(PushCursors(c, skip), line).Some?
  {
    PushOk(c, skip);
  }

  // ---- Writing and reading as a queue ----

  /** The bytes `s` written at the tail, then pushed. */
  function Offer(b: Buf, s: seq<Byte>): Buf
    requires Valid(b) && |s| <= Unused(b.c)
  {
    var p := Tail(b.c);
    Buf(PushCursors(b.c, |s|), b.data[..p] + s + b.data[p + |s|..])
  }

  function Poll(b: Buf, n: Word): Buf { b.(c := PollCursors(b.c, n)) }

  /** Offering appends, and leaves region A, which a reader may be looking at, as it is. */
  lemma OfferAppends(b: Buf, s: seq<Byte>)
    requires Valid(b) && |s| <= Unused(b.c)
    ensures Valid(Offer(b, s))
    ensures Contents(Offer(b, s)) == Contents(b) + s
    ensures Offer(b, s).data[b.c.aStart..b.c.aEnd] == b.data[b.c.aStart..b.c.aEnd]
  {
    PushOk(b.c, |s|);
    var p, b' := Tail(b.c), Offer(b, s);
    if b.c.bInuse {
      assert b'.data[b.c.aStart..b.c.aEnd] == b.data[b.c.aStart..b.c.aEnd];
      assert b'.data[..p + |s|] == b.data[..p] + s;
    } else {
      assert b'.data[b.c.aStart..p + |s|] == b.data[b.c.aStart..p] + s;
    }
  }

  lemma OfferInPlace(b: Buf, k: nat)
    requires Valid(b) && k <= Unused(b.c)
    ensures Offer(b, b.data[Tail(b.c)..Tail(b.c) + k]) == Buf(PushCursors(b.c, k), b.data)
  {
    var p := Tail(b.c);
    assert b.data[..p] + b.data[p..p + k] + b.data[p + k..] == b.data;
  }

  lemma PollDrops(b: Buf, n: Word)
    requires Valid(b) && !PollRefused(b.c, n) && n <= b.c.aEnd - b.c.aStart
    ensures Valid(Poll(b, n)) && Contents(Poll(b, n)) == Contents(b)[n..]
    ensures b.data[b.c.aStart..b.c.aStart + n] == Contents(b)[..n]
  {
    hide Contents, PollCursors;
    PollOkIff(b.c, n);
    PollMoves(b.c, n);
    PollContents(b, n);
    DropFront(b.data, b.c.aStart, b.c.aEnd, n, b.data[..b.c.bEnd]);
  }

  /** Where region A starts after a poll inside it. */
  lemma PollMoves(c: Cursors, n: Word)
    requires Ok(c) && !PollRefused(c, n) && n <= c.aEnd - c.aStart
    ensures PollCursors(c, n).size == c.size
    ensures var c' := PollCursors(c, n);
            if n < c.aEnd - c.aStart then c'.aStart == c.aStart + n && c'.aEnd == c.aEnd && c'.bEnd == c.bEnd
            else c'.aStart == 0 && c'.aEnd == c.bEnd && c'.bEnd == 0
  {
    hide Wrapped;
    WrappedSmall(c.aStart + n);
  }

  lemma PollContents(b: Buf, n: Word)
    requires Valid(b) && !PollRefused(b.c, n) && n <= b.c.aEnd - b.c.aStart && Valid(Poll(b, n))
    ensures Contents(Poll(b, n)) == b.data[b.c.aStart + n..b.c.aEnd] + b.data[..b.c.bEnd]
    ensures Contents(b) == b.data[b.c.aStart..b.c.aEnd] + b.data[..b.c.bEnd]
  {
    hide PollCursors;
    PollMoves(b.c, n);
  }

  lemma DropFront(data: seq<Byte>, lo: nat, hi: nat, n: nat, rest: seq<Byte>)
    requires lo + n <= hi <= |data|
    ensures (data[lo..hi] + rest)[n..] == data[lo + n..hi] + rest
    ensures (data[lo..hi] + rest)[..n] == data[lo..lo + n]
  {
  }

  // ---- Runs: a reader that peeked is not disturbed by writers until it polls ----

  /** Writers append, one after another. */
  ghost predicate Writers(bufs: seq<Buf>, added: seq<seq<Byte>>) {
    && |bufs| == |added| + 1
    && forall i :: 0 <= i < |added|
          ==> Valid(bufs[i]) && |added[i]| <= Unused(bufs[i].c) && bufs[i + 1] == Offer(bufs[i], added[i])
  }

  function Flatten(ss: seq<seq<Byte>>): seq<Byte> {
    if ss == [] then [] else Flatten(ss[..|ss| - 1]) + ss[|ss| - 1]
  }

  /** `b'` still shows a reader of `b` the same region A. */
  predicate KeepsA(b: Buf, b': Buf)
    requires Valid(b)
  {
    && Valid(b') && b'.c.aStart == b.c.aStart && b'.c.aEnd >= b.c.aEnd
    && b'.data[b.c.aStart..b.c.aEnd] == b.data[b.c.aStart..b.c.aEnd]
  }

  lemma OfferKeepsA(first: Buf, b: Buf, s: seq<Byte>)
    requires Valid(first) && KeepsA(first, b) && |s| <= Unused(b.c)
    ensures KeepsA(first, Offer(b, s))
  {
    PushOk(b.c, |s|);
    OfferAppends(b, s);
    var b' := Offer(b, s);
    hide Offer;
    assert b'.data[b.c.aStart..b.c.aEnd][..first.c.aEnd - first.c.aStart] == b'.data[first.c.aStart..first.c.aEnd];
    assert b.data[b.c.aStart..b.c.aEnd][..first.c.aEnd - first.c.aStart] == b.data[first.c.aStart..first.c.aEnd];
  }

  lemma {:induction false} WritersAppend(bufs: seq<Buf>, added: seq<seq<Byte>>)
    requires Writers(bufs, added) && Valid(bufs[0])
    ensures KeepsA(bufs[0], bufs[|added|]) && Contents(bufs[|added|]) == Contents(bufs[0]) + Flatten(added)
  {
    hide Offer, Contents, PushCursors;
    var k := |added|;
    if k == 0 {
      assert Contents(bufs[0]) + [] == Contents(bufs[0]);
    } else {
      WritersAppend(bufs[..k], added[..k - 1]);
      OfferKeepsA(bufs[0], bufs[k - 1], added[k - 1]);
      OfferAppends(bufs[k - 1], added[k - 1]);
      assert (Contents(bufs[0]) + Flatten(added[..k - 1])) + added[k - 1] == Contents(bufs[0]) + Flatten(added);
    }
  }

  /** Whatever is appended meanwhile, the peeked bytes stay where they were, and polling their length takes
      exactly them: the queue is then the later bytes followed by everything appended. */
  lemma PeekedSurvives(bufs: seq<Buf>, added: seq<seq<Byte>>)
    requires Writers(bufs, added) && Valid(bufs[0]) && !IsEmpty(bufs[0].c)
    ensures KeepsA(bufs[0], bufs[|added|]) && PolledOut(bufs[0], bufs[|added|], Flatten(added))
  {
    hide Offer, Contents, PolledOut, KeepsA, Flatten, Valid, IsEmpty;
    WritersAppend(bufs, added);
    PollPeeked(bufs[0], bufs[|added|], Flatten(added));
  }

  /** Polling from `last` as much as was seen in region A of `first` is accepted, and leaves what followed it and
      `more`. */
  ghost predicate PolledOut(first: Buf, last: Buf, more: seq<Byte>)
    requires Valid(first)
  {
    var n := first.c.aEnd - first.c.aStart;
    !PollRefused(last.c, n) && Valid(Poll(last, n)) && Contents(Poll(last, n)) == Contents(first)[n..] + more
  }

  lemma PollPeeked(first: Buf, last: Buf, more: seq<Byte>)
    requires Valid(first) && !IsEmpty(first.c) && KeepsA(first, last) && Contents(last) == Contents(first) + more
    ensures PolledOut(first, last, more)
  {
    hide Contents, PollCursors, Wrapped;
    var n := first.c.aEnd - first.c.aStart;
    EmptyIffUnused(first);
    WrappedSmall(last.c.aStart + n);
    PollDrops(last, n);
    DropConcat(Contents(first), more, n);
  }

  lemma DropConcat(x: seq<Byte>, y: seq<Byte>, n: nat)
    requires n <= |x|
    ensures (x + y)[n..] == x[n..] + y
  {
  }

  // ---- The buffer itself ----

  method CopyIn(data: array<Byte>, p: nat, s: seq<Byte>)
    requires p + |s| <= data.Length
    modifies data
    ensures data[..] == old(data[..p]) + s + old(data[p + |s|..])
  {
    for i := 0 to |s|
      invariant forall j :: 0 <= j < i ==> data[p + j] == s[j]
      invariant forall j :: 0 <= j < data.Length && !(p <= j < p + i) ==> data[j] == old(data[j])
    {
      data[p + i] := s[i];
    }
    ghost var r := old(data[..p]) + s + old(data[p + |s|..]);
    assert |r| == data.Length && forall j :: 0 <= j < |r| ==>
             r[j] == if p <= j < p + |s| then s[j - p] else old(data[j]);
  }

  class Bip {
    const size: nat
    const data: array<Byte>
    var aStart: nat
    var aEnd: nat
    var bEnd: nat
    var bInuse: bool

    ghost function State(): Buf
      reads this, data
    {
      Buf(Cursors(size, aStart, aEnd, bEnd, bInuse), data[..])
    }

    constructor (size: nat)
      requires size < 0x8000_0000
      ensures Valid(State()) && Contents(State()) == [] && this.size == size && fresh(data)
    {
      this.size := size;
      data := new Byte[size];
      aStart, aEnd, bEnd, bInuse := 0, 0, 0, false;
    }

    method CheckForSwitchToB()
      modifies this
      ensures State() == old(State().(c := CheckSwitch(State().c)))
    {
      if size - aEnd < Wrapped(aStart - bEnd) {
        bInuse := true;
      }
    }

    /** bipbuf_push: the caller has filled the requested space; `k` bytes of it join the queue. */
    method Push(k: nat) returns (pushed: nat)
      requires Valid(State())
      modifies this
      ensures Valid(State())
      ensures k > old(Unused(State().c)) ==> pushed == 0 && State() == old(State())
      ensures k <= old(Unused(State().c)) ==>
                pushed == k && Contents(State()) == old(Contents(State()) + data[Tail(State().c)..Tail(State().c) + k])
    {
      hide Contents;
      ghost var b := State();
      if k > if bInuse then aStart - bEnd else size - aEnd {
        return 0;
      }
      ghost var s := data[Tail(b.c)..Tail(b.c) + k];
      OfferAppends(b, s);
      OfferInPlace(b, k);
      hide Offer, Ok;
      if bInuse {
        bEnd := bEnd + k;
      } else {
        aEnd := aEnd + k;
      }
      CheckForSwitchToB();
      assert State() == Offer(b, s);
      return k;
    }

    /** bipbuf_offer: copies `s` in and pushes it, or refuses it whole. */
    method OfferBytes(s: seq<Byte>) returns (offered: nat)
      requires Valid(State())
      modifies this, data
      ensures Valid(State())
      ensures |s| > old(Unused(State().c)) ==> offered == 0 && State() == old(State())
      ensures |s| <= old(Unused(State().c)) ==>
                offered == |s| && State() == Offer(old(State()), s) && Contents(State()) == old(Contents(State())) + s
    {
      hide Contents;
      ghost var b := State();
      if |s| > if bInuse then aStart - bEnd else size - aEnd {
        return 0;
      }
      OfferAppends(b, s);
      var p := if bInuse then bEnd else aEnd;
      CopyIn(data, p, s);
      if bInuse {
        bEnd := bEnd + |s|;
      } else {
        aEnd := aEnd + |s|;
      }
      CheckForSwitchToB();
      assert State() == Offer(b, s);
      return |s|;
    }

    /** bipbuf_peek_all: region A, the front of the queue, or nothing when the queue is empty. */
    method PeekAll() returns (r: Option<(nat, nat)>)
      requires Valid(State())
      ensures r.None? <==> Contents(State()) == []
      ensures r.Some? ==> 0 < r.value.1 <= |Contents(State())| && r.value.0 + r.value.1 <= size
      ensures r.Some? ==> data[r.value.0..r.value.0 + r.value.1] == Contents(State())[..r.value.1]
    {
      EmptyIffUnused(State());
      if aStart == aEnd {
        return None;
      }
      return Some((aStart, aEnd - aStart));
    }

    /** bipbuf_poll.  The code only checks n against the end of the array, and in 32 bits, so the queue survives exactly
        the polls that stay inside region A. */
    method PollBytes(n: Word) returns (r: Option<nat>)
      requires Valid(State())
      modifies this
      ensures r.None? <==> old(PollRefused(State().c, n))
      ensures r.None? ==> State() == old(State())
      ensures r.Some? ==> (Valid(State()) && Used(State().c) == old(Used(State().c)) - n <==> n <= old(aEnd - aStart))
      ensures r.Some? && n <= old(aEnd - aStart) ==>
                r.value + n <= size && data[r.value..r.value + n] == old(Contents(State())[..n]) &&
                  Contents(State()) == old(Contents(State())[n..])
    {
      hide Contents, Wrapped, PollCursors;
      ghost var b := State();
      if aStart == aEnd || size < Wrapped(aStart + n) {
        return None;
      }
      PollOkIff(b.c, n);
      if n <= aEnd - aStart {
        PollDrops(b, n);
      }
      r := Some(aStart);
      Advance(n);
    }

    /** The cursors move on by `n`. */
    method Advance(n: Word)
      modifies this
      ensures State() == Poll(old(State()), n)
    {
      hide Wrapped;
      aStart := Wrapped(aStart + n);
      if aStart == aEnd {
        if bInuse {
          aStart, aEnd := 0, bEnd;
          bEnd, bInuse := 0, false;
        } else {
          aStart, aEnd := 0, 0;
        }
      }
      CheckForSwitchToB();
    }
  }
}
