/** Recovery of the persistent slab pool (pslab_do_recover) and of the pool of free pages: which items come
    back, and where every slot and every frame ends up. */
module Recovery {
  import opened Common

  type Key = seq<bv8>

  /** A slot, by frame and position. */
  datatype Ref = Ref(f: nat, i: nat)

  /** The pointer that an item uses for its hash chain and a chunk for its head: after a restart it is null,
      some stale value, or the head that recovery has put there. */
  datatype Head = Null | Stale | Owner(r: Ref)

  datatype Slot = Slot(linked: bool, chunked: bool, chunkBit: bool, key: Key, time: nat, exptime: nat,
    next: Option<Ref>, head: Head)

  // Class 0 marks a frame that was never used.
  datatype Frame = Frame(id: nat, slots: seq<Slot>)

  datatype Marks = Marks(linked: bool, chunked: bool, chunk: bool)

  const CLASSES := 64

  // ---- The image ----

  predicate Flushed(s: Slot, oldestLive: nat, now: nat) {
    oldestLive != 0 && oldestLive <= now && s.time <= oldestLive
  }

  predicate Dead(s: Slot, oldestLive: nat, now: nat) {
    Flushed(s, oldestLive, now) || (s.exptime != 0 && s.exptime <= now)
  }

  predicate InPool(p: seq<Frame>, r: Ref) { r.f < |p| && r.i < |p[r.f].slots| }

  function At(p: seq<Frame>, r: Ref): Slot
    requires InPool(p, r)
  {
    p[r.f].slots[r.i]
  }

  /** An item that recovery keeps. */
  predicate Live(p: seq<Frame>, r: Ref, oldest: nat, now: nat) {
    InPool(p, r) && p[r.f].id != 0 && At(p, r).linked && !Dead(At(p, r), oldest, now)
  }

  predicate LiveChunked(p: seq<Frame>, r: Ref, oldest: nat, now: nat) {
    Live(p, r, oldest, now) && At(p, r).chunked
  }

  /** `c` lists the chunks behind the slot `r`, in order, to the end. */
  predicate IsChain(p: seq<Frame>, r: Ref, c: seq<Ref>)
    requires InPool(p, r)
  {
    && (forall j :: 0 <= j < |c| ==> InPool(p, c[j]))
    && At(p, r).next == (if c == [] then None else Some(c[0]))
    && (forall j :: 0 <= j < |c| ==> At(p, c[j]).next == if j == |c| - 1 then None else Some(c[j + 1]))
  }

  predicate ChunkSlot(p: seq<Frame>, r: Ref) {
    InPool(p, r) && p[r.f].id != 0 && At(p, r).chunkBit && !At(p, r).linked
  }

  /** The chains of the live chunked items run through unlinked chunk slots, end, and share nothing; no two
      live items have the same key. */
  ghost predicate WellFormed(p: seq<Frame>, chains: map<Ref, seq<Ref>>, oldest: nat, now: nat) {
    && (forall f :: 0 <= f < |p| ==> p[f].id < CLASSES)
    && (forall r, q :: Live(p, r, oldest, now) && Live(p, q, oldest, now) && At(p, r).key == At(p, q).key ==> r == q)
    && (forall r :: LiveChunked(p, r, oldest, now) <==> r in chains)
    && (forall r :: r in chains ==> GoodChain(p, r, chains[r]))
    && Disjoint(chains)
  }

  ghost predicate GoodChain(p: seq<Frame>, r: Ref, c: seq<Ref>) {
    InPool(p, r) && IsChain(p, r, c) && forall j :: 0 <= j < |c| ==> ChunkSlot(p, c[j])
  }

  ghost predicate Disjoint(chains: map<Ref, seq<Ref>>) {
    forall h, g, x :: h in chains && g in chains && x in chains[h] && x in chains[g] ==> h == g
  }

  /** A slot in the chain of a live chunked item. */
  ghost predicate LiveChunk(chains: map<Ref, seq<Ref>>, r: Ref) {
    exists h :: h in chains && r in chains[h]
  }

  /** A frame that holds something recovery keeps. */
  ghost predicate FrameKept(p: seq<Frame>, chains: map<Ref, seq<Ref>>, oldest: nat, now: nat, f: nat) {
    f < |p| && p[f].id != 0 &&
    ((exists i :: 0 <= i < |p[f].slots| && Live(p, Ref(f, i), oldest,
      now)) || (exists i :: 0 <= i < |p[f].slots| && LiveChunk(chains, Ref(f, i))))
  }

  // ---- First walk: drop what has expired, forget the heads of chunks ----

  function Mark1(s: Slot, oldest: nat, now: nat): Slot {
    if s.linked then (if Dead(s, oldest, now) then s.(linked := false, chunked := false, chunkBit := true) else s)
    else if s.chunkBit then s.(head := Null)
    else s
  }

  function MarkFrame(fr: Frame, oldest: nat, now: nat): (r: Frame)
    ensures r.id == fr.id && |r.slots| == |fr.slots|
    ensures fr.id == 0 ==> r == fr
    ensures fr.id != 0 ==> forall i :: 0 <= i < |fr.slots| ==> r.slots[i] == Mark1(fr.slots[i], oldest, now)
  {
    if fr.id == 0 then fr else fr.(slots := seq(|fr.slots|,
         i requires 0 <= i < |fr.slots| => Mark1(fr.slots[i], oldest, now)))
  }

  predicate Marked(p: seq<Frame>, q: seq<Frame>, oldest: nat, now: nat) {
    |q| == |p| && forall f :: 0 <= f < |p| ==> q[f] == MarkFrame(p[f], oldest, now)
  }

  ghost predicate MarksOf(p: seq<Frame>, marks: seq<Marks>, oldest: nat, now: nat) {
    |marks| == |p| && forall f :: 0 <= f < |p| ==>
      && marks[f].linked == (exists i :: 0 <= i < |p[f].slots| && Live(p, Ref(f, i), oldest, now))
      && marks[f].chunked == (exists i :: 0 <= i < |p[f].slots| && LiveChunked(p, Ref(f, i), oldest, now))
      && !marks[f].chunk
  }

  method WalkOne(p: seq<Frame>, oldest: nat, now: nat) returns (q: seq<Frame>, marks: seq<Marks>)
    ensures Marked(p, q, oldest, now) && MarksOf(p, marks, oldest, now)
  {
    hide Dead;
    q := p;
    marks := seq(|p|, _ => Marks(false, false, false));
    for f := 0 to |p|
      invariant |q| == |p| == |marks|
      invariant forall g :: 0 <= g < f ==> q[g] == MarkFrame(p[g], oldest, now)
      invariant forall g :: f <= g < |p| ==> q[g] == p[g] && marks[g] == Marks(false, false, false)
      invariant forall g :: 0 <= g < f ==>
                  && marks[g].linked == (exists i :: 0 <= i < |p[g].slots| && Live(p, Ref(g, i), oldest, now))
                  && marks[g].chunked == (exists i :: 0 <= i < |p[g].slots| && LiveChunked(p, Ref(g, i), oldest, now))
                  && !marks[g].chunk
    {
      var fr, m := MarkOneFrame(p, f, oldest, now);
      q := q[f := fr];
      marks := marks[f := m];
    }
  }

  method MarkOneFrame(p: seq<Frame>, f: nat, oldest: nat, now: nat) returns (fr: Frame, m: Marks)
    requires f < |p|
    ensures fr == MarkFrame(p[f], oldest, now)
    ensures m.linked == (exists i :: 0 <= i < |p[f].slots| && Live(p, Ref(f, i), oldest, now))
    ensures m.chunked == (exists i :: 0 <= i < |p[f].slots| && LiveChunked(p, Ref(f, i), oldest, now))
    ensures !m.chunk
  {
    hide Dead;
    fr := p[f];
    m := Marks(false, false, false);
    if fr.id == 0 {
      return;
    }
    for i := 0 to |p[f].slots|
      invariant fr.id == p[f].id && |fr.slots| == |p[f].slots| && !m.chunk
      invariant forall j :: 0 <= j < i ==> fr.slots[j] == Mark1(p[f].slots[j], oldest, now)
      invariant forall j :: i <= j < |fr.slots| ==> fr.slots[j] == p[f].slots[j]
      invariant m.linked == exists j :: 0 <= j < i && Live(p, Ref(f, j), oldest, now)
      invariant m.chunked == exists j :: 0 <= j < i && LiveChunked(p, Ref(f, j), oldest, now)
    {
      var s := fr.slots[i];
      if s.linked {
        if Dead(s, oldest, now) {
          fr := fr.(slots := fr.slots[i := s.(linked := false, chunked := false, chunkBit := true)]);
        } else {
          assert Live(p, Ref(f, i), oldest, now);
          m := m.(linked := true);
          if s.chunked {
            assert LiveChunked(p, Ref(f, i), oldest, now);
            m := m.(chunked := true);
          }
        }
      } else if s.chunkBit {
        fr := fr.(slots := fr.slots[i := s.(head := Null)]);
      }
    }
  }

  // ---- Second walk: give the chunks of live items their head back ----

  predicate SameShape(p: seq<Frame>, q: seq<Frame>) {
    |q| == |p| && forall f :: 0 <= f < |p| ==> q[f].id == p[f].id && |q[f].slots| == |p[f].slots|
  }

  function SetHead(p: seq<Frame>, r: Ref, h: Head): seq<Frame>
    requires InPool(p, r)
  {
    p[r.f := p[r.f].(slots := p[r.f].slots[r.i := At(p, r).(head := h)])]
  }

  lemma SetHeadIs(p: seq<Frame>, r: Ref, h: Head)
    requires InPool(p, r)
    ensures SameShape(p, SetHead(p, r, h))
    ensures forall x :: InPool(p, x)
               ==> InPool(SetHead(p, r, h), x) && At(SetHead(p, r, h), x) == if x == r then At(p, r).(head := h)
                 else At(p, x)
  {
  }

  /** `q` is `p` with the slots of `c` headed by `h`. */
  ghost predicate Headed(p: seq<Frame>, q: seq<Frame>, c: seq<Ref>, h: Ref) {
    SameShape(p, q) &&
    forall x :: InPool(p, x) ==> InPool(q, x) && At(q, x) == if x in c then At(p, x).(head := Owner(h)) else At(p, x)
  }

  lemma HeadedMore(p: seq<Frame>, q: seq<Frame>, c: seq<Ref>, n: nat, h: Ref)
    requires n < |c| && Headed(p, q, c[..n], h) && InPool(p, c[n]) && InPool(q, c[n])
    ensures Headed(p, SetHead(q, c[n], Owner(h)), c[..n + 1], h)
  {
    SetHeadIs(q, c[n], Owner(h));
    hide SetHead;
    assert c[..n + 1] == c[..n] + [c[n]];
  }

  lemma ChainNext(p: seq<Frame>, q: seq<Frame>, h: Ref, c: seq<Ref>, n: nat)
    requires InPool(p, h) && IsChain(p, h, c) && n <= |c| && Headed(p, q, c[..n], h)
    ensures var ch := if n == 0 then h else c[n - 1];
            InPool(q, ch) && At(q, ch).next == if n == |c| then None else Some(c[n])
  {
    if n > 0 {
      assert c[..n][n - 1] == c[n - 1];
    }
  }

  ghost predicate ChunkMarks(marks: seq<Marks>, marks': seq<Marks>, c: seq<Ref>) {
    |marks'| == |marks| &&
    forall f :: 0 <= f < |marks| ==>
      marks'[f] == marks[f].(chunk := marks[f].chunk || exists j :: 0 <= j < |c| && c[j].f == f)
  }

  lemma ChunkMarksMore(marks: seq<Marks>, marks': seq<Marks>, c: seq<Ref>, n: nat)
    requires n < |c| && c[n].f < |marks| && ChunkMarks(marks, marks', c[..n])
    ensures ChunkMarks(marks, marks'[c[n].f := marks'[c[n].f].(chunk := true)], c[..n + 1])
  {
    assert c[..n + 1] == c[..n] + [c[n]];
    assert c[..n + 1][n] == c[n];
    assert forall j :: 0 <= j < n ==> c[..n][j] == c[j] == c[..n + 1][j];
  }

  /** The walk along one chain. */
  method Relink(p: seq<Frame>, marks: seq<Marks>, h: Ref, ghost c: seq<Ref>) returns (q: seq<Frame>, marks': seq<Marks>)
    requires InPool(p, h) && IsChain(p, h, c) && |marks| == |p|
    ensures Headed(p, q, c, h) && ChunkMarks(marks, marks', c)
  {
    hide SetHead;
    q := p;
    marks' := marks;
    var ch := h;
    ghost var n := 0;
    ChainNext(p, q, h, c, 0);
    while At(q, ch).next.Some?
      invariant 0 <= n <= |c| && Headed(p, q, c[..n], h) && ChunkMarks(marks, marks', c[..n])
      invariant InPool(q, ch) && At(q, ch).next == if n == |c| then None else Some(c[n])
      decreases |c| - n
    {
      var nch := At(q, ch).next.value;
      assert InPool(p, c[n]);
      ChunkMarksMore(marks, marks', c, n);
      HeadedMore(p, q, c, n, h);
      ChainNext(p, SetHead(q, c[n], Owner(h)), h, c, n + 1);
      marks' := marks'[nch.f := marks'[nch.f].(chunk := true)];
      q := SetHead(q, nch, Owner(h));
      ch := nch;
      n := n + 1;
    }
    assert c[..n] == c;
  }

  /** `q` is `p` with the chains of the headers in `done` headed. */
  ghost predicate AllHeaded(p: seq<Frame>, q: seq<Frame>, chains: map<Ref, seq<Ref>>, done: set<Ref>) {
    SameShape(p, q) && forall x :: InPool(p, x) ==> HeadedAt(p, q, chains, done, x)
  }

  ghost predicate HeadedAt(p: seq<Frame>, q: seq<Frame>, chains: map<Ref, seq<Ref>>, done: set<Ref>, x: Ref)
    requires InPool(p, x)
  {
    && InPool(q, x)
    && (forall h :: h in done && h in chains && x in chains[h] ==> At(q, x) == At(p, x).(head := Owner(h)))
    && ((forall h :: h in done && h in chains ==> x !in chains[h]) ==> At(q, x) == At(p, x))
  }

  lemma HeadedOne(p: seq<Frame>, q: seq<Frame>, q': seq<Frame>, chains: map<Ref, seq<Ref>>, done: set<Ref>, h: Ref)
    requires AllHeaded(p, q, chains, done) && h in chains && h !in done && Headed(q, q', chains[h], h)
    requires Disjoint(chains)
    ensures AllHeaded(p, q', chains, done + {h})
  {
    forall x | InPool(p, x)
      ensures HeadedAt(p, q', chains, done + {h}, x)
    {
      assert HeadedAt(p, q, chains, done, x);
      if x in chains[h] {
        assert forall g :: g in done && g in chains ==> x !in chains[g];
      }
    }
  }

  /** Relinking changes nothing but heads. */
  lemma OnlyHeads(p: seq<Frame>, q: seq<Frame>, chains: map<Ref, seq<Ref>>, done: set<Ref>, x: Ref)
    requires AllHeaded(p, q, chains, done) && InPool(p, x)
    ensures InPool(q, x) && At(q, x) == At(p, x).(head := At(q, x).head)
  {
    assert HeadedAt(p, q, chains, done, x);
  }

  lemma ChainKept(p: seq<Frame>, q: seq<Frame>, chains: map<Ref, seq<Ref>>, done: set<Ref>, h: Ref)
    requires AllHeaded(p, q, chains, done) && h in chains && InPool(p, h) && IsChain(p, h, chains[h])
    ensures InPool(q, h) && IsChain(q, h, chains[h])
  {
    hide AllHeaded;
    OnlyHeads(p, q, chains, done, h);
    forall j | 0 <= j < |chains[h]|
      ensures InPool(q, chains[h][j]) && At(q, chains[h][j]).next == At(p, chains[h][j]).next
    {
      OnlyHeads(p, q, chains, done, chains[h][j]);
    }
  }

  /** A frame that holds a chunk of one of the chains in `done`. */
  ghost predicate HoldsChunk(chains: map<Ref, seq<Ref>>, done: set<Ref>, f: nat) {
    exists h, j :: h in done && h in chains && 0 <= j < |chains[h]| && chains[h][j].f == f
  }

  ghost predicate AllMarked(m0: seq<Marks>, m: seq<Marks>, chains: map<Ref, seq<Ref>>, done: set<Ref>) {
    |m| == |m0| && forall f :: 0 <= f < |m0| ==> m[f] == m0[f].(chunk := HoldsChunk(chains, done, f))
  }

  lemma MarkedOne(m0: seq<Marks>, m: seq<Marks>, m': seq<Marks>, chains: map<Ref, seq<Ref>>, done: set<Ref>, h: Ref)
    requires AllMarked(m0, m, chains, done) && h in chains && ChunkMarks(m, m', chains[h])
    ensures AllMarked(m0, m', chains, done + {h})
  {
    forall f | 0 <= f < |m0|
      ensures m'[f] == m0[f].(chunk := HoldsChunk(chains, done + {h}, f))
    {
      if HoldsChunk(chains, done + {h}, f) && !HoldsChunk(chains, done, f) {
        var g, j :| g in done + {h} && g in chains && 0 <= j < |chains[g]| && chains[g][j].f == f;
        assert g == h;
      }
      if HoldsChunk(chains, done, f) {
        var g, j :| g in done && g in chains && 0 <= j < |chains[g]| && chains[g][j].f == f;
        assert g in done + {h};
      }
    }
  }

  predicate Before(r: Ref, f: nat, i: nat) { r.f < f || (r.f == f && r.i < i) }

  /** The headers met before position (f, i). */
  ghost function Met(chains: map<Ref, seq<Ref>>, f: nat, i: nat): set<Ref> {
    set h | h in chains && Before(h, f, i)
  }

  /** What the second walk relies on: the headers with chains are the linked chunked slots. */
  ghost predicate ChainsOf(p: seq<Frame>, marks: seq<Marks>, chains: map<Ref, seq<Ref>>) {
    && |marks| == |p| && Disjoint(chains)
    && (forall r :: r in chains
          ==> InPool(p, r) && p[r.f].id != 0 && At(p, r).linked && At(p, r).chunked && IsChain(p, r, chains[r]))
    && (forall r :: InPool(p, r) && p[r.f].id != 0 && At(p, r).linked && At(p, r).chunked ==>
         r in chains && marks[r.f].chunked)
    && (forall f :: 0 <= f < |marks| ==> !marks[f].chunk)
  }

  method WalkTwoFrame(p: seq<Frame>, m0: seq<Marks>, q0: seq<Frame>, marks: seq<Marks>, f: nat,
      ghost chains: map<Ref, seq<Ref>>)
    returns (q: seq<Frame>, m: seq<Marks>)
    requires f < |p| && ChainsOf(p, m0, chains) && AllHeaded(p, q0, chains, Met(chains, f, 0))
    requires AllMarked(m0, marks, chains, Met(chains, f, 0))
    ensures AllHeaded(p, q, chains, Met(chains, f + 1, 0)) && AllMarked(m0, m, chains, Met(chains, f + 1, 0))
  {
    hide IsChain, AllHeaded, AllMarked, Headed, ChunkMarks;
    q, m := q0, marks;
    HeadedShape(p, q, chains, Met(chains, f, 0));
    MarkedShape(m0, m, chains, Met(chains, f, 0));
    if q[f].id == 0 || !m[f].chunked {
      assert Met(chains, f + 1, 0) == Met(chains, f, 0);
      return;
    }
    var n := |q[f].slots|;
    for i := 0 to n
      invariant SameShape(p, q)
      invariant AllHeaded(p, q, chains, Met(chains, f, i)) && AllMarked(m0, m, chains, Met(chains, f, i))
    {
      var r := Ref(f, i);
      OnlyHeads(p, q, chains, Met(chains, f, i), r);
      if q[f].slots[i].linked && q[f].slots[i].chunked {
        ChainKept(p, q, chains, Met(chains, f, i), r);
        MarkedShape(m0, m, chains, Met(chains, f, i));
        var q', m' := Relink(q, m, r, chains[r]);
        HeadedOne(p, q, q', chains, Met(chains, f, i), r);
        MarkedOne(m0, m, m', chains, Met(chains, f, i), r);
        q, m := q', m';
        assert Met(chains, f, i + 1) == Met(chains, f, i) + {r};
        HeadedShape(p, q, chains, Met(chains, f, i + 1));
      } else {
        assert Met(chains, f, i + 1) == Met(chains, f, i);
      }
    }
    assert Met(chains, f + 1, 0) == Met(chains, f, n);
  }

  lemma HeadedShape(p: seq<Frame>, q: seq<Frame>, chains: map<Ref, seq<Ref>>, done: set<Ref>)
    requires AllHeaded(p, q, chains, done)
    ensures SameShape(p, q)
  {
  }

  lemma MarkedShape(m0: seq<Marks>, m: seq<Marks>, chains: map<Ref, seq<Ref>>, done: set<Ref>)
    requires AllMarked(m0, m, chains, done)
    ensures |m| == |m0| && forall f :: 0 <= f < |m0| ==> m[f].chunked == m0[f].chunked && m[f].linked == m0[f].linked
  {
  }

  method WalkTwo(p: seq<Frame>, m0: seq<Marks>, ghost chains: map<Ref, seq<Ref>>) returns (q: seq<Frame>, m: seq<Marks>)
    requires ChainsOf(p, m0, chains)
    ensures AllHeaded(p, q, chains, chains.Keys) && AllMarked(m0, m, chains, chains.Keys)
  {
    q, m := p, m0;
    assert Met(chains, 0, 0) == {};
    for f := 0 to |p|
      invariant AllHeaded(p, q, chains, Met(chains, f, 0)) && AllMarked(m0, m, chains, Met(chains, f, 0))
    {
      q, m := WalkTwoFrame(p, m0, q, m, f, chains);
    }
    assert Met(chains, |p|, 0) == chains.Keys;
  }

  // ---- Third walk: keep the frames in use, relink their items, free the other slots ----

  predicate Kept(q: seq<Frame>, m: seq<Marks>, f: nat)
    requires |m| == |q|
  {
    f < |q| && q[f].id != 0 && (m[f].linked || m[f].chunk)
  }

  predicate Unused(s: Slot) { !s.linked && (!s.chunkBit || s.head.Null?) }

  /** Which frames before `n` belong to class `c`, in order. */
  ghost predicate PagesTo(q: seq<Frame>, m: seq<Marks>, pages: seq<seq<nat>>, n: nat)
    requires |m| == |q|
  {
    && |pages| == CLASSES
    && (forall c :: 0 <= c < CLASSES ==> PageList(q, m, pages[c], c, n))
  }

  ghost predicate PageList(q: seq<Frame>, m: seq<Marks>, s: seq<nat>, c: nat, n: nat)
    requires |m| == |q|
  {
    Ascending(s) && (forall i :: 0 <= i < |s| ==> s[i] < n) && forall f: nat :: f in s <==>
      f < n && Kept(q, m, f) && q[f].id == c
  }

  predicate Ascending(s: seq<nat>) { forall i, j :: 0 <= i < j < |s| ==> s[i] < s[j] }

  predicate InKept(q: seq<Frame>, m: seq<Marks>, r: Ref)
    requires |m| == |q|
  {
    InPool(q, r) && Kept(q, m, r.f)
  }

  ghost predicate TableTo(q: seq<Frame>, m: seq<Marks>, table: map<Key, Ref>, f: nat, i: nat)
    requires |m| == |q|
  {
    && (forall k :: k in table
          ==> InKept(q, m, table[k]) && Before(table[k], f, i) && At(q, table[k]).linked && At(q, table[k]).key == k)
    && (forall r :: InKept(q, m, r) && Before(r, f, i) && At(q, r).linked ==>
         At(q, r).key in table && table[At(q, r).key] == r)
  }

  ghost predicate FreeTo(q: seq<Frame>, m: seq<Marks>, free: seq<seq<Ref>>, f: nat, i: nat)
    requires |m| == |q|
  {
    && |free| == CLASSES
    && (forall c :: 0 <= c < CLASSES ==> NoRepeat(free[c]))
    && (forall c, r :: 0 <= c < CLASSES ==> (r in free[c] <==>
         InKept(q, m, r) && Before(r, f, i) && q[r.f].id == c && Unused(At(q, r))))
  }

  /** A slot that would be freed although it is still flagged as the header of a chunked item. */
  predicate Header(q: seq<Frame>, m: seq<Marks>, r: Ref)
    requires |m| == |q|
  {
    InKept(q, m, r) && Unused(At(q, r)) && At(q, r).chunked
  }

  ghost predicate CleanTo(q: seq<Frame>, m: seq<Marks>, f: nat, i: nat)
    requires |m| == |q|
  {
    forall r :: Before(r, f, i) ==> !Header(q, m, r)
  }

  ghost predicate Keyed(q: seq<Frame>, m: seq<Marks>) {
    && |m| == |q| && (forall f :: 0 <= f < |q| ==> q[f].id < CLASSES)
    && (forall r, s ::
          InKept(q, m, r) && InKept(q, m, s) && At(q, r).linked && At(q, s).linked && At(q, r).key == At(q, s).key ==>
            r == s)
  }

  lemma TableMore(q: seq<Frame>, m: seq<Marks>, table: map<Key, Ref>, r: Ref)
    requires Keyed(q, m) && InKept(q, m, r) && At(q, r).linked && TableTo(q, m, table, r.f, r.i)
    ensures At(q, r).key !in table
    ensures TableTo(q, m, table[At(q, r).key := r], r.f, r.i + 1)
  {
  }

  lemma FreeMore(q: seq<Frame>, m: seq<Marks>, free: seq<seq<Ref>>, r: Ref)
    requires Keyed(q, m) && InKept(q, m, r) && Unused(At(q, r)) && FreeTo(q, m, free, r.f, r.i)
    ensures FreeTo(q, m, free[q[r.f].id := [r] + free[q[r.f].id]], r.f, r.i + 1)
  {
  }

  method WalkThreeFrame(q: seq<Frame>, m: seq<Marks>, f: nat, table0: map<Key, Ref>, free0: seq<seq<Ref>>)
    returns (ok: bool, table: map<Key, Ref>, free: seq<seq<Ref>>)
    requires Keyed(q, m) && Kept(q, m, f) && TableTo(q, m, table0, f, 0) && FreeTo(q, m, free0, f, 0)
    requires CleanTo(q, m, f, 0)
    ensures ok == CleanTo(q, m, f + 1, 0)
    ensures ok ==> TableTo(q, m, table, f + 1, 0) && FreeTo(q, m, free, f + 1, 0)
  {
    table, free := table0, free0;
    for i := 0 to |q[f].slots|
      invariant TableTo(q, m, table, f, i) && FreeTo(q, m, free, f, i) && CleanTo(q, m, f, i)
    {
      var r := Ref(f, i);
      if q[f].slots[i].linked {
        TableMore(q, m, table, r);
        assert FreeTo(q, m, free, f, i + 1);
        table := table[q[f].slots[i].key := r];
      } else if !q[f].slots[i].chunkBit || q[f].slots[i].head.Null? {
        if q[f].slots[i].chunked {
          assert Header(q, m, r) && Before(r, f + 1, 0);
          return false, table, free;
        }
        FreeMore(q, m, free, r);
        assert TableTo(q, m, table, f, i + 1);
        free := free[q[f].id := [r] + free[q[f].id]];
      }
    }
    ok := true;
  }

  /** The third walk; `ok` is false when the assertion on the flags of a slot about to be freed fails. */
  method WalkThree(q: seq<Frame>, m: seq<Marks>)
    returns (ok: bool, pages: seq<seq<nat>>, table: map<Key, Ref>, free: seq<seq<Ref>>)
    requires Keyed(q, m)
    ensures ok == CleanTo(q, m, |q|, 0)
    ensures ok ==> PagesTo(q, m, pages, |q|) && TableTo(q, m, table, |q|, 0) && FreeTo(q, m, free, |q|, 0)
  {
    pages, table, free := seq(CLASSES, _ => []), map[], seq(CLASSES, _ => []);
    for f := 0 to |q|
      invariant PagesTo(q, m, pages, f) && TableTo(q, m, table, f, 0) && FreeTo(q, m, free, f, 0) && CleanTo(q, m, f, 0)
    {
      if q[f].id == 0 || (!m[f].linked && !m[f].chunk) {
        Skip(q, m, pages, table, free, f);
      } else {
        PagesMore(q, m, pages, f);
        pages := pages[q[f].id := pages[q[f].id] + [f]];
        ok, table, free := WalkThreeFrame(q, m, f, table, free);
        if !ok {
          return;
        }
      }
    }
    ok := true;
  }

  lemma PagesMore(q: seq<Frame>, m: seq<Marks>, pages: seq<seq<nat>>, f: nat)
    requires Keyed(q, m) && Kept(q, m, f) && PagesTo(q, m, pages, f)
    ensures PagesTo(q, m, pages[q[f].id := pages[q[f].id] + [f]], f + 1)
  {
    var pages' := pages[q[f].id := pages[q[f].id] + [f]];
    forall c | 0 <= c < CLASSES
      ensures PageList(q, m, pages'[c], c, f + 1)
    {
      assert PageList(q, m, pages[c], c, f);
      assert c == q[f].id ==> pages'[c] == pages[c] + [f];
    }
  }

  lemma Skip(q: seq<Frame>, m: seq<Marks>, pages: seq<seq<nat>>, table: map<Key, Ref>, free: seq<seq<Ref>>, f: nat)
    requires |m| == |q| && f < |q| && !Kept(q, m, f)
    requires PagesTo(q, m, pages, f) && TableTo(q, m, table, f, 0) && FreeTo(q, m, free, f, 0) && CleanTo(q, m, f, 0)
    ensures PagesTo(q, m, pages, f + 1) && TableTo(q, m, table, f + 1, 0) && FreeTo(q, m, free, f + 1, 0)
    ensures CleanTo(q, m, f + 1, 0)
  {
  }

  // ---- The whole recovery ----

  /** An expired item whose hash-chain pointer survived: the first walk turns it into a chunk but leaves the
      pointer, which the third walk then takes for the head of a chunk in use. */
  predicate Leaked(p: seq<Frame>, r: Ref, oldest: nat, now: nat) {
    InPool(p, r) && p[r.f].id != 0 && At(p, r).linked && Dead(At(p, r), oldest, now) && !At(p, r).head.Null?
  }

  /** A slot that holds nothing worth keeping and is recognized as such. */
  ghost predicate Freed(p: seq<Frame>, chains: map<Ref, seq<Ref>>, r: Ref, oldest: nat, now: nat) {
    InPool(p, r) && p[r.f].id != 0 && !Live(p, r, oldest, now) && !LiveChunk(chains, r) && !Leaked(p, r, oldest, now)
  }

  /** The header of a chunked item that is not linked: still being uploaded, or unlinked and still held. */
  predicate Unfinished(p: seq<Frame>, r: Ref) {
    InPool(p, r) && p[r.f].id != 0 && !At(p, r).linked && At(p, r).chunked
  }

  lemma MarkedAt(p: seq<Frame>, q: seq<Frame>, oldest: nat, now: nat, r: Ref)
    requires Marked(p, q, oldest, now) && InPool(p, r) && p[r.f].id != 0
    ensures InPool(q, r) && q[r.f].id == p[r.f].id && At(q, r) == Mark1(At(p, r), oldest, now)
  {
  }

  lemma MarkedChain(p: seq<Frame>, q: seq<Frame>, oldest: nat, now: nat, r: Ref, c: seq<Ref>)
    requires Marked(p, q, oldest, now) && GoodChain(p, r, c) && LiveChunked(p, r, oldest, now)
    ensures InPool(q, r) && q[r.f].id != 0 && At(q, r).linked && At(q, r).chunked && IsChain(q, r, c)
  {
    hide Dead, Marked;
    MarkedAt(p, q, oldest, now, r);
    forall j | 0 <= j < |c|
      ensures InPool(q, c[j]) && At(q, c[j]).next == At(p, c[j]).next
    {
      assert ChunkSlot(p, c[j]);
      MarkedAt(p, q, oldest, now, c[j]);
    }
  }

  lemma MarkedHeader(p: seq<Frame>, q: seq<Frame>, m: seq<Marks>, oldest: nat, now: nat, r: Ref)
    requires Marked(p, q, oldest, now) && MarksOf(p, m, oldest, now)
    requires InPool(q, r) && q[r.f].id != 0 && At(q, r).linked && At(q, r).chunked
    ensures LiveChunked(p, r, oldest, now) && m[r.f].chunked
  {
    assert q[r.f] == MarkFrame(p[r.f], oldest, now);
    MarkedAt(p, q, oldest, now, r);
    assert r == Ref(r.f, r.i);
    assert LiveChunked(p, Ref(r.f, r.i), oldest, now);
  }

  lemma NoChunkMarks(p: seq<Frame>, q: seq<Frame>, m: seq<Marks>, oldest: nat, now: nat)
    requires Marked(p, q, oldest, now) && MarksOf(p, m, oldest, now)
    ensures |m| == |q| && forall f :: 0 <= f < |m| ==> !m[f].chunk
  {
  }

  lemma MarkedChains(p: seq<Frame>, q: seq<Frame>, m: seq<Marks>, chains: map<Ref, seq<Ref>>, oldest: nat, now: nat)
    requires WellFormed(p, chains, oldest, now) && Marked(p, q, oldest, now) && MarksOf(p, m, oldest, now)
    ensures ChainsOf(q, m, chains)
  {
    hide IsChain, Dead, Disjoint, Marked, MarksOf, LiveChunked, GoodChain;
    NoChunkMarks(p, q, m, oldest, now);
    forall r | r in chains
      ensures InPool(q, r) && q[r.f].id != 0 && At(q, r).linked && At(q, r).chunked && IsChain(q, r, chains[r])
    {
      MarkedChain(p, q, oldest, now, r, chains[r]);
    }
    forall r | InPool(q, r) && q[r.f].id != 0 && At(q, r).linked && At(q, r).chunked
      ensures r in chains && m[r.f].chunked
    {
      MarkedHeader(p, q, m, oldest, now, r);
    }
  }

  lemma ChunkOf(p: seq<Frame>, chains: map<Ref, seq<Ref>>, oldest: nat, now: nat, h: Ref, j: nat)
    requires WellFormed(p, chains, oldest, now) && h in chains && j < |chains[h]|
    ensures ChunkSlot(p, chains[h][j])
  {
    assert GoodChain(p, h, chains[h]);
  }

  lemma HeadedPoint(p: seq<Frame>, q: seq<Frame>, chains: map<Ref, seq<Ref>>, done: set<Ref>, x: Ref)
    requires AllHeaded(p, q, chains, done) && InPool(p, x)
    ensures HeadedAt(p, q, chains, done, x) && q[x.f].id == p[x.f].id
  {
  }

  /** What the first two walks say about one slot. */
  lemma Classify(p: seq<Frame>, q1: seq<Frame>, q: seq<Frame>, chains: map<Ref, seq<Ref>>, oldest: nat, now: nat,
      r: Ref)
    requires WellFormed(p, chains, oldest, now) && Marked(p, q1, oldest, now) && AllHeaded(q1, q, chains, chains.Keys)
    requires InPool(p, r) && p[r.f].id != 0
    ensures InPool(q, r) && q[r.f].id == p[r.f].id && At(q, r).key == At(p, r).key
    ensures At(q, r).linked == Live(p, r, oldest, now)
    ensures Unused(At(q, r)) == Freed(p, chains, r, oldest, now)
    ensures Unused(At(q, r)) ==> At(q, r).chunked == Unfinished(p, r)
  {
    hide WellFormed, AllHeaded, Marked, Dead;
    MarkedAt(p, q1, oldest, now, r);
    HeadedPoint(q1, q, chains, chains.Keys, r);
    if LiveChunk(chains, r) {
      var h :| h in chains && r in chains[h];
      var j :| 0 <= j < |chains[h]| && chains[h][j] == r;
      ChunkOf(p, chains, oldest, now, h, j);
    } else {
      assert forall h :: h in chains ==> r !in chains[h];
    }
  }

  lemma ChunkFrames(p: seq<Frame>, chains: map<Ref, seq<Ref>>, oldest: nat, now: nat, f: nat)
    requires WellFormed(p, chains, oldest, now) && f < |p|
    ensures HoldsChunk(chains, chains.Keys, f) == exists i :: 0 <= i < |p[f].slots| && LiveChunk(chains, Ref(f, i))
  {
    hide WellFormed;
    if HoldsChunk(chains, chains.Keys, f) {
      var h, j :| h in chains && 0 <= j < |chains[h]| && chains[h][j].f == f;
      ChunkOf(p, chains, oldest, now, h, j);
      assert chains[h][j] == Ref(f, chains[h][j].i);
      assert LiveChunk(chains, Ref(f, chains[h][j].i));
    }
    if i :| 0 <= i < |p[f].slots| && LiveChunk(chains, Ref(f, i)) {
      var h :| h in chains && Ref(f, i) in chains[h];
      var j :| 0 <= j < |chains[h]| && chains[h][j] == Ref(f, i);
      assert HoldsChunk(chains, chains.Keys, f);
    }
  }

  lemma KeptFrames(p: seq<Frame>, q1: seq<Frame>, q: seq<Frame>, m1: seq<Marks>, m: seq<Marks>,
      chains: map<Ref, seq<Ref>>, oldest: nat, now: nat, f: nat)
    requires WellFormed(p, chains, oldest, now) && Marked(p, q1, oldest, now) && MarksOf(p, m1, oldest, now)
    requires SameShape(q1, q) && AllMarked(m1, m, chains, chains.Keys)
    ensures |m| == |q| == |p|
    ensures Kept(q, m, f) == FrameKept(p, chains, oldest, now, f)
  {
    hide WellFormed, Live, LiveChunked, LiveChunk, HoldsChunk;
    if f < |p| {
      ChunkFrames(p, chains, oldest, now, f);
      assert q[f].id == p[f].id;
      assert m[f] == m1[f].(chunk := HoldsChunk(chains, chains.Keys, f));
    }
  }

  /** Exactly the live items are in the table, under their keys. */
  ghost predicate TableIs(p: seq<Frame>, table: map<Key, Ref>, oldest: nat, now: nat) {
    && (forall k :: k in table ==> Live(p, table[k], oldest, now) && At(p, table[k]).key == k)
    && (forall r :: Live(p, r, oldest, now) ==> At(p, r).key in table && table[At(p, r).key] == r)
  }

  /** The free list of class `c` holds, once each, the slots of kept frames of that class that were freed. */
  ghost predicate FreeIs(p: seq<Frame>, chains: map<Ref, seq<Ref>>, s: seq<Ref>, c: nat, oldest: nat, now: nat) {
    NoRepeat(s) && forall r :: r in s <==>
      FrameKept(p, chains, oldest, now, r.f) && p[r.f].id == c && Freed(p, chains, r, oldest, now)
  }

  ghost predicate PagesAre(p: seq<Frame>, chains: map<Ref, seq<Ref>>, s: seq<nat>, c: nat, oldest: nat, now: nat) {
    Ascending(s) && forall f: nat :: f in s <==> FrameKept(p, chains, oldest, now, f) && p[f].id == c
  }

  /** Every chunk of a live item points back at its header. */
  ghost predicate HeadsBack(q: seq<Frame>, chains: map<Ref, seq<Ref>>) {
    forall h, x :: h in chains && x in chains[h] ==> InPool(q, x) && At(q, x).head == Owner(h)
  }

  ghost predicate ListsAre(p: seq<Frame>, chains: map<Ref, seq<Ref>>, pages: seq<seq<nat>>, free: seq<seq<Ref>>,
      oldest: nat, now: nat) {
    |pages| == |free| == CLASSES && forall c :: 0 <= c < CLASSES ==>
      FreeIs(p, chains, free[c], c, oldest, now) && PagesAre(p, chains, pages[c], c, oldest, now)
  }

  /** Everything the first two walks establish, in terms of the image. */
  ghost predicate Sorted(p: seq<Frame>, chains: map<Ref, seq<Ref>>, q: seq<Frame>, m: seq<Marks>, oldest: nat,
      now: nat) {
    && |m| == |q| == |p| && SameShape(p, q)
    && (forall f :: Kept(q, m, f) == FrameKept(p, chains, oldest, now, f))
    && (forall r :: InPool(p, r) && p[r.f].id != 0 ==> SortedAt(p, chains, q, oldest, now, r))
  }

  ghost predicate SortedAt(p: seq<Frame>, chains: map<Ref, seq<Ref>>, q: seq<Frame>, oldest: nat, now: nat, r: Ref)
    requires InPool(p, r)
  {
    && InPool(q, r) && At(q, r).key == At(p, r).key
    && At(q, r).linked == Live(p, r, oldest, now)
    && Unused(At(q, r)) == Freed(p, chains, r, oldest, now)
    && (Unused(At(q, r)) ==> At(q, r).chunked == Unfinished(p, r))
  }

  lemma SortedKeyed(p: seq<Frame>, chains: map<Ref, seq<Ref>>, q: seq<Frame>, m: seq<Marks>, oldest: nat, now: nat)
    requires WellFormed(p, chains, oldest, now) && Sorted(p, chains, q, m, oldest, now)
    ensures Keyed(q, m)
  {
    hide Unused, Freed, Unfinished, GoodChain, Disjoint, FrameKept, Dead;
    forall r, s | InKept(q, m, r) && InKept(q, m, s) && At(q, r).linked && At(q, s).linked &&
      At(q, r).key == At(q, s).key
      ensures r == s
    {
      assert SortedAt(p, chains, q, oldest, now, r) && SortedAt(p, chains, q, oldest, now, s);
    }
  }

  lemma LiveKept(p: seq<Frame>, chains: map<Ref, seq<Ref>>, oldest: nat, now: nat, r: Ref)
    requires Live(p, r, oldest, now)
    ensures FrameKept(p, chains, oldest, now, r.f)
  {
    assert r == Ref(r.f, r.i);
  }

  lemma TableSorted(p: seq<Frame>, chains: map<Ref, seq<Ref>>, q: seq<Frame>, m: seq<Marks>, table: map<Key, Ref>,
      oldest: nat, now: nat)
    requires Sorted(p, chains, q, m, oldest, now) && TableTo(q, m, table, |q|, 0)
    ensures TableIs(p, table, oldest, now)
  {
    hide Unused, Freed, Unfinished, FrameKept;
    forall k | k in table
      ensures Live(p, table[k], oldest, now) && At(p, table[k]).key == k
    {
      assert SortedAt(p, chains, q, oldest, now, table[k]);
    }
    forall r | Live(p, r, oldest, now)
      ensures At(p, r).key in table && table[At(p, r).key] == r
    {
      LiveKept(p, chains, oldest, now, r);
      assert SortedAt(p, chains, q, oldest, now, r);
      assert InKept(q, m, r) && Before(r, |q|, 0);
    }
  }

  lemma ListsSorted(p: seq<Frame>, chains: map<Ref, seq<Ref>>, q: seq<Frame>, m: seq<Marks>, pages: seq<seq<nat>>,
      free: seq<seq<Ref>>, oldest: nat, now: nat)
    requires Sorted(p, chains, q, m, oldest, now) && PagesTo(q, m, pages, |q|) && FreeTo(q, m, free, |q|, 0)
    ensures ListsAre(p, chains, pages, free, oldest, now)
  {
    hide Unused, Freed, Unfinished, FrameKept, Live;
    forall c | 0 <= c < CLASSES
      ensures FreeIs(p, chains, free[c], c, oldest, now) && PagesAre(p, chains, pages[c], c, oldest, now)
    {
      assert PageList(q, m, pages[c], c, |q|);
      forall r
        ensures r in free[c] <==>
                  FrameKept(p, chains, oldest, now, r.f) && p[r.f].id == c && Freed(p, chains, r, oldest, now)
      {
        FreedSorted(p, chains, q, m, oldest, now, r);
      }
    }
  }

  lemma FreedSorted(p: seq<Frame>, chains: map<Ref, seq<Ref>>, q: seq<Frame>, m: seq<Marks>, oldest: nat,
      now: nat, r: Ref)
    requires Sorted(p, chains, q, m, oldest, now)
    ensures (InKept(q, m, r) && Unused(At(q, r))) == (FrameKept(p, chains, oldest, now, r.f) &&
              Freed(p, chains, r, oldest, now))
    ensures InKept(q, m, r) ==> q[r.f].id == p[r.f].id && Before(r, |q|, 0)
    ensures FrameKept(p, chains, oldest, now, r.f) ==> r.f < |p|
  {
    if InPool(p, r) && p[r.f].id != 0 {
      assert SortedAt(p, chains, q, oldest, now, r);
    }
  }

  lemma CleanSorted(p: seq<Frame>, chains: map<Ref, seq<Ref>>, q: seq<Frame>, m: seq<Marks>, oldest: nat, now: nat)
    requires Sorted(p, chains, q, m, oldest, now)
    ensures CleanTo(q, m, |q|, 0) <==> forall r :: Unfinished(p, r) && FrameKept(p, chains, oldest, now, r.f) ==>
              LiveChunk(chains, r)
  {
    hide FrameKept, LiveChunk;
    forall r
      ensures Header(q, m, r) <==> Unfinished(p, r) && FrameKept(p, chains, oldest, now, r.f) && !LiveChunk(chains, r)
    {
      HeaderSorted(p, chains, q, m, oldest, now, r);
    }
    forall r | Header(q, m, r)
      ensures Before(r, |q|, 0)
    {
    }
  }

  lemma HeaderSorted(p: seq<Frame>, chains: map<Ref, seq<Ref>>, q: seq<Frame>, m: seq<Marks>, oldest: nat,
      now: nat, r: Ref)
    requires Sorted(p, chains, q, m, oldest, now)
    ensures Header(q, m, r) <==> Unfinished(p, r) && FrameKept(p, chains, oldest, now, r.f) && !LiveChunk(chains, r)
  {
    hide FrameKept, LiveChunk;
    FreedSorted(p, chains, q, m, oldest, now, r);
    if InPool(p, r) && p[r.f].id != 0 {
      assert SortedAt(p, chains, q, oldest, now, r);
    }
  }

  lemma Sort(p: seq<Frame>, q1: seq<Frame>, q: seq<Frame>, m1: seq<Marks>, m: seq<Marks>,
      chains: map<Ref, seq<Ref>>, oldest: nat, now: nat)
    requires WellFormed(p, chains, oldest, now) && Marked(p, q1, oldest, now) && MarksOf(p, m1, oldest, now)
    requires AllHeaded(q1, q, chains, chains.Keys) && AllMarked(m1, m, chains, chains.Keys)
    ensures Sorted(p, chains, q, m, oldest, now)
  {
    hide WellFormed, AllHeaded, MarksOf, AllMarked, FrameKept, Kept;
    HeadedShape(q1, q, chains, chains.Keys);
    KeptFrames(p, q1, q, m1, m, chains, oldest, now, 0);
    forall f: nat
      ensures Kept(q, m, f) == FrameKept(p, chains, oldest, now, f)
    {
      KeptFrames(p, q1, q, m1, m, chains, oldest, now, f);
    }
    forall r | InPool(p, r) && p[r.f].id != 0
      ensures SortedAt(p, chains, q, oldest, now, r)
    {
      Classify(p, q1, q, chains, oldest, now, r);
    }
  }

  lemma HeadsSorted(q1: seq<Frame>, q: seq<Frame>, chains: map<Ref, seq<Ref>>, m1: seq<Marks>)
    requires ChainsOf(q1, m1, chains) && AllHeaded(q1, q, chains, chains.Keys)
    ensures HeadsBack(q, chains)
  {
    forall h, x | h in chains && x in chains[h]
      ensures InPool(q, x) && At(q, x).head == Owner(h)
    {
      assert IsChain(q1, h, chains[h]);
      var j :| 0 <= j < |chains[h]| && chains[h][j] == x;
      assert InPool(q1, chains[h][j]);
      assert HeadedAt(q1, q, chains, chains.Keys, x);
    }
  }

  /** pslab_do_recover. It completes exactly when every unlinked slot still flagged as a chunked header, in a
      frame that is kept, is some live item's chunk; then the live items are back and every other slot of a kept
      frame is accounted for. */
  method Recover(p: seq<Frame>, oldest: nat, now: nat, ghost chains: map<Ref, seq<Ref>>)
    returns (ok: bool, q: seq<Frame>, m: seq<Marks>, pages: seq<seq<nat>>, table: map<Key, Ref>, free: seq<seq<Ref>>)
    requires WellFormed(p, chains, oldest, now)
    ensures ok <==> forall r :: Unfinished(p, r) && FrameKept(p, chains, oldest, now, r.f) ==> LiveChunk(chains, r)
    ensures ok ==> TableIs(p, table, oldest, now) && ListsAre(p, chains, pages, free, oldest, now)
    ensures HeadsBack(q, chains)
    ensures |m| == |q| == |p| && forall f :: Kept(q, m, f) == FrameKept(p, chains, oldest, now, f)
  {
    hide *;
    var q1, m1 := WalkOne(p, oldest, now);
    MarkedChains(p, q1, m1, chains, oldest, now);
    q, m := WalkTwo(q1, m1, chains);
    Sort(p, q1, q, m1, m, chains, oldest, now);
    HeadsSorted(q1, q, chains, m1);
    SortedKeyed(p, chains, q, m, oldest, now);
    SortedFrames(p, chains, q, m, oldest, now);
    CleanSorted(p, chains, q, m, oldest, now);
    ok, pages, table, free := WalkThree(q, m);
    if ok {
      TableSorted(p, chains, q, m, table, oldest, now);
      ListsSorted(p, chains, q, m, pages, free, oldest, now);
    }
  }

  lemma SortedFrames(p: seq<Frame>, chains: map<Ref, seq<Ref>>, q: seq<Frame>, m: seq<Marks>, oldest: nat, now: nat)
    requires Sorted(p, chains, q, m, oldest, now)
    ensures |m| == |q| == |p| && forall f :: Kept(q, m, f) == FrameKept(p, chains, oldest, now, f)
  {
  }

  // ---- Where everything ends up ----

  /** A chunk of a live item is not itself a live item, and neither is on a free list. */
  lemma SlotsDisjoint(p: seq<Frame>, chains: map<Ref, seq<Ref>>, pages: seq<seq<nat>>, free: seq<seq<Ref>>,
      oldest: nat, now: nat, r: Ref, c: nat)
    requires WellFormed(p, chains, oldest, now) && ListsAre(p, chains, pages, free, oldest, now) && c < CLASSES
    ensures !(Live(p, r, oldest, now) && LiveChunk(chains, r))
    ensures r in free[c] ==> !Live(p, r, oldest, now) && !LiveChunk(chains, r)
  {
    hide WellFormed;
    assert FreeIs(p, chains, free[c], c, oldest, now);
    if LiveChunk(chains, r) {
      var h :| h in chains && r in chains[h];
      var j :| 0 <= j < |chains[h]| && chains[h][j] == r;
      ChunkOf(p, chains, oldest, now, h, j);
    }
  }

  /** Recovery accounts for every slot of the frames it keeps exactly when no expired item in them carries a
      hash-chain pointer. */
  lemma AccountedIff(p: seq<Frame>, chains: map<Ref, seq<Ref>>, pages: seq<seq<nat>>, free: seq<seq<Ref>>,
      oldest: nat, now: nat)
    requires WellFormed(p, chains, oldest, now) && ListsAre(p, chains, pages, free, oldest, now)
    ensures (forall r :: InPool(p, r) && FrameKept(p, chains, oldest, now, r.f) ==>
               Live(p, r, oldest, now) || LiveChunk(chains, r) || r in free[p[r.f].id])
       <==> (forall r: Ref :: FrameKept(p, chains, oldest, now, r.f) ==> !Leaked(p, r, oldest, now))
  {
    forall r | InPool(p, r) && FrameKept(p, chains, oldest, now, r.f)
      ensures (Live(p, r, oldest, now) || LiveChunk(chains, r) || r in free[p[r.f].id]) == !Leaked(p, r, oldest, now)
    {
      AccountedAt(p, chains, pages, free, oldest, now, r);
    }
  }

  lemma AccountedAt(p: seq<Frame>, chains: map<Ref, seq<Ref>>, pages: seq<seq<nat>>, free: seq<seq<Ref>>,
      oldest: nat, now: nat, r: Ref)
    requires WellFormed(p, chains, oldest, now) && ListsAre(p, chains, pages, free, oldest, now)
    requires InPool(p, r) && FrameKept(p, chains, oldest, now, r.f)
    ensures p[r.f].id < CLASSES
    ensures (Live(p, r, oldest, now) || LiveChunk(chains, r) || r in free[p[r.f].id]) == !Leaked(p, r, oldest, now)
  {
    assert p[r.f].id < CLASSES;
    hide WellFormed;
    assert FreeIs(p, chains, free[p[r.f].id], p[r.f].id, oldest, now);
    if LiveChunk(chains, r) {
      var h :| h in chains && r in chains[h];
      var j :| 0 <= j < |chains[h]| && chains[h][j] == r;
      ChunkOf(p, chains, oldest, now, h, j);
    }
  }

  /** A pool whose recovery loses a slot: one live item and, in the same frame, one expired item that has a hash-chain
      pointer on the medium. Nothing that recovery may leave has the slot. */
  lemma LeakExample()
    ensures var p := [Frame(1, [Slot(true, false, true, [1], 5, 0, None, Null),
              Slot(true, false, true, [2], 5, 7, None, Stale)])];
            && WellFormed(p, map[], 0, 9) && FrameKept(p, map[], 0, 9, 0) && Leaked(p, Ref(0, 1), 0, 9)
            && (forall table :: TableIs(p, table, 0, 9) ==> Ref(0, 1) !in table.Values)
            && (forall pages, free :: ListsAre(p, map[], pages, free, 0, 9) ==>
                  forall c :: 0 <= c < CLASSES ==> Ref(0, 1) !in free[c])
  {
    var p := [Frame(1, [Slot(true, false, true, [1], 5, 0, None, Null),
      Slot(true, false, true, [2], 5, 7, None, Stale)])];
    assert Live(p, Ref(0, 0), 0, 9);
  }

  /** A pool on which recovery stops: a live item and the header of a chunked item that was being uploaded. */
  lemma StopExample()
    ensures var p := [Frame(1, [Slot(true, false, true, [1], 5, 0, None, Null),
              Slot(false, true, true, [2], 5, 0, None, Null)])];
            WellFormed(p, map[], 0, 9) && FrameKept(p, map[], 0, 9, 0) && Unfinished(p, Ref(0, 1)) &&
              !LiveChunk(map[], Ref(0, 1))
  {
    var p := [Frame(1, [Slot(true, false, true, [1], 5, 0, None, Null),
      Slot(false, true, true, [2], 5, 0, None, Null)])];
    assert Live(p, Ref(0, 0), 0, 9);
  }

  ghost predicate InOnePlace(pages: seq<seq<nat>>, pool: seq<nat>, f: nat)
    requires |pages| == CLASSES
  {
    && (f in pool || exists c :: 0 <= c < CLASSES && f in pages[c])
    && (forall c :: 0 <= c < CLASSES && f in pages[c] ==> f !in pool)
    && (forall c, d :: 0 <= c < CLASSES && 0 <= d < CLASSES && f in pages[c] && f in pages[d] ==> c == d)
  }

  /** Every frame is in exactly one place: the list of one class, or the pool of free pages. */
  lemma FramesPartitioned(p: seq<Frame>, chains: map<Ref, seq<Ref>>, pages: seq<seq<nat>>, free: seq<seq<Ref>>,
      pool: seq<nat>, oldest: nat, now: nat, f: nat)
    requires WellFormed(p, chains, oldest, now) && ListsAre(p, chains, pages, free, oldest, now) && f < |p|
    requires Ascending(pool) && forall g: nat :: g in pool <==> g < |p| && !FrameKept(p, chains, oldest, now, g)
    ensures |pages| == CLASSES && InOnePlace(pages, pool, f)
    ensures NoRepeat(pool) && forall c :: 0 <= c < CLASSES ==> NoRepeat(pages[c])
  {
    assert p[f].id < CLASSES;
    hide WellFormed, FrameKept;
    assert forall c :: 0 <= c < CLASSES ==> PagesAre(p, chains, pages[c], c, oldest, now);
    assert f in pool || f in pages[p[f].id];
  }

  // ---- The pool of free pages ----

  /** The frames after recovery, and the cursor that pslab_get_free_slab keeps between calls. */
  class FreeFrames {
    const frames: seq<Frame>
    const marks: seq<Marks>
    var cur: Option<nat>

    constructor (q: seq<Frame>, m: seq<Marks>)
      requires |m| == |q|
      ensures frames == q && marks == m && cur.None?
    {
      frames, marks, cur := q, m, None;
    }

    ghost predicate Valid()
      reads this
    {
      |marks| == |frames|
    }

    predicate IsFree(f: nat)
      requires |marks| == |frames|
    {
      f < |frames| && !Kept(frames, marks, f)
    }

    /** The next free frame after `slab`, or the first one; a slab that is not where the walk stands gives
        nothing. */
    method GetFreeSlab(slab: Option<nat>) returns (r: Option<nat>)
      requires Valid()
      modifies this
      ensures Valid()
      ensures slab.Some? && old(cur) != slab ==> r.None? && cur == old(cur)
      ensures (slab.None? || old(cur) == slab) ==> cur == r
      ensures (slab.None? || old(cur) == slab) && r.Some? ==>
                IsFree(r.value) && (slab.Some? ==> slab.value < r.value) &&
                  forall f: nat :: (slab.None? || slab.value < f) && f < r.value ==> !IsFree(f)
      ensures (slab.None? || old(cur) == slab) && r.None? ==> forall f :: slab.None? || slab.value < f ==> !IsFree(f)
    {
      if slab.None? {
        cur := None;
      } else if slab != cur {
        return None;
      }
      var fp := if cur.None? then 0 else cur.value + 1;
      var first := fp;
      while fp < |frames|
        invariant first <= fp
        invariant cur == if slab.None? then None else old(cur)
        invariant forall f :: first <= f < fp ==> !IsFree(f)
      {
        if frames[fp].id == 0 || (!marks[fp].linked && !marks[fp].chunk) {
          cur := Some(fp);
          return cur;
        }
        fp := fp + 1;
      }
      cur := None;
      return None;
    }

    /** slabs_prefill_global_from_pmem: the pool receives every free frame once, in order. */
    method Prefill() returns (pool: seq<nat>)
      requires Valid()
      modifies this
      ensures Ascending(pool) && forall f: nat :: f in pool <==> IsFree(f)
    {
      pool := [];
      var ptr := GetFreeSlab(None);
      while ptr.Some?
        invariant cur == ptr
        invariant Ascending(pool)
        invariant forall i :: 0 <= i < |pool| ==> IsFree(pool[i]) && (ptr.Some? ==> pool[i] < ptr.value)
        invariant ptr.Some? ==> IsFree(ptr.value)
        invariant forall f :: IsFree(f) && (ptr.None? || f < ptr.value) ==> f in pool
        decreases if ptr.None? then 0 else 1 + |frames| - ptr.value
      {
        pool := pool + [ptr.value];
        ptr := GetFreeSlab(ptr);
      }
    }
  }

  /** What a restart does: recovery, and then the pool of free pages. When recovery completes, every live item is in the
      table, and every frame of the pool is once in the list of one class or once among the free pages. */
  method Restart(p: seq<Frame>, oldest: nat, now: nat, ghost chains: map<Ref, seq<Ref>>)
    returns (ok: bool, table: map<Key, Ref>, pages: seq<seq<nat>>, free: seq<seq<Ref>>, pool: seq<nat>)
    requires WellFormed(p, chains, oldest, now)
    ensures ok <==> forall r :: Unfinished(p, r) && FrameKept(p, chains, oldest, now, r.f) ==> LiveChunk(chains, r)
    ensures ok ==> TableIs(p, table, oldest, now) && ListsAre(p, chains, pages, free, oldest, now)
    ensures ok ==> NoRepeat(pool) && forall f: nat :: f in pool ==> f < |p|
    ensures ok ==> forall f :: 0 <= f < |p| ==> InOnePlace(pages, pool, f)
    ensures ok ==> forall c :: 0 <= c < CLASSES ==> NoRepeat(pages[c]) && forall f: nat :: f in pages[c] ==> f < |p|
  {
    var q, m;
    ok, q, m, pages, table, free := Recover(p, oldest, now, chains);
    pool := [];
    if ok {
      var frames := new FreeFrames(q, m);
      pool := frames.Prefill();
      hide WellFormed, FrameKept, LiveChunk, Unfinished, TableIs, FreeIs, Kept, Freed, InOnePlace;
      forall f | 0 <= f < |p|
        ensures InOnePlace(pages, pool, f)
      {
        FramesPartitioned(p, chains, pages, free, pool, oldest, now, f);
      }
      PagesListed(p, chains, pages, free, oldest, now);
    }
  }

  lemma PagesListed(p: seq<Frame>, chains: map<Ref, seq<Ref>>, pages: seq<seq<nat>>, free: seq<seq<Ref>>,
      oldest: nat, now: nat)
    requires ListsAre(p, chains, pages, free, oldest, now)
    ensures forall c :: 0 <= c < CLASSES ==> NoRepeat(pages[c]) && forall f: nat :: f in pages[c] ==> f < |p|
  {
    assert forall c :: 0 <= c < CLASSES ==> PagesAre(p, chains, pages[c], c, oldest, now);
    hide FreeIs;
  }
}
