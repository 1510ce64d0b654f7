/** Appending to and prepending to a value, when values may be spread over chains of chunks of many sizes. */
module ChunkCopy {
  import opened Common

  type Bytes = seq<bv8>

  // A chunk: its room, and the bytes in it.
  datatype Chunk = Chunk(size: nat, data: Bytes)

  // Where a value is read from: one piece of memory, or a chain of chunks.
  datatype Source = Flat(data: Bytes) | Chain(chunks: seq<Chunk>)

  function Joined(chunks: seq<Chunk>): Bytes {
    if chunks == [] then [] else chunks[0].data + Joined(chunks[1..])
  }

  function Value(s: Source): Bytes {
    match s
    case Flat(data) => data
    case Chain(chunks) => Joined(chunks)
  }

  predicate Full(c: Chunk) { |c.data| == c.size }

  /** No chunk holds more than it can, and only the last may hold less. */
  predicate Packed(chunks: seq<Chunk>) {
    && chunks != []
    && (forall i :: 0 <= i < |chunks| ==> |chunks[i].data| <= chunks[i].size)
    && (forall i :: 0 <= i < |chunks| - 1 ==> Full(chunks[i]))
  }

  lemma {:induction false} JoinedConcat(a: seq<Chunk>, b: seq<Chunk>)
    ensures Joined(a + b) == Joined(a) + Joined(b)
  {
    if a == [] {
      assert a + b == b;
    } else {
      JoinedConcat(a[1..], b);
      assert (a + b)[1..] == a[1..] + b;
      Associative(a[0].data, Joined(a[1..]), Joined(b));
    }
  }

  lemma JoinedLast(chunks: seq<Chunk>, data: Bytes)
    requires chunks != []
    ensures var n := |chunks| - 1;
            Joined(chunks[n := chunks[n].(data := chunks[n].data + data)]) == Joined(chunks) + data
  {
    var n := |chunks| - 1;
    var c := chunks[n].(data := chunks[n].data + data);
    JoinedConcat(chunks[..n], [chunks[n]]);
    JoinedConcat(chunks[..n], [c]);
    assert chunks == chunks[..n] + [chunks[n]] && chunks[n := c] == chunks[..n] + [c];
    assert Joined([c]) == c.data && Joined([chunks[n]]) == chunks[n].data;
  }

  lemma JoinedMore(chunks: seq<Chunk>, size: nat)
    ensures Joined(chunks + [Chunk(size, [])]) == Joined(chunks)
  {
    JoinedConcat(chunks, [Chunk(size, [])]);
    assert Joined([Chunk(size, [])]) == [];
  }

  function Min(a: nat, b: nat): nat { if a < b then a else b }

  function Room(chunks: seq<Chunk>): nat
    requires Packed(chunks)
  {
    chunks[|chunks| - 1].size - |chunks[|chunks| - 1].data|
  }

  /** How many chunks must be allocated to add `len` bytes after `room` bytes of room: one each time a chunk is
      filled, even by the last byte. */
  function Needed(room: nat, len: nat, cap: nat): nat
    requires cap > 0
    decreases len, if room == 0 then 1 else 0
  {
    if len == 0 || len < room then 0 else 1 + Needed(Min(len - room, cap), len - room, cap)
  }

  /** The room left after that. */
  function RoomAfter(room: nat, len: nat): nat {
    if len == 0 then room else if len < room then room - len else 0
  }

  /** Filling a chunk bit by bit makes no difference. */
  lemma NeededShift(room: nat, len: nat, cap: nat, k: nat)
    requires cap > 0 && k < len && k <= room
    ensures Needed(room - k, len - k, cap) == Needed(room, len, cap)
  {
  }

  /** The source bytes from `at` on are the bytes of the chunks from `copied` bytes into chunk `sch` on. */
  ghost predicate Reading(source: seq<Chunk>, all: Bytes, at: nat, sch: nat, copied: nat) {
    sch <= |source| && at <= |all| && copied <= |Joined(source[sch..])| && all[at..] == Joined(source[sch..])[copied..]
  }

  /** An item whose value is a chain of chunks, the memory left for more of them, and how large one may be. */
  class Chunked {
    var chunks: seq<Chunk>
    var memory: nat
    // The largest chunk, and how much of each chunk its own bookkeeping takes.
    const chunkMax: nat
    const header: nat

    ghost predicate Valid()
      reads this
    {
      Packed(chunks) && chunkMax > header
    }

    /** do_item_alloc: a header that holds no bytes itself. */
    constructor (chunkMax: nat, header: nat, memory: nat)
      requires chunkMax > header
      ensures Valid() && chunks == [Chunk(0, [])] && Joined(chunks) == [] && this.memory == memory
      ensures this.chunkMax == chunkMax && this.header == header
    {
      chunks, this.memory, this.chunkMax, this.header := [Chunk(0, [])], memory, chunkMax, header;
    }

    /** do_item_alloc_chunk: a chunk for what remains, or as large as there are. */
    method AllocChunk(remain: nat) returns (ok: bool)
      requires Valid() && Full(chunks[|chunks| - 1])
      modifies this
      ensures Valid() && ok == (old(memory) > 0)
      ensures ok ==> memory == old(memory) - 1 && chunks == old(chunks) + [Chunk(Min(remain, chunkMax - header),
                [])] && Joined(chunks) == Joined(old(chunks))
      ensures !ok ==> chunks == old(chunks) && memory == 0
    {
      if memory == 0 {
        return false;
      }
      var size := remain + header;
      if size > chunkMax {
        size := chunkMax;
      }
      memory := memory - 1;
      JoinedMore(chunks, size - header);
      chunks := chunks + [Chunk(size - header, [])];
      return true;
    }

    /** Bytes go into the room of the last chunk. */
    method Fill(data: Bytes)
      requires Valid() && |chunks[|chunks| - 1].data| + |data| <= chunks[|chunks| - 1].size
      modifies this`chunks
      ensures Valid() && |chunks| == |old(chunks)| && Joined(chunks) == Joined(old(chunks)) + data
      ensures var n := |chunks| - 1; chunks[n] == old(chunks)[n].(data := old(chunks)[n].data + data)
    {
      var n := |chunks| - 1;
      JoinedLast(chunks, data);
      chunks := chunks[n := chunks[n].(data := chunks[n].data + data)];
    }

    /** `todo` bytes go into the last chunk, and when that fills it another one is allocated. */
    method Add(data: Bytes, remain: nat) returns (ok: bool)
      requires Valid() && |data| <= Room(chunks) && |data| <= remain && 0 < remain
      modifies this
      ensures Valid()
      ensures ok ==> Joined(chunks) == Joined(old(chunks)) + data
      ensures ok ==> memory + Needed(Room(old(chunks)), remain,
                chunkMax - header) == old(memory) + Needed(Room(chunks), remain - |data|, chunkMax - header)
      ensures ok ==> RoomAfter(Room(chunks), remain - |data|) == RoomAfter(Room(old(chunks)), remain)
      ensures ok && 0 == |data| < remain && Room(old(chunks)) == 0 ==> Room(chunks) > 0
      ensures ok && Room(old(chunks)) > |data| ==> Room(chunks) == Room(old(chunks)) - |data|
      ensures !ok ==> memory == old(memory) == 0 < Needed(Room(old(chunks)), remain, chunkMax - header)
    {
      ghost var room := Room(chunks);
      Fill(data);
      ok := true;
      if Full(chunks[|chunks| - 1]) {
        ok := AllocChunk(remain - |data|);
      } else if |data| < remain {
        NeededShift(room, remain, chunkMax - header, |data|);
      }
    }

    /** _store_item_copy_chunks from a value in one piece. */
    method CopyFlat(source: Bytes, len: nat) returns (ok: bool)
      requires Valid() && len <= |source|
      modifies this
      ensures Valid()
      ensures ok <==> old(memory) >= Needed(Room(old(chunks)), len, chunkMax - header)
      ensures ok ==>
                && Joined(chunks) == Joined(old(chunks)) + source[..len]
                && memory == old(memory) - Needed(Room(old(chunks)), len, chunkMax - header)
      ensures ok ==> Room(chunks) == RoomAfter(Room(old(chunks)), len)
    {
      hide Needed, RoomAfter, Joined, Packed, Full, Room;
      var last := SkipFull();
      var done := 0;
      assert source[..0] == [];
      while len > done
        invariant Valid() && done <= len
        invariant Joined(chunks) == Joined(old(chunks)) + source[..done]
        invariant memory + Needed(Room(old(chunks)), len, chunkMax - header) == old(memory) + Needed(Room(chunks),
                    len - done, chunkMax - header)
        invariant RoomAfter(Room(chunks), len - done) == RoomAfter(Room(old(chunks)), len)
        decreases len - done, if Room(chunks) == 0 then 1 else 0
      {
        var todo := Min(Room(chunks), len - done);
        assert source[..done + todo] == source[..done] + source[done..done + todo];
        Associative(Joined(old(chunks)), source[..done], source[done..done + todo]);
        var more := Add(source[done..done + todo], len - done);
        if !more {
          return false;
        }
        done := done + todo;
      }
      NeededNone(Room(chunks), chunkMax - header);
      return true;
    }

    /** _store_item_copy_chunks from another chain, whatever the sizes of its chunks. */
    method CopyChain(source: seq<Chunk>, len: nat) returns (ok: bool)
      requires Valid() && len <= |Joined(source)|
      modifies this
      ensures Valid()
      ensures ok <==> old(memory) >= Needed(Room(old(chunks)), len, chunkMax - header)
      ensures ok ==>
                && Joined(chunks) == Joined(old(chunks)) + Joined(source)[..len]
                && memory == old(memory) - Needed(Room(old(chunks)), len, chunkMax - header)
      ensures ok ==> Room(chunks) == RoomAfter(Room(old(chunks)), len)
    {
      hide Needed, RoomAfter, Reading, Joined, Packed, Full, Room;
      var last := SkipFull();
      var remain, sch, copied := len, 0, 0;
      ghost var all := Joined(source);
      StartReading(source);
      while sch < |source| && remain > 0
        invariant Valid() && 0 <= remain <= len && 0 <= sch <= |source| && 0 <= copied
        invariant (sch < |source| ==> copied <= |source[sch].data|) && (sch == |source| ==> copied == 0)
        invariant Joined(chunks) == Joined(old(chunks)) + all[..len - remain]
        invariant Reading(source, all, len - remain, sch, copied)
        invariant memory + Needed(Room(old(chunks)), len, chunkMax - header) == old(memory) + Needed(Room(chunks),
                    remain, chunkMax - header)
        invariant RoomAfter(Room(chunks), remain) == RoomAfter(Room(old(chunks)), len)
        decreases remain, |source| - sch, if Room(chunks) == 0 then 1 else 0
      {
        var todo := Min(Min(Room(chunks), |source[sch].data| - copied), remain);
        var data := source[sch].data[copied..copied + todo];
        FromChain(source, all, len - remain, sch, copied, todo);
        Associative(Joined(old(chunks)), all[..len - remain], data);
        var more := Add(data, remain);
        if !more {
          return false;
        }
        copied := copied + todo;
        remain := remain - todo;
        if copied == |source[sch].data| {
          copied := 0;
          sch := sch + 1;
        }
      }
      if sch == |source| {
        AllRead(source, all, len - remain);
      }
      assert remain == 0;
      NeededNone(Room(chunks), chunkMax - header);
      return true;
    }

    /** _store_item_copy_chunks. */
    method Copy(source: Source, len: nat) returns (ok: bool)
      requires Valid() && len <= |Value(source)|
      modifies this
      ensures Valid()
      ensures ok <==> old(memory) >= Needed(Room(old(chunks)), len, chunkMax - header)
      ensures ok ==>
                && Joined(chunks) == Joined(old(chunks)) + Value(source)[..len]
                && memory == old(memory) - Needed(Room(old(chunks)), len, chunkMax - header)
      ensures ok ==> Room(chunks) == RoomAfter(Room(old(chunks)), len)
    {
      match source
      case Flat(data) => ok := CopyFlat(data, len);
      case Chain(source) => ok := CopyChain(source, len);
    }

    /** The search for the first chunk with room: in a packed chain, the last one. */
    method SkipFull() returns (i: nat)
      requires Valid()
      ensures i == |chunks| - 1
      ensures forall j :: 0 <= j < i ==> Full(chunks[j])
    {
      i := 0;
      while Full(chunks[i]) && i + 1 < |chunks|
        invariant i < |chunks|
        invariant forall j :: 0 <= j < i ==> Full(chunks[j])
      {
        i := i + 1;
      }
    }
  }

  lemma NeededNone(room: nat, cap: nat)
    requires cap > 0
    ensures Needed(room, 0, cap) == 0 && RoomAfter(room, 0) == room
  {
  }

  lemma StartReading(source: seq<Chunk>)
    ensures Reading(source, Joined(source), 0, 0, 0) && Joined(source)[..0] == []
  {
    assert source[0..] == source;
  }

  lemma AllRead(source: seq<Chunk>, all: Bytes, at: nat)
    requires Reading(source, all, at, |source|, 0)
    ensures at == |all|
  {
    assert source[|source|..] == [];
  }

  /** The bytes of the current source chunk are the next bytes of the value. */
  lemma FromChain(source: seq<Chunk>, all: Bytes, at: nat, sch: nat, copied: nat, todo: nat)
    requires sch < |source| && copied + todo <= |source[sch].data| && Reading(source, all, at, sch, copied)
    ensures at + todo <= |all| && all[..at + todo] == all[..at] + source[sch].data[copied..copied + todo]
    ensures Reading(source, all, at + todo, sch, copied + todo)
    ensures copied + todo == |source[sch].data| ==> Reading(source, all, at + todo, sch + 1, 0)
  {
    var j := Joined(source[sch..]);
    assert source[sch..][0] == source[sch] && source[sch..][1..] == source[sch + 1..];
    assert j == source[sch].data + Joined(source[sch + 1..]);
    assert j[copied..copied + todo] == source[sch].data[copied..copied + todo];
    assert all[at..][..todo] == all[at..at + todo];
    assert all[at..][todo..] == all[at + todo..];
    assert j[copied..][todo..] == j[copied + todo..];
    assert j[copied..][..todo] == j[copied..copied + todo];
  }

  lemma FreshHeader(chunks: seq<Chunk>)
    requires chunks == [Chunk(0, [])]
    ensures Packed(chunks) && Joined(chunks) == [] && Room(chunks) == 0
  {
    assert Joined(chunks) == [] + Joined(chunks[1..]);
  }

  lemma NoRoom(len: nat)
    ensures RoomAfter(0, len) == 0
  {
  }

  /** The old value without its final line break, then the added one, or the other way round. */
  function Wanted(append: bool, old_: Bytes, add: Bytes): Bytes
    requires 2 <= |old_| && 2 <= |add|
  {
    if append then old_[..|old_| - 2] + add else add[..|add| - 2] + old_
  }

  /** _store_item_copy_data into a chain: the old value without its final line break, then the added one, or the
      other way round, whatever the layout of the two. */
  method Combine(append: bool, old_: Source, add: Source, dest: Chunked) returns (ok: bool)
    requires dest.Valid() && dest.chunks == [Chunk(0, [])] && 2 <= |Value(old_)| && 2 <= |Value(add)|
    modifies dest
    ensures dest.Valid()
    ensures ok ==> Joined(dest.chunks) == Wanted(append, Value(old_), Value(add))
    ensures var cap := dest.chunkMax - dest.header; var first, second := if append then old_
              else add, if append then add else old_;
            ok <==> old(dest.memory) >= Needed(0, |Value(first)| - 2, cap) + Needed(0, |Value(second)|, cap)
  {
    hide Value, Joined, Needed, RoomAfter, Packed, Room, Wanted;
    FreshHeader(dest.chunks);
    var first, second := if append then old_ else add, if append then add else old_;
    var n, k := |Value(first)| - 2, |Value(second)|;
    NoRoom(n);
    ok := dest.Copy(first, n);
    if ok {
      WantedIs(append, Value(old_), Value(add));
      ok := dest.Copy(second, k);
    }
  }

  lemma WantedIs(append: bool, old_: Bytes, add: Bytes)
    requires 2 <= |old_| && 2 <= |add|
    ensures var first, second := if append then old_ else add, if append then add else old_;
            Wanted(append, old_, add) == [] + first[..|first| - 2] + second[..|second|]
  {
    assert add[..|add|] == add && old_[..|old_|] == old_;
  }

  /** _store_item_copy_data into one piece of memory, from what lies where a value in one piece would: the second copy
      overwrites the line break at the end of the first. */
  method CombineFlat(append: bool, old_: Bytes, add: Bytes, dest: array<bv8>)
    requires 2 <= |old_| && 2 <= |add| && dest.Length == |old_| + |add| - 2
    modifies dest
    ensures dest[..] == Wanted(append, old_, add)
  {
    var first, second := if append then old_ else add, if append then add else old_;
    CopyTo(first, dest, 0);
    assert dest[..|first| - 2] == first[..|first| - 2];
    CopyTo(second, dest, |first| - 2);
    assert dest[..] == dest[..|first| - 2] + dest[|first| - 2..];
  }

  method CopyTo(source: Bytes, dest: array<bv8>, at: nat)
    requires at + |source| <= dest.Length
    modifies dest
    ensures dest[..at] == old(dest[..at]) && dest[at..at + |source|] == source
    ensures dest[at + |source|..] == old(dest[at + |source|..])
  {
    for i := 0 to |source|
      invariant forall j :: 0 <= j < i ==> dest[at + j] == source[j]
      invariant forall j :: 0 <= j < dest.Length && !(at <= j < at + i) ==> dest[j] == old(dest[j])
    {
      dest[at + i] := source[i];
    }
  }

  // ---- Which items are chunked ----

  const ITEM_SIZE: nat := 48
  const CAS_SIZE: nat := 8
  const FLAGS_SIZE: nat := 4

  // Whether responses are stored with the item and whether it has a CAS, the size above which an item is chunked, the
  // largest item, and the bookkeeping of a chunk.
  datatype Settings = Settings(inline: bool, cas: bool, chunkMax: nat, itemMax: nat, header: nat)

  function Digits(n: nat): nat { if n < 10 then 1 else 1 + Digits(n / 10) }

  /** item_make_header: what the flags take. */
  function Suffix(s: Settings, flags: nat, nbytes: nat): nat
    requires 2 <= nbytes
  {
    if s.inline then 1 + Digits(flags) + 1 + Digits(nbytes - 2) + 2 else if flags == 0 then 0 else FLAGS_SIZE
  }

  function Total(s: Settings, nkey: nat, flags: nat, nbytes: nat): nat
    requires 2 <= nbytes
  {
    ITEM_SIZE + (nkey + 1) + Suffix(s, flags, nbytes) + nbytes + (if s.cas then CAS_SIZE else 0)
  }

  /** do_item_alloc: whether the value goes into chunks. */
  predicate Large(s: Settings, nkey: nat, flags: nat, nbytes: nat)
    requires 2 <= nbytes
  {
    Total(s, nkey, flags, nbytes) > s.chunkMax
  }

  lemma {:induction false} DigitsGrow(m: nat, n: nat)
    requires m <= n
    ensures Digits(m) <= Digits(n)
  {
    if m >= 10 {
      DigitsGrow(m / 10, n / 10);
    }
  }

  /** Adding to a chunked value gives a chunked value. */
  lemma LargeStays(s: Settings, nkey: nat, flags: nat, oldBytes: nat, addBytes: nat)
    requires 2 <= oldBytes && 2 <= addBytes && Large(s, nkey, flags, oldBytes)
    ensures Large(s, nkey, flags, oldBytes + addBytes - 2)
  {
    DigitsGrow(oldBytes - 2, oldBytes + addBytes - 2 - 2);
  }

  /** The new item, which has the flags of the old one, is in one piece and the added item is not. */
  predicate Stray(s: Settings, nkey: nat, flags: nat, oldBytes: nat, addFlags: nat, addBytes: nat)
    requires 2 <= oldBytes && 2 <= addBytes
  {
    !Large(s, nkey, flags, oldBytes + addBytes - 2) && Large(s, nkey, addFlags, addBytes)
  }

  /** There is a limit at which that happens exactly when the flags of the added item take more than those of the
      new one and the old value together. */
  lemma StrayIff(s: Settings, nkey: nat, flags: nat, oldBytes: nat, addFlags: nat, addBytes: nat)
    requires 2 <= oldBytes && 2 <= addBytes
    ensures (exists max: nat :: Stray(s.(chunkMax := max), nkey, flags, oldBytes, addFlags, addBytes)) <==>
            Suffix(s, addFlags, addBytes) > Suffix(s, flags, oldBytes + addBytes - 2) + oldBytes - 2
  {
    var n := oldBytes + addBytes - 2;
    var max := Total(s, nkey, flags, n);
    assert forall m: nat :: Suffix(s.(chunkMax := m), flags, n) == Suffix(s, flags, n);
    assert forall m: nat :: Suffix(s.(chunkMax := m), addFlags, addBytes) == Suffix(s, addFlags, addBytes);
    if Suffix(s, addFlags, addBytes) > Suffix(s, flags, n) + oldBytes - 2 {
      assert Stray(s.(chunkMax := max), nkey, flags, oldBytes, addFlags, addBytes);
    }
  }

  /** With the flags stored as a number: an old value of less than four bytes without flags, and an added item with
      flags. */
  lemma StrayPlain(s: Settings, nkey: nat, flags: nat, oldBytes: nat, addFlags: nat, addBytes: nat)
    requires 2 <= oldBytes && 2 <= addBytes && !s.inline
    ensures (exists max: nat :: Stray(s.(chunkMax := max), nkey, flags, oldBytes, addFlags, addBytes)) <==>
            flags == 0 && addFlags != 0 && oldBytes - 2 < 4
  {
    StrayIff(s, nkey, flags, oldBytes, addFlags, addBytes);
  }

  /** At the default limit: an empty value without flags, and 524228 bytes with flags appended to it. */
  lemma StrayExample()
    ensures Stray(Settings(false, true, 524288, 1048576, 48), 1, 0, 2, 1, 524230)
  {
  }

  // An item: its flags, its value and where that is, and the bytes that lie where a value in one piece would begin.
  // For a chunked item these are the bookkeeping of its first chunk and whatever follows it.
  datatype Stored = Stored(flags: nat, source: Source, raw: Bytes)

  predicate Laid(s: Settings, nkey: nat, it: Stored) {
    var n := |Value(it.source)|;
    && 2 <= n <= |it.raw| && (it.source.Chain? <==> Large(s, nkey, it.flags, n))
    && (it.source.Flat? ==> it.raw[..n] == it.source.data)
  }

  /** What the new item holds when the copies succeed. */
  function Result(append: bool, s: Settings, nkey: nat, old_: Stored, add: Stored): Bytes
    requires Laid(s, nkey, old_) && Laid(s, nkey, add)
  {
    var o, a := Value(old_.source), Value(add.source);
    Wanted(append, o, if Stray(s, nkey, old_.flags, |o|, add.flags, |a|) then add.raw[..|a|] else a)
  }

  /** do_store_item for append and prepend: the new item is allocated with the flags of the old one and filled, in
      whatever layout its size asks for. */
  method Extend(append: bool, s: Settings, nkey: nat, old_: Stored, add: Stored, memory: nat) returns (r: Option<Bytes>)
    requires Laid(s, nkey, old_) && Laid(s, nkey, add) && s.header < s.chunkMax
    ensures r.Some? ==> r.value == Result(append, s, nkey, old_, add)
    ensures var o, a := |Value(old_.source)|, |Value(add.source)|;
            r.Some? <==>
              && Total(s, nkey, old_.flags, o + a - 2) <= s.itemMax
              && memory >= 1 + if Large(s, nkey, old_.flags, o + a - 2) then ChunksFor(append, s, o, a) else 0
  {
    hide Joined, Needed, Total, Large, Stray, Wanted, Result, Packed, Room;
    var o, a := |Value(old_.source)|, |Value(add.source)|;
    var n := o + a - 2;
    if Total(s, nkey, old_.flags, n) > s.itemMax || memory == 0 {
      return None;
    }
    if Large(s, nkey, old_.flags, n) {
      ChunkedResult(append, s, nkey, old_, add);
      var it := new Chunked(s.chunkMax, s.header, memory - 1);
      var ok := Combine(append, old_.source, add.source, it);
      r := if ok then Some(Joined(it.chunks)) else None;
    } else {
      FlatResult(append, s, nkey, old_, add);
      var it := new bv8[n];
      CombineFlat(append, old_.raw[..o], add.raw[..a], it);
      r := Some(it[..]);
    }
  }

  function ChunksFor(append: bool, s: Settings, o: nat, a: nat): nat
    requires 2 <= o && 2 <= a && s.header < s.chunkMax
  {
    var cap := s.chunkMax - s.header;
    if append then Needed(0, o - 2, cap) + Needed(0, a, cap) else Needed(0, a - 2, cap) + Needed(0, o, cap)
  }

  lemma ChunkedResult(append: bool, s: Settings, nkey: nat, old_: Stored, add: Stored)
    requires Laid(s, nkey, old_) && Laid(s, nkey, add)
    requires Large(s, nkey, old_.flags, |Value(old_.source)| + |Value(add.source)| - 2)
    ensures Result(append, s, nkey, old_, add) == Wanted(append, Value(old_.source), Value(add.source))
  {
    hide Joined, Large, Wanted;
  }

  lemma FlatResult(append: bool, s: Settings, nkey: nat, old_: Stored, add: Stored)
    requires Laid(s, nkey, old_) && Laid(s, nkey, add)
    requires !Large(s, nkey, old_.flags, |Value(old_.source)| + |Value(add.source)| - 2)
    ensures Result(append, s, nkey, old_, add) ==
            Wanted(append, old_.raw[..|Value(old_.source)|], add.raw[..|Value(add.source)|])
  {
    hide Joined, Large, Wanted;
    FlatOld(s, nkey, old_, |Value(add.source)|);
  }

  lemma FlatOld(s: Settings, nkey: nat, it: Stored, addBytes: nat)
    requires Laid(s, nkey, it) && 2 <= addBytes && !Large(s, nkey, it.flags, |Value(it.source)| + addBytes - 2)
    ensures it.source.Flat? && it.raw[..|Value(it.source)|] == Value(it.source)
  {
    if Large(s, nkey, it.flags, |Value(it.source)|) {
      LargeStays(s, nkey, it.flags, |Value(it.source)|, addBytes);
    }
  }

  /** The value is right whatever lies in memory if and only if the new item is not in one piece next to a chunked added
      item, or nothing is prepended. */
  lemma ExtendRightIff(append: bool, s: Settings, nkey: nat, old_: Stored, add: Stored)
    requires Laid(s, nkey, old_) && Laid(s, nkey, add)
    ensures var o, a := Value(old_.source), Value(add.source);
            (forall raw: Bytes :: Laid(s, nkey, add.(raw := raw)) ==>
               Result(append, s, nkey, old_, add.(raw := raw)) == Wanted(append, o, a)) <==>
            !Stray(s, nkey, old_.flags, |o|, add.flags, |a|) || (!append && |a| == 2)
  {
    hide Joined, Large, Wanted;
    var o, a := Value(old_.source), Value(add.source);
    if Stray(s, nkey, old_.flags, |o|, add.flags, |a|) && (append || |a| > 2) {
      var bad := add.(raw := [!a[0]] + a[1..]);
      assert Laid(s, nkey, bad) && bad.raw[..|a|] == bad.raw;
      OtherByte(append, o, a);
    } else {
      forall raw: Bytes | Laid(s, nkey, add.(raw := raw))
        ensures Result(append, s, nkey, old_, add.(raw := raw)) == Wanted(append, o, a)
      {
        if Stray(s, nkey, old_.flags, |o|, add.flags, |a|) {
          NothingAdded(o, a, raw[..2]);
        }
      }
    }
  }

  lemma OtherByte(append: bool, o: Bytes, a: Bytes)
    requires 2 <= |o| && 2 <= |a| && (append || |a| > 2)
    ensures Wanted(append, o, [!a[0]] + a[1..]) != Wanted(append, o, a)
  {
    var b := [!a[0]] + a[1..];
    var i := if append then |o| - 2 else 0;
    assert Wanted(append, o, b)[i] == b[0] && Wanted(append, o, a)[i] == a[0];
    Flipped(a[0]);
  }

  lemma Flipped(x: bv8)
    ensures !x != x
  {
  }

  lemma NothingAdded(o: Bytes, a: Bytes, b: Bytes)
    requires 2 <= |o| && |a| == |b| == 2
    ensures Wanted(false, o, b) == Wanted(false, o, a)
  {
    assert a[..0] == b[..0];
  }

  // ---- How many chunks ----

  /** A value that `k` chunks can hold takes `k + 1`: the last one holds nothing. */
  lemma {:induction false} OneTooMany(n: nat, cap: nat, k: nat)
    requires cap > 0 && 0 < k && (k - 1) * cap < n <= k * cap
    ensures Needed(0, n, cap) == k + 1
  {
    hide Needed;
    NeededStep(0, n, cap);
    if k == 1 {
      NeededStep(n, n, cap);
      NeededNone(0, cap);
    } else {
      Grows(k - 1, cap);
      OneMore(k - 2, cap);
      OneMore(k - 1, cap);
      NeededStep(cap, n, cap);
      NeededStep(0, n - cap, cap);
      OneTooMany(n - cap, cap, k - 1);
    }
  }

  lemma NeededStep(room: nat, len: nat, cap: nat)
    requires cap > 0 && 0 < len && room <= len
    ensures Needed(room, len, cap) == 1 + Needed(Min(len - room, cap), len - room, cap)
  {
  }

  lemma OneMore(k: nat, cap: nat)
    ensures (k + 1) * cap == k * cap + cap
  {
  }

  lemma Grows(k: nat, cap: nat)
    requires 0 < k
    ensures k * cap >= cap
  {
  }
}
