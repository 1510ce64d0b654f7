/** The two CRC-32C implementations of crc32c.c, the table-driven one and the three-way interleaved
    one, each proved equal to the bit-at-a-time reference for every crc, buffer and alignment. */
module CrcEngine {
  import opened CrcSpec
  import opened CrcTables

  // ---- Table indices ----

  /** The low byte of a word as a table index, and back. */
  function LowByte(a: bv32): Byte { (a & 0xff) as Byte }

  function ByteIndex(b: Byte): (i: int)
    ensures 0 <= i < 256
  {
    b as int
  }

  function Index(a: bv32): (i: int)
    ensures 0 <= i < 256
  {
    ByteIndex(LowByte(a))
  }

  function Entry(n: int): bv32
    requires 0 <= n < 256
  {
    Wide(n as Byte)
  }

  lemma EntryOfByte(b: Byte)
    ensures Entry(ByteIndex(b)) == Wide(b)
  {
  }

  lemma WideLowByte(a: bv32)
    ensures Wide(LowByte(a)) == Low8(a)
  {
  }

  lemma EntryIndex(a: bv32)
    ensures Entry(Index(a)) == Low8(a)
  {
    hide LowByte, Low8, Wide, Entry, ByteIndex;
    EntryOfByte(LowByte(a));
    WideLowByte(a);
  }

  // ---- The eight byte tables ----

  /** Entry n of table k: the byte n followed by k more zero bytes. */
  ghost predicate ByteTables(t: array2<bv32>, upto: nat)
    reads t
  {
    t.Length0 == 8 && t.Length1 == 256 && upto <= 8 &&
    forall k, n :: 0 <= k < upto && 0 <= n < 256 ==> t[k, n] == Zeros(Entry(n), 8 * (k + 1))
  }

  /** A register advanced by one byte through table 0. */
  lemma ZerosByTable(c: bv32)
    ensures Zeros(c, 8) == Xor(Zeros(Low8(c), 8), Down8(c))
  {
    hide Zeros, Xor, Low8, Down8, Shl;
    HighPart(c);
    ZerosXor(Low8(c), Shl(Down8(c), 8), 8);
    FitsWord(c);
    FitsDown(c, 24);
    ZerosShl(Down8(c), 24, 8);
  }

  lemma HighPart(c: bv32)
    ensures c == Xor(Low8(c), Shl(Down8(c), 8))
  {
    hide Shl;
    ShlNone(Down8(c));
    ShlUp(Down8(c), 0);
    assert c == (c & 0xff) ^ (c >> 8 << 8);
  }

  lemma ZerosEight(c: bv32)
    ensures Zeros(c, 8) == Advance(Advance(Advance(Advance(Advance(Advance(Advance(Advance(c))))))))
  {
    hide Advance;
    assert Zeros(c, 1) == Advance(c);
    assert Zeros(c, 2) == Advance(Advance(c));
    assert Zeros(c, 4) == Advance(Advance(Zeros(c, 2)));
    assert Zeros(c, 6) == Advance(Advance(Zeros(c, 4)));
  }

  method InitByteTables(t: array2<bv32>)
    requires t.Length0 == 8 && t.Length1 == 256
    modifies t
    ensures ByteTables(t, 8)
  {
    hide Zeros, Entry, Xor, Advance, Low8, Down8, Index;
    for n := 0 to 256
      invariant forall j :: 0 <= j < n ==> t[0, j] == Zeros(Entry(j), 8)
    {
      var crc := Entry(n);
      ZerosEight(crc);
      crc := Advance(crc);
      crc := Advance(crc);
      crc := Advance(crc);
      crc := Advance(crc);
      crc := Advance(crc);
      crc := Advance(crc);
      crc := Advance(crc);
      crc := Advance(crc);
      t[0, n] := crc;
    }
    for n := 0 to 256
      invariant forall j :: 0 <= j < 256 ==> t[0, j] == Zeros(Entry(j), 8)
      invariant forall k, j :: 0 <= k < 8 && 0 <= j < n ==> t[k, j] == Zeros(Entry(j), 8 * (k + 1))
    {
      var crc := t[0, n];
      for k := 1 to 8
        invariant crc == Zeros(Entry(n), 8 * k)
        invariant forall j :: 0 <= j < 256 ==> t[0, j] == Zeros(Entry(j), 8)
        invariant forall k', j :: 0 <= k' < 8 && 0 <= j < n ==> t[k', j] == Zeros(Entry(j), 8 * (k' + 1))
        invariant forall k' :: 0 <= k' < k ==> t[k', n] == Zeros(Entry(n), 8 * (k' + 1))
      {
        EntryIndex(crc);
        ZerosByTable(crc);
        ZerosCompose(Entry(n), 8 * k, 8);
        crc := Xor(t[0, Index(crc)], Down8(crc));
        t[k, n] := crc;
      }
    }
  }

  // ---- Four and eight message bytes at a time ----

  /** The little-endian word of four message bytes. */
  function LoadWord(s: seq<Byte>): bv32
    requires |s| == 4
  {
    Bytes(Wide(s[0]), Wide(s[1]), Wide(s[2]), Wide(s[3]))
  }

  lemma DelayedByte(x: bv32, b: Byte, n: nat)
    requires n <= 24
    ensures Xor(Zeros(x, n), Wide(b)) == Zeros(Xor(x, Shl(Wide(b), n)), n)
  {
    hide Zeros, Shl, Xor, Wide;
    FitsByte(b);
    ZerosShl(Wide(b), 8, n);
    ZerosXor(x, Shl(Wide(b), n), n);
  }

  /** Four message bytes enter the register as one word. */
  lemma RegisterWord(c: bv32, s: seq<Byte>)
    requires |s| == 4
    ensures Register(c, s) == Zeros(Xor(c, LoadWord(s)), 32)
  {
    hide Zeros, Shl, Xor, Wide, Register;
    var b0, b1, b2, b3 := Wide(s[0]), Wide(s[1]), Wide(s[2]), Wide(s[3]);
    assert s == [] + [s[0]] + [s[1]] + [s[2]] + [s[3]];
    NothingRead(c);
    RegisterByte(c, [], s[0]);
    var x0 := Xor(c, b0);
    RegisterByte(c, [] + [s[0]], s[1]);
    DelayedByte(x0, s[1], 8);
    var x1 := Xor(x0, Shl(b1, 8));
    ZerosCompose(x1, 8, 8);
    RegisterByte(c, [] + [s[0]] + [s[1]], s[2]);
    DelayedByte(x1, s[2], 16);
    var x2 := Xor(x1, Shl(b2, 16));
    ZerosCompose(x2, 16, 8);
    RegisterByte(c, [] + [s[0]] + [s[1]] + [s[2]], s[3]);
    DelayedByte(x2, s[3], 24);
    var x3 := Xor(x2, Shl(b3, 24));
    ZerosCompose(x3, 24, 8);
    XorRegroup(c, b0, Shl(b1, 8), Shl(b2, 16), Shl(b3, 24));
  }

  lemma XorRegroup(c: bv32, p: bv32, q: bv32, r: bv32, s: bv32)
    ensures Xor(Xor(Xor(Xor(c, p), q), r), s) == Xor(c, Xor(Xor(p, q), Xor(r, s)))
  {
    hide Xor;
    XorAssoc(c, p, q);
    XorAssoc(c, Xor(p, q), r);
    XorAssoc(c, Xor(Xor(p, q), r), s);
    XorAssoc(Xor(p, q), r, s);
  }

  /** The four table entries for a word followed by m zero bytes. */
  function WordLookup(t0: bv32, t1: bv32, t2: bv32, t3: bv32): bv32 {
    Xor(Xor(t0, t1), Xor(t2, t3))
  }

  lemma ZerosOfBytes(b0: bv32, b1: bv32, b2: bv32, b3: bv32, m: nat)
    requires Fits(b0, 8) && Fits(b1, 8) && Fits(b2, 8) && Fits(b3, 8)
    ensures Zeros(Bytes(b0, b1, b2, b3), m + 32)
         == WordLookup(Zeros(b0, m + 32), Zeros(b1, m + 24), Zeros(b2, m + 16), Zeros(b3, m + 8))
  {
    hide Zeros, Shl, Xor, Fits;
    ZerosXor(Xor(b0, Shl(b1, 8)), Xor(Shl(b2, 16), Shl(b3, 24)), m + 32);
    ZerosXor(b0, Shl(b1, 8), m + 32);
    ZerosXor(Shl(b2, 16), Shl(b3, 24), m + 32);
    ZerosShlMore(b1, 8, 8, m + 24);
    ZerosShlMore(b2, 8, 16, m + 16);
    ZerosShlMore(b3, 8, 24, m + 8);
  }

  // ---- The 64-bit register of the software form ----

  function Up(r: bv32): bv64 { r as bv64 }
  function Down(x: bv64): bv32 { (x & 0xffffffff) as bv32 }

  /** The 64-bit value whose low and high words are given. */
  function Join(lo: bv32, hi: bv32): bv64 { (lo as bv64) | ((hi as bv64) << 32) }

  /** Eight message bytes as a little-endian 64-bit load. */
  function Load64(s: seq<Byte>): bv64
    requires |s| == 8
  {
    Join(LoadWord(s[..4]), LoadWord(s[4..]))
  }

  function Xor64(x: bv64, y: bv64): bv64 { x ^ y }

  /** The index byte of `x` at position `k`. */
  function Lane(x: bv64, k: nat): Byte
    requires k < 8
  {
    if k == 0 then (x & 0xff) as Byte
    else if k == 1 then ((x >> 8) & 0xff) as Byte
    else if k == 2 then ((x >> 16) & 0xff) as Byte
    else if k == 3 then ((x >> 24) & 0xff) as Byte
    else if k == 4 then ((x >> 32) & 0xff) as Byte
    else if k == 5 then ((x >> 40) & 0xff) as Byte
    else if k == 6 then ((x >> 48) & 0xff) as Byte
    else (x >> 56) as Byte
  }

  /** The byte step of the table form: `e` is the looked-up entry. */
  function TableStep(e: bv32, crc: bv64): bv64 { (e as bv64) ^ (crc >> 8) }
  function TableIndex(crc: bv64, b: Byte): Byte { ((crc ^ (b as bv64)) & 0xff) as Byte }

  lemma TableStepDown(e: bv32, r: bv32, b: Byte)
    ensures TableStep(e, Up(r)) == Up(Xor(e, Down8(r)))
    ensures TableIndex(Up(r), b) == LowByte(Xor(r, Wide(b)))
    ensures Down8(Xor(r, Wide(b))) == Down8(r)
  {
  }

  lemma XorJoin(r: bv32, lo: bv32, hi: bv32)
    ensures Xor64(Up(r), Join(lo, hi)) == Join(Xor(r, lo), hi)
  {
    assert (r as bv64) ^ ((lo as bv64) | ((hi as bv64) << 32)) == ((r ^ lo) as bv64) | ((hi as bv64) << 32);
  }

  lemma LowLanes(lo: bv32, hi: bv32)
    ensures Lane(Join(lo, hi), 0) == LowByte(lo)
    ensures Lane(Join(lo, hi), 1) == LowByte(Down8(lo))
    ensures Lane(Join(lo, hi), 2) == LowByte(Down8(Down8(lo)))
    ensures Lane(Join(lo, hi), 3) == LowByte(Down8(Down8(Down8(lo))))
  {
  }

  lemma HighLanes(lo: bv32, hi: bv32)
    ensures Lane(Join(lo, hi), 4) == LowByte(hi)
    ensures Lane(Join(lo, hi), 5) == LowByte(Down8(hi))
    ensures Lane(Join(lo, hi), 6) == LowByte(Down8(Down8(hi)))
    ensures Lane(Join(lo, hi), 7) == LowByte(Down8(Down8(Down8(hi))))
  {
  }

  /** Zeros applied to a word, through the entries of its four bytes. */
  lemma ZerosByLanes(v: bv32, m: nat)
    ensures var v1 := Down8(v); var v2 := Down8(v1); var v3 := Down8(v2);
            Zeros(v, m + 32) == WordLookup(Zeros(Wide(LowByte(v)), m + 32), Zeros(Wide(LowByte(v1)), m + 24),
                                           Zeros(Wide(LowByte(v2)), m + 16), Zeros(Wide(LowByte(v3)), m + 8))
  {
    hide *;
    var v1 := Down8(v);
    var v2 := Down8(v1);
    var v3 := Down8(v2);
    WordIsBytes(v);
    WideLowByte(v);
    WideLowByte(v1);
    WideLowByte(v2);
    WideLowByte(v3);
    FitsByte(LowByte(v));
    FitsByte(LowByte(v1));
    FitsByte(LowByte(v2));
    FitsByte(LowByte(v3));
    ZerosOfBytes(Low8(v), Low8(v1), Low8(v2), Low8(v3), m);
  }

  /** Eight message bytes through the eight tables. */
  lemma RegisterLanes(r: bv32, s: seq<Byte>)
    requires |s| == 8
    ensures var x := Xor64(Up(r), Load64(s));
            Register(r, s) == Xor(WordLookup(Zeros(Wide(Lane(x, 0)), 64), Zeros(Wide(Lane(x, 1)), 56),
                                             Zeros(Wide(Lane(x, 2)), 48), Zeros(Wide(Lane(x, 3)), 40)),
                                  WordLookup(Zeros(Wide(Lane(x, 4)), 32), Zeros(Wide(Lane(x, 5)), 24),
                                             Zeros(Wide(Lane(x, 6)), 16), Zeros(Wide(Lane(x, 7)), 8)))
  {
    hide Zeros, Xor, WordLookup, Wide, Lane, LoadWord, Register, Join, Xor64, LowByte, Down8, Up;
    var lo, hi := LoadWord(s[..4]), LoadWord(s[4..]);
    var w := Xor(r, lo);
    XorJoin(r, lo, hi);
    LowLanes(w, hi);
    HighLanes(w, hi);
    ZerosByLanes(w, 32);
    ZerosByLanes(hi, 0);
    assert s == s[..4] + s[4..];
    RegisterConcat(r, s[..4], s[4..]);
    RegisterWord(r, s[..4]);
    RegisterWord(Zeros(w, 32), s[4..]);
    ZerosXor(Zeros(w, 32), hi, 32);
    ZerosCompose(w, 32, 32);
  }

  // ---- crc32c_sw ----

  /** The result of the eight lookups, in the order the code folds them. */
  function Fold8(t7: bv32, t6: bv32, t5: bv32, t4: bv32, t3: bv32, t2: bv32, t1: bv32, t0: bv32): bv32 {
    Xor(Xor(Xor(Xor(Xor(Xor(Xor(t7, t6), t5), t4), t3), t2), t1), t0)
  }

  lemma Fold8ByWords(t7: bv32, t6: bv32, t5: bv32, t4: bv32, t3: bv32, t2: bv32, t1: bv32, t0: bv32)
    ensures Fold8(t7, t6, t5, t4, t3, t2, t1, t0) == Xor(WordLookup(t7, t6, t5, t4), WordLookup(t3, t2, t1, t0))
  {
    hide Xor;
    XorAssoc(Xor(t7, t6), t5, t4);
    XorRegroup(Xor(Xor(Xor(t7, t6), t5), t4), t3, t2, t1, t0);
  }

  method StepByTable(t: array2<bv32>, crc: bv64, b: Byte, ghost r: bv32) returns (crc': bv64)
    requires ByteTables(t, 8) && crc == Up(r)
    ensures crc' == Up(Zeros(Xor(r, Wide(b)), 8))
  {
    hide Zeros, Xor, Wide, TableIndex, TableStep, Up, Down8, Low8, Entry, LowByte, ByteIndex;
    crc' := TableStep(t[0, ByteIndex(TableIndex(crc, b))], crc);
    var x := Xor(r, Wide(b));
    ZerosByTable(x);
    EntryIndex(x);
    TableStepDown(Zeros(Low8(x), 8), r, b);
  }

  method StepEightByTables(t: array2<bv32>, crc: bv64, s: seq<Byte>, ghost r: bv32) returns (crc': bv64)
    requires ByteTables(t, 8) && crc == Up(r) && |s| == 8
    ensures crc' == Up(Register(r, s))
  {
    hide Zeros, Xor, Wide, Up, Entry, Lane, Load64, Xor64, Register, ByteIndex, WordLookup, Fold8;
    var x := Xor64(crc, Load64(s));
    crc' := Up(Fold8(t[7, ByteIndex(Lane(x, 0))], t[6, ByteIndex(Lane(x, 1))],
                     t[5, ByteIndex(Lane(x, 2))], t[4, ByteIndex(Lane(x, 3))],
                     t[3, ByteIndex(Lane(x, 4))], t[2, ByteIndex(Lane(x, 5))],
                     t[1, ByteIndex(Lane(x, 6))], t[0, ByteIndex(Lane(x, 7))]));
    RegisterLanes(r, s);
    forall k | 0 <= k < 8
      ensures t[7 - k, ByteIndex(Lane(x, k))] == Zeros(Wide(Lane(x, k)), 8 * (8 - k))
    {
      EntryOfByte(Lane(x, k));
    }
    Fold8ByWords(t[7, ByteIndex(Lane(x, 0))], t[6, ByteIndex(Lane(x, 1))],
                 t[5, ByteIndex(Lane(x, 2))], t[4, ByteIndex(Lane(x, 3))],
                 t[3, ByteIndex(Lane(x, 4))], t[2, ByteIndex(Lane(x, 5))],
                 t[1, ByteIndex(Lane(x, 6))], t[0, ByteIndex(Lane(x, 7))]);
  }

  /** The register over one more piece of a buffer. */
  lemma RegisterSlice(c: bv32, buf: seq<Byte>, i: nat, j: nat)
    requires i <= j <= |buf|
    ensures Register(c, buf[..j]) == Register(Register(c, buf[..i]), buf[i..j])
  {
    hide Register;
    assert buf[..j] == buf[..i] + buf[i..j];
    RegisterConcat(c, buf[..i], buf[i..j]);
  }

  lemma RegisterSliceByte(c: bv32, buf: seq<Byte>, i: nat)
    requires i < |buf|
    ensures Register(c, buf[..i + 1]) == Zeros(Xor(Register(c, buf[..i]), Wide(buf[i])), 8)
  {
    hide Register, Zeros, Xor, Wide;
    assert buf[..i + 1] == buf[..i] + [buf[i]];
    RegisterByte(c, buf[..i], buf[i]);
  }

  /** crc32c_sw: bytes up to an eight-byte boundary, then quadwords, then the tail.  The buffer sits at
      address `addr`. */
  method Software(t: array2<bv32>, crci: bv32, buf: seq<Byte>, addr: nat) returns (result: bv32)
    requires ByteTables(t, 8)
    ensures result == Crc32c(crci, buf)
  {
    hide Register, Zeros, Xor, Wide, Up, Down;
    ghost var c := Xor(crci, ONES);
    var crc := Up(Xor(crci, ONES));
    var next: nat, len: nat := 0, |buf|;
    NothingRead(c);
    while len != 0 && (addr + next) % 8 != 0
      invariant next + len == |buf| && crc == Up(Register(c, buf[..next]))
    {
      RegisterSliceByte(c, buf, next);
      crc := StepByTable(t, crc, buf[next], Register(c, buf[..next]));
      next, len := next + 1, len - 1;
    }
    while len >= 8
      invariant next + len == |buf| && crc == Up(Register(c, buf[..next]))
    {
      RegisterSlice(c, buf, next, next + 8);
      crc := StepEightByTables(t, crc, buf[next..next + 8], Register(c, buf[..next]));
      next, len := next + 8, len - 8;
    }
    while len != 0
      invariant next + len == |buf| && crc == Up(Register(c, buf[..next]))
    {
      RegisterSliceByte(c, buf, next);
      crc := StepByTable(t, crc, buf[next], Register(c, buf[..next]));
      next, len := next + 1, len - 1;
    }
    assert buf[..next] == buf;
    DownUp(Register(c, buf));
    result := Xor(Down(crc), ONES);
  }

  lemma DownUp(r: bv32)
    ensures Down(Up(r)) == r
  {
  }

  // ---- Shifting a register over a block of zeros ----

  ghost predicate ShiftTables(t: array2<bv32>, n: nat)
    reads t
  {
    t.Length0 == 4 && t.Length1 == 256 &&
    forall j, i :: 0 <= j < 4 && 0 <= i < 256 ==> t[j, i] == Zeros(Shl(Entry(i), 8 * j), n)
  }

  /** crc32c_zeros: tables for the operator of the largest power of two of zero bytes not above `len`. */
  method InitShiftTables(t: array2<bv32>, len: nat)
    requires t.Length0 == 4 && t.Length1 == 256
    modifies t
    ensures ShiftTables(t, 8 * PowerBelow(len))
  {
    hide Zeros, Shl, Entry, PowerBelow, MatTimes, Fits;
    var op := new bv32[32];
    ZerosOp(op, len);
    ghost var n := 8 * PowerBelow(len);
    for i := 0 to 256
      invariant IsZerosOp(op[..], n)
      invariant forall j, k :: 0 <= j < 4 && 0 <= k < i ==> t[j, k] == Zeros(Shl(Entry(k), 8 * j), n)
    {
      for j := 0 to 4
        invariant IsZerosOp(op[..], n)
        invariant forall j', k :: 0 <= j' < 4 && 0 <= k < i ==> t[j', k] == Zeros(Shl(Entry(k), 8 * j'), n)
        invariant forall j' :: 0 <= j' < j ==> t[j', i] == Zeros(Shl(Entry(i), 8 * j'), n)
      {
        MatTimesIsZeros(op[..], n, Shl(Entry(i), 8 * j));
        t[j, i] := MatrixTimes(op, Shl(Entry(i), 8 * j));
      }
    }
  }

  /** crc32c_shift. */
  function Shift(zeros: array2<bv32>, crc: bv32): bv32
    requires zeros.Length0 == 4 && zeros.Length1 == 256
    reads zeros
  {
    Xor(Xor(Xor(zeros[0, Index(crc)], zeros[1, Index(Down8(crc))]),
            zeros[2, Index(Down8(Down8(crc)))]), zeros[3, Index(Down8(Down8(Down8(crc))))])
  }

  lemma ShiftIsZeros(t: array2<bv32>, n: nat, crc: bv32)
    requires ShiftTables(t, n)
    ensures Shift(t, crc) == Zeros(crc, n)
  {
    hide Zeros, Shl, Entry, Xor, Index, Down8, Low8;
    var v1, v2, v3 := Down8(crc), Down8(Down8(crc)), Down8(Down8(Down8(crc)));
    EntryIndex(crc);
    EntryIndex(v1);
    EntryIndex(v2);
    EntryIndex(v3);
    WordIsBytes(crc);
    var p, q, r, s := Low8(crc), Shl(Low8(v1), 8), Shl(Low8(v2), 16), Shl(Low8(v3), 24);
    ShlNone(p);
    ZerosXor(Xor(p, q), Xor(r, s), n);
    ZerosXor(p, q, n);
    ZerosXor(r, s, n);
    XorAssoc(Xor(Zeros(p, n), Zeros(q, n)), Zeros(r, n), Zeros(s, n));
  }

  // ---- crc32c_hw ----

  /** The crc32b and crc32q instructions: one and eight message bytes enter the register. */
  function Crc32b(c: bv32, b: Byte): bv32 { Register(c, [b]) }

  function Crc32q(c: bv32, s: seq<Byte>): bv32
    requires |s| == 8
  {
    Register(c, s)
  }

  const LONG := 8192
  const SHORT := 256

  /** Joining a partial register onto what precedes it. */
  lemma RegisterJoin(t: array2<bv32>, c: bv32, s: seq<Byte>)
    requires ShiftTables(t, 8 * |s|)
    ensures Xor(Shift(t, c), Register(0, s)) == Register(c, s)
  {
    hide Zeros, Xor, Shift, Register;
    ShiftIsZeros(t, 8 * |s|, c);
    RegisterAffine(c, s);
  }

  lemma SliceSlice(buf: seq<Byte>, at: nat, n: nat, k: nat)
    requires at + n <= |buf| && k + 8 <= n
    ensures buf[at..at + n][k..k + 8] == buf[at + k..at + k + 8]
  {
    var l, r := buf[at..at + n][k..k + 8], buf[at + k..at + k + 8];
    assert |l| == |r| && forall i :: 0 <= i < 8 ==> l[i] == buf[at + k + i] == r[i];
  }

  /** Three adjacent blocks fed to three registers in lockstep, then recombined. */
  method ThreeWay(t: array2<bv32>, c: bv32, buf: seq<Byte>, start: nat, block: nat) returns (crc0: bv32)
    requires block > 0 && block % 8 == 0 && start + 3 * block <= |buf|
    requires ShiftTables(t, 8 * block)
    ensures crc0 == Register(c, buf[start..start + 3 * block])
  {
    hide Register, Zeros, Xor, Shift;
    crc0 := c;
    var crc1: bv32, crc2: bv32 := 0, 0;
    var next, end := start, start + block;
    NothingRead(c);
    NothingRead(0);
    ghost var a, b, d :=
      buf[start..start + block], buf[start + block..start + 2 * block], buf[start + 2 * block..start + 3 * block];
    while next < end
      invariant start <= next <= end && (end - next) % 8 == 0
      invariant crc0 == Register(c, a[..next - start])
      invariant crc1 == Register(0, b[..next - start])
      invariant crc2 == Register(0, d[..next - start])
    {
      var k := next - start;
      RegisterSlice(c, a, k, k + 8);
      RegisterSlice(0, b, k, k + 8);
      RegisterSlice(0, d, k, k + 8);
      SliceSlice(buf, start, block, k);
      SliceSlice(buf, start + block, block, k);
      SliceSlice(buf, start + 2 * block, block, k);
      crc0 := Crc32q(crc0, buf[next..next + 8]);
      crc1 := Crc32q(crc1, buf[next + block..next + block + 8]);
      crc2 := Crc32q(crc2, buf[next + 2 * block..next + 2 * block + 8]);
      next := next + 8;
    }
    assert a[..block] == a && b[..block] == b && d[..block] == d;
    RegisterJoin(t, crc0, b);
    crc0 := Xor(Shift(t, crc0), crc1);
    RegisterJoin(t, crc0, d);
    crc0 := Xor(Shift(t, crc0), crc2);
    RegisterConcat(c, a, b);
    RegisterConcat(c, a + b, d);
    assert buf[start..start + 3 * block] == a + b + d;
  }

  /** Bytes up to an eight-byte boundary. */
  method Unaligned(c: bv32, buf: seq<Byte>, addr: nat) returns (crc0: bv32, next: nat)
    ensures next <= |buf| && crc0 == Register(c, buf[..next]) && (next == |buf| || (addr + next) % 8 == 0)
  {
    hide Register;
    crc0, next := c, 0;
    NothingRead(c);
    while next < |buf| && (addr + next) % 8 != 0
      invariant next <= |buf| && crc0 == Register(c, buf[..next])
    {
      crc0 := OneByte(c, crc0, buf, next);
      next := next + 1;
    }
  }

  method OneByte(ghost c: bv32, crc0: bv32, buf: seq<Byte>, next: nat) returns (crc': bv32)
    requires next < |buf| && crc0 == Register(c, buf[..next])
    ensures crc' == Register(c, buf[..next + 1])
  {
    hide Register;
    RegisterSlice(c, buf, next, next + 1);
    assert buf[next..next + 1] == [buf[next]];
    crc' := Crc32b(crc0, buf[next]);
  }

  /** As many three-way blocks as there are. */
  method Blocks(t: array2<bv32>, ghost c: bv32, crc: bv32, buf: seq<Byte>, from: nat, block: nat)
    returns (crc0: bv32, next: nat)
    requires block > 0 && block % 8 == 0 && ShiftTables(t, 8 * block)
    requires from <= |buf| && crc == Register(c, buf[..from])
    ensures from <= next <= |buf| && |buf| - next < 3 * block && crc0 == Register(c, buf[..next])
  {
    hide Register, ShiftTables;
    crc0, next := crc, from;
    while |buf| - next >= 3 * block
      invariant from <= next <= |buf| && crc0 == Register(c, buf[..next])
      decreases |buf| - next
    {
      RegisterSlice(c, buf, next, next + 3 * block);
      crc0 := ThreeWay(t, crc0, buf, next, block);
      next := next + 3 * block;
    }
  }

  /** The remaining quadwords, then the remaining bytes. */
  method Rest(ghost c: bv32, crc: bv32, buf: seq<Byte>, from: nat) returns (crc0: bv32)
    requires from <= |buf| && crc == Register(c, buf[..from])
    ensures crc0 == Register(c, buf)
  {
    hide Register;
    crc0 := crc;
    var next: nat, len: nat := from, |buf| - from;
    var end := next + (len - len % 8);
    while next < end
      invariant next <= end && (end - next) % 8 == 0 && crc0 == Register(c, buf[..next])
    {
      RegisterSlice(c, buf, next, next + 8);
      crc0 := Crc32q(crc0, buf[next..next + 8]);
      next := next + 8;
    }
    len := len % 8;
    while len != 0
      invariant next + len == |buf| && crc0 == Register(c, buf[..next])
    {
      crc0 := OneByte(c, crc0, buf, next);
      next, len := next + 1, len - 1;
    }
    assert buf[..next] == buf;
  }

  /** crc32c_hw: bytes up to an eight-byte boundary, long and short three-way blocks, quadwords, tail. */
  method Hardware(long: array2<bv32>, short: array2<bv32>, crc: bv32, buf: seq<Byte>, addr: nat) returns (result: bv32)
    requires ShiftTables(long, 8 * LONG) && ShiftTables(short, 8 * SHORT)
    ensures result == Crc32c(crc, buf)
  {
    hide Register, Xor, ShiftTables;
    var c := Xor(crc, ONES);
    var crc0, next := Unaligned(c, buf, addr);
    crc0, next := Blocks(long, c, crc0, buf, next, LONG);
    crc0, next := Blocks(short, c, crc0, buf, next, SHORT);
    crc0 := Rest(c, crc0, buf, next);
    result := Xor(crc0, ONES);
  }

  // ---- The engine: tables built on first use, implementation chosen by the processor ----

  class Engine {
    const byteTables: array2<bv32>
    const long: array2<bv32>
    const short: array2<bv32>
    const sse42: bool
    var onceSw: bool
    var onceHw: bool

    ghost predicate Valid()
      reads this, byteTables, long, short
    {
      && byteTables.Length0 == 8 && byteTables.Length1 == 256
      && long.Length0 == 4 && long.Length1 == 256 && short.Length0 == 4 && short.Length1 == 256
      && byteTables != long && byteTables != short && long != short
      && (onceSw ==> ByteTables(byteTables, 8))
      && (onceHw ==> ShiftTables(long, 8 * LONG) && ShiftTables(short, 8 * SHORT))
    }

    constructor (sse42: bool)
      ensures Valid() && fresh(byteTables) && fresh(long) && fresh(short) && this.sse42 == sse42
    {
      this.sse42 := sse42;
      byteTables := new bv32[8, 256];
      long := new bv32[4, 256];
      short := new bv32[4, 256];
      onceSw, onceHw := false, false;
    }

    /** The dispatched entry point: whatever the processor, CRC-32C of the buffer. */
    method Crc(crc: bv32, buf: seq<Byte>, addr: nat) returns (result: bv32)
      requires Valid()
      modifies this, byteTables, long, short
      ensures Valid()
      ensures result == Crc32c(crc, buf)
    {
      hide Register, Zeros, Crc32c;
      if sse42 {
        if !onceHw {
          InitShiftTables(long, LONG);
          InitShiftTables(short, SHORT);
          BlockSizes();
          onceHw := true;
        }
        result := Hardware(long, short, crc, buf, addr);
      } else {
        if !onceSw {
          InitByteTables(byteTables);
          onceSw := true;
        }
        result := Software(byteTables, crc, buf, addr);
      }
    }
  }

  lemma BlockSizes()
    ensures PowerBelow(LONG) == LONG && PowerBelow(SHORT) == SHORT
  {
    assert PowerBelow(16) == 16;
    assert PowerBelow(128) == 128;
    assert PowerBelow(1024) == 1024;
  }
}
