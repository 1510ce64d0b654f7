/** The hash of a key on a little-endian machine: read by words, by half-words or by bytes, depending on how the key
    lies in memory, and always the same. */
module Jenkins {
  type Byte = bv8
  type Word = bv32

  function Add(x: Word, y: Word): Word { x + y }
  function Sub(x: Word, y: Word): Word { x - y }
  function Xor(x: Word, y: Word): Word { x ^ y }
  function Rot(x: Word, k: nat): Word
    requires 0 < k < 32
  {
    (x << k) ^ (x >> (32 - k))
  }

  lemma AddSub(x: Word, y: Word)
    ensures Sub(Add(x, y), y) == x && Add(Sub(x, y), y) == x
  {
    calc {
      Sub(Add(x, y), y);
      Sub(x + y, y);
      x + y - y;
      x;
    }
    calc {
      Add(Sub(x, y), y);
      Add(x - y, y);
      x - y + y;
      x;
    }
  }

  lemma XorXor(x: Word, y: Word)
    ensures Xor(Xor(x, y), y) == x
  {
  }

  lemma AddZero(x: Word)
    ensures Add(x, 0) == x
  {
  }

  // ---- Mixing ----

  datatype Regs = Regs(a: Word, b: Word, c: Word)

  /** One line of the mix, on the registers in the roles it gives them. */
  function Line(r: Regs, k: nat): Regs
    requires 0 < k < 32
  {
    Regs(Xor(Sub(r.a, r.c), Rot(r.c, k)), r.b, Add(r.c, r.b))
  }

  function Unline(r: Regs, k: nat): Regs
    requires 0 < k < 32
  {
    var c := Sub(r.c, r.b);
    Regs(Add(Xor(r.a, Rot(c, k)), c), r.b, c)
  }

  // Each line has the registers one place further on.
  function Turn(r: Regs): Regs { Regs(r.b, r.c, r.a) }
  function Back(r: Regs): Regs { Regs(r.c, r.a, r.b) }

  lemma UnlineLine(r: Regs, k: nat)
    requires 0 < k < 32
    ensures Unline(Line(r, k), k) == r && Line(Unline(r, k), k) == r
  {
    hide Add, Sub, Xor, Rot;
    var c, c' := Add(r.c, r.b), Sub(r.c, r.b);
    AddSub(r.c, r.b);
    AddSub(r.a, r.c);
    XorXor(Sub(r.a, r.c), Rot(r.c, k));
    XorXor(r.a, Rot(c', k));
    AddSub(Xor(r.a, Rot(c', k)), c');
  }

  /** mix. */
  function Mix(r: Regs): Regs {
    Turn(Line(Turn(Line(Turn(Line(Turn(Line(Turn(Line(Turn(Line(r, 4)), 6)), 8)), 16)), 19)), 4))
  }

  function Unmix(r: Regs): Regs {
    Unline(Back(Unline(Back(Unline(Back(Unline(Back(Unline(Back(Unline(Back(r), 4)), 19)), 16)), 8)), 6)), 4)
  }

  lemma TurnBack(r: Regs)
    ensures Back(Turn(r)) == r && Turn(Back(r)) == r
  {
  }

  /** The mix loses nothing: it can be undone, and everything is the mix of something. */
  lemma MixReversible(r: Regs)
    ensures Unmix(Mix(r)) == r && Mix(Unmix(r)) == r
  {
    hide Line, Unline, Turn, Back;
    var r1 := Line(r, 4);
    var r2 := Line(Turn(r1), 6);
    var r3 := Line(Turn(r2), 8);
    var r4 := Line(Turn(r3), 16);
    var r5 := Line(Turn(r4), 19);
    var r6 := Line(Turn(r5), 4);
    TurnBack(r1); TurnBack(r2); TurnBack(r3); TurnBack(r4); TurnBack(r5); TurnBack(r6);
    UnlineLine(r, 4); UnlineLine(Turn(r1), 6); UnlineLine(Turn(r2), 8); UnlineLine(Turn(r3), 16); UnlineLine(Turn(r4),
      19); UnlineLine(Turn(r5), 4);
    var u1 := Unline(Back(r), 4);
    var u2 := Unline(Back(u1), 19);
    var u3 := Unline(Back(u2), 16);
    var u4 := Unline(Back(u3), 8);
    var u5 := Unline(Back(u4), 6);
    TurnBack(r); TurnBack(u1); TurnBack(u2); TurnBack(u3); TurnBack(u4); TurnBack(u5);
    UnlineLine(Back(r), 4); UnlineLine(Back(u1), 19); UnlineLine(Back(u2), 16); UnlineLine(Back(u3),
      8); UnlineLine(Back(u4), 6); UnlineLine(Back(u5), 4);
  }

  // ---- Words from bytes ----

  function Wide(b: Byte): Word { b as Word }
  function Second(b: Byte): Word { (b as Word) << 8 }
  function Third(b: Byte): Word { (b as Word) << 16 }
  function Fourth(b: Byte): Word { (b as Word) << 24 }
  function And(x: Word, y: Word): Word { x & y }
  function High(x: Word): Word { x << 16 }

  /** The word, and the half-word, that bytes make on a little-endian machine. */
  function Le32(b0: Byte, b1: Byte, b2: Byte, b3: Byte): Word {
    (b0 as Word) | ((b1 as Word) << 8) | ((b2 as Word) << 16) | ((b3 as Word) << 24)
  }

  function Le16(b0: Byte, b1: Byte): Word { (b0 as Word) | ((b1 as Word) << 8) }

  lemma Mask3(b0: Byte, b1: Byte, b2: Byte, b3: Byte)
    ensures And(Le32(b0, b1, b2, b3), 0xffffff) == Le32(b0, b1, b2, 0)
  {
  }

  lemma Mask2(b0: Byte, b1: Byte, b2: Byte, b3: Byte)
    ensures And(Le32(b0, b1, b2, b3), 0xffff) == Le32(b0, b1, 0, 0)
  {
  }

  lemma Mask1(b0: Byte, b1: Byte, b2: Byte, b3: Byte)
    ensures And(Le32(b0, b1, b2, b3), 0xff) == Le32(b0, 0, 0, 0)
  {
  }

  lemma TwoHalves(b0: Byte, b1: Byte, b2: Byte, b3: Byte)
    ensures Add(Le16(b0, b1), High(Le16(b2, b3))) == Le32(b0, b1, b2, b3)
  {
  }

  lemma Short(b0: Byte, b1: Byte)
    ensures Le16(b0, b1) == Le32(b0, b1, 0, 0) && Wide(b0) == Le32(b0, 0, 0, 0) && Le32(0, 0, 0, 0) == 0
  {
  }

  lemma TwoBytes(b0: Byte, b1: Byte)
    ensures Add(Wide(b0), Second(b1)) == Le32(b0, b1, 0, 0)
  {
  }

  lemma ThreeBytes(b0: Byte, b1: Byte, b2: Byte)
    ensures Add(Le32(b0, b1, 0, 0), Third(b2)) == Le32(b0, b1, b2, 0)
  {
  }

  lemma FourBytes(b0: Byte, b1: Byte, b2: Byte, b3: Byte)
    ensures Add(Le32(b0, b1, b2, 0), Fourth(b3)) == Le32(b0, b1, b2, b3)
  {
  }

  lemma Assoc(x: Word, y: Word, z: Word)
    ensures Add(Add(x, y), z) == Add(x, Add(y, z)) && Add(y, z) == Add(z, y)
  {
    calc {
      Add(Add(x, y), z);
      Add(x + y, z);
      x + y + z;
      x + (y + z);
      Add(x, y + z);
      Add(x, Add(y, z));
    }
    calc {
      Add(y, z);
      y + z;
      z + y;
      Add(z, y);
    }
  }

  /** Bytes added one after the other, from the lowest or from the highest, add the word they make. */
  lemma AddBytes(x: Word, b0: Byte, b1: Byte, b2: Byte, b3: Byte)
    ensures Add(Add(Add(Add(x, Wide(b0)), Second(b1)), Third(b2)), Fourth(b3)) == Add(x, Le32(b0, b1, b2, b3))
    ensures Add(Add(Add(Add(x, Fourth(b3)), Third(b2)), Second(b1)), Wide(b0)) == Add(x, Le32(b0, b1, b2, b3))
  {
    hide *;
    TwoBytes(b0, b1);
    ThreeBytes(b0, b1, b2);
    FourBytes(b0, b1, b2, b3);
    Assoc(x, Wide(b0), Second(b1));
    Assoc(x, Le32(b0, b1, 0, 0), Third(b2));
    Assoc(x, Le32(b0, b1, b2, 0), Fourth(b3));
    Assoc(Add(Add(x, Fourth(b3)), Third(b2)), Second(b1), Wide(b0));
    Assoc(Add(x, Fourth(b3)), Third(b2), Le32(b0, b1, 0, 0));
    Assoc(x, Fourth(b3), Le32(b0, b1, b2, 0));
  }

  lemma AddThree(x: Word, b0: Byte, b1: Byte, b2: Byte)
    ensures Add(Add(Add(x, Third(b2)), Second(b1)), Wide(b0)) == Add(x, Le32(b0, b1, b2, 0))
    ensures Add(Add(x, Third(b2)), Le16(b0, b1)) == Add(x, Le32(b0, b1, b2, 0))
    ensures Add(Add(x, Second(b1)), Wide(b0)) == Add(x, Le32(b0, b1, 0, 0))
  {
    Short(b0, b1);
    hide *;
    TwoBytes(b0, b1);
    ThreeBytes(b0, b1, b2);
    Assoc(Add(x, Third(b2)), Second(b1), Wide(b0));
    Assoc(x, Third(b2), Le32(b0, b1, 0, 0));
    Assoc(x, Second(b1), Wide(b0));
  }

  // ---- What the hash is ----

  function At(s: seq<Byte>, i: nat): Byte { if i < |s| then s[i] else 0 }

  /** The four bytes from `i` on as a word, with zeros past the end. */
  function W(s: seq<Byte>, i: nat): Word { Le32(At(s, i), At(s, i + 1), At(s, i + 2), At(s, i + 3)) }

  function Absorb(r: Regs, s: seq<Byte>): Regs { Regs(Add(r.a, W(s, 0)), Add(r.b, W(s, 4)), Add(r.c, W(s, 8))) }

  /** final. */
  function Final(r: Regs): Word {
    var c1 := Sub(Xor(r.c, r.b), Rot(r.b, 14));
    var a1 := Sub(Xor(r.a, c1), Rot(c1, 11));
    var b1 := Sub(Xor(r.b, a1), Rot(a1, 25));
    var c2 := Sub(Xor(c1, b1), Rot(b1, 16));
    var a2 := Sub(Xor(a1, c2), Rot(c2, 4));
    var b2 := Sub(Xor(b1, a2), Rot(a2, 14));
    Sub(Xor(c2, b2), Rot(b2, 24))
  }

  /** Twelve bytes at a time while there are more; an empty rest needs no mixing. */
  function DigestFrom(r: Regs, s: seq<Byte>): Word
    decreases |s|
  {
    if |s| > 12 then DigestFrom(Mix(Absorb(r, s)), s[12..])
    else if |s| == 0 then r.c
    else Final(Absorb(r, s))
  }

  // The length enters as a 32-bit word.
  function Seed(length: nat): Word { 0xdeadbeef + ((length % 0x1_0000_0000) as Word) }

  function Digest(key: seq<Byte>): Word { DigestFrom(Regs(Seed(|key|), Seed(|key|), Seed(|key|)), key) }

  // ---- The three ways to read ----

  function Read32(mem: seq<Byte>, p: nat): Word
    requires p + 4 <= |mem|
  {
    Le32(mem[p], mem[p + 1], mem[p + 2], mem[p + 3])
  }

  function Read16(mem: seq<Byte>, p: nat): Word
    requires p + 2 <= |mem|
  {
    Le16(mem[p], mem[p + 1])
  }

  /** What the last switch adds to one register, by words, when `k` bytes of the key are left for it: the word is
      read whole and what lies past the key masked off. */
  function ByWord(x: Word, mem: seq<Byte>, p: nat, k: int): Word
    requires k > 0 ==> p + 4 <= |mem|
  {
    if k >= 4 then Add(x, Read32(mem, p))
    else if k == 3 then Add(x, And(Read32(mem, p), 0xffffff))
    else if k == 2 then Add(x, And(Read32(mem, p), 0xffff))
    else if k == 1 then Add(x, And(Read32(mem, p), 0xff))
    else x
  }

  function ByHalf(x: Word, mem: seq<Byte>, p: nat, k: int): Word
    requires k > 0 ==> p + (if k < 4 then k else 4) <= |mem|
  {
    if k >= 4 then Add(x, Add(Read16(mem, p), High(Read16(mem, p + 2))))
    else if k == 3 then Add(Add(x, Third(mem[p + 2])), Read16(mem, p))
    else if k == 2 then Add(x, Read16(mem, p))
    else if k == 1 then Add(x, Wide(mem[p]))
    else x
  }

  function ByByte(x: Word, mem: seq<Byte>, p: nat, k: int): Word
    requires k > 0 ==> p + (if k < 4 then k else 4) <= |mem|
  {
    if k >= 4 then Add(Add(Add(Add(x, Fourth(mem[p + 3])), Third(mem[p + 2])), Second(mem[p + 1])), Wide(mem[p]))
    else if k == 3 then Add(Add(Add(x, Third(mem[p + 2])), Second(mem[p + 1])), Wide(mem[p]))
    else if k == 2 then Add(Add(x, Second(mem[p + 1])), Wide(mem[p]))
    else if k == 1 then Add(x, Wide(mem[p]))
    else x
  }

  /** All three add the same word, and it is made of the key's bytes only. */
  lemma WordIs(x: Word, mem: seq<Byte>, p: nat, n: nat, i: nat)
    requires p + n <= |mem| && (i < n ==> p + i + 4 <= |mem|)
    ensures ByWord(x, mem, p + i, n - i) == Add(x, W(mem[p..p + n], i))
  {
    var s := mem[p..p + n];
    hide Add, And, Le32;
    if i < n {
      var b0, b1, b2, b3 := mem[p + i], mem[p + i + 1], mem[p + i + 2], mem[p + i + 3];
      Mask1(b0, b1, b2, b3);
      Mask2(b0, b1, b2, b3);
      Mask3(b0, b1, b2, b3);
    } else {
      AddZero(x);
      Short(0, 0);
    }
  }

  lemma HalfIs(x: Word, mem: seq<Byte>, p: nat, n: nat, i: nat)
    requires p + n <= |mem|
    ensures ByHalf(x, mem, p + i, n - i) == Add(x, W(mem[p..p + n], i))
  {
    var s := mem[p..p + n];
    var b0, b1, b2, b3 := At(s, i), At(s, i + 1), At(s, i + 2), At(s, i + 3);
    hide Add, Le16, Le32, Wide, Second, Third, High;
    AddZero(x);
    Short(b0, b1);
    AddThree(x, b0, b1, b2);
    TwoHalves(b0, b1, b2, b3);
  }

  lemma ByteIs(x: Word, mem: seq<Byte>, p: nat, n: nat, i: nat)
    requires p + n <= |mem|
    ensures ByByte(x, mem, p + i, n - i) == Add(x, W(mem[p..p + n], i))
  {
    var s := mem[p..p + n];
    var b0, b1, b2, b3 := At(s, i), At(s, i + 1), At(s, i + 2), At(s, i + 3);
    hide Add, Le16, Le32, Wide, Second, Third, Fourth;
    AddZero(x);
    Short(b0, b1);
    AddThree(x, b0, b1, b2);
    AddBytes(x, b0, b1, b2, b3);
  }

  /** One round on the twelve bytes at `p`. */
  lemma Round(r: Regs, r': Regs, mem: seq<Byte>, p: nat, n: nat)
    requires 12 < n && p + n <= |mem| && r' == Absorb(r, mem[p..p + n])
    ensures DigestFrom(r, mem[p..p + n]) == DigestFrom(Mix(r'), mem[p + 12..p + n])
  {
    hide Mix, Absorb, Final;
    assert mem[p..p + n][12..] == mem[p + 12..p + n];
  }

  lemma WholeWord(off: nat, p: nat, size: nat)
    requires off % 4 == 0 && size % 4 == 0 && (p - off) % 4 == 0 && off <= p < size
    ensures p + 4 <= size
  {
  }

  /** By 32-bit words, when the key lies on a word boundary. Memory is in whole words, so the last read stays inside
      it. */
  method HashWords(mem: seq<Byte>, off: nat, length: nat) returns (h: Word)
    requires off + length <= |mem| && off % 4 == 0 && |mem| % 4 == 0
    ensures h == Digest(mem[off..off + length])
  {
    hide Mix, Final, ByWord, Read32, Absorb, DigestFrom, Seed, Add;
    var r := Regs(Seed(length), Seed(length), Seed(length));
    var p: nat, n: int := off, length;
    while n > 12
      invariant 0 <= n && off <= p && p + n == off + length && (p - off) % 4 == 0
      invariant DigestFrom(r, mem[p..p + n]) == Digest(mem[off..off + length])
    {
      var r' := Regs(Add(r.a, Read32(mem, p)), Add(r.b, Read32(mem, p + 4)), Add(r.c, Read32(mem, p + 8)));
      FullWords(r, mem, p, n);
      Round(r, r', mem, p, n);
      r := Mix(r');
      p := p + 12;
      n := n - 12;
    }
    LastRound(r, mem, p, n);
    if n == 0 {
      return r.c;
    }
    WholeWord(off, p, |mem|);
    if n > 4 {
      WholeWord(off, p + 4, |mem|);
    }
    if n > 8 {
      WholeWord(off, p + 8, |mem|);
    }
    WordsAbsorb(r, mem, p, n);
    h := Final(Regs(ByWord(r.a, mem, p, n), ByWord(r.b, mem, p + 4, n - 4), ByWord(r.c, mem, p + 8, n - 8)));
  }

  lemma LastRound(r: Regs, mem: seq<Byte>, p: nat, n: nat)
    requires n <= 12 && p + n <= |mem|
    ensures DigestFrom(r, mem[p..p + n]) == if n == 0 then r.c else Final(Absorb(r, mem[p..p + n]))
  {
    hide Mix, Absorb, Final;
  }

  lemma FullWords(r: Regs, mem: seq<Byte>, p: nat, n: nat)
    requires 12 <= n && p + n <= |mem|
    ensures Absorb(r, mem[p..p + n]) == Regs(Add(r.a, Read32(mem, p)), Add(r.b, Read32(mem, p + 4)),
              Add(r.c, Read32(mem, p + 8)))
  {
    hide Add, Le32;
  }

  lemma WordsAbsorb(r: Regs, mem: seq<Byte>, p: nat, n: nat)
    requires 0 < n <= 12 && p + n <= |mem| && p + 4 <= |mem| && (n > 4 ==> p + 8 <= |mem|)
    requires (n > 8 ==> p + 12 <= |mem|)
    ensures Absorb(r, mem[p..p + n]) == Regs(ByWord(r.a, mem, p, n), ByWord(r.b, mem, p + 4, n - 4),
              ByWord(r.c, mem, p + 8, n - 8))
  {
    hide Add, W, ByWord;
    WordIs(r.a, mem, p, n, 0);
    WordIs(r.b, mem, p, n, 4);
    WordIs(r.c, mem, p, n, 8);
  }

  /** By 16-bit half-words. */
  method HashHalves(mem: seq<Byte>, off: nat, length: nat) returns (h: Word)
    requires off + length <= |mem|
    ensures h == Digest(mem[off..off + length])
  {
    hide Mix, Final, ByHalf, Read16, High, Absorb, DigestFrom, Seed, Add;
    var r := Regs(Seed(length), Seed(length), Seed(length));
    var p: nat, n: int := off, length;
    while n > 12
      invariant 0 <= n && p + n == off + length
      invariant DigestFrom(r, mem[p..p + n]) == Digest(mem[off..off + length])
    {
      var r' := Regs(
        Add(r.a, Add(Read16(mem, p), High(Read16(mem, p + 2)))),
        Add(r.b, Add(Read16(mem, p + 4), High(Read16(mem, p + 6)))),
        Add(r.c, Add(Read16(mem, p + 8), High(Read16(mem, p + 10)))));
      FullHalves(r, mem, p, n);
      Round(r, r', mem, p, n);
      r := Mix(r');
      p := p + 12;
      n := n - 12;
    }
    LastRound(r, mem, p, n);
    if n == 0 {
      return r.c;
    }
    HalvesAbsorb(r, mem, p, n);
    h := Final(Regs(ByHalf(r.a, mem, p, n), ByHalf(r.b, mem, p + 4, n - 4), ByHalf(r.c, mem, p + 8, n - 8)));
  }

  lemma FullHalves(r: Regs, mem: seq<Byte>, p: nat, n: nat)
    requires 12 <= n && p + n <= |mem|
    ensures Absorb(r, mem[p..p + n]) == Regs(
      Add(r.a, Add(Read16(mem, p), High(Read16(mem, p + 2)))),
      Add(r.b, Add(Read16(mem, p + 4), High(Read16(mem, p + 6)))),
      Add(r.c, Add(Read16(mem, p + 8), High(Read16(mem, p + 10)))))
  {
    hide Add, Le32, Le16, High;
    TwoHalves(mem[p], mem[p + 1], mem[p + 2], mem[p + 3]);
    TwoHalves(mem[p + 4], mem[p + 5], mem[p + 6], mem[p + 7]);
    TwoHalves(mem[p + 8], mem[p + 9], mem[p + 10], mem[p + 11]);
  }

  lemma HalvesAbsorb(r: Regs, mem: seq<Byte>, p: nat, n: nat)
    requires 0 < n <= 12 && p + n <= |mem|
    ensures Absorb(r, mem[p..p + n]) == Regs(ByHalf(r.a, mem, p, n), ByHalf(r.b, mem, p + 4, n - 4),
              ByHalf(r.c, mem, p + 8, n - 8))
  {
    hide Add, W, ByHalf;
    HalfIs(r.a, mem, p, n, 0);
    HalfIs(r.b, mem, p, n, 4);
    HalfIs(r.c, mem, p, n, 8);
  }

  // Four bytes added from the lowest up.
  function AddFour(x: Word, mem: seq<Byte>, p: nat): Word
    requires p + 4 <= |mem|
  {
    Add(Add(Add(Add(x, Wide(mem[p])), Second(mem[p + 1])), Third(mem[p + 2])), Fourth(mem[p + 3]))
  }

  /** Byte by byte. */
  method HashBytes(mem: seq<Byte>, off: nat, length: nat) returns (h: Word)
    requires off + length <= |mem|
    ensures h == Digest(mem[off..off + length])
  {
    hide Mix, Final, ByByte, AddFour, Absorb, DigestFrom, Seed, Add;
    var r := Regs(Seed(length), Seed(length), Seed(length));
    var p: nat, n: int := off, length;
    while n > 12
      invariant 0 <= n && p + n == off + length
      invariant DigestFrom(r, mem[p..p + n]) == Digest(mem[off..off + length])
    {
      var r' := Regs(AddFour(r.a, mem, p), AddFour(r.b, mem, p + 4), AddFour(r.c, mem, p + 8));
      FullBytes(r, mem, p, n);
      Round(r, r', mem, p, n);
      r := Mix(r');
      p := p + 12;
      n := n - 12;
    }
    LastRound(r, mem, p, n);
    if n == 0 {
      return r.c;
    }
    BytesAbsorb(r, mem, p, n);
    h := Final(Regs(ByByte(r.a, mem, p, n), ByByte(r.b, mem, p + 4, n - 4), ByByte(r.c, mem, p + 8, n - 8)));
  }

  lemma FullBytes(r: Regs, mem: seq<Byte>, p: nat, n: nat)
    requires 12 <= n && p + n <= |mem|
    ensures Absorb(r, mem[p..p + n]) == Regs(AddFour(r.a, mem, p), AddFour(r.b, mem, p + 4), AddFour(r.c, mem, p + 8))
  {
    hide Add, Le32, Wide, Second, Third, Fourth;
    AddBytes(r.a, mem[p], mem[p + 1], mem[p + 2], mem[p + 3]);
    AddBytes(r.b, mem[p + 4], mem[p + 5], mem[p + 6], mem[p + 7]);
    AddBytes(r.c, mem[p + 8], mem[p + 9], mem[p + 10], mem[p + 11]);
  }

  lemma BytesAbsorb(r: Regs, mem: seq<Byte>, p: nat, n: nat)
    requires 0 < n <= 12 && p + n <= |mem|
    ensures Absorb(r, mem[p..p + n]) == Regs(ByByte(r.a, mem, p, n), ByByte(r.b, mem, p + 4, n - 4),
              ByByte(r.c, mem, p + 8, n - 8))
  {
    hide Add, W, ByByte;
    ByteIs(r.a, mem, p, n, 0);
    ByteIs(r.b, mem, p, n, 4);
    ByteIs(r.c, mem, p, n, 8);
  }

  /** jenkins_hash: the way to read depends on the address, the hash does not, nor on what follows the key. */
  method Hash(mem: seq<Byte>, off: nat, length: nat) returns (h: Word)
    requires off + length <= |mem| && |mem| % 4 == 0
    ensures h == Digest(mem[off..off + length])
  {
    if off % 4 == 0 {
      h := HashWords(mem, off, length);
    } else if off % 2 == 0 {
      h := HashHalves(mem, off, length);
    } else {
      h := HashBytes(mem, off, length);
    }
  }
}
