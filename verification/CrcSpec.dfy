/** CRC-32C (section 12.1 of RFC 3720) in reversed bit order, one message bit at a time, and the
    GF(2)-linear algebra of its register: what the table- and matrix-driven forms rely on. */
module CrcSpec {

  type Byte = bv8

  // CRC-32C polynomial in reversed bit order.
  const POLY: bv32 := 0x82f63b78
  const ONES: bv32 := 0xffffffff

  // ---- Operations on words, named so that proofs can treat them algebraically ----

  function Xor(a: bv32, b: bv32): bv32 { a ^ b }
  function Half(a: bv32): bv32 { a >> 1 }
  function Double(a: bv32): bv32 { a << 1 }
  function Down8(a: bv32): bv32 { a >> 8 }
  function Up8(a: bv32): bv32 { a << 8 }
  function Low8(a: bv32): bv32 { a & 0xff }
  predicate Odd(a: bv32) { a & 1 == 1 }
  function Wide(b: Byte): bv32 { b as bv32 }

  // ---- The reference: one message bit at a time ----

  /** One message bit enters the register. */
  function BitStep(c: bv32, bit: bool): bv32 {
    if Odd(c) != bit then Xor(Half(c), POLY) else Half(c)
  }

  /** The low `n` bits of `b` enter the register, least significant bit first. */
  function BitsStep(c: bv32, b: bv32, n: nat): bv32
    decreases n
  {
    if n == 0 then c else BitsStep(BitStep(c, Odd(b)), Half(b), n - 1)
  }

  /** The register after the message `s`. */
  function Register(c: bv32, s: seq<Byte>): bv32 {
    if s == [] then c else BitsStep(Register(c, s[..|s| - 1]), Wide(s[|s| - 1]), 8)
  }

  /** CRC-32C of `s` continuing from `crc`: the register is complemented on entry and on exit. */
  function Crc32c(crc: bv32, s: seq<Byte>): bv32 {
    Xor(Register(Xor(crc, ONES), s), ONES)
  }

  // ---- The zeros operator ----

  /** The register after one zero bit, and after `n` of them. */
  function Advance(c: bv32): bv32 {
    if Odd(c) then Xor(Half(c), POLY) else Half(c)
  }

  function Zeros(c: bv32, n: nat): bv32 {
    if n == 0 then c else Advance(Zeros(c, n - 1))
  }

  // ---- Identities on words ----

  lemma XorAssoc(a: bv32, b: bv32, c: bv32)
    ensures Xor(Xor(a, b), c) == Xor(a, Xor(b, c))
  {
  }

  lemma XorComm(a: bv32, b: bv32)
    ensures Xor(a, b) == Xor(b, a)
  {
  }

  lemma XorZero(a: bv32)
    ensures Xor(a, 0) == a == Xor(0, a)
  {
  }

  lemma XorCancel(a: bv32, b: bv32)
    ensures Xor(Xor(a, b), b) == a
  {
  }

  lemma XorParity(a: bv32, b: bv32)
    ensures Odd(Xor(a, b)) == (Odd(a) != Odd(b))
  {
  }

  lemma XorHalf(a: bv32, b: bv32)
    ensures Half(Xor(a, b)) == Xor(Half(a), Half(b))
  {
  }

  // ---- Linearity of the register over GF(2) ----

  /** The polynomial enters the sum exactly when one of the two parts feeds it back. */
  lemma XorFeedback(a: bv32, b: bv32, p: bv32)
    ensures Xor(Xor(a, p), Xor(b, p)) == Xor(a, b)
    ensures Xor(Xor(a, p), b) == Xor(Xor(a, b), p)
    ensures Xor(a, Xor(b, p)) == Xor(Xor(a, b), p)
  {
    hide Xor;
    XorAssoc(a, b, p);
    XorAssoc(a, p, b);
    XorComm(p, b);
    XorAssoc(Xor(a, p), b, p);
    XorCancel(Xor(a, b), p);
  }

  lemma AdvanceXor(a: bv32, b: bv32)
    ensures Advance(Xor(a, b)) == Xor(Advance(a), Advance(b))
  {
    hide Xor, Odd, Half;
    XorParity(a, b);
    XorHalf(a, b);
    XorFeedback(Half(a), Half(b), POLY);
  }

  lemma {:induction false} ZerosXor(a: bv32, b: bv32, n: nat)
    ensures Zeros(Xor(a, b), n) == Xor(Zeros(a, n), Zeros(b, n))
  {
    hide Advance, Xor;
    if n != 0 {
      ZerosXor(a, b, n - 1);
      AdvanceXor(Zeros(a, n - 1), Zeros(b, n - 1));
    }
  }

  lemma {:induction false} ZerosOfZero(n: nat)
    ensures Zeros(0, n) == 0
  {
    if n != 0 {
      ZerosOfZero(n - 1);
    }
  }

  /** Operators for m and n zero bits compose to the operator for m + n. */
  lemma {:induction false} ZerosCompose(c: bv32, m: nat, n: nat)
    ensures Zeros(Zeros(c, m), n) == Zeros(c, m + n)
  {
    hide Advance;
    if n != 0 {
      ZerosCompose(c, m, n - 1);
    }
  }

  // ---- One byte ----

  /** No bit of `v` at position `n` or above is set. */
  predicate Fits(v: bv32, n: nat)
    decreases n
  {
    if n == 0 then v == 0 else Fits(Half(v), n - 1)
  }

  lemma BitStepIsAdvance(c: bv32, b: bv32)
    ensures Advance(Xor(c, b)) == Xor(BitStep(c, Odd(b)), Half(b))
  {
    hide Xor, Odd, Half;
    XorParity(c, b);
    XorHalf(c, b);
    XorFeedback(Half(c), Half(b), POLY);
  }

  /** A message word xored into the register enters it bit by bit. */
  lemma {:induction false} BitsStepIsZeros(c: bv32, b: bv32, n: nat)
    requires Fits(b, n)
    ensures BitsStep(c, b, n) == Zeros(Xor(c, b), n)
    decreases n
  {
    hide Advance, BitStep, Xor, Half, Odd;
    if n == 0 {
      XorZero(c);
    } else {
      BitsStepIsZeros(BitStep(c, Odd(b)), Half(b), n - 1);
      BitStepIsAdvance(c, b);
      var x := Xor(c, b);
      assert Zeros(x, 1) == Advance(Zeros(x, 0));
      ZerosCompose(x, 1, n - 1);
    }
  }

  lemma FitsByte(b: Byte)
    ensures Fits(Wide(b), 8)
  {
  }

  lemma RegisterByte(c: bv32, s: seq<Byte>, b: Byte)
    ensures Register(c, s + [b]) == Zeros(Xor(Register(c, s), Wide(b)), 8)
  {
    hide Zeros, BitsStep, Xor, Wide;
    assert (s + [b])[..|s|] == s;
    FitsByte(b);
    BitsStepIsZeros(Register(c, s), Wide(b), 8);
  }

  // ---- Whole messages ----

  lemma {:induction false} RegisterConcat(c: bv32, s: seq<Byte>, t: seq<Byte>)
    ensures Register(c, s + t) == Register(Register(c, s), t)
  {
    hide BitsStep;
    if t == [] {
      assert s + t == s;
    } else {
      var t' := t[..|t| - 1];
      RegisterConcat(c, s, t');
      assert (s + t)[..|s + t| - 1] == s + t';
    }
  }

  /** The starting register contributes through the zeros operator, independently of the message. */
  lemma {:induction false} RegisterAffine(c: bv32, s: seq<Byte>)
    ensures Register(c, s) == Xor(Zeros(c, 8 * |s|), Register(0, s))
  {
    hide BitsStep, Zeros, Xor, Wide;
    if s == [] {
      ZerosNone(c);
      XorZero(c);
    } else {
      var s', b := s[..|s| - 1], s[|s| - 1];
      assert s == s' + [b];
      RegisterAffine(c, s');
      RegisterByte(c, s', b);
      RegisterByte(0, s', b);
      var z, r, v := Zeros(c, 8 * |s'|), Register(0, s'), Wide(b);
      XorAssoc(z, r, v);
      ZerosXor(z, Xor(r, v), 8);
      ZerosCompose(c, 8 * |s'|, 8);
    }
  }

  lemma ZerosNone(c: bv32)
    ensures Zeros(c, 0) == c
  {
  }

  /** Checking a value chunk by chunk gives the CRC of the whole value. */
  lemma Crc32cConcat(crc: bv32, s: seq<Byte>, t: seq<Byte>)
    ensures Crc32c(Crc32c(crc, s), t) == Crc32c(crc, s + t)
  {
    hide Register, Xor;
    XorCancel(Register(Xor(crc, ONES), s), ONES);
    RegisterConcat(Xor(crc, ONES), s, t);
  }

  function Joined(pieces: seq<seq<Byte>>): seq<Byte> {
    if pieces == [] then [] else Joined(pieces[..|pieces| - 1]) + pieces[|pieces| - 1]
  }

  /** The CRC carried from one piece of a value to the next. */
  function Chained(crc: bv32, pieces: seq<seq<Byte>>): bv32 {
    if pieces == [] then crc else Crc32c(Chained(crc, pieces[..|pieces| - 1]), pieces[|pieces| - 1])
  }

  /** However a value is cut into pieces, the chained CRC is that of the value; an empty chain starts from `crc`
      itself. */
  lemma {:induction false} ChainedIsWhole(crc: bv32, pieces: seq<seq<Byte>>)
    ensures Chained(crc, pieces) == Crc32c(crc, Joined(pieces))
  {
    hide Register, Xor;
    if pieces == [] {
      XorCancel(crc, ONES);
      NothingRead(Xor(crc, ONES));
    } else {
      ChainedIsWhole(crc, pieces[..|pieces| - 1]);
      Crc32cConcat(crc, Joined(pieces[..|pieces| - 1]), pieces[|pieces| - 1]);
    }
  }

  lemma NothingRead(c: bv32)
    ensures Register(c, []) == c
  {
  }
}
