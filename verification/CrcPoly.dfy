/** What the register of CRC-32C means: the remainder of the message, as a polynomial over GF(2), on division by the
    generator polynomial of section 12.1 of RFC 3720. */
module CrcPoly {
  import opened CrcSpec
  import CrcTables

  /** A polynomial, as the set of its exponents. */
  type Poly = set<nat>

  // x^32 + x^28 + x^27 + x^26 + x^25 + x^23 + x^22 + x^20 + x^19 + x^18 + x^14 + x^13 + x^11 + x^10 + x^9 +
  // x^8 + x^6 + 1
  const GENERATOR: Poly := {32, 28, 27, 26, 25, 23, 22, 20, 19, 18, 14, 13, 11, 10, 9, 8, 6, 0}

  function Sum(p: Poly, q: Poly): Poly { (p - q) + (q - p) }

  /** The product with x^n. */
  function Times(p: Poly, n: nat): Poly { set k | k in p :: k + n }

  /** The sum of the generator times x^k, for the k listed. */
  function Multiple(ks: seq<nat>): Poly {
    if ks == [] then {} else Sum(Times(GENERATOR, ks[0]), Multiple(ks[1..]))
  }

  /** Two polynomials that differ by a multiple of the generator. */
  ghost predicate Congruent(p: Poly, q: Poly) { exists ks :: Sum(p, q) == Multiple(ks) }

  // ---- The register as a polynomial ----

  function Bit(c: bv32, i: nat): bool
    decreases i
  {
    if i == 0 then Odd(c) else Bit(Half(c), i - 1)
  }

  /** The lowest bit of the register is the coefficient of x^31, the highest that of 1. */
  function PolyOf(c: bv32): Poly { set k: nat | k < 32 && Coefficient(c, k) }

  predicate Coefficient(c: bv32, k: nat) { k < 32 && Bit(c, 31 - k) }

  lemma {:induction false} BitXor(a: bv32, b: bv32, i: nat)
    ensures Bit(Xor(a, b), i) == (Bit(a, i) != Bit(b, i))
    decreases i
  {
    hide Xor, Half, Odd;
    XorParity(a, b);
    if i > 0 {
      XorHalf(a, b);
      BitXor(Half(a), Half(b), i - 1);
    }
  }

  lemma {:induction false} BitZero(i: nat)
    ensures !Bit(0, i)
  {
    if i > 0 {
      assert Half(0) == 0;
      BitZero(i - 1);
    }
  }

  lemma {:induction false} FitsBit(c: bv32, n: nat, i: nat)
    requires Fits(c, n) && n <= i
    ensures !Bit(c, i)
    decreases n
  {
    if n == 0 {
      BitZero(i);
    } else {
      FitsBit(Half(c), n - 1, i - 1);
    }
  }

  // The low eight bits, one by one.
  predicate Masked(c: bv32, m: bv32) { c & m != 0 }

  lemma LowBits(c: bv32)
    ensures Bit(c, 0) == Masked(c, 1) && Bit(c, 1) == Masked(c, 2) && Bit(c, 2) == Masked(c, 4)
    ensures Bit(c, 3) == Masked(c, 8)
  {
    var c1, c2, c3 := Half(c), Half(Half(c)), Half(Half(Half(c)));
    assert Bit(c, 1) == Bit(c1, 0) == Odd(c1);
    assert Bit(c, 2) == Bit(c1, 1) == Bit(c2, 0) == Odd(c2);
    assert Bit(c, 3) == Bit(c1, 2) == Bit(c2, 1) == Bit(c3, 0) == Odd(c3);
  }

  function Down4(c: bv32): bv32 { c >> 4 }

  lemma BitDown(c: bv32, i: nat)
    ensures Bit(c, i + 4) == Bit(Down4(c), i)
  {
    var c1, c2, c3 := Half(c), Half(Half(c)), Half(Half(Half(c)));
    assert Bit(c, i + 4) == Bit(c1, i + 3) == Bit(c2, i + 2) == Bit(c3, i + 1) == Bit(Half(c3), i);
    FourHalves(c);
  }

  lemma FourHalves(c: bv32)
    ensures Half(Half(Half(Half(c)))) == Down4(c)
  {
  }

  lemma Nibble(c: bv32, d: bv32, i: nat)
    requires d == Down4(c)
    ensures Bit(c, 0) == Masked(c, 1) && Bit(c, 1) == Masked(c, 2) && Bit(c, 2) == Masked(c, 4)
    ensures Bit(c, 3) == Masked(c, 8)
    ensures i >= 4 ==> Bit(c, i) == Bit(d, i - 4)
  {
    LowBits(c);
    if i >= 4 {
      BitDown(c, i - 4);
    }
  }

  lemma GeneratorBit(i: nat)
    requires i < 32
    ensures Bit(POLY, i) <==> i in {31, 25, 23, 22, 21, 20, 18, 17, 13, 12, 11, 9, 8, 6, 5, 4, 3}
  {
    hide Bit;
    Nibble(0x82f63b78, 0x82f63b7, i);
    if i >= 4 { Nibble(0x82f63b7, 0x82f63b, i - 4); }
    if i >= 8 { Nibble(0x82f63b, 0x82f63, i - 8); }
    if i >= 12 { Nibble(0x82f63, 0x82f6, i - 12); }
    if i >= 16 { Nibble(0x82f6, 0x82f, i - 16); }
    if i >= 20 { Nibble(0x82f, 0x82, i - 20); }
    if i >= 24 { Nibble(0x82, 0x8, i - 24); }
    if i >= 28 { Nibble(0x8, 0, i - 28); }
  }

  /** The constant of the program is the generator without its leading term. */
  lemma GeneratorBits(k: nat)
    requires k < 32
    ensures Coefficient(POLY, k) <==> k in GENERATOR
  {
    GeneratorBit(31 - k);
    hide Bit;
  }

  // ---- One message bit ----

  lemma HalfCoefficient(c: bv32, k: nat)
    requires Fits(c, 32) && k < 32
    ensures Coefficient(Half(c), k) == (k > 0 && Coefficient(c, k - 1))
  {
    hide Half, Fits;
    if k == 0 {
      assert Bit(c, 32) == Bit(Half(c), 31);
      FitsBit(c, 32, 32);
    } else {
      assert Bit(c, 31 - k + 1) == Bit(Half(c), 31 - k);
    }
  }

  lemma StepCoefficient(c: bv32, bit: bool, k: nat)
    requires Fits(c, 32) && k < 32
    ensures Coefficient(BitStep(c, bit), k) == ((k > 0 && Coefficient(c, k - 1)) != (Odd(c) != bit && k in GENERATOR))
  {
    hide Half, Xor, Bit, Odd, Fits;
    HalfCoefficient(c, k);
    GeneratorBits(k);
    BitXor(Half(c), POLY, 31 - k);
  }

  // ---- Whole messages ----

  function BitsOfByte(b: bv32, n: nat): seq<bool>
    decreases n
  {
    if n == 0 then [] else [Odd(b)] + BitsOfByte(Half(b), n - 1)
  }

  /** The bits of a message in the order they are sent, the lowest of each byte first. */
  function BitsOf(s: seq<Byte>): seq<bool> {
    if s == [] then [] else BitsOf(s[..|s| - 1]) + BitsOfByte(Wide(s[|s| - 1]), 8)
  }

  function BitRegister(c: bv32, bits: seq<bool>): bv32 {
    if bits == [] then c else BitStep(BitRegister(c, bits[..|bits| - 1]), bits[|bits| - 1])
  }

  lemma {:induction false} BitRegisterConcat(c: bv32, a: seq<bool>, b: seq<bool>)
    ensures BitRegister(c, a + b) == BitRegister(BitRegister(c, a), b)
  {
    hide BitStep;
    if b == [] {
      assert a + b == a;
    } else {
      BitRegisterConcat(c, a, b[..|b| - 1]);
      assert (a + b)[..|a + b| - 1] == a + b[..|b| - 1];
    }
  }

  lemma {:induction false} BitRegisterByte(c: bv32, b: bv32, n: nat)
    ensures BitsStep(c, b, n) == BitRegister(c, BitsOfByte(b, n))
    decreases n
  {
    hide BitStep, Half, Odd;
    if n > 0 {
      BitRegisterByte(BitStep(c, Odd(b)), Half(b), n - 1);
      BitRegisterConcat(c, [Odd(b)], BitsOfByte(Half(b), n - 1));
      assert [Odd(b)][..0] == [];
      assert BitRegister(c, [Odd(b)]) == BitStep(BitRegister(c, []), Odd(b));
    }
  }

  lemma {:induction false} RegisterBits(c: bv32, s: seq<Byte>)
    ensures Register(c, s) == BitRegister(c, BitsOf(s))
  {
    hide BitStep, BitsStep, BitsOfByte, Wide;
    if s != [] {
      RegisterBits(c, s[..|s| - 1]);
      BitRegisterByte(Register(c, s[..|s| - 1]), Wide(s[|s| - 1]), 8);
      BitRegisterConcat(c, BitsOf(s[..|s| - 1]), BitsOfByte(Wide(s[|s| - 1]), 8));
    }
  }

  /** The first bit of the message is the coefficient of the highest power. */
  function Message(bits: seq<bool>): Poly {
    if bits == [] then {} else Sum(Times(Message(bits[..|bits| - 1]), 1), if bits[|bits| - 1] then {0} else {})
  }

  lemma InTimes(p: Poly, n: nat, k: nat)
    ensures k in Times(p, n) <==> k >= n && k - n in p
  {
    if k >= n && k - n in p {
      assert k == (k - n) + n;
    }
  }

  function Up(ks: seq<nat>): seq<nat> { seq(|ks|, i requires 0 <= i < |ks| => ks[i] + 1) }

  lemma {:induction false} MultipleUp(ks: seq<nat>)
    ensures Multiple(Up(ks)) == Times(Multiple(ks), 1)
  {
    if ks == [] {
      assert Up(ks) == [];
    } else {
      MultipleUp(ks[1..]);
      assert Up(ks)[1..] == Up(ks[1..]) && Up(ks)[0] == ks[0] + 1;
      hide Times, Multiple;
      forall k: nat
        ensures k in Sum(Times(GENERATOR, ks[0] + 1), Times(Multiple(ks[1..]), 1)) <==>
                  k in Times(Sum(Times(GENERATOR, ks[0]), Multiple(ks[1..])), 1)
      {
        InTimes(GENERATOR, ks[0] + 1, k);
        InTimes(Multiple(ks[1..]), 1, k);
        InTimes(Sum(Times(GENERATOR, ks[0]), Multiple(ks[1..])), 1, k);
        if k > 0 {
          InTimes(GENERATOR, ks[0], k - 1);
        }
      }
      MultipleIs(ks);
      MultipleIs(Up(ks));
    }
  }

  lemma MultipleIs(ks: seq<nat>)
    requires ks != []
    ensures Multiple(ks) == Sum(Times(GENERATOR, ks[0]), Multiple(ks[1..]))
  {
  }

  lemma InPolyOf(c: bv32, k: nat)
    ensures k in PolyOf(c) <==> k < 32 && Coefficient(c, k)
  {
  }

  /** The register, the starting register moved up by the length of the message, and the message moved up by 32. */
  function Total(c: bv32, bits: seq<bool>): Poly {
    Sum(PolyOf(BitRegister(c, bits)), Sum(Times(PolyOf(c), |bits|), Times(Message(bits), 32)))
  }

  predicate InTotal(c: bv32, bits: seq<bool>, k: nat) {
    (k < 32 && Coefficient(BitRegister(c, bits), k)) != ((k >= |bits| && k - |bits| in PolyOf(c)) != (k >= 32 &&
      k - 32 in Message(bits)))
  }

  lemma TotalIs(c: bv32, bits: seq<bool>, k: nat)
    ensures k in Total(c, bits) <==> InTotal(c, bits, k)
  {
    hide PolyOf, Times, Message, BitRegister;
    InPolyOf(BitRegister(c, bits), k);
    InTimes(PolyOf(c), |bits|, k);
    InTimes(Message(bits), 32, k);
  }

  lemma MessageStep(bits: seq<bool>, b: bool, k: nat)
    ensures k in Message(bits + [b]) <==> ((k > 0 && k - 1 in Message(bits)) != (b && k == 0))
  {
    assert (bits + [b])[..|bits|] == bits;
    hide Times;
    InTimes(Message(bits), 1, k);
  }

  /** One more message bit multiplies everything by x and adds the generator or not. */
  lemma TotalStep(c: bv32, bits: seq<bool>, b: bool, k: nat)
    ensures var e := Odd(BitRegister(c, bits)) != b;
            InTotal(c, bits + [b], k) == ((k > 0 && InTotal(c, bits, k - 1)) != (e && k in GENERATOR))
  {
    hide BitRegister, PolyOf, Message, BitStep, Fits, Odd, Coefficient;
    var r := BitRegister(c, bits);
    RegisterStep(c, bits, b);
    TopCoefficient(r);
    if k < 32 {
      CrcTables.FitsWord(r);
      StepCoefficient(r, b, k);
    } else {
      MessageStep(bits, b, k - 32);
    }
  }

  lemma RegisterStep(c: bv32, bits: seq<bool>, b: bool)
    ensures BitRegister(c, bits + [b]) == BitStep(BitRegister(c, bits), b)
  {
    assert (bits + [b])[..|bits|] == bits;
  }

  lemma TopCoefficient(c: bv32)
    ensures Coefficient(c, 31) == Odd(c)
  {
  }

  /** The register is the remainder of the message times x^32, plus what it started from times x^n, on division by the
      generator: the two differ by a multiple of it, and no power of the register is above 31. */
  lemma {:induction false} Remainder(c: bv32, bits: seq<bool>) returns (ks: seq<nat>)
    ensures Total(c, bits) == Multiple(ks)
  {
    if bits == [] {
      ks := [];
      forall k: nat
        ensures k !in Total(c, bits)
      {
        TotalIs(c, bits, k);
        InPolyOf(c, k);
      }
    } else {
      var init, b := bits[..|bits| - 1], bits[|bits| - 1];
      assert bits == init + [b];
      var js := Remainder(c, init);
      MultipleUp(js);
      var e := Odd(BitRegister(c, init)) != b;
      ks := if e then [0] + Up(js) else Up(js);
      assert e ==> ks[1..] == Up(js) && ks[0] == 0;
      if e {
        MultipleIs(ks);
      }
      hide Multiple, Total, Times, BitRegister, InTotal, Odd, Up;
      forall k: nat
        ensures k in Total(c, bits) <==> k in Multiple(ks)
      {
        TotalIs(c, bits, k);
        TotalStep(c, init, b, k);
        InTimes(Multiple(js), 1, k);
        InTimes(GENERATOR, 0, k);
        if k > 0 {
          TotalIs(c, init, k - 1);
        }
      }
    }
  }

  /** CRC-32C of a message: complementing apart, the remainder of its polynomial. */
  lemma CrcIsRemainder(crc: bv32, s: seq<Byte>)
    ensures forall k :: k in PolyOf(Xor(Crc32c(crc, s), ONES)) ==> k < 32
    ensures Congruent(PolyOf(Xor(Crc32c(crc, s), ONES)), Sum(Times(PolyOf(Xor(crc, ONES)), |BitsOf(s)|),
              Times(Message(BitsOf(s)), 32)))
  {
    var c := Xor(crc, ONES);
    XorCancel(Register(c, s), ONES);
    hide Xor, Register, BitsOf, Times, Message, Bit;
    RegisterBits(c, s);
    var ks := Remainder(c, BitsOf(s));
    hide BitRegister;
    assert Sum(PolyOf(Xor(Crc32c(crc, s), ONES)), Sum(Times(PolyOf(c), |BitsOf(s)|),
             Times(Message(BitsOf(s)), 32))) == Multiple(ks);
  }

  // ---- There is only one remainder ----

  const TERMS: seq<nat> := [32, 28, 27, 26, 25, 23, 22, 20, 19, 18, 14, 13, 11, 10, 9, 8, 6, 0]

  predicate From(s: Poly, e: nat, g: nat) { e >= g && e - g in s }

  /** Whether x^e is in the product of `s` with the terms listed. */
  predicate InProduct(s: Poly, e: nat, terms: seq<nat>) {
    terms != [] && (From(s, e, terms[0]) != InProduct(s, e, terms[1..]))
  }

  /** The quotient: the k that occur an odd number of times. */
  function Quotient(ks: seq<nat>): Poly {
    if ks == [] then {} else Sum({ks[0]}, Quotient(ks[1..]))
  }

  lemma {:induction false} ProductSum(p: Poly, q: Poly, e: nat, terms: seq<nat>)
    ensures InProduct(Sum(p, q), e, terms) == (InProduct(p, e, terms) != InProduct(q, e, terms))
  {
    if terms != [] {
      ProductSum(p, q, e, terms[1..]);
    }
  }

  /** Terms that are all out of reach contribute nothing. */
  lemma {:induction false} ProductNone(s: Poly, e: nat, terms: seq<nat>)
    requires forall g :: g in terms ==> !From(s, e, g)
    ensures !InProduct(s, e, terms)
  {
    if terms != [] {
      ProductNone(s, e, terms[1..]);
    }
  }

  lemma {:induction false} ProductOne(k: nat, e: nat, terms: seq<nat>)
    requires forall i, j :: 0 <= i < j < |terms| ==> terms[i] != terms[j]
    ensures InProduct({k}, e, terms) <==> e >= k && e - k in terms
  {
    if terms != [] {
      assert terms == [terms[0]] + terms[1..];
      if e >= k && e - k == terms[0] {
        ProductNone({k}, e, terms[1..]);
      } else {
        ProductOne(k, e, terms[1..]);
      }
    }
  }

  lemma {:induction false} MultipleIsProduct(ks: seq<nat>, e: nat)
    ensures e in Multiple(ks) <==> InProduct(Quotient(ks), e, TERMS)
  {
    hide InProduct, Times;
    if ks == [] {
      ProductNone({}, e, TERMS);
    } else {
      MultipleIsProduct(ks[1..], e);
      ProductSum({ks[0]}, Quotient(ks[1..]), e, TERMS);
      ProductOne(ks[0], e, TERMS);
      InTimes(GENERATOR, ks[0], e);
    }
  }

  lemma {:induction false} Largest(s: Poly) returns (m: nat)
    requires s != {}
    ensures m in s && forall k :: k in s ==> k <= m
    decreases |s|
  {
    var x :| x in s;
    if s == {x} {
      m := x;
    } else {
      var y := Largest(s - {x});
      m := if x > y then x else y;
      assert forall k :: k in s ==> k == x || k in s - {x};
    }
  }

  /** A multiple of the generator is nothing, or reaches x^32 or above. */
  lemma MultipleDegree(ks: seq<nat>)
    requires forall k :: k in Multiple(ks) ==> k < 32
    ensures Multiple(ks) == {}
  {
    var q := Quotient(ks);
    if q == {} {
      forall e: nat
        ensures e !in Multiple(ks)
      {
        MultipleIsProduct(ks, e);
        ProductNone({}, e, TERMS);
      }
    } else {
      var m := Largest(q);
      TopTerm(ks, m);
    }
  }

  lemma TopTerm(ks: seq<nat>, m: nat)
    requires m in Quotient(ks) && forall k :: k in Quotient(ks) ==> k <= m
    ensures m + 32 in Multiple(ks)
  {
    hide Multiple, InProduct, Quotient;
    MultipleIsProduct(ks, m + 32);
    ProductTop(Quotient(ks), m, TERMS);
  }

  lemma ProductTop(s: Poly, m: nat, terms: seq<nat>)
    requires m in s && (forall k :: k in s ==> k <= m) && terms != [] && terms[0] == 32
    requires forall i :: 0 < i < |terms| ==> terms[i] < 32
    ensures InProduct(s, m + 32, terms)
  {
    forall g | g in terms[1..]
      ensures !From(s, m + 32, g)
    {
    }
    ProductNone(s, m + 32, terms[1..]);
  }

  lemma OneRemainder(p: Poly, q: Poly)
    requires Congruent(p, q) && (forall k :: k in p ==> k < 32) && (forall k :: k in q ==> k < 32)
    ensures p == q
  {
    var ks :| Sum(p, q) == Multiple(ks);
    hide Multiple;
    MultipleDegree(ks);
    forall k: nat
      ensures k in p <==> k in q
    {
      assert k !in Sum(p, q);
    }
  }
}
