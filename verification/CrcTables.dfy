/** The lookup tables of crc32c.c: the eight byte tables of the software form, and the GF(2) matrix
    operators and four-table shifts of the interleaved form. */
module CrcTables {
  import opened CrcSpec

  // ---- Shifting words ----

  /** `v` shifted up by `n` bits. */
  function Shl(v: bv32, n: nat): bv32
    decreases n
  {
    if n == 0 then v else Double(Shl(v, n - 1))
  }

  lemma FitsDown(v: bv32, n: nat)
    ensures Fits(v, n + 8) == Fits(Down8(v), n)
  {
    hide Half, Down8;
    var w := Half(Half(Half(Half(v))));
    assert Fits(v, n + 8) == Fits(Half(Half(v)), n + 6) == Fits(w, n + 4);
    assert Fits(w, n + 4) == Fits(Half(Half(w)), n + 2) == Fits(Half(Half(Half(Half(w)))), n);
    HalfEightTimes(v);
  }

  lemma HalfEightTimes(v: bv32)
    ensures Half(Half(Half(Half(Half(Half(Half(Half(v)))))))) == Down8(v)
  {
  }

  lemma FitsWord(v: bv32)
    ensures Fits(v, 32)
  {
    hide Fits, Down8;
    FitsDown(v, 24);
    FitsDown(Down8(v), 16);
    FitsDown(Down8(Down8(v)), 8);
    FitsDown(Down8(Down8(Down8(v))), 0);
    DownFourTimes(v);
    FitsZero(0);
  }

  lemma DownFourTimes(v: bv32)
    ensures Down8(Down8(Down8(Down8(v)))) == 0
  {
  }

  lemma FitsSeven(v: bv32)
    requires Fits(v, 7)
    ensures Half(Half(Half(Half(Half(Half(Half(v))))))) == 0
  {
    hide Half;
    var w := Half(Half(Half(Half(v))));
    assert Fits(Half(Half(v)), 5) && Fits(w, 3) && Fits(Half(Half(w)), 1);
  }

  lemma HalfDouble(v: bv32)
    requires Fits(v, 31)
    ensures Half(Double(v)) == v && !Odd(Double(v))
  {
    var w := Down8(Down8(Down8(v)));
    assert Half(Half(Half(Half(Half(Half(Half(w))))))) == 0 by {
      hide Fits, Down8, Half;
      FitsDown(v, 23);
      FitsDown(Down8(v), 15);
      FitsDown(Down8(Down8(v)), 7);
      FitsSeven(w);
    }
    hide Fits;
  }

  lemma {:induction false} FitsZero(n: nat)
    ensures Fits(0, n)
  {
    if n != 0 {
      FitsZero(n - 1);
    }
  }

  lemma {:induction false} FitsMore(v: bv32, m: nat, n: nat)
    requires Fits(v, m) && m <= n
    ensures Fits(v, n)
    decreases m
  {
    hide Half;
    if m == 0 {
      FitsZero(n);
    } else {
      FitsMore(Half(v), m - 1, n - 1);
    }
  }

  lemma {:induction false} FitsShl(v: bv32, m: nat, n: nat)
    requires Fits(v, m) && m + n <= 32
    ensures Fits(Shl(v, n), m + n)
    decreases n
  {
    hide Half, Double, Odd;
    if n != 0 {
      FitsShl(v, m, n - 1);
      FitsMore(Shl(v, n - 1), m + n - 1, 31);
      HalfDouble(Shl(v, n - 1));
    }
  }

  /** Zero bits entering a register whose low bits are clear only shift it down. */
  lemma {:induction false} ZerosShl(v: bv32, m: nat, n: nat)
    requires Fits(v, m) && m + n <= 32
    ensures Zeros(Shl(v, n), n) == v
    decreases n
  {
    hide Half, Double, Odd, Xor;
    if n != 0 {
      var w := Shl(v, n - 1);
      FitsShl(v, m, n - 1);
      FitsMore(w, m + n - 1, 31);
      HalfDouble(w);
      assert Zeros(Double(w), 1) == Advance(Zeros(Double(w), 0));
      ZerosShl(v, m, n - 1);
      ZerosCompose(Double(w), 1, n - 1);
    }
  }

  lemma ZerosShlMore(v: bv32, m: nat, n: nat, k: nat)
    requires Fits(v, m) && m + n <= 32
    ensures Zeros(Shl(v, n), n + k) == Zeros(v, k)
  {
    hide Zeros, Shl;
    ZerosShl(v, m, n);
    ZerosCompose(Shl(v, n), n, k);
  }

  lemma ShlXor(a: bv32, b: bv32, n: nat)
    ensures Shl(Xor(a, b), n) == Xor(Shl(a, n), Shl(b, n))
    decreases n
  {
    hide Double, Xor;
    if n != 0 {
      ShlXor(a, b, n - 1);
      DoubleXor(Shl(a, n - 1), Shl(b, n - 1));
    }
  }

  lemma DoubleXor(a: bv32, b: bv32)
    ensures Double(Xor(a, b)) == Xor(Double(a), Double(b))
  {
  }

  lemma DoubleShl(v: bv32, n: nat)
    ensures Shl(Double(v), n) == Shl(v, n + 1)
    decreases n
  {
    hide Double;
  }

  lemma ShlUp(v: bv32, n: nat)
    ensures Shl(v, n + 8) == Up8(Shl(v, n))
  {
    hide Double, Up8;
    var w := Shl(v, n);
    assert Shl(v, n + 4) == Double(Double(Shl(v, n + 2))) == Double(Double(Double(Double(w))));
    assert Shl(v, n + 8) == Double(Double(Shl(v, n + 6))) == Double(Double(Double(Double(Shl(v, n + 4)))));
    DoubleEightTimes(w);
  }

  lemma DoubleEightTimes(v: bv32)
    ensures Double(Double(Double(Double(Double(Double(Double(Double(v)))))))) == Up8(v)
  {
  }

  /** A word is the sum of its four bytes in place. */
  function Bytes(b0: bv32, b1: bv32, b2: bv32, b3: bv32): bv32 {
    Xor(Xor(b0, Shl(b1, 8)), Xor(Shl(b2, 16), Shl(b3, 24)))
  }

  lemma WordIsBytes(v: bv32)
    ensures v == Bytes(Low8(v), Low8(Down8(v)), Low8(Down8(Down8(v))), Low8(Down8(Down8(Down8(v)))))
  {
    hide Shl, Xor, Up8, Down8, Low8;
    var b1, b2, b3 := Low8(Down8(v)), Low8(Down8(Down8(v))), Low8(Down8(Down8(Down8(v))));
    ShlNone(b1);
    ShlNone(b2);
    ShlNone(b3);
    ShlUp(b1, 0);
    ShlUp(b2, 0);
    ShlUp(b2, 8);
    ShlUp(b3, 0);
    ShlUp(b3, 8);
    ShlUp(b3, 16);
    BytesInPlace(v);
  }

  lemma ShlNone(v: bv32)
    ensures Shl(v, 0) == v
  {
  }

  lemma BytesInPlace(v: bv32)
    ensures v == Xor(Xor(Low8(v), Up8(Low8(Down8(v)))),
                     Xor(Up8(Up8(Low8(Down8(Down8(v))))), Up8(Up8(Up8(Low8(Down8(Down8(Down8(v)))))))))
  {
    assert v ==
      ((v & 0xff) ^ (((v >> 8) & 0xff) << 8)) ^
      ((((v >> 8 >> 8) & 0xff) << 8 << 8) ^ (((v >> 8 >> 8 >> 8) & 0xff) << 8 << 8 << 8));
  }

  // ---- GF(2) matrices: column i is the image of bit i ----

  function Pick(on: bool, v: bv32): bv32 { if on then v else 0 }

  /** The matrix `mat` times the vector `vec`. */
  function MatTimes(mat: seq<bv32>, vec: bv32): bv32
    requires Fits(vec, |mat|)
    decreases |mat|
  {
    if mat == [] then 0
    else Xor(Pick(Odd(vec), mat[0]), MatTimes(mat[1..], Half(vec)))
  }

  lemma {:induction false} MatTimesZero(mat: seq<bv32>)
    ensures Fits(0, |mat|) && MatTimes(mat, 0) == 0
  {
    FitsZero(|mat|);
    if mat != [] {
      MatTimesZero(mat[1..]);
    }
  }

  method MatrixTimes(mat: array<bv32>, v: bv32) returns (sum: bv32)
    requires Fits(v, mat.Length)
    ensures sum == MatTimes(mat[..], v)
  {
    hide Xor, Half, Odd, Pick;
    sum := 0;
    var vec, i := v, 0;
    XorZero(MatTimes(mat[..], v));
    assert mat[0..] == mat[..];
    while vec != 0
      invariant 0 <= i <= mat.Length && Fits(vec, mat.Length - i)
      invariant Xor(sum, MatTimes(mat[i..], vec)) == MatTimes(mat[..], v)
      decreases mat.Length - i
    {
      assert mat[i..][1..] == mat[i + 1..];
      XorAssoc(sum, Pick(Odd(vec), mat[i]), MatTimes(mat[i + 1..], Half(vec)));
      PickZero(sum, Odd(vec), mat[i]);
      if Odd(vec) {
        sum := Xor(sum, mat[i]);
      }
      vec := Half(vec);
      i := i + 1;
    }
    MatTimesZero(mat[i..]);
    XorZero(sum);
  }

  lemma PickZero(a: bv32, on: bool, v: bv32)
    ensures Xor(a, Pick(on, v)) == if on then Xor(a, v) else a
  {
    XorZero(a);
  }

  /** `mat` is the operator that applies `n` zero bits, given by its action on single bits. */
  predicate IsZerosOp(mat: seq<bv32>, n: nat) {
    |mat| == 32 && forall i :: 0 <= i < 32 ==> mat[i] == Zeros(Shl(1, i), n)
  }

  lemma WordByParity(w: bv32)
    ensures w == Xor(Pick(Odd(w), 1), Double(Half(w)))
  {
  }

  lemma {:induction false} ColumnsCombine(mat: seq<bv32>, n: nat, j: nat, w: bv32)
    requires IsZerosOp(mat, n) && j <= 32 && Fits(w, 32 - j)
    ensures MatTimes(mat[j..], w) == Zeros(Shl(w, j), n)
    decreases 32 - j
  {
    hide Zeros, Shl, Xor, Half, Double, Odd, Pick;
    if j == 32 {
      ShlZero(j);
      ZerosOfZero(n);
    } else {
      assert mat[j..][1..] == mat[j + 1..];
      ColumnsCombine(mat, n, j + 1, Half(w));
      WordByParity(w);
      ShlXor(Pick(Odd(w), 1), Double(Half(w)), j);
      DoubleShl(Half(w), j);
      ZerosXor(Shl(Pick(Odd(w), 1), j), Shl(Half(w), j + 1), n);
      PickColumn(Odd(w), j, n);
    }
  }

  lemma ShlZero(n: nat)
    ensures Shl(0, n) == 0
    decreases n
  {
  }

  lemma PickColumn(on: bool, j: nat, n: nat)
    ensures Zeros(Shl(Pick(on, 1), j), n) == Pick(on, Zeros(Shl(1, j), n))
  {
    hide Zeros, Shl;
    ShlZero(j);
    ZerosOfZero(n);
  }

  /** Multiplying by the operator applies the zeros to any register. */
  lemma MatTimesIsZeros(mat: seq<bv32>, n: nat, v: bv32)
    requires IsZerosOp(mat, n)
    ensures Fits(v, 32) && MatTimes(mat, v) == Zeros(v, n)
  {
    hide Zeros, Shl, Fits, MatTimes;
    FitsWord(v);
    ColumnsCombine(mat, n, 0, v);
    assert mat[0..] == mat;
    ShlNone(v);
  }

  method MatrixSquare(square: array<bv32>, mat: array<bv32>, ghost n: nat)
    requires square.Length == 32 && square != mat && IsZerosOp(mat[..], n)
    modifies square
    ensures IsZerosOp(square[..], n + n)
  {
    hide Zeros, Shl, Fits, MatTimes;
    for i := 0 to 32
      invariant mat[..] == old(mat[..])
      invariant forall k :: 0 <= k < i ==> square[k] == Zeros(Shl(1, k), n + n)
    {
      MatTimesIsZeros(mat[..], n, mat[i]);
      square[i] := MatrixTimes(mat, mat[i]);
      ZerosCompose(Shl(1, i), n, n);
    }
  }

  // ---- The operator for a power of two of zero bytes ----

  /** The largest power of two not above `len`; length zero counts as one. */
  function PowerBelow(len: nat): nat {
    if len <= 1 then 1 else 2 * PowerBelow(len / 2)
  }

  predicate PowerOfTwo(n: nat) {
    n == 1 || (n > 1 && n % 2 == 0 && PowerOfTwo(n / 2))
  }

  lemma {:induction false} PowerBelowIsLargest(len: nat)
    ensures PowerOfTwo(PowerBelow(len))
    ensures 1 <= len ==> PowerBelow(len) <= len < 2 * PowerBelow(len)
    ensures PowerOfTwo(len) ==> PowerBelow(len) == len
  {
    if len > 1 {
      PowerBelowIsLargest(len / 2);
    }
  }

  lemma OneBitOp(n: nat)
    requires n < 32
    ensures Advance(Shl(1, n)) == if n == 0 then POLY else Shl(1, n - 1)
  {
    if n == 0 {
      assert Xor(Half(1), POLY) == POLY;
    } else {
      hide Half, Double, Odd, Xor;
      var w := Shl(1, n - 1);
      FitsBit();
      FitsShl(1, 1, n - 1);
      FitsMore(w, n, 31);
      HalfDouble(w);
    }
  }

  lemma FitsBit()
    ensures Fits(1, 1)
  {
  }

  method ZerosOp(even: array<bv32>, len: nat)
    requires even.Length == 32
    modifies even
    ensures IsZerosOp(even[..], 8 * PowerBelow(len))
  {
    hide *;
    var odd := new bv32[32];
    OneBitMatrix(odd);
    MatrixSquare(even, odd, 1);
    MatrixSquare(odd, even, 2);
    var left := len;
    ghost var p: nat := 1;
    while true
      invariant IsZerosOp(odd[..], 4 * p)
      invariant p * PowerBelow(left) == PowerBelow(len)
      decreases left
    {
      MatrixSquare(even, odd, 4 * p);
      if left / 2 == 0 {
        PowerBelowOne(left);
        return;
      }
      PowerBelowTwice(p, left);
      left := left / 2;
      p := 2 * p;
      MatrixSquare(odd, even, 4 * p);
      if left / 2 == 0 {
        PowerBelowOne(left);
        break;
      }
      PowerBelowTwice(p, left);
      left := left / 2;
      p := 2 * p;
    }
    ghost var op := odd[..];
    for n := 0 to 32
      invariant forall i :: 0 <= i < n ==> even[i] == odd[i]
      invariant odd[..] == op
    {
      even[n] := odd[n];
    }
    assert even[..] == odd[..];
  }

  method OneBitMatrix(odd: array<bv32>)
    requires odd.Length == 32
    modifies odd
    ensures IsZerosOp(odd[..], 1)
  {
    hide Zeros, Shl, Advance, Double;
    OneZero(1);
    OneBitOp(0);
    ShlNone(1);
    odd[0] := POLY;
    var row: bv32 := 1;
    for n := 1 to 32
      invariant row == Shl(1, n - 1)
      invariant forall i :: 0 <= i < n ==> odd[i] == Zeros(Shl(1, i), 1)
    {
      OneZero(Shl(1, n));
      OneBitOp(n);
      ShlStep(1, n);
      odd[n] := row;
      row := Double(row);
    }
  }

  lemma PowerBelowTwice(p: nat, len: nat)
    requires len / 2 != 0
    ensures (2 * p) * PowerBelow(len / 2) == p * PowerBelow(len)
  {
    TimesTwo(p, PowerBelow(len / 2));
  }

  lemma PowerBelowOne(len: nat)
    requires len / 2 == 0
    ensures PowerBelow(len) == 1
  {
  }

  lemma TimesTwo(p: int, q: int)
    ensures (2 * p) * q == p * (2 * q)
  {
  }

  lemma OneZero(c: bv32)
    ensures Zeros(c, 1) == Advance(c)
  {
    hide Advance;
    assert Zeros(c, 0) == c;
  }

  lemma ShlStep(v: bv32, n: nat)
    requires n >= 1
    ensures Shl(v, n) == Double(Shl(v, n - 1))
  {
  }
}
