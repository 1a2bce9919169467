/**
 The complex dot product at the heart of the cf32 filter: the plain loop and the two hand-written
 SIMD forms, all computing the same sum in exact arithmetic.
 */
module DotProducts {
  import opened ComplexNumbers

  /** Sum of w[i] * t[i] over the first `n` positions. */
  function Dot(w: seq<Complex>, t: seq<Complex>, n: nat): Complex
    requires n <= |w| && n <= |t|
  {
    if n == 0 then ZERO else Add(Dot(w, t, n - 1), Mul(w[n - 1], t[n - 1]))
  }

  function Zeros(n: nat): (z: seq<Complex>)
    ensures |z| == n
  {
    seq(n, _ => ZERO)
  }

  /** The taps moved `shift` places to the right by leading zeros. */
  function Shifted(taps: seq<Complex>, shift: nat): (t: seq<Complex>)
    ensures |t| == shift + |taps|
  {
    Zeros(shift) + taps
  }

  /** The dot product only looks at the first `n` elements. */
  lemma {:induction false} DotPrefix(w: seq<Complex>, t: seq<Complex>, w': seq<Complex>, t': seq<Complex>, n: nat)
    requires n <= |w| && n <= |t| && n <= |w'| && n <= |t'|
    requires forall i :: 0 <= i < n ==> w[i] == w'[i] && t[i] == t'[i]
    ensures Dot(w, t, n) == Dot(w', t', n)
  {
    if n == 0 {
    } else {
      DotPrefix(w, t, w', t', n - 1);
    }
  }

  /**
   Starting `shift` samples early with taps that have `shift` leading zeros does not change the
   dot product, whatever those samples are.
   */
  lemma {:induction false} DotShifted(w: seq<Complex>, taps: seq<Complex>, shift: nat, n: nat)
    requires shift + n <= |w| && n <= |taps|
    ensures Dot(w, Shifted(taps, shift), shift + n) == Dot(w[shift..], taps, n)
    decreases shift + n
  {
    var t := Shifted(taps, shift);
    if n > 0 {
      DotShifted(w, taps, shift, n - 1);
      assert t[shift + n - 1] == taps[n - 1];
    } else if shift > 0 {
      DotPrefix(w, t, w, Shifted(taps, shift - 1), shift - 1);
      DotShifted(w, taps, shift - 1, 0);
      assert t[shift - 1] == ZERO;
      MulOne(w[shift - 1]);
    }
  }

  lemma Dot4(w: seq<Complex>, t: seq<Complex>, n: nat)
    requires n + 4 <= |w| && n + 4 <= |t|
    ensures Dot(w, t, n + 4)
            == Add(Add(Add(Add(Dot(w, t, n), Mul(w[n], t[n])), Mul(w[n + 1], t[n + 1])), Mul(w[n + 2], t[n + 2])),
                   Mul(w[n + 3], t[n + 3]))
  {
    assert Dot(w, t, n + 1) == Add(Dot(w, t, n), Mul(w[n], t[n]));
    assert Dot(w, t, n + 2) == Add(Dot(w, t, n + 1), Mul(w[n + 1], t[n + 1]));
    assert Dot(w, t, n + 3) == Add(Dot(w, t, n + 2), Mul(w[n + 2], t[n + 2]));
  }

  /** One turn of the tail loops of the SIMD forms. */
  method TailStep(x: Complex, y: Complex, realSum: real, imagSum: real) returns (re: real, im: real)
    ensures Complex(re, im) == Add(Complex(realSum, imagSum), Mul(x, y))
  {
    re := realSum + x.re * y.re;
    im := imagSum + x.re * y.im;
    re := re - x.im * y.im;
    im := im + x.im * y.re;
    assert Mul(x, y).re == x.re * y.re - x.im * y.im && Mul(x, y).im == x.re * y.im + x.im * y.re;
  }

  // ---- Plain loop ----

  method DotNative(a: array<Complex>, start: nat, taps: seq<Complex>, n: nat) returns (temp: Complex)
    requires start + n <= a.Length && n <= |taps|
    ensures temp == Dot(a[start..start + n], taps, n)
  {
    ghost var w := a[start..start + n];
    temp := ZERO;
    for i := 0 to n
      invariant temp == Dot(w, taps, i)
    {
      temp := Add(temp, Mul(a[start + i], taps[i]));
    }
  }

  // ---- NEON: four lanes, de-interleaving loads, eight samples per round ----

  datatype F32x4 = F32x4(l0: real, l1: real, l2: real, l3: real)

  /** vld2q_f32: the real parts and the imaginary parts of four consecutive samples. */
  function Vld2q(s: seq<Complex>): (F32x4, F32x4)
    requires |s| == 4
  {
    (F32x4(s[0].re, s[1].re, s[2].re, s[3].re), F32x4(s[0].im, s[1].im, s[2].im, s[3].im))
  }

  /** vmlaq_f32: acc + x * y per lane. */
  function Vmlaq(acc: F32x4, x: F32x4, y: F32x4): F32x4 {
    F32x4(acc.l0 + x.l0 * y.l0, acc.l1 + x.l1 * y.l1, acc.l2 + x.l2 * y.l2, acc.l3 + x.l3 * y.l3)
  }

  /** vmlsq_f32: acc - x * y per lane. */
  function Vmlsq(acc: F32x4, x: F32x4, y: F32x4): F32x4 {
    F32x4(acc.l0 - x.l0 * y.l0, acc.l1 - x.l1 * y.l1, acc.l2 - x.l2 * y.l2, acc.l3 - x.l3 * y.l3)
  }

  /** vpadd_f32 of the two halves, then the sum of its two lanes. */
  function HorizontalSum(v: F32x4): real {
    (v.l0 + v.l1) + (v.l2 + v.l3)
  }

  /** The two accumulators, accR and accI. */
  datatype NeonAcc = NeonAcc(re: F32x4, im: F32x4)

  /** Half a round: load four samples and four taps, multiply and accumulate lane by lane. */
  function NeonHalfRound(acc: NeonAcc, x: seq<Complex>, y: seq<Complex>): NeonAcc
    requires |x| == |y| == 4
  {
    var (xr, xi) := Vld2q(x);
    var (yr, yi) := Vld2q(y);
    NeonAcc(Vmlsq(Vmlaq(acc.re, xr, yr), xi, yi), Vmlaq(Vmlaq(acc.im, xi, yr), xr, yi))
  }

  function NeonSum(acc: NeonAcc): Complex {
    Complex(HorizontalSum(acc.re), HorizontalSum(acc.im))
  }

  /** Half a round adds exactly the products of its four samples, whatever lane they went to. */
  lemma NeonStep(w: seq<Complex>, t: seq<Complex>, n: nat, acc: NeonAcc)
    requires n + 4 <= |w| && n + 4 <= |t|
    requires NeonSum(acc) == Dot(w, t, n)
    ensures NeonSum(NeonHalfRound(acc, w[n..n + 4], t[n..n + 4])) == Dot(w, t, n + 4)
  {
    Dot4(w, t, n);
  }

  /** Half a round of the loop, starting at `pos`. */
  method NeonHalf(a: array<Complex>, start: nat, taps: seq<Complex>, n: nat, pos: nat, acc: NeonAcc)
    returns (next: NeonAcc)
    requires start + n <= a.Length && n <= |taps| && pos + 4 <= n
    requires NeonSum(acc) == Dot(a[start..start + n], taps, pos)
    ensures NeonSum(next) == Dot(a[start..start + n], taps, pos + 4)
  {
    NeonStep(a[start..start + n], taps, pos, acc);
    Slice(a, start, n, pos);
    next := NeonHalfRound(acc, a[start + pos..start + pos + 4], taps[pos..pos + 4]);
  }

  method DotNeon(a: array<Complex>, start: nat, taps: seq<Complex>, n: nat) returns (sum: Complex)
    requires start + n <= a.Length && n <= |taps|
    ensures sum == Dot(a[start..start + n], taps, n)
  {
    ghost var w := a[start..start + n];
    var acc := NeonAcc(F32x4(0.0, 0.0, 0.0, 0.0), F32x4(0.0, 0.0, 0.0, 0.0));
    var pos := 0;
    var blkCnt := n / 8;
    while blkCnt > 0
      invariant 0 <= blkCnt && pos + 8 * blkCnt + n % 8 == n
      invariant NeonSum(acc) == Dot(w, taps, pos)
    {
      acc := NeonHalf(a, start, taps, n, pos, acc);
      pos := pos + 4;
      acc := NeonHalf(a, start, taps, n, pos, acc);
      pos := pos + 4;
      blkCnt := blkCnt - 1;
    }
    var realSum, imagSum := HorizontalSum(acc.re), HorizontalSum(acc.im);
    blkCnt := n % 8;
    while blkCnt > 0
      invariant 0 <= blkCnt && pos + blkCnt == n
      invariant Complex(realSum, imagSum) == Dot(w, taps, pos)
    {
      realSum, imagSum := TailStep(a[start + pos], taps[pos], realSum, imagSum);
      pos := pos + 1;
      blkCnt := blkCnt - 1;
    }
    sum := Complex(realSum, imagSum);
  }

  lemma Slice(a: array<Complex>, start: nat, n: nat, pos: nat)
    requires start + n <= a.Length && pos + 4 <= n
    ensures a[start..start + n][pos..pos + 4] == a[start + pos..start + pos + 4]
  {
    var x, y := a[start..start + n][pos..pos + 4], a[start + pos..start + pos + 4];
    assert forall i :: 0 <= i < 4 ==> x[i] == y[i];
  }

  // ---- AVX: eight interleaved lanes, shuffle and addsub, four samples per round ----

  datatype F32x8 = F32x8(l0: real, l1: real, l2: real, l3: real, l4: real, l5: real, l6: real, l7: real)

  /** _mm256_load_ps: four samples as eight interleaved lanes. */
  function Load8(s: seq<Complex>): F32x8
    requires |s| == 4
  {
    F32x8(s[0].re, s[0].im, s[1].re, s[1].im, s[2].re, s[2].im, s[3].re, s[3].im)
  }

  /** _mm256_moveldup_ps: every even lane twice. */
  function Moveldup(v: F32x8): F32x8 {
    F32x8(v.l0, v.l0, v.l2, v.l2, v.l4, v.l4, v.l6, v.l6)
  }

  /** _mm256_movehdup_ps: every odd lane twice. */
  function Movehdup(v: F32x8): F32x8 {
    F32x8(v.l1, v.l1, v.l3, v.l3, v.l5, v.l5, v.l7, v.l7)
  }

  /** _mm256_shuffle_ps(v, v, 0xB1): neighbours swapped. */
  function SwapPairs(v: F32x8): F32x8 {
    F32x8(v.l1, v.l0, v.l3, v.l2, v.l5, v.l4, v.l7, v.l6)
  }

  function Mul8(x: F32x8, y: F32x8): F32x8 {
    F32x8(x.l0 * y.l0, x.l1 * y.l1, x.l2 * y.l2, x.l3 * y.l3, x.l4 * y.l4, x.l5 * y.l5, x.l6 * y.l6, x.l7 * y.l7)
  }

  /** _mm256_addsub_ps: even lanes subtracted, odd lanes added. */
  function Addsub(x: F32x8, y: F32x8): F32x8 {
    F32x8(x.l0 - y.l0, x.l1 + y.l1, x.l2 - y.l2, x.l3 + y.l3, x.l4 - y.l4, x.l5 + y.l5, x.l6 - y.l6, x.l7 + y.l7)
  }

  function Add8(x: F32x8, y: F32x8): F32x8 {
    F32x8(x.l0 + y.l0, x.l1 + y.l1, x.l2 + y.l2, x.l3 + y.l3, x.l4 + y.l4, x.l5 + y.l5, x.l6 + y.l6, x.l7 + y.l7)
  }

  /** The lanes read back as four complex numbers and added to `first` in order. */
  function SumStored(first: Complex, v: F32x8): Complex {
    Add(Add(Add(Add(first, Complex(v.l0, v.l1)), Complex(v.l2, v.l3)), Complex(v.l4, v.l5)), Complex(v.l6, v.l7))
  }

  /** The lanes one round adds: moveldup, multiply, swap, movehdup, multiply, addsub. */
  function AvxProducts(x: seq<Complex>, y: seq<Complex>): F32x8
    requires |x| == |y| == 4
  {
    var u, v := Load8(x), Load8(y);
    Addsub(Mul8(u, Moveldup(v)), Mul8(SwapPairs(u), Movehdup(v)))
  }

  /** The shuffles leave the complex products of corresponding samples in neighbouring lanes. */
  lemma AvxProductsAreProducts(x: seq<Complex>, y: seq<Complex>)
    requires |x| == |y| == 4
    ensures var z := AvxProducts(x, y);
            && Complex(z.l0, z.l1) == Mul(x[0], y[0])
            && Complex(z.l2, z.l3) == Mul(x[1], y[1])
            && Complex(z.l4, z.l5) == Mul(x[2], y[2])
            && Complex(z.l6, z.l7) == Mul(x[3], y[3])
  {
  }

  lemma SumStoredAdd(first: Complex, v: F32x8, z: F32x8)
    ensures SumStored(first, Add8(v, z)) == SumStored(SumStored(first, v), z)
  {
  }

  lemma AvxStep(w: seq<Complex>, t: seq<Complex>, n: nat, res: F32x8)
    requires n + 4 <= |w| && n + 4 <= |t|
    requires SumStored(ZERO, res) == Dot(w, t, n)
    ensures SumStored(ZERO, Add8(res, AvxProducts(w[n..n + 4], t[n..n + 4]))) == Dot(w, t, n + 4)
  {
    var z := AvxProducts(w[n..n + 4], t[n..n + 4]);
    AvxProductsAreProducts(w[n..n + 4], t[n..n + 4]);
    SumStoredAdd(ZERO, res, z);
    Dot4(w, t, n);
  }

  /** One round of the loop, starting at `pos`. */
  method AvxRound(a: array<Complex>, start: nat, taps: seq<Complex>, n: nat, pos: nat, res: F32x8)
    returns (next: F32x8)
    requires start + n <= a.Length && n <= |taps| && pos + 4 <= n
    requires SumStored(ZERO, res) == Dot(a[start..start + n], taps, pos)
    ensures SumStored(ZERO, next) == Dot(a[start..start + n], taps, pos + 4)
  {
    Slice(a, start, n, pos);
    AvxStep(a[start..start + n], taps, pos, res);
    var x := Load8(a[start + pos..start + pos + 4]);
    var y := Load8(taps[pos..pos + 4]);
    var yl := Moveldup(y);
    var yh := Movehdup(y);
    var tmp1 := Mul8(x, yl);
    x := SwapPairs(x);
    var tmp2 := Mul8(x, yh);
    var z := Addsub(tmp1, tmp2);
    next := Add8(res, z);
  }

  lemma SumStoredReals(re: real, im: real, v: F32x8)
    ensures SumStored(Complex(re, im), v) == Add(Complex(re, im), SumStored(ZERO, v))
  {
  }

  method DotAvx(a: array<Complex>, start: nat, taps: seq<Complex>, n: nat) returns (sum: Complex)
    requires start + n <= a.Length && n <= |taps|
    ensures sum == Dot(a[start..start + n], taps, n)
  {
    ghost var w := a[start..start + n];
    var res := F32x8(0.0, 0.0, 0.0, 0.0, 0.0, 0.0, 0.0, 0.0);
    var pos := 0;
    var blkCnt := n / 4;
    while blkCnt > 0
      invariant 0 <= blkCnt && pos + 4 * blkCnt + n % 4 == n
      invariant SumStored(ZERO, res) == Dot(w, taps, pos)
    {
      res := AvxRound(a, start, taps, n, pos, res);
      pos := pos + 4;
      blkCnt := blkCnt - 1;
    }
    blkCnt := n % 4;
    var realSum, imagSum := 0.0, 0.0;
    ghost var stored := SumStored(ZERO, res);
    while blkCnt > 0
      invariant 0 <= blkCnt && pos + blkCnt == n
      invariant Add(Complex(realSum, imagSum), stored) == Dot(w, taps, pos)
    {
      realSum, imagSum := TailStep(a[start + pos], taps[pos], realSum, imagSum);
      pos := pos + 1;
      blkCnt := blkCnt - 1;
    }
    SumStoredReals(realSum, imagSum, res);
    sum := SumStored(Complex(realSum, imagSum), res);
  }
}
