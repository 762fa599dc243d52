/** Fixed-point temperature compensation of the BME280 driver (mainboard/main/bmx280.c). */
module Bmx280 {
  import opened Common

  /** The sensor's calibration constants for the temperature. */
  datatype Calibration = Calibration(t1: u16, t2: i16, t3: i16)

  predicate Fits(x: int) { -0x8000_0000 <= x < 0x8000_0000 }

  /** The arithmetic right shift of the target: it rounds toward minus infinity. */
  function Shr(x: int, bits: nat): int { x / Pow2(bits) }

  lemma Shifts(x: int)
    ensures Shr(x, 3) == x / 8 && Shr(x, 4) == x / 16 && Shr(x, 8) == x / 256
    ensures Shr(x, 11) == x / 2048 && Shr(x, 12) == x / 4096 && Shr(x, 14) == x / 16384
  {
    assert Pow2(4) == 16 && Pow2(8) == 256 && Pow2(12) == 4096;
  }

  // ---- the computation, over unbounded integers ----

  function Coarse(c: Calibration, adc: int): int { Shr(adc, 3) - 2 * c.t1 }

  function Fine(c: Calibration, adc: int): int { Shr(adc, 4) - c.t1 }

  function Var1(c: Calibration, adc: int): int { Shr(Coarse(c, adc) * c.t2, 11) }

  function Var2(c: Calibration, adc: int): int {
    Shr(Shr(Fine(c, adc) * Fine(c, adc), 12) * c.t3, 14)
  }

  function TFine(c: Calibration, adc: int): int { Var1(c, adc) + Var2(c, adc) }

  /** Hundredths of a degree. */
  function Temperature(tFine: int): int { Shr(tFine * 5 + 128, 8) }

  /** No intermediate result leaves the 32-bit range. */
  predicate NoOverflow(c: Calibration, adc: int) {
    var x, y := Coarse(c, adc), Fine(c, adc);
    && Fits(Shr(adc, 3)) && Fits(2 * c.t1) && Fits(x) && Fits(x * c.t2)
    && Fits(Shr(adc, 4)) && Fits(y) && Fits(y * y)
    && Fits(Shr(y * y, 12)) && Fits(Shr(y * y, 12) * c.t3)
    && Fits(Var1(c, adc)) && Fits(Var2(c, adc))
    && Fits(TFine(c, adc)) && Fits(TFine(c, adc) * 5) && Fits(TFine(c, adc) * 5 + 128)
  }

  lemma AllShifts(c: Calibration, adc: int)
    ensures Coarse(c, adc) == adc / 8 - 2 * c.t1 && Shr(adc, 3) == adc / 8
    ensures Fine(c, adc) == adc / 16 - c.t1 && Shr(adc, 4) == adc / 16
    ensures Var1(c, adc) == Coarse(c, adc) * c.t2 / 2048
    ensures var y := Fine(c, adc);
      Shr(y * y, 12) == y * y / 4096 && Var2(c, adc) == Shr(y * y, 12) * c.t3 / 16384
  {
    Shifts(adc);
    Shifts(Coarse(c, adc) * c.t2);
    Shifts(Fine(c, adc) * Fine(c, adc));
    Shifts(Shr(Fine(c, adc) * Fine(c, adc), 12) * c.t3);
  }

  class Driver {
    var calibration: Calibration
    var tFine: int

    constructor (c: Calibration)
      ensures calibration == c && tFine == 0
    {
      calibration, tFine := c, 0;
    }

    /** The result, and the fine temperature that the other compensations start from. */
    method CompensateTemperature(adc: int) returns (t: int)
      modifies this`tFine
      ensures tFine == TFine(calibration, adc) && t == Temperature(tFine)
    {
      var c := calibration;
      var var1 := Shr((Shr(adc, 3) - 2 * c.t1) * c.t2, 11);
      var var2 := Shr(Shr((Shr(adc, 4) - c.t1) * (Shr(adc, 4) - c.t1), 12) * c.t3, 14);
      tFine := var1 + var2;
      t := Shr(tFine * 5 + 128, 8);
    }
  }

  // ---- overflow ----

  predicate Moderate(c: Calibration) { -16383 <= c.t2 <= 16383 && -4096 <= c.t3 <= 4096 }

  lemma Monotone(a: int, b: int, m: int, n: int)
    requires a <= m && -n <= b <= n && -m <= a
    ensures a * b <= m * n
  {
    if a >= 0 && b >= 0 {
      assert a * b <= m * b <= m * n;
    } else if a < 0 && b < 0 {
      assert a * b == (-a) * (-b) && (-a) * (-b) <= m * (-b) <= m * n;
    } else if a < 0 {
      assert a * b <= 0;
    } else {
      assert a * b <= 0;
    }
  }

  lemma ProductBound(a: int, b: int, m: int, n: int)
    requires -m <= a <= m && -n <= b <= n
    ensures -(m * n) <= a * b <= m * n
  {
    Monotone(a, b, m, n);
    Monotone(-a, b, m, n);
    assert (-a) * b == -(a * b);
  }

  lemma SquareFitsIff(y: int)
    ensures Fits(y * y) <==> -46340 <= y <= 46340
  {
    if -46340 <= y <= 46340 {
      ProductBound(y, y, 46340, 46340);
    } else {
      var z := if y < 0 then -y else y;
      assert z * z == y * y;
      assert z * z >= 46341 * z >= 46341 * 46341;
    }
  }

  lemma Var1Bound(c: Calibration, adc: int)
    requires 0 <= adc < 0x10_0000 && -16383 <= c.t2 <= 16383
    ensures Fits(Shr(adc, 3)) && Fits(Coarse(c, adc)) && Fits(Coarse(c, adc) * c.t2)
    ensures -1048576 <= Var1(c, adc) <= 1048576
  {
    AllShifts(c, adc);
    ProductBound(Coarse(c, adc), c.t2, 131071, 16383);
  }

  lemma Var2Bound(c: Calibration, adc: int)
    requires -4096 <= c.t3 <= 4096 && -46340 <= Fine(c, adc) <= 46340
    ensures var y := Fine(c, adc);
      0 <= Shr(y * y, 12) <= 524287 && Fits(Shr(y * y, 12) * c.t3) && -131072 <= Var2(c, adc) <= 131072
  {
    AllShifts(c, adc);
    var y := Fine(c, adc);
    ProductBound(y, y, 46340, 46340);
    assert y * y >= 0;
    ProductBound(Shr(y * y, 12), c.t3, 524287, 4096);
  }

  lemma QuotientSmall(p: int, d: int, bound: int)
    requires Fits(p) && d > 0 && d * bound == 0x8000_0000
    ensures -bound <= p / d < bound
  {
    QuotientReaches(p, d, bound);
    QuotientReaches(p, d, -bound);
  }

  /** For 20-bit readings and any constants, three products decide whether the computation stays
      within 32 bits. */
  lemma NoOverflowExactly(c: Calibration, adc: int)
    requires 0 <= adc < 0x10_0000
    ensures NoOverflow(c, adc) <==>
      && Fits(Coarse(c, adc) * c.t2) && -46340 <= Fine(c, adc) <= 46340
      && Fits(Shr(Fine(c, adc) * Fine(c, adc), 12) * c.t3)
  {
    AllShifts(c, adc);
    var x, y := Coarse(c, adc), Fine(c, adc);
    SquareFitsIff(y);
    assert y * y >= 0 && Shr(y * y, 12) <= y * y;
    if Fits(x * c.t2) && Fits(Shr(y * y, 12) * c.t3) {
      QuotientSmall(x * c.t2, 2048, 0x10_0000);
      QuotientSmall(Shr(y * y, 12) * c.t3, 16384, 0x2_0000);
    }
  }

  /** With moderate constants only the square matters. */
  lemma NoOverflowIff(c: Calibration, adc: int)
    requires 0 <= adc < 0x10_0000 && Moderate(c)
    ensures NoOverflow(c, adc) <==> -46340 <= Fine(c, adc) <= 46340
  {
    NoOverflowExactly(c, adc);
    if -46340 <= Fine(c, adc) <= 46340 {
      Var1Bound(c, adc);
      Var2Bound(c, adc);
    }
  }

  // ---- accuracy ----

  /** The exact fine temperature, times 2 to the 34th, with y = adc - 16 * T1. */
  function Scaled(c: Calibration, adc: int): int {
    var y := adc - 16 * c.t1;
    y * c.t2 * 0x10_0000 + y * y * c.t3
  }

  const SCALE := 0x4_0000_0000

  lemma LinearClose(x: int, y: int, t: int, v: int)
    requires 0 <= y - 8 * x <= 7 && 0 <= x * t - 2048 * v <= 2047 && -16383 <= t <= 16383
    ensures -131072 <= v * 16384 - y * t <= 131072
  {
    var e := y - 8 * x;
    assert y * t == 8 * (x * t) + e * t;
    ProductBound(e, t, 7, 16383);
  }

  lemma Var1Close(c: Calibration, adc: int)
    requires -16383 <= c.t2 <= 16383
    ensures -131072 <= Var1(c, adc) * 16384 - (adc - 16 * c.t1) * c.t2 <= 131072
  {
    AllShifts(c, adc);
    LinearClose(Coarse(c, adc), adc - 16 * c.t1, c.t2, Var1(c, adc));
  }

  lemma SquareSplit(x: int, r: int, y: int)
    requires y == 16 * x + r
    ensures y * y == 256 * (x * x) + 32 * (x * r) + r * r
  {
  }

  lemma Distribute(q: int, w: int, t: int)
    ensures (0x10_0000 * q + w) * t == 0x10_0000 * (q * t) + w * t
  {
  }

  lemma Var2Close(c: Calibration, adc: int)
    requires -4096 <= c.t3 <= 4096 && -46340 <= Fine(c, adc) <= 46340
    ensures var y := adc - 16 * c.t1;
      -7 * SCALE <= Var2(c, adc) * SCALE - y * y * c.t3 <= 7 * SCALE
  {
    AllShifts(c, adc);
    var x, y := Fine(c, adc), adc - 16 * c.t1;
    var r, q := y - 16 * x, Shr(x * x, 12);
    var h, k := x * x - 4096 * q, q * c.t3 - 16384 * Var2(c, adc);
    assert 0 <= r <= 15 && 0 <= h <= 4095 && 0 <= k <= 16383;
    var w := 256 * h + 32 * (x * r) + r * r;
    SquareSplit(x, r, y);
    assert y * y == 0x10_0000 * q + w;
    assert y * y * c.t3 == 0x10_0000 * (q * c.t3) + w * c.t3 by { Distribute(q, w, c.t3); }
    ProductBound(x, r, 46340, 15);
    ProductBound(r, r, 15, 15);
    ProductBound(w, c.t3, 256 * 4095 + 32 * 46340 * 15 + 225, 4096);
  }

  lemma ScaledClose(c: Calibration, adc: int)
    requires Moderate(c) && -46340 <= Fine(c, adc) <= 46340
    ensures -15 * SCALE <= TFine(c, adc) * SCALE - Scaled(c, adc) <= 15 * SCALE
  {
    Var1Close(c, adc);
    Var2Close(c, adc);
    var y := adc - 16 * c.t1;
    assert y * c.t2 * 0x10_0000 == 0x10_0000 * (y * c.t2);
  }

  /** The formula of the sensor's data sheet, over the reals. */
  function Exact(c: Calibration, adc: int): real {
    var d := adc as real / 131072.0 - c.t1 as real / 8192.0;
    (adc as real / 16384.0 - c.t1 as real / 1024.0) * c.t2 as real + d * d * c.t3 as real
  }

  lemma RealSquare(d: real, y: real, t: real)
    requires d * 131072.0 == y
    ensures (d * d * t) * SCALE as real == y * y * t
  {
    assert y * y == (d * d) * (131072.0 * 131072.0);
    assert y * y * t == (d * d * t) * (131072.0 * 131072.0);
  }

  lemma RealProduct(d: real, y: real, t: real)
    requires d * 16384.0 == y
    ensures (d * t) * SCALE as real == (y * t) * 1048576.0
  {
    assert y * t == (d * t) * 16384.0;
  }

  lemma ExactScaled(c: Calibration, adc: int)
    ensures Exact(c, adc) * SCALE as real == Scaled(c, adc) as real
  {
    var y := adc - 16 * c.t1;
    var d := adc as real / 131072.0 - c.t1 as real / 8192.0;
    assert d * 131072.0 == y as real;
    RealSquare(d, y as real, c.t3 as real);
    assert (y * c.t2) as real == y as real * c.t2 as real;
    assert (y * y) as real == y as real * y as real;
    assert (y * y * c.t3) as real == (y * y) as real * c.t3 as real;
    RealProduct(d * 8.0, y as real, c.t2 as real);
  }

  /** The fine temperature as the source writes it, with shifts as divisions that round down. */
  lemma FineTemperature(c: Calibration, adc: int)
    ensures TFine(c, adc)
      == (adc / 8 - 2 * c.t1) * c.t2 / 2048 + (adc / 16 - c.t1) * (adc / 16 - c.t1) / 4096 * c.t3 / 16384
  {
    AllShifts(c, adc);
  }

  /** Hundredths of a degree are 5/256 of the fine temperature, rounded to the nearest. */
  lemma TemperatureRounds(t: int)
    ensures -128 < 256 * Temperature(t) - 5 * t <= 128
  {
    Shifts(t * 5 + 128);
  }

  predicate Near(a: real, b: real, slack: real) { -slack <= a - b <= slack }

  lemma Unscale(t: int, scaled: int, exact: real)
    requires -15 * SCALE <= t * SCALE - scaled <= 15 * SCALE && exact * SCALE as real == scaled as real
    ensures Near(t as real, exact, 15.0)
  {
    assert (t * SCALE) as real == t as real * SCALE as real;
    assert (t * SCALE - scaled) as real == (t as real - exact) * SCALE as real;
  }

  lemma Rounded(t: int, exact: real)
    requires Near(t as real, exact, 15.0)
    ensures Near(Temperature(t) as real, exact * 5.0 / 256.0, 0.8)
  {
    Shifts(t * 5 + 128);
    var n := Temperature(t);
    assert 256 * n <= t * 5 + 128 < 256 * n + 256;
    assert 256.0 * n as real <= t as real * 5.0 + 128.0 < 256.0 * n as real + 256.0;
  }

  /** For all its truncations the fine temperature is within 15 of the exact rational, and the
      result within 0.8 hundredths of a degree. */
  lemma CompensationIsClose(c: Calibration, adc: int)
    requires Moderate(c) && -46340 <= Fine(c, adc) <= 46340
    ensures Near(TFine(c, adc) as real, Exact(c, adc), 15.0)
    ensures Near(Temperature(TFine(c, adc)) as real, Exact(c, adc) * 5.0 / 256.0, 0.8)
  {
    ScaledClose(c, adc);
    ExactScaled(c, adc);
    Unscale(TFine(c, adc), Scaled(c, adc), Exact(c, adc));
    Rounded(TFine(c, adc), Exact(c, adc));
  }
}
