/** Polynomials over GF(2) as coefficient sequences, highest power first, and
    division with remainder stated by its defining equation. */
module Gf2 {

  type Poly = seq<bool>

  /** The coefficient at place i, counting from the highest power; zero outside. */
  predicate At(p: Poly, i: int) {
    0 <= i < |p| && p[i]
  }

  /** Product by Horner's rule: (q * x + b) * g == (q * g) * x + b * g. */
  function Times(q: Poly, g: Poly): (p: Poly)
    requires g != []
    ensures |p| == |q| + |g| - 1
    decreases q
  {
    var n := |q| - 1;
    if q == [] then seq(|g| - 1, _ => false)
    else
      var high := Times(q[..n], g);
      seq(|q| + |g| - 1, i => At(high, i) != (q[n] && At(g, i - n)))
  }

  /** p == quotient * g + r, with the degree of r below that of g. */
  ghost predicate Divides(p: Poly, g: Poly, quotient: Poly, r: Poly) {
    && g != [] && |r| == |g| - 1 && |p| == |quotient| + |r|
    && forall i :: 0 <= i < |p| ==> p[i] == (Times(quotient, g)[i] != At(r, i - |quotient|))
  }

  ghost predicate IsRemainder(p: Poly, g: Poly, r: Poly) {
    exists quotient :: Divides(p, g, quotient, r)
  }

  /** The coefficient of a product at the place of q[i] is decided by q[..i + 1] alone. */
  lemma {:induction false} TimesHead(q: Poly, g: Poly, i: nat)
    requires g != [] && g[0] && i < |q|
    ensures Times(q, g)[i] == (At(Times(q[..i], g), i) != q[i])
    decreases |q|
  {
    var n := |q| - 1;
    if i < n {
      TimesHead(q[..n], g, i);
      assert q[..n][..i] == q[..i];
      assert !At(g, i - n);
    }
  }

  lemma {:induction false} QuotientUnique(p: Poly, g: Poly, q1: Poly, r1: Poly, q2: Poly, r2: Poly, i: nat)
    requires g != [] && g[0]
    requires Divides(p, g, q1, r1) && Divides(p, g, q2, r2) && i <= |q1|
    ensures q1[..i] == q2[..i]
    decreases i
  {
    if i > 0 {
      var k := i - 1;
      QuotientUnique(p, g, q1, r1, q2, r2, k);
      TimesHead(q1, g, k);
      TimesHead(q2, g, k);
      assert p[k] == Times(q1, g)[k] == Times(q2, g)[k];
      assert q1[..i] == q1[..k] + [q1[k]] && q2[..i] == q2[..k] + [q2[k]];
    }
  }

  /** Division by a polynomial with leading coefficient 1 has one remainder. */
  lemma RemainderUnique(p: Poly, g: Poly, r1: Poly, r2: Poly)
    requires g != [] && g[0]
    requires IsRemainder(p, g, r1) && IsRemainder(p, g, r2)
    ensures r1 == r2
  {
    var q1 :| Divides(p, g, q1, r1);
    var q2 :| Divides(p, g, q2, r2);
    var n := |q1|;
    QuotientUnique(p, g, q1, r1, q2, r2, n);
    assert q1 == q1[..n] == q2[..n] == q2;
    forall i | 0 <= i < |r1| ensures r1[i] == r2[i] {
      assert p[n + i] == (Times(q1, g)[n + i] != At(r1, i));
      assert p[n + i] == (Times(q2, g)[n + i] != At(r2, i));
    }
  }

  // ---- the shift register, one coefficient at a time ----

  /** The next remainder when the coefficient b arrives one degree above the register. */
  function Shift(r: Poly, b: bool, g: Poly): (s: Poly)
    requires |r| > 0 && |g| == |r| + 1
    ensures |s| == |r|
  {
    seq(|r|, i => At(r, i + 1) != ((r[0] != b) && At(g, i + 1)))
  }

  function ShiftAll(r: Poly, bits: Poly, g: Poly): (s: Poly)
    requires |r| > 0 && |g| == |r| + 1
    ensures |s| == |r|
    decreases bits
  {
    if bits == [] then r
    else Shift(ShiftAll(r, bits[..|bits| - 1], g), bits[|bits| - 1], g)
  }

  lemma {:induction false} ShiftAllAppend(r: Poly, a: Poly, b: Poly, g: Poly)
    requires |r| > 0 && |g| == |r| + 1
    ensures ShiftAll(r, a + b, g) == ShiftAll(ShiftAll(r, a, g), b, g)
    decreases b
  {
    if b == [] {
      assert a + b == a;
    } else {
      assert (a + b)[..|a + b| - 1] == a + b[..|b| - 1];
      ShiftAllAppend(r, a, b[..|b| - 1], g);
    }
  }

  /** What the register divides: bits moved up by the preset's length, plus the preset on top. */
  function Dividend(bits: Poly, preset: Poly): (p: Poly)
    ensures |p| == |bits| + |preset|
  {
    seq(|bits| + |preset|, i => At(bits, i) != At(preset, i))
  }

  /** One long-division step keeps the defining equation. */
  lemma DivisionStep(p: Poly, g: Poly, quotient: Poly, r: Poly, b: bool, p': Poly)
    requires Divides(p, g, quotient, r) && g[0] && |r| > 0
    requires |p'| == |p| + 1
    requires forall i :: 0 <= i < |p'| ==> p'[i] == (At(p, i) != (b && i == |quotient|))
    ensures Divides(p', g, quotient + [r[0] != b], Shift(r, b, g))
  {
    var t, n := r[0] != b, |quotient|;
    var q, s := quotient + [t], Shift(r, b, g);
    assert q[..n] == quotient;
    forall i | 0 <= i < |p'| ensures p'[i] == (Times(q, g)[i] != At(s, i - n - 1)) {
      assert Times(q, g)[i] == (At(Times(quotient, g), i) != (t && At(g, i - n)));
      assert At(p, i) == (At(Times(quotient, g), i) != At(r, i - n));
      if i > n {
        assert At(s, i - n - 1) == (At(r, i - n) != (t && At(g, i - n)));
      }
    }
  }

  /** The register holds a remainder of everything shifted in so far. */
  lemma {:induction false} ShiftAllIsRemainder(preset: Poly, bits: Poly, g: Poly)
    requires |preset| > 0 && |g| == |preset| + 1 && g[0]
    ensures IsRemainder(Dividend(bits, preset), g, ShiftAll(preset, bits, g))
    decreases bits
  {
    if bits == [] {
      assert Divides(Dividend([], preset), g, [], preset);
    } else {
      var n := |bits| - 1;
      var p, r := Dividend(bits[..n], preset), ShiftAll(preset, bits[..n], g);
      ShiftAllIsRemainder(preset, bits[..n], g);
      var quotient :| Divides(p, g, quotient, r);
      DivisionStep(p, g, quotient, r, bits[n], Dividend(bits, preset));
    }
  }

  /** The register with a whole word of input added on top. */
  function Overlay(r: Poly, w: Poly): (s: Poly)
    ensures |s| == |r|
  {
    seq(|r|, i => At(r, i) != At(w, i))
  }

  function Idle(n: nat): (z: Poly)
    ensures |z| == n
  {
    seq(n, _ => false)
  }

  lemma OverlayShift(r: Poly, w: Poly, g: Poly)
    requires 0 < |w| <= |r| && |g| == |r| + 1
    ensures Shift(Overlay(r, w), false, g) == Overlay(Shift(r, w[0], g), w[1..])
  {
    var lhs, rhs := Shift(Overlay(r, w), false, g), Overlay(Shift(r, w[0], g), w[1..]);
    forall i | 0 <= i < |r| ensures lhs[i] == rhs[i] {
      assert At(Overlay(r, w), i + 1) == (At(r, i + 1) != At(w, i + 1));
      assert At(w[1..], i) == At(w, i + 1);
    }
  }

  /** Adding up to a register's width of input first and then shifting equals shifting it in. */
  lemma {:induction false} OverlayThenIdle(r: Poly, w: Poly, g: Poly, j: nat)
    requires j <= |w| <= |r| && 0 < |r| && |g| == |r| + 1
    ensures ShiftAll(Overlay(r, w), Idle(j), g) == Overlay(ShiftAll(r, w[..j], g), w[j..])
    decreases j
  {
    if j == 0 {
      assert w[0..] == w;
    } else {
      var s := ShiftAll(r, w[..j - 1], g);
      OverlayThenIdle(r, w, g, j - 1);
      OverlayShift(s, w[j - 1..], g);
      assert Idle(j)[..j - 1] == Idle(j - 1);
      assert w[..j][..j - 1] == w[..j - 1];
      assert w[j - 1..][1..] == w[j..];
    }
  }

  lemma OverlayAllThenIdle(r: Poly, w: Poly, g: Poly)
    requires |w| <= |r| && 0 < |r| && |g| == |r| + 1
    ensures ShiftAll(Overlay(r, w), Idle(|w|), g) == ShiftAll(r, w, g)
  {
    OverlayThenIdle(r, w, g, |w|);
    assert w[..|w|] == w && w[|w|..] == [];
    assert Overlay(ShiftAll(r, w, g), []) == ShiftAll(r, w, g);
  }

  // ---- bursts ----

  /** Every divisor of interest has leading and constant coefficient 1. */
  predicate IsGenerator(g: Poly, width: nat) {
    width > 0 && |g| == width + 1 && g[0] && g[width]
  }

  lemma ShiftInjective(u: Poly, v: Poly, b: bool, g: Poly)
    requires |u| == |v| && IsGenerator(g, |u|) && Shift(u, b, g) == Shift(v, b, g)
    ensures u == v
  {
    var last := |u| - 1;
    assert Shift(u, b, g)[last] == (u[0] != b) && Shift(v, b, g)[last] == (v[0] != b);
    forall i | 0 < i < |u| ensures u[i] == v[i] {
      assert Shift(u, b, g)[i - 1] == Shift(v, b, g)[i - 1];
    }
  }

  lemma {:induction false} ShiftAllInjective(u: Poly, v: Poly, bits: Poly, g: Poly)
    requires |u| == |v| && IsGenerator(g, |u|) && ShiftAll(u, bits, g) == ShiftAll(v, bits, g)
    ensures u == v
    decreases bits
  {
    if bits != [] {
      var n := |bits| - 1;
      ShiftInjective(ShiftAll(u, bits[..n], g), ShiftAll(v, bits[..n], g), bits[n], g);
      ShiftAllInjective(u, v, bits[..n], g);
    }
  }

  /** 1 where the coefficients at place i differ, else 0. */
  function Gap(u: Poly, v: Poly, i: int): nat {
    if At(u, i) == At(v, i) then 0 else 1
  }

  lemma RewindOne(u: Poly, v: Poly, a: bool, b: bool, u': Poly, v': Poly, g: Poly, p: nat)
    requires |u| == |v| && IsGenerator(g, |u|) && p < |u|
    requires u' == Shift(u, a, g) && v' == Shift(v, b, g) && Gap(u', v', |u| - 1) == 0
    ensures Gap(u, v, p) == if p == 0 then Gap([a], [b], 0) else Gap(u', v', p - 1)
  {
    var last := |u| - 1;
    assert u'[last] == (u[0] != a) && v'[last] == (v[0] != b);
    if p > 0 {
      assert u'[p - 1] == (u[p] != ((u[0] != a) && g[p]));
      assert v'[p - 1] == (v[p] != ((v[0] != b) && g[p]));
    }
  }

  /** us holds the register before each input of x and after the last. */
  ghost predicate IsTrace(us: seq<Poly>, x: Poly, g: Poly, width: nat) {
    && width > 0 && |g| == width + 1 && |us| == |x| + 1
    && (forall k :: 0 <= k < |us| ==> |us[k]| == width)
    && (forall k :: 0 <= k < |x| ==> us[k + 1] == Shift(us[k], x[k], g))
  }

  lemma {:induction false} TraceOf(r: Poly, x: Poly, g: Poly) returns (us: seq<Poly>)
    requires |r| > 0 && |g| == |r| + 1
    ensures IsTrace(us, x, g, |r|) && us[0] == r && us[|x|] == ShiftAll(r, x, g)
    decreases x
  {
    if x == [] {
      us := [r];
    } else {
      var init := TraceOf(r, x[..|x| - 1], g);
      us := init + [ShiftAll(r, x, g)];
    }
  }

  /** Two runs that end alike, taken back to their first k inputs: with no more input left
      than the register is wide, the registers differ exactly where that input differs. */
  lemma {:induction false} Rewind(us: seq<Poly>, vs: seq<Poly>, x: Poly, y: Poly, g: Poly, k: nat, p: nat)
    requires us != [] && |x| == |y| && k <= |x| && p < |us[0]| && |x| <= k + |us[0]|
    requires IsTrace(us, x, g, |us[0]|) && IsTrace(vs, y, g, |us[0]|) && IsGenerator(g, |us[0]|)
    requires us[|x|] == vs[|x|]
    ensures Gap(us[k], vs[k], p) == Gap(x, y, k + p)
    decreases |x| - k
  {
    if k < |x| {
      var last := |us[0]| - 1;
      Rewind(us, vs, x, y, g, k + 1, last);
      RewindOne(us[k], vs[k], x[k], y[k], us[k + 1], vs[k + 1], g, p);
      if p > 0 { Rewind(us, vs, x, y, g, k + 1, p - 1); }
    }
  }

  lemma {:induction false} ShortInputInjective(r: Poly, x: Poly, y: Poly, g: Poly)
    requires IsGenerator(g, |r|) && |x| == |y| <= |r|
    requires ShiftAll(r, x, g) == ShiftAll(r, y, g)
    ensures x == y
  {
    var us := TraceOf(r, x, g);
    var vs := TraceOf(r, y, g);
    forall p | 0 <= p < |x| ensures x[p] == y[p] {
      Rewind(us, vs, x, y, g, 0, p);
      assert Gap(x, y, p) == 0;
    }
  }

  lemma ShiftAllSplit(r: Poly, before: Poly, x: Poly, after: Poly, g: Poly)
    requires |r| > 0 && |g| == |r| + 1
    ensures ShiftAll(r, before + x + after, g) == ShiftAll(ShiftAll(ShiftAll(r, before, g), x, g), after, g)
  {
    ShiftAllAppend(r, before + x, after, g);
    ShiftAllAppend(r, before, x, g);
  }

  /** Two streams that differ only inside a burst no longer than the register end alike
      exactly when they are equal, wherever the burst lies. */
  lemma BurstDetected(r: Poly, before: Poly, x: Poly, y: Poly, after: Poly, g: Poly)
    requires IsGenerator(g, |r|) && |x| == |y| <= |r|
    ensures ShiftAll(r, before + x + after, g) == ShiftAll(r, before + y + after, g) <==> x == y
  {
    if ShiftAll(r, before + x + after, g) == ShiftAll(r, before + y + after, g) {
      var s := ShiftAll(r, before, g);
      ShiftAllSplit(r, before, x, after, g);
      ShiftAllSplit(r, before, y, after, g);
      ShiftAllInjective(ShiftAll(s, x, g), ShiftAll(s, y, g), after, g);
      ShortInputInjective(s, x, y, g);
    }
  }
}
