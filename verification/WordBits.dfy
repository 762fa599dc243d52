/** Single bits of 32-bit words. The operations have names and `Bit` is a number, so that
    lemmas about them combine by equality alone and bit-vector reasoning stays in single steps. */
module WordBits {

  function Half(w: bv32): bv32 { w >> 1 }
  function Double(w: bv32): bv32 { w << 1 }
  function Xor(x: bv32, y: bv32): bv32 { x ^ y }

  /** The word with only bit i set (zero from bit 32 on). */
  function Unit(i: nat): bv32
    decreases i
  {
    if i == 0 then 1 else Double(Unit(i - 1))
  }

  /** 1 if w has a bit of the mask, else 0. */
  function Under(w: bv32, mask: bv32): (b: nat)
    ensures b <= 1
  {
    if w & mask != 0 then 1 else 0
  }

  function Bit(w: bv32, i: nat): (b: nat)
    ensures b <= 1
  {
    Under(w, Unit(i))
  }

  function Differ(a: nat, b: nat): nat {
    if a == b then 0 else 1
  }

  lemma {:induction false} DoubledUnit(m: bv32)
    requires m & (m - 1) == 0
    ensures Double(m) & (Double(m) - 1) == 0
  {
  }

  lemma {:induction false} UnitHasOneBit(i: nat)
    ensures Unit(i) & (Unit(i) - 1) == 0
    decreases i
  {
    if i > 0 {
      UnitHasOneBit(i - 1);
      DoubledUnit(Unit(i - 1));
    }
  }

  lemma {:induction false} XorMaskRaw(x: bv32, y: bv32, m: bv32)
    requires m & (m - 1) == 0
    ensures ((x ^ y) & m != 0) <==> ((x & m != 0) != (y & m != 0))
  {
  }

  lemma {:induction false} XorMask(x: bv32, y: bv32, m: bv32)
    requires m & (m - 1) == 0
    ensures Under(Xor(x, y), m) == Differ(Under(x, m), Under(y, m))
  {
    XorMaskRaw(x, y, m);
  }

  lemma {:induction false} HalfMask(x: bv32, m: bv32)
    ensures Under(Half(x), m) == Under(x, Double(m))
  {
  }

  lemma {:induction false} XorBit(x: bv32, y: bv32, i: nat)
    ensures Bit(Xor(x, y), i) == Differ(Bit(x, i), Bit(y, i))
  {
    UnitHasOneBit(i);
    XorMask(x, y, Unit(i));
  }

  lemma {:induction false} NextUnit(i: nat)
    ensures Unit(i + 1) == Double(Unit(i))
  {
  }

  lemma {:induction false} HalfBit(x: bv32, i: nat)
    ensures Bit(Half(x), i) == Bit(x, i + 1)
  {
    HalfMask(x, Unit(i));
    NextUnit(i);
  }

  lemma {:induction false} ZeroBit(i: nat)
    ensures Bit(0, i) == 0
  {
  }

  lemma {:induction false} LowBit(w: bv32)
    ensures Bit(w, 0) == if w & 1 == 1 then 1 else 0
  {
  }

  lemma {:induction false} Units()
    ensures Unit(8) == 0x100 && Unit(16) == 0x1_0000 && Unit(24) == 0x100_0000 && Unit(32) == 0
  {
    assert Unit(8) == 0x100;
    assert Unit(16) == 0x1_0000;
    assert Unit(24) == 0x100_0000;
  }

  lemma {:induction false} NoBit32(w: bv32)
    ensures Bit(w, 32) == 0
  {
    Units();
  }

  // ---- words that agree on every bit ----

  // All bits below n.
  function Below(n: nat): bv32
    decreases n
  {
    if n == 0 then 0 else Below(n - 1) | Unit(n - 1)
  }

  lemma {:induction false} BelowMask(d: bv32, m: bv32, u: bv32)
    ensures Under(d, m | u) <= Under(d, m) + Under(d, u)
  {
  }

  lemma {:induction false} NoBitBelow(d: bv32, n: nat)
    requires forall i :: 0 <= i < n ==> Bit(d, i) == 0
    ensures Under(d, Below(n)) == 0
    decreases n
  {
    if n > 0 {
      NoBitBelow(d, n - 1);
      assert Bit(d, n - 1) == 0;
      BelowMask(d, Below(n - 1), Unit(n - 1));
    }
  }

  lemma {:induction false} BelowAll()
    ensures Below(32) == 0xffff_ffff
  {
    assert Below(8) == 0xff;
    assert Below(16) == 0xffff;
    assert Below(24) == 0xff_ffff;
  }

  lemma {:induction false} XorCancel(x: bv32, y: bv32)
    requires Under(Xor(x, y), 0xffff_ffff) == 0
    ensures x == y
  {
  }

  lemma {:induction false} SameBits(x: bv32, y: bv32)
    requires forall i :: 0 <= i < 32 ==> Bit(x, i) == Bit(y, i)
    ensures x == y
  {
    var d := Xor(x, y);
    forall i | 0 <= i < 32 ensures Bit(d, i) == 0 {
      XorBit(x, y, i);
      assert Bit(x, i) == Bit(y, i);
    }
    NoBitBelow(d, 32);
    BelowAll();
    XorCancel(x, y);
  }

  lemma {:induction false} SomeBit(m: bv32)
    requires m != 0
    ensures Under(0xffff_ffff, m) == 1
  {
  }

  lemma {:induction false} HalfDouble(m: bv32)
    requires m < 0x8000_0000 && m != 0
    ensures Double(m) != 0
  {
  }

  lemma {:induction false} UnitNotZero(i: nat)
    requires i < 32
    ensures Unit(i) != 0
  {
    Units();
    if i == 0 {} else if i == 1 {} else if i == 2 {} else if i == 3 {} else if i == 4 {}
    else if i == 5 {} else if i == 6 {} else if i == 7 {} else if i == 8 {}
  }

  // ---- bytes ----

  lemma {:induction false} DoubleHigh(m: bv32)
    requires m & 0xff == 0
    ensures Double(m) & 0xff == 0
  {
  }

  lemma {:induction false} HighUnit(i: nat)
    requires i >= 8
    ensures Unit(i) & 0xff == 0
    decreases i
  {
    if i == 8 {
      Units();
    } else {
      HighUnit(i - 1);
      DoubleHigh(Unit(i - 1));
    }
  }

  lemma {:induction false} ByteMask(b: bv8, m: bv32)
    requires m & 0xff == 0
    ensures Under(b as bv32, m) == 0
  {
  }

  lemma {:induction false} ByteHighBit(b: bv8, i: nat)
    requires i >= 8
    ensures Bit(b as bv32, i) == 0
  {
    HighUnit(i);
    ByteMask(b, Unit(i));
  }
}
