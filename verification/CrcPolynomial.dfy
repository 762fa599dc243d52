/** The byte loop of Crc32 is polynomial division by the generator of the 32-bit
    frame check sequence (section 8.1.1.6.2 of ITU-T V.42). */
module CrcPolynomial {
  import opened Crc32
  import opened Gf2
  import opened WordBits

  // x^32 + x^26 + x^23 + x^22 + x^16 + x^12 + x^11 + x^10 + x^8 + x^7 + x^5 + x^4 + x^2 + x + 1
  const EXPONENTS: set<nat> := {32, 26, 23, 22, 16, 12, 11, 10, 8, 7, 5, 4, 2, 1, 0}

  function Generator(): (g: Poly)
    ensures IsGenerator(g, 32)
  {
    seq(33, i => (32 - i) in EXPONENTS)
  }

  // ---- the register as a polynomial: bit i is the coefficient of x^(31-i) ----

  function Bits(w: bv32): (bits: Poly)
    ensures |bits| == 32
  {
    seq(32, i requires 0 <= i => Bit(w, i) == 1)
  }

  lemma {:induction false} BitsInjective(x: bv32, y: bv32)
    requires Bits(x) == Bits(y)
    ensures x == y
  {
    forall i | 0 <= i < 32 ensures Bit(x, i) == Bit(y, i) {
      assert Bits(x)[i] == Bits(y)[i];
    }
    SameBits(x, y);
  }

  function Feedback(low: nat): bv32 {
    if low == 1 then REVERSED_POLY else 0
  }

  lemma {:induction false} StepParts(r: bv32)
    ensures Step(r) == Xor(Half(r), Feedback(Bit(r, 0)))
  {
    LowBit(r);
  }

  lemma {:induction false} PolyBit(i: nat)
    requires i < 32
    ensures Bit(REVERSED_POLY, i) == if Generator()[i + 1] then 1 else 0
  {
    Units();
    if i == 0 {} else if i == 1 {} else if i == 2 {} else if i == 3 {} else if i == 4 {}
    else if i == 5 {} else if i == 6 {} else if i == 7 {}
  }

  lemma {:induction false} StepBit(r: bv32, i: nat)
    requires i < 32
    ensures (Bit(Step(r), i) == 1) == (At(Bits(r), i + 1) != (Bits(r)[0] && Generator()[i + 1]))
  {
    StepParts(r);
    XorBit(Half(r), Feedback(Bit(r, 0)), i);
    HalfBit(r, i);
    PolyBit(i);
    ZeroBit(i);
    NoBit32(r);
  }

  lemma {:induction false} StepBits(r: bv32)
    ensures Bits(Step(r)) == Shift(Bits(r), false, Generator())
  {
    forall i | 0 <= i < 32 ensures Bits(Step(r))[i] == Shift(Bits(r), false, Generator())[i] {
      StepBit(r, i);
    }
  }

  lemma {:induction false} StepsBits(r: bv32, n: nat)
    ensures Bits(Steps(r, n)) == ShiftAll(Bits(r), Idle(n), Generator())
    decreases n
  {
    var g := Generator();
    if n > 0 {
      StepsBits(Step(r), n - 1);
      StepBits(r);
      ShiftAllAppend(Bits(r), Idle(1), Idle(n - 1), g);
      assert Idle(n) == Idle(1) + Idle(n - 1);
      assert Idle(1)[..0] == [];
      assert ShiftAll(Bits(r), Idle(1), g) == Shift(Bits(r), false, g);
    }
  }

  // ---- messages ----

  /** The bits of one byte, least significant first. */
  function ByteBits(b: byte): (bits: Poly)
    ensures |bits| == 8
  {
    Bits(b as bv32)[..8]
  }

  /** A message as the stream of its bits, each byte least significant bit first. */
  function MessageBits(data: seq<byte>): (bits: Poly)
    ensures |bits| == 8 * |data|
    decreases data
  {
    if data == [] then []
    else MessageBits(data[..|data| - 1]) + ByteBits(data[|data| - 1])
  }

  lemma {:induction false} XorByteBit(r: bv32, b: byte, w: bv32, i: nat)
    requires i < 32 && w == b as bv32
    ensures (Bit(Xor(r, w), i) == 1) == (Bits(r)[i] != At(ByteBits(b), i))
  {
    XorBit(r, w, i);
    if i >= 8 { ByteHighBit(b, i); }
  }

  lemma {:induction false} XorIsOverlay(r: bv32, b: byte)
    ensures Bits(Xor(r, b as bv32)) == Overlay(Bits(r), ByteBits(b))
  {
    var w := b as bv32;
    forall i | 0 <= i < 32 ensures Bits(Xor(r, w))[i] == Overlay(Bits(r), ByteBits(b))[i] {
      XorByteBit(r, b, w, i);
    }
  }

  lemma {:induction false} AbsorbBits(r: bv32, b: byte)
    ensures Bits(Absorb(r, b)) == ShiftAll(Bits(r), ByteBits(b), Generator())
  {
    var g, w := Generator(), ByteBits(b);
    XorIsOverlay(r, b);
    StepsBits(Xor(r, b as bv32), 8);
    OverlayAllThenIdle(Bits(r), w, g);
  }

  /** The byte loop shifts in the message's bits, whatever the start register. */
  lemma {:induction false} RunBits(r: bv32, data: seq<byte>)
    ensures Bits(Run(r, data)) == ShiftAll(Bits(r), MessageBits(data), Generator())
    decreases data
  {
    if data != [] {
      var n := |data| - 1;
      var last := data[n];
      RunBits(r, data[..n]);
      RunLast(r, data);
      AbsorbBits(Run(r, data[..n]), last);
      ShiftAllAppend(Bits(r), MessageBits(data[..n]), ByteBits(last), Generator());
    }
  }

  // ---- the two results ----

  lemma {:induction false} AllOnes(i: nat)
    requires i < 32
    ensures Bit(0xffff_ffff, i) == 1
  {
    UnitNotZero(i);
    SomeBit(Unit(i));
  }

  lemma {:induction false} PresetBits(ones: Poly)
    requires |ones| == 32 && forall i :: 0 <= i < 32 ==> ones[i]
    ensures Bits(PRESET) == ones
  {
    forall i | 0 <= i < 32 ensures Bits(PRESET)[i] == ones[i] {
      AllOnes(i);
    }
  }

  /** From the all-ones preset the register is the remainder, read from bit 0 up, of the
      message shifted up by 32 plus 32 ones on top of it: nothing else is. */
  lemma {:induction false} RegisterIsRemainder(data: seq<byte>, r: Poly)
    ensures IsRemainder(Dividend(MessageBits(data), seq(32, _ => true)), Generator(), r)
       <==> r == Bits(Run(0xffff_ffff, data))
  {
    var g, p := Generator(), Dividend(MessageBits(data), Bits(PRESET));
    PresetBits(seq(32, _ => true));
    RunBits(PRESET, data);
    ShiftAllIsRemainder(Bits(PRESET), MessageBits(data), g);
    if IsRemainder(p, g, r) {
      RemainderUnique(p, g, r, Bits(Run(PRESET, data)));
    }
  }

  lemma {:induction false} MessageBitsAppend(a: seq<byte>, b: seq<byte>)
    ensures MessageBits(a + b) == MessageBits(a) + MessageBits(b)
    decreases b
  {
    if b == [] {
      assert a + b == a;
    } else {
      assert (a + b)[..|a + b| - 1] == a + b[..|b| - 1];
      MessageBitsAppend(a, b[..|b| - 1]);
    }
  }

  lemma {:induction false} ByteBitsInjective(a: byte, b: byte)
    requires ByteBits(a) == ByteBits(b)
    ensures a == b
  {
    var x, y := a as bv32, b as bv32;
    forall i | 0 <= i < 32 ensures Bit(x, i) == Bit(y, i) {
      if i < 8 {
        assert ByteBits(a)[i] == ByteBits(b)[i];
      } else {
        ByteHighBit(a, i);
        ByteHighBit(b, i);
      }
    }
    SameBits(x, y);
  }

  lemma {:induction false} MessageBitsInjective(a: seq<byte>, b: seq<byte>)
    requires |a| == |b| && MessageBits(a) == MessageBits(b)
    ensures a == b
    decreases a
  {
    if a != [] {
      var n := |a| - 1;
      assert MessageBits(a)[..8 * n] == MessageBits(a[..n]) && MessageBits(b)[..8 * n] == MessageBits(b[..n]);
      assert MessageBits(a)[8 * n..] == ByteBits(a[n]) && MessageBits(b)[8 * n..] == ByteBits(b[n]);
      MessageBitsInjective(a[..n], b[..n]);
      ByteBitsInjective(a[n], b[n]);
      assert a == a[..n] + [a[n]] && b == b[..n] + [b[n]];
    }
  }

  /** Messages that differ only inside four consecutive bytes get the same CRC exactly
      when they are equal, whatever the start register. */
  lemma {:induction false} ByteBurstDetected(r: bv32, before: seq<byte>, x: seq<byte>, y: seq<byte>, after: seq<byte>)
    requires |x| == |y| <= 4
    ensures Run(r, before + x + after) == Run(r, before + y + after) <==> x == y
  {
    if Run(r, before + x + after) == Run(r, before + y + after) {
      RunBits(r, before + x + after);
      RunBits(r, before + y + after);
      MessageBitsAppend(before + x, after);
      MessageBitsAppend(before, x);
      MessageBitsAppend(before + y, after);
      MessageBitsAppend(before, y);
      BurstDetected(Bits(r), MessageBits(before), MessageBits(x), MessageBits(y), MessageBits(after), Generator());
      MessageBitsInjective(x, y);
    }
  }
}
