/** The sealed output report the controller board sends to the pad
    (ps5/main/ps5.h, ps5/main/ps5.c): 75 bytes and their CRC, low byte first. */
module OutputReport {
  import opened Crc32
  import opened WordBits
  import opened CrcPolynomial
  import Gf2

  const REPORT_SIZE := 79
  const SEALED_SIZE := 75
  const RESIDUE: bv32 := 0xdebb20e3

  function LowByte(w: bv32): byte { (w & 0xff) as byte }

  /** w without its lowest n bits. */
  function Dropped(w: bv32, n: nat): bv32
    decreases n
  {
    if n == 0 then w else Dropped(Half(w), n - 1)
  }

  /** The bytes of a stored word: the target is little-endian. */
  function LittleEndian(w: bv32): (b: seq<byte>)
    ensures |b| == 4
  {
    [LowByte(w), LowByte(Dropped(w, 8)), LowByte(Dropped(w, 16)), LowByte(Dropped(w, 24))]
  }

  /** The sequence number in the high four bits. */
  function Tag(outputSeq: nat): byte
    requires outputSeq < 16
  {
    (16 * outputSeq) as byte
  }

  /** The header fields the sender fills in before sealing. */
  function Stamp(report: seq<byte>, tag: byte): (s: seq<byte>)
    requires |report| == REPORT_SIZE
    ensures |s| == REPORT_SIZE
  {
    report[0 := 0xa2][1 := 0x31][3 := 0x10][2 := tag]
  }

  function Crc(message: seq<byte>): bv32 {
    !Run(PRESET, message)
  }

  function Seal(message: seq<byte>): seq<byte> {
    message + LittleEndian(Crc(message))
  }

  // ---- a word appended to the message ----

  lemma {:induction false} LowByteMask(w: bv32, m: bv32)
    requires m & 0xff == m
    ensures Under(LowByte(w) as bv32, m) == Under(w, m)
  {
  }

  lemma {:induction false} LowUnit(i: nat)
    requires i < 8
    ensures Unit(i) & 0xff == Unit(i)
  {
    if i == 0 {} else if i == 1 {} else if i == 2 {} else if i == 3 {}
    else if i == 4 {} else if i == 5 {} else if i == 6 {} else {}
  }

  lemma {:induction false} ByteOfWord(w: bv32, i: nat)
    requires i < 8
    ensures Bit(LowByte(w) as bv32, i) == Bit(w, i)
  {
    LowUnit(i);
    LowByteMask(w, Unit(i));
  }

  lemma {:induction false} DroppedBit(w: bv32, n: nat, i: nat)
    ensures Bit(Dropped(w, n), i) == Bit(w, i + n)
    decreases n
  {
    if n > 0 {
      DroppedBit(Half(w), n - 1, i);
      HalfBit(w, i + n - 1);
    }
  }

  lemma {:induction false} BitOfByteOfWord(w: bv32, k: nat, i: nat)
    requires k <= 24 && i < 8
    ensures ByteBits(LowByte(Dropped(w, k)))[i] == Bits(w)[k + i]
  {
    ByteOfWord(Dropped(w, k), i);
    DroppedBit(w, k, i);
  }

  lemma {:induction false} ByteBitsOfWord(w: bv32, k: nat)
    requires k <= 24
    ensures ByteBits(LowByte(Dropped(w, k))) == Bits(w)[k..k + 8]
  {
    var low, bits := ByteBits(LowByte(Dropped(w, k))), Bits(w);
    forall i | 0 <= i < 8 ensures low[i] == bits[k + i] {
      BitOfByteOfWord(w, k, i);
    }
    assert low == bits[k..k + 8];
  }

  lemma {:induction false} FourBytes(b: seq<byte>)
    requires |b| == 4
    ensures MessageBits(b) == ByteBits(b[0]) + ByteBits(b[1]) + ByteBits(b[2]) + ByteBits(b[3])
  {
    assert b[..3][..2] == b[..2] && b[..2][..1] == b[..1] && b[..1][..0] == [];
    assert MessageBits(b[..1]) == ByteBits(b[0]);
    assert MessageBits(b[..2]) == MessageBits(b[..1]) + ByteBits(b[1]);
    assert MessageBits(b[..3]) == MessageBits(b[..2]) + ByteBits(b[2]);
    assert MessageBits(b) == MessageBits(b[..3]) + ByteBits(b[3]);
  }

  lemma {:induction false} FourParts(p: Gf2.Poly)
    requires |p| == 32
    ensures p == p[0..8] + p[8..16] + p[16..24] + p[24..32]
  {
  }

  lemma {:induction false} WordBitsInOrder(w: bv32)
    ensures MessageBits(LittleEndian(w)) == Bits(w)
  {
    FourBytes(LittleEndian(w));
    ByteBitsOfWord(w, 0);
    ByteBitsOfWord(w, 8);
    ByteBitsOfWord(w, 16);
    ByteBitsOfWord(w, 24);
    FourParts(Bits(w));
  }

  lemma {:induction false} XorWordBit(r: bv32, w: bv32, i: nat)
    requires i < 32
    ensures Bits(Xor(r, w))[i] == Gf2.Overlay(Bits(r), Bits(w))[i]
  {
    XorBit(r, w, i);
  }

  lemma {:induction false} XorIsWordOverlay(r: bv32, w: bv32)
    ensures Bits(Xor(r, w)) == Gf2.Overlay(Bits(r), Bits(w))
  {
    var sum, over := Bits(Xor(r, w)), Gf2.Overlay(Bits(r), Bits(w));
    forall i | 0 <= i < 32 ensures sum[i] == over[i] {
      XorWordBit(r, w, i);
    }
    assert sum == over;
  }

  /** Absorbing a stored word is xoring it in and stepping 32 times. */
  lemma {:induction false} RunWord(r: bv32, w: bv32)
    ensures Run(r, LittleEndian(w)) == Steps(Xor(r, w), 32)
  {
    var g := Generator();
    RunBits(r, LittleEndian(w));
    WordBitsInOrder(w);
    Gf2.OverlayAllThenIdle(Bits(r), Bits(w), g);
    XorIsWordOverlay(r, w);
    StepsBits(Xor(r, w), 32);
    BitsInjective(Run(r, LittleEndian(w)), Steps(Xor(r, w), 32));
  }

  lemma {:induction false} StepsInjective(x: bv32, y: bv32, n: nat)
    requires Steps(x, n) == Steps(y, n)
    ensures x == y
  {
    StepsBits(x, n);
    StepsBits(y, n);
    Gf2.ShiftAllInjective(Bits(x), Bits(y), Gf2.Idle(n), Generator());
    BitsInjective(x, y);
  }

  lemma {:induction false} StepsAdd(r: bv32, m: nat, n: nat)
    ensures Steps(r, m + n) == Steps(Steps(r, m), n)
    decreases m
  {
    if m > 0 { StepsAdd(Step(r), m - 1, n); }
  }

  lemma {:induction false} ResidueSteps()
    ensures Steps(0xffff_ffff, 32) == RESIDUE
  {
    StepsAdd(0xffff_ffff, 8, 24);
    assert Steps(0xffff_ffff, 8) == 0x2dfd_1072;
    StepsAdd(0x2dfd_1072, 8, 16);
    assert Steps(0x2dfd_1072, 8) == 0xbe26_ed00;
    StepsAdd(0xbe26_ed00, 8, 8);
    StepsAdd(0xbe26_ed00, 4, 4);
    assert Steps(0xbe26_ed00, 4) == 0x0be2_6ed0;
    assert Steps(0x0be2_6ed0, 4) == 0x00be_26ed;
    assert Steps(0x00be_26ed, 8) == 0xdebb_20e3;
  }

  lemma {:induction false} XorComplement(r: bv32)
    ensures Xor(r, !r) == 0xffff_ffff
  {
  }

  lemma {:induction false} XorInjective(r: bv32, v: bv32, w: bv32)
    requires Xor(r, v) == Xor(r, w)
    ensures v == w
  {
  }

  lemma {:induction false} ResidueIffCrc(message: seq<byte>, w: bv32)
    ensures Run(PRESET, message + LittleEndian(w)) == RESIDUE <==> w == Crc(message)
  {
    var r := Run(PRESET, message);
    RunAppend(PRESET, message, LittleEndian(w));
    RunWord(r, w);
    ResidueSteps();
    XorComplement(r);
    if Run(PRESET, message + LittleEndian(w)) == RESIDUE {
      StepsInjective(Xor(r, w), 0xffff_ffff, 32);
      XorInjective(r, w, !r);
    }
  }

  lemma {:induction false} FromAllOnes(data: seq<byte>)
    ensures Run(PRESET, data) == Run(0xffff_ffff, data)
  {
  }

  /** A message followed by a stored word leaves the residue exactly when the word is the
      message's CRC: the receiver's check and the sender's seal agree. */
  lemma {:induction false} ResidueIffSealed(message: seq<byte>, w: bv32)
    ensures Run(0xffff_ffff, message + LittleEndian(w)) == 0xdebb_20e3 <==> w == !Run(0xffff_ffff, message)
  {
    ResidueIffCrc(message, w);
    FromAllOnes(message);
    FromAllOnes(message + LittleEndian(w));
  }

  lemma {:induction false} SealLeavesResidue(message: seq<byte>, sealed: seq<byte>)
    requires sealed == Seal(message)
    ensures Run(0xffff_ffff, sealed) == 0xdebb_20e3
  {
    ResidueIffCrc(message, Crc(message));
    FromAllOnes(sealed);
  }

  /** A sealed report damaged only inside four consecutive bytes never leaves the residue. */
  lemma {:induction false} DamageShows(message: seq<byte>, before: seq<byte>, x: seq<byte>, y: seq<byte>, after: seq<byte>)
    requires Seal(message) == before + x + after && |x| == |y| <= 4
    ensures Run(0xffff_ffff, before + y + after) == 0xdebb_20e3 <==> x == y
  {
    SealLeavesResidue(message, before + x + after);
    ByteBurstDetected(PRESET, before, x, y, after);
    FromAllOnes(before + x + after);
    FromAllOnes(before + y + after);
  }

  // ---- sending ----

  /** The header in the first four bytes, with sequence number k, and the rest of `was`. */
  predicate HasHeader(was: seq<byte>, k: nat, s: seq<byte>) {
    && |was| == |s| == 79
    && s[0] == 0xa2 && s[1] == 0x31 && s[2] as int == 16 * k && s[3] == 0x10 && s[4..75] == was[4..75]
  }

  /** The CRC at the end, and the residue over everything. */
  predicate HasSeal(s: seq<byte>) {
    |s| == 79 && s == Seal(s[..75]) && Run(0xffff_ffff, s) == 0xdebb_20e3
  }

  lemma TagIs(k: nat)
    requires k < 16
    ensures Tag(k) as int == 16 * k
  {
  }

  lemma Stamped(report: seq<byte>, tag: byte, s: seq<byte>)
    requires |report| == REPORT_SIZE && s == Stamp(report, tag)
    ensures s[0] == 0xa2 && s[1] == 0x31 && s[2] == tag && s[3] == 0x10 && s[4..75] == report[4..75]
  {
  }

  lemma HeaderKept(stamped: seq<byte>, s: seq<byte>)
    requires |stamped| == |s| == 79 && s[..75] == stamped[..75]
    ensures s[0] == stamped[0] && s[1] == stamped[1] && s[2] == stamped[2] && s[3] == stamped[3]
    ensures s[4..75] == stamped[4..75]
  {
    assert s[..75][0] == s[0] && s[..75][1] == s[1] && s[..75][2] == s[2] && s[..75][3] == s[3];
    assert s[..75][4..75] == s[4..75] && stamped[..75][4..75] == stamped[4..75];
  }

  lemma SendsHeader(was: seq<byte>, k: nat, stamped: seq<byte>, s: seq<byte>)
    requires |was| == REPORT_SIZE && k < 16 && stamped == Stamp(was, Tag(k))
    requires |s| == REPORT_SIZE && s[..75] == stamped[..75]
    ensures HasHeader(was, k, s)
  {
    Stamped(was, Tag(k), stamped);
    HeaderKept(stamped, s);
    TagIs(k);
  }

  lemma {:induction false} SendsSeal(message: seq<byte>, s: seq<byte>)
    requires |message| == SEALED_SIZE && s == Seal(message)
    ensures HasSeal(s) && s[..75] == message
  {
    assert s[..75] == message;
    SealLeavesResidue(message, s);
  }

  class Sender {
    var outputSeq: nat

    ghost predicate Valid() reads this { outputSeq < 16 }

    constructor ()
      ensures Valid() && outputSeq == 0
    {
      outputSeq := 0;
    }

    method StampReport(out: array<byte>, tag: byte)
      requires out.Length == REPORT_SIZE
      modifies out
      ensures out[..] == Stamp(old(out[..]), tag)
    {
      out[0] := 0xa2;
      out[1] := 0x31;
      out[3] := 0x10;
      out[2] := tag;
    }

    method StoreCrc(out: array<byte>, crc: bv32)
      requires out.Length == REPORT_SIZE
      modifies out
      ensures out[..] == old(out[..SEALED_SIZE]) + LittleEndian(crc)
    {
      var b := LittleEndian(crc);
      for i := 0 to 4
        invariant out[..SEALED_SIZE] == old(out[..SEALED_SIZE])
        invariant out[SEALED_SIZE..SEALED_SIZE + i] == b[..i]
      {
        out[SEALED_SIZE + i] := b[i];
      }
      assert out[..] == out[..SEALED_SIZE] + out[SEALED_SIZE..SEALED_SIZE + 4];
    }

    method SealReport(out: array<byte>)
      requires out.Length == REPORT_SIZE
      modifies out
      ensures out[..] == Seal(old(out[..SEALED_SIZE]))
    {
      var crc := ComputeInTwo(PRESET, out, 1, SEALED_SIZE);
      StoreCrc(out, !crc);
    }

    /** `ps5_send_output_report`: the report ends as its first 75 bytes, stamped, and their CRC. */
    method Send(out: array<byte>)
      requires Valid() && out.Length == REPORT_SIZE
      modifies this, out
      ensures Valid() && outputSeq == (old(outputSeq) + 1) % 16
      ensures HasHeader(old(out[..]), old(outputSeq), out[..]) && HasSeal(out[..])
    {
      ghost var was, k := out[..], outputSeq;
      var tag := Tag(outputSeq);
      StampReport(out, tag);
      outputSeq := (outputSeq + 1) % 16;
      ghost var stamped := out[..];
      assert out[..SEALED_SIZE] == stamped[..SEALED_SIZE];
      SealReport(out);
      SendsSeal(stamped[..SEALED_SIZE], out[..]);
      SendsHeader(was, k, stamped, out[..]);
    }
  }
}
