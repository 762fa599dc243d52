/** The bitwise CRC-32 loop of the controller board over its 32-bit register (ps5/main/ps5.c). */
module Crc32 {

  type byte = bv8

  // The divisor's coefficients reversed: bit i holds the coefficient of x^(31-i).
  const REVERSED_POLY: bv32 := 0xedb88320
  const PRESET: bv32 := 0xffffffff

  function Step(r: bv32): bv32 {
    (r >> 1) ^ (if r & 1 == 1 then REVERSED_POLY else 0)
  }

  function Steps(r: bv32, n: nat): bv32
    decreases n
  {
    if n == 0 then r else Steps(Step(r), n - 1)
  }

  function Absorb(r: bv32, b: byte): bv32 {
    Steps(r ^ (b as bv32), 8)
  }

  function Run(r: bv32, data: seq<byte>): bv32
    decreases data
  {
    if data == [] then r else Run(Absorb(r, data[0]), data[1..])
  }

  /** The inner loop: one byte of the source's `crc32`. */
  method AbsorbByte(start: bv32, b: byte) returns (crc: bv32)
    ensures crc == Absorb(start, b)
  {
    crc := start ^ (b as bv32);
    for i := 0 to 8
      invariant Steps(crc, 8 - i) == Steps(start ^ (b as bv32), 8)
    {
      var mult: bv32 := if crc & 1 == 1 then REVERSED_POLY else 0;
      crc := (crc >> 1) ^ mult;
    }
  }

  /** The source's `crc32` over `len` bytes of a buffer. */
  method Compute(start: bv32, data: array<byte>, from: nat, len: nat) returns (crc: bv32)
    requires from + len <= data.Length
    ensures crc == Run(start, data[from..from + len])
  {
    crc := start;
    var p, left := from, len;
    while left > 0
      invariant p + left == from + len
      invariant Run(crc, data[p..p + left]) == Run(start, data[from..from + len])
    {
      assert data[p..p + left][1..] == data[p + 1..p + left];
      crc := AbsorbByte(crc, data[p]);
      p, left := p + 1, left - 1;
    }
  }

  /** One call over a + b equals a call over a whose result starts the call over b. */
  lemma {:induction false} RunAppend(r: bv32, a: seq<byte>, b: seq<byte>)
    ensures Run(r, a + b) == Run(Run(r, a), b)
    decreases a
  {
    if a == [] {
      assert a + b == b;
    } else {
      assert (a + b)[1..] == a[1..] + b;
      RunAppend(Absorb(r, a[0]), a[1..], b);
    }
  }

  lemma {:induction false} RunLast(r: bv32, data: seq<byte>)
    requires data != []
    ensures Run(r, data) == Absorb(Run(r, data[..|data| - 1]), data[|data| - 1])
  {
    var init, last := data[..|data| - 1], [data[|data| - 1]];
    assert data == init + last;
    RunAppend(r, init, last);
    assert last[1..] == [];
  }

  /** Two chained calls over the first `total` bytes, split anywhere: the sender's calls
      cover 1 and then 74 bytes of its report. */
  method ComputeInTwo(start: bv32, data: array<byte>, first: nat, total: nat) returns (crc: bv32)
    requires first <= total <= data.Length
    ensures crc == Run(start, data[..total])
  {
    ghost var a, b := data[0..0 + first], data[first..first + (total - first)];
    assert a + b == data[..total];
    crc := Compute(start, data, 0, first);
    crc := Compute(crc, data, first, total - first);
    RunAppend(start, a, b);
  }
}
