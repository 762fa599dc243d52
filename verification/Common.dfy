/** Machine integers of the target and the records shared by several tasks. */
module Common {

  type u8 = x: int | 0 <= x < 0x100
  type i8 = x: int | -0x80 <= x < 0x80
  type u16 = x: int | 0 <= x < 0x1_0000
  type i16 = x: int | -0x8000 <= x < 0x8000
  type u32 = x: int | 0 <= x < 0x1_0000_0000

  const TWO32 := 0x1_0000_0000

  function ToU8(x: int): u8 { x % 0x100 }
  function ToU16(x: int): u16 { x % 0x1_0000 }
  function ToU32(x: int): u32 { x % TWO32 }

  function ToI8(x: int): i8 {
    if x % 0x100 < 0x80 then x % 0x100 else x % 0x100 - 0x100
  }

  function ToI16(x: int): i16 {
    if x % 0x1_0000 < 0x8000 then x % 0x1_0000 else x % 0x1_0000 - 0x1_0000
  }

  /** Division as C does it: the quotient is cut off toward zero. */
  function TruncDiv(a: int, b: int): int
    requires b > 0
  {
    if a >= 0 then a / b else -((-a) / b)
  }

  function Pow2(n: nat): (p: nat)
    ensures p > 0
  {
    if n == 0 then 1 else 2 * Pow2(n - 1)
  }

  lemma QuotientReaches(p: int, d: int, q: int)
    requires d > 0
    ensures p / d >= q <==> p >= d * q
  {
    if p / d >= q {
      assert d * (p / d) >= d * q;
    } else {
      assert d * (p / d + 1) <= d * q;
    }
  }

  function Abs(x: int): nat { if x < 0 then -x else x }

  /** The telemetry fields that the motion code reads back (mainboard/main/common.h). */
  datatype Metrics = Metrics(throttle: u16, direction: i8, pwm: u16, steering: i16)

  /** The duty pair of the two motor PWM channels. */
  datatype Duty = Duty(forward: nat, reverse: nat)
}
