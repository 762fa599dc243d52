/** Servo angles as pulse widths (mainboard/main/servo.c). */
module Servo {
  import opened Common

  /** `angle_to_compare`: degrees to microseconds, in C's integer arithmetic. */
  function AngleToCompare(angle: int): u32 {
    ToU32(TruncDiv((angle + 90) * (2500 - 500), 90 + 90) + 500)
  }

  predicate SafePulse(pulse: int) {
    500 <= pulse <= 2500
  }

  /** Among 16-bit angles, exactly those between -90 and 90 degrees give a pulse width in range. */
  lemma PulseIsSafe(angle: i16)
    ensures SafePulse(AngleToCompare(angle)) <==> -90 <= angle <= 90
  {
    var n := (angle + 90) * 2000;
    if angle < -90 {
      assert TruncDiv(n, 180) <= -11;
    } else if angle > 90 {
      assert TruncDiv(n, 180) >= 2011;
    }
  }

  lemma PulseMonotone(a: int, b: int)
    requires -90 <= a < b <= 90
    ensures AngleToCompare(a) < AngleToCompare(b)
  {
    assert (b + 90) * 2000 >= (a + 90) * 2000 + 2000;
  }

  /** In range the pulse is the linear interpolation between 500 and 2500 microseconds, cut to an
      integer: 100 ninths of a microsecond to a degree. */
  lemma PulseIsLinear(angle: int)
    requires -90 <= angle <= 90
    ensures 100 * (angle + 90) - 9 < 9 * (AngleToCompare(angle) - 500) <= 100 * (angle + 90)
  {
    var n := (angle + 90) * 2000;
    assert TruncDiv(n, 180) == n / 180;
    assert 180 * (n / 180) <= n < 180 * (n / 180) + 180;
  }
}
