// Fixed-width integer types shared by the firmware model, and the
// millisecond-to-timer-tick conversion of common_aux.c.

module CommonAux {

  const UINT32_LIMIT: int := 0x1_0000_0000
  const UINT32_MAX: int := 0xFFFF_FFFF
  const UINT16_MAX: int := 0xFFFF

  /** An unsigned 32-bit value (`uint32_t`). */
  type uint32 = x: int | 0 <= x < UINT32_LIMIT

  /** An unsigned 8-bit value (`uint8_t`). */
  type uint8 = x: int | 0 <= x < 256

  /** A value that may be missing (a lookup that can fail). */
  datatype Option<T> = None | Some(value: T)

  /** C's conversion of an integer to `uint32_t`: reduction modulo 2^32. */
  function Wrap32(x: int): (r: uint32)
    ensures 0 <= x < UINT32_LIMIT ==> r == x
    ensures -UINT32_LIMIT <= x < 0 ==> r == x + UINT32_LIMIT
    ensures UINT32_LIMIT <= x < 2 * UINT32_LIMIT ==> r == x - UINT32_LIMIT
  {
    x % UINT32_LIMIT
  }

  /** C's conversion of an integer to `uint8_t`: reduction modulo 2^8. */
  function Wrap8(x: int): (r: uint8)
    ensures 0 <= x < 256 ==> r == x
    ensures 256 <= x < 512 ==> r == x - 256
  {
    x % 256
  }

  /** Timer ticks per millisecond for a timer clocked at `sysClock` Hz behind
      a prescaler of `prescale + 1`; every division truncates. */
  function TicksPerMs(sysClock: uint32, prescale: uint32): (t: uint32)
    requires prescale < UINT32_MAX
    ensures t * (prescale + 1) * 1000 <= sysClock < (t + 1) * (prescale + 1) * 1000
  {
    DoubleDivisionBounds(sysClock, prescale + 1, 1000);
    sysClock / (prescale + 1) / 1000
  }

  /** Two truncating divisions bracket the dividend like one division by
      the product of the divisors. */
  lemma DoubleDivisionBounds(x: nat, d1: nat, d2: nat)
    requires 0 < d1 && 0 < d2
    ensures x / d1 / d2 * d1 * d2 <= x < (x / d1 / d2 + 1) * d1 * d2
  {
    var q := x / d1;
    var t := q / d2;
    TruncatedDivisionBounds(x, d1, q);
    TruncatedDivisionBounds(q, d2, t);
    MulMonotone(t * d2, q, d1);
    MulMonotone(q + 1, (t + 1) * d2, d1);
    assert t * d1 * d2 == t * d2 * d1;
    assert (t + 1) * d1 * d2 == (t + 1) * d2 * d1;
  }

  lemma MulMonotone(a: int, b: int, c: nat)
    requires a <= b
    ensures a * c <= b * c
  {
    assert (b - a) * c >= 0;
  }

  /** Truncating division brackets the dividend between two multiples. */
  lemma TruncatedDivisionBounds(x: nat, d: nat, q: nat)
    requires 0 < d && q == x / d
    ensures q * d <= x < (q + 1) * d
  {
  }

  /** The exact number of ticks in `ms` milliseconds, before any 32-bit
      reduction. */
  function ExactTicks(sysClock: uint32, prescale: uint32, ms: uint32): (p: nat)
    requires prescale < UINT32_MAX
    ensures ms == 0 ==> p == 0
  {
    ms * TicksPerMs(sysClock, prescale)
  }

  /** ms_to_clockticks as written: the product `ms * ticks` is computed in
      32-bit arithmetic (so it wraps) and only then clamped to `maxVal`.
      The system clock, read from the hardware by the firmware, is a
      parameter here. A prescale of UINT32_MAX would divide by zero. */
  function MsToClockticks(sysClock: uint32, prescale: uint32, ms: uint32, maxVal: uint32): (r: uint32)
    requires prescale < UINT32_MAX
    ensures r <= maxVal
    ensures ms == 0 ==> r == 0
    ensures ExactTicks(sysClock, prescale, ms) <= maxVal ==> r == ExactTicks(sysClock, prescale, ms)
    ensures maxVal < ExactTicks(sysClock, prescale, ms) < UINT32_LIMIT ==> r == maxVal
    ensures r == maxVal || r == Wrap32(ExactTicks(sysClock, prescale, ms))
  {
    var clockTicks := Wrap32(ExactTicks(sysClock, prescale, ms));
    if clockTicks > maxVal then maxVal else clockTicks
  }

  /** While the product does not overflow 32 bits, a longer interval never
      gives fewer ticks. */
  lemma MsToClockticksMonotone(sysClock: uint32, prescale: uint32, ms1: uint32, ms2: uint32, maxVal: uint32)
    requires prescale < UINT32_MAX
    requires ms1 <= ms2
    requires ExactTicks(sysClock, prescale, ms2) < UINT32_LIMIT
    ensures MsToClockticks(sysClock, prescale, ms1, maxVal) <= MsToClockticks(sysClock, prescale, ms2, maxVal)
  {
    ExactTicksMonotone(sysClock, prescale, ms1, ms2);
  }

  lemma ExactTicksMonotone(sysClock: uint32, prescale: uint32, ms1: uint32, ms2: uint32)
    requires prescale < UINT32_MAX
    requires ms1 <= ms2
    ensures ExactTicks(sysClock, prescale, ms1) <= ExactTicks(sysClock, prescale, ms2)
  {
    var t := TicksPerMs(sysClock, prescale);
    assert ms1 * t <= ms2 * t by {
      assert (ms2 - ms1) * t >= 0;
    }
  }

  /** The 32-bit product wraps before the clamp: on the firmware's 16 MHz
      clock with the LED timer's prescale of 255 (62 ticks per ms), an
      interval of 69273667 ms yields 58 ticks instead of the 65535 cap. */
  lemma MsToClockticksWrapsBeforeClamp()
    ensures TicksPerMs(16_000_000, 255) == 62
    ensures MsToClockticks(16_000_000, 255, 69_273_667, UINT16_MAX) == 58
    ensures MsToClockticksSaturating(16_000_000, 255, 69_273_667, UINT16_MAX) == UINT16_MAX
  {
    assert TicksPerMs(16_000_000, 255) == 62;
    assert ExactTicks(16_000_000, 255, 69_273_667) == 4_294_967_354;
  }

  /** ms_to_clockticks as its documentation describes it: the exact
      product, clamped to `maxVal` (inclusive upper limit). */
  function MsToClockticksSaturating(sysClock: uint32, prescale: uint32, ms: uint32, maxVal: uint32): (r: uint32)
    requires prescale < UINT32_MAX
    ensures r <= maxVal
    ensures r <= ExactTicks(sysClock, prescale, ms)
    ensures r == maxVal || r == ExactTicks(sysClock, prescale, ms)
  {
    var clockTicks := ExactTicks(sysClock, prescale, ms);
    if clockTicks > maxVal then maxVal else clockTicks
  }

  /** The saturating conversion is monotone in `ms` for every input. */
  lemma MsToClockticksSaturatingMonotone(sysClock: uint32, prescale: uint32, ms1: uint32, ms2: uint32, maxVal: uint32)
    requires prescale < UINT32_MAX
    requires ms1 <= ms2
    ensures MsToClockticksSaturating(sysClock, prescale, ms1, maxVal) <= MsToClockticksSaturating(sysClock, prescale, ms2, maxVal)
  {
    ExactTicksMonotone(sysClock, prescale, ms1, ms2);
  }

  /** Both conversions agree whenever the 32-bit product does not overflow. */
  lemma MsToClockticksAgreeWithoutOverflow(sysClock: uint32, prescale: uint32, ms: uint32, maxVal: uint32)
    requires prescale < UINT32_MAX
    requires ExactTicks(sysClock, prescale, ms) < UINT32_LIMIT
    ensures MsToClockticks(sysClock, prescale, ms, maxVal) == MsToClockticksSaturating(sysClock, prescale, ms, maxVal)
  {
  }
}
