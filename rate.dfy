/**
 The blink-rate rule of the moisture monitor: a raw moisture sample from the
 ADC becomes an LED blink rate in Hz. The source computes it in unsigned
 32-bit arithmetic; both machine widths are modelled as newtypes so that every
 conversion and every addition is checked against its range.
 */
module Blink {

  /** Rust's `u16`: the ADC sample type. */
  newtype u16 = x: int | 0 <= x < 0x1_0000

  /** Rust's `u32`: the type of the constants and of the shared rate. */
  newtype u32 = x: int | 0 <= x < 0x1_0000_0000

  /** The LED timer's initial rate and the floor of every computed rate, in Hz. */
  const LED_BASE_RATE: u32 := 2

  /** The fixed rate of the sampling timer, in Hz. */
  const ADC_RATE: u32 := 2

  /** Divisor applied to the raw reading. */
  const MOISTURE_SCALING_FACTOR: u32 := 200

  /** The value the shared `led_blink_rate` resource holds before any sample. */
  const INITIAL_BLINK_RATE: u32 := 20

  /** The largest rate any `u16` reading can produce: 2 + 65535 / 200. */
  const MAX_RATE: u32 := 329

  /**
   The rate published for a reading: the base rate plus the reading divided by
   the scaling factor, rounding down. The reading is widened to `u32` first, and
   the `u32` addition is range-checked here, so it provably never overflows.
   The second ensures pins the quotient down by the defining inequalities of
   floor division, without using `/`.
   */
  function Rate(moisture: u16): (r: u32)
    ensures LED_BASE_RATE <= r <= MAX_RATE
    ensures (r - LED_BASE_RATE) as int * MOISTURE_SCALING_FACTOR as int <= moisture as int
            < (r - LED_BASE_RATE + 1) as int * MOISTURE_SCALING_FACTOR as int
  {
    LED_BASE_RATE + (moisture as u32 / MOISTURE_SCALING_FACTOR)
  }

  /** `Rate` is the only function meeting the floor-division inequalities: any
      quotient `q` of the reading by the scaling factor gives the same rate. */
  lemma RateIsBasePlusQuotient(moisture: u16, q: int)
    requires q * MOISTURE_SCALING_FACTOR as int <= moisture as int < (q + 1) * MOISTURE_SCALING_FACTOR as int
    ensures Rate(moisture) as int == LED_BASE_RATE as int + q
  {
  }

  /** A wetter (larger) reading never gives a slower blink. */
  lemma RateMonotone(v1: u16, v2: u16)
    requires v1 <= v2
    ensures Rate(v1) <= Rate(v2)
  {
  }

  /** The rate steps up by one exactly at multiples of the scaling factor. */
  lemma RateStep(v: u16)
    requires v as int + 1 < 0x1_0000
    ensures Rate(v + 1) == Rate(v) + 1 <==> (v as int + 1) % MOISTURE_SCALING_FACTOR as int == 0
    ensures Rate(v + 1) == Rate(v) || Rate(v + 1) == Rate(v) + 1
  {
  }

  /** Concrete readings: 0 and 199 both give the base rate, 200 gives 3, a full
      12-bit reading gives 22 and the largest `u16` gives the maximum. */
  lemma RateSamples()
    ensures Rate(0) == LED_BASE_RATE && Rate(199) == 2
    ensures Rate(200) == 3 && Rate(4095) == 22 && Rate(0xFFFF) == MAX_RATE
  {
  }
}
