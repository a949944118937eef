/**
 The two interrupt handlers of the application and the state they share.

 `Regs` is a value snapshot of everything the handlers read or write: the
 shared `led_blink_rate` resource, the LED pin level, the two timer periods
 (abstract Hz values) and the two timers' update-interrupt flags. The
 functions on `Regs` say what each handler (and each segment of `toggle_led`)
 does to that snapshot; the class `Resources` holds the same state in mutable
 fields, and its methods are proved to perform exactly those transitions.
 */
module Handlers {
  import opened Blink

  datatype Regs = Regs(
    rate: u32,            // the shared `led_blink_rate` resource
    ledOn: bool,          // level of the indicator pin PC13
    ledPeriod: u32,       // rate the LED timer (TIM2) was last started at
    sensorPeriod: u32,    // rate the sensor timer (TIM3) was last started at
    ledPending: bool,     // TIM2 update-interrupt flag
    sensorPending: bool   // TIM3 update-interrupt flag
  )

  /** The state after `init`: the resource's declared initial value, both
      timers started at their constant rates, neither timer's update flag
      raised yet. The pin's initial level is set by the HAL and taken as a
      parameter. (The `rtic::pend` calls in `init` mark both interrupts pending
      in the NVIC; they are not these flags.) */
  function Initial(level: bool): (r: Regs)
    ensures r.rate == INITIAL_BLINK_RATE && r.ledOn == level
    ensures r.ledPeriod == LED_BASE_RATE && r.sensorPeriod == ADC_RATE
    ensures !r.ledPending && !r.sensorPending
  {
    Regs(INITIAL_BLINK_RATE, level, LED_BASE_RATE, ADC_RATE, false, false)
  }

  /** `read_moisture` for a reading: publish its rate, clear the sensor flag
      and restart the sensor timer at the fixed rate. */
  function Sampled(s: Regs, moisture: u16): (r: Regs)
    ensures r.rate == Rate(moisture) && LED_BASE_RATE <= r.rate <= MAX_RATE
    ensures r.sensorPeriod == ADC_RATE && !r.sensorPending
    ensures r.ledOn == s.ledOn && r.ledPeriod == s.ledPeriod && r.ledPending == s.ledPending
  {
    s.(rate := Rate(moisture), sensorPending := false, sensorPeriod := ADC_RATE)
  }

  /** First segment of `toggle_led`: flip the pin. */
  function Flipped(s: Regs): (r: Regs)
    ensures r.ledOn == !s.ledOn
    ensures r.rate == s.rate && r.ledPeriod == s.ledPeriod && r.ledPending == s.ledPending
    ensures r.sensorPeriod == s.sensorPeriod && r.sensorPending == s.sensorPending
  {
    s.(ledOn := !s.ledOn)
  }

  /** Last segment of `toggle_led`: clear the LED flag and restart the LED timer
      at the rate copied out of the shared resource. */
  function Restarted(s: Regs, newRate: u32): (r: Regs)
    ensures r.ledPeriod == newRate && !r.ledPending
    ensures r.rate == s.rate && r.ledOn == s.ledOn
    ensures r.sensorPeriod == s.sensorPeriod && r.sensorPending == s.sensorPending
  {
    s.(ledPending := false, ledPeriod := newRate)
  }

  /** `toggle_led` run without preemption: flip, copy the rate, restart. */
  function Toggled(s: Regs): (r: Regs)
    ensures r.ledOn == !s.ledOn && r.ledPeriod == s.rate && !r.ledPending
    ensures r.rate == s.rate
    ensures r.sensorPeriod == s.sensorPeriod && r.sensorPending == s.sensorPending
  {
    var flipped := Flipped(s);
    Restarted(flipped, flipped.rate)
  }

  /** Publishing a reading is a pure overwrite: what was published before does
      not matter (last write wins), and so publishing the same reading twice is
      the same as publishing it once. */
  lemma SampledLastWriteWins(s: Regs, v: u16, w: u16)
    ensures Sampled(Sampled(s, v), w) == Sampled(s, w)
    ensures Sampled(Sampled(s, v), v) == Sampled(s, v)
  {
  }

  /** Two toggles restore the pin level, whatever the rate did in between. */
  lemma ToggledTwiceRestoresLevel(s: Regs, v: u16)
    ensures Toggled(Toggled(s)).ledOn == s.ledOn
    ensures Toggled(Sampled(Toggled(s), v)).ledOn == s.ledOn
  {
  }

  /** After a reading is published and the LED handler then runs, the LED
      timer runs at that reading's rate. */
  lemma SampledThenToggled(s: Regs, v: u16)
    ensures Toggled(Sampled(s, v)).ledPeriod == Rate(v)
    ensures Toggled(Sampled(s, v)).ledPeriod >= LED_BASE_RATE
  {
  }

  /** The two handlers touch disjoint parts of the state apart from the rate,
      which only `read_moisture` writes: so flipping the pin and restarting
      the LED timer commute with publishing a reading. */
  lemma SegmentsCommuteWithSample(s: Regs, v: u16, n: u32)
    ensures Flipped(Sampled(s, v)) == Sampled(Flipped(s), v)
    ensures Restarted(Sampled(s, v), n) == Sampled(Restarted(s, n), v)
  {
  }

  /** The application's resources, updated in place by the handlers. */
  class Resources {
    var rate: u32
    var ledOn: bool
    var ledPeriod: u32
    var sensorPeriod: u32
    var ledPending: bool
    var sensorPending: bool

    /** The current contents as a value. */
    function State(): (r: Regs)
      reads this
    {
      Regs(rate, ledOn, ledPeriod, sensorPeriod, ledPending, sensorPending)
    }

    /** `init` together with the resource's initial value. */
    constructor (level: bool)
      ensures State() == Initial(level)
      ensures rate == INITIAL_BLINK_RATE && ledPeriod == LED_BASE_RATE && sensorPeriod == ADC_RATE
    {
      rate := INITIAL_BLINK_RATE;
      ledOn := level;
      ledPeriod := LED_BASE_RATE;
      sensorPeriod := ADC_RATE;
      ledPending := false;
      sensorPending := false;
    }

    /** The LED timer counts down to zero and raises its update flag. This is
        a hardware event, not code of the application; it documents where the
        flags that the handlers clear come from and is not a step of the
        interleaving model. */
    method LedTimerElapses()
      modifies this
      ensures ledPending
      ensures State() == old(State()).(ledPending := true)
    {
      ledPending := true;
    }

    /** The sensor timer counts down to zero and raises its update flag (a
        hardware event, like `LedTimerElapses`). */
    method SensorTimerElapses()
      modifies this
      ensures sensorPending
      ensures State() == old(State()).(sensorPending := true)
    {
      sensorPending := true;
    }

    /** The sampling handler (priority 2) for an ADC reading `moisture`. */
    method ReadMoisture(moisture: u16)
      modifies this
      ensures rate == Rate(moisture) && LED_BASE_RATE <= rate <= MAX_RATE
      ensures !sensorPending && sensorPeriod == ADC_RATE
      ensures ledOn == old(ledOn) && ledPeriod == old(ledPeriod) && ledPending == old(ledPending)
      ensures State() == Sampled(old(State()), moisture)
    {
      var newRate := LED_BASE_RATE + (moisture as u32 / MOISTURE_SCALING_FACTOR);
      rate := newRate;
      sensorPending := false;
      sensorPeriod := ADC_RATE;
    }

    /** The LED handler (priority 1). The copy of the rate is the locked
        section; run here without preemption. */
    method ToggleLed()
      modifies this
      ensures ledOn == !old(ledOn)
      ensures ledPeriod == old(rate) && !ledPending
      ensures rate == old(rate)
      ensures sensorPeriod == old(sensorPeriod) && sensorPending == old(sensorPending)
      ensures State() == Toggled(old(State()))
    {
      ledOn := !ledOn;
      var newRate := LED_BASE_RATE;
      newRate := rate;
      ledPending := false;
      ledPeriod := newRate;
    }
  }
}
