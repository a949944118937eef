# Moisture-modulated blink: a Dafny model of its two interrupt handlers

The firmware (an RTIC application for an STM32F103) samples a moisture sensor
on one timer (TIM3, handler `read_moisture`, priority 2) and blinks the
on-board LED on another (TIM2, handler `toggle_led`, priority 1). The sampling
handler turns each raw reading into a blink rate, `LED_BASE_RATE + moisture /
MOISTURE_SCALING_FACTOR`, and publishes it in the shared resource
`led_blink_rate` (initially 20). The LED handler flips the pin, copies the rate
out under RTIC's `lock` and restarts its own timer at that rate.

The model has three modules:

- `Blink` (`rate.dfy`): the `u16`/`u32` machine types as newtypes, the three
  compile-time constants, and `Rate`, the rate rule, with its bounds, its
  characterisation by floor division, monotonicity and concrete values.
- `Handlers` (`handlers.dfy`): `Regs`, a value snapshot of the shared state
  (rate, LED level, the two timer periods in Hz, the two update-interrupt
  flags). Functions on it give the effect of `read_moisture` (`Sampled`) and of
  each segment of `toggle_led` (`Flipped`, then the locked copy of the rate, then
  `Restarted`; `Toggled` runs all three). The class `Resources` holds the same
  state in mutable fields. Its methods `ReadMoisture` and `ToggleLed` update
  those fields in place and are proved to perform exactly these transitions.
- `Preemption` (`preemption.dfy`): an interleaving model of the single-core,
  two-priority schedule. A sampling run is one atomic step. An LED run is three
  steps (`Flip`, `Lock`, `Restart`), and a sample may fall between any two of
  them. The `Lock` step is the masked copy, so no sample falls inside it. It is
  proved that the shared rate always equals the rate of the last completed
  sample, or 20 if there was none. It follows that the locked copy sees exactly
  that value. Every interleaving after which the LED handler is idle ends in
  the same state as running the handlers one after another, with each LED run
  placed at its locked read. In the middle of an LED run, undoing the run's
  flip (before the locked read) or completing its restart (after it) gives
  that serial schedule's state; `Settled` computes it.

Facts about the code that shape the model:

- The reading is any `u16`, the type `adc1.read` returns at line 110, so every
  rate lies in 2..329 and the `u32` addition at line 115 cannot overflow.
- A failed ADC read or LED toggle panics through `.unwrap()` (lines 90 and 112).
  No code keeps the last rate or skips a toggle, so no recovery path is modelled.
- `init` calls `rtic::pend` for TIM2 and TIM3 (lines 47-48). This sets both
  interrupts pending in the NVIC; it does not touch the timers' update flags.
  So right after `init` both handlers run, and `read_moisture` runs first
  because it has priority 2. In the firmware the first `toggle_led` therefore
  always copies a sampled rate, and the initial 20 is never copied. The model's
  `Start` allows any first step, including an LED run. Its schedules are a
  superset of the firmware's, so every lemma about all schedules also holds of
  the firmware's. `Converges` with an empty prefix covers the firmware's first
  LED run.
- The LED timer is started at `LED_BASE_RATE` (2 Hz, line 69) while the shared
  rate starts at 20 (line 31). In the firmware the first LED run restarts the
  timer at the rate of the first sample.

## Model

| member | source | states |
|---|---|---|
| `Blink.Rate` | src/main.rs:115 | The published rate is at least `LED_BASE_RATE` and at most 329 for every `u16` reading, so the `u32` sum never overflows. It equals the base rate plus q, where q·200 ≤ reading < (q+1)·200 (floor division). |
| `Blink.RateIsBasePlusQuotient` | src/main.rs:115 | Any quotient meeting the floor-division inequalities gives exactly `Rate`, so the rate rule is determined by them. |
| `Blink.RateMonotone` | src/main.rs:115 | A larger reading never gives a smaller rate. |
| `Blink.RateStep` | src/main.rs:115 | Raising the reading by one raises the rate by at most one. The rate goes up exactly when the new reading is a multiple of 200. |
| `Blink.RateSamples` | src/main.rs:23-25 | With base 2 and factor 200: readings 0 and 199 give 2, 200 gives 3, 4095 gives 22 and 65535 gives 329. |
| `Handlers.Initial` | src/main.rs:31-73 | The state after `init`: shared rate 20, LED timer at `LED_BASE_RATE`, sensor timer at `ADC_RATE`, neither update flag raised, pin level as given. |
| `Handlers.Sampled` | src/main.rs:114-119 | `read_moisture` as a transition: the rate becomes `Rate(moisture)` (in 2..329). The sensor flag is cleared and the sensor timer runs at `ADC_RATE`. The LED level, LED period and LED flag are untouched. |
| `Handlers.Flipped` | src/main.rs:90-93 | First segment of `toggle_led`: the pin level is inverted. Nothing else in the shared state changes; the local `new_rate := LED_BASE_RATE` of line 93 lives in the phase of `Preemption.Next`. |
| `Handlers.Restarted` | src/main.rs:98-99 | Last segment of `toggle_led`: the LED flag is cleared and the LED timer restarted at the copied rate. The rate, the pin and the sensor fields are untouched. |
| `Handlers.Toggled` | src/main.rs:87-100 | A whole `toggle_led` without preemption: the pin is inverted, the LED timer runs at the current shared rate, the LED flag is cleared, and the rate and sensor fields are untouched. |
| `Handlers.SampledLastWriteWins` | src/main.rs:115-116 | Publishing overwrites the rate regardless of the previous value (last write wins). Publishing the same reading twice gives the same state as publishing it once. |
| `Handlers.ToggledTwiceRestoresLevel` | src/main.rs:90 | Two LED runs restore the pin level, also when a sample ran between them. |
| `Handlers.SampledThenToggled` | src/main.rs:94-99 | After `read_moisture(v)` and then `toggle_led`, the LED timer runs at `Rate(v)`, which is at least the base rate. |
| `Handlers.SegmentsCommuteWithSample` | src/main.rs:83-106 | The LED handler's pin flip and timer restart commute with a sample, because the two handlers' resources overlap only in the rate. |
| `Handlers.Resources.constructor` | src/main.rs:31-73 | The initial state: shared rate 20, LED timer at `LED_BASE_RATE`, sensor timer at `ADC_RATE`, no update flag raised. |
| `Handlers.Resources.LedTimerElapses` | src/main.rs:70 | TIM2 elapsing raises its update flag and changes nothing else. |
| `Handlers.Resources.SensorTimerElapses` | src/main.rs:73 | TIM3 elapsing raises its update flag and changes nothing else. |
| `Handlers.Resources.ReadMoisture` | src/main.rs:107-120 | The rate becomes `Rate(moisture)`. The sensor flag is cleared and the sensor timer restarted at `ADC_RATE`. LED level, LED period and LED flag are unchanged. |
| `Handlers.Resources.ToggleLed` | src/main.rs:87-100 | The LED level is flipped once. The LED flag is cleared and the LED period becomes the rate read. The rate and both sensor fields are unchanged. |
| `Preemption.Next` | src/main.rs:90-119 | One atomic step. `Sample` is lines 114-119 and is always allowed (priority 2 preempts anywhere). `Flip` merges lines 90 and 93, `Lock` is lines 94-96 and `Restart` merges lines 98-99; they are allowed only in that order. Only `Sample` writes the rate, a sample leaves the LED handler's phase and `new_rate` alone, `Lock` copies the shared rate, and `Restart` sets the LED period to the copied value. Merging lines is sound because no other handler reads what those lines touch (`Handlers.SegmentsCommuteWithSample`). |
| `Preemption.UnpreemptedToggle` | src/main.rs:87-100 | The three segments of `toggle_led`, run with no sample between them, give exactly one `Toggled` step. |
| `Preemption.PublishedIsLastWrite` | src/main.rs:116 | The published value is the initial value if no sample occurred. Otherwise it is the rate of the last sample. |
| `Preemption.RateIsPublished` | src/main.rs:102-116 | In every allowed interleaving the shared rate equals the published value. So it is the initial value or lies in 2..329. |
| `Preemption.LockedReadSeesPublished` | src/main.rs:93-96 | From any state, the locked section copies exactly the published value. No sample can fall between the read of the shared rate and the store into `new_rate`. |
| `Preemption.LockedReadSeesCompletedWrite` | src/main.rs:93-96 | From the initial state, the value the locked section copies is 20 if no sample completed before it. Otherwise it is the rate of the last sample that completed before it. |
| `Preemption.LocalRateInvariant` | src/main.rs:93-96 | Before the lock, the handler's local `new_rate` still holds `LED_BASE_RATE`. After the lock, it holds 20 or a rate in 2..329. |
| `Preemption.SettledStep` | src/main.rs:83-120 | Each step moves the settled state like its serial counterpart: a sample like a whole `read_moisture`, the locked read like a whole `toggle_led`, and the flip and restart segments not at all. |
| `Preemption.Serializable` | src/main.rs:83-120 | Every allowed interleaving, once settled (a pending flip undone, a copied rate's restart completed), equals the state of the serial schedule in which each LED run sits at its locked read. When the LED handler is idle, the raw state equals it. |
| `Preemption.PublishedSampleFree` | src/main.rs:116 | Steps other than samples never change the published value. |
| `Preemption.Converges` | src/main.rs:94-116 | After a sample, the first LED run that starts after it with no further sample leaves the LED timer at that sample's rate. Any sample-free LED steps may come in between, including the restart at the old rate of a run that copied before the sample. |
| `Preemption.PeriodStaysFixed` | src/main.rs:93-99 | While no sample runs, once the LED period equals the shared rate (and any copied `new_rate` does too), it stays at that rate through any number of LED runs. |
| `Preemption.ConvergedPeriodStaysFixed` | src/main.rs:93-116 | After converging on a sample's rate, the LED timer stays at that rate until the next sample. |

## Left out

- Peripheral setup in `init` (clock tree, ADC and GPIO configuration, timer construction, `listen`) is HAL configuration and is left out. Only its effect on the modelled state is kept.
- The `rtic::pend` calls in `init` (lines 47-48) are not a step of the model. Their effect, that `read_moisture` runs before the first `toggle_led`, is not imposed: `Start` allows any first step, which is a superset of the firmware's schedules.
- The ADC conversion is left out. The reading is an arbitrary `u16` parameter of `ReadMoisture` and `Sample`.
- The initial level of the LED pin is set by the HAL, so it is a parameter.
- Panics from `.unwrap()` on the ADC read and the LED toggle are left out: the firmware halts and has no recovery path.
- The conversion of Hz to timer reload values in `start(...hz())` is left out. Timer periods are abstract Hz integers.
- RTIC's `lock` implementation, NVIC priorities and masking are left out. They appear only as the atomic `Lock` step and the rule that a sample may come between segments but never inside one.
- Preemption.Serializable: timers elapsing in the middle of a handler are not among the interleaved steps, so the model does not cover an update flag that is raised and then cleared within one run.
- The interleaving model is untimed: handler runs are not tied to timer expiries, and any enabled step may come next. So `Preemption.Converges` states convergence by the next complete LED run after a sample, not within one LED period plus one sampling period. `Handlers.Resources.LedTimerElapses` and `Handlers.Resources.SensorTimerElapses` only describe the hardware events that raise the flags; no other member uses them.
