/**
 Preemption between the two handlers.

 `read_moisture` has priority 2 and `toggle_led` priority 1, on one core. The
 sampling handler can therefore preempt the LED handler at any point, except
 inside the `lock` around the copy of the shared rate, which masks it; the LED
 handler never preempts the sampling handler. Each run of `read_moisture` is a
 single atomic step here, and a run of `toggle_led` is three steps:

   Flip     toggle the pin and set the local `new_rate` to LED_BASE_RATE
   Lock     copy the shared rate into `new_rate` (the locked section)
   Restart  clear the LED flag and restart the LED timer at `new_rate`

 A `Sample` step may fall between any two of them. The LED handler is not
 re-entrant, so its segments come in order and a new run starts only after
 the previous one finished. A step that is not allowed in the current phase
 yields `None`.
 */
module Preemption {
  import opened Blink
  import opened Handlers

  /** Where the LED handler is, with its local `new_rate`. */
  datatype Phase = Idle | Flipping(newRate: u32) | Copied(newRate: u32)

  datatype Sys = Sys(regs: Regs, phase: Phase)

  datatype Step = Sample(moisture: u16) | Flip | Lock | Restart

  /** One complete handler run, as in a schedule without preemption. */
  datatype Handler = SampleRun(moisture: u16) | ToggleRun

  datatype Option<T> = None | Some(value: T)

  /** The system right after `init`. */
  function Start(level: bool): (sys: Sys) {
    Sys(Initial(level), Idle)
  }

  /** One atomic step. Only the sampling step writes the shared rate; a
      sample leaves the LED handler's phase and local `new_rate` alone; the
      locked step copies the shared rate. The LED segments are allowed only
      in order. */
  function Next(sys: Sys, step: Step): (r: Option<Sys>)
    ensures r.Some? <==> step.Sample? || (step.Flip? && sys.phase.Idle?)
                         || (step.Lock? && sys.phase.Flipping?) || (step.Restart? && sys.phase.Copied?)
    ensures r.Some? && !step.Sample? ==> r.value.regs.rate == sys.regs.rate
    ensures r.Some? && step.Sample? ==> r.value.phase == sys.phase && r.value.regs.rate == Rate(step.moisture)
    ensures r.Some? && step.Lock? ==> r.value.phase == Copied(sys.regs.rate)
    ensures r.Some? && step.Restart? ==> r.value.regs.ledPeriod == sys.phase.newRate
  {
    match step
    case Sample(v) => Some(Sys(Sampled(sys.regs, v), sys.phase))
    case Flip =>
      if sys.phase.Idle? then Some(Sys(Flipped(sys.regs), Flipping(LED_BASE_RATE))) else None
    case Lock =>
      if sys.phase.Flipping? then Some(Sys(sys.regs, Copied(sys.regs.rate))) else None
    case Restart =>
      if sys.phase.Copied? then Some(Sys(Restarted(sys.regs, sys.phase.newRate), Idle)) else None
  }

  /** Runs an interleaving; `None` when some step is not allowed where it occurs. */
  function Run(sys: Sys, steps: seq<Step>): (r: Option<Sys>) {
    if steps == [] then Some(sys)
    else
      match Run(sys, steps[..|steps| - 1])
      case None => None
      case Some(mid) => Next(mid, steps[|steps| - 1])
  }

  /** Handler runs one after another, each to completion. */
  function Serial(s: Regs, runs: seq<Handler>): (r: Regs) {
    if runs == [] then s
    else
      var mid := Serial(s, runs[..|runs| - 1]);
      match runs[|runs| - 1]
      case SampleRun(v) => Sampled(mid, v)
      case ToggleRun => Toggled(mid)
  }

  /** The serial schedule an interleaving stands for: each sample where it
      happened, each LED run at its locked read. */
  function Linearized(steps: seq<Step>): (runs: seq<Handler>) {
    if steps == [] then []
    else
      Linearized(steps[..|steps| - 1]) +
      match steps[|steps| - 1]
      case Sample(v) => [SampleRun(v)]
      case Lock => [ToggleRun]
      case _ => []
  }

  /** The state a serial schedule would be in: an LED run that has flipped but
      not yet copied the rate is undone, one that has copied the rate is
      completed with the copied value. */
  function Settled(sys: Sys): (r: Regs) {
    match sys.phase
    case Idle => sys.regs
    case Flipping(_) => Flipped(sys.regs)
    case Copied(n) => Restarted(sys.regs, n)
  }

  /** The value of the shared rate after `steps`, starting from `initial`: the
      rate of the last sample, or `initial` if nothing was sampled. */
  function Published(initial: u32, steps: seq<Step>): (rate: u32) {
    if steps == [] then initial
    else if steps[|steps| - 1].Sample? then Rate(steps[|steps| - 1].moisture)
    else Published(initial, steps[..|steps| - 1])
  }

  /** `i` is the position of the last `Sample` step of `steps`. */
  predicate LastSampleAt(steps: seq<Step>, i: int) {
    0 <= i < |steps| && steps[i].Sample? && forall j | i < j < |steps| :: !steps[j].Sample?
  }

  /** `Published` is the last completed write, or the initial value when
      there was none. */
  lemma {:induction false} PublishedIsLastWrite(initial: u32, steps: seq<Step>)
    ensures (forall j | 0 <= j < |steps| :: !steps[j].Sample?) ==> Published(initial, steps) == initial
    ensures (exists j | 0 <= j < |steps| :: steps[j].Sample?) ==>
              exists i :: LastSampleAt(steps, i) && Published(initial, steps) == Rate(steps[i].moisture)
  {
    if steps != [] {
      var pre := steps[..|steps| - 1];
      PublishedIsLastWrite(initial, pre);
      if !steps[|steps| - 1].Sample? {
        assert forall j | 0 <= j < |pre| :: pre[j] == steps[j];
        if exists j | 0 <= j < |steps| :: steps[j].Sample? {
          var i :| LastSampleAt(pre, i) && Published(initial, pre) == Rate(pre[i].moisture);
          assert LastSampleAt(steps, i);
        }
      } else {
        assert LastSampleAt(steps, |steps| - 1);
      }
    }
  }

  /** Preemption never corrupts the shared rate: in every interleaving it
      holds exactly the published value. */
  lemma {:induction false} RateIsPublished(sys0: Sys, steps: seq<Step>, sys: Sys)
    requires Run(sys0, steps) == Some(sys)
    ensures sys.regs.rate == Published(sys0.regs.rate, steps)
    ensures sys.regs.rate == sys0.regs.rate || LED_BASE_RATE <= sys.regs.rate <= MAX_RATE
  {
    if steps != [] {
      var pre := steps[..|steps| - 1];
      var mid := Run(sys0, pre).value;
      RateIsPublished(sys0, pre, mid);
    }
  }

  /** The locked section copies out exactly the published value: no sample
      can come between reading the shared rate and storing it in `new_rate`. */
  lemma LockedReadSeesPublished(sys0: Sys, pre: seq<Step>, sys: Sys)
    requires Run(sys0, pre + [Lock]) == Some(sys)
    ensures sys.phase == Copied(Published(sys0.regs.rate, pre))
  {
    var steps := pre + [Lock];
    assert steps[..|steps| - 1] == pre;
    var mid := Run(sys0, pre).value;
    RateIsPublished(sys0, pre, mid);
  }

  /** The value the LED handler's locked section copies out is the value of the
      last `read_moisture` run that completed before it, or the initial 20 if
      none did: never a value that no run wrote. */
  lemma LockedReadSeesCompletedWrite(level: bool, pre: seq<Step>, sys: Sys)
    requires Run(Start(level), pre + [Lock]) == Some(sys)
    ensures sys.phase.Copied?
    ensures (forall j | 0 <= j < |pre| :: !pre[j].Sample?) ==> sys.phase.newRate == INITIAL_BLINK_RATE
    ensures (exists j | 0 <= j < |pre| :: pre[j].Sample?) ==>
              exists i :: LastSampleAt(pre, i) && sys.phase.newRate == Rate(pre[i].moisture)
  {
    LockedReadSeesPublished(Start(level), pre, sys);
    PublishedIsLastWrite(INITIAL_BLINK_RATE, pre);
  }

  /** An LED run that has flipped but not copied the rate still holds the
      default `new_rate` of LED_BASE_RATE; one that has copied holds a rate
      that some sample produced or the initial rate. */
  lemma {:induction false} LocalRateInvariant(level: bool, steps: seq<Step>, sys: Sys)
    requires Run(Start(level), steps) == Some(sys)
    ensures sys.phase.Flipping? ==> sys.phase.newRate == LED_BASE_RATE
    ensures sys.phase.Copied? ==>
              sys.phase.newRate == INITIAL_BLINK_RATE || LED_BASE_RATE <= sys.phase.newRate <= MAX_RATE
  {
    if steps != [] {
      var pre := steps[..|steps| - 1];
      var mid := Run(Start(level), pre).value;
      LocalRateInvariant(level, pre, mid);
      RateIsPublished(Start(level), pre, mid);
    }
  }

  /** Without preemption the three segments are exactly one `toggle_led` run. */
  lemma UnpreemptedToggle(s: Regs)
    ensures Run(Sys(s, Idle), [Flip, Lock, Restart]) == Some(Sys(Toggled(s), Idle))
  {
    assert [Flip, Lock, Restart][..2] == [Flip, Lock];
    assert [Flip, Lock][..1] == [Flip];
    assert [Flip][..0] == [];
    assert Run(Sys(s, Idle), [Flip]) == Some(Sys(Flipped(s), Flipping(LED_BASE_RATE)));
    assert Run(Sys(s, Idle), [Flip, Lock]) == Some(Sys(Flipped(s), Copied(s.rate)));
  }

  /** One step moves the settled state as its serial counterpart would: a
      sample as a sampling run, the locked read as a whole LED run, and the
      other LED segments not at all. */
  lemma SettledStep(mid: Sys, step: Step, next: Sys)
    requires Next(mid, step) == Some(next)
    ensures Settled(next) == match step
                             case Sample(v) => Sampled(Settled(mid), v)
                             case Lock => Toggled(Settled(mid))
                             case _ => Settled(mid)
  {
    if step.Sample? {
      SegmentsCommuteWithSample(mid.regs, step.moisture, if mid.phase.Copied? then mid.phase.newRate else 0);
    }
  }

  /** Every interleaving is equivalent to running the handlers one at a time,
      with each LED run placed at its locked read: once the LED handler is idle
      the state is exactly that of the serial schedule. */
  lemma {:induction false} Serializable(s: Regs, steps: seq<Step>, sys: Sys)
    requires Run(Sys(s, Idle), steps) == Some(sys)
    ensures Settled(sys) == Serial(s, Linearized(steps))
    ensures sys.phase.Idle? ==> sys.regs == Serial(s, Linearized(steps))
  {
    if steps != [] {
      var pre := steps[..|steps| - 1];
      var last := steps[|steps| - 1];
      var mid := Run(Sys(s, Idle), pre).value;
      Serializable(s, pre, mid);
      SettledStep(mid, last, sys);
      var runs := Linearized(pre);
      match last
      case Sample(v) =>
        assert Linearized(steps) == runs + [SampleRun(v)];
        assert (runs + [SampleRun(v)])[..|runs|] == runs;
      case Flip =>
        assert Linearized(steps) == runs + [] == runs;
      case Lock =>
        assert Linearized(steps) == runs + [ToggleRun];
        assert (runs + [ToggleRun])[..|runs|] == runs;
      case Restart =>
        assert Linearized(steps) == runs + [] == runs;
    }
  }

  /** No step of `steps` is a sample. */
  predicate SampleFree(steps: seq<Step>) {
    forall j | 0 <= j < |steps| :: !steps[j].Sample?
  }

  /** Running `a` and then `b` is running `a + b`. */
  lemma {:induction false} RunAppend(sys0: Sys, a: seq<Step>, b: seq<Step>)
    ensures Run(sys0, a + b) == match Run(sys0, a) case None => None case Some(m) => Run(m, b)
  {
    if b == [] {
      assert a + b == a;
    } else {
      var b' := b[..|b| - 1];
      assert (a + b)[..|a + b| - 1] == a + b';
      assert (a + b)[|a + b| - 1] == b[|b| - 1];
      RunAppend(sys0, a, b');
    }
  }

  /** Steps that are not samples never change the published value. */
  lemma {:induction false} PublishedSampleFree(initial: u32, pre: seq<Step>, tail: seq<Step>)
    requires SampleFree(tail)
    ensures Published(initial, pre + tail) == Published(initial, pre)
  {
    if tail == [] {
      assert pre + tail == pre;
    } else {
      var tail' := tail[..|tail| - 1];
      assert (pre + tail)[..|pre + tail| - 1] == pre + tail';
      assert (pre + tail)[|pre + tail| - 1] == tail[|tail| - 1];
      PublishedSampleFree(initial, pre, tail');
    }
  }

  /** The LED handler converges: once a sample has completed, the first LED
      run that starts after it, with no further sample before that run's
      locked read or restart, leaves the LED timer at the sample's rate. Any
      LED steps may come between the sample and that run, including the
      restart of a run that copied the rate before the sample and so restarts
      the timer at the old rate. */
  lemma Converges(sys0: Sys, pre: seq<Step>, v: u16, mid: seq<Step>, sys: Sys)
    requires SampleFree(mid)
    requires Run(sys0, pre + [Sample(v)] + mid + [Flip, Lock, Restart]) == Some(sys)
    ensures sys.phase.Idle? && sys.regs.ledPeriod == Rate(v) && sys.regs.rate == Rate(v)
  {
    var sampled := pre + [Sample(v)];
    var a := sampled + (mid + [Flip]);
    var full := a + [Lock] + [Restart];
    assert full == pre + [Sample(v)] + mid + [Flip, Lock, Restart];
    assert full[..|full| - 1] == a + [Lock];
    assert Run(sys0, a + [Lock]).Some?;
    var m := Run(sys0, a + [Lock]).value;
    LockedReadSeesPublished(sys0, a, m);
    assert SampleFree(mid + [Flip]);
    PublishedSampleFree(sys0.regs.rate, sampled, mid + [Flip]);
    assert sampled[|sampled| - 1] == Sample(v);
    assert Published(sys0.regs.rate, sampled) == Rate(v);
    RateIsPublished(sys0, full, sys);
    assert full == sampled + (mid + [Flip, Lock, Restart]);
    assert SampleFree(mid + [Flip, Lock, Restart]);
    PublishedSampleFree(sys0.regs.rate, sampled, mid + [Flip, Lock, Restart]);
  }

  /** While no sample runs, the LED timer period stays at the shared rate once
      it has caught up with it, through any number of further LED runs. */
  lemma {:induction false} PeriodStaysFixed(sys1: Sys, tail: seq<Step>, sys: Sys)
    requires sys1.regs.ledPeriod == sys1.regs.rate
    requires sys1.phase.Copied? ==> sys1.phase.newRate == sys1.regs.rate
    requires SampleFree(tail)
    requires Run(sys1, tail) == Some(sys)
    ensures sys.regs.rate == sys1.regs.rate && sys.regs.ledPeriod == sys1.regs.rate
    ensures sys.phase.Copied? ==> sys.phase.newRate == sys1.regs.rate
  {
    if tail != [] {
      var tail' := tail[..|tail| - 1];
      assert SampleFree(tail');
      var m := Run(sys1, tail').value;
      PeriodStaysFixed(sys1, tail', m);
    }
  }

  /** After the LED handler has converged on a sample's rate, the LED timer
      stays at that rate until the next sample. */
  lemma ConvergedPeriodStaysFixed(sys0: Sys, pre: seq<Step>, v: u16, mid: seq<Step>, tail: seq<Step>, sys: Sys)
    requires SampleFree(mid) && SampleFree(tail)
    requires Run(sys0, pre + [Sample(v)] + mid + [Flip, Lock, Restart] + tail) == Some(sys)
    ensures sys.regs.ledPeriod == Rate(v) && sys.regs.rate == Rate(v)
  {
    var converged := pre + [Sample(v)] + mid + [Flip, Lock, Restart];
    RunAppend(sys0, converged, tail);
    var s1 := Run(sys0, converged).value;
    Converges(sys0, pre, v, mid, s1);
    PeriodStaysFixed(s1, tail, sys);
  }
}
