/** The fixed-timestep physics clock: frame time is accumulated, whole
    timesteps are consumed one at a time, and the fraction left over is the
    interpolation alpha used for rendering. Floats are reals, so the
    accumulator carries no rounding error. */
module PhysicsTiming {

  const U32Max: nat := 0xFFFF_FFFF

  /** `f32::clamp(0.0, 1.0)` */
  function Clamp01(x: real): (r: real)
    ensures 0.0 <= r <= 1.0
    ensures 0.0 <= x <= 1.0 ==> r == x
    ensures x < 0.0 ==> r == 0.0
    ensures x > 1.0 ==> r == 1.0
  {
    if x < 0.0 then 0.0 else if x > 1.0 then 1.0 else x
  }

  /** `(x as u32)`: Rust's float-to-integer cast truncates toward zero and
      saturates at both ends of the `u32` range. */
  function CastToU32(x: real): (r: nat)
    ensures r <= U32Max
    ensures x < 0.0 ==> r == 0
    ensures 0.0 <= x ==> r as real <= x
    ensures 0.0 <= x < U32Max as real ==> x < r as real + 1.0
  {
    if x < 0.0 then 0 else if x.Floor > U32Max then U32Max else x.Floor
  }

  /** The arithmetic of `steps_needed` once enabled: whole timesteps in the
      accumulator, at most `maxSteps`. */
  function StepsFor(accumulator: real, timestep: real, maxSteps: nat): (n: nat)
    requires timestep > 0.0
    ensures n <= maxSteps
    ensures accumulator < timestep ==> n == 0
  {
    var q := accumulator / timestep;
    assert accumulator < timestep ==> q < 1.0;
    var whole := CastToU32(q);
    if whole <= maxSteps then whole else maxSteps
  }

  /** At least one step is needed exactly when a whole timestep has
      accumulated (and the limit allows any step at all). */
  lemma StepsForPositive(accumulator: real, timestep: real, maxSteps: nat)
    requires timestep > 0.0 && maxSteps > 0
    ensures StepsFor(accumulator, timestep, maxSteps) > 0 <==> accumulator >= timestep
  {
    if accumulator >= timestep {
      DivAtLeastOne(accumulator, timestep);
    }
  }

  /** A quotient by a positive divisor is at least one when the dividend
      is at least the divisor. */
  lemma DivAtLeastOne(a: real, t: real)
    requires t > 0.0 && a >= t
    ensures a / t >= 1.0
  {
    var q := a / t;
    assert q * t == a;
  }

  /** Subtracting the divisor takes one from the quotient. */
  lemma DivSubOne(a: real, t: real)
    requires t > 0.0
    ensures (a - t) / t == a / t - 1.0
  {
    var q := a / t;
    var q' := (a - t) / t;
    assert q * t == a;
    assert q' * t == a - t;
    var d := q' - q + 1.0;
    assert d * t == q' * t - q * t + t;
    ZeroFactor(d, t);
  }

  lemma ZeroFactor(d: real, t: real)
    requires t > 0.0 && d * t == 0.0
    ensures d == 0.0
  {
    if d > 0.0 {
      PositiveProduct(d, t);
    } else if d < 0.0 {
      PositiveProduct(-d, t);
    }
  }

  lemma PositiveProduct(x: real, y: real)
    requires x > 0.0 && y > 0.0
    ensures x * y > 0.0
  {
  }

  /** Taking one step out of the accumulator leaves exactly one step fewer
      to take, as long as the limit did not cut the count. */
  lemma StepsForAfterConsume(accumulator: real, timestep: real, maxSteps: nat)
    requires timestep > 0.0 && accumulator >= timestep
    requires accumulator / timestep < maxSteps as real && maxSteps <= U32Max
    ensures StepsFor(accumulator - timestep, timestep, maxSteps) == StepsFor(accumulator, timestep, maxSteps) - 1
  {
    var q := accumulator / timestep;
    DivSubOne(accumulator, timestep);
    DivAtLeastOne(accumulator, timestep);
    CastShift(q);
  }

  /** Casting one less gives one less, within the range of `u32`. */
  lemma CastShift(q: real)
    requires 1.0 <= q < U32Max as real
    ensures CastToU32(q - 1.0) == CastToU32(q) - 1
  {
    assert (q - 1.0).Floor == q.Floor - 1;
  }

  /** `PhysicsTime` */
  class PhysicsTime {
    var fixedTimestep: real
    var accumulator: real
    var maxSteps: nat
    var interpolationAlpha: real
    var totalTime: real
    var stepCount: nat
    var enabled: bool

    /** The timestep is positive and the alpha lies in [0, 1]. */
    ghost predicate Valid()
      reads this
    {
      fixedTimestep > 0.0 && 0.0 <= interpolationAlpha <= 1.0 && maxSteps <= U32Max
    }

    /** `PhysicsTime::default`: 60 Hz, at most four steps a frame, enabled,
        nothing accumulated. */
    constructor Default()
      ensures Valid()
      ensures fixedTimestep == 1.0 / 60.0 && maxSteps == 4 && enabled
      ensures accumulator == 0.0 && interpolationAlpha == 0.0 && totalTime == 0.0 && stepCount == 0
    {
      fixedTimestep := 1.0 / 60.0;
      accumulator := 0.0;
      maxSteps := 4;
      interpolationAlpha := 0.0;
      totalTime := 0.0;
      stepCount := 0;
      enabled := true;
    }

    /** `PhysicsTime::new`: the default with a timestep of one over the rate. */
    constructor WithRate(timestepHz: real)
      requires timestepHz > 0.0
      ensures Valid()
      ensures fixedTimestep == 1.0 / timestepHz && maxSteps == 4 && enabled
      ensures accumulator == 0.0 && interpolationAlpha == 0.0 && totalTime == 0.0 && stepCount == 0
    {
      fixedTimestep := 1.0 / timestepHz;
      accumulator := 0.0;
      maxSteps := 4;
      interpolationAlpha := 0.0;
      totalTime := 0.0;
      stepCount := 0;
      enabled := true;
    }

    /** `update`: only when enabled, the frame time is added and the alpha
        becomes the accumulated fraction of a timestep, clamped to [0, 1]. */
    method Update(deltaTime: real)
      requires Valid()
      modifies this`accumulator, this`interpolationAlpha
      ensures Valid()
      ensures enabled ==> accumulator == old(accumulator) + deltaTime
                          && interpolationAlpha == Clamp01(accumulator / fixedTimestep)
      ensures !enabled ==> accumulator == old(accumulator) && interpolationAlpha == old(interpolationAlpha)
    {
      if enabled {
        accumulator := accumulator + deltaTime;
        interpolationAlpha := accumulator / fixedTimestep;
        interpolationAlpha := Clamp01(interpolationAlpha);
      }
    }

    /** `should_step` */
    predicate ShouldStep()
      reads this
    {
      enabled && accumulator >= fixedTimestep
    }

    /** `consume_step`: when a step is due, one timestep moves from the
        accumulator to the total time and the step count grows by one;
        otherwise nothing changes. */
    method ConsumeStep()
      requires Valid()
      modifies this`accumulator, this`totalTime, this`stepCount
      ensures Valid()
      ensures old(ShouldStep()) ==>
        && accumulator == old(accumulator) - fixedTimestep
        && totalTime == old(totalTime) + fixedTimestep
        && stepCount == old(stepCount) + 1
      ensures !old(ShouldStep()) ==>
        accumulator == old(accumulator) && totalTime == old(totalTime) && stepCount == old(stepCount)
      ensures accumulator + totalTime == old(accumulator) + old(totalTime)
    {
      if ShouldStep() {
        accumulator := accumulator - fixedTimestep;
        totalTime := totalTime + fixedTimestep;
        stepCount := stepCount + 1;
      }
    }

    /** `steps_needed`: 0 when disabled; otherwise the whole timesteps in
        the accumulator, capped at `max_steps`. */
    function StepsNeeded(): (n: nat)
      requires Valid()
      reads this
      ensures n <= maxSteps
      ensures !enabled ==> n == 0
      ensures maxSteps > 0 ==> (n > 0 <==> ShouldStep())
    {
      if !enabled then 0
      else
        StepsForPositive2(accumulator, fixedTimestep, maxSteps);
        StepsFor(accumulator, fixedTimestep, maxSteps)
    }

    /** `reset`: the accumulator, total time, step count and alpha are
        zeroed; the timestep, limit and enabled flag are kept. */
    method Reset()
      modifies this`accumulator, this`totalTime, this`stepCount, this`interpolationAlpha
      ensures accumulator == 0.0 && totalTime == 0.0 && stepCount == 0 && interpolationAlpha == 0.0
      ensures Valid() <==> old(fixedTimestep > 0.0 && maxSteps <= U32Max)
    {
      accumulator := 0.0;
      totalTime := 0.0;
      stepCount := 0;
      interpolationAlpha := 0.0;
    }
  }

  lemma StepsForPositive2(accumulator: real, timestep: real, maxSteps: nat)
    requires timestep > 0.0
    ensures maxSteps > 0 ==> (StepsFor(accumulator, timestep, maxSteps) > 0 <==> accumulator >= timestep)
  {
    if maxSteps > 0 {
      StepsForPositive(accumulator, timestep, maxSteps);
    }
  }

  /** The clock tests at 60 Hz: 0.016 s accumulates with a positive alpha;
      a timestep plus a millisecond is one step, ten timesteps are capped at
      four; consuming a step leaves the millisecond and counts one step. */
  method ClockExample() returns (alpha: real, one: nat, capped: nat, left: real, steps: nat)
    ensures alpha > 0.0 && one == 1 && capped == 4 && left == 0.001 && steps == 1
  {
    var t := new PhysicsTime.Default();
    t.Update(0.016);
    alpha := t.interpolationAlpha;
    t.accumulator := t.fixedTimestep + 0.001;
    one := t.StepsNeeded();
    t.ConsumeStep();
    left := t.accumulator;
    steps := t.stepCount;
    t.accumulator := t.fixedTimestep * 10.0;
    capped := t.StepsNeeded();
  }

  /** The disabled test: an update changes nothing and no step is due. */
  method DisabledExample() returns (accumulated: real, due: bool, needed: nat)
    ensures accumulated == 0.0 && !due && needed == 0
  {
    var t := new PhysicsTime.Default();
    t.enabled := false;
    t.Update(0.016);
    accumulated := t.accumulator;
    due := t.ShouldStep();
    needed := t.StepsNeeded();
  }
}
