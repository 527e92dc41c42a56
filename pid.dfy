/** The controller objects: PidImpl holds the parameters and the two scalars of
    memory and updates the memory in place on every call; Pid is the public
    wrapper that owns one PidImpl and forwards to it. */
module PidController {
  import opened PidLaw

  class PidImpl {
    const dt: real
    const max: real
    const min: real
    const kp: real
    const kd: real
    const ki: real
    var preError: real
    var integral: real

    /** The parameters as a value. */
    function Parameters(): (p: Params) {
      Params(dt, max, min, kp, kd, ki)
    }

    /** The mutable memory as a value. */
    function Memory(): (m: State)
      reads this
    {
      State(preError, integral)
    }

    /** Stores the six parameters unchanged and starts with no error seen. */
    constructor (dt: real, max: real, min: real, kp: real, kd: real, ki: real)
      ensures this.dt == dt && this.max == max && this.min == min
      ensures this.kp == kp && this.kd == kd && this.ki == ki
      ensures preError == 0.0 && integral == 0.0
      ensures Memory() == Init
    {
      this.dt, this.max, this.min := dt, max, min;
      this.kp, this.kd, this.ki := kp, kd, ki;
      preError, integral := 0.0, 0.0;
    }

    /** One control-loop tick. */
    method Calculate(setpoint: real, pv: real) returns (output: real)
      requires dt != 0.0
      modifies this
      ensures integral == old(integral) + (setpoint - pv) * dt
      ensures preError == setpoint - pv
      ensures output == Clamp(RawOutput(Parameters(), old(Memory()), setpoint - pv), min, max)
      ensures min <= max ==> min <= output <= max
      ensures Tick(Memory(), output) == Step(Parameters(), old(Memory()), Sample(setpoint, pv))
    {
      ghost var before := Memory();
      var error := setpoint - pv;
      var pOut := kp * error;
      integral := integral + error * dt;
      assert integral == Accumulated(Parameters(), before, error);
      var iOut := ki * integral;
      var derivative := (error - preError) / dt;
      var dOut := kd * derivative;
      output := pOut + iOut + dOut;
      assert output == RawOutput(Parameters(), before, error) by {
        assert iOut == IntegralTerm(Parameters(), before, error);
        assert dOut == DerivativeTerm(Parameters(), before, error);
      }
      if output > max {
        output := max;
      } else if output < min {
        output := min;
      }
      preError := error;
    }
  }

  class Pid {
    const impl: PidImpl

    /** Creates the implementation object with the same six parameters. */
    constructor (dt: real, max: real, min: real, kp: real, kd: real, ki: real)
      ensures fresh(impl)
      ensures impl.Parameters() == Params(dt, max, min, kp, kd, ki)
      ensures impl.Memory() == Init
    {
      impl := new PidImpl(dt, max, min, kp, kd, ki);
    }

    /** Returns exactly what the implementation's Calculate returns on the same memory. */
    method Calculate(setpoint: real, pv: real) returns (output: real)
      requires impl.dt != 0.0
      modifies impl
      ensures Tick(impl.Memory(), output) == Step(impl.Parameters(), old(impl.Memory()), Sample(setpoint, pv))
    {
      output := impl.Calculate(setpoint, pv);
    }
  }
}
