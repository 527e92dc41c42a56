/** The arithmetic of one PID controller tick, stated as pure functions over
    `real`, and what a sequence of ticks does to the controller's memory. */
module PidLaw {

  /** The six tuning parameters fixed at construction. */
  datatype Params = Params(dt: real, max: real, min: real, kp: real, kd: real, ki: real)

  /** The controller's memory: the previous error and the accumulated integral. */
  datatype State = State(preError: real, integral: real)

  /** One (setpoint, process value) pair handed to a tick. */
  datatype Sample = Sample(setpoint: real, pv: real)

  /** The memory and the returned output after one tick. */
  datatype Tick = Tick(state: State, output: real)

  /** The memory and every returned output after a sequence of ticks. */
  datatype Trace = Trace(state: State, outputs: seq<real>)

  /** A freshly constructed controller has seen no error yet. */
  const Init: State := State(0.0, 0.0)

  function Error(x: Sample): (r: real) {
    x.setpoint - x.pv
  }

  function ProportionalTerm(p: Params, e: real): (r: real) {
    p.kp * e
  }

  /** The integral once this tick's error, times dt, has been added to it. */
  function Accumulated(p: Params, s: State, e: real): (r: real) {
    s.integral + e * p.dt
  }

  /** The integral term reads the integral AFTER this tick's error was added. */
  function IntegralTerm(p: Params, s: State, e: real): (r: real) {
    p.ki * Accumulated(p, s, e)
  }

  function DerivativeTerm(p: Params, s: State, e: real): (r: real)
    requires p.dt != 0.0
  {
    p.kd * ((e - s.preError) / p.dt)
  }

  /** The unclamped sum of the three terms, in terms of the memory before the tick.
      An error equal to the remembered one contributes no derivative part. */
  function RawOutput(p: Params, s: State, e: real): (r: real)
    requires p.dt != 0.0
    ensures e == s.preError ==> r == ProportionalTerm(p, e) + IntegralTerm(p, s, e)
  {
    ProportionalTerm(p, e) + IntegralTerm(p, s, e) + DerivativeTerm(p, s, e)
  }

  /** Saturation with the upper bound tested first, then the lower bound. */
  function Clamp(raw: real, min: real, max: real): (r: real)
    ensures raw > max ==> r == max
    ensures raw <= max && raw < min ==> r == min
    ensures min <= raw <= max ==> r == raw
    ensures min <= max ==> min <= r <= max
  {
    if raw > max then max
    else if raw < min then min
    else raw
  }

  /** With a consistent range, Clamp picks the point of [min, max] nearest to raw. */
  lemma ClampIsNearest(raw: real, min: real, max: real, y: real)
    requires min <= max
    requires min <= y <= max
    ensures min <= Clamp(raw, min, max) <= max
    ensures Abs(Clamp(raw, min, max) - raw) <= Abs(y - raw)
  {
  }

  /** Clamping an already clamped value changes nothing. */
  lemma ClampIdempotent(raw: real, min: real, max: real)
    requires min <= max
    ensures Clamp(Clamp(raw, min, max), min, max) == Clamp(raw, min, max)
  {
  }

  function Abs(x: real): (r: real) {
    if x < 0.0 then -x else x
  }

  /** The memory after one call: the error times dt is added to the integral, and
      the error itself is remembered; neither the gains, nor the limits, nor the
      output take part. */
  function Next(p: Params, s: State, x: Sample): (n: State)
    ensures n.integral - s.integral == Error(x) * p.dt
    ensures n.preError == Error(x)
  {
    State(Error(x), Accumulated(p, s, Error(x)))
  }

  /** Within one call the I term reads the integral already updated by this
      call, while the D term reads the previous error from before the call. */
  lemma RawOutputReadsMemory(p: Params, s: State, x: Sample)
    requires p.dt != 0.0
    ensures RawOutput(p, s, Error(x))
         == p.kp * Error(x) + p.ki * Next(p, s, x).integral + p.kd * ((Error(x) - s.preError) / p.dt)
  {
  }

  /** One call of calculate: new memory and returned output. */
  function Step(p: Params, s: State, x: Sample): (t: Tick)
    requires p.dt != 0.0
    ensures t.state.integral == s.integral + Error(x) * p.dt
    ensures t.state.preError == Error(x)
    ensures t.output == Clamp(RawOutput(p, s, Error(x)), p.min, p.max)
    ensures p.min <= p.max ==> p.min <= t.output <= p.max
  {
    Tick(Next(p, s, x), Clamp(RawOutput(p, s, Error(x)), p.min, p.max))
  }

  /** Successive calls of calculate, folded from the first sample to the last. */
  function Run(p: Params, s: State, xs: seq<Sample>): (t: Trace)
    requires p.dt != 0.0
    ensures |t.outputs| == |xs|
    ensures p.min <= p.max ==> forall i :: 0 <= i < |t.outputs| ==> p.min <= t.outputs[i] <= p.max
    decreases |xs|
  {
    if xs == [] then Trace(s, [])
    else
      var first := Step(p, s, xs[0]);
      var rest := Run(p, first.state, xs[1..]);
      Trace(rest.state, [first.output] + rest.outputs)
  }

  /** The sum of the errors of a sequence of samples. */
  function SumErrors(xs: seq<Sample>): (sum: real)
    decreases |xs|
  {
    if xs == [] then 0.0 else Error(xs[0]) + SumErrors(xs[1..])
  }

  /** The memory after successive calls, without the outputs. */
  function FinalState(p: Params, s: State, xs: seq<Sample>): (m: State)
    decreases |xs|
  {
    if xs == [] then s else FinalState(p, Next(p, s, xs[0]), xs[1..])
  }

  /** The memory Run leaves behind is the one FinalState computes. */
  lemma {:induction false} RunFinalState(p: Params, s: State, xs: seq<Sample>)
    requires p.dt != 0.0
    ensures Run(p, s, xs).state == FinalState(p, s, xs)
    decreases |xs|
  {
    if xs != [] {
      RunFinalState(p, Next(p, s, xs[0]), xs[1..]);
    }
  }

  /** Each call adds error*dt, so the integral grows by dt times the sum of the errors. */
  lemma {:induction false} FinalIntegral(p: Params, s: State, xs: seq<Sample>)
    ensures FinalState(p, s, xs).integral == s.integral + p.dt * SumErrors(xs)
    decreases |xs|
  {
    if xs != [] {
      var e, rest := Error(xs[0]), SumErrors(xs[1..]);
      FinalIntegral(p, Next(p, s, xs[0]), xs[1..]);
      ScaledSum(s.integral, e, rest, SumErrors(xs), p.dt);
    }
  }

  /** After n calls the integral has grown by dt times the sum of the n errors. */
  lemma RunIntegral(p: Params, s: State, xs: seq<Sample>)
    requires p.dt != 0.0
    ensures Run(p, s, xs).state.integral == s.integral + p.dt * SumErrors(xs)
  {
    RunFinalState(p, s, xs);
    FinalIntegral(p, s, xs);
  }

  /** The one piece of arithmetic the accumulation needs: dt distributes over a sum. */
  lemma ScaledSum(i: real, e: real, rest: real, sum: real, dt: real)
    requires sum == e + rest
    ensures i + e * dt + dt * rest == i + dt * sum
  {
  }

  /** From a fresh controller the integral is exactly dt times the sum of the errors seen. */
  lemma FreshRunIntegral(p: Params, xs: seq<Sample>)
    requires p.dt != 0.0
    ensures Run(p, Init, xs).state.integral == p.dt * SumErrors(xs)
  {
    RunIntegral(p, Init, xs);
  }

  /** After at least one call the remembered error is the error of the last sample. */
  lemma {:induction false} FinalPreError(p: Params, s: State, xs: seq<Sample>)
    requires xs != []
    ensures FinalState(p, s, xs).preError == Error(xs[|xs| - 1])
    decreases |xs|
  {
    if |xs| > 1 {
      FinalPreError(p, Next(p, s, xs[0]), xs[1..]);
      assert xs[1..][|xs[1..]| - 1] == xs[|xs| - 1];
    }
  }

  /** After at least one tick the previous error is the error of the last sample, clamped or not. */
  lemma RunPreError(p: Params, s: State, xs: seq<Sample>)
    requires p.dt != 0.0
    requires xs != []
    ensures Run(p, s, xs).state.preError == Error(xs[|xs| - 1])
  {
    RunFinalState(p, s, xs);
    FinalPreError(p, s, xs);
  }

  /** Feeding xs and then ys is feeding xs + ys: ticks compose. */
  lemma {:induction false} RunAppend(p: Params, s: State, xs: seq<Sample>, ys: seq<Sample>)
    requires p.dt != 0.0
    ensures Run(p, s, xs + ys).state == Run(p, Run(p, s, xs).state, ys).state
    ensures Run(p, s, xs + ys).outputs == Run(p, s, xs).outputs + Run(p, Run(p, s, xs).state, ys).outputs
    decreases |xs|
  {
    if xs == [] {
      assert xs + ys == ys;
    } else {
      var s1 := Step(p, s, xs[0]).state;
      assert (xs + ys)[0] == xs[0];
      assert (xs + ys)[1..] == xs[1..] + ys;
      RunAppend(p, s1, xs[1..], ys);
    }
  }

  /** The memory after a non-empty history is its last error and the grown integral. */
  lemma FinalStateSummary(p: Params, s: State, xs: seq<Sample>)
    requires xs != []
    ensures FinalState(p, s, xs) == State(Error(xs[|xs| - 1]), s.integral + p.dt * SumErrors(xs))
  {
    FinalIntegral(p, s, xs);
    FinalPreError(p, s, xs);
  }

  /** The same summary for the memory the ticks of Run leave behind. */
  lemma RunState(p: Params, s: State, xs: seq<Sample>)
    requires p.dt != 0.0
    requires xs != []
    ensures Run(p, s, xs).state == State(Error(xs[|xs| - 1]), s.integral + p.dt * SumErrors(xs))
  {
    RunFinalState(p, s, xs);
    FinalStateSummary(p, s, xs);
  }

  /** Determinism: the future outputs depend on a non-empty history only through
      its last error and its error sum, so two histories that agree on both
      produce the same outputs for every continuation zs. */
  lemma HistoryDeterminesFuture(p: Params, s: State, xs: seq<Sample>, ys: seq<Sample>, zs: seq<Sample>)
    requires p.dt != 0.0
    requires xs != [] && ys != []
    requires Error(xs[|xs| - 1]) == Error(ys[|ys| - 1])
    requires SumErrors(xs) == SumErrors(ys)
    ensures Run(p, s, xs + zs).state == Run(p, s, ys + zs).state
    ensures Run(p, s, xs + zs).outputs[|xs|..] == Run(p, s, ys + zs).outputs[|ys|..]
  {
    SameSummarySameState(p, s, xs, ys);
    RunFinalState(p, s, xs);
    RunFinalState(p, s, ys);
    RunSuffix(p, s, xs, zs);
    RunSuffix(p, s, ys, zs);
  }

  /** Two non-empty histories with the same last error and error sum leave the same memory. */
  lemma SameSummarySameState(p: Params, s: State, xs: seq<Sample>, ys: seq<Sample>)
    requires xs != [] && ys != []
    requires Error(xs[|xs| - 1]) == Error(ys[|ys| - 1])
    requires SumErrors(xs) == SumErrors(ys)
    ensures FinalState(p, s, xs) == FinalState(p, s, ys)
  {
    FinalStateSummary(p, s, xs);
    FinalStateSummary(p, s, ys);
  }

  /** What the continuation zs produces after xs depends only on the memory xs left behind. */
  lemma RunSuffix(p: Params, s: State, xs: seq<Sample>, zs: seq<Sample>)
    requires p.dt != 0.0
    ensures Run(p, s, xs + zs).state == Run(p, Run(p, s, xs).state, zs).state
    ensures Run(p, s, xs + zs).outputs[|xs|..] == Run(p, Run(p, s, xs).state, zs).outputs
  {
    RunAppend(p, s, xs, zs);
    var tx := Run(p, s, xs);
    var tz := Run(p, tx.state, zs);
    assert |tx.outputs| == |xs|;
    assert (tx.outputs + tz.outputs)[|xs|..] == tz.outputs;
  }

  /** On a fresh controller the derivative term is the error over dt. */
  lemma FirstCallDerivative(p: Params, e: real)
    requires p.dt != 0.0
    ensures DerivativeTerm(p, Init, e) == p.kd * e / p.dt
  {
  }

  /** Two calls in a row with the same error: the second derivative term is zero,
      the second integral term counts the error twice, and the second raw output
      differs from the first only by the integral growth and the lost derivative. */
  lemma RepeatedError(p: Params, s: State, x: Sample, y: Sample)
    requires p.dt != 0.0
    requires Error(x) == Error(y)
    ensures DerivativeTerm(p, Step(p, s, x).state, Error(y)) == 0.0
    ensures IntegralTerm(p, Step(p, s, x).state, Error(y)) == p.ki * (s.integral + 2.0 * Error(x) * p.dt)
    ensures s == Init ==> IntegralTerm(p, Step(p, s, x).state, Error(y)) == p.ki * 2.0 * Error(x) * p.dt
    ensures RawOutput(p, Step(p, s, x).state, Error(y))
         == RawOutput(p, s, Error(x)) - DerivativeTerm(p, s, Error(x)) + p.ki * Error(x) * p.dt
  {
  }
}
