/** The two scenarios of the repository's unit tests, driven through the public
    Pid wrapper, and the same scenarios stated on the pure fold. */
module PidScenarios {
  import opened PidLaw
  import opened PidController

  /** Large gains saturate the output at max, then, with the error reversed, at min. */
  method TestClamping() returns (first: real, second: real)
    ensures first == 50.0 && second == -50.0
  {
    var pid := new Pid(1.0, 50.0, -50.0, 10.0, 5.0, 1.0);
    first := pid.Calculate(100.0, 0.0);
    ClampingFirstTick();
    second := pid.Calculate(-100.0, 0.0);
    ClampingSecondTick();
  }

  /** With an in-range raw sum the output is P + I + D = 10 + 5 + 1. */
  method TestCalculateOutput() returns (output: real)
    ensures output == 16.0
  {
    var pid := new Pid(1.0, 100.0, -100.0, 1.0, 0.1, 0.5);
    output := pid.Calculate(10.0, 0.0);
  }

  /** Two ticks on the fold are the first tick followed by the second from its memory. */
  lemma RunTwice(p: Params, s: State, x1: Sample, x2: Sample)
    requires p.dt != 0.0
    ensures Run(p, s, [x1, x2]).outputs == [Step(p, s, x1).output, Step(p, Step(p, s, x1).state, x2).output]
  {
    assert [x1, x2][1..] == [x2];
    assert [x2][1..] == [];
  }

  const ClampingParams: Params := Params(1.0, 50.0, -50.0, 10.0, 5.0, 1.0)

  /** First tick of the clamping test: raw 10*100 + 1*100 + 5*100 = 1600 > 50. */
  lemma ClampingFirstTick()
    ensures Step(ClampingParams, Init, Sample(100.0, 0.0)) == Tick(State(100.0, 100.0), 50.0)
  {
    assert RawOutput(ClampingParams, Init, 100.0) == 1600.0;
  }

  /** Second tick of the clamping test: raw -1000 + 0 - 1000 = -2000 < -50. */
  lemma ClampingSecondTick()
    ensures Step(ClampingParams, State(100.0, 100.0), Sample(-100.0, 0.0)).output == -50.0
  {
    assert RawOutput(ClampingParams, State(100.0, 100.0), -100.0) == -2000.0;
  }

  /** The clamping scenario on the fold: the output saturates at max, then at min. */
  lemma ClampingScenario()
    ensures Run(ClampingParams, Init, [Sample(100.0, 0.0), Sample(-100.0, 0.0)]).outputs == [50.0, -50.0]
  {
    RunTwice(ClampingParams, Init, Sample(100.0, 0.0), Sample(-100.0, 0.0));
    ClampingFirstTick();
    ClampingSecondTick();
  }

  const OutputParams: Params := Params(1.0, 100.0, -100.0, 1.0, 0.1, 0.5)

  /** The output test on the fold: one tick with error 10 gives 10 + 5 + 1 = 16, inside the range. */
  lemma CalculateOutputScenario()
    ensures Run(OutputParams, Init, [Sample(10.0, 0.0)]).outputs == [16.0]
  {
    assert RawOutput(OutputParams, Init, 10.0) == 16.0;
    assert [Sample(10.0, 0.0)][1..] == [];
  }

  const RepeatedParams: Params := Params(0.1, 100.0, -100.0, 0.1, 0.5, 0.01)

  /** Two ticks with the same error (setpoint 10, process value 5): the first
      output is 0.5 + 0.005 + 25, the second 0.5 + 0.01 + 0, so the second
      differs from the first only by the grown integral term and the lost derivative. */
  lemma RepeatedErrorScenario()
    ensures Run(RepeatedParams, Init, [Sample(10.0, 5.0), Sample(10.0, 5.0)]).outputs == [25.505, 0.51]
  {
    RunTwice(RepeatedParams, Init, Sample(10.0, 5.0), Sample(10.0, 5.0));
    RepeatedFirstTick();
    RepeatedSecondTick();
  }

  /** First tick of the repeated-error scenario: 0.5 + 0.005 + 25. */
  lemma RepeatedFirstTick()
    ensures Step(RepeatedParams, Init, Sample(10.0, 5.0)) == Tick(State(5.0, 0.5), 25.505)
  {
    assert RawOutput(RepeatedParams, Init, 5.0) == 25.505;
  }

  /** Second tick of the repeated-error scenario: 0.5 + 0.01 + 0. */
  lemma RepeatedSecondTick()
    ensures Step(RepeatedParams, State(5.0, 0.5), Sample(10.0, 5.0)).output == 0.51
  {
    assert RawOutput(RepeatedParams, State(5.0, 0.5), 5.0) == 0.51;
  }
}
