# PID controller, modelled in Dafny

This project models the single-loop PID (proportional–integral–derivative)
controller of the repository. You construct a controller once with six
parameters: the sample interval `dt`, the output limits `max` and `min`, and
the gains `Kp`, `Kd` and `Ki`. Each call of `calculate(setpoint, pv)` then
does five things:

- it computes the error `setpoint - pv`;
- it adds `error * dt` to the integral;
- it forms the P, I and D terms;
- it clamps their sum, testing the upper bound first and the lower bound second;
- it stores the error as the previous error.

The model has three modules:

- `PidLaw` (`pid_law.dfy`) writes one tick as pure functions over `real`.
  `Step` gives the new memory and the output. `Run` folds `Step` over a
  sequence of samples. The lemmas cover clamping, integral accumulation, the
  previous error, how ticks compose, and determinism.
- `PidController` (`pid.dfy`) holds two classes. `PidImpl` keeps the six
  parameters as `const` fields, plus two mutable fields, `preError` and
  `integral`. Its `Calculate` method updates those two fields in place,
  statement by statement as the source does. Each method's contract ties the
  new state and the result to `PidLaw.Step`. `Pid` is the public wrapper: it
  owns one `PidImpl` and forwards construction and `Calculate` to it.
- `PidScenarios` (`pid_tests.dfy`) drives the two unit-test scenarios through
  `Pid`. It also states both of them on `Run`, together with a third
  scenario of two ticks with the same error.

`double` becomes `real`, so every identity holds exactly. The source divides
by `dt` without checking it. The model therefore requires `dt != 0` of every
member that uses the derivative term, and of no other member. A sample
interval is naturally positive, but the code needs only `dt != 0`, so the
model asks for no more. The constructor validates nothing, neither `dt` nor
`min <= max`, and the model does not either. When `min > max`, the
upper-first comparison stays as written; `Clamp`'s contract covers every
branch.

## Model

| member | source | states |
|---|---|---|
| PidLaw.Clamp | libs/pid/PIDImpl.cpp:186-190 | above `max` the result is exactly `max` (the upper bound is tested first); otherwise below `min` it is exactly `min`; inside `[min, max]` it is `raw` unmodified; whenever `min <= max` the result lies in `[min, max]` |
| PidLaw.ClampIsNearest | libs/pid/PIDImpl.cpp:160-161 | with `min <= max`, the clamped value is the point of `[min, max]` closest to `raw`: no point of the range is nearer |
| PidLaw.ClampIdempotent | libs/pid/PIDImpl.cpp:187-190 | with `min <= max`, clamping a value that is already clamped leaves it unchanged (with inverted limits it need not: `Clamp(5, 1, 0)` is 0 but `Clamp(0, 1, 0)` is 1) |
| PidLaw.RawOutput | libs/pid/PIDImpl.cpp:172-184 | the unclamped sum of the P, I and D terms, taken over the memory before the call; when the error equals the remembered error, the D part is zero and the sum is P + I alone |
| PidLaw.RawOutputReadsMemory | libs/pid/PIDImpl.cpp:176-181 | within one call the I term reads the integral already updated by this call (`Ki * Next(...).integral`), while the D term reads the previous error from before the call |
| PidLaw.Next | libs/pid/PIDImpl.cpp:176-193 | the memory update of one call: the integral grows by exactly `error*dt` and the remembered error becomes this call's error; the gains, the limits and the output play no part |
| PidLaw.Step | libs/pid/PIDImpl.cpp:165-196 | one call: the integral grows by exactly `error*dt`; the previous error becomes this call's error whether or not clamping happened; the output is the clamped raw sum; it lies in `[min, max]` when `min <= max` |
| PidLaw.Run | libs/pid/PIDImpl.cpp:165-196 | successive calls give one output per sample, and every output lies in `[min, max]` when `min <= max` |
| PidLaw.RunFinalState | libs/pid/PIDImpl.cpp:165-196 | the memory left by successive calls equals the memory-only fold `FinalState`, so clamping and the outputs never feed back into the memory |
| PidLaw.FinalIntegral | libs/pid/PIDImpl.cpp:175-176 | in the memory-only fold, the integral grows by `dt` times the sum of the errors, for any `dt` |
| PidLaw.FinalPreError | libs/pid/PIDImpl.cpp:192-193 | in the memory-only fold, after at least one call the remembered error is the last sample's error |
| PidLaw.FinalStateSummary | libs/pid/PIDImpl.cpp:176-193 | the memory after a non-empty history is exactly (last error, starting integral + `dt` times the error sum) |
| PidLaw.SameSummarySameState | libs/pid/PIDImpl.cpp:176-193 | two non-empty histories with the same last error and the same error sum leave the same memory |
| PidLaw.RunIntegral | libs/pid/PIDImpl.cpp:175-177 | after n calls the integral equals its starting value plus `dt` times the sum of the n errors |
| PidLaw.FreshRunIntegral | libs/pid/PIDImpl.cpp:134-135 | from a freshly constructed controller, the integral after n calls is exactly `dt` times the sum of the n errors |
| PidLaw.RunPreError | libs/pid/PIDImpl.cpp:192-193 | after at least one call, the previous error is the error of the last call |
| PidLaw.RunAppend | libs/pid/PIDImpl.cpp:165-196 | feeding `xs` and then `ys` gives the same final memory and the same outputs, concatenated, as feeding `xs + ys` |
| PidLaw.RunState | libs/pid/PIDImpl.cpp:176-193 | after a non-empty history the memory is exactly (last error, starting integral + `dt` times the error sum) |
| PidLaw.RunSuffix | libs/pid/PIDImpl.cpp:165-196 | the outputs a continuation produces depend only on the memory the earlier calls left behind |
| PidLaw.HistoryDeterminesFuture | libs/pid/PIDImpl.cpp:165-196 | determinism: two histories with the same last error and the same error sum lead to identical memory and identical outputs for every continuation |
| PidLaw.FirstCallDerivative | libs/pid/PIDImpl.cpp:179-181 | on a freshly constructed controller the derivative term is `Kd * e / dt` |
| PidLaw.RepeatedError | libs/pid/PIDImpl.cpp:175-181 | for two calls in a row with the same error `e`: the second derivative term is zero; the second integral term is `Ki*(integral0 + 2*e*dt)`, which is `Ki*2*e*dt` from fresh; the second raw output is the first minus the first derivative term plus `Ki*e*dt` |
| PidController.PidImpl.constructor | libs/pid/PIDImpl.cpp:134-140 | the six parameters are stored unchanged; `preError` and `integral` start at 0 |
| PidController.PidImpl.Calculate | libs/pid/PIDImpl.cpp:165-196 | in place: `integral` grows by `(setpoint - pv)*dt` and `preError` becomes `setpoint - pv`; the return value is the clamped raw sum over the old memory; it lies in `[min, max]` when `min <= max`; the new memory and the output are exactly what `Step` gives; the parameters are constant |
| PidController.Pid.constructor | libs/pid/PIDImpl.cpp:86-90 | creates a fresh implementation object with the same six parameters and zero memory |
| PidController.Pid.Calculate | libs/pid/PIDImpl.cpp:103-107 | returns exactly what the implementation's calculation returns on the same memory, and updates that memory as `Step` says |
| PidScenarios.TestClamping | test/test.cpp:7-37 | with `dt=1, max=50, min=-50, Kp=10, Kd=5, Ki=1`, `calculate(100, 0)` returns 50 and then `calculate(-100, 0)` returns -50 |
| PidScenarios.TestCalculateOutput | test/test.cpp:42-65 | with `dt=1, max=100, min=-100, Kp=1, Kd=0.1, Ki=0.5`, `calculate(10, 0)` returns exactly 16 |
| PidScenarios.ClampingFirstTick | test/test.cpp:19-29 | the first call of the clamping test: the raw sum 1600 is above 50, so it returns 50 and leaves the memory at (100, 100) |
| PidScenarios.ClampingSecondTick | test/test.cpp:32-36 | the second call of the clamping test, from the memory (100, 100): the raw sum is -2000, below -50, so it returns -50 |
| PidScenarios.CalculateOutputScenario | test/test.cpp:42-65 | the output test on the pure fold: one call with error 10 gives the outputs `[16]` |
| PidScenarios.ClampingScenario | test/test.cpp:7-37 | the clamping test on the pure fold: the outputs are `[50, -50]` |
| PidScenarios.RepeatedFirstTick | libs/pid/PIDImpl.cpp:170-190 | the first call of the repeated-error scenario returns 0.5 + 0.005 + 25 = 25.505 and leaves the memory at (5, 0.5) |
| PidScenarios.RepeatedSecondTick | libs/pid/PIDImpl.cpp:170-190 | the second call, from the memory (5, 0.5), returns 0.5 + 0.01 + 0 = 0.51 |
| PidScenarios.RepeatedErrorScenario | libs/pid/PIDImpl.cpp:175-181 | with `dt=0.1, Kp=0.1, Ki=0.01, Kd=0.5` and the error 5 twice, the outputs are 25.505 and then 0.51: the derivative term vanishes and only the integral term grows |

## Left out

- IEEE-754 `double` arithmetic: rounding, NaN and infinity. All arithmetic is over exact `real`. So a NaN that slips past both comparisons of the clamp is not modelled, and the test's `ASSERT_NEAR` tolerance of 0.01 becomes exact equality.
- Division by `dt`: the source divides without checking. Every member that uses the derivative term requires `dt != 0`, so the behaviour of a zero `dt` is not modelled.
- Heap ownership inside the wrapper: `new PIDImpl`, `delete pimpl` and both destructors only manage memory and have no observable behaviour. `Pid` holds its `PidImpl` as a constant reference instead.
- `libs/pid/pid.hpp` holds only declarations and doc comments and no logic. The declared interface is modelled through the two classes.
- `app/main.cpp` builds one controller and prints one value with `std::cout`. That is I/O, and it is not part of this model.
- The Google Test harness in `test/test.cpp` is not modelled as code. Only its parameters and expected values are reused, in `PidScenarios`.
