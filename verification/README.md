# DspFiltersNet in Dafny

This project models the core of DspFiltersNet, a C# library that has two halves.

- **Design.** It designs IIR digital filters (Butterworth, Bessel, Chebyshev I and II, Elliptic). Each family builds an analog low-pass prototype as zeros, poles and gain (`Zpk`). `FilterTools` then does three things:
  - moves the prototype to the requested low-pass, high-pass, band-pass or band-stop shape;
  - maps it to the z-plane with the bilinear transform;
  - expands it into transfer-function coefficients `b` and `a`.
- **Running.** It runs filters over a stream of samples. `FrequencyFilterInstance` evaluates the direct-form-I difference equation over two shift registers. `MovingAverageInstance` keeps a bounded queue and a running sum. Both share `FilterInstanceBase.ProcessSamples`.

Modules follow the source files:

| module | file | models |
|---|---|---|
| `Complexes` | complex.dfy | `System.Numerics.Complex` as a pair of exact reals, with exact division and ring laws |
| `Numerics` | numerics.dfy | the floating-point library as a record of uninterpreted functions (`MathLib`), division that may hit zero (`Quot`, `CQuot`), `Math.PI` |
| `FilterTypes` | types.dfy | `Zpk`, `TransferFunction`, the exceptions as a `Result`, the filter definition records |
| `Polynomials` | polynomials.dfy | Horner evaluation and the convolution `Multiply`, with `FromRoots` (what `Zpk2Tf` builds) |
| `FilterTools` | filter_tools.dfy | `FilterTools.cs` |
| `Butterworth`, `Bessel`, `ChebyshevI`, `ChebyshevII`, `ChebyshevType1` | one file each | the prototypes and the `CalcZpk`/`CalcTransferFunction` wrappers |
| `EllipticFunctions`, `Elliptic` | elliptic_functions.dfy, elliptic.dfy | `Elliptic.cs`: the special-function helpers and their guards; the prototype |
| `FilterInstanceBase`, `FrequencyFilterInstance`, `MovingAverageInstance` | one file each | the runtime instances |

Modelling choices:

- **Doubles and library functions.**
  - A `double` is an exact `real`.
  - `Math.Sqrt`, `Pow`, `Exp`, `Log`, `Sin`, `Cos`, `Tan`, `Sinh`, `Cosh`, `Asin`, `Complex.Abs`, `Complex.Sqrt`, `Complex.Log` and `Complex.Pow` are fields of a `MathLib` value passed as a parameter. Nothing is assumed about them beyond what a contract states in its own requires.
  - A division whose divisor may be zero yields `MathLib.nonFinite`, an unconstrained stand-in for an infinity or NaN.
- **Samples.** A sample is a `Double`: `Finite(v)`, `NaN`, `PositiveInfinity` or `NegativeInfinity`.
- **Exceptions.** They become `Failure(e)` values. `e` carries the parameter name or message the code passes.
- **Instances.**
  - A running instance is an immutable state value.
  - `Process` maps a state and a sample to the next state and the output.
  - `Run` threads the state through a sequence of samples.
  - `ProcessSamples` and `FrequencyFilterInstance.ProcessInPlace` are array methods proved equal to that functional reading.

## Model

| member | source | states |
|---|---|---|
| FilterInstanceBase.CheckDouble | DspFiltersNet/FilterImplementations/FilterInstanceBase.cs:19-27 | false exactly for NaN, +infinity and -infinity; true for every finite value |
| FilterInstanceBase.SumFront | DspFiltersNet/FilterImplementations/MovingAverageInstance.cs:42-45 | removing the oldest value from a running sum leaves the sum of the remaining values |
| FilterInstanceBase.Run | DspFiltersNet/FilterImplementations/FilterInstanceBase.cs:7-15 | feeding samples one after the other yields exactly one output per sample |
| FilterInstanceBase.RunOutput | DspFiltersNet/FilterImplementations/FilterInstanceBase.cs:10-13 | output i is Process of sample i in the state the samples before i left, so no reset happens between or before samples |
| FilterInstanceBase.RunConcat | DspFiltersNet/FilterImplementations/FilterInstanceBase.cs:10-13 | processing xs ++ ys equals processing xs and then processing ys from the state xs left: outputs concatenate and the final state is the second one |
| FilterInstanceBase.ProcessSamples | DspFiltersNet/FilterImplementations/FilterInstanceBase.cs:7-15 | the array loop returns exactly the outputs and final state of processing the samples in order, starting from the given state |
| MovingAverageInstance.Create | DspFiltersNet/FilterImplementations/MovingAverageInstance.cs:11-21 | rejected with ArgumentOutOfRange("Width") exactly when width <= 1; otherwise the queue starts empty with sum 0 |
| MovingAverageInstance.GetCurrentCount | DspFiltersNet/FilterImplementations/MovingAverageInstance.cs:23-26 | the number of queued samples, which never exceeds the width |
| MovingAverageInstance.ResetCalculation | DspFiltersNet/FilterImplementations/MovingAverageInstance.cs:28-32 | the width is kept, the count becomes 0 and the sum 0 |
| MovingAverageInstance.Process | DspFiltersNet/FilterImplementations/MovingAverageInstance.cs:34-51 | a non-finite sample gives the reset state and NaN; a finite sample leaves the last `width` values of queue ++ [sample] queued and returns their mean; the result keeps count <= width and sum == sum of the queue |
| MovingAverageInstance.QueueAfterRun | DspFiltersNet/FilterImplementations/MovingAverageInstance.cs:42-48 | after any run of finite samples the queue holds the last `width` values of the old queue followed by the new samples, and the width is unchanged |
| MovingAverageInstance.QueueAfterRunWidth | DspFiltersNet/FilterImplementations/MovingAverageInstance.cs:7 | no run changes the width |
| MovingAverageInstance.MeanOfRecentSamples | DspFiltersNet/FilterImplementations/MovingAverageInstance.cs:42-50 | from an empty queue, output i of a run of finite samples is the mean of the last min(i + 1, width) samples |
| MovingAverageInstance.ResetThenProcess | DspFiltersNet/FilterImplementations/MovingAverageInstance.cs:28-50 | after ResetCalculation the next finite sample v comes back as v |
| MovingAverageInstance.NanRestart | DspFiltersNet/FilterImplementations/MovingAverageInstance.cs:36-40 | a non-finite sample inside a run gives NaN at its place, and the later samples give what a newly constructed instance of the same width would give |
| MovingAverageInstance.WidthThreeExample | DspFiltersNet.Tests/FilterImplementations/MovingAverageInstanceTests.cs:13-31 | width 3 and inputs 1, 2, 3, 4, 5 give 1, 1.5, 2, 3, 4 |
| FrequencyFilterInstance.Shift | DspFiltersNet/FilterImplementations/FrequencyFilterInstance.cs:78-83 | a shifted register keeps its length, its place i holds the old place i - 1 for i >= 1, and place 0 holds the new value |
| FrequencyFilterInstance.RecurrenceIgnoresNewestOutput | DspFiltersNet/FilterImplementations/FrequencyFilterInstance.cs:85-89 | the difference equation never reads y[0], so two output registers that agree from place 1 on give the same value |
| FrequencyFilterInstance.Initial | DspFiltersNet/FilterImplementations/FrequencyFilterInstance.cs:51-56 | the constructed instance holds b and a of the transfer function, two zeroed registers of length abs-a, and the reset flag set |
| FrequencyFilterInstance.ResetCalculation | DspFiltersNet/FilterImplementations/FrequencyFilterInstance.cs:59-62 | sets the flag; coefficients and register contents are unchanged |
| FrequencyFilterInstance.Process | DspFiltersNet/FilterImplementations/FrequencyFilterInstance.cs:64-94 | coefficients never change. A non-finite sample sets the flag, changes nothing else and returns NaN. For a finite sample: registers are first filled with the sample if the flag was set; the flag is cleared; x[0] is the sample; x[i] and y[i] are the previous x[i-1] and y[i-1]; y[0] is b[0]x[0] + sum over i >= 1 of (b[i]x[i] - a[i]y[i]); y[0] is returned |
| FrequencyFilterInstance.Create | DspFiltersNet/FilterImplementations/FrequencyFilterInstance.cs:14-57 | Butterworth, Bessel and Chebyshev II definitions dispatch to their design and propagate its exception (frequency error first, then order or ripple); a successful design yields the instance built from its transfer function; any other supported definition kind gives NotSupported; a built instance starts with zeroed registers and the flag set |
| FrequencyFilterInstance.OutputAfterReset | DspFiltersNet/FilterImplementations/FrequencyFilterInstance.cs:72-76 | after a reset the first sample sees both registers filled with itself |
| FrequencyFilterInstance.ConstantRecurrence | DspFiltersNet/FilterImplementations/FrequencyFilterInstance.cs:85-89 | over registers that all hold v, the difference equation is v * (sum of b - sum of a + a[0]) |
| FrequencyFilterInstance.DcResponseAfterReset | DspFiltersNet/FilterImplementations/FrequencyFilterInstance.cs:72-93 | the first sample v after a reset comes out as v * (sum of b[0..abs-a) - sum of a[1..]) |
| FrequencyFilterInstance.UnityDcGainAfterReset | DspFiltersNet.Tests/FilterImplementations/FrequencyFilterInstanceTests.cs:84-106 | with a[0] = 1 and unity DC gain (sums of b and a agree), the first sample after a reset comes back unchanged |
| FrequencyFilterInstance.ProcessInterchangeable | DspFiltersNet/FilterImplementations/FrequencyFilterInstance.cs:72-76 | while the flag is set the register contents do not matter: such states give the same output, and a finite sample makes them equal |
| FrequencyFilterInstance.RunInterchangeable | DspFiltersNet/FilterImplementations/FrequencyFilterInstance.cs:66-76 | such states give the same outputs on every run |
| FrequencyFilterInstance.RunKeepsCoefficients | DspFiltersNet/FilterImplementations/FrequencyFilterInstance.cs:9-10 | no run changes b or a |
| FrequencyFilterInstance.NanRestart | DspFiltersNet/FilterImplementations/FrequencyFilterInstance.cs:66-76 | a non-finite sample inside a run gives NaN at its place, and the later samples give what a newly constructed instance with the same coefficients would give |
| FrequencyFilterInstance.ProcessInPlace | DspFiltersNet/FilterImplementations/FrequencyFilterInstance.cs:64-94 | the array version (InitFilterMemory, the downward shift loop, the accumulation loop) returns the same state and output as Process |
| FrequencyFilterInstance.ProcessFinite | DspFiltersNet/FilterImplementations/FrequencyFilterInstance.cs:72-93 | the array steps for a finite sample agree with Process |
| FrequencyFilterInstance.InitFilterMemory | DspFiltersNet/FilterImplementations/FrequencyFilterInstance.cs:96-103 | both registers hold the value at every place |
| FrequencyFilterInstance.ShiftRegisters | DspFiltersNet/FilterImplementations/FrequencyFilterInstance.cs:78-82 | the loop from the top place down moves every value one place back; place 0 keeps its value |
| FrequencyFilterInstance.Accumulate | DspFiltersNet/FilterImplementations/FrequencyFilterInstance.cs:85-89 | the loop's sum is the difference equation over the registers |
| FilterTools.FrequencyVerification | DspFiltersNet/FilterImplementations/FilterTools.cs:15-47 | passes exactly when every cutoff the type uses is in (0, fs/4] and a band has low < high. Low-pass checks only the low cutoff and high-pass only the high one. Failures are ArgumentOutOfRange naming freqHighCutOff exactly when the high cutoff is the first to fail, otherwise freqLowCutOff |
| FilterTools.NonZerosMembers | DspFiltersNet/FilterImplementations/FilterTools.cs:181-190 | the roots the band conversions expand are exactly the prototype roots of non-zero magnitude |
| FilterTools.InvertRoots | DspFiltersNet/FilterImplementations/FilterTools.cs:140-155 | zero roots stay, every other root r becomes q with q * r = wc |
| FilterTools.InvertRootsInvolution | DspFiltersNet/FilterImplementations/FilterTools.cs:140-155 | inverting twice with the same non-zero wc gives the roots back |
| FilterTools.Convert2LowPass | DspFiltersNet/FilterImplementations/FilterTools.cs:104-124 | counts are kept, every zero and pole is multiplied by wc, and the gain is K * wc^(abs-P - abs-Z) |
| FilterTools.Convert2HighPass | DspFiltersNet/FilterImplementations/FilterTools.cs:130-163 | the poles are inverted; the zeros are inverted and then padded with origin zeros up to the pole count; the gain is K * Re(prod -z) / Re(prod -p) of the prototype |
| FilterTools.NegProductIsValueAtZero | DspFiltersNet/FilterImplementations/FilterTools.cs:266-281 | the product of -r is the value at s = 0 of the product of (s - r) |
| FilterTools.GainCorrectionIsDcRatio | DspFiltersNet/FilterImplementations/FilterTools.cs:266-281 | the high-pass and band-stop gain is K times the ratio of the real parts of the prototype's numerator and denominator at s = 0 |
| FilterTools.PairExpand | DspFiltersNet/FilterImplementations/FilterTools.cs:181-201 | each non-zero root, in order, becomes first + second and then first - second; zero roots contribute nothing |
| FilterTools.PairSum | DspFiltersNet/FilterImplementations/FilterTools.cs:185-188 | the two roots of a pair add up to twice their shared first term |
| FilterTools.BandPassPoles | DspFiltersNet/FilterImplementations/FilterTools.cs:181-190 | two poles per non-zero prototype pole p, adding up to bw * p |
| FilterTools.BandPassZeros | DspFiltersNet/FilterImplementations/FilterTools.cs:193-208 | two zeros per non-zero prototype zero z, adding up to bw * z, then abs-P - abs-Z origin zeros |
| FilterTools.NotchZeros | DspFiltersNet/FilterImplementations/FilterTools.cs:252-256 | n pairs (0, wc), (0, -wc) |
| FilterTools.BandStopPoles | DspFiltersNet/FilterImplementations/FilterTools.cs:228-237 | two poles per non-zero prototype pole p, whose sum times p is bw |
| FilterTools.BandStopZeros | DspFiltersNet/FilterImplementations/FilterTools.cs:240-256 | two zeros per non-zero prototype zero whose sum times that zero is bw, then the pair (0, wc), (0, -wc) for each of the abs-P - abs-Z missing zeros |
| FilterTools.BilinearInverse | DspFiltersNet/FilterImplementations/FilterTools.cs:290-296 | z = (2 + s) / (2 - s) is undone by s = 2 (z - 1) / (z + 1) wherever 2 - s is not zero |
| FilterTools.S2Z | DspFiltersNet/FilterImplementations/FilterTools.cs:304-327 | counts and order are kept, and every zero and pole is mapped by the bilinear map |
| FilterTools.GainAfterZerosProduct | DspFiltersNet/FilterImplementations/FilterTools.cs:308-315 | dividing by each abs(2 - z) in turn is dividing by their product |
| FilterTools.GainAfterPolesProduct | DspFiltersNet/FilterImplementations/FilterTools.cs:317-324 | multiplying by each abs(2 - p) in turn is multiplying by their product |
| FilterTools.GainAfterZerosInverse | DspFiltersNet/FilterImplementations/FilterTools.cs:308-324 | dividing by the zero factors and multiplying by the same factors gives the gain back |
| FilterTools.S2ZGainBalance | DspFiltersNet/FilterImplementations/FilterTools.cs:304-327 | the new gain times every zero factor abs(2 - z) equals the old gain times every pole factor abs(2 - p) |
| FilterTools.Zpk2Tf | DspFiltersNet/FilterImplementations/FilterTools.cs:334-360 | a = real parts of the monic polynomial with roots P, with length abs-P + 1 and a[0] = 1; b = real parts of K times the monic polynomial with roots Z, with length abs-Z + 1 and b[0] = K |
| FilterTools.NegProductIsConstantTerm | DspFiltersNet/FilterImplementations/FilterTools.cs:334-347 | the constant coefficient Zpk2Tf builds is the product of -r |
| FilterTools.PadZeros | DspFiltersNet/FilterImplementations/FilterTools.cs:83-88 | the zeros are kept as a prefix and padded with -1 up to n; a longer list is left as it is |
| FilterTools.Digitize | DspFiltersNet/FilterImplementations/FilterTools.cs:79-92 | poles and zeros are mapped in place, the zeros padded with -1 up to n, and the gain is preBltGain * (preBltGain / S2Z gain) |
| FilterTools.OverallGainBalance | DspFiltersNet/FilterImplementations/FilterTools.cs:90 | the overall gain times the S2Z gain is the square of the analog gain, or the non-finite stand-in when the S2Z gain is zero |
| FilterTools.CalcFilterSettings | DspFiltersNet/FilterImplementations/FilterTools.cs:49-95 | band types double the order; the converted filter's zeros and poles are mapped and padded with -1; the gain is as Digitize states; the transfer function is Zpk2Tf of the returned Zpk |
| FilterTools.PoleCountBound | DspFiltersNet/FilterImplementations/FilterTools.cs:59-77 | no conversion yields more poles than the prototype has, doubled for the band types |
| FilterTools.CoefficientCounts | DspFiltersNet/FilterImplementations/FilterTools.cs:83-93 | with one prototype pole per order, 1 <= abs-a <= abs-b, which is the shape FrequencyFilterInstance needs |
| FilterTools.Design | DspFiltersNet/FilterImplementations/Butterworth.cs:53-60 | the frequency check runs first and its exception wins; then a prototype exception propagates; otherwise the result is CalcFilterSettings |
| Polynomials.Multiply | DspFiltersNet/FilterImplementations/FilterTools.cs:362-379 | the product has abs-a + abs-b - 1 coefficients |
| Polynomials.MultiplyLinear | DspFiltersNet/FilterImplementations/FilterTools.cs:362-379 | convolving with [1, -r] is shifting up one place minus r times the coefficients |
| Polynomials.FromRoots | DspFiltersNet/FilterImplementations/FilterTools.cs:336-347 | one more coefficient than roots, the first being 1 |
| Polynomials.FromRootsValue | DspFiltersNet/FilterImplementations/FilterTools.cs:336-347 | the polynomial built by repeated convolution evaluates to the product of (x - r) |
| Polynomials.FromRootsVanishes | DspFiltersNet/FilterImplementations/FilterTools.cs:336-347 | every root in the list is a root of the polynomial built |
| Polynomials.ScaleAll | DspFiltersNet/FilterImplementations/FilterTools.cs:350-353 | every numerator coefficient is multiplied by the gain |
| Polynomials.RealParts | DspFiltersNet/FilterImplementations/FilterTools.cs:355-356 | the coefficients keep only their real parts |
| Polynomials.HornerIsPowerSum | DspFiltersNet/FilterImplementations/Bessel.cs:167-177 | Horner's fold equals the sum of c[i] * x^(abs-c - 1 - i) |
| Butterworth.PolePairs | DspFiltersNet/FilterImplementations/Butterworth.cs:24-31 | pole 2k is (-sin theta_k, cos theta_k) with theta_k = (2k + 1) pi / (2n), and pole 2k + 1 is its conjugate |
| Butterworth.PrototypeAnalogLowPass | DspFiltersNet/FilterImplementations/Butterworth.cs:15-38 | an order outside 1..16 gives ArgumentOutOfRange("filterOrder"); otherwise there are no zeros, gain 1, exactly `order` poles in conjugate pairs, and -1 last for an odd order |
| Butterworth.PrototypeConjugateClosed | DspFiltersNet/FilterImplementations/Butterworth.cs:22-35 | the conjugate of every pole is a pole |
| Butterworth.Calc | DspFiltersNet/FilterImplementations/Butterworth.cs:53-82 | a frequency error wins over an order error; success exactly for accepted frequencies and order 1..16; tf = Zpk2Tf(zpk) with 1 <= abs-a <= abs-b |
| Bessel.ComputeFactorial | DspFiltersNet/FilterImplementations/Bessel.cs:100-108 | the loop's product 2 * 3 * ... * n is n!, and 1 for every n <= 1 |
| Bessel.Denominator | DspFiltersNet/FilterImplementations/Bessel.cs:92 | the integer divisor 2^(n-i) i! (n-i)! is at least 1 |
| Bessel.BesselPoly | DspFiltersNet/FilterImplementations/Bessel.cs:86-98 | n + 1 coefficients, coefficient i being (2n - i)! / (2^(n - i) i! (n - i)!) in integer division |
| Bessel.BesselPolyMonic | DspFiltersNet/FilterImplementations/Bessel.cs:89-94 | the last coefficient is 1 |
| Bessel.BesselPolyThree | DspFiltersNet/FilterImplementations/Bessel.cs:86-98 | order 3 gives 15, 15, 6, 1 |
| Bessel.Reverse | DspFiltersNet/FilterImplementations/Bessel.cs:74 | the list read back to front |
| Bessel.ReversedBesselPolyMonic | DspFiltersNet/FilterImplementations/Bessel.cs:72-74 | the coefficients handed to the root finder start with 1 |
| Bessel.EvaluatePolynomial | DspFiltersNet/FilterImplementations/Bessel.cs:167-177 | the Horner loop computes the sum of c[i] * x^(abs-c - 1 - i), and 0 for no coefficients |
| Bessel.ArraysAreEqual | DspFiltersNet/FilterImplementations/Bessel.cs:182-193 | true exactly when abs(a[i] - b[i]) <= tol at every index of a |
| Bessel.DiffProductZero | DspFiltersNet/FilterImplementations/Bessel.cs:140-148 | the Durand-Kerner divisor vanishes exactly when an iterate repeats |
| Bessel.StepFixesExactlyRoots | DspFiltersNet/FilterImplementations/Bessel.cs:138-151 | with distinct iterates, a sweep leaves x[i] in place exactly when x[i] is a root |
| Bessel.StopSweep | DspFiltersNet/FilterImplementations/Bessel.cs:135-159 | the loop stops at the first settled sweep, or at sweep 5001 when none settles |
| Bessel.FoundRoots | DspFiltersNet/FilterImplementations/Bessel.cs:114-162 | one root fewer than coefficients |
| Bessel.PolynomialRoots | DspFiltersNet/FilterImplementations/Bessel.cs:114-162 | no coefficients gives an overflow and one coefficient an index error; otherwise the roots the iteration stops at |
| Bessel.StartingRoots | DspFiltersNet/FilterImplementations/Bessel.cs:127-133 | the start values are 1, z, z^2, ... with z = 0.4 + 0.9i |
| Bessel.Sweeps | DspFiltersNet/FilterImplementations/Bessel.cs:135-159 | the sweep loop returns the iterate the stopping rule selects |
| Bessel.FoundRootsStop | DspFiltersNet/FilterImplementations/Bessel.cs:119-159 | the result is the iterate after the first settled sweep, within tolerance 1e-8, or after sweep 5001 |
| Bessel.GetPoles | DspFiltersNet/FilterImplementations/Bessel.cs:70-84 | exactly `order` poles, each a root of the reversed polynomial times 1 / a[0]^(1/order); the loop yields the list `Bessel.Poles` describes |
| Bessel.PrototypeAnalogLowPass | DspFiltersNet/FilterImplementations/Bessel.cs:15-24 | an order outside 1..16 gives ArgumentOutOfRange("filterOrder"); otherwise no zeros, gain 1 and GetPoles; the result is the value `Bessel.Prototype` |
| Bessel.Calc | DspFiltersNet/FilterImplementations/Bessel.cs:39-68 | a frequency error wins over an order error; success exactly for accepted frequencies and order 1..16; tf = Zpk2Tf(zpk) with 1 <= abs-a <= abs-b; the result is the shared design pipeline applied to the Bessel prototype |
| ChebyshevI.Points | DspFiltersNet/FilterImplementations/ChebyshevI.cs:30-37 | point k is (-sinh mu sin theta_k, cosh mu cos theta_k) with theta_k = pi (2k - 1) / (2n), for k = 1..count |
| ChebyshevI.PrototypeAnalogLowPass | DspFiltersNet/FilterImplementations/ChebyshevI.cs:15-56 | an order outside 1..16 is rejected first, then a ripple <= 0. Otherwise: no zeros; exactly `order` poles on the ellipse; gain abs(prod -p) for an odd order and abs(prod -p) / sqrt(1 + eps^2) for an even one |
| ChebyshevI.OddGainIsDcMagnitude | DspFiltersNet/FilterImplementations/ChebyshevI.cs:39-49 | for an odd order the gain is the magnitude of the denominator at s = 0 |
| ChebyshevII.ZeroPairs | DspFiltersNet/FilterImplementations/ChebyshevII.cs:32-38 | zero pairs (0, 1/cos theta_k) and (0, -1/cos theta_k), adjacent |
| ChebyshevII.Reciprocals | DspFiltersNet/FilterImplementations/ChebyshevII.cs:40-49 | every pole is One / s of its ellipse point |
| ChebyshevII.PrototypeAnalogLowPass | DspFiltersNet/FilterImplementations/ChebyshevII.cs:15-67 | an order outside 1..14 is rejected first, then a ripple <= 0. Otherwise: 2 * (n / 2) zeros in conjugate pairs; exactly n poles; gain is the product of abs(p) over the product of abs(z) |
| ChebyshevII.PolesAreReciprocals | DspFiltersNet/FilterImplementations/ChebyshevII.cs:40-49 | each pole times its non-zero ellipse point is 1 |
| ChebyshevII.MagnitudeGain | DspFiltersNet/FilterImplementations/ChebyshevII.cs:51-64 | the gain times the zero magnitudes' product is the pole magnitudes' product |
| ChebyshevII.OrderOneGain | DspFiltersNet.Tests/FilterImplementations/ChebyshevIITests.cs:24-30 | order 1 has no zeros and gain abs(p) of its one pole |
| ChebyshevII.ZerosConjugateClosed | DspFiltersNet/FilterImplementations/ChebyshevII.cs:32-38 | the zeros are closed under conjugation |
| ChebyshevII.Calc | DspFiltersNet/FilterImplementations/ChebyshevII.cs:83-113 | errors come in the order frequency, then order, then ripple; success exactly when all pass; tf = Zpk2Tf(zpk) with 1 <= abs-a <= abs-b |
| ChebyshevType1.PrototypeAnalogLowPass | DspFiltersNet/FilterImplementations/Chebyshev_Type1.cs:14-47 | an order outside 1..14 is rejected first, then a ripple <= 0 (named rippleDb). Otherwise: exactly `order` ellipse poles and a gain always divided by sqrt(1 + eps^2) |
| ChebyshevType1.AgreesWithChebyshevI | DspFiltersNet/FilterImplementations/Chebyshev_Type1.cs:38-44 | same poles as ChebyshevI; same gain for an even order; for an odd order the extra factor 1 / sqrt(1 + eps^2) |
| ChebyshevType1.NarrowerOrderRange | DspFiltersNet/FilterImplementations/Chebyshev_Type1.cs:16-19 | whatever it accepts ChebyshevI accepts; orders 15 and 16 are accepted only by ChebyshevI |
| Elliptic.IndexList | DspFiltersNet/FilterImplementations/Elliptic.cs:96-101 | ceil(n / 2) indices |
| Elliptic.IndexListMembers | DspFiltersNet/FilterImplementations/Elliptic.cs:96-101 | the indices are exactly the integers in [0, n) whose parity differs from n's |
| Elliptic.Significant | DspFiltersNet/FilterImplementations/Elliptic.cs:107 | exactly the sn values whose magnitude exceeds 1e-16 |
| Elliptic.UpperZeros | DspFiltersNet/FilterImplementations/Elliptic.cs:109 | one zero (0, 1 / (sqrt(m) sn)) per significant sn |
| Elliptic.WithConjugates | DspFiltersNet/FilterImplementations/Elliptic.cs:112-113 | the list followed by the conjugates of its entries |
| Elliptic.WithConjugatesClosed | DspFiltersNet/FilterImplementations/Elliptic.cs:112-113 | such a list is closed under conjugation |
| Elliptic.BasePoles | DspFiltersNet/FilterImplementations/Elliptic.cs:122-128 | one pole per index, the formula applied to its Jacobi values |
| Elliptic.Oscillating | DspFiltersNet/FilterImplementations/Elliptic.cs:133-135 | exactly the poles whose imaginary part exceeds the threshold in magnitude |
| Elliptic.CompletePoles | DspFiltersNet/FilterImplementations/Elliptic.cs:130-143 | an even order appends every conjugate; an odd order appends the conjugates of the oscillating poles |
| Elliptic.OddPolesComplete | DspFiltersNet/FilterImplementations/Elliptic.cs:130-139 | for an odd order every pole off the real axis (beyond the threshold) has its conjugate in the list |
| Elliptic.GainStructure | DspFiltersNet/FilterImplementations/Elliptic.cs:145-162 | the gain is Re(q) with q * prod(-z) = prod(-p); for an even order the gain is additionally divided by sqrt(1 + eps^2) |
| Elliptic.ModuliOf | DspFiltersNet/FilterImplementations/Elliptic.cs:81-94 | ck1^2 = 0 gives Argument("Cannot design filter with given rp and rs"); on success eps^2 = 10^(Rp/10) - 1 and the modulus lies in [0, 1] |
| Elliptic.ZerosOf | DspFiltersNet/FilterImplementations/Elliptic.cs:106-113 | an even number of purely imaginary zeros, at most two per index, the second half conjugating the first |
| Elliptic.PolesOf | DspFiltersNet/FilterImplementations/Elliptic.cs:115-143 | fails exactly as ArcJacSc1 does; otherwise one base pole per index, completed with conjugates |
| Elliptic.HigherOrder | DspFiltersNet/FilterImplementations/Elliptic.cs:81-165 | the zero and pole structure of ZerosOf and PolesOf, and the gain of GainStructure over prod(-p) and prod(-z) |
| Elliptic.PrototypeAnalogLowPass | DspFiltersNet/FilterImplementations/Elliptic.cs:58-165 | errors in the order: filter order outside 1..16, then Rp <= 0, then Rs <= Rp. Order 1 gives no zeros, the single real pole p and gain -p. Higher orders are HigherOrder. Every failure is one of the exceptions the code throws |
| Elliptic.ConjugateSymmetry | DspFiltersNet/FilterImplementations/Elliptic.cs:106-143 | whenever the prototype succeeds, its zeros are closed under conjugation, and for an even order there are exactly `order` poles, also closed under conjugation |
| Elliptic.FirstOrderUnitDcGain | DspFiltersNet/FilterImplementations/Elliptic.cs:75-79 | order 1 is k / (s - p) with k = -p, so its gain at DC is 1 |
| Elliptic.Calc | DspFiltersNet/FilterImplementations/Elliptic.cs:182-213 | errors in the order frequency, filter order, Rp, Rs; tf = Zpk2Tf(zpk) |
| EllipticFunctions.Pow10Minus1FirstOrder | DspFiltersNet/FilterImplementations/Elliptic.cs:215-229 | the corrected series branch is within (ln(10) x)^2 of ln(10) x, as 10^x - 1 must be |
| EllipticFunctions.Pow10Minus1Agreement | DspFiltersNet/FilterImplementations/Elliptic.cs:215-229 | the corrected and the as-written helper agree whenever abs(ln(10) x) >= 1e-5; in the series branch they differ by the series at ln(10) x minus the series at x |
| EllipticFunctions.Pow10Minus1AsWrittenMissesFirstOrder | DspFiltersNet/FilterImplementations/Elliptic.cs:220-224 | the series as written, at x = 1e-6, is farther than that from ln(10) x |
| EllipticFunctions.EllipK | DspFiltersNet/FilterImplementations/Elliptic.cs:232-256 | fails with ArgumentOutOfRange("m") exactly when m is outside [0, 1] |
| EllipticFunctions.EllipKAtZero | DspFiltersNet/FilterImplementations/Elliptic.cs:239-255 | K(0) = pi / 2 |
| EllipticFunctions.EllipDeg | DspFiltersNet/FilterImplementations/Elliptic.cs:264-298 | fails with ArgumentOutOfRange("m1") exactly when m1 is outside (0, 1) |
| EllipticFunctions.EllipDegIntegralsDefined | DspFiltersNet/FilterImplementations/Elliptic.cs:274-275 | for m1 in (0, 1) neither inner K call can fail |
| EllipticFunctions.Descend | DspFiltersNet/FilterImplementations/Elliptic.cs:327-336 | the lists grow together to at most 17 entries, stopping at 16 steps or at the first abs(c) <= 1e-12 |
| EllipticFunctions.EllipJ | DspFiltersNet/FilterImplementations/Elliptic.cs:312-351 | fails with ArgumentOutOfRange("m") exactly when m is outside [0, 1] |
| EllipticFunctions.EllipJAtZero | DspFiltersNet/FilterImplementations/Elliptic.cs:319-350 | at m = 0 the results are sin u, cos u, 1 and u |
| EllipticFunctions.EllipJAll | DspFiltersNet/FilterImplementations/Elliptic.cs:353-371 | fails exactly when some call would; otherwise one result per argument |
| EllipticFunctions.Landen | DspFiltersNet/FilterImplementations/Elliptic.cs:410-424 | stops at the first zero modulus, or fails with "Landen transformation not converging." after ten transformations |
| EllipticFunctions.LandenConverges | DspFiltersNet/FilterImplementations/Elliptic.cs:410-424 | succeeds exactly when one of k_0..k_10 is zero, and returns the moduli up to the first zero |
| EllipticFunctions.ArcJacSn | DspFiltersNet/FilterImplementations/Elliptic.cs:385-451 | k > 1 gives NaN; k = 1 gives atanh(w); below 1 it fails exactly when the Landen loop does |
| EllipticFunctions.ArcJacSnSucceedsIffZeroTerm | DspFiltersNet/FilterImplementations/Elliptic.cs:399-424 | below modulus one, success exactly when some modulus k_0..k_10 is zero |
| EllipticFunctions.ArcJacSc1 | DspFiltersNet/FilterImplementations/Elliptic.cs:373-383 | fails with "Real part is not negligible." exactly when abs(Re) > 1e-14; otherwise the imaginary part; NaN passes the check |

## Left out

- Numeric values of the floating-point functions are not modelled. This covers sin, cos, tan, sinh, cosh, sqrt, exp, log, pow, the complex log, sqrt and pow, and the AGM and nome-series values. They are uninterpreted, so no accuracy or convergence claim is made, and the Durand-Kerner iteration's convergence is not proved.
- IEEE rounding, overflow and signed zero are not modelled. Doubles are exact reals, and a division by zero yields the `nonFinite` stand-in instead of a specific infinity or NaN. The stand-in is an ordinary real in later arithmetic, so it does not propagate the way NaN does: `0 * nonFinite` is 0 and `nonFinite - nonFinite` is 0 in the model. This matters for gains such as `k * Quot(...)` in the high-pass correction and the overall digital gain.
- `ChebyshevI.CalcZpk` and `ChebyshevI.CalcTransferFunction` are left out because neither compiles as written (ChebyshevI.cs:77-78 and 99). Only the ChebyshevI prototype is modelled.
- The ChebyshevTypeOne and Elliptic branches of the `FrequencyFilterInstance` constructor (FrequencyFilterInstance.cs:28-33 and 40-45) are left out. The first calls the non-compiling ChebyshevI wrapper; the second calls `Elliptic.CalcTransferFunction`, which does not exist. `FilterDefinition` therefore has no ChebyshevTypeOne or Elliptic case. `Elliptic.Calc` models the existing `CalcZpk`/`CalcTransferFunctionCalcZpk` pair on its own.
- The definition records under `DspFiltersNet/Filter` are plain data. They are reduced to the fields the constructors read.
- `DspFilter.cs` is left out: its constructor is empty.
- Old tests that expect lower order limits are not followed; the code's limits are. FilterToolsTests.cs:565-599 and BesselTests.cs:202-218 expect orders 10, 12 and 15 to be rejected.
- A partial state change before an exception is not modelled. An exception is a `Failure`, and the instance is not built.
- Concurrency is not modelled; there is none.
- The `InvalidEnumArgumentException` default branch of `CalcFilterSettings` is left out, because `FrequencyFilterType` has only its four cases.
- FrequencyFilterInstance.Create: the constructor does not need `1 <= |a| <= |b|`, which the model's `Instance` type requires. The model proves it from the designs (`FilterTools.CoefficientCounts`).
- FilterTools.Convert2BandPass and FilterTools.Convert2BandStop carry no contract of their own. Their zeros and poles are stated by `BandPassZeros`, `BandPassPoles`, `BandStopZeros` and `BandStopPoles`, and their gains are written out directly in their bodies.
- Polynomials.Multiply states only the coefficient count. Its coefficients are described through `MultiplyLinear` and `FromRootsValue`, for the only factors `Zpk2Tf` uses.
- Bessel.FoundRoots states only the root count. Which sweep is returned is stated by `FoundRootsStop`.
- Elliptic.PrototypeAnalogLowPass: the first-order pole, the selectivity and eps^2 are computed with the corrected `Pow10Minus1` (see Findings). Elliptic.cs:77, 83 and 85 call the helper as written. The model therefore differs from the code when 0.1 * Rp or 0.1 * Rs is below about 4.3e-6, that is, Rp or Rs below about 4.3e-5 dB. Outside that range the two helpers agree (`EllipticFunctions.Pow10Minus1Agreement`).
- Elliptic.ModuliOf: eps^2 and the selectivity use the corrected `Pow10Minus1`, for the reason and on the inputs given for Elliptic.PrototypeAnalogLowPass.
- Elliptic.HigherOrder: the even-order gain divides by sqrt(1 + eps^2) with eps^2 from the corrected `Pow10Minus1`, as given for Elliptic.PrototypeAnalogLowPass.
- Elliptic.HigherOrder: the Jacobi arguments j K / n and the value v0 are passed to uninterpreted functions. Only the structure built from them is stated.
- EllipticFunctions.EllipJ: besides the guard and the m = 0 case, the result is stated only as the AGM descent and back substitution, without numeric meaning.
- The guards of `EllipK` and `EllipJ` cannot trigger inside the prototype once `EllipDeg` has succeeded. The model keeps them on the helpers and states the prototype's possible errors as a list.

## Findings

| source | as written | input that shows it | evidently intended | confidence | as-written member | corrected member |
|---|---|---|---|---|---|---|
| DspFiltersNet/FilterImplementations/Elliptic.cs:223 | the small-argument branch of Pow10Minus1 evaluates the series at `x`, not at the exponent `value = ln(10) x` that selected the branch | x = 1e-6 with ln(10) = 2.302585092994046: the result is about 1.0e-6, while 10^x - 1 is about 2.3e-6 | `value + 0.5 value^2 + value^3 / 6` | not executed | EllipticFunctions.Pow10Minus1AsWritten | EllipticFunctions.Pow10Minus1 |

The prototype uses the corrected `Pow10Minus1`. The series branch is taken only when the ripple or attenuation in decibels is below about 4.3e-5. `EllipticFunctions.Pow10Minus1AsWrittenMissesFirstOrder` exhibits the discrepancy. `EllipticFunctions.Pow10Minus1FirstOrder` proves the intended first-order behaviour of the correction.
