/** Data shared by the design pipeline and the runtime instances: errors,
    zero/pole/gain triples, transfer functions and filter definitions. */
module FilterTypes {
  import opened Complexes

  /** The exceptions the filter code throws, with the parameter name or message
      where the code supplies one. */
  datatype Error =
    | ArgumentOutOfRange(param: string)
    | Argument(message: string)
    | InvalidOperation(message: string)
    | NotSupported
    | IndexOutOfRange
    | Overflow

  /** Either a value or the exception the source would throw instead. */
  datatype Result<+T> = Success(value: T) | Failure(error: Error) {
    predicate IsFailure() {
      Failure?
    }

    function PropagateFailure<U>(): Result<U>
      requires Failure?
    {
      Failure(error)
    }

    function Extract(): T
      requires Success?
    {
      value
    }
  }

  /** A check that either passes or names the exception it throws. */
  datatype Outcome = Pass | Fail(error: Error) {
    predicate IsFailure() {
      Fail?
    }

    function PropagateFailure<U>(): Result<U>
      requires Fail?
    {
      Failure(error)
    }
  }

  /** Zeros, poles and gain of a filter (Zpk.cs). */
  datatype Zpk = Zpk(z: seq<Complex>, p: seq<Complex>, k: real)

  /** Numerator `b` and denominator `a` coefficients (TransferFunction.cs). */
  datatype TransferFunction = TransferFunction(b: seq<real>, a: seq<real>)

  datatype FrequencyFilterType = LowPass | HighPass | BandPass | BandStop

  /** The fields every frequency-selective definition record carries. */
  datatype FrequencySpec = FrequencySpec(
    filterType: FrequencyFilterType,
    cutoffLow: real,
    cutoffHigh: real,
    order: int,
    samplingFrequency: real)

  /** The filter definition records a filter instance is built from. */
  datatype FilterDefinition =
    | ButterworthDefinition(spec: FrequencySpec)
    | BesselDefinition(spec: FrequencySpec)
    | ChebyshevTypeTwoDefinition(spec: FrequencySpec, stopbandAttenuation: real)
    | MovingAverageDefinition(width: int)
    | FrequencyDefinition(filterType: FrequencyFilterType, cutoffLow: real, cutoffHigh: real, order: int)
}
