/**
 * Signal types of the mask: where a signal comes from and how fast it is sampled.
 */
module SignalTypes {
  import opened FrameCodec
  import opened Arith

  /** The sensor a signal comes from, in declaration order. */
  datatype SignalOrigin = EEG | ACCELEROMETER | IR_LED | RED_LED | TEMPERATURE

  /** Every origin, indexed by its enumerator value. */
  const ORIGINS: seq<SignalOrigin> := [EEG, ACCELEROMETER, IR_LED, RED_LED, TEMPERATURE]

  /** The enumerator value C++ gives each origin (0 .. 4, in declaration order). */
  function Ordinal(o: SignalOrigin): (n: nat)
    ensures n < |ORIGINS| && ORIGINS[n] == o
  {
    match o
    case EEG => 0
    case ACCELEROMETER => 1
    case IR_LED => 2
    case RED_LED => 3
    case TEMPERATURE => 4
  }

  /** There are exactly five origins and they are pairwise distinct. */
  lemma FiveDistinctOrigins()
    ensures |ORIGINS| == 5
    ensures forall i, j :: 0 <= i < j < |ORIGINS| ==> ORIGINS[i] != ORIGINS[j]
    ensures forall o: SignalOrigin :: o in ORIGINS
  {
    forall o: SignalOrigin ensures o in ORIGINS {
      assert ORIGINS[Ordinal(o)] == o;
    }
  }

  /** Two origins are the same exactly when their enumerator values are. */
  lemma OrdinalInjective(a: SignalOrigin, b: SignalOrigin)
    ensures Ordinal(a) == Ordinal(b) <==> a == b
  {
  }

  /** Characteristics of a signal, fixed at construction: no member changes them. */
  datatype SignalSpec = SignalSpec(origin: SignalOrigin, samplingRate: int32)
  {
    /** signal_origin(): the origin given to the constructor. */
    function SignalOrigin(): (o: SignalOrigin)
      ensures o == origin
    {
      origin
    }

    /** sampling_rate(): the rate in Hz given to the constructor. */
    function SamplingRate(): (r: int32)
      ensures r == samplingRate
    {
      samplingRate
    }

    /** ms_per_sample(): milliseconds between two samples, 1000 / rate cut toward zero. */
    function MsPerSample(): (ms: int)
      requires samplingRate != 0
      ensures samplingRate > 0 ==> ms >= 0 && ms * samplingRate <= 1000 < (ms + 1) * samplingRate
      ensures samplingRate < 0 ==>
                ms <= 0 && -ms * -(samplingRate as int) <= 1000 < (-ms + 1) * -(samplingRate as int)
    {
      TruncatedQuotient(1000, samplingRate)
    }
  }

  /** `(int)(n / d)` on reals: the quotient rounded toward zero, as a C cast does. */
  function TruncatedQuotient(n: nat, d: int): (q: int)
    requires d != 0
    ensures d > 0 ==> q >= 0 && q * d <= n < (q + 1) * d
    ensures d < 0 ==> q <= 0 && -q * -d <= n < (-q + 1) * -d
  {
    if d > 0 then n / d else -(n / -d)
  }

  /** A rate from 1 to 1000 Hz gives at least one millisecond per sample. */
  lemma SlowRatesAtLeastOneMs(spec: SignalSpec)
    requires 1 <= spec.samplingRate <= 1000
    ensures spec.MsPerSample() >= 1
  {
    var ms := spec.MsPerSample();
    if ms == 0 {
      assert false;
    }
  }

  /** A rate above 1000 Hz gives zero milliseconds per sample. */
  lemma FastRatesZeroMs(spec: SignalSpec)
    requires spec.samplingRate > 1000
    ensures spec.MsPerSample() == 0
  {
    var ms := spec.MsPerSample();
    if ms >= 1 {
      MulMonotone(1, ms, spec.samplingRate);
    }
  }

  /** The milliseconds per sample never grow as the rate grows. */
  lemma MsPerSampleNonIncreasing(a: SignalSpec, b: SignalSpec)
    requires 0 < a.samplingRate <= b.samplingRate
    ensures b.MsPerSample() <= a.MsPerSample()
  {
    var ma, mb := a.MsPerSample(), b.MsPerSample();
    if mb > ma {
      MulMonotone(ma + 1, mb, a.samplingRate);
      MulMonotone(a.samplingRate, b.samplingRate, mb);
      assert false;
    }
  }
}
