/** The speech-rate gate that both SpeechRecognitionManager classes run on
  * every partial transcript: once more than a second has passed since
  * recording started and the transcript has grown since the last emission,
  * the characters-per-minute rate divided by the normal rate of 150 is
  * clamped to [0.5, 2.0] and handed to the speed callback. */
module SpeechRate {
  import opened Numeric
  import opened Wrappers

  /** The normal speaking rate, in characters per minute. */
  const NormalRate: real := 150.0
  const MinMultiplier: real := 0.5
  const MaxMultiplier: real := 2.0
  /** Seconds that must have elapsed before a rate is emitted. */
  const Warmup: real := 1.0

  /** The unclamped ratio of the speaking rate to the normal rate. */
  function RawMultiplier(chars: nat, elapsed: real): real
    requires elapsed > 0.0
  {
    chars as real / elapsed * 60.0 / NormalRate
  }

  /** The speed multiplier for `chars` characters heard in `elapsed` seconds:
    * the raw ratio where it lies in [0.5, 2.0], otherwise the nearer bound. */
  function Multiplier(chars: nat, elapsed: real): (m: real)
    requires elapsed > 0.0
    ensures MinMultiplier <= m <= MaxMultiplier
    ensures MinMultiplier <= RawMultiplier(chars, elapsed) <= MaxMultiplier ==> m == RawMultiplier(chars, elapsed)
    ensures RawMultiplier(chars, elapsed) < MinMultiplier ==> m == MinMultiplier
    ensures RawMultiplier(chars, elapsed) > MaxMultiplier ==> m == MaxMultiplier
  {
    Max(MinMultiplier, Min(MaxMultiplier, RawMultiplier(chars, elapsed)))
  }

  /** One run of `calculateSpeechRate` once a start time exists: the emitted
    * multiplier, or nothing. */
  function Gate(chars: nat, lastCount: int, elapsed: real): (r: Option<real>)
    ensures r.Some? <==> elapsed > Warmup && chars > lastCount
    ensures r.Some? ==> MinMultiplier <= r.value <= MaxMultiplier
  {
    if elapsed > Warmup && chars > lastCount then Some(Multiplier(chars, elapsed)) else None
  }

  /** More characters in the same time never lower the multiplier. */
  lemma {:induction false} MultiplierMonotoneInChars(c1: nat, c2: nat, elapsed: real)
    requires elapsed > 0.0 && c1 <= c2
    ensures Multiplier(c1, elapsed) <= Multiplier(c2, elapsed)
  {
    var k := 60.0 / NormalRate / elapsed;
    assert RawMultiplier(c1, elapsed) == c1 as real * k;
    assert RawMultiplier(c2, elapsed) == c2 as real * k;
    assert k > 0.0;
    assert c1 as real * k <= c2 as real * k;
  }

  /** A transcript observation: its length and the seconds since recording
    * started. */
  datatype Sample = Sample(chars: nat, elapsed: real)

  /** What a run of the gate over successive samples emits: the transcript
    * length and multiplier of each emission, in order, starting from
    * `lastCount`. */
  function Emissions(samples: seq<Sample>, lastCount: int): seq<(nat, real)>
  {
    if samples == [] then []
    else
      var s := samples[0];
      match Gate(s.chars, lastCount, s.elapsed)
      case Some(m) => [(s.chars, m)] + Emissions(samples[1..], s.chars)
      case None => Emissions(samples[1..], lastCount)
  }

  /** Every emission is in [0.5, 2.0], comes from a sample more than a second
    * in, and the emitted lengths strictly increase, starting above
    * `lastCount`. */
  lemma {:induction false} EmissionsIncrease(samples: seq<Sample>, lastCount: int)
    ensures |Emissions(samples, lastCount)| <= |samples|
    ensures forall i :: 0 <= i < |Emissions(samples, lastCount)| ==>
              MinMultiplier <= Emissions(samples, lastCount)[i].1 <= MaxMultiplier
              && Emissions(samples, lastCount)[i].0 > lastCount
    ensures forall i, j :: 0 <= i < j < |Emissions(samples, lastCount)| ==>
              Emissions(samples, lastCount)[i].0 < Emissions(samples, lastCount)[j].0
  {
    if samples != [] {
      var s := samples[0];
      EmissionsIncrease(samples[1..], s.chars);
      EmissionsIncrease(samples[1..], lastCount);
    }
  }
}
