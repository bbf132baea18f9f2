/**
 Linear resampling of announcements (`linear_resample`) and of the embedded sounds (`decode_wav_48k`),
 in exact arithmetic: every index is in bounds, every output lies between two neighbouring inputs, and
 a whole ratio keeps the input samples.
 */
module Resample {
  import opened SampleRing

  function Lesser(a: real, b: real): real { if a <= b then a else b }
  function Greater(a: real, b: real): real { if a <= b then b else a }

  /** Nearest integer, halves away from zero. */
  function Round(x: real): (n: int)
    ensures n as real - 0.5 <= x <= n as real + 0.5
    ensures if x >= 0.0 then x < n as real + 0.5 else n as real - 0.5 < x
  {
    if x >= 0.0 then (x + 0.5).Floor else -((0.5 - x).Floor)
  }

  function Ceil(x: real): (n: int)
    ensures n as real - 1.0 < x <= n as real
  {
    -((-x).Floor)
  }

  // ---------------------------------------------------------------- exact arithmetic

  lemma MulMonotone(a: real, b: real, c: real)
    requires a <= b && c >= 0.0
    ensures a * c <= b * c
  {
  }

  lemma MulStrict(a: real, b: real, c: real)
    requires a < b && c > 0.0
    ensures a * c < b * c
  {
  }

  lemma MulSwap(a: real, b: real, c: real)
    ensures a * b * c == b * (a * c)
  {
  }

  lemma MulCast(a: nat, b: nat)
    ensures (a * b) as real == a as real * b as real
  {
  }

  lemma SameQuotient(a: real, b: real, c: real)
    requires c > 0.0 && a == b * c
    ensures a / c == b
  {
    DivideExact(a, c);
    var q := a / c;
    if q < b { MulStrict(q, b, c); }
    if b < q { MulStrict(b, q, c); }
  }

  lemma DivideExact(a: real, c: real)
    requires c > 0.0
    ensures a / c * c == a
  {
  }

  /** A position before the scaled end comes from before the end. */
  lemma DivideBelow(a: real, b: real, c: real)
    requires c > 0.0 && a >= 0.0
    ensures 0.0 <= a / c && (a / c) * c == a
    ensures a < b * c <==> a / c < b
  {
    var q := a / c;
    assert q * c == a;
    if q >= b { MulMonotone(b, q, c); }
    if q < 0.0 { MulStrict(q, 0.0, c); }
  }

  lemma Scaled(d: real, f: real)
    requires d >= 0.0 && 0.0 <= f <= 1.0
    ensures 0.0 <= d * f <= d
  {
    MulMonotone(0.0, f, d);
    MulMonotone(f, 1.0, d);
    assert f * d == d * f;
  }

  lemma NegProduct(d: real, f: real)
    ensures d * f == -(-d * f)
  {
  }

  /** Between two values, seen from the first. */
  lemma Between(a: real, b: real, frac: real)
    requires 0.0 <= frac < 1.0
    ensures Lesser(a, b) <= a + (b - a) * frac <= Greater(a, b)
  {
    var d := b - a;
    var p := d * frac;
    if a <= b {
      Scaled(d, frac);
      assert 0.0 <= p <= d;
    } else {
      var e := -d;
      Scaled(e, frac);
      NegProduct(d, frac);
      assert 0.0 <= -p <= e;
    }
    assert a + (b - a) * frac == a + p;
  }

  // ---------------------------------------------------------------- linear_resample

  /** The input at a fractional position; past the last sample it stays on it. */
  function Interpolate(input: seq<real>, pos: real): (y: real)
    requires 0.0 <= pos < |input| as real
  {
    var left := pos.Floor;
    var right := if left + 1 < |input| then left + 1 else |input| - 1;
    input[left] + (input[right] - input[left]) * (pos - left as real)
  }

  function OutputLength(n: nat, inRate: nat, outRate: nat): (len: nat)
    requires inRate > 0
  {
    MulMonotone(0.0, n as real, outRate as real / inRate as real);
    Round(n as real * (outRate as real / inRate as real))
  }

  function Position(i: nat, inRate: nat, outRate: nat): real
    requires inRate > 0 && outRate > 0
  {
    i as real / (outRate as real / inRate as real)
  }

  /** Every output index reads inside the input. */
  lemma PositionsAreInBounds(n: nat, inRate: nat, outRate: nat, i: nat)
    requires inRate > 0 && outRate > 0 && i < OutputLength(n, inRate, outRate)
    ensures 0.0 <= Position(i, inRate, outRate) < n as real
  {
    var ratio := outRate as real / inRate as real;
    assert i as real + 1.0 <= n as real * ratio + 0.5;
    DivideBelow(i as real, n as real, ratio);
  }

  /** Every output lies between the two inputs it falls between. */
  lemma OutputIsBetweenNeighbours(input: seq<real>, pos: real)
    requires 0.0 <= pos < |input| as real
    ensures var left := pos.Floor;
      var right := if left + 1 < |input| then left + 1 else left;
      Lesser(input[left], input[right]) <= Interpolate(input, pos) <= Greater(input[left], input[right])
  {
    var left := pos.Floor;
    var right := if left + 1 < |input| then left + 1 else left;
    Between(input[left], input[right], pos - left as real);
  }

  /** The two inputs around a position, weighted by how near they are; past the last input, that input. */
  lemma InterpolateWeighs(input: seq<real>, pos: real)
    requires 0.0 <= pos < |input| as real
    ensures var k := pos.Floor; var f := pos - k as real;
      Interpolate(input, pos) == if k + 1 < |input| then (1.0 - f) * input[k] + f * input[k + 1] else input[|input| - 1]
  {
    var k := pos.Floor;
    var f := pos - k as real;
    if k + 1 < |input| {
      WeightedForm(input[k], input[k + 1], f);
    }
  }

  lemma WeightedForm(a: real, b: real, f: real)
    ensures a + (b - a) * f == a + f * (b - a) == (1.0 - f) * a + f * b
  {
  }

  /** A straight line stays one. */
  lemma LinesAreKept(input: seq<real>, a: real, b: real, pos: real)
    requires 0.0 <= pos <= (|input| - 1) as real && forall k :: 0 <= k < |input| ==> input[k] == a + b * k as real
    ensures Interpolate(input, pos) == a + b * pos
  {
    var k := pos.Floor;
    var f := pos - k as real;
    if k + 1 < |input| {
      assert input[k + 1] - input[k] == b by { NextOnLine(b, k); }
      OnLine(b, k as real, f);
    }
  }

  lemma NextOnLine(b: real, k: nat)
    ensures b * (k + 1) as real == b * k as real + b
  {
  }

  lemma OnLine(b: real, k: real, f: real)
    ensures b * k + b * f == b * (k + f)
  {
  }

  /** Sample i of the output stands at the time of the input position it is read from. */
  lemma TimesAreKept(inRate: nat, outRate: nat, i: nat)
    requires inRate > 0 && outRate > 0
    ensures Position(i, inRate, outRate) * outRate as real == (i * inRate) as real
  {
    var ratio := outRate as real / inRate as real;
    DivideExact(outRate as real, inRate as real);
    DivideExact(i as real, ratio);
    MulAssoc(Position(i, inRate, outRate), ratio, inRate as real);
    MulCast(i, inRate);
  }

  /** The output is as long as the input, to the nearest sample. */
  lemma LengthIsNearest(n: nat, inRate: nat, outRate: nat)
    requires inRate > 0 && outRate > 0
    ensures var len := OutputLength(n, inRate, outRate);
      2 * (len * inRate) - inRate <= 2 * (n * outRate) < 2 * (len * inRate) + inRate
  {
    var len := OutputLength(n, inRate, outRate);
    assert len as real * inRate as real - 0.5 * inRate as real <= n as real * outRate as real
           < len as real * inRate as real + 0.5 * inRate as real by {
      var ratio := outRate as real / inRate as real;
      DivideExact(outRate as real, inRate as real);
      assert n as real * ratio >= 0.0 by { MulMonotone(0.0, n as real, ratio); }
      hide OutputLength;
      Rescaled(n as real, ratio, inRate as real, outRate as real);
      NearestScaled(n as real * ratio, len as real, inRate as real, n as real * outRate as real);
    }
    hide *;
    NearestOfCasts(n, len, inRate, outRate);
  }

  lemma NearestScaled(x: real, len: real, rate: real, scaled: real)
    requires rate > 0.0 && len - 0.5 <= x < len + 0.5 && x * rate == scaled
    ensures len * rate - 0.5 * rate <= scaled < len * rate + 0.5 * rate
  {
    var low, high := len - 0.5, len + 0.5;
    MulMonotone(low, x, rate);
    MulStrict(x, high, rate);
    assert low * rate <= scaled < high * rate;
    HalfOff(len, rate);
  }

  lemma NearestOfCasts(n: nat, len: nat, inRate: nat, outRate: nat)
    requires len as real * inRate as real - 0.5 * inRate as real <= n as real * outRate as real
             < len as real * inRate as real + 0.5 * inRate as real
    ensures 2 * (len * inRate) - inRate <= 2 * (n * outRate) < 2 * (len * inRate) + inRate
  {
    MulCast(n, outRate);
    MulCast(len, inRate);
    NearestOfCast(n * outRate, len * inRate, inRate);
  }

  lemma NearestOfCast(n: nat, len: nat, rate: nat)
    requires len as real - 0.5 * rate as real <= n as real < len as real + 0.5 * rate as real
    ensures 2 * len - rate <= 2 * n < 2 * len + rate
  {
  }

  lemma Rescaled(a: real, ratio: real, c: real, d: real)
    requires ratio * c == d
    ensures a * ratio * c == a * d
  {
    MulAssoc(a, ratio, c);
  }

  lemma HalfOff(len: real, rate: real)
    ensures (len - 0.5) * rate == len * rate - 0.5 * rate && (len + 0.5) * rate == len * rate + 0.5 * rate
  {
  }

  /** When the output rate is a multiple of the input rate, every k-th output is an input. */
  lemma WholeRatioKeepsSamples(input: seq<real>, inRate: nat, k: nat, j: nat)
    requires inRate > 0 && k > 0 && j < |input|
    ensures k * j < OutputLength(|input|, inRate, k * inRate)
    ensures Position(k * j, inRate, k * inRate) == j as real
    ensures Interpolate(input, Position(k * j, inRate, k * inRate)) == input[j]
  {
    var ratio := (k * inRate) as real / inRate as real;
    MulCast(k, inRate);
    SameQuotient((k * inRate) as real, k as real, inRate as real);
    assert ratio == k as real;
    MulCast(k, |input|);
    MulCast(k, j);
    assert |input| as real * ratio == (k * |input|) as real;
    RoundOfWhole(k * |input|);
    IndexScales(k, j, |input|);
    SameQuotient((k * j) as real, j as real, ratio);
  }

  lemma RoundOfWhole(n: nat)
    ensures Round(n as real) == n
  {
  }

  lemma IndexScales(k: nat, j: nat, n: nat)
    requires k > 0 && j < n
    ensures k * j < k * n
  {
  }

  method LinearResample(input: seq<real>, inRate: nat, outRate: nat) returns (out: seq<real>)
    ensures input == [] || inRate == 0 || outRate == 0 ==> out == []
    ensures input != [] && inRate > 0 && outRate > 0 ==>
              && |out| == OutputLength(|input|, inRate, outRate)
              && forall i :: 0 <= i < |out| ==>
                   && 0.0 <= Position(i, inRate, outRate) < |input| as real
                   && out[i] == Interpolate(input, Position(i, inRate, outRate))
  {
    if input == [] || inRate == 0 || outRate == 0 { return []; }
    if inRate == outRate {
      SameRateKeepsInput(input, inRate);
      return input;
    }
    var ratio := outRate as real / inRate as real;
    var outputLen := OutputLength(|input|, inRate, outRate);
    out := [];
    for i := 0 to outputLen
      invariant |out| == i
      invariant forall j :: 0 <= j < i ==>
        && 0.0 <= Position(j, inRate, outRate) < |input| as real
        && out[j] == Interpolate(input, Position(j, inRate, outRate))
    {
      PositionsAreInBounds(|input|, inRate, outRate, i);
      var srcPos := i as real / ratio;
      var left := srcPos.Floor;
      var right := if left + 1 < |input| - 1 then left + 1 else |input| - 1;
      var frac := srcPos - left as real;
      out := out + [input[left] + (input[right] - input[left]) * frac];
    }
  }

  lemma SameRateKeepsInput(input: seq<real>, rate: nat)
    requires rate > 0
    ensures OutputLength(|input|, rate, rate) == |input|
    ensures forall i :: 0 <= i < |input| ==> Position(i, rate, rate) == i as real && Interpolate(input, i as real) == input[i]
  {
    assert rate as real / rate as real == 1.0;
    forall i | 0 <= i < |input| ensures Position(i, rate, rate) == i as real && Interpolate(input, i as real) == input[i] {
      assert i as real / 1.0 == i as real;
    }
  }

  // ---------------------------------------------------------------- decode_wav_48k

  const SOUND_RATE: nat := 48000

  function SoundLength(n: nat, rate: nat): (len: nat)
    requires rate > 0
  {
    DivideBelow(n as real, 0.0, rate as real / SOUND_RATE as real);
    Ceil(n as real / (rate as real / SOUND_RATE as real))
  }

  lemma SoundPositionsAreInBounds(n: nat, rate: nat, i: nat)
    requires rate > 0 && i < SoundLength(n, rate)
    ensures 0.0 <= i as real * (rate as real / SOUND_RATE as real) < n as real
  {
    var ratio := rate as real / SOUND_RATE as real;
    DivideBelow(n as real, 0.0, ratio);
    var x := n as real / ratio;
    assert i as real < x;
    MulMonotone(0.0, i as real, ratio);
    MulStrict(i as real, x, ratio);
  }

  /** A rounded value between two samples is between them, so it is a sample too. */
  lemma RoundStaysBetween(a: int, b: int, x: real)
    requires a as real <= x <= b as real
    ensures a <= Round(x) <= b
  {
  }

  function Blend(a: Sample, b: Sample, frac: real): real {
    a as real + frac * (b as real - a as real)
  }

  /** The interpolated sample before rounding. */
  function SoundAt(samples: seq<Sample>, pos: real): real
    requires 0.0 <= pos < |samples| as real
  {
    var idx := pos.Floor;
    var next := if idx + 1 < |samples| then samples[idx + 1] else samples[idx];
    Blend(samples[idx], next, pos - idx as real)
  }

  lemma SoundIsBetweenNeighbours(samples: seq<Sample>, pos: real)
    requires 0.0 <= pos < |samples| as real
    ensures var a := samples[pos.Floor];
      var b := if pos.Floor + 1 < |samples| then samples[pos.Floor + 1] else a;
      (a <= b ==> a <= Round(SoundAt(samples, pos)) <= b) && (b <= a ==> b <= Round(SoundAt(samples, pos)) <= a)
  {
    var a := samples[pos.Floor];
    var b := if pos.Floor + 1 < |samples| then samples[pos.Floor + 1] else a;
    hide Blend, Round;
    BlendIsBetween(a, b, pos - pos.Floor as real);
    if a <= b { RoundStaysBetween(a, b, SoundAt(samples, pos)); }
    if b <= a { RoundStaysBetween(b, a, SoundAt(samples, pos)); }
  }

  lemma BlendIsBetween(a: Sample, b: Sample, frac: real)
    requires 0.0 <= frac < 1.0
    ensures Lesser(a as real, b as real) <= Blend(a, b, frac) <= Greater(a as real, b as real)
  {
    Between(a as real, b as real, frac);
    Swapped(b as real - a as real, frac);
  }

  lemma Swapped(d: real, f: real)
    ensures d * f == f * d
  {
  }

  /** The same weighting as `linear_resample`. */
  lemma SoundWeighs(samples: seq<Sample>, pos: real)
    requires 0.0 <= pos < |samples| as real
    ensures var k := pos.Floor; var f := pos - k as real;
      SoundAt(samples, pos) ==
      if k + 1 < |samples| then (1.0 - f) * samples[k] as real + f * samples[k + 1] as real else samples[|samples| - 1] as real
  {
    var k := pos.Floor;
    if k + 1 < |samples| {
      WeightedForm(samples[k] as real, samples[k + 1] as real, pos - k as real);
    }
  }

  function SoundSample(samples: seq<Sample>, rate: nat, i: nat): (s: Sample)
    requires rate > 0 && i < SoundLength(|samples|, rate)
    ensures var pos := i as real * (rate as real / 48000.0);
      0.0 <= pos < |samples| as real && -0.5 <= SoundAt(samples, pos) - s as real <= 0.5
  {
    SoundPositionsAreInBounds(|samples|, rate, i);
    var pos := i as real * (rate as real / SOUND_RATE as real);
    SoundIsBetweenNeighbours(samples, pos);
    Round(SoundAt(samples, pos))
  }

  /** The resampled sound: every index reads in bounds and every value fits, whatever the source's rate. */
  function To48k(samples: seq<Sample>, rate: nat): (sound: seq<Sample>)
    requires rate > 0
    ensures |sound| == if rate == SOUND_RATE then |samples| else SoundLength(|samples|, rate)
  {
    if rate == SOUND_RATE then samples
    else seq(SoundLength(|samples|, rate), i requires 0 <= i < SoundLength(|samples|, rate) => SoundSample(samples, rate, i))
  }

  /** Sample i of the sound stands at the time of the source position it is read from, ... */
  lemma SoundTimesAreKept(rate: nat, i: nat)
    ensures (i as real * (rate as real / 48000.0)) * 48000.0 == (i * rate) as real
  {
    DivideExact(rate as real, 48000.0);
    Rescaled(i as real, rate as real / 48000.0, 48000.0, rate as real);
    MulCast(i, rate);
  }

  /** ... is the nearest one to the weighted value there, ... */
  lemma SoundIsNearest(samples: seq<Sample>, rate: nat, i: nat)
    requires rate > 0 && rate != 48000 && i < |To48k(samples, rate)|
    ensures var pos := i as real * (rate as real / 48000.0);
      && 0.0 <= pos < |samples| as real
      && -0.5 <= SoundAt(samples, pos) - To48k(samples, rate)[i] as real <= 0.5
  {
    hide SoundAt, SoundLength, SoundSample;
    var sound := To48k(samples, rate);
    assert sound[i] == SoundSample(samples, rate, i);
  }

  /** ... and the sound is the least that reaches the end of the source. */
  lemma SoundIsLongEnough(n: nat, rate: nat)
    requires rate > 0
    ensures var len := SoundLength(n, rate); len * rate - rate < 48000 * n <= len * rate
  {
    var len := SoundLength(n, rate);
    assert len as real * rate as real - rate as real < 48000.0 * n as real <= len as real * rate as real by {
      var ratio := rate as real / 48000.0;
      DivideExact(rate as real, 48000.0);
      DivideExact(n as real, ratio);
      Rescaled(len as real - 1.0, ratio, 48000.0, rate as real);
      Rescaled(len as real, ratio, 48000.0, rate as real);
      LeastScaled(n as real, len as real, n as real / ratio, ratio, rate as real);
    }
    hide *;
    MulCast(len, rate);
  }

  lemma LeastScaled(n: real, len: real, x: real, ratio: real, rate: real)
    requires ratio > 0.0 && x * ratio == n && len - 1.0 < x <= len
    requires (len - 1.0) * ratio * 48000.0 == (len - 1.0) * rate && len * ratio * 48000.0 == len * rate
    ensures len * rate - rate < 48000.0 * n <= len * rate
  {
    var before := len - 1.0;
    MulStrict(before, x, ratio);
    MulMonotone(x, len, ratio);
    assert before * ratio < n <= len * ratio;
    MulStrict(before * ratio, n, 48000.0);
    MulMonotone(n, len * ratio, 48000.0);
    OneOff(len, rate);
  }

  lemma OneOff(len: real, rate: real)
    ensures (len - 1.0) * rate == len * rate - rate
  {
  }

  lemma DividedRateLength(n: nat, rate: nat, k: nat, ratio: real)
    requires rate > 0 && ratio == rate as real / SOUND_RATE as real > 0.0 && k as real * ratio == 1.0
    ensures SoundLength(n, rate) == k * n
  {
    ScaledBack(k, n, ratio);
    SameQuotient(n as real, (k * n) as real, ratio);
    CeilOfWhole(k * n);
  }

  lemma DividedRateRatio(rate: nat, k: nat) returns (ratio: real)
    requires rate > 0 && k * rate == SOUND_RATE
    ensures ratio == rate as real / SOUND_RATE as real > 0.0 && k as real * ratio == 1.0
  {
    ratio := rate as real / SOUND_RATE as real;
    MulCast(k, rate);
    DivideExact(rate as real, SOUND_RATE as real);
    UnitRatio(k as real, rate as real, ratio, SOUND_RATE as real);
  }

  /** At a rate that divides 48 kHz, every k-th sample of the sound is a sample of the source. */
  lemma DividedRateKeepsSamples(samples: seq<Sample>, rate: nat, k: nat, j: nat)
    requires rate > 0 && k > 1 && k * rate == SOUND_RATE && j < |samples|
    ensures k * j < |To48k(samples, rate)| == k * |samples| && To48k(samples, rate)[k * j] == samples[j]
  {
    var ratio := DividedRateRatio(rate, k);
    DividedRateLength(|samples|, rate, k, ratio);
    IndexScales(k, j, |samples|);
    hide SoundLength, SoundSample;
    assert rate != SOUND_RATE;
    ScaledBack(k, j, ratio);
    WholeSoundSample(samples, rate, k * j, j);
  }

  lemma WholeSoundSample(samples: seq<Sample>, rate: nat, i: nat, j: nat)
    requires rate > 0 && j < |samples| && i < SoundLength(|samples|, rate)
    requires i as real * (rate as real / SOUND_RATE as real) == j as real
    ensures SoundSample(samples, rate, i) == samples[j]
  {
    SoundAtWhole(samples, j);
    RoundOfSample(samples[j]);
  }

  lemma SoundAtWhole(samples: seq<Sample>, j: nat)
    requires j < |samples|
    ensures SoundAt(samples, j as real) == samples[j] as real
  {
  }

  lemma UnitRatio(k: real, rate: real, ratio: real, full: real)
    requires full > 0.0 && ratio * full == rate && k * rate == full
    ensures k * ratio == 1.0
  {
    MulAssoc(k, ratio, full);
    if k * ratio < 1.0 { MulStrict(k * ratio, 1.0, full); }
    if k * ratio > 1.0 { MulStrict(1.0, k * ratio, full); }
  }

  lemma MulAssoc(a: real, b: real, c: real)
    ensures a * b * c == a * (b * c)
  {
  }

  lemma ScaledBack(k: nat, j: nat, ratio: real)
    requires k as real * ratio == 1.0
    ensures (k * j) as real * ratio == j as real
  {
    MulCast(k, j);
    MulSwap(k as real, j as real, ratio);
  }

  lemma CeilOfWhole(n: nat)
    ensures Ceil(n as real) == n
  {
  }

  lemma RoundOfSample(x: int)
    ensures Round(x as real) == x
  {
  }
}
