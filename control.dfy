/** The stateless helpers of the heating controller: clamping a power value,
    classifying comfort, the proportional power law of automatic mode, the
    relief valve's step function and the mean of a thermocouple batch.
    All quantities are exact reals. */
module Control {
  import opened Wrappers

  /** `limiteaza`: `v` brought into `[lo, hi]`. */
  function Clamp(v: real, lo: real, hi: real): (r: real)
    ensures lo <= hi ==> lo <= r <= hi
    ensures lo <= v <= hi ==> r == v
    ensures r == v || r == lo || r == hi
  {
    if v < lo then lo
    else if v > hi then hi
    else v
  }

  /** Clamping is idempotent: a clamped value is already in range. */
  lemma ClampIdempotent(v: real, lo: real, hi: real)
    requires lo <= hi
    ensures Clamp(Clamp(v, lo, hi), lo, hi) == Clamp(v, lo, hi)
  {
  }

  /** Clamping preserves order, so a larger request never yields less power. */
  lemma ClampMonotonic(v: real, w: real, lo: real, hi: real)
    requires lo <= hi && v <= w
    ensures Clamp(v, lo, hi) <= Clamp(w, lo, hi)
  {
  }

  /** `rece`, `confortabil`, `cald`. */
  datatype Comfort = Cold | Comfortable | Hot

  /** `calcul_confort`: symmetric band around the reference; the two
      boundaries themselves are comfortable. */
  function ClassifyComfort(mean: real, reference: real, band: real): (c: Comfort)
    ensures c == Cold <==> mean < reference - band
    ensures c == Hot <==> reference - band <= mean && mean > reference + band
    ensures c == Comfortable <==> reference - band <= mean <= reference + band
  {
    if mean < reference - band then Cold
    else if mean > reference + band then Hot
    else Comfortable
  }

  /** Rank of a comfort class, coldest first. */
  function Warmth(c: Comfort): nat
  {
    match c
    case Cold => 0
    case Comfortable => 1
    case Hot => 2
  }

  /** A warmer room is never classified colder. */
  lemma ClassifyComfortMonotonic(m1: real, m2: real, reference: real, band: real)
    requires m1 <= m2
    ensures Warmth(ClassifyComfort(m1, reference, band)) <= Warmth(ClassifyComfort(m2, reference, band))
  {
  }

  /** With a reference of 22 and a band of 1: 20.9 is cold, 21.0 and 23.0
      are comfortable, 23.1 is hot. */
  lemma ComfortScenario()
    ensures ClassifyComfort(20.9, 22.0, 1.0) == Cold
    ensures ClassifyComfort(21.0, 22.0, 1.0) == Comfortable
    ensures ClassifyComfort(23.0, 22.0, 1.0) == Comfortable
    ensures ClassifyComfort(23.1, 22.0, 1.0) == Hot
  {
  }

  /** Proportional gain `k` and base power of automatic mode. */
  const Gain: real := 12.0
  const BasePower: real := 30.0

  /** `calcul_putere_mod_automat`: more power the colder the room is with
      respect to the reference, exactly the base power at the reference.
      The result is not clamped here. */
  function AutomaticPower(mean: real, reference: real): (p: real)
    ensures p > BasePower <==> mean < reference
    ensures p == BasePower <==> mean == reference
    ensures p < BasePower <==> mean > reference
  {
    Gain * (reference - mean) + BasePower
  }

  /** The power falls by exactly the gain per degree of mean temperature,
      hence strictly as the mean rises. */
  lemma AutomaticPowerDecreasing(m1: real, m2: real, reference: real)
    requires m1 < m2
    ensures AutomaticPower(m1, reference) - AutomaticPower(m2, reference) == Gain * (m2 - m1)
    ensures AutomaticPower(m1, reference) > AutomaticPower(m2, reference)
  {
  }

  /** Mean 18, reference 22: 12 * 4 + 30 = 78, inside [0, 100] so the
      clamp leaves it alone. */
  lemma AutomaticPowerScenario()
    ensures AutomaticPower(18.0, 22.0) == 78.0
    ensures Clamp(AutomaticPower(18.0, 22.0), 0.0, 100.0) == 78.0
  {
  }

  /** After clamping to [0, 100], the controller is at full power once the
      room is 70/12 degrees below the reference and off once it is 2.5
      degrees above it. */
  lemma AutomaticPowerSaturates(mean: real, reference: real)
    ensures mean <= reference - 70.0 / 12.0 ==> Clamp(AutomaticPower(mean, reference), 0.0, 100.0) == 100.0
    ensures mean >= reference + 2.5 ==> Clamp(AutomaticPower(mean, reference), 0.0, 100.0) == 0.0
  {
  }

  /** Valve openings: fully open, partly open, closed. */
  const ValveOpen: real := 1.0
  const ValvePartial: real := 0.6
  const ValveClosed: real := 0.0

  /** Margin above the reference pressure before the valve opens partly. */
  const PartialMargin: real := 0.3

  /** The relief valve's step function: fully open above the safety
      maximum, partly open above the reference plus the margin, else closed. */
  function ValveAction(pressure: real, reference: real, maxSafe: real): (a: real)
    ensures a == ValveOpen <==> pressure > maxSafe
    ensures a == ValvePartial <==> pressure <= maxSafe && pressure > reference + PartialMargin
    ensures a == ValveClosed <==> pressure <= maxSafe && pressure <= reference + PartialMargin
  {
    if pressure > maxSafe then ValveOpen
    else if pressure > reference + PartialMargin then ValvePartial
    else ValveClosed
  }

  /** A higher pressure never opens the valve less. */
  lemma ValveActionMonotonic(p1: real, p2: real, reference: real, maxSafe: real)
    requires p1 <= p2
    ensures ValveAction(p1, reference, maxSafe) <= ValveAction(p2, reference, maxSafe)
  {
  }

  /** Python's `sum`: left to right, starting from zero; a lone reading
      is its own sum. */
  function Sum(xs: seq<real>): (r: real)
    ensures |xs| == 1 ==> r == xs[0]
  {
    if xs == [] then 0.0 else Sum(xs[..|xs| - 1]) + xs[|xs| - 1]
  }

  /** `sum(temperaturi) / len(temperaturi)`; Python raises on an empty batch.
      The mean, counted once per reading, gives back the total. */
  function Mean(xs: seq<real>): (m: real)
    requires |xs| > 0
    ensures m * (|xs| as real) == Sum(xs)
  {
    Sum(xs) / (|xs| as real)
  }

  /** One more reading within the bounds keeps a running total within
      the bounds times the count. */
  lemma AddWithin(total: real, x: real, n: real, lo: real, hi: real)
    requires lo * n <= total <= hi * n && lo <= x <= hi
    ensures lo * (n + 1.0) <= total + x <= hi * (n + 1.0)
  {
    assert lo * (n + 1.0) == lo * n + lo;
    assert hi * (n + 1.0) == hi * n + hi;
  }

  lemma {:induction false} SumBetween(xs: seq<real>, lo: real, hi: real)
    requires forall i :: 0 <= i < |xs| ==> lo <= xs[i] <= hi
    ensures lo * (|xs| as real) <= Sum(xs) <= hi * (|xs| as real)
  {
    if xs != [] {
      var init := xs[..|xs| - 1];
      assert forall i :: 0 <= i < |init| ==> init[i] == xs[i];
      SumBetween(init, lo, hi);
      AddWithin(Sum(init), xs[|xs| - 1], |init| as real, lo, hi);
      assert |xs| as real == (|init| as real) + 1.0;
    }
  }

  /** A quantity that, counted `n > 0` times, lies between `lo * n` and
      `hi * n` lies between `lo` and `hi`. */
  lemma DivideWithin(total: real, n: real, m: real, lo: real, hi: real)
    requires n > 0.0 && m * n == total && lo * n <= total <= hi * n
    ensures lo <= m <= hi
  {
    assert (m - lo) * n == total - lo * n;
    assert (hi - m) * n == hi * n - total;
  }

  /** The mean of a batch lies between any bounds of its readings. */
  lemma {:induction false} MeanBetween(xs: seq<real>, lo: real, hi: real)
    requires |xs| > 0
    requires forall i :: 0 <= i < |xs| ==> lo <= xs[i] <= hi
    ensures lo <= Mean(xs) <= hi
  {
    SumBetween(xs, lo, hi);
    DivideWithin(Sum(xs), |xs| as real, Mean(xs), lo, hi);
  }

  /** A Python float as far as `limiteaza` can tell: a number, or NaN,
      which compares false with everything. `float` accepts the text
      `nan`, so the operator line `p nan` yields NaN. */
  datatype Float = Finite(value: real) | NaN

  /** `<` on floats: false as soon as either side is NaN. */
  predicate FloatLess(a: Float, b: Float)
  {
    a.Finite? && b.Finite? && a.value < b.value
  }

  /** `limiteaza` on floats, as written: both comparisons are false for
      NaN, so NaN is returned unchanged. */
  function ClampFloat(v: Float, lo: real, hi: real): (r: Float)
    ensures v.Finite? ==> r == Finite(Clamp(v.value, lo, hi))
    ensures v.NaN? ==> r == NaN
  {
    if FloatLess(v, Finite(lo)) then Finite(lo)
    else if FloatLess(Finite(hi), v) then Finite(hi)
    else v
  }

  /** The operator input `p nan` passes the clamp of `task_sw` and of S
      without being brought into [0, 100]. */
  lemma NaNEscapesClamp()
    ensures ClampFloat(NaN, 0.0, 100.0) == NaN
    ensures !(ClampFloat(NaN, 0.0, 100.0).Finite? && 0.0 <= ClampFloat(NaN, 0.0, 100.0).value <= 100.0)
  {
  }

  /** The evident intent: a value that is not a number is rejected like
      any other invalid value, and every accepted value is clamped into
      range. The rest of the model works on the reals this accepts. */
  function ClampChecked(v: Float, lo: real, hi: real): (r: Option<real>)
    ensures r.None? <==> v.NaN?
    ensures r.Some? && lo <= hi ==> lo <= r.value <= hi
    ensures v.Finite? ==> r == Some(Clamp(v.value, lo, hi))
  {
    match v
    case NaN => None
    case Finite(x) => Some(Clamp(x, lo, hi))
  }

}
