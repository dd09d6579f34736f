/**
 * The blackbody integrals of onezone/radiation.py, evaluated as truncated
 * series. Every series routine runs the same loop: add term i, compare the
 * change of the sum with a tolerance, and stop once past a minimum number of
 * iterations when the change is small, or at an iteration cap.
 *
 * Arithmetic is exact (`real`). The exponential `np.exp` is not available, so
 * every routine takes it as a parameter `exp`. The positivity results assume
 * it is positive (IsPositive); the underflow lemmas take it to be 0.0
 * everywhere.
 */
module Radiation {
  import opened Constants

  /** `max_iter`, `min_iter` and `tolerance` of every series loop. */
  const MaxIter: nat := 513
  const MinIter: nat := 4
  const Tolerance: real := 1.0e-10

  /** The two series forms: the photon-number integral and the energy-flux integral. */
  datatype Family = PhotonNumber | EnergyFlux

  /**
   * The polynomial factor of term i (i >= 1) in x = E / kT. It is
   * non-negative for x >= 0, and the photon-number factor, which is
   * ((i x + 1)^2 + 1) / i^3, is positive for every x.
   */
  function Polynomial(f: Family, x: real, i: nat): (p: real)
    requires i >= 1
    ensures x >= 0.0 ==> p >= 0.0
    ensures f == PhotonNumber ==> p > 0.0
  {
    var r := i as real;
    FactorsNonNegative(x, r);
    PhotonFactorPositive(x, r);
    match f
    case PhotonNumber => x * x / r + 2.0 * x / (r * r) + 2.0 / (r * r * r)
    case EnergyFlux => x * x * x / r + 3.0 * x * x / (r * r) + 6.0 * x / (r * r * r) + 6.0 / (r * r * r * r)
  }

  lemma FactorsNonNegative(x: real, r: real)
    requires r >= 1.0
    ensures x >= 0.0 ==> x * x / r + 2.0 * x / (r * r) + 2.0 / (r * r * r) >= 0.0
    ensures x >= 0.0 ==> x * x * x / r + 3.0 * x * x / (r * r) + 6.0 * x / (r * r * r) + 6.0 / (r * r * r * r) >= 0.0
  {
    assert r * r >= 1.0 && r * r * r >= 1.0 && r * r * r * r >= 1.0;
    if x >= 0.0 {
      assert x * x >= 0.0 && x * x * x >= 0.0;
    }
  }

  lemma PhotonFactorPositive(x: real, r: real)
    requires r >= 1.0
    ensures x * x / r + 2.0 * x / (r * r) + 2.0 / (r * r * r) > 0.0
  {
    var r3 := r * r * r;
    assert r3 > 0.0;
    calc {
      x * x / r + 2.0 * x / (r * r) + 2.0 / r3;
      (x * x * r * r) / r3 + (2.0 * x * r) / r3 + 2.0 / r3;
      ((x * r + 1.0) * (x * r + 1.0) + 1.0) / r3;
    }
    SquareNonNegative(x * r + 1.0);
  }

  /** Term i of the series: the polynomial factor times exp(-i x). */
  function Term(f: Family, x: real, exp: real -> real, i: nat): real
    requires i >= 1
  {
    Polynomial(f, x, i) * exp(-(i as real) * x)
  }

  /** The running sum after the terms 1..n have been added, in that order. */
  function PartialSum(f: Family, x: real, exp: real -> real, n: nat): real {
    if n == 0 then 0.0 else PartialSum(f, x, exp, n - 1) + Term(f, x, exp, n)
  }

  /**
   * The value of `difference` when the loop counter is i >= 2: the change of
   * the sum caused by the term added last, term i - 1.
   */
  function Difference(f: Family, x: real, exp: real -> real, i: nat): real
    requires i >= 2
  {
    Term(f, x, exp, i - 1)
  }

  /**
   * The loop condition `(difference > tolerance and i < max_iter) or i < min_iter`:
   * the first iterations are forced, the cap always ends the loop, and in
   * between the difference decides.
   */
  function Continues(difference: real, i: int): (c: bool)
    ensures i < MinIter ==> c
    ensures i >= MaxIter ==> !c
  {
    (difference > Tolerance && i < MaxIter) || i < MinIter
  }

  /**
   * The first counter value n >= i at which the loop condition fails, for a
   * loop that has reached counter i >= min_iter.
   */
  function ExitFrom(f: Family, x: real, exp: real -> real, i: nat): (n: nat)
    requires MinIter <= i <= MaxIter
    ensures i <= n <= MaxIter
    ensures !Continues(Difference(f, x, exp, n), n)
    ensures forall j :: i <= j < n ==> Continues(Difference(f, x, exp, j), j)
    decreases MaxIter - i
  {
    if Continues(Difference(f, x, exp, i), i) then ExitFrom(f, x, exp, i + 1) else i
  }

  /** The counter value at which the series loop stops. */
  function ExitIndex(f: Family, x: real, exp: real -> real): nat {
    ExitFrom(f, x, exp, MinIter)
  }

  /** The value a series loop returns: the sum of terms 1 .. ExitIndex - 1. */
  function Series(f: Family, x: real, exp: real -> real): real {
    PartialSum(f, x, exp, ExitIndex(f, x, exp) - 1)
  }

  /**
   * The series loop that every routine of the module writes out: `sum`,
   * `old_sum`, `difference` and `i` updated until the loop condition fails.
   * Its result does not depend on the starting `difference` (1.0 in
   * `one_sided_black_body_flux`, 1.0E10 elsewhere).
   */
  method TruncatedSeries(f: Family, x: real, exp: real -> real, initialDifference: real) returns (sum: real)
    ensures sum == Series(f, x, exp)
  {
    var difference := initialDifference;
    sum := 0.0;
    var oldSum := 0.0;
    var i: nat := 1;
    while Continues(difference, i)
      invariant 1 <= i <= MaxIter
      invariant sum == PartialSum(f, x, exp, i - 1)
      invariant i >= 2 ==> difference == Difference(f, x, exp, i)
      invariant forall j :: MinIter <= j < i ==> Continues(Difference(f, x, exp, j), j)
      decreases MaxIter - i
    {
      oldSum := sum;
      sum := sum + Term(f, x, exp, i);
      difference := sum - oldSum;
      i := i + 1;
    }
  }

  /** The loop adds at least the terms 1, 2, 3 and at most 512 terms; it stops early only on a small difference. */
  lemma ExitBounds(f: Family, x: real, exp: real -> real)
    ensures MinIter <= ExitIndex(f, x, exp) <= MaxIter
    ensures ExitIndex(f, x, exp) < MaxIter ==> Difference(f, x, exp, ExitIndex(f, x, exp)) <= Tolerance
    ensures forall j :: MinIter <= j < ExitIndex(f, x, exp) ==> Difference(f, x, exp, j) > Tolerance
  {
  }

  /** The only property of the exponential the model relies on. */
  ghost predicate IsPositive(exp: real -> real) {
    forall y :: exp(y) > 0.0
  }

  lemma SquareNonNegative(y: real)
    ensures y * y >= 0.0
  {
    if y < 0.0 {
      assert y * y == (-y) * (-y);
    }
  }

  lemma TermNonNegative(f: Family, x: real, exp: real -> real, i: nat)
    requires i >= 1 && x >= 0.0 && IsPositive(exp)
    ensures Term(f, x, exp, i) >= 0.0
  {
    assert Polynomial(f, x, i) >= 0.0;
    assert exp(-(i as real) * x) > 0.0;
  }

  /** For x >= 0 every term is non-negative, so the running sum never decreases. */
  lemma {:induction false} PartialSumMonotone(f: Family, x: real, exp: real -> real, m: nat, n: nat)
    requires x >= 0.0 && IsPositive(exp)
    requires m <= n
    ensures PartialSum(f, x, exp, m) <= PartialSum(f, x, exp, n)
  {
    if m < n {
      PartialSumMonotone(f, x, exp, m, n - 1);
      TermNonNegative(f, x, exp, n);
    }
  }

  /** For x >= 0 the returned series value is non-negative and at least every earlier running sum. */
  lemma SeriesNonNegative(f: Family, x: real, exp: real -> real, m: nat)
    requires x >= 0.0 && IsPositive(exp)
    requires m < ExitIndex(f, x, exp)
    ensures 0.0 <= PartialSum(f, x, exp, m) <= Series(f, x, exp)
  {
    PartialSumMonotone(f, x, exp, 0, m);
    PartialSumMonotone(f, x, exp, m, ExitIndex(f, x, exp) - 1);
  }

  lemma {:induction false} PhotonPartialSumPositive(x: real, exp: real -> real, n: nat)
    requires IsPositive(exp) && n >= 1
    ensures PartialSum(PhotonNumber, x, exp, n) > 0.0
  {
    assert Polynomial(PhotonNumber, x, n) > 0.0;
    assert exp(-(n as real) * x) > 0.0;
    if n > 1 {
      PhotonPartialSumPositive(x, exp, n - 1);
    }
  }

  /** The photon-number series is positive for every x, because at least three positive terms are added. */
  lemma PhotonSeriesPositive(x: real, exp: real -> real)
    requires IsPositive(exp)
    ensures Series(PhotonNumber, x, exp) > 0.0
  {
    PhotonPartialSumPositive(x, exp, ExitIndex(PhotonNumber, x, exp) - 1);
  }

  /** `one_sided_black_body_flux`: the energy-flux series at x, starting from difference 1.0. */
  method OneSidedBlackBodyFlux(x: real, exp: real -> real) returns (sum: real)
    ensures sum == Series(EnergyFlux, x, exp)
    ensures x >= 0.0 && IsPositive(exp) ==> sum >= 0.0
  {
    sum := TruncatedSeries(EnergyFlux, x, exp, 1.0);
    if x >= 0.0 {
      if IsPositive(exp) {
        SeriesNonNegative(EnergyFlux, x, exp, 0);
      }
    }
  }

  /** `photon_radiance`: the photon-number series at x, starting from difference 1.0E10. */
  method PhotonRadiance(x: real, exp: real -> real) returns (sum: real)
    ensures sum == Series(PhotonNumber, x, exp)
    ensures IsPositive(exp) ==> sum > 0.0
  {
    sum := TruncatedSeries(PhotonNumber, x, exp, 1.0e10);
    if IsPositive(exp) {
      PhotonSeriesPositive(x, exp);
    }
  }

  /** The dimensionless band flux between x1 and x2: the difference of two one-sided integrals. */
  function BandFlux(x1: real, x2: real, exp: real -> real): real {
    Series(EnergyFlux, x1, exp) - Series(EnergyFlux, x2, exp)
  }

  /** `black_body_flux`: F(x1) - F(x2) through two runs of the one-sided loop. */
  method BlackBodyFlux(x1: real, x2: real, exp: real -> real) returns (flux: real)
    ensures flux == BandFlux(x1, x2, exp)
    ensures x1 == x2 ==> flux == 0.0
  {
    var atX1 := OneSidedBlackBodyFlux(x1, exp);
    var atX2 := OneSidedBlackBodyFlux(x2, exp);
    flux := atX1 - atX2;
  }

  /** Swapping the bounds negates the band flux; equal bounds give zero. */
  lemma BandFluxAntisymmetric(x1: real, x2: real, exp: real -> real)
    ensures BandFlux(x1, x2, exp) == -BandFlux(x2, x1, exp)
    ensures BandFlux(x1, x1, exp) == 0.0
  {
  }

  /**
   * A physical result; the ZeroDivisionError that Python raises on a division
   * by a Python float zero; or the NaN or infinity that a numpy float64
   * division by zero gives instead (with only a RuntimeWarning).
   */
  datatype Outcome = Value(v: real) | ZeroDivisionError | Undefined

  /** `2 k^3 T^3 / (h^3 c^2)`: turns the photon-number series into a photon flux. */
  function NumberScale(t: real): real {
    2.0 * (KBoltz * KBoltz * KBoltz) * (t * t * t) / ((Planck * Planck * Planck) * (SpeedOfLight * SpeedOfLight))
  }

  /** `2 k^4 T^4 / (h^3 c^2)`: turns the energy-flux series into an energy flux. */
  function EnergyScale(t: real): real {
    2.0 * (KBoltz * KBoltz * KBoltz * KBoltz) * (t * t * t * t) / ((Planck * Planck * Planck) * (SpeedOfLight * SpeedOfLight))
  }

  /** A dimensionless integral in physical units: the normalisation factor A times the series value. */
  function Normalised(scale: real, integral: real): real {
    scale * integral
  }

  /** x = (E / eV_erg) / (k T) for an energy E given in eV. */
  function Dimensionless(e: real, t: real): real
    requires t != 0.0
  {
    (e / EvPerErg) / (KBoltz * t)
  }

  /** The photon flux above threshold E (in eV) of a blackbody at temperature T. */
  function PhotonFluxAbove(e: real, t: real, exp: real -> real): Outcome {
    if t == 0.0 then ZeroDivisionError
    else Value(Normalised(NumberScale(t), Series(PhotonNumber, Dimensionless(e, t), exp)))
  }

  /** The energy flux between E1 and E2 (in eV) of a blackbody at temperature T. */
  function EnergyFluxBetween(e1: real, e2: real, t: real, exp: real -> real): Outcome {
    if t == 0.0 then ZeroDivisionError
    else Value(Normalised(EnergyScale(t), BandFlux(Dimensionless(e1, t), Dimensionless(e2, t), exp)))
  }

  /** `compute_blackbody_q1`: the photon flux above the HeI ionisation energy. */
  method ComputeBlackbodyQ1(t: real, exp: real -> real) returns (q: Outcome)
    ensures q == PhotonFluxAbove(EHeI, t, exp)
  {
    if t == 0.0 {
      return ZeroDivisionError;
    }
    var x := Dimensionless(EHeI, t);
    var q1 := PhotonRadiance(x, exp);
    var a := NumberScale(t);
    q := Value(Normalised(a, q1));
  }

  /** `compute_blackbody_q0`: the photon flux above the HI ionisation energy, the same computation at another threshold. */
  method ComputeBlackbodyQ0(t: real, exp: real -> real) returns (q: Outcome)
    ensures q == PhotonFluxAbove(EHI, t, exp)
  {
    if t == 0.0 {
      return ZeroDivisionError;
    }
    var x := Dimensionless(EHI, t);
    var q0 := PhotonRadiance(x, exp);
    var a := NumberScale(t);
    q := Value(Normalised(a, q0));
  }

  /** A positive temperature gives a positive photon flux above any threshold. */
  lemma PhotonFluxPositive(e: real, t: real, exp: real -> real)
    requires t > 0.0 && IsPositive(exp)
    ensures PhotonFluxAbove(e, t, exp).Value? && PhotonFluxAbove(e, t, exp).v > 0.0
  {
    PhotonSeriesPositive(Dimensionless(e, t), exp);
    NumberScalePositive(t);
    NormalisedPositive(NumberScale(t), Series(PhotonNumber, Dimensionless(e, t), exp));
  }

  lemma NumberScalePositive(t: real)
    requires t > 0.0
    ensures NumberScale(t) > 0.0
  {
    assert t * t * t > 0.0;
  }

  lemma NormalisedPositive(scale: real, integral: real)
    requires scale > 0.0 && integral > 0.0
    ensures Normalised(scale, integral) > 0.0
  {
  }

  /** `BB_flux`: the energy flux between E1 and E2 (in eV), with x = E / (k T) / eV_erg. */
  method BBFlux(e1: real, e2: real, t: real, exp: real -> real) returns (flux: Outcome)
    ensures flux == EnergyFluxBetween(e1, e2, t, exp)
  {
    if t == 0.0 {
      return ZeroDivisionError;
    }
    var x1 := e1 / (KBoltz * t) / EvPerErg;
    var x2 := e2 / (KBoltz * t) / EvPerErg;
    SameDimensionless(e1, t);
    SameDimensionless(e2, t);
    var a := EnergyScale(t);
    var band := BlackBodyFlux(x1, x2, exp);
    flux := Value(Normalised(a, band));
  }

  /** Dividing by k T before or after converting from eV gives the same x. */
  lemma SameDimensionless(e: real, t: real)
    requires t != 0.0
    ensures e / (KBoltz * t) / EvPerErg == Dimensionless(e, t)
  {
    var k := KBoltz * t;
    assert e / k / EvPerErg == e / (k * EvPerErg);
    assert (e / EvPerErg) / k == e / (EvPerErg * k);
  }

  /** `fuv_flux_blackbody`: the energy flux between 6 eV and the HI ionisation energy. */
  method FuvFluxBlackbody(t: real, exp: real -> real) returns (flux: Outcome)
    ensures flux == EnergyFluxBetween(6.0, EHI, t, exp)
  {
    if t == 0.0 {
      return ZeroDivisionError;
    }
    var x2 := Dimensionless(EHI, t);
    var x1 := Dimensionless(6.0, t);
    var a := EnergyScale(t);
    var band := BlackBodyFlux(x1, x2, exp);
    flux := Value(Normalised(a, band));
  }

  /** `LW_flux_blackbody`: the energy flux between 11.2 eV and the HI ionisation energy. */
  method LWFluxBlackbody(t: real, exp: real -> real) returns (flux: Outcome)
    ensures flux == EnergyFluxBetween(11.2, EHI, t, exp)
  {
    if t == 0.0 {
      return ZeroDivisionError;
    }
    var x2 := Dimensionless(EHI, t);
    var x1 := Dimensionless(11.2, t);
    var a := EnergyScale(t);
    var band := BlackBodyFlux(x1, x2, exp);
    flux := Value(Normalised(a, band));
  }

  /**
   * The mean photon energy above E (in erg): k T times the energy-flux series
   * over the photon-number series, both at x = E / (k T). The sums are numpy
   * float64 values, since every term carries an `np.exp` factor, so a zero
   * photon sum makes the ratio NaN or infinite rather than raising.
   */
  function MeanEnergyAbove(e: real, t: real, exp: real -> real): Outcome {
    if t == 0.0 then ZeroDivisionError
    else
      var x := e / (KBoltz * t);
      var photons := Series(PhotonNumber, x, exp);
      if photons == 0.0 then Undefined
      else Value(Normalised(KBoltz * t, Series(EnergyFlux, x, exp) / photons))
  }

  /**
   * `average_energy`: its two loops are the series loops of
   * `one_sided_black_body_flux` and `photon_radiance` at the same x. For a
   * nonzero temperature and a positive exponential the ratio is always
   * defined, since the photon series is positive.
   */
  method AverageEnergy(e: real, t: real, exp: real -> real) returns (mean: Outcome)
    ensures mean == MeanEnergyAbove(e, t, exp)
    ensures t != 0.0 && IsPositive(exp) ==> mean.Value?
  {
    if t == 0.0 {
      return ZeroDivisionError;
    }
    var x := e / (KBoltz * t);
    var uDensSum := TruncatedSeries(EnergyFlux, x, exp, 1.0e10);
    var sum := TruncatedSeries(PhotonNumber, x, exp, 1.0e10);
    if IsPositive(exp) {
      PhotonSeriesPositive(x, exp);
    }
    if sum == 0.0 {
      return Undefined;
    }
    mean := Value(Normalised(KBoltz * t, uDensSum / sum));
  }

  /** With an exponential that is zero everywhere, every running sum is zero. */
  lemma {:induction false} VanishingPartialSum(f: Family, x: real, exp: real -> real, n: nat)
    requires forall y :: exp(y) == 0.0
    ensures PartialSum(f, x, exp, n) == 0.0
  {
    if n > 0 {
      VanishingPartialSum(f, x, exp, n - 1);
      assert exp(-(n as real) * x) == 0.0;
    }
  }

  /**
   * When every `np.exp(-i*x)` underflows to 0.0 (x beyond about 745), both
   * sums are zero and the mean energy is undefined, even at a nonzero
   * temperature.
   */
  lemma MeanEnergyUndefinedOnUnderflow(e: real, t: real, exp: real -> real)
    requires t != 0.0
    requires forall y :: exp(y) == 0.0
    ensures MeanEnergyAbove(e, t, exp) == Undefined
  {
    var x := e / (KBoltz * t);
    VanishingPartialSum(PhotonNumber, x, exp, ExitIndex(PhotonNumber, x, exp) - 1);
  }
}
