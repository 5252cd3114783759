/**
 * Semiconductor radiation detector: expected and noisy counts, detection
 * above background, and the coarse isotope hint from the position of the
 * spectral peak.
 */
module RadiationSensor {
  import opened CLib

  /** Counts per μSv. */
  const Sensitivity: real := 150.0
  /** Background dose rate, in μSv/h. */
  const Background: real := 0.15
  /** Smallest detectable dose rate, in μSv/h. */
  const MinDetection: real := 0.05
  /** Fewest spectrum counts with which an isotope is named. */
  const IsoThresholdCounts: int := 10

  /** Counts expected at `level` μSv/h over `integrationTime` seconds: Sensitivity per hour, none for a zero rate or time. */
  function ExpectedCounts(level: real, integrationTime: real): (expected: real)
    ensures integrationTime == 3600.0 ==> expected == level * Sensitivity
    ensures level >= 0.0 && integrationTime >= 0.0 ==> expected >= 0.0
    ensures level == 0.0 || integrationTime == 0.0 ==> expected == 0.0
  {
    assert level >= 0.0 && integrationTime >= 0.0 ==> level * Sensitivity * (integrationTime / 3600.0) >= 0.0 by {
      if level >= 0.0 && integrationTime >= 0.0 {
        ProductNonNegative(level * Sensitivity, integrationTime / 3600.0);
      }
    }
    level * Sensitivity * (integrationTime / 3600.0)
  }

  /**
   * Counts reported for one integration. `stdDev` stands for the square
   * root of the expected count, which this model does not compute; the
   * draw `r` scales it into the statistical variation. Whatever the
   * variation, the count is the truncation of expected + variation + 0.5,
   * floored at zero.
   */
  function SimulateRadiationCounts(level: real, integrationTime: real, stdDev: real, r: Draw): (counts: int)
    ensures counts >= 0
    ensures var x := ExpectedCounts(level, integrationTime) + Offset(r) as real / 100.0 * stdDev + 0.5;
      (x >= 1.0 ==> counts as real <= x < counts as real + 1.0) && (x < 1.0 ==> counts == 0)
  {
    var expected := ExpectedCounts(level, integrationTime);
    var variation := Offset(r) as real / 100.0 * stdDev;
    var counts := Trunc(expected + variation + 0.5);
    if counts > 0 then counts else 0
  }

  /** With the draw centred the count is the expected count rounded to the nearest integer. */
  lemma CentredCounts(level: real, integrationTime: real, stdDev: real)
    requires ExpectedCounts(level, integrationTime) >= 0.0
    ensures SimulateRadiationCounts(level, integrationTime, stdDev, Centre) == Round(ExpectedCounts(level, integrationTime))
  {
  }

  /**
   * Radiation is reported when the dose rate is more than 1.5 times the
   * background and above the minimum detectable rate; over the reals both
   * together mean a rate above 0.225 μSv/h.
   */
  function DetectRadiation(level: real): (detected: bool)
    ensures detected <==> level > 0.225
  {
    var signalToBackground := level / Background;
    signalToBackground > 1.5 && level > MinDetection
  }

  /** The rate of 1.5 times background is itself not reported; a little above it is. */
  lemma DetectionBoundary()
    ensures !DetectRadiation(0.225) && DetectRadiation(0.226)
    ensures DetectRadiation(0.3) && !DetectRadiation(0.05)
  {
  }

  /** Total of a spectrum, summed from the front as the source's loop does; never negative when no bin is. */
  function Sum(s: seq<int>): (total: int)
    ensures (forall i :: 0 <= i < |s| ==> s[i] >= 0) ==> total >= 0
  {
    if s == [] then 0 else Sum(s[..|s| - 1]) + s[|s| - 1]
  }

  /**
   * Index of the spectrum's peak as the source's scan finds it: a later bin
   * replaces the current peak only when strictly larger.
   */
  function PeakIndex(s: seq<int>): (p: nat)
    requires |s| > 0
    ensures p < |s|
  {
    if |s| == 1 then 0
    else
      var p := PeakIndex(s[..|s| - 1]);
      if s[|s| - 1] > s[p] then |s| - 1 else p
  }

  /** The peak holds the maximum, and it is the first bin that does. */
  lemma {:induction false} PeakIsFirstMaximum(s: seq<int>)
    requires |s| > 0
    ensures forall j :: 0 <= j < |s| ==> s[j] <= s[PeakIndex(s)]
    ensures forall j :: 0 <= j < PeakIndex(s) ==> s[j] < s[PeakIndex(s)]
  {
    if |s| > 1 {
      var front := s[..|s| - 1];
      PeakIsFirstMaximum(front);
      assert forall j :: 0 <= j < |front| ==> s[j] == front[j];
    }
  }

  /** The energy band of a peak: first quarter 1, second quarter 2, upper half 3 (integer division). */
  function Band(peak: int, size: int): (band: int)
    ensures 1 <= band <= 3
  {
    if peak < size / 4 then 1 else if peak < size / 2 then 2 else 3
  }

  /** A peak further up the spectrum never yields a lower band. */
  lemma BandMonotone(peak1: int, peak2: int, size: int)
    requires peak1 <= peak2
    ensures Band(peak1, size) <= Band(peak2, size)
  {
  }

  /** The isotope hint of a spectrum: 0 when too few counts, otherwise the band of its peak. */
  function Isotope(s: seq<int>): (isotope: int)
    ensures isotope == 0 <==> Sum(s) < IsoThresholdCounts
    ensures 0 <= isotope <= 3
  {
    if Sum(s) < IsoThresholdCounts then 0
    else
      assert s != [];
      Band(PeakIndex(s), |s|)
  }

  /**
   * The source's two scans over the first `size` bins: the total, then the
   * peak. The spectrum is only read. A non-positive size leaves both loops
   * empty, so too few counts are found.
   */
  method IdentifyIsotope(spectrum: array<int>, size: int) returns (isotope: int)
    requires size <= spectrum.Length
    ensures size <= 0 ==> isotope == 0
    ensures size > 0 ==> isotope == Isotope(spectrum[..size])
  {
    var used := if size < 0 then 0 else size;
    var total := 0;
    var i := 0;
    while i < size
      invariant 0 <= i <= used
      invariant total == Sum(spectrum[..i])
    {
      assert spectrum[..i + 1][..i] == spectrum[..i];
      total := total + spectrum[i];
      i := i + 1;
    }
    if total < IsoThresholdCounts {
      return 0;
    }
    assert size > 0 && i == size;
    ghost var bins := spectrum[..size];
    assert Sum(bins) >= IsoThresholdCounts;
    var peak := 0;
    i := 1;
    while i < size
      invariant 1 <= i <= size
      invariant peak == PeakIndex(spectrum[..i])
    {
      ghost var front := spectrum[..i + 1];
      assert front[..i] == spectrum[..i];
      assert front[i] == spectrum[i] && front[peak] == spectrum[peak];
      if spectrum[i] > spectrum[peak] {
        peak := i;
      }
      i := i + 1;
    }
    assert spectrum[..i] == bins;
    assert Isotope(bins) == Band(peak, size);
    if peak < size / 4 {
      return 1;
    }
    if peak < size / 2 {
      return 2;
    }
    return 3;
  }
}
