/**
  Pollutant classification of the browser client: each pollutant concentration
  (μg/m³) falls into one of three bands, cut at two inclusive upper breakpoints.
  Concentrations are compared as exact reals.
 */
module Classifier {

  /** The three labels the client shows: ÓTIMO (good), REGULAR (moderate), RUIM (poor). */
  datatype Band = Otimo | Regular | Ruim

  /** The text the client writes for a band. */
  function Label(b: Band): (s: string)
    ensures |s| > 0
  {
    match b
    case Otimo => "ÓTIMO"
    case Regular => "REGULAR"
    case Ruim => "RUIM"
  }

  /** Severity order of the bands: a higher rank is worse air. */
  function Rank(b: Band): (n: nat)
    ensures n <= 2
  {
    match b
    case Otimo => 0
    case Regular => 1
    case Ruim => 2
  }

  /** Two ascending inclusive breakpoints: at most `good` is ÓTIMO, at most `moderate` is REGULAR. */
  function Banded(v: real, good: real, moderate: real): Band
  {
    if v <= good then Otimo
    else if v <= moderate then Regular
    else Ruim
  }

  const Pm25Good: real := 12.0
  const Pm25Moderate: real := 35.4
  const No2Good: real := 100.0
  const No2Moderate: real := 200.0
  const O3Good: real := 120.0
  const O3Moderate: real := 180.0

  function ClassifyPM25(v: real): Band { Banded(v, Pm25Good, Pm25Moderate) }
  function ClassifyNO2(v: real): Band { Banded(v, No2Good, No2Moderate) }
  function ClassifyO3(v: real): Band { Banded(v, O3Good, O3Moderate) }

  /** Distinct bands are written as distinct texts, so the client's string test for "RUIM" means band RUIM. */
  lemma LabelInjective(a: Band, b: Band)
    ensures Label(a) == Label(b) <==> a == b
  {
    if a != b {
      assert Label(a)[0] != Label(b)[0] || |Label(a)| != |Label(b)|;
    }
  }

  /** For ordered breakpoints each band is exactly the interval it names, in both directions. */
  lemma BandedIntervals(v: real, good: real, moderate: real)
    requires good <= moderate
    ensures Banded(v, good, moderate) == Otimo <==> v <= good
    ensures Banded(v, good, moderate) == Regular <==> good < v <= moderate
    ensures Banded(v, good, moderate) == Ruim <==> moderate < v
  {
  }

  lemma PM25Bands(v: real)
    ensures ClassifyPM25(v) == Otimo <==> v <= 12.0
    ensures ClassifyPM25(v) == Regular <==> 12.0 < v <= 35.4
    ensures ClassifyPM25(v) == Ruim <==> v > 35.4
  {
    BandedIntervals(v, Pm25Good, Pm25Moderate);
  }

  lemma NO2Bands(v: real)
    ensures ClassifyNO2(v) == Otimo <==> v <= 100.0
    ensures ClassifyNO2(v) == Regular <==> 100.0 < v <= 200.0
    ensures ClassifyNO2(v) == Ruim <==> v > 200.0
  {
    BandedIntervals(v, No2Good, No2Moderate);
  }

  lemma O3Bands(v: real)
    ensures ClassifyO3(v) == Otimo <==> v <= 120.0
    ensures ClassifyO3(v) == Regular <==> 120.0 < v <= 180.0
    ensures ClassifyO3(v) == Ruim <==> v > 180.0
  {
    BandedIntervals(v, O3Good, O3Moderate);
  }

  /** A higher concentration never gets a better label. */
  lemma BandedMonotone(v1: real, v2: real, good: real, moderate: real)
    requires good <= moderate
    requires v1 <= v2
    ensures Rank(Banded(v1, good, moderate)) <= Rank(Banded(v2, good, moderate))
  {
  }

  lemma ClassifiersMonotone(v1: real, v2: real)
    requires v1 <= v2
    ensures Rank(ClassifyPM25(v1)) <= Rank(ClassifyPM25(v2))
    ensures Rank(ClassifyNO2(v1)) <= Rank(ClassifyNO2(v2))
    ensures Rank(ClassifyO3(v1)) <= Rank(ClassifyO3(v2))
  {
    BandedMonotone(v1, v2, Pm25Good, Pm25Moderate);
    BandedMonotone(v1, v2, No2Good, No2Moderate);
    BandedMonotone(v1, v2, O3Good, O3Moderate);
  }

  /** Breakpoints belong to the lower band: 12.0 is still ÓTIMO, 12.01 is already REGULAR. */
  lemma PM25Boundary()
    ensures ClassifyPM25(12.0) == Otimo
    ensures ClassifyPM25(12.01) == Regular
    ensures ClassifyPM25(35.4) == Regular
    ensures ClassifyPM25(35.41) == Ruim
  {
  }
}
