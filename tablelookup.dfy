/** The table lookups of tr55/tablelookup.py, written over a `SampleYear`
    record and the land-use table of module Tables.

    A date is its ordinal day (0 = January 1) in the fixed year 1 that every
    lookup first normalises the date into. */
module TableLookup {
  import opened Wrappers
  import opened Tables

  /** Python's `a // n`: the quotient rounded towards minus infinity. */
  function PyDiv(a: int, n: int): int
    requires n != 0
  {
    if n > 0 then a / n else (-a) / (-n)
  }

  /** Python's `a % n`: the remainder has the sign of the divisor and
      completes floor division. */
  function PyMod(a: int, n: int): (r: int)
    requires n != 0
    ensures n > 0 ==> 0 <= r < n
    ensures n < 0 ==> n < r <= 0
    ensures a == PyDiv(a, n) * n + r
  {
    if n > 0 then a % n else -((-a) % (-n))
  }

  lemma MulAtLeast(k: int, n: int)
    requires k >= 1 && n > 0
    ensures k * n >= n
  {
  }

  /** Euclidean remainders are unique: any split a == q * n + r with
      0 <= r < n has r == a % n. */
  lemma ModUnique(a: int, n: int, q: int, r: int)
    requires n > 0 && a == q * n + r && 0 <= r < n
    ensures a % n == r
  {
    var q', r' := a / n, a % n;
    assert a == q' * n + r';
    assert (q - q') * n == q * n - q' * n;
    assert (q' - q) * n == q' * n - q * n;
    if q > q' {
      MulAtLeast(q - q', n);
    } else if q < q' {
      MulAtLeast(q' - q, n);
    }
  }

  /** Adding the modulus does not change a Python remainder. */
  lemma PyModShift(a: int, n: int)
    requires n != 0
    ensures PyMod(a + n, n) == PyMod(a, n)
  {
    if n > 0 {
      assert (a / n + 1) * n == (a / n) * n + n;
      ModUnique(a + n, n, a / n + 1, a % n);
    } else {
      var m := -n;
      assert ((-a) / m + 1) * m == ((-a) / m) * m + m;
      ModUnique(-a + m, m, (-a) / m + 1, (-a) % m);
    }
  }

  /** The offset of `day` from the start of the sample year, taken modulo
      the year length: lookupP adds one year length before taking Python's
      `%`, which raises ZeroDivisionError on a zero year length. */
  function DayOffset(year: SampleYear, day: int): (r: Result<int>)
    ensures r.Success? <==> year.daysPerYear != 0
    ensures r.Success? && year.daysPerYear > 0 ==> 0 <= r.value < year.daysPerYear
    ensures r.Success? ==> r.value == PyMod(day - year.yearStart, year.daysPerYear)
  {
    if year.daysPerYear == 0 then Failure(DivisionByZero)
    else
      PyModShift(day - year.yearStart, year.daysPerYear);
      Success(PyMod(day - year.yearStart + year.daysPerYear, year.daysPerYear))
  }

  /** The depth of the run containing day `days` of the run list, found by
      subtracting run lengths in order; `None` when the runs are exhausted. */
  function RunAt(runs: seq<(int, real)>, days: int): Option<real>
  {
    if runs == [] then None
    else if 0 <= days < runs[0].0 then Some(runs[0].1)
    else RunAt(runs[1..], days - runs[0].0)
  }

  /** lookupP: the precipitation of the sample year on `day`. */
  function PrecipAt(year: SampleYear, day: int): (r: Result<real>)
    ensures year.daysPerYear == 0 ==> r == Failure(DivisionByZero)
    ensures r.Failure? ==> r.error == DivisionByZero || r.error == NoDataForDay
  {
    var offset :- DayOffset(year, day);
    match RunAt(year.precipitation, offset)
    case None => Failure(NoDataForDay)
    case Some(p) => Success(p)
  }

  /** lookupP, walking the runs and decrementing the day count. */
  method LookupP(year: SampleYear, day: int) returns (r: Result<real>)
    ensures r == PrecipAt(year, day)
  {
    if year.daysPerYear == 0 {
      return Failure(DivisionByZero);
    }
    var days := PyMod(day - year.yearStart + year.daysPerYear, year.daysPerYear);
    ghost var offset := days;
    var i := 0;
    while i < |year.precipitation|
      invariant 0 <= i <= |year.precipitation|
      invariant RunAt(year.precipitation, offset) == RunAt(year.precipitation[i..], days)
    {
      var (consecutiveDays, p) := year.precipitation[i];
      assert year.precipitation[i..][1..] == year.precipitation[i + 1..];
      if 0 <= days && days < consecutiveDays {
        return Success(p);
      }
      days := days - consecutiveDays;
      i := i + 1;
    }
    return Failure(NoDataForDay);
  }

  /** No run has a negative length. */
  predicate NonNegativeRuns(runs: seq<(int, real)>)
  {
    forall i :: 0 <= i < |runs| ==> runs[i].0 >= 0
  }

  lemma {:induction false} TotalDaysNonNegative(runs: seq<(int, real)>)
    requires NonNegativeRuns(runs)
    ensures TotalDays(runs) >= 0
  {
    if runs != [] {
      TotalDaysNonNegative(runs[1..]);
    }
  }

  /** The walk finds a run exactly for the days inside the total length. */
  lemma {:induction false} RunAtDefined(runs: seq<(int, real)>, days: int)
    requires NonNegativeRuns(runs)
    ensures RunAt(runs, days).Some? <==> 0 <= days < TotalDays(runs)
  {
    if runs != [] {
      RunAtDefined(runs[1..], days - runs[0].0);
      TotalDaysNonNegative(runs[1..]);
    }
  }

  /** A day inside run `i` (after the days of runs 0..i-1, before their
      end) gets run `i`'s depth. */
  lemma {:induction false} RunAtFindsRun(runs: seq<(int, real)>, i: int, days: int)
    requires NonNegativeRuns(runs)
    requires 0 <= i < |runs|
    requires TotalDays(runs[..i]) <= days < TotalDays(runs[..i]) + runs[i].0
    ensures RunAt(runs, days) == Some(runs[i].1)
  {
    if i == 0 {
      assert runs[..0] == [];
    } else {
      assert runs[..i][1..] == runs[1..][..i - 1];
      TotalDaysNonNegative(runs[1..][..i - 1]);
      RunAtFindsRun(runs[1..], i - 1, days - runs[0].0);
    }
  }

  /** Conversely, a depth the walk finds is the depth of a run that
      contains the day. */
  lemma {:induction false} RunAtIsARun(runs: seq<(int, real)>, days: int)
    requires NonNegativeRuns(runs)
    requires RunAt(runs, days).Some?
    ensures exists i :: 0 <= i < |runs| && TotalDays(runs[..i]) <= days < TotalDays(runs[..i]) + runs[i].0 &&
              RunAt(runs, days) == Some(runs[i].1)
  {
    if 0 <= days < runs[0].0 {
      assert runs[..0] == [];
      assert TotalDays(runs[..0]) <= days < TotalDays(runs[..0]) + runs[0].0;
    } else {
      RunAtIsARun(runs[1..], days - runs[0].0);
      var j :| 0 <= j < |runs[1..]| && TotalDays(runs[1..][..j]) <= days - runs[0].0 < TotalDays(runs[1..][..j]) + runs[1..][j].0 &&
                RunAt(runs[1..], days - runs[0].0) == Some(runs[1..][j].1);
      assert runs[..j + 1][1..] == runs[1..][..j];
      assert TotalDays(runs[..j + 1]) <= days < TotalDays(runs[..j + 1]) + runs[j + 1].0;
    }
  }

  /** The walk over a concatenation: the first part, or the second part
      with the first part's days subtracted. */
  lemma {:induction false} RunAtAppend(a: seq<(int, real)>, b: seq<(int, real)>, days: int)
    requires NonNegativeRuns(a)
    ensures RunAt(a + b, days) ==
              if 0 <= days < TotalDays(a) then RunAt(a, days) else RunAt(b, days - TotalDays(a))
  {
    if a == [] {
      assert a + b == b;
    } else {
      assert (a + b)[1..] == a[1..] + b;
      RunAtAppend(a[1..], b, days - a[0].0);
      TotalDaysNonNegative(a[1..]);
    }
  }

  /** When the runs cover the year exactly, every day has a precipitation
      and the offset of `day` names a run. */
  lemma PrecipDefinedForEveryDay(year: SampleYear, day: int)
    requires year.daysPerYear > 0
    requires NonNegativeRuns(year.precipitation)
    requires TotalDays(year.precipitation) == year.daysPerYear
    ensures PrecipAt(year, day).Success?
  {
    RunAtDefined(year.precipitation, DayOffset(year, day).value);
  }

  lemma PositiveRunsNonNegative(runs: seq<(int, real)>)
    requires PositiveRuns(runs)
    ensures NonNegativeRuns(runs)
  {
  }

  /** Every day of any year has a precipitation in SAMPLE_YEAR. */
  lemma SampleYearPrecipDefined(day: int)
    ensures PrecipAt(SAMPLE_YEAR, day).Success?
  {
    SampleYearRunsCoverYear();
    PrecipDefinedForEveryDay(SAMPLE_YEAR, day);
  }

  /** Days 243 .. 364 of the sample year fall in its last run, of 122 dry days. */
  lemma SampleYearLastRun(days: int)
    requires 243 <= days < 365
    ensures RunAt(PRECIPITATION, days) == Some(0.0)
  {
    SampleYearRunsCoverYear();
    assert PRECIPITATION == PRECIPITATION[..90] + [(122, 0.0)];
    TotalDaysAppend(PRECIPITATION[..90], [(122, 0.0)]);
    RunAtFindsRun(PRECIPITATION, 90, days);
  }

  /** lookupP's spot checks on the sample year: the year start, 2/12, 2/15,
      2/19 and the last day. */
  lemma LookupPSpotChecks()
    ensures PrecipAt(SAMPLE_YEAR, DayOfYear(10, 15)) == Success(0.0)
    ensures PrecipAt(SAMPLE_YEAR, DayOfYear(2, 12)) == Success(0.01)
    ensures PrecipAt(SAMPLE_YEAR, DayOfYear(2, 15)) == Success(0.01)
    ensures PrecipAt(SAMPLE_YEAR, DayOfYear(2, 19)) == Success(0.02)
    ensures PrecipAt(SAMPLE_YEAR, DayOfYear(10, 14)) == Success(0.0)
  {
    SampleYearRunsCoverYear();
    assert PRECIPITATION[..1] == [(120, 0.0)];
    assert PRECIPITATION[..2] == [(120, 0.0), (7, 0.01)];
    assert PRECIPITATION[2] == (4, 0.02);
    TotalDaysOfBlock(PRECIPITATION[..2]);
    RunAtFindsRun(PRECIPITATION, 0, 0);
    RunAtFindsRun(PRECIPITATION, 1, 120);
    RunAtFindsRun(PRECIPITATION, 1, 123);
    RunAtFindsRun(PRECIPITATION, 2, 127);
    SampleYearLastRun(364);
  }

  /** Whether `day` lies in the growing season, both ends included. */
  predicate InGrowingSeason(year: SampleYear, day: int)
  {
    year.growingStart <= day <= year.growingEnd
  }

  /** lookupET: the season's maximum evapotranspiration scaled by the land
      use's landscape coefficient ki. */
  function LookupET(year: SampleYear, day: int, landUse: Option<LandUse>): (r: Result<real>)
    ensures r.Success? <==> landUse.Some?
    ensures r.Failure? ==> r.error == UnknownLandUse
  {
    var etMax := if InGrowingSeason(year, day) then year.growingETmax else year.nongrowingETmax;
    match landUse
    case None => Failure(UnknownLandUse)
    case Some(lu) => Success(etMax * Values(lu).ki)
  }

  /** In the sample year the evapotranspiration of a land use lies between 0
      and the growing-season maximum 0.207: it is 0.207 * ki in season and 0
      off season. */
  lemma SampleYearETBounds(day: int, lu: LandUse)
    ensures 0.0 <= LookupET(SAMPLE_YEAR, day, Some(lu)).value <= 0.207
    ensures InGrowingSeason(SAMPLE_YEAR, day) ==> LookupET(SAMPLE_YEAR, day, Some(lu)).value == 0.207 * Values(lu).ki
    ensures !InGrowingSeason(SAMPLE_YEAR, day) ==> LookupET(SAMPLE_YEAR, day, Some(lu)).value == 0.0
  {
    KiInUnitRange();
  }

  /** lookupET's spot checks: woody_wetland on the first and last day of the
      growing season and on the days just outside it, commercial on 6/15. */
  lemma LookupETSpotChecks()
    ensures LookupET(SAMPLE_YEAR, DayOfYear(4, 15), LandUseNamed("woody_wetland")) == Success(0.207)
    ensures LookupET(SAMPLE_YEAR, DayOfYear(10, 14), LandUseNamed("woody_wetland")) == Success(0.207)
    ensures LookupET(SAMPLE_YEAR, DayOfYear(6, 15), LandUseNamed("commercial")).value > 0.0
    ensures LookupET(SAMPLE_YEAR, DayOfYear(4, 14), LandUseNamed("woody_wetland")) == Success(0.0)
    ensures LookupET(SAMPLE_YEAR, DayOfYear(10, 15), LandUseNamed("woody_wetland")) == Success(0.0)
  {
  }

  /** lookupCN: the curve number of `landUse` on soil group `soil`. */
  function LookupCN(soil: string, landUse: Option<LandUse>): (r: Result<int>)
    ensures r.Success? <==> soil in SOIL_GROUPS && landUse.Some? && Values(landUse.value).cn.Some?
    ensures r.Success? ==> 0 < r.value <= 100
    ensures r.Failure? ==> r.error == UnknownSoilOrLandUse
  {
    CurveNumbersInRange();
    CurveNumberSoilGroups();
    match landUse
    case None => Failure(UnknownSoilOrLandUse)
    case Some(lu) =>
      var cn := Values(lu).cn;
      if cn.Some? && soil in cn.value then Success(cn.value[soil]) else Failure(UnknownSoilOrLandUse)
  }

  /** lookupBMPInfiltration: the infiltration depth of BMP `landUse` on soil
      group `soil`. */
  function LookupBMPInfiltration(soil: string, landUse: Option<LandUse>): (r: Result<real>)
    ensures r.Success? <==> landUse.Some? && Values(landUse.value).infiltration.Some? &&
                            soil in Values(landUse.value).infiltration.value
    ensures r.Success? ==> r.value > 0.0
    ensures r.Failure? ==> r.error == NotBmpForSoil
  {
    InfiltrationPositive();
    match landUse
    case None => Failure(NotBmpForSoil)
    case Some(lu) =>
      var inf := Values(lu).infiltration;
      if inf.Some? && soil in inf.value then Success(inf.value[soil]) else Failure(NotBmpForSoil)
  }

  /** isBMP: membership in BMPS; every BMP has an infiltration table. */
  function IsBMP(landUse: Option<LandUse>): (r: bool)
    ensures r ==> landUse.Some? && Values(landUse.value).infiltration.Some?
  {
    BmpInfiltrationCoverage();
    landUse.Some? && landUse.value in BMPS
  }

  /** isBuiltType: membership in BUILT_TYPES; every built type but
      cluster_housing has curve numbers. */
  function IsBuiltType(landUse: Option<LandUse>): (r: bool)
    ensures r ==> landUse.Some?
    ensures r && landUse != Some(ClusterHousing) ==> Values(landUse.value).cn.Some?
  {
    BuiltTypeCurveNumbers();
    landUse.Some? && landUse.value in BUILT_TYPES
  }

  /** A BMP's infiltration is defined on soil groups a, b and c; on soil group
      d only green_roof's is. */
  lemma BmpInfiltrationLookups(soil: string, landUse: Option<LandUse>)
    requires IsBMP(landUse)
    ensures soil in {"a", "b", "c"} ==> LookupBMPInfiltration(soil, landUse).Success?
    ensures LookupBMPInfiltration("d", landUse).Success? <==> landUse == Some(GreenRoof)
  {
    BmpInfiltrationCoverage();
    BmpInfiltrationLacksSoilD();
  }

  /** A built type other than cluster_housing has a curve number on every
      soil group; cluster_housing has none. */
  lemma BuiltTypeCNLookups(soil: string, landUse: Option<LandUse>)
    requires IsBuiltType(landUse)
    ensures LookupCN(soil, landUse).Success? <==> soil in SOIL_GROUPS && landUse != Some(ClusterHousing)
  {
    BuiltTypeCurveNumbers();
  }

  /** lookupBMPInfiltration's spot checks: green_roof is the one BMP with an
      infiltration on soil group d. */
  lemma LookupBMPInfiltrationGreenRoof()
    ensures LookupBMPInfiltration("d", LandUseNamed("green_roof")) == Success(1.6)
  {
  }

  lemma LookupBMPInfiltrationPorousPaving()
    ensures LookupBMPInfiltration("c", LandUseNamed("porous_paving")) == Success(1.73)
  {
  }

  lemma LookupBMPInfiltrationRainGarden()
    ensures LookupBMPInfiltration("b", LandUseNamed("rain_garden")) == Success(0.6)
  {
  }

  lemma LookupBMPInfiltrationTrench()
    ensures LookupBMPInfiltration("a", LandUseNamed("infiltration_trench")) == Success(2.4)
  {
  }

  /** lookupCN's spot checks on developed land. */
  lemma LookupCNSpotChecksDeveloped()
    ensures LookupCN("a", LandUseNamed("water")) == Success(100)
    ensures LookupCN("b", LandUseNamed("li_residential")) == Success(68)
  {
  }

  lemma LookupCNSpotChecksDense()
    ensures LookupCN("c", LandUseNamed("hi_residential")) == Success(90)
    ensures LookupCN("d", LandUseNamed("commercial")) == Success(95)
  {
  }

  /** lookupCN's spot checks on barren land and forest. */
  lemma LookupCNSpotChecksBarren()
    ensures LookupCN("a", LandUseNamed("rock")) == Success(77)
    ensures LookupCN("b", LandUseNamed("deciduous_forest")) == Success(55)
  {
  }

  lemma LookupCNSpotChecksForest()
    ensures LookupCN("c", LandUseNamed("evergreen_forest")) == Success(70)
    ensures LookupCN("d", LandUseNamed("mixed_forest")) == Success(77)
  {
  }
}
