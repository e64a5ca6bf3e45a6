/** The reference data of the TR-55 calculator (tr55/tables.py): the sample
    precipitation year, the per-land-use coefficients (landscape coefficient
    `ki`, curve numbers `cn` per hydrologic soil group, BMP `infiltration`
    per soil group), and the sets of BMP and "built" land uses.

    Dates of the sample year are ordinal days (0 = January 1) of the fixed,
    non-leap year 1 that the lookups normalise every date into. */
module Tables {
  import opened Wrappers

  /** One entry of LAND_USE_VALUES; a missing `cn` or `infiltration`
      sub-dictionary is `None`, a missing soil group is a missing map key. */
  datatype LandUseValues = LandUseValues(
    ki: real,
    cn: Option<map<string, int>>,
    infiltration: Option<map<string, real>>)

  /** SAMPLE_YEAR: `precipitation` is a list of runs (consecutive days, depth in inches). */
  datatype SampleYear = SampleYear(
    yearStart: int,
    daysPerYear: int,
    growingStart: int,
    growingEnd: int,
    growingETmax: real,
    nongrowingETmax: real,
    precipitation: seq<(int, real)>)

  /** Number of days of `month` in the non-leap year 1. */
  function DaysInMonth(month: int): int
    requires 1 <= month <= 12
  {
    [31, 28, 31, 30, 31, 30, 31, 31, 30, 31, 30, 31][month - 1]
  }

  /** Ordinal day (0-based) of `month`/`day` in the non-leap year 1. */
  function DayOfYear(month: int, day: int): (d: int)
    requires 1 <= month <= 12 && 1 <= day <= DaysInMonth(month)
    ensures 0 <= d < 365
  {
    [0, 31, 59, 90, 120, 151, 181, 212, 243, 273, 304, 334][month - 1] + day - 1
  }

  /** Sum of the run lengths of a precipitation list. */
  function TotalDays(runs: seq<(int, real)>): int
  {
    if runs == [] then 0 else runs[0].0 + TotalDays(runs[1..])
  }

  /** Every run of the list covers at least one day. */
  predicate PositiveRuns(runs: seq<(int, real)>)
  {
    forall i :: 0 <= i < |runs| ==> runs[i].0 >= 1
  }

  // SAMPLE_YEAR's precipitation list, in the order of tr55/tables.py. It is
  // written in blocks of at most eight runs (RUNS_1 .. RUNS_6 rise to the
  // 1.92 inch day, RUNS_7 .. RUNS_12 fall from the 2.71 inch peak) so that
  // each block's length can be summed on its own.
  const RUNS_1: seq<(int, real)> := [(120, 0.00), (7, 0.01), (4, 0.02), (3, 0.03), (2, 0.04), (2, 0.05), (2, 0.06), (2, 0.07)]
  const RUNS_2: seq<(int, real)> := [(1, 0.08), (2, 0.09), (1, 0.10), (2, 0.11), (1, 0.12), (1, 0.14), (1, 0.15), (1, 0.16)]
  const RUNS_3: seq<(int, real)> := [(1, 0.17), (1, 0.18), (1, 0.20), (1, 0.21), (1, 0.23), (1, 0.25), (1, 0.26), (1, 0.28)]
  const RUNS_4: seq<(int, real)> := [(1, 0.30), (1, 0.33), (1, 0.34), (1, 0.37), (1, 0.38), (1, 0.41), (1, 0.44), (1, 0.48)]
  const RUNS_5: seq<(int, real)> := [(1, 0.52), (1, 0.55), (1, 0.59), (1, 0.63), (1, 0.67), (1, 0.72), (1, 0.77), (1, 0.82)]
  const RUNS_6: seq<(int, real)> := [(1, 0.89), (1, 0.98), (1, 1.09), (1, 1.22), (1, 1.42), (1, 1.92)]
  const RUNS_7: seq<(int, real)> := [(1, 2.71), (1, 1.88), (1, 1.57), (1, 1.33), (1, 1.18), (1, 1.06), (1, 0.95), (1, 0.86)]
  const RUNS_8: seq<(int, real)> := [(1, 0.76), (1, 0.69), (1, 0.63), (1, 0.57), (1, 0.54), (1, 0.50), (1, 0.46), (1, 0.43)]
  const RUNS_9: seq<(int, real)> := [(1, 0.40), (1, 0.37), (1, 0.34), (1, 0.33), (1, 0.30), (1, 0.28), (1, 0.26), (1, 0.25)]
  const RUNS_10: seq<(int, real)> := [(1, 0.23), (1, 0.22), (1, 0.20), (1, 0.18), (1, 0.17), (1, 0.16), (1, 0.15), (1, 0.13)]
  const RUNS_11: seq<(int, real)> := [(1, 0.12), (1, 0.11), (2, 0.10), (1, 0.09), (2, 0.08), (2, 0.07), (1, 0.06), (2, 0.05)]
  const RUNS_12: seq<(int, real)> := [(3, 0.04), (3, 0.03), (4, 0.02), (7, 0.01), (122, 0.00)]

  const RISING_LIMB: seq<(int, real)> := RUNS_1 + (RUNS_2 + (RUNS_3 + (RUNS_4 + (RUNS_5 + RUNS_6))))
  const FALLING_LIMB: seq<(int, real)> := RUNS_7 + (RUNS_8 + (RUNS_9 + (RUNS_10 + (RUNS_11 + RUNS_12))))
  const PRECIPITATION: seq<(int, real)> := RISING_LIMB + FALLING_LIMB

  const SAMPLE_YEAR: SampleYear := SampleYear(
    DayOfYear(10, 15),   // the sample year starts on 10/15
    365,
    DayOfYear(4, 15),    // growing season starts on 4/15
    DayOfYear(10, 14),   // and its last day is 10/14
    0.207,
    0.0,
    PRECIPITATION)

  /** The keys of LAND_USE_VALUES, in the order of tr55/tables.py. */
  datatype LandUse =
    | Water
    | LiResidential
    | HiResidential
    | Commercial
    | Industrial
    | Transportation
    | Rock
    | Sand
    | Clay
    | DeciduousForest
    | EvergreenForest
    | MixedForest
    | Grassland
    | Pasture
    | Hay
    | RowCrop
    | UrbanGrass
    | WoodyWetland
    | HerbaceousWetland
    | GreenRoof
    | PorousPaving
    | RainGarden
    | InfiltrationTrench
    | ClusterHousing
    | NoTill

  /** The dictionary key under which each land use is stored. */
  function Name(lu: LandUse): string
  {
    match lu
    case Hay => "hay"
    case Rock => "rock"
    case Sand => "sand"
    case Clay => "clay"
    case Water => "water"
    case Pasture => "pasture"
    case NoTill => "no_till"
    case RowCrop => "row_crop"
    case Grassland => "grassland"
    case Commercial => "commercial"
    case Industrial => "industrial"
    case GreenRoof => "green_roof"
    case UrbanGrass => "urban_grass"
    case RainGarden => "rain_garden"
    case MixedForest => "mixed_forest"
    case WoodyWetland => "woody_wetland"
    case PorousPaving => "porous_paving"
    case LiResidential => "li_residential"
    case HiResidential => "hi_residential"
    case Transportation => "transportation"
    case ClusterHousing => "cluster_housing"
    case DeciduousForest => "deciduous_forest"
    case EvergreenForest => "evergreen_forest"
    case HerbaceousWetland => "herbaceous_wetland"
    case InfiltrationTrench => "infiltration_trench"
  }

  /** The key lookup of LAND_USE_VALUES: the land use stored under `name`, if
      any. Keys are told apart by their length first and then compared in
      full, which gives the same answer as comparing `name` with every key. */
  function LandUseNamed(name: string): (r: Option<LandUse>)
    ensures r.Some? ==> Name(r.value) == name
  {
    match |name|
    case 3 =>
      if name == Name(Hay) then Some(Hay)
      else None
    case 4 =>
      if name == Name(Rock) then Some(Rock)
      else if name == Name(Sand) then Some(Sand)
      else if name == Name(Clay) then Some(Clay)
      else None
    case 5 =>
      if name == Name(Water) then Some(Water)
      else None
    case 7 =>
      if name == Name(Pasture) then Some(Pasture)
      else if name == Name(NoTill) then Some(NoTill)
      else None
    case 8 =>
      if name == Name(RowCrop) then Some(RowCrop)
      else None
    case 9 =>
      if name == Name(Grassland) then Some(Grassland)
      else None
    case 10 =>
      if name == Name(Commercial) then Some(Commercial)
      else if name == Name(Industrial) then Some(Industrial)
      else if name == Name(GreenRoof) then Some(GreenRoof)
      else None
    case 11 =>
      if name == Name(UrbanGrass) then Some(UrbanGrass)
      else if name == Name(RainGarden) then Some(RainGarden)
      else None
    case 12 =>
      if name == Name(MixedForest) then Some(MixedForest)
      else None
    case 13 =>
      if name == Name(WoodyWetland) then Some(WoodyWetland)
      else if name == Name(PorousPaving) then Some(PorousPaving)
      else None
    case 14 =>
      if name == Name(LiResidential) then Some(LiResidential)
      else if name == Name(HiResidential) then Some(HiResidential)
      else if name == Name(Transportation) then Some(Transportation)
      else None
    case 15 =>
      if name == Name(ClusterHousing) then Some(ClusterHousing)
      else None
    case 16 =>
      if name == Name(DeciduousForest) then Some(DeciduousForest)
      else if name == Name(EvergreenForest) then Some(EvergreenForest)
      else None
    case 18 =>
      if name == Name(HerbaceousWetland) then Some(HerbaceousWetland)
      else None
    case 19 =>
      if name == Name(InfiltrationTrench) then Some(InfiltrationTrench)
      else None
    case _ => None
  }
  /** Every key of LAND_USE_VALUES resolves to the land use stored under it. */
  lemma LandUseNamedComplete(lu: LandUse)
    ensures LandUseNamed(Name(lu)) == Some(lu)
  {
  }


  function CurveNumbers(a: int, b: int, c: int, d: int): map<string, int>
  {
    map["a" := a, "b" := b, "c" := c, "d" := d]
  }

  /** The row of LAND_USE_VALUES stored for each land use. */
  function Values(lu: LandUse): LandUseValues
  {
    match lu
    case Water => LandUseValues(0.0, Some(CurveNumbers(100, 100, 100, 100)), None)
    case LiResidential => LandUseValues(0.42, Some(CurveNumbers(51, 68, 79, 84)), None)
    case HiResidential => LandUseValues(0.18, Some(CurveNumbers(77, 85, 90, 92)), None)
    case Commercial => LandUseValues(0.06, Some(CurveNumbers(89, 92, 94, 95)), None)
    case Industrial => LandUseValues(0.06, Some(CurveNumbers(89, 92, 94, 95)), None)
    case Transportation => LandUseValues(0.06, Some(CurveNumbers(89, 92, 94, 95)), None)
    case Rock => LandUseValues(0.0, Some(CurveNumbers(77, 86, 86, 91)), None)
    case Sand => LandUseValues(0.0, Some(CurveNumbers(77, 86, 86, 91)), None)
    case Clay => LandUseValues(0.0, Some(CurveNumbers(77, 86, 86, 91)), None)
    case DeciduousForest => LandUseValues(0.7, Some(CurveNumbers(30, 55, 70, 77)), None)
    case EvergreenForest => LandUseValues(0.7, Some(CurveNumbers(30, 55, 70, 77)), None)
    case MixedForest => LandUseValues(0.7, Some(CurveNumbers(30, 55, 70, 77)), None)
    case Grassland => LandUseValues(0.6, Some(CurveNumbers(30, 58, 71, 78)), None)
    case Pasture => LandUseValues(0.6, Some(CurveNumbers(39, 61, 74, 80)), None)
    case Hay => LandUseValues(0.6, Some(CurveNumbers(39, 61, 74, 80)), None)
    case RowCrop => LandUseValues(0.9, Some(CurveNumbers(67, 78, 85, 89)), None)
    case UrbanGrass => LandUseValues(0.7, Some(CurveNumbers(68, 79, 86, 89)), None)
    case WoodyWetland => LandUseValues(1.0, Some(CurveNumbers(98, 98, 98, 98)), None)
    case HerbaceousWetland => LandUseValues(1.0, Some(CurveNumbers(98, 98, 98, 98)), None)
    case GreenRoof => LandUseValues(0.4, None, Some(map["a" := 1.6, "b" := 1.6, "c" := 1.6, "d" := 1.6]))
    case PorousPaving => LandUseValues(0.0, None, Some(map["a" := 7.73, "b" := 4.13, "c" := 1.73]))
    case RainGarden => LandUseValues(0.08, None, Some(map["a" := 1.2, "b" := 0.6, "c" := 0.2]))
    case InfiltrationTrench => LandUseValues(0.0, None, Some(map["a" := 2.4, "b" := 1.8, "c" := 1.4]))
    case ClusterHousing => LandUseValues(0.42, None, None)
    case NoTill => LandUseValues(0.9, Some(CurveNumbers(57, 73, 82, 86)), None)
  }

  /** BMPS of tr55/tables.py by name: the BMPs that actively retain water
      (cluster_housing and no_till are not among them). */
  const BMP_NAMES: set<string> := {"green_roof", "porous_paving", "rain_garden", "infiltration_trench"}

  /** BUILT_TYPES of tr55/tables.py by name: the "built" land uses. */
  const BUILT_TYPE_NAMES: set<string> := {"li_residential", "hi_residential", "cluster_housing",
                                          "commercial", "industrial", "transportation", "urban_grass"}

  /** The keys of the BMPs. */
  const BMPS: set<LandUse> := {GreenRoof, PorousPaving, RainGarden, InfiltrationTrench}

  /** The keys of the built types. */
  const BUILT_TYPES: set<LandUse> := {LiResidential, HiResidential, ClusterHousing,
                                      Commercial, Industrial, Transportation, UrbanGrass}

  const SOIL_GROUPS: set<string> := {"a", "b", "c", "d"}

  /** Summing a concatenation sums the parts. */
  lemma {:induction false} TotalDaysAppend(a: seq<(int, real)>, b: seq<(int, real)>)
    ensures TotalDays(a + b) == TotalDays(a) + TotalDays(b)
  {
    if a == [] {
      assert a + b == b;
    } else {
      assert (a + b)[1..] == a[1..] + b;
      TotalDaysAppend(a[1..], b);
    }
  }

  lemma PositiveRunsAppend(a: seq<(int, real)>, b: seq<(int, real)>)
    requires PositiveRuns(a) && PositiveRuns(b)
    ensures PositiveRuns(a + b)
  {
    forall i | 0 <= i < |a + b|
      ensures (a + b)[i].0 >= 1
    {
      if i >= |a| {
        assert (a + b)[i] == b[i - |a|];
      }
    }
  }

  /** One step of the sum over a suffix. */
  lemma DropStep(s: seq<(int, real)>, i: nat)
    requires i < |s|
    ensures TotalDays(s[i..]) == s[i].0 + TotalDays(s[i + 1..])
  {
    assert s[i..][1..] == s[i + 1..];
  }

  /** The sum of a list of at most eight runs, written out. */
  lemma TotalDaysOfBlock(s: seq<(int, real)>)
    requires |s| <= 8
    ensures TotalDays(s) == (if |s| > 0 then s[0].0 else 0) + (if |s| > 1 then s[1].0 else 0)
      + (if |s| > 2 then s[2].0 else 0) + (if |s| > 3 then s[3].0 else 0)
      + (if |s| > 4 then s[4].0 else 0) + (if |s| > 5 then s[5].0 else 0)
      + (if |s| > 6 then s[6].0 else 0) + (if |s| > 7 then s[7].0 else 0)
  {
    assert s[|s|..] == [];
    if |s| > 7 { DropStep(s, 7); }
    if |s| > 6 { DropStep(s, 6); }
    if |s| > 5 { DropStep(s, 5); }
    if |s| > 4 { DropStep(s, 4); }
    if |s| > 3 { DropStep(s, 3); }
    if |s| > 2 { DropStep(s, 2); }
    if |s| > 1 { DropStep(s, 1); }
    if |s| > 0 { DropStep(s, 0); }
    assert s[0..] == s;
  }

  // Each block of runs, summed on its own.
  lemma Block1Days()
    ensures TotalDays(RUNS_1) == 142 && PositiveRuns(RUNS_1)
  {
    TotalDaysOfBlock(RUNS_1);
  }

  lemma Block2Days()
    ensures TotalDays(RUNS_2) == 10 && PositiveRuns(RUNS_2)
  {
    TotalDaysOfBlock(RUNS_2);
  }

  lemma Block3Days()
    ensures TotalDays(RUNS_3) == 8 && PositiveRuns(RUNS_3)
  {
    TotalDaysOfBlock(RUNS_3);
  }

  lemma Block4Days()
    ensures TotalDays(RUNS_4) == 8 && PositiveRuns(RUNS_4)
  {
    TotalDaysOfBlock(RUNS_4);
  }

  lemma Block5Days()
    ensures TotalDays(RUNS_5) == 8 && PositiveRuns(RUNS_5)
  {
    TotalDaysOfBlock(RUNS_5);
  }

  lemma Block6Days()
    ensures TotalDays(RUNS_6) == 6 && PositiveRuns(RUNS_6)
  {
    TotalDaysOfBlock(RUNS_6);
  }

  lemma Block7Days()
    ensures TotalDays(RUNS_7) == 8 && PositiveRuns(RUNS_7)
  {
    TotalDaysOfBlock(RUNS_7);
  }

  lemma Block8Days()
    ensures TotalDays(RUNS_8) == 8 && PositiveRuns(RUNS_8)
  {
    TotalDaysOfBlock(RUNS_8);
  }

  lemma Block9Days()
    ensures TotalDays(RUNS_9) == 8 && PositiveRuns(RUNS_9)
  {
    TotalDaysOfBlock(RUNS_9);
  }

  lemma Block10Days()
    ensures TotalDays(RUNS_10) == 8 && PositiveRuns(RUNS_10)
  {
    TotalDaysOfBlock(RUNS_10);
  }

  lemma Block11Days()
    ensures TotalDays(RUNS_11) == 12 && PositiveRuns(RUNS_11)
  {
    TotalDaysOfBlock(RUNS_11);
  }

  lemma Block12Days()
    ensures TotalDays(RUNS_12) == 139 && PositiveRuns(RUNS_12)
  {
    TotalDaysOfBlock(RUNS_12);
  }


  /** The rising limb covers 182 days, every run at least one. */
  lemma RisingLimbDays()
    ensures TotalDays(RISING_LIMB) == 182 && PositiveRuns(RISING_LIMB)
  {
    Block1Days(); Block2Days(); Block3Days(); Block4Days(); Block5Days(); Block6Days();
    TotalDaysAppend(RUNS_5, RUNS_6); PositiveRunsAppend(RUNS_5, RUNS_6);
    TotalDaysAppend(RUNS_4, RUNS_5 + RUNS_6); PositiveRunsAppend(RUNS_4, RUNS_5 + RUNS_6);
    TotalDaysAppend(RUNS_3, RUNS_4 + (RUNS_5 + RUNS_6)); PositiveRunsAppend(RUNS_3, RUNS_4 + (RUNS_5 + RUNS_6));
    TotalDaysAppend(RUNS_2, RUNS_3 + (RUNS_4 + (RUNS_5 + RUNS_6))); PositiveRunsAppend(RUNS_2, RUNS_3 + (RUNS_4 + (RUNS_5 + RUNS_6)));
    TotalDaysAppend(RUNS_1, RUNS_2 + (RUNS_3 + (RUNS_4 + (RUNS_5 + RUNS_6)))); PositiveRunsAppend(RUNS_1, RUNS_2 + (RUNS_3 + (RUNS_4 + (RUNS_5 + RUNS_6))));
  }

  /** The falling limb covers 183 days, every run at least one. */
  lemma FallingLimbDays()
    ensures TotalDays(FALLING_LIMB) == 183 && PositiveRuns(FALLING_LIMB)
  {
    Block7Days(); Block8Days(); Block9Days(); Block10Days(); Block11Days(); Block12Days();
    TotalDaysAppend(RUNS_11, RUNS_12); PositiveRunsAppend(RUNS_11, RUNS_12);
    TotalDaysAppend(RUNS_10, RUNS_11 + RUNS_12); PositiveRunsAppend(RUNS_10, RUNS_11 + RUNS_12);
    TotalDaysAppend(RUNS_9, RUNS_10 + (RUNS_11 + RUNS_12)); PositiveRunsAppend(RUNS_9, RUNS_10 + (RUNS_11 + RUNS_12));
    TotalDaysAppend(RUNS_8, RUNS_9 + (RUNS_10 + (RUNS_11 + RUNS_12))); PositiveRunsAppend(RUNS_8, RUNS_9 + (RUNS_10 + (RUNS_11 + RUNS_12)));
    TotalDaysAppend(RUNS_7, RUNS_8 + (RUNS_9 + (RUNS_10 + (RUNS_11 + RUNS_12)))); PositiveRunsAppend(RUNS_7, RUNS_8 + (RUNS_9 + (RUNS_10 + (RUNS_11 + RUNS_12))));
  }

  /** The precipitation runs cover exactly the days of the sample year, each
      run at least one day. */
  lemma SampleYearRunsCoverYear()
    ensures TotalDays(SAMPLE_YEAR.precipitation) == SAMPLE_YEAR.daysPerYear == 365
    ensures PositiveRuns(SAMPLE_YEAR.precipitation)
  {
    RisingLimbDays();
    FallingLimbDays();
    TotalDaysAppend(RISING_LIMB, FALLING_LIMB);
    PositiveRunsAppend(RISING_LIMB, FALLING_LIMB);
  }

  /** The growing season lies inside the fixed year, start before end. */
  lemma GrowingSeasonOrdered()
    ensures 0 <= SAMPLE_YEAR.growingStart <= SAMPLE_YEAR.growingEnd < SAMPLE_YEAR.daysPerYear
    ensures SAMPLE_YEAR.growingStart == 104 && SAMPLE_YEAR.growingEnd == 286 && SAMPLE_YEAR.yearStart == 287
  {
  }

  /** A name is in BMPS exactly when it resolves to the key of a BMP. */
  lemma BmpsByName()
    ensures forall name :: name in BMP_NAMES <==> LandUseNamed(name).Some? && LandUseNamed(name).value in BMPS
  {
  }

  /** A name is in BUILT_TYPES exactly when it resolves to the key of a built type. */
  lemma BuiltTypesByName()
    ensures forall name :: name in BUILT_TYPE_NAMES <==>
              LandUseNamed(name).Some? && LandUseNamed(name).value in BUILT_TYPES
  {
  }

  /** Every curve number in the table lies in (0, 100]. */
  lemma CurveNumbersInRange()
    ensures forall lu, soil :: Values(lu).cn.Some? && soil in Values(lu).cn.value ==>
              0 < Values(lu).cn.value[soil] <= 100
  {
  }

  /** Every curve-number table covers the four soil groups. */
  lemma CurveNumberSoilGroups()
    ensures forall lu :: Values(lu).cn.Some? ==> Values(lu).cn.value.Keys == SOIL_GROUPS
  {
  }

  /** Every BMP has an infiltration table, and green_roof's covers the four
      soil groups; cluster_housing and no_till are not BMPs. */
  lemma BmpInfiltrationCoverage()
    ensures forall lu :: lu in BMPS ==> Values(lu).infiltration.Some?
    ensures Values(GreenRoof).infiltration.value.Keys == SOIL_GROUPS
    ensures ClusterHousing !in BMPS && NoTill !in BMPS
  {
  }

  /** The infiltration tables of porous_paving, rain_garden and
      infiltration_trench cover soil groups a, b and c but not d. */
  lemma BmpInfiltrationLacksSoilD()
    ensures forall lu :: lu in BMPS && lu != GreenRoof ==>
              "d" !in Values(lu).infiltration.value && "a" in Values(lu).infiltration.value &&
              "b" in Values(lu).infiltration.value && "c" in Values(lu).infiltration.value
  {
  }

  /** Every built type but cluster_housing has a curve-number table;
      cluster_housing has only its ki. */
  lemma BuiltTypeCurveNumbers()
    ensures forall lu :: lu in BUILT_TYPES && lu != ClusterHousing ==> Values(lu).cn.Some?
    ensures Values(ClusterHousing).cn.None? && Values(ClusterHousing).infiltration.None?
  {
  }

  /** Every landscape coefficient lies in [0, 1]. */
  lemma KiInUnitRange()
    ensures forall lu :: 0.0 <= Values(lu).ki <= 1.0
  {
  }

  /** Every infiltration depth in the table is positive. */
  lemma InfiltrationPositive()
    ensures forall lu, soil :: Values(lu).infiltration.Some? && soil in Values(lu).infiltration.value ==>
              Values(lu).infiltration.value[soil] > 0.0
  {
  }
}
