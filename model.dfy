/** The TR-55 model proper (tr55/model.py): the Pitt small-storm runoff
    polynomials, the NRCS curve-number runoff equation, the simulation of
    one tile on one day, of a census of tiles, and of a whole sample year.

    Quantities are inches of water: P is the precipitation, ET the
    evapotranspiration, Q the runoff and Inf the infiltration.  Every
    Python float is an exact `real`. */
module Model {

  import opened Wrappers
  import opened Tables
  import opened TableLookup

  /** A day's water budget in inches: (runoff, evapotranspiration,
      infiltration). */
  datatype Budget = Budget(runoff: real, et: real, inf: real)

  function BudgetPlus(a: Budget, b: Budget): Budget
  {
    Budget(a.runoff + b.runoff, a.et + b.et, a.inf + b.inf)
  }

  /** The budget with every component multiplied by `k`. */
  function BudgetScale(k: real, a: Budget): Budget
  {
    Budget(k * a.runoff, k * a.et, k * a.inf)
  }

  function Min(a: real, b: real): real
  {
    if a <= b then a else b
  }

  function Max(a: real, b: real): real
  {
    if a >= b then a else b
  }

  // ---------------------------------------------------------------------
  // runoff_pitt: the Pitt Small Storm Hydrology polynomials
  // ---------------------------------------------------------------------

  const CO1: real := 0.03638858398
  const CO2: real := -0.1243464039
  const CO3: real := 0.1295682223
  const CO4: real := 0.9375868043
  const CO5: real := -0.02235170859
  const CO6: real := 0.170228067
  const CO7: real := -0.3971810782
  const CO8: real := 0.3887275538
  const CO9: real := -0.02289321859

  /** Runoff of an impervious surface, a cubic in P. */
  function Impervious(p: real): real
  {
    CO1 * (p * p * p) + CO2 * (p * p) + CO3 * p + CO4
  }

  /** Runoff of urban grass, a quartic in P. */
  function UrbanGrassRunoff(p: real): real
  {
    CO5 * (p * p * p * p) + CO6 * (p * p * p) + CO7 * (p * p) + CO8 * p + CO9
  }

  /** The eight land uses of the Pitt table. */
  const PITT_LAND_USES: set<LandUse> :=
    {Water, LiResidential, ClusterHousing, HiResidential, Commercial, Industrial, Transportation, UrbanGrass}

  /** The Pitt table: each land use's blend of the two curves. */
  function PittCurve(p: real, lu: LandUse): Option<real>
  {
    match lu
    case Water => Some(Impervious(p))
    case LiResidential => Some(0.20 * Impervious(p) + 0.80 * UrbanGrassRunoff(p))
    case ClusterHousing => Some(0.20 * Impervious(p) + 0.80 * UrbanGrassRunoff(p))
    case HiResidential => Some(0.65 * Impervious(p) + 0.35 * UrbanGrassRunoff(p))
    case Commercial => Some(Impervious(p))
    case Industrial => Some(Impervious(p))
    case Transportation => Some(Impervious(p))
    case UrbanGrass => Some(UrbanGrassRunoff(p))
    case _ => None
  }

  /** runoff_pitt: the land use's Pitt curve, clamped to P; any land use
      outside the table is refused. */
  function RunoffPitt(precip: real, landUse: Option<LandUse>): (r: Result<real>)
    ensures r.Success? <==> landUse.Some? && landUse.value in PITT_LAND_USES
    ensures r.Success? ==> r.value <= precip
    ensures r.Failure? ==> r.error == NotBuiltType
  {
    if landUse.None? then Failure(NotBuiltType)
    else
      match PittCurve(precip, landUse.value)
      case None => Failure(NotBuiltType)
      case Some(v) => Success(Min(v, precip))
  }

  /** water, commercial, industrial and transportation share the impervious
      curve; li_residential and cluster_housing share a blend. */
  lemma PittSharedCurves(p: real)
    ensures RunoffPitt(p, Some(Water)) == Success(Min(Impervious(p), p))
    ensures RunoffPitt(p, Some(Commercial)) == RunoffPitt(p, Some(Water))
    ensures RunoffPitt(p, Some(Industrial)) == RunoffPitt(p, Some(Water))
    ensures RunoffPitt(p, Some(Transportation)) == RunoffPitt(p, Some(Water))
    ensures RunoffPitt(p, Some(LiResidential)) == RunoffPitt(p, Some(ClusterHousing))
  {
  }

  /** Every built type has a Pitt curve, so the built-type branch of the
      tile simulation never fails in runoff_pitt. */
  lemma BuiltTypesHavePittCurves(p: real, landUse: Option<LandUse>)
    requires IsBuiltType(landUse)
    ensures RunoffPitt(p, landUse).Success?
  {
  }

  // ---------------------------------------------------------------------
  // nrcs_cutoff and runoff_nrcs: the TR-55 curve-number equation
  // ---------------------------------------------------------------------

  /** S = 1000 / CN - 10, the potential maximum retention (TR-55 eq. 2-4). */
  function PotentialRetention(cn: int): real
    requires cn != 0
  {
    1000.0 / cn as real - 10.0
  }

  /** Ia = 0.2 S, the initial abstraction (TR-55 eq. 2-2). */
  function InitialAbstraction(cn: int): real
    requires cn != 0
  {
    0.2 * PotentialRetention(cn)
  }

  /** nrcs_cutoff: whether P is at or below -2 (CN - 100) / CN; a curve number
      of 0 divides by zero.  That threshold is the initial abstraction. */
  function NrcsCutoff(precip: real, cn: int): (r: Result<bool>)
    ensures r.Failure? <==> cn == 0
    ensures r.Failure? ==> r.error == DivisionByZero
    ensures r.Success? ==> (r.value <==> precip <= InitialAbstraction(cn))
  {
    if cn == 0 then Failure(DivisionByZero)
    else
      var c := cn as real;
      assert 2.0 * (c - 100.0) / c == 2.0 * c / c - 200.0 / c;
      assert c / c == 1.0;
      Success(precip <= -1.0 * (2.0 * (c - 100.0) / c))
  }

  /** Q = (P - Ia)^2 / ((P - Ia) + S) (TR-55 eq. 2-1), above the cutoff:
      between 0 and P - Ia. */
  function UnclampedRunoff(precip: real, cn: int): (q: real)
    requires 0 < cn <= 100
    requires precip > InitialAbstraction(cn)
    ensures 0.0 <= q <= precip - InitialAbstraction(cn)
  {
    var s := PotentialRetention(cn);
    var x := precip - InitialAbstraction(cn);
    assert s >= 0.0 by { RetentionNonNegative(cn); }
    assert x + s > 0.0;
    QuotientBound(x, s);
    (x * x) / (x + s)
  }

  lemma RetentionNonNegative(cn: int)
    requires 0 < cn <= 100
    ensures PotentialRetention(cn) >= 0.0
  {
    var c := cn as real;
    assert 1000.0 / c >= 10.0 by {
      assert c * 10.0 <= 1000.0;
      assert (1000.0 / c) * c == 1000.0;
    }
  }

  /** For x > 0 and s >= 0, 0 <= x^2 / (x + s) <= x. */
  lemma QuotientBound(x: real, s: real)
    requires x > 0.0 && s >= 0.0
    ensures 0.0 <= (x * x) / (x + s) <= x
  {
    var d := x + s;
    var q := (x * x) / d;
    assert q * d == x * x;
    assert x * x <= x * d;
    assert (x - q) * d >= 0.0;
    assert q >= 0.0 by {
      assert q * d >= 0.0;
    }
  }

  /** runoff_nrcs once the curve number is known: 0 at or below the cutoff,
      otherwise Q clamped to P - ET. */
  function NrcsRunoffForCurve(precip: real, evaptrans: real, cn: int): (r: real)
    requires 0 < cn <= 100
    ensures precip <= InitialAbstraction(cn) ==> r == 0.0
    ensures precip > InitialAbstraction(cn) ==>
              r <= precip - evaptrans && r <= precip - InitialAbstraction(cn) &&
              (r >= 0.0 || r == precip - evaptrans)
  {
    if NrcsCutoff(precip, cn).value then 0.0
    else Min(UnclampedRunoff(precip, cn), precip - evaptrans)
  }

  /** runoff_nrcs: look up the curve number of (soil, land use), failing as
      lookupCN does, then apply the equation. */
  function RunoffNrcs(precip: real, evaptrans: real, soil: string, landUse: Option<LandUse>): (r: Result<real>)
    ensures r.Success? <==> LookupCN(soil, landUse).Success?
    ensures r.Failure? ==> r.error == UnknownSoilOrLandUse
    ensures r.Success? ==> r.value == NrcsRunoffForCurve(precip, evaptrans, LookupCN(soil, landUse).value)
  {
    var cn :- LookupCN(soil, landUse);
    Success(NrcsRunoffForCurve(precip, evaptrans, cn))
  }

  // ---------------------------------------------------------------------
  // Tile strings: "soil:land_use"
  // ---------------------------------------------------------------------

  function LowerChar(c: char): char
  {
    if 'A' <= c <= 'Z' then (c as int - 'A' as int + 'a' as int) as char else c
  }

  /** str.lower, on ASCII letters. */
  function Lower(s: string): string
  {
    seq(|s|, i requires 0 <= i < |s| => LowerChar(s[i]))
  }

  /** How many times `c` occurs in `s`. */
  function Count(s: string, c: char): nat
  {
    if s == [] then 0 else (if s[0] == c then 1 else 0) + Count(s[1..], c)
  }

  lemma LowerAppend(a: string, b: string)
    ensures Lower(a + b) == Lower(a) + Lower(b)
  {
    assert forall i :: 0 <= i < |a + b| ==> Lower(a + b)[i] == (Lower(a) + Lower(b))[i];
  }

  /** Lowering neither adds nor removes separators. */
  lemma {:induction false} LowerKeepsSeparators(s: string)
    ensures Count(Lower(s), ':') == Count(s, ':')
  {
    if s != [] {
      assert Lower(s)[1..] == Lower(s[1..]);
      LowerKeepsSeparators(s[1..]);
    }
  }

  /** str.split(sep): the pieces between the occurrences of `sep`. */
  function Split(s: string, sep: char): (parts: seq<string>)
    ensures |parts| == Count(s, sep) + 1
  {
    if s == [] then [""]
    else
      var rest := Split(s[1..], sep);
      if s[0] == sep then [""] + rest else [[s[0]] + rest[0]] + rest[1..]
  }

  /** sep.join(parts). */
  function Join(parts: seq<string>, sep: char): string
    requires |parts| >= 1
  {
    if |parts| == 1 then parts[0] else parts[0] + [sep] + Join(parts[1..], sep)
  }

  /** Joining the pieces of a split gives back the string, and no piece holds
      the separator. */
  lemma {:induction false} SplitJoin(s: string, sep: char)
    ensures Join(Split(s, sep), sep) == s
    ensures forall i :: 0 <= i < |Split(s, sep)| ==> sep !in Split(s, sep)[i]
  {
    if s != [] {
      SplitJoin(s[1..], sep);
      var rest := Split(s[1..], sep);
      if s[0] == sep {
        assert ([""] + rest)[1..] == rest;
      } else {
        var parts := [[s[0]] + rest[0]] + rest[1..];
        if |rest| > 1 {
          assert parts[1..] == rest[1..];
        }
        assert s == [s[0]] + s[1..];
        forall i | 0 <= i < |parts|
          ensures sep !in parts[i]
        {
          if i > 0 {
            assert parts[i] == rest[i];
          }
        }
      }
    }
  }

  /** A separator-free prefix is glued to the first piece. */
  lemma {:induction false} SplitPrepend(a: string, t: string, sep: char)
    requires sep !in a
    ensures Split(a + t, sep) == [a + Split(t, sep)[0]] + Split(t, sep)[1..]
  {
    if a == [] {
      assert a + t == t;
      assert a + Split(t, sep)[0] == Split(t, sep)[0];
      assert [a + Split(t, sep)[0]] + Split(t, sep)[1..] == Split(t, sep);
    } else {
      assert (a + t)[0] == a[0];
      assert (a + t)[1..] == a[1..] + t;
      SplitPrepend(a[1..], t, sep);
      assert a + Split(t, sep)[0] == [a[0]] + (a[1..] + Split(t, sep)[0]);
    }
  }

  /** Splitting "a:b" with a and b free of ':' gives [a, b]. */
  lemma SplitPair(a: string, b: string, sep: char)
    requires sep !in a && sep !in b
    ensures Split(a + [sep] + b, sep) == [a, b]
  {
    SplitPrepend(b, [], sep);
    assert b + [] == b;
    assert ([sep] + b)[1..] == b;
    assert a + [sep] + b == a + ([sep] + b);
    SplitPrepend(a, [sep] + b, sep);
    assert a + "" == a;
  }

  /** The tile string, lowercased and split at its one ':' into soil group
      and land-use name. */
  function ParseTile(tile: string): (r: Result<(string, string)>)
    ensures r.Success? <==> Count(tile, ':') == 1
    ensures r.Failure? ==> r.error == MalformedTile
    ensures r.Success? ==> r.value.0 + ":" + r.value.1 == Lower(tile)
    ensures r.Success? ==> ':' !in r.value.0 && ':' !in r.value.1
  {
    LowerKeepsSeparators(tile);
    SplitJoin(Lower(tile), ':');
    var parts := Split(Lower(tile), ':');
    if |parts| != 2 then Failure(MalformedTile)
    else
      assert parts[1..] == [parts[1]];
      Success((parts[0], parts[1]))
  }

  // ---------------------------------------------------------------------
  // The pre-Columbian remap
  // ---------------------------------------------------------------------

  /** The land uses a pre-Columbian simulation keeps. */
  const PRE_COLUMBIAN_LAND_USES: set<string> := {"water", "woody_wetland", "herbaceous_wetland"}

  /** Pre-Columbian: every other land-use name becomes mixed_forest. */
  function PreColumbianName(name: string): string
  {
    if name in PRE_COLUMBIAN_LAND_USES then name else "mixed_forest"
  }

  /** The same remap on resolved land uses. */
  function PreColumbian(landUse: Option<LandUse>): Option<LandUse>
  {
    if landUse == Some(Water) || landUse == Some(WoodyWetland) || landUse == Some(HerbaceousWetland)
    then landUse else Some(MixedForest)
  }

  /** Remapping the name and then resolving it is resolving and then
      remapping: an unknown name also becomes mixed_forest. */
  lemma PreColumbianByName(name: string)
    ensures LandUseNamed(PreColumbianName(name)) == PreColumbian(LandUseNamed(name))
  {
    var r := LandUseNamed(name);
    if name in PRE_COLUMBIAN_LAND_USES {
      assert name == "water" || name == "woody_wetland" || name == "herbaceous_wetland";
    } else {
      assert LandUseNamed("mixed_forest") == Some(MixedForest);
      if r.Some? {
        assert Name(r.value) == name;
      }
    }
  }

  // ---------------------------------------------------------------------
  // simulate_tile
  // ---------------------------------------------------------------------

  /** The first argument of simulate_tile: a date (the day of the sample
      year), a (P, ET) pair, or anything else, which is refused. */
  datatype Parameters = OnDay(day: int) | Given(precip: real, evaptrans: real) | Unsupported

  /** P and ET for the tile: looked up in the sample year for a date, taken
      as given for a pair. */
  function Weather(parameters: Parameters, landUse: Option<LandUse>): (r: Result<(real, real)>)
    ensures parameters.Unsupported? ==> r == Failure(BadParameters)
    ensures parameters.Given? ==> r == Success((parameters.precip, parameters.evaptrans))
    ensures parameters.OnDay? ==> (r.Success? <==> landUse.Some?)
    ensures parameters.OnDay? && landUse.Some? ==>
              r.Success? && PrecipAt(SAMPLE_YEAR, parameters.day).Success? && r.value == (PrecipAt(SAMPLE_YEAR, parameters.day).value,
                          LookupET(SAMPLE_YEAR, parameters.day, landUse).value)
  {
    match parameters
    case OnDay(day) =>
      // The sample year has a precipitation for every day, so lookupP's
      // 'No Data for Day' cannot arise here.
      SampleYearPrecipDefined(day);
      var precip := PrecipAt(SAMPLE_YEAR, day).value;
      var evaptrans :- LookupET(SAMPLE_YEAR, day, landUse);
      Success((precip, evaptrans))
    case Given(precip, evaptrans) => Success((precip, evaptrans))
    case Unsupported => Failure(BadParameters)
  }

  /** The runoff of a land use that is not a BMP: Pitt for built types up to
      2 inches, the larger of Pitt at 2 inches and NRCS above, NRCS for the
      rest. */
  function NonBmpRunoff(precip: real, evaptrans: real, soil: string, landUse: Option<LandUse>): (r: Result<real>)
    ensures r.Success? <==> (IsBuiltType(landUse) && precip <= 2.0) || LookupCN(soil, landUse).Success?
    ensures r.Failure? ==> r.error == UnknownSoilOrLandUse
  {
    if IsBuiltType(landUse) && precip <= 2.0 then
      BuiltTypesHavePittCurves(precip, landUse);
      RunoffPitt(precip, landUse)
    else if IsBuiltType(landUse) then
      BuiltTypesHavePittCurves(2.0, landUse);
      var pitt := RunoffPitt(2.0, landUse).value;
      var nrcs :- RunoffNrcs(precip, evaptrans, soil, landUse);
      Success(Max(pitt, nrcs))
    else RunoffNrcs(precip, evaptrans, soil, landUse)
  }

  /** simulate_tile once the tile string is parsed and the land use
      resolved. */
  function SimulateLandUse(parameters: Parameters, soil: string, landUse: Option<LandUse>): (r: Result<Budget>)
    ensures r.Success? ==> r.value.inf >= 0.0
    decreases if landUse == Some(RainGarden) then 1 else 0
  {
    var weather :- Weather(parameters, landUse);
    var precip := weather.0;
    var evaptrans := weather.1;
    if precip == 0.0 then Success(Budget(0.0, evaptrans, 0.0))
    else if IsBMP(landUse) && landUse != Some(RainGarden) then
      var inf :- LookupBMPInfiltration(soil, landUse);
      Success(Budget(precip - (evaptrans + inf), evaptrans, inf))
    else if landUse == Some(RainGarden) then
      var inf :- LookupBMPInfiltration(soil, landUse);
      var hiRes :- SimulateLandUse(Given(precip, evaptrans), soil, Some(HiResidential));
      Success(BudgetPlus(BudgetScale(0.2, Budget(precip - (evaptrans + inf), evaptrans, inf)),
                         BudgetScale(0.8, hiRes)))
    else
      var runoff :- NonBmpRunoff(precip, evaptrans, soil, landUse);
      Success(Budget(runoff, evaptrans, Max(precip - (evaptrans + runoff), 0.0)))
  }

  /** simulate_tile: parse and lowercase the tile string, apply the
      pre-Columbian remap to the name, resolve it and simulate. */
  function SimulateTile(parameters: Parameters, tile: string, preColumbian: bool): (r: Result<Budget>)
    ensures Count(tile, ':') != 1 ==> r == Failure(MalformedTile)
    ensures Count(tile, ':') == 1 && parameters.Unsupported? ==> r == Failure(BadParameters)
  {
    var parsed :- ParseTile(tile);
    var name := if preColumbian then PreColumbianName(parsed.1) else parsed.1;
    SimulateLandUse(parameters, parsed.0, LandUseNamed(name))
  }

  /** With no precipitation the tile returns (0, ET, 0). */
  lemma ZeroPrecipitation(parameters: Parameters, soil: string, landUse: Option<LandUse>, evaptrans: real)
    requires Weather(parameters, landUse) == Success((0.0, evaptrans))
    ensures SimulateLandUse(parameters, soil, landUse) == Success(Budget(0.0, evaptrans, 0.0))
  {
  }

  /** A BMP other than rain_garden returns its infiltration, fails where it
      has none for the soil, and its budget sums exactly to P. */
  lemma BmpWaterBalance(parameters: Parameters, soil: string, landUse: Option<LandUse>, precip: real, evaptrans: real)
    requires Weather(parameters, landUse) == Success((precip, evaptrans)) && precip != 0.0
    requires IsBMP(landUse) && landUse != Some(RainGarden)
    ensures SimulateLandUse(parameters, soil, landUse).Success? <==> LookupBMPInfiltration(soil, landUse).Success?
    ensures SimulateLandUse(parameters, soil, landUse).Failure? ==>
              SimulateLandUse(parameters, soil, landUse).error == NotBmpForSoil
    ensures SimulateLandUse(parameters, soil, landUse).Success? ==>
              var b := SimulateLandUse(parameters, soil, landUse).value;
              b.inf == LookupBMPInfiltration(soil, landUse).value && b.et == evaptrans &&
              b.runoff + b.et + b.inf == precip
  {
  }

  /** rain_garden is 20% the ideal rain garden and 80% hi_residential
      under the same P and ET; it fails on soil group d. */
  lemma RainGardenMix(parameters: Parameters, soil: string, precip: real, evaptrans: real)
    requires Weather(parameters, Some(RainGarden)) == Success((precip, evaptrans)) && precip != 0.0
    ensures soil == "d" ==> SimulateLandUse(parameters, soil, Some(RainGarden)) == Failure(NotBmpForSoil)
    ensures SimulateLandUse(parameters, soil, Some(RainGarden)).Success? ==>
              var inf := LookupBMPInfiltration(soil, Some(RainGarden)).value;
              var hiRes := SimulateLandUse(Given(precip, evaptrans), soil, Some(HiResidential));
              hiRes.Success? &&
              SimulateLandUse(parameters, soil, Some(RainGarden)).value ==
                Budget(0.2 * (precip - (evaptrans + inf)) + 0.8 * hiRes.value.runoff,
                       0.2 * evaptrans + 0.8 * hiRes.value.et,
                       0.2 * inf + 0.8 * hiRes.value.inf)
  {
    BmpInfiltrationLookups(soil, Some(RainGarden));
  }

  /** Every branch of the tile simulation passes ET through: the budget's ET
      is the ET looked up or given. */
  lemma TileKeepsEvapotranspiration(parameters: Parameters, soil: string, landUse: Option<LandUse>)
    requires SimulateLandUse(parameters, soil, landUse).Success?
    ensures Weather(parameters, landUse).Success?
    ensures SimulateLandUse(parameters, soil, landUse).value.et == Weather(parameters, landUse).value.1
    decreases if landUse == Some(RainGarden) then 1 else 0
  {
    var w := Weather(parameters, landUse).value;
    if w.0 != 0.0 && landUse == Some(RainGarden) {
      TileKeepsEvapotranspiration(Given(w.0, w.1), soil, Some(HiResidential));
    }
  }

  /** The runoff of a built type: Pitt up to 2 inches, which never fails;
      above, the larger of Pitt at 2 inches and NRCS, which fails exactly
      where the curve number is missing, as for cluster_housing. */
  lemma BuiltTypeRunoff(precip: real, evaptrans: real, soil: string, landUse: Option<LandUse>)
    requires IsBuiltType(landUse)
    ensures precip <= 2.0 ==> NonBmpRunoff(precip, evaptrans, soil, landUse) == RunoffPitt(precip, landUse)
    ensures precip <= 2.0 ==> NonBmpRunoff(precip, evaptrans, soil, landUse).Success?
    ensures precip > 2.0 ==>
              (NonBmpRunoff(precip, evaptrans, soil, landUse).Success? <==> soil in SOIL_GROUPS && landUse != Some(ClusterHousing))
    ensures precip > 2.0 && NonBmpRunoff(precip, evaptrans, soil, landUse).Success? ==>
              NonBmpRunoff(precip, evaptrans, soil, landUse).value ==
                Max(RunoffPitt(2.0, landUse).value, RunoffNrcs(precip, evaptrans, soil, landUse).value)
  {
    BuiltTypesHavePittCurves(precip, landUse);
    BuiltTypesHavePittCurves(2.0, landUse);
    BuiltTypeCNLookups(soil, landUse);
  }

  /** A land use that is neither a BMP nor a built type gets NRCS runoff. */
  lemma UnbuiltRunoff(precip: real, evaptrans: real, soil: string, landUse: Option<LandUse>)
    requires !IsBuiltType(landUse)
    ensures NonBmpRunoff(precip, evaptrans, soil, landUse) == RunoffNrcs(precip, evaptrans, soil, landUse)
  {
  }

  /** Outside the BMPs, infiltration is what is left of P after ET and
      runoff, floored at 0: the budget sums to P when that remainder is not
      negative, and exceeds P otherwise. */
  lemma NonBmpWaterBalance(parameters: Parameters, soil: string, landUse: Option<LandUse>, precip: real, evaptrans: real)
    requires Weather(parameters, landUse) == Success((precip, evaptrans)) && precip != 0.0
    requires !IsBMP(landUse)
    ensures SimulateLandUse(parameters, soil, landUse).Success? <==> NonBmpRunoff(precip, evaptrans, soil, landUse).Success?
    ensures SimulateLandUse(parameters, soil, landUse).Success? ==>
              var b := SimulateLandUse(parameters, soil, landUse).value;
              b.runoff == NonBmpRunoff(precip, evaptrans, soil, landUse).value && b.et == evaptrans && b.inf >= 0.0 &&
              (precip - (evaptrans + b.runoff) >= 0.0 ==> b.runoff + b.et + b.inf == precip) &&
              (precip - (evaptrans + b.runoff) < 0.0 ==> b.inf == 0.0 && b.runoff + b.et + b.inf > precip)
  {
    BmpInfiltrationCoverage();
  }

  /** A small storm on commercial land: Pitt runoff is clamped to P, not to
      P - ET, so runoff and ET together exceed P and infiltration is 0. */
  lemma SmallStormOvershoot()
    ensures SimulateLandUse(Given(0.1, 0.0124), "a", Some(Commercial)) == Success(Budget(0.1, 0.0124, 0.0))
  {
    assert Impervious(0.1) > 0.1;
  }

  /** Lowering keeps a string free of ':' free of it. */
  lemma LowerNoSeparator(s: string)
    requires ':' !in s
    ensures ':' !in Lower(s)
  {
    forall i | 0 <= i < |s|
      ensures Lower(s)[i] != ':'
    {
      assert s[i] != ':';
    }
  }

  /** Parsing "soil:name" with neither part holding ':' gives the two
      lowered parts. */
  lemma ParseTilePair(soil: string, name: string)
    requires ':' !in soil && ':' !in name
    ensures ParseTile(soil + ":" + name) == Success((Lower(soil), Lower(name)))
  {
    var tile := soil + ":" + name;
    assert Lower(tile) == Lower(soil) + ":" + Lower(name) by {
      LowerAppend(soil + ":", name);
      LowerAppend(soil, ":");
      assert Lower(":") == ":";
    }
    LowerNoSeparator(soil);
    LowerNoSeparator(name);
    SplitPair(Lower(soil), Lower(name), ':');
    assert Split(Lower(tile), ':') == [Lower(soil), Lower(name)];
  }

  /** A string without upper-case letters is its own lowering. */
  lemma LowerOfLowercase(s: string)
    requires forall i :: 0 <= i < |s| ==> !('A' <= s[i] <= 'Z')
    ensures Lower(s) == s
  {
    assert forall i :: 0 <= i < |s| ==> Lower(s)[i] == s[i];
  }

  /** The rain-garden branch re-simulates the tile "soil:hi_residential"
      with the same P and ET and no pre-Columbian remap; for a soil from a
      parsed tile, that is the hi_residential simulation this model uses. */
  lemma RainGardenRetile(soil: string, precip: real, evaptrans: real)
    requires ':' !in soil && Lower(soil) == soil
    ensures SimulateTile(Given(precip, evaptrans), soil + ":hi_residential", false)
         == SimulateLandUse(Given(precip, evaptrans), soil, Some(HiResidential))
  {
    HiResidentialTileSplits(soil);
    HiResidentialTileName();
    RetileNamed(soil, "hi_residential", HiResidential, precip, evaptrans);
  }

  /** The tile key "soil:hi_residential" is the soil, the separator and the
      land-use name. */
  lemma HiResidentialTileSplits(soil: string)
    ensures soil + ":hi_residential" == soil + ":" + "hi_residential"
  {
    assert ":hi_residential" == ":" + "hi_residential";
  }

  /** Re-parsing "soil:name" when both parts are already lowercase and free
      of ':' gives back the soil and the land use the name resolves to. */
  lemma RetileNamed(soil: string, name: string, lu: LandUse, precip: real, evaptrans: real)
    requires ':' !in soil && Lower(soil) == soil
    requires ':' !in name && Lower(name) == name
    requires LandUseNamed(name) == Some(lu)
    ensures SimulateTile(Given(precip, evaptrans), soil + ":" + name, false)
         == SimulateLandUse(Given(precip, evaptrans), soil, Some(lu))
  {
    ParseTilePair(soil, name);
  }

  /** "hi_residential" holds no ':', is lowercase and names hi_residential. */
  lemma HiResidentialTileName()
    ensures ':' !in "hi_residential"
    ensures Lower("hi_residential") == "hi_residential"
    ensures LandUseNamed("hi_residential") == Some(HiResidential)
  {
    assert ':' !in "hi_residential";
    assert forall i :: 0 <= i < |"hi_residential"| ==> !('A' <= "hi_residential"[i] <= 'Z');
    LowerOfLowercase("hi_residential");
  }

  /** Under pre-Columbian conditions every tile whose land use is not water,
      woody_wetland or herbaceous_wetland is simulated as mixed_forest on
      the same soil. */
  lemma PreColumbianTile(parameters: Parameters, soil: string, name: string)
    requires ':' !in soil && ':' !in name
    requires Lower(name) !in PRE_COLUMBIAN_LAND_USES
    ensures SimulateTile(parameters, soil + ":" + name, true) == SimulateLandUse(parameters, Lower(soil), Some(MixedForest))
  {
    ParseTilePair(soil, name);
    assert LandUseNamed("mixed_forest") == Some(MixedForest);
  }

  // ---------------------------------------------------------------------
  // simulate_all_tiles
  // ---------------------------------------------------------------------

  /** The "result" object of a tile census: the total cell count and the
      count of each tile string, either of which may be missing. */
  datatype CensusResult = CensusResult(cellCount: Option<int>, distribution: Option<seq<(string, int)>>)

  /** A tile census, whose "result" key may be missing. */
  datatype Census = Census(result: Option<CensusResult>)

  /** x scaled by the share n / cellCount of the cells. */
  function Share(x: real, n: int, cellCount: int): real
    requires cellCount != 0
  {
    (x * n as real) / cellCount as real
  }

  /** A tile's budget weighted by its share n / cellCount of the cells. */
  function Weighted(b: Budget, n: int, cellCount: int): Budget
    requires cellCount != 0
  {
    Budget(Share(b.runoff, n, cellCount), Share(b.et, n, cellCount), Share(b.inf, n, cellCount))
  }

  /** The tile strings' simulations, in the census's order. */
  function TileBudgets(parameters: Parameters, tiles: seq<(string, int)>, preColumbian: bool): (budgets: seq<Result<Budget>>)
    ensures |budgets| == |tiles|
    ensures forall i :: 0 <= i < |tiles| ==> budgets[i] == SimulateTile(parameters, tiles[i].0, preColumbian)
  {
    seq(|tiles|, i requires 0 <= i < |tiles| => SimulateTile(parameters, tiles[i].0, preColumbian))
  }

  /** The census's tile counts, in the same order. */
  function TileCounts(tiles: seq<(string, int)>): (counts: seq<int>)
    ensures |counts| == |tiles|
    ensures forall i :: 0 <= i < |tiles| ==> counts[i] == tiles[i].1
  {
    seq(|tiles|, i requires 0 <= i < |tiles| => tiles[i].1)
  }

  /** The weighted budgets summed from (0, 0, 0); the first failing tile,
      or a zero cell count met after a successful tile, fails the sum. */
  function SumWeighted(budgets: seq<Result<Budget>>, counts: seq<int>, cellCount: int): (r: Result<Budget>)
    requires |budgets| == |counts|
    ensures r.Success? <==> (forall i :: 0 <= i < |budgets| ==> budgets[i].Success?) && (budgets == [] || cellCount != 0)
  {
    if budgets == [] then Success(Budget(0.0, 0.0, 0.0))
    else
      var b :- budgets[0];
      if cellCount == 0 then Failure(DivisionByZero)
      else
        var rest :- SumWeighted(budgets[1..], counts[1..], cellCount);
        Success(BudgetPlus(Weighted(b, counts[0], cellCount), rest))
  }

  /** simulate_all_tiles: check the census's keys, in order, then average
      the tiles' budgets weighted by their counts. */
  function SimulateAllTiles(parameters: Parameters, census: Census, preColumbian: bool): (r: Result<Budget>)
    ensures census.result.None? ==> r == Failure(MissingResult)
    ensures census.result.Some? && census.result.value.cellCount.None? ==> r == Failure(MissingCellCount)
    ensures census.result.Some? && census.result.value.cellCount.Some? && census.result.value.distribution.None? ==>
              r == Failure(MissingDistribution)
    ensures census.result.Some? && census.result.value.cellCount.Some? && census.result.value.distribution == Some([]) ==>
              r == Success(Budget(0.0, 0.0, 0.0))
  {
    match census.result
    case None => Failure(MissingResult)
    case Some(result) =>
      match result.cellCount
      case None => Failure(MissingCellCount)
      case Some(cellCount) =>
        match result.distribution
        case None => Failure(MissingDistribution)
        case Some(tiles) =>
          SumWeighted(TileBudgets(parameters, tiles, preColumbian), TileCounts(tiles), cellCount)
  }

  /** The first tile that fails decides the census's error. */
  lemma {:induction false} SumWeightedFirstFailure(budgets: seq<Result<Budget>>, counts: seq<int>, cellCount: int, i: int)
    requires |budgets| == |counts|
    requires 0 <= i < |budgets| && budgets[i].Failure?
    requires forall j :: 0 <= j < i ==> budgets[j].Success?
    ensures SumWeighted(budgets, counts, cellCount).Failure?
    ensures cellCount != 0 || i == 0 ==> SumWeighted(budgets, counts, cellCount) == Failure(budgets[i].error)
  {
    if i > 0 {
      SumWeightedFirstFailure(budgets[1..], counts[1..], cellCount, i - 1);
    }
  }

  /** Every count multiplied by k. */
  function ScaleCounts(tiles: seq<(string, int)>, k: int): (scaled: seq<(string, int)>)
    ensures |scaled| == |tiles|
    ensures forall i :: 0 <= i < |tiles| ==> scaled[i] == (tiles[i].0, tiles[i].1 * k)
  {
    seq(|tiles|, i requires 0 <= i < |tiles| => (tiles[i].0, tiles[i].1 * k))
  }

  /** The census with its cell count and every tile count multiplied by k. */
  function ScaleCensus(census: Census, k: int): Census
  {
    match census.result
    case None => census
    case Some(result) =>
      Census(Some(CensusResult(
        if result.cellCount.Some? then Some(result.cellCount.value * k) else None,
        if result.distribution.Some? then Some(ScaleCounts(result.distribution.value, k)) else None)))
  }

  /** x * n / c == x * m / d whenever n / c == m / d. */
  lemma EqualRatios(x: real, n: real, c: real, m: real, d: real)
    requires c != 0.0 && d != 0.0 && n * d == m * c
    ensures (x * n) / c == (x * m) / d
  {
    var q := (x * n) / c;
    assert q * c == x * n;
    assert q * c * d == x * (n * d);
    assert q * d * c == (x * m) * c;
    assert q * d == x * m;
  }

  lemma CastProduct(a: int, b: int)
    ensures (a * b) as real == a as real * b as real
  {
  }

  /** A share depends only on the ratio n / c. */
  lemma ShareRatio(x: real, n: int, c: int, m: int, d: int)
    requires c != 0 && d != 0 && n * d == m * c
    ensures Share(x, n, c) == Share(x, m, d)
  {
    CastProduct(n, d);
    CastProduct(m, c);
    EqualRatios(x, n as real, c as real, m as real, d as real);
  }

  lemma WeightedRatio(b: Budget, n: int, c: int, m: int, d: int)
    requires c != 0 && d != 0 && n * d == m * c
    ensures Weighted(b, n, c) == Weighted(b, m, d)
  {
    ShareRatio(b.runoff, n, c, m, d);
    ShareRatio(b.et, n, c, m, d);
    ShareRatio(b.inf, n, c, m, d);
  }

  lemma {:induction false} SumWeightedScaleInvariant(budgets: seq<Result<Budget>>, counts: seq<int>, scaled: seq<int>, cellCount: int, k: int)
    requires k > 0 && |budgets| == |counts| == |scaled|
    requires forall i :: 0 <= i < |counts| ==> scaled[i] == counts[i] * k
    ensures SumWeighted(budgets, scaled, cellCount * k) == SumWeighted(budgets, counts, cellCount)
  {
    if budgets != [] {
      SumWeightedScaleInvariant(budgets[1..], counts[1..], scaled[1..], cellCount, k);
      if cellCount != 0 && budgets[0].Success? {
        assert counts[0] * k * cellCount == counts[0] * (cellCount * k);
        WeightedRatio(budgets[0].value, scaled[0], cellCount * k, counts[0], cellCount);
      }
    }
  }

  /** Multiplying every count and the cell count by the same k > 0 leaves
      the census's average unchanged. */
  lemma CensusScaleInvariant(parameters: Parameters, census: Census, k: int, preColumbian: bool)
    requires k > 0
    ensures SimulateAllTiles(parameters, ScaleCensus(census, k), preColumbian)
         == SimulateAllTiles(parameters, census, preColumbian)
  {
    if census.result.Some? && census.result.value.cellCount.Some? && census.result.value.distribution.Some? {
      var tiles := census.result.value.distribution.value;
      var scaled := ScaleCounts(tiles, k);
      assert TileBudgets(parameters, scaled, preColumbian) == TileBudgets(parameters, tiles, preColumbian);
      SumWeightedScaleInvariant(TileBudgets(parameters, tiles, preColumbian), TileCounts(tiles), TileCounts(scaled),
                                census.result.value.cellCount.value, k);
    }
  }

  /** Under pre-Columbian conditions every tile whose cover is not exempt
      simulates as mixed forest on its soil, so two single-tile censuses on
      the same soil and the same share of the cells agree. */
  lemma PreColumbianSingleCover(parameters: Parameters, soil: string, x: string, y: string, n: int, c: int, m: int, d: int)
    requires ':' !in soil && ':' !in x && ':' !in y
    requires Lower(x) !in PRE_COLUMBIAN_LAND_USES && Lower(y) !in PRE_COLUMBIAN_LAND_USES
    requires c != 0 && d != 0 && n * d == m * c
    ensures SimulateAllTiles(parameters, Census(Some(CensusResult(Some(c), Some([(soil + ":" + x, n)])))), true)
         == SimulateAllTiles(parameters, Census(Some(CensusResult(Some(d), Some([(soil + ":" + y, m)])))), true)
  {
    PreColumbianTile(parameters, soil, x);
    PreColumbianTile(parameters, soil, y);
    var b := SimulateTile(parameters, soil + ":" + x, true);
    SingleTileCensus(parameters, soil + ":" + x, n, c, true);
    SingleTileCensus(parameters, soil + ":" + y, m, d, true);
    if b.Success? {
      WeightedRatio(b.value, n, c, m, d);
    }
  }

  /** A census of a single tile string is that tile's budget times its share. */
  lemma SingleTileCensus(parameters: Parameters, tile: string, n: int, c: int, preColumbian: bool)
    requires c != 0
    ensures SimulateAllTiles(parameters, Census(Some(CensusResult(Some(c), Some([(tile, n)])))), preColumbian)
         == SumWeighted([SimulateTile(parameters, tile, preColumbian)], [n], c)
    ensures SimulateTile(parameters, tile, preColumbian).Success? ==>
              (SimulateAllTiles(parameters, Census(Some(CensusResult(Some(c), Some([(tile, n)])))), preColumbian)
               == Success(Weighted(SimulateTile(parameters, tile, preColumbian).value, n, c)))
  {
    var b := SimulateTile(parameters, tile, preColumbian);
    assert TileBudgets(parameters, [(tile, n)], preColumbian) == [b];
    assert TileCounts([(tile, n)]) == [n];
    SumWeightedSingle(b, n, c);
  }

  lemma SumWeightedSingle(b: Result<Budget>, n: int, c: int)
    requires c != 0
    ensures b.Success? ==> SumWeighted([b], [n], c) == Success(Weighted(b.value, n, c))
    ensures b.Failure? ==> SumWeighted([b], [n], c) == b
  {
    assert [b][1..] == [];
  }

  // ---------------------------------------------------------------------
  // Evapotranspiration bounds, from one tile to the census
  // ---------------------------------------------------------------------

  /** On any day of the sample year a tile that simulates transpires
      between 0 and 0.207 inches. */
  lemma SampleDayTileEvapotranspiration(day: int, tile: string, preColumbian: bool)
    requires SimulateTile(OnDay(day), tile, preColumbian).Success?
    ensures 0.0 <= SimulateTile(OnDay(day), tile, preColumbian).value.et <= 0.207
  {
    var parsed := ParseTile(tile).value;
    var name := if preColumbian then PreColumbianName(parsed.1) else parsed.1;
    var landUse := LandUseNamed(name);
    assert SimulateTile(OnDay(day), tile, preColumbian) == SimulateLandUse(OnDay(day), parsed.0, landUse);
    TileKeepsEvapotranspiration(OnDay(day), parsed.0, landUse);
    SampleYearETBounds(day, landUse.value);
  }

  /** The sum of the counts. */
  function TotalCount(counts: seq<int>): int
  {
    if counts == [] then 0 else counts[0] + TotalCount(counts[1..])
  }

  lemma ShareBounds(x: real, cap: real, n: int, c: int)
    requires 0.0 <= x <= cap && n >= 0 && c > 0
    ensures 0.0 <= Share(x, n, c) <= Share(cap, n, c)
  {
    assert x * n as real <= cap * n as real;
  }

  lemma ShareAdd(x: real, n: int, m: int, c: int)
    requires c != 0
    ensures Share(x, n + m, c) == Share(x, n, c) + Share(x, m, c)
  {
    assert x * (n + m) as real == x * n as real + x * m as real;
  }

  /** A weighted sum of budgets whose evapotranspiration lies in [0, cap]
      has evapotranspiration in [0, cap * total / cellCount]. */
  lemma {:induction false} SumWeightedEvapotranspiration(budgets: seq<Result<Budget>>, counts: seq<int>, c: int, cap: real)
    requires |budgets| == |counts| && c > 0
    requires forall i :: 0 <= i < |budgets| && budgets[i].Success? ==> 0.0 <= budgets[i].value.et <= cap
    requires forall i :: 0 <= i < |counts| ==> counts[i] >= 0
    ensures SumWeighted(budgets, counts, c).Success? ==>
              0.0 <= SumWeighted(budgets, counts, c).value.et <= Share(cap, TotalCount(counts), c)
  {
    if budgets != [] && SumWeighted(budgets, counts, c).Success? {
      SumWeightedEvapotranspiration(budgets[1..], counts[1..], c, cap);
      ShareBounds(budgets[0].value.et, cap, counts[0], c);
      ShareAdd(cap, counts[0], TotalCount(counts[1..]), c);
    }
  }

  /** A census whose counts are non-negative and add up to at most its
      positive cell count. */
  predicate WellFormedCensus(census: Census)
  {
    && census.result.Some?
    && census.result.value.cellCount.Some?
    && census.result.value.distribution.Some?
    && census.result.value.cellCount.value > 0
    && (forall i :: 0 <= i < |census.result.value.distribution.value| ==> census.result.value.distribution.value[i].1 >= 0)
    && TotalCount(TileCounts(census.result.value.distribution.value)) <= census.result.value.cellCount.value
  }

  /** Every tile of a census that simulates on a day of the sample year
      transpires between 0 and 0.207 inches. */
  lemma TileBudgetsEvapotranspiration(day: int, tiles: seq<(string, int)>, preColumbian: bool)
    ensures var budgets := TileBudgets(OnDay(day), tiles, preColumbian);
            forall i :: 0 <= i < |budgets| && budgets[i].Success? ==> 0.0 <= budgets[i].value.et <= 0.207
  {
    var budgets := TileBudgets(OnDay(day), tiles, preColumbian);
    forall i | 0 <= i < |budgets| && budgets[i].Success?
      ensures 0.0 <= budgets[i].value.et <= 0.207
    {
      SampleDayTileEvapotranspiration(day, tiles[i].0, preColumbian);
    }
  }

  /** A share of at most all the cells is at most the whole. */
  lemma ShareOfWhole(cap: real, total: int, c: int)
    requires 0.0 <= cap && 0 <= total <= c && c > 0
    ensures Share(cap, total, c) <= cap
  {
    ShareAdd(cap, total, c - total, c);
    ShareBounds(0.0, cap, c - total, c);
    assert Share(cap, c, c) == cap;
  }

  /** On any day of the sample year a well-formed census that simulates
      transpires between 0 and 0.207 inches: an average never exceeds the
      largest tile. */
  lemma CensusDayEvapotranspiration(day: int, census: Census, preColumbian: bool)
    requires WellFormedCensus(census)
    ensures SimulateAllTiles(OnDay(day), census, preColumbian).Success? ==>
              0.0 <= SimulateAllTiles(OnDay(day), census, preColumbian).value.et <= 0.207
  {
    var tiles := census.result.value.distribution.value;
    var c := census.result.value.cellCount.value;
    var budgets := TileBudgets(OnDay(day), tiles, preColumbian);
    assert SimulateAllTiles(OnDay(day), census, preColumbian) == SumWeighted(budgets, TileCounts(tiles), c);
    TileBudgetsEvapotranspiration(day, tiles, preColumbian);
    SumWeightedEvapotranspiration(budgets, TileCounts(tiles), c, 0.207);
    TotalCountNonNegative(TileCounts(tiles));
    ShareOfWhole(0.207, TotalCount(TileCounts(tiles)), c);
  }

  lemma {:induction false} TotalCountNonNegative(counts: seq<int>)
    requires forall i :: 0 <= i < |counts| ==> counts[i] >= 0
    ensures TotalCount(counts) >= 0
  {
    if counts != [] {
      TotalCountNonNegative(counts[1..]);
    }
  }

  // ---------------------------------------------------------------------
  // simulate_year
  // ---------------------------------------------------------------------

  /** The census simulated on each of the first n days of the sample year. */
  function DayBudgets(census: Census, preColumbian: bool, n: nat): (days: seq<Result<Budget>>)
    ensures |days| == n
    ensures forall d :: 0 <= d < n ==> days[d] == SimulateAllTiles(OnDay(d), census, preColumbian)
  {
    seq(n, d requires 0 <= d < n => SimulateAllTiles(OnDay(d), census, preColumbian))
  }

  /** reduce without an initial value: the days' budgets added up in order.
      It succeeds exactly when there is a day and every day succeeds; a
      failing first day is the sum's failure, and an empty list has nothing
      to reduce. */
  function SumDays(days: seq<Result<Budget>>): (r: Result<Budget>)
    ensures r.Success? <==> |days| > 0 && forall d :: 0 <= d < |days| ==> days[d].Success?
    ensures |days| > 0 && days[0].Failure? ==> r == days[0]
    ensures days == [] ==> r == Failure(EmptyReduce)
  {
    if days == [] then Failure(EmptyReduce)
    else if |days| == 1 then days[0]
    else
      var prefix :- SumDays(days[..|days| - 1]);
      var last :- days[|days| - 1];
      Success(BudgetPlus(prefix, last))
  }

  /** simulate_year: every day of the sample year simulated, then added up. */
  function SimulateYear(census: Census, preColumbian: bool): (r: Result<Budget>)
    ensures census.result.None? ==> r == Failure(MissingResult)
    ensures census.result.Some? && census.result.value.cellCount.None? ==> r == Failure(MissingCellCount)
    ensures census.result.Some? && census.result.value.cellCount.Some? && census.result.value.distribution.None? ==>
              r == Failure(MissingDistribution)
  {
    SumDays(DayBudgets(census, preColumbian, SAMPLE_YEAR.daysPerYear))
  }

  /** Days transpiring between 0 and cap each add up to between 0 and
      cap times their number. */
  lemma {:induction false} SumDaysEvapotranspiration(days: seq<Result<Budget>>, cap: real)
    requires forall d :: 0 <= d < |days| && days[d].Success? ==> 0.0 <= days[d].value.et <= cap
    ensures SumDays(days).Success? ==> 0.0 <= SumDays(days).value.et <= cap * |days| as real
  {
    if |days| > 1 {
      SumDaysEvapotranspiration(days[..|days| - 1], cap);
    }
  }

  /** A year of a well-formed census transpires at most 365 * 0.207 inches. */
  lemma YearEvapotranspiration(census: Census, preColumbian: bool)
    requires WellFormedCensus(census)
    ensures SimulateYear(census, preColumbian).Success? ==>
              0.0 <= SimulateYear(census, preColumbian).value.et <= 75.555
  {
    var days := DayBudgets(census, preColumbian, 365);
    forall d | 0 <= d < |days| && days[d].Success?
      ensures 0.0 <= days[d].value.et <= 0.207
    {
      CensusDayEvapotranspiration(d, census, preColumbian);
    }
    SumDaysEvapotranspiration(days, 0.207);
  }

  /** The year succeeds exactly when every day of the sample year does. */
  lemma YearSucceeds(census: Census, preColumbian: bool)
    ensures SimulateYear(census, preColumbian).Success? <==>
              forall d :: 0 <= d < 365 ==> SimulateAllTiles(OnDay(d), census, preColumbian).Success?
  {
  }

  /** Rounding to two decimals: within half a hundredth. */
  predicate Near(x: real, v: real)
  {
    v - 0.005 <= x <= v + 0.005
  }

  /** TR-55 Table 2-1, curve number 55, P up to 3 inches: with no
      evapotranspiration the equation reproduces the table to two decimals. */
  lemma TableTwoOneCN55Light()
    ensures Near(NrcsRunoffForCurve(1.8, 0.0, 55), 0.000)
    ensures Near(NrcsRunoffForCurve(2.0, 0.0, 55), 0.020)
    ensures Near(NrcsRunoffForCurve(2.5, 0.0, 55), 0.080)
    ensures Near(NrcsRunoffForCurve(3.0, 0.0, 55), 0.190)
  {
  }

  /** TR-55 Table 2-1, curve number 55, P from 3.5 to 8 inches: with no
      evapotranspiration the equation reproduces the table to two decimals. */
  lemma TableTwoOneCN55Moderate()
    ensures Near(NrcsRunoffForCurve(3.5, 0.0, 55), 0.350)
    ensures Near(NrcsRunoffForCurve(4.0, 0.0, 55), 0.530)
    ensures Near(NrcsRunoffForCurve(4.5, 0.0, 55), 0.740)
    ensures Near(NrcsRunoffForCurve(5.0, 0.0, 55), 0.980)
    ensures Near(NrcsRunoffForCurve(6.0, 0.0, 55), 1.520)
    ensures Near(NrcsRunoffForCurve(7.0, 0.0, 55), 2.120)
    ensures Near(NrcsRunoffForCurve(8.0, 0.0, 55), 2.780)
  {
  }

  /** TR-55 Table 2-1, curve number 55, P from 9 to 15 inches: with no
      evapotranspiration the equation reproduces the table to two decimals. */
  lemma TableTwoOneCN55Heavy()
    ensures Near(NrcsRunoffForCurve(9.0, 0.0, 55), 3.490)
    ensures Near(NrcsRunoffForCurve(10.0, 0.0, 55), 4.230)
    ensures Near(NrcsRunoffForCurve(11.0, 0.0, 55), 5.000)
    ensures Near(NrcsRunoffForCurve(12.0, 0.0, 55), 5.790)
    ensures Near(NrcsRunoffForCurve(13.0, 0.0, 55), 6.610)
    ensures Near(NrcsRunoffForCurve(14.0, 0.0, 55), 7.440)
    ensures Near(NrcsRunoffForCurve(15.0, 0.0, 55), 8.290)
  {
  }

  /** TR-55 Table 2-1, curve number 70, P up to 3 inches: with no
      evapotranspiration the equation reproduces the table to two decimals. */
  lemma TableTwoOneCN70Light()
    ensures Near(NrcsRunoffForCurve(1.2, 0.0, 70), 0.030)
    ensures Near(NrcsRunoffForCurve(1.4, 0.0, 70), 0.060)
    ensures Near(NrcsRunoffForCurve(1.6, 0.0, 70), 0.110)
    ensures Near(NrcsRunoffForCurve(1.8, 0.0, 70), 0.170)
    ensures Near(NrcsRunoffForCurve(2.0, 0.0, 70), 0.240)
    ensures Near(NrcsRunoffForCurve(2.5, 0.0, 70), 0.460)
    ensures Near(NrcsRunoffForCurve(3.0, 0.0, 70), 0.710)
  {
  }

  /** TR-55 Table 2-1, curve number 70, P from 3.5 to 8 inches: with no
      evapotranspiration the equation reproduces the table to two decimals. */
  lemma TableTwoOneCN70Moderate()
    ensures Near(NrcsRunoffForCurve(3.5, 0.0, 70), 1.010)
    ensures Near(NrcsRunoffForCurve(4.0, 0.0, 70), 1.330)
    ensures Near(NrcsRunoffForCurve(4.5, 0.0, 70), 1.670)
    ensures Near(NrcsRunoffForCurve(5.0, 0.0, 70), 2.040)
    ensures Near(NrcsRunoffForCurve(6.0, 0.0, 70), 2.810)
    ensures Near(NrcsRunoffForCurve(7.0, 0.0, 70), 3.620)
    ensures Near(NrcsRunoffForCurve(8.0, 0.0, 70), 4.460)
  {
  }

  /** TR-55 Table 2-1, curve number 70, P from 9 to 15 inches: with no
      evapotranspiration the equation reproduces the table to two decimals. */
  lemma TableTwoOneCN70Heavy()
    ensures Near(NrcsRunoffForCurve(9.0, 0.0, 70), 5.330)
    ensures Near(NrcsRunoffForCurve(10.0, 0.0, 70), 6.220)
    ensures Near(NrcsRunoffForCurve(11.0, 0.0, 70), 7.130)
    ensures Near(NrcsRunoffForCurve(12.0, 0.0, 70), 8.050)
    ensures Near(NrcsRunoffForCurve(13.0, 0.0, 70), 8.980)
    ensures Near(NrcsRunoffForCurve(14.0, 0.0, 70), 9.910)
    ensures Near(NrcsRunoffForCurve(15.0, 0.0, 70), 10.85)
  {
  }

  /** TR-55 Table 2-1, curve number 80, P up to 3 inches: with no
      evapotranspiration the equation reproduces the table to two decimals. */
  lemma TableTwoOneCN80Light()
    ensures Near(NrcsRunoffForCurve(1.0, 0.0, 80), 0.080)
    ensures Near(NrcsRunoffForCurve(1.2, 0.0, 80), 0.150)
    ensures Near(NrcsRunoffForCurve(1.4, 0.0, 80), 0.240)
    ensures Near(NrcsRunoffForCurve(1.6, 0.0, 80), 0.340)
    ensures Near(NrcsRunoffForCurve(1.8, 0.0, 80), 0.440)
    ensures Near(NrcsRunoffForCurve(2.0, 0.0, 80), 0.560)
    ensures Near(NrcsRunoffForCurve(2.5, 0.0, 80), 0.890)
    ensures Near(NrcsRunoffForCurve(3.0, 0.0, 80), 1.250)
  {
  }

  /** TR-55 Table 2-1, curve number 80, P from 3.5 to 8 inches: with no
      evapotranspiration the equation reproduces the table to two decimals. */
  lemma TableTwoOneCN80Moderate()
    ensures Near(NrcsRunoffForCurve(3.5, 0.0, 80), 1.640)
    ensures Near(NrcsRunoffForCurve(4.0, 0.0, 80), 2.040)
    ensures Near(NrcsRunoffForCurve(4.5, 0.0, 80), 2.460)
    ensures Near(NrcsRunoffForCurve(5.0, 0.0, 80), 2.890)
    ensures Near(NrcsRunoffForCurve(6.0, 0.0, 80), 3.780)
    ensures Near(NrcsRunoffForCurve(7.0, 0.0, 80), 4.690)
    ensures Near(NrcsRunoffForCurve(8.0, 0.0, 80), 5.630)
  {
  }

  /** TR-55 Table 2-1, curve number 80, P from 9 to 15 inches: with no
      evapotranspiration the equation reproduces the table to two decimals. */
  lemma TableTwoOneCN80Heavy()
    ensures Near(NrcsRunoffForCurve(9.0, 0.0, 80), 6.570)
    ensures Near(NrcsRunoffForCurve(10.0, 0.0, 80), 7.520)
    ensures Near(NrcsRunoffForCurve(11.0, 0.0, 80), 8.480)
    ensures Near(NrcsRunoffForCurve(12.0, 0.0, 80), 9.450)
    ensures Near(NrcsRunoffForCurve(13.0, 0.0, 80), 10.42)
    ensures Near(NrcsRunoffForCurve(14.0, 0.0, 80), 11.39)
    ensures Near(NrcsRunoffForCurve(15.0, 0.0, 80), 12.37)
  {
  }

  /** TR-55 Table 2-1, curve number 90, P up to 3 inches: with no
      evapotranspiration the equation reproduces the table to two decimals. */
  lemma TableTwoOneCN90Light()
    ensures Near(NrcsRunoffForCurve(1.0, 0.0, 90), 0.320)
    ensures Near(NrcsRunoffForCurve(1.2, 0.0, 90), 0.460)
    ensures Near(NrcsRunoffForCurve(1.4, 0.0, 90), 0.610)
    ensures Near(NrcsRunoffForCurve(1.6, 0.0, 90), 0.760)
    ensures Near(NrcsRunoffForCurve(1.8, 0.0, 90), 0.930)
    ensures Near(NrcsRunoffForCurve(2.0, 0.0, 90), 1.090)
    ensures Near(NrcsRunoffForCurve(2.5, 0.0, 90), 1.530)
    ensures Near(NrcsRunoffForCurve(3.0, 0.0, 90), 1.980)
  {
  }

  /** TR-55 Table 2-1, curve number 90, P from 3.5 to 8 inches: with no
      evapotranspiration the equation reproduces the table to two decimals. */
  lemma TableTwoOneCN90Moderate()
    ensures Near(NrcsRunoffForCurve(3.5, 0.0, 90), 2.450)
    ensures Near(NrcsRunoffForCurve(4.0, 0.0, 90), 2.920)
    ensures Near(NrcsRunoffForCurve(4.5, 0.0, 90), 3.400)
    ensures Near(NrcsRunoffForCurve(5.0, 0.0, 90), 3.880)
    ensures Near(NrcsRunoffForCurve(6.0, 0.0, 90), 4.850)
    ensures Near(NrcsRunoffForCurve(7.0, 0.0, 90), 5.820)
    ensures Near(NrcsRunoffForCurve(8.0, 0.0, 90), 6.810)
  {
  }

  /** TR-55 Table 2-1, curve number 90, P from 9 to 15 inches: with no
      evapotranspiration the equation reproduces the table to two decimals. */
  lemma TableTwoOneCN90Heavy()
    ensures Near(NrcsRunoffForCurve(9.0, 0.0, 90), 7.790)
    ensures Near(NrcsRunoffForCurve(10.0, 0.0, 90), 8.780)
    ensures Near(NrcsRunoffForCurve(11.0, 0.0, 90), 9.770)
    ensures Near(NrcsRunoffForCurve(12.0, 0.0, 90), 10.76)
    ensures Near(NrcsRunoffForCurve(13.0, 0.0, 90), 11.76)
    ensures Near(NrcsRunoffForCurve(14.0, 0.0, 90), 12.75)
    ensures Near(NrcsRunoffForCurve(15.0, 0.0, 90), 13.74)
  {
  }
}
