# TR-55 runoff model in Dafny

A verified model of the core of the WikiWatershed TR-55 calculator (tr-55,
Python). The calculator splits one day's precipitation on a tile of land
into runoff, evapotranspiration and infiltration. A tile is a soil group
plus a land use, written as a string such as `"b:hi_residential"`. The
split depends on the land use:

- Best management practices (BMPs) infiltrate a tabled depth.
- A rain garden mixes 20 % of its own budget with 80 % of the high-intensity
  residential budget.
- Built land uses follow the Pitt small-storm curves up to 2 inches, and the
  larger of Pitt at 2 inches and the NRCS curve-number equation above that.
- Every other land use follows the NRCS equation.

A census of tiles is averaged by cell count. A year is the sum of the
census's budgets over every day of the sample year.

Modules, one per source file:

- `Wrappers`: `Option`, `Result` and the `Error` kinds that stand for the
  exceptions the source raises.
- `Tables` (tr55/tables.py): `SAMPLE_YEAR`, whose precipitation list is
  split into blocks of runs; `LAND_USE_VALUES` as a `LandUse` enumeration
  with a `Values` row per land use; `BMPS`; `BUILT_TYPES`. Consistency
  lemmas cover the tables.
- `TableLookup` (tr55/tablelookup.py): `lookupP` is a loop method proved
  equal to a recursive walk over the runs. `lookupET`, `lookupCN`,
  `lookupBMPInfiltration`, `isBMP` and `isBuiltType` are functions over
  the tables.
- `Operations` (tr55/operations.py): `tandem_walk` is a specification
  function `Walk` plus a method `TandemWalk` whose dictionary branch is the
  source's insertion loop. `dict_plus` is a method proved equal to its
  specification `DictSum`. Lemmas prove branch behaviour and commutativity.
- `Model` (tr55/model.py): the Pitt and NRCS runoff equations, tile parsing,
  `simulate_tile`, `simulate_all_tiles` and `simulate_year`.
- `WaterQuality` (tr55/water_quality.py): runoff volume in litres and
  pollutant load in pounds.

Representation choices:

- Floating-point numbers are `real`.
- A date is its ordinal day in the non-leap year 1, where 0 is January 1.
- A Python exception is a `Failure` value.
- A tile census is a datatype whose `result`, `cell_count` and
  `distribution` may each be missing.
- A dictionary of the walk is the `Tree` datatype, with `Null` for `None`.

The modelled files tr55/model.py, tr55/tablelookup.py and tr55/tables.py
come from different versions of tr-55:

- tr55/model.py imports `lookup_p`, `lookup_et`, `lookup_cn`,
  `lookup_bmp_infiltration`, `is_bmp`, `is_built_type` and
  `days_in_sample_year`.
- tr55/tablelookup.py defines `lookupP`, `lookupET`, `lookupCN`,
  `lookupBMPInfiltration`, `isBMP` and `isBuiltType` over `SampleYear`,
  `TableA`, `TableB` and `TableC`.
- tr55/tables.py defines `SAMPLE_YEAR`, `LAND_USE_VALUES`, `BMPS` and
  `BUILT_TYPES`.

The model assumes the following correspondence:

- Each snake_case name is the camelCase function of the same meaning.
- `SampleYear` is `SAMPLE_YEAR`.
- `TableA[lu]` is `LAND_USE_VALUES[lu]['ki']`.
- `TableB[soil][lu]` is `LAND_USE_VALUES[lu]['infiltration'][soil]`.
- `TableC[soil][lu]` is `LAND_USE_VALUES[lu]['cn'][soil]`.
- `BMPs` and `BuiltTypes` are `BMPS` and `BUILT_TYPES`.
- `days_in_sample_year()` is `days_per_year`, which is 365.

The tests use older key spellings (`soilB`, `DeciduousForest`). The
model's spot checks use the keys of tr55/tables.py (`b`, `deciduous_forest`).

## Model

| member | source | states |
|---|---|---|
| Tables.LandUseNamed | tr55/tables.py:118-144 | a name resolves to a land use only when it is exactly that land use's key in LAND_USE_VALUES |
| Tables.LandUseNamedComplete | tr55/tables.py:118-144 | every key of LAND_USE_VALUES resolves to the land use stored under it |
| Tables.DayOfYear | tr55/tables.py:14-18 | every valid month and day of year 1 has an ordinal in 0..364 |
| Tables.SampleYearRunsCoverYear | tr55/tables.py:13-115 | the precipitation run lengths add up to days_per_year = 365, and every run covers at least one day |
| Tables.GrowingSeasonOrdered | tr55/tables.py:14-18 | the growing season starts (4/15, day 104) before it ends (10/14, day 286), inside the year; the year starts on 10/15, day 287 |
| Tables.BmpsByName | tr55/tables.py:146-150 | a name is in BMPS exactly when it resolves to a land use in the BMP set |
| Tables.BuiltTypesByName | tr55/tables.py:152-154 | a name is in BUILT_TYPES exactly when it resolves to a land use in the built-type set |
| Tables.CurveNumbersInRange | tr55/tables.py:118-143 | every curve number in LAND_USE_VALUES lies in (0, 100] |
| Tables.CurveNumberSoilGroups | tr55/tables.py:118-143 | every curve-number table has exactly the soil groups a, b, c, d |
| Tables.BmpInfiltrationCoverage | tr55/tables.py:138-150 | every BMP has an infiltration table; green_roof's covers a-d; cluster_housing and no_till are not BMPs |
| Tables.BmpInfiltrationLacksSoilD | tr55/tables.py:139-141 | porous_paving, rain_garden and infiltration_trench cover soils a, b and c but not d |
| Tables.BuiltTypeCurveNumbers | tr55/tables.py:118-154 | every built type except cluster_housing has curve numbers; cluster_housing has only a ki |
| Tables.KiInUnitRange | tr55/tables.py:118-143 | every landscape coefficient ki lies in [0, 1] |
| Tables.InfiltrationPositive | tr55/tables.py:138-141 | every tabled BMP infiltration depth is positive |
| TableLookup.PyMod | tr55/tablelookup.py:40 | Python's remainder: it has the divisor's sign and satisfies a == (a // n) * n + r |
| TableLookup.DayOffset | tr55/tablelookup.py:34-40 | the day's offset from year_start, taken modulo days_per_year, lies in [0, days_per_year); a zero modulus fails |
| TableLookup.PrecipAt | tr55/tablelookup.py:30-45 | a zero year length fails with the division by zero; any other failure is a day the runs do not reach |
| TableLookup.LookupP | tr55/tablelookup.py:30-45 | the loop that decrements the day count through the runs returns exactly the walk specification PrecipAt |
| TableLookup.RunAtDefined | tr55/tablelookup.py:40-45 | the walk finds a run exactly for the offsets inside the runs' total length |
| TableLookup.RunAtFindsRun | tr55/tablelookup.py:41-44 | an offset after runs 0..i-1 and inside run i gets run i's depth |
| TableLookup.RunAtIsARun | tr55/tablelookup.py:41-44 | a depth the walk returns is the depth of the run containing the offset |
| TableLookup.RunAtAppend | tr55/tablelookup.py:41-44 | walking a concatenation walks the first part, then the second part at the remaining offset |
| TableLookup.PrecipDefinedForEveryDay | tr55/tablelookup.py:37-45 | when the runs cover the year exactly, no day raises 'No Data for Day' |
| TableLookup.SampleYearPrecipDefined | tr55/tablelookup.py:30-45 | every day has a precipitation in SAMPLE_YEAR |
| TableLookup.SampleYearLastRun | tr55/tables.py:114 | offsets 243..364 fall in the final 122 dry days |
| TableLookup.LookupPSpotChecks | test/test_tablelookup.py:31-39 | the precipitation on 10/15, 2/12, 2/15, 2/19 and 10/14 is 0, 0.01, 0.01, 0.02 and 0 |
| TableLookup.LookupET | tr55/tablelookup.py:8-28 | the lookup succeeds exactly for a known land use, and fails with 'Unknown Land Use' otherwise |
| TableLookup.SampleYearETBounds | tr55/tablelookup.py:15-28 | sample-year ET is 0.207 × ki in the growing season (both ends included) and 0 outside it, so it lies in [0, 0.207] |
| TableLookup.LookupETSpotChecks | test/test_tablelookup.py:41-49 | woody_wetland gives 0.207 on 4/15 and 10/14 and 0 on 4/14 and 10/15; commercial gives a positive ET on 6/15 |
| TableLookup.LookupCN | tr55/tablelookup.py:56-63 | the lookup succeeds exactly for a soil group a-d and a land use with curve numbers, returns a value in (0, 100], and otherwise fails |
| TableLookup.LookupBMPInfiltration | tr55/tablelookup.py:47-54 | the lookup succeeds exactly when the land use has an infiltration entry for the soil, returns a positive depth, and otherwise fails |
| TableLookup.IsBMP | tr55/tablelookup.py:65-69 | a BMP is a known land use with an infiltration table |
| TableLookup.IsBuiltType | tr55/tablelookup.py:71-75 | a built type is a known land use, and every built type other than cluster_housing has curve numbers |
| TableLookup.BmpInfiltrationLookups | tr55/tablelookup.py:47-54 | for a BMP, the infiltration lookup succeeds on soils a-c, and on soil d only for green_roof |
| TableLookup.BuiltTypeCNLookups | tr55/tablelookup.py:56-63 | for a built type, the curve-number lookup succeeds exactly on a-d and for types other than cluster_housing |
| TableLookup.LookupBMPInfiltrationGreenRoof | test/test_tablelookup.py:55 | green_roof on soil d infiltrates 1.6 |
| TableLookup.LookupBMPInfiltrationPorousPaving | test/test_tablelookup.py:56 | porous_paving on soil c infiltrates 1.73 |
| TableLookup.LookupBMPInfiltrationRainGarden | test/test_tablelookup.py:57 | rain_garden on soil b infiltrates 0.6 |
| TableLookup.LookupBMPInfiltrationTrench | test/test_tablelookup.py:58 | infiltration_trench on soil a infiltrates 2.4 |
| TableLookup.LookupCNSpotChecksDeveloped | test/test_tablelookup.py:64-65 | water on a has CN 100; li_residential on b has CN 68 |
| TableLookup.LookupCNSpotChecksDense | test/test_tablelookup.py:66-67 | hi_residential on c has CN 90; commercial on d has CN 95 |
| TableLookup.LookupCNSpotChecksBarren | test/test_tablelookup.py:68-69 | rock on a has CN 77; deciduous_forest on b has CN 55 |
| TableLookup.LookupCNSpotChecksForest | test/test_tablelookup.py:70-71 | evergreen_forest on c has CN 70; mixed_forest on d has CN 77 |
| Operations.Walk | tr55/operations.py:9-31 | a dictionary facing `None` comes back unchanged; two dictionaries give a dictionary over the union of their keys; mismatched shapes of which neither satisfies the predicate (a dictionary facing a number, two such numbers, two `None`s) give `None` |
| Operations.IsNumber | tr55/operations.py:34-42 | a tree is a number exactly when it is a `Num` |
| Operations.TandemWalk | tr55/operations.py:9-31 | the recursive walk with the key-insertion loop returns exactly the six-branch specification Walk |
| Operations.MergeChildren | tr55/operations.py:24-31 | the loop over the key union yields a dictionary over exactly the union, each value the walk of the two children, with None for a missing side |
| Operations.DictPlus | tr55/operations.py:45-51 | dict_plus returns exactly the walk with plus, neutral 0 and is_number |
| Operations.DictSumNumbers | tr55/operations.py:14-19 | two numbers are added; a number facing None is added to 0, so it is unchanged |
| Operations.DictSumDictNull | tr55/operations.py:20-23 | a dictionary facing None, on either side, comes back unchanged |
| Operations.DictSumDicts | tr55/operations.py:24-31 | two dictionaries give a dictionary over the union of their keys, each value the sum of the two children |
| Operations.DictSumMismatch | tr55/operations.py:14-31 | a number facing a dictionary, in either order, and None facing None all yield None |
| Operations.WalkCommutes | tr55/operations.py:14-31 | for a commutative op, the walk is symmetric in its two trees |
| Operations.DictSumCommutes | tr55/operations.py:45-51 | dict_plus is commutative |
| Operations.DictSumSelf | tr55/operations.py:45-51 | adding any tree to itself keeps its shape and doubles every number |
| Operations.DictSumSingleKey | tr55/operations.py:24-31 | two one-key dictionaries with the same key sum to a one-key dictionary holding the sum of the children |
| Operations.DictPlusExample1 | test/test_operations.py:16-23 | the first example's two nested dictionaries sum to the expected dictionary |
| Operations.DictPlusExample3 | test/test_operations.py:34-40 | adding {'x': {'y': None}} leaves the other tree unchanged |
| Model.RunoffPitt | tr55/model.py:19-53 | Pitt runoff exists exactly for the eight tabled land uses, never exceeds precip, and otherwise fails as 'not a built-type' |
| Model.PittSharedCurves | tr55/model.py:40-49 | water, commercial, industrial and transportation share the impervious curve; li_residential equals cluster_housing |
| Model.BuiltTypesHavePittCurves | tr55/model.py:40-53 | every built type has a Pitt curve |
| Model.NrcsCutoff | tr55/model.py:56-64 | the cutoff -2(CN-100)/CN is the initial abstraction Ia = 0.2 (1000/CN - 10); precip is cut off exactly when precip <= Ia; CN = 0 is a division by zero |
| Model.UnclampedRunoff | tr55/model.py:75-80 | above the cutoff with 0 < CN <= 100, (P - Ia)^2 / (P - Ia + S) lies between 0 and P - Ia |
| Model.NrcsRunoffForCurve | tr55/model.py:73-81 | at or below Ia the runoff is 0; above Ia it is at most P - ET and at most P - Ia, and it is non-negative unless it equals P - ET |
| Model.RunoffNrcs | tr55/model.py:67-81 | runoff_nrcs succeeds exactly when the curve number is found, and is then the curve-number equation at that CN |
| Model.TableTwoOneCN55Light | test/test_model.py:601-623 | at CN 55 with no ET, the runoff at P = 1.8 .. 3.0 rounds to Table 2-1's values |
| Model.TableTwoOneCN55Moderate | test/test_model.py:601-623 | at CN 55, P = 3.5 .. 8.0 rounds to Table 2-1's values |
| Model.TableTwoOneCN55Heavy | test/test_model.py:601-623 | at CN 55, P = 9 .. 15 rounds to Table 2-1's values |
| Model.TableTwoOneCN70Light | test/test_model.py:601-623 | at CN 70, P = 1.2 .. 3.0 rounds to Table 2-1's values |
| Model.TableTwoOneCN70Moderate | test/test_model.py:601-623 | at CN 70, P = 3.5 .. 8.0 rounds to Table 2-1's values |
| Model.TableTwoOneCN70Heavy | test/test_model.py:601-623 | at CN 70, P = 9 .. 15 rounds to Table 2-1's values |
| Model.TableTwoOneCN80Light | test/test_model.py:601-623 | at CN 80, P = 1.0 .. 3.0 rounds to Table 2-1's values |
| Model.TableTwoOneCN80Moderate | test/test_model.py:601-623 | at CN 80, P = 3.5 .. 8.0 rounds to Table 2-1's values |
| Model.TableTwoOneCN80Heavy | test/test_model.py:601-623 | at CN 80, P = 9 .. 15 rounds to Table 2-1's values |
| Model.TableTwoOneCN90Light | test/test_model.py:601-623 | at CN 90, P = 1.0 .. 3.0 rounds to Table 2-1's values |
| Model.TableTwoOneCN90Moderate | test/test_model.py:601-623 | at CN 90, P = 3.5 .. 8.0 rounds to Table 2-1's values |
| Model.TableTwoOneCN90Heavy | test/test_model.py:601-623 | at CN 90, P = 9 .. 15 rounds to Table 2-1's values |
| Model.LowerKeepsSeparators | tr55/model.py:105 | lowercasing keeps every ':' and adds none |
| Model.Split | tr55/model.py:106 | str.split gives one more part than the string has separators |
| Model.SplitJoin | tr55/model.py:106 | joining the parts with the separator gives back the string, and no part holds the separator |
| Model.SplitPair | tr55/model.py:106 | "a:b" with no ':' in a or b splits into exactly [a, b] |
| Model.ParseTile | tr55/model.py:105-106 | a tile parses exactly when it holds one ':', otherwise fails; the parts are ':'-free and rejoin to the lowered tile |
| Model.ParseTilePair | tr55/model.py:105-106 | "soil:name" with ':'-free parts parses to the lowered soil and name |
| Model.PreColumbianByName | tr55/model.py:108-116 | replacing a name by mixed_forest is the same as replacing its land use, so exempt names stay and every other known or unknown name becomes mixed_forest |
| Model.PreColumbianTile | tr55/model.py:108-116 | under pre-Columbian conditions a non-exempt tile simulates as mixed_forest on the same soil |
| Model.Weather | tr55/model.py:118-124 | a (P, ET) pair is used as given; a date looks P and ET up, failing only for an unknown land use; any other argument is an error |
| Model.SimulateLandUse | tr55/model.py:118-153 | every budget the tile simulation returns has non-negative infiltration |
| Model.NonBmpRunoff | tr55/model.py:144-151 | the runoff of a land use that is not a BMP exists exactly for a built type at P <= 2 or where the curve number is tabled; otherwise it fails as an unknown soil or land use |
| Model.SimulateTile | tr55/model.py:84-153 | a tile without exactly one ':' is malformed; a parsed tile with an unsupported first argument is an error |
| Model.ZeroPrecipitation | tr55/model.py:126-127 | with no precipitation the budget is (0, ET, 0) |
| Model.BmpWaterBalance | tr55/model.py:129-132 | a BMP other than rain_garden succeeds exactly when its infiltration is tabled for the soil; then runoff = P - (ET + inf), unclamped, so the triple adds to P |
| Model.RainGardenMix | tr55/model.py:133-142 | a rain garden on soil d fails; otherwise its budget is 0.2 × its own BMP triple + 0.8 × the hi_residential triple |
| Model.RainGardenRetile | tr55/model.py:138-139 | re-simulating "soil:hi_residential" with the same P and ET is the hi_residential simulation on that soil |
| Model.TileKeepsEvapotranspiration | tr55/model.py:118-153 | every successful budget's evapotranspiration is the ET of the weather inputs |
| Model.BuiltTypeRunoff | tr55/model.py:144-149 | built types use Pitt, which always succeeds, up to P = 2; above 2 they use max(Pitt at 2, NRCS), which succeeds exactly on soils a-d and for types other than cluster_housing |
| Model.UnbuiltRunoff | tr55/model.py:150-151 | other land uses use runoff_nrcs |
| Model.NonBmpWaterBalance | tr55/model.py:150-153 | for a non-BMP, infiltration is never negative; runoff + ET + inf = P when P - (ET + runoff) >= 0, and otherwise inf = 0 and the triple exceeds P |
| Model.SmallStormOvershoot | tr55/model.py:144-153 | 0.1 inches on commercial soil a with ET 0.0124 gives (0.1, 0.0124, 0), since Pitt takes all of P as runoff |
| Model.SimulateAllTiles | tr55/model.py:169-189 | a missing result, cell_count or distribution fails in that order; an empty distribution gives (0, 0, 0) |
| Model.SumWeighted | tr55/model.py:176-189 | the weighted sum of the tiles' budgets succeeds exactly when every tile succeeds and the cell count is nonzero or there are no tiles |
| Model.SumWeightedFirstFailure | tr55/model.py:178-189 | the first failing tile fails the census, with that tile's error unless the cell count is 0 and a tile before it succeeded |
| Model.SingleTileCensus | tr55/model.py:176-189 | a one-tile census is the tile's budget times n / cell_count |
| Model.SumWeightedScaleInvariant | tr55/model.py:178-189 | multiplying every weight and the total by k > 0 leaves the weighted sum unchanged |
| Model.CensusScaleInvariant | tr55/model.py:169-189 | multiplying every count and the cell count by k > 0 leaves the census's result unchanged |
| Model.PreColumbianSingleCover | tr55/model.py:108-189 | under pre-Columbian conditions, two single-cover censuses of non-exempt covers on the same soil with the same cell share give the same result |
| Model.SampleDayTileEvapotranspiration | tr55/model.py:118-120 | on a sample-year day, a tile that simulates transpires between 0 and 0.207 inches |
| Model.SumWeightedEvapotranspiration | tr55/model.py:178-189 | tiles transpiring in [0, cap], with non-negative counts, average to at most cap × (sum of counts) / cell_count |
| Model.CensusDayEvapotranspiration | tr55/model.py:156-189 | a census with non-negative counts adding to at most its positive cell count transpires between 0 and 0.207 inches a day |
| Model.SimulateYear | tr55/model.py:192-209 | the year fails with the census's missing-key error exactly as simulate_all_tiles does |
| Model.SumDays | tr55/model.py:201-209 | the reduce of the days with day_add succeeds exactly when there is at least one day and every day succeeds; a failing first day is the year's failure; no days is the error of reduce on an empty list |
| Model.SumDaysEvapotranspiration | tr55/model.py:201-209 | days transpiring in [0, cap] add up to between 0 and cap × the number of days |
| Model.YearSucceeds | tr55/model.py:192-209 | the year succeeds exactly when each of its 365 days does |
| Model.YearEvapotranspiration | tr55/model.py:192-209 | a year of such a census transpires between 0 and 365 × 0.207 = 75.555 inches |
| WaterQuality.VolumeOfRunoff | tr55/water_quality.py:9-37 | the volume is non-negative when runoff, count and resolution are |
| WaterQuality.VolumeIsDepthTimesArea | tr55/water_quality.py:29-37 | the litres are the depth in millimetres (25.4 per inch) times the area in square metres |
| WaterQuality.VolumeZero | tr55/water_quality.py:31-35 | no runoff or no cells gives no volume |
| WaterQuality.VolumeAdditiveInCells | tr55/water_quality.py:31-35 | the volume over two groups of cells is the sum of their volumes |
| WaterQuality.VolumeExample | test/test_water_quality.py:10-20 | 0.4 inches over 100 cells of 30 m² is 30480 litres |
| WaterQuality.EventMeanConcentration | tr55/water_quality.py:49-50 | the concentration exists exactly when the land use has an NLCD class with an entry for the pollutant; an unknown land use and an unknown pollutant fail distinctly |
| WaterQuality.PollutantLoad | tr55/water_quality.py:40-54 | the load succeeds exactly when the concentration exists, and otherwise carries its error |
| WaterQuality.LoadIsConcentrationTimesVolume | tr55/water_quality.py:46-54 | the load is emc × litres × 2.205 / 1 000 000 pounds |
| WaterQuality.LoadLinear | tr55/water_quality.py:52-54 | the load is linear in the runoff litres |
| WaterQuality.LoadZero | tr55/water_quality.py:52-54 | no runoff carries no load |
| WaterQuality.LoadUnknownNames | test/test_water_quality.py:36-47 | an unknown land use or an unknown pollutant makes the load fail |

## Left out

- Leap years and dates: dates are ordinal days of year 1; the ValueError that the year normalisation raises on February 29 is not modelled.
- Model.SumWeighted: divides over `real`. tr55/model.py has no `from __future__ import division`, so under Python 2 `(x * local_count) / global_count` (tr55/model.py:182) floors when x is an int, as a user-supplied integer ET returned unchanged (tr55/model.py:127, 132, 153) is: `simulate_all_tiles((1.0, 1), {'result': {'cell_count': 2, 'distribution': {'a:mixed_forest': 1}}})` has ET 0 there and 0.5 here. Integer and float values are not distinguished.
- Model.Weather: `Given` always holds a pair; the ValueError from unpacking a tuple of another length (tr55/model.py:122) is not modelled.
- TableLookup.PrecipAt and TableLookup.LookupET: a date is any integer ordinal. `DayOffset` reduces it modulo 365 for the precipitation, but the growing season compares the ordinal as it is, so only the days 0..364 (the days `simulate_year` visits) correspond to dates.
- Model.SimulateYear: takes `days_in_sample_year()` to be `days_per_year` (365); tr55/tablelookup.py does not define it.
- Floating-point rounding: arithmetic is exact over `real`; `round(x, 2)` in the Table 2-1 checks becomes the interval `Near` of ±0.005, with the upper end included.
- The per-tile mean-error and RMSE comparisons against empirical output in test/test_model.py are statistical and not modelled.
- Lowercasing touches only ASCII letters; Python's Unicode case mapping is not modelled.
- `is_number` under Python 2 and 3: the `Tree` datatype has only real numbers, dictionaries and `None`; other Python values (strings, lists, booleans) are not modelled.
- Operations.TandemWalk: the copy returned for a dictionary facing `None` is the same value here; aliasing of Python dictionaries is not modelled.
- Dictionary iteration order: the order of tiles in a census, and of keys in a walk, is a sequence or a set; over exact reals the sums do not depend on it.
- `lookup_nlcd`, `lookup_load` and the pollution-load table are not part of this model; they are the partial maps `nlcdOf` and `loads` passed to WaterQuality. A missing NLCD row in `loads` is reported as an unknown pollutant.
- Exception messages and types become `Error` constructors. The ValueError from unpacking a tile with more or fewer than one ':' is `MalformedTile`. A bad first argument is `BadParameters`. The TypeError of `reduce` on an empty list is `EmptyReduce`.
- Names are resolved to keys with `LandUseNamed`. Any unknown name is `None`, so two different unknown names are indistinguishable; every lookup fails on them either way.
- tr55/plotRunoff.py and tr55/makeMiniAppTable.py (plotting and CSV scripts), setup.py (packaging), the census-tree builder and `simulate_day`, which tr55/model.py does not define.
- Pitt runoff is clamped to P (tr55/model.py:53), not to P - ET as runoff_nrcs is; the model follows the code (Model.SmallStormOvershoot shows the resulting budget above P).
