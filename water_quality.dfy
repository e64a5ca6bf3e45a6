/** Water quality: the volume of runoff over an area of cells and the
    pollutant load that volume carries.

    The land-use-to-NLCD-class lookup and the table of event mean
    concentrations are partial maps passed in as parameters: their
    contents are not part of this model. */
module WaterQuality {
  import opened Wrappers

  const INCH_TO_METER: real := 0.0254
  const LITERS_PER_CUBIC_METER: real := 1000.0
  const MG_PER_KG: real := 1000000.0
  const LBS_PER_KG: real := 2.205

  /** get_volume_of_runoff: the litres of runoff `runoff` inches deep over
      `cellCount` cells of `cellResolution` square metres each. */
  function VolumeOfRunoff(runoff: real, cellCount: int, cellResolution: real): (liters: real)
    ensures runoff >= 0.0 && cellCount >= 0 && cellResolution >= 0.0 ==> liters >= 0.0
  {
    var runoffMeters := runoff * INCH_TO_METER;
    var meterCells := runoffMeters * cellCount as real;
    var cubicMeters := meterCells * cellResolution;
    cubicMeters * LITERS_PER_CUBIC_METER
  }

  /** One millimetre of water over one square metre is one litre: the
      volume is the depth in millimetres times the area in square metres. */
  lemma VolumeIsDepthTimesArea(runoff: real, cellCount: int, cellResolution: real)
    ensures VolumeOfRunoff(runoff, cellCount, cellResolution) == (runoff * 25.4) * (cellCount as real * cellResolution)
  {
    var n := cellCount as real;
    assert runoff * INCH_TO_METER * n * cellResolution * LITERS_PER_CUBIC_METER
        == (runoff * 25.4) * (n * cellResolution);
  }

  /** No runoff, or no cells, means no volume. */
  lemma VolumeZero(runoff: real, cellCount: int, cellResolution: real)
    requires runoff == 0.0 || cellCount == 0
    ensures VolumeOfRunoff(runoff, cellCount, cellResolution) == 0.0
  {
    VolumeIsDepthTimesArea(runoff, cellCount, cellResolution);
  }

  /** The volume over two groups of cells is the sum of their volumes. */
  lemma VolumeAdditiveInCells(runoff: real, n: int, m: int, cellResolution: real)
    ensures VolumeOfRunoff(runoff, n + m, cellResolution)
         == VolumeOfRunoff(runoff, n, cellResolution) + VolumeOfRunoff(runoff, m, cellResolution)
  {
    VolumeIsDepthTimesArea(runoff, n + m, cellResolution);
    VolumeIsDepthTimesArea(runoff, n, cellResolution);
    VolumeIsDepthTimesArea(runoff, m, cellResolution);
    assert (n + m) as real * cellResolution == n as real * cellResolution + m as real * cellResolution;
  }

  /** 0.4 inches over 100 cells of 30 square metres is 30480 litres. */
  lemma VolumeExample()
    ensures VolumeOfRunoff(0.4, 100, 30.0) == 30480.0
  {
    VolumeIsDepthTimesArea(0.4, 100, 30.0);
  }

  /** The event mean concentration, in mg/L, of `pollutant` for the land
      use `useType`: the land use's NLCD class first, then that class's
      entry for the pollutant. */
  function EventMeanConcentration(nlcdOf: map<string, int>, loads: map<int, map<string, real>>,
                                  useType: string, pollutant: string): (r: Result<real>)
    ensures r.Success? <==> useType in nlcdOf && nlcdOf[useType] in loads && pollutant in loads[nlcdOf[useType]]
    ensures useType !in nlcdOf ==> r == Failure(UnknownNlcd)
    ensures useType in nlcdOf && r.Failure? ==> r == Failure(UnknownPollutant)
    ensures r.Success? ==> r.value == loads[nlcdOf[useType]][pollutant]
  {
    if useType !in nlcdOf then Failure(UnknownNlcd)
    else
      var nlcd := nlcdOf[useType];
      if nlcd !in loads || pollutant !in loads[nlcd] then Failure(UnknownPollutant)
      else Success(loads[nlcd][pollutant])
  }

  /** get_pollutant_load: the pounds of pollutant carried by `runoffLiters`
      litres of runoff from the land use `useType`. */
  function PollutantLoad(nlcdOf: map<string, int>, loads: map<int, map<string, real>>,
                         useType: string, pollutant: string, runoffLiters: real): (r: Result<real>)
    ensures r.Success? <==> EventMeanConcentration(nlcdOf, loads, useType, pollutant).Success?
    ensures r.Failure? ==> r.error == EventMeanConcentration(nlcdOf, loads, useType, pollutant).error
  {
    var emc :- EventMeanConcentration(nlcdOf, loads, useType, pollutant);
    var loadMg := emc * runoffLiters;
    Success((loadMg / MG_PER_KG) * LBS_PER_KG)
  }

  /** mg/L times litres gives milligrams; a million of them is a kilogram of
      2.205 pounds. */
  lemma LoadIsConcentrationTimesVolume(nlcdOf: map<string, int>, loads: map<int, map<string, real>>,
                                       useType: string, pollutant: string, runoffLiters: real)
    requires EventMeanConcentration(nlcdOf, loads, useType, pollutant).Success?
    ensures PollutantLoad(nlcdOf, loads, useType, pollutant, runoffLiters).Success?
    ensures PollutantLoad(nlcdOf, loads, useType, pollutant, runoffLiters).value
         == EventMeanConcentration(nlcdOf, loads, useType, pollutant).value * runoffLiters * 0.000002205
  {
  }

  /** The load is linear in the runoff volume. */
  lemma LoadLinear(nlcdOf: map<string, int>, loads: map<int, map<string, real>>,
                   useType: string, pollutant: string, a: real, b: real, k: real)
    requires EventMeanConcentration(nlcdOf, loads, useType, pollutant).Success?
    ensures PollutantLoad(nlcdOf, loads, useType, pollutant, k * a + b).value
         == k * PollutantLoad(nlcdOf, loads, useType, pollutant, a).value
            + PollutantLoad(nlcdOf, loads, useType, pollutant, b).value
  {
    var emc := EventMeanConcentration(nlcdOf, loads, useType, pollutant).value;
    LoadIsConcentrationTimesVolume(nlcdOf, loads, useType, pollutant, k * a + b);
    LoadIsConcentrationTimesVolume(nlcdOf, loads, useType, pollutant, a);
    LoadIsConcentrationTimesVolume(nlcdOf, loads, useType, pollutant, b);
    assert emc * (k * a + b) * 0.000002205 == k * (emc * a * 0.000002205) + emc * b * 0.000002205;
  }

  /** No runoff carries no load. */
  lemma LoadZero(nlcdOf: map<string, int>, loads: map<int, map<string, real>>,
                 useType: string, pollutant: string)
    requires EventMeanConcentration(nlcdOf, loads, useType, pollutant).Success?
    ensures PollutantLoad(nlcdOf, loads, useType, pollutant, 0.0) == Success(0.0)
  {
    LoadIsConcentrationTimesVolume(nlcdOf, loads, useType, pollutant, 0.0);
  }

  /** A land use without an NLCD class, or a pollutant without a
      concentration for that class, fails the load. */
  lemma LoadUnknownNames(nlcdOf: map<string, int>, loads: map<int, map<string, real>>,
                         useType: string, pollutant: string, runoffLiters: real)
    ensures useType !in nlcdOf ==>
              PollutantLoad(nlcdOf, loads, useType, pollutant, runoffLiters) == Failure(UnknownNlcd)
    ensures useType in nlcdOf && nlcdOf[useType] in loads && pollutant !in loads[nlcdOf[useType]] ==>
              PollutantLoad(nlcdOf, loads, useType, pollutant, runoffLiters) == Failure(UnknownPollutant)
  {
  }
}
