/** Failure-compatible wrappers shared by the TR-55 model.

    Every exception the Python code raises becomes a `Failure` carrying one
    of the `Error` values below, so that error paths are part of each
    operation's result rather than excluded by a precondition. */
module Wrappers {

  datatype Option<+T> = None | Some(value: T)

  /** The exceptions raised by the modelled code, one constructor per cause. */
  datatype Error =
    | UnknownLandUse            // lookupET: 'Unknown Land Use'
    | NoDataForDay              // lookupP: 'No Data for Day'
    | NotBmpForSoil             // lookupBMPInfiltration: 'Not a BMP and/or BMP Incompatible with Soil Type'
    | UnknownSoilOrLandUse      // lookupCN: 'Unknown Soil Type and/or Land Use'
    | NotBuiltType              // runoff_pitt: 'Land use ... not a built-type'
    | DivisionByZero            // Python ZeroDivisionError
    | MalformedTile             // ValueError when a tile string does not split into two parts
    | BadParameters             // 'First argument must be a date or a (P,ET) pair'
    | MissingResult             // 'No "result" key'
    | MissingCellCount          // 'No "result.cell_count" key'
    | MissingDistribution       // 'No "result.distribution" key'
    | EmptyReduce               // TypeError: reduce() of an empty sequence with no initial value
    | UnknownNlcd               // lookup_nlcd fails on an unknown land use
    | UnknownPollutant          // lookup_load fails on an unknown pollutant

  datatype Result<+T> = Success(value: T) | Failure(error: Error) {

    predicate IsFailure() {
      Failure?
    }

    function PropagateFailure<U>(): Result<U>
      requires Failure?
    {
      Failure(error)
    }

    function Extract(): T
      requires Success?
    {
      value
    }
  }
}
