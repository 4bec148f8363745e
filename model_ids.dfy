/** The five InVEST models the calibration drives, in the order the session
    controller visits them. */
module ModelIds {

  datatype ModelId = AWY | SWY | SDR | NDR_N | NDR_P

  /** The model's name as it appears in the configuration and in file names. */
  function Name(m: ModelId): string {
    match m
    case AWY => "AWY"
    case SWY => "SWY"
    case SDR => "SDR"
    case NDR_N => "NDR_N"
    case NDR_P => "NDR_P"
  }
}
