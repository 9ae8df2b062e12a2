/**
 * How the range checks of the LightGBM page, the LightGBM server and the
 * random-forest server relate: they test the same inclusive bounds in the
 * same order with the same messages, and only the random-forest server has
 * no torque check.
 */
module Agreement {
  import opened Wrappers
  import opened Numbers
  import opened Limits
  import MlPage
  import MlApi
  import RootApi

  /**
   * For integer year and distance, the page's `validateFormData` rejects a
   * form exactly when the server's `predict` would, with the same message.
   */
  lemma ClientMatchesServer(year: int, km: int, power: Float, engine: Float, torque: Float)
    ensures MlPage.ValidateFormData(OfInt(year), OfInt(km), power, engine, torque)
         == MlApi.CheckRanges(year, km, power, engine, torque)
  {
  }

  /** The LightGBM server runs the random-forest server's four checks, then the torque check. */
  lemma ServersAgree(year: int, km: int, power: Float, engine: Float, torque: Float)
    ensures MlApi.CheckRanges(year, km, power, engine, torque)
         == match RootApi.CheckRanges(year, km, power, engine)
            case Some(message) => Some(message)
            case None => if OutOfRange(torque, TorqueMin, TorqueMax) then Some(TorqueMessage) else None
  {
  }

}
