/**
 * app.py: the random-forest server. `predict` reads nine fields, checks
 * four ranges in order and hands the rest to the encoders, the scaler and
 * the model. Its `manufacturer_models` is `Catalog.GroupModels`.
 */
module RootApi {
  import opened Wrappers
  import opened Numbers
  import opened Limits
  import opened Server

  /** The fields `predict` reads, each as its extraction ends (app.py:58-66). */
  datatype Input = Input(
    year: Conv<int>, kmDriven: Conv<int>, company: Conv<string>, modelName: Conv<string>,
    fuel: Conv<string>, transmission: Conv<string>, owner: Conv<string>,
    maxPowerBhp: Conv<Float>, engineCc: Conv<Float>)

  /** The values that reach the encoders and the scaler. */
  datatype Features = Features(
    year: int, kmDriven: int, company: string, modelName: string, fuel: string,
    transmission: string, owner: string, maxPowerBhp: Float, engineCc: Float)

  /** The first extraction that raises, in the order the source performs them. */
  function FirstRaise(input: Input): (r: Option<string>)
    ensures r.None? <==>
      && input.year.Given? && input.kmDriven.Given? && input.company.Given? && input.modelName.Given?
      && input.fuel.Given? && input.transmission.Given? && input.owner.Given?
      && input.maxPowerBhp.Given? && input.engineCc.Given?
    ensures input.year.Raises? ==> r == Some(input.year.message)
    ensures input.year.Given? && input.kmDriven.Raises? ==> r == Some(input.kmDriven.message)
    ensures (
      && input.year.Given? && input.kmDriven.Given? && input.company.Raises?)
      ==> r == Some(input.company.message)
    ensures (
      && input.year.Given? && input.kmDriven.Given? && input.company.Given?
      && input.modelName.Raises?)
      ==> r == Some(input.modelName.message)
    ensures (
      && input.year.Given? && input.kmDriven.Given? && input.company.Given?
      && input.modelName.Given? && input.fuel.Raises?)
      ==> r == Some(input.fuel.message)
    ensures (
      && input.year.Given? && input.kmDriven.Given? && input.company.Given?
      && input.modelName.Given? && input.fuel.Given? && input.transmission.Raises?)
      ==> r == Some(input.transmission.message)
    ensures (
      && input.year.Given? && input.kmDriven.Given? && input.company.Given?
      && input.modelName.Given? && input.fuel.Given? && input.transmission.Given?
      && input.owner.Raises?)
      ==> r == Some(input.owner.message)
    ensures (
      && input.year.Given? && input.kmDriven.Given? && input.company.Given?
      && input.modelName.Given? && input.fuel.Given? && input.transmission.Given?
      && input.owner.Given? && input.maxPowerBhp.Raises?)
      ==> r == Some(input.maxPowerBhp.message)
    ensures (
      && input.year.Given? && input.kmDriven.Given? && input.company.Given?
      && input.modelName.Given? && input.fuel.Given? && input.transmission.Given?
      && input.owner.Given? && input.maxPowerBhp.Given? && input.engineCc.Raises?)
      ==> r == Some(input.engineCc.message)
  {
    if input.year.Raises? then Some(input.year.message)
    else if input.kmDriven.Raises? then Some(input.kmDriven.message)
    else if input.company.Raises? then Some(input.company.message)
    else if input.modelName.Raises? then Some(input.modelName.message)
    else if input.fuel.Raises? then Some(input.fuel.message)
    else if input.transmission.Raises? then Some(input.transmission.message)
    else if input.owner.Raises? then Some(input.owner.message)
    else if input.maxPowerBhp.Raises? then Some(input.maxPowerBhp.message)
    else if input.engineCc.Raises? then Some(input.engineCc.message)
    else None
  }

  /**
   * The range checks of `predict` (app.py:69-76): the message of the first
   * failing check among year, km, power and engine; there is no torque
   * check. A NaN power or engine fails no comparison.
   */
  function CheckRanges(year: int, km: int, power: Float, engine: Float): (r: Option<string>)
    ensures r == None <==>
      YearMin <= year <= YearMax && KmMin <= km <= KmMax
      && !OutOfRange(power, PowerMin, PowerMax) && !OutOfRange(engine, EngineMin, EngineMax)
    ensures r == Some(YearMessage) <==> year < YearMin || year > YearMax
    ensures r == Some(KmMessage) <==> YearMin <= year <= YearMax && (km < KmMin || km > KmMax)
    ensures r == Some(PowerMessage) <==>
      YearMin <= year <= YearMax && KmMin <= km <= KmMax && OutOfRange(power, PowerMin, PowerMax)
    ensures r == Some(EngineMessage) <==>
      YearMin <= year <= YearMax && KmMin <= km <= KmMax && !OutOfRange(power, PowerMin, PowerMax)
      && OutOfRange(engine, EngineMin, EngineMax)
  {
    if year < YearMin || year > YearMax then Some(YearMessage)
    else if km < KmMin || km > KmMax then Some(KmMessage)
    else if Below(power, PowerMin as real) || Above(power, PowerMax as real) then Some(PowerMessage)
    else if Below(engine, EngineMin as real) || Above(engine, EngineMax as real) then Some(EngineMessage)
    else None
  }

  /**
   * Everything `predict` does before the encoders: the extractions, then
   * the range checks. The features it passes on lie in range.
   */
  function Validated(input: Input): (r: Result<Features>)
    ensures r.Ok? <==>
      && FirstRaise(input).None?
      && CheckRanges(input.year.value, input.kmDriven.value, input.maxPowerBhp.value, input.engineCc.value).None?
    ensures r.Ok? ==>
      && r.value.year == input.year.value && YearMin <= r.value.year <= YearMax
      && r.value.kmDriven == input.kmDriven.value && KmMin <= r.value.kmDriven <= KmMax
      && r.value.maxPowerBhp == input.maxPowerBhp.value && !OutOfRange(r.value.maxPowerBhp, PowerMin, PowerMax)
      && r.value.engineCc == input.engineCc.value && !OutOfRange(r.value.engineCc, EngineMin, EngineMax)
    ensures r.Ok? ==> r.value == Features(
      input.year.value, input.kmDriven.value, input.company.value, input.modelName.value, input.fuel.value,
      input.transmission.value, input.owner.value, input.maxPowerBhp.value, input.engineCc.value)
    ensures FirstRaise(input).Some? ==> r == Err(FirstRaise(input).value)
    ensures FirstRaise(input).None? && CheckRanges(input.year.value, input.kmDriven.value,
        input.maxPowerBhp.value, input.engineCc.value).Some? ==>
      r == Err(CheckRanges(input.year.value, input.kmDriven.value, input.maxPowerBhp.value, input.engineCc.value).value)
  {
    match FirstRaise(input)
    case Some(message) => Err(message)
    case None =>
      var year, km := input.year.value, input.kmDriven.value;
      var power, engine := input.maxPowerBhp.value, input.engineCc.value;
      match CheckRanges(year, km, power, engine)
      case Some(message) => Err(message)
      case None =>
        Ok(Features(year, km, input.company.value, input.modelName.value, input.fuel.value,
                    input.transmission.value, input.owner.value, power, engine))
  }

  /**
   * `predict`, with the encoders, the scaler and the model as `infer`:
   * every exception, from the extractions, the checks or `infer`, is
   * answered with its message and status 400; a success carries the
   * model's prediction for validated features.
   */
  function Predict(input: Input, infer: Features -> Conv<real>): (r: Response)
    ensures r.Failure? ==> r.status == BadRequest
    ensures r.Success? <==> Validated(input).Ok? && infer(Validated(input).value).Given?
    ensures r.Success? ==> r.predictedPrice == infer(Validated(input).value).value
    ensures Validated(input).Err? ==> r == Failure(BadRequest, Validated(input).error)
    ensures Validated(input).Ok? && infer(Validated(input).value).Raises? ==>
      r == Failure(BadRequest, infer(Validated(input).value).message)
  {
    match Validated(input)
    case Err(message) => Failure(BadRequest, message)
    case Ok(features) =>
      match infer(features)
      case Given(prediction) => Success(prediction)
      case Raises(message) => Failure(BadRequest, message)
  }

  /** An accepted request had every checked value in range. */
  lemma AcceptedInRange(input: Input, infer: Features -> Conv<real>)
    requires Predict(input, infer).Success?
    ensures input.year.Given? && YearMin <= input.year.value <= YearMax
    ensures input.kmDriven.Given? && KmMin <= input.kmDriven.value <= KmMax
    ensures input.maxPowerBhp.Given? && !OutOfRange(input.maxPowerBhp.value, PowerMin, PowerMax)
    ensures input.engineCc.Given? && !OutOfRange(input.engineCc.value, EngineMin, EngineMax)
  {
    assert Validated(input).Ok?;
  }

}
