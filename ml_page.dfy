/**
 * ml/CAR_PRICE_PREDICTION_LGBM/static/script.js: the form script of the
 * gradient-boosting page. The dropdowns are filled from the options
 * endpoint, the km field regroups itself while typing, a submission is
 * validated on the client before it is posted, and the enhanced prediction
 * panel coerces the numeric form entries before posting them.
 */
module MlPage {
  import opened Wrappers
  import opened Numbers
  import opened JsText
  import opened Limits
  import opened Browser

  // ---------------------------------------------------------------------
  // populateDropdown (lines 30-47)
  // ---------------------------------------------------------------------

  /**
   * `select.querySelector('option[value=""]')`: the first option whose
   * value is empty, as a list of at most one option.
   */
  function PlaceholderOf(options: seq<OptionElem>): (r: seq<OptionElem>)
    ensures |r| <= 1
    ensures r == [] <==> forall i :: 0 <= i < |options| ==> options[i].value != ""
    ensures r != [] ==> exists i :: 0 <= i < |options| && options[i] == r[0] && r[0].value == ""
                                  && forall j :: 0 <= j < i ==> options[j].value != ""
  {
    if options == [] then []
    else if options[0].value == "" then [options[0]]
    else
      var r := PlaceholderOf(options[1..]);
      assert r != [] ==> exists i :: 0 <= i < |options| && options[i] == r[0] && r[0].value == ""
                                  && forall j :: 0 <= j < i ==> options[j].value != "" by {
        if r != [] {
          var i :| 0 <= i < |options[1..]| && options[1..][i] == r[0] && r[0].value == ""
                   && forall j :: 0 <= j < i ==> options[1..][j].value != "";
          assert options[i + 1] == r[0];
          assert forall j :: 0 <= j < i + 1 ==> options[j].value != "" by {
            forall j | 0 <= j < i + 1
              ensures options[j].value != ""
            {
              if j > 0 {
                assert options[j] == options[1..][j - 1];
              }
            }
          }
        }
      }
      assert r == [] ==> forall i :: 0 <= i < |options| ==> options[i].value != "" by {
        if r == [] {
          forall i | 0 <= i < |options|
            ensures options[i].value != ""
          {
            if i > 0 {
              assert options[i] == options[1..][i - 1];
            }
          }
        }
      }
      r
  }

  /** A select whose first option is a placeholder keeps exactly that one. */
  lemma PlaceholderFirst(options: seq<OptionElem>)
    requires options != [] && options[0].value == ""
    ensures PlaceholderOf(options) == [options[0]]
  {
  }

  /** The options of a select after `populateDropdown`: the old placeholder, if any, then the given values. */
  function AfterPopulate(before: seq<OptionElem>, values: seq<string>): seq<OptionElem>
  {
    PlaceholderOf(before) + Choices(values)
  }

  /**
   * `populateDropdown(select, options)`: clear the select, put back its
   * placeholder, append one option per value in order.
   */
  method PopulateDropdown(select: Select, options: seq<string>)
    modifies select`options, select`selected
    ensures select.options == AfterPopulate(old(select.options), options)
    ensures select.selected == 0
  {
    var placeholder := PlaceholderOf(select.options);
    select.Replace([]);
    if placeholder != [] {
      select.Append(placeholder[0]);
    }
    AppendChoices(select, options);
  }

  /**
   * `populateDropdown` on a list the JSON may lack: with no list, the
   * select is cleared to its placeholder and then `options.forEach`
   * throws, which `ok == false` reports.
   */
  method PopulateOrThrow(select: Select, options: Option<seq<string>>) returns (ok: bool)
    modifies select`options, select`selected
    ensures ok == options.Some?
    ensures select.options == if ok then AfterPopulate(old(select.options), options.value) else PlaceholderOf(old(select.options))
    ensures select.selected == 0
  {
    if options.Some? {
      PopulateDropdown(select, options.value);
      return true;
    }
    select.Replace(PlaceholderOf(select.options));
    return false;
  }

  // ---------------------------------------------------------------------
  // The km field while typing (lines 71-76)
  // ---------------------------------------------------------------------

  /**
   * The km field's `input` handler: drop the separators; if what is left is
   * non-empty and `isNaN` says it is a number, show `parseInt` of it
   * grouped in the en-IN style (`NaN` when `parseInt` finds no digit).
   */
  function FormatKmWhileTyping(v: string): string
  {
    var value := RemoveCommas(v);
    if !NumberIsNaN(value) && value != "" then ToLocaleOrNaN(ParseInt(value)) else v
  }

  /** Typing the digits of any integer shows its en-IN grouping. */
  lemma FormatKmGroups(n: int)
    ensures FormatKmWhileTyping(SignedDecimal(n)) == ToLocaleEnIn(n)
  {
    var s := SignedDecimal(n);
    var m: nat := if n < 0 then -n else n;
    assert s != [] by {
      assert |Decimal(m)| > 0;
    }
    assert ',' !in s by {
      DigitsHaveNoComma(Decimal(m));
    }
    SignedDecimalIsNumber(n);
    ParseIntSignedDecimal(n);
  }

  /** A grouped number is left as it is. */
  lemma FormatKmGroupedFixed(n: int)
    ensures FormatKmWhileTyping(ToLocaleEnIn(n)) == ToLocaleEnIn(n)
  {
    var s := SignedDecimal(n);
    UngroupLocale(n);
    assert RemoveCommas(ToLocaleEnIn(n)) == s;
    FormatKmGroups(n);
    assert RemoveCommas(s) == s by {
      DigitsHaveNoComma(Decimal(if n < 0 then -n else n));
    }
  }

  /** A value without separators that `isNaN` rejects is left as typed. */
  lemma FormatKmKeepsNaN(v: string)
    requires ',' !in v && NumberIsNaN(v)
    ensures FormatKmWhileTyping(v) == v
  {
  }

  /** The `NaN` the handler can show is itself left alone. */
  lemma FormatKmNaNFixed()
    ensures FormatKmWhileTyping(NaNText) == NaNText
  {
    NaNTextIsNaN();
    FormatKmKeepsNaN(NaNText);
  }

  /** The handler leaves its own output alone: a grouped number, or `NaN`. */
  lemma FormatKmIdempotent(v: string)
    ensures FormatKmWhileTyping(FormatKmWhileTyping(v)) == FormatKmWhileTyping(v)
  {
    var value := RemoveCommas(v);
    if !NumberIsNaN(value) && value != "" {
      match ParseInt(value)
      case None => FormatKmNaNFixed();
      case Some(n) => FormatKmGroupedFixed(n);
    }
  }

  /**
   * A run of white space passes the `isNaN` test (it converts to 0) but
   * `parseInt` finds no digit in it: the field then shows `NaN`.
   */
  lemma FormatKmBlank(v: string)
    requires v != [] && forall i :: 0 <= i < |v| ==> IsWhiteSpace(v[i])
    ensures FormatKmWhileTyping(v) == NaNText
  {
    assert ',' !in v by {
      forall i | 0 <= i < |v|
        ensures v[i] != ','
      {
        assert IsWhiteSpace(v[i]);
      }
    }
    assert TrimStart(v) == [];
    assert Trim(v) == [];
    assert ParseMagnitude([]) == None;
  }

  // ---------------------------------------------------------------------
  // handleFormSubmit and validateFormData (lines 83-161)
  // ---------------------------------------------------------------------

  /**
   * `formData.get(name)` for a select: absent (`null`) when the select is
   * disabled or has no selected option, else the selected option's value.
   */
  function Submitted(s: Select): (r: Option<string>)
    reads s
    ensures r.Some? <==> !s.disabled && s.selected < |s.options|
    ensures r.Some? ==> r.value == s.Value()
  {
    if s.disabled || s.selected >= |s.options| then None else Some(s.options[s.selected].value)
  }

  /** The object `handleFormSubmit` posts. */
  datatype Request = Request(
    manufacturer: Option<string>, modelName: Option<string>, year: Float, kmDriven: Float,
    fuel: Option<string>, transmission: Option<string>, owner: Option<string>,
    maxPowerBhp: Float, engineCc: Float, maxTorqueNm: Float, drivetrain: Option<string>)

  /**
   * `validateFormData`: the first of year, km, power, engine and torque
   * that lies outside its inclusive range, as that field's message; `None`
   * when every check passes. NaN fails no comparison, so it passes.
   */
  function ValidateFormData(year: Float, km: Float, power: Float, engine: Float, torque: Float): (r: Option<string>)
    ensures r == None <==>
      !OutOfRange(year, YearMin, YearMax) && !OutOfRange(km, KmMin, KmMax) && !OutOfRange(power, PowerMin, PowerMax)
      && !OutOfRange(engine, EngineMin, EngineMax) && !OutOfRange(torque, TorqueMin, TorqueMax)
    ensures r == Some(YearMessage) <==> OutOfRange(year, YearMin, YearMax)
    ensures r == Some(KmMessage) <==> !OutOfRange(year, YearMin, YearMax) && OutOfRange(km, KmMin, KmMax)
    ensures r == Some(PowerMessage) <==>
      !OutOfRange(year, YearMin, YearMax) && !OutOfRange(km, KmMin, KmMax) && OutOfRange(power, PowerMin, PowerMax)
    ensures r == Some(EngineMessage) <==>
      !OutOfRange(year, YearMin, YearMax) && !OutOfRange(km, KmMin, KmMax) && !OutOfRange(power, PowerMin, PowerMax)
      && OutOfRange(engine, EngineMin, EngineMax)
    ensures r == Some(TorqueMessage) <==>
      !OutOfRange(year, YearMin, YearMax) && !OutOfRange(km, KmMin, KmMax) && !OutOfRange(power, PowerMin, PowerMax)
      && !OutOfRange(engine, EngineMin, EngineMax) && OutOfRange(torque, TorqueMin, TorqueMax)
  {
    if OutOfRange(year, YearMin, YearMax) then Some(YearMessage)
    else if OutOfRange(km, KmMin, KmMax) then Some(KmMessage)
    else if OutOfRange(power, PowerMin, PowerMax) then Some(PowerMessage)
    else if OutOfRange(engine, EngineMin, EngineMax) then Some(EngineMessage)
    else if OutOfRange(torque, TorqueMin, TorqueMax) then Some(TorqueMessage)
    else None
  }

  /** Both endpoints of every range pass. */
  lemma ValidateInclusive()
    ensures ValidateFormData(OfInt(YearMin), OfInt(KmMin), OfInt(PowerMin), OfInt(EngineMin), OfInt(TorqueMin)) == None
    ensures ValidateFormData(OfInt(YearMax), OfInt(KmMax), OfInt(PowerMax), OfInt(EngineMax), OfInt(TorqueMax)) == None
  {
  }

  /** A form whose numeric fields are all blank (every parse NaN) passes validation. */
  lemma BlankNumbersPass()
    ensures ValidateFormData(ParseIntNumber(""), ParseIntNumber(""), ParseFloat(""), ParseFloat(""), ParseFloat("")) == None
  {
    assert ParseInt("") == None;
    assert ParseFloat("") == NaN by {
      assert UnsignedFloat("") == None;
    }
  }

  const LoadFailure := "Failed to load form options. Please refresh the page."
  const PredictionFailed := "Prediction failed. Please try again."
  const RequestError := "An error occurred. Please try again."

  /** The parts of the options endpoint's JSON this script reads; a `None` list is a missing key. */
  datatype Options = Options(
    companies: Option<seq<string>>, fuelTypes: Option<seq<string>>, transmissions: Option<seq<string>>,
    owners: Option<seq<string>>, drivetrains: Option<seq<string>>,
    manufacturerModels: Option<map<string, seq<string>>>)

  /** The lists `loadOptions` populates, in the order it populates them. */
  function Lists(o: Options): (r: seq<Option<seq<string>>>)
    ensures |r| == 5
  {
    [o.companies, o.fuelTypes, o.transmissions, o.owners, o.drivetrains]
  }

  /** `loadOptions` gets as far as the `k`-th dropdown: every earlier list is present. */
  predicate Reaches(o: Options, k: nat)
  {
    forall j :: 0 <= j < k && j < 5 ==> Lists(o)[j].Some?
  }

  /** What `loadOptions` leaves in a select it reached (or did not) with a given list. */
  predicate Populated(s: Select, before: seq<OptionElem>, beforeSelected: nat, list: Option<seq<string>>, reached: bool)
    reads s
  {
    if !reached then s.options == before && s.selected == beforeSelected
    else
      s.selected == 0
      && s.options == if list.Some? then AfterPopulate(before, list.value) else PlaceholderOf(before)
  }

  /** `optionsData.manufacturer_models[m] || []`. */
  function Lookup(models: map<string, seq<string>>, m: string): (r: seq<string>)
    ensures m in models ==> r == models[m]
    ensures m !in models ==> r == []
  {
    if m in models then models[m] else []
  }

  /**
   * One `populateDropdown` call of `loadOptions`, made only when no earlier
   * call threw (`go`); `ok` tells whether the sequence goes on after it.
   */
  method PopulateUnlessThrown(select: Select, list: Option<seq<string>>, go: bool) returns (ok: bool)
    modifies select`options, select`selected
    ensures ok == (go && list.Some?)
    ensures Populated(select, old(select.options), old(select.selected), list, go)
  {
    ok := false;
    if go {
      ok := PopulateOrThrow(select, list);
    }
  }

  /** `loadOptions` reaches a dropdown exactly when every earlier list is present. */
  lemma ReachesChain(o: Options)
    ensures Reaches(o, 1) == o.companies.Some?
    ensures Reaches(o, 2) == (Reaches(o, 1) && o.fuelTypes.Some?)
    ensures Reaches(o, 3) == (Reaches(o, 2) && o.transmissions.Some?)
    ensures Reaches(o, 4) == (Reaches(o, 3) && o.owners.Some?)
    ensures Reaches(o, 5) == (Reaches(o, 4) && o.drivetrains.Some?)
  {
    var l := Lists(o);
    assert l[0] == o.companies && l[1] == o.fuelTypes && l[2] == o.transmissions;
    assert l[3] == o.owners && l[4] == o.drivetrains;
  }

  class Page {
    const manufacturer: Select
    const modelName: Select
    const fuel: Select
    const transmission: Select
    const owner: Select
    const drivetrain: Select
    var year: string
    var kmDriven: string
    var maxPowerBhp: string
    var engineCc: string
    var maxTorqueNm: string

    /** `optionsData.manufacturer_models`: `None` while `optionsData` is `{}` or lacks the key. */
    var manufacturerModels: Option<map<string, seq<string>>>

    /** The form container is displayed, the loading animation and the result card are not hidden. */
    var formVisible: bool
    var loadingVisible: bool
    var resultVisible: bool
    var resultPrice: string

    /** Every `showError` (an `alert`) and every posted request, in order. */
    var errors: seq<string>
    var requests: seq<Request>

    ghost predicate Valid()
    {
      && manufacturer != modelName && manufacturer != fuel && manufacturer != transmission
      && manufacturer != owner && manufacturer != drivetrain
      && modelName != fuel && modelName != transmission && modelName != owner && modelName != drivetrain
      && fuel != transmission && fuel != owner && fuel != drivetrain
      && transmission != owner && transmission != drivetrain
      && owner != drivetrain
    }

    /** The page as loaded: each dropdown holds its placeholder, the model field is disabled. */
    constructor ()
      ensures Valid()
      ensures modelName.options == [ModelPlaceholder] && modelName.disabled
      ensures manufacturerModels == None
      ensures formVisible && !loadingVisible && !resultVisible
      ensures errors == [] && requests == []
    {
      manufacturer := new Select([OptionElem("", "Select Manufacturer")]);
      modelName := new Select.Disabled([ModelPlaceholder]);
      fuel := new Select([OptionElem("", "Select Fuel Type")]);
      transmission := new Select([OptionElem("", "Select Transmission")]);
      owner := new Select([OptionElem("", "Select Owner")]);
      drivetrain := new Select([OptionElem("", "Select Drivetrain")]);
      year, kmDriven, maxPowerBhp, engineCc, maxTorqueNm := "", "", "", "", "";
      manufacturerModels := None;
      formVisible, loadingVisible, resultVisible := true, false, false;
      resultPrice := "";
      errors, requests := [], [];
    }

    /**
     * `loadOptions`, given the parsed JSON, or `None` when the fetch or the
     * parse failed. The JSON is stored first; the five dropdowns are then
     * populated in order, and the first missing list stops the sequence
     * (its select is left with just its placeholder) and shows the error.
     */
    method LoadOptions(reply: Option<Options>)
      requires Valid()
      modifies this`manufacturerModels, this`errors
      modifies manufacturer`options, manufacturer`selected, fuel`options, fuel`selected
      modifies transmission`options, transmission`selected, owner`options, owner`selected
      modifies drivetrain`options, drivetrain`selected
      ensures reply.None? ==> errors == old(errors) + [LoadFailure]
      ensures reply.None? ==> manufacturerModels == old(manufacturerModels)
      ensures reply.None? ==> unchanged(manufacturer, fuel, transmission, owner, drivetrain)
      ensures reply.Some? ==> manufacturerModels == reply.value.manufacturerModels
      ensures reply.Some? ==>
        errors == old(errors) + (if Reaches(reply.value, 5) then [] else [LoadFailure])
      ensures reply.Some? ==>
        && Populated(manufacturer, old(manufacturer.options), old(manufacturer.selected), reply.value.companies, true)
        && Populated(fuel, old(fuel.options), old(fuel.selected), reply.value.fuelTypes, Reaches(reply.value, 1))
        && Populated(transmission, old(transmission.options), old(transmission.selected), reply.value.transmissions, Reaches(reply.value, 2))
        && Populated(owner, old(owner.options), old(owner.selected), reply.value.owners, Reaches(reply.value, 3))
        && Populated(drivetrain, old(drivetrain.options), old(drivetrain.selected), reply.value.drivetrains, Reaches(reply.value, 4))
    {
      if reply.None? {
        errors := errors + [LoadFailure];
        return;
      }
      var o := reply.value;
      manufacturerModels := o.manufacturerModels;
      var ok1 := PopulateUnlessThrown(manufacturer, o.companies, true);
      var ok2 := PopulateUnlessThrown(fuel, o.fuelTypes, ok1);
      var ok3 := PopulateUnlessThrown(transmission, o.transmissions, ok2);
      var ok4 := PopulateUnlessThrown(owner, o.owners, ok3);
      var ok5 := PopulateUnlessThrown(drivetrain, o.drivetrains, ok4);
      ReachesChain(o);
      if !ok5 {
        errors := errors + [LoadFailure];
      }
    }

    /**
     * The manufacturer field's `change` listener. With a manufacturer chosen
     * and the map loaded, the model field is populated with that
     * manufacturer's models (none for an unknown one) and enabled; otherwise
     * it holds only the placeholder and is disabled.
     */
    method OnManufacturerChange()
      requires Valid()
      modifies modelName`options, modelName`selected, modelName`disabled
      ensures var m := manufacturer.Value();
        if m != "" && manufacturerModels.Some? then
          && modelName.options == AfterPopulate(old(modelName.options), Lookup(manufacturerModels.value, m))
          && !modelName.disabled
        else modelName.options == [ModelPlaceholder] && modelName.disabled
      ensures modelName.selected == 0
      ensures old(modelName.options) != [] && old(modelName.options[0]) == ModelPlaceholder ==>
        modelName.options[0] == ModelPlaceholder
    {
      var selectedManufacturer := manufacturer.Value();
      if selectedManufacturer != "" && manufacturerModels.Some? {
        if modelName.options != [] && modelName.options[0].value == "" {
          PlaceholderFirst(modelName.options);
        }
        var models := Lookup(manufacturerModels.value, selectedManufacturer);
        PopulateDropdown(modelName, models);
        modelName.disabled := false;
      } else {
        modelName.Replace([ModelPlaceholder]);
        modelName.disabled := true;
      }
    }

    method OnKmInput()
      modifies this`kmDriven
      ensures kmDriven == FormatKmWhileTyping(old(kmDriven))
    {
      var value := RemoveCommas(kmDriven);
      if !NumberIsNaN(value) && value != "" {
        kmDriven := ToLocaleOrNaN(ParseInt(value));
      }
    }

    /** The object `handleFormSubmit` builds from the form. */
    function Snapshot(): (d: Request)
      reads this`year, this`kmDriven, this`maxPowerBhp, this`engineCc, this`maxTorqueNm
      reads manufacturer, modelName, fuel, transmission, owner, drivetrain
      ensures d.kmDriven == ParseIntNumber(RemoveCommas(kmDriven))
      ensures d.modelName.None? <==> modelName.disabled || modelName.selected >= |modelName.options|
    {
      Request(Submitted(manufacturer), Submitted(modelName), ParseIntNumber(year),
              ParseIntNumber(RemoveCommas(kmDriven)), Submitted(fuel), Submitted(transmission),
              Submitted(owner), ParseFloat(maxPowerBhp), ParseFloat(engineCc), ParseFloat(maxTorqueNm),
              Submitted(drivetrain))
    }

    /** `showLoading`. */
    method ShowLoading()
      modifies this`formVisible, this`resultVisible, this`loadingVisible
      ensures !formVisible && !resultVisible && loadingVisible
    {
      formVisible := false;
      resultVisible := false;
      loadingVisible := true;
    }

    /** `hideLoading`: only the loading animation is hidden. */
    method HideLoading()
      modifies this`loadingVisible
      ensures !loadingVisible
    {
      loadingVisible := false;
    }

    /** `showResult(price)`: the price verbatim, the loading animation hidden, the result card shown. */
    method ShowResult(price: string)
      modifies this`resultPrice, this`loadingVisible, this`resultVisible
      ensures resultPrice == price && !loadingVisible && resultVisible
    {
      resultPrice := price;
      loadingVisible := false;
      resultVisible := true;
    }

    /**
     * What `handleFormSubmit` does once validation has passed: show the
     * loading animation, post `data`, then react to how the fetch ends.
     */
    method Post(data: Request, reply: Reply)
      modifies this`formVisible, this`loadingVisible, this`resultVisible, this`resultPrice
      modifies this`errors, this`requests
      ensures requests == old(requests) + [data]
      ensures !formVisible && !loadingVisible
      ensures match reply
        case Json(true, price, _) => resultVisible && resultPrice == price && errors == old(errors)
        case Json(false, _, error) =>
          !resultVisible && resultPrice == old(resultPrice)
          && errors == old(errors) + [MessageOr(error, PredictionFailed)]
        case Failed(_) =>
          !resultVisible && resultPrice == old(resultPrice) && errors == old(errors) + [RequestError]
    {
      ShowLoading();
      requests := requests + [data];
      match reply {
        case Json(success, price, error) =>
          if success {
            ShowResult(price);
          } else {
            HideLoading();
            errors := errors + [MessageOr(error, PredictionFailed)];
          }
        case Failed(_) =>
          HideLoading();
          errors := errors + [RequestError];
      }
    }

    /**
     * `handleFormSubmit`, given how the fetch ends. A failed validation
     * shows its message and nothing else happens. Otherwise exactly one
     * request is posted; a success shows `formatted_price` verbatim; a
     * failure hides the loading animation and shows the server's error,
     * or a fallback. The form container stays hidden after a failure.
     */
    method HandleFormSubmit(reply: Reply)
      modifies this`formVisible, this`loadingVisible, this`resultVisible, this`resultPrice
      modifies this`errors, this`requests
      ensures var d := old(Snapshot());
        var check := ValidateFormData(d.year, d.kmDriven, d.maxPowerBhp, d.engineCc, d.maxTorqueNm);
        if check.Some? then
          && errors == old(errors) + [check.value] && requests == old(requests)
          && formVisible == old(formVisible) && loadingVisible == old(loadingVisible)
          && resultVisible == old(resultVisible) && resultPrice == old(resultPrice)
        else
          && requests == old(requests) + [d]
          && !formVisible && !loadingVisible
          && match reply
             case Json(true, price, _) => resultVisible && resultPrice == price && errors == old(errors)
             case Json(false, _, error) =>
               !resultVisible && resultPrice == old(resultPrice)
               && errors == old(errors) + [MessageOr(error, PredictionFailed)]
             case Failed(_) =>
               !resultVisible && resultPrice == old(resultPrice) && errors == old(errors) + [RequestError]
    {
      var data := Snapshot();
      var check := ValidateFormData(data.year, data.kmDriven, data.maxPowerBhp, data.engineCc, data.maxTorqueNm);
      if check.Some? {
        errors := errors + [check.value];
        return;
      }
      Post(data, reply);
    }

    /**
     * `resetForm`: the inputs are reset, the model field is put back to its
     * placeholder alone and disabled, the result is hidden, the form shown.
     */
    method ResetForm()
      requires Valid()
      modifies this`year, this`kmDriven, this`maxPowerBhp, this`engineCc, this`maxTorqueNm
      modifies this`resultVisible, this`formVisible
      modifies manufacturer`selected, fuel`selected, transmission`selected, owner`selected, drivetrain`selected
      modifies modelName`options, modelName`selected, modelName`disabled
      ensures year == "" && kmDriven == "" && maxPowerBhp == "" && engineCc == "" && maxTorqueNm == ""
      ensures manufacturer.selected == 0 && fuel.selected == 0 && transmission.selected == 0
      ensures owner.selected == 0 && drivetrain.selected == 0
      ensures modelName.options == [ModelPlaceholder] && modelName.selected == 0 && modelName.disabled
      ensures !resultVisible && formVisible
    {
      year, kmDriven, maxPowerBhp, engineCc, maxTorqueNm := "", "", "", "", "";
      manufacturer.Reset();
      modelName.Reset();
      fuel.Reset();
      transmission.Reset();
      owner.Reset();
      drivetrain.Reset();
      modelName.Replace([ModelPlaceholder]);
      modelName.disabled := true;
      resultVisible := false;
      formVisible := true;
    }
  }

  // ---------------------------------------------------------------------
  // makePrediction (lines 515-566)
  // ---------------------------------------------------------------------

  /** A value of the posted object: a string, or the `parseFloat` of one. */
  datatype FieldValue = Text(text: string) | Number(number: Float)

  /** The keys `makePrediction` converts with `parseFloat`. */
  const NumericKeys: set<string> := {"year", "km_driven", "max_power_bhp", "engine_cc", "max_torque_nm"}

  /** The value the loop stores for one entry. */
  function Coerced(key: string, value: string): FieldValue
  {
    if key in NumericKeys then Number(ParseFloat(value)) else Text(value)
  }

  /** The entry at `i` is the last one with its key. */
  predicate LastWithKey(entries: seq<(string, string)>, i: nat)
    requires i < |entries|
  {
    forall j :: i < j < |entries| ==> entries[j].0 != entries[i].0
  }

  /** The object the loop builds: each entry in turn assigns its coerced value to its key. */
  function CoerceAll(entries: seq<(string, string)>): map<string, FieldValue>
  {
    if entries == [] then map[]
    else
      var last := entries[|entries| - 1];
      CoerceAll(entries[..|entries| - 1])[last.0 := Coerced(last.0, last.1)]
  }

  /** The object has one key per distinct entry key. */
  lemma {:induction false} CoerceAllKeys(entries: seq<(string, string)>)
    ensures CoerceAll(entries).Keys == set e | e in entries :: e.0
  {
    if entries != [] {
      var n := |entries| - 1;
      var init, last := entries[..n], entries[n];
      CoerceAllKeys(init);
      assert entries == init + [last];
      assert (set e | e in entries :: e.0) == (set e | e in init :: e.0) + {last.0};
    }
  }

  /** A value of the object is a number exactly when its key is numeric. */
  lemma {:induction false} CoerceAllNumeric(entries: seq<(string, string)>)
    ensures forall k :: k in CoerceAll(entries) ==> (CoerceAll(entries)[k].Number? <==> k in NumericKeys)
  {
    if entries != [] {
      CoerceAllNumeric(entries[..|entries| - 1]);
    }
  }

  /** Each key holds the coerced value of its last entry. */
  lemma {:induction false} CoerceAllLast(entries: seq<(string, string)>)
    ensures forall i :: 0 <= i < |entries| && LastWithKey(entries, i) ==>
      entries[i].0 in CoerceAll(entries) && CoerceAll(entries)[entries[i].0] == Coerced(entries[i].0, entries[i].1)
  {
    if entries != [] {
      var n := |entries| - 1;
      var init, last := entries[..n], entries[n];
      CoerceAllLast(init);
      var before := CoerceAll(init);
      var after := CoerceAll(entries);
      assert after == before[last.0 := Coerced(last.0, last.1)];
      forall i | 0 <= i < n && LastWithKey(entries, i)
        ensures entries[i].0 in after && after[entries[i].0] == Coerced(entries[i].0, entries[i].1)
      {
        assert entries[i] == init[i];
        assert entries[n].0 != entries[i].0;
        assert LastWithKey(init, i) by {
          forall j | i < j < |init|
            ensures init[j].0 != init[i].0
          {
            assert init[j] == entries[j];
          }
        }
      }
    }
  }

  /**
   * The `for` loop over `formData.entries()`: one key per distinct entry
   * key, holding the last value given for it, converted with `parseFloat`
   * exactly when the key is numeric.
   */
  method CoerceEntries(entries: seq<(string, string)>) returns (data: map<string, FieldValue>)
    ensures data == CoerceAll(entries)
    ensures data.Keys == set e | e in entries :: e.0
    ensures forall k :: k in data ==> (data[k].Number? <==> k in NumericKeys)
    ensures forall i :: 0 <= i < |entries| && LastWithKey(entries, i) ==>
      data[entries[i].0] == Coerced(entries[i].0, entries[i].1)
  {
    data := map[];
    for n := 0 to |entries|
      invariant data == CoerceAll(entries[..n])
    {
      var (key, value) := entries[n];
      assert entries[..n + 1][..n] == entries[..n];
      data := data[key := Coerced(key, value)];
    }
    assert entries[..|entries|] == entries;
    CoerceAllKeys(entries);
    CoerceAllNumeric(entries);
    CoerceAllLast(entries);
  }

  /** A toast: its message and its kind. */
  datatype ToastKind = Info | Success | Error
  datatype Toast = Toast(message: string, kind: ToastKind)

  const Processing := "Processing your request..."
  const Completed := "Prediction completed successfully!"

  /** The enhanced prediction panel: its submit button, its result section and the toasts shown. */
  class Predictor {
    var buttonLoading: bool
    var resultShown: bool
    var formattedPrice: string
    var toasts: seq<Toast>
    var requests: seq<map<string, FieldValue>>

    constructor ()
      ensures !buttonLoading && !resultShown && toasts == [] && requests == []
    {
      buttonLoading, resultShown := false, false;
      formattedPrice := "";
      toasts, requests := [], [];
    }

    /**
     * `makePrediction`, given the form's entries and how the fetch ends:
     * one request with the coerced entries (`CoerceEntries` states what
     * they hold), the result shown with the
     * server's `formatted_price` on success, an error toast otherwise, and
     * the button out of its loading state on every path.
     */
    method MakePrediction(entries: seq<(string, string)>, reply: Reply)
      modifies this
      ensures !buttonLoading
      ensures requests == old(requests) + [CoerceAll(entries)]
      ensures match reply
        case Json(true, price, _) =>
          resultShown && formattedPrice == price
          && toasts == old(toasts) + [Toast(Processing, Info), Toast(Completed, Success)]
        case Json(false, _, error) =>
          !resultShown && formattedPrice == old(formattedPrice)
          && toasts == old(toasts) + [Toast(Processing, Info), Toast("Error: " + MessageOr(error, "Prediction failed"), Error)]
        case Failed(message) =>
          !resultShown && formattedPrice == old(formattedPrice)
          && toasts == old(toasts) + [Toast(Processing, Info), Toast("Error: " + message, Error)]
    {
      buttonLoading := true;
      resultShown := false;
      var data := CoerceEntries(entries);
      toasts := toasts + [Toast(Processing, Info)];
      requests := requests + [data];
      match reply {
        case Json(success, price, error) =>
          if success {
            formattedPrice := price;
            resultShown := true;
            toasts := toasts + [Toast(Completed, Success)];
          } else {
            toasts := toasts + [Toast("Error: " + MessageOr(error, "Prediction failed"), Error)];
          }
        case Failed(message) =>
          toasts := toasts + [Toast("Error: " + message, Error)];
      }
      buttonLoading := false;
    }
  }

}
