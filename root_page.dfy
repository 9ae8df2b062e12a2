/**
 * static/script.js: the form script of the random-forest page. The field
 * handlers are pure string transforms; the page itself is a class whose
 * fields are the dropdowns, the text inputs and the visibility of the form,
 * the loading animation and the result card.
 */
module RootPage {
  import opened Wrappers
  import opened Numbers
  import opened JsText
  import opened Limits
  import opened Browser

  // ---------------------------------------------------------------------
  // Field handlers (static/script.js:298-371)
  // ---------------------------------------------------------------------

  /** The year field's `input` handler: keep at most the first four characters. */
  function YearInput(v: string): (r: string)
    ensures |r| <= 4 && |r| <= |v|
    ensures r == v[..|r|]
    ensures |v| <= 4 ==> r == v
    ensures |v| > 4 ==> r == v[..4]
  {
    if |v| > 4 then v[..4] else v
  }

  /** The text the km field shows after a blur that clamps. */
  const KmCapText := "500,000"

  /**
   * The km field's `blur` handler: a trimmed, non-empty value whose
   * `parseInt` is positive is shown grouped in the en-IN style, and above
   * 500000 as `500,000`; anything else is left as it is.
   */
  function KmBlur(v: string): string
  {
    var value := Trim(v);
    if value == "" then v
    else
      match ParseInt(value)
      case None => v
      case Some(n) => if n <= 0 then v else if n > KmMax then KmCapText else ToLocaleEnIn(n)
  }

  /** The km field's `focus` handler: drop the separators unless nothing would be left. */
  function KmFocus(v: string): string
  {
    var value := RemoveCommas(v);
    if value != "" then value else v
  }

  /** A blur handler that clamps: a truthy reading above `hi` shows `hi`, below `lo` shows `lo`. */
  function ClampOnBlur(v: string, x: Float, lo: nat, hi: nat): string
  {
    if Truthy(x) then
      if Above(x, hi as real) then Decimal(hi)
      else if Below(x, lo as real) then Decimal(lo)
      else v
    else v
  }

  /** The power field's `blur` handler, on `parseFloat`. */
  function PowerBlur(v: string): string
  {
    ClampOnBlur(v, ParseFloat(v), PowerMin, PowerMax)
  }

  /** The engine field's `blur` handler, on `parseInt`. */
  function EngineBlur(v: string): string
  {
    ClampOnBlur(v, ParseIntNumber(v), EngineMin, EngineMax)
  }

  // ---------------------------------------------------------------------
  // Lemmas about the handlers
  // ---------------------------------------------------------------------

  lemma DecimalLiterals()
    ensures Decimal(30) == "30" && Decimal(700) == "700"
    ensures Decimal(500) == "500" && Decimal(7000) == "7000"
    ensures Decimal(500000) == "500000"
  {
    assert Decimal(3) == "3" && Decimal(7) == "7" && Decimal(5) == "5";
    assert Decimal(50) == "50" && Decimal(70) == "70";
    assert Decimal(5000) == "5000";
    assert Decimal(50000) == "50000";
  }

  /** The blur on a typed run of digits, read through its value. */
  lemma KmBlurDigits(s: string)
    requires s != [] && AllDigits(s)
    ensures var n := DigitsValue(s, 10);
      KmBlur(s) == if n == 0 then s else if n > KmMax then KmCapText else ToLocaleEnIn(n)
  {
    DigitIsNotWhiteSpace(s[0]);
    DigitIsNotWhiteSpace(s[|s| - 1]);
    TrimUnchanged(s);
    ParseIntDigits(s);
  }

  lemma CapTextDigits()
    ensures RemoveCommas(KmCapText) == "500000"
  {
    var c := KmCapText;
    assert ',' !in c[4..];
    RemoveCommasConcat(c[..4], c[4..]);
    assert c[..4][..3] == c[..3];
    assert c == c[..4] + c[4..];
  }

  /** Focusing the clamped text gives back the digits of the cap. */
  lemma CapTextUngrouped()
    ensures RemoveCommas(KmCapText) == Decimal(KmMax)
  {
    CapTextDigits();
    DecimalLiterals();
  }

  /**
   * What the km field shows after the user types (the input handler leaves
   * only digits), leaves the field and comes back: the empty string and
   * zero stay as typed, anything else becomes the canonical digits of the
   * value, capped at 500000.
   */
  lemma KmEditCycle(s: string)
    requires AllDigits(s)
    ensures KmFocus(KmBlur(s)) ==
      if s == "" || DigitsValue(s, 10) == 0 then s
      else Decimal(if DigitsValue(s, 10) > KmMax then KmMax else DigitsValue(s, 10))
  {
    DigitsHaveNoComma(s);
    if s != [] {
      KmBlurDigits(s);
      var n := DigitsValue(s, 10);
      if n > KmMax {
        CapTextUngrouped();
      } else if n > 0 {
        UngroupLocale(n);
      }
    }
  }

  /** Blur then focus gives back the digits of any value from 1 to 500000. */
  lemma KmBlurFocusRoundTrip(n: nat)
    requires 0 < n <= KmMax
    ensures KmFocus(KmBlur(Decimal(n))) == Decimal(n)
  {
    DecimalValue(n);
    KmEditCycle(Decimal(n));
  }

  /**
   * A blur that changes the km field leaves a value that, without its
   * separators, reads back as the positive number typed, capped at 500000.
   */
  lemma KmBlurClamps(v: string)
    ensures KmBlur(v) != v ==>
      && ParseInt(Trim(v)).Some?
      && 0 < ParseInt(Trim(v)).value
      && ParseInt(RemoveCommas(KmBlur(v))) == Some(if ParseInt(Trim(v)).value > KmMax then KmMax else ParseInt(Trim(v)).value)
  {
    var r := KmBlur(v);
    if r != v {
      var n := ParseInt(Trim(v)).value;
      if n > KmMax {
        assert r == KmCapText;
        CapTextUngrouped();
        ParseIntSignedDecimal(KmMax);
      } else {
        assert r == ToLocaleEnIn(n);
        UngroupLocale(n);
        ParseIntSignedDecimal(n);
      }
    }
  }

  /** The blur on the digits of a positive value: grouped up to 500000, the cap text above. */
  lemma KmBlurDecimal(n: nat)
    requires n > 0
    ensures KmBlur(Decimal(n)) == if n > KmMax then KmCapText else ToLocaleEnIn(n)
  {
    DecimalValue(n);
    KmBlurDigits(Decimal(n));
  }

  lemma HalfMillionEnIn()
    ensures ToLocaleEnIn(KmMax) == "5,00,000"
  {
    assert Pairs(500) == Pairs(5) + "," + Pad2(0);
    assert ToLocaleEnIn(KmMax) == Pairs(500) + "," + Pad3(0);
  }

  /** The cap is written in the Western style while 500000 itself is shown in the en-IN style. */
  lemma KmCapStyles()
    ensures KmBlur(Decimal(KmMax + 1)) == KmCapText
    ensures KmBlur(Decimal(KmMax)) == "5,00,000"
  {
    KmBlurDecimal(KmMax + 1);
    KmBlurDecimal(KmMax);
    HalfMillionEnIn();
  }

  /**
   * The power blur writes `700` over a truthy reading above the range and
   * `30` over one below it; a falsy reading (0, NaN) or one in range is
   * left as typed.
   */
  lemma PowerBlurClamps(v: string)
    ensures var x := ParseFloat(v);
      PowerBlur(v) ==
        if Truthy(x) && Above(x, PowerMax as real) then "700"
        else if Truthy(x) && Below(x, PowerMin as real) then "30"
        else v
  {
    DecimalLiterals();
  }

  /** The engine blur, on `parseInt`: `7000` above the range, `500` below, else as typed. */
  lemma EngineBlurClamps(v: string)
    ensures var x := ParseIntNumber(v);
      EngineBlur(v) ==
        if Truthy(x) && Above(x, EngineMax as real) then "7000"
        else if Truthy(x) && Below(x, EngineMin as real) then "500"
        else v
  {
    DecimalLiterals();
  }

  /**
   * A clamp to [lo, hi] on a reading that gives back the bounds it writes:
   * afterwards a truthy reading lies in range, so a second blur changes
   * nothing.
   */
  lemma ClampSettles(v: string, read: string -> Float, lo: nat, hi: nat)
    requires 0 < lo <= hi
    requires read(Decimal(lo)) == OfInt(lo) && read(Decimal(hi)) == OfInt(hi)
    ensures var r := ClampOnBlur(v, read(v), lo, hi);
      && (Truthy(read(v)) ==> Truthy(read(r)) && !OutOfRange(read(r), lo, hi))
      && ClampOnBlur(r, read(r), lo, hi) == r
  {
  }

  /**
   * After the power blur a truthy reading lies in [30, 700], so a second
   * blur changes nothing.
   */
  lemma PowerBlurSettles(v: string)
    ensures Truthy(ParseFloat(v)) ==> Truthy(ParseFloat(PowerBlur(v))) && !OutOfRange(ParseFloat(PowerBlur(v)), PowerMin, PowerMax)
    ensures PowerBlur(PowerBlur(v)) == PowerBlur(v)
  {
    ParseFloatDecimal(PowerMin);
    ParseFloatDecimal(PowerMax);
    ClampSettles(v, ParseFloat, PowerMin, PowerMax);
  }

  /** After the engine blur a truthy reading lies in [500, 7000]; a second blur changes nothing. */
  lemma EngineBlurSettles(v: string)
    ensures Truthy(ParseIntNumber(v)) ==> Truthy(ParseIntNumber(EngineBlur(v))) && !OutOfRange(ParseIntNumber(EngineBlur(v)), EngineMin, EngineMax)
    ensures EngineBlur(EngineBlur(v)) == EngineBlur(v)
  {
    ParseIntNumberDecimal(EngineMin);
    ParseIntNumberDecimal(EngineMax);
    ClampSettles(v, ParseIntNumber, EngineMin, EngineMax);
  }

  // ---------------------------------------------------------------------
  // The page
  // ---------------------------------------------------------------------

  /** The body `predictPrice` posts: every field as a string, km without separators. */
  datatype Request = Request(
    company: string, modelName: string, year: string, kmDriven: string, fuel: string,
    transmission: string, owner: string, maxPower: string, engineCc: string)

  /** The required-field check of `predictPrice`: some field is the empty string. */
  predicate MissingField(d: Request)
  {
    d.company == "" || d.modelName == "" || d.year == "" || d.kmDriven == "" || d.fuel == ""
    || d.transmission == "" || d.owner == "" || d.maxPower == "" || d.engineCc == ""
  }

  /**
   * A km field holding only separators is empty once they are removed, so
   * it fails the required-field check like an empty one.
   */
  lemma {:induction false} SeparatorsOnlyMissing(d: Request, km: string)
    requires forall c :: c in km ==> c == ','
    ensures RemoveCommas(km) == ""
    ensures MissingField(d.(kmDriven := RemoveCommas(km)))
    decreases |km|
  {
    if km != "" {
      var init := km[..|km| - 1];
      assert km[|km| - 1] in km;
      assert forall c :: c in init ==> c in km;
      SeparatorsOnlyMissing(d, init);
    }
  }

  /** The parts of the options endpoint's JSON this script reads. */
  datatype Options = Options(
    companies: seq<string>, manufacturerModels: map<string, seq<string>>,
    fuelTypes: seq<string>, transmissions: seq<string>, owners: seq<string>)

  const FillAllFields := "Please fill in all fields"
  const LoadFailure := "Failed to load form options. Please refresh the page."
  const PredictFailure := "Failed to predict price: "

  class Page {
    const company: Select
    const modelName: Select
    const fuel: Select
    const transmission: Select
    const owner: Select
    var year: string
    var kmDriven: string
    var maxPower: string
    var engineCc: string

    /** `manufacturerModelsMap`. */
    var manufacturerModels: map<string, seq<string>>

    /** The form container, the loading animation and the result card are shown. */
    var formVisible: bool
    var loadingVisible: bool
    var resultVisible: bool
    var resultPrice: string

    /** Every `alert` shown, and every body posted to the prediction endpoint, in order. */
    var alerts: seq<string>
    var requests: seq<Request>

    ghost predicate Valid()
    {
      && company != modelName && company != fuel && company != transmission && company != owner
      && modelName != fuel && modelName != transmission && modelName != owner
      && fuel != transmission && fuel != owner && transmission != owner
    }

    /** The page as loaded: every dropdown holds one placeholder, the form is shown. */
    constructor ()
      ensures Valid() && fresh(company) && fresh(modelName) && fresh(fuel) && fresh(transmission) && fresh(owner)
      ensures modelName.options == [ModelPlaceholder] && manufacturerModels == map[]
      ensures formVisible && !loadingVisible && !resultVisible
      ensures alerts == [] && requests == []
    {
      company := new Select([OptionElem("", "")]);
      modelName := new Select([ModelPlaceholder]);
      fuel := new Select([OptionElem("", "")]);
      transmission := new Select([OptionElem("", "")]);
      owner := new Select([OptionElem("", "")]);
      year, kmDriven, maxPower, engineCc := "", "", "", "";
      manufacturerModels := map[];
      formVisible, loadingVisible, resultVisible := true, false, false;
      resultPrice := "";
      alerts, requests := [], [];
    }

    /**
     * What `predictPrice` reads from the form: the selected values and the
     * typed texts, with the separators taken out of km.
     */
    function Snapshot(): (r: Request)
      reads this`year, this`kmDriven, this`maxPower, this`engineCc
      reads company, modelName, fuel, transmission, owner
      ensures r.company == company.Value() && r.modelName == modelName.Value() && r.fuel == fuel.Value()
      ensures r.transmission == transmission.Value() && r.owner == owner.Value()
      ensures r.year == year && r.maxPower == maxPower && r.engineCc == engineCc
      ensures ',' !in r.kmDriven
      ensures forall c :: c != ',' ==> (c in r.kmDriven <==> c in kmDriven)
      ensures ',' !in kmDriven ==> r.kmDriven == kmDriven
    {
      Request(company.Value(), modelName.Value(), year, RemoveCommas(kmDriven), fuel.Value(),
              transmission.Value(), owner.Value(), maxPower, engineCc)
    }

    /**
     * `loadOptions`, given the JSON of the options endpoint, or `None` when
     * the fetch or the parse failed: store the map, append the companies,
     * disable the model field, append the other option lists.
     */
    method LoadOptions(reply: Option<Options>)
      requires Valid()
      modifies this`manufacturerModels, this`alerts
      modifies company`options, company`selected, modelName`disabled
      modifies fuel`options, fuel`selected, transmission`options, transmission`selected
      modifies owner`options, owner`selected
      ensures reply.None? ==> alerts == old(alerts) + [LoadFailure] && manufacturerModels == old(manufacturerModels)
      ensures reply.None? ==> unchanged(company, modelName, fuel, transmission, owner)
      ensures reply.Some? ==>
        && alerts == old(alerts)
        && manufacturerModels == reply.value.manufacturerModels
        && company.options == old(company.options) + Choices(reply.value.companies)
        && modelName.disabled && modelName.options == old(modelName.options)
        && fuel.options == old(fuel.options) + Choices(reply.value.fuelTypes)
        && transmission.options == old(transmission.options) + Choices(reply.value.transmissions)
        && owner.options == old(owner.options) + Choices(reply.value.owners)
      ensures reply.Some? ==>
        && company.selected == (if old(company.options) == [] && reply.value.companies != [] then 0 else old(company.selected))
        && fuel.selected == (if old(fuel.options) == [] && reply.value.fuelTypes != [] then 0 else old(fuel.selected))
        && transmission.selected
           == (if old(transmission.options) == [] && reply.value.transmissions != [] then 0 else old(transmission.selected))
        && owner.selected == (if old(owner.options) == [] && reply.value.owners != [] then 0 else old(owner.selected))
    {
      if reply.None? {
        alerts := alerts + [LoadFailure];
        return;
      }
      var data := reply.value;
      manufacturerModels := data.manufacturerModels;
      AppendChoices(company, data.companies);
      modelName.disabled := true;
      AppendChoices(fuel, data.fuelTypes);
      AppendChoices(transmission, data.transmissions);
      AppendChoices(owner, data.owners);
    }

    /**
     * `updateModelDropdown(manufacturer)`: the model field is reset to its
     * placeholder; it is enabled and lists the manufacturer's models, in
     * order, exactly when the manufacturer is non-empty and has an entry.
     */
    method UpdateModelDropdown(manufacturer: string)
      modifies modelName
      ensures var known := manufacturer != "" && manufacturer in manufacturerModels;
        && modelName.options == [ModelPlaceholder] + (if known then Choices(manufacturerModels[manufacturer]) else [])
        && modelName.disabled == !known
      ensures modelName.Value() == ""
    {
      modelName.Replace([ModelPlaceholder]);
      if manufacturer != "" && manufacturer in manufacturerModels {
        modelName.disabled := false;
        AppendChoices(modelName, manufacturerModels[manufacturer]);
      } else {
        modelName.disabled := true;
      }
    }

    /** The company field's `change` listener. */
    method OnCompanyChange()
      requires Valid()
      modifies modelName
      ensures var known := company.Value() != "" && company.Value() in manufacturerModels;
        && modelName.options == [ModelPlaceholder] + (if known then Choices(manufacturerModels[company.Value()]) else [])
        && modelName.disabled == !known
    {
      UpdateModelDropdown(company.Value());
    }

    method OnYearInput()
      modifies this`year
      ensures year == YearInput(old(year))
    {
      if |year| > 4 {
        year := year[..4];
      }
    }

    method OnKmInput()
      modifies this`kmDriven
      ensures kmDriven == KeepDigits(old(kmDriven))
    {
      kmDriven := KeepDigits(kmDriven);
    }

    method OnKmBlur()
      modifies this`kmDriven
      ensures kmDriven == KmBlur(old(kmDriven))
    {
      var value := Trim(kmDriven);
      if value != "" {
        var numValue := ParseInt(value);
        if numValue.Some? && numValue.value > 0 {
          if numValue.value > KmMax {
            kmDriven := KmCapText;
          } else {
            kmDriven := ToLocaleEnIn(numValue.value);
          }
        }
      }
    }

    method OnKmFocus()
      modifies this`kmDriven
      ensures kmDriven == KmFocus(old(kmDriven))
    {
      var value := RemoveCommas(kmDriven);
      if value != "" {
        kmDriven := value;
      }
    }

    method OnPowerBlur()
      modifies this`maxPower
      ensures maxPower == PowerBlur(old(maxPower))
    {
      maxPower := PowerBlur(maxPower);
    }

    method OnEngineBlur()
      modifies this`engineCc
      ensures engineCc == EngineBlur(old(engineCc))
    {
      engineCc := EngineBlur(engineCc);
    }

    /**
     * `predictPrice`, given how the fetch ends. A missing field aborts with
     * an alert before anything else changes. Otherwise exactly one request
     * is posted, the loading animation is hidden again on every path, a
     * success shows `formatted_price` verbatim, and a failure re-shows the
     * form with the server's error or the fallback message.
     */
    method PredictPrice(reply: Reply)
      modifies this`formVisible, this`loadingVisible, this`resultVisible, this`resultPrice
      modifies this`alerts, this`requests
      ensures var d := old(Snapshot());
        if MissingField(d) then
          && alerts == old(alerts) + [FillAllFields] && requests == old(requests)
          && formVisible == old(formVisible) && loadingVisible == old(loadingVisible)
          && resultVisible == old(resultVisible) && resultPrice == old(resultPrice)
        else
          && requests == old(requests) + [d]
          && !loadingVisible
          && match reply
             case Json(true, price, _) =>
               !formVisible && resultVisible && resultPrice == price && alerts == old(alerts)
             case Json(false, _, error) =>
               formVisible && !resultVisible && resultPrice == old(resultPrice)
               && alerts == old(alerts) + [PredictFailure + MessageOr(error, "Prediction failed")]
             case Failed(message) =>
               formVisible && !resultVisible && resultPrice == old(resultPrice)
               && alerts == old(alerts) + [PredictFailure + message]
    {
      var formData := Snapshot();
      if MissingField(formData) {
        alerts := alerts + [FillAllFields];
        return;
      }
      formVisible := false;
      loadingVisible := true;
      resultVisible := false;
      requests := requests + [formData];
      var message: string;
      match reply {
        case Json(success, price, error) =>
          if success {
            loadingVisible := false;
            resultPrice := price;
            resultVisible := true;
            return;
          }
          message := MessageOr(error, "Prediction failed");
        case Failed(m) =>
          message := m;
      }
      loadingVisible := false;
      formVisible := true;
      alerts := alerts + [PredictFailure + message];
    }

    /**
     * `resetForm`: hide the result, show the form and reset the inputs. The
     * model field keeps its options and its enabled state: only its
     * selection returns to the first option.
     */
    method ResetForm()
      modifies this`resultVisible, this`formVisible
      modifies this`year, this`kmDriven, this`maxPower, this`engineCc
      modifies company`selected, modelName`selected, fuel`selected, transmission`selected, owner`selected
      ensures !resultVisible && formVisible
      ensures year == "" && kmDriven == "" && maxPower == "" && engineCc == ""
      ensures company.selected == 0 && modelName.selected == 0 && fuel.selected == 0
      ensures transmission.selected == 0 && owner.selected == 0
      ensures modelName.options == old(modelName.options) && modelName.disabled == old(modelName.disabled)
    {
      resultVisible := false;
      formVisible := true;
      year, kmDriven, maxPower, engineCc := "", "", "", "";
      company.Reset();
      modelName.Reset();
      fuel.Reset();
      transmission.Reset();
      owner.Reset();
    }
  }

}
