# Car price predictor: the form-data pipeline

The repository has two web front ends for a used-car price predictor, each
with its own Flask server:

- a random-forest page: `static/script.js` with `app.py`;
- a LightGBM page: `ml/CAR_PRICE_PREDICTION_LGBM/static/script.js` with
  `ml/CAR_PRICE_PREDICTION_LGBM/app.py`.

This project models the logic that carries a car's description from the
form to the model and back. That logic is:

- the cascading manufacturer/model dropdowns;
- the handlers that normalise the year, distance, power and engine fields while the user types or leaves a field;
- the validation of a submission, on the client and on both servers;
- the required-field check;
- the owner-label clean-up;
- the option lists the servers build from the dataset;
- the derived features of the LightGBM server;
- how a submission moves the page between form, loading animation and result.

The project's modules:

- `Numbers`: a numeric value of JavaScript or Python. It is `NaN`, an infinity or a finite real. JavaScript truthiness and comparisons that are false against `NaN` are defined here.
- `JsText`: the JavaScript built-ins the scripts call, written out as functions:
  - `trim`;
  - `parseInt`, `parseFloat`, and `Number` as `isNaN` applies it;
  - `replace(/,/g, '')`;
  - `replace(/[^0-9]/g, '')`;
  - `toLocaleString('en-IN')`, which groups the last three digits and then pairs of digits.
- `Browser`: a `<select>` as a class, holding its options, the selected index and the `disabled` flag. It also holds the outcome of a `fetch` (`Reply`).
- `RootPage` and `MlPage`: the two page scripts.
  - Each page is a class whose fields are the dropdowns, the text inputs, the view flags, the alerts shown and the requests posted.
  - The field handlers are functions. The methods that update the page are proved against them.
- `Catalog`: Python's string order, `unique()` and `sorted()`, and the `manufacturer_models` loop shared by both servers.
- `RootApi` and `MlApi`: the servers' `predict` routes. `MlApi` also holds the LightGBM server's start-up code.
  - A field extraction (`int(...)`, `float(...)`, `data[...]`) is an input: either its value or the message of the exception it raises.
  - The trained pipeline is a function parameter.
- `Agreement`: how the three range checks relate to each other.

Where the code and its description disagree, the model follows the code:

- On the LightGBM page a failed request hides the loading animation but does not show the form again. `showLoading` set the form container's display to `none`, and nothing undoes that until `resetForm`.
- On the random-forest page `resetForm` calls `form.reset()` only. The model dropdown keeps its options and its enabled state; only its selection goes back to the first option.
- The random-forest km blur writes `500,000` in the Western style above the cap. It writes 500000 itself as `5,00,000` in the en-IN style (`RootPage.KmCapStyles`).
- `loadOptions` on the LightGBM page populates the dropdowns in order. A list missing from the JSON makes `populateDropdown` throw after it has cleared that dropdown. The dropdowns after it keep their old options, and the load error is shown.
- `validateFormData` lets a NaN through, because every comparison with NaN is false. A blank numeric field therefore passes the client (`MlPage.BlankNumbersPass`). Once posted, the NaN is sent as `null`, and the server's `int(None)` or `float(None)` raises. In the model that is an extraction that raises, answered with status 400.

## Model

| member | source | states |
|---|---|---|
| Browser.Select.Replace | static/script.js:17 | Assigning `innerHTML` leaves exactly the given options, with the first one selected. |
| Browser.AppendChoices | ml/CAR_PRICE_PREDICTION_LGBM/static/script.js:41-46 | The `forEach` appends one option per value, value and text both the value, in order after the existing options. The selection moves only when the select was empty. |
| Browser.MessageOr | ml/CAR_PRICE_PREDICTION_LGBM/static/script.js:124 | `error \|\| fallback` is the server's error when that is present and non-empty, and the fallback otherwise. It is never empty when the fallback is not. |
| JsText.KeepDigits | static/script.js:316 | The result holds only digits: exactly the digits of the input. A string of digits is unchanged, so a second application changes nothing. |
| JsText.KeepDigitsChar | static/script.js:316 | One character is kept iff it is a digit. |
| JsText.KeepDigitsConcat | static/script.js:316 | Stripping distributes over concatenation. With `KeepDigitsChar`, the kept digits keep their order and their count. |
| JsText.RemoveCommas | static/script.js:113 | The result has no comma, keeps every other character, and leaves a string without commas unchanged. |
| JsText.RemoveCommasConcat | static/script.js:337 | Removing commas distributes over concatenation. |
| JsText.TrimStart | static/script.js:322 | `trim` drops exactly the leading white space: what it drops is white space, and what it keeps starts with a non-space. |
| JsText.TrimEnd | static/script.js:322 | The same for the trailing white space. |
| JsText.UngroupLocale | static/script.js:329-337 | Removing the separators from the en-IN grouping of any integer gives back its decimal digits, with the sign. |
| JsText.ParseIntSignedDecimal | static/script.js:324 | `parseInt` reads back the decimal digits of any integer. |
| JsText.ParseFloatDecimal | static/script.js:347 | `parseFloat` reads back the decimal digits of any natural number. |
| JsText.SignedDecimalIsNumber | ml/CAR_PRICE_PREDICTION_LGBM/static/script.js:73 | `isNaN` accepts the decimal digits of any integer. |
| JsText.NaNTextIsNaN | ml/CAR_PRICE_PREDICTION_LGBM/static/script.js:73-74 | The text `NaN` that `toLocaleString` prints for `parseInt`'s NaN has no separator, and `isNaN` rejects it. |
| JsText.LetterTextIsNaN | ml/CAR_PRICE_PREDICTION_LGBM/static/script.js:73 | A text that starts with a letter other than `I` and has no surrounding white space is rejected by `isNaN`. |
| JsText.DecimalValue | static/script.js:324 | The decimal digits of `n` have the value `n`. |
| Catalog.LexLessTotal | app.py:34 | Python's string order is total on distinct strings. |
| Catalog.LexLessTransitive | app.py:34 | Python's string order is transitive. |
| Catalog.Unique | app.py:34 | `unique()` lists each value of its input exactly once. |
| Catalog.SortDistinct | app.py:34 | `sorted` applied to distinct strings gives exactly those strings, in strictly increasing order. |
| Catalog.SortedUnique | app.py:34 | `sorted(unique())` is strictly increasing, so it is duplicate-free, and it holds exactly the input's values. |
| Catalog.StrictlySortedUnique | app.py:34 | Two strictly sorted lists with the same members are equal. |
| Catalog.SortedUniqueCanonical | app.py:34 | The row order of the dataset does not change any list. |
| Catalog.Makes | app.py:33 | The make column holds exactly the makes of the rows. |
| Catalog.ModelsOf | app.py:34 | The filtered model column holds exactly the models listed with that make. |
| Catalog.GroupModels | app.py:32-34 | The loop maps exactly the dataset's makes. Each has the strictly sorted list of its models, and a model is listed under a make iff some row pairs them. |
| RootPage.YearInput | static/script.js:305-309 | A value of four or fewer characters is unchanged. A longer value is cut to its first four characters. |
| RootPage.Page.OnYearInput | static/script.js:305-309 | The year input handler stores `YearInput` of the old value. |
| RootPage.Page.OnKmInput | static/script.js:314-318 | The km input handler stores the digits of the old value. |
| RootPage.Page.OnKmBlur | static/script.js:320-333 | The km blur handler stores `KmBlur` of the old value. |
| RootPage.Page.OnPowerBlur | static/script.js:345-355 | The power blur handler stores `PowerBlur` of the old value. |
| RootPage.Page.OnEngineBlur | static/script.js:358-370 | The engine blur handler stores `EngineBlur` of the old value. |
| RootPage.KmBlurDigits | static/script.js:322-331 | On a typed run of digits of value `n`, blur leaves 0 as typed, writes `500,000` above 500000, and otherwise writes the en-IN grouping of `n`. |
| RootPage.KmBlurDecimal | static/script.js:323-331 | On the digits of a positive `n`, blur writes `500,000` above 500000 and the en-IN grouping of `n` otherwise. |
| RootPage.KmBlurClamps | static/script.js:320-333 | A blur that changes the field has a positive integer reading. Afterwards the field, without separators, reads back as that value capped at 500000. Empty, zero and non-numeric values are left as typed. |
| RootPage.HalfMillionEnIn | static/script.js:329 | The en-IN grouping of 500000 is `5,00,000`. |
| RootPage.KmCapStyles | static/script.js:326-330 | 500001 blurs to the Western `500,000`, while 500000 blurs to `5,00,000`. |
| RootPage.Page.OnKmFocus | static/script.js:335-341 | The km focus handler stores `KmFocus` of the old value. |
| RootPage.CapTextUngrouped | static/script.js:327 | Focusing the cap text gives the digits of 500000. |
| RootPage.KmEditCycle | static/script.js:314-341 | Type digits, blur, focus: the empty string and zero stay as typed. Anything else becomes the canonical digits of its value capped at 500000. |
| RootPage.KmBlurFocusRoundTrip | static/script.js:320-341 | For 0 < n <= 500000, blur then focus gives back n's digits. |
| RootPage.PowerBlurClamps | static/script.js:345-355 | The power blur writes `700` over a truthy reading above 700 and `30` over one below 30. Zero, NaN and in-range values are left as typed. |
| RootPage.EngineBlurClamps | static/script.js:358-370 | The same on `parseInt`, with `7000`, `500` and the bounds 7000 and 500. |
| RootPage.ClampSettles | static/script.js:345-370 | A clamp whose reading gives back the bounds it writes leaves a truthy reading in range. A second blur changes nothing. |
| RootPage.PowerBlurSettles | static/script.js:345-355 | After the power blur a truthy reading lies in [30, 700], and the blur is idempotent. |
| RootPage.EngineBlurSettles | static/script.js:358-370 | After the engine blur a truthy reading lies in [500, 7000], and the blur is idempotent. |
| RootPage.Page.LoadOptions | static/script.js:37-94 | On a reply, the map is stored and each dropdown gets its list appended in order. A dropdown keeps its selection, unless it was empty and gains options; then its first option is selected. The model field is disabled and keeps its options. On a failed fetch only the load alert is added. |
| RootPage.Page.UpdateModelDropdown | static/script.js:13-34 | The placeholder is always first. The field is enabled iff the manufacturer is non-empty and has an entry; then the entry's models follow in order, otherwise nothing follows. The selection is the placeholder. |
| RootPage.Page.OnCompanyChange | static/script.js:55-57 | The company's `change` listener runs `updateModelDropdown` on the selected company. |
| RootPage.Page.Snapshot | static/script.js:108-119 | The body holds each select's value and each typed text. Its km has no separator and keeps every other character of the field, and a separator-free km is passed as typed. |
| RootPage.MissingField | static/script.js:122-124 | The required-field check: some field of the body is the empty string. |
| RootPage.SeparatorsOnlyMissing | static/script.js:113-127 | A km field holding only separators is empty once they are removed, so the body fails the required-field check. |
| RootPage.Page.PredictPrice | static/script.js:106-166 | An empty field gives the alert and changes nothing else. Otherwise exactly one body is posted, with the km separators removed. A success shows `formatted_price` verbatim with the form hidden. A failure hides the loading animation, shows the form again and alerts the error or the fallback. |
| RootPage.Page.ResetForm | static/script.js:184-195 | The result is hidden, the form is shown and the inputs are emptied. Each dropdown selects its first option, and the model field keeps its options and enabled state. |
| MlPage.PlaceholderOf | ml/CAR_PRICE_PREDICTION_LGBM/static/script.js:32 | `querySelector('option[value=""]')` finds the first option with an empty value. It finds nothing iff there is none. |
| MlPage.PlaceholderFirst | ml/CAR_PRICE_PREDICTION_LGBM/static/script.js:32 | A leading placeholder is the one found. |
| MlPage.PopulateDropdown | ml/CAR_PRICE_PREDICTION_LGBM/static/script.js:30-47 | The select holds the old placeholder, if any, then exactly the given values in order. The first option is selected. |
| MlPage.PopulateOrThrow | ml/CAR_PRICE_PREDICTION_LGBM/static/script.js:30-47 | With no list, the select is left with its placeholder and the call throws (`ok` is false). |
| MlPage.PopulateUnlessThrown | ml/CAR_PRICE_PREDICTION_LGBM/static/script.js:17-21 | One `populateDropdown` call of the sequence, made only if no earlier call threw. The sequence goes on iff it did not throw. |
| MlPage.ReachesChain | ml/CAR_PRICE_PREDICTION_LGBM/static/script.js:17-21 | A dropdown is reached iff every earlier list is present. |
| MlPage.Page.LoadOptions | ml/CAR_PRICE_PREDICTION_LGBM/static/script.js:13-27 | The JSON is stored. The dropdowns up to the first missing list are populated; that one keeps only its placeholder and the rest are untouched. The error is shown iff some list is missing or the fetch failed. |
| MlPage.Lookup | ml/CAR_PRICE_PREDICTION_LGBM/static/script.js:61 | `manufacturer_models[m] \|\| []` is the entry, or the empty list for an unknown make. |
| MlPage.Page.OnManufacturerChange | ml/CAR_PRICE_PREDICTION_LGBM/static/script.js:56-68 | A chosen manufacturer with a loaded map populates the model field with its models (none for an unknown one) and enables it. Otherwise the field holds only the placeholder and is disabled. A leading placeholder stays first. |
| MlPage.Page.OnKmInput | ml/CAR_PRICE_PREDICTION_LGBM/static/script.js:71-76 | The km input handler stores `FormatKmWhileTyping` of the old value. |
| MlPage.FormatKmGroups | ml/CAR_PRICE_PREDICTION_LGBM/static/script.js:71-76 | Typing the digits of any integer shows its en-IN grouping. |
| MlPage.FormatKmGroupedFixed | ml/CAR_PRICE_PREDICTION_LGBM/static/script.js:71-76 | A grouped number is left as it is. |
| MlPage.FormatKmKeepsNaN | ml/CAR_PRICE_PREDICTION_LGBM/static/script.js:73-74 | A value without separators that `isNaN` rejects is left as typed. |
| MlPage.FormatKmNaNFixed | ml/CAR_PRICE_PREDICTION_LGBM/static/script.js:71-76 | The `NaN` the handler can write is left as it is. |
| MlPage.FormatKmIdempotent | ml/CAR_PRICE_PREDICTION_LGBM/static/script.js:71-76 | Formatting twice is formatting once. |
| MlPage.FormatKmBlank | ml/CAR_PRICE_PREDICTION_LGBM/static/script.js:71-76 | A run of white space passes `isNaN` but has no digit for `parseInt`, so the field shows `NaN`. |
| MlPage.Submitted | ml/CAR_PRICE_PREDICTION_LGBM/static/script.js:88-98 | `formData.get` on a select is absent iff the select is disabled or has no selected option. Otherwise it is the selected value. |
| MlPage.Page.Snapshot | ml/CAR_PRICE_PREDICTION_LGBM/static/script.js:86-99 | The posted km is `parseInt` of the field without separators. The model is absent iff the model field is disabled or empty. |
| MlPage.ValidateFormData | ml/CAR_PRICE_PREDICTION_LGBM/static/script.js:134-161 | Year, km, power, engine and torque are checked in that order against inclusive ranges. Each field's message is returned iff it is the first out of range; none iff all pass. |
| MlPage.ValidateInclusive | ml/CAR_PRICE_PREDICTION_LGBM/static/script.js:134-161 | Both endpoints of every range pass. |
| MlPage.BlankNumbersPass | ml/CAR_PRICE_PREDICTION_LGBM/static/script.js:90-104 | A form whose numeric fields are blank parses to NaNs and passes validation. |
| MlPage.Page.ShowLoading | ml/CAR_PRICE_PREDICTION_LGBM/static/script.js:164-172 | The form and the result are hidden; the loading animation is shown. |
| MlPage.Page.HideLoading | ml/CAR_PRICE_PREDICTION_LGBM/static/script.js:175-178 | Only the loading animation is hidden. |
| MlPage.Page.ShowResult | ml/CAR_PRICE_PREDICTION_LGBM/static/script.js:181-194 | The price is shown verbatim, the loading animation is hidden and the result card is shown. |
| MlPage.Page.Post | ml/CAR_PRICE_PREDICTION_LGBM/static/script.js:106-130 | One request is posted. A success shows `formatted_price`. `success: false` shows the server's error or the fallback. An exception shows the generic error. Loading ends hidden on every path. |
| MlPage.Page.HandleFormSubmit | ml/CAR_PRICE_PREDICTION_LGBM/static/script.js:83-131 | A failed validation shows its message and changes nothing else: no loading state, no request. Otherwise it does what `Post` does with the form's data. |
| MlPage.Page.ResetForm | ml/CAR_PRICE_PREDICTION_LGBM/static/script.js:202-219 | The inputs are emptied and the model field holds only the placeholder, disabled. The result is hidden and the form is shown. |
| MlPage.CoerceAllKeys | ml/CAR_PRICE_PREDICTION_LGBM/static/script.js:530-537 | The object has one key per distinct entry key. |
| MlPage.CoerceAllNumeric | ml/CAR_PRICE_PREDICTION_LGBM/static/script.js:530-537 | A value is a number iff its key is one of the five numeric keys. |
| MlPage.CoerceAllLast | ml/CAR_PRICE_PREDICTION_LGBM/static/script.js:530-537 | Each key holds the coerced value of its last entry. |
| MlPage.CoerceEntries | ml/CAR_PRICE_PREDICTION_LGBM/static/script.js:530-537 | The loop builds exactly that object: its keys, the numeric values and the last writer for each key. |
| MlPage.Predictor.MakePrediction | ml/CAR_PRICE_PREDICTION_LGBM/static/script.js:515-566 | One request with the coerced entries. A success shows `formatted_price` with the success toast. A failure shows `Error: ` and the message. The button leaves its loading state on every path. |
| RootApi.FirstRaise | app.py:58-66 | For each field in extraction order: if every earlier field converts and this one raises, its message is the result. Nothing is raised iff every field converts. |
| RootApi.CheckRanges | app.py:69-76 | Year, km, power and engine are checked in order, inclusive. Each message is returned iff its check is the first to fail. There is no torque check. |
| RootApi.Validated | app.py:58-76 | The features reach the encoders iff nothing raises and every check passes. They are then the nine converted fields, and year, km, power and engine lie in range. Otherwise the error is the first extraction's message, or else the first failing check's. |
| RootApi.Predict | app.py:53-115 | A validation error, or an exception from the encoders or the model, gives status 400 with that message. A success carries the model's prediction for the validated features. |
| RootApi.AcceptedInRange | app.py:69-76 | An accepted request had year, km, power and engine in range. |
| MlApi.ReplaceAbsent | ml/CAR_PRICE_PREDICTION_LGBM/app.py:44 | `replace` leaves a string without the pattern unchanged. |
| MlApi.ReplaceKeeps | ml/CAR_PRICE_PREDICTION_LGBM/app.py:44 | `replace` keeps an occurrence of a word that shares no first letter with the pattern. |
| MlApi.ReplaceAfterLeadIn | ml/CAR_PRICE_PREDICTION_LGBM/app.py:44 | A lead-in without the pattern's first letter is copied, and the rest is replaced on its own. |
| MlApi.StandardizeOwner | ml/CAR_PRICE_PREDICTION_LGBM/app.py:40-44 | The result always contains `Owner`. A label without `Owner` becomes the label followed by ` Owner`. A label with `Owner` has every `th & Above` replaced by `Fourth & Above`, so it is unchanged when it holds none. |
| MlApi.StandardizeOwnerSpellsOut | ml/CAR_PRICE_PREDICTION_LGBM/app.py:44 | `th & Above Owner` becomes `Fourth & Above Owner`. |
| MlApi.StandardizeOwnerNotIdempotent | ml/CAR_PRICE_PREDICTION_LGBM/app.py:42-44 | Applied again, the result gains a second `Four`, so the function is not idempotent. |
| MlApi.Cleaned | ml/CAR_PRICE_PREDICTION_LGBM/app.py:46-49 | The cleaned rows are exactly the complete rows with standardized owner labels. |
| MlApi.Column | ml/CAR_PRICE_PREDICTION_LGBM/app.py:52-56 | A column holds exactly the values of its rows. |
| MlApi.Listings | ml/CAR_PRICE_PREDICTION_LGBM/app.py:59-63 | The grouping reads exactly the rows' (make, model) pairs. |
| MlApi.OptionList | ml/CAR_PRICE_PREDICTION_LGBM/app.py:52-56 | Each list is strictly sorted and holds exactly the values of the complete rows. |
| MlApi.CleanedMakes | ml/CAR_PRICE_PREDICTION_LGBM/app.py:60 | The grouping sees exactly the makes of the complete rows. |
| MlApi.CleanedListings | ml/CAR_PRICE_PREDICTION_LGBM/app.py:61-63 | The grouping sees exactly the (make, model) pairs of the complete rows. |
| MlApi.ModelsByMake | ml/CAR_PRICE_PREDICTION_LGBM/app.py:59-63 | One key per make of a complete row, each with a strictly sorted list. A model is listed iff a complete row pairs it with that make. |
| MlApi.BuildOptions | ml/CAR_PRICE_PREDICTION_LGBM/app.py:46-63 | The five lists and the map the options endpoint serves. Every owner label contains `Owner`, and the map's keys are exactly the companies. |
| MlApi.FirstRaise | ml/CAR_PRICE_PREDICTION_LGBM/app.py:87-97 | For each of the eleven fields in extraction order: if every earlier field converts and this one raises, its message is the result. Nothing is raised iff all eleven convert. |
| MlApi.CheckRanges | ml/CAR_PRICE_PREDICTION_LGBM/app.py:100-109 | Year, km, power, engine and torque are checked in order, inclusive. Each message is returned iff its check is the first to fail. |
| MlApi.DerivedFeatureBounds | ml/CAR_PRICE_PREDICTION_LGBM/app.py:112-114 | For accepted values, 0 <= car_age <= 35 and 0 <= age_km_interaction <= 35 * 500000. |
| MlApi.Validated | ml/CAR_PRICE_PREDICTION_LGBM/app.py:87-114 | The row reaches the pipeline iff nothing raises and every check passes. It then holds the eleven converted fields, `car_age` = 2025 - year and `age_km_interaction` = car_age * km, both within those bounds. Otherwise the error is the first extraction's message, or else the first failing check's. |
| MlApi.Predict | ml/CAR_PRICE_PREDICTION_LGBM/app.py:82-152 | A validation error, or an exception from the pipeline, gives status 400 with that message. A success carries the pipeline's prediction for the validated row. |
| MlApi.AcceptedInRange | ml/CAR_PRICE_PREDICTION_LGBM/app.py:100-109 | An accepted request had all five values in range. |
| Agreement.ClientMatchesServer | ml/CAR_PRICE_PREDICTION_LGBM/static/script.js:134-161 | For integer year and km, the page's range checks and the LightGBM server's range checks agree, with the same messages. This says nothing about conversion: a NaN passes both checks, but the server raises on `float(None)` first. |
| Agreement.ServersAgree | ml/CAR_PRICE_PREDICTION_LGBM/app.py:100-109 | The LightGBM server runs the random-forest server's four checks, then the torque check. |

## Left out

- Decorative code is not modelled: the page loader, parallax, scroll progress, back-to-top, ripple, particles, confetti, entrance and intersection animations, keyboard shortcuts and performance monitoring. None of it affects the form data.
- `animateCount` and the price formatting (`price_lakh`, `f'₹{price_lakh:.2f} Lakh'`) are left out. They are floating-point presentation.
- Numbers are exact reals, not IEEE doubles. Rounding, signed zero, and `parseFloat` of texts beyond plain decimals with an optional exponent, are not modelled. So `MlPage.FormatKmWhileTyping` shows `-0` as `0`, where `(-0).toLocaleString('en-IN')` gives `-0`.
- `fetch`, `alert`, the 1500 ms `setTimeout` before the result appears, toast durations and `scrollIntoView` are not modelled.
  - A reply is an input value, and an alert is appended to a list.
  - The delayed result is applied at once.
  - Overlapping submissions are not modelled.
- The label encoders, the scaler and the trained models (`joblib.load`, `transform`, `predict`) are not modelled. They appear only as a function from features to a prediction or an exception.
- pandas is not modelled. The CSV loading and `to_numeric` coercion are reduced to a row type with a `complete` flag; that flag is what `dropna` tests.
- `int(data[...])` and `float(data[...])` are inputs. Whether they convert, and what they give, is taken as given rather than derived from the JSON text.
- The random-forest server's `companies`, `fuel_types`, `transmissions` and `owners` are not modelled. They come from the encoders' `classes_` (app.py:24-28), which are not part of this model.
- RootPage.Page.LoadOptions: a reply missing one of its lists is not modelled. The random-forest reply has all its lists. Each new load also registers one more `change` listener on the company field, which the model does not count.
- RootPage.Page.UpdateModelDropdown: a `manufacturerModelsMap` that is `undefined` is not modelled. That happens only when a parsed `/api/options` reply has no `manufacturer_models` (static/script.js:43), and `[manufacturer]` then throws. A failed request leaves the map `{}` (static/script.js:10) and never registers the change listener (static/script.js:55-57). The model does not track whether that listener exists: `RootPage.Page.OnCompanyChange` may be called after a failed load too, and then finds no entry.
- RootPage.YearInput: JavaScript's `length` and `slice` count UTF-16 code units, and the model counts characters. So `1😀23` is cut to `1😀2` by a browser, but stays as it is in the model.
- RootPage.Page.ResetForm and MlPage.Page.ResetForm: `form.reset()` is modelled as every select choosing its first option. What the HTML marks as default is not part of this model.
- The `focus`, `blur` and `input` listeners of `enhanceFormInputs` on the LightGBM page only toggle CSS classes and are not modelled. Of `showToast` and `setButtonLoading`, only the message and kind of each toast and the button's loading flag are modelled.
- The test script `test_predictions.py` is a network harness and is not part of this model.
