/**
 * The parts of the page the scripts touch: `<select>` elements and the
 * outcome of a `fetch` of the prediction endpoint.
 */
module Browser {
  import opened Wrappers

  /** An `<option>`: its `value` attribute and its text. */
  datatype OptionElem = OptionElem(value: string, text: string)

  /** `<option value="">Select Model</option>`, which both scripts write into the model field. */
  const ModelPlaceholder := OptionElem("", "Select Model")

  /** The option both scripts create for a value: `option.value = option.textContent = v`. */
  function Choice(v: string): OptionElem
  {
    OptionElem(v, v)
  }

  function Choices(values: seq<string>): (r: seq<OptionElem>)
    ensures |r| == |values|
    ensures forall i :: 0 <= i < |values| ==> r[i] == Choice(values[i])
  {
    seq(|values|, i requires 0 <= i < |values| => Choice(values[i]))
  }

  /**
   * What a `fetch` of the prediction endpoint ends with: a parsed JSON body
   * (`success`, `formatted_price`, `error`), or an exception (network
   * failure, body that is not JSON) with its message.
   */
  datatype Reply =
    | Json(success: bool, formattedPrice: string, error: Option<string>)
    | Failed(message: string)

  /** `e || fallback` for an optional string: a missing or empty `e` is falsy. */
  function MessageOr(e: Option<string>, fallback: string): (r: string)
    ensures e.Some? && e.value != "" ==> r == e.value
    ensures !(e.Some? && e.value != "") ==> r == fallback
    ensures r != "" || fallback == ""
  {
    if e.Some? && e.value != "" then e.value else fallback
  }

  /** A single-choice `<select>`: its options, the selected index and the `disabled` flag. */
  class Select {
    var options: seq<OptionElem>
    var selected: nat
    var disabled: bool

    /** `select.value`: the value of the selected option, "" when there is none. */
    function Value(): string
      reads this
    {
      if selected < |options| then options[selected].value else ""
    }

    constructor (initial: seq<OptionElem>)
      ensures options == initial && selected == 0 && !disabled
    {
      options := initial;
      selected := 0;
      disabled := false;
    }

    /** A select the page marks `disabled` from the start. */
    constructor Disabled(initial: seq<OptionElem>)
      ensures options == initial && selected == 0 && disabled
    {
      options := initial;
      selected := 0;
      disabled := true;
    }

    /** `select.innerHTML = ...`: the new options replace the old, the first one is selected. */
    method Replace(newOptions: seq<OptionElem>)
      modifies this`options, this`selected
      ensures options == newOptions && selected == 0
    {
      options := newOptions;
      selected := 0;
    }

    /** `select.appendChild(option)`: an option added to an empty select becomes the selected one. */
    method Append(o: OptionElem)
      modifies this`options, this`selected
      ensures options == old(options) + [o]
      ensures selected == if old(options) == [] then 0 else old(selected)
    {
      if options == [] {
        selected := 0;
      }
      options := options + [o];
    }

    /** What `form.reset()` does to a select that marks no option as the default: select the first. */
    method Reset()
      modifies this`selected
      ensures selected == 0
    {
      selected := 0;
    }

    /** The user picks an option. */
    method Choose(i: nat)
      requires i < |options|
      modifies this`selected
      ensures selected == i && Value() == options[i].value
    {
      selected := i;
    }
  }

  /** `values.forEach(v => select.appendChild(option for v))`. */
  method AppendChoices(select: Select, values: seq<string>)
    modifies select`options, select`selected
    ensures select.options == old(select.options) + Choices(values)
    ensures select.selected == if old(select.options) == [] && values != [] then 0 else old(select.selected)
  {
    for i := 0 to |values|
      invariant select.options == old(select.options) + Choices(values[..i])
      invariant select.selected == if old(select.options) == [] && i > 0 then 0 else old(select.selected)
    {
      assert Choices(values[..i + 1]) == Choices(values[..i]) + [Choice(values[i])];
      select.Append(Choice(values[i]));
    }
    assert values[..|values|] == values;
  }

}
