/**
 * The shared dropdown and rendering helpers of JS/main.js. A `<select>` element is a
 * `Dropdown` object whose options, disabled flag and selected value the helpers
 * change in place; the results container is a `Container` whose content they replace.
 */
module Frontend {
  import opened Wrappers

  /** Placeholder text `populateDropdown` uses when the caller passes none. */
  const DefaultPlaceholder: string := "Select an option"

  /** Message `renderError` shows when the caller passes none. */
  const DefaultErrorMessage: string := "An error occurred."

  /** One `<option>`: the value it submits and the text it shows. */
  datatype Choice = Choice(value: string, text: string)

  /** A snapshot of one `<select>`: its options, its disabled flag, its selected value. */
  datatype DropdownState = DropdownState(options: seq<Choice>, disabled: bool, value: string)

  /** One employer card: the employer's name, and the link its heading carries, if any. */
  datatype Card = Card(name: string, link: Option<string>)

  /** What the results container shows. */
  datatype Content =
    | Blank                      // innerHTML = ""
    | NoEmployers                // "No Employers Shown At This Time"
    | NoResults                  // "No results found."
    | ErrorText(message: string) // <p class="error">message</p>
    | Cards(cards: seq<Card>)    // one card per employer, in order

  /** The state `resetDependentDropdowns` leaves a dropdown in: no options, disabled. */
  const Emptied: DropdownState := DropdownState([], true, "")

  /** The options `populateDropdown` appends for `items`: value and text are the item. */
  function ItemChoices(items: seq<string>): seq<Choice>
  {
    if items == [] then []
    else ItemChoices(items[..|items| - 1]) + [Choice(items[|items| - 1], items[|items| - 1])]
  }

  /** The values a dropdown's options submit, in order. */
  function Values(options: seq<Choice>): seq<string>
  {
    if options == [] then []
    else Values(options[..|options| - 1]) + [options[|options| - 1].value]
  }

  function PlaceholderChoice(placeholder: Option<string>): Choice
  {
    Choice("", placeholder.GetOr(DefaultPlaceholder))
  }

  /** The dropdown `populateDropdown(select, items, placeholder)` leaves behind. */
  function Populated(items: seq<string>, placeholder: Option<string>): DropdownState
  {
    DropdownState([PlaceholderChoice(placeholder)] + ItemChoices(items), false, "")
  }

  lemma {:induction false} ItemChoicesSpec(items: seq<string>)
    ensures |ItemChoices(items)| == |items|
    ensures forall k :: 0 <= k < |items| ==> ItemChoices(items)[k] == Choice(items[k], items[k])
  {
    if items != [] {
      ItemChoicesSpec(items[..|items| - 1]);
    }
  }

  lemma {:induction false} ValuesOfItemChoices(items: seq<string>)
    ensures Values(ItemChoices(items)) == items
  {
    if items != [] {
      var init := items[..|items| - 1];
      ValuesOfItemChoices(init);
      ItemChoicesSpec(items);
      assert ItemChoices(items)[..|items| - 1] == ItemChoices(init);
      assert items == init + [items[|items| - 1]];
    }
  }

  lemma {:induction false} ValuesPrepend(c: Choice, options: seq<Choice>)
    ensures Values([c] + options) == [c.value] + Values(options)
  {
    if options != [] {
      ValuesPrepend(c, options[..|options| - 1]);
      assert ([c] + options)[..|options|] == [c] + options[..|options| - 1];
    }
  }

  /**
   * After `populateDropdown` the dropdown is enabled, shows the placeholder (the given
   * text, else "Select an option") with value "" first, then one option per item in
   * the given order, and nothing of what it held before.
   */
  lemma PopulatedSpec(items: seq<string>, placeholder: Option<string>)
    ensures !Populated(items, placeholder).disabled
    ensures Populated(items, placeholder).value == ""
    ensures |Populated(items, placeholder).options| == |items| + 1
    ensures Values(Populated(items, placeholder).options) == [""] + items
    ensures Populated(items, placeholder).options[0].text ==
      (if placeholder.Some? then placeholder.value else "Select an option")
    ensures forall k :: 0 <= k < |items| ==> Populated(items, placeholder).options[k + 1].text == items[k]
  {
    ValuesPrepend(PlaceholderChoice(placeholder), ItemChoices(items));
    ValuesOfItemChoices(items);
    ItemChoicesSpec(items);
  }

  /** A `<select>` element. */
  class Dropdown {
    var options: seq<Choice>
    var disabled: bool
    /** The value of the selected option; "" when there is no option. */
    var value: string

    /** An element as the page's markup declares it: no options yet. */
    constructor (disabled: bool)
      ensures options == [] && this.disabled == disabled && value == ""
    {
      options := [];
      this.disabled := disabled;
      value := "";
    }

    function State(): DropdownState
      reads this
    {
      DropdownState(options, disabled, value)
    }
  }

  /** The element the results are rendered into. */
  class Container {
    var html: Content

    constructor ()
      ensures html == Blank
    {
      html := Blank;
    }
  }

  /** `clearDropdown`: drop every option; the disabled flag is left as it was. */
  method ClearDropdown(select: Dropdown)
    modifies select
    ensures select.options == [] && select.value == ""
    ensures select.disabled == old(select.disabled)
  {
    select.options := [];
    select.value := "";
  }

  /** `disableDropdown` */
  method DisableDropdown(select: Dropdown)
    modifies select
    ensures select.disabled
    ensures select.options == old(select.options) && select.value == old(select.value)
  {
    select.disabled := true;
  }

  /** `enableDropdown` */
  method EnableDropdown(select: Dropdown)
    modifies select
    ensures !select.disabled
    ensures select.options == old(select.options) && select.value == old(select.value)
  {
    select.disabled := false;
  }

  /**
   * `populateDropdown`: clear, enable, append the placeholder, then append the items
   * one by one. Appending to an emptied select selects its first option, the
   * placeholder, so the selected value is "".
   */
  method PopulateDropdown(select: Dropdown, items: seq<string>, placeholder: Option<string>)
    modifies select
    ensures select.State() == Populated(items, placeholder)
  {
    ClearDropdown(select);
    EnableDropdown(select);
    select.options := select.options + [PlaceholderChoice(placeholder)];
    for k := 0 to |items|
      invariant select.options == [PlaceholderChoice(placeholder)] + ItemChoices(items[..k])
      invariant !select.disabled && select.value == ""
    {
      assert items[..k + 1][..k] == items[..k];
      select.options := select.options + [Choice(items[k], items[k])];
    }
    assert items[..|items|] == items;
  }

  /**
   * `resetDependentDropdowns`: every listed dropdown ends empty and disabled; the
   * frame guarantees that no other dropdown changes.
   */
  method ResetDependentDropdowns(dropdowns: seq<Dropdown>)
    modifies dropdowns
    ensures forall k :: 0 <= k < |dropdowns| ==> dropdowns[k].State() == Emptied
  {
    for k := 0 to |dropdowns|
      invariant forall j :: 0 <= j < k ==> dropdowns[j].State() == Emptied
    {
      ClearDropdown(dropdowns[k]);
      DisableDropdown(dropdowns[k]);
    }
  }

  /** `renderNoResults` */
  method RenderNoResults(container: Container)
    modifies container
    ensures container.html == NoResults
  {
    container.html := NoResults;
  }

  /** `renderError`: the given message, else "An error occurred.". */
  method RenderError(container: Container, message: Option<string>)
    modifies container
    ensures container.html == ErrorText(if message.Some? then message.value else "An error occurred.")
  {
    container.html := ErrorText(message.GetOr(DefaultErrorMessage));
  }
}
