/**
 * The `dropdown-element` custom element (source/elements/dropdown.ts): a current value that is
 * either empty or one of the options parsed from the element's text. `buttonText` is the text of
 * its button, `items` the texts of the list items it builds, and dispatched events go to `events`.
 * `listShown` is whether the list's `style.display` is "block".
 */
module Dropdown {
  import opened Wrappers
  import Text

  class DropdownElement {
    var options: seq<string>
    var value: string
    var buttonText: string
    var items: seq<string>
    var events: seq<string>
    var listShown: bool

    /** `_value` is "" or one of the options. */
    predicate Valid()
      reads this
    {
      value == "" || value in options
    }

    /** A freshly constructed element: no options, empty value. */
    constructor()
      ensures Valid()
      ensures options == [] && value == "" && buttonText == "" && items == [] && events == []
      ensures !listShown
    {
      options := [];
      value := "";
      buttonText := "";
      items := [];
      events := [];
      listShown := false;
    }

    /** `value`. */
    function Value(): (r: string)
      reads this
      requires Valid()
      ensures r == "" || r in options
    {
      value
    }

    /** The `value` setter: the current value or a value that is not an option changes nothing;
      * otherwise the value and the button text become it and one "change" event is dispatched. */
    method SetValue(v: string)
      modifies this
      ensures old(Valid()) ==> Valid()
      ensures v == old(value) || v !in old(options) ==>
        value == old(value) && buttonText == old(buttonText) && events == old(events)
      ensures v != old(value) && v in old(options) ==>
        value == v && buttonText == v && events == old(events) + ["change"]
      ensures options == old(options) && items == old(items) && listShown == old(listShown)
    {
      if v == value {
        return;
      }
      if v !in options {
        return;
      }
      value := v;
      buttonText := v;
      events := events + ["change"];
    }

    /** A click on the list item of option `k`: the option becomes the value and the list hides. */
    method ItemClicked(k: nat)
      requires Valid() && k < |options|
      modifies this
      ensures Valid()
      ensures value == old(options)[k] && options == old(options) && items == old(items)
      ensures events == old(events) + (if old(options)[k] == old(value) then [] else ["change"])
      ensures !listShown
    {
      SetValue(options[k]);
      listShown := false;
    }

    /** A click on the button toggles the list between shown and hidden. The event stops
      * propagating, so the document's listener does not see it. */
    method ButtonClicked()
      modifies this`listShown
      ensures listShown == !old(listShown)
    {
      listShown := !listShown;
    }

    /** Any click that reaches the document hides the list. */
    method DocumentClicked()
      modifies this`listShown
      ensures !listShown
    {
      listShown := false;
    }

    /** `connectedCallback` with the element's text `textContent` and its `value` attribute (None
      * when it is absent: `null` is neither the current value nor an option, so nothing happens). */
    method ConnectedCallback(textContent: string, valueAttribute: Option<string>)
      modifies this
      ensures options == Text.ParseList(textContent) && items == options
      ensures old(value) == "" || old(value) in options ==> Valid()
      ensures valueAttribute.None? ==> value == old(value) && events == old(events)
      ensures valueAttribute.Some? && valueAttribute.value in options && valueAttribute.value != old(value) ==>
        value == valueAttribute.value && buttonText == value && events == old(events) + ["change"]
      ensures valueAttribute.Some? && (valueAttribute.value !in options || valueAttribute.value == old(value)) ==>
        value == old(value) && events == old(events)
      ensures listShown == old(listShown)
    {
      var parsed := Text.ParseList(textContent);
      Connect(parsed, valueAttribute);
    }

    /** `connectedCallback` once the options are parsed: the list is built and the `value`
      * attribute goes through the setter. The value kept from before is still valid when it is
      * one of the new options, as on the first connection, where it is "". */
    method Connect(parsed: seq<string>, valueAttribute: Option<string>)
      modifies this
      ensures options == parsed && items == options
      ensures old(value) == "" || old(value) in options ==> Valid()
      ensures valueAttribute.None? ==> value == old(value) && events == old(events)
      ensures valueAttribute.Some? && valueAttribute.value in options && valueAttribute.value != old(value) ==>
        value == valueAttribute.value && buttonText == value && events == old(events) + ["change"]
      ensures valueAttribute.Some? && (valueAttribute.value !in options || valueAttribute.value == old(value)) ==>
        value == old(value) && events == old(events)
      ensures listShown == old(listShown)
    {
      options := parsed;
      BuildItems();
      if valueAttribute.Some? {
        SetValue(valueAttribute.value);
      }
    }

    /** The loop that appends one list item per option, in order. */
    method BuildItems()
      modifies this
      ensures items == options
      ensures options == old(options) && value == old(value) && buttonText == old(buttonText)
      ensures events == old(events) && listShown == old(listShown)
    {
      items := [];
      var i := 0;
      while i < |options|
        invariant 0 <= i <= |options|
        invariant items == options[..i]
        invariant options == old(options) && value == old(value) && buttonText == old(buttonText)
        invariant events == old(events) && listShown == old(listShown)
      {
        items := items + [options[i]];
        i := i + 1;
      }
    }
  }

  // ---------------------------------------------------------------- lemmas

  /** The empty string is never an option, so "" always means "no value chosen". */
  lemma EmptyIsNoOption(textContent: string)
    ensures "" !in Text.ParseList(textContent)
  {
    Text.ParseListWellFormed(textContent);
  }
}
