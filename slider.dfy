/**
 * The `slider-element` custom element (source/elements/slider.ts). Its numeric attributes are kept
 * as the numbers `Number(attribute)` gives for them (the string-to-number conversion itself is not
 * part of this model); `valueAttribute` is the number last written back with
 * `setAttribute("value", String(clamped))`. Dispatched events are appended to `events`.
 */
module Slider {
  import opened Js
  import opened Wrappers

  /** The number an optional attribute gives, or a default when it is absent (`?? "0"` etc.). */
  function AttributeOr(attribute: Option<Number>, default: Number): (r: Number)
    ensures attribute.None? ==> r == default
    ensures attribute.Some? ==> r == attribute.value
  {
    if attribute.Some? then attribute.value else default
  }

  /** The value `updateHandle` assigns for the pointer fraction `t` along the track. */
  function HandleTarget(minimum: Number, maximum: Number, t: real): Number
  {
    if minimum.NaN? || maximum.NaN? then NaN
    else Num(minimum.value + t * (maximum.value - minimum.value))
  }

  class SliderElement {
    var value: Number
    var minimum: Number
    var maximum: Number
    var step: Number
    var minimumAttribute: Option<Number>
    var maximumAttribute: Option<Number>
    var stepAttribute: Option<Number>
    var valueAttribute: Option<Number>
    var events: seq<string>

    /** A freshly constructed element with the field defaults and the given markup attributes. */
    constructor(minimumAttribute: Option<Number>, maximumAttribute: Option<Number>,
                stepAttribute: Option<Number>, valueAttribute: Option<Number>)
      ensures value == Num(0.0) && minimum == Num(0.0) && maximum == Num(100.0) && step == Num(1.0)
      ensures this.minimumAttribute == minimumAttribute && this.maximumAttribute == maximumAttribute
      ensures this.stepAttribute == stepAttribute && this.valueAttribute == valueAttribute
      ensures events == []
    {
      value := Num(0.0);
      minimum := Num(0.0);
      maximum := Num(100.0);
      step := Num(1.0);
      this.minimumAttribute := minimumAttribute;
      this.maximumAttribute := maximumAttribute;
      this.stepAttribute := stepAttribute;
      this.valueAttribute := valueAttribute;
      events := [];
    }

    /** The `value` setter: clamp into [minimum, maximum]; a clamped value that is `===` the
      * current one changes nothing, otherwise it is stored, mirrored into the attribute, and one
      * "input" event is dispatched. NaN is never `===` anything, so it is always stored. */
    method SetValue(x: Number)
      modifies this
      ensures var c := Clamp(old(minimum), old(maximum), x);
        if StrictEquals(c, old(value)) then
          value == old(value) && valueAttribute == old(valueAttribute) && events == old(events)
        else
          value == c && valueAttribute == Some(c) && events == old(events) + ["input"]
      ensures minimum == old(minimum) && maximum == old(maximum) && step == old(step)
      ensures minimumAttribute == old(minimumAttribute) && maximumAttribute == old(maximumAttribute)
      ensures stepAttribute == old(stepAttribute)
    {
      var clamped := Clamp(minimum, maximum, x);
      if StrictEquals(clamped, value) {
        return;
      }
      value := clamped;
      valueAttribute := Some(clamped);
      events := events + ["input"];
    }

    /** `attributeChangedCallback`: the bounds are read with their defaults 0 and 100, then the
      * value (defaulting to the new minimum) goes through the setter, then the step (default 1). */
    method AttributeChangedCallback()
      modifies this
      ensures minimum == AttributeOr(old(minimumAttribute), Num(0.0))
      ensures maximum == AttributeOr(old(maximumAttribute), Num(100.0))
      ensures step == AttributeOr(old(stepAttribute), Num(1.0))
      ensures var c := Clamp(minimum, maximum, AttributeOr(old(valueAttribute), minimum));
        if StrictEquals(c, old(value)) then
          value == old(value) && valueAttribute == old(valueAttribute) && events == old(events)
        else
          value == c && valueAttribute == Some(c) && events == old(events) + ["input"]
      ensures minimumAttribute == old(minimumAttribute) && maximumAttribute == old(maximumAttribute)
      ensures stepAttribute == old(stepAttribute)
    {
      minimum := AttributeOr(minimumAttribute, Num(0.0));
      maximum := AttributeOr(maximumAttribute, Num(100.0));
      SetValue(AttributeOr(valueAttribute, minimum));
      step := AttributeOr(stepAttribute, Num(1.0));
    }

    /** `updateHandle` for a pointer at `clientX` over a track whose box starts at `left` and is
      * `width` wide. */
    method UpdateHandle(clientX: real, left: real, width: real)
      requires width != 0.0
      modifies this
      ensures var c := Clamp(old(minimum), old(maximum), HandleTarget(old(minimum), old(maximum), (clientX - left) / width));
        if StrictEquals(c, old(value)) then
          value == old(value) && valueAttribute == old(valueAttribute) && events == old(events)
        else
          value == c && valueAttribute == Some(c) && events == old(events) + ["input"]
      ensures minimum == old(minimum) && maximum == old(maximum) && step == old(step)
      ensures minimumAttribute == old(minimumAttribute) && maximumAttribute == old(maximumAttribute)
      ensures stepAttribute == old(stepAttribute)
    {
      var interpolation := (clientX - left) / width;
      SetValue(HandleTarget(minimum, maximum, interpolation));
    }

    /** `handleClick`: the handle follows the pointer, then "change" is dispatched. */
    method HandleClick(clientX: real, left: real, width: real)
      requires width != 0.0
      modifies this
      ensures var c := Clamp(old(minimum), old(maximum), HandleTarget(old(minimum), old(maximum), (clientX - left) / width));
        if StrictEquals(c, old(value)) then
          value == old(value) && valueAttribute == old(valueAttribute) && events == old(events) + ["change"]
        else
          value == c && valueAttribute == Some(c) && events == old(events) + ["input", "change"]
      ensures minimum == old(minimum) && maximum == old(maximum) && step == old(step)
      ensures minimumAttribute == old(minimumAttribute) && maximumAttribute == old(maximumAttribute)
      ensures stepAttribute == old(stepAttribute)
    {
      UpdateHandle(clientX, left, width);
      events := events + ["change"];
    }
  }

  // ---------------------------------------------------------------- lemmas

  /** The setter only ever stores a value in [minimum, maximum] (or NaN), and assigning the value
    * it just stored is a no-op: the clamp is idempotent and a finite value is `===` itself. */
  lemma SetterStable(minimum: Number, maximum: Number, x: Number)
    requires minimum.Num? && maximum.Num? && x.Num?
    ensures var c := Clamp(minimum, maximum, x);
      c.Num? && StrictEquals(Clamp(minimum, maximum, c), c)
    ensures var c := Clamp(minimum, maximum, x);
      minimum.value <= maximum.value ==> minimum.value <= c.value <= maximum.value
  {
    ClampFacts(minimum, maximum, x);
    ClampIdempotent(minimum, maximum, x);
  }

  /** A NaN assignment is always stored and always dispatches, since NaN is not `===` itself. */
  lemma NaNAlwaysChanges(minimum: Number, maximum: Number, current: Number)
    ensures !StrictEquals(Clamp(minimum, maximum, NaN), current)
  {
  }

  /** The handle maps the track linearly: the left edge gives the minimum, the right edge the
    * maximum, and any fraction in [0, 1] a value that the clamp leaves alone; outside the track
    * the clamp pins the value to the nearer bound. */
  lemma HandleIsLinear(minimum: Number, maximum: Number, t: real)
    requires minimum.Num? && maximum.Num? && minimum.value <= maximum.value
    ensures HandleTarget(minimum, maximum, 0.0) == minimum
    ensures HandleTarget(minimum, maximum, 1.0) == maximum
    ensures 0.0 <= t <= 1.0 ==>
      Clamp(minimum, maximum, HandleTarget(minimum, maximum, t)) == HandleTarget(minimum, maximum, t)
    ensures t < 0.0 ==> Clamp(minimum, maximum, HandleTarget(minimum, maximum, t)) == minimum
    ensures t > 1.0 ==> Clamp(minimum, maximum, HandleTarget(minimum, maximum, t)) == maximum
  {
    var lo, d := minimum.value, maximum.value - minimum.value;
    assert HandleTarget(minimum, maximum, t) == Num(lo + t * d);
    if 0.0 <= t <= 1.0 {
      MulLeqOne(t, d);
    } else if t < 0.0 {
      MulNonPos(t, d);
    } else {
      MulGeqOne(t, d);
    }
  }

  lemma MulLeqOne(t: real, d: real)
    requires 0.0 <= t <= 1.0 && d >= 0.0
    ensures 0.0 <= t * d <= d
  {
  }

  lemma MulNonPos(t: real, d: real)
    requires t < 0.0 && d >= 0.0
    ensures t * d <= 0.0
  {
  }

  lemma MulGeqOne(t: real, d: real)
    requires t > 1.0 && d >= 0.0
    ensures t * d >= d
  {
    assert t * d - d == (t - 1.0) * d;
  }
}
