/**
 * The colour pickers of the older elements.js: `hex2RGBA` with its type check, `RGBA2Hex` over the four
 * slider values, and the closures `setupColorPickers` builds around one picker. The picker's colour
 * is whatever `data-color` held, so it need not be a string; slider values are the numbers the
 * script assigns or the browser reports, kept without the browser's own sanitisation of a range
 * input. Listeners are opaque ids, and each call of one is recorded in `calls` with the colour it
 * was given.
 */
module LegacyElements {
  import opened Js
  import opened Wrappers
  import Hex

  /** A JavaScript value as far as `typeof value !== "string"` can tell. */
  datatype JsValue = Str(s: string) | NonString

  /** `hex2RGBA` of elements.js: null for a value that is not a string, otherwise the shared decoder. */
  function Hex2RGBA(v: JsValue): (r: Option<Hex.RGBA>)
    ensures v.NonString? ==> r.None?
    ensures v.Str? ==> (r.None? <==> !Hex.ValidLength(|Hex.Stripped(v.s)|))
  {
    match v
    case NonString => None
    case Str(s) => Hex.Hex2RGBA(s)
  }

  /** `RGBA2Hex(red, green, blue, alpha)`: "#" and the encoder's output for each value in turn. */
  function RGBA2Hex(red: Number, green: Number, blue: Number, alpha: Number): string
  {
    "#" + Hex.EncodeComponent(red) + Hex.EncodeComponent(green) + Hex.EncodeComponent(blue)
      + Hex.EncodeComponent(alpha)
  }

  /** The components in slider order: red, green, blue, alpha. */
  function Components(c: Hex.RGBA): (r: seq<Number>)
    ensures |r| == 4
  {
    [c.r, c.g, c.b, c.a]
  }

  /** One call of every listener, in registration order, with the same colour. */
  function CallAll(listeners: seq<nat>, color: JsValue): (r: seq<(nat, JsValue)>)
    ensures |r| == |listeners|
    ensures forall i :: 0 <= i < |listeners| ==> r[i] == (listeners[i], color)
  {
    seq(|listeners|, i requires 0 <= i < |listeners| => (listeners[i], color))
  }

  class LegacyColorPicker {
    var color: JsValue
    /** The values of the four range inputs: red, green, blue, alpha. */
    var sliders: seq<Number>
    /** The text of the four value labels next to the sliders. */
    var labels: seq<Number>
    var listeners: seq<nat>
    var calls: seq<(nat, JsValue)>

    predicate Valid()
      reads this
    {
      |sliders| == 4 && |labels| == 4
    }

    /** The closures just built, before the final `updateSliders()`: `dataColor` is the `data-color`
      * attribute and `initial` what the four range inputs and labels hold in the page. */
    constructor(dataColor: JsValue, initial: seq<Number>)
      requires |initial| == 4
      ensures Valid()
      ensures color == dataColor && sliders == initial && labels == initial
      ensures listeners == [] && calls == []
    {
      color := dataColor;
      sliders := initial;
      labels := initial;
      listeners := [];
      calls := [];
    }

    /** `getColor`. */
    function GetColor(): JsValue
      reads this
    {
      color
    }

    /** `updateSliders`: a colour the decoder rejects makes `rgba.red` throw before any slider is
      * written; otherwise every slider and label shows its decoded component. */
    method UpdateSliders() returns (thrown: bool)
      requires Valid()
      modifies this`sliders, this`labels
      ensures Valid()
      ensures thrown <==> Hex2RGBA(color).None?
      ensures thrown ==> sliders == old(sliders) && labels == old(labels)
      ensures !thrown ==> sliders == Components(Hex2RGBA(color).value) && labels == sliders
    {
      var rgba := Hex2RGBA(color);
      if rgba.None? {
        return true;
      }
      var c := rgba.value;
      sliders := [c.r, c.g, c.b, c.a];
      labels := sliders;
      return false;
    }

    /** `onColorChange(listener, trigger)`: register, and with `trigger` call it once right away. */
    method OnColorChange(id: nat, trigger: bool)
      modifies this`listeners, this`calls
      ensures listeners == old(listeners) + [id]
      ensures calls == old(calls) + (if trigger then [(id, color)] else [])
    {
      listeners := listeners + [id];
      if trigger {
        calls := calls + [(id, color)];
      }
    }

    /** Every listener, in registration order, with the current colour. */
    method NotifyAll()
      modifies this`calls
      ensures calls == old(calls) + CallAll(listeners, color)
    {
      var i := 0;
      while i < |listeners|
        invariant 0 <= i <= |listeners|
        invariant calls == old(calls) + CallAll(listeners[..i], color)
      {
        calls := calls + [(listeners[i], color)];
        assert CallAll(listeners[..i + 1], color) == CallAll(listeners[..i], color) + [(listeners[i], color)];
        i := i + 1;
      }
      assert listeners[..|listeners|] == listeners;
    }

    /** The "input" handler of slider `k`, which now holds `value`: its label follows, the colour is
      * recomposed from all four sliders and every listener is told. */
    method SliderInput(k: nat, value: Number)
      requires Valid() && k < 4
      modifies this`sliders, this`labels, this`color, this`calls
      ensures Valid()
      ensures sliders == old(sliders)[k := value] && labels == old(labels)[k := value]
      ensures color == Str(RGBA2Hex(sliders[0], sliders[1], sliders[2], sliders[3]))
      ensures calls == old(calls) + CallAll(listeners, color)
    {
      sliders := sliders[k := value];
      labels := labels[k := value];
      color := Str(RGBA2Hex(sliders[0], sliders[1], sliders[2], sliders[3]));
      NotifyAll();
    }

    /** A preset button: the colour becomes the button's `--color`, the sliders follow, and every
      * listener is told, unless `updateSliders` throws first. */
    method PresetClicked(preset: string) returns (thrown: bool)
      requires Valid()
      modifies this`sliders, this`labels, this`color, this`calls
      ensures Valid()
      ensures color == Str(preset)
      ensures thrown <==> Hex.Hex2RGBA(preset).None?
      ensures thrown ==> sliders == old(sliders) && labels == old(labels) && calls == old(calls)
      ensures !thrown ==> sliders == Components(Hex.Hex2RGBA(preset).value) && labels == sliders
      ensures !thrown ==> calls == old(calls) + CallAll(listeners, color)
    {
      color := Str(preset);
      thrown := UpdateSliders();
      if !thrown {
        NotifyAll();
      }
    }
  }

  // ---------------------------------------------------------------- lemmas

  /** `RGBA2Hex` writes what the four-component encoder of the newer pickers writes. */
  lemma RGBA2HexIsEncodeRGBA(red: Number, green: Number, blue: Number, alpha: Number)
    ensures RGBA2Hex(red, green, blue, alpha) == Hex.EncodeRGBA(Hex.RGBA(red, green, blue, alpha))
  {
    Hex.EncodeFour(red, green, blue, alpha);
  }

  /** Round trip: whole components in [0, 255] come back from `hex2RGBA(RGBA2Hex(r, g, b, a))`. */
  lemma RoundTrip(red: Number, green: Number, blue: Number, alpha: Number)
    requires Hex.IsByte(red) && Hex.IsByte(green) && Hex.IsByte(blue) && Hex.IsByte(alpha)
    ensures Hex2RGBA(Str(RGBA2Hex(red, green, blue, alpha))) == Some(Hex.RGBA(red, green, blue, alpha))
  {
    RGBA2HexIsEncodeRGBA(red, green, blue, alpha);
    Hex.RoundTripRecord(Hex.RGBA(red, green, blue, alpha));
  }

  /** For finite values the output is "#" and eight lowercase hex digits. */
  lemma RGBA2HexShape(red: Number, green: Number, blue: Number, alpha: Number)
    requires red.Num? && green.Num? && blue.Num? && alpha.Num?
    ensures var h := RGBA2Hex(red, green, blue, alpha); |h| == 9 && h[0] == '#' && Hex.AllLowerHex(h[1..])
  {
    RGBA2HexIsEncodeRGBA(red, green, blue, alpha);
    Hex.EncodeRGBAShape(Hex.RGBA(red, green, blue, alpha));
  }
}
