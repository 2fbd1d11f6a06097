/**
 * The `color-picker-element` custom element (source/elements/color_picker.ts): its two colour
 * models and the `color` setter that pushes a decoded colour into the element's sliders.
 *
 * A slider is identified by the component key it edits; assigning `slider.value` is recorded as a
 * `SliderSet` entry of the element's effect trace, and dispatching the bubbling "input" event as a
 * `Dispatched` entry. A `TypeError` thrown by the setter is its `thrown` result.
 */
module ColorPicker {
  import opened Js
  import opened Wrappers
  import Hex

  datatype Key = R | G | B | A

  datatype Format = Rgb | Rgba

  /** A colour of the three-component model. */
  datatype RGB = RGB(r: Number, g: Number, b: Number)

  /** What a call returned, or that it threw a `TypeError`. */
  datatype Outcome<T> = Returned(value: T) | TypeError

  datatype Component = Component(key: Key, title: string, minimum: real, maximum: real, step: real)

  datatype Effect = SliderSet(key: Key, value: Option<Number>) | Dispatched(event: string)

  /** The components each model lays out as sliders, in order. */
  function Components(f: Format): (cs: seq<Component>)
    ensures |cs| == if f == Rgb then 3 else 4
    ensures forall i :: 0 <= i < |cs| ==> cs[i].minimum == 0.0 && cs[i].maximum == 255.0 && cs[i].step == 1.0
  {
    var rgb := [Component(R, "Red  ", 0.0, 255.0, 1.0), Component(G, "Green", 0.0, 255.0, 1.0),
                Component(B, "Blue ", 0.0, 255.0, 1.0)];
    if f == Rgb then rgb else rgb + [Component(A, "Alpha", 0.0, 255.0, 1.0)]
  }

  /** `RGB_MODEL.fromHex`: the `!` does nothing at run time, so an undecodable colour makes the
    * property access on `undefined` throw. */
  function RgbFromHex(hex: string): (r: Outcome<RGB>)
    ensures r.TypeError? <==> !Hex.ValidLength(|Hex.Stripped(hex)|)
    ensures r.Returned? ==> var c := Hex.Hex2RGBA(hex).value;
      r.value == RGB(c.r, c.g, c.b)
  {
    match Hex.Hex2RGBA(hex)
    case None => TypeError
    case Some(c) => Returned(RGB(c.r, c.g, c.b))
  }

  /** `RGB_MODEL.toHex`. */
  function RgbToHex(c: RGB): string
  {
    Hex.Encode([c.r, c.g, c.b])
  }

  function ModelOf(format: Option<string>): (m: Option<Format>)
    ensures m == Some(Rgb) <==> format == Some("rgb")
    ensures m == Some(Rgba) <==> format == Some("rgba")
  {
    if format == Some("rgb") then Some(Rgb)
    else if format == Some("rgba") then Some(Rgba)
    else None
  }

  function StateOfRgb(c: RGB): map<Key, Number> { map[R := c.r, G := c.g, B := c.b] }

  function StateOfRgba(c: Hex.RGBA): map<Key, Number> { map[R := c.r, G := c.g, B := c.b, A := c.a] }

  /** `model.fromHex(color)` seen as a keyed state: RGB throws on a bad colour, RGBA returns
    * `undefined` (None). */
  function StateOf(m: Format, hex: string): Outcome<Option<map<Key, Number>>>
  {
    match m
    case Rgb =>
      (match RgbFromHex(hex)
       case TypeError => TypeError
       case Returned(c) => Returned(Some(StateOfRgb(c))))
    case Rgba =>
      (match Hex.Hex2RGBA(hex)
       case None => Returned(None)
       case Some(c) => Returned(Some(StateOfRgba(c))))
  }

  /** `state[key]`: a key the state lacks reads as `undefined` (None). */
  function Lookup(state: map<Key, Number>, key: Key): Option<Number>
  {
    if key in state then Some(state[key]) else None
  }

  /** The slider assignments of the setter's loop, in the map's order. */
  function Pushes(keys: seq<Key>, state: map<Key, Number>): (r: seq<Effect>)
    ensures |r| == |keys|
    ensures forall i :: 0 <= i < |keys| ==> r[i] == SliderSet(keys[i], Lookup(state, keys[i]))
  {
    seq(|keys|, i requires 0 <= i < |keys| => SliderSet(keys[i], Lookup(state, keys[i])))
  }

  /** Whether the setter throws for a new colour: the RGB model on an undecodable colour, or the
    * RGBA model's `undefined` state indexed by the first slider. */
  predicate Throws(m: Option<Format>, hex: string, keys: seq<Key>)
  {
    m.Some? &&
    match StateOf(m.value, hex)
    case TypeError => true
    case Returned(s) => s.None? && |keys| > 0
  }

  /** The slider assignments the setter makes for a new colour when it does not throw. */
  function SetterPushes(m: Option<Format>, hex: string, keys: seq<Key>): seq<Effect>
  {
    if m.None? then []
    else
      match StateOf(m.value, hex)
      case TypeError => []
      case Returned(None) => []
      case Returned(Some(state)) => Pushes(keys, state)
  }

  class ColorPickerElement {
    var color: string
    var format: Option<string>
    var controls: seq<Key>
    var connected: bool
    var trace: seq<Effect>

    /** The element after `connectedCallback` has laid out its sliders under `controls`. */
    constructor(format: Option<string>, controls: seq<Key>, connected: bool)
      ensures this.color == "#000000FF" && this.format == format
      ensures this.controls == controls && this.connected == connected && this.trace == []
    {
      this.color := "#000000FF";
      this.format := format;
      this.controls := controls;
      this.connected := connected;
      this.trace := [];
    }

    /** The `color` setter. */
    method SetColor(c: string) returns (thrown: bool)
      modifies this
      ensures format == old(format) && controls == old(controls) && connected == old(connected)
      ensures c == old(color) ==> !thrown && color == old(color) && trace == old(trace)
      ensures c != old(color) ==> color == c
      ensures thrown <==> c != old(color) && Throws(ModelOf(format), c, controls)
      ensures thrown ==> trace == old(trace)
      ensures c != old(color) && !thrown ==>
        trace == old(trace) + SetterPushes(ModelOf(format), c, controls)
                 + (if connected then [Dispatched("input")] else [])
    {
      thrown := false;
      if c == color {
        return;
      }
      color := c;
      var model := ModelOf(format);
      if model.Some? {
        var outcome := StateOf(model.value, c);
        if outcome.TypeError? {
          thrown := true;
          return;
        }
        if outcome.value.None? {
          if |controls| > 0 {
            thrown := true;
            return;
          }
        } else {
          var state := outcome.value.value;
          PushAll(state);
        }
      }
      if connected {
        trace := trace + [Dispatched("input")];
      }
    }

    /** The setter's loop over the slider map, assigning each slider its component. */
    method PushAll(state: map<Key, Number>)
      modifies this
      ensures color == old(color) && format == old(format) && controls == old(controls)
      ensures connected == old(connected)
      ensures trace == old(trace) + Pushes(controls, state)
    {
      var i := 0;
      while i < |controls|
        invariant 0 <= i <= |controls|
        invariant color == old(color) && format == old(format) && controls == old(controls)
        invariant connected == old(connected)
        invariant trace == old(trace) + Pushes(controls[..i], state)
      {
        var key := controls[i];
        trace := trace + [SliderSet(key, Lookup(state, key))];
        assert Pushes(controls[..i + 1], state) == Pushes(controls[..i], state) + [SliderSet(key, Lookup(state, key))];
        i := i + 1;
      }
      assert controls[..|controls|] == controls;
    }
  }

  // ---------------------------------------------------------------- lemmas

  /** The RGB model's decoder drops alpha and keeps the other three decoded components. */
  lemma RgbDropsAlpha(hex: string)
    requires Hex.ValidLength(|Hex.Stripped(hex)|)
    ensures var s := StateOf(Rgb, hex);
      s.Returned? && s.value.Some? && s.value.value.Keys == {R, G, B}
  {
  }

  /** The RGBA model never throws: an undecodable colour is `undefined`. */
  lemma RgbaNeverThrows(hex: string)
    ensures StateOf(Rgba, hex).Returned?
    ensures StateOf(Rgba, hex).value.None? <==> !Hex.ValidLength(|Hex.Stripped(hex)|)
  {
  }

  /** Round trip through the RGB model. */
  lemma RgbRoundTrip(c: RGB)
    requires Hex.IsByte(c.r) && Hex.IsByte(c.g) && Hex.IsByte(c.b)
    ensures RgbFromHex(RgbToHex(c)) == Returned(c)
  {
    Hex.RoundTripRGB(c.r, c.g, c.b);
  }

  /** The RGB encoding is always seven characters, "#" and six lowercase digits. */
  lemma RgbToHexShape(c: RGB)
    requires c.r.Num? && c.g.Num? && c.b.Num?
    ensures var h := RgbToHex(c); |h| == 7 && h[0] == '#' && Hex.AllLowerHex(h[1..])
  {
    Hex.EncodeShape([c.r, c.g, c.b]);
  }

  /** The setter's slider assignments hold no event: "input" is dispatched at most once, last. */
  lemma SetterPushesShape(m: Option<Format>, hex: string, keys: seq<Key>)
    ensures forall e :: e in SetterPushes(m, hex, keys) ==> e.SliderSet?
    ensures |SetterPushes(m, hex, keys)| ==
      if m.Some? && Hex.ValidLength(|Hex.Stripped(hex)|) then |keys| else 0
  {
    if m.Some? {
      var st := StateOf(m.value, hex);
      if st.Returned? && st.value.Some? {
        assert SetterPushes(m, hex, keys) == Pushes(keys, st.value.value);
      } else {
        assert SetterPushes(m, hex, keys) == [];
      }
    }
  }

  /** A decodable colour never makes the setter throw. */
  lemma DecodableNeverThrows(m: Option<Format>, hex: string, keys: seq<Key>)
    requires Hex.ValidLength(|Hex.Stripped(hex)|)
    ensures !Throws(m, hex, keys)
  {
  }

  /** An undecodable colour makes the RGB picker throw before touching any slider, and the RGBA
    * picker throw exactly when it has sliders. */
  lemma UndecodableThrows(m: Format, hex: string, keys: seq<Key>)
    requires !Hex.ValidLength(|Hex.Stripped(hex)|)
    ensures Throws(Some(m), hex, keys) <==> m == Rgb || |keys| > 0
  {
  }
}
