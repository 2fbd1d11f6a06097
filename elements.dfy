/**
 * The colour pickers wired up by `setupColorPickers` in source/elements.ts. Each picker keeps, in
 * closures, its current colour, the RGBA component state of its sliders and a list of colour
 * listeners. The picker's own `colorChanged` listener, registered first, re-reads the state from
 * the colour; every other listener is an opaque id, and calling it is recorded in `notified`.
 * The decoder and encoder are `Hex.Hex2RGBA` and `Hex.EncodeRGBA`: `RGBA_MODEL` here is the same
 * code as in source/elements/color_picker.ts.
 */
module Elements {
  import opened Js
  import opened Wrappers
  import Hex
  import Text

  datatype Key = R | G | B | A

  datatype Listener = SyncSliders | External(id: nat)

  /** The state `model.fromHex("#000000ff")!` falls back to. */
  const BLACK := Hex.RGBA(Num(0.0), Num(0.0), Num(0.0), Num(255.0))

  /** `state[key] = value`. */
  function Set(c: Hex.RGBA, key: Key, value: Number): (r: Hex.RGBA)
    ensures key == R ==> r == c.(r := value)
    ensures key == G ==> r == c.(g := value)
    ensures key == B ==> r == c.(b := value)
    ensures key == A ==> r == c.(a := value)
  {
    match key
    case R => c.(r := value)
    case G => c.(g := value)
    case B => c.(b := value)
    case A => c.(a := value)
  }

  /** `model.fromHex(color) ?? state`: an undecodable colour keeps the previous state. */
  function Sync(color: string, state: Hex.RGBA): (r: Hex.RGBA)
  {
    Adopt(Hex.Hex2RGBA(color), state)
  }

  function Adopt(decoded: Option<Hex.RGBA>, state: Hex.RGBA): Hex.RGBA
  {
    if decoded.Some? then decoded.value else state
  }

  /** The calls of the external listeners, in registration order, each given the colour. */
  function Notices(listeners: seq<Listener>, color: string): (r: seq<(nat, string)>)
    ensures |r| <= |listeners|
  {
    if |listeners| == 0 then []
    else
      var last := listeners[|listeners| - 1];
      Notices(listeners[..|listeners| - 1], color) + (if last.External? then [(last.id, color)] else [])
  }

  /** `colorPicker.dataset.color ?? "#000000FF"`. */
  function InitialColor(dataColor: Option<string>): (c: string)
    ensures dataColor.Some? ==> c == dataColor.value
    ensures dataColor.None? ==> c == "#000000FF"
  {
    if dataColor.Some? then dataColor.value else "#000000FF"
  }

  /** `presets.textContent?.split(",") ?? []`: the pieces are not trimmed. */
  function PresetsOf(text: Option<string>): (r: seq<string>)
    ensures text.None? ==> r == []
    ensures text.Some? ==> |r| >= 1 && Text.Join(r) == text.value
  {
    if text.Some? then Text.JoinSplit(text.value); Text.Split(text.value) else []
  }

  class ColorPicker {
    var color: string
    var hasSliders: bool
    var state: Hex.RGBA
    /** The values last written into the slider inputs by `colorChanged`. */
    var shown: Hex.RGBA
    var listeners: seq<Listener>
    var presets: seq<string>
    var notified: seq<(nat, string)>

    /** The picker after `setupColorPickers` ran: `dataColor` is the `data-color` attribute,
      * `presetsText` the text of the `.presets` container (None when there is none or its text is
      * null), and `hasSliders` whether a `.sliders` container exists. */
    constructor(dataColor: Option<string>, presetsText: Option<string>, hasSliders: bool)
      ensures color == InitialColor(dataColor)
      ensures this.hasSliders == hasSliders && notified == []
      ensures presets == PresetsOf(presetsText)
      ensures hasSliders ==> listeners == [SyncSliders] && state == Sync(color, BLACK) && shown == state
      ensures !hasSliders ==> listeners == []
    {
      var c := InitialColor(dataColor);
      color := c;
      this.hasSliders := hasSliders;
      notified := [];
      presets := PresetsOf(presetsText);
      if hasSliders {
        var initial := Sync(c, BLACK);
        SyncIdempotent(c, BLACK);
        listeners := [SyncSliders];
        state := Sync(c, initial);
        shown := state;
      } else {
        listeners := [];
        state := BLACK;
        shown := BLACK;
      }
    }

    /** `getColor`. */
    function GetColor(): string
      reads this
    {
      color
    }

    /** `onColorChange(listener)`. */
    method OnColorChange(id: nat)
      modifies this`listeners
      ensures listeners == old(listeners) + [External(id)]
    {
      listeners := listeners + [External(id)];
    }

    /** `triggerColorPickerChangeListeners`: every listener, in order, with the current colour. */
    method Trigger()
      modifies this`state, this`shown, this`notified
      ensures state == (if SyncSliders in listeners then Sync(color, old(state)) else old(state))
      ensures shown == (if SyncSliders in listeners then state else old(shown))
      ensures notified == old(notified) + Notices(listeners, color)
    {
      var decoded := Hex.Hex2RGBA(color);
      RunListeners(decoded);
    }

    /** The loop of `triggerColorPickerChangeListeners`, given what `model.fromHex(color)` returns:
      * the colour does not change while the listeners run, so every call of the picker's own
      * listener decodes the same value. */
    method RunListeners(decoded: Option<Hex.RGBA>)
      modifies this`state, this`shown, this`notified
      ensures state == (if SyncSliders in listeners then Adopt(decoded, old(state)) else old(state))
      ensures shown == (if SyncSliders in listeners then state else old(shown))
      ensures notified == old(notified) + Notices(listeners, color)
    {
      ghost var synced := Adopt(decoded, state);
      ghost var seen := false;
      var i := 0;
      while i < |listeners|
        invariant 0 <= i <= |listeners|
        invariant seen <==> SyncSliders in listeners[..i]
        invariant state == (if seen then synced else old(state))
        invariant shown == (if seen then synced else old(shown))
        invariant notified == old(notified) + Notices(listeners[..i], color)
      {
        var l := listeners[i];
        NoticesStep(listeners, i, color);
        if l.SyncSliders? {
          state := Adopt(decoded, state);
          shown := state;
          seen := true;
        } else {
          notified := notified + [(l.id, color)];
        }
        i := i + 1;
      }
      assert listeners[..|listeners|] == listeners;
    }

    /** The slider callback of `buildSliders`: one component changes, then the whole colour is
      * re-encoded and every listener is told. */
    method SliderChanged(key: Key, value: real)
      modifies this`state, this`color, this`shown, this`notified
      ensures color == Hex.EncodeRGBA(Set(old(state), key, Num(value)))
      ensures state == (if SyncSliders in listeners then Sync(color, Set(old(state), key, Num(value)))
                        else Set(old(state), key, Num(value)))
      ensures shown == (if SyncSliders in listeners then state else old(shown))
      ensures notified == old(notified) + Notices(listeners, color)
    {
      state := Set(state, key, Num(value));
      color := Hex.EncodeRGBA(state);
      Trigger();
    }

    /** A preset button: the colour becomes the preset text, untrimmed, and every listener is told. */
    method PresetClicked(k: nat)
      requires k < |presets|
      modifies this`color, this`state, this`shown, this`notified
      ensures color == presets[k]
      ensures state == (if SyncSliders in listeners then Sync(color, old(state)) else old(state))
      ensures shown == (if SyncSliders in listeners then state else old(shown))
      ensures notified == old(notified) + Notices(listeners, color)
    {
      color := presets[k];
      Trigger();
    }
  }

  // ---------------------------------------------------------------- lemmas

  lemma NoticesStep(listeners: seq<Listener>, i: nat, color: string)
    requires i < |listeners|
    ensures var l := listeners[i];
      Notices(listeners[..i + 1], color) ==
        Notices(listeners[..i], color) + (if l.External? then [(l.id, color)] else [])
    ensures SyncSliders in listeners[..i + 1] <==> SyncSliders in listeners[..i] || listeners[i] == SyncSliders
  {
    assert listeners[..i + 1] == listeners[..i] + [listeners[i]];
    assert listeners[..i + 1][..i] == listeners[..i];
  }

  /** Re-reading a colour twice gives what re-reading it once gave. */
  lemma SyncIdempotent(color: string, state: Hex.RGBA)
    ensures Sync(color, Sync(color, state)) == Sync(color, state)
  {
  }

  /** A slider change touches only its own component. */
  lemma SetOnlyTouchesKey(c: Hex.RGBA, key: Key, value: Number)
    ensures key != R ==> Set(c, key, value).r == c.r
    ensures key != G ==> Set(c, key, value).g == c.g
    ensures key != B ==> Set(c, key, value).b == c.b
    ensures key != A ==> Set(c, key, value).a == c.a
  {
  }

  predicate IsByteState(c: Hex.RGBA)
  {
    Hex.IsByte(c.r) && Hex.IsByte(c.g) && Hex.IsByte(c.b) && Hex.IsByte(c.a)
  }

  /** The picker's own listener re-reads exactly the state that was encoded, as long as every
    * component is a whole number in [0, 255]: a slider change then ends in the state it set. */
  lemma {:induction false} SyncAfterSliderIsIdentity(c: Hex.RGBA, key: Key, value: real)
    requires IsByteState(c) && Hex.IsByte(Num(value))
    ensures var s := Set(c, key, Num(value));
      Sync(Hex.EncodeRGBA(s), s) == s
  {
    var s := Set(c, key, Num(value));
    assert IsByteState(s);
    Hex.RoundTripRecord(s);
  }

  /** An undecodable colour keeps the state: a NaN red component is written as "NaN", which makes
    * the encoding nine digits long after its "#". */
  lemma NaNComponentKeepsState(state: Hex.RGBA)
    requires state.r == NaN && state.g.Num? && state.b.Num? && state.a.Num?
    ensures Hex.Hex2RGBA(Hex.EncodeRGBA(state)).None?
    ensures Sync(Hex.EncodeRGBA(state), state) == state
  {
    NaNEncodingLength(state);
  }

  /** The encoding of a colour whose red component alone is NaN measures nine characters. */
  lemma NaNEncodingLength(state: Hex.RGBA)
    requires state.r == NaN && state.g.Num? && state.b.Num? && state.a.Num?
    ensures |Hex.Stripped(Hex.EncodeRGBA(state))| == 9
  {
    var rest := [state.g, state.b, state.a];
    Hex.EncodeLength(rest);
    Hex.EncodeDigits(rest);
    Hex.EncodeCons(state.r, rest);
    assert [state.r] + rest == [state.r, state.g, state.b, state.a];
    var digits := Hex.EncodeAll(rest);
    var body := "NaN" + digits;
    assert Hex.EncodeAll([state.r, state.g, state.b, state.a]) == body;
    assert |body| == 9 && body[8] == digits[5];
    assert Hex.IsLowerHexDigit(digits[5]);
    Hex.StrippedOfHashed(body);
    assert Hex.EncodeRGBA(state) == "#" + body;
  }

  /** The fallback state is opaque black. */
  lemma FallbackIsBlack()
    ensures Hex.Hex2RGBA("#000000ff") == Some(BLACK)
  {
    assert Hex.PairValue('0', '0') == Num(0.0);
    assert Hex.PairValue('f', 'f') == Num(255.0);
    assert "#000000ff" == "#" + ("00" + "00" + "00" + "ff");
    assert Hex.AllLowerHex("00" + "00" + "00" + "ff");
    Hex.DecodeDigits8("00", "00", "00", "ff");
  }

  /** Every call is of a registered external listener, with the colour. */
  lemma {:induction false} NoticesMembers(listeners: seq<Listener>, color: string)
    ensures forall e :: e in Notices(listeners, color) ==> e.1 == color && External(e.0) in listeners
  {
    if |listeners| > 0 {
      var init := listeners[..|listeners| - 1];
      NoticesMembers(init, color);
      assert forall l :: l in init ==> l in listeners;
    }
  }

  /** Notices lists exactly the external listeners, each once per registration. */
  lemma {:induction false} NoticesCount(listeners: seq<Listener>, color: string)
    requires forall i :: 0 <= i < |listeners| ==> listeners[i].External?
    ensures |Notices(listeners, color)| == |listeners|
    ensures forall i :: 0 <= i < |listeners| ==> Notices(listeners, color)[i] == (listeners[i].id, color)
  {
    if |listeners| > 0 {
      NoticesCount(listeners[..|listeners| - 1], color);
    }
  }

  /** The initial state: a decodable `data-color` is read; otherwise opaque black. */
  lemma InitialState(color: string)
    ensures Hex.Hex2RGBA(color).Some? ==> Sync(color, BLACK) == Hex.Hex2RGBA(color).value
    ensures Hex.Hex2RGBA(color).None? ==> Sync(color, BLACK) == BLACK
  {
  }
}
