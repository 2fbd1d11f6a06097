/**
 * The randomizer of source/randomizer.ts: the two sprite lists it parses from template literals
 * with `parseList`, the index `randomArrayItem` draws, and the ranges of the values `randomize`
 * assigns. Every `Math.random()` draw is a parameter in [0, 1).
 */
module Randomizer {
  import opened Js
  import opened Wrappers
  import Text

  /** The indentation of each line of the two template literals. */
  const INDENT := "\n        "

  /** The sprite paths the headwear template literal lists, one per line. */
  const HEADWEAR_NAMES := ["headwear/no_headwear.svg", "headwear/top_hat.svg", "headwear/baseball_cap.svg",
                  "headwear/propeller_hat.svg", "headwear/christmas_hat.svg", "headwear/wizard_hat.svg",
                  "headwear/plant_hat.svg", "headwear/birthday_hat.svg"]
  /** The sprite paths the weapon template literal lists, one per line. */
  const WEAPON_NAMES := ["weapons/no_weapon.svg", "weapons/sword.svg", "weapons/spear.svg", "weapons/staff.svg",
                  "weapons/baseball_bat.svg", "weapons/trident.svg"]

  /** A template literal listing `names` one per indented line, separated by commas, ending in
    * `tail`: "\n" for the headwear literal, ",\n" for the weapon literal with its trailing comma. */
  function Listing(names: seq<string>, tail: string): string
    requires |names| >= 1
  {
    if |names| == 1 then INDENT + names[0] + tail
    else INDENT + names[0] + "," + Listing(names[1..], tail)
  }

  /** `headwears`: `parseList` of the headwear literal gives back exactly its eight paths. */
  function Headwears(): (r: seq<string>)
    ensures r == HEADWEAR_NAMES
  {
    HeadwearNamesWellFormed();
    ListingParses(HEADWEAR_NAMES, "\n");
    Text.ParseList(Listing(HEADWEAR_NAMES, "\n"))
  }

  /** `weapons`: the trailing comma leaves an empty last piece, which the filter drops. */
  function Weapons(): (r: seq<string>)
    ensures r == WEAPON_NAMES
  {
    WeaponNamesWellFormed();
    ListingParses(WEAPON_NAMES, ",\n");
    Text.ParseList(Listing(WEAPON_NAMES, ",\n"))
  }

  /** No headwear path is empty, has surrounding white space or holds a comma. */
  lemma HeadwearNamesWellFormed()
    ensures forall k :: 0 <= k < |HEADWEAR_NAMES| ==> Text.WellFormedItem(HEADWEAR_NAMES[k])
  {
  }

  /** No weapon path is empty, has surrounding white space or holds a comma. */
  lemma WeaponNamesWellFormed()
    ensures forall k :: 0 <= k < |WEAPON_NAMES| ==> Text.WellFormedItem(WEAPON_NAMES[k])
  {
  }

  /** `randomArrayItem(array)` for the draw `r`: the element at `floor(r * length)`, or `undefined`
    * (None) when that index is outside the array. */
  function RandomArrayItem<T>(items: seq<T>, r: real): (item: Option<T>)
    ensures item.Some? ==> item.value in items
  {
    var i := DrawIndex(r, |items|);
    if 0 <= i < |items| then Some(items[i]) else None
  }

  /** `Math.floor(r * length)`. */
  function DrawIndex(r: real, length: nat): int
  {
    (r * length as real).Floor
  }

  /** `40 + Math.random() * 40`. */
  function HandsSize(r: real): real
  {
    40.0 + r * 40.0
  }

  /** `2 + Math.round(Math.random() * 8) * 0.5`. */
  function OutlineThickness(r: real): real
  {
    2.0 + Round(r * 8.0) as real * 0.5
  }

  /** `Math.random() > 0.75`. */
  function OutlineEnabled(r: real): bool
  {
    r > 0.75
  }

  /** The draws `randomize` makes, in order, apart from the two random colours. */
  datatype Draws = Draws(hands: real, headwear: real, weapon: real, outline: real, thickness: real)

  /** What `randomize` assigns: the hand size, the two sprite paths looked up with `getTexture`,
    * the outline switch and the outline thickness. */
  datatype Settings = Settings(handsSize: real, headwear: Option<string>, weapon: Option<string>,
                               outline: bool, thickness: real)

  /** `randomize` for the draws `d`. */
  function Randomize(d: Draws): (s: Settings)
  {
    Settings(HandsSize(d.hands), RandomArrayItem(Headwears(), d.headwear),
             RandomArrayItem(Weapons(), d.weapon), OutlineEnabled(d.outline),
             OutlineThickness(d.thickness))
  }

  predicate IsDraw(r: real) { 0.0 <= r < 1.0 }

  // ---------------------------------------------------------------- lemmas

  /** A list written out as `Listing` parses back to its items: the indentation and the line
    * breaks are trimmed off, and a trailing comma only adds an empty piece that is dropped. */
  lemma {:induction false} ListingParses(names: seq<string>, tail: string)
    requires |names| >= 1
    requires forall k :: 0 <= k < |names| ==> Text.WellFormedItem(names[k])
    requires tail == "\n" || tail == ",\n"
    ensures Text.ParseList(Listing(names, tail)) == names
  {
    Text.ParseListIsItems(Listing(names, tail));
    ListingItems(names, tail);
  }

  lemma {:induction false} ListingItems(names: seq<string>, tail: string)
    requires |names| >= 1
    requires forall k :: 0 <= k < |names| ==> Text.WellFormedItem(names[k])
    requires tail == "\n" || tail == ",\n"
    ensures Text.Items(Listing(names, tail)) == names
  {
    var n := names[0];
    var line := INDENT + n;
    LineItems(n);
    if |names| == 1 {
      if tail == "\n" {
        assert Listing(names, tail) == line + "\n";
        Text.ItemsSpaceSuffix(line, "\n");
      } else {
        assert Listing(names, tail) == line + "," + "\n";
        Text.ItemsConcat(line, "\n");
        NewlineItems();
      }
    } else {
      var rest := Listing(names[1..], tail);
      ListingItems(names[1..], tail);
      assert Listing(names, tail) == line + "," + rest;
      Text.ItemsConcat(line, rest);
      assert names == [n] + names[1..];
    }
  }

  /** One indented line holding a well-formed item reads as that item. */
  lemma LineItems(n: string)
    requires Text.WellFormedItem(n)
    ensures Text.Items(INDENT + n) == [n]
  {
    var line := INDENT + n;
    assert Text.AllSpace(INDENT);
    Text.SpacesHaveNoComma(INDENT);
    assert ',' !in line;
    Text.ItemsOfPiece(line);
    Text.TrimPadded(INDENT, n, "");
    assert INDENT + n + "" == line;
    Text.TrimOfTrimmed(n);
  }

  /** A piece holding only a line break reads as nothing. */
  lemma NewlineItems()
    ensures Text.Items("\n") == []
  {
    Text.ItemsOfPiece("\n");
    Text.TrimPadded("\n", "", "");
    assert "\n" + "" + "" == "\n";
  }

  /** `randomArrayItem` never indexes outside a non-empty array: `floor(r * length)` lies in
    * [0, length) for a draw in [0, 1). An empty array gives `undefined`. */
  lemma RandomIndexInBounds<T>(items: seq<T>, r: real)
    requires IsDraw(r)
    ensures |items| > 0 ==> RandomArrayItem(items, r) == Some(items[DrawIndex(r, |items|)])
    ensures |items| == 0 ==> RandomArrayItem(items, r) == None
  {
    if |items| > 0 {
      DrawIndexBounds(r, |items|);
    }
  }

  /** Every element can be drawn: the draw k / length picks element k. */
  lemma EveryItemReachable<T>(items: seq<T>, k: nat)
    requires k < |items|
    ensures IsDraw(k as real / |items| as real)
    ensures RandomArrayItem(items, k as real / |items| as real) == Some(items[k])
  {
    var n := |items| as real;
    var r := k as real / n;
    assert r * n == k as real;
    assert DrawIndex(r, |items|) == k;
  }

  lemma DrawIndexBounds(r: real, length: nat)
    requires IsDraw(r) && length > 0
    ensures 0 <= DrawIndex(r, length) < length
  {
    var n := length as real;
    DrawScales(r, n);
    var x := r * n;
    assert x.Floor as real <= x < n;
  }

  lemma DrawScales(r: real, n: real)
    requires IsDraw(r) && n > 0.0
    ensures 0.0 <= r * n < n
  {
    assert n - r * n == (1.0 - r) * n;
  }

  /** The ranges of the values `randomize` assigns: the hand size in [40, 80), the outline
    * thickness one of 2, 2.5, ..., 6, and both sprites taken from their lists. */
  lemma RandomizeRanges(d: Draws)
    requires IsDraw(d.hands) && IsDraw(d.headwear) && IsDraw(d.weapon) && IsDraw(d.thickness)
    ensures var s := Randomize(d);
      40.0 <= s.handsSize < 80.0 &&
      s.headwear.Some? && s.headwear.value in Headwears() &&
      s.weapon.Some? && s.weapon.value in Weapons()
  {
    var s := Randomize(d);
    HandsSizeRange(d.hands);
    var hs := Headwears();
    DrawIsSome(hs, d.headwear);
    var ws := Weapons();
    DrawIsSome(ws, d.weapon);
  }

  lemma RandomizeThickness(d: Draws)
    requires IsDraw(d.thickness)
    ensures var k := Round(d.thickness * 8.0);
      0 <= k <= 8 && Randomize(d).thickness == 2.0 + k as real * 0.5
    ensures 2.0 <= Randomize(d).thickness <= 6.0
  {
    ThicknessRange(d.thickness);
  }

  lemma HandsSizeRange(r: real)
    requires IsDraw(r)
    ensures 40.0 <= HandsSize(r) < 80.0
  {
    DrawScales(r, 40.0);
  }

  lemma DrawIsSome<T>(items: seq<T>, r: real)
    requires IsDraw(r) && |items| > 0
    ensures RandomArrayItem(items, r).Some?
  {
    DrawIndexBounds(r, |items|);
  }

  lemma ThicknessRange(r: real)
    requires IsDraw(r)
    ensures var k := Round(r * 8.0);
      0 <= k <= 8 && OutlineThickness(r) == 2.0 + k as real * 0.5
    ensures 2.0 <= OutlineThickness(r) <= 6.0
  {
    DrawScales(r, 8.0);
    var x := r * 8.0;
    assert 0.0 <= x < 8.0;
    assert 0 <= Round(x) <= 8;
  }
}
