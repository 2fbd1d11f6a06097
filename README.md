# Puffs2D core, modelled in Dafny

Puffs2D is a browser avatar editor. A character (body, hands, headwear, weapon, outline, name) is
built from SVG sprites, shown on a canvas with a camera, and exported as a square PNG. This project
models the logic under that user interface and proves what it promises:

- **Coalescing schedulers.** `Texture.rasterize` (source/textures.ts), `Exporter2D.generateImage`
  (source/exporter.ts) and the older `refreshBodyImage` (character.js) each keep a "busy" flag and a
  "queued" flag. Each is modelled twice. A pure state machine with *request*, *run completes* and
  *run fails* events carries a ghost count of started runs, and the trace lemmas are proved about it.
  A class has one method per event, and each method is proved equal to a step of that machine. The
  awaited image decode or `toBlob` is the boundary between two events.
- **Bounding box and square crop** (source/exporter.ts). `getBoundingBox` is a scan of the RGBA byte sequence with
  the source's nested loops and early exits. It is proved tight and containing. The crop and
  padding arithmetic is proved to stay inside the canvas.
- **Outline generator** (source/outliner.ts). `generateOffsets` fills an offset table in a counted
  loop. `Outliner.process` appends abstract canvas commands (resize, clear, callback, stamp, fill)
  to a trace.
- **Motion steps.** `Entity2D.update` (source/physics.ts), `Camera2D` (source/camera.ts), the older
  `Camera` (camera.js), `Character.update` with its click and blink handlers (source/character.ts),
  and the older `Character.update` (character.js). JavaScript numbers are `real`. `Math.random`,
  `Date.now`, `cos`, `sin` and `sqrt` are parameters.
- **Keyboard** (source/system/keyboard.ts). The model keeps the held-key set and the per-key callback
  lists. Callbacks are opaque ids, and firing a callback appends `(id, key)` to a trace.
- **Codecs and views.** The CSS hex colour codec in its three variants (source/elements/color_picker.ts,
  source/elements.ts, elements.js), including a faithful `parseInt(_, 16)`. Also the slider, the
  dropdown, the comma-list parser and the randomizer's lists and ranges.

Modules follow the source files: `Js` holds JavaScript number helpers, `Wrappers` holds `Option`,
`Text` holds `trim` and `split(",")` and the comma-list parser, and `Hex` holds the shared hex codec.
The others are `Physics`, `Camera`, `LegacyCamera`, `Character`, `LegacyCharacter`, `Exporter`,
`Textures`, `Outliner`, `Keyboard`, `ColorPicker`, `Elements`, `LegacyElements`, `Slider`,
`Dropdown` and `Randomizer`.

Where two revisions of the source disagree (the root `.js` files against `source/*.ts`), each file is
modelled as written. Nothing is reconciled. For example, `snap` assigns `current.y` twice in both
cameras, so `current.x` keeps its value.

## Model

| member | source | states |
|---|---|---|
| Js.Round | source/elements/color_picker.ts:55 | `Math.round` gives the integer within one half of its argument, with halves going up. |
| Js.Ceil | source/outliner.ts:9 | `Math.ceil` gives the least integer not below its argument. |
| Js.NumMin | source/elements/slider.ts:45 | `Math.min` is NaN exactly when an argument is NaN. Otherwise its result is no larger than either argument and is one of them. |
| Js.NumMax | source/elements/slider.ts:45 | `Math.max` is NaN exactly when an argument is NaN. Otherwise its result is no smaller than either argument and is one of them. |
| Js.ClampFacts | source/elements/slider.ts:45 | `min(maximum, max(minimum, x))` is NaN exactly when an input is NaN. Otherwise it lies in [minimum, maximum] for ordered bounds, it is `x` when `x` is already inside, and it is `maximum` when the bounds are crossed. |
| Js.ClampIdempotent | source/elements/slider.ts:45 | Clamping a clamped value changes nothing. |
| Physics.Entity2D.constructor | source/physics.ts:3-10 | A new entity has the given rectangle, is at rest with no acceleration, and has friction 10. |
| Physics.Entity2D.Update | source/physics.ts:12-19 | The body after `update(dt)` is exactly one `Step`: each velocity takes acceleration, then drag on the accelerated velocity, and the position advances by the new velocity times `dt`. Acceleration, friction, `w` and `h` are unchanged. |
| Physics.VelocityStepFactors | source/physics.ts:13-16 | The new velocity is `(v + a·dt)·(1 − friction·dt)`, so drag acts on the accelerated velocity. `dt = 0` leaves the velocity unchanged. |
| Physics.DragDoesNotAccelerate | source/physics.ts:15-16 | With zero acceleration and `0 ≤ friction·dt ≤ 1`, the magnitude of a velocity component does not grow. |
| Physics.StepAtRest | source/physics.ts:12-19 | A step with `dt = 0` leaves the whole body unchanged, and so does any step of a body at rest with no acceleration. |
| Physics.VelocityStep | source/physics.ts:13-16 | One axis of the velocity update. `VelocityStepFactors` proves it is the accelerated velocity scaled by `1 − friction · dt` and leaves `v` at `dt = 0`. `DragDoesNotAccelerate` proves that with no acceleration and `0 ≤ friction · dt ≤ 1` the speed never grows. |
| Physics.Step | source/physics.ts:12-19 | One integration step. `StepAtRest` proves a zero `deltaTime` changes nothing, and that a body with no velocity and no acceleration stays where it is. |
| Camera.DecayShake | source/camera.ts:28-34 | After one update the shake power is 0 or at least 0.1. Zero stays zero. A non-negative power does not grow, and a positive power that survives is exactly 0.8 of its old value. |
| Camera.Camera2D.constructor | source/camera.ts:18-25 | Position, current, target, shake power and shake direction all start at 0. |
| Camera.Camera2D.Update | source/camera.ts:27-45 | The shake decays, and takes a fresh direction `random·2π` while it is nonzero. `current` moves by the fraction `2·dt` of its gap to `target`. The position is `current + panning·cursor/(−size/2) + (cos, sin)(direction)·power`. The target is unchanged. |
| Camera.Camera2D.Shake | source/camera.ts:47-49 | `shake(p)` adds `p` to the shake power and changes nothing else. |
| Camera.Camera2D.Snap | source/camera.ts:51-56 | `snap(x, y)` sets the target to (x, y) and the smoothed point to the as-written snap point: `current.y` becomes y and `current.x` is unchanged, because `current.y` is assigned twice. The position and the shake are unchanged. |
| Camera.Camera2D.Focus | source/camera.ts:58-63 | Each target axis becomes `min(max(target, p − d), p + d)` with `d = drag·size/2`, where drag is 0.1 horizontally and 0.25 vertically. Nothing else changes. |
| Camera.ShakeSettles | source/camera.ts:28-34 | From any starting power, `SettleSteps(p)` updates bring the shake to exactly 0, and it stays 0 after any number of further updates. |
| Camera.ZeroStaysZero | source/camera.ts:28 | A zero shake stays zero through any number of updates. |
| Camera.SettleBound | source/camera.ts:28-34 | A positive shake `p` settles within `floor(50·p) + 1` updates. |
| Camera.FloorDrops | source/camera.ts:30-33 | An update that keeps a shake alive strictly lowers `floor(50·power)`. This is the measure behind the settling bound. |
| Camera.SmoothBetween | source/camera.ts:36-37 | For `0 ≤ speed·dt ≤ 1`, smoothing keeps `current` between its old value and `target`. It lands on the target when the fraction is 1 and stays put when the fraction is 0. |
| Camera.FocusFacts | source/camera.ts:58-62 | After `focus`, the target is within `d` of the point. A target already within `d` is unchanged, and a target that moved lands exactly on the edge `p ± d`. |
| Camera.Smooth | source/camera.ts:36-37 | The smoothing step. `SmoothBetween` proves it lands between the current value and the target when `0 ≤ k ≤ 1`, and on the target when `k = 1`. |
| Camera.FocusAxis | source/camera.ts:58-62 | The focus clamp on one axis. `FocusFacts` proves it clamps the target into `[point − distance, point + distance]` and keeps a target already inside. |
| Camera.SnapCurrent | source/camera.ts:51-56 | The smoothed point `snap(x, y)` leaves as written: `current.x` unchanged and `current.y = y`. `SnapGlides` shows the consequence. |
| Camera.SnapCurrentIntended | source/camera.ts:51-56 | The smoothed point `snap(x, y)` evidently means to leave, which is the point itself. `SnapIntendedRests` proves the camera then rests there. |
| Camera.SnapGlides | source/camera.ts:51-56 | As written, after `snap(x, y)` from a smoothed x other than x, the smoothed x is not x, and one smoothing step with `k ≠ 1` still leaves it short of x. The camera glides instead of jumping. |
| Camera.SnapIntendedRests | source/camera.ts:51-56 | With the intended snap, the smoothed point equals the target on both axes, and any smoothing step keeps it there. |
| LegacyCamera.LegacyCamera.constructor | camera.js:3-26 | Position, current, target, shake and mouse all start at 0. |
| LegacyCamera.LegacyCamera.MouseMove | camera.js:28-32 | The mouse position becomes the client position relative to the canvas's bounding box. The shake, the smoothed point, the target and the position are unchanged. |
| LegacyCamera.LegacyCamera.Update | camera.js:35-53 | The shake decays as in `Camera2D`. `current` moves by the fraction `5·dt` of its gap to the target. The position adds panning 2 of the mouse over minus half the client size, plus the shake. The target and mouse are unchanged. |
| LegacyCamera.LegacyCamera.Shake | camera.js:55-57 | `shake(p)` adds `p` to the shake power and changes nothing else. |
| LegacyCamera.LegacyCamera.Snap | camera.js:59-64 | `snap(x, y)` sets the target to (x, y) and `currentY` to y, and leaves `currentX` unchanged, as in the newer camera. The position, the shake power and direction, and the mouse are unchanged. |
| LegacyCamera.LegacyCamera.Focus | camera.js:66-71 | Each target axis is pulled into the dead zone `±0.25·clientSize/2` around the point, so `FocusFacts` applies. The position, the smoothed point, the shake power and direction, and the mouse are unchanged. |
| Slider.AttributeOr | source/elements/slider.ts:33-36 | An absent attribute gives the default, and a present one gives its own number. |
| Slider.SliderElement.constructor | source/elements/slider.ts:11-21 | The fields start at value 0, minimum 0, maximum 100 and step 1, and no event has been dispatched. |
| Slider.SliderElement.SetValue | source/elements/slider.ts:44-55 | The argument is clamped into [minimum, maximum]. A clamped value that is `===` the current value changes nothing and dispatches nothing. Otherwise the value and its "value" attribute become the clamped value, and exactly one "input" event is dispatched. |
| Slider.SliderElement.AttributeChangedCallback | source/elements/slider.ts:32-38 | Minimum, maximum and step are read from their attributes, with defaults 0, 100 and 1. The value is then set through the setter from its attribute, defaulting to the new minimum. |
| Slider.SliderElement.UpdateHandle | source/elements/slider.ts:85-89 | The value `minimum + ((clientX − left)/width)·(maximum − minimum)` goes through the setter: if its clamp equals the current value nothing changes, and otherwise the value and the "value" attribute become the clamp and one "input" is dispatched. The bounds, the step and their attributes are unchanged. |
| Slider.SliderElement.HandleClick | source/elements/slider.ts:67-83 | The handle follows the pointer as in `updateHandle`, including the written "value" attribute, and then one "change" event is dispatched. The bounds, the step and their attributes are unchanged. |
| Slider.SetterStable | source/elements/slider.ts:45-48 | The setter stores a value in [minimum, maximum] for ordered bounds. Assigning the stored value again changes nothing. |
| Slider.NaNAlwaysChanges | source/elements/slider.ts:45-48 | A NaN assignment always passes the `===` guard, because NaN is not equal to itself. |
| Slider.HandleIsLinear | source/elements/slider.ts:85-88 | The left edge of the track gives the minimum and the right edge the maximum. A fraction in [0, 1] lands inside the bounds. A pointer left or right of the track is clamped to the minimum or the maximum. |
| Slider.HandleTarget | source/elements/slider.ts:85-88 | The value `updateHandle` assigns. `HandleIsLinear` proves it is the minimum at the left edge and the maximum at the right edge. Within the track the setter's clamp keeps it; beyond either edge the clamp gives that edge's bound. |
| Dropdown.DropdownElement.constructor | source/elements/dropdown.ts:9-10 | A new dropdown has no options and an empty value. It satisfies the invariant that `_value` is "" or an option. |
| Dropdown.DropdownElement.Value | source/elements/dropdown.ts:12-14 | The value read is "" or one of the options. |
| Dropdown.DropdownElement.SetValue | source/elements/dropdown.ts:16-28 | Setting the current value, or a value that is not an option, changes nothing and dispatches nothing. An accepted value becomes `_value` and the button text, and exactly one "change" event is dispatched. The invariant is preserved. |
| Dropdown.DropdownElement.ItemClicked | source/elements/dropdown.ts:47-50 | Clicking the item of option `k` makes that option the value, and dispatches "change" unless it already was the value. The list is hidden afterwards. |
| Dropdown.DropdownElement.ButtonClicked | source/elements/dropdown.ts:55-58 | A click on the button toggles the list between shown and hidden. |
| Dropdown.DropdownElement.DocumentClicked | source/elements/dropdown.ts:60-62 | A click that reaches the document hides the list. |
| Dropdown.DropdownElement.ConnectedCallback | source/elements/dropdown.ts:30-66 | The options become the parsed comma list of the text content, one list item per option in order. Then the "value" attribute goes through the setter: an absent attribute changes nothing, and an accepted one dispatches one "change". |
| Dropdown.DropdownElement.Connect | source/elements/dropdown.ts:43-66 | The options are installed and the items built. The "value" attribute then goes through the setter, with the same three outcomes as above. |
| Dropdown.DropdownElement.BuildItems | source/elements/dropdown.ts:43-53 | The loop appends exactly one item per option, in the options' order, and changes nothing else. |
| Dropdown.EmptyIsNoOption | source/elements/dropdown.ts:31-35 | The empty string is never a parsed option, so a `_value` of "" always means that nothing is chosen. |
| Outliner.StepCount | source/outliner.ts:8-9 | The number of offsets is at least 8, at least `ceil(2π·r·0.1)`, and equal to one of the two. |
| Outliner.Offsets | source/outliner.ts:11-18 | `generateOffsets(r)` returns exactly `StepCount(r)` offsets. The i-th is at angle `i·2π/stepCount` and radius `r`. |
| Outliner.Stamps | source/outliner.ts:53-55 | One destination stamp per offset, in the offsets' order, at that offset's angle and radius. |
| Outliner.GenerateOffsets | source/outliner.ts:4-19 | The counted loop pushing one offset per step returns exactly `Offsets(lineWidth)`. |
| Outliner.Canvas.constructor | source/outliner.ts:26-28 | A scratch canvas of the given size, with no operations yet. |
| Outliner.Outliner.constructor | source/outliner.ts:25-31 | The outliner owns a fresh 1000 by 1000 scratch canvas. |
| Outliner.Outliner.Process | source/outliner.ts:33-68 | The same canvas object is returned on every call, resized to exactly (width, height). Exactly the operations of the trace are appended, and the trace depends only on the arguments. |
| Outliner.StampAll | source/outliner.ts:53-55 | The `for…of` loop over the offsets issues exactly `Stamps(offsets)`. |
| Outliner.StepCountMonotone | source/outliner.ts:8-9 | A thicker outline never uses fewer offsets. |
| Outliner.CeilMonotone | source/outliner.ts:9 | `Math.ceil` is monotone. This is the step behind `StepCountMonotone`. |
| Outliner.AnglesSpanCircle | source/outliner.ts:11-12 | The angles start at 0, grow by exactly `2π/n` from one offset to the next, and stay below `2π`. |
| Outliner.ThinOutline | source/outliner.ts:34-47 | Below thickness 0.1 the trace is the reset, the clear, and one callback between save and restore. There is no stamp, no fill and no change of compositing mode. |
| Outliner.ThickOutline | source/outliner.ts:34-65 | At thickness 0.1 and above the trace has `stepCount + 16` operations. In order they are: the reset and clear, the callback, the switch to destination-over, the `stepCount` stamps at radius `thickness`, the switch to source-in, a fill of the whole canvas in the colour, and the callback again. |
| Outliner.ThickOutlineCallbacks | source/outliner.ts:40-65 | At thickness 0.1 and above the callback runs exactly twice, once before the stamps and once as the last drawing. |
| Outliner.Angle | source/outliner.ts:11-12 | The angle of offset `index`. `AnglesSpanCircle` proves the angles start at 0 and stay below a full turn. |
| Outliner.ProcessTrace | source/outliner.ts:33-68 | The drawing operations `process` issues. `ThinOutline`, `ThickOutline` and `ThickOutlineCallbacks` state the sequence for both thickness cases. |
| Randomizer.Headwears | source/randomizer.ts:19-28 | `parseList` of the headwear literal gives exactly its eight paths, the first being "headwear/no_headwear.svg". |
| Randomizer.Weapons | source/randomizer.ts:30-37 | `parseList` of the weapon literal gives exactly its six paths: the trailing comma adds no empty entry. |
| Randomizer.HeadwearNamesWellFormed | source/randomizer.ts:19-28 | Every headwear path is non-empty, trimmed and free of commas, so it survives `parseList` unchanged. |
| Randomizer.WeaponNamesWellFormed | source/randomizer.ts:30-37 | Every weapon path is non-empty, trimmed and free of commas. |
| Randomizer.ListingParses | source/randomizer.ts:11-17 | A list of well-formed items written one per indented line, with or without a trailing comma, parses back to exactly those items in order. |
| Randomizer.ListingItems | source/randomizer.ts:11-17 | The split, trim and filter steps of `parseList` give back the listed items, before the outer trim is accounted for. |
| Randomizer.LineItems | source/randomizer.ts:20-27 | One indented line holding a well-formed item reads as that single item. |
| Randomizer.NewlineItems | source/randomizer.ts:37 | The piece after a trailing comma holds only a line break and reads as nothing. |
| Randomizer.RandomArrayItem | source/randomizer.ts:39-42 | Any element `randomArrayItem` returns is a member of the array. An index outside the array gives `undefined`. |
| Randomizer.RandomIndexInBounds | source/randomizer.ts:39-42 | For a draw in [0, 1), a non-empty array is indexed at `floor(r·length)`, which lies in [0, length). An empty array gives `undefined`. |
| Randomizer.EveryItemReachable | source/randomizer.ts:39-42 | Every element can be drawn: the draw `k/length` is in [0, 1) and picks element `k`. |
| Randomizer.DrawIndexBounds | source/randomizer.ts:40 | `floor(r·length)` lies in [0, length) for a draw in [0, 1) and a non-empty array. |
| Randomizer.DrawIsSome | source/randomizer.ts:40 | A draw in [0, 1) from a non-empty array always yields an element. |
| Randomizer.RandomizeRanges | source/randomizer.ts:69-90 | For draws in [0, 1), the hand size lies in [40, 80), and the headwear and weapon are both found and both taken from their lists. |
| Randomizer.RandomizeThickness | source/randomizer.ts:86 | The outline thickness `randomize` assigns is `2 + k·0.5` for an integer `k` in [0, 8], so it is one of 2, 2.5, …, 6. |
| Randomizer.HandsSizeRange | source/randomizer.ts:74 | `40 + r·40` lies in [40, 80) for a draw in [0, 1). |
| Randomizer.ThicknessRange | source/randomizer.ts:86 | `2 + round(r·8)·0.5` is `2 + k·0.5` with `k` in [0, 8]. |
| Randomizer.DrawIndex | source/randomizer.ts:40 | `Math.floor(Math.random() * length)`. `DrawIndexBounds` proves it is a valid index for a draw in [0, 1). |
| Randomizer.HandsSize | source/randomizer.ts:74 | The random hand size. `HandsSizeRange` proves it lies in [40, 80). |
| Randomizer.OutlineEnabled | source/randomizer.ts:83 | The outline switch is on exactly when the draw exceeds 0.75. `Randomize` uses it for the outline setting. |
| Randomizer.OutlineThickness | source/randomizer.ts:86 | The random outline thickness. `ThicknessRange` proves it lies in [2, 6] in steps of 0.5. |
| Randomizer.Randomize | source/randomizer.ts:69-90 | What `randomize` assigns. `RandomizeRanges` and `RandomizeThickness` prove each setting lies in its range and both sprites are found. |
| Keyboard.Calls | source/system/keyboard.ts:20 | `forEach(callback => callback(code))` makes one call per registered callback, in registration order, each with the code. |
| Keyboard.CallEach | source/system/keyboard.ts:18-21 | The `forEach` loop fires exactly `Calls(ids, key)`. |
| Keyboard.Add | source/system/keyboard.ts:16 | `keys.add(code)` holds exactly the old keys plus the code and keeps the set free of duplicates. A code already held leaves the sequence unchanged, and a new one is appended last. |
| Keyboard.Remove | source/system/keyboard.ts:29 | `keys.delete(code)` holds exactly the old keys other than the code, stays free of duplicates and does not grow. |
| Keyboard.AnyHeld | source/system/keyboard.ts:57 | `some(key => keys.has(key))` is true exactly when some listed key is held. |
| Keyboard.Repeat | source/system/keyboard.ts:68 | `n` pushes of one callback: `n` copies of its id. |
| Keyboard.ReleaseEach | source/system/keyboard.ts:46-51 | The `for…of` loop of `clearKeys` fires exactly the release calls of every held key, key by key in the order the keys were pressed. |
| Keyboard.AddToEach | source/system/keyboard.ts:61-69 | The `forEach` over the parsed keys leaves the callback map equal to `Register(m, keys, id)`. |
| Keyboard.Keyboard.constructor | source/system/keyboard.ts:2-4 | Nothing is held, no callback is registered and nothing has fired. |
| Keyboard.Keyboard.KeyDown | source/system/keyboard.ts:7-22 | A repeat, or an event the validator rejects, changes nothing and fires nothing. An accepted keydown adds the code to the held set and fires that code's press callbacks in registration order. The callback maps are unchanged. |
| Keyboard.Keyboard.KeyUp | source/system/keyboard.ts:24-35 | A keyup for a code that is not held changes nothing and fires nothing. For a held code, the code is removed and its release callbacks fire in order. |
| Keyboard.Keyboard.ClearKeys | source/system/keyboard.ts:45-54 | The release callbacks of every held key fire, and then nothing is held. |
| Keyboard.Keyboard.VisibilityChange | source/system/keyboard.ts:37-42 | The page becoming hidden runs `clearKeys`. Any other visibility change does nothing. |
| Keyboard.Keyboard.CheckKey | source/system/keyboard.ts:56-58 | `checkKey(list)` is true exactly when some key of the parsed comma list is held. |
| Keyboard.Keyboard.OnKeyPress | source/system/keyboard.ts:60-70 | The press map becomes `Register(old, parseKeys(list), id)`, and nothing else changes. |
| Keyboard.Keyboard.OnKeyRelease | source/system/keyboard.ts:72-82 | The release map becomes `Register(old, parseKeys(list), id)`, and nothing else changes. |
| Keyboard.RegisterKeys | source/system/keyboard.ts:60-82 | After registering, a key has a list exactly when it had one or is listed. An unlisted key's list is unchanged. |
| Keyboard.RegisterLookup | source/system/keyboard.ts:62-68 | Each key's list becomes its old list (empty when absent), followed by the callback once for each time the key is listed. |
| Keyboard.ReleaseAllMembers | source/system/keyboard.ts:45-51 | The call (id, key) is among those `clearKeys` fires exactly when the key is held and the id is one of its release callbacks. |
| Keyboard.RemoveUndoesAdd | source/system/keyboard.ts:16-34 | A keyup after a keydown of the same code leaves the held set as the keyup alone would. A code that was not held leaves the held set exactly as it was. |
| Keyboard.RemoveAbsent | source/system/keyboard.ts:29 | Deleting a code that is not in the set changes nothing. |
| Keyboard.RemoveSnoc | source/system/keyboard.ts:16-34 | Deleting a code just added at the end gives the same set as deleting it from the old set. |
| Keyboard.Lookup | source/system/keyboard.ts:47-48 | The callback list of a key, with a missing entry read as none. `RegisterLookup` and `ReleaseAllMembers` are stated through it. |
| Keyboard.Register | source/system/keyboard.ts:60-82 | The callback map after `onKeyPress`/`onKeyRelease`. `RegisterKeys` proves entries appear exactly for the given keys and other entries are kept. `RegisterLookup` proves each key's list grows by one copy of the callback per occurrence of the key. |
| Keyboard.ReleaseAll | source/system/keyboard.ts:45-51 | The release calls `clearKeys` makes. `ReleaseAllMembers` proves a call happens exactly for a held key and a callback registered for it. |
| Text.TrimStart | source/randomizer.ts:13 | The front half of `trim`: a suffix of the text that does not start with white space. |
| Text.TrimStartRemovesSpace | source/randomizer.ts:13 | What the front half of `trim` removes is all white space. |
| Text.TrimEnd | source/randomizer.ts:13 | The back half of `trim`: a prefix of the text that does not end with white space. |
| Text.TrimEndRemovesSpace | source/randomizer.ts:13 | What the back half of `trim` removes is all white space. |
| Text.Trim | source/randomizer.ts:13-15 | `trim` gives a text that is empty or white-space-free at both ends. |
| Text.TrimKeeps | source/randomizer.ts:15 | `trim` only removes characters, so a comma in a trimmed piece was in the piece. |
| Text.TrimIdempotent | source/randomizer.ts:13-15 | Trimming twice is trimming once. |
| Text.TrimPadded | source/randomizer.ts:15 | Padding a text with white space on either side does not change its trim. |
| Text.TrimOfTrimmed | source/randomizer.ts:15 | A text with no white space at either end is its own trim. |
| Text.Split | source/randomizer.ts:14 | `split(",")` gives at least one piece, and no piece holds a comma. |
| Text.JoinSplit | source/randomizer.ts:14 | Joining the pieces of `split(",")` with commas gives the text back. |
| Text.SplitJoin | source/randomizer.ts:14 | Splitting undoes joining pieces that hold no comma. |
| Text.SplitConcat | source/randomizer.ts:14 | Splitting distributes over a comma: the pieces of `a + "," + b` are those of `a` followed by those of `b`. |
| Text.SplitPiece | source/randomizer.ts:14 | A text without a comma splits into itself alone. |
| Text.TrimAll | source/randomizer.ts:15 | The `map(trim)` step keeps the length and trims every piece in place. |
| Text.TrimAllConcat | source/randomizer.ts:15 | The `map(trim)` step distributes over concatenation. |
| Text.NonEmpty | source/randomizer.ts:16 | The filter step keeps only non-empty pieces, all taken from its input, and never grows the list. |
| Text.NonEmptyConcat | source/randomizer.ts:16 | The filter distributes over concatenation, so order is kept. |
| Text.NonEmptyOfItems | source/randomizer.ts:16 | The filter keeps a list with no empty piece unchanged. |
| Text.ItemsConcat | source/randomizer.ts:14-16 | The items of two comma-separated parts are the items of each part, in order. |
| Text.ItemsOfPiece | source/randomizer.ts:14-16 | A part without a comma contributes its trimmed text, or nothing when the trim is empty. |
| Text.ItemsSpacePrefix | source/randomizer.ts:13-16 | White space in front of the list does not change its items. |
| Text.ItemsSpaceSuffix | source/randomizer.ts:13-16 | White space after the list does not change its items. |
| Text.ItemsOfTrimStart | source/randomizer.ts:13-16 | The front half of the outer trim does not change the items. |
| Text.ItemsOfTrimEnd | source/randomizer.ts:13-16 | The back half of the outer trim does not change the items. |
| Text.ParseListIsItems | source/randomizer.ts:11-17 | The outer `trim()` of the pipeline changes nothing, because trimming every piece already discards it. |
| Text.ParseListWellFormed | source/randomizer.ts:11-17 | Every item the comma-list parser returns is non-empty, trimmed and free of commas. The same pipeline is `parseKeys` (source/system/keyboard.ts:84-90) and the dropdown's option parsing (source/elements/dropdown.ts:31-35). |
| Text.ParseListJoin | source/randomizer.ts:11-17 | Round trip: parsing a comma-joined list of well-formed items gives back exactly those items, in order. |
| Text.Join | source/randomizer.ts:14 | `join(",")`, the inverse of the split. `JoinSplit` and `SplitJoin` prove the two undo each other. |
| Text.Items | source/randomizer.ts:14-16 | The trimmed, non-empty pieces of a string. `ItemsConcat` proves the items of `a + "," + b` are those of `a` followed by those of `b`. `ItemsOfPiece` proves a comma-free piece gives its trimmed self, or nothing when it is blank. |
| Text.ParseList | source/randomizer.ts:11-17 | The comma-list parser. `ParseListWellFormed` proves every item it returns is trimmed, non-empty and comma-free. `ParseListJoin` proves a list of such items parses back from its join. |
| Hex.DigitFacts | source/elements/color_picker.ts:56 | The digit `toString(16)` writes for a value below 16 is a lowercase hex digit that reads back as that value. |
| Hex.DigitRun | source/elements/color_picker.ts:46-49 | The digit step of `parseInt`: the length of the longest run of hex digits at the start of the text. |
| Hex.RemoveFirst | source/elements/color_picker.ts:35 | `replace("#", "")` removes one character when there is a "#" and none otherwise, and adds no character. |
| Hex.Expand | source/elements/color_picker.ts:42 | The doubling of the short forms gives a text twice as long, with each character written twice in place. |
| Hex.Hex2RGBA | source/elements/color_picker.ts:34-51 | The decoder returns `undefined` exactly when the text, after the first "#" is removed and the rest trimmed, does not have 3, 4, 6 or 8 characters. `RGBA_MODEL.fromHex` of source/elements.ts:64-81 and the string case of elements.js:35-59 are this same function. |
| Hex.Decode | source/elements/color_picker.ts:37-50 | After stripping, texts of invalid length give `undefined`. Texts of length 3 or 4 are doubled, each component is `parseInt` of its pair, and alpha is read only from an 8-digit text. |
| Hex.ToString16 | source/elements/color_picker.ts:56 | `n.toString(16)` has one digit exactly when `n < 16`. |
| Hex.PadStart | source/elements/color_picker.ts:56 | `padStart(width, c)` gives at least `width` characters, and more only when the text was already longer. |
| Hex.Clamp255 | source/elements/color_picker.ts:55 | `min(max(n, 0), 255)` lies in [0, 255] and leaves a value already in range unchanged. |
| Hex.HexByteDigits | source/elements/color_picker.ts:56 | For a value in [0, 255], `toString(16).padStart(2, "0")` is exactly the high digit followed by the low digit. |
| Hex.EncodeComponentDigits | source/elements/color_picker.ts:55-56 | A finite component is written as the two digits of its rounded, clamped value. |
| Hex.EncodeComponentShape | source/elements/color_picker.ts:55-56 | A finite component is written as exactly two lowercase hex digits. |
| Hex.EncodeLength | source/elements/color_picker.ts:54-57 | Finite values are joined into exactly two characters per value. |
| Hex.EncodeDigits | source/elements/color_picker.ts:54-57 | The joined digits of finite values are all lowercase hex. |
| Hex.EncodeShape | source/elements/color_picker.ts:53-58 | `RGBorRGBA2Hex` of `n` finite values is "#" followed by `2·n` lowercase hex digits, so its length is `1 + 2·n`. |
| Hex.ParseRunShort | source/elements/color_picker.ts:46-49 | On texts of up to two characters, the digit step gives NaN with no leading digit, the first digit's value when only it is a digit, and `16·d0 + d1` for two digits. |
| Hex.TrimStartPair | source/elements/color_picker.ts:46-49 | Skipping the leading white space of a two-character text leaves the pair, the second character alone, or an empty text. |
| Hex.ParseSignedOne | source/elements/color_picker.ts:46-49 | A one-character text after the sign step reads as its digit or as NaN. |
| Hex.ParseSignedPair | source/elements/color_picker.ts:46-49 | The sign step on a pair: "-" negates and "+" is dropped before the one remaining character is read. Anything else goes to the prefix step unchanged. |
| Hex.ParseUnsignedPair | source/elements/color_picker.ts:46-49 | The prefix step on a pair: "0x" and "0X" read as NaN, because no digit follows the prefix. Any other pair is read by the digit step. |
| Hex.PairValueIsParseInt | source/elements/color_picker.ts:46-49 | The case-by-case reading of a pair, with white space, signs, the `0x` prefix and non-digits, is exactly the `parseInt(pair, 16)` algorithm. |
| Hex.ParseByte | source/elements/color_picker.ts:46-56 | The two digits written for a value in [0, 255] are read back by `parseInt` as that value. |
| Hex.RoundOfByte | source/elements/color_picker.ts:55 | A whole number in [0, 255] survives rounding and clamping unchanged. |
| Hex.ParseComponent | source/elements/color_picker.ts:46-56 | Every component the encoder writes for a whole number in [0, 255] is two characters, and `parseInt` reads it back as the same number. |
| Hex.DigitsAreTrimmed | source/elements/color_picker.ts:35 | A non-empty text of hex digits is its own trim. |
| Hex.StrippedOfDigits | source/elements/color_picker.ts:35 | After a leading "#", the decoder measures exactly the hex digits that follow. |
| Hex.DecodeDigits8 | source/elements/color_picker.ts:45-50 | Eight digits after a "#" decode pair by pair into red, green, blue and alpha. |
| Hex.DecodeDigits6 | source/elements/color_picker.ts:45-50 | Six digits after a "#" decode pair by pair, with alpha 255. |
| Hex.EncodeAllThree | source/elements/color_picker.ts:54-57 | Three values are written component after component. |
| Hex.EncodeFour | source/elements/color_picker.ts:53-58 | Four values are written as "#" followed by each component's two characters in order. |
| Hex.EncodeThree | source/elements/color_picker.ts:53-58 | Three values are written as "#" followed by each component's two characters in order. |
| Hex.RoundTripRGBA | source/elements/color_picker.ts:34-58 | Round trip: decoding the four-value encoding of whole components in [0, 255] gives those components back. |
| Hex.RoundTripRGB | source/elements/color_picker.ts:34-58 | Decoding the three-value encoding gives the colour back with alpha 255. |
| Hex.RoundTripRecord | source/elements/color_picker.ts:84-89 | Round trip through `RGBA_MODEL`: `fromHex(toHex(c)) = c` for whole components in [0, 255]. |
| Hex.EncodeRGBAShape | source/elements/color_picker.ts:87-89 | `RGBA_MODEL.toHex` of finite components is always nine characters: "#" and eight lowercase hex digits. |
| Hex.ShortFormDoubling | source/elements/color_picker.ts:41-43 | Short forms are read by doubling each digit, so "#abc" decodes like "#aabbcc" and "#abcd" like "#aabbccdd". |
| Hex.StrippedOfHashed | source/elements/color_picker.ts:35 | A text with no white space at either end, written after a "#", is exactly what the decoder measures. |
| Hex.DecodeExpanded | source/elements/color_picker.ts:41-43 | Doubling a 3- or 4-character text gives the same decoded colour. |
| Hex.AlphaDefault | source/elements/color_picker.ts:49 | The 3- and 6-digit forms always decode, with alpha 255. |
| Hex.AlphaOfShortForm | source/elements/color_picker.ts:41-49 | The 4-digit form carries its own alpha, read from its doubled fourth digit. |
| Hex.ParseInt16 | source/elements/color_picker.ts:46-49 | `parseInt(s, 16)`. `ParseRunShort`, `ParseSignedPair`, `ParseUnsignedPair` and `PairValueIsParseInt` state its value on the inputs the decoder gives it. |
| Hex.PairValue | source/elements/color_picker.ts:46-49 | `parseInt` on a two-character string, case by case. `PairValueIsParseInt` proves it equals `ParseInt16`. |
| Hex.Stripped | source/elements/color_picker.ts:35 | The text the decoder measures. `StrippedOfDigits` and `StrippedOfHashed` prove that it is the digits themselves for "#" followed by digits. |
| Hex.EncodeComponent | source/elements/color_picker.ts:55-56 | One encoded component. `EncodeComponentShape` and `EncodeComponentDigits` prove it is "NaN" or two lowercase hex digits of the rounded, clamped value. |
| Hex.Encode | source/elements/color_picker.ts:53-58 | `RGBorRGBA2Hex`. For numeric components, `EncodeShape`, `EncodeLength` and `EncodeDigits` prove it is "#" followed by two lowercase hex digits per component. |
| Hex.EncodeRGBA | source/elements/color_picker.ts:87-89 | The four-component encoding. For numeric components, `EncodeRGBAShape` proves it is "#" and eight lowercase hex digits. For byte values, `RoundTripRGBA` proves it decodes back to the colour. |
| ColorPicker.Components | source/elements/color_picker.ts:62-83 | The RGB model lays out three sliders and the RGBA model four, each from 0 to 255 in steps of 1. |
| ColorPicker.RgbFromHex | source/elements/color_picker.ts:67-70 | `RGB_MODEL.fromHex` throws a `TypeError` exactly when the colour has an invalid length, because the `!` does not guard at run time. Otherwise it gives the decoded red, green and blue, with alpha dropped. |
| ColorPicker.ModelOf | source/elements/color_picker.ts:122-127 | The "format" attribute "rgb" selects the RGB model, "rgba" the RGBA model, and anything else no model. |
| ColorPicker.Pushes | source/elements/color_picker.ts:131-133 | The setter's loop assigns each slider, in map order, the component its key reads in the state. |
| ColorPicker.ColorPickerElement.constructor | source/elements/color_picker.ts:104-109 | The colour starts as "#000000FF", the sliders are those the element was laid out with, and nothing has happened yet. |
| ColorPicker.ColorPickerElement.SetColor | source/elements/color_picker.ts:115-139 | Assigning the current colour does nothing. A new colour is stored, and the setter throws exactly when `Throws` says so, touching no slider. Otherwise the decoded components are pushed into the sliders, and "input" is dispatched once, last, only when connected. |
| ColorPicker.ColorPickerElement.PushAll | source/elements/color_picker.ts:131-133 | The loop over the slider map appends exactly `Pushes(controls, state)`. |
| ColorPicker.RgbDropsAlpha | source/elements/color_picker.ts:67-70 | On a decodable colour, the RGB model's state holds exactly the decoded red, green and blue. |
| ColorPicker.RgbaNeverThrows | source/elements/color_picker.ts:84-86 | `RGBA_MODEL.fromHex` never throws. It is `undefined` exactly when the length is invalid. |
| ColorPicker.RgbRoundTrip | source/elements/color_picker.ts:67-73 | Round trip through the RGB model for whole components in [0, 255]. |
| ColorPicker.RgbToHexShape | source/elements/color_picker.ts:71-73 | `RGB_MODEL.toHex` of finite components is seven characters: "#" and six lowercase hex digits. |
| ColorPicker.SetterPushesShape | source/elements/color_picker.ts:129-134 | The setter's slider part holds only slider assignments, one per slider when a state is decoded and none otherwise, so "input" is dispatched at most once. |
| ColorPicker.DecodableNeverThrows | source/elements/color_picker.ts:129-134 | A colour of valid length never makes the setter throw. |
| ColorPicker.UndecodableThrows | source/elements/color_picker.ts:129-134 | On a colour of invalid length, the RGB picker always throws, and the RGBA picker throws exactly when it has at least one slider. |
| ColorPicker.RgbToHex | source/elements/color_picker.ts:71-73 | `RGB_MODEL.toHex`. For numeric components, `RgbToHexShape` proves it writes "#" and six lowercase hex digits. For byte values, `RgbRoundTrip` proves `fromHex` gives the colour back. |
| ColorPicker.StateOf | source/elements/color_picker.ts:129-130 | `model.fromHex(color)` as a keyed state. `RgbDropsAlpha` proves the RGB model gives exactly the keys r, g, b for a decodable colour. `RgbaNeverThrows` proves the RGBA model never throws, and gives `undefined` exactly for an undecodable colour. |
| ColorPicker.Lookup | source/elements/color_picker.ts:132 | `state[key]`, with a missing key read as `undefined`. `SetterPushesShape` is stated through it. |
| ColorPicker.Throws | source/elements/color_picker.ts:129-134 | Whether the setter throws. `UndecodableThrows` proves that for an undecodable colour it throws exactly under the RGB model, or under RGBA with at least one slider. `DecodableNeverThrows` proves a decodable colour never throws. |
| ColorPicker.SetterPushes | source/elements/color_picker.ts:129-134 | The slider assignments the setter makes. `SetterPushesShape` proves they are all slider assignments: one per slider when a model is set and the colour decodes, and none otherwise. `Pushes` states each one's key and value. |
| Elements.Set | source/elements.ts:194 | `state[key] = value` replaces exactly the named component. |
| Elements.Notices | source/elements.ts:146-150 | The listener loop makes at most one external call per registered listener. |
| Elements.NoticesMembers | source/elements.ts:146-150 | Every call the loop makes is to a registered external listener, with the current colour. |
| Elements.NoticesCount | source/elements.ts:146-150 | With only external listeners, the loop calls each of them once, in registration order, with the colour. |
| Elements.NoticesStep | source/elements.ts:147-149 | One more listener adds its own call, or nothing for the picker's own listener, and records whether the picker's own listener has been passed. |
| Elements.InitialColor | source/elements.ts:143 | The colour starts as the `data-color` attribute, or "#000000FF" when it is absent. |
| Elements.PresetsOf | source/elements.ts:170-172 | Without a presets container or text there are no presets. Otherwise there is at least one preset, and the presets joined with commas give back the text, untrimmed. |
| Elements.ColorPicker.constructor | source/elements.ts:140-213 | After setup, the colour is the initial colour and the presets are the split text. With a sliders container, the picker's own listener is the only one, and the state is the decoded colour or opaque black, written into the sliders. Without one there is no listener. |
| Elements.ColorPicker.OnColorChange | source/elements.ts:161-168 | `onColorChange` appends the listener after those already registered. |
| Elements.ColorPicker.Trigger | source/elements.ts:146-150 | Every listener runs in order with the current colour. When the picker's own listener is registered, the state is the colour re-read, or the old state if the colour is undecodable, and it is written into the sliders. The external listeners are called in order. |
| Elements.ColorPicker.RunListeners | source/elements.ts:146-209 | The listener loop, given the colour's decoding, gives the same new state, slider values and calls as `Trigger`. |
| Elements.ColorPicker.SliderChanged | source/elements.ts:193-197 | A slider change replaces only its own component, re-encodes the whole state as the colour, and runs every listener. |
| Elements.ColorPicker.PresetClicked | source/elements.ts:178-181 | A preset click makes the colour the untrimmed preset text and runs every listener. |
| Elements.SyncIdempotent | source/elements.ts:200 | Re-reading a colour twice gives what re-reading it once gave. |
| Elements.SetOnlyTouchesKey | source/elements.ts:194 | A slider change leaves every other component as it was. |
| Elements.SyncAfterSliderIsIdentity | source/elements.ts:193-200 | When all components are whole numbers in [0, 255], the picker's own listener re-reads exactly the state the slider set. |
| Elements.NaNComponentKeepsState | source/elements.ts:193-200 | A NaN component is written as "NaN", the encoding is then undecodable, and the state is kept. |
| Elements.NaNEncodingLength | source/elements.ts:83-88 | With red NaN and the rest finite, the encoding measures nine characters after its "#", which is an invalid length. |
| Elements.FallbackIsBlack | source/elements.ts:192 | The fallback `fromHex("#000000ff")` decodes to opaque black. |
| Elements.InitialState | source/elements.ts:192 | The initial state is the decoded `data-color` when it decodes, and opaque black otherwise. |
| Elements.Sync | source/elements.ts:200 | `model.fromHex(color) ?? state`. `SyncIdempotent`, `SyncAfterSliderIsIdentity` and `NaNComponentKeepsState` state it. |
| LegacyElements.Hex2RGBA | elements.js:35-59 | `hex2RGBA` returns null for a value that is not a string. For a string it returns null exactly when the stripped length is not 3, 4, 6 or 8, and otherwise it is the shared decoder. |
| LegacyElements.Components | elements.js:117-127 | A colour's four components in slider order: red, green, blue, alpha. |
| LegacyElements.CallAll | elements.js:130-132 | The listener loop calls every listener once, in registration order, with the same colour. |
| LegacyElements.LegacyColorPicker.constructor | elements.js:76-115 | The closures start with the `data-color` value as the colour, the page's slider values, and no listener. |
| LegacyElements.LegacyColorPicker.UpdateSliders | elements.js:137-147 | `updateSliders` throws, before writing any slider, exactly when the colour does not decode. Otherwise every slider and label shows its decoded component. |
| LegacyElements.LegacyColorPicker.OnColorChange | elements.js:86-94 | `onColorChange(listener, trigger)` registers the listener last, and with `trigger` calls it once right away with the colour. |
| LegacyElements.LegacyColorPicker.NotifyAll | elements.js:130-132 | Every listener is called, in order, with the current colour. |
| LegacyElements.LegacyColorPicker.SliderInput | elements.js:120-133 | A slider input updates that slider's label, recomposes the colour from all four slider values, and notifies every listener. |
| LegacyElements.LegacyColorPicker.PresetClicked | elements.js:150-158 | A preset click makes the colour the button's `--color`. If it decodes, the sliders follow and every listener is told. Otherwise `updateSliders` throws and no listener is called. |
| LegacyElements.RGBA2HexIsEncodeRGBA | elements.js:61-70 | `RGBA2Hex` writes exactly what the four-component encoder of source/elements.ts writes. |
| LegacyElements.RoundTrip | elements.js:35-70 | Round trip: `hex2RGBA(RGBA2Hex(r, g, b, a))` returns `{r, g, b, a}` for whole components in [0, 255]. |
| LegacyElements.RGBA2HexShape | elements.js:61-70 | For finite values, the output is "#" followed by four clamped, rounded, two-digit lowercase components. |
| LegacyElements.RGBA2Hex | elements.js:61-70 | The older encoder. `RGBA2HexIsEncodeRGBA` proves it equals the newer four-component encoding, and `RoundTrip` proves it decodes back. |
| Textures.Requests | source/textures.ts:48-56 | A burst of `n` rasterize calls: exactly `n` requests. |
| Textures.Initial | source/textures.ts:27-32 | A new texture has no SVG and both flags clear, and the invariant holds. |
| Textures.StepPreservesInv | source/textures.ts:48-85 | Every event keeps the invariant. A decode is awaited only while `refreshing`, `refreshing` needs an SVG, and at most one conversion is in flight. |
| Textures.RunPreservesInv | source/textures.ts:48-85 | The invariant holds after any sequence of events, so at most one conversion is ever in flight. |
| Textures.RequestWhileRefreshing | source/textures.ts:49-56 | A `rasterize` call while `refreshing` only sets `refreshQueued` and starts nothing. A call with no SVG loaded throws and leaves both flags unchanged. |
| Textures.StartsOnlyWhenIdle | source/textures.ts:53-84 | A conversion starts only on a request while idle, or on the rerun of a queued request when a decode resolves. Each event starts at most one, and `refreshing` is cleared only when a decode resolves with nothing queued. |
| Textures.BurstGivesOneRun | source/textures.ts:53-84 | Any number of requests during one conversion produce exactly one trailing conversion, with `refreshQueued` cleared before it starts. When that one resolves with no new request, the texture is idle after exactly two conversions. |
| Textures.QuietRunSettles | source/textures.ts:80-84 | Without a request during the conversion, its resolved decode leaves the texture idle and starts nothing. |
| Textures.RequestsWhileRefreshing | source/textures.ts:53-56 | Any number of requests while `refreshing` collapse into the single queued flag. |
| Textures.FailureSticks | source/textures.ts:68-80 | A rejected decode leaves `refreshing` set with nothing awaited. |
| Textures.FailureIsPermanent | source/textures.ts:68-80 | After a rejection, whatever happens, `refreshing` stays set and no conversion starts, and any later request only sets `refreshQueued`. |
| Textures.QueuedStays | source/textures.ts:53-80 | Once the machine is stuck, a set `refreshQueued` is never cleared again. |
| Textures.Texture.constructor | source/textures.ts:27-32 | A new texture has no SVG, no image and both flags clear, matching the machine's initial state. |
| Textures.Texture.Rasterize | source/textures.ts:48-66 | The flags move exactly as the request step. With no SVG it throws. A conversion that starts awaits an image of `RESOLUTION` (4) times the natural width and height. The SVG, the size and the image are unchanged. |
| Textures.Texture.DecodeLoaded | source/textures.ts:68-84 | The flags move exactly as the resolve step. The image becomes the decoded element. A queued request reruns and awaits a new image of four times the size, and otherwise nothing is awaited. |
| Textures.Texture.DecodeFailed | source/textures.ts:68-80 | The flags move exactly as the reject step, and the texture is stuck. The image is unchanged and nothing is awaited. |
| Textures.Texture.Load | source/textures.ts:34-46 | A parsed document whose root is not `<svg>` throws and changes nothing: the flags, the document, the size, the image and the awaited image are kept. Otherwise the document, its width and its height are kept, and `rasterize` runs. While a conversion is already in flight, the awaited image element is kept. |
| Textures.Registry.constructor | source/textures.ts:101 | The registry starts empty. |
| Textures.Registry.GetTexture | source/textures.ts:114-116 | `getTexture` finds a texture exactly when its path is registered, and it is the texture registered under that path. |
| Textures.Registry.LoadTextures | source/textures.ts:103-112 | The registry is emptied, then the sprites are loaded in manifest order, each registered under its path once it has loaded and decoded. The first failure ends the loop. The registry then holds exactly the paths of the sprites before it. |
| Textures.Registry.LoadOne | source/textures.ts:107-110 | One iteration creates a new texture for the entry, loads it and awaits its decode. It succeeds exactly when the root is `<svg>` and the image decodes, and the texture is then registered for the entry's path. |
| Textures.PathsMembers | source/textures.ts:106-111 | A path is registered after a full load exactly when some manifest entry has it. |
| Textures.PathsSnoc | source/textures.ts:106-111 | One more iteration registers one more path. |
| Textures.RequestStep | source/textures.ts:48-56 | `rasterize()` on the texture machine: nothing without an SVG, a queued request during a conversion, and otherwise a new conversion. `RequestWhileRefreshing` and `StartsOnlyWhenIdle` state this. |
| Textures.LoadedStep | source/textures.ts:68-84 | The awaited decode resolving clears `refreshing` and reruns a queued request. `QuietRunSettles` and `BurstGivesOneRun` state the outcome. |
| Textures.FailedStep | source/textures.ts:68-80 | The awaited decode rejecting leaves `refreshing` set. `FailureSticks` and `FailureIsPermanent` prove that no later conversion starts. |
| Textures.Step | source/textures.ts:48-85 | One event of the texture machine. `StepPreservesInv` proves it keeps the machine's invariant. |
| Textures.Run | source/textures.ts:48-85 | A sequence of events of the texture machine. `RunPreservesInv`, `BurstGivesOneRun` and `QueuedStays` are stated about it. |
| Exporter.PixelIndex | source/exporter.ts:155-156 | The alpha byte `(y·width + x)·4 + 3` of every pixel inside the canvas lies inside the image data. |
| Exporter.GetBoundingBox | source/exporter.ts:145-181 | Every pixel with alpha > 0 lies inside the returned box. When there is one, the box is tight: its first and last rows and its first and last columns each hold a pixel with alpha > 0. With none, the box is (0, 0, width, height). The box stays inside the canvas. |
| Exporter.FirstScan | source/exporter.ts:152-162 | The first nested loop, with its early `break`, leaves `minX` at the leftmost column and `minY` at the top row holding an opaque pixel, or `width` and `height` when there is none. |
| Exporter.LastScan | source/exporter.ts:164-174 | The second nested loop leaves `maxX` at the rightmost column and `maxY` at the bottom row holding an opaque pixel. Both stay 0 when there is none. |
| Exporter.CropInside | source/exporter.ts:186-189 | The crop stays inside the render canvas: `cropX, cropY ≥ 0`, `cropX + cropW ≤ width` and `cropY + cropH ≤ height`. A box already inside is its own crop. |
| Exporter.SquareSize | source/exporter.ts:191 | `squareSize = max(cropW, cropH)`: at least each side and equal to one of them. |
| Exporter.FinalSizeBounds | source/exporter.ts:191-195 | With padding ≥ 0, `finalSize = squareSize + 2·round(squareSize·padding)` is never below `squareSize`, and both are positive for a non-empty crop. |
| Exporter.LayoutCentred | source/exporter.ts:204-213 | The crop is drawn from its own rectangle, scaled by `exportW/finalSize` and centred on the export canvas. With padding ≥ 0 it is no wider and no taller than the export width. |
| Exporter.ScaledBelow | source/exporter.ts:204-212 | A side no longer than the final size, scaled by `exportW/finalSize`, fits the export width. |
| Exporter.CreateSquareCroppedCanvas | source/exporter.ts:183-214 | The bounding box of the 1024 by 1024 render canvas contains every opaque pixel, lies inside the canvas and is non-empty. The draw is laid out from its crop, and it exists whenever the padding and export width are non-negative. |
| Exporter.FinishFrom | source/exporter.ts:87-136 | The loop, entered before pass `k`, runs at least that pass. |
| Exporter.Exporter2D.constructor | source/exporter.ts:80-88 | A new exporter is neither processing nor queued. |
| Exporter.Exporter2D.GenerateImage | source/exporter.ts:80-137 | A call while `processing` only sets `queued` and runs nothing. Otherwise the loop runs while `queued`, clearing it as each pass starts. It ends with the passes, the `processing` flag and the `queued` flag that the pass records determine. |
| Exporter.RunsBounds | source/exporter.ts:87-88 | A call runs at least one pass and at most one more pass than there are recorded waits. |
| Exporter.OnlyRequestsContinue | source/exporter.ts:87-133 | Every pass but the last got its blob and saw at least one request. A new pass starts only when a request arrived during the previous one. |
| Exporter.LastPass | source/exporter.ts:87-136 | Either the last pass saw no request and `processing` is cleared with nothing queued, or its blob was rejected, so `processing` stays true and `queued` records whether a request came. |
| Exporter.BurstIsOneRequest | source/exporter.ts:81-88 | However many requests arrive during a pass, they cause exactly one more pass: only whether there was one matters. |
| Exporter.Crop | source/exporter.ts:186-189 | The crop of the bounding box. `CropInside` proves it lies inside the render canvas and is the box itself when the box already fits. |
| Exporter.FinalSize | source/exporter.ts:191-195 | The padded square size. For a non-empty crop and non-negative padding, `FinalSizeBounds` proves it is at least the square size, which is at least 1. |
| Exporter.Layout | source/exporter.ts:204-213 | Where the crop lands on the export canvas. For a non-empty crop and non-negative padding, `LayoutCentred` proves a draw exists. It is centred on both axes, takes the whole crop as its source, and its drawn sizes lie in [0, exportW]. |
| Character.Typing | source/character.ts:56-69 | A key press belongs to the focused field exactly when the focus is an HTML element that is a text input, a textarea or editable content. Focus outside HTML elements never blocks the press. |
| Character.Axis | source/character.ts:168-169 | The axis from two opposing keys lies in {-1, 0, 1}. It is 0 exactly when both keys or neither are held, and 1 exactly when only the positive key is held. |
| Character.StateOf | source/character.ts:181-182 | The character runs exactly when the sum of the absolute velocity components exceeds 2. Otherwise it is idle, with no hysteresis. |
| Character.Character.constructor | source/character.ts:47-131 | A new character stands at the origin at the character size with no keys held. It is idle, faces left and has an empty name. The outline is white with the slider's thickness, every scale is 1, the swing is at rest at angle 0 and no blink is running. |
| Character.Character.KeyDown | source/character.ts:55-72 | While the focus is in a text field the pressed-key record is unchanged. Otherwise the key is recorded as held. |
| Character.Character.KeyUp | source/character.ts:74-76 | Releasing a key records it as not held, whatever the focus. |
| Character.Character.NameInput | source/character.ts:79-82 | The character's name becomes the name field's value. |
| Character.Character.OutlineColorInput | source/character.ts:100-103 | The outline colour becomes the outline picker's colour. |
| Character.Character.OutlineThicknessInput | source/character.ts:107-111 | The outline thickness becomes the slider's value. |
| Character.Character.Update | source/character.ts:162-205 | The body takes one physics step after its acceleration is set to the key thrust; its size is kept. The state is read off the new velocity and the wobble follows the clock. The swing takes one spring step. The facing rule runs on the cursor's distance from the new position, with a dead zone of an eighth of the body width: the scale eases towards 1 and is bumped by 0.05 exactly when the direction flips. |
| Character.Character.Animate | source/character.ts:176-204 | Given the new velocity and the cursor distance, the state, wobble, swing, direction and scale are as Update states. |
| Character.Character.Steer | source/character.ts:163-173 | The body's acceleration becomes the thrust of the held direction keys. Every other part of the body's state is unchanged. |
| Character.Character.UpdateSwing | source/character.ts:187-192 | The swing angle, target and velocity take one step of the damped spring. |
| Character.Character.UpdateFacing | source/character.ts:194-204 | Inside the dead zone the direction is kept. Outside it the character faces the cursor's side, and the scale is bumped by 0.05 when that is a change of direction. |
| Character.Character.Click | source/character.ts:116-124 | A click toggles the swing target: 120 becomes 0 and any other target becomes 120. The camera's shake power grows by 5. Its target, smoothed point, position and shake direction are unchanged. |
| Character.Character.AnimateBlink | source/character.ts:140-142 | A blink starts at the given time and lasts between 100 and 300 milliseconds. |
| Character.Character.BlinkFrame | source/character.ts:144-157 | Once the elapsed time passes the duration, the eyes reopen fully and the blink ends. Until then, the eye scale follows the blink curve at the elapsed time. |
| Character.ScheduleBlink | source/character.ts:133-138 | The next blink is due between 2 and 5 seconds later. |
| Character.AccelerationMagnitude | source/character.ts:168-173 | Diagonal movement is not faster. When `diagonal² = 1/2`, the thrust's squared magnitude is the squared speed whenever some axis is active, and 0 when none is. |
| Character.EaseTowardsOne | source/character.ts:176-177 | Each update shrinks the scale's distance from 1 by the factor 0.9. |
| Character.FacingFacts | source/character.ts:194-204 | Inside the dead zone facing changes nothing. Outside it the direction is that of the cursor's side. The scale bump happens exactly when the direction changes. |
| Character.BlinkCurve | source/character.ts:152-154 | While a blink runs the eye scale stays in [0, 1]. It is 1 at the start and end of the blink and 0 at its midpoint. |
| Character.SwingPulls | source/character.ts:187-192 | From rest, one step gives the swing velocity 6.5% of the gap to the target. The angle moves towards the target without passing it. A swing resting on its target drops the target to 0. |
| Character.SwingTargetReset | source/character.ts:190-192 | The swing target changes only when the new velocity is below the rest threshold, and then it becomes 0. At or above the threshold it is kept. |
| Character.LabelFacts | source/character.ts:390-392 | An empty name draws no label. A name of up to 20 characters is drawn whole. A longer one is cut to its first 19 characters plus an ellipsis, 20 characters in all. |
| Character.Horizontal | source/character.ts:163-168 | The horizontal input axis: +1 for right (ArrowRight or KeyD), −1 for left (ArrowLeft or KeyA), 0 for both or neither, as `Axis` states. `AccelerationMagnitude` uses it. |
| Character.Vertical | source/character.ts:163-169 | The vertical input axis: +1 for down (ArrowDown or KeyS), −1 for up (ArrowUp or KeyW), 0 for both or neither, as `Axis` states. |
| Character.Diagonal | source/character.ts:170 | The diagonal factor is the given `1/√2` exactly when both axes are nonzero, and 1 otherwise. It feeds `AccelerationMagnitude`. |
| Character.Thrust | source/character.ts:172-173 | The input acceleration `speed · axis · diagonal` on each axis. For a diagonal factor whose square is 1/2, `AccelerationMagnitude` proves the squared length of this acceleration is `speed²` when an arrow or WASD key acts and 0 otherwise. |
| Character.Ease | source/character.ts:176-177 | The scale easing. `EaseTowardsOne` proves it moves the scale a tenth of the way towards 1 without crossing it. |
| Character.SwingStep | source/character.ts:187-192 | One update of the swing spring. `SwingPulls` proves that from rest the swing moves towards its target without passing it, and that at its target it stays with the target reset to 0. `SwingTargetReset` proves the target changes only to 0, only when the velocity falls below the rest threshold. |
| Character.Face | source/character.ts:194-204 | The facing rule. `FacingFacts` proves that inside the dead zone nothing changes, and that outside it the direction follows the sign of the distance and the scale bump happens exactly on a change. |
| Character.EyesScale | source/character.ts:152-154 | The blink's eye scale. `BlinkCurve` proves it stays within [0, 1] during the blink, is 1 at the start and the end, and is 0 halfway. |
| Character.Label | source/character.ts:390-392 | The label text: none for the empty name, the name itself up to 20 characters, and otherwise its first 19 characters and "…". `LabelFacts` proves this. |
| LegacyCharacter.DeltaTime | character.js:116-118 | A numeric, non-NaN `deltaTime` is used as it is. A non-number or NaN counts as no elapsed time. |
| LegacyCharacter.StartRefresh | character.js:277-279 | Starting a refresh sets the loading flag and suspends one conversion. That conversion carries the colour argument and serializes the body's current fill. The started-conversion count grows by one. The fill, the image and the queue are untouched. |
| LegacyCharacter.ColorChange | character.js:100-109 | A colour change always repaints the body path. While a conversion is loading it only replaces the queued colour. Otherwise it starts a refresh with that colour. |
| LegacyCharacter.Converted | character.js:279-286 | When a conversion resolves, the image becomes what that conversion serialized and the flag is cleared. A queued colour that differs from the call's argument is dequeued and refreshed. A queued colour equal to the argument stays queued and nothing starts. |
| LegacyCharacter.StepPreservesInv | character.js:277-287 | Every event keeps "a conversion is in flight only while the loading flag is set". |
| LegacyCharacter.RejectionSticks | character.js:22-24 | After a rejected conversion the flag stays set for good. From then on no conversion starts and the image never changes, whatever colour changes follow. |
| LegacyCharacter.StaleQueueShowsOldColour | character.js:277-287 | A concrete sequence of eight events from a settled white body ends with nothing loading. The body colour is "A" but the image shows "C". |
| LegacyCharacter.Picks | character.js:100 | A drag of the picker is one colour-change event per colour, in order. |
| LegacyCharacter.RunAppend | character.js:100-109 | Running two event sequences one after the other is running their concatenation. |
| LegacyCharacter.PicksWhileLoading | character.js:104-105 | While a conversion is loading, any burst of colour changes leaves everything as it was except the fill and the queue. Both become the burst's last colour. |
| LegacyCharacter.BurstGivesOneRerun | character.js:282-286 | A burst during a conversion whose last colour differs from the converted one gives one more conversion after the resolve. That conversion is of the last colour, and the queue is empty when it starts. The image is the first conversion's. |
| LegacyCharacter.BurstBackToSameColour | character.js:282 | A burst that ends on the colour being converted starts nothing after the resolve. The flag is cleared and that colour stays queued. |
| LegacyCharacter.ConvertedFixed | character.js:282-286 | The corrected resolve always leaves the queue empty. |
| LegacyCharacter.FixedStepPreservesInv | character.js:277-287 | With the correction every event keeps the settled invariant. In it, a settled body shows its fill with nothing queued, and a conversion in flight serializes its own argument, which is the fill unless a newer colour is queued. |
| LegacyCharacter.FixedSettlesOnFill | character.js:277-287 | With the correction, after any event sequence the image shows the current body colour whenever nothing is loading. |
| LegacyCharacter.FixedAgrees | character.js:282-286 | The correction changes nothing unless the queued colour equals the conversion's argument. |
| LegacyCharacter.LegacyCharacter.constructor | character.js:31-86 | A new character is at the origin, 50 by 50, facing right, at rest. Its friction is 0.25, its speed 100 and its sight at the origin. No keys are held, the name is empty and the body settles on the given fill, as `load()` leaves it. |
| LegacyCharacter.LegacyCharacter.MouseMove | character.js:49-53 | The sight point becomes the pointer's position relative to the canvas's bounding box. |
| LegacyCharacter.LegacyCharacter.KeyDown | character.js:60-75 | A key press in a text input, a textarea or editable content is ignored. Any other press records the key as held. |
| LegacyCharacter.LegacyCharacter.KeyUp | character.js:77-79 | Releasing a key records it as not held. |
| LegacyCharacter.LegacyCharacter.NameInput | character.js:81-85 | The name becomes the name field's value. |
| LegacyCharacter.LegacyCharacter.Update | character.js:115-139 | One update adds `size·speed·axis·diagonal·dt` of thrust to each velocity and then applies size-scaled drag. The position moves by the new velocity times dt. The facing follows the horizontal input. `dt` is the coerced `deltaTime`. |
| LegacyCharacter.LegacyCharacter.Turn | character.js:129-131 | The facing becomes right for input 1 and left for input -1. It is kept for 0. |
| LegacyCharacter.LegacyCharacter.Integrate | character.js:133-138 | Each velocity takes the physics velocity step with friction scaled by the body's size. The position then advances by the new velocity. |
| LegacyCharacter.LegacyCharacter.RenderLabel | character.js:255-260 | The drawn label is the same as the newer character's: none for an empty name, and names longer than 20 characters cut to 19 plus an ellipsis. |
| LegacyCharacter.LegacyCharacter.OnColorChange | character.js:100-109 | The handler changes the body state exactly as the colour-change step. |
| LegacyCharacter.LegacyCharacter.RefreshBodyImage | character.js:277-279 | The start of the call changes the body state exactly as the refresh-start step. |
| LegacyCharacter.LegacyCharacter.ConversionLoaded | character.js:279-286 | A resolved conversion changes the body state exactly as the resolve step. |
| LegacyCharacter.LegacyCharacter.ConversionRejected | character.js:22-24 | A rejected conversion only drops the suspended call. The flag stays set. |
| LegacyCharacter.LegacyStepIsVelocityStep | character.js:133-136 | The older integration is the newer physics velocity step with acceleration `size·speed·axis·diagonal` and friction `size·friction`. |
| LegacyCharacter.FacingFacts | character.js:129-131 | Right input faces right and left input faces left. No horizontal input keeps the facing. |
| LegacyCharacter.RunningAgrees | character.js:148 | The older hand animation's running test is the newer character's running state. |
| LegacyCharacter.NoTimeNoMotion | character.js:116-118 | With a non-number or NaN `deltaTime`, the velocity step changes nothing. |
| LegacyCharacter.Rejected | character.js:22-24 | A rejected conversion. `RejectionSticks` proves that afterwards the loading flag stays set, nothing is pending, and the image never changes again, whatever events follow. |
| LegacyCharacter.Step | character.js:277-287 | One event of the body-colour machine: a pick, a resolved conversion or a rejected one. `StepPreservesInv` proves it keeps the machine's invariant. |
| LegacyCharacter.Run | character.js:100-109 | A sequence of body-colour events. `RunAppend`, `PicksWhileLoading`, `BurstGivesOneRerun` and `BurstBackToSameColour` are stated about it. |
| LegacyCharacter.Facing | character.js:129-131 | The older facing rule. `FacingFacts` proves a nonzero horizontal input sets the facing to its sign and no input keeps it. |
| LegacyCharacter.Push | character.js:133-136 | The older per-axis acceleration `size · speed · axis · diagonal`. `LegacyStepIsVelocityStep` proves the older step is the newer velocity step with this acceleration. |

## Left out

- Drawing and frame loops. `render`, `renderCharacter`, the hand and shadow drawing, `Canvas2D` and the vignette are canvas output and trigonometry. Only the name label's text and the older hand animation's running test are modelled.
- Timers and animation frames. `setTimeout`, `requestAnimationFrame` and the exporter's final frame wait are the boundaries between modelled events. The callbacks they schedule are separate methods (`Character.Character.AnimateBlink`, `Character.Character.BlinkFrame`).
- Math and time primitives. `Math.random`, `Date.now`, `performance.now`, `Math.cos`, `Math.sin` and `1 / Math.sqrt(2)` are parameters. The shake direction, and the wobble that follows the clock, are stated as functions of those parameters.
- IEEE-754 arithmetic. JavaScript numbers are exact reals, so rounding error, overflow, infinities and -0 are not modelled. NaN is modelled only where the source produces or tests it: `parseInt`, the slider setter and `deltaTime` in character.js.
- Foreign calls. `fetch`, `DOMParser`, `XMLSerializer`, `Blob`, object URLs, image decoding, `toBlob` and `getImageData` enter only as inputs or as event outcomes.
- `randomColor` (source/randomizer.ts:44-67) is HSL-to-RGB floating-point arithmetic over random draws. `Randomizer.Randomize` covers only the values `randomize` assigns to the sliders, selectors and toggle.
- The body-colour listener of source/character.ts:89-98 calls `getSVG()`, which the `Texture` of source/textures.ts does not have. It is not part of this model. The textures' own rasterize scheduling is modelled in `Textures`.
- The exporter's pass body (source/exporter.ts:90-114). It covers the settings copied to the character, the render, the resolution string `"WxH"` parsed with `Number.parseInt`, and the export canvas fill. These are DOM and canvas work. The pass is seen only through the requests made during it and the blob's outcome. The preview URL and `downloadImage` are left out for the same reason.
- `Exporter.Layout`: a final size of 0 divides by zero in the source. The draw is then `None`, and that degenerate draw is not modelled.
- `Camera.Camera2D.Update`, `LegacyCamera.LegacyCamera.Update`: these require a nonzero canvas size. With a zero size, the panning divides by zero and JavaScript yields an infinity or NaN, which reals do not have.
- `Slider.SliderElement.UpdateHandle`, `Slider.SliderElement.HandleClick`: these require a nonzero track width, for the same division by zero.
- `project()` of both cameras (source/camera.ts:65-70, camera.js:73-78) is a canvas transform.
- `setupDropdowns` in source/elements.ts:1-29 and elements.js:1-27 is page wiring for the plain dropdown lists. It toggles `list.style.display` on a click of the select, and on an option click copies the option's text into `select.textContent` and the option's value into the hidden `input.value`. This wiring is left out. The custom `dropdown-element`'s own showing and hiding is modelled in `Dropdown.DropdownElement`.
- The dropdown's `button.id` (source/elements/dropdown.ts:65) copies the element's `input-id` attribute. This is DOM identity only.
- Text output of the value labels. The slider's value `<span>` (source/elements.ts:124, elements.js:121) and the color picker's output text (source/elements.ts:207) are display only. The values they show are the modelled state.
- `buildSliders` (source/elements.ts:104-133) creates slider DOM. Its "input" listener is modelled as `Elements.ColorPicker.SliderChanged`, with the number `Number(input.value)` as a parameter.
- The color picker's `connectedCallback` (source/elements/color_picker.ts:141-205) builds the template, the preset buttons and the slider elements. Its effect on the colour goes through the modelled `color` setter and slider pushes. The DOM construction is left out.
- Re-entrant event dispatch. When a slider's "input" listener runs synchronously inside the `color` setter, the nested call is not modelled. Only the setter's own pushes and events are recorded.
- Number parsing of attributes. `Number(attribute)` for the slider's attributes and for a texture's `width`/`height` is given as the resulting number.
- The browser's own sanitisation of range inputs (elements.js), including clamping and step snapping, is not modelled. Slider values are the numbers the script sees.
- `Keyboard`: a callback that itself changes the keyboard while it is being fired is not modelled. Callbacks are opaque ids.
- `LegacyCharacter.LegacyCharacter.KeyDown`: a null `document.activeElement` throws in character.js. The model has no null focus, and a focus that is not an HTML element records the key.
- character.js `load()`, apart from its colour handler. The SVG fetches and the first conversions are not modelled. The constructor model starts from the body settled on a given fill.
- Concurrency. Every handler runs to completion. Only the suspension points named above are modelled.
- `Outliner.Outliner.Process` records a stamp by its angle and radius. It does not record the evaluated cosine and sine offsets.
- `Character.AccelerationMagnitude` assumes `diagonal² = 1/2` instead of computing `1 / Math.sqrt(2)`. With IEEE arithmetic the identity holds only approximately.
- `Character.Label`, `Character.LabelFacts`, `LegacyCharacter.LegacyCharacter.RenderLabel`, `Hex.Hex2RGBA`, `Hex.Decode`: a string is a sequence of Unicode code points, whereas a JavaScript string's `length` and `substring` count UTF-16 code units. For text outside the Basic Multilingual Plane, the 20-unit label limit and the hex length test therefore count differently. A lone surrogate cannot be represented.
- `Elements.ColorPicker.constructor`: a `data-format` other than "rgba" makes `COLOR_MODELS[format]` undefined, and the first `model.fromHex` throws (source/elements.ts:189-192). The model fixes the format to RGBA, the only model that table holds.
- `Outliner.Canvas.constructor`, `Outliner.Outliner.constructor`: canvas widths and heights are reals, whereas an HTML canvas truncates an assigned size to an integer.
- `Textures.Registry.LoadTextures`: it does not state which texture a path listed twice in the manifest keeps. In the source the later one replaces the earlier, as `Map.set` does.

## Findings

| source | as written | input that shows it | evidently intended | confidence | as-written member | corrected member |
|---|---|---|---|---|---|---|
| character.js:282-286 | When a refresh finishes, a queued colour equal to that refresh's `color` argument is left in `queuedBodyColor`. A later rerun started from a different queued colour has an argument that is not the fill it serializes. A change back to the stale colour during that rerun then starts nothing. | From a body settled on "W": pick A, pick B, pick A, the conversion resolves, pick C, resolves, pick A, resolves. Nothing is loading at the end, yet the fill is "A" and the image shows "C". | Once the refreshes settle, the body image shows the current body colour. Clearing the queue whenever a conversion resolves gives that. | not executed | LegacyCharacter.StaleQueueShowsOldColour | LegacyCharacter.FixedSettlesOnFill |
| source/camera.ts:51-56 | `snap(x, y)` assigns `current.y` twice: first to `x`, then to `y`. `current.x` keeps its previous value (camera.js:60-61 has the same lines). | From the smoothed point (0, 0), `snap(10, 5)` leaves it at (0, 5). The next update with `k = 0.5` moves x to 5, not 10: the camera glides instead of jumping. | `current.x = x; current.y = y`: the smoothed point lands on (x, y) and rests there. | not executed | Camera.SnapGlides | Camera.SnapIntendedRests |

The class `LegacyCharacter.LegacyCharacter` models the code as written. `LegacyCharacter.ConvertedFixed` is the corrected resolve, and `LegacyCharacter.FixedAgrees` shows that it differs from the original only in the stale-queue case.

`Camera.Camera2D.Snap` and `LegacyCamera.LegacyCamera.Snap` model the code as written, through `Camera.SnapCurrent`. `Camera.SnapCurrentIntended` is the corrected snap point. Nothing else in the model depends on which one a snap leaves.
