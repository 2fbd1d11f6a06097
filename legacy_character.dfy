/**
 * The older character of character.js (`Character`). It moves by its own integration step (the
 * acceleration and the drag are both scaled by the body's size), faces right or left by the last
 * horizontal input, and re-renders its body image when the body colour changes, coalescing the
 * colour changes that arrive while a conversion is in flight.
 *
 * The body colour is the state `BodyColor`: the fill of the SVG body path, the colour the current
 * body image was serialized with, `bodyColorLoading`, `queuedBodyColor`, and the suspended
 * `refreshBodyImage(color)` call, if any, with its `color` argument and the fill it serialized.
 * The end of the awaited `convertSVG` is the event `Resolved` (the image loaded) or `Failed`
 * (the image failed to load, which ends the call with an exception).
 */
module LegacyCharacter {
  import opened Js
  import opened Wrappers
  import Physics
  import Character

  const WIDTH: real := 50.0
  const HEIGHT: real := 50.0
  const FRICTION: real := 0.25
  const SPEED: real := 100.0

  /** The `deltaTime` argument: a JavaScript number, or a value of another type. */
  datatype Argument = NumberArg(n: Number) | NotNumber

  /** `typeof deltaTime !== "number" || Number.isNaN(deltaTime) ? 0 : deltaTime`. */
  function DeltaTime(arg: Argument): (r: real)
    ensures arg.NumberArg? && arg.n.Num? ==> r == arg.n.value
    ensures arg.NotNumber? || arg.n.NaN? ==> r == 0.0
  {
    match arg
    case NumberArg(Num(v)) => v
    case _ => 0.0
  }

  /** The facing: true is right. Only a nonzero horizontal input changes it. */
  function Facing(direction: bool, horizontal: int): bool
  {
    if horizontal == 1 || horizontal == -1 then horizontal == 1 else direction
  }

  /** The acceleration of one axis: `size * speed * axis * diagonal`. */
  function Push(size: real, speed: real, axis: int, diagonal: real): real
  {
    size * speed * axis as real * diagonal
  }

  /** `Math.abs(velocityX) + Math.abs(velocityY) > 2`, as the hand rendering computes it. */
  predicate Running(vx: real, vy: real)
  {
    Abs(vx) + Abs(vy) > 2.0
  }

  // ---------------------------------------------------------------- body colour

  /** The suspended `refreshBodyImage(color)`: its argument and the fill its conversion serialized. */
  datatype Refresh = Refresh(color: string, serialized: string)

  /** `runs` counts the conversions started so far (model state, not a field of the source). */
  datatype BodyColor = BodyColor(fill: string, image: string, loading: bool, queued: Option<string>,
                                 pending: Option<Refresh>, runs: nat)

  datatype ColorEvent = Picked(color: string) | Resolved | Failed

  /** A settled body whose image shows `fill`. */
  function Loaded(fill: string): BodyColor
  {
    BodyColor(fill, fill, false, None, None, 0)
  }

  /** The synchronous start of `refreshBodyImage(color)`: the flag is set and the conversion of the
    * SVG, with its current fill, is in flight. */
  function StartRefresh(s: BodyColor, color: string): (r: BodyColor)
    ensures r.loading && r.pending == Some(Refresh(color, s.fill)) && r.runs == s.runs + 1
    ensures r.fill == s.fill && r.image == s.image && r.queued == s.queued
  {
    s.(loading := true, pending := Some(Refresh(color, s.fill)), runs := s.runs + 1)
  }

  /** The `onColorChange` handler: the path takes the colour; while loading the colour is only
    * queued, otherwise a refresh starts at once. */
  function ColorChange(s: BodyColor, color: string): (r: BodyColor)
    ensures r.fill == color
    ensures s.loading ==> r == s.(fill := color, queued := Some(color))
    ensures !s.loading ==> r == StartRefresh(s.(fill := color), color)
  {
    if s.loading then s.(fill := color, queued := Some(color))
    else StartRefresh(s.(fill := color), color)
  }

  /** The rest of `refreshBodyImage(color)` after the conversion resolves: the image is replaced
    * and the flag cleared; a queued colour that differs from `color` is taken off the queue and
    * refreshed, and a queued colour equal to it stays queued. */
  function Converted(s: BodyColor): (r: BodyColor)
    requires s.pending.Some?
    ensures var c, q := s.pending.value.color, s.queued;
      if q.Some? && q.value != c then
        r == StartRefresh(s.(image := s.pending.value.serialized, loading := false, queued := None, pending := None), q.value)
      else
        r == s.(image := s.pending.value.serialized, loading := false, pending := None)
  {
    var done := s.(image := s.pending.value.serialized, loading := false, pending := None);
    if s.queued.Some? && s.queued.value != s.pending.value.color then
      StartRefresh(done.(queued := None), s.queued.value)
    else done
  }

  /** A rejected conversion ends the call with an exception: the flag stays set. */
  function Rejected(s: BodyColor): BodyColor
  {
    s.(pending := None)
  }

  function Step(s: BodyColor, e: ColorEvent): BodyColor
  {
    match e
    case Picked(color) => ColorChange(s, color)
    case Resolved => if s.pending.Some? then Converted(s) else s
    case Failed => if s.pending.Some? then Rejected(s) else s
  }

  function Run(s: BodyColor, events: seq<ColorEvent>): BodyColor
    decreases |events|
  {
    if |events| == 0 then s else Run(Step(s, events[0]), events[1..])
  }

  /** At most one conversion is in flight, and only while the flag is set. */
  predicate Inv(s: BodyColor)
  {
    s.pending.Some? ==> s.loading
  }

  lemma StepPreservesInv(s: BodyColor, e: ColorEvent)
    requires Inv(s)
    ensures Inv(Step(s, e))
  {
  }

  /** Once a conversion is rejected nothing is in flight but the flag stays set, so every later
    * colour change is only queued and no refresh ever starts again. */
  lemma {:induction false} RejectionSticks(s: BodyColor, events: seq<ColorEvent>)
    requires s.loading && s.pending.None?
    ensures var r := Run(s, events); r.loading && r.pending.None? && r.image == s.image
    decreases |events|
  {
    if |events| > 0 {
      RejectionSticks(Step(s, events[0]), events[1..]);
    }
  }

  /** As written, a queued colour equal to the one just rendered is never cleared, and it later
    * turns a finished refresh into a rerun whose argument is not the fill it serializes. A colour
    * change back to that stale colour during the rerun is then dropped: everything settles, and the
    * image shows "C" while the body colour is "A". */
  lemma StaleQueueShowsOldColour()
    ensures var r := Run(Loaded("W"), [Picked("A"), Picked("B"), Picked("A"), Resolved, Picked("C"),
                                       Resolved, Picked("A"), Resolved]);
      !r.loading && r.pending.None? && r.fill == "A" && r.image == "C"
  {
    var s1 := Step(Loaded("W"), Picked("A"));
    assert s1 == BodyColor("A", "W", true, None, Some(Refresh("A", "A")), 1);
    var s2 := Step(s1, Picked("B"));
    var s3 := Step(s2, Picked("A"));
    assert s3 == BodyColor("A", "W", true, Some("A"), Some(Refresh("A", "A")), 1);
    var s4 := Step(s3, Resolved);
    assert s4 == BodyColor("A", "A", false, Some("A"), None, 1);
    var s5 := Step(s4, Picked("C"));
    assert s5 == BodyColor("C", "A", true, Some("A"), Some(Refresh("C", "C")), 2);
    var s6 := Step(s5, Resolved);
    assert "A" != "C";
    assert s6 == BodyColor("C", "C", true, None, Some(Refresh("A", "C")), 3);
    var s7 := Step(s6, Picked("A"));
    assert s7 == BodyColor("A", "C", true, Some("A"), Some(Refresh("A", "C")), 3);
    var s8 := Step(s7, Resolved);
    assert s8 == BodyColor("A", "C", false, Some("A"), None, 3);
    var events := [Picked("A"), Picked("B"), Picked("A"), Resolved, Picked("C"), Resolved, Picked("A"), Resolved];
    assert Run(Loaded("W"), events) == Run(s1, events[1..]);
    assert Run(s1, events[1..]) == Run(s2, events[2..]);
    assert Run(s2, events[2..]) == Run(s3, events[3..]);
    assert Run(s3, events[3..]) == Run(s4, events[4..]);
    assert Run(s4, events[4..]) == Run(s5, events[5..]);
    assert Run(s5, events[5..]) == Run(s6, events[6..]);
    assert Run(s6, events[6..]) == Run(s7, events[7..]);
    assert Run(s7, events[7..]) == Run(s8, []);
  }

  /** The colour changes of one drag of the picker. */
  function Picks(colors: seq<string>): (r: seq<ColorEvent>)
    ensures |r| == |colors| && forall i :: 0 <= i < |r| ==> r[i] == Picked(colors[i])
  {
    if |colors| == 0 then [] else [Picked(colors[0])] + Picks(colors[1..])
  }

  lemma {:induction false} RunAppend(s: BodyColor, a: seq<ColorEvent>, b: seq<ColorEvent>)
    ensures Run(s, a + b) == Run(Run(s, a), b)
    decreases |a|
  {
    if |a| > 0 {
      assert (a + b)[1..] == a[1..] + b;
      RunAppend(Step(s, a[0]), a[1..], b);
    } else {
      assert a + b == b;
    }
  }

  /** While a conversion is in flight, colour changes only move the fill and the queue to the last
    * colour, and start nothing. */
  lemma {:induction false} PicksWhileLoading(s: BodyColor, colors: seq<string>)
    requires s.loading && |colors| > 0
    ensures Run(s, Picks(colors)) == s.(fill := colors[|colors| - 1], queued := Some(colors[|colors| - 1]))
    decreases |colors|
  {
    var t := Step(s, Picked(colors[0]));
    assert Picks(colors)[1..] == Picks(colors[1..]);
    if |colors| > 1 {
      PicksWhileLoading(t, colors[1..]);
    }
  }

  /** A burst of colour changes during a conversion yields exactly one further conversion, of the
    * last colour, with the queue cleared before it starts, provided that colour differs from the
    * one being converted. */
  lemma BurstGivesOneRerun(s: BodyColor, colors: seq<string>)
    requires s.pending.Some? && s.loading && |colors| > 0
    requires colors[|colors| - 1] != s.pending.value.color
    ensures var last, r := colors[|colors| - 1], Run(s, Picks(colors) + [Resolved]);
      r.runs == s.runs + 1 && r.queued.None? && r.loading && r.pending == Some(Refresh(last, last)) &&
      r.image == s.pending.value.serialized
  {
    RunAppend(s, Picks(colors), [Resolved]);
    PicksWhileLoading(s, colors);
  }

  /** A burst that ends on the colour being converted starts nothing more and stays queued. */
  lemma BurstBackToSameColour(s: BodyColor, colors: seq<string>)
    requires s.pending.Some? && s.loading && |colors| > 0
    requires colors[|colors| - 1] == s.pending.value.color
    ensures var r := Run(s, Picks(colors) + [Resolved]);
      r.runs == s.runs && !r.loading && r.pending.None? && r.queued == Some(s.pending.value.color)
  {
    RunAppend(s, Picks(colors), [Resolved]);
    PicksWhileLoading(s, colors);
  }

  // ---------------------------------------------------------------- corrected refresh

  /** The refresh with the queue cleared whenever a conversion resolves, so no colour outlives the
    * refresh it was queued during. */
  function ConvertedFixed(s: BodyColor): (r: BodyColor)
    requires s.pending.Some?
    ensures r.queued.None?
  {
    var done := s.(image := s.pending.value.serialized, loading := false, queued := None, pending := None);
    if s.queued.Some? && s.queued.value != s.pending.value.color then StartRefresh(done, s.queued.value)
    else done
  }

  function StepFixed(s: BodyColor, e: ColorEvent): BodyColor
  {
    match e
    case Picked(color) => ColorChange(s, color)
    case Resolved => if s.pending.Some? then ConvertedFixed(s) else s
    case Failed => if s.pending.Some? then Rejected(s) else s
  }

  function RunFixed(s: BodyColor, events: seq<ColorEvent>): BodyColor
    decreases |events|
  {
    if |events| == 0 then s else RunFixed(StepFixed(s, events[0]), events[1..])
  }

  /** What the corrected refresh keeps: a settled body shows its fill with nothing queued; a
    * conversion in flight serializes the colour it was called with, and the fill is that colour
    * unless a newer one is queued. */
  predicate FixedInv(s: BodyColor)
  {
    Inv(s) &&
    (!s.loading ==> s.image == s.fill && s.queued.None?) &&
    (s.pending.Some? ==>
       s.pending.value.serialized == s.pending.value.color &&
       s.fill == (if s.queued.Some? then s.queued.value else s.pending.value.color))
  }

  lemma FixedStepPreservesInv(s: BodyColor, e: ColorEvent)
    requires FixedInv(s)
    ensures FixedInv(StepFixed(s, e))
  {
  }

  /** With the correction, whenever the refreshes settle the body image shows the current body
    * colour, after any sequence of colour changes and conversions. */
  lemma {:induction false} FixedSettlesOnFill(s: BodyColor, events: seq<ColorEvent>)
    requires FixedInv(s)
    ensures FixedInv(RunFixed(s, events))
    ensures !RunFixed(s, events).loading ==> RunFixed(s, events).image == RunFixed(s, events).fill
    decreases |events|
  {
    if |events| > 0 {
      FixedStepPreservesInv(s, events[0]);
      FixedSettlesOnFill(StepFixed(s, events[0]), events[1..]);
    }
  }

  /** The correction changes only what happens to the queue: it agrees with the code as written
    * whenever the queue is empty or holds a colour other than the refreshed one. */
  lemma FixedAgrees(s: BodyColor)
    requires s.pending.Some? && (s.queued.None? || s.queued.value != s.pending.value.color)
    ensures ConvertedFixed(s) == Converted(s)
  {
  }

  // ---------------------------------------------------------------- the character

  class LegacyCharacter {
    var x: real
    var y: real
    var width: real
    var height: real
    /** Left: false, right: true. */
    var direction: bool
    var velocityX: real
    var velocityY: real
    var friction: real
    var speed: real
    var sightX: real
    var sightY: real
    var keys: map<string, bool>
    var name: string
    var bodyFill: string
    var bodyImage: string
    var bodyColorLoading: bool
    var queuedBodyColor: Option<string>
    /** The suspended `refreshBodyImage` call (model state, not a field of the source). */
    var refresh: Option<Refresh>
    /** The conversions started so far. */
    ghost var started: nat

    ghost function Body(): BodyColor
      reads this
    {
      BodyColor(bodyFill, bodyImage, bodyColorLoading, queuedBodyColor, refresh, started)
    }

    /** `new Character(canvas, context)` followed by `load()`, whose body image shows `fill`. */
    constructor(fill: string)
      ensures x == 0.0 && y == 0.0 && width == WIDTH && height == HEIGHT && direction
      ensures velocityX == 0.0 && velocityY == 0.0 && friction == FRICTION && speed == SPEED
      ensures sightX == 0.0 && sightY == 0.0 && keys == map[] && name == ""
      ensures Body() == Loaded(fill)
    {
      x, y := 0.0, 0.0;
      width, height := WIDTH, HEIGHT;
      direction := true;
      velocityX, velocityY := 0.0, 0.0;
      friction, speed := FRICTION, SPEED;
      sightX, sightY := 0.0, 0.0;
      keys := map[];
      name := "";
      bodyFill, bodyImage := fill, fill;
      bodyColorLoading := false;
      queuedBodyColor := None;
      refresh := None;
      started := 0;
    }

    /** The "mousemove" listener. */
    method MouseMove(clientX: real, clientY: real, left: real, top: real)
      modifies this`sightX, this`sightY
      ensures sightX == clientX - left && sightY == clientY - top
    {
      sightX := clientX - left;
      sightY := clientY - top;
    }

    /** The "keydown" listener: ignored while the focus is in a text field. A focused element
      * that is not an HTML element (`NotHtml`) has no text-field tag and no `isContentEditable`,
      * so the key is recorded. */
    method KeyDown(code: string, active: Character.ActiveElement)
      modifies this`keys
      ensures keys == if Character.Typing(active) then old(keys) else old(keys)[code := true]
    {
      if active.Element? {
        if active.tagName == "INPUT" && active.inputType == "text" {
          return;
        }
        if active.tagName == "TEXTAREA" {
          return;
        }
        if active.contentEditable {
          return;
        }
      }
      keys := keys[code := true];
    }

    /** The "keyup" listener. */
    method KeyUp(code: string)
      modifies this`keys
      ensures keys == old(keys)[code := false]
    {
      keys := keys[code := false];
    }

    /** The "input" listener of the name field. */
    method NameInput(value: string)
      modifies this`name
      ensures name == value
    {
      name := value;
    }

    /** `update(deltaTime)`, with `1 / Math.sqrt(2)` as `diagonal`: the same integration step as
      * `Entity2D`, with acceleration `width * speed * axis * diagonal` and friction
      * `width * friction` (height on the vertical axis). */
    method Update(arg: Argument, diagonal: real)
      modifies this`x, this`y, this`velocityX, this`velocityY, this`direction
      ensures var dt, h, v := DeltaTime(arg), Character.Horizontal(keys), Character.Vertical(keys);
        var d := Character.Diagonal(h, v, diagonal);
        velocityX == Physics.VelocityStep(old(velocityX), Push(width, speed, h, d), width * friction, dt) &&
        velocityY == Physics.VelocityStep(old(velocityY), Push(height, speed, v, d), height * friction, dt) &&
        x == old(x) + velocityX * dt && y == old(y) + velocityY * dt &&
        direction == Facing(old(direction), h)
    {
      var deltaTime := if arg.NumberArg? && arg.n.Num? then arg.n.value else 0.0;
      var horizontal := Character.Horizontal(keys);
      var vertical := Character.Vertical(keys);
      var diag := Character.Diagonal(horizontal, vertical, diagonal);
      Turn(horizontal);
      assert deltaTime == DeltaTime(arg);
      Integrate(Push(width, speed, horizontal, diag), Push(height, speed, vertical, diag), deltaTime);
    }

    /** The facing update of `update`. */
    method Turn(horizontal: int)
      modifies this`direction
      ensures direction == Facing(old(direction), horizontal)
    {
      if horizontal == 1 || horizontal == -1 {
        direction := horizontal == 1;
      }
    }

    /** The four velocity and position updates of `update`. */
    method Integrate(ax: real, ay: real, deltaTime: real)
      modifies this`x, this`y, this`velocityX, this`velocityY
      ensures velocityX == Physics.VelocityStep(old(velocityX), ax, width * friction, deltaTime)
      ensures velocityY == Physics.VelocityStep(old(velocityY), ay, height * friction, deltaTime)
      ensures x == old(x) + velocityX * deltaTime && y == old(y) + velocityY * deltaTime
    {
      velocityX := velocityX + ax * deltaTime;
      velocityY := velocityY + ay * deltaTime;
      ghost var vx, vy := velocityX, velocityY;
      velocityX := velocityX - width * velocityX * friction * deltaTime;
      velocityY := velocityY - height * velocityY * friction * deltaTime;
      assert width * vx * friction * deltaTime == vx * (width * friction) * deltaTime;
      assert height * vy * friction * deltaTime == vy * (height * friction) * deltaTime;
      x := x + velocityX * deltaTime;
      y := y + velocityY * deltaTime;
    }

    /** The label `render` draws: the name, cut to 19 characters and an ellipsis when longer than
      * 20; nothing for an empty name. */
    method RenderLabel() returns (shown: Option<string>)
      ensures shown == Character.Label(name)
    {
      if name == "" {
        return None;
      }
      var text := name;
      if |text| > 20 {
        text := text[..19];
        text := text + "…";
      }
      shown := Some(text);
    }

    /** The `onColorChange` handler installed by `load()`. */
    method OnColorChange(color: string)
      modifies this`bodyFill, this`bodyColorLoading, this`queuedBodyColor, this`refresh, this`started
      ensures Body() == ColorChange(old(Body()), color)
    {
      bodyFill := color;
      if bodyColorLoading {
        queuedBodyColor := Some(color);
      } else {
        RefreshBodyImage(color);
      }
    }

    /** `refreshBodyImage(color)` up to its await. */
    method RefreshBodyImage(color: string)
      modifies this`bodyColorLoading, this`refresh, this`started
      ensures Body() == StartRefresh(old(Body()), color)
    {
      bodyColorLoading := true;
      refresh := Some(Refresh(color, bodyFill));
      started := started + 1;
    }

    /** The conversion resolves: the rest of `refreshBodyImage`. */
    method ConversionLoaded()
      requires refresh.Some?
      modifies this`bodyImage, this`bodyColorLoading, this`queuedBodyColor, this`refresh, this`started
      ensures Body() == Converted(old(Body()))
    {
      var color := refresh.value.color;
      bodyImage := refresh.value.serialized;
      refresh := None;
      bodyColorLoading := false;
      if queuedBodyColor.Some? && queuedBodyColor.value != color {
        var next := queuedBodyColor.value;
        queuedBodyColor := None;
        RefreshBodyImage(next);
      }
    }

    /** The conversion rejects: the call ends with the exception and the flag stays set. */
    method ConversionRejected()
      requires refresh.Some?
      modifies this`refresh
      ensures Body() == Rejected(old(Body()))
    {
      refresh := None;
    }
  }

  // ---------------------------------------------------------------- lemmas

  /** The older step is `Physics.VelocityStep` with the size folded into the acceleration and the
    * friction: it adds `size * speed * axis * diagonal * dt`, then removes `size * v * friction * dt`
    * from the result. */
  lemma LegacyStepIsVelocityStep(v: real, size: real, speed: real, axis: real, diagonal: real,
                                 friction: real, dt: real)
    ensures var v1 := v + size * speed * axis * diagonal * dt;
      Physics.VelocityStep(v, size * speed * axis * diagonal, size * friction, dt) == v1 - size * v1 * friction * dt
  {
    var a := size * speed * axis * diagonal;
    var v1 := v + a * dt;
    assert v1 * (size * friction) * dt == size * v1 * friction * dt;
  }

  /** The facing follows the last nonzero horizontal input: right input faces right, left input
    * faces left, and no input keeps the facing. */
  lemma FacingFacts(direction: bool, horizontal: int)
    requires -1 <= horizontal <= 1
    ensures horizontal == 1 ==> Facing(direction, horizontal)
    ensures horizontal == -1 ==> !Facing(direction, horizontal)
    ensures horizontal == 0 ==> Facing(direction, horizontal) == direction
  {
  }

  /** The older running test is the newer character's locomotion state. */
  lemma RunningAgrees(vx: real, vy: real)
    ensures Running(vx, vy) <==> Character.StateOf(vx, vy) == Character.Running
  {
  }

  /** Non-numbers and NaN freeze the step: position and velocity are unchanged with no input. */
  lemma NoTimeNoMotion(v: real, a: real, friction: real, arg: Argument)
    requires arg.NotNumber? || arg.n.NaN?
    ensures Physics.VelocityStep(v, a, friction, DeltaTime(arg)) == v
  {
  }
}
