/**
 * Sprite textures (source/textures.ts): a texture's SVG document, the raster image decoded from it
 * at `RESOLUTION` times its natural size, and the two flags `refreshing`/`refreshQueued` that
 * coalesce rasterize requests. The awaited image decode is the boundary between events: a
 * `rasterize` call that starts a conversion returns, and the decode later either resolves
 * (`DecodeLoaded`) or rejects (`DecodeFailed`).
 *
 * The flag logic is stated once as a pure state machine (`Machine`, `Step`, `Run`), with the
 * properties proved over arbitrary event traces; the `Texture` class is proved to move its
 * fields exactly as `Step` does.
 */
module Textures {
  import opened Wrappers

  const RESOLUTION: real := 4.0

  // ---------------------------------------------------------------- the coalescing machine

  /** The texture state the flags are about: whether an SVG is loaded, the two flags, whether a
    * decode is awaited, and how many conversions have been started and how many have settled. */
  datatype Machine = Machine(loaded: bool, refreshing: bool, queued: bool, inFlight: bool,
                             started: nat, settled: nat)

  datatype Event = Request | Loaded | Failed

  /** `rasterize()`: no SVG throws, a conversion in progress only queues, otherwise one starts. */
  function RequestStep(m: Machine): Machine
  {
    if !m.loaded then m
    else if m.refreshing then m.(queued := true)
    else m.(refreshing := true, inFlight := true, started := m.started + 1)
  }

  /** The awaited decode resolves: `refreshing` is cleared, and a queued request is cleared and
    * rerun. A decode that is not awaited cannot resolve. */
  function LoadedStep(m: Machine): Machine
  {
    if !m.inFlight then m
    else
      var done := m.(refreshing := false, inFlight := false, settled := m.settled + 1);
      if done.queued then RequestStep(done.(queued := false)) else done
  }

  /** The awaited decode rejects: the exception leaves `rasterize` before `refreshing` is reset. */
  function FailedStep(m: Machine): Machine
  {
    if !m.inFlight then m else m.(inFlight := false, settled := m.settled + 1)
  }

  function Step(m: Machine, e: Event): Machine
  {
    match e
    case Request => RequestStep(m)
    case Loaded => LoadedStep(m)
    case Failed => FailedStep(m)
  }

  function Run(m: Machine, events: seq<Event>): Machine
    decreases |events|
  {
    if |events| == 0 then m else Run(Step(m, events[0]), events[1..])
  }

  /** `n` rasterize requests in a row. */
  function Requests(n: nat): (r: seq<Event>)
    ensures |r| == n && forall i :: 0 <= i < n ==> r[i] == Request
  {
    if n == 0 then [] else [Request] + Requests(n - 1)
  }

  /** The machine's invariant: a decode is awaited only while `refreshing`, `refreshing` only with
    * an SVG, and every started conversion but the one in flight has settled, so at most one
    * conversion is ever in flight. */
  predicate Inv(m: Machine)
  {
    (m.inFlight ==> m.refreshing) && (m.refreshing ==> m.loaded)
    && m.started == m.settled + (if m.inFlight then 1 else 0)
  }

  /** A rejected decode left `refreshing` set with nothing awaited. */
  predicate Stuck(m: Machine)
  {
    m.refreshing && !m.inFlight
  }

  /** No SVG, no conversion. */
  function Initial(): (m: Machine)
    ensures Inv(m) && !m.loaded && !m.refreshing && !m.queued
  {
    Machine(false, false, false, false, 0, 0)
  }

  // ---------------------------------------------------------------- machine lemmas

  lemma StepPreservesInv(m: Machine, e: Event)
    requires Inv(m)
    ensures Inv(Step(m, e))
  {
  }

  lemma {:induction false} RunPreservesInv(m: Machine, events: seq<Event>)
    requires Inv(m)
    decreases |events|
    ensures Inv(Run(m, events))
  {
    if |events| > 0 {
      StepPreservesInv(m, events[0]);
      RunPreservesInv(Step(m, events[0]), events[1..]);
    }
  }

  /** A request while `refreshing` only sets `refreshQueued` and starts nothing; a request without
    * an SVG changes nothing. */
  lemma RequestWhileRefreshing(m: Machine)
    ensures m.loaded && m.refreshing ==> RequestStep(m) == m.(queued := true)
    ensures !m.loaded ==> RequestStep(m) == m
  {
  }

  /** A conversion starts only when none is in progress, and `refreshing` is cleared only by a
    * resolved decode. */
  lemma StartsOnlyWhenIdle(m: Machine, e: Event)
    requires Inv(m)
    ensures Step(m, e).started > m.started ==> (e == Request && !m.refreshing) || (e == Loaded && m.queued)
    ensures Step(m, e).started <= m.started + 1
    ensures m.refreshing && !Step(m, e).refreshing ==> e == Loaded && m.inFlight && !m.queued
  {
  }

  /** Any number of requests during one conversion give exactly one trailing conversion: once
    * the decode resolves, a new one is in flight with the queue already cleared, and when that
    * one resolves in turn with no new request, the texture is idle. */
  lemma {:induction false} BurstGivesOneRun(m: Machine, n: nat)
    requires Inv(m) && m.inFlight && n >= 1
    ensures var r := Run(m, Requests(n) + [Loaded]);
      r.inFlight && r.refreshing && !r.queued && r.started == m.started + 1
    ensures var r := Run(m, Requests(n) + [Loaded, Loaded]);
      !r.refreshing && !r.inFlight && !r.queued && r.started == m.started + 1
  {
    RequestsWhileRefreshing(m, n, [Loaded]);
    RequestsWhileRefreshing(m, n, [Loaded, Loaded]);
    var q := m.(queued := true);
    assert Run(q, [Loaded]) == LoadedStep(q);
    assert Run(q, [Loaded, Loaded]) == Run(LoadedStep(q), [Loaded]);
  }

  /** Without a request during the conversion, its decode leaves the texture idle and starts
    * nothing. */
  lemma QuietRunSettles(m: Machine)
    requires Inv(m) && m.inFlight && !m.queued
    ensures var r := Step(m, Loaded);
      !r.refreshing && !r.inFlight && r.started == m.started
  {
  }

  /** Requests while `refreshing` all collapse into the one queued flag. */
  lemma {:induction false} RequestsWhileRefreshing(m: Machine, n: nat, rest: seq<Event>)
    requires m.loaded && m.refreshing && n >= 1
    ensures Run(m, Requests(n) + rest) == Run(m.(queued := true), rest)
    decreases n
  {
    var es := Requests(n) + rest;
    assert es[0] == Request && es[1..] == Requests(n - 1) + rest;
    var q := m.(queued := true);
    assert Step(m, Request) == q;
    if n > 1 {
      RequestsWhileRefreshing(q, n - 1, rest);
    } else {
      assert es[1..] == rest;
    }
  }

  /** A rejected decode leaves the machine stuck for good: whatever happens next, `refreshing`
    * stays set, no conversion starts, and any later request only sets `refreshQueued`. */
  lemma {:induction false} FailureIsPermanent(m: Machine, events: seq<Event>)
    requires Inv(m) && Stuck(m)
    ensures Stuck(Run(m, events))
    ensures Run(m, events).started == m.started
    ensures Request in events ==> Run(m, events).queued
    decreases |events|
  {
    if |events| > 0 {
      var s := Step(m, events[0]);
      assert Stuck(s) && Inv(s) && s.started == m.started;
      assert events[0] == Request ==> s.queued;
      FailureIsPermanent(s, events[1..]);
      if events[0] != Request && Request in events {
        assert Request in events[1..];
      }
      if s.queued {
        QueuedStays(s, events[1..]);
      }
    }
  }

  /** A stuck machine's queue flag is never cleared again. */
  lemma {:induction false} QueuedStays(m: Machine, events: seq<Event>)
    requires Stuck(m) && Inv(m) && m.queued
    ensures Run(m, events).queued
    decreases |events|
  {
    if |events| > 0 {
      QueuedStays(Step(m, events[0]), events[1..]);
    }
  }

  /** A failing decode, reached from a conversion in flight. */
  lemma FailureSticks(m: Machine)
    requires Inv(m) && m.inFlight
    ensures Stuck(Step(m, Failed))
  {
  }

  // ---------------------------------------------------------------- the texture

  /** `TextureData`, an entry of the sprite manifest. */
  datatype TextureData = TextureData(name: string, path: string, resolution: real, outline: bool)

  /** What `parseFromString` yields, as far as `load` looks at it: whether the root element is an
    * `<svg>`, and the numbers of its width and height attributes. */
  datatype Document = Document(rootIsSvg: bool, width: real, height: real)

  /** An image element, by its pixel size. */
  datatype Raster = Raster(width: real, height: real)

  class Texture {
    const data: TextureData
    var width: real
    var height: real
    var svg: Option<Document>
    var image: Option<Raster>
    /** The image element whose decode is being awaited. */
    var pending: Option<Raster>
    var refreshQueued: bool
    var refreshing: bool
    ghost var started: nat
    ghost var settled: nat

    /** The flags as the machine sees them. */
    ghost function State(): Machine
      reads this
    {
      Machine(svg.Some?, refreshing, refreshQueued, pending.Some?, started, settled)
    }

    ghost predicate Valid()
      reads this
    {
      Inv(State())
    }

    constructor(data: TextureData)
      ensures Valid() && State() == Initial()
      ensures this.data == data && image.None?
    {
      this.data := data;
      svg := None;
      image := None;
      pending := None;
      refreshQueued := false;
      refreshing := false;
      started := 0;
      settled := 0;
    }

    /** `rasterize()`: `threw` when no SVG is loaded. A conversion that starts creates an image
      * element of `RESOLUTION` times the natural size and awaits its decode. */
    method Rasterize() returns (threw: bool)
      requires Valid()
      modifies this
      ensures Valid() && State() == RequestStep(old(State()))
      ensures threw <==> old(svg).None?
      ensures !old(refreshing) && !threw ==> pending == Some(Raster(width * RESOLUTION, height * RESOLUTION))
      ensures old(refreshing) || threw ==> pending == old(pending)
      ensures svg == old(svg) && width == old(width) && height == old(height) && image == old(image)
    {
      if svg.None? {
        return true;
      }
      threw := false;
      if refreshing {
        refreshQueued := true;
        return;
      }
      refreshing := true;
      pending := Some(Raster(width * RESOLUTION, height * RESOLUTION));
      started := started + 1;
    }

    /** The awaited decode resolves: the image becomes the decoded element, `refreshing` is
      * cleared and a queued request is rerun. */
    method DecodeLoaded()
      requires Valid() && pending.Some?
      modifies this
      ensures Valid() && State() == LoadedStep(old(State()))
      ensures image == old(pending)
      ensures old(refreshQueued) ==> pending == Some(Raster(width * RESOLUTION, height * RESOLUTION))
      ensures !old(refreshQueued) ==> pending.None?
      ensures svg == old(svg) && width == old(width) && height == old(height)
    {
      image := pending;
      pending := None;
      settled := settled + 1;
      refreshing := false;
      if refreshQueued {
        refreshQueued := false;
        var threw := Rasterize();
      }
    }

    /** The awaited decode rejects: the error propagates and `refreshing` is never reset. */
    method DecodeFailed()
      requires Valid() && pending.Some?
      modifies this
      ensures Valid() && State() == FailedStep(old(State())) && Stuck(State())
      ensures image == old(image) && pending.None?
      ensures svg == old(svg) && width == old(width) && height == old(height)
    {
      pending := None;
      settled := settled + 1;
    }

    /** `load()` once the file is fetched and parsed: a root that is not `<svg>` throws and changes
      * nothing; otherwise the document and its width and height are kept and `rasterize` runs. */
    method Load(doc: Document) returns (threw: bool)
      requires Valid()
      modifies this
      ensures Valid()
      ensures !doc.rootIsSvg ==> threw && State() == old(State()) && svg == old(svg)
      ensures !doc.rootIsSvg ==> width == old(width) && height == old(height) && pending == old(pending)
      ensures doc.rootIsSvg ==> !threw && svg == Some(doc) && width == doc.width && height == doc.height
      ensures doc.rootIsSvg ==> State() == RequestStep(old(State()).(loaded := true))
      ensures doc.rootIsSvg && !old(refreshing) ==> pending == Some(Raster(doc.width * RESOLUTION, doc.height * RESOLUTION))
      ensures doc.rootIsSvg && old(refreshing) ==> pending == old(pending)
      ensures image == old(image)
    {
      if !doc.rootIsSvg {
        return true;
      }
      svg := Some(doc);
      width := doc.width;
      height := doc.height;
      threw := Rasterize();
    }
  }

  // ---------------------------------------------------------------- the registry

  /** The module's `textures` map and the `loadTextures`/`getTexture` pair around it. */
  class Registry {
    var textures: map<string, Texture>

    constructor()
      ensures textures == map[]
    {
      textures := map[];
    }

    /** `getTexture(identifier)`: the texture registered under that path, if any. */
    function GetTexture(identifier: string): (r: Option<Texture>)
      reads this
      ensures r.Some? <==> identifier in textures
      ensures r.Some? ==> r.value == textures[identifier]
    {
      if identifier in textures then Some(textures[identifier]) else None
    }

    /** `loadTextures()` over the manifest, where `documents[i]` is what the fetch of sprite `i`
      * parses to and `decodes[i]` whether its image decodes. The registry is emptied, then each
      * sprite is loaded and registered under its path, in manifest order; the first load that
      * throws ends the loop, and `failedAt` is its index. */
    method LoadTextures(manifest: seq<TextureData>, documents: seq<Document>, decodes: seq<bool>)
      returns (failedAt: Option<nat>)
      requires |documents| == |manifest| && |decodes| == |manifest|
      modifies this
      ensures failedAt.None? ==> textures.Keys == Paths(manifest)
      ensures failedAt.None? ==> forall i :: 0 <= i < |manifest| ==> documents[i].rootIsSvg && decodes[i]
      ensures failedAt.Some? ==> failedAt.value < |manifest| && textures.Keys == Paths(manifest[..failedAt.value])
      ensures failedAt.Some? ==> !documents[failedAt.value].rootIsSvg || !decodes[failedAt.value]
      ensures failedAt.Some? ==> forall i :: 0 <= i < failedAt.value ==> documents[i].rootIsSvg && decodes[i]
      ensures forall p :: p in textures ==> Registered(textures[p], p)
    {
      textures := map[];
      var i := 0;
      while i < |manifest|
        invariant 0 <= i <= |manifest|
        invariant textures.Keys == Paths(manifest[..i])
        invariant forall j :: 0 <= j < i ==> documents[j].rootIsSvg && decodes[j]
        invariant forall p :: p in textures ==> Registered(textures[p], p)
      {
        var texture, ok := LoadOne(manifest[i], documents[i], decodes[i]);
        if !ok {
          return Some(i);
        }
        PathsSnoc(manifest, i);
        textures := textures[manifest[i].path := texture];
        i := i + 1;
      }
      assert manifest[..|manifest|] == manifest;
      return None;
    }

    /** One iteration of `loadTextures`: a new texture, its `load()`, and the awaited decode. */
    static method LoadOne(data: TextureData, doc: Document, decodes: bool) returns (texture: Texture, ok: bool)
      ensures fresh(texture)
      ensures ok <==> doc.rootIsSvg && decodes
      ensures texture.data == data
      ensures ok ==> Registered(texture, data.path)
    {
      texture := new Texture(data);
      var threw := texture.Load(doc);
      if threw {
        return texture, false;
      }
      if decodes {
        texture.DecodeLoaded();
        return texture, true;
      }
      texture.DecodeFailed();
      return texture, false;
    }
  }

  /** A registered texture: loaded from the manifest entry of its path, its image decoded and no
    * conversion in progress. */
  predicate Registered(t: Texture, path: string)
    reads t
  {
    t.data.path == path && t.image.Some? && !t.refreshing
  }

  lemma PathsSnoc(manifest: seq<TextureData>, i: nat)
    requires i < |manifest|
    ensures Paths(manifest[..i + 1]) == Paths(manifest[..i]) + {manifest[i].path}
  {
    assert manifest[..i + 1][..i] == manifest[..i];
  }

  /** The set of paths of a manifest prefix. */
  function Paths(manifest: seq<TextureData>): set<string>
  {
    if |manifest| == 0 then {}
    else Paths(manifest[..|manifest| - 1]) + {manifest[|manifest| - 1].path}
  }

  /** A path is registered exactly when some manifest entry has it. */
  lemma {:induction false} PathsMembers(manifest: seq<TextureData>, p: string)
    ensures p in Paths(manifest) <==> exists i :: 0 <= i < |manifest| && manifest[i].path == p
  {
    if |manifest| > 0 {
      var init := manifest[..|manifest| - 1];
      PathsMembers(init, p);
      if p in Paths(init) {
        var i :| 0 <= i < |init| && init[i].path == p;
        assert manifest[i].path == p;
      }
      if exists i :: 0 <= i < |manifest| && manifest[i].path == p {
        var i :| 0 <= i < |manifest| && manifest[i].path == p;
        if i < |init| {
          assert init[i].path == p;
        }
      }
    }
  }
}
