/**
 * The camera of the zoomable canvas: a translate and an independent X/Y
 * scale, bounded panning, zoom around the pointer, an explicit scale from
 * the zoom control, and the debounced write of the camera to the zoom cache,
 * restored again per layout.
 */
module Canvas {
  import opened Common

  /** The fields of the component state. */
  datatype Field =
    | TranslateX | TranslateY | ScaleX | ScaleY
    | MinScale | MaxScale
    | MinTranslateX | MaxTranslateX | MinTranslateY | MaxTranslateY

  /**
   * A plain object of zoom fields, as held in component state, in the cache
   * and in the zoom limits; a missing key is an undefined field.
   */
  type ZoomState = map<Field, real>

  const InitialState: ZoomState := map[
    MinTranslateX := 0.0, MaxTranslateX := 0.0, MinTranslateY := 0.0, MaxTranslateY := 0.0,
    TranslateX := 0.0, TranslateY := 0.0,
    MinScale := 1.0, MaxScale := 1.0, ScaleX := 1.0, ScaleY := 1.0]

  lemma InitialStateComplete()
    ensures forall f: Field :: f in InitialState
  {
    forall f: Field ensures f in InitialState {
      match f
      case TranslateX => case TranslateY => case ScaleX => case ScaleY =>
      case MinScale => case MaxScale =>
      case MinTranslateX => case MaxTranslateX => case MinTranslateY => case MaxTranslateY =>
    }
  }

  /** lodash pick: the fields of s that are listed. */
  function Pick(s: ZoomState, fields: set<Field>): (r: ZoomState)
    ensures r.Keys == s.Keys * fields
    ensures forall f :: f in r ==> r[f] == s[f]
  {
    map f | f in s && f in fields :: s[f]
  }

  function Get(s: ZoomState, f: Field): Option<real>
  {
    if f in s then Some(s[f]) else None
  }

  /** The properties the component is rendered with. */
  datatype CanvasProps = CanvasProps(
    layoutId: string,
    forceRelayout: bool,
    layoutZoomState: ZoomState,   // the cache entry of the current layout, empty when none
    layoutZoomLimits: ZoomState,  // empty when the canvas has no content
    fixHorizontal: bool,
    fixVertical: bool,
    bounded: bool,
    disabled: bool)

  function CachableFields(fixHorizontal: bool, fixVertical: bool): set<Field>
  {
    (if fixHorizontal then {} else {ScaleX, TranslateX}) + (if fixVertical then {} else {ScaleY, TranslateY})
  }

  /**
   * cachableState: only the scale and translate of the axes that are not
   * fixed are written to the cache or applied to the state; nothing else is.
   */
  function CachableState(s: ZoomState, fixHorizontal: bool, fixVertical: bool): (r: ZoomState)
    ensures forall f :: f in r <==> f in s && (|| (!fixHorizontal && (f == ScaleX || f == TranslateX))
                                               || (!fixVertical && (f == ScaleY || f == TranslateY)))
    ensures forall f :: f in r ==> r[f] == s[f]
  {
    Pick(s, CachableFields(fixHorizontal, fixVertical))
  }

  /** canChangeZoom: zooming is allowed unless disabled or the canvas has no content. */
  predicate CanChangeZoom(p: CanvasProps)
    ensures CanChangeZoom(p) <==> !p.disabled && |p.layoutZoomLimits| > 0
  {
    !p.disabled && p.layoutZoomLimits != map[]
  }

  // ---------------------------------------------------------------------------
  // Pan
  // ---------------------------------------------------------------------------

  /**
   * The bounds of handlePan, each applied only when defined: first the lower
   * bound with Math.max, then the upper one with Math.min.
   */
  function Clamp(v: real, lo: Option<real>, hi: Option<real>): (r: real)
    ensures hi.Some? ==> r <= hi.value
    ensures lo.Some? && (hi.None? || lo.value <= hi.value) ==> lo.value <= r
    ensures (lo.None? || lo.value <= v) && (hi.None? || v <= hi.value) ==> r == v
    ensures r == v || (lo.Some? && r == lo.value) || (hi.Some? && r == hi.value)
    ensures lo.Some? && v < lo.value && (hi.None? || lo.value <= hi.value) ==> r == lo.value
    ensures hi.Some? && (v > hi.value || (lo.Some? && lo.value > hi.value)) ==> r == hi.value
  {
    var raised := if lo.Some? then Max(v, lo.value) else v;
    if hi.Some? then Min(raised, hi.value) else raised
  }

  /** The camera fields handlePan and handleZoom read. */
  predicate HasCamera(s: ZoomState)
  {
    TranslateX in s && TranslateY in s && ScaleX in s && ScaleY in s
  }

  /** The state after handlePan moved the camera by (dx, dy). */
  function Panned(s: ZoomState, p: CanvasProps, dx: real, dy: real): (r: ZoomState)
    requires TranslateX in s && TranslateY in s
    ensures r.Keys == s.Keys
    ensures forall f :: f in s && f != TranslateX && f != TranslateY ==> r[f] == s[f]
    ensures p.fixHorizontal ==> r[TranslateX] == s[TranslateX]
    ensures p.fixVertical ==> r[TranslateY] == s[TranslateY]
    ensures !p.fixHorizontal ==>
      r[TranslateX] == (if p.bounded then Clamp(s[TranslateX] + dx, Get(p.layoutZoomLimits, MinTranslateX),
                                                Get(p.layoutZoomLimits, MaxTranslateX))
                        else s[TranslateX] + dx)
    ensures !p.fixVertical ==>
      r[TranslateY] == (if p.bounded then Clamp(s[TranslateY] + dy, Get(p.layoutZoomLimits, MinTranslateY),
                                                Get(p.layoutZoomLimits, MaxTranslateY))
                        else s[TranslateY] + dy)
  {
    var translateX := s[TranslateX] + dx;
    var translateY := s[TranslateY] + dy;
    var limits := p.layoutZoomLimits;
    var boundedX := if p.bounded then Clamp(translateX, Get(limits, MinTranslateX), Get(limits, MaxTranslateX)) else translateX;
    var boundedY := if p.bounded then Clamp(translateY, Get(limits, MinTranslateY), Get(limits, MaxTranslateY)) else translateY;
    s + CachableState(map[TranslateX := boundedX, TranslateY := boundedY], p.fixHorizontal, p.fixVertical)
  }

  /** Unbounded pans compose: moving by a and then by b is moving by a + b. */
  lemma {:induction false} PansCompose(s: ZoomState, p: CanvasProps, dx1: real, dy1: real, dx2: real, dy2: real)
    requires TranslateX in s && TranslateY in s && !p.bounded
    ensures Panned(Panned(s, p, dx1, dy1), p, dx2, dy2) == Panned(s, p, dx1 + dx2, dy1 + dy2)
  {
    var a := Panned(Panned(s, p, dx1, dy1), p, dx2, dy2);
    var b := Panned(s, p, dx1 + dx2, dy1 + dy2);
    assert a.Keys == b.Keys;
    forall f | f in a ensures a[f] == b[f] {
    }
  }

  /** A bounded pan with consistent limits keeps the translate inside them. */
  lemma BoundedPanStaysInLimits(s: ZoomState, p: CanvasProps, dx: real, dy: real)
    requires TranslateX in s && TranslateY in s && p.bounded && !p.fixHorizontal
    requires MinTranslateX in p.layoutZoomLimits && MaxTranslateX in p.layoutZoomLimits
    requires p.layoutZoomLimits[MinTranslateX] <= p.layoutZoomLimits[MaxTranslateX]
    ensures p.layoutZoomLimits[MinTranslateX] <= Panned(s, p, dx, dy)[TranslateX] <= p.layoutZoomLimits[MaxTranslateX]
  {
  }

  // ---------------------------------------------------------------------------
  // Zoom around the pointer
  // ---------------------------------------------------------------------------

  /** A camera that can be inverted: all four fields present, both scales nonzero. */
  predicate Invertible(s: ZoomState)
  {
    HasCamera(s) && s[ScaleX] != 0.0 && s[ScaleY] != 0.0
  }

  /**
   * inverse: the content point shown at screen point (x, y). Mapped forward by
   * the camera (content * scale + translate) it is (x, y) again.
   */
  function Inverse(x: real, y: real, s: ZoomState): (c: Point)
    requires Invertible(s)
    ensures c.x * s[ScaleX] + s[TranslateX] == x
    ensures c.y * s[ScaleY] + s[TranslateY] == y
  {
    Point((x - s[TranslateX]) / s[ScaleX], (y - s[TranslateY]) / s[ScaleY])
  }

  /** The camera along one axis: screen = content * scale + translate. */
  datatype Axis = Axis(translate: real, scale: real)

  /**
   * One axis of handleZoom: the scale is divided by the factor and the
   * translate re-anchored so that the content coordinate under screen
   * coordinate `x` is the same before and after.
   */
  function ZoomAxis(a: Axis, x: real, factor: real): (b: Axis)
    requires a.scale != 0.0 && factor != 0.0
    ensures b.scale != 0.0 && b.scale * factor == a.scale
    ensures (x - b.translate) / b.scale == (x - a.translate) / a.scale
  {
    ZoomAxisKeepsPoint(x, a.translate, a.scale, factor);
    var k := a.scale / factor;
    Axis(x - (x - a.translate) / a.scale * k, k)
  }

  /** Arithmetic behind ZoomAxis: the content coordinate under x survives the rescale. */
  lemma ZoomAxisKeepsPoint(x: real, t: real, k: real, f: real)
    requires k != 0.0 && f != 0.0
    ensures k / f != 0.0 && (k / f) * f == k
    ensures (x - (x - (x - t) / k * (k / f))) / (k / f) == (x - t) / k
  {
    var c, k2 := (x - t) / k, k / f;
    assert k2 * f == k;
    assert x - (x - c * k2) == c * k2;
    assert c * k2 / k2 == c;
  }

  /** Zooming one axis out by the inverse factor at the same point restores it exactly. */
  lemma ZoomAxisRoundTrip(a: Axis, x: real, factor: real)
    requires a.scale != 0.0 && factor != 0.0
    ensures ZoomAxis(ZoomAxis(a, x, factor), x, 1.0 / factor) == a
  {
    var z := ZoomAxis(a, x, factor);
    var back := ZoomAxis(z, x, 1.0 / factor);
    ScaleRoundTrip(a.scale, z.scale, back.scale, factor);
    var c := (x - a.translate) / a.scale;
    assert (x - back.translate) / back.scale == c;
    SameInverseSameTranslate(x, a.translate, a.scale, back.translate, back.scale, c);
  }

  /** The horizontal and vertical axes of a camera. */
  function AxisX(s: ZoomState): Axis
    requires HasCamera(s)
  {
    Axis(s[TranslateX], s[ScaleX])
  }

  function AxisY(s: ZoomState): Axis
    requires HasCamera(s)
  {
    Axis(s[TranslateY], s[ScaleY])
  }

  /**
   * The state after handleZoom at pointer offset (px, py) with zoom factor
   * `factor`: each free axis is zoomed around the pointer; fixed axes and all
   * other fields stay.
   */
  function Zoomed(s: ZoomState, p: CanvasProps, px: real, py: real, factor: real): (r: ZoomState)
    requires Invertible(s) && factor != 0.0
    ensures r.Keys == s.Keys && Invertible(r)
    ensures forall f :: f in s && f != TranslateX && f != TranslateY && f != ScaleX && f != ScaleY ==> r[f] == s[f]
    ensures AxisX(r) == if p.fixHorizontal then AxisX(s) else ZoomAxis(AxisX(s), px, factor)
    ensures AxisY(r) == if p.fixVertical then AxisY(s) else ZoomAxis(AxisY(s), py, factor)
  {
    var ax := ZoomAxis(AxisX(s), px, factor);
    var ay := ZoomAxis(AxisY(s), py, factor);
    var updated := map[ScaleX := ax.scale, ScaleY := ay.scale,
                       TranslateX := ax.translate, TranslateY := ay.translate];
    s + CachableState(updated, p.fixHorizontal, p.fixVertical)
  }

  /** Zoom around the pointer: the content point under the pointer is the same before and after. */
  lemma ZoomKeepsPointerFixed(s: ZoomState, p: CanvasProps, px: real, py: real, factor: real)
    requires Invertible(s) && factor != 0.0
    ensures Inverse(px, py, Zoomed(s, p, px, py, factor)) == Inverse(px, py, s)
  {
  }

  /** Zooming out by the inverse factor at the same pointer undoes a zoom exactly. */
  lemma {:induction false} ZoomRoundTrip(s: ZoomState, p: CanvasProps, px: real, py: real, factor: real)
    requires Invertible(s) && factor != 0.0
    ensures Zoomed(Zoomed(s, p, px, py, factor), p, px, py, 1.0 / factor) == s
  {
    var z := Zoomed(s, p, px, py, factor);
    var back := Zoomed(z, p, px, py, 1.0 / factor);
    if !p.fixHorizontal {
      ZoomAxisRoundTrip(AxisX(s), px, factor);
    }
    if !p.fixVertical {
      ZoomAxisRoundTrip(AxisY(s), py, factor);
    }
    assert AxisX(back) == AxisX(s) && AxisY(back) == AxisY(s);
    forall f | f in s ensures back[f] == s[f] {
    }
  }

  /** Dividing a scale by a factor and then by its inverse gives the scale back. */
  lemma ScaleRoundTrip(k: real, zoomed: real, back: real, factor: real)
    requires factor != 0.0 && zoomed * factor == k && back * (1.0 / factor) == zoomed
    ensures back == k
  {
    calc {
      back;
      back * (1.0 / factor) * factor;
      zoomed * factor;
      k;
    }
  }

  /** Two cameras with the same scale that show the same content point at the same screen point agree. */
  lemma SameInverseSameTranslate(x: real, t1: real, k1: real, t2: real, k2: real, c: real)
    requires k1 != 0.0 && k2 != 0.0 && (x - t1) / k1 == c && (x - t2) / k2 == c && k1 == k2
    ensures t1 == t2
  {
  }

  // ---------------------------------------------------------------------------
  // Zoom control
  // ---------------------------------------------------------------------------

  /** handleZoomControlAction: both free scales set to `scale`, the translate untouched. */
  function ScaledTo(s: ZoomState, p: CanvasProps, scale: real): (r: ZoomState)
    ensures ScaleX in s && ScaleY in s ==> r.Keys == s.Keys
    ensures forall f :: f in s && f != ScaleX && f != ScaleY ==> f in r && r[f] == s[f]
    ensures !p.fixHorizontal ==> ScaleX in r && r[ScaleX] == scale
    ensures !p.fixVertical ==> ScaleY in r && r[ScaleY] == scale
    ensures p.fixHorizontal ==> Get(r, ScaleX) == Get(s, ScaleX)
    ensures p.fixVertical ==> Get(r, ScaleY) == Get(s, ScaleY)
  {
    s + CachableState(map[ScaleX := scale, ScaleY := scale], p.fixHorizontal, p.fixVertical)
  }

  /** restoreZoomState: a non-empty cache entry is merged into the state; an empty one changes nothing. */
  function Restored(s: ZoomState, entry: ZoomState): (r: ZoomState)
    ensures entry == map[] ==> r == s
    ensures r.Keys == s.Keys + entry.Keys
    ensures forall f :: f in entry ==> r[f] == entry[f]
    ensures forall f :: f in s && f !in entry ==> r[f] == s[f]
  {
    if entry == map[] then s else s + entry
  }

  // ---------------------------------------------------------------------------
  // The component
  // ---------------------------------------------------------------------------

  class ZoomableCanvas {
    var props: CanvasProps
    var state: ZoomState
    /** Whether the camera of the current layout has been taken from the cache. */
    var zoomRestored: bool
    /** A debounced cacheZoom is scheduled and has neither fired nor been cancelled. */
    var pendingCacheWrite: bool
    /** The payloads handed to cacheZoomState so far, oldest first. */
    var cacheWrites: seq<ZoomState>

    /** The state always holds every field: it starts with all of them and is only ever merged into. */
    ghost predicate Valid()
      reads this
    {
      forall f: Field :: f in state
    }

    /** The payload the pending debounced write would hand over if it fired now. */
    function PendingPayload(): ZoomState
      reads this
    {
      CachableState(state, props.fixHorizontal, props.fixVertical)
    }

    constructor (props: CanvasProps)
      ensures Valid()
      ensures this.props == props && state == InitialState
      ensures !zoomRestored && !pendingCacheWrite && cacheWrites == []
    {
      this.props := props;
      state := InitialState;
      InitialStateComplete();
      zoomRestored := false;
      pendingCacheWrite := false;
      cacheWrites := [];
    }

    /** updateZoomLimits: the limits are merged into the state whatever else happens. */
    method UpdateZoomLimits(next: CanvasProps)
      requires Valid()
      modifies this`state
      ensures Valid()
      ensures state == old(state) + next.layoutZoomLimits
    {
      state := state + next.layoutZoomLimits;
    }

    /** restoreZoomState: only a non-empty cache entry is loaded, and only then is the camera restored. */
    method RestoreZoomState(next: CanvasProps)
      requires Valid()
      modifies this`state, this`zoomRestored
      ensures Valid()
      ensures state == Restored(old(state), next.layoutZoomState)
      ensures zoomRestored == (old(zoomRestored) || next.layoutZoomState != map[])
    {
      if next.layoutZoomState != map[] {
        state := state + next.layoutZoomState;
        zoomRestored := true;
      }
    }

    method DidMount()
      requires Valid()
      modifies this
      ensures Valid()
      ensures state == Restored(old(state) + props.layoutZoomLimits, props.layoutZoomState)
      ensures zoomRestored == (props.layoutZoomState != map[])
      ensures props == old(props) && pendingCacheWrite == old(pendingCacheWrite) && cacheWrites == old(cacheWrites)
    {
      zoomRestored := false;
      UpdateZoomLimits(props);
      RestoreZoomState(props);
    }

    /** Unmounting cancels the pending write. */
    method WillUnmount()
      modifies this`pendingCacheWrite
      ensures !pendingCacheWrite
    {
      pendingCacheWrite := false;
    }

    /**
     * componentWillReceiveProps: a new layout id or a forced relayout cancels
     * the pending write and forgets the restoration; the limits are always
     * merged; a restore is attempted only when not restored. Afterwards the
     * component holds the new properties.
     */
    method ReceiveProps(next: CanvasProps)
      requires Valid()
      modifies this
      ensures Valid()
      ensures var reset := next.layoutId != old(props.layoutId) || next.forceRelayout;
        && pendingCacheWrite == (old(pendingCacheWrite) && !reset)
        && (if old(zoomRestored) && !reset
            then zoomRestored && state == old(state) + next.layoutZoomLimits
            else zoomRestored == (next.layoutZoomState != map[])
                 && state == Restored(old(state) + next.layoutZoomLimits, next.layoutZoomState))
      ensures props == next && cacheWrites == old(cacheWrites)
    {
      var layoutChanged := next.layoutId != props.layoutId;
      if layoutChanged || next.forceRelayout {
        pendingCacheWrite := false;
        zoomRestored := false;
      }
      UpdateZoomLimits(next);
      if !zoomRestored {
        RestoreZoomState(next);
      }
      props := next;
    }

    /** cacheZoom: hands the cachable part of the current state to the cache. */
    method CacheZoom()
      modifies this`cacheWrites
      ensures cacheWrites == old(cacheWrites) + [PendingPayload()]
    {
      cacheWrites := cacheWrites + [PendingPayload()];
    }

    /** The debounce interval elapses: a pending write lands, with the state as it is now. */
    method FireCacheTimer()
      modifies this`cacheWrites, this`pendingCacheWrite
      ensures !pendingCacheWrite
      ensures cacheWrites == if old(pendingCacheWrite) then old(cacheWrites) + [PendingPayload()] else old(cacheWrites)
    {
      if pendingCacheWrite {
        CacheZoom();
        pendingCacheWrite := false;
      }
    }

    /** handleZoomControlAction */
    method HandleZoomControlAction(scale: real)
      requires Valid()
      modifies this`state, this`pendingCacheWrite
      ensures Valid()
      ensures state == ScaledTo(old(state), props, scale) && pendingCacheWrite
    {
      state := ScaledTo(state, props, scale);
      pendingCacheWrite := true;
    }

    /** handlePan: moves the camera; it does not schedule a cache write. */
    method HandlePan(dx: real, dy: real)
      requires Valid()
      modifies this`state
      ensures Valid()
      ensures state == Panned(old(state), props, dx, dy)
    {
      state := Panned(state, props, dx, dy);
    }

    /**
     * handleZoom at pointer offset (px, py) (the pointer minus the canvas
     * origin) with the wheel's zoom factor; a no-op unless zooming is allowed.
     */
    method HandleZoom(px: real, py: real, factor: real)
      requires Valid()
      requires CanChangeZoom(props) ==> Invertible(state) && factor != 0.0
      modifies this`state, this`pendingCacheWrite
      ensures Valid()
      ensures if CanChangeZoom(props)
              then state == Zoomed(old(state), props, px, py, factor) && pendingCacheWrite
              else state == old(state) && pendingCacheWrite == old(pendingCacheWrite)
    {
      if CanChangeZoom(props) {
        state := Zoomed(state, props, px, py, factor);
        pendingCacheWrite := true;
      }
    }
  }

  // ---------------------------------------------------------------------------
  // Scenarios
  // ---------------------------------------------------------------------------

  /** Zoom limits as the layout provides them: bounds only, no camera fields. */
  predicate LimitsOnly(limits: ZoomState)
  {
    forall f :: f in limits ==> f in {MinScale, MaxScale, MinTranslateX, MaxTranslateX, MinTranslateY, MaxTranslateY}
  }

  /** Changes within one debounce window are coalesced into one write, holding the last state. */
  method CoalescedWrites(c: ZoomableCanvas, first: real, second: real)
    requires c.Valid() && !c.props.fixHorizontal
    requires !c.pendingCacheWrite && c.cacheWrites == []
    modifies c
    ensures c.cacheWrites == [c.PendingPayload()] && ScaleX in c.cacheWrites[0] && c.cacheWrites[0][ScaleX] == second
    ensures !c.pendingCacheWrite
  {
    c.HandleZoomControlAction(first);
    c.HandleZoomControlAction(second);
    assert c.state[ScaleX] == second;
    c.FireCacheTimer();
    assert c.cacheWrites == [CachableState(c.state, c.props.fixHorizontal, c.props.fixVertical)];
    c.FireCacheTimer();
    assert |c.cacheWrites| == 1;
  }

  /** A disabled canvas, or one without content, ignores the wheel: nothing moves and nothing is scheduled. */
  method ZoomIgnoredWhenDisallowed(p: CanvasProps, px: real, py: real, factor: real)
    returns (moved: bool, scheduled: bool)
    requires p.disabled || p.layoutZoomLimits == map[]
    ensures !moved && !scheduled
  {
    var c := new ZoomableCanvas(p);
    var before := c.state;
    c.HandleZoom(px, py, factor);
    moved := c.state != before;
    scheduled := c.pendingCacheWrite;
  }

  /** A write scheduled for one layout never lands once the layout has changed. */
  method CancelledOnLayoutChange(p: CanvasProps, next: CanvasProps, px: real, py: real)
    returns (landed: seq<ZoomState>)
    requires CanChangeZoom(p) && next.layoutId != p.layoutId
    requires p.layoutZoomState == map[] && LimitsOnly(p.layoutZoomLimits)
    ensures landed == []
  {
    var c := new ZoomableCanvas(p);
    c.DidMount();
    assert c.state == InitialState + p.layoutZoomLimits;
    assert ScaleX !in p.layoutZoomLimits && ScaleY !in p.layoutZoomLimits;
    assert Invertible(c.state);
    c.HandleZoom(px, py, 2.0);
    assert c.pendingCacheWrite;
    c.ReceiveProps(next);
    c.FireCacheTimer();
    assert c.cacheWrites == [];
    landed := c.cacheWrites;
  }
}
