/**
 * The older nodes chart: a pan/zoom camera held in component state, a flag
 * that tells the end of a pan or zoom from a click on the background, and
 * the write of the camera to the zoom cache.
 */
module Chart {
  import opened Common

  /** The zoom fields of the chart state; any other state field is kept by name. */
  datatype ChartField = PanTranslateX | PanTranslateY | ZoomScale | MinZoomScale | MaxZoomScale | Other(name: string)

  type ChartState = map<ChartField, real>

  /** ZOOM_CACHE_FIELDS */
  const ZoomCacheFields: set<ChartField> := {PanTranslateX, PanTranslateY, ZoomScale, MinZoomScale, MaxZoomScale}

  const InitialState: ChartState := map[
    ZoomScale := 0.0, MinZoomScale := 0.0, MaxZoomScale := 0.0, PanTranslateX := 0.0, PanTranslateY := 0.0]

  /** A d3-zoom transform: translate (x, y) and scale k. */
  datatype ZoomTransform = ZoomTransform(x: real, y: real, k: real)

  datatype ChartProps = ChartProps(selectedNodeId: Option<string>, topologyZoom: ChartState)

  /**
   * pick(state, ZOOM_CACHE_FIELDS): the five zoom fields with their values
   * and nothing else; when the state has all five, exactly those five.
   */
  function ZoomCacheState(s: ChartState): (r: ChartState)
    ensures forall f :: f in r <==> f in s && f in ZoomCacheFields
    ensures forall f :: f in r ==> r[f] == s[f]
    ensures ZoomCacheFields <= s.Keys ==> r.Keys == ZoomCacheFields
  {
    map f | f in s && f in ZoomCacheFields :: s[f]
  }

  class NodesChart {
    var props: ChartProps
    var state: ChartState
    /** Set by every zoom or pan event, cleared by the click that ends it. */
    var isZooming: bool
    /** How many times clickBackground has been dispatched. */
    var backgroundClicks: nat
    /** The payloads handed to cacheZoomState so far, oldest first. */
    var cacheWrites: seq<ChartState>

    constructor (props: ChartProps)
      ensures this.props == props && state == InitialState
      ensures !isZooming && backgroundClicks == 0 && cacheWrites == []
    {
      this.props := props;
      state := InitialState;
      isZooming := false;
      backgroundClicks := 0;
      cacheWrites := [];
    }

    /** componentDidMount: no pan or zoom is in progress yet. */
    method DidMount()
      modifies this`isZooming
      ensures !isZooming
    {
      isZooming := false;
    }

    /**
     * componentWillReceiveProps: the topology's zoom fields override the state,
     * the other fields stay. Applying the zoom state to the d3 zoom behaviour
     * emits a zoom event synchronously, so `zoomed` runs and marks a zoom in
     * progress; the camera it copies is the one being set, so the state ends
     * up the same either way.
     */
    method ReceiveProps(next: ChartProps)
      modifies this`state, this`props, this`isZooming
      ensures isZooming
      ensures state.Keys == old(state).Keys + next.topologyZoom.Keys
      ensures forall f :: f in next.topologyZoom ==> state[f] == next.topologyZoom[f]
      ensures forall f :: f in old(state) && f !in next.topologyZoom ==> state[f] == old(state)[f]
      ensures props == next
    {
      state := state + next.topologyZoom;
      isZooming := true;
      props := next;
    }

    /** cacheZoom: writes exactly the zoom cache fields of the state. */
    method CacheZoom()
      modifies this`cacheWrites
      ensures cacheWrites == old(cacheWrites) + [ZoomCacheState(state)]
    {
      cacheWrites := cacheWrites + [ZoomCacheState(state)];
    }

    /**
     * handleMouseClick: a click is a background click unless it ends a pan or
     * zoom while nothing is selected; such a click only clears the flag.
     */
    method HandleMouseClick()
      modifies this`isZooming, this`backgroundClicks
      ensures if !old(isZooming) || Truthy(props.selectedNodeId)
              then backgroundClicks == old(backgroundClicks) + 1 && isZooming == old(isZooming)
              else backgroundClicks == old(backgroundClicks) && !isZooming
    {
      if !isZooming || Truthy(props.selectedNodeId) {
        backgroundClicks := backgroundClicks + 1;
      } else {
        isZooming := false;
      }
    }

    /** zoomed: marks a zoom in progress; the camera follows the event only while nothing is selected. */
    method Zoomed(t: ZoomTransform)
      modifies this`isZooming, this`state
      ensures isZooming
      ensures state == if Truthy(props.selectedNodeId) then old(state)
                       else old(state)[PanTranslateX := t.x][PanTranslateY := t.y][ZoomScale := t.k]
    {
      isZooming := true;
      if !Truthy(props.selectedNodeId) {
        state := state[PanTranslateX := t.x][PanTranslateY := t.y][ZoomScale := t.k];
      }
    }
  }

  /** The click that ends a pan is swallowed; the next click reaches the background. */
  method ClickAfterPan(c: NodesChart, t: ZoomTransform) returns (afterFirst: nat)
    requires !Truthy(c.props.selectedNodeId)
    modifies c
    ensures afterFirst == old(c.backgroundClicks)
    ensures c.backgroundClicks == afterFirst + 1 && !c.isZooming
  {
    c.Zoomed(t);
    c.HandleMouseClick();
    afterFirst := c.backgroundClicks;
    c.HandleMouseClick();
  }
}
