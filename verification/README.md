# Focused graph layout and zoomable camera

A Dafny model of the graph view of the Scope client. It covers two parts.

The first is the **focus layout**. When a node is selected, it moves to the centre of the area that the details panel leaves free. Its neighbours are laid out on a circle around it. Every edge that touches any of these nodes is redrawn as a straight two-point line. The node scale and circle radius follow the viewport "expanse" (its shorter usable side), the number of neighbours and the current zoom.

The second is the **camera** of the zoomable canvas, the zoomable view and the older nodes chart. The camera is a translate and a scale per axis. Panning can be bounded by zoom limits. Zooming keeps the content point under the pointer fixed. A zoom control can set an explicit scale. The canvas and the view write the camera to a per-layout zoom cache through a debounced call, and restore it from that cache. The node details label list (five rows, or all of them) is included as well.

Modules:

- `Common`: `Option`, `Point`, JavaScript truthiness of an id, `Math.max` and `Math.min`.
- `Viewport` (`selectors/viewport.js`): usable width, height and expanse.
- `Focus` (`selectors/nodes-chart-focus.js`): the selectors as functions, plus one method.
  - The neighbour selector is a method, because it collects its result step by step.
  - `Math.sin`, `Math.cos`, `Math.sqrt` and `Math.PI` are an uninterpreted `MathFns` parameter.
  - Where a property needs trigonometry, it assumes only the Pythagorean identity of that parameter.
- `Canvas` (`components/zoomable-canvas.js`):
  - pure functions for the camera updates (pan, zoom, zoom control, restore, cachable part);
  - the class `ZoomableCanvas`, whose methods update `props`, `state`, `zoomRestored`, the pending debounced write and the log of cache writes.
- `View` (`components/zoomable-view.js`): the class `ZoomableView`, with the same restore and cancel protocol over a state that starts empty.
- `Chart` (`charts/nodes-chart.js`): the class `NodesChart`. It holds the pan and zoom fields, the `isZooming` flag that tells a click that ends a pan from a background click, and the cache payload.
- `Labels` (`components/node-details/node-details-labels.js`): the row limiting of the label list and the class holding its `limit`.

The debounce is modelled as the flag `pendingCacheWrite`:

- scheduling sets it;
- `cancel()` clears it;
- the method `FireCacheTimer` stands for the interval elapsing. When a write is pending, it appends the payload computed from the state *at that moment* to `cacheWrites`.

Several triggers in one window therefore give one write, holding the last state.

Behaviour of the code that the model keeps:

- Pan does not schedule a cache write. `handlePan` (zoomable-canvas.js:199-215) only sets state.
- Zoom does not clamp the scale to the zoom limits. `handleZoom` (zoomable-canvas.js:217-257) divides the scale by the factor without any bound.
- The neighbour-circle density is a d3 threshold scale with domain [3, 6]. The density is 2.5 for fewer than 3 neighbours, 3.5 for 3 to 5, and 3 for 6 or more. A count equal to a threshold falls in the upper bucket: exactly 3 neighbours get 3.5, exactly 6 get 3.
- Degenerate translate limits (min > max) are not skipped. `Math.max` is applied with the lower bound and then `Math.min` with the upper one, so the upper bound wins (`Canvas.Clamp`).
- On a layout change without a cache entry, the state is not reset to defaults. The limits are merged in and the old camera stays until the user acts.

## Model

| member | source | states |
|---|---|---|
| Viewport.ViewportWidth | client/app/scripts/selectors/viewport.js:6-11 | the usable width plus the left and right canvas margins is the raw width |
| Viewport.ViewportHeight | client/app/scripts/selectors/viewport.js:13-18 | the usable height plus the top margin is the raw height |
| Viewport.ViewportExpanse | client/app/scripts/selectors/viewport.js:20-27 | the expanse is the smaller of usable width and height: at most both, equal to one |
| Viewport.ExpanseMonotone | client/app/scripts/selectors/viewport.js:20-27 | a larger window never has a smaller expanse |
| Focus.BisectRight | client/app/scripts/selectors/nodes-chart-focus.js:15-17 | on an ascending domain, the result splits it into the thresholds at or below x and those above x |
| Focus.Threshold | client/app/scripts/selectors/nodes-chart-focus.js:15-17 | a threshold scale maps every x in bucket k (between thresholds k-1 and k) to range value k |
| Focus.RadiusDensity | client/app/scripts/selectors/nodes-chart-focus.js:14-17 | density 2.5 below 3 neighbours, 3.5 from 3 to 5, 3 from 6 on |
| Focus.ViewportCenter | client/app/scripts/selectors/nodes-chart-focus.js:20-38 | the returned content point, mapped forward by the camera (content * scale + translate), lands on the centre of the canvas area left of the details panel |
| Focus.Without | client/app/scripts/selectors/nodes-chart-focus.js:64 | lodash `without`: every occurrence of x is dropped and every other element keeps its number of occurrences (so y is in the result iff y is in the input and differs from x) |
| Focus.WithoutDistributes | client/app/scripts/selectors/nodes-chart-focus.js:64 | `without` of a concatenation is the concatenation of the two `without`s, so the order of the kept elements is the input order |
| Focus.WithoutNoDuplicates | client/app/scripts/selectors/nodes-chart-focus.js:64 | dropping elements from a list without duplicates leaves a list without duplicates |
| Focus.SelectedNodeNeighborsIds | client/app/scripts/selectors/nodes-chart-focus.js:43-66 | the result has no duplicates and holds exactly the nodes adjacent to the selected one in either direction, never the selected one; it is empty when nothing (or an unknown node) is selected |
| Focus.SelectedNodesLayoutSettings | client/app/scripts/selectors/nodes-chart-focus.js:68-96 | selected scale × zoom × sqrt(count + 10) × base size × 3 = expanse; radius × density(count) × zoom = expanse; angle step × count = 2π when there are neighbours |
| Focus.SelectedScaleNonIncreasing | client/app/scripts/selectors/nodes-chart-focus.js:77-87 | with a positive zoom and base size and a monotone square root, more neighbours never give a larger selected scale |
| Focus.MoveTo | client/app/scripts/selectors/nodes-chart-focus.js:116 | a merge of x and y moves the node to the point and keeps all its other fields |
| Focus.IndexOf | client/app/scripts/selectors/nodes-chart-focus.js:120 | `indexOf`: -1 iff absent; otherwise an index holding x with no earlier occurrence |
| Focus.IndexOfFirstOccurrence | client/app/scripts/selectors/nodes-chart-focus.js:120 | the index of a first occurrence is found exactly |
| Focus.LayoutWithSelectedNode | client/app/scripts/selectors/nodes-chart-focus.js:98-149 | the rewrite keeps the set of node ids and edge ids and passes the selected scale through |
| Focus.PassThroughWithoutSelection | client/app/scripts/selectors/nodes-chart-focus.js:110-113 | when the selected node is not in the layout, nodes and edges are returned unchanged |
| Focus.NodesPlaced | client/app/scripts/selectors/nodes-chart-focus.js:115-129 | the selected node sits at the viewport centre (unless it is listed as its own neighbour); the neighbour first listed at index i is at the i-th circle position; every other node is unchanged; no node's other fields change |
| Focus.EdgesRerouted | client/app/scripts/selectors/nodes-chart-focus.js:131-145 | an edge touching the selection or a neighbour becomes exactly the two new positions of its endpoints, with source, target and other fields kept; every other edge is unchanged |
| Focus.NeighborPosition | client/app/scripts/selectors/nodes-chart-focus.js:119-127 | a neighbour in the layout is placed at the circle position of its first index |
| Focus.CircularPositionOnCircle | client/app/scripts/selectors/nodes-chart-focus.js:122-126 | if sin² + cos² = 1, every circle position is at the circle radius from the centre |
| Focus.NeighborOnCircle | client/app/scripts/selectors/nodes-chart-focus.js:118-129 | if sin² + cos² = 1, every neighbour ends up at exactly the circle radius from the viewport centre |
| Focus.FocusIdempotent | client/app/scripts/selectors/nodes-chart-focus.js:98-149 | running the rewrite again on its own output, with the same inputs, changes nothing |
| Canvas.Pick | client/app/scripts/components/zoomable-canvas.js:145 | lodash `pick`: the keys are those of the state that are listed, with their values |
| Canvas.CachableState | client/app/scripts/components/zoomable-canvas.js:138-146 | a field is kept iff it is present and is the scale or translate of an axis that is not fixed; values are unchanged |
| Canvas.Clamp | client/app/scripts/components/zoomable-canvas.js:207-211 | the result never exceeds a defined upper bound; a value below a consistent lower bound becomes that bound; a value above the upper bound, or any value when the lower bound exceeds the upper one, becomes the upper bound; a value already inside is kept |
| Canvas.CanChangeZoom | client/app/scripts/components/zoomable-canvas.js:193-197 | zooming is allowed iff the canvas is not disabled and its zoom limits are not empty |
| Canvas.Panned | client/app/scripts/components/zoomable-canvas.js:199-215 | a free axis moves its translate by the delta, clamped to the translate limits when bounded; a fixed axis and every other field are unchanged |
| Canvas.PansCompose | client/app/scripts/components/zoomable-canvas.js:199-215 | unbounded, panning by a and then b equals panning by a + b |
| Canvas.BoundedPanStaysInLimits | client/app/scripts/components/zoomable-canvas.js:203-212 | a bounded pan with consistent limits leaves the horizontal translate inside them |
| Canvas.Inverse | client/app/scripts/components/zoomable-canvas.js:225-228 | `inverse`: the returned content point mapped forward by the camera is the screen point |
| Canvas.ZoomAxis | client/app/scripts/components/zoomable-canvas.js:238-245 | one axis of the zoom: the new scale times the factor is the old scale, and the content coordinate under the pointer is unchanged |
| Canvas.ZoomAxisRoundTrip | client/app/scripts/components/zoomable-canvas.js:238-245 | zooming one axis by the inverse factor at the same pointer restores it exactly |
| Canvas.Zoomed | client/app/scripts/components/zoomable-canvas.js:217-257 | each free axis is zoomed around the pointer; fixed axes and all other fields are unchanged; the camera stays invertible |
| Canvas.ZoomKeepsPointerFixed | client/app/scripts/components/zoomable-canvas.js:225-245 | the content point under the pointer is the same before and after a zoom |
| Canvas.ZoomRoundTrip | client/app/scripts/components/zoomable-canvas.js:217-257 | zooming by a factor and then by its inverse at the same pointer gives back the state |
| Canvas.ScaledTo | client/app/scripts/components/zoomable-canvas.js:88-98 | every free axis gets the given scale; the fixed scales, translates and all other fields are unchanged |
| Canvas.Restored | client/app/scripts/components/zoomable-canvas.js:178-191 | an empty cache entry changes nothing; otherwise the entry's fields override and all others are kept |
| Canvas.ZoomableCanvas.constructor | client/app/scripts/components/zoomable-canvas.js:25-46 | the state is the initial camera and limits, holding every field; nothing is restored or pending |
| Canvas.ZoomableCanvas.UpdateZoomLimits | client/app/scripts/components/zoomable-canvas.js:152-175 | the limits are merged into the state |
| Canvas.ZoomableCanvas.RestoreZoomState | client/app/scripts/components/zoomable-canvas.js:177-191 | the state becomes `Restored` of the entry; the flag is set iff the entry is non-empty (or was already set) |
| Canvas.ZoomableCanvas.DidMount | client/app/scripts/components/zoomable-canvas.js:48-58 | the limits are merged, then the cache entry restored; restored iff the entry is non-empty |
| Canvas.ZoomableCanvas.WillUnmount | client/app/scripts/components/zoomable-canvas.js:60-63 | no write is pending afterwards |
| Canvas.ZoomableCanvas.ReceiveProps | client/app/scripts/components/zoomable-canvas.js:65-86 | a new layout id or forced relayout cancels the pending write and forgets the restoration; limits are always merged; the cache entry is applied only when not restored |
| Canvas.ZoomableCanvas.CacheZoom | client/app/scripts/components/zoomable-canvas.js:148-150 | exactly one payload is appended: the cachable part of the current state |
| Canvas.ZoomableCanvas.FireCacheTimer | client/app/scripts/components/zoomable-canvas.js:41 | a pending write lands once, with the state as it is when the timer fires; without one nothing is written |
| Canvas.ZoomableCanvas.HandleZoomControlAction | client/app/scripts/components/zoomable-canvas.js:88-98 | the state becomes `ScaledTo` the scale and a write is pending |
| Canvas.ZoomableCanvas.HandlePan | client/app/scripts/components/zoomable-canvas.js:199-215 | the state becomes `Panned`; nothing is scheduled |
| Canvas.ZoomableCanvas.HandleZoom | client/app/scripts/components/zoomable-canvas.js:217-257 | when zooming is allowed the state becomes `Zoomed` and a write is pending; otherwise nothing changes |
| Canvas.CoalescedWrites | client/app/scripts/components/zoomable-canvas.js:88-98 | for any two scales set in one debounce window, exactly one write lands, holding the later scale |
| Canvas.ZoomIgnoredWhenDisallowed | client/app/scripts/components/zoomable-canvas.js:217-218 | on a disabled canvas, or one without zoom limits, a wheel event moves nothing and schedules no write |
| Canvas.CancelledOnLayoutChange | client/app/scripts/components/zoomable-canvas.js:65-86 | a write scheduled before a layout change never lands |
| View.ZoomableView.constructor | client/app/scripts/components/zoomable-view.js:16-23 | the state is empty; nothing is restored or pending |
| View.ZoomableView.RestoreZoomState | client/app/scripts/components/zoomable-view.js:64-73 | the state becomes `Restored` of the entry; the flag is set iff the entry is non-empty (or was already set) |
| View.ZoomableView.DidMount | client/app/scripts/components/zoomable-view.js:25-28 | the restoration is forgotten, then the cache entry is applied |
| View.ZoomableView.WillUnmount | client/app/scripts/components/zoomable-view.js:30-32 | no write is pending afterwards |
| View.ZoomableView.ReceiveProps | client/app/scripts/components/zoomable-view.js:34-48 | a new layout id or forced relayout cancels the pending write and forgets the restoration; the cache entry is applied only when not restored |
| View.ZoomableView.CacheZoom | client/app/scripts/components/zoomable-view.js:60-62 | the whole state is appended as one payload |
| View.ZoomableView.FireCacheTimer | client/app/scripts/components/zoomable-view.js:21 | a pending write lands once, with the state as it is when the timer fires |
| View.ZoomableView.UpdateState | client/app/scripts/components/zoomable-view.js:75-78 | the reported fields override, the other fields stay, and a write is pending |
| View.LastUpdateWins | client/app/scripts/components/zoomable-view.js:75-78 | after two updates in one window, the single write holds the fields of the later update |
| Chart.ZoomCacheState | client/app/scripts/charts/nodes-chart.js:87-90 | a field is in the payload iff it is in the state and is one of the five zoom cache fields; values are unchanged |
| Chart.NodesChart.constructor | client/app/scripts/charts/nodes-chart.js:21-35 | the five zoom fields start at 0 |
| Chart.NodesChart.DidMount | client/app/scripts/charts/nodes-chart.js:37-44 | no pan or zoom is in progress |
| Chart.NodesChart.ReceiveProps | client/app/scripts/charts/nodes-chart.js:56-64 | the topology zoom fields override the state and all other fields are kept; the zoom event that applying them emits leaves a zoom marked in progress |
| Chart.NodesChart.CacheZoom | client/app/scripts/charts/nodes-chart.js:87-90 | exactly the zoom cache fields of the state are written |
| Chart.NodesChart.HandleMouseClick | client/app/scripts/charts/nodes-chart.js:92-98 | a click counts as a background click unless it ends a pan or zoom while nothing is selected; in that case it only clears the flag |
| Chart.NodesChart.Zoomed | client/app/scripts/charts/nodes-chart.js:107-117 | a zoom is marked in progress; the pan and zoom follow the event only while no node is selected |
| Chart.ClickAfterPan | client/app/scripts/charts/nodes-chart.js:92-117 | after a pan with nothing selected, the first click leaves the background-click count unchanged and clears the flag; the next one reaches the background |
| Labels.HasNotShownMatch | client/app/scripts/components/node-details/node-details-labels.js:30-31 | true iff some row at or beyond the limit has its id among the matches |
| Labels.LimitRows | client/app/scripts/components/node-details/node-details-labels.js:23-36 | the rows shown are a prefix of the rows; they are cut to the limit exactly when the list is longer than a nonzero limit and no hidden row matches, and then "not shown" is the length minus five; expanded iff the limit is 0 |
| Labels.NotShownCountsHiddenRows | client/app/scripts/components/node-details/node-details-labels.js:26-35 | with the limit at 0 or 5, "not shown" equals the number of rows actually hidden |
| Labels.NodeDetailsLabels.constructor | client/app/scripts/components/node-details/node-details-labels.js:9-16 | the limit starts at the default of five |
| Labels.NodeDetailsLabels.Render | client/app/scripts/components/node-details/node-details-labels.js:23-36 | with the component's own limit: all rows when expanded, otherwise at most five unless a hidden row matches, and exactly the first five when the limit is five, more than five rows exist and none beyond them matches; "not shown" is exactly the number of rows left out; the result is the row limiting of `Labels.LimitRows` at the current limit |
| Labels.NodeDetailsLabels.HandleLimitClick | client/app/scripts/components/node-details/node-details-labels.js:18-21 | the limit toggles between 0 and five |
| Labels.ToggleTwice | client/app/scripts/components/node-details/node-details-labels.js:18-21 | two clicks restore the limit |

## Left out

- React rendering, `connect` and `mapStateToProps`, and the memoisation of `reselect`: the selectors are plain functions of their inputs.
- The d3 bindings: `select`, `drag`, the `zoom` behaviour, the scale extent and transform set by `applyZoomState`, and the unmount clean-up of the nodes chart. Of `applyZoomState`, only the zoom event it emits is kept, as the `isZooming` flag it sets. A drag or wheel event reaches the model as its delta, pointer offset or transform.
- The pointer offset of `handleZoom` (the client position minus the canvas's bounding rectangle) and the wheel's `zoomFactor` are parameters.
- Debounce timing: the model is ordered, not timed. `FireCacheTimer` stands for the quiet interval elapsing.
- `cacheZoomState` and `clickBackground` are recorded calls (the `cacheWrites` log and the `backgroundClicks` counter). The store behind them is not part of this model.
- Floating point: numbers are exact reals. `Math.sin`, `Math.cos`, `Math.sqrt` and `Math.PI` are parameters.
- Focus.SelectedNodesLayoutSettings: with no neighbours the source's angle step is Infinity. That value is never read, and the model uses 0.
- Canvas.ZoomableCanvas.HandleZoom: requires a nonzero factor and nonzero scales on both axes, fixed ones included. The source would compute Infinity or NaN there. On a fixed axis that value is dropped by `cachableState`, so a zero scale on a fixed axis is harmless in the source, and the model does not cover that case.
- Focus.ViewportCenter: requires a nonzero zoom for the same reason.
- Focus.SelectedNodesLayoutSettings: requires a nonzero zoom, base size and square root, for the same reason.
- `CANVAS_MARGINS`, `NODE_BASE_SIZE` and `DETAILS_PANEL_WIDTH` come from `constants/styles.js`, which is not part of this model. They are parameters.
- `nodes-chart-layout.js`, `nodes-chart-zoom.js` and `nodes-chart-elements.js` are not part of this model. The base layout, the cached zoom of a layout and the layout id are inputs.
- Focus.SelectedNodeNeighborsIds: the order in which reverse edges are added follows the iteration order of the node map. The model leaves that order unspecified, so its contract states the set of neighbours and the absence of duplicates, not their order.
- Focus.SelectedNodeNeighborsIds: a node without an adjacency list is modelled with an empty one.
- Focus.LayoutWithSelectedNode: requires that every redrawn edge has both endpoints in the layout, because the source looks them up unguarded.
- Node and edge fields other than position and route are an opaque string map.
- Commented-out code (the d3 zoom triggers, translate extents and the old `zoomed` handler of the canvas) is not modelled.
- The label list's rendering (`MatchedText`, `ShowMore`) is left out. Only the rows, the "not shown" count and the expanded flag handed to them are modelled.
