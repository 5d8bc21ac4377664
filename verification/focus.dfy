/**
 * The focus layout of the graph view: when a node is selected it is moved
 * to the viewport centre, its neighbours are laid out on a circle around
 * it, and every edge touching any of them is redrawn as a straight line.
 * The selectors are modelled as plain functions of their inputs.
 */
module Focus {
  import opened Common
  import Viewport

  type NodeId = string
  type EdgeId = string

  /**
   * Math.sin, Math.cos, Math.sqrt and Math.PI. They are left uninterpreted:
   * every structural property below holds whatever these functions are.
   */
  datatype MathFns = MathFns(sin: real -> real, cos: real -> real, sqrt: real -> real, pi: real)

  // ---------------------------------------------------------------------------
  // d3 scaleThreshold and the circle density
  // ---------------------------------------------------------------------------

  ghost predicate Ascending(domain: seq<real>)
  {
    forall i, j :: 0 <= i < j < |domain| ==> domain[i] <= domain[j]
  }

  /** d3's bisectRight on an ascending domain: the number of thresholds at or below x. */
  function BisectRight(domain: seq<real>, x: real): (k: nat)
    requires Ascending(domain)
    ensures k <= |domain|
    ensures forall j :: 0 <= j < k ==> domain[j] <= x
    ensures forall j :: k <= j < |domain| ==> x < domain[j]
  {
    if |domain| == 0 || x < domain[0] then 0
    else
      var k := BisectRight(domain[1..], x);
      assert forall j :: 1 <= j < |domain| ==> domain[j] == domain[1..][j - 1];
      1 + k
  }

  /** A d3 threshold scale: the domain cuts the line into |domain| + 1 buckets, each mapped to one range value. */
  function Threshold(domain: seq<real>, range: seq<real>, x: real): (r: real)
    requires Ascending(domain) && |range| == |domain| + 1
    ensures forall k :: 0 <= k <= |domain| && (k == 0 || domain[k - 1] <= x) && (k == |domain| || x < domain[k])
                        ==> r == range[k]
  {
    range[BisectRight(domain, x)]
  }

  /** radiusDensity: circular layouts are a bit denser with three to six nodes. */
  function RadiusDensity(count: nat): (d: real)
    ensures count < 3 ==> d == 2.5
    ensures 3 <= count < 6 ==> d == 3.5
    ensures 6 <= count ==> d == 3.0
  {
    var domain, range := [3.0, 6.0], [2.5, 3.5, 3.0];
    var d := Threshold(domain, range, count as real);
    assert count < 3 ==> d == range[0];
    assert 3 <= count < 6 ==> domain[0] <= count as real && d == range[1];
    assert 6 <= count ==> domain[1] <= count as real && d == range[2];
    d
  }

  // ---------------------------------------------------------------------------
  // Viewport centre
  // ---------------------------------------------------------------------------

  /**
   * The content point shown in the middle of the canvas area left free by the
   * details panel: mapped forward by the camera (content * scale + translate)
   * it lands on the screen centre of that area.
   */
  function ViewportCenter(width: real, height: real, translateX: real, translateY: real, scale: real,
                          margins: Viewport.CanvasMargins, detailsPanelWidth: real): (c: Point)
    requires scale != 0.0
    ensures c.x * scale + translateX == ((width + margins.left) - detailsPanelWidth) / 2.0
    ensures c.y * scale + translateY == (height + margins.top) / 2.0
  {
    var halfWidth := ((width + margins.left) - detailsPanelWidth) / 2.0;
    var halfHeight := (height + margins.top) / 2.0;
    Point((-translateX + halfWidth) / scale, (-translateY + halfHeight) / scale)
  }

  // ---------------------------------------------------------------------------
  // Neighbours of the selected node
  // ---------------------------------------------------------------------------

  /** A topology node as far as the neighbour computation is concerned (a missing adjacency is the empty one). */
  datatype TopologyNode = TopologyNode(adjacency: seq<NodeId>)

  ghost predicate NoDuplicates(s: seq<NodeId>)
  {
    forall i, j :: 0 <= i < j < |s| ==> s[i] != s[j]
  }

  /**
   * n is a neighbour of the selection: the selection is a known node, n is not
   * the selection itself, and an edge runs between them in either direction.
   */
  ghost predicate IsNeighbor(selected: Option<NodeId>, nodes: map<NodeId, TopologyNode>, n: NodeId)
  {
    && Truthy(selected)
    && selected.value in nodes
    && n != selected.value
    && (n in nodes[selected.value].adjacency || (n in nodes && selected.value in nodes[n].adjacency))
  }

  /** lodash without: drops every occurrence of x, keeping the order of the rest. */
  function Without(s: seq<NodeId>, x: NodeId): (r: seq<NodeId>)
    ensures forall y :: y in r <==> y in s && y != x
    ensures multiset(r) == multiset(s)[x := 0]
  {
    if s == [] then []
    else
      var rest := Without(s[1..], x);
      assert s == [s[0]] + s[1..];
      if s[0] == x then rest else [s[0]] + rest
  }

  /** Dropping elements never introduces a duplicate. */
  lemma {:induction false} WithoutNoDuplicates(s: seq<NodeId>, x: NodeId)
    requires NoDuplicates(s)
    ensures NoDuplicates(Without(s, x))
  {
    if s != [] {
      forall i, j | 0 <= i < j < |s[1..]| ensures s[1..][i] != s[1..][j] {
        assert s[1..][i] == s[i + 1] && s[1..][j] == s[j + 1];
      }
      forall j | 0 <= j < |s[1..]| ensures s[1..][j] != s[0] {
        assert s[1..][j] == s[j + 1];
      }
      WithoutNoDuplicates(s[1..], x);
      var rest := Without(s[1..], x);
      if s[0] != x {
        var r := [s[0]] + rest;
        forall i, j | 0 <= i < j < |r| ensures r[i] != r[j] {
          assert r[j] == rest[j - 1] && r[j] in rest;
          if i > 0 {
            assert r[i] == rest[i - 1];
          }
        }
      }
    }
  }

  /** `without` works element by element: it keeps the order of what it does not drop. */
  lemma {:induction false} WithoutDistributes(a: seq<NodeId>, b: seq<NodeId>, x: NodeId)
    ensures Without(a + b, x) == Without(a, x) + Without(b, x)
    decreases |a|
  {
    if a == [] {
      assert a + b == b;
    } else {
      assert (a + b)[1..] == a[1..] + b;
      WithoutDistributes(a[1..], b, x);
    }
  }

  /**
   * selectedNodeNeighborsIdsSelector: the outgoing adjacency of the selected
   * node, then every node whose adjacency holds it, collected as an ordered set
   * and stripped of the selected id. The reverse edges are visited in the map's
   * iteration order, which the model leaves unspecified.
   */
  method SelectedNodeNeighborsIds(selected: Option<NodeId>, nodes: map<NodeId, TopologyNode>)
    returns (ids: seq<NodeId>)
    ensures NoDuplicates(ids)
    ensures forall n :: n in ids <==> IsNeighbor(selected, nodes, n)
  {
    var adjacent: seq<NodeId> := [];
    if !Truthy(selected) {
      return adjacent;
    }
    var sel := selected.value;
    if sel in nodes {
      var adjacency := nodes[sel].adjacency;
      var i := 0;
      while i < |adjacency|
        invariant 0 <= i <= |adjacency|
        invariant NoDuplicates(adjacent)
        invariant forall n :: n in adjacent <==> n in adjacency[..i]
      {
        if adjacency[i] !in adjacent {
          adjacent := adjacent + [adjacency[i]];
        }
        assert adjacency[..i + 1] == adjacency[..i] + [adjacency[i]];
        i := i + 1;
      }
      assert adjacency[..i] == adjacency;
      var rest := nodes.Keys;
      while rest != {}
        invariant rest <= nodes.Keys
        invariant NoDuplicates(adjacent)
        invariant forall n :: n in adjacent <==> n in adjacency || (n in nodes && n !in rest && sel in nodes[n].adjacency)
        decreases rest
      {
        var id :| id in rest;
        if sel in nodes[id].adjacency && id !in adjacent {
          adjacent := adjacent + [id];
        }
        rest := rest - {id};
      }
    }
    WithoutNoDuplicates(adjacent, sel);
    ids := Without(adjacent, sel);
  }

  // ---------------------------------------------------------------------------
  // Settings of the circular layout
  // ---------------------------------------------------------------------------

  datatype LayoutSettings = LayoutSettings(selectedScale: real, circularRadius: real, circularInnerAngle: real)

  /**
   * selectedNodesLayoutSettingsSelector. The selected node is zoomed to cover
   * at most a third of the expanse, shrunk by sqrt(count + 10) and divided by
   * the camera zoom; the circle radius is the expanse over the density, also
   * divided by the camera zoom; the angle step splits the full turn evenly.
   */
  function SelectedNodesLayoutSettings(scale: real, circularNodesIds: seq<NodeId>, viewportExpanse: real,
                                       nodeBaseSize: real, m: MathFns): (r: LayoutSettings)
    requires scale != 0.0 && nodeBaseSize != 0.0
    requires m.sqrt((|circularNodesIds| + 10) as real) != 0.0
    ensures r.selectedScale * scale * m.sqrt((|circularNodesIds| + 10) as real) * nodeBaseSize * 3.0 == viewportExpanse
    ensures r.circularRadius * RadiusDensity(|circularNodesIds|) * scale == viewportExpanse
    ensures |circularNodesIds| > 0 ==> r.circularInnerAngle * (|circularNodesIds| as real) == 2.0 * m.pi
  {
    var count := |circularNodesIds|;
    var maxScale := viewportExpanse / nodeBaseSize / 3.0;
    var shrinkFactor := m.sqrt((count + 10) as real);
    var selectedScale := maxScale / shrinkFactor / scale;
    var density := RadiusDensity(count);
    var circularRadius := viewportExpanse / density / scale;
    var circularInnerAngle := if count == 0 then 0.0 else (2.0 * m.pi) / (count as real);
    assert selectedScale * scale == maxScale / shrinkFactor;
    assert maxScale * nodeBaseSize * 3.0 == viewportExpanse;
    assert circularRadius * scale == viewportExpanse / density;
    LayoutSettings(selectedScale, circularRadius, circularInnerAngle)
  }

  /**
   * More neighbours never enlarge the selected node: with a positive expanse,
   * base size and zoom, and a square root that does not decrease, the
   * selected scale is non-increasing in the neighbour count.
   */
  lemma SelectedScaleNonIncreasing(scale: real, fewer: seq<NodeId>, more: seq<NodeId>,
                                   viewportExpanse: real, nodeBaseSize: real, m: MathFns)
    requires scale > 0.0 && nodeBaseSize > 0.0 && viewportExpanse >= 0.0
    requires |fewer| <= |more|
    requires 0.0 < m.sqrt((|fewer| + 10) as real) <= m.sqrt((|more| + 10) as real)
    ensures SelectedNodesLayoutSettings(scale, more, viewportExpanse, nodeBaseSize, m).selectedScale
         <= SelectedNodesLayoutSettings(scale, fewer, viewportExpanse, nodeBaseSize, m).selectedScale
  {
    var maxScale := viewportExpanse / nodeBaseSize / 3.0;
    var q1 := m.sqrt((|fewer| + 10) as real);
    var q2 := m.sqrt((|more| + 10) as real);
    assert maxScale >= 0.0;
    assert maxScale / q2 <= maxScale / q1 by {
      assert maxScale / q2 * q2 == maxScale;
      assert maxScale / q1 * q1 == maxScale;
      assert maxScale / q2 * q1 <= maxScale / q2 * q2;
    }
    var a := SelectedNodesLayoutSettings(scale, more, viewportExpanse, nodeBaseSize, m).selectedScale;
    var b := SelectedNodesLayoutSettings(scale, fewer, viewportExpanse, nodeBaseSize, m).selectedScale;
    assert a == maxScale / q2 / scale;
    assert b == maxScale / q1 / scale;
  }

  // ---------------------------------------------------------------------------
  // The layout rewrite
  // ---------------------------------------------------------------------------

  /** A laid-out node: its position and all its other fields. */
  datatype LayoutNode = LayoutNode(x: real, y: real, fields: map<string, string>)

  /** A laid-out edge: its endpoints, its drawn route and all its other fields. */
  datatype LayoutEdge = LayoutEdge(source: NodeId, target: NodeId, points: seq<Point>, fields: map<string, string>)

  datatype FocusedLayout = FocusedLayout(layoutNodes: map<NodeId, LayoutNode>,
                                         layoutEdges: map<EdgeId, LayoutEdge>,
                                         selectedScale: real)

  function Position(node: LayoutNode): Point
  {
    Point(node.x, node.y)
  }

  /** node.merge({x, y}) */
  function MoveTo(node: LayoutNode, p: Point): (r: LayoutNode)
    ensures Position(r) == p && r.fields == node.fields
  {
    node.(x := p.x, y := p.y)
  }

  /** Array.prototype.indexOf: the first index of x, or -1. */
  function IndexOf(s: seq<NodeId>, x: NodeId): (i: int)
    ensures -1 <= i < |s|
    ensures i == -1 <==> x !in s
    ensures 0 <= i ==> s[i] == x && x !in s[..i]
  {
    if s == [] then -1
    else if s[0] == x then 0
    else
      var j := IndexOf(s[1..], x);
      if j == -1 then -1
      else
        assert s[..j + 1] == [s[0]] + s[1..][..j];
        j + 1
  }

  /** The angle of the neighbour at index i: a fixed offset of pi/4, then one angle step per index. */
  function CircularAngle(settings: LayoutSettings, index: nat, m: MathFns): real
  {
    m.pi / 4.0 + (index as real) * settings.circularInnerAngle
  }

  /** The circle position of the neighbour at index i, measured clockwise from the top. */
  function CircularPosition(center: Point, settings: LayoutSettings, index: nat, m: MathFns): Point
  {
    Point(center.x + settings.circularRadius * m.sin(CircularAngle(settings, index, m)),
          center.y + settings.circularRadius * m.cos(CircularAngle(settings, index, m)))
  }

  /** The per-node step of the circular placement: neighbours move onto the circle, others stay. */
  function PlaceOnCircle(node: LayoutNode, id: NodeId, center: Point, neighborsIds: seq<NodeId>,
                         settings: LayoutSettings, m: MathFns): LayoutNode
  {
    var index := IndexOf(neighborsIds, id);
    if index > -1 then MoveTo(node, CircularPosition(center, settings, index, m)) else node
  }

  /** The edge touches the selected node or one of its neighbours. */
  predicate Reroutes(edge: LayoutEdge, selectedId: NodeId, neighborsIds: seq<NodeId>)
  {
    || edge.source == selectedId || edge.target == selectedId
    || edge.source in neighborsIds || edge.target in neighborsIds
  }

  /** Every edge that is redrawn has both endpoints in the layout (the source looks them up unguarded). */
  predicate EndpointsLaidOut(selectedId: NodeId, layoutNodes: map<NodeId, LayoutNode>,
                             layoutEdges: map<EdgeId, LayoutEdge>, neighborsIds: seq<NodeId>)
  {
    forall id :: id in layoutEdges && Reroutes(layoutEdges[id], selectedId, neighborsIds) ==>
      layoutEdges[id].source in layoutNodes && layoutEdges[id].target in layoutNodes
  }

  /** A straight two-point line between the current positions of the endpoints. */
  function Straighten(edge: LayoutEdge, layoutNodes: map<NodeId, LayoutNode>): LayoutEdge
    requires edge.source in layoutNodes && edge.target in layoutNodes
  {
    edge.(points := [Position(layoutNodes[edge.source]), Position(layoutNodes[edge.target])])
  }

  predicate Focusable(selected: Option<NodeId>, layoutNodes: map<NodeId, LayoutNode>)
  {
    selected.Some? && selected.value in layoutNodes
  }

  /** layoutWithSelectedNodeSelector */
  function LayoutWithSelectedNode(selected: Option<NodeId>, layoutNodes: map<NodeId, LayoutNode>,
                                  layoutEdges: map<EdgeId, LayoutEdge>, viewportCenter: Point,
                                  neighborsIds: seq<NodeId>, settings: LayoutSettings, m: MathFns): (r: FocusedLayout)
    requires Focusable(selected, layoutNodes) ==> EndpointsLaidOut(selected.value, layoutNodes, layoutEdges, neighborsIds)
    ensures r.selectedScale == settings.selectedScale
    ensures r.layoutNodes.Keys == layoutNodes.Keys && r.layoutEdges.Keys == layoutEdges.Keys
  {
    if !Focusable(selected, layoutNodes) then
      FocusedLayout(layoutNodes, layoutEdges, settings.selectedScale)
    else
      var sel := selected.value;
      var centered := layoutNodes[sel := MoveTo(layoutNodes[sel], viewportCenter)];
      var nodes := map id | id in centered :: PlaceOnCircle(centered[id], id, viewportCenter, neighborsIds, settings, m);
      var edges := map id | id in layoutEdges ::
        if Reroutes(layoutEdges[id], sel, neighborsIds) then Straighten(layoutEdges[id], nodes) else layoutEdges[id];
      FocusedLayout(nodes, edges, settings.selectedScale)
  }

  // ---------------------------------------------------------------------------
  // What the rewrite changes and what it keeps
  // ---------------------------------------------------------------------------

  /** Without the selected node in the layout, nodes and edges pass through untouched. */
  lemma PassThroughWithoutSelection(selected: Option<NodeId>, layoutNodes: map<NodeId, LayoutNode>,
                                    layoutEdges: map<EdgeId, LayoutEdge>, viewportCenter: Point,
                                    neighborsIds: seq<NodeId>, settings: LayoutSettings, m: MathFns)
    requires !Focusable(selected, layoutNodes)
    ensures LayoutWithSelectedNode(selected, layoutNodes, layoutEdges, viewportCenter, neighborsIds, settings, m)
         == FocusedLayout(layoutNodes, layoutEdges, settings.selectedScale)
  {
  }

  lemma IndexOfFirstOccurrence(s: seq<NodeId>, i: nat)
    requires i < |s| && s[i] !in s[..i]
    ensures IndexOf(s, s[i]) == i
  {
  }

  /**
   * Node placement: the selected node goes to the viewport centre (unless it
   * is also listed as a neighbour), the neighbour first listed at index i goes
   * to the i-th circle position, every other node keeps its position, and no
   * node loses or changes any field other than x and y.
   */
  lemma NodesPlaced(sel: NodeId, layoutNodes: map<NodeId, LayoutNode>,
                    layoutEdges: map<EdgeId, LayoutEdge>, viewportCenter: Point,
                    neighborsIds: seq<NodeId>, settings: LayoutSettings, m: MathFns)
    requires sel in layoutNodes && EndpointsLaidOut(sel, layoutNodes, layoutEdges, neighborsIds)
    ensures var r := LayoutWithSelectedNode(Some(sel), layoutNodes, layoutEdges, viewportCenter, neighborsIds, settings, m);
      && (sel !in neighborsIds ==> Position(r.layoutNodes[sel]) == viewportCenter)
      && (forall i :: 0 <= i < |neighborsIds| && neighborsIds[i] in layoutNodes && neighborsIds[i] !in neighborsIds[..i] ==>
            Position(r.layoutNodes[neighborsIds[i]]) == CircularPosition(viewportCenter, settings, i, m))
      && (forall id :: id in layoutNodes && id != sel && id !in neighborsIds ==> r.layoutNodes[id] == layoutNodes[id])
      && (forall id :: id in layoutNodes ==> r.layoutNodes[id].fields == layoutNodes[id].fields)
  {
    var r := LayoutWithSelectedNode(Some(sel), layoutNodes, layoutEdges, viewportCenter, neighborsIds, settings, m);
    forall i | 0 <= i < |neighborsIds| && neighborsIds[i] in layoutNodes && neighborsIds[i] !in neighborsIds[..i]
      ensures Position(r.layoutNodes[neighborsIds[i]]) == CircularPosition(viewportCenter, settings, i, m)
    {
      IndexOfFirstOccurrence(neighborsIds, i);
    }
  }

  /**
   * Edge re-routing: every edge touching the selected node or a neighbour
   * becomes exactly two points, the new positions of its source and target;
   * every other edge is untouched.
   */
  lemma EdgesRerouted(sel: NodeId, layoutNodes: map<NodeId, LayoutNode>,
                      layoutEdges: map<EdgeId, LayoutEdge>, viewportCenter: Point,
                      neighborsIds: seq<NodeId>, settings: LayoutSettings, m: MathFns)
    requires sel in layoutNodes && EndpointsLaidOut(sel, layoutNodes, layoutEdges, neighborsIds)
    ensures var r := LayoutWithSelectedNode(Some(sel), layoutNodes, layoutEdges, viewportCenter, neighborsIds, settings, m);
      && (forall id :: id in layoutEdges && Reroutes(layoutEdges[id], sel, neighborsIds) ==>
            && r.layoutEdges[id].source == layoutEdges[id].source
            && r.layoutEdges[id].target == layoutEdges[id].target
            && r.layoutEdges[id].fields == layoutEdges[id].fields
            && r.layoutEdges[id].points == [Position(r.layoutNodes[layoutEdges[id].source]),
                                            Position(r.layoutNodes[layoutEdges[id].target])])
      && (forall id :: id in layoutEdges && !Reroutes(layoutEdges[id], sel, neighborsIds) ==>
            r.layoutEdges[id] == layoutEdges[id])
  {
  }

  /** sin and cos obey sin(a)^2 + cos(a)^2 = 1. */
  ghost predicate Pythagorean(m: MathFns)
  {
    forall a :: m.sin(a) * m.sin(a) + m.cos(a) * m.cos(a) == 1.0
  }

  /** p lies at distance `radius` from `center`. */
  ghost predicate OnCircle(p: Point, center: Point, radius: real)
  {
    (p.x - center.x) * (p.x - center.x) + (p.y - center.y) * (p.y - center.y) == radius * radius
  }

  /**
   * Circular placement: if sin and cos satisfy the Pythagorean identity, every
   * neighbour in the layout ends up exactly the circle radius away from the
   * viewport centre.
   */
  lemma NeighborOnCircle(sel: NodeId, layoutNodes: map<NodeId, LayoutNode>,
                         layoutEdges: map<EdgeId, LayoutEdge>, viewportCenter: Point,
                         neighborsIds: seq<NodeId>, settings: LayoutSettings, m: MathFns, id: NodeId)
    requires sel in layoutNodes && EndpointsLaidOut(sel, layoutNodes, layoutEdges, neighborsIds)
    requires Pythagorean(m)
    requires id in layoutNodes && id in neighborsIds
    ensures OnCircle(Position(LayoutWithSelectedNode(Some(sel), layoutNodes, layoutEdges, viewportCenter,
                                                     neighborsIds, settings, m).layoutNodes[id]),
                     viewportCenter, settings.circularRadius)
  {
    NeighborPosition(sel, layoutNodes, layoutEdges, viewportCenter, neighborsIds, settings, m, id);
    CircularPositionOnCircle(viewportCenter, settings, IndexOf(neighborsIds, id), m);
  }

  lemma CircularPositionOnCircle(center: Point, settings: LayoutSettings, index: nat, m: MathFns)
    requires Pythagorean(m)
    ensures OnCircle(CircularPosition(center, settings, index, m), center, settings.circularRadius)
  {
    var angle := CircularAngle(settings, index, m);
    assert m.sin(angle) * m.sin(angle) + m.cos(angle) * m.cos(angle) == 1.0;
    ScaledUnitVector(settings.circularRadius, m.sin(angle), m.cos(angle));
  }

  /** Where a listed neighbour ends up: the circle position of its first index. */
  lemma NeighborPosition(sel: NodeId, layoutNodes: map<NodeId, LayoutNode>,
                         layoutEdges: map<EdgeId, LayoutEdge>, viewportCenter: Point,
                         neighborsIds: seq<NodeId>, settings: LayoutSettings, m: MathFns, id: NodeId)
    requires sel in layoutNodes && EndpointsLaidOut(sel, layoutNodes, layoutEdges, neighborsIds)
    requires id in layoutNodes && id in neighborsIds
    ensures Position(LayoutWithSelectedNode(Some(sel), layoutNodes, layoutEdges, viewportCenter, neighborsIds, settings, m).layoutNodes[id])
         == CircularPosition(viewportCenter, settings, IndexOf(neighborsIds, id), m)
  {
  }

  lemma ScaledUnitVector(rad: real, s: real, c: real)
    requires s * s + c * c == 1.0
    ensures (rad * s) * (rad * s) + (rad * c) * (rad * c) == rad * rad
  {
    calc {
      (rad * s) * (rad * s) + (rad * c) * (rad * c);
      rad * rad * (s * s + c * c);
      rad * rad;
    }
  }

  /**
   * Focusing is idempotent: re-running the rewrite on its own output with the
   * same selection, centre, neighbours and settings changes nothing more.
   */
  lemma {:induction false} FocusIdempotent(sel: NodeId, layoutNodes: map<NodeId, LayoutNode>,
                                           layoutEdges: map<EdgeId, LayoutEdge>, viewportCenter: Point,
                                           neighborsIds: seq<NodeId>, settings: LayoutSettings, m: MathFns)
    requires sel in layoutNodes && EndpointsLaidOut(sel, layoutNodes, layoutEdges, neighborsIds)
    ensures var r := LayoutWithSelectedNode(Some(sel), layoutNodes, layoutEdges, viewportCenter, neighborsIds, settings, m);
      EndpointsLaidOut(sel, r.layoutNodes, r.layoutEdges, neighborsIds)
      && LayoutWithSelectedNode(Some(sel), r.layoutNodes, r.layoutEdges, viewportCenter, neighborsIds, settings, m) == r
  {
    var r := LayoutWithSelectedNode(Some(sel), layoutNodes, layoutEdges, viewportCenter, neighborsIds, settings, m);
    EdgesRerouted(sel, layoutNodes, layoutEdges, viewportCenter, neighborsIds, settings, m);
    assert EndpointsLaidOut(sel, r.layoutNodes, r.layoutEdges, neighborsIds);
    var r2 := LayoutWithSelectedNode(Some(sel), r.layoutNodes, r.layoutEdges, viewportCenter, neighborsIds, settings, m);
    assert r2.layoutNodes == r.layoutNodes by {
      forall id | id in layoutNodes ensures r2.layoutNodes[id] == r.layoutNodes[id] {
        if IndexOf(neighborsIds, id) == -1 && id != sel {
        }
      }
    }
    EdgesRerouted(sel, r.layoutNodes, r.layoutEdges, viewportCenter, neighborsIds, settings, m);
    assert r2.layoutEdges == r.layoutEdges by {
      forall id | id in layoutEdges ensures r2.layoutEdges[id] == r.layoutEdges[id] {
        assert r.layoutEdges[id].source == layoutEdges[id].source;
        assert r.layoutEdges[id].target == layoutEdges[id].target;
      }
    }
  }
}
