/**
 * The workflow canvas: the bounding box of the node boxes, the padded view
 * fitted around it, drag-to-pan and cursor-anchored wheel zoom of the SVG
 * viewBox, and the list of connectors drawn between named nodes.
 */
module Canvas {
  import opened Wrappers
  import opened Types
  import opened Seqs

  datatype Bounds = Bounds(minX: real, minY: real, maxX: real, maxY: real)

  /** The SVG viewBox: top-left corner and size in canvas units. */
  datatype ViewBox = ViewBox(x: real, y: real, w: real, h: real)

  /** The bounds reported for a workflow without nodes. */
  const DefaultBounds := Bounds(0.0, 0.0, 1600.0, 1200.0)

  const InitialViewBox := ViewBox(0.0, 0.0, 1600.0, 1200.0)

  /** Total padding added to each dimension; half of it on each side. */
  const Padding: real := 200.0

  function Min(a: real, b: real): real { if a <= b then a else b }
  function Max(a: real, b: real): real { if a >= b then a else b }

  // ---------------------------------------------------------------------------
  // Bounds

  /** Every node's box lies within `b`. */
  ghost predicate Encloses(b: Bounds, nodes: seq<Node>) {
    forall i :: 0 <= i < |nodes| ==>
      b.minX <= nodes[i].position.x && nodes[i].position.x + NodeWidth <= b.maxX &&
      b.minY <= nodes[i].position.y && nodes[i].position.y + NodeHeight <= b.maxY
  }

  /** Each side of `b` is touched by some node's box. */
  ghost predicate Touches(b: Bounds, nodes: seq<Node>) {
    && (exists i :: 0 <= i < |nodes| && nodes[i].position.x == b.minX)
    && (exists i :: 0 <= i < |nodes| && nodes[i].position.y == b.minY)
    && (exists i :: 0 <= i < |nodes| && nodes[i].position.x + NodeWidth == b.maxX)
    && (exists i :: 0 <= i < |nodes| && nodes[i].position.y + NodeHeight == b.maxY)
  }

  /** `b` is the smallest box around the node boxes. */
  ghost predicate IsTightBounds(b: Bounds, nodes: seq<Node>) {
    Encloses(b, nodes) && Touches(b, nodes)
  }

  /** Tight bounds are unique, so IsTightBounds fully specifies the result. */
  lemma TightBoundsUnique(b1: Bounds, b2: Bounds, nodes: seq<Node>)
    requires IsTightBounds(b1, nodes) && IsTightBounds(b2, nodes)
    ensures b1 == b2
  {
    var i1 :| 0 <= i1 < |nodes| && nodes[i1].position.x == b1.minX;
    var i2 :| 0 <= i2 < |nodes| && nodes[i2].position.x == b2.minX;
    var j1 :| 0 <= j1 < |nodes| && nodes[j1].position.y == b1.minY;
    var j2 :| 0 <= j2 < |nodes| && nodes[j2].position.y == b2.minY;
    var k1 :| 0 <= k1 < |nodes| && nodes[k1].position.x + NodeWidth == b1.maxX;
    var k2 :| 0 <= k2 < |nodes| && nodes[k2].position.x + NodeWidth == b2.maxX;
    var l1 :| 0 <= l1 < |nodes| && nodes[l1].position.y + NodeHeight == b1.maxY;
    var l2 :| 0 <= l2 < |nodes| && nodes[l2].position.y + NodeHeight == b2.maxY;
  }

  /** `calculateBounds`: the default bounds for no nodes, otherwise the
      running minimum of the left/top edges and maximum of the right/bottom
      edges of the node boxes. */
  method CalculateBounds(nodes: seq<Node>) returns (b: Bounds)
    ensures |nodes| == 0 ==> b == DefaultBounds
    ensures |nodes| > 0 ==> IsTightBounds(b, nodes)
  {
    if |nodes| == 0 {
      return DefaultBounds;
    }
    var first := nodes[0].position;
    var minX, minY := first.x, first.y;
    var maxX, maxY := first.x + NodeWidth, first.y + NodeHeight;
    var i := 1;
    while i < |nodes|
      invariant 1 <= i <= |nodes|
      invariant IsTightBounds(Bounds(minX, minY, maxX, maxY), nodes[..i])
    {
      var p := nodes[i].position;
      ghost var prefix := nodes[..i + 1];
      assert prefix[..i] == nodes[..i] && prefix[i] == nodes[i];
      minX := Min(minX, p.x);
      minY := Min(minY, p.y);
      maxX := Max(maxX, p.x + NodeWidth);
      maxY := Max(maxY, p.y + NodeHeight);
      i := i + 1;
    }
    assert nodes[..i] == nodes;
    b := Bounds(minX, minY, maxX, maxY);
  }

  /** The bounds a viewBox frames once the padding on each side is removed. */
  function Unpadded(v: ViewBox): Bounds {
    Bounds(v.x + Padding / 2.0, v.y + Padding / 2.0, v.x + v.w - Padding / 2.0, v.y + v.h - Padding / 2.0)
  }

  /** The fitted viewBox: the bounds with half the padding on every side. */
  function FitViewBox(b: Bounds): (v: ViewBox)
    ensures Unpadded(v) == b
  {
    ViewBox(b.minX - Padding / 2.0, b.minY - Padding / 2.0,
            (b.maxX - b.minX) + Padding, (b.maxY - b.minY) + Padding)
  }

  /** Fitting and unpadding are inverse in the other direction as well. */
  lemma FitUnpadded(v: ViewBox)
    ensures FitViewBox(Unpadded(v)) == v
  {
  }

  /** A fitted view of a non-empty workflow is at least one node box plus the
      padding in each dimension, and keeps a 100-unit margin around every node. */
  lemma FittedViewBoxSize(b: Bounds, nodes: seq<Node>)
    requires |nodes| > 0 && IsTightBounds(b, nodes)
    ensures FitViewBox(b).w >= NodeWidth + Padding && FitViewBox(b).h >= NodeHeight + Padding
    ensures forall i :: 0 <= i < |nodes| ==>
      Rect(FitViewBox(b).x + 100.0, FitViewBox(b).y + 100.0, FitViewBox(b).w - 200.0, FitViewBox(b).h - 200.0)
        .ContainsRect(NodeBox(nodes[i]))
  {
    assert NodeBox(nodes[0]).x == nodes[0].position.x;
  }

  // ---------------------------------------------------------------------------
  // Pan and zoom

  datatype CanvasState = CanvasState(viewBox: ViewBox, isDragging: bool, startPoint: Point)

  const InitialCanvas := CanvasState(InitialViewBox, false, Point(0.0, 0.0))

  /** The horizontal and vertical scale entries (a and d) of the SVG
      element's screen transformation matrix. */
  datatype ScreenScale = ScreenScale(a: real, d: real)

  predicate Invertible(ctm: Option<ScreenScale>) {
    ctm.Some? ==> ctm.value.a != 0.0 && ctm.value.d != 0.0
  }

  /** `onMouseDown`: start dragging, anchored at the pointer. */
  function MouseDown(s: CanvasState, client: Point): (r: CanvasState)
    ensures r.isDragging && r.startPoint == client && r.viewBox == s.viewBox
  {
    s.(isDragging := true, startPoint := client)
  }

  /** `onMouseUp` and `onMouseLeave`: stop dragging and nothing else. */
  function MouseUp(s: CanvasState): (r: CanvasState)
    ensures !r.isDragging && r.viewBox == s.viewBox && r.startPoint == s.startPoint
  {
    s.(isDragging := false)
  }

  /** `onMouseMove` with the pointer at `client`; `ctm` is None when the SVG
      element or its screen matrix is unavailable.  While dragging, the view
      moves against the pointer by the pointer's displacement in canvas
      units, and the anchor follows the pointer. */
  function MouseMove(s: CanvasState, client: Point, ctm: Option<ScreenScale>): (r: CanvasState)
    requires Invertible(ctm)
    ensures !s.isDragging || ctm.None? ==> r == s
    ensures s.isDragging && ctm.Some? ==>
      && r.isDragging && r.startPoint == client
      && r.viewBox.w == s.viewBox.w && r.viewBox.h == s.viewBox.h
      && (s.viewBox.x - r.viewBox.x) * ctm.value.a == client.x - s.startPoint.x
      && (s.viewBox.y - r.viewBox.y) * ctm.value.d == client.y - s.startPoint.y
  {
    if !s.isDragging || ctm.None? then s
    else
      var dx := (client.x - s.startPoint.x) / ctm.value.a;
      var dy := (client.y - s.startPoint.y) / ctm.value.d;
      s.(viewBox := s.viewBox.(x := s.viewBox.x - dx, y := s.viewBox.y - dy), startPoint := client)
  }

  /** Two successive drag moves pan exactly as one move to the final point. */
  lemma PanComposes(s: CanvasState, p1: Point, p2: Point, ctm: Option<ScreenScale>)
    requires Invertible(ctm)
    ensures MouseMove(MouseMove(s, p1, ctm), p2, ctm) == MouseMove(s, p2, ctm)
  {
    if s.isDragging && ctm.Some? {
      var a, d := ctm.value.a, ctm.value.d;
      assert (p1.x - s.startPoint.x) / a + (p2.x - p1.x) / a == (p2.x - s.startPoint.x) / a;
      assert (p1.y - s.startPoint.y) / d + (p2.y - p1.y) / d == (p2.y - s.startPoint.y) / d;
    }
  }

  /** Dragging back to the anchor restores the original view. */
  lemma PanReturns(s: CanvasState, p: Point, ctm: Option<ScreenScale>)
    requires Invertible(ctm)
    ensures MouseMove(MouseMove(s, p, ctm), s.startPoint, ctm).viewBox == s.viewBox
  {
    PanComposes(s, p, s.startPoint, ctm);
  }

  /** The wheel factor: zoom in (0.9) when scrolling up, out (1.1) otherwise. */
  function ZoomFactor(deltaY: real): (r: real)
    ensures r < 1.0 <==> deltaY < 0.0
    ensures r == 0.9 || r == 1.1
  {
    if deltaY < 0.0 then 0.9 else 1.1
  }

  /** `onWheel` arithmetic around the cursor's canvas point: both sizes are
      scaled by the factor and the cursor's offset from the corner as well. */
  function Zoom(v: ViewBox, cursor: Point, deltaY: real): (r: ViewBox)
    ensures r.w == ZoomFactor(deltaY) * v.w && r.h == ZoomFactor(deltaY) * v.h
    ensures cursor.x - r.x == ZoomFactor(deltaY) * (cursor.x - v.x)
    ensures cursor.y - r.y == ZoomFactor(deltaY) * (cursor.y - v.y)
  {
    var scale := ZoomFactor(deltaY);
    ViewBox(v.x - (cursor.x - v.x) * (scale - 1.0), v.y - (cursor.y - v.y) * (scale - 1.0),
            v.w * scale, v.h * scale)
  }

  /** Zooming keeps the aspect ratio w/h. */
  lemma ZoomKeepsAspect(v: ViewBox, cursor: Point, deltaY: real)
    ensures Zoom(v, cursor, deltaY).w * v.h == v.w * Zoom(v, cursor, deltaY).h
  {
    var f := ZoomFactor(deltaY);
    assert f * v.w * v.h == v.w * (f * v.h);
  }

  /** Zooming keeps the cursor at the same relative position in the view. */
  lemma ZoomKeepsCursorFixed(v: ViewBox, cursor: Point, deltaY: real)
    requires v.w != 0.0 && v.h != 0.0
    ensures var r := Zoom(v, cursor, deltaY);
            (cursor.x - r.x) / r.w == (cursor.x - v.x) / v.w &&
            (cursor.y - r.y) / r.h == (cursor.y - v.y) / v.h
  {
    var r := Zoom(v, cursor, deltaY);
    var f := ZoomFactor(deltaY);
    assert (f * (cursor.x - v.x)) / (f * v.w) == (cursor.x - v.x) / v.w;
    assert (f * (cursor.y - v.y)) / (f * v.h) == (cursor.y - v.y) / v.h;
  }

  /** Zooming in and then out at the same cursor is not the identity: the
      view ends 1% smaller (0.9 * 1.1 = 0.99). */
  lemma ZoomInOut(v: ViewBox, cursor: Point)
    ensures Zoom(Zoom(v, cursor, -1.0), cursor, 1.0).w == 0.99 * v.w
    ensures cursor.x - Zoom(Zoom(v, cursor, -1.0), cursor, 1.0).x == 0.99 * (cursor.x - v.x)
  {
  }

  /** The wheel handler: `cursor` is the pointer in canvas coordinates, or
      None when the SVG element or its screen matrix is unavailable. */
  function Wheel(s: CanvasState, cursor: Option<Point>, deltaY: real): (r: CanvasState)
    ensures cursor.None? ==> r == s
    ensures cursor.Some? ==> r == s.(viewBox := Zoom(s.viewBox, cursor.value, deltaY))
  {
    if cursor.None? then s else s.(viewBox := Zoom(s.viewBox, cursor.value, deltaY))
  }

  /** The canvas component's state: `viewBox`, `isDragging`, `startPoint`. */
  class WorkflowCanvas {
    var viewBox: ViewBox
    var isDragging: bool
    var startPoint: Point

    function State(): CanvasState
      reads this
    {
      CanvasState(viewBox, isDragging, startPoint)
    }

    constructor ()
      ensures State() == InitialCanvas
    {
      viewBox, isDragging, startPoint := InitialViewBox, false, Point(0.0, 0.0);
    }

    /** The fit effect: frame the workflow's node boxes with the padding. */
    method FitToWorkflow(nodes: seq<Node>)
      modifies this
      ensures isDragging == old(isDragging) && startPoint == old(startPoint)
      ensures |nodes| == 0 ==> Unpadded(viewBox) == DefaultBounds
      ensures |nodes| > 0 ==> IsTightBounds(Unpadded(viewBox), nodes)
    {
      var b := CalculateBounds(nodes);
      viewBox := FitViewBox(b);
    }

    method OnMouseDown(client: Point)
      modifies this
      ensures State() == MouseDown(old(State()), client)
    {
      isDragging, startPoint := true, client;
    }

    method OnMouseMove(client: Point, ctm: Option<ScreenScale>)
      requires Invertible(ctm)
      modifies this
      ensures State() == MouseMove(old(State()), client, ctm)
    {
      if !isDragging || ctm.None? {
        return;
      }
      var dx := (client.x - startPoint.x) / ctm.value.a;
      var dy := (client.y - startPoint.y) / ctm.value.d;
      viewBox := viewBox.(x := viewBox.x - dx, y := viewBox.y - dy);
      startPoint := client;
    }

    /** Also the `onMouseLeave` handler. */
    method OnMouseUp()
      modifies this
      ensures State() == MouseUp(old(State()))
    {
      isDragging := false;
    }

    method OnWheel(cursor: Option<Point>, deltaY: real)
      modifies this
      ensures State() == Wheel(old(State()), cursor, deltaY)
    {
      if cursor.None? {
        return;
      }
      var scale := ZoomFactor(deltaY);
      var p := cursor.value;
      viewBox := ViewBox(viewBox.x - (p.x - viewBox.x) * (scale - 1.0),
                         viewBox.y - (p.y - viewBox.y) * (scale - 1.0),
                         viewBox.w * scale, viewBox.h * scale);
    }
  }

  // ---------------------------------------------------------------------------
  // Connectors

  /** Node `i` is the last node carrying its name. */
  ghost predicate LastOfName(nodes: seq<Node>, i: int)
    requires 0 <= i < |nodes|
  {
    forall j :: i < j < |nodes| ==> nodes[j].name != nodes[i].name
  }

  /** The name map `new Map(nodes.map(n => [n.name, n]))`: entries are
      written in node order, so a later node replaces an earlier one of the
      same name. */
  function NameMap(nodes: seq<Node>): (r: map<string, Node>)
    ensures forall k :: k in r ==> r[k].name == k && r[k] in nodes
  {
    if nodes == [] then map[]
    else NameMap(nodes[..|nodes| - 1])[nodes[|nodes| - 1].name := nodes[|nodes| - 1]]
  }

  /** The keys of the name map are exactly the node names. */
  lemma {:induction false} NameMapKeys(nodes: seq<Node>, name: string)
    ensures name in NameMap(nodes) <==> exists i :: 0 <= i < |nodes| && nodes[i].name == name
  {
    if nodes != [] {
      var n := |nodes| - 1;
      var init := nodes[..n];
      NameMapKeys(init, name);
      if name != nodes[n].name && name in NameMap(nodes) {
        var i :| 0 <= i < |init| && init[i].name == name;
        assert nodes[i].name == name;
      }
      if exists i :: 0 <= i < |nodes| && nodes[i].name == name {
        var i :| 0 <= i < |nodes| && nodes[i].name == name;
        if i < n {
          assert init[i].name == name;
        }
      }
    }
  }

  /** Each name maps to the last node carrying it. */
  lemma {:induction false} NameMapLast(nodes: seq<Node>, i: int)
    requires 0 <= i < |nodes| && LastOfName(nodes, i)
    ensures nodes[i].name in NameMap(nodes) && NameMap(nodes)[nodes[i].name] == nodes[i]
  {
    var n := |nodes| - 1;
    if i < n {
      var init := nodes[..n];
      assert init[i] == nodes[i];
      assert LastOfName(init, i);
      NameMapLast(init, i);
    }
  }

  /** The targets of one source, `[...main, ...(tool || [])].flat()`. */
  function Outgoing(o: Outlets): seq<ConnectionNode> {
    Concat(o.main + o.tool.GetOr([]))
  }

  /** The targets list is the main targets followed by the tool targets. */
  lemma OutgoingMainThenTool(o: Outlets)
    ensures Outgoing(o) == Concat(o.main) + Concat(o.tool.GetOr([]))
  {
    ConcatAppend(o.main, o.tool.GetOr([]));
  }

  /** A drawn connector; `slot` is the target's position in its source's
      targets list (the source's React key index). */
  datatype Edge = Edge(source: Node, target: Node, slot: nat)

  /** `c` names a node of the map, and that node is `t`. */
  predicate Resolves(c: ConnectionNode, names: map<string, Node>, t: Node) {
    c.node in names && names[c.node] == t
  }

  /** The connectors of one source: one per target whose name resolves, in
      targets order, numbered from `offset`. */
  function EdgesFrom(source: Node, targets: seq<ConnectionNode>, names: map<string, Node>, offset: nat): (r: seq<Edge>)
    ensures |r| <= |targets|
    decreases |targets|
  {
    if targets == [] then []
    else
      var rest := EdgesFrom(source, targets[1..], names, offset + 1);
      if targets[0].node in names then [Edge(source, names[targets[0].node], offset)] + rest else rest
  }

  /** Every connector of a source comes from a resolving target at its slot. */
  lemma {:induction false} EdgesFromSound(source: Node, targets: seq<ConnectionNode>, names: map<string, Node>,
                                          offset: nat, e: Edge)
    requires e in EdgesFrom(source, targets, names, offset)
    ensures e.source == source && offset <= e.slot < offset + |targets|
    ensures Resolves(targets[e.slot - offset], names, e.target)
    decreases |targets|
  {
    var rest := EdgesFrom(source, targets[1..], names, offset + 1);
    if e in rest {
      EdgesFromSound(source, targets[1..], names, offset + 1, e);
      assert targets[e.slot - offset] == targets[1..][e.slot - (offset + 1)];
    }
  }

  /** Every resolving target of a source is drawn, at its slot. */
  lemma {:induction false} EdgesFromComplete(source: Node, targets: seq<ConnectionNode>, names: map<string, Node>,
                                             offset: nat, k: int)
    requires 0 <= k < |targets| && targets[k].node in names
    ensures Edge(source, names[targets[k].node], offset + k) in EdgesFrom(source, targets, names, offset)
    decreases |targets|
  {
    if k > 0 {
      assert targets[1..][k - 1] == targets[k];
      EdgesFromComplete(source, targets[1..], names, offset + 1, k - 1);
    }
  }

  predicate SlotsIncrease(r: seq<Edge>) {
    forall i, j :: 0 <= i < j < |r| ==> r[i].slot < r[j].slot
  }

  /** A source's connectors keep the order of its targets. */
  lemma {:induction false} EdgesFromOrdered(source: Node, targets: seq<ConnectionNode>, names: map<string, Node>,
                                            offset: nat)
    ensures SlotsIncrease(EdgesFrom(source, targets, names, offset))
    decreases |targets|
  {
    if targets != [] {
      var r := EdgesFrom(source, targets, names, offset);
      var rest := EdgesFrom(source, targets[1..], names, offset + 1);
      EdgesFromOrdered(source, targets[1..], names, offset + 1);
      if targets[0].node !in names {
        assert r == rest;
      } else {
        assert r == [Edge(source, names[targets[0].node], offset)] + rest;
        forall i, j | 0 <= i < j < |r| ensures r[i].slot < r[j].slot {
          assert r[j] == rest[j - 1];
          if i == 0 {
            assert rest[j - 1] in rest;
            EdgesFromSound(source, targets[1..], names, offset + 1, rest[j - 1]);
          } else {
            assert r[i] == rest[i - 1];
          }
        }
      }
    }
  }

  /** The connectors of all sources, in key order; sources whose name does
      not resolve draw nothing. */
  function DrawnEdges(conns: Connections, names: map<string, Node>): seq<Edge>
  {
    if conns == [] then []
    else
      (if conns[0].0 in names then EdgesFrom(names[conns[0].0], Outgoing(conns[0].1), names, 0) else [])
      + DrawnEdges(conns[1..], names)
  }

  /** The connectors a workflow draws. */
  function Connectors(w: Workflow): seq<Edge> {
    DrawnEdges(w.connections, NameMap(w.nodes))
  }

  /** `e` is the connector for slot `e.slot` of source entry `k`. */
  predicate EdgeOfEntry(conns: Connections, names: map<string, Node>, k: int, e: Edge)
    requires 0 <= k < |conns|
  {
    Resolves(ConnectionNode(conns[k].0, "", 0), names, e.source) &&
    e.slot < |Outgoing(conns[k].1)| && Resolves(Outgoing(conns[k].1)[e.slot], names, e.target)
  }

  /** A connector is drawn exactly when its source name resolves and the
      target at its slot resolves; unresolved names are skipped. */
  lemma {:induction false} DrawnEdgesExactly(conns: Connections, names: map<string, Node>, e: Edge)
    ensures e in DrawnEdges(conns, names) <==> exists k :: 0 <= k < |conns| && EdgeOfEntry(conns, names, k, e)
  {
    if conns != [] {
      DrawnEdgesExactly(conns[1..], names, e);
      var head := if conns[0].0 in names then EdgesFrom(names[conns[0].0], Outgoing(conns[0].1), names, 0) else [];
      assert DrawnEdges(conns, names) == head + DrawnEdges(conns[1..], names);
      if e in DrawnEdges(conns, names) {
        if e in head {
          EdgesFromSound(names[conns[0].0], Outgoing(conns[0].1), names, 0, e);
          assert EdgeOfEntry(conns, names, 0, e);
        } else {
          var k :| 0 <= k < |conns[1..]| && EdgeOfEntry(conns[1..], names, k, e);
          assert EdgeOfEntry(conns, names, k + 1, e);
        }
      }
      if exists k :: 0 <= k < |conns| && EdgeOfEntry(conns, names, k, e) {
        var k :| 0 <= k < |conns| && EdgeOfEntry(conns, names, k, e);
        if k == 0 {
          var targets := Outgoing(conns[0].1);
          EdgesFromComplete(names[conns[0].0], targets, names, 0, e.slot);
          assert Edge(names[conns[0].0], names[targets[e.slot].node], 0 + e.slot) == e;
        } else {
          assert EdgeOfEntry(conns[1..], names, k - 1, e);
        }
      }
    }
  }

  /** No more connectors are drawn than there are target references. */
  lemma {:induction false} DrawnEdgesBound(conns: Connections, names: map<string, Node>)
    ensures |DrawnEdges(conns, names)| <= TargetCount(conns)
  {
    if conns != [] {
      DrawnEdgesBound(conns[1..], names);
    }
  }

  function TargetCount(conns: Connections): nat {
    if conns == [] then 0 else |Outgoing(conns[0].1)| + TargetCount(conns[1..])
  }
}
