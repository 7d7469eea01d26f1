/** The whiteboard's shared state on one client: the table of other users' live
    strokes, the mirror of the canvas objects, the local stroke being drawn, the
    viewport with its zoom rules, the emit throttles and the brush rule. */
module Whiteboard {
  import opened JsText
  import opened Wire

  datatype Point = Point(x: real, y: real)

  /** One straight piece of a remote live stroke. */
  datatype Segment = Segment(from: Point, to: Point, color: string, width: real)

  /** A remote user's stroke in progress: its segments and the last point reached. */
  datatype RemotePath = RemotePath(lines: seq<Segment>, last: Point, color: string, width: real)

  /** SVG path commands (section 8.3 of SVG 1.1): moveto, quadratic curveto, lineto. */
  datatype PathCmd = MoveTo(p: Point) | QuadTo(ctrl: Point, end: Point) | LineTo(to: Point)

  // ---------------------------------------------------------------------------
  // Remote live strokes

  /** The segments of a stroke join end to start, and the last one ends at the
      stroke's last point. */
  ghost predicate Chained(rp: RemotePath) {
    && (forall i :: 0 <= i < |rp.lines| - 1 ==> rp.lines[i].to == rp.lines[i + 1].from)
    && (rp.lines != [] ==> rp.lines[|rp.lines| - 1].to == rp.last)
  }

  /** interaction-update on a known stroke: one segment from the last point to the new one. */
  function Extend(rp: RemotePath, p: Point): (r: RemotePath)
    ensures |r.lines| == |rp.lines| + 1 && r.lines[..|rp.lines|] == rp.lines
    ensures r.lines[|rp.lines|] == Segment(rp.last, p, rp.color, rp.width)
    ensures r.last == p && r.color == rp.color && r.width == rp.width
  {
    rp.(lines := rp.lines + [Segment(rp.last, p, rp.color, rp.width)], last := p)
  }

  /** Extending a stroke keeps it one connected polyline. */
  lemma ExtendKeepsChained(rp: RemotePath, p: Point)
    requires Chained(rp)
    ensures Chained(Extend(rp, p))
  {
    var r := Extend(rp, p);
    forall i | 0 <= i < |r.lines| - 1 ensures r.lines[i].to == r.lines[i + 1].from {
      if i < |rp.lines| - 1 {
        assert r.lines[i] == rp.lines[i] && r.lines[i + 1] == rp.lines[i + 1];
      } else {
        assert r.lines[i] == rp.lines[|rp.lines| - 1];
      }
    }
  }

  /** A stroke is a polyline through its start and every update point in turn. */
  lemma {:induction false} ExtendAllTraces(rp: RemotePath, ps: seq<Point>)
    requires rp.lines == []
    ensures var r := ExtendAll(rp, ps);
      |r.lines| == |ps| && Chained(r)
      && (ps != [] ==> r.lines[0].from == rp.last && r.last == ps[|ps| - 1])
      && forall i :: 0 <= i < |ps| ==> r.lines[i].to == ps[i]
    decreases |ps|
  {
    if ps != [] {
      var init, p := ps[..|ps| - 1], ps[|ps| - 1];
      ExtendAllTraces(rp, init);
      var q := ExtendAll(rp, init);
      ExtendKeepsChained(q, p);
      ExtendTraces(q, init, p);
      assert ExtendAll(rp, ps) == Extend(q, p);
      assert init + [p] == ps;
      if init != [] {
        assert Extend(q, p).lines[0] == q.lines[0];
      }
    }
  }

  /** A stroke whose segments end at the points so far, extended to one more
      point, has segments ending at the points with that one added. */
  lemma ExtendTraces(q: RemotePath, init: seq<Point>, p: Point)
    requires |q.lines| == |init| && forall i :: 0 <= i < |init| ==> q.lines[i].to == init[i]
    ensures forall i :: 0 <= i < |init| + 1 ==> Extend(q, p).lines[i].to == (init + [p])[i]
  {
    var r := Extend(q, p);
    forall i | 0 <= i < |init| + 1 ensures r.lines[i].to == (init + [p])[i] {
      if i < |init| {
        assert r.lines[i] == r.lines[..|init|][i];
      }
    }
  }

  /** A run of updates applied in order. */
  function ExtendAll(rp: RemotePath, ps: seq<Point>): (r: RemotePath)
    decreases |ps|
  {
    if ps == [] then rp else Extend(ExtendAll(rp, ps[..|ps| - 1]), ps[|ps| - 1])
  }

  ghost predicate AllChained(paths: map<SocketId, RemotePath>) {
    forall sid :: sid in paths ==> Chained(paths[sid])
  }

  // ---------------------------------------------------------------------------
  // The pencil stroke path

  function Mid(a: Point, b: Point): Point {
    Point((a.x + b.x) / 2.0, (a.y + b.y) / 2.0)
  }

  /** The path a finished pencil stroke becomes: a dot-sized line for fewer than
      three points, otherwise a move to the first point, a quadratic curve per
      interior point through the midpoint with its successor, and a line to the
      last point. */
  function StrokePath(ps: seq<Point>): (r: seq<PathCmd>)
    requires ps != []
  {
    if |ps| < 3 then [MoveTo(ps[0]), LineTo(Point(ps[0].x, ps[0].y + 0.001))]
    else [MoveTo(ps[0])] + Curves(ps, |ps| - 1) + [LineTo(ps[|ps| - 1])]
  }

  /** The curves for interior points 1 .. n-1. */
  function Curves(ps: seq<Point>, n: nat): (r: seq<PathCmd>)
    requires 1 <= n <= |ps| - 1 || n == 0
    decreases n
  {
    if n <= 1 then [] else Curves(ps, n - 1) + [QuadTo(ps[n - 1], Mid(ps[n - 1], ps[n]))]
  }

  lemma {:induction false} CurvesAt(ps: seq<Point>, n: nat)
    requires 1 <= n <= |ps| - 1
    ensures |Curves(ps, n)| == n - 1
    ensures forall i :: 0 <= i < n - 1 ==> Curves(ps, n)[i] == QuadTo(ps[i + 1], Mid(ps[i + 1], ps[i + 2]))
    decreases n
  {
    if n > 1 {
      CurvesAt(ps, n - 1);
    }
  }

  /** The shape of a stroke path of n >= 3 points: n commands, a move to the first
      point, n - 2 quadratic curves, each controlled by an interior point and ending
      halfway to the next, and a line to the last point. */
  lemma StrokePathShape(ps: seq<Point>)
    requires |ps| >= 3
    ensures |StrokePath(ps)| == |ps|
    ensures StrokePath(ps)[0] == MoveTo(ps[0])
    ensures StrokePath(ps)[|ps| - 1] == LineTo(ps[|ps| - 1])
    ensures forall i :: 1 <= i <= |ps| - 2 ==> StrokePath(ps)[i] == QuadTo(ps[i], Mid(ps[i], ps[i + 1]))
  {
    CurvesAt(ps, |ps| - 1);
  }

  /** The `pathString +=` loop of onPointerUp. */
  method BuildPath(ps: seq<Point>) returns (path: seq<PathCmd>)
    requires ps != []
    ensures path == StrokePath(ps)
  {
    if |ps| < 3 {
      return [MoveTo(ps[0]), LineTo(Point(ps[0].x, ps[0].y + 0.001))];
    }
    var curves := [];
    var i := 1;
    while i < |ps| - 1
      invariant 1 <= i <= |ps| - 1
      invariant curves == Curves(ps, i)
    {
      curves := curves + [QuadTo(ps[i], Mid(ps[i], ps[i + 1]))];
      i := i + 1;
    }
    path := [MoveTo(ps[0])] + curves + [LineTo(ps[|ps| - 1])];
  }

  // ---------------------------------------------------------------------------
  // Viewport

  const MinZoom: real := 0.1
  const MaxZoom: real := 8.0

  function Min(a: real, b: real): real { if a <= b then a else b }
  function Max(a: real, b: real): real { if a >= b then a else b }

  ghost predicate ZoomInRange(z: real) {
    MinZoom <= z <= MaxZoom
  }

  /** The canvas point under a screen point. */
  function CanvasPoint(vp: Viewport, sx: real, sy: real): Point
    requires vp.zoom != 0.0
  {
    Point((sx - vp.offsetX) / vp.zoom, (sy - vp.offsetY) / vp.zoom)
  }

  /** Zooming to `newZoom` about the screen point (cx, cy). */
  function ZoomAbout(vp: Viewport, newZoom: real, cx: real, cy: real): (r: Viewport)
    requires vp.zoom != 0.0
    ensures r.zoom == newZoom
  {
    var w := CanvasPoint(vp, cx, cy);
    Viewport(newZoom, cx - w.x * newZoom, cy - w.y * newZoom)
  }

  /** Zooming about a screen point keeps the canvas point under it where it was. */
  lemma ZoomAboutKeepsAnchor(vp: Viewport, newZoom: real, cx: real, cy: real)
    requires vp.zoom != 0.0 && newZoom != 0.0
    ensures CanvasPoint(ZoomAbout(vp, newZoom, cx, cy), cx, cy) == CanvasPoint(vp, cx, cy)
  {
    var w := CanvasPoint(vp, cx, cy);
    var r := ZoomAbout(vp, newZoom, cx, cy);
    assert (cx - r.offsetX) == w.x * newZoom;
    assert (cy - r.offsetY) == w.y * newZoom;
  }

  /** Ctrl/Cmd-wheel: zoom by 1.05 in or out, clamped to [0.1, 8]. */
  function WheelZoom(z: real, deltaY: real): (r: real)
    ensures ZoomInRange(r)
  {
    Min(MaxZoom, Max(MinZoom, z * (if deltaY < 0.0 then 1.05 else 1.0 / 1.05)))
  }

  datatype ZoomCommand = ZoomIn | ZoomOut

  /** The palette's zoom commands (factor 1.25) and the toolbar buttons (factor 1.2). */
  function CommandZoom(z: real, c: ZoomCommand): real {
    match c
    case ZoomIn => Min(MaxZoom, z * 1.25)
    case ZoomOut => Max(MinZoom, z / 1.25)
  }

  function ButtonZoom(z: real, c: ZoomCommand): real {
    match c
    case ZoomIn => Min(MaxZoom, z * 1.2)
    case ZoomOut => Max(MinZoom, z / 1.2)
  }

  /** Every local zoom change keeps a zoom that was within [0.1, 8] within it; zoom
      in never lowers the zoom and zoom out never raises it. */
  lemma ZoomStepsStayInRange(z: real, c: ZoomCommand)
    requires ZoomInRange(z)
    ensures ZoomInRange(CommandZoom(z, c)) && ZoomInRange(ButtonZoom(z, c))
    ensures c == ZoomIn ==> CommandZoom(z, c) >= z && ButtonZoom(z, c) >= z
    ensures c == ZoomOut ==> CommandZoom(z, c) <= z && ButtonZoom(z, c) <= z
  {
  }

  /** A remote viewport is applied as received, without clamping; from a zoom above
      8 one zoom-out command comes back into range exactly when the zoom was at
      most 10, and a toolbar zoom-out exactly when it was at most 9.6. */
  lemma RemoteZoomIsNotClamped(z: real)
    requires z > MaxZoom
    ensures ZoomInRange(CommandZoom(z, ZoomOut)) <==> z <= 10.0
    ensures ZoomInRange(ButtonZoom(z, ZoomOut)) <==> z <= 9.6
  {
    if z > 10.0 {
      assert z / 1.25 > 8.0;
    }
    if z > 9.6 {
      assert z / 1.2 > 8.0;
    }
  }

  const FitViewport: Viewport := Viewport(1.0, 0.0, 0.0)

  // ---------------------------------------------------------------------------
  // Brush

  /** The pencil brush colour: the eraser paints the background of the current
      theme; black on dark and white on light are swapped for visibility. */
  function BrushColor(tool: string, darkMode: bool, color: string): (r: string)
    ensures tool == "eraser" ==> r == (if darkMode then "#121216" else "#f4f5f7")
    ensures tool != "eraser" && r != color ==>
      (darkMode && color == "#000000" && r == "#ffffff") || (!darkMode && color == "#ffffff" && r == "#000000")
  {
    if tool == "eraser" then (if darkMode then "#121216" else "#f4f5f7")
    else if darkMode && color == "#000000" then "#ffffff"
    else if !darkMode && color == "#ffffff" then "#000000"
    else color
  }

  /** The brush never paints black on the dark theme or white on the light one. */
  lemma BrushVisibleOnBackground(tool: string, darkMode: bool, color: string)
    ensures darkMode ==> BrushColor(tool, darkMode, color) != "#000000"
    ensures !darkMode ==> BrushColor(tool, darkMode, color) != "#ffffff"
  {
  }

  /** `parseInt(width, 10) || 3`. */
  function BrushWidth(width: string): (r: int)
    ensures r != 0
    ensures ParseInt10(width).None? || ParseInt10(width) == Some(0) ==> r == 3
  {
    match ParseInt10(width)
    case None => 3
    case Some(n) => if n == 0 then 3 else n
  }

  /** A width chosen on the slider (a decimal number) is used as is, and zero falls back to 3. */
  lemma BrushWidthOfNumber(n: nat)
    ensures BrushWidth(NatToString(n)) == if n == 0 then 3 else n
  {
    ParseIntOfNatToString(n);
  }

  // ---------------------------------------------------------------------------
  // The whiteboard of one client

  /** A move of the pointer by (dx, dy) is kept when `hypot(dx, dy) > 2 / zoom`;
      with a negative zoom any move is kept. A zero zoom is excluded, as it is
      for the screen-to-canvas mapping the caller needs first. */
  predicate FarEnough(last: Point, p: Point, zoom: real)
    requires zoom != 0.0
  {
    var dx, dy := p.x - last.x, p.y - last.y;
    if zoom < 0.0 then true
    else dx * dx + dy * dy > (2.0 / zoom) * (2.0 / zoom)
  }

  class Board {
    const roomId: string
    /** Other users' strokes in progress, by socket id. */
    var remotePaths: map<SocketId, RemotePath>
    /** The canvas objects, in stacking order. */
    var objects: seq<WhiteboardObject>
    var viewport: Viewport
    /** The local stroke being drawn. */
    var points: seq<Point>
    var isDrawing: bool
    var lastEmitTime: int
    var vpEmitTimer: int
    var hasInteracted: bool
    /** Every message this client emitted, in order. */
    var outbox: seq<ClientMessage>

    ghost predicate Valid()
      reads this
    {
      AllChained(remotePaths) && (isDrawing ==> points != [])
    }

    constructor (roomId: string, initialObjects: seq<WhiteboardObject>)
      ensures Valid() && this.roomId == roomId
      ensures remotePaths == map[] && objects == initialObjects && viewport == FitViewport
      ensures points == [] && !isDrawing && lastEmitTime == 0 && vpEmitTimer == 0 && outbox == []
      ensures hasInteracted == (|initialObjects| > 0)
    {
      this.roomId := roomId;
      remotePaths := map[];
      objects := initialObjects;
      viewport := FitViewport;
      points := [];
      isDrawing := false;
      lastEmitTime := 0;
      vpEmitTimer := 0;
      hasInteracted := |initialObjects| > 0;
      outbox := [];
    }

    /** `handleRemoteStart`: a fresh stroke replaces any stroke of that socket. */
    method RemoteStart(start: StrokeStart, sid: SocketId)
      requires Valid()
      modifies this
      ensures Valid()
      ensures remotePaths == old(remotePaths)[sid := RemotePath([], Point(start.x, start.y), start.color, start.width)]
      ensures hasInteracted
      ensures objects == old(objects) && viewport == old(viewport) && outbox == old(outbox)
      ensures points == old(points) && isDrawing == old(isDrawing)
      ensures lastEmitTime == old(lastEmitTime) && vpEmitTimer == old(vpEmitTimer)
    {
      hasInteracted := true;
      remotePaths := remotePaths[sid := RemotePath([], Point(start.x, start.y), start.color, start.width)];
    }

    /** `handleRemoteUpdate`: unknown sockets are ignored. */
    method RemoteUpdate(x: real, y: real, sid: SocketId)
      requires Valid()
      modifies this`remotePaths
      ensures Valid()
      ensures sid !in old(remotePaths) ==> remotePaths == old(remotePaths)
      ensures sid in old(remotePaths) ==>
        remotePaths == old(remotePaths)[sid := Extend(old(remotePaths)[sid], Point(x, y))]
    {
      if sid in remotePaths {
        ExtendKeepsChained(remotePaths[sid], Point(x, y));
        remotePaths := remotePaths[sid := Extend(remotePaths[sid], Point(x, y))];
      }
    }

    /** `handleRemoteEnd`: the stroke and all its segments go; an empty socket id
        is ignored. */
    method RemoteEnd(sid: SocketId)
      requires Valid()
      modifies this`remotePaths
      ensures Valid()
      ensures remotePaths == if sid == "" then old(remotePaths) else old(remotePaths) - {sid}
    {
      if sid != "" && sid in remotePaths {
        remotePaths := remotePaths - {sid};
      }
    }

    /** `handleReceiveDraw`: a payload with a truthy id already on the canvas is
        merged into the first such object; any other payload is added on top when
        it can be revived into a canvas object. */
    method ReceiveDraw(data: WhiteboardObject, enlivenOk: bool)
      requires Valid()
      modifies this`objects, this`hasInteracted
      ensures Valid() && hasInteracted
      ensures Truthy(data.id) && IndexOfObject(old(objects), data.id).Some? ==>
        var k := IndexOfObject(old(objects), data.id).value;
        objects == old(objects)[k := Merge(old(objects)[k], data)]
      ensures (!Truthy(data.id) || IndexOfObject(old(objects), data.id).None?) ==>
        objects == if enlivenOk then old(objects) + [data] else old(objects)
    {
      hasInteracted := true;
      if Truthy(data.id) {
        var found := IndexOfObject(objects, data.id);
        if found.Some? {
          objects := objects[found.value := Merge(objects[found.value], data)];
          return;
        }
      }
      if enlivenOk {
        objects := objects + [data];
      }
    }

    /** `handleDeleteObject`: removes the first object with the id, if any. */
    method DeleteObject(objectId: Option<string>)
      requires Valid()
      modifies this`objects
      ensures Valid()
      ensures IndexOfObject(old(objects), objectId).None? ==> objects == old(objects)
      ensures IndexOfObject(old(objects), objectId).Some? ==>
        var k := IndexOfObject(old(objects), objectId).value;
        objects == old(objects)[..k] + old(objects)[k + 1..]
    {
      var found := IndexOfObject(objects, objectId);
      if found.Some? {
        objects := objects[..found.value] + objects[found.value + 1..];
      }
    }

    /** `handleClear`: the local clear empties the canvas and the stroke table
        and tells the room. */
    method Clear()
      requires Valid()
      modifies this`objects, this`remotePaths, this`outbox
      ensures Valid()
      ensures objects == [] && remotePaths == map[]
      ensures outbox == old(outbox) + [ClearCanvasMsg(roomId)]
    {
      objects := [];
      remotePaths := map[];
      outbox := outbox + [ClearCanvasMsg(roomId)];
    }

    /** `onClear`: a clear from another user. */
    method OnClear()
      requires Valid()
      modifies this`objects, this`remotePaths
      ensures Valid()
      ensures objects == [] && remotePaths == map[]
    {
      objects := [];
      remotePaths := map[];
    }

    /** `onPointerDown`: a primary-button press with the pencil starts a stroke at
        the canvas point under the pointer and announces it. */
    method PointerDown(sx: real, sy: real, tool: string, button: int, color: string, width: real)
      requires Valid() && viewport.zoom != 0.0
      modifies this`points, this`isDrawing, this`hasInteracted, this`outbox
      ensures Valid()
      ensures tool != "pencil" || button != 0 ==>
        points == old(points) && isDrawing == old(isDrawing) && outbox == old(outbox) && hasInteracted == old(hasInteracted)
      ensures tool == "pencil" && button == 0 ==>
        var p := CanvasPoint(viewport, sx, sy);
        && isDrawing && hasInteracted && points == [p]
        && outbox == old(outbox) + [InteractionStartMsg(roomId, StrokeStart(p.x, p.y, color, width))]
    {
      if tool != "pencil" || button != 0 {
        return;
      }
      isDrawing := true;
      hasInteracted := true;
      var p := CanvasPoint(viewport, sx, sy);
      points := [p];
      outbox := outbox + [InteractionStartMsg(roomId, StrokeStart(p.x, p.y, color, width))];
    }

    /** `onPointerMove`: a point far enough from the last kept one is kept, and is
        announced when more than 25 ms have passed since the last announcement. */
    method PointerMove(sx: real, sy: real, now: int)
      requires Valid() && viewport.zoom != 0.0
      modifies this`points, this`lastEmitTime, this`outbox
      ensures Valid()
      ensures var p := CanvasPoint(viewport, sx, sy);
        var kept := old(isDrawing) && FarEnough(old(points)[|old(points)| - 1], p, viewport.zoom);
        && points == (if kept then old(points) + [p] else old(points))
        && (kept && now - old(lastEmitTime) > 25 ==>
              lastEmitTime == now && outbox == old(outbox) + [InteractionUpdateMsg(roomId, p.x, p.y)])
        && (!(kept && now - old(lastEmitTime) > 25) ==>
              lastEmitTime == old(lastEmitTime) && outbox == old(outbox))
    {
      if !isDrawing {
        return;
      }
      var p := CanvasPoint(viewport, sx, sy);
      if FarEnough(points[|points| - 1], p, viewport.zoom) {
        points := points + [p];
        if now - lastEmitTime > 25 {
          lastEmitTime := now;
          outbox := outbox + [InteractionUpdateMsg(roomId, p.x, p.y)];
        }
      }
    }

    /** `onPointerUp`: the stroke becomes a path object, added to the canvas and
        sent to the room, and the live stroke ends. */
    method PointerUp(newId: string) returns (path: seq<PathCmd>)
      requires Valid()
      modifies this`points, this`isDrawing, this`objects, this`outbox
      ensures Valid()
      ensures !old(isDrawing) ==> objects == old(objects) && outbox == old(outbox) && points == old(points) && path == []
      ensures old(isDrawing) ==>
        && !isDrawing && points == [] && path == StrokePath(old(points))
        && objects == old(objects) + [PathObject(newId)]
        && outbox == old(outbox) + [DrawDataMsg(roomId, PathObject(newId)), InteractionEndMsg(roomId)]
    {
      if !isDrawing {
        return [];
      }
      isDrawing := false;
      path := BuildPath(points);
      objects := objects + [PathObject(newId)];
      outbox := outbox + [DrawDataMsg(roomId, PathObject(newId))];
      points := [];
      outbox := outbox + [InteractionEndMsg(roomId)];
    }

    /** `emitVp`: a viewport is sent only when at least 30 ms have passed since the
        last one sent; otherwise it is dropped. */
    method EmitViewport(vp: Viewport, now: int)
      modifies this`vpEmitTimer, this`outbox
      ensures now - old(vpEmitTimer) < 30 ==> vpEmitTimer == old(vpEmitTimer) && outbox == old(outbox)
      ensures now - old(vpEmitTimer) >= 30 ==>
        vpEmitTimer == now && outbox == old(outbox) + [ViewportChangeMsg(roomId, vp)]
    {
      if now - vpEmitTimer < 30 {
        return;
      }
      vpEmitTimer := now;
      outbox := outbox + [ViewportChangeMsg(roomId, vp)];
    }

    /** Ctrl/Cmd-wheel: zoom about the pointer. */
    method Wheel(deltaY: real, cx: real, cy: real, now: int)
      requires viewport.zoom != 0.0
      modifies this`viewport, this`vpEmitTimer, this`outbox
      ensures viewport == ZoomAbout(old(viewport), WheelZoom(old(viewport.zoom), deltaY), cx, cy)
      ensures ZoomInRange(viewport.zoom)
      ensures now - old(vpEmitTimer) < 30 ==> vpEmitTimer == old(vpEmitTimer) && outbox == old(outbox)
      ensures now - old(vpEmitTimer) >= 30 ==>
        vpEmitTimer == now && outbox == old(outbox) + [ViewportChangeMsg(roomId, viewport)]
    {
      var nv := ZoomAbout(viewport, WheelZoom(viewport.zoom, deltaY), cx, cy);
      viewport := nv;
      EmitViewport(nv, now);
    }

    /** Plain wheel and hand-tool drag: pan without changing the zoom. */
    method Pan(dx: real, dy: real, now: int)
      modifies this`viewport, this`vpEmitTimer, this`outbox
      ensures viewport == Viewport(old(viewport.zoom), old(viewport.offsetX) + dx, old(viewport.offsetY) + dy)
      ensures now - old(vpEmitTimer) < 30 ==> vpEmitTimer == old(vpEmitTimer) && outbox == old(outbox)
      ensures now - old(vpEmitTimer) >= 30 ==>
        vpEmitTimer == now && outbox == old(outbox) + [ViewportChangeMsg(roomId, viewport)]
    {
      var nv := Viewport(viewport.zoom, viewport.offsetX + dx, viewport.offsetY + dy);
      viewport := nv;
      EmitViewport(nv, now);
    }

    /** The palette's zoom commands, about the centre of the board (w x h). */
    method ZoomCommandAt(c: ZoomCommand, w: real, h: real, now: int)
      requires viewport.zoom != 0.0
      modifies this`viewport, this`vpEmitTimer, this`outbox
      ensures viewport == ZoomAbout(old(viewport), CommandZoom(old(viewport.zoom), c), w / 2.0, h / 2.0)
      ensures now - old(vpEmitTimer) < 30 ==> vpEmitTimer == old(vpEmitTimer) && outbox == old(outbox)
      ensures now - old(vpEmitTimer) >= 30 ==>
        vpEmitTimer == now && outbox == old(outbox) + [ViewportChangeMsg(roomId, viewport)]
    {
      var nv := ZoomAbout(viewport, CommandZoom(viewport.zoom, c), w / 2.0, h / 2.0);
      viewport := nv;
      EmitViewport(nv, now);
    }

    /** The toolbar's zoom buttons keep the offset. */
    method ZoomButton(c: ZoomCommand, now: int)
      modifies this`viewport, this`vpEmitTimer, this`outbox
      ensures viewport == old(viewport).(zoom := ButtonZoom(old(viewport.zoom), c))
      ensures now - old(vpEmitTimer) < 30 ==> vpEmitTimer == old(vpEmitTimer) && outbox == old(outbox)
      ensures now - old(vpEmitTimer) >= 30 ==>
        vpEmitTimer == now && outbox == old(outbox) + [ViewportChangeMsg(roomId, viewport)]
    {
      var nv := viewport.(zoom := ButtonZoom(viewport.zoom, c));
      viewport := nv;
      EmitViewport(nv, now);
    }

    /** Fit (palette command or toolbar): back to zoom 1 at the origin. */
    method Fit(now: int)
      modifies this`viewport, this`vpEmitTimer, this`outbox
      ensures viewport == FitViewport
      ensures now - old(vpEmitTimer) < 30 ==> vpEmitTimer == old(vpEmitTimer) && outbox == old(outbox)
      ensures now - old(vpEmitTimer) >= 30 ==>
        vpEmitTimer == now && outbox == old(outbox) + [ViewportChangeMsg(roomId, viewport)]
    {
      viewport := FitViewport;
      EmitViewport(FitViewport, now);
    }

    /** A viewport from another user is applied as received and not re-sent. */
    method RemoteViewport(vp: Viewport)
      modifies this`viewport
      ensures viewport == vp
    {
      viewport := vp;
    }
  }

  /** The object a finished stroke becomes; its path data travels in the
      serialised object, which the model keeps opaque. */
  function PathObject(id: string): (o: WhiteboardObject)
    ensures o.id == Some(id) && o.action.None?
  {
    WhiteboardObject(Some(id), None, map["type" := "path"])
  }

  /** fabric's `set(data)`: the payload's properties overwrite the object's, and
      properties the payload lacks are kept. */
  function Merge(o: WhiteboardObject, data: WhiteboardObject): (r: WhiteboardObject)
    ensures r.id == data.id
    ensures forall k :: k in data.props ==> k in r.props && r.props[k] == data.props[k]
    ensures forall k :: k in o.props && k !in data.props ==> k in r.props && r.props[k] == o.props[k]
    ensures forall k :: k in r.props ==> k in o.props || k in data.props
  {
    WhiteboardObject(data.id, if data.action.Some? then data.action else o.action, o.props + data.props)
  }

  /** The client mirror and the stored record diverge on updates: the stored
      record replaces the whole object with the payload, and the mirror's merge
      gives the same object exactly when the payload mentions every property the
      object had and does not leave an action of the object in place. */
  lemma MergeMatchesReplaceIff(o: WhiteboardObject, data: WhiteboardObject)
    ensures Merge(o, data) == data <==>
      o.props.Keys <= data.props.Keys && (data.action.Some? || o.action.None?)
  {
    var r := Merge(o, data);
    if o.props.Keys <= data.props.Keys && (data.action.Some? || o.action.None?) {
      assert r.props == data.props;
    }
    if r == data {
      forall k | k in o.props
        ensures k in data.props
      {
        assert k in r.props;
      }
    }
  }

  /** Applying the same update twice to the mirror is the same as applying it once. */
  lemma MergeIdempotent(o: WhiteboardObject, data: WhiteboardObject)
    ensures Merge(Merge(o, data), data) == Merge(o, data)
  {
    var r := Merge(o, data);
    assert Merge(r, data).props == r.props;
  }
}
