/** Remote cursor presence: the latest cursor of each socket, forgotten three
    seconds after its last update, and its placement on screen.  Timers become
    deadlines on a logical clock; a timer due at or before an event fires first. */
module LiveCursors {
  import opened JsText
  import opened Wire
  import Whiteboard

  /** How long a cursor stays without an update, in milliseconds. */
  const ExpiryMs: int := 3000

  /** The edge margin, in pixels, inside which off-screen cursors are pinned. */
  const Padding: real := 24.0

  datatype CursorEntry = CursorEntry(
    x: Option<real>, y: Option<real>, user: Option<string>, color: Option<string>, lastUpdate: int)

  /** The cursors whose timers are due by time `t` are removed. */
  function Expire(cursors: map<SocketId, CursorEntry>, deadlines: map<SocketId, int>, t: int)
    : (r: map<SocketId, CursorEntry>)
    ensures forall sid :: sid in r <==> sid in cursors && !(sid in deadlines && deadlines[sid] <= t)
    ensures forall sid :: sid in r ==> r[sid] == cursors[sid]
  {
    map sid | sid in cursors && !(sid in deadlines && deadlines[sid] <= t) :: cursors[sid]
  }

  /** The timers still pending after time `t`. */
  function Pending(deadlines: map<SocketId, int>, t: int): (r: map<SocketId, int>)
    ensures forall sid :: sid in r <==> sid in deadlines && deadlines[sid] > t
    ensures forall sid :: sid in r ==> r[sid] == deadlines[sid]
  {
    map sid | sid in deadlines && deadlines[sid] > t :: deadlines[sid]
  }

  /** Each shown cursor has its timer pending, set 3000 ms after its last update. */
  ghost predicate Timed(cursors: map<SocketId, CursorEntry>, deadlines: map<SocketId, int>) {
    forall sid :: sid in cursors ==> sid in deadlines && deadlines[sid] == cursors[sid].lastUpdate + ExpiryMs
  }

  /** With every cursor timed, a cursor survives time `t` exactly when it was
      updated less than 3000 ms before `t`. */
  lemma ExpireIsInactivity(cursors: map<SocketId, CursorEntry>, deadlines: map<SocketId, int>, t: int, sid: SocketId)
    requires Timed(cursors, deadlines) && sid in cursors
    ensures sid in Expire(cursors, deadlines, t) <==> t < cursors[sid].lastUpdate + ExpiryMs
  {
  }

  /** Expiry keeps every surviving cursor timed. */
  lemma ExpireKeepsTimed(cursors: map<SocketId, CursorEntry>, deadlines: map<SocketId, int>, t: int)
    requires Timed(cursors, deadlines)
    ensures Timed(Expire(cursors, deadlines, t), Pending(deadlines, t))
  {
  }

  /** Only cursors with both coordinates are drawn. */
  function Rendered(cursors: map<SocketId, CursorEntry>): (r: set<SocketId>)
    ensures forall sid :: sid in r <==> sid in cursors && cursors[sid].x.Some? && cursors[sid].y.Some?
  {
    set sid | sid in cursors && cursors[sid].x.Some? && cursors[sid].y.Some?
  }

  /** A relayed cursor that lost its fields (see CursorMoveWithoutDataHasNoPosition
      in the relay) is stored but never drawn. */
  lemma PositionlessCursorHidden(cursors: map<SocketId, CursorEntry>, sid: SocketId, now: int)
    ensures sid !in Rendered(cursors[sid := CursorEntry(None, None, None, None, now)])
  {
  }

  /** Canvas coordinates to screen coordinates. */
  function ScreenOf(vp: Viewport, c: Whiteboard.Point): Whiteboard.Point {
    Whiteboard.Point(c.x * vp.zoom + vp.offsetX, c.y * vp.zoom + vp.offsetY)
  }

  /** The screen mapping undoes the whiteboard's pointer mapping: a cursor sent
      from the canvas point under a screen point is drawn at that screen point
      (for a viewer with the same viewport). */
  lemma ScreenOfCanvasPoint(vp: Viewport, sx: real, sy: real)
    requires vp.zoom != 0.0
    ensures ScreenOf(vp, Whiteboard.CanvasPoint(vp, sx, sy)) == Whiteboard.Point(sx, sy)
  {
    var c := Whiteboard.CanvasPoint(vp, sx, sy);
    assert c.x * vp.zoom == sx - vp.offsetX;
    assert c.y * vp.zoom == sy - vp.offsetY;
  }

  /** `Math.max(padding, Math.min(size - padding, v))`. */
  function PinToEdge(v: real, size: real): (r: real)
    ensures r >= Padding
    ensures size >= 2.0 * Padding ==> r <= size - Padding
    ensures Padding <= v <= size - Padding ==> r == v
    ensures size >= 2.0 * Padding && v < Padding ==> r == Padding
    ensures size >= 2.0 * Padding && v > size - Padding ==> r == size - Padding
  {
    Whiteboard.Max(Padding, Whiteboard.Min(size - Padding, v))
  }

  predicate OffScreen(s: Whiteboard.Point, w: real, h: real) {
    s.x < Padding || s.x > w - Padding || s.y < Padding || s.y > h - Padding
  }

  /** Where a cursor is drawn: at its screen point when that is inside the margin,
      otherwise as a badge pinned to the nearest edge. */
  function Placement(vp: Viewport, c: Whiteboard.Point, w: real, h: real): (r: (bool, Whiteboard.Point))
  {
    var s := ScreenOf(vp, c);
    if OffScreen(s, w, h) then (true, Whiteboard.Point(PinToEdge(s.x, w), PinToEdge(s.y, h)))
    else (false, s)
  }

  /** On a window at least 48 px each way every cursor is drawn inside the margin,
      and one already inside is drawn where it is. */
  lemma PlacementInsideMargin(vp: Viewport, c: Whiteboard.Point, w: real, h: real)
    requires w >= 2.0 * Padding && h >= 2.0 * Padding
    ensures var (_, p) := Placement(vp, c, w, h);
      Padding <= p.x <= w - Padding && Padding <= p.y <= h - Padding
    ensures !OffScreen(ScreenOf(vp, c), w, h) ==> Placement(vp, c, w, h) == (false, ScreenOf(vp, c))
  {
  }

  class CursorLayer {
    var cursors: map<SocketId, CursorEntry>
    /** The pending removal timers, by socket, as the time each fires. */
    var deadlines: map<SocketId, int>
    /** The time of the last event handled. */
    var clock: int
    var mounted: bool

    ghost predicate Valid()
      reads this
    {
      && Timed(cursors, deadlines)
      && (forall sid :: sid in deadlines ==> deadlines[sid] > clock)
    }

    constructor (now: int)
      ensures Valid() && cursors == map[] && deadlines == map[] && clock == now && mounted
    {
      cursors := map[];
      deadlines := map[];
      clock := now;
      mounted := true;
    }

    /** Fire every timer due by `now`. */
    method Advance(now: int)
      requires Valid() && now >= clock
      modifies this`cursors, this`deadlines, this`clock
      ensures Valid() && clock == now
      ensures cursors == Expire(old(cursors), old(deadlines), now)
      ensures deadlines == Pending(old(deadlines), now)
    {
      ExpireKeepsTimed(cursors, deadlines, now);
      cursors := Expire(cursors, deadlines, now);
      deadlines := Pending(deadlines, now);
      clock := now;
    }

    /** `handleCursorMove`: store the latest cursor of the socket and restart its
        three-second timer. */
    method CursorMove(c: CursorData, sid: SocketId, now: int)
      requires Valid() && now >= clock
      modifies this`cursors, this`deadlines, this`clock
      ensures Valid() && clock == now
      ensures cursors == Expire(old(cursors), old(deadlines), now)[sid := CursorEntry(c.x, c.y, c.userName, c.color, now)]
      ensures deadlines == Pending(old(deadlines), now)[sid := now + ExpiryMs]
    {
      Advance(now);
      cursors := cursors[sid := CursorEntry(c.x, c.y, c.userName, c.color, now)];
      deadlines := deadlines[sid := now + ExpiryMs];
    }

    /** `handleUserLeft`: drop the socket's cursor; its timer stays pending and
        finds nothing to remove. */
    method UserLeft(socketId: Option<SocketId>, now: int)
      requires Valid() && now >= clock
      modifies this`cursors, this`deadlines, this`clock
      ensures Valid() && clock == now
      ensures deadlines == Pending(old(deadlines), now)
      ensures !Truthy(socketId) ==> cursors == Expire(old(cursors), old(deadlines), now)
      ensures Truthy(socketId) ==> cursors == Expire(old(cursors), old(deadlines), now) - {socketId.value}
    {
      Advance(now);
      if Truthy(socketId) {
        cursors := cursors - {socketId.value};
      }
    }

    /** Unmount: every pending timer is cancelled, so no cursor is removed later. */
    method Unmount()
      modifies this`deadlines, this`mounted
      ensures deadlines == map[] && !mounted
    {
      deadlines := map[];
      mounted := false;
    }
  }
}
