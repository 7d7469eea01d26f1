/** Smart alignment while an object is dragged on the whiteboard: at most one
    snap per axis, to the first other object that lines up within 8 units, in a
    fixed order of edge pairs, or else to the canvas centre within 10 units, each
    snap drawing one guide line. */
module Snapping {
  import opened JsText

  const AlignZone: real := 8.0
  const SnapZone: real := 10.0

  /** Position and scaled size of a canvas object. */
  datatype Rect = Rect(left: real, top: real, width: real, height: real)

  /** A canvas object as the snapping rule sees it. */
  datatype Item = Item(id: nat, rect: Rect, evented: bool)

  /** A snap on one axis: the object's new left (or top) and the guide's position. */
  datatype Snap = Snap(pos: real, guide: real)

  function RAbs(x: real): real { if x < 0.0 then -x else x }

  function Near(a: real, b: real, zone: real): bool { RAbs(a - b) < zone }

  /** One axis of the rule, given the moving object's start `s` and size `w` and a
      target's start `ts` and size `tw`: centre to centre, start to start, end to
      end, start to end, end to start, the first that lies within the zone. */
  function AxisSnap(s: real, w: real, ts: real, tw: real): (r: Option<Snap>)
  {
    var c, e, tc, te := s + w / 2.0, s + w, ts + tw / 2.0, ts + tw;
    if Near(c, tc, AlignZone) then Some(Snap(tc - w / 2.0, tc))
    else if Near(s, ts, AlignZone) then Some(Snap(ts, ts))
    else if Near(e, te, AlignZone) then Some(Snap(te - w, te))
    else if Near(s, te, AlignZone) then Some(Snap(te, te))
    else if Near(e, ts, AlignZone) then Some(Snap(ts - w, ts))
    else None
  }

  /** An object snap moves the object by less than 8, and afterwards the guide
      runs along a start, centre or end of the target and along the start,
      centre or end of the moved object. */
  lemma AxisSnapAligns(s: real, w: real, ts: real, tw: real)
    requires AxisSnap(s, w, ts, tw).Some?
    ensures var sn := AxisSnap(s, w, ts, tw).value;
      && RAbs(sn.pos - s) < AlignZone
      && (sn.guide == ts || sn.guide == ts + tw / 2.0 || sn.guide == ts + tw)
      && (sn.guide == sn.pos || sn.guide == sn.pos + w / 2.0 || sn.guide == sn.pos + w)
  {
  }

  /** The centre pair is tried first: when centres are within the zone, the
      centres are aligned whatever the edges do. */
  lemma CentreFirst(s: real, w: real, ts: real, tw: real)
    requires Near(s + w / 2.0, ts + tw / 2.0, AlignZone)
    ensures AxisSnap(s, w, ts, tw) == Some(Snap(ts + tw / 2.0 - w / 2.0, ts + tw / 2.0))
  {
  }

  /** No pair within the zone, no snap. */
  lemma FarNoSnap(s: real, w: real, ts: real, tw: real)
    requires !Near(s + w / 2.0, ts + tw / 2.0, AlignZone) && !Near(s, ts, AlignZone)
    requires !Near(s + w, ts + tw, AlignZone) && !Near(s, ts + tw, AlignZone) && !Near(s + w, ts, AlignZone)
    ensures AxisSnap(s, w, ts, tw).None?
  {
  }

  function XSnap(o: Rect, t: Rect): Option<Snap> {
    AxisSnap(o.left, o.width, t.left, t.width)
  }

  function YSnap(o: Rect, t: Rect): Option<Snap> {
    AxisSnap(o.top, o.height, t.top, t.height)
  }

  /** The objects the moving one can align with: every other object that takes
      pointer events.  (Guide lines never take pointer events.) */
  function Candidates(items: seq<Item>, activeId: nat): (r: seq<Rect>)
    ensures |r| <= |items|
    ensures forall it :: it in items && it.id != activeId && it.evented ==> it.rect in r
    ensures forall x :: x in r ==> exists it :: it in items && it.rect == x && it.id != activeId && it.evented
  {
    if items == [] then []
    else if items[0].id != activeId && items[0].evented then [items[0].rect] + Candidates(items[1..], activeId)
    else Candidates(items[1..], activeId)
  }

  /** The snap along one axis from the first candidate that offers one; `horizontal`
      chooses the x axis. */
  function FirstSnap(o: Rect, cands: seq<Rect>, horizontal: bool): (r: Option<Snap>)
    decreases |cands|
  {
    if cands == [] then None
    else
      var here := if horizontal then XSnap(o, cands[0]) else YSnap(o, cands[0]);
      if here.Some? then here else FirstSnap(o, cands[1..], horizontal)
  }

  lemma {:induction false} FirstSnapIsFirst(o: Rect, cands: seq<Rect>, horizontal: bool)
    ensures FirstSnap(o, cands, horizontal).Some? <==>
      exists k :: 0 <= k < |cands| && (if horizontal then XSnap(o, cands[k]) else YSnap(o, cands[k])).Some?
    ensures FirstSnap(o, cands, horizontal).Some? ==>
      exists k :: 0 <= k < |cands| && FirstSnap(o, cands, horizontal) == (if horizontal then XSnap(o, cands[k]) else YSnap(o, cands[k]))
    decreases |cands|
  {
    if cands != [] {
      FirstSnapIsFirst(o, cands[1..], horizontal);
      var rest := cands[1..];
      if exists k :: 0 <= k < |rest| && (if horizontal then XSnap(o, rest[k]) else YSnap(o, rest[k])).Some? {
        var k :| 0 <= k < |rest| && (if horizontal then XSnap(o, rest[k]) else YSnap(o, rest[k])).Some?;
        assert rest[k] == cands[k + 1];
      }
      if FirstSnap(o, rest, horizontal).Some? && FirstSnap(o, cands, horizontal) == FirstSnap(o, rest, horizontal) {
        var k :| 0 <= k < |rest| && FirstSnap(o, rest, horizontal) == (if horizontal then XSnap(o, rest[k]) else YSnap(o, rest[k]));
        assert rest[k] == cands[k + 1];
      }
    }
  }

  /** The axis result: the first object snap, else the canvas centre within 10. */
  function AxisResult(o: Rect, cands: seq<Rect>, horizontal: bool, canvasSize: real): (r: Option<Snap>)
  {
    var first := FirstSnap(o, cands, horizontal);
    if first.Some? then first
    else
      var s, w := if horizontal then o.left else o.top, if horizontal then o.width else o.height;
      var mid := canvasSize / 2.0;
      if Near(s + w / 2.0, mid, SnapZone) then Some(Snap(mid - w / 2.0, mid)) else None
  }

  /** Any snap on an axis moves the object by less than 10 along it; an object
      snap by less than 8. */
  lemma {:induction false} AxisResultBounded(o: Rect, cands: seq<Rect>, horizontal: bool, canvasSize: real)
    requires AxisResult(o, cands, horizontal, canvasSize).Some?
    ensures RAbs(AxisResult(o, cands, horizontal, canvasSize).value.pos - (if horizontal then o.left else o.top)) < SnapZone
    ensures FirstSnap(o, cands, horizontal).Some? ==>
      RAbs(AxisResult(o, cands, horizontal, canvasSize).value.pos - (if horizontal then o.left else o.top)) < AlignZone
  {
    var first := FirstSnap(o, cands, horizontal);
    if first.Some? {
      FirstSnapIsFirst(o, cands, horizontal);
      var k :| 0 <= k < |cands| && first == (if horizontal then XSnap(o, cands[k]) else YSnap(o, cands[k]));
      if horizontal {
        AxisSnapAligns(o.left, o.width, cands[k].left, cands[k].width);
      } else {
        AxisSnapAligns(o.top, o.height, cands[k].top, cands[k].height);
      }
    }
  }

  function GuidesOf(r: Option<Snap>): (g: seq<real>)
    ensures |g| <= 1
  {
    if r.Some? then [r.value.guide] else []
  }

  /** The guide lines and the active object's position on the canvas. */
  class GuideLayer {
    /** Vertical guides by x, horizontal guides by y. */
    var vertical: seq<real>
    var horizontal: seq<real>

    constructor ()
      ensures vertical == [] && horizontal == []
    {
      vertical := [];
      horizontal := [];
    }

    /** `clearGuides`. */
    method ClearGuides()
      modifies this
      ensures vertical == [] && horizontal == []
    {
      vertical := [];
      horizontal := [];
    }

    /** The object:moving handler: old guides go, each axis snaps at most once
        (object snaps in candidate order, then the canvas centre), and each snap
        adds one guide. */
    method OnMoving(o: Rect, items: seq<Item>, activeId: nat, canvasW: real, canvasH: real)
      returns (moved: Rect)
      modifies this
      ensures var rx := AxisResult(o, Candidates(items, activeId), true, canvasW);
              var ry := AxisResult(o, Candidates(items, activeId), false, canvasH);
        && moved == o.(left := if rx.Some? then rx.value.pos else o.left,
                       top := if ry.Some? then ry.value.pos else o.top)
        && vertical == GuidesOf(rx) && horizontal == GuidesOf(ry)
    {
      ClearGuides();
      var cands := Candidates(items, activeId);
      moved := o;
      var snappedX, snappedY := false, false;
      var i := 0;
      while i < |cands|
        invariant 0 <= i <= |cands|
        invariant AxisScanned(o, cands, i, true, snappedX, vertical, moved.left, o.left)
        invariant AxisScanned(o, cands, i, false, snappedY, horizontal, moved.top, o.top)
        invariant moved.width == o.width && moved.height == o.height
      {
        var t := cands[i];
        AxisScanStep(o, cands, i, true, snappedX, vertical, moved.left, o.left);
        AxisScanStep(o, cands, i, false, snappedY, horizontal, moved.top, o.top);
        if !snappedX {
          var sx := XSnap(o, t);
          if sx.Some? {
            moved := moved.(left := sx.value.pos);
            vertical := vertical + [sx.value.guide];
            snappedX := true;
          }
        }
        if !snappedY {
          var sy := YSnap(o, t);
          if sy.Some? {
            moved := moved.(top := sy.value.pos);
            horizontal := horizontal + [sy.value.guide];
            snappedY := true;
          }
        }
        i := i + 1;
        if snappedX && snappedY {
          break;
        }
      }
      AxisScanDone(o, cands, i, true, snappedX, vertical, moved.left, o.left);
      AxisScanDone(o, cands, i, false, snappedY, horizontal, moved.top, o.top);
      var midX, midY := canvasW / 2.0, canvasH / 2.0;
      if !snappedX && Near(o.left + o.width / 2.0, midX, SnapZone) {
        moved := moved.(left := midX - o.width / 2.0);
        vertical := vertical + [midX];
        snappedX := true;
      }
      if !snappedY && Near(o.top + o.height / 2.0, midY, SnapZone) {
        moved := moved.(top := midY - o.height / 2.0);
        horizontal := horizontal + [midY];
        snappedY := true;
      }
    }
  }

  /** After scanning the first `i` candidates on one axis: the axis has snapped
      exactly when one of them snaps, its first snap is then the axis's first
      snap over all candidates, and the guides and position show that snap or
      are untouched. */
  ghost predicate AxisScanned(o: Rect, cands: seq<Rect>, i: nat, horizontal: bool,
                              snapped: bool, guides: seq<real>, pos: real, orig: real)
    requires i <= |cands|
  {
    var seen := FirstSnap(o, cands[..i], horizontal);
    && (snapped <==> seen.Some?)
    && FirstSnap(o, cands, horizontal) == (if snapped then seen else FirstSnap(o, cands[i..], horizontal))
    && (snapped ==> guides == [seen.value.guide] && pos == seen.value.pos)
    && (!snapped ==> guides == [] && pos == orig)
  }

  /** One loop step on one axis: an axis not yet snapped takes the candidate's
      snap if it has one. */
  lemma AxisScanStep(o: Rect, cands: seq<Rect>, i: nat, horizontal: bool,
                     snapped: bool, guides: seq<real>, pos: real, orig: real)
    requires i < |cands| && AxisScanned(o, cands, i, horizontal, snapped, guides, pos, orig)
    ensures var here := if horizontal then XSnap(o, cands[i]) else YSnap(o, cands[i]);
      if !snapped && here.Some?
      then AxisScanned(o, cands, i + 1, horizontal, true, guides + [here.value.guide], here.value.pos, orig)
      else AxisScanned(o, cands, i + 1, horizontal, snapped, guides, pos, orig)
  {
    PrefixStep(o, cands, i, horizontal);
  }

  /** When the scan ends, by running out of candidates or by snapping, the axis
      holds its first snap over all candidates, or nothing. */
  lemma AxisScanDone(o: Rect, cands: seq<Rect>, i: nat, horizontal: bool,
                     snapped: bool, guides: seq<real>, pos: real, orig: real)
    requires i <= |cands| && AxisScanned(o, cands, i, horizontal, snapped, guides, pos, orig)
    requires i == |cands| || snapped
    ensures snapped <==> FirstSnap(o, cands, horizontal).Some?
    ensures snapped ==> guides == [FirstSnap(o, cands, horizontal).value.guide]
                        && pos == FirstSnap(o, cands, horizontal).value.pos
    ensures !snapped ==> guides == [] && pos == orig
  {
    if !snapped {
      assert cands[i..] == [];
    }
  }

  /** Scanning one more candidate: the prefix result extends by that candidate,
      and the suffix result splits off its first element. */
  lemma {:induction false} PrefixStep(o: Rect, cands: seq<Rect>, i: nat, horizontal: bool)
    requires i < |cands|
    ensures var here := if horizontal then XSnap(o, cands[i]) else YSnap(o, cands[i]);
      && FirstSnap(o, cands[..i + 1], horizontal) ==
           (if FirstSnap(o, cands[..i], horizontal).Some? then FirstSnap(o, cands[..i], horizontal) else here)
      && FirstSnap(o, cands[i..], horizontal) == (if here.Some? then here else FirstSnap(o, cands[i + 1..], horizontal))
    decreases i
  {
    assert cands[i..][1..] == cands[i + 1..];
    if i > 0 {
      PrefixStep(o, cands[1..], i - 1, horizontal);
      assert cands[1..][..i - 1] == cands[..i][1..];
      assert cands[1..][..i] == cands[..i + 1][1..];
      assert cands[1..][i - 1] == cands[i];
      assert cands[1..][i - 1..] == cands[i..];
      assert cands[1..][i..] == cands[i + 1..];
    } else {
      assert cands[..1][1..] == [];
    }
  }
}
