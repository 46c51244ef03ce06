/** The image viewer of both game screens: zoom buttons clamped to a range
    in steps of 0.5, drag-to-pan gated by a dragging flag, the hover flag
    that hides the answer overlays, and the overlay boxes themselves, which
    turn a 0-1000 `box_2d` into CSS percentages. */
module Viewer {
  import opened GameTypes

  datatype Point = Point(x: real, y: real)

  const Origin := Point(0.0, 0.0)

  /** The viewer's state: the `zoom` and `pan` state, the `isDragging`,
      `startPos` and `startPan` refs, and whether the cursor is over the
      image. */
  datatype View = View(
    zoom: real,
    pan: Point,
    dragging: bool,
    startPos: Point,
    startPan: Point,
    hovering: bool)

  /** The state a viewer starts in. */
  const InitialView := View(1.0, Origin, false, Origin, Origin, false)

  /** A whole number of half steps. */
  predicate HalfStep(z: real) {
    (2.0 * z).Floor as real == 2.0 * z
  }

  /** The viewer's invariant: zoom between 1 and the viewer's maximum, on
      the 0.5 grid the buttons move along. */
  predicate ZoomInRange(v: View, maxZoom: real) {
    1.0 <= v.zoom <= maxZoom && HalfStep(v.zoom)
  }

  /** A cap a zoom-in button may use with a viewer whose maximum is `maxZoom`. */
  predicate ValidCap(cap: real, maxZoom: real) {
    1.0 <= cap <= maxZoom && HalfStep(cap)
  }

  // ---------------------------------------------------------------------
  // zoom
  // ---------------------------------------------------------------------

  /** `Math.min(z + 0.5, cap)`. */
  function ZoomedIn(z: real, cap: real): (r: real)
    ensures r <= cap && r <= z + 0.5
    ensures r == cap || r == z + 0.5
  {
    if z + 0.5 < cap then z + 0.5 else cap
  }

  /** `Math.max(z - 0.5, 1)`. */
  function ZoomedOut(z: real): (r: real)
    ensures r >= 1.0 && r >= z - 0.5
    ensures r == 1.0 || r == z - 0.5
  {
    if z - 0.5 > 1.0 then z - 0.5 else 1.0
  }

  lemma HalfStepShift(z: real)
    requires HalfStep(z)
    ensures HalfStep(z + 0.5) && HalfStep(z - 0.5)
  {
    assert 2.0 * (z + 0.5) == 2.0 * z + 1.0;
    assert 2.0 * (z - 0.5) == 2.0 * z - 1.0;
  }

  /** Zooming in or out from a zoom in range stays in range, on the grid. */
  lemma ZoomButtonsKeepRange(z: real, cap: real, maxZoom: real)
    requires 1.0 <= z <= maxZoom && HalfStep(z) && ValidCap(cap, maxZoom)
    ensures var r := ZoomedIn(z, cap); 1.0 <= r <= maxZoom && HalfStep(r)
    ensures var r := ZoomedOut(z); 1.0 <= r <= maxZoom && HalfStep(r)
  {
    HalfStepShift(z);
    assert HalfStep(1.0);
  }

  /** Below the cap, zooming out undoes zooming in. */
  lemma ZoomOutUndoesZoomIn(z: real, cap: real)
    requires 1.0 <= z && z + 0.5 <= cap
    ensures ZoomedOut(ZoomedIn(z, cap)) == z
  {
  }

  /** Above 1, zooming in undoes zooming out. */
  lemma ZoomInUndoesZoomOut(z: real, cap: real)
    requires 1.5 <= z <= cap
    ensures ZoomedIn(ZoomedOut(z), cap) == z
  {
  }

  /** One zoom shared by two sets of buttons with different caps, as on the
      classic screen (6 in the full view, 4 inline): once the full view has
      zoomed past 4, the inline zoom-in button lowers the zoom to 4. */
  lemma InlineZoomInCanLower(z: real)
    requires 4.0 < z <= 6.0
    ensures ZoomedIn(z, 4.0) == 4.0 && ZoomedIn(z, 4.0) < z
    ensures ZoomedIn(z, 6.0) >= z
  {
  }

  // ---------------------------------------------------------------------
  // the viewer's handlers, as transitions on View
  // ---------------------------------------------------------------------

  /** `handleStart`: remember where the drag began and the pan at that time. */
  function Press(v: View, x: real, y: real): View {
    v.(dragging := true, startPos := Point(x, y), startPan := v.pan)
  }

  /** `handleMove`: while dragging, pan by the cursor's travel since the
      press, divided by the zoom; otherwise nothing. */
  function Move(v: View, x: real, y: real): View
    requires v.zoom >= 1.0
  {
    if !v.dragging then v
    else v.(pan := Point(v.startPan.x + (x - v.startPos.x) / v.zoom,
                         v.startPan.y + (y - v.startPos.y) / v.zoom))
  }

  /** `handleEnd` (mouse up). */
  function Release(v: View): View {
    v.(dragging := false)
  }

  /** Mouse leave: `handleEnd()` and the cursor is no longer hovering. */
  function Leave(v: View): View {
    v.(dragging := false, hovering := false)
  }

  /** Mouse enter. */
  function Enter(v: View): View {
    v.(hovering := true)
  }

  /** The hover flag cleared, as the classic screen's play again does. */
  function Unhovered(v: View): View {
    v.(hovering := false)
  }

  /** `resetZoom`: zoom 1 and no pan. */
  function Reset(v: View): View {
    v.(zoom := 1.0, pan := Origin)
  }

  function ZoomIn(v: View, cap: real): View {
    v.(zoom := ZoomedIn(v.zoom, cap))
  }

  function ZoomOut(v: View): View {
    v.(zoom := ZoomedOut(v.zoom))
  }

  /** A mouse move changes the pan only while a drag is in progress, and
      nothing but the pan. */
  lemma MoveOnlyWhileDragging(v: View, x: real, y: real)
    requires v.zoom >= 1.0
    ensures !v.dragging ==> Move(v, x, y) == v
    ensures Move(v, x, y).(pan := v.pan) == v
  {
  }

  /** After a release or a mouse leave, moves do nothing until the next press. */
  lemma {:induction false} NoPanAfterRelease(v: View, moves: seq<Point>)
    requires v.zoom >= 1.0
    ensures Moves(Release(v), moves) == Release(v)
    ensures Moves(Leave(v), moves) == Leave(v)
  {
    if moves != [] {
      NoPanAfterRelease(v, moves[1..]);
    }
  }

  /** A sequence of mouse moves, one after another. */
  function Moves(v: View, moves: seq<Point>): View
    requires v.zoom >= 1.0
    decreases |moves|
  {
    if moves == [] then v
    else
      var w := Move(v, moves[0].x, moves[0].y);
      Moves(w, moves[1..])
  }

  /** During one drag only the last move counts: the pan is always computed
      from the pan at the press, not accumulated. */
  lemma {:induction false} DragPanFromLastMove(v: View, moves: seq<Point>)
    requires v.zoom >= 1.0 && v.dragging && moves != []
    ensures var last := moves[|moves| - 1]; Moves(v, moves) == Move(v, last.x, last.y)
    decreases |moves|
  {
    if |moves| > 1 {
      var w := Move(v, moves[0].x, moves[0].y);
      assert moves[1..][|moves[1..]| - 1] == moves[|moves| - 1];
      DragPanFromLastMove(w, moves[1..]);
    }
  }

  /** Every handler keeps the zoom in range (a zoom-in with a valid cap). */
  lemma HandlersKeepZoomInRange(v: View, maxZoom: real, cap: real, x: real, y: real)
    requires ZoomInRange(v, maxZoom) && ValidCap(cap, maxZoom)
    ensures ZoomInRange(Press(v, x, y), maxZoom) && ZoomInRange(Move(v, x, y), maxZoom)
    ensures ZoomInRange(Release(v), maxZoom) && ZoomInRange(Leave(v), maxZoom)
    ensures ZoomInRange(Enter(v), maxZoom)
    ensures ZoomInRange(ZoomIn(v, cap), maxZoom) && ZoomInRange(ZoomOut(v), maxZoom)
    ensures ZoomInRange(Reset(v), maxZoom)
  {
    ZoomButtonsKeepRange(v.zoom, cap, maxZoom);
    assert HalfStep(1.0);
  }

  // ---------------------------------------------------------------------
  // answer overlays
  // ---------------------------------------------------------------------

  /** The CSS box of an overlay, in percent of the image. */
  datatype OverlayRect = OverlayRect(top: real, left: real, width: real, height: real)

  /** The style of a revealed difference's overlay: top = ymin/10 %,
      left = xmin/10 %, width = (xmax - xmin)/10 %, height = (ymax - ymin)/10 %. */
  function Overlay(b: Box): (r: OverlayRect)
    ensures r.top * 10.0 == b.ymin as real && r.left * 10.0 == b.xmin as real
    ensures (r.top + r.height) * 10.0 == b.ymax as real
    ensures (r.left + r.width) * 10.0 == b.xmax as real
  {
    OverlayRect(b.ymin as real / 10.0, b.xmin as real / 10.0,
                (b.xmax - b.xmin) as real / 10.0, (b.ymax - b.ymin) as real / 10.0)
  }

  /** The box a rectangle came from: percentages back on the 0-1000 grid. */
  function BoxOf(r: OverlayRect): Box {
    Box((r.top * 10.0).Floor, (r.left * 10.0).Floor,
        ((r.top + r.height) * 10.0).Floor, ((r.left + r.width) * 10.0).Floor)
  }

  /** No information is lost: the overlay determines the box. */
  lemma OverlayRoundTrip(b: Box)
    ensures BoxOf(Overlay(b)) == b
  {
    var r := Overlay(b);
    assert (r.top * 10.0).Floor == b.ymin;
    assert (r.left * 10.0).Floor == b.xmin;
    assert ((r.top + r.height) * 10.0).Floor == b.ymax;
    assert ((r.left + r.width) * 10.0).Floor == b.xmax;
  }

  /** A box on the 0-1000 grid gives an overlay inside the image: every
      value is a percentage in [0, 100] and the box ends by the right and
      bottom edges. */
  lemma OverlayWithinImage(b: Box)
    requires OnGrid(b)
    ensures var r := Overlay(b);
      && 0.0 <= r.top <= 100.0 && 0.0 <= r.left <= 100.0
      && 0.0 <= r.width <= 100.0 && 0.0 <= r.height <= 100.0
      && r.top + r.height <= 100.0 && r.left + r.width <= 100.0
  {
  }

  /** Overlays are drawn only once the round is over, the answers are no
      longer being fetched, and the cursor is not over the image. */
  function OverlaysShown(gameOver: bool, revealing: bool, v: View): (shown: bool)
    ensures shown ==> gameOver && !revealing
    ensures shown <==> gameOver && !revealing && !v.hovering
  {
    gameOver && !revealing && !v.hovering
  }

  /** The overlays drawn over one image: one per revealed difference, in
      order, or none. */
  function Overlays(gameOver: bool, revealing: bool, v: View, diffs: seq<Difference>): (rs: seq<OverlayRect>)
    ensures |rs| == (if OverlaysShown(gameOver, revealing, v) then |diffs| else 0)
    ensures forall i :: 0 <= i < |rs| ==> rs[i] == Overlay(diffs[i].box)
  {
    if OverlaysShown(gameOver, revealing, v) then seq(|diffs|, i requires 0 <= i < |diffs| => Overlay(diffs[i].box))
    else []
  }

  // ---------------------------------------------------------------------
  // the viewer as an object
  // ---------------------------------------------------------------------

  /** The zoom, pan, drag refs and hover flag of one image viewer; its
      zoom-in buttons never exceed `maxZoom` (4 on the dashboard, 6 in the
      classic screen's full view). */
  class PanZoom {
    const maxZoom: real
    var zoom: real
    var pan: Point
    var isDragging: bool
    var startPos: Point
    var startPan: Point
    var isHovering: bool

    function State(): View
      reads this
    {
      View(zoom, pan, isDragging, startPos, startPan, isHovering)
    }

    ghost predicate Valid()
      reads this
    {
      ValidCap(maxZoom, maxZoom) && ZoomInRange(State(), maxZoom)
    }

    constructor (maxZoom: real)
      requires ValidCap(maxZoom, maxZoom)
      ensures Valid() && this.maxZoom == maxZoom && State() == InitialView
    {
      this.maxZoom := maxZoom;
      zoom := 1.0;
      pan := Origin;
      isDragging := false;
      startPos := Origin;
      startPan := Origin;
      isHovering := false;
      new;
      assert HalfStep(1.0);
    }

    method HandleStart(x: real, y: real)
      requires Valid()
      modifies this
      ensures Valid() && State() == Press(old(State()), x, y)
    {
      isDragging := true;
      startPos := Point(x, y);
      startPan := pan;
    }

    method HandleMove(x: real, y: real)
      requires Valid()
      modifies this
      ensures Valid() && State() == Move(old(State()), x, y)
    {
      if !isDragging {
        return;
      }
      var deltaX := (x - startPos.x) / zoom;
      var deltaY := (y - startPos.y) / zoom;
      pan := Point(startPan.x + deltaX, startPan.y + deltaY);
    }

    method HandleEnd()
      requires Valid()
      modifies this
      ensures Valid() && State() == Release(old(State()))
    {
      isDragging := false;
    }

    method MouseLeave()
      requires Valid()
      modifies this
      ensures Valid() && State() == Leave(old(State()))
    {
      HandleEnd();
      isHovering := false;
    }

    method MouseEnter()
      requires Valid()
      modifies this
      ensures Valid() && State() == Enter(old(State()))
    {
      isHovering := true;
    }

    method ZoomInButton(cap: real)
      requires Valid() && ValidCap(cap, maxZoom)
      modifies this
      ensures Valid() && State() == ZoomIn(old(State()), cap)
    {
      ZoomButtonsKeepRange(zoom, cap, maxZoom);
      zoom := ZoomedIn(zoom, cap);
    }

    method ZoomOutButton()
      requires Valid()
      modifies this
      ensures Valid() && State() == ZoomOut(old(State()))
    {
      ZoomButtonsKeepRange(zoom, maxZoom, maxZoom);
      zoom := ZoomedOut(zoom);
    }

    method ClearHover()
      requires Valid()
      modifies this
      ensures Valid() && State() == Unhovered(old(State()))
    {
      isHovering := false;
    }

    method ResetZoom()
      requires Valid()
      modifies this
      ensures Valid() && State() == Reset(old(State()))
    {
      assert HalfStep(1.0);
      zoom := 1.0;
      pan := Origin;
    }
  }
}
