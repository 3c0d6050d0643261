/**
 * The layout rules of the block editor's graphics items, as pure functions
 * over exact real coordinates: grid snapping, clamping into the scene,
 * title measurement and placement, block height and interaction rectangles.
 */
module Geometry {
  import opened Wrappers

  /** Side of the small background grid squares that dragged items snap to. */
  const Grid: real := 20.0
  /** Margin kept between a dragged item and the border of the scene rectangle. */
  const ScenePadding: real := 20.0
  /** Internal padding of a connector's interaction rectangle. */
  const ConnectorPadding: real := 2.5

  datatype Point = Point(x: real, y: real)

  /** A rectangle given by its top-left corner, width and height (Qt's QRectF). */
  datatype Rect = Rect(x: real, y: real, w: real, h: real) {
    /** Point membership, edges included, for a rectangle of non-negative size. */
    predicate Contains(p: Point) {
      x <= p.x <= x + w && y <= p.y <= y + h
    }
  }

  // ---------------------------------------------------------------------------
  // Grid snapping: Python's round() rounds halves to the even neighbour.

  /** The integer nearest to `r`; a tie goes to the even integer. */
  function RoundHalfEven(r: real): (n: int)
    ensures -0.5 <= r - n as real <= 0.5
    ensures (r - n as real == 0.5 || n as real - r == 0.5) ==> n % 2 == 0
  {
    var f := r.Floor;
    var d := r - f as real;
    if d < 0.5 then f
    else if d > 0.5 then f + 1
    else if f % 2 == 0 then f else f + 1
  }

  /** Only one integer is within one half of `r` and even on a tie. */
  lemma RoundHalfEvenUnique(r: real, m: int)
    requires -0.5 <= r - m as real <= 0.5
    requires (r - m as real == 0.5 || m as real - r == 0.5) ==> m % 2 == 0
    ensures RoundHalfEven(r) == m
  {
  }

  /** Rounding never reverses the order of two numbers. */
  lemma RoundHalfEvenMonotone(r: real, s: real)
    requires r <= s
    ensures RoundHalfEven(r) <= RoundHalfEven(s)
  {
    if r < s {
      var n, m := RoundHalfEven(r), RoundHalfEven(s);
      assert n as real - 0.5 <= r < s <= m as real + 0.5;
    }
  }

  /** A multiple of the grid size. */
  predicate OnGrid(v: real) {
    (v / Grid).Floor as real * Grid == v
  }

  /** `round(c / 20) * 20`: the grid line nearest to `c`, halves to an even multiple. */
  function Snap(c: real): (s: real)
    ensures OnGrid(s)
    ensures -Grid / 2.0 <= s - c <= Grid / 2.0
  {
    var k := RoundHalfEven(c / Grid);
    assert (k as real * Grid / Grid).Floor == k;
    k as real * Grid
  }

  /** A coordinate already on the grid does not move when snapped. */
  lemma SnapFixesGrid(c: real)
    requires OnGrid(c)
    ensures Snap(c) == c
  {
    var k := (c / Grid).Floor;
    assert c / Grid == k as real;
    RoundHalfEvenUnique(c / Grid, k);
  }

  /** Snapping never reverses the order of two coordinates. */
  lemma SnapMonotone(c: real, d: real)
    requires c <= d
    ensures Snap(c) <= Snap(d)
  {
    RoundHalfEvenMonotone(c / Grid, d / Grid);
  }

  /** Halfway coordinates go to the multiple of 40, not always up. */
  lemma SnapTiesToEven()
    ensures Snap(10.0) == 0.0 && Snap(30.0) == 40.0 && Snap(50.0) == 40.0 && Snap(-10.0) == 0.0
  {
    RoundHalfEvenUnique(0.5, 0);
    RoundHalfEvenUnique(1.5, 2);
    RoundHalfEvenUnique(2.5, 2);
    RoundHalfEvenUnique(-0.5, 0);
  }

  // ---------------------------------------------------------------------------
  // Clamping into the scene rectangle.

  /**
   * Raises `v` to `lo` and then lowers it to `hi`, in that order, so that when
   * the interval is empty the upper limit is the one that holds.
   */
  function ClampAxis(v: real, lo: real, hi: real): (r: real)
    ensures lo <= hi ==> lo <= r <= hi
    ensures hi < lo ==> r == hi
    ensures lo <= v <= hi ==> r == v
    ensures v < lo <= hi ==> r == lo
    ensures v > hi ==> r == hi
    ensures r == v || r == lo || r == hi
  {
    var raised := if v < lo then lo else v;
    if raised > hi then hi else raised
  }

  /** Lowest x a dragged item may take in `scene`. */
  function LeftLimit(scene: Rect): real { scene.x + ScenePadding }
  /** Lowest y a dragged item may take in `scene`. */
  function TopLimit(scene: Rect): real { scene.y + ScenePadding }
  /** Highest x a dragged item of width `width` may take in `scene`. */
  function RightLimit(scene: Rect, width: real): real { scene.x + scene.w - width - ScenePadding }
  /** Highest y; the item's title band below it is kept inside the scene too. */
  function BottomLimit(scene: Rect, height: real, titleHeight: real): real {
    scene.y + scene.h - height - titleHeight - ScenePadding
  }

  /**
   * Where a dragged item of the given size ends up when the pointer has put it
   * at `raw`: each coordinate is snapped to the grid, then clamped left, top,
   * right and bottom against the scene rectangle.
   */
  function DragTarget(raw: Point, scene: Rect, width: real, height: real, titleHeight: real): (p: Point)
    ensures p.x == Snap(raw.x) || p.x == LeftLimit(scene) || p.x == RightLimit(scene, width)
    ensures p.y == Snap(raw.y) || p.y == TopLimit(scene) || p.y == BottomLimit(scene, height, titleHeight)
    ensures p.x <= RightLimit(scene, width) && p.y <= BottomLimit(scene, height, titleHeight)
    ensures Snap(raw.x) < LeftLimit(scene) <= RightLimit(scene, width) ==> p.x == LeftLimit(scene)
    ensures Snap(raw.x) > RightLimit(scene, width) ==> p.x == RightLimit(scene, width)
    ensures Snap(raw.y) < TopLimit(scene) <= BottomLimit(scene, height, titleHeight) ==> p.y == TopLimit(scene)
    ensures Snap(raw.y) > BottomLimit(scene, height, titleHeight) ==> p.y == BottomLimit(scene, height, titleHeight)
    ensures LeftLimit(scene) <= Snap(raw.x) <= RightLimit(scene, width) ==> p.x == Snap(raw.x)
    ensures TopLimit(scene) <= Snap(raw.y) <= BottomLimit(scene, height, titleHeight) ==> p.y == Snap(raw.y)
  {
    Point(ClampAxis(Snap(raw.x), LeftLimit(scene), RightLimit(scene, width)),
          ClampAxis(Snap(raw.y), TopLimit(scene), BottomLimit(scene, height, titleHeight)))
  }

  /** When the scene has room for the item, the drag result lies within all four limits. */
  lemma DragStaysInScene(raw: Point, scene: Rect, width: real, height: real, titleHeight: real)
    requires scene.w >= width + 2.0 * ScenePadding
    requires scene.h >= height + titleHeight + 2.0 * ScenePadding
    ensures var p := DragTarget(raw, scene, width, height, titleHeight);
      && LeftLimit(scene) <= p.x <= RightLimit(scene, width)
      && TopLimit(scene) <= p.y <= BottomLimit(scene, height, titleHeight)
  {
  }

  /** When the scene is too small, the right and bottom clamps win over the left and top ones. */
  lemma DragTooSmallSceneRightBottomWin(raw: Point, scene: Rect, width: real, height: real, titleHeight: real)
    ensures var p := DragTarget(raw, scene, width, height, titleHeight);
      && (scene.w < width + 2.0 * ScenePadding ==> p.x == RightLimit(scene, width))
      && (scene.h < height + titleHeight + 2.0 * ScenePadding ==> p.y == BottomLimit(scene, height, titleHeight))
  {
  }

  /**
   * When no clamp fires the result is the snapped position: a multiple of the
   * grid in both axes, at most half a grid square from where the pointer put it.
   */
  lemma DragUnclampedIsOnGrid(raw: Point, scene: Rect, width: real, height: real, titleHeight: real)
    requires LeftLimit(scene) <= Snap(raw.x) <= RightLimit(scene, width)
    requires TopLimit(scene) <= Snap(raw.y) <= BottomLimit(scene, height, titleHeight)
    ensures var p := DragTarget(raw, scene, width, height, titleHeight);
      && p == Point(Snap(raw.x), Snap(raw.y))
      && OnGrid(p.x) && OnGrid(p.y)
      && -Grid / 2.0 <= p.x - raw.x <= Grid / 2.0
      && -Grid / 2.0 <= p.y - raw.y <= Grid / 2.0
  {
  }

  /** Dragging further right (down) never leaves the item further left (up). */
  lemma DragMonotone(a: Point, b: Point, scene: Rect, width: real, height: real, titleHeight: real)
    requires a.x <= b.x && a.y <= b.y
    ensures DragTarget(a, scene, width, height, titleHeight).x <= DragTarget(b, scene, width, height, titleHeight).x
    ensures DragTarget(a, scene, width, height, titleHeight).y <= DragTarget(b, scene, width, height, titleHeight).y
  {
    SnapMonotone(a.x, b.x);
    SnapMonotone(a.y, b.y);
  }

  /**
   * When all four limits are grid lines, dragging to the result of a drag
   * leaves the item where it is.
   */
  lemma DragIdempotentOnAlignedScene(raw: Point, scene: Rect, width: real, height: real, titleHeight: real)
    requires OnGrid(LeftLimit(scene)) && OnGrid(RightLimit(scene, width))
    requires OnGrid(TopLimit(scene)) && OnGrid(BottomLimit(scene, height, titleHeight))
    ensures var p := DragTarget(raw, scene, width, height, titleHeight);
      DragTarget(p, scene, width, height, titleHeight) == p
  {
    var p := DragTarget(raw, scene, width, height, titleHeight);
    assert OnGrid(p.x) by {
      if p.x == Snap(raw.x) {} else {}
    }
    assert OnGrid(p.y) by {
      if p.y == Snap(raw.y) {} else {}
    }
    SnapFixesGrid(p.x);
    SnapFixesGrid(p.y);
  }

  /** A drag that lands at `(997, 3)` in a 1000 x 600 scene ends at `(880, 20)`. */
  lemma DragScenario()
    ensures DragTarget(Point(997.0, 3.0), Rect(0.0, 0.0, 1000.0, 600.0), 100.0, 80.0, 25.0) == Point(880.0, 20.0)
  {
    RoundHalfEvenUnique(997.0 / Grid, 50);
    RoundHalfEvenUnique(3.0 / Grid, 0);
  }

  // ---------------------------------------------------------------------------
  // Title measurement and placement.

  /** The measured title width, made even by adding one pixel to an odd width. */
  function TitleLength(rawWidth: int): (t: int)
    ensures t % 2 == 0
    ensures rawWidth <= t <= rawWidth + 1
  {
    if rawWidth % 2 != 0 then rawWidth + 1 else rawWidth
  }

  /** Where the title item is put relative to the block: under it, centred in `width - padding`. */
  function TitlePosition(width: real, height: real, padding: real, titleLength: int): (p: Point)
    ensures p.x + titleLength as real / 2.0 == (width - padding) / 2.0
    ensures p.y - height == padding
  {
    Point((width - padding - titleLength as real) / 2.0, height + padding)
  }

  /**
   * Rounding the measured width up to an even length moves the title at most
   * half a pixel to the left of where the measured width alone would centre it.
   */
  lemma TitleShift(width: real, height: real, padding: real, rawWidth: int)
    ensures var p := TitlePosition(width, height, padding, TitleLength(rawWidth));
      var centred := (width - padding - rawWidth as real) / 2.0;
      centred - 0.5 <= p.x <= centred
  {
  }

  /**
   * An even length puts the title's left edge on a whole pixel only when
   * `width - padding` is an even number of pixels `2 * k`.
   */
  lemma TitleOnWholePixel(width: real, height: real, padding: real, rawWidth: int, k: int)
    requires width - padding == (2 * k) as real
    ensures TitlePosition(width, height, padding, TitleLength(rawWidth)).x == (k - TitleLength(rawWidth) / 2) as real
  {
    var t := TitleLength(rawWidth);
    assert t == 2 * (t / 2);
  }

  /**
   * As written, a plain block of even width `2 * m` (padding 5) always gets its
   * title's left edge on a half pixel, because the padding makes
   * `width - padding` odd while the title length is even.
   */
  lemma TitleHalfPixel(m: int, height: real, rawWidth: int)
    ensures var x := TitlePosition((2 * m) as real, height, 5.0, TitleLength(rawWidth)).x;
      x == (m - 3 - TitleLength(rawWidth) / 2) as real + 0.5 && x.Floor as real != x
  {
    var t := TitleLength(rawWidth);
    assert t == 2 * (t / 2);
  }

  /**
   * A title length of the same parity as the whole-pixel span
   * `width - padding`: the measured width, or one more when the parities
   * differ.  For an even span it is the even length.
   */
  function AlignedTitleLength(span: int, rawWidth: int): (t: int)
    ensures (span - t) % 2 == 0
    ensures rawWidth <= t <= rawWidth + 1
    ensures span % 2 == 0 ==> t == TitleLength(rawWidth)
  {
    if (span - rawWidth) % 2 != 0 then rawWidth + 1 else rawWidth
  }

  /** With the aligned length the title's left edge is on a whole pixel for every span. */
  lemma AlignedTitleOnWholePixel(width: real, height: real, padding: real, span: int, rawWidth: int)
    requires width - padding == span as real
    ensures var t := AlignedTitleLength(span, rawWidth);
      TitlePosition(width, height, padding, t).x == ((span - t) / 2) as real
  {
    var t := AlignedTitleLength(span, rawWidth);
    assert span - t == 2 * ((span - t) / 2);
  }

  // ---------------------------------------------------------------------------
  // Block height.

  /** Space kept above the first socket and below the last one. */
  function SocketSpacer(padding: real, edgeSize: real, titleHeight: real): real {
    padding + edgeSize + titleHeight
  }

  /** The y of the last socket on one side; a side without sockets counts as 0. */
  function LastY(last: Option<real>): real {
    if last.Some? then last.value else 0.0
  }

  /**
   * The height a block needs: its default height, or the height at which the
   * lower of its two last sockets still leaves `spacer` below it, whichever is larger.
   */
  function RequiredHeight(defaultHeight: real, lastIn: Option<real>, lastOut: Option<real>, spacer: real): (h: real)
    ensures h >= defaultHeight
    ensures h >= LastY(lastIn) + spacer && h >= LastY(lastOut) + spacer
    ensures h == defaultHeight || h == LastY(lastIn) + spacer || h == LastY(lastOut) + spacer
  {
    var inHeight := LastY(lastIn) + spacer;
    var outHeight := LastY(lastOut) + spacer;
    var needed := if inHeight >= outHeight then inHeight else outHeight;
    if needed > defaultHeight then needed else defaultHeight
  }

  /** A block whose sockets go lower needs at least as much height. */
  lemma RequiredHeightMonotone(defaultHeight: real, in1: real, out1: real, in2: real, out2: real, spacer: real)
    requires in1 <= in2 && out1 <= out2
    ensures RequiredHeight(defaultHeight, Some(in1), Some(out1), spacer)
         <= RequiredHeight(defaultHeight, Some(in2), Some(out2), spacer)
  {
  }

  /** Default height 80, spacer 40 and a last input socket at 200 give height 240. */
  lemma RequiredHeightScenario()
    ensures RequiredHeight(80.0, Some(200.0), None, SocketSpacer(5.0, 10.0, 25.0)) == 240.0
  {
  }

  // ---------------------------------------------------------------------------
  // Interaction rectangles.

  /** Qt's QRectF.normalized(): a negative width or height is flipped to positive. */
  function Normalized(r: Rect): (n: Rect)
    ensures n.w >= 0.0 && n.h >= 0.0
  {
    var x, w := if r.w < 0.0 then r.x + r.w else r.x, if r.w < 0.0 then -r.w else r.w;
    var y, h := if r.h < 0.0 then r.y + r.h else r.y, if r.h < 0.0 then -r.h else r.h;
    Rect(x, y, w, h)
  }

  /** `v` lies between `a` and `b`, in either order. */
  predicate Between(v: real, a: real, b: real) {
    (a <= v <= b) || (b <= v <= a)
  }

  /** Normalizing keeps exactly the points spanned by the two corners. */
  lemma NormalizedSpansSameArea(r: Rect, p: Point)
    ensures Normalized(r).Contains(p) <==> Between(p.x, r.x, r.x + r.w) && Between(p.y, r.y, r.y + r.h)
  {
  }

  /** The interaction rectangle of an ordinary block. */
  function BlockRect(width: real, height: real): (r: Rect)
    ensures forall p :: r.Contains(p) <==> 0.0 <= p.x <= width && 0.0 <= p.y <= height
  {
    Rect(0.0, 0.0, width, height)
  }

  /** The interaction rectangle of a connector item of width `w`. */
  function ConnectorRect(w: real): (r: Rect)
    ensures r.w >= 0.0 && r.h >= 0.0
    ensures w >= 0.0 ==> r.w > w && r.h > w
  {
    var p := ConnectorPadding;
    Normalized(Rect(1.0 - w - p, 1.0 - w - p, 3.0 * w + p, 2.0 * w + p))
  }

  /** For a non-negative width the connector's rectangle needs no flipping. */
  lemma ConnectorRectExact(w: real)
    requires w >= 0.0
    ensures ConnectorRect(w) == Rect(1.0 - w - ConnectorPadding, 1.0 - w - ConnectorPadding,
                                     3.0 * w + ConnectorPadding, 2.0 * w + ConnectorPadding)
  {
  }

  /**
   * For a non-negative item width `w`, the connector's rectangle covers the
   * `w` by `w` square at the item's origin (the item's height plays no part).
   */
  lemma ConnectorRectCoversWidthSquare(w: real, p: Point)
    requires w >= 0.0
    requires 0.0 <= p.x <= w && 0.0 <= p.y <= w
    ensures ConnectorRect(w).Contains(p)
  {
    ConnectorRectExact(w);
  }
}
