/** Element geometry (the `ElementRect` class): corners, size, top-left,
    midpoint and click point of an element, each in viewport coordinates, in
    page coordinates (viewport point plus the owner's visual-viewport scroll
    offset) and in screen coordinates (owner viewport position plus viewport
    point, times the device pixel ratio). Every quad-based accessor fails with
    NoRectError when the element has no box model. */
module ElementRect {
  import opened Common
  import opened Snapshots
  import TabRect
  import JsText

  /** Empirical downward bias of the click point below the padding box's top
      edge, so that a click lands inside the element. */
  const ClickBias: int := 3

  /** `_get_viewport_rect(quad)`: one quad of the box model. */
  function ViewportRect(e: Element, kind: QuadKind): (r: Result<Quad>)
    ensures r.Err? <==> e.boxModel.None?
    ensures r.Err? ==> r.error == NoRectError
    ensures r.Ok? ==> r.value == QuadOf(e.boxModel.value, kind)
  {
    match e.boxModel
    case None => Err(NoRectError)
    case Some(box) => Ok(QuadOf(box, kind))
  }

  /** The scroll offset the page variants add: the owner's visual viewport. */
  function ScrollOffset(e: Element): Point {
    var vv := OwnerMetrics(e.owner).visualViewport;
    Point(vv.pageX, vv.pageY)
  }

  /** `_get_page_coord`: a viewport point in page coordinates. */
  function PageCoord(e: Element, p: Point): (r: Point)
    ensures r.x - p.x == ScrollOffset(e).x && r.y - p.y == ScrollOffset(e).y
  {
    var s := ScrollOffset(e);
    Point(p.x + s.x, p.y + s.y)
  }

  /** The four border corners in the viewport, top-left, top-right,
      bottom-right, bottom-left: corner i is border[2i], border[2i+1]. */
  function ViewportCorners(e: Element): (r: Result<seq<Point>>)
    ensures r.Err? <==> e.boxModel.None?
    ensures r.Err? ==> r.error == NoRectError
    ensures r.Ok? ==>
      && |r.value| == 4
      && forall i :: 0 <= i < 4 ==>
           r.value[i] == Point(e.boxModel.value.border[2 * i], e.boxModel.value.border[2 * i + 1])
  {
    var q :- ViewportRect(e, Border);
    Ok([Point(q[0], q[1]), Point(q[2], q[3]), Point(q[4], q[5]), Point(q[6], q[7])])
  }

  /** The four border corners in page coordinates: each viewport corner moved
      by the owner's visual-viewport scroll offset. */
  function Corners(e: Element): (r: Result<seq<Point>>)
    ensures r.Ok? <==> ViewportCorners(e).Ok?
    ensures r.Err? ==> r.error == NoRectError
    ensures r.Ok? ==>
      && |r.value| == 4
      && forall i :: 0 <= i < 4 ==> r.value[i] == PageCoord(e, ViewportCorners(e).value[i])
  {
    var vr :- ViewportRect(e, Border);
    var s := ScrollOffset(e);
    Ok([Point(vr[0] + s.x, vr[1] + s.y), Point(vr[2] + s.x, vr[3] + s.y),
        Point(vr[4] + s.x, vr[5] + s.y), Point(vr[6] + s.x, vr[7] + s.y)])
  }

  /** (width, height): the top edge's horizontal span and the vertical span
      from the top-left to the bottom-right corner. */
  function Size(e: Element): (r: Result<Extent>)
    ensures r.Ok? <==> ViewportCorners(e).Ok?
    ensures r.Err? ==> r.error == NoRectError
    ensures r.Ok? ==>
      var c := ViewportCorners(e).value;
      r.value.width == c[1].x - c[0].x && r.value.height == c[2].y - c[0].y
  {
    var border :- ViewportRect(e, Border);
    Ok(Extent(border[2] - border[0], border[5] - border[1]))
  }

  /** Top-left corner in the viewport. */
  function ViewportLocation(e: Element): (r: Result<Point>)
    ensures r.Ok? <==> ViewportCorners(e).Ok?
    ensures r.Err? ==> r.error == NoRectError
    ensures r.Ok? ==> r.value == ViewportCorners(e).value[0]
  {
    var m :- ViewportRect(e, Border);
    Ok(Point(m[0], m[1]))
  }

  /** Centre of the border box in the viewport, halves rounded down: x halves
      the top edge (m0..m2), y halves the right edge (m3..m5). */
  function ViewportMidpoint(e: Element): (r: Result<Point>)
    ensures r.Err? <==> e.boxModel.None?
    ensures r.Err? ==> r.error == NoRectError
    ensures r.Ok? ==>
      var m := e.boxModel.value.border;
      && 0 <= (m[2] - m[0]) - 2 * (r.value.x - m[0]) <= 1
      && 0 <= (m[5] - m[3]) - 2 * (r.value.y - m[3]) <= 1
  {
    var m :- ViewportRect(e, Border);
    Ok(Point(m[0] + (m[2] - m[0]) / 2, m[3] + (m[5] - m[3]) / 2))
  }

  /** Click point in the viewport: the midpoint's x, and ClickBias below the
      top of the padding box whatever the element's height. */
  function ViewportClickPoint(e: Element): (r: Result<Point>)
    ensures r.Err? <==> e.boxModel.None?
    ensures r.Err? ==> r.error == NoRectError
    ensures r.Ok? ==>
      && r.value.x == ViewportMidpoint(e).value.x
      && r.value.y == e.boxModel.value.padding[1] + ClickBias
  {
    var pad :- ViewportRect(e, Padding);
    var mid := ViewportMidpoint(e).value;
    Ok(Point(mid.x, pad[1] + ClickBias))
  }

  /** Top-left corner in page coordinates. */
  function Location(e: Element): (r: Result<Point>)
    ensures r.Err? <==> e.boxModel.None?
    ensures r.Err? ==> r.error == NoRectError
    ensures r.Ok? ==> r.value == PageCoord(e, ViewportLocation(e).value)
  {
    var p :- ViewportLocation(e);
    Ok(PageCoord(e, p))
  }

  /** Midpoint in page coordinates. */
  function Midpoint(e: Element): (r: Result<Point>)
    ensures r.Err? <==> e.boxModel.None?
    ensures r.Err? ==> r.error == NoRectError
    ensures r.Ok? ==> r.value == PageCoord(e, ViewportMidpoint(e).value)
  {
    var p :- ViewportMidpoint(e);
    Ok(PageCoord(e, p))
  }

  /** Click point in page coordinates. */
  function ClickPoint(e: Element): (r: Result<Point>)
    ensures r.Err? <==> e.boxModel.None?
    ensures r.Err? ==> r.error == NoRectError
    ensures r.Ok? ==> r.value == PageCoord(e, ViewportClickPoint(e).value)
  {
    var p :- ViewportClickPoint(e);
    Ok(PageCoord(e, p))
  }

  /** `owner.rect.viewport_location`: a tab's is its TabRect's; a frame's is,
      through FrameRect, its host element's viewport top-left corner. */
  function OwnerViewportLocation(o: Owner): Result<Point> {
    match o
    case TabOwner(t) => TabRect.ViewportLocation(t)
    case FrameOwner(f) => ViewportLocation(f.frameEle)
  }

  /** A coordinate in CSS pixels scaled to physical pixels by the ratio `pr`. */
  function Scale(a: int, pr: real): real {
    a as real * pr
  }

  /** Logical viewport point `p` of an element on the screen, given the owner's
      viewport position `v`: their sum times the device pixel ratio. */
  function ToScreen(e: Element, v: Point, p: Point): ScreenPoint {
    var pr := OwnerDevicePixelRatio(e.owner);
    ScreenPoint(Scale(v.x + p.x, pr), Scale(p.y + v.y, pr))
  }

  /** What a screen accessor returns, given the owner's viewport position `v`
      and the element's viewport point: `v` is read first, so its failure wins. */
  predicate ScreenContract(e: Element, v: Result<Point>, viewport: Result<Point>, r: Result<ScreenPoint>) {
    && (r.Ok? <==> v.Ok? && viewport.Ok?)
    && (r.Err? ==> r.error == if v.Err? then v.error else viewport.error)
    && (r.Ok? ==> r.value == ToScreen(e, v.value, viewport.value))
  }

  /** A viewport point of the element on the screen, given the owner's
      viewport position `owner`, which each screen accessor reads first. */
  function ScreenOf(e: Element, owner: Result<Point>, viewport: Result<Point>): (r: Result<ScreenPoint>)
    ensures ScreenContract(e, owner, viewport, r)
  {
    var v :- owner;
    var p :- viewport;
    Ok(ToScreen(e, v, p))
  }

  /** Top-left corner on the screen, in physical pixels. */
  function ScreenLocation(e: Element): (r: Result<ScreenPoint>)
    ensures ScreenContract(e, OwnerViewportLocation(e.owner), ViewportLocation(e), r)
  {
    ScreenOf(e, OwnerViewportLocation(e.owner), ViewportLocation(e))
  }

  /** Midpoint on the screen, in physical pixels. */
  function ScreenMidpoint(e: Element): (r: Result<ScreenPoint>)
    ensures ScreenContract(e, OwnerViewportLocation(e.owner), ViewportMidpoint(e), r)
  {
    ScreenOf(e, OwnerViewportLocation(e.owner), ViewportMidpoint(e))
  }

  /** Click point on the screen, in physical pixels. */
  function ScreenClickPoint(e: Element): (r: Result<ScreenPoint>)
    ensures ScreenContract(e, OwnerViewportLocation(e.owner), ViewportClickPoint(e), r)
  {
    ScreenOf(e, OwnerViewportLocation(e.owner), ViewportClickPoint(e))
  }

  /** The element's own `scrollLeft` and `scrollTop`, read back from script text. */
  function ScrollPosition(e: Element): (r: Result<Point>)
    ensures r.Ok? <==> JsText.ParsePair(e.scrollText).Ok?
    ensures r.Err? ==> r.error == JsText.ParsePair(e.scrollText).error
    ensures r.Ok? ==>
      r.value == Point(JsText.ParsePair(e.scrollText).value.0, JsText.ParsePair(e.scrollText).value.1)
  {
    var p :- JsText.ParsePair(e.scrollText);
    Ok(Point(p.0, p.1))
  }

  // ---------------------------------------------------------------------------
  // Properties

  /** The page top-left is the first page corner. */
  lemma LocationIsFirstCorner(e: Element)
    ensures Location(e).Ok? <==> Corners(e).Ok?
    ensures Location(e).Ok? ==> Location(e).value == Corners(e).value[0]
  {
  }

  /** A quad whose top edge runs left to right and whose bottom-right corner is
      below the top-left one has a non-negative size. */
  lemma SizeNonNegative(e: Element)
    requires e.boxModel.Some?
    requires e.boxModel.value.border[2] >= e.boxModel.value.border[0]
    requires e.boxModel.value.border[5] >= e.boxModel.value.border[1]
    ensures Size(e).Ok? && Size(e).value.width >= 0 && Size(e).value.height >= 0
  {
  }

  /** The midpoint lies within the box spanned by the top and right edges. */
  lemma MidpointWithinBorder(e: Element)
    requires e.boxModel.Some?
    requires e.boxModel.value.border[0] <= e.boxModel.value.border[2]
    requires e.boxModel.value.border[3] <= e.boxModel.value.border[5]
    ensures ViewportMidpoint(e).Ok?
    ensures var m := e.boxModel.value.border; var p := ViewportMidpoint(e).value;
      m[0] <= p.x <= m[2] && m[3] <= p.y <= m[5]
  {
  }

  /** The click point depends on the border's horizontal edge and the padding
      top only: elements that agree there click at the same viewport point,
      however tall they are. */
  lemma ClickPointIgnoresHeight(e1: Element, e2: Element)
    requires e1.boxModel.Some? && e2.boxModel.Some?
    requires e1.boxModel.value.border[0] == e2.boxModel.value.border[0]
    requires e1.boxModel.value.border[2] == e2.boxModel.value.border[2]
    requires e1.boxModel.value.padding[1] == e2.boxModel.value.padding[1]
    ensures ViewportClickPoint(e1) == ViewportClickPoint(e2)
  {
  }

  /** Page coordinates are viewport coordinates plus the tab's scroll position. */
  lemma PageCoordIsTabScroll(e: Element, p: Point)
    requires e.owner.TabOwner?
    ensures PageCoord(e, p) == Point(p.x + TabRect.ScrollPosition(e.owner.tab).x,
                                     p.y + TabRect.ScrollPosition(e.owner.tab).y)
  {
  }

  /** `owner.rect.viewport_location` for either kind of owner: a tab's is its
      TabRect's viewport location, a frame's is its host border's top-left,
      failing with NoRectError exactly when the host has no box model. */
  lemma OwnerViewportDispatch(o: Owner)
    ensures o.TabOwner? ==> OwnerViewportLocation(o) == TabRect.ViewportLocation(o.tab)
    ensures o.FrameOwner? ==> (OwnerViewportLocation(o).Err? <==> o.frame.frameEle.boxModel.None?)
    ensures o.FrameOwner? && OwnerViewportLocation(o).Err? ==> OwnerViewportLocation(o).error == NoRectError
    ensures o.FrameOwner? && OwnerViewportLocation(o).Ok? ==>
      var h := o.frame.frameEle.boxModel.value.border;
      OwnerViewportLocation(o).value == Point(h[0], h[1])
  {
  }

  /** Screen scaling is linear: the screen distance between two points of one
      element is their viewport distance times the device pixel ratio, with
      the owner's viewport position cancelling out. */
  lemma ScreenDistanceScales(e: Element)
    requires ScreenLocation(e).Ok? && ScreenMidpoint(e).Ok?
    ensures var pr := OwnerDevicePixelRatio(e.owner);
      && ScreenMidpoint(e).value.x - ScreenLocation(e).value.x
         == Scale(ViewportMidpoint(e).value.x - ViewportLocation(e).value.x, pr)
      && ScreenMidpoint(e).value.y - ScreenLocation(e).value.y
         == Scale(ViewportMidpoint(e).value.y - ViewportLocation(e).value.y, pr)
  {
    ContractDifference(e, OwnerViewportLocation(e.owner),
                       ViewportMidpoint(e), ScreenMidpoint(e), ViewportLocation(e), ScreenLocation(e));
  }

  lemma ContractDifference(e: Element, v: Result<Point>, a: Result<Point>, ra: Result<ScreenPoint>,
                           b: Result<Point>, rb: Result<ScreenPoint>)
    requires ScreenContract(e, v, a, ra) && ScreenContract(e, v, b, rb) && ra.Ok? && rb.Ok?
    ensures var pr := OwnerDevicePixelRatio(e.owner);
      && ra.value.x - rb.value.x == Scale(a.value.x - b.value.x, pr)
      && ra.value.y - rb.value.y == Scale(a.value.y - b.value.y, pr)
  {
  }

  /** For an element of a tab whose inner size reads back as `w` x `h`, the
      screen location is the window's visible bottom-right corner, moved back
      by the inner size and on by the element's border top-left, times the
      ratio. */
  lemma ScreenLocationInWindow(e: Element, w: int, h: int)
    requires e.owner.TabOwner? && e.boxModel.Some?
    requires TabRect.ViewportSizeWithScrollbar(e.owner.tab) == Ok(Extent(w, h))
    ensures ScreenLocation(e).Ok?
    ensures var t := e.owner.tab; var m := e.boxModel.value.border;
      var wl := TabRect.WindowLocation(t); var ws := TabRect.WindowSize(t);
      ScreenLocation(e).value ==
        ScreenPoint(Scale(wl.x + ws.width - w + m[0], t.devicePixelRatio),
                    Scale(wl.y + ws.height - h + m[1], t.devicePixelRatio))
  {
    var t := e.owner.tab;
    var wl := TabRect.WindowLocation(t);
    var ws := TabRect.WindowSize(t);
    ScreenLocationInTab(e, wl.x + ws.width - w, wl.y + ws.height - h);
  }

  /** The screen location of an element of a tab whose viewport is at (`vx`, `vy`). */
  lemma ScreenLocationInTab(e: Element, vx: int, vy: int)
    requires e.owner.TabOwner? && e.boxModel.Some?
    requires TabRect.ViewportLocation(e.owner.tab) == Ok(Point(vx, vy))
    ensures ScreenLocation(e).Ok?
    ensures var m := e.boxModel.value.border;
      ScreenLocation(e).value ==
        ScreenPoint(Scale(vx + m[0], e.owner.tab.devicePixelRatio),
                    Scale(vy + m[1], e.owner.tab.devicePixelRatio))
  {
    ScreenLocationAt(e, Point(vx, vy));
    assert e.boxModel.value.border[1] + vy == vy + e.boxModel.value.border[1];
  }

  /** The screen location for a known owner viewport position. */
  lemma ScreenLocationAt(e: Element, vp: Point)
    requires e.boxModel.Some? && OwnerViewportLocation(e.owner) == Ok(vp)
    ensures ScreenLocation(e) ==
      Ok(ToScreen(e, vp, Point(e.boxModel.value.border[0], e.boxModel.value.border[1])))
  {
    assert ViewportLocation(e) == Ok(Point(e.boxModel.value.border[0], e.boxModel.value.border[1]));
  }

  /** A scroll offset formatted by the script is read back exactly. */
  lemma ScrollPositionOfFormatted(e: Element, x: int, y: int)
    requires e.scrollText == JsText.FormatPair(x, y)
    ensures ScrollPosition(e) == Ok(Point(x, y))
  {
    JsText.ParseFormatRoundTrip(x, y);
  }
}
