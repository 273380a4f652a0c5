/** Geometry of a cross-origin frame (the `FrameRect` class). A frame has two
    identities: where it sits, which is its host element `frame_ele` in the
    parent document, and what it holds, which is its own nested document.
    Position queries go to the host element's geometry; content size and
    scroll position come from the nested document. */
module FrameRect {
  import opened Common
  import opened Snapshots
  import JsText
  import ElementRect

  /** Host element's top-left corner in page coordinates. */
  function Location(f: Frame): (r: Result<Point>)
    ensures r.Err? <==> f.frameEle.boxModel.None?
    ensures r.Err? ==> r.error == NoRectError
    ensures r.Ok? ==>
      var h := f.frameEle.boxModel.value.border;
      r.value == ElementRect.PageCoord(f.frameEle, Point(h[0], h[1]))
  {
    ElementRect.Location(f.frameEle)
  }

  /** Host element's top-left corner in the parent viewport. */
  function ViewportLocation(f: Frame): (r: Result<Point>)
    ensures r.Err? <==> f.frameEle.boxModel.None?
    ensures r.Err? ==> r.error == NoRectError
    ensures r.Ok? ==>
      var h := f.frameEle.boxModel.value.border;
      r.value == Point(h[0], h[1])
  {
    ElementRect.ViewportLocation(f.frameEle)
  }

  /** Host element's top-left corner on the screen: the host's viewport
      location placed by the parent owner's viewport position and scaled by
      the parent's device pixel ratio. */
  function ScreenLocation(f: Frame): (r: Result<ScreenPoint>)
    ensures r.Ok? <==>
      ElementRect.OwnerViewportLocation(f.frameEle.owner).Ok? && f.frameEle.boxModel.Some?
    ensures r.Ok? ==>
      var h := f.frameEle.boxModel.value.border;
      r.value == ElementRect.ToScreen(f.frameEle, ElementRect.OwnerViewportLocation(f.frameEle.owner).value,
                                      Point(h[0], h[1]))
  {
    ElementRect.ScreenLocation(f.frameEle)
  }

  /** Host element's corners in page coordinates. */
  function Corners(f: Frame): (r: Result<seq<Point>>)
    ensures r.Err? <==> f.frameEle.boxModel.None?
    ensures r.Err? ==> r.error == NoRectError
    ensures r.Ok? ==>
      var h := f.frameEle.boxModel.value.border;
      && |r.value| == 4
      && forall i :: 0 <= i < 4 ==>
           r.value[i] == ElementRect.PageCoord(f.frameEle, Point(h[2 * i], h[2 * i + 1]))
  {
    ElementRect.Corners(f.frameEle)
  }

  /** Host element's corners in the parent viewport. */
  function ViewportCorners(f: Frame): (r: Result<seq<Point>>)
    ensures r.Err? <==> f.frameEle.boxModel.None?
    ensures r.Err? ==> r.error == NoRectError
    ensures r.Ok? ==>
      var h := f.frameEle.boxModel.value.border;
      && |r.value| == 4
      && forall i :: 0 <= i < 4 ==> r.value[i] == Point(h[2 * i], h[2 * i + 1])
  {
    ElementRect.ViewportCorners(f.frameEle)
  }

  /** The frame's viewport is as large as its host element's border box. */
  function ViewportSize(f: Frame): (r: Result<Extent>)
    ensures r.Err? <==> f.frameEle.boxModel.None?
    ensures r.Err? ==> r.error == NoRectError
    ensures r.Ok? ==>
      var h := f.frameEle.boxModel.value.border;
      r.value == Extent(h[2] - h[0], h[5] - h[1])
  {
    ElementRect.Size(f.frameEle)
  }

  /** The nested document's `body.scrollWidth` and `body.scrollHeight`. */
  function Size(f: Frame): Extent {
    Extent(f.bodyScrollWidth, f.bodyScrollHeight)
  }

  /** The nested document's `documentElement.scrollLeft/scrollTop`, read back
      from script text. */
  function ScrollPosition(f: Frame): (r: Result<Point>)
    ensures r.Ok? <==> JsText.ParsePair(f.docScrollText).Ok?
    ensures r.Err? ==> r.error == JsText.ParsePair(f.docScrollText).error
    ensures r.Ok? ==>
      r.value == Point(JsText.ParsePair(f.docScrollText).value.0, JsText.ParsePair(f.docScrollText).value.1)
  {
    var p :- JsText.ParsePair(f.docScrollText);
    Ok(Point(p.0, p.1))
  }

  // ---------------------------------------------------------------------------
  // Properties

  /** Every position accessor of a frame gives exactly its host element's value. */
  lemma PositionIsHostPosition(f: Frame)
    ensures Location(f) == ElementRect.Location(f.frameEle)
    ensures ViewportLocation(f) == ElementRect.ViewportLocation(f.frameEle)
    ensures ScreenLocation(f) == ElementRect.ScreenLocation(f.frameEle)
    ensures Corners(f) == ElementRect.Corners(f.frameEle)
    ensures ViewportCorners(f) == ElementRect.ViewportCorners(f.frameEle)
    ensures ViewportSize(f) == ElementRect.Size(f.frameEle)
  {
  }

  /** Content size is the nested body's scroll size, and it and the scroll
      position depend on the nested document only:
      two frames with the same document but different hosts agree there. */
  lemma ContentIgnoresHost(f: Frame, g: Frame)
    requires f.bodyScrollWidth == g.bodyScrollWidth && f.bodyScrollHeight == g.bodyScrollHeight
    requires f.docScrollText == g.docScrollText
    ensures Size(f) == Extent(f.bodyScrollWidth, f.bodyScrollHeight)
    ensures Size(f) == Size(g) && ScrollPosition(f) == ScrollPosition(g)
  {
  }

  /** Position depends on the host only: two frames with the same host but
      different documents agree on every position accessor. */
  lemma PositionIgnoresContent(f: Frame, g: Frame)
    requires f.frameEle == g.frameEle
    ensures Location(f) == Location(g) && ViewportLocation(f) == ViewportLocation(g)
    ensures ScreenLocation(f) == ScreenLocation(g) && Corners(f) == Corners(g)
    ensures ViewportCorners(f) == ViewportCorners(g) && ViewportSize(f) == ViewportSize(g)
  {
  }

  /** For an element inside a frame, `owner.rect.viewport_location` is this
      FrameRect's viewport location. */
  lemma OwnerRectIsFrameRect(f: Frame)
    ensures ElementRect.OwnerViewportLocation(FrameOwner(f)) == ViewportLocation(f)
  {
  }

  /** For an element whose owner is a frame, the screen location adds the
      host element's position in the parent viewport (FrameRect's viewport
      location), not a position on the screen, and scales by the frame's
      device pixel ratio. */
  lemma ScreenLocationInFrame(e: Element)
    requires e.owner.FrameOwner? && e.boxModel.Some? && e.owner.frame.frameEle.boxModel.Some?
    ensures ElementRect.ScreenLocation(e).Ok?
    ensures var f := e.owner.frame; var m := e.boxModel.value.border;
      var h := f.frameEle.boxModel.value.border;
      ElementRect.ScreenLocation(e).value ==
        ScreenPoint(ElementRect.Scale(h[0] + m[0], f.devicePixelRatio),
                    ElementRect.Scale(m[1] + h[1], f.devicePixelRatio))
  {
    assert ViewportLocation(e.owner.frame) == ElementRect.OwnerViewportLocation(e.owner);
  }

  /** A document scroll offset formatted by the script is read back exactly. */
  lemma ScrollPositionOfFormatted(f: Frame, x: int, y: int)
    requires f.docScrollText == JsText.FormatPair(x, y)
    ensures ScrollPosition(f) == Ok(Point(x, y))
  {
    JsText.ParseFormatRoundTrip(x, y);
  }
}
