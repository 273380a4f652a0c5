/** Window-level geometry of a page or tab (the `TabRect` class): window
    state, window position and size corrected for OS chrome, viewport and page
    position on the screen, content size and scroll position. */
module TabRect {
  import opened Common
  import opened Snapshots
  import JsText

  // Empirical OS-chrome corrections. They are platform heuristics (an invisible
  // resize border and a title strip on one OS/browser build), not derived
  // from the protocol, and may not hold elsewhere.

  /** Invisible border to the left of a normal window. */
  const ChromeLeft: int := 7
  /** Horizontal chrome, and vertical chrome of a maximized window. */
  const ChromeSides: int := 16
  /** Vertical chrome of a window that is neither maximized nor fullscreen. */
  const ChromeTitleBar: int := 7

  /** The window state the browser reports for the tab's window. */
  function WindowStateOf(t: Tab): WindowState {
    t.bounds.windowState
  }

  /** Window position on the screen, (0, 0) at the top left. */
  function WindowLocation(t: Tab): (r: Point)
    ensures WindowStateOf(t) == Maximized || WindowStateOf(t) == Fullscreen ==> r == Point(0, 0)
    ensures WindowStateOf(t) != Maximized && WindowStateOf(t) != Fullscreen ==>
              r.x - ChromeLeft == t.bounds.left && r.y == t.bounds.top
  {
    var b := t.bounds;
    if b.windowState == Maximized || b.windowState == Fullscreen then Point(0, 0)
    else Point(b.left + ChromeLeft, b.top)
  }

  /** Visible window size: the reported bounds minus OS chrome. */
  function WindowSize(t: Tab): (r: Extent)
    ensures r.width <= t.bounds.width && r.height <= t.bounds.height
    ensures r == Extent(t.bounds.width, t.bounds.height) <==> WindowStateOf(t) == Fullscreen
    ensures WindowStateOf(t) != Fullscreen ==> t.bounds.width - r.width == ChromeSides
    ensures WindowStateOf(t) == Maximized ==> t.bounds.height - r.height == ChromeSides
    ensures WindowStateOf(t) == Normal || WindowStateOf(t) == Minimized ==>
              t.bounds.height - r.height == ChromeTitleBar
  {
    var b := t.bounds;
    if b.windowState == Fullscreen then Extent(b.width, b.height)
    else if b.windowState == Maximized then Extent(b.width - ChromeSides, b.height - ChromeSides)
    else Extent(b.width - ChromeSides, b.height - ChromeTitleBar)
  }

  /** `window.innerWidth` and `window.innerHeight`, read back from script text. */
  function ViewportSizeWithScrollbar(t: Tab): (r: Result<Extent>)
    ensures r.Ok? <==> JsText.ParsePair(t.innerSizeText).Ok?
    ensures r.Err? ==> r.error == JsText.ParsePair(t.innerSizeText).error
    ensures r.Ok? ==>
      r.value == Extent(JsText.ParsePair(t.innerSizeText).value.0, JsText.ParsePair(t.innerSizeText).value.1)
  {
    var p :- JsText.ParsePair(t.innerSizeText);
    Ok(Extent(p.0, p.1))
  }

  /** Viewport position on the screen: the viewport, scrollbar included, sits
      at the bottom right of the visible window. */
  function ViewportLocation(t: Tab): (r: Result<Point>)
    ensures r.Ok? <==> ViewportSizeWithScrollbar(t).Ok?
    ensures r.Err? ==> r.error == ViewportSizeWithScrollbar(t).error
    ensures r.Ok? ==>
      var vs := ViewportSizeWithScrollbar(t).value;
      && r.value.x + vs.width == WindowLocation(t).x + WindowSize(t).width
      && r.value.y + vs.height == WindowLocation(t).y + WindowSize(t).height
  {
    var wl := WindowLocation(t);
    var ws := WindowSize(t);
    var vs :- ViewportSizeWithScrollbar(t);
    Ok(Point(wl.x + ws.width - vs.width, wl.y + ws.height - vs.height))
  }

  /** Screen position of the document origin: the viewport position moved back
      by the layout viewport's scroll offset. */
  function PageLocation(t: Tab): (r: Result<Point>)
    ensures r.Ok? <==> ViewportLocation(t).Ok?
    ensures r.Err? ==> r.error == ViewportLocation(t).error
    ensures r.Ok? ==>
      && r.value.x + t.metrics.layoutViewport.pageX == ViewportLocation(t).value.x
      && r.value.y + t.metrics.layoutViewport.pageY == ViewportLocation(t).value.y
  {
    var v :- ViewportLocation(t);
    var lv := t.metrics.layoutViewport;
    Ok(Point(v.x - lv.pageX, v.y - lv.pageY))
  }

  /** Whole scrollable document extent. */
  function Size(t: Tab): Extent {
    Extent(t.metrics.contentSize.width, t.metrics.contentSize.height)
  }

  /** Viewport size without scrollbar. */
  function ViewportSize(t: Tab): Extent {
    Extent(t.metrics.visualViewport.clientWidth, t.metrics.visualViewport.clientHeight)
  }

  /** Scroll offset of the visual viewport. */
  function ScrollPosition(t: Tab): Point {
    Point(t.metrics.visualViewport.pageX, t.metrics.visualViewport.pageY)
  }

  /** The reported window state decides the chrome correction, and the
      correction tells the state back apart: the vertical chrome is 0 exactly
      when fullscreen, ChromeSides exactly when maximized and ChromeTitleBar
      exactly when normal or minimized. */
  lemma WindowStateFromChrome(t: Tab)
    ensures WindowStateOf(t) == Fullscreen <==> t.bounds.height - WindowSize(t).height == 0
    ensures WindowStateOf(t) == Maximized <==> t.bounds.height - WindowSize(t).height == ChromeSides
    ensures WindowStateOf(t) in {Normal, Minimized} <==>
              t.bounds.height - WindowSize(t).height == ChromeTitleBar
  {
  }

  /** The document size is the layout metrics' `contentSize`, whatever the
      window bounds, the viewports or the script text. */
  lemma ContentSizeFromMetrics(t: Tab, u: Tab)
    requires t.metrics.contentSize == u.metrics.contentSize
    ensures Size(t) == t.metrics.contentSize && Size(t) == Size(u)
  {
  }

  /** The viewport size without scrollbar is the visual viewport's client
      size, whatever the rest of the tab. */
  lemma ViewportSizeFromMetrics(t: Tab, u: Tab)
    requires t.metrics.visualViewport == u.metrics.visualViewport
    ensures ViewportSize(t).width == t.metrics.visualViewport.clientWidth
    ensures ViewportSize(t).height == t.metrics.visualViewport.clientHeight
    ensures ViewportSize(t) == ViewportSize(u)
  {
  }

  /** The scroll position is the visual viewport's page offset, not the layout
      viewport's, whatever the rest of the tab. */
  lemma ScrollPositionFromMetrics(t: Tab, u: Tab)
    requires t.metrics.visualViewport == u.metrics.visualViewport
    ensures ScrollPosition(t) == Point(t.metrics.visualViewport.pageX, t.metrics.visualViewport.pageY)
    ensures ScrollPosition(t) == ScrollPosition(u)
  {
  }

  /** Raw bounds of 1000 x 800 in each state. */
  lemma WindowSizeExamples(t: Tab)
    requires t.bounds.width == 1000 && t.bounds.height == 800
    ensures WindowStateOf(t) == Normal ==> WindowSize(t) == Extent(984, 793)
    ensures WindowStateOf(t) == Minimized ==> WindowSize(t) == Extent(984, 793)
    ensures WindowStateOf(t) == Maximized ==> WindowSize(t) == Extent(984, 784)
    ensures WindowStateOf(t) == Fullscreen ==> WindowSize(t) == Extent(1000, 800)
  {
  }

  /** When the page reports its inner size as the script formats it, the
      viewport sits at the window's bottom right minus that size. */
  lemma ViewportLocationOfFormatted(t: Tab, w: int, h: int)
    requires t.innerSizeText == JsText.FormatPair(w, h)
    ensures ViewportSizeWithScrollbar(t) == Ok(Extent(w, h))
    ensures ViewportLocation(t) ==
      Ok(Point(WindowLocation(t).x + WindowSize(t).width - w,
               WindowLocation(t).y + WindowSize(t).height - h))
  {
    JsText.ParseFormatRoundTrip(w, h);
  }
}
