# Coordinate transforms of DrissionPage's `rect.py`

This project models the geometry helpers that FlareSolverr's bundled copy of
DrissionPage uses to find elements, viewports and windows on the screen. All of
them are in `src/flaresolverr/DrissionPage/_units/rect.py`. Three classes turn
raw browser-debugging-protocol results into coordinates:

- `ElementRect` (module `ElementRect`) works from an element's box-model
  quads. It gives corners, size, top-left, midpoint and click point. Each point
  comes in three frames:
  - viewport coordinates;
  - page coordinates: the viewport point plus the owner's **visual**-viewport
    scroll offset;
  - screen coordinates: the owner's `rect.viewport_location` plus the viewport
    point, times `devicePixelRatio`.
- `TabRect` (module `TabRect`) gives window geometry:
  - window state, position and size, corrected for OS chrome by state;
  - viewport and page position on the screen;
  - content size, viewport size and scroll position.
- `FrameRect` (module `FrameRect`) is for cross-origin frames. Position
  queries go to the host element `frame_ele`. Content size and scroll come
  from the nested document.

Each accessor is a Dafny function over one snapshot of protocol results
(module `Snapshots`):
- `BoxModel` quads, or `None` when `DOM.getBoxModel` raises NoRectError;
- `LayoutMetrics`;
- `WindowBounds`;
- `devicePixelRatio` as a `real`;
- the raw text that scripts return.

Coordinates are `int`. Python's `// 2` is floor division, the same as Dafny's
`/` by a positive divisor.

An element's owner is either a tab (`TabOwner`) or a frame (`FrameOwner`),
because the source reaches `owner.rect` by duck typing.
`ElementRect.OwnerViewportLocation` picks the owner's viewport location.
- For a tab it is `TabRect.ViewportLocation`.
- For a frame it is the host element's viewport top-left corner.
  `FrameRect.OwnerRectIsFrameRect` proves that this equals
  `FrameRect.ViewportLocation`. The frame arm lives in `ElementRect` only
  because `FrameRect` itself depends on `ElementRect`.

Three accessors parse the script text "a b":
- `ElementRect.scroll_position`;
- `TabRect.viewport_size_with_scrollbar`;
- `FrameRect.scroll_position`.

Module `JsText` models each step of that parse:
- Python `str.split(' ')`;
- tuple unpacking into two names;
- Python `int()`;
- JavaScript `toString()`, which builds the text.

Errors are values of `Common.Error`:
- `NoRectError`: the element has no box model.
- `UnpackError`: the text does not split into exactly two pieces. Python
  raises `ValueError` here.
- `InvalidLiteral`: a piece fails `int()`, which is also a `ValueError` in
  Python.

The offsets follow the code. `corners`, `location`, `midpoint` and
`click_point` add `visualViewport.pageX/pageY`. `TabRect.page_location`
subtracts `layoutViewport.pageX/pageY`. The midpoint's y is halfway along the
right edge, from `m[3]` to `m[5]`. The height in `size` runs from `border[1]`
to `border[5]`.

## Model

| member | source | states |
|---|---|---|
| `JsText.Split` | src/flaresolverr/DrissionPage/_units/rect.py:100 | `split(' ')` always returns at least one piece |
| `JsText.JoinSplit` | src/flaresolverr/DrissionPage/_units/rect.py:100 | joining the pieces with the separator gives back the text, so splitting loses nothing |
| `JsText.SplitPiecesAreSeparatorFree` | src/flaresolverr/DrissionPage/_units/rect.py:100 | no piece contains a space |
| `JsText.SplitCount` | src/flaresolverr/DrissionPage/_units/rect.py:100 | there is exactly one piece more than there are spaces |
| `JsText.SplitSeparatorFree` | src/flaresolverr/DrissionPage/_units/rect.py:100 | a text without a space is one piece |
| `JsText.SplitAfterPiece` | src/flaresolverr/DrissionPage/_units/rect.py:100 | a space-free prefix followed by a space is the first piece, and the rest splits on its own |
| `JsText.DropUnderscores` | src/flaresolverr/DrissionPage/_units/rect.py:101 | the digits `int()` reads from a group with its separating underscores are all digits |
| `JsText.DropUnderscoresLength` | src/flaresolverr/DrissionPage/_units/rect.py:101 | exactly the underscores are removed: the result is as long as the group minus its underscore count |
| `JsText.DropUnderscoresSplit` | src/flaresolverr/DrissionPage/_units/rect.py:101 | an underscore between two parts is dropped and both parts keep their digits in order, so "1_000" reads as "1000" |
| `JsText.StripUntouched` | src/flaresolverr/DrissionPage/_units/rect.py:101 | `int()`'s whitespace stripping (space, tab, line feed, vertical tab, form feed, carriage return) leaves a text alone that neither starts nor ends with one of them |
| `JsText.DigitChar` | src/flaresolverr/DrissionPage/_units/rect.py:99 | `toString` writes a digit character whose value is the digit |
| `JsText.NatDecimal` | src/flaresolverr/DrissionPage/_units/rect.py:99 | the decimal form of a natural number is a non-empty string of digits, with no leading zero unless the number is 0 |
| `JsText.DecimalString` | src/flaresolverr/DrissionPage/_units/rect.py:99 | `toString` of an integer never contains a space |
| `JsText.NatDecimalValue` | src/flaresolverr/DrissionPage/_units/rect.py:101 | reading back the decimal digits of n gives n |
| `JsText.DropUnderscoresOfDigits` | src/flaresolverr/DrissionPage/_units/rect.py:101 | a string of plain digits has no underscores to drop |
| `JsText.PyIntOfDecimalString` | src/flaresolverr/DrissionPage/_units/rect.py:99-101 | `int(n.toString()) == n`, negatives included |
| `JsText.ParsePairUnpack` | src/flaresolverr/DrissionPage/_units/rect.py:100 | the `w, h =` unpacking fails exactly when the text does not contain exactly one space |
| `JsText.ParsePairSound` | src/flaresolverr/DrissionPage/_units/rect.py:99-101 | every successful parse to (a, b) reads a text "x y" with two space-free pieces where `int(x) == a` and `int(y) == b` |
| `JsText.ParsePairComplete` | src/flaresolverr/DrissionPage/_units/rect.py:99-101 | conversely, every such text parses to its two values |
| `JsText.ParseFormatRoundTrip` | src/flaresolverr/DrissionPage/_units/rect.py:99-101 | formatting two integers as `a.toString() + " " + b.toString()` and parsing gives exactly (a, b) back |
| `JsText.FractionalOffsetRejected` | src/flaresolverr/DrissionPage/_units/rect.py:101 | a fractional offset "12.5 0" fails with the `int()` error |
| `JsText.PyIntAccepts` | src/flaresolverr/DrissionPage/_units/rect.py:101 | `int()` accepts "1_000" as 1000, "007" as 7 and " -5\t" as −5 |
| `JsText.PyIntRejects` | src/flaresolverr/DrissionPage/_units/rect.py:101 | `int()` rejects "\x1c5" (an information separator is not stripped), "1__0" and "_1" |
| `JsText.ParsePairExamples` | src/flaresolverr/DrissionPage/_units/rect.py:100-101 | "5\t 6" parses to (5, 6); "5  6" fails to unpack into two names; "\x1c5 0" fails in `int()` |
| `ElementRect.ViewportRect` | src/flaresolverr/DrissionPage/_units/rect.py:103-108 | the requested quad of the box model; NoRectError exactly when there is no box model, never a zero quad |
| `ElementRect.PageCoord` | src/flaresolverr/DrissionPage/_units/rect.py:110-115 | a viewport point moves by exactly the owner's visual-viewport scroll offset |
| `ElementRect.ViewportCorners` | src/flaresolverr/DrissionPage/_units/rect.py:26-30 | four corners, corner i is (border[2i], border[2i+1]), in the order top-left, top-right, bottom-right, bottom-left; NoRectError exactly without a box model |
| `ElementRect.Corners` | src/flaresolverr/DrissionPage/_units/rect.py:17-24 | four corners, each the matching viewport corner in page coordinates; fails exactly when the viewport corners fail |
| `ElementRect.Size` | src/flaresolverr/DrissionPage/_units/rect.py:32-37 | width is the top edge's x span (corner 1 − corner 0), height the y span from corner 0 to corner 2; NoRectError without a box model |
| `ElementRect.ViewportLocation` | src/flaresolverr/DrissionPage/_units/rect.py:54-58 | the first viewport corner |
| `ElementRect.ViewportMidpoint` | src/flaresolverr/DrissionPage/_units/rect.py:60-64 | x is m0 plus half of m2 − m0 rounded down, y is m3 plus half of m5 − m3 rounded down, stated as a 0-or-1 remainder |
| `ElementRect.ViewportClickPoint` | src/flaresolverr/DrissionPage/_units/rect.py:66-70 | x is the midpoint's x, y is the padding quad's y1 + 3 |
| `ElementRect.Location` | src/flaresolverr/DrissionPage/_units/rect.py:39-42 | the viewport location in page coordinates |
| `ElementRect.Midpoint` | src/flaresolverr/DrissionPage/_units/rect.py:44-47 | the viewport midpoint in page coordinates |
| `ElementRect.ClickPoint` | src/flaresolverr/DrissionPage/_units/rect.py:49-52 | the viewport click point in page coordinates |
| `ElementRect.OwnerViewportDispatch` | src/flaresolverr/DrissionPage/_units/rect.py:75 | `owner.rect.viewport_location`: for a tab its TabRect's viewport location; for a frame the host element's border top-left, NoRectError exactly when the host has no box model |
| `ElementRect.ScreenOf` | src/flaresolverr/DrissionPage/_units/rect.py:72-94 | given the owner's viewport position, which is read first so its error wins, and a viewport point: ((owner.x + p.x)·dpr, (p.y + owner.y)·dpr), written `ToScreen` with `Scale(a, dpr) = a·dpr` |
| `ElementRect.ScreenLocation` | src/flaresolverr/DrissionPage/_units/rect.py:72-78 | ((owner viewport x + viewport location x)·dpr, (… y)·dpr), with the owner's error taking precedence over NoRectError |
| `ElementRect.ScreenMidpoint` | src/flaresolverr/DrissionPage/_units/rect.py:80-86 | the same formula with the viewport midpoint |
| `ElementRect.ScreenClickPoint` | src/flaresolverr/DrissionPage/_units/rect.py:88-94 | the same formula with the viewport click point |
| `ElementRect.ScrollPosition` | src/flaresolverr/DrissionPage/_units/rect.py:96-101 | succeeds exactly when the scroll text parses, with value (int(w), int(h)) of the two pieces; otherwise fails with the parse's error |
| `ElementRect.LocationIsFirstCorner` | src/flaresolverr/DrissionPage/_units/rect.py:39-42 | the page location is `corners[0]`, and both fail together |
| `ElementRect.SizeNonNegative` | src/flaresolverr/DrissionPage/_units/rect.py:32-37 | size is component-wise ≥ 0 when border[2] ≥ border[0] and border[5] ≥ border[1] |
| `ElementRect.MidpointWithinBorder` | src/flaresolverr/DrissionPage/_units/rect.py:60-64 | when m0 ≤ m2 and m3 ≤ m5 the midpoint lies in [m0, m2] × [m3, m5] |
| `ElementRect.ClickPointIgnoresHeight` | src/flaresolverr/DrissionPage/_units/rect.py:66-70 | elements that agree on border[0], border[2] and padding[1] have the same click point, whatever their height |
| `ElementRect.PageCoordIsTabScroll` | src/flaresolverr/DrissionPage/_units/rect.py:110-115 | for an element of a tab, page coordinates add that tab's `scroll_position` |
| `ElementRect.ScreenDistanceScales` | src/flaresolverr/DrissionPage/_units/rect.py:72-86 | screen midpoint − screen location = (viewport midpoint − viewport location)·dpr; the owner's offset cancels out |
| `ElementRect.ContractDifference` | src/flaresolverr/DrissionPage/_units/rect.py:72-94 | two screen points with the same owner differ by their viewport difference times dpr |
| `ElementRect.ScreenLocationInWindow` | src/flaresolverr/DrissionPage/_units/rect.py:72-78 | for a tab owner whose inner size reads back as (w, h): screen location = ((window x + window width − w + border x0)·dpr, (window y + window height − h + border y0)·dpr) |
| `ElementRect.ScrollPositionOfFormatted` | src/flaresolverr/DrissionPage/_units/rect.py:96-101 | a `scrollLeft + " " + scrollTop` text gives back exactly (scrollLeft, scrollTop) |
| `TabRect.WindowStateFromChrome` | src/flaresolverr/DrissionPage/_units/rect.py:125-147 | the reported state decides the vertical chrome, and back: 0 exactly when fullscreen, 16 exactly when maximized, 7 exactly when normal or minimized |
| `TabRect.WindowLocation` | src/flaresolverr/DrissionPage/_units/rect.py:130-136 | (0, 0) when maximized or fullscreen, otherwise (left + 7, top) |
| `TabRect.WindowSize` | src/flaresolverr/DrissionPage/_units/rect.py:138-147 | never larger than the bounds; equal to them exactly when fullscreen; width − 16 otherwise; height − 16 when maximized, height − 7 when normal or minimized |
| `TabRect.WindowSizeExamples` | src/flaresolverr/DrissionPage/_units/rect.py:138-147 | 1000×800 bounds give 984×793 when normal or minimized, 984×784 when maximized, 1000×800 when fullscreen |
| `TabRect.ViewportSizeWithScrollbar` | src/flaresolverr/DrissionPage/_units/rect.py:176-181 | succeeds exactly when the inner-size text parses, with value (int(w), int(h)) as width and height of the two pieces; otherwise fails with the parse's error |
| `TabRect.ViewportLocation` | src/flaresolverr/DrissionPage/_units/rect.py:156-162 | viewport location + viewport size with scrollbar = window location + window size, component-wise, in every window state; fails exactly when the inner size does not parse |
| `TabRect.PageLocation` | src/flaresolverr/DrissionPage/_units/rect.py:149-154 | page location + (layoutViewport.pageX, pageY) = viewport location; fails with the viewport location's error |
| `TabRect.ContentSizeFromMetrics` | src/flaresolverr/DrissionPage/_units/rect.py:164-168 | `size` is the layout metrics' contentSize, and depends on nothing else |
| `TabRect.ViewportSizeFromMetrics` | src/flaresolverr/DrissionPage/_units/rect.py:170-174 | `viewport_size` is the visual viewport's (clientWidth, clientHeight), and depends on nothing else |
| `TabRect.ScrollPositionFromMetrics` | src/flaresolverr/DrissionPage/_units/rect.py:183-187 | `scroll_position` is the visual viewport's (pageX, pageY), and depends on nothing else |
| `TabRect.ViewportLocationOfFormatted` | src/flaresolverr/DrissionPage/_units/rect.py:176-181 | an inner size formatted by the script is read back exactly, and the viewport sits at the window's visible bottom-right corner minus it |
| `FrameRect.Location` | src/flaresolverr/DrissionPage/_units/rect.py:207-210 | the host border's top-left in page coordinates; NoRectError exactly when the host has no box model |
| `FrameRect.ViewportLocation` | src/flaresolverr/DrissionPage/_units/rect.py:212-215 | the host border's top-left (x0, y0); NoRectError exactly when the host has no box model |
| `FrameRect.ScreenLocation` | src/flaresolverr/DrissionPage/_units/rect.py:217-220 | succeeds exactly when the parent owner's viewport location and the host box exist; then the host's top-left placed by the parent's viewport position, times the parent's dpr |
| `FrameRect.ViewportSize` | src/flaresolverr/DrissionPage/_units/rect.py:229-232 | the host border's span (x2 − x0, y5 − y1); NoRectError exactly when the host has no box model |
| `FrameRect.Corners` | src/flaresolverr/DrissionPage/_units/rect.py:234-237 | four corners, corner i the host border's (x2i, y2i+1) in page coordinates; NoRectError exactly without a host box |
| `FrameRect.ViewportCorners` | src/flaresolverr/DrissionPage/_units/rect.py:239-242 | four corners, corner i the host border's (x2i, y2i+1); NoRectError exactly without a host box |
| `FrameRect.ScrollPosition` | src/flaresolverr/DrissionPage/_units/rect.py:244-250 | succeeds exactly when the nested document's scroll text parses, with value (int(w), int(h)) of the two pieces; otherwise fails with the parse's error |
| `FrameRect.PositionIsHostPosition` | src/flaresolverr/DrissionPage/_units/rect.py:207-242 | location, viewport location, screen location, corners and viewport corners equal the host element's values; viewport size equals the host element's size |
| `FrameRect.ContentIgnoresHost` | src/flaresolverr/DrissionPage/_units/rect.py:222-227 | `size` is the nested body's scroll size, and with the scroll position depends only on the nested document, not on the host box |
| `FrameRect.PositionIgnoresContent` | src/flaresolverr/DrissionPage/_units/rect.py:207-242 | every position accessor depends only on the host element, not on the nested document |
| `FrameRect.OwnerRectIsFrameRect` | src/flaresolverr/DrissionPage/_units/rect.py:212-215 | for an element inside a frame, `owner.rect.viewport_location` is the FrameRect's viewport location |
| `FrameRect.ScreenLocationInFrame` | src/flaresolverr/DrissionPage/_units/rect.py:72-78 | for an element whose owner is a frame, the screen location adds the host's position in the parent viewport and scales by the frame's dpr |
| `FrameRect.ScrollPositionOfFormatted` | src/flaresolverr/DrissionPage/_units/rect.py:244-250 | a formatted document scroll offset is read back exactly |

A few members are plain reads with no contract of their own. The lemmas in
the rows above state them: `TabRect.WindowStateOf` in `WindowStateFromChrome`;
`TabRect.Size`, `TabRect.ViewportSize` and `TabRect.ScrollPosition` in the
three `…FromMetrics` lemmas; `FrameRect.Size` in `ContentIgnoresHost`;
`ElementRect.OwnerViewportLocation` in `OwnerViewportDispatch`;
`JsText.PyInt` and `JsText.ParsePair` in the `JsText` lemmas.

## Left out

- Protocol transport is not modelled: `_run_cdp`, `_run_cdp_loaded`, `_run_js`
  and `Browser.getWindowForTarget`. Their results are fields of the snapshot
  records. Transport failures are not modelled.
- Fresh queries per call are not modelled. Each accessor re-issues its
  queries; `viewport_click_point`, for one, reads the box model twice. The
  model reads one consistent snapshot per call, so DOM changes between
  round-trips are not captured.
- IEEE-754 behaviour is not modelled. Quad values are `int` and
  `devicePixelRatio` is a `real`, so float rounding is absent. A fractional
  value from the protocol is outside the model. A fractional value in script
  text still reaches `int()` and fails there, as `FractionalOffsetRejected`
  shows.
- `JsText.DecimalString` models `toString` only as plain decimal. JavaScript
  writes integral values of 1e21 and above in exponent form, and values above
  2^53 are not exact. Neither case is modelled.
- `JsText.PyInt` strips only the six ASCII characters `int()` strips: space,
  tab, line feed, vertical tab, form feed and carriage return. The information
  separators 0x1C..0x1F are not stripped, as in `int()`. The non-ASCII
  whitespace (such as U+0085) and non-ASCII Unicode decimal digits that
  Python's `int()` also accepts are not modelled, so the model rejects those
  texts.
- `JsText.PyInt` has no length limit. Since Python 3.11 (and in the 3.7-3.10
  security releases), `int()` raises ValueError for a decimal literal of more
  than 4,300 digits. Leading zeros count toward that limit and underscores do
  not. The model accepts such a literal and returns its value.
  `JsText.ParseFormatRoundTrip` is therefore exact only for values whose
  `toString` has at most 4,300 digits; JavaScript numbers never have that
  many.
- Outside the four states CDP defines, `windowState` is not modelled. The
  source tests against strings, and any other string falls into the "normal"
  branch.
- Only the box, layout and window values that `rect.py` reads are in the
  records. Other protocol fields, such as `layoutViewport.clientWidth`, are
  not.
- `src/flaresolverr/DataRecorder/setter.py` is not part of this model. It does
  file and database I/O and takes locks, which is not coordinate logic.
- `src/flaresolverr/flaresolverr.py` is not part of this model. It is HTTP
  route wiring and server start-up.
