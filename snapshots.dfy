/** The protocol results the geometry accessors read, as plain records.
    Each accessor call sees one snapshot of them; the owner chain of the
    source (element -> owner -> owner.rect, frame -> frame_ele) becomes
    explicit fields. */
module Snapshots {
  import opened Common

  /** A box-model quad: four corners as eight numbers x0, y0, ..., x3, y3 in the
      order top-left, top-right, bottom-right, bottom-left. */
  type Quad = q: seq<int> | |q| == 8 witness [0, 0, 0, 0, 0, 0, 0, 0]

  /** `DOM.getBoxModel` result: one quad per box. */
  datatype BoxModel = BoxModel(content: Quad, padding: Quad, border: Quad, margin: Quad)

  datatype QuadKind = Content | Padding | Border | Margin

  function QuadOf(box: BoxModel, kind: QuadKind): Quad {
    match kind
    case Content => box.content
    case Padding => box.padding
    case Border => box.border
    case Margin => box.margin
  }

  datatype LayoutViewport = LayoutViewport(pageX: int, pageY: int)

  datatype VisualViewport = VisualViewport(pageX: int, pageY: int, clientWidth: int, clientHeight: int)

  /** `Page.getLayoutMetrics` result, the parts that are read. */
  datatype LayoutMetrics = LayoutMetrics(
    layoutViewport: LayoutViewport,
    visualViewport: VisualViewport,
    contentSize: Extent)

  datatype WindowState = Normal | Minimized | Maximized | Fullscreen

  /** `Browser.getWindowForTarget` bounds. */
  datatype WindowBounds = WindowBounds(left: int, top: int, width: int, height: int, windowState: WindowState)

  /** A page or tab: its window bounds, its layout metrics, the result of
      `window.innerWidth.toString() + " " + window.innerHeight.toString()`
      and `window.devicePixelRatio`. */
  datatype Tab = Tab(
    bounds: WindowBounds,
    metrics: LayoutMetrics,
    innerSizeText: string,
    devicePixelRatio: real)

  /** A cross-origin frame: the host element `frame_ele` in the parent
      document, the frame's own layout metrics and `window.devicePixelRatio`,
      and what scripts on the nested document return: `body.scrollWidth`,
      `body.scrollHeight` and the joined `documentElement.scrollLeft/scrollTop`. */
  datatype Frame = Frame(
    frameEle: Element,
    metrics: LayoutMetrics,
    devicePixelRatio: real,
    bodyScrollWidth: int,
    bodyScrollHeight: int,
    docScrollText: string)

  /** The context an element belongs to, whose `rect` is a TabRect or a FrameRect. */
  datatype Owner = TabOwner(tab: Tab) | FrameOwner(frame: Frame)

  /** An element: its box model (`None` when `DOM.getBoxModel` raises, which the
      protocol layer reports as NoRectError), the joined
      `this.scrollLeft/scrollTop` script result, and its owner. */
  datatype Element = Element(boxModel: Option<BoxModel>, scrollText: string, owner: Owner)

  /** The owner's `Page.getLayoutMetrics`. */
  function OwnerMetrics(o: Owner): LayoutMetrics {
    match o
    case TabOwner(t) => t.metrics
    case FrameOwner(f) => f.metrics
  }

  /** The owner's `window.devicePixelRatio`. */
  function OwnerDevicePixelRatio(o: Owner): real {
    match o
    case TabOwner(t) => t.devicePixelRatio
    case FrameOwner(f) => f.devicePixelRatio
  }
}
