/**
 * The `ServerEvent` sealed hierarchy of package `protocol`, with the nested
 * `Target` and `CaretInfoChange` hierarchies, the Markdown events, and the
 * drawing commands (`ServerWindowEvent`) that a DrawCommands event carries.
 * Each variant's tag is its serial name; the defaults the declarations give
 * are the constructors' default parameters.
 */
module Protocol {
  import opened Wrappers
  import opened KotlinNumbers
  import opened ProtocolData

  datatype Target =
    | Onscreen(windowId: Int32)
    | Offscreen(pVolatileImageId: Int64, width: Int32, height: Int32)

  function TargetTag(t: Target): string {
    match t
    case Onscreen(_) => "a"
    case Offscreen(_, _, _) => "b"
  }

  datatype CaretInfoChange =
    | NoCarets
    | Carets(
        caretInfoList: seq<CaretInfo> := [],
        fontId: Option<Int16> := None,
        fontSize: Int32,
        nominalLineHeight: Int32,
        plainSpaceWidth: real,
        editorWindowId: Int32,
        editorMetrics: CommonRectangle)

  function CaretInfoChangeTag(c: CaretInfoChange): string {
    match c
    case NoCarets => "a"
    case Carets(_, _, _, _, _, _, _) => "b"
  }

  datatype ServerMarkdownEvent =
    | ServerMarkdownShowEvent(panelId: Int32, show: bool)
    | ServerMarkdownResizeEvent(panelId: Int32, size: CommonIntSize)
    | ServerMarkdownMoveEvent(panelId: Int32, point: Point)
    | ServerMarkdownDisposeEvent(panelId: Int32)
    | ServerMarkdownPlaceToWindowEvent(panelId: Int32, windowId: Int32)
    | ServerMarkdownSetHtmlEvent(panelId: Int32, html: string)
    | ServerMarkdownSetCssEvent(panelId: Int32, css: string)
    | ServerMarkdownScrollEvent(panelId: Int32, scrollOffset: Int32)
    | ServerMarkdownBrowseUriEvent(link: string)

  function MarkdownEventTag(m: ServerMarkdownEvent): string {
    match m
    case ServerMarkdownShowEvent(_, _) => "g"
    case ServerMarkdownResizeEvent(_, _) => "h"
    case ServerMarkdownMoveEvent(_, _) => "i"
    case ServerMarkdownDisposeEvent(_) => "j"
    case ServerMarkdownPlaceToWindowEvent(_, _) => "k"
    case ServerMarkdownSetHtmlEvent(_, _) => "l"
    case ServerMarkdownSetCssEvent(_, _) => "m"
    case ServerMarkdownScrollEvent(_, _) => "n"
    case ServerMarkdownBrowseUriEvent(_) => "o"
  }

  datatype ServerWindowEvent =
    | ServerPaintArcEvent(paintType: PaintType, x: Int32, y: Int32, width: Int32, height: Int32,
                          startAngle: Int32, arcAngle: Int32)
    | ServerPaintOvalEvent(paintType: PaintType, x: Int32, y: Int32, width: Int32, height: Int32)
    | ServerPaintRoundRectEvent(paintType: PaintType, x: Int32, y: Int32, width: Int32, height: Int32,
                                arcWidth: Int32, arcHeight: Int32)
    | ServerPaintRectEvent(paintType: PaintType, rectX: real, rectY: real, rectWidth: real, rectHeight: real)
    | ServerDrawLineEvent(x1: Int32, y1: Int32, x2: Int32, y2: Int32)
    | ServerCopyAreaEvent(x: Int32, y: Int32, width: Int32, height: Int32, dx: Int32, dy: Int32)
    | ServerSetFontEvent(fontId: Int16, fontSize: Int32)
    | ServerSetClipEvent(shape: Option<CommonShape>)
    | ServerSetStrokeEvent(strokeData: StrokeData)
    | ServerDrawRenderedImageEvent
    | ServerDrawRenderableImageEvent
    | ServerDrawImageEvent(imageId: ImageId, imageEventInfo: ImageEventInfo)
    | ServerDrawStringEvent(str: string, stringX: real, stringY: real, desiredWidth: real)
    | ServerPaintPolygonEvent(paintType: PaintType, points: seq<Point>)
    | ServerDrawPolylineEvent(points: seq<Point>)
    | ServerSetTransformEvent(tx: seq<real>)
    | ServerPaintPathEvent(paintType: PaintType, path: CommonPath)
    | ServerSetCompositeEvent(composite: CommonComposite)
    | ServerSetPaintEvent(paint: PaintValue)
    | ServerSetUnknownStrokeEvent(className: string)

  function WindowEventTag(e: ServerWindowEvent): string {
    match e
    case ServerPaintArcEvent(_, _, _, _, _, _, _) => "a"
    case ServerPaintOvalEvent(_, _, _, _, _) => "b"
    case ServerPaintRoundRectEvent(_, _, _, _, _, _, _) => "c"
    case ServerPaintRectEvent(_, _, _, _, _) => "d"
    case ServerDrawLineEvent(_, _, _, _) => "e"
    case ServerCopyAreaEvent(_, _, _, _, _, _) => "f"
    case ServerSetFontEvent(_, _) => "g"
    case ServerSetClipEvent(_) => "h"
    case ServerSetStrokeEvent(_) => "i"
    case ServerDrawRenderedImageEvent => "j"
    case ServerDrawRenderableImageEvent => "k"
    case ServerDrawImageEvent(_, _) => "l"
    case ServerDrawStringEvent(_, _, _, _) => "m"
    case ServerPaintPolygonEvent(_, _) => "n"
    case ServerDrawPolylineEvent(_) => "o"
    case ServerSetTransformEvent(_) => "p"
    case ServerPaintPathEvent(_, _) => "q"
    case ServerSetCompositeEvent(_) => "r"
    case ServerSetPaintEvent(_) => "s"
    case ServerSetUnknownStrokeEvent(_) => "t"
  }

  /** The Markdown events form a sealed sub-hierarchy of ServerEvent; `Markdown` embeds one. */
  datatype ServerEvent =
    | ServerImageDataReplyEvent(imageId: ImageId, imageData: ImageData)
    | ServerPingReplyEvent(clientTimeStamp: Int32, serverReadEventTimeStamp: Int32)
    | ServerClipboardEvent(stringContent: string)
    | ServerWindowSetChangedEvent(windowDataList: seq<WindowData> := [])
    | ServerDrawCommandsEvent(target: Target, drawEvents: seq<ServerWindowEvent> := [])
    | ServerCaretInfoChangedEvent(data: CaretInfoChange)
    | Markdown(markdown: ServerMarkdownEvent)
    | ServerWindowColorsEvent(colors: map<string, ColorValue> := map[])

  function ServerEventTag(e: ServerEvent): string {
    match e
    case ServerImageDataReplyEvent(_, _) => "a"
    case ServerPingReplyEvent(_, _) => "b"
    case ServerClipboardEvent(_) => "c"
    case ServerWindowSetChangedEvent(_) => "d"
    case ServerDrawCommandsEvent(_, _) => "e"
    case ServerCaretInfoChangedEvent(_) => "f"
    case Markdown(m) => MarkdownEventTag(m)
    case ServerWindowColorsEvent(_) => "p"
  }
}
