/**
 * The wire image of every protocol value, as the serial names in the
 * declarations fix it: a sum-type value is `[tag, content]` with the
 * variant's tag, a record is an object with its i-th declared field under
 * the i-th letter, an enum value is its tag string, a Kotlin object is an
 * empty record, a list is an array, an absent nullable is null, and every
 * number (a Long included) is a wire number. This is the reference the
 * decoder is proved against; nothing in the decoder uses it.
 */
module WireSchema {
  import opened Wrappers
  import opened KotlinNumbers
  import opened JsonTree
  import opened ProtocolData
  import opened Protocol

  function Int(x: int): Wire {
    Num(x as real)
  }

  function NullOr<T>(o: Option<T>, encode: T -> Wire): Wire {
    match o
    case None => Null
    case Some(x) => encode(x)
  }

  /** A nullable whole number; the encoder takes its `Int16`/`Int32` values as plain integers. */
  function IntOrNull(o: Option<int>): Wire {
    NullOr(o, Int)
  }

  function Text(s: string): Wire {
    Str(s)
  }

  function CursorName(c: CursorType): Wire {
    Str(CursorTypeTag(c))
  }

  function Elements<T>(xs: seq<T>, encode: T -> Wire): (r: seq<Wire>)
    ensures |r| == |xs| && forall i :: 0 <= i < |xs| ==> r[i] == encode(xs[i])
  {
    seq(|xs|, i requires 0 <= i < |xs| => encode(xs[i]))
  }

  function List<T>(xs: seq<T>, encode: T -> Wire): Wire {
    Arr(Elements(xs, encode))
  }

  function Numbers(xs: seq<real>): Wire {
    List(xs, (x: real) => Num(x))
  }

  // ----- protocol.data -----

  function EncodePoint(p: Point): Wire {
    Obj(map["a" := Num(p.x), "b" := Num(p.y)])
  }

  function EncodeRectangle(r: CommonRectangle): Wire {
    Obj(map["a" := Num(r.x), "b" := Num(r.y), "c" := Num(r.width), "d" := Num(r.height)])
  }

  function EncodeIntSize(s: CommonIntSize): Wire {
    Obj(map["a" := Int(s.width), "b" := Int(s.height)])
  }

  function EncodeCaretInfo(c: CaretInfo): Wire {
    Obj(map["a" := EncodePoint(c.locationInWindow)])
  }

  function EncodeImageId(id: ImageId): Wire {
    Tagged(ImageIdTag(id),
      match id
      case BufferedImageId(identityHash, stateHash) => Obj(map[
        "a" := Int(identityHash),
        "b" := Int(stateHash)])
      case PVolatileImageId(longId) => Obj(map["a" := Int(longId)])
      case Unknown(className) => Obj(map["a" := Str(className)]))
  }

  function EncodeImageData(d: ImageData): Wire {
    Tagged(ImageDataTag(d),
      match d
      case PngBase64(data) => Obj(map["a" := Str(data)])
      case Empty => Obj(map[]))
  }

  function EncodePaintValue(p: PaintValue): Wire {
    Tagged(PaintValueTag(p),
      match p
      case Color(argb) => Obj(map["a" := Int(argb)])
      case Gradient(p1, p2, color1, color2) => Obj(map[
        "a" := EncodePoint(p1),
        "b" := EncodePoint(p2),
        "c" := Int(color1),
        "d" := Int(color2)])
      case Unknown(className) => Obj(map["a" := Str(className)]))
  }

  function EncodeWindowData(d: WindowData): Wire {
    Obj(map[
      "a" := Int(d.id),
      "b" := NullOr(d.title, Text),
      "c" := List(d.iconIds, EncodeImageId),
      "d" := Bool(d.focused),
      "e" := Int(d.order),
      "f" := EncodeRectangle(d.bounds),
      "g" := NullOr(d.cursorType, CursorName),
      "h" := Bool(d.alwaysOnTop),
      "i" := Bool(d.noTitle),
      "j" := Bool(d.fullscreen),
      "k" := Str(WindowTypeTag(d.windowType)),
      "l" := IntOrNull(d.parentId)])
  }

  function EncodeComposite(c: CommonComposite): Wire {
    Tagged(CommonCompositeTag(c),
      match c
      case CommonAlphaComposite(rule, extraAlpha) => Obj(map[
        "a" := Str(AlphaCompositeRuleTag(rule)),
        "b" := Num(extraAlpha)])
      case UnknownComposite(className) => Obj(map["a" := Str(className)]))
  }

  function EncodeStroke(s: StrokeData): Wire {
    Tagged(StrokeDataTag(s),
      Obj(map[
        "a" := Num(s.lineWidth),
        "b" := Str(JoinTypeTag(s.join)),
        "c" := Str(CapTypeTag(s.cap)),
        "d" := Num(s.miterLimit),
        "e" := Num(s.dashPhase),
        "f" := NullOr(s.dashList, Numbers)]))
  }

  function EncodeSegment(s: PathSegment): Wire {
    Tagged(PathSegmentTag(s),
      match s
      case MoveTo(p) => Obj(map["a" := EncodePoint(p)])
      case LineTo(p) => Obj(map["a" := EncodePoint(p)])
      case QuadTo(p1, p2) => Obj(map["a" := EncodePoint(p1), "b" := EncodePoint(p2)])
      case CubicTo(p1, p2, p3) => Obj(map[
        "a" := EncodePoint(p1),
        "b" := EncodePoint(p2),
        "c" := EncodePoint(p3)])
      case Close => Obj(map[]))
  }

  function EncodePath(p: CommonPath): Wire {
    Obj(map["a" := List(p.segments, EncodeSegment), "b" := Str(WindingTypeTag(p.winding))])
  }

  /** A shape's content is the rectangle's or the path's own record. */
  function EncodeShape(s: CommonShape): Wire {
    Tagged(CommonShapeTag(s),
      match s
      case RectangleShape(r) => EncodeRectangle(r)
      case PathShape(p) => EncodePath(p))
  }

  function EncodeImageEventInfo(info: ImageEventInfo): Wire {
    Tagged(ImageEventInfoTag(info),
      match info
      case Xy(x, y, bg) => Obj(map["a" := Int(x), "b" := Int(y), "c" := IntOrNull(bg)])
      case XyWh(x, y, w, h, bg) => Obj(map[
        "a" := Int(x),
        "b" := Int(y),
        "c" := Int(w),
        "d" := Int(h),
        "e" := IntOrNull(bg)])
      case Ds(dx1, dy1, dx2, dy2, sx1, sy1, sx2, sy2, bg) =>
        Obj(map[
          "a" := Int(dx1),
          "b" := Int(dy1),
          "c" := Int(dx2),
          "d" := Int(dy2),
          "e" := Int(sx1),
          "f" := Int(sy1),
          "g" := Int(sx2),
          "h" := Int(sy2),
          "i" := IntOrNull(bg)])
      case Transformed(tx) => Obj(map["a" := Numbers(tx)]))
  }

  // ----- protocol -----

  function EncodeTarget(t: Target): Wire {
    Tagged(TargetTag(t),
      match t
      case Onscreen(windowId) => Obj(map["a" := Int(windowId)])
      case Offscreen(id, width, height) => Obj(map["a" := Int(id), "b" := Int(width), "c" := Int(height)]))
  }

  function EncodeCaretInfoChange(c: CaretInfoChange): Wire {
    Tagged(CaretInfoChangeTag(c),
      match c
      case NoCarets => Obj(map[])
      case Carets(infos, fontId, fontSize, lineHeight, spaceWidth, windowId, metrics) =>
        Obj(map[
          "a" := List(infos, EncodeCaretInfo),
          "b" := IntOrNull(fontId),
          "c" := Int(fontSize),
          "d" := Int(lineHeight),
          "e" := Num(spaceWidth),
          "f" := Int(windowId),
          "g" := EncodeRectangle(metrics)]))
  }

  function EncodeWindowEvent(e: ServerWindowEvent): Wire {
    Tagged(WindowEventTag(e), WindowEventContent(e))
  }

  function WindowEventContent(e: ServerWindowEvent): Wire {
    match e
    case ServerPaintArcEvent(pt, x, y, w, h, sa, aa) =>
      Obj(map[
        "a" := Str(PaintTypeTag(pt)),
        "b" := Int(x),
        "c" := Int(y),
        "d" := Int(w),
        "e" := Int(h),
        "f" := Int(sa),
        "g" := Int(aa)])
    case ServerPaintOvalEvent(pt, x, y, w, h) =>
      Obj(map["a" := Str(PaintTypeTag(pt)), "b" := Int(x), "c" := Int(y), "d" := Int(w), "e" := Int(h)])
    case ServerPaintRoundRectEvent(pt, x, y, w, h, aw, ah) =>
      Obj(map[
        "a" := Str(PaintTypeTag(pt)),
        "b" := Int(x),
        "c" := Int(y),
        "d" := Int(w),
        "e" := Int(h),
        "f" := Int(aw),
        "g" := Int(ah)])
    case ServerPaintRectEvent(pt, x, y, w, h) =>
      Obj(map["a" := Str(PaintTypeTag(pt)), "b" := Num(x), "c" := Num(y), "d" := Num(w), "e" := Num(h)])
    case ServerDrawLineEvent(x1, y1, x2, y2) =>
      Obj(map["a" := Int(x1), "b" := Int(y1), "c" := Int(x2), "d" := Int(y2)])
    case ServerCopyAreaEvent(x, y, w, h, dx, dy) =>
      Obj(map["a" := Int(x), "b" := Int(y), "c" := Int(w), "d" := Int(h), "e" := Int(dx), "f" := Int(dy)])
    case ServerSetFontEvent(fontId, fontSize) =>
      Obj(map["a" := Int(fontId), "b" := Int(fontSize)])
    case ServerSetClipEvent(shape) =>
      Obj(map["a" := NullOr(shape, EncodeShape)])
    case ServerSetStrokeEvent(stroke) =>
      Obj(map["a" := EncodeStroke(stroke)])
    case ServerDrawRenderedImageEvent => Obj(map[])
    case ServerDrawRenderableImageEvent => Obj(map[])
    case ServerDrawImageEvent(id, info) =>
      Obj(map["a" := EncodeImageId(id), "b" := EncodeImageEventInfo(info)])
    case ServerDrawStringEvent(str, x, y, dw) =>
      Obj(map["a" := Str(str), "b" := Num(x), "c" := Num(y), "d" := Num(dw)])
    case ServerPaintPolygonEvent(pt, points) =>
      Obj(map["a" := Str(PaintTypeTag(pt)), "b" := List(points, EncodePoint)])
    case ServerDrawPolylineEvent(points) =>
      Obj(map["a" := List(points, EncodePoint)])
    case ServerSetTransformEvent(tx) =>
      Obj(map["a" := Numbers(tx)])
    case ServerPaintPathEvent(pt, path) =>
      Obj(map["a" := Str(PaintTypeTag(pt)), "b" := EncodePath(path)])
    case ServerSetCompositeEvent(c) =>
      Obj(map["a" := EncodeComposite(c)])
    case ServerSetPaintEvent(p) =>
      Obj(map["a" := EncodePaintValue(p)])
    case ServerSetUnknownStrokeEvent(className) =>
      Obj(map["a" := Str(className)])
  }

  function EncodeMarkdownContent(m: ServerMarkdownEvent): Wire {
    match m
    case ServerMarkdownShowEvent(panelId, show) => Obj(map["a" := Int(panelId), "b" := Bool(show)])
    case ServerMarkdownResizeEvent(panelId, size) => Obj(map["a" := Int(panelId), "b" := EncodeIntSize(size)])
    case ServerMarkdownMoveEvent(panelId, point) => Obj(map["a" := Int(panelId), "b" := EncodePoint(point)])
    case ServerMarkdownDisposeEvent(panelId) => Obj(map["a" := Int(panelId)])
    case ServerMarkdownPlaceToWindowEvent(panelId, windowId) => Obj(map[
      "a" := Int(panelId),
      "b" := Int(windowId)])
    case ServerMarkdownSetHtmlEvent(panelId, html) => Obj(map["a" := Int(panelId), "b" := Str(html)])
    case ServerMarkdownSetCssEvent(panelId, css) => Obj(map["a" := Int(panelId), "b" := Str(css)])
    case ServerMarkdownScrollEvent(panelId, offset) => Obj(map["a" := Int(panelId), "b" := Int(offset)])
    case ServerMarkdownBrowseUriEvent(link) => Obj(map["a" := Str(link)])
  }

  function EncodeColors(colors: map<string, ColorValue>): Wire {
    Obj(map k | k in colors :: EncodePaintValue(colors[k]))
  }

  function EventContent(e: ServerEvent): Wire {
    match e
    case ServerImageDataReplyEvent(id, data) => Obj(map[
      "a" := EncodeImageId(id),
      "b" := EncodeImageData(data)])
    case ServerPingReplyEvent(client, server) => Obj(map["a" := Int(client), "b" := Int(server)])
    case ServerClipboardEvent(s) => Obj(map["a" := Str(s)])
    case ServerWindowSetChangedEvent(windows) => Obj(map["a" := List(windows, EncodeWindowData)])
    case ServerDrawCommandsEvent(target, events) => Obj(map[
      "a" := EncodeTarget(target),
      "b" := List(events, EncodeWindowEvent)])
    case ServerCaretInfoChangedEvent(change) => Obj(map["a" := EncodeCaretInfoChange(change)])
    case Markdown(m) => EncodeMarkdownContent(m)
    case ServerWindowColorsEvent(colors) => Obj(map["a" := EncodeColors(colors)])
  }

  function EncodeEvent(e: ServerEvent): Wire {
    Tagged(ServerEventTag(e), EventContent(e))
  }

  /** A batch: the array of its events' pairs, in order. */
  function EncodeBatch(events: seq<ServerEvent>): Wire {
    List(events, EncodeEvent)
  }
}
