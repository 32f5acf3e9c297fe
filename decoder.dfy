/**
 * The hand-written decoder: the parsed batch is an array of `[tag, content]`
 * pairs, each dispatched on its tag through a table or a `when`; nested sum
 * types repeat the pattern with their own tags, and record fields are read
 * by their single-letter keys. Kotlin's arguments are evaluated left to
 * right and the first exception ends the decode; the `:-` chains below read
 * the fields in that same order, so the error reported is the one the
 * source throws first.
 */
module ManualKotlinMapJsonDecoder {
  import opened Wrappers
  import opened KotlinNumbers
  import opened JsonTree
  import opened ProtocolData
  import opened Protocol

  /** `decode`: every pair of the batch becomes one event, in order. */
  function Decode(batch: Wire): (r: Decoded<seq<ServerEvent>>)
    ensures r.Success? <==> batch.Arr? && forall i :: 0 <= i < |batch.items| ==> ToEvent(batch.items[i]).Success?
    ensures r.Success? ==> |r.value| == |batch.items|
    ensures r.Success? ==> forall i :: 0 <= i < |r.value| ==> r.value[i] == ToEvent(batch.items[i]).value
    ensures r.Failure? && batch.Arr? ==>
      exists i :: FirstFailure(batch.items, ToEvent, i) && r.error == ToEvent(batch.items[i]).error
  {
    match batch
    case Arr(pairs) => DecodeAll(pairs, ToEvent)
    case _ => Mismatch("batch", WantArray, Some(batch))
  }

  // ----- events (seMap) -----

  const EventTags: set<string> := {"a", "b", "c", "d", "e", "f", "g", "h", "i", "j", "k", "l", "m", "n", "o", "p"}

  /** `seMap`: the decoder of each event tag. */
  const SeMap: map<string, EventEntry> := map[
    "a" := ImageDataReplyEntry,
    "b" := PingReplyEntry,
    "c" := ClipboardEntry,
    "d" := WindowSetChangedEntry,
    "e" := DrawCommandsEntry,
    "f" := CaretInfoChangedEntry,
    "g" := MarkdownShowEntry,
    "h" := MarkdownResizeEntry,
    "i" := MarkdownMoveEntry,
    "j" := MarkdownDisposeEntry,
    "k" := MarkdownPlaceToWindowEntry,
    "l" := MarkdownSetHtmlEntry,
    "m" := MarkdownSetCssEntry,
    "n" := MarkdownScrollEntry,
    "o" := MarkdownBrowseUriEntry,
    "p" := WindowColorsEntry]

  /** The `{ content -> ... }` lambdas of `seMap`, one per entry. */
  datatype EventEntry =
    | ImageDataReplyEntry | PingReplyEntry | ClipboardEntry
    | WindowSetChangedEntry | DrawCommandsEntry | CaretInfoChangedEntry
    | MarkdownShowEntry | MarkdownResizeEntry | MarkdownMoveEntry
    | MarkdownDisposeEntry | MarkdownPlaceToWindowEntry | MarkdownSetHtmlEntry
    | MarkdownSetCssEntry | MarkdownScrollEntry | MarkdownBrowseUriEntry
    | WindowColorsEntry

  /** Invoking an entry's lambda on the pair's content. */
  function RunEventEntry(entry: EventEntry, content: Wire): Decoded<ServerEvent> {
    match entry
    case ImageDataReplyEntry => DecodeImageDataReply(content)
    case PingReplyEntry => DecodePingReply(content)
    case ClipboardEntry => DecodeClipboard(content)
    case WindowSetChangedEntry => DecodeWindowSetChanged(content)
    case DrawCommandsEntry => DecodeDrawCommands(content)
    case CaretInfoChangedEntry => DecodeCaretInfoChanged(content)
    case MarkdownShowEntry => DecodeMarkdownShow(content)
    case MarkdownResizeEntry => DecodeMarkdownResize(content)
    case MarkdownMoveEntry => DecodeMarkdownMove(content)
    case MarkdownDisposeEntry => DecodeMarkdownDispose(content)
    case MarkdownPlaceToWindowEntry => DecodeMarkdownPlaceToWindow(content)
    case MarkdownSetHtmlEntry => DecodeMarkdownSetHtml(content)
    case MarkdownSetCssEntry => DecodeMarkdownSetCss(content)
    case MarkdownScrollEntry => DecodeMarkdownScroll(content)
    case MarkdownBrowseUriEntry => DecodeMarkdownBrowseUri(content)
    case WindowColorsEntry => DecodeWindowColors(content)
  }

  function ToEvent(pair: Wire): Decoded<ServerEvent> {
    var p :- Pair(pair);
    if p.tag in SeMap then RunEventEntry(SeMap[p.tag], p.content)
    else Failure(Unsupported("Unsupported event type", p.tag))
  }

  function DecodeImageDataReply(content: Wire): (r: Decoded<ServerEvent>)
    ensures r.Success? ==> ServerEventTag(r.value) == "a"
  {
    var idPair :- GetPresent(content, "a", WantArray);
    var imageId :- ToImageId(idPair);
    var dataPair :- GetPresent(content, "b", WantArray);
    var imageData :- ToImageData(dataPair);
    Success(ServerImageDataReplyEvent(imageId, imageData))
  }

  function DecodePingReply(content: Wire): (r: Decoded<ServerEvent>)
    ensures r.Success? ==> ServerEventTag(r.value) == "b"
  {
    var client :- GetInt(content, "a");
    var server :- GetInt(content, "b");
    Success(ServerPingReplyEvent(client, server))
  }

  function DecodeClipboard(content: Wire): (r: Decoded<ServerEvent>)
    ensures r.Success? ==> ServerEventTag(r.value) == "c"
  {
    var s :- GetString(content, "a");
    Success(ServerClipboardEvent(s))
  }

  function DecodeWindowSetChanged(content: Wire): (r: Decoded<ServerEvent>)
    ensures r.Success? ==> ServerEventTag(r.value) == "d"
  {
    var items :- GetList(content, "a");
    var windows :- DecodeAll(items, ToWindowData);
    Success(ServerWindowSetChangedEvent(windows))
  }

  function DecodeDrawCommands(content: Wire): (r: Decoded<ServerEvent>)
    ensures r.Success? ==> ServerEventTag(r.value) == "e"
  {
    var targetPair :- GetPresent(content, "a", WantArray);
    var target :- ToTarget(targetPair);
    var items :- GetList(content, "b");
    var events :- DecodeAll(items, ToWindowEvent);
    Success(ServerDrawCommandsEvent(target, events))
  }

  function DecodeCaretInfoChanged(content: Wire): (r: Decoded<ServerEvent>)
    ensures r.Success? ==> ServerEventTag(r.value) == "f"
  {
    var changePair :- GetPresent(content, "a", WantArray);
    var change :- ToCaretInfoChange(changePair);
    Success(ServerCaretInfoChangedEvent(change))
  }

  function DecodeMarkdownShow(content: Wire): (r: Decoded<ServerEvent>)
    ensures r.Success? ==> ServerEventTag(r.value) == "g"
  {
    var panelId :- GetInt(content, "a");
    var show :- GetBool(content, "b");
    Success(Markdown(ServerMarkdownShowEvent(panelId, show)))
  }

  function DecodeMarkdownResize(content: Wire): (r: Decoded<ServerEvent>)
    ensures r.Success? ==> ServerEventTag(r.value) == "h"
  {
    var panelId :- GetInt(content, "a");
    var sizeObj :- GetPresent(content, "b", WantObject);
    var size :- ToCommonIntSize(sizeObj);
    Success(Markdown(ServerMarkdownResizeEvent(panelId, size)))
  }

  function DecodeMarkdownMove(content: Wire): (r: Decoded<ServerEvent>)
    ensures r.Success? ==> ServerEventTag(r.value) == "i"
  {
    var panelId :- GetInt(content, "a");
    var pointObj :- GetPresent(content, "b", WantObject);
    var point :- ToPoint(pointObj);
    Success(Markdown(ServerMarkdownMoveEvent(panelId, point)))
  }

  function DecodeMarkdownDispose(content: Wire): (r: Decoded<ServerEvent>)
    ensures r.Success? ==> ServerEventTag(r.value) == "j"
  {
    var panelId :- GetInt(content, "a");
    Success(Markdown(ServerMarkdownDisposeEvent(panelId)))
  }

  function DecodeMarkdownPlaceToWindow(content: Wire): (r: Decoded<ServerEvent>)
    ensures r.Success? ==> ServerEventTag(r.value) == "k"
  {
    var panelId :- GetInt(content, "a");
    var windowId :- GetInt(content, "b");
    Success(Markdown(ServerMarkdownPlaceToWindowEvent(panelId, windowId)))
  }

  function DecodeMarkdownSetHtml(content: Wire): (r: Decoded<ServerEvent>)
    ensures r.Success? ==> ServerEventTag(r.value) == "l"
  {
    var panelId :- GetInt(content, "a");
    var html :- GetString(content, "b");
    Success(Markdown(ServerMarkdownSetHtmlEvent(panelId, html)))
  }

  function DecodeMarkdownSetCss(content: Wire): (r: Decoded<ServerEvent>)
    ensures r.Success? ==> ServerEventTag(r.value) == "m"
  {
    var panelId :- GetInt(content, "a");
    var css :- GetString(content, "b");
    Success(Markdown(ServerMarkdownSetCssEvent(panelId, css)))
  }

  function DecodeMarkdownScroll(content: Wire): (r: Decoded<ServerEvent>)
    ensures r.Success? ==> ServerEventTag(r.value) == "n"
  {
    var panelId :- GetInt(content, "a");
    var offset :- GetInt(content, "b");
    Success(Markdown(ServerMarkdownScrollEvent(panelId, offset)))
  }

  function DecodeMarkdownBrowseUri(content: Wire): (r: Decoded<ServerEvent>)
    ensures r.Success? ==> ServerEventTag(r.value) == "o"
  {
    var link :- GetString(content, "a");
    Success(Markdown(ServerMarkdownBrowseUriEvent(link)))
  }

  /** Tag "p" does not look at its content: the colour map is always left empty. */
  function DecodeWindowColors(content: Wire): (r: Decoded<ServerEvent>)
    ensures r.Success? ==> ServerEventTag(r.value) == "p"
  {
    Success(ServerWindowColorsEvent())
  }

  // ----- caret changes, targets and small records -----

  function ToCaretInfoChange(pair: Wire): Decoded<CaretInfoChange> {
    var p :- Pair(pair);
    match p.tag
    case "a" => Success(NoCarets)
    case "b" =>
      var items :- GetList(p.content, "a");
      var infos :- DecodeAll(items, ToCaretInfo);
      var fontId :- GetOptShort(p.content, "b");
      var fontSize :- GetInt(p.content, "c");
      var lineHeight :- GetInt(p.content, "d");
      var spaceWidth :- GetNumber(p.content, "e");
      var windowId :- GetInt(p.content, "f");
      var metricsObj :- GetPresent(p.content, "g", WantObject);
      var metrics :- ToCommonRectangle(metricsObj);
      Success(Carets(infos, fontId, fontSize, lineHeight, spaceWidth, windowId, metrics))
    case _ => Failure(Unsupported("Unsupported caret info type", p.tag))
  }

  function ToCaretInfo(obj: Wire): Decoded<CaretInfo> {
    var pointObj :- GetPresent(obj, "a", WantObject);
    var point :- ToPoint(pointObj);
    Success(CaretInfo(point))
  }

  function ToTarget(pair: Wire): Decoded<Target> {
    var p :- Pair(pair);
    match p.tag
    case "a" =>
      var windowId :- GetInt(p.content, "a");
      Success(Onscreen(windowId))
    case "b" =>
      var id :- GetNumber(p.content, "a");
      var width :- GetInt(p.content, "b");
      var height :- GetInt(p.content, "c");
      Success(Offscreen(RoundToLong(id), width, height))
    case _ => Failure(Unsupported("Unsupported target type", p.tag))
  }

  function ToCommonIntSize(obj: Wire): Decoded<CommonIntSize> {
    var width :- GetInt(obj, "a");
    var height :- GetInt(obj, "b");
    Success(CommonIntSize(width, height))
  }

  function ToWindowData(obj: Wire): Decoded<WindowData> {
    var id :- GetInt(obj, "a");
    var title :- GetOptString(obj, "b");
    var iconItems :- GetList(obj, "c");
    var iconIds :- DecodeAll(iconItems, ToImageId);
    var focused :- GetBool(obj, "d");
    var order :- GetInt(obj, "e");
    var boundsObj :- GetPresent(obj, "f", WantObject);
    var bounds :- ToCommonRectangle(boundsObj);
    var cursor :- GetCursorType(obj);
    var alwaysOnTop :- GetBool(obj, "h");
    var noTitle :- GetBool(obj, "i");
    var fullscreen :- GetBool(obj, "j");
    var windowTypeName :- GetString(obj, "k");
    var windowType :- ToWindowType(windowTypeName);
    var parentId :- GetOptInt(obj, "l");
    Success(WindowData(id, title, iconIds, focused, order, bounds, cursor,
                       alwaysOnTop, noTitle, fullscreen, windowType, parentId))
  }

  /** `(this["g"] as String?)?.toCursorType()`: no cursor when the key is absent or null. */
  function GetCursorType(obj: Wire): Decoded<Option<CursorType>> {
    var v :- Field(obj, "g");
    Nullable(v, CursorTypeValue)
  }

  function CursorTypeValue(w: Wire): Decoded<CursorType> {
    var name :- AsString("g", Some(w));
    ToCursorType(name)
  }

  function ToWindowType(s: string): Decoded<WindowType> {
    match s
    case "a" => Success(WINDOW)
    case "b" => Success(POPUP)
    case "c" => Success(IDEA_WINDOW)
    case _ => Failure(Unsupported("Unsupported window type", s))
  }

  /** `cursorTypes`. */
  const CursorTypes: map<string, CursorType> := map[
    "a" := DEFAULT,
    "b" := CROSSHAIR,
    "c" := TEXT,
    "d" := WAIT,
    "e" := SW_RESIZE,
    "f" := SE_RESIZE,
    "g" := NW_RESIZE,
    "h" := NE_RESIZE,
    "i" := N_RESIZE,
    "j" := S_RESIZE,
    "k" := W_RESIZE,
    "l" := E_RESIZE,
    "m" := HAND,
    "n" := MOVE]

  function ToCursorType(s: string): Decoded<CursorType> {
    if s in CursorTypes then Success(CursorTypes[s])
    else Failure(Unsupported("Unsupported cursor type", s))
  }

  function ToCommonRectangle(obj: Wire): Decoded<CommonRectangle> {
    var x :- GetNumber(obj, "a");
    var y :- GetNumber(obj, "b");
    var w :- GetNumber(obj, "c");
    var h :- GetNumber(obj, "d");
    Success(CommonRectangle(x, y, w, h))
  }

  // ----- drawing commands (sweMap) -----

  const WindowEventTags: set<string> :=
    {"a", "b", "c", "d", "e", "f", "g", "h", "i", "j", "k", "l", "m", "n", "o", "p", "q", "r", "s", "t"}

  /** `sweMap`: the decoder of each drawing-command tag. */
  const SweMap: map<string, WindowEventEntry> := map[
    "a" := PaintArcEntry,
    "b" := PaintOvalEntry,
    "c" := PaintRoundRectEntry,
    "d" := PaintRectEntry,
    "e" := DrawLineEntry,
    "f" := CopyAreaEntry,
    "g" := SetFontEntry,
    "h" := SetClipEntry,
    "i" := SetStrokeEntry,
    "j" := DrawRenderedImageEntry,
    "k" := DrawRenderableImageEntry,
    "l" := DrawImageEntry,
    "m" := DrawStringEntry,
    "n" := PaintPolygonEntry,
    "o" := DrawPolylineEntry,
    "p" := SetTransformEntry,
    "q" := PaintPathEntry,
    "r" := SetCompositeEntry,
    "s" := SetPaintEntry,
    "t" := SetUnknownStrokeEntry]

  /** The `{ content -> ... }` lambdas of `sweMap`, one per entry. */
  datatype WindowEventEntry =
    | PaintArcEntry | PaintOvalEntry | PaintRoundRectEntry
    | PaintRectEntry | DrawLineEntry | CopyAreaEntry
    | SetFontEntry | SetClipEntry | SetStrokeEntry
    | DrawRenderedImageEntry | DrawRenderableImageEntry | DrawImageEntry
    | DrawStringEntry | PaintPolygonEntry | DrawPolylineEntry
    | SetTransformEntry | PaintPathEntry | SetCompositeEntry
    | SetPaintEntry | SetUnknownStrokeEntry

  /** Invoking an entry's lambda on the pair's content. */
  function RunWindowEventEntry(entry: WindowEventEntry, content: Wire): Decoded<ServerWindowEvent> {
    match entry
    case PaintArcEntry => DecodePaintArc(content)
    case PaintOvalEntry => DecodePaintOval(content)
    case PaintRoundRectEntry => DecodePaintRoundRect(content)
    case PaintRectEntry => DecodePaintRect(content)
    case DrawLineEntry => DecodeDrawLine(content)
    case CopyAreaEntry => DecodeCopyArea(content)
    case SetFontEntry => DecodeSetFont(content)
    case SetClipEntry => DecodeSetClip(content)
    case SetStrokeEntry => DecodeSetStroke(content)
    case DrawRenderedImageEntry => DecodeDrawRenderedImage(content)
    case DrawRenderableImageEntry => DecodeDrawRenderableImage(content)
    case DrawImageEntry => DecodeDrawImage(content)
    case DrawStringEntry => DecodeDrawString(content)
    case PaintPolygonEntry => DecodePaintPolygon(content)
    case DrawPolylineEntry => DecodeDrawPolyline(content)
    case SetTransformEntry => DecodeSetTransform(content)
    case PaintPathEntry => DecodePaintPath(content)
    case SetCompositeEntry => DecodeSetComposite(content)
    case SetPaintEntry => DecodeSetPaint(content)
    case SetUnknownStrokeEntry => DecodeSetUnknownStroke(content)
  }

  /** An unknown drawing-command tag fails with the same message as an unknown event tag. */
  function ToWindowEvent(pair: Wire): Decoded<ServerWindowEvent> {
    var p :- Pair(pair);
    if p.tag in SweMap then RunWindowEventEntry(SweMap[p.tag], p.content)
    else Failure(Unsupported("Unsupported event type", p.tag))
  }

  function GetPaintType(content: Wire, key: string): Decoded<PaintType> {
    var s :- GetString(content, key);
    ToPaintType(s)
  }

  function DecodePaintArc(content: Wire): (r: Decoded<ServerWindowEvent>)
    ensures r.Success? ==> WindowEventTag(r.value) == "a"
  {
    var paintType :- GetPaintType(content, "a");
    var x :- GetInt(content, "b");
    var y :- GetInt(content, "c");
    var width :- GetInt(content, "d");
    var height :- GetInt(content, "e");
    var startAngle :- GetInt(content, "f");
    var arcAngle :- GetInt(content, "g");
    Success(ServerPaintArcEvent(paintType, x, y, width, height, startAngle, arcAngle))
  }

  function DecodePaintOval(content: Wire): (r: Decoded<ServerWindowEvent>)
    ensures r.Success? ==> WindowEventTag(r.value) == "b"
  {
    var paintType :- GetPaintType(content, "a");
    var x :- GetInt(content, "b");
    var y :- GetInt(content, "c");
    var width :- GetInt(content, "d");
    var height :- GetInt(content, "e");
    Success(ServerPaintOvalEvent(paintType, x, y, width, height))
  }

  function DecodePaintRoundRect(content: Wire): (r: Decoded<ServerWindowEvent>)
    ensures r.Success? ==> WindowEventTag(r.value) == "c"
  {
    var paintType :- GetPaintType(content, "a");
    var x :- GetInt(content, "b");
    var y :- GetInt(content, "c");
    var width :- GetInt(content, "d");
    var height :- GetInt(content, "e");
    var arcWidth :- GetInt(content, "f");
    var arcHeight :- GetInt(content, "g");
    Success(ServerPaintRoundRectEvent(paintType, x, y, width, height, arcWidth, arcHeight))
  }

  function DecodePaintRect(content: Wire): (r: Decoded<ServerWindowEvent>)
    ensures r.Success? ==> WindowEventTag(r.value) == "d"
  {
    var paintType :- GetPaintType(content, "a");
    var x :- GetNumber(content, "b");
    var y :- GetNumber(content, "c");
    var width :- GetNumber(content, "d");
    var height :- GetNumber(content, "e");
    Success(ServerPaintRectEvent(paintType, x, y, width, height))
  }

  function DecodeDrawLine(content: Wire): (r: Decoded<ServerWindowEvent>)
    ensures r.Success? ==> WindowEventTag(r.value) == "e"
  {
    var x1 :- GetInt(content, "a");
    var y1 :- GetInt(content, "b");
    var x2 :- GetInt(content, "c");
    var y2 :- GetInt(content, "d");
    Success(ServerDrawLineEvent(x1, y1, x2, y2))
  }

  function DecodeCopyArea(content: Wire): (r: Decoded<ServerWindowEvent>)
    ensures r.Success? ==> WindowEventTag(r.value) == "f"
  {
    var x :- GetInt(content, "a");
    var y :- GetInt(content, "b");
    var width :- GetInt(content, "c");
    var height :- GetInt(content, "d");
    var dx :- GetInt(content, "e");
    var dy :- GetInt(content, "f");
    Success(ServerCopyAreaEvent(x, y, width, height, dx, dy))
  }

  function DecodeSetFont(content: Wire): (r: Decoded<ServerWindowEvent>)
    ensures r.Success? ==> WindowEventTag(r.value) == "g"
  {
    var fontId :- GetShort(content, "a");
    var fontSize :- GetInt(content, "b");
    Success(ServerSetFontEvent(fontId, fontSize))
  }

  function DecodeSetClip(content: Wire): (r: Decoded<ServerWindowEvent>)
    ensures r.Success? ==> WindowEventTag(r.value) == "h"
  {
    var shape :- GetClip(content);
    Success(ServerSetClipEvent(shape))
  }

  /** The clip shape is nullable: absent or null gives no clip. */
  function GetClip(content: Wire): Decoded<Option<CommonShape>> {
    var v :- Field(content, "a");
    Nullable(v, ToCommonShape)
  }

  function DecodeSetStroke(content: Wire): (r: Decoded<ServerWindowEvent>)
    ensures r.Success? ==> WindowEventTag(r.value) == "i"
  {
    var strokePair :- GetPresent(content, "a", WantArray);
    var stroke :- ToStrokeData(strokePair);
    Success(ServerSetStrokeEvent(stroke))
  }

  /** Tag "j" is a singleton and ignores its content. */
  function DecodeDrawRenderedImage(content: Wire): (r: Decoded<ServerWindowEvent>)
    ensures r.Success? ==> WindowEventTag(r.value) == "j"
  {
    Success(ServerDrawRenderedImageEvent)
  }

  /** Tag "k" is a singleton and ignores its content. */
  function DecodeDrawRenderableImage(content: Wire): (r: Decoded<ServerWindowEvent>)
    ensures r.Success? ==> WindowEventTag(r.value) == "k"
  {
    Success(ServerDrawRenderableImageEvent)
  }

  function DecodeDrawImage(content: Wire): (r: Decoded<ServerWindowEvent>)
    ensures r.Success? ==> WindowEventTag(r.value) == "l"
  {
    var idPair :- GetPresent(content, "a", WantArray);
    var imageId :- ToImageId(idPair);
    var infoPair :- GetPresent(content, "b", WantArray);
    var info :- ToImageEventInfo(infoPair);
    Success(ServerDrawImageEvent(imageId, info))
  }

  function DecodeDrawString(content: Wire): (r: Decoded<ServerWindowEvent>)
    ensures r.Success? ==> WindowEventTag(r.value) == "m"
  {
    var str :- GetString(content, "a");
    var x :- GetNumber(content, "b");
    var y :- GetNumber(content, "c");
    var desiredWidth :- GetNumber(content, "d");
    Success(ServerDrawStringEvent(str, x, y, desiredWidth))
  }

  function DecodePaintPolygon(content: Wire): (r: Decoded<ServerWindowEvent>)
    ensures r.Success? ==> WindowEventTag(r.value) == "n"
  {
    var paintType :- GetPaintType(content, "a");
    var items :- GetList(content, "b");
    var points :- DecodeAll(items, ToPoint);
    Success(ServerPaintPolygonEvent(paintType, points))
  }

  function DecodeDrawPolyline(content: Wire): (r: Decoded<ServerWindowEvent>)
    ensures r.Success? ==> WindowEventTag(r.value) == "o"
  {
    var items :- GetList(content, "a");
    var points :- DecodeAll(items, ToPoint);
    Success(ServerDrawPolylineEvent(points))
  }

  function DecodeSetTransform(content: Wire): (r: Decoded<ServerWindowEvent>)
    ensures r.Success? ==> WindowEventTag(r.value) == "p"
  {
    var items :- GetList(content, "a");
    var tx :- DecodeAll(items, NumberElement);
    Success(ServerSetTransformEvent(tx))
  }

  function DecodePaintPath(content: Wire): (r: Decoded<ServerWindowEvent>)
    ensures r.Success? ==> WindowEventTag(r.value) == "q"
  {
    var paintType :- GetPaintType(content, "a");
    var pathObj :- GetPresent(content, "b", WantObject);
    var path :- ToCommonPath(pathObj);
    Success(ServerPaintPathEvent(paintType, path))
  }

  function DecodeSetComposite(content: Wire): (r: Decoded<ServerWindowEvent>)
    ensures r.Success? ==> WindowEventTag(r.value) == "r"
  {
    var compositePair :- GetPresent(content, "a", WantArray);
    var composite :- ToCommonComposite(compositePair);
    Success(ServerSetCompositeEvent(composite))
  }

  function DecodeSetPaint(content: Wire): (r: Decoded<ServerWindowEvent>)
    ensures r.Success? ==> WindowEventTag(r.value) == "s"
  {
    var paintPair :- GetPresent(content, "a", WantArray);
    var paint :- ToPaintValue(paintPair);
    Success(ServerSetPaintEvent(paint))
  }

  function DecodeSetUnknownStroke(content: Wire): (r: Decoded<ServerWindowEvent>)
    ensures r.Success? ==> WindowEventTag(r.value) == "t"
  {
    var className :- GetString(content, "a");
    Success(ServerSetUnknownStrokeEvent(className))
  }

  // ----- composites, paints, image info, strokes -----

  /** `alphaCompositeRuleMap`. */
  const AlphaCompositeRules: map<string, AlphaCompositeRule> := map[
    "a" := SRC_OVER,
    "b" := DST_OVER,
    "c" := SRC_IN,
    "d" := CLEAR,
    "e" := SRC,
    "f" := DST,
    "g" := DST_IN,
    "h" := SRC_OUT,
    "i" := DST_OUT,
    "j" := SRC_ATOP,
    "k" := DST_ATOP,
    "l" := XOR]

  function ToAlphaCompositeRule(s: string): Decoded<AlphaCompositeRule> {
    if s in AlphaCompositeRules then Success(AlphaCompositeRules[s])
    else Failure(Unsupported("Unsupported rule", s))
  }

  function ToCommonComposite(pair: Wire): Decoded<CommonComposite> {
    var p :- Pair(pair);
    match p.tag
    case "a" =>
      var ruleName :- GetString(p.content, "a");
      var rule :- ToAlphaCompositeRule(ruleName);
      var alpha :- GetNumber(p.content, "b");
      Success(CommonAlphaComposite(rule, alpha))
    case "b" =>
      var className :- GetString(p.content, "a");
      Success(UnknownComposite(className))
    case _ => Failure(Unsupported("Unsupported common composite type", p.tag))
  }

  function ToPaintType(s: string): Decoded<PaintType> {
    match s
    case "a" => Success(DRAW)
    case "b" => Success(FILL)
    case _ => Failure(Unsupported("Unsupported paint type", s))
  }

  function ToPaintValue(pair: Wire): Decoded<PaintValue> {
    var p :- Pair(pair);
    match p.tag
    case "a" =>
      var argb :- GetInt(p.content, "a");
      Success(Color(argb))
    case "b" =>
      var p1Obj :- GetPresent(p.content, "a", WantObject);
      var p1 :- ToPoint(p1Obj);
      var p2Obj :- GetPresent(p.content, "b", WantObject);
      var p2 :- ToPoint(p2Obj);
      var color1 :- GetInt(p.content, "c");
      var color2 :- GetInt(p.content, "d");
      Success(Gradient(p1, p2, color1, color2))
    case "c" =>
      var className :- GetString(p.content, "a");
      Success(PaintValue.Unknown(className))
    case _ => Failure(Unsupported("Unsupported paint value type", p.tag))
  }

  function ToImageEventInfo(pair: Wire): Decoded<ImageEventInfo> {
    var p :- Pair(pair);
    var c := p.content;
    match p.tag
    case "a" =>
      var x :- GetInt(c, "a");
      var y :- GetInt(c, "b");
      var bg :- GetOptInt(c, "c");
      Success(Xy(x, y, bg))
    case "b" =>
      var x :- GetInt(c, "a");
      var y :- GetInt(c, "b");
      var w :- GetInt(c, "c");
      var h :- GetInt(c, "d");
      var bg :- GetOptInt(c, "e");
      Success(XyWh(x, y, w, h, bg))
    case "c" =>
      var dx1 :- GetInt(c, "a");
      var dy1 :- GetInt(c, "b");
      var dx2 :- GetInt(c, "c");
      var dy2 :- GetInt(c, "d");
      var sx1 :- GetInt(c, "e");
      var sy1 :- GetInt(c, "f");
      var sx2 :- GetInt(c, "g");
      var sy2 :- GetInt(c, "h");
      var bg :- GetOptInt(c, "i");
      Success(Ds(dx1, dy1, dx2, dy2, sx1, sy1, sx2, sy2, bg))
    case "d" =>
      var items :- GetList(c, "a");
      var tx :- DecodeAll(items, NumberElement);
      Success(Transformed(tx))
    case _ => Failure(Unsupported("Unsupported image info type", p.tag))
  }

  /** The join-type `when` inside `toStrokeData`. */
  function ToJoinType(s: string): Decoded<JoinType> {
    match s
    case "a" => Success(MITER)
    case "b" => Success(JoinType.ROUND)
    case "c" => Success(BEVEL)
    case _ => Failure(Unsupported("Unsupported join type", s))
  }

  /** The cap-type `when` inside `toStrokeData`. */
  function ToCapType(s: string): Decoded<CapType> {
    match s
    case "a" => Success(BUTT)
    case "b" => Success(CapType.ROUND)
    case "c" => Success(SQUARE)
    case _ => Failure(Unsupported("Unsupported cap type", s))
  }

  function ToStrokeData(pair: Wire): Decoded<StrokeData> {
    var p :- Pair(pair);
    match p.tag
    case "a" =>
      var lineWidth :- GetNumber(p.content, "a");
      var joinName :- GetString(p.content, "b");
      var join :- ToJoinType(joinName);
      var capName :- GetString(p.content, "c");
      var cap :- ToCapType(capName);
      var miterLimit :- GetNumber(p.content, "d");
      var dashPhase :- GetNumber(p.content, "e");
      var dashList :- GetDashList(p.content);
      Success(Basic(lineWidth, join, cap, miterLimit, dashPhase, dashList))
    case _ => Failure(Unsupported("Unsupported stroke type", p.tag))
  }

  /** `content["f"].unsafeCast<Array<Float>?>()?.toList()`: no dash list when absent or null. */
  function GetDashList(content: Wire): Decoded<Option<seq<real>>> {
    var v :- Field(content, "f");
    Nullable(v, DashListValue)
  }

  function DashListValue(w: Wire): Decoded<seq<real>> {
    var items :- AsArray("f", Some(w));
    DecodeAll(items, NumberElement)
  }

  // ----- image ids and data -----

  /** Only tags "a" and "b" are accepted: `ImageId.Unknown`'s tag "c" is rejected like any unknown tag. */
  function ToImageId(pair: Wire): Decoded<ImageId> {
    var p :- Pair(pair);
    match p.tag
    case "a" =>
      var identityHash :- GetInt(p.content, "a");
      var stateHash :- GetInt(p.content, "b");
      Success(BufferedImageId(identityHash, stateHash))
    case "b" =>
      var id :- GetNumber(p.content, "a");
      Success(PVolatileImageId(RoundToLong(id)))
    case _ => Failure(Unsupported("Invalid image id type", p.tag))
  }

  function ToImageData(pair: Wire): Decoded<ImageData> {
    var p :- Pair(pair);
    match p.tag
    case "a" =>
      var data :- GetString(p.content, "a");
      Success(PngBase64(data))
    case "b" => Success(Empty)
    case _ => Failure(Unsupported("Invalid image data type", p.tag))
  }

  // ----- shapes, paths, points -----

  function ToCommonShape(pair: Wire): Decoded<CommonShape> {
    var p :- Pair(pair);
    match p.tag
    case "a" =>
      var rectangle :- ToCommonRectangle(p.content);
      Success(RectangleShape(rectangle))
    case "b" =>
      var path :- ToCommonPath(p.content);
      Success(PathShape(path))
    case _ => Failure(Unsupported("Unsupported common shape", p.tag))
  }

  /** The winding `when` inside `toCommonPath`. */
  function ToWindingType(s: string): Decoded<WindingType> {
    match s
    case "a" => Success(EVEN_ODD)
    case "b" => Success(NON_ZERO)
    case _ => Failure(Unsupported("Invalid winding type", s))
  }

  function ToCommonPath(obj: Wire): Decoded<CommonPath> {
    var items :- GetList(obj, "a");
    var segments :- DecodeAll(items, ToPathSegment);
    var windingName :- GetString(obj, "b");
    var winding :- ToWindingType(windingName);
    Success(CommonPath(segments, winding))
  }

  function ToPathSegment(pair: Wire): Decoded<PathSegment> {
    var p :- Pair(pair);
    match p.tag
    case "a" =>
      var pointObj :- GetPresent(p.content, "a", WantObject);
      var point :- ToPoint(pointObj);
      Success(MoveTo(point))
    case "b" =>
      var pointObj :- GetPresent(p.content, "a", WantObject);
      var point :- ToPoint(pointObj);
      Success(LineTo(point))
    case "c" =>
      var p1Obj :- GetPresent(p.content, "a", WantObject);
      var p1 :- ToPoint(p1Obj);
      var p2Obj :- GetPresent(p.content, "b", WantObject);
      var p2 :- ToPoint(p2Obj);
      Success(QuadTo(p1, p2))
    case "d" =>
      var p1Obj :- GetPresent(p.content, "a", WantObject);
      var p1 :- ToPoint(p1Obj);
      var p2Obj :- GetPresent(p.content, "b", WantObject);
      var p2 :- ToPoint(p2Obj);
      var p3Obj :- GetPresent(p.content, "c", WantObject);
      var p3 :- ToPoint(p3Obj);
      Success(CubicTo(p1, p2, p3))
    case "e" => Success(Close)
    case _ => Failure(Unsupported("Unsupported path segment", p.tag))
  }

  function ToPoint(obj: Wire): Decoded<Point> {
    var x :- GetNumber(obj, "a");
    var y :- GetNumber(obj, "b");
    Success(Point(x, y))
  }
}
