/**
 * The decoder inverts the wire schema: decoding the wire image of a value
 * gives the value back, for exactly those values that contain no
 * `ImageId.Unknown` and no non-empty window colour map. Those two are the
 * places where the decoder departs from the declarations: it rejects image
 * id tag "c", and it drops the colour map of tag "p".
 */
module RoundTrip {
  import opened Wrappers
  import opened KotlinNumbers
  import opened JsonTree
  import opened ProtocolData
  import opened Protocol
  import opened WireSchema
  import opened ManualKotlinMapJsonDecoder
  import opened DecoderProperties

  // ----- which values survive the trip -----

  predicate DecodableImageId(id: ImageId) {
    !id.Unknown?
  }

  predicate DecodableWindowData(d: WindowData) {
    forall i :: 0 <= i < |d.iconIds| ==> DecodableImageId(d.iconIds[i])
  }

  predicate DecodableWindowEvent(e: ServerWindowEvent) {
    e.ServerDrawImageEvent? ==> DecodableImageId(e.imageId)
  }

  predicate DecodableEvent(e: ServerEvent) {
    match e
    case ServerImageDataReplyEvent(id, _) => DecodableImageId(id)
    case ServerWindowSetChangedEvent(windows) =>
      forall i :: 0 <= i < |windows| ==> DecodableWindowData(windows[i])
    case ServerDrawCommandsEvent(_, events) =>
      forall i :: 0 <= i < |events| ==> DecodableWindowEvent(events[i])
    case ServerWindowColorsEvent(colors) => colors == map[]
    case _ => true
  }

  // ----- scalars and lists -----

  lemma IntRoundTrip(at: string, x: Int32)
    ensures AsInt(at, Some(Int(x))) == Success(x)
  {
  }

  lemma ShortRoundTrip(at: string, x: Int16)
    ensures AsShort(at, Some(Int(x))) == Success(x)
  {
  }

  /** A list decodes element by element, so it comes back whole when every element does. */
  lemma ListRoundTrip<T>(xs: seq<T>, encode: T -> Wire, decode: Wire -> Decoded<T>)
    requires forall i :: 0 <= i < |xs| ==> decode(encode(xs[i])) == Success(xs[i])
    ensures DecodeAll(Elements(xs, encode), decode) == Success(xs)
  {
    var items := Elements(xs, encode);
    assert forall i :: 0 <= i < |items| ==> decode(items[i]).Success?;
    var r := DecodeAll(items, decode);
    assert r.value == xs;
  }

  /** A list with an element that does not decode fails as a whole. */
  lemma ListFails<T>(xs: seq<T>, encode: T -> Wire, decode: Wire -> Decoded<T>, k: nat)
    requires k < |xs| && decode(encode(xs[k])).Failure?
    ensures DecodeAll(Elements(xs, encode), decode).Failure?
  {
    assert Elements(xs, encode)[k] == encode(xs[k]);
  }

  /** When every element that fails fails with the same error, that error is the list's. */
  lemma ListRejects<T>(xs: seq<T>, encode: T -> Wire, decode: Wire -> Decoded<T>, err: DecodeError, k: nat)
    requires k < |xs| && decode(encode(xs[k])).Failure?
    requires forall i :: 0 <= i < |xs| && decode(encode(xs[i])).Failure? ==> decode(encode(xs[i])).error == err
    ensures DecodeAll(Elements(xs, encode), decode) == Failure(err)
  {
    var items := Elements(xs, encode);
    assert items[k] == encode(xs[k]);
    var r := DecodeAll(items, decode);
    var i :| FirstFailure(items, decode, i) && r.error == decode(items[i]).error;
    assert items[i] == encode(xs[i]);
  }

  /**
   * A list whose elements each either come back or fail with `err` comes
   * back when all of them do, and fails with `err` otherwise.
   */
  lemma ListOutcome<T>(xs: seq<T>, encode: T -> Wire, decode: Wire -> Decoded<T>, ok: T -> bool, err: DecodeError)
    requires forall i :: 0 <= i < |xs| ==>
      decode(encode(xs[i])) == if ok(xs[i]) then Success(xs[i]) else Failure(err)
    ensures DecodeAll(Elements(xs, encode), decode) ==
      if forall i :: 0 <= i < |xs| ==> ok(xs[i]) then Success(xs) else Failure(err)
  {
    if forall i :: 0 <= i < |xs| ==> ok(xs[i]) {
      ListRoundTrip(xs, encode, decode);
    } else {
      var k :| 0 <= k < |xs| && !ok(xs[k]);
      ListRejects(xs, encode, decode, err, k);
    }
  }

  lemma NumbersRoundTrip(xs: seq<real>)
    ensures DecodeAll(Elements(xs, (x: real) => Num(x)), NumberElement) == Success(xs)
  {
    ListRoundTrip(xs, (x: real) => Num(x), NumberElement);
  }

  // ----- records of protocol.data -----

  lemma PointRoundTrip(p: Point)
    ensures ToPoint(EncodePoint(p)) == Success(p)
  {
  }

  lemma PointsRoundTrip(ps: seq<Point>)
    ensures DecodeAll(Elements(ps, EncodePoint), ToPoint) == Success(ps)
  {
    forall i | 0 <= i < |ps| ensures ToPoint(EncodePoint(ps[i])) == Success(ps[i]) {
      PointRoundTrip(ps[i]);
    }
    ListRoundTrip(ps, EncodePoint, ToPoint);
  }

  lemma RectangleRoundTrip(r: CommonRectangle)
    ensures ToCommonRectangle(EncodeRectangle(r)) == Success(r)
  {
  }

  lemma IntSizeRoundTrip(s: CommonIntSize)
    ensures ToCommonIntSize(EncodeIntSize(s)) == Success(s)
  {
  }

  lemma CaretInfoRoundTrip(c: CaretInfo)
    ensures ToCaretInfo(EncodeCaretInfo(c)) == Success(c)
  {
    PointRoundTrip(c.locationInWindow);
  }

  lemma CaretInfosRoundTrip(infos: seq<CaretInfo>)
    ensures DecodeAll(Elements(infos, EncodeCaretInfo), ToCaretInfo) == Success(infos)
  {
    forall i | 0 <= i < |infos| ensures ToCaretInfo(EncodeCaretInfo(infos[i])) == Success(infos[i]) {
      CaretInfoRoundTrip(infos[i]);
    }
    ListRoundTrip(infos, EncodeCaretInfo, ToCaretInfo);
  }

  /** Image ids come back, except `Unknown`, whose tag "c" the decoder rejects. */
  lemma ImageIdRoundTrip(id: ImageId)
    ensures ToImageId(EncodeImageId(id)) ==
      if id.Unknown? then Failure(Unsupported("Invalid image id type", "c")) else Success(id)
  {
    if id.PVolatileImageId? {
      RoundToLongExact(id.id);
    }
  }

  lemma ImageDataRoundTrip(d: ImageData)
    ensures ToImageData(EncodeImageData(d)) == Success(d)
  {
  }

  lemma PaintValueRoundTrip(p: PaintValue)
    ensures ToPaintValue(EncodePaintValue(p)) == Success(p)
  {
    if p.Gradient? {
      PointRoundTrip(p.p1);
      PointRoundTrip(p.p2);
    }
  }

  lemma CompositeRoundTrip(c: CommonComposite)
    ensures ToCommonComposite(EncodeComposite(c)) == Success(c)
  {
    if c.CommonAlphaComposite? {
      AlphaCompositeRuleTable(AlphaCompositeRuleTag(c.rule), c.rule);
    }
  }

  lemma StrokeRoundTrip(s: StrokeData)
    ensures ToStrokeData(EncodeStroke(s)) == Success(s)
  {
    StrokeFields(s);
    JoinTypeTable(JoinTypeTag(s.join), s.join);
    CapTypeTable(CapTypeTag(s.cap), s.cap);
    DashListRoundTrip(s.dashList);
  }

  /** How each field of a basic stroke's wire image reads back. */
  lemma StrokeFields(s: StrokeData)
    ensures Pair(EncodeStroke(s)) == Success(TaggedContent("a", EncodeStroke(s).items[1]))
    ensures GetNumber(EncodeStroke(s).items[1], "a") == Success(s.lineWidth)
    ensures GetString(EncodeStroke(s).items[1], "b") == Success(JoinTypeTag(s.join))
    ensures GetString(EncodeStroke(s).items[1], "c") == Success(CapTypeTag(s.cap))
    ensures GetNumber(EncodeStroke(s).items[1], "d") == Success(s.miterLimit)
    ensures GetNumber(EncodeStroke(s).items[1], "e") == Success(s.dashPhase)
    ensures Field(EncodeStroke(s).items[1], "f") == Success(Some(NullOr(s.dashList, Numbers)))
  {
  }

  lemma DashListRoundTrip(dashList: Option<seq<real>>)
    ensures Nullable(Some(NullOr(dashList, Numbers)), DashListValue) == Success(dashList)
  {
    if dashList.Some? {
      NumbersRoundTrip(dashList.value);
    }
  }

  lemma SegmentRoundTrip(s: PathSegment)
    ensures ToPathSegment(EncodeSegment(s)) == Success(s)
  {
    match s
    case MoveTo(p) => PointRoundTrip(p);
    case LineTo(p) => PointRoundTrip(p);
    case QuadTo(p1, p2) => PointRoundTrip(p1); PointRoundTrip(p2);
    case CubicTo(_, _, _) => CubicToRoundTrip(s);
    case Close =>
  }

  lemma CubicToRoundTrip(s: PathSegment)
    requires s.CubicTo?
    ensures ToPathSegment(EncodeSegment(s)) == Success(s)
  {
    var content := EncodeSegment(s).items[1];
    assert GetPresent(content, "a", WantObject) == Success(EncodePoint(s.point1));
    assert GetPresent(content, "b", WantObject) == Success(EncodePoint(s.point2));
    assert GetPresent(content, "c", WantObject) == Success(EncodePoint(s.point3));
    PointRoundTrip(s.point1);
    PointRoundTrip(s.point2);
    PointRoundTrip(s.point3);
  }

  lemma PathRoundTrip(p: CommonPath)
    ensures ToCommonPath(EncodePath(p)) == Success(p)
  {
    forall i | 0 <= i < |p.segments|
      ensures ToPathSegment(EncodeSegment(p.segments[i])) == Success(p.segments[i])
    {
      SegmentRoundTrip(p.segments[i]);
    }
    ListRoundTrip(p.segments, EncodeSegment, ToPathSegment);
    WindingTypeTable(WindingTypeTag(p.winding), p.winding);
  }

  lemma ShapeRoundTrip(s: CommonShape)
    ensures ToCommonShape(EncodeShape(s)) == Success(s)
  {
    match s
    case RectangleShape(r) => RectangleRoundTrip(r);
    case PathShape(p) => PathRoundTrip(p);
  }

  lemma OptIntRoundTrip(content: Wire, key: string, o: Option<Int32>)
    requires Field(content, key) == Success(Some(IntOrNull(o)))
    ensures GetOptInt(content, key) == Success(o)
  {
  }

  lemma OptShortRoundTrip(content: Wire, key: string, o: Option<Int16>)
    requires Field(content, key) == Success(Some(IntOrNull(o)))
    ensures GetOptShort(content, key) == Success(o)
  {
  }

  lemma OptStringRoundTrip(content: Wire, key: string, o: Option<string>)
    requires Field(content, key) == Success(Some(NullOr(o, Text)))
    ensures GetOptString(content, key) == Success(o)
  {
  }

  lemma ImageEventInfoRoundTrip(info: ImageEventInfo)
    ensures ToImageEventInfo(EncodeImageEventInfo(info)) == Success(info)
  {
    match info
    case Xy(_, _, _) => XyRoundTrip(info);
    case XyWh(_, _, _, _, _) => XyWhRoundTrip(info);
    case Ds(_, _, _, _, _, _, _, _, _) => DsRoundTrip(info);
    case Transformed(tx) => NumbersRoundTrip(tx);
  }

  lemma XyRoundTrip(info: ImageEventInfo)
    requires info.Xy?
    ensures ToImageEventInfo(EncodeImageEventInfo(info)) == Success(info)
  {
    OptIntRoundTrip(EncodeImageEventInfo(info).items[1], "c", info.argbBackgroundColor);
  }

  lemma XyWhRoundTrip(info: ImageEventInfo)
    requires info.XyWh?
    ensures ToImageEventInfo(EncodeImageEventInfo(info)) == Success(info)
  {
    OptIntRoundTrip(EncodeImageEventInfo(info).items[1], "e", info.argbBackgroundColor);
  }

  lemma DsRoundTrip(info: ImageEventInfo)
    requires info.Ds?
    ensures ToImageEventInfo(EncodeImageEventInfo(info)) == Success(info)
  {
    DsFields(info);
    DsSourceFields(info);
    OptIntRoundTrip(EncodeImageEventInfo(info).items[1], "i", info.argbBackgroundColor);
  }

  /** How the pair and the destination corner fields of a `Ds` record's wire image read back. */
  lemma DsFields(info: ImageEventInfo)
    requires info.Ds?
    ensures Pair(EncodeImageEventInfo(info)) == Success(TaggedContent("c", EncodeImageEventInfo(info).items[1]))
    ensures GetInt(EncodeImageEventInfo(info).items[1], "a") == Success(info.dx1)
    ensures GetInt(EncodeImageEventInfo(info).items[1], "b") == Success(info.dy1)
    ensures GetInt(EncodeImageEventInfo(info).items[1], "c") == Success(info.dx2)
    ensures GetInt(EncodeImageEventInfo(info).items[1], "d") == Success(info.dy2)
  {
  }

  /** How the source corner and background fields of a `Ds` record's wire image read back. */
  lemma DsSourceFields(info: ImageEventInfo)
    requires info.Ds?
    ensures GetInt(EncodeImageEventInfo(info).items[1], "e") == Success(info.sx1)
    ensures GetInt(EncodeImageEventInfo(info).items[1], "f") == Success(info.sy1)
    ensures GetInt(EncodeImageEventInfo(info).items[1], "g") == Success(info.sx2)
    ensures GetInt(EncodeImageEventInfo(info).items[1], "h") == Success(info.sy2)
    ensures Field(EncodeImageEventInfo(info).items[1], "i") == Success(Some(IntOrNull(info.argbBackgroundColor)))
  {
  }

  // ----- protocol -----

  lemma TargetRoundTrip(t: Target)
    ensures ToTarget(EncodeTarget(t)) == Success(t)
  {
    if t.Offscreen? {
      RoundToLongExact(t.pVolatileImageId);
    }
  }

  lemma CaretInfoChangeRoundTrip(c: CaretInfoChange)
    ensures ToCaretInfoChange(EncodeCaretInfoChange(c)) == Success(c)
  {
    if c.Carets? {
      CaretsRoundTrip(c);
    }
  }

  lemma CaretsRoundTrip(c: CaretInfoChange)
    requires c.Carets?
    ensures ToCaretInfoChange(EncodeCaretInfoChange(c)) == Success(c)
  {
    var content := EncodeCaretInfoChange(c).items[1];
    CaretsFields(c);
    CaretInfosRoundTrip(c.caretInfoList);
    RectangleRoundTrip(c.editorMetrics);
    CaretsFromReads(content, c);
  }

  /** How each field of a caret list's wire image reads back. */
  lemma CaretsFields(c: CaretInfoChange)
    requires c.Carets?
    ensures GetList(EncodeCaretInfoChange(c).items[1], "a") == Success(Elements(c.caretInfoList, EncodeCaretInfo))
    ensures GetOptShort(EncodeCaretInfoChange(c).items[1], "b") == Success(c.fontId)
    ensures GetInt(EncodeCaretInfoChange(c).items[1], "c") == Success(c.fontSize)
    ensures GetInt(EncodeCaretInfoChange(c).items[1], "d") == Success(c.nominalLineHeight)
    ensures GetNumber(EncodeCaretInfoChange(c).items[1], "e") == Success(c.plainSpaceWidth)
    ensures GetInt(EncodeCaretInfoChange(c).items[1], "f") == Success(c.editorWindowId)
    ensures GetPresent(EncodeCaretInfoChange(c).items[1], "g", WantObject) == Success(EncodeRectangle(c.editorMetrics))
  {
    OptShortRoundTrip(EncodeCaretInfoChange(c).items[1], "b", c.fontId);
  }

  /** The "b" branch of `toCaretInfoChange` assembles the change from its field reads, in order. */
  lemma CaretsFromReads(content: Wire, c: CaretInfoChange)
    requires c.Carets?
    requires GetList(content, "a") == Success(Elements(c.caretInfoList, EncodeCaretInfo))
    requires DecodeAll(Elements(c.caretInfoList, EncodeCaretInfo), ToCaretInfo) == Success(c.caretInfoList)
    requires GetOptShort(content, "b") == Success(c.fontId)
    requires GetInt(content, "c") == Success(c.fontSize)
    requires GetInt(content, "d") == Success(c.nominalLineHeight)
    requires GetNumber(content, "e") == Success(c.plainSpaceWidth)
    requires GetInt(content, "f") == Success(c.editorWindowId)
    requires GetPresent(content, "g", WantObject) == Success(EncodeRectangle(c.editorMetrics))
    requires ToCommonRectangle(EncodeRectangle(c.editorMetrics)) == Success(c.editorMetrics)
    ensures ToCaretInfoChange(Tagged("b", content)) == Success(c)
  {
  }

  lemma CursorRoundTrip(o: Option<CursorType>)
    ensures Nullable(Some(NullOr(o, CursorName)), CursorTypeValue) == Success(o)
  {
    if o.Some? {
      CursorTypeTable(CursorTypeTag(o.value), o.value);
    }
  }

  /**
   * A window comes back when its icons do; otherwise the first `Unknown`
   * icon stops the decode with the rejection of tag "c".
   */
  lemma WindowDataRoundTrip(d: WindowData)
    ensures ToWindowData(EncodeWindowData(d)) ==
      if DecodableWindowData(d) then Success(d) else Failure(Unsupported("Invalid image id type", "c"))
  {
    var content := EncodeWindowData(d);
    WindowFields(d);
    if DecodableWindowData(d) {
      WindowMiddleFields(d);
      WindowLastFields(d);
      IconsRoundTrip(d.iconIds);
      RectangleRoundTrip(d.bounds);
      CursorRoundTrip(d.cursorType);
      WindowTypeTable(WindowTypeTag(d.windowType), d.windowType);
      WindowDataFromReads(content, d);
    } else {
      IconsRoundTrip(d.iconIds);
    }
  }

  /** How each field of a window's wire image reads back: the first four. */
  lemma WindowFields(d: WindowData)
    ensures GetInt(EncodeWindowData(d), "a") == Success(d.id)
    ensures GetOptString(EncodeWindowData(d), "b") == Success(d.title)
    ensures GetList(EncodeWindowData(d), "c") == Success(Elements(d.iconIds, EncodeImageId))
    ensures GetBool(EncodeWindowData(d), "d") == Success(d.focused)
  {
    OptStringRoundTrip(EncodeWindowData(d), "b", d.title);
  }

  /** The middle four fields. */
  lemma WindowMiddleFields(d: WindowData)
    ensures GetInt(EncodeWindowData(d), "e") == Success(d.order)
    ensures GetPresent(EncodeWindowData(d), "f", WantObject) == Success(EncodeRectangle(d.bounds))
    ensures Field(EncodeWindowData(d), "g") == Success(Some(NullOr(d.cursorType, CursorName)))
    ensures GetBool(EncodeWindowData(d), "h") == Success(d.alwaysOnTop)
  {
  }

  /** The last four fields. */
  lemma WindowLastFields(d: WindowData)
    ensures GetBool(EncodeWindowData(d), "i") == Success(d.noTitle)
    ensures GetBool(EncodeWindowData(d), "j") == Success(d.fullscreen)
    ensures GetString(EncodeWindowData(d), "k") == Success(WindowTypeTag(d.windowType))
    ensures GetOptInt(EncodeWindowData(d), "l") == Success(d.parentId)
  {
    OptIntRoundTrip(EncodeWindowData(d), "l", d.parentId);
  }

  /** `toWindowData` assembles the window from its field reads, in order. */
  lemma WindowDataFromReads(content: Wire, d: WindowData)
    requires GetInt(content, "a") == Success(d.id)
    requires GetOptString(content, "b") == Success(d.title)
    requires GetList(content, "c") == Success(Elements(d.iconIds, EncodeImageId))
    requires DecodeAll(Elements(d.iconIds, EncodeImageId), ToImageId) == Success(d.iconIds)
    requires GetBool(content, "d") == Success(d.focused)
    requires GetInt(content, "e") == Success(d.order)
    requires GetPresent(content, "f", WantObject) == Success(EncodeRectangle(d.bounds))
    requires ToCommonRectangle(EncodeRectangle(d.bounds)) == Success(d.bounds)
    requires Field(content, "g") == Success(Some(NullOr(d.cursorType, CursorName)))
    requires Nullable(Some(NullOr(d.cursorType, CursorName)), CursorTypeValue) == Success(d.cursorType)
    requires GetBool(content, "h") == Success(d.alwaysOnTop)
    requires GetBool(content, "i") == Success(d.noTitle)
    requires GetBool(content, "j") == Success(d.fullscreen)
    requires GetString(content, "k") == Success(WindowTypeTag(d.windowType))
    requires ToWindowType(WindowTypeTag(d.windowType)) == Success(d.windowType)
    requires GetOptInt(content, "l") == Success(d.parentId)
    ensures ToWindowData(content) == Success(d)
  {
  }

  /** The icon list comes back when no icon is `Unknown`, and fails with the tag-"c" rejection otherwise. */
  lemma IconsRoundTrip(ids: seq<ImageId>)
    ensures DecodeAll(Elements(ids, EncodeImageId), ToImageId) ==
      if forall i :: 0 <= i < |ids| ==> DecodableImageId(ids[i]) then Success(ids)
      else Failure(Unsupported("Invalid image id type", "c"))
  {
    forall i | 0 <= i < |ids|
      ensures ToImageId(EncodeImageId(ids[i])) ==
        if DecodableImageId(ids[i]) then Success(ids[i]) else Failure(Unsupported("Invalid image id type", "c"))
    {
      ImageIdRoundTrip(ids[i]);
    }
    ListOutcome(ids, EncodeImageId, ToImageId, DecodableImageId, Unsupported("Invalid image id type", "c"));
  }

  // ----- drawing commands -----

  lemma PaintTypeRead(content: Wire, key: string, pt: PaintType)
    requires Field(content, key) == Success(Some(Str(PaintTypeTag(pt))))
    ensures GetPaintType(content, key) == Success(pt)
  {
    PaintTypeTable(PaintTypeTag(pt), pt);
  }

  /** Decoding a drawing command's pair runs the `sweMap` entry of its tag on its content. */
  lemma WindowEventDispatch(e: ServerWindowEvent)
    ensures WindowEventTag(e) in SweMap
    ensures ToWindowEvent(EncodeWindowEvent(e)) == RunWindowEventEntry(SweMap[WindowEventTag(e)], WindowEventContent(e))
  {
    TaggedPair(WindowEventTag(e), WindowEventContent(e));
  }

  /**
   * A drawing command comes back, except a DrawImage of an `Unknown` image,
   * which fails with the rejection of tag "c".
   */
  lemma WindowEventRoundTrip(e: ServerWindowEvent)
    ensures ToWindowEvent(EncodeWindowEvent(e)) ==
      if DecodableWindowEvent(e) then Success(e) else Failure(Unsupported("Invalid image id type", "c"))
  {
    WindowEventDispatch(e);
    WindowEventEntryRoundTrip(e);
  }

  /** The `sweMap` entry of a drawing command's tag turns its content back into the command. */
  lemma WindowEventEntryRoundTrip(e: ServerWindowEvent)
    ensures WindowEventTag(e) in SweMap
    ensures RunWindowEventEntry(SweMap[WindowEventTag(e)], WindowEventContent(e)) ==
      if DecodableWindowEvent(e) then Success(e) else Failure(Unsupported("Invalid image id type", "c"))
  {
    if e.ServerPaintArcEvent? || e.ServerPaintOvalEvent? || e.ServerPaintRoundRectEvent? || e.ServerPaintRectEvent? || e.ServerDrawLineEvent? {
      PaintingRoundTrip(e);
    } else if e.ServerCopyAreaEvent? || e.ServerSetFontEvent? || e.ServerSetClipEvent? || e.ServerSetStrokeEvent? || e.ServerDrawRenderedImageEvent? {
      StateCommandRoundTrip(e);
    } else if e.ServerDrawRenderableImageEvent? || e.ServerDrawImageEvent? || e.ServerDrawStringEvent? || e.ServerPaintPolygonEvent? || e.ServerDrawPolylineEvent? {
      ImageTextRoundTrip(e);
    } else {
      TransformPaintRoundTrip(e);
    }
  }

  /** The arc, oval, rounded-rectangle, rectangle and line commands. */
  lemma PaintingRoundTrip(e: ServerWindowEvent)
    requires e.ServerPaintArcEvent? || e.ServerPaintOvalEvent? || e.ServerPaintRoundRectEvent? || e.ServerPaintRectEvent? || e.ServerDrawLineEvent?
    ensures WindowEventTag(e) in SweMap
    ensures RunWindowEventEntry(SweMap[WindowEventTag(e)], WindowEventContent(e)) == Success(e)
  {
    if e.ServerPaintArcEvent? {
      PaintArcRoundTrip(e);
    } else if e.ServerPaintOvalEvent? {
      PaintOvalRoundTrip(e);
    } else if e.ServerPaintRoundRectEvent? {
      PaintRoundRectRoundTrip(e);
    } else if e.ServerPaintRectEvent? {
      PaintRectRoundTrip(e);
    } else {
      DrawLineRoundTrip(e);
    }
  }

  /** The copy-area, font, clip, stroke and rendered-image commands. */
  lemma StateCommandRoundTrip(e: ServerWindowEvent)
    requires e.ServerCopyAreaEvent? || e.ServerSetFontEvent? || e.ServerSetClipEvent? || e.ServerSetStrokeEvent? || e.ServerDrawRenderedImageEvent?
    ensures WindowEventTag(e) in SweMap
    ensures RunWindowEventEntry(SweMap[WindowEventTag(e)], WindowEventContent(e)) == Success(e)
  {
    if e.ServerCopyAreaEvent? {
      CopyAreaRoundTrip(e);
    } else if e.ServerSetFontEvent? {
      SetFontRoundTrip(e);
    } else if e.ServerSetClipEvent? {
      SetClipRoundTrip(e);
    } else if e.ServerSetStrokeEvent? {
      SetStrokeRoundTrip(e);
    } else {
      SweMapAt(DrawRenderedImageEntry);
    }
  }

  /** The renderable-image, image, string, polygon and polyline commands. */
  lemma ImageTextRoundTrip(e: ServerWindowEvent)
    requires e.ServerDrawRenderableImageEvent? || e.ServerDrawImageEvent? || e.ServerDrawStringEvent? || e.ServerPaintPolygonEvent? || e.ServerDrawPolylineEvent?
    ensures WindowEventTag(e) in SweMap
    ensures RunWindowEventEntry(SweMap[WindowEventTag(e)], WindowEventContent(e)) ==
      if DecodableWindowEvent(e) then Success(e) else Failure(Unsupported("Invalid image id type", "c"))
  {
    if e.ServerDrawRenderableImageEvent? {
      SweMapAt(DrawRenderableImageEntry);
    } else if e.ServerDrawImageEvent? {
      DrawImageRoundTrip(e);
    } else if e.ServerDrawStringEvent? {
      DrawStringRoundTrip(e);
    } else if e.ServerPaintPolygonEvent? {
      PaintPolygonRoundTrip(e);
    } else {
      DrawPolylineRoundTrip(e);
    }
  }

  /** The transform, path, composite, paint and unknown-stroke commands. */
  lemma TransformPaintRoundTrip(e: ServerWindowEvent)
    requires e.ServerSetTransformEvent? || e.ServerPaintPathEvent? || e.ServerSetCompositeEvent? || e.ServerSetPaintEvent? || e.ServerSetUnknownStrokeEvent?
    ensures WindowEventTag(e) in SweMap
    ensures RunWindowEventEntry(SweMap[WindowEventTag(e)], WindowEventContent(e)) == Success(e)
  {
    if e.ServerSetTransformEvent? {
      SetTransformRoundTrip(e);
    } else if e.ServerPaintPathEvent? {
      PaintPathRoundTrip(e);
    } else if e.ServerSetCompositeEvent? {
      SetCompositeRoundTrip(e);
    } else if e.ServerSetPaintEvent? {
      SetPaintRoundTrip(e);
    } else {
      SetUnknownStrokeRoundTrip(e);
    }
  }

  lemma PaintArcRoundTrip(e: ServerWindowEvent)
    requires e.ServerPaintArcEvent?
    ensures RunWindowEventEntry(SweMap[WindowEventTag(e)], WindowEventContent(e)) == Success(e)
  {
    SweMapAt(PaintArcEntry);
    PaintArcDecodes(e);
  }

  lemma PaintArcDecodes(e: ServerWindowEvent)
    requires e.ServerPaintArcEvent?
    ensures DecodePaintArc(WindowEventContent(e)) == Success(e)
  {
    PaintTypeRead(WindowEventContent(e), "a", e.paintType);
    PaintArcFields(e);
  }

  /** How the integer fields of an arc's wire image read back. */
  lemma PaintArcFields(e: ServerWindowEvent)
    requires e.ServerPaintArcEvent?
    ensures GetInt(WindowEventContent(e), "b") == Success(e.x)
    ensures GetInt(WindowEventContent(e), "c") == Success(e.y)
    ensures GetInt(WindowEventContent(e), "d") == Success(e.width)
    ensures GetInt(WindowEventContent(e), "e") == Success(e.height)
    ensures GetInt(WindowEventContent(e), "f") == Success(e.startAngle)
    ensures GetInt(WindowEventContent(e), "g") == Success(e.arcAngle)
  {
  }

  lemma PaintOvalRoundTrip(e: ServerWindowEvent)
    requires e.ServerPaintOvalEvent?
    ensures RunWindowEventEntry(SweMap[WindowEventTag(e)], WindowEventContent(e)) == Success(e)
  {
    SweMapAt(PaintOvalEntry);
    PaintOvalDecodes(e);
  }

  lemma PaintOvalDecodes(e: ServerWindowEvent)
    requires e.ServerPaintOvalEvent?
    ensures DecodePaintOval(WindowEventContent(e)) == Success(e)
  {
    PaintTypeRead(WindowEventContent(e), "a", e.paintType);
    PaintOvalFields(e);
  }

  /** How the integer fields of an oval's wire image read back. */
  lemma PaintOvalFields(e: ServerWindowEvent)
    requires e.ServerPaintOvalEvent?
    ensures GetInt(WindowEventContent(e), "b") == Success(e.x)
    ensures GetInt(WindowEventContent(e), "c") == Success(e.y)
    ensures GetInt(WindowEventContent(e), "d") == Success(e.width)
    ensures GetInt(WindowEventContent(e), "e") == Success(e.height)
  {
  }

  lemma PaintRoundRectRoundTrip(e: ServerWindowEvent)
    requires e.ServerPaintRoundRectEvent?
    ensures RunWindowEventEntry(SweMap[WindowEventTag(e)], WindowEventContent(e)) == Success(e)
  {
    SweMapAt(PaintRoundRectEntry);
    PaintRoundRectDecodes(e);
  }

  lemma PaintRoundRectDecodes(e: ServerWindowEvent)
    requires e.ServerPaintRoundRectEvent?
    ensures DecodePaintRoundRect(WindowEventContent(e)) == Success(e)
  {
    PaintTypeRead(WindowEventContent(e), "a", e.paintType);
    PaintRoundRectFields(e);
  }

  /** How the integer fields of a rounded rectangle's wire image read back. */
  lemma PaintRoundRectFields(e: ServerWindowEvent)
    requires e.ServerPaintRoundRectEvent?
    ensures GetInt(WindowEventContent(e), "b") == Success(e.x)
    ensures GetInt(WindowEventContent(e), "c") == Success(e.y)
    ensures GetInt(WindowEventContent(e), "d") == Success(e.width)
    ensures GetInt(WindowEventContent(e), "e") == Success(e.height)
    ensures GetInt(WindowEventContent(e), "f") == Success(e.arcWidth)
    ensures GetInt(WindowEventContent(e), "g") == Success(e.arcHeight)
  {
  }

  lemma PaintRectRoundTrip(e: ServerWindowEvent)
    requires e.ServerPaintRectEvent?
    ensures RunWindowEventEntry(SweMap[WindowEventTag(e)], WindowEventContent(e)) == Success(e)
  {
    SweMapAt(PaintRectEntry);
    PaintRectDecodes(e);
  }

  lemma PaintRectDecodes(e: ServerWindowEvent)
    requires e.ServerPaintRectEvent?
    ensures DecodePaintRect(WindowEventContent(e)) == Success(e)
  {
    PaintTypeRead(WindowEventContent(e), "a", e.paintType);
  }

  lemma DrawLineRoundTrip(e: ServerWindowEvent)
    requires e.ServerDrawLineEvent?
    ensures RunWindowEventEntry(SweMap[WindowEventTag(e)], WindowEventContent(e)) == Success(e)
  {
    SweMapAt(DrawLineEntry);
    DrawLineDecodes(e);
  }

  lemma DrawLineDecodes(e: ServerWindowEvent)
    requires e.ServerDrawLineEvent?
    ensures DecodeDrawLine(WindowEventContent(e)) == Success(e)
  {
    DrawLineFields(e);
  }

  /** How the fields of a line's wire image read back. */
  lemma DrawLineFields(e: ServerWindowEvent)
    requires e.ServerDrawLineEvent?
    ensures GetInt(WindowEventContent(e), "a") == Success(e.x1)
    ensures GetInt(WindowEventContent(e), "b") == Success(e.y1)
    ensures GetInt(WindowEventContent(e), "c") == Success(e.x2)
    ensures GetInt(WindowEventContent(e), "d") == Success(e.y2)
  {
  }

  lemma CopyAreaRoundTrip(e: ServerWindowEvent)
    requires e.ServerCopyAreaEvent?
    ensures RunWindowEventEntry(SweMap[WindowEventTag(e)], WindowEventContent(e)) == Success(e)
  {
    SweMapAt(CopyAreaEntry);
    CopyAreaDecodes(e);
  }

  lemma CopyAreaDecodes(e: ServerWindowEvent)
    requires e.ServerCopyAreaEvent?
    ensures DecodeCopyArea(WindowEventContent(e)) == Success(e)
  {
    CopyAreaFields(e);
  }

  /** How the fields of a copy-area command's wire image read back. */
  lemma CopyAreaFields(e: ServerWindowEvent)
    requires e.ServerCopyAreaEvent?
    ensures GetInt(WindowEventContent(e), "a") == Success(e.x)
    ensures GetInt(WindowEventContent(e), "b") == Success(e.y)
    ensures GetInt(WindowEventContent(e), "c") == Success(e.width)
    ensures GetInt(WindowEventContent(e), "d") == Success(e.height)
    ensures GetInt(WindowEventContent(e), "e") == Success(e.dx)
    ensures GetInt(WindowEventContent(e), "f") == Success(e.dy)
  {
  }

  lemma SetFontRoundTrip(e: ServerWindowEvent)
    requires e.ServerSetFontEvent?
    ensures RunWindowEventEntry(SweMap[WindowEventTag(e)], WindowEventContent(e)) == Success(e)
  {
    SweMapAt(SetFontEntry);
  }

  lemma SetClipRoundTrip(e: ServerWindowEvent)
    requires e.ServerSetClipEvent?
    ensures RunWindowEventEntry(SweMap[WindowEventTag(e)], WindowEventContent(e)) == Success(e)
  {
    SweMapAt(SetClipEntry);
    SetClipDecodes(e);
  }

  lemma SetClipDecodes(e: ServerWindowEvent)
    requires e.ServerSetClipEvent?
    ensures DecodeSetClip(WindowEventContent(e)) == Success(e)
  {
    if e.shape.Some? {
      ShapeRoundTrip(e.shape.value);
    }
    SetClipFields(e);
  }

  /** The clip field of a set-clip command's wire image. */
  lemma SetClipFields(e: ServerWindowEvent)
    requires e.ServerSetClipEvent?
    ensures Field(WindowEventContent(e), "a") == Success(Some(NullOr(e.shape, EncodeShape)))
  {
  }

  lemma SetStrokeRoundTrip(e: ServerWindowEvent)
    requires e.ServerSetStrokeEvent?
    ensures RunWindowEventEntry(SweMap[WindowEventTag(e)], WindowEventContent(e)) == Success(e)
  {
    SweMapAt(SetStrokeEntry);
    SetStrokeDecodes(e);
  }

  lemma SetStrokeDecodes(e: ServerWindowEvent)
    requires e.ServerSetStrokeEvent?
    ensures DecodeSetStroke(WindowEventContent(e)) == Success(e)
  {
    StrokeRoundTrip(e.strokeData);
  }

  lemma DrawImageRoundTrip(e: ServerWindowEvent)
    requires e.ServerDrawImageEvent?
    ensures RunWindowEventEntry(SweMap[WindowEventTag(e)], WindowEventContent(e)) ==
      if e.imageId.Unknown? then Failure(Unsupported("Invalid image id type", "c")) else Success(e)
  {
    SweMapAt(DrawImageEntry);
    DrawImageDecodes(e);
  }

  lemma DrawImageDecodes(e: ServerWindowEvent)
    requires e.ServerDrawImageEvent?
    ensures DecodeDrawImage(WindowEventContent(e)) ==
      if e.imageId.Unknown? then Failure(Unsupported("Invalid image id type", "c")) else Success(e)
  {
    ImageIdRoundTrip(e.imageId);
    ImageEventInfoRoundTrip(e.imageEventInfo);
    DrawImageFields(e);
  }

  /** How the two pairs of an image-drawing command's wire image read back. */
  lemma DrawImageFields(e: ServerWindowEvent)
    requires e.ServerDrawImageEvent?
    ensures GetPresent(WindowEventContent(e), "a", WantArray) == Success(EncodeImageId(e.imageId))
    ensures GetPresent(WindowEventContent(e), "b", WantArray) == Success(EncodeImageEventInfo(e.imageEventInfo))
  {
  }

  lemma DrawStringRoundTrip(e: ServerWindowEvent)
    requires e.ServerDrawStringEvent?
    ensures RunWindowEventEntry(SweMap[WindowEventTag(e)], WindowEventContent(e)) == Success(e)
  {
    SweMapAt(DrawStringEntry);
  }

  lemma PaintPolygonRoundTrip(e: ServerWindowEvent)
    requires e.ServerPaintPolygonEvent?
    ensures RunWindowEventEntry(SweMap[WindowEventTag(e)], WindowEventContent(e)) == Success(e)
  {
    SweMapAt(PaintPolygonEntry);
    PaintPolygonDecodes(e);
  }

  lemma PaintPolygonDecodes(e: ServerWindowEvent)
    requires e.ServerPaintPolygonEvent?
    ensures DecodePaintPolygon(WindowEventContent(e)) == Success(e)
  {
    PaintTypeRead(WindowEventContent(e), "a", e.paintType);
    PointsRoundTrip(e.points);
    PaintPolygonFields(e);
  }

  /** How the point list of a polygon's wire image reads back. */
  lemma PaintPolygonFields(e: ServerWindowEvent)
    requires e.ServerPaintPolygonEvent?
    ensures GetList(WindowEventContent(e), "b") == Success(Elements(e.points, EncodePoint))
  {
  }

  lemma DrawPolylineRoundTrip(e: ServerWindowEvent)
    requires e.ServerDrawPolylineEvent?
    ensures RunWindowEventEntry(SweMap[WindowEventTag(e)], WindowEventContent(e)) == Success(e)
  {
    SweMapAt(DrawPolylineEntry);
    DrawPolylineDecodes(e);
  }

  lemma DrawPolylineDecodes(e: ServerWindowEvent)
    requires e.ServerDrawPolylineEvent?
    ensures DecodeDrawPolyline(WindowEventContent(e)) == Success(e)
  {
    PointsRoundTrip(e.points);
    DrawPolylineFields(e);
  }

  /** How the point list of a polyline's wire image reads back. */
  lemma DrawPolylineFields(e: ServerWindowEvent)
    requires e.ServerDrawPolylineEvent?
    ensures GetList(WindowEventContent(e), "a") == Success(Elements(e.points, EncodePoint))
  {
  }

  lemma SetTransformRoundTrip(e: ServerWindowEvent)
    requires e.ServerSetTransformEvent?
    ensures RunWindowEventEntry(SweMap[WindowEventTag(e)], WindowEventContent(e)) == Success(e)
  {
    SweMapAt(SetTransformEntry);
    SetTransformDecodes(e);
  }

  lemma SetTransformDecodes(e: ServerWindowEvent)
    requires e.ServerSetTransformEvent?
    ensures DecodeSetTransform(WindowEventContent(e)) == Success(e)
  {
    NumbersRoundTrip(e.tx);
  }

  lemma PaintPathRoundTrip(e: ServerWindowEvent)
    requires e.ServerPaintPathEvent?
    ensures RunWindowEventEntry(SweMap[WindowEventTag(e)], WindowEventContent(e)) == Success(e)
  {
    SweMapAt(PaintPathEntry);
    PaintPathDecodes(e);
  }

  lemma PaintPathDecodes(e: ServerWindowEvent)
    requires e.ServerPaintPathEvent?
    ensures DecodePaintPath(WindowEventContent(e)) == Success(e)
  {
    PaintTypeRead(WindowEventContent(e), "a", e.paintType);
    PathRoundTrip(e.path);
  }

  lemma SetCompositeRoundTrip(e: ServerWindowEvent)
    requires e.ServerSetCompositeEvent?
    ensures RunWindowEventEntry(SweMap[WindowEventTag(e)], WindowEventContent(e)) == Success(e)
  {
    SweMapAt(SetCompositeEntry);
    SetCompositeDecodes(e);
  }

  lemma SetCompositeDecodes(e: ServerWindowEvent)
    requires e.ServerSetCompositeEvent?
    ensures DecodeSetComposite(WindowEventContent(e)) == Success(e)
  {
    CompositeRoundTrip(e.composite);
  }

  lemma SetPaintRoundTrip(e: ServerWindowEvent)
    requires e.ServerSetPaintEvent?
    ensures RunWindowEventEntry(SweMap[WindowEventTag(e)], WindowEventContent(e)) == Success(e)
  {
    SweMapAt(SetPaintEntry);
    SetPaintDecodes(e);
  }

  lemma SetPaintDecodes(e: ServerWindowEvent)
    requires e.ServerSetPaintEvent?
    ensures DecodeSetPaint(WindowEventContent(e)) == Success(e)
  {
    PaintValueRoundTrip(e.paint);
  }

  lemma SetUnknownStrokeRoundTrip(e: ServerWindowEvent)
    requires e.ServerSetUnknownStrokeEvent?
    ensures RunWindowEventEntry(SweMap[WindowEventTag(e)], WindowEventContent(e)) == Success(e)
  {
    SweMapAt(SetUnknownStrokeEntry);
  }

  // ----- events -----

  /** A drawing-command list comes back when every command does, and fails with the tag-"c" rejection otherwise. */
  lemma WindowEventsRoundTrip(events: seq<ServerWindowEvent>)
    ensures DecodeAll(Elements(events, EncodeWindowEvent), ToWindowEvent) ==
      if forall i :: 0 <= i < |events| ==> DecodableWindowEvent(events[i]) then Success(events)
      else Failure(Unsupported("Invalid image id type", "c"))
  {
    forall i | 0 <= i < |events|
      ensures ToWindowEvent(EncodeWindowEvent(events[i])) ==
        if DecodableWindowEvent(events[i]) then Success(events[i]) else Failure(Unsupported("Invalid image id type", "c"))
    {
      WindowEventRoundTrip(events[i]);
    }
    ListOutcome(events, EncodeWindowEvent, ToWindowEvent, DecodableWindowEvent, Unsupported("Invalid image id type", "c"));
  }

  /** A window list comes back when every window does, and fails with the tag-"c" rejection otherwise. */
  lemma WindowsRoundTrip(windows: seq<WindowData>)
    ensures DecodeAll(Elements(windows, EncodeWindowData), ToWindowData) ==
      if forall i :: 0 <= i < |windows| ==> DecodableWindowData(windows[i]) then Success(windows)
      else Failure(Unsupported("Invalid image id type", "c"))
  {
    forall i | 0 <= i < |windows|
      ensures ToWindowData(EncodeWindowData(windows[i])) ==
        if DecodableWindowData(windows[i]) then Success(windows[i]) else Failure(Unsupported("Invalid image id type", "c"))
    {
      WindowDataRoundTrip(windows[i]);
    }
    ListOutcome(windows, EncodeWindowData, ToWindowData, DecodableWindowData, Unsupported("Invalid image id type", "c"));
  }

  /** Decoding an event's pair runs the `seMap` entry of its tag on its content. */
  lemma EventDispatch(e: ServerEvent)
    requires ServerEventTag(e) in SeMap
    ensures ToEvent(EncodeEvent(e)) == RunEventEntry(SeMap[ServerEventTag(e)], EventContent(e))
  {
    TaggedPair(ServerEventTag(e), EventContent(e));
  }

  lemma ImageDataReplyRoundTrip(e: ServerEvent)
    requires e.ServerImageDataReplyEvent?
    ensures ServerEventTag(e) in SeMap
    ensures RunEventEntry(SeMap[ServerEventTag(e)], EventContent(e)) ==
      if DecodableEvent(e) then Success(e) else Failure(Unsupported("Invalid image id type", "c"))
  {
    SeMapAt(ImageDataReplyEntry);
    ImageDataReplyDecodes(e);
  }

  lemma ImageDataReplyDecodes(e: ServerEvent)
    requires e.ServerImageDataReplyEvent?
    ensures DecodeImageDataReply(EventContent(e)) ==
      if DecodableEvent(e) then Success(e) else Failure(Unsupported("Invalid image id type", "c"))
  {
    ImageDataReplyFields(e);
    ImageIdRoundTrip(e.imageId);
    ImageDataRoundTrip(e.imageData);
  }

  /** How the two pairs of an image-data reply's wire image read back. */
  lemma ImageDataReplyFields(e: ServerEvent)
    requires e.ServerImageDataReplyEvent?
    ensures GetPresent(EventContent(e), "a", WantArray) == Success(EncodeImageId(e.imageId))
    ensures GetPresent(EventContent(e), "b", WantArray) == Success(EncodeImageData(e.imageData))
  {
  }

  lemma PingReplyRoundTrip(e: ServerEvent)
    requires e.ServerPingReplyEvent?
    ensures ServerEventTag(e) in SeMap
    ensures RunEventEntry(SeMap[ServerEventTag(e)], EventContent(e)) == Success(e)
  {
    SeMapAt(PingReplyEntry);
    PingReplyDecodes(e);
  }

  lemma PingReplyDecodes(e: ServerEvent)
    requires e.ServerPingReplyEvent?
    ensures DecodePingReply(EventContent(e)) == Success(e)
  {
  }

  lemma ClipboardRoundTrip(e: ServerEvent)
    requires e.ServerClipboardEvent?
    ensures ServerEventTag(e) in SeMap
    ensures RunEventEntry(SeMap[ServerEventTag(e)], EventContent(e)) == Success(e)
  {
    SeMapAt(ClipboardEntry);
    ClipboardDecodes(e);
  }

  lemma ClipboardDecodes(e: ServerEvent)
    requires e.ServerClipboardEvent?
    ensures DecodeClipboard(EventContent(e)) == Success(e)
  {
  }

  lemma WindowSetChangedRoundTrip(e: ServerEvent)
    requires e.ServerWindowSetChangedEvent?
    ensures ServerEventTag(e) in SeMap
    ensures RunEventEntry(SeMap[ServerEventTag(e)], EventContent(e)) ==
      if DecodableEvent(e) then Success(e) else Failure(Unsupported("Invalid image id type", "c"))
  {
    SeMapAt(WindowSetChangedEntry);
    WindowSetChangedDecodes(e);
  }

  lemma WindowSetChangedDecodes(e: ServerEvent)
    requires e.ServerWindowSetChangedEvent?
    ensures DecodeWindowSetChanged(EventContent(e)) ==
      if DecodableEvent(e) then Success(e) else Failure(Unsupported("Invalid image id type", "c"))
  {
    WindowSetChangedFields(e);
    WindowsRoundTrip(e.windowDataList);
  }

  /** How the window list of a window-set event's wire image reads back. */
  lemma WindowSetChangedFields(e: ServerEvent)
    requires e.ServerWindowSetChangedEvent?
    ensures GetList(EventContent(e), "a") == Success(Elements(e.windowDataList, EncodeWindowData))
  {
  }

  lemma DrawCommandsRoundTrip(e: ServerEvent)
    requires e.ServerDrawCommandsEvent?
    ensures ServerEventTag(e) in SeMap
    ensures RunEventEntry(SeMap[ServerEventTag(e)], EventContent(e)) ==
      if DecodableEvent(e) then Success(e) else Failure(Unsupported("Invalid image id type", "c"))
  {
    SeMapAt(DrawCommandsEntry);
    DrawCommandsDecodes(e);
  }

  lemma DrawCommandsDecodes(e: ServerEvent)
    requires e.ServerDrawCommandsEvent?
    ensures DecodeDrawCommands(EventContent(e)) ==
      if DecodableEvent(e) then Success(e) else Failure(Unsupported("Invalid image id type", "c"))
  {
    DrawCommandsFields(e);
    TargetRoundTrip(e.target);
    WindowEventsRoundTrip(e.drawEvents);
  }

  /** How the target and the command list of a drawing-commands event's wire image read back. */
  lemma DrawCommandsFields(e: ServerEvent)
    requires e.ServerDrawCommandsEvent?
    ensures GetPresent(EventContent(e), "a", WantArray) == Success(EncodeTarget(e.target))
    ensures GetList(EventContent(e), "b") == Success(Elements(e.drawEvents, EncodeWindowEvent))
  {
  }

  lemma CaretInfoChangedRoundTrip(e: ServerEvent)
    requires e.ServerCaretInfoChangedEvent?
    ensures ServerEventTag(e) in SeMap
    ensures RunEventEntry(SeMap[ServerEventTag(e)], EventContent(e)) == Success(e)
  {
    SeMapAt(CaretInfoChangedEntry);
    CaretInfoChangedDecodes(e);
  }

  lemma CaretInfoChangedDecodes(e: ServerEvent)
    requires e.ServerCaretInfoChangedEvent?
    ensures DecodeCaretInfoChanged(EventContent(e)) == Success(e)
  {
    CaretInfoChangeRoundTrip(e.data);
  }

  /** A Markdown event comes back through the `seMap` entry of its own tag. */
  lemma MarkdownRoundTrip(m: ServerMarkdownEvent)
    ensures MarkdownEventTag(m) in SeMap
    ensures RunEventEntry(SeMap[MarkdownEventTag(m)], EncodeMarkdownContent(m)) == Success(Markdown(m))
  {
    match m
    case ServerMarkdownShowEvent(_, _) => MarkdownShowRoundTrip(m);
    case ServerMarkdownResizeEvent(_, _) => MarkdownResizeRoundTrip(m);
    case ServerMarkdownMoveEvent(_, _) => MarkdownMoveRoundTrip(m);
    case ServerMarkdownDisposeEvent(_) => MarkdownDisposeRoundTrip(m);
    case ServerMarkdownPlaceToWindowEvent(_, _) => MarkdownPlaceToWindowRoundTrip(m);
    case ServerMarkdownSetHtmlEvent(_, _) => MarkdownSetHtmlRoundTrip(m);
    case ServerMarkdownSetCssEvent(_, _) => MarkdownSetCssRoundTrip(m);
    case ServerMarkdownScrollEvent(_, _) => MarkdownScrollRoundTrip(m);
    case ServerMarkdownBrowseUriEvent(_) => MarkdownBrowseUriRoundTrip(m);
  }

  lemma MarkdownShowRoundTrip(m: ServerMarkdownEvent)
    requires m.ServerMarkdownShowEvent?
    ensures RunEventEntry(SeMap[MarkdownEventTag(m)], EncodeMarkdownContent(m)) == Success(Markdown(m))
  {
    SeMapAt(MarkdownShowEntry);
  }

  lemma MarkdownResizeRoundTrip(m: ServerMarkdownEvent)
    requires m.ServerMarkdownResizeEvent?
    ensures RunEventEntry(SeMap[MarkdownEventTag(m)], EncodeMarkdownContent(m)) == Success(Markdown(m))
  {
    SeMapAt(MarkdownResizeEntry);
    MarkdownResizeDecodes(m);
  }

  lemma MarkdownResizeDecodes(m: ServerMarkdownEvent)
    requires m.ServerMarkdownResizeEvent?
    ensures DecodeMarkdownResize(EncodeMarkdownContent(m)) == Success(Markdown(m))
  {
    IntSizeRoundTrip(m.size);
    MarkdownResizeFields(m);
  }

  /** How the fields of a resize event's wire image read back. */
  lemma MarkdownResizeFields(m: ServerMarkdownEvent)
    requires m.ServerMarkdownResizeEvent?
    ensures GetInt(EncodeMarkdownContent(m), "a") == Success(m.panelId)
    ensures GetPresent(EncodeMarkdownContent(m), "b", WantObject) == Success(EncodeIntSize(m.size))
  {
  }

  lemma MarkdownMoveRoundTrip(m: ServerMarkdownEvent)
    requires m.ServerMarkdownMoveEvent?
    ensures RunEventEntry(SeMap[MarkdownEventTag(m)], EncodeMarkdownContent(m)) == Success(Markdown(m))
  {
    SeMapAt(MarkdownMoveEntry);
    MarkdownMoveDecodes(m);
  }

  lemma MarkdownMoveDecodes(m: ServerMarkdownEvent)
    requires m.ServerMarkdownMoveEvent?
    ensures DecodeMarkdownMove(EncodeMarkdownContent(m)) == Success(Markdown(m))
  {
    PointRoundTrip(m.point);
    MarkdownMoveFields(m);
  }

  /** How the fields of a move event's wire image read back. */
  lemma MarkdownMoveFields(m: ServerMarkdownEvent)
    requires m.ServerMarkdownMoveEvent?
    ensures GetInt(EncodeMarkdownContent(m), "a") == Success(m.panelId)
    ensures GetPresent(EncodeMarkdownContent(m), "b", WantObject) == Success(EncodePoint(m.point))
  {
  }

  lemma MarkdownDisposeRoundTrip(m: ServerMarkdownEvent)
    requires m.ServerMarkdownDisposeEvent?
    ensures RunEventEntry(SeMap[MarkdownEventTag(m)], EncodeMarkdownContent(m)) == Success(Markdown(m))
  {
    SeMapAt(MarkdownDisposeEntry);
  }

  lemma MarkdownPlaceToWindowRoundTrip(m: ServerMarkdownEvent)
    requires m.ServerMarkdownPlaceToWindowEvent?
    ensures RunEventEntry(SeMap[MarkdownEventTag(m)], EncodeMarkdownContent(m)) == Success(Markdown(m))
  {
    SeMapAt(MarkdownPlaceToWindowEntry);
  }

  lemma MarkdownSetHtmlRoundTrip(m: ServerMarkdownEvent)
    requires m.ServerMarkdownSetHtmlEvent?
    ensures RunEventEntry(SeMap[MarkdownEventTag(m)], EncodeMarkdownContent(m)) == Success(Markdown(m))
  {
    SeMapAt(MarkdownSetHtmlEntry);
  }

  lemma MarkdownSetCssRoundTrip(m: ServerMarkdownEvent)
    requires m.ServerMarkdownSetCssEvent?
    ensures RunEventEntry(SeMap[MarkdownEventTag(m)], EncodeMarkdownContent(m)) == Success(Markdown(m))
  {
    SeMapAt(MarkdownSetCssEntry);
  }

  lemma MarkdownScrollRoundTrip(m: ServerMarkdownEvent)
    requires m.ServerMarkdownScrollEvent?
    ensures RunEventEntry(SeMap[MarkdownEventTag(m)], EncodeMarkdownContent(m)) == Success(Markdown(m))
  {
    SeMapAt(MarkdownScrollEntry);
  }

  lemma MarkdownBrowseUriRoundTrip(m: ServerMarkdownEvent)
    requires m.ServerMarkdownBrowseUriEvent?
    ensures RunEventEntry(SeMap[MarkdownEventTag(m)], EncodeMarkdownContent(m)) == Success(Markdown(m))
  {
    SeMapAt(MarkdownBrowseUriEntry);
  }

  /**
   * The round trip of one event: it comes back when it is decodable; a
   * colour event comes back with its map emptied; any other event fails
   * with the rejection of image id tag "c".
   */
  lemma EventRoundTrip(e: ServerEvent)
    ensures DecodableEvent(e) ==> ToEvent(EncodeEvent(e)) == Success(e)
    ensures e.ServerWindowColorsEvent? ==> ToEvent(EncodeEvent(e)) == Success(ServerWindowColorsEvent())
    ensures !DecodableEvent(e) && !e.ServerWindowColorsEvent? ==>
      ToEvent(EncodeEvent(e)) == Failure(Unsupported("Invalid image id type", "c"))
  {
    if e.ServerImageDataReplyEvent? || e.ServerWindowSetChangedEvent? || e.ServerDrawCommandsEvent? {
      ImageCarryingEventRoundTrip(e);
    } else {
      OtherEventRoundTrip(e);
    }
  }

  /** The three events that can hold an image id, and so can fail. */
  lemma ImageCarryingEventRoundTrip(e: ServerEvent)
    requires e.ServerImageDataReplyEvent? || e.ServerWindowSetChangedEvent? || e.ServerDrawCommandsEvent?
    ensures ToEvent(EncodeEvent(e)) ==
      if DecodableEvent(e) then Success(e) else Failure(Unsupported("Invalid image id type", "c"))
  {
    if e.ServerImageDataReplyEvent? {
      ImageDataReplyRoundTrip(e);
      EventDispatch(e);
    } else {
      ListEventRoundTrip(e);
    }
  }

  /** The two events that carry lists of windows or drawing commands. */
  lemma ListEventRoundTrip(e: ServerEvent)
    requires e.ServerWindowSetChangedEvent? || e.ServerDrawCommandsEvent?
    ensures ToEvent(EncodeEvent(e)) ==
      if DecodableEvent(e) then Success(e) else Failure(Unsupported("Invalid image id type", "c"))
  {
    if e.ServerWindowSetChangedEvent? {
      WindowSetChangedRoundTrip(e);
    } else {
      DrawCommandsRoundTrip(e);
    }
    EventDispatch(e);
  }

  /** Every other event comes back, the colour event with its map emptied. */
  lemma OtherEventRoundTrip(e: ServerEvent)
    requires !(e.ServerImageDataReplyEvent? || e.ServerWindowSetChangedEvent? || e.ServerDrawCommandsEvent?)
    ensures ToEvent(EncodeEvent(e)) ==
      if e.ServerWindowColorsEvent? then Success(ServerWindowColorsEvent()) else Success(e)
  {
    if e.Markdown? {
      MarkdownRoundTrip(e.markdown);
      EventDispatch(e);
    } else {
      PlainEventRoundTrip(e);
    }
  }

  /** Ping replies, clipboard and caret events, and the colour event. */
  lemma PlainEventRoundTrip(e: ServerEvent)
    requires e.ServerPingReplyEvent? || e.ServerClipboardEvent? || e.ServerCaretInfoChangedEvent? || e.ServerWindowColorsEvent?
    ensures ToEvent(EncodeEvent(e)) ==
      if e.ServerWindowColorsEvent? then Success(ServerWindowColorsEvent()) else Success(e)
  {
    if e.ServerWindowColorsEvent? {
      EventDispatch(e);
      SeMapAt(WindowColorsEntry);
    } else {
      ScalarEventRoundTrip(e);
    }
  }

  /** Ping replies, clipboard and caret events come back unchanged. */
  lemma ScalarEventRoundTrip(e: ServerEvent)
    requires e.ServerPingReplyEvent? || e.ServerClipboardEvent? || e.ServerCaretInfoChangedEvent?
    ensures ToEvent(EncodeEvent(e)) == Success(e)
  {
    if e.ServerPingReplyEvent? {
      PingReplyRoundTrip(e);
    } else if e.ServerClipboardEvent? {
      ClipboardRoundTrip(e);
    } else {
      CaretInfoChangedRoundTrip(e);
    }
    EventDispatch(e);
  }

  /** Exactly the decodable events survive the trip unchanged. */
  lemma EventRoundTripExactly(e: ServerEvent)
    ensures ToEvent(EncodeEvent(e)) == Success(e) <==> DecodableEvent(e)
  {
    EventRoundTrip(e);
  }

  /** A batch comes back unchanged exactly when each of its events does. */
  lemma BatchRoundTrip(events: seq<ServerEvent>)
    ensures Decode(EncodeBatch(events)) == Success(events) <==>
      forall i :: 0 <= i < |events| ==> DecodableEvent(events[i])
  {
    var items := Elements(events, EncodeEvent);
    forall i | 0 <= i < |events|
      ensures ToEvent(items[i]) == Success(events[i]) <==> DecodableEvent(events[i])
    {
      EventRoundTripExactly(events[i]);
    }
    if forall i :: 0 <= i < |events| ==> DecodableEvent(events[i]) {
      ListRoundTrip(events, EncodeEvent, ToEvent);
    } else {
      var k :| 0 <= k < |events| && !DecodableEvent(events[k]);
      var r := Decode(EncodeBatch(events));
      if r.Success? {
        assert r.value[k] == ToEvent(items[k]).value;
        assert r.value[k] != events[k];
      }
    }
  }
}
