/**
 * What the decoder's tables and `when` expressions promise: each enum lookup
 * is a bijection between its tag strings and the enum's values and rejects
 * every other string; each dispatch accepts exactly its tag set, builds the
 * variant whose declared tag it read, and rejects any other tag with the
 * source's message; nullable fields pass absence and null through.
 */
module DecoderProperties {
  import opened Wrappers
  import opened KotlinNumbers
  import opened JsonTree
  import opened ProtocolData
  import opened Protocol
  import opened ManualKotlinMapJsonDecoder

  // ----- enum lookups -----

  lemma WindowTypeTable(s: string, t: WindowType)
    ensures ToWindowType(s) == Success(t) <==> s == WindowTypeTag(t)
    ensures ToWindowType(s).Failure? <==> s !in {"a", "b", "c"}
    ensures ToWindowType(s).Failure? ==> ToWindowType(s).error == Unsupported("Unsupported window type", s)
  {
  }

  lemma CursorTypeTable(s: string, c: CursorType)
    ensures ToCursorType(s) == Success(c) <==> s == CursorTypeTag(c)
    ensures ToCursorType(s).Failure? <==> s !in CursorTypes
    ensures ToCursorType(s).Failure? ==> ToCursorType(s).error == Unsupported("Unsupported cursor type", s)
  {
  }

  lemma PaintTypeTable(s: string, p: PaintType)
    ensures ToPaintType(s) == Success(p) <==> s == PaintTypeTag(p)
    ensures ToPaintType(s).Failure? <==> s !in {"a", "b"}
    ensures ToPaintType(s).Failure? ==> ToPaintType(s).error == Unsupported("Unsupported paint type", s)
  {
  }

  lemma AlphaCompositeRuleTable(s: string, r: AlphaCompositeRule)
    ensures ToAlphaCompositeRule(s) == Success(r) <==> s == AlphaCompositeRuleTag(r)
    ensures ToAlphaCompositeRule(s).Failure? <==> s !in AlphaCompositeRules
    ensures ToAlphaCompositeRule(s).Failure? ==> ToAlphaCompositeRule(s).error == Unsupported("Unsupported rule", s)
  {
  }

  lemma JoinTypeTable(s: string, j: JoinType)
    ensures ToJoinType(s) == Success(j) <==> s == JoinTypeTag(j)
    ensures ToJoinType(s).Failure? <==> s !in {"a", "b", "c"}
    ensures ToJoinType(s).Failure? ==> ToJoinType(s).error == Unsupported("Unsupported join type", s)
  {
  }

  lemma CapTypeTable(s: string, c: CapType)
    ensures ToCapType(s) == Success(c) <==> s == CapTypeTag(c)
    ensures ToCapType(s).Failure? <==> s !in {"a", "b", "c"}
    ensures ToCapType(s).Failure? ==> ToCapType(s).error == Unsupported("Unsupported cap type", s)
  {
  }

  lemma WindingTypeTable(s: string, w: WindingType)
    ensures ToWindingType(s) == Success(w) <==> s == WindingTypeTag(w)
    ensures ToWindingType(s).Failure? <==> s !in {"a", "b"}
    ensures ToWindingType(s).Failure? ==> ToWindingType(s).error == Unsupported("Invalid winding type", s)
  {
  }

  // ----- dispatch tables -----

  /** The drawing-command tags `sweMap` accepts. */
  lemma SweMapKeys()
    ensures SweMap.Keys == WindowEventTags
  {
  }

  /** The event tags `seMap` accepts. */
  lemma SeMapKeys()
    ensures SeMap.Keys == EventTags
  {
  }

  // ----- the dispatch tables -----

  /** The key under which `seMap` holds each entry. */
  function EventEntryTag(entry: EventEntry): string {
    match entry
    case ImageDataReplyEntry => "a"
    case PingReplyEntry => "b"
    case ClipboardEntry => "c"
    case WindowSetChangedEntry => "d"
    case DrawCommandsEntry => "e"
    case CaretInfoChangedEntry => "f"
    case MarkdownShowEntry => "g"
    case MarkdownResizeEntry => "h"
    case MarkdownMoveEntry => "i"
    case MarkdownDisposeEntry => "j"
    case MarkdownPlaceToWindowEntry => "k"
    case MarkdownSetHtmlEntry => "l"
    case MarkdownSetCssEntry => "m"
    case MarkdownScrollEntry => "n"
    case MarkdownBrowseUriEntry => "o"
    case WindowColorsEntry => "p"
  }

  /** The key under which `sweMap` holds each entry. */
  function WindowEventEntryTag(entry: WindowEventEntry): string {
    match entry
    case PaintArcEntry => "a"
    case PaintOvalEntry => "b"
    case PaintRoundRectEntry => "c"
    case PaintRectEntry => "d"
    case DrawLineEntry => "e"
    case CopyAreaEntry => "f"
    case SetFontEntry => "g"
    case SetClipEntry => "h"
    case SetStrokeEntry => "i"
    case DrawRenderedImageEntry => "j"
    case DrawRenderableImageEntry => "k"
    case DrawImageEntry => "l"
    case DrawStringEntry => "m"
    case PaintPolygonEntry => "n"
    case DrawPolylineEntry => "o"
    case SetTransformEntry => "p"
    case PaintPathEntry => "q"
    case SetCompositeEntry => "r"
    case SetPaintEntry => "s"
    case SetUnknownStrokeEntry => "t"
  }

  /** Every key of `seMap` holds the entry registered under it. */
  lemma SeMapByTag(tag: string)
    requires tag in EventTags
    ensures tag in SeMap && EventEntryTag(SeMap[tag]) == tag
  {
  }

  /** Every key of `sweMap` holds the entry registered under it. */
  lemma SweMapByTag(tag: string)
    requires tag in WindowEventTags
    ensures tag in SweMap && WindowEventEntryTag(SweMap[tag]) == tag
  {
  }

  /** Every entry of `seMap` is found under its own key. */
  lemma SeMapAt(entry: EventEntry)
    ensures EventEntryTag(entry) in SeMap && SeMap[EventEntryTag(entry)] == entry
  {
    if entry.ImageDataReplyEntry? || entry.PingReplyEntry? || entry.ClipboardEntry? || entry.WindowSetChangedEntry? {
      SeMapAtReplies(entry);
    } else if entry.DrawCommandsEntry? || entry.CaretInfoChangedEntry? || entry.MarkdownShowEntry? || entry.MarkdownResizeEntry? {
      SeMapAtCommands(entry);
    } else if entry.MarkdownMoveEntry? || entry.MarkdownDisposeEntry? || entry.MarkdownPlaceToWindowEntry? || entry.MarkdownSetHtmlEntry? {
      SeMapAtMarkdownPanels(entry);
    } else {
      SeMapAtMarkdownContent(entry);
    }
  }

  lemma SeMapAtReplies(entry: EventEntry)
    requires entry.ImageDataReplyEntry? || entry.PingReplyEntry? || entry.ClipboardEntry? || entry.WindowSetChangedEntry?
    ensures EventEntryTag(entry) in SeMap && SeMap[EventEntryTag(entry)] == entry
  {
  }

  lemma SeMapAtCommands(entry: EventEntry)
    requires entry.DrawCommandsEntry? || entry.CaretInfoChangedEntry? || entry.MarkdownShowEntry? || entry.MarkdownResizeEntry?
    ensures EventEntryTag(entry) in SeMap && SeMap[EventEntryTag(entry)] == entry
  {
  }

  lemma SeMapAtMarkdownPanels(entry: EventEntry)
    requires entry.MarkdownMoveEntry? || entry.MarkdownDisposeEntry? || entry.MarkdownPlaceToWindowEntry? || entry.MarkdownSetHtmlEntry?
    ensures EventEntryTag(entry) in SeMap && SeMap[EventEntryTag(entry)] == entry
  {
  }

  lemma SeMapAtMarkdownContent(entry: EventEntry)
    requires entry.MarkdownSetCssEntry? || entry.MarkdownScrollEntry? || entry.MarkdownBrowseUriEntry? || entry.WindowColorsEntry?
    ensures EventEntryTag(entry) in SeMap && SeMap[EventEntryTag(entry)] == entry
  {
  }

  /** Every entry of `sweMap` is found under its own key. */
  lemma SweMapAt(entry: WindowEventEntry)
    ensures WindowEventEntryTag(entry) in SweMap && SweMap[WindowEventEntryTag(entry)] == entry
  {
    if entry.PaintArcEntry? || entry.PaintOvalEntry? || entry.PaintRoundRectEntry? || entry.PaintRectEntry? || entry.DrawLineEntry? {
      SweMapAtPaints(entry);
    } else if entry.CopyAreaEntry? || entry.SetFontEntry? || entry.SetClipEntry? || entry.SetStrokeEntry? || entry.DrawRenderedImageEntry? {
      SweMapAtState(entry);
    } else if entry.DrawRenderableImageEntry? || entry.DrawImageEntry? || entry.DrawStringEntry? || entry.PaintPolygonEntry? || entry.DrawPolylineEntry? {
      SweMapAtImages(entry);
    } else {
      SweMapAtShapes(entry);
    }
  }

  lemma SweMapAtPaints(entry: WindowEventEntry)
    requires entry.PaintArcEntry? || entry.PaintOvalEntry? || entry.PaintRoundRectEntry? || entry.PaintRectEntry? || entry.DrawLineEntry?
    ensures WindowEventEntryTag(entry) in SweMap && SweMap[WindowEventEntryTag(entry)] == entry
  {
  }

  lemma SweMapAtState(entry: WindowEventEntry)
    requires entry.CopyAreaEntry? || entry.SetFontEntry? || entry.SetClipEntry? || entry.SetStrokeEntry? || entry.DrawRenderedImageEntry?
    ensures WindowEventEntryTag(entry) in SweMap && SweMap[WindowEventEntryTag(entry)] == entry
  {
  }

  lemma SweMapAtImages(entry: WindowEventEntry)
    requires entry.DrawRenderableImageEntry? || entry.DrawImageEntry? || entry.DrawStringEntry? || entry.PaintPolygonEntry? || entry.DrawPolylineEntry?
    ensures WindowEventEntryTag(entry) in SweMap && SweMap[WindowEventEntryTag(entry)] == entry
  {
  }

  lemma SweMapAtShapes(entry: WindowEventEntry)
    requires entry.SetTransformEntry? || entry.PaintPathEntry? || entry.SetCompositeEntry? || entry.SetPaintEntry? || entry.SetUnknownStrokeEntry?
    ensures WindowEventEntryTag(entry) in SweMap && SweMap[WindowEventEntryTag(entry)] == entry
  {
  }

  /** An `seMap` entry that succeeds builds the event of the entry's own tag. */
  lemma EventEntryBuildsItsTag(entry: EventEntry, content: Wire)
    ensures RunEventEntry(entry, content).Success? ==> ServerEventTag(RunEventEntry(entry, content).value) == EventEntryTag(entry)
  {
  }

  /** A `sweMap` entry that succeeds builds the drawing command of the entry's own tag. */
  lemma WindowEventEntryBuildsItsTag(entry: WindowEventEntry, content: Wire)
    ensures RunWindowEventEntry(entry, content).Success? ==> WindowEventTag(RunWindowEventEntry(entry, content).value) == WindowEventEntryTag(entry)
  {
  }

  // ----- the batch -----

  /** Decoding two batches back to back is decoding each: order is kept and nothing is merged or dropped. */
  lemma DecodeConcat(xs: seq<Wire>, ys: seq<Wire>)
    ensures Decode(Arr(xs + ys)).Success? <==> Decode(Arr(xs)).Success? && Decode(Arr(ys)).Success?
    ensures Decode(Arr(xs + ys)).Success? ==>
      Decode(Arr(xs + ys)).value == Decode(Arr(xs)).value + Decode(Arr(ys)).value
  {
    DecodeAllConcat(xs, ys, ToEvent);
  }

  /** Any pair that fails fails the whole batch: there is no partial result. */
  lemma DecodeFailsOnAnyPair(pairs: seq<Wire>, k: nat)
    requires k < |pairs| && ToEvent(pairs[k]).Failure?
    ensures Decode(Arr(pairs)).Failure?
    ensures exists i :: 0 <= i <= k && ToEvent(pairs[i]).Failure? && Decode(Arr(pairs)).error == ToEvent(pairs[i]).error
  {
    var r := Decode(Arr(pairs));
    var i :| FirstFailure(pairs, ToEvent, i) && r.error == ToEvent(pairs[i]).error;
    assert i <= k;
  }

  // ----- event and drawing-command dispatch -----

  /** An event pair runs the `seMap` entry of its tag; a tag outside "a".."p" is rejected, naming the tag. */
  lemma EventDispatchByTag(tag: string, content: Wire)
    ensures ToEvent(Tagged(tag, content)) ==
      if tag in EventTags then RunEventEntry(SeMap[tag], content) else Failure(Unsupported("Unsupported event type", tag))
  {
    SeMapKeys();
  }

  /** A drawing-command pair runs the `sweMap` entry of its tag; a tag outside "a".."t" is rejected. */
  lemma WindowEventDispatchByTag(tag: string, content: Wire)
    ensures ToWindowEvent(Tagged(tag, content)) ==
      if tag in WindowEventTags then RunWindowEventEntry(SweMap[tag], content) else Failure(Unsupported("Unsupported event type", tag))
  {
    SweMapKeys();
  }

  /** Tag "p" yields the colour event with an empty map whatever its content holds. */
  lemma ColorsIgnoreContent(content: Wire)
    ensures ToEvent(Tagged("p", content)) == Success(ServerWindowColorsEvent(map[]))
  {
    EventDispatchByTag("p", content);
    SeMapAt(WindowColorsEntry);
  }

  /** Tags "j" and "k" yield their singleton commands whatever their content holds. */
  lemma SingletonCommandsIgnoreContent(content: Wire)
    ensures ToWindowEvent(Tagged("j", content)) == Success(ServerDrawRenderedImageEvent)
    ensures ToWindowEvent(Tagged("k", content)) == Success(ServerDrawRenderableImageEvent)
  {
    WindowEventDispatchByTag("j", content);
    SweMapAt(DrawRenderedImageEntry);
    WindowEventDispatchByTag("k", content);
    SweMapAt(DrawRenderableImageEntry);
  }

  // ----- nested sum types: the variant built is the one whose tag was read -----

  lemma TargetTags(w: Wire)
    ensures ToTarget(w).Success? ==> Pair(w).Success? && TargetTag(ToTarget(w).value) == Pair(w).value.tag
    ensures Pair(w).Success? && Pair(w).value.tag !in {"a", "b"} ==>
      ToTarget(w) == Failure(Unsupported("Unsupported target type", Pair(w).value.tag))
  {
  }

  lemma CaretInfoChangeTags(w: Wire)
    ensures ToCaretInfoChange(w).Success? ==>
      Pair(w).Success? && CaretInfoChangeTag(ToCaretInfoChange(w).value) == Pair(w).value.tag
    ensures Pair(w).Success? && Pair(w).value.tag !in {"a", "b"} ==>
      ToCaretInfoChange(w) == Failure(Unsupported("Unsupported caret info type", Pair(w).value.tag))
  {
  }

  /** `toImageId` never builds `Unknown`: tag "c" is rejected like any tag other than "a" and "b". */
  lemma ImageIdTags(w: Wire)
    ensures ToImageId(w).Success? ==>
      Pair(w).Success? && ImageIdTag(ToImageId(w).value) == Pair(w).value.tag && !ToImageId(w).value.Unknown?
    ensures Pair(w).Success? && Pair(w).value.tag !in {"a", "b"} ==>
      ToImageId(w) == Failure(Unsupported("Invalid image id type", Pair(w).value.tag))
  {
  }

  lemma ImageDataTags(w: Wire)
    ensures ToImageData(w).Success? ==> Pair(w).Success? && ImageDataTag(ToImageData(w).value) == Pair(w).value.tag
    ensures Pair(w).Success? && Pair(w).value.tag !in {"a", "b"} ==>
      ToImageData(w) == Failure(Unsupported("Invalid image data type", Pair(w).value.tag))
  {
  }

  lemma PaintValueTags(w: Wire)
    ensures ToPaintValue(w).Success? ==> Pair(w).Success? && PaintValueTag(ToPaintValue(w).value) == Pair(w).value.tag
    ensures Pair(w).Success? && Pair(w).value.tag !in {"a", "b", "c"} ==>
      ToPaintValue(w) == Failure(Unsupported("Unsupported paint value type", Pair(w).value.tag))
  {
  }

  lemma CompositeTags(w: Wire)
    ensures ToCommonComposite(w).Success? ==>
      Pair(w).Success? && CommonCompositeTag(ToCommonComposite(w).value) == Pair(w).value.tag
    ensures Pair(w).Success? && Pair(w).value.tag !in {"a", "b"} ==>
      ToCommonComposite(w) == Failure(Unsupported("Unsupported common composite type", Pair(w).value.tag))
  {
  }

  lemma StrokeTags(w: Wire)
    ensures ToStrokeData(w).Success? ==> Pair(w).Success? && StrokeDataTag(ToStrokeData(w).value) == Pair(w).value.tag
    ensures Pair(w).Success? && Pair(w).value.tag != "a" ==>
      ToStrokeData(w) == Failure(Unsupported("Unsupported stroke type", Pair(w).value.tag))
  {
  }

  lemma ShapeTags(w: Wire)
    ensures ToCommonShape(w).Success? ==> Pair(w).Success? && CommonShapeTag(ToCommonShape(w).value) == Pair(w).value.tag
    ensures Pair(w).Success? && Pair(w).value.tag !in {"a", "b"} ==>
      ToCommonShape(w) == Failure(Unsupported("Unsupported common shape", Pair(w).value.tag))
  {
  }

  lemma SegmentTags(w: Wire)
    ensures ToPathSegment(w).Success? ==> Pair(w).Success? && PathSegmentTag(ToPathSegment(w).value) == Pair(w).value.tag
    ensures Pair(w).Success? && Pair(w).value.tag !in {"a", "b", "c", "d", "e"} ==>
      ToPathSegment(w) == Failure(Unsupported("Unsupported path segment", Pair(w).value.tag))
  {
  }

  lemma ImageEventInfoTags(w: Wire)
    ensures ToImageEventInfo(w).Success? ==>
      Pair(w).Success? && ImageEventInfoTag(ToImageEventInfo(w).value) == Pair(w).value.tag
    ensures Pair(w).Success? && Pair(w).value.tag !in {"a", "b", "c", "d"} ==>
      ToImageEventInfo(w) == Failure(Unsupported("Unsupported image info type", Pair(w).value.tag))
  {
  }

  /** Every `seMap` entry builds an event of its own tag. */
  lemma SeMapEntryTag(tag: string, content: Wire)
    requires tag in EventTags
    ensures RunEventEntry(SeMap[tag], content).Success? ==> ServerEventTag(RunEventEntry(SeMap[tag], content).value) == tag
  {
    SeMapByTag(tag);
    EventEntryBuildsItsTag(SeMap[tag], content);
  }

  /** Every `sweMap` entry builds a drawing command of its own tag. */
  lemma SweMapEntryTag(tag: string, content: Wire)
    requires tag in WindowEventTags
    ensures RunWindowEventEntry(SweMap[tag], content).Success? ==> WindowEventTag(RunWindowEventEntry(SweMap[tag], content).value) == tag
  {
    SweMapByTag(tag);
    WindowEventEntryBuildsItsTag(SweMap[tag], content);
  }

  /** The event decoded from a pair is the variant whose tag the pair carries. */
  lemma EventVariantTag(w: Wire)
    ensures ToEvent(w).Success? ==> Pair(w).Success? && ServerEventTag(ToEvent(w).value) == Pair(w).value.tag
  {
    if ToEvent(w).Success? {
      var p := Pair(w).value;
      EventDispatchByTag(p.tag, p.content);
      SeMapEntryTag(p.tag, p.content);
    }
  }

  /** The drawing command decoded from a pair is the variant whose tag the pair carries. */
  lemma WindowEventVariantTag(w: Wire)
    ensures ToWindowEvent(w).Success? ==> Pair(w).Success? && WindowEventTag(ToWindowEvent(w).value) == Pair(w).value.tag
  {
    if ToWindowEvent(w).Success? {
      var p := Pair(w).value;
      WindowEventDispatchByTag(p.tag, p.content);
      SweMapEntryTag(p.tag, p.content);
    }
  }

  /** Every Markdown event but BrowseUri takes its `panelId` from the Int under key "a". */
  lemma MarkdownPanelId(tag: string, content: Wire)
    requires tag in {"g", "h", "i", "j", "k", "l", "m", "n"}
    ensures RunEventEntry(SeMap[tag], content).Success? ==>
      && RunEventEntry(SeMap[tag], content).value.Markdown?
      && !RunEventEntry(SeMap[tag], content).value.markdown.ServerMarkdownBrowseUriEvent?
      && GetInt(content, "a").Success?
      && RunEventEntry(SeMap[tag], content).value.markdown.panelId == GetInt(content, "a").value
  {
    SeMapByTag(tag);
    MarkdownEntryPanelId(SeMap[tag], content);
  }

  lemma MarkdownEntryPanelId(entry: EventEntry, content: Wire)
    requires EventEntryTag(entry) in {"g", "h", "i", "j", "k", "l", "m", "n"}
    ensures RunEventEntry(entry, content).Success? ==>
      && RunEventEntry(entry, content).value.Markdown?
      && !RunEventEntry(entry, content).value.markdown.ServerMarkdownBrowseUriEvent?
      && GetInt(content, "a").Success?
      && RunEventEntry(entry, content).value.markdown.panelId == GetInt(content, "a").value
  {
  }

  // ----- nullable fields -----

  /** `as Int?`: absent and null both read as no value; any other value must be an Int. */
  lemma OptIntField(m: map<string, Wire>, key: string)
    ensures key !in m || m[key] == Null ==> GetOptInt(Obj(m), key) == Success(None)
    ensures key in m && m[key] != Null ==>
      && (GetOptInt(Obj(m), key).Success? <==> AsInt(key, Some(m[key])).Success?)
      && (GetOptInt(Obj(m), key).Success? ==> GetOptInt(Obj(m), key).value == Some(AsInt(key, Some(m[key])).value))
  {
  }

  /** `as Short?` (the caret font id): absent and null both read as no value. */
  lemma OptShortField(m: map<string, Wire>, key: string)
    ensures key !in m || m[key] == Null ==> GetOptShort(Obj(m), key) == Success(None)
    ensures key in m && m[key] != Null ==>
      && (GetOptShort(Obj(m), key).Success? <==> AsShort(key, Some(m[key])).Success?)
      && (GetOptShort(Obj(m), key).Success? ==> GetOptShort(Obj(m), key).value == Some(AsShort(key, Some(m[key])).value))
  {
  }

  /** `as String?` (the window title): absent and null both read as no value. */
  lemma OptStringField(m: map<string, Wire>, key: string)
    ensures key !in m || m[key] == Null ==> GetOptString(Obj(m), key) == Success(None)
    ensures key in m && m[key] != Null ==>
      && (GetOptString(Obj(m), key).Success? <==> m[key].Str?)
      && (GetOptString(Obj(m), key).Success? ==> GetOptString(Obj(m), key).value == Some(m[key].s))
  {
  }

  /** A window's cursor type: absent or null is no cursor; otherwise a string looked up in `cursorTypes`. */
  lemma CursorTypeField(m: map<string, Wire>)
    ensures "g" !in m || m["g"] == Null ==> GetCursorType(Obj(m)) == Success(None)
    ensures "g" in m && m["g"] != Null ==>
      && (GetCursorType(Obj(m)).Success? <==> m["g"].Str? && m["g"].s in CursorTypes)
      && (GetCursorType(Obj(m)).Success? ==> GetCursorType(Obj(m)).value == Some(CursorTypes[m["g"].s]))
  {
  }

  /** A clip: absent or null is no clip; otherwise the shape pair is decoded. */
  lemma ClipField(m: map<string, Wire>)
    ensures "a" !in m || m["a"] == Null ==> GetClip(Obj(m)) == Success(None)
    ensures "a" in m && m["a"] != Null ==>
      && (GetClip(Obj(m)).Success? <==> ToCommonShape(m["a"]).Success?)
      && (GetClip(Obj(m)).Success? ==> GetClip(Obj(m)).value == Some(ToCommonShape(m["a"]).value))
  {
  }

  /** A dash list: absent or null is no dash list; otherwise an array of numbers, copied in order. */
  lemma DashListField(m: map<string, Wire>)
    ensures "f" !in m || m["f"] == Null ==> GetDashList(Obj(m)) == Success(None)
    ensures "f" in m && m["f"] != Null ==>
      && (GetDashList(Obj(m)).Success? <==>
            m["f"].Arr? && forall i :: 0 <= i < |m["f"].items| ==> m["f"].items[i].Num?)
      && (GetDashList(Obj(m)).Success? ==>
            GetDashList(Obj(m)).value.Some? &&
            |GetDashList(Obj(m)).value.value| == |m["f"].items| &&
            forall i :: 0 <= i < |m["f"].items| ==> GetDashList(Obj(m)).value.value[i] == m["f"].items[i].n)
  {
  }

  // ----- declared defaults -----

  /**
   * The empty defaults ServerEvent.kt declares are never applied by this
   * decoder: a missing list key fails the read, while an explicit empty
   * array gives the empty list.
   */
  lemma MissingListFails(m: map<string, Wire>)
    requires "a" !in m
    ensures DecodeWindowSetChanged(Obj(m)) == Failure(TypeMismatch("a", WantArray, None))
    ensures ToCaretInfoChange(Tagged("b", Obj(m))) == Failure(TypeMismatch("a", WantArray, None))
    ensures DecodeWindowSetChanged(Obj(m["a" := Arr([])])) == Success(ServerWindowSetChangedEvent([]))
  {
  }

  /** The draw-command list under "b" has no default either. */
  lemma MissingDrawEventsFail(m: map<string, Wire>)
    requires "a" in m && ToTarget(m["a"]).Success? && "b" !in m
    ensures DecodeDrawCommands(Obj(m)) == Failure(TypeMismatch("b", WantArray, None))
    ensures DecodeDrawCommands(Obj(m["b" := Arr([])])) == Success(ServerDrawCommandsEvent(ToTarget(m["a"]).value, []))
  {
  }

  // ----- Long ids -----

  /** An offscreen target's id is the wire number rounded by `roundToLong`. */
  lemma OffscreenIdRounded(x: real, width: Int32, height: Int32)
    ensures ToTarget(Tagged("b", Obj(map["a" := Num(x), "b" := Num(width as real), "c" := Num(height as real)])))
      == Success(Offscreen(RoundToLong(x), width, height))
  {
  }

  /** A volatile image id is the wire number rounded by `roundToLong`. */
  lemma VolatileIdRounded(x: real)
    ensures ToImageId(Tagged("b", Obj(map["a" := Num(x)]))) == Success(PVolatileImageId(RoundToLong(x)))
  {
  }

  // ----- PaintType -----

  /** `PaintType` has exactly the values DRAW and FILL, declared in the order of their tags "a", "b". */
  lemma PaintTypeDeclarationOrder(p: PaintType)
    ensures p in PaintTypes && |PaintTypes| == 2
    ensures forall i :: 0 <= i < |PaintTypes| ==> PaintTypeTag(PaintTypes[i]) == LetterKey(i)
  {
  }

  // ----- sample batches -----

  /** A batch of one pair decodes to that pair's event, or fails with its error. */
  lemma SingletonBatch(pair: Wire)
    ensures Decode(Arr([pair])) ==
      if ToEvent(pair).Success? then Success([ToEvent(pair).value]) else Failure(ToEvent(pair).error)
  {
    assert [pair][1..] == [];
    assert DecodeAll([pair][1..], ToEvent) == Success([]);
    assert Decode(Arr([pair])) == DecodeAll([pair], ToEvent);
    if ToEvent(pair).Success? {
      assert [ToEvent(pair).value] + [] == [ToEvent(pair).value];
    }
  }

  lemma ClipboardBatch()
    ensures Decode(Arr([Tagged("c", Obj(map["a" := Str("hello")]))])) == Success([ServerClipboardEvent("hello")])
  {
    var content := Obj(map["a" := Str("hello")]);
    EventDispatchByTag("c", content);
    SeMapAt(ClipboardEntry);
    ClipboardSample();
    SingletonBatch(Tagged("c", content));
  }

  lemma ClipboardSample()
    ensures DecodeClipboard(Obj(map["a" := Str("hello")])) == Success(ServerClipboardEvent("hello"))
  {
  }

  lemma PingReplyBatch()
    ensures Decode(Arr([Tagged("b", Obj(map["a" := Num(10.0), "b" := Num(20.0)]))])) ==
      Success([ServerPingReplyEvent(10, 20)])
  {
    var content := Obj(map["a" := Num(10.0), "b" := Num(20.0)]);
    EventDispatchByTag("b", content);
    SeMapAt(PingReplyEntry);
    PingReplySample();
    SingletonBatch(Tagged("b", content));
  }

  lemma PingReplySample()
    ensures DecodePingReply(Obj(map["a" := Num(10.0), "b" := Num(20.0)])) == Success(ServerPingReplyEvent(10, 20))
  {
    var content := Obj(map["a" := Num(10.0), "b" := Num(20.0)]);
    assert GetInt(content, "a") == Success(10);
    assert GetInt(content, "b") == Success(20);
  }

  /** `["d", {}]` fails: the window list has no default here. */
  lemma EmptyWindowSetBatch()
    ensures Decode(Arr([Tagged("d", Obj(map[]))])) == Failure(TypeMismatch("a", WantArray, None))
  {
    EventDispatchByTag("d", Obj(map[]));
    SeMapAt(WindowSetChangedEntry);
    EmptyWindowSetSample();
    SingletonBatch(Tagged("d", Obj(map[])));
  }

  lemma EmptyWindowSetSample()
    ensures DecodeWindowSetChanged(Obj(map[])) == Failure(TypeMismatch("a", WantArray, None))
  {
  }

  lemma UnknownTagBatch()
    ensures Decode(Arr([Tagged("z", Obj(map[]))])) == Failure(Unsupported("Unsupported event type", "z"))
  {
    assert "z" !in EventTags;
    EventDispatchByTag("z", Obj(map[]));
    SingletonBatch(Tagged("z", Obj(map[])));
  }

  lemma DrawCommandsBatch()
    ensures Decode(Arr([Tagged("e", Obj(map["a" := Tagged("a", Obj(map["a" := Num(7.0)])), "b" := Arr([])]))])) ==
      Success([ServerDrawCommandsEvent(Onscreen(7), [])])
  {
    var content := Obj(map["a" := Tagged("a", Obj(map["a" := Num(7.0)])), "b" := Arr([])]);
    EventDispatchByTag("e", content);
    SeMapAt(DrawCommandsEntry);
    OnscreenCommandsSample();
    assert ToEvent(Tagged("e", content)) == Success(ServerDrawCommandsEvent(Onscreen(7), []));
    SingletonBatch(Tagged("e", content));
  }

  /** The content of an empty command list for the on-screen window 7. */
  lemma OnscreenCommandsSample()
    ensures DecodeDrawCommands(Obj(map["a" := Tagged("a", Obj(map["a" := Num(7.0)])), "b" := Arr([])])) ==
      Success(ServerDrawCommandsEvent(Onscreen(7), []))
  {
    var target := Tagged("a", Obj(map["a" := Num(7.0)]));
    var content := Obj(map["a" := target, "b" := Arr([])]);
    assert GetInt(Obj(map["a" := Num(7.0)]), "a") == Success(7);
    assert ToTarget(target) == Success(Onscreen(7));
    assert GetList(content, "b") == Success([]);
  }
}
