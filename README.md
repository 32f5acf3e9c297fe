# Projector client: the hand-written server-event decoder

This project models the part of the Projector web client that turns a batch of
server-to-client messages into typed events: `ManualKotlinMapJsonDecoder`,
together with the protocol types it builds (`ServerEvent` and its nested
types, `ImageId`, `CommonIntSize`, `PaintType`, `CaretInfo`).

A batch is a JSON array of `[tag, content]` pairs. The tag is a one-letter
string naming the event variant. The content is an object whose declared
fields sit under the keys "a", "b", "c", … in declaration order. Nested sum
types (targets, image ids, shapes, path segments, strokes, paints,
composites, image-event infos, caret changes) use the same pair convention
with their own tags. The decoder looks each tag up in `seMap` (events) or
`sweMap` (drawing commands), or dispatches with a `when`, and reads each
field with a cast. The first cast or lookup that fails ends the whole decode.

The Dafny modules follow that structure:

- `Wrappers`: `Option` and `Result`.
- `KotlinNumbers`: the Kotlin integer widths and `roundToLong` (saturating, halves rounded up).
- `JsonTree`: the parsed JSON value, the reads the decoder makes from it (`as Int`, `as Int?`, `unsafeCast<Array<…>>`, each modelled as a read that fails on a value of the wrong kind; see "## Left out"), the `[tag, content]` pair read and `Array.map`.
- `ProtocolData`, `Protocol`: the protocol's datatypes and the tag of every variant and enum value.
- `ManualKotlinMapJsonDecoder`: `decode`, `seMap`, `sweMap`, and every `toX` helper as a total function returning a `Result`.
  - Each table lambda is an entry of a small datatype, and `RunEventEntry` and `RunWindowEventEntry` invoke it.
  - Evaluation order matches Kotlin's: arguments left to right, first exception wins.
- `WireSchema`: the wire image of every protocol value, following the one-letter-key schema the server's serializer writes. It is the decoder's inverse, and the round-trip lemmas use it.
- `DecoderProperties`:
  - the table lemmas: exact key sets, one-to-one enum lookups, error messages;
  - dispatch by tag, and tag preservation for every variant;
  - nullable and missing fields;
  - the two deliberate quirks;
  - sample batches.
- `RoundTrip`: decoding the wire image of a value gives it back, exactly for the values the decoder can represent.

Two behaviours of the code are reproduced as they stand and proved as lemmas:

- Tag "p" (`ServerWindowColorsEvent`) always decodes to an empty colour map, whatever the content (`ColorsIgnoreContent`).
- `toImageId` rejects tag "c" (`ImageId.Unknown`), so no event containing an `Unknown` id decodes (`ImageIdTags`, `ImageIdRoundTrip`, `EventRoundTrip`).

`BatchRoundTrip` states the overall result: a batch comes back unchanged iff none of its events holds an `Unknown` image id or a non-empty colour map.

Behaviours of the code that a reader might not expect:

- `roundToLong` (used for off-screen target ids and volatile image ids) rounds halves up, as `Math.round` does, so -2.5 becomes -2. It saturates at the Long range.
- A pair is read only through elements 0 and 1. Element 0 must be a string. Further elements are ignored. A missing element 1 is JavaScript `undefined`, which is read as null.
- The default values declared in `ServerEvent.kt` (lines 41, 50, 94, 96 and 196) are never applied by this decoder. A missing list fails: `["d", {}]` is an error, not an empty window set (`EmptyWindowSetBatch`, `MissingListFails`, `MissingDrawEventsFail`).

## Model

| member | source | states |
|---|---|---|
| ManualKotlinMapJsonDecoder.Decode | src/main/kotlin/decoder/ManualKotlinMapJsonDecoder.kt:10-13 | a batch decodes iff it is an array whose every pair decodes; the result has one event per pair, the i-th being the i-th pair's event; on failure the error is that of the first pair that fails |
| ManualKotlinMapJsonDecoder.SeMap | src/main/kotlin/decoder/ManualKotlinMapJsonDecoder.kt:15-47 | `seMap`, one entry per lambda; see `DecoderProperties.SeMapKeys`, `SeMapByTag`, `SeMapAt` |
| ManualKotlinMapJsonDecoder.ToEvent | src/main/kotlin/decoder/ManualKotlinMapJsonDecoder.kt:49-54 | `toEvent`; see `DecoderProperties.EventDispatchByTag`, `EventVariantTag`, `RoundTrip.EventRoundTrip` |
| ManualKotlinMapJsonDecoder.ToCaretInfoChange | src/main/kotlin/decoder/ManualKotlinMapJsonDecoder.kt:56-73 | see `DecoderProperties.CaretInfoChangeTags`, `MissingListFails`, `RoundTrip.CaretInfoChangeRoundTrip` |
| ManualKotlinMapJsonDecoder.ToCaretInfo | src/main/kotlin/decoder/ManualKotlinMapJsonDecoder.kt:75-77 | see `RoundTrip.CaretInfoRoundTrip` |
| ManualKotlinMapJsonDecoder.ToTarget | src/main/kotlin/decoder/ManualKotlinMapJsonDecoder.kt:79-91 | see `DecoderProperties.TargetTags`, `OffscreenIdRounded`, `RoundTrip.TargetRoundTrip` |
| ManualKotlinMapJsonDecoder.ToCommonIntSize | src/main/kotlin/decoder/ManualKotlinMapJsonDecoder.kt:93-95 | see `RoundTrip.IntSizeRoundTrip` |
| ManualKotlinMapJsonDecoder.ToWindowData | src/main/kotlin/decoder/ManualKotlinMapJsonDecoder.kt:97-112 | see `DecoderProperties.OptStringField`, `CursorTypeField`, `OptIntField`, `RoundTrip.WindowDataRoundTrip` |
| ManualKotlinMapJsonDecoder.ToWindowType | src/main/kotlin/decoder/ManualKotlinMapJsonDecoder.kt:114-121 | see `DecoderProperties.WindowTypeTable` |
| ManualKotlinMapJsonDecoder.CursorTypes | src/main/kotlin/decoder/ManualKotlinMapJsonDecoder.kt:123-138 | `cursorTypes`; see `DecoderProperties.CursorTypeTable` |
| ManualKotlinMapJsonDecoder.ToCursorType | src/main/kotlin/decoder/ManualKotlinMapJsonDecoder.kt:140-142 | see `DecoderProperties.CursorTypeTable` |
| ManualKotlinMapJsonDecoder.ToCommonRectangle | src/main/kotlin/decoder/ManualKotlinMapJsonDecoder.kt:144-146 | see `RoundTrip.RectangleRoundTrip` |
| ManualKotlinMapJsonDecoder.SweMap | src/main/kotlin/decoder/ManualKotlinMapJsonDecoder.kt:148-256 | `sweMap`, one entry per lambda; see `DecoderProperties.SweMapKeys`, `SweMapByTag`, `SweMapAt` |
| ManualKotlinMapJsonDecoder.ToWindowEvent | src/main/kotlin/decoder/ManualKotlinMapJsonDecoder.kt:258-263 | `toWindowEvent`; see `DecoderProperties.WindowEventDispatchByTag`, `WindowEventVariantTag`, `RoundTrip.WindowEventRoundTrip` |
| ManualKotlinMapJsonDecoder.AlphaCompositeRules | src/main/kotlin/decoder/ManualKotlinMapJsonDecoder.kt:265-278 | `alphaCompositeRuleMap`; see `DecoderProperties.AlphaCompositeRuleTable` |
| ManualKotlinMapJsonDecoder.ToAlphaCompositeRule | src/main/kotlin/decoder/ManualKotlinMapJsonDecoder.kt:286 | the rule lookup inside `toCommonComposite`; see `DecoderProperties.AlphaCompositeRuleTable` |
| ManualKotlinMapJsonDecoder.ToCommonComposite | src/main/kotlin/decoder/ManualKotlinMapJsonDecoder.kt:280-292 | see `DecoderProperties.CompositeTags`, `RoundTrip.CompositeRoundTrip` |
| ManualKotlinMapJsonDecoder.ToPaintType | src/main/kotlin/decoder/ManualKotlinMapJsonDecoder.kt:294-300 | see `DecoderProperties.PaintTypeTable`, `RoundTrip.PaintTypeRead` |
| ManualKotlinMapJsonDecoder.ToPaintValue | src/main/kotlin/decoder/ManualKotlinMapJsonDecoder.kt:302-315 | see `DecoderProperties.PaintValueTags`, `RoundTrip.PaintValueRoundTrip` |
| ManualKotlinMapJsonDecoder.ToImageEventInfo | src/main/kotlin/decoder/ManualKotlinMapJsonDecoder.kt:317-344 | see `DecoderProperties.ImageEventInfoTags`, `RoundTrip.ImageEventInfoRoundTrip` |
| ManualKotlinMapJsonDecoder.ToJoinType | src/main/kotlin/decoder/ManualKotlinMapJsonDecoder.kt:353-358 | see `DecoderProperties.JoinTypeTable` |
| ManualKotlinMapJsonDecoder.ToCapType | src/main/kotlin/decoder/ManualKotlinMapJsonDecoder.kt:359-364 | see `DecoderProperties.CapTypeTable` |
| ManualKotlinMapJsonDecoder.ToStrokeData | src/main/kotlin/decoder/ManualKotlinMapJsonDecoder.kt:346-372 | see `DecoderProperties.StrokeTags`, `DashListField`, `RoundTrip.StrokeRoundTrip` |
| ManualKotlinMapJsonDecoder.ToImageId | src/main/kotlin/decoder/ManualKotlinMapJsonDecoder.kt:374-383 | see `DecoderProperties.ImageIdTags`, `VolatileIdRounded`, `RoundTrip.ImageIdRoundTrip` |
| ManualKotlinMapJsonDecoder.ToImageData | src/main/kotlin/decoder/ManualKotlinMapJsonDecoder.kt:385-394 | see `DecoderProperties.ImageDataTags`, `RoundTrip.ImageDataRoundTrip` |
| ManualKotlinMapJsonDecoder.ToCommonShape | src/main/kotlin/decoder/ManualKotlinMapJsonDecoder.kt:396-405 | see `DecoderProperties.ShapeTags`, `RoundTrip.ShapeRoundTrip` |
| ManualKotlinMapJsonDecoder.ToWindingType | src/main/kotlin/decoder/ManualKotlinMapJsonDecoder.kt:409-413 | see `DecoderProperties.WindingTypeTable` |
| ManualKotlinMapJsonDecoder.ToCommonPath | src/main/kotlin/decoder/ManualKotlinMapJsonDecoder.kt:407-416 | see `RoundTrip.PathRoundTrip` |
| ManualKotlinMapJsonDecoder.ToPathSegment | src/main/kotlin/decoder/ManualKotlinMapJsonDecoder.kt:418-434 | see `DecoderProperties.SegmentTags`, `RoundTrip.SegmentRoundTrip` |
| ManualKotlinMapJsonDecoder.ToPoint | src/main/kotlin/decoder/ManualKotlinMapJsonDecoder.kt:436-438 | see `RoundTrip.PointRoundTrip` |
| JsonTree.Field | src/main/kotlin/decoder/ManualKotlinMapJsonDecoder.kt:16-255 | `content[key]`: absent is no value, and reading a key of a non-object fails; see `DecoderProperties.OptIntField` and the other field lemmas |
| JsonTree.AsInt | src/main/kotlin/decoder/ManualKotlinMapJsonDecoder.kt:22 | `as Int`; see `RoundTrip.IntRoundTrip` |
| JsonTree.AsShort | src/main/kotlin/decoder/ManualKotlinMapJsonDecoder.kt:213 | `as Short`; see `RoundTrip.ShortRoundTrip` |
| JsonTree.NumberElement | src/main/kotlin/decoder/ManualKotlinMapJsonDecoder.kt:247 | an element copied by `toList()` from an `Array<Double>`; see `RoundTrip.NumbersRoundTrip` |
| JsonTree.Pair | src/main/kotlin/decoder/ManualKotlinMapJsonDecoder.kt:50-51 | `this[0] as String` and `this[1]` on a pair; see `JsonTree.TaggedPair` |
| KotlinNumbers.RoundToLong | src/main/kotlin/decoder/ManualKotlinMapJsonDecoder.kt:86 | `roundToLong`; see `KotlinNumbers.RoundToLongNearest`, `RoundToLongExact`, `RoundToLongTies`, `RoundToLongSaturates` |
| WireSchema.EncodeImageId | src/main/kotlin/protocol/data/ImageId.kt:6-31 | the serial names of `ImageId`: tags "a"/"b"/"c", fields under "a", "b"; the inverse of `ToImageId` by `RoundTrip.ImageIdRoundTrip` |
| WireSchema.EncodeCaretInfo | src/main/kotlin/protocol/data/CaretInfo.kt:6-10 | `CaretInfo`'s point under "a"; the inverse of `ToCaretInfo` by `RoundTrip.CaretInfoRoundTrip` |
| WireSchema.EncodeIntSize | src/main/kotlin/protocol/data/Size.kt:6-12 | `CommonIntSize`'s width and height under "a", "b"; the inverse of `ToCommonIntSize` by `RoundTrip.IntSizeRoundTrip` |
| WireSchema.EncodeTarget | src/main/kotlin/protocol/ServerEvent.kt:54-73 | the serial names of `Target`; the inverse of `ToTarget` by `RoundTrip.TargetRoundTrip` |
| WireSchema.EncodeCaretInfoChange | src/main/kotlin/protocol/ServerEvent.kt:84-107 | the serial names of `CaretInfoChange`; the inverse of `ToCaretInfoChange` by `RoundTrip.CaretInfoChangeRoundTrip` |
| WireSchema.EncodeMarkdownContent | src/main/kotlin/protocol/ServerEvent.kt:111-190 | the serial names of the Markdown events' fields; inverted by `RoundTrip.MarkdownRoundTrip` |
| WireSchema.EventContent | src/main/kotlin/protocol/ServerEvent.kt:10-197 | the content object of every event, fields under their serial names; inverted by `RoundTrip.EventRoundTrip` |
| WireSchema.EncodeEvent | src/main/kotlin/protocol/ServerEvent.kt:8-197 | an event as its `[tag, content]` pair, tags from the serial names; inverted by `RoundTrip.EventRoundTrip` and `EventRoundTripExactly` |
| WireSchema.EncodeBatch | src/main/kotlin/decoder/ManualKotlinMapJsonDecoder.kt:10-13 | a batch as an array of event pairs; inverted by `RoundTrip.BatchRoundTrip` |
| WireSchema.EncodeWindowEvent | src/main/kotlin/decoder/ManualKotlinMapJsonDecoder.kt:148-256 | a drawing command as its `[tag, content]` pair under the keys `sweMap` reads; inverted by `RoundTrip.WindowEventRoundTrip` |
| WireSchema.EncodeWindowData | src/main/kotlin/decoder/ManualKotlinMapJsonDecoder.kt:97-112 | a window under the keys `toWindowData` reads; inverted by `RoundTrip.WindowDataRoundTrip` |
| ManualKotlinMapJsonDecoder.DecodeImageDataReply | src/main/kotlin/decoder/ManualKotlinMapJsonDecoder.kt:16-21 | the `seMap` lambda of tag "a" builds only the event whose own tag is "a"; the fields it reads are stated by `RoundTrip.ImageDataReplyRoundTrip` |
| ManualKotlinMapJsonDecoder.DecodePingReply | src/main/kotlin/decoder/ManualKotlinMapJsonDecoder.kt:22 | the `seMap` lambda of tag "b" builds only the event whose own tag is "b"; the fields it reads are stated by `RoundTrip.PingReplyRoundTrip` |
| ManualKotlinMapJsonDecoder.DecodeClipboard | src/main/kotlin/decoder/ManualKotlinMapJsonDecoder.kt:23 | the `seMap` lambda of tag "c" builds only the event whose own tag is "c"; the fields it reads are stated by `RoundTrip.ClipboardRoundTrip` |
| ManualKotlinMapJsonDecoder.DecodeWindowSetChanged | src/main/kotlin/decoder/ManualKotlinMapJsonDecoder.kt:24 | the `seMap` lambda of tag "d" builds only the event whose own tag is "d"; the fields it reads are stated by `RoundTrip.WindowSetChangedRoundTrip` |
| ManualKotlinMapJsonDecoder.DecodeDrawCommands | src/main/kotlin/decoder/ManualKotlinMapJsonDecoder.kt:25-30 | the `seMap` lambda of tag "e" builds only the event whose own tag is "e"; the fields it reads are stated by `RoundTrip.DrawCommandsRoundTrip` |
| ManualKotlinMapJsonDecoder.DecodeCaretInfoChanged | src/main/kotlin/decoder/ManualKotlinMapJsonDecoder.kt:31 | the `seMap` lambda of tag "f" builds only the event whose own tag is "f"; the fields it reads are stated by `RoundTrip.CaretInfoChangedRoundTrip` |
| ManualKotlinMapJsonDecoder.DecodeMarkdownShow | src/main/kotlin/decoder/ManualKotlinMapJsonDecoder.kt:32 | the `seMap` lambda of tag "g" builds only the event whose own tag is "g"; the fields it reads are stated by `RoundTrip.MarkdownShowRoundTrip` |
| ManualKotlinMapJsonDecoder.DecodeMarkdownResize | src/main/kotlin/decoder/ManualKotlinMapJsonDecoder.kt:33-38 | the `seMap` lambda of tag "h" builds only the event whose own tag is "h"; the fields it reads are stated by `RoundTrip.MarkdownResizeRoundTrip` |
| ManualKotlinMapJsonDecoder.DecodeMarkdownMove | src/main/kotlin/decoder/ManualKotlinMapJsonDecoder.kt:39 | the `seMap` lambda of tag "i" builds only the event whose own tag is "i"; the fields it reads are stated by `RoundTrip.MarkdownMoveRoundTrip` |
| ManualKotlinMapJsonDecoder.DecodeMarkdownDispose | src/main/kotlin/decoder/ManualKotlinMapJsonDecoder.kt:40 | the `seMap` lambda of tag "j" builds only the event whose own tag is "j"; the fields it reads are stated by `RoundTrip.MarkdownDisposeRoundTrip` |
| ManualKotlinMapJsonDecoder.DecodeMarkdownPlaceToWindow | src/main/kotlin/decoder/ManualKotlinMapJsonDecoder.kt:41 | the `seMap` lambda of tag "k" builds only the event whose own tag is "k"; the fields it reads are stated by `RoundTrip.MarkdownPlaceToWindowRoundTrip` |
| ManualKotlinMapJsonDecoder.DecodeMarkdownSetHtml | src/main/kotlin/decoder/ManualKotlinMapJsonDecoder.kt:42 | the `seMap` lambda of tag "l" builds only the event whose own tag is "l"; the fields it reads are stated by `RoundTrip.MarkdownSetHtmlRoundTrip` |
| ManualKotlinMapJsonDecoder.DecodeMarkdownSetCss | src/main/kotlin/decoder/ManualKotlinMapJsonDecoder.kt:43 | the `seMap` lambda of tag "m" builds only the event whose own tag is "m"; the fields it reads are stated by `RoundTrip.MarkdownSetCssRoundTrip` |
| ManualKotlinMapJsonDecoder.DecodeMarkdownScroll | src/main/kotlin/decoder/ManualKotlinMapJsonDecoder.kt:44 | the `seMap` lambda of tag "n" builds only the event whose own tag is "n"; the fields it reads are stated by `RoundTrip.MarkdownScrollRoundTrip` |
| ManualKotlinMapJsonDecoder.DecodeMarkdownBrowseUri | src/main/kotlin/decoder/ManualKotlinMapJsonDecoder.kt:45 | the `seMap` lambda of tag "o" builds only the event whose own tag is "o"; the fields it reads are stated by `RoundTrip.MarkdownBrowseUriRoundTrip` |
| ManualKotlinMapJsonDecoder.DecodeWindowColors | src/main/kotlin/decoder/ManualKotlinMapJsonDecoder.kt:46 | the `seMap` lambda of tag "p" builds only the event whose own tag is "p"; the content is ignored, as `DecoderProperties.ColorsIgnoreContent` states |
| ManualKotlinMapJsonDecoder.DecodePaintArc | src/main/kotlin/decoder/ManualKotlinMapJsonDecoder.kt:149-159 | the `sweMap` lambda of tag "a" builds only the drawing command whose own tag is "a"; the fields it reads are stated by `RoundTrip.PaintArcRoundTrip` |
| ManualKotlinMapJsonDecoder.DecodePaintOval | src/main/kotlin/decoder/ManualKotlinMapJsonDecoder.kt:161-169 | the `sweMap` lambda of tag "b" builds only the drawing command whose own tag is "b"; the fields it reads are stated by `RoundTrip.PaintOvalRoundTrip` |
| ManualKotlinMapJsonDecoder.DecodePaintRoundRect | src/main/kotlin/decoder/ManualKotlinMapJsonDecoder.kt:171-181 | the `sweMap` lambda of tag "c" builds only the drawing command whose own tag is "c"; the fields it reads are stated by `RoundTrip.PaintRoundRectRoundTrip` |
| ManualKotlinMapJsonDecoder.DecodePaintRect | src/main/kotlin/decoder/ManualKotlinMapJsonDecoder.kt:183-191 | the `sweMap` lambda of tag "d" builds only the drawing command whose own tag is "d"; the fields it reads are stated by `RoundTrip.PaintRectRoundTrip` |
| ManualKotlinMapJsonDecoder.DecodeDrawLine | src/main/kotlin/decoder/ManualKotlinMapJsonDecoder.kt:193-200 | the `sweMap` lambda of tag "e" builds only the drawing command whose own tag is "e"; the fields it reads are stated by `RoundTrip.DrawLineRoundTrip` |
| ManualKotlinMapJsonDecoder.DecodeCopyArea | src/main/kotlin/decoder/ManualKotlinMapJsonDecoder.kt:202-211 | the `sweMap` lambda of tag "f" builds only the drawing command whose own tag is "f"; the fields it reads are stated by `RoundTrip.CopyAreaRoundTrip` |
| ManualKotlinMapJsonDecoder.DecodeSetFont | src/main/kotlin/decoder/ManualKotlinMapJsonDecoder.kt:213 | the `sweMap` lambda of tag "g" builds only the drawing command whose own tag is "g"; the fields it reads are stated by `RoundTrip.SetFontRoundTrip` |
| ManualKotlinMapJsonDecoder.DecodeSetClip | src/main/kotlin/decoder/ManualKotlinMapJsonDecoder.kt:215 | the `sweMap` lambda of tag "h" builds only the drawing command whose own tag is "h"; the fields it reads are stated by `RoundTrip.SetClipRoundTrip` |
| ManualKotlinMapJsonDecoder.DecodeSetStroke | src/main/kotlin/decoder/ManualKotlinMapJsonDecoder.kt:217 | the `sweMap` lambda of tag "i" builds only the drawing command whose own tag is "i"; the fields it reads are stated by `RoundTrip.SetStrokeRoundTrip` |
| ManualKotlinMapJsonDecoder.DecodeDrawRenderedImage | src/main/kotlin/decoder/ManualKotlinMapJsonDecoder.kt:219 | the `sweMap` lambda of tag "j" builds only the drawing command whose own tag is "j"; the fields (none) are stated by `DecoderProperties.SingletonCommandsIgnoreContent` |
| ManualKotlinMapJsonDecoder.DecodeDrawRenderableImage | src/main/kotlin/decoder/ManualKotlinMapJsonDecoder.kt:221 | the `sweMap` lambda of tag "k" builds only the drawing command whose own tag is "k"; the fields (none) are stated by `DecoderProperties.SingletonCommandsIgnoreContent` |
| ManualKotlinMapJsonDecoder.DecodeDrawImage | src/main/kotlin/decoder/ManualKotlinMapJsonDecoder.kt:223-228 | the `sweMap` lambda of tag "l" builds only the drawing command whose own tag is "l"; the fields it reads are stated by `RoundTrip.DrawImageRoundTrip` |
| ManualKotlinMapJsonDecoder.DecodeDrawString | src/main/kotlin/decoder/ManualKotlinMapJsonDecoder.kt:230-237 | the `sweMap` lambda of tag "m" builds only the drawing command whose own tag is "m"; the fields it reads are stated by `RoundTrip.DrawStringRoundTrip` |
| ManualKotlinMapJsonDecoder.DecodePaintPolygon | src/main/kotlin/decoder/ManualKotlinMapJsonDecoder.kt:239-243 | the `sweMap` lambda of tag "n" builds only the drawing command whose own tag is "n"; the fields it reads are stated by `RoundTrip.PaintPolygonRoundTrip` |
| ManualKotlinMapJsonDecoder.DecodeDrawPolyline | src/main/kotlin/decoder/ManualKotlinMapJsonDecoder.kt:245 | the `sweMap` lambda of tag "o" builds only the drawing command whose own tag is "o"; the fields it reads are stated by `RoundTrip.DrawPolylineRoundTrip` |
| ManualKotlinMapJsonDecoder.DecodeSetTransform | src/main/kotlin/decoder/ManualKotlinMapJsonDecoder.kt:247 | the `sweMap` lambda of tag "p" builds only the drawing command whose own tag is "p"; the fields it reads are stated by `RoundTrip.SetTransformRoundTrip` |
| ManualKotlinMapJsonDecoder.DecodePaintPath | src/main/kotlin/decoder/ManualKotlinMapJsonDecoder.kt:249 | the `sweMap` lambda of tag "q" builds only the drawing command whose own tag is "q"; the fields it reads are stated by `RoundTrip.PaintPathRoundTrip` |
| ManualKotlinMapJsonDecoder.DecodeSetComposite | src/main/kotlin/decoder/ManualKotlinMapJsonDecoder.kt:251 | the `sweMap` lambda of tag "r" builds only the drawing command whose own tag is "r"; the fields it reads are stated by `RoundTrip.SetCompositeRoundTrip` |
| ManualKotlinMapJsonDecoder.DecodeSetPaint | src/main/kotlin/decoder/ManualKotlinMapJsonDecoder.kt:253 | the `sweMap` lambda of tag "s" builds only the drawing command whose own tag is "s"; the fields it reads are stated by `RoundTrip.SetPaintRoundTrip` |
| ManualKotlinMapJsonDecoder.DecodeSetUnknownStroke | src/main/kotlin/decoder/ManualKotlinMapJsonDecoder.kt:255 | the `sweMap` lambda of tag "t" builds only the drawing command whose own tag is "t"; the fields it reads are stated by `RoundTrip.SetUnknownStrokeRoundTrip` |
| JsonTree.DecodeAll | src/main/kotlin/decoder/ManualKotlinMapJsonDecoder.kt:12 | `map` over a JSON array succeeds iff every element decodes, keeps length and order, and fails with the error of the first element that fails |
| JsonTree.DecodeAllConcat | src/main/kotlin/decoder/ManualKotlinMapJsonDecoder.kt:12 | mapping over a concatenation is the concatenation of the mapped halves, and fails iff either half fails |
| JsonTree.Nullable | src/main/kotlin/decoder/ManualKotlinMapJsonDecoder.kt:105 | a nullable read gives no value for both an absent key and null; any other value must pass the cast, whose value or error is passed on |
| JsonTree.TaggedPair | src/main/kotlin/decoder/ManualKotlinMapJsonDecoder.kt:49-51 | a two-element `[tag, content]` array reads back as that tag and that content |
| KotlinNumbers.RoundToLongNearest | src/main/kotlin/decoder/ManualKotlinMapJsonDecoder.kt:86 | `roundToLong` of a value inside the Long range is within one half of it |
| KotlinNumbers.RoundToLongExact | src/main/kotlin/decoder/ManualKotlinMapJsonDecoder.kt:380 | `roundToLong` of a whole number in the Long range is that number |
| KotlinNumbers.RoundToLongTies | src/main/kotlin/decoder/ManualKotlinMapJsonDecoder.kt:380 | `roundToLong` rounds halves upwards (k + 0.5 gives k + 1), including for negative k |
| KotlinNumbers.RoundToLongSaturates | src/main/kotlin/decoder/ManualKotlinMapJsonDecoder.kt:86 | `roundToLong` clamps to Long.MAX_VALUE and Long.MIN_VALUE outside the Long range |
| DecoderProperties.WindowTypeTable | src/main/kotlin/decoder/ManualKotlinMapJsonDecoder.kt:114-121 | `toWindowType` maps a string to a value iff the string is that value's tag (so it is one-to-one), fails exactly on strings outside its keys, and then fails with its own message naming the string |
| DecoderProperties.CursorTypeTable | src/main/kotlin/decoder/ManualKotlinMapJsonDecoder.kt:123-142 | `cursorTypes` with `toCursorType` maps a string to a value iff the string is that value's tag (so it is one-to-one), fails exactly on strings outside its keys, and then fails with its own message naming the string |
| DecoderProperties.PaintTypeTable | src/main/kotlin/decoder/ManualKotlinMapJsonDecoder.kt:294-300 | `toPaintType` maps a string to a value iff the string is that value's tag (so it is one-to-one), fails exactly on strings outside its keys, and then fails with its own message naming the string |
| DecoderProperties.AlphaCompositeRuleTable | src/main/kotlin/decoder/ManualKotlinMapJsonDecoder.kt:265-278 | `alphaCompositeRuleMap` maps a string to a value iff the string is that value's tag (so it is one-to-one), fails exactly on strings outside its keys, and then fails with its own message naming the string |
| DecoderProperties.JoinTypeTable | src/main/kotlin/decoder/ManualKotlinMapJsonDecoder.kt:353-358 | the join-type `when` of `toStrokeData` maps a string to a value iff the string is that value's tag (so it is one-to-one), fails exactly on strings outside its keys, and then fails with its own message naming the string |
| DecoderProperties.CapTypeTable | src/main/kotlin/decoder/ManualKotlinMapJsonDecoder.kt:359-364 | the cap-type `when` of `toStrokeData` maps a string to a value iff the string is that value's tag (so it is one-to-one), fails exactly on strings outside its keys, and then fails with its own message naming the string |
| DecoderProperties.WindingTypeTable | src/main/kotlin/decoder/ManualKotlinMapJsonDecoder.kt:409-413 | the winding-type `when` of `toCommonPath` maps a string to a value iff the string is that value's tag (so it is one-to-one), fails exactly on strings outside its keys, and then fails with its own message naming the string |
| DecoderProperties.SeMapKeys | src/main/kotlin/decoder/ManualKotlinMapJsonDecoder.kt:15-47 | `seMap` has exactly the keys "a".."p" |
| DecoderProperties.SweMapKeys | src/main/kotlin/decoder/ManualKotlinMapJsonDecoder.kt:148-256 | `sweMap` has exactly the keys "a".."t" |
| DecoderProperties.SeMapByTag | src/main/kotlin/decoder/ManualKotlinMapJsonDecoder.kt:15-47 | every key of `seMap` holds the lambda registered under that key |
| DecoderProperties.SweMapByTag | src/main/kotlin/decoder/ManualKotlinMapJsonDecoder.kt:148-256 | every key of `sweMap` holds the lambda registered under that key |
| DecoderProperties.SeMapAt | src/main/kotlin/decoder/ManualKotlinMapJsonDecoder.kt:15-47 | every lambda of `seMap` is found under its own key |
| DecoderProperties.SweMapAt | src/main/kotlin/decoder/ManualKotlinMapJsonDecoder.kt:148-256 | every lambda of `sweMap` is found under its own key |
| DecoderProperties.EventEntryBuildsItsTag | src/main/kotlin/decoder/ManualKotlinMapJsonDecoder.kt:15-47 | a `seMap` lambda that succeeds builds the event of the key it is stored under |
| DecoderProperties.WindowEventEntryBuildsItsTag | src/main/kotlin/decoder/ManualKotlinMapJsonDecoder.kt:148-256 | a `sweMap` lambda that succeeds builds the drawing command of the key it is stored under |
| DecoderProperties.SeMapEntryTag | src/main/kotlin/decoder/ManualKotlinMapJsonDecoder.kt:15-47 | looking a tag up in `seMap` and running the lambda yields, on success, an event of that tag |
| DecoderProperties.SweMapEntryTag | src/main/kotlin/decoder/ManualKotlinMapJsonDecoder.kt:148-256 | looking a tag up in `sweMap` and running the lambda yields, on success, a drawing command of that tag |
| DecoderProperties.DecodeConcat | src/main/kotlin/decoder/ManualKotlinMapJsonDecoder.kt:10-13 | decoding two batches back to back is decoding each: it fails iff either fails, and otherwise the events are the two results concatenated |
| DecoderProperties.DecodeFailsOnAnyPair | src/main/kotlin/decoder/ManualKotlinMapJsonDecoder.kt:10-13 | one pair that fails makes the whole batch fail, with the error of a pair at or before it; no partial result is returned |
| DecoderProperties.EventDispatchByTag | src/main/kotlin/decoder/ManualKotlinMapJsonDecoder.kt:49-54 | a pair with a tag in "a".."p" runs the `seMap` lambda of that tag on its content; any other tag fails as an unsupported event type naming the tag |
| DecoderProperties.WindowEventDispatchByTag | src/main/kotlin/decoder/ManualKotlinMapJsonDecoder.kt:258-263 | a drawing-command pair with a tag in "a".."t" runs the `sweMap` lambda of that tag; any other tag fails with the same unsupported-event-type message |
| DecoderProperties.EventVariantTag | src/main/kotlin/decoder/ManualKotlinMapJsonDecoder.kt:49-54 | a decoded event is always the variant whose tag its pair carries |
| DecoderProperties.WindowEventVariantTag | src/main/kotlin/decoder/ManualKotlinMapJsonDecoder.kt:258-263 | a decoded drawing command is always the variant whose tag its pair carries |
| DecoderProperties.ColorsIgnoreContent | src/main/kotlin/decoder/ManualKotlinMapJsonDecoder.kt:46 | tag "p" decodes to the colour event with an empty map whatever the content holds |
| DecoderProperties.SingletonCommandsIgnoreContent | src/main/kotlin/decoder/ManualKotlinMapJsonDecoder.kt:219-221 | tags "j" and "k" decode to their field-less drawing commands whatever the content holds |
| DecoderProperties.MarkdownPanelId | src/main/kotlin/decoder/ManualKotlinMapJsonDecoder.kt:32-44 | every Markdown event except BrowseUri takes its panel id from the Int under key "a": a successful decode implies that key holds an Int, and the id is that Int |
| DecoderProperties.MarkdownEntryPanelId | src/main/kotlin/decoder/ManualKotlinMapJsonDecoder.kt:32-44 | the same panel-id property stated for each Markdown lambda of `seMap` |
| DecoderProperties.TargetTags | src/main/kotlin/decoder/ManualKotlinMapJsonDecoder.kt:79-91 | `toTarget` builds the variant of the pair's tag, and any tag outside "a", "b" fails with the function's own message naming the tag |
| DecoderProperties.CaretInfoChangeTags | src/main/kotlin/decoder/ManualKotlinMapJsonDecoder.kt:56-73 | `toCaretInfoChange` builds the variant of the pair's tag, and any tag outside "a", "b" fails with the function's own message naming the tag |
| DecoderProperties.ImageIdTags | src/main/kotlin/decoder/ManualKotlinMapJsonDecoder.kt:374-383 | `toImageId` builds the variant of the pair's tag; every other tag, including "c" (`Unknown`), fails with "Invalid image id type" naming the tag |
| DecoderProperties.ImageDataTags | src/main/kotlin/decoder/ManualKotlinMapJsonDecoder.kt:385-394 | `toImageData` builds the variant of the pair's tag, and any tag outside "a", "b" fails with the function's own message naming the tag |
| DecoderProperties.PaintValueTags | src/main/kotlin/decoder/ManualKotlinMapJsonDecoder.kt:302-315 | `toPaintValue` builds the variant of the pair's tag, and any tag outside "a".."c" fails with the function's own message naming the tag |
| DecoderProperties.CompositeTags | src/main/kotlin/decoder/ManualKotlinMapJsonDecoder.kt:280-292 | `toCommonComposite` builds the variant of the pair's tag, and any tag outside "a", "b" fails with the function's own message naming the tag |
| DecoderProperties.StrokeTags | src/main/kotlin/decoder/ManualKotlinMapJsonDecoder.kt:346-372 | `toStrokeData` builds the variant of the pair's tag, and any tag outside "a" fails with the function's own message naming the tag |
| DecoderProperties.ShapeTags | src/main/kotlin/decoder/ManualKotlinMapJsonDecoder.kt:396-405 | `toCommonShape` builds the variant of the pair's tag, and any tag outside "a", "b" fails with the function's own message naming the tag |
| DecoderProperties.SegmentTags | src/main/kotlin/decoder/ManualKotlinMapJsonDecoder.kt:418-434 | `toPathSegment` builds the variant of the pair's tag, and any tag outside "a".."e" fails with the function's own message naming the tag |
| DecoderProperties.ImageEventInfoTags | src/main/kotlin/decoder/ManualKotlinMapJsonDecoder.kt:317-344 | `toImageEventInfo` builds the variant of the pair's tag, and any tag outside "a".."d" fails with the function's own message naming the tag |
| DecoderProperties.OptIntField | src/main/kotlin/decoder/ManualKotlinMapJsonDecoder.kt:110 | `as Int?`: absent and null give no value; any other value must be an Int |
| DecoderProperties.OptShortField | src/main/kotlin/decoder/ManualKotlinMapJsonDecoder.kt:64 | `as Short?`: absent and null give no value; any other value must be a Short |
| DecoderProperties.OptStringField | src/main/kotlin/decoder/ManualKotlinMapJsonDecoder.kt:100 | `as String?`: absent and null give no value; any other value must be a String |
| DecoderProperties.CursorTypeField | src/main/kotlin/decoder/ManualKotlinMapJsonDecoder.kt:105 | a window's cursor type is none when absent or null, and otherwise the string looked up in `cursorTypes` |
| DecoderProperties.ClipField | src/main/kotlin/decoder/ManualKotlinMapJsonDecoder.kt:215 | a clip is none when absent or null, and otherwise the decoded shape pair |
| DecoderProperties.DashListField | src/main/kotlin/decoder/ManualKotlinMapJsonDecoder.kt:367 | a dash list is none when absent or null, and otherwise an array of numbers copied in order |
| DecoderProperties.MissingListFails | src/main/kotlin/decoder/ManualKotlinMapJsonDecoder.kt:24 | the window list and the caret list have no default in the decoder: a missing key fails, an empty array gives an empty list |
| DecoderProperties.MissingDrawEventsFail | src/main/kotlin/decoder/ManualKotlinMapJsonDecoder.kt:25-30 | the drawing-command list has no default in the decoder: a missing key fails, an empty array gives an empty list |
| DecoderProperties.OffscreenIdRounded | src/main/kotlin/decoder/ManualKotlinMapJsonDecoder.kt:85-87 | an off-screen target's id is the wire number rounded by `roundToLong`, and its size the two Ints |
| DecoderProperties.VolatileIdRounded | src/main/kotlin/decoder/ManualKotlinMapJsonDecoder.kt:380 | a volatile image id is the wire number rounded by `roundToLong` |
| DecoderProperties.PaintTypeDeclarationOrder | src/main/kotlin/protocol/data/PaintType.kt:6-13 | `PaintType` has exactly the two values DRAW and FILL, whose tags follow declaration order |
| DecoderProperties.SingletonBatch | src/main/kotlin/decoder/ManualKotlinMapJsonDecoder.kt:10-13 | a batch of one pair is that pair's event, or fails with that pair's error |
| DecoderProperties.ClipboardBatch | src/main/kotlin/decoder/ManualKotlinMapJsonDecoder.kt:23 | `[["c", {"a": "hello"}]]` decodes to one clipboard event holding "hello" |
| DecoderProperties.PingReplyBatch | src/main/kotlin/decoder/ManualKotlinMapJsonDecoder.kt:22 | `[["b", {"a": 10, "b": 20}]]` decodes to one ping reply with those two Ints |
| DecoderProperties.EmptyWindowSetBatch | src/main/kotlin/decoder/ManualKotlinMapJsonDecoder.kt:24 | `[["d", {}]]` fails on the missing window list |
| DecoderProperties.UnknownTagBatch | src/main/kotlin/decoder/ManualKotlinMapJsonDecoder.kt:49-54 | `[["z", {}]]` fails as an unsupported event type naming "z" |
| DecoderProperties.DrawCommandsBatch | src/main/kotlin/decoder/ManualKotlinMapJsonDecoder.kt:25-30 | a command batch for on-screen window 7 with no commands decodes to that one event |
| RoundTrip.IntRoundTrip | src/main/kotlin/decoder/ManualKotlinMapJsonDecoder.kt:22 | `as Int` reads back any Int written as a JSON number |
| RoundTrip.ShortRoundTrip | src/main/kotlin/decoder/ManualKotlinMapJsonDecoder.kt:213 | `as Short` reads back any Short written as a JSON number |
| RoundTrip.ListRoundTrip | src/main/kotlin/decoder/ManualKotlinMapJsonDecoder.kt:12 | an array of encoded elements decodes back to the list when each element does |
| RoundTrip.ListFails | src/main/kotlin/decoder/ManualKotlinMapJsonDecoder.kt:12 | an array fails when any one of its elements fails |
| RoundTrip.ListOutcome | src/main/kotlin/decoder/ManualKotlinMapJsonDecoder.kt:12 | an array decodes back iff every element is decodable, and otherwise fails with the common error of the elements that fail |
| RoundTrip.NumbersRoundTrip | src/main/kotlin/decoder/ManualKotlinMapJsonDecoder.kt:367 | an array of numbers copied by `toList()` gives back the same list |
| RoundTrip.PointRoundTrip | src/main/kotlin/decoder/ManualKotlinMapJsonDecoder.kt:436-438 | a point reads back from its two keyed numbers |
| RoundTrip.PointsRoundTrip | src/main/kotlin/decoder/ManualKotlinMapJsonDecoder.kt:239-243 | a list of points reads back in order |
| RoundTrip.RectangleRoundTrip | src/main/kotlin/decoder/ManualKotlinMapJsonDecoder.kt:144-146 | a rectangle reads back from its four keyed numbers |
| RoundTrip.IntSizeRoundTrip | src/main/kotlin/decoder/ManualKotlinMapJsonDecoder.kt:93-95 | an Int size reads back from its two keyed Ints |
| RoundTrip.CaretInfoRoundTrip | src/main/kotlin/decoder/ManualKotlinMapJsonDecoder.kt:75-77 | a caret info reads back from its point |
| RoundTrip.CaretInfosRoundTrip | src/main/kotlin/decoder/ManualKotlinMapJsonDecoder.kt:63 | a list of caret infos reads back in order |
| RoundTrip.ImageIdRoundTrip | src/main/kotlin/decoder/ManualKotlinMapJsonDecoder.kt:374-383 | Buffered and volatile image ids read back; `Unknown` (tag "c") is always rejected as an invalid image id type |
| RoundTrip.ImageDataRoundTrip | src/main/kotlin/decoder/ManualKotlinMapJsonDecoder.kt:385-394 | both image-data variants read back |
| RoundTrip.PaintValueRoundTrip | src/main/kotlin/decoder/ManualKotlinMapJsonDecoder.kt:302-315 | every paint value reads back |
| RoundTrip.CompositeRoundTrip | src/main/kotlin/decoder/ManualKotlinMapJsonDecoder.kt:280-292 | every composite reads back |
| RoundTrip.StrokeRoundTrip | src/main/kotlin/decoder/ManualKotlinMapJsonDecoder.kt:346-372 | a basic stroke reads back with its join, cap and dash list |
| RoundTrip.DashListRoundTrip | src/main/kotlin/decoder/ManualKotlinMapJsonDecoder.kt:367 | a nullable dash list reads back |
| RoundTrip.SegmentRoundTrip | src/main/kotlin/decoder/ManualKotlinMapJsonDecoder.kt:418-434 | every path segment reads back |
| RoundTrip.PathRoundTrip | src/main/kotlin/decoder/ManualKotlinMapJsonDecoder.kt:407-416 | a path reads back with its winding rule and its segments in order |
| RoundTrip.ShapeRoundTrip | src/main/kotlin/decoder/ManualKotlinMapJsonDecoder.kt:396-405 | every shape reads back |
| RoundTrip.OptIntRoundTrip | src/main/kotlin/decoder/ManualKotlinMapJsonDecoder.kt:110 | an optional Int written as a number or null reads back |
| RoundTrip.OptShortRoundTrip | src/main/kotlin/decoder/ManualKotlinMapJsonDecoder.kt:64 | an optional Short written as a number or null reads back |
| RoundTrip.OptStringRoundTrip | src/main/kotlin/decoder/ManualKotlinMapJsonDecoder.kt:100 | an optional string written as a string or null reads back |
| RoundTrip.ImageEventInfoRoundTrip | src/main/kotlin/decoder/ManualKotlinMapJsonDecoder.kt:317-344 | every image-event info reads back |
| RoundTrip.TargetRoundTrip | src/main/kotlin/decoder/ManualKotlinMapJsonDecoder.kt:79-91 | both targets read back; an off-screen id that fits a Long is rounded to itself |
| RoundTrip.CaretInfoChangeRoundTrip | src/main/kotlin/decoder/ManualKotlinMapJsonDecoder.kt:56-73 | both caret-info changes read back |
| RoundTrip.CursorRoundTrip | src/main/kotlin/decoder/ManualKotlinMapJsonDecoder.kt:105 | an optional cursor type reads back |
| RoundTrip.WindowDataRoundTrip | src/main/kotlin/decoder/ManualKotlinMapJsonDecoder.kt:97-112 | a window reads back iff none of its icons is `Unknown`; otherwise it fails with the tag-"c" rejection |
| RoundTrip.IconsRoundTrip | src/main/kotlin/decoder/ManualKotlinMapJsonDecoder.kt:101 | an icon list reads back iff none of its ids is `Unknown` |
| RoundTrip.PaintTypeRead | src/main/kotlin/decoder/ManualKotlinMapJsonDecoder.kt:294-300 | a paint type written as its tag reads back |
| RoundTrip.WindowEventDispatch | src/main/kotlin/decoder/ManualKotlinMapJsonDecoder.kt:258-263 | an encoded drawing command is dispatched to the `sweMap` lambda of its own tag |
| RoundTrip.WindowEventRoundTrip | src/main/kotlin/decoder/ManualKotlinMapJsonDecoder.kt:148-263 | a drawing command reads back iff it is not an image draw of an `Unknown` id; otherwise it fails with the tag-"c" rejection |
| RoundTrip.WindowEventEntryRoundTrip | src/main/kotlin/decoder/ManualKotlinMapJsonDecoder.kt:148-256 | the `sweMap` lambda of a drawing command's tag reads back that command's content, with the same exception |
| RoundTrip.PaintArcRoundTrip | src/main/kotlin/decoder/ManualKotlinMapJsonDecoder.kt:149-159 | the `sweMap` lambda of tag "a" reads back every field of its drawing command |
| RoundTrip.PaintOvalRoundTrip | src/main/kotlin/decoder/ManualKotlinMapJsonDecoder.kt:161-169 | the `sweMap` lambda of tag "b" reads back every field of its drawing command |
| RoundTrip.PaintRoundRectRoundTrip | src/main/kotlin/decoder/ManualKotlinMapJsonDecoder.kt:171-181 | the `sweMap` lambda of tag "c" reads back every field of its drawing command |
| RoundTrip.PaintRectRoundTrip | src/main/kotlin/decoder/ManualKotlinMapJsonDecoder.kt:183-191 | the `sweMap` lambda of tag "d" reads back every field of its drawing command |
| RoundTrip.DrawLineRoundTrip | src/main/kotlin/decoder/ManualKotlinMapJsonDecoder.kt:193-200 | the `sweMap` lambda of tag "e" reads back every field of its drawing command |
| RoundTrip.CopyAreaRoundTrip | src/main/kotlin/decoder/ManualKotlinMapJsonDecoder.kt:202-211 | the `sweMap` lambda of tag "f" reads back every field of its drawing command |
| RoundTrip.SetFontRoundTrip | src/main/kotlin/decoder/ManualKotlinMapJsonDecoder.kt:213 | the `sweMap` lambda of tag "g" reads back every field of its drawing command |
| RoundTrip.SetClipRoundTrip | src/main/kotlin/decoder/ManualKotlinMapJsonDecoder.kt:215 | the `sweMap` lambda of tag "h" reads back every field of its drawing command |
| RoundTrip.SetStrokeRoundTrip | src/main/kotlin/decoder/ManualKotlinMapJsonDecoder.kt:217 | the `sweMap` lambda of tag "i" reads back every field of its drawing command |
| RoundTrip.DrawImageRoundTrip | src/main/kotlin/decoder/ManualKotlinMapJsonDecoder.kt:223-228 | the `sweMap` lambda of tag "l" reads back an image draw unless its id is `Unknown`, which it rejects |
| RoundTrip.DrawStringRoundTrip | src/main/kotlin/decoder/ManualKotlinMapJsonDecoder.kt:230-237 | the `sweMap` lambda of tag "m" reads back every field of its drawing command |
| RoundTrip.PaintPolygonRoundTrip | src/main/kotlin/decoder/ManualKotlinMapJsonDecoder.kt:239-243 | the `sweMap` lambda of tag "n" reads back every field of its drawing command |
| RoundTrip.DrawPolylineRoundTrip | src/main/kotlin/decoder/ManualKotlinMapJsonDecoder.kt:245 | the `sweMap` lambda of tag "o" reads back every field of its drawing command |
| RoundTrip.SetTransformRoundTrip | src/main/kotlin/decoder/ManualKotlinMapJsonDecoder.kt:247 | the `sweMap` lambda of tag "p" reads back every field of its drawing command |
| RoundTrip.PaintPathRoundTrip | src/main/kotlin/decoder/ManualKotlinMapJsonDecoder.kt:249 | the `sweMap` lambda of tag "q" reads back every field of its drawing command |
| RoundTrip.SetCompositeRoundTrip | src/main/kotlin/decoder/ManualKotlinMapJsonDecoder.kt:251 | the `sweMap` lambda of tag "r" reads back every field of its drawing command |
| RoundTrip.SetPaintRoundTrip | src/main/kotlin/decoder/ManualKotlinMapJsonDecoder.kt:253 | the `sweMap` lambda of tag "s" reads back every field of its drawing command |
| RoundTrip.SetUnknownStrokeRoundTrip | src/main/kotlin/decoder/ManualKotlinMapJsonDecoder.kt:255 | the `sweMap` lambda of tag "t" reads back every field of its drawing command |
| RoundTrip.WindowEventsRoundTrip | src/main/kotlin/decoder/ManualKotlinMapJsonDecoder.kt:28 | a drawing-command list reads back iff every command does, and otherwise fails with the tag-"c" rejection |
| RoundTrip.WindowsRoundTrip | src/main/kotlin/decoder/ManualKotlinMapJsonDecoder.kt:24 | a window list reads back iff every window does, and otherwise fails with the tag-"c" rejection |
| RoundTrip.EventDispatch | src/main/kotlin/decoder/ManualKotlinMapJsonDecoder.kt:49-54 | an encoded event is dispatched to the `seMap` lambda of its own tag |
| RoundTrip.ImageDataReplyRoundTrip | src/main/kotlin/decoder/ManualKotlinMapJsonDecoder.kt:16-21 | the lambda of tag "a" reads back an image-data reply unless its id is `Unknown`, which it rejects |
| RoundTrip.PingReplyRoundTrip | src/main/kotlin/decoder/ManualKotlinMapJsonDecoder.kt:22 | the `seMap` lambda of tag "b" reads back every field of its event |
| RoundTrip.ClipboardRoundTrip | src/main/kotlin/decoder/ManualKotlinMapJsonDecoder.kt:23 | the `seMap` lambda of tag "c" reads back every field of its event |
| RoundTrip.WindowSetChangedRoundTrip | src/main/kotlin/decoder/ManualKotlinMapJsonDecoder.kt:24 | the lambda of tag "d" reads back a window set iff none of its icons is `Unknown` |
| RoundTrip.DrawCommandsRoundTrip | src/main/kotlin/decoder/ManualKotlinMapJsonDecoder.kt:25-30 | the lambda of tag "e" reads back the target and every command iff no command draws an `Unknown` id |
| RoundTrip.CaretInfoChangedRoundTrip | src/main/kotlin/decoder/ManualKotlinMapJsonDecoder.kt:31 | the `seMap` lambda of tag "f" reads back every field of its event |
| RoundTrip.MarkdownShowRoundTrip | src/main/kotlin/decoder/ManualKotlinMapJsonDecoder.kt:32 | the `seMap` lambda of tag "g" reads back every field of its Markdown event |
| RoundTrip.MarkdownResizeRoundTrip | src/main/kotlin/decoder/ManualKotlinMapJsonDecoder.kt:33-38 | the `seMap` lambda of tag "h" reads back every field of its Markdown event |
| RoundTrip.MarkdownMoveRoundTrip | src/main/kotlin/decoder/ManualKotlinMapJsonDecoder.kt:39 | the `seMap` lambda of tag "i" reads back every field of its Markdown event |
| RoundTrip.MarkdownDisposeRoundTrip | src/main/kotlin/decoder/ManualKotlinMapJsonDecoder.kt:40 | the `seMap` lambda of tag "j" reads back every field of its Markdown event |
| RoundTrip.MarkdownPlaceToWindowRoundTrip | src/main/kotlin/decoder/ManualKotlinMapJsonDecoder.kt:41 | the `seMap` lambda of tag "k" reads back every field of its Markdown event |
| RoundTrip.MarkdownSetHtmlRoundTrip | src/main/kotlin/decoder/ManualKotlinMapJsonDecoder.kt:42 | the `seMap` lambda of tag "l" reads back every field of its Markdown event |
| RoundTrip.MarkdownSetCssRoundTrip | src/main/kotlin/decoder/ManualKotlinMapJsonDecoder.kt:43 | the `seMap` lambda of tag "m" reads back every field of its Markdown event |
| RoundTrip.MarkdownScrollRoundTrip | src/main/kotlin/decoder/ManualKotlinMapJsonDecoder.kt:44 | the `seMap` lambda of tag "n" reads back every field of its Markdown event |
| RoundTrip.MarkdownBrowseUriRoundTrip | src/main/kotlin/decoder/ManualKotlinMapJsonDecoder.kt:45 | the `seMap` lambda of tag "o" reads back every field of its Markdown event |
| RoundTrip.MarkdownRoundTrip | src/main/kotlin/decoder/ManualKotlinMapJsonDecoder.kt:32-45 | every Markdown event reads back through the lambda of its tag |
| RoundTrip.EventRoundTrip | src/main/kotlin/decoder/ManualKotlinMapJsonDecoder.kt:15-54 | an event without `Unknown` ids and with an empty colour map reads back; a colour event reads back with its map emptied; any other event fails with the tag-"c" rejection |
| RoundTrip.EventRoundTripExactly | src/main/kotlin/decoder/ManualKotlinMapJsonDecoder.kt:15-54 | an event reads back unchanged iff it has no `Unknown` id and no non-empty colour map |
| RoundTrip.BatchRoundTrip | src/main/kotlin/decoder/ManualKotlinMapJsonDecoder.kt:10-13 | a batch reads back unchanged iff each of its events does |

## Left out

- Reading the batch from text (`JSON.parse`): the model starts from the parsed tree `JsonTree.Wire`.
- Double precision:
  - JSON numbers are modelled as exact reals, so no rounding happens when a number is read;
  - `roundToLong` is modelled on reals with Kotlin/JS's saturation at the Long range.
- JsonTree.AsInt: the cast is stricter than Kotlin/JS.
  - `as Int` is accepted only for a whole number in the 32-bit range.
  - Depending on the backend, Kotlin/JS's own check of a number cast can be weaker and may let a fractional or out-of-range number through; the model does not follow such values.
- JsonTree.AsShort: is stricter than Kotlin/JS in the same way, for the 16-bit range.
- JsonTree.NumberElement: an element of an array read as `Array<Double>` or `Array<Float>` must be a number.
  - The source's `unsafeCast<Array<Double>>().toList()` (lines 247 and 341) and `unsafeCast<Array<Float>?>()?.toList()` (line 367) copy whatever the array holds.
  - So `[["e", {"a": ["a", 1], "b": [["p", {"a": ["x", null]}]]}]]` decodes in the source, but fails in the model with a type mismatch on "element".
  - The model's transform and dash lists hold numbers only (`seq<real>`), so they cannot carry the other values.
- JsonTree.Pair: a pair must be a JSON array.
  - The source indexes whatever value it is given: `"p"[0]` is "p" and `"p"[1]` is `undefined`, so the batch `["p"]` decodes in the source to one `ServerWindowColorsEvent`. In the model it fails.
  - An object with a key "0" holding a string would likewise be read as a pair by the source.
- ManualKotlinMapJsonDecoder.Decode: a batch that is not a JSON array fails. The source's `map` over a string would walk its characters.
- JsonTree.Field: reading a key of anything other than an object fails.
  - JavaScript would read a property of a string, number or array as `undefined` (or as the array's element), where the model reports a type mismatch.
- Error messages:
  - An `IllegalArgumentException` is modelled as `Unsupported(prefix, tag)`, keeping the message's fixed prefix and the offending tag or enum string.
  - The `JSON.stringify` of the whole pair is not reproduced, and neither is the literal "$$" in the image-data message.
  - A failed cast is modelled as `TypeMismatch(key, expected, actual kind)`, not as a JavaScript `ClassCastException` text.
- The lambda maps `seMap` and `sweMap` are modelled as maps from tags to entries of a datatype, one entry per lambda; invoking an entry is a `match`.
- Equality of `ImageId`, `CaretInfo` and `CommonIntSize` is Dafny's structural equality, which is what the Kotlin data classes provide.
- `KotlinxJsonDecoder.kt` and `KotlinxDopJsonDecoder.kt` (the library-based decoders) are not part of this model.
- `Decoder.kt` (the interface), `Main.kt` (benchmark I/O and clocks), `Font.kt` and the build file are not part of this model.
