/**
 * The records, sum types and enumerations of package `protocol.data` that the
 * decoder builds. ImageId, CommonIntSize, PaintType and CaretInfo follow their
 * declarations; the other types are declared outside this model, so their
 * fields are those the decoder's constructor calls pass, in that order, and
 * their tags are those the decoder dispatches on. Every value is immutable
 * and compared structurally, as a Kotlin data class or enum is.
 */
module ProtocolData {
  import opened Wrappers
  import opened KotlinNumbers

  datatype Point = Point(x: real, y: real)

  datatype CommonRectangle = CommonRectangle(x: real, y: real, width: real, height: real)

  /** Two Ints: width, then height. */
  datatype CommonIntSize = CommonIntSize(width: Int32, height: Int32)

  /** A plain record of one Point; it has no tag of its own. */
  datatype CaretInfo = CaretInfo(locationInWindow: Point)

  datatype ImageId =
    | BufferedImageId(identityHash: Int32, stateHash: Int32)
    | PVolatileImageId(id: Int64)
    | Unknown(className: string)

  function ImageIdTag(id: ImageId): string {
    match id
    case BufferedImageId(_, _) => "a"
    case PVolatileImageId(_) => "b"
    case Unknown(_) => "c"
  }

  datatype ImageData = PngBase64(data: string) | Empty

  function ImageDataTag(d: ImageData): string {
    match d
    case PngBase64(_) => "a"
    case Empty => "b"
  }

  datatype PaintType = DRAW | FILL

  /** The enum's values in declaration order. */
  const PaintTypes: seq<PaintType> := [DRAW, FILL]

  function PaintTypeTag(p: PaintType): string {
    match p
    case DRAW => "a"
    case FILL => "b"
  }

  datatype PaintValue =
    | Color(argb: Int32)
    | Gradient(p1: Point, p2: Point, color1: Int32, color2: Int32)
    | Unknown(className: string)

  function PaintValueTag(p: PaintValue): string {
    match p
    case Color(_) => "a"
    case Gradient(_, _, _, _) => "b"
    case Unknown(_) => "c"
  }

  /** `PaintValue.Color`, the value type of a window colour map. */
  type ColorValue = p: PaintValue | p.Color? witness Color(0)

  datatype WindowType = WINDOW | POPUP | IDEA_WINDOW

  function WindowTypeTag(t: WindowType): string {
    match t
    case WINDOW => "a"
    case POPUP => "b"
    case IDEA_WINDOW => "c"
  }

  datatype CursorType =
    | DEFAULT | CROSSHAIR | TEXT | WAIT
    | SW_RESIZE | SE_RESIZE | NW_RESIZE | NE_RESIZE
    | N_RESIZE | S_RESIZE | W_RESIZE | E_RESIZE
    | HAND | MOVE

  function CursorTypeTag(c: CursorType): string {
    match c
    case DEFAULT => "a"
    case CROSSHAIR => "b"
    case TEXT => "c"
    case WAIT => "d"
    case SW_RESIZE => "e"
    case SE_RESIZE => "f"
    case NW_RESIZE => "g"
    case NE_RESIZE => "h"
    case N_RESIZE => "i"
    case S_RESIZE => "j"
    case W_RESIZE => "k"
    case E_RESIZE => "l"
    case HAND => "m"
    case MOVE => "n"
  }

  datatype WindowData = WindowData(
    id: Int32,
    title: Option<string>,
    iconIds: seq<ImageId>,
    focused: bool,
    order: Int32,
    bounds: CommonRectangle,
    cursorType: Option<CursorType>,
    alwaysOnTop: bool,
    noTitle: bool,
    fullscreen: bool,
    windowType: WindowType,
    parentId: Option<Int32>)

  datatype AlphaCompositeRule =
    | SRC_OVER | DST_OVER | SRC_IN | CLEAR | SRC | DST
    | DST_IN | SRC_OUT | DST_OUT | SRC_ATOP | DST_ATOP | XOR

  function AlphaCompositeRuleTag(r: AlphaCompositeRule): string {
    match r
    case SRC_OVER => "a"
    case DST_OVER => "b"
    case SRC_IN => "c"
    case CLEAR => "d"
    case SRC => "e"
    case DST => "f"
    case DST_IN => "g"
    case SRC_OUT => "h"
    case DST_OUT => "i"
    case SRC_ATOP => "j"
    case DST_ATOP => "k"
    case XOR => "l"
  }

  datatype CommonComposite =
    | CommonAlphaComposite(rule: AlphaCompositeRule, extraAlpha: real)
    | UnknownComposite(className: string)

  function CommonCompositeTag(c: CommonComposite): string {
    match c
    case CommonAlphaComposite(_, _) => "a"
    case UnknownComposite(_) => "b"
  }

  datatype JoinType = MITER | ROUND | BEVEL

  function JoinTypeTag(j: JoinType): string {
    match j
    case MITER => "a"
    case ROUND => "b"
    case BEVEL => "c"
  }

  datatype CapType = BUTT | ROUND | SQUARE

  function CapTypeTag(c: CapType): string {
    match c
    case BUTT => "a"
    case ROUND => "b"
    case SQUARE => "c"
  }

  /** `StrokeData`, whose one variant is `Basic` (tag "a"); the dash list is nullable. */
  datatype StrokeData = Basic(
    lineWidth: real,
    join: JoinType,
    cap: CapType,
    miterLimit: real,
    dashPhase: real,
    dashList: Option<seq<real>>)

  function StrokeDataTag(s: StrokeData): string {
    "a"
  }

  datatype WindingType = EVEN_ODD | NON_ZERO

  function WindingTypeTag(w: WindingType): string {
    match w
    case EVEN_ODD => "a"
    case NON_ZERO => "b"
  }

  datatype PathSegment =
    | MoveTo(point: Point)
    | LineTo(point: Point)
    | QuadTo(point1: Point, point2: Point)
    | CubicTo(point1: Point, point2: Point, point3: Point)
    | Close

  function PathSegmentTag(s: PathSegment): string {
    match s
    case MoveTo(_) => "a"
    case LineTo(_) => "b"
    case QuadTo(_, _) => "c"
    case CubicTo(_, _, _) => "d"
    case Close => "e"
  }

  datatype CommonPath = CommonPath(segments: seq<PathSegment>, winding: WindingType)

  /** `CommonShape`, the supertype of CommonRectangle ("a") and CommonPath ("b"). */
  datatype CommonShape = RectangleShape(rectangle: CommonRectangle) | PathShape(path: CommonPath)

  function CommonShapeTag(s: CommonShape): string {
    match s
    case RectangleShape(_) => "a"
    case PathShape(_) => "b"
  }

  datatype ImageEventInfo =
    | Xy(x: Int32, y: Int32, argbBackgroundColor: Option<Int32>)
    | XyWh(x: Int32, y: Int32, width: Int32, height: Int32, argbBackgroundColor: Option<Int32>)
    | Ds(dx1: Int32, dy1: Int32, dx2: Int32, dy2: Int32,
         sx1: Int32, sy1: Int32, sx2: Int32, sy2: Int32,
         argbBackgroundColor: Option<Int32>)
    | Transformed(tx: seq<real>)

  function ImageEventInfoTag(i: ImageEventInfo): string {
    match i
    case Xy(_, _, _) => "a"
    case XyWh(_, _, _, _, _) => "b"
    case Ds(_, _, _, _, _, _, _, _, _) => "c"
    case Transformed(_) => "d"
  }
}
