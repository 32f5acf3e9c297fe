/**
 * The generic value tree that `JSON.parse` produces, the checked accessors by
 * which the decoder reads it (Kotlin's `as T`, `as T?` and `unsafeCast`
 * followed by a property or index read), and the wire conventions shared by
 * every type: a sum-type value is a `[tag, content]` pair and a record is an
 * object whose i-th declared field sits under the i-th letter (`LetterKey`).
 */
module JsonTree {
  import opened Wrappers
  import opened KotlinNumbers

  /** A parsed JSON value. Numbers are doubles on the wire; here they are reals. */
  datatype Wire =
    | Null
    | Bool(b: bool)
    | Num(n: real)
    | Str(s: string)
    | Arr(items: seq<Wire>)
    | Obj(fields: map<string, Wire>)

  datatype Kind = NullKind | BoolKind | NumberKind | StringKind | ArrayKind | ObjectKind

  function KindOf(w: Wire): Kind {
    match w
    case Null => NullKind
    case Bool(_) => BoolKind
    case Num(_) => NumberKind
    case Str(_) => StringKind
    case Arr(_) => ArrayKind
    case Obj(_) => ObjectKind
  }

  /** What a cast asked for. */
  datatype Want = WantInt | WantShort | WantNumber | WantBool | WantString | WantArray | WantObject

  /**
   * Why a decode stopped. `TypeMismatch` is a failed cast or member access
   * (`actual` is None when the key or element is absent); `Unsupported` is
   * the IllegalArgumentException a dispatch throws, with the message's fixed
   * prefix and the offending tag or enum string.
   */
  datatype DecodeError =
    | TypeMismatch(at: string, expected: Want, actual: Option<Kind>)
    | Unsupported(message: string, tag: string)

  type Decoded<T> = Result<T, DecodeError>

  function Mismatch<T>(at: string, expected: Want, v: Option<Wire>): Decoded<T> {
    Failure(TypeMismatch(at, expected, if v.Some? then Some(KindOf(v.value)) else None))
  }

  /**
   * `content[key]` on a value the decoder treats as a JSON object: None when
   * the key is absent (JavaScript's `undefined`); reading a property of
   * anything but an object fails.
   */
  function Field(content: Wire, key: string): Decoded<Option<Wire>> {
    match content
    case Obj(m) => Success(if key in m then Some(m[key]) else None)
    case _ => Failure(TypeMismatch(key, WantObject, Some(KindOf(content))))
  }

  /** True when `n` is a whole number in [lo, hi). */
  predicate WholeIn(n: real, lo: int, hi: int) {
    n == n.Floor as real && lo <= n.Floor < hi
  }

  /** `v as Int`. */
  function AsInt(at: string, v: Option<Wire>): Decoded<Int32> {
    match v
    case Some(Num(n)) =>
      if WholeIn(n, -0x8000_0000, 0x8000_0000) then Success(n.Floor) else Mismatch(at, WantInt, v)
    case _ => Mismatch(at, WantInt, v)
  }

  /** `v as Short`. */
  function AsShort(at: string, v: Option<Wire>): Decoded<Int16> {
    match v
    case Some(Num(n)) =>
      if WholeIn(n, -0x8000, 0x8000) then Success(n.Floor) else Mismatch(at, WantShort, v)
    case _ => Mismatch(at, WantShort, v)
  }

  /** `v as Double` and `v as Float`: any number. */
  function AsNumber(at: string, v: Option<Wire>): Decoded<real> {
    match v
    case Some(Num(n)) => Success(n)
    case _ => Mismatch(at, WantNumber, v)
  }

  /** `v as Boolean`. */
  function AsBool(at: string, v: Option<Wire>): Decoded<bool> {
    match v
    case Some(Bool(b)) => Success(b)
    case _ => Mismatch(at, WantBool, v)
  }

  /** `v as String`. */
  function AsString(at: string, v: Option<Wire>): Decoded<string> {
    match v
    case Some(Str(s)) => Success(s)
    case _ => Mismatch(at, WantString, v)
  }

  /** `v.unsafeCast<Array<...>>()` before the array is used. */
  function AsArray(at: string, v: Option<Wire>): Decoded<seq<Wire>> {
    match v
    case Some(Arr(items)) => Success(items)
    case _ => Mismatch(at, WantArray, v)
  }

  /**
   * A nullable read (`v as T?`, or `?.` after an `unsafeCast<...?>`):
   * absence and null both give None; any other value goes through `cast`.
   */
  function Nullable<T>(v: Option<Wire>, cast: Wire -> Decoded<T>): (r: Decoded<Option<T>>)
    ensures v == None || v == Some(Null) ==> r == Success(None)
    ensures v.Some? && v.value != Null ==>
      (r.Success? <==> cast(v.value).Success?) &&
      (r.Success? ==> r == Success(Some(cast(v.value).value))) &&
      (r.Failure? ==> r.error == cast(v.value).error)
  {
    match v
    case None => Success(None)
    case Some(Null) => Success(None)
    case Some(w) =>
      var x :- cast(w);
      Success(Some(x))
  }

  function GetInt(content: Wire, key: string): Decoded<Int32> {
    var v :- Field(content, key);
    AsInt(key, v)
  }

  function GetShort(content: Wire, key: string): Decoded<Int16> {
    var v :- Field(content, key);
    AsShort(key, v)
  }

  function GetNumber(content: Wire, key: string): Decoded<real> {
    var v :- Field(content, key);
    AsNumber(key, v)
  }

  function GetBool(content: Wire, key: string): Decoded<bool> {
    var v :- Field(content, key);
    AsBool(key, v)
  }

  function GetString(content: Wire, key: string): Decoded<string> {
    var v :- Field(content, key);
    AsString(key, v)
  }

  function GetList(content: Wire, key: string): Decoded<seq<Wire>> {
    var v :- Field(content, key);
    AsArray(key, v)
  }

  /** A field the decoder hands on whole to a nested `toX` (a pair or an object); it must be there. */
  function GetPresent(content: Wire, key: string, expected: Want): Decoded<Wire> {
    var v :- Field(content, key);
    if v.Some? then Success(v.value) else Mismatch(key, expected, v)
  }

  function GetOptInt(content: Wire, key: string): Decoded<Option<Int32>> {
    var v :- Field(content, key);
    Nullable(v, (w: Wire) => AsInt(key, Some(w)))
  }

  function GetOptShort(content: Wire, key: string): Decoded<Option<Int16>> {
    var v :- Field(content, key);
    Nullable(v, (w: Wire) => AsShort(key, Some(w)))
  }

  function GetOptString(content: Wire, key: string): Decoded<Option<string>> {
    var v :- Field(content, key);
    Nullable(v, (w: Wire) => AsString(key, Some(w)))
  }

  /** An element of an `Array<Double>` or `Array<Float>` copied by `toList()`. */
  function NumberElement(w: Wire): Decoded<real> {
    AsNumber("element", Some(w))
  }

  /** A `[tag, content]` pair once read with `this[0] as String` and `this[1]`. */
  datatype TaggedContent = TaggedContent(tag: string, content: Wire)

  /**
   * `this[0] as String` and `this[1].unsafeCast<Json>()` on a pair. Elements
   * after the second are never read. A missing second element is JavaScript's
   * `undefined`, which fails any later property read exactly as null does, so
   * it is read as null.
   */
  function Pair(w: Wire): Decoded<TaggedContent> {
    match w
    case Arr(items) =>
      if |items| == 0 then Mismatch("0", WantString, None)
      else if !items[0].Str? then Mismatch("0", WantString, Some(items[0]))
      else Success(TaggedContent(items[0].s, if |items| >= 2 then items[1] else Null))
    case _ => Mismatch("pair", WantArray, Some(w))
  }

  /** Element `i` is the first of `items` that `f` rejects. */
  ghost predicate FirstFailure<T>(items: seq<Wire>, f: Wire -> Decoded<T>, i: int) {
    && 0 <= i < |items|
    && f(items[i]).Failure?
    && forall j :: 0 <= j < i ==> f(items[j]).Success?
  }

  /** `Array.map { f(it) }`: every element in order; the first element that fails fails the whole list. */
  function DecodeAll<T>(items: seq<Wire>, f: Wire -> Decoded<T>): (r: Decoded<seq<T>>)
    ensures r.Success? <==> forall i :: 0 <= i < |items| ==> f(items[i]).Success?
    ensures r.Success? ==> |r.value| == |items|
    ensures r.Success? ==> forall i :: 0 <= i < |items| ==> r.value[i] == f(items[i]).value
    ensures r.Failure? ==>
      exists i :: FirstFailure(items, f, i) && r.error == f(items[i]).error
  {
    if |items| == 0 then Success([])
    else
      var head :- f(items[0]);
      var tail :- DecodeAll(items[1..], f);
      Success([head] + tail)
  }

  /** Mapping over a concatenation is concatenating the mapped halves; it fails when either half fails. */
  lemma {:induction false} DecodeAllConcat<T>(xs: seq<Wire>, ys: seq<Wire>, f: Wire -> Decoded<T>)
    ensures DecodeAll(xs + ys, f).Success? <==> DecodeAll(xs, f).Success? && DecodeAll(ys, f).Success?
    ensures DecodeAll(xs + ys, f).Success? ==>
      DecodeAll(xs + ys, f).value == DecodeAll(xs, f).value + DecodeAll(ys, f).value
  {
    if |xs| == 0 {
      assert xs + ys == ys;
    } else {
      assert (xs + ys)[0] == xs[0];
      assert (xs + ys)[1..] == xs[1..] + ys;
      DecodeAllConcat(xs[1..], ys, f);
      if DecodeAll(xs + ys, f).Success? {
        assert [f(xs[0]).value] + (DecodeAll(xs[1..], f).value + DecodeAll(ys, f).value)
            == ([f(xs[0]).value] + DecodeAll(xs[1..], f).value) + DecodeAll(ys, f).value;
      }
    }
  }

  /** The single-letter key given to the field or variant at position `i` (0 is "a"). */
  function LetterKey(i: nat): string
    requires i < 26
  {
    [(('a' as int) + i) as char]
  }

  /** A sum-type value on the wire: a two-element array of its tag and its content. */
  function Tagged(tag: string, content: Wire): Wire {
    Arr([Str(tag), content])
  }

  /** A two-element tagged array reads back as its tag and content. */
  lemma TaggedPair(tag: string, content: Wire)
    ensures Pair(Tagged(tag, content)) == Success(TaggedContent(tag, content))
  {
  }
}
