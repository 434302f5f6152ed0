/**
 * The parts of JavaScript's value semantics the frontend code relies on:
 * truthiness, property access that yields `undefined`, `typeof`, object
 * spread, template-literal text, and string length in UTF-16 code units.
 * Numbers are integers here; NaN, infinities and fractions are outside the model.
 */
module JsModel {

  /** A JavaScript value. An object is its list of own properties, in insertion order, keys distinct. */
  datatype JsValue =
    | Undefined
    | Null
    | Bool(b: bool)
    | Number(n: int)
    | Str(s: string)
    | Array(elements: seq<JsValue>)
    | Object(props: seq<Prop>)

  datatype Prop = Prop(key: string, value: JsValue)

  /** `!!v` */
  predicate Truthy(v: JsValue) {
    match v
    case Undefined => false
    case Null => false
    case Bool(b) => b
    case Number(n) => n != 0
    case Str(s) => s != ""
    case Array(_) => true
    case Object(_) => true
  }

  /**
   * `v?.[key]` on an object's own properties: `undefined` when absent or when
   * `v` is not an object. Plain `v.key` agrees with it except on `null` and
   * `undefined`, where it throws (see `Nullish`).
   */
  function Get(v: JsValue, key: string): (r: JsValue)
    ensures !v.Object? ==> r == Undefined
    ensures r != Undefined ==> exists p :: p in v.props && p.key == key && p.value == r
  {
    if v.Object? then Lookup(v.props, key) else Undefined
  }

  /** `null` and `undefined`: reading a property of either with plain `.` throws a `TypeError`. */
  predicate Nullish(v: JsValue) {
    v.Undefined? || v.Null?
  }

  /** The `TypeError` such a read throws, as a `catch` clause receives it: an object with neither `status` nor `data`. */
  const ThrownTypeError: JsValue := Object([Prop("name", Str("TypeError"))])

  function Lookup(props: seq<Prop>, key: string): (r: JsValue)
    ensures r != Undefined ==> exists p :: p in props && p.key == key && p.value == r
  {
    if props == [] then Undefined
    else if props[0].key == key then props[0].value
    else Lookup(props[1..], key)
  }

  /** `typeof v` */
  function TypeOf(v: JsValue): string {
    match v
    case Undefined => "undefined"
    case Null => "object"
    case Bool(_) => "boolean"
    case Number(_) => "number"
    case Str(_) => "string"
    case Array(_) => "object"
    case Object(_) => "object"
  }

  /** `Array.isArray(v)` */
  predicate IsArray(v: JsValue) {
    v.Array?
  }

  /** The decimal text of an integer, as `String(n)` prints it. */
  function IntToString(n: int): (r: string)
    ensures r != []
    decreases if n < 0 then 1 - n else n
  {
    if n < 0 then "-" + IntToString(-n)
    else if n < 10 then [DigitChar(n)]
    else IntToString(n / 10) + [DigitChar(n % 10)]
  }

  function DigitChar(d: int): char
    requires 0 <= d < 10
  {
    "0123456789"[d]
  }

  /** `{...v}`: the own enumerable properties of `v` copied into a fresh object. */
  function Spread(v: JsValue): (r: JsValue)
    ensures r.Object?
    ensures v.Object? ==> r == v
    ensures !Truthy(v) && !v.Str? ==> r == Object([])
  {
    match v
    case Object(props) => Object(props)
    case Str(s) => Object(seq(|s|, i requires 0 <= i < |s| => Prop(IntToString(i), Str([s[i]]))))
    case Array(elements) => Object(seq(|elements|, i requires 0 <= i < |elements| => Prop(IntToString(i), elements[i])))
    case _ => Object([])
  }

  /** `${v}` in a template literal. */
  function TemplateText(v: JsValue): string {
    match v
    case Undefined => "undefined"
    case Null => "null"
    case Bool(b) => if b then "true" else "false"
    case Number(n) => IntToString(n)
    case Str(s) => s
    case Array(elements) => JoinElements(elements)
    case Object(_) => "[object Object]"
  }

  /** `elements.join(",")`, where `null` and `undefined` print as nothing. */
  function JoinElements(elements: seq<JsValue>): string
    decreases elements
  {
    if elements == [] then ""
    else
      var head := if elements[0].Undefined? || elements[0].Null? then "" else TemplateText(elements[0]);
      if |elements| == 1 then head else head + "," + JoinElements(elements[1..])
  }

  /** `s.length`: characters outside the Basic Multilingual Plane count as two UTF-16 code units. */
  function Utf16Length(s: string): (r: nat)
    ensures |s| <= r <= 2 * |s|
  {
    if s == [] then 0 else (if s[0] as int > 0xFFFF then 2 else 1) + Utf16Length(s[1..])
  }

  /** `[a-zA-Z]` */
  predicate IsAsciiLetter(c: char) {
    ('a' <= c <= 'z') || ('A' <= c <= 'Z')
  }

  /** `\d`: only the ASCII digits. */
  predicate IsAsciiDigit(c: char) {
    '0' <= c <= '9'
  }

  /** `\s`: the white space and line terminator characters of ECMAScript regular expressions. */
  predicate IsJsWhitespace(c: char) {
    c == ' ' || c == '\t' || c == '\n' || c == '\U{000B}' || c == '\U{000C}' || c == '\r'
    || c == '\U{00A0}' || c == '\U{1680}' || ('\U{2000}' <= c <= '\U{200A}')
    || c == '\U{2028}' || c == '\U{2029}' || c == '\U{202F}' || c == '\U{205F}'
    || c == '\U{3000}' || c == '\U{FEFF}'
  }

  /** Some character of `s` satisfies `p`: an unanchored one-class `regex` test. */
  predicate Contains(s: string, p: char -> bool) {
    exists i :: 0 <= i < |s| && p(s[i])
  }

  /** Every character of `s` satisfies `p` and there is one: `^[…]+$`. */
  predicate OnlyOf(s: string, p: char -> bool) {
    s != [] && forall i :: 0 <= i < |s| ==> p(s[i])
  }

  /** One entry of a zod error list: the field it belongs to and its message. */
  datatype Issue = Issue(path: string, message: string)

  /** One zod check on the field `path`: no issue when it holds, its message when it fails. */
  function Check(ok: bool, path: string, message: string): (r: seq<Issue>)
    ensures r == [] <==> ok
    ensures forall i | i in r :: i == Issue(path, message)
  {
    if ok then [] else [Issue(path, message)]
  }

  /** An issue is reported by a check exactly when the check fails and the issue is its own. */
  lemma InCheck(x: Issue, ok: bool, path: string, message: string)
    ensures x in Check(ok, path, message) <==> !ok && x == Issue(path, message)
  {
  }

  /** The part of a browser `File` the forms look at: its name, MIME type and size in bytes. */
  datatype FileMeta = FileMeta(name: string, mimeType: string, size: nat)

  /** A toast notification. */
  datatype Toast = Success(text: string) | Error(text: string)

  /** How an awaited request ended: `unwrap()` returned the response or threw the error. */
  datatype Settled = Fulfilled(response: JsValue) | Rejected(error: JsValue)

  /** `${err?.data?.error}`: the text of an error toast. */
  function ErrorToastText(err: JsValue): (r: string)
    ensures Get(Get(err, "data"), "error").Str? ==> r == Get(Get(err, "data"), "error").s
    ensures !Get(err, "data").Object? ==> r == "undefined"
  {
    TemplateText(Get(Get(err, "data"), "error"))
  }
}
