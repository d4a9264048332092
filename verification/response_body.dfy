/**
 * What the funder sends back, and how the handler turns it into a body it
 * can read fields from, whatever content type the funder declared.
 */
module ResponseBody {
  import opened Wrappers
  import opened JsBuiltins

  /**
   * A field value of a parsed body. Strings are kept as they are; any other
   * JSON value (number, boolean, null, array, object) is represented by its
   * JavaScript truthiness and by the text a template literal turns it into.
   */
  datatype Value = Str(s: string) | NonString(truthy: bool, text: string)

  /**
   * A parsed body at the top level: JSON `null`, a value that is not an
   * object (number, boolean, string or array: reading a named field of it
   * gives `undefined`), or an object with string keys.
   */
  datatype Body = NullBody | NonObject | Object(fields: map<string, Value>)

  /**
   * An HTTP response as the handler sees it: whether the status is 2xx, the
   * `content-type` header if any, the body text, and what `JSON.parse` makes
   * of that text (None when it throws). `response.json()` parses the same text.
   */
  datatype Response = Response(ok: bool, contentType: Option<string>, raw: string, parsed: Option<Body>)

  /** JavaScript truthiness of a field read; `undefined` (None) is falsy, so is the empty string. */
  predicate Truthy(v: Option<Value>) {
    match v
    case None => false
    case Some(Str(s)) => s != []
    case Some(NonString(t, _)) => t
  }

  /** JavaScript `a || b`: one of the two operands, the first if it is truthy. */
  function Or(a: Option<Value>, b: Option<Value>): (r: Option<Value>)
    ensures r == a || r == b
    ensures Truthy(a) ==> r == a
    ensures !Truthy(a) ==> r == b
    ensures Truthy(r) <==> Truthy(a) || Truthy(b)
  {
    if Truthy(a) then a else b
  }

  /** The text a template literal makes of a value. */
  function Render(v: Value): string {
    match v
    case Str(s) => s
    case NonString(_, text) => text
  }

  /** `body[key]` for a body that is not `null`: the object's own field, `undefined` otherwise. */
  function Prop(b: Body, key: string): (v: Option<Value>)
    requires !b.NullBody?
    ensures v.Some? <==> b.Object? && key in b.fields
    ensures v.Some? ==> v.value == b.fields[key]
  {
    match b
    case NonObject => None
    case Object(fields) => if key in fields then Some(fields[key]) else None
  }

  /** The response declares JSON: a content-type header is present and contains the media type application/json. */
  predicate DeclaresJson(contentType: Option<string>) {
    contentType.Some? && Includes(contentType.value, "application/json")
  }

  /** The mapping a body that is not JSON is wrapped into: `{ text: raw }`. */
  function TextWrapper(raw: string): Body {
    Object(map["text" := Str(raw)])
  }

  /**
   * The body the handler goes on with, or None when `response.json()` throws.
   * Only a declared-JSON body that does not parse throws; whenever the text
   * parses, the declared content type makes no difference; an undeclared body
   * that does not parse becomes `{ text: raw }`.
   */
  function Normalize(r: Response): (b: Option<Body>)
    ensures b.None? <==> DeclaresJson(r.contentType) && r.parsed.None?
    ensures r.parsed.Some? ==> b == r.parsed
    ensures b.Some? && r.parsed.None? ==> b.value == TextWrapper(r.raw)
  {
    if DeclaresJson(r.contentType) then
      r.parsed
    else
      match r.parsed
      case Some(json) => Some(json)
      case None => Some(TextWrapper(r.raw))
  }
}
