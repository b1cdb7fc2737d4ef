/**
 * The request and response surface shared by the two route handlers: the
 * values `formData.get(name)` can return, how the handlers read them, and
 * the JSON responses they build with `NextResponse.json`.
 */
module Http {
  import opened Options
  import opened Json

  type Byte = x: int | 0 <= x < 256

  /** A multipart form field: a text value, or an uploaded file with its bytes. */
  datatype FormEntry = Text(value: string) | File(bytes: seq<Byte>)

  /** Truthiness of `formData.get(name)`: a missing field (null) and the empty text are falsy; a file object never is. */
  predicate FieldTruthy(field: Option<FormEntry>) {
    match field
    case None => false
    case Some(Text(v)) => v != ""
    case Some(File(_)) => true
  }

  /** What `String(formData.get(name))` yields, which is what `JSON.parse` and `${...}` see: null becomes "null". */
  function FieldText(field: Option<FormEntry>): string {
    match field
    case None => "null"
    case Some(Text(v)) => v
    case Some(File(_)) => "[object File]"
  }

  /** The platform selector as the services compare it with "openai": only a text field can equal a string. */
  function PlatformValue(field: Option<FormEntry>): Option<string> {
    match field
    case Some(Text(v)) => Some(v)
    case _ => None
  }

  /** A response built by `NextResponse.json(body, { status })`. */
  datatype Response = Response(status: int, body: Json)

  /** `NextResponse.json({ error: message }, { status })`. */
  function ErrorResponse(status: int, message: string): Response {
    Response(status, JObject(map["error" := JString(message)]))
  }
}
