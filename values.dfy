/** The values that flow through the fetch-logging core: JSON documents, request bodies,
    request targets, responses, and the log entries built from them. */
module Values {

  datatype Option<+T> = None | Some(value: T)

  /** The JavaScript `undefined` value, used where the source passes no payload
      (`ok()`, `fail()`). */
  datatype Undefined = Undefined

  /** A parsed JSON document. Numbers are kept as integers (see README). */
  datatype Json =
    | JNull
    | JBool(b: bool)
    | JNumber(n: int)
    | JString(s: string)
    | JArray(items: seq<Json>)
    | JObject(members: seq<(string, Json)>)

  /** `JSON.parse`, seen from outside: a partial function from text to a document,
      `None` standing for "throws a SyntaxError". */
  type Parser = string -> Option<Json>

  /** A request body (`BodyInit | null`): either text, or any non-string value
      (a Blob, FormData, URLSearchParams, a stream, `null`, ...) named by its kind. */
  datatype Body = TextBody(text: string) | OtherBody(kind: string)

  /** The `init` argument of a fetch call, reduced to the two fields the logger reads. */
  datatype RequestInit = RequestInit(httpMethod: Option<string>, body: Option<Body>)

  /** A fetch response, reduced to the fields the logger reads directly. */
  datatype Response = Response(url: string, status: int)

  /** The first argument of a fetch call (`URL | RequestInfo`): a string, a `URL`
      object, or a `Request` object, each with the URL it addresses. */
  datatype RequestTarget = UrlString(s: string) | UrlObject(href: string) | RequestObject(url: string)

  /** The `input` field of a log entry: absent, the parsed request body, or the raw body. */
  datatype Input = NoInput | ParsedInput(json: Json) | RawInput(raw: Body)

  /** One log entry (`ApiLogContextEntry`). */
  datatype Entry = Entry(url: string, httpMethod: Option<string>, status: int, input: Input, output: Option<Json>)
}
