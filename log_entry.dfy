/** Building one log entry from a response, the request init and the outcome of reading
    the response body, with the JSON-parse fallbacks. */
module LogEntries {
  import opened Values
  import opened Results

  /** `req?.body`: absent when there is no init or it has no body. */
  function RequestBody(req: Option<RequestInit>): Option<Body>
  {
    if req.Some? then req.value.body else None
  }

  /** `req?.method`. */
  function RequestMethod(req: Option<RequestInit>): Option<string>
  {
    if req.Some? then req.value.httpMethod else None
  }

  /** The response text as an untyped value: `undefined` when the read failed. */
  function BodyText(resultBody: Option<string>): Option<Body>
  {
    if resultBody.Some? then Some(TextBody(resultBody.value)) else None
  }

  /** `tryParseJson(data)`: succeeds exactly when `data` is a string that parses,
      carrying the parsed document; every other value, and every parse error, is `fail()`. */
  function TryParseJson(parse: Parser, data: Option<Body>): (r: Result<Json, Undefined>)
    ensures r.Success? <==> data.Some? && data.value.TextBody? && parse(data.value.text).Some?
    ensures r.Success? ==> Some(r.data) == parse(data.value.text)
    ensures r.Failure? ==> r == Fail(Undefined)
  {
    match data
    case Some(TextBody(text)) =>
      (match parse(text)
       case Some(json) => Ok(json)
       case None => Fail(Undefined))
    case _ => Fail(Undefined)
  }

  /** `createLogEntry(url, res, req)`, with the read of the cloned response body given as
      `resultBody` (`None` when the read threw). */
  function CreateLogEntry(parse: Parser, url: string, res: Response, req: Option<RequestInit>,
                          resultBody: Option<string>): (e: Entry)
    ensures e.url == url && e.status == res.status
    ensures e.httpMethod == (if req.Some? then req.value.httpMethod else None)
    // input: the parsed request body when it is text that parses ...
    ensures e.input.ParsedInput? <==>
              req.Some? && req.value.body.Some? && req.value.body.value.TextBody? &&
              parse(req.value.body.value.text).Some?
    ensures e.input.ParsedInput? ==> parse(req.value.body.value.text) == Some(e.input.json)
    // ... otherwise the raw body, or nothing when there is no body at all
    ensures e.input.NoInput? <==> req.None? || req.value.body.None?
    ensures e.input.RawInput? ==> req.Some? && req.value.body == Some(e.input.raw)
    // output: the parsed response text when the read succeeded and the text parses
    ensures e.output.Some? <==> resultBody.Some? && parse(resultBody.value).Some?
    ensures e.output.Some? ==> parse(resultBody.value) == e.output
  {
    var body := TryParseJson(parse, RequestBody(req));
    var result := TryParseJson(parse, BodyText(resultBody));
    Entry(url := url,
          httpMethod := RequestMethod(req),
          status := res.status,
          input := if body.Success? then ParsedInput(body.data)
                   else if RequestBody(req).Some? then RawInput(RequestBody(req).value)
                   else NoInput,
          output := if result.Success? then Some(result.data) else None)
  }

  /** A failed body read does not propagate: the entry is the one a successful read would
      give, with the output left out. */
  lemma FailedReadOnlyDropsOutput(parse: Parser, url: string, res: Response, req: Option<RequestInit>,
                                  text: string)
    ensures CreateLogEntry(parse, url, res, req, None)
         == CreateLogEntry(parse, url, res, req, Some(text)).(output := None)
  {
  }

  /** Text that does not parse is logged exactly like a failed read. */
  lemma UnparsableOutputIsAbsent(parse: Parser, url: string, res: Response, req: Option<RequestInit>,
                                 text: string)
    requires parse(text).None?
    ensures CreateLogEntry(parse, url, res, req, Some(text)) == CreateLogEntry(parse, url, res, req, None)
  {
  }
}
