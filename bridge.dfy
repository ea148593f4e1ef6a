/** The `analyze-resume` serverless handler: one request in, one response out,
    decided by a fixed chain of early exits. The outbound call to the AI
    gateway, `response.json()` and `JSON.parse` are not performed here: their
    outcomes are inputs (`upstream`, `parse`), and the handler's result says
    whether the outbound call was issued and with what. */
module Bridge {
  import opened Wrappers
  import opened Text

  type Headers = map<string, string>

  /** The permissive cross-origin headers attached to every response. */
  const CorsHeaders: Headers := map[
    "Access-Control-Allow-Origin" := "*",
    "Access-Control-Allow-Headers" := "authorization, x-client-info, apikey, content-type"]

  /** CORS headers plus the JSON content type, used by every JSON response. */
  const JsonHeaders: Headers := CorsHeaders["Content-Type" := "application/json"]

  /** The single tool the request declares and forces, and the only tool
      call the handler accepts. */
  const ToolName := "analyze_resume"
  const GatewayModel := "google/gemini-3-flash-preview"

  /** The error texts. The longer ones are written as concatenations of
      short pieces, so that facts about their characters can be established
      piece by piece. */
  const MissingFieldsMessage := "Missing required fields: " + "resume, jobDescription, " + "companyName"
  const NotConfiguredMessage := "AI service not configured"
  const RateLimitMessage := "Rate limit exceeded." + " Please try again in a moment."
  const CreditsMessage := "AI credits exhausted." + " Please add funds to continue."
  const InvalidFormatMessage := "Invalid AI response format"
  const UnexpectedMessage := "An unexpected error occurred"
  const GatewayErrorPrefix := "AI gateway error: "

  /** A value thrown inside the handler's try block: an Error instance with
      its message, or anything else. */
  datatype Thrown = ErrorObject(message: string) | OtherValue

  /** A field of the request's JSON body: a string, or absent (undefined or null). */
  type Field = Option<string>

  /** JavaScript truthiness of such a field: present and not the empty
      string. Whitespace-only strings are truthy. */
  predicate Truthy(f: Field) {
    f.Some? && f.value != ""
  }

  /** What `await req.json()` and the destructuring of its result give. */
  datatype RequestBody =
    | Fields(resume: Field, jobDescription: Field, companyName: Field)
    | Unparsable(thrown: Thrown)

  /** The request: its HTTP method and its body. */
  datatype Request = Request(verb: string, body: RequestBody)

  /** The outbound gateway request: the bearer credential, the model, the
      three inputs embedded verbatim in the prompt, and the tool forced by
      `tool_choice`. */
  datatype GatewayCall = GatewayCall(
    authorization: string,
    model: string,
    resume: string,
    jobDescription: string,
    companyName: string,
    forcedTool: string)

  /** What reading a successful gateway reply (`response.json()` and the
      chain `data.choices?.[0]?.message?.tool_calls?.[0]`) gives. */
  datatype GatewayBody =
    | Unreadable(thrown: Thrown)           // `response.json()` rejects
    | NoToolCall                           // the chain yields a falsy value
    | LookupThrew(thrown: Thrown)          // e.g. `data` is null, or the tool call has no `function`
    | ToolCall(name: string, arguments: string)

  /** The outcome of the outbound `fetch`. The body is only read when the
      status is in 200..299. */
  datatype Upstream =
    | FetchRejected(thrown: Thrown)
    | Reply(status: nat, body: GatewayBody)

  /** The outcome of `JSON.parse` on the tool call's arguments followed by
      the read of `analysisResult.atsScore`: a value other than null; null,
      on which that property read throws the TypeError `thrown`; or a parse
      error. */
  datatype Parse<P> = Parsed(value: P) | ParsedNull(thrown: Thrown) | ParseThrew(thrown: Thrown)

  datatype Body<P> = NoBody | ErrorEnvelope(error: string) | Payload(value: P)

  datatype Response<P> = Response(status: nat, headers: Headers, body: Body<P>)

  /** A response, and the outbound gateway request if one was issued. */
  datatype Exchange<P> = Exchange(response: Response<P>, call: Option<GatewayCall>)

  /** The headers hold every CORS entry with its exact value. */
  predicate CarriesCors(h: Headers) {
    forall k :: k in CorsHeaders ==> k in h && h[k] == CorsHeaders[k]
  }

  predicate IsOk(status: nat) {
    200 <= status <= 299
  }

  function JsonError<P>(status: nat, message: string): Response<P> {
    Response(status, JsonHeaders, ErrorEnvelope(message))
  }

  /** The message the catch block reports for a thrown value. */
  function CaughtMessage(t: Thrown): string {
    match t
    case ErrorObject(m) => m
    case OtherValue => UnexpectedMessage
  }

  /** The catch block: every exception becomes a 500 JSON error envelope. */
  function Caught<P>(t: Thrown): (r: Response<P>)
    ensures r.status == 500 && CarriesCors(r.headers) && r.body.ErrorEnvelope?
    ensures t.ErrorObject? ==> r.body.error == t.message
    ensures t.OtherValue? ==> r.body.error == UnexpectedMessage
  {
    JsonHeadersCarryCors();
    JsonError(500, CaughtMessage(t))
  }

  /** The message thrown for a non-ok gateway status other than 429 and 402. */
  function GatewayErrorMessage(status: nat): string {
    GatewayErrorPrefix + NatToDecimal(status)
  }

  /** Reads the status back out of a gateway-error message, if it is one. */
  function GatewayErrorStatus(message: string): Option<nat> {
    var n := |GatewayErrorPrefix|;
    if |message| > n && message[..n] == GatewayErrorPrefix
       && forall i :: n <= i < |message| ==> IsDigit(message[i])
    then Some(DecimalValue(message[n..]))
    else None
  }

  /** The request gets past the pre-flight, body, field and credential checks
      and so makes the outbound call. */
  predicate ReachesGateway(req: Request, apiKey: Option<string>) {
    && req.verb != "OPTIONS"
    && req.body.Fields?
    && Truthy(req.body.resume) && Truthy(req.body.jobDescription) && Truthy(req.body.companyName)
    && Truthy(apiKey)
  }

  /** Everything after the outbound call: status mapping, tool-call shape
      check, argument parsing. */
  function Relay<P>(upstream: Upstream, parse: string -> Parse<P>): (r: Response<P>)
    ensures r.headers == JsonHeaders
    ensures r.status in {200, 402, 429, 500}
    ensures r.body.Payload? <==> r.status == 200
    ensures !r.body.NoBody?
  {
    match upstream
    case FetchRejected(t) => Caught(t)
    case Reply(status, body) =>
      if !IsOk(status) then
        if status == 429 then JsonError(429, RateLimitMessage)
        else if status == 402 then JsonError(402, CreditsMessage)
        else Caught(ErrorObject(GatewayErrorMessage(status)))
      else
        match body
        case Unreadable(t) => Caught(t)
        case NoToolCall => Caught(ErrorObject(InvalidFormatMessage))
        case LookupThrew(t) => Caught(t)
        case ToolCall(name, arguments) =>
          if name != ToolName then Caught(ErrorObject(InvalidFormatMessage))
          else
            match parse(arguments)
            case ParseThrew(t) => Caught(t)
            case ParsedNull(t) => Caught(t)
            case Parsed(v) => Response(200, JsonHeaders, Payload(v))
  }

  /** The JSON error headers are the CORS headers plus a content type. */
  lemma JsonHeadersCarryCors()
    ensures CarriesCors(JsonHeaders) && CarriesCors(CorsHeaders)
  {
  }

  /** The handler. `apiKey` is the configured credential (`Deno.env`). */
  function Serve<P>(req: Request, apiKey: Option<string>, upstream: Upstream, parse: string -> Parse<P>): (x: Exchange<P>)
    ensures CarriesCors(x.response.headers)
    ensures x.response.status in {200, 400, 402, 429, 500}
    ensures x.response.body.NoBody? <==> req.verb == "OPTIONS"
    ensures x.response.body.Payload? <==> req.verb != "OPTIONS" && x.response.status == 200
    ensures x.call.Some? <==> ReachesGateway(req, apiKey)
  {
    JsonHeadersCarryCors();
    if req.verb == "OPTIONS" then
      Exchange(Response(200, CorsHeaders, NoBody), None)
    else
      match req.body
      case Unparsable(t) => Exchange(Caught(t), None)
      case Fields(resume, jobDescription, companyName) =>
        if !Truthy(resume) || !Truthy(jobDescription) || !Truthy(companyName) then
          Exchange(JsonError(400, MissingFieldsMessage), None)
        else if !Truthy(apiKey) then
          Exchange(Caught(ErrorObject(NotConfiguredMessage)), None)
        else
          var call := GatewayCall("Bearer " + apiKey.value, GatewayModel,
                                  resume.value, jobDescription.value, companyName.value, ToolName);
          Exchange(Relay(upstream, parse), Some(call))
  }

  /** A pre-flight request gets an empty 200 with the CORS headers, whatever
      else the request, the configuration or the gateway would say. */
  lemma PreflightShortCircuits<P>(req: Request, apiKey: Option<string>, upstream: Upstream, parse: string -> Parse<P>)
    requires req.verb == "OPTIONS"
    ensures Serve(req, apiKey, upstream, parse) == Exchange(Response(200, CorsHeaders, NoBody), None)
  {
  }

  /** A body that cannot be read as JSON fields is reported through the
      catch block, before any other check. */
  lemma UnreadableBodyCaught<P>(req: Request, apiKey: Option<string>, upstream: Upstream, parse: string -> Parse<P>)
    requires req.verb != "OPTIONS" && req.body.Unparsable?
    ensures Serve(req, apiKey, upstream, parse) == Exchange(Caught(req.body.thrown), None)
  {
  }

  /** A falsy field gives 400 with the fixed message and no outbound call,
      whether or not the credential is configured. */
  lemma MissingFieldsRejected<P>(req: Request, apiKey: Option<string>, upstream: Upstream, parse: string -> Parse<P>)
    requires req.verb != "OPTIONS" && req.body.Fields?
    requires !Truthy(req.body.resume) || !Truthy(req.body.jobDescription) || !Truthy(req.body.companyName)
    ensures Serve(req, apiKey, upstream, parse)
         == Exchange(Response(400, JsonHeaders, ErrorEnvelope(MissingFieldsMessage)), None)
  {
  }

  /** The field check is truthiness, not trimming: whitespace-only fields
      reach the gateway. */
  lemma WhitespaceFieldsPass<P>(apiKey: Option<string>, upstream: Upstream, parse: string -> Parse<P>)
    requires Truthy(apiKey)
    ensures Serve(Request("POST", Fields(Some(" "), Some("\n"), Some("\t"))), apiKey, upstream, parse).call.Some?
  {
  }

  /** With all fields present but no credential: 500 "AI service not
      configured" and no outbound call. */
  lemma MissingCredentialRejected<P>(req: Request, apiKey: Option<string>, upstream: Upstream, parse: string -> Parse<P>)
    requires req.verb != "OPTIONS" && req.body.Fields?
    requires Truthy(req.body.resume) && Truthy(req.body.jobDescription) && Truthy(req.body.companyName)
    requires !Truthy(apiKey)
    ensures Serve(req, apiKey, upstream, parse)
         == Exchange(Response(500, JsonHeaders, ErrorEnvelope(NotConfiguredMessage)), None)
  {
  }

  /** When the call is made it carries the credential as a bearer token, the
      three inputs unchanged and the forced tool, and the response is decided
      by the gateway's outcome alone. */
  lemma GatewayCallForwardsInputs<P>(req: Request, apiKey: Option<string>, upstream: Upstream, parse: string -> Parse<P>)
    requires ReachesGateway(req, apiKey)
    ensures Serve(req, apiKey, upstream, parse)
         == Exchange(Relay(upstream, parse),
                     Some(GatewayCall("Bearer " + apiKey.value, GatewayModel, req.body.resume.value,
                                      req.body.jobDescription.value, req.body.companyName.value, ToolName)))
  {
  }

  /** Every exit taken before the outbound call is decided without it: the
      gateway's outcome and the parser cannot change that response. */
  lemma EarlyExitsIgnoreGateway<P>(req: Request, apiKey: Option<string>,
                                   u1: Upstream, p1: string -> Parse<P>, u2: Upstream, p2: string -> Parse<P>)
    requires Serve(req, apiKey, u1, p1).call.None?
    ensures Serve(req, apiKey, u2, p2) == Serve(req, apiKey, u1, p1)
  {
  }

  /** Non-ok gateway statuses: 429 and 402 are passed through with their own
      messages, every other one becomes 500 naming the status. */
  lemma UpstreamStatusMapped<P>(status: nat, body: GatewayBody, parse: string -> Parse<P>)
    requires !IsOk(status)
    ensures status == 429 ==> Relay(Reply(status, body), parse) == JsonError(429, RateLimitMessage)
    ensures status == 402 ==> Relay(Reply(status, body), parse) == JsonError(402, CreditsMessage)
    ensures status != 429 && status != 402 ==>
              Relay(Reply(status, body), parse) == JsonError(500, GatewayErrorMessage(status))
  {
  }

  /** The 500 message for an unexpected status names that status: it can be
      read back, so distinct statuses give distinct messages. */
  lemma GatewayErrorNamesStatus(status: nat)
    ensures GatewayErrorStatus(GatewayErrorMessage(status)) == Some(status)
  {
    var m := GatewayErrorMessage(status);
    var n := |GatewayErrorPrefix|;
    assert m[..n] == GatewayErrorPrefix;
    assert m[n..] == NatToDecimal(status);
    DecimalRoundTrip(status);
  }

  /** A rejected fetch is reported through the catch block. */
  lemma FetchRejectionCaught<P>(t: Thrown, parse: string -> Parse<P>)
    ensures Relay(FetchRejected(t), parse) == JsonError(500, CaughtMessage(t))
  {
  }

  /** An ok reply without a tool call, or with a call to another function,
      gives 500 "Invalid AI response format". */
  lemma MalformedToolCallRejected<P>(status: nat, body: GatewayBody, parse: string -> Parse<P>)
    requires IsOk(status)
    requires body.NoToolCall? || (body.ToolCall? && body.name != ToolName)
    ensures Relay(Reply(status, body), parse) == JsonError(500, InvalidFormatMessage)
  {
  }

  /** The only 200 after the outbound call: an ok reply whose tool call is
      `analyze_resume` with arguments that parse to a value other than null;
      the body is the parsed value, unchanged and not re-validated. */
  lemma SuccessIsParsedArguments<P>(upstream: Upstream, parse: string -> Parse<P>, v: P)
    ensures Relay(upstream, parse) == Response(200, JsonHeaders, Payload(v))
        <==> (&& upstream.Reply? && IsOk(upstream.status)
              && upstream.body.ToolCall? && upstream.body.name == ToolName
              && parse(upstream.body.arguments) == Parsed(v))
  {
  }

  /** Arguments that parse to null make the `atsScore` read throw: 500
      carrying the TypeError's message, not a 200. */
  lemma NullArgumentsCaught<P>(status: nat, arguments: string, parse: string -> Parse<P>)
    requires IsOk(status) && parse(arguments).ParsedNull?
    ensures Relay(Reply(status, ToolCall(ToolName, arguments)), parse)
         == JsonError(500, CaughtMessage(parse(arguments).thrown))
  {
  }

  /** Arguments that fail to parse give 500 carrying the parse error's message. */
  lemma ParseFailureCaught<P>(status: nat, arguments: string, parse: string -> Parse<P>)
    requires IsOk(status) && parse(arguments).ParseThrew?
    ensures Relay(Reply(status, ToolCall(ToolName, arguments)), parse)
         == JsonError(500, CaughtMessage(parse(arguments).thrown))
  {
  }
}
