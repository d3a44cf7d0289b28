/** The request-and-classify part of `summarizeHighlight`: one call to the
    primary Gemini model, at most one retry against the fallback model, and the
    classification of the parsed body into an outcome. The network is a
    parameter: a total function from a request to what `fetch` delivered. */
module Enrichment {
  import opened Wrappers

  const PrimaryModel: string := "gemini-2.5-flash"
  const FallbackModel: string := "gemini-1.5-flash"
  const Directive: string := "Summarize the following text in one concise sentence: "

  /** One `generateContent` call: the model in the URL path, the key in its
      query string, and the single text part of the JSON body. */
  datatype Request = Request(model: string, apiKey: string, prompt: string)

  /** `callGemini(modelName)` for the captured `text`. */
  function CallFor(model: string, apiKey: string, text: string): (r: Request)
    ensures r.model == model && r.apiKey == apiKey
    ensures |r.prompt| == |Directive| + |text|
    ensures r.prompt[..|Directive|] == Directive && r.prompt[|Directive|..] == text
  {
    Request(model, apiKey, Directive + text)
  }

  /** `data.error`: a numeric `code` and a `message`, either possibly absent. */
  datatype ApiError = ApiError(code: Option<int>, message: Option<string>)
  datatype Part = Part(text: Option<string>)
  datatype PartList = PartList(parts: Option<seq<Part>>)
  datatype Candidate = Candidate(content: Option<PartList>)
  /** The parsed JSON object; a field that is absent or falsy is `None`. */
  datatype Body = Body(error: Option<ApiError>, candidates: Option<seq<Candidate>>)

  /** A settled `fetch`: the HTTP status and the body `response.json()` gives,
      `None` when that rejects or yields `null` (either throws inside `try`). */
  datatype Response = Response(status: int, body: Option<Body>)

  /** What the transport produced: a response, or a rejected `fetch`. */
  datatype Reply = Delivered(response: Response) | Rejected

  /** The result shown to the user for one enrichment attempt. */
  datatype Outcome =
    | RateLimited
    | RemoteError(message: string)
    | EmptyResult
    | Summarized(summary: string)
    | NetworkError

  /** `response.ok`. */
  predicate IsOk(status: int) {
    200 <= status <= 299
  }

  /** The primary call is retried exactly when it produced a non-ok response
      with status 404 or 400. */
  predicate NeedsFallback(reply: Reply) {
    reply.Delivered? && !IsOk(reply.response.status) &&
    (reply.response.status == 404 || reply.response.status == 400)
  }

  /** `data.candidates?.[0]?.content?.parts?.[0]?.text`. */
  function FirstText(b: Body): (r: Option<string>)
    ensures r.Some? ==>
      && b.candidates.Some? && |b.candidates.value| > 0
      && b.candidates.value[0].content.Some?
      && b.candidates.value[0].content.value.parts.Some?
      && |b.candidates.value[0].content.value.parts.value| > 0
      && r == b.candidates.value[0].content.value.parts.value[0].text
    ensures
      && b.candidates.Some? && |b.candidates.value| > 0
      && b.candidates.value[0].content.Some?
      && b.candidates.value[0].content.value.parts.Some?
      && |b.candidates.value[0].content.value.parts.value| > 0
      ==> r == b.candidates.value[0].content.value.parts.value[0].text
  {
    if b.candidates.None? || |b.candidates.value| == 0 then None
    else
      var c := b.candidates.value[0];
      if c.content.None? || c.content.value.parts.None? || |c.content.value.parts.value| == 0 then None
      else c.content.value.parts.value[0].text
  }

  /** The branches on the parsed body: an error object first (429 is rate
      limiting, anything else a remote error whose missing or empty message
      reads "Unknown error"), then a non-empty first candidate text. */
  function Classify(b: Body): (o: Outcome)
    ensures o != NetworkError
    ensures b.error.Some? <==> o.RateLimited? || o.RemoteError?
    ensures o.RemoteError? ==> o.message != ""
    ensures o.Summarized? ==> o.summary != "" && FirstText(b) == Some(o.summary)
  {
    if b.error.Some? then
      if b.error.value.code == Some(429) then RateLimited
      else
        var m := b.error.value.message;
        RemoteError(if m.Some? && m.value != "" then m.value else "Unknown error")
    else
      var summary := FirstText(b);
      if summary.Some? && summary.value != "" then Summarized(summary.value) else EmptyResult
  }

  /** The outcome of the response that was used last; anything thrown inside
      the `try` block ends in the network-error branch. */
  function Interpret(reply: Reply): (o: Outcome)
    ensures o == NetworkError <==> reply.Rejected? || reply.response.body.None?
  {
    match reply
    case Rejected => NetworkError
    case Delivered(response) =>
      if response.body.None? then NetworkError else Classify(response.body.value)
  }

  /** The text written into the summary box for each outcome. */
  function Message(o: Outcome): (m: string)
    ensures |m| >= 2
    ensures o.Summarized? <==> m[0] == '✨'
    ensures o.Summarized? ==> m[2..] == o.summary
    ensures !o.Summarized? && !o.NetworkError? ==> |m| >= 7 && m[..7] == "Error: "
  {
    match o
    case RateLimited => ErrorPrefix("Too many requests. Please wait a moment.")
    case RemoteError(message) => ErrorPrefix(message)
    case EmptyResult => ErrorPrefix("No summary generated.")
    case Summarized(summary) => "✨ " + summary
    case NetworkError => "Network Error: Could not reach Google API."
  }

  /** `"Error: " + detail` (a definition; its ensures spell out the prefix for `Message`). */
  function ErrorPrefix(detail: string): (m: string)
    ensures |m| == 7 + |detail| && m[..7] == "Error: " && m[0] == 'E'
  {
    "Error: " + detail
  }

  /** The `try` block of `summarizeHighlight`. The first request goes to the
      primary model; a second, to the fallback model, is made exactly when the
      first reply calls for it; both carry the same prompt and key. The outcome
      is that of the last reply. */
  method Summarize(apiKey: string, text: string, transport: Request -> Reply)
    returns (requests: seq<Request>, outcome: Outcome)
    ensures 1 <= |requests| <= 2
    ensures requests[0] == CallFor(PrimaryModel, apiKey, text)
    ensures |requests| == 2 <==> NeedsFallback(transport(requests[0]))
    ensures |requests| == 2 ==> requests[1] == CallFor(FallbackModel, apiKey, text)
    ensures forall k :: 0 <= k < |requests| ==>
      requests[k].prompt == Directive + text && requests[k].apiKey == apiKey
    ensures outcome == Interpret(transport(requests[|requests| - 1]))
  {
    var first := CallFor(PrimaryModel, apiKey, text);
    requests := [first];
    var reply := transport(first);
    if reply.Rejected? {
      return requests, NetworkError;
    }
    var response := reply.response;
    if !IsOk(response.status) && (response.status == 404 || response.status == 400) {
      var second := CallFor(FallbackModel, apiKey, text);
      requests := requests + [second];
      reply := transport(second);
      if reply.Rejected? {
        return requests, NetworkError;
      }
      response := reply.response;
    }
    if response.body.None? {
      return requests, NetworkError;
    }
    var data := response.body.value;
    outcome := Classify(data);
  }

  /** The five outcomes of one reply: a rejected fetch or an unreadable body is
      a network error; a readable body with an error object is rate limiting or
      a remote error; without one, a non-empty first candidate text is the
      summary and anything else is "No summary generated". */
  lemma OutcomeOfReply(reply: Reply)
    ensures reply.Rejected? || reply.response.body.None? ==> Interpret(reply) == NetworkError
    ensures reply.Delivered? && reply.response.body.Some? ==>
      var b := reply.response.body.value;
      && (b.error.Some? ==> Interpret(reply).RateLimited? || Interpret(reply).RemoteError?)
      && (b.error.None? && FirstText(b).Some? && FirstText(b).value != "" ==>
            Interpret(reply) == Summarized(FirstText(b).value))
      && (b.error.None? && (FirstText(b).None? || FirstText(b).value == "") ==>
            Interpret(reply) == EmptyResult &&
            Message(Interpret(reply)) == "Error: No summary generated.")
    ensures Interpret(reply).Summarized? <==>
      && reply.Delivered? && reply.response.body.Some?
      && reply.response.body.value.error.None?
      && FirstText(reply.response.body.value).Some?
      && FirstText(reply.response.body.value).value != ""
  {
  }

  /** The `!response.ok` test is implied by the status test: a 404 or 400 is
      never ok, so the retry depends on the status alone. */
  lemma FallbackDependsOnStatus(status: int, body: Option<Body>)
    ensures NeedsFallback(Delivered(Response(status, body))) <==> status == 404 || status == 400
    ensures !NeedsFallback(Rejected)
  {
  }

  /** An error object classifies as rate limiting exactly when its code is 429,
      and otherwise surfaces its message or "Unknown error". */
  lemma ErrorClassification(b: Body)
    requires b.error.Some?
    ensures Classify(b) == RateLimited <==> b.error.value.code == Some(429)
    ensures b.error.value.code != Some(429) ==>
      Classify(b).RemoteError? && Message(Classify(b)) == "Error: " +
        (if b.error.value.message.Some? && b.error.value.message.value != ""
         then b.error.value.message.value else "Unknown error")
  {
  }

  /** Text of a body with only `candidates[0].content.parts[0].text`. */
  function TextBody(t: string): Body {
    Body(None, Some([Candidate(Some(PartList(Some([Part(Some(t))]))))]))
  }

  /** A body carrying only an error object. */
  function ErrorBody(code: int, message: Option<string>): Body {
    Body(Some(ApiError(Some(code), message)), None)
  }

  /** The primary model is not found (404) and the fallback answers "ok":
      two requests, and the summary "ok". */
  method PrimaryMissingFallbackAnswers() returns (requests: seq<Request>, outcome: Outcome)
    ensures |requests| == 2 && requests[1].model == FallbackModel
    ensures outcome == Summarized("ok")
  {
    var transport := (r: Request) =>
      if r.model == PrimaryModel then Delivered(Response(404, Some(ErrorBody(404, None))))
      else Delivered(Response(200, Some(TextBody("ok"))));
    assert PrimaryModel[7] != FallbackModel[7];
    requests, outcome := Summarize("key", "some text", transport);
  }

  /** A 429 error body: rate limited, with no retry. */
  method RateLimitedNoRetry() returns (requests: seq<Request>, outcome: Outcome)
    ensures |requests| == 1
    ensures outcome == RateLimited
  {
    var transport := (r: Request) => Delivered(Response(429, Some(ErrorBody(429, None))));
    requests, outcome := Summarize("key", "some text", transport);
  }

  /** A 400 from the primary model, then a 500 with message "boom" from the
      fallback: the remote error "boom". */
  method FallbackFailsWithMessage() returns (requests: seq<Request>, outcome: Outcome)
    ensures |requests| == 2
    ensures outcome == RemoteError("boom")
  {
    var transport := (r: Request) =>
      if r.model == PrimaryModel then Delivered(Response(400, Some(ErrorBody(400, None))))
      else Delivered(Response(500, Some(ErrorBody(500, Some("boom")))));
    assert PrimaryModel[7] != FallbackModel[7];
    requests, outcome := Summarize("key", "some text", transport);
  }
}
