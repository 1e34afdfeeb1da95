/** The OpenAI-compatible adapter of backend/openai.go seen from outside: the request it
    sends, how the backend's status and body become increments, metadata and an error, the
    non-streaming translations with their defaults, and the model list with its fallback. */
module OpenAIAdapter {

  import opened Wrappers
  import opened Json
  import opened Text
  import opened Types
  import opened Sse
  import opened OpenAIRequest
  import CompletionStream
  import ChatStream

  datatype Backend = Backend(endpoint: string, forcePromptCache: bool)

  const CompletionsPath := "/v1/completions"
  const ChatCompletionsPath := "/v1/chat/completions"

  /** finish_reason, or "stop" when the backend left it empty. */
  function DoneReason(finishReason: string): (r: string)
    ensures r != ""
    ensures finishReason != "" ==> r == finishReason
    ensures finishReason == "" ==> r == "stop"
  {
    if finishReason != "" then finishReason else "stop"
  }

  /** A usage count, or 1 when the backend reported none. */
  function CountOrOne(n: int): (c: int)
    ensures c >= 1
    ensures n > 0 ==> c == n
    ensures n <= 0 ==> c == 1
  {
    if n > 0 then n else 1
  }

  /** handleNonStreamingCompletion: the one final increment for the first choice, none when
      the body does not decode or has no choices. Only the two counts are set. */
  function NonStreamingCompletion(body: string, decode: string -> Option<CompletionResponse>, model: string): (r: Option<GenerateResponse>)
    ensures r.Some? <==> decode(body).Some? && |decode(body).value.choices| > 0
    ensures r.Some? ==>
      var resp := decode(body).value;
      && r.value.done && r.value.model == model
      && r.value.response == resp.choices[0].text
      && r.value.doneReason == DoneReason(resp.choices[0].finishReason)
      && r.value.stats == NoStats.(promptEvalCount := CountOrOne(resp.usage.promptTokens), evalCount := CountOrOne(resp.usage.completionTokens))
  {
    match decode(body)
    case None => None
    case Some(resp) =>
      if |resp.choices| == 0 then None
      else
        var choice := resp.choices[0];
        Some(GenerateResponse(model, choice.text, true, DoneReason(choice.finishReason),
          Stats(0, 0, CountOrOne(resp.usage.promptTokens), 0, CountOrOne(resp.usage.completionTokens), 0)))
  }

  /** handleNonStreamingChat: the first choice's message passed through unchanged (tool calls
      included) in one final increment; none when the body does not decode, has no choices,
      or the first choice has no message. */
  function NonStreamingChat(body: string, decode: string -> Option<ChatCompletionResponse>, model: string, elapsed: nat): (r: Option<ChatResponse>)
    ensures r.Some? <==>
      decode(body).Some? && |decode(body).value.choices| > 0 && decode(body).value.choices[0].message.Some?
    ensures r.Some? ==>
      var resp := decode(body).value;
      && r.value.done && r.value.model == model
      && r.value.message == resp.choices[0].message.value
      && r.value.doneReason == DoneReason(resp.choices[0].finishReason)
      && r.value.stats == Stats(elapsed + 1, 1, CountOrOne(resp.usage.promptTokens), 1, CountOrOne(resp.usage.completionTokens), elapsed)
  {
    match decode(body)
    case None => None
    case Some(resp) =>
      if |resp.choices| == 0 || resp.choices[0].message.None? then None
      else
        var choice := resp.choices[0];
        Some(ChatResponse(model, choice.message.value, true, DoneReason(choice.finishReason),
          Stats(elapsed + 1, 1, CountOrOne(resp.usage.promptTokens), 1, CountOrOne(resp.usage.completionTokens), elapsed)))
  }

  function OptionToSeq<T>(o: Option<T>): (s: seq<T>)
    ensures |s| <= 1
    ensures o.Some? <==> |s| == 1
    ensures o.Some? ==> s[0] == o.value
  {
    match o case None => [] case Some(x) => [x]
  }

  /** How the backend's answer is turned into an outcome, given the request text sent to
      `url` and the translation of a 200 answer into increments and raw capture. */
  function Exchange<T>(requestText: string, url: string, t: Transport, translated: (seq<T>, string)): (o: Outcome<T>)
    ensures o.metadata.rawRequest == requestText && o.metadata.url == url
    ensures t.Unreachable? ==> o == Outcome([], BackendMetadata(requestText, "", url), Some(RequestFailed(t.reason)))
    ensures t.Reply? && t.status != StatusOK ==>
      o == Outcome([], BackendMetadata(requestText, t.body, url), Some(UnexpectedStatus(t.status, Some(t.body))))
    ensures t.Reply? && t.status == StatusOK ==> o.err.None? && o.increments == translated.0 && o.metadata.rawResponse == translated.1
    ensures o.err.Some? ==> o.increments == []
  {
    var md := BackendMetadata(requestText, "", url);
    match t
    case Unreachable(reason) => Outcome([], md, Some(RequestFailed(reason)))
    case Reply(status, body, _) =>
      if status != StatusOK then Outcome([], md.(rawResponse := body), Some(UnexpectedStatus(status, Some(body))))
      else Outcome(translated.0, md.(rawResponse := translated.1), None)
  }

  /** Generate: the completion request goes to <endpoint>/v1/completions; a 200 answer is
      translated by the streaming loop (raw capture = every line) or by the non-streaming
      translation (raw capture = the body), as the client asked. */
  function Generate(
    b: Backend, req: GenerateRequest, t: Transport,
    encode: OpenAICompletionRequest -> string, decode: string -> Option<CompletionResponse>, elapsed: nat)
    : (o: Outcome<GenerateResponse>)
    ensures o.metadata.rawRequest == encode(CompletionRequestFor(req, b.forcePromptCache))
    ensures o.metadata.url == b.endpoint + CompletionsPath
    ensures o.err.Some? <==> !(t.Reply? && t.status == StatusOK)
    ensures o.err.Some? ==> o.increments == []
    ensures t.Reply? && t.status == StatusOK && req.stream ==>
      o.increments == CompletionStream.Increments(Payloads(t.lines, decode), req.model, elapsed)
      && o.metadata.rawResponse == Transcript(t.lines)
    ensures t.Reply? && t.status == StatusOK && !req.stream ==>
      o.increments == OptionToSeq(NonStreamingCompletion(t.body, decode, req.model))
      && o.metadata.rawResponse == t.body
  {
    var translated :=
      if t.Reply? && req.stream then (CompletionStream.Increments(Payloads(t.lines, decode), req.model, elapsed), Transcript(t.lines))
      else if t.Reply? then (OptionToSeq(NonStreamingCompletion(t.body, decode, req.model)), t.body)
      else ([], "");
    Exchange(encode(CompletionRequestFor(req, b.forcePromptCache)), b.endpoint + CompletionsPath, t, translated)
  }

  /** Chat: the converted chat request goes to <endpoint>/v1/chat/completions; a 200 answer
      is translated by the streaming loop or the non-streaming translation. */
  ghost function Chat(
    b: Backend, req: ChatRequest, t: Transport,
    encodeRequest: OpenAIChatRequest -> string, encode: Value -> Option<string>,
    decode: string -> Option<ChatCompletionResponse>, parse: string -> Option<Value>, elapsed: nat)
    : (o: Outcome<ChatResponse>)
    ensures o.metadata.rawRequest == encodeRequest(ChatRequestFor(req, b.forcePromptCache, encode))
    ensures o.metadata.url == b.endpoint + ChatCompletionsPath
    ensures o.err.Some? <==> !(t.Reply? && t.status == StatusOK)
    ensures o.err.Some? ==> o.increments == []
    ensures t.Reply? && t.status == StatusOK && req.stream ==>
      o.increments == ChatStream.Increments(Payloads(t.lines, decode), req.model, elapsed, parse)
      && o.metadata.rawResponse == Transcript(t.lines)
    ensures t.Reply? && t.status == StatusOK && !req.stream ==>
      o.increments == OptionToSeq(NonStreamingChat(t.body, decode, req.model, elapsed))
      && o.metadata.rawResponse == t.body
  {
    var translated :=
      if t.Reply? && req.stream then (ChatStream.Increments(Payloads(t.lines, decode), req.model, elapsed, parse), Transcript(t.lines))
      else if t.Reply? then (OptionToSeq(NonStreamingChat(t.body, decode, req.model, elapsed)), t.body)
      else ([], "");
    Exchange(encodeRequest(ChatRequestFor(req, b.forcePromptCache, encode)), b.endpoint + ChatCompletionsPath, t, translated)
  }

  // ---- ListModels ----

  const DefaultModel := ModelInfo("default", "default", 0, "")

  /** One entry per backend id, in order, named and labelled by the id. */
  function ModelInfos(ids: seq<string>): (r: seq<ModelInfo>)
    ensures |r| == |ids|
    ensures forall i :: 0 <= i < |ids| ==> r[i] == ModelInfo(ids[i], ids[i], 0, "")
  {
    seq(|ids|, i requires 0 <= i < |ids| => ModelInfo(ids[i], ids[i], 0, ""))
  }

  /** ListModels: a transport failure is an error; a non-200 status or an undecodable body
      falls back to the single "default" model without error; otherwise one entry per id. */
  function ListModels(t: Transport, decodeIds: string -> Option<seq<string>>): (r: Result<ModelsResponse, BackendError>)
    ensures r.Failure? <==> t.Unreachable?
    ensures r.Failure? ==> r.error == RequestFailed(t.reason)
    ensures t.Reply? && (t.status != StatusOK || decodeIds(t.body).None?) ==> r == Success(ModelsResponse([DefaultModel]))
    ensures t.Reply? && t.status == StatusOK && decodeIds(t.body).Some? ==>
      r == Success(ModelsResponse(ModelInfos(decodeIds(t.body).value)))
  {
    match t
    case Unreachable(reason) => Failure(RequestFailed(reason))
    case Reply(status, body, _) =>
      if status != StatusOK then Success(ModelsResponse([DefaultModel]))
      else
        match decodeIds(body)
        case None => Success(ModelsResponse([DefaultModel]))
        case Some(ids) => Success(ModelsResponse(ModelInfos(ids)))
  }

  /** The model list is never empty unless the backend answered with an empty id list. */
  lemma ListModelsNonEmptyUnlessNoIds(t: Transport, decodeIds: string -> Option<seq<string>>)
    requires ListModels(t, decodeIds).Success?
    ensures |ListModels(t, decodeIds).value.models| == 0 <==>
      t.status == StatusOK && decodeIds(t.body) == Some([])
  {
  }

  /** Every name in a successful list is a backend id or "default". */
  lemma ListedNamesComeFromBackend(t: Transport, decodeIds: string -> Option<seq<string>>, m: ModelInfo)
    requires ListModels(t, decodeIds).Success? && m in ListModels(t, decodeIds).value.models
    ensures m.name == m.model && m.size == 0 && m.digest == ""
    ensures m.name == "default" || (decodeIds(t.body).Some? && m.name in decodeIds(t.body).value)
  {
  }
}
