/** ServeHTTP of handlers/generate.go: the request goes to the backend unchanged; the
    increments are relayed up to the first final one; raw responses are kept for the log
    only when the server is configured to log them. */
module GenerateHandler {

  import opened Wrappers
  import opened Types
  import opened Relay
  import opened Handling
  import Config
  import opened Text
  import Sse
  import CompletionStream
  import OpenAIAdapter

  const Endpoint := "/api/generate"

  /** The logged last message: the prompt, or "unknown" when it is empty. */
  function LastMessage(req: GenerateRequest): (s: string)
    ensures s != ""
    ensures req.prompt != "" ==> s == req.prompt
    ensures req.prompt == "" ==> s == "unknown"
  {
    if req.prompt == "" then "unknown" else req.prompt
  }

  function ResponseText(g: GenerateResponse): string {
    g.response
  }

  /** The log entry of a generate request. */
  function Entry(
    cfg: Config.Config, req: GenerateRequest, response: string, status: int, error: string,
    frontendRequest: string, frontendResponse: string, md: BackendMetadata): LogEntry
  {
    LogEntry(
      Endpoint, "POST", req.model, req.prompt, response, status, req.stream,
      cfg.backend.kind, error, FrontendUrl(cfg.server.host, cfg.server.port, Endpoint), md.url,
      frontendRequest, frontendResponse, md.rawRequest, md.rawResponse, LastMessage(req))
  }

  /** What ServeHTTP does with the backend's answer: the error path or the relay, whose
      frontend response is captured only when raw responses are logged. */
  function Answer(cfg: Config.Config, req: GenerateRequest, body: string,
                  o: Outcome<GenerateResponse>, encode: GenerateResponse -> Option<string>): (h: Handled<GenerateRequest, GenerateResponse>)
    ensures o.err.Some? <==> h.BackendFailed?
    ensures !h.Refused? && h.sent == req
    ensures !h.Refused? ==> (
      && h.entry.lastMessage == LastMessage(req)
      && h.entry.prompt == req.prompt
      && h.entry.frontendRequest == body
      && h.entry.backendRequest == o.metadata.rawRequest
      && h.entry.backendResponse == o.metadata.rawResponse)
    ensures h.BackendFailed? ==> (
      && h.message == ErrorText(o.err.value)
      && h.entry.error == h.message
      && h.entry.statusCode == StatusInternalServerError
      && h.entry.response == ""
      && h.entry.frontendResponse == "")
    ensures h.Relayed? ==> (
      && h.entry.statusCode == StatusOK
      && h.entry.error == ""
      && h.streamed == RelayPrefix(o.increments, GenerateDone)
      && h.entry.response == Texts(h.streamed, ResponseText))
    ensures h.Relayed? && !cfg.server.logRawResponses ==> h.entry.frontendResponse == ""
  {
    if o.err.Some? then
      BackendFailed(req, ErrorText(o.err.value),
        Entry(cfg, req, "", StatusInternalServerError, ErrorText(o.err.value), body, "", o.metadata))
    else
      var streamed := RelayPrefix(o.increments, GenerateDone);
      var kept := if cfg.server.logRawResponses then streamed else [];
      Relayed(req, streamed,
        Entry(cfg, req, Texts(streamed, ResponseText), StatusOK, "", body, Capture(Encodings(kept, encode)), o.metadata))
  }

  /** When raw responses are logged and every relayed response encodes, the logged frontend
      response is the stream the client read: the encodings joined by newlines. */
  lemma CapturedAsStreamed(cfg: Config.Config, req: GenerateRequest, body: string,
                           o: Outcome<GenerateResponse>, encode: GenerateResponse -> Option<string>)
    requires o.err.None? && cfg.server.logRawResponses
    requires forall r :: r in o.increments ==> encode(r).Some?
    ensures var h := Answer(cfg, req, body, o, encode);
      var encoded := Encodings(h.streamed, encode);
      (forall i :: 0 <= i < |encoded| ==> encoded[i].Some?) &&
      h.entry.frontendResponse == JoinLines(Values(encoded))
  {
    var h := Answer(cfg, req, body, o, encode);
    var encoded := Encodings(h.streamed, encode);
    assert forall i :: 0 <= i < |encoded| ==> h.streamed[i] in o.increments;
    CaptureIsJoin(encoded);
  }

  /** Against an OpenAI backend answering a streamed request with status 200, the client
      gets the text deltas before the first finishing chunk and then exactly one final
      response, and the log holds the concatenated text. */
  lemma StreamedFromOpenAI(
    cfg: Config.Config, b: OpenAIAdapter.Backend, req: GenerateRequest, body: string, t: Transport,
    encodeRequest: OpenAICompletionRequest -> string, decode: string -> Option<CompletionResponse>,
    elapsed: nat, encode: GenerateResponse -> Option<string>)
    requires t.Reply? && t.status == StatusOK && req.stream
    ensures var h := Answer(cfg, req, body, OpenAIAdapter.Generate(b, req, t, encodeRequest, decode, elapsed), encode);
      var rs := Sse.Payloads(t.lines, decode);
      var k := CompletionStream.FirstFinish(rs);
      var deltas := CompletionStream.Deltas(rs[..k], req.model);
      && h.streamed == deltas + [CompletionStream.FinalGenerate(req.model, CompletionStream.FinalReason(rs), CompletionStream.TextCount(rs[..k]), elapsed)]
      && h.entry.response == Texts(deltas, ResponseText)
      && h.entry.backendResponse == Transcript(t.lines)
  {
    var rs := Sse.Payloads(t.lines, decode);
    var k := CompletionStream.FirstFinish(rs);
    var deltas := CompletionStream.Deltas(rs[..k], req.model);
    var final := CompletionStream.FinalGenerate(req.model, CompletionStream.FinalReason(rs), CompletionStream.TextCount(rs[..k]), elapsed);
    CompletionStream.RelayedCompletion(rs, req.model, elapsed);
    TextsAppend(deltas, [final], ResponseText);
    var none: seq<GenerateResponse> := [];
    assert [final][..0] == none;
  }

  /** The streaming loop and the capture of what it kept. */
  method Stream(increments: seq<GenerateResponse>, logRawResponses: bool, encode: GenerateResponse -> Option<string>)
    returns (streamed: seq<GenerateResponse>, fullResponse: string, frontendResponse: string)
    ensures streamed == RelayPrefix(increments, GenerateDone)
    ensures fullResponse == Texts(streamed, ResponseText)
    ensures frontendResponse == Capture(Encodings(if logRawResponses then streamed else [], encode))
  {
    var responses;
    streamed, fullResponse, responses := RelayLoop(increments, GenerateDone, ResponseText, logRawResponses);
    frontendResponse := CaptureFrontendResponse(responses, encode);
  }

  /** The part of ServeHTTP after the backend call. */
  method Respond(cfg: Config.Config, req: GenerateRequest, body: string,
                 o: Outcome<GenerateResponse>, encode: GenerateResponse -> Option<string>)
    returns (h: Handled<GenerateRequest, GenerateResponse>)
    ensures h == Answer(cfg, req, body, o, encode)
  {
    var lastMessage := req.prompt;
    if lastMessage == "" {
      lastMessage := "unknown";
    }
    var frontendUrl := FrontendUrl(cfg.server.host, cfg.server.port, Endpoint);
    if o.err.Some? {
      var message := ErrorText(o.err.value);
      var entry := LogEntry(
        Endpoint, "POST", req.model, req.prompt, "", StatusInternalServerError, req.stream, cfg.backend.kind,
        message, frontendUrl, o.metadata.url, body, "", o.metadata.rawRequest, o.metadata.rawResponse,
        lastMessage);
      return BackendFailed(req, message, entry);
    }
    var streamed, fullResponse, frontendResponse := Stream(o.increments, cfg.server.logRawResponses, encode);
    var entry := LogEntry(
      Endpoint, "POST", req.model, req.prompt, fullResponse, StatusOK, req.stream, cfg.backend.kind,
      "", frontendUrl, o.metadata.url, body, frontendResponse, o.metadata.rawRequest, o.metadata.rawResponse,
      lastMessage);
    return Relayed(req, streamed, entry);
  }

  /** ServeHTTP: method and body checks, the backend call, the relay, the log. */
  method Serve(
    cfg: Config.Config, inbound: Inbound, decodeRequest: string -> Option<GenerateRequest>,
    backend: GenerateRequest -> Outcome<GenerateResponse>, encode: GenerateResponse -> Option<string>)
    returns (h: Handled<GenerateRequest, GenerateResponse>)
    ensures inbound.httpMethod != "POST" ==> h == Refused(StatusMethodNotAllowed, "Method not allowed")
    ensures inbound.httpMethod == "POST" && inbound.body.None? ==> h == Refused(StatusBadRequest, "Failed to read request body")
    ensures inbound.httpMethod == "POST" && inbound.body.Some? && decodeRequest(inbound.body.value).None? ==>
      h == Refused(StatusBadRequest, "Invalid request body")
    ensures inbound.httpMethod == "POST" && inbound.body.Some? && decodeRequest(inbound.body.value).Some? ==>
      var req := decodeRequest(inbound.body.value).value;
      h == Answer(cfg, req, inbound.body.value, backend(req), encode)
  {
    if inbound.httpMethod != "POST" {
      return Refused(StatusMethodNotAllowed, "Method not allowed");
    }
    if inbound.body.None? {
      return Refused(StatusBadRequest, "Failed to read request body");
    }
    var body := inbound.body.value;
    var parsed := decodeRequest(body);
    if parsed.None? {
      return Refused(StatusBadRequest, "Invalid request body");
    }
    var req := parsed.value;
    var o := backend(req);
    h := Respond(cfg, req, body, o, encode);
  }
}
