/** The frontend (Ollama) and backend (OpenAI) dialect records of models/types.go, with
    the fields the adapters use but that file omits (Message.Thinking, CachePrompt,
    BackendMetadata). Timestamps (created_at, modified_at) are not modelled. */
module Types {

  import opened Wrappers
  import opened Json
  import Decimal

  datatype Message = Message(role: string, content: string, thinking: string, toolCalls: seq<Value>)

  datatype GenerateRequest = GenerateRequest(model: string, prompt: string, stream: bool, options: map<string, Value>)

  datatype ChatRequest = ChatRequest(
    model: string, messages: seq<Message>, stream: bool, options: map<string, Value>, tools: seq<Value>)

  /** The duration and count fields shared by both response kinds (zero = omitted). */
  datatype Stats = Stats(
    totalDuration: int, loadDuration: int, promptEvalCount: int,
    promptEvalDuration: int, evalCount: int, evalDuration: int)

  const NoStats := Stats(0, 0, 0, 0, 0, 0)

  datatype GenerateResponse = GenerateResponse(
    model: string, response: string, done: bool, doneReason: string, stats: Stats)

  datatype ChatResponse = ChatResponse(
    model: string, message: Message, done: bool, doneReason: string, stats: Stats)

  /** Whether an increment is the final one of its answer. */
  predicate GenerateDone(g: GenerateResponse) {
    g.done
  }

  predicate ChatDone(c: ChatResponse) {
    c.done
  }

  datatype ModelInfo = ModelInfo(name: string, model: string, size: int, digest: string)

  datatype ModelsResponse = ModelsResponse(models: seq<ModelInfo>)

  /** The tuning parameters an OpenAI request carries. */
  datatype OpenAIParams = OpenAIParams(maxTokens: int, temperature: real, topP: real)

  datatype OpenAICompletionRequest = OpenAICompletionRequest(
    model: string, prompt: string, stream: bool, params: OpenAIParams, cachePrompt: bool)

  datatype OpenAIChatRequest = OpenAIChatRequest(
    model: string, messages: seq<Message>, stream: bool, params: OpenAIParams,
    tools: seq<Value>, cachePrompt: bool)

  datatype Usage = Usage(promptTokens: int, completionTokens: int)

  datatype CompletionChoice = CompletionChoice(text: string, finishReason: string)

  datatype CompletionResponse = CompletionResponse(choices: seq<CompletionChoice>, usage: Usage)

  datatype ChatChoice = ChatChoice(delta: Option<Message>, message: Option<Message>, finishReason: string)

  datatype ChatCompletionResponse = ChatCompletionResponse(choices: seq<ChatChoice>, usage: Usage)

  /** What an adapter records about its exchange with the backend. */
  datatype BackendMetadata = BackendMetadata(rawRequest: string, rawResponse: string, url: string)

  const EmptyMetadata := BackendMetadata("", "", "")

  /** The backend's answer as the adapter sees it: the transport failed, or a status and a
      body arrived; `lines` is that body as the line scanner frames it. */
  datatype Transport =
    | Unreachable(reason: string)
    | Reply(status: int, body: string, lines: seq<string>)

  datatype BackendError =
    | RequestFailed(reason: string)
    | UnexpectedStatus(code: int, body: Option<string>)
    | DecodeFailed

  /** err.Error() of an adapter error, as fmt.Errorf formats it. */
  function ErrorText(e: BackendError): string {
    match e
    case RequestFailed(reason) => "request failed: " + reason
    case UnexpectedStatus(code, None) => "unexpected status code: " + Decimal.IntToString(code)
    case UnexpectedStatus(code, Some(body)) =>
      "unexpected status code: " + Decimal.IntToString(code) + ", body: " + body
    case DecodeFailed => "failed to decode response"
  }

  /** What a call of an adapter's Generate or Chat leaves behind: the increments its channel
      carries, the metadata and the error it returns. */
  datatype Outcome<T> = Outcome(increments: seq<T>, metadata: BackendMetadata, err: Option<BackendError>)

  const StatusOK := 200
}
