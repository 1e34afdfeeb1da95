# llm_proxy in Dafny

llm_proxy is an HTTP proxy. Clients speak the Ollama API to it (`/api/generate`, `/api/chat`).
It forwards each request to a backend, which is either another Ollama server (pass-through)
or an OpenAI-compatible server (translated both ways). Every request and response is logged.

This project models the proxy's core:

- **Backends.** The request translation into the OpenAI dialect: options, tool-call
  arguments, the prompt-cache flag. The OpenAI server-sent-events stream turned back into
  Ollama increments: exactly one final increment, and tool-call fragments reassembled by
  index. The Ollama pass-through loop. The model listings.
- **Handlers.** `/api/generate` and `/api/chat`:
  - the method and body checks, and text injection into a user message;
  - tool blacklist filtering and the relay loop, which stops after the first final increment;
  - the newline-delimited capture of the frontend response, and the log entry.
- **Configuration.** Validation and defaults of the configuration file.
- **Web viewer.** The pagination arithmetic and `truncateString`.
- **Logging middleware.** The status-capturing response writer, as a class with a small
  state machine.

Stateful code is modelled as methods with loops, proved equal to specification functions:

- the scanner loops, the tool-call accumulation, `buildToolCallsArray`;
- `convertMessagesToOpenAI`, `applyTextInjection` (on an array, in place), `filterTools`;
- the relay and capture loops, `Load`, and the response writer.

The properties are proved about those functions.

Outside effects become parameters:

- JSON encoding and decoding are function-typed parameters, such as `decode: string -> Option<T>`.
- The scanner's input is the sequence of lines it yields.
- The HTTP exchange is a `Transport` value: unreachable, or a status with a body and its lines.
- Elapsed nanoseconds are a parameter.

JSON values decoded into `interface{}` are `Json.Value`.

## Model

The rowed methods are proved equal to specification functions, which define the modelled
behaviour and need no row of their own:

- `CompletionStream.Step`/`Increments` for handleStreamingCompletion.
- `ChatStream.Step`/`Increments`/`Answer` for handleStreamingChat.
- `Handling.Capture` for the frontend-response capture.
- `ToolCalls.Accumulate`/`BuildToolCalls` for the tool-call table and buildToolCallsArray.
- `ChatHandler.PromptText`/`Filtered` for the logged prompt and filterTools.
- `Logging.StatusOf` for the status a handler's calls set.

The lemmas in the table state their properties.

| member | source | states |
|---|---|---|
| Text.TrimPrefix | backend/openai.go:126 | `strings.TrimPrefix` removes one leading `data: ` exactly when present |
| Text.ContainsSuffix | handlers/chat.go:247-252 | a string with text appended contains that text |
| Text.TranscriptAppend | backend/openai.go:118-120 | the raw capture of lines read in two parts is the concatenation of the two captures |
| Text.TranscriptLength | backend/openai.go:118-120 | the raw capture is every line plus one newline per line |
| Json.TruncateToInt | backend/openai.go:53 | `int(float64)` truncates toward zero, for both signs |
| Decimal.Atoi | handlers/web.go:86 | an optional sign then at least one digit, read as the signed decimal value; rejected exactly when the digits are missing or not all digits, or the value leaves the 64-bit range |
| Decimal.AtoiInvertsIntToString | handlers/web.go:86 | parsing what `%d` prints gives back every 64-bit integer |
| Sse.Classify | backend/openai.go:122-135 | a line is skipped without `data: `, skipped when it is `data: [DONE]`, skipped when undecodable, otherwise it yields the decoded payload (each case as an iff) |
| Sse.ReadPayload | backend/openai.go:422-440 | a line yields a payload exactly when it is a `data: ` line other than `[DONE]` whose data decodes, and then the decoded data |
| Sse.PayloadsStep | backend/openai.go:117-135 | reading one more line adds at most that line's payload |
| Sse.PayloadsAppend | backend/openai.go:117-135 | the payloads of concatenated line sequences are the concatenated payloads |
| Sse.PayloadsOfDataLine | backend/openai.go:122-135 | a single `data: X` line (X not `[DONE]`) yields decode(X) when it decodes, nothing otherwise |
| Relay.RelayPrefix | handlers/chat.go:122-140 | the relayed increments are a prefix of the stream; none before the last is final; either the stream is exhausted or the last is final |
| Relay.RelayStopsAtFirstDone | handlers/generate.go:103-123 | when the first final increment is at p, exactly the first p + 1 increments are relayed |
| Relay.RelayWithoutDone | handlers/generate.go:103-123 | with no final increment the whole stream is relayed |
| OpenAIRequest.MapOptions | backend/openai.go:48-59 | temperature and top_p are copied and num_predict truncated to max_tokens only when they are numbers; otherwise zero |
| OpenAIRequest.OptionsOnlyRecognizedKeys | backend/openai.go:48-59 | options that agree on the three recognised keys translate identically |
| OpenAIRequest.CompletionRequestFor | backend/openai.go:40-46 | model, prompt and stream are copied; cache_prompt is the backend's flag |
| OpenAIRequest.CompletionRequestIgnoresOtherOptions | backend/openai.go:40-59 | requests that differ only in unrecognised options produce the same completion request |
| OpenAIRequest.ConvertFunction | backend/openai.go:271-303 | the name is kept only when it is a string; arguments are always a string: kept when already one, otherwise the encoded value, "{}" when missing or unencodable |
| OpenAIRequest.ConvertToolCall | backend/openai.go:258-318 | a non-object is kept; an object gets type "function", an object function field converted by ConvertFunction (a non-object one copied, a missing one null), and every other key copied |
| OpenAIRequest.ConvertToolCallIdempotent | backend/openai.go:258-318 | converting an already converted tool call changes nothing |
| OpenAIRequest.ConvertMessage | backend/openai.go:251-322 | only the tool calls of a message change, each converted in place |
| OpenAIRequest.ConvertMessages | backend/openai.go:248-326 | same number and order of messages, each converted |
| OpenAIRequest.ConvertMessagesToOpenAI | backend/openai.go:248-326 | the nested loops build exactly the converted messages |
| OpenAIRequest.ChatRequestFor | backend/openai.go:333-356 | converted messages, tools passed through unchanged, options mapped, cache_prompt from the backend |
| ToolCalls.FragmentsAppend | backend/openai.go:485-524 | the fragments of concatenated tool-call lists are the concatenated fragments |
| ToolCalls.AbsorbAllAppend | backend/openai.go:485-524 | absorbing fragments in two batches equals absorbing them at once |
| ToolCalls.AccumulateToolCalls | backend/openai.go:485-524 | the loop over a delta's tool_calls leaves the table the fragments specify |
| ToolCalls.AbsorbEntry | backend/openai.go:492-523 | one object entry updates only the table slot at its index, as absorbing its fragment |
| ToolCalls.EntryIndex | backend/openai.go:492-495 | the numeric "index" truncated toward zero, 0 when missing or not a number |
| ToolCalls.MergeFields | backend/openai.go:506-521 | a non-empty string id or function name replaces the stored one; string arguments are appended |
| ToolCalls.AccumulatedPerIndex | backend/openai.go:485-524 | from an empty table, an index is present iff some fragment named it; its id and name are the last non-empty ones; its arguments are all pieces in order |
| ToolCalls.NeverMentioned | backend/openai.go:498-504 | an index no fragment names has empty id, name and arguments |
| ToolCalls.ArgumentsValue | backend/openai.go:621-630 | empty arguments become {}, unparsable ones stay a string, parsable ones become the parsed value |
| ToolCalls.MaxIndex | backend/openai.go:608-613 | the largest index of the table, or -1 when no index is non-negative |
| ToolCalls.BuildToolCallsArray | backend/openai.go:600-644 | the loop builds exactly the specified tool-call list |
| ToolCalls.KeysBelowShape | backend/openai.go:615-641 | the walk below n yields the table's indices in [0, n), strictly ascending, one call each |
| ToolCalls.BuildToolCallsInIndexOrder | backend/openai.go:600-644 | one tool call per non-negative index of the table, in ascending index order, gaps skipped, each with its name and arguments |
| CompletionStream.FinalGenerate | backend/openai.go:141-158 | the final increment is done with the reason, empty text, the token count, and total = eval duration + 1 |
| CompletionStream.HandleStreamingCompletion | backend/openai.go:109-202 | the scanner loop captures every line raw and emits exactly the increments the chunk-by-chunk specification gives |
| CompletionStream.HandleChunk | backend/openai.go:137-176 | one decoded chunk updates count, flag and output as the specification's step |
| CompletionStream.FirstFinish | backend/openai.go:141 | the position of the first chunk whose finish_reason is neither empty nor "null" |
| CompletionStream.DeltasNotDone | backend/openai.go:161-169 | text increments are never final |
| CompletionStream.RunBeforeFinish | backend/openai.go:137-176 | before any finishing chunk, one delta per chunk with a choice, and the count of non-empty texts |
| CompletionStream.RunAfterFinal | backend/openai.go:141-176 | after the final increment, only non-final increments are appended |
| CompletionStream.RunFromAppend | backend/openai.go:117-176 | processing chunks in two parts equals processing them at once |
| CompletionStream.RunThroughFinish | backend/openai.go:137-158 | through the first finishing chunk the output is the deltas, then the final |
| CompletionStream.FinalWithoutFinish | backend/openai.go:186-201 | with no finishing chunk the deltas are followed by one "stop" final |
| CompletionStream.FinalAtFinish | backend/openai.go:141-176 | with a finishing chunk the output starts with deltas and final, and nothing after is final |
| CompletionStream.ExactlyOneFinal | backend/openai.go:109-202 | exactly one increment is final; it carries the first finish_reason or "stop", and the count of non-empty texts before it |
| CompletionStream.RelayedCompletion | backend/openai.go:109-202 | what the client receives is the deltas before the first finishing chunk, then the final |
| ChatStream.FinalChat | backend/openai.go:461-477 | the final chat increment: empty assistant message, load duration 1, token count, total = eval + 1 |
| ChatStream.ContentDelta | backend/openai.go:530-548 | a content increment carries content and thinking; an empty role becomes "assistant" |
| ChatStream.HandleStreamingChat | backend/openai.go:406-597 | the scanner loop captures every line and emits exactly the specified increments, the closing included |
| ChatStream.HandleChatChunk | backend/openai.go:442-558 | one decoded chunk updates count, flag, tool-call table and output as the specification's step |
| ChatStream.FirstFinish | backend/openai.go:446 | the position of the first finishing chunk |
| ChatStream.ContentDeltasNotDone | backend/openai.go:530-548 | content increments are never final |
| ChatStream.RunBeforeFinish | backend/openai.go:442-558 | before any finishing chunk: exactly the content deltas, their count, and every tool-call fragment absorbed |
| ChatStream.RunAfterFinal | backend/openai.go:446-558 | after the final increment only non-final increments are appended |
| ChatStream.RunFromAppend | backend/openai.go:422-560 | processing chunks in two parts equals processing them at once |
| ChatStream.ClosingEndsWithFinal | backend/openai.go:446-477 | the closing is the tool-call message iff the table is non-empty, then the final |
| ChatStream.RunThroughFinish | backend/openai.go:442-477 | through the first finishing chunk the output is the answer |
| ChatStream.IncrementsStartWithAnswer | backend/openai.go:406-597 | the increments start with the answer; nothing after it is final |
| ChatStream.ExactlyOneFinal | backend/openai.go:406-597 | exactly one increment is final: the answer's last, with the first finish_reason or "stop" and the content-delta count |
| ChatStream.RelayedChat | backend/openai.go:406-597 | the client receives exactly the answer: content deltas, reassembled tool calls when any arrived, final |
| ChatStream.ToolCallsAtCloseByIndex | backend/openai.go:485-523 | the tool calls sent at close hold per index the last non-empty id and name and all argument pieces of the fragments before the first finishing chunk |
| OpenAIAdapter.DoneReason | backend/openai.go:219-222 | finish_reason, or "stop" when it is empty |
| OpenAIAdapter.CountOrOne | backend/openai.go:225-232 | a positive usage count is used, otherwise 1 |
| OpenAIAdapter.NonStreamingCompletion | backend/openai.go:205-244 | one final increment from the first choice iff the body decodes with a choice; usage counts default to 1 |
| OpenAIAdapter.NonStreamingChat | backend/openai.go:647-696 | one final increment with the first choice's message unchanged iff the body decodes with a choice holding a message |
| OpenAIAdapter.Exchange | backend/openai.go:79-105 | transport failure and non-200 are errors with no increments; on non-200 the raw capture and the error hold the body |
| OpenAIAdapter.Generate | backend/openai.go:36-106 | request text and URL recorded; error iff not a 200; a 200 yields the streaming or non-streaming increments |
| OpenAIAdapter.Chat | backend/openai.go:329-403 | the same for chat, with the converted request and /v1/chat/completions |
| OpenAIAdapter.ModelInfos | backend/openai.go:748-758 | one model per backend id, in order, named by the id |
| OpenAIAdapter.ListModels | backend/openai.go:699-761 | transport failure is an error; a non-200 or undecodable body gives the single "default" model |
| OpenAIAdapter.ListModelsNonEmptyUnlessNoIds | backend/openai.go:711-761 | a successful list is empty only when the backend returned an empty id list |
| OpenAIAdapter.ListedNamesComeFromBackend | backend/openai.go:711-761 | every listed model is a backend id or "default", with size 0 and no digest |
| OllamaAdapter.Forward | backend/ollama.go:75-99 | at most as many chunks forwarded as lines read, and no more lines read than there are |
| OllamaAdapter.PassThrough | backend/ollama.go:71-101 | the loop forwards the specified chunks and captures exactly the lines read |
| OllamaAdapter.ForwardIsRelayPrefix | backend/ollama.go:75-99 | the forwarded chunks are the relay prefix of the decoded, normalised chunks |
| OllamaAdapter.ForwardReadsUpToDone | backend/ollama.go:94-98 | reading stops right after the line of the first final chunk |
| OllamaAdapter.NormalizeChat | backend/ollama.go:159-170 | an empty role becomes "assistant"; a final chunk without load duration gets 1; nothing else changes |
| OllamaAdapter.NormalizeChatIdempotent | backend/ollama.go:159-170 | normalising twice is normalising once |
| OllamaAdapter.Exchange | backend/ollama.go:55-67 | transport failure and non-200 are errors; a non-200 error carries the code only, and the raw capture holds the body |
| OllamaAdapter.Generate | backend/ollama.go:34-103 | error iff not a 200; a 200 forwards decoded chunks up to the first final one |
| OllamaAdapter.Chat | backend/ollama.go:106-188 | the same for chat, each chunk normalised |
| OllamaAdapter.ListModels | backend/ollama.go:191-214 | transport failure, a non-200 (with body) and an undecodable body are errors; otherwise the decoded list |
| Config.ServerDefaults | config/config.go:74-79 | empty host becomes 0.0.0.0 and port 0 becomes 11434; the rest is kept |
| Config.BackendDefaults | config/config.go:80-82 | timeout 0 becomes 300; the rest is kept |
| Config.DatabaseDefaults | config/config.go:83-91 | empty path, 0 max requests and 0 cleanup interval become ./llm_proxy.db, 100 and 5 |
| Config.InjectionDefaults | config/config.go:92-94 | empty mode becomes "last"; the rest is kept |
| Config.WithDefaults | config/config.go:73-94 | after defaulting, no defaulted field is zero or empty |
| Config.DefaultsIdempotent | config/config.go:73-94 | a defaulted configuration is left alone; defaulting twice is defaulting once |
| Config.Load | config/config.go:49-97 | read and parse failures first, then backend type, then mode; success iff type and mode are valid, with defaults applied |
| Config.ApplyDefaults | config/config.go:73-94 | the field-by-field updates give the defaulted configuration |
| Config.LoadedConfigIsSettled | config/config.go:63-94 | after a successful load the mode is "first" or "last", the type is valid, and every default is in place |
| Handling.FrontendUrl | handlers/chat.go:280 | the logged frontend URL is http://host:, then the port written with %d (which reads back as the port), then the path |
| Handling.TextsAppend | handlers/chat.go:122-123 | the full response of two batches is the concatenation of their texts |
| Handling.RelayLoop | handlers/chat.go:122-140 | the loop relays the relay prefix, accumulates its texts, and keeps it when capturing |
| Handling.Encodings | handlers/chat.go:159-167 | one encoding per response, in order |
| Handling.CaptureFrontendResponse | handlers/chat.go:158-167 | the capture loop builds the specified capture |
| Handling.CaptureIsJoin | handlers/chat.go:158-167 | when every response encodes, the capture is the encodings joined by newlines with none trailing |
| Handling.CaptureJoinPrefix | handlers/chat.go:158-167 | before the last response the capture is the joined prefix plus a newline |
| Handling.JoinLinesSnoc | handlers/chat.go:163-165 | joining one more part adds a newline and the part |
| ChatHandler.FirstUser | handlers/chat.go:223-230 | the lowest index of a user message, -1 iff none |
| ChatHandler.LastUser | handlers/chat.go:231-239 | the highest index of a user message, -1 iff none |
| ChatHandler.Inject | handlers/chat.go:217-253 | the target user message gets a space and the text appended unless it already contains the text; without a target, or with the text present, nothing changes; roles, length and every other message are kept |
| ChatHandler.FirstUserByRoles | handlers/chat.go:223-230 | the first target depends on the roles alone |
| ChatHandler.LastUserByRoles | handlers/chat.go:231-239 | the last target depends on the roles alone |
| ChatHandler.TargetByRoles | handlers/chat.go:221-239 | the target depends on the roles alone |
| ChatHandler.InjectedTargetContainsText | handlers/chat.go:246-252 | after injection the target contains the text |
| ChatHandler.InjectIdempotent | handlers/chat.go:246-249 | injecting twice is injecting once |
| ChatHandler.ApplyTextInjection | handlers/chat.go:217-253 | the in-place update on the message array gives the specified messages |
| ChatHandler.FilterTools | handlers/chat.go:174-214 | the loop keeps exactly the specified tools in order |
| ChatHandler.FilteredAppend | handlers/chat.go:186-211 | filtering distributes over concatenation, so order is kept |
| ChatHandler.FilteredMembers | handlers/chat.go:186-211 | a tool survives iff it was offered and has no name or a name not on the blacklist |
| ChatHandler.FilteredIdempotent | handlers/chat.go:186-211 | filtering twice is filtering once |
| ChatHandler.FilteredNothingBlacklisted | handlers/chat.go:186-211 | an empty blacklist keeps every tool |
| ChatHandler.Prepared | handlers/chat.go:71-79 | injection only when enabled with non-empty text, filtering only with a non-empty blacklist; model, stream and options untouched |
| ChatHandler.PreparedIdempotent | handlers/chat.go:71-79 | preparing an already prepared request changes nothing |
| ChatHandler.InjectionReachesBackend | handlers/chat.go:71-74 | with injection on, the request sent carries the text in its target user message |
| ChatHandler.OriginalLastMessage | handlers/chat.go:66-69 | the last message's content before injection, "unknown" without messages |
| ChatHandler.PromptTextAppend | handlers/chat.go:260-266 | the prompt of two message batches is the concatenation of their prompts |
| ChatHandler.PromptTextLength | handlers/chat.go:260-266 | the prompt has at least three characters per message |
| ChatHandler.BuildPrompt | handlers/chat.go:260-266 | the loop builds one "role: content" line per message |
| ChatHandler.Prepare | handlers/chat.go:71-79 | the in-place transforms give the prepared request |
| ChatHandler.Answer | handlers/chat.go:96-170 | backend error iff logged with 500 and the error text and no response; otherwise 200 with the relay prefix and its concatenated content; last message from before injection |
| ChatHandler.CapturedAsStreamed | handlers/chat.go:125-167 | when all relayed responses encode, the logged frontend response is their encodings joined by newlines |
| ChatHandler.Stream | handlers/chat.go:117-167 | the stream loop and the always-on capture give the relay prefix, its text and its capture |
| ChatHandler.Respond | handlers/chat.go:96-170 | the steps after the backend call give the specified outcome |
| ChatHandler.Serve | handlers/chat.go:35-171 | non-POST is refused with 405, an unreadable or invalid body with 400; otherwise the prepared request goes to the backend and the outcome is as specified |
| GenerateHandler.LastMessage | handlers/generate.go:160-164 | the logged last message is the prompt, or "unknown" when it is empty |
| GenerateHandler.Answer | handlers/generate.go:76-153 | backend error iff logged with 500; otherwise 200 with the relay prefix and its text; nothing captured unless raw responses are logged |
| GenerateHandler.CapturedAsStreamed | handlers/generate.go:106-150 | with raw logging on and every response encodable, the logged frontend response is the encodings joined by newlines |
| GenerateHandler.StreamedFromOpenAI | handlers/generate.go:76-153 | against a streaming OpenAI backend answering 200, the client gets the deltas before the first finishing chunk then one final, and the log holds their text and the raw stream |
| GenerateHandler.Stream | handlers/generate.go:98-150 | the stream loop and the optional capture give the relay prefix, its text and its capture |
| GenerateHandler.Respond | handlers/generate.go:76-153 | the steps after the backend call give the specified outcome |
| GenerateHandler.Serve | handlers/generate.go:35-154 | non-POST refused with 405, bad body with 400, otherwise the request goes unchanged to the backend |
| Web.TruncateString | handlers/web.go:53-58 | s itself when it fits; otherwise its first maxLen characters then "...", length maxLen + 3 |
| Web.TruncateIdempotent | handlers/web.go:53-58 | truncating twice is truncating once |
| Web.Page | handlers/web.go:84-89 | the page is the parameter when it parses as a positive integer, else 1 |
| Web.PageOfLink | handlers/web.go:84-89 | a page number written with %d reads back as itself |
| Web.Offset | handlers/web.go:91 | the offset is non-negative, a multiple of 25, and exactly (page - 1) pages of 25 |
| Web.TotalPages | handlers/web.go:109 | the page count is total / 25 rounded up |
| Web.Paginate | handlers/web.go:122-130 | HasPrev iff page > 1, HasNext iff page < totalPages, PrevPage = page - 1, NextPage = page + 1 |
| Web.HasNextIffMoreEntries | handlers/web.go:109-127 | a next link is offered iff entries remain past this page |
| Web.PageInRange | handlers/web.go:91-109 | a page shows some entry iff it is at most totalPages |
| Web.PrevIsAPage | handlers/web.go:126-128 | the previous page is a valid page directly before this one |
| Logging.HeaderPos | middleware/logging.go:16-22 | the first header event, -1 when there is none |
| Logging.ApplyKeepsWellformed | middleware/logging.go:16-37 | every call keeps the invariant: at most one header reaches the writer, carrying the recorded status, before any body |
| Logging.RunKeepsWellformed | middleware/logging.go:16-37 | any sequence of calls keeps that invariant |
| Logging.RunStatus | middleware/logging.go:16-30 | once written the header flag and status never change; otherwise the status is the code of the first WriteHeader before any Write, 200 if a Write comes first |
| Logging.RunForwardsWrites | middleware/logging.go:25-30 | every body write reaches the underlying writer, in order |
| Logging.DirectForwardsWrites | middleware/logging.go:43-46 | unwrapped, every body write reaches the writer in order |
| Logging.WrappingKeepsBody | middleware/logging.go:40-70 | wrapping never changes the body the client receives |
| Logging.ResponseWriter.constructor | middleware/logging.go:51-55 | status 200, header not written |
| Logging.ResponseWriter.WriteHeader | middleware/logging.go:16-23 | the first call records and forwards the code; later calls change nothing |
| Logging.ResponseWriter.Write | middleware/logging.go:25-30 | a write before any header first sends the implicit 200 |
| Logging.ResponseWriter.Flush | middleware/logging.go:33-37 | flush is forwarded only when the writer can flush |
| Logging.ResponseWriter.Perform | middleware/logging.go:16-37 | one handler call on the wrapper |
| Logging.RequestLogging | middleware/logging.go:40-70 | verbose off: calls go straight through and nothing is logged; verbose on: the wrapper's events, and the logged status is the status the calls set |

## Left out

- Concurrency: the backend goroutines, channels and context cancellation. A stream is modelled
  as the whole sequence of increments the goroutine would send. A cancelled context (the
  `ctx.Done()` branches) is not modelled.
- The race on `metadata.RawResponse`: the handlers may read it before the goroutine has
  stored it. The model logs the value the goroutine stores.
- HTTP plumbing: requests, headers, flushing, `http.Error` bodies, the client's own status
  codes. The JSON encoder and decoder and the line scanner are parameters. Scanner errors and
  its 64 KiB line limit are not modelled.
- Failing `json.Marshal` calls. The request encoders are total functions. The relay loop's
  `break` on a failed client write is not modelled. A response that fails `json.Marshal` in
  the capture is modelled.
- `io.ReadAll` errors after a 200 answer in the non-streaming paths, which end with no
  increment and no raw response. `handleStreamingCompletion`'s non-200 body read ignores
  errors in the source too.
- Time: `CreatedAt`, `ModifiedAt`, and latency. Elapsed nanoseconds are a parameter.
- The Go error strings. Errors are the `BackendError` datatype. `ErrorText` keeps the status
  code and the body, but not the decoder's or the transport's own wording.
- Width of integers: counts and durations are unbounded. Go's 64-bit
  `(page - 1) * 25` and `int(float64)` would overflow for values no client sends.
- Web.TruncateString: lengths count characters. Go counts bytes and may cut a multi-byte
  UTF-8 sequence in half.
- `formatBytes` (floating-point formatting), templates, the favicon, `DetailsHandler`, the
  database, `main.go` wiring, `handlers/models.go` and `backend/backend.go`. None of these is
  part of this model.
- Logging.ResponseWriter.Write: the underlying writer's byte count and error are not
  returned. Only what reaches the writer is modelled.
- nil and empty Go slices and maps are not distinguished. `omitempty` serialisation is part
  of the encoder parameter.

Where the code and the documented design differ, the model follows the code:

- Reassembled tool calls keep the last non-empty id and name per index, not the first.
- After its final increment the OpenAI stream adapter keeps emitting non-final increments for
  any later chunk with a choice. The relay stops at the first final increment, so the client
  never sees them. `ExactlyOneFinal` states what the adapter emits and `RelayedCompletion` /
  `RelayedChat` what the client receives.
- The Ollama adapter's error for a non-200 status carries only the code. The body is kept
  only in the raw capture.
- `config/config.go` declares no `tool_blacklist`, `force_prompt_cache` or `thinking` fields.
  `handlers/chat.go` and `backend/openai.go` use them, so the model adds them to
  `Config.BackendConfig` and `Types.Message`.
