/** ServeHTTP of handlers/chat.go: the request-side transforms (text injection into a user
    message, tool blacklist filtering), the relay of the backend's increments, and the log
    entry with its prompt and last message. */
module ChatHandler {

  import opened Wrappers
  import opened Json
  import opened Text
  import opened Types
  import opened Relay
  import opened Handling
  import Config

  // ---- text injection ----

  const UserRole := "user"

  /** The lowest index of a user message, -1 when there is none. */
  function FirstUser(msgs: seq<Message>): (t: int)
    ensures -1 <= t < |msgs|
    ensures t >= 0 ==> msgs[t].role == UserRole && forall j :: 0 <= j < t ==> msgs[j].role != UserRole
    ensures t == -1 ==> forall j :: 0 <= j < |msgs| ==> msgs[j].role != UserRole
  {
    if msgs == [] then -1
    else if msgs[0].role == UserRole then 0
    else
      var r := FirstUser(msgs[1..]);
      if r == -1 then -1 else r + 1
  }

  /** The highest index of a user message, -1 when there is none. */
  function LastUser(msgs: seq<Message>): (t: int)
    ensures -1 <= t < |msgs|
    ensures t >= 0 ==> msgs[t].role == UserRole && forall j :: t < j < |msgs| ==> msgs[j].role != UserRole
    ensures t == -1 ==> forall j :: 0 <= j < |msgs| ==> msgs[j].role != UserRole
  {
    if msgs == [] then -1
    else if msgs[|msgs| - 1].role == UserRole then |msgs| - 1
    else LastUser(msgs[..|msgs| - 1])
  }

  /** The message injection aims at: the first user message in mode "first", the last one
      in any other mode. */
  function Target(msgs: seq<Message>, mode: string): int {
    if mode == "first" then FirstUser(msgs) else LastUser(msgs)
  }

  /** The messages after injection: the target's content gets a space and the text appended,
      unless there is no target or the text already occurs in it. */
  function Inject(msgs: seq<Message>, text: string, mode: string): (r: seq<Message>)
    ensures |r| == |msgs|
    ensures forall j :: 0 <= j < |msgs| ==> r[j].role == msgs[j].role
    ensures forall j :: 0 <= j < |msgs| && j != Target(msgs, mode) ==> r[j] == msgs[j]
    ensures var t := Target(msgs, mode);
      t != -1 && !Contains(msgs[t].content, text) ==>
        r[t] == msgs[t].(content := msgs[t].content + " " + text)
    ensures var t := Target(msgs, mode);
      t == -1 || Contains(msgs[t].content, text) ==> r == msgs
  {
    var t := Target(msgs, mode);
    if t == -1 || Contains(msgs[t].content, text) then msgs
    else msgs[t := msgs[t].(content := msgs[t].content + " " + text)]
  }

  /** Only the roles decide the first user message. */
  lemma {:induction false} FirstUserByRoles(a: seq<Message>, b: seq<Message>)
    requires |a| == |b| && forall j :: 0 <= j < |a| ==> a[j].role == b[j].role
    ensures FirstUser(a) == FirstUser(b)
  {
    if a != [] && a[0].role != UserRole {
      FirstUserByRoles(a[1..], b[1..]);
    }
  }

  /** Only the roles decide the last user message. */
  lemma {:induction false} LastUserByRoles(a: seq<Message>, b: seq<Message>)
    requires |a| == |b| && forall j :: 0 <= j < |a| ==> a[j].role == b[j].role
    ensures LastUser(a) == LastUser(b)
  {
    if a != [] && a[|a| - 1].role != UserRole {
      LastUserByRoles(a[..|a| - 1], b[..|b| - 1]);
    }
  }

  /** Only the roles decide the target. */
  lemma TargetByRoles(a: seq<Message>, b: seq<Message>, mode: string)
    requires |a| == |b| && forall j :: 0 <= j < |a| ==> a[j].role == b[j].role
    ensures Target(a, mode) == Target(b, mode)
  {
    FirstUserByRoles(a, b);
    LastUserByRoles(a, b);
  }

  /** After injection the target contains the text, whatever it held before. */
  lemma InjectedTargetContainsText(msgs: seq<Message>, text: string, mode: string)
    requires Target(msgs, mode) != -1
    ensures Contains(Inject(msgs, text, mode)[Target(msgs, mode)].content, text)
  {
    var t := Target(msgs, mode);
    if !Contains(msgs[t].content, text) {
      ContainsSuffix(msgs[t].content + " ", text);
    }
  }

  /** Injecting twice is injecting once. */
  lemma InjectIdempotent(msgs: seq<Message>, text: string, mode: string)
    ensures Inject(Inject(msgs, text, mode), text, mode) == Inject(msgs, text, mode)
  {
    var once := Inject(msgs, text, mode);
    TargetByRoles(msgs, once, mode);
    if Target(msgs, mode) != -1 {
      InjectedTargetContainsText(msgs, text, mode);
    }
  }

  /** applyTextInjection: search for the target, then update its content in place. */
  method ApplyTextInjection(messages: array<Message>, text: string, mode: string)
    modifies messages
    ensures messages[..] == Inject(old(messages[..]), text, mode)
  {
    ghost var msgs := messages[..];
    var targetIndex := -1;
    if mode == "first" {
      var i := 0;
      while i < messages.Length
        invariant 0 <= i <= messages.Length
        invariant forall j :: 0 <= j < i ==> msgs[j].role != UserRole
        invariant messages[..] == msgs
      {
        if messages[i].role == UserRole {
          targetIndex := i;
          break;
        }
        i := i + 1;
      }
      assert targetIndex == FirstUser(msgs);
    } else {
      var i := messages.Length - 1;
      while i >= 0
        invariant -1 <= i < messages.Length
        invariant forall j :: i < j < messages.Length ==> msgs[j].role != UserRole
        invariant messages[..] == msgs
      {
        if messages[i].role == UserRole {
          targetIndex := i;
          break;
        }
        i := i - 1;
      }
      assert targetIndex == LastUser(msgs);
    }
    if targetIndex == -1 {
      return;
    }
    if Contains(messages[targetIndex].content, text) {
      return;
    }
    messages[targetIndex] := messages[targetIndex].(content := messages[targetIndex].content + " " + text);
  }

  // ---- tool filtering ----

  /** The name a tool declares: function.name when the tool is an object whose function is
      an object with a string name, "" otherwise. */
  function ToolName(tool: Value): string {
    match Field(tool, "function")
    case Some(fn) => StringField(fn, "name").GetOr("")
    case None => ""
  }

  /** A tool is kept unless it declares a non-empty name on the blacklist. */
  predicate Kept(tool: Value, blacklist: seq<string>) {
    ToolName(tool) == "" || ToolName(tool) !in blacklist
  }

  function Filtered(tools: seq<Value>, blacklist: seq<string>): seq<Value> {
    if tools == [] then []
    else Filtered(tools[..|tools| - 1], blacklist) + (if Kept(tools[|tools| - 1], blacklist) then [tools[|tools| - 1]] else [])
  }

  /** filterTools: the kept tools, rebuilt in order. */
  method FilterTools(tools: seq<Value>, blacklist: seq<string>) returns (filtered: seq<Value>)
    ensures filtered == Filtered(tools, blacklist)
  {
    if |tools| == 0 {
      return tools;
    }
    filtered := [];
    var i := 0;
    while i < |tools|
      invariant 0 <= i <= |tools|
      invariant filtered == Filtered(tools[..i], blacklist)
    {
      assert tools[..i + 1][..i] == tools[..i];
      var tool := tools[i];
      var toolName := "";
      if tool.Object? && "function" in tool.fields && tool.fields["function"].Object? {
        var funcField := tool.fields["function"].fields;
        if "name" in funcField && funcField["name"].Str? {
          toolName := funcField["name"].s;
        }
      }
      assert toolName == ToolName(tool);
      if toolName == "" || toolName !in blacklist {
        filtered := filtered + [tool];
      }
      i := i + 1;
    }
    assert tools[..i] == tools;
  }

  /** Filtering distributes over concatenation, so the kept tools stay in their order. */
  lemma {:induction false} FilteredAppend(a: seq<Value>, b: seq<Value>, blacklist: seq<string>)
    ensures Filtered(a + b, blacklist) == Filtered(a, blacklist) + Filtered(b, blacklist)
    decreases |b|
  {
    if b == [] {
      assert a + b == a;
    } else {
      assert (a + b)[..|a + b| - 1] == a + b[..|b| - 1];
      FilteredAppend(a, b[..|b| - 1], blacklist);
    }
  }

  /** A tool survives exactly when it was offered and is kept. */
  lemma {:induction false} FilteredMembers(tools: seq<Value>, blacklist: seq<string>, tool: Value)
    ensures tool in Filtered(tools, blacklist) <==> tool in tools && Kept(tool, blacklist)
  {
    if tools != [] {
      var init := tools[..|tools| - 1];
      FilteredMembers(init, blacklist, tool);
      assert tools == init + [tools[|tools| - 1]];
    }
  }

  /** Every survivor is kept, so filtering again changes nothing. */
  lemma {:induction false} FilteredIdempotent(tools: seq<Value>, blacklist: seq<string>)
    ensures Filtered(Filtered(tools, blacklist), blacklist) == Filtered(tools, blacklist)
  {
    if tools != [] {
      var init := tools[..|tools| - 1];
      var last := tools[|tools| - 1];
      FilteredIdempotent(init, blacklist);
      if Kept(last, blacklist) {
        assert Filtered(tools, blacklist) == Filtered(init, blacklist) + [last];
        FilteredAppend(Filtered(init, blacklist), [last], blacklist);
        assert [last][..0] == [];
        assert Filtered([last], blacklist) == Filtered([], blacklist) + [last];
      } else {
        assert Filtered(tools, blacklist) == Filtered(init, blacklist) + [];
        assert Filtered(init, blacklist) + [] == Filtered(init, blacklist);
      }
    }
  }

  /** With an empty blacklist every tool is kept. */
  lemma {:induction false} FilteredNothingBlacklisted(tools: seq<Value>)
    ensures Filtered(tools, []) == tools
  {
    if tools != [] {
      FilteredNothingBlacklisted(tools[..|tools| - 1]);
    }
  }

  // ---- the request the backend gets ----

  /** Injection when enabled with a non-empty text, then filtering when the blacklist is not
      empty; the two touch different fields. */
  function Prepared(req: ChatRequest, cfg: Config.Config): (sent: ChatRequest)
    ensures sent.model == req.model && sent.stream == req.stream && sent.options == req.options
    ensures cfg.chatTextInjection.enabled && cfg.chatTextInjection.text != "" ==>
      sent.messages == Inject(req.messages, cfg.chatTextInjection.text, cfg.chatTextInjection.mode)
    ensures !(cfg.chatTextInjection.enabled && cfg.chatTextInjection.text != "") ==> sent.messages == req.messages
    ensures sent.tools == (if |cfg.backend.toolBlacklist| > 0 then Filtered(req.tools, cfg.backend.toolBlacklist) else req.tools)
  {
    var injection := cfg.chatTextInjection;
    var messages := if injection.enabled && injection.text != "" then Inject(req.messages, injection.text, injection.mode) else req.messages;
    var tools := if |cfg.backend.toolBlacklist| > 0 then Filtered(req.tools, cfg.backend.toolBlacklist) else req.tools;
    req.(messages := messages, tools := tools)
  }

  /** Preparing an already prepared request changes nothing. */
  lemma PreparedIdempotent(req: ChatRequest, cfg: Config.Config)
    ensures Prepared(Prepared(req, cfg), cfg) == Prepared(req, cfg)
  {
    InjectIdempotent(req.messages, cfg.chatTextInjection.text, cfg.chatTextInjection.mode);
    FilteredIdempotent(req.tools, cfg.backend.toolBlacklist);
  }

  /** With injection on, the request the backend gets carries the text in its target user
      message, whether it was there already or was appended. */
  lemma InjectionReachesBackend(req: ChatRequest, cfg: Config.Config)
    requires cfg.chatTextInjection.enabled && cfg.chatTextInjection.text != ""
    requires Target(req.messages, cfg.chatTextInjection.mode) != -1
    ensures var t := Target(req.messages, cfg.chatTextInjection.mode);
      Contains(Prepared(req, cfg).messages[t].content, cfg.chatTextInjection.text)
  {
    InjectedTargetContainsText(req.messages, cfg.chatTextInjection.text, cfg.chatTextInjection.mode);
  }

  // ---- logging ----

  /** The content of the last message of any role, before injection; "unknown" when there
      are no messages. */
  function OriginalLastMessage(msgs: seq<Message>): (s: string)
    ensures msgs == [] ==> s == "unknown"
    ensures msgs != [] ==> s == msgs[|msgs| - 1].content
  {
    if msgs == [] then "unknown" else msgs[|msgs| - 1].content
  }

  function PromptLine(m: Message): string {
    m.role + ": " + m.content + "\n"
  }

  /** The logged prompt: one "role: content" line per message. */
  function PromptText(msgs: seq<Message>): string {
    if msgs == [] then "" else PromptText(msgs[..|msgs| - 1]) + PromptLine(msgs[|msgs| - 1])
  }

  lemma {:induction false} PromptTextAppend(a: seq<Message>, b: seq<Message>)
    ensures PromptText(a + b) == PromptText(a) + PromptText(b)
    decreases |b|
  {
    if b == [] {
      assert a + b == a;
    } else {
      assert (a + b)[..|a + b| - 1] == a + b[..|b| - 1];
      PromptTextAppend(a, b[..|b| - 1]);
    }
  }

  /** The prompt has one line per message: its newlines number at least the messages. */
  lemma {:induction false} PromptTextLength(msgs: seq<Message>)
    ensures |PromptText(msgs)| >= 3 * |msgs|
  {
    if msgs != [] {
      PromptTextLength(msgs[..|msgs| - 1]);
    }
  }

  /** The prompt-building loop of logRequest. */
  method BuildPrompt(msgs: seq<Message>) returns (prompt: string)
    ensures prompt == PromptText(msgs)
  {
    prompt := "";
    var i := 0;
    while i < |msgs|
      invariant 0 <= i <= |msgs|
      invariant prompt == PromptText(msgs[..i])
    {
      assert msgs[..i + 1][..i] == msgs[..i];
      prompt := prompt + msgs[i].role + ": " + msgs[i].content + "\n";
      i := i + 1;
    }
    assert msgs[..i] == msgs;
  }

  const Endpoint := "/api/chat"

  function MessageContent(c: ChatResponse): string {
    c.message.content
  }

  /** The log entry of a chat request: the prompt of the messages sent, the last message of
      the messages received. */
  function Entry(
    cfg: Config.Config, req: ChatRequest, sent: ChatRequest, response: string, status: int, error: string,
    frontendRequest: string, frontendResponse: string, md: BackendMetadata): LogEntry
  {
    LogEntry(
      Endpoint, "POST", sent.model, PromptText(sent.messages), response, status, sent.stream,
      cfg.backend.kind, error, FrontendUrl(cfg.server.host, cfg.server.port, Endpoint), md.url,
      frontendRequest, frontendResponse, md.rawRequest, md.rawResponse, OriginalLastMessage(req.messages))
  }

  /** The transforms ServeHTTP applies before calling the backend. */
  method Prepare(req: ChatRequest, cfg: Config.Config) returns (sent: ChatRequest)
    ensures sent == Prepared(req, cfg)
  {
    sent := req;
    if cfg.chatTextInjection.enabled && cfg.chatTextInjection.text != "" {
      var messages := new Message[|sent.messages|](i requires 0 <= i < |sent.messages| => sent.messages[i]);
      assert messages[..] == sent.messages;
      ApplyTextInjection(messages, cfg.chatTextInjection.text, cfg.chatTextInjection.mode);
      sent := sent.(messages := messages[..]);
    }
    if |cfg.backend.toolBlacklist| > 0 {
      var tools := FilterTools(sent.tools, cfg.backend.toolBlacklist);
      sent := sent.(tools := tools);
    }
  }

  /** What ServeHTTP does with the backend's answer: the error path or the relay. */
  function Answer(cfg: Config.Config, req: ChatRequest, body: string, sent: ChatRequest,
                  o: Outcome<ChatResponse>, encode: ChatResponse -> Option<string>): (h: Handled<ChatRequest, ChatResponse>)
    ensures o.err.Some? <==> h.BackendFailed?
    ensures !h.Refused? && h.sent == sent
    ensures !h.Refused? ==> (
      && h.entry.lastMessage == OriginalLastMessage(req.messages)
      && h.entry.prompt == PromptText(sent.messages)
      && h.entry.frontendRequest == body
      && h.entry.backendRequest == o.metadata.rawRequest
      && h.entry.backendResponse == o.metadata.rawResponse)
    ensures h.BackendFailed? ==> (
      && h.message == ErrorText(o.err.value)
      && h.entry.error == h.message
      && h.entry.statusCode == StatusInternalServerError
      && h.entry.response == ""
      && h.entry.frontendResponse == "")
    ensures h.Relayed? ==> (
      && h.entry.statusCode == StatusOK
      && h.entry.error == ""
      && h.streamed == RelayPrefix(o.increments, ChatDone)
      && h.entry.response == Texts(h.streamed, MessageContent))
  {
    if o.err.Some? then
      BackendFailed(sent, ErrorText(o.err.value),
        Entry(cfg, req, sent, "", StatusInternalServerError, ErrorText(o.err.value), body, "", o.metadata))
    else
      var streamed := RelayPrefix(o.increments, ChatDone);
      Relayed(sent, streamed,
        Entry(cfg, req, sent, Texts(streamed, MessageContent), StatusOK, "", body, Capture(Encodings(streamed, encode)), o.metadata))
  }

  /** When every relayed response encodes, the logged frontend response is exactly the
      stream the client read: the encodings joined by newlines. */
  lemma CapturedAsStreamed(cfg: Config.Config, req: ChatRequest, body: string, sent: ChatRequest,
                           o: Outcome<ChatResponse>, encode: ChatResponse -> Option<string>)
    requires o.err.None?
    requires forall r :: r in o.increments ==> encode(r).Some?
    ensures var h := Answer(cfg, req, body, sent, o, encode);
      var encoded := Encodings(h.streamed, encode);
      (forall i :: 0 <= i < |encoded| ==> encoded[i].Some?) &&
      h.entry.frontendResponse == JoinLines(Values(encoded))
  {
    var h := Answer(cfg, req, body, sent, o, encode);
    var encoded := Encodings(h.streamed, encode);
    assert forall i :: 0 <= i < |encoded| ==> h.streamed[i] in o.increments;
    CaptureIsJoin(encoded);
  }

  /** The streaming loop and the newline-delimited capture of what it wrote; chat responses
      are always kept for the log. */
  method Stream(increments: seq<ChatResponse>, encode: ChatResponse -> Option<string>)
    returns (streamed: seq<ChatResponse>, fullResponse: string, frontendResponse: string)
    ensures streamed == RelayPrefix(increments, ChatDone)
    ensures fullResponse == Texts(streamed, MessageContent)
    ensures frontendResponse == Capture(Encodings(streamed, encode))
  {
    var responses;
    streamed, fullResponse, responses := RelayLoop(increments, ChatDone, MessageContent, true);
    frontendResponse := CaptureFrontendResponse(responses, encode);
  }

  /** The part of ServeHTTP after the backend call: relay, capture, log entry. */
  method Respond(cfg: Config.Config, req: ChatRequest, body: string, sent: ChatRequest,
                 o: Outcome<ChatResponse>, encode: ChatResponse -> Option<string>)
    returns (h: Handled<ChatRequest, ChatResponse>)
    ensures h == Answer(cfg, req, body, sent, o, encode)
  {
    var originalLastMessage := OriginalLastMessage(req.messages);
    var prompt := BuildPrompt(sent.messages);
    var frontendUrl := FrontendUrl(cfg.server.host, cfg.server.port, Endpoint);
    if o.err.Some? {
      var message := ErrorText(o.err.value);
      var entry := LogEntry(
        Endpoint, "POST", sent.model, prompt, "", StatusInternalServerError, sent.stream, cfg.backend.kind,
        message, frontendUrl, o.metadata.url, body, "", o.metadata.rawRequest, o.metadata.rawResponse,
        originalLastMessage);
      return BackendFailed(sent, message, entry);
    }
    var streamed, fullResponse, frontendResponse := Stream(o.increments, encode);
    var entry := LogEntry(
      Endpoint, "POST", sent.model, prompt, fullResponse, StatusOK, sent.stream, cfg.backend.kind,
      "", frontendUrl, o.metadata.url, body, frontendResponse, o.metadata.rawRequest, o.metadata.rawResponse,
      originalLastMessage);
    return Relayed(sent, streamed, entry);
  }

  /** ServeHTTP: method and body checks, transforms, the backend call, the relay, the log. */
  method Serve(
    cfg: Config.Config, inbound: Inbound, decodeRequest: string -> Option<ChatRequest>,
    backend: ChatRequest -> Outcome<ChatResponse>, encode: ChatResponse -> Option<string>)
    returns (h: Handled<ChatRequest, ChatResponse>)
    ensures inbound.httpMethod != "POST" ==> h == Refused(StatusMethodNotAllowed, "Method not allowed")
    ensures inbound.httpMethod == "POST" && inbound.body.None? ==> h == Refused(StatusBadRequest, "Failed to read request body")
    ensures inbound.httpMethod == "POST" && inbound.body.Some? && decodeRequest(inbound.body.value).None? ==>
      h == Refused(StatusBadRequest, "Invalid request body")
    ensures inbound.httpMethod == "POST" && inbound.body.Some? && decodeRequest(inbound.body.value).Some? ==>
      var req := decodeRequest(inbound.body.value).value;
      var sent := Prepared(req, cfg);
      h == Answer(cfg, req, inbound.body.value, sent, backend(sent), encode)
  {
    if inbound.httpMethod != "POST" {
      return Refused(StatusMethodNotAllowed, "Method not allowed");
    }
    if inbound.body.None? {
      return Refused(StatusBadRequest, "Failed to read request body");
    }
    var body := inbound.body.value;
    var parsed := decodeRequest(body);
    if parsed.None? {
      return Refused(StatusBadRequest, "Invalid request body");
    }
    var req := parsed.value;
    var sent := Prepare(req, cfg);
    var o := backend(sent);
    h := Respond(cfg, req, body, sent, o, encode);
  }
}
