/** Request translation of the OpenAI adapter (backend/openai.go): the frontend request's
    options and messages rewritten into the OpenAI dialect. */
module OpenAIRequest {

  import opened Wrappers
  import opened Json
  import opened Types

  /** `options[key].(float64)`: the value under `key` when it is a JSON number. */
  function NumberOption(options: map<string, Value>, key: string): Option<real> {
    if key in options && options[key].Number? then Some(options[key].n) else None
  }

  /** The three option keys the adapter recognises. */
  predicate AgreeOnRecognized(o1: map<string, Value>, o2: map<string, Value>) {
    && NumberOption(o1, "temperature") == NumberOption(o2, "temperature")
    && NumberOption(o1, "num_predict") == NumberOption(o2, "num_predict")
    && NumberOption(o1, "top_p") == NumberOption(o2, "top_p")
  }

  /** Copies temperature, num_predict (as max_tokens, truncated toward zero) and top_p when
      they are numbers; every other key, and a value of another JSON type, is ignored and
      leaves the parameter at its zero value. */
  function MapOptions(options: map<string, Value>): (p: OpenAIParams)
    ensures NumberOption(options, "temperature") == None ==> p.temperature == 0.0
    ensures NumberOption(options, "top_p") == None ==> p.topP == 0.0
    ensures NumberOption(options, "num_predict") == None ==> p.maxTokens == 0
    ensures NumberOption(options, "temperature") != None ==> p.temperature == options["temperature"].n
    ensures NumberOption(options, "top_p") != None ==> p.topP == options["top_p"].n
    ensures NumberOption(options, "num_predict") != None ==>
      var n := options["num_predict"].n;
      (0.0 <= n ==> 0 <= p.maxTokens && p.maxTokens as real <= n < p.maxTokens as real + 1.0) &&
      (n < 0.0 ==> p.maxTokens <= 0 && p.maxTokens as real - 1.0 < n <= p.maxTokens as real)
  {
    OpenAIParams(
      maxTokens := match NumberOption(options, "num_predict") case Some(n) => TruncateToInt(n) case None => 0,
      temperature := NumberOption(options, "temperature").GetOr(0.0),
      topP := NumberOption(options, "top_p").GetOr(0.0))
  }

  /** Only the three recognised keys matter: options that agree on them translate alike. */
  lemma OptionsOnlyRecognizedKeys(o1: map<string, Value>, o2: map<string, Value>)
    requires AgreeOnRecognized(o1, o2)
    ensures MapOptions(o1) == MapOptions(o2)
  {
  }

  /** The completion request built by Generate. */
  function CompletionRequestFor(req: GenerateRequest, forcePromptCache: bool): (r: OpenAICompletionRequest)
    ensures r.model == req.model && r.prompt == req.prompt && r.stream == req.stream
    ensures r.cachePrompt == forcePromptCache
    ensures r.params == MapOptions(req.options)
  {
    OpenAICompletionRequest(req.model, req.prompt, req.stream, MapOptions(req.options), forcePromptCache)
  }

  /** The `function` object of a tool call in OpenAI form: the name when it is a string, and
      the arguments always as a string -- kept when already one, otherwise JSON-encoded,
      with "{}" when encoding fails or there are no arguments. */
  function ConvertFunction(fn: map<string, Value>, encode: Value -> Option<string>): (r: map<string, Value>)
    ensures "arguments" in r && r["arguments"].Str?
    ensures r.Keys <= {"name", "arguments"}
    ensures "name" in r <==> "name" in fn && fn["name"].Str?
    ensures "name" in r ==> r["name"] == fn["name"]
    ensures "arguments" !in fn ==> r["arguments"] == Str("{}")
    ensures "arguments" in fn && fn["arguments"].Str? ==> r["arguments"] == fn["arguments"]
    ensures "arguments" in fn && !fn["arguments"].Str? ==> r["arguments"] == Str(encode(fn["arguments"]).GetOr("{}"))
  {
    var named: map<string, Value> :=
      if "name" in fn && fn["name"].Str? then map["name" := fn["name"]] else map[];
    var args :=
      if "arguments" !in fn then Str("{}")
      else if fn["arguments"].Str? then fn["arguments"]
      else Str(encode(fn["arguments"]).GetOr("{}"));
    named["arguments" := args]
  }

  /** One tool call of a message in OpenAI form: a non-object is kept as it is; an object
      gets "type": "function", its function object converted (a non-object function field
      is copied, a missing one becomes null), and every other key copied. */
  function ConvertToolCall(tc: Value, encode: Value -> Option<string>): (r: Value)
    ensures !tc.Object? ==> r == tc
    ensures tc.Object? ==> r.Object? && r.fields.Keys == tc.fields.Keys + {"type", "function"}
    ensures tc.Object? ==> r.fields["type"] == Str("function")
    ensures tc.Object? ==> forall k :: k in tc.fields && k != "function" && k != "type" ==> r.fields[k] == tc.fields[k]
    ensures tc.Object? && "function" in tc.fields && tc.fields["function"].Object? ==>
      r.fields["function"] == Object(ConvertFunction(tc.fields["function"].fields, encode))
    ensures tc.Object? && !("function" in tc.fields && tc.fields["function"].Object?) ==>
      r.fields["function"] == (if "function" in tc.fields then tc.fields["function"] else Null)
  {
    match tc
    case Object(fields) =>
      var fn := if "function" in fields then fields["function"] else Null;
      var newFn := if fn.Object? then Object(ConvertFunction(fn.fields, encode)) else fn;
      var rest := map k | k in fields && k != "function" && k != "type" :: fields[k];
      Object(rest["type" := Str("function")]["function" := newFn])
    case _ => tc
  }

  /** Converting a tool call that is already in OpenAI form changes nothing more. */
  lemma ConvertToolCallIdempotent(tc: Value, encode: Value -> Option<string>)
    ensures ConvertToolCall(ConvertToolCall(tc, encode), encode) == ConvertToolCall(tc, encode)
  {
    var once := ConvertToolCall(tc, encode);
    if tc.Object? {
      var twice := ConvertToolCall(once, encode);
      var fn := once.fields["function"];
      if fn.Object? {
        assert ConvertFunction(fn.fields, encode) == fn.fields;
      }
      assert twice.fields.Keys == once.fields.Keys;
      assert forall k :: k in once.fields ==> twice.fields[k] == once.fields[k];
    }
  }

  /** A message in OpenAI form: only its tool calls change, each converted in place. */
  function ConvertMessage(m: Message, encode: Value -> Option<string>): (r: Message)
    ensures r.role == m.role && r.content == m.content && r.thinking == m.thinking
    ensures |r.toolCalls| == |m.toolCalls|
    ensures forall j :: 0 <= j < |m.toolCalls| ==> r.toolCalls[j] == ConvertToolCall(m.toolCalls[j], encode)
  {
    if |m.toolCalls| > 0 then
      m.(toolCalls := seq(|m.toolCalls|, j requires 0 <= j < |m.toolCalls| => ConvertToolCall(m.toolCalls[j], encode)))
    else m
  }

  /** All messages in OpenAI form: same count, same order, each message converted. */
  function ConvertMessages(messages: seq<Message>, encode: Value -> Option<string>): (r: seq<Message>)
    ensures |r| == |messages|
    ensures forall i :: 0 <= i < |messages| ==> r[i] == ConvertMessage(messages[i], encode)
  {
    seq(|messages|, i requires 0 <= i < |messages| => ConvertMessage(messages[i], encode))
  }

  /** convertMessagesToOpenAI, building the converted slice message by message. */
  method ConvertMessagesToOpenAI(messages: seq<Message>, encode: Value -> Option<string>)
    returns (converted: seq<Message>)
    ensures converted == ConvertMessages(messages, encode)
  {
    converted := [];
    var i := 0;
    while i < |messages|
      invariant 0 <= i <= |messages| && |converted| == i
      invariant forall k :: 0 <= k < i ==> converted[k] == ConvertMessage(messages[k], encode)
    {
      var msg := messages[i];
      if |msg.toolCalls| > 0 {
        var toolCalls: seq<Value> := [];
        var j := 0;
        while j < |msg.toolCalls|
          invariant 0 <= j <= |msg.toolCalls| && |toolCalls| == j
          invariant forall k :: 0 <= k < j ==> toolCalls[k] == ConvertToolCall(msg.toolCalls[k], encode)
        {
          toolCalls := toolCalls + [ConvertToolCall(msg.toolCalls[j], encode)];
          j := j + 1;
        }
        msg := msg.(toolCalls := toolCalls);
      }
      converted := converted + [msg];
      i := i + 1;
    }
  }

  /** The chat request built by Chat: converted messages, tools passed through unchanged. */
  function ChatRequestFor(req: ChatRequest, forcePromptCache: bool, encode: Value -> Option<string>): (r: OpenAIChatRequest)
    ensures r.model == req.model && r.stream == req.stream && r.tools == req.tools
    ensures r.messages == ConvertMessages(req.messages, encode) && r.cachePrompt == forcePromptCache
    ensures r.params == MapOptions(req.options)
  {
    OpenAIChatRequest(req.model, ConvertMessages(req.messages, encode), req.stream, MapOptions(req.options), req.tools, forcePromptCache)
  }

  /** Two generate requests that differ only in unrecognised options translate alike, and the
      prompt-cache flag is the backend's, whatever the client sent. */
  lemma CompletionRequestIgnoresOtherOptions(r1: GenerateRequest, r2: GenerateRequest, force: bool)
    requires r1.model == r2.model && r1.prompt == r2.prompt && r1.stream == r2.stream
    requires AgreeOnRecognized(r1.options, r2.options)
    ensures CompletionRequestFor(r1, force) == CompletionRequestFor(r2, force)
  {
    OptionsOnlyRecognizedKeys(r1.options, r2.options);
  }
}
