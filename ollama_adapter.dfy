/** The pass-through adapter of backend/ollama.go: newline-delimited JSON lines from the
    backend are forwarded one by one (chat chunks lightly normalised) until the first final
    one; every line read is captured raw. */
module OllamaAdapter {

  import opened Wrappers
  import opened Text
  import opened Types
  import opened Relay

  datatype Backend = Backend(endpoint: string)

  const GeneratePath := "/api/generate"
  const ChatPath := "/api/chat"

  /** The chunks forwarded and the number of lines read before the loop returned. */
  datatype Forwarded<T> = Forwarded(out: seq<T>, consumed: nat)

  /** The scanner loop as a reference definition: an undecodable line is skipped, a decoded
      one is normalised and forwarded, and reading stops right after a final one. */
  function Forward<T>(lines: seq<string>, decode: string -> Option<T>, normalize: T -> T, isDone: T -> bool): (f: Forwarded<T>)
    ensures f.consumed <= |lines|
    ensures |f.out| <= f.consumed
  {
    if lines == [] then Forwarded([], 0)
    else
      match decode(lines[0])
      case None =>
        var rest := Forward(lines[1..], decode, normalize, isDone);
        Forwarded(rest.out, rest.consumed + 1)
      case Some(r) =>
        var n := normalize(r);
        if isDone(n) then Forwarded([n], 1)
        else
          var rest := Forward(lines[1..], decode, normalize, isDone);
          Forwarded([n] + rest.out, rest.consumed + 1)
  }

  /** The streaming goroutine of Generate and Chat. */
  method PassThrough<T>(lines: seq<string>, decode: string -> Option<T>, normalize: T -> T, isDone: T -> bool)
    returns (out: seq<T>, rawResponse: string)
    ensures out == Forward(lines, decode, normalize, isDone).out
    ensures rawResponse == Transcript(lines[..Forward(lines, decode, normalize, isDone).consumed])
  {
    out := [];
    rawResponse := "";
    var i := 0;
    while i < |lines|
      invariant 0 <= i <= |lines|
      invariant rawResponse == Transcript(lines[..i])
      invariant Forward(lines, decode, normalize, isDone) ==
        var rest := Forward(lines[i..], decode, normalize, isDone);
        Forwarded(out + rest.out, i + rest.consumed)
    {
      var line := lines[i];
      assert lines[..i + 1][..i] == lines[..i];
      assert lines[i..][1..] == lines[i + 1..];
      rawResponse := rawResponse + line + "\n";
      i := i + 1;
      var parsed := decode(line);
      if parsed.None? {
        continue;
      }
      var resp := normalize(parsed.value);
      out := out + [resp];
      if isDone(resp) {
        return;
      }
      assert out + Forward(lines[i..], decode, normalize, isDone).out ==
        out[..|out| - 1] + ([resp] + Forward(lines[i..], decode, normalize, isDone).out);
    }
    assert lines[i..] == [];
  }

  /** All decodable lines, normalised, in order. */
  function Decoded<T>(lines: seq<string>, decode: string -> Option<T>, normalize: T -> T): seq<T> {
    if lines == [] then []
    else (match decode(lines[0]) case Some(r) => [normalize(r)] case None => []) + Decoded(lines[1..], decode, normalize)
  }

  /** What the adapter forwards is what the handler's relay would keep of all decodable
      lines: in input order, each once, up to and including the first final one. */
  lemma {:induction false} ForwardIsRelayPrefix<T>(lines: seq<string>, decode: string -> Option<T>, normalize: T -> T, isDone: T -> bool)
    ensures Forward(lines, decode, normalize, isDone).out == RelayPrefix(Decoded(lines, decode, normalize), isDone)
    decreases |lines|
  {
    if lines != [] {
      ForwardIsRelayPrefix(lines[1..], decode, normalize, isDone);
      var later := Decoded(lines[1..], decode, normalize);
      if decode(lines[0]).Some? {
        var n := normalize(decode(lines[0]).value);
        assert Decoded(lines, decode, normalize) == [n] + later;
        assert ([n] + later)[1..] == later;
      } else {
        assert Decoded(lines, decode, normalize) == later;
      }
    }
  }

  lemma DecodedCons<T>(line: string, more: seq<string>, decode: string -> Option<T>, normalize: T -> T)
    ensures Decoded([line] + more, decode, normalize) ==
      (match decode(line) case Some(r) => [normalize(r)] case None => []) + Decoded(more, decode, normalize)
  {
    assert ([line] + more)[1..] == more;
  }

  /** The lines read are exactly those whose chunks were forwarded, and reading stops early
      only right after a final chunk. */
  lemma {:induction false} ForwardReadsUpToDone<T>(lines: seq<string>, decode: string -> Option<T>, normalize: T -> T, isDone: T -> bool)
    ensures var f := Forward(lines, decode, normalize, isDone);
      f.out == Decoded(lines[..f.consumed], decode, normalize)
    ensures var f := Forward(lines, decode, normalize, isDone);
      f.consumed < |lines| ==> f.out != [] && isDone(f.out[|f.out| - 1])
    decreases |lines|
  {
    if lines != [] {
      var f := Forward(lines, decode, normalize, isDone);
      var rest := Forward(lines[1..], decode, normalize, isDone);
      ForwardReadsUpToDone(lines[1..], decode, normalize, isDone);
      var read := lines[1..][..rest.consumed];
      match decode(lines[0])
      case None =>
        assert f == Forwarded(rest.out, rest.consumed + 1);
        assert lines[..f.consumed] == [lines[0]] + read;
        DecodedCons(lines[0], read, decode, normalize);
      case Some(r) =>
        var n := normalize(r);
        if isDone(n) {
          assert f == Forwarded([n], 1);
          assert lines[..f.consumed] == [lines[0]] + [];
          DecodedCons(lines[0], [], decode, normalize);
        } else {
          assert f == Forwarded([n] + rest.out, rest.consumed + 1);
          assert lines[..f.consumed] == [lines[0]] + read;
          DecodedCons(lines[0], read, decode, normalize);
        }
    }
  }

  /** A chat chunk as forwarded: an empty role becomes "assistant", a final chunk without a
      load duration gets 1; nothing else changes. */
  function NormalizeChat(c: ChatResponse): (r: ChatResponse)
    ensures r.message.role == (if c.message.role == "" then "assistant" else c.message.role)
    ensures r.stats.loadDuration == (if c.done && c.stats.loadDuration == 0 then 1 else c.stats.loadDuration)
    ensures r.done == c.done && r.model == c.model && r.doneReason == c.doneReason
    ensures r.message.content == c.message.content && r.message.thinking == c.message.thinking
    ensures r.message.toolCalls == c.message.toolCalls
    ensures r.stats.(loadDuration := 0) == c.stats.(loadDuration := 0)
  {
    var withRole := if c.message.role == "" then c.(message := c.message.(role := "assistant")) else c;
    if withRole.done && withRole.stats.loadDuration == 0 then withRole.(stats := withRole.stats.(loadDuration := 1))
    else withRole
  }

  /** Normalising twice is normalising once. */
  lemma NormalizeChatIdempotent(c: ChatResponse)
    ensures NormalizeChat(NormalizeChat(c)) == NormalizeChat(c)
  {
  }

  function Same<T>(x: T): T { x }

  /** A transport failure or a non-200 status is an error with no increments; the error for a
      status carries only the code, while the raw capture keeps the body. */
  function Exchange<T>(requestText: string, t: Transport, decode: string -> Option<T>, normalize: T -> T, isDone: T -> bool): (o: Outcome<T>)
    ensures o.metadata.rawRequest == requestText && o.metadata.url == ""
    ensures t.Unreachable? ==> o == Outcome([], BackendMetadata(requestText, "", ""), Some(RequestFailed(t.reason)))
    ensures t.Reply? && t.status != StatusOK ==>
      o == Outcome([], BackendMetadata(requestText, t.body, ""), Some(UnexpectedStatus(t.status, None)))
    ensures t.Reply? && t.status == StatusOK ==>
      var f := Forward(t.lines, decode, normalize, isDone);
      o == Outcome(f.out, BackendMetadata(requestText, Transcript(t.lines[..f.consumed]), ""), None)
  {
    var md := BackendMetadata(requestText, "", "");
    match t
    case Unreachable(reason) => Outcome([], md, Some(RequestFailed(reason)))
    case Reply(status, body, lines) =>
      if status != StatusOK then Outcome([], md.(rawResponse := body), Some(UnexpectedStatus(status, None)))
      else
        var f := Forward(lines, decode, normalize, isDone);
        Outcome(f.out, md.(rawResponse := Transcript(lines[..f.consumed])), None)
  }

  /** Generate: the request is forwarded as is and the chunks come back unchanged. */
  function Generate(req: GenerateRequest, t: Transport, encode: GenerateRequest -> string, decode: string -> Option<GenerateResponse>)
    : (o: Outcome<GenerateResponse>)
    ensures o.metadata.rawRequest == encode(req)
    ensures o.err.Some? <==> !(t.Reply? && t.status == StatusOK)
    ensures o.err.Some? ==> o.increments == []
    ensures t.Reply? && t.status == StatusOK ==>
      o.increments == RelayPrefix(Decoded(t.lines, decode, Same), GenerateDone)
  {
    ForwardIsRelayPrefix(if t.Reply? then t.lines else [], decode, Same, GenerateDone);
    Exchange(encode(req), t, decode, Same, GenerateDone)
  }

  /** Chat: the request is forwarded as is and every chunk is normalised. */
  function Chat(req: ChatRequest, t: Transport, encode: ChatRequest -> string, decode: string -> Option<ChatResponse>)
    : (o: Outcome<ChatResponse>)
    ensures o.metadata.rawRequest == encode(req)
    ensures o.err.Some? <==> !(t.Reply? && t.status == StatusOK)
    ensures o.err.Some? ==> o.increments == []
    ensures t.Reply? && t.status == StatusOK ==>
      o.increments == RelayPrefix(Decoded(t.lines, decode, NormalizeChat), ChatDone)
  {
    ForwardIsRelayPrefix(if t.Reply? then t.lines else [], decode, NormalizeChat, ChatDone);
    Exchange(encode(req), t, decode, NormalizeChat, ChatDone)
  }

  /** ListModels: unlike the OpenAI adapter there is no fallback; a non-200 status is an
      error that carries the body, an undecodable body a decode error. */
  function ListModels(t: Transport, decodeModels: string -> Option<ModelsResponse>): (r: Result<ModelsResponse, BackendError>)
    ensures t.Unreachable? ==> r == Failure(RequestFailed(t.reason))
    ensures t.Reply? && t.status != StatusOK ==> r == Failure(UnexpectedStatus(t.status, Some(t.body)))
    ensures t.Reply? && t.status == StatusOK ==>
      (r.Success? <==> decodeModels(t.body).Some?) && (r.Success? ==> r.value == decodeModels(t.body).value)
      && (r.Failure? ==> r.error == DecodeFailed)
  {
    match t
    case Unreachable(reason) => Failure(RequestFailed(reason))
    case Reply(status, body, _) =>
      if status != StatusOK then Failure(UnexpectedStatus(status, Some(body)))
      else
        match decodeModels(body)
        case None => Failure(DecodeFailed)
        case Some(m) => Success(m)
  }
}
