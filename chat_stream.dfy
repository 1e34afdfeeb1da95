/** handleStreamingChat of backend/openai.go: OpenAI chat chunks become frontend chat
    increments; tool-call fragments are held back, reassembled, and sent as one increment
    just before the single final one. */
module ChatStream {

  import opened Wrappers
  import opened Text
  import opened Json
  import opened Types
  import opened Sse
  import opened Relay
  import opened ToolCalls
  import CompletionStream

  predicate IsFinishing(r: ChatCompletionResponse) {
    |r.choices| > 0 && CompletionStream.Finishes(r.choices[0].finishReason)
  }

  /** The final increment: an empty assistant message, load, prompt count and prompt
      duration 1, the content-token count as eval count, total = eval duration + 1. */
  function FinalChat(model: string, reason: string, tokenCount: nat, elapsed: nat): (c: ChatResponse)
    ensures c.done && c.doneReason == reason && c.message.role == "assistant" && c.message.content == ""
    ensures c.stats.evalCount == tokenCount && c.stats.totalDuration == c.stats.evalDuration + 1
    ensures c.stats.loadDuration == 1
  {
    ChatResponse(model, Message("assistant", "", "", []), true, reason, Stats(elapsed + 1, 1, 1, 1, tokenCount, elapsed))
  }

  /** The non-final increment carrying the reassembled tool calls. */
  function ToolCallsMessage(model: string, calls: seq<Value>): ChatResponse {
    ChatResponse(model, Message("assistant", "", "", calls), false, "", NoStats)
  }

  /** The non-final increment for a content delta; an empty role becomes "assistant". */
  function ContentDelta(model: string, d: Message): (c: ChatResponse)
    ensures !c.done && c.message.content == d.content && c.message.thinking == d.thinking
    ensures c.message.role == (if d.role == "" then "assistant" else d.role)
  {
    ChatResponse(model, Message(if d.role == "" then "assistant" else d.role, d.content, d.thinking, []), false, "", NoStats)
  }

  /** The variables the scanner loop updates. */
  datatype State = State(tokenCount: nat, sentFinal: bool, toolCalls: Accumulator, out: seq<ChatResponse>)

  const Start := State(0, false, map[], [])

  /** What closes the answer: the tool-call increment when the table is not empty, then the
      final increment. */
  ghost function Closing(st: State, model: string, reason: string, elapsed: nat, parse: string -> Option<Value>): seq<ChatResponse> {
    (if |st.toolCalls| > 0 then [ToolCallsMessage(model, BuildToolCalls(st.toolCalls, parse))] else []) +
    [FinalChat(model, reason, st.tokenCount, elapsed)]
  }

  /** One decoded chunk: the first finishing choice closes the answer; otherwise a delta with
      tool calls is absorbed into the table without output, and a delta with content is
      forwarded and counted. */
  ghost function Step(st: State, r: ChatCompletionResponse, model: string, elapsed: nat, parse: string -> Option<Value>): State {
    if |r.choices| == 0 then st
    else
      var choice := r.choices[0];
      if CompletionStream.Finishes(choice.finishReason) && !st.sentFinal then
        st.(sentFinal := true, out := st.out + Closing(st, model, choice.finishReason, elapsed, parse))
      else if choice.delta.None? then st
      else
        var d := choice.delta.value;
        if |d.toolCalls| > 0 then st.(toolCalls := Accumulate(st.toolCalls, d.toolCalls))
        else if d.content != "" then st.(tokenCount := st.tokenCount + 1, out := st.out + [ContentDelta(model, d)])
        else st
  }

  ghost function RunFrom(st: State, rs: seq<ChatCompletionResponse>, model: string, elapsed: nat, parse: string -> Option<Value>): State {
    if rs == [] then st else Step(RunFrom(st, rs[..|rs| - 1], model, elapsed, parse), rs[|rs| - 1], model, elapsed, parse)
  }

  /** Every increment the adapter emits, the end-of-stream closing included when no chunk
      finished. */
  ghost function Increments(rs: seq<ChatCompletionResponse>, model: string, elapsed: nat, parse: string -> Option<Value>): seq<ChatResponse> {
    var st := RunFrom(Start, rs, model, elapsed, parse);
    if st.sentFinal then st.out else st.out + Closing(st, model, "stop", elapsed, parse)
  }

  /** The scanner loop of handleStreamingChat. */
  method HandleStreamingChat(
    lines: seq<string>, decode: string -> Option<ChatCompletionResponse>, parse: string -> Option<Value>,
    model: string, elapsed: nat)
    returns (increments: seq<ChatResponse>, rawResponse: string)
    ensures rawResponse == Transcript(lines)
    ensures increments == Increments(Payloads(lines, decode), model, elapsed, parse)
  {
    var tokenCount: nat := 0;
    var sentFinal := false;
    var toolCallsState: Accumulator := map[];
    increments := [];
    rawResponse := "";
    var i := 0;
    while i < |lines|
      invariant 0 <= i <= |lines|
      invariant rawResponse == Transcript(lines[..i])
      invariant RunFrom(Start, Payloads(lines[..i], decode), model, elapsed, parse) ==
        State(tokenCount, sentFinal, toolCallsState, increments)
    {
      var line := lines[i];
      PayloadsStep(lines, i, decode);
      assert lines[..i + 1][..i] == lines[..i];
      ghost var before := Payloads(lines[..i], decode);
      rawResponse := rawResponse + line + "\n";
      i := i + 1;
      var parsed := ReadPayload(line, decode);
      if parsed.None? {
        assert Payloads(lines[..i], decode) == before;
        continue;
      }
      var resp := parsed.value;
      assert Payloads(lines[..i], decode) == before + [resp];
      assert (before + [resp])[..|before|] == before;
      tokenCount, sentFinal, toolCallsState, increments :=
        HandleChatChunk(tokenCount, sentFinal, toolCallsState, increments, resp, model, elapsed, parse);
    }
    assert lines[..i] == lines;
    if |toolCallsState| > 0 && !sentFinal {
      var toolCalls := BuildToolCallsArray(toolCallsState, parse);
      increments := increments + [ToolCallsMessage(model, toolCalls)];
    }
    if !sentFinal {
      increments := increments + [FinalChat(model, "stop", tokenCount, elapsed)];
    }
  }

  /** The body of the scanner loop for a decoded chunk. */
  method HandleChatChunk(
    tokenCount: nat, sentFinal: bool, toolCallsState: Accumulator, increments: seq<ChatResponse>,
    resp: ChatCompletionResponse, model: string, elapsed: nat, parse: string -> Option<Value>)
    returns (tokenCount': nat, sentFinal': bool, toolCallsState': Accumulator, increments': seq<ChatResponse>)
    ensures State(tokenCount', sentFinal', toolCallsState', increments') ==
      Step(State(tokenCount, sentFinal, toolCallsState, increments), resp, model, elapsed, parse)
  {
    tokenCount', sentFinal', toolCallsState', increments' := tokenCount, sentFinal, toolCallsState, increments;
    if |resp.choices| == 0 {
      return;
    }
    var choice := resp.choices[0];
    if choice.finishReason != "" && choice.finishReason != "null" && !sentFinal {
      if |toolCallsState| > 0 {
        var toolCalls := BuildToolCallsArray(toolCallsState, parse);
        increments' := increments' + [ToolCallsMessage(model, toolCalls)];
      }
      increments' := increments' + [FinalChat(model, choice.finishReason, tokenCount, elapsed)];
      sentFinal' := true;
      return;
    }
    if choice.delta.Some? {
      var delta := choice.delta.value;
      if |delta.toolCalls| > 0 {
        toolCallsState' := AccumulateToolCalls(toolCallsState, delta.toolCalls);
        return;
      }
      if delta.content != "" {
        tokenCount' := tokenCount + 1;
        increments' := increments + [ContentDelta(model, delta)];
      }
    }
  }

  // ---- the answer as a reference definition ----

  /** The position of the first finishing chunk, or the number of chunks when none finishes. */
  function FirstFinish(rs: seq<ChatCompletionResponse>): (k: nat)
    ensures k <= |rs|
    ensures forall j :: 0 <= j < k ==> !IsFinishing(rs[j])
    ensures k < |rs| ==> IsFinishing(rs[k])
  {
    if rs == [] then 0
    else if IsFinishing(rs[0]) then 0
    else 1 + FirstFinish(rs[1..])
  }

  function FinalReason(rs: seq<ChatCompletionResponse>): string {
    var k := FirstFinish(rs);
    if k < |rs| then rs[k].choices[0].finishReason else "stop"
  }

  /** One increment per delta that has content and carries no tool calls. */
  function ContentDeltas(rs: seq<ChatCompletionResponse>, model: string): seq<ChatResponse> {
    if rs == [] then []
    else
      var r := rs[|rs| - 1];
      ContentDeltas(rs[..|rs| - 1], model) +
      if |r.choices| > 0 && r.choices[0].delta.Some? && |r.choices[0].delta.value.toolCalls| == 0
        && r.choices[0].delta.value.content != ""
      then [ContentDelta(model, r.choices[0].delta.value)]
      else []
  }

  /** The tool-call fragments of all deltas, in arrival order. */
  function ToolFragments(rs: seq<ChatCompletionResponse>): seq<Fragment> {
    if rs == [] then []
    else
      var r := rs[|rs| - 1];
      ToolFragments(rs[..|rs| - 1]) +
      if |r.choices| > 0 && r.choices[0].delta.Some? then Fragments(r.choices[0].delta.value.toolCalls) else []
  }

  lemma {:induction false} ContentDeltasNotDone(rs: seq<ChatCompletionResponse>, model: string)
    ensures forall j :: 0 <= j < |ContentDeltas(rs, model)| ==> !ContentDeltas(rs, model)[j].done
  {
    if rs != [] {
      ContentDeltasNotDone(rs[..|rs| - 1], model);
    }
  }

  /** Before anything finishes, the loop has forwarded exactly the content deltas, counted
      them, and absorbed every tool-call fragment into the table. */
  lemma {:induction false} RunBeforeFinish(rs: seq<ChatCompletionResponse>, model: string, elapsed: nat, parse: string -> Option<Value>)
    requires forall j :: 0 <= j < |rs| ==> !IsFinishing(rs[j])
    ensures RunFrom(Start, rs, model, elapsed, parse) ==
      State(|ContentDeltas(rs, model)|, false, AbsorbAll(map[], ToolFragments(rs)), ContentDeltas(rs, model))
  {
    if rs != [] {
      var init := rs[..|rs| - 1];
      RunBeforeFinish(init, model, elapsed, parse);
      var r := rs[|rs| - 1];
      assert !IsFinishing(r);
      if |r.choices| > 0 && r.choices[0].delta.Some? {
        var tcs := r.choices[0].delta.value.toolCalls;
        AbsorbAllAppend(map[], ToolFragments(init), Fragments(tcs));
        assert ToolFragments(rs) == ToolFragments(init) + Fragments(tcs);
        if |tcs| == 0 {
          assert Fragments(tcs) == [];
          assert ToolFragments(rs) == ToolFragments(init);
        } else {
          assert AbsorbAll(map[], ToolFragments(rs)) == Accumulate(AbsorbAll(map[], ToolFragments(init)), tcs);
        }
      } else {
        assert ToolFragments(rs) == ToolFragments(init);
        assert ContentDeltas(rs, model) == ContentDeltas(init, model);
        assert RunFrom(Start, rs, model, elapsed, parse) == RunFrom(Start, init, model, elapsed, parse);
      }
    }
  }

  /** After the final increment the loop only appends non-final increments. */
  lemma {:induction false} RunAfterFinal(st: State, rs: seq<ChatCompletionResponse>, model: string, elapsed: nat, parse: string -> Option<Value>)
    requires st.sentFinal
    ensures RunFrom(st, rs, model, elapsed, parse).sentFinal
    ensures |RunFrom(st, rs, model, elapsed, parse).out| >= |st.out|
    ensures RunFrom(st, rs, model, elapsed, parse).out[..|st.out|] == st.out
    ensures forall j :: |st.out| <= j < |RunFrom(st, rs, model, elapsed, parse).out| ==> !RunFrom(st, rs, model, elapsed, parse).out[j].done
  {
    if rs != [] {
      RunAfterFinal(st, rs[..|rs| - 1], model, elapsed, parse);
    }
  }

  lemma {:induction false} RunFromAppend(
    st: State, a: seq<ChatCompletionResponse>, b: seq<ChatCompletionResponse>, model: string, elapsed: nat, parse: string -> Option<Value>)
    ensures RunFrom(st, a + b, model, elapsed, parse) == RunFrom(RunFrom(st, a, model, elapsed, parse), b, model, elapsed, parse)
    decreases |b|
  {
    if b == [] {
      assert a + b == a;
    } else {
      assert (a + b)[..|a + b| - 1] == a + b[..|b| - 1];
      RunFromAppend(st, a, b[..|b| - 1], model, elapsed, parse);
    }
  }

  /** The table of tool calls as it stands when the answer closes. */
  function ToolCallsAtClose(rs: seq<ChatCompletionResponse>): Accumulator {
    AbsorbAll(map[], ToolFragments(rs[..FirstFinish(rs)]))
  }

  /** What the frontend receives, in order: the content deltas before the first finishing
      chunk, the reassembled tool calls when any fragment arrived, and the final increment. */
  ghost function Answer(rs: seq<ChatCompletionResponse>, model: string, elapsed: nat, parse: string -> Option<Value>): seq<ChatResponse> {
    var pre := rs[..FirstFinish(rs)];
    var deltas := ContentDeltas(pre, model);
    deltas + Closing(State(|deltas|, false, ToolCallsAtClose(rs), deltas), model, FinalReason(rs), elapsed, parse)
  }

  lemma ClosingEndsWithFinal(st: State, model: string, reason: string, elapsed: nat, parse: string -> Option<Value>)
    ensures var c := Closing(st, model, reason, elapsed, parse);
      c != [] && c[|c| - 1] == FinalChat(model, reason, st.tokenCount, elapsed)
      && (forall j :: 0 <= j < |c| - 1 ==> !c[j].done)
      && (|c| == 2 <==> |st.toolCalls| > 0)
  {
  }

  lemma RunThroughFinish(rs: seq<ChatCompletionResponse>, model: string, elapsed: nat, parse: string -> Option<Value>)
    requires FirstFinish(rs) < |rs|
    ensures RunFrom(Start, rs[..FirstFinish(rs) + 1], model, elapsed, parse).sentFinal
    ensures RunFrom(Start, rs[..FirstFinish(rs) + 1], model, elapsed, parse).out == Answer(rs, model, elapsed, parse)
  {
    var k := FirstFinish(rs);
    var pre := rs[..k];
    assert forall j :: 0 <= j < |pre| ==> !IsFinishing(pre[j]);
    RunBeforeFinish(pre, model, elapsed, parse);
    var deltas := ContentDeltas(pre, model);
    var st := State(|deltas|, false, AbsorbAll(map[], ToolFragments(pre)), deltas);
    assert st == RunFrom(Start, pre, model, elapsed, parse);
    assert rs[..k + 1][..k] == pre && rs[..k + 1][k] == rs[k];
    assert RunFrom(Start, rs[..k + 1], model, elapsed, parse) == Step(st, rs[k], model, elapsed, parse);
    assert IsFinishing(rs[k]) && FinalReason(rs) == rs[k].choices[0].finishReason;
  }

  /** With no finishing chunk the increments are the answer, closed at end of stream. */
  lemma IncrementsWithoutFinish(rs: seq<ChatCompletionResponse>, model: string, elapsed: nat, parse: string -> Option<Value>)
    requires FirstFinish(rs) == |rs|
    ensures Increments(rs, model, elapsed, parse) == Answer(rs, model, elapsed, parse)
  {
    assert rs[..|rs|] == rs;
    RunBeforeFinish(rs, model, elapsed, parse);
  }

  /** With a finishing chunk the loop has sent the answer by then; later chunks only add
      non-final increments. */
  lemma IncrementsAfterFinish(rs: seq<ChatCompletionResponse>, model: string, elapsed: nat, parse: string -> Option<Value>)
    requires FirstFinish(rs) < |rs|
    ensures var st := RunFrom(Start, rs, model, elapsed, parse);
      var head := Answer(rs, model, elapsed, parse);
      && st.sentFinal
      && |st.out| >= |head|
      && st.out[..|head|] == head
      && (forall j :: |head| <= j < |st.out| ==> !st.out[j].done)
  {
    var k := FirstFinish(rs);
    var pre, post := rs[..k + 1], rs[k + 1..];
    assert pre + post == rs;
    var mid := RunFrom(Start, pre, model, elapsed, parse);
    RunThroughFinish(rs, model, elapsed, parse);
    assert mid.sentFinal && mid.out == Answer(rs, model, elapsed, parse);
    RunFromAppend(Start, pre, post, model, elapsed, parse);
    var fin := RunFrom(mid, post, model, elapsed, parse);
    assert fin == RunFrom(Start, rs, model, elapsed, parse);
    RunAfterFinal(mid, post, model, elapsed, parse);
  }

  /** The increments start with the answer and everything after it is non-final. */
  lemma IncrementsStartWithAnswer(rs: seq<ChatCompletionResponse>, model: string, elapsed: nat, parse: string -> Option<Value>)
    ensures var out := Increments(rs, model, elapsed, parse);
      var head := Answer(rs, model, elapsed, parse);
      && |out| >= |head|
      && out[..|head|] == head
      && (forall j :: |head| <= j < |out| ==> !out[j].done)
  {
    if FirstFinish(rs) == |rs| {
      IncrementsWithoutFinish(rs, model, elapsed, parse);
    } else {
      IncrementsAfterFinish(rs, model, elapsed, parse);
    }
  }

  /** The answer ends with its only final increment. */
  lemma AnswerEndsWithFinal(rs: seq<ChatCompletionResponse>, model: string, elapsed: nat, parse: string -> Option<Value>)
    ensures var head := Answer(rs, model, elapsed, parse);
      var n := |ContentDeltas(rs[..FirstFinish(rs)], model)|;
      && 0 < |head|
      && head[|head| - 1] == FinalChat(model, FinalReason(rs), n, elapsed)
      && (forall j :: 0 <= j < |head| - 1 ==> !head[j].done)
  {
    var k := FirstFinish(rs);
    var deltas := ContentDeltas(rs[..k], model);
    var st := State(|deltas|, false, ToolCallsAtClose(rs), deltas);
    var c := Closing(st, model, FinalReason(rs), elapsed, parse);
    var head := Answer(rs, model, elapsed, parse);
    assert head == deltas + c;
    ClosingEndsWithFinal(st, model, FinalReason(rs), elapsed, parse);
    ContentDeltasNotDone(rs[..k], model);
    forall j | 0 <= j < |head| - 1
      ensures !head[j].done
    {
      if j >= |deltas| {
        assert head[j] == c[j - |deltas|];
      }
    }
  }

  /** Exactly one increment is final: the last of the answer, with the content-delta count
      as eval count and the first finish_reason (or "stop"); a delta carrying tool calls is
      never forwarded on its own, and the reassembled calls come right before the final. */
  lemma ExactlyOneFinal(rs: seq<ChatCompletionResponse>, model: string, elapsed: nat, parse: string -> Option<Value>)
    ensures var out := Increments(rs, model, elapsed, parse);
      var head := Answer(rs, model, elapsed, parse);
      var n := |ContentDeltas(rs[..FirstFinish(rs)], model)|;
      && 0 < |head| <= |out|
      && out[|head| - 1] == FinalChat(model, FinalReason(rs), n, elapsed)
      && (forall j :: 0 <= j < |out| && j != |head| - 1 ==> !out[j].done)
  {
    var out := Increments(rs, model, elapsed, parse);
    var head := Answer(rs, model, elapsed, parse);
    IncrementsStartWithAnswer(rs, model, elapsed, parse);
    AnswerEndsWithFinal(rs, model, elapsed, parse);
    forall j | 0 <= j < |head|
      ensures out[j] == head[j]
    {
      assert out[..|head|][j] == out[j];
    }
  }

  /** What the relay forwards is exactly the answer. */
  lemma RelayedChat(rs: seq<ChatCompletionResponse>, model: string, elapsed: nat, parse: string -> Option<Value>)
    ensures RelayPrefix(Increments(rs, model, elapsed, parse), ChatDone) == Answer(rs, model, elapsed, parse)
  {
    var out := Increments(rs, model, elapsed, parse);
    var head := Answer(rs, model, elapsed, parse);
    IncrementsStartWithAnswer(rs, model, elapsed, parse);
    ExactlyOneFinal(rs, model, elapsed, parse);
    RelayStopsAtFirstDone(out, ChatDone, |head| - 1);
  }

  /** The tool calls sent at the close hold, for every index some fragment carried before
      the first finishing chunk, the last non-empty id and name and all argument pieces. */
  lemma ToolCallsAtCloseByIndex(rs: seq<ChatCompletionResponse>)
    ensures var frags := ToolFragments(rs[..FirstFinish(rs)]);
      && (forall i :: i in ToolCallsAtClose(rs) <==> Mentions(frags, i))
      && (forall i :: i in ToolCallsAtClose(rs) ==>
            ToolCallsAtClose(rs)[i] == ToolCallState(LastIdFor(frags, i), LastNameFor(frags, i), ArgumentsFor(frags, i)))
  {
    AccumulatedPerIndex(ToolFragments(rs[..FirstFinish(rs)]));
  }
}
