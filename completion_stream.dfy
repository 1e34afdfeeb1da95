/** handleStreamingCompletion of backend/openai.go: OpenAI completion chunks, framed as
    server-sent events, become frontend generate increments with exactly one final one. */
module CompletionStream {

  import opened Wrappers
  import opened Text
  import opened Types
  import opened Sse
  import opened Relay

  /** A finish_reason that ends the answer: neither empty nor the literal "null". */
  predicate Finishes(reason: string) {
    reason != "" && reason != "null"
  }

  predicate IsFinishing(r: CompletionResponse) {
    |r.choices| > 0 && Finishes(r.choices[0].finishReason)
  }

  /** The final increment: no text, prompt count and duration 1, the content-token count as
      eval count, and a total duration one nanosecond above the eval duration. */
  function FinalGenerate(model: string, reason: string, tokenCount: nat, elapsed: nat): (g: GenerateResponse)
    ensures g.done && g.doneReason == reason && g.response == ""
    ensures g.stats.evalCount == tokenCount && g.stats.totalDuration == g.stats.evalDuration + 1
  {
    GenerateResponse(model, "", true, reason, Stats(elapsed + 1, 0, 1, 1, tokenCount, elapsed))
  }

  /** A non-final increment carrying one chunk's text, empty text included. */
  function Delta(model: string, text: string): GenerateResponse {
    GenerateResponse(model, text, false, "", NoStats)
  }

  /** The variables the scanner loop updates. */
  datatype State = State(tokenCount: nat, sentFinal: bool, out: seq<GenerateResponse>)

  const Start := State(0, false, [])

  /** One decoded chunk: nothing without choices; the first finishing choice emits the final
      increment; any other choice emits its text and counts it when non-empty. */
  function Step(st: State, r: CompletionResponse, model: string, elapsed: nat): State {
    if |r.choices| == 0 then st
    else
      var choice := r.choices[0];
      if Finishes(choice.finishReason) && !st.sentFinal then
        State(st.tokenCount, true, st.out + [FinalGenerate(model, choice.finishReason, st.tokenCount, elapsed)])
      else
        State(st.tokenCount + (if choice.text != "" then 1 else 0), st.sentFinal, st.out + [Delta(model, choice.text)])
  }

  function RunFrom(st: State, rs: seq<CompletionResponse>, model: string, elapsed: nat): State {
    if rs == [] then st else Step(RunFrom(st, rs[..|rs| - 1], model, elapsed), rs[|rs| - 1], model, elapsed)
  }

  /** Every increment the adapter emits for these chunks, the trailing "stop" final included
      when no chunk finished. */
  function Increments(rs: seq<CompletionResponse>, model: string, elapsed: nat): seq<GenerateResponse> {
    var st := RunFrom(Start, rs, model, elapsed);
    if st.sentFinal then st.out else st.out + [FinalGenerate(model, "stop", st.tokenCount, elapsed)]
  }

  /** The scanner loop of handleStreamingCompletion: every line goes to the raw capture
      before it is looked at; the read continues past the final increment and past [DONE]. */
  method HandleStreamingCompletion(
    lines: seq<string>, decode: string -> Option<CompletionResponse>, model: string, elapsed: nat)
    returns (increments: seq<GenerateResponse>, rawResponse: string)
    ensures rawResponse == Transcript(lines)
    ensures increments == Increments(Payloads(lines, decode), model, elapsed)
  {
    var tokenCount: nat := 0;
    var sentFinal := false;
    increments := [];
    rawResponse := "";
    var i := 0;
    while i < |lines|
      invariant 0 <= i <= |lines|
      invariant rawResponse == Transcript(lines[..i])
      invariant RunFrom(Start, Payloads(lines[..i], decode), model, elapsed) == State(tokenCount, sentFinal, increments)
    {
      var line := lines[i];
      PayloadsStep(lines, i, decode);
      assert lines[..i + 1][..i] == lines[..i];
      ghost var before := Payloads(lines[..i], decode);
      rawResponse := rawResponse + line + "\n";
      i := i + 1;
      var parsed := ReadPayload(line, decode);
      if parsed.None? {
        assert Payloads(lines[..i], decode) == before;
        continue;
      }
      var resp := parsed.value;
      assert Payloads(lines[..i], decode) == before + [resp];
      assert (before + [resp])[..|before|] == before;
      tokenCount, sentFinal, increments := HandleChunk(tokenCount, sentFinal, increments, resp, model, elapsed);
    }
    assert lines[..i] == lines;
    if !sentFinal {
      increments := increments + [FinalGenerate(model, "stop", tokenCount, elapsed)];
    }
  }

  /** The body of the scanner loop for a decoded chunk. */
  method HandleChunk(
    tokenCount: nat, sentFinal: bool, increments: seq<GenerateResponse>,
    resp: CompletionResponse, model: string, elapsed: nat)
    returns (tokenCount': nat, sentFinal': bool, increments': seq<GenerateResponse>)
    ensures State(tokenCount', sentFinal', increments') == Step(State(tokenCount, sentFinal, increments), resp, model, elapsed)
  {
    tokenCount', sentFinal', increments' := tokenCount, sentFinal, increments;
    if |resp.choices| > 0 {
      var choice := resp.choices[0];
      if choice.finishReason != "" && choice.finishReason != "null" && !sentFinal {
        increments' := increments + [FinalGenerate(model, choice.finishReason, tokenCount, elapsed)];
        sentFinal' := true;
        return;
      }
      var text := choice.text;
      if text != "" {
        tokenCount' := tokenCount + 1;
      }
      increments' := increments + [Delta(model, text)];
    }
  }

  // ---- the answer as a reference definition ----

  /** The position of the first finishing chunk, or the number of chunks when none finishes. */
  function FirstFinish(rs: seq<CompletionResponse>): (k: nat)
    ensures k <= |rs|
    ensures forall j :: 0 <= j < k ==> !IsFinishing(rs[j])
    ensures k < |rs| ==> IsFinishing(rs[k])
  {
    if rs == [] then 0
    else if IsFinishing(rs[0]) then 0
    else 1 + FirstFinish(rs[1..])
  }

  /** One non-final increment per chunk that has a choice. */
  function Deltas(rs: seq<CompletionResponse>, model: string): seq<GenerateResponse> {
    if rs == [] then []
    else
      var r := rs[|rs| - 1];
      Deltas(rs[..|rs| - 1], model) + (if |r.choices| > 0 then [Delta(model, r.choices[0].text)] else [])
  }

  /** The number of chunks whose choice carries non-empty text. */
  function TextCount(rs: seq<CompletionResponse>): nat {
    if rs == [] then 0
    else
      var r := rs[|rs| - 1];
      TextCount(rs[..|rs| - 1]) + (if |r.choices| > 0 && r.choices[0].text != "" then 1 else 0)
  }

  lemma {:induction false} DeltasNotDone(rs: seq<CompletionResponse>, model: string)
    ensures forall j :: 0 <= j < |Deltas(rs, model)| ==> !Deltas(rs, model)[j].done
  {
    if rs != [] {
      DeltasNotDone(rs[..|rs| - 1], model);
    }
  }

  /** Before anything finishes, the loop has emitted one delta per chunk with a choice and
      counted the non-empty texts. */
  lemma {:induction false} RunBeforeFinish(rs: seq<CompletionResponse>, model: string, elapsed: nat)
    requires forall j :: 0 <= j < |rs| ==> !IsFinishing(rs[j])
    ensures RunFrom(Start, rs, model, elapsed) == State(TextCount(rs), false, Deltas(rs, model))
  {
    if rs != [] {
      RunBeforeFinish(rs[..|rs| - 1], model, elapsed);
    }
  }

  /** After the final increment the loop only appends non-final increments. */
  lemma {:induction false} RunAfterFinal(st: State, rs: seq<CompletionResponse>, model: string, elapsed: nat)
    requires st.sentFinal
    ensures RunFrom(st, rs, model, elapsed).sentFinal
    ensures |RunFrom(st, rs, model, elapsed).out| >= |st.out|
    ensures RunFrom(st, rs, model, elapsed).out[..|st.out|] == st.out
    ensures forall j :: |st.out| <= j < |RunFrom(st, rs, model, elapsed).out| ==> !RunFrom(st, rs, model, elapsed).out[j].done
  {
    if rs != [] {
      RunAfterFinal(st, rs[..|rs| - 1], model, elapsed);
    }
  }

  lemma {:induction false} RunFromAppend(st: State, a: seq<CompletionResponse>, b: seq<CompletionResponse>, model: string, elapsed: nat)
    ensures RunFrom(st, a + b, model, elapsed) == RunFrom(RunFrom(st, a, model, elapsed), b, model, elapsed)
    decreases |b|
  {
    if b == [] {
      assert a + b == a;
    } else {
      assert (a + b)[..|a + b| - 1] == a + b[..|b| - 1];
      RunFromAppend(st, a, b[..|b| - 1], model, elapsed);
    }
  }

  /** The done reason of the final increment: that of the first finishing chunk, "stop" when
      no chunk finishes. */
  function FinalReason(rs: seq<CompletionResponse>): string {
    var k := FirstFinish(rs);
    if k < |rs| then rs[k].choices[0].finishReason else "stop"
  }

  /** Up to and including the first finishing chunk, the loop has emitted the deltas
      before it and then the final increment. */
  lemma RunThroughFinish(rs: seq<CompletionResponse>, model: string, elapsed: nat)
    requires FirstFinish(rs) < |rs|
    ensures var k := FirstFinish(rs);
      RunFrom(Start, rs[..k + 1], model, elapsed) ==
        State(TextCount(rs[..k]), true, Deltas(rs[..k], model) + [FinalGenerate(model, FinalReason(rs), TextCount(rs[..k]), elapsed)])
  {
    var k := FirstFinish(rs);
    RunBeforeFinish(rs[..k], model, elapsed);
    assert rs[..k + 1][..k] == rs[..k];
  }

  /** Without a finishing chunk the deltas come first and the "stop" final last. */
  lemma FinalWithoutFinish(rs: seq<CompletionResponse>, model: string, elapsed: nat)
    requires FirstFinish(rs) == |rs|
    ensures Increments(rs, model, elapsed) == Deltas(rs, model) + [FinalGenerate(model, "stop", TextCount(rs), elapsed)]
  {
    RunBeforeFinish(rs, model, elapsed);
  }

  /** Running the chunks is running those through the first finishing one, then the rest. */
  lemma RunSplitsAtFinish(rs: seq<CompletionResponse>, model: string, elapsed: nat)
    requires FirstFinish(rs) < |rs|
    ensures var k := FirstFinish(rs);
      RunFrom(Start, rs, model, elapsed) == RunFrom(RunFrom(Start, rs[..k + 1], model, elapsed), rs[k + 1..], model, elapsed)
  {
    var k := FirstFinish(rs);
    assert rs[..k + 1] + rs[k + 1..] == rs;
    RunFromAppend(Start, rs[..k + 1], rs[k + 1..], model, elapsed);
  }

  /** With a finishing chunk the increments start with the deltas before it and its final,
      and all later increments are non-final. */
  lemma FinalAtFinish(rs: seq<CompletionResponse>, model: string, elapsed: nat)
    requires FirstFinish(rs) < |rs|
    ensures var out := Increments(rs, model, elapsed);
      var k := FirstFinish(rs);
      var head := Deltas(rs[..k], model) + [FinalGenerate(model, FinalReason(rs), TextCount(rs[..k]), elapsed)];
      && |out| >= |head|
      && out[..|head|] == head
      && (forall j :: |head| <= j < |out| ==> !out[j].done)
  {
    var k := FirstFinish(rs);
    var mid := RunFrom(Start, rs[..k + 1], model, elapsed);
    RunThroughFinish(rs, model, elapsed);
    RunSplitsAtFinish(rs, model, elapsed);
    RunAfterFinal(mid, rs[k + 1..], model, elapsed);
  }

  /** Exactly one increment is final. It follows one delta per chunk with a choice before the
      first finishing chunk, carries that chunk's finish_reason (or "stop"), and counts the
      non-empty texts before it; everything after it is non-final. */
  lemma ExactlyOneFinal(rs: seq<CompletionResponse>, model: string, elapsed: nat)
    ensures var out := Increments(rs, model, elapsed);
      var k := FirstFinish(rs);
      var p := |Deltas(rs[..k], model)|;
      && p < |out|
      && out[..p] == Deltas(rs[..k], model)
      && out[p] == FinalGenerate(model, FinalReason(rs), TextCount(rs[..k]), elapsed)
      && (forall j :: 0 <= j < |out| && j != p ==> !out[j].done)
  {
    var out := Increments(rs, model, elapsed);
    var k := FirstFinish(rs);
    var pre := Deltas(rs[..k], model);
    var head := pre + [FinalGenerate(model, FinalReason(rs), TextCount(rs[..k]), elapsed)];
    DeltasNotDone(rs[..k], model);
    if k == |rs| {
      assert rs[..k] == rs;
      FinalWithoutFinish(rs, model, elapsed);
      assert out == head;
    } else {
      FinalAtFinish(rs, model, elapsed);
    }
    assert out[..|head|] == head;
    assert out[..|pre|] == head[..|pre|];
  }

  /** What the frontend receives through the relay: the deltas before the first finishing
      chunk, then the final increment. */
  lemma RelayedCompletion(rs: seq<CompletionResponse>, model: string, elapsed: nat)
    ensures var k := FirstFinish(rs);
      RelayPrefix(Increments(rs, model, elapsed), GenerateDone) ==
        Deltas(rs[..k], model) + [FinalGenerate(model, FinalReason(rs), TextCount(rs[..k]), elapsed)]
  {
    var out := Increments(rs, model, elapsed);
    var k := FirstFinish(rs);
    var p := |Deltas(rs[..k], model)|;
    ExactlyOneFinal(rs, model, elapsed);
    RelayStopsAtFirstDone(out, GenerateDone, p);
    assert out[..p + 1] == out[..p] + [out[p]];
  }
}
