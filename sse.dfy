/** The server-sent-event framing the OpenAI adapter reads: every scanned line is captured,
    only `data: ` lines carry a payload, `data: [DONE]` is a sentinel that does not end the
    read, and a payload that does not decode is skipped. */
module Sse {

  import opened Wrappers
  import opened Text

  const DataPrefix := "data: "
  const DoneSentinel := "[DONE]"

  /** How the adapter's scanner loop treats one line. */
  datatype Line<R> = NotData | Sentinel | Undecodable | Chunk(payload: R)

  function Classify<R>(line: string, decode: string -> Option<R>): (l: Line<R>)
    ensures l.NotData? <==> !HasPrefix(line, DataPrefix)
    ensures l.Sentinel? <==> line == DataPrefix + DoneSentinel
    ensures l.Undecodable? <==>
      HasPrefix(line, DataPrefix) && line != DataPrefix + DoneSentinel && decode(line[|DataPrefix|..]).None?
    ensures l.Chunk? ==>
      HasPrefix(line, DataPrefix) && line != DataPrefix + DoneSentinel && decode(line[|DataPrefix|..]) == Some(l.payload)
  {
    if !HasPrefix(line, DataPrefix) then NotData
    else
      var data := TrimPrefix(line, DataPrefix);
      assert line == DataPrefix + data;
      if data == DoneSentinel then Sentinel
      else
        match decode(data)
        case None => Undecodable
        case Some(r) => Chunk(r)
  }

  /** The checks the scanner loop makes on one line before it handles a chunk: a line
      without `data: ` and the `[DONE]` sentinel are skipped, and so is a payload that does
      not decode. */
  method ReadPayload<R>(line: string, decode: string -> Option<R>) returns (payload: Option<R>)
    ensures payload.Some? <==> Classify(line, decode).Chunk?
    ensures payload.Some? ==> payload.value == Classify(line, decode).payload
  {
    if !HasPrefix(line, DataPrefix) {
      return None;
    }
    var data := TrimPrefix(line, DataPrefix);
    if data == DoneSentinel {
      return None;
    }
    payload := decode(data);
  }

  /** The decoded payloads of a sequence of lines, in order. */
  function Payloads<R>(lines: seq<string>, decode: string -> Option<R>): seq<R> {
    if lines == [] then []
    else
      Payloads(lines[..|lines| - 1], decode) +
      match Classify(lines[|lines| - 1], decode) case Chunk(r) => [r] case _ => []
  }

  /** One more line adds at most its own payload. */
  lemma PayloadsStep<R>(lines: seq<string>, i: nat, decode: string -> Option<R>)
    requires i < |lines|
    ensures Payloads(lines[..i + 1], decode) ==
      Payloads(lines[..i], decode) + match Classify(lines[i], decode) case Chunk(r) => [r] case _ => []
  {
    assert lines[..i + 1][..i] == lines[..i];
  }

  /** Lines that carry no payload contribute nothing; each decodable `data: ` line
      contributes its payload, so splitting the lines splits the payloads. */
  lemma {:induction false} PayloadsAppend<R>(a: seq<string>, b: seq<string>, decode: string -> Option<R>)
    ensures Payloads(a + b, decode) == Payloads(a, decode) + Payloads(b, decode)
    decreases |b|
  {
    if b == [] {
      assert a + b == a;
    } else {
      assert (a + b)[..|a + b| - 1] == a + b[..|b| - 1];
      PayloadsAppend(a, b[..|b| - 1], decode);
    }
  }

  /** The payload of the single line `data: <payload text>`. */
  lemma PayloadsOfDataLine<R>(text: string, decode: string -> Option<R>)
    requires text != DoneSentinel
    ensures Payloads([DataPrefix + text], decode) == match decode(text) case Some(r) => [r] case None => []
  {
    var line := DataPrefix + text;
    assert HasPrefix(line, DataPrefix);
    assert line[|DataPrefix|..] == text;
    var none: seq<string> := [];
    assert [line][..0] == none;
  }
}
