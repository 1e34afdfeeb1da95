/** What the generate and chat handlers share: the relay loop that forwards increments to
    the client until the first final one, the newline-joined capture of what was sent, and
    the log entry written at the end of a request. */
module Handling {

  import opened Wrappers
  import opened Text
  import opened Relay
  import Decimal

  /** The incoming request as the handler sees it; a body that could not be read is None. */
  datatype Inbound = Inbound(httpMethod: string, body: Option<string>)

  /** The row a handler logs (timestamp and latency are not modelled). */
  datatype LogEntry = LogEntry(
    endpoint: string, httpMethod: string, model: string, prompt: string, response: string,
    statusCode: int, stream: bool, backendType: string, error: string,
    frontendUrl: string, backendUrl: string,
    frontendRequest: string, frontendResponse: string,
    backendRequest: string, backendResponse: string,
    lastMessage: string)

  /** How a request ends: refused before the backend is called (nothing logged), failed at
      the backend (logged with status 500), or relayed (logged with status 200). `sent` is
      the request handed to the backend. */
  datatype Handled<Req, T> =
    | Refused(status: int, message: string)
    | BackendFailed(sent: Req, message: string, entry: LogEntry)
    | Relayed(sent: Req, streamed: seq<T>, entry: LogEntry)

  const StatusMethodNotAllowed := 405
  const StatusBadRequest := 400
  const StatusInternalServerError := 500

  /** The frontend URL logged for a path: http://<host>:<port><path>. */
  function FrontendUrl(host: string, port: int, path: string): (u: string)
    ensures HasPrefix(u, "http://" + host + ":")
    ensures |u| > |"http://" + host + ":"| + |path| && u[|u| - |path|..] == path
    ensures Decimal.MinInt64 <= port <= Decimal.MaxInt64 ==>
      Decimal.Atoi(u[|"http://" + host + ":"|..|u| - |path|]) == Some(port)
  {
    var prefix := "http://" + host + ":";
    var digits := Decimal.IntToString(port);
    var u := prefix + digits + path;
    assert u[..|prefix|] == prefix;
    assert u[|u| - |path|..] == path;
    assert u[|prefix|..|u| - |path|] == digits;
    if Decimal.MinInt64 <= port <= Decimal.MaxInt64 then
      Decimal.AtoiInvertsIntToString(port);
      u
    else u
  }

  /** The concatenation of the texts of the increments, in order. */
  function Texts<T>(s: seq<T>, text: T -> string): string {
    if s == [] then "" else Texts(s[..|s| - 1], text) + text(s[|s| - 1])
  }

  lemma {:induction false} TextsAppend<T>(a: seq<T>, b: seq<T>, text: T -> string)
    ensures Texts(a + b, text) == Texts(a, text) + Texts(b, text)
    decreases |b|
  {
    if b == [] {
      assert a + b == a;
    } else {
      assert (a + b)[..|a + b| - 1] == a + b[..|b| - 1];
      TextsAppend(a, b[..|b| - 1], text);
    }
  }

  /** The relay loop: each increment is added to the full response and, when capturing, to
      the captured responses, then sent; the loop breaks after the first final one. */
  method RelayLoop<T>(increments: seq<T>, isDone: T -> bool, text: T -> string, capture: bool)
    returns (relayed: seq<T>, fullResponse: string, responses: seq<T>)
    ensures relayed == RelayPrefix(increments, isDone)
    ensures fullResponse == Texts(relayed, text)
    ensures responses == (if capture then relayed else [])
  {
    relayed := [];
    fullResponse := "";
    responses := [];
    var i := 0;
    while i < |increments|
      invariant 0 <= i <= |increments|
      invariant relayed == increments[..i]
      invariant forall j :: 0 <= j < i ==> !isDone(increments[j])
      invariant fullResponse == Texts(relayed, text)
      invariant responses == (if capture then relayed else [])
    {
      var resp := increments[i];
      fullResponse := fullResponse + text(resp);
      if capture {
        responses := responses + [resp];
      }
      assert (relayed + [resp])[..|relayed|] == relayed;
      relayed := relayed + [resp];
      assert increments[..i + 1] == relayed;
      i := i + 1;
      if isDone(resp) {
        RelayStopsAtFirstDone(increments, isDone, i - 1);
        return;
      }
    }
    assert increments[..i] == increments;
    RelayWithoutDone(increments, isDone);
  }

  /** The capture of the frontend response: each encodable response in turn, followed by a
      newline unless it is the last one; a response that fails to encode adds nothing. */
  function CaptureUpTo(encoded: seq<Option<string>>, n: nat): string
    requires n <= |encoded|
  {
    if n == 0 then ""
    else
      CaptureUpTo(encoded, n - 1) +
      match encoded[n - 1]
      case None => ""
      case Some(s) => s + (if n - 1 < |encoded| - 1 then "\n" else "")
  }

  function Capture(encoded: seq<Option<string>>): string {
    CaptureUpTo(encoded, |encoded|)
  }

  /** Each response's encoding, in order; None where encoding fails. */
  function Encodings<T>(rs: seq<T>, encode: T -> Option<string>): (e: seq<Option<string>>)
    ensures |e| == |rs| && forall i :: 0 <= i < |rs| ==> e[i] == encode(rs[i])
  {
    seq(|rs|, i requires 0 <= i < |rs| => encode(rs[i]))
  }

  /** The capture loop of the handlers. */
  method CaptureFrontendResponse<T>(responses: seq<T>, encode: T -> Option<string>) returns (capture: string)
    ensures capture == Capture(Encodings(responses, encode))
  {
    ghost var encoded := Encodings(responses, encode);
    capture := "";
    var i := 0;
    while i < |responses|
      invariant 0 <= i <= |responses|
      invariant capture == CaptureUpTo(encoded, i)
    {
      var json := encode(responses[i]);
      if json.Some? {
        capture := capture + json.value;
        if i < |responses| - 1 {
          capture := capture + "\n";
        }
      }
      i := i + 1;
    }
  }

  function Values(encoded: seq<Option<string>>): seq<string>
    requires forall i :: 0 <= i < |encoded| ==> encoded[i].Some?
  {
    seq(|encoded|, i requires 0 <= i < |encoded| => encoded[i].value)
  }

  /** When every response encodes, the capture is the encodings joined by newlines, with no
      newline after the last. */
  lemma CaptureIsJoin(encoded: seq<Option<string>>)
    requires forall i :: 0 <= i < |encoded| ==> encoded[i].Some?
    ensures Capture(encoded) == JoinLines(Values(encoded))
  {
    var n := |encoded|;
    if n == 1 {
      assert Values(encoded) == [encoded[0].value];
      assert CaptureUpTo(encoded, 0) == "";
      assert CaptureUpTo(encoded, 1) == "" + encoded[0].value + "";
    } else if n > 1 {
      CaptureJoinPrefix(encoded, n - 1);
      assert Values(encoded)[..n - 1] + [encoded[n - 1].value] == Values(encoded);
      JoinLinesSnoc(Values(encoded)[..n - 1], encoded[n - 1].value);
    }
  }

  /** Before the last response, the capture is the prefix joined, each followed by a newline. */
  lemma {:induction false} CaptureJoinPrefix(encoded: seq<Option<string>>, n: nat)
    requires n < |encoded|
    requires forall i :: 0 <= i < |encoded| ==> encoded[i].Some?
    ensures n > 0 ==> CaptureUpTo(encoded, n) == JoinLines(Values(encoded)[..n]) + "\n"
    ensures n == 0 ==> CaptureUpTo(encoded, n) == ""
  {
    if n > 1 {
      CaptureJoinPrefix(encoded, n - 1);
      assert Values(encoded)[..n - 1] + [encoded[n - 1].value] == Values(encoded)[..n];
      JoinLinesSnoc(Values(encoded)[..n - 1], encoded[n - 1].value);
    } else if n == 1 {
      assert Values(encoded)[..1] == [encoded[0].value];
    }
  }

  /** Joining one more part adds a newline and the part. */
  lemma {:induction false} JoinLinesSnoc(parts: seq<string>, last: string)
    requires parts != []
    ensures JoinLines(parts + [last]) == JoinLines(parts) + "\n" + last
    decreases |parts|
  {
    if |parts| == 1 {
      assert (parts + [last])[1..] == [last];
    } else {
      assert (parts + [last])[1..] == parts[1..] + [last];
      JoinLinesSnoc(parts[1..], last);
    }
  }
}
