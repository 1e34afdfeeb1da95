/** The verbose request logging of middleware/logging.go: a response writer wrapper that
    remembers the status code the handler set, forwards only the first WriteHeader, and
    sends an implicit 200 before the first body write. */
module Logging {

  import opened Wrappers

  const StatusOK := 200

  /** What reaches the underlying writer. */
  datatype Event = Header(code: int) | Body(bytes: seq<bv8>) | Flushed

  /** What a handler calls on the writer it is given. */
  datatype Call = WriteHeaderCall(code: int) | WriteCall(bytes: seq<bv8>) | FlushCall

  /** The wrapper's fields and the calls it has forwarded so far. */
  datatype WriterState = WriterState(statusCode: int, wroteHeader: bool, events: seq<Event>)

  /** The wrapper as RequestLogging builds it. */
  const Initial := WriterState(StatusOK, false, [])

  function WriteHeaderStep(st: WriterState, code: int): WriterState {
    if st.wroteHeader then st else WriterState(code, true, st.events + [Header(code)])
  }

  function WriteStep(st: WriterState, bytes: seq<bv8>): WriterState {
    var headed := if st.wroteHeader then st else WriteHeaderStep(st, StatusOK);
    headed.(events := headed.events + [Body(bytes)])
  }

  /** Flush reaches the underlying writer only when that writer can flush. */
  function FlushStep(st: WriterState, canFlush: bool): WriterState {
    if canFlush then st.(events := st.events + [Flushed]) else st
  }

  function Apply(st: WriterState, c: Call, canFlush: bool): WriterState {
    match c
    case WriteHeaderCall(code) => WriteHeaderStep(st, code)
    case WriteCall(bytes) => WriteStep(st, bytes)
    case FlushCall => FlushStep(st, canFlush)
  }

  /** The wrapper after a handler's calls, in order. */
  function RunFrom(st: WriterState, calls: seq<Call>, canFlush: bool): WriterState
    decreases |calls|
  {
    if calls == [] then st else RunFrom(Apply(st, calls[0], canFlush), calls[1..], canFlush)
  }

  /** The status a handler's calls set, read off the calls themselves: the code of a
      WriteHeader that comes before any Write, 200 when a Write comes first or nothing is
      written. */
  function StatusOf(calls: seq<Call>): int {
    if calls == [] then StatusOK
    else match calls[0]
      case WriteHeaderCall(code) => code
      case WriteCall(_) => StatusOK
      case FlushCall => StatusOf(calls[1..])
  }

  /** The position of the first header event, -1 when there is none. */
  function HeaderPos(events: seq<Event>): (p: int)
    ensures -1 <= p < |events|
    ensures p >= 0 ==> events[p].Header? && forall j :: 0 <= j < p ==> !events[j].Header?
    ensures p == -1 ==> forall j :: 0 <= j < |events| ==> !events[j].Header?
  {
    if events == [] then -1
    else if events[0].Header? then 0
    else
      var q := HeaderPos(events[1..]);
      if q == -1 then -1 else q + 1
  }

  /** The wrapper's invariant: the header goes to the underlying writer at most once, with
      the recorded status, and before any body bytes; until it goes, the status is 200. */
  predicate Wellformed(st: WriterState) {
    var p := HeaderPos(st.events);
    && (st.wroteHeader <==> p >= 0)
    && (p >= 0 ==> st.events[p] == Header(st.statusCode))
    && (!st.wroteHeader ==> st.statusCode == StatusOK)
    && (forall j :: 0 <= j < |st.events| && j != p ==> !st.events[j].Header?)
    && (forall j :: 0 <= j < |st.events| && st.events[j].Body? ==> 0 <= p < j)
  }

  lemma {:induction false} HeaderPosSnoc(events: seq<Event>, e: Event)
    ensures HeaderPos(events + [e]) ==
      if HeaderPos(events) >= 0 then HeaderPos(events) else if e.Header? then |events| else -1
  {
    if events == [] {
      assert [e][1..] == [];
    } else if !events[0].Header? {
      assert (events + [e])[1..] == events[1..] + [e];
      HeaderPosSnoc(events[1..], e);
    }
  }

  lemma WriteHeaderKeepsWellformed(st: WriterState, code: int)
    requires Wellformed(st)
    ensures Wellformed(WriteHeaderStep(st, code))
  {
    HeaderPosSnoc(st.events, Header(code));
  }

  /** Appending an event other than a header keeps the invariant; a body needs the header
      already written. */
  lemma AppendKeepsWellformed(st: WriterState, e: Event)
    requires Wellformed(st) && !e.Header?
    requires e.Body? ==> st.wroteHeader
    ensures Wellformed(st.(events := st.events + [e]))
  {
    HeaderPosSnoc(st.events, e);
  }

  /** Every call keeps the invariant. */
  lemma ApplyKeepsWellformed(st: WriterState, c: Call, canFlush: bool)
    requires Wellformed(st)
    ensures Wellformed(Apply(st, c, canFlush))
  {
    match c
    case WriteHeaderCall(code) =>
      WriteHeaderKeepsWellformed(st, code);
    case WriteCall(bytes) =>
      var headed := if st.wroteHeader then st else WriteHeaderStep(st, StatusOK);
      WriteHeaderKeepsWellformed(st, StatusOK);
      AppendKeepsWellformed(headed, Body(bytes));
    case FlushCall =>
      if canFlush {
        AppendKeepsWellformed(st, Flushed);
      }
  }

  lemma {:induction false} RunKeepsWellformed(st: WriterState, calls: seq<Call>, canFlush: bool)
    requires Wellformed(st)
    ensures Wellformed(RunFrom(st, calls, canFlush))
    decreases |calls|
  {
    if calls != [] {
      ApplyKeepsWellformed(st, calls[0], canFlush);
      RunKeepsWellformed(Apply(st, calls[0], canFlush), calls[1..], canFlush);
    }
  }

  /** Once the header is written, the status and the flag never change again; before it, the
      status the wrapper ends with is the one the calls set. */
  lemma {:induction false} RunStatus(st: WriterState, calls: seq<Call>, canFlush: bool)
    ensures st.wroteHeader ==> RunFrom(st, calls, canFlush).wroteHeader
    ensures st.wroteHeader ==> RunFrom(st, calls, canFlush).statusCode == st.statusCode
    ensures !st.wroteHeader && st.statusCode == StatusOK ==> RunFrom(st, calls, canFlush).statusCode == StatusOf(calls)
    decreases |calls|
  {
    if calls != [] {
      RunStatus(Apply(st, calls[0], canFlush), calls[1..], canFlush);
    }
  }

  /** Everything the handler writes reaches the underlying writer, in order: dropping the
      header and flush events leaves the body writes. */
  function Bodies(events: seq<Event>): seq<seq<bv8>> {
    if events == [] then []
    else (if events[0].Body? then [events[0].bytes] else []) + Bodies(events[1..])
  }

  function Writes(calls: seq<Call>): seq<seq<bv8>> {
    if calls == [] then []
    else (if calls[0].WriteCall? then [calls[0].bytes] else []) + Writes(calls[1..])
  }

  lemma {:induction false} BodiesAppend(a: seq<Event>, b: seq<Event>)
    ensures Bodies(a + b) == Bodies(a) + Bodies(b)
    decreases |a|
  {
    if a == [] {
      assert a + b == b;
    } else {
      assert (a + b)[1..] == a[1..] + b;
      BodiesAppend(a[1..], b);
    }
  }

  /** One call forwards its bytes, if it writes any, after what was already forwarded. */
  lemma ApplyForwardsWrite(st: WriterState, c: Call, canFlush: bool)
    ensures Bodies(Apply(st, c, canFlush).events) == Bodies(st.events) + (if c.WriteCall? then [c.bytes] else [])
  {
    match c
    case WriteHeaderCall(code) =>
      BodiesAppend(st.events, [Header(code)]);
    case WriteCall(bytes) =>
      var headed := if st.wroteHeader then st else WriteHeaderStep(st, StatusOK);
      BodiesAppend(st.events, [Header(StatusOK)]);
      BodiesAppend(headed.events, [Body(bytes)]);
    case FlushCall =>
      BodiesAppend(st.events, [Flushed]);
  }

  lemma {:induction false} RunForwardsWrites(st: WriterState, calls: seq<Call>, canFlush: bool)
    ensures Bodies(RunFrom(st, calls, canFlush).events) == Bodies(st.events) + Writes(calls)
    decreases |calls|
  {
    if calls != [] {
      ApplyForwardsWrite(st, calls[0], canFlush);
      RunForwardsWrites(Apply(st, calls[0], canFlush), calls[1..], canFlush);
    }
  }

  /** responseWriter: the embedded writer is represented by the events it has received. */
  class ResponseWriter {
    var statusCode: int
    var wroteHeader: bool
    var events: seq<Event>
    const canFlush: bool

    function State(): WriterState
      reads this
    {
      WriterState(statusCode, wroteHeader, events)
    }

    constructor (canFlush: bool)
      ensures State() == Initial && this.canFlush == canFlush
    {
      statusCode := StatusOK;
      wroteHeader := false;
      events := [];
      this.canFlush := canFlush;
    }

    /** The first call records the code and forwards it; later calls do nothing. */
    method WriteHeader(code: int)
      modifies this
      ensures State() == WriteHeaderStep(old(State()), code)
    {
      if wroteHeader {
        return;
      }
      statusCode := code;
      wroteHeader := true;
      events := events + [Header(code)];
    }

    /** A write before any header sends the implicit 200 first. */
    method Write(bytes: seq<bv8>)
      modifies this
      ensures State() == WriteStep(old(State()), bytes)
    {
      if !wroteHeader {
        WriteHeader(StatusOK);
      }
      events := events + [Body(bytes)];
    }

    method Flush()
      modifies this
      ensures State() == FlushStep(old(State()), canFlush)
    {
      if canFlush {
        events := events + [Flushed];
      }
    }

    method Perform(c: Call)
      modifies this
      ensures State() == Apply(old(State()), c, canFlush)
    {
      match c
      case WriteHeaderCall(code) => WriteHeader(code);
      case WriteCall(bytes) => Write(bytes);
      case FlushCall => Flush();
    }
  }

  /** What the underlying writer gets when the handler is called unwrapped: each call as it
      is made. */
  function Direct(calls: seq<Call>, canFlush: bool): seq<Event> {
    if calls == [] then []
    else
      (match calls[0]
       case WriteHeaderCall(code) => [Header(code)]
       case WriteCall(bytes) => [Body(bytes)]
       case FlushCall => if canFlush then [Flushed] else []) + Direct(calls[1..], canFlush)
  }

  lemma {:induction false} DirectForwardsWrites(calls: seq<Call>, canFlush: bool)
    ensures Bodies(Direct(calls, canFlush)) == Writes(calls)
    decreases |calls|
  {
    if calls != [] {
      DirectForwardsWrites(calls[1..], canFlush);
      var first: seq<Event> := match calls[0]
        case WriteHeaderCall(code) => [Header(code)]
        case WriteCall(bytes) => [Body(bytes)]
        case FlushCall => if canFlush then [Flushed] else [];
      BodiesAppend(first, Direct(calls[1..], canFlush));
    }
  }

  /** Wrapping changes the headers the underlying writer sees, never the body: verbose or
      not, the same bytes arrive in the same order. */
  lemma WrappingKeepsBody(calls: seq<Call>, canFlush: bool)
    ensures Bodies(RunFrom(Initial, calls, canFlush).events) == Bodies(Direct(calls, canFlush))
  {
    RunForwardsWrites(Initial, calls, canFlush);
    DirectForwardsWrites(calls, canFlush);
  }

  /** RequestLogging around a handler that makes `calls`: unwrapped when verbose is off, with
      nothing logged; otherwise through a fresh wrapper whose status is logged afterwards. */
  method RequestLogging(verbose: bool, calls: seq<Call>, canFlush: bool)
    returns (received: seq<Event>, loggedStatus: Option<int>)
    ensures !verbose ==> received == Direct(calls, canFlush) && loggedStatus == None
    ensures verbose ==> received == RunFrom(Initial, calls, canFlush).events
    ensures verbose ==> loggedStatus == Some(StatusOf(calls))
    ensures verbose ==> Wellformed(RunFrom(Initial, calls, canFlush))
  {
    if !verbose {
      return Direct(calls, canFlush), None;
    }
    var wrapped := new ResponseWriter(canFlush);
    var i := 0;
    while i < |calls|
      invariant 0 <= i <= |calls|
      invariant RunFrom(wrapped.State(), calls[i..], canFlush) == RunFrom(Initial, calls, canFlush)
      invariant wrapped.canFlush == canFlush
      modifies wrapped
    {
      assert calls[i..][1..] == calls[i + 1..];
      wrapped.Perform(calls[i]);
      i := i + 1;
    }
    assert calls[i..] == [];
    RunStatus(Initial, calls, canFlush);
    RunKeepsWellformed(Initial, calls, canFlush);
    return wrapped.events, Some(wrapped.statusCode);
  }
}
