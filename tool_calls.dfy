/** Tool-call reassembly of the OpenAI chat stream (backend/openai.go): fragments that arrive
    keyed by the backend's index are accumulated into a table, and the table is turned into
    the frontend's tool-call list in index order (buildToolCallsArray). */
module ToolCalls {

  import opened Wrappers
  import opened Json
  import opened Sets

  /** What is known of one tool call so far. */
  datatype ToolCallState = ToolCallState(id: string, name: string, arguments: string)

  const EmptyState := ToolCallState("", "", "")

  /** The table of tool calls being reassembled, keyed by the backend's index. */
  type Accumulator = map<int, ToolCallState>

  /** One entry of a delta's tool_calls, with "" standing for an absent or empty piece. */
  datatype Fragment = Fragment(index: int, id: string, name: string, arguments: string)

  /** The fragment an entry carries: none for an entry that is not an object; the index is
      the numeric "index" truncated to an int (0 when missing); the id when it is a string;
      name and arguments when "function" is an object holding them as strings. */
  function FragmentOf(tc: Value): Option<Fragment> {
    if !tc.Object? then None
    else
      var index := match Field(tc, "index") case Some(Number(n)) => TruncateToInt(n) case _ => 0;
      var fn := Field(tc, "function").GetOr(Null);
      Some(Fragment(
        index,
        StringField(tc, "id").GetOr(""),
        StringField(fn, "name").GetOr(""),
        StringField(fn, "arguments").GetOr("")))
  }

  /** The fragments of a sequence of entries, in arrival order. */
  function Fragments(tcs: seq<Value>): seq<Fragment> {
    if tcs == [] then []
    else
      Fragments(tcs[..|tcs| - 1]) +
      match FragmentOf(tcs[|tcs| - 1]) case Some(f) => [f] case None => []
  }

  lemma {:induction false} FragmentsAppend(a: seq<Value>, b: seq<Value>)
    ensures Fragments(a + b) == Fragments(a) + Fragments(b)
    decreases |b|
  {
    if b == [] {
      assert a + b == a;
    } else {
      assert (a + b)[..|a + b| - 1] == a + b[..|b| - 1];
      FragmentsAppend(a, b[..|b| - 1]);
    }
  }

  /** One fragment absorbed: a non-empty id or name replaces the stored one, the arguments
      piece is appended; an unseen index starts from empty. */
  function Absorb(acc: Accumulator, f: Fragment): Accumulator {
    var prior := if f.index in acc then acc[f.index] else EmptyState;
    acc[f.index := ToolCallState(
      if f.id != "" then f.id else prior.id,
      if f.name != "" then f.name else prior.name,
      prior.arguments + f.arguments)]
  }

  function AbsorbAll(acc: Accumulator, frags: seq<Fragment>): Accumulator {
    if frags == [] then acc else Absorb(AbsorbAll(acc, frags[..|frags| - 1]), frags[|frags| - 1])
  }

  lemma {:induction false} AbsorbAllAppend(acc: Accumulator, a: seq<Fragment>, b: seq<Fragment>)
    ensures AbsorbAll(acc, a + b) == AbsorbAll(AbsorbAll(acc, a), b)
    decreases |b|
  {
    if b == [] {
      assert a + b == a;
    } else {
      assert (a + b)[..|a + b| - 1] == a + b[..|b| - 1];
      AbsorbAllAppend(acc, a, b[..|b| - 1]);
    }
  }

  /** The table after the tool-call entries of one delta. */
  function Accumulate(acc: Accumulator, tcs: seq<Value>): Accumulator {
    AbsorbAll(acc, Fragments(tcs))
  }

  /** The loop over a delta's tool_calls in handleStreamingChat. */
  method AccumulateToolCalls(acc: Accumulator, tcs: seq<Value>) returns (r: Accumulator)
    ensures r == Accumulate(acc, tcs)
  {
    r := acc;
    var i := 0;
    while i < |tcs|
      invariant 0 <= i <= |tcs|
      invariant r == AbsorbAll(acc, Fragments(tcs[..i]))
    {
      assert tcs[..i + 1][..i] == tcs[..i];
      var tc := tcs[i];
      i := i + 1;
      if !tc.Object? {
        assert Fragments(tcs[..i]) == Fragments(tcs[..i - 1]);
        continue;
      }
      ghost var done := Fragments(tcs[..i - 1]);
      ghost var f := FragmentOf(tc).value;
      assert Fragments(tcs[..i]) == done + [f];
      assert (done + [f])[..|done + [f]| - 1] == done;
      r := AbsorbEntry(r, tc);
    }
    assert tcs[..i] == tcs;
  }

  /** One object entry of tool_calls merged into the table: its index, then its fields. */
  method AbsorbEntry(acc: Accumulator, tc: Value) returns (r: Accumulator)
    requires tc.Object?
    ensures r == Absorb(acc, FragmentOf(tc).value)
  {
    var index := EntryIndex(tc);
    var state := EmptyState;
    if index in acc {
      state := acc[index];
    }
    state := MergeFields(state, tc);
    r := acc[index := state];
  }

  /** The entry's index: its numeric "index" truncated to an int, 0 when there is none. */
  method EntryIndex(tc: Value) returns (index: int)
    requires tc.Object?
    ensures index == FragmentOf(tc).value.index
  {
    index := 0;
    if "index" in tc.fields && tc.fields["index"].Number? {
      index := TruncateToInt(tc.fields["index"].n);
    }
  }

  /** The entry's id, name and arguments merged into the state stored for its index. */
  method MergeFields(state: ToolCallState, tc: Value) returns (r: ToolCallState)
    requires tc.Object?
    ensures var f := FragmentOf(tc).value;
      r == ToolCallState(
        if f.id != "" then f.id else state.id,
        if f.name != "" then f.name else state.name,
        state.arguments + f.arguments)
  {
    r := state;
    if "id" in tc.fields && tc.fields["id"].Str? && tc.fields["id"].s != "" {
      r := r.(id := tc.fields["id"].s);
    }
    if "function" in tc.fields && tc.fields["function"].Object? {
      var fn := tc.fields["function"].fields;
      if "name" in fn && fn["name"].Str? && fn["name"].s != "" {
        r := r.(name := fn["name"].s);
      }
      if "arguments" in fn && fn["arguments"].Str? {
        r := r.(arguments := r.arguments + fn["arguments"].s);
      }
    }
  }

  // ---- reference definitions, index by index ----

  /** Whether some fragment carries index `i`. */
  predicate Mentions(frags: seq<Fragment>, i: int) {
    exists j :: 0 <= j < |frags| && frags[j].index == i
  }

  /** The arguments pieces for index `i`, concatenated in arrival order. */
  function ArgumentsFor(frags: seq<Fragment>, i: int): string {
    if frags == [] then ""
    else ArgumentsFor(frags[..|frags| - 1], i) + (if frags[|frags| - 1].index == i then frags[|frags| - 1].arguments else "")
  }

  /** The last non-empty id sent for index `i` ("" if none). */
  function LastIdFor(frags: seq<Fragment>, i: int): string {
    if frags == [] then ""
    else if frags[|frags| - 1].index == i && frags[|frags| - 1].id != "" then frags[|frags| - 1].id
    else LastIdFor(frags[..|frags| - 1], i)
  }

  /** The last non-empty function name sent for index `i` ("" if none). */
  function LastNameFor(frags: seq<Fragment>, i: int): string {
    if frags == [] then ""
    else if frags[|frags| - 1].index == i && frags[|frags| - 1].name != "" then frags[|frags| - 1].name
    else LastNameFor(frags[..|frags| - 1], i)
  }

  /** Starting from an empty table, the table holds exactly the indices some fragment
      carried, and for each its arguments are all of that index's pieces in arrival order,
      its id and its name the last non-empty ones sent. */
  lemma {:induction false} AccumulatedPerIndex(frags: seq<Fragment>)
    ensures forall i :: i in AbsorbAll(map[], frags) <==> Mentions(frags, i)
    ensures forall i :: i in AbsorbAll(map[], frags) ==>
      AbsorbAll(map[], frags)[i] == ToolCallState(LastIdFor(frags, i), LastNameFor(frags, i), ArgumentsFor(frags, i))
  {
    if frags != [] {
      var init := frags[..|frags| - 1];
      var f := frags[|frags| - 1];
      AccumulatedPerIndex(init);
      forall i ensures Mentions(frags, i) <==> Mentions(init, i) || f.index == i {
        MentionsSnoc(frags, i);
      }
      forall i | !Mentions(init, i)
        ensures LastIdFor(init, i) == "" && LastNameFor(init, i) == "" && ArgumentsFor(init, i) == ""
      {
        NeverMentioned(init, i);
      }
    }
  }

  lemma MentionsSnoc(frags: seq<Fragment>, i: int)
    requires frags != []
    ensures Mentions(frags, i) <==> Mentions(frags[..|frags| - 1], i) || frags[|frags| - 1].index == i
  {
    var init := frags[..|frags| - 1];
    if Mentions(frags, i) && frags[|frags| - 1].index != i {
      var j :| 0 <= j < |frags| && frags[j].index == i;
      assert init[j].index == i;
    }
    if Mentions(init, i) {
      var j :| 0 <= j < |init| && init[j].index == i;
      assert frags[j].index == i;
    }
  }

  lemma {:induction false} NeverMentioned(frags: seq<Fragment>, i: int)
    requires !Mentions(frags, i)
    ensures LastIdFor(frags, i) == "" && LastNameFor(frags, i) == "" && ArgumentsFor(frags, i) == ""
  {
    if frags != [] {
      var init := frags[..|frags| - 1];
      MentionsSnoc(frags, i);
      NeverMentioned(init, i);
    }
  }

  // ---- buildToolCallsArray ----

  /** Arguments as the frontend gets them: an empty object for "", the parsed value when the
      text parses as JSON, the text itself otherwise. */
  function ArgumentsValue(args: string, parse: string -> Option<Value>): (v: Value)
    ensures args == "" ==> v == Object(map[])
    ensures args != "" && parse(args).None? ==> v == Str(args)
    ensures args != "" && parse(args).Some? ==> v == parse(args).value
  {
    if args == "" then Object(map[])
    else match parse(args) case Some(v) => v case None => Str(args)
  }

  /** A reassembled tool call in the frontend's shape: name and arguments, no id. */
  function ToolCallOut(st: ToolCallState, parse: string -> Option<Value>): Value {
    Object(map["function" := Object(map["name" := Str(st.name), "arguments" := ArgumentsValue(st.arguments, parse)])])
  }

  /** The indices of the table in [0, n), ascending. */
  function KeysBelow(acc: Accumulator, n: int): seq<int>
    decreases n
  {
    if n <= 0 then [] else KeysBelow(acc, n - 1) + (if n - 1 in acc then [n - 1] else [])
  }

  /** The tool calls for the indices of the table in [0, n), in index order. */
  function CallsBelow(acc: Accumulator, parse: string -> Option<Value>, n: int): seq<Value>
    decreases n
  {
    if n <= 0 then []
    else CallsBelow(acc, parse, n - 1) + (if n - 1 in acc then [ToolCallOut(acc[n - 1], parse)] else [])
  }

  /** The largest index of the table, or -1 when no index is non-negative. */
  ghost function MaxIndex(keys: set<int>): (m: int)
    ensures m >= -1
    ensures forall k :: k in keys ==> k <= m
    ensures m == -1 || m in keys
  {
    if keys == {} then -1
    else
      SomeMember(keys);
      var k :| k in keys;
      var rest := MaxIndex(keys - {k});
      assert forall j :: j in keys ==> j == k || j in keys - {k};
      if k > rest then k else rest
  }

  /** buildToolCallsArray's result: walk 0..MaxIndex, skip the gaps. */
  ghost function BuildToolCalls(acc: Accumulator, parse: string -> Option<Value>): seq<Value> {
    CallsBelow(acc, parse, MaxIndex(acc.Keys) + 1)
  }

  method BuildToolCallsArray(acc: Accumulator, parse: string -> Option<Value>) returns (toolCalls: seq<Value>)
    ensures toolCalls == BuildToolCalls(acc, parse)
  {
    var maxIndex := -1;
    var unseen := acc.Keys;
    while unseen != {}
      invariant unseen <= acc.Keys
      invariant maxIndex >= -1 && (maxIndex == -1 || maxIndex in acc)
      invariant forall k :: k in acc && k !in unseen ==> k <= maxIndex
      decreases |unseen|
    {
      SomeMember(unseen);
      var idx :| idx in unseen;
      if idx > maxIndex {
        maxIndex := idx;
      }
      unseen := unseen - {idx};
    }
    var m := MaxIndex(acc.Keys);
    assert maxIndex == m by {
      assert maxIndex in acc ==> maxIndex <= m;
      assert m in acc ==> m <= maxIndex;
    }
    toolCalls := [];
    var i := 0;
    while i <= maxIndex
      invariant 0 <= i <= maxIndex + 1
      invariant toolCalls == CallsBelow(acc, parse, i)
    {
      if i in acc {
        toolCalls := toolCalls + [ToolCallOut(acc[i], parse)];
      }
      i := i + 1;
    }
  }

  lemma {:induction false} KeysBelowShape(acc: Accumulator, parse: string -> Option<Value>, n: int)
    ensures |CallsBelow(acc, parse, n)| == |KeysBelow(acc, n)|
    ensures forall j :: 0 <= j < |KeysBelow(acc, n)| ==>
      KeysBelow(acc, n)[j] in acc && CallsBelow(acc, parse, n)[j] == ToolCallOut(acc[KeysBelow(acc, n)[j]], parse)
    ensures forall j, l :: 0 <= j < l < |KeysBelow(acc, n)| ==> KeysBelow(acc, n)[j] < KeysBelow(acc, n)[l]
    ensures forall k :: k in KeysBelow(acc, n) <==> k in acc && 0 <= k < n
    decreases n
  {
    if n > 0 {
      KeysBelowShape(acc, parse, n - 1);
    }
  }

  /** The assembled list has one entry per non-negative index of the table, in ascending
      index order: gaps and negative indices are skipped, ids are dropped. */
  ghost function AscendingKeys(acc: Accumulator): seq<int> {
    KeysBelow(acc, MaxIndex(acc.Keys) + 1)
  }

  lemma BuildToolCallsInIndexOrder(acc: Accumulator, parse: string -> Option<Value>)
    ensures |BuildToolCalls(acc, parse)| == |AscendingKeys(acc)|
    ensures forall j, l :: 0 <= j < l < |AscendingKeys(acc)| ==> AscendingKeys(acc)[j] < AscendingKeys(acc)[l]
    ensures forall k :: k in AscendingKeys(acc) <==> k in acc && 0 <= k
    ensures forall j :: 0 <= j < |AscendingKeys(acc)| ==>
      AscendingKeys(acc)[j] in acc && BuildToolCalls(acc, parse)[j] == ToolCallOut(acc[AscendingKeys(acc)[j]], parse)
  {
    var n := MaxIndex(acc.Keys) + 1;
    KeysBelowShape(acc, parse, n);
    assert forall k :: k in acc ==> k < n;
  }
}
