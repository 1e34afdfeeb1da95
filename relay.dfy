/** The handlers' relay loops: increments are forwarded in order and the loop breaks right
    after the first final (done) increment. */
module Relay {

  /** The increments a relay loop forwards: everything up to and including the first final
      one, or all of them when none is final. */
  function RelayPrefix<T>(s: seq<T>, isDone: T -> bool): (r: seq<T>)
    ensures |r| <= |s| && r == s[..|r|]
    ensures forall j :: 0 <= j < |r| - 1 ==> !isDone(r[j])
    ensures r == s || (r != [] && isDone(r[|r| - 1]))
  {
    if s == [] then []
    else if isDone(s[0]) then [s[0]]
    else [s[0]] + RelayPrefix(s[1..], isDone)
  }

  /** When the first final increment sits at position p, the relay forwards exactly the
      first p + 1 increments. */
  lemma {:induction false} RelayStopsAtFirstDone<T>(s: seq<T>, isDone: T -> bool, p: nat)
    requires p < |s| && isDone(s[p])
    requires forall j :: 0 <= j < p ==> !isDone(s[j])
    ensures RelayPrefix(s, isDone) == s[..p + 1]
    decreases p
  {
    if p > 0 {
      RelayStopsAtFirstDone(s[1..], isDone, p - 1);
      assert s[..p + 1] == [s[0]] + s[1..][..p];
    }
  }

  /** With no final increment the relay forwards everything. */
  lemma {:induction false} RelayWithoutDone<T>(s: seq<T>, isDone: T -> bool)
    requires forall j :: 0 <= j < |s| ==> !isDone(s[j])
    ensures RelayPrefix(s, isDone) == s
    decreases |s|
  {
    if s != [] {
      RelayWithoutDone(s[1..], isDone);
    }
  }
}
