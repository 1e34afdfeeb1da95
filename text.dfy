/** The few string operations of Go's standard library the core relies on, with
    strings as sequences of characters that stand for bytes. */
module Text {

  predicate HasPrefix(s: string, prefix: string) {
    |prefix| <= |s| && s[..|prefix|] == prefix
  }

  /** strings.TrimPrefix: removes one leading occurrence of `prefix`, if present. */
  function TrimPrefix(s: string, prefix: string): (r: string)
    ensures HasPrefix(s, prefix) ==> s == prefix + r
    ensures !HasPrefix(s, prefix) ==> r == s
  {
    if HasPrefix(s, prefix) then s[|prefix|..] else s
  }

  /** strings.Contains: `sub` occurs somewhere in `s` (the empty string occurs everywhere). */
  predicate Contains(s: string, sub: string) {
    exists i :: 0 <= i <= |s| - |sub| && OccursAt(s, sub, i)
  }

  predicate OccursAt(s: string, sub: string, i: int)
    requires 0 <= i <= |s| - |sub|
  {
    s[i..i + |sub|] == sub
  }

  lemma ContainsSuffix(s: string, t: string)
    ensures Contains(s + t, t)
  {
    assert OccursAt(s + t, t, |s|);
  }

  /** A strings.Builder after WriteString(line) and WriteString("\n") for every line, in order. */
  function Transcript(lines: seq<string>): string {
    if lines == [] then "" else Transcript(lines[..|lines| - 1]) + lines[|lines| - 1] + "\n"
  }

  lemma {:induction false} TranscriptAppend(a: seq<string>, b: seq<string>)
    ensures Transcript(a + b) == Transcript(a) + Transcript(b)
    decreases |b|
  {
    if b == [] {
      assert a + b == a;
    } else {
      var b' := b[..|b| - 1];
      assert (a + b)[..|a + b| - 1] == a + b';
      TranscriptAppend(a, b');
    }
  }

  /** Every line, each followed by its newline, makes up the transcript: its length is the
      total length of the lines plus one per line. */
  function TotalLength(lines: seq<string>): nat {
    if lines == [] then 0 else TotalLength(lines[..|lines| - 1]) + |lines[|lines| - 1]| + 1
  }

  lemma {:induction false} TranscriptLength(lines: seq<string>)
    ensures |Transcript(lines)| == TotalLength(lines)
  {
    if lines != [] {
      TranscriptLength(lines[..|lines| - 1]);
    }
  }

  /** The strings joined with a newline between consecutive ones and none after the last. */
  function JoinLines(parts: seq<string>): string {
    if |parts| == 0 then ""
    else if |parts| == 1 then parts[0]
    else parts[0] + "\n" + JoinLines(parts[1..])
  }

}
