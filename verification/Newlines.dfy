/** Text divided into lines, each with its terminator, and the unterminated rest. */
module Newlines {
  import opened Seqs

  function FirstNewline(s: string): (i: nat)
    ensures i <= |s|
    ensures forall j :: 0 <= j < i ==> s[j] != '\n'
    ensures i < |s| ==> s[i] == '\n'
  {
    if s == "" || s[0] == '\n' then 0 else 1 + FirstNewline(s[1..])
  }

  // The complete lines of a byte stream, terminators included, and what follows the last of them.
  function Lines(s: string): seq<string>
    decreases |s|
  {
    var i := FirstNewline(s);
    if i == |s| then [] else [s[..i+1]] + Lines(s[i+1..])
  }

  function Rest(s: string): string
    decreases |s|
  {
    var i := FirstNewline(s);
    if i == |s| then s else Rest(s[i+1..])
  }

  function Joined(lines: seq<string>): string {
    if lines == [] then "" else lines[0] + Joined(lines[1..])
  }

  predicate WholeLine(line: string) {
    |line| > 0 && FirstNewline(line) == |line| - 1
  }

  lemma JoinedCons(line: string, lines: seq<string>, rest: string)
    ensures Joined([line] + lines) + rest == line + (Joined(lines) + rest)
  {
    assert ([line] + lines)[1..] == lines;
  }

  // The division into lines loses nothing: every line is whole and the rest holds no newline.
  lemma {:induction false} LinesJoin(s: string)
    ensures Joined(Lines(s)) + Rest(s) == s
    decreases |s|
  {
    if FirstNewline(s) < |s| {
      var line, after := FirstLine(s);
      LinesJoin(after);
      JoinedCons(line, Lines(after), Rest(after));
    }
  }

  lemma FirstLine(s: string) returns (line: string, after: string)
    requires FirstNewline(s) < |s|
    ensures s == line + after && |after| < |s|
    ensures line == s[..FirstNewline(s)+1] && after == s[FirstNewline(s)+1..]
    ensures Lines(s) == [line] + Lines(after) && Rest(s) == Rest(after)
  {
    var i := FirstNewline(s);
    line, after := s[..i+1], s[i+1..];
  }

  lemma {:induction false} LinesWhole(s: string)
    ensures FirstNewline(Rest(s)) == |Rest(s)|
    ensures forall l :: l in Lines(s) ==> WholeLine(l)
    decreases |s|
  {
    var i := FirstNewline(s);
    if i < |s| {
      LinesWhole(s[i+1..]);
      NewlineAt(s[..i+1], i);
    }
  }

  lemma NewlineAt(s: string, i: nat)
    requires i < |s| && s[i] == '\n' && forall j :: 0 <= j < i ==> s[j] != '\n'
    ensures FirstNewline(s) == i
  {
    var k := FirstNewline(s);
    assert k == i || k < i || i < k;
  }

  lemma NoNewline(s: string)
    requires forall j :: 0 <= j < |s| ==> s[j] != '\n'
    ensures FirstNewline(s) == |s|
  {
  }

  // Cutting the stream between two writes changes neither the lines nor the rest.
  lemma {:induction false} LinesConcat(p: string, q: string)
    ensures Lines(p + q) == Lines(p) + Lines(Rest(p) + q)
    ensures Rest(p + q) == Rest(Rest(p) + q)
    decreases |p|
  {
    hide Lines, Rest, FirstNewline;
    if FirstNewline(p) == |p| {
      NoLine(p);
    } else {
      var line, after := FirstLine(p);
      assert (p + q)[|line|-1] == '\n' && forall j :: 0 <= j < |line| - 1 ==> (p + q)[j] == p[j];
      NewlineAt(p + q, |line| - 1);
      var line', after' := FirstLine(p + q);
      assert line' == line && after' == after + q;
      LinesConcat(after, q);
      Assoc([line], Lines(after), Lines(Rest(after) + q));
    }
  }

  lemma NoLine(p: string)
    requires FirstNewline(p) == |p|
    ensures Lines(p) == [] && Rest(p) == p
  {
  }
}
