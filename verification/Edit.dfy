/** Exact text replacement (miniagent/tools/tool_edit.go: checkEditSize, applyOne, applyEdits) over
    Go's strings.Count and strings.Replace.  Strings stand for byte strings. */
module Edit {
  const MAX_EDIT_FILE_BYTES := 10 * 1024 * 1024

  // ---------------------------------------------------------------- occurrences

  predicate At(s: string, part: string, i: nat) {
    i + |part| <= |s| && s[i..i+|part|] == part
  }

  // strings.Count: occurrences that do not overlap, from the left.
  function Count(s: string, part: string): nat
    requires part != ""
    decreases |s|
  {
    if |s| < |part| then 0
    else if part <= s then 1 + Count(s[|part|..], part)
    else Count(s[1..], part)
  }

  // strings.Replace with a limit of n replacements, counting from the left.
  function Replace(s: string, part: string, repl: string, n: nat): string
    requires part != ""
    decreases |s|
  {
    if n == 0 || |s| < |part| then s
    else if part <= s then repl + Replace(s[|part|..], part, repl, n - 1)
    else [s[0]] + Replace(s[1..], part, repl, n)
  }

  function ReplaceAll(s: string, part: string, repl: string): string
    requires part != ""
  {
    Replace(s, part, repl, Count(s, part))
  }

  // ---------------------------------------------------------------- what replacing means

  // The text between the counted occurrences.
  function Gaps(s: string, part: string): (gaps: seq<string>)
    requires part != ""
    ensures |gaps| == Count(s, part) + 1
    decreases |s|
  {
    if |s| < |part| then [s]
    else if part <= s then [""] + Gaps(s[|part|..], part)
    else
      var rest := Gaps(s[1..], part);
      [[s[0]] + rest[0]] + rest[1..]
  }

  function Join(gaps: seq<string>, glue: string): string
    requires gaps != []
  {
    if |gaps| == 1 then gaps[0] else gaps[0] + glue + Join(gaps[1..], glue)
  }

  // The text is its gaps joined by the searched part, and replacing all joins the same gaps by the
  // new one.
  lemma {:induction false} GapsJoin(s: string, part: string)
    requires part != ""
    ensures Join(Gaps(s, part), part) == s
    decreases |s|
  {
    if |s| < |part| {
    } else if part <= s {
      GapsJoin(s[|part|..], part);
      JoinCons("", Gaps(s[|part|..], part), part);
      assert "" + part + s[|part|..] == s;
    } else {
      GapsJoin(s[1..], part);
      JoinGrow(s[0], Gaps(s[1..], part), part);
    }
  }

  lemma {:induction false} ReplaceAllJoins(s: string, part: string, repl: string)
    requires part != ""
    ensures ReplaceAll(s, part, repl) == Join(Gaps(s, part), repl)
    decreases |s|
  {
    ReplaceAllStep(s, part, repl);
    if |s| < |part| {
    } else if part <= s {
      ReplaceAllJoins(s[|part|..], part, repl);
      JoinCons("", Gaps(s[|part|..], part), repl);
      assert "" + repl == repl;
    } else {
      ReplaceAllJoins(s[1..], part, repl);
      JoinGrow(s[0], Gaps(s[1..], part), repl);
    }
  }

  lemma ReplaceAllStep(s: string, part: string, repl: string)
    requires part != ""
    ensures |s| < |part| ==> ReplaceAll(s, part, repl) == s
    ensures |s| >= |part| && part <= s ==> ReplaceAll(s, part, repl) == repl + ReplaceAll(s[|part|..], part, repl)
    ensures |s| >= |part| && !(part <= s) ==> ReplaceAll(s, part, repl) == [s[0]] + ReplaceAll(s[1..], part, repl)
  {
    if |s| >= |part| && !(part <= s) && Count(s, part) == 0 {
      assert Replace(s[1..], part, repl, 0) == s[1..];
    }
  }

  lemma JoinCons(first: string, gaps: seq<string>, glue: string)
    requires gaps != []
    ensures Join([first] + gaps, glue) == first + glue + Join(gaps, glue)
  {
    assert ([first] + gaps)[1..] == gaps;
  }

  lemma JoinGrow(c: char, gaps: seq<string>, glue: string)
    requires gaps != []
    ensures Join([[c] + gaps[0]] + gaps[1..], glue) == [c] + Join(gaps, glue)
  {
    var grown := [[c] + gaps[0]] + gaps[1..];
    assert grown[1..] == gaps[1..];
  }

  // The gaps are those of the leftmost occurrences: in a gap followed by the part, the part occurs
  // only at the end.
  lemma {:induction false} GapsLeftmost(s: string, part: string, k: nat, i: nat)
    requires part != "" && k < Count(s, part) && i < |Gaps(s, part)[k]|
    ensures !At(Gaps(s, part)[k] + part, part, i)
    decreases |s|
  {
    if part <= s {
      GapsLeftmost(s[|part|..], part, k - 1, i);
    } else if k > 0 {
      GapsLeftmost(s[1..], part, k, i);
    } else {
      var first := Gaps(s[1..], part)[0];
      AtShift(s[0], first + part, part, i);
      assert ([s[0]] + first) + part == [s[0]] + (first + part);
      if i > 0 {
        GapsLeftmost(s[1..], part, 0, i - 1);
      } else {
        GapsPrefix(s[1..], part);
        AtPrefix([s[0]] + (first + part), s, part);
      }
    }
  }

  lemma AtShift(c: char, s: string, part: string, i: nat)
    ensures i > 0 ==> (At([c] + s, part, i) <==> At(s, part, i - 1))
  {
    if 0 < i && i + |part| <= |s| + 1 {
      assert ([c] + s)[i..i+|part|] == s[i-1..i-1+|part|];
    }
  }

  lemma AtPrefix(head: string, s: string, part: string)
    requires head <= s
    ensures At(head, part, 0) ==> part <= s
  {
  }

  lemma {:induction false} GapsPrefix(s: string, part: string)
    requires part != "" && Count(s, part) > 0
    ensures Gaps(s, part)[0] + part <= s
    decreases |s|
  {
    if !(part <= s) {
      GapsPrefix(s[1..], part);
      var rest := Gaps(s[1..], part);
      assert ([s[0]] + rest[0]) + part == [s[0]] + (rest[0] + part);
      assert s == [s[0]] + s[1..];
    } else {
      assert "" + part == part;
    }
  }

  // ---------------------------------------------------------------- one replacement

  datatype Applied = Done(content: string, count: nat) | NotFound | Ambiguous(count: nat) | TooBig(estimate: int)

  datatype EditOne = EditOne(oldString: string, newString: string, replaceAll: bool)

  // What argument validation asks of an edit.
  predicate WellFormed(e: EditOne) {
    e.oldString != "" && e.oldString != e.newString
  }

  // checkEditSize's estimate.
  function Estimate(content: string, e: EditOne): int
    requires e.oldString != ""
  {
    |content| + (if e.replaceAll then Count(content, e.oldString) else 1) * (|e.newString| - |e.oldString|)
  }

  lemma {:induction false} ReplaceLength(s: string, part: string, repl: string, n: nat)
    requires part != "" && n <= Count(s, part)
    ensures |Replace(s, part, repl, n)| == |s| + n * (|repl| - |part|)
    decreases |s|
  {
    if n == 0 || |s| < |part| {
    } else if part <= s {
      ReplaceLength(s[|part|..], part, repl, n - 1);
      OneMore(n, |repl| - |part|);
    } else {
      ReplaceLength(s[1..], part, repl, n);
    }
  }

  lemma OneMore(n: int, d: int)
    ensures n * d == (n - 1) * d + d
  {
  }

  method CheckEditSize(content: string, e: EditOne, maxBytes: int) returns (tooBig: bool, estimate: int)
    requires e.oldString != ""
    ensures estimate == Estimate(content, e) && (tooBig <==> estimate > maxBytes)
  {
    var count := 1;
    if e.replaceAll {
      count := Count(content, e.oldString);
    }
    estimate := |content| + count * (|e.newString| - |e.oldString|);
    tooBig := estimate > maxBytes;
  }

  // The size check and applyOne, as both callers use them in a row.  The estimate is exact: a result
  // has precisely the length that was estimated before it was built.
  method ApplyOne(content: string, e: EditOne) returns (r: Applied)
    requires WellFormed(e)
    ensures r == EditOnce(content, e)
    ensures r.TooBig? <==> Estimate(content, e) > 10485760
    ensures r.NotFound? <==> Estimate(content, e) <= 10485760 && Count(content, e.oldString) == 0
    ensures r.Ambiguous? <==>
              Estimate(content, e) <= 10485760 && Count(content, e.oldString) > 1 && !e.replaceAll
    ensures r.Done? ==> |r.content| == Estimate(content, e) <= MAX_EDIT_FILE_BYTES
    ensures r.Done? ==>
              r.content == Join(Gaps(content, e.oldString), e.newString) && r.count == |Gaps(content, e.oldString)| - 1
    ensures r.Done? && !e.replaceAll ==> r.count == 1
  {
    var tooBig, estimate := CheckEditSize(content, e, MAX_EDIT_FILE_BYTES);
    if tooBig {
      return TooBig(estimate);
    }
    var count := Count(content, e.oldString);
    if count == 0 {
      return NotFound;
    }
    if !e.replaceAll && count > 1 {
      return Ambiguous(count);
    }
    var n := if e.replaceAll then count else 1;
    ReplaceLength(content, e.oldString, e.newString, n);
    ReplaceAllJoins(content, e.oldString, e.newString);
    r := Done(Replace(content, e.oldString, e.newString, n), count);
  }

  function EditOnce(content: string, e: EditOne): Applied
    requires WellFormed(e)
  {
    var count := Count(content, e.oldString);
    if Estimate(content, e) > MAX_EDIT_FILE_BYTES then TooBig(Estimate(content, e))
    else if count == 0 then NotFound
    else if !e.replaceAll && count > 1 then Ambiguous(count)
    else Done(Replace(content, e.oldString, e.newString, if e.replaceAll then count else 1), count)
  }

  // ---------------------------------------------------------------- how unique a unique match is

  ghost predicate OccursOnce(s: string, part: string) {
    && (exists i: nat :: At(s, part, i))
    && (forall i: nat, j: nat :: At(s, part, i) && At(s, part, j) ==> i == j)
  }

  // A proper part of the text is both its beginning and its end.
  ghost predicate Bordered(part: string) {
    exists k :: 0 < k < |part| && part[..k] == part[|part|-k..]
  }

  lemma {:induction false} CountFinds(s: string, part: string, i: nat)
    requires part != "" && At(s, part, i)
    ensures Count(s, part) >= 1
    decreases |s|
  {
    if !(part <= s) {
      if i > 0 {
        assert s == [s[0]] + s[1..];
        AtShift(s[0], s[1..], part, i);
        CountFinds(s[1..], part, i - 1);
      }
    }
  }

  lemma {:induction false} CountFindsTwo(s: string, part: string, i: nat, j: nat)
    requires part != "" && At(s, part, i) && At(s, part, j) && i + |part| <= j
    ensures Count(s, part) >= 2
    decreases |s|
  {
    if part <= s {
      assert s[|part|..][j-|part|..j] == s[j..j+|part|];
      CountFinds(s[|part|..], part, j - |part|);
    } else if i > 0 {
      assert s == [s[0]] + s[1..];
      AtShift(s[0], s[1..], part, i);
      AtShift(s[0], s[1..], part, j);
      CountFindsTwo(s[1..], part, i - 1, j - 1);
    }
  }

  lemma {:induction false} CountPlace(s: string, part: string) returns (i: nat)
    requires part != "" && Count(s, part) >= 1
    ensures At(s, part, i)
    decreases |s|
  {
    if part <= s {
      i := 0;
    } else {
      i := CountPlace(s[1..], part);
      assert s == [s[0]] + s[1..];
      i := i + 1;
      AtShift(s[0], s[1..], part, i);
    }
  }

  lemma OverlapIsBorder(s: string, part: string, i: nat, j: nat)
    requires At(s, part, i) && At(s, part, j) && i < j < i + |part|
    ensures Bordered(part)
  {
    var k := i + |part| - j;
    assert part[..k] == s[j..j+|part|][..k] == s[j..j+k];
    assert part[|part|-k..] == s[i..i+|part|][|part|-k..] == s[j..i+|part|];
  }

  lemma BorderRepeats(part: string, k: nat) returns (s: string)
    requires 0 < k < |part| && part[..k] == part[|part|-k..]
    ensures Count(s, part) == 1 && !OccursOnce(s, part)
  {
    s := part + part[k..];
    assert s[|part|..] == part[k..];
    assert s[..|part|] == part;
    assert s[|part|-k..] == part[|part|-k..] + part[k..] == part;
    assert At(s, part, 0) && At(s, part, |part| - k);
  }

  // An edit without replace_all asks for one match, but counts matches that do not overlap: a count
  // of one means a single occurrence, whatever the file, exactly if the searched text has no border.
  lemma CountedOnceIsUnique(part: string)
    requires part != ""
    ensures (forall s :: Count(s, part) == 1 ==> OccursOnce(s, part)) <==> !Bordered(part)
  {
    if Bordered(part) {
      var k :| 0 < k < |part| && part[..k] == part[|part|-k..];
      var s := BorderRepeats(part, k);
    } else {
      forall s | Count(s, part) == 1 ensures OccursOnce(s, part) {
        var place := CountPlace(s, part);
        forall i: nat, j: nat | At(s, part, i) && At(s, part, j) ensures i == j {
          OnlyOne(s, part, i, j);
          OnlyOne(s, part, j, i);
        }
      }
    }
  }

  lemma OnlyOne(s: string, part: string, i: nat, j: nat)
    requires part != "" && Count(s, part) == 1 && !Bordered(part) && At(s, part, i) && At(s, part, j)
    ensures i >= j
  {
    if i + |part| <= j {
      CountFindsTwo(s, part, i, j);
    } else if i < j {
      OverlapIsBorder(s, part, i, j);
    }
  }

  // ---------------------------------------------------------------- the edits list

  predicate AllWellFormed(edits: seq<EditOne>) {
    forall i :: 0 <= i < |edits| ==> WellFormed(edits[i])
  }

  datatype EditResult = Edited(content: string, matches: nat) | Refused(segment: nat, reason: Applied)

  // Each edit works on the result of the one before; the first that fails fails them all.
  function EditAll(content: string, edits: seq<EditOne>): EditResult
    requires AllWellFormed(edits)
    decreases |edits|
  {
    if edits == [] then Edited(content, 0)
    else match EditAll(content, edits[..|edits|-1])
      case Refused(k, reason) => Refused(k, reason)
      case Edited(before, matches) =>
        match EditOnce(before, edits[|edits|-1])
        case Done(after, n) => Edited(after, matches + n)
        case reason => Refused(|edits|, reason)
  }

  // The contents from edit to edit: the first is given, and each next one is what an edit makes of it.
  ghost predicate Chain(contents: seq<string>, content: string, edits: seq<EditOne>)
    requires AllWellFormed(edits)
  {
    && |contents| == |edits| + 1 && contents[0] == content
    && forall i :: 0 <= i < |edits| ==>
         EditOnce(contents[i], edits[i]).Done? && EditOnce(contents[i], edits[i]).content == contents[i+1]
  }

  lemma {:induction false} ChainOfEdits(content: string, edits: seq<EditOne>) returns (contents: seq<string>)
    requires AllWellFormed(edits) && EditAll(content, edits).Edited?
    ensures Chain(contents, content, edits) && contents[|edits|] == EditAll(content, edits).content
    decreases |edits|
  {
    if edits == [] {
      contents := [content];
    } else {
      contents := ChainOfEdits(content, edits[..|edits|-1]);
      contents := contents + [EditAll(content, edits).content];
    }
  }

  ghost predicate RefusedBehind(content: string, before: seq<EditOne>, e: EditOne, reason: Applied)
    requires AllWellFormed(before) && WellFormed(e)
  {
    exists contents :: Chain(contents, content, before) && EditOnce(contents[|before|], e) == reason
  }

  // All edits were applied, in order; or those before the segment were, and that one was refused.
  ghost predicate AppliedInOrder(content: string, edits: seq<EditOne>, r: EditResult)
    requires AllWellFormed(edits)
  {
    match r
    case Edited(after, _) => exists contents :: Chain(contents, content, edits) && contents[|edits|] == after
    case Refused(k, reason) =>
      1 <= k <= |edits| && !reason.Done? && RefusedBehind(content, edits[..k-1], edits[k-1], reason)
  }

  lemma {:induction false} RefusedStays(content: string, edits: seq<EditOne>, k: nat)
    requires AllWellFormed(edits) && k <= |edits| && EditAll(content, edits[..k]).Refused?
    ensures EditAll(content, edits) == EditAll(content, edits[..k])
    decreases |edits|
  {
    if k < |edits| {
      assert edits[..|edits|-1][..k] == edits[..k];
      RefusedStays(content, edits[..|edits|-1], k);
    } else {
      assert edits[..k] == edits;
    }
  }

  // The loop of applyEdits.  Every intermediate result keeps the size limit, and so does the last.
  method ApplyEdits(content: string, edits: seq<EditOne>) returns (r: EditResult)
    requires AllWellFormed(edits) && |content| <= MAX_EDIT_FILE_BYTES
    ensures r == EditAll(content, edits)
    ensures forall k :: 0 <= k <= |edits| ==> WithinLimit(EditAll(content, edits[..k]))
    ensures AppliedInOrder(content, edits, r)
  {
    var updated := content;
    var total: nat := 0;
    for i := 0 to |edits|
      invariant EditAll(content, edits[..i]) == Edited(updated, total)
    {
      EditsKeepLimit(content, edits[..i]);
      var one := ApplyOne(updated, edits[i]);
      assert edits[..i+1][..i] == edits[..i];
      if !one.Done? {
        ghost var contents := ChainOfEdits(content, edits[..i]);
        RefusedStays(content, edits, i + 1);
        PrefixesKeepLimit(content, edits);
        assert RefusedBehind(content, edits[..i], edits[i], one);
        return Refused(i + 1, one);
      }
      updated := one.content;
      total := total + one.count;
    }
    assert edits[..|edits|] == edits;
    PrefixesKeepLimit(content, edits);
    ghost var contents := ChainOfEdits(content, edits);
    r := Edited(updated, total);
  }

  predicate WithinLimit(r: EditResult) {
    r.Edited? ==> |r.content| <= MAX_EDIT_FILE_BYTES
  }

  lemma PrefixesKeepLimit(content: string, edits: seq<EditOne>)
    requires AllWellFormed(edits) && |content| <= MAX_EDIT_FILE_BYTES
    ensures forall k :: 0 <= k <= |edits| ==> WithinLimit(EditAll(content, edits[..k]))
  {
    forall k | 0 <= k <= |edits| ensures WithinLimit(EditAll(content, edits[..k])) {
      EditsKeepLimit(content, edits[..k]);
    }
  }

  lemma OnceKeepsLimit(content: string, e: EditOne)
    requires WellFormed(e) && EditOnce(content, e).Done?
    ensures |EditOnce(content, e).content| == Estimate(content, e) <= MAX_EDIT_FILE_BYTES
  {
    ReplaceLength(content, e.oldString, e.newString, if e.replaceAll then Count(content, e.oldString) else 1);
  }

  lemma {:induction false} EditsKeepLimit(content: string, edits: seq<EditOne>)
    requires AllWellFormed(edits) && |content| <= MAX_EDIT_FILE_BYTES
    ensures WithinLimit(EditAll(content, edits))
    decreases |edits|
  {
    if edits == [] {
    } else {
      var before, e := EditAll(content, edits[..|edits|-1]), edits[|edits|-1];
      EditsKeepLimit(content, edits[..|edits|-1]);
      if before.Edited? && EditOnce(before.content, e).Done? {
        OnceKeepsLimit(before.content, e);
      }
    }
  }
}
