/** Rounds: an assistant message with calls and the tool results behind it form one round, every other
    message a round of its own (miniagent/compaction/compaction_split.go), with the two lossy trims
    and the summary barrier (miniagent/compaction/split.go). */
module Rounds {
  import opened Seqs
  import opened Transcript

  function Flatten(rounds: seq<seq<Message>>): seq<Message> {
    if rounds == [] then [] else rounds[0] + Flatten(rounds[1..])
  }

  // Length of the longest prefix made of tool messages.
  function ToolRun(msgs: seq<Message>): (n: nat)
    ensures n <= |msgs|
    ensures forall i :: 0 <= i < n ==> msgs[i].role == RoleTool
    ensures n < |msgs| ==> msgs[n].role != RoleTool
  {
    if msgs == [] || msgs[0].role != RoleTool then 0 else 1 + ToolRun(msgs[1..])
  }

  function RoundLen(msgs: seq<Message>): (n: nat)
    requires msgs != []
    ensures 1 <= n <= |msgs|
  {
    if msgs[0].toolCalls == [] then 1 else 1 + ToolRun(msgs[1..])
  }

  function RoundsOf(msgs: seq<Message>): (rounds: seq<seq<Message>>)
    ensures |rounds| <= |msgs|
    ensures msgs != [] ==> rounds != []
    decreases |msgs|
  {
    if msgs == [] then []
    else [msgs[..RoundLen(msgs)]] + RoundsOf(msgs[RoundLen(msgs)..])
  }

  // What is still to come when the round `cur` is open (or none is).
  function Continue(cur: seq<Message>, rest: seq<Message>): seq<seq<Message>> {
    if cur == [] then RoundsOf(rest)
    else [cur + rest[..ToolRun(rest)]] + RoundsOf(rest[ToolRun(rest)..])
  }

  lemma ContinueTool(cur: seq<Message>, m: Message, rest: seq<Message>)
    requires cur != [] && m.role == RoleTool
    ensures Continue(cur, [m] + rest) == Continue(cur + [m], rest)
  {
    var all, n := [m] + rest, ToolRun(rest);
    assert all[1..] == rest;
    assert ToolRun(all) == 1 + n;
    assert cur + all[..1+n] == (cur + [m]) + rest[..n];
    assert all[1+n..] == rest[n..];
  }

  lemma ContinueFlush(cur: seq<Message>, m: Message, rest: seq<Message>)
    requires cur != [] && m.role != RoleTool
    ensures Continue(cur, [m] + rest) == [cur] + Continue([], [m] + rest)
  {
    var all := [m] + rest;
    assert cur + all[..0] == cur && all[0..] == all;
  }

  lemma ContinueOpen(m: Message, rest: seq<Message>)
    ensures Continue([], [m] + rest) == if m.toolCalls == [] then [[m]] + Continue([], rest) else Continue([m], rest)
  {
    var all, n := [m] + rest, ToolRun(rest);
    assert all[1..] == rest && all[..1] == [m];
    assert all[..1+n] == [m] + rest[..n];
    assert all[1+n..] == rest[n..];
  }

  lemma ContinueEnd(cur: seq<Message>, rest: seq<Message>)
    requires rest == []
    ensures Continue(cur, rest) == if cur == [] then [] else [cur]
  {
    assert cur + rest == cur;
  }

  lemma FlushStep(rounds: seq<seq<Message>>, cur: seq<Message>, m: Message, rest: seq<Message>)
    requires m.role != RoleTool || cur == []
    ensures rounds + Continue(cur, [m] + rest)
         == (if cur == [] then rounds else rounds + [cur]) + Continue([], [m] + rest)
  {
    if cur != [] {
      ContinueFlush(cur, m, rest);
      assert rounds + ([cur] + Continue([], [m] + rest)) == (rounds + [cur]) + Continue([], [m] + rest);
    }
  }

  lemma OpenStep(rounds: seq<seq<Message>>, m: Message, rest: seq<Message>)
    ensures rounds + Continue([], [m] + rest)
         == if m.toolCalls == [] then (rounds + [[m]]) + Continue([], rest) else rounds + Continue([m], rest)
  {
    ContinueOpen(m, rest);
    assert rounds + ([[m]] + Continue([], rest)) == (rounds + [[m]]) + Continue([], rest);
  }

  // One iteration of the splitter: `flush` closes the open round, a message without calls closes its own.
  method Feed(rounds: seq<seq<Message>>, cur: seq<Message>, m: Message, ghost rest: seq<Message>)
      returns (rounds': seq<seq<Message>>, cur': seq<Message>)
    ensures rounds + Continue(cur, [m] + rest) == rounds' + Continue(cur', rest)
  {
    if m.role == RoleTool && cur != [] {
      ContinueTool(cur, m, rest);
      return rounds, cur + [m];
    }
    FlushStep(rounds, cur, m, rest);
    rounds', cur' := rounds, [];
    if cur != [] {
      rounds' := rounds + [cur];
    }
    OpenStep(rounds', m, rest);
    if m.toolCalls == [] {
      rounds' := rounds' + [[m]];
    } else {
      cur' := [m];
    }
  }

  lemma ContinueStart(msgs: seq<Message>)
    ensures [] + Continue([], msgs) == RoundsOf(msgs)
  {
  }

  method SplitRounds(msgs: seq<Message>) returns (rounds: seq<seq<Message>>)
    ensures rounds == RoundsOf(msgs)
  {
    rounds := [];
    var cur: seq<Message> := [];
    var rest := msgs;
    ghost var want := [] + Continue([], msgs);
    while rest != []
      invariant want == rounds + Continue(cur, rest)
      decreases |rest|
    {
      assert rest == [rest[0]] + rest[1..];
      rounds, cur := Feed(rounds, cur, rest[0], rest[1..]);
      rest := rest[1..];
    }
    ContinueEnd(cur, rest);
    if cur != [] {
      rounds := rounds + [cur];
    }
    assert rounds == want;
    ContinueStart(msgs);
  }

  method FlattenRounds(rounds: seq<seq<Message>>) returns (out: seq<Message>)
    ensures out == Flatten(rounds)
  {
    out := [];
    for i := 0 to |rounds|
      invariant Flatten(rounds) == out + Flatten(rounds[i..])
    {
      assert rounds[i..][1..] == rounds[i+1..];
      out := out + rounds[i];
    }
  }

  lemma {:induction false} FlattenConcat(a: seq<seq<Message>>, b: seq<seq<Message>>)
    ensures Flatten(a + b) == Flatten(a) + Flatten(b)
    decreases |a|
  {
    if a == [] {
      assert a + b == b;
    } else {
      FlattenConcat(a[1..], b);
      ConsConcat(a, b);
      Assoc(a[0], Flatten(a[1..]), Flatten(b));
    }
  }

  lemma FlattenOne(round: seq<Message>)
    ensures Flatten([round]) == round
  {
    assert Flatten([round]) == round + Flatten([]);
  }

  // Cutting a list of rounds in two cuts the flattened messages in two.
  lemma FlattenCut(rounds: seq<seq<Message>>, k: nat)
    requires k <= |rounds|
    ensures Flatten(rounds) == Flatten(rounds[..k]) + Flatten(rounds[k..])
  {
    TakeDrop(rounds, k);
    FlattenConcat(rounds[..k], rounds[k..]);
  }

  lemma FlattenCons(first: seq<Message>, rest: seq<seq<Message>>)
    ensures Flatten([first] + rest) == first + Flatten(rest)
  {
    assert ([first] + rest)[1..] == rest;
  }

  lemma FirstRound(msgs: seq<Message>) returns (first: seq<Message>, rest: seq<Message>)
    requires msgs != []
    ensures msgs == first + rest && first != [] && |rest| < |msgs|
    ensures RoundsOf(msgs) == [first] + RoundsOf(rest)
  {
    var n := RoundLen(msgs);
    first, rest := msgs[..n], msgs[n..];
  }

  // Splitting loses nothing and reorders nothing, whatever the transcript.
  lemma {:induction false} FlattenRoundsOf(msgs: seq<Message>)
    ensures Flatten(RoundsOf(msgs)) == msgs
    ensures forall r :: r in RoundsOf(msgs) ==> r != []
    decreases |msgs|
  {
    if msgs == [] {
    } else {
      var first, rest := FirstRound(msgs);
      FlattenRoundsOf(rest);
      FlattenCons(first, RoundsOf(rest));
    }
  }

  ghost predicate AllBlocks(rounds: seq<seq<Message>>) {
    forall i :: 0 <= i < |rounds| ==> IsBlock(rounds[i])
  }

  lemma RoundIsBlock(msgs: seq<Message>)
    requires msgs != [] && BlockStructured(msgs)
    ensures RoundLen(msgs) == BlockLen(msgs)
  {
    var n := BlockLen(msgs);
    var block := msgs[..n];
    if msgs[0].toolCalls != [] {
      forall i | 0 <= i < n - 1 ensures msgs[1..][i].role == RoleTool {
        assert block[i+1].role == RoleTool;
      }
      if n < |msgs| {
        assert msgs[n..][..BlockLen(msgs[n..])][0].role != RoleTool;
        assert msgs[1..][n-1] == msgs[n];
      }
    }
  }

  // In a block-structured transcript every round is a whole block ...
  lemma {:induction false} RoundsAreBlocks(msgs: seq<Message>)
    requires BlockStructured(msgs)
    ensures AllBlocks(RoundsOf(msgs))
    decreases |msgs|
  {
    if msgs == [] {
    } else {
      RoundIsBlock(msgs);
      RoundsAreBlocks(msgs[BlockLen(msgs)..]);
    }
  }

  // ... and conversely any list of blocks flattens to a block-structured transcript,
  lemma {:induction false} FlattenBlocks(rounds: seq<seq<Message>>)
    requires AllBlocks(rounds)
    ensures BlockStructured(Flatten(rounds))
    decreases |rounds|
  {
    if rounds == [] {
    } else {
      BlockIsStructured(rounds[0]);
      FlattenBlocks(rounds[1..]);
      BlockStructuredConcat(rounds[0], Flatten(rounds[1..]));
    }
  }

  lemma BlockComesFirst(block: seq<Message>, rest: seq<Message>)
    requires IsBlock(block) && BlockStructured(block + rest)
    ensures RoundsOf(block + rest) == [block] + RoundsOf(rest)
  {
    var msgs := block + rest;
    RoundIsBlock(msgs);
    assert msgs[0] == block[0];
    assert msgs[..|block|] == block && msgs[|block|..] == rest;
  }

  // which splits back into exactly these blocks: splitting and flattening are inverse to each other.
  lemma {:induction false} RoundsOfFlatten(rounds: seq<seq<Message>>)
    requires AllBlocks(rounds)
    ensures RoundsOf(Flatten(rounds)) == rounds
    decreases |rounds|
  {
    if rounds == [] {
    } else {
      FlattenBlocks(rounds);
      RoundsOfFlatten(rounds[1..]);
      BlockComesFirst(rounds[0], Flatten(rounds[1..]));
    }
  }

  // A block-structured transcript may be cut in front of any message that is not a tool result.
  lemma {:induction false} BlockSuffix(msgs: seq<Message>, i: nat)
    requires BlockStructured(msgs) && i < |msgs| && msgs[i].role != RoleTool
    ensures BlockStructured(msgs[i..])
    decreases |msgs|
  {
    var n := BlockLen(msgs);
    if i == 0 {
      assert msgs[i..] == msgs;
    } else {
      assert forall k :: 1 <= k < n ==> msgs[..n][k].role == RoleTool;
      assert n <= i;
      BlockSuffix(msgs[n..], i - n);
      assert msgs[n..][i-n..] == msgs[i..];
    }
  }

  lemma SameShapeRoundLen(a: seq<Message>, b: seq<Message>)
    requires SameShape(a, b) && a != []
    ensures RoundLen(a) == RoundLen(b)
    ensures SameShape(a[..RoundLen(a)], b[..RoundLen(a)]) && SameShape(a[RoundLen(a)..], b[RoundLen(a)..])
  {
    assert SameShapeMessage(a[0], b[0]);
    SameShapeToolRun(a[1..], b[1..]);
  }

  ghost predicate SameShapes(a: seq<seq<Message>>, b: seq<seq<Message>>) {
    |a| == |b| && forall i :: 0 <= i < |a| ==> SameShape(a[i], b[i])
  }

  lemma {:induction false} SameShapeRounds(a: seq<Message>, b: seq<Message>)
    requires SameShape(a, b)
    ensures SameShapes(RoundsOf(a), RoundsOf(b))
    decreases |a|
  {
    if a == [] {
    } else {
      SameShapeRoundLen(a, b);
      var n := RoundLen(a);
      SameShapeRounds(a[n..], b[n..]);
      SameShapesCons(a[..n], RoundsOf(a[n..]), b[..n], RoundsOf(b[n..]));
    }
  }

  lemma SameShapesCons(x: seq<Message>, xs: seq<seq<Message>>, y: seq<Message>, ys: seq<seq<Message>>)
    requires SameShape(x, y) && SameShapes(xs, ys)
    ensures SameShapes([x] + xs, [y] + ys)
  {
  }

  lemma {:induction false} SameShapeToolRun(a: seq<Message>, b: seq<Message>)
    requires SameShape(a, b)
    ensures ToolRun(a) == ToolRun(b)
    decreases |a|
  {
    if a == [] {
    } else {
      assert SameShapeMessage(a[0], b[0]);
      assert SameShape(a[1..], b[1..]);
      SameShapeToolRun(a[1..], b[1..]);
    }
  }

  // ---------------------------------------------------------------- barrier

  // A transcript as compaction sees it: only its first message may be a summary.
  ghost predicate Barriered(msgs: seq<Message>) {
    forall i :: 1 <= i < |msgs| ==> !msgs[i].IsSummary()
  }

  lemma BarrieredCount(msgs: seq<Message>)
    requires Barriered(msgs)
    ensures SummaryCount(msgs) == if msgs != [] && msgs[0].IsSummary() then 1 else 0
  {
    if msgs != [] {
      NoSummaries(msgs[1..]);
    }
  }

  // The transcript from its last summary on, or all of it.
  ghost function BarrierOf(msgs: seq<Message>): (barrier: seq<Message>)
    ensures Barriered(barrier)
    decreases |msgs|
  {
    if Barriered(msgs) then msgs else BarrierOf(msgs[1..])
  }

  lemma {:induction false} BarrierAt(msgs: seq<Message>, i: nat)
    requires i < |msgs| && msgs[i].IsSummary() && forall j :: i < j < |msgs| ==> !msgs[j].IsSummary()
    ensures BarrierOf(msgs) == msgs[i..]
    decreases i
  {
    if i == 0 {
      assert msgs[0..] == msgs;
    } else {
      BarrierAt(msgs[1..], i - 1);
      assert msgs[1..][i-1..] == msgs[i..];
    }
  }

  method ApplyCompactionBarrier(msgs: seq<Message>) returns (out: seq<Message>)
    ensures (forall m :: m in msgs ==> !m.IsSummary()) ==> out == msgs
    ensures (forall m :: m in msgs ==> !m.IsSummary()) || (out != [] && out[0].IsSummary())
    ensures |out| <= |msgs| && out == msgs[|msgs| - |out|..]
    ensures out == BarrierOf(msgs)
    ensures BlockStructured(msgs) && SummariesAreUser(msgs) ==> BlockStructured(out) && SummariesAreUser(out)
  {
    var i := |msgs|;
    while i > 0
      invariant 0 <= i <= |msgs|
      invariant forall j :: i <= j < |msgs| ==> !msgs[j].IsSummary()
    {
      i := i - 1;
      if msgs[i].IsSummary() {
        out := msgs[i..];
        BarrierAt(msgs, i);
        if BlockStructured(msgs) && SummariesAreUser(msgs) {
          assert msgs[i] in msgs;
          BlockSuffix(msgs, i);
          assert forall m :: m in out ==> m in msgs;
        }
        return;
      }
    }
    out := msgs;
  }

  // ---------------------------------------------------------------- lossy trims

  // The fallback keeps the first round and the last keepRecent, or everything when that is all.
  function HeadAndRecent(msgs: seq<Message>, keepRecent: nat): seq<Message> {
    var rounds := RoundsOf(msgs);
    if |rounds| <= 1 + keepRecent then msgs
    else rounds[0] + Flatten(rounds[|rounds| - keepRecent..])
  }

  method CompactHistory(msgs: seq<Message>, keepRecent: nat) returns (out: seq<Message>)
    ensures out == HeadAndRecent(msgs, keepRecent)
    ensures var rounds := RoundsOf(msgs);
            out == if |rounds| <= 1 + keepRecent then msgs
                   else rounds[0] + Flatten(rounds[|rounds| - keepRecent..])
  {
    hide RoundsOf, Flatten;
    var rounds := SplitRounds(msgs);
    if |rounds| <= 1 + keepRecent {
      return msgs;
    }
    var recent := FlattenRounds(rounds[|rounds| - keepRecent..]);
    out := rounds[0] + recent;
  }

  ghost predicate IsLastSummary(msgs: seq<Message>, m: Message) {
    exists i :: 0 <= i < |msgs| && msgs[i] == m && m.IsSummary()
      && forall j :: i < j < |msgs| ==> !msgs[j].IsSummary()
  }

  // The most recent summary, scanning backward.
  method LatestSummary(msgs: seq<Message>) returns (latest: Option<Message>)
    ensures latest.None? <==> forall i :: 0 <= i < |msgs| ==> !msgs[i].IsSummary()
    ensures latest.Some? ==> IsLastSummary(msgs, latest.value)
  {
    var i := |msgs|;
    while i > 0
      invariant 0 <= i <= |msgs|
      invariant forall j :: i <= j < |msgs| ==> !msgs[j].IsSummary()
    {
      i := i - 1;
      if msgs[i].IsSummary() {
        return Some(msgs[i]);
      }
    }
    latest := None;
  }

  ghost predicate HasSummary(msgs: seq<Message>) {
    exists i :: 0 <= i < |msgs| && msgs[i].IsSummary()
  }

  method ContainsSummary(msgs: seq<Message>) returns (found: bool)
    ensures found <==> HasSummary(msgs)
  {
    var i := 0;
    while i < |msgs|
      invariant 0 <= i <= |msgs|
      invariant forall j :: 0 <= j < i ==> !msgs[j].IsSummary()
    {
      if msgs[i].IsSummary() {
        return true;
      }
      i := i + 1;
    }
    found := false;
  }

  // The trim keeps the last keepRecent rounds and, when these hold no summary, puts the latest one
  // of the input back in front.
  ghost predicate IsTrim(msgs: seq<Message>, keepRecent: nat, out: seq<Message>) {
    var rounds := RoundsOf(msgs);
    if |rounds| <= keepRecent then out == msgs
    else
      var recent := Flatten(rounds[|rounds| - keepRecent..]);
      if HasSummary(msgs) && !HasSummary(recent)
      then out != [] && IsLastSummary(msgs, out[0]) && out[1..] == recent
      else out == recent
  }

  method TrimRecentRounds(msgs: seq<Message>, keepRecent: nat) returns (out: seq<Message>)
    ensures IsTrim(msgs, keepRecent, out)
  {
    var rounds := SplitRounds(msgs);
    if |rounds| <= keepRecent {
      return msgs;
    }
    var trimmed := FlattenRounds(rounds[|rounds| - keepRecent..]);
    var latest := LatestSummary(msgs);
    if latest.None? {
      return trimmed;
    }
    var present := ContainsSummary(trimmed);
    if present {
      return trimmed;
    }
    out := [latest.value] + trimmed;
  }
}
