/** What a context view may do to a transcript: keep its blocks, its summary and its last round. */
module Views {
  import opened Transcript
  import opened Rounds
  import opened Passes
  import opened Dedup
  import opened Strips

  function LastRound(msgs: seq<Message>): seq<Message>
    requires msgs != []
  {
    RoundsOf(msgs)[|RoundsOf(msgs)|-1]
  }

  // The view is block-structured and ends with a round of the shape of the transcript's last one.
  ghost predicate Follows(msgs: seq<Message>, view: seq<Message>) {
    && BlockStructured(view) && SummariesAreUser(view)
    && (msgs != [] ==> view != [] && SameShape(LastRound(msgs), LastRound(view)))
  }

  // It ends with the very last round of the transcript, text for text ...
  ghost predicate EndsAlike(msgs: seq<Message>, view: seq<Message>) {
    msgs != [] ==> view != [] && LastRound(view) == LastRound(msgs)
  }

  // ... or with that round as a request shows it, its reasoning cut and nothing else changed.
  ghost predicate EndsCut(msgs: seq<Message>, chars: int, view: seq<Message>) {
    msgs != [] ==> view != [] && LastRound(view) == CutRound(LastRound(msgs), chars)
  }

  ghost predicate CallsWith(round: seq<Message>, id: string) {
    exists i, j :: IsCall(round, i, j) && CallAt(round, i, j).id == id
  }

  ghost predicate FreshRounds(rounds: seq<seq<Message>>) {
    forall k, r :: 0 <= k < |rounds| - 1 && r in rounds[|rounds|-1] && r.role == RoleTool ==>
        !CallsWith(rounds[k], r.toolCallId)
  }

  // No earlier call has the id of a result in the last round.
  ghost predicate LastIdsFresh(msgs: seq<Message>) {
    FreshRounds(RoundsOf(msgs))
  }

  // P9b replaces the text of a result in the last round.
  ghost predicate LastRoundStale(codec: ArgCodec, keepArgs: int, msgs: seq<Message>) {
    msgs != [] && |LastRound(msgs)| <= |msgs| && StaleFrom(codec, msgs, keepArgs, |msgs| - |LastRound(msgs)|)
  }

  lemma SummariesStayUser(a: seq<Message>, b: seq<Message>)
    requires SameShape(a, b) && SummariesAreUser(a)
    ensures SummariesAreUser(b)
  {
    forall m | m in b && m.IsSummary() ensures m.role == RoleUser {
      var i :| 0 <= i < |b| && b[i] == m;
      assert SameShapeMessage(a[i], b[i]) && a[i] in a;
    }
  }

  lemma ShapeFollows(msgs: seq<Message>, view: seq<Message>)
    requires BlockStructured(msgs) && SummariesAreUser(msgs) && SameShape(msgs, view)
    ensures Follows(msgs, view) && SummaryCount(view) == SummaryCount(msgs)
  {
    SameShapeKeepsBlocks(msgs, view);
    SameShapeRounds(msgs, view);
    SameShapeSummaryCount(msgs, view);
    SummariesStayUser(msgs, view);
  }

  lemma FollowsTransitive(msgs: seq<Message>, view: seq<Message>, out: seq<Message>)
    requires Follows(msgs, view) && Follows(view, out)
    ensures Follows(msgs, out)
  {
    if msgs != [] {
      SameShapeTransitive(LastRound(msgs), LastRound(view), LastRound(out));
    }
  }

  lemma FollowsShape(msgs: seq<Message>, view: seq<Message>, again: seq<Message>)
    requires Follows(msgs, view) && SameShape(view, again)
    ensures Follows(msgs, again) && SummaryCount(again) == SummaryCount(view)
  {
    ShapeFollows(view, again);
    FollowsTransitive(msgs, view, again);
  }

  lemma RoundsOfConcat(pre: seq<Message>, recent: seq<seq<Message>>)
    requires BlockStructured(pre) && AllBlocks(recent)
    ensures BlockStructured(pre + Flatten(recent))
    ensures RoundsOf(pre + Flatten(recent)) == RoundsOf(pre) + recent
  {
    RoundsAreBlocks(pre);
    FlattenRoundsOf(pre);
    FlattenConcat(RoundsOf(pre), recent);
    RoundsOfFlatten(RoundsOf(pre) + recent);
    FlattenBlocks(RoundsOf(pre) + recent);
  }

  lemma SameShapesBlocks(a: seq<seq<Message>>, b: seq<seq<Message>>)
    requires SameShapes(a, b) && AllBlocks(a)
    ensures AllBlocks(b)
  {
    forall i | 0 <= i < |b| ensures IsBlock(b[i]) {
      SameShapeBlock(a[i], b[i]);
    }
  }

  lemma SummariesAreUserConcat(a: seq<Message>, b: seq<Message>)
    requires SummariesAreUser(a) && SummariesAreUser(b)
    ensures SummariesAreUser(a + b)
  {
  }

  // A block-structured prefix in front of the most recent rounds.
  lemma RecentFollows(msgs: seq<Message>, pre: seq<Message>, k: nat, recent: seq<seq<Message>>)
    requires BlockStructured(msgs) && BlockStructured(pre)
    requires k < |RoundsOf(msgs)| && SameShapes(RoundsOf(msgs)[k..], recent)
    requires SummariesAreUser(pre) && SummariesAreUser(Flatten(recent))
    ensures Follows(msgs, pre + Flatten(recent))
  {
    RoundsAreBlocks(msgs);
    SameShapesBlocks(RoundsOf(msgs)[k..], recent);
    RoundsOfConcat(pre, recent);
    SummariesAreUserConcat(pre, Flatten(recent));
    LastOfRecent(msgs, pre + Flatten(recent), k, recent, RoundsOf(pre));
  }

  lemma LastOfRecent(msgs: seq<Message>, view: seq<Message>, k: nat, recent: seq<seq<Message>>,
        front: seq<seq<Message>>)
    requires msgs != [] && view != [] && k < |RoundsOf(msgs)| && SameShapes(RoundsOf(msgs)[k..], recent)
    requires RoundsOf(view) == front + recent
    ensures SameShape(LastRound(msgs), LastRound(view))
  {
    hide RoundsOf;
    var rounds := RoundsOf(msgs)[k..];
    assert SameShape(rounds[|rounds|-1], recent[|rounds|-1]);
    LastOfSuffix(RoundsOf(msgs), k);
    LastOfConcat(front, recent);
  }

  lemma LastOfSuffix<T>(s: seq<T>, k: nat)
    requires k < |s|
    ensures s[k..][|s[k..]|-1] == s[|s|-1]
  {
  }

  lemma LastOfConcat<T>(a: seq<T>, b: seq<T>)
    requires b != []
    ensures (a + b)[|a + b|-1] == b[|b|-1]
  {
  }

  lemma {:induction false} FlattenShapes(a: seq<seq<Message>>, b: seq<seq<Message>>)
    requires SameShapes(a, b)
    ensures SameShape(Flatten(a), Flatten(b))
    decreases |a|
  {
    if a == [] {
    } else {
      assert SameShape(a[0], b[0]);
      assert SameShapes(a[1..], b[1..]);
      FlattenShapes(a[1..], b[1..]);
      var x, y := Flatten(a[1..]), Flatten(b[1..]);
      forall i | 0 <= i < |a[0] + x| ensures SameShapeMessage((a[0] + x)[i], (b[0] + y)[i]) {
        if i >= |a[0]| { assert SameShapeMessage(x[i-|a[0]|], y[i-|a[0]|]); }
      }
    }
  }

  // ---------------------------------------------------------------- suffixes

  lemma SuffixOf(msgs: seq<Message>, k: nat) returns (cut: nat)
    requires k <= |RoundsOf(msgs)|
    ensures cut <= |msgs| && Flatten(RoundsOf(msgs)[k..]) == msgs[cut..] && Flatten(RoundsOf(msgs)[..k]) == msgs[..cut]
    ensures k >= 1 && msgs != [] ==> cut >= 1
  {
    FlattenRoundsOf(msgs);
    FlattenCut(RoundsOf(msgs), k);
    cut := |Flatten(RoundsOf(msgs)[..k])|;
    if k >= 1 && msgs != [] {
      assert RoundsOf(msgs)[0] in RoundsOf(msgs);
      assert RoundsOf(msgs)[..k][0] == RoundsOf(msgs)[0];
    }
  }

  lemma {:induction false} CountAt(msgs: seq<Message>, i: nat)
    requires i < |msgs| && msgs[i].IsSummary()
    ensures SummaryCount(msgs) >= 1
  {
    SummaryCountConcat(msgs[..i], msgs[i..]);
    assert msgs == msgs[..i] + msgs[i..];
  }

  lemma NoSummaryIffCountZero(msgs: seq<Message>)
    ensures SummaryCount(msgs) == 0 <==> !HasSummary(msgs)
  {
    if HasSummary(msgs) {
      var i :| 0 <= i < |msgs| && msgs[i].IsSummary();
      CountAt(msgs, i);
    } else {
      NoSummaries(msgs);
    }
  }

  // ---------------------------------------------------------------- the final trim

  // Trimming to the last keepRecent >= 1 rounds keeps everything a view owes: blocks, last round,
  // and the one summary it may carry.
  lemma TrimFollows(msgs: seq<Message>, view: seq<Message>, keepRecent: nat, out: seq<Message>)
    requires Follows(msgs, view) && SummaryCount(view) <= 1 && keepRecent >= 1
    requires IsTrim(view, keepRecent, out)
    ensures Follows(msgs, out) && SummaryCount(out) == SummaryCount(view) && EndsAlike(view, out)
    ensures forall m :: m in view && m.IsSummary() ==> m in out
  {
    hide RoundsOf, BlockStructured, SameShape, SummaryCount;
    if |RoundsOf(view)| > keepRecent {
      CutFollows(view, |RoundsOf(view)| - keepRecent, out);
      CutEnds(view, |RoundsOf(view)| - keepRecent, out);
      FollowsTransitive(msgs, view, out);
    }
  }

  lemma CutFollows(view: seq<Message>, k: nat, out: seq<Message>)
    requires BlockStructured(view) && SummariesAreUser(view) && SummaryCount(view) <= 1
    requires 0 < k < |RoundsOf(view)| && IsTrim(view, |RoundsOf(view)| - k, out)
    ensures Follows(view, out) && SummaryCount(out) == SummaryCount(view)
    ensures forall m :: m in view && m.IsSummary() ==> m in out
  {
    if HasSummary(view) && !HasSummary(Flatten(RoundsOf(view)[k..])) {
      RescueFollows(view, k, out);
      OneSummary(view, out[0]);
      NoSummaryIffCountZero(view);
    } else {
      PlainTrimFollows(view, k, out);
    }
  }

  // A block-structured prefix and whole rounds: the rounds follow one another unchanged.
  lemma EndsWithRecent(msgs: seq<Message>, pre: seq<Message>, k: nat)
    requires BlockStructured(msgs) && BlockStructured(pre) && k < |RoundsOf(msgs)|
    ensures var view := pre + Flatten(RoundsOf(msgs)[k..]);
            RoundsOf(view) == RoundsOf(pre) + RoundsOf(msgs)[k..] && EndsAlike(msgs, view)
  {
    hide RoundsOf, Flatten, BlockStructured, IsBlock;
    RoundsAreBlocks(msgs);
    RoundsOfConcat(pre, RoundsOf(msgs)[k..]);
    LastOfSuffix(RoundsOf(msgs), k);
    LastOfConcat(RoundsOf(pre), RoundsOf(msgs)[k..]);
  }

  lemma CutEnds(view: seq<Message>, k: nat, out: seq<Message>)
    requires BlockStructured(view) && SummariesAreUser(view)
    requires 0 < k < |RoundsOf(view)| && IsTrim(view, |RoundsOf(view)| - k, out)
    ensures EndsAlike(view, out)
  {
    var recent := Flatten(RoundsOf(view)[k..]);
    if HasSummary(view) && !HasSummary(recent) {
      assert out[0] in view && out[0].role == RoleUser;
      SingleUser(view, out[0]);
      EndsWithRecent(view, [out[0]], k);
      assert out == [out[0]] + recent;
    } else {
      EndsWithRecent(view, [], k);
      assert [] + recent == recent;
    }
  }

  lemma PlainTrimFollows(view: seq<Message>, k: nat, out: seq<Message>)
    requires BlockStructured(view) && SummariesAreUser(view) && SummaryCount(view) <= 1 && k < |RoundsOf(view)|
    requires out == Flatten(RoundsOf(view)[k..]) && (HasSummary(view) ==> HasSummary(out))
    ensures Follows(view, out) && SummaryCount(out) == SummaryCount(view)
    ensures forall m :: m in view && m.IsSummary() ==> m in out
  {
    var cut := SuffixOf(view, k);
    SuffixFollows(view, k, cut);
    SuffixKeepsSummary(view, cut);
  }

  lemma SuffixFollows(view: seq<Message>, k: nat, cut: nat)
    requires BlockStructured(view) && SummariesAreUser(view) && k < |RoundsOf(view)|
    requires cut <= |view| && Flatten(RoundsOf(view)[k..]) == view[cut..]
    ensures Follows(view, view[cut..])
  {
    assert forall m :: m in view[cut..] ==> m in view;
    SameShapesReflexive(RoundsOf(view)[k..]);
    RecentFollows(view, [], k, RoundsOf(view)[k..]);
    assert [] + view[cut..] == view[cut..];
  }

  lemma SuffixKeepsSummary(view: seq<Message>, cut: nat)
    requires cut <= |view| && SummaryCount(view) <= 1 && (HasSummary(view) ==> HasSummary(view[cut..]))
    ensures SummaryCount(view[cut..]) == SummaryCount(view)
    ensures forall m :: m in view && m.IsSummary() ==> m in view[cut..]
  {
    assert view == view[..cut] + view[cut..];
    SummaryCountConcat(view[..cut], view[cut..]);
    NoSummaryIffCountZero(view);
    NoSummaryIffCountZero(view[cut..]);
    NoSummaryIffCountZero(view[..cut]);
    forall m | m in view && m.IsSummary() ensures m in view[cut..] {
      assert m in view[..cut] + view[cut..];
      assert forall x :: x in view[..cut] ==> !x.IsSummary();
    }
  }

  lemma SameShapesReflexive(rounds: seq<seq<Message>>)
    ensures SameShapes(rounds, rounds)
  {
  }

  lemma RescueFollows(view: seq<Message>, k: nat, out: seq<Message>)
    requires BlockStructured(view) && SummariesAreUser(view) && k < |RoundsOf(view)|
    requires out != [] && IsLastSummary(view, out[0]) && out[1..] == Flatten(RoundsOf(view)[k..])
    requires !HasSummary(out[1..])
    ensures Follows(view, out) && SummaryCount(out) == 1
  {
    var s, recent := out[0], RoundsOf(view)[k..];
    var cut := SuffixOf(view, k);
    assert s in view && s.role == RoleUser;
    SingleUser(view, s);
    assert forall m :: m in Flatten(recent) ==> m in view;
    SameShapesReflexive(recent);
    RecentFollows(view, [s], k, recent);
    assert out == [s] + Flatten(recent);
    NoSummaryIffCountZero(out[1..]);
  }

  // In a block-structured transcript a user message is a block of its own.
  lemma SingleUser(msgs: seq<Message>, m: Message)
    requires BlockStructured(msgs) && m in msgs && m.role == RoleUser
    ensures m.toolCalls == [] && BlockStructured([m])
  {
    var i :| 0 <= i < |msgs| && msgs[i] == m;
    BlockSuffix(msgs, i);
    var n := BlockLen(msgs[i..]);
    assert msgs[i..][..n][0] == m;
    BlockIsStructured([m]);
  }

  lemma OneSummary(view: seq<Message>, s: Message)
    requires SummaryCount(view) <= 1 && IsLastSummary(view, s)
    ensures forall m :: m in view && m.IsSummary() ==> m == s
  {
    var i :| 0 <= i < |view| && view[i] == s && s.IsSummary() && forall j :: i < j < |view| ==> !view[j].IsSummary();
    forall m | m in view && m.IsSummary() ensures m == s {
      var j :| 0 <= j < |view| && view[j] == m;
      if j < i {
        SummaryCountConcat(view[..i], view[i..]);
        assert view == view[..i] + view[i..];
        CountAt(view[i..], 0);
        CountAt(view[..i], j);
      }
    }
  }

  // ---------------------------------------------------------------- the last round, word for word

  lemma LastRoundSuffix(msgs: seq<Message>)
    requires msgs != []
    ensures |LastRound(msgs)| <= |msgs| && LastRound(msgs) != []
    ensures var n := |msgs| - |LastRound(msgs)|;
            msgs[n..] == LastRound(msgs) && msgs[..n] == Flatten(RoundsOf(msgs)[..|RoundsOf(msgs)|-1])
  {
    var rounds := RoundsOf(msgs);
    var last := |rounds| - 1;
    FlattenRoundsOf(msgs);
    FlattenCut(rounds, last);
    assert rounds[last..] == [rounds[last]] && rounds[last] in rounds;
    FlattenOne(rounds[last]);
    SplitLengths(msgs, Flatten(rounds[..last]), rounds[last]);
  }

  lemma SplitLengths<T>(s: seq<T>, a: seq<T>, b: seq<T>)
    requires s == a + b
    ensures |s| - |b| == |a| && s[|a|..] == b && s[..|a|] == a
  {
  }

  lemma {:induction false} InFlatten(rounds: seq<seq<Message>>, i: nat) returns (k: nat, x: nat)
    requires i < |Flatten(rounds)|
    ensures k < |rounds| && x < |rounds[k]| && rounds[k][x] == Flatten(rounds)[i]
    decreases |rounds|
  {
    if i < |rounds[0]| {
      k, x := 0, i;
    } else {
      k, x := InFlatten(rounds[1..], i - |rounds[0]|);
      k := k + 1;
    }
  }

  lemma {:induction false} FlattenHolds(rounds: seq<seq<Message>>, k: nat, x: nat) returns (i: nat)
    requires k < |rounds| && x < |rounds[k]|
    ensures i < |Flatten(rounds)| && rounds[k][x] == Flatten(rounds)[i]
    decreases k
  {
    if k == 0 {
      i := x;
    } else {
      i := FlattenHolds(rounds[1..], k - 1, x);
      i := i + |rounds[0]|;
    }
  }

  lemma FreshEnd(msgs: seq<Message>, n: nat)
    requires BlockStructured(msgs) && msgs != [] && LastIdsFresh(msgs) && n == |msgs| - |LastRound(msgs)|
    ensures OpensEnd(msgs, n) && FreshFrom(msgs, n)
  {
    var rounds := RoundsOf(msgs);
    LastRoundSuffix(msgs);
    LastOpensEnd(msgs, n);
    forall i, j, t | i < n && IsCall(msgs, i, j) && n <= t < |msgs| && msgs[t].role == RoleTool
      ensures CallAt(msgs, i, j).id != msgs[t].toolCallId
    {
      assert msgs[t] == msgs[n..][t-n];
      assert msgs[i] == msgs[..n][i];
      var k, x := InFlatten(rounds[..|rounds|-1], i);
      assert IsCall(rounds[k], x, j) && CallAt(rounds[k], x, j) == CallAt(msgs, i, j);
      assert !CallsWith(rounds[k], msgs[t].toolCallId);
    }
  }

  lemma LastOpensEnd(msgs: seq<Message>, n: nat)
    requires BlockStructured(msgs) && msgs != [] && n == |msgs| - |LastRound(msgs)|
    ensures OpensEnd(msgs, n)
  {
    LastRoundSuffix(msgs);
    LastIsBlock(msgs);
    var last := LastRound(msgs);
    forall k | n < k < |msgs| ensures msgs[k].role != RoleAssistant {
      assert msgs[k] == last[k-n];
    }
  }

  // Unique ids are more than is needed.
  lemma UniqueIsFresh(msgs: seq<Message>)
    requires BlockStructured(msgs) && UniqueIds(msgs)
    ensures LastIdsFresh(msgs)
  {
    hide RoundsOf, BlockStructured;
    var rounds := RoundsOf(msgs);
    forall k: int, r: Message | 0 <= k < |rounds| - 1 && r in rounds[|rounds|-1] && r.role == RoleTool
      ensures !CallsWith(rounds[k], r.toolCallId)
    {
      if CallsWith(rounds[k], r.toolCallId) {
        var x, j :| IsCall(rounds[k], x, j) && CallAt(rounds[k], x, j).id == r.toolCallId;
        var i := CallBeforeLast(msgs, k, x, j);
        var n, t := CallInLast(msgs, r);
        assert false;
      }
    }
  }

  lemma CallBeforeLast(msgs: seq<Message>, k: nat, x: nat, j: nat) returns (i: nat)
    requires k < |RoundsOf(msgs)| - 1 && IsCall(RoundsOf(msgs)[k], x, j)
    ensures i < |msgs| - |LastRound(msgs)| && IsCall(msgs, i, j)
    ensures CallAt(msgs, i, j) == CallAt(RoundsOf(msgs)[k], x, j)
  {
    var rounds := RoundsOf(msgs);
    LastRoundSuffix(msgs);
    i := FlattenHolds(rounds[..|rounds|-1], k, x);
    assert msgs[i] == msgs[..|msgs| - |LastRound(msgs)|][i];
  }

  lemma CallInLast(msgs: seq<Message>, r: Message) returns (n: nat, t: nat)
    requires BlockStructured(msgs) && msgs != [] && r in LastRound(msgs) && r.role == RoleTool
    ensures n == |msgs| - |LastRound(msgs)| && IsCall(msgs, n, t) && CallAt(msgs, n, t).id == r.toolCallId
  {
    LastRoundSuffix(msgs);
    LastIsBlock(msgs);
    n := |msgs| - |LastRound(msgs)|;
    t := BlockCall(LastRound(msgs), r);
    assert msgs[n] == msgs[n..][0];
  }

  lemma LastIsBlock(msgs: seq<Message>)
    requires BlockStructured(msgs) && msgs != []
    ensures IsBlock(LastRound(msgs))
  {
    RoundsAreBlocks(msgs);
  }

  lemma BlockCall(block: seq<Message>, r: Message) returns (t: nat)
    requires IsBlock(block) && r in block && r.role == RoleTool
    ensures IsCall(block, 0, t) && CallAt(block, 0, t).id == r.toolCallId
  {
    var k :| 0 <= k < |block| && block[k] == r;
    t := k - 1;
  }

  lemma FreshSuffix(rounds: seq<seq<Message>>, k: nat)
    requires FreshRounds(rounds) && k < |rounds|
    ensures FreshRounds(rounds[k..])
  {
    assert rounds[k..][|rounds|-k-1] == rounds[|rounds|-1];
    assert forall i :: 0 <= i < |rounds| - k ==> rounds[k..][i] == rounds[k+i];
  }

  lemma FreshWithHead(rounds: seq<seq<Message>>, k: nat)
    requires FreshRounds(rounds) && 1 <= k < |rounds|
    ensures FreshRounds([rounds[0]] + rounds[k..])
  {
    var r := [rounds[0]] + rounds[k..];
    FreshSuffix(rounds, k);
    assert r[|r|-1] == rounds[|rounds|-1];
    assert forall i :: 1 <= i < |r| ==> r[i] == rounds[k+i-1];
  }

  lemma EndsFromSuffix(msgs: seq<Message>, view: seq<Message>, chars: int)
    requires SameShape(msgs, view) && msgs != []
    ensures var n := |msgs| - |LastRound(msgs)|;
            && 0 <= n && |view| == |msgs|
            && (EndsCut(msgs, chars, view) <==> view[n..] == CutRound(msgs[n..], chars))
  {
    SameShapeRounds(msgs, view);
    LastRoundSuffix(msgs);
    LastRoundSuffix(view);
  }

  // A view made by the seven passes ends with the last round of what they were given, its reasoning cut
  // and nothing else changed, exactly if P9b finds no stale result there.
  lemma ViewEndsCut(codec: ArgCodec, keepReasoning: int, chars: int, keepArgs: int, msgs: seq<Message>,
        view: seq<Message>)
    requires Stripped(codec, keepReasoning, chars, keepArgs, msgs, view) && keepReasoning >= 1 && keepArgs >= 1
    requires BlockStructured(msgs)
    ensures EndsCut(msgs, chars, view) <==> !LastRoundStale(codec, keepArgs, msgs)
  {
    hide RoundsOf, BlockStructured;
    if msgs != [] {
      LastRoundSuffix(msgs);
      var s :| IsPipeline(codec, keepReasoning, chars, keepArgs, s) && s[0] == msgs && s[7] == view;
      PipelineEndsCut(codec, keepReasoning, chars, keepArgs, s);
    }
  }

  lemma PipelineEndsCut(codec: ArgCodec, keepReasoning: int, chars: int, keepArgs: int, s: seq<seq<Message>>)
    requires |s| == 8 && IsPipeline(codec, keepReasoning, chars, keepArgs, s) && keepReasoning >= 1 && keepArgs >= 1
    requires s[0] != [] && BlockStructured(s[0]) && |LastRound(s[0])| <= |s[0]|
    ensures EndsCut(s[0], chars, s[7]) <==> !LastRoundStale(codec, keepArgs, s[0])
  {
    hide IsPipeline, BlockStructured, RoundsOf, OpensEnd, SameShape, CutRound, StaleFrom, EndsCut;
    var n := |s[0]| - |LastRound(s[0])|;
    LastOpensEnd(s[0], n);
    PipelineKeepsEnd(codec, keepReasoning, chars, keepArgs, s, n);
    PipelineKeepsShape(codec, keepReasoning, chars, keepArgs, s);
    EndsFromSuffix(s[0], s[7], chars);
  }

  // Ids that no earlier call has are enough.
  lemma FreshViewEndsCut(codec: ArgCodec, keepArgs: int, msgs: seq<Message>)
    requires BlockStructured(msgs) && LastIdsFresh(msgs) && keepArgs >= 1
    ensures !LastRoundStale(codec, keepArgs, msgs)
  {
    hide BlockStructured, RoundsOf, FreshRounds, OpensEnd, FreshFrom, StaleFrom;
    if msgs != [] {
      var n := |msgs| - |LastRound(msgs)|;
      LastRoundSuffix(msgs);
      FreshEnd(msgs, n);
      FreshIsNotStale(codec, msgs, keepArgs, n);
    }
  }
}
