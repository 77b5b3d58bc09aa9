/** The entry point of compaction: strip, or summarise with a lossy fallback, then trim
    (FitHistory, miniagent/compaction/budget.go), and its use as a BeforeLLM hook
    (NewCompaction, miniagent/compaction/compacting.go). */
module FitHistory {
  import opened Seqs
  import opened Transcript
  import opened Rounds
  import opened Passes
  import opened Strips
  import opened Tail
  import opened UsageAnchor
  import opened Compaction
  import opened Views

  const CONTEXT_KEEP_RECENT := 4
  const CONTEXT_KEEP_REASONING := 1
  const CONTEXT_KEEP_REASONING_CHARS := 4000
  const CONTEXT_KEEP_TOOL_ARGS := 2

  // What compaction is given: block-structured, summaries are user messages, and only the first
  // message may be one.
  ghost predicate Compactable(msgs: seq<Message>) {
    BlockStructured(msgs) && SummariesAreUser(msgs) && Barriered(msgs)
  }

  // ---------------------------------------------------------------- the lossy fallback

  lemma HeadOfRounds(msgs: seq<Message>)
    requires Compactable(msgs) && msgs != []
    ensures BlockStructured(RoundsOf(msgs)[0]) && SummariesAreUser(RoundsOf(msgs)[0]) && RoundsOf(msgs)[0] != []
    ensures RoundsOf(msgs)[0][0] == msgs[0]
    ensures HeadIsSummary(RoundsOf(msgs)[0]) <==> msgs[0].IsSummary()
    ensures SummaryCount(RoundsOf(msgs)[0]) == if msgs[0].IsSummary() then 1 else 0
  {
    var head := RoundsOf(msgs)[0];
    RoundsAreBlocks(msgs);
    BlockIsStructured(head);
    assert head == msgs[..RoundLen(msgs)];
    assert forall m :: m in head ==> m in msgs;
    assert Barriered(head);
    BarrieredCount(head);
    if msgs[0].IsSummary() {
      SingleUser(msgs, msgs[0]);
    }
  }

  // The rounds after the first carry no summary.
  lemma LaterRounds(msgs: seq<Message>, k: nat)
    requires Compactable(msgs) && 1 <= k <= |RoundsOf(msgs)|
    ensures SummaryCount(Flatten(RoundsOf(msgs)[k..])) == 0
    ensures SummariesAreUser(Flatten(RoundsOf(msgs)[k..]))
  {
    var cut := SuffixOf(msgs, k);
    assert forall i :: 0 <= i < |msgs[cut..]| ==> !msgs[cut..][i].IsSummary();
    NoSummaries(msgs[cut..]);
  }

  lemma HeadAndRecentFollow(msgs: seq<Message>, k: nat)
    requires Compactable(msgs) && 1 <= k < |RoundsOf(msgs)|
    ensures var out := RoundsOf(msgs)[0] + Flatten(RoundsOf(msgs)[k..]);
            && Follows(msgs, out) && SummaryCount(out) == SummaryCount(msgs)
            && out[0] == msgs[0]
  {
    var head, recent := RoundsOf(msgs)[0], RoundsOf(msgs)[k..];
    HeadOfRounds(msgs);
    LaterRounds(msgs, k);
    SameShapesReflexive(recent);
    RecentFollows(msgs, head, k, recent);
    SummaryCountConcat(head, Flatten(recent));
    BarrieredCount(msgs);
  }

  lemma HeadAndRecentEnd(msgs: seq<Message>, k: nat)
    requires Compactable(msgs) && 1 <= k < |RoundsOf(msgs)|
    ensures var out := RoundsOf(msgs)[0] + Flatten(RoundsOf(msgs)[k..]);
            && EndsAlike(msgs, out) && (LastIdsFresh(msgs) ==> LastIdsFresh(out))
  {
    var head := RoundsOf(msgs)[0];
    RoundsAreBlocks(msgs);
    BlockIsStructured(head);
    EndsWithRecent(msgs, head, k);
    assert [head] == RoundsOf(head) by {
      FlattenOne(head);
      RoundsOfFlatten([head]);
    }
    if LastIdsFresh(msgs) {
      FreshWithHead(RoundsOf(msgs), k);
    }
  }

  // The lossy cut keeps the last round word for word.
  lemma LossyEnds(msgs: seq<Message>, keepRecent: nat, out: seq<Message>)
    requires Compactable(msgs) && keepRecent >= 1
    requires out == HeadAndRecent(msgs, keepRecent)
    ensures EndsAlike(msgs, out) && (LastIdsFresh(msgs) ==> LastIdsFresh(out))
  {
    hide RoundsOf, Flatten, Compactable, FreshRounds;
    var n := |RoundsOf(msgs)|;
    if n > 1 + keepRecent {
      HeadAndRecentEnd(msgs, n - keepRecent);
    }
  }

  lemma LossyFollows(msgs: seq<Message>, keepRecent: nat, out: seq<Message>)
    requires Compactable(msgs) && keepRecent >= 1
    requires out == HeadAndRecent(msgs, keepRecent)
    ensures Follows(msgs, out) && SummaryCount(out) == SummaryCount(msgs)
    ensures msgs != [] ==> out != [] && out[0] == msgs[0]
  {
    hide RoundsOf, Flatten, Follows, SummaryCount;
    var n := |RoundsOf(msgs)|;
    if n <= 1 + keepRecent {
      SelfFollows(msgs);
    } else {
      HeadAndRecentFollow(msgs, n - keepRecent);
    }
  }

  lemma SelfFollows(msgs: seq<Message>)
    requires BlockStructured(msgs) && SummariesAreUser(msgs)
    ensures Follows(msgs, msgs)
  {
    SameShapeReflexive(msgs);
    ShapeFollows(msgs, msgs);
  }

  lemma SameShapeReflexive(msgs: seq<Message>)
    ensures SameShape(msgs, msgs)
  {
  }

  // ---------------------------------------------------------------- the summarised branch

  lemma TailShapes(rounds: seq<seq<Message>>, cut: Cut)
    requires cut.start <= |rounds| && |cut.fitted| <= 1 && |cut.fitted| <= cut.start
    requires forall i :: 0 <= i < |cut.fitted| ==> SameShape(rounds[cut.start - 1], cut.fitted[i])
    ensures SameShapes(rounds[cut.start - |cut.fitted|..], Kept(rounds, cut))
  {
    var a, b := rounds[cut.start - |cut.fitted|..], Kept(rounds, cut);
    forall i | 0 <= i < |a| ensures SameShape(a[i], b[i]) {
      assert i >= |cut.fitted| ==> a[i] == b[i];
      forall m: Message ensures SameShapeMessage(m, m) { }
    }
  }

  lemma CompactedFollows(platform: Platform, b: ContextBudget, msgs: seq<Message>, keepRecent: nat, p: Picked,
        r: CompactionResult)
    requires Compactable(msgs) && keepRecent >= 1
    requires IsCompacted(platform, b, msgs, keepRecent, p, r)
    ensures Follows(msgs, r.out) && SummaryCount(r.out) == 1 && r.summary.value in r.out
  {
    var rounds := RoundsOf(msgs);
    var head, summary := KeptHead(rounds[0]), SummaryMessage(p.text, platform.now);
    var k := 1 + p.cut.start - |p.cut.fitted|;
    var kept := Kept(rounds[1..], p.cut);
    HeadOfRounds(msgs);
    TailShapes(rounds[1..], p.cut);
    assert rounds[1..][p.cut.start - |p.cut.fitted|..] == rounds[k..];
    LaterRounds(msgs, k);
    FlattenShapes(rounds[k..], kept);
    SummariesStayUser(Flatten(rounds[k..]), p.tail);
    SameShapeSummaryCount(Flatten(rounds[k..]), p.tail);
    PrefixWithSummary(head, summary);
    RecentFollows(msgs, head + [summary], k, kept);
    SummaryCountConcat(head + [summary], p.tail);
    assert r.out == (head + [summary]) + p.tail;
    assert (head + [summary])[|head|] == summary;
  }

  // The tail's last round is the transcript's, and it stands behind the summary.
  lemma CompactedEnds(platform: Platform, b: ContextBudget, msgs: seq<Message>, keepRecent: nat, p: Picked,
        r: CompactionResult)
    requires Compactable(msgs) && keepRecent >= 1
    requires IsCompacted(platform, b, msgs, keepRecent, p, r)
    ensures EndsAlike(msgs, r.out) && FirstSummary(r.out) < |r.out| - |LastRound(msgs)|
  {
    hide RoundsOf, Flatten, BlockStructured, IsBlock;
    var rounds := RoundsOf(msgs);
    var front, kept := KeptHead(rounds[0]) + [SummaryMessage(p.text, platform.now)], Kept(rounds[1..], p.cut);
    HeadOfRounds(msgs);
    PrefixWithSummary(KeptHead(rounds[0]), SummaryMessage(p.text, platform.now));
    KeptAreBlocks(msgs, p.cut);
    RoundsOfConcat(front, kept);
    assert r.out == front + Flatten(kept);
    LastOfSuffix(rounds[1..], p.cut.start);
    LastOfConcat(p.cut.fitted, rounds[1..][p.cut.start..]);
    LastOfConcat(RoundsOf(front), kept);
    assert kept[|kept|-1] == LastRound(msgs);
    LastFits(kept);
    assert r.out[|front|-1].IsSummary();
  }

  lemma KeptAreBlocks(msgs: seq<Message>, cut: Cut)
    requires BlockStructured(msgs) && RoundsOf(msgs) != []
    requires var rounds := RoundsOf(msgs)[1..];
             && cut.start <= |rounds| && |cut.fitted| <= 1 && |cut.fitted| <= cut.start
             && forall i :: 0 <= i < |cut.fitted| ==> SameShape(rounds[cut.start - 1], cut.fitted[i])
    ensures AllBlocks(Kept(RoundsOf(msgs)[1..], cut))
  {
    hide RoundsOf, IsBlock, SameShape, BlockStructured;
    var rounds := RoundsOf(msgs)[1..];
    RoundsAreBlocks(msgs);
    TailShapes(rounds, cut);
    assert AllBlocks(rounds[cut.start - |cut.fitted|..]);
    SameShapesBlocks(rounds[cut.start - |cut.fitted|..], Kept(rounds, cut));
  }

  lemma LastFits(rounds: seq<seq<Message>>)
    requires rounds != []
    ensures |rounds[|rounds|-1]| <= |Flatten(rounds)|
  {
    FlattenCut(rounds, |rounds| - 1);
    assert rounds[|rounds|-1..] == [rounds[|rounds|-1]];
    FlattenOne(rounds[|rounds|-1]);
  }

  lemma PrefixWithSummary(head: seq<Message>, summary: Message)
    requires BlockStructured(head) && SummariesAreUser(head) && SummaryCount(head) == 0
    requires summary.IsSummary() && summary.role == RoleUser && summary.toolCalls == []
    ensures BlockStructured(head + [summary]) && SummariesAreUser(head + [summary])
    ensures SummaryCount(head + [summary]) == 1
  {
    BlockIsStructured([summary]);
    BlockStructuredConcat(head, [summary]);
    SummaryCountConcat(head, [summary]);
    assert [summary][1..] == [];
    assert SummaryCount([summary]) == 1;
  }

  function FirstSummary(msgs: seq<Message>): (i: nat)
    ensures i <= |msgs| && (i < |msgs| ==> msgs[i].IsSummary())
    ensures forall j :: 0 <= j < i ==> !msgs[j].IsSummary()
  {
    if msgs == [] || msgs[0].IsSummary() then 0 else 1 + FirstSummary(msgs[1..])
  }

  // The two reasoning passes on what follows the first summary; everything before stays.
  ghost predicate TailStripped(msgs: seq<Message>, keepReasoning: int, chars: int, out: seq<Message>) {
    var start := FirstSummary(msgs) + 1;
    if start >= |msgs| then out == msgs
    else
      && |out| == |msgs| && out[..start] == msgs[..start]
      && exists mid :: IsStripReasoning(msgs[start..], keepReasoning, mid)
          && IsTruncateReasoning(mid, keepReasoning, chars, out[start..])
  }

  // After a summarised compaction the reasoning strips run on the tail alone.
  method StripTailReasoning(msgs: seq<Message>, keepReasoning: int, chars: int) returns (out: seq<Message>)
    ensures TailStripped(msgs, keepReasoning, chars, out)
  {
    var start := 0;
    while start < |msgs| && !msgs[start].IsSummary()
      invariant 0 <= start <= |msgs|
      invariant forall j :: 0 <= j < start ==> !msgs[j].IsSummary()
    {
      start := start + 1;
    }
    assert start == FirstSummary(msgs) by {
      var f := FirstSummary(msgs);
      assert f == start || f < start || start < f;
    }
    if start >= |msgs| - 1 {
      return msgs;
    }
    start := start + 1;
    var t1 := StripStaleReasoning(msgs[start..], keepReasoning);
    var t2 := TruncateKeptReasoning(t1, keepReasoning, chars);
    out := msgs[..start] + t2;
    assert out[start..] == t2 && out[..start] == msgs[..start];
  }

  lemma TailStrippedShape(msgs: seq<Message>, keepReasoning: int, chars: int, out: seq<Message>)
    requires TailStripped(msgs, keepReasoning, chars, out)
    ensures SameShape(msgs, out)
    ensures forall i :: 0 <= i < |msgs| && i <= FirstSummary(msgs) ==> out[i] == msgs[i]
  {
    var start := FirstSummary(msgs) + 1;
    if start >= |msgs| {
      SameShapeReflexive(msgs);
    } else {
      var mid :| IsStripReasoning(msgs[start..], keepReasoning, mid)
          && IsTruncateReasoning(mid, keepReasoning, chars, out[start..]);
      ReasoningKeepsShape(msgs[start..], keepReasoning, chars, mid, out[start..]);
      forall i | 0 <= i < |msgs| ensures SameShapeMessage(msgs[i], out[i]) && (i < start ==> out[i] == msgs[i]) {
        if i >= start {
          assert SameShapeMessage(msgs[start..][i-start], out[start..][i-start]);
        } else {
          assert msgs[..start][i] == out[..start][i];
        }
      }
    }
  }

  // A round behind the first summary only has its reasoning cut.
  lemma TailStrippedEnds(msgs: seq<Message>, keepReasoning: int, chars: int, out: seq<Message>)
    requires TailStripped(msgs, keepReasoning, chars, out) && keepReasoning >= 1
    requires BlockStructured(msgs) && msgs != [] && FirstSummary(msgs) < |msgs| - |LastRound(msgs)|
    ensures EndsCut(msgs, chars, out)
  {
    hide BlockStructured, RoundsOf, CutRound, SameShape, EndsCut;
    var start, n := FirstSummary(msgs) + 1, |msgs| - |LastRound(msgs)|;
    LastRoundSuffix(msgs);
    LastOpensEnd(msgs, n);
    var mid :| IsStripReasoning(msgs[start..], keepReasoning, mid)
        && IsTruncateReasoning(mid, keepReasoning, chars, out[start..]);
    ReasoningEnds(msgs[start..], keepReasoning, chars, mid, out[start..], n - start);
    assert msgs[start..][n-start..] == msgs[n..] && out[start..][n-start..] == out[n..];
    TailStrippedShape(msgs, keepReasoning, chars, out);
    EndsFromSuffix(msgs, out, chars);
  }

  lemma ReasoningEnds(msgs: seq<Message>, keepReasoning: int, chars: int, mid: seq<Message>, out: seq<Message>, n: nat)
    requires IsStripReasoning(msgs, keepReasoning, mid) && IsTruncateReasoning(mid, keepReasoning, chars, out)
    requires OpensEnd(msgs, n) && keepReasoning >= 1
    ensures |out| == |msgs| && out[n..] == CutRound(msgs[n..], chars)
  {
    EndInWindow(msgs, keepReasoning, n);
    assert OpensEnd(mid, n);
    CutPassCutsEnd(mid, keepReasoning, chars, out, n);
    assert mid[n..] == msgs[n..];
  }

  lemma ReasoningKeepsShape(msgs: seq<Message>, keepReasoning: int, chars: int, mid: seq<Message>, out: seq<Message>)
    requires IsStripReasoning(msgs, keepReasoning, mid) && IsTruncateReasoning(mid, keepReasoning, chars, out)
    ensures SameShape(msgs, out)
  {
    var codec := ArgCodec(_ => None, _ => "", s => s, s => s);
    PassesKeepShape(codec, msgs, keepReasoning, 0, mid);
    PassesKeepShape(codec, mid, keepReasoning, chars, out);
    SameShapeTransitive(msgs, mid, out);
  }

  // ---------------------------------------------------------------- FitHistory

  datatype FitResult = FitResult(
    out: seq<Message>, summary: Option<Message>, committed: bool, usage: Usage, viewEstimate: int, err: Option<string>)

  function DefaultTo(value: int, fallback: int): int {
    if value <= 0 then fallback else value
  }

  // What the seven passes were given, when nothing was summarised.
  function GivenToStrips(b: ContextBudget, msgs: seq<Message>, committed: bool): seq<Message> {
    if committed then HeadAndRecent(msgs, DefaultTo(b.keepRecent, CONTEXT_KEEP_RECENT)) else msgs
  }

  // The last round is kept word for word but for a cut of its reasoning: always after a summary, and
  // otherwise exactly if P9b finds no stale result in what the passes were given.  Ids that no earlier
  // call has are enough.
  ghost predicate EndKept(platform: Platform, b: ContextBudget, msgs: seq<Message>, given: seq<Message>,
                          summarised: bool, out: seq<Message>) {
    && (summarised || LastIdsFresh(msgs) ==> EndsCut(msgs, CharsKept(b), out))
    && (!summarised ==> (EndsCut(msgs, CharsKept(b), out) <==> !LastRoundStale(platform.codec, ArgsKept(b), given)))
  }

  // What FitHistory promises about a compactable transcript, on every branch.
  ghost predicate FitPromise(platform: Platform, b: ContextBudget, msgs: seq<Message>, r: FitResult) {
    && Follows(msgs, r.out)
    // the last round is kept word for word but for a cut of its reasoning
    && EndKept(platform, b, msgs, GivenToStrips(b, msgs, r.committed), r.summary.Some?, r.out)
    // one summary: the new one if there is one, else the one the input began with
    && SummaryCount(r.out) == (if r.summary.Some? || (msgs != [] && msgs[0].IsSummary()) then 1 else 0)
    && (r.summary.Some? ==> r.summary.value in r.out && r.summary.value.IsSummary())
    // an uncommitted view keeps every message; a compaction is always committed
    && (!r.committed ==> SameShape(msgs, r.out) && r.summary.None? && r.err.None? && !b.force)
    // a committed view is checked against the window, and only a view over it is an error
    && (r.committed ==> r.viewEstimate == b.Estimate(platform)(r.out, b.system, b.tools))
    && (r.err.Some? <==> r.committed && r.viewEstimate > b.contextWindow * 4 / 5)
  }

  function ReasoningKept(b: ContextBudget): int {
    DefaultTo(b.keepReasoning, CONTEXT_KEEP_REASONING)
  }

  function ArgsKept(b: ContextBudget): int {
    DefaultTo(b.keepToolArgs, CONTEXT_KEEP_TOOL_ARGS)
  }

  function CharsKept(b: ContextBudget): int {
    if b.keepReasoningChars == 0 then CONTEXT_KEEP_REASONING_CHARS else b.keepReasoningChars
  }

  // The seven passes with the budget's settings.
  ghost predicate IsView(platform: Platform, b: ContextBudget, msgs: seq<Message>, out: seq<Message>) {
    Stripped(platform.codec, ReasoningKept(b), CharsKept(b), ArgsKept(b), msgs, out)
  }

  // What a compaction commits before the final trim: the compacted transcript with its tail's
  // reasoning stripped, or the stripped lossy cut.
  ghost predicate IsFitted(platform: Platform, b: ContextBudget, msgs: seq<Message>, keepRecent: nat,
        summary: Option<Message>, usage: Usage, out: seq<Message>) {
    if summary.Some?
    then exists p, r, request ::
      && IsCompacted(platform, b, msgs, keepRecent, p, r) && r.summary == summary && r.usage == usage
      && Answers(platform, b, msgs, p, usage, request)
      && TailStripped(r.out, ReasoningKept(b), CharsKept(b), out)
    else
      && NoSummary(platform, b, msgs, keepRecent) && usage == Usage(0, 0)
      && IsView(platform, b, HeadAndRecent(msgs, keepRecent), out)
  }

  // The settings where none is given: reasoning stays on one message, cut to 4000 characters, arguments
  // on two, and four rounds are recent.
  lemma Defaults(b: ContextBudget)
    ensures ReasoningKept(b) == if b.keepReasoning > 0 then b.keepReasoning else 1
    ensures ArgsKept(b) == if b.keepToolArgs > 0 then b.keepToolArgs else 2
    ensures CharsKept(b) == if b.keepReasoningChars != 0 then b.keepReasoningChars else 4000
    ensures DefaultTo(b.keepRecent, CONTEXT_KEEP_RECENT) == if b.keepRecent > 0 then b.keepRecent else 4
  {
  }

  method CompactOrTrim(platform: Platform, b: ContextBudget, msgs: seq<Message>, keepRecent: nat)
      returns (out: seq<Message>, summary: Option<Message>, usage: Usage)
    requires Compactable(msgs) && keepRecent >= 1
    ensures IsFitted(platform, b, msgs, keepRecent, summary, usage, out)
    // summarising is preferred: the fallback runs only if there is nothing to summarise or a callback failed
    ensures |RoundsOf(msgs)| > 1 + keepRecent && b.summarize.Some? && b.compacting.None?
      && (forall model, prompt, previous, middle :: b.summarize.value(model, prompt, previous, middle).SummaryText?)
      ==> summary.Some?
  {
    var r;
    ghost var request, picked;
    r, request, picked := CompactWithSummary(platform, b, msgs, keepRecent);
    summary, usage := r.summary, r.usage;
    if r.summary.None? {
      var lossy := CompactHistory(msgs, keepRecent);
      ghost var stages;
      out, stages := ApplyContextStrips(platform.codec, lossy, ReasoningKept(b), CharsKept(b), ArgsKept(b));
      assert IsView(platform, b, lossy, out);
    } else {
      out := StripTailReasoning(r.out, ReasoningKept(b), CharsKept(b));
    }
  }

  // Summarised or trimmed, the result is block-structured, ends with the last round, and holds the
  // one summary it should.
  lemma FittedFollows(platform: Platform, b: ContextBudget, msgs: seq<Message>, keepRecent: nat,
        summary: Option<Message>, usage: Usage, out: seq<Message>)
    requires Compactable(msgs) && keepRecent >= 1
    requires IsFitted(platform, b, msgs, keepRecent, summary, usage, out)
    ensures Follows(msgs, out)
    ensures EndKept(platform, b, msgs, HeadAndRecent(msgs, keepRecent), summary.Some?, out)
    ensures SummaryCount(out) == if summary.Some? || (msgs != [] && msgs[0].IsSummary()) then 1 else 0
    ensures summary.Some? ==> summary.value in out && summary.value.IsSummary()
  {
    if summary.Some? {
      var p, r, request :| IsCompacted(platform, b, msgs, keepRecent, p, r) && r.summary == summary
          && Answers(platform, b, msgs, p, usage, request)
          && TailStripped(r.out, ReasoningKept(b), CharsKept(b), out);
      CompactedFollows(platform, b, msgs, keepRecent, p, r);
      CompactedEnds(platform, b, msgs, keepRecent, p, r);
      TailStrippedEnds(r.out, ReasoningKept(b), CharsKept(b), out);
      StrippedCompactionFollows(msgs, r.out, ReasoningKept(b), CharsKept(b), out, summary.value);
    } else {
      var lossy := HeadAndRecent(msgs, keepRecent);
      LossyFollows(msgs, keepRecent, lossy);
      LossyEnds(msgs, keepRecent, lossy);
      ViewShape(platform, b, lossy, out);
      FollowsShape(msgs, lossy, out);
      ViewEnds(platform, b, msgs, lossy, out);
      BarrieredCount(msgs);
    }
  }

  lemma StrippedCompactionFollows(msgs: seq<Message>, compacted: seq<Message>, keepReasoning: int, chars: int,
        out: seq<Message>, s: Message)
    requires Follows(msgs, compacted) && SummaryCount(compacted) == 1 && s in compacted && s.IsSummary()
    requires TailStripped(compacted, keepReasoning, chars, out)
    ensures Follows(msgs, out) && SummaryCount(out) == 1 && s in out
  {
    TailStrippedShape(compacted, keepReasoning, chars, out);
    FollowsShape(msgs, compacted, out);
    FirstSummaryKept(compacted, out, s);
  }

  lemma ViewEnds(platform: Platform, b: ContextBudget, msgs: seq<Message>, given: seq<Message>, out: seq<Message>)
    requires IsView(platform, b, given, out) && BlockStructured(given)
    requires EndsAlike(msgs, given) && (msgs == [] ==> given == []) && (LastIdsFresh(msgs) ==> LastIdsFresh(given))
    ensures EndKept(platform, b, msgs, given, false, out)
  {
    hide Stripped, LastIdsFresh, LastRoundStale;
    ViewEndsCut(platform.codec, ReasoningKept(b), CharsKept(b), ArgsKept(b), given, out);
    if LastIdsFresh(given) {
      FreshViewEndsCut(platform.codec, ArgsKept(b), given);
    }
    if msgs == [] {
      NothingIsStale(platform.codec, ArgsKept(b));
    }
  }

  lemma NothingIsStale(codec: ArgCodec, keepArgs: int)
    ensures !LastRoundStale(codec, keepArgs, [])
  {
  }

  lemma ViewShape(platform: Platform, b: ContextBudget, msgs: seq<Message>, out: seq<Message>)
    requires IsView(platform, b, msgs, out)
    ensures SameShape(msgs, out)
  {
    var s :| IsPipeline(platform.codec, ReasoningKept(b), CharsKept(b), ArgsKept(b), s) && s[0] == msgs && s[7] == out;
    PipelineKeepsShape(platform.codec, ReasoningKept(b), CharsKept(b), ArgsKept(b), s);
  }

  lemma OnlySummaryIsFirst(view: seq<Message>, i: nat, j: nat)
    requires j < i < |view| && view[i].IsSummary() && view[j].IsSummary()
    ensures SummaryCount(view) >= 2
  {
    var front, back := view[..i], view[i..];
    TakeDrop(view, i);
    SummaryCountConcat(front, back);
    assert back[0] == view[i] && front[j] == view[j];
    CountAt(back, 0);
    CountAt(front, j);
  }

  // The only summary of a view is also its first, and nothing up to the first summary is stripped.
  lemma FirstSummaryKept(view: seq<Message>, out: seq<Message>, s: Message)
    requires SummaryCount(view) == 1 && s in view && s.IsSummary() && |out| == |view|
    requires forall i :: 0 <= i < |view| && i <= FirstSummary(view) ==> out[i] == view[i]
    ensures s in out
  {
    var i :| 0 <= i < |view| && view[i] == s;
    var first := FirstSummary(view);
    if first < i {
      OnlySummaryIsFirst(view, i, first);
    }
    assert out[i] == s;
  }

  // A compaction, and the trim to the most recent rounds if it is still over the line.
  ghost predicate IsCommitted(platform: Platform, b: ContextBudget, msgs: seq<Message>, keepRecent: nat, r: FitResult) {
    exists fitted :: IsFitted(platform, b, msgs, keepRecent, r.summary, r.usage, fitted) &&
      if b.Estimate(platform)(fitted, b.system, b.tools) > b.contextWindow * 4 / 5
          then IsTrim(fitted, keepRecent, r.out) else r.out == fitted
  }

  lemma CommittedFollows(platform: Platform, b: ContextBudget, msgs: seq<Message>, keepRecent: nat,
        summary: Option<Message>, usage: Usage, fitted: seq<Message>, out: seq<Message>)
    requires Compactable(msgs) && keepRecent >= 1
    requires IsFitted(platform, b, msgs, keepRecent, summary, usage, fitted)
    requires out == fitted || IsTrim(fitted, keepRecent, out)
    ensures Follows(msgs, out)
    ensures EndKept(platform, b, msgs, HeadAndRecent(msgs, keepRecent), summary.Some?, out)
    ensures SummaryCount(out) == if summary.Some? || (msgs != [] && msgs[0].IsSummary()) then 1 else 0
    ensures summary.Some? ==> summary.value in out && summary.value.IsSummary()
  {
    FittedFollows(platform, b, msgs, keepRecent, summary, usage, fitted);
    if out != fitted {
      TrimFollows(msgs, fitted, keepRecent, out);
    }
  }

  method Commit(platform: Platform, b: ContextBudget, msgs: seq<Message>) returns (r: FitResult)
    requires Compactable(msgs)
    ensures FitPromise(platform, b, msgs, r) && r.committed
    ensures IsCommitted(platform, b, msgs, DefaultTo(b.keepRecent, CONTEXT_KEEP_RECENT), r)
  {
    hide IsFitted, Follows, EndKept, IsTrim, HeadAndRecent, SummaryCount, Compactable;
    var estimate := b.Estimate(platform);
    var keepRecent := DefaultTo(b.keepRecent, CONTEXT_KEEP_RECENT);
    var fitted, summary, usage := CompactOrTrim(platform, b, msgs, keepRecent);
    var out := fitted;
    if estimate(fitted, b.system, b.tools) > b.contextWindow * 4 / 5 {
      out := TrimRecentRounds(fitted, keepRecent);
    }
    CommittedFollows(platform, b, msgs, keepRecent, summary, usage, fitted, out);
    var est := estimate(out, b.system, b.tools);
    var err := if est > b.contextWindow * 4 / 5 then Some("history exceeds context window even after lossy trimming")
        else None;
    r := FitResult(out, summary, true, usage, est, err);
    assert IsFitted(platform, b, msgs, keepRecent, r.summary, r.usage, fitted);
  }

  // The gate: what an unforced step decides on.
  ghost predicate OverLine(platform: Platform, b: ContextBudget, view: seq<Message>, tokens: int) {
    && IsThreshold(platform.cjk, view, b.Estimate(platform)(view, b.system, b.tools), b.useRealUsage, tokens)
    && b.contextWindow > 0 && tokens > b.contextWindow * 4 / 5
  }

  // A forced step always compacts; any other exactly when its stripped view is over the line, and
  // else that view is the result.
  method FitHistory(platform: Platform, b: ContextBudget, msgs: seq<Message>) returns (r: FitResult)
    requires Compactable(msgs)
    ensures FitPromise(platform, b, msgs, r)
    ensures r.committed ==> IsCommitted(platform, b, msgs, DefaultTo(b.keepRecent, CONTEXT_KEEP_RECENT), r)
    ensures b.force ==> r.committed
    ensures !b.force && r.committed ==> HasLongView(platform, b, msgs)
    ensures !r.committed ==> IsView(platform, b, msgs, r.out) && exists tokens ::
              IsThreshold(platform.cjk, r.out, b.Estimate(platform)(r.out, b.system, b.tools), b.useRealUsage, tokens)
                  && !OverLine(platform, b, r.out, tokens)
  {
    if !b.force {
      var view;
      ghost var stages;
      view, stages := ApplyContextStrips(platform.codec, msgs, ReasoningKept(b), CharsKept(b), ArgsKept(b));
      assert IsView(platform, b, msgs, view);
      var tokens := EstimateThreshold(platform.cjk, view, b.system, b.tools, b.Estimate(platform), b.useRealUsage);
      if b.contextWindow <= 0 || tokens <= b.contextWindow * 4 / 5 {
        assert !OverLine(platform, b, view, tokens);
        BarrieredCount(msgs);
        ShapeFollows(msgs, view);
        ViewEnds(platform, b, msgs, msgs, view);
        r := FitResult(view, None, false, Usage(0, 0), 0, None);
        return;
      }
      assert OverLine(platform, b, view, tokens);
    }
    r := Commit(platform, b, msgs);
  }

  // ---------------------------------------------------------------- NewCompaction

  datatype StepOutput = StepOutput(
    view: seq<Message>, commit: bool, persist: seq<Message>, extraUsage: Option<Usage>, compacted: bool,
        viewEstimate: int)

  datatype BeforeResult = BeforeOk(output: StepOutput) | BeforeError(message: string)

  // The contract of a BeforeLLM hook that the loop relies on: what it commits is block-structured,
  // and what it persists are summaries.
  ghost predicate KeepsBlocks(msgs: seq<Message>, out: StepOutput) {
    && (out.commit && out.view != [] ==> BlockStructured(out.view) && SummariesAreUser(out.view))
    && (forall m :: m in out.persist ==> m.IsSummary() && m.role == RoleUser && m.toolCalls == [])
  }

  datatype CompactionOptions = CompactionOptions(reserved: int, auto: bool)

  function ToStepOutput(fit: FitResult): StepOutput {
    match fit.summary
    case None => StepOutput(fit.out, fit.committed, [], None, false, fit.viewEstimate)
    case Some(summary) => StepOutput(fit.out, fit.committed, [summary], Some(fit.usage), true, fit.viewEstimate)
  }

  // What the hook promises the loop.
  ghost predicate StepPromise(platform: Platform, b: ContextBudget, msgs: seq<Message>, out: StepOutput) {
    && KeepsBlocks(msgs, out)
    // the view ends with the transcript's last round, word for word but for a cut of its reasoning,
    // and fits the window if it is committed
    && Follows(msgs, out.view)
    && EndKept(platform, b, msgs, GivenToStrips(b, BarrierOf(msgs), out.commit), out.compacted, out.view)
    && (out.commit ==> b.Estimate(platform)(out.view, b.system, b.tools) <= b.contextWindow * 4 / 5)
    // a summary is persisted exactly when one was generated, and it is the view's only one
    && (out.compacted <==> out.persist != [])
    && (out.compacted ==> out.commit && |out.persist| == 1 && out.persist[0] in out.view && SummaryCount(out.view) == 1)
  }

  lemma FitMeetsStepPromise(platform: Platform, b: ContextBudget, force: bool, msgs: seq<Message>,
        barrier: seq<Message>, fit: FitResult)
    requires Follows(msgs, barrier) && fit.err.None?
    requires EndsAlike(msgs, barrier) && (LastIdsFresh(msgs) ==> LastIdsFresh(barrier))
    requires (msgs == [] ==> barrier == []) && barrier == BarrierOf(msgs)
    requires FitPromise(platform, b.(force := force), barrier, fit)
    ensures StepPromise(platform, b, msgs, ToStepOutput(fit))
  {
    hide RoundsOf, BlockStructured, SameShape, CutRound, LastRoundStale, LastIdsFresh, HeadAndRecent, BarrierOf;
    FollowsTransitive(msgs, barrier, fit.out);
    if fit.summary.Some? {
      SingleUser(fit.out, fit.summary.value);
    }
  }

  ghost predicate Overflowed(budget: ContextBudget, opts: CompactionOptions, msgs: seq<Message>) {
    exists idx :: IsOverflowAnchor(budget, opts, msgs, idx)
  }

  ghost predicate IsOverflowAnchor(budget: ContextBudget, opts: CompactionOptions, msgs: seq<Message>, idx: int) {
    && 0 <= idx < |msgs| && IsAnchor(msgs, SummaryStamp(msgs), idx)
    && opts.auto && budget.contextWindow > 0
    && msgs[idx].usage.value.inputTokens + msgs[idx].usage.value.outputTokens
        >= UsableTokens(budget.contextWindow, opts.reserved)
  }

  // Old usage forces nothing: without a report as late as the last summary a step is never forced.
  lemma NoForceFromOldUsage(budget: ContextBudget, opts: CompactionOptions, msgs: seq<Message>, k: nat)
    requires LastSummaryAt(msgs, k) && ReportsAreOlder(msgs, k)
    ensures !Overflowed(budget, opts, msgs)
  {
    if idx :| IsOverflowAnchor(budget, opts, msgs, idx) {
      OldUsageForgotten(msgs, k, idx);
    }
  }

  // Some view of the transcript is over the line.
  ghost predicate HasLongView(platform: Platform, b: ContextBudget, msgs: seq<Message>) {
    exists view, tokens :: IsView(platform, b, msgs, view) && OverLine(platform, b, view, tokens)
  }

  // What FitHistory computes on a transcript, and how it decides.
  ghost predicate IsFit(platform: Platform, b: ContextBudget, msgs: seq<Message>, fit: FitResult) {
    && FitPromise(platform, b, msgs, fit)
    && (fit.committed ==> IsCommitted(platform, b, msgs, DefaultTo(b.keepRecent, CONTEXT_KEEP_RECENT), fit))
    && (!fit.committed ==> IsView(platform, b, msgs, fit.out))
  }

  // How the hook hands it on: an error as an error, a summary also as the message to persist and with
  // the usage of the model call behind it.
  ghost predicate HandsOut(fit: FitResult, r: BeforeResult) {
    match fit.err
    case Some(message) => r == BeforeError(message)
    case None =>
      && r.BeforeOk? && r.output.view == fit.out && r.output.commit == fit.committed
      && r.output.viewEstimate == fit.viewEstimate && r.output.compacted == fit.summary.Some?
      && (fit.summary.Some? ==> r.output.persist == [fit.summary.value] && r.output.extraUsage == Some(fit.usage))
      && (fit.summary.None? ==> r.output.persist == [] && r.output.extraUsage.None?)
  }

  // What the compaction hook promises of one step.
  ghost predicate BeforePromise(platform: Platform, budget: ContextBudget, opts: CompactionOptions,
        msgs: seq<Message>, r: BeforeResult) {
    // it is what fitting the barriered transcript gives
    && (exists fit, force ::
          && IsFit(platform, budget.(force := force), BarrierOf(msgs), fit) && HandsOut(fit, r)
          && (force <==> Overflowed(budget, opts, msgs)))
    && (r.BeforeOk? ==>
      && StepPromise(platform, budget, msgs, r.output)
      // usage that has silently filled the window forces a compaction, judged on the whole transcript
      && (Overflowed(budget, opts, msgs) ==> r.output.commit)
      // nothing else does but a view over the line
      && (r.output.commit && !Overflowed(budget, opts, msgs) ==> HasLongView(platform, budget, BarrierOf(msgs))))
  }

  method Before(platform: Platform, budget: ContextBudget, opts: CompactionOptions, msgs: seq<Message>)
      returns (r: BeforeResult)
    requires BlockStructured(msgs) && SummariesAreUser(msgs)
    ensures BeforePromise(platform, budget, opts, msgs, r)
  {
    hide FitPromise, StepPromise, IsCommitted, IsView, Follows, LastIdsFresh, Overflowed, HasLongView, EndsAlike;
    var barrier := ApplyCompactionBarrier(msgs);
    var force := IsForced(budget, opts, msgs);
    BarrierFollows(msgs, barrier);
    var fit;
    fit := FitHistory(platform, budget.(force := force), barrier);
    assert IsFit(platform, budget.(force := force), BarrierOf(msgs), fit);
    if fit.err.Some? {
      assert HandsOut(fit, BeforeError(fit.err.value));
      return BeforeError(fit.err.value);
    }
    FitMeetsStepPromise(platform, budget, force, msgs, barrier, fit);
    r := BeforeOk(ToStepOutput(fit));
    assert HandsOut(fit, r);
    if fit.committed && !force {
      LongViewUnforced(platform, budget, barrier);
    }
  }

  method IsForced(budget: ContextBudget, opts: CompactionOptions, msgs: seq<Message>) returns (force: bool)
    ensures force <==> Overflowed(budget, opts, msgs)
  {
    var idx := LastApplicableUsageIndex(msgs);
    force := false;
    if idx >= 0 {
      force := IsUsageOverflow(msgs[idx].usage.value, budget.contextWindow, opts.reserved, opts.auto);
      assert force ==> IsOverflowAnchor(budget, opts, msgs, idx);
    }
    if i :| IsOverflowAnchor(budget, opts, msgs, i) {
      AnchorUnique(msgs, SummaryStamp(msgs), i, idx);
    }
  }

  lemma LongViewUnforced(platform: Platform, budget: ContextBudget, barrier: seq<Message>)
    requires HasLongView(platform, budget.(force := false), barrier)
    ensures HasLongView(platform, budget, barrier)
  {
    var b := budget.(force := false);
    var view, tokens :| IsView(platform, b, barrier, view) && OverLine(platform, b, view, tokens);
    assert IsView(platform, budget, barrier, view) && OverLine(platform, budget, view, tokens);
  }

  // The barrier cuts in front of a round, so the last round stays as it is.
  lemma BarrierFollows(msgs: seq<Message>, barrier: seq<Message>)
    requires BlockStructured(msgs) && SummariesAreUser(msgs)
    requires |barrier| <= |msgs| && barrier == msgs[|msgs| - |barrier|..]
    requires barrier == msgs || (barrier != [] && barrier[0].IsSummary())
    ensures Follows(msgs, barrier) && EndsAlike(msgs, barrier)
    ensures LastIdsFresh(msgs) ==> LastIdsFresh(barrier)
  {
    if barrier == msgs {
      SelfFollows(msgs);
    } else {
      var cut := |msgs| - |barrier|;
      assert msgs[cut] == barrier[0] && msgs[cut] in msgs;
      assert forall m :: m in barrier ==> m in msgs;
      var k := RoundsOfSuffix(msgs, cut);
      RoundsSuffixFollows(msgs, barrier, k);
    }
  }

  lemma RoundsSuffixFollows(msgs: seq<Message>, view: seq<Message>, k: nat)
    requires view != [] && BlockStructured(view) && SummariesAreUser(view)
    requires k < |RoundsOf(msgs)| && RoundsOf(view) == RoundsOf(msgs)[k..]
    ensures Follows(msgs, view) && EndsAlike(msgs, view)
    ensures LastIdsFresh(msgs) ==> LastIdsFresh(view)
  {
    LastOfSuffix(RoundsOf(msgs), k);
    SameShapeReflexive(LastRound(view));
    if LastIdsFresh(msgs) {
      FreshSuffix(RoundsOf(msgs), k);
    }
  }

  lemma RoundsStep(msgs: seq<Message>, n: nat)
    requires BlockStructured(msgs) && msgs != [] && n == BlockLen(msgs)
    ensures n <= |msgs| && BlockStructured(msgs[n..]) && RoundsOf(msgs) == [msgs[..n]] + RoundsOf(msgs[n..])
    ensures forall k :: 1 <= k < n ==> msgs[k].role == RoleTool
  {
    RoundIsBlock(msgs);
    assert forall k :: 1 <= k < n ==> msgs[..n][k].role == RoleTool;
  }

  lemma ConsDrop<T>(x: T, s: seq<T>, k: nat)
    requires k <= |s|
    ensures ([x] + s)[k+1..] == s[k..]
  {
  }

  lemma {:induction false} RoundsOfSuffix(msgs: seq<Message>, cut: nat) returns (k: nat)
    requires BlockStructured(msgs) && cut < |msgs| && msgs[cut].role != RoleTool
    ensures BlockStructured(msgs[cut..])
    ensures k < |RoundsOf(msgs)| && RoundsOf(msgs[cut..]) == RoundsOf(msgs)[k..]
    decreases |msgs|
  {
    hide RoundsOf, BlockStructured;
    if cut == 0 {
      assert msgs[0..] == msgs;
      k := 0;
    } else {
      var n := BlockLen(msgs);
      RoundsStep(msgs, n);
      var rest := msgs[n..];
      assert rest[cut-n..] == msgs[cut..] && rest[cut-n] == msgs[cut];
      k := RoundsOfSuffix(rest, cut - n);
      ConsDrop(msgs[..n], RoundsOf(rest), k);
      k := k + 1;
    }
  }
}
