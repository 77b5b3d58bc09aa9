/** Real token usage as an anchor for the next estimate, and when it goes stale
    (miniagent/compaction/compaction_split.go). */
module UsageAnchor {
  import opened Transcript
  import opened Estimate

  // ---------------------------------------------------------------- the anchor

  predicate Usable(m: Message) {
    m.role == RoleAssistant && m.usage.Some? && (m.usage.value.inputTokens > 0 || m.usage.value.outputTokens > 0)
  }

  // The stamp of the last summary, 0 when there is none.
  function SummaryStamp(msgs: seq<Message>): int {
    if msgs == [] then 0
    else if msgs[|msgs|-1].IsSummary() then msgs[|msgs|-1].ts
    else SummaryStamp(msgs[..|msgs|-1])
  }

  ghost predicate IsAnchor(msgs: seq<Message>, since: int, idx: int) {
    && -1 <= idx < |msgs|
    && (idx >= 0 ==> Usable(msgs[idx]) && msgs[idx].ts >= since)
    && forall i :: idx < i < |msgs| ==> !(Usable(msgs[i]) && msgs[i].ts >= since)
  }

  lemma AnchorUnique(msgs: seq<Message>, since: int, i: int, j: int)
    requires IsAnchor(msgs, since, i) && IsAnchor(msgs, since, j)
    ensures i == j
  {
  }

  method LastApplicableUsageIndex(msgs: seq<Message>) returns (idx: int)
    ensures IsAnchor(msgs, SummaryStamp(msgs), idx)
    ensures idx >= 0 ==>
              && msgs[idx].role == RoleAssistant && msgs[idx].usage.Some?
              && (msgs[idx].usage.value.inputTokens > 0 || msgs[idx].usage.value.outputTokens > 0)
  {
    var latestSummaryTs := 0;
    var i := |msgs|;
    assert msgs[..i] == msgs;
    while i > 0
      invariant 0 <= i <= |msgs|
      invariant SummaryStamp(msgs) == SummaryStamp(msgs[..i])
      invariant latestSummaryTs == 0
    {
      i := i - 1;
      assert msgs[..i+1][..i] == msgs[..i];
      if msgs[i].IsSummary() {
        latestSummaryTs := msgs[i].ts;
        break;
      }
    }
    assert latestSummaryTs == SummaryStamp(msgs);
    i := |msgs|;
    while i > 0
      invariant 0 <= i <= |msgs|
      invariant forall k :: i <= k < |msgs| ==> !(Usable(msgs[k]) && msgs[k].ts >= latestSummaryTs)
    {
      i := i - 1;
      if Usable(msgs[i]) && msgs[i].ts >= latestSummaryTs {
        return i;
      }
    }
    idx := -1;
  }

  // ---------------------------------------------------------------- against the specification

  // No summary is newer than the message.
  ghost predicate Fresh(msgs: seq<Message>, m: Message) {
    forall i :: 0 <= i < |msgs| && msgs[i].IsSummary() ==> msgs[i].ts <= m.ts
  }

  ghost predicate LastSummaryNewest(msgs: seq<Message>) {
    forall i :: 0 <= i < |msgs| && msgs[i].IsSummary() ==> msgs[i].ts <= SummaryStamp(msgs)
  }

  ghost predicate StampsSorted(msgs: seq<Message>) {
    forall i, j :: 0 <= i < j < |msgs| && msgs[i].IsSummary() && msgs[j].IsSummary() ==> msgs[i].ts <= msgs[j].ts
  }

  lemma {:induction false} StampOfLast(msgs: seq<Message>) returns (last: int)
    ensures last == -1 ==> SummaryStamp(msgs) == 0 && forall i :: 0 <= i < |msgs| ==> !msgs[i].IsSummary()
    ensures last != -1 ==> 0 <= last < |msgs| && msgs[last].IsSummary() && SummaryStamp(msgs) == msgs[last].ts
                           && forall i :: last < i < |msgs| ==> !msgs[i].IsSummary()
    decreases |msgs|
  {
    if msgs == [] {
      last := -1;
    } else if msgs[|msgs|-1].IsSummary() {
      last := |msgs| - 1;
    } else {
      last := StampOfLast(msgs[..|msgs|-1]);
    }
  }

  // The backward scan looks only at the last summary.  That is the maximum stamp, and the anchor is
  // exactly "not older than any summary", if and only if no earlier summary is newer than the last.
  lemma AnchorIsFreshIff(msgs: seq<Message>)
    requires SummaryCount(msgs) > 0
    ensures LastSummaryNewest(msgs) <==> forall m: Message :: m.ts >= SummaryStamp(msgs) <==> Fresh(msgs, m)
  {
    var last := StampOfLast(msgs);
    if last == -1 {
      NoSummaries(msgs);
    }
    assert forall m :: Fresh(msgs, m) ==> msgs[last].ts <= m.ts;
    if LastSummaryNewest(msgs) {
      assert forall m: Message :: m.ts >= SummaryStamp(msgs) ==> Fresh(msgs, m);
    } else {
      assert !Fresh(msgs, msgs[last]);
    }
  }

  lemma SortedStampsSuffice(msgs: seq<Message>)
    requires StampsSorted(msgs)
    ensures LastSummaryNewest(msgs)
  {
    var last := StampOfLast(msgs);
  }

  // ---------------------------------------------------------------- staleness after a commit

  // The last summary of the view stands at k.
  ghost predicate LastSummaryAt(view: seq<Message>, k: nat) {
    k < |view| && view[k].IsSummary() && forall i :: k < i < |view| ==> !view[i].IsSummary()
  }

  lemma {:induction false} StampAt(msgs: seq<Message>, k: nat)
    requires LastSummaryAt(msgs, k)
    ensures SummaryStamp(msgs) == msgs[k].ts
    decreases |msgs|
  {
    if k < |msgs| - 1 {
      StampAt(msgs[..|msgs|-1], k);
    }
  }

  // Every usage report the view still holds is stamped before the summary at k.
  ghost predicate ReportsAreOlder(view: seq<Message>, k: nat)
    requires k < |view|
  {
    forall i :: 0 <= i < |view| && Usable(view[i]) ==> view[i].ts < view[k].ts
  }

  // After a compaction no old usage is used, exactly if every report kept carries an earlier stamp
  // than the summary.
  lemma OldUsageForgotten(view: seq<Message>, k: nat, idx: int)
    requires LastSummaryAt(view, k) && IsAnchor(view, SummaryStamp(view), idx)
    ensures idx == -1 <==> ReportsAreOlder(view, k)
  {
    StampAt(view, k);
  }

  // What it means for the gate: the local estimate decides exactly then, else an old report is in it.
  lemma ThresholdAfterSummary(cjk: Table, view: seq<Message>, k: nat, localEstimate: int, tokens: int)
    requires LastSummaryAt(view, k) && IsThreshold(cjk, view, localEstimate, true, tokens)
    ensures ReportsAreOlder(view, k) ==> tokens == localEstimate
    ensures !ReportsAreOlder(view, k) ==>
              exists idx :: IsUsageEstimate(cjk, view, tokens, idx) && view[idx].ts >= view[k].ts
  {
    if idx :| IsUsageEstimate(cjk, view, tokens, idx) {
      OldUsageForgotten(view, k, idx);
      StampAt(view, k);
    } else {
      OldUsageForgotten(view, k, -1);
    }
  }

  // Any kept report that is not stamped before the summary is used again, or a later one is: in the
  // same millisecond, or after the clock was set back, although it describes the old transcript.
  lemma LateStampKeepsOldUsage(view: seq<Message>, k: nat, i: nat, idx: int)
    requires LastSummaryAt(view, k) && i < |view| && Usable(view[i]) && view[i].ts >= view[k].ts
    requires IsAnchor(view, SummaryStamp(view), idx)
    ensures idx >= i
  {
    StampAt(view, k);
  }

  // The first usable assistant message after it becomes the anchor.
  lemma NewUsageAnchors(view: seq<Message>, k: nat, m: Message, idx: int)
    requires LastSummaryAt(view, k)
    requires Usable(m) && !m.IsSummary() && m.ts >= view[k].ts
    requires IsAnchor(view + [m], SummaryStamp(view + [m]), idx)
    ensures idx == |view|
  {
    var longer := view + [m];
    StampAt(longer, k);
    assert longer[|view|] == m && longer[k] == view[k];
  }

  // ---------------------------------------------------------------- estimates from usage

  function MessageTokens(cjk: Table, m: Message): nat {
    Tokens(cjk, Text(m)) + ENVELOPE_PER_MSG_TOKENS + ENVELOPE_PER_TOOL_CALL_TOKENS * |m.toolCalls|
  }

  function MessageTokensSum(cjk: Table, msgs: seq<Message>): nat {
    if msgs == [] then 0 else MessageTokens(cjk, msgs[0]) + MessageTokensSum(cjk, msgs[1..])
  }

  // The usage reported at the anchor and the local estimate of exactly the messages after it.
  ghost predicate IsUsageEstimate(cjk: Table, msgs: seq<Message>, tokens: int, idx: int) {
    && 0 <= idx < |msgs| && IsAnchor(msgs, SummaryStamp(msgs), idx)
    && tokens == msgs[idx].usage.value.inputTokens + msgs[idx].usage.value.outputTokens
        + MessageTokensSum(cjk, msgs[idx+1..])
  }

  method EstimateTokensFromUsage(cjk: Table, msgs: seq<Message>) returns (tokens: int, ok: bool)
    ensures ok ==> exists idx :: IsUsageEstimate(cjk, msgs, tokens, idx)
    ensures !ok ==> IsAnchor(msgs, SummaryStamp(msgs), -1)
  {
    var at := LastApplicableUsageIndex(msgs);
    if at < 0 {
      return 0, false;
    }
    tokens := msgs[at].usage.value.inputTokens + msgs[at].usage.value.outputTokens;
    ghost var base := tokens;
    for i := at + 1 to |msgs|
      invariant tokens + MessageTokensSum(cjk, msgs[i..]) == base + MessageTokensSum(cjk, msgs[at+1..])
    {
      assert msgs[i..][0] == msgs[i] && msgs[i..][1..] == msgs[i+1..];
      var n, c := CountMessage(cjk, msgs[i]);
      tokens := tokens + (n / 4 + c / 2 + ENVELOPE_PER_MSG_TOKENS
          + ENVELOPE_PER_TOOL_CALL_TOKENS * |msgs[i].toolCalls|);
    }
    assert IsUsageEstimate(cjk, msgs, tokens, at);
    ok := true;
  }

  // What the gate sees: with real usage asked for, the estimate from the anchor if there is one.
  ghost predicate IsThreshold(cjk: Table, msgs: seq<Message>, localEstimate: int, useRealUsage: bool, tokens: int) {
    if useRealUsage
    then (exists idx :: IsUsageEstimate(cjk, msgs, tokens, idx))
      || (IsAnchor(msgs, SummaryStamp(msgs), -1) && tokens == localEstimate)
    else tokens == localEstimate
  }

  method EstimateThreshold(cjk: Table, msgs: seq<Message>, system: string, tools: seq<Tool>, estimate: Estimator,
        useRealUsage: bool)
      returns (tokens: int)
    ensures IsThreshold(cjk, msgs, estimate(msgs, system, tools), useRealUsage, tokens)
  {
    if useRealUsage {
      var t, ok := EstimateTokensFromUsage(cjk, msgs);
      if ok {
        return t;
      }
    }
    tokens := estimate(msgs, system, tools);
  }

  // ---------------------------------------------------------------- silent overflow

  const COMPACTION_BUFFER := 20000

  function UsableTokens(contextWindow: int, reserved: int): int {
    if contextWindow <= 0 then 0
    else Max(0, contextWindow - Min(if reserved > 0 then reserved else COMPACTION_BUFFER, contextWindow / 5))
  }

  predicate IsUsageOverflow(usage: Usage, contextWindow: int, reserved: int, auto: bool) {
    auto && contextWindow > 0 && usage.inputTokens + usage.outputTokens >= UsableTokens(contextWindow, reserved)
  }

  // Force never takes over below the line of the gate, nor above the window.
  lemma ForceNotBelowGate(contextWindow: int, reserved: int)
    requires contextWindow > 0
    ensures contextWindow * 4 / 5 <= UsableTokens(contextWindow, reserved) <= contextWindow
    // it leaves the configured reserve, or 20000 tokens, free, but never more than a fifth of the window
    ensures 0 < reserved <= contextWindow / 5 ==> UsableTokens(contextWindow, reserved) == contextWindow - reserved
    ensures reserved <= 0 && contextWindow >= 100000 ==> UsableTokens(contextWindow, reserved) == contextWindow - 20000
    ensures reserved > contextWindow / 5 || (reserved <= 0 && contextWindow < 100000) ==>
              UsableTokens(contextWindow, reserved) == contextWindow - contextWindow / 5
  {
  }
}
