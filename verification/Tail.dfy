/** Which recent rounds survive a compaction: the token budget of the tail
    (miniagent/compaction/budget_tail.go) and its greedy selection with one shrunk boundary round
    (miniagent/compaction/split.go). */
module Tail {
  import opened Transcript
  import opened Rounds
  import opened Estimate

  const MIN_PRESERVE_RECENT_TOKENS := 2000
  const MAX_PRESERVE_RECENT_TOKENS := 8000
  const TAIL_BUDGET_FRACTION := 4
  const SUMMARY_MAX_CHARS := 5000
  const SUMMARY_CHARS_PER_WINDOW_RATIO := 5

  // ---------------------------------------------------------------- budgets

  function PreserveRecentTokens(contextWindow: int, configured: int): int {
    if configured > 0 then configured
    else if contextWindow <= 0 then 0
    else Min(Max(contextWindow / TAIL_BUDGET_FRACTION, MIN_PRESERVE_RECENT_TOKENS), MAX_PRESERVE_RECENT_TOKENS)
  }

  function DeriveSummaryMaxChars(contextWindow: int, configured: int): int {
    if configured > 0 then configured
    else if contextWindow <= 0 then SUMMARY_MAX_CHARS
    else Min(contextWindow / SUMMARY_CHARS_PER_WINDOW_RATIO, SUMMARY_MAX_CHARS)
  }

  datatype TailBudget = TailBudget(
    contextWindow: int, preserveRecentTokens: int, summaryMaxChars: int,
    system: string, tools: seq<Tool>, estimate: Estimator)
  {
    // Four fifths of the window, the line every gate compares against.
    function Target(): int {
      contextWindow * 4 / 5
    }

    function SummaryChars(): int {
      if summaryMaxChars <= 0 then SUMMARY_MAX_CHARS else summaryMaxChars
    }

    function SummaryEstimate(): int {
      SummaryChars() / 2 + ENVELOPE_PER_MSG_TOKENS
    }

    function HeadAdjustment(head: seq<Message>): int {
      if |head| != 1 || !head[0].IsSummary() then Marginal(estimate, head) else 0
    }

    // jointTailBudget: what the fixed parts of the next request leave to the tail.
    function Joint(head: seq<Message>): int {
      if contextWindow <= 0 then PreserveRecentTokens(contextWindow, preserveRecentTokens)
      else
        var avail := Target() - estimate([], system, tools) - HeadAdjustment(head) - SummaryEstimate();
        Min(Max(avail, 0), PreserveRecentTokens(contextWindow, preserveRecentTokens))
    }
  }

  // A positive joint budget leaves room for everything that cannot shrink.
  lemma JointBudgetFits(b: TailBudget, head: seq<Message>)
    requires b.contextWindow > 0 && b.Joint(head) > 0
    ensures b.estimate([], b.system, b.tools) + b.HeadAdjustment(head) + b.SummaryEstimate()
              + b.Joint(head) <= b.Target()
    ensures b.Joint(head) <= PreserveRecentTokens(b.contextWindow, b.preserveRecentTokens)
  {
  }

  // And it is the largest such budget: it stops at the configured limit, at the target, or at zero
  // when the fixed parts alone reach the target.
  lemma JointBudgetIsLargest(b: TailBudget, head: seq<Message>)
    requires b.contextWindow > 0
    ensures var left := b.contextWindow * 4 / 5 - b.estimate([], b.system, b.tools) - b.SummaryEstimate()
                  - if |head| == 1 && head[0].IsSummary() then 0 else Marginal(b.estimate, head);
            b.Joint(head) == PreserveRecentTokens(b.contextWindow, b.preserveRecentTokens)
            || b.Joint(head) == left || (left <= 0 && b.Joint(head) == 0)
  {
  }

  // What is kept of the recent rounds: a quarter of the window, from 2000 to 8000 tokens; a summary has
  // a fifth of the window in characters, 5000 at most, and counts for half of them.
  lemma DerivedBudgets(b: TailBudget, contextWindow: int, configured: int)
    ensures configured > 0 ==> PreserveRecentTokens(contextWindow, configured) == configured
    ensures configured <= 0 && contextWindow > 0 ==>
              var tokens := PreserveRecentTokens(contextWindow, configured);
              2000 <= tokens <= 8000 && (tokens == 2000 || tokens <= contextWindow / 4)
                  && (tokens == 8000 || tokens >= contextWindow / 4)
    ensures configured <= 0 && contextWindow > 0 ==>
              var chars := DeriveSummaryMaxChars(contextWindow, configured);
              chars <= 5000 && chars <= contextWindow / 5 && (chars == 5000 || chars == contextWindow / 5)
    ensures configured > 0 ==> DeriveSummaryMaxChars(contextWindow, configured) == configured
    ensures b.summaryMaxChars > 0 ==> b.SummaryEstimate() == b.summaryMaxChars / 2 + 4
  {
  }

  // ---------------------------------------------------------------- the boundary round

  const SHRINK_MARKER := "\U{2026}[tool result compressed]"

  // int(float64(runes) * budget/cur): its rounding is the machine's business, so any function will do.
  type Scaling = (nat, int, int) -> int

  function ShrinkMessage(m: Message, budget: int, cur: int, scale: Scaling): (r: Message)
    ensures m.role != RoleTool || m.content == "" ==> r == m
    ensures m.role == RoleTool && m.content != "" ==>
              var n := if scale(|m.content|, budget, cur) > 1 then scale(|m.content|, budget, cur) else 1;
              r == m.(content := TruncateHeadTail(m.content, n, "\U{2026}[tool result compressed]"))
  {
    if m.role == RoleTool && m.content != ""
    then m.(content := TruncateHeadTail(m.content, Max(1, scale(|m.content|, budget, cur)), SHRINK_MARKER))
    else m
  }

  ghost predicate IsShrunk(round: seq<Message>, budget: int, estimate: Estimator, scale: Scaling, out: seq<Message>) {
    && |out| == |round|
    && forall i :: 0 <= i < |round| ==>
         out[i] == if budget <= 0 || Marginal(estimate, round) <= budget then round[i]
                   else ShrinkMessage(round[i], budget, Marginal(estimate, round), scale)
  }

  method ShrinkRoundToolContents(round: seq<Message>, budget: int, estimate: Estimator, scale: Scaling)
      returns (out: seq<Message>)
    ensures IsShrunk(round, budget, estimate, scale, out)
  {
    out := round;
    if budget <= 0 {
      return;
    }
    var cur := Marginal(estimate, out);
    if cur <= budget {
      return;
    }
    for i := 0 to |round|
      invariant |out| == |round|
      invariant forall k :: 0 <= k < i ==> out[k] == ShrinkMessage(round[k], budget, cur, scale)
      invariant forall k :: i <= k < |round| ==> out[k] == round[k]
    {
      if round[i].role == RoleTool && |round[i].content| > 0 {
        var newLen := Max(1, scale(|round[i].content|, budget, cur));
        out := out[i := round[i].(content := TruncateHeadTail(round[i].content, newLen, SHRINK_MARKER))];
      }
    }
  }

  lemma ShrunkKeepsShape(round: seq<Message>, budget: int, estimate: Estimator, scale: Scaling, out: seq<Message>)
    requires IsShrunk(round, budget, estimate, scale, out)
    ensures SameShape(round, out)
  {
  }

  method SplitOrShrinkToRound(round: seq<Message>, remaining: int, estimate: Estimator, scale: Scaling)
      returns (fitted: seq<Message>, ok: bool, ghost shrunk: seq<Message>)
    ensures IsShrunk(round, remaining, estimate, scale, shrunk)
    ensures ok <==> remaining > 0 && Marginal(estimate, shrunk) <= remaining
    ensures fitted == if ok then shrunk else []
    ensures ok ==> IsShrunk(round, remaining, estimate, scale, fitted) && Marginal(estimate, fitted) <= remaining
    ensures !ok ==> fitted == []
  {
    shrunk := round;
    if remaining <= 0 {
      return [], false, round;
    }
    var out := ShrinkRoundToolContents(round, remaining, estimate, scale);
    shrunk := out;
    ok := Marginal(estimate, out) <= remaining;
    fitted := if ok then out else [];
  }

  // ---------------------------------------------------------------- selection

  // How a selection divides the rounds: `middle` before, at most one shrunk boundary round, and a
  // verbatim run of the most recent rounds.
  datatype Cut = Cut(start: nat, fitted: seq<seq<Message>>)

  ghost predicate ValidCut(rounds: seq<seq<Message>>, cut: Cut, tail: seq<Message>, middle: seq<Message>) {
    && cut.start <= |rounds| && |cut.fitted| <= 1 && |cut.fitted| <= cut.start
    && (forall i :: 0 <= i < |cut.fitted| ==> SameShape(rounds[cut.start - 1], cut.fitted[i]))
    && tail == Flatten(cut.fitted + rounds[cut.start..])
    && middle == Flatten(rounds[..cut.start - |cut.fitted|])
  }

  function Kept(rounds: seq<seq<Message>>, cut: Cut): (kept: seq<seq<Message>>)
    requires cut.start <= |rounds|
  {
    cut.fitted + rounds[cut.start..]
  }

  // The selection is as large as it may be: another round would exceed the turn limit or the budget,
  // and a boundary round left out does not fit even when shrunk.
  ghost predicate Greedy(rounds: seq<seq<Message>>, maxTurns: nat, budget: int, estimate: Estimator, scale: Scaling,
        cut: Cut)
    requires cut.start <= |rounds| && |cut.fitted| <= 1 && |cut.fitted| <= cut.start
  {
    var sum := MarginalSum(estimate, rounds[cut.start..]);
    (cut.start == 0 || |rounds| - cut.start >= maxTurns) ||
    (&& sum + Marginal(estimate, rounds[cut.start-1]) > budget
     && exists shrunk :: IsShrunk(rounds[cut.start-1], budget - sum, estimate, scale, shrunk)
          && (budget - sum > 0 && Marginal(estimate, shrunk) <= budget - sum <==> cut.fitted == [shrunk])
          && (cut.fitted == [] || cut.fitted == [shrunk]))
  }

  lemma SumStep(estimate: Estimator, rounds: seq<seq<Message>>, i: nat)
    requires i < |rounds|
    ensures MarginalSum(estimate, rounds[i..]) == Marginal(estimate, rounds[i]) + MarginalSum(estimate, rounds[i+1..])
  {
    assert rounds[i..][0] == rounds[i] && rounds[i..][1..] == rounds[i+1..];
  }

  lemma MaxIs(a: int, b: int)
    ensures Max(a, b) >= a && Max(a, b) >= b
  {
  }

  // What the rounds from i on add to a request.
  ghost function SumFrom(estimate: Estimator, rounds: seq<seq<Message>>, i: int): int
    requires 0 <= i <= |rounds|
  {
    MarginalSum(estimate, rounds[i..])
  }

  lemma SumFromEnd(estimate: Estimator, rounds: seq<seq<Message>>)
    ensures SumFrom(estimate, rounds, |rounds|) == 0
  {
    assert rounds[|rounds|..] == [];
  }

  lemma SumFromStep(estimate: Estimator, rounds: seq<seq<Message>>, i: nat)
    requires i < |rounds|
    ensures SumFrom(estimate, rounds, i) == Marginal(estimate, rounds[i]) + SumFrom(estimate, rounds, i + 1)
  {
    SumStep(estimate, rounds, i);
  }

  // The backward scan: how many rounds fit, and which one (if any) is the boundary.
  method ScanBack(rounds: seq<seq<Message>>, maxTurns: nat, tokenBudget: int, estimate: Estimator)
      returns (tailStart: nat, boundary: int, total: int)
    requires rounds != [] && tokenBudget > 0
    ensures tailStart <= |rounds| && total == SumFrom(estimate, rounds, tailStart)
    ensures |rounds| - tailStart <= maxTurns
    ensures maxTurns >= 1 ==> tailStart < |rounds|
    ensures boundary == -1 ==> tailStart == 0 || |rounds| - tailStart == maxTurns
    ensures boundary != -1 ==> boundary == tailStart - 1 >= 0 && tailStart < |rounds| && |rounds| - tailStart < maxTurns
    ensures boundary != -1 ==> total + Marginal(estimate, rounds[boundary]) > tokenBudget
    ensures tailStart < |rounds| ==> total <= Max(tokenBudget, Marginal(estimate, rounds[|rounds|-1]))
  {
    var n := |rounds|;
    total, tailStart, boundary := 0, 0, -1;
    var i := n - 1;
    hide SumFrom, Marginal, Max;
    SumFromEnd(estimate, rounds);
    ghost var largest := Max(tokenBudget, Marginal(estimate, rounds[n-1]));
    MaxIs(tokenBudget, Marginal(estimate, rounds[n-1]));
    while i >= 0
      invariant -1 <= i < n
      invariant total == SumFrom(estimate, rounds, i + 1)
      invariant tailStart == 0 && boundary == -1
      invariant n - (i + 1) <= maxTurns
      invariant i < n - 1 ==> total <= largest
    {
      if n - i > maxTurns {
        tailStart := i + 1;
        return;
      }
      var size := Marginal(estimate, rounds[i]);
      if i < n - 1 && total + size > tokenBudget {
        boundary, tailStart := i, i + 1;
        return;
      }
      SumFromStep(estimate, rounds, i);
      total := total + size;
      i := i - 1;
    }
  }

  // What every selection promises; `cut` is the division it made.
  ghost predicate IsSelection(rounds: seq<seq<Message>>, maxTurns: nat, tokenBudget: int, estimate: Estimator,
        scale: Scaling,
                              tail: seq<Message>, middle: seq<Message>, cut: Cut) {
    && ValidCut(rounds, cut, tail, middle)
    // the most recent round is in the tail, unchanged
    && (rounds != [] && (maxTurns >= 1 || tokenBudget > 0) ==> cut.start < |rounds|)
    // at most maxTurns rounds
    && (maxTurns >= 1 ==> |Kept(rounds, cut)| <= maxTurns)
    // the token budget holds unless the most recent round alone exceeds it
    && (rounds != [] && tokenBudget > 0 ==>
          MarginalSum(estimate, Kept(rounds, cut)) <= Max(tokenBudget, Marginal(estimate, rounds[|rounds|-1])))
    // without a budget it is a plain count, with one it is greedy
    && (tokenBudget <= 0 ==> cut == Cut(|rounds| - Min(maxTurns, |rounds|), []))
    && (tokenBudget > 0 ==> Greedy(rounds, maxTurns, tokenBudget, estimate, scale, cut))
  }

  lemma PlainCut(rounds: seq<seq<Message>>, start: nat)
    requires start <= |rounds|
    ensures ValidCut(rounds, Cut(start, []), Flatten(rounds[start..]), Flatten(rounds[..start]))
    ensures Kept(rounds, Cut(start, [])) == rounds[start..]
  {
    assert [] + rounds[start..] == rounds[start..];
  }

  lemma FittedCut(rounds: seq<seq<Message>>, start: nat, fitted: seq<Message>, estimate: Estimator)
    requires 1 <= start <= |rounds| && SameShape(rounds[start-1], fitted)
    ensures ValidCut(rounds, Cut(start, [fitted]), fitted + Flatten(rounds[start..]), Flatten(rounds[..start-1]))
    ensures MarginalSum(estimate, Kept(rounds, Cut(start, [fitted]))) == Marginal(estimate, fitted)
              + MarginalSum(estimate, rounds[start..])
  {
    assert ([fitted] + rounds[start..])[1..] == rounds[start..];
  }

  // The boundary round, shrunk, goes in front of the tail if it then fits the rest of the budget.
  method PrependBoundary(rounds: seq<seq<Message>>, maxTurns: nat, tailStart: nat, total: int, tokenBudget: int,
                         estimate: Estimator, scale: Scaling)
      returns (tail: seq<Message>, middle: seq<Message>, ghost cut: Cut)
    requires 1 <= tailStart < |rounds| && |rounds| - tailStart < maxTurns && tokenBudget > 0
    requires total == MarginalSum(estimate, rounds[tailStart..])
    requires total <= Max(tokenBudget, Marginal(estimate, rounds[|rounds|-1]))
    requires total + Marginal(estimate, rounds[tailStart-1]) > tokenBudget
    ensures IsSelection(rounds, maxTurns, tokenBudget, estimate, scale, tail, middle, cut)
    ensures cut.start == tailStart
  {
    var recent := rounds[tailStart..];
    tail := FlattenRounds(recent);
    middle := FlattenRounds(rounds[..tailStart]);
    var remaining := tokenBudget - total;
    ghost var shrunk;
    var fitted, ok;
    fitted, ok, shrunk := SplitOrShrinkToRound(rounds[tailStart-1], remaining, estimate, scale);
    cut := Cut(tailStart, []);
    if ok {
      tail := fitted + tail;
      middle := FlattenRounds(rounds[..tailStart-1]);
      cut := Cut(tailStart, [fitted]);
      FittedSelection(rounds, maxTurns, tailStart, tokenBudget, estimate, scale, shrunk);
    } else {
      UnfittedSelection(rounds, maxTurns, tailStart, tokenBudget, estimate, scale, shrunk);
    }
  }

  lemma UnfittedSelection(rounds: seq<seq<Message>>, maxTurns: nat, start: nat, budget: int, estimate: Estimator,
        scale: Scaling, shrunk: seq<Message>)
    requires 1 <= start < |rounds| && |rounds| - start < maxTurns && budget > 0
    requires MarginalSum(estimate, rounds[start..]) <= Max(budget, Marginal(estimate, rounds[|rounds|-1]))
    requires MarginalSum(estimate, rounds[start..]) + Marginal(estimate, rounds[start-1]) > budget
    requires IsShrunk(rounds[start-1], budget - MarginalSum(estimate, rounds[start..]), estimate, scale, shrunk)
    requires !(budget - MarginalSum(estimate, rounds[start..]) > 0
             && Marginal(estimate, shrunk) <= budget - MarginalSum(estimate, rounds[start..]))
    ensures IsSelection(rounds, maxTurns, budget, estimate, scale, Flatten(rounds[start..]),
              Flatten(rounds[..start]), Cut(start, []))
  {
    PlainCut(rounds, start);
  }

  lemma FittedSelection(rounds: seq<seq<Message>>, maxTurns: nat, start: nat, budget: int, estimate: Estimator,
        scale: Scaling, shrunk: seq<Message>)
    requires 1 <= start < |rounds| && |rounds| - start < maxTurns && budget > 0
    requires MarginalSum(estimate, rounds[start..]) + Marginal(estimate, rounds[start-1]) > budget
    requires IsShrunk(rounds[start-1], budget - MarginalSum(estimate, rounds[start..]), estimate, scale, shrunk)
    requires budget - MarginalSum(estimate, rounds[start..]) > 0
    requires Marginal(estimate, shrunk) <= budget - MarginalSum(estimate, rounds[start..])
    ensures IsSelection(rounds, maxTurns, budget, estimate, scale, shrunk
              + Flatten(rounds[start..]), Flatten(rounds[..start-1]), Cut(start, [shrunk]))
  {
    hide IsShrunk, Marginal, SameShape, Flatten;
    ShrunkKeepsShape(rounds[start-1], budget - MarginalSum(estimate, rounds[start..]), estimate, scale, shrunk);
    FittedCut(rounds, start, shrunk, estimate);
  }

  // A selection that shrinks nothing: it ends at the turn limit, at the first round, or (when the
  // limit is zero) keeps just the most recent round.
  method PlainSelection(rounds: seq<seq<Message>>, maxTurns: nat, tokenBudget: int, estimate: Estimator,
        scale: Scaling, start: nat)
      returns (tail: seq<Message>, middle: seq<Message>, ghost cut: Cut)
    requires start <= |rounds|
    requires maxTurns >= 1 ==> |rounds| - start <= maxTurns
    requires tokenBudget <= 0 ==> start == |rounds| - Min(maxTurns, |rounds|)
    requires tokenBudget > 0 ==> start < |rounds| && (start == 0 || |rounds| - start >= maxTurns)
    requires tokenBudget > 0 ==>
              MarginalSum(estimate, rounds[start..]) <= Max(tokenBudget, Marginal(estimate, rounds[|rounds|-1]))
    ensures IsSelection(rounds, maxTurns, tokenBudget, estimate, scale, tail, middle, cut)
  {
    tail := FlattenRounds(rounds[start..]);
    middle := FlattenRounds(rounds[..start]);
    cut := Cut(start, []);
    PlainCut(rounds, start);
  }

  method SelectTailByTokens(rounds: seq<seq<Message>>, maxTurns: nat, tokenBudget: int, estimate: Estimator,
        scale: Scaling)
      returns (tail: seq<Message>, middle: seq<Message>, ghost cut: Cut)
    ensures IsSelection(rounds, maxTurns, tokenBudget, estimate, scale, tail, middle, cut)
    ensures exists c :: IsSelection(rounds, maxTurns, tokenBudget, estimate, scale, tail, middle, c)
  {
    var n := |rounds|;
    if n == 0 {
      tail, middle, cut := [], [], Cut(0, []);
      assert IsSelection(rounds, maxTurns, tokenBudget, estimate, scale, tail, middle, cut);
      return;
    }
    if tokenBudget <= 0 {
      tail, middle, cut := PlainSelection(rounds, maxTurns, tokenBudget, estimate, scale, n - Min(maxTurns, n));
      return;
    }
    var tailStart, boundary, total := ScanBack(rounds, maxTurns, tokenBudget, estimate);
    if boundary >= 0 {
      tail, middle, cut := PrependBoundary(rounds, maxTurns, tailStart, total, tokenBudget, estimate, scale);
      return;
    }
    // never an empty tail: with maxTurns == 0 the most recent round is kept all the same
    if tailStart == n {
      SumStep(estimate, rounds, n - 1);
      assert rounds[n..] == [];
      tailStart := n - 1;
    }
    tail, middle, cut := PlainSelection(rounds, maxTurns, tokenBudget, estimate, scale, tailStart);
  }

  // The selection is an order-preserving partition: middle followed by tail is the flattened input,
  // message for message, up to the tool results of the one boundary round.
  lemma CutPartition(rounds: seq<seq<Message>>, cut: Cut, tail: seq<Message>, middle: seq<Message>)
    requires ValidCut(rounds, cut, tail, middle)
    ensures SameShape(Flatten(rounds), middle + tail)
    ensures cut.fitted == [] ==> middle + tail == Flatten(rounds)
  {
    var b := cut.start - |cut.fitted|;
    FlattenCut(rounds, b);
    FlattenConcat(cut.fitted, rounds[cut.start..]);
    if cut.fitted == [] {
      assert rounds[b..] == cut.fitted + rounds[cut.start..];
    } else {
      var round, fitted := rounds[b], cut.fitted[0];
      assert cut.fitted == [fitted];
      FlattenOne(fitted);
      assert rounds[b..][0] == round && rounds[b..][1..] == rounds[cut.start..];
      assert Flatten(rounds[b..]) == round + Flatten(rounds[cut.start..]);
      var recent := Flatten(rounds[cut.start..]);
      assert SameShape(round, fitted) && SameShape(recent, recent) && SameShape(middle, middle);
      SameShapeConcat(round, recent, fitted, recent);
      SameShapeConcat(middle, round + recent, middle, fitted + recent);
    }
    assert forall m: Message :: SameShapeMessage(m, m);
  }

  lemma SameShapeConcat(a: seq<Message>, b: seq<Message>, a': seq<Message>, b': seq<Message>)
    requires SameShape(a, a') && SameShape(b, b')
    ensures SameShape(a + b, a' + b')
  {
    forall i | 0 <= i < |a + b| ensures SameShapeMessage((a + b)[i], (a' + b')[i]) {
      if i >= |a| { assert SameShapeMessage(b[i-|a|], b'[i-|a|]); }
    }
  }
}
