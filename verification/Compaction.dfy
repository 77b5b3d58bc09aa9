/** Summary compaction: head round, one new summary, retained tail
    (compactWithSummary, miniagent/compaction/split.go; applyCompactingHook,
    miniagent/compaction/compacting.go). */
module Compaction {
  import opened Seqs
  import opened Transcript
  import opened Rounds
  import opened Estimate
  import opened Passes
  import opened Strips
  import opened Tail

  const SUMMARY_PREFIX := "[Previous Conversation Summary]\n"
  const SUMMARY_CUT_MARKER := "...[summary truncated]"

  datatype HookInput = HookInput(sessionId: string, middle: seq<Message>, model: string)
  datatype HookResult = HookOutput(context: seq<string>, prompt: string) | HookError(message: string)

  // The model call behind a summary: model, prompt, previous summary, messages.
  type Summarizer = (string, string, string, seq<Message>) -> SummaryResult
  datatype SummaryResult = SummaryText(text: string, usage: Usage) | SummaryError(message: string)

  // Libraries and clock: the CJK table, the argument codec, float scaling, and the current time.
  datatype Platform = Platform(cjk: Table, codec: ArgCodec, scale: Scaling, now: int)

  datatype ContextBudget = ContextBudget(
    contextWindow: int, keepRecent: int, keepReasoning: int, keepToolArgs: int, keepReasoningChars: int,
    summarizerPrompt: string, compactionModel: string, model: string,
    system: string, tools: seq<Tool>, useRealUsage: bool, force: bool,
    preserveRecentTokens: int, summaryMaxChars: int,
    compacting: Option<HookInput -> HookResult>, sessionId: string,
    summarize: Option<Summarizer>, estimateTokens: Option<Estimator>)
  {
    function Estimate(platform: Platform): Estimator {
      match estimateTokens
      case None => DefaultEstimator(platform.cjk)
      case Some(e) => e
    }

    function TailBudget(platform: Platform): TailBudget {
      Tail.TailBudget(contextWindow, preserveRecentTokens, summaryMaxChars, system, tools, Estimate(platform))
    }

    function SummaryModel(): string {
      if compactionModel == "" then model else compactionModel
    }
  }

  // Where the settings go.
  lemma BudgetOf(b: ContextBudget, platform: Platform)
    ensures b.estimateTokens.Some? ==> b.Estimate(platform) == b.estimateTokens.value
    ensures b.estimateTokens.None? ==> b.Estimate(platform) == DefaultEstimator(platform.cjk)
    ensures var t := b.TailBudget(platform);
            && t.contextWindow == b.contextWindow && t.preserveRecentTokens == b.preserveRecentTokens
            && t.summaryMaxChars == b.summaryMaxChars && t.system == b.system && t.tools == b.tools
            && t.estimate == b.Estimate(platform)
  {
  }

  function JoinLines(lines: seq<string>): string {
    if lines == [] then "" else if |lines| == 1 then lines[0] else lines[0] + "\n" + JoinLines(lines[1..])
  }

  function TrimPrefix(s: string, prefix: string): string {
    if prefix <= s then s[|prefix|..] else s
  }

  function SummaryMessage(text: string, now: int): Message {
    PLAIN.(content := SUMMARY_PREFIX + text, kind := KIND_SUMMARY, ts := now)
  }

  // A summary read back from the transcript is the text that was generated.
  lemma SummaryRoundTrip(text: string, now: int)
    ensures TrimPrefix(SummaryMessage(text, now).content, SUMMARY_PREFIX) == text
    ensures SummaryMessage(text, now).IsSummary()
  {
    assert (SUMMARY_PREFIX + text)[|SUMMARY_PREFIX|..] == text;
  }

  // Whatever else stands there is handed on as it is.
  lemma OtherTextKept(s: string)
    ensures !(SUMMARY_PREFIX <= s) ==> TrimPrefix(s, SUMMARY_PREFIX) == s
  {
  }

  // strings.Join with newlines, from the other end.
  lemma {:induction false} JoinLinesSnoc(lines: seq<string>, last: string)
    ensures JoinLines(lines + [last]) == if lines == [] then last else JoinLines(lines) + "\n" + last
    decreases |lines|
  {
    if lines == [] {
    } else {
      ConsConcat(lines, [last]);
      JoinLinesSnoc(lines[1..], last);
      if |lines| > 1 {
        Assoc(lines[0] + "\n", JoinLines(lines[1..]) + "\n", last);
        Assoc(lines[0] + "\n", JoinLines(lines[1..]), "\n");
      }
    }
  }

  // What the summary model is asked.
  datatype SummaryRequest = SummaryRequest(prompt: string, previous: string, middle: seq<Message>)

  function ApplyCompactingHook(b: ContextBudget, previous: string, middle: seq<Message>): Option<SummaryRequest> {
    match b.compacting
    case None => Some(SummaryRequest(b.summarizerPrompt, previous, middle))
    case Some(hook) =>
      match hook(HookInput(b.sessionId, middle, b.SummaryModel()))
      case HookError(_) => None
      case HookOutput(context, prompt) =>
        Some(SummaryRequest(
          if prompt != "" then prompt else b.summarizerPrompt, previous,
          if |context| > 0 then middle + [PLAIN.(content := JoinLines(context))] else middle))
  }

  // The previous summary, when it is all the head there is, is carried as text and not as a message.
  predicate HeadIsSummary(head: seq<Message>) {
    |head| == 1 && head[0].IsSummary()
  }

  function PreviousSummary(head: seq<Message>): string {
    if HeadIsSummary(head) then TrimPrefix(head[0].content, SUMMARY_PREFIX) else ""
  }

  function KeptHead(head: seq<Message>): seq<Message> {
    if HeadIsSummary(head) then [] else head
  }

  function Ask(b: ContextBudget, request: SummaryRequest): SummaryResult
    requires b.summarize.Some?
  {
    b.summarize.value(b.SummaryModel(), request.prompt, request.previous, request.middle)
  }

  datatype CompactionResult = CompactionResult(
    out: seq<Message>, summary: Option<Message>, usage: Usage, err: Option<string>)

  // What went into a compaction: the generated text, and the selection of recent rounds.
  datatype Picked = Picked(text: string, tail: seq<Message>, middle: seq<Message>, cut: Cut)

  // The shape of a compacted transcript: head, the one new summary, and the selected tail.
  ghost predicate IsCompacted(platform: Platform, b: ContextBudget, msgs: seq<Message>, keepRecent: nat,
                              p: Picked, r: CompactionResult) {
    var rounds := RoundsOf(msgs);
    && |rounds| > 1 + keepRecent
    && r.summary == Some(SummaryMessage(p.text, platform.now))
    && r.err.None?
    && IsSelection(rounds[1..], keepRecent, b.TailBudget(platform).Joint(rounds[0]), b.Estimate(platform),
        platform.scale, p.tail, p.middle, p.cut)
    && r.out == KeptHead(rounds[0]) + [SummaryMessage(p.text, platform.now)] + p.tail
  }

  // The summary message carries the text behind the prefix; it is a user message of its own kind.
  ghost predicate CarriesSummary(m: Message, text: string, now: int) {
    && m.role == RoleUser && m.content == "[Previous Conversation Summary]\n" + text && m.kind == "summary"
        && m.ts == now
    && m.toolCalls == [] && m.reasoning == "" && m.reasoningState == "" && m.usage.None?
  }

  // The old summary goes on as text when it is the whole first round; nothing else of the round does.
  ghost predicate HandsOn(head: seq<Message>, previous: string) {
    && (forall text, now :: head == [SummaryMessage(text, now)] ==> previous == text)
    && (|head| == 1 && head[0].kind == "summary" && !(SUMMARY_PREFIX <= head[0].content) ==>
        previous == head[0].content)
    && (|head| != 1 || head[0].kind != "summary" ==> previous == "")
  }

  lemma PreviousHandsOn(head: seq<Message>)
    ensures HandsOn(head, PreviousSummary(head))
  {
    forall text, now | head == [SummaryMessage(text, now)] ensures PreviousSummary(head) == text {
      SummaryRoundTrip(text, now);
    }
  }

  // The model is shown the middle, and asked with the configured prompt, unless the hook says otherwise:
  // it may give another prompt, add lines as one user message behind the middle, or refuse.
  ghost predicate Shapes(b: ContextBudget, previous: string, shown: seq<Message>, request: Option<SummaryRequest>) {
    match b.compacting
    case None => request == Some(SummaryRequest(b.summarizerPrompt, previous, shown))
    case Some(hook) =>
      match hook(HookInput(b.sessionId, shown, if b.compactionModel != "" then b.compactionModel else b.model))
      case HookError(_) => request.None?
      case HookOutput(context, prompt) =>
        && request.Some? && request.value.previous == previous
        && (prompt != "" ==> request.value.prompt == prompt)
        && (prompt == "" ==> request.value.prompt == b.summarizerPrompt)
        && shown <= request.value.middle
        && (context == [] ==> request.value.middle == shown)
        && (context != [] ==>
              && |request.value.middle| == |shown| + 1
              && request.value.middle[|shown|] == PLAIN.(role := RoleUser, content := JoinLines(context)))
  }

  lemma HookShapes(b: ContextBudget, previous: string, shown: seq<Message>)
    ensures Shapes(b, previous, shown, ApplyCompactingHook(b, previous, shown))
  {
  }

  // The model is shown the middle with every strip applied and nothing kept, through the hook.
  ghost predicate IsRequest(platform: Platform, b: ContextBudget, previous: string, middle: seq<Message>,
        request: Option<SummaryRequest>) {
    exists shown :: Stripped(platform.codec, 0, 0, 0, middle, shown) && Shapes(b, previous, shown, request)
  }

  // The answer to the request from the model for compactions, or the session's if none is configured.
  ghost predicate Said(b: ContextBudget, request: SummaryRequest, answer: SummaryResult)
    requires b.summarize.Some?
  {
    && (b.compactionModel != "" ==>
          answer == b.summarize.value(b.compactionModel, request.prompt, request.previous, request.middle))
    && (b.compactionModel == "" ==>
          answer == b.summarize.value(b.model, request.prompt, request.previous, request.middle))
  }

  method AskForSummary(platform: Platform, b: ContextBudget, previous: string, middle: seq<Message>)
      returns (answer: SummaryResult, ghost request: Option<SummaryRequest>)
    requires b.summarize.Some?
    ensures IsRequest(platform, b, previous, middle, request)
    ensures request.None? ==> answer.SummaryError?
    ensures request.Some? ==> answer == Ask(b, request.value) && request.value.previous == previous
    ensures request.Some? ==> Said(b, request.value, answer)
    ensures answer.SummaryText? || Unanswered(b, request)
    ensures b.compacting.None? ==> request.Some?
  {
    var shown;
    ghost var stages;
    shown, stages := ApplyContextStrips(platform.codec, middle, 0, 0, 0);
    assert Stripped(platform.codec, 0, 0, 0, middle, shown);
    var asked := ApplyCompactingHook(b, previous, shown);
    HookShapes(b, previous, shown);
    request := asked;
    if asked.None? {
      return SummaryError("compacting hook failed"), request;
    }
    answer := Ask(b, asked.value);
  }

  ghost predicate Composed(head: seq<Message>, summary: Message, tail: seq<Message>, out: seq<Message>) {
    if |head| == 1 && head[0].kind == "summary" then out == [summary] + tail else out == head + [summary] + tail
  }

  lemma HeadComposes(head: seq<Message>, summary: Message, tail: seq<Message>)
    ensures Composed(head, summary, tail, KeptHead(head) + [summary] + tail)
  {
    assert [] + [summary] + tail == [summary] + tail;
  }

  // The rounds were divided and the model was to be asked about the middle.
  ghost predicate Tried(platform: Platform, b: ContextBudget, msgs: seq<Message>, keepRecent: nat, p: Picked,
        request: Option<SummaryRequest>) {
    var rounds := RoundsOf(msgs);
    && |rounds| > 1 + keepRecent
    && IsSelection(rounds[1..], keepRecent, b.TailBudget(platform).Joint(rounds[0]), b.Estimate(platform),
        platform.scale, p.tail, p.middle, p.cut)
    && exists previous :: HandsOn(rounds[0], previous) && IsRequest(platform, b, previous, p.middle, request)
  }

  // The text is the model's answer to a request about the middle that hands on the old summary.
  ghost predicate Answers(platform: Platform, b: ContextBudget, msgs: seq<Message>, p: Picked, usage: Usage,
        request: SummaryRequest) {
    && RoundsOf(msgs) != [] && b.summarize.Some?
    && HandsOn(RoundsOf(msgs)[0], request.previous)
    && IsRequest(platform, b, request.previous, p.middle, Some(request))
    && Said(b, request, SummaryText(p.text, usage))
  }

  // Why there is no summary: none is configured, there are too few rounds, or the hook or the model
  // failed.
  ghost predicate NoSummary(platform: Platform, b: ContextBudget, msgs: seq<Message>, keepRecent: nat) {
    || b.summarize.None? || |RoundsOf(msgs)| <= 1 + keepRecent
    || (exists p, request :: Tried(platform, b, msgs, keepRecent, p, request) && Unanswered(b, request))
  }

  ghost predicate Unanswered(b: ContextBudget, request: Option<SummaryRequest>)
    requires b.summarize.Some?
  {
    request.Some? ==> exists message :: Said(b, request.value, SummaryError(message))
  }

  lemma SummaryCarries(text: string, now: int)
    ensures CarriesSummary(SummaryMessage(text, now), text, now)
  {
  }

  method CompactWithSummary(platform: Platform, b: ContextBudget, msgs: seq<Message>, keepRecent: nat)
      returns (r: CompactionResult, ghost request: Option<SummaryRequest>, ghost picked: Picked)
    // either nothing happened, or the transcript is compacted around the model's text
    ensures r.summary.None? ==> r.out == msgs && r.usage == Usage(0, 0)
    ensures r.summary.Some? ==> IsCompacted(platform, b, msgs, keepRecent, picked, r)
    // the summary stems from one successful model call
    ensures request.Some? ==> b.summarize.Some?
    ensures r.summary.Some? <==> request.Some? && Ask(b, request.value).SummaryText?
    ensures r.summary.Some? ==> Ask(b, request.value) == SummaryText(picked.text, r.usage)
    ensures request.Some? ==> RoundsOf(msgs) != [] && request.value.previous == PreviousSummary(RoundsOf(msgs)[0])
    ensures r.summary.Some? ==> IsRequest(platform, b, PreviousSummary(RoundsOf(msgs)[0]), picked.middle, request)
    ensures request.Some? && r.summary.None? ==> r.err.Some?
    // the answer is the model's, and the old summary was handed on to it
    ensures request.Some? && r.summary.Some? ==> Said(b, request.value, SummaryText(picked.text, r.usage))
    ensures request.Some? ==> RoundsOf(msgs) != [] && HandsOn(RoundsOf(msgs)[0], request.value.previous)
    // the first round is kept unless it is that summary, the new one follows, and then the tail
    ensures r.summary.Some? ==> RoundsOf(msgs) != [] && Composed(RoundsOf(msgs)[0], r.summary.value, picked.tail, r.out)
    ensures r.summary.Some? ==> CarriesSummary(r.summary.value, picked.text, platform.now)
    // what went wrong is told; a lack of rounds is no error
    ensures b.summarize.None? ==> r.err.Some?
    ensures b.summarize.Some? && |RoundsOf(msgs)| <= 1 + keepRecent ==> r.err.None? && r.summary.None?
    ensures request.Some? && Ask(b, request.value).SummaryError? ==> r.err == Some(Ask(b, request.value).message)
    ensures r.summary.Some? ==> Answers(platform, b, msgs, picked, r.usage, request.value)
    ensures BlockStructured(msgs) && keepRecent >= 1 && r.summary.None? ==> NoSummary(platform, b, msgs, keepRecent)
    // on a block-structured transcript only the callbacks and a lack of rounds stand in the way
    ensures BlockStructured(msgs) && keepRecent >= 1 && |RoundsOf(msgs)| > 1 + keepRecent && b.summarize.Some?
            && b.compacting.None?
      ==> request.Some?
  {
    hide IsSelection, IsRequest, HeadIsSummary, PreviousSummary, KeptHead, PairedById, SummaryMessage, HandsOn,
        Unanswered, Said,
        Flatten, RoundsOf;
    request, picked := None, Picked("", [], [], Cut(0, []));
    var nothing := CompactionResult(msgs, None, Usage(0, 0), None);
    if b.summarize.None? {
      r := nothing.(err := Some("ContextBudget.Summarize is not configured, cannot summarize"));
      return;
    }
    var rounds := SplitRounds(msgs);
    if |rounds| <= 1 + keepRecent {
      r := nothing;
      return;
    }
    var head := rounds[0];
    var tail, middleCore;
    ghost var cut;
    tail, middleCore, cut := SelectTailByTokens(rounds[1..], keepRecent, b.TailBudget(platform).Joint(head),
        b.Estimate(platform), platform.scale);
    MiddleOfBlocks(msgs, keepRecent, cut, tail, middleCore);
    if |middleCore| == 0 {
      r := nothing;
      return;
    }
    var broken := ValidateToolPairing(middleCore);
    if broken.Some? {
      r := nothing.(err := Some("middle segment pairing is broken, cannot summarize safely"));
      return;
    }
    PreviousHandsOn(head);
    var answer;
    picked := Picked("", tail, middleCore, cut);
    answer, request := AskForSummary(platform, b, PreviousSummary(head), middleCore);
    assert Tried(platform, b, msgs, keepRecent, picked, request);
    match answer {
      case SummaryError(message) =>
        r := nothing.(err := Some(message));
      case SummaryText(t, usage) =>
        var summary := SummaryMessage(t, platform.now);
        picked := Picked(t, tail, middleCore, cut);
        SummaryCarries(t, platform.now);
        HeadComposes(head, summary, tail);
        r := CompactionResult(KeptHead(head) + [summary] + tail, Some(summary), usage, None);
    }
  }

  // With keepRecent >= 1 and more rounds than fit, the middle of a block-structured transcript is
  // never empty and always well paired: the two guards before the model call pass.
  lemma MiddleOfBlocks(msgs: seq<Message>, keepRecent: nat, cut: Cut, tail: seq<Message>, middle: seq<Message>)
    requires |RoundsOf(msgs)| > 1 + keepRecent
    requires ValidCut(RoundsOf(msgs)[1..], cut, tail, middle)
    requires keepRecent >= 1 ==> |Kept(RoundsOf(msgs)[1..], cut)| <= keepRecent
    ensures BlockStructured(msgs) && keepRecent >= 1 ==> middle != [] && PairedById(middle)
  {
    if BlockStructured(msgs) && keepRecent >= 1 {
      var rounds := RoundsOf(msgs)[1..];
      var earlier := rounds[..cut.start - |cut.fitted|];
      RoundsAreBlocks(msgs);
      FlattenRoundsOf(msgs);
      assert AllBlocks(earlier);
      FlattenBlocks(earlier);
      BlockStructuredIsPaired(middle);
      assert RoundsOf(msgs)[1] in RoundsOf(msgs);
    }
  }

  // ---------------------------------------------------------------- how large the result is

  // The summariser cuts its text to the character cap (a cap of at least 2).
  function SummaryTextOf(response: string, maxChars: int): (text: string)
    ensures |response| <= maxChars ==> text == response
    ensures |response| > maxChars >= 2 ==>
              |text| == maxChars + 22 && exists h :: 1 <= h < maxChars && text[..h] == response[..h]
  {
    TruncateHeadTail(response, maxChars, SUMMARY_CUT_MARKER)
  }

  lemma SummaryMarginal(cjk: Table, text: string, now: int, maxChars: int)
    requires maxChars >= 2 && |text| <= maxChars + |SUMMARY_CUT_MARKER|
    ensures Marginal(DefaultEstimator(cjk), [SummaryMessage(text, now)]) <= maxChars / 2 + ENVELOPE_PER_MSG_TOKENS + 27
  {
    var m := SummaryMessage(text, now);
    assert Args(m.toolCalls) == "";
    assert Text(m) == m.content;
    assert [m][1..] == [];
    assert AllText([m]) == m.content;
    assert CallCount([m]) == 0;
    MarginalIs(cjk, [m]);
    assert |m.content| == 32 + |text|;
    HalfBound(cjk, m.content);
  }

  lemma HalfBound(cjk: Table, s: string)
    ensures Tokens(cjk, s) <= |s| / 2
  {
  }

  ghost function Pieces(head: seq<Message>, summary: Message, kept: seq<seq<Message>>): seq<seq<Message>> {
    (if KeptHead(head) == [] then [] else [KeptHead(head)]) + [[summary]] + kept
  }

  lemma PiecesFlatten(head: seq<Message>, summary: Message, kept: seq<seq<Message>>)
    ensures Flatten(Pieces(head, summary, kept)) == KeptHead(head) + [summary] + Flatten(kept)
    ensures |Pieces(head, summary, kept)| <= |kept| + 2
  {
    var front := if KeptHead(head) == [] then [] else [KeptHead(head)];
    FlattenConcat(front + [[summary]], kept);
    FlattenConcat(front, [[summary]]);
    FlattenOne([summary]);
    FlattenOne(KeptHead(head));
  }

  lemma PiecesSum(e: Estimator, head: seq<Message>, summary: Message, kept: seq<seq<Message>>)
    requires head != []
    ensures MarginalSum(e, Pieces(head, summary, kept))
         == (if HeadIsSummary(head) then 0 else Marginal(e, head)) + Marginal(e, [summary]) + MarginalSum(e, kept)
  {
    var front := if KeptHead(head) == [] then [] else [KeptHead(head)];
    MarginalSumConcat(e, front + [[summary]], kept);
    MarginalSumConcat(e, front, [[summary]]);
    assert [[summary]][1..] == [];
    assert MarginalSum(e, [[summary]]) == Marginal(e, [summary]);
    assert front != [] ==> front[1..] == [] && MarginalSum(e, front) == Marginal(e, head);
  }

  // Everything the compacted request is made of stays within the window's four fifths, but for the
  // summary's prefix and cut marker.
  lemma PiecesFit(cjk: Table, t: TailBudget, head: seq<Message>, text: string, now: int, kept: seq<seq<Message>>)
    requires t.estimate == DefaultEstimator(cjk) && t.contextWindow > 0 && t.Joint(head) > 0 && head != []
    requires MarginalSum(t.estimate, kept) <= t.Joint(head)
    requires t.SummaryChars() >= 2 && |text| <= t.SummaryChars() + |SUMMARY_CUT_MARKER|
    ensures t.estimate([], t.system, t.tools)
              + MarginalSum(t.estimate, Pieces(head, SummaryMessage(text, now), kept)) <= t.Target() + 27
  {
    PiecesSum(t.estimate, head, SummaryMessage(text, now), kept);
    SummaryMarginal(cjk, text, now, t.SummaryChars());
    JointBudgetFits(t, head);
  }

  lemma SelectionFits(rounds: seq<seq<Message>>, maxTurns: nat, budget: int, e: Estimator, scale: Scaling,
                      tail: seq<Message>, middle: seq<Message>, cut: Cut)
    requires |rounds| > 1 && budget > 0 && Marginal(e, rounds[|rounds|-1]) <= budget
    requires IsSelection(rounds[1..], maxTurns, budget, e, scale, tail, middle, cut)
    ensures MarginalSum(e, Kept(rounds[1..], cut)) <= budget
    ensures tail == Flatten(Kept(rounds[1..], cut))
    ensures |Kept(rounds[1..], cut)| == |cut.fitted| + (|rounds| - 1 - cut.start)
  {
    assert rounds[1..][|rounds[1..]|-1] == rounds[|rounds|-1];
  }

  lemma PiecesBound(cjk: Table, pieces: seq<seq<Message>>, system: string, tools: seq<Tool>, limit: int, k: nat)
    requires DefaultEstimator(cjk)([], system, tools) + MarginalSum(DefaultEstimator(cjk), pieces) <= limit
    requires |pieces| + 1 <= k
    ensures DefaultEstimator(cjk)(Flatten(pieces), system, tools) <= limit + Slack(k)
  {
    RequestSlack(cjk, pieces, system, tools);
    SlackMonotone(|pieces| + 1, k);
  }

  // The joint budget is positive, the last round fits it, and the text obeys a cap of at least 2.
  ghost predicate RoomForTail(t: TailBudget, rounds: seq<seq<Message>>, text: string) {
    && rounds != [] && t.contextWindow > 0 && t.Joint(rounds[0]) > 0
    && Marginal(t.estimate, rounds[|rounds|-1]) <= t.Joint(rounds[0])
    && t.SummaryChars() >= 2 && |text| <= t.SummaryChars() + |SUMMARY_CUT_MARKER|
  }

  // The size bound: when the last round fits a positive joint budget, the compacted request
  // estimates to at most four fifths of the window, plus 27 tokens (the summary's prefix and cut
  // marker), plus the rounding slack of its pieces: the kept rounds, head, summary and system prompt.
  lemma CompactedFits(platform: Platform, b: ContextBudget, msgs: seq<Message>, keepRecent: nat, p: Picked,
        r: CompactionResult)
    requires IsCompacted(platform, b, msgs, keepRecent, p, r)
    requires b.estimateTokens.None? && RoomForTail(b.TailBudget(platform), RoundsOf(msgs), p.text)
    ensures DefaultEstimator(platform.cjk)(r.out, b.system, b.tools)
            <= b.contextWindow * 4 / 5 + 27 + Slack(|Kept(RoundsOf(msgs)[1..], p.cut)| + 3)
  {
    hide IsSelection, RoundsOf, RoomForTail, Slack;
    FlattenRoundsOf(msgs);
    SelectedFits(platform.cjk, b.TailBudget(platform), RoundsOf(msgs), keepRecent, platform.scale, platform.now, p);
  }

  // The cap as the command derives it from the window, and the text as the summariser cuts it: the
  // bound on the text is met whatever the model answers.
  lemma DerivedSummaryFits(contextWindow: int, configured: int, response: string)
    ensures DeriveSummaryMaxChars(contextWindow, configured) >= 2
            <==> if configured > 0 then configured >= 2
                else contextWindow <= 0 || contextWindow >= 2 * SUMMARY_CHARS_PER_WINDOW_RATIO
    ensures DeriveSummaryMaxChars(contextWindow, configured) >= 2 ==>
              |SummaryTextOf(response, DeriveSummaryMaxChars(contextWindow, configured))|
              <= DeriveSummaryMaxChars(contextWindow, configured) + |SUMMARY_CUT_MARKER|
  {
    if DeriveSummaryMaxChars(contextWindow, configured) >= 2 {
      var h, t := TruncateHeadTailBounds(response, DeriveSummaryMaxChars(contextWindow, configured),
          SUMMARY_CUT_MARKER);
    }
  }

  lemma DerivedCompactionFits(platform: Platform, b: ContextBudget, configured: int, response: string,
                              msgs: seq<Message>, keepRecent: nat, p: Picked, r: CompactionResult)
    requires IsCompacted(platform, b, msgs, keepRecent, p, r) && b.estimateTokens.None?
    requires b.contextWindow > 0 && b.summaryMaxChars == DeriveSummaryMaxChars(b.contextWindow, configured) >= 2
    requires p.text == SummaryTextOf(response, b.summaryMaxChars)
    requires var t, rounds := b.TailBudget(platform), RoundsOf(msgs);
             t.Joint(rounds[0]) > 0 && Marginal(t.estimate, rounds[|rounds|-1]) <= t.Joint(rounds[0])
    ensures DefaultEstimator(platform.cjk)(r.out, b.system, b.tools)
            <= b.contextWindow * 4 / 5 + 27 + Slack(|Kept(RoundsOf(msgs)[1..], p.cut)| + 3)
  {
    hide IsSelection, RoundsOf, Marginal, Slack, DeriveSummaryMaxChars, SummaryTextOf;
    DerivedSummaryFits(b.contextWindow, configured, response);
    CompactedFits(platform, b, msgs, keepRecent, p, r);
  }

  lemma SelectedFits(cjk: Table, t: TailBudget, rounds: seq<seq<Message>>, keepRecent: nat, scale: Scaling, now: int,
        p: Picked)
    requires |rounds| > 1 && forall r :: r in rounds ==> r != []
    requires t.estimate == DefaultEstimator(cjk) && RoomForTail(t, rounds, p.text)
    requires IsSelection(rounds[1..], keepRecent, t.Joint(rounds[0]), t.estimate, scale, p.tail, p.middle, p.cut)
    ensures DefaultEstimator(cjk)(KeptHead(rounds[0]) + [SummaryMessage(p.text, now)] + p.tail, t.system, t.tools)
            <= t.Target() + 27 + Slack(|Kept(rounds[1..], p.cut)| + 3)
  {
    hide IsSelection, Flatten, MarginalSum, Request, Marginal, SummaryMessage;
    assert rounds[0] in rounds;
    SelectionFits(rounds, keepRecent, t.Joint(rounds[0]), t.estimate, scale, p.tail, p.middle, p.cut);
    KeptFits(cjk, t, rounds[0], p.text, now, Kept(rounds[1..], p.cut));
  }

  lemma KeptFits(cjk: Table, t: TailBudget, head: seq<Message>, text: string, now: int, kept: seq<seq<Message>>)
    requires t.estimate == DefaultEstimator(cjk) && t.contextWindow > 0 && t.Joint(head) > 0 && head != []
    requires MarginalSum(t.estimate, kept) <= t.Joint(head)
    requires t.SummaryChars() >= 2 && |text| <= t.SummaryChars() + |SUMMARY_CUT_MARKER|
    ensures var k := |kept| + 3;
            DefaultEstimator(cjk)(KeptHead(head) + [SummaryMessage(text, now)] + Flatten(kept), t.system, t.tools)
            <= t.Target() + 27 + Slack(k)
  {
    var summary := SummaryMessage(text, now);
    PiecesFit(cjk, t, head, text, now, kept);
    PiecesFlatten(head, summary, kept);
    PiecesBound(cjk, Pieces(head, summary, kept), t.system, t.tools, t.Target() + 27, |kept| + 3);
  }

  lemma SlackMonotone(a: nat, b: nat)
    requires a <= b
    ensures Slack(a) <= Slack(b)
  {
  }
}
