/** The default hooks, and that they meet what the loop assumes of its hooks
    (miniagent/policy/loop_hooks_default.go, miniagent/policy/history_util.go). */
module Policy {
  import opened Transcript
  import opened Estimate
  import opened Rounds
  import opened Views
  import opened Compaction
  import opened FitHistory
  import opened Loop
  import opened Run

  // ---------------------------------------------------------------- OnLLMError

  const CONTEXT_TRIM_TOOL_CHARS := 2000
  const TRIM_MARKER := "\U{2026}[context_trim]"

  // strings.TrimSpace is a Unicode table again: a parameter.
  type Trimming = string -> string

  function TrimMessage(m: Message, limit: int, trim: Trimming): Message {
    var bare := m.(reasoning := "", reasoningState := "");
    if m.role == RoleTool then bare.(content := Truncate(trim(m.content), limit, TRIM_MARKER)) else bare
  }

  function TrimLimit(configured: int): int {
    if configured <= 0 then CONTEXT_TRIM_TOOL_CHARS else configured
  }

  function TrimHistory(msgs: seq<Message>, configured: int, trim: Trimming): (r: seq<Message>)
    ensures |r| == |msgs|
  {
    seq(|msgs|, i requires 0 <= i < |msgs| => TrimMessage(msgs[i], TrimLimit(configured), trim))
  }

  method TrimHistoryForContext(msgs: seq<Message>, configured: int, trim: Trimming) returns (out: seq<Message>)
    ensures out == TrimHistory(msgs, configured, trim)
  {
    var limit := if configured <= 0 then CONTEXT_TRIM_TOOL_CHARS else configured;
    out := msgs;
    for i := 0 to |out|
      invariant |out| == |msgs|
      invariant forall k :: 0 <= k < i ==> out[k] == TrimMessage(msgs[k], limit, trim)
      invariant forall k :: i <= k < |msgs| ==> out[k] == msgs[k]
    {
      out := out[i := out[i].(reasoning := "", reasoningState := "")];
      if out[i].role == RoleTool {
        out := out[i := out[i].(content := Truncate(trim(out[i].content), limit, TRIM_MARKER))];
      }
    }
  }

  // Trimming deletes no message and bounds every tool result; a sound transcript stays sound.
  lemma TrimmedHistory(msgs: seq<Message>, configured: int, trim: Trimming)
    ensures SameShape(msgs, TrimHistory(msgs, configured, trim))
    ensures Sound(msgs) ==> Sound(TrimHistory(msgs, configured, trim))
    ensures forall i :: 0 <= i < |msgs| && msgs[i].role == RoleTool ==>
              |TrimHistory(msgs, configured, trim)[i].content| <= TrimLimit(configured) + |TRIM_MARKER|
    // reasoning goes everywhere; a tool result is trimmed and cut to 2000 characters unless configured
    ensures var limit := if configured <= 0 then 2000 else configured;
            forall i :: 0 <= i < |msgs| ==>
              var bare := msgs[i].(reasoning := "", reasoningState := "");
              TrimHistory(msgs, configured, trim)[i]
              == if msgs[i].role == RoleTool
                 then bare.(content := Truncate(trim(msgs[i].content), limit, "\U{2026}[context_trim]")) else bare
  {
    var out := TrimHistory(msgs, configured, trim);
    if Sound(msgs) {
      SameShapeKeepsBlocks(msgs, out);
      forall m | m in out && m.IsSummary() ensures m.role == RoleUser {
        var i :| 0 <= i < |out| && out[i] == m;
        assert msgs[i] in msgs;
      }
    }
  }

  // ---------------------------------------------------------------- OnBudget

  function ResponseText(resp: Response): string {
    resp.text + resp.reasoning + resp.reasoningState + Args(resp.toolCalls)
  }

  method EstimateResponseTokens(cjk: Table, resp: Response) returns (tokens: nat)
    ensures tokens == Tokens(cjk, ResponseText(resp))
    ensures tokens == Tokens(cjk, resp.text + resp.reasoning + resp.reasoningState + Args(resp.toolCalls))
  {
    var asMessage := PLAIN.(content := resp.text, reasoning := resp.reasoning, reasoningState := resp.reasoningState,
        toolCalls := resp.toolCalls);
    var nonCJK, wide := CountMessage(cjk, asMessage);
    tokens := nonCJK / 4 + wide / 2;
  }

  datatype BudgetPolicy = BudgetPolicy(cjk: Table, system: string, tools: seq<Tool>, maxTotalTokens: int) {
    // Each side that came back as zero is estimated locally; the request side reuses the compaction
    // pass's estimate when there is one.
    function Supplemented(input: BudgetInput, total: Usage): Usage {
      var u := input.resp.usage;
      Usage(total.inputTokens + (if u.inputTokens != 0 then 0
                                 else if input.preEstimate > 0 then input.preEstimate
                                 else Request(cjk, input.toSend, system, tools)),
            total.outputTokens + (if u.outputTokens != 0 then 0 else Tokens(cjk, ResponseText(input.resp))))
    }

    function Decide(input: BudgetInput, total: Usage): BudgetSignal {
      var t := Supplemented(input, total);
      BudgetSignal(t, if maxTotalTokens > 0 && Spent(t) > maxTotalTokens then Fail("miniagent: token budget exceeded")
          else Proceed)
    }

    // The closure of NewDefaultOnBudget, adding into the shared total.
    method OnBudget(input: BudgetInput, before: Usage) returns (total: Usage, signal: Signal)
      ensures BudgetSignal(total, signal) == Decide(input, before)
      // a side that the answer reports is taken as reported, a zero side is estimated
      ensures var reported := input.resp.usage;
              && (reported.inputTokens != 0 ==> total.inputTokens == before.inputTokens)
              && (reported.inputTokens == 0 && input.preEstimate > 0 ==>
                    total.inputTokens == before.inputTokens + input.preEstimate)
              && (reported.inputTokens == 0 && input.preEstimate <= 0 ==>
                    total.inputTokens == before.inputTokens + Request(cjk, input.toSend, system, tools))
              && total.outputTokens == before.outputTokens
                  + if reported.outputTokens != 0 then 0 else Tokens(cjk, ResponseText(input.resp))
      ensures signal.Proceed? <==> maxTotalTokens <= 0 || total.inputTokens + total.outputTokens <= maxTotalTokens
    {
      total := before;
      var inZero := input.resp.usage.inputTokens == 0;
      var outZero := input.resp.usage.outputTokens == 0;
      if inZero || outZero {
        if inZero {
          var estimate := input.preEstimate;
          if estimate <= 0 {
            estimate := EstimateTokens(cjk, input.toSend, system, tools);
          }
          total := total.(inputTokens := total.inputTokens + estimate);
        }
        if outZero {
          var estimate := EstimateResponseTokens(cjk, input.resp);
          total := total.(outputTokens := total.outputTokens + estimate);
        }
      }
      signal := if maxTotalTokens > 0 && total.inputTokens + total.outputTokens > maxTotalTokens
                then Fail("miniagent: token budget exceeded") else Proceed;
    }
  }

  // ---------------------------------------------------------------- the assembled hooks

  const CONTEXT_LENGTH := "miniagent: context length exceeded"

  function OnLLMError(configured: int, trim: Trimming): (nat, seq<Message>, string) -> RecoverSignal {
    (step, msgs, e) => if e == CONTEXT_LENGTH then Recover(Some(TrimHistory(msgs, configured, trim)), true)
        else Recover(None, false)
  }

  // Only a context-length error is tried again, on the trimmed transcript.
  lemma RetriesOnOverflowOnly(configured: int, trim: Trimming, step: nat, msgs: seq<Message>, e: string)
    ensures OnLLMError(configured, trim)(step, msgs, e)
            == if e == "miniagent: context length exceeded"
                then Recover(Some(TrimHistory(msgs, configured, trim)), true)
               else Recover(None, false)
  {
  }

  function OnBudget(policy: BudgetPolicy): (nat, BudgetInput, Usage) -> BudgetSignal {
    (step, input, total) => policy.Decide(input, total)
  }

  function AsSignal(r: BeforeResult): (signal: BeforeSignal)
    ensures if r.BeforeOk? then signal == BeforeOutput(r.output) else signal == BeforeFail(r.message)
  {
    match r
    case BeforeOk(output) => BeforeOutput(output)
    case BeforeError(message) => BeforeFail(message)
  }

  // A hook that answers every sound transcript as the compaction does.
  ghost predicate IsCompactionHook(platform: Platform, budget: ContextBudget, opts: CompactionOptions,
                                   hook: (nat, seq<Message>) -> BeforeSignal) {
    forall step, msgs :: Sound(msgs) ==> HookAnswers(platform, budget, opts, msgs, hook(step, msgs))
  }

  ghost predicate HookAnswers(platform: Platform, budget: ContextBudget, opts: CompactionOptions, msgs: seq<Message>,
        signal: BeforeSignal) {
    exists r :: BeforePromise(platform, budget, opts, msgs, r) && signal == AsSignal(r)
  }

  // The hooks as the command assembles them: compaction if it is on, the two default policies, and
  // any hooks for output, confirmation and shaping.
  ghost predicate IsAssembled(hooks: Hooks, platform: Platform, budget: ContextBudget, opts: CompactionOptions,
                              policy: BudgetPolicy, configured: int, trim: Trimming) {
    && (hooks.beforeLLM.Some? ==> IsCompactionHook(platform, budget, opts, hooks.beforeLLM.value))
    && hooks.afterLLM.None?
    && hooks.onLLMError == Some(OnLLMError(configured, trim))
    && hooks.onBudget == Some(OnBudget(policy))
  }

  // With them the loop's assumptions hold: compaction and recovery keep transcripts sound, and a
  // positive limit is guarded.
  lemma DefaultsAreSafe(hooks: Hooks, platform: Platform, budget: ContextBudget, opts: CompactionOptions,
                        policy: BudgetPolicy, configured: int, trim: Trimming)
    requires IsAssembled(hooks, platform, budget, opts, policy, configured, trim)
    ensures KeepsSound(hooks) && ShowsPaired(hooks)
    ensures policy.maxTotalTokens > 0 ==> Guards(hooks, policy.maxTotalTokens)
  {
    forall step, msgs, e | Sound(msgs) && hooks.onLLMError.value(step, msgs, e).Recover?
        && hooks.onLLMError.value(step, msgs, e).msgs.Some?
      ensures Sound(hooks.onLLMError.value(step, msgs, e).msgs.value)
    {
      TrimmedHistory(msgs, configured, trim);
    }
    if hooks.beforeLLM.Some? {
      forall step, msgs | Sound(msgs) && hooks.beforeLLM.value(step, msgs).BeforeOutput?
        ensures KeepsBlocks(msgs, hooks.beforeLLM.value(step, msgs).output)
      {
        assert HookAnswers(platform, budget, opts, msgs, hooks.beforeLLM.value(step, msgs));
      }
      forall step, msgs | Sound(msgs) ensures SignalPaired(hooks.beforeLLM.value(step, msgs)) {
        HookPaired(platform, budget, opts, msgs, hooks.beforeLLM.value(step, msgs));
      }
    }
  }

  lemma HookPaired(platform: Platform, budget: ContextBudget, opts: CompactionOptions, msgs: seq<Message>,
        signal: BeforeSignal)
    requires HookAnswers(platform, budget, opts, msgs, signal)
    ensures SignalPaired(signal)
  {
    if signal.BeforeOutput? {
      assert StepPromise(platform, budget, msgs, signal.output);
      BlockStructuredIsPaired(signal.output.view);
    }
  }

  // What a step sends: it ends with the transcript's last round, and fits the window once compacted.
  lemma StepShowsLastRound(platform: Platform, budget: ContextBudget, opts: CompactionOptions,
                           hook: (nat, seq<Message>) -> BeforeSignal, step: nat, s: State, out: StepOutput)
    requires IsCompactionHook(platform, budget, opts, hook) && Sound(s.msgs) && hook(step, s.msgs) == BeforeOutput(out)
    ensures BlockStructured(Sent(s, out)) && PairedById(Sent(s, out))
    ensures EndKept(platform, budget, s.msgs, GivenToStrips(budget, BarrierOf(s.msgs), out.commit), out.compacted,
              Sent(s, out))
    ensures out.commit && s.msgs != [] ==>
              budget.Estimate(platform)(Sent(s, out), budget.system, budget.tools) <= budget.contextWindow * 4 / 5
  {
    assert HookAnswers(platform, budget, opts, s.msgs, hook(step, s.msgs));
    assert StepPromise(platform, budget, s.msgs, out);
    BlockStructuredIsPaired(Sent(s, out));
  }

  // The assembled run: whatever the model, the tools and the other callbacks do, the transcript it
  // returns is one the endpoint accepts, and an answer without error is within the token limit.
  method RunAssembled(w: World, hooks: Hooks, cfg: LoopConfig, userPrompt: string,
                      ghost platform: Platform, ghost budget: ContextBudget, ghost opts: CompactionOptions,
                      ghost policy: BudgetPolicy, ghost configured: int, ghost trim: Trimming)
      returns (r: RunResult, ghost sent: seq<seq<Message>>)
    requires IsAssembled(hooks, platform, budget, opts, policy, configured, trim)
    requires Sound(cfg.history) && DistinctCalls(w, IterLimit(cfg))
    ensures BlockStructured(r.messages) && PairedById(r.messages)
    ensures r.err != Some("run panicked") ==> BlockStructured(r.newMessages)
    ensures r.llmRequests <= 2 * IterLimit(cfg) + 2
    // the first request is what compaction makes of the history and the prompt
    ensures sent != [] ==> exists m ::
              IsPrompt(m, userPrompt, w.clock(0)) && sent[0] == ViewOf(hooks, 1, cfg.history + [m])
    // every request it sent is well paired too
    ensures |sent| == r.llmRequests && AllPaired(sent)
    ensures r.finish.FinishStop? ==> EndsWithAnswer(r.messages, r.text)
    // and it reports what the model said to its last request
    ensures r.finish.FinishStop? ==>
              && sent != []
              && IsAnswer(w.llm(r.steps, |sent| - 1, cfg.thinking && !r.thinkingDowngraded, sent[|sent|-1]), w, cfg, r)
    ensures policy.maxTotalTokens > 0 && r.err.None? ==> Spent(r.usage) <= policy.maxTotalTokens
  {
    DefaultsAreSafe(hooks, platform, budget, opts, policy, configured, trim);
    var calls;
    ghost var answers;
    r, calls, sent, answers := Run.Run(w, hooks, cfg, userPrompt, policy.maxTotalTokens);
  }
}
