/** A whole run of the loop: whatever the oracle does, on every way out the transcript is block-structured,
    requests and steps are counted right, and a run without error stays within its budget
    (Run with summarizeAtLimit, captureDowngrade and the recovering defer, miniagent/loop.go). */
module Run {
  import opened Transcript
  import opened FitHistory
  import opened Loop

  datatype Finish = NoFinish | FinishStop | FinishMaxIterations

  // The loop's locals.  `calls` counts completed callLLMWithDowngrade calls; `sent` is history, the
  // messages of every request so far.
  datatype State = State(
    msgs: seq<Message>, newMsgs: seq<Message>, total: Usage, requests: nat, calls: nat,
    thinking: bool, downgraded: bool, compacted: bool, sent: seq<seq<Message>>)

  // How a step (or the run) ends; Crash is a hook panic on its way to the recovering defer.
  datatype Exit =
    | Continue
    | Return(steps: nat, text: string, finish: Finish, truncated: bool, err: Option<string>)
    | Crash

  function Failed(steps: nat, message: string): Exit {
    Return(steps, "", NoFinish, false, Some(message))
  }

  // ---------------------------------------------------------------- what is assumed of the callbacks

  ghost predicate Sound(msgs: seq<Message>) {
    BlockStructured(msgs) && SummariesAreUser(msgs)
  }

  ghost predicate KeepsSound(hooks: Hooks) {
    && (hooks.beforeLLM.Some? ==> forall step, msgs ::
          Sound(msgs) && hooks.beforeLLM.value(step, msgs).BeforeOutput? ==>
            KeepsBlocks(msgs, hooks.beforeLLM.value(step, msgs).output))
    && (hooks.onLLMError.Some? ==> forall step, msgs, e ::
          Sound(msgs) && hooks.onLLMError.value(step, msgs, e).Recover?
              && hooks.onLLMError.value(step, msgs, e).msgs.Some? ==>
            Sound(hooks.onLLMError.value(step, msgs, e).msgs.value))
  }

  // The calls of an answer have distinct ids, those synthesised for its own step included.
  ghost predicate DistinctCalls(w: World, steps: nat) {
    forall step: nat, n, thinking, msgs :: 1 <= step <= steps && w.llm(step, n, thinking, msgs).Answered? ==>
      DistinctIds(Named(w.llm(step, n, thinking, msgs).resp.toolCalls, step))
  }

  // A BeforeLLM hook whose views the endpoint accepts.
  ghost predicate ShowsPaired(hooks: Hooks) {
    hooks.beforeLLM.Some? ==> forall step, msgs :: Sound(msgs) ==> SignalPaired(hooks.beforeLLM.value(step, msgs))
  }

  ghost predicate SignalPaired(signal: BeforeSignal) {
    signal.BeforeOutput? && signal.output.view != [] ==> PairedById(signal.output.view)
  }

  ghost predicate AllPaired(sent: seq<seq<Message>>) {
    forall i :: 0 <= i < |sent| ==> PairedById(sent[i])
  }

  function Spent(u: Usage): int { u.inputTokens + u.outputTokens }

  // A budget hook that lets nothing above the limit pass.
  ghost predicate Guards(hooks: Hooks, limit: int) {
    hooks.onBudget.Some? && forall step, input, total ::
      hooks.onBudget.value(step, input, total).signal.Proceed? ==>
          Spent(hooks.onBudget.value(step, input, total).total) <= limit
  }

  // ---------------------------------------------------------------- invariants

  ghost predicate Good(s: State) {
    && Sound(s.msgs)
    && s.requests == s.calls + (if s.downgraded then 1 else 0)
    && |s.sent| == s.requests
    && (s.downgraded ==> !s.thinking)
  }

  // Without the two hooks that rewrite the transcript, it is the history followed by the new messages.
  ghost predicate Aligned(hooks: Hooks, history: seq<Message>, s: State) {
    hooks.beforeLLM.None? && hooks.onLLMError.None? ==> s.msgs == history + s.newMsgs
  }

  lemma AppendBlock(msgs: seq<Message>, block: seq<Message>)
    requires Sound(msgs) && IsBlock(block) && forall m :: m in block ==> !m.IsSummary()
    ensures Sound(msgs + block)
  {
    BlockIsStructured(block);
    BlockStructuredConcat(msgs, block);
  }

  lemma PlainBlock(m: Message)
    requires m.role != RoleTool && m.toolCalls == []
    ensures IsBlock([m])
  {
  }

  // appendMsg for a message that carries no calls.
  method Append(s: State, m: Message, now: int, ghost hooks: Hooks, ghost history: seq<Message>) returns (s': State)
    requires m.role != RoleTool && m.toolCalls == [] && m.kind == "" && Good(s)
    ensures s' == s.(msgs := s.msgs + [Stamp(m, now)], newMsgs := s.newMsgs + [Stamp(m, now)])
    ensures Good(s') && (Sound(s.newMsgs) ==> Sound(s'.newMsgs))
    ensures Aligned(hooks, history, s) ==> Aligned(hooks, history, s')
  {
    var stamped := Stamp(m, now);
    s' := s.(msgs := s.msgs + [stamped], newMsgs := s.newMsgs + [stamped]);
    assert |KIND_SUMMARY| == 7;
    PlainBlock(stamped);
    AppendBlock(s.msgs, [stamped]);
    if Sound(s.newMsgs) {
      AppendBlock(s.newMsgs, [stamped]);
    }
  }

  // ---------------------------------------------------------------- one model call

  // The two cases worth a second try without thinking: the endpoint rejects it, or it used up the output.
  predicate Burned(o: LLMOutcome) {
    match o
    case ThinkingUnsupported => true
    case Answered(r) => r.finishReason == "length" && r.text == "" && (r.reasoning != "" || r.reasoningState != "")
    case CallFailed(_) => false
  }

  ghost predicate ModelSaid(w: World, step: nat, msgs: seq<Message>, answer: LLMOutcome) {
    exists n, thinking :: answer == w.llm(step, n, thinking, msgs)
  }

  predicate Downgrades(w: World, step: nat, s: State, msgs: seq<Message>) {
    s.thinking && Burned(w.llm(step, s.requests, s.thinking, msgs))
  }

  function Answer(w: World, step: nat, s: State, msgs: seq<Message>): LLMOutcome {
    if Downgrades(w, step, s, msgs) then w.llm(step, s.requests + 1, false, msgs)
        else w.llm(step, s.requests, s.thinking, msgs)
  }

  function Called(w: World, step: nat, s: State, msgs: seq<Message>): State {
    if Downgrades(w, step, s, msgs)
    then s.(requests := s.requests + 2, calls := s.calls + 1, thinking := false, downgraded := true,
            sent := s.sent + [msgs] + [msgs])
    else s.(requests := s.requests + 1, calls := s.calls + 1, sent := s.sent + [msgs])
  }

  // One request with these messages, or two of which the second does without thinking; thinking stays
  // off from then on.
  ghost predicate Sends(s: State, s': State, msgs: seq<Message>) {
    && s'.calls == s.calls + 1 && s' == s.(requests := s'.requests, calls := s'.calls, thinking := s'.thinking,
                                           downgraded := s'.downgraded, sent := s'.sent)
    && ((s'.sent == s.sent + [msgs] && s'.thinking == s.thinking && s'.downgraded == s.downgraded)
        || (s'.sent == s.sent + [msgs] + [msgs] && s.thinking && !s'.thinking && s'.downgraded))
  }

  // What the model said to the last request.
  function Received(w: World, step: nat, s: State): LLMOutcome
    requires s.sent != []
  {
    w.llm(step, |s.sent| - 1, s.thinking, s.sent[|s.sent|-1])
  }

  lemma CalledSends(w: World, step: nat, s: State, msgs: seq<Message>)
    ensures Sends(s, Called(w, step, s, msgs), msgs)
    ensures Good(s) ==> Good(Called(w, step, s, msgs))
    ensures Good(s) ==> Answer(w, step, s, msgs) == Received(w, step, Called(w, step, s, msgs))
    ensures PairedById(msgs) && AllPaired(s.sent) ==> AllPaired(Called(w, step, s, msgs).sent)
  {
    hide Sound, PairedById;
  }

  // The answer was spoilt by thinking: the endpoint rejected it, or it used up the output.
  predicate Spoilt(first: LLMOutcome) {
    || first.ThinkingUnsupported?
    || (first.Answered? && first.resp.finishReason == "length" && first.resp.text == ""
        && !(first.resp.reasoning == "" && first.resp.reasoningState == ""))
  }

  lemma SecondIffSpoilt(w: World, step: nat, s: State, msgs: seq<Message>)
    ensures |Called(w, step, s, msgs).sent| == |s.sent| + 2
            <==> s.thinking && Spoilt(w.llm(step, s.requests, s.thinking, msgs))
  {
  }

  // callLLMWithDowngrade with its bookkeeping: at most one extra request, and then never thinking again.
  method CallLLM(w: World, step: nat, s: State, msgs: seq<Message>) returns (answer: LLMOutcome, s': State)
    ensures answer == Answer(w, step, s, msgs) && s' == Called(w, step, s, msgs)
    ensures Good(s) ==> Good(s')
    ensures ModelSaid(w, step, msgs, answer)
    ensures PairedById(msgs) && AllPaired(s.sent) ==> AllPaired(s'.sent)
    // what it sends, and that its answer is the last one received
    ensures Sends(s, s', msgs) && (Good(s) ==> answer == Received(w, step, s'))
    // a second request is made exactly if thinking has spoilt the first
    ensures |s'.sent| == |s.sent| + 2 <==> s.thinking && Spoilt(w.llm(step, s.requests, s.thinking, msgs))
  {
    CalledSends(w, step, s, msgs);
    SecondIffSpoilt(w, step, s, msgs);
    answer, s' := CallOnceOrTwice(w, step, s, msgs);
  }

  method CallOnceOrTwice(w: World, step: nat, s: State, msgs: seq<Message>) returns (answer: LLMOutcome, s': State)
    ensures answer == Answer(w, step, s, msgs) && s' == Called(w, step, s, msgs)
    ensures ModelSaid(w, step, msgs, answer)
  {
    answer := w.llm(step, s.requests, s.thinking, msgs);
    var requests, downgraded, sent := 1, false, s.sent + [msgs];
    if answer.ThinkingUnsupported? && s.thinking {
      answer := w.llm(step, s.requests + 1, false, msgs);
      downgraded, requests, sent := true, 2, sent + [msgs];
    }
    if answer.Answered? && answer.resp.finishReason == "length" && answer.resp.text == ""
       && (answer.resp.reasoning != "" || answer.resp.reasoningState != "") && !downgraded && s.thinking {
      answer := w.llm(step, s.requests + 1, false, msgs);
      downgraded, requests, sent := true, requests + 1, sent + [msgs];
    }
    s' := s.(requests := s.requests + requests, calls := s.calls + 1, sent := sent);
    if downgraded {
      s' := s'.(thinking := false, downgraded := true);
    }
  }

  // ---------------------------------------------------------------- BeforeLLM

  // An empty view never replaces the transcript.
  function Sent(s: State, out: StepOutput): seq<Message> {
    if out.view == [] then s.msgs else out.view
  }

  function Plus(a: Usage, b: Usage): Usage {
    Usage(a.inputTokens + b.inputTokens, a.outputTokens + b.outputTokens)
  }

  function Folded(s: State, out: StepOutput): State {
    s.(msgs := if out.commit then Sent(s, out) else s.msgs,
       newMsgs := if out.persist == [] then s.newMsgs else out.persist + WithoutKinds(s.newMsgs, KindsOf(out.persist)),
       total := if out.extraUsage.Some? then Plus(s.total, out.extraUsage.value) else s.total,
       compacted := s.compacted || out.compacted)
  }

  // What folding an output in means: the view is sent unless it is empty, and becomes the transcript if
  // committed; persisted messages replace those of their kinds; usage is added; the flag is raised.
  ghost predicate FoldsIn(s: State, out: StepOutput, toSend: seq<Message>, s': State) {
    && (out.view != [] ==> toSend == out.view) && (out.view == [] ==> toSend == s.msgs)
    && s'.msgs == (if out.commit && out.view != [] then out.view else s.msgs)
    && (if out.persist == [] then s'.newMsgs == s.newMsgs else Merges(s.newMsgs, out.persist, s'.newMsgs))
    && s'.total.inputTokens == s.total.inputTokens
        + (if out.extraUsage.Some? then out.extraUsage.value.inputTokens else 0)
    && s'.total.outputTokens == s.total.outputTokens
        + (if out.extraUsage.Some? then out.extraUsage.value.outputTokens else 0)
    && (s'.compacted <==> s.compacted || out.compacted)
  }

  method ApplyBeforeLLM(hooks: Hooks, step: nat, s: State, ghost history: seq<Message>)
      returns (toSend: seq<Message>, viewEstimate: int, s': State, signal: Signal)
    requires KeepsSound(hooks) && Good(s) && Sound(s.newMsgs)
    ensures Good(s') && Sound(s'.newMsgs)
    ensures Aligned(hooks, history, s) ==> Aligned(hooks, history, s')
    ensures hooks.beforeLLM.None? ==> s' == s && toSend == s.msgs && signal.Proceed?
    ensures s'.requests == s.requests && s'.calls == s.calls && s'.thinking == s.thinking
    ensures s'.downgraded == s.downgraded && s'.sent == s.sent
    ensures ShowsPaired(hooks) ==> PairedById(toSend)
    // an output is folded in as a whole, a failure changes nothing
    ensures hooks.beforeLLM.Some? ==> match hooks.beforeLLM.value(step, s.msgs)
              case BeforeOutput(out) => s' == Folded(s, out) && toSend == Sent(s, out) && FoldsIn(s, out, toSend, s')
                && viewEstimate == out.viewEstimate && signal.Proceed?
              case BeforeFail(message) => s' == s && signal == Fail(message)
              case BeforePanic => s' == s && signal == Panic
  {
    toSend, viewEstimate, s', signal := s.msgs, 0, s, Proceed;
    BlockStructuredIsPaired(s.msgs);
    if hooks.beforeLLM.None? {
      return;
    }
    assert ShowsPaired(hooks) ==> SignalPaired(hooks.beforeLLM.value(step, s.msgs));
    match hooks.beforeLLM.value(step, s.msgs) {
      case BeforeFail(message) => signal := Fail(message);
      case BeforePanic => signal := Panic;
      case BeforeOutput(out) =>
        FoldedGood(s, out);
        toSend, s' := FoldIn(s, out);
        viewEstimate := out.viewEstimate;
    }
  }

  method FoldIn(s: State, out: StepOutput) returns (toSend: seq<Message>, s': State)
    ensures toSend == Sent(s, out) && s' == Folded(s, out) && FoldsIn(s, out, toSend, s')
  {
    hide Merges, WithoutKinds, KindsOf;
    toSend, s' := s.msgs, s;
    if |out.view| != 0 {
      toSend := out.view;
    }
    if out.commit {
      s' := s'.(msgs := toSend);
    }
    if |out.persist| > 0 {
      var merged := MergePersisted(s.newMsgs, out.persist);
      s' := s'.(newMsgs := merged);
    }
    if out.extraUsage.Some? {
      var u := out.extraUsage.value;
      s' := s'.(total := Usage(s.total.inputTokens + u.inputTokens, s.total.outputTokens + u.outputTokens));
    }
    if out.compacted {
      s' := s'.(compacted := true);
    }
  }

  lemma FoldedGood(s: State, out: StepOutput)
    requires Good(s) && Sound(s.newMsgs) && KeepsBlocks(s.msgs, out)
    ensures Good(Folded(s, out)) && Sound(Folded(s, out).newMsgs)
  {
    if out.persist != [] {
      MergeKeepsSound(s.newMsgs, out.persist, Folded(s, out).newMsgs);
    }
  }

  lemma MergeKeepsSound(newMsgs: seq<Message>, persist: seq<Message>, merged: seq<Message>)
    requires Sound(newMsgs) && merged == persist + WithoutKinds(newMsgs, KindsOf(persist))
    requires forall m :: m in persist ==> m.IsSummary() && m.role == RoleUser && m.toolCalls == []
    ensures Sound(merged)
  {
    var kinds, rest := KindsOf(persist), WithoutKinds(newMsgs, KindsOf(persist));
    forall m | m in newMsgs && Replaced(m, kinds) ensures m.role == RoleUser {
      var p :| p in persist && p.kind == m.kind;
      assert m.IsSummary();
    }
    WithoutSummaries(newMsgs, kinds);
    WithoutKindsSubset(newMsgs, kinds);
    SummariesStructured(persist);
    BlockStructuredConcat(persist, rest);
  }

  lemma {:induction false} SummariesStructured(persist: seq<Message>)
    requires forall m :: m in persist ==> m.role == RoleUser && m.toolCalls == []
    ensures BlockStructured(persist)
    decreases |persist|
  {
    if persist == [] {
    } else {
      assert persist[0] in persist;
      SummariesStructured(persist[1..]);
      BlockIsStructured([persist[0]]);
      BlockStructuredConcat([persist[0]], persist[1..]);
      assert persist == [persist[0]] + persist[1..];
    }
  }

  // ---------------------------------------------------------------- usage and budget

  ghost predicate Adds(a: Usage, b: Usage, sum: Usage) {
    sum.inputTokens == a.inputTokens + b.inputTokens && sum.outputTokens == a.outputTokens + b.outputTokens
  }

  ghost predicate BudgetSays(hooks: Hooks, step: nat, input: BudgetInput, added: Usage, s': State, signal: Signal)
    requires hooks.onBudget.Some?
  {
    var b := hooks.onBudget.value(step, input, added);
    && s'.total == b.total
    && (if b.signal.Proceed? then signal.Proceed? || (signal.Panic? && hooks.onStepUsage.Some?) else signal == b.signal)
  }

  // The usage of an answer goes into the total, or into what the budget hook makes of the sum.
  ghost predicate Accounts(hooks: Hooks, step: nat, resp: Response, before: Usage, after: Usage) {
    if hooks.onBudget.None? then Adds(before, resp.usage, after)
    else exists input, added :: Adds(before, resp.usage, added) && BudgetSets(hooks, step, input, added, after)
  }

  ghost predicate BudgetSets(hooks: Hooks, step: nat, input: BudgetInput, added: Usage, after: Usage)
    requires hooks.onBudget.Some?
  {
    hooks.onBudget.value(step, input, added).total == after
  }

  // The budget hook stopped the run with this message.
  ghost predicate BudgetFails(hooks: Hooks, step: nat, resp: Response, message: string) {
    hooks.onBudget.Some?
    && exists toSend, viewEstimate, added ::
         hooks.onBudget.value(step, BudgetInput(toSend, resp, viewEstimate), added).signal == Fail(message)
  }

  method RecordStepUsage(hooks: Hooks, step: nat, resp: Response, toSend: seq<Message>, viewEstimate: int, s: State,
        ghost limit: int)
      returns (s': State, signal: Signal)
    ensures s' == s.(total := s'.total)
    ensures hooks.onBudget.None? ==>
              && s'.total.inputTokens == s.total.inputTokens + resp.usage.inputTokens
              && s'.total.outputTokens == s.total.outputTokens + resp.usage.outputTokens
    // the budget hook sees the sum, may replace it, and decides; after it only the observer may panic
    ensures hooks.onBudget.Some? ==> exists added ::
              Adds(s.total, resp.usage, added)
                  && BudgetSays(hooks, step, BudgetInput(toSend, resp, viewEstimate), added, s', signal)
    ensures hooks.onBudget.None? ==> signal.Proceed? || (signal.Panic? && hooks.onStepUsage.Some?)
    ensures Accounts(hooks, step, resp, s.total, s'.total)
    ensures signal.Fail? ==> BudgetFails(hooks, step, resp, signal.message)
    ensures Guards(hooks, limit) && signal.Proceed? ==> Spent(s'.total) <= limit
  {
    var sum := Usage(s.total.inputTokens + resp.usage.inputTokens, s.total.outputTokens + resp.usage.outputTokens);
    assert Adds(s.total, resp.usage, sum);
    s', signal := s.(total := sum), Proceed;
    if hooks.onBudget.Some? {
      var b := hooks.onBudget.value(step, BudgetInput(toSend, resp, viewEstimate), s'.total);
      s', signal := s'.(total := b.total), b.signal;
      assert BudgetSets(hooks, step, BudgetInput(toSend, resp, viewEstimate), sum, s'.total);
      if !signal.Proceed? {
        return;
      }
    }
    if hooks.onStepUsage.Some? && hooks.onStepUsage.value(step).Panic? {
      signal := Panic;
    }
  }

  // ---------------------------------------------------------------- steps

  ghost predicate EndsWithAnswer(msgs: seq<Message>, text: string) {
    msgs != [] && msgs[|msgs|-1].role == RoleAssistant && msgs[|msgs|-1].content == text
        && msgs[|msgs|-1].toolCalls == []
  }

  // What every part of the run keeps, and what it may do to the counters.
  ghost predicate StepKeeps(hooks: Hooks, history: seq<Message>, s: State, s': State, exit: Exit, calls: nat) {
    && Good(s')
    && (!exit.Crash? ==> Sound(s'.newMsgs))
    && (!exit.Crash? && Aligned(hooks, history, s) ==> Aligned(hooks, history, s'))
    && s.calls <= s'.calls <= s.calls + calls
    && (exit.Return? ==> exit.finish == if exit.err.None? then FinishStop else NoFinish)
    && (exit.Return? && exit.err.None? ==> EndsWithAnswer(s'.msgs, exit.text))
    // only BeforeLLM may rewrite what is new; everything else appends to it
    && (hooks.beforeLLM.None? ==> s.newMsgs <= s'.newMsgs)
    // no request is added that the endpoint would refuse
    && (ShowsPaired(hooks) && AllPaired(s.sent) ==> AllPaired(s'.sent))
    && s.sent <= s'.sent && ThinkingKept(s, s')
  }

  // Thinking is on until a downgrade, and off after it.
  ghost predicate ThinkingKept(s: State, s': State) {
    || (s'.thinking == s.thinking && s'.downgraded == s.downgraded)
    || (s.thinking && !s'.thinking && s'.downgraded)
  }

  // The run stops with the model's answer: it is returned, and recorded last in the transcript and among
  // the new messages.
  ghost predicate Reports(resp: Response, now: int, s: State, text: string) {
    && resp.toolCalls == [] && text == resp.text
    && s.msgs != [] && CarriesAnswer(s.msgs[|s.msgs|-1], resp, now) && s.msgs[|s.msgs|-1].toolCalls == []
    && s.newMsgs != [] && s.newMsgs[|s.newMsgs|-1] == s.msgs[|s.msgs|-1]
  }

  // That answer is what the model said to the last request.
  ghost predicate Concludes(w: World, step: nat, s: State, text: string) {
    && s.sent != [] && Received(w, step, s).Answered?
    && Reports(Received(w, step, s).resp, w.clock(step), s, text)
  }

  // The transcript and the new messages end with the record of a step.
  ghost predicate EndsWithStep(w: World, hooks: Hooks, step: nat, resp: Response, s: State) {
    var n := 1 + |resp.toolCalls|;
    && n <= |s.msgs| && n <= |s.newMsgs| && s.msgs[|s.msgs|-n..] == s.newMsgs[|s.newMsgs|-n..]
    && RecordsStep(w, hooks, step, resp, |resp.toolCalls|, s.msgs[|s.msgs|-n..])
  }

  // The step failed with what a hook failed with; the results up to there are recorded, and the calls
  // behind it are filled up.
  ghost predicate EndsWithFailure(w: World, hooks: Hooks, step: nat, resp: Response, s: State, message: string) {
    var n := 1 + |resp.toolCalls|;
    && n <= |s.msgs| && n <= |s.newMsgs| && s.msgs[|s.msgs|-n..] == s.newMsgs[|s.newMsgs|-n..]
    && exists results, done: nat ::
         && |results| == |resp.toolCalls| && done <= |results|
         && StepStops(hooks, step, Named(resp.toolCalls, step), results, done, Fail(message))
         && RecordsStep(w, hooks, step, resp, done, s.msgs[|s.msgs|-n..])
  }

  function AsExit(signal: Signal, steps: nat): (exit: Exit)
    requires !signal.Proceed?
    ensures signal.Panic? ==> exit == Crash
    ensures signal.Fail? ==> exit.Return? && exit.steps == steps && exit.text == "" && exit.err == Some(signal.message)
  {
    match signal
    case Fail(message) => Failed(steps, message)
    case Panic => Crash
  }

  // What a step's model call keeps: only messages (by recovery) and the request counters change.
  ghost predicate CallKeeps(w: World, hooks: Hooks, step: nat, s: State, s': State, sent: seq<Message>,
        answer: LLMOutcome) {
    && Good(s') && s'.newMsgs == s.newMsgs && s'.total == s.total
    && s.calls + 1 <= s'.calls <= s.calls + 2
    && (hooks.onLLMError.None? ==> s'.msgs == s.msgs)
    && ModelSaid(w, step, sent, answer)
    // the answer is what the model said to the last request, which held `sent`
    && s'.sent != [] && answer == Received(w, step, s') && s'.sent[|s'.sent|-1] == sent
    && s.sent <= s'.sent && ThinkingKept(s, s')
  }

  // The state behind the model call: only recovery may have replaced the transcript.
  ghost predicate Asked(hooks: Hooks, step: nat, s: State, s': State) {
    && s'.newMsgs == s.newMsgs && s'.total == s.total && s'.compacted == s.compacted
    && (s'.msgs == s.msgs || exists e :: RecoversTo(hooks, step, s.msgs, e, s'.msgs))
  }

  ghost predicate RecoversTo(hooks: Hooks, step: nat, msgs: seq<Message>, e: string, recovered: seq<Message>) {
    hooks.onLLMError.Some? && hooks.onLLMError.value(step, msgs, e) == Recover(Some(recovered), true)
  }

  ghost predicate RecoveryFails(hooks: Hooks, step: nat, message: string) {
    hooks.onLLMError.Some? && exists msgs, e :: hooks.onLLMError.value(step, msgs, e) == RecoverFail(message)
  }

  function ErrorOf(failed: LLMOutcome): string {
    if failed.CallFailed? then failed.message else "miniagent: thinking parameter unsupported"
  }

  function Restored(s: State, recovered: Option<seq<Message>>): State {
    if recovered.Some? then s.(msgs := recovered.value) else s
  }

  method Retry(w: World, step: nat, s: State, recovered: Option<seq<Message>>)
      returns (answer: LLMOutcome, sent: seq<Message>, s': State)
    requires Good(s) && (recovered.Some? ==> Sound(recovered.value))
    ensures sent == Restored(s, recovered).msgs && answer == Answer(w, step, Restored(s, recovered), sent)
    ensures s' == Called(w, step, Restored(s, recovered), sent)
    ensures Good(s') && ModelSaid(w, step, sent, answer)
    ensures AllPaired(s.sent) ==> AllPaired(s'.sent)
    // it is the recovered transcript that is kept and sent
    ensures sent == s'.msgs == if recovered.Some? then recovered.value else s.msgs
    ensures answer == Received(w, step, s') && s'.sent[|s'.sent|-1] == sent
    ensures s.sent <= s'.sent && ThinkingKept(s, s') && s'.calls == s.calls + 1
    ensures s'.newMsgs == s.newMsgs && s'.total == s.total && s'.compacted == s.compacted
  {
    s' := s;
    if recovered.Some? {
      s' := s'.(msgs := recovered.value);
    }
    sent := s'.msgs;
    BlockStructuredIsPaired(sent);
    answer, s' := CallLLM(w, step, s', sent);
  }

  // After a failed call OnLLMError may ask for one more try, on the transcript it recovers.
  method Recovered(w: World, hooks: Hooks, step: nat, s0: State, s: State, toSend: seq<Message>, failed: LLMOutcome)
      returns (answer: LLMOutcome, sent: seq<Message>, s': State, signal: Signal)
    requires KeepsSound(hooks) && hooks.onLLMError.Some? && !failed.Answered?
    requires CallKeeps(w, hooks, step, s0, s, toSend, failed) && s.calls == s0.calls + 1
    ensures CallKeeps(w, hooks, step, s0, s', sent, answer)
    ensures AllPaired(s.sent) ==> AllPaired(s'.sent)
    ensures s.sent <= s'.sent
    ensures IsRecovery(w, hooks, step, s, toSend, failed, answer, sent, s', signal)
    ensures Asked(hooks, step, s, s') && (signal.Fail? ==> RecoveryFails(hooks, step, signal.message))
  {
    hide Sound, PairedById, AllPaired, ModelSaid, Answer, Called;
    answer, sent, s', signal := failed, toSend, s, Proceed;
    match hooks.onLLMError.value(step, s.msgs, ErrorOf(failed)) {
      case RecoverFail(message) => signal := Fail(message);
      case RecoverPanic => signal := Panic;
      case Recover(recovered, retry) =>
        if retry {
          answer, sent, s' := Retry(w, step, s, recovered);
          assert recovered.Some? ==> RecoversTo(hooks, step, s.msgs, ErrorOf(failed), s'.msgs);
        }
    }
  }

  // The one more try is made on the recovered transcript, and only if the hook asks for it.
  predicate IsRecovery(w: World, hooks: Hooks, step: nat, s: State, toSend: seq<Message>, failed: LLMOutcome,
                       answer: LLMOutcome, sent: seq<Message>, s': State, signal: Signal)
    requires hooks.onLLMError.Some?
  {
    match hooks.onLLMError.value(step, s.msgs, ErrorOf(failed))
    case Recover(recovered, true) =>
      sent == Restored(s, recovered).msgs && answer == Answer(w, step, Restored(s, recovered), sent)
          && s' == Called(w, step, Restored(s, recovered), sent) && signal.Proceed?
    case Recover(_, false) => answer == failed && sent == toSend && s' == s && signal.Proceed?
    case RecoverFail(message) => answer == failed && s' == s && signal == Fail(message)
    case RecoverPanic => answer == failed && s' == s && signal == Panic
  }

  method CallWithRecovery(w: World, hooks: Hooks, step: nat, s: State, toSend: seq<Message>)
      returns (answer: LLMOutcome, sent: seq<Message>, s': State, signal: Signal)
    requires KeepsSound(hooks) && Good(s)
    ensures CallKeeps(w, hooks, step, s, s', sent, answer)
    ensures PairedById(toSend) && AllPaired(s.sent) ==> AllPaired(s'.sent)
    // the first request holds what it was given
    ensures |s'.sent| > |s.sent| && s'.sent[|s.sent|] == toSend
    ensures Asked(hooks, step, s, s') && (signal.Fail? ==> RecoveryFails(hooks, step, signal.message))
    ensures if Answer(w, step, s, toSend).Answered? || hooks.onLLMError.None?
            then answer == Answer(w, step, s, toSend) && s' == Called(w, step, s, toSend) && sent == toSend
              && signal.Proceed?
            else IsRecovery(w, hooks, step, Called(w, step, s, toSend), toSend, Answer(w, step, s, toSend), answer,
              sent, s', signal)
  {
    hide Sound, PairedById, KeepsSound, Downgrades, RecoveryFails, IsRecovery, AllPaired;
    sent, signal := toSend, Proceed;
    answer, s' := CallLLM(w, step, s, toSend);
    if !answer.Answered? && hooks.onLLMError.Some? {
      answer, sent, s', signal := Recovered(w, hooks, step, s, s', toSend, answer);
    }
  }

  method FinishStep(w: World, hooks: Hooks, step: nat, s: State, resp: Response, ghost history: seq<Message>)
      returns (s': State, exit: Exit)
    requires step >= 1 && Good(s) && Sound(s.newMsgs)
    requires DistinctIds(Named(resp.toolCalls, step))
    ensures StepKeeps(hooks, history, s, s', exit, 0) && s'.total == s.total
    ensures exit.Return? ==> exit.steps == step
    ensures exit.Return? && exit.err.None? <==> resp.toolCalls == []
    // after a panic among the calls, and only then, the new messages are not well paired
    ensures PairedById(s'.newMsgs) <==> !exit.Crash?
    ensures s' == s.(msgs := s'.msgs, newMsgs := s'.newMsgs)
    // what is reported and recorded
    ensures exit.Return? && exit.err.None? ==>
              Reports(resp, w.clock(step), s', exit.text) && exit.truncated == resp.truncatedStream
              && |s'.msgs| == |s.msgs| + 1 && |s'.newMsgs| == |s.newMsgs| + 1
    ensures exit.Continue? ==>
              && EndsWithStep(w, hooks, step, resp, s')
              && |s'.msgs| == |s.msgs| + 1 + |resp.toolCalls| && |s'.newMsgs| == |s.newMsgs| + 1 + |resp.toolCalls|
    ensures exit.Return? && exit.err.Some? ==> EndsWithFailure(w, hooks, step, resp, s', exit.err.value)
    ensures !exit.Crash? ==> s.msgs <= s'.msgs && s.newMsgs <= s'.newMsgs
  {
    hide Sound, PairedById, Good, Aligned, RecordsStep, CarriesAnswer, StepKeeps, EndsWithFailure;
    if |resp.toolCalls| == 0 {
      s', exit := FinishWithText(w, hooks, step, s, resp, history);
    } else {
      s', exit := FinishWithCalls(w, hooks, step, s, resp, history);
    }
  }

  // The answer goes into the transcript and among the new messages.
  method RecordAnswer(w: World, hooks: Hooks, step: nat, s: State, resp: Response, ghost history: seq<Message>)
      returns (s': State)
    requires Good(s) && Sound(s.newMsgs)
    ensures Good(s') && Sound(s'.newMsgs) && (Aligned(hooks, history, s) ==> Aligned(hooks, history, s'))
    ensures s' == s.(msgs := s'.msgs, newMsgs := s'.newMsgs) && EndsWithAnswer(s'.msgs, resp.text)
    ensures resp.toolCalls == [] ==> Reports(resp, w.clock(step), s', resp.text)
    ensures |s'.msgs| == |s.msgs| + 1 && |s'.newMsgs| == |s.newMsgs| + 1 && s.msgs <= s'.msgs && s.newMsgs <= s'.newMsgs
  {
    hide Sound, PairedById, Good, Aligned;
    s' := Append(s, AssistantMessage(resp, []), w.clock(step), hooks, history);
  }

  method FinishWithText(w: World, hooks: Hooks, step: nat, s: State, resp: Response, ghost history: seq<Message>)
      returns (s': State, exit: Exit)
    requires Good(s) && Sound(s.newMsgs) && resp.toolCalls == []
    ensures StepKeeps(hooks, history, s, s', exit, 0) && PairedById(s'.newMsgs)
    ensures exit == Return(step, resp.text, FinishStop, resp.truncatedStream, None)
    ensures s' == s.(msgs := s'.msgs, newMsgs := s'.newMsgs)
    ensures Reports(resp, w.clock(step), s', exit.text)
    ensures |s'.msgs| == |s.msgs| + 1 && |s'.newMsgs| == |s.newMsgs| + 1 && s.msgs <= s'.msgs && s.newMsgs <= s'.newMsgs
  {
    hide Sound, PairedById, Good, Aligned;
    s' := RecordAnswer(w, hooks, step, s, resp, history);
    exit := Return(step, resp.text, FinishStop, resp.truncatedStream, None);
    SoundIsPaired(s'.newMsgs);
  }

  lemma SoundIsPaired(msgs: seq<Message>)
    requires Sound(msgs)
    ensures BlockStructured(msgs) && PairedById(msgs)
  {
    BlockStructuredIsPaired(msgs);
  }

  method FinishWithCalls(w: World, hooks: Hooks, step: nat, s: State, resp: Response, ghost history: seq<Message>)
      returns (s': State, exit: Exit)
    requires Good(s) && Sound(s.newMsgs) && resp.toolCalls != []
    requires DistinctIds(Named(resp.toolCalls, step))
    ensures StepKeeps(hooks, history, s, s', exit, 0)
    ensures exit.Return? ==> exit.steps == step && exit.err.Some?
    ensures PairedById(s'.newMsgs) <==> !exit.Crash?
    ensures s' == s.(msgs := s'.msgs, newMsgs := s'.newMsgs)
    ensures exit.Continue? ==>
              && EndsWithStep(w, hooks, step, resp, s')
              && |s'.msgs| == |s.msgs| + 1 + |resp.toolCalls| && |s'.newMsgs| == |s.newMsgs| + 1 + |resp.toolCalls|
    ensures exit.Return? ==> EndsWithFailure(w, hooks, step, resp, s', exit.err.value)
    ensures !exit.Crash? ==> s.msgs <= s'.msgs && s.newMsgs <= s'.newMsgs
  {
    hide PairedById, RecordsStep, AllPass, StepStops, EndsWithStep, EndsWithFailure;
    var msgs', newMsgs', signal;
    ghost var results, done;
    msgs', newMsgs', signal, results, done := HandleToolCalls(w, hooks, step, resp, s.msgs, s.newMsgs);
    s' := s.(msgs := msgs', newMsgs := newMsgs');
    exit := if signal.Proceed? then Continue else AsExit(signal, step);
    ghost var block := CallBlock(hooks, step, resp, results, done, w.clock(step));
    CallBlockIsBlock(hooks, step, resp, results, done, w.clock(step));
    if signal.Panic? {
      BrokenOffBlock(s.newMsgs, block, 1 + done);
    } else {
      StepRecorded(w, hooks, step, resp, s, s', block, results, done, signal);
      BlockRecorded(hooks, s, s', block, history);
      BlockStructuredIsPaired(s'.newMsgs);
    }
  }

  lemma StepRecorded(w: World, hooks: Hooks, step: nat, resp: Response, s: State, s': State, block: seq<Message>,
        results: seq<ToolResult>, done: nat, signal: Signal)
    requires s'.msgs == s.msgs + block && s'.newMsgs == s.newMsgs + block
    requires |results| == |resp.toolCalls| && done <= |results| && RecordsStep(w, hooks, step, resp, done, block)
    requires signal.Fail? ==> StepStops(hooks, step, Named(resp.toolCalls, step), results, done, signal)
    ensures signal.Fail? ==> EndsWithFailure(w, hooks, step, resp, s', signal.message)
    ensures done == |results| ==> EndsWithStep(w, hooks, step, resp, s')
  {
    hide StepStops;
    assert |block| == 1 + |resp.toolCalls|;
    assert s'.msgs[|s.msgs|..] == block && s'.newMsgs[|s.newMsgs|..] == block;
    hide RecordsStep;
  }

  lemma BlockRecorded(hooks: Hooks, s: State, s': State, block: seq<Message>, history: seq<Message>)
    requires Good(s) && Sound(s.newMsgs)
    requires IsBlock(block) && forall m :: m in block ==> !m.IsSummary()
    requires s' == s.(msgs := s.msgs + block, newMsgs := s.newMsgs + block)
    ensures Good(s') && Sound(s'.newMsgs)
    ensures Aligned(hooks, history, s) ==> Aligned(hooks, history, s')
  {
    AppendBlock(s.msgs, block);
    AppendBlock(s.newMsgs, block);
    assert history + (s.newMsgs + block) == (history + s.newMsgs) + block;
  }

  lemma DistinctUpTo(w: World, steps: nat, more: nat)
    requires DistinctCalls(w, more) && steps <= more
    ensures DistinctCalls(w, steps)
  {
  }

  lemma DistinctAnswer(w: World, steps: nat, sent: seq<Message>, answer: LLMOutcome, step: nat)
    requires DistinctCalls(w, steps) && 1 <= step <= steps && ModelSaid(w, step, sent, answer) && answer.Answered?
    ensures DistinctIds(Named(answer.resp.toolCalls, step))
  {
    var n, thinking :| answer == w.llm(step, n, thinking, sent);
    assert w.llm(step, n, thinking, sent).Answered?;
  }

  // A run that goes on, or ends without error, has not spent more than a guarded limit.
  ghost predicate WithinLimit(hooks: Hooks, limit: int, s: State, exit: Exit) {
    Guards(hooks, limit) && (exit.Continue? || (exit.Return? && exit.err.None?)) ==> Spent(s.total) <= limit
  }

  // A step that ends the run reports what the model said to its last request, and one that goes on
  // records it, with a result under each call.
  ghost predicate StepSpeaks(w: World, hooks: Hooks, step: nat, s0: State, s: State, exit: Exit) {
    && (exit.Return? && exit.err.None? ==>
          && exit.steps == step && |s.sent| > |s0.sent| && Concludes(w, step, s, exit.text)
          && exit.truncated == Received(w, step, s).resp.truncatedStream)
    && (exit.Continue? ==>
          && |s.sent| > |s0.sent| && Received(w, step, s).Answered?
          && EndsWithStep(w, hooks, step, Received(w, step, s).resp, s))
  }

  // What a step adds to the state: one message for its answer and one for each call, and the usage.
  ghost predicate Gains(hooks: Hooks, step: nat, resp: Response, s: State, s': State) {
    && s.msgs <= s'.msgs && |s'.msgs| == |s.msgs| + 1 + |resp.toolCalls|
    && s.newMsgs <= s'.newMsgs && |s'.newMsgs| == |s.newMsgs| + 1 + |resp.toolCalls|
    && s'.compacted == s.compacted && Accounts(hooks, step, resp, s.total, s'.total)
  }

  // The state behind BeforeLLM: as its output says, or unchanged without the hook.
  ghost predicate Prepared(hooks: Hooks, step: nat, s: State, s': State) {
    if hooks.beforeLLM.None? then s' == s
    else
      && hooks.beforeLLM.value(step, s.msgs).BeforeOutput?
      && FoldsIn(s, hooks.beforeLLM.value(step, s.msgs).output, ViewOf(hooks, step, s.msgs), s')
  }

  // A step that goes on or ends with an answer: the hook prepared, the model was called, and the answer
  // was added.
  ghost predicate StepAdds(w: World, hooks: Hooks, step: nat, s0: State, s: State) {
    exists s1, s2 :: Prepared(hooks, step, s0, s1) && AsksFrom(w, hooks, step, s1, s2, s)
  }

  ghost predicate AsksFrom(w: World, hooks: Hooks, step: nat, s1: State, s2: State, s: State) {
    && Asked(hooks, step, s1, s2) && s.sent != [] && Received(w, step, s).Answered?
    && Gains(hooks, step, Received(w, step, s).resp, s2, s)
  }

  // Why a step that got an answer ends the run with an error: AfterLLM or the budget failed, or a hook
  // around the calls.  Only the first leaves the answer uncounted.
  ghost predicate AnswerFails(w: World, hooks: Hooks, step: nat, resp: Response, s: State, exit: Exit)
    requires step >= 1
  {
    && exit.Return? && exit.err.Some?
    && (|| (exit.steps == step - 1 && hooks.afterLLM.Some?
            && hooks.afterLLM.value(step, resp) == Fail(exit.err.value))
        || (exit.steps == step && BudgetFails(hooks, step, resp, exit.err.value))
        || (exit.steps == step && EndsWithFailure(w, hooks, step, resp, s, exit.err.value)))
  }

  // Why the model call of a step ends the run: recovery failed, or the last call did.
  ghost predicate CallFails(w: World, hooks: Hooks, step: nat, s: State, exit: Exit) {
    && exit.Return? && exit.err.Some? && exit.steps == step - 1
    && (|| RecoveryFails(hooks, step, exit.err.value)
        || (s.sent != [] && !Received(w, step, s).Answered? && exit.err.value == ErrorOf(Received(w, step, s))))
  }

  ghost predicate AskFails(w: World, hooks: Hooks, step: nat, s: State, exit: Exit)
    requires step >= 1
  {
    || CallFails(w, hooks, step, s, exit)
    || (s.sent != [] && Received(w, step, s).Answered?
        && AnswerFails(w, hooks, step, Received(w, step, s).resp, s, exit))
  }

  // Why a step ends the run with an error: the context was cancelled, BeforeLLM failed, the model call
  // failed, or something behind the answer.
  ghost predicate StepFails(w: World, hooks: Hooks, step: nat, s0: State, s: State, exit: Exit)
    requires step >= 1
  {
    || (w.cancelled(step) && exit == Failed(step - 1, "context canceled"))
    || (exit.Return? && exit.err.Some? && exit.steps == step - 1 && hooks.beforeLLM.Some?
        && hooks.beforeLLM.value(step, s0.msgs) == BeforeFail(exit.err.value))
    || AskFails(w, hooks, step, s, exit)
  }

  // What BeforeLLM makes of the transcript for a request; an empty view counts as none.
  ghost function ViewOf(hooks: Hooks, step: nat, msgs: seq<Message>): seq<Message> {
    if hooks.beforeLLM.Some? && hooks.beforeLLM.value(step, msgs).BeforeOutput?
       && hooks.beforeLLM.value(step, msgs).output.view != []
    then hooks.beforeLLM.value(step, msgs).output.view else msgs
  }

  method Step(w: World, hooks: Hooks, step: nat, s0: State, ghost history: seq<Message>, ghost limit: int)
      returns (s: State, exit: Exit)
    requires step >= 1 && KeepsSound(hooks) && DistinctCalls(w, step) && Good(s0) && Sound(s0.newMsgs)
    ensures StepKeeps(hooks, history, s0, s, exit, 2)
    ensures exit.Return? ==> step - 1 <= exit.steps <= step
    ensures WithinLimit(hooks, limit, s, exit)
    // a step that sees the cancellation calls nothing
    ensures w.cancelled(step) ==> s == s0 && (exit.Crash? || exit == Failed(step - 1, "context canceled"))
    // the first request holds the view the hook made, and the transcript where there is none
    ensures |s.sent| > |s0.sent| ==> s.sent[|s0.sent|] == ViewOf(hooks, step, s0.msgs)
    // what the step reports, or records to go on with, is what the model said to its last request
    ensures StepSpeaks(w, hooks, step, s0, s, exit)
    // and that is all it adds to what the hooks made of the state
    ensures exit.Continue? || (exit.Return? && exit.err.None?) ==> StepAdds(w, hooks, step, s0, s)
    ensures exit.Return? && exit.err.Some? ==> StepFails(w, hooks, step, s0, s, exit)
  {
    s := s0;
    if hooks.onStep.Some? && hooks.onStep.value(step).Panic? {
      return s, Crash;
    }
    if w.cancelled(step) {
      return s, Failed(step - 1, "context canceled");
    }
    s, exit := ActiveStep(w, hooks, step, s0, history, limit);
  }

  // The step once it is neither stopped by its observer nor cancelled.
  method ActiveStep(w: World, hooks: Hooks, step: nat, s0: State, ghost history: seq<Message>, ghost limit: int)
      returns (s: State, exit: Exit)
    requires step >= 1 && KeepsSound(hooks) && DistinctCalls(w, step) && Good(s0) && Sound(s0.newMsgs)
    ensures StepKeeps(hooks, history, s0, s, exit, 2)
    ensures exit.Return? ==> step - 1 <= exit.steps <= step
    ensures WithinLimit(hooks, limit, s, exit)
    ensures |s.sent| > |s0.sent| ==> s.sent[|s0.sent|] == ViewOf(hooks, step, s0.msgs)
    ensures StepSpeaks(w, hooks, step, s0, s, exit)
    ensures exit.Continue? || (exit.Return? && exit.err.None?) ==> StepAdds(w, hooks, step, s0, s)
    ensures exit.Return? && exit.err.Some? ==> StepFails(w, hooks, step, s0, s, exit)
  {
    hide Sound, KeepsSound, DistinctCalls, Received, EndsWithStep, Reports, BlockStructured, PairedById, AskFails;
    var toSend, viewEstimate, signal;
    toSend, viewEstimate, s, signal := ApplyBeforeLLM(hooks, step, s0, history);
    if !signal.Proceed? {
      return s, AsExit(signal, step - 1);
    }
    ghost var s1 := s;
    s, exit := AskStep(w, hooks, step, s, toSend, viewEstimate, history, limit);
    assert |s.sent| > |s1.sent| && s.sent[|s1.sent|] == toSend;
    assert Prepared(hooks, step, s0, s1);
  }

  method AskStep(w: World, hooks: Hooks, step: nat, s1: State, view: seq<Message>, viewEstimate: int,
                 ghost history: seq<Message>, ghost limit: int)
      returns (s: State, exit: Exit)
    requires step >= 1 && KeepsSound(hooks) && DistinctCalls(w, step) && Good(s1) && Sound(s1.newMsgs)
    requires ShowsPaired(hooks) ==> PairedById(view)
    ensures StepKeeps(hooks, history, s1, s, exit, 2)
    ensures exit.Return? ==> step - 1 <= exit.steps <= step
    ensures WithinLimit(hooks, limit, s, exit)
    ensures |s.sent| > |s1.sent| && s.sent[|s1.sent|] == view
    ensures StepSpeaks(w, hooks, step, s1, s, exit)
    ensures exit.Continue? || (exit.Return? && exit.err.None?) ==> exists s2 :: AsksFrom(w, hooks, step, s1, s2, s)
    ensures exit.Return? && exit.err.Some? ==> AskFails(w, hooks, step, s, exit)
  {
    hide Sound, KeepsSound, DistinctCalls, EndsWithStep, Reports, BlockStructured, PairedById, RecordsStep;
    hide Answer, Called, Restored, IsRecovery, RecoveryFails, Asked, Gains, ModelSaid, Good, Guards, AnswerFails;
    var answer, toSend, signal;
    answer, toSend, s, signal := CallWithRecovery(w, hooks, step, s1, view);
    if !signal.Proceed? {
      return s, AsExit(signal, step - 1);
    }
    if !answer.Answered? {
      return s, Failed(step - 1, ErrorOf(answer));
    }
    DistinctAnswer(w, step, toSend, answer, step);
    ghost var s2 := s;
    s, exit := UseAnswer(w, hooks, step, s, answer.resp, toSend, viewEstimate, history, limit);
    assert exit.Continue? || (exit.Return? && exit.err.None?) ==> AsksFrom(w, hooks, step, s1, s2, s);
  }

  // AfterLLM, usage and budget, then final text or tool calls.
  method UseAnswer(w: World, hooks: Hooks, step: nat, s0: State, resp: Response, toSend: seq<Message>,
        viewEstimate: int,
                   ghost history: seq<Message>, ghost limit: int) returns (s: State, exit: Exit)
    requires step >= 1 && Good(s0) && Sound(s0.newMsgs) && DistinctIds(Named(resp.toolCalls, step))
    ensures StepKeeps(hooks, history, s0, s, exit, 0)
    ensures exit.Return? ==> step - 1 <= exit.steps <= step
    ensures WithinLimit(hooks, limit, s, exit)
    ensures s == s0.(msgs := s.msgs, newMsgs := s.newMsgs, total := s.total)
    ensures exit.Return? && exit.err.None? ==>
              exit.steps == step && Reports(resp, w.clock(step), s, exit.text) && exit.truncated == resp.truncatedStream
    ensures exit.Continue? ==> EndsWithStep(w, hooks, step, resp, s)
    ensures exit.Continue? || (exit.Return? && exit.err.None?) ==> Gains(hooks, step, resp, s0, s)
    ensures exit.Return? && exit.err.Some? ==> AnswerFails(w, hooks, step, resp, s, exit)
  {
    hide Accounts, BudgetFails, BudgetSays, Sound, Reports, EndsWithFailure, CarriesAnswer, PairedById, RecordsStep;
    s := s0;
    var signal;
    if hooks.afterLLM.Some? {
      signal := hooks.afterLLM.value(step, resp);
      if !signal.Proceed? {
        return s, AsExit(signal, step - 1);
      }
    }
    s, signal := RecordStepUsage(hooks, step, resp, toSend, viewEstimate, s, limit);
    if !signal.Proceed? {
      return s, AsExit(signal, step);
    }
    s, exit := FinishStep(w, hooks, step, s, resp, history);
  }

  // Why the extra call ends the run with an error: AfterLLM or the budget failed on its answer.
  ghost predicate LimitFails(w: World, hooks: Hooks, step: nat, s: State, exit: Exit) {
    && exit.Return? && exit.err.Some? && s.sent != [] && Received(w, step + 1, s).Answered?
    && (|| (exit.steps == step && hooks.afterLLM.Some?
            && hooks.afterLLM.value(step + 1, Received(w, step + 1, s).resp) == Fail(exit.err.value))
        || (exit.steps == step + 1
            && BudgetFails(hooks, step + 1, Received(w, step + 1, s).resp, exit.err.value)))
  }

  // The extra call at the iteration limit; Continue means no final text came of it.
  method SummarizeAtLimit(w: World, hooks: Hooks, step: nat, s0: State, ghost history: seq<Message>, ghost limit: int)
      returns (s: State, exit: Exit)
    requires KeepsSound(hooks) && Good(s0) && Sound(s0.newMsgs) && WithinLimit(hooks, limit, s0, Continue)
    ensures StepKeeps(hooks, history, s0, s, exit, 1)
    ensures exit.Return? ==> step <= exit.steps <= step + 1
    // the internal request never enters the transcript
    ensures exit.Continue? ==> s.msgs == s0.msgs && s.newMsgs == s0.newMsgs
    ensures s.msgs == s0.msgs || (s0.msgs <= s.msgs && |s.msgs| == |s0.msgs| + 1)
    ensures WithinLimit(hooks, limit, s, exit)
    // the request is the transcript with the request for a summary behind it
    ensures |s.sent| > |s0.sent| && s.sent[|s0.sent|] == s0.msgs + [SUMMARY_REQUEST]
    ensures exit.Return? && exit.err.None? ==>
              exit.steps == step + 1 && Concludes(w, step + 1, s, exit.text) && !exit.truncated
    // an answer is accounted for whether or not it is one
    ensures exit.Continue? || (exit.Return? && exit.err.None?) ==>
              if Received(w, step + 1, s).Answered?
              then Accounts(hooks, step + 1, Received(w, step + 1, s).resp, s0.total, s.total)
              else s.total == s0.total && exit.Continue?
    ensures exit.Return? && exit.err.Some? ==> LimitFails(w, hooks, step, s, exit)
  {
    hide Sound, KeepsSound, Reports, BlockStructured, PairedById, Accounts, BudgetFails;
    var reqMsgs := s0.msgs + [SUMMARY_REQUEST];
    RequestPaired(s0.msgs);
    var answer;
    answer, s := CallLLM(w, step + 1, s0, reqMsgs);
    if !answer.Answered? {
      return s, Continue;
    }
    if |answer.resp.toolCalls| != 0 {
      s, exit := CallsAtLimit(hooks, step, s, answer.resp, reqMsgs, limit);
      return;
    }
    s, exit := AnswerAtLimit(w, hooks, step, s, answer.resp, reqMsgs, history, limit);
  }

  lemma RequestPaired(msgs: seq<Message>)
    requires Sound(msgs)
    ensures PairedById(msgs + [SUMMARY_REQUEST])
  {
    PlainBlock(SUMMARY_REQUEST);
    assert |KIND_SUMMARY| == 7;
    AppendBlock(msgs, [SUMMARY_REQUEST]);
    BlockStructuredIsPaired(msgs + [SUMMARY_REQUEST]);
  }

  // Calls asked for at the limit are accounted for and dropped.
  method CallsAtLimit(hooks: Hooks, step: nat, s0: State, resp: Response, reqMsgs: seq<Message>, ghost limit: int)
      returns (s: State, exit: Exit)
    ensures s == s0.(total := s.total)
    ensures exit.Return? ==> exit.steps == step + 1 && exit.finish.NoFinish? && exit.err.Some?
    ensures WithinLimit(hooks, limit, s, exit)
    ensures Accounts(hooks, step + 1, resp, s0.total, s.total)
    ensures exit.Return? ==> BudgetFails(hooks, step + 1, resp, exit.err.value)
  {
    var signal;
    s, signal := RecordStepUsage(hooks, step + 1, resp, reqMsgs, 0, s0, limit);
    exit := if signal.Proceed? then Continue else AsExit(signal, step + 1);
  }

  // The final text at the limit is recorded first and accounted for afterwards.
  method AnswerAtLimit(w: World, hooks: Hooks, step: nat, s0: State, resp: Response, reqMsgs: seq<Message>,
                       ghost history: seq<Message>, ghost limit: int) returns (s: State, exit: Exit)
    requires Good(s0) && Sound(s0.newMsgs)
    ensures StepKeeps(hooks, history, s0, s, exit, 0) && !exit.Continue?
    ensures exit.Return? ==> step <= exit.steps <= step + 1
    ensures s0.msgs <= s.msgs && |s.msgs| == |s0.msgs| + 1
    ensures WithinLimit(hooks, limit, s, exit)
    ensures s == s0.(msgs := s.msgs, newMsgs := s.newMsgs, total := s.total)
    ensures exit.Return? && exit.err.None? && resp.toolCalls == [] ==>
              exit.steps == step + 1 && Reports(resp, w.clock(step + 1), s, exit.text) && !exit.truncated
    ensures exit.Return? && exit.err.None? ==> Accounts(hooks, step + 1, resp, s0.total, s.total)
    ensures exit.Return? && exit.err.Some? ==>
              || (exit.steps == step && hooks.afterLLM.Some?
                  && hooks.afterLLM.value(step + 1, resp) == Fail(exit.err.value))
              || (exit.steps == step + 1 && BudgetFails(hooks, step + 1, resp, exit.err.value))
  {
    hide Accounts, BudgetFails, BudgetSays, Guards, PairedById, Sound, BlockStructured, CarriesAnswer;
    s := RecordAnswer(w, hooks, step + 1, s0, resp, history);
    var signal;
    if hooks.afterLLM.Some? {
      signal := hooks.afterLLM.value(step + 1, resp);
      if !signal.Proceed? {
        return s, AsExit(signal, step);
      }
    }
    s, signal := RecordStepUsage(hooks, step + 1, resp, reqMsgs, 0, s, limit);
    exit := if signal.Proceed? then Return(step + 1, resp.text, FinishStop, false, None) else AsExit(signal, step + 1);
  }

  // ---------------------------------------------------------------- the run

  datatype LoopConfig = LoopConfig(history: seq<Message>, maxIterations: int, thinking: bool)

  datatype RunResult = RunResult(
    text: string, usage: Usage, steps: nat, llmRequests: nat, finish: Finish, truncated: bool,
    messages: seq<Message>, newMessages: seq<Message>, compacted: bool, thinkingDowngraded: bool, err: Option<string>)

  function IterLimit(cfg: LoopConfig): (n: nat)
    ensures n >= 1 && (cfg.maxIterations > 0 ==> n == cfg.maxIterations)
  {
    if cfg.maxIterations <= 0 then MAX_ITERATIONS else cfg.maxIterations
  }

  // The deferred assignments: counters and transcript come back on every way out.
  function ToResult(s: State, exit: Exit): (r: RunResult)
    requires !exit.Continue?
    ensures r.usage == s.total && r.llmRequests == s.requests && r.compacted == s.compacted
    ensures r.messages == s.msgs && r.newMessages == s.newMsgs && r.thinkingDowngraded == s.downgraded
  {
    match exit
    case Return(steps, text, finish, truncated, err) =>
      RunResult(text, s.total, steps, s.requests, finish, truncated, s.msgs, s.newMsgs, s.compacted, s.downgraded, err)
    case Crash =>
      RunResult("", s.total, 0, s.requests, NoFinish, false, s.msgs, s.newMsgs, s.compacted, s.downgraded,
          Some("run panicked"))
  }

  function UsageSum(answers: seq<Response>): Usage {
    if answers == [] then Usage(0, 0)
    else Plus(UsageSum(answers[..|answers|-1]), answers[|answers|-1].usage)
  }

  // The answers a run used, one a step: each is what the model said in that step to a request it was sent.
  ghost predicate AreAnswers(w: World, sent: seq<seq<Message>>, answers: seq<Response>) {
    forall i :: 0 <= i < |answers| ==> IsSaid(w, i + 1, sent, answers[i])
  }

  ghost predicate IsSaid(w: World, step: nat, sent: seq<seq<Message>>, resp: Response) {
    exists k, thinking :: 0 <= k < |sent| && SaidTo(w, step, k, thinking, sent, resp)
  }

  ghost predicate SaidTo(w: World, step: nat, k: nat, thinking: bool, sent: seq<seq<Message>>, resp: Response)
    requires k < |sent|
  {
    w.llm(step, k, thinking, sent[k]) == Answered(resp)
  }

  lemma OneMoreAnswer(w: World, sent: seq<seq<Message>>, s: State, answers: seq<Response>)
    requires AreAnswers(w, sent, answers) && sent <= s.sent && s.sent != []
    requires Received(w, |answers| + 1, s).Answered?
    ensures AreAnswers(w, s.sent, answers + [Received(w, |answers| + 1, s).resp])
  {
    var resp := Received(w, |answers| + 1, s).resp;
    assert SaidTo(w, |answers| + 1, |s.sent| - 1, s.thinking, s.sent, resp);
    forall i | 0 <= i < |answers| ensures IsSaid(w, i + 1, s.sent, answers[i]) {
      var k, thinking :| 0 <= k < |sent| && SaidTo(w, i + 1, k, thinking, sent, answers[i]);
      assert SaidTo(w, i + 1, k, thinking, s.sent, answers[i]);
    }
  }

  lemma OneMoreUsage(answers: seq<Response>, resp: Response, before: Usage, after: Usage)
    requires before == UsageSum(answers) && Adds(before, resp.usage, after)
    ensures after == UsageSum(answers + [resp])
  {
    assert (answers + [resp])[..|answers|] == answers;
  }

  // What a step costs where neither a compaction nor a budget has a say.
  lemma StepCosts(w: World, hooks: Hooks, step: nat, s0: State, s: State)
    requires StepAdds(w, hooks, step, s0, s)
    ensures s.sent != [] && Received(w, step, s).Answered?
    ensures hooks.beforeLLM.None? && hooks.onBudget.None? ==>
              Adds(s0.total, Received(w, step, s).resp.usage, s.total)
  {
  }

  // The usage is that of the answers, where it is only added up.
  ghost predicate Totals(w: World, hooks: Hooks, s: State, answers: seq<Response>) {
    && AreAnswers(w, s.sent, answers)
    && (hooks.beforeLLM.None? && hooks.onBudget.None? ==> s.total == UsageSum(answers))
  }

  // One more step is behind the run: its answer, and the usage if it is only added up.
  lemma StepAnswered(w: World, hooks: Hooks, s0: State, s: State, answers: seq<Response>) returns (more: seq<Response>)
    requires StepAdds(w, hooks, |answers| + 1, s0, s) && Totals(w, hooks, s0, answers) && s0.sent <= s.sent
    ensures Totals(w, hooks, s, more) && |more| == |answers| + 1
  {
    hide StepAdds, AreAnswers, Received;
    StepCosts(w, hooks, |answers| + 1, s0, s);
    OneMoreAnswer(w, s0.sent, s, answers);
    more := answers + [Received(w, |answers| + 1, s).resp];
    if hooks.beforeLLM.None? && hooks.onBudget.None? {
      OneMoreUsage(answers, Received(w, |answers| + 1, s).resp, s0.total, s.total);
    }
  }

  lemma LimitAnswered(w: World, hooks: Hooks, s0: State, s: State, answers: seq<Response>) returns (more: seq<Response>)
    requires Totals(w, hooks, s0, answers) && s0.sent <= s.sent && s.sent != []
    requires var a := Received(w, |answers| + 1, s);
             if a.Answered? then Accounts(hooks, |answers| + 1, a.resp, s0.total, s.total) else s.total == s0.total
    ensures Totals(w, hooks, s, more) && |answers| <= |more| <= |answers| + 1
  {
    hide Received;
    var a := Received(w, |answers| + 1, s);
    if a.Answered? {
      more := answers + [a.resp];
      OneMoreAnswer(w, s0.sent, s, answers);
      if hooks.beforeLLM.None? && hooks.onBudget.None? {
        OneMoreUsage(answers, a.resp, s0.total, s.total);
      }
    } else {
      more := answers;
      StillAnswers(w, s0.sent, s.sent, answers);
    }
  }

  lemma StillAnswers(w: World, sent: seq<seq<Message>>, more: seq<seq<Message>>, answers: seq<Response>)
    requires AreAnswers(w, sent, answers) && sent <= more
    ensures AreAnswers(w, more, answers)
  {
    forall i | 0 <= i < |answers| ensures IsSaid(w, i + 1, more, answers[i]) {
      var k, thinking :| 0 <= k < |sent| && SaidTo(w, i + 1, k, thinking, sent, answers[i]);
      assert SaidTo(w, i + 1, k, thinking, more, answers[i]);
    }
  }

  // Why a run ends with an error: a step failed, or the extra call, or it was cancelled at the end.
  ghost predicate RunFails(w: World, hooks: Hooks, limit: nat, s: State, exit: Exit) {
    || (exists step, s0 :: 1 <= step <= limit && StepFails(w, hooks, step, s0, s, exit))
    || LimitFails(w, hooks, limit, s, exit)
    || (w.cancelled(limit + 1) && exit == Failed(limit, "context canceled"))
  }

  lemma StepFailsRun(w: World, hooks: Hooks, limit: nat, step: nat, s0: State, s: State, exit: Exit)
    requires 1 <= step <= limit && StepFails(w, hooks, step, s0, s, exit)
    ensures RunFails(w, hooks, limit, s, exit)
  {
    hide StepFails, LimitFails;
  }

  lemma LimitFailsRun(w: World, hooks: Hooks, limit: nat, s: State, exit: Exit)
    requires LimitFails(w, hooks, limit, s, exit)
             || (w.cancelled(limit + 1) && exit == Failed(limit, "context canceled"))
    ensures RunFails(w, hooks, limit, s, exit)
  {
    hide StepFails, LimitFails;
  }

  // The first request is what the first step makes of the transcript the run began with.
  ghost predicate Opens(hooks: Hooks, s0: State, s: State) {
    s.sent != [] ==> s.sent[0] == ViewOf(hooks, 1, s0.msgs)
  }

  // What holds in front of a step: `step - 1` steps are behind the run and none of them ended it.
  ghost predicate Going(w: World, hooks: Hooks, cfg: LoopConfig, s0: State, step: nat, s: State, limit: int,
        answers: seq<Response>) {
    && Good(s) && Sound(s.newMsgs) && Aligned(hooks, cfg.history, s)
    && s.calls <= 2 * (step - 1) + (if step > IterLimit(cfg) then 1 else 0)
    && (step > 1 ==> WithinLimit(hooks, limit, s, Continue))
    && (hooks.beforeLLM.None? ==> s0.newMsgs <= s.newMsgs)
    && (ShowsPaired(hooks) && AllPaired(s0.sent) ==> AllPaired(s.sent))
    && s.thinking == (s0.thinking && !s.downgraded)
    && (if step == 1 then s == s0 else s.sent != [] && Opens(hooks, s0, s))
    && Totals(w, hooks, s, answers) && step - 1 <= |answers| <= step
    && (step <= IterLimit(cfg) ==> |answers| == step - 1)
  }

  // What holds when the run is over.
  ghost predicate Over(w: World, hooks: Hooks, cfg: LoopConfig, s0: State, s: State, exit: Exit, limit: int,
        answers: seq<Response>) {
    && !exit.Continue? && Good(s) && s.calls <= 2 * IterLimit(cfg) + 1
    && (!exit.Crash? ==> Sound(s.newMsgs) && Aligned(hooks, cfg.history, s))
    && (exit.Return? ==>
          && exit.steps <= IterLimit(cfg) + 1 && (exit.err.None? <==> !exit.finish.NoFinish?)
          && (exit.err.None? ==> Totals(w, hooks, s, answers) && |answers| <= IterLimit(cfg) + 1)
          && (exit.err.Some? ==> RunFails(w, hooks, IterLimit(cfg), s, exit)))
    && (exit.Return? && exit.finish.FinishStop? ==>
          && EndsWithAnswer(s.msgs, exit.text) && Concludes(w, exit.steps, s, exit.text)
          && (exit.truncated <==> exit.steps <= IterLimit(cfg) && Received(w, exit.steps, s).resp.truncatedStream))
    && (exit.Return? && exit.finish.FinishMaxIterations? ==>
          exit.steps == IterLimit(cfg) && exit.text == "" && !w.cancelled(IterLimit(cfg) + 1))
    && s.thinking == (s0.thinking && !s.downgraded)
    && Opens(hooks, s0, s)
    && WithinLimit(hooks, limit, s, exit)
    && (hooks.beforeLLM.None? ==> s0.newMsgs <= s.newMsgs)
    && (ShowsPaired(hooks) && AllPaired(s0.sent) ==> AllPaired(s.sent))
  }

  // One turn of the loop, with the extra call behind the last.
  method Turn(w: World, hooks: Hooks, cfg: LoopConfig, step: nat, ghost s0: State, s1: State, ghost limit: int,
        ghost before: seq<Response>) returns (s: State, exit: Exit, ghost answers: seq<Response>)
    requires KeepsSound(hooks) && DistinctCalls(w, IterLimit(cfg)) && 1 <= step <= IterLimit(cfg)
    requires Going(w, hooks, cfg, s0, step, s1, limit, before) && s0.sent == []
    ensures if exit.Continue? then Going(w, hooks, cfg, s0, step + 1, s, limit, answers)
            else Over(w, hooks, cfg, s0, s, exit, limit, answers)
  {
    hide Accounts, AreAnswers, Concludes, StepFails, LimitFails, RunFails, Totals, ViewOf, PairedById, BlockStructured;
    hide Sound, KeepsSound, EndsWithStep, Received, DistinctCalls, Aligned, Guards, StepAdds, AllPaired, ShowsPaired,
      EndsWithAnswer;
    DistinctUpTo(w, step, IterLimit(cfg));
    s, exit := Step(w, hooks, step, s1, cfg.history, limit);
    answers := before;
    if exit.Return? && exit.err.Some? {
      StepFailsRun(w, hooks, IterLimit(cfg), step, s1, s, exit);
    } else if !exit.Crash? {
      answers := StepAnswered(w, hooks, s1, s, before);
    }
    if !exit.Continue? {
      return;
    }
    if step == IterLimit(cfg) {
      s, exit, answers := LastTurn(w, hooks, cfg, step, s0, s, limit, answers);
    }
  }

  method LastTurn(w: World, hooks: Hooks, cfg: LoopConfig, step: nat, ghost s0: State, s1: State, ghost limit: int,
        ghost before: seq<Response>) returns (s: State, exit: Exit, ghost answers: seq<Response>)
    requires KeepsSound(hooks) && step == IterLimit(cfg)
    requires Going(w, hooks, cfg, s0, step + 1, s1, limit, before) && step >= 1 && s1.calls <= 2 * step
    requires |before| == step
    ensures if exit.Continue? then Going(w, hooks, cfg, s0, step + 1, s, limit, answers)
            else Over(w, hooks, cfg, s0, s, exit, limit, answers)
  {
    hide Accounts, AreAnswers, Concludes, LimitFails, RunFails, Totals, PairedById, BlockStructured;
    hide Sound, KeepsSound, Received, Aligned, Guards, AllPaired, ShowsPaired, EndsWithAnswer;
    s, exit := SummarizeAtLimit(w, hooks, step, s1, cfg.history, limit);
    answers := before;
    if exit.Return? && exit.err.Some? {
      LimitFailsRun(w, hooks, step, s, exit);
    } else if !exit.Crash? {
      answers := LimitAnswered(w, hooks, s1, s, before);
    }
  }

  method Iterate(w: World, hooks: Hooks, cfg: LoopConfig, s0: State, ghost limit: int)
      returns (s: State, exit: Exit, ghost answers: seq<Response>)
    requires KeepsSound(hooks) && DistinctCalls(w, IterLimit(cfg)) && Good(s0) && Sound(s0.newMsgs) && s0.calls == 0
    requires Aligned(hooks, cfg.history, s0) && !s0.downgraded && s0.total == Usage(0, 0) && s0.sent == []
    ensures Over(w, hooks, cfg, s0, s, exit, limit, answers)
  {
    GoingFirst(w, hooks, cfg, s0, limit);
    hide Going, Over, KeepsSound, DistinctCalls;
    s, exit, answers := s0, Continue, [];
    var iterLimit := IterLimit(cfg);
    var step := 1;
    while step <= iterLimit
      invariant 1 <= step <= iterLimit + 1 && exit.Continue?
      invariant Going(w, hooks, cfg, s0, step, s, limit, answers)
    {
      s, exit, answers := Turn(w, hooks, cfg, step, s0, s, limit, answers);
      if !exit.Continue? {
        return;
      }
      step := step + 1;
    }
    exit := if w.cancelled(iterLimit + 1) then Failed(iterLimit, "context canceled")
            else Return(iterLimit, "", FinishMaxIterations, false, None);
    LimitReached(w, hooks, cfg, s0, s, exit, limit, answers);
  }

  lemma GoingFirst(w: World, hooks: Hooks, cfg: LoopConfig, s0: State, limit: int)
    requires Good(s0) && Sound(s0.newMsgs) && Aligned(hooks, cfg.history, s0)
    requires s0.calls == 0 && !s0.downgraded && s0.total == Usage(0, 0)
    ensures Going(w, hooks, cfg, s0, 1, s0, limit, [])
  {
    hide Good, Sound, Aligned, AllPaired;
  }

  // All steps are behind the run: it was cancelled, or the limit is reached.
  lemma LimitReached(w: World, hooks: Hooks, cfg: LoopConfig, s0: State, s: State, exit: Exit, limit: int,
        answers: seq<Response>)
    requires Going(w, hooks, cfg, s0, IterLimit(cfg) + 1, s, limit, answers)
    requires exit == if w.cancelled(IterLimit(cfg) + 1) then Failed(IterLimit(cfg), "context canceled")
                     else Return(IterLimit(cfg), "", FinishMaxIterations, false, None)
    ensures Over(w, hooks, cfg, s0, s, exit, limit, answers)
  {
    hide RunFails, Totals, Sound, Aligned, AllPaired, Guards, ShowsPaired;
    if w.cancelled(IterLimit(cfg) + 1) {
      LimitFailsRun(w, hooks, IterLimit(cfg), s, exit);
    }
  }

  // The result is this answer of the model: a text without calls, returned as it is, recorded with its
  // reasoning and usage as the last message, and marked as truncated if its stream was.
  ghost predicate IsAnswer(answer: LLMOutcome, w: World, cfg: LoopConfig, r: RunResult) {
    && answer.Answered? && answer.resp.toolCalls == [] && r.text == answer.resp.text
    && (r.truncated <==> r.steps <= IterLimit(cfg) && answer.resp.truncatedStream)
    && r.messages != [] && CarriesAnswer(r.messages[|r.messages|-1], answer.resp, w.clock(r.steps))
    && r.newMessages != [] && r.newMessages[|r.newMessages|-1] == r.messages[|r.messages|-1]
  }

  // The error is one that a run ends with, with these steps, messages and requests behind it.
  ghost predicate HasCause(w: World, hooks: Hooks, cfg: LoopConfig, r: RunResult, sent: seq<seq<Message>>) {
    exists s, exit ::
      && RunFails(w, hooks, IterLimit(cfg), s, exit) && exit.Return? && exit.err == r.err
      && exit.steps == r.steps && s.msgs == r.messages && s.sent == sent
  }

  // Run.  `calls` is the number of model calls the run completed; `limit` is any budget its hook guards.
  method Run(w: World, hooks: Hooks, cfg: LoopConfig, userPrompt: string, ghost limit: int)
      returns (r: RunResult, calls: nat, ghost sent: seq<seq<Message>>, ghost answers: seq<Response>)
    requires Sound(cfg.history) && KeepsSound(hooks) && DistinctCalls(w, IterLimit(cfg))
    // on every exit the transcript is block-structured, hence accepted by ValidateToolPairing
    ensures BlockStructured(r.messages) && PairedById(r.messages)
    // without transcript-rewriting hooks it is the history plus what the run reports as new
    ensures r.err != Some("run panicked") && hooks.beforeLLM.None? && hooks.onLLMError.None? ==>
              r.messages == cfg.history + r.newMessages
    // the new messages are block-structured too, unless a hook panicked
    ensures r.err != Some("run panicked") ==> BlockStructured(r.newMessages)
    // requests: one per model call, and one more for the single downgrade a run may have
    ensures r.llmRequests == calls + (if r.thinkingDowngraded then 1 else 0)
    ensures calls <= 2 * IterLimit(cfg) + 1 && r.llmRequests <= 2 * IterLimit(cfg) + 2
    ensures r.steps <= IterLimit(cfg) + 1
    // a finish reason is given exactly when there is no error; a stop ends with the answer it reports
    ensures r.err.None? <==> !r.finish.NoFinish?
    ensures r.finish.FinishStop? ==> EndsWithAnswer(r.messages, r.text)
    // the answer is what the model said to the last request, with thinking on unless it was downgraded
    ensures r.finish.FinishStop? ==>
              && sent != []
              && IsAnswer(w.llm(r.steps, |sent| - 1, cfg.thinking && !r.thinkingDowngraded, sent[|sent|-1]), w, cfg, r)
    ensures r.finish.FinishMaxIterations? ==>
              r.steps == IterLimit(cfg) && r.text == "" && !w.cancelled(IterLimit(cfg) + 1)
    // the new messages begin with the prompt
    ensures hooks.beforeLLM.None? ==>
              r.newMessages != [] && r.newMessages[0].role == RoleUser && r.newMessages[0].content == userPrompt
    // the first request is what the first step makes of the history and the prompt
    ensures sent != [] ==> exists m ::
              IsPrompt(m, userPrompt, w.clock(0)) && sent[0] == ViewOf(hooks, 1, cfg.history + [m])
    // every request the run sent is one the endpoint accepts, if the views of BeforeLLM are
    ensures |sent| == r.llmRequests && (ShowsPaired(hooks) ==> AllPaired(sent))
    // the budget
    ensures Guards(hooks, limit) && r.err.None? ==> Spent(r.usage) <= limit
    // an error is one of a hook, of the model call or of the context, behind as many steps as reported
    ensures r.err.Some? && r.err != Some("run panicked") ==> HasCause(w, hooks, cfg, r, sent)
    // the usage of a run without error is that of the model's answers, one a step, where no compaction
    // adds to it and no budget hook estimates it
    ensures r.err.None? ==> AreAnswers(w, sent, answers) && |answers| <= IterLimit(cfg) + 1
    ensures r.err.None? && hooks.beforeLLM.None? && hooks.onBudget.None? ==> r.usage == UsageSum(answers)
  {
    hide KeepsSound, DistinctCalls, IsAnswer, Concludes, Received, Guards, PairedById, CarriesAnswer, AreAnswers,
      RunFails, HasCause, EndsWithAnswer, ShowsPaired, UsageSum, BlockStructured, Sound, AllPaired;
    var s := Begin(w, hooks, cfg, userPrompt);
    ghost var prompt := s.newMsgs[0];
    var exit;
    s, exit, answers := Iterate(w, hooks, cfg, s, limit);
    SoundIsPaired(s.msgs);
    if !exit.Crash? {
      SoundIsPaired(s.newMsgs);
    }
    r, calls, sent := ToResult(s, exit), s.calls, s.sent;
    assert sent != [] ==> sent[0] == ViewOf(hooks, 1, cfg.history + [prompt]);
    if r.finish.FinishStop? {
      ConcludesIsAnswer(w, cfg, s, exit, r);
    } else if exit.Return? && exit.err.Some? {
      assert HasCause(w, hooks, cfg, r, sent) by {
        ErrorHasCause(w, hooks, cfg, s, exit, r);
      }
    }
  }

  ghost predicate IsPrompt(m: Message, prompt: string, now: int) {
    && m.role == RoleUser && m.content == prompt && m.ts == now
    && m.kind == "" && m.toolCalls == [] && m.reasoning == "" && m.usage.None?
  }

  // The prompt is the first new message.
  method Begin(w: World, hooks: Hooks, cfg: LoopConfig, userPrompt: string) returns (s: State)
    requires Sound(cfg.history)
    ensures Good(s) && Sound(s.newMsgs) && Aligned(hooks, cfg.history, s)
    ensures s == State(s.msgs, s.newMsgs, Usage(0, 0), 0, 0, cfg.thinking, false, false, []) && AllPaired(s.sent)
    ensures s.msgs == cfg.history + s.newMsgs
    ensures |s.newMsgs| == 1 && IsPrompt(s.newMsgs[0], userPrompt, w.clock(0)) && s.msgs == cfg.history + [s.newMsgs[0]]
  {
    assert cfg.history + [] == cfg.history;
    s := State(cfg.history, [], Usage(0, 0), 0, 0, cfg.thinking, false, false, []);
    s := Append(s, PLAIN.(content := userPrompt), w.clock(0), hooks, cfg.history);
  }

  lemma ErrorHasCause(w: World, hooks: Hooks, cfg: LoopConfig, s: State, exit: Exit, r: RunResult)
    requires exit.Return? && r == ToResult(s, exit) && RunFails(w, hooks, IterLimit(cfg), s, exit)
    ensures HasCause(w, hooks, cfg, r, s.sent)
  {
    hide RunFails;
  }

  lemma ConcludesIsAnswer(w: World, cfg: LoopConfig, s: State, exit: Exit, r: RunResult)
    requires exit.Return? && exit.finish.FinishStop? && r == ToResult(s, exit)
    requires Concludes(w, exit.steps, s, exit.text) && s.thinking == (cfg.thinking && !s.downgraded)
    requires exit.truncated <==> exit.steps <= IterLimit(cfg) && Received(w, exit.steps, s).resp.truncatedStream
    ensures s.sent != []
    ensures IsAnswer(w.llm(r.steps, |s.sent| - 1, cfg.thinking && !r.thinkingDowngraded, s.sent[|s.sent|-1]), w, cfg, r)
  {
  }
}
