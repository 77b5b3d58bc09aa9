/** The ReAct loop as a run over an oracle: hooks, model, tools, clock and cancellation may answer
    anything at every point, including a panic
    (Run, miniagent/loop.go; loop_extra.go; handleToolCalls, miniagent/tool_handler.go). */
module Loop {
  import opened Transcript
  import opened Decimal
  import opened FitHistory

  const MAX_ITERATIONS := 20
  const PLACEHOLDER := "tool result not submitted: upstream pipeline error"
  const SUMMARY_REQUEST := PLAIN.(role := RoleSystem,
      content := "All tool calls have completed. Please provide a summary reply.")

  // ---------------------------------------------------------------- the oracle

  datatype Response = Response(
    text: string, reasoning: string, reasoningState: string, toolCalls: seq<ToolCall>,
    usage: Usage, finishReason: string, truncatedStream: bool)

  datatype LLMOutcome = Answered(resp: Response) | ThinkingUnsupported | CallFailed(message: string)

  datatype ToolResult = ToolResult(output: string, isError: bool)

  datatype Signal = Proceed | Fail(message: string) | Panic
  datatype UseSignal = Allow | Deny | UseFail(message: string) | UsePanic
  datatype ShapeSignal = Shaped(content: string) | ShapeFail(message: string) | ShapePanic
  datatype BeforeSignal = BeforeOutput(output: StepOutput) | BeforeFail(message: string) | BeforePanic
  datatype RecoverSignal =
    | Recover(msgs: Option<seq<Message>>, retry: bool)
    | RecoverFail(message: string)
    | RecoverPanic
  datatype BudgetSignal = BudgetSignal(total: Usage, signal: Signal)

  datatype BudgetInput = BudgetInput(toSend: seq<Message>, resp: Response, preEstimate: int)

  // Every hook may be absent.  Calls are told apart by the step and, within it, by the call index.
  datatype Hooks = Hooks(
    onStep: Option<nat -> Signal>,
    beforeLLM: Option<(nat, seq<Message>) -> BeforeSignal>,
    onLLMError: Option<(nat, seq<Message>, string) -> RecoverSignal>,
    afterLLM: Option<(nat, Response) -> Signal>,
    onBudget: Option<(nat, BudgetInput, Usage) -> BudgetSignal>,
    onStepUsage: Option<nat -> Signal>,
    onToolUse: Option<(nat, nat, ToolCall) -> UseSignal>,
    onToolResult: Option<(nat, nat, ToolResult) -> Signal>,
    shapeToolResult: Option<(nat, nat, ToolResult) -> ShapeSignal>)

  // llm: the step, the number of the request within the run, whether thinking is sent, and the messages.
  // tools: what a step's calls return, given the denied ids.
  datatype World = World(
    llm: (nat, nat, bool, seq<Message>) -> LLMOutcome,
    tools: (nat, nat, ToolCall, bool) -> ToolResult,
    cancelled: nat -> bool,
    clock: nat -> int)

  // ---------------------------------------------------------------- appending

  function Stamp(m: Message, now: int): Message {
    if m.ts == 0 then m.(ts := now) else m
  }

  function AssistantMessage(resp: Response, calls: seq<ToolCall>): Message {
    PLAIN.(role := RoleAssistant, content := resp.text, reasoning := resp.reasoning,
           reasoningState := resp.reasoningState, toolCalls := calls, usage := Some(resp.usage))
  }

  function ResultMessage(id: string, content: string, isError: bool): Message {
    PLAIN.(role := RoleTool, toolCallId := id, content := content, isError := isError)
  }

  // mergePersisted: persisted entries go to the front and replace older entries of their kinds.
  predicate Replaced(m: Message, kinds: set<string>) {
    m.kind != "" && m.kind in kinds
  }

  function WithoutKinds(msgs: seq<Message>, kinds: set<string>): seq<Message> {
    if msgs == [] then []
    else if Replaced(msgs[0], kinds) then WithoutKinds(msgs[1..], kinds)
    else [msgs[0]] + WithoutKinds(msgs[1..], kinds)
  }

  function KindsOf(msgs: seq<Message>): set<string> {
    set m | m in msgs && m.kind != "" :: m.kind
  }

  method RemoveKinds(msgs: seq<Message>, kinds: set<string>) returns (filtered: seq<Message>)
    ensures filtered == WithoutKinds(msgs, kinds)
  {
    filtered := [];
    var rest := msgs;
    while rest != []
      invariant filtered + WithoutKinds(rest, kinds) == WithoutKinds(msgs, kinds)
      decreases |rest|
    {
      if !Replaced(rest[0], kinds) {
        filtered := filtered + [rest[0]];
      }
      rest := rest[1..];
    }
  }

  // A persisted message has the kind of m.
  ghost predicate Outdated(m: Message, persisted: seq<Message>) {
    m.kind != "" && exists p :: p in persisted && p.kind == m.kind
  }

  // The messages at the given places, in order: exactly those that are not outdated.
  ghost predicate KeepsRest(newMsgs: seq<Message>, persisted: seq<Message>, rest: seq<Message>, places: seq<nat>) {
    && |places| == |rest|
    && (forall a, b :: 0 <= a < b < |places| ==> places[a] < places[b])
    && (forall a :: 0 <= a < |places| ==> places[a] < |newMsgs| && rest[a] == newMsgs[places[a]])
    && (forall i :: 0 <= i < |newMsgs| ==> (i in places <==> !Outdated(newMsgs[i], persisted)))
  }

  // The persisted messages in front, then the new ones of other kinds.
  ghost predicate Merges(newMsgs: seq<Message>, persisted: seq<Message>, merged: seq<Message>) {
    persisted <= merged && exists places :: KeepsRest(newMsgs, persisted, merged[|persisted|..], places)
  }

  lemma {:induction false} WithoutKindsKeeps(newMsgs: seq<Message>, persisted: seq<Message>) returns (places: seq<nat>)
    ensures KeepsRest(newMsgs, persisted, WithoutKinds(newMsgs, KindsOf(persisted)), places)
    decreases |newMsgs|
  {
    if newMsgs == [] {
      places := [];
    } else {
      var n := |newMsgs| - 1;
      var front, m := newMsgs[..n], newMsgs[n];
      places := WithoutKindsKeeps(front, persisted);
      assert newMsgs == front + [m];
      WithoutKindsConcat(front, [m], KindsOf(persisted));
      OneKind(m, persisted);
      if !Outdated(m, persisted) {
        places := places + [n];
      }
    }
  }

  lemma OneKind(m: Message, persisted: seq<Message>)
    ensures WithoutKinds([m], KindsOf(persisted)) == if Outdated(m, persisted) then [] else [m]
  {
    assert [m][1..] == [];
    assert Replaced(m, KindsOf(persisted)) <==> Outdated(m, persisted);
  }

  method MergePersisted(newMsgs: seq<Message>, persisted: seq<Message>) returns (merged: seq<Message>)
    ensures merged == persisted + WithoutKinds(newMsgs, KindsOf(persisted))
    ensures Merges(newMsgs, persisted, merged)
  {
    var filtered := RemoveKinds(newMsgs, KindsOf(persisted));
    merged := persisted + filtered;
    ghost var places := WithoutKindsKeeps(newMsgs, persisted);
    assert merged[|persisted|..] == filtered;
  }

  lemma WithoutKindsBlock(block: seq<Message>, kinds: set<string>)
    requires IsBlock(block) && forall m :: m in block && Replaced(m, kinds) ==> m.role == RoleUser
    ensures WithoutKinds(block, kinds) == if Replaced(block[0], kinds) then [] else block
  {
    if Replaced(block[0], kinds) {
      assert block[1..] == [];
    } else {
      forall k | 0 <= k < |block| ensures !Replaced(block[k], kinds) {
        assert block[k] in block;
        assert k >= 1 ==> block[k].role == RoleTool;
      }
      NothingRemoved(block, kinds);
    }
  }

  lemma FirstBlock(msgs: seq<Message>)
    requires BlockStructured(msgs) && msgs != []
    ensures var n := BlockLen(msgs);
            n <= |msgs| && IsBlock(msgs[..n]) && BlockStructured(msgs[n..])
  {
    hide IsBlock;
  }

  lemma {:induction false} WithoutSummaries(msgs: seq<Message>, kinds: set<string>)
    requires BlockStructured(msgs) && forall m :: m in msgs && Replaced(m, kinds) ==> m.role == RoleUser
    ensures BlockStructured(WithoutKinds(msgs, kinds))
    decreases |msgs|
  {
    hide BlockStructured, IsBlock, WithoutKinds;
    if msgs == [] {
      NothingRemoved(msgs, kinds);
    } else {
      FirstBlock(msgs);
      var n := BlockLen(msgs);
      var block, rest := msgs[..n], msgs[n..];
      assert forall m :: m in rest ==> m in msgs;
      assert forall m :: m in block ==> m in msgs;
      WithoutSummaries(rest, kinds);
      WithoutKindsBlock(block, kinds);
      WithoutKindsConcat(block, rest, kinds);
      assert msgs == block + rest;
      if !Replaced(block[0], kinds) {
        BlockIsStructured(block);
        BlockStructuredConcat(block, WithoutKinds(rest, kinds));
      } else {
        assert [] + WithoutKinds(rest, kinds) == WithoutKinds(rest, kinds);
      }
    }
  }

  lemma {:induction false} WithoutKindsSubset(msgs: seq<Message>, kinds: set<string>)
    ensures forall m :: m in WithoutKinds(msgs, kinds) ==> m in msgs
    decreases |msgs|
  {
    if msgs == [] {
    } else {
      WithoutKindsSubset(msgs[1..], kinds);
    }
  }

  lemma {:induction false} WithoutKindsConcat(a: seq<Message>, b: seq<Message>, kinds: set<string>)
    ensures WithoutKinds(a + b, kinds) == WithoutKinds(a, kinds) + WithoutKinds(b, kinds)
    decreases |a|
  {
    if a == [] {
      assert a + b == b;
    } else {
      assert (a + b)[0] == a[0] && (a + b)[1..] == a[1..] + b;
      WithoutKindsConcat(a[1..], b, kinds);
    }
  }

  lemma {:induction false} NothingRemoved(msgs: seq<Message>, kinds: set<string>)
    requires forall k :: 0 <= k < |msgs| ==> !Replaced(msgs[k], kinds)
    ensures WithoutKinds(msgs, kinds) == msgs
    decreases |msgs|
  {
    if msgs == [] {
    } else {
      NothingRemoved(msgs[1..], kinds);
    }
  }

  // ---------------------------------------------------------------- call ids

  function SynthId(step: nat, i: nat): string {
    "synth_" + Itoa(step) + "_" + Itoa(i)
  }

  function Named(calls: seq<ToolCall>, step: nat): (r: seq<ToolCall>)
    ensures |r| == |calls|
    ensures forall i :: 0 <= i < |calls| ==>
              r[i] == if calls[i].id == "" then calls[i].(id := SynthId(step, i)) else calls[i]
  {
    seq(|calls|, i requires 0 <= i < |calls| => if calls[i].id == "" then calls[i].(id := SynthId(step, i))
        else calls[i])
  }

  lemma SynthIdInjective(step: nat, i: nat, step': nat, j: nat)
    requires SynthId(step, i) == SynthId(step', j)
    ensures i == j && step == step'
  {
    var a, b := "synth_" + Itoa(step), "synth_" + Itoa(step');
    assert SynthId(step, i) == a + ['_'] + Itoa(i) && SynthId(step', j) == b + ['_'] + Itoa(j);
    SplitAtLast(a, Itoa(i), b, Itoa(j), '_');
    assert a[6..] == Itoa(step) && b[6..] == Itoa(step');
    ItoaInjective(i, j);
    ItoaInjective(step, step');
  }

  // Synthesised ids make a response's ids distinct exactly when the ids it came with are distinct
  // among themselves and none of them is an id synthesised for this step.
  lemma NamedDistinctIff(calls: seq<ToolCall>, step: nat)
    ensures DistinctIds(Named(calls, step)) <==>
      && (forall i, j :: 0 <= i < j < |calls| && calls[i].id != "" ==> calls[i].id != calls[j].id)
      && (forall i, j :: 0 <= i < |calls| && 0 <= j < |calls| && calls[i].id != "" && calls[j].id == ""
            ==> calls[i].id != SynthId(step, j))
  {
    var named := Named(calls, step);
    if DistinctIds(named) {
      forall i, j | 0 <= i < |calls| && 0 <= j < |calls| && calls[i].id != "" && calls[j].id == ""
        ensures calls[i].id != SynthId(step, j)
      {
        assert i != j;
        assert named[i].id == calls[i].id && named[j].id == SynthId(step, j);
      }
      forall i, j | 0 <= i < j < |calls| && calls[i].id != "" ensures calls[i].id != calls[j].id {
        assert named[i].id != named[j].id;
      }
    } else {
      var i, j :| 0 <= i < j < |calls| && named[i].id == named[j].id;
      if calls[i].id == "" && calls[j].id == "" {
        SynthIdInjective(step, i, step, j);
      }
    }
  }

  // ---------------------------------------------------------------- tool calls

  // The content a result enters history with: shaped if the hook gives something, raw otherwise.
  function Content(hooks: Hooks, step: nat, i: nat, r: ToolResult): string {
    match hooks.shapeToolResult
    case None => r.output
    case Some(shape) =>
      match shape(step, i, r)
      case Shaped(c) => if c != "" then c else r.output
      case _ => r.output
  }

  function ToolMessage(hooks: Hooks, step: nat, calls: seq<ToolCall>, results: seq<ToolResult>, done: nat, i: nat,
        now: int): Message
    requires i < |calls| == |results|
  {
    Stamp(if i < done then ResultMessage(calls[i].id, Content(hooks, step, i, results[i]), results[i].isError)
          else ResultMessage(calls[i].id, PLACEHOLDER, true), now)
  }

  function ToolMessages(hooks: Hooks, step: nat, calls: seq<ToolCall>, results: seq<ToolResult>, done: nat,
        now: int): (r: seq<Message>)
    requires |calls| == |results|
    ensures |r| == |calls|
  {
    seq(|calls|, i requires 0 <= i < |calls| => ToolMessage(hooks, step, calls, results, done, i, now))
  }

  // The block a step's calls are recorded as: the assistant message and one tool message per call,
  // the first `done` of them with results, the others placeholders.
  function CallBlock(hooks: Hooks, step: nat, resp: Response, results: seq<ToolResult>, done: nat,
        now: int): seq<Message>
    requires |resp.toolCalls| == |results|
  {
    var calls := Named(resp.toolCalls, step);
    [Stamp(AssistantMessage(resp, calls), now)] + ToolMessages(hooks, step, calls, results, done, now)
  }

  lemma CallBlockIsBlock(hooks: Hooks, step: nat, resp: Response, results: seq<ToolResult>, done: nat, now: int)
    requires |resp.toolCalls| == |results| && DistinctIds(Named(resp.toolCalls, step))
    ensures IsBlock(CallBlock(hooks, step, resp, results, done, now))
    ensures forall m :: m in CallBlock(hooks, step, resp, results, done, now) ==> !m.IsSummary()
  {
    hide DistinctIds, AssistantMessage, Stamp, ToolMessage;
    var calls := Named(resp.toolCalls, step);
    var block := CallBlock(hooks, step, resp, results, done, now);
    FirstOfBlock(resp, calls, now);
    forall k | 1 <= k < |block| ensures block[k].role == RoleTool && block[k].toolCallId == calls[k-1].id
        && block[k].kind == "" {
      RestOfBlock(hooks, step, calls, results, done, k - 1, now);
    }
    forall m | m in block ensures !m.IsSummary() {
      var k :| 0 <= k < |block| && block[k] == m;
      assert m.kind == "" && |KIND_SUMMARY| == 7;
    }
  }

  lemma FirstOfBlock(resp: Response, calls: seq<ToolCall>, now: int)
    ensures var m := Stamp(AssistantMessage(resp, calls), now);
            m.role == RoleAssistant && m.toolCalls == calls && m.kind == ""
  {
  }

  lemma RestOfBlock(hooks: Hooks, step: nat, calls: seq<ToolCall>, results: seq<ToolResult>, done: nat, i: nat,
        now: int)
    requires i < |calls| == |results|
    ensures var m := ToolMessage(hooks, step, calls, results, done, i, now);
            m.role == RoleTool && m.toolCallId == calls[i].id && m.kind == ""
  {
  }

  // The results of a step's calls, in call order.
  function ToolResults(w: World, step: nat, calls: seq<ToolCall>, denied: set<string>): (r: seq<ToolResult>)
    ensures |r| == |calls|
  {
    seq(|calls|, i requires 0 <= i < |calls| => w.tools(step, i, calls[i], calls[i].id in denied))
  }

  // Denial goes by id: a call is denied when OnToolUse denied some call carrying its id.
  ghost predicate Denied(hooks: Hooks, step: nat, calls: seq<ToolCall>, i: nat)
    requires i < |calls|
  {
    hooks.onToolUse.Some?
    && exists k :: 0 <= k < |calls| && calls[k].id == calls[i].id && hooks.onToolUse.value(step, k, calls[k]).Deny?
  }

  // The hook lets the calls before i pass and stops the step at call i.
  ghost predicate UseStops(hooks: Hooks, step: nat, calls: seq<ToolCall>, i: nat, signal: Signal)
    requires i < |calls|
  {
    && hooks.onToolUse.Some?
    && (forall k :: 0 <= k < i ==>
          hooks.onToolUse.value(step, k, calls[k]).Allow? || hooks.onToolUse.value(step, k, calls[k]).Deny?)
    && match hooks.onToolUse.value(step, i, calls[i])
       case UseFail(message) => signal == Fail(message)
       case UsePanic => signal == Panic
       case _ => false
  }

  // First notify all calls: denied ids, or the failure that stops the step.
  method NotifyUses(hooks: Hooks, step: nat, calls: seq<ToolCall>) returns (denied: set<string>, signal: Signal)
    ensures hooks.onToolUse.None? ==> denied == {} && signal.Proceed?
    ensures signal.Panic? ==> |calls| > 0
    ensures hooks.onToolUse.Some? && signal.Proceed? ==> forall i :: 0 <= i < |calls| ==>
              hooks.onToolUse.value(step, i, calls[i]).Allow? || hooks.onToolUse.value(step, i, calls[i]).Deny?
    ensures hooks.onToolUse.Some? && signal.Proceed? ==>
              denied == set i | 0 <= i < |calls| && hooks.onToolUse.value(step, i, calls[i]).Deny? :: calls[i].id
    // it stops at the first hook that fails, and with that failure
    ensures !signal.Proceed? ==> exists i :: 0 <= i < |calls| && UseStops(hooks, step, calls, i, signal)
  {
    denied, signal := {}, Proceed;
    if hooks.onToolUse.None? {
      return;
    }
    var notify := hooks.onToolUse.value;
    for i := 0 to |calls|
      invariant forall k :: 0 <= k < i ==> notify(step, k, calls[k]).Allow? || notify(step, k, calls[k]).Deny?
      invariant denied == set k | 0 <= k < i && notify(step, k, calls[k]).Deny? :: calls[k].id
    {
      match notify(step, i, calls[i]) {
        case Allow =>
        case Deny => denied := denied + {calls[i].id};
        case UseFail(message) =>
          assert UseStops(hooks, step, calls, i, Fail(message));
          return denied, Fail(message);
        case UsePanic =>
          assert UseStops(hooks, step, calls, i, Panic);
          return denied, Panic;
      }
    }
  }

  ghost predicate ResultPasses(hooks: Hooks, step: nat, results: seq<ToolResult>, i: nat)
    requires i < |results|
  {
    hooks.onToolResult.Some? ==> hooks.onToolResult.value(step, i, results[i]).Proceed?
  }

  ghost predicate ShapePasses(hooks: Hooks, step: nat, results: seq<ToolResult>, i: nat)
    requires i < |results|
  {
    hooks.shapeToolResult.Some? ==> hooks.shapeToolResult.value(step, i, results[i]).Shaped?
  }

  // OnToolResult lets the results before i pass and stops at i.
  ghost predicate ResultStops(hooks: Hooks, step: nat, results: seq<ToolResult>, from: nat, i: nat, signal: Signal)
    requires i < |results|
  {
    && hooks.onToolResult.Some? && !signal.Proceed?
    && (forall k :: from <= k < i ==> ResultPasses(hooks, step, results, k))
    && signal == hooks.onToolResult.value(step, i, results[i])
  }

  ghost predicate RestStops(hooks: Hooks, step: nat, results: seq<ToolResult>, from: nat, failure: string,
        signal: Signal) {
    || (signal == Fail(failure) && forall j :: from <= j < |results| ==> ResultPasses(hooks, step, results, j))
    || exists j :: from <= j < |results| && ResultStops(hooks, step, results, from, j, signal)
  }

  // OnToolResult for the calls behind a shaping failure.
  method NotifyRest(hooks: Hooks, step: nat, results: seq<ToolResult>, from: nat, failure: string)
      returns (signal: Signal)
    requires from <= |results|
    ensures !signal.Proceed?
    ensures signal.Panic? ==> from < |results|
    // the first failure among the later results, and else the shaping failure
    ensures RestStops(hooks, step, results, from, failure, signal)
  {
    if hooks.onToolResult.Some? {
      for j := from to |results|
        invariant forall k :: from <= k < j ==> ResultPasses(hooks, step, results, k)
      {
        var s := hooks.onToolResult.value(step, j, results[j]);
        if !s.Proceed? {
          assert ResultStops(hooks, step, results, from, j, s);
          return s;
        }
      }
    }
    signal := Fail(failure);
  }

  // Why the result loop stopped with `done` results recorded: OnToolResult or a panic while shaping at
  // the next one, or a shaping failure at the last, which goes through OnToolResult for the others.
  ghost predicate LoopStops(hooks: Hooks, step: nat, results: seq<ToolResult>, done: nat, signal: Signal)
    requires done <= |results|
  {
    || (done < |results| && ResultStops(hooks, step, results, 0, done, signal))
    || (done < |results| && hooks.shapeToolResult.Some? && signal == Panic && ResultPasses(hooks, step, results, done)
        && hooks.shapeToolResult.value(step, done, results[done]).ShapePanic?)
    || (done >= 1 && hooks.shapeToolResult.Some?
        && hooks.shapeToolResult.value(step, done - 1, results[done - 1]).ShapeFail?
        && RestStops(hooks, step, results, done,
            hooks.shapeToolResult.value(step, done - 1, results[done - 1]).message, signal))
  }

  // The result loop: how many results were recorded before it ended, and how it ended.
  method SubmitResults(hooks: Hooks, step: nat, results: seq<ToolResult>) returns (done: nat, signal: Signal)
    ensures done <= |results|
    ensures signal.Proceed? ==> done == |results|
    ensures signal.Panic? ==> done < |results|
    // everything recorded was announced first, and shaping failed at most for the last one
    ensures forall i :: 0 <= i < done ==> ResultPasses(hooks, step, results, i)
    ensures forall i :: 0 <= i < (if signal.Proceed? then done else done - 1) ==> ShapePasses(hooks, step, results, i)
    // it stops only for a reason, and says which
    ensures !signal.Proceed? ==> LoopStops(hooks, step, results, done, signal)
  {
    done, signal := 0, Proceed;
    while done < |results|
      invariant done <= |results| && signal.Proceed?
      invariant forall i :: 0 <= i < done ==> ResultPasses(hooks, step, results, i)
      invariant forall i :: 0 <= i < done ==> ShapePasses(hooks, step, results, i)
    {
      if hooks.onToolResult.Some? {
        signal := hooks.onToolResult.value(step, done, results[done]);
        if !signal.Proceed? {
          assert ResultStops(hooks, step, results, 0, done, signal);
          return;
        }
      }
      if hooks.shapeToolResult.Some? {
        match hooks.shapeToolResult.value(step, done, results[done]) {
          case Shaped(_) =>
          case ShapeFail(message) =>
            signal := NotifyRest(hooks, step, results, done + 1, message);
            return done + 1, signal;
          case ShapePanic =>
            signal := Panic;
            return;
        }
      }
      done := done + 1;
    }
  }

  // What a call's message says: its id, a text, whether it is an error, and when it was written.
  ghost predicate Says(m: Message, id: string, content: string, isError: bool, now: int) {
    && m.role == RoleTool && m.toolCallId == id && m.content == content && m.isError == isError
    && m.toolCalls == [] && m.kind == "" && m.usage.None? && m.reasoning == "" && m.reasoningState == "" && m.ts == now
  }

  // A message that carries the whole answer of the model.
  ghost predicate CarriesAnswer(m: Message, resp: Response, now: int) {
    && m.role == RoleAssistant && m.content == resp.text && m.reasoning == resp.reasoning
    && m.reasoningState == resp.reasoningState && m.usage == Some(resp.usage)
    && m.toolCallId == "" && !m.isError && m.kind == "" && m.ts == now
  }

  // Its calls are the answer's, with ids filled in where it gave none.
  ghost predicate CarriesCalls(m: Message, resp: Response, step: nat) {
    && |m.toolCalls| == |resp.toolCalls|
    && forall i :: 0 <= i < |resp.toolCalls| ==>
         && m.toolCalls[i].name == resp.toolCalls[i].name && m.toolCalls[i].args == resp.toolCalls[i].args
         && m.toolCalls[i].id == if resp.toolCalls[i].id != "" then resp.toolCalls[i].id
                                 else "synth_" + Itoa(step) + "_" + Itoa(i)
  }

  // What the tool returned for a call, denied if OnToolUse denied its id.
  ghost predicate ToolReturned(w: World, hooks: Hooks, step: nat, calls: seq<ToolCall>, i: nat, r: ToolResult)
    requires i < |calls|
  {
    r == w.tools(step, i, calls[i], Denied(hooks, step, calls, i))
  }

  // The message shows the result: as the shaping hook put it if it gave a text, else the output.
  ghost predicate Shows(hooks: Hooks, step: nat, i: nat, m: Message, id: string, r: ToolResult, now: int) {
    && Says(m, id, m.content, r.isError, now)
    && if hooks.shapeToolResult.Some? && hooks.shapeToolResult.value(step, i, r).Shaped?
          && hooks.shapeToolResult.value(step, i, r).content != ""
       then m.content == hooks.shapeToolResult.value(step, i, r).content
       else m.content == r.output
  }

  // What a step records: the answer with its calls, under each of the first `done` calls what its tool
  // returned, and under each of the others an error that says so.
  ghost predicate RecordsStep(w: World, hooks: Hooks, step: nat, resp: Response, done: nat, block: seq<Message>) {
    && |block| == 1 + |resp.toolCalls| && done <= |resp.toolCalls|
    && CarriesAnswer(block[0], resp, w.clock(step)) && CarriesCalls(block[0], resp, step)
    && (forall i :: 0 <= i < done ==> RecordsResult(w, hooks, step, block, i))
    && (forall i :: done <= i < |resp.toolCalls| ==>
          Says(block[1+i], block[0].toolCalls[i].id, "tool result not submitted: upstream pipeline error", true,
              w.clock(step)))
  }

  ghost predicate RecordsResult(w: World, hooks: Hooks, step: nat, block: seq<Message>, i: nat)
    requires |block| > 0 && |block| == 1 + |block[0].toolCalls| && i < |block[0].toolCalls|
  {
    exists r :: ToolReturned(w, hooks, step, block[0].toolCalls, i, r)
      && Shows(hooks, step, i, block[1+i], block[0].toolCalls[i].id, r, w.clock(step))
  }

  lemma BlockRecords(w: World, hooks: Hooks, step: nat, resp: Response, results: seq<ToolResult>, done: nat)
    requires |results| == |resp.toolCalls| && done <= |results|
    requires var calls := Named(resp.toolCalls, step);
             forall i :: 0 <= i < done ==> ToolReturned(w, hooks, step, calls, i, results[i])
    ensures RecordsStep(w, hooks, step, resp, done, CallBlock(hooks, step, resp, results, done, w.clock(step)))
  {
    var calls := Named(resp.toolCalls, step);
    var block := CallBlock(hooks, step, resp, results, done, w.clock(step));
    forall i | 0 <= i < done ensures RecordsResult(w, hooks, step, block, i) {
      assert block[1+i] == ToolMessage(hooks, step, calls, results, done, i, w.clock(step));
      assert Shows(hooks, step, i, block[1+i], calls[i].id, results[i], w.clock(step));
    }
    forall i | done <= i < |calls|
      ensures Says(block[1+i], calls[i].id, "tool result not submitted: upstream pipeline error", true, w.clock(step))
    {
      assert block[1+i] == ToolMessage(hooks, step, calls, results, done, i, w.clock(step));
    }
  }

  // Why a step goes on, and else why it stops: every hook let everything pass.
  ghost predicate AllPass(hooks: Hooks, step: nat, calls: seq<ToolCall>, results: seq<ToolResult>)
    requires |results| == |calls|
  {
    && (hooks.onToolUse.Some? ==> forall i :: 0 <= i < |calls| ==>
          hooks.onToolUse.value(step, i, calls[i]).Allow? || hooks.onToolUse.value(step, i, calls[i]).Deny?)
    && (forall i :: 0 <= i < |results| ==>
        ResultPasses(hooks, step, results, i) && ShapePasses(hooks, step, results, i))
  }

  ghost predicate StepStops(hooks: Hooks, step: nat, calls: seq<ToolCall>, results: seq<ToolResult>, done: nat,
        signal: Signal)
    requires |results| == |calls| && done <= |results|
  {
    || (done == 0 && exists i :: 0 <= i < |calls| && UseStops(hooks, step, calls, i, signal))
    || LoopStops(hooks, step, results, done, signal)
  }

  // handleToolCalls: on every way out but a panic the transcript gains one complete block.
  method HandleToolCalls(w: World, hooks: Hooks, step: nat, resp: Response, msgs: seq<Message>, newMsgs: seq<Message>)
      returns (msgs': seq<Message>, newMsgs': seq<Message>, signal: Signal, ghost results: seq<ToolResult>,
          ghost done: nat)
    ensures |results| == |resp.toolCalls| && done <= |results|
    ensures signal.Proceed? ==> done == |results|
    ensures signal.Panic? ==> done < |results|
    ensures !signal.Panic? ==> msgs' == msgs + CallBlock(hooks, step, resp, results, done, w.clock(step))
    ensures !signal.Panic? ==> newMsgs' == newMsgs + CallBlock(hooks, step, resp, results, done, w.clock(step))
    // a panic leaves the caller's transcript as it was, and the new messages inside the block, before its end
    ensures signal.Panic? ==> msgs' == msgs
    ensures signal.Panic? ==> newMsgs' == newMsgs + CallBlock(hooks, step, resp, results, done, w.clock(step))[..1+done]
    // a denied call never runs: it gets the answer for a denied call
    ensures forall i :: 0 <= i < done ==> ToolReturned(w, hooks, step, Named(resp.toolCalls, step), i, results[i])
    // what is recorded under which call, in the transcript and among the new messages alike
    ensures !signal.Panic? ==> |msgs'| == |msgs| + 1 + |resp.toolCalls| && msgs <= msgs' && newMsgs <= newMsgs'
    ensures !signal.Panic? ==> RecordsStep(w, hooks, step, resp, done, msgs'[|msgs|..])
    ensures !signal.Panic? ==> newMsgs'[|newMsgs|..] == msgs'[|msgs|..]
    // it goes on exactly if every hook lets everything pass, and else stops with the first failure
    ensures signal.Proceed? ==> AllPass(hooks, step, Named(resp.toolCalls, step), results)
    ensures !signal.Proceed? ==> StepStops(hooks, step, Named(resp.toolCalls, step), results, done, signal)
  {
    var calls, now := Named(resp.toolCalls, step), w.clock(step);
    var assistant := Stamp(AssistantMessage(resp, calls), now);
    var denied;
    denied, signal := NotifyUses(hooks, step, calls);
    var tools: seq<Message> := [];
    if signal.Proceed? {
      tools, signal, results, done := RunCalls(w, hooks, step, calls, denied, now);
    } else {
      results, done := seq(|calls|, i => ToolResult("", true)), 0;
      if !signal.Panic? {
        tools := FillPlaceholderTail(hooks, step, calls, results, 0, now);
      }
    }
    newMsgs' := newMsgs + ([assistant] + tools);
    msgs' := if signal.Panic? then msgs else msgs + ([assistant] + tools);
    assert signal.Panic? ==> CallBlock(hooks, step, resp, results, done, now)[..1+done] == [assistant] + tools;
    BlockRecords(w, hooks, step, resp, results, done);
    ghost var block := CallBlock(hooks, step, resp, results, done, now);
    assert !signal.Panic? ==> (msgs + block)[|msgs|..] == block && (newMsgs + block)[|newMsgs|..] == block;
  }

  // The calls run, their results are announced, shaped and recorded; what is missing is filled up.
  method RunCalls(w: World, hooks: Hooks, step: nat, calls: seq<ToolCall>, denied: set<string>, now: int)
      returns (tools: seq<Message>, signal: Signal, ghost results: seq<ToolResult>, ghost done: nat)
    ensures |results| == |calls| && done <= |results|
    ensures signal.Proceed? ==> done == |results|
    ensures signal.Panic? ==> done < |results|
    ensures tools == if signal.Panic? then ToolMessages(hooks, step, calls, results, done, now)[..done]
                     else ToolMessages(hooks, step, calls, results, done, now)
    ensures results == ToolResults(w, step, calls, denied)
    ensures signal.Proceed? ==> forall i :: 0 <= i < |results| ==>
              ResultPasses(hooks, step, results, i) && ShapePasses(hooks, step, results, i)
    ensures !signal.Proceed? ==> LoopStops(hooks, step, results, done, signal)
  {
    var rs := ToolResults(w, step, calls, denied);
    results := rs;
    var n;
    n, signal := SubmitResults(hooks, step, rs);
    done := n;
    tools := [];
    for i := 0 to n
      invariant tools == ToolMessages(hooks, step, calls, rs, n, now)[..i]
    {
      tools := tools + [Stamp(ResultMessage(calls[i].id, Content(hooks, step, i, rs[i]), rs[i].isError), now)];
    }
    if !signal.Panic? {
      var tail := FillPlaceholderTail(hooks, step, calls, rs, n, now);
      tools := tools + tail;
    }
  }

  // One placeholder per call from `from` on.
  method FillPlaceholderTail(hooks: Hooks, step: nat, calls: seq<ToolCall>, ghost results: seq<ToolResult>,
        from: nat, now: int)
      returns (tail: seq<Message>)
    requires from <= |calls| == |results|
    ensures tail == ToolMessages(hooks, step, calls, results, from, now)[from..]
  {
    tail := [];
    for j := from to |calls|
      invariant tail == ToolMessages(hooks, step, calls, results, from, now)[from..j]
    {
      tail := tail + [Stamp(ResultMessage(calls[j].id, PLACEHOLDER, true), now)];
    }
  }
}
