/** Running a step's tool calls in parallel (miniagent/loop_tools.go: runToolsParallel, safeCall): the
    dispatching loop, one goroutine a call, a semaphore and cancellation, in every interleaving. */
module ToolsParallel {
  import opened Transcript
  import opened Loop

  // What a tool does when it runs.
  datatype Behaviour = Returns(result: ToolResult) | Panics

  datatype Setting = Setting(calls: seq<ToolCall>, known: set<string>, denied: set<string>, parallel: nat,
      tool: nat -> Behaviour)

  const REJECTED := ToolResult("user rejected execution", true)
  const CANCELLED := ToolResult("cancelled", true)

  function Unknown(name: string): ToolResult {
    ToolResult("unknown tool \"" + name + "\"", true)
  }

  // A panic of the tool becomes an error result.
  function SafeCall(setting: Setting, i: nat): ToolResult
    requires i < |setting.calls|
  {
    match setting.tool(i)
    case Returns(r) => r
    case Panics => ToolResult("tool \"" + setting.calls[i].name + "\" internal error", true)
  }

  // A goroutine before its first look at the context, after it, holding a slot while the tool runs,
  // and with its result written but the slot not yet given back.
  datatype Stage = Unspawned | Spawned | Queued | Running | Written | Exited

  // semaphore counts the slots taken; spawned is the loop's position; writes and ran are history.
  datatype System = System(spawned: nat, stage: seq<Stage>, semaphore: nat, cancelled: bool, returned: bool,
                           results: seq<Option<ToolResult>>, writes: seq<nat>, ran: set<nat>)

  datatype Step =
    | Dispatch
    | Look(i: nat)
    | Take(i: nat)
    | Abort(i: nat)
    | Finish(i: nat)
    | Release(i: nat)
    | Cancel
    | Return

  function Initial(setting: Setting): System {
    System(0, seq(|setting.calls|, _ => Unspawned), 0, false, false, seq(|setting.calls|, _ => None),
        seq(|setting.calls|, _ => 0), {})
  }

  predicate Sized(setting: Setting, s: System) {
    |s.stage| == |setting.calls| && |s.results| == |setting.calls| && |s.writes| == |setting.calls|
        && s.spawned <= |setting.calls|
  }

  function Write(s: System, i: nat, r: ToolResult, stage: Stage): System
    requires i < |s.stage| && i < |s.results| && i < |s.writes|
  {
    s.(stage := s.stage[i := stage], results := s.results[i := Some(r)], writes := s.writes[i := s.writes[i] + 1])
  }

  // A step that is not possible changes nothing.
  function Next(setting: Setting, s: System, step: Step): System
    requires Sized(setting, s)
  {
    match step
    case Dispatch =>
      if s.spawned == |setting.calls| then s
      else
        var i, call := s.spawned, setting.calls[s.spawned];
        (if call.id in setting.denied then Write(s, i, REJECTED, Exited)
         else if call.name !in setting.known then Write(s, i, Unknown(call.name), Exited)
         else s.(stage := s.stage[i := Spawned])).(spawned := i + 1)
    case Look(i) =>
      if i < |s.stage| && s.stage[i].Spawned?
      then if s.cancelled then Write(s, i, CANCELLED, Exited) else s.(stage := s.stage[i := Queued])
      else s
    case Take(i) =>
      if i < |s.stage| && s.stage[i].Queued? && s.semaphore < setting.parallel
      then s.(stage := s.stage[i := Running], semaphore := s.semaphore + 1, ran := s.ran + {i})
      else s
    case Abort(i) =>
      if i < |s.stage| && s.stage[i].Queued? && s.cancelled then Write(s, i, CANCELLED, Exited) else s
    case Finish(i) =>
      if i < |s.stage| && s.stage[i].Running? then Write(s, i, SafeCall(setting, i), Written) else s
    case Release(i) =>
      if i < |s.stage| && s.stage[i].Written? && s.semaphore > 0
      then s.(stage := s.stage[i := Exited], semaphore := s.semaphore - 1)
      else s
    case Cancel => s.(cancelled := true)
    case Return =>
      // wg.Wait: every goroutine is done.
      if s.spawned == |setting.calls| && forall i :: 0 <= i < |s.stage| ==>
          s.stage[i].Exited? then s.(returned := true) else s
  }

  function Run(setting: Setting, s: System, steps: seq<Step>): System
    requires Sized(setting, s)
    ensures Sized(setting, Run(setting, s, steps))
    decreases |steps|
  {
    if steps == [] then s else Run(setting, Next(setting, s, steps[0]), steps[1..])
  }

  // ---------------------------------------------------------------- counting

  function Total(stages: seq<Stage>, weight: Stage -> nat): nat {
    if stages == [] then 0 else Total(stages[..|stages|-1], weight) + weight(stages[|stages|-1])
  }

  lemma {:induction false} TotalUpdate(stages: seq<Stage>, i: nat, stage: Stage, weight: Stage -> nat)
    requires i < |stages|
    ensures Total(stages[i := stage], weight) + weight(stages[i]) == Total(stages, weight) + weight(stage)
    decreases |stages|
  {
    var n := |stages| - 1;
    if i < n {
      TotalUpdate(stages[..n], i, stage, weight);
      assert stages[i := stage][..n] == stages[..n][i := stage];
    } else {
      assert stages[i := stage][..n] == stages[..n];
    }
  }

  function Slot(stage: Stage): nat {
    if stage.Running? || stage.Written? then 1 else 0
  }

  function Flight(stage: Stage): nat {
    if stage.Running? then 1 else 0
  }

  lemma {:induction false} TotalAtMost(stages: seq<Stage>, small: Stage -> nat, large: Stage -> nat)
    requires forall x :: small(x) <= large(x)
    ensures Total(stages, small) <= Total(stages, large)
    decreases |stages|
  {
    if stages == [] {
    } else {
      TotalAtMost(stages[..|stages|-1], small, large);
    }
  }

  lemma {:induction false} TotalZero(stages: seq<Stage>, weight: Stage -> nat)
    requires forall i :: 0 <= i < |stages| ==> weight(stages[i]) == 0
    ensures Total(stages, weight) == 0
    decreases |stages|
  {
    if stages == [] {
    } else {
      TotalZero(stages[..|stages|-1], weight);
    }
  }

  // ---------------------------------------------------------------- the invariant

  predicate Dispatchable(setting: Setting, i: nat)
    requires i < |setting.calls|
  {
    setting.calls[i].id !in setting.denied && setting.calls[i].name in setting.known
  }

  // What may stand in slot i: the dispatcher's refusal, or the call's own result, or the cancellation
  // of a call that never ran.
  predicate Own(setting: Setting, s: System, i: nat)
    requires Sized(setting, s) && i < |setting.calls| && s.results[i].Some?
  {
    var r := s.results[i].value;
    if setting.calls[i].id in setting.denied then r == REJECTED
    else if setting.calls[i].name !in setting.known then r == Unknown(setting.calls[i].name)
    else (i in s.ran && r == SafeCall(setting, i)) || (i !in s.ran && s.cancelled && r == CANCELLED)
  }

  predicate Sane(setting: Setting, s: System, i: nat)
    requires Sized(setting, s) && i < |setting.calls|
  {
    && (s.stage[i].Unspawned? <==> i >= s.spawned)
    && (s.results[i].Some? <==> s.stage[i].Written? || s.stage[i].Exited?)
    && s.writes[i] == (if s.results[i].Some? then 1 else 0)
    && (s.results[i].Some? ==> Own(setting, s, i))
    && (s.stage[i].Running? || s.stage[i].Written? ==> i in s.ran)
    && (s.stage[i].Unspawned? || s.stage[i].Spawned? || s.stage[i].Queued? ==> i !in s.ran)
    && (!s.stage[i].Unspawned? && !s.stage[i].Exited? ==> Dispatchable(setting, i))
  }

  predicate Sound(setting: Setting, s: System) {
    && Sized(setting, s)
    && (forall i :: 0 <= i < |setting.calls| ==> Sane(setting, s, i))
    && s.semaphore == Total(s.stage, Slot) && s.semaphore <= setting.parallel
    && (s.returned ==> s.spawned == |setting.calls| && forall i :: 0 <= i < |s.stage| ==> s.stage[i].Exited?)
  }

  function Touched(s: System, step: Step): nat {
    match step
    case Dispatch => s.spawned
    case Look(i) => i
    case Take(i) => i
    case Abort(i) => i
    case Finish(i) => i
    case Release(i) => i
    case Cancel => 0
    case Return => 0
  }

  lemma SaneKept(setting: Setting, s: System, step: Step, i: nat)
    requires Sized(setting, s) && i < |setting.calls| && Sane(setting, s, i)
    ensures Sane(setting, Next(setting, s, step), i)
  {
  }

  // One slot, one stage changes at a time; the semaphore follows.
  lemma SemaphoreKept(setting: Setting, s: System, step: Step)
    requires Sized(setting, s) && s.semaphore == Total(s.stage, Slot) && s.semaphore <= setting.parallel
    requires s.spawned < |setting.calls| ==> s.stage[s.spawned].Unspawned?
    ensures Next(setting, s, step).semaphore == Total(Next(setting, s, step).stage, Slot)
    ensures Next(setting, s, step).semaphore <= setting.parallel
  {
    OneChange(setting, s, step);
    if Touched(s, step) < |s.stage| {
      TotalUpdate(s.stage, Touched(s, step), Next(setting, s, step).stage[Touched(s, step)], Slot);
    }
  }

  lemma OneChange(setting: Setting, s: System, step: Step)
    requires Sized(setting, s)
    requires s.spawned < |setting.calls| ==> s.stage[s.spawned].Unspawned?
    ensures var after, k := Next(setting, s, step), Touched(s, step);
            if k < |s.stage| then after.stage == s.stage[k := after.stage[k]]
                && after.semaphore - s.semaphore == Slot(after.stage[k]) - Slot(s.stage[k])
            else after.stage == s.stage && after.semaphore == s.semaphore
    ensures Next(setting, s, step).semaphore <= s.semaphore || Next(setting, s, step).semaphore <= setting.parallel
  {
    var after, k := Next(setting, s, step), Touched(s, step);
    assert k < |s.stage| ==> after.stage == s.stage[k := after.stage[k]];
  }

  lemma NextSound(setting: Setting, s: System, step: Step)
    requires Sound(setting, s)
    ensures Sound(setting, Next(setting, s, step))
  {
    assert s.spawned < |setting.calls| ==> Sane(setting, s, s.spawned);
    SemaphoreKept(setting, s, step);
    forall i | 0 <= i < |setting.calls| ensures Sane(setting, Next(setting, s, step), i) {
      SaneKept(setting, s, step, i);
    }
  }

  lemma InitialSound(setting: Setting)
    ensures Sound(setting, Initial(setting))
  {
    TotalZero(Initial(setting).stage, Slot);
  }

  lemma {:induction false} RunSound(setting: Setting, s: System, steps: seq<Step>)
    requires Sound(setting, s)
    ensures Sound(setting, Run(setting, s, steps))
    decreases |steps|
  {
    if steps == [] {
    } else {
      NextSound(setting, s, steps[0]);
      RunSound(setting, Next(setting, s, steps[0]), steps[1..]);
    }
  }

  // Slot i has been written at most once and by its own call; exactly once when the function returns.
  predicate Delivered(setting: Setting, s: System, i: nat)
    requires Sized(setting, s) && i < |setting.calls|
  {
    && s.writes[i] <= 1
    && (s.results[i].Some? ==> Own(setting, s, i))
    && (s.returned ==> s.results[i].Some? && s.writes[i] == 1)
  }

  // In every interleaving no more tools are in flight than allowed, and every slot is delivered.
  lemma EveryInterleaving(setting: Setting, steps: seq<Step>)
    ensures Total(Run(setting, Initial(setting), steps).stage, Flight) <= setting.parallel
    ensures forall i :: 0 <= i < |setting.calls| ==> Delivered(setting, Run(setting, Initial(setting), steps), i)
  {
    InitialSound(setting);
    RunSound(setting, Initial(setting), steps);
    var s := Run(setting, Initial(setting), steps);
    TotalAtMost(s.stage, Flight, Slot);
    forall i | 0 <= i < |setting.calls| ensures Delivered(setting, s, i) {
      assert Sane(setting, s, i);
    }
  }

  // A call that has not looked at the context when it is cancelled never runs its tool.
  lemma {:induction false} CancelledNeverRuns(setting: Setting, s: System, steps: seq<Step>, i: nat)
    requires Sound(setting, s) && s.cancelled && i < |setting.calls| && i !in s.ran
    requires s.stage[i].Unspawned? || s.stage[i].Spawned? || s.stage[i].Exited?
    ensures i !in Run(setting, s, steps).ran
    decreases |steps|
  {
    if steps == [] {
    } else {
      NextSound(setting, s, steps[0]);
      CancelledNeverRuns(setting, Next(setting, s, steps[0]), steps[1..], i);
    }
  }

  // ---------------------------------------------------------------- termination

  function Rank(stage: Stage): nat {
    match stage
    case Unspawned => 5
    case Spawned => 4
    case Queued => 3
    case Running => 2
    case Written => 1
    case Exited => 0
  }

  function Measure(s: System): nat {
    Total(s.stage, Rank) + (if s.cancelled then 0 else 1) + (if s.returned then 0 else 1)
  }

  // Every step that changes anything brings the end nearer ...
  lemma StepsGetNearer(setting: Setting, s: System, step: Step)
    requires Sound(setting, s)
    ensures Next(setting, s, step) == s || Measure(Next(setting, s, step)) < Measure(s)
  {
    var after, k := Next(setting, s, step), Touched(s, step);
    assert s.spawned < |setting.calls| ==> Sane(setting, s, s.spawned);
    OneChange(setting, s, step);
    if k < |s.stage| {
      TotalUpdate(s.stage, k, after.stage[k], Rank);
    }
  }

  // ... and until the function has returned, some step other than a cancellation is possible, provided
  // that tools return.
  lemma NeverStuck(setting: Setting, s: System) returns (step: Step)
    requires Sound(setting, s) && !s.returned && setting.parallel > 0
    ensures !step.Cancel? && Next(setting, s, step) != s
  {
    if s.spawned < |setting.calls| {
      step := Dispatch;
      assert Next(setting, s, step).spawned == s.spawned + 1;
    } else if i :| 0 <= i < |s.stage| && !s.stage[i].Exited? && !s.stage[i].Queued? {
      assert Sane(setting, s, i);
      step := if s.stage[i].Spawned? then Look(i) else if s.stage[i].Running? then Finish(i) else Release(i);
      if s.stage[i].Written? {
        SlotTaken(s.stage, i);
      }
      assert Next(setting, s, step).stage[i] != s.stage[i];
    } else if i :| 0 <= i < |s.stage| && s.stage[i].Queued? {
      step := Take(i);
      TotalZero(s.stage, Slot);
      assert Next(setting, s, step).stage[i] != s.stage[i];
    } else {
      step := Return;
      assert Next(setting, s, step).returned;
    }
  }

  // A schedule none of whose steps is idle.
  predicate Effective(setting: Setting, s: System, steps: seq<Step>)
    requires Sized(setting, s)
    decreases |steps|
  {
    steps == [] || (Next(setting, s, steps[0]) != s && Effective(setting, Next(setting, s, steps[0]), steps[1..]))
  }

  // Nothing is left to do, a cancellation apart.
  ghost predicate AtRest(setting: Setting, s: System)
    requires Sized(setting, s)
  {
    forall step :: Next(setting, s, step) == s || step.Cancel?
  }

  lemma {:induction false} EffectiveIsShort(setting: Setting, s: System, steps: seq<Step>)
    requires Sound(setting, s) && Effective(setting, s, steps)
    ensures |steps| + Measure(Run(setting, s, steps)) <= Measure(s)
    decreases |steps|
  {
    if steps == [] {
    } else {
      StepsGetNearer(setting, s, steps[0]);
      NextSound(setting, s, steps[0]);
      EffectiveIsShort(setting, Next(setting, s, steps[0]), steps[1..]);
    }
  }

  lemma {:induction false} FullMeasure(stages: seq<Stage>)
    requires forall i :: 0 <= i < |stages| ==> stages[i].Unspawned?
    ensures Total(stages, Rank) == 5 * |stages|
    decreases |stages|
  {
    if stages == [] {
    } else {
      FullMeasure(stages[..|stages|-1]);
    }
  }

  // Whatever the schedule: it is over after at most 5n + 2 steps that do something, and it comes to
  // rest exactly when the function has returned, with every slot written once.
  lemma Terminates(setting: Setting, steps: seq<Step>)
    requires setting.parallel > 0 && Effective(setting, Initial(setting), steps)
    ensures |steps| <= 5 * |setting.calls| + 2
    ensures var s := Run(setting, Initial(setting), steps);
            && (AtRest(setting, s) <==> s.returned)
            && (s.returned ==> forall i :: 0 <= i < |setting.calls| ==> s.results[i].Some? && s.writes[i] == 1)
  {
    hide Sound, Next, Run, Effective, AtRest, Own;
    InitialSound(setting);
    FullMeasure(Initial(setting).stage);
    EffectiveIsShort(setting, Initial(setting), steps);
    RunSound(setting, Initial(setting), steps);
    RestIsReturn(setting, Run(setting, Initial(setting), steps));
    EveryInterleaving(setting, steps);
    ReturnedFull(setting, Run(setting, Initial(setting), steps));
  }

  lemma ReturnedFull(setting: Setting, s: System)
    requires Sized(setting, s) && forall i :: 0 <= i < |setting.calls| ==> Delivered(setting, s, i)
    ensures s.returned ==> forall i :: 0 <= i < |setting.calls| ==> s.results[i].Some? && s.writes[i] == 1
  {
    forall i | 0 <= i < |setting.calls| ensures s.returned ==> s.results[i].Some? && s.writes[i] == 1 {
      assert Delivered(setting, s, i);
    }
  }

  lemma RestIsReturn(setting: Setting, s: System)
    requires Sound(setting, s) && setting.parallel > 0
    ensures AtRest(setting, s) <==> s.returned
  {
    if s.returned {
      forall step ensures Next(setting, s, step) == s || step.Cancel? {
      }
    } else {
      var step := NeverStuck(setting, s);
    }
  }

  lemma SlotTaken(stages: seq<Stage>, i: nat)
    requires i < |stages| && Slot(stages[i]) == 1
    ensures Total(stages, Slot) > 0
  {
    TotalUpdate(stages, i, Exited, Slot);
  }

  // ---------------------------------------------------------------- what the loop gets

  // The result of call i: refused, unknown, the tool's own, or cancelled before the tool ran.
  function CallResult(setting: Setting, ran: set<nat>, i: nat): ToolResult
    requires i < |setting.calls|
  {
    if setting.calls[i].id in setting.denied then REJECTED
    else if setting.calls[i].name !in setting.known then Unknown(setting.calls[i].name)
    else if i in ran then SafeCall(setting, i) else CANCELLED
  }

  // The slots as the function returns them.
  function Slots(s: System): seq<ToolResult>
    requires forall i :: 0 <= i < |s.results| ==> s.results[i].Some?
  {
    seq(|s.results|, i requires 0 <= i < |s.results| => s.results[i].value)
  }

  // What call i is answered with: its own tool's result, or the error that says why there is none.
  ghost predicate IsAnswer(setting: Setting, ran: set<nat>, i: nat, r: ToolResult)
    requires i < |setting.calls|
  {
    var call := setting.calls[i];
    if call.id in setting.denied then r == ToolResult("user rejected execution", true)
    else if call.name !in setting.known then r == ToolResult("unknown tool \"" + call.name + "\"", true)
    else if i !in ran then r == ToolResult("cancelled", true)
    else setting.tool(i) == Returns(r)
         || (setting.tool(i).Panics? && r == ToolResult("tool \"" + call.name + "\" internal error", true))
  }

  // In every schedule the slots returned are the results of the calls in call order; without a
  // cancellation every call that is neither refused nor unknown has run its tool.
  lemma SlotsInCallOrder(setting: Setting, steps: seq<Step>)
    requires Run(setting, Initial(setting), steps).returned
    ensures var s := Run(setting, Initial(setting), steps);
            && (forall i :: 0 <= i < |s.results| ==> s.results[i].Some?)
            && |Slots(s)| == |setting.calls|
            && (forall i :: 0 <= i < |setting.calls| ==> Slots(s)[i] == CallResult(setting, s.ran, i))
            && (forall i :: 0 <= i < |setting.calls| ==> IsAnswer(setting, s.ran, i, Slots(s)[i]))
            && (!s.cancelled ==> forall i :: 0 <= i < |setting.calls| && Dispatchable(setting, i) ==> i in s.ran)
  {
    InitialSound(setting);
    RunSound(setting, Initial(setting), steps);
    SlotsOfSound(setting, Run(setting, Initial(setting), steps));
  }

  lemma SlotsOfSound(setting: Setting, s: System)
    requires Sound(setting, s) && s.returned
    ensures forall i :: 0 <= i < |s.results| ==> s.results[i].Some?
    ensures forall i :: 0 <= i < |setting.calls| ==> Slots(s)[i] == CallResult(setting, s.ran, i)
    ensures !s.cancelled ==> forall i :: 0 <= i < |setting.calls| && Dispatchable(setting, i) ==> i in s.ran
  {
    forall i | 0 <= i < |setting.calls|
      ensures s.results[i].Some? && s.results[i].value == CallResult(setting, s.ran, i)
      ensures !s.cancelled && Dispatchable(setting, i) ==> i in s.ran
    {
      assert Sane(setting, s, i);
    }
  }

  // The world the loop sees answers each call as its goroutine did.
  predicate Answers(w: World, step: nat, setting: Setting, ran: set<nat>) {
    forall i :: 0 <= i < |setting.calls| ==>
      w.tools(step, i, setting.calls[i], setting.calls[i].id in setting.denied) == CallResult(setting, ran, i)
  }

  // The calls of a step and the ids that the hook denied.
  ghost predicate IsSetting(hooks: Hooks, step: nat, calls: seq<ToolCall>, setting: Setting) {
    && setting.calls == calls
    && forall i :: 0 <= i < |calls| ==> (Denied(hooks, step, calls, i) <==> calls[i].id in setting.denied)
  }

  // Then the loop is given what any schedule returned, and what it records under a call is what the
  // schedule left in that call's slot; and such a world exists for every schedule.
  lemma LoopGetsTheSlots(w: World, hooks: Hooks, step: nat, resp: Response, block: seq<Message>, done: nat,
        setting: Setting, steps: seq<Step>)
    requires RecordsStep(w, hooks, step, resp, done, block)
    requires IsSetting(hooks, step, block[0].toolCalls, setting)
    requires var s := Run(setting, Initial(setting), steps); s.returned && Answers(w, step, setting, s.ran)
    ensures var s := Run(setting, Initial(setting), steps);
            && (forall i :: 0 <= i < |s.results| ==> s.results[i].Some?) && |Slots(s)| == |resp.toolCalls|
            && Slots(s) == ToolResults(w, step, setting.calls, setting.denied)
            && (forall i :: 0 <= i < done ==>
                  Shows(hooks, step, i, block[1+i], block[0].toolCalls[i].id, Slots(s)[i], w.clock(step)))
  {
    hide Run, Shows;
    SlotsInCallOrder(setting, steps);
    forall i | 0 <= i < done
      ensures Shows(hooks, step, i, block[1+i], block[0].toolCalls[i].id,
                    Slots(Run(setting, Initial(setting), steps))[i], w.clock(step))
    {
      assert RecordsResult(w, hooks, step, block, i);
    }
  }

  lemma AnswersExist(w: World, step: nat, setting: Setting, ran: set<nat>) returns (w': World)
    ensures Answers(w', step, setting, ran) && w' == w.(tools := w'.tools)
  {
    w' := w.(tools := (n: nat, i: nat, call: ToolCall, denied: bool) =>
                     if i < |setting.calls| then CallResult(setting, ran, i) else CANCELLED);
  }

  // Without a cancellation the schedule does not matter: any two return the same results.
  lemma ScheduleDoesNotMatter(setting: Setting, steps: seq<Step>, others: seq<Step>)
    requires var s, t := Run(setting, Initial(setting), steps), Run(setting, Initial(setting), others);
             s.returned && t.returned && !s.cancelled && !t.cancelled
    ensures Run(setting, Initial(setting), steps).results == Run(setting, Initial(setting), others).results
  {
    SlotsInCallOrder(setting, steps);
    SlotsInCallOrder(setting, others);
    var s, t := Run(setting, Initial(setting), steps), Run(setting, Initial(setting), others);
    forall i | 0 <= i < |setting.calls| ensures s.results[i] == t.results[i] {
      assert Slots(s)[i] == CallResult(setting, s.ran, i) && Slots(t)[i] == CallResult(setting, t.ran, i);
    }
  }
}
