/** The message model shared by the loop, compaction and the session log (miniagent/message.go),
    tool_call/tool pairing, and the block structure that every producer of transcripts keeps. */
module Transcript {
  import opened Seqs

  datatype Option<+T> = None | Some(value: T)

  // Any other role a record may name.
  type OtherName = s: string | s !in {"system", "user", "assistant", "tool"} witness ""

  datatype Role = RoleSystem | RoleUser | RoleAssistant | RoleTool | RoleUnknown(name: OtherName)

  datatype ToolCall = ToolCall(id: string, name: string, args: string)

  datatype Usage = Usage(inputTokens: int, outputTokens: int)

  datatype Message = Message(
    role: Role, content: string, reasoning: string, reasoningState: string,
    toolCalls: seq<ToolCall>, toolCallId: string, isError: bool, kind: string,
    usage: Option<Usage>, ts: int)
  {
    predicate IsSummary() {
      kind == KIND_SUMMARY
    }
  }

  const KIND_SUMMARY := "summary"

  const PLAIN := Message(RoleUser, "", "", "", [], "", false, "", None, 0)

  // ---------------------------------------------------------------- pairing

  datatype PairingError =
    | DuplicateCall(index: nat, id: string)
    | OrphanResult(index: nat, id: string)
    | MissingResults(count: nat)

  // The call/result events of a transcript, in order.  Tool calls carried by anything but an
  // assistant message are not looked at by the validator.
  datatype Event = Call(id: string) | Answer(id: string)

  function CallEvents(calls: seq<ToolCall>): (events: seq<Event>)
    ensures |events| == |calls|
    ensures forall i :: 0 <= i < |calls| ==> events[i] == Call(calls[i].id)
  {
    seq(|calls|, i requires 0 <= i < |calls| => Call(calls[i].id))
  }

  function MessageEvents(m: Message): seq<Event> {
    match m.role
    case RoleAssistant => CallEvents(m.toolCalls)
    case RoleTool => [Answer(m.toolCallId)]
    case _ => []
  }

  function Events(msgs: seq<Message>): seq<Event> {
    if msgs == [] then [] else MessageEvents(msgs[0]) + Events(msgs[1..])
  }

  // The events that concern one id.
  function Project(events: seq<Event>, id: string): seq<Event> {
    if events == [] then []
    else if events[0].id == id then [events[0]] + Project(events[1..], id)
    else Project(events[1..], id)
  }

  // Every call of the id is answered before the id is called again, and nothing stays open.
  predicate Alternates(events: seq<Event>, open: bool) {
    if events == [] then !open
    else events[0].Call? != open && Alternates(events[1..], !open)
  }

  // Declarative pairing: looked at id by id, calls and results strictly alternate.
  ghost predicate PairedById(msgs: seq<Message>) {
    forall id :: Alternates(Project(Events(msgs), id), false)
  }

  // What the validator's pending set accepts, event by event.
  predicate Accepts(events: seq<Event>, pending: set<string>) {
    if events == [] then pending == {}
    else match events[0]
      case Call(id) => id !in pending && Accepts(events[1..], pending + {id})
      case Answer(id) => id in pending && Accepts(events[1..], pending - {id})
  }

  lemma {:induction false} AcceptsIffAlternates(events: seq<Event>, pending: set<string>)
    ensures Accepts(events, pending)
            <==> forall id :: Alternates(Project(events, id), id in pending)
    decreases |events|
  {
    if events == [] {
      if Accepts(events, pending) {
      } else {
        var id :| id in pending;
        assert !Alternates(Project(events, id), true);
      }
    } else {
      var e, rest := events[0], events[1..];
      var next := if e.Call? then pending + {e.id} else pending - {e.id};
      AcceptsIffAlternates(rest, next);
      assert Project(events, e.id) == [e] + Project(rest, e.id);
      assert Alternates(Project(events, e.id), e.id in pending)
          <==> (e.Call? != (e.id in pending) && Alternates(Project(rest, e.id), !(e.id in pending)));
      if e.Call? != (e.id in pending) {
        forall id ensures Alternates(Project(events, id), id in pending)
                     <==> Alternates(Project(rest, id), id in next) {
        }
      }
    }
  }

  lemma AcceptsStep(e: Event, rest: seq<Event>, pending: set<string>)
    ensures e.Call? ==> (Accepts([e] + rest, pending) <==> e.id !in pending && Accepts(rest, pending + {e.id}))
    ensures e.Answer? ==> (Accepts([e] + rest, pending) <==> e.id in pending && Accepts(rest, pending - {e.id}))
  {
    assert ([e] + rest)[1..] == rest;
  }

  // The inner loop of the validator: an assistant's calls enter the pending set.
  method OpenCalls(calls: seq<ToolCall>, before: set<string>, ghost rest: seq<Event>)
      returns (duplicate: Option<string>, pending: set<string>)
    ensures duplicate.Some? ==> !Accepts(CallEvents(calls) + rest, before)
    ensures duplicate.None? ==> (Accepts(CallEvents(calls) + rest, before) <==> Accepts(rest, pending))
  {
    pending := before;
    var j := 0;
    assert CallEvents(calls)[0..] == CallEvents(calls);
    while j < |calls|
      invariant 0 <= j <= |calls|
      invariant Accepts(CallEvents(calls) + rest, before) <==> Accepts(CallEvents(calls)[j..] + rest, pending)
    {
      var id := calls[j].id;
      AcceptsStep(Call(id), CallEvents(calls)[j+1..] + rest, pending);
      assert CallEvents(calls)[j..] + rest == [Call(id)] + (CallEvents(calls)[j+1..] + rest);
      if id in pending {
        return Some(id), pending;
      }
      pending := pending + {id};
      j := j + 1;
    }
    assert CallEvents(calls)[j..] + rest == rest;
    duplicate := None;
  }

  // ValidateToolPairing: one pass with a pending set.
  method ValidateToolPairing(msgs: seq<Message>) returns (err: Option<PairingError>)
    ensures err.None? <==> PairedById(msgs)
    ensures err.Some? && !err.value.MissingResults? ==> err.value.index < |msgs|
  {
    var pending: set<string> := {};
    var i := 0;
    assert msgs[0..] == msgs;
    AcceptsIffAlternates(Events(msgs), {});
    while i < |msgs|
      invariant 0 <= i <= |msgs|
      invariant Accepts(Events(msgs), {}) <==> Accepts(Events(msgs[i..]), pending)
    {
      var m := msgs[i];
      ghost var rest := Events(msgs[i+1..]);
      assert Events(msgs[i..]) == MessageEvents(m) + rest by {
        assert msgs[i..][1..] == msgs[i+1..];
      }
      if m.role == RoleAssistant {
        var duplicate;
        duplicate, pending := OpenCalls(m.toolCalls, pending, rest);
        if duplicate.Some? {
          return Some(DuplicateCall(i, duplicate.value));
        }
      } else if m.role == RoleTool {
        AcceptsStep(Answer(m.toolCallId), rest, pending);
        if m.toolCallId !in pending {
          return Some(OrphanResult(i, m.toolCallId));
        }
        pending := pending - {m.toolCallId};
      } else {
        assert MessageEvents(m) + rest == rest;
      }
      i := i + 1;
    }
    assert Events(msgs[i..]) == [];
    err := if pending != {} then Some(MissingResults(|pending|)) else None;
  }

  // ---------------------------------------------------------------- block structure

  predicate DistinctIds(calls: seq<ToolCall>) {
    forall i, j :: 0 <= i < j < |calls| ==> calls[i].id != calls[j].id
  }

  // A block: one message that is not a tool result, followed by exactly one tool message per call
  // it carries, in call order.  Only assistants carry calls.
  ghost predicate IsBlock(block: seq<Message>) {
    && |block| > 0
    && |block| == 1 + |block[0].toolCalls|
    && block[0].role != RoleTool
    && (block[0].role != RoleAssistant ==> block[0].toolCalls == [])
    && DistinctIds(block[0].toolCalls)
    && forall k :: 1 <= k < |block| ==>
         block[k].role == RoleTool && block[k].toolCallId == block[0].toolCalls[k-1].id
  }

  function BlockLen(msgs: seq<Message>): (n: nat)
    requires msgs != []
  {
    1 + |msgs[0].toolCalls|
  }

  ghost predicate BlockStructured(msgs: seq<Message>)
    decreases |msgs|
  {
    msgs == [] ||
    (BlockLen(msgs) <= |msgs| && IsBlock(msgs[..BlockLen(msgs)]) && BlockStructured(msgs[BlockLen(msgs)..]))
  }

  lemma BlockIsStructured(block: seq<Message>)
    requires IsBlock(block)
    ensures BlockStructured(block)
  {
    assert block[..BlockLen(block)] == block;
    assert BlockStructured(block[BlockLen(block)..]);
  }

  lemma {:induction false} BlockStructuredConcat(a: seq<Message>, b: seq<Message>)
    requires BlockStructured(a) && BlockStructured(b)
    ensures BlockStructured(a + b)
    decreases |a|
  {
    if a == [] {
      assert a + b == b;
    } else {
      var n := BlockLen(a);
      BlockStructuredConcat(a[n..], b);
      assert (a + b)[..n] == a[..n];
      assert (a + b)[n..] == a[n..] + b;
    }
  }

  function IdsUpTo(calls: seq<ToolCall>, k: nat): set<string>
    requires k <= |calls|
  {
    set i | 0 <= i < k :: calls[i].id
  }

  // A block opens only fresh ids and closes exactly what it seen.
  lemma {:induction false} ClosesInOrder(calls: seq<ToolCall>, k: nat, pending: set<string>, rest: seq<Event>)
    requires k <= |calls| && DistinctIds(calls)
    requires forall i :: 0 <= i < |calls| ==> (calls[i].id in pending <==> k <= i)
    ensures Accepts(seq(|calls| - k, i requires 0 <= i < |calls| - k => Answer(calls[k+i].id)) + rest, pending)
            <==> Accepts(rest, pending - IdsUpTo(calls, |calls|))
    decreases |calls| - k
  {
    var ids := IdsUpTo(calls, |calls|);
    var results := seq(|calls| - k, i requires 0 <= i < |calls| - k => Answer(calls[k+i].id));
    if k == |calls| {
      assert results + rest == rest;
      assert pending - ids == pending;
    } else {
      var next := seq(|calls| - (k+1), i requires 0 <= i < |calls| - (k+1) => Answer(calls[k+1+i].id));
      assert (results + rest)[0] == Answer(calls[k].id);
      assert (results + rest)[1..] == next + rest;
      ClosesInOrder(calls, k + 1, pending - {calls[k].id}, rest);
      assert calls[k].id in ids;
      assert pending - {calls[k].id} - ids == pending - ids;
    }
  }

  lemma {:induction false} OpensInOrder(calls: seq<ToolCall>, k: nat, rest: seq<Event>)
    requires k <= |calls| && DistinctIds(calls)
    ensures Accepts(CallEvents(calls)[k..] + rest, IdsUpTo(calls, k))
            <==> Accepts(rest, IdsUpTo(calls, |calls|))
    decreases |calls| - k
  {
    var seen := IdsUpTo(calls, k);
    if k == |calls| {
      assert CallEvents(calls)[k..] + rest == rest;
    } else {
      var ev := CallEvents(calls)[k..] + rest;
      assert ev[0] == Call(calls[k].id) && ev[1..] == CallEvents(calls)[k+1..] + rest;
      assert seen + {calls[k].id} == IdsUpTo(calls, k + 1);
      OpensInOrder(calls, k + 1, rest);
    }
  }

  lemma {:induction false} EventsConcat(a: seq<Message>, b: seq<Message>)
    ensures Events(a + b) == Events(a) + Events(b)
    decreases |a|
  {
    if a == [] {
      assert a + b == b;
    } else {
      EventsConcat(a[1..], b);
      ConsConcat(a, b);
      Assoc(MessageEvents(a[0]), Events(a[1..]), Events(b));
    }
  }

  lemma {:induction false} ToolEvents(tools: seq<Message>)
    requires forall i :: 0 <= i < |tools| ==> tools[i].role == RoleTool
    ensures Events(tools) == seq(|tools|, i requires 0 <= i < |tools| => Answer(tools[i].toolCallId))
    decreases |tools|
  {
    if tools == [] {
    } else {
      ToolEvents(tools[1..]);
    }
  }

  lemma BlockEventsAccepted(block: seq<Message>, rest: seq<Event>)
    requires IsBlock(block)
    ensures Accepts(Events(block) + rest, {}) <==> Accepts(rest, {})
  {
    var calls, tools := block[0].toolCalls, block[1..];
    assert block == [block[0]] + tools;
    ToolEvents(tools);
    assert Events(block) == MessageEvents(block[0]) + Events(tools);
    if block[0].role == RoleAssistant {
      var results := seq(|calls| - 0, i requires 0 <= i < |calls| - 0 => Answer(calls[0+i].id));
      assert Events(tools) == results;
      assert Events(block) + rest == CallEvents(calls)[0..] + (results + rest);
      assert IdsUpTo(calls, 0) == {};
      OpensInOrder(calls, 0, results + rest);
      var ids := IdsUpTo(calls, |calls|);
      ClosesInOrder(calls, 0, ids, rest);
      assert ids - ids == {};
    } else {
      assert Events(block) + rest == rest;
    }
  }

  lemma {:induction false} BlockStructuredAccepted(msgs: seq<Message>)
    requires BlockStructured(msgs)
    ensures Accepts(Events(msgs), {})
    decreases |msgs|
  {
    if msgs == [] {
    } else {
      var n := BlockLen(msgs);
      BlockStructuredAccepted(msgs[n..]);
      EventsConcat(msgs[..n], msgs[n..]);
      assert msgs == msgs[..n] + msgs[n..];
      BlockEventsAccepted(msgs[..n], Events(msgs[n..]));
    }
  }

  // Block structure is stronger than what the endpoint-side validator asks for.
  lemma BlockStructuredIsPaired(msgs: seq<Message>)
    requires BlockStructured(msgs)
    ensures PairedById(msgs)
  {
    BlockStructuredAccepted(msgs);
    AcceptsIffAlternates(Events(msgs), {});
  }

  // The converse fails: the validator lets another message stand between a call and its result.
  lemma PairedNeedNotBeBlockStructured() returns (msgs: seq<Message>)
    ensures PairedById(msgs) && !BlockStructured(msgs)
  {
    var call := PLAIN.(role := RoleAssistant, toolCalls := [ToolCall("a", "shell", "")]);
    var result := PLAIN.(role := RoleTool, toolCallId := "a");
    msgs := [call, PLAIN, result];
    assert MessageEvents(call) == [Call("a")];
    assert msgs[1..][1..] == [result] && msgs[1..][1..][1..] == [];
    assert Events(msgs[1..][1..]) == [Answer("a")];
    assert Events(msgs[1..]) == [Answer("a")];
    assert Events(msgs) == [Call("a"), Answer("a")];
    assert [Call("a")] + [Answer("a")] == Events(msgs) && [Answer("a")] + [] == [Answer("a")];
    AcceptsStep(Call("a"), [Answer("a")], {});
    AcceptsStep(Answer("a"), [], {"a"});
    assert {} + {"a"} == {"a"} && {"a"} - {"a"} == {};
    assert Accepts(Events(msgs), {});
    AcceptsIffAlternates(Events(msgs), {});
    assert PairedById(msgs);
    assert msgs[..BlockLen(msgs)][1] == PLAIN;
  }

  // A response whose calls share an id cannot be recorded in a form the validator accepts: this is
  // the exact condition under which an assistant message with its results is well paired.
  lemma BlockPairedIffDistinct(block: seq<Message>)
    requires |block| > 0 && |block| == 1 + |block[0].toolCalls| && block[0].role == RoleAssistant
    requires forall k :: 1 <= k < |block| ==>
               block[k].role == RoleTool && block[k].toolCallId == block[0].toolCalls[k-1].id
    ensures PairedById(block) <==> DistinctIds(block[0].toolCalls)
  {
    var calls := block[0].toolCalls;
    AcceptsIffAlternates(Events(block), {});
    if DistinctIds(calls) {
      BlockIsStructured(block);
      BlockStructuredAccepted(block);
    } else {
      var i, j :| 0 <= i < j < |calls| && calls[i].id == calls[j].id;
      assert Events(block) == CallEvents(calls) + Events(block[1..]);
      AcceptsCallsDistinct(calls, Events(block[1..]), {}, 0);
      assert CallEvents(calls)[0..] + Events(block[1..]) == Events(block);
    }
  }

  lemma {:induction false} AcceptsCallsDistinct(calls: seq<ToolCall>, rest: seq<Event>, pending: set<string>, k: nat)
    requires k <= |calls|
    requires pending == IdsUpTo(calls, k)
    requires forall i, j :: 0 <= i < j < k ==> calls[i].id != calls[j].id
    ensures Accepts(CallEvents(calls)[k..] + rest, pending) ==> DistinctIds(calls)
    decreases |calls| - k
  {
    if k < |calls| {
      var ev := CallEvents(calls)[k..] + rest;
      assert ev[0] == Call(calls[k].id) && ev[1..] == CallEvents(calls)[k+1..] + rest;
      if calls[k].id !in pending {
        assert pending + {calls[k].id} == IdsUpTo(calls, k + 1);
        forall i, j | 0 <= i < j < k + 1 ensures calls[i].id != calls[j].id {
          assert calls[i].id in IdsUpTo(calls, k + 1);
          if j == k { assert calls[i].id in pending; }
        }
        AcceptsCallsDistinct(calls, rest, pending + {calls[k].id}, k + 1);
      }
    }
  }

  // ---------------------------------------------------------------- blocks that break off

  // Behind complete blocks, the beginning of a block is well paired only if it is the whole of it.
  lemma BrokenOffBlock(msgs: seq<Message>, block: seq<Message>, k: nat)
    requires BlockStructured(msgs) && IsBlock(block) && 1 <= k <= |block|
    ensures PairedById(msgs + block[..k]) <==> k == |block|
  {
    EventsConcat(msgs, block[..k]);
    AcceptsIffAlternates(Events(msgs + block[..k]), {});
    StructuredPrefix(msgs, Events(block[..k]));
    if k < |block| {
      BrokenOffAlone(block, k);
    } else {
      assert block[..k] == block;
      BlockIsStructured(block);
      BlockStructuredAccepted(block);
    }
  }

  lemma BrokenOffAlone(block: seq<Message>, k: nat)
    requires IsBlock(block) && 1 <= k < |block|
    ensures !Accepts(Events(block[..k]), {})
  {
    var calls, tools := block[0].toolCalls, block[1..k];
    assert block[0].role == RoleAssistant;
    var answers := seq(k - 1 - 0, j requires 0 <= j < k - 1 - 0 => Answer(calls[0+j].id));
    ToolEvents(tools);
    assert Events(tools) == answers;
    assert block[..k][0] == block[0] && block[..k][1..] == tools;
    assert Events(block[..k]) == CallEvents(calls)[0..] + answers;
    assert IdsUpTo(calls, 0) == {};
    OpensInOrder(calls, 0, answers);
    ClosesSome(calls, k - 1, 0, IdsUpTo(calls, |calls|));
  }

  lemma BlockPrefix(block: seq<Message>, tail: seq<Message>, rest: seq<Event>)
    requires IsBlock(block)
    ensures Accepts(Events(block + tail) + rest, {}) <==> Accepts(Events(tail) + rest, {})
  {
    EventsConcat(block, tail);
    Assoc(Events(block), Events(tail), rest);
    BlockEventsAccepted(block, Events(tail) + rest);
  }

  lemma {:induction false} StructuredPrefix(msgs: seq<Message>, rest: seq<Event>)
    requires BlockStructured(msgs)
    ensures Accepts(Events(msgs) + rest, {}) <==> Accepts(rest, {})
    decreases |msgs|
  {
    if msgs == [] {
      assert Events(msgs) + rest == rest;
    } else {
      var n := BlockLen(msgs);
      assert msgs == msgs[..n] + msgs[n..];
      BlockPrefix(msgs[..n], msgs[n..], rest);
      StructuredPrefix(msgs[n..], rest);
    }
  }

  // Answers from i up to k leave the later calls pending.
  lemma {:induction false} ClosesSome(calls: seq<ToolCall>, k: nat, i: nat, pending: set<string>)
    requires i <= k < |calls| && DistinctIds(calls)
    requires forall j :: i <= j < |calls| ==> calls[j].id in pending
    ensures !Accepts(seq(k - i, j requires 0 <= j < k - i => Answer(calls[i+j].id)), pending)
    decreases k - i
  {
    var answers := seq(k - i, j requires 0 <= j < k - i => Answer(calls[i+j].id));
    if i == k {
      assert calls[k].id in pending;
    } else {
      assert answers[1..] == seq(k - (i+1), j requires 0 <= j < k - (i+1) => Answer(calls[i+1+j].id));
      forall j | i + 1 <= j < |calls| ensures calls[j].id in pending - {calls[i].id} {
        assert calls[i].id != calls[j].id;
      }
      ClosesSome(calls, k, i + 1, pending - {calls[i].id});
    }
  }

  // ---------------------------------------------------------------- shape

  // Two transcripts of the same shape differ only in the texts that the context strips may rewrite:
  // reasoning, call arguments, and the content of tool results.
  ghost predicate SameShapeMessage(a: Message, b: Message) {
    && a.role == b.role && a.toolCallId == b.toolCallId && a.isError == b.isError
    && a.kind == b.kind && a.usage == b.usage && a.ts == b.ts
    && (a.role != RoleTool ==> a.content == b.content)
    && |a.toolCalls| == |b.toolCalls|
    && forall i :: 0 <= i < |a.toolCalls| ==>
         a.toolCalls[i].id == b.toolCalls[i].id && a.toolCalls[i].name == b.toolCalls[i].name
  }

  ghost predicate SameShape(a: seq<Message>, b: seq<Message>) {
    |a| == |b| && forall i :: 0 <= i < |a| ==> SameShapeMessage(a[i], b[i])
  }

  lemma SameShapeTransitive(a: seq<Message>, b: seq<Message>, c: seq<Message>)
    requires SameShape(a, b) && SameShape(b, c)
    ensures SameShape(a, c)
  {
    forall i | 0 <= i < |a| ensures SameShapeMessage(a[i], c[i]) {
      assert SameShapeMessage(a[i], b[i]) && SameShapeMessage(b[i], c[i]);
    }
  }

  lemma SameShapeBlock(a: seq<Message>, b: seq<Message>)
    requires SameShape(a, b) && IsBlock(a)
    ensures IsBlock(b)
  {
    assert SameShapeMessage(a[0], b[0]);
    forall i, j | 0 <= i < j < |b[0].toolCalls| ensures b[0].toolCalls[i].id != b[0].toolCalls[j].id {
      assert a[0].toolCalls[i].id != a[0].toolCalls[j].id;
    }
    forall k | 1 <= k < |b|
      ensures b[k].role == RoleTool && b[k].toolCallId == b[0].toolCalls[k-1].id
    {
      assert SameShapeMessage(a[k], b[k]);
    }
  }

  lemma {:induction false} SameShapeKeepsBlocks(a: seq<Message>, b: seq<Message>)
    requires SameShape(a, b) && BlockStructured(a)
    ensures BlockStructured(b)
    decreases |a|
  {
    if a == [] {
    } else {
      assert SameShapeMessage(a[0], b[0]);
      var n := BlockLen(a);
      assert SameShape(a[..n], b[..n]);
      SameShapeBlock(a[..n], b[..n]);
      assert SameShape(a[n..], b[n..]);
      SameShapeKeepsBlocks(a[n..], b[n..]);
    }
  }

  // ---------------------------------------------------------------- summaries

  function SummaryCount(msgs: seq<Message>): nat {
    if msgs == [] then 0 else (if msgs[0].IsSummary() then 1 else 0) + SummaryCount(msgs[1..])
  }

  // Summaries are user messages (they are only ever created that way).
  ghost predicate SummariesAreUser(msgs: seq<Message>) {
    forall m :: m in msgs && m.IsSummary() ==> m.role == RoleUser
  }

  lemma {:induction false} SummaryCountConcat(a: seq<Message>, b: seq<Message>)
    ensures SummaryCount(a + b) == SummaryCount(a) + SummaryCount(b)
    decreases |a|
  {
    if a == [] {
      assert a + b == b;
    } else {
      SummaryCountConcat(a[1..], b);
      assert (a + b)[0] == a[0] && (a + b)[1..] == a[1..] + b;
    }
  }

  lemma {:induction false} NoSummaries(msgs: seq<Message>)
    requires forall i :: 0 <= i < |msgs| ==> !msgs[i].IsSummary()
    ensures SummaryCount(msgs) == 0
    decreases |msgs|
  {
    if msgs == [] {
    } else {
      NoSummaries(msgs[1..]);
    }
  }

  lemma {:induction false} SameShapeSummaryCount(a: seq<Message>, b: seq<Message>)
    requires SameShape(a, b)
    ensures SummaryCount(a) == SummaryCount(b)
    decreases |a|
  {
    if a == [] {
    } else {
      assert SameShapeMessage(a[0], b[0]);
      assert SameShape(a[1..], b[1..]);
      SameShapeSummaryCount(a[1..], b[1..]);
    }
  }
}
