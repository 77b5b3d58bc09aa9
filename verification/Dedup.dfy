/** The four passes that fold what a later call has superseded: repeated reads (P6), reads made stale
    by a write (P11), superseded write arguments (P8') and repeated shell commands (P9b)
    (miniagent/compaction/history_dedup_read.go, history_dedup.go, history_dedup_shell.go). */
module Dedup {
  import opened Transcript
  import opened Passes

  // ---------------------------------------------------------------- call id -> key

  type Keying = ToolCall -> Option<string>
  type Keys = map<string, string>

  function AddKeys(f: Keying, calls: seq<ToolCall>, keys: Keys): Keys {
    if calls == [] then keys
    else match f(calls[0])
      case None => AddKeys(f, calls[1..], keys)
      case Some(k) => AddKeys(f, calls[1..], keys[calls[0].id := k])
  }

  function KeyMap(f: Keying, msgs: seq<Message>, keys: Keys): Keys {
    if msgs == [] then keys
    else KeyMap(f, msgs[1..], if msgs[0].role == RoleAssistant then AddKeys(f, msgs[0].toolCalls, keys) else keys)
  }

  method CollectCallKeys(f: Keying, calls: seq<ToolCall>, before: Keys) returns (keys: Keys)
    ensures keys == AddKeys(f, calls, before)
  {
    keys := before;
    for j := 0 to |calls|
      invariant AddKeys(f, calls[j..], keys) == AddKeys(f, calls, before)
    {
      assert calls[j..][0] == calls[j] && calls[j..][1..] == calls[j+1..];
      var k := f(calls[j]);
      if k.Some? {
        keys := keys[calls[j].id := k.value];
      }
    }
  }

  method CollectKeys(f: Keying, msgs: seq<Message>) returns (keys: Keys)
    ensures keys == KeyMap(f, msgs, map[])
  {
    keys := map[];
    for i := 0 to |msgs|
      invariant KeyMap(f, msgs[i..], keys) == KeyMap(f, msgs, map[])
    {
      assert msgs[i..][0] == msgs[i] && msgs[i..][1..] == msgs[i+1..];
      if msgs[i].role == RoleAssistant {
        keys := CollectCallKeys(f, msgs[i].toolCalls, keys);
      }
    }
  }

  predicate IsCall(msgs: seq<Message>, i: int, j: int) {
    0 <= i < |msgs| && msgs[i].role == RoleAssistant && 0 <= j < |msgs[i].toolCalls|
  }

  function CallAt(msgs: seq<Message>, i: int, j: int): ToolCall
    requires IsCall(msgs, i, j)
  {
    msgs[i].toolCalls[j]
  }

  // No call id is used twice in the transcript.
  ghost predicate UniqueIds(msgs: seq<Message>) {
    forall i, j, i', j' :: IsCall(msgs, i, j) && IsCall(msgs, i', j')
        && CallAt(msgs, i, j).id == CallAt(msgs, i', j').id
      ==> i == i' && j == j'
  }

  lemma {:induction false} AddKeysFrame(f: Keying, calls: seq<ToolCall>, keys: Keys, id: string)
    requires forall j :: 0 <= j < |calls| ==> calls[j].id != id
    ensures (id in AddKeys(f, calls, keys)) == (id in keys)
    ensures id in keys ==> AddKeys(f, calls, keys)[id] == keys[id]
    decreases |calls|
  {
    if calls == [] {
    } else {
      assert calls[0].id != id;
      match f(calls[0])
      case None => AddKeysFrame(f, calls[1..], keys, id);
      case Some(k) => AddKeysFrame(f, calls[1..], keys[calls[0].id := k], id);
    }
  }

  lemma {:induction false} AddKeysAt(f: Keying, calls: seq<ToolCall>, keys: Keys, j: nat)
    requires j < |calls| && DistinctIds(calls) && calls[j].id !in keys
    ensures var r, id := AddKeys(f, calls, keys), calls[j].id;
            (id in r) == f(calls[j]).Some? && (id in r ==> Some(r[id]) == f(calls[j]))
    decreases |calls|
  {
    var keys' := if f(calls[0]).Some? then keys[calls[0].id := f(calls[0]).value] else keys;
    assert DistinctIds(calls[1..]);
    if j == 0 {
      AddKeysFrame(f, calls[1..], keys', calls[0].id);
    } else {
      assert calls[0].id != calls[j].id;
      AddKeysAt(f, calls[1..], keys', j - 1);
    }
  }

  lemma {:induction false} KeyMapFrame(f: Keying, msgs: seq<Message>, keys: Keys, id: string)
    requires forall i, j :: IsCall(msgs, i, j) ==> CallAt(msgs, i, j).id != id
    ensures (id in KeyMap(f, msgs, keys)) == (id in keys)
    ensures id in keys ==> KeyMap(f, msgs, keys)[id] == keys[id]
    decreases |msgs|
  {
    if msgs == [] {
    } else {
      var keys' := keys;
      if msgs[0].role == RoleAssistant {
        forall j | 0 <= j < |msgs[0].toolCalls| ensures msgs[0].toolCalls[j].id != id {
          assert IsCall(msgs, 0, j) && CallAt(msgs, 0, j).id != id;
        }
        AddKeysFrame(f, msgs[0].toolCalls, keys, id);
        keys' := AddKeys(f, msgs[0].toolCalls, keys);
      }
      forall i, j | IsCall(msgs[1..], i, j) ensures CallAt(msgs[1..], i, j).id != id {
        assert IsCall(msgs, i + 1, j) && CallAt(msgs, i + 1, j) == CallAt(msgs[1..], i, j);
      }
      KeyMapFrame(f, msgs[1..], keys', id);
    }
  }

  // With unique ids, the map gives every call its own key, and only keyed calls are in it.
  lemma {:induction false} KeyMapAt(f: Keying, msgs: seq<Message>, keys: Keys, i: nat, j: nat)
    requires UniqueIds(msgs) && IsCall(msgs, i, j) && CallAt(msgs, i, j).id !in keys
    ensures var r, call := KeyMap(f, msgs, keys), CallAt(msgs, i, j);
            (call.id in r) == f(call).Some? && (call.id in r ==> Some(r[call.id]) == f(call))
    decreases |msgs|
  {
    var call, rest := CallAt(msgs, i, j), msgs[1..];
    var keys' := if msgs[0].role == RoleAssistant then AddKeys(f, msgs[0].toolCalls, keys) else keys;
    if i == 0 {
      DistinctCalls(msgs, 0);
      AddKeysAt(f, msgs[0].toolCalls, keys, j);
      forall i', j' | IsCall(rest, i', j') ensures CallAt(rest, i', j').id != call.id {
        assert IsCall(msgs, i' + 1, j') && CallAt(msgs, i' + 1, j') == CallAt(rest, i', j');
      }
      KeyMapFrame(f, rest, keys', call.id);
    } else {
      if msgs[0].role == RoleAssistant {
        forall k | 0 <= k < |msgs[0].toolCalls| ensures msgs[0].toolCalls[k].id != call.id {
          assert IsCall(msgs, 0, k) && CallAt(msgs, 0, k) == msgs[0].toolCalls[k];
        }
        AddKeysFrame(f, msgs[0].toolCalls, keys, call.id);
      }
      UniqueTail(msgs);
      assert IsCall(rest, i - 1, j) && CallAt(rest, i - 1, j) == call;
      KeyMapAt(f, rest, keys', i - 1, j);
    }
  }

  lemma UniqueTail(msgs: seq<Message>)
    requires UniqueIds(msgs) && msgs != []
    ensures UniqueIds(msgs[1..])
  {
    forall i, j, i', j' | IsCall(msgs[1..], i, j) && IsCall(msgs[1..], i', j')
        && CallAt(msgs[1..], i, j).id == CallAt(msgs[1..], i', j').id
      ensures i == i' && j == j'
    {
      assert IsCall(msgs, i + 1, j) && CallAt(msgs, i + 1, j) == CallAt(msgs[1..], i, j);
      assert IsCall(msgs, i' + 1, j') && CallAt(msgs, i' + 1, j') == CallAt(msgs[1..], i', j');
    }
  }

  lemma DistinctCalls(msgs: seq<Message>, i: nat)
    requires UniqueIds(msgs) && i < |msgs| && msgs[i].role == RoleAssistant
    ensures DistinctIds(msgs[i].toolCalls)
  {
    forall j, j' | 0 <= j < j' < |msgs[i].toolCalls|
      ensures msgs[i].toolCalls[j].id != msgs[i].toolCalls[j'].id
    {
      assert IsCall(msgs, i, j) && CallAt(msgs, i, j) == msgs[i].toolCalls[j];
      assert IsCall(msgs, i, j') && CallAt(msgs, i, j') == msgs[i].toolCalls[j'];
    }
  }

  // An id in the map stems from some keyed call.
  lemma {:induction false} AddKeysOrigin(f: Keying, calls: seq<ToolCall>, keys: Keys, id: string) returns (j: int)
    requires id in AddKeys(f, calls, keys)
    ensures j == -1 ==> id in keys && AddKeys(f, calls, keys)[id] == keys[id]
    ensures j != -1 ==> 0 <= j < |calls| && calls[j].id == id && f(calls[j]) == Some(AddKeys(f, calls, keys)[id])
    decreases |calls|
  {
    if calls == [] {
      j := -1;
    } else {
      var keys' := if f(calls[0]).Some? then keys[calls[0].id := f(calls[0]).value] else keys;
      j := AddKeysOrigin(f, calls[1..], keys', id);
      if j != -1 {
        j := j + 1;
      } else if f(calls[0]).Some? && calls[0].id == id {
        j := 0;
      }
    }
  }

  lemma {:induction false} KeyMapOrigin(f: Keying, msgs: seq<Message>, keys: Keys, id: string) returns (i: int, j: int)
    requires id in KeyMap(f, msgs, keys)
    ensures i == -1 ==> id in keys && KeyMap(f, msgs, keys)[id] == keys[id]
    ensures i != -1 ==> IsCall(msgs, i, j) && CallAt(msgs, i, j).id == id
                        && f(CallAt(msgs, i, j)) == Some(KeyMap(f, msgs, keys)[id])
    decreases |msgs|
  {
    if msgs == [] {
      i, j := -1, 0;
    } else {
      var keys' := if msgs[0].role == RoleAssistant then AddKeys(f, msgs[0].toolCalls, keys) else keys;
      i, j := KeyMapOrigin(f, msgs[1..], keys', id);
      if i != -1 {
        i := i + 1;
      } else if msgs[0].role == RoleAssistant {
        j := AddKeysOrigin(f, msgs[0].toolCalls, keys, id);
        if j != -1 {
          i := 0;
        }
      }
    }
  }

  // ---------------------------------------------------------------- P6: repeated reads

  function ReadMarker(key: string): string {
    "\U{2026}[prior read(" + key + ") superseded by a more recent read]"
  }

  // The key of a message that is the result of a keyed call.
  function KeyOf(msgs: seq<Message>, keys: Keys, i: int): Option<string> {
    if 0 <= i < |msgs| && msgs[i].role == RoleTool && msgs[i].toolCallId in keys then Some(keys[msgs[i].toolCallId])
        else None
  }

  ghost predicate Keyed(msgs: seq<Message>, keys: Keys, i: int, key: string) {
    KeyOf(msgs, keys, i) == Some(key)
  }

  ghost predicate KeyedLater(msgs: seq<Message>, keys: Keys, i: int, key: string) {
    exists t :: i < t && Keyed(msgs, keys, t, key)
  }

  // What P6 makes of message i: a keyed result that a later result of the same key follows is folded.
  ghost predicate DedupReadAt(msgs: seq<Message>, keys: Keys, keepN: int, i: nat, m: Message)
    requires i < |msgs|
  {
    match KeyOf(msgs, keys, i)
    case Some(key) =>
      m == if Outside(msgs, keepN, i) && KeyedLater(msgs, keys, i, key)
           then msgs[i].(content := "\U{2026}[prior read(" + key + ") superseded by a more recent read]") else msgs[i]
    case None => m == msgs[i]
  }

  ghost predicate IsDedupRead(codec: ArgCodec, msgs: seq<Message>, keepN: int, out: seq<Message>) {
    var keys := KeyMap(call => codec.ReadKey(call), msgs, map[]);
    && |out| == |msgs|
    && forall i :: 0 <= i < |msgs| ==> DedupReadAt(msgs, keys, keepN, i, out[i])
  }

  method LastResults(msgs: seq<Message>, keys: Keys, start: nat)
      returns (lastIdx: map<string, nat>, inWindow: set<string>)
    ensures forall key :: key in lastIdx ==> lastIdx[key] < start && Keyed(msgs, keys, lastIdx[key], key)
    ensures forall k, key :: k < start && Keyed(msgs, keys, k, key) ==> key in lastIdx && k <= lastIdx[key]
    ensures forall key :: key in inWindow <==> exists k :: start <= k && Keyed(msgs, keys, k, key)
  {
    lastIdx, inWindow := map[], {};
    for i := 0 to |msgs|
      invariant forall key :: key in lastIdx ==>
                lastIdx[key] < start && lastIdx[key] < i && Keyed(msgs, keys, lastIdx[key], key)
      invariant forall k, key :: k < i && k < start && Keyed(msgs, keys, k, key) ==> key in lastIdx && k <= lastIdx[key]
      invariant forall key :: key in inWindow <==> exists k :: start <= k < i && Keyed(msgs, keys, k, key)
    {
      if msgs[i].role == RoleTool && msgs[i].toolCallId in keys {
        var key := keys[msgs[i].toolCallId];
        assert Keyed(msgs, keys, i, key);
        if i < start {
          lastIdx := lastIdx[key := i];
        } else {
          inWindow := inWindow + {key};
        }
      }
    }
  }

  method DedupReadResults(codec: ArgCodec, msgs: seq<Message>, keepN: int) returns (out: seq<Message>)
    ensures IsDedupRead(codec, msgs, keepN, out)
  {
    var keys := CollectKeys(call => codec.ReadKey(call), msgs);
    if |keys| == 0 {
      return msgs;
    }
    var start := WindowStartOf(msgs, keepN);
    var lastIdx, inWindow := LastResults(msgs, keys, start);
    out := msgs;
    for i := 0 to start
      invariant |out| == |msgs|
      invariant forall k :: i <= k < |msgs| ==> out[k] == msgs[k]
      invariant forall k :: 0 <= k < i ==> DedupReadAt(msgs, keys, keepN, k, out[k])
    {
      if msgs[i].role == RoleTool && msgs[i].toolCallId in keys {
        var key := keys[msgs[i].toolCallId];
        assert Keyed(msgs, keys, i, key);
        assert key in inWindow || lastIdx[key] > i <==> KeyedLater(msgs, keys, i, key) by {
          if KeyedLater(msgs, keys, i, key) {
            var t :| i < t && Keyed(msgs, keys, t, key);
          }
        }
        if key in inWindow || lastIdx[key] > i {
          out := out[i := msgs[i].(content := ReadMarker(key))];
        }
      }
    }
  }

  // ---------------------------------------------------------------- successful writes

  // The error flag of the last result of each id.
  function ErrorMap(msgs: seq<Message>, errs: map<string, bool>): map<string, bool> {
    if msgs == [] then errs
    else ErrorMap(msgs[1..],
                  if msgs[0].role == RoleTool && msgs[0].toolCallId != ""
                      then errs[msgs[0].toolCallId := msgs[0].isError] else errs)
  }

  predicate Failed(errs: map<string, bool>, id: string) {
    id in errs && errs[id]
  }

  predicate WritesPath(codec: ArgCodec, errs: map<string, bool>, call: ToolCall, path: string) {
    IsLargeArgTool(call.name) && !Failed(errs, call.id) && codec.Path(call.args) == Some(path)
  }

  // Message w carries a write or edit of the path that did not fail.
  ghost predicate WritesTo(codec: ArgCodec, msgs: seq<Message>, errs: map<string, bool>, w: int, path: string) {
    exists j :: IsCall(msgs, w, j) && WritesPath(codec, errs, CallAt(msgs, w, j), path)
  }

  ghost predicate WrittenLater(codec: ArgCodec, msgs: seq<Message>, i: int, path: string) {
    exists w :: w > i && WritesTo(codec, msgs, ErrorMap(msgs, map[]), w, path)
  }

  type Writers = map<string, seq<nat>>

  predicate Lists(succ: Writers, path: string, w: int) {
    path in succ && exists k :: 0 <= k < |succ[path]| && succ[path][k] == w
  }

  method AddWriters(codec: ArgCodec, errs: map<string, bool>, calls: seq<ToolCall>, i: nat, before: Writers)
      returns (succ: Writers)
    ensures forall path, w :: Lists(succ, path, w) <==>
              Lists(before, path, w)
                  || (w == i && exists j :: 0 <= j < |calls| && WritesPath(codec, errs, calls[j], path))
  {
    succ := before;
    for j := 0 to |calls|
      invariant forall path, w :: Lists(succ, path, w) <==>
                  Lists(before, path, w)
                      || (w == i && exists k :: 0 <= k < j && WritesPath(codec, errs, calls[k], path))
    {
      var call := calls[j];
      var p := codec.Path(call.args);
      if IsLargeArgTool(call.name) && !Failed(errs, call.id) && p.Some? {
        var path := p.value;
        ghost var was := succ;
        var old' := if path in succ then succ[path] else [];
        succ := succ[path := old' + [i]];
        assert WritesPath(codec, errs, calls[j], path);
        forall q, w ensures Lists(succ, q, w) <==> Lists(was, q, w) || (w == i && q == path) {
          if q == path {
            assert succ[path][|old'|] == i;
            if Lists(was, q, w) {
              var k :| 0 <= k < |was[q]| && was[q][k] == w;
              assert succ[q][k] == w;
            }
          }
        }
      }
    }
  }

  method SuccessWriteEditPaths(codec: ArgCodec, msgs: seq<Message>) returns (succ: Writers)
    ensures forall path, w :: Lists(succ, path, w) <==> WritesTo(codec, msgs, ErrorMap(msgs, map[]), w, path)
  {
    var errs: map<string, bool> := map[];
    for i := 0 to |msgs|
      invariant ErrorMap(msgs[i..], errs) == ErrorMap(msgs, map[])
    {
      assert msgs[i..][0] == msgs[i] && msgs[i..][1..] == msgs[i+1..];
      if msgs[i].role == RoleTool && msgs[i].toolCallId != "" {
        errs := errs[msgs[i].toolCallId := msgs[i].isError];
      }
    }
    succ := map[];
    for i := 0 to |msgs|
      invariant forall path, w :: Lists(succ, path, w) <==> w < i && WritesTo(codec, msgs, errs, w, path)
    {
      if msgs[i].role == RoleAssistant {
        ghost var was := succ;
        succ := AddWriters(codec, errs, msgs[i].toolCalls, i, succ);
        forall path ensures WritesTo(codec, msgs, errs, i, path)
            <==> exists j :: 0 <= j < |msgs[i].toolCalls| && WritesPath(codec, errs, msgs[i].toolCalls[j], path) {
          if exists j :: 0 <= j < |msgs[i].toolCalls| && WritesPath(codec, errs, msgs[i].toolCalls[j], path) {
            var j :| 0 <= j < |msgs[i].toolCalls| && WritesPath(codec, errs, msgs[i].toolCalls[j], path);
            assert IsCall(msgs, i, j) && CallAt(msgs, i, j) == msgs[i].toolCalls[j];
          }
        }
      }
    }
  }

  method HasLaterWriter(succ: Writers, path: string, i: nat) returns (found: bool)
    ensures found <==> exists w :: w > i && Lists(succ, path, w)
  {
    if path !in succ {
      return false;
    }
    for k := 0 to |succ[path]|
      invariant forall k' :: 0 <= k' < k ==> succ[path][k'] <= i
    {
      if succ[path][k] > i {
        assert Lists(succ, path, succ[path][k]);
        return true;
      }
    }
    found := false;
  }

  // ---------------------------------------------------------------- P11: reads made stale by a write

  function StaleReadMarker(path: string): string {
    "\U{2026}[prior read(" + path + ") result superseded by a later edit]"
  }

  ghost predicate FoldReadAt(codec: ArgCodec, msgs: seq<Message>, keys: Keys, keepN: int, i: nat, m: Message)
    requires i < |msgs|
  {
    match KeyOf(msgs, keys, i)
    case Some(path) =>
      m == if Outside(msgs, keepN, i) && WrittenLater(codec, msgs, i, path)
           then msgs[i].(content := "\U{2026}[prior read(" + path + ") result superseded by a later edit]")
           else msgs[i]
    case None => m == msgs[i]
  }

  ghost predicate IsFoldReads(codec: ArgCodec, msgs: seq<Message>, keepN: int, out: seq<Message>) {
    var keys := KeyMap(call => codec.ReadPath(call), msgs, map[]);
    && |out| == |msgs|
    && forall i :: 0 <= i < |msgs| ==> FoldReadAt(codec, msgs, keys, keepN, i, out[i])
  }

  method FoldStaleReadResults(codec: ArgCodec, msgs: seq<Message>, keepN: int) returns (out: seq<Message>)
    ensures IsFoldReads(codec, msgs, keepN, out)
  {
    var keys := CollectKeys(call => codec.ReadPath(call), msgs);
    if |keys| == 0 {
      return msgs;
    }
    var succ := SuccessWriteEditPaths(codec, msgs);
    var start := WindowStartOf(msgs, keepN);
    out := msgs;
    for i := 0 to start
      invariant |out| == |msgs|
      invariant forall k :: i <= k < |msgs| ==> out[k] == msgs[k]
      invariant forall k :: 0 <= k < i ==> FoldReadAt(codec, msgs, keys, keepN, k, out[k])
    {
      if msgs[i].role == RoleTool && msgs[i].toolCallId in keys {
        var path := keys[msgs[i].toolCallId];
        var later := HasLaterWriter(succ, path, i);
        assert later <==> WrittenLater(codec, msgs, i, path);
        if later {
          out := out[i := msgs[i].(content := StaleReadMarker(path))];
        }
      }
    }
  }

  // ---------------------------------------------------------------- P8': superseded write arguments

  ghost predicate StaleWrite(codec: ArgCodec, msgs: seq<Message>, i: int, call: ToolCall) {
    IsLargeArgTool(call.name) && codec.Path(call.args).Some?
        && WrittenLater(codec, msgs, i, codec.Path(call.args).value)
  }

  ghost function FoldWriteCall(codec: ArgCodec, msgs: seq<Message>, i: int, call: ToolCall): ToolCall {
    if StaleWrite(codec, msgs, i, call) then call.(args := codec.FoldedWrite(codec.Path(call.args).value)) else call
  }

  ghost function FoldWriteCalls(codec: ArgCodec, msgs: seq<Message>, i: int, calls: seq<ToolCall>): (r: seq<ToolCall>)
    ensures |r| == |calls|
    ensures forall j :: 0 <= j < |calls| ==> r[j] == FoldWriteCall(codec, msgs, i, calls[j])
  {
    seq(|calls|, j requires 0 <= j < |calls| => FoldWriteCall(codec, msgs, i, calls[j]))
  }

  ghost predicate IsFoldWrites(codec: ArgCodec, msgs: seq<Message>, keepN: int, out: seq<Message>) {
    && |out| == |msgs|
    && forall i :: 0 <= i < |msgs| ==>
         out[i] == if msgs[i].role == RoleAssistant && Outside(msgs, keepN, i)
                   then msgs[i].(toolCalls := FoldWriteCalls(codec, msgs, i, msgs[i].toolCalls)) else msgs[i]
  }

  method FoldWritesOf(codec: ArgCodec, msgs: seq<Message>, succ: Writers, i: nat) returns (calls: seq<ToolCall>)
    requires i < |msgs|
    requires forall path, w :: Lists(succ, path, w) <==> WritesTo(codec, msgs, ErrorMap(msgs, map[]), w, path)
    ensures calls == FoldWriteCalls(codec, msgs, i, msgs[i].toolCalls)
  {
    calls := msgs[i].toolCalls;
    for j := 0 to |calls|
      invariant |calls| == |msgs[i].toolCalls|
      invariant forall k :: 0 <= k < j ==> calls[k] == FoldWriteCall(codec, msgs, i, msgs[i].toolCalls[k])
      invariant forall k :: j <= k < |calls| ==> calls[k] == msgs[i].toolCalls[k]
    {
      var p := codec.Path(calls[j].args);
      if IsLargeArgTool(calls[j].name) && p.Some? {
        var later := HasLaterWriter(succ, p.value, i);
        assert later <==> WrittenLater(codec, msgs, i, p.value);
        if later {
          calls := calls[j := calls[j].(args := codec.FoldedWrite(p.value))];
        }
      }
    }
  }

  method FoldStaleWriteEditArgs(codec: ArgCodec, msgs: seq<Message>, keepN: int) returns (out: seq<Message>)
    ensures IsFoldWrites(codec, msgs, keepN, out)
  {
    var succ := SuccessWriteEditPaths(codec, msgs);
    var start := WindowStartOf(msgs, keepN);
    out := msgs;
    for i := 0 to start
      invariant |out| == |msgs|
      invariant forall k :: i <= k < |msgs| ==> out[k] == msgs[k]
      invariant forall k :: 0 <= k < i ==>
        out[k] == if msgs[k].role == RoleAssistant
            then msgs[k].(toolCalls := FoldWriteCalls(codec, msgs, k, msgs[k].toolCalls)) else msgs[k]
    {
      if msgs[i].role == RoleAssistant {
        var calls := FoldWritesOf(codec, msgs, succ, i);
        out := out[i := msgs[i].(toolCalls := calls)];
      }
    }
  }

  // ---------------------------------------------------------------- P9b: repeated shell commands

  predicate Before(i: int, j: int, i': int, j': int) {
    i < i' || (i == i' && j < j')
  }

  ghost predicate KeyedCall(msgs: seq<Message>, keys: Keys, i: int, j: int, key: string) {
    IsCall(msgs, i, j) && CallAt(msgs, i, j).id in keys && keys[CallAt(msgs, i, j).id] == key
  }

  ghost predicate RepeatedCall(msgs: seq<Message>, keys: Keys, i: int, j: int) {
    IsCall(msgs, i, j) && CallAt(msgs, i, j).id in keys
    && exists i', j' :: Before(i, j, i', j') && KeyedCall(msgs, keys, i', j', keys[CallAt(msgs, i, j).id])
  }

  ghost predicate FoldedCall(msgs: seq<Message>, keys: Keys, keepN: int, i: int, j: int) {
    IsCall(msgs, i, j) && Outside(msgs, keepN, i) && RepeatedCall(msgs, keys, i, j)
  }

  ghost predicate FoldedId(msgs: seq<Message>, keys: Keys, keepN: int, id: string) {
    exists i, j :: FoldedCall(msgs, keys, keepN, i, j) && CallAt(msgs, i, j).id == id
  }

  ghost predicate IsDedupShell(codec: ArgCodec, msgs: seq<Message>, keepN: int, out: seq<Message>) {
    var keys := KeyMap(call => codec.ShellKey(call), msgs, map[]);
    && |out| == |msgs|
    && forall i :: 0 <= i < |msgs| ==> DedupShellAt(codec, msgs, keys, keepN, i, out[i])
  }

  ghost predicate DedupShellAt(codec: ArgCodec, msgs: seq<Message>, keys: Keys, keepN: int, i: nat, m: Message)
    requires i < |msgs|
  {
    && |m.toolCalls| == |msgs[i].toolCalls|
    && m == msgs[i].(toolCalls := m.toolCalls,
                     content := if msgs[i].role == RoleTool && FoldedId(msgs, keys, keepN, msgs[i].toolCallId)
                                then SHELL_RESULT_MARKER else msgs[i].content)
    && forall j :: 0 <= j < |m.toolCalls| ==>
         m.toolCalls[j] == if FoldedCall(msgs, keys, keepN, i, j)
             then msgs[i].toolCalls[j].(args := codec.FoldedShell())
                           else msgs[i].toolCalls[j]
  }

  datatype ShellCall = ShellCall(msgIdx: nat, tcIdx: nat, key: string)

  // The keyed calls of the transcript in order.
  ghost predicate IsShellList(msgs: seq<Message>, keys: Keys, list: seq<ShellCall>) {
    && (forall a :: 0 <= a < |list| ==> KeyedCall(msgs, keys, list[a].msgIdx, list[a].tcIdx, list[a].key))
    && (forall a, b :: 0 <= a < b < |list| ==> Before(list[a].msgIdx, list[a].tcIdx, list[b].msgIdx, list[b].tcIdx))
    && (forall i, j, key :: KeyedCall(msgs, keys, i, j, key) ==>
        exists a :: 0 <= a < |list| && list[a] == ShellCall(i, j, key))
  }

  method ListShellCalls(msgs: seq<Message>, keys: Keys) returns (list: seq<ShellCall>)
    ensures IsShellList(msgs, keys, list)
  {
    list := [];
    var i := 0;
    while i < |msgs|
      invariant 0 <= i <= |msgs|
      invariant forall a :: 0 <= a < |list| ==>
                list[a].msgIdx < i && KeyedCall(msgs, keys, list[a].msgIdx, list[a].tcIdx, list[a].key)
      invariant forall a, b :: 0 <= a < b < |list| ==>
                Before(list[a].msgIdx, list[a].tcIdx, list[b].msgIdx, list[b].tcIdx)
      invariant forall i', j, key :: i' < i && KeyedCall(msgs, keys, i', j, key) ==> ShellCall(i', j, key) in list
    {
      if msgs[i].role == RoleAssistant {
        var j := 0;
        while j < |msgs[i].toolCalls|
          invariant 0 <= j <= |msgs[i].toolCalls|
          invariant forall a :: 0 <= a < |list| ==> Before(list[a].msgIdx, list[a].tcIdx, i, j)
          invariant forall a :: 0 <= a < |list| ==> KeyedCall(msgs, keys, list[a].msgIdx, list[a].tcIdx, list[a].key)
          invariant forall a, b :: 0 <= a < b < |list| ==>
                    Before(list[a].msgIdx, list[a].tcIdx, list[b].msgIdx, list[b].tcIdx)
          invariant forall i', j', key :: Before(i', j', i, j) && KeyedCall(msgs, keys, i', j', key) ==>
                    ShellCall(i', j', key) in list
        {
          var id := msgs[i].toolCalls[j].id;
          if id in keys {
            assert CallAt(msgs, i, j).id == id;
            list := list + [ShellCall(i, j, keys[id])];
          }
          j := j + 1;
        }
      }
      i := i + 1;
    }
  }

  ghost predicate Listed(list: seq<ShellCall>, a: int, key: string, inside: bool, start: nat) {
    0 <= a < |list| && list[a].key == key && (list[a].msgIdx >= start) == inside
  }

  // For every key: the last place before the window, and whether it occurs in the window.
  ghost predicate Indexes(list: seq<ShellCall>, start: nat, lastOrder: map<string, nat>, inWindow: set<string>) {
    && (forall key :: key in lastOrder ==> Listed(list, lastOrder[key], key, false, start))
    && (forall a, key :: Listed(list, a, key, false, start) ==> key in lastOrder && a <= lastOrder[key])
    && (forall key :: key in inWindow ==> exists a :: Listed(list, a, key, true, start))
    && (forall a, key :: Listed(list, a, key, true, start) ==> key in inWindow)
  }

  method LastShellCalls(list: seq<ShellCall>, start: nat) returns (lastOrder: map<string, nat>, inWindow: set<string>)
    ensures Indexes(list, start, lastOrder, inWindow)
  {
    lastOrder, inWindow := map[], {};
    for a := 0 to |list|
      invariant forall key :: key in lastOrder ==> lastOrder[key] < a && Listed(list, lastOrder[key], key, false, start)
      invariant forall b, key :: b < a && Listed(list, b, key, false, start) ==> key in lastOrder && b <= lastOrder[key]
      invariant forall key :: key in inWindow ==> exists b :: Listed(list, b, key, true, start)
      invariant forall b, key :: b < a && Listed(list, b, key, true, start) ==> key in inWindow
    {
      if list[a].msgIdx >= start {
        assert Listed(list, a, list[a].key, true, start);
        inWindow := inWindow + {list[a].key};
      } else {
        assert Listed(list, a, list[a].key, false, start);
        lastOrder := lastOrder[list[a].key := a];
      }
    }
  }

  // Reading the index: the key occurs further down exactly if it is in the window, or again before it.
  lemma IndexTellsLater(list: seq<ShellCall>, start: nat, a: nat, lastOrder: map<string, nat>, inWindow: set<string>)
    requires Indexes(list, start, lastOrder, inWindow) && a < |list| && list[a].msgIdx < start
    requires forall b :: 0 <= b < a ==> list[b].msgIdx <= list[a].msgIdx
    ensures list[a].key in lastOrder
    ensures (exists b :: a < b < |list| && list[b].key == list[a].key)
            <==> list[a].key in inWindow || lastOrder[list[a].key] > a
  {
    var key := list[a].key;
    assert Listed(list, a, key, false, start);
    if b :| a < b < |list| && list[b].key == key {
      assert Listed(list, b, key, list[b].msgIdx >= start, start);
    }
    if key in inWindow {
      var b :| Listed(list, b, key, true, start);
      assert b > a;
    } else if lastOrder[key] > a {
      assert Listed(list, lastOrder[key], key, false, start);
    }
  }

  // The decision taken on the list: the key is seen in the window, or further on before it.
  lemma SeenAgain(msgs: seq<Message>, keys: Keys, list: seq<ShellCall>, start: nat, a: nat,
                  lastOrder: map<string, nat>, inWindow: set<string>)
    requires IsShellList(msgs, keys, list) && a < |list| && list[a].msgIdx < start
    requires Indexes(list, start, lastOrder, inWindow)
    ensures list[a].key in lastOrder
    ensures RepeatedCall(msgs, keys, list[a].msgIdx, list[a].tcIdx)
            <==> list[a].key in inWindow || lastOrder[list[a].key] > a
  {
    RepeatedByOrder(msgs, keys, list, a);
    forall b | 0 <= b < a ensures list[b].msgIdx <= list[a].msgIdx {
      assert Before(list[b].msgIdx, list[b].tcIdx, list[a].msgIdx, list[a].tcIdx);
    }
    IndexTellsLater(list, start, a, lastOrder, inWindow);
  }

  predicate Folds(list: seq<ShellCall>, start: nat, lastOrder: map<string, nat>, inWindow: set<string>, a: nat)
    requires a < |list|
  {
    var e := list[a];
    e.msgIdx < start && (e.key in inWindow || (e.key in lastOrder && lastOrder[e.key] > a))
  }

  method FoldDecisions(list: seq<ShellCall>, start: nat)
      returns (folds: seq<bool>, ghost lastOrder: map<string, nat>, ghost inWindow: set<string>)
    ensures Indexes(list, start, lastOrder, inWindow)
    ensures |folds| == |list|
    ensures forall a :: 0 <= a < |list| ==> folds[a] == Folds(list, start, lastOrder, inWindow, a)
  {
    var last, inside := LastShellCalls(list, start);
    lastOrder, inWindow := last, inside;
    folds := seq(|list|, a requires 0 <= a < |list| => Folds(list, start, last, inside, a));
  }

  // Which calls to fold: decided on the list, it is exactly FoldedCall.
  method ShellFolds(msgs: seq<Message>, keys: Keys, keepN: int) returns (toFold: set<(nat, nat)>)
    ensures forall i, j :: (i, j) in toFold <==> FoldedCall(msgs, keys, keepN, i, j)
  {
    var start := WindowStartOf(msgs, keepN);
    var list := ListShellCalls(msgs, keys);
    ghost var lastOrder, inWindow;
    var folds;
    folds, lastOrder, inWindow := FoldDecisions(list, start);
    forall a | 0 <= a < |list|
      ensures folds[a] <==> FoldedCall(msgs, keys, keepN, list[a].msgIdx, list[a].tcIdx)
    {
      assert KeyedCall(msgs, keys, list[a].msgIdx, list[a].tcIdx, list[a].key);
      if list[a].msgIdx < start {
        SeenAgain(msgs, keys, list, start, a, lastOrder, inWindow);
      }
    }
    toFold := set a | 0 <= a < |list| && folds[a] :: (list[a].msgIdx, list[a].tcIdx);
    forall i, j | FoldedCall(msgs, keys, keepN, i, j) ensures (i, j) in toFold {
      var key := keys[CallAt(msgs, i, j).id];
      assert KeyedCall(msgs, keys, i, j, key);
      var b :| 0 <= b < |list| && list[b] == ShellCall(i, j, key);
    }
  }

  // A call is repeated exactly when its key appears again further down the list.
  lemma RepeatedByOrder(msgs: seq<Message>, keys: Keys, list: seq<ShellCall>, a: nat)
    requires IsShellList(msgs, keys, list) && a < |list|
    ensures RepeatedCall(msgs, keys, list[a].msgIdx, list[a].tcIdx)
            <==> exists b :: a < b < |list| && list[b].key == list[a].key
  {
    var e := list[a];
    assert KeyedCall(msgs, keys, e.msgIdx, e.tcIdx, e.key);
    if RepeatedCall(msgs, keys, e.msgIdx, e.tcIdx) {
      var i', j' :| Before(e.msgIdx, e.tcIdx, i', j') && KeyedCall(msgs, keys, i', j', e.key);
      var b :| 0 <= b < |list| && list[b] == ShellCall(i', j', e.key);
      assert a != b && !(b < a);
    }
    if exists b :: a < b < |list| && list[b].key == e.key {
      var b :| a < b < |list| && list[b].key == e.key;
      assert KeyedCall(msgs, keys, list[b].msgIdx, list[b].tcIdx, e.key);
      assert Before(e.msgIdx, e.tcIdx, list[b].msgIdx, list[b].tcIdx);
    }
  }

  method FoldShellCalls(codec: ArgCodec, msgs: seq<Message>, i: nat, toFold: set<(nat, nat)>)
      returns (calls: seq<ToolCall>)
    requires i < |msgs|
    ensures |calls| == |msgs[i].toolCalls|
    ensures forall j :: 0 <= j < |calls| ==>
              calls[j] == if (i, j) in toFold then msgs[i].toolCalls[j].(args := codec.FoldedShell())
                  else msgs[i].toolCalls[j]
  {
    calls := msgs[i].toolCalls;
    for j := 0 to |calls|
      invariant |calls| == |msgs[i].toolCalls|
      invariant forall k :: 0 <= k < j ==>
        calls[k] == if (i, k) in toFold then msgs[i].toolCalls[k].(args := codec.FoldedShell())
            else msgs[i].toolCalls[k]
      invariant forall k :: j <= k < |calls| ==> calls[k] == msgs[i].toolCalls[k]
    {
      if (i, j) in toFold {
        calls := calls[j := calls[j].(args := codec.FoldedShell())];
      }
    }
  }

  // The calls to fold, and their ids.
  method ShellFoldIds(msgs: seq<Message>, keys: Keys, keepN: int)
      returns (toFold: set<(nat, nat)>, foldedIds: set<string>)
    ensures forall i, j :: (i, j) in toFold <==> FoldedCall(msgs, keys, keepN, i, j)
    ensures forall id :: id in foldedIds <==> FoldedId(msgs, keys, keepN, id)
  {
    toFold := ShellFolds(msgs, keys, keepN);
    foldedIds := set fk | fk in toFold && fk.0 < |msgs|
        && fk.1 < |msgs[fk.0].toolCalls| :: msgs[fk.0].toolCalls[fk.1].id;
    forall id ensures id in foldedIds <==> FoldedId(msgs, keys, keepN, id) {
      if FoldedId(msgs, keys, keepN, id) {
        var i, j :| FoldedCall(msgs, keys, keepN, i, j) && CallAt(msgs, i, j).id == id;
        assert (i, j) in toFold;
      }
      if id in foldedIds {
        var fk :| fk in toFold && fk.0 < |msgs| && fk.1 < |msgs[fk.0].toolCalls| && msgs[fk.0].toolCalls[fk.1].id == id;
        assert FoldedCall(msgs, keys, keepN, fk.0, fk.1) && CallAt(msgs, fk.0, fk.1).id == id;
      }
    }
  }

  method DedupShellCommands(codec: ArgCodec, msgs: seq<Message>, keepN: int) returns (out: seq<Message>)
    ensures IsDedupShell(codec, msgs, keepN, out)
  {
    hide FoldedCall, FoldedId;
    var keys := CollectKeys(call => codec.ShellKey(call), msgs);
    var toFold, foldedIds := ShellFoldIds(msgs, keys, keepN);
    out := msgs;
    for i := 0 to |msgs|
      invariant |out| == |msgs|
      invariant forall k :: i <= k < |msgs| ==> out[k] == msgs[k]
      invariant forall k :: 0 <= k < i ==> DedupShellAt(codec, msgs, keys, keepN, k, out[k])
    {
      var m := msgs[i];
      var calls := FoldShellCalls(codec, msgs, i, toFold);
      m := m.(toolCalls := calls);
      if m.role == RoleTool && m.toolCallId in foldedIds {
        m := m.(content := SHELL_RESULT_MARKER);
      }
      out := out[i := m];
    }
  }
}
