/** What the context strips promise: shape and pairing survive the whole pipeline
    (applyContextStrips, miniagent/compaction/budget.go), the retention window is left alone, the
    newest occurrence of everything is kept verbatim, and folding twice is folding once. */
module Strips {
  import opened Seqs
  import opened Transcript
  import opened Passes
  import opened Dedup
  import opened Decimal

  // ---------------------------------------------------------------- shape

  lemma PassesKeepShape(codec: ArgCodec, msgs: seq<Message>, keepN: int, threshold: int, out: seq<Message>)
    requires || IsStripReasoning(msgs, keepN, out) || IsTruncateReasoning(msgs, keepN, threshold, out)
             || IsStripArgs(codec, msgs, keepN, out) || IsFoldWrites(codec, msgs, keepN, out)
             || IsDedupShell(codec, msgs, keepN, out)
    ensures SameShape(msgs, out)
  {
    if IsStripReasoning(msgs, keepN, out) || IsTruncateReasoning(msgs, keepN, threshold, out) {
      ReasoningShape(msgs, keepN, threshold, out);
    } else if IsStripArgs(codec, msgs, keepN, out) {
      ArgsShape(codec, msgs, keepN, out);
    } else if IsFoldWrites(codec, msgs, keepN, out) {
      FoldWritesShape(codec, msgs, keepN, out);
    } else {
      ShellShape(codec, msgs, keepN, out);
    }
  }

  lemma ReasoningShape(msgs: seq<Message>, keepN: int, threshold: int, out: seq<Message>)
    requires IsStripReasoning(msgs, keepN, out) || IsTruncateReasoning(msgs, keepN, threshold, out)
    ensures SameShape(msgs, out)
  {
    hide Outside;
  }

  lemma ArgsShape(codec: ArgCodec, msgs: seq<Message>, keepN: int, out: seq<Message>)
    requires IsStripArgs(codec, msgs, keepN, out)
    ensures SameShape(msgs, out)
  {
    hide Outside, CompressToolArgs;
  }

  lemma FoldWritesShape(codec: ArgCodec, msgs: seq<Message>, keepN: int, out: seq<Message>)
    requires IsFoldWrites(codec, msgs, keepN, out)
    ensures SameShape(msgs, out)
  {
    hide Outside;
  }

  lemma ShellShape(codec: ArgCodec, msgs: seq<Message>, keepN: int, out: seq<Message>)
    requires IsDedupShell(codec, msgs, keepN, out)
    ensures SameShape(msgs, out)
  {
    hide Outside, KeyMap;
    forall i | 0 <= i < |msgs| ensures SameShapeMessage(msgs[i], out[i]) {
      assert DedupShellAt(codec, msgs, KeyMap(call => codec.ShellKey(call), msgs, map[]), keepN, i, out[i]);
    }
  }

  // Only the content of a tool result changes.
  ghost predicate OnlyResults(msgs: seq<Message>, out: seq<Message>) {
    && |out| == |msgs|
    && forall i :: 0 <= i < |msgs| ==>
         out[i] == msgs[i] || (msgs[i].role == RoleTool && out[i] == msgs[i].(content := out[i].content))
  }

  lemma DedupReadOnlyResults(codec: ArgCodec, msgs: seq<Message>, keepN: int, out: seq<Message>)
    requires IsDedupRead(codec, msgs, keepN, out)
    ensures OnlyResults(msgs, out) && SameShape(msgs, out)
  {
    var keys := KeyMap(call => codec.ReadKey(call), msgs, map[]);
    assert forall i :: 0 <= i < |msgs| ==> DedupReadAt(msgs, keys, keepN, i, out[i]);
  }

  lemma FoldReadsOnlyResults(codec: ArgCodec, msgs: seq<Message>, keepN: int, out: seq<Message>)
    requires IsFoldReads(codec, msgs, keepN, out)
    ensures OnlyResults(msgs, out) && SameShape(msgs, out)
  {
    var keys := KeyMap(call => codec.ReadPath(call), msgs, map[]);
    assert forall i :: 0 <= i < |msgs| ==> FoldReadAt(codec, msgs, keys, keepN, i, out[i]);
  }

  // ---------------------------------------------------------------- the pipeline

  // Every stage is the specified rewrite of the one before it.
  ghost predicate IsPipeline(codec: ArgCodec, keepReasoning: int, chars: int, keepArgs: int, s: seq<seq<Message>>) {
    && |s| == 8
    && IsStripReasoning(s[0], keepReasoning, s[1])
    && IsTruncateReasoning(s[1], keepReasoning, chars, s[2])
    && IsStripArgs(codec, s[2], keepArgs, s[3])
    && IsDedupRead(codec, s[3], keepArgs, s[4])
    && IsFoldReads(codec, s[4], keepArgs, s[5])
    && IsFoldWrites(codec, s[5], keepArgs, s[6])
    && IsDedupShell(codec, s[6], keepArgs, s[7])
  }

  ghost predicate Stripped(codec: ArgCodec, keepReasoning: int, chars: int, keepArgs: int, msgs: seq<Message>,
        out: seq<Message>) {
    exists s :: IsPipeline(codec, keepReasoning, chars, keepArgs, s) && s[0] == msgs && s[7] == out
  }

  lemma PipelineKeepsShape(codec: ArgCodec, keepReasoning: int, chars: int, keepArgs: int, s: seq<seq<Message>>)
    requires IsPipeline(codec, keepReasoning, chars, keepArgs, s)
    ensures SameShape(s[0], s[7])
  {
    PassesKeepShape(codec, s[0], keepReasoning, 0, s[1]);
    PassesKeepShape(codec, s[1], keepReasoning, chars, s[2]);
    PassesKeepShape(codec, s[2], keepArgs, 0, s[3]);
    DedupReadOnlyResults(codec, s[3], keepArgs, s[4]);
    FoldReadsOnlyResults(codec, s[4], keepArgs, s[5]);
    PassesKeepShape(codec, s[5], keepArgs, 0, s[6]);
    PassesKeepShape(codec, s[6], keepArgs, 0, s[7]);
    SameShapeTransitive(s[0], s[1], s[2]);
    SameShapeTransitive(s[0], s[2], s[3]);
    SameShapeTransitive(s[0], s[3], s[4]);
    SameShapeTransitive(s[0], s[4], s[5]);
    SameShapeTransitive(s[0], s[5], s[6]);
    SameShapeTransitive(s[0], s[6], s[7]);
  }

  method ApplyContextStrips(codec: ArgCodec, msgs: seq<Message>, keepReasoning: int, keepReasoningChars: int,
        keepToolArgs: int)
      returns (out: seq<Message>, ghost stages: seq<seq<Message>>)
    ensures IsPipeline(codec, keepReasoning, keepReasoningChars, keepToolArgs, stages)
    ensures stages[0] == msgs && stages[7] == out
    ensures SameShape(msgs, out)
  {
    var s1 := StripStaleReasoning(msgs, keepReasoning);
    var s2 := TruncateKeptReasoning(s1, keepReasoning, keepReasoningChars);
    var s3 := StripStaleToolArgs(codec, s2, keepToolArgs);
    var s4 := DedupReadResults(codec, s3, keepToolArgs);
    var s5 := FoldStaleReadResults(codec, s4, keepToolArgs);
    var s6 := FoldStaleWriteEditArgs(codec, s5, keepToolArgs);
    out := DedupShellCommands(codec, s6, keepToolArgs);
    stages := [msgs, s1, s2, s3, s4, s5, s6, out];
    PipelineKeepsShape(codec, keepReasoning, keepReasoningChars, keepToolArgs, stages);
  }

  // ---------------------------------------------------------------- results and their calls

  ghost predicate IsResultOf(msgs: seq<Message>, t: int, i: int, j: int) {
    IsCall(msgs, i, j) && 0 <= t < |msgs| && msgs[t].role == RoleTool && msgs[t].toolCallId == CallAt(msgs, i, j).id
  }

  // In a block-structured transcript every result sits at its call's place behind the assistant.
  lemma {:induction false} BlockOwner(msgs: seq<Message>, t: nat) returns (i: nat, j: nat)
    requires BlockStructured(msgs) && t < |msgs| && msgs[t].role == RoleTool
    ensures IsResultOf(msgs, t, i, j) && t == i + 1 + j
    decreases |msgs|
  {
    var n := BlockLen(msgs);
    var block := msgs[..n];
    if t < n {
      assert block[t] == msgs[t] && block[0] == msgs[0];
      i, j := 0, t - 1;
    } else {
      i, j := BlockOwner(msgs[n..], t - n);
      assert CallAt(msgs, i + n, j) == CallAt(msgs[n..], i, j);
      i := i + n;
    }
  }

  lemma {:induction false} ToolsBetween(msgs: seq<Message>, i: nat, j: nat)
    requires BlockStructured(msgs) && IsCall(msgs, i, j)
    ensures i + 1 + j < |msgs| && IsResultOf(msgs, i + 1 + j, i, j)
    ensures forall t :: i < t <= i + 1 + j ==> msgs[t].role == RoleTool
    decreases |msgs|
  {
    var n := BlockLen(msgs);
    var block := msgs[..n];
    if i == 0 {
      assert forall t :: 0 <= t < n ==> block[t] == msgs[t];
    } else {
      assert forall t :: 1 <= t < n ==> block[t].role == RoleTool;
      assert CallAt(msgs[n..], i - n, j) == CallAt(msgs, i, j);
      ToolsBetween(msgs[n..], i - n, j);
      forall t | i < t <= i + 1 + j ensures msgs[t].role == RoleTool {
        assert msgs[n..][t - n] == msgs[t];
      }
    }
  }

  lemma ResultKey(f: Keying, msgs: seq<Message>, t: int, i: int, j: int)
    requires UniqueIds(msgs) && IsResultOf(msgs, t, i, j)
    ensures forall key :: Keyed(msgs, KeyMap(f, msgs, map[]), t, key) <==> f(CallAt(msgs, i, j)) == Some(key)
  {
    KeyMapAt(f, msgs, map[], i, j);
  }

  lemma KeyedResult(f: Keying, msgs: seq<Message>, t: int, key: string) returns (i: int, j: int)
    requires Keyed(msgs, KeyMap(f, msgs, map[]), t, key)
    ensures IsResultOf(msgs, t, i, j) && f(CallAt(msgs, i, j)) == Some(key)
  {
    i, j := KeyMapOrigin(f, msgs, map[], msgs[t].toolCallId);
  }

  // ---------------------------------------------------------------- P6

  ghost predicate ReadsAt(codec: ArgCodec, msgs: seq<Message>, t: int, path: string, offset: int) {
    exists i, j :: IsResultOf(msgs, t, i, j) && CallAt(msgs, i, j).name == "read"
      && codec.Path(CallAt(msgs, i, j).args) == Some(path) && codec.ReadOffset(CallAt(msgs, i, j).args) == offset
  }

  ghost predicate ReadAgain(codec: ArgCodec, msgs: seq<Message>, t: int, path: string, offset: int) {
    exists t' :: t < t' && ReadsAt(codec, msgs, t', path, offset)
  }

  // A read result is folded exactly when it lies before the window and a later result reads the same
  // path at the same offset; in particular the newest result of each (path, offset) stays verbatim.
  lemma ReadFoldedIff(codec: ArgCodec, msgs: seq<Message>, keepN: int, out: seq<Message>, t: nat, path: string,
        offset: int)
    requires UniqueIds(msgs) && IsDedupRead(codec, msgs, keepN, out)
    requires t < |msgs| && ReadsAt(codec, msgs, t, path, offset)
    ensures |out| == |msgs|
    ensures out[t] == if Outside(msgs, keepN, t) && ReadAgain(codec, msgs, t, path, offset)
                      then msgs[t].(content := ReadMarker(path + " offset=" + Itoa(offset))) else msgs[t]
  {
    var keys := KeyMap(call => codec.ReadKey(call), msgs, map[]);
    var key := path + " offset=" + Itoa(offset);
    ReadsAreKeyed(codec, msgs, t, path, offset);
    assert DedupReadAt(msgs, keys, keepN, t, out[t]);
    if ReadAgain(codec, msgs, t, path, offset) {
      var t' :| t < t' && ReadsAt(codec, msgs, t', path, offset);
      ReadsAreKeyed(codec, msgs, t', path, offset);
      assert KeyedLater(msgs, keys, t, key);
    }
    if KeyedLater(msgs, keys, t, key) {
      var t' :| t < t' && Keyed(msgs, keys, t', key);
      KeyedReads(codec, msgs, t', path, offset);
    }
  }

  lemma ReadsAreKeyed(codec: ArgCodec, msgs: seq<Message>, t: int, path: string, offset: int)
    requires UniqueIds(msgs) && ReadsAt(codec, msgs, t, path, offset)
    ensures Keyed(msgs, KeyMap(call => codec.ReadKey(call), msgs, map[]), t, path + " offset=" + Itoa(offset))
  {
    var i, j :| IsResultOf(msgs, t, i, j) && CallAt(msgs, i, j).name == "read"
      && codec.Path(CallAt(msgs, i, j).args) == Some(path) && codec.ReadOffset(CallAt(msgs, i, j).args) == offset;
    var f: Keying := call => codec.ReadKey(call);
    ResultKey(f, msgs, t, i, j);
    assert f(CallAt(msgs, i, j)) == Some(path + " offset=" + Itoa(offset));
  }

  lemma KeyedReads(codec: ArgCodec, msgs: seq<Message>, t: int, path: string, offset: int)
    requires Keyed(msgs, KeyMap(call => codec.ReadKey(call), msgs, map[]), t, path + " offset=" + Itoa(offset))
    ensures ReadsAt(codec, msgs, t, path, offset)
  {
    var f: Keying := call => codec.ReadKey(call);
    var i, j := KeyedResult(f, msgs, t, path + " offset=" + Itoa(offset));
    var call := CallAt(msgs, i, j);
    ReadKeyInjective(codec.Path(call.args).value, codec.ReadOffset(call.args), path, offset);
  }

  lemma {:induction false} OnlyResultsKeepKeys(f: Keying, a: seq<Message>, b: seq<Message>, keys: Keys)
    requires OnlyResults(a, b)
    ensures KeyMap(f, a, keys) == KeyMap(f, b, keys)
    decreases |a|
  {
    if a == [] {
    } else {
      assert OnlyResults(a[1..], b[1..]);
      OnlyResultsKeepKeys(f, a[1..], b[1..], if a[0].role == RoleAssistant then AddKeys(f, a[0].toolCalls, keys)
          else keys);
    }
  }

  lemma {:induction false} SameShapeCount(a: seq<Message>, b: seq<Message>)
    requires SameShape(a, b)
    ensures AssistantCount(a) == AssistantCount(b)
    decreases |a|
  {
    if a == [] {
    } else {
      assert SameShapeMessage(a[0], b[0]);
      assert SameShape(a[1..], b[1..]);
      SameShapeCount(a[1..], b[1..]);
    }
  }

  lemma SameWindow(a: seq<Message>, b: seq<Message>, keepN: int)
    requires SameShape(a, b)
    ensures forall i :: 0 <= i < |a| ==> (Outside(a, keepN, i) <==> Outside(b, keepN, i))
  {
    forall i | 0 <= i < |a| ensures Outside(a, keepN, i) <==> Outside(b, keepN, i) {
      assert SameShape(a[i+1..], b[i+1..]);
      SameShapeCount(a[i+1..], b[i+1..]);
    }
  }

  lemma OnlyResultsKeepKeyOf(a: seq<Message>, b: seq<Message>, keys: Keys)
    requires OnlyResults(a, b)
    ensures forall i :: KeyOf(a, keys, i) == KeyOf(b, keys, i)
    ensures forall i, key :: KeyedLater(a, keys, i, key) <==> KeyedLater(b, keys, i, key)
  {
    forall i ensures KeyOf(a, keys, i) == KeyOf(b, keys, i) {
    }
    forall i, key ensures KeyedLater(a, keys, i, key) <==> KeyedLater(b, keys, i, key) {
      if KeyedLater(a, keys, i, key) {
        var t :| i < t && Keyed(a, keys, t, key);
        assert Keyed(b, keys, t, key);
      }
      if KeyedLater(b, keys, i, key) {
        var t :| i < t && Keyed(b, keys, t, key);
        assert Keyed(a, keys, t, key);
      }
    }
  }

  lemma DedupReadIdempotent(codec: ArgCodec, msgs: seq<Message>, keepN: int, out: seq<Message>, again: seq<Message>)
    requires IsDedupRead(codec, msgs, keepN, out) && IsDedupRead(codec, out, keepN, again)
    ensures again == out
  {
    var f: Keying := call => codec.ReadKey(call);
    var keys := KeyMap(f, msgs, map[]);
    DedupReadOnlyResults(codec, msgs, keepN, out);
    OnlyResultsKeepKeys(f, msgs, out, map[]);
    OnlyResultsKeepKeyOf(msgs, out, keys);
    SameWindow(msgs, out, keepN);
    forall i | 0 <= i < |msgs| ensures again[i] == out[i] {
      assert DedupReadAt(msgs, keys, keepN, i, out[i]) && DedupReadAt(out, keys, keepN, i, again[i]);
    }
  }

  // ---------------------------------------------------------------- P11

  // The last result of a (non-empty) id decides whether its call failed.
  lemma {:induction false} ErrorMapAt(msgs: seq<Message>, errs: map<string, bool>, id: string, t: nat)
    requires id != "" && t < |msgs| && msgs[t].role == RoleTool && msgs[t].toolCallId == id
    requires forall t' :: t < t' < |msgs| && msgs[t'].role == RoleTool ==> msgs[t'].toolCallId != id
    ensures Failed(ErrorMap(msgs, errs), id) == msgs[t].isError
    decreases |msgs|
  {
    var errs' := if msgs[0].role == RoleTool && msgs[0].toolCallId != ""
        then errs[msgs[0].toolCallId := msgs[0].isError] else errs;
    if t > 0 {
      forall t' | t - 1 < t' < |msgs[1..]| && msgs[1..][t'].role == RoleTool ensures msgs[1..][t'].toolCallId != id {
        assert msgs[1..][t'] == msgs[t'+1];
      }
      ErrorMapAt(msgs[1..], errs', id, t - 1);
    } else {
      ErrorMapFrame(msgs[1..], errs', id);
    }
  }

  lemma {:induction false} ErrorMapFrame(msgs: seq<Message>, errs: map<string, bool>, id: string)
    requires forall t :: 0 <= t < |msgs| && msgs[t].role == RoleTool ==> msgs[t].toolCallId != id
    ensures Failed(ErrorMap(msgs, errs), id) == Failed(errs, id)
    decreases |msgs|
  {
    if msgs == [] {
    } else {
      assert msgs[0].role == RoleTool ==> msgs[0].toolCallId != id;
      var errs' := if msgs[0].role == RoleTool && msgs[0].toolCallId != ""
          then errs[msgs[0].toolCallId := msgs[0].isError] else errs;
      forall t | 0 <= t < |msgs[1..]| && msgs[1..][t].role == RoleTool ensures msgs[1..][t].toolCallId != id {
        assert msgs[1..][t] == msgs[t+1];
      }
      ErrorMapFrame(msgs[1..], errs', id);
    }
  }

  // A write or edit of the path whose own result, right behind it, is no error.
  ghost predicate SuccessfulWrite(codec: ArgCodec, msgs: seq<Message>, w: int, j: int, path: string) {
    && IsCall(msgs, w, j) && w + 1 + j < |msgs|
    && IsLargeArgTool(CallAt(msgs, w, j).name) && codec.Path(CallAt(msgs, w, j).args) == Some(path)
    && !msgs[w + 1 + j].isError
  }

  ghost predicate NamedIds(msgs: seq<Message>) {
    forall i, j :: IsCall(msgs, i, j) ==> CallAt(msgs, i, j).id != ""
  }

  lemma WritesToIff(codec: ArgCodec, msgs: seq<Message>, w: int, path: string)
    requires BlockStructured(msgs) && UniqueIds(msgs) && NamedIds(msgs)
    ensures WritesTo(codec, msgs, ErrorMap(msgs, map[]), w, path)
            <==> exists j :: SuccessfulWrite(codec, msgs, w, j, path)
  {
    forall j | IsCall(msgs, w, j)
      ensures w + 1 + j < |msgs| && Failed(ErrorMap(msgs, map[]), CallAt(msgs, w, j).id) == msgs[w + 1 + j].isError
    {
      ToolsBetween(msgs, w, j);
      var id := CallAt(msgs, w, j).id;
      forall t' | w + 1 + j < t' < |msgs| && msgs[t'].role == RoleTool ensures msgs[t'].toolCallId != id {
        var i', j' := BlockOwner(msgs, t');
      }
      ErrorMapAt(msgs, map[], id, w + 1 + j);
    }
    if exists j :: SuccessfulWrite(codec, msgs, w, j, path) {
      var j :| SuccessfulWrite(codec, msgs, w, j, path);
      assert WritesPath(codec, ErrorMap(msgs, map[]), CallAt(msgs, w, j), path);
    }
    if WritesTo(codec, msgs, ErrorMap(msgs, map[]), w, path) {
      var j :| IsCall(msgs, w, j) && WritesPath(codec, ErrorMap(msgs, map[]), CallAt(msgs, w, j), path);
      assert SuccessfulWrite(codec, msgs, w, j, path);
    }
  }

  ghost predicate SucceedsLater(codec: ArgCodec, msgs: seq<Message>, t: int, path: string) {
    exists w, j :: t < w && SuccessfulWrite(codec, msgs, w, j, path)
  }

  lemma WrittenLaterIff(codec: ArgCodec, msgs: seq<Message>, t: int, path: string)
    requires BlockStructured(msgs) && UniqueIds(msgs) && NamedIds(msgs)
    ensures WrittenLater(codec, msgs, t, path) <==> SucceedsLater(codec, msgs, t, path)
  {
    if WrittenLater(codec, msgs, t, path) {
      var w :| w > t && WritesTo(codec, msgs, ErrorMap(msgs, map[]), w, path);
      WritesToIff(codec, msgs, w, path);
    }
    if SucceedsLater(codec, msgs, t, path) {
      var w, j :| t < w && SuccessfulWrite(codec, msgs, w, j, path);
      WritesToIff(codec, msgs, w, path);
    }
  }

  ghost predicate ReadsPath(codec: ArgCodec, msgs: seq<Message>, t: int, path: string) {
    exists i, j :: IsResultOf(msgs, t, i, j) && CallAt(msgs, i, j).name == "read"
        && codec.Path(CallAt(msgs, i, j).args) == Some(path)
  }

  // A read before the window is folded exactly when a later write or edit of its path succeeded.
  lemma StaleReadFoldedIff(codec: ArgCodec, msgs: seq<Message>, keepN: int, out: seq<Message>, t: nat, path: string)
    requires BlockStructured(msgs) && UniqueIds(msgs) && NamedIds(msgs) && IsFoldReads(codec, msgs, keepN, out)
    requires t < |msgs| && ReadsPath(codec, msgs, t, path)
    ensures |out| == |msgs|
    ensures out[t] == if Outside(msgs, keepN, t) && SucceedsLater(codec, msgs, t, path)
                      then msgs[t].(content := StaleReadMarker(path)) else msgs[t]
  {
    var f: Keying := call => codec.ReadPath(call);
    var keys := KeyMap(f, msgs, map[]);
    var i, j :| IsResultOf(msgs, t, i, j) && CallAt(msgs, i, j).name == "read"
        && codec.Path(CallAt(msgs, i, j).args) == Some(path);
    ResultKey(f, msgs, t, i, j);
    assert Keyed(msgs, keys, t, path);
    assert FoldReadAt(codec, msgs, keys, keepN, t, out[t]);
    WrittenLaterIff(codec, msgs, t, path);
  }

  lemma {:induction false} SameShapeErrors(a: seq<Message>, b: seq<Message>, errs: map<string, bool>)
    requires SameShape(a, b)
    ensures ErrorMap(a, errs) == ErrorMap(b, errs)
    decreases |a|
  {
    if a == [] {
    } else {
      assert SameShapeMessage(a[0], b[0]);
      assert SameShape(a[1..], b[1..]);
      SameShapeErrors(a[1..], b[1..],
        if a[0].role == RoleTool && a[0].toolCallId != "" then errs[a[0].toolCallId := a[0].isError] else errs);
    }
  }

  lemma OnlyResultsKeepWrites(codec: ArgCodec, a: seq<Message>, b: seq<Message>)
    requires OnlyResults(a, b) && SameShape(a, b)
    ensures forall i, path :: WrittenLater(codec, a, i, path) <==> WrittenLater(codec, b, i, path)
  {
    SameShapeErrors(a, b, map[]);
    assert forall i, j :: IsCall(a, i, j) ==> IsCall(b, i, j) && CallAt(a, i, j) == CallAt(b, i, j);
    assert forall i, j :: IsCall(b, i, j) ==> IsCall(a, i, j);
    assert forall w, path ::
      WritesTo(codec, a, ErrorMap(a, map[]), w, path) <==> WritesTo(codec, b, ErrorMap(b, map[]), w, path);
  }

  lemma FoldReadsIdempotent(codec: ArgCodec, msgs: seq<Message>, keepN: int, out: seq<Message>, again: seq<Message>)
    requires IsFoldReads(codec, msgs, keepN, out) && IsFoldReads(codec, out, keepN, again)
    ensures again == out
  {
    var f: Keying := call => codec.ReadPath(call);
    var keys := KeyMap(f, msgs, map[]);
    FoldReadsOnlyResults(codec, msgs, keepN, out);
    OnlyResultsKeepKeys(f, msgs, out, map[]);
    OnlyResultsKeepKeyOf(msgs, out, keys);
    OnlyResultsKeepWrites(codec, msgs, out);
    SameWindow(msgs, out, keepN);
    forall i | 0 <= i < |msgs| ensures again[i] == out[i] {
      assert FoldReadAt(codec, msgs, keys, keepN, i, out[i]) && FoldReadAt(codec, out, keys, keepN, i, again[i]);
    }
  }

  // ---------------------------------------------------------------- P8'

  // The arguments of a path's newest successful write survive, and so do those of any write that
  // follows it, failed or not; an older write before the window is reduced to its path.
  lemma NewestWriteKept(codec: ArgCodec, msgs: seq<Message>, keepN: int, out: seq<Message>, i: nat, j: nat,
        path: string)
    requires BlockStructured(msgs) && UniqueIds(msgs) && NamedIds(msgs) && IsFoldWrites(codec, msgs, keepN, out)
    requires IsCall(msgs, i, j) && IsLargeArgTool(CallAt(msgs, i, j).name)
    requires codec.Path(CallAt(msgs, i, j).args) == Some(path)
    ensures IsCall(out, i, j)
    ensures CallAt(out, i, j) == if Outside(msgs, keepN, i) && SucceedsLater(codec, msgs, i, path)
                                 then CallAt(msgs, i, j).(args := codec.FoldedWrite(path)) else CallAt(msgs, i, j)
  {
    WrittenLaterIff(codec, msgs, i, path);
    assert Outside(msgs, keepN, i) ==> CallAt(out, i, j) == FoldWriteCall(codec, msgs, i, CallAt(msgs, i, j));
  }

  // Folding keeps the path readable, so the later write is still found the second time round.
  lemma FoldedCallPath(codec: ArgCodec, msgs: seq<Message>, i: nat, call: ToolCall)
    requires codec.Lawful()
    ensures codec.Path(FoldWriteCall(codec, msgs, i, call).args) == codec.Path(call.args)
  {
    if StaleWrite(codec, msgs, i, call) {
      var p := codec.Path(call.args).value;
      var m: Fields := map["path" := Str(p), "content" := Str(WRITE_MARKER)];
      assert codec.decode(codec.encode(m)) == Some(m);
      assert exists q :: p == codec.clean(q);
    }
  }

  lemma FoldWritesIdempotent(codec: ArgCodec, msgs: seq<Message>, keepN: int, out: seq<Message>, again: seq<Message>)
    requires codec.Lawful()
    requires IsFoldWrites(codec, msgs, keepN, out) && IsFoldWrites(codec, out, keepN, again)
    ensures again == out
  {
    PassesKeepShape(codec, msgs, keepN, 0, out);
    SameWindow(msgs, out, keepN);
    SameShapeErrors(msgs, out, map[]);
    var errs := ErrorMap(msgs, map[]);
    forall i, j | IsCall(msgs, i, j)
      ensures IsCall(out, i, j)
      ensures codec.Path(CallAt(out, i, j).args) == codec.Path(CallAt(msgs, i, j).args)
      ensures CallAt(out, i, j).id == CallAt(msgs, i, j).id && CallAt(out, i, j).name == CallAt(msgs, i, j).name
    {
      assert SameShapeMessage(msgs[i], out[i]);
      FoldedCallPath(codec, msgs, i, CallAt(msgs, i, j));
      if Outside(msgs, keepN, i) {
        assert CallAt(out, i, j) == FoldWriteCall(codec, msgs, i, CallAt(msgs, i, j));
      }
    }
    forall i, j | IsCall(out, i, j) ensures IsCall(msgs, i, j) {
      assert SameShapeMessage(msgs[i], out[i]);
    }
    forall w, path ensures WritesTo(codec, msgs, errs, w, path) <==> WritesTo(codec, out, errs, w, path) {
      if WritesTo(codec, msgs, errs, w, path) {
        var j :| IsCall(msgs, w, j) && WritesPath(codec, errs, CallAt(msgs, w, j), path);
        assert IsCall(out, w, j) && WritesPath(codec, errs, CallAt(out, w, j), path);
      }
      if WritesTo(codec, out, errs, w, path) {
        var j :| IsCall(out, w, j) && WritesPath(codec, errs, CallAt(out, w, j), path);
        assert IsCall(msgs, w, j) && WritesPath(codec, errs, CallAt(msgs, w, j), path);
      }
    }
    assert forall i, path :: WrittenLater(codec, msgs, i, path) <==> WrittenLater(codec, out, i, path);
    forall i | 0 <= i < |msgs| ensures again[i] == out[i] {
      if msgs[i].role == RoleAssistant && Outside(msgs, keepN, i) {
        forall j | 0 <= j < |out[i].toolCalls| ensures FoldWriteCall(codec, out, i,
            out[i].toolCalls[j]) == out[i].toolCalls[j] {
          assert IsCall(out, i, j) && IsCall(msgs, i, j);
          assert out[i].toolCalls[j] == FoldWriteCall(codec, msgs, i, CallAt(msgs, i, j));
        }
        assert FoldWriteCalls(codec, out, i, out[i].toolCalls) == out[i].toolCalls;
      }
    }
  }

  // ---------------------------------------------------------------- P9b

  ghost predicate Runs(codec: ArgCodec, msgs: seq<Message>, i: int, j: int, key: string) {
    IsCall(msgs, i, j) && codec.ShellKey(CallAt(msgs, i, j)) == Some(key)
  }

  lemma RepeatedIff(codec: ArgCodec, msgs: seq<Message>, i: nat, j: nat, key: string)
    requires UniqueIds(msgs) && Runs(codec, msgs, i, j, key)
    ensures RepeatedCall(msgs, KeyMap(call => codec.ShellKey(call), msgs, map[]), i, j)
            <==> exists i', j' :: Before(i, j, i', j') && Runs(codec, msgs, i', j', key)
  {
    var f: Keying := call => codec.ShellKey(call);
    var keys := KeyMap(f, msgs, map[]);
    forall i', j' | IsCall(msgs, i', j') ensures KeyedCall(msgs, keys, i', j', key)
        <==> Runs(codec, msgs, i', j', key) {
      KeyMapAt(f, msgs, map[], i', j');
    }
    assert KeyedCall(msgs, keys, i, j, key);
  }

  // The last run of each command keeps its arguments and its result; an earlier run before the
  // window loses both.
  lemma LastRunKept(codec: ArgCodec, msgs: seq<Message>, keepN: int, out: seq<Message>, i: nat, j: nat, key: string)
    requires BlockStructured(msgs) && UniqueIds(msgs) && IsDedupShell(codec, msgs, keepN, out)
    requires Runs(codec, msgs, i, j, key)
    ensures IsCall(out, i, j) && i + 1 + j < |out| == |msgs|
    ensures var folded := Outside(msgs, keepN, i) && RunsAgain(codec, msgs, i, j, key);
            && CallAt(out, i, j) == (if folded then CallAt(msgs, i, j).(args := codec.FoldedShell())
                else CallAt(msgs, i, j))
            && out[i+1+j] == (if folded then msgs[i+1+j].(content := SHELL_RESULT_MARKER) else msgs[i+1+j])
  {
    var keys := KeyMap(call => codec.ShellKey(call), msgs, map[]);
    RepeatedIff(codec, msgs, i, j, key);
    ToolsBetween(msgs, i, j);
    var t := i + 1 + j;
    assert DedupShellAt(codec, msgs, keys, keepN, i, out[i]) && DedupShellAt(codec, msgs, keys, keepN, t, out[t]);
    assert FoldedId(msgs, keys, keepN, msgs[t].toolCallId) <==> FoldedCall(msgs, keys, keepN, i, j);
    ToolCallsKept(msgs, out, codec, keys, keepN, t);
  }

  // Folding calls never touches a message that carries none: in a block-structured transcript with
  // named roles the calls of a tool message are not calls of the transcript.
  lemma ToolCallsKept(msgs: seq<Message>, out: seq<Message>, codec: ArgCodec, keys: Keys, keepN: int, t: nat)
    requires t < |msgs| == |out| && msgs[t].role != RoleAssistant && DedupShellAt(codec, msgs, keys, keepN, t, out[t])
    ensures out[t].toolCalls == msgs[t].toolCalls
  {
    forall j | 0 <= j < |out[t].toolCalls| ensures out[t].toolCalls[j] == msgs[t].toolCalls[j] {
      assert !FoldedCall(msgs, keys, keepN, t, j);
    }
  }

  // The message is a result whose text will be replaced: a superseded call has its id.
  ghost predicate AnswersStaleRun(codec: ArgCodec, msgs: seq<Message>, keepN: int, t: nat)
    requires t < |msgs|
  {
    && msgs[t].role == RoleTool && msgs[t].content != SHELL_RESULT_MARKER
    && FoldedId(msgs, KeyMap(call => codec.ShellKey(call), msgs, map[]), keepN, msgs[t].toolCallId)
  }

  // A message of the window changes exactly when it is a result that shares its id with a superseded
  // call in front of the window.
  lemma ShellWindowIff(codec: ArgCodec, msgs: seq<Message>, keepN: int, out: seq<Message>, t: nat)
    requires IsDedupShell(codec, msgs, keepN, out)
    requires t < |msgs| && !Outside(msgs, keepN, t)
    ensures out[t] == msgs[t] <==> !AnswersStaleRun(codec, msgs, keepN, t)
  {
    var keys := KeyMap(call => codec.ShellKey(call), msgs, map[]);
    assert DedupShellAt(codec, msgs, keys, keepN, t, out[t]);
    CallsInWindowKept(codec, msgs, keys, keepN, t, out[t]);
  }

  // With unique ids there is no such result: the window, calls and results alike, is left alone.
  lemma ShellWindowKept(codec: ArgCodec, msgs: seq<Message>, keepN: int, out: seq<Message>, t: nat)
    requires BlockStructured(msgs) && UniqueIds(msgs) && IsDedupShell(codec, msgs, keepN, out)
    requires t < |msgs| && !Outside(msgs, keepN, t)
    ensures out[t] == msgs[t]
  {
    var keys := KeyMap(call => codec.ShellKey(call), msgs, map[]);
    ShellWindowIff(codec, msgs, keepN, out, t);
    if AnswersStaleRun(codec, msgs, keepN, t) {
      var i, j :| FoldedCall(msgs, keys, keepN, i, j) && CallAt(msgs, i, j).id == msgs[t].toolCallId;
      ResultInWindow(msgs, keepN, t, i, j);
    }
  }

  lemma CallsInWindowKept(codec: ArgCodec, msgs: seq<Message>, keys: Keys, keepN: int, t: nat, m: Message)
    requires t < |msgs| && !Outside(msgs, keepN, t) && DedupShellAt(codec, msgs, keys, keepN, t, m)
    ensures m.toolCalls == msgs[t].toolCalls
  {
    assert forall j :: !FoldedCall(msgs, keys, keepN, t, j);
  }

  // A result lies in the window exactly when its call does: only tool messages stand between them.
  lemma ResultInWindow(msgs: seq<Message>, keepN: int, t: nat, i: nat, j: nat)
    requires BlockStructured(msgs) && UniqueIds(msgs) && IsResultOf(msgs, t, i, j)
    ensures Outside(msgs, keepN, t) <==> Outside(msgs, keepN, i)
  {
    hide BlockStructured, AssistantCount;
    var i', j' := BlockOwner(msgs, t);
    assert i == i' && j == j';
    ToolsBetween(msgs, i, j);
    NoAssistantsBetween(msgs, i + 1, t + 1);
  }

  lemma {:induction false} NoAssistantsBetween(msgs: seq<Message>, a: nat, b: nat)
    requires a <= b <= |msgs| && forall k :: a <= k < b ==> msgs[k].role != RoleAssistant
    ensures AssistantCount(msgs[a..]) == AssistantCount(msgs[b..])
    decreases b - a
  {
    if a < b {
      CountSuffix(msgs, a);
      NoAssistantsBetween(msgs, a + 1, b);
    }
  }

  // ---------------------------------------------------------------- P9b twice

  // The key a folded call has the next time.
  function MarkerKey(codec: ArgCodec): string {
    codec.normalize(SHELL_MARKER)
  }

  // A run in front of the window that the same command follows.
  ghost predicate Superseded(codec: ArgCodec, msgs: seq<Message>, keepN: int, i: int, j: int) {
    IsCall(msgs, i, j) && Outside(msgs, keepN, i) && exists key :: RunsAgain(codec, msgs, i, j, key)
  }

  ghost predicate RunsAgain(codec: ArgCodec, msgs: seq<Message>, i: int, j: int, key: string) {
    Runs(codec, msgs, i, j, key) && exists i', j' :: Before(i, j, i', j') && Runs(codec, msgs, i', j', key)
  }

  // Call and result as the pass leaves them.
  ghost predicate ShellFoldedAt(codec: ArgCodec, msgs: seq<Message>, keepN: int, out: seq<Message>, i: int, j: int)
    requires IsCall(msgs, i, j)
  {
    && IsCall(out, i, j) && i + 1 + j < |out| == |msgs|
    && CallAt(out, i, j) == (if Superseded(codec, msgs, keepN, i, j)
        then CallAt(msgs, i, j).(args := codec.FoldedShell()) else CallAt(msgs, i, j))
    && out[i+1+j] == (if Superseded(codec, msgs, keepN, i, j) then msgs[i+1+j].(content := SHELL_RESULT_MARKER)
        else msgs[i+1+j])
  }

  lemma ShellFolds(codec: ArgCodec, msgs: seq<Message>, keepN: int, out: seq<Message>, i: int, j: int)
    requires BlockStructured(msgs) && UniqueIds(msgs) && IsDedupShell(codec, msgs, keepN, out) && IsCall(msgs, i, j)
    ensures ShellFoldedAt(codec, msgs, keepN, out, i, j)
  {
    var key := codec.ShellKey(CallAt(msgs, i, j));
    if key.Some? {
      LastRunKept(codec, msgs, keepN, out, i, j, key.value);
      assert Superseded(codec, msgs, keepN, i, j)
          <==> Outside(msgs, keepN, i) && RunsAgain(codec, msgs, i, j, key.value);
    } else {
      var f: Keying := call => codec.ShellKey(call);
      var keys := KeyMap(f, msgs, map[]);
      KeyMapAt(f, msgs, map[], i, j);
      ToolsBetween(msgs, i, j);
      var t := i + 1 + j;
      assert DedupShellAt(codec, msgs, keys, keepN, i, out[i]) && DedupShellAt(codec, msgs, keys, keepN, t, out[t]);
      ToolCallsKept(msgs, out, codec, keys, keepN, t);
    }
  }

  // Apart from calls and their results nothing changes.
  lemma ShellOthersKept(codec: ArgCodec, msgs: seq<Message>, keepN: int, out: seq<Message>, t: nat)
    requires BlockStructured(msgs) && UniqueIds(msgs) && IsDedupShell(codec, msgs, keepN, out)
    requires t < |msgs| && msgs[t].role != RoleTool
    ensures out[t] == msgs[t].(toolCalls := out[t].toolCalls) && (msgs[t].role != RoleAssistant ==> out[t] == msgs[t])
  {
    var keys := KeyMap(call => codec.ShellKey(call), msgs, map[]);
    assert DedupShellAt(codec, msgs, keys, keepN, t, out[t]);
    if msgs[t].role != RoleAssistant {
      ToolCallsKept(msgs, out, codec, keys, keepN, t);
    }
  }

  // The pass changed nothing when it left every call and its result as they were.
  lemma ShellSame(codec: ArgCodec, msgs: seq<Message>, keepN: int, out: seq<Message>)
    requires BlockStructured(msgs) && UniqueIds(msgs) && IsDedupShell(codec, msgs, keepN, out)
    requires forall i, j :: IsCall(msgs, i, j) ==> CallKept(msgs, out, i, j)
    ensures out == msgs
  {
    hide BlockStructured, UniqueIds, CallKept;
    forall t | 0 <= t < |msgs| ensures out[t] == msgs[t] {
      if msgs[t].role == RoleTool {
        var i, j := BlockOwner(msgs, t);
        ResultSame(msgs, out, i, j, t);
      } else {
        ShellOthersKept(codec, msgs, keepN, out, t);
        CallsSame(codec, msgs, keepN, out, t);
      }
    }
  }

  ghost predicate CallKept(msgs: seq<Message>, out: seq<Message>, i: int, j: int)
    requires IsCall(msgs, i, j)
  {
    && IsCall(out, i, j) && i + 1 + j < |msgs| && i + 1 + j < |out|
    && CallAt(out, i, j) == CallAt(msgs, i, j) && out[i+1+j] == msgs[i+1+j]
  }

  lemma ResultSame(msgs: seq<Message>, out: seq<Message>, i: nat, j: nat, t: nat)
    requires IsCall(msgs, i, j) && CallKept(msgs, out, i, j) && t == i + 1 + j
    ensures out[t] == msgs[t]
  {
  }

  lemma CallsSame(codec: ArgCodec, msgs: seq<Message>, keepN: int, out: seq<Message>, t: nat)
    requires t < |msgs| && IsDedupShell(codec, msgs, keepN, out)
    requires forall i, j :: IsCall(msgs, i, j) ==> CallKept(msgs, out, i, j)
    ensures msgs[t].role == RoleAssistant ==> out[t].toolCalls == msgs[t].toolCalls
  {
    if msgs[t].role == RoleAssistant {
      assert DedupShellAt(codec, msgs, KeyMap(call => codec.ShellKey(call), msgs, map[]), keepN, t, out[t]);
      forall j | 0 <= j < |msgs[t].toolCalls| ensures out[t].toolCalls[j] == msgs[t].toolCalls[j] {
        assert IsCall(msgs, t, j) && CallKept(msgs, out, t, j);
      }
    }
  }

  // What still changes the second time: the last run of a command that reads like the marker, when a
  // folded call stands behind it.
  ghost predicate ReadsLikeMarker(codec: ArgCodec, msgs: seq<Message>, keepN: int, i: int, j: int) {
    && Runs(codec, msgs, i, j, MarkerKey(codec)) && Outside(msgs, keepN, i)
    && !RunsAgain(codec, msgs, i, j, MarkerKey(codec))
    && (exists i', j' :: Before(i, j, i', j') && Superseded(codec, msgs, keepN, i', j'))
    && i + 1 + j < |msgs|
    && !(CallAt(msgs, i, j).args == codec.FoldedShell() && msgs[i+1+j].content == SHELL_RESULT_MARKER)
  }

  lemma FoldedShellKey(codec: ArgCodec, call: ToolCall)
    requires codec.Lawful() && call.name == "shell"
    ensures codec.ShellKey(call.(args := codec.FoldedShell())) == Some(MarkerKey(codec))
  {
    var m: Fields := map["command" := Str(SHELL_MARKER)];
    assert codec.decode(codec.encode(m)) == Some(m);
  }

  lemma RunsAfterFold(codec: ArgCodec, msgs: seq<Message>, keepN: int, out: seq<Message>, i: int, j: int, key: string)
    requires codec.Lawful() && BlockStructured(msgs) && UniqueIds(msgs) && IsDedupShell(codec, msgs, keepN, out)
    ensures Runs(codec, out, i, j, key)
            <==> IsCall(msgs, i, j) && if Superseded(codec, msgs, keepN, i, j) then key == MarkerKey(codec)
                else Runs(codec, msgs, i, j, key)
  {
    if IsCall(out, i, j) {
      assert DedupShellAt(codec, msgs, KeyMap(call => codec.ShellKey(call), msgs, map[]), keepN, i, out[i]);
    }
    if IsCall(msgs, i, j) {
      ShellFolds(codec, msgs, keepN, out, i, j);
      if Superseded(codec, msgs, keepN, i, j) {
        FoldedShellKey(codec, CallAt(msgs, i, j));
      }
    }
  }

  // The second time a call is superseded that was not the first time: exactly those that read like
  // the marker (changed or not).
  lemma SupersededAgain(codec: ArgCodec, msgs: seq<Message>, keepN: int, out: seq<Message>, i: int, j: int)
    requires codec.Lawful() && BlockStructured(msgs) && UniqueIds(msgs) && IsDedupShell(codec, msgs, keepN, out)
    requires IsCall(msgs, i, j) && !Superseded(codec, msgs, keepN, i, j)
    ensures Superseded(codec, out, keepN, i, j)
            <==> Outside(msgs, keepN, i) && Runs(codec, msgs, i, j, MarkerKey(codec))
                 && exists i', j' :: Before(i, j, i', j') && Superseded(codec, msgs, keepN, i', j')
  {
    var K := MarkerKey(codec);
    PassesKeepShape(codec, msgs, keepN, 0, out);
    SameWindow(msgs, out, keepN);
    ShellFolds(codec, msgs, keepN, out, i, j);
    if Superseded(codec, out, keepN, i, j) {
      var key :| RunsAgain(codec, out, i, j, key);
      var i', j' :| Before(i, j, i', j') && Runs(codec, out, i', j', key);
      RunsAfterFold(codec, msgs, keepN, out, i, j, key);
      RunsAfterFold(codec, msgs, keepN, out, i', j', key);
      assert Superseded(codec, msgs, keepN, i', j') by {
        if !Superseded(codec, msgs, keepN, i', j') {
          assert RunsAgain(codec, msgs, i, j, key);
          assert false;
        }
      }
    }
    if i', j' :| Before(i, j, i', j') && Superseded(codec, msgs, keepN, i', j') {
      RunsAfterFold(codec, msgs, keepN, out, i', j', K);
      RunsAfterFold(codec, msgs, keepN, out, i, j, K);
      if Outside(msgs, keepN, i) && Runs(codec, msgs, i, j, K) {
        assert RunsAgain(codec, out, i, j, K);
      }
    }
  }

  lemma ShellShapeKept(codec: ArgCodec, msgs: seq<Message>, keepN: int, out: seq<Message>)
    requires BlockStructured(msgs) && UniqueIds(msgs) && IsDedupShell(codec, msgs, keepN, out)
    ensures SameShape(msgs, out) && BlockStructured(out) && UniqueIds(out)
    ensures forall i, j :: IsCall(msgs, i, j) <==> IsCall(out, i, j)
  {
    PassesKeepShape(codec, msgs, keepN, 0, out);
    SameShapeKeepsBlocks(msgs, out);
    assert forall i :: 0 <= i < |msgs| ==> SameShapeMessage(msgs[i], out[i]);
    assert forall i, j :: IsCall(msgs, i, j) <==> IsCall(out, i, j);
    forall i, j, i', j' | IsCall(out, i, j) && IsCall(out, i', j') && CallAt(out, i, j).id == CallAt(out, i', j').id
      ensures i == i' && j == j'
    {
      assert CallAt(msgs, i, j).id == CallAt(out, i, j).id && CallAt(msgs, i', j').id == CallAt(out, i', j').id;
    }
  }

  // Folding repeated commands twice is folding them once, unless a kept run reads like the marker.
  lemma DedupShellIdempotentIff(codec: ArgCodec, msgs: seq<Message>, keepN: int, out: seq<Message>, again: seq<Message>)
    requires codec.Lawful() && BlockStructured(msgs) && UniqueIds(msgs)
    requires IsDedupShell(codec, msgs, keepN, out) && IsDedupShell(codec, out, keepN, again)
    ensures again == out <==> !exists i, j :: ReadsLikeMarker(codec, msgs, keepN, i, j)
  {
    ShellShapeKept(codec, msgs, keepN, out);
    if i, j :| ReadsLikeMarker(codec, msgs, keepN, i, j) {
      NotSupersededOnce(codec, msgs, keepN, i, j);
      SupersededAgain(codec, msgs, keepN, out, i, j);
      ShellFolds(codec, msgs, keepN, out, i, j);
      ShellFolds(codec, out, keepN, again, i, j);
      assert CallAt(again, i, j) != CallAt(out, i, j) || again[i+1+j] != out[i+1+j];
    } else {
      forall i, j | IsCall(out, i, j)
        ensures CallKept(out, again, i, j)
      {
        ShellFolds(codec, msgs, keepN, out, i, j);
        ShellFolds(codec, out, keepN, again, i, j);
        if !Superseded(codec, msgs, keepN, i, j) {
          SupersededAgain(codec, msgs, keepN, out, i, j);
          if Superseded(codec, out, keepN, i, j) {
            assert !ReadsLikeMarker(codec, msgs, keepN, i, j);
            assert RunsAgain(codec, msgs, i, j, MarkerKey(codec)) ==> Superseded(codec, msgs, keepN, i, j);
          }
        }
      }
      ShellSame(codec, out, keepN, again);
    }
  }

  lemma NotSupersededOnce(codec: ArgCodec, msgs: seq<Message>, keepN: int, i: int, j: int)
    requires ReadsLikeMarker(codec, msgs, keepN, i, j)
    ensures !Superseded(codec, msgs, keepN, i, j)
  {
    assert forall key :: RunsAgain(codec, msgs, i, j, key) ==> key == MarkerKey(codec);
  }

  // Such a run: a first command that is the marker itself, and another one that runs twice behind it.
  function MarkerRun(codec: ArgCodec, args: string): seq<Message> {
    var a := PLAIN.(role := RoleAssistant, toolCalls := [ToolCall("a", "shell", codec.FoldedShell())]);
    var b := PLAIN.(role := RoleAssistant, toolCalls := [ToolCall("b", "shell", args)]);
    var c := PLAIN.(role := RoleAssistant, toolCalls := [ToolCall("c", "shell", args)]);
    var result := PLAIN.(role := RoleTool, content := "ok");
    [a, result.(toolCallId := "a"), b, result.(toolCallId := "b"), c, result.(toolCallId := "c")]
  }

  lemma MarkerRunBlocks(codec: ArgCodec, args: string)
    ensures BlockStructured(MarkerRun(codec, args))
  {
    var msgs := MarkerRun(codec, args);
    PairIsBlock(msgs[4..]);
    PairIsBlock(msgs[2..4]);
    PairIsBlock(msgs[..2]);
    BlockStructuredConcat(msgs[2..4], msgs[4..]);
    BlockStructuredConcat(msgs[..2], msgs[2..4] + msgs[4..]);
    assert msgs == msgs[..2] + (msgs[2..4] + msgs[4..]);
  }

  lemma PairIsBlock(pair: seq<Message>)
    requires |pair| == 2 && pair[0].role == RoleAssistant && |pair[0].toolCalls| == 1
    requires pair[1].role == RoleTool && pair[1].toolCallId == pair[0].toolCalls[0].id
    ensures BlockStructured(pair)
  {
    BlockIsStructured(pair);
  }

  lemma MarkerRunIds(codec: ArgCodec, args: string)
    ensures UniqueIds(MarkerRun(codec, args))
  {
    var msgs := MarkerRun(codec, args);
    assert forall i, j :: IsCall(msgs, i, j) ==> j == 0 && (i == 0 || i == 2 || i == 4);
    assert CallAt(msgs, 0, 0).id == "a" && CallAt(msgs, 2, 0).id == "b" && CallAt(msgs, 4, 0).id == "c";
  }

  lemma MarkerRunWindow(codec: ArgCodec, args: string)
    ensures Outside(MarkerRun(codec, args), 1, 0) && Outside(MarkerRun(codec, args), 1, 2)
  {
    var msgs := MarkerRun(codec, args);
    CountSuffix(msgs, 4);
    CountMonotone(msgs, 3, 4);
    CountMonotone(msgs, 1, 4);
  }

  // There P9b is not idempotent: the second time the first command is folded too.
  lemma MarkerRunFoldsTwice(codec: ArgCodec, args: string, out: seq<Message>, again: seq<Message>)
    requires codec.Lawful() && codec.ShellKey(ToolCall("b", "shell", args)).Some?
    requires codec.ShellKey(ToolCall("b", "shell", args)) != Some(MarkerKey(codec))
    requires IsDedupShell(codec, MarkerRun(codec, args), 1, out) && IsDedupShell(codec, out, 1, again)
    ensures ReadsLikeMarker(codec, MarkerRun(codec, args), 1, 0, 0) && again != out
  {
    var msgs := MarkerRun(codec, args);
    var key := codec.ShellKey(ToolCall("b", "shell", args)).value;
    MarkerRunBlocks(codec, args);
    MarkerRunIds(codec, args);
    MarkerRunWindow(codec, args);
    FoldedShellKey(codec, ToolCall("a", "shell", ""));
    assert Runs(codec, msgs, 0, 0, MarkerKey(codec));
    assert Runs(codec, msgs, 2, 0, key) && Runs(codec, msgs, 4, 0, key) && Before(2, 0, 4, 0);
    assert RunsAgain(codec, msgs, 2, 0, key);
    assert Superseded(codec, msgs, 1, 2, 0) && Before(0, 0, 2, 0);
    assert ReadsLikeMarker(codec, msgs, 1, 0, 0);
    DedupShellIdempotentIff(codec, msgs, 1, out, again);
  }

  // ---------------------------------------------------------------- the last round

  // Message n opens the last round: no assistant stands behind it ...
  predicate OpensEnd(msgs: seq<Message>, n: nat) {
    n <= |msgs| && forall k :: n < k < |msgs| ==> msgs[k].role != RoleAssistant
  }

  // ... and no call in front of it has the id of a result from there on.
  ghost predicate FreshFrom(msgs: seq<Message>, n: nat) {
    forall i, j, t :: i < n && IsCall(msgs, i, j) && n <= t < |msgs| && msgs[t].role == RoleTool
      ==> CallAt(msgs, i, j).id != msgs[t].toolCallId
  }

  lemma SameShapeKeepsEnd(a: seq<Message>, b: seq<Message>, n: nat)
    requires SameShape(a, b) && OpensEnd(a, n)
    ensures OpensEnd(b, n)
  {
    assert forall i :: 0 <= i < |a| ==> SameShapeMessage(a[i], b[i]);
  }

  lemma EndInWindow(msgs: seq<Message>, keepN: int, n: nat)
    requires OpensEnd(msgs, n) && keepN >= 1
    ensures forall i :: n <= i < |msgs| ==> !Outside(msgs, keepN, i)
  {
    forall i | n <= i < |msgs| ensures !Outside(msgs, keepN, i) {
      NoAssistantsBetween(msgs, i + 1, |msgs|);
    }
  }

  ghost predicate KeepsFrom(a: seq<Message>, b: seq<Message>, n: nat) {
    |a| == |b| && forall i :: n <= i < |a| ==> b[i] == a[i]
  }

  lemma PassKeepsEnd(codec: ArgCodec, msgs: seq<Message>, keepN: int, out: seq<Message>, n: nat)
    requires OpensEnd(msgs, n) && keepN >= 1
    requires || IsStripReasoning(msgs, keepN, out) || IsStripArgs(codec, msgs, keepN, out)
             || IsFoldWrites(codec, msgs, keepN, out)
    ensures KeepsFrom(msgs, out, n)
  {
    EndInWindow(msgs, keepN, n);
  }

  lemma ReadPassKeepsEnd(codec: ArgCodec, msgs: seq<Message>, keepN: int, out: seq<Message>, n: nat)
    requires OpensEnd(msgs, n) && keepN >= 1
    requires IsDedupRead(codec, msgs, keepN, out) || IsFoldReads(codec, msgs, keepN, out)
    ensures KeepsFrom(msgs, out, n)
  {
    EndInWindow(msgs, keepN, n);
    forall i | n <= i < |msgs| ensures out[i] == msgs[i] {
      if IsDedupRead(codec, msgs, keepN, out) {
        assert DedupReadAt(msgs, KeyMap(call => codec.ReadKey(call), msgs, map[]), keepN, i, out[i]);
      } else {
        assert FoldReadAt(codec, msgs, KeyMap(call => codec.ReadPath(call), msgs, map[]), keepN, i, out[i]);
      }
    }
  }

  lemma CutPassCutsEnd(msgs: seq<Message>, keepN: int, chars: int, out: seq<Message>, n: nat)
    requires OpensEnd(msgs, n) && keepN >= 1
    requires IsTruncateReasoning(msgs, keepN, chars, out)
    ensures |out| == |msgs| && out[n..] == CutRound(msgs[n..], chars)
  {
    EndInWindow(msgs, keepN, n);
    forall i | n <= i < |msgs| ensures out[i] == CutRound(msgs[n..], chars)[i-n] {
      assert chars > 0 ==> CutInside(msgs, keepN, chars, i, out[i]);
    }
  }

  lemma KeepsSuffix(a: seq<Message>, b: seq<Message>, n: nat)
    requires n <= |a| && KeepsFrom(a, b, n)
    ensures a[n..] == b[n..]
  {
  }

  // The first six passes leave the end of the transcript alone, but for the cut of its reasoning.
  lemma SixKeepEnd(codec: ArgCodec, keepReasoning: int, chars: int, keepArgs: int, s: seq<seq<Message>>, n: nat)
    requires IsPipeline(codec, keepReasoning, chars, keepArgs, s) && keepReasoning >= 1 && keepArgs >= 1
    requires OpensEnd(s[0], n)
    ensures SameShape(s[0], s[6]) && OpensEnd(s[6], n) && s[6][n..] == CutRound(s[0][n..], chars)
  {
    PassesKeepShape(codec, s[0], keepReasoning, 0, s[1]);
    SameShapeKeepsEnd(s[0], s[1], n);
    PassKeepsEnd(codec, s[0], keepReasoning, s[1], n);
    KeepsSuffix(s[0], s[1], n);
    PassesKeepShape(codec, s[1], keepReasoning, chars, s[2]);
    SameShapeKeepsEnd(s[1], s[2], n);
    CutPassCutsEnd(s[1], keepReasoning, chars, s[2], n);
    FourKeepEnd(codec, keepReasoning, chars, keepArgs, s, n);
    SameShapeTransitive(s[0], s[1], s[2]);
    SameShapeTransitive(s[0], s[2], s[6]);
  }

  lemma FourKeepEnd(codec: ArgCodec, keepReasoning: int, chars: int, keepArgs: int, s: seq<seq<Message>>, n: nat)
    requires IsPipeline(codec, keepReasoning, chars, keepArgs, s) && keepArgs >= 1
    requires OpensEnd(s[2], n)
    ensures SameShape(s[2], s[6]) && OpensEnd(s[6], n) && s[6][n..] == s[2][n..]
  {
    PassesKeepShape(codec, s[2], keepArgs, 0, s[3]);
    SameShapeKeepsEnd(s[2], s[3], n);
    PassKeepsEnd(codec, s[2], keepArgs, s[3], n);
    KeepsSuffix(s[2], s[3], n);
    DedupReadOnlyResults(codec, s[3], keepArgs, s[4]);
    SameShapeKeepsEnd(s[3], s[4], n);
    ReadPassKeepsEnd(codec, s[3], keepArgs, s[4], n);
    KeepsSuffix(s[3], s[4], n);
    FoldReadsOnlyResults(codec, s[4], keepArgs, s[5]);
    SameShapeKeepsEnd(s[4], s[5], n);
    ReadPassKeepsEnd(codec, s[4], keepArgs, s[5], n);
    KeepsSuffix(s[4], s[5], n);
    PassesKeepShape(codec, s[5], keepArgs, 0, s[6]);
    SameShapeKeepsEnd(s[5], s[6], n);
    PassKeepsEnd(codec, s[5], keepArgs, s[6], n);
    KeepsSuffix(s[5], s[6], n);
    SameShapeTransitive(s[2], s[3], s[4]);
    SameShapeTransitive(s[2], s[4], s[5]);
    SameShapeTransitive(s[2], s[5], s[6]);
  }

  // The same calls, as far as P9b looks at them: their ids, and the commands they run.
  ghost predicate SameCalls(codec: ArgCodec, a: seq<ToolCall>, b: seq<ToolCall>) {
    && |a| == |b|
    && forall j :: 0 <= j < |a| ==> a[j].id == b[j].id && codec.ShellKey(a[j]) == codec.ShellKey(b[j])
  }

  ghost predicate SameRuns(codec: ArgCodec, a: seq<Message>, b: seq<Message>) {
    |a| == |b| && forall i :: 0 <= i < |a| ==>
        a[i].role == b[i].role && SameCalls(codec, a[i].toolCalls, b[i].toolCalls)
  }

  lemma SameRunsTransitive(codec: ArgCodec, a: seq<Message>, b: seq<Message>, c: seq<Message>)
    requires SameRuns(codec, a, b) && SameRuns(codec, b, c)
    ensures SameRuns(codec, a, c)
  {
    forall i | 0 <= i < |a| ensures SameCalls(codec, a[i].toolCalls, c[i].toolCalls) {
      assert SameCalls(codec, a[i].toolCalls, b[i].toolCalls) && SameCalls(codec, b[i].toolCalls, c[i].toolCalls);
    }
  }

  // Only write and edit calls have their arguments rewritten before P9b; they run no command.
  lemma PassKeepsRuns(codec: ArgCodec, msgs: seq<Message>, keepN: int, chars: int, out: seq<Message>)
    requires || IsStripReasoning(msgs, keepN, out) || IsTruncateReasoning(msgs, keepN, chars, out)
             || IsStripArgs(codec, msgs, keepN, out) || IsFoldWrites(codec, msgs, keepN, out)
             || OnlyResults(msgs, out)
    ensures SameRuns(codec, msgs, out)
  {
    forall i | 0 <= i < |msgs|
      ensures out[i].role == msgs[i].role && SameCalls(codec, msgs[i].toolCalls, out[i].toolCalls)
    {
      assert IsTruncateReasoning(msgs, keepN, chars, out) && chars > 0 ==> CutInside(msgs, keepN, chars, i, out[i]);
    }
  }

  lemma SixKeepRuns(codec: ArgCodec, keepReasoning: int, chars: int, keepArgs: int, s: seq<seq<Message>>)
    requires IsPipeline(codec, keepReasoning, chars, keepArgs, s)
    ensures SameRuns(codec, s[0], s[6])
  {
    hide IsStripReasoning, IsTruncateReasoning, IsStripArgs, IsDedupRead, IsFoldReads, IsFoldWrites, IsDedupShell,
        SameRuns;
    PassKeepsRuns(codec, s[0], keepReasoning, 0, s[1]);
    PassKeepsRuns(codec, s[1], keepReasoning, chars, s[2]);
    PassKeepsRuns(codec, s[2], keepArgs, 0, s[3]);
    DedupReadOnlyResults(codec, s[3], keepArgs, s[4]);
    PassKeepsRuns(codec, s[3], keepArgs, 0, s[4]);
    FoldReadsOnlyResults(codec, s[4], keepArgs, s[5]);
    PassKeepsRuns(codec, s[4], keepArgs, 0, s[5]);
    PassKeepsRuns(codec, s[5], keepArgs, 0, s[6]);
    SameRunsTransitive(codec, s[0], s[1], s[2]);
    SameRunsTransitive(codec, s[0], s[2], s[3]);
    SameRunsTransitive(codec, s[0], s[3], s[4]);
    SameRunsTransitive(codec, s[0], s[4], s[5]);
    SameRunsTransitive(codec, s[0], s[5], s[6]);
  }

  lemma {:induction false} SameCallsKeys(codec: ArgCodec, a: seq<ToolCall>, b: seq<ToolCall>, keys: Keys)
    requires SameCalls(codec, a, b)
    ensures AddKeys(call => codec.ShellKey(call), a, keys) == AddKeys(call => codec.ShellKey(call), b, keys)
    decreases |a|
  {
    if a == [] {
    } else {
      assert a[0].id == b[0].id && codec.ShellKey(a[0]) == codec.ShellKey(b[0]);
      assert SameCalls(codec, a[1..], b[1..]);
      var k := codec.ShellKey(a[0]);
      SameCallsKeys(codec, a[1..], b[1..], if k.Some? then keys[a[0].id := k.value] else keys);
    }
  }

  lemma {:induction false} SameRunsKeys(codec: ArgCodec, a: seq<Message>, b: seq<Message>, keys: Keys)
    requires SameRuns(codec, a, b)
    ensures KeyMap(call => codec.ShellKey(call), a, keys) == KeyMap(call => codec.ShellKey(call), b, keys)
    decreases |a|
  {
    if a == [] {
    } else {
      assert a[0].role == b[0].role && SameCalls(codec, a[0].toolCalls, b[0].toolCalls);
      SameCallsKeys(codec, a[0].toolCalls, b[0].toolCalls, keys);
      assert SameRuns(codec, a[1..], b[1..]);
      SameRunsKeys(codec, a[1..], b[1..],
        if a[0].role == RoleAssistant then AddKeys(call => codec.ShellKey(call), a[0].toolCalls, keys) else keys);
    }
  }

  lemma FoldedCallCarries(codec: ArgCodec, a: seq<Message>, b: seq<Message>, keys: Keys, keepN: int, i: int, j: int)
    requires SameShape(a, b) && SameRuns(codec, a, b) && FoldedCall(a, keys, keepN, i, j)
    ensures FoldedCall(b, keys, keepN, i, j) && CallAt(b, i, j).id == CallAt(a, i, j).id
  {
    SameWindow(a, b, keepN);
    forall x, y | IsCall(a, x, y) ensures IsCall(b, x, y) && CallAt(b, x, y).id == CallAt(a, x, y).id {
      assert SameCalls(codec, a[x].toolCalls, b[x].toolCalls);
    }
    var key := keys[CallAt(a, i, j).id];
    var i', j' :| Before(i, j, i', j') && KeyedCall(a, keys, i', j', key);
    assert KeyedCall(b, keys, i', j', key);
  }

  lemma SameShapeSymmetric(a: seq<Message>, b: seq<Message>)
    requires SameShape(a, b)
    ensures SameShape(b, a)
  {
    forall i | 0 <= i < |a| ensures SameShapeMessage(b[i], a[i]) {
      assert SameShapeMessage(a[i], b[i]);
    }
  }

  lemma SameRunsSymmetric(codec: ArgCodec, a: seq<Message>, b: seq<Message>)
    requires SameRuns(codec, a, b)
    ensures SameRuns(codec, b, a)
  {
    forall i | 0 <= i < |a| ensures SameCalls(codec, b[i].toolCalls, a[i].toolCalls) {
      assert SameCalls(codec, a[i].toolCalls, b[i].toolCalls);
    }
  }

  // So the calls it supersedes can be read off the transcript the pipeline starts from.
  lemma FoldedIdCarries(codec: ArgCodec, a: seq<Message>, b: seq<Message>, keepN: int, id: string)
    requires SameShape(a, b) && SameRuns(codec, a, b)
    ensures FoldedId(a, KeyMap(call => codec.ShellKey(call), a, map[]), keepN, id)
            <==> FoldedId(b, KeyMap(call => codec.ShellKey(call), b, map[]), keepN, id)
  {
    hide RepeatedCall, Outside, SameShape, SameRuns;
    var keys := KeyMap(call => codec.ShellKey(call), a, map[]);
    SameRunsKeys(codec, a, b, map[]);
    SameShapeSymmetric(a, b);
    SameRunsSymmetric(codec, a, b);
    if i, j :| FoldedCall(a, keys, keepN, i, j) && CallAt(a, i, j).id == id {
      FoldedCallCarries(codec, a, b, keys, keepN, i, j);
    }
    if i, j :| FoldedCall(b, keys, keepN, i, j) && CallAt(b, i, j).id == id {
      FoldedCallCarries(codec, b, a, keys, keepN, i, j);
    }
  }

  // A result from message n on whose text P9b will replace.
  ghost predicate StaleFrom(codec: ArgCodec, msgs: seq<Message>, keepN: int, n: nat) {
    exists t :: n <= t < |msgs| && AnswersStaleRun(codec, msgs, keepN, t)
  }

  lemma StaleCarries(codec: ArgCodec, a: seq<Message>, b: seq<Message>, keepN: int, chars: int, n: nat)
    requires SameShape(a, b) && SameRuns(codec, a, b) && n <= |a| && b[n..] == CutRound(a[n..], chars)
    ensures StaleFrom(codec, a, keepN, n) <==> StaleFrom(codec, b, keepN, n)
  {
    forall t | n <= t < |a|
      ensures AnswersStaleRun(codec, a, keepN, t) <==> AnswersStaleRun(codec, b, keepN, t)
    {
      assert b[t] == CutRound(a[n..], chars)[t-n];
      assert b[t].role == a[t].role && b[t].content == a[t].content && b[t].toolCallId == a[t].toolCallId;
      FoldedIdCarries(codec, a, b, keepN, a[t].toolCallId);
    }
  }

  lemma ShellKeepsEndIff(codec: ArgCodec, msgs: seq<Message>, keepN: int, out: seq<Message>, n: nat)
    requires OpensEnd(msgs, n) && keepN >= 1 && IsDedupShell(codec, msgs, keepN, out)
    ensures |out| == |msgs| && (out[n..] == msgs[n..] <==> !StaleFrom(codec, msgs, keepN, n))
  {
    hide AnswersStaleRun, DedupShellAt;
    EndInWindow(msgs, keepN, n);
    forall t | n <= t < |msgs| ensures out[t] == msgs[t] <==> !AnswersStaleRun(codec, msgs, keepN, t) {
      ShellWindowIff(codec, msgs, keepN, out, t);
    }
    assert forall t :: n <= t < |msgs| ==> out[n..][t-n] == out[t] && msgs[n..][t-n] == msgs[t];
  }

  // The seven passes leave the end of the transcript alone, but for the cut of its reasoning, exactly
  // if no superseded command in front of the window has the id of a result there.  The condition is
  // read off the transcript the passes are given.
  lemma PipelineKeepsEnd(codec: ArgCodec, keepReasoning: int, chars: int, keepArgs: int, s: seq<seq<Message>>, n: nat)
    requires |s| == 8 && IsPipeline(codec, keepReasoning, chars, keepArgs, s) && keepReasoning >= 1 && keepArgs >= 1
    requires OpensEnd(s[0], n)
    ensures |s[7]| == |s[0]|
    ensures s[7][n..] == CutRound(s[0][n..], chars) <==> !StaleFrom(codec, s[0], keepArgs, n)
  {
    hide IsDedupShell, OpensEnd, StaleFrom, CutRound, SameRuns, IsStripReasoning, IsTruncateReasoning;
    hide IsStripArgs, IsDedupRead, IsFoldReads, IsFoldWrites;
    SixKeepEnd(codec, keepReasoning, chars, keepArgs, s, n);
    SixKeepRuns(codec, keepReasoning, chars, keepArgs, s);
    StaleCarries(codec, s[0], s[6], keepArgs, chars, n);
    ShellKeepsEndIff(codec, s[6], keepArgs, s[7], n);
  }

  // Ids that no earlier call has are enough for that.
  lemma FreshIsNotStale(codec: ArgCodec, msgs: seq<Message>, keepN: int, n: nat)
    requires OpensEnd(msgs, n) && FreshFrom(msgs, n) && keepN >= 1
    ensures !StaleFrom(codec, msgs, keepN, n)
  {
    EndInWindow(msgs, keepN, n);
    forall t | n <= t < |msgs| ensures !AnswersStaleRun(codec, msgs, keepN, t) {
    }
  }

  // ---------------------------------------------------------------- a reused id

  // Three runs of one command under the same id, as steps of different requests may synthesise it.
  function ReusedId(args: string): seq<Message> {
    var call := PLAIN.(role := RoleAssistant, toolCalls := [ToolCall("synth_1_0", "shell", args)]);
    var result := PLAIN.(role := RoleTool, toolCallId := "synth_1_0", content := "ok");
    [call, result, call, result, call, result]
  }

  lemma ReusedIdFacts(args: string)
    ensures var msgs := ReusedId(args);
            && BlockStructured(msgs) && OpensEnd(msgs, 4) && !FreshFrom(msgs, 4)
            && (forall i :: 0 <= i < 6 ==> msgs[i].reasoning == "" && msgs[i].reasoningState == "")
            && forall i, j :: IsCall(msgs, i, j) ==> CallAt(msgs, i, j) == ToolCall("synth_1_0", "shell", args)
  {
    var msgs := ReusedId(args);
    assert IsBlock(msgs[..2]) && IsBlock(msgs[2..][..2]) && IsBlock(msgs[2..][2..][..2]);
    assert msgs[2..][2..][2..] == [];
    assert BlockStructured(msgs[2..][2..]);
    assert BlockStructured(msgs[2..]);
    assert IsCall(msgs, 0, 0) && CallAt(msgs, 0, 0).id == msgs[5].toolCallId;
  }

  lemma NoKeys(f: Keying, msgs: seq<Message>)
    requires forall i, j :: IsCall(msgs, i, j) ==> f(CallAt(msgs, i, j)).None?
    ensures forall i :: KeyOf(msgs, KeyMap(f, msgs, map[]), i).None?
  {
    forall i ensures KeyOf(msgs, KeyMap(f, msgs, map[]), i).None? {
      if KeyOf(msgs, KeyMap(f, msgs, map[]), i).Some? {
        var i', j' := KeyMapOrigin(f, msgs, map[], msgs[i].toolCallId);
        assert false;
      }
    }
  }

  lemma ReusedIdReads(codec: ArgCodec, args: string, keepN: int, out: seq<Message>)
    requires IsDedupRead(codec, ReusedId(args), keepN, out) || IsFoldReads(codec, ReusedId(args), keepN, out)
    ensures out == ReusedId(args)
  {
    var msgs := ReusedId(args);
    ReusedIdFacts(args);
    NoKeys(call => codec.ReadKey(call), msgs);
    NoKeys(call => codec.ReadPath(call), msgs);
    forall i | 0 <= i < |msgs| ensures out[i] == msgs[i] {
      assert IsDedupRead(codec, msgs, keepN, out) ==>
        DedupReadAt(msgs, KeyMap(call => codec.ReadKey(call), msgs, map[]), keepN, i, out[i]);
      assert IsFoldReads(codec, msgs, keepN, out) ==>
        FoldReadAt(codec, msgs, KeyMap(call => codec.ReadPath(call), msgs, map[]), keepN, i, out[i]);
    }
  }

  lemma ReusedIdCalls(codec: ArgCodec, args: string, i: nat)
    requires i < 6
    ensures var msgs := ReusedId(args); var calls := msgs[i].toolCalls;
            CompressCalls(codec, calls) == calls && FoldWriteCalls(codec, msgs, i, calls) == calls
  {
    var msgs := ReusedId(args);
    var calls := msgs[i].toolCalls;
    assert forall j :: 0 <= j < |calls| ==> calls[j].name == "shell";
    assert CompressCalls(codec, calls) == calls;
    assert FoldWriteCalls(codec, msgs, i, calls) == calls;
  }

  lemma ReusedIdOthers(codec: ArgCodec, args: string, keepN: int, chars: int, out: seq<Message>)
    requires var msgs := ReusedId(args);
             || IsStripReasoning(msgs, keepN, out) || IsTruncateReasoning(msgs, keepN, chars, out)
             || IsStripArgs(codec, msgs, keepN, out) || IsFoldWrites(codec, msgs, keepN, out)
    ensures out == ReusedId(args)
  {
    var msgs := ReusedId(args);
    assert forall m :: m in msgs ==> m.reasoning == "" && m.reasoningState == "";
    forall i | 0 <= i < |msgs| ensures out[i] == msgs[i] {
      assert msgs[i] in msgs;
      ReusedIdCalls(codec, args, i);
      assert IsTruncateReasoning(msgs, keepN, chars, out) && chars > 0 ==> CutInside(msgs, keepN, chars, i, out[i]);
    }
  }

  // Why ids must not be reused: with the default settings the newest result, fresh in the last round,
  // is replaced by the marker, because a superseded call in front of the window has its id.
  lemma ReusedIdLosesLastResult(codec: ArgCodec, args: string, s: seq<seq<Message>>)
    requires codec.ShellKey(ToolCall("synth_1_0", "shell", args)).Some?
    requires IsPipeline(codec, 1, 4000, 2, s) && s[0] == ReusedId(args)
    ensures BlockStructured(s[0]) && OpensEnd(s[0], 4)
    ensures s[0][5].content == "ok" && s[7][5].content == SHELL_RESULT_MARKER
  {
    var msgs := ReusedId(args);
    ReusedIdFacts(args);
    ReusedIdOthers(codec, args, 1, 4000, s[1]);
    ReusedIdOthers(codec, args, 1, 4000, s[2]);
    ReusedIdOthers(codec, args, 2, 4000, s[3]);
    ReusedIdReads(codec, args, 2, s[4]);
    ReusedIdReads(codec, args, 2, s[5]);
    ReusedIdOthers(codec, args, 2, 4000, s[6]);
    ReusedIdFolds(codec, args, s[7]);
  }

  lemma ReusedIdFolds(codec: ArgCodec, args: string, out: seq<Message>)
    requires codec.ShellKey(ToolCall("synth_1_0", "shell", args)).Some?
    requires IsDedupShell(codec, ReusedId(args), 2, out)
    ensures out[5].content == SHELL_RESULT_MARKER
  {
    var msgs := ReusedId(args);
    var f: Keying := call => codec.ShellKey(call);
    var keys := KeyMap(f, msgs, map[]);
    ReusedIdKey(f, args);
    assert KeyedCall(msgs, keys, 0, 0, keys["synth_1_0"]) && KeyedCall(msgs, keys, 2, 0, keys["synth_1_0"]);
    assert Before(0, 0, 2, 0) && RepeatedCall(msgs, keys, 0, 0);
    CountSuffix(msgs, 1);
    CountSuffix(msgs, 2);
    CountSuffix(msgs, 3);
    CountSuffix(msgs, 4);
    assert FoldedCall(msgs, keys, 2, 0, 0) && CallAt(msgs, 0, 0).id == msgs[5].toolCallId;
    assert DedupShellAt(codec, msgs, keys, 2, 5, out[5]);
  }

  lemma ReusedIdKey(f: Keying, args: string)
    requires f(ToolCall("synth_1_0", "shell", args)).Some?
    ensures "synth_1_0" in KeyMap(f, ReusedId(args), map[])
  {
    var msgs := ReusedId(args);
    LastKeyed(f, msgs[5..], AddKeys(f, msgs[4].toolCalls, KeyMap(f, msgs[..4], map[])));
    KeyMapOfParts(f, msgs[..4], msgs[4..], map[]);
    TakeDrop(msgs, 4);
    assert msgs[4..][1..] == msgs[5..];
    assert AddKeys(f, msgs[4].toolCalls, KeyMap(f, msgs[..4], map[]))
        == KeyMap(f, msgs[..4], map[])["synth_1_0" := f(msgs[4].toolCalls[0]).value];
  }

  lemma LastKeyed(f: Keying, rest: seq<Message>, keys: Keys)
    requires |rest| == 1 && rest[0].role == RoleTool
    ensures KeyMap(f, rest, keys) == keys
  {
  }

  lemma {:induction false} KeyMapOfParts(f: Keying, a: seq<Message>, b: seq<Message>, keys: Keys)
    ensures KeyMap(f, a + b, keys) == KeyMap(f, b, KeyMap(f, a, keys))
    decreases |a|
  {
    if a == [] {
      assert a + b == b;
    } else {
      ConsConcat(a, b);
      KeyMapOfParts(f, a[1..], b, if a[0].role == RoleAssistant then AddKeys(f, a[0].toolCalls, keys) else keys);
    }
  }
}
