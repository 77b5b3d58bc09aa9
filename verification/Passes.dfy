/** The context strips: what a request leaves out of an unchanged transcript
    (miniagent/compaction/history_reasoning.go, history_args.go, history_dedup.go,
    history_dedup_read.go, history_dedup_shell.go).
    Every pass is specified message by message: which message it rewrites, exactly when, and to what. */
module Passes {
  import opened Transcript
  import opened Estimate
  import opened Decimal

  // ---------------------------------------------------------------- call arguments

  function Pow2(n: nat): (p: nat)
    ensures p >= 1
  {
    if n == 0 then 1 else 2 * Pow2(n - 1)
  }

  // The value is mantissa * 2^up / 2^down, within the bounds of a float64.
  ghost predicate IsFloat(x: real, mantissa: int, up: nat, down: nat) {
    && -0x20_0000_0000_0000 < mantissa < 0x20_0000_0000_0000 && up <= 971 && down <= 1074
    && x * Pow2(down) as real == (mantissa * Pow2(up)) as real
  }

  ghost predicate IsFloat64(x: real) {
    exists mantissa, up, down :: IsFloat(x, mantissa, up, down)
  }

  lemma ZeroIsFloat64()
    ensures IsFloat64(0.0)
  {
    assert IsFloat(0.0, 0, 0, 0);
  }

  // The finite numbers of a float64, which is what JSON numbers are read as.
  type Float64 = x: real | IsFloat64(x) ghost witness (ZeroIsFloat64(); 0.0)

  datatype Json =
    | Str(text: string)
    | Num(value: Float64)
    | Arr(items: seq<Json>)
    | Obj(fields: map<string, Json>)
    | Literal(token: string)

  type Fields = map<string, Json>

  // JSON coding, path cleaning and shell-command normalisation belong to the libraries underneath.
  datatype ArgCodec = ArgCodec(
    decode: string -> Option<Fields>,
    encode: Fields -> string,
    clean: string -> string,
    normalize: string -> string)
  {
    ghost predicate Lawful() {
      && (forall m :: decode(encode(m)) == Some(m))
      && (forall p :: clean(p) != "" && clean(clean(p)) == clean(p))
    }

    function StringField(args: string, key: string): Option<string> {
      match decode(args)
      case None => None
      case Some(m) =>
        if key in m && m[key].Str? && m[key].text != "" then Some(m[key].text) else None
    }

    function Path(args: string): Option<string> {
      match StringField(args, "path")
      case None => None
      case Some(p) => Some(clean(p))
    }

    function ReadOffset(args: string): int {
      match decode(args)
      case None => 1
      case Some(m) =>
        if "offset" in m && m["offset"].Num? && m["offset"].value > 0.0 then m["offset"].value.Floor else 1
    }

    function ReadKey(call: ToolCall): Option<string> {
      if call.name != "read" then None
      else match Path(call.args)
        case None => None
        case Some(p) => Some(p + " offset=" + Itoa(ReadOffset(call.args)))
    }

    function ReadPath(call: ToolCall): Option<string> {
      if call.name != "read" then None else Path(call.args)
    }

    function ShellKey(call: ToolCall): Option<string> {
      if call.name != "shell" then None
      else match StringField(call.args, "command")
        case None => None
        case Some(s) => Some(normalize(s))
    }

    function FoldedWrite(path: string): string {
      encode(map["path" := Str(path), "content" := Str(WRITE_MARKER)])
    }

    function FoldedShell(): string {
      encode(map["command" := Str(SHELL_MARKER)])
    }
  }

  const WRITE_MARKER := "\U{2026}[prior write/edit content superseded by a later successful write to the same file]"
  const SHELL_MARKER := "\U{2026}[prior identical shell command superseded by a later execution]"
  const SHELL_RESULT_MARKER := "\U{2026}[prior identical shell command result superseded by a later execution]"

  // The read key keeps paths and offsets apart, although paths may contain the separator themselves.
  lemma ReadKeyInjective(p: string, m: int, q: string, n: int)
    requires p + " offset=" + Itoa(m) == q + " offset=" + Itoa(n)
    ensures p == q && m == n
  {
    assert p + " offset=" == (p + " offset") + ['='] && q + " offset=" == (q + " offset") + ['='];
    SplitAtLast(p + " offset", Itoa(m), q + " offset", Itoa(n), '=');
    ItoaInjective(m, n);
    assert p == (p + " offset")[..|p|] && q == (q + " offset")[..|q|];
  }

  // An offset is the floor of the number given, which counts from 1: missing and non-positive ones
  // count as 1, and so does an offset that is no number.
  lemma OffsetOf(codec: ArgCodec, args: string, m: Fields)
    requires codec.decode(args) == Some(m)
    ensures "offset" in m && m["offset"].Num? && m["offset"].value > 0.0 ==>
              codec.ReadOffset(args) as real <= m["offset"].value < codec.ReadOffset(args) as real + 1.0
    ensures "offset" !in m || !m["offset"].Num? || m["offset"].value <= 0.0 ==> codec.ReadOffset(args) == 1
  {
  }

  // Which calls have keys: reads with a path, and shell calls with a command.
  lemma KeysOf(codec: ArgCodec, call: ToolCall, m: Fields)
    requires codec.decode(call.args) == Some(m)
    ensures codec.ReadKey(call)
            == if call.name == "read" && "path" in m && m["path"].Str? && m["path"].text != ""
               then Some(codec.clean(m["path"].text) + " offset=" + Itoa(codec.ReadOffset(call.args))) else None
    ensures codec.ReadPath(call)
            == if call.name == "read" && "path" in m && m["path"].Str? && m["path"].text != ""
               then Some(codec.clean(m["path"].text)) else None
    ensures codec.ShellKey(call)
            == if call.name == "shell" && "command" in m && m["command"].Str? && m["command"].text != ""
               then Some(codec.normalize(m["command"].text)) else None
  {
  }

  // A folded write keeps its path and says that its content is gone; a folded command says that it was
  // run again.
  lemma FoldedArgs(codec: ArgCodec, path: string)
    requires codec.Lawful()
    ensures codec.decode(codec.FoldedWrite(path))
            == Some(map["path" := Str(path), "content" := Str(WRITE_MARKER)])
    ensures codec.decode(codec.FoldedShell()) == Some(map["command" := Str(SHELL_MARKER)])
  {
  }

  // ---------------------------------------------------------------- the retention window

  function AssistantCount(msgs: seq<Message>): nat {
    if msgs == [] then 0 else (if msgs[0].role == RoleAssistant then 1 else 0) + AssistantCount(msgs[1..])
  }

  // Outside the window: keepN assistants follow.
  predicate Outside(msgs: seq<Message>, keepN: int, i: nat)
    requires i < |msgs|
  {
    AssistantCount(msgs[i+1..]) >= keepN
  }

  // The assistant messages from i on.
  ghost function AssistantsFrom(msgs: seq<Message>, i: nat): set<nat> {
    set k: nat | i <= k < |msgs| && msgs[k].role == RoleAssistant
  }

  // Outside the window are the messages that at least keepN assistant messages follow.
  lemma OutsideIs(msgs: seq<Message>, keepN: int, i: nat)
    requires i < |msgs|
    ensures Outside(msgs, keepN, i) <==> |AssistantsFrom(msgs, i + 1)| >= keepN
  {
    AssistantsAfter(msgs, i + 1);
  }

  lemma {:induction false} AssistantsAfter(msgs: seq<Message>, i: nat)
    requires i <= |msgs|
    ensures AssistantCount(msgs[i..]) == |AssistantsFrom(msgs, i)|
    decreases |msgs| - i
  {
    if i == |msgs| {
      assert msgs[i..] == [] && AssistantsFrom(msgs, i) == {};
    } else {
      AssistantsAfter(msgs, i + 1);
      CountSuffix(msgs, i);
      hide AssistantCount;
      var all, rest := AssistantsFrom(msgs, i), AssistantsFrom(msgs, i + 1);
      assert i !in rest;
      assert all == if msgs[i].role == RoleAssistant then rest + {i} else rest;
    }
  }

  lemma {:induction false} CountSuffix(msgs: seq<Message>, i: nat)
    requires i <= |msgs|
    ensures AssistantCount(msgs[i..]) <= AssistantCount(msgs)
    ensures i < |msgs| ==>
      AssistantCount(msgs[i..]) == (if msgs[i].role == RoleAssistant then 1 else 0) + AssistantCount(msgs[i+1..])
    decreases i
  {
    if i < |msgs| {
      assert msgs[i..][1..] == msgs[i+1..];
    }
    if i > 0 {
      CountSuffix(msgs, i - 1);
      assert msgs[i-1..][1..] == msgs[i..];
    } else {
      assert msgs[0..] == msgs;
    }
  }

  lemma {:induction false} CountMonotone(msgs: seq<Message>, i: nat, j: nat)
    requires i <= j <= |msgs|
    ensures AssistantCount(msgs[j..]) <= AssistantCount(msgs[i..])
  {
    CountSuffix(msgs[i..], j - i);
    assert msgs[i..][j-i..] == msgs[j..];
  }

  method WindowStartOf(msgs: seq<Message>, keepN: int) returns (start: nat)
    ensures start <= |msgs|
    ensures forall i :: 0 <= i < |msgs| ==> (i < start <==> Outside(msgs, keepN, i))
  {
    if keepN <= 0 {
      return |msgs|;
    }
    var seen := 0;
    var i := |msgs|;
    while i > 0
      invariant 0 <= i <= |msgs|
      invariant seen == AssistantCount(msgs[i..]) < keepN
    {
      i := i - 1;
      CountSuffix(msgs, i);
      if msgs[i].role == RoleAssistant {
        seen := seen + 1;
        if seen == keepN {
          forall k | 0 <= k < |msgs| ensures k < i <==> Outside(msgs, keepN, k) {
            if k < i { CountMonotone(msgs, k + 1, i); } else { CountMonotone(msgs, i + 1, k + 1); }
          }
          return i;
        }
      }
    }
    forall k | 0 <= k < |msgs| ensures !Outside(msgs, keepN, k) {
      CountMonotone(msgs, 0, k + 1);
    }
    start := 0;
  }

  // ---------------------------------------------------------------- P1: stale reasoning

  function WithoutReasoning(m: Message): Message {
    m.(reasoning := "", reasoningState := "")
  }

  ghost predicate IsStripReasoning(msgs: seq<Message>, keepN: int, out: seq<Message>) {
    && |out| == |msgs|
    && forall i :: 0 <= i < |msgs| ==>
         out[i] == if msgs[i].role == RoleAssistant && Outside(msgs, Max(keepN, 0), i)
                   then msgs[i].(reasoning := "", reasoningState := "") else msgs[i]
  }

  method StripStaleReasoning(msgs: seq<Message>, keepN': int) returns (out: seq<Message>)
    ensures IsStripReasoning(msgs, keepN', out)
  {
    var keepN := if keepN' < 0 then 0 else keepN';
    var nAssistant, hasReasoning := 0, false;
    for i := 0 to |msgs|
      invariant nAssistant + AssistantCount(msgs[i..]) == AssistantCount(msgs)
      invariant !hasReasoning ==> forall k :: 0 <= k < i && msgs[k].role == RoleAssistant ==>
                  msgs[k].reasoning == "" && msgs[k].reasoningState == ""
    {
      CountSuffix(msgs, i);
      if msgs[i].role == RoleAssistant {
        nAssistant := nAssistant + 1;
        hasReasoning := hasReasoning || msgs[i].reasoning != "" || msgs[i].reasoningState != "";
      }
    }
    if !hasReasoning || nAssistant <= keepN {
      forall i | 0 <= i < |msgs| && msgs[i].role == RoleAssistant && Outside(msgs, keepN, i)
        ensures msgs[i] == WithoutReasoning(msgs[i])
      {
        CountSuffix(msgs, i);
      }
      return msgs;
    }
    out := msgs;
    var kept := 0;
    var i := |msgs|;
    while i > 0
      invariant 0 <= i <= |msgs| == |out|
      invariant kept == Min(keepN, AssistantCount(msgs[i..]))
      invariant forall k :: 0 <= k < i ==> out[k] == msgs[k]
      invariant forall k :: i <= k < |msgs| ==>
        out[k] == if msgs[k].role == RoleAssistant && Outside(msgs, keepN, k) then WithoutReasoning(msgs[k])
            else msgs[k]
    {
      i := i - 1;
      CountSuffix(msgs, i);
      if out[i].role == RoleAssistant {
        if kept < keepN {
          kept := kept + 1;
        } else {
          out := out[i := WithoutReasoning(out[i])];
        }
      }
    }
  }

  // ---------------------------------------------------------------- P7: oversized kept reasoning

  const REASONING_MARKER := "\U{2026}[reasoning middle omitted]"

  function CutReasoning(m: Message, threshold: int): Message {
    if |m.reasoning| > threshold then m.(reasoning := TruncateHeadTail(m.reasoning, threshold, REASONING_MARKER)) else m
  }

  // A round as a request shows it while it is the last one: P7 may cut its reasoning, all else stays.
  function CutRound(round: seq<Message>, threshold: int): (r: seq<Message>)
    ensures |r| == |round|
  {
    seq(|round|, i requires 0 <= i < |round| =>
      if threshold > 0 && round[i].role == RoleAssistant then CutReasoning(round[i], threshold) else round[i])
  }

  ghost predicate IsTruncateReasoning(msgs: seq<Message>, keepN: int, threshold: int, out: seq<Message>) {
    && |out| == |msgs|
    && forall i :: 0 <= i < |msgs| ==>
        (if threshold > 0 then CutInside(msgs, keepN, threshold, i, out[i]) else out[i] == msgs[i])
  }

  ghost predicate CutInside(msgs: seq<Message>, keepN: int, threshold: int, i: nat, m: Message)
    requires i < |msgs|
  {
    m == if msgs[i].role == RoleAssistant && !Outside(msgs, keepN, i) then CutReasoning(msgs[i], threshold) else msgs[i]
  }

  method TruncateKeptReasoning(msgs: seq<Message>, keepN: int, threshold: int) returns (out: seq<Message>)
    ensures IsTruncateReasoning(msgs, keepN, threshold, out)
  {
    if threshold <= 0 || keepN <= 0 {
      return msgs;
    }
    out := msgs;
    var kept := 0;
    var i := |msgs|;
    while i > 0
      invariant 0 <= i <= |msgs| == |out|
      invariant kept == AssistantCount(msgs[i..]) <= keepN
      invariant forall k :: 0 <= k < i ==> out[k] == msgs[k]
      invariant forall k :: i <= k < |msgs| ==> CutInside(msgs, keepN, threshold, k, out[k])
    {
      i := i - 1;
      CountSuffix(msgs, i);
      if out[i].role == RoleAssistant {
        if kept >= keepN {
          forall k | 0 <= k <= i ensures CutInside(msgs, keepN, threshold, k, out[k]) {
            CountMonotone(msgs, k + 1, i + 1);
          }
          return;
        }
        kept := kept + 1;
        if |out[i].reasoning| > threshold {
          out := out[i := out[i].(reasoning := TruncateHeadTail(out[i].reasoning, threshold, REASONING_MARKER))];
        }
      }
    }
  }

  // ---------------------------------------------------------------- P4: large write arguments

  const ARGS_COMPRESS_THRESHOLD := 600
  const ARGS_KEEP_CHARS := 200
  const ARGS_MARKER := "\U{2026}[args omitted]"

  predicate IsLargeArgTool(name: string) {
    name == "write" || name == "edit"
  }

  predicate Large(v: Json) {
    v.Str? && |v.text| > ARGS_COMPRESS_THRESHOLD
  }

  predicate HasLarge(m: Fields, keys: seq<string>) {
    exists i :: 0 <= i < |keys| && keys[i] in m && Large(m[keys[i]])
  }

  const TOP_KEYS := ["content", "old_string", "new_string"]
  const EDIT_KEYS := ["old_string", "new_string"]

  predicate HasCompressibleArg(codec: ArgCodec, args: string) {
    match codec.decode(args)
    case None => false
    case Some(m) =>
      || HasLarge(m, TOP_KEYS)
      || ("edits" in m && m["edits"].Arr?
          && exists i :: 0 <= i < |m["edits"].items| && m["edits"].items[i].Obj?
              && HasLarge(m["edits"].items[i].fields, EDIT_KEYS))
  }

  function CompressField(v: Json): Json {
    if Large(v) then Str(Truncate(v.text, ARGS_KEEP_CHARS, ARGS_MARKER)) else v
  }

  function CompressFields(m: Fields, keys: seq<string>): (r: Fields)
    ensures r.Keys == m.Keys
    ensures forall k :: k in m ==> r[k] == if k in keys then CompressField(m[k]) else m[k]
  {
    if keys == [] then m
    else
      var k := keys[0];
      CompressFieldTwice(if k in m then m[k] else Literal(""));
      CompressFields(if k in m then m[k := CompressField(m[k])] else m, keys[1..])
  }

  lemma CompressFieldTwice(v: Json)
    ensures CompressField(CompressField(v)) == CompressField(v)
    ensures CompressField(v) != v <==> Large(v)
  {
  }

  function CompressItem(e: Json): Json {
    if e.Obj? then Obj(CompressFields(e.fields, EDIT_KEYS)) else e
  }

  function CompressObject(m: Fields): Fields {
    var top := CompressFields(m, TOP_KEYS);
    if "edits" in m && m["edits"].Arr? then
      top["edits" := Arr(seq(|m["edits"].items|,
          i requires 0 <= i < |m["edits"].items| => CompressItem(m["edits"].items[i])))]
    else top
  }

  function CompressToolArgs(codec: ArgCodec, args: string): string {
    match codec.decode(args)
    case None => args
    case Some(m) => if CompressObject(m) == m then args else codec.encode(CompressObject(m))
  }

  // What compressing does to a text: more than 600 characters become the first 200 and the marker.
  ghost predicate Cut600(v: Json, r: Json) {
    r == if v.Str? && |v.text| > 600 then Str(v.text[..200] + "\U{2026}[args omitted]") else v
  }

  ghost predicate ItemCut(v: Json, r: Json) {
    if v.Obj? then
      && r.Obj? && r.fields.Keys == v.fields.Keys
      && forall k :: k in v.fields ==>
           if k == "old_string" || k == "new_string" then Cut600(v.fields[k], r.fields[k])
           else r.fields[k] == v.fields[k]
    else r == v
  }

  // The fields of a write or an edit that are cut: its texts, and those of each of its edits.
  ghost predicate FieldsCut(m: Fields, r: Fields) {
    && r.Keys == m.Keys
    && forall k :: k in m ==>
         if k == "content" || k == "old_string" || k == "new_string" then Cut600(m[k], r[k])
         else if k == "edits" && m[k].Arr? then
           && r[k].Arr? && |r[k].items| == |m[k].items|
           && forall i :: 0 <= i < |m[k].items| ==> ItemCut(m[k].items[i], r[k].items[i])
         else r[k] == m[k]
  }

  lemma CompressesTo(codec: ArgCodec, args: string, m: Fields)
    requires codec.Lawful() && codec.decode(args) == Some(m)
    ensures codec.decode(CompressToolArgs(codec, args)).Some?
    ensures FieldsCut(m, codec.decode(CompressToolArgs(codec, args)).value)
  {
    hide FieldsCut, CompressObject;
    assert codec.decode(codec.encode(CompressObject(m))) == Some(CompressObject(m));
    ObjectCut(m);
  }

  lemma ObjectCut(m: Fields)
    ensures FieldsCut(m, CompressObject(m))
  {
    hide ItemCut, CompressItem;
    var r := CompressObject(m);
    assert r.Keys == m.Keys;
    if "edits" in m && m["edits"].Arr? {
      forall i | 0 <= i < |m["edits"].items| ensures ItemCut(m["edits"].items[i], r["edits"].items[i]) {
        ItemIsCut(m["edits"].items[i]);
      }
    }
  }

  lemma ItemIsCut(v: Json)
    ensures ItemCut(v, CompressItem(v))
  {
  }

  lemma CompressFieldsChanges(m: Fields, keys: seq<string>)
    ensures CompressFields(m, keys) != m <==> HasLarge(m, keys)
  {
    var r := CompressFields(m, keys);
    if HasLarge(m, keys) {
      var i :| 0 <= i < |keys| && keys[i] in m && Large(m[keys[i]]);
      CompressFieldTwice(m[keys[i]]);
      assert r[keys[i]] != m[keys[i]];
    } else {
      forall k | k in m ensures r[k] == m[k] {
        if k in keys {
          var i :| 0 <= i < |keys| && keys[i] == k;
          CompressFieldTwice(m[k]);
        }
      }
      assert r == m;
    }
  }

  // The pre-scan and the compressor agree: arguments change exactly when the scan finds a large field.
  lemma CompressChangesIffLarge(codec: ArgCodec, args: string)
    requires codec.decode(args).Some?
    ensures CompressObject(codec.decode(args).value) != codec.decode(args).value <==> HasCompressibleArg(codec, args)
  {
    var m := codec.decode(args).value;
    CompressFieldsChanges(m, TOP_KEYS);
    if "edits" in m && m["edits"].Arr? {
      EditsChange(m);
    }
  }

  lemma EditsChange(m: Fields)
    requires "edits" in m && m["edits"].Arr?
    ensures CompressObject(m)["edits"].Arr?
    ensures CompressObject(m) != m <==> CompressFields(m, TOP_KEYS) != m || CompressObject(m)["edits"] != m["edits"]
    ensures CompressObject(m)["edits"] != m["edits"]
            <==> exists i ::
                   && 0 <= i < |m["edits"].items| && m["edits"].items[i].Obj?
                   && HasLarge(m["edits"].items[i].fields, EDIT_KEYS)
  {
    var top, r := CompressFields(m, TOP_KEYS), CompressObject(m);
    var items, items' := m["edits"].items, r["edits"].items;
    forall i | 0 <= i < |items|
      ensures items'[i] != items[i] <==> items[i].Obj? && HasLarge(items[i].fields, EDIT_KEYS)
    {
      if items[i].Obj? { CompressFieldsChanges(items[i].fields, EDIT_KEYS); }
    }
    assert items' == items <==> forall i :: 0 <= i < |items| ==> items'[i] == items[i];
    assert top["edits"] == m["edits"];
    assert r == top["edits" := Arr(items')];
    if r == m {
      assert forall k | k in m && k != "edits" :: top[k] == r[k];
      assert top == m;
    }
    if top == m && items' == items {
      assert r == m;
    }
  }

  lemma CompressFieldsTwice(m: Fields, keys: seq<string>)
    ensures CompressFields(CompressFields(m, keys), keys) == CompressFields(m, keys)
  {
    var r := CompressFields(m, keys);
    var rr := CompressFields(r, keys);
    forall k | k in m ensures rr[k] == r[k] {
      CompressFieldTwice(m[k]);
    }
    assert rr == r;
  }

  // Compressing keeps the path and every other field, is idempotent, and leaves no large field behind.
  lemma CompressKeepsPath(codec: ArgCodec, args: string)
    requires codec.Lawful()
    ensures codec.Path(CompressToolArgs(codec, args)) == codec.Path(args)
    ensures CompressToolArgs(codec, CompressToolArgs(codec, args)) == CompressToolArgs(codec, args)
    ensures !HasCompressibleArg(codec, CompressToolArgs(codec, args))
  {
    if codec.decode(args).Some? {
      var m := codec.decode(args).value;
      CompressChangesIffLarge(codec, args);
      if CompressObject(m) != m {
        var r := CompressObject(m);
        assert codec.decode(codec.encode(r)) == Some(r);
        assert ("path" in r) == ("path" in m) && ("path" in m ==> r["path"] == m["path"]);
        assert CompressObject(r) == r by { CompressObjectTwice(m); }
        CompressChangesIffLarge(codec, codec.encode(r));
      }
    }
  }

  lemma CompressObjectTwice(m: Fields)
    ensures CompressObject(CompressObject(m)) == CompressObject(m)
  {
    var r := CompressObject(m);
    var rr := CompressObject(r);
    if "edits" in m && m["edits"].Arr? {
      var items := m["edits"].items;
      forall i | 0 <= i < |items| ensures CompressItem(CompressItem(items[i])) == CompressItem(items[i]) {
        if items[i].Obj? { CompressFieldsTwice(items[i].fields, EDIT_KEYS); }
      }
      assert rr["edits"].items == r["edits"].items;
    }
    assert rr.Keys == r.Keys == m.Keys;
    forall k | k in m ensures rr[k] == r[k] {
      if k != "edits" || !m["edits"].Arr? {
        CompressFieldTwice(m[k]);
        assert r[k] == if k in TOP_KEYS then CompressField(m[k]) else m[k];
      }
    }
    assert rr == r;
  }

  function CompressCall(codec: ArgCodec, call: ToolCall): ToolCall {
    if IsLargeArgTool(call.name) then call.(args := CompressToolArgs(codec, call.args)) else call
  }

  function CompressCalls(codec: ArgCodec, calls: seq<ToolCall>): (r: seq<ToolCall>)
    ensures |r| == |calls|
    ensures forall j :: 0 <= j < |calls| ==> r[j] == CompressCall(codec, calls[j])
    ensures forall j :: 0 <= j < |calls| ==>
              r[j] == if calls[j].name == "write" || calls[j].name == "edit"
                      then calls[j].(args := CompressToolArgs(codec, calls[j].args)) else calls[j]
  {
    seq(|calls|, j requires 0 <= j < |calls| => CompressCall(codec, calls[j]))
  }

  ghost predicate IsStripArgs(codec: ArgCodec, msgs: seq<Message>, keepN: int, out: seq<Message>) {
    && |out| == |msgs|
    && forall i :: 0 <= i < |msgs| ==>
         out[i] == if msgs[i].role == RoleAssistant && Outside(msgs, Max(keepN, 0), i)
                   then msgs[i].(toolCalls := CompressCalls(codec, msgs[i].toolCalls)) else msgs[i]
  }

  method HasCompressibleCall(codec: ArgCodec, calls: seq<ToolCall>) returns (found: bool)
    ensures !found ==> CompressCalls(codec, calls) == calls
  {
    for j := 0 to |calls|
      invariant forall k :: 0 <= k < j ==> CompressCall(codec, calls[k]) == calls[k]
    {
      if codec.decode(calls[j].args).Some? {
        CompressChangesIffLarge(codec, calls[j].args);
      }
      if IsLargeArgTool(calls[j].name) && HasCompressibleArg(codec, calls[j].args) {
        return true;
      }
    }
    found := false;
  }

  method CompressAssistant(codec: ArgCodec, m: Message) returns (m': Message)
    ensures m' == m.(toolCalls := CompressCalls(codec, m.toolCalls))
  {
    var compressible := HasCompressibleCall(codec, m.toolCalls);
    if !compressible {
      return m;
    }
    var calls := m.toolCalls;
    for j := 0 to |calls|
      invariant |calls| == |m.toolCalls|
      invariant forall k :: 0 <= k < j ==> calls[k] == CompressCall(codec, m.toolCalls[k])
      invariant forall k :: j <= k < |calls| ==> calls[k] == m.toolCalls[k]
    {
      if IsLargeArgTool(calls[j].name) {
        calls := calls[j := calls[j].(args := CompressToolArgs(codec, calls[j].args))];
      }
    }
    assert calls == CompressCalls(codec, m.toolCalls);
    m' := m.(toolCalls := calls);
  }

  method StripStaleToolArgs(codec: ArgCodec, msgs: seq<Message>, keepN': int) returns (out: seq<Message>)
    ensures IsStripArgs(codec, msgs, keepN', out)
  {
    var keepN := if keepN' < 0 then 0 else keepN';
    out := msgs;
    var kept := 0;
    var i := |msgs|;
    while i > 0
      invariant 0 <= i <= |msgs| == |out|
      invariant kept == Min(keepN, AssistantCount(msgs[i..]))
      invariant forall k :: 0 <= k < i ==> out[k] == msgs[k]
      invariant forall k :: i <= k < |msgs| ==>
        out[k] == if msgs[k].role == RoleAssistant && Outside(msgs, keepN, k)
                  then msgs[k].(toolCalls := CompressCalls(codec, msgs[k].toolCalls)) else msgs[k]
    {
      i := i - 1;
      CountSuffix(msgs, i);
      if out[i].role == RoleAssistant {
        if kept < keepN {
          kept := kept + 1;
        } else {
          var m' := CompressAssistant(codec, out[i]);
          out := out[i := m'];
        }
      }
    }
  }
}
