/** The laws asked of the JSON codecs can be met: one way to write arguments, and session records, that
    reads back as written.  Values are written in bits that show where they end. */
module Codes {
  import opened Transcript
  import opened Passes
  import Session

  type Bits = seq<bool>

  // ---------------------------------------------------------------- numbers and texts

  // Each writer puts its value in front of what follows it.
  function PutNat(n: nat, k: Bits): Bits {
    if n == 0 then [false] + k else [true] + PutNat(n - 1, k)
  }

  lemma {:induction false} NatOnce(m: nat, s: Bits, n: nat, t: Bits)
    requires PutNat(m, s) == PutNat(n, t)
    ensures m == n && s == t
    decreases m
  {
    if m == 0 || n == 0 {
      assert PutNat(m, s)[0] == (m > 0) && PutNat(n, t)[0] == (n > 0);
      assert PutNat(m, s)[1..] == s && PutNat(n, t)[1..] == t;
    } else {
      assert PutNat(m, s)[1..] == PutNat(m - 1, s) && PutNat(n, t)[1..] == PutNat(n - 1, t);
      NatOnce(m - 1, s, n - 1, t);
    }
  }

  function PutInt(n: int, k: Bits): Bits {
    [n >= 0] + PutNat(if n >= 0 then n else -n, k)
  }

  lemma IntOnce(m: int, s: Bits, n: int, t: Bits)
    requires PutInt(m, s) == PutInt(n, t)
    ensures m == n && s == t
  {
    assert PutInt(m, s)[0] == (m >= 0) && PutInt(n, t)[0] == (n >= 0);
    assert PutInt(m, s)[1..] == PutInt(n, t)[1..];
    NatOnce(if m >= 0 then m else -m, s, if n >= 0 then n else -n, t);
  }

  function PutString(x: string, k: Bits): Bits {
    if x == "" then [false] + k else [true] + PutNat(x[0] as int, PutString(x[1..], k))
  }

  lemma {:induction false} StringOnce(x: string, s: Bits, y: string, t: Bits)
    requires PutString(x, s) == PutString(y, t)
    ensures x == y && s == t
    decreases |x|
  {
    assert PutString(x, s)[0] == (x != "") && PutString(y, t)[0] == (y != "");
    assert PutString(x, s)[1..] == PutString(y, t)[1..];
    if x == "" {
      assert PutString(x, s)[1..] == s && PutString(y, t)[1..] == t;
    } else {
      assert PutString(x, s)[1..] == PutNat(x[0] as int, PutString(x[1..], s));
      assert PutString(y, t)[1..] == PutNat(y[0] as int, PutString(y[1..], t));
      NatOnce(x[0] as int, PutString(x[1..], s), y[0] as int, PutString(y[1..], t));
      StringOnce(x[1..], s, y[1..], t);
      assert x == [x[0]] + x[1..] && y == [y[0]] + y[1..];
    }
  }

  ghost function PutFloat(x: Float64, k: Bits): Bits {
    assert IsFloat64(x);
    var mantissa, up, down :| IsFloat(x, mantissa, up, down);
    PutInt(mantissa, PutNat(up, PutNat(down, k)))
  }

  lemma FloatParts(x: Float64, k: Bits) returns (m: int, up: nat, down: nat)
    ensures IsFloat(x, m, up, down) && PutFloat(x, k) == PutInt(m, PutNat(up, PutNat(down, k)))
  {
    hide IsFloat, PutInt, PutNat;
    assert IsFloat64(x);
    m, up, down :| IsFloat(x, m, up, down) && PutFloat(x, k) == PutInt(m, PutNat(up, PutNat(down, k)));
  }

  lemma FloatOnce(x: Float64, s: Bits, y: Float64, t: Bits)
    requires PutFloat(x, s) == PutFloat(y, t)
    ensures x == y && s == t
  {
    hide PutFloat, PutInt, PutNat, IsFloat, IsFloat64;
    var m, up, down := FloatParts(x, s);
    var m', up', down' := FloatParts(y, t);
    IntOnce(m, PutNat(up, PutNat(down, s)), m', PutNat(up', PutNat(down', t)));
    NatOnce(up, PutNat(down, s), up', PutNat(down', t));
    NatOnce(down, s, down', t);
    FloatUnique(x, y, m, up, down);
  }

  lemma FloatUnique(x: Float64, y: Float64, m: int, up: nat, down: nat)
    requires IsFloat(x, m, up, down) && IsFloat(y, m, up, down)
    ensures x == y
  {
    hide IsFloat64;
    Cancel(x, y, Pow2(down) as real);
  }

  lemma Cancel(x: real, y: real, scale: real)
    requires scale >= 1.0 && x * scale == y * scale
    ensures x == y
  {
    assert (x - y) * scale == 0.0;
  }

  // ---------------------------------------------------------------- JSON

  ghost function PutJson(j: Json, k: Bits): Bits
    decreases j
  {
    match j
    case Str(text) => PutNat(0, PutString(text, k))
    case Num(value) => PutNat(1, PutFloat(value, k))
    case Arr(items) => PutNat(2, PutItems(j, items, k))
    case Obj(fields) => PutNat(3, PutFields(j, fields, k))
    case Literal(token) => PutNat(4, PutString(token, k))
  }

  ghost function PutItems(parent: Json, items: seq<Json>, k: Bits): Bits
    requires forall i :: 0 <= i < |items| ==> items[i] < parent
    decreases parent, |items|
  {
    if items == [] then [false] + k else [true] + PutJson(items[0], PutItems(parent, items[1..], k))
  }

  ghost function PutFields(parent: Json, m: Fields, k: Bits): Bits
    requires forall key :: key in m ==> m[key] < parent
    decreases parent, |m|
  {
    if m == map[] then [false] + k
    else
      var key :| key in m;
      [true] + PutString(key, PutJson(m[key], PutFields(parent, m - {key}, k)))
  }

  lemma {:induction false} JsonOnce(i: Json, s: Bits, j: Json, t: Bits)
    requires PutJson(i, s) == PutJson(j, t)
    ensures i == j && s == t
    decreases i
  {
    var x, y := Body(i, s), Body(j, t);
    hide PutNat;
    NatOnce(Kind(i), x, Kind(j), y);
    match i
    case Str(text) => StringOnce(text, s, j.text, t);
    case Num(value) => FloatOnce(value, s, j.value, t);
    case Arr(items) => ItemsOnce(i, items, s, j, j.items, t);
    case Obj(fields) => FieldsOnce(i, fields, s, j, j.fields, t);
    case Literal(token) => StringOnce(token, s, j.token, t);
  }

  function Kind(j: Json): nat {
    match j
    case Str(_) => 0
    case Num(_) => 1
    case Arr(_) => 2
    case Obj(_) => 3
    case Literal(_) => 4
  }

  ghost function Body(j: Json, k: Bits): (b: Bits)
    ensures PutJson(j, k) == PutNat(Kind(j), b)
  {
    match j
    case Str(text) => PutString(text, k)
    case Num(value) => PutFloat(value, k)
    case Arr(items) => PutItems(j, items, k)
    case Obj(fields) => PutFields(j, fields, k)
    case Literal(token) => PutString(token, k)
  }

  lemma {:induction false} ItemsOnce(p: Json, a: seq<Json>, s: Bits, q: Json, b: seq<Json>, t: Bits)
    requires forall i :: 0 <= i < |a| ==> a[i] < p
    requires forall i :: 0 <= i < |b| ==> b[i] < q
    requires PutItems(p, a, s) == PutItems(q, b, t)
    ensures a == b && s == t
    decreases p, |a|
  {
    assert PutItems(p, a, s)[0] == (a != []) && PutItems(q, b, t)[0] == (b != []);
    assert PutItems(p, a, s)[1..] == PutItems(q, b, t)[1..];
    if a == [] {
      assert PutItems(p, a, s)[1..] == s && PutItems(q, b, t)[1..] == t;
    } else {
      var x, y := PutItems(p, a[1..], s), PutItems(q, b[1..], t);
      assert PutItems(p, a, s)[1..] == PutJson(a[0], x) && PutItems(q, b, t)[1..] == PutJson(b[0], y);
      JsonOnce(a[0], x, b[0], y);
      ItemsOnce(p, a[1..], s, q, b[1..], t);
      assert a == [a[0]] + a[1..] && b == [b[0]] + b[1..];
    }
  }

  // The fields come in some order, each with its name; whatever the order, they make up the object.
  lemma FieldsParts(p: Json, m: Fields, k: Bits) returns (key: string)
    requires forall x :: x in m ==> m[x] < p
    requires m != map[]
    ensures key in m && PutFields(p, m, k) == [true] + PutString(key, PutJson(m[key], PutFields(p, m - {key}, k)))
  {
    hide PutString, PutJson;
    assert m.Keys != {};
    key :| key in m && PutFields(p, m, k) == [true] + PutString(key, PutJson(m[key], PutFields(p, m - {key}, k)));
  }

  lemma {:induction false} FieldsOnce(p: Json, a: Fields, s: Bits, q: Json, b: Fields, t: Bits)
    requires forall x :: x in a ==> a[x] < p
    requires forall x :: x in b ==> b[x] < q
    requires PutFields(p, a, s) == PutFields(q, b, t)
    ensures a == b && s == t
    decreases p, |a|
  {
    FieldsFirst(p, a, s);
    FieldsFirst(q, b, t);
    hide PutFields, PutString, PutJson;
    if a != map[] {
      var x := FieldsParts(p, a, s);
      var y := FieldsParts(q, b, t);
      var x', y' := PutFields(p, a - {x}, s), PutFields(q, b - {y}, t);
      Behind(PutString(x, PutJson(a[x], x')), PutString(y, PutJson(b[y], y')));
      StringOnce(x, PutJson(a[x], x'), y, PutJson(b[y], y'));
      JsonOnce(a[x], x', b[y], y');
      FieldsOnce(p, a - {x}, s, q, b - {y}, t);
      PutBack(a, x);
      PutBack(b, y);
    }
  }

  lemma PutBack(m: Fields, key: string)
    requires key in m
    ensures m == (m - {key})[key := m[key]]
  {
  }

  lemma Behind(a: Bits, b: Bits)
    requires [true] + a == [true] + b
    ensures a == b
  {
    assert ([true] + a)[1..] == a && ([true] + b)[1..] == b;
  }

  lemma FieldsFirst(p: Json, m: Fields, k: Bits)
    requires forall x :: x in m ==> m[x] < p
    ensures PutFields(p, m, k) != [] && PutFields(p, m, k)[0] == (m != map[])
    ensures m == map[] ==> PutFields(p, m, k)[1..] == k
  {
  }

  // ---------------------------------------------------------------- as a line of text

  // The bits as digits, and a bracket that closes them.
  function Line(b: Bits): string {
    seq(|b|, i requires 0 <= i < |b| => if b[i] then '1' else '0') + "}"
  }

  lemma LineOnce(a: Bits, b: Bits)
    requires Line(a) == Line(b)
    ensures a == b
  {
    assert |Line(a)| == |a| + 1 && |Line(b)| == |b| + 1;
    forall i | 0 <= i < |a| ensures a[i] == b[i] {
      assert Line(a)[i] == Line(b)[i];
    }
  }

  lemma LinePart(a: Bits, p: string, b: Bits)
    requires p <= Line(a) && p == Line(b)
    ensures p == Line(a)
  {
    assert p[|b|] == '}';
    assert Line(a)[|b|] == p[|b|];
  }

  // ---------------------------------------------------------------- arguments

  ghost predicate WritesFields(m: Fields, s: string) {
    s == Line(PutJson(Obj(m), []))
  }

  ghost function ReadFields(s: string): Option<Fields> {
    if exists m: Fields :: WritesFields(m, s) then (var m: Fields :| WritesFields(m, s); Some(m)) else None
  }

  lemma ReadsBackFields(m: Fields)
    ensures ReadFields(Line(PutJson(Obj(m), []))) == Some(m)
  {
    var s := Line(PutJson(Obj(m), []));
    assert WritesFields(m, s);
    var m' := ReadFields(s).value;
    LineOnce(PutJson(Obj(m), []), PutJson(Obj(m'), []));
    JsonOnce(Obj(m), [], Obj(m'), []);
  }

  // The law asked of the argument codec can be met.
  lemma ArgCodecExists() returns (codec: ArgCodec)
    ensures codec.Lawful()
  {
    codec := ArgCodec(s => ReadFields(s), m => Line(PutJson(Obj(m), [])), p => if p == "" then "." else p, c => c);
    forall m ensures codec.decode(codec.encode(m)) == Some(m) {
      ReadsBackFields(m);
    }
  }

  // ---------------------------------------------------------------- records

  function PutRole(r: Role, k: Bits): Bits {
    match r
    case RoleSystem => PutNat(0, k)
    case RoleUser => PutNat(1, k)
    case RoleAssistant => PutNat(2, k)
    case RoleTool => PutNat(3, k)
    case RoleUnknown(name) => PutNat(4, PutString(name, k))
  }

  lemma RoleOnce(a: Role, s: Bits, b: Role, t: Bits)
    requires PutRole(a, s) == PutRole(b, t)
    ensures a == b && s == t
  {
    hide PutNat, PutString;
    NatOnce(RoleNumber(a), RoleRest(a, s), RoleNumber(b), RoleRest(b, t));
    if a.RoleUnknown? {
      StringOnce(a.name, s, b.name, t);
    }
  }

  function RoleNumber(r: Role): nat {
    match r
    case RoleSystem => 0
    case RoleUser => 1
    case RoleAssistant => 2
    case RoleTool => 3
    case RoleUnknown(_) => 4
  }

  function RoleRest(r: Role, k: Bits): (b: Bits)
    ensures PutRole(r, k) == PutNat(RoleNumber(r), b)
  {
    if r.RoleUnknown? then PutString(r.name, k) else k
  }

  function PutCalls(calls: seq<ToolCall>, k: Bits): Bits {
    if calls == [] then [false] + k
    else [true] + PutString(calls[0].id, PutString(calls[0].name, PutString(calls[0].args, PutCalls(calls[1..], k))))
  }

  lemma {:induction false} CallsOnce(a: seq<ToolCall>, s: Bits, b: seq<ToolCall>, t: Bits)
    requires PutCalls(a, s) == PutCalls(b, t)
    ensures a == b && s == t
    decreases |a|
  {
    hide PutString;
    assert PutCalls(a, s)[0] == (a != []) && PutCalls(b, t)[0] == (b != []);
    assert PutCalls(a, s)[1..] == PutCalls(b, t)[1..];
    if a == [] {
      assert PutCalls(a, s)[1..] == s && PutCalls(b, t)[1..] == t;
    } else {
      var x, y := PutCalls(a[1..], s), PutCalls(b[1..], t);
      var x1, y1 := PutString(a[0].args, x), PutString(b[0].args, y);
      var x2, y2 := PutString(a[0].name, x1), PutString(b[0].name, y1);
      assert PutCalls(a, s)[1..] == PutString(a[0].id, x2) && PutCalls(b, t)[1..] == PutString(b[0].id, y2);
      StringOnce(a[0].id, x2, b[0].id, y2);
      StringOnce(a[0].name, x1, b[0].name, y1);
      StringOnce(a[0].args, x, b[0].args, y);
      CallsOnce(a[1..], s, b[1..], t);
      assert a == [a[0]] + a[1..] && b == [b[0]] + b[1..];
    }
  }

  function PutUsage(u: Option<Usage>, k: Bits): Bits {
    match u
    case None => [false] + k
    case Some(v) => [true] + PutInt(v.inputTokens, PutInt(v.outputTokens, k))
  }

  lemma UsageOnce(a: Option<Usage>, s: Bits, b: Option<Usage>, t: Bits)
    requires PutUsage(a, s) == PutUsage(b, t)
    ensures a == b && s == t
  {
    hide PutInt;
    assert PutUsage(a, s)[0] == a.Some? && PutUsage(b, t)[0] == b.Some?;
    assert PutUsage(a, s)[1..] == PutUsage(b, t)[1..];
    if a.None? {
      assert PutUsage(a, s)[1..] == s && PutUsage(b, t)[1..] == t;
    } else {
      var x, y := PutInt(a.value.outputTokens, s), PutInt(b.value.outputTokens, t);
      assert PutUsage(a, s)[1..] == PutInt(a.value.inputTokens, x)
          && PutUsage(b, t)[1..] == PutInt(b.value.inputTokens, y);
      IntOnce(a.value.inputTokens, x, b.value.inputTokens, y);
      IntOnce(a.value.outputTokens, s, b.value.outputTokens, t);
    }
  }

  // The texts of a message, and the rest of it.
  function PutTexts(m: Message, k: Bits): Bits {
    PutString(m.content,
        PutString(m.reasoning, PutString(m.reasoningState, PutString(m.toolCallId, PutString(m.kind, k)))))
  }

  function PutMessage(m: Message, k: Bits): Bits {
    PutTexts(m, PutRole(m.role, PutCalls(m.toolCalls, PutUsage(m.usage, PutInt(m.ts, [m.isError] + k)))))
  }

  lemma TextsOnce(m: Message, s: Bits, n: Message, t: Bits)
    requires PutTexts(m, s) == PutTexts(n, t)
    ensures m.content == n.content && m.reasoning == n.reasoning && m.reasoningState == n.reasoningState
    ensures m.toolCallId == n.toolCallId && m.kind == n.kind && s == t
  {
    hide PutString;
    var x1, y1 := PutString(m.kind, s), PutString(n.kind, t);
    var x2, y2 := PutString(m.toolCallId, x1), PutString(n.toolCallId, y1);
    var x3, y3 := PutString(m.reasoningState, x2), PutString(n.reasoningState, y2);
    var x4, y4 := PutString(m.reasoning, x3), PutString(n.reasoning, y3);
    StringOnce(m.content, x4, n.content, y4);
    StringOnce(m.reasoning, x3, n.reasoning, y3);
    StringOnce(m.reasoningState, x2, n.reasoningState, y2);
    StringOnce(m.toolCallId, x1, n.toolCallId, y1);
    StringOnce(m.kind, s, n.kind, t);
  }

  lemma MessageOnce(m: Message, s: Bits, n: Message, t: Bits)
    requires PutMessage(m, s) == PutMessage(n, t)
    ensures m == n && s == t
  {
    hide PutTexts, PutRole, PutCalls, PutUsage, PutInt;
    var x0, y0 := [m.isError] + s, [n.isError] + t;
    var x1, y1 := PutInt(m.ts, x0), PutInt(n.ts, y0);
    var x2, y2 := PutUsage(m.usage, x1), PutUsage(n.usage, y1);
    var x3, y3 := PutCalls(m.toolCalls, x2), PutCalls(n.toolCalls, y2);
    TextsOnce(m, PutRole(m.role, x3), n, PutRole(n.role, y3));
    RoleOnce(m.role, x3, n.role, y3);
    CallsOnce(m.toolCalls, x2, n.toolCalls, y2);
    UsageOnce(m.usage, x1, n.usage, y1);
    IntOnce(m.ts, x0, n.ts, y0);
    assert x0[0] == m.isError && y0[0] == n.isError && x0[1..] == s && y0[1..] == t;
  }

  function PutRecord(r: Session.Record): Bits {
    match r
    case MetaLine(meta) => [true] + PutString(meta.tag, PutString(meta.fields, []))
    case MessageLine(m) => [false] + PutMessage(m, [])
  }

  lemma RecordOnce(a: Session.Record, b: Session.Record)
    requires PutRecord(a) == PutRecord(b)
    ensures a == b
  {
    hide PutString, PutMessage;
    assert PutRecord(a)[0] == a.MetaLine? && PutRecord(b)[0] == b.MetaLine?;
    assert PutRecord(a)[1..] == PutRecord(b)[1..];
    match a
    case MetaLine(meta) =>
      assert PutRecord(a)[1..] == PutString(meta.tag, PutString(meta.fields, []));
      assert PutRecord(b)[1..] == PutString(b.meta.tag, PutString(b.meta.fields, []));
      StringOnce(meta.tag, PutString(meta.fields, []), b.meta.tag, PutString(b.meta.fields, []));
      StringOnce(meta.fields, [], b.meta.fields, []);
    case MessageLine(m) =>
      assert PutRecord(a)[1..] == PutMessage(m, []) && PutRecord(b)[1..] == PutMessage(b.m, []);
      MessageOnce(m, [], b.m, []);
  }

  ghost predicate WritesRecord(r: Session.Record, s: string) {
    s == Line(PutRecord(r))
  }

  ghost function ReadRecord(s: string): Session.Decoded {
    if exists r :: WritesRecord(r, s) then (var r :| WritesRecord(r, s); Session.Meaning(r)) else Session.Illegal
  }

  lemma ReadsBackRecord(r: Session.Record)
    ensures ReadRecord(Line(PutRecord(r))) == Session.Meaning(r)
  {
    var s := Line(PutRecord(r));
    assert WritesRecord(r, s);
    forall r' | WritesRecord(r', s) ensures r' == r {
      LineOnce(PutRecord(r), PutRecord(r'));
      RecordOnce(r, r');
    }
  }

  lemma LineIsOne(b: Bits)
    ensures Session.OneLine(Line(b)) && Line(b) != ""
  {
  }

  // No part of a written record is a written record.
  lemma PartReadsAsNothing(r: Session.Record, p: string)
    requires p <= Line(PutRecord(r)) && p != Line(PutRecord(r))
    ensures ReadRecord(p).Illegal?
  {
    if r' :| WritesRecord(r', p) {
      LinePart(PutRecord(r), p, PutRecord(r'));
      assert false;
    }
  }

  // The law asked of the session codec can be met.
  lemma SessionCodecExists() returns (c: Session.Codec)
    ensures Session.Lawful(c)
  {
    hide PutRecord, Line, ReadRecord;
    c := Session.Codec(r => Line(PutRecord(r)), s => ReadRecord(s), s => s);
    forall r ensures Session.OneLine(c.encode(r)) && c.encode(r) != "" && c.decode(c.encode(r)) == Session.Meaning(r) {
      LineIsOne(PutRecord(r));
      ReadsBackRecord(r);
    }
    forall r, p | p <= c.encode(r) && p != c.encode(r) ensures Session.Torn(c, p) {
      PartReadsAsNothing(r, p);
    }
  }
}
