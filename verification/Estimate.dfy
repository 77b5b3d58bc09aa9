/** Rune truncation (text/text.go) and the local token estimate with its marginal, per-round form
    (miniagent/policy/estimate.go, miniagent/compaction/budget_tail.go).
    Which runes count as CJK is a Unicode table: a predicate parameter here. */
module Estimate {
  import opened Transcript
  import opened Rounds

  const SYSTEM_OVERHEAD_TOKENS := 400
  const ENVELOPE_PER_MSG_TOKENS := 4
  const ENVELOPE_PER_TOOL_CALL_TOKENS := 20
  const PER_TOOL_SCHEMA_TOKENS := 60

  // ---------------------------------------------------------------- truncation

  function Min(a: int, b: int): int { if a < b then a else b }

  function Max(a: int, b: int): int { if a > b then a else b }

  function Truncate(s: string, n: int, marker: string): string {
    if n <= 0 || |s| <= n then s else s[..n] + marker
  }

  function TruncateTail(s: string, n: int, marker: string): string {
    if n <= 0 || |s| <= n then s else marker + s[|s|-n..]
  }

  function TruncateHeadTail(s: string, n: int, marker: string): string {
    if n <= 0 || |s| <= n then s
    else
      var headN := Max(n / 4, 1);
      var tailN := Max(n - headN, 1);
      if headN + tailN >= |s| then s
      else s[..headN] + marker + s[|s|-tailN..]
  }

  // The cap a summary of n >= 2 characters obeys, and what survives of a longer text: both of its
  // ends, the tail at least as long as the head.  (For n == 1 both ends take one rune each, one more
  // than asked for.)
  lemma TruncateHeadTailBounds(s: string, n: int, marker: string) returns (h: nat, t: nat)
    requires n >= 1
    ensures |TruncateHeadTail(s, n, marker)| <= Max(n, 2) + |marker|
    ensures h >= 1 && t >= h && h + t == Max(n, 2)
    ensures TruncateHeadTail(s, n, marker) == if |s| <= h + t then s else s[..h] + marker + s[|s|-t..]
  {
    h := Max(n / 4, 1);
    t := Max(n - h, 1);
  }

  // A text that is too long keeps its first n runes, or its last n, and the marker says so.
  lemma TruncateKeepsOneEnd(s: string, n: int, marker: string)
    ensures n <= 0 || |s| <= n ==> Truncate(s, n, marker) == s && TruncateTail(s, n, marker) == s
    ensures 0 < n < |s| ==>
              && |Truncate(s, n, marker)| == |TruncateTail(s, n, marker)| == n + |marker|
              && Truncate(s, n, marker)[..n] == s[..n] && Truncate(s, n, marker)[n..] == marker
              && TruncateTail(s, n, marker)[..|marker|] == marker
              && TruncateTail(s, n, marker)[|marker|..] == s[|s|-n..]
  {
  }

  // ---------------------------------------------------------------- counting

  type Table = char -> bool

  function Wide(cjk: Table, s: string): (n: nat)
    ensures n <= |s|
  {
    if s == [] then 0 else (if cjk(s[0]) then 1 else 0) + Wide(cjk, s[1..])
  }

  lemma {:induction false} WideConcat(cjk: Table, a: string, b: string)
    ensures Wide(cjk, a + b) == Wide(cjk, a) + Wide(cjk, b)
    decreases |a|
  {
    if a == [] {
      assert a + b == b;
    } else {
      WideConcat(cjk, a[1..], b);
      assert (a + b)[0] == a[0] && (a + b)[1..] == a[1..] + b;
    }
  }

  method CountCharsLocal(cjk: Table, s: string) returns (nonCJK: nat, wide: nat)
    ensures wide == Wide(cjk, s) && nonCJK + wide == |s|
  {
    nonCJK, wide := 0, 0;
    for i := 0 to |s|
      invariant nonCJK + wide == i
      invariant Wide(cjk, s) == wide + Wide(cjk, s[i..])
    {
      assert s[i..][0] == s[i] && s[i..][1..] == s[i+1..];
      if cjk(s[i]) {
        wide := wide + 1;
      } else {
        nonCJK := nonCJK + 1;
      }
    }
  }

  // All text of a message that the estimate looks at.
  function Args(calls: seq<ToolCall>): string {
    if calls == [] then [] else calls[0].args + Args(calls[1..])
  }

  function Text(m: Message): string {
    m.content + m.reasoning + m.reasoningState + Args(m.toolCalls)
  }

  function AllText(msgs: seq<Message>): string {
    if msgs == [] then [] else Text(msgs[0]) + AllText(msgs[1..])
  }

  function CallCount(msgs: seq<Message>): nat {
    if msgs == [] then 0 else |msgs[0].toolCalls| + CallCount(msgs[1..])
  }

  // A message counts with its content, its reasoning, the state of its reasoning, and the arguments of
  // each of its calls.
  lemma TextParts(cjk: Table, m: Message, calls: seq<ToolCall>, call: ToolCall)
    ensures |AllText([m])| == |m.content| + |m.reasoning| + |m.reasoningState| + |Args(m.toolCalls)|
    ensures Wide(cjk, AllText([m]))
            == Wide(cjk, m.content) + Wide(cjk, m.reasoning) + Wide(cjk, m.reasoningState)
                + Wide(cjk, Args(m.toolCalls))
    ensures Args([]) == "" && Args([call] + calls) == call.args + Args(calls)
    ensures CallCount([m]) == |m.toolCalls|
  {
    assert [m][1..] == [];
    assert AllText([m]) == Text(m) + "" == Text(m);
    WideConcat(cjk, m.content, m.reasoning);
    WideConcat(cjk, m.content + m.reasoning, m.reasoningState);
    WideConcat(cjk, m.content + m.reasoning + m.reasoningState, Args(m.toolCalls));
    assert ([call] + calls)[1..] == calls;
  }

  // Each wide rune counts for one, wherever it stands.
  lemma {:induction false} WideIs(cjk: Table, s: string)
    ensures Wide(cjk, s) == |set i | 0 <= i < |s| && cjk(s[i])|
    decreases |s|
  {
    if s != "" {
      var n := |s| - 1;
      var front, last := s[..n], [s[n]];
      WideIs(cjk, front);
      assert s == front + last && last[1..] == "";
      WideConcat(cjk, front, last);
      assert Wide(cjk, last) == if cjk(s[n]) then 1 else 0;
      hide Wide;
      var places, before := set i | 0 <= i < |s| && cjk(s[i]), set i | 0 <= i < |front| && cjk(front[i]);
      assert places == before + if cjk(s[n]) then {n} else {};
    }
  }

  // Four narrow runes or two wide ones make a token; both divisions round down.
  function Tokens(cjk: Table, s: string): nat {
    (|s| - Wide(cjk, s)) / 4 + Wide(cjk, s) / 2
  }

  // ---------------------------------------------------------------- requests

  // A tool enters a request as the JSON of its schema; encoding may fail.
  datatype Tool = Tool(name: string, schemaJson: Option<string>)

  type Estimator = (seq<Message>, string, seq<Tool>) -> int

  function SchemaText(tools: seq<Tool>): Option<string> {
    if tools == [] then Some("")
    else if tools[0].schemaJson.None? then None
    else match SchemaText(tools[1..])
      case None => None
      case Some(rest) => Some(tools[0].schemaJson.value + rest)
  }

  function SchemaTokens(cjk: Table, tools: seq<Tool>): nat {
    match SchemaText(tools)
    case None => PER_TOOL_SCHEMA_TOKENS * |tools|
    case Some(text) => Tokens(cjk, text)
  }

  function Request(cjk: Table, msgs: seq<Message>, system: string, tools: seq<Tool>): nat {
    Tokens(cjk, AllText(msgs) + system) + SYSTEM_OVERHEAD_TOKENS
      + ENVELOPE_PER_MSG_TOKENS * |msgs| + ENVELOPE_PER_TOOL_CALL_TOKENS * CallCount(msgs)
      + SchemaTokens(cjk, tools)
  }

  function DefaultEstimator(cjk: Table): Estimator {
    (msgs, system, tools) => Request(cjk, msgs, system, tools)
  }

  // The schemas count as one text; if one of them does not encode, each tool counts for 60.
  lemma {:induction false} SchemaTextIs(tools: seq<Tool>, jsons: seq<string>)
    requires |jsons| == |tools|
    requires forall i :: 0 <= i < |tools| && tools[i].schemaJson.Some? ==> jsons[i] == tools[i].schemaJson.value
    ensures SchemaText(tools).None? <==> exists i :: 0 <= i < |tools| && tools[i].schemaJson.None?
    ensures SchemaText(tools).Some? ==> SchemaText(tools).value == Joined(jsons)
    decreases |tools|
  {
    if tools != [] {
      SchemaTextIs(tools[1..], jsons[1..]);
      if i :| 0 <= i < |tools| && tools[i].schemaJson.None? {
        assert i > 0 ==> tools[1..][i-1].schemaJson.None?;
      }
    }
  }

  function Joined(texts: seq<string>): string {
    if texts == [] then "" else texts[0] + Joined(texts[1..])
  }

  method SchemaTokensCompute(cjk: Table, tools: seq<Tool>) returns (tokens: nat)
    ensures tokens == SchemaTokens(cjk, tools)
    ensures match SchemaText(tools)
            case None => tokens == 60 * |tools|
            case Some(text) => tokens == (|text| - Wide(cjk, text)) / 4 + Wide(cjk, text) / 2
  {
    var nonCJK, wide := 0, 0;
    ghost var text := "";
    assert tools[0..] == tools;
    assert SchemaText(tools).Some? ==> text + SchemaText(tools).value == SchemaText(tools).value;
    for i := 0 to |tools|
      invariant wide == Wide(cjk, text) && nonCJK + wide == |text|
      invariant SchemaText(tools) == match SchemaText(tools[i..])
                  case None => None
                  case Some(rest) => Some(text + rest)
    {
      assert tools[i..][0] == tools[i] && tools[i..][1..] == tools[i+1..];
      if tools[i].schemaJson.None? {
        return PER_TOOL_SCHEMA_TOKENS * |tools|;
      }
      var json := tools[i].schemaJson.value;
      var n, c := CountCharsLocal(cjk, json);
      WideConcat(cjk, text, json);
      if SchemaText(tools[i+1..]).Some? {
        var rest := SchemaText(tools[i+1..]).value;
        assert text + (json + rest) == (text + json) + rest;
      }
      text := text + json;
      nonCJK, wide := nonCJK + n, wide + c;
    }
    assert text + "" == text;
    tokens := nonCJK / 4 + wide / 2;
  }

  method CountMessage(cjk: Table, m: Message) returns (nonCJK: nat, wide: nat)
    ensures wide == Wide(cjk, Text(m)) && nonCJK + wide == |Text(m)|
  {
    nonCJK, wide := CountCharsLocal(cjk, m.content);
    var n, c := CountCharsLocal(cjk, m.reasoning);
    nonCJK, wide := nonCJK + n, wide + c;
    n, c := CountCharsLocal(cjk, m.reasoningState);
    nonCJK, wide := nonCJK + n, wide + c;
    var head := m.content + m.reasoning + m.reasoningState;
    WideConcat(cjk, m.content, m.reasoning);
    WideConcat(cjk, m.content + m.reasoning, m.reasoningState);
    ghost var all := Wide(cjk, head) + Wide(cjk, Args(m.toolCalls));
    WideConcat(cjk, head, Args(m.toolCalls));
    for j := 0 to |m.toolCalls|
      invariant wide + Wide(cjk, Args(m.toolCalls[j..])) == all
      invariant nonCJK + wide + |Args(m.toolCalls[j..])| == |Text(m)|
    {
      assert m.toolCalls[j..][0] == m.toolCalls[j] && m.toolCalls[j..][1..] == m.toolCalls[j+1..];
      n, c := CountCharsLocal(cjk, m.toolCalls[j].args);
      WideConcat(cjk, m.toolCalls[j].args, Args(m.toolCalls[j+1..]));
      nonCJK, wide := nonCJK + n, wide + c;
    }
  }

  method EstimateTokens(cjk: Table, msgs: seq<Message>, system: string, tools: seq<Tool>) returns (tokens: nat)
    ensures tokens == Request(cjk, msgs, system, tools)
    ensures var text := AllText(msgs) + system;
            tokens == (|text| - Wide(cjk, text)) / 4 + Wide(cjk, text) / 2 + 400 + 4 * |msgs| + 20 * CallCount(msgs)
                + SchemaTokens(cjk, tools)
  {
    var nonCJK, wide, toolCalls := 0, 0, 0;
    for i := 0 to |msgs|
      invariant wide + Wide(cjk, AllText(msgs[i..])) == Wide(cjk, AllText(msgs))
      invariant nonCJK + wide + |AllText(msgs[i..])| == |AllText(msgs)|
      invariant toolCalls + CallCount(msgs[i..]) == CallCount(msgs)
    {
      assert msgs[i..][0] == msgs[i] && msgs[i..][1..] == msgs[i+1..];
      var n, c := CountMessage(cjk, msgs[i]);
      WideConcat(cjk, Text(msgs[i]), AllText(msgs[i+1..]));
      nonCJK, wide := nonCJK + n, wide + c;
      toolCalls := toolCalls + |msgs[i].toolCalls|;
    }
    var n, c := CountCharsLocal(cjk, system);
    WideConcat(cjk, AllText(msgs), system);
    nonCJK, wide := nonCJK + n, wide + c;
    var schema := SchemaTokensCompute(cjk, tools);
    tokens := nonCJK / 4 + wide / 2 + SYSTEM_OVERHEAD_TOKENS
      + ENVELOPE_PER_MSG_TOKENS * |msgs| + ENVELOPE_PER_TOOL_CALL_TOKENS * toolCalls + schema;
  }

  // ---------------------------------------------------------------- marginals

  // estimateRoundTokens: what a round adds to a request.
  function Marginal(estimate: Estimator, round: seq<Message>): int {
    estimate(round, "", []) - SYSTEM_OVERHEAD_TOKENS
  }

  function MarginalSum(estimate: Estimator, rounds: seq<seq<Message>>): int {
    if rounds == [] then 0 else Marginal(estimate, rounds[0]) + MarginalSum(estimate, rounds[1..])
  }

  lemma {:induction false} MarginalSumConcat(estimate: Estimator, a: seq<seq<Message>>, b: seq<seq<Message>>)
    ensures MarginalSum(estimate, a + b) == MarginalSum(estimate, a) + MarginalSum(estimate, b)
    decreases |a|
  {
    if a == [] {
      assert a + b == b;
    } else {
      MarginalSumConcat(estimate, a[1..], b);
      assert (a + b)[0] == a[0] && (a + b)[1..] == a[1..] + b;
    }
  }

  lemma {:induction false} AllTextConcat(a: seq<Message>, b: seq<Message>)
    ensures AllText(a + b) == AllText(a) + AllText(b)
    ensures CallCount(a + b) == CallCount(a) + CallCount(b)
    decreases |a|
  {
    if a == [] {
      assert a + b == b;
    } else {
      AllTextConcat(a[1..], b);
      assert (a + b)[0] == a[0] && (a + b)[1..] == a[1..] + b;
    }
  }

  // The parts of a request: narrow and wide runes, and the envelope.  These are additive; only the
  // two divisions are not.
  function Narrow(cjk: Table, s: string): nat { |s| - Wide(cjk, s) }

  function Envelope(msgs: seq<Message>): nat {
    ENVELOPE_PER_MSG_TOKENS * |msgs| + ENVELOPE_PER_TOOL_CALL_TOKENS * CallCount(msgs)
  }

  lemma MarginalIs(cjk: Table, round: seq<Message>)
    ensures Marginal(DefaultEstimator(cjk), round)
         == Tokens(cjk, AllText(round)) + Envelope(round)
  {
    assert AllText(round) + "" == AllText(round);
  }

  // Rounding down round by round loses, over k rounds, at most 3 narrow runes and 1 wide rune each.
  lemma {:induction false} MarginalSumParts(cjk: Table, rounds: seq<seq<Message>>)
    returns (q: nat, h: nat, r: nat, s: nat)
    ensures Narrow(cjk, AllText(Flatten(rounds))) == 4 * q + r && r <= 3 * |rounds|
    ensures Wide(cjk, AllText(Flatten(rounds))) == 2 * h + s && s <= |rounds|
    ensures MarginalSum(DefaultEstimator(cjk), rounds) == q + h + Envelope(Flatten(rounds))
    decreases |rounds|
  {
    if rounds == [] {
      q, h, r, s := 0, 0, 0, 0;
    } else {
      q, h, r, s := MarginalSumParts(cjk, rounds[1..]);
      var first, rest := rounds[0], Flatten(rounds[1..]);
      MarginalIs(cjk, first);
      AllTextConcat(first, rest);
      WideConcat(cjk, AllText(first), AllText(rest));
      var n, w := Narrow(cjk, AllText(first)), Wide(cjk, AllText(first));
      q, r := q + n / 4, r + n % 4;
      h, s := h + w / 2, s + w % 2;
    }
  }

  // Three quarters of a token per piece for the narrow runes, half a token for the wide ones.
  function Slack(k: nat): nat {
    3 * k / 4 + k / 2
  }

  ghost predicate WithinSlack(low: int, value: int, k: nat) {
    low <= value <= low + Slack(k)
  }

  lemma TokensSlack(cjk: Table, text: string, q: nat, r: nat, h: nat, s: nat, k: nat)
    requires Narrow(cjk, text) == 4 * q + r && Wide(cjk, text) == 2 * h + s
    requires r <= 3 * k && s <= k
    ensures WithinSlack(q + h, Tokens(cjk, text), k)
  {
    assert (4 * q + r) / 4 == q + r / 4;
    assert (2 * h + s) / 2 == h + s / 2;
  }

  // The slack bound: the estimate of a whole transcript exceeds the sum of its rounds' marginals by
  // at most three quarters plus one half of a token per round, and never falls below it.
  lemma MarginalSlack(cjk: Table, rounds: seq<seq<Message>>)
    ensures var k := |rounds|;
            var sum := MarginalSum(DefaultEstimator(cjk), rounds);
            var whole := DefaultEstimator(cjk)(Flatten(rounds), "", []) - SYSTEM_OVERHEAD_TOKENS;
            WithinSlack(sum, whole, k)
  {
    var q, h, r, s := MarginalSumParts(cjk, rounds);
    MarginalIs(cjk, Flatten(rounds));
    TokensSlack(cjk, AllText(Flatten(rounds)), q, r, h, s, |rounds|);
  }

  // The bound is tight: k rounds of three narrow runes and one wide rune each reach it.
  function TightRound(narrow: char, wide: char): seq<Message> {
    [PLAIN.(content := [narrow, narrow, narrow, wide])]
  }

  lemma TightRoundText(cjk: Table, narrow: char, wide: char)
    requires !cjk(narrow) && cjk(wide)
    ensures var round := TightRound(narrow, wide);
            |AllText(round)| == 4 && Wide(cjk, AllText(round)) == 1
                && Marginal(DefaultEstimator(cjk), round) == Envelope(round)
  {
    var round, text := TightRound(narrow, wide), [narrow, narrow, narrow, wide];
    assert Args([]) == "" && round[0].toolCalls == [];
    assert Text(round[0]) == text;
    assert round[1..] == [];
    assert AllText(round) == text;
    assert text[1..] == [narrow, narrow, wide] && text[1..][1..] == [narrow, wide] && text[1..][1..][1..] == [wide];
    assert Wide(cjk, [wide]) == 1;
    assert Wide(cjk, [narrow, wide]) == 1;
    assert Wide(cjk, [narrow, narrow, wide]) == 1;
    assert Wide(cjk, text) == 1;
    MarginalIs(cjk, round);
  }

  lemma {:induction false} TightText(cjk: Table, narrow: char, wide: char, k: nat)
    requires !cjk(narrow) && cjk(wide)
    ensures var rounds := seq(k, _ => TightRound(narrow, wide));
            && |AllText(Flatten(rounds))| == 4 * k && Wide(cjk, AllText(Flatten(rounds))) == k
            && MarginalSum(DefaultEstimator(cjk), rounds) == Envelope(Flatten(rounds))
    decreases k
  {
    var rounds := seq(k, _ => TightRound(narrow, wide));
    if k > 0 {
      TightText(cjk, narrow, wide, k - 1);
      assert rounds[1..] == seq(k - 1, _ => TightRound(narrow, wide));
      var first, rest := TightRound(narrow, wide), Flatten(rounds[1..]);
      TightRoundText(cjk, narrow, wide);
      AllTextConcat(first, rest);
      WideConcat(cjk, AllText(first), AllText(rest));
    }
  }

  lemma MarginalSlackTight(cjk: Table, narrow: char, wide: char, k: nat)
    requires !cjk(narrow) && cjk(wide)
    ensures var rounds := seq(k, _ => TightRound(narrow, wide));
            DefaultEstimator(cjk)(Flatten(rounds), "", []) - SYSTEM_OVERHEAD_TOKENS
            == MarginalSum(DefaultEstimator(cjk), rounds) + Slack(k)
  {
    var rounds := seq(k, _ => TightRound(narrow, wide));
    TightText(cjk, narrow, wide, k);
    MarginalIs(cjk, Flatten(rounds));
  }

  lemma RequestText(cjk: Table, msgs: seq<Message>, system: string, q: nat, r: nat, h: nat, s: nat, k: nat)
    requires Narrow(cjk, AllText(msgs)) == 4 * q + r && Wide(cjk, AllText(msgs)) == 2 * h + s
    requires r <= 3 * k && s <= k
    ensures WithinSlack(q + h + Tokens(cjk, system), Tokens(cjk, AllText(msgs) + system), k + 1)
  {
    WideConcat(cjk, AllText(msgs), system);
    var n, w := Narrow(cjk, system), Wide(cjk, system);
    assert Narrow(cjk, AllText(msgs) + system) == 4 * (q + n / 4) + (r + n % 4);
    assert Wide(cjk, AllText(msgs) + system) == 2 * (h + w / 2) + (s + w % 2);
    TokensSlack(cjk, AllText(msgs) + system, q + n / 4, r + n % 4, h + w / 2, s + w % 2, k + 1);
  }

  lemma RequestIs(cjk: Table, msgs: seq<Message>, system: string, tools: seq<Tool>) returns (fixed: nat)
    ensures DefaultEstimator(cjk)([], system, tools) == Tokens(cjk, system) + fixed
    ensures DefaultEstimator(cjk)(msgs, system, tools) == Tokens(cjk, AllText(msgs) + system) + Envelope(msgs) + fixed
  {
    assert AllText([]) + system == system;
    fixed := SYSTEM_OVERHEAD_TOKENS + SchemaTokens(cjk, tools);
  }

  // A full request is its fixed overhead plus the marginals of its rounds, up to the slack of one
  // more piece: the system prompt shares the two divisions.
  lemma RequestSlack(cjk: Table, rounds: seq<seq<Message>>, system: string, tools: seq<Tool>)
    ensures WithinSlack(DefaultEstimator(cjk)([], system, tools) + MarginalSum(DefaultEstimator(cjk), rounds),
                        DefaultEstimator(cjk)(Flatten(rounds), system, tools),
                        |rounds| + 1)
  {
    var msgs := Flatten(rounds);
    var q, h, r, s := MarginalSumParts(cjk, rounds);
    var fixed := RequestIs(cjk, msgs, system, tools);
    RequestText(cjk, msgs, system, q, r, h, s, |rounds|);
  }
}
