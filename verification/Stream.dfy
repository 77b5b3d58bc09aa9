/** The streaming client: aggregation of an SSE stream (provider/openai/stream_parse.go) and the retry
    loop around it (provider/openai/stream.go).  HTTP and JSON are parameters. */
module Stream {
  import opened Seqs
  import opened Transcript
  import opened ToolFragments
  import opened Loop

  // An error's identity, which errors.Is sees through wrapping, and its text.
  datatype Cause = Cancelled | DeadlineExceeded | UnexpectedEOF | Unterminated | OtherCause

  datatype Failure = Failure(cause: Cause, text: string)

  // The marker of a connection dropped mid-generation is private to the package: no callback can
  // return it.
  type CallbackError = f: Failure | !f.cause.Unterminated? witness Failure(OtherCause, "")

  datatype Delta = TextDelta(text: string) | ReasoningDelta(text: string)

  datatype Choice = Choice(finishReason: string, content: string, reasoningContent: string, reasoning: string,
      toolCalls: seq<Fragment>)

  // error is the message of an error chunk, as far as it is shown.
  datatype Chunk = Chunk(choices: seq<Choice>, usage: Option<Usage>, error: Option<string>)

  datatype Line = Skip | DoneMarker | Unparsable(error: CallbackError) | Data(chunk: Chunk)

  // decode is json.Unmarshal of a payload, trim strings.TrimSpace.
  datatype Wire = Wire(trim: string -> string, decode: string -> Line)

  const BOM := "\U{ef}\U{bb}\U{bf}"

  function Classify(wire: Wire, raw: string): Line {
    var line := if BOM <= raw then raw[3..] else raw;
    if line == "" || ":" <= line || !("data:" <= line) then Skip
    else
      var data := wire.trim(line[5..]);
      if data == "" then Skip
      else if data == "[DONE]" then DoneMarker
      else wire.decode(data)
  }

  function Classified(wire: Wire, raw: seq<string>): (lines: seq<Line>)
    ensures |lines| == |raw| && forall i :: 0 <= i < |raw| ==> lines[i] == Classify(wire, raw[i])
  {
    seq(|raw|, i requires 0 <= i < |raw| => Classify(wire, raw[i]))
  }

  // A line's payload is what follows "data:", trimmed; a byte order mark in front is skipped and any
  // other line is none.
  lemma PayloadOf(wire: Wire, payload: string)
    ensures Classify(wire, BOM + "data:" + payload) == Classify(wire, "data:" + payload)
    ensures wire.trim(payload) == "" ==> Classify(wire, "data:" + payload) == Skip
    ensures wire.trim(payload) == "[DONE]" ==> Classify(wire, "data:" + payload) == DoneMarker
    ensures wire.trim(payload) != "" && wire.trim(payload) != "[DONE]"
            ==> Classify(wire, "data:" + payload) == wire.decode(wire.trim(payload))
    ensures !("data:" <= payload || BOM + "data:" <= payload) ==> Classify(wire, payload) == Skip
  {
    var line := "data:" + payload;
    assert (BOM + "data:" + payload)[3..] == line && line[5..] == payload;
    assert BOM <= BOM + "data:" + payload && line[0] == 'd';
    if BOM <= payload && "data:" <= payload[3..] {
      assert payload == BOM + payload[3..];
    }
  }

  // stop is what the scanner reports once reading has ended.
  datatype Body = Body(lines: seq<string>, stop: Option<CallbackError>)

  // ---------------------------------------------------------------- what a body contains

  function Reasoning(c: Choice): string {
    if c.reasoningContent != "" then c.reasoningContent else c.reasoning
  }

  function DeltasOf(ch: Chunk): seq<Delta> {
    if ch.choices == [] then []
    else
      TextDeltas(ch.choices[0].content) + ReasoningDeltas(Reasoning(ch.choices[0]))
  }

  function TextDeltas(s: string): seq<Delta> {
    if s != "" then [TextDelta(s)] else []
  }

  function ReasoningDeltas(s: string): seq<Delta> {
    if s != "" then [ReasoningDelta(s)] else []
  }

  function AsParts(fragments: seq<Fragment>): (pieces: seq<Piece>)
    ensures |pieces| == |fragments|
  {
    seq(|fragments|, i requires 0 <= i < |fragments| => Part(fragments[i]))
  }

  function Lead(c: Choice): seq<Piece> {
    Counted(c.content) + Counted(Reasoning(c))
  }

  function Counted(s: string): seq<Piece> {
    if s != "" then [Bytes(|s|)] else []
  }

  function PiecesOf(ch: Chunk): seq<Piece> {
    if ch.choices == [] then [] else Lead(ch.choices[0]) + AsParts(ch.choices[0].toolCalls)
  }

  // The chunks that are applied: up to the end marker, a payload that does not parse, or an error
  // chunk.
  function Chunks(lines: seq<Line>): seq<Chunk> {
    if lines == [] || Stops(lines[0]) then [] else ChunkOf(lines[0]) + Chunks(lines[1..])
  }

  predicate Stops(line: Line) {
    line.DoneMarker? || line.Unparsable? || (line.Data? && line.chunk.error.Some?)
  }

  function ChunkOf(line: Line): seq<Chunk> {
    if line.Data? then [line.chunk] else []
  }

  datatype Outcome = Outcome(finish: string, usage: Usage, sawChoice: bool)

  const UNKNOWN := Outcome("", Usage(0, 0), false)

  function Noted(o: Outcome, ch: Chunk): Outcome {
    Outcome(if ch.choices != [] && ch.choices[0].finishReason != "" then ch.choices[0].finishReason else o.finish,
            if ch.usage.Some? then ch.usage.value else o.usage,
            o.sawChoice || ch.choices != [])
  }

  function Outcomes(chunks: seq<Chunk>): Outcome {
    if chunks == [] then UNKNOWN else Noted(Outcomes(chunks[..|chunks|-1]), chunks[|chunks|-1])
  }

  // The end marker is among the lines that are read.
  predicate Done(lines: seq<Line>) {
    lines != [] && (lines[0].DoneMarker? || (!Stops(lines[0]) && Done(lines[1..])))
  }

  // Payloads are applied in order up to the first that ends the reading: the end marker, a payload that
  // does not parse, or an error chunk.  Everything behind it counts for nothing.
  lemma {:induction false} ChunksAre(before: seq<Line>, line: Line, after: seq<Line>)
    requires forall l :: l in before ==> l.Skip? || (l.Data? && l.chunk.error.None?)
    ensures line.DoneMarker? || line.Unparsable? || (line.Data? && line.chunk.error.Some?)
            ==> Chunks(before + [line] + after) == Chunks(before) && Stopper(before + [line] + after) == Some(line)
                && (Done(before + [line] + after) <==> line.DoneMarker?)
    ensures line.Data? && line.chunk.error.None?
            ==> Chunks(before + [line] + after) == Chunks(before) + [line.chunk] + Chunks(after)
    ensures line.Skip? ==> Chunks(before + [line] + after) == Chunks(before) + Chunks(after)
    decreases |before|
  {
    var lines := before + [line] + after;
    if before == [] {
      assert lines[1..] == after;
    } else {
      assert lines[1..] == before[1..] + [line] + after && lines[0] == before[0] && before[0] in before;
      ChunksAre(before[1..], line, after);
      assert Chunks(lines) == ChunkOf(before[0]) + Chunks(lines[1..]);
      assert Chunks(before) == ChunkOf(before[0]) + Chunks(before[1..]);
    }
  }

  // The usage and the finish reason are the last ones that any chunk gives.
  lemma {:induction false} LastOneCounts(chunks: seq<Chunk>, k: nat)
    requires k < |chunks|
    ensures chunks[k].usage.Some? && (forall j :: k < j < |chunks| ==> chunks[j].usage.None?)
            ==> Outcomes(chunks).usage == chunks[k].usage.value
    ensures FinishOf(chunks[k]) != "" && (forall j :: k < j < |chunks| ==> FinishOf(chunks[j]) == "")
            ==> Outcomes(chunks).finish == FinishOf(chunks[k])
    ensures chunks[k].choices != [] ==> Outcomes(chunks).sawChoice
    decreases |chunks|
  {
    var n := |chunks| - 1;
    if k < n {
      LastOneCounts(chunks[..n], k);
      assert chunks[..n][k] == chunks[k] && forall j :: k < j < n ==> chunks[..n][j] == chunks[j];
    }
  }

  function FinishOf(ch: Chunk): string {
    if ch.choices == [] then "" else ch.choices[0].finishReason
  }

  lemma {:induction false} NoneGiven(chunks: seq<Chunk>)
    ensures (forall ch :: ch in chunks ==> ch.usage.None?) ==> Outcomes(chunks).usage == Usage(0, 0)
    ensures (forall ch :: ch in chunks ==> FinishOf(ch) == "") ==> Outcomes(chunks).finish == ""
    decreases |chunks|
  {
    if chunks == [] {
    } else {
      NoneGiven(chunks[..|chunks|-1]);
      assert forall ch :: ch in chunks[..|chunks|-1] ==> ch in chunks;
      assert chunks[|chunks|-1] in chunks;
    }
  }

  function Gather<T>(chunks: seq<Chunk>, f: Chunk -> seq<T>): seq<T> {
    if chunks == [] then [] else Gather(chunks[..|chunks|-1], f) + f(chunks[|chunks|-1])
  }

  lemma {:induction false} GatherConcat<T>(a: seq<Chunk>, b: seq<Chunk>, f: Chunk -> seq<T>)
    ensures Gather(a + b, f) == Gather(a, f) + Gather(b, f)
    decreases |b|
  {
    if b == [] {
      assert a + b == a;
    } else {
      var n := |b| - 1;
      GatherConcat(a, b[..n], f);
      assert (a + b)[..|a|+n] == a + b[..n] && (a + b)[|a|+n] == b[n];
      Assoc(Gather(a, f), Gather(b[..n], f), f(b[n]));
    }
  }

  lemma GatherOne<T>(ch: Chunk, f: Chunk -> seq<T>)
    ensures Gather([ch], f) == f(ch)
  {
    assert [ch][..0] == [];
  }

  function AllDeltas(chunks: seq<Chunk>): seq<Delta> {
    Gather(chunks, DeltasOf)
  }

  function AllPieces(chunks: seq<Chunk>): seq<Piece> {
    Gather(chunks, PiecesOf)
  }

  function TextOf(deltas: seq<Delta>): string {
    if deltas == [] then "" else (if deltas[0].TextDelta? then deltas[0].text else "") + TextOf(deltas[1..])
  }

  function ReasoningOf(deltas: seq<Delta>): string {
    if deltas == [] then "" else (if deltas[0].ReasoningDelta? then deltas[0].text else "") + ReasoningOf(deltas[1..])
  }

  lemma {:induction false} TextOfConcat(a: seq<Delta>, b: seq<Delta>)
    ensures TextOf(a + b) == TextOf(a) + TextOf(b)
    decreases |a|
  {
    if a == [] {
      assert a + b == b;
    } else {
      TextOfConcat(a[1..], b);
      assert (a + b)[1..] == a[1..] + b;
      var first := if a[0].TextDelta? then a[0].text else "";
      assert TextOf(a + b) == first + (TextOf(a[1..]) + TextOf(b));
    }
  }

  lemma {:induction false} ReasoningOfConcat(a: seq<Delta>, b: seq<Delta>)
    ensures ReasoningOf(a + b) == ReasoningOf(a) + ReasoningOf(b)
    decreases |a|
  {
    if a == [] {
      assert a + b == b;
    } else {
      ReasoningOfConcat(a[1..], b);
      assert (a + b)[1..] == a[1..] + b;
      var first := if a[0].ReasoningDelta? then a[0].text else "";
      assert ReasoningOf(a + b) == first + (ReasoningOf(a[1..]) + ReasoningOf(b));
    }
  }

  // A chunk adds its first choice's content to the text, and to the reasoning its reasoning_content or,
  // where that is empty, its reasoning.
  lemma TextGrows(chunks: seq<Chunk>, ch: Chunk)
    ensures ch.choices == [] ==> AllDeltas(chunks + [ch]) == AllDeltas(chunks)
    ensures ch.choices != [] ==>
              var c := ch.choices[0];
              && TextOf(AllDeltas(chunks + [ch])) == TextOf(AllDeltas(chunks)) + c.content
              && ReasoningOf(AllDeltas(chunks + [ch]))
                 == ReasoningOf(AllDeltas(chunks)) + if c.reasoningContent == "" then c.reasoning
                     else c.reasoningContent
  {
    TextSnoc(chunks, ch);
    AllSnoc(chunks, ch);
    if ch.choices != [] {
      DeltaTexts(ch.choices[0]);
    }
  }

  // ---------------------------------------------------------------- the accumulator

  // The caller's callback: it sees every delta and may refuse it.
  class Sink {
    var sent: seq<Delta>
    var deltaSent: nat
    const refuse: seq<Delta> -> Option<CallbackError>

    constructor (refuse: seq<Delta> -> Option<CallbackError>)
      ensures sent == [] && this.refuse == refuse
    {
      sent, deltaSent, this.refuse := [], 0, refuse;
    }

    method Push(d: Delta) returns (err: Option<Failure>)
      modifies this
      ensures sent == old(sent) + [d] && deltaSent == old(deltaSent) + 1
      ensures match refuse(sent) case None => err.None? case Some(f) => err == Some(f)
    {
      deltaSent := deltaSent + 1;
      sent := sent + [d];
      match refuse(sent)
      case None => err := None;
      case Some(f) => err := Some(f);
    }
  }

  function Limit(): Failure {
    Failure(OtherCause, "streaming response accumulated exceeds byte limit")
  }

  const NO_INDEX := Failure(OtherCause, "streaming tool_call missing index")
  const COLLISION := Failure(OtherCause, "streaming tool_call index collision")

  class StreamAccum {
    var text: string
    var reasoning: string
    var calls: map<int, ToolCall>
    var callOrder: seq<int>
    var finish: string
    var usage: Usage
    var sawChoice: bool
    var doneSeen: bool
    var totalBytes: nat
    ghost var pieces: seq<Piece>

    ghost function Held(): Merged
      reads `calls, `callOrder, `totalBytes
    {
      Merged(calls, callOrder, totalBytes)
    }

    ghost predicate Valid()
      reads `calls, `callOrder, `totalBytes, `pieces
    {
      TakeAll(pieces) == Some(Held())
    }

    ghost function Known(): Outcome
      reads `finish, `usage, `sawChoice
    {
      Outcome(finish, usage, sawChoice)
    }

    constructor ()
      ensures Valid() && pieces == [] && text == "" && reasoning == "" && !doneSeen && Known() == UNKNOWN
    {
      text, reasoning, calls, callOrder, finish := "", "", map[], [], "";
      usage, sawChoice, doneSeen, totalBytes, pieces := Usage(0, 0), false, false, 0, [];
    }

    // Usage usually comes in a last chunk without choices.
    method Note(ch: Chunk)
      modifies `finish, `usage, `sawChoice
      ensures Known() == Noted(old(Known()), ch)
    {
      if ch.usage.Some? {
        usage := ch.usage.value;
      }
      if ch.choices == [] {
        return;
      }
      sawChoice := true;
      if ch.choices[0].finishReason != "" {
        finish := ch.choices[0].finishReason;
      }
    }

    method GuardAdd(n: nat) returns (err: Option<Failure>)
      modifies `totalBytes
      ensures err.None? <==> old(totalBytes) + n <= MAX_STREAM_RESPONSE_BYTES
      ensures totalBytes == if err.None? then old(totalBytes) + n else old(totalBytes)
      ensures err.Some? ==> err == Some(Limit())
    {
      if totalBytes + n > MAX_STREAM_RESPONSE_BYTES {
        return Some(Limit());
      }
      totalBytes := totalBytes + n;
      err := None;
    }

    method AddBytes(n: nat) returns (err: Option<Failure>)
      requires Valid()
      modifies `totalBytes, `pieces
      ensures err.None? <==> TakeAll(old(pieces) + [Bytes(n)]).Some?
      ensures err.None? ==> Valid() && pieces == old(pieces) + [Bytes(n)]
      ensures err.Some? ==> err == Some(Limit())
    {
      TakeAllSnoc(pieces, Bytes(n));
      err := GuardAdd(n);
      pieces := pieces + [Bytes(n)];
    }

    // An id, a name or more arguments: counted unless empty.
    method Count(more: string) returns (err: Option<Failure>)
      modifies `totalBytes
      ensures err.None? ==> totalBytes == old(totalBytes) + |more|
      ensures err.None? && old(totalBytes) <= MAX_STREAM_RESPONSE_BYTES ==> totalBytes <= MAX_STREAM_RESPONSE_BYTES
      ensures err.Some? ==> old(totalBytes) + |more| > MAX_STREAM_RESPONSE_BYTES && err == Some(Limit())
    {
      err := None;
      if more != "" {
        err := GuardAdd(|more|);
      }
    }

    // One fragment of the loop over the delta's tool calls.
    method AddFragment(tc: Fragment) returns (err: Option<Failure>)
      requires Valid()
      modifies `calls, `callOrder, `totalBytes, `pieces
      ensures err.None? <==> TakeAll(old(pieces) + [Part(tc)]).Some?
      ensures err.None? ==> Valid() && pieces == old(pieces) + [Part(tc)]
      ensures err.Some? ==> err == Some(Limit()) || err == Some(NO_INDEX) || err == Some(COLLISION)
    {
      TakeAllSnoc(pieces, Part(tc));
      LimitKept(pieces);
      ghost var before := Held();
      var known := tc.index in calls;
      var acc := if known then calls[tc.index] else FRESH;
      if known && acc.id != "" && tc.id != "" && tc.id != acc.id {
        return Some(NO_INDEX);
      }
      if known && acc.name != "" && tc.name != "" && tc.name != acc.name {
        return Some(COLLISION);
      }
      assert Agrees(At(before, tc.index), tc);
      if !known {
        callOrder := callOrder + [tc.index];
      }
      err := Count(tc.id);
      if err.Some? {
        return;
      }
      err := Count(tc.name);
      if err.Some? {
        return;
      }
      err := Count(tc.args);
      if err.Some? {
        return;
      }
      acc := ToolCall(if tc.id != "" then tc.id else acc.id, if tc.name != "" then tc.name
          else acc.name, acc.args + tc.args);
      calls := calls[tc.index := acc];
      pieces := pieces + [Part(tc)];
    }

    method AddFragments(fragments: seq<Fragment>) returns (err: Option<Failure>)
      requires Valid()
      modifies `calls, `callOrder, `totalBytes, `pieces
      ensures err.None? <==> TakeAll(old(pieces) + AsParts(fragments)).Some?
      ensures err.None? ==> Valid() && pieces == old(pieces) + AsParts(fragments)
      ensures err.Some? ==> err == Some(Limit()) || err == Some(NO_INDEX) || err == Some(COLLISION)
    {
      ghost var goal := pieces + AsParts(fragments);
      var rest := fragments;
      err := None;
      while rest != []
        invariant Valid() && pieces + AsParts(rest) == goal && err.None?
        decreases |rest|
      {
        PartsFirst(pieces, rest);
        err := AddFragment(rest[0]);
        if err.Some? {
          return;
        }
        rest := rest[1..];
      }
      assert pieces + [] == pieces;
    }

    // Content, unless empty: the limit first, then the caller.
    method AddContent(s: string, sink: Sink) returns (err: Option<Failure>)
      requires Valid()
      modifies `text, `totalBytes, `pieces, sink
      ensures sink.deltaSent - |sink.sent| == old(sink.deltaSent) - |old(sink.sent)|
      ensures err.None? ==> Valid() && pieces == old(pieces) + Counted(s) && text == old(text) + s
      ensures err.None? ==> sink.sent == old(sink.sent) + TextDeltas(s)
      ensures err.Some? ==> Excused(err.value, old(pieces) + Counted(s), sink.refuse(sink.sent))
      ensures err.Some? ==> old(sink.sent) <= sink.sent <= old(sink.sent) + TextDeltas(s)
      ensures Heard(sink.refuse, sink.sent, |old(sink.sent)|, |sink.sent| - Refused(err))
    {
      err := None;
      if s != "" {
        err := AddBytes(|s|);
        if err.None? {
          text := text + s;
          err := sink.Push(TextDelta(s));
          assert sink.sent[..|sink.sent|] == sink.sent;
        }
      }
    }

    method AddReasoning(s: string, sink: Sink) returns (err: Option<Failure>)
      requires Valid()
      modifies `reasoning, `totalBytes, `pieces, sink
      ensures sink.deltaSent - |sink.sent| == old(sink.deltaSent) - |old(sink.sent)|
      ensures err.None? ==> Valid() && pieces == old(pieces) + Counted(s) && reasoning == old(reasoning) + s
      ensures err.None? ==> sink.sent == old(sink.sent) + ReasoningDeltas(s)
      ensures err.Some? ==> Excused(err.value, old(pieces) + Counted(s), sink.refuse(sink.sent))
      ensures err.Some? ==> old(sink.sent) <= sink.sent <= old(sink.sent) + ReasoningDeltas(s)
      ensures Heard(sink.refuse, sink.sent, |old(sink.sent)|, |sink.sent| - Refused(err))
    {
      err := None;
      if s != "" {
        err := AddBytes(|s|);
        if err.None? {
          reasoning := reasoning + s;
          err := sink.Push(ReasoningDelta(s));
          assert sink.sent[..|sink.sent|] == sink.sent;
        }
      }
    }
  }

  // An error while applying has one of two reasons: the pieces are refused, or the callback was the
  // last to be called and refused.
  ghost predicate Excused(err: Failure, pieces: seq<Piece>, refusal: Option<CallbackError>) {
    || (TakeAll(pieces).None? && (err == Limit() || err == NO_INDEX || err == COLLISION))
    || (refusal.Some? && err == refusal.value)
  }

  // The callback accepted the deltas it had been shown up to each of these counts.
  ghost predicate Heard(refuse: seq<Delta> -> Option<CallbackError>, sent: seq<Delta>, from: nat, to: int)
    requires to <= |sent|
  {
    forall k :: from < k <= to ==> refuse(sent[..k]).None?
  }

  // The last delta shown may be the one that was refused.
  function Refused(err: Option<Failure>): nat {
    if err.Some? then 1 else 0
  }

  lemma HeardOn(refuse: seq<Delta> -> Option<CallbackError>, sent: seq<Delta>, more: seq<Delta>, from: nat, to: int)
    requires sent <= more && to <= |more|
    requires Heard(refuse, sent, from, |sent|) && Heard(refuse, more, |sent|, to)
    ensures Heard(refuse, more, from, to)
  {
    forall k | from < k <= to ensures refuse(more[..k]).None? {
      if k <= |sent| {
        assert more[..k] == sent[..k];
      }
    }
  }

  lemma PartsFirst(pieces: seq<Piece>, rest: seq<Fragment>)
    requires rest != []
    ensures pieces + AsParts(rest) == (pieces + [Part(rest[0])]) + AsParts(rest[1..])
    ensures TakeAll(pieces + [Part(rest[0])]).None? ==> TakeAll(pieces + AsParts(rest)).None?
  {
    assert AsParts(rest) == [Part(rest[0])] + AsParts(rest[1..]);
    assert pieces + AsParts(rest) == (pieces + [Part(rest[0])]) + AsParts(rest[1..]);
    if TakeAll(pieces + [Part(rest[0])]).None? {
      RefusedStaysRefused(pieces + [Part(rest[0])], AsParts(rest[1..]));
    }
  }

  lemma LimitKept(pieces: seq<Piece>)
    ensures TakeAll(pieces).Some? ==> TakeAll(pieces).value.total <= MAX_STREAM_RESPONSE_BYTES
  {
    if TakeAll(pieces).Some? {
      StoredWithinLimit(pieces);
    }
  }

  // A choice's content and reasoning.
  method ApplyTexts(a: StreamAccum, c: Choice, sink: Sink) returns (err: Option<Failure>)
    requires a.Valid()
    modifies a`text, a`reasoning, a`totalBytes, a`pieces, sink
    ensures sink.deltaSent - |sink.sent| == old(sink.deltaSent) - |old(sink.sent)|
    ensures err.None? ==> a.Valid() && a.pieces == old(a.pieces) + Lead(c)
    ensures err.None? ==> sink.sent == old(sink.sent) + (TextDeltas(c.content) + ReasoningDeltas(Reasoning(c)))
    ensures err.None? ==> a.text == old(a.text) + c.content && a.reasoning == old(a.reasoning) + Reasoning(c)
    ensures err.Some? ==>
              old(sink.sent) <= sink.sent <= old(sink.sent) + (TextDeltas(c.content) + ReasoningDeltas(Reasoning(c)))
    ensures err.Some? ==> Excused(err.value, old(a.pieces) + Lead(c), sink.refuse(sink.sent))
    ensures Heard(sink.refuse, sink.sent, |old(sink.sent)|, |sink.sent| - Refused(err))
  {
    hide Heard, Excused, TakeAll;
    ghost var goal, all := a.pieces + Lead(c), sink.sent + (TextDeltas(c.content) + ReasoningDeltas(Reasoning(c)));
    err := a.AddContent(c.content, sink);
    assert goal == (old(a.pieces) + Counted(c.content)) + Counted(Reasoning(c));
    assert all == (old(sink.sent) + TextDeltas(c.content)) + ReasoningDeltas(Reasoning(c));
    if err.Some? {
      ExcusedMore(err.value, old(a.pieces) + Counted(c.content), goal, sink.refuse(sink.sent));
      return;
    }
    ghost var shown := sink.sent;
    var rc := c.reasoningContent;
    if rc == "" {
      rc := c.reasoning;
    }
    err := a.AddReasoning(rc, sink);
    HeardOn(sink.refuse, shown, sink.sent, |old(sink.sent)|, |sink.sent| - Refused(err));
  }

  method ApplyChoice(a: StreamAccum, c: Choice, sink: Sink) returns (err: Option<Failure>)
    requires a.Valid()
    modifies a`text, a`reasoning, a`calls, a`callOrder, a`totalBytes, a`pieces, sink
    ensures sink.deltaSent - |sink.sent| == old(sink.deltaSent) - |old(sink.sent)|
    ensures err.None? ==> a.Valid() && a.pieces == old(a.pieces) + (Lead(c) + AsParts(c.toolCalls))
    ensures err.None? ==> sink.sent == old(sink.sent) + (TextDeltas(c.content) + ReasoningDeltas(Reasoning(c)))
    ensures err.None? ==> a.text == old(a.text) + c.content && a.reasoning == old(a.reasoning) + Reasoning(c)
    ensures err.Some? ==>
              old(sink.sent) <= sink.sent <= old(sink.sent) + (TextDeltas(c.content) + ReasoningDeltas(Reasoning(c)))
    ensures err.Some? ==> Excused(err.value, old(a.pieces) + (Lead(c) + AsParts(c.toolCalls)), sink.refuse(sink.sent))
    ensures Heard(sink.refuse, sink.sent, |old(sink.sent)|, |sink.sent| - Refused(err))
  {
    assert old(a.pieces) + (Lead(c) + AsParts(c.toolCalls)) == (old(a.pieces) + Lead(c)) + AsParts(c.toolCalls);
    err := ApplyTexts(a, c, sink);
    if err.Some? {
      ExcusedMore(err.value, old(a.pieces) + Lead(c), old(a.pieces) + (Lead(c) + AsParts(c.toolCalls)),
          sink.refuse(sink.sent));
      return;
    }
    err := a.AddFragments(c.toolCalls);
  }

  // One chunk: usage, then the first choice's finish reason, content, reasoning and tool calls.
  method Apply(a: StreamAccum, ch: Chunk, sink: Sink) returns (err: Option<Failure>)
    requires a.Valid()
    modifies a, sink
    ensures sink.deltaSent - |sink.sent| == old(sink.deltaSent) - |old(sink.sent)|
    ensures err.None? ==> a.Valid() && a.pieces == old(a.pieces) + PiecesOf(ch) && a.doneSeen == old(a.doneSeen)
    ensures err.None? ==> sink.sent == old(sink.sent) + DeltasOf(ch)
    ensures err.None? ==>
              a.text == old(a.text) + TextOf(DeltasOf(ch))
                  && a.reasoning == old(a.reasoning) + ReasoningOf(DeltasOf(ch))
    ensures err.None? ==> a.Known() == Noted(old(a.Known()), ch)
    ensures err.Some? ==> old(sink.sent) <= sink.sent <= old(sink.sent) + DeltasOf(ch)
    ensures err.Some? ==> Excused(err.value, old(a.pieces) + PiecesOf(ch), sink.refuse(sink.sent))
    ensures Heard(sink.refuse, sink.sent, |old(sink.sent)|, |sink.sent| - Refused(err))
  {
    assert TextOf([]) == "" && ReasoningOf([]) == "";
    hide TextOf, ReasoningOf, TakeAll, Excused;
    err := None;
    a.Note(ch);
    if ch.choices != [] {
      DeltaTexts(ch.choices[0]);
      err := ApplyChoice(a, ch.choices[0], sink);
    }
  }

  lemma DeltaTexts(c: Choice)
    ensures TextOf(TextDeltas(c.content) + ReasoningDeltas(Reasoning(c))) == c.content
    ensures ReasoningOf(TextDeltas(c.content) + ReasoningDeltas(Reasoning(c))) == Reasoning(c)
  {
    TextOfConcat(TextDeltas(c.content), ReasoningDeltas(Reasoning(c)));
    ReasoningOfConcat(TextDeltas(c.content), ReasoningDeltas(Reasoning(c)));
  }

  lemma ExcusedMore(err: Failure, pieces: seq<Piece>, more: seq<Piece>, refusal: Option<CallbackError>)
    requires Excused(err, pieces, refusal) && pieces <= more
    ensures Excused(err, more, refusal)
  {
    assert more == pieces + more[|pieces|..];
    if TakeAll(pieces).None? {
      RefusedStaysRefused(pieces, more[|pieces|..]);
    }
  }

  // ---------------------------------------------------------------- parseSSE

  const EMPTY_RESPONSE := Response("", "", "", [], Usage(0, 0), "", false)

  // The response holds what the chunks say: the deltas handed out are the text and the reasoning,
  // and the tool calls are those of the fragments.
  ghost predicate Faithful(res: Response, sent: seq<Delta>, chunks: seq<Chunk>) {
    && sent == AllDeltas(chunks)
    && res.text == TextOf(sent) && res.reasoning == ReasoningOf(sent)
    && TakeAll(AllPieces(chunks)).Some? && res.toolCalls == ToolCalls(TakeAll(AllPieces(chunks)).value)
    && res.usage == Outcomes(chunks).usage
  }

  lemma AllSnoc(chunks: seq<Chunk>, ch: Chunk)
    ensures AllDeltas(chunks + [ch]) == AllDeltas(chunks) + DeltasOf(ch)
    ensures AllPieces(chunks + [ch]) == AllPieces(chunks) + PiecesOf(ch)
    ensures Outcomes(chunks + [ch]) == Noted(Outcomes(chunks), ch)
  {
    GatherConcat(chunks, [ch], DeltasOf);
    GatherConcat(chunks, [ch], PiecesOf);
    GatherOne(ch, DeltasOf);
    GatherOne(ch, PiecesOf);
    assert (chunks + [ch])[..|chunks|] == chunks;
  }

  lemma AllDeltasPrefix(a: seq<Chunk>, b: seq<Chunk>)
    ensures AllDeltas(a) <= AllDeltas(a + b)
  {
    GatherConcat(a, b, DeltasOf);
  }

  lemma TextSnoc(chunks: seq<Chunk>, ch: Chunk)
    ensures TextOf(AllDeltas(chunks + [ch])) == TextOf(AllDeltas(chunks)) + TextOf(DeltasOf(ch))
    ensures ReasoningOf(AllDeltas(chunks + [ch])) == ReasoningOf(AllDeltas(chunks)) + ReasoningOf(DeltasOf(ch))
  {
    AllSnoc(chunks, ch);
    TextOfConcat(AllDeltas(chunks), DeltasOf(ch));
    ReasoningOfConcat(AllDeltas(chunks), DeltasOf(ch));
  }

  lemma SentSnoc(before: seq<Delta>, chunks: seq<Chunk>, ch: Chunk)
    ensures (before + AllDeltas(chunks)) + DeltasOf(ch) == before + AllDeltas(chunks + [ch])
  {
    AllSnoc(chunks, ch);
  }

  // What holds after the chunks `done`.
  ghost predicate Aggregated(a: StreamAccum, done: seq<Chunk>)
    reads a`text, a`reasoning, a`calls, a`callOrder, a`totalBytes, a`pieces, a`finish, a`usage, a`sawChoice
  {
    && a.Valid() && a.pieces == AllPieces(done)
    && a.text == TextOf(AllDeltas(done)) && a.reasoning == ReasoningOf(AllDeltas(done))
    && a.Known() == Outcomes(done)
  }

  method OrderedCalls(a: StreamAccum) returns (calls: seq<ToolCall>)
    requires a.Valid()
    ensures calls == ToolCalls(a.Held())
  {
    var idxs := Sorted(a.callOrder);
    OrderKnown(a.pieces, a.Held());
    calls := [];
    for k := 0 to |idxs|
      invariant |calls| == k && forall j :: 0 <= j < k ==> calls[j] == At(a.Held(), idxs[j])
    {
      assert idxs[k] in a.calls;
      calls := calls + [a.calls[idxs[k]]];
    }
  }

  lemma OrderKnown(pieces: seq<Piece>, m: Merged)
    requires TakeAll(pieces) == Some(m)
    ensures forall k :: 0 <= k < |Sorted(m.order)| ==> Sorted(m.order)[k] in m.calls
  {
    AcceptedIff(pieces);
    SortedAscending(m.order);
    forall k | 0 <= k < |Sorted(m.order)| ensures Sorted(m.order)[k] in m.calls {
      assert Sorted(m.order)[k] in Sorted(m.order);
    }
  }

  method Respond(a: StreamAccum) returns (res: Response)
    requires a.Valid()
    ensures res == Response(a.text, a.reasoning, "", ToolCalls(a.Held()), a.usage, a.finish, false)
  {
    var calls := OrderedCalls(a);
    res := Response(a.text, a.reasoning, "", calls, a.usage, a.finish, false);
  }

  // One more chunk.
  method ApplyNext(a: StreamAccum, ch: Chunk, ghost done: seq<Chunk>, sink: Sink, ghost before: seq<Delta>)
      returns (err: Option<Failure>)
    requires Aggregated(a, done) && !a.doneSeen && sink.sent == before + AllDeltas(done)
    modifies a, sink
    ensures sink.deltaSent - |sink.sent| == old(sink.deltaSent) - |old(sink.sent)|
    ensures err.None? ==> Aggregated(a, done + [ch]) && !a.doneSeen && sink.sent == before + AllDeltas(done + [ch])
    ensures err.Some? ==>
              && before <= sink.sent <= before + AllDeltas(done + [ch])
              && Excused(err.value, AllPieces(done + [ch]), sink.refuse(sink.sent))
    ensures old(sink.sent) <= sink.sent
    ensures Heard(sink.refuse, sink.sent, |old(sink.sent)|, |sink.sent| - Refused(err))
  {
    AllSnoc(done, ch);
    TextSnoc(done, ch);
    SentSnoc(before, done, ch);
    err := Apply(a, ch, sink);
  }

  const NO_CHOICES := Failure(OtherCause, "stream ended without any choices")
  const UNTERMINATED := Failure(Unterminated,
      "stream ended without [DONE]/finish_reason (connection dropped mid-generation)")

  // The failure that a line is read as: a payload that does not parse, or an error chunk.
  function Said(line: Line): Option<Failure> {
    match line
    case Unparsable(e) => Some(Failure(e.cause, "parse sse chunk: " + e.text))
    case Data(ch) =>
      if ch.error.Some? then Some(Failure(OtherCause, "stream error from provider: " + ch.error.value)) else None
    case _ => None
  }

  // How a line is taken: read on, the end marker, an error (`partial`: what was aggregated is kept).
  datatype Verdict = ReadOn | AtEnd | Broken(error: Failure, partial: bool)

  // What has been applied and sent is a prefix of what the body says; all of it at the end marker and
  // where a payload does not parse.
  ghost predicate Sent(a: StreamAccum, sink: Sink, before: seq<Delta>, chunks: seq<Chunk>)
    reads a`text, a`reasoning, a`calls, a`callOrder, a`totalBytes, a`pieces, a`finish, a`usage, a`sawChoice, sink`sent
  {
    Aggregated(a, chunks) && sink.sent == before + AllDeltas(chunks)
  }

  method TakeLine(line: Line, a: StreamAccum, sink: Sink, ghost before: seq<Delta>, ghost done: seq<Chunk>)
      returns (verdict: Verdict)
    requires Sent(a, sink, before, done) && !a.doneSeen
    modifies a, sink
    ensures sink.deltaSent - |sink.sent| == old(sink.deltaSent) - |old(sink.sent)|
    ensures verdict.ReadOn? ==> !Stops(line) && Sent(a, sink, before, done + ChunkOf(line)) && !a.doneSeen
    ensures verdict.AtEnd? ==> line.DoneMarker? && Sent(a, sink, before, done)
    ensures verdict.Broken? ==> !verdict.error.cause.Unterminated? && !line.DoneMarker?
    ensures verdict.Broken? && Stops(line) ==> Some(verdict.error) == Said(line) && verdict.partial == line.Unparsable?
    ensures verdict.Broken? && Stops(line) ==> Sent(a, sink, before, done)
    ensures verdict.Broken? && !Stops(line) ==>
              && before <= sink.sent <= before + AllDeltas(done + ChunkOf(line)) && !verdict.partial
              && Excused(verdict.error, AllPieces(done + ChunkOf(line)), sink.refuse(sink.sent))
    ensures old(sink.sent) <= sink.sent
    ensures Heard(sink.refuse, sink.sent, |old(sink.sent)|,
                  |sink.sent| - if verdict.Broken? && !verdict.partial then 1 else 0)
  {
    match line
    case Skip =>
      assert done + [] == done;
      verdict := ReadOn;
    case DoneMarker =>
      verdict := AtEnd;
    case Unparsable(e) =>
      verdict := Broken(Failure(e.cause, "parse sse chunk: " + e.text), true);
    case Data(ch) =>
      if ch.error.Some? {
        verdict := Broken(Failure(OtherCause, "stream error from provider: " + ch.error.value), false);
      } else {
        var err := ApplyNext(a, ch, done, sink, before);
        verdict := if err.Some? then Broken(err.value, false) else ReadOn;
      }
  }

  lemma ChunksStep(lines: seq<Line>, done: seq<Chunk>, before: seq<Delta>)
    requires lines != []
    ensures if Stops(lines[0]) then done + Chunks(lines) == done
              else done + Chunks(lines) == (done + ChunkOf(lines[0])) + Chunks(lines[1..])
    ensures !Stops(lines[0]) ==>
              before + AllDeltas(done + ChunkOf(lines[0])) <= before + AllDeltas(done + Chunks(lines))
    ensures !Stops(lines[0]) ==> AllPieces(done + ChunkOf(lines[0])) <= AllPieces(done + Chunks(lines))
  {
    if !Stops(lines[0]) {
      var first, more := ChunkOf(lines[0]), Chunks(lines[1..]);
      Assoc(done, first, more);
      AllDeltasPrefix(done + first, more);
      GatherConcat(done + first, more, PiecesOf);
    }
  }

  // The line at which reading stops, if any does.
  function Stopper(lines: seq<Line>): Option<Line> {
    if lines == [] then None else if Stops(lines[0]) then Some(lines[0]) else Stopper(lines[1..])
  }

  // Reading stops at an end marker: at no payload that fails to parse and no error chunk.
  predicate Unspoiled(lines: seq<Line>) {
    Stopper(lines).None? || Stopper(lines).value.DoneMarker?
  }

  method ReadLines(lines: seq<Line>, a: StreamAccum, sink: Sink) returns (err: Option<Failure>, partial: bool)
    requires Aggregated(a, []) && !a.doneSeen
    modifies a, sink
    ensures sink.deltaSent - |sink.sent| == old(sink.deltaSent) - |old(sink.sent)|
    ensures err.None? || partial ==> Sent(a, sink, old(sink.sent), Chunks(lines))
    ensures err.None? ==> (a.doneSeen <==> Done(lines)) && Unspoiled(lines)
    ensures err.Some? ==> !err.value.cause.Unterminated?
    ensures err.Some? ==>
              if partial || !Excused(err.value, AllPieces(Chunks(lines)), sink.refuse(sink.sent))
              then !Unspoiled(lines) && err == Said(Stopper(lines).value)
                   && (partial <==> Stopper(lines).value.Unparsable?)
              else true
    ensures old(sink.sent) <= sink.sent <= old(sink.sent) + AllDeltas(Chunks(lines))
    ensures Heard(sink.refuse, sink.sent, |old(sink.sent)|, |sink.sent| - if err.None? || partial then 0 else 1)
  {
    var rest := lines;
    ghost var done: seq<Chunk> := [];
    ghost var before, all := sink.sent, Chunks(lines);
    assert before + [] == before && [] + all == all && Heard(sink.refuse, sink.sent, |before|, |before|);
    hide Aggregated, Excused, Heard, TakeAll, DeltasOf, PiecesOf;
    while rest != []
      invariant Sent(a, sink, before, done) && !a.doneSeen
      invariant sink.deltaSent - |sink.sent| == old(sink.deltaSent) - |before|
      invariant all == done + Chunks(rest)
      invariant (Done(lines) <==> Done(rest)) && Stopper(lines) == Stopper(rest)
      invariant Heard(sink.refuse, sink.sent, |before|, |sink.sent|)
      decreases |rest|
    {
      ChunksStep(rest, done, before);
      ghost var shown := sink.sent;
      var verdict := TakeLine(rest[0], a, sink, before, done);
      HeardOn(sink.refuse, shown, sink.sent, |before|,
          |sink.sent| - if verdict.Broken? && !verdict.partial then 1 else 0);
      match verdict
      case ReadOn =>
        done := done + ChunkOf(rest[0]);
        rest := rest[1..];
      case AtEnd =>
        a.doneSeen := true;
        return None, false;
      case Broken(e, kept) =>
        if !Stops(rest[0]) {
          ExcusedMore(e, AllPieces(done + ChunkOf(rest[0])), AllPieces(all), sink.refuse(sink.sent));
        }
        return Some(e), kept;
    }
    assert done + [] == done;
    return None, false;
  }

  // Why parsing fails, and what it hands back beside the failure: what arrived before a payload that
  // does not parse and before a dropped connection, and nothing otherwise.
  ghost predicate HasReason(err: Failure, res: Response, lines: seq<Line>, stop: Option<CallbackError>,
      refuse: seq<Delta> -> Option<CallbackError>, sent: seq<Delta>, from: nat)
    requires from <= |sent|
  {
    || (!Unspoiled(lines) && Some(err) == Said(Stopper(lines).value)
        && if Stopper(lines).value.Unparsable? then Faithful(res, sent[from..], Chunks(lines))
           else res == EMPTY_RESPONSE)
    || (Excused(err, AllPieces(Chunks(lines)), refuse(sent)) && res == EMPTY_RESPONSE)
    || (stop.Some? && Unspoiled(lines) && err == Failure(stop.value.cause, "read sse: " + stop.value.text)
        && res == EMPTY_RESPONSE)
    || (err == NO_CHOICES && stop.None? && Unspoiled(lines) && !Outcomes(Chunks(lines)).sawChoice
        && res == EMPTY_RESPONSE)
    || (err == UNTERMINATED && stop.None? && Unspoiled(lines) && !Done(lines) && !Silent(res)
        && Faithful(res, sent[from..], Chunks(lines)))
  }

  // Reading line by line.  The response is complete, or empty beside an error; beside a payload that
  // does not parse and beside the marker of a dropped connection it is what arrived before.
  method ParseSSE(wire: Wire, body: Body, sink: Sink) returns (res: Response, err: Option<Failure>)
    modifies sink
    ensures sink.deltaSent - |sink.sent| == old(sink.deltaSent) - |old(sink.sent)|
    ensures old(sink.sent) <= sink.sent <= old(sink.sent) + AllDeltas(Chunks(Classified(wire, body.lines)))
    ensures err.None? || err.value.cause.Unterminated? || res != EMPTY_RESPONSE
            ==> Faithful(res, sink.sent[|old(sink.sent)|..], Chunks(Classified(wire, body.lines)))
                && !res.truncatedStream
                && res.finishReason == Outcomes(Chunks(Classified(wire, body.lines))).finish
    ensures err.Some? ==>
              HasReason(err.value, res, Classified(wire, body.lines), body.stop, sink.refuse, sink.sent,
                |old(sink.sent)|)
    ensures err.None? ==>
              body.stop.None? && (Done(Classified(wire, body.lines)) || res.finishReason != "" || Silent(res))
    ensures err.None? ==>
              && Unspoiled(Classified(wire, body.lines))
              && Outcomes(Chunks(Classified(wire, body.lines))).sawChoice
    ensures err == Some(UNTERMINATED) ==>
              body.stop.None? && !Done(Classified(wire, body.lines)) && res.finishReason == "" && !Silent(res)
    ensures err.Some? && err.value.cause.Unterminated? ==> err == Some(UNTERMINATED)
    ensures Heard(sink.refuse, sink.sent, |old(sink.sent)|,
                  |sink.sent| - if err.None? || err == Some(UNTERMINATED) || res != EMPTY_RESPONSE then 0 else 1)
  {
    var acc := new StreamAccum();
    ghost var before := sink.sent;
    var failed, partial := ReadLines(Classified(wire, body.lines), acc, sink);
    Finishes(before, Chunks(Classified(wire, body.lines)));
    if failed.Some? {
      res := EMPTY_RESPONSE;
      if partial {
        res := Respond(acc);
      }
      return res, failed;
    }
    if body.stop.Some? {
      return EMPTY_RESPONSE, Some(Failure(body.stop.value.cause, "read sse: " + body.stop.value.text));
    }
    res := Respond(acc);
    NoCalls(acc.pieces, acc.Held());
    NothingSeen(Chunks(Classified(wire, body.lines)));
    if !acc.sawChoice && res.finishReason == "" && res.text == "" && |res.toolCalls| == 0 {
      return EMPTY_RESPONSE, Some(NO_CHOICES);
    }
    if !acc.doneSeen && res.finishReason == "" && (|acc.text| > 0 || |acc.reasoning| > 0 || |acc.callOrder| > 0) {
      return res, Some(UNTERMINATED);
    }
    err := None;
  }

  // Chunks without choices bring usage at most.
  lemma {:induction false} NothingSeen(chunks: seq<Chunk>)
    ensures !Outcomes(chunks).sawChoice ==>
              Outcomes(chunks).finish == "" && AllDeltas(chunks) == [] && AllPieces(chunks) == []
    decreases |chunks|
  {
    if chunks == [] {
    } else {
      NothingSeen(chunks[..|chunks|-1]);
    }
  }

  lemma NoCalls(pieces: seq<Piece>, m: Merged)
    requires TakeAll(pieces) == Some(m)
    ensures ToolCalls(m) == [] <==> m.order == []
  {
    AcceptedIff(pieces);
    SortedAscending(m.order);
    if m.order != [] {
      assert m.order[0] in m.order;
    }
  }

  // Nothing was received.
  predicate Silent(res: Response) {
    res.text == "" && res.reasoning == "" && res.toolCalls == []
  }

  lemma Finishes(before: seq<Delta>, done: seq<Chunk>)
    ensures (before + AllDeltas(done))[|before|..] == AllDeltas(done)
  {
  }

  // ---------------------------------------------------------------- DoStream

  const MAX_RETRIES := 2

  predicate ShouldRetryStatus(code: int) {
    code == 429 || code == 500 || code == 502 || code == 503 || code == 504
  }

  predicate Contains(s: string, part: string) {
    exists k :: 0 <= k <= |s| && IsAt(s, part, k)
  }

  predicate IsAt(s: string, part: string, k: nat)
    requires k <= |s|
  {
    part <= s[k..]
  }

  predicate IsTransient(f: Failure) {
    match f.cause
    case Cancelled => false
    case DeadlineExceeded => false
    case UnexpectedEOF => true
    case _ =>
      || "read sse:" <= f.text || Contains(f.text, "stream ended without any choices")
      || Contains(f.text, "unexpected end of JSON input")
  }

  // A read error and an answer without choices are worth another attempt, unless the context ended it.
  lemma WhatIsTransient(f: Failure)
    ensures IsTransient(Failure(f.cause, "read sse: " + f.text))
            <==> f.cause != Cancelled && f.cause != DeadlineExceeded
    ensures f.cause == UnexpectedEOF ==> IsTransient(f)
    ensures f.cause == Cancelled || f.cause == DeadlineExceeded ==> !IsTransient(f)
    ensures IsTransient(NO_CHOICES)
  {
    assert IsAt(NO_CHOICES.text, "stream ended without any choices", 0);
  }

  datatype Attempt =
    | TransportError(error: Failure)
    | Status(code: int, contextLength: bool, thinking: bool)
    | Streaming(body: Body)

  // What the context, the endpoint and the waits answer, attempt by attempt.
  datatype Endpoint = Endpoint(cancelled: nat -> Option<Failure>, attempt: nat -> Attempt, wait: nat -> Option<Failure>)

  const CONTEXT_LENGTH := Failure(OtherCause, "miniagent: context length exceeded")
  const THINKING_UNSUPPORTED := Failure(OtherCause, "miniagent: thinking unsupported")
  const BAD_STATUS := Failure(OtherCause, "llm returned an error status")

  function Deltas(wire: Wire, endpoint: Endpoint, n: nat): seq<Delta> {
    if endpoint.attempt(n).Streaming? then AllDeltas(Chunks(Classified(wire, endpoint.attempt(n).body.lines))) else []
  }

  // A success is complete, or relaxed by the provider's opt-in, or marked as truncated.
  predicate Accepted(res: Response, allowUnterminated: bool, done: bool) {
    if res.truncatedStream then res.finishReason == "length" && (res.text != "" || res.reasoning != "")
    else done || res.finishReason != "" || Silent(res) || allowUnterminated
  }

  // Worth another attempt, as far as the answer itself tells.
  predicate Retryable(a: Attempt) {
    match a
    case TransportError(_) => true
    case Status(code, contextLength, thinking) =>
      !((code == 400 || code == 413) && contextLength) && !(code == 400 && thinking) && ShouldRetryStatus(code)
    case Streaming(_) => true
  }

  // Nothing but the answer of attempt n itself, or what it streamed, ended the retries early.
  predicate GaveUp(endpoint: Endpoint, n: nat, err: Failure, silent: bool) {
    || n == MAX_RETRIES || endpoint.cancelled(n).Some? || endpoint.wait(n).Some? || !Retryable(endpoint.attempt(n))
    || (endpoint.attempt(n).Streaming? && !(silent && IsTransient(err)))
  }

  // The failure that an answer without a stream comes back as; None: after a wait it is tried again.
  ghost predicate Reports(endpoint: Endpoint, n: nat, err: Failure)
    requires endpoint.cancelled(n).None? && !endpoint.attempt(n).Streaming?
  {
    match endpoint.attempt(n)
    case TransportError(e) =>
      if n < 2 then endpoint.wait(n) == Some(err)
      else err == Failure(e.cause, "after 2 retries: llm request: " + e.text)
    case Status(code, contextLength, thinking) =>
      if contextLength && (code == 400 || code == 413) then err == CONTEXT_LENGTH
      else if thinking && code == 400 then err == THINKING_UNSUPPORTED
      else if n < 2 && code in {429, 500, 502, 503, 504} then endpoint.wait(n) == Some(err)
      else err == BAD_STATUS
  }

  // Parsing the body of attempt n failed like this, with the caller shown `sent` from `from` on.
  ghost predicate Fails(wire: Wire, body: Body, err: Failure, res: Response,
      refuse: seq<Delta> -> Option<CallbackError>, sent: seq<Delta>, from: nat)
    requires from <= |sent|
  {
    HasReason(err, res, Classified(wire, body.lines), body.stop, refuse, sent, from)
  }

  // A body's failure is reported when nothing makes the partial response acceptable.
  ghost predicate Lost(wire: Wire, body: Body, err: Failure, allowUnterminated: bool,
      refuse: seq<Delta> -> Option<CallbackError>, sent: seq<Delta>, from: nat)
    requires from <= |sent|
  {
    && !(allowUnterminated && err.cause.Unterminated?)
    && exists res :: Fails(wire, body, err, res, refuse, sent, from)
                     && !(|sent| > from && IsTransient(err) && (res.text != "" || res.reasoning != ""))
  }

  // A response is given out as truncated when a transient failure cut off what had been shown.
  ghost predicate CutOff(wire: Wire, body: Body, res: Response,
      refuse: seq<Delta> -> Option<CallbackError>, sent: seq<Delta>, from: nat)
    requires from <= |sent|
  {
    && |sent| > from && res.finishReason == "length" && (res.text != "" || res.reasoning != "")
    && exists err, finish :: IsTransient(err)
         && Fails(wire, body, err, res.(finishReason := finish, truncatedStream := false), refuse, sent, from)
  }

  // A stream is asked for again when it failed for a transient reason before anything was shown.
  ghost predicate CutEarly(wire: Wire, body: Body, refuse: seq<Delta> -> Option<CallbackError>, sent: seq<Delta>) {
    exists err, res :: IsTransient(err) && Fails(wire, body, err, res, refuse, sent, |sent|)
  }

  // Whatever happens on the way, the caller is only ever shown the deltas of one attempt, the last
  // one (n).  On success the deltas are, joined, the text and the reasoning of the response.
  method DoStream(wire: Wire, endpoint: Endpoint, allowUnterminated: bool, sink: Sink)
      returns (res: Response, err: Option<Failure>, ghost n: nat)
    modifies sink
    ensures n <= MAX_RETRIES
    ensures old(sink.sent) <= sink.sent <= old(sink.sent) + Deltas(wire, endpoint, n)
    ensures err.None? ==> endpoint.attempt(n).Streaming?
    ensures err.None? ==>
              Faithful(res, sink.sent[|old(sink.sent)|..], Chunks(Classified(wire, endpoint.attempt(n).body.lines)))
    ensures err.None? ==> Accepted(res, allowUnterminated, Done(Classified(wire, endpoint.attempt(n).body.lines)))
    ensures err.None? && !res.truncatedStream ==>
              res.finishReason == Outcomes(Chunks(Classified(wire, endpoint.attempt(n).body.lines))).finish
    ensures err.Some? ==> res == EMPTY_RESPONSE
    // it is retried just when that can help and cannot repeat anything
    ensures forall k :: 0 <= k < n ==>
              endpoint.cancelled(k).None? && endpoint.wait(k).None? && Retryable(endpoint.attempt(k))
    ensures err.Some? ==> GaveUp(endpoint, n, err.value, sink.sent == old(sink.sent))
    ensures forall k :: 0 <= k < n && endpoint.attempt(k).Streaming? ==>
              CutEarly(wire, endpoint.attempt(k).body, sink.refuse, old(sink.sent))
    // which failure comes back, and which response
    ensures endpoint.cancelled(n).Some? ==> err == endpoint.cancelled(n)
    ensures err.Some? && endpoint.cancelled(n).None? && !endpoint.attempt(n).Streaming? ==>
              Reports(endpoint, n, err.value)
    ensures err.Some? && endpoint.cancelled(n).None? && endpoint.attempt(n).Streaming? ==>
              || Lost(wire, endpoint.attempt(n).body, err.value, allowUnterminated, sink.refuse, sink.sent,
                      |old(sink.sent)|)
              || (n < MAX_RETRIES && err == endpoint.wait(n) && sink.sent == old(sink.sent)
                  && CutEarly(wire, endpoint.attempt(n).body, sink.refuse, sink.sent))
    ensures err.None? && res.truncatedStream ==>
              CutOff(wire, endpoint.attempt(n).body, res, sink.refuse, sink.sent, |old(sink.sent)|)
    ensures Heard(sink.refuse, sink.sent, |old(sink.sent)|, |sink.sent| - Refused(err))
  {
    hide HasReason, Excused, Chunks, Done, Outcomes, Silent, IsTransient, TakeAll, AllDeltas, TextOf, ReasoningOf;
    var attempt := 0;
    res, err, n := EMPTY_RESPONSE, None, 0;
    while attempt <= MAX_RETRIES
      invariant 0 <= attempt <= MAX_RETRIES && sink.sent == old(sink.sent)
      invariant forall k :: 0 <= k < attempt ==>
                endpoint.cancelled(k).None? && endpoint.wait(k).None? && Retryable(endpoint.attempt(k))
      invariant forall k :: 0 <= k < attempt && endpoint.attempt(k).Streaming? ==>
                CutEarly(wire, endpoint.attempt(k).body, sink.refuse, old(sink.sent))
      decreases MAX_RETRIES - attempt
    {
      n := attempt;
      if endpoint.cancelled(attempt).Some? {
        return EMPTY_RESPONSE, endpoint.cancelled(attempt), n;
      }
      sink.deltaSent := 0;
      match endpoint.attempt(attempt) {
      case TransportError(e) =>
        if attempt == MAX_RETRIES {
          return EMPTY_RESPONSE, Some(Failure(e.cause, "after 2 retries: llm request: " + e.text)), n;
        }
      case Status(code, contextLength, thinking) =>
        if (code == 400 || code == 413) && contextLength {
          return EMPTY_RESPONSE, Some(CONTEXT_LENGTH), n;
        }
        if code == 400 && thinking {
          return EMPTY_RESPONSE, Some(THINKING_UNSUPPORTED), n;
        }
        if !ShouldRetryStatus(code) || attempt == MAX_RETRIES {
          return EMPTY_RESPONSE, Some(BAD_STATUS), n;
        }
      case Streaming(body) =>
        var response, failure := ParseSSE(wire, body, sink);
        if failure.None? || (allowUnterminated && failure.value.cause.Unterminated?) {
          return response, None, n;
        }
        if !(sink.deltaSent == 0 && IsTransient(failure.value) && attempt < MAX_RETRIES) {
          if sink.deltaSent > 0 && IsTransient(failure.value) && (response.text != "" || response.reasoning != "") {
            return response.(finishReason := "length", truncatedStream := true), None, n;
          }
          return EMPTY_RESPONSE, failure, n;
        }
        assert Fails(wire, body, failure.value, response, sink.refuse, sink.sent, |sink.sent|);
      }
      if endpoint.wait(attempt).Some? {
        return EMPTY_RESPONSE, endpoint.wait(attempt), n;
      }
      attempt := attempt + 1;
    }
    assert false;
  }
}
