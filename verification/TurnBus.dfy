/** The turn event bus (cmd/miniagent/web_bus.go): one turn's NDJSON lines, kept for replay and fanned
    out to live subscribers.  Every operation runs under a mutex, so a concurrent run is a sequence of
    atomic actions. */
module TurnBus {
  import opened Seqs
  import opened Transcript
  import opened Decimal
  import opened Newlines

  const MAX_TURN_BUFFER_EVENTS := 20000
  const TURN_SUBCHAN_BUFFER := 256

  // A channel is open until the fan-out cuts a lagging subscriber or the turn's end closes it.
  datatype Fate = Open | Lagged | Ended

  // A subscriber's channel: the lines handed over at subscription (from line `start` of the turn on),
  // the lines received since, and the lines waiting in the channel.
  datatype Chan = Chan(start: nat, replay: seq<string>, taken: seq<string>, queue: seq<string>, fate: Fate) {
    function Seen(): seq<string> {
      replay + taken + queue
    }

    function Upto(): nat {
      start + |Seen()|
    }
  }

  // log is the history of all lines of the turn; finished is its length when `done` closed.  Channels
  // are named by their order of creation.
  datatype Bus = Bus(buf: seq<string>, dropped: nat, partial: string, subs: set<nat>, chans: seq<Chan>,
                     finished: Option<nat>, log: seq<string>)

  const IDLE := Bus([], 0, "", {}, [], None, [])

  datatype Action =
    | Write(payload: string)
    | Subscribe
    | Unsubscribe(ch: nat)
    | Receive(ch: nat)
    | Finish

  // ---------------------------------------------------------------- lines

  function Shown(lines: seq<string>): seq<string> {
    if lines == [] then []
    else (if |lines[0]| <= 1 then [] else [lines[0]]) + Shown(lines[1..])
  }

  lemma {:induction false} ShownConcat(a: seq<string>, b: seq<string>)
    ensures Shown(a + b) == Shown(a) + Shown(b)
    decreases |a|
  {
    if a == [] {
      assert a + b == b;
    } else {
      ShownConcat(a[1..], b);
      ConsConcat(a, b);
      Assoc(if |a[0]| <= 1 then [] else [a[0]], Shown(a[1..]), Shown(b));
    }
  }

  // ---------------------------------------------------------------- the operations on values

  function Keep(b: Bus, line: string): Bus {
    var buf := b.buf + [line];
    if |buf| > MAX_TURN_BUFFER_EVENTS
    then b.(buf := buf[1..], dropped := b.dropped + 1, log := b.log + [line])
    else b.(buf := buf, log := b.log + [line])
  }

  function Offer(c: Chan, line: string): Chan {
    if |c.queue| < TURN_SUBCHAN_BUFFER then c.(queue := c.queue + [line]) else c.(fate := Lagged)
  }

  function Fan(b: Bus, line: string): Bus {
    b.(chans := seq(|b.chans|, i requires 0 <= i < |b.chans| => if i in b.subs then Offer(b.chans[i], line)
        else b.chans[i]),
       subs := set i | i in b.subs && i < |b.chans| && |b.chans[i].queue| < TURN_SUBCHAN_BUFFER)
  }

  function Emit(b: Bus, line: string): Bus {
    if |line| <= 1 then b else Fan(Keep(b, line), line)
  }

  function EmitAll(b: Bus, lines: seq<string>): Bus
    decreases |lines|
  {
    if lines == [] then b else EmitAll(Emit(b, lines[0]), lines[1..])
  }

  function Written(b: Bus, payload: string): Bus {
    var bytes := b.partial + payload;
    EmitAll(b.(partial := Rest(bytes)), Lines(bytes))
  }

  function Subscribed(b: Bus): Bus {
    if b.finished.Some? then b
    else b.(chans := b.chans + [Chan(b.dropped, b.buf, [], [], Open)], subs := b.subs + {|b.chans|})
  }

  function Received(b: Bus, ch: nat): Bus {
    if ch < |b.chans| && b.chans[ch].queue != []
    then var c := b.chans[ch];
         b.(chans := b.chans[ch := c.(taken := c.taken + [c.queue[0]], queue := c.queue[1..])])
    else b
  }

  // close(done) a second time would panic; TurnRegistry shows that a turn is finished once.
  function Finished(b: Bus): Bus {
    if b.finished.Some? then b
    else b.(chans := seq(|b.chans|, i requires 0 <= i < |b.chans| => if i in b.subs then b.chans[i].(fate := Ended)
      else b.chans[i]),
            subs := {}, finished := Some(|b.log|))
  }

  function Next(b: Bus, a: Action): Bus {
    match a
    case Write(p) => Written(b, p)
    case Subscribe => Subscribed(b)
    case Unsubscribe(ch) => b.(subs := b.subs - {ch})
    case Receive(ch) => Received(b, ch)
    case Finish => Finished(b)
  }

  function Execution(actions: seq<Action>): Bus {
    if actions == [] then IDLE
    else Next(Execution(actions[..|actions|-1]), actions[|actions|-1])
  }

  // ---------------------------------------------------------------- the invariant

  // What a subscriber is given is a contiguous run of the turn's lines.
  predicate IsRun(c: Chan, log: seq<string>) {
    c.Upto() <= |log| && c.Seen() == log[c.start..c.Upto()]
  }

  predicate Accounted(b: Bus, c: Chan) {
    && IsRun(c, b.log)
    && |c.queue| <= TURN_SUBCHAN_BUFFER
    && (c.fate.Lagged? ==> c.Upto() < |b.log| && |c.taken| + |c.queue| >= TURN_SUBCHAN_BUFFER)
    && (c.fate.Ended? ==> b.finished == Some(c.Upto()))
  }

  predicate Buffered(b: Bus) {
    && |b.buf| == (if |b.log| < MAX_TURN_BUFFER_EVENTS then |b.log| else MAX_TURN_BUFFER_EVENTS)
    && b.dropped + |b.buf| == |b.log|
    && b.buf == b.log[b.dropped..]
  }

  // Every channel that a write will send on or close is open and has been given every line so far.
  predicate Attached(b: Bus) {
    forall i :: i in b.subs ==> i < |b.chans| && b.chans[i].fate.Open? && b.chans[i].Upto() == |b.log|
  }

  predicate Sound(b: Bus) {
    && Buffered(b)
    && Attached(b)
    && (forall i :: 0 <= i < |b.chans| ==> Accounted(b, b.chans[i]))
    && (b.finished.Some? ==> b.subs == {} && b.finished.value <= |b.log|)
  }

  // A channel the bus has not cut is one it still serves.
  predicate StillHeld(b: Bus, i: nat) {
    i < |b.chans| && (b.chans[i].fate.Open? ==> i in b.subs)
  }

  lemma OfferExtends(c: Chan, log: seq<string>, line: string)
    requires IsRun(c, log) && c.Upto() == |log| && |c.queue| < TURN_SUBCHAN_BUFFER
    ensures IsRun(Offer(c, line), log + [line]) && Offer(c, line).Upto() == |log| + 1
  {
    assert Offer(c, line).Seen() == c.Seen() + [line];
  }

  // A run of the log stays one when the log grows.
  lemma RunStays(c: Chan, log: seq<string>, line: string)
    requires IsRun(c, log)
    ensures IsRun(c, log + [line])
  {
    assert (log + [line])[c.start..c.Upto()] == log[c.start..c.Upto()];
  }

  lemma OfferSame(c: Chan, line: string)
    requires |c.queue| >= TURN_SUBCHAN_BUFFER
    ensures Offer(c, line).Seen() == c.Seen() && Offer(c, line).Upto() == c.Upto() && Offer(c, line).start == c.start
  {
  }

  lemma FanChannel(b: Bus, line: string, i: nat)
    requires Sound(b) && |line| > 1 && i < |b.chans|
    ensures Accounted(Emit(b, line), Emit(b, line).chans[i])
    ensures i in Emit(b, line).subs ==>
              Emit(b, line).chans[i].fate.Open? && Emit(b, line).chans[i].Upto() == |b.log| + 1
    ensures StillHeld(b, i) ==> StillHeld(Emit(b, line), i)
  {
    assert Accounted(b, b.chans[i]);
    assert Emit(b, line).log == b.log + [line];
    RunStays(b.chans[i], b.log, line);
    if i !in b.subs {
      assert Emit(b, line).chans[i] == b.chans[i];
    } else if |b.chans[i].queue| < TURN_SUBCHAN_BUFFER {
      OfferExtends(b.chans[i], b.log, line);
    } else {
      OfferSame(b.chans[i], line);
    }
  }

  lemma EmitSound(b: Bus, line: string)
    requires Sound(b)
    ensures Sound(Emit(b, line))
    ensures Emit(b, line).log == b.log + Shown([line])
    ensures |Emit(b, line).chans| == |b.chans| && Emit(b, line).finished == b.finished
    ensures Emit(b, line).partial == b.partial
    ensures forall i :: 0 <= i < |b.chans| && StillHeld(b, i) ==> StillHeld(Emit(b, line), i)
  {
    assert Shown([line]) == if |line| <= 1 then [] else [line];
    if |line| > 1 {
      forall i | 0 <= i < |b.chans|
        ensures Accounted(Emit(b, line), Emit(b, line).chans[i])
        ensures i in Emit(b, line).subs ==>
                  Emit(b, line).chans[i].fate.Open? && Emit(b, line).chans[i].Upto() == |b.log| + 1
        ensures StillHeld(b, i) ==> StillHeld(Emit(b, line), i)
      {
        FanChannel(b, line, i);
      }
    }
  }

  lemma NothingShown(b: Bus)
    ensures b.log + Shown([]) == b.log
  {
  }

  lemma {:induction false} EmitAllSound(b: Bus, lines: seq<string>)
    requires Sound(b)
    ensures Sound(EmitAll(b, lines))
    ensures EmitAll(b, lines).log == b.log + Shown(lines)
    ensures |EmitAll(b, lines).chans| == |b.chans| && EmitAll(b, lines).finished == b.finished
    ensures EmitAll(b, lines).partial == b.partial
    ensures forall i :: 0 <= i < |b.chans| && StillHeld(b, i) ==> StillHeld(EmitAll(b, lines), i)
    decreases |lines|
  {
    hide Emit, Sound, Accounted, Shown;
    if lines == [] {
      NothingShown(b);
    } else {
      EmitSound(b, lines[0]);
      EmitAllSound(Emit(b, lines[0]), lines[1..]);
      ShownConcat([lines[0]], lines[1..]);
      assert [lines[0]] + lines[1..] == lines;
    }
  }

  // ---------------------------------------------------------------- every interleaving

  predicate LeavesHeld(b: Bus, a: Action, i: nat) {
    i < |b.chans| && StillHeld(b, i) && a != Unsubscribe(i) ==> StillHeld(Next(b, a), i)
  }

  lemma WrittenSound(b: Bus, p: string)
    requires Sound(b)
    ensures Sound(Written(b, p)) && |Written(b, p).chans| == |b.chans|
    ensures Written(b, p).log == b.log + Shown(Lines(b.partial + p)) && Written(b, p).partial == Rest(b.partial + p)
    ensures forall i :: 0 <= i < |b.chans| ==> LeavesHeld(b, Write(p), i)
  {
    var bytes := b.partial + p;
    var start := b.(partial := Rest(bytes));
    forall i | 0 <= i < |b.chans| ensures Accounted(start, b.chans[i]) {
      assert Accounted(b, b.chans[i]);
    }
    EmitAllSound(start, Lines(bytes));
    forall i | 0 <= i < |b.chans| ensures LeavesHeld(b, Write(p), i) {
      assert StillHeld(b, i) ==> StillHeld(start, i);
    }
  }

  lemma SubscribedSound(b: Bus)
    requires Sound(b)
    ensures Sound(Subscribed(b))
  {
    forall i | 0 <= i < |Subscribed(b).chans| ensures Accounted(Subscribed(b), Subscribed(b).chans[i]) {
      if i < |b.chans| {
        assert Accounted(b, b.chans[i]);
      } else {
        assert Subscribed(b).chans[i].Seen() == b.buf;
      }
    }
  }

  lemma ReceivedSound(b: Bus, ch: nat)
    requires Sound(b)
    ensures Sound(Received(b, ch))
  {
    forall i | 0 <= i < |b.chans|
      ensures Accounted(Received(b, ch), Received(b, ch).chans[i])
      ensures Received(b, ch).chans[i].Upto() == b.chans[i].Upto()
    {
      assert Accounted(b, b.chans[i]);
      assert Received(b, ch).chans[i].Seen() == b.chans[i].Seen();
    }
  }

  lemma FinishedSound(b: Bus)
    requires Sound(b)
    ensures Sound(Finished(b))
  {
    if b.finished.None? {
      forall i | 0 <= i < |b.chans| ensures Accounted(Finished(b), Finished(b).chans[i]) {
        assert Accounted(b, b.chans[i]);
        assert Finished(b).chans[i].Seen() == b.chans[i].Seen();
      }
    }
  }

  lemma NextSound(b: Bus, a: Action)
    requires Sound(b)
    ensures Sound(Next(b, a))
  {
    match a
    case Write(p) => WrittenSound(b, p);
    case Subscribe => SubscribedSound(b);
    case Unsubscribe(ch) =>
      forall i | 0 <= i < |b.chans| ensures Accounted(Next(b, a), b.chans[i]) {
        assert Accounted(b, b.chans[i]);
      }
    case Receive(ch) => ReceivedSound(b, ch);
    case Finish => FinishedSound(b);
  }

  lemma NextHolds(b: Bus, a: Action, i: nat)
    requires Sound(b)
    ensures LeavesHeld(b, a, i)
    ensures |b.chans| <= i < |Next(b, a).chans| ==> StillHeld(Next(b, a), i)
    ensures !a.Write? ==> Next(b, a).log == b.log && Next(b, a).partial == b.partial
  {
    if a.Write? {
      WrittenSound(b, a.payload);
      assert i < |b.chans| ==> LeavesHeld(b, Write(a.payload), i);
    }
  }

  lemma {:induction false} ExecutionSound(actions: seq<Action>)
    ensures Sound(Execution(actions))
    decreases |actions|
  {
    if actions == [] {
    } else {
      ExecutionSound(actions[..|actions|-1]);
      NextSound(Execution(actions[..|actions|-1]), actions[|actions|-1]);
    }
  }

  lemma {:induction false} ExecutionHolds(actions: seq<Action>, i: nat)
    requires i < |Execution(actions).chans| && Unsubscribe(i) !in actions
    ensures StillHeld(Execution(actions), i)
    decreases |actions|
  {
    if actions == [] {
    } else {
      var before, a := actions[..|actions|-1], actions[|actions|-1];
      ExecutionSound(before);
      NextHolds(Execution(before), a, i);
      if i < |Execution(before).chans| {
        ExecutionHolds(before, i);
      }
    }
  }

  // In every interleaving of writes, subscriptions, receives, departures, cuts and the turn's end, a
  // subscriber that has not left is given one contiguous run of lines with no gap and no duplicate.
  // The run reaches the newest line while the channel is open, and the last line of the turn when
  // the turn's end closed it; a subscriber cut for lagging misses at least one line.
  lemma SubscriberGetsARun(actions: seq<Action>, i: nat)
    requires i < |Execution(actions).chans|
    ensures IsRun(Execution(actions).chans[i], Execution(actions).log)
    ensures Unsubscribe(i) !in actions && Execution(actions).chans[i].fate.Open?
            ==> Execution(actions).chans[i].Upto() == |Execution(actions).log| && Execution(actions).finished.None?
    ensures Execution(actions).chans[i].fate.Ended? ==>
              Execution(actions).finished == Some(Execution(actions).chans[i].Upto())
    ensures Execution(actions).chans[i].fate.Lagged? ==> Execution(actions).chans[i].Upto() < |Execution(actions).log|
    // and it is cut only once a whole buffer of lines was handed to it
    ensures Execution(actions).chans[i].fate.Lagged? ==>
              |Execution(actions).chans[i].taken| + |Execution(actions).chans[i].queue| >= TURN_SUBCHAN_BUFFER
  {
    ExecutionSound(actions);
    assert Accounted(Execution(actions), Execution(actions).chans[i]);
    if Unsubscribe(i) !in actions {
      ExecutionHolds(actions, i);
    }
  }

  function Last(actions: seq<Action>): Chan
    requires Execution(actions).chans != []
  {
    Execution(actions).chans[|Execution(actions).chans|-1]
  }

  // Whoever subscribes to a running turn is handed all of its lines, or the newest 20000 of them, and
  // is served from there on.
  lemma SubscriptionStart(actions: seq<Action>)
    requires Execution(actions).finished.None?
    ensures var b, after := Execution(actions), actions + [Subscribe];
            && |Execution(after).chans| == |b.chans| + 1 && |b.chans| in Execution(after).subs
            && Last(after).start == (if |b.log| <= MAX_TURN_BUFFER_EVENTS then 0 else |b.log| - MAX_TURN_BUFFER_EVENTS)
            && Last(after).replay == b.log[Last(after).start..]
            && Last(after).fate.Open? && Last(after).taken == [] && Last(after).queue == []
  {
    var after := actions + [Subscribe];
    assert after[..|after|-1] == actions && after[|after|-1] == Subscribe;
    ExecutionSound(actions);
    StepTo(actions, Subscribe);
  }

  lemma StepTo(actions: seq<Action>, a: Action)
    ensures Execution(actions + [a]) == Next(Execution(actions), a)
  {
    assert (actions + [a])[..|actions|] == actions;
  }

  // At the turn's end every channel still served is closed, and no other is touched.
  lemma EndClosesAll(actions: seq<Action>, i: nat)
    requires Execution(actions).finished.None? && i < |Execution(actions).chans|
    ensures var b, after := Execution(actions), Execution(actions + [Finish]);
            && after.subs == {} && after.finished == Some(|b.log|) && |after.chans| == |b.chans|
            && after.chans[i] == if i in b.subs then b.chans[i].(fate := Ended) else b.chans[i]
  {
    StepTo(actions, Finish);
  }

  // What is shown of the lines stands at the given places, in order: all but the empty lines.
  ghost predicate ShownAt(lines: seq<string>, shown: seq<string>, places: seq<nat>) {
    && |places| == |shown|
    && (forall a, b :: 0 <= a < b < |places| ==> places[a] < places[b])
    && (forall a :: 0 <= a < |places| ==>
          places[a] < |lines| && shown[a] == lines[places[a]] && lines[places[a]] != "\n")
    && (forall i :: 0 <= i < |lines| && lines[i] != "\n" ==> i in places)
  }

  // A line is part of the turn unless it is nothing but its newline.
  lemma {:induction false} ShownKeeps(lines: seq<string>) returns (places: seq<nat>)
    requires forall l :: l in lines ==> WholeLine(l)
    ensures ShownAt(lines, Shown(lines), places)
    decreases |lines|
  {
    if lines == [] {
      places := [];
    } else {
      hide ShownAt, WholeLine, Shown;
      var front, l := lines[..|lines|-1], lines[|lines|-1];
      assert forall x :: x in front ==> x in lines;
      places := ShownKeeps(front);
      assert lines == front + [l] && l in lines;
      ShownConcat(front, [l]);
      OneShown(l);
      assert Shown(lines) == if l == "\n" then Shown(front) else Shown(front) + [l];
      ShownMore(front, Shown(front), places, l);
      if l != "\n" {
        places := places + [|front|];
      }
    }
  }

  lemma ShownMore(lines: seq<string>, shown: seq<string>, places: seq<nat>, l: string)
    requires ShownAt(lines, shown, places)
    ensures l == "\n" ==> ShownAt(lines + [l], shown, places)
    ensures l != "\n" ==> ShownAt(lines + [l], shown + [l], places + [|lines|])
  {
    var all, more := lines + [l], places + [|lines|];
    if l != "\n" {
      forall i | 0 <= i < |all| && all[i] != "\n" ensures i in more {
        if i == |lines| {
          assert more[|places|] == i;
        } else {
          assert lines[i] == all[i];
          var a :| 0 <= a < |places| && places[a] == i;
          assert more[a] == i;
        }
      }
    }
  }

  lemma OneShown(l: string)
    requires WholeLine(l)
    ensures Shown([l]) == if l == "\n" then [] else [l]
  {
    assert [l][1..] == [];
    assert FirstNewline(l) == |l| - 1 && l[|l|-1] == '\n';
  }

  function Payload(actions: seq<Action>): string {
    if actions == [] then ""
    else Payload(actions[..|actions|-1]) + (match actions[|actions|-1] case Write(p) => p case _ => "")
  }

  // The lines of the turn depend on the bytes written and on nothing else: not on how they were cut
  // into writes, nor on what subscribers did in between.
  lemma {:induction false} LogIsTheStream(actions: seq<Action>)
    ensures Execution(actions).log == Shown(Lines(Payload(actions)))
    ensures Execution(actions).partial == Rest(Payload(actions))
    decreases |actions|
  {
    if actions == [] {
    } else {
      var before, a := actions[..|actions|-1], actions[|actions|-1];
      LogIsTheStream(before);
      ExecutionSound(before);
      NextHolds(Execution(before), a, 0);
      match a
      case Write(p) =>
        WrittenSound(Execution(before), p);
        LinesConcat(Payload(before), p);
        ShownConcat(Lines(Payload(before)), Lines(Execution(before).partial + p));
      case _ =>
        assert Payload(actions) == Payload(before);
    }
  }

  lemma {:induction false} EmitAllPartial(b: Bus, lines: seq<string>, partial: string)
    ensures EmitAll(b, lines).(partial := partial) == EmitAll(b.(partial := partial), lines)
    decreases |lines|
  {
    if lines == [] {
    } else {
      assert Emit(b, lines[0]).(partial := partial) == Emit(b.(partial := partial), lines[0]);
      EmitAllPartial(Emit(b, lines[0]), lines[1..], partial);
    }
  }

  lemma {:induction false} EmitAllConcat(b: Bus, p: seq<string>, q: seq<string>)
    ensures EmitAll(b, p + q) == EmitAll(EmitAll(b, p), q)
    decreases |p|
  {
    if p == [] {
      assert p + q == q;
    } else {
      EmitAllConcat(Emit(b, p[0]), p[1..], q);
      ConsConcat(p, q);
    }
  }

  // Splitting a payload over two writes changes nothing at all, channels included.
  lemma WriteSplits(b: Bus, p: string, q: string)
    ensures Written(Written(b, p), q) == Written(b, p + q)
  {
    var first := b.partial + p;
    var second := Rest(first) + q;
    Assoc(b.partial, p, q);
    LinesConcat(first, q);
    WrittenPartial(b, p, Rest(second));
    EmitAllConcat(b.(partial := Rest(second)), Lines(first), Lines(second));
  }

  lemma WrittenPartial(b: Bus, p: string, partial: string)
    ensures Written(b, p).partial == Rest(b.partial + p)
    ensures Written(b, p).(partial := partial) == EmitAll(b.(partial := partial), Lines(b.partial + p))
  {
    var bytes := b.partial + p;
    EmitAllPartial(b, Lines(bytes), Rest(bytes));
    EmitAllPartial(b, Lines(bytes), partial);
    assert Written(b, p) == EmitAll(b, Lines(bytes)).(partial := Rest(bytes));
  }

  // Taking the lines out of `partial` one at a time, as the loop of Write does.
  function Drained(b: Bus): Bus
    decreases |b.partial|
  {
    var i := FirstNewline(b.partial);
    if i == |b.partial| then b else Drained(Emit(b.(partial := b.partial[i+1..]), b.partial[..i+1]))
  }

  lemma DrainedStep(b: Bus)
    ensures var i := FirstNewline(b.partial);
            Drained(b) == if i == |b.partial| then b
                else Drained(Emit(b.(partial := b.partial[i+1..]), b.partial[..i+1]))
  {
  }

  lemma {:induction false} DrainedIsEmitAll(b: Bus)
    ensures Drained(b) == EmitAll(b.(partial := Rest(b.partial)), Lines(b.partial))
    decreases |b.partial|
  {
    hide Drained, Emit, EmitAll, Lines, Rest, FirstNewline;
    var i := FirstNewline(b.partial);
    DrainedStep(b);
    if i == |b.partial| {
      NoLine(b.partial);
      NothingToEmit(b);
    } else {
      EmitAllStep(b, b.partial[..i+1], b.partial[i+1..]);
      DrainedIsEmitAll(Emit(b.(partial := b.partial[i+1..]), b.partial[..i+1]));
    }
  }

  lemma NothingToEmit(b: Bus)
    ensures EmitAll(b.(partial := b.partial), []) == b
  {
  }

  lemma EmitAllStep(b: Bus, line: string, after: string)
    requires FirstNewline(b.partial) < |b.partial|
    requires line == b.partial[..FirstNewline(b.partial)+1] && after == b.partial[FirstNewline(b.partial)+1..]
    ensures Emit(b.(partial := after), line).partial == after
    ensures EmitAll(Emit(b.(partial := after), line).(partial := Rest(after)), Lines(after))
            == EmitAll(b.(partial := Rest(b.partial)), Lines(b.partial))
  {
    var start := b.(partial := Rest(after));
    var l, a := FirstLine(b.partial);
    assert Emit(b.(partial := after), line).(partial := Rest(after)) == Emit(start, line);
    EmitAllOne(start, line, Lines(after));
  }

  lemma EmitAllOne(b: Bus, line: string, lines: seq<string>)
    ensures EmitAll(b, [line] + lines) == EmitAll(Emit(b, line), lines)
  {
    assert ([line] + lines)[1..] == lines;
  }

  lemma DrainedIsWritten(b: Bus, p: string)
    ensures Drained(b.(partial := b.partial + p)) == Written(b, p)
  {
    DrainedIsEmitAll(b.(partial := b.partial + p));
  }

  lemma SetPartialSound(b: Bus, partial: string)
    requires Sound(b)
    ensures Sound(b.(partial := partial))
  {
    forall i | 0 <= i < |b.chans| ensures Accounted(b.(partial := partial), b.chans[i]) {
      assert Accounted(b, b.chans[i]);
    }
  }

  // ---------------------------------------------------------------- the entry

  // turnEntry.  Sending on or closing a channel that is already closed would panic; Valid() is what
  // rules that out, and the fan-out requires it of every channel it touches.
  class TurnEntry {
    var buf: seq<string>
    var dropped: nat
    var partial: string
    var subs: set<nat>
    var chans: seq<Chan>
    var finished: Option<nat>
    ghost var log: seq<string>

    ghost function View(): Bus
      reads this
    {
      Bus(buf, dropped, partial, subs, chans, finished, log)
    }

    ghost predicate Valid()
      reads this
    {
      Sound(View())
    }

    constructor ()
      ensures View() == IDLE && Valid()
    {
      buf, dropped, partial, subs, chans, finished, log := [], 0, "", {}, [], None, [];
    }

    // One line to every subscriber, in the arbitrary order of a map iteration.
    method FanOut(line: string)
      requires forall i :: i in subs ==> i < |chans| && chans[i].fate.Open?
      modifies `subs, `chans
      ensures View() == Fan(old(View()), line)
      // a subscriber with room gets the line, one without is cut, and nobody else is touched
      ensures |chans| == |old(chans)| && forall i :: 0 <= i < |chans| ==>
                if i !in old(subs) then chans[i] == old(chans)[i] && i !in subs
                else if |old(chans)[i].queue| < TURN_SUBCHAN_BUFFER
                then chans[i] == old(chans)[i].(queue := old(chans)[i].queue + [line]) && i in subs
                else chans[i] == old(chans)[i].(fate := Lagged) && i !in subs
    {
      var todo := subs;
      while todo != {}
        invariant todo <= subs <= old(subs) && |chans| == |old(chans)|
        invariant forall i ::
          i in subs <==> i in old(subs) && (i in todo || |old(chans)[i].queue| < TURN_SUBCHAN_BUFFER)
        invariant forall i :: 0 <= i < |chans| ==>
                  chans[i] == if i in old(subs) && i !in todo then Offer(old(chans)[i], line) else old(chans)[i]
        decreases |todo|
      {
        var ch :| ch in todo;
        var c := chans[ch];
        assert c.fate.Open?;
        if |c.queue| < TURN_SUBCHAN_BUFFER {
          chans := chans[ch := c.(queue := c.queue + [line])];
        } else {
          chans := chans[ch := c.(fate := Lagged)];
          subs := subs - {ch};
        }
        todo := todo - {ch};
      }
    }

    method Put(line: string)
      requires Valid()
      modifies this
      ensures Valid() && View() == Emit(old(View()), line)
      ensures partial == old(partial)
    {
      EmitSound(View(), line);
      if |line| <= 1 {
        return;
      }
      buf := buf + [line];
      log := log + [line];
      if |buf| > MAX_TURN_BUFFER_EVENTS {
        buf := buf[1..];
        dropped := dropped + 1;
      }
      assert View() == Keep(old(View()), line);
      FanOut(line);
    }

    // One complete line of `partial`, if there is one.
    method TakeLine() returns (more: bool)
      requires Valid()
      modifies this
      ensures Valid() && Drained(View()) == Drained(old(View()))
      ensures if more then |partial| < |old(partial)| else Drained(View()) == View()
    {
      hide Sound, Emit, Drained;
      var i := FirstNewline(partial);
      DrainedStep(View());
      if i == |partial| {
        return false;
      }
      var line := partial[..i+1];
      SetPartialSound(View(), partial[i+1..]);
      partial := partial[i+1..];
      Put(line);
      more := true;
    }

    method Write(p: string)
      requires Valid()
      modifies this
      ensures Valid() && View() == Written(old(View()), p)
    {
      SetPartialSound(View(), partial + p);
      partial := partial + p;
      DrainedIsWritten(old(View()), p);
      var more := true;
      while more
        invariant Valid() && Drained(View()) == Written(old(View()), p)
        invariant !more ==> Drained(View()) == View()
        decreases more, |partial|
      {
        more := TakeLine();
      }
    }

    // The replay names the number of evicted lines if there are any; with the retained lines it is
    // handed out together with a channel that carries on exactly where it ends.
    method Subscribe() returns (replay: seq<string>, ch: nat, ok: bool)
      requires Valid()
      modifies this
      ensures Valid() && View() == Subscribed(old(View()))
      ensures ok <==> old(finished).None?
      ensures ok ==> ch == |old(chans)| && ch in subs
      ensures ok ==> chans[ch].start == old(dropped) && chans[ch].replay == old(buf) && chans[ch].Upto() == |log|
      // all retained lines are handed out, behind a line that names how many were evicted, if any were
      ensures ok && old(dropped) == 0 ==> replay == old(buf)
      ensures ok && old(dropped) > 0 ==>
                replay == ["{\"type\":\"live_truncated\",\"dropped\":" + Itoa(old(dropped)) + "}\n"] + old(buf)
    {
      SubscribedSound(View());
      if finished.Some? {
        return [], 0, false;
      }
      ch := |chans|;
      chans := chans + [Chan(dropped, buf, [], [], Open)];
      subs := subs + {ch};
      replay := if dropped > 0 then ["{\"type\":\"live_truncated\",\"dropped\":" + Itoa(dropped) + "}\n"] else [];
      replay := replay + buf;
      ok := true;
    }

    method Leave(ch: nat)
      requires Valid()
      modifies `subs
      ensures Valid() && View() == Next(old(View()), Unsubscribe(ch)) && subs == old(subs) - {ch}
    {
      NextSound(View(), Unsubscribe(ch));
      subs := subs - {ch};
    }

    // A subscriber's receive: what is still queued can be read even after the channel was closed.
    method Take(ch: nat) returns (line: Option<string>)
      requires Valid()
      modifies `chans
      ensures Valid() && View() == Received(old(View()), ch)
      ensures line == if ch < |chans| && old(chans)[ch].queue != [] then Some(old(chans)[ch].queue[0]) else None
      ensures line.Some? ==> chans[ch].queue == old(chans)[ch].queue[1..]
    {
      ReceivedSound(View(), ch);
      line := None;
      if ch < |chans| && chans[ch].queue != [] {
        var c := chans[ch];
        line := Some(c.queue[0]);
        chans := chans[ch := c.(taken := c.taken + [c.queue[0]], queue := c.queue[1..])];
      }
    }

    // The second half of the registry's finish: every remaining channel is closed, then done.
    method Close()
      requires Valid() && finished.None?
      modifies `subs, `chans, `finished
      ensures Valid() && View() == Finished(old(View()))
      ensures subs == {} && finished == Some(|log|)
      ensures forall i :: i in old(subs) ==> i < |chans| && chans[i].fate.Ended?
    {
      ghost var b := View();
      FinishedSound(b);
      assert dropped + |buf| == |log|;
      CloseAll();
      finished := Some(dropped + |buf|);
      assert chans == Finished(b).chans;
      assert View() == Finished(b);
    }

    method CloseAll()
      requires forall i :: i in subs ==> i < |chans| && chans[i].fate.Open?
      modifies `subs, `chans
      ensures subs == {} && |chans| == |old(chans)|
      ensures forall i :: 0 <= i < |chans| ==>
                chans[i] == if i in old(subs) then old(chans)[i].(fate := Ended) else old(chans)[i]
    {
      while subs != {}
        invariant subs <= old(subs) && |chans| == |old(chans)|
        invariant forall i :: 0 <= i < |chans| ==>
                  chans[i] == if i in old(subs) && i !in subs then old(chans)[i].(fate := Ended) else old(chans)[i]
        decreases |subs|
      {
        var ch :| ch in subs;
        assert chans[ch].fate.Open?;
        chans := chans[ch := chans[ch].(fate := Ended)];
        subs := subs - {ch};
      }
    }
  }
}
