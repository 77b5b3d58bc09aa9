/** Concurrent edit calls under per-path locks (miniagent/tools/tool_edit.go: pathLocks, runEditFile):
    every interleaving of the calls' steps, for any number of calls. */
module EditLocks {
  import opened Transcript
  import opened Edit

  datatype EditCall = EditCall(path: string, edits: seq<EditOne>)

  // Where a call stands.  Lookup happens under the map's own mutex, locking the path's mutex after
  // it; between reading and writing the call works on its own copy.
  datatype Stage =
    | Idle
    | Waiting(lock: nat)
    | Locked(lock: nat, ticket: nat)
    | HasRead(lock: nat, ticket: nat, content: string)
    | Written(lock: nat, ticket: nat, wrote: bool)
    | Finished(wrote: bool)

  datatype Entry = Entry(call: nat, ticket: nat)

  // lockOf is the map of path locks (never shrunk); holder tells which call holds which lock; files
  // is the disk by cleaned path; log lists, per path, the edits written so far, with the number
  // (ticket) of their lock acquisition.
  datatype System = System(lockOf: map<string, nat>, holder: seq<Option<nat>>, stage: seq<Stage>,
                           files: map<string, string>, tickets: nat, log: map<string, seq<Entry>>)

  datatype Step =
    | Lookup(call: nat)
    | Acquire(call: nat)
    | Read(call: nat)
    | Write(call: nat)
    | GiveUp(call: nat)
    | Release(call: nat)

  // The calls, and the cleaning of paths: two spellings of one file take one lock.
  datatype Setting = Setting(calls: seq<EditCall>, clean: string -> string) {
    function Key(t: nat): string
      requires t < |calls|
    {
      clean(calls[t].path)
    }

    predicate Valid() {
      forall t :: 0 <= t < |calls| ==> AllWellFormed(calls[t].edits)
    }
  }

  function Initial(setting: Setting, files: map<string, string>): System {
    System(map[], [], seq(|setting.calls|, _ => Idle), files, 0, map[])
  }

  function Logged(s: System, key: string): seq<Entry> {
    if key in s.log then s.log[key] else []
  }

  function WithStage(s: System, t: nat, stage: Stage): System
    requires t < |s.stage|
  {
    s.(stage := s.stage[t := stage])
  }

  function LookedUp(s: System, t: nat, key: string): System
    requires t < |s.stage|
  {
    if key in s.lockOf then WithStage(s, t, Waiting(s.lockOf[key]))
    else WithStage(s, t, Waiting(|s.holder|)).(lockOf := s.lockOf[key := |s.holder|], holder := s.holder + [None])
  }

  function Acquired(s: System, t: nat, l: nat): System
    requires t < |s.stage|
  {
    if l < |s.holder| && s.holder[l].None?
    then WithStage(s, t, Locked(l, s.tickets)).(holder := s.holder[l := Some(t)], tickets := s.tickets + 1)
    else s
  }

  function DidRead(s: System, t: nat, key: string, l: nat, n: nat): System
    requires t < |s.stage|
  {
    if key in s.files && |s.files[key]| <= MAX_EDIT_FILE_BYTES then WithStage(s, t, HasRead(l, n, s.files[key]))
    else WithStage(s, t, Written(l, n, false))
  }

  function DidWrite(s: System, t: nat, key: string, e: Entry, l: nat, result: EditResult): System
    requires t < |s.stage|
  {
    var done := WithStage(s, t, Written(l, e.ticket, result.Edited?));
    if result.Edited? then done.(files := s.files[key := result.content], log := s.log[key := Logged(s, key) + [e]])
        else done
  }

  // A step that is not possible changes nothing.
  function Next(setting: Setting, s: System, step: Step): System
    requires setting.Valid() && |s.stage| == |setting.calls|
  {
    var t := step.call;
    if t >= |s.stage| then s
    else
      var key, stage := setting.Key(t), s.stage[t];
      match step
      case Lookup(_) => if stage.Idle? then LookedUp(s, t, key) else s
      case Acquire(_) => if stage.Waiting? then Acquired(s, t, stage.lock) else s
      case Read(_) => if stage.Locked? then DidRead(s, t, key, stage.lock, stage.ticket) else s
      case Write(_) =>
        if stage.HasRead? then DidWrite(s, t, key, Entry(t, stage.ticket), stage.lock,
            EditAll(stage.content, setting.calls[t].edits)) else s
      case GiveUp(_) =>
        // Refused before any lock is taken, or reading or writing fails: the file is as it was.
        if stage.Idle? then WithStage(s, t, Finished(false))
        else if stage.Locked? || stage.HasRead? then WithStage(s, t, Written(stage.lock, stage.ticket, false))
        else s
      case Release(_) =>
        if stage.Written? && stage.lock < |s.holder|
            then WithStage(s, t, Finished(stage.wrote)).(holder := s.holder[stage.lock := None]) else s
  }

  function Run(setting: Setting, files: map<string, string>, steps: seq<Step>): (s: System)
    requires setting.Valid()
    ensures |s.stage| == |setting.calls|
  {
    if steps == [] then Initial(setting, files)
    else Next(setting, Run(setting, files, steps[..|steps|-1]), steps[|steps|-1])
  }

  // ---------------------------------------------------------------- the invariant

  // The edits of a log, applied one after the other to a content; None if one of them is refused.
  function Replay(setting: Setting, content: string, log: seq<Entry>): Option<string>
    requires setting.Valid()
  {
    if log == [] then Some(content)
    else
      var e := log[|log|-1];
      match Replay(setting, content, log[..|log|-1])
      case None => None
      case Some(before) =>
        if e.call >= |setting.calls| then None
        else match EditAll(before, setting.calls[e.call].edits)
          case Edited(after, _) => Some(after)
          case Refused(_, _) => None
  }

  predicate InSection(stage: Stage) {
    stage.Locked? || stage.HasRead? || stage.Written?
  }

  // Different paths have different locks.
  predicate LockMap(s: System) {
    && (forall k :: k in s.lockOf ==> s.lockOf[k] < |s.holder|)
    && (forall j, k :: j in s.lockOf && k in s.lockOf && s.lockOf[j] == s.lockOf[k] ==> j == k)
  }

  // A call that waits for or holds a lock means its own path's lock; the holder of a lock is the one
  // call inside its critical section.
  predicate Placed(setting: Setting, s: System, t: nat)
    requires |s.stage| == |setting.calls| && t < |s.stage|
  {
    && (!s.stage[t].Idle? && !s.stage[t].Finished? ==>
        setting.Key(t) in s.lockOf && s.stage[t].lock == s.lockOf[setting.Key(t)])
    && (InSection(s.stage[t]) ==>
        s.stage[t].lock < |s.holder| && s.holder[s.stage[t].lock] == Some(t) && s.stage[t].ticket < s.tickets)
  }

  // Whoever holds a lock is inside the section it protects.
  predicate Held(s: System, l: nat)
    requires l < |s.holder|
  {
    match s.holder[l]
    case None => true
    case Some(t) => t < |s.stage| && InSection(s.stage[t]) && s.stage[t].lock == l
  }

  predicate Locking(setting: Setting, s: System) {
    && |s.stage| == |setting.calls|
    && LockMap(s)
    && (forall l :: 0 <= l < |s.holder| ==> Held(s, l))
    && (forall t :: 0 <= t < |s.stage| ==> Placed(setting, s, t))
  }

  // What a call has read is what the file still holds.
  predicate Current(setting: Setting, s: System)
    requires |s.stage| == |setting.calls|
  {
    forall t :: 0 <= t < |s.stage| && s.stage[t].HasRead? ==>
        setting.Key(t) in s.files && s.files[setting.Key(t)] == s.stage[t].content
  }

  // Each file is its first content with the logged edits applied in order.
  ghost predicate Replayed(setting: Setting, first: map<string, string>, s: System)
    requires setting.Valid()
  {
    && s.files.Keys == first.Keys
    && (forall k :: k in first ==> Replay(setting, first[k], Logged(s, k)) == Some(s.files[k]))
  }

  // Log entries stand in the order of lock acquisition ...
  predicate Rising(log: seq<Entry>, bound: nat) {
    && (forall i, j :: 0 <= i < j < |log| ==> log[i].ticket < log[j].ticket)
    && (forall i :: 0 <= i < |log| ==> log[i].ticket < bound)
  }

  // ... before whoever holds the path's lock now and may still write.
  predicate Later(setting: Setting, s: System, t: nat)
    requires |s.stage| == |setting.calls| && t < |s.stage|
  {
    s.stage[t].Locked? || s.stage[t].HasRead? ==> Rising(Logged(s, setting.Key(t)), s.stage[t].ticket)
  }

  predicate Ordered(setting: Setting, s: System)
    requires |s.stage| == |setting.calls|
  {
    && (forall k :: k in s.log ==> Rising(s.log[k], s.tickets))
    && (forall t :: 0 <= t < |s.stage| ==> Later(setting, s, t))
  }

  lemma PlacedKept(setting: Setting, s: System, step: Step, t: nat)
    requires setting.Valid() && Locking(setting, s) && t < |s.stage|
    ensures Placed(setting, Next(setting, s, step), t)
  {
    if t == step.call {
      OwnPlaceKept(setting, s, step);
    } else {
      OthersPlaceKept(setting, s, step, t);
    }
  }

  lemma OwnPlaceKept(setting: Setting, s: System, step: Step)
    requires setting.Valid() && Locking(setting, s) && step.call < |s.stage|
    ensures Placed(setting, Next(setting, s, step), step.call)
  {
    hide EditAll, Held, Logged, AllWellFormed;
    assert Placed(setting, s, step.call);
  }

  lemma OthersPlaceKept(setting: Setting, s: System, step: Step, t: nat)
    requires setting.Valid() && Locking(setting, s) && t < |s.stage| && t != step.call
    ensures Placed(setting, Next(setting, s, step), t)
  {
    hide Next;
    StepOnOthers(setting, s, step, t);
    assert Placed(setting, s, t);
  }

  // A step takes only a lock that is free, and frees only the lock its own call holds.
  lemma StepOnOthers(setting: Setting, s: System, step: Step, t: nat)
    requires setting.Valid() && Locking(setting, s) && t < |s.stage| && t != step.call
    ensures var after := Next(setting, s, step);
            && |after.stage| == |s.stage| && after.stage[t] == s.stage[t] && after.tickets >= s.tickets
            && (forall k :: k in s.lockOf ==> k in after.lockOf && after.lockOf[k] == s.lockOf[k])
            && |after.holder| >= |s.holder|
            && (forall l :: 0 <= l < |s.holder| && s.holder[l] == Some(t) ==> after.holder[l] == Some(t))
  {
    hide EditAll, Held, Logged, AllWellFormed;
    if step.call < |s.stage| {
      assert Placed(setting, s, step.call);
    }
  }

  lemma HeldKept(setting: Setting, s: System, step: Step, l: nat)
    requires setting.Valid() && Locking(setting, s) && l < |Next(setting, s, step).holder|
    ensures Held(Next(setting, s, step), l)
  {
    hide EditAll, LockMap, Logged, AllWellFormed;
    assert l < |s.holder| ==> Held(s, l);
    if step.call < |s.stage| {
      assert Placed(setting, s, step.call);
    }
  }

  lemma LockMapKept(setting: Setting, s: System, step: Step)
    requires setting.Valid() && Locking(setting, s)
    ensures LockMap(Next(setting, s, step)) && |s.holder| <= |Next(setting, s, step).holder|
  {
    hide EditAll, AllWellFormed, Held;
  }

  lemma LockingKept(setting: Setting, s: System, step: Step)
    requires setting.Valid() && Locking(setting, s)
    ensures Locking(setting, Next(setting, s, step))
  {
    LockMapKept(setting, s, step);
    forall t | 0 <= t < |s.stage| ensures Placed(setting, Next(setting, s, step), t) {
      PlacedKept(setting, s, step, t);
    }
    forall l | 0 <= l < |Next(setting, s, step).holder| ensures Held(Next(setting, s, step), l) {
      HeldKept(setting, s, step, l);
    }
  }

  // Two calls for one path are not both inside the critical section.
  lemma Exclusive(setting: Setting, s: System, t: nat, u: nat)
    requires Locking(setting, s) && t < |s.stage| && u < |s.stage|
    requires InSection(s.stage[t]) && InSection(s.stage[u]) && setting.Key(t) == setting.Key(u)
    ensures t == u
  {
    assert Placed(setting, s, t) && Placed(setting, s, u);
  }

  lemma OnlyWrites(setting: Setting, s: System, step: Step)
    requires setting.Valid() && Locking(setting, s)
    ensures !(step.Write? && step.call < |s.stage| && s.stage[step.call].HasRead?)
            ==> Next(setting, s, step).files == s.files && Next(setting, s, step).log == s.log
    ensures forall u :: 0 <= u < |s.stage| && u != step.call ==> Next(setting, s, step).stage[u] == s.stage[u]
  {
  }

  lemma CurrentKept(setting: Setting, s: System, step: Step)
    requires setting.Valid() && Locking(setting, s) && Current(setting, s)
    ensures Current(setting, Next(setting, s, step))
  {
    var t, after := step.call, Next(setting, s, step);
    OnlyWrites(setting, s, step);
    forall u | 0 <= u < |s.stage| && after.stage[u].HasRead?
      ensures setting.Key(u) in after.files && after.files[setting.Key(u)] == after.stage[u].content
    {
      if u != t && t < |s.stage| && s.stage[t].HasRead? && setting.Key(t) == setting.Key(u) {
        Exclusive(setting, s, t, u);
      }
    }
  }

  lemma RisingGrows(log: seq<Entry>, bound: nat, e: Entry, next: nat)
    requires Rising(log, bound) && bound <= e.ticket < next
    ensures Rising(log + [e], next)
  {
  }

  lemma LaterKept(setting: Setting, s: System, step: Step, u: nat)
    requires setting.Valid() && Locking(setting, s) && Ordered(setting, s) && u < |s.stage|
    ensures Later(setting, Next(setting, s, step), u)
  {
    hide EditAll, AllWellFormed, Held, LockMap;
    var t := step.call;
    assert Later(setting, s, u) && Placed(setting, s, u);
    if u != t && t < |s.stage| && InSection(s.stage[t]) && InSection(s.stage[u]) && setting.Key(t) == setting.Key(u) {
      Exclusive(setting, s, t, u);
    }
  }

  lemma OrderedKept(setting: Setting, s: System, step: Step)
    requires setting.Valid() && Locking(setting, s) && Ordered(setting, s)
    ensures Ordered(setting, Next(setting, s, step))
  {
    var t, after := step.call, Next(setting, s, step);
    forall k | k in after.log ensures Rising(after.log[k], after.tickets) {
      if t < |s.stage| && s.stage[t].HasRead? && k == setting.Key(t) && step.Write? {
        assert Later(setting, s, t) && Placed(setting, s, t);
        RisingGrows(Logged(s, k), s.stage[t].ticket, Entry(t, s.stage[t].ticket), s.tickets);
      }
    }
    forall u | 0 <= u < |s.stage| ensures Later(setting, after, u) {
      LaterKept(setting, s, step, u);
    }
  }

  lemma ReplaySnoc(setting: Setting, content: string, log: seq<Entry>, e: Entry)
    requires setting.Valid() && e.call < |setting.calls|
    requires Replay(setting, content, log).Some?
    ensures Replay(setting, content, log + [e])
            == match EditAll(Replay(setting, content, log).value, setting.calls[e.call].edits)
               case Edited(after, _) => Some(after)
               case Refused(_, _) => None
  {
    assert (log + [e])[..|log|] == log;
  }

  lemma ReplayedKept(setting: Setting, first: map<string, string>, s: System, step: Step)
    requires setting.Valid() && Locking(setting, s) && Current(setting, s) && Replayed(setting, first, s)
    ensures Replayed(setting, first, Next(setting, s, step))
  {
    OnlyWrites(setting, s, step);
    if step.Write? && step.call < |s.stage| && s.stage[step.call].HasRead? {
      WriteReplayed(setting, first, s, step.call);
    }
  }

  lemma WriteReplayed(setting: Setting, first: map<string, string>, s: System, t: nat)
    requires setting.Valid() && Locking(setting, s) && Current(setting, s) && Replayed(setting, first, s)
    requires t < |s.stage| && s.stage[t].HasRead?
    ensures Replayed(setting, first, Next(setting, s, Write(t)))
  {
    var key, e := setting.Key(t), Entry(t, s.stage[t].ticket);
    assert s.files[key] == s.stage[t].content;
    ReplaySnoc(setting, first[key], Logged(s, key), e);
  }

  // In every interleaving, also of calls that fail or give up, no update is lost: each file is what
  // it was at first with the successful edit lists applied one after the other, each to the result of
  // the one before, in the order in which the calls took the path's lock.
  lemma {:induction false} NoLostUpdate(setting: Setting, files: map<string, string>, steps: seq<Step>)
    requires setting.Valid()
    ensures Locking(setting, Run(setting, files, steps)) && Current(setting, Run(setting, files, steps))
    ensures Ordered(setting, Run(setting, files, steps))
    ensures Replayed(setting, files, Run(setting, files, steps))
    decreases |steps|
  {
    if steps == [] {
    } else {
      var before, step := Run(setting, files, steps[..|steps|-1]), steps[|steps|-1];
      NoLostUpdate(setting, files, steps[..|steps|-1]);
      LockingKept(setting, before, step);
      CurrentKept(setting, before, step);
      OrderedKept(setting, before, step);
      ReplayedKept(setting, files, before, step);
    }
  }

  // ---------------------------------------------------------------- one entry a write

  predicate Wrote(stage: Stage) {
    (stage.Written? || stage.Finished?) && stage.wrote
  }

  predicate EntryAt(s: System, key: string, i: int, t: nat) {
    0 <= i < |Logged(s, key)| && Logged(s, key)[i].call == t
  }

  // The log names the call exactly if its write succeeded: once, under its own path.
  ghost predicate Recorded(setting: Setting, s: System, t: nat)
    requires |s.stage| == |setting.calls| && t < |s.stage|
  {
    && (forall key, i :: EntryAt(s, key, i, t) ==> key == setting.Key(t) && Wrote(s.stage[t]))
    && (forall i, j :: EntryAt(s, setting.Key(t), i, t) && EntryAt(s, setting.Key(t), j, t) ==> i == j)
    && (Wrote(s.stage[t]) ==> exists i :: EntryAt(s, setting.Key(t), i, t))
  }

  ghost predicate AllRecorded(setting: Setting, s: System)
    requires |s.stage| == |setting.calls|
  {
    forall t :: 0 <= t < |s.stage| ==> Recorded(setting, s, t)
  }

  lemma LoggedAfter(setting: Setting, s: System, step: Step)
    requires setting.Valid() && |s.stage| == |setting.calls|
    ensures var t, after := step.call, Next(setting, s, step);
            if step.Write? && t < |s.stage| && s.stage[t].HasRead? && Wrote(after.stage[t])
            then forall key :: Logged(after, key) == if key == setting.Key(t)
              then Logged(s, key) + [Entry(t, s.stage[t].ticket)] else Logged(s, key)
            else after.log == s.log && forall u :: 0 <= u < |s.stage| ==> Wrote(after.stage[u]) == Wrote(s.stage[u])
  {
  }

  lemma RecordedKept(setting: Setting, s: System, step: Step, u: nat)
    requires setting.Valid() && |s.stage| == |setting.calls| && u < |s.stage| && Recorded(setting, s, u)
    ensures Recorded(setting, Next(setting, s, step), u)
  {
    var t, after, mine := step.call, Next(setting, s, step), setting.Key(u);
    LoggedAfter(setting, s, step);
    if step.Write? && t < |s.stage| && s.stage[t].HasRead? && Wrote(after.stage[t]) {
      EntriesAfter(setting, s, after, t, u);
      assert u == t ==> EntryAt(after, mine, |Logged(s, mine)|, u);
      if i :| EntryAt(s, mine, i, u) {
        assert EntryAt(after, mine, i, u);
      }
    } else {
      assert forall key, i :: EntryAt(after, key, i, u) <==> EntryAt(s, key, i, u);
    }
  }

  lemma EntriesAfter(setting: Setting, s: System, after: System, t: nat, u: nat)
    requires t < |setting.calls| && t < |s.stage| && s.stage[t].HasRead?
    requires forall key :: Logged(after, key) ==
               if key == setting.Key(t) then Logged(s, key) + [Entry(t, s.stage[t].ticket)] else Logged(s, key)
    ensures forall key, i :: EntryAt(after, key, i, u) <==>
              EntryAt(s, key, i, u) || (key == setting.Key(t) && i == |Logged(s, key)| && u == t)
  {
  }

  lemma {:induction false} EveryWriteIsLogged(setting: Setting, files: map<string, string>, steps: seq<Step>)
    requires setting.Valid()
    ensures AllRecorded(setting, Run(setting, files, steps))
    decreases |steps|
  {
    if steps == [] {
    } else {
      var before, step := Run(setting, files, steps[..|steps|-1]), steps[|steps|-1];
      EveryWriteIsLogged(setting, files, steps[..|steps|-1]);
      forall t | 0 <= t < |before.stage| ensures Recorded(setting, Next(setting, before, step), t) {
        RecordedKept(setting, before, step, t);
      }
    }
  }

  // ---------------------------------------------------------------- the size limit, and why a call fails

  // Only contents within the limit are read for editing, and what is written is within it again.
  ghost predicate Fits(setting: Setting, first: map<string, string>, s: System)
    requires |s.stage| == |setting.calls|
  {
    && (forall t :: 0 <= t < |s.stage| && s.stage[t].HasRead? ==> |s.stage[t].content| <= 10485760)
    && (forall k :: k in first && Logged(s, k) != [] ==>
          |first[k]| <= 10485760 && k in s.files && |s.files[k]| <= 10485760)
  }

  lemma WriteFits(setting: Setting, first: map<string, string>, s: System, t: nat)
    requires setting.Valid() && Locking(setting, s) && Current(setting, s) && Replayed(setting, first, s)
    requires Fits(setting, first, s) && t < |s.stage| && s.stage[t].HasRead?
    ensures Fits(setting, first, Next(setting, s, Write(t)))
  {
    var key := setting.Key(t);
    EditsKeepLimit(s.stage[t].content, setting.calls[t].edits);
    assert Logged(s, key) == [] ==> Replay(setting, first[key], []) == Some(first[key]);
  }

  lemma FitsKept(setting: Setting, first: map<string, string>, s: System, step: Step)
    requires setting.Valid() && Locking(setting, s) && Current(setting, s) && Replayed(setting, first, s)
    requires Fits(setting, first, s)
    ensures Fits(setting, first, Next(setting, s, step))
  {
    if step.Write? && step.call < |s.stage| && s.stage[step.call].HasRead? {
      WriteFits(setting, first, s, step.call);
    } else {
      OnlyWrites(setting, s, step);
    }
  }

  // In every interleaving a file that was edited was within the limit before, and is within it.
  lemma {:induction false} EditedFilesFit(setting: Setting, files: map<string, string>, steps: seq<Step>)
    requires setting.Valid()
    ensures Fits(setting, files, Run(setting, files, steps))
    decreases |steps|
  {
    hide Fits;
    if steps == [] {
      NothingEdited(setting, files);
    } else {
      var front := steps[..|steps|-1];
      EditedFilesFit(setting, files, front);
      NoLostUpdate(setting, files, front);
      FitsKept(setting, files, Run(setting, files, front), steps[|steps|-1]);
    }
  }

  lemma NothingEdited(setting: Setting, files: map<string, string>)
    ensures Fits(setting, files, Initial(setting, files))
  {
  }

  // After the first k logged edits the file was too large for the call, or its edits did not apply.
  ghost predicate RefusedAt(setting: Setting, first: map<string, string>, s: System, t: nat, k: nat)
    requires setting.Valid() && t < |setting.calls|
  {
    var key := setting.Key(t);
    && key in first && k <= |Logged(s, key)|
    && match Replay(setting, first[key], Logged(s, key)[..k])
       case None => false
       case Some(content) => |content| > 10485760 || EditAll(content, setting.calls[t].edits).Refused?
  }

  ghost predicate HasReason(setting: Setting, first: map<string, string>, s: System, t: nat)
    requires setting.Valid() && t < |setting.calls|
  {
    setting.Key(t) !in first || exists k: nat :: RefusedAt(setting, first, s, t, k)
  }

  // A call that is done and has not written gave up, or has a reason.
  ghost predicate Explained(setting: Setting, first: map<string, string>, steps: seq<Step>, s: System, t: nat)
    requires setting.Valid() && |s.stage| == |setting.calls| && t < |setting.calls|
  {
    (s.stage[t].Written? || s.stage[t].Finished?) && !s.stage[t].wrote ==>
      GiveUp(t) in steps || HasReason(setting, first, s, t)
  }

  lemma LogGrows(setting: Setting, s: System, step: Step, key: string)
    requires setting.Valid() && |s.stage| == |setting.calls|
    ensures Logged(s, key) <= Logged(Next(setting, s, step), key)
  {
    LoggedAfter(setting, s, step);
  }

  lemma ReasonKept(setting: Setting, first: map<string, string>, s: System, step: Step, t: nat)
    requires setting.Valid() && |s.stage| == |setting.calls| && t < |s.stage| && HasReason(setting, first, s, t)
    ensures HasReason(setting, first, Next(setting, s, step), t)
  {
    hide Next, Replay, EditAll;
    var key := setting.Key(t);
    if key in first {
      var k: nat :| RefusedAt(setting, first, s, t, k);
      LogGrows(setting, s, step, key);
      assert Logged(Next(setting, s, step), key)[..k] == Logged(s, key)[..k];
      assert RefusedAt(setting, first, Next(setting, s, step), t, k);
    }
  }

  // A call fails at reading or writing only for a reason.
  lemma FailsNow(setting: Setting, first: map<string, string>, s: System, step: Step)
    requires setting.Valid() && Locking(setting, s) && Current(setting, s) && Replayed(setting, first, s)
    requires step.call < |s.stage| && !step.GiveUp? && !step.Release?
    requires !s.stage[step.call].Written? && !s.stage[step.call].Finished?
    ensures var after := Next(setting, s, step);
            after.stage[step.call].Written? && !after.stage[step.call].wrote ==>
                HasReason(setting, first, after, step.call)
  {
    var t, after := step.call, Next(setting, s, step);
    if after.stage[t].Written? && !after.stage[t].wrote && setting.Key(t) in first {
      var log := Logged(s, setting.Key(t));
      assert after.log == s.log && log[..|log|] == log;
      assert RefusedAt(setting, first, after, t, |log|);
    }
  }

  lemma ExplainedKept(setting: Setting, first: map<string, string>, before: seq<Step>, s: System, step: Step, t: nat)
    requires setting.Valid() && Locking(setting, s) && Current(setting, s) && Replayed(setting, first, s)
    requires t < |s.stage| == |setting.calls| && Explained(setting, first, before, s, t)
    ensures Explained(setting, first, before + [step], Next(setting, s, step), t)
  {
    hide HasReason, Locking, Current, Replayed, EditAll, Logged, AllWellFormed, Replay;
    if HasReason(setting, first, s, t) {
      ReasonKept(setting, first, s, step, t);
    } else if step.call == t && !s.stage[t].Written? && !s.stage[t].Finished? && !step.GiveUp? && !step.Release? {
      FailsNow(setting, first, s, step);
    }
  }

  // In every interleaving a call that has not written has given up, or its file was missing, or there
  // was a moment, after some of the logged edits, at which the file was too large or refused its edits.
  lemma {:induction false} FailsForAReason(setting: Setting, files: map<string, string>, steps: seq<Step>)
    requires setting.Valid()
    ensures forall t :: 0 <= t < |setting.calls| ==>
              Explained(setting, files, steps, Run(setting, files, steps), t)
    decreases |steps|
  {
    hide Explained;
    if steps == [] {
      NothingFailed(setting, files);
    } else {
      var front, step := steps[..|steps|-1], steps[|steps|-1];
      assert steps == front + [step];
      FailsForAReason(setting, files, front);
      NoLostUpdate(setting, files, front);
      forall t | 0 <= t < |setting.calls|
        ensures Explained(setting, files, steps, Run(setting, files, steps), t)
      {
        ExplainedKept(setting, files, front, Run(setting, files, front), step, t);
      }
    }
  }

  lemma NothingFailed(setting: Setting, files: map<string, string>)
    requires setting.Valid()
    ensures forall t :: 0 <= t < |setting.calls| ==> Explained(setting, files, [], Initial(setting, files), t)
  {
  }

  // ---------------------------------------------------------------- progress

  function Rank(stage: Stage): nat {
    match stage
    case Idle => 5
    case Waiting(_) => 4
    case Locked(_, _) => 3
    case HasRead(_, _, _) => 2
    case Written(_, _, _) => 1
    case Finished(_) => 0
  }

  function Left(stages: seq<Stage>): nat {
    if stages == [] then 0 else Left(stages[..|stages|-1]) + Rank(stages[|stages|-1])
  }

  lemma {:induction false} LeftUpdate(stages: seq<Stage>, t: nat, stage: Stage)
    requires t < |stages|
    ensures Left(stages[t := stage]) + Rank(stages[t]) == Left(stages) + Rank(stage)
    decreases |stages|
  {
    var n := |stages| - 1;
    if t < n {
      LeftUpdate(stages[..n], t, stage);
      assert stages[t := stage][..n] == stages[..n][t := stage];
    } else {
      assert stages[t := stage][..n] == stages[..n];
    }
  }

  lemma {:induction false} LeftAtFirst(stages: seq<Stage>)
    requires forall t :: 0 <= t < |stages| ==> stages[t].Idle?
    ensures Left(stages) == 5 * |stages|
    decreases |stages|
  {
    if stages == [] {
    } else {
      LeftAtFirst(stages[..|stages|-1]);
    }
  }

  lemma StepsGetNearer(setting: Setting, s: System, step: Step)
    requires setting.Valid() && Locking(setting, s)
    ensures Next(setting, s, step) == s || Left(Next(setting, s, step).stage) < Left(s.stage)
  {
    hide EditAll, Held, LockMap, Placed, Logged, AllWellFormed;
    var t, after := step.call, Next(setting, s, step);
    if t < |s.stage| && after != s {
      assert after.stage == s.stage[t := after.stage[t]];
      LeftUpdate(s.stage, t, after.stage[t]);
    }
  }

  // No deadlock: until all calls are finished, one of them can go on without giving up.
  lemma NeverStuck(setting: Setting, s: System, t: nat) returns (step: Step)
    requires setting.Valid() && Locking(setting, s) && t < |s.stage| && !s.stage[t].Finished?
    ensures !step.GiveUp? && Next(setting, s, step) != s
  {
    assert Placed(setting, s, t);
    if s.stage[t].Waiting? && s.holder[s.stage[t].lock].Some? {
      assert Held(s, s.stage[t].lock);
      var u := s.holder[s.stage[t].lock].value;
      step := InsideStep(setting, s, u);
    } else if InSection(s.stage[t]) {
      step := InsideStep(setting, s, t);
    } else {
      step := if s.stage[t].Idle? then Lookup(t) else Acquire(t);
      assert Next(setting, s, step).stage[t] != s.stage[t];
    }
  }

  lemma InsideStep(setting: Setting, s: System, t: nat) returns (step: Step)
    requires setting.Valid() && Locking(setting, s) && t < |s.stage| && InSection(s.stage[t])
    ensures !step.GiveUp? && Next(setting, s, step) != s
  {
    assert Placed(setting, s, t);
    step := if s.stage[t].Locked? then Read(t) else if s.stage[t].HasRead? then Write(t) else Release(t);
    assert Next(setting, s, step).stage[t] != s.stage[t];
  }

  // A schedule all of whose steps do something.
  ghost predicate Effective(setting: Setting, files: map<string, string>, steps: seq<Step>)
    requires setting.Valid()
  {
    forall i :: 0 < i <= |steps| ==> Run(setting, files, steps[..i]) != Run(setting, files, steps[..i-1])
  }

  lemma RunSnoc(setting: Setting, files: map<string, string>, steps: seq<Step>)
    requires setting.Valid()
    ensures steps == [] ==> Run(setting, files, steps) == Initial(setting, files)
    ensures steps != [] ==>
              Run(setting, files, steps) == Next(setting, Run(setting, files, steps[..|steps|-1]), steps[|steps|-1])
  {
  }

  lemma {:induction false} EffectiveIsShort(setting: Setting, files: map<string, string>, steps: seq<Step>)
    requires setting.Valid() && Effective(setting, files, steps)
    ensures |steps| + Left(Run(setting, files, steps).stage) <= 5 * |setting.calls|
    decreases |steps|
  {
    hide Next, Run, Left, Locking, Current, Ordered, Replayed;
    if steps == [] {
      RunSnoc(setting, files, steps);
      LeftAtFirst(Initial(setting, files).stage);
    } else {
      var n := |steps| - 1;
      var front := steps[..n];
      forall i | 0 < i <= n ensures Run(setting, files, front[..i]) != Run(setting, files, front[..i-1]) {
        assert front[..i] == steps[..i] && front[..i-1] == steps[..i-1];
      }
      EffectiveIsShort(setting, files, front);
      NoLostUpdate(setting, files, front);
      StepsGetNearer(setting, Run(setting, files, front), steps[n]);
      RunSnoc(setting, files, steps);
      assert steps[..n+1] == steps;
    }
  }

  // Whatever the schedule: it is over after at most 5n steps that do something, and only when every
  // call has finished is there nothing left to do but give up.
  lemma Terminates(setting: Setting, files: map<string, string>, steps: seq<Step>)
    requires setting.Valid() && Effective(setting, files, steps)
    ensures |steps| <= 5 * |setting.calls|
    ensures var s := Run(setting, files, steps);
            (forall step :: Next(setting, s, step) == s || step.GiveUp?)
                <==> forall t :: 0 <= t < |s.stage| ==> s.stage[t].Finished?
  {
    hide Next, Locking, Current, Ordered, Replayed, Effective;
    EffectiveIsShort(setting, files, steps);
    NoLostUpdate(setting, files, steps);
    var s := Run(setting, files, steps);
    if t :| 0 <= t < |s.stage| && !s.stage[t].Finished? {
      var step := NeverStuck(setting, s, t);
    } else {
      AllFinished(setting, s);
    }
  }

  lemma AllFinished(setting: Setting, s: System)
    requires setting.Valid() && |s.stage| == |setting.calls|
    requires forall t :: 0 <= t < |s.stage| ==> s.stage[t].Finished?
    ensures forall step :: Next(setting, s, step) == s
  {
  }
}
