/** The registry of session slots (cmd/miniagent/web_bus.go): a session holds at most one entry, a
    running turn or a delete in progress, and every entry is finished at most once. */
module TurnRegistry {
  import opened Transcript

  datatype Kind = Running | Deleting

  datatype Entry = Entry(id: string, kind: Kind)

  // Entries are named by their order of creation.  A call of finish first takes the entry out of the
  // map and then, under the entry's own lock, closes its done channel: `closing` holds the entries
  // that calls of finish have taken and not yet closed.
  datatype Registry = Registry(m: map<string, nat>, entries: seq<Entry>, closing: multiset<nat>, done: set<nat>)

  const EMPTY := Registry(map[], [], multiset{}, {})

  datatype Action = Reserve(id: string, kind: Kind) | Detach(id: string) | Close(e: nat)

  function Reserved(r: Registry, id: string, kind: Kind): Registry {
    if id in r.m then r else r.(m := r.m[id := |r.entries|], entries := r.entries + [Entry(id, kind)])
  }

  function Detached(r: Registry, id: string): Registry {
    if id in r.m then r.(m := r.m - {id}, closing := r.closing + multiset{r.m[id]}) else r
  }

  function Closed(r: Registry, e: nat): Registry {
    if e in r.closing then r.(closing := r.closing - multiset{e}, done := r.done + {e}) else r
  }

  function Next(r: Registry, a: Action): Registry {
    match a
    case Reserve(id, kind) => Reserved(r, id, kind)
    case Detach(id) => Detached(r, id)
    case Close(e) => Closed(r, e)
  }

  function Execution(actions: seq<Action>): Registry {
    if actions == [] then EMPTY else Next(Execution(actions[..|actions|-1]), actions[|actions|-1])
  }

  predicate Held(r: Registry, e: nat) {
    e < |r.entries| && r.entries[e].id in r.m && r.m[r.entries[e].id] == e
  }

  // Each entry is in exactly one place: held under its own id, taken by exactly one call of finish,
  // or done.
  predicate Placed(r: Registry, e: nat) {
    r.closing[e] + (if Held(r, e) then 1 else 0) + (if e in r.done then 1 else 0) == (if e < |r.entries| then 1 else 0)
  }

  ghost predicate Sound(r: Registry) {
    && (forall id :: id in r.m ==> r.m[id] < |r.entries| && r.entries[r.m[id]].id == id)
    && (forall e: nat :: Placed(r, e))
  }

  lemma NextSound(r: Registry, a: Action)
    requires Sound(r)
    ensures Sound(Next(r, a))
  {
    var after := Next(r, a);
    forall e: nat ensures Placed(after, e) {
      assert Placed(r, e);
      match a
      case Reserve(id, kind) =>
        assert id !in r.m && Held(r, e) ==> r.entries[e].id != id;
      case Detach(id) =>
        if id in r.m {
          assert Placed(r, r.m[id]);
          assert Held(r, r.m[id]);
        }
      case Close(x) =>
    }
  }

  lemma {:induction false} ExecutionSound(actions: seq<Action>)
    ensures Sound(Execution(actions))
    decreases |actions|
  {
    if actions == [] {
      forall e: nat ensures Placed(EMPTY, e) {
      }
    } else {
      ExecutionSound(actions[..|actions|-1]);
      NextSound(Execution(actions[..|actions|-1]), actions[|actions|-1]);
    }
  }

  // In every interleaving, also of several finish calls for one session: two entries of one session
  // are never held at once, and no done channel is closed a second time.
  lemma HeldOnceClosedOnce(actions: seq<Action>, e: nat, f: nat)
    ensures Held(Execution(actions), e) && Held(Execution(actions), f)
            && Execution(actions).entries[e].id == Execution(actions).entries[f].id
            ==> e == f
    ensures e in Execution(actions).closing
            ==> e !in Execution(actions).done && Execution(actions).closing[e] == 1 && !Held(Execution(actions), e)
  {
    ExecutionSound(actions);
    assert Placed(Execution(actions), e);
  }

  // An entry, once reserved, keeps its session's slot until a finish for that session takes it: every
  // reservation in between is refused.
  lemma {:induction false} SlotIsKept(r: Registry, e: nat, actions: seq<Action>)
    requires Sound(r) && Held(r, e)
    requires Detach(r.entries[e].id) !in actions
    ensures Held(After(r, actions), e)
    ensures forall kind :: Reserved(After(r, actions), r.entries[e].id, kind) == After(r, actions)
    decreases |actions|
  {
    if actions == [] {
    } else {
      NextSound(r, actions[0]);
      assert actions[0] in actions;
      assert Held(Next(r, actions[0]), e);
      SlotIsKept(Next(r, actions[0]), e, actions[1..]);
    }
  }

  function After(r: Registry, actions: seq<Action>): Registry
    decreases |actions|
  {
    if actions == [] then r else After(Next(r, actions[0]), actions[1..])
  }

  // turnRegistry.
  class TurnSlots {
    var m: map<string, nat>
    var entries: seq<Entry>
    ghost var closing: multiset<nat>
    ghost var done: set<nat>

    ghost function View(): Registry
      reads this
    {
      Registry(m, entries, closing, done)
    }

    ghost predicate Valid()
      reads this
    {
      Sound(View())
    }

    constructor ()
      ensures View() == EMPTY && Valid()
    {
      m, entries, closing, done := map[], [], multiset{}, {};
      new;
      ExecutionSound([]);
    }

    // register and beginDelete: a session with any entry is busy.
    method Reserve(id: string, kind: Kind) returns (e: nat, busy: bool)
      requires Valid()
      modifies this
      ensures Valid() && View() == Reserved(old(View()), id, kind)
      ensures busy <==> exists f: nat :: Held(old(View()), f) && old(entries)[f].id == id
      ensures !busy ==> Held(View(), e) && entries[e] == Entry(id, kind)
    {
      NextSound(View(), Action.Reserve(id, kind));
      if id in m {
        assert Held(View(), m[id]);
        return 0, true;
      }
      e, busy := |entries|, false;
      m := m[id := e];
      entries := entries + [Entry(id, kind)];
    }

    // The two critical sections of finish; between them anything may run.
    method Detach(id: string) returns (e: Option<nat>)
      requires Valid()
      modifies this
      ensures Valid() && View() == Detached(old(View()), id)
      ensures e.Some? <==> id in old(m)
      ensures e.Some? ==> e.value in closing && e.value !in done && e.value < |entries| && entries[e.value].id == id
    {
      NextSound(View(), Action.Detach(id));
      e := None;
      if id in m {
        e := Some(m[id]);
        closing := closing + multiset{m[id]};
        m := m - {id};
        assert Placed(View(), e.value);
      }
    }

    // close(e.done): the channel is open.
    ghost method Close(e: nat)
      requires Valid() && e in closing
      modifies `closing, `done
      ensures Valid() && View() == Closed(old(View()), e)
      ensures e !in old(done)
    {
      NextSound(View(), Action.Close(e));
      assert Placed(View(), e);
      closing, done := closing - multiset{e}, done + {e};
    }
  }
}
