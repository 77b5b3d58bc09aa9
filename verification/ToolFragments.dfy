/** Tool calls of a streaming response, assembled from fragments that are routed by index
    (provider/openai/stream_parse.go: apply, guardAdd, response). */
module ToolFragments {
  import opened Transcript

  const MAX_STREAM_RESPONSE_BYTES := 4 * 1024 * 1024

  datatype Fragment = Fragment(index: int, id: string, name: string, args: string)

  // What the byte limit counts, in the order of arrival: n bytes of text or reasoning, or a fragment.
  // Strings stand for byte strings here.
  datatype Piece = Bytes(n: nat) | Part(fragment: Fragment)

  // The calls so far by index, the indices in order of appearance, and the bytes counted.
  datatype Merged = Merged(calls: map<int, ToolCall>, order: seq<int>, total: nat)

  const NOTHING := Merged(map[], [], 0)
  const FRESH := ToolCall("", "", "")

  function At(m: Merged, i: int): ToolCall {
    if i in m.calls then m.calls[i] else FRESH
  }

  predicate Clash(have: string, more: string) {
    have != "" && more != "" && have != more
  }

  predicate Agrees(c: ToolCall, f: Fragment) {
    !Clash(c.id, f.id) && !Clash(c.name, f.name)
  }

  function Extend(c: ToolCall, f: Fragment): ToolCall {
    ToolCall(if f.id != "" then f.id else c.id, if f.name != "" then f.name else c.name, c.args + f.args)
  }

  function Cost(p: Piece): nat {
    match p
    case Bytes(n) => n
    case Part(f) => |f.id| + |f.name| + |f.args|
  }

  // One piece: None when the piece is refused (two ids or two names meet in one index, or the limit
  // is exceeded).
  function Take(m: Merged, p: Piece): Option<Merged> {
    if m.total + Cost(p) > MAX_STREAM_RESPONSE_BYTES then None
    else match p
      case Bytes(n) => Some(m.(total := m.total + n))
      case Part(f) =>
        if !Agrees(At(m, f.index), f) then None
        else Some(Merged(m.calls[f.index := Extend(At(m, f.index), f)],
                         if f.index in m.calls then m.order else m.order + [f.index],
                         m.total + Cost(p)))
  }

  function TakeAll(pieces: seq<Piece>): Option<Merged> {
    if pieces == [] then Some(NOTHING)
    else
      var before := TakeAll(pieces[..|pieces|-1]);
      if before.None? then None else Take(before.value, pieces[|pieces|-1])
  }

  lemma TakeAllSnoc(pieces: seq<Piece>, p: Piece)
    ensures TakeAll(pieces).Some? ==> TakeAll(pieces + [p]) == Take(TakeAll(pieces).value, p)
    ensures TakeAll(pieces).None? ==> TakeAll(pieces + [p]).None?
  {
    assert (pieces + [p])[..|pieces|] == pieces;
  }

  lemma {:induction false} RefusedStaysRefused(pieces: seq<Piece>, more: seq<Piece>)
    requires TakeAll(pieces).None?
    ensures TakeAll(pieces + more).None?
    decreases |more|
  {
    if more == [] {
      assert pieces + more == pieces;
    } else {
      RefusedStaysRefused(pieces, more[..|more|-1]);
      TakeAllSnoc(pieces + more[..|more|-1], more[|more|-1]);
      assert pieces + more == (pieces + more[..|more|-1]) + [more[|more|-1]];
    }
  }

  // ---------------------------------------------------------------- index by index

  function Parts(pieces: seq<Piece>): seq<Fragment> {
    if pieces == [] then []
    else Parts(pieces[..|pieces|-1]) + (match pieces[|pieces|-1] case Bytes(_) => [] case Part(f) => [f])
  }

  function OfIndex(fragments: seq<Fragment>, i: int): seq<Fragment> {
    if fragments == [] then []
    else OfIndex(fragments[..|fragments|-1], i)
         + (if fragments[|fragments|-1].index == i then [fragments[|fragments|-1]] else [])
  }

  function Assembled(fragments: seq<Fragment>): ToolCall {
    if fragments == [] then FRESH
    else Extend(Assembled(fragments[..|fragments|-1]), fragments[|fragments|-1])
  }

  ghost predicate IsOf(p: Piece, i: int) {
    p.Part? && p.fragment.index == i
  }

  // The pieces at the given places, in order, are the fragments of the index: exactly those.
  ghost predicate ArePartsOf(pieces: seq<Piece>, i: int, fragments: seq<Fragment>, places: seq<nat>) {
    && |places| == |fragments|
    && (forall a, b :: 0 <= a < b < |places| ==> places[a] < places[b])
    && (forall a :: 0 <= a < |places| ==>
          places[a] < |pieces| && pieces[places[a]] == Part(fragments[a]) && fragments[a].index == i)
    && (forall k :: 0 <= k < |pieces| && IsOf(pieces[k], i) ==> k in places)
  }

  lemma {:induction false} FragmentsOfIndex(pieces: seq<Piece>, i: int) returns (places: seq<nat>)
    ensures ArePartsOf(pieces, i, OfIndex(Parts(pieces), i), places)
    decreases |pieces|
  {
    hide ArePartsOf;
    if pieces == [] {
      places := [];
      NoPieces(i);
    } else {
      var front, p := pieces[..|pieces|-1], pieces[|pieces|-1];
      places := FragmentsOfIndex(front, i);
      assert pieces == front + [p];
      var before := OfIndex(Parts(front), i);
      if IsOf(p, i) {
        OfIndexSnoc(Parts(front), p.fragment, i);
        PieceTaken(front, i, before, places, p);
        places := places + [|front|];
      } else {
        if p.Part? {
          OfIndexSnoc(Parts(front), p.fragment, i);
        }
        assert before + [] == before && Parts(front) + [] == Parts(front);
        PieceSkipped(front, i, before, places, p);
      }
    }
  }

  lemma NoPieces(i: int)
    ensures ArePartsOf([], i, [], [])
  {
  }

  lemma PieceSkipped(pieces: seq<Piece>, i: int, fragments: seq<Fragment>, places: seq<nat>, p: Piece)
    requires ArePartsOf(pieces, i, fragments, places) && !IsOf(p, i)
    ensures ArePartsOf(pieces + [p], i, fragments, places)
  {
  }

  lemma PieceTaken(pieces: seq<Piece>, i: int, fragments: seq<Fragment>, places: seq<nat>, p: Piece)
    requires ArePartsOf(pieces, i, fragments, places) && IsOf(p, i)
    ensures ArePartsOf(pieces + [p], i, fragments + [p.fragment], places + [|pieces|])
  {
    var all, more := pieces + [p], places + [|pieces|];
    forall k | 0 <= k < |all| && IsOf(all[k], i) ensures k in more {
      if k == |pieces| {
        assert more[|places|] == k;
      } else {
        assert all[k] == pieces[k];
        var a :| 0 <= a < |places| && places[a] == k;
        assert more[a] == k;
      }
    }
  }

  function JoinedArgs(fragments: seq<Fragment>): string {
    if fragments == [] then "" else fragments[0].args + JoinedArgs(fragments[1..])
  }

  lemma {:induction false} JoinedArgsSnoc(fragments: seq<Fragment>, f: Fragment)
    ensures JoinedArgs(fragments + [f]) == JoinedArgs(fragments) + f.args
    decreases |fragments|
  {
    if fragments == [] {
      assert [f][1..] == [] && f.args + "" == "" + f.args;
    } else {
      assert (fragments + [f])[1..] == fragments[1..] + [f] && (fragments + [f])[0] == fragments[0];
      JoinedArgsSnoc(fragments[1..], f);
      var first, rest := fragments[0].args, JoinedArgs(fragments[1..]);
      assert first + (rest + f.args) == (first + rest) + f.args;
    }
  }

  // The arguments of a call are those of its fragments, joined in the order they came in.
  lemma {:induction false} AssembledArgs(fragments: seq<Fragment>)
    ensures Assembled(fragments).args == JoinedArgs(fragments)
    decreases |fragments|
  {
    if fragments == [] {
    } else {
      var n := |fragments| - 1;
      AssembledArgs(fragments[..n]);
      JoinedArgsSnoc(fragments[..n], fragments[n]);
      assert fragments == fragments[..n] + [fragments[n]];
    }
  }

  // No two fragments of the index disagree about the id or about the name.
  predicate Coherent(fragments: seq<Fragment>) {
    forall j, k :: 0 <= j < k < |fragments| ==>
        !Clash(fragments[j].id, fragments[k].id) && !Clash(fragments[j].name, fragments[k].name)
  }

  lemma {:induction false} AssembledNames(fragments: seq<Fragment>)
    requires Coherent(fragments)
    ensures forall k :: 0 <= k < |fragments| && fragments[k].id != "" ==> Assembled(fragments).id == fragments[k].id
    ensures forall k :: 0 <= k < |fragments| && fragments[k].name != "" ==>
              Assembled(fragments).name == fragments[k].name
    ensures Assembled(fragments).id != "" ==>
              exists k :: 0 <= k < |fragments| && fragments[k].id == Assembled(fragments).id
    ensures Assembled(fragments).name != "" ==>
              exists k :: 0 <= k < |fragments| && fragments[k].name == Assembled(fragments).name
    decreases |fragments|
  {
    if fragments == [] {
    } else {
      var n := |fragments| - 1;
      var before := fragments[..n];
      AssembledNames(before);
      assert forall k :: 0 <= k < n ==> before[k] == fragments[k];
      assert !Clash(Assembled(before).id, fragments[n].id) && !Clash(Assembled(before).name, fragments[n].name);
    }
  }

  lemma CoherentPrefix(fragments: seq<Fragment>, more: seq<Fragment>)
    requires Coherent(fragments + more)
    ensures Coherent(fragments)
  {
    forall j, k | 0 <= j < k < |fragments|
      ensures !Clash(fragments[j].id, fragments[k].id) && !Clash(fragments[j].name, fragments[k].name)
    {
      assert (fragments + more)[j] == fragments[j] && (fragments + more)[k] == fragments[k];
    }
  }

  lemma CoherentSnoc(fragments: seq<Fragment>, f: Fragment)
    requires Coherent(fragments)
    ensures Coherent(fragments + [f]) <==> Agrees(Assembled(fragments), f)
  {
    AssembledNames(fragments);
    if Coherent(fragments + [f]) {
      forall k | 0 <= k < |fragments| ensures !Clash(fragments[k].id, f.id) && !Clash(fragments[k].name, f.name) {
        assert (fragments + [f])[k] == fragments[k] && (fragments + [f])[|fragments|] == f;
      }
    }
  }

  function Total(pieces: seq<Piece>): nat {
    if pieces == [] then 0 else Total(pieces[..|pieces|-1]) + Cost(pieces[|pieces|-1])
  }

  ghost predicate AllCoherent(pieces: seq<Piece>) {
    forall i :: Coherent(OfIndex(Parts(pieces), i))
  }

  predicate HoldsIndex(m: Merged, fragments: seq<Fragment>, i: int) {
    At(m, i) == Assembled(OfIndex(fragments, i)) && (i in m.calls <==> OfIndex(fragments, i) != [])
  }

  // What the accumulator holds: for every index the call assembled from the fragments of that index
  // alone, in their order; each index once; the sum of all costs.
  ghost predicate Holds(m: Merged, pieces: seq<Piece>) {
    && (forall i :: HoldsIndex(m, Parts(pieces), i))
    && IsListing(m.order, m.calls.Keys)
    && m.total == Total(pieces)
  }

  ghost predicate IsListing(order: seq<int>, keys: set<int>) {
    && (forall i :: i in order <==> i in keys)
    && (forall j, k :: 0 <= j < k < |order| ==> order[j] != order[k])
  }

  lemma OfIndexSnoc(fragments: seq<Fragment>, f: Fragment, i: int)
    ensures OfIndex(fragments + [f], i) == OfIndex(fragments, i) + (if f.index == i then [f] else [])
  {
    assert (fragments + [f])[..|fragments|] == fragments;
  }

  lemma AssembledSnoc(fragments: seq<Fragment>, f: Fragment)
    ensures Assembled(fragments + [f]) == Extend(Assembled(fragments), f)
  {
    assert (fragments + [f])[..|fragments|] == fragments;
  }

  // A stream is accepted exactly when no index mixes two ids or two names and the limit is kept; what
  // is then held is determined index by index.
  lemma {:induction false} AcceptedIff(pieces: seq<Piece>)
    ensures TakeAll(pieces).Some? <==> AllCoherent(pieces) && Total(pieces) <= MAX_STREAM_RESPONSE_BYTES
    ensures TakeAll(pieces).Some? ==> Holds(TakeAll(pieces).value, pieces)
    decreases |pieces|
  {
    if pieces == [] {
      assert TakeAll(pieces) == Some(NOTHING) && Parts(pieces) == [];
      forall i ensures OfIndex(Parts(pieces), i) == [] {
      }
    } else {
      var before, last := pieces[..|pieces|-1], pieces[|pieces|-1];
      AcceptedIff(before);
      assert pieces == before + [last];
      match last
      case Bytes(k) => AcceptedBytes(before, k);
      case Part(f) => AcceptedPart(before, f);
    }
  }

  lemma AcceptedBytes(before: seq<Piece>, n: nat)
    requires TakeAll(before).Some? <==> AllCoherent(before) && Total(before) <= MAX_STREAM_RESPONSE_BYTES
    requires TakeAll(before).Some? ==> Holds(TakeAll(before).value, before)
    ensures TakeAll(before + [Bytes(n)]).Some?
            <==> AllCoherent(before + [Bytes(n)]) && Total(before + [Bytes(n)]) <= MAX_STREAM_RESPONSE_BYTES
    ensures TakeAll(before + [Bytes(n)]).Some? ==> Holds(TakeAll(before + [Bytes(n)]).value, before + [Bytes(n)])
  {
    var pieces := before + [Bytes(n)];
    TakeAllSnoc(before, Bytes(n));
    assert pieces[..|before|] == before;
    assert Parts(pieces) == Parts(before) && Total(pieces) == Total(before) + n;
    if TakeAll(pieces).Some? {
      forall i ensures HoldsIndex(TakeAll(pieces).value, Parts(pieces), i) {
        assert HoldsIndex(TakeAll(before).value, Parts(before), i);
      }
    }
  }

  lemma AcceptedPart(before: seq<Piece>, f: Fragment)
    requires TakeAll(before).Some? <==> AllCoherent(before) && Total(before) <= MAX_STREAM_RESPONSE_BYTES
    requires TakeAll(before).Some? ==> Holds(TakeAll(before).value, before)
    ensures TakeAll(before + [Part(f)]).Some?
            <==> AllCoherent(before + [Part(f)]) && Total(before + [Part(f)]) <= MAX_STREAM_RESPONSE_BYTES
    ensures TakeAll(before + [Part(f)]).Some? ==> Holds(TakeAll(before + [Part(f)]).value, before + [Part(f)])
  {
    TakeAllSnoc(before, Part(f));
    PartsSnoc(before, f);
    CoherentGrows(before, f);
    if TakeAll(before).Some? {
      assert HoldsIndex(TakeAll(before).value, Parts(before), f.index);
    }
    if TakeAll(before + [Part(f)]).Some? {
      HoldsGrows(TakeAll(before).value, before, f);
    }
  }

  lemma CoherentGrows(before: seq<Piece>, f: Fragment)
    ensures AllCoherent(before + [Part(f)])
            <==> AllCoherent(before) && Agrees(Assembled(OfIndex(Parts(before), f.index)), f)
  {
    var fs := Parts(before);
    assert (before + [Part(f)])[..|before|] == before;
    assert Parts(before + [Part(f)]) == fs + [f];
    OfIndexSnoc(fs, f, f.index);
    var mine := OfIndex(fs, f.index);
    if AllCoherent(before + [Part(f)]) {
      forall i ensures Coherent(OfIndex(fs, i)) {
        OfIndexSnoc(fs, f, i);
        assert Coherent(OfIndex(fs + [f], i));
        CoherentPrefix(OfIndex(fs, i), if i == f.index then [f] else []);
      }
      assert Coherent(mine + [f]);
      CoherentSnoc(mine, f);
    } else if AllCoherent(before) {
      CoherentSnoc(mine, f);
      var i :| !Coherent(OfIndex(fs + [f], i));
      OfIndexSnoc(fs, f, i);
      assert Coherent(OfIndex(fs, i));
    }
  }

  lemma HoldsGrows(m: Merged, before: seq<Piece>, f: Fragment)
    requires Holds(m, before) && Take(m, Part(f)).Some?
    ensures Holds(Take(m, Part(f)).value, before + [Part(f)])
  {
    var fs := Parts(before);
    var after := Take(m, Part(f)).value;
    PartsSnoc(before, f);
    forall i ensures HoldsIndex(after, fs + [f], i) {
      assert HoldsIndex(m, fs, i);
      IndexGrows(m, after, fs, f, i);
    }
    ListingGrows(m.order, m.calls.Keys, f.index);
    assert after.calls.Keys == m.calls.Keys + {f.index};
  }

  lemma PartsSnoc(before: seq<Piece>, f: Fragment)
    ensures Parts(before + [Part(f)]) == Parts(before) + [f]
    ensures Total(before + [Part(f)]) == Total(before) + Cost(Part(f))
  {
    assert (before + [Part(f)])[..|before|] == before;
  }

  lemma IndexGrows(m: Merged, after: Merged, fs: seq<Fragment>, f: Fragment, i: int)
    requires after.calls == m.calls[f.index := Extend(At(m, f.index), f)]
    requires HoldsIndex(m, fs, i)
    ensures HoldsIndex(after, fs + [f], i)
  {
    OfIndexSnoc(fs, f, i);
    if i == f.index {
      AssembledSnoc(OfIndex(fs, i), f);
    } else {
      assert OfIndex(fs, i) + [] == OfIndex(fs, i);
      assert At(after, i) == At(m, i);
    }
  }

  lemma ListingGrows(order: seq<int>, keys: set<int>, i: int)
    requires IsListing(order, keys)
    ensures IsListing(if i in keys then order else order + [i], keys + {i})
  {
    if i in keys {
      assert keys + {i} == keys;
    }
  }

  // ---------------------------------------------------------------- the limit

  function Stored(m: Merged, order: seq<int>): nat {
    if order == [] then 0
    else
      var c := At(m, order[|order|-1]);
      Stored(m, order[..|order|-1]) + |c.id| + |c.name| + |c.args|
  }

  function TextBytes(pieces: seq<Piece>): nat {
    if pieces == [] then 0
    else TextBytes(pieces[..|pieces|-1]) + (match pieces[|pieces|-1] case Bytes(n) => n case Part(_) => 0)
  }

  // Writing one call changes the sum by the fragment's cost at most.
  lemma {:induction false} StoredGrows(m: Merged, after: Merged, order: seq<int>, f: Fragment)
    requires after.calls == m.calls[f.index := Extend(At(m, f.index), f)]
    requires forall j, k :: 0 <= j < k < |order| ==> order[j] != order[k]
    ensures Stored(after, order) <= Stored(m, order) + (if f.index in order then Cost(Part(f)) else 0)
    decreases |order|
  {
    if order == [] {
    } else {
      var n := |order| - 1;
      StoredGrows(m, after, order[..n], f);
      assert order == order[..n] + [order[n]];
      if order[n] == f.index {
        assert f.index !in order[..n];
      }
    }
  }

  // The limit counts at least what is stored: text, reasoning and calls never hold more than 4 MiB.
  lemma {:induction false} StoredWithinLimit(pieces: seq<Piece>)
    requires TakeAll(pieces).Some?
    ensures Stored(TakeAll(pieces).value, TakeAll(pieces).value.order)
              + TextBytes(pieces) <= TakeAll(pieces).value.total
    ensures TakeAll(pieces).value.total <= MAX_STREAM_RESPONSE_BYTES
    decreases |pieces|
  {
    if pieces == [] {
    } else {
      var n := |pieces| - 1;
      StoredWithinLimit(pieces[..n]);
      AcceptedIff(pieces[..n]);
      var m, after := TakeAll(pieces[..n]).value, TakeAll(pieces).value;
      match pieces[n]
      case Bytes(k) =>
        StoredCongruent(m, after, m.order);
      case Part(f) =>
        StoredGrows(m, after, m.order, f);
        if f.index !in m.calls {
          assert after.order[..|m.order|] == m.order;
        }
    }
  }

  lemma {:induction false} StoredCongruent(m: Merged, after: Merged, order: seq<int>)
    requires m.calls == after.calls
    ensures Stored(m, order) == Stored(after, order)
    decreases |order|
  {
    if order == [] {
    } else {
      StoredCongruent(m, after, order[..|order|-1]);
    }
  }

  // ---------------------------------------------------------------- ascending order

  predicate Ascending(xs: seq<int>) {
    forall j, k :: 0 <= j < k < |xs| ==> xs[j] < xs[k]
  }

  function Insert(xs: seq<int>, x: int): seq<int> {
    if xs == [] then [x]
    else if x <= xs[0] then [x] + xs
    else [xs[0]] + Insert(xs[1..], x)
  }

  // sort.Ints.
  function Sorted(xs: seq<int>): seq<int> {
    if xs == [] then [] else Insert(Sorted(xs[1..]), xs[0])
  }

  lemma {:induction false} InsertMembers(xs: seq<int>, x: int)
    ensures forall y :: y in Insert(xs, x) <==> y == x || y in xs
    decreases |xs|
  {
    if xs != [] && xs[0] < x {
      InsertMembers(xs[1..], x);
      assert xs == [xs[0]] + xs[1..];
    }
  }

  lemma {:induction false} InsertAscending(xs: seq<int>, x: int)
    requires Ascending(xs) && x !in xs
    ensures Ascending(Insert(xs, x))
    decreases |xs|
  {
    if xs != [] && xs[0] < x {
      var rest := Insert(xs[1..], x);
      InsertAscending(xs[1..], x);
      InsertMembers(xs[1..], x);
      forall k | 0 <= k < |rest| ensures xs[0] < rest[k] {
        assert rest[k] in rest;
      }
    }
  }

  lemma {:induction false} SortedAscending(xs: seq<int>)
    requires forall j, k :: 0 <= j < k < |xs| ==> xs[j] != xs[k]
    ensures Ascending(Sorted(xs)) && forall y :: y in Sorted(xs) <==> y in xs
    decreases |xs|
  {
    if xs == [] {
    } else {
      assert xs == [xs[0]] + xs[1..];
      SortedAscending(xs[1..]);
      InsertAscending(Sorted(xs[1..]), xs[0]);
      InsertMembers(Sorted(xs[1..]), xs[0]);
    }
  }

  lemma HeadIsIn(xs: seq<int>)
    ensures xs != [] ==> xs[0] in xs
  {
  }

  lemma {:induction false} AscendingUnique(xs: seq<int>, ys: seq<int>)
    requires Ascending(xs) && Ascending(ys)
    requires forall i :: i in xs <==> i in ys
    ensures xs == ys
    decreases |xs|
  {
    HeadIsIn(xs);
    HeadIsIn(ys);
    if xs == [] {
    } else {
      assert xs[0] == ys[0];
      forall i ensures i in xs[1..] <==> i in ys[1..] {
        assert i in xs <==> i == xs[0] || i in xs[1..];
        assert i in ys <==> i == ys[0] || i in ys[1..];
      }
      AscendingUnique(xs[1..], ys[1..]);
    }
  }

  function ToolCalls(m: Merged): (calls: seq<ToolCall>)
    ensures |calls| == |Sorted(m.order)|
  {
    seq(|Sorted(m.order)|, k requires 0 <= k < |Sorted(m.order)| => At(m, Sorted(m.order)[k]))
  }

  // The calls of the response are, in strictly ascending order of the indices that occur, each the
  // assembly of its own index's fragments.
  lemma CallsInOrder(pieces: seq<Piece>)
    requires TakeAll(pieces).Some?
    ensures Ascending(Sorted(TakeAll(pieces).value.order))
    ensures forall i :: i in Sorted(TakeAll(pieces).value.order) <==> OfIndex(Parts(pieces), i) != []
    ensures forall k :: 0 <= k < |ToolCalls(TakeAll(pieces).value)| ==>
              ToolCalls(TakeAll(pieces).value)[k] == Assembled(OfIndex(Parts(pieces),
                  Sorted(TakeAll(pieces).value.order)[k]))
  {
    AcceptedIff(pieces);
    SortedAscending(TakeAll(pieces).value.order);
    var m := TakeAll(pieces).value;
    forall i ensures i in Sorted(m.order) <==> OfIndex(Parts(pieces), i) != [] {
      assert HoldsIndex(m, Parts(pieces), i);
    }
    forall k | 0 <= k < |ToolCalls(m)| ensures ToolCalls(m)[k] == Assembled(OfIndex(Parts(pieces),
        Sorted(m.order)[k])) {
      assert HoldsIndex(m, Parts(pieces), Sorted(m.order)[k]);
    }
  }

  // ---------------------------------------------------------------- interleaving

  // The same fragments in the same order within every index.
  ghost predicate SamePerIndex(a: seq<Piece>, b: seq<Piece>) {
    forall i :: OfIndex(Parts(a), i) == OfIndex(Parts(b), i)
  }

  // How the indices are interleaved, with each other and with text, changes neither the calls nor,
  // for the same amount of text, whether the stream is accepted.
  lemma InterleavingInvariant(a: seq<Piece>, b: seq<Piece>)
    requires SamePerIndex(a, b)
    ensures TakeAll(a).Some? && TakeAll(b).Some? ==> ToolCalls(TakeAll(a).value) == ToolCalls(TakeAll(b).value)
    ensures TextBytes(a) == TextBytes(b) ==> (TakeAll(a).Some? <==> TakeAll(b).Some?)
  {
    AcceptedIff(a);
    AcceptedIff(b);
    TotalSplits(a);
    TotalSplits(b);
    SamePartsCost(Parts(a), Parts(b));
    if TakeAll(a).Some? && TakeAll(b).Some? {
      CallsInOrder(a);
      CallsInOrder(b);
      AscendingUnique(Sorted(TakeAll(a).value.order), Sorted(TakeAll(b).value.order));
    }
  }

  function PartsCost(fragments: seq<Fragment>): nat {
    if fragments == [] then 0 else PartsCost(fragments[..|fragments|-1]) + Cost(Part(fragments[|fragments|-1]))
  }

  lemma {:induction false} TotalSplits(pieces: seq<Piece>)
    ensures Total(pieces) == TextBytes(pieces) + PartsCost(Parts(pieces))
    decreases |pieces|
  {
    if pieces == [] {
    } else {
      TotalSplits(pieces[..|pieces|-1]);
      match pieces[|pieces|-1]
      case Bytes(_) =>
        assert Parts(pieces) == Parts(pieces[..|pieces|-1]);
      case Part(f) =>
        assert Parts(pieces)[..|Parts(pieces)|-1] == Parts(pieces[..|pieces|-1]);
    }
  }

  function Without(fs: seq<Fragment>, p: nat): seq<Fragment>
    requires p < |fs|
  {
    fs[..p] + fs[p+1..]
  }

  lemma WithoutSnoc(fs: seq<Fragment>, f: Fragment, p: nat)
    requires p < |fs|
    ensures Without(fs + [f], p) == Without(fs, p) + [f]
    ensures Without(fs + [f], |fs|) == fs
  {
  }

  lemma PartsCostSnoc(fs: seq<Fragment>, f: Fragment)
    ensures PartsCost(fs + [f]) == PartsCost(fs) + Cost(Part(f))
  {
    assert (fs + [f])[..|fs|] == fs;
  }

  // Taking out the last fragment of an index.
  lemma {:induction false} LastOfIndex(fs: seq<Fragment>, i: int) returns (p: nat)
    requires OfIndex(fs, i) != []
    ensures p < |fs| && fs[p].index == i && OfIndex(fs, i) == OfIndex(Without(fs, p), i) + [fs[p]]
    ensures forall j :: j != i ==> OfIndex(Without(fs, p), j) == OfIndex(fs, j)
    ensures PartsCost(fs) == PartsCost(Without(fs, p)) + Cost(Part(fs[p]))
    decreases |fs|
  {
    var before, f := fs[..|fs|-1], fs[|fs|-1];
    assert fs == before + [f];
    if f.index == i {
      p := |fs| - 1;
      assert Without(fs, p) == before;
    } else {
      OfIndexSnoc(before, f, i);
      p := LastOfIndex(before, i);
      WithoutSnoc(before, f, p);
      var rest := Without(before, p);
      PartsCostSnoc(rest, f);
      PartsCostSnoc(before, f);
      forall j ensures OfIndex(rest + [f], j) == OfIndex(rest, j) + (if f.index == j then [f] else []) {
        OfIndexSnoc(rest, f, j);
      }
      forall j ensures OfIndex(before + [f], j) == OfIndex(before, j) + (if f.index == j then [f] else []) {
        OfIndexSnoc(before, f, j);
      }
    }
  }

  lemma {:induction false} SamePartsCost(fs: seq<Fragment>, gs: seq<Fragment>)
    requires forall i :: OfIndex(fs, i) == OfIndex(gs, i)
    ensures PartsCost(fs) == PartsCost(gs)
    decreases |fs|
  {
    if fs == [] {
      if gs != [] {
        assert OfIndex(gs, gs[|gs|-1].index) == OfIndex(fs, gs[|gs|-1].index);
      }
    } else {
      var before, f := fs[..|fs|-1], fs[|fs|-1];
      assert fs == before + [f];
      OfIndexSnoc(before, f, f.index);
      var p := LastOfIndex(gs, f.index);
      var others := Without(gs, p);
      assert OfIndex(before, f.index) + [f] == OfIndex(others, f.index) + [gs[p]];
      SnocInjective(OfIndex(before, f.index), f, OfIndex(others, f.index), gs[p]);
      forall i ensures OfIndex(before, i) == OfIndex(others, i) {
        OfIndexSnoc(before, f, i);
        assert OfIndex(fs, i) == OfIndex(gs, i);
      }
      SamePartsCost(before, others);
    }
  }

  lemma SnocInjective(a: seq<Fragment>, x: Fragment, b: seq<Fragment>, y: Fragment)
    requires a + [x] == b + [y]
    ensures a == b && x == y
  {
    assert a == (a + [x])[..|a|] && b == (b + [y])[..|b|];
    assert x == (a + [x])[|a|] && y == (b + [y])[|b|];
  }
}
