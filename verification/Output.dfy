/** A command's output on its way into a tool result: re-chunking on character boundaries
    (miniagent/tools/run_limited.go: drainPipe) into a sliding window over the newest chunks
    (miniagent/tools/output_accum.go, with spilling disabled). */
module Output {
  import opened Seqs
  import opened Utf8
  import Estimate

  function Joined(chunks: seq<seq<Byte>>): seq<Byte> {
    if chunks == [] then [] else chunks[0] + Joined(chunks[1..])
  }

  lemma {:induction false} JoinedConcat(a: seq<seq<Byte>>, b: seq<seq<Byte>>)
    ensures Joined(a + b) == Joined(a) + Joined(b)
    decreases |a|
  {
    if a == [] {
      assert a + b == b;
    } else {
      JoinedConcat(a[1..], b);
      ConsConcat(a, b);
      Assoc(a[0], Joined(a[1..]), Joined(b));
    }
  }

  lemma JoinedSnoc(a: seq<seq<Byte>>, last: seq<Byte>)
    ensures Joined(a + [last]) == Joined(a) + last
  {
    JoinedConcat(a, [last]);
    assert [last][1..] == [];
    assert Joined([last]) == last + Joined([]);
  }

  // ---------------------------------------------------------------- the window

  // With at most `keep` bytes to hold (0 or less: no limit), the chunks up to d are gone: what is
  // left fits unless it is a single chunk, and one chunk more would not have fitted.
  ghost predicate IsWindow(written: seq<seq<Byte>>, keep: int, d: nat) {
    && d <= |written| && (written != [] ==> d < |written|)
    && (keep > 0 && |Joined(written[d..])| > keep ==> d == |written| - 1)
    && (d > 0 ==> keep > 0 && |Joined(written[d-1..])| > keep)
  }

  lemma JoinedSuffix(written: seq<seq<Byte>>, d: nat, e: nat)
    requires d <= e <= |written|
    ensures Joined(written[d..]) == Joined(written[d..e]) + Joined(written[e..])
  {
    assert written[d..] == written[d..e] + written[e..];
    JoinedConcat(written[d..e], written[e..]);
  }

  // The window is determined by what was written, not by when it was written.
  lemma WindowUnique(written: seq<seq<Byte>>, keep: int, d: nat, e: nat)
    requires IsWindow(written, keep, d) && IsWindow(written, keep, e)
    ensures d == e
  {
    if d < e {
      JoinedSuffix(written, d, e - 1);
    } else if e < d {
      JoinedSuffix(written, e, d - 1);
    }
  }

  lemma EvictedSize(written: seq<seq<Byte>>, d: nat)
    requires d < |written|
    ensures |Joined(written[d..])| == |written[d]| + |Joined(written[d+1..])|
  {
    JoinedSuffix(written, d, d + 1);
    JoinedSnoc([], written[d]);
    assert written[d..d+1] == [] + [written[d]];
  }

  datatype Chunk = Chunk(text: seq<Byte>, size: nat)

  const TRUNCATED := "\U{2026}[output truncated]"
  const BANNER := "\U{2026}[output over limit, only tail kept]\n"

  class OutputAccum {
    const keep: int
    var chunks: seq<Chunk>
    var used: int
    var total: nat
    var cut: bool
    ghost var written: seq<seq<Byte>>

    ghost function Evicted(): int
      reads this
    {
      |written| - |chunks|
    }

    ghost predicate Holds(d: nat)
      reads this
    {
      && d + |chunks| == |written|
      && (forall i :: 0 <= i < |chunks| ==> chunks[i] == Chunk(written[d+i], |written[d+i]|))
      && used == |Joined(written[d..])|
    }

    ghost predicate Valid()
      reads this
    {
      && Evicted() >= 0
      && Holds(Evicted())
      && IsWindow(written, keep, Evicted())
      && total == |Joined(written)|
      && (cut <==> Evicted() > 0)
    }

    constructor (keep: int)
      ensures Valid() && written == [] && this.keep == keep
    {
      this.keep := keep;
      chunks, used, total, cut, written := [], 0, 0, false, [];
    }

    // Empty chunks are not kept; every other one is appended and the oldest make room for it.
    method Write(chunk: seq<Byte>)
      requires Valid()
      modifies this
      ensures Valid()
      ensures written == if chunk == [] then old(written) else old(written) + [chunk]
    {
      if |chunk| == 0 {
        return;
      }
      Append(chunk);
      Evict();
    }

    method Evict()
      requires Evicted() >= 0 && Holds(Evicted()) && |chunks| >= 1
      requires total == |Joined(written)| && (cut <==> Evicted() > 0)
      requires Evicted() > 0 ==> keep > 0 && |Joined(written[Evicted()-1..])| > keep
      modifies `chunks, `used, `cut
      ensures Valid()
    {
      while keep > 0 && used > keep && |chunks| > 1
        invariant Evicted() >= 0 && Holds(Evicted()) && |chunks| >= 1
        invariant cut <==> Evicted() > 0
        invariant Evicted() > 0 ==> keep > 0 && |Joined(written[Evicted()-1..])| > keep
        decreases |chunks|
      {
        EvictedSize(written, Evicted());
        var oldest := chunks[0];
        chunks := chunks[1..];
        used := used - oldest.size;
        cut := true;
      }
    }

    method Append(chunk: seq<Byte>)
      requires Valid() && chunk != []
      modifies this
      ensures written == old(written) + [chunk]
      ensures Evicted() == old(Evicted()) && Holds(Evicted()) && |chunks| == |old(chunks)| + 1
      ensures total == |Joined(written)| && cut == old(cut)
      ensures Evicted() > 0 ==> keep > 0 && |Joined(written[Evicted()-1..])| > keep
    {
      ghost var d := Evicted();
      JoinedSnoc(written, chunk);
      JoinedSnoc(written[d..], chunk);
      assert (written + [chunk])[d..] == written[d..] + [chunk];
      if d > 0 {
        JoinedSnoc(written[d-1..], chunk);
        assert (written + [chunk])[d-1..] == written[d-1..] + [chunk];
      }
      chunks := chunks + [Chunk(chunk, |chunk|)];
      used := used + |chunk|;
      total := total + |chunk|;
      written := written + [chunk];
    }

    // Joining the chunks' texts; decoding into characters is a parameter.
    method Finalize(maxChars: int, decode: seq<Byte> -> string) returns (out: string)
      requires Valid()
      ensures exists kept ::
        KeptTail(kept) && out == (if cut then BANNER else "") + Estimate.TruncateTail(decode(kept), maxChars, TRUNCATED)
    {
      var body: seq<Byte> := [];
      ghost var d := Evicted();
      assert written[d..][..0] == [];
      for i := 0 to |chunks|
        invariant body == Joined(written[d..][..i])
      {
        JoinedSnoc(written[d..][..i], chunks[i].text);
        assert written[d..][..i+1] == written[d..][..i] + [chunks[i].text];
        body := body + chunks[i].text;
      }
      assert written[d..][..|chunks|] == written[d..];
      JoinedSuffix(written, 0, d);
      assert written[0..] == written;
      assert KeptTail(body);
      out := Estimate.TruncateTail(decode(body), maxChars, TRUNCATED);
      if cut {
        out := BANNER + out;
      } else {
        out := "" + out;
      }
    }

    // A tail of the output, all of it unless `cut` is set.
    ghost predicate KeptTail(kept: seq<Byte>)
      reads this
    {
      && |kept| <= |Joined(written)| && Joined(written)[|Joined(written)|-|kept|..] == kept
      && (!cut ==> kept == Joined(written))
      && Evicted() >= 0 && kept == Joined(written[Evicted()..])
    }
  }

  // ---------------------------------------------------------------- drainPipe

  // What was written since the first chunk is the rendering of the stream up to its rest, in pieces
  // that are valid text when the stream is.
  ghost predicate Rendered(pieces: seq<seq<Byte>>, stream: seq<Byte>, rest: seq<Byte>) {
    && Joined(pieces) + Escape(rest) == Escape(stream)
    && (Utf8.Valid(stream) ==> Utf8.Valid(rest) && AllValid(pieces))
  }

  predicate AllValid(pieces: seq<seq<Byte>>) {
    forall k :: 0 <= k < |pieces| ==> Utf8.Valid(pieces[k])
  }

  lemma RenderedStep(pieces: seq<seq<Byte>>, stream: seq<Byte>, rest: seq<Byte>, text: seq<Byte>, after: seq<Byte>)
    requires Rendered(pieces, stream, rest)
    requires Escape(rest) == text + Escape(after)
    requires Utf8.Valid(rest) ==> Utf8.Valid(text) && Utf8.Valid(after)
    ensures Rendered(pieces + [text], stream, after)
    ensures text == [] ==> Rendered(pieces, stream, after)
  {
    JoinedSnoc(pieces, text);
    Assoc(Joined(pieces), text, Escape(after));
    assert text == [] ==> Joined(pieces) + text == Joined(pieces);
  }

  lemma RenderedNext(pieces: seq<seq<Byte>>, stream: seq<Byte>, chunk: seq<Byte>, future: seq<Byte>, cut: nat)
    requires cut <= |chunk| && Safe(chunk + future, cut)
    requires Rendered(pieces, stream, chunk + future)
    ensures Rendered(pieces + [Escape(chunk[..cut])], stream, chunk[cut..] + future)
    ensures Escape(chunk[..cut]) == [] ==> Rendered(pieces, stream, chunk[cut..] + future)
  {
    Advance(chunk, future, cut);
    RenderedStep(pieces, stream, chunk + future, Escape(chunk[..cut]), chunk[cut..] + future);
  }

  // One read: the pending bytes are put in front and the part up to the cut is written.
  method Feed(accum: OutputAccum, pending: seq<Byte>, arrival: seq<Byte>, ghost first: nat, ghost stream: seq<Byte>,
        ghost future: seq<Byte>)
      returns (left: seq<Byte>)
    requires accum.Valid() && first <= |accum.written|
    requires Rendered(accum.written[first..], stream, (pending + arrival) + future)
    modifies accum
    ensures accum.Valid() && first <= |accum.written| && accum.written[..first] == old(accum.written[..first])
    ensures Rendered(accum.written[first..], stream, left + future) && |left| <= 4
  {
    var chunk := pending + arrival;
    var cut := CutPoint(chunk);
    var text := EscapeNonUTF8(chunk[..cut]);
    RenderedNext(accum.written[first..], stream, chunk, future, cut);
    WriteNext(accum, text, first);
    left := chunk[cut..];
  }

  // Whatever the bytes are and however they arrive, what is written is the rendering of the whole
  // stream.  For valid UTF-8 that is the stream itself, in pieces that are each valid text: none of
  // them begins or ends inside a character.
  method DrainPipe(arrivals: seq<seq<Byte>>, accum: OutputAccum)
    requires accum.Valid()
    modifies accum
    ensures accum.Valid() && |old(accum.written)| <= |accum.written|
    ensures accum.written[..|old(accum.written)|] == old(accum.written)
    ensures Joined(accum.written[|old(accum.written)|..]) == Escape(Joined(arrivals))
    ensures Utf8.Valid(Joined(arrivals)) ==>
              && Joined(accum.written[|old(accum.written)|..]) == Joined(arrivals)
              && AllValid(accum.written[|old(accum.written)|..])
  {
    var pending: seq<Byte> := [];
    ghost var first, stream := |accum.written|, Joined(arrivals);
    assert accum.written[first..] == [] && accum.written[..first] == accum.written;
    assert arrivals[0..] == arrivals && pending + stream == stream;
    for i := 0 to |arrivals|
      invariant accum.Valid() && first <= |accum.written| && accum.written[..first] == old(accum.written)
      invariant Rendered(accum.written[first..], stream, pending + Joined(arrivals[i..])) && |pending| <= 4
    {
      assert arrivals[i..][0] == arrivals[i] && arrivals[i..][1..] == arrivals[i+1..];
      assert pending + Joined(arrivals[i..]) == (pending + arrivals[i]) + Joined(arrivals[i+1..]);
      if |arrivals[i]| > 0 {
        pending := Feed(accum, pending, arrivals[i], first, stream, Joined(arrivals[i+1..]));
      } else {
        assert pending + arrivals[i] == pending;
      }
    }
    assert arrivals[|arrivals|..] == [] && pending + [] == pending;
    if |pending| > 0 {
      var text := EscapeNonUTF8(pending);
      RenderedLast(accum.written[first..], stream, pending);
      WriteNext(accum, text, first);
    }
    RenderedWhole(accum.written[first..], stream);
  }

  lemma RenderedLast(pieces: seq<seq<Byte>>, stream: seq<Byte>, pending: seq<Byte>)
    requires Rendered(pieces, stream, pending) && pending != []
    ensures Rendered(pieces + [Escape(pending)], stream, []) && Escape(pending) != []
  {
    EscapeKeepsExactlyValid(pending);
    EscapeGrows(pending);
    JoinedSnoc(pieces, Escape(pending));
  }

  lemma RenderedWhole(pieces: seq<seq<Byte>>, stream: seq<Byte>)
    requires Rendered(pieces, stream, [])
    ensures Joined(pieces) == Escape(stream)
    ensures Utf8.Valid(stream) ==> Joined(pieces) == stream && AllValid(pieces)
  {
    EscapeKeepsExactlyValid(stream);
    assert Joined(pieces) + [] == Joined(pieces);
  }

  lemma Advance(chunk: seq<Byte>, future: seq<Byte>, cut: nat)
    requires cut <= |chunk| && Safe(chunk + future, cut)
    ensures Escape(chunk + future) == Escape(chunk[..cut]) + Escape((chunk + future)[cut..])
    ensures (chunk + future)[cut..] == chunk[cut..] + future
    ensures Utf8.Valid(chunk + future) ==>
              Escape(chunk[..cut]) == chunk[..cut] && Utf8.Valid(chunk[..cut]) && Utf8.Valid((chunk + future)[cut..])
  {
    assert (chunk + future)[..cut] == chunk[..cut];
    EscapeSplits(chunk + future, cut);
    if Utf8.Valid(chunk + future) {
      ValidSplits(chunk + future, cut);
    }
    EscapeKeepsExactlyValid(chunk[..cut]);
  }

  method WriteNext(accum: OutputAccum, text: seq<Byte>, ghost first: nat)
    requires accum.Valid() && first <= |accum.written|
    modifies accum
    ensures accum.Valid() && first <= |accum.written| && accum.written[..first] == old(accum.written[..first])
    ensures accum.written[first..] == if text == [] then old(accum.written[first..])
              else old(accum.written[first..]) + [text]
  {
    accum.Write(text);
  }
}
