/** Glob patterns with ** (miniagent/tools/tool_glob.go: globMatchPath, matchSegs).  filepath.Match on
    one component is a parameter. */
module Glob {
  // Pattern and name; a malformed pattern matches nothing.
  type Matcher = (string, string) -> bool

  // ---------------------------------------------------------------- strings.Split and strings.Join

  function FirstSlash(s: string): (i: nat)
    ensures i <= |s|
    ensures forall j :: 0 <= j < i ==> s[j] != '/'
    ensures i < |s| ==> s[i] == '/'
  {
    if s == "" || s[0] == '/' then 0 else 1 + FirstSlash(s[1..])
  }

  predicate Component(s: string) {
    FirstSlash(s) == |s|
  }

  function Split(s: string): (parts: seq<string>)
    ensures parts != []
    decreases |s|
  {
    var i := FirstSlash(s);
    if i == |s| then [s] else [s[..i]] + Split(s[i+1..])
  }

  function Join(parts: seq<string>): string {
    if parts == [] then ""
    else if |parts| == 1 then parts[0]
    else parts[0] + "/" + Join(parts[1..])
  }

  lemma SlashAt(s: string, i: nat)
    requires i < |s| && s[i] == '/' && forall j :: 0 <= j < i ==> s[j] != '/'
    ensures FirstSlash(s) == i
  {
    var k := FirstSlash(s);
    assert k == i || k < i || i < k;
  }

  lemma {:induction false} JoinSplit(s: string)
    ensures Join(Split(s)) == s
    ensures forall x :: x in Split(s) ==> Component(x)
    decreases |s|
  {
    var i := FirstSlash(s);
    if i < |s| {
      JoinSplit(s[i+1..]);
      var head := s[..i];
      assert ([head] + Split(s[i+1..]))[1..] == Split(s[i+1..]);
      assert s == head + "/" + s[i+1..];
      assert FirstSlash(head) == |head|;
    }
  }

  lemma SplitFirst(head: string, tail: string)
    requires Component(head)
    ensures Split(head + "/" + tail) == [head] + Split(tail)
  {
    var s := head + "/" + tail;
    assert forall j :: 0 <= j < |head| ==> s[j] == head[j];
    SlashAt(s, |head|);
    assert s[..|head|] == head && s[|head|+1..] == tail;
  }

  lemma {:induction false} SplitJoin(parts: seq<string>)
    requires parts != [] && forall x :: x in parts ==> Component(x)
    ensures Split(Join(parts)) == parts
    decreases |parts|
  {
    assert parts[0] in parts;
    if |parts| > 1 {
      SplitJoin(parts[1..]);
      SplitFirst(parts[0], Join(parts[1..]));
      assert parts == [parts[0]] + parts[1..];
    } else {
      assert parts == [parts[0]];
    }
  }

  // ---------------------------------------------------------------- matching by backtracking

  function Head(path: string): string {
    path[..FirstSlash(path)]
  }

  function Tail(path: string): string {
    var i := FirstSlash(path);
    if i == |path| then "" else path[i+1..]
  }

  // The path without its first components.
  function Dropped(path: string, drop: nat): string
    requires drop <= |Split(path)|
  {
    Join(Split(path)[drop..])
  }

  predicate MatchPath(m: Matcher, segs: seq<string>, path: string)
    decreases |segs|
  {
    if segs == [] then path == ""
    else if segs[0] == "**"
      then exists drop: nat :: drop <= |Split(path)| && MatchPath(m, segs[1..], Dropped(path, drop))
    else path != "" && m(segs[0], Head(path)) && MatchPath(m, segs[1..], Tail(path))
  }

  // Dropping components, and then dropping more of what is left.
  lemma DropTwice(path: string, d: nat, e: nat) returns (drop: nat)
    requires d <= |Split(path)| && e <= |Split(Dropped(path, d))|
    ensures drop <= |Split(path)| && Dropped(Dropped(path, d), e) == Dropped(path, drop)
  {
    var rest := Split(path)[d..];
    JoinSplit(path);
    if rest == [] {
      assert Split(Join(rest)) == [""];
      assert [""][e..] == if e == 0 then [""] else [];
      drop := |Split(path)|;
    } else {
      SplitJoin(rest);
      assert rest[e..] == Split(path)[d+e..];
      drop := d + e;
    }
  }

  lemma DropNone(path: string)
    ensures Dropped(path, 0) == path
  {
    JoinSplit(path);
    assert Split(path)[0..] == Split(path);
  }

  // Consecutive ** mean the same as one: on every path, clean or not.
  lemma Collapse(m: Matcher, segs: seq<string>, path: string)
    requires |segs| > 1 && segs[0] == "**" && segs[1] == "**"
    ensures MatchPath(m, segs, path) <==> MatchPath(m, segs[1..], path)
  {
    var one := segs[1..];
    if MatchPath(m, segs, path) {
      var d: nat :| d <= |Split(path)| && MatchPath(m, one, Dropped(path, d));
      var left := Dropped(path, d);
      var e: nat :| e <= |Split(left)| && MatchPath(m, one[1..], Dropped(left, e));
      var drop := DropTwice(path, d, e);
      assert MatchPath(m, one[1..], Dropped(path, drop));
    }
    if MatchPath(m, one, path) {
      DropNone(path);
      assert MatchPath(m, segs[1..], Dropped(path, 0));
    }
  }

  method MatchSegs(m: Matcher, pattern: seq<string>, whole: string) returns (ok: bool)
    ensures ok <==> MatchPath(m, pattern, whole)
    decreases |pattern|, 1
  {
    var segs, path := pattern, whole;
    while |segs| > 0
      invariant |segs| <= |pattern|
      invariant MatchPath(m, segs, path) <==> MatchPath(m, pattern, whole)
      decreases |segs|
    {
      if segs[0] == "**" {
        segs := CollapseStars(m, segs, path);
        ok := TryDrops(m, segs, path);
        return;
      }
      if path == "" {
        return false;
      }
      var head, tail := Cut(path);
      if !m(segs[0], head) {
        return false;
      }
      path := tail;
      segs := segs[1..];
    }
    ok := path == "";
  }

  // The backtracking loop of a ** segment.
  method TryDrops(m: Matcher, segs: seq<string>, path: string) returns (ok: bool)
    requires segs != [] && segs[0] == "**"
    ensures ok <==> MatchPath(m, segs, path)
    decreases |segs|, 0
  {
    var rest := Split(path);
    for drop := 0 to |rest| + 1
      invariant forall d: nat :: d < drop ==> !MatchPath(m, segs[1..], Dropped(path, d))
    {
      var hit := MatchSegs(m, segs[1..], Join(rest[drop..]));
      if hit {
        assert MatchPath(m, segs[1..], Dropped(path, drop));
        return true;
      }
    }
    return false;
  }

  method Cut(path: string) returns (head: string, tail: string)
    ensures head == Head(path) && tail == Tail(path)
  {
    head, tail := path, "";
    var i := FirstSlash(path);
    if i < |path| {
      head := path[..i];
      tail := path[i+1..];
    } else {
      assert path[..i] == path;
    }
  }

  method CollapseStars(m: Matcher, pattern: seq<string>, ghost path: string) returns (segs: seq<string>)
    requires |pattern| > 0 && pattern[0] == "**"
    ensures 0 < |segs| <= |pattern| && segs[0] == "**"
    ensures MatchPath(m, segs, path) <==> MatchPath(m, pattern, path)
  {
    segs := pattern;
    while |segs| > 1 && segs[1] == "**"
      invariant 0 < |segs| <= |pattern| && segs[0] == "**"
      invariant MatchPath(m, segs, path) <==> MatchPath(m, pattern, path)
      decreases |segs|
    {
      Collapse(m, segs, path);
      segs := segs[1..];
    }
  }

  // ---------------------------------------------------------------- what a pattern means

  function Concat(parts: seq<seq<string>>): seq<string> {
    if parts == [] then [] else parts[0] + Concat(parts[1..])
  }

  predicate Fits(m: Matcher, seg: string, part: seq<string>) {
    seg == "**" || (|part| == 1 && m(seg, part[0]))
  }

  // The components are divided among the segments: any number to each **, one to every other, which
  // must match it.
  predicate Division(m: Matcher, segs: seq<string>, comps: seq<string>, parts: seq<seq<string>>) {
    |parts| == |segs| && Concat(parts) == comps && forall i :: 0 <= i < |segs| ==> Fits(m, segs[i], parts[i])
  }

  ghost predicate Divides(m: Matcher, segs: seq<string>, comps: seq<string>) {
    exists parts :: Division(m, segs, comps, parts)
  }

  lemma DividesFirst(m: Matcher, segs: seq<string>, comps: seq<string>, k: nat)
    requires segs != [] && k <= |comps| && Fits(m, segs[0], comps[..k]) && Divides(m, segs[1..], comps[k..])
    ensures Divides(m, segs, comps)
  {
    var rest :| Division(m, segs[1..], comps[k..], rest);
    var parts := [comps[..k]] + rest;
    assert parts[1..] == rest && comps[..k] + comps[k..] == comps;
    forall i | 0 <= i < |segs| ensures Fits(m, segs[i], parts[i]) {
      if i > 0 {
        assert segs[i] == segs[1..][i-1] && parts[i] == rest[i-1];
      }
    }
    assert Division(m, segs, comps, parts);
  }

  lemma DividesRest(m: Matcher, segs: seq<string>, comps: seq<string>) returns (k: nat)
    requires segs != [] && Divides(m, segs, comps)
    ensures k <= |comps| && Fits(m, segs[0], comps[..k]) && Divides(m, segs[1..], comps[k..])
  {
    var parts :| Division(m, segs, comps, parts);
    k := |parts[0]|;
    assert comps[..k] == parts[0] && comps[k..] == Concat(parts[1..]);
    forall i | 0 <= i < |segs| - 1 ensures Fits(m, segs[1..][i], parts[1..][i]) {
      assert Fits(m, segs[i+1], parts[i+1]);
    }
    assert Division(m, segs[1..], comps[k..], parts[1..]);
  }

  // A clean relative path: its components are not empty and hold no slash.
  predicate Clean(comps: seq<string>) {
    forall x :: x in comps ==> x != "" && Component(x)
  }

  // Backtracking finds a division exactly if there is one.
  lemma {:induction false} MatchIsDivision(m: Matcher, segs: seq<string>, comps: seq<string>)
    requires Clean(comps)
    ensures MatchPath(m, segs, Join(comps)) <==> Divides(m, segs, comps)
    decreases |segs|
  {
    if segs == [] {
      NoSegments(m, comps);
    } else if segs[0] == "**" {
      StarIsDivision(m, segs, comps);
    } else {
      OneIsDivision(m, segs, comps);
    }
  }

  lemma NoSegments(m: Matcher, comps: seq<string>)
    requires Clean(comps)
    ensures Join(comps) == "" <==> comps == []
    ensures Divides(m, [], comps) <==> comps == []
  {
    if comps != [] {
      assert comps[0] in comps;
      forall parts ensures !Division(m, [], comps, parts) {
      }
    } else {
      assert Division(m, [], comps, []);
    }
  }

  // Dropping from the path is dropping components; an empty path splits into one empty part.
  lemma DropsComponents(comps: seq<string>, d: nat) returns (k: nat)
    requires Clean(comps) && d <= |Split(Join(comps))|
    ensures k <= |comps| && Dropped(Join(comps), d) == Join(comps[k..])
    ensures comps != [] ==> k == d
  {
    if comps != [] {
      SplitJoin(comps);
      k := d;
    } else {
      assert Split("") == [""];
      assert [""][0..] == [""] && [""][1..] == [];
      k := 0;
    }
  }

  lemma LengthOfSplit(comps: seq<string>)
    requires Clean(comps)
    ensures |Split(Join(comps))| >= |comps|
  {
    if comps != [] {
      SplitJoin(comps);
    }
  }

  lemma StarIsDivision(m: Matcher, segs: seq<string>, comps: seq<string>)
    requires Clean(comps) && segs != [] && segs[0] == "**"
    ensures MatchPath(m, segs, Join(comps)) <==> Divides(m, segs, comps)
    decreases |segs|, 0
  {
    if MatchPath(m, segs, Join(comps)) {
      var d: nat :| d <= |Split(Join(comps))| && MatchPath(m, segs[1..], Dropped(Join(comps), d));
      var k := DropsComponents(comps, d);
      MatchIsDivision(m, segs[1..], comps[k..]);
      DividesFirst(m, segs, comps, k);
    } else {
      forall k: nat | k <= |comps| ensures !Divides(m, segs[1..], comps[k..]) {
        LengthOfSplit(comps);
        var j := DropsComponents(comps, k);
        assert comps[j..] == comps[k..];
        assert !MatchPath(m, segs[1..], Dropped(Join(comps), k));
        MatchIsDivision(m, segs[1..], comps[k..]);
      }
      NoDivision(m, segs, comps);
    }
  }

  lemma NoDivision(m: Matcher, segs: seq<string>, comps: seq<string>)
    requires segs != [] && forall k: nat :: k <= |comps| ==> !Divides(m, segs[1..], comps[k..])
    ensures !Divides(m, segs, comps)
  {
    if Divides(m, segs, comps) {
      var k := DividesRest(m, segs, comps);
    }
  }

  lemma OneIsDivision(m: Matcher, segs: seq<string>, comps: seq<string>)
    requires Clean(comps) && segs != [] && segs[0] != "**"
    ensures MatchPath(m, segs, Join(comps)) <==> Divides(m, segs, comps)
    decreases |segs|, 0
  {
    if comps == [] {
      if Divides(m, segs, comps) {
        var k := DividesRest(m, segs, comps);
      }
    } else {
      HeadOfJoin(comps);
      MatchIsDivision(m, segs[1..], comps[1..]);
      if Divides(m, segs, comps) {
        var k := DividesRest(m, segs, comps);
        assert k == 1 && comps[..1] == [comps[0]];
      }
      if MatchPath(m, segs, Join(comps)) {
        assert comps[..1] == [comps[0]];
        DividesFirst(m, segs, comps, 1);
      }
    }
  }

  lemma HeadOfJoin(comps: seq<string>)
    requires Clean(comps) && comps != []
    ensures Join(comps) != "" && Head(Join(comps)) == comps[0] && Tail(Join(comps)) == Join(comps[1..])
  {
    assert comps[0] in comps;
    if |comps| == 1 {
      assert comps[0][..|comps[0]|] == comps[0];
    } else {
      var path := comps[0] + "/" + Join(comps[1..]);
      assert forall j :: 0 <= j < |comps[0]| ==> path[j] == comps[0][j];
      SlashAt(path, |comps[0]|);
      assert path[..|comps[0]|] == comps[0] && path[|comps[0]|+1..] == Join(comps[1..]);
    }
  }

  // ---------------------------------------------------------------- globMatchPath

  // path.Base of a clean relative path.
  function Base(comps: seq<string>): string {
    if comps == [] then "." else comps[|comps|-1]
  }

  // A pattern without a slash is matched against the name alone; with one, segment by segment.
  method GlobMatchPath(m: Matcher, pattern: string, comps: seq<string>) returns (ok: bool)
    requires Clean(comps)
    ensures Component(pattern) ==> (ok <==> m(pattern, if comps == [] then "." else comps[|comps|-1]))
    ensures !Component(pattern) ==> (ok <==> Divides(m, Split(pattern), comps))
  {
    if FirstSlash(pattern) == |pattern| {
      return m(pattern, Base(comps));
    }
    ok := MatchSegs(m, Split(pattern), Join(comps));
    MatchIsDivision(m, Split(pattern), comps);
  }
}
