/** UTF-8 at byte level, after section 4 of RFC 3629, and the rendering of bytes that are not UTF-8
    (miniagent/tools/run_limited.go: escapeNonUTF8, utf8FullRune). */
module Utf8 {
  import opened Seqs

  type Byte = x: int | 0 <= x < 256

  predicate Tail(b: Byte) {
    0x80 <= b <= 0xBF
  }

  // The first two bytes of a three-byte and of a four-byte sequence: no overlong form, no surrogate,
  // nothing above U+10FFFF.
  predicate Starts3(a: Byte, b: Byte) {
    || (a == 0xE0 && 0xA0 <= b <= 0xBF)
    || ((0xE1 <= a <= 0xEC || 0xEE <= a <= 0xEF) && Tail(b))
    || (a == 0xED && 0x80 <= b <= 0x9F)
  }

  predicate Starts4(a: Byte, b: Byte) {
    || (a == 0xF0 && 0x90 <= b <= 0xBF)
    || (0xF1 <= a <= 0xF3 && Tail(b))
    || (a == 0xF4 && 0x80 <= b <= 0x8F)
  }

  // The length of the character at the front, 0 if there is none (utf8.DecodeRune then reports an
  // error of size 1).
  function RuneLen(s: seq<Byte>): (k: nat)
    ensures k <= 4 && k <= |s|
  {
    if |s| >= 1 && s[0] < 0x80 then 1
    else if |s| >= 2 && 0xC2 <= s[0] <= 0xDF && Tail(s[1]) then 2
    else if |s| >= 3 && Starts3(s[0], s[1]) && Tail(s[2]) then 3
    else if |s| >= 4 && Starts4(s[0], s[1]) && Tail(s[2]) && Tail(s[3]) then 4
    else 0
  }

  // The Unicode scalar values, and how section 3 of RFC 3629 encodes them.
  predicate Scalar(cp: int) {
    0 <= cp <= 0x10FFFF && !(0xD800 <= cp <= 0xDFFF)
  }

  function Encode(cp: int): seq<Byte>
    requires Scalar(cp)
  {
    if cp < 0x80 then [cp]
    else if cp < 0x800 then [0xC0 + cp / 64, 0x80 + cp % 64]
    else if cp < 0x10000 then [0xE0 + cp / 4096, 0x80 + cp / 64 % 64, 0x80 + cp % 64]
    else [0xF0 + cp / 262144, 0x80 + cp / 4096 % 64, 0x80 + cp / 64 % 64, 0x80 + cp % 64]
  }

  // There is a character at the front exactly if the text begins with the encoding of a scalar value.
  lemma RuneLenIff(s: seq<Byte>, k: nat)
    ensures RuneLen(s) == k && k > 0 <==> exists cp :: Scalar(cp) && Encode(cp) <= s && |Encode(cp)| == k
  {
    if RuneLen(s) == k && k > 0 {
      var cp := Decode(s);
    }
    if cp :| Scalar(cp) && Encode(cp) <= s && |Encode(cp)| == k {
      Encoded(s, cp);
    }
  }

  // Digits to the base 64.
  lemma Digits64(x: int, y: int, z: int)
    requires 0 <= x && 0 <= y < 64 && 0 <= z < 64
    ensures var n := x * 4096 + y * 64 + z;
            n % 64 == z && n / 64 == x * 64 + y && n / 64 % 64 == y && n / 4096 == x
  {
  }

  lemma Decode2(a: Byte, b: Byte) returns (cp: int)
    requires 0xC2 <= a <= 0xDF && Tail(b)
    ensures Scalar(cp) && Encode(cp) == [a, b]
  {
    var x: int, y: int := a, b;
    cp := (x - 0xC0) * 64 + (y - 0x80);
  }

  lemma Decode3(a: Byte, b: Byte, c: Byte) returns (cp: int)
    requires Starts3(a, b) && Tail(c)
    ensures Scalar(cp) && Encode(cp) == [a, b, c]
  {
    var x: int, y: int, z: int := a, b, c;
    cp := (x - 0xE0) * 4096 + (y - 0x80) * 64 + (z - 0x80);
    Digits64(x - 0xE0, y - 0x80, z - 0x80);
  }

  lemma Decode4(a: Byte, b: Byte, c: Byte, d: Byte) returns (cp: int)
    requires Starts4(a, b) && Tail(c) && Tail(d)
    ensures Scalar(cp) && Encode(cp) == [a, b, c, d]
  {
    var w: int, x: int, y: int, z: int := a, b, c, d;
    var high := (w - 0xF0) * 64 + (x - 0x80);
    cp := high * 4096 + (y - 0x80) * 64 + (z - 0x80);
    Digits64(high, y - 0x80, z - 0x80);
    assert cp / 4096 % 64 == x - 0x80 && cp / 262144 == w - 0xF0;
  }

  lemma Decode(s: seq<Byte>) returns (cp: int)
    requires RuneLen(s) > 0
    ensures Scalar(cp) && Encode(cp) == s[..RuneLen(s)]
  {
    match RuneLen(s)
    case 1 => cp := s[0];
    case 2 => cp := Decode2(s[0], s[1]);
    case 3 => cp := Decode3(s[0], s[1], s[2]);
    case _ => cp := Decode4(s[0], s[1], s[2], s[3]);
  }

  lemma Encoded(s: seq<Byte>, cp: int)
    requires Scalar(cp) && Encode(cp) <= s
    ensures RuneLen(s) == |Encode(cp)|
  {
    var code := Encode(cp);
    assert forall i :: 0 <= i < |code| ==> s[i] == code[i];
  }

  // utf8.Valid.
  predicate Valid(s: seq<Byte>)
    decreases |s|
  {
    s == [] || (RuneLen(s) > 0 && Valid(s[RuneLen(s)..]))
  }

  function HexDigit(d: nat): (c: Byte)
    requires d < 16
    ensures c < 0x80
  {
    if d < 10 then 0x30 + d else 0x37 + d
  }

  // Format "%02X ".
  function Hex(b: Byte): (s: seq<Byte>) {
    [HexDigit(b / 16), HexDigit(b % 16), 0x20]
  }

  // Two upper-case digits and a space.
  lemma HexIs(b: Byte)
    ensures |Hex(b)| == 3 && Hex(b)[2] == ' ' as int
    ensures Hex(b)[0] == "0123456789ABCDEF"[b / 16] as int && Hex(b)[1] == "0123456789ABCDEF"[b % 16] as int
  {
    DigitIs(b / 16);
    DigitIs(b % 16);
  }

  lemma DigitIs(d: nat)
    requires d < 16
    ensures HexDigit(d) == "0123456789ABCDEF"[d] as int
  {
  }

  // One step of the decoding: a character, or a single byte that begins none ...
  function Step(s: seq<Byte>): (n: nat)
    requires s != []
    ensures 0 < n <= |s|
  {
    if RuneLen(s) == 0 then 1 else RuneLen(s)
  }

  // ... and how it is rendered.
  function Shown(s: seq<Byte>): seq<Byte>
    requires s != []
  {
    if RuneLen(s) == 0 then Hex(s[0]) else s[..RuneLen(s)]
  }

  function Escape(s: seq<Byte>): seq<Byte>
    decreases |s|
  {
    if s == [] then [] else Shown(s) + Escape(s[Step(s)..])
  }

  method EscapeNonUTF8(input: seq<Byte>) returns (out: seq<Byte>)
    ensures out == Escape(input)
  {
    if Valid(input) {
      EscapeKeepsExactlyValid(input);
      return input;
    }
    var b := input;
    out := [];
    while |b| > 0
      invariant out + Escape(b) == Escape(input)
      decreases |b|
    {
      var size := RuneLen(b);
      Assoc(out, Shown(b), Escape(b[Step(b)..]));
      if size == 0 {
        out := out + Hex(b[0]);
        b := b[1..];
        continue;
      }
      out := out + b[..size];
      b := b[size..];
    }
  }

  // ---------------------------------------------------------------- what escaping does

  // A character is kept and a byte that begins none is written in hexadecimal.
  lemma EscapeIs(s: seq<Byte>, cp: int)
    ensures Escape([]) == []
    ensures Scalar(cp) ==> Escape(Encode(cp) + s) == Encode(cp) + Escape(s)
    ensures s != [] && (forall c :: Scalar(c) ==> !(Encode(c) <= s)) ==> Escape(s) == Hex(s[0]) + Escape(s[1..])
  {
    if Scalar(cp) {
      var all := Encode(cp) + s;
      Encoded(all, cp);
      assert all[..|Encode(cp)|] == Encode(cp) && all[|Encode(cp)|..] == s;
    }
    RuneLenIff(s, RuneLen(s));
  }

  lemma {:induction false} EscapeGrows(s: seq<Byte>)
    ensures |Escape(s)| >= |s| && (|Escape(s)| == |s| ==> Valid(s))
    decreases |s|
  {
    if s == [] {
    } else {
      EscapeGrows(s[Step(s)..]);
    }
  }

  // Valid text is kept as it is, and nothing else is.
  lemma {:induction false} EscapeKeepsExactlyValid(s: seq<Byte>)
    ensures Escape(s) == s <==> Valid(s)
    decreases |s|
  {
    EscapeGrows(s);
    if s != [] && Valid(s) {
      EscapeKeepsExactlyValid(s[Step(s)..]);
      TakeDrop(s, Step(s));
    }
  }

  lemma RuneLenPrefix(s: seq<Byte>, n: nat)
    requires n <= |s|
    ensures RuneLen(s[..n]) == if RuneLen(s) <= n then RuneLen(s) else 0
  {
  }

  lemma RuneLenExtends(s: seq<Byte>, t: seq<Byte>)
    requires RuneLen(s) > 0
    ensures RuneLen(s + t) == RuneLen(s)
  {
  }

  lemma AsciiFirst(b: Byte, s: seq<Byte>)
    requires b < 0x80 && Valid(s)
    ensures Valid([b] + s)
  {
    assert ([b] + s)[1..] == s;
  }

  lemma HexFirst(b: Byte, rest: seq<Byte>)
    requires Valid(rest)
    ensures Valid(Hex(b) + rest)
  {
    var hex := Hex(b);
    AsciiFirst(hex[2], rest);
    AsciiFirst(hex[1], [hex[2]] + rest);
    AsciiFirst(hex[0], [hex[1]] + ([hex[2]] + rest));
    assert hex + rest == [hex[0]] + ([hex[1]] + ([hex[2]] + rest));
  }

  lemma {:induction false} EscapeIsValid(s: seq<Byte>)
    ensures Valid(Escape(s))
    decreases |s|
  {
    if s == [] {
    } else {
      var rest := Escape(s[Step(s)..]);
      EscapeIsValid(s[Step(s)..]);
      if RuneLen(s) == 0 {
        HexFirst(s[0], rest);
      } else {
        RuneFirst(s[..RuneLen(s)], s[RuneLen(s)..], rest);
        TakeDrop(s, RuneLen(s));
      }
    }
  }

  lemma RuneFirst(rune: seq<Byte>, before: seq<Byte>, rest: seq<Byte>)
    requires rune != [] && RuneLen(rune + before) == |rune| && Valid(rest)
    ensures Valid(rune + rest)
  {
    assert (rune + before)[..|rune|] == rune && (rune + rest)[|rune|..] == rest;
    RuneLenPrefix(rune + before, |rune|);
    RuneLenExtends(rune, rest);
  }

  // ---------------------------------------------------------------- cutting

  // No character of s reaches over position c, wherever in s one looks for characters.
  ghost predicate Safe(s: seq<Byte>, c: nat)
    requires c <= |s|
  {
    forall p :: 0 <= p < c ==> p + RuneLen(s[p..]) <= c
  }

  lemma SafeSuffix(s: seq<Byte>, c: nat, k: nat)
    requires k <= c <= |s| && Safe(s, c)
    ensures Safe(s[k..], c - k)
  {
    forall p | 0 <= p < c - k ensures p + RuneLen(s[k..][p..]) <= c - k {
      assert s[k..][p..] == s[k+p..];
      assert (k + p) + RuneLen(s[k+p..]) <= c;
    }
  }

  lemma EscapeStep(s: seq<Byte>, shown: seq<Byte>, step: nat)
    requires s != [] && step == Step(s) && shown == Shown(s)
    ensures Escape(s) == shown + Escape(s[step..])
  {
  }

  lemma ValidStep(s: seq<Byte>, step: nat)
    requires s != [] && step == Step(s)
    ensures Valid(s) <==> RuneLen(s) > 0 && Valid(s[step..])
  {
  }

  // A safe cut divides the text and its rendering: so the rendering of a stream does not depend on
  // how the stream is cut up.
  lemma {:induction false} EscapeSplits(s: seq<Byte>, c: nat)
    requires c <= |s| && Safe(s, c)
    ensures Escape(s) == Escape(s[..c]) + Escape(s[c..])
    decreases c
  {
    hide Escape, RuneLen;
    if c == 0 {
      NothingBefore(s);
    } else {
      var step, shown := FirstStep(s, c);
      EscapeSplits(s[step..], c - step);
      EscapeStep(s, shown, step);
      EscapeStep(s[..c], shown, step);
      Assoc(shown, Escape(s[step..][..c - step]), Escape(s[c..]));
    }
  }

  lemma NothingBefore(s: seq<Byte>)
    ensures s[..0] == [] && s[0..] == s && Escape(s) == Escape(s[..0]) + Escape(s[0..]) && Valid(s[..0])
  {
  }

  lemma {:induction false} ValidSplits(s: seq<Byte>, c: nat)
    requires c <= |s| && Safe(s, c)
    ensures Valid(s) <==> Valid(s[..c]) && Valid(s[c..])
    decreases c
  {
    hide Valid, RuneLen;
    if c == 0 {
      NothingBefore(s);
    } else {
      var step, shown := FirstStep(s, c);
      ValidSplits(s[step..], c - step);
      ValidStep(s, step);
      ValidStep(s[..c], step);
    }
  }

  // What decoding does first is the same for the whole text and for its part before a safe cut.
  lemma FirstStep(s: seq<Byte>, c: nat) returns (step: nat, shown: seq<Byte>)
    requires 0 < c <= |s| && Safe(s, c)
    ensures 0 < step <= c && Safe(s[step..], c - step)
    ensures s[..c] != [] && step == Step(s) == Step(s[..c]) && shown == Shown(s) == Shown(s[..c])
    ensures RuneLen(s[..c]) == RuneLen(s)
    ensures s[..c][step..] == s[step..][..c - step] && s[step..][c - step..] == s[c..]
  {
    assert s[0..] == s;
    assert 0 + RuneLen(s[0..]) <= c;
    step, shown := Step(s), Shown(s);
    RuneLenPrefix(s, c);
    assert s[..c][..RuneLen(s)] == s[..RuneLen(s)];
    SafeSuffix(s, c, step);
  }

  // ---------------------------------------------------------------- what a rendering tells

  ghost predicate HexAt(s: seq<Byte>, p: int, b: Byte) {
    0 <= p <= |s| - 3 && s[p..p+3] == Hex(b)
  }

  // The text contains what an invalid byte is rendered as.
  ghost predicate LooksEscaped(s: seq<Byte>) {
    exists p, b :: b >= 0x80 && HexAt(s, p, b)
  }

  // A rendering can be traced back to one stream exactly if that stream is valid and holds nothing
  // that looks like an escaped byte.
  lemma EscapeDeterminesIff(s: seq<Byte>)
    ensures (forall t :: Escape(t) == Escape(s) ==> t == s) <==> Valid(s) && !LooksEscaped(s)
  {
    hide Escape, Valid;
    EscapeKeepsExactlyValid(s);
    if !Valid(s) {
      EscapeIsValid(s);
      EscapeKeepsExactlyValid(Escape(s));
      assert Escape(Escape(s)) == Escape(s);
    } else if LooksEscaped(s) {
      var p, b :| b >= 0x80 && HexAt(s, p, b);
      HexHasTwin(s, p, b);
      var t := s[..p] + [b] + s[p+3..];
      assert Escape(t) == Escape(s) && |t| < |s|;
    } else {
      forall t | Escape(t) == Escape(s) ensures t == s {
        EscapeKeepsExactlyValid(t);
        if !Valid(t) {
          InvalidLooksEscaped(t);
        }
      }
    }
  }

  // The shortest such pair: the byte 0xFF and the text "FF ".
  lemma FFTwice()
    ensures Escape([0xFF]) == Escape([0x46, 0x46, 0x20]) == [0x46, 0x46, 0x20]
  {
    var s := [0x46, 0x46, 0x20];
    AsciiFirst(0x20, []);
    AsciiFirst(0x46, [0x20]);
    AsciiFirst(0x46, [0x46, 0x20]);
    assert [0x46] + ([0x46] + ([0x20] + [])) == s;
    assert [0x46] + [0x20] == [0x46, 0x20] && [0x20] + [] == [0x20];
    EscapeKeepsExactlyValid(s);
    EscapeStep([0xFF], s, 1);
  }

  lemma {:induction false} InvalidLooksEscaped(t: seq<Byte>)
    requires !Valid(t)
    ensures LooksEscaped(Escape(t))
    decreases |t|
  {
    var n, shown := Step(t), Shown(t);
    EscapeStep(t, shown, n);
    if RuneLen(t) == 0 {
      assert HexAt(shown + Escape(t[n..]), 0, t[0]);
    } else {
      InvalidLooksEscaped(t[n..]);
      var p, b :| b >= 0x80 && HexAt(Escape(t[n..]), p, b);
      assert (shown + Escape(t[n..]))[|shown|+p..|shown|+p+3] == Escape(t[n..])[p..p+3];
      assert HexAt(Escape(t), |shown| + p, b);
    }
  }

  // Writing the byte for its rendering gives a stream that is shown the same way.
  lemma HexHasTwin(s: seq<Byte>, p: nat, b: Byte)
    requires Valid(s) && b >= 0x80 && HexAt(s, p, b)
    ensures Escape(s[..p] + [b] + s[p+3..]) == s
  {
    hide Escape, Valid, RuneLen;
    var before, rest := s[..p], s[p+3..];
    assert s[p] == Hex(b)[0] && s[p+2] == Hex(b)[2];
    AsciiIsSafe(s, p);
    ValidSplits(s, p);
    BehindAsciiIsSafe(s, p + 3);
    ValidSplits(s, p + 3);
    StrayByte(b, rest);
    ValidPrefixKept(before, [b] + rest);
    assert before + [b] + rest == before + ([b] + rest);
    assert s[p..p+3] == Hex(b) && s == before + (s[p..p+3] + rest);
  }

  lemma AsciiIsSafe(s: seq<Byte>, c: nat)
    requires c < |s| && s[c] < 0x80
    ensures Safe(s, c)
  {
    forall p | 0 <= p < c ensures p + RuneLen(s[p..]) <= c {
      if RuneLen(s[p..]) > 0 { RuneAt(s, p); }
    }
  }

  lemma BehindAsciiIsSafe(s: seq<Byte>, c: nat)
    requires 1 <= c <= |s| && s[c-1] < 0x80
    ensures Safe(s, c)
  {
    forall p | 0 <= p < c ensures p + RuneLen(s[p..]) <= c {
      if RuneLen(s[p..]) > 0 { RuneAt(s, p); }
    }
  }

  // A byte that needs a continuation is alone in front of valid text.
  lemma StrayByte(b: Byte, rest: seq<Byte>)
    requires b >= 0x80 && Valid(rest)
    ensures Escape([b] + rest) == Hex(b) + rest
  {
    var s := [b] + rest;
    EscapeKeepsExactlyValid(rest);
    assert s[1..] == rest;
    assert rest != [] ==> !Tail(rest[0]);
    EscapeStep(s, Hex(b), 1);
  }

  lemma {:induction false} ValidPrefixKept(a: seq<Byte>, rest: seq<Byte>)
    requires Valid(a)
    ensures Escape(a + rest) == a + Escape(rest)
    decreases |a|
  {
    hide Escape, Valid, RuneLen;
    if a == [] {
      assert a + rest == rest;
    } else {
      var n := Step(a);
      ValidStep(a, n);
      RuneLenExtends(a, rest);
      EscapeStep(a + rest, a[..n], n);
      assert (a + rest)[n..] == a[n..] + rest;
      ValidPrefixKept(a[n..], rest);
      Assoc(a[..n], a[n..], Escape(rest));
      TakeDrop(a, n);
    }
  }

  // ---------------------------------------------------------------- utf8FullRune

  // The width announced by a leading byte, judged by its high bits only; 0 for the other bytes.
  function Width(b: Byte): nat {
    if b < 0x80 then 1
    else if 0xC0 <= b <= 0xDF then 2
    else if 0xE0 <= b <= 0xEF then 3
    else if 0xF0 <= b <= 0xF7 then 4
    else 0
  }

  predicate EndsWith(s: seq<Byte>, k: nat) {
    1 <= k <= |s| && Width(s[|s|-k]) == k && forall j :: |s| - k < j < |s| ==> Tail(s[j])
  }

  // The text ends with a leading byte and exactly the tail bytes that it announces.
  ghost predicate EndsOnRune(s: seq<Byte>) {
    exists k: nat :: k <= 4 && EndsWith(s, k)
  }

  method Utf8FullRune(b: seq<Byte>) returns (full: bool)
    ensures full <==> EndsOnRune(b)
  {
    if |b| == 0 {
      return false;
    }
    var c := b[|b|-1];
    if c < 0x80 {
      assert EndsWith(b, 1);
      return true;
    }
    if !Tail(c) {
      return false;
    }
    var i := |b| - 1;
    while i >= 0 && i >= |b| - 4
      invariant -1 <= i < |b| && i >= |b| - 5
      invariant forall j :: i < j < |b| ==> Tail(b[j])
      decreases i + 1
    {
      if !Tail(b[i]) {
        var want := 1;
        if 0xC0 <= b[i] <= 0xDF {
          want := 2;
        } else if 0xE0 <= b[i] <= 0xEF {
          want := 3;
        } else if 0xF0 <= b[i] <= 0xF7 {
          want := 4;
        }
        full := |b| - i == want;
        assert full ==> EndsWith(b, want);
        assert forall k: nat :: k <= 4 && EndsWith(b, k) ==> k == |b| - i;
        return;
      }
      i := i - 1;
    }
    return false;
  }

  lemma RuneHasWidth(s: seq<Byte>)
    requires RuneLen(s) > 0
    ensures Width(s[0]) == RuneLen(s) && forall j :: 1 <= j < RuneLen(s) ==> Tail(s[j])
  {
  }

  // Where the bytes so far end on a rune, no character of the whole stream reaches over, whatever
  // bytes follow.
  lemma FullIsSafe(s: seq<Byte>, c: nat)
    requires c <= |s| && EndsOnRune(s[..c])
    ensures Safe(s, c)
  {
    var w: nat :| w <= 4 && EndsWith(s[..c], w);
    forall p | 0 <= p < c ensures p + RuneLen(s[p..]) <= c {
      if RuneLen(s[p..]) > 0 {
        RuneHasWidth(s[p..]);
        RuneAt(s, p);
        assert s[c - w] == s[..c][c - w];
        assert forall j :: c - w < j < c ==> Tail(s[..c][j]) && s[j] == s[..c][j];
      }
    }
  }

  lemma RuneAt(s: seq<Byte>, p: nat)
    requires p < |s| && RuneLen(s[p..]) > 0
    ensures Width(s[p]) == RuneLen(s[p..])
    ensures forall j :: p < j < p + RuneLen(s[p..]) ==> Tail(s[j])
  {
    RuneHasWidth(s[p..]);
    forall j | p < j < p + RuneLen(s[p..]) ensures Tail(s[j]) {
      assert s[p..][j-p] == s[j];
    }
  }

  // Where none of the next four positions ends on a rune either, the last four bytes can be held
  // back: no character reaches over the cut.
  lemma ClampIsSafe(s: seq<Byte>, n: nat)
    requires 4 <= n <= |s|
    requires forall c :: n - 4 < c <= n ==> !EndsOnRune(s[..c])
    ensures Safe(s, n - 4)
  {
    forall p | 0 <= p < n - 4 ensures p + RuneLen(s[p..]) <= n - 4 {
      var k := RuneLen(s[p..]);
      if k > 0 {
        RuneAt(s, p);
        assert EndsWith(s[..p+k], k);
        assert EndsOnRune(s[..p+k]);
      }
    }
  }

  // How much of a chunk drainPipe writes: back to the last rune boundary, but at most four bytes.
  // Nothing is lost by the limit: the cut never falls inside a character.
  method CutPoint(chunk: seq<Byte>) returns (cut: nat)
    ensures cut <= |chunk| <= cut + 4
    ensures forall c: nat :: cut < c <= |chunk| ==> !EndsOnRune(chunk[..c])
    ensures cut > 0 && cut + 4 != |chunk| ==> EndsOnRune(chunk[..cut])
    ensures forall future: seq<Byte> :: Safe(chunk + future, cut)
  {
    cut := |chunk|;
    while cut > 0
      invariant cut <= |chunk|
      invariant forall c: nat :: cut < c <= |chunk| ==> !EndsOnRune(chunk[..c])
    {
      var full := Utf8FullRune(chunk[..cut]);
      if full {
        break;
      }
      cut := cut - 1;
    }
    ghost var back := cut;
    if cut < |chunk| - 4 {
      cut := |chunk| - 4;
    }
    forall future: seq<Byte> ensures Safe(chunk + future, cut) {
      if cut > back {
        forall c: nat | |chunk| - 4 < c <= |chunk| ensures !EndsOnRune((chunk + future)[..c]) {
          assert (chunk + future)[..c] == chunk[..c];
        }
        ClampIsSafe(chunk + future, |chunk|);
      } else if cut > 0 {
        assert (chunk + future)[..cut] == chunk[..cut];
        FullIsSafe(chunk + future, cut);
      }
    }
  }
}
