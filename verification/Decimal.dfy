/** Decimal printing, as strconv.Itoa and %d print it, and the two composed keys of the repository
    whose injectivity other results rest on. */
module Decimal {
  function Digit(d: nat): (c: char)
    requires d < 10
    ensures '0' <= c <= '9'
  {
    '0' + d as char
  }

  function Digits(n: nat): (s: string)
    ensures s != [] && (n < 10 <==> |s| == 1)
    ensures forall i :: 0 <= i < |s| ==> '0' <= s[i] <= '9'
  {
    if n < 10 then [Digit(n)] else Digits(n / 10) + [Digit(n % 10)]
  }

  function Itoa(n: int): (s: string)
    ensures s != [] && (n < 0 <==> s[0] == '-')
    ensures forall i :: 0 <= i < |s| ==> s[i] == '-' || '0' <= s[i] <= '9'
  {
    if n < 0 then ['-'] + Digits(-n) else Digits(n)
  }

  // What a string of digits stands for.
  function Value(s: string): int {
    if s == "" then 0 else 10 * Value(s[..|s|-1]) + (s[|s|-1] as int - '0' as int)
  }

  // Printing is read back: the number, with no zero in front.
  lemma {:induction false} DigitsValue(n: nat)
    ensures Value(Digits(n)) == n && (n >= 10 ==> Digits(n)[0] != '0')
  {
    var s := Digits(n);
    if n >= 10 {
      DigitsValue(n / 10);
      assert s[..|s|-1] == Digits(n / 10);
      assert n / 10 < 10 ==> Digits(n / 10) == [Digit(n / 10)];
    } else {
      assert s[..0] == "";
    }
  }

  lemma ItoaValue(n: int)
    ensures if n < 0 then Itoa(n)[0] == '-' && Value(Itoa(n)[1..]) == -n else Value(Itoa(n)) == n
    ensures n >= 10 ==> Itoa(n)[0] != '0'
  {
    DigitsValue(if n < 0 then -n else n);
    assert n < 0 ==> Itoa(n)[1..] == Digits(-n);
  }

  lemma {:induction false} DigitsInjective(m: nat, n: nat)
    requires Digits(m) == Digits(n)
    ensures m == n
  {
    var s := Digits(m);
    if m >= 10 && n >= 10 {
      assert s[..|s|-1] == Digits(m / 10) && s[..|s|-1] == Digits(n / 10);
      DigitsInjective(m / 10, n / 10);
      assert s[|s|-1] == Digit(m % 10) == Digit(n % 10);
    } else {
      assert m < 10 && n < 10;
      assert s[0] == Digit(m) == Digit(n);
    }
  }

  lemma ItoaInjective(m: int, n: int)
    requires Itoa(m) == Itoa(n)
    ensures m == n
  {
    var s := Itoa(m);
    if m < 0 && n < 0 {
      assert s[1..] == Digits(-m) && s[1..] == Digits(-n);
      DigitsInjective(-m, -n);
    } else {
      assert m >= 0 && n >= 0;
      DigitsInjective(m, n);
    }
  }

  // Two strings that end in a separator-free part after the same separator character agree on both parts.
  lemma SplitAtLast(a: string, x: string, b: string, y: string, sep: char)
    requires a + [sep] + x == b + [sep] + y
    requires sep !in x && sep !in y
    ensures a == b && x == y
  {
    var s := a + [sep] + x;
    assert s == b + [sep] + y;
    assert forall i :: |s| - |x| <= i < |s| ==> s[i] == x[i - (|s| - |x|)];
    assert forall i :: |s| - |y| <= i < |s| ==> s[i] == y[i - (|s| - |y|)];
    assert s[|s|-|x|-1] == sep && s[|s|-|y|-1] == sep;
    assert |x| == |y|;
    assert a == s[..|a|] && b == s[..|b|];
    assert x == s[|a|+1..] && y == s[|b|+1..];
  }
}
