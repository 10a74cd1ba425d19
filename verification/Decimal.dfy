/** Decimal text: `String(n)`, `padStart` with zeros, `%d`, and reading digits back. */
module Decimal {
  import opened Text

  predicate IsDigit(c: char) { '0' <= c <= '9' }

  predicate AllDigits(s: string) { forall c | c in s :: IsDigit(c) }

  function Digit(d: nat): (c: char)
    requires d < 10
    ensures IsDigit(c) && Value(c) == d
  {
    ('0' as int + d) as char
  }

  function Value(c: char): (v: nat)
    requires IsDigit(c)
    ensures v < 10
  {
    c as int - '0' as int
  }

  function Print(n: nat): (s: string)
    ensures s != [] && AllDigits(s)
  {
    if n < 10 then [Digit(n)] else Print(n / 10) + [Digit(n % 10)]
  }

  function Parse(s: string): nat
    requires AllDigits(s)
  {
    if s == [] then 0 else 10 * Parse(s[..|s| - 1]) + Value(s[|s| - 1])
  }

  function Zeros(k: nat): (s: string)
    ensures |s| == k && AllDigits(s)
  {
    if k == 0 then [] else ['0'] + Zeros(k - 1)
  }

  /** `String(n).padStart(width, "0")`. */
  function Pad(n: nat, width: nat): (s: string)
    ensures AllDigits(s)
  {
    if |Print(n)| < width then Zeros(width - |Print(n)|) + Print(n) else Print(n)
  }

  function Pow10(n: nat): (p: nat)
    ensures p >= 1
  {
    if n == 0 then 1 else 10 * Pow10(n - 1)
  }

  lemma {:induction false} ParsePrint(n: nat)
    ensures Parse(Print(n)) == n
  {
    if n >= 10 {
      ParsePrint(n / 10);
      assert Print(n)[..|Print(n)| - 1] == Print(n / 10);
    }
  }

  /** Printing is injective. */
  lemma PrintIsInjective(m: nat, n: nat)
    requires Print(m) == Print(n)
    ensures m == n
  {
    ParsePrint(m);
    ParsePrint(n);
  }

  lemma {:induction false} ParseHead(s: string)
    requires s != [] && AllDigits(s)
    ensures Parse(s) == Value(s[0]) * Pow10(|s| - 1) + Parse(s[1..])
  {
    if |s| == 1 {
      assert s[1..] == [] && s[..0] == [];
    } else {
      var front, last := s[..|s| - 1], Value(s[|s| - 1]);
      ParseHead(front);
      assert front[0] == s[0] && s[1..][..|s| - 2] == front[1..];
      assert Parse(s[1..]) == 10 * Parse(front[1..]) + last;
      TenTimes(Value(s[0]), Pow10(|s| - 2));
    }
  }

  lemma TenTimes(v: nat, p: nat)
    ensures 10 * (v * p) == v * (10 * p)
  {
  }

  lemma {:induction false} ParseBound(s: string)
    requires AllDigits(s)
    ensures Parse(s) < Pow10(|s|)
  {
    if s != [] {
      ParseBound(s[..|s| - 1]);
    }
  }

  lemma {:induction false} ParseZeros(k: nat, s: string)
    requires AllDigits(s)
    ensures AllDigits(Zeros(k) + s) && Parse(Zeros(k) + s) == Parse(s)
  {
    if k == 0 {
      assert Zeros(0) + s == s;
    } else {
      ParseZeros(k - 1, s);
      var z := Zeros(k) + s;
      assert z[1..] == Zeros(k - 1) + s && z[0] == '0';
      ParseHead(z);
      assert Value('0') * Pow10(|z| - 1) == 0;
    }
  }

  lemma ParsePad(n: nat, width: nat)
    ensures Parse(Pad(n, width)) == n
  {
    ParsePrint(n);
    if |Print(n)| < width {
      ParseZeros(width - |Print(n)|, Print(n));
    }
  }

  /** A number needs at most `w` digits exactly when it is below `10^w`. */
  lemma {:induction false} PrintLength(n: nat, w: nat)
    requires w >= 1
    ensures |Print(n)| <= w <==> n < Pow10(w)
  {
    if n >= 10 {
      if w == 1 {
        assert Pow10(1) == 10;
      } else {
        PrintLength(n / 10, w - 1);
      }
    } else {
      assert Pow10(w) >= 10 by { assert Pow10(w) == 10 * Pow10(w - 1); }
    }
  }

  lemma PadLength(n: nat, w: nat)
    requires w >= 1
    ensures |Pad(n, w)| == w <==> n < Pow10(w)
  {
    PrintLength(n, w);
  }

  /** Digit texts of one length sort as their numbers. */
  lemma {:induction false} DigitsSortAsNumbers(a: string, b: string)
    requires AllDigits(a) && AllDigits(b) && |a| == |b|
    ensures TextLeq(a, b) <==> Parse(a) <= Parse(b)
    ensures a == b <==> Parse(a) == Parse(b)
  {
    if a != [] {
      ParseHead(a);
      ParseHead(b);
      DigitsSortAsNumbers(a[1..], b[1..]);
      assert a == [a[0]] + a[1..] && b == [b[0]] + b[1..];
      var p := Pow10(|a| - 1);
      ParseBound(a[1..]);
      ParseBound(b[1..]);
      if Value(a[0]) < Value(b[0]) {
        LeadingDigitWins(Value(a[0]), Value(b[0]), p, Parse(a[1..]), Parse(b[1..]));
      } else if Value(b[0]) < Value(a[0]) {
        LeadingDigitWins(Value(b[0]), Value(a[0]), p, Parse(b[1..]), Parse(a[1..]));
      }
    }
  }

  lemma LeadingDigitWins(x: nat, y: nat, p: nat, m: nat, n: nat)
    requires x < y && m < p
    ensures x * p + m < y * p + n
  {
    assert y * p >= (x + 1) * p == x * p + p;
  }
}
