/** Decimal rendering of natural numbers, as the object keys and identity strings use it. */
module Decimal {

  predicate IsDigit(c: char) {
    '0' <= c <= '9'
  }

  function Digit(d: nat): (c: char)
    requires d < 10
    ensures IsDigit(c)
  {
    '0' + d as char
  }

  ghost predicate AllDigits(s: string) {
    forall i | 0 <= i < |s| :: IsDigit(s[i])
  }

  function Power10(width: nat): (p: nat)
    ensures p >= 1
  {
    if width == 0 then 1 else 10 * Power10(width - 1)
  }

  /** The last `width` decimal digits of n, zero-padded on the left. */
  function Padded(n: nat, width: nat): (s: string)
    ensures |s| == width
    ensures AllDigits(s)
  {
    if width == 0 then "" else Padded(n / 10, width - 1) + [Digit(n % 10)]
  }

  /** The number a text of digits stands for. */
  function Value(s: string): int {
    if s == "" then 0 else 10 * Value(s[..|s| - 1]) + (s[|s| - 1] as int - '0' as int)
  }

  lemma DigitValue(s: string, d: nat)
    requires d < 10
    ensures Value(s + [Digit(d)]) == 10 * Value(s) + d
  {
    LastOf(s, Digit(d));
  }

  /** Padding keeps the number as long as it fits. */
  lemma {:induction false} PaddedValue(n: nat, width: nat)
    requires n < Power10(width)
    ensures Value(Padded(n, width)) == n
  {
    if width > 0 {
      PaddedValue(n / 10, width - 1);
      DigitValue(Padded(n / 10, width - 1), n % 10);
    }
  }

  /** Every text of digits is the padding of its number. */
  lemma {:induction false} ValuePadded(s: string)
    requires AllDigits(s)
    ensures 0 <= Value(s) < Power10(|s|) && Padded(Value(s), |s|) == s
  {
    if s != "" {
      var init, last := s[..|s| - 1], s[|s| - 1];
      ValuePadded(init);
      var d := last as int - '0' as int;
      assert Value(s) == 10 * Value(init) + d && Value(s) / 10 == Value(init) && Value(s) % 10 == d;
      assert s == init + [last] && Digit(d) == last;
    }
  }

  /** The shortest decimal rendering of n. */
  function Render(n: nat): (s: string)
    ensures |s| >= 1
    ensures AllDigits(s)
  {
    if n < 10 then [Digit(n)] else Render(n / 10) + [Digit(n % 10)]
  }

  /** The rendered text stands for the number, and has no leading zero. */
  lemma {:induction false} RenderValue(n: nat)
    ensures Value(Render(n)) == n && (n > 0 ==> Render(n)[0] != '0')
  {
    if n >= 10 {
      RenderValue(n / 10);
      DigitValue(Render(n / 10), n % 10);
    } else {
      DigitValue("", n);
      assert "" + [Digit(n)] == [Digit(n)];
    }
  }

  lemma {:induction false} RenderInjective(n: nat, m: nat)
    requires Render(n) == Render(m)
    ensures n == m
  {
    RenderLength(n);
    RenderLength(m);
    if n >= 10 && m >= 10 {
      LastOf(Render(n / 10), Digit(n % 10));
      LastOf(Render(m / 10), Digit(m % 10));
      assert n % 10 == m % 10;
      RenderInjective(n / 10, m / 10);
    }
  }

  lemma RenderLength(n: nat)
    ensures |Render(n)| == 1 <==> n < 10
  {
  }

  lemma LastOf(s: string, c: char)
    ensures (s + [c])[|s + [c]| - 1] == c
    ensures (s + [c])[..|s + [c]| - 1] == s
  {
  }
}
