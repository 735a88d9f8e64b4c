/**
 * Decimal rendering of non-negative integers, as a template literal prints
 * them, and the slideshow's position counter `"<position> / <total>"`.
 * A parser for the counter text shows that the rendered text determines the
 * position and the total it was built from.
 */
module Text {
  import opened Wrappers

  predicate IsDigit(c: char) {
    '0' <= c <= '9'
  }

  predicate AllDigits(s: string) {
    forall k :: 0 <= k < |s| ==> IsDigit(s[k])
  }

  function DigitChar(d: nat): (c: char)
    requires d < 10
    ensures IsDigit(c) && DigitValue(c) == d
  {
    (48 + d) as char
  }

  function DigitValue(c: char): (d: nat)
    requires IsDigit(c)
    ensures d < 10
  {
    c as int - '0' as int
  }

  /** Decimal digits of `n`, most significant first, without leading zeros. */
  function NatToString(n: nat): (s: string)
    ensures |s| > 0 && AllDigits(s)
    ensures s[0] == '0' ==> n == 0
    ensures n < 10 <==> |s| == 1
  {
    if n < 10 then [DigitChar(n)] else NatToString(n / 10) + [DigitChar(n % 10)]
  }

  /** The value of a string of decimal digits (the empty string reads as 0). */
  function ParseDigits(s: string): nat
    requires AllDigits(s)
  {
    if s == [] then 0 else 10 * ParseDigits(s[..|s| - 1]) + DigitValue(s[|s| - 1])
  }

  lemma {:induction false} ParseNatToString(n: nat)
    ensures ParseDigits(NatToString(n)) == n
  {
    var s := NatToString(n);
    if n >= 10 {
      assert s[..|s| - 1] == NatToString(n / 10);
      ParseNatToString(n / 10);
    }
  }

  /** The counter text shown under the slide: `"<position> / <total>"`. */
  function CounterText(position: nat, total: nat): string {
    NatToString(position) + " / " + NatToString(total)
  }

  /** Length of the run of digits that `s` starts with. */
  function LeadingDigits(s: string): (k: nat)
    ensures k <= |s| && AllDigits(s[..k])
    ensures k < |s| ==> !IsDigit(s[k])
  {
    if s == [] || !IsDigit(s[0]) then 0
    else
      var k := 1 + LeadingDigits(s[1..]);
      assert s[..k] == [s[0]] + s[1..][..k - 1];
      k
  }

  /** Reads a counter text back into its position and total. */
  function ParseCounter(s: string): Option<(nat, nat)> {
    var k := LeadingDigits(s);
    var rest := s[k..];
    if k > 0 && |rest| > 3 && rest[..3] == " / " && AllDigits(rest[3..])
    then Some((ParseDigits(s[..k]), ParseDigits(rest[3..])))
    else None
  }

  lemma {:induction false} LeadingDigitsOfConcat(d: string, t: string)
    requires AllDigits(d)
    requires t == [] || !IsDigit(t[0])
    ensures LeadingDigits(d + t) == |d|
  {
    if d != [] {
      assert (d + t)[1..] == d[1..] + t;
      LeadingDigitsOfConcat(d[1..], t);
    }
  }

  /** The counter text names exactly the position and total it was made from. */
  lemma CounterRoundTrip(position: nat, total: nat)
    ensures ParseCounter(CounterText(position, total)) == Some((position, total))
  {
    var a, b := NatToString(position), NatToString(total);
    var s := CounterText(position, total);
    assert s == a + (" / " + b);
    LeadingDigitsOfConcat(a, " / " + b);
    assert s[..|a|] == a;
    assert s[|a|..] == " / " + b;
    assert (" / " + b)[3..] == b;
    ParseNatToString(position);
    ParseNatToString(total);
  }

  /** Two counters read the same only when they show the same position and total. */
  lemma CounterTextInjective(p1: nat, t1: nat, p2: nat, t2: nat)
    requires CounterText(p1, t1) == CounterText(p2, t2)
    ensures p1 == p2 && t1 == t2
  {
    CounterRoundTrip(p1, t1);
    CounterRoundTrip(p2, t2);
  }
}
