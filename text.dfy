/** String facts the `TicketChecker` model relies on: Python's `sub in s` and the decimal rendering of a count. */
module Text {

  /** `pat` is a contiguous piece of `s` (Python's `pat in s` on `str`). */
  ghost predicate Occurs(pat: string, s: string) {
    exists i :: 0 <= i <= |s| && pat <= s[i..]
  }

  /** Dropping the first character of `s` loses exactly the occurrence at position 0. */
  lemma OccursStep(pat: string, s: string)
    requires |s| > 0
    ensures Occurs(pat, s) <==> (pat <= s || Occurs(pat, s[1..]))
  {
    assert s[0..] == s;
    if Occurs(pat, s) && !(pat <= s) {
      var i :| 0 <= i <= |s| && pat <= s[i..];
      assert 1 <= i && s[1..][i - 1..] == s[i..];
    }
    if Occurs(pat, s[1..]) {
      var i :| 0 <= i <= |s[1..]| && pat <= s[1..][i..];
      assert s[1..][i..] == s[i + 1..];
    }
  }

  /** Substring test, computed by trying every start position in turn. */
  function Contains(s: string, pat: string): (b: bool)
    ensures b <==> Occurs(pat, s)
    decreases |s|
  {
    if pat <= s then
      assert s[0..] == s;
      true
    else if |s| == 0 then
      assert s[0..] == s;
      false
    else
      OccursStep(pat, s);
      Contains(s[1..], pat)
  }

  /** Whatever is spliced between two strings occurs in the result. */
  lemma OccursBetween(a: string, pat: string, c: string)
    ensures Occurs(pat, a + pat + c)
  {
    var s := a + pat + c;
    assert s[|a|..] == pat + c;
  }

  /** Both pieces spliced into a five-part concatenation occur in it. */
  lemma OccursInTemplate(a: string, x: string, b: string, y: string, c: string)
    ensures Occurs(x, a + x + b + y + c) && Occurs(y, a + x + b + y + c)
  {
    var s := a + x + b + y + c;
    assert s == a + x + (b + y + c);
    OccursBetween(a, x, b + y + c);
    OccursBetween(a + x + b, y, c);
  }

  /** In a six-part concatenation, the second part and the run of the third to fifth parts occur. */
  lemma OccursInFramedTemplate(a: string, x: string, b: string, y: string, d: string, c: string)
    ensures Occurs(x, a + x + b + y + d + c) && Occurs(b + y + d, a + x + b + y + d + c)
  {
    var s := a + x + b + y + d + c;
    assert s == a + x + (b + y + d + c);
    OccursBetween(a, x, b + y + d + c);
    assert s == (a + x) + (b + y + d) + c;
    OccursBetween(a + x, b + y + d, c);
  }

  /** A pattern whose first character `s` lacks cannot occur in `s`. */
  lemma AbsentLead(pat: string, s: string)
    requires |pat| > 0 && pat[0] !in s
    ensures !Occurs(pat, s)
  {
  }

  predicate IsDigit(c: char) {
    '0' <= c <= '9'
  }

  function DigitChar(d: nat): (c: char)
    requires d < 10
    ensures IsDigit(c) && c as int - '0' as int == d
  {
    ('0' as int + d) as char
  }

  /** Decimal digits of `n`, as Python's `str(n)` / f-string `{n}` renders a non-negative int. */
  function NatToString(n: nat): (s: string)
    ensures |s| > 0
    ensures forall k | 0 <= k < |s| :: IsDigit(s[k])
    ensures n >= 10 ==> s[0] != '0'
  {
    if n < 10 then [DigitChar(n)] else NatToString(n / 10) + [DigitChar(n % 10)]
  }

  /** The number a string of decimal digits denotes. */
  function DigitsValue(s: string): nat
    requires forall k | 0 <= k < |s| :: IsDigit(s[k])
  {
    if s == [] then 0
    else
      assert IsDigit(s[|s| - 1]);
      DigitsValue(s[..|s| - 1]) * 10 + (s[|s| - 1] as int - '0' as int)
  }

  /** Rendering a count and reading it back gives the count. */
  lemma {:induction false} NatToStringRoundTrip(n: nat)
    ensures DigitsValue(NatToString(n)) == n
  {
    if n >= 10 {
      NatToStringRoundTrip(n / 10);
      var s := NatToString(n);
      assert s[..|s| - 1] == NatToString(n / 10);
    }
  }
}
