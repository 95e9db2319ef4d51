/** String helpers the routes and pages use: `Array.prototype.join`,
    `String.prototype.includes` and decimal rendering of integers. */
module Strings {

  /** `sub` occurs in `s` at some position. */
  ghost predicate IsSubstring(sub: string, s: string)
  {
    exists k :: OccursAt(sub, s, k)
  }

  /** `sub` occurs in `s` starting at index `k`. */
  ghost predicate OccursAt(sub: string, s: string, k: int)
  {
    0 <= k && k + |sub| <= |s| && s[k..k + |sub|] == sub
  }

  /** `xs.join(sep)`: empty for no elements; otherwise it opens with the
      first element and closes with the last, one separator between neighbours. */
  function Join(sep: string, xs: seq<string>): (r: string)
    ensures |xs| == 0 ==> r == ""
    ensures |xs| > 0 ==> |xs[0]| <= |r| && r[..|xs[0]|] == xs[0]
    ensures |xs| > 0 ==> |xs[|xs| - 1]| <= |r| && r[|r| - |xs[|xs| - 1]|..] == xs[|xs| - 1]
    ensures |xs| > 1 ==> |xs[0]| + |sep| <= |r| && r[|xs[0]|..|xs[0]| + |sep|] == sep
  {
    if |xs| == 0 then ""
    else if |xs| == 1 then xs[0]
    else
      var rest := Join(sep, xs[1..]);
      assert xs[1..][|xs[1..]| - 1] == xs[|xs| - 1];
      xs[0] + sep + rest
  }

  /** A string found in `b` is still found once text is put around `b`. */
  lemma SubstringOfConcat(sub: string, a: string, b: string, c: string)
    requires IsSubstring(sub, b)
    ensures IsSubstring(sub, a + b + c)
  {
    var k :| OccursAt(sub, b, k);
    assert (a + b + c)[|a| + k..|a| + k + |sub|] == b[k..k + |sub|];
    assert OccursAt(sub, a + b + c, |a| + k);
  }

  /** A string found in `body` is found in a labelled line `header + body` placed inside a larger text. */
  lemma SubstringOfLine(sub: string, header: string, body: string, before: string, after: string)
    requires IsSubstring(sub, body)
    ensures IsSubstring(sub, before + (header + body) + after)
  {
    SubstringOfConcat(sub, header, body, "");
    assert header + body + "" == header + body;
    SubstringOfConcat(sub, before, header + body, after);
  }

  /** Every joined element appears verbatim in the joined text. */
  lemma {:induction false} JoinContains(sep: string, xs: seq<string>, i: nat)
    requires i < |xs|
    ensures IsSubstring(xs[i], Join(sep, xs))
  {
    if |xs| == 1 || i == 0 {
      assert Join(sep, xs)[0..|xs[0]|] == xs[0];
      assert OccursAt(xs[i], Join(sep, xs), 0);
    } else {
      JoinContains(sep, xs[1..], i - 1);
      SubstringOfConcat(xs[i], xs[0] + sep, Join(sep, xs[1..]), "");
      assert xs[0] + sep + Join(sep, xs[1..]) + "" == Join(sep, xs);
    }
  }

  lemma JoinContainsAll(sep: string, xs: seq<string>)
    ensures forall x :: x in xs ==> IsSubstring(x, Join(sep, xs))
  {
    forall x | x in xs
      ensures IsSubstring(x, Join(sep, xs))
    {
      var i :| 0 <= i < |xs| && xs[i] == x;
      JoinContains(sep, xs, i);
    }
  }

  lemma DropFirstPosition(sub: string, s: string)
    requires |sub| <= |s| && s[..|sub|] != sub
    ensures IsSubstring(sub, s) <==> IsSubstring(sub, s[1..])
  {
    if IsSubstring(sub, s) {
      var k :| OccursAt(sub, s, k);
      assert k != 0;
      assert s[1..][k - 1..k - 1 + |sub|] == s[k..k + |sub|];
      assert OccursAt(sub, s[1..], k - 1);
    }
    if IsSubstring(sub, s[1..]) {
      var k :| OccursAt(sub, s[1..], k);
      assert s[k + 1..k + 1 + |sub|] == s[1..][k..k + |sub|];
      assert OccursAt(sub, s, k + 1);
    }
  }

  /** `s.includes(sub)`. */
  function Contains(s: string, sub: string): (b: bool)
    ensures b <==> IsSubstring(sub, s)
    decreases |s|
  {
    if |sub| > |s| then false
    else if s[..|sub|] == sub then (assert OccursAt(sub, s, 0); true)
    else (DropFirstPosition(sub, s); Contains(s[1..], sub))
  }

  predicate IsDigit(c: char)
  {
    '0' <= c <= '9'
  }

  function DigitChar(d: nat): (c: char)
    requires d < 10
    ensures IsDigit(c)
  {
    ('0' as int + d) as char
  }

  /** Decimal rendering of a non-negative integer, as a template literal prints it. */
  function NatToString(n: nat): (r: string)
    ensures |r| > 0
    ensures forall i :: 0 <= i < |r| ==> IsDigit(r[i])
  {
    if n < 10 then [DigitChar(n)] else NatToString(n / 10) + [DigitChar(n % 10)]
  }

  /** The value of a string of decimal digits; the inverse of NatToString. */
  function DecimalValue(s: string): nat
    requires forall i :: 0 <= i < |s| ==> IsDigit(s[i])
  {
    if s == [] then 0
    else
      assert IsDigit(s[|s| - 1]);
      DecimalValue(s[..|s| - 1]) * 10 + (s[|s| - 1] as int - '0' as int)
  }

  lemma {:induction false} DecimalRoundTrip(n: nat)
    ensures DecimalValue(NatToString(n)) == n
  {
    var r := NatToString(n);
    if n >= 10 {
      DecimalRoundTrip(n / 10);
      assert r[..|r| - 1] == NatToString(n / 10);
    }
  }

  /** `${i}` for an integer. */
  function IntToString(i: int): (r: string)
    ensures |r| > 0
  {
    if i < 0 then "-" + NatToString(-i) else NatToString(i)
  }

  /** Only negative integers print with a leading minus sign. */
  lemma SignOfRendering(i: int)
    ensures IntToString(i)[0] == '-' <==> i < 0
  {
    if i >= 0 {
      assert IsDigit(NatToString(i)[0]);
    }
  }

  /** Different integers print differently. */
  lemma IntToStringInjective(a: int, b: int)
    requires IntToString(a) == IntToString(b)
    ensures a == b
  {
    SignOfRendering(a);
    SignOfRendering(b);
    if a < 0 && b < 0 {
      assert NatToString(-a) == IntToString(a)[1..];
      DecimalRoundTrip(-a);
      DecimalRoundTrip(-b);
    } else if a >= 0 && b >= 0 {
      DecimalRoundTrip(a);
      DecimalRoundTrip(b);
    }
  }
}
