/** String helpers with the meaning of the Python string methods the handlers call. */
module Text {

  /** Python's s.startswith(p). */
  predicate StartsWith(s: string, p: string)
  {
    |p| <= |s| && s[..|p|] == p
  }

  /** Python's s.endswith(x). */
  predicate EndsWith(s: string, x: string)
  {
    |x| <= |s| && s[|s| - |x|..] == x
  }

  /** Python's s.split(c)[0]: the part of s before the first c, or all of s when c does not occur. */
  function BeforeFirst(s: string, c: char): (r: string)
    ensures StartsWith(s, r)
    ensures c !in r
    ensures |r| < |s| <==> c in s
    ensures |r| < |s| ==> s[|r|] == c
  {
    if s == [] then []
    else if s[0] == c then []
    else [s[0]] + BeforeFirst(s[1..], c)
  }

  /** BeforeFirst stops exactly at the first c: any c-free prefix followed by c is what it returns. */
  lemma BeforeFirstIs(s: string, c: char, t: string)
    requires StartsWith(s, t + [c]) && c !in t
    ensures BeforeFirst(s, c) == t
  {
    var r := BeforeFirst(s, c);
    assert s[|t|] == c;
    assert |r| == |t|;
    assert r == s[..|r|] == t;
  }

  /** The part of s after its last c, or all of s when c does not occur. */
  function LastSegment(s: string, c: char): (r: string)
    ensures EndsWith(s, r)
    ensures c !in r
  {
    if s == [] then []
    else if s[|s| - 1] == c then []
    else LastSegment(s[..|s| - 1], c) + [s[|s| - 1]]
  }

  /** LastSegment recovers a c-free tail that follows a c. */
  lemma {:induction false} LastSegmentOf(x: string, c: char, t: string)
    requires c !in t
    ensures LastSegment(x + [c] + t, c) == t
    decreases |t|
  {
    var s := x + [c] + t;
    if t == [] {
      assert s[|s| - 1] == c;
    } else {
      var t' := t[..|t| - 1];
      assert s[..|s| - 1] == x + [c] + t';
      assert s[|s| - 1] == t[|t| - 1] != c;
      LastSegmentOf(x, c, t');
      assert t' + [t[|t| - 1]] == t;
    }
  }

  function DigitChar(d: nat): char
    requires d < 10
  {
    "0123456789"[d]
  }

  function Digits(n: nat): string
  {
    if n < 10 then [DigitChar(n)] else Digits(n / 10) + [DigitChar(n % 10)]
  }

  /** Python's str() of an int. */
  function Decimal(n: int): string
  {
    if n < 0 then "-" + Digits(-n) else Digits(n)
  }
}
