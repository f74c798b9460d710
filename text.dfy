/** The string operations the code takes from Python: `str()` of integers,
    the `{:06d}` format, substring tests, `str.replace` and `str.lower`. */
module Text {

  predicate IsDigit(c: char) { '0' <= c <= '9' }

  predicate AllDigits(s: string) { forall i :: 0 <= i < |s| ==> IsDigit(s[i]) }

  function DigitChar(d: nat): (c: char)
    requires d < 10
    ensures IsDigit(c) && c as int - '0' as int == d
  {
    ('0' as int + d) as char
  }

  /** `str(n)` for a non-negative int: decimal digits, no leading zeros. */
  function NatToString(n: nat): (s: string)
    ensures 1 <= |s| && AllDigits(s)
    ensures |s| > 1 ==> s[0] != '0'
    decreases n
  {
    if n < 10 then [DigitChar(n)] else NatToString(n / 10) + [DigitChar(n % 10)]
  }

  /** `str(i)` for any int. */
  function IntToString(i: int): (s: string)
    ensures 1 <= |s|
    ensures i < 0 <==> s[0] == '-'
  {
    if i < 0 then "-" + NatToString(-i) else NatToString(i)
  }

  /** The number a string of decimal digits denotes (leading zeros allowed). */
  function DigitsValue(s: string): nat
    requires AllDigits(s)
  {
    if s == [] then 0 else DigitsValue(s[..|s| - 1]) * 10 + (s[|s| - 1] as int - '0' as int)
  }

  lemma {:induction false} NatToStringRoundTrip(n: nat)
    ensures DigitsValue(NatToString(n)) == n
    decreases n
  {
    if n >= 10 {
      NatToStringRoundTrip(n / 10);
      var s := NatToString(n);
      assert s[..|s| - 1] == NatToString(n / 10);
    }
  }

  lemma NatToStringInjective(a: nat, b: nat)
    requires NatToString(a) == NatToString(b)
    ensures a == b
  {
    NatToStringRoundTrip(a);
    NatToStringRoundTrip(b);
  }

  function Zeros(k: nat): (z: string)
    ensures |z| == k && AllDigits(z)
    ensures forall i :: 0 <= i < k ==> z[i] == '0'
  {
    if k == 0 then "" else Zeros(k - 1) + "0"
  }

  /** Leading zeros do not change the value of a digit string. */
  lemma {:induction false} LeadingZerosValue(k: nat, d: string)
    requires AllDigits(d)
    ensures AllDigits(Zeros(k) + d)
    ensures DigitsValue(Zeros(k) + d) == DigitsValue(d)
    decreases |d|
  {
    var s := Zeros(k) + d;
    assert AllDigits(s);
    if d == [] {
      assert s == Zeros(k);
      ZerosValue(k);
    } else {
      var d' := d[..|d| - 1];
      assert s[..|s| - 1] == Zeros(k) + d';
      assert s[|s| - 1] == d[|d| - 1];
      LeadingZerosValue(k, d');
    }
  }

  lemma {:induction false} ZerosValue(k: nat)
    ensures DigitsValue(Zeros(k)) == 0
  {
    if k > 0 {
      ZerosValue(k - 1);
      assert Zeros(k)[..k - 1] == Zeros(k - 1);
    }
  }

  /** Python's `f"{n:06d}"` for a non-negative n: zero-padded to six digits,
      longer numbers are not cut. */
  function Pad6(n: nat): (s: string)
    ensures AllDigits(s)
    ensures |s| == if |NatToString(n)| >= 6 then |NatToString(n)| else 6
    ensures DigitsValue(s) == n
  {
    var d := NatToString(n);
    var z := Zeros(if |d| >= 6 then 0 else 6 - |d|);
    LeadingZerosValue(|z|, d);
    NatToStringRoundTrip(n);
    z + d
  }

  lemma Pad6Injective(a: nat, b: nat)
    requires Pad6(a) == Pad6(b)
    ensures a == b
  {
  }

  predicate StartsWith(s: string, p: string) { |p| <= |s| && s[..|p|] == p }

  predicate EndsWith(s: string, p: string) { |p| <= |s| && s[|s| - |p|..] == p }

  /** Python's `p in s` for strings. */
  predicate Contains(s: string, p: string)
    decreases |s|
  {
    StartsWith(s, p) || (|s| > 0 && Contains(s[1..], p))
  }

  /** Python's `s.replace(p, r)` for a non-empty `p`: every occurrence, left to
      right, without overlaps. */
  function Replace(s: string, p: string, r: string): (t: string)
    requires |p| > 0
    ensures !Contains(s, p) ==> t == s
    decreases |s|
  {
    if |s| < |p| then s
    else if s[..|p|] == p then r + Replace(s[|p|..], p, r)
    else [s[0]] + Replace(s[1..], p, r)
  }

  /** A prefix that cannot start an occurrence of `p` passes through `Replace`
      untouched. */
  lemma {:induction false} ReplaceSkipsPrefix(a: string, t: string, p: string, r: string)
    requires |p| > 0 && p[0] !in a
    ensures Replace(a + t, p, r) == a + Replace(t, p, r)
    decreases |a|
  {
    if a != [] {
      var s := a + t;
      assert s[1..] == a[1..] + t;
      ReplaceSkipsPrefix(a[1..], t, p, r);
      if |s| >= |p| {
        assert s[..|p|] != p by { assert s[..|p|][0] == a[0] && a[0] != p[0]; }
        calc {
          Replace(s, p, r);
          [s[0]] + Replace(s[1..], p, r);
          [a[0]] + (a[1..] + Replace(t, p, r));
          { assert [a[0]] + a[1..] == a; }
          a + Replace(t, p, r);
        }
      } else {
        assert Replace(t, p, r) == t;
        assert Replace(s, p, r) == s;
      }
    } else {
      assert a + t == t;
    }
  }

  lemma ReplaceAtStart(t: string, p: string, r: string)
    requires |p| > 0
    ensures Replace(p + t, p, r) == r + Replace(t, p, r)
  {
    assert (p + t)[..|p|] == p;
    assert (p + t)[|p|..] == t;
  }

  function LowerChar(c: char): char
  {
    if 'A' <= c <= 'Z' then (c as int + 32) as char else c
  }

  /** `str.lower()` restricted to ASCII letters. */
  function Lower(s: string): (t: string)
    ensures |t| == |s|
    ensures forall i :: 0 <= i < |s| ==> t[i] == LowerChar(s[i])
  {
    seq(|s|, i requires 0 <= i < |s| => LowerChar(s[i]))
  }

  /** `sep.join(parts)`. */
  function Join(sep: string, parts: seq<string>): string
  {
    if parts == [] then "" else if |parts| == 1 then parts[0] else parts[0] + sep + Join(sep, parts[1..])
  }
}
