// Authorized amounts cross the program as decimal strings. ParseAtomic accepts
// exactly what FormatUint prints for 1 .. 2^64-1.
module Atomic {
  import opened Wrappers
  import opened Bytes

  predicate IsDigit(c: char) {
    '0' <= c <= '9'
  }

  function Digit(c: char): nat
    requires IsDigit(c)
  {
    c as int - '0' as int
  }

  predicate AllDigits(s: string) {
    forall c <- s :: IsDigit(c)
  }

  function Numeral(s: string): nat
    requires AllDigits(s)
  {
    if s == "" then 0 else Numeral(s[..|s| - 1]) * 10 + Digit(s[|s| - 1])
  }

  // strconv.FormatUint(n, 10).
  function Decimal(n: nat): (s: string)
    ensures s != "" && AllDigits(s)
  {
    var last := ['0' + (n % 10) as char];
    if n < 10 then last else Decimal(n / 10) + last
  }

  lemma {:induction false} DecimalIsCanonical(n: nat)
    ensures Numeral(Decimal(n)) == n
    ensures |Decimal(n)| > 1 ==> Decimal(n)[0] != '0'
    ensures Decimal(n)[0] == '0' <==> n == 0
  {
    if n >= 10 {
      DecimalIsCanonical(n / 10);
      var s := Decimal(n);
      assert s[..|s| - 1] == Decimal(n / 10);
    }
  }

  lemma {:induction false} CanonicalIsDecimal(s: string)
    requires s != "" && AllDigits(s) && (|s| > 1 ==> s[0] != '0')
    ensures Decimal(Numeral(s)) == s
  {
    if |s| == 1 {
      assert Numeral(s[..0]) == 0;
      var d := Digit(s[0]);
      assert d % 10 == d && '0' + d as char == s[0];
      assert Decimal(d) == [s[0]];
    } else {
      var front := s[..|s| - 1];
      CanonicalIsDecimal(front);
      DecimalIsCanonical(Numeral(front));
      var q, d := Numeral(front), Digit(s[|s| - 1]);
      assert q > 0 && (q * 10 + d) / 10 == q && (q * 10 + d) % 10 == d;
      assert Decimal(q * 10 + d) == Decimal(q) + ['0' + d as char];
      assert s == front + [s[|s| - 1]];
    }
  }

  // A prefix is never worth more than the whole numeral.
  lemma {:induction false} NumeralGrows(s: string, i: nat)
    requires AllDigits(s) && i <= |s|
    ensures Numeral(s[..i]) <= Numeral(s)
  {
    if i == |s| {
      assert s[..i] == s;
    } else {
      NumeralGrows(s[..|s| - 1], i);
      assert s[..|s| - 1][..i] == s[..i];
    }
  }

  // strconv.ParseUint(s, 10, 64) on digits: overflow is refused.
  method ParseUint(s: string) returns (v: Option<u64>)
    requires AllDigits(s)
    ensures v == if Numeral(s) < U64_LIMIT then Some(Numeral(s)) else None
  {
    var n := 0;
    for i := 0 to |s|
      invariant n == Numeral(s[..i]) < U64_LIMIT
    {
      assert s[..i + 1][..i] == s[..i];
      n := n * 10 + Digit(s[i]);
      if n >= U64_LIMIT {
        NumeralGrows(s, i + 1);
        return None;
      }
    }
    assert s[..|s|] == s;
    return Some(n);
  }

  // Only what printing some amount from 1 to 2^64-1 gives is accepted.
  method ParseAtomic(s: string) returns (r: Option<u64>)
    ensures forall v: nat :: r == Some(v) <==> 1 <= v < U64_LIMIT && s == Decimal(v)
  {
    forall v: nat | s == Decimal(v)
      ensures AllDigits(s) && Numeral(s) == v && (|s| > 1 ==> s[0] != '0')
    {
      DecimalIsCanonical(v);
    }
    if s == "" || (|s| > 1 && s[0] == '0') {
      return None;
    }
    for i := 0 to |s|
      invariant forall j :: 0 <= j < i ==> IsDigit(s[j])
    {
      if s[i] < '0' || s[i] > '9' {
        assert !IsDigit(s[i]) && s[i] in s;
        return None;
      }
    }
    CanonicalIsDecimal(s);
    var v := ParseUint(s);
    if v == None || v == Some(0) {
      return None;
    }
    return v;
  }

  // Two amounts with one numeral are one amount.
  lemma DecimalIsInjective(a: nat, b: nat)
    requires Decimal(a) == Decimal(b)
    ensures a == b
  {
    DecimalIsCanonical(a);
    DecimalIsCanonical(b);
  }

  // ---- what the digits are worth ----

  predicate LexLess(s: string, t: string) {
    |s| == |t| && exists k: nat :: k < |s| && s[..k] == t[..k] && s[k] < t[k]
  }

  // Shorter, or the first character that differs is smaller.
  predicate NumeralLess(s: string, t: string) {
    |s| < |t| || LexLess(s, t)
  }

  lemma NumeralLessIsAsymmetric(s: string, t: string)
    requires NumeralLess(s, t)
    ensures !NumeralLess(t, s)
  {
    if LexLess(s, t) && LexLess(t, s) {
      var k: nat :| k < |s| && s[..k] == t[..k] && s[k] < t[k];
      var m: nat :| m < |t| && t[..m] == s[..m] && t[m] < s[m];
      assert forall i :: 0 <= i < k ==> s[..k][i] == s[i] && t[..k][i] == t[i];
      assert forall i :: 0 <= i < m ==> s[..m][i] == s[i] && t[..m][i] == t[i];
    }
  }

  lemma LexLessExtends(s: string, t: string, c: char, d: char)
    ensures LexLess(s, t) ==> LexLess(s + [c], t + [d])
    ensures s == t && c < d ==> LexLess(s + [c], t + [d])
  {
    if LexLess(s, t) {
      var k: nat :| k < |s| && s[..k] == t[..k] && s[k] < t[k];
      assert (s + [c])[..k] == (t + [d])[..k] && (s + [c])[k] < (t + [d])[k];
    }
    if s == t && c < d {
      assert (s + [c])[..|s|] == (t + [d])[..|s|] && (s + [c])[|s|] < (t + [d])[|s|];
    }
  }

  lemma {:induction false} SmallerPrintsLess(a: nat, b: nat)
    requires a < b
    ensures NumeralLess(Decimal(a), Decimal(b))
  {
    var c, d := '0' + (a % 10) as char, '0' + (b % 10) as char;
    if b < 10 {
      LexLessExtends("", "", c, d);
      assert [] + [c] == [c] && [] + [d] == [d];
    } else if a >= 10 {
      if a / 10 < b / 10 {
        SmallerPrintsLess(a / 10, b / 10);
      }
      LexLessExtends(Decimal(a / 10), Decimal(b / 10), c, d);
    }
  }

  // Numerals are ordered by length and then character by character exactly as
  // their values are.
  lemma NumeralOrderIffValueOrder(a: nat, b: nat)
    ensures a < b <==> NumeralLess(Decimal(a), Decimal(b))
  {
    if a < b {
      SmallerPrintsLess(a, b);
    } else if b < a {
      SmallerPrintsLess(b, a);
      NumeralLessIsAsymmetric(Decimal(b), Decimal(a));
    }
  }
}
