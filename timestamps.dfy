/**
  Backup timestamps in Go's layout "20060102-150405": the date as eight digits, a
  dash, the time of day as six digits. Because every field is zero-padded, the
  lexicographic order of two timestamps is the order of the numbers their digits
  spell, which is the order of the instants they name.
 */
module Timestamps {
  import opened Strings

  predicate IsDigit(c: char)
  {
    '0' <= c <= '9'
  }

  /** A timestamp formatted with the layout "20060102-150405". */
  predicate IsTimestamp(ts: string)
  {
    |ts| == 15 && ts[8] == '-' && forall i :: 0 <= i < 15 && i != 8 ==> IsDigit(ts[i])
  }

  function Pow10(n: nat): (r: nat)
    ensures r >= 1
  {
    if n == 0 then 1 else 10 * Pow10(n - 1)
  }

  /** The number of digits in `s`. */
  function DigitCount(s: string): nat
    decreases |s|
  {
    if s == [] then 0 else (if s[0] == '-' then 0 else 1) + DigitCount(s[1..])
  }

  /** The number the digits of `s` spell once the dashes are dropped (YYYYMMDDhhmmss for a timestamp). */
  function Value(s: string): nat
    decreases |s|
  {
    if s == [] then 0
    else if s[0] == '-' then Value(s[1..])
    else (if IsDigit(s[0]) then s[0] as int - '0' as int else 0) * Pow10(DigitCount(s[1..])) + Value(s[1..])
  }

  /** Digits and dashes only. */
  predicate Numeric(s: string)
  {
    forall i :: 0 <= i < |s| ==> s[i] == '-' || IsDigit(s[i])
  }

  /** Two digit-and-dash strings with their dashes in the same places. */
  predicate SameShape(s: string, t: string)
  {
    |s| == |t| && Numeric(s) && Numeric(t) && forall i :: 0 <= i < |s| ==> (s[i] == '-' <==> t[i] == '-')
  }

  lemma {:induction false} ValueBound(s: string)
    requires Numeric(s)
    ensures Value(s) < Pow10(DigitCount(s))
    decreases |s|
  {
    if s != [] {
      assert Numeric(s[1..]) by {
        forall i | 0 <= i < |s[1..]| ensures s[1..][i] == '-' || IsDigit(s[1..][i]) {
          assert s[1..][i] == s[i + 1];
        }
      }
      ValueBound(s[1..]);
      if s[0] != '-' {
        var d := s[0] as int - '0' as int;
        var p := Pow10(DigitCount(s[1..]));
        assert Value(s) == d * p + Value(s[1..]);
        LeadingDigitDecides(d, 10, p, Value(s[1..]), 0);
      }
    }
  }

  lemma {:induction false} SameShapeTail(s: string, t: string)
    requires SameShape(s, t) && s != []
    ensures SameShape(s[1..], t[1..])
    ensures DigitCount(s) == DigitCount(t) ==> DigitCount(s[1..]) == DigitCount(t[1..])
  {
    forall i | 0 <= i < |s[1..]|
      ensures (s[1..][i] == '-' || IsDigit(s[1..][i])) && (t[1..][i] == '-' || IsDigit(t[1..][i]))
      ensures s[1..][i] == '-' <==> t[1..][i] == '-'
    {
      assert s[1..][i] == s[i + 1] && t[1..][i] == t[i + 1];
    }
  }

  lemma {:induction false} SameShapeDigitCount(s: string, t: string)
    requires SameShape(s, t)
    ensures DigitCount(s) == DigitCount(t)
    decreases |s|
  {
    if s != [] {
      SameShapeTail(s, t);
      SameShapeDigitCount(s[1..], t[1..]);
    }
  }

  /** A larger leading digit outweighs whatever follows it. */
  lemma LeadingDigitDecides(lo: int, hi: int, p: int, rest: int, other: int)
    requires 0 <= lo < hi && 1 <= p && 0 <= rest < p && 0 <= other
    ensures lo * p + rest < hi * p + other
  {
    assert (lo + 1) * p == lo * p + p;
    assert (lo + 1) * p <= hi * p;
  }

  /** For strings of the same shape, string order and numeric order agree. */
  lemma {:induction false} LessEqIsNumericOrder(s: string, t: string)
    requires SameShape(s, t)
    ensures LessEq(s, t) <==> Value(s) <= Value(t)
    decreases |s|
  {
    if s != [] {
      SameShapeTail(s, t);
      SameShapeDigitCount(s[1..], t[1..]);
      if s[0] == t[0] {
        LessEqIsNumericOrder(s[1..], t[1..]);
      } else {
        assert s[0] != '-' && t[0] != '-';
        var p := Pow10(DigitCount(s[1..]));
        var ds := s[0] as int - '0' as int;
        var dt := t[0] as int - '0' as int;
        assert Value(s) == ds * p + Value(s[1..]);
        assert Value(t) == dt * p + Value(t[1..]);
        ValueBound(s[1..]);
        ValueBound(t[1..]);
        if s[0] < t[0] {
          LeadingDigitDecides(ds, dt, p, Value(s[1..]), Value(t[1..]));
        } else {
          LeadingDigitDecides(dt, ds, p, Value(t[1..]), Value(s[1..]));
        }
      }
    }
  }

  /** Two timestamps compare as strings exactly as the instants they name compare. */
  lemma TimestampOrderIsChronological(t1: string, t2: string)
    requires IsTimestamp(t1) && IsTimestamp(t2)
    ensures LessEq(t1, t2) <==> Value(t1) <= Value(t2)
  {
    assert SameShape(t1, t2);
    LessEqIsNumericOrder(t1, t2);
  }
}
