/** String helpers the scorers rely on: Python's `str.lower()`, the `in`
    substring test, `", ".join(...)`, and the digit filtering and decimal
    conversion behind `int(''.join(filter(str.isdigit, s)))` and `str(n)`.
    Characters are treated as ASCII: only 'A'..'Z' have a lower-case form and
    only '0'..'9' are digits. */
module Text {
  import opened Wrappers

  function LowerChar(c: char): char {
    if 'A' <= c <= 'Z' then (c as int + 32) as char else c
  }

  /** `s.lower()` */
  function Lower(s: string): (r: string)
    ensures |r| == |s|
    ensures forall i :: 0 <= i < |s| ==> r[i] == LowerChar(s[i])
  {
    seq(|s|, i requires 0 <= i < |s| => LowerChar(s[i]))
  }

  /** Lower-casing twice is lower-casing once, so comparing lower-cased
      names is insensitive to the case of either side. */
  lemma LowerIdempotent(s: string)
    ensures Lower(Lower(s)) == Lower(s)
  {
  }

  predicate IsPrefix(p: string, s: string) {
    |p| <= |s| && s[..|p|] == p
  }

  /** `needle in hay` for two strings. */
  predicate Contains(hay: string, needle: string)
    decreases |hay|
  {
    IsPrefix(needle, hay) || (|hay| > 0 && Contains(hay[1..], needle))
  }

  /** `needle` occurs in `hay` starting at offset `k`. */
  predicate OccursAt(hay: string, needle: string, k: int) {
    0 <= k <= |hay| - |needle| && hay[k..k + |needle|] == needle
  }

  /** An occurrence is either at the front or an occurrence in the tail. */
  lemma OccursAtShift(hay: string, needle: string, k: int)
    requires OccursAt(hay, needle, k)
    ensures (k == 0 && IsPrefix(needle, hay)) || (|hay| > 0 && OccursAt(hay[1..], needle, k - 1))
  {
    if k == 0 {
      assert hay[..|needle|] == hay[k..k + |needle|];
    } else {
      var tail := hay[1..];
      assert k - 1 + |needle| <= |tail|;
      assert forall m :: 1 <= m < |hay| ==> tail[m - 1] == hay[m];
      assert tail[k - 1..k - 1 + |needle|] == hay[k..k + |needle|];
    }
  }

  /** The recursive test agrees with "the needle occurs at some offset". */
  lemma {:induction false} ContainsAt(hay: string, needle: string)
    ensures Contains(hay, needle) <==> exists k :: OccursAt(hay, needle, k)
    decreases |hay|
  {
    if |hay| > 0 {
      ContainsAt(hay[1..], needle);
    }
    if Contains(hay, needle) {
      if IsPrefix(needle, hay) {
        assert OccursAt(hay, needle, 0);
      } else {
        var k :| OccursAt(hay[1..], needle, k);
        assert hay[k + 1..k + 1 + |needle|] == hay[1..][k..k + |needle|];
        assert OccursAt(hay, needle, k + 1);
      }
    }
    if exists k :: OccursAt(hay, needle, k) {
      var k :| OccursAt(hay, needle, k);
      OccursAtShift(hay, needle, k);
    }
  }

  /** `sep.join(parts)` */
  function Join(parts: seq<string>, sep: string): string
  {
    if |parts| == 0 then ""
    else if |parts| == 1 then parts[0]
    else parts[0] + sep + Join(parts[1..], sep)
  }

  predicate IsDigit(c: char) {
    '0' <= c <= '9'
  }

  predicate AllDigits(s: string) {
    forall i :: 0 <= i < |s| ==> IsDigit(s[i])
  }

  /** `''.join(filter(str.isdigit, s))`: the digits of `s`, in order. */
  function DigitsOf(s: string): (r: string)
    ensures AllDigits(r)
    ensures |r| <= |s|
  {
    if s == [] then []
    else (if IsDigit(s[0]) then [s[0]] else []) + DigitsOf(s[1..])
  }

  function DigitValue(c: char): nat
    requires IsDigit(c)
  {
    c as int - '0' as int
  }

  function DigitChar(d: nat): char
    requires d < 10
  {
    ('0' as int + d) as char
  }

  /** `int(ds)` for a string of digits (leading zeros allowed). */
  function DecimalValue(ds: string): nat
    requires AllDigits(ds)
  {
    if ds == [] then 0
    else DecimalValue(ds[..|ds| - 1]) * 10 + DigitValue(ds[|ds| - 1])
  }

  /** `str(n)` for a natural number. */
  function Decimal(n: nat): (r: string)
    ensures AllDigits(r) && |r| >= 1
  {
    if n < 10 then [DigitChar(n)] else Decimal(n / 10) + [DigitChar(n % 10)]
  }

  /** `int(str(n)) == n` */
  lemma {:induction false} DecimalRoundTrip(n: nat)
    ensures DecimalValue(Decimal(n)) == n
  {
    if n >= 10 {
      var s := Decimal(n);
      assert s[..|s| - 1] == Decimal(n / 10);
      DecimalRoundTrip(n / 10);
    }
  }

  /** Filtering digits distributes over concatenation. */
  lemma {:induction false} DigitsOfAppend(a: string, b: string)
    ensures DigitsOf(a + b) == DigitsOf(a) + DigitsOf(b)
  {
    if a == [] {
      assert a + b == b;
    } else {
      assert (a + b)[1..] == a[1..] + b;
      DigitsOfAppend(a[1..], b);
    }
  }

  /** Filtering the digits of a digit string keeps it whole. */
  lemma {:induction false} DigitsOfAllDigits(s: string)
    requires AllDigits(s)
    ensures DigitsOf(s) == s
  {
    if s != [] {
      DigitsOfAllDigits(s[1..]);
    }
  }

  /** `int(''.join(filter(str.isdigit, s)))`; None where Python raises
      ValueError because `s` holds no digit. */
  function ParseDigits(s: string): (r: Option<nat>)
    ensures r.None? <==> DigitsOf(s) == []
  {
    var ds := DigitsOf(s);
    if ds == [] then None else Some(DecimalValue(ds))
  }

  /** The digits of `str(n)` followed by digit-free text parse back to `n`. */
  lemma DecimalThenTextParses(n: nat, suffix: string)
    requires DigitsOf(suffix) == []
    ensures ParseDigits(Decimal(n) + suffix) == Some(n)
  {
    DigitsOfAppend(Decimal(n), suffix);
    DigitsOfAllDigits(Decimal(n));
    assert DigitsOf(Decimal(n) + suffix) == Decimal(n);
    DecimalRoundTrip(n);
  }
}
