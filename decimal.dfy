/** Vocabulary IDs are decimal numerals held as strings. The scripts read them
    with Python's `int(...)` and write them with `str(...)`; this module models
    both on unbounded naturals and proves that rendering then parsing is
    lossless, which is what keeps the running `next_id` string valid. */
module Decimal {
  import opened Common

  predicate IsDigit(c: char) {
    '0' <= c <= '9'
  }

  function DigitValue(c: char): (d: nat)
    requires IsDigit(c)
    ensures d < 10
  {
    (c as int) - ('0' as int)
  }

  function DigitChar(d: nat): (c: char)
    requires d < 10
    ensures IsDigit(c) && DigitValue(c) == d
  {
    ('0' as int + d) as char
  }

  predicate AllDigits(s: string) {
    forall i :: 0 <= i < |s| ==> IsDigit(s[i])
  }

  /** What `int(s)` accepts in this model: a non-empty string of ASCII digits. */
  predicate IsNumeral(s: string) {
    |s| > 0 && AllDigits(s)
  }

  /** What `str(n)` produces: a numeral without leading zeros. */
  predicate IsCanonical(s: string) {
    IsNumeral(s) && (s[0] == '0' ==> |s| == 1)
  }

  /** The number a digit string denotes, most significant digit first. */
  function Value(s: string): nat
    requires AllDigits(s)
  {
    if s == [] then 0 else Value(s[..|s| - 1]) * 10 + DigitValue(s[|s| - 1])
  }

  /** Python `int(s)`: the value of a numeral, None where `int` would raise. */
  function Parse(s: string): (r: Option<nat>)
    ensures r.Some? <==> IsNumeral(s)
    ensures r.Some? ==> r.value == Value(s)
  {
    if IsNumeral(s) then Some(Value(s)) else None
  }

  /** Python `str(n)` for a non-negative integer. */
  function Render(n: nat): (s: string)
    ensures IsCanonical(s)
    ensures n < 10 <==> |s| == 1
  {
    if n < 10 then [DigitChar(n)] else Render(n / 10) + [DigitChar(n % 10)]
  }

  /** `int(str(n)) == n`. */
  lemma {:induction false} ValueRender(n: nat)
    ensures Value(Render(n)) == n
  {
    var s := Render(n);
    if n >= 10 {
      assert s[..|s| - 1] == Render(n / 10);
      ValueRender(n / 10);
    }
  }

  lemma ParseRender(n: nat)
    ensures Parse(Render(n)) == Some(n)
  {
    ValueRender(n);
  }

  /** `str(int(s)) == s` exactly when `s` has no leading zero. */
  lemma {:induction false} RenderValue(s: string)
    requires IsCanonical(s)
    ensures Render(Value(s)) == s
  {
    if |s| > 1 {
      var init := s[..|s| - 1];
      assert IsCanonical(init) && init[0] == s[0];
      RenderValue(init);
      ValueAtLeast(s);
      assert Value(s) / 10 == Value(init) && Value(s) % 10 == DigitValue(s[|s| - 1]);
      assert [DigitChar(DigitValue(s[|s| - 1]))] == [s[|s| - 1]];
    }
  }

  /** A canonical numeral of two or more digits denotes at least 10. */
  lemma {:induction false} ValueAtLeast(s: string)
    requires IsCanonical(s) && |s| > 1
    ensures Value(s) >= 10
  {
    ValuePositive(s[..|s| - 1]);
  }

  lemma {:induction false} ValuePositive(s: string)
    requires IsNumeral(s) && s[0] != '0'
    ensures Value(s) > 0
  {
    if |s| > 1 {
      ValuePositive(s[..|s| - 1]);
    }
  }

  /** Distinct numbers render to distinct strings. */
  lemma RenderInjective(m: nat, n: nat)
    ensures Render(m) == Render(n) <==> m == n
  {
    ValueRender(m);
    ValueRender(n);
  }
}
