/**
 * Decimal integer text. Both forms send numeric ids typed into
 * `<input type="number">` fields; the model recognises an optionally signed
 * run of decimal digits as a number (the `isNaN(Number(s))` test) and reads its
 * value (the `parseInt(s)` call), and renders integers back the way
 * `toString()` does.
 */
module Numeric {
  import opened Wrappers

  predicate IsDigit(c: char) {
    '0' <= c <= '9'
  }

  predicate AllDigits(s: string) {
    forall i :: 0 <= i < |s| ==> IsDigit(s[i])
  }

  /** An optionally signed, non-empty run of decimal digits. */
  predicate IsIntegerText(s: string) {
    if |s| > 0 && s[0] == '-' then |s| > 1 && AllDigits(s[1..])
    else |s| > 0 && AllDigits(s)
  }

  function DigitValue(c: char): (d: nat)
    requires IsDigit(c)
    ensures d < 10
  {
    (c as int) - ('0' as int)
  }

  function DigitChar(d: nat): (c: char)
    requires d < 10
    ensures IsDigit(c) && DigitValue(c) == d
  {
    ('0' as int + d) as char
  }

  /** The value of a digit run, most significant digit first. */
  function DigitsValue(s: string): nat
    requires AllDigits(s)
  {
    if s == [] then 0 else 10 * DigitsValue(s[..|s| - 1]) + DigitValue(s[|s| - 1])
  }

  /** The value of integer text. */
  function IntegerValue(s: string): int
    requires IsIntegerText(s)
  {
    if s[0] == '-' then -(DigitsValue(s[1..]) as int) else DigitsValue(s)
  }

  /** `parseInt` on the texts the model accepts; `None` stands for `NaN`, which
      `JSON.stringify` writes as `null`. */
  function ParseInt(s: string): (r: Option<int>)
    ensures r.Some? <==> IsIntegerText(s)
    ensures r.Some? ==> r.value == IntegerValue(s)
  {
    if IsIntegerText(s) then Some(IntegerValue(s)) else None
  }

  /** Decimal rendering of a natural number, without leading zeros. */
  function ShowNat(n: nat): (s: string)
    ensures |s| > 0 && AllDigits(s)
    ensures DigitsValue(s) == n
    ensures s[0] != '0' || n == 0
    ensures n == 0 ==> s == "0"
  {
    if n < 10 then [DigitChar(n)]
    else
      var prefix := ShowNat(n / 10);
      var s := prefix + [DigitChar(n % 10)];
      assert s[..|s| - 1] == prefix;
      s
  }

  /** Decimal rendering of an integer, as `Number.prototype.toString` gives it. */
  function ShowInt(i: int): (s: string)
    ensures IsIntegerText(s)
    ensures IntegerValue(s) == i
    ensures s[0] == '0' ==> s == "0"
    ensures s[0] == '-' ==> i < 0 && s[1] != '0'
  {
    if i < 0 then
      var digits := ShowNat(-i);
      assert ("-" + digits)[1..] == digits;
      "-" + digits
    else ShowNat(i)
  }

  /** Reading back a rendered integer gives the integer. */
  lemma ParseShowInt(i: int)
    ensures ParseInt(ShowInt(i)) == Some(i)
  {
  }

  /** Rendering is injective: distinct ids never share a text. */
  lemma ShowIntInjective(i: int, j: int)
    ensures ShowInt(i) == ShowInt(j) ==> i == j
  {
    if ShowInt(i) == ShowInt(j) {
      assert IntegerValue(ShowInt(i)) == IntegerValue(ShowInt(j));
    }
  }
}
