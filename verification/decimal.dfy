/** Textual form of integer identifiers.

    Identifiers cross the API as untyped values and are turned into text
    with `fmt.Sprintf("%v", id)` (`toStringID`); the database turns such
    text back into an integer key. This module models both directions for
    non-negative keys and proves that parsing a key's text gives the key back.
    (The converse fails: `Parse` also accepts leading zeros, which `Render` never writes.) */
module Decimal {
  import opened Results

  predicate IsDigit(c: char) {
    '0' <= c <= '9'
  }

  predicate AllDigits(s: string) {
    forall i :: 0 <= i < |s| ==> IsDigit(s[i])
  }

  function DigitChar(d: nat): (c: char)
    requires d < 10
    ensures IsDigit(c)
  {
    ('0' as int + d) as char
  }

  function DigitValue(c: char): (d: nat)
    requires IsDigit(c)
    ensures d < 10
  {
    c as int - '0' as int
  }

  /** The base-10 text `%v` prints for a non-negative integer: no sign, no leading zeros. */
  function Render(n: nat): (s: string)
    ensures 1 <= |s|
    ensures AllDigits(s)
    ensures |s| > 1 ==> s[0] != '0'
    decreases n
  {
    if n < 10 then [DigitChar(n)] else Render(n / 10) + [DigitChar(n % 10)]
  }

  /** The value of a run of decimal digits, most significant first. */
  function DigitsValue(s: string): nat
    requires AllDigits(s)
    decreases |s|
  {
    if s == [] then 0 else DigitsValue(s[..|s| - 1]) * 10 + DigitValue(s[|s| - 1])
  }

  /** Reading text as a non-negative integer key: a non-empty run of digits, nothing else. */
  function Parse(s: string): (r: Option<nat>)
    ensures r.Some? <==> 1 <= |s| && AllDigits(s)
  {
    if 1 <= |s| && AllDigits(s) then Some(DigitsValue(s)) else None
  }

  lemma {:induction false} RenderValue(n: nat)
    ensures DigitsValue(Render(n)) == n
    decreases n
  {
    if n >= 10 {
      var s := Render(n);
      RenderValue(n / 10);
      assert s[..|s| - 1] == Render(n / 10);
      assert s[|s| - 1] == DigitChar(n % 10);
    }
  }

  /** Reading back the text of a key yields the key. */
  lemma ParseRender(n: nat)
    ensures Parse(Render(n)) == Some(n)
  {
    RenderValue(n);
  }

  /** Distinct keys have distinct texts. */
  lemma RenderInjective(a: nat, b: nat)
    requires Render(a) == Render(b)
    ensures a == b
  {
    ParseRender(a);
    ParseRender(b);
  }
}
