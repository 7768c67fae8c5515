/** Decimal text of unsigned integers, as Rust's `{:?}` writes a `u8`:
    most significant digit first, no sign, no leading zeros. */
module Decimal {

  predicate IsDigit(c: char)
  {
    '0' <= c <= '9'
  }

  predicate IsDigits(s: string)
  {
    forall i :: 0 <= i < |s| ==> IsDigit(s[i])
  }

  /** A digit string as the renderer writes it: non-empty, and starting
      with '0' only when it is "0" itself. */
  predicate IsCanonical(s: string)
  {
    IsDigits(s) && |s| >= 1 && (s[0] == '0' ==> |s| == 1)
  }

  function DigitChar(d: nat): (c: char)
    requires d < 10
    ensures IsDigit(c)
  {
    ('0' as int + d) as char
  }

  function DigitValue(c: char): nat
    requires IsDigit(c)
  {
    c as int - '0' as int
  }

  /** The decimal text of `n`. */
  function Render(n: nat): (r: string)
    ensures IsCanonical(r)
    ensures |r| == 1 <==> n < 10
    decreases n
  {
    if n < 10 then [DigitChar(n)] else Render(n / 10) + [DigitChar(n % 10)]
  }

  /** The number a digit string denotes. */
  function Value(s: string): nat
    requires IsDigits(s)
    decreases |s|
  {
    if |s| == 0 then 0 else 10 * Value(s[..|s| - 1]) + DigitValue(s[|s| - 1])
  }

  /** Reading the text back gives the number. */
  lemma {:induction false} ValueOfRender(n: nat)
    ensures Value(Render(n)) == n
    decreases n
  {
    var r := Render(n);
    if n >= 10 {
      assert r[..|r| - 1] == Render(n / 10);
      ValueOfRender(n / 10);
    }
  }

  /** A canonical digit string of more than one digit denotes at least 10. */
  lemma {:induction false} ValueOfLongCanonical(s: string)
    requires IsCanonical(s) && |s| >= 2
    ensures Value(s) >= 10
    decreases |s|
  {
    var init := s[..|s| - 1];
    assert init[0] == s[0];
    if |init| >= 2 {
      ValueOfLongCanonical(init);
    } else {
      assert Value(init) == DigitValue(s[0]);
    }
  }

  /** Rendering the value of a canonical digit string gives the string back. */
  lemma {:induction false} RenderOfValue(s: string)
    requires IsCanonical(s)
    ensures Render(Value(s)) == s
    decreases |s|
  {
    if |s| >= 2 {
      var init := s[..|s| - 1];
      assert init[0] == s[0];
      ValueOfLongCanonical(s);
      RenderOfValue(init);
      assert s == init + [s[|s| - 1]];
    }
  }

  /** Distinct numbers have distinct texts. */
  lemma RenderInjective(m: nat, n: nat)
    requires Render(m) == Render(n)
    ensures m == n
  {
    ValueOfRender(m);
    ValueOfRender(n);
  }
}
