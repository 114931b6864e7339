/** The part of Go's `strconv` package the VMess builder uses: `Atoi`, the parse of the
    port text, and the decimal text of an integer as its partner. */
module Strconv {
  import opened Wrappers

  predicate IsDigit(c: char) { '0' <= c <= '9' }

  predicate AllDigits(ds: string) { forall i :: 0 <= i < |ds| ==> IsDigit(ds[i]) }

  function DigitValue(c: char): nat
    requires IsDigit(c)
  {
    (c as int) - ('0' as int)
  }

  /** The value of a run of decimal digits, most significant first. */
  function DigitsValue(ds: string): nat
    requires AllDigits(ds)
  {
    if |ds| == 0 then 0
    else DigitsValue(ds[..|ds| - 1]) * 10 + DigitValue(ds[|ds| - 1])
  }

  predicate HasSign(s: string) { |s| > 0 && (s[0] == '+' || s[0] == '-') }

  /** The text after an optional leading sign. */
  function Unsigned(s: string): string
  {
    if HasSign(s) then s[1..] else s
  }

  /** The syntax `Atoi` accepts: an optional `+` or `-`, then one or more ASCII digits. */
  predicate IsIntegerText(s: string)
  {
    |Unsigned(s)| > 0 && AllDigits(Unsigned(s))
  }

  /** `strconv.Atoi`: `None` stands for its syntax error; leading zeros and a `+` are
      accepted, and nothing requires the value to be positive. */
  function Atoi(s: string): Option<int>
  {
    if !IsIntegerText(s) then None
    else
      var magnitude: int := DigitsValue(Unsigned(s));
      Some(if s[0] == '-' then -magnitude else magnitude)
  }

  function DigitChar(d: nat): char
    requires d < 10
  {
    ('0' as int + d) as char
  }

  /** Decimal digits of `n`, no sign, no leading zeros. */
  function FormatNat(n: nat): string
  {
    if n < 10 then [DigitChar(n)] else FormatNat(n / 10) + [DigitChar(n % 10)]
  }

  /** Decimal rendering of an integer, with a `-` for negative values. */
  function FormatInt(n: int): string
  {
    if n < 0 then "-" + FormatNat(-n) else FormatNat(n)
  }

  lemma {:induction false} FormatNatDigits(n: nat)
    ensures |FormatNat(n)| > 0 && AllDigits(FormatNat(n))
    ensures DigitsValue(FormatNat(n)) == n
    decreases n
  {
    if n >= 10 {
      FormatNatDigits(n / 10);
      var s := FormatNat(n / 10) + [DigitChar(n % 10)];
      assert s[..|s| - 1] == FormatNat(n / 10);
      assert AllDigits(s) by {
        forall i | 0 <= i < |s| ensures IsDigit(s[i]) {
          if i < |s| - 1 { assert s[i] == FormatNat(n / 10)[i]; }
        }
      }
    }
  }

  /** `Atoi` reads back every integer rendered in decimal. */
  lemma AtoiFormatInt(n: int)
    ensures Atoi(FormatInt(n)) == Some(n)
  {
    if n < 0 {
      FormatNatDigits(-n);
      assert Unsigned(FormatInt(n)) == FormatNat(-n);
    } else {
      FormatNatDigits(n);
      assert !HasSign(FormatNat(n));
    }
  }
}
