/**
 * How an instrument id crosses the wire: `id.toString()` on the way out and
 * `BigInt(text)` on the way back in.
 */
module JsBigInt {
  import opened Wrappers

  predicate IsDigit(c: char)
  {
    '0' <= c <= '9'
  }

  predicate AllDigits(s: string)
  {
    forall k :: 0 <= k < |s| ==> IsDigit(s[k])
  }

  function DigitChar(d: nat): (c: char)
    requires d < 10
    ensures IsDigit(c) && c as int - '0' as int == d
  {
    ('0' as int + d) as char
  }

  function DigitValue(c: char): nat
    requires IsDigit(c)
  {
    c as int - '0' as int
  }

  /** The value of a run of decimal digits, most significant first. */
  function DigitsValue(s: string): nat
    requires AllDigits(s)
  {
    if s == [] then 0 else DigitsValue(s[..|s| - 1]) * 10 + DigitValue(s[|s| - 1])
  }

  /** The decimal digits of a natural number, without leading zeros. */
  function NatDigits(n: nat): (s: string)
    ensures |s| >= 1 && AllDigits(s)
    ensures s[0] != '0' || s == "0"
  {
    if n < 10 then [DigitChar(n)] else NatDigits(n / 10) + [DigitChar(n % 10)]
  }

  /** `n.toString()` for a BigInt `n`: an optional minus sign, then the digits. */
  function ToDecimal(n: int): string
  {
    if n < 0 then "-" + NatDigits(-n) else NatDigits(n)
  }

  /**
   * `BigInt(text)` for a string argument: `""` gives 0, otherwise an optional
   * sign and at least one decimal digit; anything else throws (None).
   */
  function ParseBigInt(s: string): Option<int>
  {
    if s == "" then Some(0)
    else if s[0] == '-' || s[0] == '+' then
      if |s| > 1 && AllDigits(s[1..]) then
        var magnitude: int := DigitsValue(s[1..]);
        Some(if s[0] == '-' then -magnitude else magnitude)
      else None
    else if AllDigits(s) then Some(DigitsValue(s))
    else None
  }

  lemma {:induction false} DigitsValueOfNatDigits(n: nat)
    ensures DigitsValue(NatDigits(n)) == n
  {
    if n >= 10 {
      var s := NatDigits(n);
      DigitsValueOfNatDigits(n / 10);
      assert s[..|s| - 1] == NatDigits(n / 10);
    }
  }

  /** Parsing the emitted text gives back the very same id. */
  lemma RoundTrip(n: int)
    ensures ParseBigInt(ToDecimal(n)) == Some(n)
  {
    if n < 0 {
      DigitsValueOfNatDigits(-n);
      assert ToDecimal(n)[1..] == NatDigits(-n);
    } else {
      DigitsValueOfNatDigits(n);
    }
  }

  /** Distinct ids are emitted as distinct texts. */
  lemma ToDecimalInjective(m: int, n: int)
    requires ToDecimal(m) == ToDecimal(n)
    ensures m == n
  {
    RoundTrip(m);
    RoundTrip(n);
  }

  /** The texts `toString` can produce: "0", or a minus sign and digits without a leading zero. */
  predicate Canonical(s: string)
  {
    s == "0" ||
    (|s| >= 1 && AllDigits(s) && s[0] != '0') ||
    (|s| >= 2 && s[0] == '-' && AllDigits(s[1..]) && s[1] != '0')
  }

  lemma {:induction false} LeadingNonZero(s: string)
    requires |s| >= 1 && AllDigits(s) && s[0] != '0'
    ensures DigitsValue(s) >= 1
    decreases |s|
  {
    if |s| > 1 {
      LeadingNonZero(s[..|s| - 1]);
    }
  }

  lemma {:induction false} NatDigitsOfDigitsValue(s: string)
    requires |s| >= 1 && AllDigits(s) && (s[0] != '0' || s == "0")
    ensures NatDigits(DigitsValue(s)) == s
    decreases |s|
  {
    if |s| > 1 {
      var p := s[..|s| - 1];
      LeadingNonZero(p);
      NatDigitsOfDigitsValue(p);
      assert s == p + [s[|s| - 1]];
    }
  }

  /** `toString` emits exactly the canonical texts, and each one parses back to its id. */
  lemma CanonicalRoundTrip(s: string)
    requires Canonical(s)
    ensures ParseBigInt(s).Some? && ToDecimal(ParseBigInt(s).value) == s
  {
    if s[0] == '-' {
      LeadingNonZero(s[1..]);
      NatDigitsOfDigitsValue(s[1..]);
    } else {
      NatDigitsOfDigitsValue(s);
    }
  }

  lemma ToDecimalCanonical(n: int)
    ensures Canonical(ToDecimal(n))
  {
    if n < 0 {
      assert ToDecimal(n)[1..] == NatDigits(-n);
    }
  }
}
