/**
  Decimal rendering of integers as Kotlin's string templates and
  `String.format("%d")` produce them (ASCII digits, a leading `-` for
  negatives, no leading zeros), and the matching parser used to state
  round-trip properties of the formatters.
 */
module Text {
  import opened Options

  predicate IsDigit(c: char) {
    '0' <= c <= '9'
  }

  predicate AllDigits(s: string) {
    forall i :: 0 <= i < |s| ==> IsDigit(s[i])
  }

  function DigitValue(c: char): (d: nat)
    requires IsDigit(c)
    ensures d < 10
  {
    c as int - '0' as int
  }

  function DigitChar(d: nat): (c: char)
    requires d < 10
    ensures IsDigit(c) && DigitValue(c) == d
  {
    ('0' as int + d) as char
  }

  /** The decimal digits of `n`, most significant first, without leading zeros. */
  function Decimal(n: nat): (s: string)
    ensures 1 <= |s| && AllDigits(s)
    ensures s[0] == '0' ==> n == 0
    decreases n
  {
    if n < 10 then [DigitChar(n)] else Decimal(n / 10) + [DigitChar(n % 10)]
  }

  /** The number a string of decimal digits denotes. */
  function ValueOf(s: string): nat
    requires AllDigits(s)
    decreases |s|
  {
    if |s| == 0 then 0 else ValueOf(s[..|s| - 1]) * 10 + DigitValue(s[|s| - 1])
  }

  /** Reading back the digits of `n` gives `n`. */
  lemma {:induction false} ValueOfDecimal(n: nat)
    ensures ValueOf(Decimal(n)) == n
    decreases n
  {
    if n >= 10 {
      var s := Decimal(n);
      assert s[..|s| - 1] == Decimal(n / 10);
      ValueOfDecimal(n / 10);
    }
  }

  /** A non-empty run of decimal digits read as a number; anything else reads as nothing. */
  function ParseNat(s: string): Option<nat> {
    if 0 < |s| && AllDigits(s) then Some(ValueOf(s)) else None
  }

  /** The digits of `n` read back as `n`. */
  lemma ParseNatDecimal(n: nat)
    ensures ParseNat(Decimal(n)) == Some(n)
  {
    ValueOfDecimal(n);
  }

  /** Kotlin's `Int.toString()` (and `"$i"`): a `-` sign, then the digits of |i|. */
  function IntString(i: int): (s: string)
    ensures 1 <= |s|
    ensures 0 <= i ==> s == Decimal(i)
    ensures i < 0 ==> s[0] == '-' && s[1..] == Decimal(-i)
  {
    if i < 0 then "-" + Decimal(-i) else Decimal(i)
  }

  /** `String.format("%02d", n)` for `0 <= n < 100`: always two digits. */
  function PadTwo(n: nat): (s: string)
    requires n < 100
    ensures |s| == 2 && AllDigits(s) && ValueOf(s) == n
  {
    var s := [DigitChar(n / 10), DigitChar(n % 10)];
    assert s[..1] == [DigitChar(n / 10)] && s[..1][..0] == [];
    assert ValueOf(s[..1]) == n / 10;
    s
  }

  /** The position of the first `c` in `s`. */
  function IndexOf(s: string, c: char): (r: Option<nat>)
    ensures r.Some? ==> r.value < |s| && s[r.value] == c
    ensures r.Some? ==> forall j :: 0 <= j < r.value ==> s[j] != c
    ensures r.None? ==> forall j :: 0 <= j < |s| ==> s[j] != c
    decreases |s|
  {
    if |s| == 0 then None
    else if s[0] == c then Some(0)
    else match IndexOf(s[1..], c)
      case None => None
      case Some(k) => Some(k + 1)
  }

  /** In digits followed by a non-digit separator, the separator is found first. */
  lemma IndexOfAfterDigits(digits: string, c: char, rest: string)
    requires AllDigits(digits) && !IsDigit(c)
    ensures IndexOf(digits + [c] + rest, c) == Some(|digits|)
  {
    var s := digits + [c] + rest;
    assert s[|digits|] == c;
    assert forall j :: 0 <= j < |digits| ==> s[j] == digits[j] && IsDigit(s[j]);
  }
}
