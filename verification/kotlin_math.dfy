/**
  Kotlin's integer operators where they differ from Dafny's: `/` and `%`
  truncate toward zero (Dafny's are Euclidean), and the range helpers
  `coerceIn` / `coerceAtLeast` of the Kotlin standard library.
 */
module KotlinMath {

  function Abs(x: int): nat {
    if x < 0 then -x else x
  }

  /** Kotlin's `a / b` on integers: the quotient truncated toward zero. */
  function Div(a: int, b: int): (q: int)
    requires b != 0
    ensures a >= 0 && b > 0 ==> q == a / b
  {
    if (a < 0) == (b < 0) then Abs(a) / Abs(b) else -(Abs(a) / Abs(b))
  }

  /** Kotlin's `a % b` on integers: the remainder takes the sign of `a`. */
  function Rem(a: int, b: int): (r: int)
    requires b != 0
    ensures a == b * Div(a, b) + r
    ensures Abs(r) < Abs(b)
    ensures a >= 0 ==> 0 <= r
    ensures a <= 0 ==> r <= 0
    ensures a >= 0 && b > 0 ==> r == a % b
  {
    DivRemFacts(a, b);
    a - b * Div(a, b)
  }

  lemma DivRemFacts(a: int, b: int)
    requires b != 0
    ensures Abs(a - b * Div(a, b)) < Abs(b)
    ensures a >= 0 ==> 0 <= a - b * Div(a, b)
    ensures a <= 0 ==> a - b * Div(a, b) <= 0
    ensures a >= 0 && b > 0 ==> a - b * Div(a, b) == a % b
  {
    var B: int := Abs(b);
    var q0: int := Abs(a) / B;
    EuclidFacts(Abs(a), B);
    var p := B * q0;
    MulSigns(B, q0);
    if a == 0 {
      assert q0 == 0 && p == 0;
    }
    if a < 0 && b < 0 {
      assert Div(a, b) == q0 && b == -B;
      assert b * Div(a, b) == -p;
    } else if a < 0 {
      assert Div(a, b) == -q0 && b == B;
      assert b * Div(a, b) == -p;
    } else if b < 0 {
      assert Div(a, b) == -q0 && b == -B;
      assert b * Div(a, b) == p;
    } else {
      assert Div(a, b) == q0 && b == B;
    }
  }

  lemma EuclidFacts(x: nat, y: nat)
    requires 0 < y
    ensures x == y * (x / y) + x % y && 0 <= x % y < y
  {
  }

  lemma MulSigns(x: int, y: int)
    ensures (-x) * y == -(x * y) && x * (-y) == -(x * y) && (-x) * (-y) == x * y
  {
  }

  /**
    Kotlin's `v.coerceIn(lo, hi)`. Kotlin throws when `lo > hi`; every call
    site in the program passes constant bounds with `lo <= hi`.
   */
  function CoerceIn(v: int, lo: int, hi: int): (r: int)
    requires lo <= hi
    ensures lo <= r <= hi
    ensures lo <= v <= hi ==> r == v
    ensures v < lo ==> r == lo
    ensures hi < v ==> r == hi
  {
    if v < lo then lo else if hi < v then hi else v
  }

  /** Kotlin's `v.coerceAtLeast(lo)`. */
  function CoerceAtLeast(v: int, lo: int): (r: int)
    ensures lo <= r
    ensures r == v || r == lo
    ensures lo <= v ==> r == v
  {
    if v < lo then lo else v
  }

  /** Clamping twice is clamping once. */
  lemma CoerceInIdempotent(v: int, lo: int, hi: int)
    requires lo <= hi
    ensures CoerceIn(CoerceIn(v, lo, hi), lo, hi) == CoerceIn(v, lo, hi)
  {
  }
}
