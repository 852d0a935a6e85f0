/** Scalar helpers shared by every part of the model: JavaScript's
    `Math.max`/`Math.min` on exact reals, the clamp idiom built from them,
    `Math.PI`, degree conversion, integer powers and binomial coefficients.
    Trigonometry is never computed: an angle reaches the model as the pair
    (cos, sin) chosen by the caller. */
module Num {

  datatype Option<T> = None | Some(value: T)

  /** A value, or the error text a JavaScript function returns instead. */
  datatype Result<T> = Success(value: T) | Failure(error: string)

  /** `Math.PI` as the JavaScript literal prints it. */
  const PI: real := 3.141592653589793

  function Max(a: real, b: real): real { if a >= b then a else b }
  function Min(a: real, b: real): real { if a <= b then a else b }

  /** The `Math.max(lo, Math.min(hi, v))` idiom used by every clamped setter. */
  function Clamp(v: real, lo: real, hi: real): (r: real)
    ensures lo <= hi ==> lo <= r <= hi
    ensures lo <= v <= hi ==> r == v
    ensures v < lo ==> r == lo
    ensures lo <= hi && hi < v ==> r == hi
  {
    Max(lo, Min(hi, v))
  }

  /** `angle * Math.PI / 180`. */
  function DegToRad(deg: real): real { deg * PI / 180.0 }

  lemma DegToRadLinear(a: real, b: real, k: real)
    ensures DegToRad(a + b) == DegToRad(a) + DegToRad(b)
    ensures DegToRad(k * a) == k * DegToRad(a)
    ensures DegToRad(180.0) == PI
    ensures DegToRad(0.0) == 0.0
  {
    assert DegToRad(k * a) == k * a * PI / 180.0;
  }

  /** The pair (Math.cos(x), Math.sin(x)) for some x the caller knows. */
  datatype Angle = Angle(c: real, s: real)

  predicate IsUnit(a: Angle) { a.c * a.c + a.s * a.s == 1.0 }

  /** Stands for `x => (Math.cos(x), Math.sin(x))`: an arbitrary map from
      radians to angles.  Lemmas that need the trigonometric identities ask
      for them explicitly (`trig(0.0) == Angle(1.0, 0.0)`, `IsUnit`). */
  type Trig = real -> Angle

  function Pow(x: real, n: nat): real
  {
    if n == 0 then 1.0 else x * Pow(x, n - 1)
  }

  lemma {:induction false} PowNonNegative(x: real, n: nat)
    requires 0.0 <= x
    ensures 0.0 <= Pow(x, n)
  {
    if n > 0 {
      PowNonNegative(x, n - 1);
    }
  }

  lemma {:induction false} PowOfOne(n: nat)
    ensures Pow(1.0, n) == 1.0
  {
    if n > 0 {
      PowOfOne(n - 1);
    }
  }

  lemma {:induction false} PowOfZero(n: nat)
    requires n > 0
    ensures Pow(0.0, n) == 0.0
  {
  }

  /** n choose k by Pascal's rule; zero outside 0 <= k <= n. */
  function Choose(n: nat, k: int): nat
    decreases n
  {
    if k < 0 || k > n then 0
    else if k == 0 || k == n then 1
    else Choose(n - 1, k - 1) + Choose(n - 1, k)
  }

  /** Pascal's rule holds at every position, including the edges. */
  lemma PascalRule(n: nat, k: int)
    requires n >= 1
    ensures Choose(n, k) == Choose(n - 1, k - 1) + Choose(n - 1, k)
  {
  }

  /** Every row is a palindrome that starts and ends with 1. */
  lemma {:induction false} ChooseSymmetric(n: nat, k: int)
    ensures Choose(n, k) == Choose(n, n - k)
    ensures Choose(n, 0) == 1 && Choose(n, n) == 1
  {
    if 0 < k < n {
      ChooseSymmetric(n - 1, k - 1);
      ChooseSymmetric(n - 1, k);
      PascalRule(n, n - k);
    }
  }
}
