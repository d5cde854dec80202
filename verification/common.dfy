/** Small helpers shared by every module: optional values, error results and integer arithmetic. */
module Common {
  datatype Option<T> = None | Some(value: T)

  datatype Result<T, E> = Ok(value: T) | Err(error: E)

  function Min(a: int, b: int): int { if a <= b then a else b }

  function Max(a: int, b: int): int { if a >= b then a else b }

  /** Exact ceiling of `a / b` on naturals. */
  function CeilDiv(a: nat, b: nat): nat
    requires b > 0
  {
    (a + b - 1) / b
  }

  /** `f64::ceil` on a real. */
  function Ceil(x: real): int { -((-x).Floor) }

  function MinR(a: real, b: real): real { if a <= b then a else b }

  function MaxR(a: real, b: real): real { if a >= b then a else b }

  function AbsR(x: real): real { if x < 0.0 then -x else x }

  /** `x.clamp(lo, hi)` for `lo <= hi`. */
  function ClampR(x: real, lo: real, hi: real): real { if x < lo then lo else if x > hi then hi else x }

  /** The sum of a sequence of reals, from first to last. */
  function SumR(s: seq<real>): real
  {
    if s == [] then 0.0 else SumR(s[..|s| - 1]) + s[|s| - 1]
  }

  /** `float as usize` saturates: negative values become zero. */
  function SaturatingToNat(x: int): nat { if x < 0 then 0 else x }

  lemma DivMod(x: nat, d: nat)
    requires d > 0
    ensures x == (x / d) * d + x % d && 0 <= x % d < d
  {
  }

  lemma {:induction false} MulMono(a: nat, b: nat, d: nat)
    requires a <= b
    ensures a * d <= b * d
    decreases b - a
  {
    if a < b {
      MulMono(a + 1, b, d);
      assert (a + 1) * d == a * d + d;
    }
  }

  /** The `k`-th of `n` steps of `d` ends inside `n * d`. */
  lemma MulBound(k: nat, n: nat, d: nat)
    requires k < n && d > 0
    ensures k * d + d <= n * d && (k + 1) * d == k * d + d
  {
    MulMono(k + 1, n, d);
    assert (k + 1) * d == k * d + d;
  }

  /** Quotient and remainder are unique. */
  lemma DivModUnique(x: nat, d: nat, q: nat, r: nat)
    requires d > 0 && r < d && x == q * d + r
    ensures x / d == q && x % d == r
  {
    DivMod(x, d);
    var q' := x / d;
    if q' < q {
      MulMono(q' + 1, q, d);
    } else if q < q' {
      MulMono(q + 1, q', d);
    }
  }

  lemma ModMultiple(j: nat, d: nat)
    requires d > 0
    ensures (j * d) % d == 0 && (j * d) / d == j
  {
    DivModUnique(j * d, d, j, 0);
  }

  /** A product that is positive has no zero factor. */
  lemma FactorPositive(a: nat, b: nat)
    requires a * b > 0
    ensures a > 0 && b > 0
  {
  }

  /** `CeilDiv(a, b)` steps of `b` cover `a`, and one fewer would not. */
  lemma CeilDivBounds(a: nat, b: nat)
    requires b > 0
    ensures a <= CeilDiv(a, b) * b < a + b
  {
    DivMod(a + b - 1, b);
  }

  /** Counting one further wraps the remainder to 0 from `d - 1`, and otherwise adds one. */
  lemma ModSucc(x: nat, d: nat)
    requires d > 0
    ensures (x + 1) % d == if x % d == d - 1 then 0 else x % d + 1
  {
    DivMod(x, d);
    if x % d == d - 1 {
      DivModUnique(x + 1, d, x / d + 1, 0);
    } else {
      DivModUnique(x + 1, d, x / d, x % d + 1);
    }
  }
}
