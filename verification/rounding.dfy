/**
  Rounding a real number of days up to a whole number of days, as Python's
  `math.ceil` does for a finite float.
 */
module Rounding {

  /** The least integer not below `x`. */
  function Ceil(x: real): (c: int)
    ensures (c - 1) as real < x <= c as real
  {
    -((-x).Floor)
  }

  /** The characterisation above pins the ceiling down: there is only one such integer. */
  lemma CeilUnique(x: real, c: int)
    requires (c - 1) as real < x <= c as real
    ensures Ceil(x) == c
  {
  }

  /** A whole number of days is left as it is. */
  lemma CeilOfInt(n: int)
    ensures Ceil(n as real) == n
  {
    CeilUnique(n as real, n);
  }

  /**
    Rounding up never crosses an integer threshold in the wrong direction:
    the rounded value exceeds `k` exactly when the raw value does.
   */
  lemma CeilGreaterIff(x: real, k: int)
    ensures Ceil(x) > k <==> x > k as real
  {
    var c := Ceil(x);
    if c > k {
      assert (c - 1) as real >= k as real;
    } else {
      assert c as real <= k as real;
    }
  }

  /** Rounding up preserves order. */
  lemma CeilMonotone(a: real, b: real)
    requires a <= b
    ensures Ceil(a) <= Ceil(b)
  {
  }

  /** A stay of `n` whole days plus any positive part of a day, up to a full day, rounds to `n + 1`. */
  lemma CeilPartialDay(n: int, f: real)
    requires 0.0 < f <= 1.0
    ensures Ceil(n as real + f) == n + 1
  {
    CeilUnique(n as real + f, n + 1);
  }
}
