/** Outcomes of a request and the rounding every amount goes through. */
module Results {
  /** The kinds of HttpError a handler throws; every one of them rolls the request back. */
  datatype HttpError = BadRequest | Forbidden | NotFound | Conflict

  datatype Result<+T> = Ok(value: T) | Err(error: HttpError)

  datatype Option<+T> = None | Some(value: T)
}

/** Half-up rounding on integer grids: cents, thousandths of a unit, ten-thousandths of a unit cost. */
module Rounding {

  function Min(a: int, b: int): int { if a <= b then a else b }

  function Max(a: int, b: int): int { if a >= b then a else b }

  /** n / d rounded to the nearest integer, halves upwards, as Math.round does. */
  function RoundDiv(n: int, d: int): int
    requires d > 0
  {
    (2 * n + d) / (2 * d)
  }

  /** Rounding is off by at most one half, and by exactly one half only upwards. */
  lemma RoundDivBounds(n: int, d: int)
    requires d > 0
    ensures 2 * n - d < 2 * (d * RoundDiv(n, d)) <= 2 * n + d
  {
    var a, b := 2 * n + d, 2 * d;
    DivisionBounds(a, b);
    assert b * (a / b) == 2 * (d * (a / b));
  }

  lemma DivisionBounds(a: int, b: int)
    requires b > 0
    ensures a - b < b * (a / b) <= a
  {
    assert a == b * (a / b) + a % b;
  }

  /** The error bound of RoundDiv determines it. */
  lemma RoundDivUnique(n: int, d: int, r: int)
    requires d > 0
    requires 2 * n - d < 2 * (d * r) <= 2 * n + d
    ensures RoundDiv(n, d) == r
  {
    var q := RoundDiv(n, d);
    RoundDivBounds(n, d);
    assert -d < d * (q - r) < d by {
      assert d * (q - r) == d * q - d * r;
    }
    if q > r {
      MulMono(d, 1, q - r);
    } else if q < r {
      MulMono(d, q - r, -1);
    }
  }

  lemma MulMono(d: int, a: int, b: int)
    requires d >= 0 && a <= b
    ensures d * a <= d * b && a * d <= b * d
  {
  }

  /** Rounding keeps a value between whole bounds. */
  lemma RoundDivBetween(lo: int, n: int, hi: int, d: int)
    requires d > 0
    requires d * lo <= n <= d * hi
    ensures lo <= RoundDiv(n, d) <= hi
  {
    var r := RoundDiv(n, d);
    RoundDivBounds(n, d);
    assert d * (lo - 1) == d * lo - d && d * (hi + 1) == d * hi + d;
    if r < lo {
      MulMono(d, r, lo - 1);
    } else if r > hi {
      MulMono(d, hi + 1, r);
    }
  }

  /** A non-negative amount stays one. */
  function RoundNat(n: nat, d: int): (r: nat)
    requires d > 0
    ensures r == RoundDiv(n, d)
  {
    MulMono(n, 1, d);
    RoundDivBetween(0, n, n, d);
    RoundDiv(n, d)
  }

  /** How many parts make a cent, when amounts come on a finer grid than cents. */
  type Grid = d: int | d > 0 witness 1

  /** Rounding looks at the remainder only. */
  lemma RoundByRemainder(n: int, d: Grid)
    ensures RoundDiv(n, d) == n / d + if 2 * (n % d) >= d then 1 else 0
  {
    var q, up := n / d, if 2 * (n % d) >= d then 1 else 0;
    assert n == d * q + n % d;
    assert d * (q + up) == d * q + d * up;
    RoundDivUnique(n, d, q + up);
  }

  /** A non-negative amount stays one, and becomes 0 below one half. */
  lemma RoundsToNothing(n: int, d: Grid)
    requires n >= 0
    ensures RoundDiv(n, d) >= 0
    ensures RoundDiv(n, d) == 0 <==> 2 * n < d
  {
    hide RoundDiv;
    RoundDivBounds(n, d);
    var r := RoundDiv(n, d);
    if r < 0 {
      MulMono(d, r, -1);
    } else if r > 0 {
      MulMono(d, 1, r);
    }
  }

  /** Whole units pass through rounding. */
  lemma RoundDivShift(k: int, n: int, d: Grid)
    ensures RoundDiv(d * k + n, d) == k + RoundDiv(n, d)
  {
    hide RoundDiv;
    RoundDivBounds(n, d);
    assert d * (k + RoundDiv(n, d)) == d * k + d * RoundDiv(n, d);
    RoundDivUnique(d * k + n, d, k + RoundDiv(n, d));
  }

  /** The remainders of two amounts round up as often apart as they do together. */
  predicate PartsAgree(a: int, b: int, d: Grid)
  {
    var r, t := a % d, b % d;
    (if 2 * r >= d then 1 else 0) + (if 2 * t >= d then 1 else 0)
      == if 2 * (r + t) < d then 0 else if 2 * (r + t) < 3 * d then 1 else 2
  }

  /** Two amounts rounded apart add up to their sum rounded if and only if their remainders say so. */
  lemma RoundedApart(a: int, b: int, d: Grid)
    ensures RoundDiv(a, d) + RoundDiv(b, d) == RoundDiv(a + b, d) <==> PartsAgree(a, b, d)
    ensures -1 <= RoundDiv(a + b, d) - (RoundDiv(a, d) + RoundDiv(b, d)) <= 1
  {
    hide RoundDiv;
    var q, r := a / d + b / d, a % d + b % d;
    var up := if 2 * r < d then 0 else if 2 * r < 3 * d then 1 else 2;
    RoundByRemainder(a, d);
    RoundByRemainder(b, d);
    assert a == d * (a / d) + a % d && b == d * (b / d) + b % d;
    SplitSum(d, a / d, b / d, up);
    RoundDivUnique(a + b, d, q + up);
  }

  lemma SplitSum(d: int, x: int, y: int, z: int)
    ensures d * (x + y + z) == d * x + d * y + d * z
  {
  }

  /** Whole cents always agree. */
  lemma WholeCentsAgree(a: int, b: int)
    ensures RoundDiv(a, 1) == a && PartsAgree(a, b, 1)
  {
  }
}
