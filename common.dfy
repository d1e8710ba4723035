/**
 * Optional values and results shared by every module of the model.
 * `None`/`Some` stand for Python's `None` and a present value; `Err` carries
 * the exception or error text a Python function raises or returns.
 */
module Common {

  datatype Option<T> = None | Some(value: T)
  {
    function GetOr(default: T): T
    {
      match this
      case None => default
      case Some(v) => v
    }
  }

  datatype Result<T, E> = Ok(value: T) | Err(error: E)

  function Min(a: int, b: int): int { if a <= b then a else b }
  function Max(a: int, b: int): int { if a >= b then a else b }

  /** Python's `int(a / b)` for a positive `b`: the quotient truncated toward zero. */
  function TruncDiv(a: int, b: int): (q: int)
    requires b > 0
    ensures a >= 0 ==> q * b <= a < (q + 1) * b
    ensures a < 0 ==> (q - 1) * b < a <= q * b
  {
    if a >= 0 then a / b else -((-a) / b)
  }

  /** A share `k / n` of a positive whole lies between 0 and 1, at the ends exactly for none and all. */
  lemma RatioBounds(k: real, n: real)
    requires 0.0 <= k <= n && n > 0.0
    ensures 0.0 <= k / n <= 1.0
    ensures k / n == 1.0 <==> k == n
    ensures k / n == 0.0 <==> k == 0.0
  {
    var q := k / n;
    assert q * n == k;
    assert (q - 1.0) * n == k - n;
    SignOfProduct(q - 1.0, n);
    SignOfProduct(q, n);
  }

  /** Multiplying by a positive number keeps the sign. */
  lemma SignOfProduct(a: real, n: real)
    requires n > 0.0
    ensures a > 0.0 ==> a * n > 0.0
    ensures a < 0.0 ==> a * n < 0.0
  {
    if a < 0.0 {
      assert (-a) * n > 0.0;
    }
  }

  /**
   * A running mean `m` of `n` old values averaging `s` and one new value `v`
   * stays within bounds that hold for `s` and `v`.
   */
  lemma MeanBounds(s: real, n: real, v: real, m: real, lo: real, hi: real)
    requires n >= 0.0 && lo <= s <= hi && lo <= v <= hi
    requires m * (n + 1.0) == s * n + v
    ensures lo <= m <= hi
  {
    var p := n + 1.0;
    if n > 0.0 {
      SignOfProduct(s - lo, n);
      SignOfProduct(hi - s, n);
    }
    assert (s - lo) * n >= 0.0 && (hi - s) * n >= 0.0;
    Distributes(m, lo, p);
    Distributes(hi, m, p);
    Distributes(s, lo, n);
    Distributes(hi, s, n);
    assert lo * p == lo * n + lo && hi * p == hi * n + hi;
    assert (m - lo) * p >= 0.0 && (hi - m) * p >= 0.0;
    SignOfProduct(m - lo, p);
    SignOfProduct(hi - m, p);
  }

  /** Multiplication distributes over a difference. */
  lemma Distributes(a: real, b: real, c: real)
    ensures (a - b) * c == a * c - b * c
  {
  }
}
