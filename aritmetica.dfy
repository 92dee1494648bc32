/** Integer division as the source's operators perform it. */
module Aritmetica {
  /**
   * Division truncating toward zero, as Python's int() applied to an exact
   * quotient: the remainder takes the sign of the dividend. (Dafny's `/`,
   * like Python's `//` for a positive divisor, rounds toward minus infinity.)
   */
  function TruncDiv(a: int, b: int): (q: int)
    requires b > 0
    ensures 0 <= a ==> 0 <= a - q * b < b
    ensures a < 0 ==> -b < a - q * b <= 0
  {
    if a >= 0 then a / b else -((-a) / b)
  }

  /** On non-negative dividends truncation and floor division agree; on negative ones they differ unless exact. */
  lemma TruncDivFloor(a: int, b: int)
    requires b > 0
    ensures a >= 0 ==> TruncDiv(a, b) == a / b
    ensures a < 0 ==> (TruncDiv(a, b) == a / b <==> a % b == 0)
  {
    if a < 0 {
      var q := TruncDiv(a, b);
      if a % b == 0 {
        assert a == (a / b) * b;
        assert -a == (-(a / b)) * b;
        DivExacta(-a, b, -(a / b));
      } else {
        assert a / b * b < a;
        assert q * b >= a;
        if q == a / b { assert false; }
      }
    }
  }

  lemma DivExacta(a: int, b: int, k: int)
    requires b > 0 && a == k * b
    ensures a / b == k
  {
    var d := a / b - k;
    assert d * b == a / b * b - k * b;
    assert d * b == -(a % b);
    if d >= 1 {
      MulMonotona(1, d, b);
    } else if d <= -1 {
      MulMonotona(d, -1, b);
    }
  }

  /** Comparing a truncated quotient with a positive whole threshold is comparing the exact quotient. */
  lemma TruncDivUmbral(a: int, b: int, k: int)
    requires b > 0 && k > 0
    ensures TruncDiv(a, b) < k <==> a < k * b
  {
    var q := TruncDiv(a, b);
    if a >= 0 {
      if q < k {
        MulMonotona(q, k - 1, b);
        assert a < q * b + b <= (k - 1) * b + b;
      } else {
        MulMonotona(k, q, b);
      }
    } else {
      if q >= 1 {
        MulMonotona(1, q, b);
      }
      MulMonotona(0, k, b);
    }
  }

  lemma MulMonotona(x: int, y: int, b: int)
    requires x <= y && b > 0
    ensures x * b <= y * b
  {
    assert y * b - x * b == (y - x) * b;
  }
}
