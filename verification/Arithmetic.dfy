/** Division facts used by the windowing and block arithmetic. */
module Arithmetic {

  lemma ProductAtLeast(a: int, w: int)
    requires a >= 1 && w > 0
    ensures a * w >= w
  {
    assert (a - 1) * w >= 0;
  }

  /** Quotient and remainder are determined by n == q * w + r with 0 <= r < w. */
  lemma DivModUnique(n: int, w: int, q: int, r: int)
    requires w > 0 && n == q * w + r && 0 <= r < w
    ensures n / w == q && n % w == r
  {
    var q', r' := n / w, n % w;
    assert n == w * q' + r';
    var d := q' - q;
    assert d * w == r - r' by {
      assert d * w == q' * w - q * w;
    }
    assert (-d) * w == -(d * w);
    if d >= 1 {
      ProductAtLeast(d, w);
    } else if d <= -1 {
      ProductAtLeast(-d, w);
    }
  }

  lemma DivLower(n: int, w: int)
    requires w > 0
    ensures w * (n / w) <= n < w * (n / w) + w
  {
  }

  lemma DivMonotone(m: int, n: int, w: int)
    requires w > 0 && m <= n
    ensures m / w <= n / w
  {
    var d := m / w - n / w;
    assert w * (m / w) == w * (n / w) + d * w;
    DivLower(m, w);
    DivLower(n, w);
    if d >= 1 {
      ProductAtLeast(d, w);
    }
  }

  lemma MultiplesAdd(m: int, n: int, w: int)
    requires w > 0 && m % w == 0 && n % w == 0
    ensures (m + n) % w == 0
  {
    var x, y := m / w, n / w;
    assert m == w * x && n == w * y;
    assert m + n == (x + y) * w;
    DivModUnique(m + n, w, x + y, 0);
  }

  /** Counting up by one either stays within a window of size w or opens the next. */
  lemma DivisionStep(n: nat, w: nat)
    requires w > 0 && n > 0
    ensures n % w == 0 ==> n / w == (n - 1) / w + 1
    ensures n % w != 0 ==> n / w == (n - 1) / w && (n - 1) % w + 1 == n % w
  {
    var q, r := n / w, n % w;
    assert n == q * w + r;
    if r == 0 {
      assert n - 1 == (q - 1) * w + (w - 1);
      DivModUnique(n - 1, w, q - 1, w - 1);
    } else {
      DivModUnique(n - 1, w, q, r - 1);
    }
  }
}
