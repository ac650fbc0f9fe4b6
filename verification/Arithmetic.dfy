/** Multiples and quotients of integers. */
module Arithmetic {

  lemma MulAtLeast(a: int, k: int)
    requires a >= 1 && k > 0
    ensures a * k >= k
  {
  }

  lemma MulDistrib(a: int, b: int, k: int)
    ensures (a + b) * k == a * k + b * k
  {
  }

  lemma DivUnique(x: int, k: int, q: int, r: int)
    requires k > 0 && x == q * k + r && 0 <= r < k
    ensures x / k == q && x % k == r
  {
    var q', r' := x / k, x % k;
    assert (q - q') * k == r' - r;
    if q > q' { MulAtLeast(q - q', k); }
    if q < q' { MulAtLeast(q' - q, k); }
  }

  lemma DivShift(x: int, n: int, k: int)
    requires k > 0
    ensures (x - n * k) / k == x / k - n
  {
    var q, r := x / k, x % k;
    assert x - n * k == (q - n) * k + r;
    DivUnique(x - n * k, k, q - n, r);
  }

  lemma DivSign(d: int, k: int)
    requires k > 0
    ensures d / k >= 0 <==> d >= 0
  {
    assert d == k * (d / k) + d % k;
    if d / k < 0 { MulAtLeast(-(d / k), k); }
  }

  lemma LeftAfter(length: int, i: int, k: int)
    requires k > 0
    ensures (length - i * k) / k == length / k - i
    ensures length - i * k >= 0 <==> i <= length / k
  {
    DivShift(length, i, k);
    DivSign(length - i * k, k);
  }

  lemma DivMonotone(x: int, y: int, k: int)
    requires k > 0 && x <= y
    ensures x / k <= y / k
  {
    var q, q' := x / k, y / k;
    assert x == q * k + x % k && y == q' * k + y % k;
    if q > q' {
      MulAtLeast(q - q', k);
      MulDistrib(q', q - q', k);
    }
  }

  lemma ScaleMonotone(a: int, b: int, k: int)
    requires a <= b && k > 0
    ensures a * k <= b * k
  {
    if a < b { MulAtLeast(b - a, k); MulDistrib(a, b - a, k); }
  }

  /** The i-th point of a grid. */
  function Nth(first: int, i: int, gap: int): int {
    first + i * gap
  }

  lemma NthOfNth(first: int, i: int, j: int, gap: int)
    ensures Nth(Nth(first, i, gap), j, gap) == Nth(first, i + j, gap)
  {
    MulDistrib(i, j, gap);
  }

  lemma NthOrder(first: int, i: int, j: int, gap: int)
    requires gap > 0
    ensures i <= j <==> Nth(first, i, gap) <= Nth(first, j, gap)
    ensures i < j <==> Nth(first, i, gap) < Nth(first, j, gap)
  {
    if i < j {
      MulAtLeast(j - i, gap);
      MulDistrib(i, j - i, gap);
    } else if j < i {
      MulAtLeast(i - j, gap);
      MulDistrib(j, i - j, gap);
    }
  }

  lemma NthDistance(first: int, i: int, j: int, gap: int)
    requires gap > 0
    ensures (Nth(first, j, gap) - Nth(first, i, gap)) / gap == j - i
    ensures first % gap == 0 ==> Nth(first, i, gap) % gap == 0
  {
    MulDistrib(i, j - i, gap);
    DivUnique((j - i) * gap, gap, j - i, 0);
    if first % gap == 0 {
      MulDistrib(first / gap, i, gap);
      DivUnique(first + i * gap, gap, first / gap + i, 0);
    }
  }

  lemma NthNext(first: int, i: int, gap: int)
    ensures Nth(first, i + 1, gap) == Nth(first, i, gap) + gap && Nth(first, 0, gap) == first
  {
    MulDistrib(i, 1, gap);
  }
}
