/** A few facts about products and quotients that the solver needs spelled out. */
module Arithmetic {

  lemma {:induction false} MulMonotone(a: int, b: int, c: nat)
    requires a <= b
    ensures a * c <= b * c
    decreases c
  {
    if c > 0 {
      MulMonotone(a, b, c - 1);
      assert a * c == a * (c - 1) + a && b * c == b * (c - 1) + b;
    }
  }

  lemma SmallMultiple(k: int, c: nat, v: int)
    requires k * c == v && -(c as int) < v < c
    ensures k == 0
  {
    if k >= 1 {
      MulMonotone(1, k, c);
      assert false;
    }
    if k <= -1 {
      MulMonotone(k, -1, c);
      assert false;
    }
  }

  lemma QuotientUnique(n: int, c: nat, q: int, r: nat)
    requires c >= 1 && n == q * c + r && r < c
    ensures n / c == q && n % c == r
  {
    var d, e := n / c, n % c;
    assert n == d * c + e;
    assert (d - q) * c == d * c - q * c;
    SmallMultiple(d - q, c, r - e);
  }

  lemma QuotientAtLeast(n: nat, d: nat, k: nat)
    requires d >= 1 && k * d <= n
    ensures k <= n / d
  {
    var q, r := n / d, n % d;
    assert n == q * d + r && (q + 1) * d == q * d + d;
    if k > q {
      MulMonotone(q + 1, k, d);
      assert false;
    }
  }

  lemma MultiplesAdd(a: nat, b: nat, c: nat)
    requires c >= 1 && a % c == 0 && b % c == 0
    ensures (a + b) % c == 0 && (a + b) / c == a / c + b / c
  {
    var x, y := a / c, b / c;
    assert (x + y) * c == x * c + y * c;
    QuotientUnique(a + b, c, x + y, 0);
  }

  lemma DivMod(n: nat, c: nat)
    requires c >= 1
    ensures n == n / c * c + n % c && n % c < c
  {}

  lemma QuotientOfSum(x: nat, q: nat, u: nat, y: nat, r: nat, v: nat, c: nat)
    requires c >= 1 && u < c && v < c && x == q * c + u && y == r * c + v
    ensures (x + y) / c == if u + v < c then q + r else q + r + 1
  {
    assert (q + r) * c == q * c + r * c && (q + r + 1) * c == q * c + r * c + c;
    if u + v < c { QuotientUnique(x + y, c, q + r, u + v); } else { QuotientUnique(x + y, c, q + r + 1, u + v - c); }
  }

  lemma StepBack(k: nat, c: nat, p: nat)
    requires k >= 1 && p == k * c
    ensures p >= c && p - c == (k - 1) * c
  {
    assert p == (k - 1) * c + c;
    MulMonotone(0, k - 1, c);
  }
}
