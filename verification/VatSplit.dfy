/**
 The value-added tax in a tax-inclusive amount, at 16 %. With amounts in cents the supply is 25/29 and the tax 4/29 of
 the amount, and each is rounded to the cent on its own, halves to even.
 */
module VatSplit {

  predicate Tie(n: int, d: int)
    requires d > 0
  {
    2 * (n % d) == d
  }

  /** The quotient rounded to the nearest integer, halves to even. */
  function Round(n: int, d: int): int
    requires d > 0
  {
    var q := n / d;
    if 2 * (n % d) < d then q
    else if 2 * (n % d) > d then q + 1
    else if q % 2 == 0 then q else q + 1
  }

  /** No integer is nearer, and of two as near the even one is taken. */
  lemma NearestEven(n: int, d: int)
    requires d > 0
    ensures var off := n - Round(n, d) * d;
            && -d <= 2 * off <= d
            && (2 * off == d || 2 * off == -d ==> Round(n, d) % 2 == 0)
  {
  }

  lemma Complement(n: int, d: int, total: int)
    requires d > 0
    ensures (total * d - n) / d == total - n / d - (if n % d == 0 then 0 else 1)
    ensures (total * d - n) % d == if n % d == 0 then 0 else d - n % d
  {
    var q, r := n / d, n % d;
    var k := total - q - (if r == 0 then 0 else 1);
    var rest := if r == 0 then 0 else d - r;
    assert n == q * d + r;
    assert total * d - n == k * d + rest by {
      assert (total - q) * d == total * d - q * d;
      assert (total - q - 1) * d == (total - q) * d - d;
    }
    Quotient(k, rest, d);
  }

  lemma Quotient(k: int, rest: int, d: int)
    requires 0 <= rest < d
    ensures (k * d + rest) / d == k && (k * d + rest) % d == rest
  {
    var n := k * d + rest;
    var q, r := n / d, n % d;
    assert q * d - k * d == rest - r;
    if q > k { Apart(q, k, d); }
    if q < k { Apart(k, q, d); }
  }

  /** A larger multiple of `d` is larger by at least `d`. */
  lemma {:induction false} Apart(q: int, k: int, d: int)
    requires d > 0 && q > k
    ensures q * d >= k * d + d
    decreases q - k
  {
    assert q * d == (q - 1) * d + d;
    if q - 1 > k {
      Apart(q - 1, k, d);
    }
  }

  /** Two complementary shares, rounded apart, add up exactly when there is no tie or the total is even. */
  lemma {:induction false} SharesAddUpExactlyWhen(n: int, d: int, total: int)
    requires d > 0
    ensures Round(n, d) + Round(total * d - n, d) == total <==> !Tie(n, d) || total % 2 == 0
  {
    Complement(n, d, total);
  }

  lemma OddHasNoTie(n: int, d: int)
    requires d > 0 && d % 2 == 1
    ensures !Tie(n, d)
  {
  }

  /** Both parts of an invoice, in cents. */
  method SplitVat(amount: int) returns (supply: int, tax: int)
    ensures supply + tax == amount
    ensures 2 * (29 * supply - 25 * amount) < 29 && 2 * (25 * amount - 29 * supply) < 29
    ensures 2 * (29 * tax - 4 * amount) < 29 && 2 * (4 * amount - 29 * tax) < 29
  {
    // amount / (1 + 16 / 100), and the amount less that
    supply := Round(100 * amount, 116);
    tax := Round(116 * amount - 100 * amount, 116);
    Scaled(25 * amount, 29);
    Scaled(4 * amount, 29);
    OddHasNoTie(25 * amount, 29);
    SharesAddUpExactlyWhen(25 * amount, 29, amount);
  }

  lemma Scaled(n: int, d: int)
    requires d > 0
    ensures Round(4 * n, 4 * d) == Round(n, d)
  {
    assert 4 * n == (n / d) * (4 * d) + 4 * (n % d) by {
      assert (n / d) * (4 * d) == 4 * ((n / d) * d);
    }
    Quotient(n / d, 4 * (n % d), 4 * d);
  }
}
