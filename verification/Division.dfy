/** Rounded-up quotients. */
module Division {

  lemma Quotient(a: nat, q: nat, r: nat, d: nat)
    requires a == q * d + r && r < d
    ensures a / d == q
  {
    var p, m := a / d, a % d;
    assert a == p * d + m;
    Distribute(p, q, d);
    AwayFromZero(p - q, d);
  }

  lemma AwayFromZero(k: int, d: nat)
    ensures k >= 1 ==> k * d >= d
    ensures k <= -1 ==> k * d + d <= 0
  {
    if k >= 1 {
      assert (k - 1) * d >= 0 && (k - 1) * d == k * d - d;
    } else if k <= -1 {
      assert (-k - 1) * d >= 0 && (-k - 1) * d == -(k * d) - d;
    }
  }

  function CeilDiv(a: nat, n: nat): nat
    requires n > 0
  {
    (a + n - 1) / n
  }

  /** `k` batches of `n`, `total` in all, suffice exactly from the rounded-up quotient on. */
  lemma CeilQuotient(due: nat, n: nat, k: nat, total: nat)
    requires n > 0 && total == k * n
    ensures k >= CeilDiv(due, n) <==> total >= due
  {
    var q, r := (due + n - 1) / n, (due + n - 1) % n;
    Distribute(k, q, n);
    AwayFromZero(k - q, n);
    assert q * n == n * q;
    assert due + n - 1 == q * n + r;
  }

  lemma Distribute(k: int, q: int, n: int)
    ensures (k - q) * n == k * n - q * n
  {
  }
}
