/** Multiples of the checkpoint interval, by repeated subtraction. */
module Multiples {

  predicate Multiple(n: nat, k: nat)
    requires k > 0
  {
    n == 0 || (n >= k && Multiple(n - k, k))
  }

  /** The length of the longest prefix of `n` items that ends on a multiple of `k`. */
  function Boundary(n: nat, k: nat): (q: nat)
    requires k > 0
    ensures q <= n && n - q < k && Multiple(q, k)
  {
    if n < k then 0 else k + Boundary(n - k, k)
  }

  /** How many whole intervals fit. */
  function Quotient(n: nat, k: nat): nat
    requires k > 0
  {
    if n < k then 0 else 1 + Quotient(n - k, k)
  }

  lemma {:induction false} QuotientSucc(n: nat, k: nat)
    requires k > 0
    ensures Quotient(n + 1, k) == Quotient(n, k) + if Multiple(n + 1, k) then 1 else 0
  {
    if n >= k {
      QuotientSucc(n - k, k);
    }
  }

  lemma QuotientOfNothing(k: nat)
    requires k > 0
    ensures Quotient(0, k) == 0
  {
  }

  lemma {:induction false} MultipleAdd(a: nat, b: nat, k: nat)
    requires k > 0 && Multiple(a, k)
    ensures Multiple(a + b, k) <==> Multiple(b, k)
  {
    if a > 0 {
      MultipleAdd(a - k, b, k);
    }
  }

  lemma {:induction false} BoundarySucc(n: nat, k: nat)
    requires k > 0
    ensures Multiple(n + 1, k) <==> n + 1 - Boundary(n, k) == k
    ensures !Multiple(n + 1, k) ==> Boundary(n + 1, k) == Boundary(n, k)
    ensures Multiple(n, k) <==> Boundary(n, k) == n
  {
    if n >= k {
      BoundarySucc(n - k, k);
    }
  }

  /** The source tests `count % interval == 0`. */
  lemma {:induction false} MultipleIsMod(n: nat, k: nat)
    requires k > 0
    ensures Multiple(n, k) <==> n % k == 0
    ensures Boundary(n, k) == n - n % k == k * (n / k)
    ensures Quotient(n, k) == n / k
  {
    if n >= k {
      MultipleIsMod(n - k, k);
      DivMinusK(n, k);
      assert k * (n / k) == k * (n / k - 1) + k;
    }
  }

  lemma DivMinusK(n: nat, k: nat)
    requires k > 0 && n >= k
    ensures n / k == (n - k) / k + 1 && n % k == (n - k) % k
  {
    var q := (n - k) / k;
    assert n - k == q * k + (n - k) % k;
    assert (q + 1) * k == q * k + k;
    QuotientUnique(k, q + 1, (n - k) % k, n / k, n % k);
  }

  lemma QuotientUnique(k: nat, q: int, r: nat, q': int, r': nat)
    requires r < k && r' < k && q * k + r == q' * k + r'
    ensures q == q'
  {
    MulDifference(q, q', k);
    MulDifference(q', q, k);
  }

  lemma MulDifference(q: int, q': int, k: nat)
    ensures q' > q ==> q' * k >= q * k + k
  {
    if q' > q {
      assert q' * k == (q + 1 + (q' - q - 1)) * k == (q + 1) * k + (q' - q - 1) * k;
    }
  }
}
