// Remainders.
module Arithmetic {

  lemma RemainderUnique(a: int, n: nat, q: int, r: int)
    requires n > 0 && a == q * n + r && 0 <= r < n
    ensures a % n == r
  {
    var e := q - a / n;
    assert a == a / n * n + a % n;
    assert e * n == a % n - r by {
      assert e * n == q * n - a / n * n;
    }
    AtLeastOneStep(e, n);
  }

  lemma AtLeastOneStep(e: int, n: nat)
    ensures e >= 1 ==> e * n >= n
    ensures e <= -1 ==> e * n <= -(n as int)
  {
  }
}
