/** `Math.round` of a quotient of two counts, done in integers. */
module JsMath {

  /** `Math.round(total / n)` for `n > 0`: the integer nearest to the
      quotient, halves rounded up (`Math.round(x)` is `floor(x + 0.5)`). */
  function RoundedQuotient(total: nat, n: nat): (r: nat)
    requires n > 0
    ensures n * (2 * r - 1) <= 2 * total < n * (2 * r + 1)
  {
    var r := (2 * total + n) / (2 * n);
    var rest := (2 * total + n) % (2 * n);
    assert 2 * total + n == 2 * n * r + rest;
    assert n * (2 * r - 1) == 2 * n * r - n;
    assert n * (2 * r + 1) == 2 * n * r + n;
    r
  }
}
