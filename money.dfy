/** Money arithmetic. Amounts are integer cents; a tax rate is a whole number
    of basis points (0.12 is 1200). A cent amount times a rate is therefore a
    count of 1/10000 cents ("micro-cents"), which `.toFixed(2)` turns back
    into cents. */
module Money {

  /** Basis points in a rate of 1, and micro-cents in a cent. */
  const Scale: nat := 10000

  /** Half a cent, in micro-cents. */
  const HalfCent: nat := 5000

  /** Display rounding to two decimals, taken as round half up on a non-negative
      micro-cent amount: the result is the nearest cent, and a tie goes up. */
  function RoundToCents(x: nat): (r: nat)
    ensures r * Scale <= x + HalfCent
    ensures x < r * Scale + HalfCent
  {
    (x + HalfCent) / Scale
  }

  /** Only one cent amount is within half a cent (ties up) of `x`. */
  lemma RoundToCentsUnique(x: nat, c: nat)
    requires c * Scale <= x + HalfCent < c * Scale + Scale
    ensures c == RoundToCents(x)
  {
  }

  /** Whole cents pass through rounding: adding `k` cents adds exactly `k` to the rounded value. */
  lemma RoundAddWholeCents(k: nat, x: nat)
    ensures RoundToCents(k * Scale + x) == k + RoundToCents(x)
  {
    var r := RoundToCents(x);
    assert (k + r) * Scale == k * Scale + r * Scale;
    RoundToCentsUnique(k * Scale + x, k + r);
  }

  /** An amount already in whole cents rounds to itself. */
  lemma RoundWholeCents(k: nat)
    ensures RoundToCents(k * Scale) == k
  {
    RoundAddWholeCents(k, 0);
  }
}
