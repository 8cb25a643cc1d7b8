/** The fee a payment method adds to an order: calculate_pay_amount_cents (src/payment.rs). */
module Fees {

  const I64_MAX := 0x7fff_ffff_ffff_ffff

  /** Integer division that truncates toward zero. */
  function Quot(a: int, b: int): int
    requires b > 0
  {
    if a >= 0 then a / b else -((-a) / b)
  }

  function FeeCents(amount: int, bps: int): int {
    Quot(amount * bps + 9_999, 10_000)
  }

  function PayAmount(amount: int, bps: int): int {
    if bps <= 0 then amount else amount + FeeCents(amount, bps)
  }

  /** The fee is the rate rounded up to whole cents: the least f with 10000 * f >= amount * bps. */
  lemma FeeIsLeast(amount: int, bps: int, f: int)
    requires amount > 0 && bps >= 0
    ensures FeeCents(amount, bps) <= f <==> 10_000 * f >= amount * bps
  {
    ProductNonNegative(amount, bps);
    CeilingIsLeast(amount * bps, f);
  }

  lemma ProductNonNegative(a: int, b: int)
    requires a >= 0 && b >= 0
    ensures a * b >= 0
  {
  }

  lemma ProductMonotone(a: int, b: int, a': int, b': int)
    requires 0 <= a <= a' && 0 <= b <= b'
    ensures a * b <= a' * b'
  {
    ProductNonNegative(a' - a, b);
    ProductNonNegative(a', b' - b);
    assert (a' - a) * b == a' * b - a * b;
    assert a' * (b' - b) == a' * b' - a' * b;
  }

  lemma CeilingIsLeast(p: int, f: int)
    requires p >= 0
    ensures (p + 9_999) / 10_000 <= f <==> 10_000 * f >= p
  {
  }

  /** The amount with a fee that is the rate rounded up to whole cents; without a rate there is no fee. */
  ghost predicate Quoted(amount: int, bps: int, pay: int) {
    if bps <= 0 then pay == amount
    else 10_000 * (pay - amount) >= amount * bps > 10_000 * (pay - amount - 1)
  }

  /** What is to be paid is the amount plus the least such fee, and nothing else. */
  lemma PayAmountIsLeast(amount: int, bps: int, f: int)
    requires amount > 0
    ensures Quoted(amount, bps, PayAmount(amount, bps))
    ensures bps <= 0 ==> PayAmount(amount, bps) == amount
    ensures bps >= 0 ==> (PayAmount(amount, bps) <= amount + f <==> 10_000 * f >= amount * bps)
  {
    if bps >= 0 {
      FeeIsLeast(amount, bps, f);
      FeeIsLeast(amount, bps, FeeCents(amount, bps));
      FeeIsLeast(amount, bps, FeeCents(amount, bps) - 1);
      FeeIsLeast(amount, bps, 0);
    }
    hide FeeCents;
  }

  /** Paying for more, or at a higher rate, never costs less. */
  lemma FeeMonotone(amount: int, bps: int, amount': int, bps': int)
    requires 0 < amount <= amount' && 0 <= bps <= bps'
    ensures 0 <= FeeCents(amount, bps) <= FeeCents(amount', bps')
    ensures PayAmount(amount, bps) <= PayAmount(amount', bps')
  {
    var f := FeeCents(amount', bps');
    FeeIsLeast(amount', bps', f);
    ProductMonotone(amount, bps, amount', bps');
    FeeIsLeast(amount, bps, f);
    FeeIsLeast(amount, bps, -1);
    ProductNonNegative(amount, bps);
    hide FeeCents;
  }

  /** Splitting an order never lowers the total fee. */
  lemma FeeSubadditive(a: int, b: int, bps: int)
    requires a > 0 && b > 0 && bps >= 0
    ensures FeeCents(a + b, bps) <= FeeCents(a, bps) + FeeCents(b, bps)
    ensures PayAmount(a + b, bps) <= PayAmount(a, bps) + PayAmount(b, bps)
  {
    FeeIsLeast(a, bps, FeeCents(a, bps));
    FeeIsLeast(b, bps, FeeCents(b, bps));
    assert (a + b) * bps == a * bps + b * bps;
    FeeIsLeast(a + b, bps, FeeCents(a, bps) + FeeCents(b, bps));
  }

  predicate FitsI64(x: int) {
    -I64_MAX - 1 <= x <= I64_MAX
  }

  /** Every intermediate value of the computation fits 64 bits. */
  predicate NoOverflow(amount: int, bps: int) {
    bps > 0 ==> FitsI64(amount * bps) && FitsI64(amount * bps + 9_999) && FitsI64(PayAmount(amount, bps))
  }

  /** The computation overflows exactly when the product leaves no room for rounding up, or the sum does not fit. */
  lemma OverflowsExactly(amount: int, bps: int)
    requires amount > 0
    ensures NoOverflow(amount, bps) <==>
            bps <= 0 || (amount * bps <= I64_MAX - 9_999 && PayAmount(amount, bps) <= I64_MAX)
  {
    if bps > 0 {
      ProductNonNegative(amount, bps);
      FeeMonotone(amount, 0, amount, bps);
    }
  }

  /** For every rate but one basis point the product alone decides: if rounding it up fits, so does the total. */
  lemma ProductDecidesOverflow(amount: int, bps: int)
    requires amount > 0 && bps > 1
    ensures NoOverflow(amount, bps) <==> amount * bps <= I64_MAX - 9_999
  {
    OverflowsExactly(amount, bps);
    if amount * bps <= I64_MAX - 9_999 {
      ProductMonotone(amount, 2, amount, bps);
      ProductNonNegative(amount, bps);
      assert FeeCents(amount, bps) <= (I64_MAX - 9_999 + 9_999) / 10_000;
    }
  }

  /** At one basis point the total can overflow although the product does not. */
  lemma TotalOverflowsAtOneBasisPoint()
    ensures var amount := I64_MAX - 9_999; amount * 1 <= I64_MAX - 9_999 && !NoOverflow(amount, 1)
  {
    OverflowsExactly(I64_MAX - 9_999, 1);
  }
}
