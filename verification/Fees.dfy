/** Fees in basis points, rounded down. */
module Fees {
  import opened Arithmetic
  import opened Outcomes

  const FEE_TO_BPS_DIVISOR: nat := 10_000

  function FeeOn(rate: nat, quote: nat): nat {
    quote * rate / FEE_TO_BPS_DIVISOR
  }

  /** `maker_rebate` and `taker_fee`, which differ only in the rate they use. */
  function Fee(rate: nat, quote: nat): Result<nat> {
    var product :- U128(quote * rate);
    Ok(product / FEE_TO_BPS_DIVISOR)
  }

  /** The quote quantity with the largest possible taker fee subtracted. */
  function Withhold(rate: nat, quote: nat): Result<nat> {
    var fee :- Fee(rate, quote);
    Ok(if fee <= quote then quote - fee else 0)
  }

  function ReferrerRebate(fee: nat): nat {
    fee
  }

  /** The fee is the rate in ten-thousandths of the amount, rounded down. */
  lemma FeeExactly(rate: nat, x: nat)
    ensures FeeOn(rate, x) * 10_000 <= x * rate < FeeOn(rate, x) * 10_000 + 10_000
  {
    DivideBack(x * rate, 10_000);
  }

  /** What is withheld is exactly the fee on the whole amount. */
  lemma WithholdExactly(rate: nat, x: nat)
    requires rate <= 255
    requires Withhold(rate, x).Ok?
    ensures Withhold(rate, x).value + FeeOn(rate, x) == x
  {
    FeeWithin(rate, x);
  }

  lemma FeeMonotone(rate: nat, more: nat, x: nat, y: nat)
    requires rate <= more
    requires x <= y
    ensures FeeOn(rate, x) <= FeeOn(more, y)
  {
    MulMonotone(x, y, rate);
    MulMonotone(rate, more, y);
    FloorMonotone(x * rate, y * more, FEE_TO_BPS_DIVISOR);
  }

  lemma FeeWithin(rate: nat, x: nat)
    requires rate <= 255
    ensures FeeOn(rate, x) <= x
  {
    FloorBelow(x * rate, x, FEE_TO_BPS_DIVISOR);
  }

  /** Rebates floored one by one stay within a fee floored once on the total. */
  lemma FeeSplit(rate: nat, x: nat, y: nat)
    ensures FeeOn(rate, x) + FeeOn(rate, y) <= FeeOn(rate, x + y)
  {
    Distribute(x, y, rate);
    FloorSplit(x * rate, y * rate, FEE_TO_BPS_DIVISOR);
  }

  /** Whatever part of the withheld budget is spent, its own fee still fits in the original amount. */
  lemma WithholdingSuffices(rate: nat, amount: nat, spent: nat)
    requires rate <= 255
    requires Withhold(rate, amount).Ok?
    requires spent <= Withhold(rate, amount).value
    ensures Fee(rate, spent) == Ok(FeeOn(rate, spent))
    ensures spent + FeeOn(rate, spent) <= amount
  {
    FeeWithin(rate, amount);
    FeeMonotone(rate, rate, spent, amount);
    MulMonotone(spent, amount, rate);
  }
}
