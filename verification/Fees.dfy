/** Platform fees on ticket orders, and their return when an order is refunded (payments/fees.py). */
module Fees {
  import opened Wrappers

  function TicketApplicationFee(amount: int, basisPoints: int): nat {
    if amount <= 1 || basisPoints <= 0 then 0
    else Min(amount - 1, (amount * basisPoints + 5000) / 10000)
  }

  function ProportionalFeeRefund(fee: int, refunded: int, total: int): nat {
    if fee <= 0 || refunded <= 0 || total <= 0 then 0
    else if refunded >= total then fee
    else Min(fee, (fee * refunded + total / 2) / total)
  }

  // ---- Application fee ----

  /** The fee never eats the whole amount, and it is within half a cent of the exact fee unless capped. */
  lemma ApplicationFeeBounds(amount: nat, basisPoints: int)
    requires 0 <= basisPoints <= 9999
    ensures var fee := TicketApplicationFee(amount, basisPoints);
            && 0 <= fee
            && (fee == 0 || fee < amount)
            && (fee == amount - 1 || -5000 <= 10000 * fee - amount * basisPoints <= 5000)
            && 10000 * fee - amount * basisPoints <= 5000
  {
    assert 0 <= amount * basisPoints;
  }

  lemma ApplicationFeeMonotone(amount: nat, more: nat, basisPoints: int, higher: int)
    requires amount <= more && 0 <= basisPoints <= higher <= 9999
    ensures TicketApplicationFee(amount, basisPoints) <= TicketApplicationFee(more, higher)
  {
    ApplicationFeeBounds(more, higher);
    if amount > 1 && basisPoints > 0 {
      ProductMonotone(amount, more, basisPoints, higher);
    }
  }

  lemma ProductMonotone(a: nat, b: nat, c: nat, d: nat)
    requires a <= b && c <= d
    ensures a * c <= b * d
  {
    assert b * d == a * c + a * (d - c) + (b - a) * d;
  }

  // ---- Fee refunds ----

  lemma FactorBound(factor: int, unit: nat)
    ensures factor >= 1 ==> factor * unit >= unit
    ensures factor <= -1 ==> factor * unit <= 0 - unit
  {
    assert factor * unit == (factor - 1) * unit + unit;
    assert factor * unit == (factor + 1) * unit - unit;
  }

  /** The quotient `x` rounded to the nearest multiple of `total`. */
  lemma RoundedQuotient(x: nat, total: nat)
    requires 0 < total
    ensures var q := (x + total / 2) / total;
            0 <= q && 0 - total <= 2 * (q * total - x) <= total
  {
    var y := x + total / 2;
    QuotientBounds(y, total);
    FactorBound(y / total, total);
  }

  /** If a rounded value lies within half a cent below `bound * total`, it does not exceed `bound`. */
  lemma RoundedAtMost(q: int, x: nat, bound: int, total: nat)
    requires 0 < total && 2 * (q * total - x) <= total && x <= bound * total
    ensures q <= bound
  {
    FactorBound(q - bound, total);
    assert (q - bound) * total == q * total - bound * total;
  }

  /**
    At every point of a refund: no more fee comes back than money, no more fee is kept than
    money is left on the order, and the amount is within half a cent of the exact share.
    */
  lemma FeeRefundBounds(fee: nat, refunded: nat, total: nat)
    requires fee <= total && refunded <= total
    ensures var back := ProportionalFeeRefund(fee, refunded, total);
            && 0 <= back <= fee
            && back <= refunded
            && fee - back <= total - refunded
            && 0 - total <= 2 * (back * total - fee * refunded) <= total
  {
    if fee == 0 || refunded == 0 {
      assert fee * refunded == 0;
    } else if refunded < total {
      var x: nat := fee * refunded;
      var q := (x + total / 2) / total;
      RoundedQuotient(x, total);
      assert x <= fee * total by { ProductMonotone(fee, fee, refunded, total); }
      RoundedAtMost(q, x, fee, total);
      assert x <= refunded * total by { ProductMonotone(refunded, refunded, fee, total); }
      RoundedAtMost(q, x, refunded, total);
      KeptFeeBound(fee, refunded, total, q);
    } else {
      assert refunded == total;
    }
  }

  lemma KeptFeeBound(fee: nat, refunded: nat, total: nat, back: int)
    requires 0 < total && fee <= total && refunded <= total
    requires 0 - total <= 2 * (back * total - fee * refunded)
    ensures fee - back <= total - refunded
  {
    var kept, left := fee - back, total - refunded;
    DifferenceTimes(fee, back, total);
    DifferenceTimes(total, refunded, fee);
    ProductMonotone(fee, total, left, left);
    assert fee * left == left * fee && total * left == left * total && total * fee == fee * total;
    RoundedAtMost(kept, fee * left, left, total);
  }

  lemma DifferenceTimes(a: int, b: int, c: int)
    ensures (a - b) * c == a * c - b * c
  {
  }

  lemma FeeRefundMonotone(fee: nat, refunded: nat, more: nat, total: nat)
    requires fee <= total && refunded <= more
    ensures ProportionalFeeRefund(fee, refunded, total) <= ProportionalFeeRefund(fee, more, total) <= fee
  {
    if more < total {
      FeeRefundBounds(fee, more, total);
      if fee > 0 && refunded > 0 {
        ProductMonotone(fee, fee, refunded, more);
        var x, y := fee * refunded + total / 2, fee * more + total / 2;
        assert x / total <= y / total by { DivMonotone(x, y, total); }
      }
    } else if refunded < total {
      FeeRefundBounds(fee, refunded, total);
    }
  }

  lemma DivMonotone(x: nat, y: nat, d: nat)
    requires x <= y && 0 < d
    ensures x / d <= y / d
  {
    var a, b := x / d, y / d;
    QuotientBounds(x, d);
    QuotientBounds(y, d);
    FactorBound(a - b, d);
    assert (a - b) * d == a * d - b * d;
  }

  lemma QuotientBounds(x: nat, d: nat)
    requires 0 < d
    ensures (x / d) * d <= x < (x / d) * d + d
  {
    assert x == d * (x / d) + x % d;
  }

  // ---- A whole sequence of refunds ----

  function Total(refunds: seq<nat>): nat {
    if refunds == [] then 0 else Total(refunds[..|refunds| - 1]) + refunds[|refunds| - 1]
  }

  /** What one refund adds to the fee already returned. */
  function FeeIncrement(fee: nat, before: nat, amount: nat, total: nat): int {
    ProportionalFeeRefund(fee, before + amount, total) - ProportionalFeeRefund(fee, before, total)
  }

  function FeeIncrements(fee: nat, refunds: seq<nat>, total: nat): int {
    if refunds == [] then 0
    else
      var earlier := refunds[..|refunds| - 1];
      FeeIncrements(fee, earlier, total)
      + FeeIncrement(fee, Total(earlier), refunds[|refunds| - 1], total)
  }

  /** Refunding the order in any number of parts returns exactly the fee: rounding never drifts. */
  lemma {:induction false} FeeRefundsDoNotDrift(fee: nat, refunds: seq<nat>, total: nat)
    requires fee <= total && Total(refunds) == total
    ensures FeeIncrements(fee, refunds, total) == fee
  {
    IncrementsTelescope(fee, refunds, total);
    if total == 0 {
      assert fee == 0;
    }
  }

  lemma {:induction false} IncrementsTelescope(fee: nat, refunds: seq<nat>, total: nat)
    ensures FeeIncrements(fee, refunds, total) == ProportionalFeeRefund(fee, Total(refunds), total)
  {
    if refunds != [] {
      IncrementsTelescope(fee, refunds[..|refunds| - 1], total);
    }
  }
}
