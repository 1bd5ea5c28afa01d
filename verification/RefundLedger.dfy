/** The refund counters of an order, against its financial history (payments/services.py, payments/fees.py). */
module RefundLedger {
  import opened Wrappers
  import opened Sums
  import opened Fees
  import opened Commerce
  import opened CommerceTables

  /** The amount of a history entry that takes one of the order's refunds into SUCCEEDED. */
  function EntryOf(s: State, o: nat): nat -> int {
    (k: nat) =>
      if k < |s.history| && s.history[k].RefundMoved? && s.history[k].order == o
         && s.history[k].after == RefundSucceeded && s.history[k].before != Some(RefundSucceeded)
         && s.history[k].refund < |s.refunds|
      then s.refunds[s.history[k].refund].amount else 0
  }

  function SucceededTotal(s: State, o: nat): int {
    Sum(EntryOf(s, o), |s.history|)
  }

  /** The order's counters are what its history and the fee rule say. */
  ghost predicate LedgerRow(s: State, o: nat)
    requires o < |s.orders|
  {
    && s.orders[o].refunded == SucceededTotal(s, o)
    && s.orders[o].feeRefunded
       == ProportionalFeeRefund(s.orders[o].fee, s.orders[o].refunded, s.orders[o].total)
  }

  ghost predicate Ledger(s: State) {
    && (forall o: nat :: o < |s.orders| ==> LedgerRow(s, o))
    && (forall o: nat :: o >= |s.orders| ==> SucceededTotal(s, o) == 0)
    && (forall k :: 0 <= k < |s.history| && s.history[k].RefundMoved? ==> s.history[k].refund < |s.refunds|)
  }

  // ---- Steps that record no refund success ----

  lemma HistoryKept(s: State, t: State, o: nat)
    requires s.history <= t.history && |s.refunds| <= |t.refunds|
    requires forall r :: 0 <= r < |s.refunds| ==> t.refunds[r].amount == s.refunds[r].amount
    requires forall k :: 0 <= k < |s.history| && s.history[k].RefundMoved? ==> s.history[k].refund < |s.refunds|
    requires forall k :: |s.history| <= k < |t.history| ==> EntryOf(t, o)(k) == 0
    ensures SucceededTotal(t, o) == SucceededTotal(s, o)
  {
    SumEqual(EntryOf(s, o), EntryOf(t, o), |s.history|);
    SumConstantTail(EntryOf(t, o), |s.history|, |t.history|, 0);
  }

  /** A step that leaves every order's money alone and records no success keeps the ledger. */
  lemma QuietStepKeepsLedger(s: State, t: State)
    requires Ledger(s) && s.history <= t.history && |s.refunds| <= |t.refunds| && |s.orders| <= |t.orders|
    requires forall r :: 0 <= r < |s.refunds| ==> t.refunds[r].amount == s.refunds[r].amount
    requires forall k :: |s.history| <= k < |t.history| && t.history[k].RefundMoved? ==>
                           t.history[k].refund < |t.refunds| && t.history[k].after != RefundSucceeded
    requires forall o :: 0 <= o < |s.orders| ==>
                           t.orders[o].refunded == s.orders[o].refunded
                           && t.orders[o].feeRefunded == s.orders[o].feeRefunded
                           && t.orders[o].fee == s.orders[o].fee && t.orders[o].total == s.orders[o].total
    requires forall o :: |s.orders| <= o < |t.orders| ==> t.orders[o].refunded == 0 && t.orders[o].feeRefunded == 0
    ensures Ledger(t)
  {
    forall o: nat
      ensures SucceededTotal(t, o) == SucceededTotal(s, o)
    {
      HistoryKept(s, t, o);
    }
    forall o: nat | o < |t.orders|
      ensures LedgerRow(t, o)
    {
      if o < |s.orders| {
        assert LedgerRow(s, o);
      }
    }
  }

  lemma {:induction false} ExpireAllIsQuiet(s: State, ids: seq<nat>)
    ensures var t := ExpireAll(s, ids);
            && s.history <= t.history && |t.orders| == |s.orders|
            && (forall k :: |s.history| <= k < |t.history| ==> t.history[k].OrderMoved?)
            && (forall o :: 0 <= o < |s.orders| ==> t.orders[o] == s.orders[o].(status := t.orders[o].status))
  {
    if ids != [] {
      ExpireAllIsQuiet(s, ids[..|ids| - 1]);
    }
  }

  // ---- A refund update ----

  lemma RefundUpdateKeepsLedger(s: State, r: nat, provider: Option<RefundStatus>)
    requires Tables(s) && Ledger(s)
    ensures Ledger(ApplyRefund(s, r, provider))
  {
    var t := ApplyRefund(s, r, provider);
    if r < |s.refunds| {
      assert RefundRow(s, r);
      var o := s.refunds[r].order;
      if provider == Some(RefundSucceeded) && s.refunds[r].status != RefundSucceeded {
        SuccessIsCounted(s, r, provider);
        forall p: nat | p != o
          ensures SucceededTotal(t, p) == SucceededTotal(s, p)
        {
          HistoryKept(s, t, p);
        }
        forall p: nat | p < |t.orders|
          ensures LedgerRow(t, p)
        {
          assert LedgerRow(s, p);
        }
      } else {
        QuietUpdate(s, r, provider);
      }
    }
  }

  lemma SuccessIsCounted(s: State, r: nat, provider: Option<RefundStatus>)
    requires Ledger(s) && r < |s.refunds| && s.refunds[r].order < |s.orders|
    requires provider == Some(RefundSucceeded) && s.refunds[r].status != RefundSucceeded
    ensures var t := ApplyRefund(s, r, provider); var o := s.refunds[r].order;
            SucceededTotal(t, o) == SucceededTotal(s, o) + s.refunds[r].amount
  {
    var t := ApplyRefund(s, r, provider);
    var o := s.refunds[r].order;
    SumEqual(EntryOf(s, o), EntryOf(t, o), |s.history|);
  }

  lemma QuietUpdate(s: State, r: nat, provider: Option<RefundStatus>)
    requires Ledger(s) && r < |s.refunds| && s.refunds[r].order < |s.orders|
    requires provider.GetOr(s.refunds[r].status) != RefundSucceeded || s.refunds[r].status == RefundSucceeded
    ensures Ledger(ApplyRefund(s, r, provider))
  {
    QuietStepKeepsLedger(s, ApplyRefund(s, r, provider));
  }

  // ---- Every run ----

  lemma OrderStepKeepsLedger(s: State, step: Step)
    requires Tables(s) && Ledger(s)
    requires step.PaySucceeded? || step.PayFailed? || step.DisputeUpdate? || step.ChargeUpdate?
    ensures Ledger(Next(s, step))
  {
    QuietStepKeepsLedger(s, Next(s, step));
  }

  lemma OtherStepKeepsLedger(s: State, step: Step)
    requires Tables(s) && Ledger(s)
    requires step.Tick? || step.Respond? || step.SessionUncertain? || step.RequestRefund? || step.RefundSubmissionFailed?
    ensures Ledger(Next(s, step))
  {
    QuietStepKeepsLedger(s, Next(s, step));
  }

  lemma ReserveKeepsLedger(s: State, account: Option<nat>, g: nat, ticketType: nat)
    requires Tables(s) && Ledger(s) && Reserve(s, account, g, ticketType).Ok?
    ensures Ledger(Reserve(s, account, g, ticketType).value)
  {
    QuietStepKeepsLedger(s, Supersede(s, g));
    QuietStepKeepsLedger(Supersede(s, g), Reserve(s, account, g, ticketType).value);
  }

  lemma ReleaseKeepsLedger(s: State)
    requires Ledger(s)
    ensures Ledger(ReleaseExpiredHolds(s))
  {
    ExpireAllIsQuiet(s, ExpiredHolds(s, |s.holds|));
    ExpireAllKeepsRest(s, ExpiredHolds(s, |s.holds|));
    QuietStepKeepsLedger(s, ReleaseExpiredHolds(s));
  }

  lemma NextKeepsLedger(s: State, step: Step)
    requires Tables(s) && Ledger(s)
    ensures Ledger(Next(s, step))
  {
    match step
    case RefundUpdate(r, provider) => RefundUpdateKeepsLedger(s, r, provider);
    case ReleaseHolds => ReleaseKeepsLedger(s);
    case ReserveOrder(account, g, t) =>
      if Reserve(s, account, g, t).Ok? {
        ReserveKeepsLedger(s, account, g, t);
      }
    case PaySucceeded(_) => OrderStepKeepsLedger(s, step);
    case PayFailed(_, _) => OrderStepKeepsLedger(s, step);
    case DisputeUpdate(_, _) => OrderStepKeepsLedger(s, step);
    case ChargeUpdate(_, _, _) => OrderStepKeepsLedger(s, step);
    case _ => OtherStepKeepsLedger(s, step);
  }

  /**
    In every run an order's refunded money is what its history took into SUCCEEDED, entry by entry,
    its returned fee is the proportional share of that, and the fee never returns more than itself.
    */
  lemma {:induction false} RefundsMatchHistory(setup: Setup, steps: seq<Step>, o: nat)
    requires o < |Run(Initial(setup), steps).orders| && setup.feeBps <= 9999
    ensures var s := Run(Initial(setup), steps);
            && s.orders[o].refunded == SucceededTotal(s, o)
            && s.orders[o].feeRefunded
               == ProportionalFeeRefund(s.orders[o].fee, s.orders[o].refunded, s.orders[o].total)
            && s.orders[o].feeRefunded <= s.orders[o].fee
            && (s.orders[o].fee == 0 || s.orders[o].fee < s.orders[o].total)
            && (s.orders[o].refunded <= s.orders[o].total ==>
                  s.orders[o].feeRefunded <= s.orders[o].refunded
                  && s.orders[o].fee - s.orders[o].feeRefunded <= s.orders[o].total - s.orders[o].refunded)
  {
    RunKeepsLedger(setup, steps);
    RunKeepsTables(setup, steps);
    var order := Run(Initial(setup), steps).orders[o];
    assert LedgerRow(Run(Initial(setup), steps), o);
    assert OrderRow(Run(Initial(setup), steps), o);
    ApplicationFeeBounds(order.total, setup.feeBps);
    FeeRefundMonotone(order.fee, order.refunded, order.refunded, order.total);
    if order.refunded <= order.total {
      FeeRefundBounds(order.fee, order.refunded, order.total);
    }
  }

  lemma {:induction false} RunKeepsLedger(setup: Setup, steps: seq<Step>)
    ensures Ledger(Run(Initial(setup), steps))
  {
    if steps != [] {
      var earlier := steps[..|steps| - 1];
      RunKeepsLedger(setup, earlier);
      RunKeepsTables(setup, earlier);
      NextKeepsLedger(Run(Initial(setup), earlier), steps[|steps| - 1]);
    }
  }

  /** Neither counter ever goes down. */
  lemma NextRaisesCounters(s: State, step: Step, o: nat)
    requires Tables(s) && Ledger(s) && o < |s.orders| && s.setup.feeBps <= 9999
    ensures var t := Next(s, step);
            && o < |t.orders|
            && s.orders[o].refunded <= t.orders[o].refunded
            && s.orders[o].feeRefunded <= t.orders[o].feeRefunded
  {
    match step
    case ReleaseHolds => ExpireAllIsQuiet(s, ExpiredHolds(s, |s.holds|));
    case RefundUpdate(r, provider) =>
      assert LedgerRow(s, o) && OrderRow(s, o);
      var order := s.orders[o];
      ApplicationFeeBounds(order.total, s.setup.feeBps);
      if r < |s.refunds| {
        FeeRefundMonotone(order.fee, order.refunded, order.refunded + s.refunds[r].amount, order.total);
      }
    case _ =>
  }

  lemma {:induction false} CountersNeverFall(setup: Setup, steps: seq<Step>, more: seq<Step>, o: nat)
    requires o < |Run(Initial(setup), steps).orders| && setup.feeBps <= 9999
    ensures var s, t := Run(Initial(setup), steps), Run(Initial(setup), steps + more);
            && o < |t.orders|
            && s.orders[o].refunded <= t.orders[o].refunded
            && s.orders[o].feeRefunded <= t.orders[o].feeRefunded
  {
    if more == [] {
      assert steps + more == steps;
    } else {
      var earlier := more[..|more| - 1];
      CountersNeverFall(setup, steps, earlier, o);
      RunKeepsLedger(setup, steps + earlier);
      RunKeepsTables(setup, steps + earlier);
      assert (steps + more)[..|steps + more| - 1] == steps + earlier;
      NextRaisesCounters(Run(Initial(setup), steps + earlier), more[|more| - 1], o);
    }
  }
}
