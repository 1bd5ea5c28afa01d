/**
  How much an order can come to refund (payments/services.py:563-705). A request is checked against
  the money already refunded, a success is counted whenever a refund enters SUCCEEDED, and nothing is
  taken back when one leaves it; so the limit depends on what was requested and on what left.
  */
module RefundLimits {
  import opened Wrappers
  import opened Sums
  import opened Commerce
  import opened CommerceTables
  import opened RefundLedger
  import opened LatePayment

  function RequestedOf(s: State, o: nat): nat -> int {
    (r: nat) => if r < |s.refunds| && s.refunds[r].order == o then s.refunds[r].amount else 0
  }

  /** Everything ever requested back on the order, whatever became of it. */
  function Requested(s: State, o: nat): int {
    Sum(RequestedOf(s, o), |s.refunds|)
  }

  function StandingOf(s: State, o: nat): nat -> int {
    (r: nat) => if r < |s.refunds| && s.refunds[r].status == RefundSucceeded then RequestedOf(s, o)(r) else 0
  }

  /** The refunds of the order that are SUCCEEDED now. */
  function Standing(s: State, o: nat): int {
    Sum(StandingOf(s, o), |s.refunds|)
  }

  function Refunded(s: State, o: nat): nat {
    if o < |s.orders| then s.orders[o].refunded else 0
  }

  /** What the step takes out of SUCCEEDED on the order, although it stays counted. */
  function Withdrawn(s: State, step: Step, o: nat): nat {
    match step
    case RefundUpdate(r, provider) =>
      if r < |s.refunds| && s.refunds[r].order == o && s.refunds[r].status == RefundSucceeded
         && provider.GetOr(RefundSucceeded) != RefundSucceeded then s.refunds[r].amount else 0
    case RefundSubmissionFailed(r) =>
      if r < |s.refunds| && s.refunds[r].order == o && s.refunds[r].status == RefundSucceeded
      then s.refunds[r].amount else 0
    case _ => 0
  }

  function TotalWithdrawn(s: State, steps: seq<Step>, o: nat): nat {
    if steps == [] then 0
    else
      var earlier := steps[..|steps| - 1];
      TotalWithdrawn(s, earlier, o) + Withdrawn(Run(s, earlier), steps[|steps| - 1], o)
  }

  /** The requester asks for no more than the total less all that was requested before. */
  predicate Modest(s: State, step: Step, o: nat) {
    step.RequestRefund? && step.order == o && o < |s.orders| ==>
      step.amount <= s.orders[o].total - Requested(s, o)
  }

  predicate AlwaysModest(s: State, steps: seq<Step>, o: nat) {
    steps == []
    || (var earlier := steps[..|steps| - 1];
        AlwaysModest(s, earlier, o) && Modest(Run(s, earlier), steps[|steps| - 1], o))
  }

  // ---- One step ----

  /** The step leaves refunds alone, and every order's refunded money and total. */
  ghost predicate KeepsMoney(s: State, t: State) {
    && t.refunds == s.refunds && |s.orders| <= |t.orders|
    && (forall o :: 0 <= o < |s.orders| ==>
          t.orders[o].refunded == s.orders[o].refunded && t.orders[o].total == s.orders[o].total)
    && (forall o :: |s.orders| <= o < |t.orders| ==> t.orders[o].refunded == 0)
  }

  lemma OtherStepKeepsMoney(s: State, step: Step)
    requires !step.RequestRefund? && !step.RefundUpdate? && !step.RefundSubmissionFailed?
    ensures KeepsMoney(s, Next(s, step))
  {
    match step
    case ReleaseHolds =>
      ExpireAllIsQuiet(s, ExpiredHolds(s, |s.holds|));
      ExpireAllKeepsRest(s, ExpiredHolds(s, |s.holds|));
    case _ =>
  }

  lemma KeptMoney(s: State, t: State, o: nat)
    requires KeepsMoney(s, t)
    ensures Refunded(t, o) == Refunded(s, o)
    ensures Requested(t, o) == Requested(s, o) && Standing(t, o) == Standing(s, o)
  {
    SumEqual(RequestedOf(s, o), RequestedOf(t, o), |s.refunds|);
    SumEqual(StandingOf(s, o), StandingOf(t, o), |s.refunds|);
  }

  lemma RequestAdds(s: State, order: nat, amount: int, o: nat)
    requires PrepareRefund(s, order, amount).Ok?
    ensures var t := PrepareRefund(s, order, amount).value;
            && Refunded(t, o) == Refunded(s, o) && Standing(t, o) == Standing(s, o)
            && Requested(t, o) == Requested(s, o) + if o == order then amount else 0
  {
    var t := PrepareRefund(s, order, amount).value;
    SumEqual(RequestedOf(s, o), RequestedOf(t, o), |s.refunds|);
    SumEqual(StandingOf(s, o), StandingOf(t, o), |s.refunds|);
  }

  lemma UpdateMoves(s: State, r: nat, provider: Option<RefundStatus>, o: nat)
    requires Tables(s)
    ensures var t := ApplyRefund(s, r, provider);
            && Requested(t, o) == Requested(s, o)
            && Refunded(t, o) - Standing(t, o)
               == Refunded(s, o) - Standing(s, o) + Withdrawn(s, RefundUpdate(r, provider), o)
  {
    var t := ApplyRefund(s, r, provider);
    if r < |s.refunds| {
      assert RefundRow(s, r);
      SumEqual(RequestedOf(s, o), RequestedOf(t, o), |s.refunds|);
      SumOneChange(StandingOf(s, o), StandingOf(t, o), |s.refunds|, r);
    }
  }

  lemma RefusalMoves(s: State, r: nat, o: nat)
    ensures var t := FailSubmission(s, r);
            && Requested(t, o) == Requested(s, o) && Refunded(t, o) == Refunded(s, o)
            && Standing(t, o) == Standing(s, o) - Withdrawn(s, RefundSubmissionFailed(r), o)
  {
    var t := FailSubmission(s, r);
    if r < |s.refunds| {
      SumEqual(RequestedOf(s, o), RequestedOf(t, o), |s.refunds|);
      SumOneChange(StandingOf(s, o), StandingOf(t, o), |s.refunds|, r);
    }
  }

  /** Refunded money moves with what stands, but not down with what is withdrawn. */
  lemma NextMoves(s: State, step: Step, o: nat)
    requires Tables(s)
    ensures var t := Next(s, step);
            && Refunded(t, o) - Standing(t, o) == Refunded(s, o) - Standing(s, o) + Withdrawn(s, step, o)
            && (step.RequestRefund? || Requested(t, o) == Requested(s, o))
  {
    match step
    case RequestRefund(order, amount) =>
      if PrepareRefund(s, order, amount).Ok? {
        RequestAdds(s, order, amount, o);
      }
    case RefundUpdate(r, provider) => UpdateMoves(s, r, provider, o);
    case RefundSubmissionFailed(r) => RefusalMoves(s, r, o);
    case _ =>
      OtherStepKeepsMoney(s, step);
      KeptMoney(s, Next(s, step), o);
  }

  lemma NextKeepsTotals(s: State, step: Step, o: nat)
    requires o < |s.orders|
    ensures o < |Next(s, step).orders| && Next(s, step).orders[o].total == s.orders[o].total
  {
    if !step.RequestRefund? && !step.RefundUpdate? && !step.RefundSubmissionFailed? {
      OtherStepKeepsMoney(s, step);
    }
  }

  lemma NextKeepsRequestsModest(s: State, step: Step, o: nat)
    requires Tables(s) && Modest(s, step, o) && o < |s.orders| && Requested(s, o) <= s.orders[o].total
    ensures o < |Next(s, step).orders| && Requested(Next(s, step), o) <= Next(s, step).orders[o].total
  {
    NextKeepsTotals(s, step, o);
    NextMoves(s, step, o);
    if step.RequestRefund? && PrepareRefund(s, step.order, step.amount).Ok? {
      RequestAdds(s, step.order, step.amount, o);
    }
  }

  lemma NothingRequestedYet(s: State, o: nat)
    requires Tables(s) && o >= |s.orders|
    ensures Requested(s, o) == 0
  {
    forall r: nat | r < |s.refunds|
      ensures RequestedOf(s, o)(r) == 0
    {
      assert RefundRow(s, r);
    }
    SumZero(RequestedOf(s, o), |s.refunds|);
  }

  // ---- Every run ----

  /** On every run the refunded money of an order is what stands SUCCEEDED on it plus all that ever left SUCCEEDED. */
  lemma {:induction false} RefundedIsAccountedFor(setup: Setup, steps: seq<Step>, o: nat)
    ensures var s := Run(Initial(setup), steps);
            && Refunded(s, o) == Standing(s, o) + TotalWithdrawn(Initial(setup), steps, o)
            && 0 <= Standing(s, o) <= Requested(s, o)
  {
    var s := Run(Initial(setup), steps);
    forall r: nat | r < |s.refunds|
      ensures 0 <= StandingOf(s, o)(r) <= RequestedOf(s, o)(r)
    {
      var refund: Refund := s.refunds[r];
      assert RequestedOf(s, o)(r) == if refund.order == o then refund.amount else 0;
      assert refund.amount >= 0;
      assert RequestedOf(s, o)(r) >= 0;
    }
    SumNonNegative(StandingOf(s, o), |s.refunds|);
    SumAtMost(StandingOf(s, o), RequestedOf(s, o), |s.refunds|);
    if steps != [] {
      var earlier := steps[..|steps| - 1];
      RefundedIsAccountedFor(setup, earlier, o);
      RunKeepsTables(setup, earlier);
      NextMoves(Run(Initial(setup), earlier), steps[|steps| - 1], o);
    }
  }

  lemma {:induction false} RequestsStayWithinTotal(setup: Setup, steps: seq<Step>, o: nat)
    requires AlwaysModest(Initial(setup), steps, o) && o < |Run(Initial(setup), steps).orders|
    ensures Requested(Run(Initial(setup), steps), o) <= Run(Initial(setup), steps).orders[o].total
  {
    var earlier := steps[..|steps| - 1];
    var s := Run(Initial(setup), earlier);
    RunKeepsTables(setup, earlier);
    if o < |s.orders| {
      RequestsStayWithinTotal(setup, earlier, o);
      NextKeepsRequestsModest(s, steps[|steps| - 1], o);
    } else {
      RunKeepsTables(setup, steps);
      NextMoves(s, steps[|steps| - 1], o);
      NothingRequestedYet(s, o);
    }
  }

  /**
    If nobody asks for more than the total less all earlier requests, and no refund of the order ever
    leaves SUCCEEDED, the order is never refunded beyond its total.
    */
  lemma RefundsStayWithinTotal(setup: Setup, steps: seq<Step>, o: nat)
    requires AlwaysModest(Initial(setup), steps, o)
    requires TotalWithdrawn(Initial(setup), steps, o) == 0
    requires o < |Run(Initial(setup), steps).orders|
    ensures Run(Initial(setup), steps).orders[o].refunded <= Run(Initial(setup), steps).orders[o].total
  {
    RefundedIsAccountedFor(setup, steps, o);
    RequestsStayWithinTotal(setup, steps, o);
  }

  // ---- Exactly when an order can be refunded beyond its total ----

  /** The provider reports success for each of the first `n` refunds. */
  function AllSucceed(n: nat): seq<Step> {
    seq(n, r requires 0 <= r < n => RefundUpdate(r, Some(RefundSucceeded)))
  }

  predicate OnlySuccesses(steps: seq<Step>) {
    forall k :: 0 <= k < |steps| ==> steps[k].RefundUpdate? && steps[k].provider == Some(RefundSucceeded)
  }

  /** Successes withdraw nothing, request nothing, and move no total. */
  lemma {:induction false} SuccessesMove(s: State, steps: seq<Step>, o: nat)
    requires Tables(s) && RosterOk(s) && OnlySuccesses(steps) && o < |s.orders|
    ensures var t := Run(s, steps);
            && Tables(t) && RosterOk(t) && o < |t.orders| && t.orders[o].total == s.orders[o].total
            && |t.refunds| == |s.refunds|
            && Requested(t, o) == Requested(s, o)
            && Refunded(t, o) - Standing(t, o) == Refunded(s, o) - Standing(s, o)
  {
    if steps != [] {
      var earlier, last := steps[..|steps| - 1], steps[|steps| - 1];
      SuccessesMove(s, earlier, o);
      assert last == steps[|steps| - 1];
      NextKeepsTables(Run(s, earlier), last);
      NextKeepsTotals(Run(s, earlier), last, o);
      NextMoves(Run(s, earlier), last, o);
    }
  }

  lemma {:induction false} AllSucceeded(s: State, n: nat)
    requires Tables(s) && RosterOk(s) && n <= |s.refunds|
    ensures var t := Run(s, AllSucceed(n));
            && Tables(t) && RosterOk(t) && |t.refunds| == |s.refunds|
            && forall r :: 0 <= r < n ==> t.refunds[r].status == RefundSucceeded
  {
    if n > 0 {
      AllSucceeded(s, n - 1);
      assert AllSucceed(n)[..n - 1] == AllSucceed(n - 1);
      assert RefundRow(Run(s, AllSucceed(n - 1)), n - 1);
      NextKeepsTables(Run(s, AllSucceed(n - 1)), AllSucceed(n)[n - 1]);
    }
  }

  /**
    In every reachable state, successes alone can still take an order past its total if and only if
    what was requested on it and what left SUCCEEDED come to more than the total.
    */
  lemma RefundsExceedTotalExactly(setup: Setup, steps: seq<Step>, o: nat)
    requires o < |Run(Initial(setup), steps).orders|
    ensures var s := Run(Initial(setup), steps);
            (exists more :: OnlySuccesses(more) && Refunded(Run(s, more), o) > s.orders[o].total)
            <==> Requested(s, o) + TotalWithdrawn(Initial(setup), steps, o) > s.orders[o].total
  {
    var s := Run(Initial(setup), steps);
    var left := TotalWithdrawn(Initial(setup), steps, o);
    RunKeepsTables(setup, steps);
    RefundedIsAccountedFor(setup, steps, o);
    forall more | OnlySuccesses(more)
      ensures Refunded(Run(s, more), o) <= Requested(s, o) + left
    {
      SuccessesMove(s, more, o);
      var t := Run(s, more);
      SumAtMost(StandingOf(t, o), RequestedOf(t, o), |t.refunds|);
    }
    var all := AllSucceed(|s.refunds|);
    var t := Run(s, all);
    assert OnlySuccesses(all);
    SuccessesMove(s, all, o);
    AllSucceeded(s, |s.refunds|);
    SumEqual(StandingOf(t, o), RequestedOf(t, o), |t.refunds|);
    assert Refunded(t, o) == Requested(s, o) + left;
  }

  // ---- Neither half of the condition can be dropped ----

  const ON_SALE: seq<Step> := ALL_STEPS[..3] + [PaySucceeded(0)]

  /** Two requests for the whole order, both made before either succeeds. */
  const TWO_REQUESTS: seq<Step> := ON_SALE + [
    RequestRefund(0, 1000), RequestRefund(0, 1000),
    RefundUpdate(0, Some(RefundSucceeded)), RefundUpdate(1, Some(RefundSucceeded))]

  /** One request that succeeds, is reported failed, and succeeds again. */
  const ONE_REQUEST: seq<Step> := ON_SALE + [
    RequestRefund(0, 1000), RefundUpdate(0, Some(RefundSucceeded)),
    RefundUpdate(0, Some(RefundFailed)), RefundUpdate(0, Some(RefundSucceeded))]

  /** The order was paid, nothing else about its money moved, and no refund was asked for. */
  ghost predicate Bought(s: State) {
    && Tables(s) && RosterOk(s) && |s.orders| == 1 && s.orders[0].status == OrderPaid
    && s.orders[0].total == 1000 && s.orders[0].refunded == 0 && s.refunds == []
  }

  lemma PaidIsBought(s: State)
    requires s.orders == [NewRow(0)] && |s.holds| == 1 && s.refunds == []
    requires Tables(s) && RosterOk(s)
    ensures Bought(MarkPaid(s, 0))
  {
    MarkPaidKeepsTables(s, 0);
  }

  lemma BoughtOne()
    ensures Bought(Run(Initial(SHOP), ON_SALE))
    ensures TotalWithdrawn(Initial(SHOP), ON_SALE, 0) == 0
    ensures AlwaysModest(Initial(SHOP), ON_SALE, 0)
  {
    HoldingSteps();
    RunKeepsTables(SHOP, ALL_STEPS[..3]);
    PaidIsBought(AFTER_HOLD);
    assert ON_SALE[..3] == ALL_STEPS[..3];
    NoRefundSteps(ON_SALE, 4, 0);
    assert ON_SALE[..4] == ON_SALE;
  }

  lemma {:induction false} NoRefundSteps(steps: seq<Step>, n: nat, o: nat)
    requires n <= |steps|
    requires forall k :: 0 <= k < n ==>
                           !steps[k].RequestRefund? && !steps[k].RefundUpdate? && !steps[k].RefundSubmissionFailed?
    ensures TotalWithdrawn(Initial(SHOP), steps[..n], o) == 0 && AlwaysModest(Initial(SHOP), steps[..n], o)
  {
    if n > 0 {
      NoRefundSteps(steps, n - 1, o);
      assert steps[..n][..n - 1] == steps[..n - 1];
    }
  }

  /** What is followed along a run: the order, its refunds, what left SUCCEEDED, and whether every request was modest. */
  ghost predicate Follows(steps: seq<Step>, s: State, withdrawn: nat, modest: bool) {
    && Run(Initial(SHOP), steps) == s
    && TotalWithdrawn(Initial(SHOP), steps, 0) == withdrawn
    && AlwaysModest(Initial(SHOP), steps, 0) == modest
  }

  lemma OneMore(steps: seq<Step>, last: Step, s: State, withdrawn: nat, modest: bool)
    requires Follows(steps, s, withdrawn, modest)
    ensures Follows(steps + [last], Next(s, last), withdrawn + Withdrawn(s, last, 0), modest && Modest(s, last, 0))
  {
    assert (steps + [last])[..|steps|] == steps;
  }

  /** The one order, and its refunds. */
  ghost predicate Has(s: State, refunded: nat, refunds: seq<Refund>) {
    && |s.orders| == 1 && s.orders[0].status in {OrderPaid, FullyRefunded}
    && s.orders[0].total == 1000 && s.orders[0].refunded == refunded && s.refunds == refunds
    && (refunded < 1000 ==> s.orders[0].status == OrderPaid)
  }

  function Asked(status: RefundStatus): Refund { Refund(0, 1000, status, None) }

  lemma PaidOrder() returns (s: State)
    ensures Follows(ON_SALE, s, 0, true) && Has(s, 0, [])
  {
    BoughtOne();
    s := Run(Initial(SHOP), ON_SALE);
  }

  /** Nothing ever leaves SUCCEEDED, and yet the order is refunded twice: the second request was too much. */
  lemma TwoRequestsRefundTwice()
    ensures var s := Run(Initial(SHOP), TWO_REQUESTS);
            |s.orders| == 1 && s.orders[0].total == 1000 && s.orders[0].refunded == 2000
    ensures TotalWithdrawn(Initial(SHOP), TWO_REQUESTS, 0) == 0
    ensures !AlwaysModest(Initial(SHOP), TWO_REQUESTS, 0)
  {
    var s0 := PaidOrder();
    var a := RequestRefund(0, 1000);
    var b, c := RefundUpdate(0, Some(RefundSucceeded)), RefundUpdate(1, Some(RefundSucceeded));
    OneMore(ON_SALE, a, s0, 0, true);
    var s1 := Next(s0, a);
    assert [] + [Asked(RefundPending)] == [Asked(RefundPending)];
    OneMore(ON_SALE + [a], a, s1, 0, true);
    var s2 := Next(s1, a);
    OneMore(ON_SALE + [a] + [a], b, s2, 0, false);
    var s3 := Next(s2, b);
    OneMore(ON_SALE + [a] + [a] + [b], c, s3, 0, false);
    assert TWO_REQUESTS == ON_SALE + [a] + [a] + [b] + [c];
  }

  /** Only one modest request is made, and yet the order is refunded twice: its refund left SUCCEEDED once. */
  lemma OneRequestRefundsTwice()
    ensures var s := Run(Initial(SHOP), ONE_REQUEST);
            |s.orders| == 1 && s.orders[0].total == 1000 && s.orders[0].refunded == 2000
    ensures AlwaysModest(Initial(SHOP), ONE_REQUEST, 0)
    ensures TotalWithdrawn(Initial(SHOP), ONE_REQUEST, 0) == 1000
  {
    var s0 := PaidOrder();
    var a, b := RequestRefund(0, 1000), RefundUpdate(0, Some(RefundSucceeded));
    var c := RefundUpdate(0, Some(RefundFailed));
    OneMore(ON_SALE, a, s0, 0, true);
    var s1 := Next(s0, a);
    OneMore(ON_SALE + [a], b, s1, 0, true);
    var s2 := Next(s1, b);
    OneMore(ON_SALE + [a] + [b], c, s2, 0, true);
    var s3 := Next(s2, c);
    OneMore(ON_SALE + [a] + [b] + [c], b, s3, 1000, true);
    assert ONE_REQUEST == ON_SALE + [a] + [b] + [c] + [b];
  }
}
