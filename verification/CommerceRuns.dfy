/** Runs of the one-ticket shop in which a step leaves rows that no longer agree with each other. */
module CommerceRuns {
  import opened Wrappers
  import opened Registrations
  import opened Commerce
  import opened OrderMachine
  import opened LatePayment

  lemma OneMore(steps: seq<Step>, last: Step)
    ensures Run(Initial(SHOP), steps + [last]) == Next(Run(Initial(SHOP), steps), last)
  {
    assert (steps + [last])[..|steps|] == steps;
  }

  const HELD: seq<Step> := ALL_STEPS[..3]

  // ---- A dispute on an order that was never paid ----

  const DISPUTED: seq<Step> := HELD + [DisputeUpdate(0, false)]
  const LAPSED: seq<Step> := DISPUTED + [Tick(HOLD_SECONDS)]

  /** The order is disputed while it is pending; its hold runs out, is released with the others, and stays HELD. */
  lemma StrayDisputeKeepsItsHold()
    ensures StrayDispute(Run(Initial(SHOP), HELD), DisputeUpdate(0, false))
    ensures var s := Run(Initial(SHOP), LAPSED + [ReleaseHolds]);
            && |s.orders| == |s.holds| == 1 && s.orders[0].status == Disputed
            && s.holds[0].status == Held && s.holds[0].expiresAt <= s.now
  {
    HoldingSteps();
    OneMore(HELD, DisputeUpdate(0, false));
    OneMore(DISPUTED, Tick(HOLD_SECONDS));
    OneMore(LAPSED, ReleaseHolds);
    DisputedThenLapsed(AFTER_HOLD);
  }

  lemma DisputedThenLapsed(s: State)
    requires s == AFTER_HOLD
    ensures StrayDispute(s, DisputeUpdate(0, false))
    ensures var t := Next(Next(Next(s, DisputeUpdate(0, false)), Tick(HOLD_SECONDS)), ReleaseHolds);
            && |t.orders| == |t.holds| == 1 && t.orders[0].status == Disputed
            && t.holds[0].status == Held && t.holds[0].expiresAt <= t.now
  {
    NothingToExpire(Next(Next(s, DisputeUpdate(0, false)), Tick(HOLD_SECONDS)));
  }

  lemma NothingToExpire(s: State)
    requires |s.orders| == |s.holds| && forall i :: 0 <= i < |s.orders| ==> s.orders[i].status != Pending
    ensures var t := ReleaseExpiredHolds(s); t.orders == s.orders && t.holds == s.holds && t.now == s.now
  {
    ExpireAllExactly(s, ExpiredHolds(s, |s.holds|));
  }

  // ---- The same answer after the payment ----

  const PAID: seq<Step> := HELD + [PaySucceeded(0)]

  lemma PaysOnce(s: State)
    requires s == AFTER_HOLD
    ensures var t := Next(s, PaySucceeded(0));
            && t.setup == SHOP && t.roster.registrations == [Row(0, Paid), Row(1, AwaitingPayment)]
            && |t.orders| == 1 && t.orders[0].status == OrderPaid
  {
  }

  lemma AnswersAgain(s: State)
    requires s.setup == SHOP && s.roster.registrations == [Row(0, Paid), Row(1, AwaitingPayment)]
    ensures var t := Next(s, Respond(Asks(0)));
            t.orders == s.orders && t.roster.registrations == [Row(0, AwaitingPayment), Row(1, AwaitingPayment)]
  {
    var r := s.roster;
    assert 'a' in ANN.firstName && 'n' in ANN.lastName;
    assert r.registrations[..1] == [Row(0, Paid)] && r.registrations[..1][..0] == [];
    assert FindRegistration(r.registrations[..1], 0, 0) == Some(0);
    assert FindRegistration(r.registrations, 0, 0) == Some(0);
    assert WhyRefused(SHOP.occurrences, r, Asks(0)).None?;
  }

  /** A buyer pays and gives the same answer once more: the order is paid, and the registration awaits payment. */
  lemma PaidAndAwaitingPayment()
    ensures var s, t := Run(Initial(SHOP), PAID), Run(Initial(SHOP), PAID + [Respond(Asks(0))]);
            && |s.roster.registrations| == |t.roster.registrations| == 2 && |t.orders| == 1
            && s.roster.registrations[0].payment == Paid
            && t.roster.registrations[0] == s.roster.registrations[0].(payment := AwaitingPayment)
            && t.orders[0].status == OrderPaid
  {
    HoldingSteps();
    OneMore(HELD, PaySucceeded(0));
    OneMore(PAID, Respond(Asks(0)));
    PaysOnce(AFTER_HOLD);
    AnswersAgain(Next(AFTER_HOLD, PaySucceeded(0)));
  }
}
