/** Ticket inventory over whole runs: what is sold or held never exceeds what is on sale, except by late payments. */
module Inventory {
  import opened Wrappers
  import opened Sums
  import opened Registrations
  import opened Commerce
  import opened CommerceTables

  /** What one order claims of a ticket type: its quantity once settled, and again while its hold is live. */
  function ClaimOf(s: State, ticketType: nat): nat -> int {
    (i: nat) => SoldOf(s, ticketType)(i) + HeldOf(s, ticketType)(i)
  }

  function Claimed(s: State, ticketType: nat): int {
    Sold(s, ticketType) + HeldNow(s, ticketType)
  }

  function Quantity(setup: Setup, ticketType: nat): nat {
    if ticketType < |setup.ticketTypes| then setup.ticketTypes[ticketType].quantity else 0
  }

  /**
    The quantity a step settles without a live hold to convert: a payment that arrives after its
    hold was released or ran out, or a dispute on an order that was never paid.
    */
  function Slip(s: State, step: Step, ticketType: nat): nat {
    match step
    case PaySucceeded(o) =>
      if o < |s.orders| && o < |s.lines| && o < |s.holds| && s.lines[o].ticketType == ticketType
         && !Settled(s.orders[o].status) && !Live(s.holds[o], s.now)
      then s.lines[o].quantity else 0
    case DisputeUpdate(o, _) =>
      if o < |s.orders| && o < |s.lines| && s.lines[o].ticketType == ticketType && !Settled(s.orders[o].status)
      then s.lines[o].quantity else 0
    case _ => 0
  }

  function TotalSlip(s: State, steps: seq<Step>, ticketType: nat): nat {
    if steps == [] then 0
    else
      var earlier := steps[..|steps| - 1];
      TotalSlip(s, earlier, ticketType) + Slip(Run(s, earlier), steps[|steps| - 1], ticketType)
  }

  // ---- One order at a time ----

  lemma ClaimsSum(s: State, ticketType: nat)
    requires |s.orders| == |s.lines| == |s.holds|
    ensures Claimed(s, ticketType) == Sum(ClaimOf(s, ticketType), |s.orders|)
  {
    SumOfTwo(SoldOf(s, ticketType), HeldOf(s, ticketType), ClaimOf(s, ticketType), |s.orders|);
  }

  /** A step that changes one order's row moves the total by that order's claim. */
  lemma OneOrderMoves(s: State, t: State, ticketType: nat, o: nat)
    requires Tables(s) && Tables(t) && o < |s.orders| == |t.orders| && t.lines == s.lines && t.now == s.now
    requires forall i: nat :: i < |s.orders| && i != o ==> t.orders[i] == s.orders[i] && t.holds[i] == s.holds[i]
    ensures Claimed(t, ticketType)
            == Claimed(s, ticketType) - ClaimOf(s, ticketType)(o) + ClaimOf(t, ticketType)(o)
  {
    ClaimsSum(s, ticketType);
    ClaimsSum(t, ticketType);
    SumOneChange(ClaimOf(s, ticketType), ClaimOf(t, ticketType), |s.orders|, o);
  }

  lemma FailReleases(s: State, o: nat, expired: bool, ticketType: nat)
    requires Tables(s)
    ensures Claimed(FailOrder(s, o, expired), ticketType) <= Claimed(s, ticketType)
  {
    var t := FailOrder(s, o, expired);
    if t != s {
      FailOrderKeepsTables(s, o, expired);
      OneOrderMoves(s, t, ticketType, o);
    }
  }

  lemma {:induction false} ExpireAllReleases(s: State, ids: seq<nat>, ticketType: nat)
    requires Tables(s)
    ensures Claimed(ExpireAll(s, ids), ticketType) <= Claimed(s, ticketType)
  {
    if ids != [] {
      var earlier := ids[..|ids| - 1];
      ExpireAllReleases(s, earlier, ticketType);
      ExpireAllKeepsTables(s, earlier);
      FailReleases(ExpireAll(s, earlier), ids[|ids| - 1], true, ticketType);
    }
  }

  lemma PlacedOrderClaims(s: State, account: nat, g: nat, chosen: nat, ticketType: nat)
    requires Tables(s) && g < |s.roster.registrations| && chosen < |s.setup.ticketTypes|
    ensures Claimed(PlaceOrder(s, account, g, chosen), ticketType)
            == Claimed(s, ticketType) + if ticketType == chosen then PartySize(s, g) else 0
  {
    var t := PlaceOrder(s, account, g, chosen);
    SumEqual(SoldOf(s, ticketType), SoldOf(t, ticketType), |s.lines|);
    SumEqual(HeldOf(s, ticketType), HeldOf(t, ticketType), |s.holds|);
  }

  /** A placed order fits: it is what an accepted reservation guarantees its buyer. */
  lemma ReservationFits(s: State, account: Option<nat>, g: nat, chosen: nat)
    requires Tables(s) && RosterOk(s) && Reserve(s, account, g, chosen).Ok?
    ensures var t := Reserve(s, account, g, chosen).value;
            && Claimed(t, chosen) <= Quantity(s.setup, chosen)
            && forall other: nat :: other != chosen ==> Claimed(t, other) <= Claimed(s, other)
  {
    ReservationAcceptedExactly(s, account, g, chosen);
    var freed := Supersede(s, g);
    var pending := PendingOrderOf(s.orders, g);
    forall ticketType: nat
      ensures Claimed(freed, ticketType) <= Claimed(s, ticketType)
    {
      if pending.Some? {
        FailReleases(s, pending.value, true, ticketType);
      }
    }
    if pending.Some? {
      FailOrderKeepsTables(s, pending.value, true);
    }
    forall ticketType: nat
      ensures Claimed(Reserve(s, account, g, chosen).value, ticketType)
              == Claimed(freed, ticketType) + if ticketType == chosen then PartySize(freed, g) else 0
    {
      PlacedOrderClaims(freed, account.value, g, chosen, ticketType);
    }
  }

  lemma PlacedOrderLoads(s: State, account: nat, g: nat, chosen: nat, o: nat)
    requires Tables(s) && g < |s.roster.registrations| && chosen < |s.setup.ticketTypes|
    requires s.setup.ticketTypes[chosen].occurrence == o
    ensures OccurrenceLoad(PlaceOrder(s, account, g, chosen), o) == OccurrenceLoad(s, o) + PartySize(s, g)
  {
    var t := PlaceOrder(s, account, g, chosen);
    SumEqual(ConfirmedOf(s, o), ConfirmedOf(t, o), |t.roster.participants|);
    SumEqual(OccurrenceHeldOf(s, o), OccurrenceHeldOf(t, o), |s.holds|);
  }

  /** After an accepted reservation the occurrence's confirmed people and live holds are within its capacity. */
  lemma ReservationFitsOccurrence(s: State, account: Option<nat>, g: nat, chosen: nat)
    requires Tables(s) && RosterOk(s) && Reserve(s, account, g, chosen).Ok?
    ensures var t := Reserve(s, account, g, chosen).value;
            var o := s.roster.registrations[g].occurrence;
            s.setup.occurrences[o].capacity.Some? ==>
              OccurrenceLoad(t, o) <= s.setup.occurrences[o].capacity.value
  {
    var pending := PendingOrderOf(s.orders, g);
    if pending.Some? {
      FailOrderKeepsTables(s, pending.value, true);
    }
    PlacedOrderLoads(Supersede(s, g), account.value, g, chosen, s.roster.registrations[g].occurrence);
  }

  /** A reservation is accepted exactly when the whole party may buy and fits, once the party's older order is out of the way. */
  lemma ReservationAcceptedExactly(s: State, account: Option<nat>, g: nat, chosen: nat)
    requires Tables(s) && RosterOk(s) && g < |s.roster.registrations|
    ensures var freed, party := Supersede(s, g), PartySize(s, g);
            var o := s.roster.registrations[g].occurrence;
            Reserve(s, account, g, chosen).Ok? <==>
            && account.Some? && s.roster.registrations[g].payment == AwaitingPayment
            && chosen < |s.setup.ticketTypes| && s.setup.ticketTypes[chosen].occurrence == o
            && SalesAreOpen(s.setup.ticketTypes[chosen], s.now)
            && 1 <= party <= s.setup.ticketTypes[chosen].maxPerOrder
            && Claimed(freed, chosen) + party <= Quantity(s.setup, chosen)
            && (s.setup.occurrences[o].capacity.Some? ==>
                  OccurrenceLoad(freed, o) + party <= s.setup.occurrences[o].capacity.value)
  {
  }

  // ---- Every step ----

  lemma PayClaims(s: State, o: nat, ticketType: nat)
    requires Tables(s) && RosterOk(s)
    ensures Claimed(MarkPaid(s, o), ticketType)
            == Claimed(s, ticketType) + Slip(s, PaySucceeded(o), ticketType)
  {
    var t := MarkPaid(s, o);
    if t != s {
      MarkPaidKeepsTables(s, o);
      assert OrderRow(s, o);
      OneOrderMoves(s, t, ticketType, o);
    }
  }

  lemma DisputeClaims(s: State, o: nat, stands: bool, ticketType: nat)
    requires Tables(s)
    ensures Claimed(ApplyDispute(s, o, stands), ticketType)
            == Claimed(s, ticketType) + Slip(s, DisputeUpdate(o, stands), ticketType)
  {
    if o < |s.orders| {
      SmallStepKeepsTables(s, DisputeUpdate(o, stands));
      OneOrderMoves(s, ApplyDispute(s, o, stands), ticketType, o);
    }
  }

  lemma RefundClaims(s: State, r: nat, provider: Option<RefundStatus>, ticketType: nat)
    requires Tables(s) && RosterOk(s)
    ensures Claimed(ApplyRefund(s, r, provider), ticketType) == Claimed(s, ticketType)
  {
    var t := ApplyRefund(s, r, provider);
    if r < |s.refunds| {
      assert RefundRow(s, r);
      ApplyRefundKeepsTables(s, r, provider);
      OneOrderMoves(s, t, ticketType, s.refunds[r].order);
    }
  }

  lemma OtherClaims(s: State, step: Step, ticketType: nat)
    requires Tables(s)
    requires step.Tick? || step.Respond? || step.SessionUncertain? || step.RequestRefund?
             || step.RefundSubmissionFailed? || step.ChargeUpdate?
    ensures Claimed(Next(s, step), ticketType) <= Claimed(s, ticketType)
  {
    var t := Next(s, step);
    SumEqual(SoldOf(s, ticketType), SoldOf(t, ticketType), |s.lines|);
    SumAtMost(HeldOf(t, ticketType), HeldOf(s, ticketType), |s.holds|);
  }

  /** A step either leaves the type within its quantity or adds at most its slip; payments and disputes add exactly it. */
  lemma NextClaims(s: State, step: Step, ticketType: nat)
    requires Tables(s) && RosterOk(s)
    ensures var after := Claimed(Next(s, step), ticketType);
            && (after <= Claimed(s, ticketType) + Slip(s, step, ticketType) || after <= Quantity(s.setup, ticketType))
            && (step.PaySucceeded? || step.DisputeUpdate? ==>
                  after == Claimed(s, ticketType) + Slip(s, step, ticketType))
  {
    match step
    case ReserveOrder(account, g, chosen) =>
      if Reserve(s, account, g, chosen).Ok? {
        ReservationFits(s, account, g, chosen);
      }
    case PaySucceeded(o) => PayClaims(s, o, ticketType);
    case PayFailed(o, expired) => FailReleases(s, o, expired, ticketType);
    case ReleaseHolds => ExpireAllReleases(s, ExpiredHolds(s, |s.holds|), ticketType);
    case RefundUpdate(r, provider) => RefundClaims(s, r, provider, ticketType);
    case DisputeUpdate(o, stands) => DisputeClaims(s, o, stands, ticketType);
    case _ => OtherClaims(s, step, ticketType);
  }

  // ---- Every run ----

  /** Over every run: sold + live held <= quantity + everything settled without a live hold. */
  lemma {:induction false} OversellIsBounded(setup: Setup, steps: seq<Step>, ticketType: nat)
    ensures Claimed(Run(Initial(setup), steps), ticketType)
            <= Quantity(setup, ticketType) + TotalSlip(Initial(setup), steps, ticketType)
  {
    if steps != [] {
      var earlier := steps[..|steps| - 1];
      OversellIsBounded(setup, earlier, ticketType);
      RunKeepsTables(setup, earlier);
      NextClaims(Run(Initial(setup), earlier), steps[|steps| - 1], ticketType);
    }
  }

  /** Without late payments or disputes on unpaid orders the type never oversells. */
  lemma NeverOversells(setup: Setup, steps: seq<Step>, ticketType: nat)
    requires TotalSlip(Initial(setup), steps, ticketType) == 0
    ensures Claimed(Run(Initial(setup), steps), ticketType) <= Quantity(setup, ticketType)
  {
    OversellIsBounded(setup, steps, ticketType);
  }

  /** Exactly when a step takes a type past its quantity: it settles, without a live hold, more than remains. */
  lemma StepOversellsExactly(s: State, step: Step, ticketType: nat)
    requires Tables(s) && RosterOk(s) && Claimed(s, ticketType) <= Quantity(s.setup, ticketType)
    ensures Claimed(Next(s, step), ticketType) > Quantity(s.setup, ticketType) <==>
            Slip(s, step, ticketType) > Quantity(s.setup, ticketType) - Claimed(s, ticketType)
  {
    NextClaims(s, step, ticketType);
  }
}
