/** Tickets and order statuses against the money refunded, over whole runs. */
module TicketStatuses {
  import opened Wrappers
  import opened Registrations
  import opened Commerce
  import opened CommerceTables
  import opened RefundLedger
  import opened OrderMachine

  /** An order's refund statuses say how much of it was refunded; an order that never settled was not refunded. */
  ghost predicate MoneyRow(s: State, i: nat)
    requires i < |s.orders| == |s.lines|
  {
    var order := s.orders[i];
    && s.lines[i].unitAmount >= 1
    && (!Settled(order.status) ==> order.refunded == 0)
    && (order.status == FullyRefunded ==> order.refunded >= order.total)
    && (order.status == PartiallyRefunded ==> 0 < order.refunded < order.total)
  }

  /** A ticket is refunded exactly when its order's whole total was. */
  ghost predicate TicketRow(s: State, t: nat)
    requires t < |s.tickets|
  {
    var ticket := s.tickets[t];
    && ticket.order < |s.orders| && Settled(s.orders[ticket.order].status)
    && (ticket.status == TicketRefunded <==> s.orders[ticket.order].refunded >= s.orders[ticket.order].total)
  }

  ghost predicate Statuses(s: State) {
    && |s.orders| == |s.lines|
    && (forall i: nat :: i < |s.orders| ==> MoneyRow(s, i))
    && (forall t: nat :: t < |s.tickets| ==> TicketRow(s, t))
    && (forall r: nat :: r < |s.refunds| ==> s.refunds[r].amount >= 1)
  }

  predicate Priced(setup: Setup) {
    forall t :: 0 <= t < |setup.ticketTypes| ==> setup.ticketTypes[t].amount >= 1
  }

  lemma OrderTotalIsPositive(s: State, i: nat)
    requires Tables(s) && Statuses(s) && i < |s.orders|
    ensures s.orders[i].total >= 1
  {
    assert OrderRow(s, i) && MoneyRow(s, i);
  }

  /** Steps that keep tickets and every order's money, and move no order out of or into a refund status. */
  lemma QuietStep(s: State, t: State)
    requires Statuses(s) && |t.orders| == |t.lines| && |s.orders| <= |t.orders| && t.tickets == s.tickets
    requires forall i :: 0 <= i < |s.orders| ==>
                           && t.lines[i] == s.lines[i]
                           && t.orders[i].refunded == s.orders[i].refunded && t.orders[i].total == s.orders[i].total
                           && (Settled(s.orders[i].status) ==> Settled(t.orders[i].status))
                           && (t.orders[i].status in {FullyRefunded, PartiallyRefunded} ==>
                                 t.orders[i].status == s.orders[i].status)
    requires forall i :: |s.orders| <= i < |t.orders| ==>
                           t.orders[i].status == Pending && t.orders[i].refunded == 0 && t.lines[i].unitAmount >= 1
    requires forall r :: 0 <= r < |t.refunds| ==> t.refunds[r].amount >= 1
    ensures Statuses(t)
  {
    forall i: nat | i < |t.orders|
      ensures MoneyRow(t, i)
    {
      if i < |s.orders| {
        assert MoneyRow(s, i);
      }
    }
    forall k: nat | k < |t.tickets|
      ensures TicketRow(t, k)
    {
      assert TicketRow(s, k);
    }
  }

  lemma PayKeepsStatuses(s: State, o: nat)
    requires Tables(s) && Statuses(s) && OneTicketEach(s.tickets)
    ensures Statuses(MarkPaid(s, o))
  {
    if o < |s.orders| && !Settled(s.orders[o].status) {
      var t := MarkPaid(s, o);
      IssuedTickets(s.tickets, s.roster.participants, s.orders[o].registration, o, |s.roster.participants|);
      OrderTotalIsPositive(s, o);
      forall i: nat | i < |t.orders|
        ensures MoneyRow(t, i)
      {
        assert MoneyRow(s, i);
      }
      forall k: nat | k < |t.tickets|
        ensures TicketRow(t, k)
      {
        assert MoneyRow(s, o);
        if k < |s.tickets| {
          assert TicketRow(s, k);
          assert t.tickets[k] == s.tickets[k];
        }
      }
    }
  }

  lemma RefundKeepsStatuses(s: State, r: nat, provider: Option<RefundStatus>)
    requires Tables(s) && Statuses(s)
    ensures Statuses(ApplyRefund(s, r, provider))
  {
    var t := ApplyRefund(s, r, provider);
    if r < |s.refunds| {
      assert RefundRow(s, r);
      forall i: nat | i < |t.orders|
        ensures MoneyRow(t, i)
      {
        assert MoneyRow(s, i);
      }
      forall k: nat | k < |t.tickets|
        ensures TicketRow(t, k)
      {
        assert TicketRow(s, k);
      }
    }
  }

  lemma OtherStepKeepsStatuses(s: State, step: Step)
    requires Tables(s) && RosterOk(s) && Statuses(s) && Priced(s.setup)
    requires !step.PaySucceeded? && !step.RefundUpdate? && !step.ReleaseHolds? && !step.ReserveOrder?
    ensures Statuses(Next(s, step))
  {
    QuietStep(s, Next(s, step));
  }

  lemma ReserveKeepsStatuses(s: State, account: Option<nat>, g: nat, ticketType: nat)
    requires Tables(s) && Statuses(s) && Priced(s.setup) && Reserve(s, account, g, ticketType).Ok?
    ensures Statuses(Reserve(s, account, g, ticketType).value)
  {
    QuietStep(s, Supersede(s, g));
    QuietStep(Supersede(s, g), Reserve(s, account, g, ticketType).value);
  }

  lemma {:induction false} ExpireAllKeepsStatuses(s: State, ids: seq<nat>)
    requires Statuses(s)
    ensures Statuses(ExpireAll(s, ids))
  {
    if ids != [] {
      ExpireAllKeepsStatuses(s, ids[..|ids| - 1]);
      QuietStep(ExpireAll(s, ids[..|ids| - 1]), ExpireAll(s, ids));
    }
  }

  lemma NextKeepsStatuses(s: State, step: Step)
    requires Tables(s) && RosterOk(s) && Statuses(s) && OneTicketEach(s.tickets) && Priced(s.setup)
    ensures Statuses(Next(s, step))
  {
    match step
    case PaySucceeded(o) => PayKeepsStatuses(s, o);
    case RefundUpdate(r, provider) => RefundKeepsStatuses(s, r, provider);
    case ReleaseHolds => ExpireAllKeepsStatuses(s, ExpiredHolds(s, |s.holds|));
    case ReserveOrder(account, g, t) =>
      if Reserve(s, account, g, t).Ok? {
        ReserveKeepsStatuses(s, account, g, t);
      }
    case _ => OtherStepKeepsStatuses(s, step);
  }

  lemma {:induction false} RunKeepsStatuses(setup: Setup, steps: seq<Step>)
    requires Priced(setup)
    ensures Statuses(Run(Initial(setup), steps))
  {
    if steps != [] {
      var earlier := steps[..|steps| - 1];
      RunKeepsStatuses(setup, earlier);
      RunKeepsTables(setup, earlier);
      OnePendingAndOneTicket(setup, earlier);
      NextKeepsStatuses(Run(Initial(setup), earlier), steps[|steps| - 1]);
    }
  }

  /** On every run a ticket belongs to a settled order and is refunded exactly when that order's whole total was. */
  lemma TicketRefundedExactly(setup: Setup, steps: seq<Step>, t: nat)
    requires Priced(setup) && t < |Run(Initial(setup), steps).tickets|
    ensures var s := Run(Initial(setup), steps);
            var ticket := s.tickets[t];
            && ticket.order < |s.orders| && Settled(s.orders[ticket.order].status)
            && (ticket.status == TicketRefunded <==> s.orders[ticket.order].refunded >= s.orders[ticket.order].total)
  {
    RunKeepsStatuses(setup, steps);
    assert TicketRow(Run(Initial(setup), steps), t);
  }

  /** On every run the refund statuses of an order say how much of it was refunded. */
  lemma RefundStatusesAreExact(setup: Setup, steps: seq<Step>, i: nat)
    requires Priced(setup) && i < |Run(Initial(setup), steps).orders|
    ensures var order := Run(Initial(setup), steps).orders[i];
            && (!Settled(order.status) ==> order.refunded == 0)
            && (order.status == FullyRefunded ==> order.refunded >= order.total)
            && (order.status == PartiallyRefunded ==> 0 < order.refunded < order.total)
  {
    RunKeepsStatuses(setup, steps);
    RunKeepsTables(setup, steps);
    assert MoneyRow(Run(Initial(setup), steps), i);
  }

  // ---- The status, where no dispute wrote over it ----

  /** The status of a settled order is the one its refunded amount calls for. */
  predicate TellsRefunds(order: Order) {
    Settled(order.status) ==>
      order.status == if order.refunded >= order.total then FullyRefunded
                      else if order.refunded > 0 then PartiallyRefunded else OrderPaid
  }

  predicate Disputes(step: Step, i: nat) {
    step.DisputeUpdate? && step.order == i
  }

  lemma {:induction false} ExpireAllKeepsTelling(s: State, ids: seq<nat>, i: nat)
    requires i < |s.orders| && TellsRefunds(s.orders[i])
    ensures i < |ExpireAll(s, ids).orders| && TellsRefunds(ExpireAll(s, ids).orders[i])
  {
    if ids != [] {
      ExpireAllKeepsTelling(s, ids[..|ids| - 1], i);
    }
  }

  lemma PayKeepsTelling(s: State, o: nat, i: nat)
    requires Tables(s) && Statuses(s) && i < |s.orders| && TellsRefunds(s.orders[i])
    ensures i < |MarkPaid(s, o).orders| && TellsRefunds(MarkPaid(s, o).orders[i])
  {
    assert MoneyRow(s, i);
    OrderTotalIsPositive(s, i);
  }

  lemma NextKeepsTelling(s: State, step: Step, i: nat)
    requires Tables(s) && Statuses(s) && !Disputes(step, i)
    requires i < |s.orders| ==> TellsRefunds(s.orders[i])
    ensures i < |Next(s, step).orders| ==> TellsRefunds(Next(s, step).orders[i])
  {
    match step
    case PaySucceeded(o) =>
      if i < |s.orders| {
        PayKeepsTelling(s, o, i);
      }
    case RefundUpdate(r, provider) =>
    case ReleaseHolds =>
      if i < |s.orders| {
        ExpireAllKeepsTelling(s, ExpiredHolds(s, |s.holds|), i);
      }
      ExpireAllIsQuiet(s, ExpiredHolds(s, |s.holds|));
    case ReserveOrder(account, g, t) =>
    case _ =>
  }

  /** On a run that reports no dispute on it, a settled order is PAID, PARTIALLY_REFUNDED or REFUNDED exactly as its refunded amount says. */
  lemma {:induction false} UndisputedStatusIsExact(setup: Setup, steps: seq<Step>, i: nat)
    requires Priced(setup) && forall k :: 0 <= k < |steps| ==> !Disputes(steps[k], i)
    ensures i < |Run(Initial(setup), steps).orders| ==> TellsRefunds(Run(Initial(setup), steps).orders[i])
  {
    if steps != [] {
      var earlier := steps[..|steps| - 1];
      UndisputedStatusIsExact(setup, earlier, i);
      RunKeepsStatuses(setup, earlier);
      RunKeepsTables(setup, earlier);
      NextKeepsTelling(Run(Initial(setup), earlier), steps[|steps| - 1], i);
    }
  }

  /** An accepted reservation: the party's older order has expired, and the new one holds a place for everyone for half an hour. */
  lemma ReservationIsForTheParty(s: State, account: Option<nat>, g: nat, ticketType: nat, later: nat)
    requires Tables(s) && RosterOk(s) && Reserve(s, account, g, ticketType).Ok?
    ensures var t := Reserve(s, account, g, ticketType).value;
            var n := |s.orders|;
            && |t.orders| == n + 1 && t.orders[n].status == Pending
            && t.orders[n].registration == g && Some(t.orders[n].account) == account
            && t.lines[n].ticketType == ticketType
            && t.lines[n].quantity == |ActiveParty(s.roster.participants, g)|
            && (Live(t.holds[n], later) <==> later < s.now + 1800)
            && (PendingOrderOf(s.orders, g).Some? ==> t.orders[PendingOrderOf(s.orders, g).value].status == Expired)
  {
  }
}
