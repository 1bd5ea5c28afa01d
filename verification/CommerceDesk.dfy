/** The in-place operations of payments/services.py, each proved against its step in `Commerce`. */
module CommerceDesk {
  import opened Wrappers
  import opened Fees
  import opened Registrations
  import opened Commerce
  import opened ConnectEvents
  import opened Inbox

  class Desk {
    const setup: Setup
    var now: nat
    var roster: Roster
    var orders: seq<Order>
    var lines: seq<OrderLine>
    var holds: seq<Hold>
    var tickets: seq<Ticket>
    var refunds: seq<Refund>
    var history: seq<Transition>

    constructor (setup: Setup)
      ensures this.setup == setup && Snapshot() == Initial(setup)
    {
      this.setup := setup;
      now, roster := 0, EMPTY;
      orders, lines, holds, tickets, refunds, history := [], [], [], [], [], [];
    }

    function Snapshot(): State
      reads this
    {
      State(setup, now, roster, orders, lines, holds, tickets, refunds, history)
    }

    method FailOrder(o: nat, expired: bool)
      requires o < |orders| == |holds|
      modifies this`orders, this`holds, this`history
      ensures Snapshot() == Commerce.FailOrder(old(Snapshot()), o, expired)
    {
      if orders[o].status != Pending {
        return;
      }
      var previous := orders[o].status;
      var status := if expired then Expired else OrderFailed;
      orders := orders[o := orders[o].(status := status)];
      if holds[o].status == Held {
        holds := holds[o := holds[o].(status := Released)];
      }
      history := history + [OrderMoved(o, Some(previous), status)];
    }

    method ReserveTicketOrder(account: Option<nat>, registration: nat, ticketType: nat)
      returns (outcome: Result<nat, CommerceError>)
      requires |orders| == |holds|
      modifies this`orders, this`lines, this`holds, this`history
      ensures match Reserve(old(Snapshot()), account, registration, ticketType)
              case Ok(after) => Snapshot() == after && outcome == Ok(|after.orders| - 1)
              case Err(e) => Snapshot() == old(Snapshot()) && outcome == Err(e)
    {
      if account.None? {
        return Err(CommerceNotReady);
      }
      if registration >= |roster.registrations| {
        return Err(NotFound);
      }
      if roster.registrations[registration].payment != AwaitingPayment {
        return Err(NotAwaitingPayment);
      }
      var keptOrders, keptHolds, keptHistory := orders, holds, history;
      var pending := PendingOrderOf(orders, registration);
      if pending.Some? {
        FailOrder(pending.value, true);
      }
      var error := PlacementError(Snapshot(), registration, ticketType);
      if error.Some? {
        // the transaction is rolled back
        orders, holds, history := keptOrders, keptHolds, keptHistory;
        return Err(error.value);
      }
      outcome := Ok(|orders|);
      CreateOrder(account.value, registration, ticketType);
    }

    method CreateOrder(account: nat, registration: nat, ticketType: nat)
      requires registration < |roster.registrations| && ticketType < |setup.ticketTypes|
      modifies this`orders, this`lines, this`holds, this`history
      ensures Snapshot() == PlaceOrder(old(Snapshot()), account, registration, ticketType)
    {
      var quantity := PartySize(Snapshot(), registration);
      var amount := setup.ticketTypes[ticketType].amount;
      var order := NewOrder(Snapshot(), account, registration, amount);
      history := history + [OrderMoved(|orders|, None, Pending)];
      orders := orders + [order];
      lines := lines + [OrderLine(ticketType, amount, quantity, amount * quantity)];
      holds := holds + [Hold(ticketType, quantity, Held, now + HOLD_SECONDS)];
    }

    method MarkOrderPaid(o: nat)
      requires o < |orders| == |holds|
      modifies this`orders, this`holds, this`roster, this`tickets, this`history
      ensures Snapshot() == MarkPaid(old(Snapshot()), o)
    {
      var order := orders[o];
      if Settled(order.status) {
        return;
      }
      orders := orders[o := order.(
        status := OrderPaid, paidAt := if order.paidAt.Some? then order.paidAt else Some(now))];
      holds := holds[o := holds[o].(status := Converted)];
      var people := roster.participants;
      roster := SetPayment(roster, order.registration, Paid);
      for p := 0 to |people|
        modifies this`tickets
        invariant tickets == IssueTickets(old(tickets), people, order.registration, o, p)
      {
        if people[p].active && people[p].registration == order.registration && !HasTicket(tickets, p) {
          tickets := tickets + [Ticket(o, p, Valid)];
        }
      }
      history := history + [OrderMoved(o, Some(order.status), OrderPaid)];
    }

    method ReleaseExpiredHolds() returns (count: nat)
      requires |orders| == |holds|
      modifies this`orders, this`holds, this`history
      ensures Snapshot() == Commerce.ReleaseExpiredHolds(old(Snapshot()))
      ensures count == |ExpiredHolds(old(Snapshot()), |old(holds)|)|
    {
      var ids: seq<nat> := [];
      for i := 0 to |holds|
        invariant ids == ExpiredHolds(Snapshot(), i)
      {
        if holds[i].status == Held && holds[i].expiresAt <= now {
          ids := ids + [i];
        }
      }
      for k := 0 to |ids|
        invariant |orders| == |holds| == |old(holds)|
        invariant Snapshot() == ExpireAll(old(Snapshot()), ids[..k])
      {
        FailOrder(ids[k], true);
        assert ids[..k + 1][..k] == ids[..k];
      }
      assert ids[..|ids|] == ids;
      count := |ids|;
    }

    method PrepareRefund(o: nat, amount: int) returns (outcome: Result<nat, CommerceError>)
      modifies this`refunds, this`history
      ensures match Commerce.PrepareRefund(old(Snapshot()), o, amount)
              case Ok(after) => Snapshot() == after && outcome == Ok(|after.refunds| - 1)
              case Err(e) => Snapshot() == old(Snapshot()) && outcome == Err(e)
    {
      if o >= |orders| {
        return Err(NotFound);
      }
      if orders[o].status !in {OrderPaid, PartiallyRefunded, Disputed} {
        return Err(NotRefundable);
      }
      if amount < 1 || amount > orders[o].total - orders[o].refunded {
        return Err(OutsideRefundableBalance);
      }
      outcome := Ok(|refunds|);
      history := history + [RefundMoved(o, |refunds|, None, RefundPending, None)];
      refunds := refunds + [Refund(o, amount, RefundPending, None)];
    }

    method FailRefundSubmission(r: nat)
      requires r < |refunds|
      modifies this`refunds, this`history
      ensures Snapshot() == FailSubmission(old(Snapshot()), r)
    {
      refunds := refunds[r := refunds[r].(status := RefundFailed)];
      history := history + [RefundMoved(refunds[r].order, r, Some(RefundPending), RefundFailed, None)];
    }

    method ApplyRefundObject(r: nat, provider: Option<RefundStatus>)
      requires r < |refunds| && refunds[r].order < |orders|
      modifies this`refunds, this`orders, this`tickets, this`roster, this`history
      ensures Snapshot() == ApplyRefund(old(Snapshot()), r, provider)
    {
      var refund := refunds[r];
      var o := refund.order;
      var order := orders[o];
      var previous := refund.status;
      refund := refund.(status := if provider.Some? then provider.value else previous);
      if refund.status == RefundSucceeded && previous != RefundSucceeded {
        refund := refund.(succeededAt := Some(now));
        order := order.(refunded := order.refunded + refund.amount);
        order := order.(feeRefunded := ProportionalFeeRefund(order.fee, order.refunded, order.total));
        if order.refunded >= order.total {
          order := order.(status := FullyRefunded);
          tickets := RefundTickets(tickets, o);
          roster := SetPayment(roster, order.registration, Refunded);
        } else {
          order := order.(status := PartiallyRefunded);
        }
        orders := orders[o := order];
      }
      refunds := refunds[r := refund];
      if previous != refund.status {
        history := history + [RefundMoved(o, r, Some(previous), refund.status, Some(order.status))];
      }
    }

    method ApplyDispute(o: nat, stands: bool)
      requires o < |orders|
      modifies this`orders, this`history
      ensures Snapshot() == Commerce.ApplyDispute(old(Snapshot()), o, stands)
    {
      var previous := orders[o].status;
      var status := if stands then OrderPaid else Disputed;
      orders := orders[o := orders[o].(status := status)];
      history := history + [OrderMoved(o, Some(previous), status)];
    }

    method ApplyCharge(o: nat, totalFee: nat, applicationFee: nat)
      requires o < |orders|
      modifies this`orders
      ensures Snapshot() == Commerce.ApplyCharge(old(Snapshot()), o, totalFee, applicationFee)
    {
      orders := orders[o := orders[o].(stripeFee := Some(Max(0, totalFee - applicationFee)))];
    }

    /** Carries out the step an event was dispatched to. */
    method Perform(step: Step)
      requires |orders| == |holds|
      requires step.PaySucceeded? || step.PayFailed? || step.RefundUpdate? || step.DisputeUpdate? || step.ChargeUpdate?
      requires step.PaySucceeded? ==> step.order < |orders|
      requires step.PayFailed? ==> step.order < |orders|
      requires step.DisputeUpdate? ==> step.order < |orders|
      requires step.ChargeUpdate? ==> step.order < |orders|
      requires step.RefundUpdate? ==> step.refund < |refunds| && refunds[step.refund].order < |orders|
      modifies this
      ensures Snapshot() == Next(old(Snapshot()), step)
    {
      match step
      case PaySucceeded(o) => MarkOrderPaid(o);
      case PayFailed(o, expired) => FailOrder(o, expired);
      case RefundUpdate(r, provider) => ApplyRefundObject(r, provider);
      case DisputeUpdate(o, stands) => ApplyDispute(o, stands);
      case ChargeUpdate(o, totalFee, applicationFee) => ApplyCharge(o, totalFee, applicationFee);
    }

    /** `_apply_connect_event`: raises, changing nothing, on an account mismatch. */
    method HandleEvent(e: ConnectEvent) returns (raised: bool)
      requires Shaped(Snapshot())
      modifies this
      ensures Shaped(Snapshot())
      ensures match HANDLER(old(Snapshot()), e)
              case Ok(after) => !raised && Snapshot() == after
              case Err(_) => raised && Snapshot() == old(Snapshot())
    {
      var step := StepFor(Snapshot(), e);
      assert HANDLER(Snapshot(), e) == Apply(Snapshot(), e);
      if step.Err? {
        return true;
      }
      if step.value.Some? {
        EventStepKeepsShape(Snapshot(), step.value.value);
        Perform(step.value.value);
      }
      raised := false;
    }
  }

  /** The ids, among the inbox rows in order of receipt, that a retry picks up. */
  function FailedIds(rows: map<nat, Row>, received: seq<nat>, limit: nat): seq<nat> {
    if received == [] || limit == 0 then []
    else if RowOf(rows, received[0]).status == Failed
    then [received[0]] + FailedIds(rows, received[1..], limit - 1)
    else FailedIds(rows, received[1..], limit)
  }

  /** One delivery for each id whose event can be fetched again. */
  function Redeliveries(ids: seq<nat>, fetched: map<nat, ConnectEvent>, interrupted: set<nat>): seq<Delivery<ConnectEvent>> {
    if ids == [] then []
    else
      var last := ids[|ids| - 1];
      Redeliveries(ids[..|ids| - 1], fetched, interrupted)
      + if last in fetched then [Delivery(last, fetched[last], last in interrupted)] else []
  }

  lemma RedeliveriesOneMore(ids: seq<nat>, k: nat, fetched: map<nat, ConnectEvent>, interrupted: set<nat>)
    requires k < |ids|
    ensures Redeliveries(ids[..k + 1], fetched, interrupted)
            == if ids[k] in fetched
               then Redeliveries(ids[..k], fetched, interrupted) + [Delivery(ids[k], fetched[ids[k]], ids[k] in interrupted)]
               else Redeliveries(ids[..k], fetched, interrupted)
  {
    assert ids[..k + 1][..k] == ids[..k];
  }

  /** The Connect webhook endpoint: the inbox rows beside the commerce tables they guard. */
  class Webhooks {
    const desk: Desk
    var rows: map<nat, Row>
    var received: seq<nat>

    constructor (desk: Desk)
      ensures this.desk == desk && rows == map[] && received == []
    {
      this.desk := desk;
      rows, received := map[], [];
    }

    function Contents(): Box<State>
      reads this, desk
    {
      Box(desk.Snapshot(), rows)
    }

    ghost predicate Valid()
      reads this, desk
    {
      Shaped(desk.Snapshot())
    }

    method ProcessConnectEvent(id: nat, e: ConnectEvent, interrupted: bool) returns (raised: bool)
      requires Valid()
      modifies this, desk
      ensures Valid()
      ensures Contents() == Process(HANDLER, old(Contents()), Delivery(id, e, interrupted))
      ensures raised <==> RowOf(rows, id).status != Processed
      ensures received == if id in old(rows) then old(received) else old(received) + [id]
    {
      raised := false;
      if id !in rows {
        received := received + [id];
      }
      var inbox := RowOf(rows, id);
      if inbox.status == Processed {
        return;
      }
      raised := true;
      if !interrupted {
        raised := desk.HandleEvent(e);
      }
      rows := rows[id := Row(if raised then Failed else Processed, inbox.attempts + 1)];
    }

    /** Tries failed events again, oldest first; an event that cannot be fetched counts as an error. */
    method RetryFailed(limit: nat, fetched: map<nat, ConnectEvent>, interrupted: set<nat>)
      returns (retried: nat, errors: nat)
      requires Valid()
      modifies this, desk
      ensures Valid()
      ensures Contents() == ProcessAll(HANDLER, old(Contents()),
                                       Redeliveries(FailedIds(old(rows), old(received), limit), fetched, interrupted))
      ensures retried == Successes(HANDLER, old(Contents()),
                                   Redeliveries(FailedIds(old(rows), old(received), limit), fetched, interrupted))
      ensures retried + errors == |FailedIds(old(rows), old(received), limit)|
    {
      var ids := FailedIds(rows, received, limit);
      retried, errors := 0, 0;
      for k := 0 to |ids|
        invariant Valid() && retried + errors == k
        invariant Contents() == ProcessAll(HANDLER, old(Contents()), Redeliveries(ids[..k], fetched, interrupted))
        invariant retried == Successes(HANDLER, old(Contents()), Redeliveries(ids[..k], fetched, interrupted))
      {
        RedeliveriesOneMore(ids, k, fetched, interrupted);
        if ids[k] in fetched {
          var raised := ProcessConnectEvent(ids[k], fetched[ids[k]], ids[k] in interrupted);
          ProcessOneMore(HANDLER, old(Contents()), Redeliveries(ids[..k], fetched, interrupted),
                         Delivery(ids[k], fetched[ids[k]], ids[k] in interrupted));
          SuccessesOneMore(HANDLER, old(Contents()), Redeliveries(ids[..k], fetched, interrupted),
                           Delivery(ids[k], fetched[ids[k]], ids[k] in interrupted));
          if raised {
            errors := errors + 1;
          } else {
            retried := retried + 1;
          }
        } else {
          errors := errors + 1;
        }
      }
      assert ids[..|ids|] == ids;
    }
  }
}
