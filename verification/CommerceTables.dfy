/** What every commerce run keeps about the tables themselves: rows agree with each other and refer to rows that exist. */
module CommerceTables {
  import opened Wrappers
  import opened Sums
  import opened Fees
  import opened Registrations
  import opened Commerce

  /** An order, its line and its hold agree, and its registration is for a ticketed occurrence. */
  ghost predicate OrderRow(s: State, i: nat)
    requires i < |s.orders| == |s.lines| == |s.holds|
  {
    var order, line, hold := s.orders[i], s.lines[i], s.holds[i];
    && line.ticketType == hold.ticketType < |s.setup.ticketTypes|
    && s.setup.ticketTypes[line.ticketType].occurrence == order.occurrence
    && line.quantity == hold.quantity >= 1
    && order.total == line.lineTotal == line.unitAmount * line.quantity
    && order.fee == TicketApplicationFee(order.total, s.setup.feeBps)
    && order.registration < |s.roster.registrations|
    && order.occurrence == s.roster.registrations[order.registration].occurrence
    && order.occurrence < |s.setup.occurrences|
    && s.setup.occurrences[order.occurrence].ticketed
  }

  ghost predicate RefundRow(s: State, r: nat)
    requires r < |s.refunds|
  {
    s.refunds[r].order < |s.orders| && Settled(s.orders[s.refunds[r].order].status)
  }

  ghost predicate Tables(s: State) {
    && |s.orders| == |s.lines| == |s.holds|
    && (forall i: nat :: i < |s.orders| ==> OrderRow(s, i))
    && (forall r: nat :: r < |s.refunds| ==> RefundRow(s, r))
  }

  ghost predicate RosterOk(s: State) {
    Consistent(s.setup.occurrences, s.roster) && HistoryKnown(s.roster)
  }

  // ---- The roster under payment changes ----

  lemma SetPaymentKeepsConsistent(occurrences: seq<Occurrence>, r: Roster, g: nat, payment: PaymentStatus)
    requires Consistent(occurrences, r) && HistoryKnown(r)
    requires g < |r.registrations| && occurrences[r.registrations[g].occurrence].ticketed
    ensures Consistent(occurrences, SetPayment(r, g, payment)) && HistoryKnown(SetPayment(r, g, payment))
  {
    var after := SetPayment(r, g, payment);
    assert References(occurrences, after);
    forall h: nat | h < |after.registrations|
      ensures ShapedAt(occurrences, after, h)
    {
      assert ShapedAt(occurrences, r, h);
    }
    forall o: nat | o < |occurrences| && !occurrences[o].ticketed && occurrences[o].capacity.Some?
      ensures SpotsTaken(after, o, None) <= occurrences[o].capacity.value
    {
      SumEqual(SpotOf(r, o, None), SpotOf(after, o, None), |r.participants|);
    }
  }

  // ---- Every operation keeps the tables ----

  lemma FailOrderKeepsTables(s: State, o: nat, expired: bool)
    requires Tables(s)
    ensures Tables(FailOrder(s, o, expired))
  {
    var t := FailOrder(s, o, expired);
    forall i: nat | i < |t.orders|
      ensures OrderRow(t, i)
    {
      assert OrderRow(s, i);
    }
    forall r: nat | r < |t.refunds|
      ensures RefundRow(t, r)
    {
      assert RefundRow(s, r);
    }
  }

  lemma {:induction false} ExpireAllKeepsTables(s: State, ids: seq<nat>)
    requires Tables(s)
    ensures Tables(ExpireAll(s, ids))
  {
    if ids != [] {
      ExpireAllKeepsTables(s, ids[..|ids| - 1]);
      FailOrderKeepsTables(ExpireAll(s, ids[..|ids| - 1]), ids[|ids| - 1], true);
    }
  }

  lemma ReserveKeepsTables(s: State, account: Option<nat>, g: nat, ticketType: nat)
    requires Tables(s) && RosterOk(s) && Reserve(s, account, g, ticketType).Ok?
    ensures Tables(Reserve(s, account, g, ticketType).value)
  {
    var freed := Supersede(s, g);
    assert Tables(freed) by {
      var pending := PendingOrderOf(s.orders, g);
      if pending.Some? {
        FailOrderKeepsTables(s, pending.value, true);
      }
    }
    PlaceOrderKeepsTables(freed, account.value, g, ticketType);
  }

  lemma PlaceOrderKeepsTables(s: State, account: nat, g: nat, ticketType: nat)
    requires Tables(s) && RosterOk(s) && g < |s.roster.registrations|
    requires s.roster.registrations[g].payment == AwaitingPayment
    requires PlacementError(s, g, ticketType).None?
    ensures Tables(PlaceOrder(s, account, g, ticketType))
  {
    var t := PlaceOrder(s, account, g, ticketType);
    forall i: nat | i < |t.orders|
      ensures OrderRow(t, i)
    {
      if i < |s.orders| {
        assert OrderRow(s, i);
      }
    }
    forall r: nat | r < |t.refunds|
      ensures RefundRow(t, r)
    {
      assert RefundRow(s, r);
    }
  }

  lemma MarkPaidKeepsTables(s: State, o: nat)
    requires Tables(s) && RosterOk(s)
    ensures Tables(MarkPaid(s, o)) && RosterOk(MarkPaid(s, o))
  {
    var t := MarkPaid(s, o);
    if t != s {
      assert OrderRow(s, o);
      SetPaymentKeepsConsistent(s.setup.occurrences, s.roster, s.orders[o].registration, Paid);
    }
    forall i: nat | i < |t.orders|
      ensures OrderRow(t, i)
    {
      assert OrderRow(s, i);
    }
    forall r: nat | r < |t.refunds|
      ensures RefundRow(t, r)
    {
      assert RefundRow(s, r);
    }
  }

  lemma ApplyRefundKeepsTables(s: State, r: nat, provider: Option<RefundStatus>)
    requires Tables(s) && RosterOk(s)
    ensures Tables(ApplyRefund(s, r, provider)) && RosterOk(ApplyRefund(s, r, provider))
  {
    var t := ApplyRefund(s, r, provider);
    if t.roster != s.roster {
      assert OrderRow(s, s.refunds[r].order);
      SetPaymentKeepsConsistent(s.setup.occurrences, s.roster, s.orders[s.refunds[r].order].registration, Refunded);
    }
    forall i: nat | i < |t.orders|
      ensures OrderRow(t, i)
    {
      assert OrderRow(s, i);
    }
    forall q: nat | q < |t.refunds|
      ensures RefundRow(t, q)
    {
      assert RefundRow(s, q);
    }
  }

  /** Steps that touch neither the roster nor which orders are settled. */
  lemma SmallStepKeepsTables(s: State, step: Step)
    requires Tables(s)
    requires step.Tick? || step.SessionUncertain? || step.RequestRefund? || step.RefundSubmissionFailed?
             || step.DisputeUpdate? || step.ChargeUpdate?
    ensures Tables(Next(s, step))
  {
    var t := Next(s, step);
    forall i: nat | i < |t.orders|
      ensures OrderRow(t, i)
    {
      assert OrderRow(s, i);
    }
    forall r: nat | r < |t.refunds|
      ensures RefundRow(t, r)
    {
      if r < |s.refunds| {
        assert RefundRow(s, r);
      }
    }
  }

  lemma RespondKeepsTables(s: State, q: Request)
    requires Tables(s) && RosterOk(s)
    ensures Tables(Next(s, Respond(q))) && RosterOk(Next(s, Respond(q)))
  {
    var t := Next(s, Respond(q));
    if SaveResponse(s.setup.occurrences, s.roster, q).Ok? {
      SaveResponseKeepsConsistent(s.setup.occurrences, s.roster, q);
      forall i: nat | i < |t.orders|
        ensures OrderRow(t, i)
      {
        assert OrderRow(s, i);
      }
      forall r: nat | r < |t.refunds|
        ensures RefundRow(t, r)
      {
        assert RefundRow(s, r);
      }
    }
  }

  lemma {:induction false} ExpireAllKeepsRest(s: State, ids: seq<nat>)
    ensures var t := ExpireAll(s, ids);
            t == s.(orders := t.orders, holds := t.holds, history := t.history)
  {
    if ids != [] {
      ExpireAllKeepsRest(s, ids[..|ids| - 1]);
    }
  }

  lemma NextKeepsTables(s: State, step: Step)
    requires Tables(s) && RosterOk(s)
    ensures Tables(Next(s, step)) && RosterOk(Next(s, step)) && Next(s, step).setup == s.setup
  {
    match step
    case Respond(q) => RespondKeepsTables(s, q);
    case ReserveOrder(account, g, t) =>
      if Reserve(s, account, g, t).Ok? {
        ReserveKeepsTables(s, account, g, t);
      }
    case PaySucceeded(o) => MarkPaidKeepsTables(s, o);
    case PayFailed(o, expired) => FailOrderKeepsTables(s, o, expired);
    case ReleaseHolds =>
      ExpireAllKeepsTables(s, ExpiredHolds(s, |s.holds|));
      ExpireAllKeepsRest(s, ExpiredHolds(s, |s.holds|));
    case RefundUpdate(r, provider) => ApplyRefundKeepsTables(s, r, provider);
    case _ => SmallStepKeepsTables(s, step);
  }

  /** In every reachable state the tables agree and the roster is consistent, payments included. */
  lemma {:induction false} RunKeepsTables(setup: Setup, steps: seq<Step>)
    ensures var s := Run(Initial(setup), steps);
            Tables(s) && RosterOk(s) && s.setup == setup
  {
    if steps != [] {
      RunKeepsTables(setup, steps[..|steps| - 1]);
      NextKeepsTables(Run(Initial(setup), steps[..|steps| - 1]), steps[|steps| - 1]);
    }
  }

  // ---- Settled orders ----

  lemma {:induction false} ExpireAllKeepsSettled(s: State, ids: seq<nat>, i: nat)
    requires i < |s.orders|
    ensures |ExpireAll(s, ids).orders| == |s.orders|
    ensures Settled(s.orders[i].status) ==> ExpireAll(s, ids).orders[i] == s.orders[i]
  {
    if ids != [] {
      ExpireAllKeepsSettled(s, ids[..|ids| - 1], i);
    }
  }

  lemma NextKeepsSettled(s: State, step: Step, i: nat)
    requires i < |s.orders| && Settled(s.orders[i].status)
    ensures |s.orders| <= |Next(s, step).orders| && Settled(Next(s, step).orders[i].status)
  {
    match step
    case ReleaseHolds => ExpireAllKeepsSettled(s, ExpiredHolds(s, |s.holds|), i);
    case ReserveOrder(account, g, t) =>
    case Respond(_) =>
    case _ =>
  }

  /** A settled order is settled for ever, whatever happens next. */
  lemma {:induction false} SettledForever(s: State, steps: seq<Step>, i: nat)
    requires i < |s.orders| && Settled(s.orders[i].status)
    ensures i < |Run(s, steps).orders| && Settled(Run(s, steps).orders[i].status)
  {
    if steps != [] {
      SettledForever(s, steps[..|steps| - 1], i);
      NextKeepsSettled(Run(s, steps[..|steps| - 1]), steps[|steps| - 1], i);
    }
  }
}
