/** The seven-state order over whole runs: its hold, its registration, its tickets and its audit trail. */
module OrderMachine {
  import opened Wrappers
  import opened Registrations
  import opened Commerce
  import opened CommerceTables

  // ---- Holds follow orders ----

  /** HELD while pending, CONVERTED once settled, RELEASED when the payment failed or expired. */
  function HoldFor(status: OrderStatus): HoldStatus {
    if status == Pending then Held else if Settled(status) then Converted else Released
  }

  ghost predicate HoldsFollowOrders(s: State) {
    && |s.orders| == |s.holds|
    && forall i :: 0 <= i < |s.orders| ==> s.holds[i].status == HoldFor(s.orders[i].status)
  }

  /** A dispute reported on an order that was never settled. */
  predicate StrayDispute(s: State, step: Step) {
    step.DisputeUpdate? && step.order < |s.orders| && !Settled(s.orders[step.order].status)
  }

  predicate NoStrayDispute(s: State, steps: seq<Step>) {
    steps == [] ||
    (NoStrayDispute(s, steps[..|steps| - 1])
     && !StrayDispute(Run(s, steps[..|steps| - 1]), steps[|steps| - 1]))
  }

  lemma {:induction false} ExpireAllKeepsHolds(s: State, ids: seq<nat>)
    requires HoldsFollowOrders(s)
    ensures HoldsFollowOrders(ExpireAll(s, ids))
  {
    if ids != [] {
      ExpireAllKeepsHolds(s, ids[..|ids| - 1]);
    }
  }

  lemma SupersedeKeepsHolds(s: State, g: nat)
    requires HoldsFollowOrders(s)
    ensures HoldsFollowOrders(Supersede(s, g))
  {
  }

  lemma ReserveKeepsHolds(s: State, account: Option<nat>, g: nat, ticketType: nat)
    requires HoldsFollowOrders(s) && Reserve(s, account, g, ticketType).Ok?
    ensures HoldsFollowOrders(Reserve(s, account, g, ticketType).value)
  {
    SupersedeKeepsHolds(s, g);
  }

  lemma OrderStepFollowsExactly(s: State, step: Step)
    requires Tables(s) && HoldsFollowOrders(s) && !step.ReserveOrder? && !step.ReleaseHolds? && !step.Respond?
    ensures HoldsFollowOrders(Next(s, step)) <==> !StrayDispute(s, step)
  {
    match step
    case RefundUpdate(r, provider) =>
      if r < |s.refunds| {
        assert RefundRow(s, r);
      }
    case DisputeUpdate(o, stands) =>
      if o < |s.orders| {
        assert Next(s, step).holds[o].status == HoldFor(s.orders[o].status);
      }
    case _ =>
  }

  /** Holds stay in step with orders through every step but a stray dispute, which always breaks them. */
  lemma HoldsFollowExactly(s: State, step: Step)
    requires Tables(s) && RosterOk(s) && HoldsFollowOrders(s)
    ensures HoldsFollowOrders(Next(s, step)) <==> !StrayDispute(s, step)
  {
    match step
    case ReserveOrder(account, g, t) =>
      if Reserve(s, account, g, t).Ok? {
        ReserveKeepsHolds(s, account, g, t);
      }
    case ReleaseHolds => ExpireAllKeepsHolds(s, ExpiredHolds(s, |s.holds|));
    case Respond(_) =>
    case _ => OrderStepFollowsExactly(s, step);
  }

  lemma {:induction false} HoldsAlwaysFollow(setup: Setup, steps: seq<Step>)
    requires NoStrayDispute(Initial(setup), steps)
    ensures HoldsFollowOrders(Run(Initial(setup), steps))
  {
    if steps != [] {
      var earlier := steps[..|steps| - 1];
      HoldsAlwaysFollow(setup, earlier);
      RunKeepsTables(setup, earlier);
      HoldsFollowExactly(Run(Initial(setup), earlier), steps[|steps| - 1]);
    }
  }

  // ---- Releasing expired holds ----

  lemma {:induction false} ExpiredHoldsExactly(s: State, n: nat)
    requires n <= |s.holds|
    ensures forall i: nat :: i in ExpiredHolds(s, n) <==>
              i < n && s.holds[i].status == Held && s.holds[i].expiresAt <= s.now
  {
    if n != 0 {
      ExpiredHoldsExactly(s, n - 1);
    }
  }

  lemma {:induction false} ExpireAllExactly(s: State, ids: seq<nat>)
    requires |s.orders| == |s.holds|
    ensures var t := ExpireAll(s, ids);
            && |t.orders| == |t.holds| == |s.orders| && t.now == s.now
            && forall i: nat :: i < |s.orders| ==>
                 var expires := i in ids && s.orders[i].status == Pending;
                 && t.orders[i] == (if expires then s.orders[i].(status := Expired) else s.orders[i])
                 && t.holds[i] == (if expires && s.holds[i].status == Held then s.holds[i].(status := Released) else s.holds[i])
  {
    if ids != [] {
      var n := |ids| - 1;
      ExpireAllExactly(s, ids[..n]);
      assert ids == ids[..n] + [ids[n]];
    }
  }

  /** Releasing leaves no hold HELD past its expiry, expires exactly the orders of those it released, and touches nothing live. */
  lemma ReleaseClearsExpired(s: State, i: nat)
    requires HoldsFollowOrders(s) && i < |s.orders|
    ensures var t := ReleaseExpiredHolds(s);
            var lapsed := s.holds[i].status == Held && !Live(s.holds[i], s.now);
            && |t.orders| == |t.holds| == |s.orders|
            && (t.holds[i].status == Held <==> Live(s.holds[i], s.now))
            && t.orders[i].status == (if lapsed then Expired else s.orders[i].status)
            && (!lapsed ==> t.orders[i] == s.orders[i] && t.holds[i] == s.holds[i])
  {
    ExpiredHoldsExactly(s, |s.holds|);
    ExpireAllExactly(s, ExpiredHolds(s, |s.holds|));
  }

  // ---- One pending order per registration ----

  ghost predicate OnePendingEach(s: State) {
    forall i, j :: 0 <= i < j < |s.orders| && s.orders[i].status == Pending && s.orders[j].status == Pending ==>
      s.orders[i].registration != s.orders[j].registration
  }

  lemma {:induction false} ExpireAllKeepsOnePending(s: State, ids: seq<nat>)
    requires OnePendingEach(s)
    ensures OnePendingEach(ExpireAll(s, ids))
  {
    if ids != [] {
      ExpireAllKeepsOnePending(s, ids[..|ids| - 1]);
    }
  }

  lemma NewestIsOnlyPending(s: State, g: nat)
    requires OnePendingEach(s) && |s.orders| == |s.holds|
    ensures OnePendingEach(Supersede(s, g)) && PendingOrderOf(Supersede(s, g).orders, g).None?
  {
    var freed := Supersede(s, g);
    var pending := PendingOrderOf(s.orders, g);
    var after := PendingOrderOf(freed.orders, g);
    assert after.Some? ==> pending.Some? && after != pending;
  }

  lemma ReserveKeepsOnePending(s: State, account: Option<nat>, g: nat, ticketType: nat)
    requires Tables(s) && OnePendingEach(s) && Reserve(s, account, g, ticketType).Ok?
    ensures OnePendingEach(Reserve(s, account, g, ticketType).value)
  {
    NewestIsOnlyPending(s, g);
  }

  lemma OtherStepKeepsOnePending(s: State, step: Step)
    requires Tables(s) && OnePendingEach(s) && !step.ReserveOrder? && !step.ReleaseHolds? && !step.Respond?
    ensures OnePendingEach(Next(s, step))
  {
    if step.RefundUpdate? && step.refund < |s.refunds| {
      assert RefundRow(s, step.refund);
    }
  }

  lemma NextKeepsOnePending(s: State, step: Step)
    requires Tables(s) && RosterOk(s) && OnePendingEach(s)
    ensures OnePendingEach(Next(s, step))
  {
    match step
    case ReserveOrder(account, g, t) =>
      if Reserve(s, account, g, t).Ok? {
        ReserveKeepsOnePending(s, account, g, t);
      }
    case ReleaseHolds => ExpireAllKeepsOnePending(s, ExpiredHolds(s, |s.holds|));
    case Respond(_) =>
    case _ => OtherStepKeepsOnePending(s, step);
  }

  // ---- Tickets ----

  ghost predicate OneTicketEach(tickets: seq<Ticket>) {
    forall t, u :: 0 <= t < u < |tickets| ==> tickets[t].participant != tickets[u].participant
  }

  /** Issuing keeps the old tickets, gives every active party member one, and nobody a second one. */
  lemma {:induction false} IssuedTickets(tickets: seq<Ticket>, people: seq<Participant>, g: nat, o: nat, n: nat)
    requires n <= |people| && OneTicketEach(tickets)
    ensures var all := IssueTickets(tickets, people, g, o, n);
            && OneTicketEach(all)
            && tickets <= all
            && (forall t :: |tickets| <= t < |all| ==>
                  all[t].order == o && all[t].status == Valid && all[t].participant < n
                  && people[all[t].participant].active && people[all[t].participant].registration == g)
            && (forall p: nat :: p < n && people[p].active && people[p].registration == g ==> HasTicket(all, p))
  {
    if n != 0 {
      IssuedTickets(tickets, people, g, o, n - 1);
      var earlier := IssueTickets(tickets, people, g, o, n - 1);
      var all := IssueTickets(tickets, people, g, o, n);
      forall p: nat | p < n && people[p].active && people[p].registration == g
        ensures HasTicket(all, p)
      {
        if HasTicket(earlier, p) {
          var t :| 0 <= t < |earlier| && earlier[t].participant == p;
          assert all[t].participant == p;
        } else {
          assert all[|earlier|].participant == p;
        }
      }
    }
  }

  /** If nobody in the party had a ticket, exactly as many are issued as the party has members. */
  lemma {:induction false} TicketsMatchParty(tickets: seq<Ticket>, people: seq<Participant>, g: nat, o: nat, n: nat)
    requires n <= |people| && OneTicketEach(tickets)
    requires forall p: nat :: p < n && people[p].active && people[p].registration == g ==> !HasTicket(tickets, p)
    ensures |IssueTickets(tickets, people, g, o, n)| == |tickets| + |ActiveParty(people[..n], g)|
  {
    if n != 0 {
      TicketsMatchParty(tickets, people, g, o, n - 1);
      IssuedTickets(tickets, people, g, o, n - 1);
      assert people[..n][..n - 1] == people[..n - 1];
      var earlier := IssueTickets(tickets, people, g, o, n - 1);
      if people[n - 1].active && people[n - 1].registration == g {
        forall t | 0 <= t < |earlier|
          ensures earlier[t].participant != n - 1
        {
          assert t < |tickets| ==> tickets[t] == earlier[t];
        }
      }
    }
  }

  /** A first payment leaves every active member of the party with a ticket and the registration paid. */
  lemma PaidPartyIsTicketed(s: State, o: nat)
    requires Tables(s) && OneTicketEach(s.tickets) && o < |s.orders| && !Settled(s.orders[o].status)
    ensures var t := MarkPaid(s, o);
            var g := s.orders[o].registration;
            && t.orders[o].status == OrderPaid
            && t.holds[o].status == Converted
            && g < |t.roster.registrations| && t.roster.registrations[g].payment == Paid
            && s.tickets <= t.tickets && OneTicketEach(t.tickets)
            && forall p: nat ::
                 p < |s.roster.participants| && s.roster.participants[p].active
                 && s.roster.participants[p].registration == g ==>
                   HasTicket(t.tickets, p)
  {
    assert OrderRow(s, o);
    IssuedTickets(s.tickets, s.roster.participants, s.orders[o].registration, o, |s.roster.participants|);
  }

  lemma NextKeepsOneTicket(s: State, step: Step)
    requires OneTicketEach(s.tickets)
    ensures OneTicketEach(Next(s, step).tickets)
  {
    match step
    case PaySucceeded(o) =>
      if o < |s.orders| {
        IssuedTickets(s.tickets, s.roster.participants, s.orders[o].registration, o, |s.roster.participants|);
      }
    case ReserveOrder(account, g, t) =>
    case ReleaseHolds => ExpireAllKeepsRest(s, ExpiredHolds(s, |s.holds|));
    case _ =>
  }

  /** In every reachable state a registration has at most one pending order and a participant at most one ticket. */
  lemma {:induction false} OnePendingAndOneTicket(setup: Setup, steps: seq<Step>)
    ensures var s := Run(Initial(setup), steps); OnePendingEach(s) && OneTicketEach(s.tickets)
  {
    if steps != [] {
      var earlier := steps[..|steps| - 1];
      OnePendingAndOneTicket(setup, earlier);
      RunKeepsTables(setup, earlier);
      NextKeepsOnePending(Run(Initial(setup), earlier), steps[|steps| - 1]);
      NextKeepsOneTicket(Run(Initial(setup), earlier), steps[|steps| - 1]);
    }
  }

  // ---- When a paid registration stops being paid ----

  /** The response is accepted and is the registration's own. */
  predicate Answers(s: State, step: Step, g: nat) {
    && step.Respond? && step.request.occurrence < |s.setup.occurrences|
    && WhyRefused(s.setup.occurrences, s.roster, step.request).None?
    && FindRegistration(s.roster.registrations, step.request.occurrence, step.request.contact.id) == Some(g)
  }

  /** The provider's success takes an order of the registration to its total. */
  predicate RefundsAll(s: State, step: Step, g: nat) {
    && step.RefundUpdate? && step.refund < |s.refunds| && s.refunds[step.refund].order < |s.orders|
    && step.provider == Some(RefundSucceeded) && s.refunds[step.refund].status != RefundSucceeded
    && (var order := s.orders[s.refunds[step.refund].order];
        order.registration == g && order.refunded + s.refunds[step.refund].amount >= order.total)
  }

  /** A paid registration stops being paid if and only if it answers again or one of its orders is refunded in full. */
  lemma UnpaidExactly(s: State, step: Step, g: nat)
    requires g < |s.roster.registrations| && s.roster.registrations[g].payment == Paid
    ensures var t := Next(s, step);
            && g < |t.roster.registrations|
            && (t.roster.registrations[g].payment != Paid <==> Answers(s, step, g) || RefundsAll(s, step, g))
            && (Answers(s, step, g) ==>
                  t.roster.registrations[g].response == s.roster.registrations[g].response
                  && t.roster.registrations[g].payment
                     == if s.setup.occurrences[step.request.occurrence].ticketed
                           && s.roster.registrations[g].response == Going then AwaitingPayment else NotRequired)
  {
    if step.Respond? {
      UnpaidByAnswerExactly(s, step, g);
    } else {
      UnpaidByRefundExactly(s, step, g);
    }
  }

  lemma UnpaidByAnswerExactly(s: State, step: Step, g: nat)
    requires g < |s.roster.registrations| && s.roster.registrations[g].payment == Paid && step.Respond?
    ensures var t := Next(s, step);
            && g < |t.roster.registrations|
            && (t.roster.registrations[g].payment != Paid <==> Answers(s, step, g))
            && (Answers(s, step, g) ==>
                  t.roster.registrations[g].response == s.roster.registrations[g].response
                  && t.roster.registrations[g].payment
                     == if s.setup.occurrences[step.request.occurrence].ticketed
                           && s.roster.registrations[g].response == Going then AwaitingPayment else NotRequired)
  {
    if Answers(s, step, g) {
      PaidAnswerAwaitsPaymentAgain(s.setup.occurrences, s.roster, step.request, g);
    }
  }

  lemma UnpaidByRefundExactly(s: State, step: Step, g: nat)
    requires g < |s.roster.registrations| && s.roster.registrations[g].payment == Paid && !step.Respond?
    ensures var t := Next(s, step);
            && g < |t.roster.registrations|
            && (t.roster.registrations[g].payment != Paid <==> RefundsAll(s, step, g))
  {
    match step
    case ReleaseHolds => ExpireAllKeepsRest(s, ExpiredHolds(s, |s.holds|));
    case ReserveOrder(account, g, chosen) => ReserveKeepsRoster(s, account, g, chosen);
    case _ =>
  }

  lemma ReserveKeepsRoster(s: State, account: Option<nat>, g: nat, chosen: nat)
    ensures Next(s, ReserveOrder(account, g, chosen)).roster == s.roster
  {
  }

  predicate NeverUnpaid(s: State, steps: seq<Step>, g: nat) {
    steps == [] ||
    (NeverUnpaid(s, steps[..|steps| - 1], g)
     && (var u := Run(s, steps[..|steps| - 1]);
         !Answers(u, steps[|steps| - 1], g) && !RefundsAll(u, steps[|steps| - 1], g)))
  }

  /** Over runs: it stays paid until the first such step. */
  lemma {:induction false} StaysPaid(s: State, steps: seq<Step>, g: nat)
    requires g < |s.roster.registrations| && s.roster.registrations[g].payment == Paid && NeverUnpaid(s, steps, g)
    ensures g < |Run(s, steps).roster.registrations| && Run(s, steps).roster.registrations[g].payment == Paid
  {
    if steps != [] {
      StaysPaid(s, steps[..|steps| - 1], g);
      UnpaidExactly(Run(s, steps[..|steps| - 1]), steps[|steps| - 1], g);
    }
  }

  // ---- Settling among everything else ----

  predicate Settles(step: Step, o: nat) {
    step == PaySucceeded(o) || (step.DisputeUpdate? && step.order == o)
  }

  lemma NextSettlesExactly(s: State, step: Step, o: nat)
    requires Tables(s) && o < |s.orders|
    ensures o < |Next(s, step).orders|
    ensures Settled(Next(s, step).orders[o].status) <==> Settled(s.orders[o].status) || Settles(step, o)
  {
    match step
    case ReleaseHolds => ExpireAllExactly(s, ExpiredHolds(s, |s.holds|));
    case ReserveOrder(account, g, chosen) => ReserveSettlesNothing(s, account, g, chosen, o);
    case RefundUpdate(r, _) =>
      if r < |s.refunds| {
        assert RefundRow(s, r);
      }
    case _ =>
  }

  lemma ReserveSettlesNothing(s: State, account: Option<nat>, g: nat, chosen: nat, o: nat)
    requires o < |s.orders|
    ensures var t := Next(s, ReserveOrder(account, g, chosen));
            o < |t.orders| && (Settled(t.orders[o].status) <==> Settled(s.orders[o].status))
  {
  }

  /** Through any run, whatever comes between, an order is settled if and only if it was, or a payment or a dispute of it arrived. */
  lemma {:induction false} SettledExactly(s: State, steps: seq<Step>, o: nat)
    requires Tables(s) && RosterOk(s) && o < |s.orders|
    ensures var t := Run(s, steps);
            && Tables(t) && RosterOk(t) && o < |t.orders|
            && (Settled(t.orders[o].status) <==>
                  Settled(s.orders[o].status) || exists k :: 0 <= k < |steps| && Settles(steps[k], o))
  {
    if steps != [] {
      var n := |steps| - 1;
      SettledExactly(s, steps[..n], o);
      NextSettlesExactly(Run(s, steps[..n]), steps[n], o);
      NextKeepsTables(Run(s, steps[..n]), steps[n]);
      assert forall k :: 0 <= k < n ==> steps[..n][k] == steps[k];
    }
  }

  // ---- Success and failure events in any order ----

  predicate PaymentEventOf(step: Step, o: nat) {
    step == PaySucceeded(o) || step == PayFailed(o, true) || step == PayFailed(o, false)
  }

  function FailureStatus(step: Step): OrderStatus {
    if step.PayFailed? && step.expired then Expired else OrderFailed
  }

  /** What one payment event makes of the order's status. */
  function StatusAfterEvent(status: OrderStatus, step: Step): OrderStatus {
    if step.PaySucceeded? then (if Settled(status) then status else OrderPaid)
    else if status == Pending then FailureStatus(step) else status
  }

  function StatusAfter(status: OrderStatus, events: seq<Step>): OrderStatus {
    if events == [] then status
    else StatusAfterEvent(StatusAfter(status, events[..|events| - 1]), events[|events| - 1])
  }

  lemma OnePaymentEvent(s: State, o: nat, step: Step)
    requires o < |s.orders| == |s.holds| && PaymentEventOf(step, o)
    ensures var t := Next(s, step);
            && |t.orders| == |t.holds| == |s.orders|
            && t.orders[o].status == StatusAfterEvent(s.orders[o].status, step)
  {
  }

  lemma {:induction false} PaymentEventsRun(s: State, o: nat, events: seq<Step>)
    requires o < |s.orders| == |s.holds|
    requires forall k :: 0 <= k < |events| ==> PaymentEventOf(events[k], o)
    ensures var t := Run(s, events);
            && |t.orders| == |t.holds| == |s.orders|
            && t.orders[o].status == StatusAfter(s.orders[o].status, events)
  {
    if events != [] {
      PaymentEventsRun(s, o, events[..|events| - 1]);
      OnePaymentEvent(Run(s, events[..|events| - 1]), o, events[|events| - 1]);
    }
  }

  lemma {:induction false} PaidAfterEvents(o: nat, events: seq<Step>)
    requires forall k :: 0 <= k < |events| ==> PaymentEventOf(events[k], o)
    ensures var status := StatusAfter(Pending, events);
            status == OrderPaid || (!Settled(status) && PaySucceeded(o) !in events)
    ensures StatusAfter(Pending, events) == OrderPaid ==> PaySucceeded(o) in events
  {
    if events != [] {
      var earlier, last := events[..|events| - 1], events[|events| - 1];
      PaidAfterEvents(o, earlier);
      assert PaymentEventOf(last, o);
      assert events == earlier + [last];
    }
  }

  lemma {:induction false} FirstFailureStays(o: nat, events: seq<Step>)
    requires events != [] && forall k :: 0 <= k < |events| ==> PaymentEventOf(events[k], o) && events[k] != PaySucceeded(o)
    ensures StatusAfter(Pending, events) == FailureStatus(events[0])
  {
    var n := |events| - 1;
    if n == 0 {
      assert StatusAfter(Pending, events[..0]) == Pending;
    } else {
      assert forall k :: 0 <= k < n ==> events[..n][k] == events[k];
      FirstFailureStays(o, events[..n]);
    }
  }

  /** However successes and failures of one payment are ordered, the order ends paid exactly if one succeeded. */
  lemma PaidIffSomeSuccess(s: State, o: nat, events: seq<Step>)
    requires o < |s.orders| == |s.holds| && s.orders[o].status == Pending
    requires forall k :: 0 <= k < |events| ==> PaymentEventOf(events[k], o)
    ensures var t := Run(s, events);
            && |t.orders| == |s.orders|
            && (t.orders[o].status == OrderPaid <==> PaySucceeded(o) in events)
            && (PaySucceeded(o) !in events ==>
                  t.orders[o].status == if events == [] then Pending else FailureStatus(events[0]))
  {
    PaymentEventsRun(s, o, events);
    PaidAfterEvents(o, events);
    if PaySucceeded(o) !in events && events != [] {
      FirstFailureStays(o, events);
    }
  }
}
