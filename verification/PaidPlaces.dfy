/** The tickets a payment issues against the places it paid for (payments/services.py:505-514). */
module PaidPlaces {
  import opened Wrappers
  import opened Registrations
  import opened Commerce
  import opened CommerceTables
  import opened RefundLedger
  import opened OrderMachine
  import opened TicketStatuses
  import opened LatePayment

  /** The active members of the party, among the first `n` participants, that have no ticket. */
  function Ticketless(tickets: seq<Ticket>, people: seq<Participant>, g: nat, n: nat): nat
    requires n <= |people|
  {
    if n == 0 then 0
    else
      Ticketless(tickets, people, g, n - 1)
      + if people[n - 1].active && people[n - 1].registration == g && !HasTicket(tickets, n - 1) then 1 else 0
  }

  /** Exactly as many tickets are issued as there are active members without one. */
  lemma {:induction false} IssuedToTicketless(tickets: seq<Ticket>, people: seq<Participant>, g: nat, o: nat, n: nat)
    requires n <= |people| && OneTicketEach(tickets)
    ensures |IssueTickets(tickets, people, g, o, n)| == |tickets| + Ticketless(tickets, people, g, n)
  {
    if n != 0 {
      IssuedToTicketless(tickets, people, g, o, n - 1);
      IssuedTickets(tickets, people, g, o, n - 1);
      var earlier := IssueTickets(tickets, people, g, o, n - 1);
      assert HasTicket(earlier, n - 1) <==> HasTicket(tickets, n - 1) by {
        if HasTicket(tickets, n - 1) {
          var t :| 0 <= t < |tickets| && tickets[t].participant == n - 1;
          assert earlier[t].participant == n - 1;
        }
        if HasTicket(earlier, n - 1) {
          var t :| 0 <= t < |earlier| && earlier[t].participant == n - 1;
          assert t < |tickets| ==> tickets[t] == earlier[t];
        }
      }
    }
  }

  /**
    On every run the first payment of an order issues as many tickets as places were paid for if and
    only if that many active members of the party have no ticket at that moment.
    */
  lemma PaymentIssuesItsQuantityExactly(setup: Setup, steps: seq<Step>, o: nat)
    requires var s := Run(Initial(setup), steps); o < |s.orders| && !Settled(s.orders[o].status)
    ensures var s := Run(Initial(setup), steps);
            var t := Run(Initial(setup), steps + [PaySucceeded(o)]);
            && o < |s.lines|
            && (|t.tickets| == |s.tickets| + s.lines[o].quantity
                <==> Ticketless(s.tickets, s.roster.participants, s.orders[o].registration, |s.roster.participants|)
                     == s.lines[o].quantity)
  {
    var s := Run(Initial(setup), steps);
    assert (steps + [PaySucceeded(o)])[..|steps|] == steps;
    RunKeepsTables(setup, steps);
    OnePendingAndOneTicket(setup, steps);
    IssuedToTicketless(s.tickets, s.roster.participants, s.orders[o].registration, o, |s.roster.participants|);
  }

  // ---- From the hold to the payment ----

  predicate InParty(people: seq<Participant>, p: nat, g: nat) {
    p < |people| && people[p].active && people[p].registration == g
  }

  /** A party that awaits payment has no tickets yet: an answer always seats new people. */
  ghost predicate AwaitingAreTicketless(s: State) {
    forall p: nat ::
      p < |s.roster.participants| && s.roster.participants[p].active
      && s.roster.participants[p].registration < |s.roster.registrations|
      && s.roster.registrations[s.roster.participants[p].registration].payment == AwaitingPayment ==>
        !HasTicket(s.tickets, p)
  }

  ghost predicate TicketsKnown(s: State) {
    forall t :: 0 <= t < |s.tickets| ==> s.tickets[t].participant < |s.roster.participants|
  }

  lemma RefundKeepsHolders(tickets: seq<Ticket>, order: nat, p: nat)
    ensures HasTicket(RefundTickets(tickets, order), p) <==> HasTicket(tickets, p)
  {
    var after := RefundTickets(tickets, order);
    if t :| 0 <= t < |tickets| && tickets[t].participant == p {
      assert after[t].participant == p;
    }
  }

  lemma PaymentTickets(s: State, o: nat, p: nat)
    requires OneTicketEach(s.tickets) && o < |s.orders|
    ensures var all := IssueTickets(s.tickets, s.roster.participants, s.orders[o].registration, o, |s.roster.participants|);
            HasTicket(all, p) <==> HasTicket(s.tickets, p) || InParty(s.roster.participants, p, s.orders[o].registration)
  {
    var people, g := s.roster.participants, s.orders[o].registration;
    IssuedTickets(s.tickets, people, g, o, |people|);
    var all := IssueTickets(s.tickets, people, g, o, |people|);
    if t :| 0 <= t < |s.tickets| && s.tickets[t].participant == p {
      assert all[t].participant == p;
    }
    if HasTicket(all, p) {
      var t :| 0 <= t < |all| && all[t].participant == p;
      assert t < |s.tickets| ==> s.tickets[t].participant == p;
    }
  }

  lemma NextKeepsTicketsKnown(s: State, step: Step)
    requires TicketsKnown(s) && OneTicketEach(s.tickets)
    ensures TicketsKnown(Next(s, step))
  {
    match step
    case PaySucceeded(o) =>
      if o < |s.orders| {
        IssuedTickets(s.tickets, s.roster.participants, s.orders[o].registration, o, |s.roster.participants|);
      }
    case ReleaseHolds => ExpireAllKeepsRest(s, ExpiredHolds(s, |s.holds|));
    case _ =>
  }

  lemma PaymentKeepsAwaitingTicketless(s: State, o: nat)
    requires Tables(s) && AwaitingAreTicketless(s) && OneTicketEach(s.tickets)
    ensures AwaitingAreTicketless(MarkPaid(s, o))
  {
    var t := MarkPaid(s, o);
    if t != s {
      assert OrderRow(s, o);
      forall p: nat
        ensures HasTicket(t.tickets, p) ==>
                  HasTicket(s.tickets, p) || InParty(s.roster.participants, p, s.orders[o].registration)
      {
        PaymentTickets(s, o, p);
      }
    }
  }

  lemma AnswerKeepsAwaitingTicketless(s: State, q: Request)
    requires RosterOk(s) && AwaitingAreTicketless(s) && TicketsKnown(s)
    ensures AwaitingAreTicketless(Next(s, Respond(q)))
  {
  }

  lemma NextKeepsAwaitingTicketless(s: State, step: Step)
    requires Tables(s) && RosterOk(s) && AwaitingAreTicketless(s) && TicketsKnown(s) && OneTicketEach(s.tickets)
    ensures AwaitingAreTicketless(Next(s, step))
  {
    var t := Next(s, step);
    match step
    case Respond(q) => AnswerKeepsAwaitingTicketless(s, q);
    case PaySucceeded(o) => PaymentKeepsAwaitingTicketless(s, o);
    case RefundUpdate(r, _) =>
      if r < |s.refunds| {
        forall p: nat
          ensures HasTicket(t.tickets, p) <==> HasTicket(s.tickets, p)
        {
          RefundKeepsHolders(s.tickets, s.refunds[r].order, p);
        }
      }
    case ReleaseHolds => ExpireAllKeepsRest(s, ExpiredHolds(s, |s.holds|));
    case _ =>
  }

  /** Everything the count of ticketless members rests on. */
  ghost predicate Orderly(s: State) {
    Tables(s) && RosterOk(s) && AwaitingAreTicketless(s) && TicketsKnown(s) && OneTicketEach(s.tickets)
  }

  lemma NextKeepsOrderly(s: State, step: Step)
    requires Orderly(s)
    ensures Orderly(Next(s, step))
  {
    NextKeepsTables(s, step);
    NextKeepsAwaitingTicketless(s, step);
    NextKeepsTicketsKnown(s, step);
    NextKeepsOneTicket(s, step);
  }

  lemma {:induction false} RunKeepsOrderly(s: State, steps: seq<Step>)
    requires Orderly(s)
    ensures Orderly(Run(s, steps))
  {
    if steps != [] {
      RunKeepsOrderly(s, steps[..|steps| - 1]);
      NextKeepsOrderly(Run(s, steps[..|steps| - 1]), steps[|steps| - 1]);
    }
  }

  /** The party answers anew, or another order of the registration is paid for. */
  predicate Reseats(s: State, step: Step, g: nat, o: nat) {
    || (step.Respond? && SaveResponse(s.setup.occurrences, s.roster, step.request).Ok?
        && TargetOf(s.roster, step.request) == g)
    || (step.PaySucceeded? && step.order < |s.orders| && step.order != o && !Settled(s.orders[step.order].status)
        && s.orders[step.order].registration == g)
  }

  predicate NeverReseats(s: State, steps: seq<Step>, g: nat, o: nat) {
    steps == []
    || (NeverReseats(s, steps[..|steps| - 1], g, o) && !Reseats(Run(s, steps[..|steps| - 1]), steps[|steps| - 1], g, o))
  }

  function TicketlessIn(s: State, g: nat): nat {
    Ticketless(s.tickets, s.roster.participants, g, |s.roster.participants|)
  }

  lemma {:induction false} TicketlessSame(s: State, t: State, g: nat, n: nat)
    requires |s.roster.participants| <= n <= |t.roster.participants|
    requires forall p: nat :: p < |t.roster.participants| ==>
               (InParty(t.roster.participants, p, g) && !HasTicket(t.tickets, p)
                <==> InParty(s.roster.participants, p, g) && !HasTicket(s.tickets, p))
    ensures Ticketless(t.tickets, t.roster.participants, g, n) == TicketlessIn(s, g)
  {
    if n > |s.roster.participants| {
      TicketlessSame(s, t, g, n - 1);
      assert !InParty(s.roster.participants, n - 1, g);
      assert !(InParty(t.roster.participants, n - 1, g) && !HasTicket(t.tickets, n - 1));
    } else {
      TicketlessSameUpTo(s, t, g, n);
    }
  }

  lemma {:induction false} TicketlessSameUpTo(s: State, t: State, g: nat, n: nat)
    requires n <= |s.roster.participants| && n <= |t.roster.participants|
    requires forall p: nat :: p < n ==>
               (InParty(t.roster.participants, p, g) && !HasTicket(t.tickets, p)
                <==> InParty(s.roster.participants, p, g) && !HasTicket(s.tickets, p))
    ensures Ticketless(t.tickets, t.roster.participants, g, n) == Ticketless(s.tickets, s.roster.participants, g, n)
  {
    if n > 0 {
      TicketlessSameUpTo(s, t, g, n - 1);
      assert InParty(t.roster.participants, n - 1, g) && !HasTicket(t.tickets, n - 1)
             <==> InParty(s.roster.participants, n - 1, g) && !HasTicket(s.tickets, n - 1);
    }
  }

  /** A step that neither reseats the party nor pays for this order leaves every ticketless member as it is. */
  lemma SameTicketless(s: State, step: Step, g: nat, o: nat, p: nat)
    requires Orderly(s) && !Reseats(s, step, g, o) && g < |s.roster.registrations|
    requires o < |s.orders| && !Settled(s.orders[o].status) && s.orders[o].registration == g && step != PaySucceeded(o)
    ensures var t := Next(s, step);
            InParty(t.roster.participants, p, g) && !HasTicket(t.tickets, p)
            <==> InParty(s.roster.participants, p, g) && !HasTicket(s.tickets, p)
  {
    match step
    case PaySucceeded(other) =>
      if other < |s.orders| {
        PaymentTickets(s, other, p);
      }
    case RefundUpdate(r, _) =>
      if r < |s.refunds| {
        RefundKeepsHolders(s.tickets, s.refunds[r].order, p);
      }
    case ReleaseHolds => ExpireAllKeepsRest(s, ExpiredHolds(s, |s.holds|));
    case _ =>
  }

  lemma NextKeepsTicketless(s: State, step: Step, g: nat, o: nat)
    requires Orderly(s) && !Reseats(s, step, g, o) && g < |s.roster.registrations|
    requires o < |s.orders| && !Settled(s.orders[o].status) && s.orders[o].registration == g && step != PaySucceeded(o)
    ensures TicketlessIn(Next(s, step), g) == TicketlessIn(s, g)
  {
    var t := Next(s, step);
    forall p: nat
      ensures InParty(t.roster.participants, p, g) && !HasTicket(t.tickets, p)
              <==> InParty(s.roster.participants, p, g) && !HasTicket(s.tickets, p)
    {
      SameTicketless(s, step, g, o, p);
    }
    NextKeepsPeople(s, step);
    TicketlessSame(s, t, g, |t.roster.participants|);
  }

  lemma NextKeepsPeople(s: State, step: Step)
    ensures |s.roster.participants| <= |Next(s, step).roster.participants|
  {
    if step.ReleaseHolds? {
      ExpireAllKeepsRest(s, ExpiredHolds(s, |s.holds|));
    }
  }

  lemma ReserveKeepsRegistration(s: State, account: Option<nat>, g: nat, chosen: nat, o: nat)
    requires o < |s.orders| == |s.lines| && Reserve(s, account, g, chosen).Ok?
    ensures var t := Reserve(s, account, g, chosen).value;
            && o < |t.orders| && t.orders[o].registration == s.orders[o].registration
            && t.roster == s.roster && o < |t.lines| && t.lines[o] == s.lines[o]
  {
  }

  lemma NextKeepsRegistration(s: State, step: Step, o: nat)
    requires o < |s.orders| == |s.lines|
    ensures var t := Next(s, step);
            && o < |t.orders| && t.orders[o].registration == s.orders[o].registration
            && |s.roster.registrations| <= |t.roster.registrations|
            && o < |t.lines| && t.lines[o] == s.lines[o]
  {
    match step
    case ReleaseHolds =>
      ExpireAllKeepsRest(s, ExpiredHolds(s, |s.holds|));
      ExpireAllIsQuiet(s, ExpiredHolds(s, |s.holds|));
    case ReserveOrder(account, g, chosen) =>
      if Reserve(s, account, g, chosen).Ok? {
        ReserveKeepsRegistration(s, account, g, chosen, o);
      }
    case _ =>
  }

  /** The order is still unsettled at the end, so it was all along. */
  lemma {:induction false} HeldThroughRun(s: State, steps: seq<Step>, g: nat, o: nat)
    requires Orderly(s) && o < |s.orders| && s.orders[o].registration == g < |s.roster.registrations|
    requires NeverReseats(s, steps, g, o)
    requires o < |Run(s, steps).orders| ==> !Settled(Run(s, steps).orders[o].status)
    ensures var t := Run(s, steps);
            && Orderly(t) && o < |t.orders| && t.orders[o].registration == g < |t.roster.registrations|
            && o < |s.lines| && o < |t.lines| && t.lines[o] == s.lines[o]
            && TicketlessIn(t, g) == TicketlessIn(s, g)
  {
    if steps != [] {
      var earlier, step := steps[..|steps| - 1], steps[|steps| - 1];
      RunKeepsOrderly(s, earlier);
      OrdersStay(s, earlier, o);
      var u := Run(s, earlier);
      if Settled(u.orders[o].status) {
        NextKeepsSettled(u, step, o);
      }
      HeldThroughRun(s, earlier, g, o);
      NextSettlesExactly(u, step, o);
      NextKeepsTicketless(u, step, g, o);
      NextKeepsRegistration(u, step, o);
      NextKeepsOrderly(u, step);
    }
  }

  lemma {:induction false} OrdersStay(s: State, steps: seq<Step>, o: nat)
    requires Orderly(s) && o < |s.orders|
    ensures o < |Run(s, steps).orders|
  {
    if steps != [] {
      OrdersStay(s, steps[..|steps| - 1], o);
      RunKeepsOrderly(s, steps[..|steps| - 1]);
      NextKeepsRegistration(Run(s, steps[..|steps| - 1]), steps[|steps| - 1], o);
    }
  }

  lemma WholePartyIsTicketless(s: State, g: nat)
    requires Orderly(s) && g < |s.roster.registrations| && s.roster.registrations[g].payment == AwaitingPayment
    ensures TicketlessIn(s, g) == PartySize(s, g)
  {
    var people := s.roster.participants;
    TicketsMatchParty(s.tickets, people, g, 0, |people|);
    IssuedToTicketless(s.tickets, people, g, 0, |people|);
    assert people[..|people|] == people;
  }

  /**
    From an accepted reservation on, through every run in which the party does not answer again and no
    other order of the registration is paid, the payment issues exactly the tickets that were held.
    */
  lemma HeldPlacesAreIssued(setup: Setup, before: seq<Step>, account: Option<nat>, g: nat, chosen: nat, after: seq<Step>)
    requires Reserve(Run(Initial(setup), before), account, g, chosen).Ok?
    requires var s := Run(Initial(setup), before); var t := Reserve(s, account, g, chosen).value;
             NeverReseats(t, after, g, |s.orders|)
             && (|s.orders| < |Run(t, after).orders| ==> !Settled(Run(t, after).orders[|s.orders|].status))
    ensures var s := Run(Initial(setup), before); var t := Reserve(s, account, g, chosen).value;
            var u := Run(t, after);
            && |s.orders| < |u.lines|
            && u.lines[|s.orders|].quantity == PartySize(s, g)
            && |MarkPaid(u, |s.orders|).tickets| == |u.tickets| + u.lines[|s.orders|].quantity
  {
    var s := Run(Initial(setup), before);
    var o := |s.orders|;
    RunKeepsOrderly(Initial(setup), before);
    HoldIsForTicketless(s, account, g, chosen);
    var t := Reserve(s, account, g, chosen).value;
    HeldThroughRun(t, after, g, o);
    var u := Run(t, after);
    IssuedToTicketless(u.tickets, u.roster.participants, g, o, |u.roster.participants|);
  }

  lemma HoldIsForTicketless(s: State, account: Option<nat>, g: nat, chosen: nat)
    requires Orderly(s) && Reserve(s, account, g, chosen).Ok?
    ensures var t := Reserve(s, account, g, chosen).value; var o := |s.orders|;
            && Orderly(t) && o < |t.orders| && t.orders[o].registration == g < |t.roster.registrations|
            && o < |t.lines| && t.lines[o].quantity == PartySize(s, g) == TicketlessIn(t, g)
  {
    NextKeepsOrderly(s, ReserveOrder(account, g, chosen));
    ReservationIsForTheParty(s, account, g, chosen, s.now);
    SameRoster(s, account, g, chosen);
    WholePartyIsTicketless(s, g);
  }

  lemma SameRoster(s: State, account: Option<nat>, g: nat, chosen: nat)
    requires Reserve(s, account, g, chosen).Ok?
    ensures var t := Reserve(s, account, g, chosen).value; t.roster == s.roster && t.tickets == s.tickets
    ensures g < |s.roster.registrations| && s.roster.registrations[g].payment == AwaitingPayment
  {
  }

  // ---- The party may change between hold and payment ----

  const DECLINE: Request := Asks(0).(response := NotGoing)

  const DECLINED: seq<Step> := ALL_STEPS[..3] + [Respond(DECLINE)]

  /** A place is held, the buyer declines, the payment arrives: the order is paid and no ticket is issued. */
  lemma PaidWithoutTicket()
    ensures var s := Run(Initial(SHOP), DECLINED + [PaySucceeded(0)]);
            && |s.orders| == |s.lines| == 1 && s.orders[0].status == OrderPaid && s.lines[0].quantity == 1
            && s.tickets == []
  {
    HoldingSteps();
    var steps := ALL_STEPS[..3];
    assert (steps + [Respond(DECLINE)])[..|steps|] == steps;
    assert (DECLINED + [PaySucceeded(0)])[..|DECLINED|] == DECLINED;
    PaidForNobody(Next(AFTER_HOLD, Respond(DECLINE)));
  }

  lemma PaidForNobody(s: State)
    requires s.orders == [NewRow(0)] && |s.holds| == 1 && s.tickets == []
    requires |s.roster.participants| == 2 && !s.roster.participants[0].active && s.roster.participants[1].registration == 1
    ensures var t := Next(s, PaySucceeded(0));
            |t.orders| == 1 && t.orders[0].status == OrderPaid && t.tickets == [] && t.lines == s.lines
  {
    var people := s.roster.participants;
    assert IssueTickets([], people, 0, 0, 1) == [];
    assert IssueTickets([], people, 0, 0, 2) == [];
  }
}
