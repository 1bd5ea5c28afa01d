/**
  How full a ticketed occurrence gets over whole runs (payments/services.py:333-376): confirmed people
  and live holds stay within its capacity, except for payments that let in more people than they held.
  */
module OccurrenceLoads {
  import opened Wrappers
  import opened Sums
  import opened Registrations
  import opened Commerce
  import opened CommerceTables
  import opened Inventory

  /** The active members of a party, one by one. */
  function MemberOf(people: seq<Participant>, g: nat): nat -> int {
    (i: nat) => if i < |people| && people[i].active && people[i].registration == g then 1 else 0
  }

  lemma {:induction false} PartyCount(people: seq<Participant>, g: nat, n: nat)
    requires n <= |people|
    ensures Sum(MemberOf(people, g), n) == |ActiveParty(people[..n], g)|
  {
    if n != 0 {
      PartyCount(people, g, n - 1);
      assert people[..n][..n - 1] == people[..n - 1];
    }
  }

  function People(s: State, o: nat): int { Sum(ConfirmedOf(s, o), |s.roster.participants|) }

  function HeldIn(s: State, o: nat): int { Sum(OccurrenceHeldOf(s, o), |s.holds|) }

  /** The members a first payment lets in beyond the places still held for them. */
  function Overrun(s: State, step: Step, o: nat): nat {
    match step
    case PaySucceeded(i) =>
      if i < |s.orders| && i < |s.holds| && !Settled(s.orders[i].status) && s.orders[i].occurrence == o
      then Max(0, PartySize(s, s.orders[i].registration) - if Live(s.holds[i], s.now) then s.holds[i].quantity else 0)
      else 0
    case _ => 0
  }

  function TotalOverrun(s: State, steps: seq<Step>, o: nat): nat {
    if steps == [] then 0
    else
      var earlier := steps[..|steps| - 1];
      TotalOverrun(s, earlier, o) + Overrun(Run(s, earlier), steps[|steps| - 1], o)
  }

  // ---- Payments ----

  lemma PaymentConfirms(s: State, g: nat, payment: PaymentStatus, o: nat)
    requires payment == Paid || payment == Refunded
    ensures var t := s.(roster := SetPayment(s.roster, g, payment));
            && People(t, o) <= People(s, o)
               + (if g < |s.roster.registrations| && s.roster.registrations[g].occurrence == o && payment == Paid
                  then PartySize(s, g) else 0)
  {
    var t := s.(roster := SetPayment(s.roster, g, payment));
    var people := s.roster.participants;
    if g < |s.roster.registrations| && s.roster.registrations[g].occurrence == o && payment == Paid {
      var sum: nat -> int := (i: nat) => ConfirmedOf(s, o)(i) + MemberOf(people, g)(i);
      SumOfTwo(ConfirmedOf(s, o), MemberOf(people, g), sum, |people|);
      SumAtMost(ConfirmedOf(t, o), sum, |people|);
      PartyCount(people, g, |people|);
      assert people[..|people|] == people;
    } else {
      SumAtMost(ConfirmedOf(t, o), ConfirmedOf(s, o), |people|);
    }
  }

  /** A hold that is let go, or goes over to a ticket, no longer counts. */
  lemma HoldEnds(s: State, t: State, i: nat, o: nat)
    requires i < |s.holds| == |t.holds| && t.now == s.now && t.setup == s.setup
    requires t.holds == s.holds[i := s.holds[i].(status := t.holds[i].status)] && t.holds[i].status != Held
    ensures HeldIn(t, o) == HeldIn(s, o) - OccurrenceHeldOf(s, o)(i)
  {
    SumOneChange(OccurrenceHeldOf(s, o), OccurrenceHeldOf(t, o), |s.holds|, i);
  }

  lemma PayLoads(s: State, i: nat, o: nat)
    requires Tables(s)
    ensures OccurrenceLoad(MarkPaid(s, i), o) <= OccurrenceLoad(s, o) + Overrun(s, PaySucceeded(i), o)
  {
    var t := MarkPaid(s, i);
    if t != s {
      assert OrderRow(s, i);
      var g := s.orders[i].registration;
      var u := s.(roster := SetPayment(s.roster, g, Paid));
      PaymentConfirms(s, g, Paid, o);
      HoldEnds(s, t, i, o);
      HoldWeight(s, i, o);
    }
  }

  lemma HoldWeight(s: State, i: nat, o: nat)
    requires Tables(s) && i < |s.holds|
    ensures OccurrenceHeldOf(s, o)(i)
            == if s.orders[i].occurrence == o && Live(s.holds[i], s.now) then s.holds[i].quantity else 0
  {
    assert OrderRow(s, i);
  }

  // ---- The other steps ----

  lemma FailLoads(s: State, i: nat, expired: bool, o: nat)
    requires Tables(s)
    ensures OccurrenceLoad(FailOrder(s, i, expired), o) <= OccurrenceLoad(s, o)
  {
    var t := FailOrder(s, i, expired);
    if t != s && s.holds[i].status == Held {
      HoldWeight(s, i, o);
      HoldEnds(s, t, i, o);
    }
  }

  lemma {:induction false} ExpireAllLoads(s: State, ids: seq<nat>, o: nat)
    requires Tables(s)
    ensures OccurrenceLoad(ExpireAll(s, ids), o) <= OccurrenceLoad(s, o)
  {
    if ids != [] {
      var earlier := ids[..|ids| - 1];
      ExpireAllLoads(s, earlier, o);
      ExpireAllKeepsTables(s, earlier);
      FailLoads(ExpireAll(s, earlier), ids[|ids| - 1], true, o);
    }
  }

  lemma RefundLoads(s: State, r: nat, provider: Option<RefundStatus>, o: nat)
    ensures OccurrenceLoad(ApplyRefund(s, r, provider), o) <= OccurrenceLoad(s, o)
  {
    var t := ApplyRefund(s, r, provider);
    if t.roster == s.roster {
    } else {
      var g := s.orders[s.refunds[r].order].registration;
      PaymentConfirms(s, g, Refunded, o);
    }
  }

  /** An answer takes people out of a ticketed occurrence, or leaves them to pay first. */
  lemma AnswerConfirmsNobody(s: State, t: State, q: Request, o: nat, i: nat)
    requires References(s.setup.occurrences, s.roster) && q.occurrence < |s.setup.occurrences|
    requires t == s.(roster := Record(s.setup.occurrences, s.roster, q))
    requires o < |s.setup.occurrences| && s.setup.occurrences[o].ticketed && i < |t.roster.participants|
    ensures ConfirmedOf(t, o)(i) <= if i < |s.roster.participants| then ConfirmedOf(s, o)(i) else 0
    ensures 0 <= ConfirmedOf(t, o)(i)
  {
    var target := TargetOf(s.roster, q);
    var p := t.roster.participants[i];
    if p.registration == target {
      assert t.roster.registrations[target] == RegistrationRow(s.setup.occurrences[q.occurrence], q);
      assert i >= |s.roster.participants| || !p.active;
    } else {
      assert i < |s.roster.participants| && p == s.roster.participants[i];
    }
  }

  lemma RespondLoads(s: State, q: Request, o: nat)
    requires RosterOk(s) && o < |s.setup.occurrences| && s.setup.occurrences[o].ticketed
    ensures OccurrenceLoad(Next(s, Respond(q)), o) <= OccurrenceLoad(s, o)
  {
    if SaveResponse(s.setup.occurrences, s.roster, q).Ok? {
      var t := s.(roster := Record(s.setup.occurrences, s.roster, q));
      var n, m := |s.roster.participants|, |t.roster.participants|;
      forall i: nat | i < m
        ensures 0 <= ConfirmedOf(t, o)(i) <= if i < n then ConfirmedOf(s, o)(i) else 0
      {
        AnswerConfirmsNobody(s, t, q, o, i);
      }
      SumAtMost(ConfirmedOf(t, o), ConfirmedOf(s, o), n);
      SumConstantTail(ConfirmedOf(t, o), n, m, 0);
    }
  }

  lemma ReserveLoads(s: State, account: Option<nat>, g: nat, chosen: nat, o: nat)
    requires Tables(s) && RosterOk(s) && Reserve(s, account, g, chosen).Ok?
    requires o < |s.setup.occurrences| && s.setup.occurrences[o].capacity.Some?
    ensures var after := OccurrenceLoad(Reserve(s, account, g, chosen).value, o);
            after <= OccurrenceLoad(s, o) || after <= s.setup.occurrences[o].capacity.value
  {
    if s.roster.registrations[g].occurrence == o {
      ReservationFitsOccurrence(s, account, g, chosen);
    } else {
      var freed := Supersede(s, g);
      var pending := PendingOrderOf(s.orders, g);
      if pending.Some? {
        FailLoads(s, pending.value, true, o);
      }
      PlacedElsewhere(freed, account.value, g, chosen, o);
    }
  }

  lemma PlacedElsewhere(s: State, account: nat, g: nat, chosen: nat, o: nat)
    requires g < |s.roster.registrations| && chosen < |s.setup.ticketTypes|
    requires s.setup.ticketTypes[chosen].occurrence != o
    ensures OccurrenceLoad(PlaceOrder(s, account, g, chosen), o) == OccurrenceLoad(s, o)
  {
    var t := PlaceOrder(s, account, g, chosen);
    SumEqual(OccurrenceHeldOf(s, o), OccurrenceHeldOf(t, o), |s.holds|);
  }

  lemma OtherLoads(s: State, step: Step, o: nat)
    requires step.Tick? || step.SessionUncertain? || step.RequestRefund? || step.RefundSubmissionFailed?
             || step.DisputeUpdate? || step.ChargeUpdate?
    ensures OccurrenceLoad(Next(s, step), o) <= OccurrenceLoad(s, o)
  {
    var t := Next(s, step);
    SumAtMost(OccurrenceHeldOf(t, o), OccurrenceHeldOf(s, o), |s.holds|);
  }

  lemma NextLoads(s: State, step: Step, o: nat)
    requires Tables(s) && RosterOk(s)
    requires o < |s.setup.occurrences| && s.setup.occurrences[o].ticketed && s.setup.occurrences[o].capacity.Some?
    ensures var after := OccurrenceLoad(Next(s, step), o);
            after <= OccurrenceLoad(s, o) + Overrun(s, step, o) || after <= s.setup.occurrences[o].capacity.value
  {
    match step
    case Respond(q) => RespondLoads(s, q, o);
    case ReserveOrder(account, g, chosen) =>
      if Reserve(s, account, g, chosen).Ok? {
        ReserveLoads(s, account, g, chosen, o);
      }
    case PaySucceeded(i) => PayLoads(s, i, o);
    case PayFailed(i, expired) => FailLoads(s, i, expired, o);
    case ReleaseHolds => ExpireAllLoads(s, ExpiredHolds(s, |s.holds|), o);
    case RefundUpdate(r, provider) => RefundLoads(s, r, provider, o);
    case _ => OtherLoads(s, step, o);
  }

  /**
    Over every run a ticketed occurrence's confirmed people and live holds are at most its capacity and
    the members that payments let in beyond the places still held for them: late, or for a party grown since.
    */
  lemma {:induction false} LoadIsBounded(setup: Setup, steps: seq<Step>, o: nat)
    requires o < |setup.occurrences| && setup.occurrences[o].ticketed && setup.occurrences[o].capacity.Some?
    ensures OccurrenceLoad(Run(Initial(setup), steps), o)
            <= setup.occurrences[o].capacity.value + TotalOverrun(Initial(setup), steps, o)
  {
    if steps != [] {
      var earlier := steps[..|steps| - 1];
      LoadIsBounded(setup, earlier, o);
      RunKeepsTables(setup, earlier);
      NextLoads(Run(Initial(setup), earlier), steps[|steps| - 1], o);
    }
  }
}
