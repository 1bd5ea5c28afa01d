/**
  A run that oversells: one ticket, two buyers. The first one's hold runs out, the second reserves
  and pays, and then the first one's payment arrives.
  */
module LatePayment {
  import opened Wrappers
  import opened Sums
  import opened Registrations
  import opened Commerce
  import opened CommerceTables
  import opened Inventory

  const ANN := Person("a", "n")
  const SHOP := Setup([TicketType(0, 1000, 1, 1, None, None, true)],
                      [Occurrence(true, true, false, 0, None, true)], 0)

  function Asks(contact: nat): Request {
    Request(0, Registrations.Contact(contact, ANN, true), Going, [], Public, None)
  }

  function Row(contact: nat, payment: PaymentStatus): Registration {
    Registration(0, contact, Going, Public, payment)
  }

  function Entry(g: nat): HistoryEntry {
    HistoryEntry(g, None, Going, 0, Public)
  }

  /** Both buyers have answered and await payment. */
  const ASKED: Roster := Roster(
    [Row(0, AwaitingPayment), Row(1, AwaitingPayment)],
    [Participant(0, ANN, true, true), Participant(1, ANN, true, true)],
    [Entry(0), Entry(1)])

  const ALL_STEPS: seq<Step> := [
    Respond(Asks(0)), Respond(Asks(1)), ReserveOrder(Some(0), 0, 0), Tick(HOLD_SECONDS),
    ReserveOrder(Some(0), 1, 0), PaySucceeded(1), PaySucceeded(0)]

  function NewRow(g: nat): Order {
    Order(0, g, 0, 1000, 0, 0, 0, Pending, None, None)
  }

  const AFTER_ASKING: State := Initial(SHOP).(roster := ASKED)

  const AFTER_HOLD: State := AFTER_ASKING.(
    orders := [NewRow(0)], lines := [OrderLine(0, 1000, 1, 1000)],
    holds := [Hold(0, 1, Held, HOLD_SECONDS)], history := [OrderMoved(0, None, Pending)])

  const AFTER_WAIT: State := AFTER_HOLD.(now := HOLD_SECONDS)

  const BEFORE_PAYMENT: State := AFTER_HOLD.(
    now := HOLD_SECONDS,
    orders := [NewRow(0), NewRow(1)], lines := [OrderLine(0, 1000, 1, 1000), OrderLine(0, 1000, 1, 1000)],
    holds := [Hold(0, 1, Held, HOLD_SECONDS), Hold(0, 1, Held, HOLD_SECONDS + HOLD_SECONDS)],
    history := [OrderMoved(0, None, Pending), OrderMoved(1, None, Pending)])

  lemma FirstAnswer()
    ensures Next(Initial(SHOP), Respond(Asks(0))).roster
            == Roster([Row(0, AwaitingPayment)], [Participant(0, ANN, true, true)], [Entry(0)])
  {
    var r := Record(SHOP.occurrences, EMPTY, Asks(0));
    assert 'a' in ANN.firstName && 'n' in ANN.lastName;
    assert r.participants == [Participant(0, ANN, true, true)];
    assert WhyRefused(SHOP.occurrences, EMPTY, Asks(0)).None?;
  }

  lemma SecondAnswer()
    ensures Next(Next(Initial(SHOP), Respond(Asks(0))), Respond(Asks(1))) == AFTER_ASKING
  {
    FirstAnswer();
    var r := Roster([Row(0, AwaitingPayment)], [Participant(0, ANN, true, true)], [Entry(0)]);
    assert 'a' in ANN.firstName && 'n' in ANN.lastName;
    assert r.registrations[..0] == [];
    assert FindRegistration(r.registrations, 0, 1).None?;
    assert WhyRefused(SHOP.occurrences, r, Asks(1)).None?;
    var after := Record(SHOP.occurrences, r, Asks(1));
    assert after.participants == ASKED.participants;
    assert after.registrations == ASKED.registrations;
    assert after.history == ASKED.history;
  }

  lemma PartyOfOne(g: nat)
    requires g < 2
    ensures ActiveParty(ASKED.participants, g) == [ASKED.participants[g]]
  {
    var first, second := ASKED.participants[..1], ASKED.participants[1..];
    ActivePartyOfConcat(first, second, g);
    ActivePartyOfOne(first, 0, g);
    ActivePartyOfOne(second, 1, g);
    assert first + second == ASKED.participants;
  }

  lemma FirstHold()
    ensures Next(AFTER_ASKING, ReserveOrder(Some(0), 0, 0)) == AFTER_HOLD
  {
    PartyOfOne(0);
    var s := AFTER_ASKING;
    assert Supersede(s, 0) == s;
    assert TicketInventory(s, 0).remaining == 1;
    assert PlacementError(s, 0, 0).None?;
    assert PlaceOrder(s, 0, 0, 0) == AFTER_HOLD;
  }

  lemma SecondHold()
    ensures Next(AFTER_WAIT, ReserveOrder(Some(0), 1, 0)) == BEFORE_PAYMENT
  {
    PartyOfOne(1);
    var s := AFTER_WAIT;
    assert s.orders[..0] == [];
    assert PendingOrderOf(s.orders, 1).None?;
    assert Supersede(s, 1) == s;
    assert SoldOf(s, 0)(0) == 0 && HeldOf(s, 0)(0) == 0;
    assert Sum(SoldOf(s, 0), 1) == 0 && Sum(HeldOf(s, 0), 1) == 0;
    assert TicketInventory(s, 0).remaining == 1;
    assert PlacementError(s, 1, 0).None?;
    assert PlaceOrder(s, 0, 1, 0) == BEFORE_PAYMENT;
  }

  /** Both orders end settled although only one ticket was on sale, and the late payment alone accounts for it. */
  lemma LatePaymentOversells()
    ensures Quantity(SHOP, 0) == 1
    ensures Claimed(Run(Initial(SHOP), ALL_STEPS), 0) == 2
    ensures TotalSlip(Initial(SHOP), ALL_STEPS, 0) == 1
  {
    var s0 := Initial(SHOP);
    var s5 := BEFORE_PAYMENT;
    FirstFiveSteps();
    assert ALL_STEPS[..6][..5] == ALL_STEPS[..5];
    var s6 := MarkPaid(s5, 1);
    assert Run(s0, ALL_STEPS[..6]) == s6;
    assert Run(s0, ALL_STEPS) == MarkPaid(s6, 0);
    assert Sum(SoldOf(s5, 0), 2) == SoldOf(s5, 0)(0) + SoldOf(s5, 0)(1);
    assert Sum(HeldOf(s5, 0), 2) == HeldOf(s5, 0)(0) + HeldOf(s5, 0)(1);
    assert Claimed(s5, 0) == 1;
    RunKeepsTables(SHOP, ALL_STEPS[..5]);
    RunKeepsTables(SHOP, ALL_STEPS[..6]);
    PayClaims(s5, 1, 0);
    PayClaims(s6, 0, 0);
  }

  lemma OneMoreStep(steps: seq<Step>, k: nat, s: State, t: State)
    requires k < |steps| && Run(Initial(SHOP), steps[..k]) == s && Next(s, steps[k]) == t
    ensures Run(Initial(SHOP), steps[..k + 1]) == t
  {
    assert steps[..k + 1][..k] == steps[..k];
  }

  lemma AskingSteps()
    ensures Run(Initial(SHOP), ALL_STEPS[..2]) == AFTER_ASKING
  {
    var s1 := Next(Initial(SHOP), ALL_STEPS[0]);
    OneMoreStep(ALL_STEPS, 0, Initial(SHOP), s1);
    SecondAnswer();
    OneMoreStep(ALL_STEPS, 1, s1, AFTER_ASKING);
  }

  lemma HoldingSteps()
    ensures Run(Initial(SHOP), ALL_STEPS[..3]) == AFTER_HOLD
  {
    AskingSteps();
    FirstHold();
    OneMoreStep(ALL_STEPS, 2, AFTER_ASKING, AFTER_HOLD);
  }

  lemma WaitingSteps()
    ensures Run(Initial(SHOP), ALL_STEPS[..4]) == AFTER_WAIT
  {
    HoldingSteps();
    OneMoreStep(ALL_STEPS, 3, AFTER_HOLD, AFTER_WAIT);
  }

  lemma FirstFiveSteps()
    ensures Run(Initial(SHOP), ALL_STEPS[..5]) == BEFORE_PAYMENT
    ensures TotalSlip(Initial(SHOP), ALL_STEPS[..5], 0) == 0
  {
    WaitingSteps();
    SecondHold();
    OneMoreStep(ALL_STEPS, 4, AFTER_WAIT, BEFORE_PAYMENT);
    NoSlip(5);
  }

  lemma {:induction false} NoSlip(k: nat)
    requires k <= 5
    ensures TotalSlip(Initial(SHOP), ALL_STEPS[..k], 0) == 0
  {
    if k > 0 {
      NoSlip(k - 1);
      assert ALL_STEPS[..k][..k - 1] == ALL_STEPS[..k - 1];
    }
  }
}
