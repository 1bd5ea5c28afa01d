/**
  Ticket commerce (payments/services.py): orders, expiring inventory holds, tickets, refunds and
  disputes. Every table is a sequence whose row ids are its indices; rows are never deleted. Order
  `i` owns line `i` and hold `i`, which are created with it and never exchanged.
  */
module Commerce {
  import opened Wrappers
  import opened Sums
  import opened Fees
  import opened Registrations

  datatype OrderStatus = Pending | OrderPaid | OrderFailed | Expired | PartiallyRefunded | FullyRefunded | Disputed
  datatype HoldStatus = Held | Converted | Released
  datatype RefundStatus = RefundPending | RefundSucceeded | RefundFailed | RefundCanceled
  datatype TicketStatus = Valid | TicketRefunded

  datatype TicketType = TicketType(
    occurrence: nat, amount: nat, quantity: nat, maxPerOrder: nat,
    salesStart: Option<nat>, salesEnd: Option<nat>, isActive: bool)

  /** What stays fixed: the ticket types on sale, the occurrences, and the platform's fee rate. */
  datatype Setup = Setup(ticketTypes: seq<TicketType>, occurrences: seq<Occurrence>, feeBps: nat)

  datatype Order = Order(
    occurrence: nat, registration: nat, account: nat,
    total: nat, refunded: nat, fee: nat, feeRefunded: nat,
    status: OrderStatus, paidAt: Option<nat>, stripeFee: Option<nat>)
  datatype OrderLine = OrderLine(ticketType: nat, unitAmount: nat, quantity: nat, lineTotal: nat)
  datatype Hold = Hold(ticketType: nat, quantity: nat, status: HoldStatus, expiresAt: nat)
  datatype Ticket = Ticket(order: nat, participant: nat, status: TicketStatus)
  datatype Refund = Refund(order: nat, amount: nat, status: RefundStatus, succeededAt: Option<nat>)

  /** A `FinancialTransition` row; `orderStatus` is the order status kept in its details. */
  datatype Transition =
    | OrderMoved(order: nat, previous: Option<OrderStatus>, next: OrderStatus)
    | RefundMoved(order: nat, refund: nat, before: Option<RefundStatus>, after: RefundStatus,
                  orderStatus: Option<OrderStatus>)

  /** `now` is in seconds. */
  datatype State = State(
    setup: Setup, now: nat, roster: Roster,
    orders: seq<Order>, lines: seq<OrderLine>, holds: seq<Hold>,
    tickets: seq<Ticket>, refunds: seq<Refund>, history: seq<Transition>)

  datatype CommerceError =
    | CommerceNotReady | NotFound | NotAwaitingPayment | NoParticipants | SalesClosed
    | OverOrderLimit | NotEnoughTickets | NotRefundable | OutsideRefundableBalance

  const HOLD_SECONDS: nat := 30 * 60

  function Initial(setup: Setup): State {
    State(setup, 0, EMPTY, [], [], [], [], [], [])
  }

  // ---- Inventory ----

  predicate Settled(status: OrderStatus) {
    status == OrderPaid || status == PartiallyRefunded || status == FullyRefunded || status == Disputed
  }

  predicate Live(h: Hold, now: nat) {
    h.status == Held && h.expiresAt > now
  }

  function SoldOf(s: State, ticketType: nat): nat -> int {
    (i: nat) =>
      if i < |s.orders| && i < |s.lines| && s.lines[i].ticketType == ticketType && Settled(s.orders[i].status)
      then s.lines[i].quantity else 0
  }

  function HeldOf(s: State, ticketType: nat): nat -> int {
    (i: nat) =>
      if i < |s.holds| && s.holds[i].ticketType == ticketType && Live(s.holds[i], s.now)
      then s.holds[i].quantity else 0
  }

  function Sold(s: State, ticketType: nat): int { Sum(SoldOf(s, ticketType), |s.lines|) }

  function HeldNow(s: State, ticketType: nat): int { Sum(HeldOf(s, ticketType), |s.holds|) }

  datatype Inventory = Inventory(sold: int, held: int, remaining: int)

  function TicketInventory(s: State, ticketType: nat): Inventory
    requires ticketType < |s.setup.ticketTypes|
  {
    var sold, held := Sold(s, ticketType), HeldNow(s, ticketType);
    Inventory(sold, held, Max(0, s.setup.ticketTypes[ticketType].quantity - sold - held))
  }

  /** Live holds on any ticket type of an occurrence. */
  function OccurrenceHeldOf(s: State, occurrence: nat): nat -> int {
    (i: nat) =>
      if i < |s.holds| && s.holds[i].ticketType < |s.setup.ticketTypes|
         && s.setup.ticketTypes[s.holds[i].ticketType].occurrence == occurrence && Live(s.holds[i], s.now)
      then s.holds[i].quantity else 0
  }

  /** Active participants whose registration needs no payment or is paid. */
  function ConfirmedOf(s: State, occurrence: nat): nat -> int {
    (i: nat) =>
      if i < |s.roster.participants| && s.roster.participants[i].active
         && s.roster.participants[i].registration < |s.roster.registrations|
         && (var g := s.roster.registrations[s.roster.participants[i].registration];
             g.occurrence == occurrence && (g.payment == NotRequired || g.payment == Paid))
      then 1 else 0
  }

  function OccurrenceLoad(s: State, occurrence: nat): int {
    Sum(ConfirmedOf(s, occurrence), |s.roster.participants|) + Sum(OccurrenceHeldOf(s, occurrence), |s.holds|)
  }

  // ---- reserve_ticket_order ----

  predicate SalesAreOpen(t: TicketType, now: nat) {
    && t.isActive
    && (t.salesStart.None? || t.salesStart.value <= now)
    && (t.salesEnd.None? || t.salesEnd.value > now)
  }

  /** The newest order of the registration that still awaits payment. */
  function PendingOrderOf(orders: seq<Order>, registration: nat): (found: Option<nat>)
    ensures found.Some? ==>
              found.value < |orders| && orders[found.value].registration == registration
              && orders[found.value].status == Pending
    ensures found.None? ==>
              forall i :: 0 <= i < |orders| ==> !(orders[i].registration == registration && orders[i].status == Pending)
  {
    if orders == [] then None
    else
      var last := |orders| - 1;
      if orders[last].registration == registration && orders[last].status == Pending then Some(last)
      else PendingOrderOf(orders[..last], registration)
  }

  function Supersede(s: State, registration: nat): State {
    var pending := PendingOrderOf(s.orders, registration);
    if pending.Some? then FailOrder(s, pending.value, true) else s
  }

  function PartySize(s: State, registration: nat): nat {
    |ActiveParty(s.roster.participants, registration)|
  }

  predicate OverOccurrenceCapacity(s: State, occurrence: nat, quantity: nat)
    requires occurrence < |s.setup.occurrences|
  {
    s.setup.occurrences[occurrence].capacity.Some?
    && s.setup.occurrences[occurrence].capacity.value - OccurrenceLoad(s, occurrence) < quantity
  }

  /** Why an order for the registration's active party cannot be placed, once its older order is superseded. */
  function PlacementError(s: State, registration: nat, ticketType: nat): Option<CommerceError>
    requires registration < |s.roster.registrations|
  {
    var quantity := PartySize(s, registration);
    var occurrence := s.roster.registrations[registration].occurrence;
    if quantity < 1 then Some(NoParticipants)
    else if ticketType >= |s.setup.ticketTypes| || s.setup.ticketTypes[ticketType].occurrence != occurrence
            || occurrence >= |s.setup.occurrences| then Some(NotFound)
    else if !SalesAreOpen(s.setup.ticketTypes[ticketType], s.now) then Some(SalesClosed)
    else if quantity > s.setup.ticketTypes[ticketType].maxPerOrder then Some(OverOrderLimit)
    else if TicketInventory(s, ticketType).remaining < quantity
            || OverOccurrenceCapacity(s, occurrence, quantity) then Some(NotEnoughTickets)
    else None
  }

  function NewOrder(s: State, account: nat, registration: nat, amount: nat): Order
    requires registration < |s.roster.registrations|
  {
    var total := amount * PartySize(s, registration);
    Order(s.roster.registrations[registration].occurrence, registration, account, total, 0,
          TicketApplicationFee(total, s.setup.feeBps), 0, Pending, None, None)
  }

  function PlaceOrder(s: State, account: nat, registration: nat, ticketType: nat): State
    requires registration < |s.roster.registrations| && ticketType < |s.setup.ticketTypes|
  {
    var quantity := PartySize(s, registration);
    var amount := s.setup.ticketTypes[ticketType].amount;
    s.(orders := s.orders + [NewOrder(s, account, registration, amount)],
       lines := s.lines + [OrderLine(ticketType, amount, quantity, amount * quantity)],
       holds := s.holds + [Hold(ticketType, quantity, Held, s.now + HOLD_SECONDS)],
       history := s.history + [OrderMoved(|s.orders|, None, Pending)])
  }

  /** `account` is the connected Stripe account when it is ready for payments. */
  function Reserve(s: State, account: Option<nat>, registration: nat, ticketType: nat): Result<State, CommerceError> {
    if account.None? then Err(CommerceNotReady)
    else if registration >= |s.roster.registrations| then Err(NotFound)
    else if s.roster.registrations[registration].payment != AwaitingPayment then Err(NotAwaitingPayment)
    else
      var freed := Supersede(s, registration);
      var error := PlacementError(freed, registration, ticketType);
      if error.Some? then Err(error.value) else Ok(PlaceOrder(freed, account.value, registration, ticketType))
  }

  // ---- mark_order_paid, fail_order, release_expired_holds ----

  predicate HasTicket(tickets: seq<Ticket>, participant: nat) {
    exists t :: 0 <= t < |tickets| && tickets[t].participant == participant
  }

  /** A ticket for each of the first `n` participants that is active, in the registration, and has none yet. */
  function IssueTickets(tickets: seq<Ticket>, people: seq<Participant>, registration: nat, order: nat, n: nat): seq<Ticket>
    requires n <= |people|
  {
    if n == 0 then tickets
    else
      var earlier := IssueTickets(tickets, people, registration, order, n - 1);
      var p := people[n - 1];
      if p.active && p.registration == registration && !HasTicket(earlier, n - 1)
      then earlier + [Ticket(order, n - 1, Valid)] else earlier
  }

  function SetPayment(r: Roster, registration: nat, payment: PaymentStatus): Roster {
    if registration >= |r.registrations| then r
    else r.(registrations := r.registrations[registration := r.registrations[registration].(payment := payment)])
  }

  function MarkPaid(s: State, o: nat): State {
    if o >= |s.orders| || o >= |s.holds| || Settled(s.orders[o].status) then s
    else
      var order := s.orders[o];
      s.(orders := s.orders[o := order.(
                     status := OrderPaid,
                     paidAt := if order.paidAt.Some? then order.paidAt else Some(s.now))],
         holds := s.holds[o := s.holds[o].(status := Converted)],
         roster := SetPayment(s.roster, order.registration, Paid),
         tickets := IssueTickets(s.tickets, s.roster.participants, order.registration, o, |s.roster.participants|),
         history := s.history + [OrderMoved(o, Some(order.status), OrderPaid)])
  }

  function FailOrder(s: State, o: nat, expired: bool): State {
    if o >= |s.orders| || o >= |s.holds| || s.orders[o].status != Pending then s
    else
      var status := if expired then Expired else OrderFailed;
      s.(orders := s.orders[o := s.orders[o].(status := status)],
         holds := if s.holds[o].status == Held then s.holds[o := s.holds[o].(status := Released)] else s.holds,
         history := s.history + [OrderMoved(o, Some(Pending), status)])
  }

  /** Orders, among the first `n`, whose hold is still HELD past its expiry. */
  function ExpiredHolds(s: State, n: nat): (ids: seq<nat>)
    requires n <= |s.holds|
    ensures forall k :: 0 <= k < |ids| ==> ids[k] < n
  {
    if n == 0 then []
    else ExpiredHolds(s, n - 1)
         + (if s.holds[n - 1].status == Held && s.holds[n - 1].expiresAt <= s.now then [n - 1] else [])
  }

  function ExpireAll(s: State, ids: seq<nat>): State {
    if ids == [] then s
    else FailOrder(ExpireAll(s, ids[..|ids| - 1]), ids[|ids| - 1], true)
  }

  function ReleaseExpiredHolds(s: State): State {
    ExpireAll(s, ExpiredHolds(s, |s.holds|))
  }

  /** Opening a checkout session for the order raised, so nobody knows whether there is one; the order is taken to be pending. */
  function NoteUncertainSession(s: State, o: nat): State {
    if o >= |s.orders| then s else s.(history := s.history + [OrderMoved(o, Some(Pending), Pending)])
  }

  // ---- Refunds ----

  function PrepareRefund(s: State, o: nat, amount: int): Result<State, CommerceError> {
    if o >= |s.orders| then Err(NotFound)
    else if s.orders[o].status !in {OrderPaid, PartiallyRefunded, Disputed} then Err(NotRefundable)
    else if amount < 1 || amount > s.orders[o].total - s.orders[o].refunded then Err(OutsideRefundableBalance)
    else Ok(s.(refunds := s.refunds + [Refund(o, amount, RefundPending, None)],
               history := s.history + [RefundMoved(o, |s.refunds|, None, RefundPending, None)]))
  }

  /** The provider refused the refund when it was submitted. */
  function FailSubmission(s: State, r: nat): State {
    if r >= |s.refunds| then s
    else s.(refunds := s.refunds[r := s.refunds[r].(status := RefundFailed)],
            history := s.history + [RefundMoved(s.refunds[r].order, r, Some(RefundPending), RefundFailed, None)])
  }

  function RefundOrder(order: Order, amount: nat): Order {
    var refunded := order.refunded + amount;
    order.(refunded := refunded,
           feeRefunded := ProportionalFeeRefund(order.fee, refunded, order.total),
           status := if refunded >= order.total then FullyRefunded else PartiallyRefunded)
  }

  function RefundTickets(tickets: seq<Ticket>, order: nat): (r: seq<Ticket>)
    ensures |r| == |tickets|
  {
    seq(|tickets|, t requires 0 <= t < |tickets| =>
      if tickets[t].order == order then tickets[t].(status := TicketRefunded) else tickets[t])
  }

  /** A refund object from the provider; an unknown provider status leaves the refund's status alone. */
  function ApplyRefund(s: State, r: nat, provider: Option<RefundStatus>): State {
    if r >= |s.refunds| || s.refunds[r].order >= |s.orders| then s
    else
      var before := s.refunds[r];
      var status := provider.GetOr(before.status);
      var entered := status == RefundSucceeded && before.status != RefundSucceeded;
      var o := before.order;
      var order := if entered then RefundOrder(s.orders[o], before.amount) else s.orders[o];
      var all := entered && order.status == FullyRefunded;
      s.(refunds := s.refunds[r := before.(
                      status := status, succeededAt := if entered then Some(s.now) else before.succeededAt)],
         orders := s.orders[o := order],
         tickets := if all then RefundTickets(s.tickets, o) else s.tickets,
         roster := if all then SetPayment(s.roster, order.registration, Refunded) else s.roster,
         history := if status == before.status then s.history
                    else s.history + [RefundMoved(o, r, Some(before.status), status, Some(order.status))])
  }

  // ---- Disputes and charges ----

  /** `stands` says the dispute closed without a chargeback. */
  function ApplyDispute(s: State, o: nat, stands: bool): State {
    if o >= |s.orders| then s
    else
      var status := if stands then OrderPaid else Disputed;
      s.(orders := s.orders[o := s.orders[o].(status := status)],
         history := s.history + [OrderMoved(o, Some(s.orders[o].status), status)])
  }

  function ApplyCharge(s: State, o: nat, totalFee: nat, applicationFee: nat): State {
    if o >= |s.orders| then s
    else s.(orders := s.orders[o := s.orders[o].(stripeFee := Some(Max(0, totalFee - applicationFee)))])
  }

  // ---- Runs ----

  datatype Step =
    | Tick(seconds: nat)
    | Respond(request: Request)
    | ReserveOrder(account: Option<nat>, registration: nat, ticketType: nat)
    | SessionUncertain(order: nat)
    | PaySucceeded(order: nat)
    | PayFailed(order: nat, expired: bool)
    | ReleaseHolds
    | RequestRefund(order: nat, amount: int)
    | RefundSubmissionFailed(refund: nat)
    | RefundUpdate(refund: nat, provider: Option<RefundStatus>)
    | DisputeUpdate(order: nat, stands: bool)
    | ChargeUpdate(order: nat, totalFee: nat, applicationFee: nat)

  /** One atomic transaction; a refused one is rolled back. */
  function Next(s: State, step: Step): State {
    match step
    case Tick(seconds) => s.(now := s.now + seconds)
    case Respond(q) =>
      var outcome := SaveResponse(s.setup.occurrences, s.roster, q);
      if outcome.Ok? then s.(roster := outcome.value) else s
    case ReserveOrder(account, g, t) =>
      var outcome := Reserve(s, account, g, t);
      if outcome.Ok? then outcome.value else s
    case SessionUncertain(o) => NoteUncertainSession(s, o)
    case PaySucceeded(o) => MarkPaid(s, o)
    case PayFailed(o, expired) => FailOrder(s, o, expired)
    case ReleaseHolds => ReleaseExpiredHolds(s)
    case RequestRefund(o, amount) =>
      var outcome := PrepareRefund(s, o, amount);
      if outcome.Ok? then outcome.value else s
    case RefundSubmissionFailed(r) => FailSubmission(s, r)
    case RefundUpdate(r, provider) => ApplyRefund(s, r, provider)
    case DisputeUpdate(o, stands) => ApplyDispute(s, o, stands)
    case ChargeUpdate(o, totalFee, applicationFee) => ApplyCharge(s, o, totalFee, applicationFee)
  }

  function Run(s: State, steps: seq<Step>): State {
    if steps == [] then s else Next(Run(s, steps[..|steps| - 1]), steps[|steps| - 1])
  }
}
