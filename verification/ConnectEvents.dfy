/** Stripe Connect events, dispatched to commerce steps (payments/services.py, _apply_connect_event). */
module ConnectEvents {
  import opened Wrappers
  import opened Commerce
  import opened CommerceTables
  import opened Inbox

  datatype EventType =
    | CheckoutCompleted(paid: bool)
    | AsyncPaymentSucceeded
    | PaymentIntentSucceeded
    | ChargeSucceeded(itemized: bool, totalFee: nat, applicationFee: nat)
    | SessionExpired
    | AsyncPaymentFailed
    | PaymentIntentFailed
    | RefundEvent(refund: Option<nat>, provider: Option<RefundStatus>)
    | DisputeEvent(disputed: Option<nat>, closed: bool, withoutChargeback: bool)
    | OtherEvent

  /** `order` is the order the event's object leads to, `account` the connected account it came from. */
  datatype ConnectEvent = ConnectEvent(account: Option<nat>, order: Option<nat>, kind: EventType)

  datatype Mismatch = AccountMismatch

  function OrderAt(s: State, o: Option<nat>): Option<Order> {
    if o.Some? && o.value < |s.orders| then Some(s.orders[o.value]) else None
  }

  /** An account that is given must be the order's. */
  predicate Contradicts(account: Option<nat>, order: Option<Order>) {
    account.Some? && order.Some? && account.value != order.value.account
  }

  /** The step an event asks for, none when it concerns nothing here, or the account mismatch. */
  function StepFor(s: State, e: ConnectEvent): Result<Option<Step>, Mismatch> {
    var order := OrderAt(s, e.order);
    if order.Some? && e.account != Some(order.value.account) then Err(AccountMismatch)
    else
      match e.kind
      case CheckoutCompleted(paid) =>
        Ok(if order.Some? && paid then Some(PaySucceeded(e.order.value)) else None)
      case AsyncPaymentSucceeded => Ok(if order.Some? then Some(PaySucceeded(e.order.value)) else None)
      case PaymentIntentSucceeded => Ok(if order.Some? then Some(PaySucceeded(e.order.value)) else None)
      case ChargeSucceeded(itemized, totalFee, applicationFee) =>
        Ok(if order.Some? && itemized then Some(ChargeUpdate(e.order.value, totalFee, applicationFee)) else None)
      case SessionExpired => Ok(if order.Some? then Some(PayFailed(e.order.value, true)) else None)
      case AsyncPaymentFailed => Ok(if order.Some? then Some(PayFailed(e.order.value, false)) else None)
      case PaymentIntentFailed => Ok(if order.Some? then Some(PayFailed(e.order.value, false)) else None)
      case RefundEvent(r, provider) =>
        if r.None? || r.value >= |s.refunds| then Ok(None)
        else if Contradicts(e.account, OrderAt(s, Some(s.refunds[r.value].order))) then Err(AccountMismatch)
        else Ok(Some(RefundUpdate(r.value, provider)))
      case DisputeEvent(o, closed, withoutChargeback) =>
        if OrderAt(s, o).None? then Ok(None)
        else if Contradicts(e.account, OrderAt(s, o)) then Err(AccountMismatch)
        else Ok(Some(DisputeUpdate(o.value, closed && withoutChargeback)))
      case OtherEvent => Ok(None)
  }

  function Apply(s: State, e: ConnectEvent): Result<State, Mismatch> {
    var step := StepFor(s, e);
    if step.Err? then Err(step.error)
    else Ok(if step.value.Some? then Next(s, step.value.value) else s)
  }

  const HANDLER: Handler<State, ConnectEvent, Mismatch> := (s: State, e: ConnectEvent) => Apply(s, e)

  /** The steps a list of applied events took, one for each event that concerned something here. */
  function StepsTaken(s: State, events: seq<Delivery<ConnectEvent>>): seq<Step> {
    if events == [] then []
    else
      var earlier := events[..|events| - 1];
      var step := StepFor(Fold(HANDLER, s, earlier), events[|events| - 1].event);
      StepsTaken(s, earlier) + (if step.Ok? && step.value.Some? then [step.value.value] else [])
  }

  lemma {:induction false} FoldIsRun(s: State, events: seq<Delivery<ConnectEvent>>)
    ensures Fold(HANDLER, s, events) == Run(s, StepsTaken(s, events))
    ensures |StepsTaken(s, events)| <= |events|
  {
    if events != [] {
      var earlier := events[..|events| - 1];
      FoldIsRun(s, earlier);
      var world := Fold(HANDLER, s, earlier);
      var step := StepFor(world, events[|events| - 1].event);
      assert HANDLER(world, events[|events| - 1].event) == Apply(world, events[|events| - 1].event);
      var steps := StepsTaken(s, events);
      if step.Ok? && step.value.Some? {
        assert steps[..|steps| - 1] == StepsTaken(s, earlier);
        assert steps[|steps| - 1] == step.value.value;
      } else {
        assert steps == StepsTaken(s, earlier);
      }
    }
  }

  /** Whatever Stripe redelivers and whatever fails on the way, the commerce state is a run of at most one step per distinct event. */
  lemma DeliveriesActOnce(s: State, ds: seq<Delivery<ConnectEvent>>)
    ensures var b := ProcessAll(HANDLER, Box(s, map[]), ds);
            var applied := FirstSuccesses(HANDLER, s, ds);
            && DistinctIds(applied)
            && b.world == Run(s, StepsTaken(s, applied))
            && |StepsTaken(s, applied)| <= |applied|
  {
    AppliedExactlyOnce(HANDLER, s, ds);
    FoldIsRun(s, FirstSuccesses(HANDLER, s, ds));
  }

  // ---- Webhooks among everything else that happens ----

  /** A delivery, or a step of the commerce machine that no webhook asked for. */
  datatype Happening = Arrives(delivery: Delivery<ConnectEvent>) | Elsewhere(step: Step)

  function Happen(b: Box<State>, h: Happening): Box<State> {
    match h
    case Arrives(d) => Process(HANDLER, b, d)
    case Elsewhere(step) => b.(world := Next(b.world, step))
  }

  function HappenAll(b: Box<State>, hs: seq<Happening>): Box<State> {
    if hs == [] then b else Happen(HappenAll(b, hs[..|hs| - 1]), hs[|hs| - 1])
  }

  /** The delivery is tried, and the event applied. */
  predicate Applies(b: Box<State>, d: Delivery<ConnectEvent>) {
    RowOf(b.rows, d.id).status != Processed && !d.interrupted && StepFor(b.world, d.event).Ok?
  }

  /** The step the happening takes, if any. */
  function StepOf(b: Box<State>, h: Happening): seq<Step> {
    match h
    case Elsewhere(step) => [step]
    case Arrives(d) =>
      if !Applies(b, d) || StepFor(b.world, d.event).value.None? then []
      else [StepFor(b.world, d.event).value.value]
  }

  function StepsOf(b: Box<State>, hs: seq<Happening>): seq<Step> {
    if hs == [] then []
    else StepsOf(b, hs[..|hs| - 1]) + StepOf(HappenAll(b, hs[..|hs| - 1]), hs[|hs| - 1])
  }

  /** The ids of the events applied, in that order. */
  function AppliedIds(b: Box<State>, hs: seq<Happening>): seq<nat> {
    if hs == [] then []
    else
      var h := hs[|hs| - 1];
      AppliedIds(b, hs[..|hs| - 1])
      + if h.Arrives? && Applies(HappenAll(b, hs[..|hs| - 1]), h.delivery) then [h.delivery.id] else []
  }

  function StepsElsewhere(hs: seq<Happening>): nat {
    if hs == [] then 0
    else StepsElsewhere(hs[..|hs| - 1]) + if hs[|hs| - 1].Elsewhere? then 1 else 0
  }

  predicate IsProcessed(b: Box<State>, id: nat) { RowOf(b.rows, id).status == Processed }

  lemma OneHappening(b: Box<State>, h: Happening)
    ensures var t := Happen(b, h);
            && t.world == (if StepOf(b, h) == [] then b.world else Next(b.world, StepOf(b, h)[0]))
            && forall id: nat :: IsProcessed(t, id) <==>
                 IsProcessed(b, id) || (h.Arrives? && Applies(b, h.delivery) && id == h.delivery.id)
  {
    if h.Arrives? {
      assert HANDLER(b.world, h.delivery.event) == Apply(b.world, h.delivery.event);
    }
  }

  lemma RunOneMore(s: State, steps: seq<Step>, more: seq<Step>)
    requires |more| <= 1
    ensures Run(s, steps + more) == if more == [] then Run(s, steps) else Next(Run(s, steps), more[0])
  {
    if more == [] {
      assert steps + more == steps;
    } else {
      assert (steps + more)[..|steps|] == steps;
    }
  }

  lemma {:induction false} HappeningsAreARun(b: Box<State>, hs: seq<Happening>)
    ensures HappenAll(b, hs).world == Run(b.world, StepsOf(b, hs))
    ensures |StepsOf(b, hs)| <= StepsElsewhere(hs) + |AppliedIds(b, hs)|
  {
    if hs != [] {
      var earlier, h := hs[..|hs| - 1], hs[|hs| - 1];
      HappeningsAreARun(b, earlier);
      OneHappening(HappenAll(b, earlier), h);
      RunOneMore(b.world, StepsOf(b, earlier), StepOf(HappenAll(b, earlier), h));
    }
  }

  /** The ids are distinct, were not processed before, and with those processed before are all that are processed now. */
  ghost predicate NewlyProcessed(b: Box<State>, t: Box<State>, ids: seq<nat>) {
    && (forall j, k :: 0 <= j < k < |ids| ==> ids[j] != ids[k])
    && (forall id: nat :: IsProcessed(t, id) <==> IsProcessed(b, id) || id in ids)
    && (forall id :: id in ids ==> !IsProcessed(b, id))
  }

  lemma OneMoreProcessed(b: Box<State>, t: Box<State>, u: Box<State>, ids: seq<nat>, more: seq<nat>)
    requires NewlyProcessed(b, t, ids) && |more| <= 1 && (more != [] ==> !IsProcessed(t, more[0]))
    requires forall id: nat :: IsProcessed(u, id) <==> IsProcessed(t, id) || id in more
    ensures NewlyProcessed(b, u, ids + more)
  {
  }

  lemma {:induction false} IdsAreNew(b: Box<State>, hs: seq<Happening>)
    ensures NewlyProcessed(b, HappenAll(b, hs), AppliedIds(b, hs))
  {
    if hs != [] {
      var earlier, h := hs[..|hs| - 1], hs[|hs| - 1];
      var t := HappenAll(b, earlier);
      IdsAreNew(b, earlier);
      OneHappening(t, h);
      OneMoreProcessed(b, t, HappenAll(b, hs), AppliedIds(b, earlier),
                       if h.Arrives? && Applies(t, h.delivery) then [h.delivery.id] else []);
    }
  }

  /**
    Wherever the inbox stands and whatever else goes on between deliveries, the commerce state is a
    run of the other steps and of at most one step for each distinct event, none of them applied before.
    */
  lemma WebhooksActOnce(b: Box<State>, hs: seq<Happening>)
    ensures var t, ids := HappenAll(b, hs), AppliedIds(b, hs);
            && t.world == Run(b.world, StepsOf(b, hs))
            && |StepsOf(b, hs)| <= StepsElsewhere(hs) + |ids|
            && NewlyProcessed(b, t, ids)
  {
    HappeningsAreARun(b, hs);
    IdsAreNew(b, hs);
  }

  /** A payment event for an order, from its own account, as the provider numbers its kinds. */
  predicate Success(e: EventType) {
    e == CheckoutCompleted(true) || e == AsyncPaymentSucceeded || e == PaymentIntentSucceeded
  }

  predicate Failure(e: EventType) {
    e == SessionExpired || e == AsyncPaymentFailed || e == PaymentIntentFailed
  }

  /** A success settles the order whatever it was, a failure ends it only while pending, a completed but unpaid checkout does nothing. */
  lemma PaymentEventsTakeEffect(s: State, o: nat, kind: EventType)
    requires Tables(s) && o < |s.orders|
    ensures var e := ConnectEvent(Some(s.orders[o].account), Some(o), kind);
            var outcome := Apply(s, e);
            var before := s.orders[o].status;
            && (Success(kind) ==> outcome.Ok? && o < |outcome.value.orders|
                                  && outcome.value.orders[o].status == if Settled(before) then before else OrderPaid)
            && (Failure(kind) ==> outcome.Ok? && o < |outcome.value.orders|
                                  && outcome.value.orders[o].status
                                     == if before != Pending then before
                                        else if kind == SessionExpired then Expired else OrderFailed)
            && (kind == CheckoutCompleted(false) ==> outcome == Ok(s))
  {
  }

  // ---- A payment, whatever the webhooks do ----

  predicate PaymentEvent(e: EventType) {
    Success(e) || Failure(e) || e == CheckoutCompleted(false)
  }

  /** Deliveries of payment events for the order, from its own account; a delivery of the same id is of the same event. */
  ghost predicate PaymentDeliveries(ds: seq<Delivery<ConnectEvent>>, account: nat, o: nat) {
    && (forall k :: 0 <= k < |ds| ==>
          ds[k].event.account == Some(account) && ds[k].event.order == Some(o) && PaymentEvent(ds[k].event.kind))
    && (forall j, k :: 0 <= j < |ds| && 0 <= k < |ds| && ds[j].id == ds[k].id ==> ds[j].event == ds[k].event)
  }

  predicate GotThrough(ds: seq<Delivery<ConnectEvent>>, id: nat) {
    exists k :: 0 <= k < |ds| && ds[k].id == id && !ds[k].interrupted
  }

  predicate SuccessGotThrough(ds: seq<Delivery<ConnectEvent>>) {
    exists k :: 0 <= k < |ds| && Success(ds[k].event.kind) && !ds[k].interrupted
  }

  /** What deliveries come to for an order that was not settled before them. */
  ghost predicate Paid(b: Box<State>, ds: seq<Delivery<ConnectEvent>>, account: nat, o: nat) {
    && Tables(b.world) && o < |b.world.orders| && b.world.orders[o].account == account
    && (Settled(b.world.orders[o].status) <==> SuccessGotThrough(ds))
    && (forall id: nat :: IsProcessed(b, id) <==> GotThrough(ds, id))
  }

  lemma GotThroughOneMore(ds: seq<Delivery<ConnectEvent>>, d: Delivery<ConnectEvent>)
    ensures forall id: nat :: GotThrough(ds + [d], id) <==> GotThrough(ds, id) || (d.id == id && !d.interrupted)
    ensures SuccessGotThrough(ds + [d]) <==> SuccessGotThrough(ds) || (Success(d.event.kind) && !d.interrupted)
  {
    var more := ds + [d];
    assert more[|ds|] == d && forall k :: 0 <= k < |ds| ==> more[k] == ds[k];
    forall id: nat
      ensures GotThrough(more, id) <==> GotThrough(ds, id) || (d.id == id && !d.interrupted)
    {
      if k :| 0 <= k < |ds| && ds[k].id == id && !ds[k].interrupted {
        assert more[k].id == id;
      }
    }
    if k :| 0 <= k < |ds| && Success(ds[k].event.kind) && !ds[k].interrupted {
      assert Success(more[k].event.kind);
    }
  }

  lemma AppliedPaymentEvent(s: State, o: nat, kind: EventType)
    requires Tables(s) && RosterOk(s) && o < |s.orders| && PaymentEvent(kind)
    ensures var outcome := Apply(s, ConnectEvent(Some(s.orders[o].account), Some(o), kind));
            && outcome.Ok? && Tables(outcome.value) && RosterOk(outcome.value)
            && o < |outcome.value.orders| && outcome.value.orders[o].account == s.orders[o].account
            && (Settled(outcome.value.orders[o].status) <==> Settled(s.orders[o].status) || Success(kind))
  {
    PaymentEventsTakeEffect(s, o, kind);
    NextKeepsTables(s, PaySucceeded(o));
    NextKeepsTables(s, PayFailed(o, kind == SessionExpired));
  }

  lemma OnePaymentDelivery(b: Box<State>, ds: seq<Delivery<ConnectEvent>>, d: Delivery<ConnectEvent>, account: nat, o: nat)
    requires Paid(b, ds, account, o) && RosterOk(b.world) && PaymentDeliveries(ds + [d], account, o)
    ensures Paid(Process(HANDLER, b, d), ds + [d], account, o) && RosterOk(Process(HANDLER, b, d).world)
  {
    GotThroughOneMore(ds, d);
    var more := ds + [d];
    assert more[|ds|] == d;
    if IsProcessed(b, d.id) {
      var k :| 0 <= k < |ds| && ds[k].id == d.id && !ds[k].interrupted;
      assert more[k].event == more[|ds|].event;
      assert Success(d.event.kind) ==> Success(ds[k].event.kind);
    } else {
      AppliedPaymentEvent(b.world, o, d.event.kind);
      assert HANDLER(b.world, d.event) == Apply(b.world, d.event);
    }
  }

  /**
    However the payment events of an order are ordered, repeated, interrupted and retried, it ends settled
    if and only if one delivery of a success got through.
    */
  lemma {:induction false} PaidIffSuccessGotThrough(s: State, o: nat, ds: seq<Delivery<ConnectEvent>>)
    requires Tables(s) && RosterOk(s) && o < |s.orders| && !Settled(s.orders[o].status)
    requires PaymentDeliveries(ds, s.orders[o].account, o)
    ensures var b := ProcessAll(HANDLER, Box(s, map[]), ds);
            Paid(b, ds, s.orders[o].account, o) && RosterOk(b.world)
  {
    if ds != [] {
      var n := |ds| - 1;
      var earlier, d := ds[..n], ds[n];
      PaidIffSuccessGotThrough(s, o, earlier);
      var b := ProcessAll(HANDLER, Box(s, map[]), earlier);
      assert ds == earlier + [d];
      assert forall k :: 0 <= k < n ==> ds[k] == earlier[k];
      OnePaymentDelivery(b, earlier, d, s.orders[o].account, o);
    }
  }

  /** A step an event can ask for leaves every order alone but the one it is about. */
  lemma EventStepLeavesOthers(s: State, step: Step, i: nat)
    requires i < |s.orders|
    requires match step
             case PaySucceeded(o) => o != i
             case PayFailed(o, _) => o != i
             case DisputeUpdate(o, _) => o != i
             case ChargeUpdate(o, _, _) => o != i
             case RefundUpdate(r, _) => r < |s.refunds| ==> s.refunds[r].order != i
             case _ => false
    ensures i < |Next(s, step).orders| && Next(s, step).orders[i] == s.orders[i]
  {
  }

  /** Every order keeps its hold, and every refund its order, through the steps events ask for. */
  predicate Shaped(s: State) {
    |s.orders| == |s.holds| && forall r :: 0 <= r < |s.refunds| ==> s.refunds[r].order < |s.orders|
  }

  lemma EventStepKeepsShape(s: State, step: Step)
    requires Shaped(s)
    requires step.PaySucceeded? || step.PayFailed? || step.RefundUpdate? || step.DisputeUpdate? || step.ChargeUpdate?
    ensures Shaped(Next(s, step))
  {
  }

  /** An event from one account never touches an order of another. */
  lemma EventsRespectAccounts(s: State, e: ConnectEvent, i: nat)
    requires Tables(s) && i < |s.orders| && e.account.Some? && s.orders[i].account != e.account.value
    ensures Apply(s, e).Ok? ==> i < |Apply(s, e).value.orders| && Apply(s, e).value.orders[i] == s.orders[i]
  {
    if e.kind.RefundEvent? && e.kind.refund.Some? && e.kind.refund.value < |s.refunds| {
      assert RefundRow(s, e.kind.refund.value);
    }
    var step := StepFor(s, e);
    if step.Ok? && step.value.Some? {
      EventStepLeavesOthers(s, step.value.value, i);
    }
  }
}
