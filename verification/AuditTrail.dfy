/** The financial history of a commerce run against the rows it is about (payments/services.py). */
module AuditTrail {
  import opened Wrappers
  import opened Commerce
  import opened CommerceTables
  import opened LatePayment

  /** The order status the history ends in. */
  function LastOrderStatus(history: seq<Transition>, o: nat): Option<OrderStatus> {
    if history == [] then None
    else
      match history[|history| - 1]
      case OrderMoved(order, _, next) =>
        if order == o then Some(next) else LastOrderStatus(history[..|history| - 1], o)
      case RefundMoved(order, _, _, _, status) =>
        if order == o && status.Some? then status else LastOrderStatus(history[..|history| - 1], o)
  }

  function LastRefundStatus(history: seq<Transition>, r: nat): Option<RefundStatus> {
    if history == [] then None
    else
      var e := history[|history| - 1];
      if e.RefundMoved? && e.refund == r then Some(e.after)
      else LastRefundStatus(history[..|history| - 1], r)
  }

  ghost predicate AuditReplays(s: State) {
    && |s.orders| == |s.holds|
    && (forall o: nat :: LastOrderStatus(s.history, o) == if o < |s.orders| then Some(s.orders[o].status) else None)
    && (forall r: nat :: LastRefundStatus(s.history, r) == if r < |s.refunds| then Some(s.refunds[r].status) else None)
  }

  lemma HistoryGrew(history: seq<Transition>, e: Transition)
    ensures forall o: nat :: LastOrderStatus(history + [e], o)
                        == match e
                           case OrderMoved(order, _, next) =>
                             if order == o then Some(next) else LastOrderStatus(history, o)
                           case RefundMoved(order, _, _, _, status) =>
                             if order == o && status.Some? then status else LastOrderStatus(history, o)
    ensures forall r: nat :: LastRefundStatus(history + [e], r)
                        == if e.RefundMoved? && e.refund == r then Some(e.after) else LastRefundStatus(history, r)
  {
    assert (history + [e])[..|history|] == history;
  }

  lemma FailOrderKeepsAudit(s: State, o: nat, expired: bool)
    requires AuditReplays(s)
    ensures AuditReplays(FailOrder(s, o, expired))
  {
    HistoryGrew(s.history, OrderMoved(o, Some(Pending), if expired then Expired else OrderFailed));
  }

  lemma {:induction false} ExpireAllKeepsAudit(s: State, ids: seq<nat>)
    requires AuditReplays(s)
    ensures AuditReplays(ExpireAll(s, ids))
  {
    if ids != [] {
      ExpireAllKeepsAudit(s, ids[..|ids| - 1]);
      FailOrderKeepsAudit(ExpireAll(s, ids[..|ids| - 1]), ids[|ids| - 1], true);
    }
  }

  lemma ReserveKeepsAudit(s: State, account: Option<nat>, g: nat, t: nat)
    requires AuditReplays(s) && Reserve(s, account, g, t).Ok?
    ensures AuditReplays(Reserve(s, account, g, t).value)
  {
    var pending := PendingOrderOf(s.orders, g);
    if pending.Some? {
      FailOrderKeepsAudit(s, pending.value, true);
    }
    var freed := Supersede(s, g);
    HistoryGrew(freed.history, OrderMoved(|freed.orders|, None, Pending));
  }

  lemma RequestKeepsAudit(s: State, o: nat, amount: int)
    requires AuditReplays(s) && PrepareRefund(s, o, amount).Ok?
    ensures AuditReplays(PrepareRefund(s, o, amount).value)
  {
    HistoryGrew(s.history, RefundMoved(o, |s.refunds|, None, RefundPending, None));
  }

  lemma FailedSubmissionKeepsAudit(s: State, r: nat)
    requires AuditReplays(s)
    ensures AuditReplays(FailSubmission(s, r))
  {
    if r < |s.refunds| {
      HistoryGrew(s.history, RefundMoved(s.refunds[r].order, r, Some(RefundPending), RefundFailed, None));
    }
  }

  lemma RefundUpdateKeepsAudit(s: State, r: nat, provider: Option<RefundStatus>)
    requires AuditReplays(s)
    ensures AuditReplays(ApplyRefund(s, r, provider))
  {
    var t := ApplyRefund(s, r, provider);
    if |t.history| != |s.history| {
      HistoryGrew(s.history, t.history[|s.history|]);
    }
  }

  /** The step notes an uncertain session on an order that is no longer pending, although the note says it is. */
  predicate Misnotes(s: State, step: Step) {
    step.SessionUncertain? && step.order < |s.orders| && s.orders[step.order].status != Pending
  }

  predicate NeverMisnotes(s: State, steps: seq<Step>) {
    steps == []
    || (NeverMisnotes(s, steps[..|steps| - 1]) && !Misnotes(Run(s, steps[..|steps| - 1]), steps[|steps| - 1]))
  }

  lemma NoteKeepsAudit(s: State, o: nat)
    requires AuditReplays(s)
    ensures AuditReplays(NoteUncertainSession(s, o)) <==> !Misnotes(s, SessionUncertain(o))
  {
    var t := NoteUncertainSession(s, o);
    HistoryGrew(s.history, OrderMoved(o, Some(Pending), Pending));
    if o < |s.orders| {
      assert LastOrderStatus(t.history, o) == Some(Pending);
    }
  }

  lemma OrderStepKeepsAudit(s: State, step: Step)
    requires AuditReplays(s)
    requires step.PaySucceeded? || step.DisputeUpdate?
    ensures AuditReplays(Next(s, step))
  {
    if step.order < |s.orders| {
      var order := s.orders[step.order];
      HistoryGrew(s.history, OrderMoved(step.order, Some(order.status),
                                        if step.PaySucceeded? || step.stands then OrderPaid else Disputed));
    }
  }

  /** A step keeps the history in agreement with every order and every refund if and only if it does not misnote a session. */
  lemma AuditBreaksExactly(s: State, step: Step)
    requires Tables(s) && AuditReplays(s)
    ensures AuditReplays(Next(s, step)) <==> !Misnotes(s, step)
  {
    match step
    case SessionUncertain(o) => NoteKeepsAudit(s, o);
    case ReserveOrder(account, g, t) =>
      if Reserve(s, account, g, t).Ok? {
        ReserveKeepsAudit(s, account, g, t);
      }
    case PaySucceeded(o) => OrderStepKeepsAudit(s, step);
    case PayFailed(o, expired) => FailOrderKeepsAudit(s, o, expired);
    case ReleaseHolds => ExpireAllKeepsAudit(s, ExpiredHolds(s, |s.holds|));
    case DisputeUpdate(o, stands) => OrderStepKeepsAudit(s, step);
    case RequestRefund(o, amount) =>
      if PrepareRefund(s, o, amount).Ok? {
        RequestKeepsAudit(s, o, amount);
      }
    case RefundSubmissionFailed(r) => FailedSubmissionKeepsAudit(s, r);
    case RefundUpdate(r, provider) => RefundUpdateKeepsAudit(s, r, provider);
    case _ =>
  }

  /** Unless a session is misnoted, replaying the history of any run gives back every order's and every refund's status. */
  lemma {:induction false} AuditAlwaysReplays(setup: Setup, steps: seq<Step>)
    requires NeverMisnotes(Initial(setup), steps)
    ensures AuditReplays(Run(Initial(setup), steps))
  {
    if steps != [] {
      var earlier := steps[..|steps| - 1];
      AuditAlwaysReplays(setup, earlier);
      RunKeepsTables(setup, earlier);
      AuditBreaksExactly(Run(Initial(setup), earlier), steps[|steps| - 1]);
    }
  }

  const LATE_NOTE: seq<Step> := ALL_STEPS[..3] + [PayFailed(0, true)] + [SessionUncertain(0)]

  /** The order expires while its session is being opened, opening fails, and the history ends in PENDING. */
  lemma LateNoteMisleads()
    ensures var s := Run(Initial(SHOP), LATE_NOTE);
            && |s.orders| == 1 && s.orders[0].status == Expired && LastOrderStatus(s.history, 0) == Some(Pending)
  {
    HoldingSteps();
    var steps := ALL_STEPS[..3];
    assert (steps + [PayFailed(0, true)])[..|steps|] == steps;
    assert LATE_NOTE[..|LATE_NOTE| - 1] == steps + [PayFailed(0, true)];
    NoteAfterExpiry(AFTER_HOLD);
  }

  lemma NoteAfterExpiry(s: State)
    requires |s.orders| == |s.holds| == 1 && s.orders[0].status == Pending
    ensures var t := Next(Next(s, PayFailed(0, true)), SessionUncertain(0));
            && |t.orders| == 1 && t.orders[0].status == Expired && LastOrderStatus(t.history, 0) == Some(Pending)
  {
  }
}
