/** Platform subscriptions driven by Stripe events that may arrive late, twice or out of order (subscriptions/services.py). */
module Subscriptions {
  import opened Wrappers

  datatype Status = Trialing | Active | Grace | Suspended | Canceled | Archived
  datatype SiteStatus = SiteTrialing | SiteActive | SiteGrace | SiteSuspended | SiteCanceled | SiteArchived
  datatype ProviderStatus = ProviderActive | ProviderTrialing | ProviderPastDue | ProviderUnpaid
                          | ProviderCanceled | ProviderPaused | ProviderOther

  datatype Subscription = Subscription(
    status: Status, site: SiteStatus, lastEventAt: Option<nat>,
    trialEndsAt: nat, graceEndsAt: Option<nat>, suspendedAt: Option<nat>, canceledAt: Option<nat>,
    cancelAtPeriodEnd: bool, periodEndsAt: Option<nat>)

  datatype Kind =
    | CheckoutCompleted
    | InvoicePaid
    | Resumed
    | PaymentFailed
    | Deleted
    | Paused
    | Updated(provider: ProviderStatus, cancelAtPeriodEnd: bool, periodEndsAt: Option<nat>)
    | Unhandled

  /** `receivedAt` is the clock when the event is applied, `created` the provider's own time. */
  datatype Event = Event(kind: Kind, created: Option<nat>, receivedAt: nat)

  /** SUBSCRIPTION_GRACE_DAYS, in seconds, is a setting. */
  datatype Settings = Settings(graceSeconds: nat)

  function SiteStatusFor(status: Status): SiteStatus {
    match status
    case Trialing => SiteTrialing
    case Active => SiteActive
    case Grace => SiteGrace
    case Suspended => SiteSuspended
    case Canceled => SiteCanceled
    case Archived => SiteArchived
  }

  function SetStatus(s: Subscription, status: Status, now: nat): Subscription {
    s.(status := status, site := SiteStatusFor(status),
       suspendedAt := match status
                      case Suspended => Some(now)
                      case Active => None
                      case Trialing => None
                      case Grace => None
                      case _ => s.suspendedAt)
  }

  predicate IsStale(s: Subscription, created: Option<nat>) {
    created.Some? && s.lastEventAt.Some? && created.value < s.lastEventAt.value
  }

  function Stamped(s: Subscription, created: Option<nat>): Subscription {
    if created.Some? then s.(lastEventAt := created) else s
  }

  function ProviderTarget(p: ProviderStatus): Option<Status> {
    match p
    case ProviderActive => Some(Active)
    case ProviderTrialing => Some(Trialing)
    case ProviderPastDue => Some(Grace)
    case ProviderUnpaid => Some(Grace)
    case ProviderCanceled => Some(Suspended)
    case ProviderPaused => Some(Suspended)
    case ProviderOther => None
  }

  function ApplyEvent(settings: Settings, s: Subscription, e: Event): Subscription {
    if IsStale(s, e.created) then s
    else
      var t, now := Stamped(s, e.created), e.receivedAt;
      match e.kind
      case CheckoutCompleted => t
      case InvoicePaid => SetStatus(t.(graceEndsAt := None), Active, now)
      case Resumed => SetStatus(t.(graceEndsAt := None), Active, now)
      case PaymentFailed => SetStatus(t.(graceEndsAt := Some(now + settings.graceSeconds)), Grace, now)
      case Deleted => SetStatus(t.(canceledAt := Some(now)), Canceled, now)
      case Paused => SetStatus(t, Suspended, now)
      case Updated(provider, cancel, periodEnd) =>
        var u := t.(cancelAtPeriodEnd := cancel, periodEndsAt := periodEnd);
        var target := ProviderTarget(provider);
        if target.None? then u
        else
          var grace := if target.value == Grace && u.graceEndsAt.None? then Some(now + settings.graceSeconds)
                       else u.graceEndsAt;
          SetStatus(u.(graceEndsAt := grace), target.value, now)
      case Unhandled => s
  }

  /** `exempt` says the site has an administrator whose subscription is waived. */
  function SynchronizeAccess(s: Subscription, exempt: bool, now: nat): Subscription {
    if exempt then s
    else if s.status == Trialing && s.trialEndsAt <= now then SetStatus(s, Suspended, now)
    else if s.status == Grace && s.graceEndsAt.Some? && s.graceEndsAt.value <= now then SetStatus(s, Suspended, now)
    else s
  }

  datatype Step = Webhook(event: Event) | Synchronize(exempt: bool, now: nat)

  function Next(settings: Settings, s: Subscription, step: Step): Subscription {
    match step
    case Webhook(e) => ApplyEvent(settings, s, e)
    case Synchronize(exempt, now) => SynchronizeAccess(s, exempt, now)
  }

  function Run(settings: Settings, s: Subscription, steps: seq<Step>): Subscription {
    if steps == [] then s
    else Next(settings, Run(settings, s, steps[..|steps| - 1]), steps[|steps| - 1])
  }

  // ---- The site follows the subscription, and event time only moves forward ----

  lemma NextKeepsSite(settings: Settings, s: Subscription, step: Step)
    requires s.site == SiteStatusFor(s.status)
    ensures var t := Next(settings, s, step); t.site == SiteStatusFor(t.status)
  {
  }

  lemma {:induction false} SiteFollowsSubscription(settings: Settings, s: Subscription, steps: seq<Step>)
    requires s.site == SiteStatusFor(s.status)
    ensures var t := Run(settings, s, steps); t.site == SiteStatusFor(t.status)
  {
    if steps != [] {
      SiteFollowsSubscription(settings, s, steps[..|steps| - 1]);
      NextKeepsSite(settings, Run(settings, s, steps[..|steps| - 1]), steps[|steps| - 1]);
    }
  }

  predicate NotBefore(a: Option<nat>, b: Option<nat>) {
    a.None? || (b.Some? && a.value <= b.value)
  }

  lemma {:induction false} EventTimeNeverGoesBack(settings: Settings, s: Subscription, steps: seq<Step>)
    ensures NotBefore(s.lastEventAt, Run(settings, s, steps).lastEventAt)
  {
    if steps != [] {
      EventTimeNeverGoesBack(settings, s, steps[..|steps| - 1]);
    }
  }

  // ---- Convergence ----

  /** The status an event asks for, if it asks for one. */
  function StatusOf(e: Event): Option<Status> {
    match e.kind
    case InvoicePaid => Some(Active)
    case Resumed => Some(Active)
    case PaymentFailed => Some(Grace)
    case Deleted => Some(Canceled)
    case Paused => Some(Suspended)
    case Updated(provider, _, _) => ProviderTarget(provider)
    case _ => None
  }

  predicate StatusBearing(e: Event) {
    e.created.Some? && StatusOf(e).Some?
  }

  /** Deliveries created at the same moment are deliveries of one event. */
  ghost predicate DistinctTimes(events: seq<Event>) {
    forall i, j :: 0 <= i < |events| && 0 <= j < |events| && events[i].created == events[j].created ==>
      events[i].kind == events[j].kind
  }

  function Deliver(settings: Settings, s: Subscription, events: seq<Event>): Subscription {
    if events == [] then s
    else ApplyEvent(settings, Deliver(settings, s, events[..|events| - 1]), events[|events| - 1])
  }

  ghost predicate IsNewest(events: seq<Event>, e: Event) {
    e in events && e.created.Some? &&
    forall i :: 0 <= i < |events| && events[i].created.Some? ==> events[i].created.value <= e.created.value
  }

  /** The status and the time are the event's. */
  predicate ShowsEvent(s: Subscription, e: Event) {
    Some(s.status) == StatusOf(e) && s.lastEventAt == e.created
  }

  /** Delivering another event no newer than the one shown, or the same again. */
  lemma OlderEventChangesNothing(settings: Settings, s: Subscription, newest: Event, last: Event)
    requires ShowsEvent(s, newest) && StatusBearing(newest) && StatusBearing(last)
    requires last.created.value <= newest.created.value
    requires last.created == newest.created ==> last.kind == newest.kind
    ensures ShowsEvent(ApplyEvent(settings, s, last), newest)
  {
  }

  lemma NewerEventShows(settings: Settings, s: Subscription, newest: Event)
    requires StatusBearing(newest) && NotBefore(s.lastEventAt, newest.created)
    ensures ShowsEvent(ApplyEvent(settings, s, newest), newest)
  {
  }

  /** After any deliveries in any order the status is the newest event's, and its time is remembered. */
  lemma {:induction false} NewestEventWins(settings: Settings, s: Subscription, events: seq<Event>, newest: Event)
    requires forall i :: 0 <= i < |events| ==> StatusBearing(events[i])
    requires DistinctTimes(events) && IsNewest(events, newest)
    requires NotBefore(s.lastEventAt, newest.created)
    ensures ShowsEvent(Deliver(settings, s, events), newest)
  {
    var n := |events| - 1;
    var earlier, last := events[..n], events[n];
    if i :| 0 <= i < n && events[i].created == newest.created {
      var j :| 0 <= j < |events| && events[j] == newest;
      assert events[i].kind == newest.kind;
      assert events[i] == earlier[i] && events[i] in earlier;
      NewestEventWins(settings, s, earlier, events[i]);
      OlderEventChangesNothing(settings, Deliver(settings, s, earlier), newest, last);
    } else {
      var j :| 0 <= j < |events| && events[j] == newest;
      EarlierEventsAreOlder(settings, s, earlier, newest.created.value);
      NewerEventShows(settings, Deliver(settings, s, earlier), newest);
    }
  }

  lemma {:induction false} EarlierEventsAreOlder(settings: Settings, s: Subscription, events: seq<Event>, limit: nat)
    requires NotBefore(s.lastEventAt, Some(limit))
    requires forall i :: 0 <= i < |events| && events[i].created.Some? ==> events[i].created.value <= limit
    ensures NotBefore(Deliver(settings, s, events).lastEventAt, Some(limit))
  {
    if events != [] {
      EarlierEventsAreOlder(settings, s, events[..|events| - 1], limit);
    }
  }

  /** Which events were delivered, at whatever moment each was received. */
  function Delivered(events: seq<Event>): set<(Kind, Option<nat>)> {
    set i | 0 <= i < |events| :: (events[i].kind, events[i].created)
  }

  /** The newest event of one delivery is the newest of the other. */
  lemma NewestIsShared(a: seq<Event>, b: seq<Event>, newest: Event) returns (j: nat)
    requires Delivered(a) == Delivered(b) && IsNewest(a, newest)
    requires forall i :: 0 <= i < |b| ==> b[i].created.Some?
    ensures j < |b| && b[j].kind == newest.kind && b[j].created == newest.created && IsNewest(b, b[j])
  {
    var k :| 0 <= k < |a| && a[k] == newest;
    assert (newest.kind, newest.created) in Delivered(a);
    j :| 0 <= j < |b| && (b[j].kind, b[j].created) == (newest.kind, newest.created);
    forall i | 0 <= i < |b|
      ensures b[i].created.value <= newest.created.value
    {
      assert (b[i].kind, b[i].created) in Delivered(a);
      var h :| 0 <= h < |a| && (a[h].kind, a[h].created) == (b[i].kind, b[i].created);
    }
  }

  /** Any two deliveries of the same status-bearing events, in any order and with any repetitions, agree. */
  lemma DeliveryOrderDoesNotMatter(settings: Settings, s: Subscription, a: seq<Event>, b: seq<Event>)
    requires a != [] && Delivered(a) == Delivered(b)
    requires forall i :: 0 <= i < |a| ==> StatusBearing(a[i])
    requires forall i :: 0 <= i < |b| ==> StatusBearing(b[i])
    requires DistinctTimes(a) && DistinctTimes(b)
    requires forall i :: 0 <= i < |a| ==> NotBefore(s.lastEventAt, a[i].created)
    ensures Deliver(settings, s, a).status == Deliver(settings, s, b).status
    ensures Deliver(settings, s, a).lastEventAt == Deliver(settings, s, b).lastEventAt
  {
    var newest := FindNewest(a);
    var j := NewestIsShared(a, b, newest);
    NewestEventWins(settings, s, a, newest);
    NewestEventWins(settings, s, b, b[j]);
  }

  function FindNewest(events: seq<Event>): (e: Event)
    requires events != [] && forall i :: 0 <= i < |events| ==> events[i].created.Some?
    ensures IsNewest(events, e)
  {
    var n := |events| - 1;
    if n == 0 then events[0]
    else
      var e := FindNewest(events[..n]);
      assert e in events;
      if events[n].created.value >= e.created.value then events[n] else e
  }

  // ---- When events without a status are among them ----

  /** Exactly when one event takes effect: it asks for a status and is not older than the newest seen. */
  lemma StatusChangesExactly(settings: Settings, s: Subscription, e: Event)
    ensures ApplyEvent(settings, s, e).status
            == if StatusOf(e).Some? && !IsStale(s, e.created) then StatusOf(e).value else s.status
  {
  }

  /** The event moves the remembered time forward, whether or not it carries a status. */
  predicate MovesTime(e: Event) {
    e.created.Some? && e.kind != Unhandled
  }

  function Later(a: Option<nat>, b: Option<nat>): Option<nat> {
    if NotBefore(a, b) then b else a
  }

  /** The newest time among the starting time and the events that move it. */
  function NewestTime(start: Option<nat>, events: seq<Event>): Option<nat> {
    if events == [] then start
    else
      var earlier, last := NewestTime(start, events[..|events| - 1]), events[|events| - 1];
      if MovesTime(last) then Later(earlier, last.created) else earlier
  }

  /** In any order of delivery the remembered time is the newest of all, applied or not. */
  lemma {:induction false} RemembersNewestTime(settings: Settings, s: Subscription, events: seq<Event>)
    ensures Deliver(settings, s, events).lastEventAt == NewestTime(s.lastEventAt, events)
  {
    if events != [] {
      RemembersNewestTime(settings, s, events[..|events| - 1]);
    }
  }

  lemma {:induction false} NewestTimeIsNewest(start: Option<nat>, events: seq<Event>, limit: nat)
    ensures NotBefore(NewestTime(start, events), Some(limit)) <==>
            NotBefore(start, Some(limit))
            && forall j :: 0 <= j < |events| && MovesTime(events[j]) ==> events[j].created.value <= limit
  {
    if events != [] {
      var n := |events| - 1;
      NewestTimeIsNewest(start, events[..n], limit);
      assert forall j :: 0 <= j < n ==> events[..n][j] == events[j];
    }
  }

  predicate DeliversAt(events: seq<Event>, i: nat, e: Event) {
    i < |events| && events[i].kind == e.kind && events[i].created == e.created
  }

  /** Delivery `i` comes before every delivery of a newer event that moves the time. */
  predicate InTime(events: seq<Event>, i: nat)
    requires i < |events| && events[i].created.Some?
  {
    forall j :: 0 <= j < i && MovesTime(events[j]) ==> events[j].created.value <= events[i].created.value
  }

  /** Of the events that carry a status this is the newest, and no other event shares its time. */
  ghost predicate NewestStatus(events: seq<Event>, e: Event) {
    && StatusBearing(e)
    && forall i :: 0 <= i < |events| && StatusOf(events[i]).Some? ==>
         && events[i].created.Some? && events[i].created.value <= e.created.value
         && (events[i].created == e.created ==> events[i].kind == e.kind)
  }

  lemma InTimeIsNotStale(settings: Settings, s: Subscription, events: seq<Event>, i: nat)
    requires i < |events| && events[i].created.Some? && NotBefore(s.lastEventAt, events[i].created)
    ensures IsStale(Deliver(settings, s, events[..i]), events[i].created) <==> !InTime(events, i)
  {
    RemembersNewestTime(settings, s, events[..i]);
    NewestTimeIsNewest(s.lastEventAt, events[..i], events[i].created.value);
    assert forall j :: 0 <= j < i ==> events[..i][j] == events[j];
  }

  /** The status is the event's, and nothing older can change it any more. */
  predicate HoldsStatus(s: Subscription, e: Event)
    requires StatusBearing(e)
  {
    s.status == StatusOf(e).value && s.lastEventAt.Some? && s.lastEventAt.value >= e.created.value
  }

  lemma {:induction false} StatusStands(settings: Settings, s: Subscription, events: seq<Event>, e: Event, i: nat)
    requires NewestStatus(events, e) && DeliversAt(events, i, e) && InTime(events, i) && NotBefore(s.lastEventAt, e.created)
    ensures HoldsStatus(Deliver(settings, s, events), e)
  {
    var n := |events| - 1;
    var earlier := events[..n];
    StatusChangesExactly(settings, Deliver(settings, s, earlier), events[n]);
    if i == n {
      InTimeIsNotStale(settings, s, events, n);
    } else {
      assert forall j :: 0 <= j < n ==> earlier[j] == events[j];
      StatusStands(settings, s, earlier, e, i);
    }
  }

  /** Delivery `i` of the event is not taken for a stale one. */
  predicate CountsAt(settings: Settings, s: Subscription, events: seq<Event>, i: nat, e: Event) {
    DeliversAt(events, i, e) && !IsStale(Deliver(settings, s, events[..i]), e.created)
  }

  ghost predicate ArrivesInTime(events: seq<Event>, e: Event)
    requires e.created.Some?
  {
    exists i: nat :: DeliversAt(events, i, e) && InTime(events, i)
  }

  lemma OneDelivery(settings: Settings, s: Subscription, events: seq<Event>, i: nat, e: Event)
    requires e.created.Some? && DeliversAt(events, i, e) && NotBefore(s.lastEventAt, e.created)
    ensures CountsAt(settings, s, events, i, e) <==> InTime(events, i)
    ensures !InTime(events, i) ==> Deliver(settings, s, events[..i + 1]) == Deliver(settings, s, events[..i])
  {
    InTimeIsNotStale(settings, s, events, i);
    assert events[..i + 1][..i] == events[..i];
  }

  /**
    The newest status in any sequence of deliveries takes effect if and only if one of its deliveries
    comes before every newer event that moves the time; it then stands to the end. Otherwise none of
    its deliveries changes anything.
    */
  lemma NewestStatusTakesEffectExactly(settings: Settings, s: Subscription, events: seq<Event>, e: Event)
    requires NewestStatus(events, e) && NotBefore(s.lastEventAt, e.created)
    ensures (exists i: nat :: CountsAt(settings, s, events, i, e)) <==> ArrivesInTime(events, e)
    ensures ArrivesInTime(events, e) ==> Deliver(settings, s, events).status == StatusOf(e).value
    ensures !ArrivesInTime(events, e) ==>
              forall i: nat :: DeliversAt(events, i, e) ==>
                Deliver(settings, s, events[..i + 1]) == Deliver(settings, s, events[..i])
  {
    forall i: nat | DeliversAt(events, i, e)
      ensures CountsAt(settings, s, events, i, e) <==> InTime(events, i)
      ensures !InTime(events, i) ==> Deliver(settings, s, events[..i + 1]) == Deliver(settings, s, events[..i])
    {
      OneDelivery(settings, s, events, i, e);
    }
    if ArrivesInTime(events, e) {
      var i: nat :| DeliversAt(events, i, e) && InTime(events, i);
      assert CountsAt(settings, s, events, i, e);
      StatusStands(settings, s, events, e, i);
    }
  }

  /**
    An event that carries no status still moves the event time, and can make an older status event
    look stale: whether a cancellation counts then depends on the order of delivery.
    */
  lemma StatuslessEventHidesStatus(settings: Settings, s: Subscription)
    requires s.lastEventAt.None? && s.status != Canceled
    ensures var checkout := Event(CheckoutCompleted, Some(5), 9);
            var deleted := Event(Deleted, Some(3), 9);
            && Deliver(settings, s, [deleted, checkout]).status == Canceled
            && Deliver(settings, s, [checkout, deleted]).status == s.status
  {
    var checkout := Event(CheckoutCompleted, Some(5), 9);
    var deleted := Event(Deleted, Some(3), 9);
    DeliverTwo(settings, s, deleted, checkout);
    DeliverTwo(settings, s, checkout, deleted);
  }

  lemma DeliverTwo(settings: Settings, s: Subscription, a: Event, b: Event)
    ensures Deliver(settings, s, [a, b]) == ApplyEvent(settings, ApplyEvent(settings, s, a), b)
  {
    assert [a, b][..1] == [a];
    assert Deliver(settings, s, [a]) == ApplyEvent(settings, s, a);
  }

  // ---- The in-place operations ----

  class Account {
    const settings: Settings
    var subscription: Subscription

    constructor (settings: Settings, subscription: Subscription)
      ensures this.settings == settings && this.subscription == subscription
    {
      this.settings, this.subscription := settings, subscription;
    }

    method ChangeStatus(status: Status, now: nat)
      modifies this
      ensures subscription == SetStatus(old(subscription), status, now)
    {
      subscription := subscription.(status := status);
      if status == Suspended {
        subscription := subscription.(suspendedAt := Some(now));
      } else if status in {Active, Trialing, Grace} {
        subscription := subscription.(suspendedAt := None);
      }
      subscription := subscription.(site := SiteStatusFor(status));
    }

    method ApplyStripeEvent(e: Event)
      modifies this
      ensures subscription == ApplyEvent(settings, old(subscription), e)
    {
      if IsStale(subscription, e.created) || e.kind.Unhandled? {
        return;
      }
      if e.created.Some? {
        subscription := subscription.(lastEventAt := e.created);
      }
      var now := e.receivedAt;
      match e.kind
      case CheckoutCompleted =>
      case InvoicePaid =>
        subscription := subscription.(graceEndsAt := None);
        ChangeStatus(Active, now);
      case Resumed =>
        subscription := subscription.(graceEndsAt := None);
        ChangeStatus(Active, now);
      case PaymentFailed =>
        subscription := subscription.(graceEndsAt := Some(now + settings.graceSeconds));
        ChangeStatus(Grace, now);
      case Deleted =>
        subscription := subscription.(canceledAt := Some(now));
        ChangeStatus(Canceled, now);
      case Paused => ChangeStatus(Suspended, now);
      case Updated(provider, cancel, periodEnd) =>
        subscription := subscription.(cancelAtPeriodEnd := cancel, periodEndsAt := periodEnd);
        match provider {
          case ProviderActive => ChangeStatus(Active, now);
          case ProviderTrialing => ChangeStatus(Trialing, now);
          case ProviderCanceled => ChangeStatus(Suspended, now);
          case ProviderPaused => ChangeStatus(Suspended, now);
          case ProviderOther =>
          case _ =>
            if subscription.graceEndsAt.None? {
              subscription := subscription.(graceEndsAt := Some(now + settings.graceSeconds));
            }
            ChangeStatus(Grace, now);
        }
    }

    method Synchronize(exempt: bool, now: nat)
      modifies this
      ensures subscription == SynchronizeAccess(old(subscription), exempt, now)
    {
      if exempt {
        return;
      }
      if subscription.status == Trialing && subscription.trialEndsAt <= now {
        ChangeStatus(Suspended, now);
      } else if subscription.status == Grace && subscription.graceEndsAt.Some? && subscription.graceEndsAt.value <= now {
        ChangeStatus(Suspended, now);
      }
    }
  }
}
