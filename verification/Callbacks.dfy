/** Provider callbacks on one message, its recipient and its contact's consent (communications/callbacks.py). */
module Callbacks {
  import opened Wrappers
  import opened Messages

  datatype EventType =
    | SentEvent | DeliveredEvent | BouncedEvent | ComplainedEvent | FailedEvent
    | OpenedEvent | ClickedEvent | UnsubscribedEvent | SuppressedEvent | UnknownEvent

  // ---- The tables ----

  function EventStatus(e: EventType): Option<MessageStatus> {
    match e
    case SentEvent => Some(Sent)
    case DeliveredEvent => Some(Delivered)
    case BouncedEvent => Some(Bounced)
    case ComplainedEvent => Some(Bounced)
    case FailedEvent => Some(Failed)
    case OpenedEvent => Some(Opened)
    case ClickedEvent => Some(Clicked)
    case UnsubscribedEvent => Some(Unsubscribed)
    case SuppressedEvent => Some(Suppressed)
    case UnknownEvent => None
  }

  function EventRecipientStatus(e: EventType): RecipientStatus
    requires e != UnknownEvent
  {
    match e
    case SentEvent => RecipientSent
    case DeliveredEvent => RecipientDelivered
    case BouncedEvent => RecipientBounced
    case ComplainedEvent => RecipientBounced
    case FailedEvent => RecipientFailed
    case OpenedEvent => RecipientOpened
    case ClickedEvent => RecipientClicked
    case UnsubscribedEvent => RecipientUnsubscribed
    case SuppressedEvent => RecipientSuppressed
  }

  function Rank(status: MessageStatus): nat {
    match status
    case Sent => 1
    case Delivered => 2
    case Opened => 3
    case Clicked => 4
    case Failed => 90
    case Bounced => 100
    case Suppressed => 105
    case Unsubscribed => 110
    case _ => 0
  }

  function Stamp(s: Stamps, e: EventType, at: nat): Stamps {
    match e
    case SentEvent => if s.sentAt.None? then s.(sentAt := Some(at)) else s
    case DeliveredEvent => if s.deliveredAt.None? then s.(deliveredAt := Some(at)) else s
    case OpenedEvent => if s.openedAt.None? then s.(openedAt := Some(at)) else s
    case ClickedEvent => if s.clickedAt.None? then s.(clickedAt := Some(at)) else s
    case UnsubscribedEvent => if s.unsubscribedAt.None? then s.(unsubscribedAt := Some(at)) else s
    case _ => s
  }

  // ---- One callback ----

  predicate Advances(m: Message, e: EventType) {
    EventStatus(e).Some? && Rank(EventStatus(e).value) >= Rank(m.status)
  }

  function OnMessage(m: Message, e: EventType, at: nat, now: nat): Message {
    if e == UnknownEvent then m
    else m.(status := if Advances(m, e) then EventStatus(e).value else m.status,
            attempts := if e == FailedEvent then Max(m.attempts, 5) else m.attempts,
            stamps := Stamp(m.stamps, e, at), updatedAt := now)
  }

  function OnRecipient(r: Recipient, advances: bool, e: EventType, at: nat): Recipient {
    if e == UnknownEvent then r
    else r.(status := if advances then EventRecipientStatus(e) else r.status,
            stamps := Stamp(r.stamps, e, at), lastEventAt := Some(at))
  }

  function OnConsent(c: ConsentStatus, e: EventType): ConsentStatus {
    match e
    case BouncedEvent => RecordConsent(c, ConsentSuppressed)
    case ComplainedEvent => RecordConsent(c, ConsentSuppressed)
    case SuppressedEvent => RecordConsent(c, ConsentSuppressed)
    case UnsubscribedEvent => RecordConsent(c, Withdrawn)
    case _ => c
  }

  /** A message with its campaign recipient and its contact's consent for its channel. */
  datatype Thread = Thread(message: Message, recipient: Recipient, consent: ConsentStatus)

  datatype Callback = Callback(event: EventType, at: nat, now: nat)

  function OnThread(t: Thread, c: Callback): Thread {
    Thread(OnMessage(t.message, c.event, c.at, c.now),
           OnRecipient(t.recipient, Advances(t.message, c.event), c.event, c.at),
           OnConsent(t.consent, c.event))
  }

  function Receive(t: Thread, cs: seq<Callback>): Thread {
    if cs == [] then t else OnThread(Receive(t, cs[..|cs| - 1]), cs[|cs| - 1])
  }

  // ---- Confluence ----

  /** The recipient status that goes with a message status. */
  function Mirror(status: MessageStatus): RecipientStatus {
    match status
    case Queued => RecipientQueued
    case Processing => RecipientQueued
    case Sent => RecipientSent
    case Delivered => RecipientDelivered
    case Bounced => RecipientBounced
    case Opened => RecipientOpened
    case Clicked => RecipientClicked
    case Unsubscribed => RecipientUnsubscribed
    case Suppressed => RecipientSuppressed
    case Failed => RecipientFailed
  }

  /** The kinds of event that fill a timestamp, and which are filled. */
  function Filled(s: Stamps): set<EventType> {
    (if s.sentAt.Some? then {SentEvent} else {}) + (if s.deliveredAt.Some? then {DeliveredEvent} else {})
    + (if s.openedAt.Some? then {OpenedEvent} else {}) + (if s.clickedAt.Some? then {ClickedEvent} else {})
    + (if s.unsubscribedAt.Some? then {UnsubscribedEvent} else {})
  }

  const STAMPING: set<EventType> := {SentEvent, DeliveredEvent, OpenedEvent, ClickedEvent, UnsubscribedEvent}
  const SUPPRESSING: set<EventType> := {BouncedEvent, ComplainedEvent, SuppressedEvent}

  function Kinds(cs: seq<Callback>): set<EventType> {
    set c | c in cs :: c.event
  }

  /** `final` is the status of highest rank among the start and the events. */
  ghost predicate HighestRank(start: MessageStatus, kinds: set<EventType>, final: MessageStatus) {
    && Rank(start) <= Rank(final)
    && (forall e :: e in kinds && EventStatus(e).Some? ==> Rank(EventStatus(e).value) <= Rank(final))
    && (final == start || exists e :: e in kinds && EventStatus(e) == Some(final))
  }

  /** What a set of events makes of consent. */
  function ConsentAfter(start: ConsentStatus, kinds: set<EventType>): ConsentStatus {
    if start == ConsentSuppressed || kinds * SUPPRESSING != {} then ConsentSuppressed
    else if UnsubscribedEvent in kinds then Withdrawn
    else start
  }

  lemma KindsOneMore(cs: seq<Callback>, c: Callback)
    ensures Kinds(cs + [c]) == Kinds(cs) + {c.event}
  {
    forall e | e in Kinds(cs) + {c.event}
      ensures e in Kinds(cs + [c])
    {
      if e == c.event {
        assert c in cs + [c];
      } else {
        var d :| d in cs && d.event == e;
        assert d in cs + [c];
      }
    }
  }

  lemma OneMoreStatus(start: MessageStatus, kinds: set<EventType>, u: Thread, c: Callback)
    requires HighestRank(start, kinds, u.message.status) && u.recipient.status == Mirror(u.message.status)
    ensures var v := OnThread(u, c);
            HighestRank(start, kinds + {c.event}, v.message.status) && v.recipient.status == Mirror(v.message.status)
  {
    OneMoreRank(start, kinds, u.message.status, c.event);
  }

  lemma {:induction false} ReceivedStatus(t: Thread, cs: seq<Callback>)
    requires t.recipient.status == Mirror(t.message.status)
    ensures var u := Receive(t, cs);
            && HighestRank(t.message.status, Kinds(cs), u.message.status)
            && u.recipient.status == Mirror(u.message.status)
  {
    if cs != [] {
      var earlier, c := cs[..|cs| - 1], cs[|cs| - 1];
      ReceivedStatus(t, earlier);
      assert cs == earlier + [c];
      KindsOneMore(earlier, c);
      OneMoreStatus(t.message.status, Kinds(earlier), Receive(t, earlier), c);
    }
  }

  function StampAll(s: Stamps, cs: seq<Callback>): Stamps {
    if cs == [] then s else Stamp(StampAll(s, cs[..|cs| - 1]), cs[|cs| - 1].event, cs[|cs| - 1].at)
  }

  lemma {:induction false} FilledByAll(s: Stamps, cs: seq<Callback>)
    ensures Filled(StampAll(s, cs)) == Filled(s) + Kinds(cs) * STAMPING
  {
    if cs != [] {
      var earlier, c := cs[..|cs| - 1], cs[|cs| - 1];
      FilledByAll(s, earlier);
      assert cs == earlier + [c];
      KindsOneMore(earlier, c);
      OneMoreStamp(StampAll(s, earlier), c.event, c.at);
      StampsUnion(Filled(s), Kinds(earlier), c.event);
    }
  }

  lemma {:induction false} ReceivedStampsOneByOne(t: Thread, cs: seq<Callback>)
    ensures var u := Receive(t, cs);
            u.message.stamps == StampAll(t.message.stamps, cs) && u.recipient.stamps == StampAll(t.recipient.stamps, cs)
  {
    if cs != [] {
      ReceivedStampsOneByOne(t, cs[..|cs| - 1]);
    }
  }

  lemma ReceivedStamps(t: Thread, cs: seq<Callback>)
    ensures var u := Receive(t, cs);
            && Filled(u.message.stamps) == Filled(t.message.stamps) + Kinds(cs) * STAMPING
            && Filled(u.recipient.stamps) == Filled(t.recipient.stamps) + Kinds(cs) * STAMPING
  {
    ReceivedStampsOneByOne(t, cs);
    FilledByAll(t.message.stamps, cs);
    FilledByAll(t.recipient.stamps, cs);
  }

  lemma StampsUnion(filled: set<EventType>, kinds: set<EventType>, e: EventType)
    ensures filled + (kinds + {e}) * STAMPING == filled + kinds * STAMPING + {e} * STAMPING
  {
  }

  lemma {:induction false} ReceivedConsent(t: Thread, cs: seq<Callback>)
    ensures var u := Receive(t, cs);
            && u.consent == ConsentAfter(t.consent, Kinds(cs))
            && u.message.attempts
               == (if FailedEvent in Kinds(cs) then Max(t.message.attempts, 5) else t.message.attempts)
  {
    if cs != [] {
      var earlier, c := cs[..|cs| - 1], cs[|cs| - 1];
      ReceivedConsent(t, earlier);
      assert cs == earlier + [c];
      KindsOneMore(earlier, c);
      OneMoreConsent(t.consent, Kinds(earlier), c.event);
    }
  }

  lemma OneMoreStamp(s: Stamps, e: EventType, at: nat)
    ensures Filled(Stamp(s, e, at)) == Filled(s) + {e} * STAMPING
  {
  }

  lemma OneMoreConsent(start: ConsentStatus, kinds: set<EventType>, e: EventType)
    ensures ConsentAfter(start, kinds + {e}) == OnConsent(ConsentAfter(start, kinds), e)
  {
    if e in SUPPRESSING {
      assert e in (kinds + {e}) * SUPPRESSING;
    } else {
      assert (kinds + {e}) * SUPPRESSING == kinds * SUPPRESSING;
    }
  }

  lemma OneMoreRank(start: MessageStatus, kinds: set<EventType>, current: MessageStatus, e: EventType)
    requires HighestRank(start, kinds, current)
    ensures HighestRank(start, kinds + {e},
                        if EventStatus(e).Some? && Rank(EventStatus(e).value) >= Rank(current)
                        then EventStatus(e).value else current)
  {
    if EventStatus(e).None? || Rank(EventStatus(e).value) < Rank(current) {
      if current != start {
        var d :| d in kinds && EventStatus(d) == Some(current);
        assert d in kinds + {e};
      }
    }
  }

  lemma HighestRankIsUnique(start: MessageStatus, kinds: set<EventType>, a: MessageStatus, b: MessageStatus)
    requires HighestRank(start, kinds, a) && HighestRank(start, kinds, b)
    ensures a == b
  {
  }

  /** Any two orders, with any repetitions, of the same kinds of event end alike. */
  lemma CallbacksAreConfluent(t: Thread, a: seq<Callback>, b: seq<Callback>)
    requires t.recipient.status == Mirror(t.message.status)
    requires Kinds(a) == Kinds(b)
    ensures var u, v := Receive(t, a), Receive(t, b);
            && u.message.status == v.message.status
            && u.message.attempts == v.message.attempts
            && Filled(u.message.stamps) == Filled(v.message.stamps)
            && u.recipient.status == v.recipient.status
            && Filled(u.recipient.stamps) == Filled(v.recipient.stamps)
            && u.consent == v.consent
  {
    ReceivedStatus(t, a);
    ReceivedStatus(t, b);
    ReceivedStamps(t, a);
    ReceivedStamps(t, b);
    ReceivedConsent(t, a);
    ReceivedConsent(t, b);
    HighestRankIsUnique(t.message.status, Kinds(a), Receive(t, a).message.status, Receive(t, b).message.status);
  }

  /** A message's rank never falls, and a suppressed consent stays suppressed. */
  lemma {:induction false} CallbacksOnlyAdvance(t: Thread, cs: seq<Callback>)
    ensures Rank(t.message.status) <= Rank(Receive(t, cs).message.status)
    ensures t.consent == ConsentSuppressed ==> Receive(t, cs).consent == ConsentSuppressed
    ensures t.message.attempts <= Receive(t, cs).message.attempts
  {
    if cs != [] {
      CallbacksOnlyAdvance(t, cs[..|cs| - 1]);
    }
  }

  /** A message the provider finally failed is at the attempt limit, so it is never picked up for another try. */
  lemma ProviderFailureIsFinal(t: Thread, cs: seq<Callback>)
    requires t.recipient.status == Mirror(t.message.status)
    requires Terminal(t.message.status)
    ensures var m := Receive(t, cs).message; Terminal(m.status) || (m.status == Failed && m.attempts >= MAX_ATTEMPTS)
  {
    ReceivedStatus(t, cs);
    ReceivedConsent(t, cs);
  }
}
