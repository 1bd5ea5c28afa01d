/** Provider callbacks in the running system (communications/callbacks.py:63-165): each id acts once, and the order does not matter. */
module CallbackRuns {
  import opened Wrappers
  import opened Messages
  import opened Callbacks
  import opened Messaging
  import opened LostSegments

  predicate Threaded(s: State, m: nat) {
    && m < |s.messages|
    && s.messages[m].recipient.Some? && s.messages[m].recipient.value < |s.recipients|
    && s.messages[m].contact.Some? && s.messages[m].contact.value < |s.contacts|
  }

  /** The message with its recipient and its contact's consent. */
  function ThreadAt(s: State, m: nat): Thread
    requires Threaded(s, m)
  {
    Thread(s.messages[m], s.recipients[s.messages[m].recipient.value],
           ConsentFor(s.contacts[s.messages[m].contact.value], s.messages[m].channel))
  }

  lemma {:induction false} FindIgnoresOtherColumns(messages: seq<Message>, m: nat, row: Message, providerId: nat)
    requires m < |messages| && row.providerId == messages[m].providerId
    ensures FindByProvider(messages[m := row], providerId) == FindByProvider(messages, providerId)
  {
    var n := |messages| - 1;
    if m < n {
      FindIgnoresOtherColumns(messages[..n], m, row, providerId);
      assert messages[m := row][..n] == messages[..n][m := row];
    } else {
      assert messages[m := row][..n] == messages[..n];
    }
  }

  predicate CallbackFor(step: Step, providerId: nat) {
    step.ProviderCallback? && step.providerId == providerId
  }

  /** The callbacks that take effect: the first of each id, if its type is known. */
  function Effective(s: State, steps: seq<Step>): seq<Callback> {
    if steps == [] then []
    else
      var step := steps[|steps| - 1];
      Effective(s, steps[..|steps| - 1])
      + if step.ProviderCallback? && step.event != UnknownEvent && step.id !in Run(s, steps[..|steps| - 1]).handled
        then [Callback(step.event, step.at, s.now)] else []
  }

  /** `u` is `s` after some callbacks `cs` on message `m`, with ids `ids`. */
  ghost predicate AfterCallbacks(s: State, u: State, providerId: nat, m: nat, cs: seq<Callback>, ids: set<nat>)
    requires Threaded(s, m)
  {
    && Threaded(u, m) && FindByProvider(u.messages, providerId) == Some(m) && u.now == s.now
    && ThreadAt(u, m) == Receive(ThreadAt(s, m), cs)
    && u.handled == s.handled + ids
  }

  lemma OneMoreCallback(s: State, u: State, t: State, providerId: nat, m: nat, cs: seq<Callback>, ids: set<nat>, step: Step)
    requires Threaded(s, m) && AfterCallbacks(s, u, providerId, m, cs, ids)
    requires step.ProviderCallback? && CallbackActs(u, t, step, m) && step.providerId == providerId
    ensures var more := if step.event != UnknownEvent && step.id !in u.handled
                        then [Callback(step.event, step.at, s.now)] else [];
            AfterCallbacks(s, t, providerId, m, cs + more, ids + {step.id})
  {
    var last := Callback(step.event, step.at, s.now);
    assert (cs + [last])[..|cs|] == cs;
    assert cs + [] == cs;
  }

  /** Callbacks on a message act on its thread as the row-level rule says, each id once. */
  lemma {:induction false} CallbackRun(s: State, steps: seq<Step>, providerId: nat, m: nat)
    requires Threaded(s, m) && FindByProvider(s.messages, providerId) == Some(m)
    requires forall k :: 0 <= k < |steps| ==> CallbackFor(steps[k], providerId)
    ensures AfterCallbacks(s, Run(s, steps), providerId, m, Effective(s, steps), HandledBy(steps))
  {
    if steps == [] {
      assert s.handled + {} == s.handled;
    } else {
      var earlier, step := steps[..|steps| - 1], steps[|steps| - 1];
      CallbackRun(s, earlier, providerId, m);
      assert CallbackFor(step, providerId);
      var u := Run(s, earlier);
      OneCallback(u, step, m);
      OneMoreCallback(s, u, Next(u, step), providerId, m, Effective(s, earlier), HandledBy(earlier), step);
    }
  }

  function HandledBy(steps: seq<Step>): set<nat> {
    if steps == [] then {}
    else HandledBy(steps[..|steps| - 1])
         + if steps[|steps| - 1].ProviderCallback? then {steps[|steps| - 1].id} else {}
  }

  ghost predicate CallbackActs(s: State, t: State, step: Step, m: nat)
    requires step.ProviderCallback? && Threaded(s, m)
  {
    && Threaded(t, m) && FindByProvider(t.messages, step.providerId) == Some(m) && t.now == s.now
    && t.handled == s.handled + {step.id}
    && ThreadAt(t, m) == if step.id in s.handled || step.event == UnknownEvent then ThreadAt(s, m)
                         else OnThread(ThreadAt(s, m), Callback(step.event, step.at, s.now))
  }

  lemma OneCallback(s: State, step: Step, m: nat)
    requires step.ProviderCallback? && Threaded(s, m) && FindByProvider(s.messages, step.providerId) == Some(m)
    ensures CallbackActs(s, Next(s, step), step, m)
  {
    var row := OnMessage(s.messages[m], step.event, step.at, s.now);
    FindIgnoresOtherColumns(s.messages, m, row, step.providerId);
    if step.id in s.handled {
      assert s.handled + {step.id} == s.handled;
    }
  }

  /** Deliveries of one id are deliveries of one event, and none was handled before. */
  ghost predicate FreshDeliveries(s: State, steps: seq<Step>) {
    && (forall k :: 0 <= k < |steps| ==> steps[k].ProviderCallback? && steps[k].id !in s.handled)
    && (forall j, k :: 0 <= j < |steps| && 0 <= k < |steps| && steps[j].id == steps[k].id ==>
          steps[j].event == steps[k].event)
  }

  function EventTypes(steps: seq<Step>): set<EventType> {
    set k | 0 <= k < |steps| && steps[k].ProviderCallback? && steps[k].event != UnknownEvent :: steps[k].event
  }

  lemma {:induction false} HandledWasDelivered(steps: seq<Step>, id: nat)
    requires id in HandledBy(steps)
    ensures exists k :: 0 <= k < |steps| && steps[k].ProviderCallback? && steps[k].id == id
  {
    var n := |steps| - 1;
    if !(steps[n].ProviderCallback? && steps[n].id == id) {
      HandledWasDelivered(steps[..n], id);
      var k :| 0 <= k < n && steps[..n][k].ProviderCallback? && steps[..n][k].id == id;
      assert steps[k].id == id;
    }
  }

  /** A delivery of an id already handled brings no new kind. */
  lemma RepeatedKind(s: State, steps: seq<Step>)
    requires steps != [] && FreshDeliveries(s, steps)
    requires steps[|steps| - 1].id in HandledBy(steps[..|steps| - 1])
    requires steps[|steps| - 1].event != UnknownEvent
    ensures steps[|steps| - 1].event in EventTypes(steps[..|steps| - 1])
  {
    var n := |steps| - 1;
    var earlier := steps[..n];
    HandledWasDelivered(earlier, steps[n].id);
    var k :| 0 <= k < n && earlier[k].ProviderCallback? && earlier[k].id == steps[n].id;
    assert steps[k].event == steps[n].event;
  }

  lemma {:induction false} HandledInRun(s: State, steps: seq<Step>)
    requires forall k :: 0 <= k < |steps| ==> steps[k].ProviderCallback?
    ensures Run(s, steps).handled == s.handled + HandledBy(steps) && Run(s, steps).now == s.now
  {
    if steps == [] {
      assert s.handled + {} == s.handled;
    } else {
      var earlier, step := steps[..|steps| - 1], steps[|steps| - 1];
      HandledInRun(s, earlier);
    }
  }

  /** Skipping repeated ids skips no kind of event. */
  lemma {:induction false} EffectiveKinds(s: State, steps: seq<Step>)
    requires FreshDeliveries(s, steps)
    ensures Kinds(Effective(s, steps)) == EventTypes(steps)
  {
    if steps != [] {
      var n := |steps| - 1;
      EffectiveKinds(s, steps[..n]);
      HandledInRun(s, steps[..n]);
      TypesOneMore(steps);
      assert steps[n].id !in s.handled;
      if steps[n].id in HandledBy(steps[..n]) && steps[n].event != UnknownEvent {
        RepeatedKind(s, steps);
      }
    }
  }

  lemma TypesOneMore(steps: seq<Step>)
    requires steps != [] && steps[|steps| - 1].ProviderCallback?
    ensures EventTypes(steps) == EventTypes(steps[..|steps| - 1])
                                 + if steps[|steps| - 1].event != UnknownEvent then {steps[|steps| - 1].event} else {}
  {
    var n := |steps| - 1;
    assert forall k :: 0 <= k < n ==> steps[..n][k] == steps[k];
    forall e | e in EventTypes(steps[..n])
      ensures e in EventTypes(steps)
    {
      var k :| 0 <= k < n && steps[..n][k].ProviderCallback? && steps[..n][k].event != UnknownEvent && steps[..n][k].event == e;
      assert steps[k].event == e;
    }
  }

  /** Two runs of callbacks about one accepted message that deliver the same kinds of event end alike. */
  lemma CallbackOrderDoesNotMatter(s: State, a: seq<Step>, b: seq<Step>, providerId: nat, m: nat)
    requires Threaded(s, m) && FindByProvider(s.messages, providerId) == Some(m)
    requires ThreadAt(s, m).recipient.status == Mirror(s.messages[m].status)
    requires forall k :: 0 <= k < |a| ==> CallbackFor(a[k], providerId)
    requires forall k :: 0 <= k < |b| ==> CallbackFor(b[k], providerId)
    requires FreshDeliveries(s, a) && FreshDeliveries(s, b) && EventTypes(a) == EventTypes(b)
    ensures var u, v := Run(s, a), Run(s, b);
            && Threaded(u, m) && Threaded(v, m)
            && u.messages[m].status == v.messages[m].status
            && u.messages[m].attempts == v.messages[m].attempts
            && Filled(u.messages[m].stamps) == Filled(v.messages[m].stamps)
            && ThreadAt(u, m).recipient.status == ThreadAt(v, m).recipient.status
            && Filled(ThreadAt(u, m).recipient.stamps) == Filled(ThreadAt(v, m).recipient.stamps)
            && ThreadAt(u, m).consent == ThreadAt(v, m).consent
  {
    CallbackRun(s, a, providerId, m);
    CallbackRun(s, b, providerId, m);
    EffectiveKinds(s, a);
    EffectiveKinds(s, b);
    CallbacksAreConfluent(ThreadAt(s, m), Effective(s, a), Effective(s, b));
  }

  // ---- Exactly when a callback shows ----

  ghost predicate SameMessages(a: seq<Message>, b: seq<Message>) {
    |b| == |a| && forall m :: 0 <= m < |a| ==> b[m] == a[m].(updatedAt := b[m].updatedAt)
  }

  ghost predicate SameRecipients(a: seq<Recipient>, b: seq<Recipient>) {
    |b| == |a| && forall r :: 0 <= r < |a| ==> b[r] == a[r].(lastEventAt := b[r].lastEventAt)
  }

  /** What anyone reads of the rows; not when they were last written. */
  ghost predicate SameReading(s: State, t: State) {
    && t == s.(messages := t.messages, recipients := t.recipients, contacts := t.contacts, handled := t.handled)
    && SameMessages(s.messages, t.messages) && SameRecipients(s.recipients, t.recipients) && t.contacts == s.contacts
  }

  predicate StampNew(stamps: Stamps, e: EventType) {
    e in STAMPING && e !in Filled(stamps)
  }

  predicate NewsToMessage(m: Message, e: EventType) {
    || (Advances(m, e) && EventStatus(e) != Some(m.status))
    || (e == FailedEvent && m.attempts < MAX_ATTEMPTS)
    || StampNew(m.stamps, e)
  }

  predicate NewsToRecipient(m: Message, r: Recipient, e: EventType)
    requires e != UnknownEvent
  {
    (Advances(m, e) && EventRecipientStatus(e) != r.status) || StampNew(r.stamps, e)
  }

  /** Suppressing kinds change any consent but a suppressed one, an unsubscribe any but these two. */
  predicate NewsToConsent(c: ConsentStatus, e: EventType) {
    (e in SUPPRESSING && c != ConsentSuppressed)
    || (e == UnsubscribedEvent && c != ConsentSuppressed && c != Withdrawn)
  }

  /**
    The event says something that the rows do not say yet. An unknown kind never does; opened, clicked,
    delivered and sent do not once a later status and their own time are there.
    */
  predicate IsNews(s: State, m: nat, e: EventType)
    requires m < |s.messages|
  {
    && e != UnknownEvent
    && (NewsToMessage(s.messages[m], e) || NewsToItsRecipient(s, s.messages[m], e) || NewsToItsContact(s, s.messages[m], e))
  }

  predicate NewsToItsRecipient(s: State, m: Message, e: EventType)
    requires e != UnknownEvent
  {
    m.recipient.Some? && m.recipient.value < |s.recipients| && NewsToRecipient(m, s.recipients[m.recipient.value], e)
  }

  predicate NewsToItsContact(s: State, m: Message, e: EventType) {
    m.contact.Some? && m.contact.value < |s.contacts|
    && NewsToConsent(ConsentFor(s.contacts[m.contact.value], m.channel), e)
  }

  lemma StampChanges(stamps: Stamps, e: EventType, at: nat)
    ensures Stamp(stamps, e, at) != stamps <==> StampNew(stamps, e)
  {
  }

  lemma MessageChanges(rows: seq<Message>, m: nat, e: EventType, at: nat, now: nat)
    requires m < |rows| && e != UnknownEvent
    ensures SameMessages(rows, rows[m := OnMessage(rows[m], e, at, now)]) <==> !NewsToMessage(rows[m], e)
  {
    var after := OnMessage(rows[m], e, at, now);
    StampChanges(rows[m].stamps, e, at);
    assert rows[m := after][m] == after;
  }

  lemma RecipientChanges(s: State, m: Message, e: EventType, at: nat)
    requires e != UnknownEvent
    ensures SameRecipients(s.recipients, RecipientsOnCallback(s.recipients, m, e, at)) <==> !NewsToItsRecipient(s, m, e)
  {
    if m.recipient.Some? && m.recipient.value < |s.recipients| {
      var row := s.recipients[m.recipient.value];
      StampChanges(row.stamps, e, at);
      assert RecipientsOnCallback(s.recipients, m, e, at)[m.recipient.value] == OnRecipient(row, Advances(m, e), e, at);
    }
  }

  lemma ContactChanges(s: State, m: Message, e: EventType)
    ensures ContactsOnCallback(s.contacts, m, e) == s.contacts <==> !NewsToItsContact(s, m, e)
  {
    if m.contact.Some? && m.contact.value < |s.contacts| {
      var row := s.contacts[m.contact.value];
      var after := WithConsent(row, m.channel, OnConsent(ConsentFor(row, m.channel), e));
      assert ContactsOnCallback(s.contacts, m, e)[m.contact.value] == after;
      assert after == row <==> OnConsent(ConsentFor(row, m.channel), e) == ConsentFor(row, m.channel);
    }
  }

  /**
    A callback shows on the message, its recipient or its consent if and only if its id is new, a message
    is recorded as accepted under its provider id by then, and the event is news to their rows.
    */
  lemma CallbackShowsExactly(s: State, id: nat, providerId: nat, e: EventType, at: nat)
    ensures var t, found := Next(s, ProviderCallback(id, providerId, e, at)), FindByProvider(s.messages, providerId);
            !SameReading(s, t) <==> id !in s.handled && found.Some? && IsNews(s, found.value, e)
  {
    var found := FindByProvider(s.messages, providerId);
    if id !in s.handled && found.Some? && e != UnknownEvent {
      MessageChanges(s.messages, found.value, e, at, s.now);
      RecipientChanges(s, s.messages[found.value], e, at);
      ContactChanges(s, s.messages[found.value], e);
    }
  }

  // ---- Callbacks that come too early ----

  lemma LinkKeepsHandled(s: State, k: nat)
    ensures Unsubscribe(s, k).handled == s.handled
  {
    if LinkWorks(s, k) {
      var contact, channel := s.capabilities[k].contact, s.capabilities[k].channel;
      var t := LinkUsed(s, k);
      UnsubscribeUpToShape(t, contact, channel, |t.messages|);
      RefreshUpToShape(UnsubscribeUpTo(t, contact, channel, |t.messages|),
                       AffectedCampaigns(t, contact, channel), |t.campaigns|);
    }
  }

  lemma NextHandles(s: State, step: Step, id: nat)
    ensures id in Next(s, step).handled <==> id in s.handled || (step.ProviderCallback? && step.id == id)
  {
    if step.UseUnsubscribeLink? {
      LinkKeepsHandled(s, step.capability);
    }
  }

  /** An id is handled from its first delivery on, whatever that delivery came to. */
  lemma {:induction false} HandledExactly(s: State, steps: seq<Step>, id: nat)
    ensures id in Run(s, steps).handled <==>
            id in s.handled || exists k :: 0 <= k < |steps| && steps[k].ProviderCallback? && steps[k].id == id
  {
    if steps != [] {
      var n := |steps| - 1;
      HandledExactly(s, steps[..n], id);
      NextHandles(Run(s, steps[..n]), steps[n], id);
      assert forall k :: 0 <= k < n ==> steps[..n][k] == steps[k];
    }
  }

  /**
    A callback that comes before its message's acceptance is recorded changes no row, and its
    redeliveries change nothing either, however much later they come.
    */
  lemma EarlyCallbackIsLost(s: State, id: nat, providerId: nat, e: EventType, at: nat, steps: seq<Step>, again: Step)
    requires FindByProvider(s.messages, providerId).None?
    requires again.ProviderCallback? && again.id == id
    ensures var t := Next(s, ProviderCallback(id, providerId, e, at));
            && t == s.(handled := s.handled + {id})
            && Next(Run(t, steps), again) == Run(t, steps)
  {
    var t := Next(s, ProviderCallback(id, providerId, e, at));
    assert id in s.handled ==> s.handled + {id} == s.handled;
    HandledExactly(t, steps, id);
  }

  const REPORT: Step := ProviderCallback(1, 7, DeliveredEvent, 0)
  const EARLY: seq<Step> := CLAIMED + [REPORT]
  const IN_ORDER: seq<Step> := CLAIMED + [ProviderAccepts(0, 7)]

  lemma ReportOnSent(s: State)
    requires |s.messages| == 1 && s.messages[0].providerId == Some(7) && s.messages[0].status == Sent
    ensures var t := Next(s, REPORT);
            |t.messages| == 1 && t.messages[0].status == if 1 in s.handled then Sent else Delivered
  {
    assert FindByProvider(s.messages, 7) == Some(0);
  }

  lemma ReportOnUnaccepted(s: State)
    requires |s.messages| == 1 && s.messages[0].providerId.None?
    ensures FindByProvider(s.messages, 7).None?
    ensures Next(s, REPORT) == s.(handled := s.handled + {1})
  {
    assert s.messages[..0] == [];
    assert 1 in s.handled ==> s.handled + {1} == s.handled;
  }

  lemma AcceptsAs(s: State)
    requires |s.messages| == 1 && s.flights == [Out(1)]
    ensures var t := Next(s, ProviderAccepts(0, 7));
            && |t.messages| == 1 && t.messages[0].status == Sent && t.messages[0].providerId == Some(7)
            && t.handled == s.handled
  {
  }

  /** The report of a delivery overtakes the record of the acceptance: it is lost, also when it is sent again. */
  lemma ReportOvertakesAcceptance()
    ensures var early := Run(START, EARLY + [ProviderAccepts(0, 7)] + [REPORT]);
            |early.messages| == 1 && early.messages[0].status == Sent
    ensures var late := Run(START, IN_ORDER + [REPORT]);
            |late.messages| == 1 && late.messages[0].status == Delivered
  {
    FirstClaim();
    var s := With(0, Tried(0, ROW), [Out(1)]);
    ReportOnUnaccepted(s);
    OneMore(START, CLAIMED, REPORT);
    OneMore(START, EARLY, ProviderAccepts(0, 7));
    OneMore(START, EARLY + [ProviderAccepts(0, 7)], REPORT);
    AcceptsAs(Next(s, REPORT));
    ReportOnSent(Next(Next(s, REPORT), ProviderAccepts(0, 7)));
    OneMore(START, CLAIMED, ProviderAccepts(0, 7));
    OneMore(START, IN_ORDER, REPORT);
    AcceptsAs(s);
    ReportOnSent(Next(s, ProviderAccepts(0, 7)));
  }
}
