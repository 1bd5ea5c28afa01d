/**
  Callbacks on one message among everything else that happens (communications/callbacks.py:63-165): with or
  without a recipient or a contact, and with any steps in between that leave the message itself alone.
  */
module MessageCallbacks {
  import opened Wrappers
  import opened Messages
  import opened Callbacks
  import opened Messaging
  import opened CallbackRuns

  /** The step is a callback for the message, or leaves the message and whose provider id it has as they are. */
  predicate LeavesAlone(s: State, step: Step, providerId: nat, m: nat) {
    CallbackFor(step, providerId)
    || (var t := Next(s, step);
        m < |s.messages| && m < |t.messages| && t.messages[m] == s.messages[m]
        && FindByProvider(t.messages, providerId) == FindByProvider(s.messages, providerId))
  }

  predicate AlwaysLeftAlone(s: State, steps: seq<Step>, providerId: nat, m: nat) {
    steps == []
    || (AlwaysLeftAlone(s, steps[..|steps| - 1], providerId, m)
        && LeavesAlone(Run(s, steps[..|steps| - 1]), steps[|steps| - 1], providerId, m))
  }

  /** The callbacks for the message that count: the first delivery of each id, of a known kind. */
  function Arrived(s: State, steps: seq<Step>, providerId: nat): seq<Callback> {
    if steps == [] then []
    else
      var step, u := steps[|steps| - 1], Run(s, steps[..|steps| - 1]);
      Arrived(s, steps[..|steps| - 1], providerId)
      + if CallbackFor(step, providerId) && step.event != UnknownEvent && step.id !in u.handled
        then [Callback(step.event, step.at, u.now)] else []
  }

  /** The message alone, as if it had a recipient that mirrors it. */
  function Alone(m: Message): Thread {
    Thread(m, Recipient(0, 0, Mirror(m.status), 0, NO_STAMPS, None), ConsentUnknown)
  }

  lemma OneCallbackOnMessage(s: State, step: Step, m: nat)
    requires step.ProviderCallback? && FindByProvider(s.messages, step.providerId) == Some(m)
    ensures var t := Next(s, step);
            && FindByProvider(t.messages, step.providerId) == Some(m)
            && t.messages[m] == if step.id in s.handled || step.event == UnknownEvent then s.messages[m]
                                else OnMessage(s.messages[m], step.event, step.at, s.now)
  {
    FindIgnoresOtherColumns(s.messages, m, OnMessage(s.messages[m], step.event, step.at, s.now), step.providerId);
  }

  lemma OneMoreArrives(t: Thread, cs: seq<Callback>, c: Callback)
    ensures Receive(t, cs + [c]) == OnThread(Receive(t, cs), c)
  {
    assert (cs + [c])[..|cs|] == cs;
  }

  lemma {:induction false} MessageRun(s: State, steps: seq<Step>, providerId: nat, m: nat)
    requires FindByProvider(s.messages, providerId) == Some(m) && AlwaysLeftAlone(s, steps, providerId, m)
    ensures var u := Run(s, steps);
            && FindByProvider(u.messages, providerId) == Some(m)
            && u.messages[m] == Receive(Alone(s.messages[m]), Arrived(s, steps, providerId)).message
  {
    if steps != [] {
      var earlier, step := steps[..|steps| - 1], steps[|steps| - 1];
      var u := Run(s, earlier);
      MessageRun(s, earlier, providerId, m);
      if CallbackFor(step, providerId) {
        OneCallbackOnMessage(u, step, m);
        OneMoreArrives(Alone(s.messages[m]), Arrived(s, earlier, providerId), Callback(step.event, step.at, u.now));
      }
      assert Arrived(s, earlier, providerId) + [] == Arrived(s, earlier, providerId);
    }
  }

  /** An id is delivered for one message and one event only, and was not handled before. */
  ghost predicate OneEventEach(s: State, steps: seq<Step>) {
    && (forall k :: 0 <= k < |steps| && steps[k].ProviderCallback? ==> steps[k].id !in s.handled)
    && (forall j, k :: 0 <= j < |steps| && 0 <= k < |steps| && steps[j].ProviderCallback? && steps[k].ProviderCallback?
                       && steps[j].id == steps[k].id ==>
          steps[j].event == steps[k].event && steps[j].providerId == steps[k].providerId)
  }

  predicate Brings(step: Step, providerId: nat, e: EventType) {
    CallbackFor(step, providerId) && step.event == e && e != UnknownEvent
  }

  ghost predicate Delivered(steps: seq<Step>, providerId: nat, e: EventType) {
    exists k :: 0 <= k < |steps| && Brings(steps[k], providerId, e)
  }

  lemma DeliveredOneMore(steps: seq<Step>, providerId: nat, e: EventType)
    requires steps != []
    ensures Delivered(steps, providerId, e) <==>
            Delivered(steps[..|steps| - 1], providerId, e) || Brings(steps[|steps| - 1], providerId, e)
  {
    var n := |steps| - 1;
    assert forall k :: 0 <= k < n ==> steps[..n][k] == steps[k];
  }

  /** Every kind delivered for the message counts once. */
  lemma {:induction false} ArrivedKinds(s: State, steps: seq<Step>, providerId: nat, e: EventType)
    requires OneEventEach(s, steps)
    ensures e in Kinds(Arrived(s, steps, providerId)) <==> Delivered(steps, providerId, e)
  {
    if steps != [] {
      var n := |steps| - 1;
      var earlier, step := steps[..n], steps[n];
      assert forall k :: 0 <= k < n ==> earlier[k] == steps[k];
      ArrivedKinds(s, earlier, providerId, e);
      DeliveredOneMore(steps, providerId, e);
      if step.ProviderCallback? {
        HandledExactly(s, earlier, step.id);
        if step.id in Run(s, earlier).handled {
          var k :| 0 <= k < n && earlier[k].ProviderCallback? && earlier[k].id == step.id;
          assert steps[k].event == steps[n].event && steps[k].providerId == steps[n].providerId;
          assert Brings(step, providerId, e) ==> Brings(earlier[k], providerId, e);
        }
      }
    }
  }

  /**
    Two runs, whatever else happens in them to others, in which the same kinds of event are delivered for an
    accepted message leave it with the same status, attempts and filled timestamps.
    */
  lemma MessageOrderDoesNotMatter(s: State, a: seq<Step>, b: seq<Step>, providerId: nat, m: nat)
    requires FindByProvider(s.messages, providerId) == Some(m)
    requires AlwaysLeftAlone(s, a, providerId, m) && AlwaysLeftAlone(s, b, providerId, m)
    requires OneEventEach(s, a) && OneEventEach(s, b)
    requires forall e :: Delivered(a, providerId, e) <==> Delivered(b, providerId, e)
    ensures var u, v := Run(s, a), Run(s, b);
            && m < |u.messages| && m < |v.messages|
            && u.messages[m].status == v.messages[m].status
            && u.messages[m].attempts == v.messages[m].attempts
            && Filled(u.messages[m].stamps) == Filled(v.messages[m].stamps)
  {
    MessageRun(s, a, providerId, m);
    MessageRun(s, b, providerId, m);
    forall e
      ensures e in Kinds(Arrived(s, a, providerId)) <==> e in Kinds(Arrived(s, b, providerId))
    {
      ArrivedKinds(s, a, providerId, e);
      ArrivedKinds(s, b, providerId, e);
    }
    CallbacksAreConfluent(Alone(s.messages[m]), Arrived(s, a, providerId), Arrived(s, b, providerId));
  }
}
