/**
  Whether a recipient's status ever goes back (communications/services.py:107-125, callbacks.py:95-131):
  callbacks only advance it, but a worker tells it the outcome of its own call after saving the message.
  */
module RecipientRanks {
  import opened Wrappers
  import opened Messages
  import opened Callbacks
  import opened Messaging
  import opened Holdings
  import opened LostSegments

  /** The rank of the message status that the recipient's status goes with. */
  function RecipientRank(status: RecipientStatus): nat {
    match status
    case RecipientExcluded => 0
    case RecipientQueued => 0
    case RecipientSent => Rank(Sent)
    case RecipientDelivered => Rank(Delivered)
    case RecipientOpened => Rank(Opened)
    case RecipientClicked => Rank(Clicked)
    case RecipientFailed => Rank(Failed)
    case RecipientBounced => Rank(Bounced)
    case RecipientSuppressed => Rank(Suppressed)
    case RecipientUnsubscribed => Rank(Unsubscribed)
  }

  function RankAt(s: State, r: nat): nat
    requires r < |s.recipients|
  {
    RecipientRank(s.recipients[r].status)
  }

  /** What the worker is about to tell its recipient. */
  function Outcome(flight: Flight): RecipientStatus {
    if flight.accepted then RecipientSent else if AtLimit(flight) then RecipientFailed else RecipientQueued
  }

  /**
    A worker tells less than the recipient shows by now; or a message whose recipient has unsubscribed is
    suppressed; or a callback advances a message that is behind its recipient, to less than that shows.
    */
  predicate SetsBack(s: State, step: Step, r: nat)
    requires r < |s.recipients|
  {
    match step
    case WorkerGoesOn(f) =>
      f < |s.flights| && s.flights[f].message < |s.messages| && s.flights[f].stage.Recorded?
      && s.messages[s.flights[f].message].recipient == Some(r) && RecipientRank(Outcome(s.flights[f])) < RankAt(s, r)
    case ClaimMessage(m) =>
      m < |s.messages| && Deliverable(s.messages[m], s.now) && !StillReachable(s, s.messages[m])
      && s.messages[m].recipient == Some(r) && s.recipients[r].status == RecipientUnsubscribed
    case ProviderCallback(id, providerId, e, _) =>
      var found := FindByProvider(s.messages, providerId);
      && id !in s.handled && found.Some? && e != UnknownEvent
      && s.messages[found.value].recipient == Some(r) && Advances(s.messages[found.value], e)
      && RecipientRank(EventRecipientStatus(e)) < RankAt(s, r)
    case _ => false
  }

  // ---- Steps that never set back ----

  ghost predicate OnlyUnsubscribes(a: seq<Recipient>, b: seq<Recipient>) {
    |b| == |a| && forall r :: 0 <= r < |a| ==> b[r].status == a[r].status || b[r].status == RecipientUnsubscribed
  }

  lemma WithdrawRaises(s: State, t: State, m: nat, contact: nat, channel: Channel)
    requires t == UnsubscribeOne(s, m, contact, channel)
    ensures OnlyUnsubscribes(s.recipients, t.recipients)
  {
  }

  lemma UnsubscribesTwice(a: seq<Recipient>, b: seq<Recipient>, c: seq<Recipient>)
    requires OnlyUnsubscribes(a, b) && OnlyUnsubscribes(b, c)
    ensures OnlyUnsubscribes(a, c)
  {
  }

  lemma {:induction false} UnsubscribeRaises(s: State, contact: nat, channel: Channel, n: nat)
    ensures OnlyUnsubscribes(s.recipients, UnsubscribeUpTo(s, contact, channel, n).recipients)
  {
    if n != 0 {
      UnsubscribeRaises(s, contact, channel, n - 1);
      var u, t := UnsubscribeUpTo(s, contact, channel, n - 1), UnsubscribeUpTo(s, contact, channel, n);
      WithdrawRaises(u, t, n - 1, contact, channel);
      UnsubscribesTwice(s.recipients, u.recipients, t.recipients);
    }
  }

  lemma LinkRaises(s: State, k: nat, r: nat)
    requires r < |s.recipients|
    ensures r < |Unsubscribe(s, k).recipients| && RankAt(s, r) <= RankAt(Unsubscribe(s, k), r)
  {
    if LinkWorks(s, k) {
      var contact, channel := s.capabilities[k].contact, s.capabilities[k].channel;
      var t := LinkUsed(s, k);
      UnsubscribeRaises(t, contact, channel, |t.messages|);
      RefreshUpToShape(UnsubscribeUpTo(t, contact, channel, |t.messages|),
                       AffectedCampaigns(t, contact, channel), |t.campaigns|);
    }
  }

  /** Expanding a campaign leaves the recipients of others as they are. */
  lemma {:induction false} ExpansionLeavesOthers(s: State, c: nat, ids: seq<nat>, tokens: seq<Token>, r: nat)
    requires c < |s.campaigns| && r < |s.recipients| && s.recipients[r].campaign != c
    ensures var t := ExpandAll(s, c, ids, tokens).0; r < |t.recipients| && t.recipients[r] == s.recipients[r]
  {
    if ids != [] {
      ExpansionLeavesOthers(s, c, ids[..|ids| - 1], tokens, r);
    }
  }

  lemma ExpandLeavesOthers(s: State, c: nat, audience: set<nat>, tokens: seq<Token>, r: nat)
    requires RecipientsExpanded(s) && c < |s.campaigns| && r < |s.recipients|
    ensures var t := Expand(s, c, audience, tokens); r < |t.recipients| && t.recipients[r] == s.recipients[r]
  {
    if s.campaigns[c].status == Scheduled {
      ExpansionLeavesOthers(s, c, AudienceIds(s.contacts, audience, |s.contacts|), tokens, r);
    }
  }

  // ---- One step and every run ----

  lemma WorkerSetsBackExactly(s: State, step: Step, r: nat)
    requires r < |s.recipients| && WorkerStep(step)
    ensures r < |Next(s, step).recipients|
    ensures RankAt(Next(s, step), r) < RankAt(s, r) <==> SetsBack(s, step, r)
  {
    match step
    case ClaimMessage(m) => ClaimSetsBackExactly(s, m, r);
    case WorkerGoesOn(f) => TellingSetsBackExactly(s, f, r);
    case _ =>
  }

  lemma ClaimSetsBackExactly(s: State, m: nat, r: nat)
    requires r < |s.recipients|
    ensures var t := Next(s, ClaimMessage(m));
            r < |t.recipients| && (RankAt(t, r) < RankAt(s, r) <==> SetsBack(s, ClaimMessage(m), r))
  {
  }

  lemma TellingSetsBackExactly(s: State, f: nat, r: nat)
    requires r < |s.recipients|
    ensures var t := Next(s, WorkerGoesOn(f));
            r < |t.recipients| && (RankAt(t, r) < RankAt(s, r) <==> SetsBack(s, WorkerGoesOn(f), r))
  {
  }

  lemma OtherSetsBackExactly(s: State, step: Step, r: nat)
    requires r < |s.recipients| && !WorkerStep(step) && !step.ExpandCampaign? && !step.UseUnsubscribeLink?
    ensures r < |Next(s, step).recipients|
    ensures RankAt(Next(s, step), r) < RankAt(s, r) <==> SetsBack(s, step, r)
  {
  }

  /** A step lowers what a recipient shows if and only if it is one of these three. */
  lemma SetsBackExactly(s: State, step: Step, r: nat)
    requires RecipientsExpanded(s) && r < |s.recipients|
    ensures r < |Next(s, step).recipients|
    ensures RankAt(Next(s, step), r) < RankAt(s, r) <==> SetsBack(s, step, r)
  {
    if WorkerStep(step) {
      WorkerSetsBackExactly(s, step, r);
    } else if step.ExpandCampaign? {
      if step.campaign < |s.campaigns| {
        ExpandLeavesOthers(s, step.campaign, step.audience, step.tokens, r);
      }
    } else if step.UseUnsubscribeLink? {
      LinkRaises(s, step.capability, r);
    } else {
      OtherSetsBackExactly(s, step, r);
    }
  }

  predicate NeverSetBack(s: State, steps: seq<Step>, r: nat) {
    steps == []
    || (var u := Run(s, steps[..|steps| - 1]);
        NeverSetBack(s, steps[..|steps| - 1], r) && (r < |u.recipients| ==> !SetsBack(u, steps[|steps| - 1], r)))
  }

  /** Over runs without such a step a recipient's rank never falls. */
  lemma {:induction false} RanksRise(s: State, steps: seq<Step>, r: nat)
    requires RecipientsExpanded(s) && r < |s.recipients| && NeverSetBack(s, steps, r)
    ensures var t := Run(s, steps);
            RecipientsExpanded(t) && r < |t.recipients| && RankAt(s, r) <= RankAt(t, r)
  {
    if steps != [] {
      var u := Run(s, steps[..|steps| - 1]);
      RanksRise(s, steps[..|steps| - 1], r);
      SetsBackExactly(u, steps[|steps| - 1], r);
      NextKeepsRecipients(u, steps[|steps| - 1]);
    }
  }

  // ---- A run that sets back ----

  const EXPANDED: seq<Step> := LAUNCHED + [ExpandCampaign(0, {0}, [])]
  const TAKEN: seq<Step> := EXPANDED + [ClaimMessage(1)]
  const ACCEPTED: seq<Step> := TAKEN + [ProviderAccepts(0, 7)]
  const REPORTED: seq<Step> := ACCEPTED + [ProviderCallback(1, 7, DeliveredEvent, 0)]
  const TOLD: seq<Step> := REPORTED + [WorkerGoesOn(0)]

  /** The reader's message, after the test's, and its recipient. */
  ghost predicate Underway(s: State, status: MessageStatus, flights: seq<Flight>, shown: RecipientStatus) {
    && s.contacts == [READER] && s.now == 0 && s.handled == {} && s.flights == flights
    && |s.messages| == 2 && s.messages[0].providerId.None?
    && s.messages[1] == s.messages[1].(channel := Sms, contact := Some(0), recipient := Some(0), marketing := true,
                                       status := status, availableAt := 0)
    && s.messages[1].attempts == (if status == Queued then 0 else 1)
    && s.messages[1].providerId == (if status == Sent then Some(7) else None)
    && |s.recipients| == 1 && s.recipients[0].status == shown
  }

  lemma LaunchedState(s: State)
    requires s == With(0, ROW, []).(contacts := [READER])
    ensures var t := Next(s, LaunchCampaign(0, {0}, true, true));
            && t == s.(sms := t.sms, campaigns := t.campaigns)
            && |t.campaigns| == 1 && t.campaigns[0].status == Scheduled && t.campaigns[0].channel == Sms
            && t.campaigns[0].scheduledFor == Some(0)
  {
    ReaderIsEligible(s);
    assert LaunchRefusal(s, 0, {0}, true, true).None?;
  }

  lemma Expands(s: State)
    requires s.contacts == [READER] && s.site == HERE && s.now == 0 && s.handled == {} && s.flights == []
    requires s.messages == [ROW] && s.recipients == []
    requires |s.campaigns| == 1 && s.campaigns[0].status == Scheduled && s.campaigns[0].channel == Sms
    requires s.campaigns[0].scheduledFor == Some(0)
    ensures Underway(Next(s, ExpandCampaign(0, {0}, [])), Queued, [], RecipientQueued)
  {
    assert AudienceIds(s.contacts, {0}, 1) == [0];
    assert [0][..0] == [];
    assert ExpandAll(s, 0, [], []) == (s, Tally(0, 0, 0));
    var (t, tally) := ExpandOne(s, 0, 0, TokenFor([], 0), Tally(0, 0, 0));
    assert ExpandAll(s, 0, [0], []) == (t, tally);
    ExpandsOne(s, TokenFor([], 0));
    assert Next(s, ExpandCampaign(0, {0}, [])) == ExpansionDone(t, 0, tally);
  }

  lemma ExpandsOne(s: State, token: Token)
    requires s.contacts == [READER] && s.site == HERE && s.now == 0 && s.handled == {} && s.flights == []
    requires s.messages == [ROW] && s.recipients == []
    requires |s.campaigns| == 1 && s.campaigns[0].channel == Sms
    ensures Underway(ExpandOne(s, 0, 0, token, Tally(0, 0, 0)).0, Queued, [], RecipientQueued)
  {
  }

  lemma TakesIt(s: State)
    requires Underway(s, Queued, [], RecipientQueued)
    ensures Underway(Next(s, ClaimMessage(1)), Processing, [Flight(1, 1, Calling, false, false)], RecipientQueued)
  {
    assert StillReachable(s, s.messages[1]);
  }

  lemma AcceptsIt(s: State)
    requires Underway(s, Processing, [Flight(1, 1, Calling, false, false)], RecipientQueued)
    ensures Underway(Next(s, ProviderAccepts(0, 7)), Sent, [Flight(1, 1, Recorded, true, false)], RecipientQueued)
  {
  }

  /** The report of the delivery comes in, and then the worker tells the recipient SENT. */
  lemma ReportsAndTells(s: State)
    requires Underway(s, Sent, [Flight(1, 1, Recorded, true, false)], RecipientQueued)
    ensures var t := Next(s, ProviderCallback(1, 7, DeliveredEvent, 0));
            var u := Next(t, WorkerGoesOn(0));
            && |t.recipients| == |u.recipients| == 1 && |t.messages| == |u.messages| == 2
            && t.recipients[0].status == RecipientDelivered && SetsBack(t, WorkerGoesOn(0), 0)
            && u.recipients[0].status == RecipientSent && u.messages[1].status == Delivered
  {
    assert FindByProvider(s.messages, 7) == Some(1);
  }

  /** A delivered message's recipient shows SENT from then on. */
  lemma DeliveredShowsSent()
    ensures var t, u := Run(START, REPORTED), Run(START, TOLD);
            && |t.recipients| == |u.recipients| == 1 && |u.messages| == 2
            && t.recipients[0].status == RecipientDelivered && SetsBack(t, WorkerGoesOn(0), 0)
            && u.recipients[0].status == RecipientSent && u.messages[1].status == Delivered
  {
    ReaderAdded();
    var s := With(0, ROW, []).(contacts := [READER]);
    LaunchedState(s);
    OneMore(START, WITH_READER, LaunchCampaign(0, {0}, true, true));
    Expands(Run(START, LAUNCHED));
    OneMore(START, LAUNCHED, ExpandCampaign(0, {0}, []));
    TakesIt(Run(START, EXPANDED));
    OneMore(START, EXPANDED, ClaimMessage(1));
    AcceptsIt(Run(START, TAKEN));
    OneMore(START, TAKEN, ProviderAccepts(0, 7));
    ReportsAndTells(Run(START, ACCEPTED));
    OneMore(START, ACCEPTED, ProviderCallback(1, 7, DeliveredEvent, 0));
    OneMore(START, REPORTED, WorkerGoesOn(0));
  }
}
