/**
  The delivery protocol over whole runs (communications/services.py): how often a message can be
  handed to the provider, with any number of workers, crashes, redelivered tasks and callbacks.
  */
module Delivery {
  import opened Wrappers
  import opened Sums
  import opened Messages
  import opened Messaging

  /** One per claim of message `m`; a claim makes at most one provider call. */
  function FlightOf(flights: seq<Flight>, m: nat): nat -> int {
    (f: nat) => if f < |flights| && flights[f].message == m then 1 else 0
  }

  function Flights(s: State, m: nat): int {
    Sum(FlightOf(s.flights, m), |s.flights|)
  }

  // ---- What steps do to messages and flights ----

  /** Messages stay what they are, only get more attempts, and keep an accepted provider id; new ones start from nothing. */
  ghost predicate MessagesProgress(s: State, t: State) {
    && |s.messages| <= |t.messages|
    && (forall m :: 0 <= m < |s.messages| ==>
          && SameOrigin(s.messages[m], t.messages[m])
          && s.messages[m].attempts <= t.messages[m].attempts
          && (t.messages[m].attempts <= Max(s.messages[m].attempts, MAX_ATTEMPTS))
          && (s.messages[m].providerId.Some? ==> t.messages[m].providerId.Some?))
    && (forall m :: |s.messages| <= m < |t.messages| ==>
          t.messages[m].status == Queued && t.messages[m].attempts == 0 && t.messages[m].providerId.None?)
  }

  /** A flight keeps its message and its attempt count, never calls the provider again, and undoes nothing. */
  predicate Onward(before: Flight, after: Flight) {
    && after.message == before.message && after.attempts == before.attempts
    && (after.stage.Calling? ==> before.stage.Calling?)
    && (before.stage.Landed? ==> after == before)
    && (before.accepted ==> after.accepted) && (before.settled ==> after.settled)
  }

  ghost predicate FlightsProgress(s: State, t: State) {
    && |s.flights| <= |t.flights|
    && forall f :: 0 <= f < |s.flights| ==> Onward(s.flights[f], t.flights[f])
  }

  /** New messages of an expansion: queued, untried, paid from the campaign's allowance. */
  predicate NewCampaignMessage(s: State, m: Message, c: nat)
    requires c < |s.campaigns|
  {
    && m.status == Queued && m.attempts == 0 && m.providerId.None?
    && m.campaign == Some(c) && m.channel == s.campaigns[c].channel
    && (s.campaigns[c].channel == Email ==> m.segments == 0)
    && m.allowance == (if c < |s.sms.accounts| then s.sms.accounts[c].allowance else None)
  }

  ghost predicate Appends(s: State, t: State, c: nat)
    requires c < |s.campaigns|
  {
    && t == s.(messages := t.messages, recipients := t.recipients, capabilities := t.capabilities)
    && s.messages <= t.messages
    && |s.recipients| <= |t.recipients|
    && forall m :: |s.messages| <= m < |t.messages| ==> NewCampaignMessage(s, t.messages[m], c)
  }

  lemma ExpandOneAppends(s: State, c: nat, contact: nat, token: Token, tally: Tally)
    requires c < |s.campaigns|
    ensures Appends(s, ExpandOne(s, c, contact, token, tally).0, c)
  {
  }

  lemma AppendsTwice(s: State, t: State, u: State, c: nat)
    requires c < |s.campaigns| && Appends(s, t, c) && Appends(t, u, c)
    ensures Appends(s, u, c)
  {
    forall m | |s.messages| <= m < |u.messages|
      ensures NewCampaignMessage(s, u.messages[m], c)
    {
      assert m >= |t.messages| ==> NewCampaignMessage(t, u.messages[m], c);
      assert m < |t.messages| ==> u.messages[m] == t.messages[m];
    }
  }

  lemma {:induction false} ExpandAllAppends(s: State, c: nat, ids: seq<nat>, tokens: seq<Token>)
    requires c < |s.campaigns|
    ensures Appends(s, ExpandAll(s, c, ids, tokens).0, c)
  {
    if ids != [] {
      var n := |ids| - 1;
      ExpandAllAppends(s, c, ids[..n], tokens);
      var (t, tally) := ExpandAll(s, c, ids[..n], tokens);
      ExpandOneAppends(t, c, ids[n], TokenFor(tokens, n), tally);
      AppendsTwice(s, t, ExpandAll(s, c, ids, tokens).0, c);
    }
  }

  ghost predicate Progress(s: State, t: State) {
    MessagesProgress(s, t) && FlightsProgress(s, t)
  }

  /** What the workers' own writes do to the messages and the flights. */
  lemma RecordShape(s: State, f: nat, providerId: nat)
    requires InAir(s, f)
    ensures var m := s.flights[f].message;
            var sent, failed := RecordSent(s, f, providerId), RecordFailure(s, f);
            && sent.messages == s.messages[m := s.messages[m].(
                 status := Sent, providerId := Some(providerId), updatedAt := s.now,
                 stamps := s.messages[m].stamps.(sentAt := Some(s.now)))]
            && failed.messages == s.messages[m := s.messages[m].(
                 status := Failed, availableAt := s.now + Backoff(s.flights[f].attempts), updatedAt := s.now)]
            && sent.flights == s.flights[f := s.flights[f].(stage := Recorded, accepted := true)]
            && failed.flights == At(s.flights, f, Recorded)
  {
  }

  /** After recording its answer a worker only moves on, and touches no message but the time of its last save. */
  ghost predicate MovesOn(s: State, t: State, f: nat) {
    && |t.messages| == |s.messages| && |t.flights| == |s.flights| && t.now == s.now
    && (forall m :: 0 <= m < |s.messages| ==> t.messages[m] == s.messages[m].(updatedAt := t.messages[m].updatedAt))
    && (t.flights == s.flights
        || (f < |s.flights| && Onward(s.flights[f], t.flights[f]) && !t.flights[f].stage.Calling?
            && t.flights[f].accepted == s.flights[f].accepted
            && t.flights == s.flights[f := t.flights[f]]))
  }

  lemma GoOnShape(s: State, f: nat)
    ensures MovesOn(s, GoOn(s, f), f) && MovesOn(s, Crash(s, f), f)
  {
  }

  lemma UnsubscribeShape(s: State, k: nat)
    requires LinkWorks(s, k)
    ensures var t := Unsubscribe(s, k);
            var contact, channel := s.capabilities[k].contact, s.capabilities[k].channel;
            && t.flights == s.flights && |t.messages| == |s.messages| && t.now == s.now
            && |t.campaigns| == |s.campaigns| && |t.recipients| == |s.recipients|
            && forall m :: 0 <= m < |s.messages| ==>
                 t.messages[m] == if UnsubscribeHits(s.messages[m], contact, channel)
                                  then s.messages[m].(status := Unsubscribed, updatedAt := s.now,
                                                      stamps := s.messages[m].stamps.(unsubscribedAt := Some(s.now)))
                                  else s.messages[m]
  {
    var contact, channel := s.capabilities[k].contact, s.capabilities[k].channel;
    var t := LinkUsed(s, k);
    UnsubscribeUpToShape(t, contact, channel, |t.messages|);
    RefreshUpToShape(UnsubscribeUpTo(t, contact, channel, |t.messages|),
                     AffectedCampaigns(t, contact, channel), |t.campaigns|);
  }

  predicate Final(m: Message) {
    Terminal(m.status) || (m.status == Failed && m.attempts >= MAX_ATTEMPTS)
  }

  /**
    What happens to a message when no worker is at it: nothing; it is taken out of the queue; it is put
    back when its worker has been silent too long; or its provider's report is recorded.
    */
  predicate Bystands(before: Message, after: Message, reclaim: bool) {
    && SameOrigin(before, after) && after.providerId == before.providerId
    && (|| after == before
        || (PendingStatus(before.status) && after.attempts == before.attempts
            && (after.status == Suppressed || after.status == Unsubscribed))
        || (reclaim && before.status == Processing && after == before.(status := Queued))
        || (before.providerId.Some? && (after.status == before.status || Final(after))
            && before.attempts <= after.attempts <= Max(before.attempts, MAX_ATTEMPTS)))
  }

  /** New messages are queued and untried. */
  ghost predicate LeavesWorkers(s: State, t: State, reclaim: bool) {
    && t.flights == s.flights && |s.messages| <= |t.messages|
    && (forall m :: 0 <= m < |s.messages| ==> Bystands(s.messages[m], t.messages[m], reclaim && Stale(s.messages[m], s.now)))
    && (forall m :: |s.messages| <= m < |t.messages| ==>
          t.messages[m].status == Queued && t.messages[m].attempts == 0 && t.messages[m].providerId.None?)
  }

  ghost predicate Claims(s: State, t: State, m: nat) {
    if m >= |s.messages| || !Deliverable(s.messages[m], s.now) then t.messages == s.messages && t.flights == s.flights
    else if !StillReachable(s, s.messages[m]) then
      && t.messages == s.messages[m := s.messages[m].(status := Suppressed, updatedAt := s.now)]
      && t.flights == s.flights
    else
      && t.messages == s.messages[m := s.messages[m].(
           status := Processing, attempts := s.messages[m].attempts + 1, updatedAt := s.now)]
      && t.flights == s.flights + [Flight(m, s.messages[m].attempts + 1, Calling, false, false)]
  }

  lemma ClaimShape(s: State, m: nat)
    ensures Claims(s, Claim(s, m), m)
  {
  }

  /** The worker saves what the provider answered. */
  ghost predicate Answers(s: State, t: State, f: nat, accepted: bool) {
    if !InAir(s, f) then t.messages == s.messages && t.flights == s.flights
    else
      var m := s.flights[f].message;
      && |t.messages| == |s.messages| && t.messages == s.messages[m := t.messages[m]]
      && SameOrigin(s.messages[m], t.messages[m]) && t.messages[m].attempts == s.messages[m].attempts
      && (if accepted then t.messages[m].status == Sent && t.messages[m].providerId.Some?
          else t.messages[m].status == Failed && t.messages[m].providerId == s.messages[m].providerId)
      && t.flights == s.flights[f := s.flights[f].(
           stage := Recorded, accepted := s.flights[f].accepted || accepted)]
  }

  /** What a step does to the messages and the workers. */
  ghost predicate Effect(s: State, t: State, step: Step) {
    match step
    case ClaimMessage(m) => Claims(s, t, m)
    case ProviderAccepts(f, _) => Answers(s, t, f, true)
    case ProviderRaises(f) => Answers(s, t, f, false)
    case WorkerGoesOn(f) => MovesOn(s, t, f)
    case WorkerDies(f) => MovesOn(s, t, f)
    case _ => LeavesWorkers(s, t, step.Reclaim?)
  }

  lemma CampaignStepLeavesWorkers(s: State, step: Step)
    requires CampaignStep(step)
    ensures LeavesWorkers(s, Next(s, step), false)
  {
    if step.ExpandCampaign? && step.campaign < |s.campaigns| {
      ExpandAllAppends(s, step.campaign, AudienceIds(s.contacts, step.audience, |s.contacts|), step.tokens);
    }
  }

  lemma PlainStepLeavesWorkers(s: State, step: Step)
    requires PlainStep(step)
    ensures LeavesWorkers(s, Next(s, step), step.Reclaim?)
  {
  }

  lemma LinkLeavesWorkers(s: State, k: nat)
    ensures LeavesWorkers(s, Unsubscribe(s, k), false)
  {
    if LinkWorks(s, k) {
      UnsubscribeShape(s, k);
    }
  }

  lemma WorkerStepEffect(s: State, step: Step)
    requires WorkerStep(step)
    ensures Effect(s, Next(s, step), step)
  {
    match step
    case ClaimMessage(m) => ClaimShape(s, m);
    case ProviderAccepts(f, providerId) =>
      if InAir(s, f) {
        RecordShape(s, f, providerId);
      }
    case ProviderRaises(f) =>
      if InAir(s, f) {
        RecordShape(s, f, 0);
      }
    case WorkerGoesOn(f) => GoOnShape(s, f);
    case WorkerDies(f) => GoOnShape(s, f);
  }

  lemma StepEffect(s: State, step: Step)
    ensures Effect(s, Next(s, step), step)
  {
    if WorkerStep(step) {
      WorkerStepEffect(s, step);
    } else if CampaignStep(step) {
      CampaignStepLeavesWorkers(s, step);
    } else if step.UseUnsubscribeLink? {
      LinkLeavesWorkers(s, step.capability);
    } else {
      PlainStepLeavesWorkers(s, step);
    }
  }

  lemma EffectProgress(s: State, t: State, step: Step)
    requires Effect(s, t, step)
    ensures Progress(s, t)
    ensures !step.ClaimMessage? ==> |t.flights| == |s.flights|
  {
  }

  lemma StepProgress(s: State, step: Step)
    ensures Progress(s, Next(s, step))
    ensures !step.ClaimMessage? ==> |Next(s, step).flights| == |s.flights|
  {
    StepEffect(s, step);
    EffectProgress(s, Next(s, step), step);
  }

  // ---- Provider calls are bounded by attempts, under any interleaving ----

  ghost predicate AttemptsBound(s: State) {
    && (forall f :: 0 <= f < |s.flights| ==>
          s.flights[f].message < |s.messages| && s.flights[f].attempts <= s.messages[s.flights[f].message].attempts)
    && (forall m: nat :: m < |s.messages| ==> Flights(s, m) <= s.messages[m].attempts <= MAX_ATTEMPTS)
  }

  lemma FlightsKept(s: State, t: State, m: nat)
    requires FlightsProgress(s, t) && |t.flights| == |s.flights|
    ensures Flights(t, m) == Flights(s, m)
  {
    SumEqual(FlightOf(s.flights, m), FlightOf(t.flights, m), |s.flights|);
  }

  lemma ClaimFlies(s: State, m: nat, other: nat)
    ensures var t := Claim(s, m);
            Flights(t, other) == Flights(s, other) + if |t.flights| > |s.flights| && other == m then 1 else 0
  {
    var t := Claim(s, m);
    SumEqual(FlightOf(s.flights, other), FlightOf(t.flights, other), |s.flights|);
  }

  lemma NoFlightsYet(s: State, m: nat)
    requires forall f :: 0 <= f < |s.flights| ==> s.flights[f].message != m
    ensures Flights(s, m) == 0
  {
    SumZero(FlightOf(s.flights, m), |s.flights|);
  }

  lemma ProgressKeepsAttemptsBound(s: State, t: State)
    requires AttemptsBound(s) && Progress(s, t) && |t.flights| == |s.flights|
    ensures AttemptsBound(t)
  {
    forall m: nat | m < |t.messages|
      ensures Flights(t, m) <= t.messages[m].attempts <= MAX_ATTEMPTS
    {
      FlightsKept(s, t, m);
      if m >= |s.messages| {
        NoFlightsYet(s, m);
      }
    }
  }

  lemma ClaimKeepsAttemptsBound(s: State, m: nat)
    requires AttemptsBound(s)
    ensures AttemptsBound(Claim(s, m))
  {
    var t := Claim(s, m);
    ClaimShape(s, m);
    forall other: nat | other < |t.messages|
      ensures Flights(t, other) <= t.messages[other].attempts <= MAX_ATTEMPTS
    {
      ClaimFlies(s, m, other);
    }
  }

  lemma NextKeepsAttemptsBound(s: State, step: Step)
    requires AttemptsBound(s)
    ensures AttemptsBound(Next(s, step))
  {
    if step.ClaimMessage? {
      ClaimKeepsAttemptsBound(s, step.message);
    } else {
      StepProgress(s, step);
      ProgressKeepsAttemptsBound(s, Next(s, step));
    }
  }

  /** Whatever is killed, redelivered, reclaimed or called back: provider calls <= attempts <= 5. */
  lemma {:induction false} ProviderCallsAreBounded(site: Site, included: nat, purchased: nat, steps: seq<Step>)
    ensures AttemptsBound(Run(Initial(site, included, purchased), steps))
  {
    if steps != [] {
      var earlier := steps[..|steps| - 1];
      ProviderCallsAreBounded(site, included, purchased, earlier);
      NextKeepsAttemptsBound(Run(Initial(site, included, purchased), earlier), steps[|steps| - 1]);
    }
  }

  // ---- One worker at a time ----

  /** At most one worker is calling the provider with the message, and once accepted the message is final. */
  ghost predicate Solo(messages: seq<Message>, flights: seq<Flight>, m: nat) {
    && (forall f :: 0 <= f < |flights| && flights[f].stage.Calling? && flights[f].message == m ==>
          m < |messages| && messages[m].status == Processing)
    && (forall f, g :: 0 <= f < g < |flights| && flights[f].stage.Calling? && flights[g].stage.Calling? ==>
          !(flights[f].message == m && flights[g].message == m))
    && (m < |messages| && messages[m].providerId.Some? ==> Final(messages[m]))
  }

  ghost predicate SingleFlight(s: State, m: nat) {
    Solo(s.messages, s.flights, m)
  }

  /** The step takes the message back from a worker that is still calling the provider with it. */
  predicate TakesBack(s: State, step: Step, m: nat) {
    step.Reclaim? && m < |s.messages| && Stale(s.messages[m], s.now)
    && exists f :: 0 <= f < |s.flights| && s.flights[f].stage.Calling? && s.flights[f].message == m
  }

  predicate NeverTakenBack(s: State, steps: seq<Step>, m: nat) {
    steps == [] ||
    (NeverTakenBack(s, steps[..|steps| - 1], m) && !TakesBack(Run(s, steps[..|steps| - 1]), steps[|steps| - 1], m))
  }

  lemma EffectKeepsSingleFlight(s: State, t: State, step: Step, m: nat)
    requires SingleFlight(s, m) && Effect(s, t, step) && !TakesBack(s, step, m)
    requires |s.messages| <= m < |t.messages| ==> t.messages[m].providerId.None?
    ensures SingleFlight(t, m)
  {
  }

  lemma NextKeepsSingleFlight(s: State, step: Step, m: nat)
    requires SingleFlight(s, m) && !TakesBack(s, step, m)
    ensures SingleFlight(Next(s, step), m)
  {
    StepEffect(s, step);
    EffectKeepsSingleFlight(s, Next(s, step), step, m);
  }

  /** Unless a reclaim takes the message back from a worker that is still calling, one worker at a time is calling with it. */
  lemma {:induction false} RunKeepsSingleFlight(site: Site, included: nat, purchased: nat, steps: seq<Step>, m: nat)
    requires NeverTakenBack(Initial(site, included, purchased), steps, m)
    ensures SingleFlight(Run(Initial(site, included, purchased), steps), m)
  {
    if steps != [] {
      var earlier := steps[..|steps| - 1];
      RunKeepsSingleFlight(site, included, purchased, earlier, m);
      NextKeepsSingleFlight(Run(Initial(site, included, purchased), earlier), steps[|steps| - 1], m);
    }
  }

  predicate AcceptedByProvider(s: State, m: nat) {
    m < |s.messages| && s.messages[m].providerId.Some?
  }

  ghost predicate NobodyIsSending(s: State, m: nat) {
    forall f :: 0 <= f < |s.flights| && s.flights[f].message == m ==> !s.flights[f].stage.Calling?
  }

  lemma AcceptedStaysAccepted(s: State, step: Step, m: nat)
    requires SingleFlight(s, m) && AcceptedByProvider(s, m)
    ensures var t := Next(s, step);
            SingleFlight(t, m) && AcceptedByProvider(t, m) && Flights(t, m) == Flights(s, m)
  {
    StepProgress(s, step);
    NextKeepsSingleFlight(s, step, m);
    TakesOffOnlyBy(s, step, m);
  }

  /**
    Where at most one worker has been calling with it, an accepted message is sent by nobody, nobody will
    start to, and it stays accepted, whatever is reclaimed from then on.
    */
  lemma {:induction false} AcceptedIsNeverSentAgain(s: State, steps: seq<Step>, m: nat)
    requires SingleFlight(s, m) && AcceptedByProvider(s, m)
    ensures var t := Run(s, steps);
            && SingleFlight(t, m) && AcceptedByProvider(t, m)
            && Flights(t, m) == Flights(s, m)
            && NobodyIsSending(t, m)
  {
    if steps != [] {
      AcceptedIsNeverSentAgain(s, steps[..|steps| - 1], m);
      AcceptedStaysAccepted(Run(s, steps[..|steps| - 1]), steps[|steps| - 1], m);
    }
  }

  /** A reclaim is the one step that can break this, and does exactly when it takes the message back in mid-call. */
  lemma ReclaimBreaksExactly(s: State, m: nat)
    requires SingleFlight(s, m)
    ensures SingleFlight(ReclaimStale(s), m) <==> !TakesBack(s, Reclaim, m)
  {
    if TakesBack(s, Reclaim, m) {
      assert ReclaimStale(s).messages[m].status == Queued;
    } else {
      NextKeepsSingleFlight(s, Reclaim, m);
    }
  }

  // ---- Messages nobody will send ----

  /** No worker will claim the message any more. */
  predicate Done(m: Message) { Terminal(m.status) || m.attempts >= MAX_ATTEMPTS }

  /** Nor is one calling the provider with it. */
  ghost predicate Grounded(s: State, m: nat) {
    m < |s.messages| && Done(s.messages[m]) && NobodyIsSending(s, m)
  }

  lemma EffectKeepsGrounded(s: State, t: State, step: Step, m: nat)
    requires Grounded(s, m) && Effect(s, t, step)
    ensures Grounded(t, m)
  {
  }

  /** One step: the flights of a message grow only by a claim of it while it is deliverable to a reachable contact. */
  lemma TakesOffOnlyBy(s: State, step: Step, m: nat)
    requires step == ClaimMessage(m) ==>
               m >= |s.messages| || !Deliverable(s.messages[m], s.now) || !StillReachable(s, s.messages[m])
    ensures Flights(Next(s, step), m) == Flights(s, m)
  {
    StepProgress(s, step);
    if step.ClaimMessage? {
      ClaimShape(s, step.message);
      ClaimFlies(s, step.message, m);
    } else {
      FlightsKept(s, Next(s, step), m);
    }
  }

  lemma {:induction false} GroundedNeverTakesOff(s: State, steps: seq<Step>, m: nat)
    requires Grounded(s, m)
    ensures Grounded(Run(s, steps), m) && Flights(Run(s, steps), m) == Flights(s, m)
  {
    if steps != [] {
      var u := Run(s, steps[..|steps| - 1]);
      GroundedNeverTakesOff(s, steps[..|steps| - 1], m);
      StepEffect(u, steps[|steps| - 1]);
      EffectKeepsGrounded(u, Next(u, steps[|steps| - 1]), steps[|steps| - 1], m);
      TakesOffOnlyBy(u, steps[|steps| - 1], m);
    }
  }

  /** A failed delivery is not tried again before its back-off has passed, and the wait is 2 to 60 minutes. */
  lemma FailureWaits(s: State, f: nat, later: nat)
    requires InAir(s, f) && s.flights[f].attempts >= 1
    requires later < s.now + Backoff(s.flights[f].attempts)
    ensures var m := RecordFailure(s, f).messages[s.flights[f].message];
            m.status == Failed && !Deliverable(m, later)
    ensures 120 <= Backoff(s.flights[f].attempts) <= 3600
  {
    PowersGrow(s.flights[f].attempts);
  }

  lemma {:induction false} PowersGrow(n: nat)
    ensures Pow2(n) >= n + 1
  {
    if n != 0 {
      PowersGrow(n - 1);
    }
  }
}
