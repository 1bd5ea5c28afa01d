/**
  When every message of a campaign is final: what it can still hold, which killed worker that comes
  from, and why it is then held for good (communications/services.py:168-271).
  */
module Finished {
  import opened Wrappers
  import opened Sums
  import opened Messages
  import opened SmsLedger
  import opened Messaging
  import opened Delivery
  import opened Reservations
  import opened Backing
  import opened Settling
  import opened Holdings

  // ---- The worker that settles a message ----

  /** It is for this worker to settle: the provider took its message, or it made the last attempt. */
  predicate Seals(flight: Flight) { flight.accepted || AtLimit(flight) }

  /** It was for this worker to settle, and it is gone without having done so. */
  predicate Killed(flight: Flight) { Seals(flight) && flight.stage.Landed? && !flight.settled }

  predicate Sealed(m: Message) { m.providerId.Some? || m.attempts >= MAX_ATTEMPTS }

  predicate HasSealer(flights: seq<Flight>, m: nat) {
    exists f :: 0 <= f < |flights| && flights[f].message == m && Seals(flights[f])
  }

  /** Only workers that are to settle get that far, and they have settled once they are past it. */
  predicate InStep(flight: Flight) {
    && (flight.stage.Calling? ==> !flight.accepted)
    && (flight.stage.Told? || flight.settled ==> Seals(flight))
    && (flight.stage.Settled? || flight.stage.Cleared? ==> flight.settled)
    && (flight.settled ==> flight.stage.Settled? || flight.stage.Cleared? || flight.stage.Landed?)
  }

  /** A message accepted or out of attempts has a worker whose it is to settle; a terminal one that nobody accepted was taken out. */
  ghost predicate Attended(s: State) {
    && (forall m: nat :: m < |s.messages| ==>
          && (Sealed(s.messages[m]) ==> HasSealer(s.flights, m))
          && (Terminal(s.messages[m].status) && s.messages[m].providerId.None? ==> TakenOut(s.messages[m])))
    && (forall f :: 0 <= f < |s.flights| ==> InStep(s.flights[f]))
  }

  lemma SealersStay(before: seq<Flight>, after: seq<Flight>, m: nat)
    requires |before| <= |after| && forall f :: 0 <= f < |before| ==> Onward(before[f], after[f])
    requires HasSealer(before, m)
    ensures HasSealer(after, m)
  {
    var f :| 0 <= f < |before| && before[f].message == m && Seals(before[f]);
    assert Onward(before[f], after[f]) && Seals(after[f]);
  }

  lemma EffectKeepsAttended(s: State, t: State, step: Step)
    requires Attended(s) && Effect(s, t, step)
    requires step.WorkerGoesOn? || step.WorkerDies? ==> step.flight < |s.flights| ==> InStep(t.flights[step.flight])
    ensures Attended(t)
  {
    EffectProgress(s, t, step);
    forall n: nat | n < |t.messages| && Sealed(t.messages[n])
      ensures HasSealer(t.flights, n)
    {
      if n < |s.messages| && Sealed(s.messages[n]) {
        SealersStay(s.flights, t.flights, n);
      } else if step.ClaimMessage? {
        assert t.flights[|s.flights|].message == n && Seals(t.flights[|s.flights|]);
      } else {
        assert step.ProviderAccepts?;
        assert t.flights[step.flight].message == n && Seals(t.flights[step.flight]);
      }
    }
  }

  lemma MovesStayInStep(s: State, f: nat)
    requires f < |s.flights| && InStep(s.flights[f])
    ensures f < |GoOn(s, f).flights| && InStep(GoOn(s, f).flights[f])
    ensures f < |Crash(s, f).flights| && InStep(Crash(s, f).flights[f])
  {
  }

  lemma NextKeepsAttended(s: State, step: Step)
    requires Attended(s)
    ensures Attended(Next(s, step))
  {
    StepEffect(s, step);
    if (step.WorkerGoesOn? || step.WorkerDies?) && step.flight < |s.flights| {
      assert InStep(s.flights[step.flight]);
      MovesStayInStep(s, step.flight);
    }
    EffectKeepsAttended(s, Next(s, step), step);
  }

  lemma {:induction false} RunKeepsAttended(s: State, steps: seq<Step>)
    requires Attended(s)
    ensures Attended(Run(s, steps))
  {
    if steps != [] {
      RunKeepsAttended(s, steps[..|steps| - 1]);
      NextKeepsAttended(Run(s, steps[..|steps| - 1]), steps[|steps| - 1]);
    }
  }

  /** The one step that makes a worker a killed one is its death between taking the message on itself and settling it. */
  lemma KilledExactly(s: State, step: Step, f: nat)
    requires Attended(s) && f < |s.flights| && !Killed(s.flights[f])
    ensures f < |Next(s, step).flights|
    ensures Killed(Next(s, step).flights[f])
            <==> step == WorkerDies(f) && Seals(s.flights[f]) && !s.flights[f].settled
  {
    assert InStep(s.flights[f]);
    StepEffect(s, step);
    if step.WorkerGoesOn? && step.flight == f {
      MovesStayInStep(s, f);
      GoingOnKillsNobody(s, f);
    }
  }

  lemma GoingOnKillsNobody(s: State, f: nat)
    requires f < |s.flights| && InStep(s.flights[f]) && !Killed(s.flights[f])
    ensures f < |GoOn(s, f).flights| && !Killed(GoOn(s, f).flights[f])
  {
  }

  // ---- A campaign whose messages are all final ----

  ghost predicate AtRest(s: State, m: nat) {
    forall f :: 0 <= f < |s.flights| && s.flights[f].message == m ==> s.flights[f].stage.Landed?
  }

  /** Final, but the workers that were to settle it were all killed. */
  ghost predicate Stuck(s: State, m: nat)
    requires m < |s.messages|
  {
    && Final(s.messages[m]) && !TakenOut(s.messages[m])
    && (exists f :: 0 <= f < |s.flights| && s.flights[f].message == m && Killed(s.flights[f]))
    && (forall f :: 0 <= f < |s.flights| && s.flights[f].message == m && Seals(s.flights[f]) ==> Killed(s.flights[f]))
  }

  /** A final message nobody works on is unsettled if and only if all its workers that were to settle it were killed. */
  lemma UnsettledExactly(s: State, m: nat)
    requires Attended(s) && m < |s.messages| && Final(s.messages[m]) && AtRest(s, m)
    ensures !SettledUp(s, m) <==> Stuck(s, m)
  {
    if !SettledUp(s, m) {
      assert Sealed(s.messages[m]);
      var f :| 0 <= f < |s.flights| && s.flights[f].message == m && Seals(s.flights[f]);
      assert Killed(s.flights[f]);
    }
  }

  /** The segments of the campaign's stuck messages. */
  ghost function StuckOf(s: State, c: nat): nat -> int {
    (m: nat) =>
      if m < |s.messages| && s.messages[m].campaign == Some(c) && Stuck(s, m) then s.messages[m].segments else 0
  }

  ghost predicate AllFinal(s: State, c: nat) {
    forall m: nat :: m < |s.messages| && s.messages[m].campaign == Some(c) ==> Final(s.messages[m]) && AtRest(s, m)
  }

  /**
    Once its messages are final and nobody works on them, a campaign holds at most the segments of the
    messages whose settling worker was killed; so it holds nothing if none was.
    */
  lemma FinishedCampaignHoldsNothing(site: Site, included: nat, purchased: nat, steps: seq<Step>, c: nat)
    requires NeverCrosses(Initial(site, included, purchased), steps)
    requires var s := Run(Initial(site, included, purchased), steps);
             c < |s.campaigns| && s.campaigns[c].status != Scheduled && AllFinal(s, c)
    ensures var s := Run(Initial(site, included, purchased), steps);
            && c < |s.sms.accounts|
            && s.sms.accounts[c].reserved <= Sum(StuckOf(s, c), |s.messages|)
            && ((forall m: nat :: m < |s.messages| && s.messages[m].campaign == Some(c) ==> !Stuck(s, m)) ==>
                  s.sms.accounts[c].reserved == 0)
  {
    var s := Run(Initial(site, included, purchased), steps);
    RunIsTidy(site, included, purchased, steps);
    RunKeepsAttended(Initial(site, included, purchased), steps);
    ReservationsDoNotLeak(site, included, purchased, steps, c);
    var a := s.sms.accounts[c].allowance;
    forall m: nat | m < |s.messages|
      ensures UnsettledOf(s, c, a)(m) <= StuckOf(s, c)(m)
    {
      if s.messages[m].campaign == Some(c) {
        UnsettledExactly(s, m);
      }
    }
    SumAtMost(UnsettledOf(s, c, a), StuckOf(s, c), |s.messages|);
    if forall m: nat :: m < |s.messages| && s.messages[m].campaign == Some(c) ==> !Stuck(s, m) {
      SumZero(StuckOf(s, c), |s.messages|);
    }
  }

  // ---- What is held then is held for good ----

  /** No message of the campaign can be worked on again. */
  ghost predicate Resting(s: State, c: nat) {
    forall m: nat :: m < |s.messages| && s.messages[m].campaign == Some(c) ==>
      Grounded(s, m) && AtRest(s, m)
  }

  /** The step is an operation on the campaign itself, or an unsubscribe link that reaches one of its messages. */
  predicate Touches(s: State, step: Step, c: nat) {
    match step
    case TestSend(d, _) => d == c
    case LaunchCampaign(d, _, _, _) => d == c
    case ExpandCampaign(d, _, _) => d == c
    case CancelCampaign(d) => d == c
    case UseUnsubscribeLink(k) =>
      k < |s.capabilities|
      && exists m :: 0 <= m < |s.messages| && s.messages[m].campaign == Some(c)
                     && UnsubscribeHits(s.messages[m], s.capabilities[k].contact, s.capabilities[k].channel)
    case _ => false
  }

  predicate NeverTouched(s: State, steps: seq<Step>, c: nat) {
    steps == [] ||
    (NeverTouched(s, steps[..|steps| - 1], c) && !Touches(Run(s, steps[..|steps| - 1]), steps[|steps| - 1], c))
  }

  lemma OthersLeaveAccount(l: Ledger, m: Message, c: nat)
    requires c < |l.accounts| && m.campaign != Some(c)
    ensures var released, consumed := ReleaseFor(l, m), ConsumeFor(l, m);
            && |released.accounts| == |consumed.accounts| == |l.accounts|
            && released.accounts[c] == consumed.accounts[c] == l.accounts[c]
  {
  }

  lemma {:induction false} LinkLeavesAccount(s: State, contact: nat, channel: Channel, n: nat, c: nat)
    requires c < |s.sms.accounts|
    requires forall m :: 0 <= m < |s.messages| && s.messages[m].campaign == Some(c) ==>
                           !UnsubscribeHits(s.messages[m], contact, channel)
    ensures var t := UnsubscribeUpTo(s, contact, channel, n);
            |t.sms.accounts| == |s.sms.accounts| && t.sms.accounts[c] == s.sms.accounts[c]
  {
    if n != 0 {
      LinkLeavesAccount(s, contact, channel, n - 1, c);
      UnsubscribeUpToShape(s, contact, channel, n - 1);
      var t := UnsubscribeUpTo(s, contact, channel, n - 1);
      if n - 1 < |t.messages| && t.messages[n - 1].campaign != Some(c) {
        OthersLeaveAccount(t.sms, t.messages[n - 1], c);
      }
    }
  }

  lemma NextLeavesAccount(s: State, step: Step, c: nat)
    requires Resting(s, c) && c < |s.sms.accounts| && !Touches(s, step, c)
    ensures var l := LedgerAfter(s, step); |s.sms.accounts| <= |l.accounts| && l.accounts[c] == s.sms.accounts[c]
  {
    match step
    case ClaimMessage(m) =>
      if m < |s.messages| && s.messages[m].campaign != Some(c) {
        OthersLeaveAccount(s.sms, s.messages[m], c);
      }
    case WorkerGoesOn(f) =>
      if Settles(s, f) {
        assert s.messages[s.flights[f].message].campaign == Some(c) ==> AtRest(s, s.flights[f].message);
        OthersLeaveAccount(s.sms, s.messages[s.flights[f].message], c);
      }
    case ExpandCampaign(d, audience, tokens) =>
      if d < |s.campaigns| {
        var segments := ExpandLedger(s, d, audience, tokens);
      }
    case UseUnsubscribeLink(k) =>
      UnsubscribeLedger(s, k);
      if k < |s.capabilities| {
        LinkLeavesAccount(s, s.capabilities[k].contact, s.capabilities[k].channel, |s.messages|, c);
      }
    case _ =>
  }

  lemma EffectLeavesAtRest(s: State, t: State, step: Step, m: nat)
    requires Grounded(s, m) && AtRest(s, m) && Effect(s, t, step)
    ensures Grounded(t, m) && AtRest(t, m)
  {
    EffectKeepsGrounded(s, t, step, m);
    EffectProgress(s, t, step);
  }

  /** Only a test or an expansion writes messages for a campaign. */
  lemma NewMessagesAreOf(s: State, step: Step, c: nat)
    requires !Touches(s, step, c)
    ensures var t := Next(s, step);
            forall m :: |s.messages| <= m < |t.messages| ==> t.messages[m].campaign != Some(c)
  {
    if step.ExpandCampaign? {
      if step.campaign < |s.campaigns| {
        ExpandAllAppends(s, step.campaign, AudienceIds(s.contacts, step.audience, |s.contacts|), step.tokens);
      }
    } else if !step.TestSend? && !step.QueueTransactional? {
      NoNewMessages(s, step);
    }
  }

  lemma NextLeavesResting(s: State, step: Step, c: nat)
    requires Resting(s, c) && !Touches(s, step, c)
    ensures Resting(Next(s, step), c)
  {
    var t := Next(s, step);
    StepEffect(s, step);
    EffectProgress(s, t, step);
    NewMessagesAreOf(s, step, c);
    forall m: nat | m < |t.messages| && t.messages[m].campaign == Some(c)
      ensures Grounded(t, m) && AtRest(t, m)
    {
      assert SameOrigin(s.messages[m], t.messages[m]);
      EffectLeavesAtRest(s, t, step, m);
    }
  }

  /**
    A campaign none of whose messages can be worked on again keeps its reservation as it is, through
    every run that leaves the campaign itself alone: nothing else ever gives those segments back.
    */
  lemma {:induction false} HeldForGood(s: State, steps: seq<Step>, c: nat)
    requires Resting(s, c) && c < |s.sms.accounts| && NeverTouched(s, steps, c)
    ensures var t := Run(s, steps);
            Resting(t, c) && c < |t.sms.accounts| && t.sms.accounts[c] == s.sms.accounts[c]
  {
    if steps != [] {
      var earlier, step := steps[..|steps| - 1], steps[|steps| - 1];
      HeldForGood(s, earlier, c);
      NextLeavesAccount(Run(s, earlier), step, c);
      NextLeavesResting(Run(s, earlier), step, c);
      LedgerAfterIsNext(Run(s, earlier), step);
    }
  }
}
