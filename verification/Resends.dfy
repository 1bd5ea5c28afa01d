/**
  Exactly when a message can be handed to the provider once more (communications/services.py:168-223),
  and a run in which a message that the provider has accepted is.
  */
module Resends {
  import opened Sums
  import opened Messages
  import opened Messaging
  import opened Delivery
  import opened MessagingOutcomes
  import opened LostSegments

  ghost predicate SomebodyIsSending(s: State, m: nat) {
    exists f :: 0 <= f < |s.flights| && s.flights[f].message == m && s.flights[f].stage.Calling?
  }

  /** The contact, if there is one, is not suppressed; everything else about it can still change. */
  predicate CanBeReached(s: State, m: Message) {
    m.contact.None? || m.contact.value >= |s.contacts|
    || ConsentFor(s.contacts[m.contact.value], m.channel) != ConsentSuppressed
  }

  /** Some continuation has a worker take off with the message. */
  ghost predicate CanTakeOff(s: State, m: nat) {
    exists steps :: Flights(Run(s, steps), m) > Flights(s, m)
  }

  // ---- What stays so for ever ----

  lemma {:induction false} AttemptsNeverFall(s: State, steps: seq<Step>, m: nat)
    requires m < |s.messages|
    ensures var t := Run(s, steps);
            m < |t.messages| && SameOrigin(s.messages[m], t.messages[m]) && s.messages[m].attempts <= t.messages[m].attempts
  {
    if steps != [] {
      AttemptsNeverFall(s, steps[..|steps| - 1], m);
      StepProgress(Run(s, steps[..|steps| - 1]), steps[|steps| - 1]);
    }
  }

  lemma {:induction false} UsedUpNeverTakesOff(s: State, steps: seq<Step>, m: nat)
    requires m < |s.messages| && s.messages[m].attempts >= MAX_ATTEMPTS
    ensures Flights(Run(s, steps), m) == Flights(s, m)
  {
    if steps != [] {
      UsedUpNeverTakesOff(s, steps[..|steps| - 1], m);
      AttemptsNeverFall(s, steps[..|steps| - 1], m);
      TakesOffOnlyBy(Run(s, steps[..|steps| - 1]), steps[|steps| - 1], m);
    }
  }

  predicate IsSuppressed(s: State, contact: nat, channel: Channel) {
    contact < |s.contacts| && ConsentFor(s.contacts[contact], channel) == ConsentSuppressed
  }

  lemma NextKeepsSuppressed(s: State, step: Step, contact: nat, channel: Channel)
    requires IsSuppressed(s, contact, channel)
    ensures IsSuppressed(Next(s, step), contact, channel)
  {
    if step.UseUnsubscribeLink? {
      LinkKeepsSuppressed(s, step.capability, contact, channel);
    }
  }

  lemma LinkKeepsSuppressed(s: State, k: nat, contact: nat, channel: Channel)
    requires IsSuppressed(s, contact, channel)
    ensures IsSuppressed(Unsubscribe(s, k), contact, channel)
  {
    if LinkWorks(s, k) {
      UnsubscribeContacts(s, k);
    }
  }

  lemma {:induction false} SuppressedNeverTakesOff(s: State, steps: seq<Step>, m: nat)
    requires m < |s.messages| && !CanBeReached(s, s.messages[m])
    ensures var t := Run(s, steps);
            Flights(t, m) == Flights(s, m) && IsSuppressed(t, s.messages[m].contact.value, s.messages[m].channel)
  {
    if steps != [] {
      var u := Run(s, steps[..|steps| - 1]);
      SuppressedNeverTakesOff(s, steps[..|steps| - 1], m);
      AttemptsNeverFall(s, steps[..|steps| - 1], m);
      NextKeepsSuppressed(u, steps[|steps| - 1], s.messages[m].contact.value, s.messages[m].channel);
      TakesOffOnlyBy(u, steps[|steps| - 1], m);
    }
  }

  // ---- How it can come to a claim ----

  lemma Continues(s: State, step: Step, m: nat)
    requires CanTakeOff(Next(s, step), m) && Flights(Next(s, step), m) == Flights(s, m)
    ensures CanTakeOff(s, m)
  {
    var t := Next(s, step);
    var steps :| Flights(Run(t, steps), m) > Flights(t, m);
    OneStep(s, step);
    RunOfConcat(s, [step], steps);
    assert Flights(Run(s, [step] + steps), m) > Flights(s, m);
  }

  lemma ReachableNowTakesOff(s: State, m: nat)
    requires m < |s.messages| && Deliverable(s.messages[m], s.now) && StillReachable(s, s.messages[m])
    ensures CanTakeOff(s, m)
  {
    OneStep(s, ClaimMessage(m));
    ClaimFlies(s, m, m);
    assert Flights(Run(s, [ClaimMessage(m)]), m) > Flights(s, m);
  }

  /** The contact comes back, gives an address and agrees. */
  lemma DeliverableTakesOff(s: State, m: nat)
    requires m < |s.messages| && Deliverable(s.messages[m], s.now) && CanBeReached(s, s.messages[m])
    ensures CanTakeOff(s, m)
  {
    var contact, channel := s.messages[m].contact, s.messages[m].channel;
    if contact.None? || contact.value >= |s.contacts| {
      ReachableNowTakesOff(s, m);
    } else {
      var edit, agree := EditContact(contact.value, false, true, true), SetConsent(contact.value, channel, Granted);
      var t := Next(s, edit);
      ReachableNowTakesOff(Next(t, agree), m);
      Continues(t, agree, m);
      Continues(s, edit, m);
    }
  }

  /** A message that is waiting, or left behind by its worker. */
  lemma OpenTakesOff(s: State, m: nat)
    requires m < |s.messages| && !Terminal(s.messages[m].status) && s.messages[m].attempts < MAX_ATTEMPTS
    requires CanBeReached(s, s.messages[m])
    ensures CanTakeOff(s, m)
  {
    var wait := Tick(s.messages[m].availableAt + s.messages[m].updatedAt + STALE_SECONDS);
    var t := Next(s, wait);
    if s.messages[m].status == Processing {
      DeliverableTakesOff(Next(t, Reclaim), m);
      Continues(t, Reclaim, m);
    } else {
      DeliverableTakesOff(t, m);
    }
    Continues(s, wait, m);
  }

  /** The worker that is calling the provider gets an error, and writes FAILED over whatever is there. */
  lemma SendingTakesOff(s: State, f: nat)
    requires InAir(s, f) && s.messages[s.flights[f].message].attempts < MAX_ATTEMPTS
    requires CanBeReached(s, s.messages[s.flights[f].message])
    ensures CanTakeOff(s, s.flights[f].message)
  {
    var m := s.flights[f].message;
    RecordShape(s, f, 0);
    StepProgress(s, ProviderRaises(f));
    FlightsKept(s, Next(s, ProviderRaises(f)), m);
    OpenTakesOff(Next(s, ProviderRaises(f)), m);
    Continues(s, ProviderRaises(f), m);
  }

  /**
    A message, accepted or not, can be handed to the provider once more if and only if it has attempts
    left, its contact is not suppressed, and it is either not terminal or still being sent by a worker,
    whose failure would write over its status.
    */
  lemma TakesOffAgainExactly(s: State, m: nat)
    requires m < |s.messages|
    ensures CanTakeOff(s, m) <==>
            && s.messages[m].attempts < MAX_ATTEMPTS
            && CanBeReached(s, s.messages[m])
            && (!Terminal(s.messages[m].status) || SomebodyIsSending(s, m))
  {
    if CanTakeOff(s, m) {
      var steps :| Flights(Run(s, steps), m) > Flights(s, m);
      if s.messages[m].attempts >= MAX_ATTEMPTS {
        UsedUpNeverTakesOff(s, steps, m);
      }
      if !CanBeReached(s, s.messages[m]) {
        SuppressedNeverTakesOff(s, steps, m);
      }
      if Terminal(s.messages[m].status) && !SomebodyIsSending(s, m) {
        GroundedNeverTakesOff(s, steps, m);
      }
    } else if s.messages[m].attempts < MAX_ATTEMPTS && CanBeReached(s, s.messages[m]) {
      if !Terminal(s.messages[m].status) {
        OpenTakesOff(s, m);
      } else if SomebodyIsSending(s, m) {
        var f :| 0 <= f < |s.flights| && s.flights[f].message == m && s.flights[f].stage.Calling?;
        SendingTakesOff(s, f);
      }
    }
  }

  /** At the moment of an acceptance: only another worker still calling the provider can bring the message back. */
  lemma AcceptanceIsLastExactly(s: State, f: nat, providerId: nat)
    requires InAir(s, f)
    ensures var t, m := RecordSent(s, f, providerId), s.flights[f].message;
            AcceptedByProvider(t, m)
            && (CanTakeOff(t, m) <==>
                && s.messages[m].attempts < MAX_ATTEMPTS && CanBeReached(s, s.messages[m])
                && exists g :: 0 <= g < |s.flights| && g != f && s.flights[g].message == m && s.flights[g].stage.Calling?)
  {
    var t, m := RecordSent(s, f, providerId), s.flights[f].message;
    RecordShape(s, f, providerId);
    TakesOffAgainExactly(t, m);
    if g :| 0 <= g < |s.flights| && g != f && s.flights[g].message == m && s.flights[g].stage.Calling? {
      assert t.flights[g] == s.flights[g];
    }
  }

  // ---- A run that sends an accepted message again ----

  /** The first worker has been silent for a quarter of an hour, and a second one takes the message. */
  const BOTH_CALLING: seq<Step> := RECLAIMED + [ClaimMessage(0)]
  const ACCEPTED: seq<Step> := BOTH_CALLING + [ProviderAccepts(1, 7)]
  const OVERWRITTEN: seq<Step> := ACCEPTED + [ProviderRaises(0)] + [WorkerGoesOn(0)]
  const SENT_AGAIN: seq<Step> := OVERWRITTEN + [Tick(3600)] + [ClaimMessage(0)]

  const SECOND_ROW: Message := Tried(STALE_SECONDS, ROW.(attempts := 1))
  const SENT_TWICE_ROW: Message := SentAs(STALE_SECONDS, SECOND_ROW)
  const FAILED_ROW: Message := FailedRow(STALE_SECONDS, SENT_TWICE_ROW, 1)
  const SECOND: Flight := Flight(0, 2, Recorded, true, false)

  lemma BothCall()
    ensures Run(START, BOTH_CALLING) == With(STALE_SECONDS, SECOND_ROW, [Out(1), Out(2)])
  {
    TakenBack();
    TakeOff(STALE_SECONDS, ROW.(attempts := 1), [Out(1)]);
    assert [Out(1)] + [Out(2)] == [Out(1), Out(2)];
    Then(START, RECLAIMED, ClaimMessage(0), With(STALE_SECONDS, ROW.(attempts := 1), [Out(1)]),
         With(STALE_SECONDS, SECOND_ROW, [Out(1), Out(2)]));
  }

  lemma SecondIsAccepted()
    ensures Run(START, ACCEPTED) == With(STALE_SECONDS, SENT_TWICE_ROW, [Out(1), SECOND])
  {
    BothCall();
    Accept(STALE_SECONDS, SECOND_ROW, [Out(1), Out(2)], 1, 2);
    Then(START, BOTH_CALLING, ProviderAccepts(1, 7), With(STALE_SECONDS, SECOND_ROW, [Out(1), Out(2)]),
         With(STALE_SECONDS, SENT_TWICE_ROW, [Out(1), SECOND]));
  }

  lemma FirstFails()
    ensures Run(START, OVERWRITTEN) == With(STALE_SECONDS, FAILED_ROW, [Down(Out(1)), SECOND])
  {
    SecondIsAccepted();
    var s := With(STALE_SECONDS, SENT_TWICE_ROW, [Out(1), SECOND]);
    GiveUp(STALE_SECONDS, SENT_TWICE_ROW, [Out(1), SECOND], 0, 1);
    Then(START, ACCEPTED, ProviderRaises(0), s, Next(s, ProviderRaises(0)));
    Then(START, ACCEPTED + [ProviderRaises(0)], WorkerGoesOn(0), Next(s, ProviderRaises(0)),
         With(STALE_SECONDS, FAILED_ROW, [Down(Out(1)), SECOND]));
  }

  /**
    The second worker's message is accepted, the first one's call fails and writes FAILED over SENT, and
    an hour later a third worker is calling the provider with the accepted message.
    */
  lemma AcceptedIsSentAgain()
    ensures var accepted, s := Run(START, ACCEPTED), Run(START, SENT_AGAIN);
            && AcceptedByProvider(accepted, 0) && accepted.messages[0].status == Sent
            && AcceptedByProvider(s, 0) && s.messages[0].status == Processing
            && Flights(s, 0) == Flights(accepted, 0) + 1 && SomebodyIsSending(s, 0)
  {
    SecondIsAccepted();
    FirstFails();
    var later := STALE_SECONDS + 3600;
    var waiting := With(later, FAILED_ROW, [Down(Out(1)), SECOND]);
    BackoffWithinAnHour(1);
    Then(START, OVERWRITTEN, Tick(3600), With(STALE_SECONDS, FAILED_ROW, [Down(Out(1)), SECOND]), waiting);
    TakeOff(later, FAILED_ROW, [Down(Out(1)), SECOND]);
    Then(START, OVERWRITTEN + [Tick(3600)], ClaimMessage(0), waiting,
         With(later, Tried(later, FAILED_ROW), [Down(Out(1)), SECOND] + [Out(3)]));
    ThirdFlight([Out(1), SECOND], [Down(Out(1)), SECOND] + [Out(3)]);
  }

  lemma ThirdFlight(two: seq<Flight>, three: seq<Flight>)
    requires |two| == 2 && |three| == 3 && three[2] == Out(3)
    requires forall f :: 0 <= f < 2 ==> two[f].message == three[f].message == 0
    ensures Sum(FlightOf(two, 0), 2) == 2 && Sum(FlightOf(three, 0), 3) == 3
    ensures exists f :: 0 <= f < |three| && three[f].message == 0 && three[f].stage.Calling?
  {
  }
}
