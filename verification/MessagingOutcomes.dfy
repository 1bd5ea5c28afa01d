/** What consent, cancelling and unsubscribing come to in the running system. */
module MessagingOutcomes {
  import opened Wrappers
  import opened Sums
  import opened Messages
  import opened SmsLedger
  import opened Messaging
  import opened Delivery
  import opened Settling

  // ---- Consent is rechecked when a worker claims ----

  predicate HasAddress(c: Messages.Contact, channel: Channel) {
    if channel == Email then c.hasEmail else c.hasPhone
  }

  /** Marketing goes to exactly the contacts who are there, can be addressed, and said yes. */
  lemma EligibleExactly(c: Messages.Contact, channel: Channel)
    ensures ContactEligibility(c, channel).None? <==>
            !c.archived && HasAddress(c, channel) && ConsentFor(c, channel) == Granted
    ensures ContactEligibility(c, channel).Some? && SuppressionReason(ContactEligibility(c, channel).value) <==>
            !c.archived && HasAddress(c, channel) && ConsentFor(c, channel) == ConsentSuppressed
  {
  }

  /** A worker only ever takes off with a message whose contact may get it at that very moment. */
  lemma ClaimsRespectConsent(s: State, m: nat)
    requires |Claim(s, m).flights| > |s.flights|
    requires s.messages[m].contact.Some? && s.messages[m].contact.value < |s.contacts|
    ensures var contact, channel := s.contacts[s.messages[m].contact.value], s.messages[m].channel;
            && !contact.archived
            && ConsentFor(contact, channel) != ConsentSuppressed
            && (s.messages[m].marketing ==> HasAddress(contact, channel) && ConsentFor(contact, channel) == Granted)
  {
    EligibleExactly(s.contacts[s.messages[m].contact.value], s.messages[m].channel);
  }

  // ---- Cancelling ----

  /** A cancelled campaign keeps no reservation, none of its messages is waiting, and no other message is touched. */
  lemma CancelledCampaignIsQuiet(s: State, c: nat, later: nat)
    requires Tidy(s) && c < |s.campaigns| && Cancel(s, c).Ok?
    ensures var t := Cancel(s, c).value;
            && t.campaigns[c].status == CampaignCanceled
            && t.sms.accounts[c].reserved == 0
            && |t.messages| == |s.messages|
            && (forall m :: 0 <= m < |s.messages| && s.messages[m].campaign == Some(c) ==> !Deliverable(t.messages[m], later))
            && (forall m :: 0 <= m < |s.messages| && s.messages[m].campaign != Some(c) ==> t.messages[m] == s.messages[m])
            && (forall m :: 0 <= m < |s.messages| && !PendingStatus(s.messages[m].status) ==> t.messages[m] == s.messages[m])
  {
    ReleaseIsExact(s.sms, c, s.sms.accounts[c].reserved);
  }

  /**
    After cancelling, whatever happens: of the campaign's messages only those that were being processed,
    or that a worker was calling the provider with, can be sent again.
    */
  lemma CancelledMessagesStayDown(s: State, c: nat, steps: seq<Step>, m: nat)
    requires c < |s.campaigns| && Cancel(s, c).Ok?
    requires m < |s.messages| && s.messages[m].campaign == Some(c)
    requires s.messages[m].status != Processing && NobodyIsSending(s, m)
    ensures Flights(Run(Cancel(s, c).value, steps), m) == Flights(s, m)
  {
    var t := Cancel(s, c).value;
    QuietlySuppressed(s, c, m);
    GroundedNeverTakesOff(t, steps, m);
    FlightsKept(s, t, m);
  }

  lemma QuietlySuppressed(s: State, c: nat, m: nat)
    requires c < |s.campaigns| && Cancel(s, c).Ok?
    requires m < |s.messages| && s.messages[m].campaign == Some(c)
    requires s.messages[m].status != Processing && NobodyIsSending(s, m)
    ensures Grounded(Cancel(s, c).value, m) && Cancel(s, c).value.flights == s.flights
  {
  }

  // ---- Unsubscribing ----

  lemma UnsubscribeContacts(s: State, k: nat)
    requires LinkWorks(s, k)
    ensures var contact, channel := s.capabilities[k].contact, s.capabilities[k].channel;
            Unsubscribe(s, k).contacts == s.contacts[contact :=
              WithConsent(s.contacts[contact], channel, RecordConsent(ConsentFor(s.contacts[contact], channel), Withdrawn))]
  {
    var contact, channel := s.capabilities[k].contact, s.capabilities[k].channel;
    var t := LinkUsed(s, k);
    UnsubscribeUpToShape(t, contact, channel, |t.messages|);
    RefreshUpToShape(UnsubscribeUpTo(t, contact, channel, |t.messages|),
                     AffectedCampaigns(t, contact, channel), |t.campaigns|);
  }

  /** The contact has not consented to the channel. */
  ghost predicate Refuses(s: State, contact: nat, channel: Channel) {
    contact < |s.contacts| && ConsentFor(s.contacts[contact], channel) != Granted
  }

  predicate Regrants(step: Step, contact: nat, channel: Channel) {
    step == SetConsent(contact, channel, Granted)
  }

  lemma LinkKeepsRefusal(s: State, k: nat, contact: nat, channel: Channel)
    requires Refuses(s, contact, channel)
    ensures Refuses(Unsubscribe(s, k), contact, channel)
  {
    if LinkWorks(s, k) {
      UnsubscribeContacts(s, k);
    }
  }

  lemma NextKeepsRefusal(s: State, step: Step, contact: nat, channel: Channel)
    requires Refuses(s, contact, channel) && !Regrants(step, contact, channel)
    ensures Refuses(Next(s, step), contact, channel)
  {
    if step.UseUnsubscribeLink? {
      LinkKeepsRefusal(s, step.capability, contact, channel);
    }
  }

  predicate MarketingTo(m: Message, contact: nat, channel: Channel) {
    m.marketing && m.contact == Some(contact) && m.channel == channel
  }

  lemma RefusedNeverTakesOff(s: State, step: Step, contact: nat, channel: Channel, m: nat)
    requires Refuses(s, contact, channel) && m < |s.messages| && MarketingTo(s.messages[m], contact, channel)
    ensures Flights(Next(s, step), m) == Flights(s, m)
  {
    EligibleExactly(s.contacts[contact], channel);
    TakesOffOnlyBy(s, step, m);
  }

  /** While a contact refuses, no marketing message to it takes off, whether written before or later. */
  lemma {:induction false} RefusalHolds(s: State, steps: seq<Step>, contact: nat, channel: Channel)
    requires Refuses(s, contact, channel) && AttemptsBound(s)
    requires forall k :: 0 <= k < |steps| ==> !Regrants(steps[k], contact, channel)
    ensures var t := Run(s, steps);
            && Refuses(t, contact, channel) && AttemptsBound(t) && |s.messages| <= |t.messages|
            && forall m: nat :: m < |t.messages| && MarketingTo(t.messages[m], contact, channel) ==>
                 Flights(t, m) == if m < |s.messages| then Flights(s, m) else 0
  {
    if steps != [] {
      var earlier, step := steps[..|steps| - 1], steps[|steps| - 1];
      RefusalHolds(s, earlier, contact, channel);
      var u := Run(s, earlier);
      NextKeepsRefusal(u, step, contact, channel);
      NextKeepsAttemptsBound(u, step);
      StepProgress(u, step);
      var t := Next(u, step);
      forall m: nat | m < |t.messages| && MarketingTo(t.messages[m], contact, channel)
        ensures Flights(t, m) == if m < |s.messages| then Flights(s, m) else 0
      {
        if m < |u.messages| {
          assert SameOrigin(u.messages[m], t.messages[m]);
          RefusedNeverTakesOff(u, step, contact, channel, m);
        } else {
          assert t.messages[m].attempts == 0;
          FlightsNonNegative(t, m);
        }
      }
    }
  }

  lemma FlightsNonNegative(s: State, m: nat)
    ensures 0 <= Flights(s, m)
  {
    SumNonNegative(FlightOf(s.flights, m), |s.flights|);
  }

  /** Using the link withdraws the consent and takes every waiting marketing message to the contact out of the queue. */
  lemma LinkWithdraws(s: State, k: nat, m: nat)
    requires LinkWorks(s, k)
    requires m < |s.messages| && MarketingTo(s.messages[m], s.capabilities[k].contact, s.capabilities[k].channel)
    ensures var t := Unsubscribe(s, k);
            && |t.contacts| == |s.contacts| && |t.messages| == |s.messages|
            && ConsentFor(t.contacts[s.capabilities[k].contact], s.capabilities[k].channel) in {Withdrawn, ConsentSuppressed}
            && !PendingStatus(t.messages[m].status)
  {
    UnsubscribeShape(s, k);
    UnsubscribeContacts(s, k);
  }

  /**
    After the link is used no marketing message to the contact on that channel takes off in any run,
    written before or later, until the contact is asked again and agrees.
    */
  lemma UnsubscribedGetsNothing(site: Site, included: nat, purchased: nat, before: seq<Step>, k: nat, after: seq<Step>, m: nat)
    requires var s := Run(Initial(site, included, purchased), before);
             LinkWorks(s, k)
             && (forall i :: 0 <= i < |after| ==>
                   !Regrants(after[i], s.capabilities[k].contact, s.capabilities[k].channel))
             && (var t := Run(Unsubscribe(s, k), after);
                 m < |t.messages| && MarketingTo(t.messages[m], s.capabilities[k].contact, s.capabilities[k].channel))
    ensures var s := Run(Initial(site, included, purchased), before);
            Flights(Run(Unsubscribe(s, k), after), m) == if m < |s.messages| then Flights(s, m) else 0
  {
    var s := Run(Initial(site, included, purchased), before);
    var contact, channel := s.capabilities[k].contact, s.capabilities[k].channel;
    ProviderCallsAreBounded(site, included, purchased, before);
    NextKeepsAttemptsBound(s, UseUnsubscribeLink(k));
    UnsubscribeShape(s, k);
    UnsubscribeContacts(s, k);
    RefusalHolds(Unsubscribe(s, k), after, contact, channel);
  }
}
