/** The in-place operations of communications/campaigns.py, services.py and callbacks.py, each proved against its step in `Messaging`. */
module MessagingDesk {
  import opened Wrappers
  import opened Segments
  import opened Messages
  import opened Callbacks
  import opened SmsLedger
  import opened Messaging
  import opened Expansion

  class Desk {
    const site: Site
    var now: nat
    var period: nat
    var contacts: seq<Messages.Contact>
    var campaigns: seq<Campaign>
    var recipients: seq<Recipient>
    var messages: seq<Message>
    var capabilities: seq<Capability>
    var allowances: seq<Allowance>
    var accounts: seq<Account>
    var usage: seq<UsageEvent>
    var flights: seq<Flight>
    var handled: set<nat>

    constructor (site: Site, included: nat, purchased: nat)
      ensures this.site == site && Snapshot() == Initial(site, included, purchased)
    {
      this.site := site;
      now, period := 0, 0;
      contacts, campaigns, recipients, messages, capabilities := [], [], [], [], [];
      allowances, accounts, usage := [Allowance(included, purchased, 0, 0)], [], [];
      flights, handled := [], {};
    }

    function Books(): Ledger
      reads this
    {
      Ledger(allowances, accounts, usage)
    }

    function Snapshot(): State
      reads this
    {
      State(site, now, period, contacts, campaigns, recipients, messages, capabilities, Books(), flights, handled)
    }

    // ---- The SMS ledger ----

    /** `_release_sms_locked` */
    method ReleaseSms(c: nat, segments: nat)
      requires c < |accounts|
      modifies this`allowances, this`accounts, this`usage
      ensures Books() == Release(old(Books()), c, segments)
    {
      if segments == 0 || accounts[c].allowance.None? || accounts[c].allowance.value >= |allowances| {
        return;
      }
      var a := accounts[c].allowance.value;
      var released := Least(segments, allowances[a].reserved, accounts[c].reserved);
      if released == 0 {
        return;
      }
      allowances := allowances[a := allowances[a].(reserved := allowances[a].reserved - released)];
      accounts := accounts[c := accounts[c].(reserved := accounts[c].reserved - released)];
      usage := usage + [UsageEvent(c, a, Released, released)];
    }

    method ReleaseSmsForMessage(m: Message)
      requires m.campaign.Some? ==> m.campaign.value < |accounts|
      modifies this`allowances, this`accounts, this`usage
      ensures Books() == ReleaseFor(old(Books()), m) && |accounts| == |old(accounts)|
    {
      if m.channel == Sms && m.segments > 0 && m.campaign.Some? {
        ReleaseSms(m.campaign.value, m.segments);
      }
    }

    method ConsumeSmsForMessage(m: Message)
      requires m.campaign.Some? ==> m.campaign.value < |accounts|
      modifies this`allowances, this`accounts, this`usage
      ensures Books() == ConsumeFor(old(Books()), m) && |accounts| == |old(accounts)|
    {
      if m.channel != Sms || m.segments == 0 || m.campaign.None? || m.allowance.None?
         || m.allowance.value >= |allowances| {
        return;
      }
      var c, a := m.campaign.value, m.allowance.value;
      var segments := Least(m.segments, allowances[a].reserved, accounts[c].reserved);
      allowances := allowances[a := allowances[a].(
        reserved := allowances[a].reserved - segments, sent := allowances[a].sent + segments)];
      accounts := accounts[c := accounts[c].(reserved := accounts[c].reserved - segments)];
      usage := usage + [UsageEvent(c, a, Accepted, segments)];
    }

    method ReserveSms(c: nat, segments: nat, replace: bool)
      requires c < |accounts| && period < |allowances|
      modifies this`allowances, this`accounts, this`usage
      ensures Books() == if replace then ReserveForLaunch(old(Books()), c, period, segments)
                         else ReserveForTest(old(Books()), c, period, segments)
    {
      allowances := allowances[period := allowances[period].(reserved := allowances[period].reserved + segments)];
      accounts := accounts[c := Account(if replace then segments else accounts[c].reserved + segments, Some(period))];
      usage := usage + [UsageEvent(c, period, Reserved, segments)];
    }

    // ---- Campaigns ----

    method RefreshCampaignStatus(c: nat)
      requires c < |campaigns|
      modifies this`campaigns
      ensures Snapshot() == Refresh(old(Snapshot()), c)
    {
      if campaigns[c].status !in {Sending, Expanding} {
        return;
      }
      if !AwaitsDelivery(recipients, c) {
        campaigns := campaigns[c := campaigns[c].(status := CampaignSent)];
      }
    }

    method LaunchCampaign(c: nat, audience: set<nat>, valid: bool, confirmed: bool) returns (refusal: Option<Refusal>)
      requires c < |campaigns| == |accounts| && period < |allowances|
      modifies this`campaigns, this`allowances, this`accounts, this`usage
      ensures match Launch(old(Snapshot()), c, audience, valid, confirmed)
              case Ok(after) => Snapshot() == after && refusal.None?
              case Err(e) => Snapshot() == old(Snapshot()) && refusal == Some(e)
    {
      var campaign := campaigns[c];
      if campaign.status != Draft {
        return Some(NotADraft);
      }
      if !valid {
        return Some(InvalidCampaign);
      }
      var preview, reasons := PreviewCampaign(Snapshot(), c, audience);
      if preview.eligible == 0 {
        return Some(NoEligibleRecipients);
      }
      if !Configured(site, campaign.channel) {
        return Some(ChannelNotConfigured);
      }
      if SenderProblem(site, campaign.channel) {
        return Some(NoPostalAddress);
      }
      if campaign.channel == Sms {
        if !confirmed {
          return Some(UsageNotConfirmed);
        }
        if preview.segments > Remaining(allowances[period]) {
          return Some(SmsLimitExceeded);
        }
        ReserveSms(c, preview.segments, true);
      }
      campaign := campaign.(
        recipientCount := preview.candidates, eligibleCount := preview.eligible,
        excludedCount := preview.excluded, estimatedSegments := preview.segments);
      campaign := campaign.(status := Scheduled);
      if campaign.scheduledFor.None? {
        campaign := campaign.(scheduledFor := Some(now));
      }
      campaigns := campaigns[c := campaign];
      refusal := None;
    }

    /** One contact of the audience during expansion. */
    method ExpandContact(c: nat, contact: nat, token: Token, tally: Tally) returns (counted: Tally)
      requires c < |campaigns| == |accounts| && contact < |contacts|
      modifies this`recipients, this`messages, this`capabilities
      ensures (Snapshot(), counted) == ExpandOne(old(Snapshot()), c, contact, token, tally)
    {
      var found := FindRecipient(recipients, c, contact);
      if found.Some? && HasMessage(messages, found.value) {
        return Counted(tally, recipients[found.value].status, recipients[found.value].segments);
      }
      var r := |recipients|;
      var row := Recipient(c, contact, RecipientExcluded, 0, NO_STAMPS, None);
      if found.Some? {
        r := found.value;
        row := recipients[r];
      }
      var reason := ContactEligibility(contacts[contact], campaigns[c].channel);
      if reason.Some? {
        var status := if SuppressionReason(reason.value) then RecipientSuppressed else RecipientExcluded;
        recipients := UpsertRecipient(recipients, r, row.(status := status));
        return Counted(tally, status, 0);
      }
      var segments := 0;
      if campaigns[c].channel == Sms {
        segments := CountSegments(SmsBody(campaigns[c].body, UnsubscribeUrl(site.hostname, token)));
      }
      recipients := UpsertRecipient(recipients, r, row.(status := RecipientQueued, segments := segments));
      capabilities := capabilities + [Capability(contact, campaigns[c].channel, false)];
      messages := messages + [
        Message(campaigns[c].channel, Some(contact), Some(c), Some(r), true, Queued, 0, now, now, None,
                segments, accounts[c].allowance, NO_STAMPS)];
      counted := Counted(tally, RecipientQueued, segments);
    }

    method ExpandAudience(c: nat, ids: seq<nat>, tokens: seq<Token>) returns (tally: Tally)
      requires c < |campaigns| == |accounts|
      requires forall k :: 0 <= k < |ids| ==> ids[k] < |contacts|
      modifies this`recipients, this`messages, this`capabilities
      ensures (Snapshot(), tally) == ExpandAll(old(Snapshot()), c, ids, tokens)
    {
      tally := Tally(0, 0, 0);
      for k := 0 to |ids|
        invariant (Snapshot(), tally) == ExpandAll(old(Snapshot()), c, ids[..k], tokens)
      {
        assert ids[..k + 1][..k] == ids[..k];
        tally := ExpandContact(c, ids[k], TokenFor(tokens, k), tally);
      }
      assert ids[..|ids|] == ids;
    }

    method ExpandCampaign(c: nat, audience: set<nat>, tokens: seq<Token>)
      requires c < |campaigns| == |accounts|
      modifies this`recipients, this`messages, this`capabilities, this`campaigns,
               this`allowances, this`accounts, this`usage
      ensures Snapshot() == Expand(old(Snapshot()), c, audience, tokens)
    {
      var campaign := campaigns[c];
      if campaign.status != Scheduled {
        return;
      }
      if campaign.scheduledFor.Some? && campaign.scheduledFor.value > now {
        return;
      }
      if SenderProblem(site, campaign.channel) {
        campaigns := campaigns[c := campaign.(status := CampaignFailed)];
        return;
      }
      var ids := AudienceIds(contacts, audience, |contacts|);
      AudienceIsOrdered(contacts, audience, |contacts|);
      assert forall k :: 0 <= k < |ids| ==> ids[k] in ids;
      var tally := ExpandAudience(c, ids, tokens);
      FinishExpansion(c, tally);
    }

    method FinishExpansion(c: nat, tally: Tally)
      requires c < |campaigns| == |accounts|
      modifies this`campaigns, this`allowances, this`accounts, this`usage
      ensures Snapshot() == ExpansionDone(old(Snapshot()), c, tally)
    {
      var campaign := campaigns[c];
      if campaign.channel == Sms && tally.segments < accounts[c].reserved {
        ReleaseSms(c, accounts[c].reserved - tally.segments);
      }
      campaign := campaign.(recipientCount := tally.total, eligibleCount := tally.queued);
      campaign := campaign.(excludedCount := Max(0, tally.total - tally.queued), estimatedSegments := tally.segments);
      campaigns := campaigns[c := campaign.(status := if tally.queued > 0 then Sending else CampaignSent)];
    }

    method CancelCampaign(c: nat) returns (refusal: Option<Refusal>)
      requires c < |campaigns| == |accounts|
      modifies this`campaigns, this`messages, this`recipients, this`allowances, this`accounts, this`usage
      ensures match Cancel(old(Snapshot()), c)
              case Ok(after) => Snapshot() == after && refusal.None?
              case Err(e) => Snapshot() == old(Snapshot()) && refusal == Some(e)
    {
      if !Cancelable(campaigns[c].status) {
        return Some(NotCancelable);
      }
      if campaigns[c].channel == Sms && accounts[c].reserved > 0 {
        ReleaseSms(c, accounts[c].reserved);
      }
      messages := SuppressPending(messages, c, now);
      recipients := SuppressRecipients(recipients, messages, c);
      campaigns := campaigns[c := campaigns[c].(status := CampaignCanceled)];
      refusal := None;
    }

    method QueueCampaignTest(c: nat, confirmed: bool) returns (refusal: Option<Refusal>)
      requires c < |campaigns| == |accounts| && period < |allowances|
      modifies this`messages, this`allowances, this`accounts, this`usage
      ensures match QueueTest(old(Snapshot()), c, confirmed)
              case Ok(after) => Snapshot() == after && refusal.None?
              case Err(e) => Snapshot() == old(Snapshot()) && refusal == Some(e)
    {
      var campaign := campaigns[c];
      if !Configured(site, campaign.channel) {
        return Some(ChannelNotConfigured);
      }
      var segments := 0;
      var allowance: Option<nat> := None;
      if campaign.channel == Sms {
        if !confirmed {
          return Some(UsageNotConfirmed);
        }
        segments := CountSegments(ChargedTest(campaign.body));
        if Remaining(allowances[period]) < segments {
          return Some(SmsLimitExceeded);
        }
        ReserveSms(c, segments, false);
        allowance := Some(period);
      }
      messages := messages + [
        Message(campaign.channel, None, Some(c), None, false, Queued, 0, now, now, None, segments, allowance, NO_STAMPS)];
      refusal := None;
    }

    // ---- Delivery ----

    ghost predicate Owned(m: Message)
      reads this
    {
      |campaigns| == |accounts| && (m.campaign.Some? ==> m.campaign.value < |campaigns|)
    }

    method FinishCampaign(m: Message)
      requires Owned(m)
      modifies this`campaigns
      ensures Snapshot() == RefreshFor(old(Snapshot()), m)
    {
      if m.campaign.Some? {
        RefreshCampaignStatus(m.campaign.value);
      }
    }

    method SuppressMessage(m: nat)
      requires m < |messages| && Owned(messages[m])
      modifies this
      ensures Snapshot() == Suppress(old(Snapshot()), m)
    {
      var message := messages[m];
      messages := messages[m := message.(status := Suppressed, updatedAt := now)];
      recipients := UpdateRecipient(recipients, message.recipient, RecipientSuppressed, now);
      ReleaseSmsForMessage(message);
      FinishCampaign(message);
    }

    /** The first half of `deliver_message`, under the row lock; `claimed` says the provider is called next. */
    method ClaimMessage(m: nat) returns (claimed: bool)
      requires m < |messages| && Owned(messages[m])
      modifies this
      ensures Snapshot() == Claim(old(Snapshot()), m)
      ensures claimed <==> |flights| > |old(flights)|
    {
      claimed := false;
      var message := messages[m];
      if Terminal(message.status) || message.status == Processing {
        return;
      }
      if message.attempts >= MAX_ATTEMPTS || message.availableAt > now {
        return;
      }
      if !StillReachable(Snapshot(), message) {
        SuppressMessage(m);
        return;
      }
      message := message.(status := Processing);
      message := message.(attempts := message.attempts + 1, updatedAt := now);
      messages := messages[m := message];
      flights := flights + [Flight(m, message.attempts, Calling, false, false)];
      claimed := true;
    }

    /** The message is saved with the provider's answer. */
    method SaveSent(f: nat, providerId: nat)
      requires InAir(Snapshot(), f)
      modifies this`messages, this`flights
      ensures Snapshot() == RecordSent(old(Snapshot()), f, providerId)
    {
      var m := flights[f].message;
      var message := messages[m];
      message := message.(status := Sent, stamps := message.stamps.(sentAt := Some(now)));
      message := message.(providerId := Some(providerId), updatedAt := now);
      messages := messages[m := message];
      flights := flights[f := flights[f].(stage := Recorded, accepted := true)];
    }

    method SaveFailure(f: nat)
      requires InAir(Snapshot(), f)
      modifies this`messages, this`flights
      ensures Snapshot() == RecordFailure(old(Snapshot()), f)
    {
      var m := flights[f].message;
      var message := messages[m].(status := Failed, updatedAt := now);
      message := message.(availableAt := now + Backoff(flights[f].attempts));
      messages := messages[m := message];
      flights := At(flights, f, Recorded);
    }

    /** `_recipient_update`, by whatever became of the worker's call. */
    method SaveRecipient(f: nat, status: RecipientStatus)
      requires f < |flights| && flights[f].message < |messages| && flights[f].stage.Recorded?
      requires status == if flights[f].accepted then RecipientSent
                         else if AtLimit(flights[f]) then RecipientFailed else RecipientQueued
      modifies this`recipients, this`flights
      ensures Snapshot() == GoOn(old(Snapshot()), f)
    {
      recipients := UpdateRecipient(recipients, messages[flights[f].message].recipient, status, now);
      flights := At(flights, f, if status == RecipientQueued then Landed else Told);
    }

    /** `_consume_sms` or `_release_sms`. */
    method SettleSms(f: nat)
      requires f < |flights| && flights[f].message < |messages| && flights[f].stage.Told?
      requires Owned(messages[flights[f].message])
      modifies this`allowances, this`accounts, this`usage, this`flights
      ensures Snapshot() == GoOn(old(Snapshot()), f) && |accounts| == |old(accounts)|
    {
      if flights[f].accepted {
        ConsumeSmsForMessage(messages[flights[f].message]);
      } else {
        ReleaseSmsForMessage(messages[flights[f].message]);
      }
      flights := flights[f := flights[f].(stage := Settled, settled := true)];
    }

    method ClearMessage(f: nat)
      requires f < |flights| && flights[f].message < |messages| && flights[f].stage.Settled? && !flights[f].accepted
      modifies this`messages, this`flights
      ensures Snapshot() == GoOn(old(Snapshot()), f)
    {
      var m := flights[f].message;
      messages := messages[m := messages[m].(updatedAt := now)];
      flights := At(flights, f, Cleared);
    }

    /** `_finish_campaign`, and the worker is done. */
    method FinishDelivery(f: nat)
      requires f < |flights| && flights[f].message < |messages| && Owned(messages[flights[f].message])
      requires flights[f].stage.Cleared? || (flights[f].stage.Settled? && flights[f].accepted)
      modifies this`campaigns, this`flights
      ensures Snapshot() == GoOn(old(Snapshot()), f)
    {
      flights := At(flights, f, Landed);
      FinishCampaign(messages[flights[f].message]);
    }

    /** The second half after the provider accepted the message, when nothing comes between its commits. */
    method AcceptMessage(f: nat, providerId: nat)
      requires InAir(Snapshot(), f) && Owned(messages[flights[f].message])
      modifies this
      ensures Snapshot() == GoOn(GoOn(GoOn(RecordSent(old(Snapshot()), f, providerId), f), f), f)
    {
      SaveSent(f, providerId);
      SaveRecipient(f, RecipientSent);
      SettleSms(f);
      FinishDelivery(f);
    }

    /** The second half after the provider call raised, when nothing comes between its commits. */
    method FailMessage(f: nat)
      requires InAir(Snapshot(), f) && Owned(messages[flights[f].message]) && !flights[f].accepted
      modifies this
      ensures var recorded := GoOn(RecordFailure(old(Snapshot()), f), f);
              Snapshot() == if AtLimit(old(flights[f])) then GoOn(GoOn(GoOn(recorded, f), f), f) else recorded
    {
      SaveFailure(f);
      if AtLimit(flights[f]) {
        SaveRecipient(f, RecipientFailed);
        SettleSms(f);
        ClearMessage(f);
        FinishDelivery(f);
      } else {
        SaveRecipient(f, RecipientQueued);
      }
    }

    /** Puts every message that has been processing for a quarter of an hour back in the queue. */
    method ReclaimStaleMessages()
      modifies this`messages
      ensures Snapshot() == ReclaimStale(old(Snapshot()))
    {
      for m := 0 to |messages|
        invariant |messages| == |old(messages)|
        invariant forall k :: 0 <= k < |messages| ==>
                    messages[k] == if k < m then ReclaimStale(old(Snapshot())).messages[k] else old(messages)[k]
      {
        if Stale(messages[m], now) {
          messages := messages[m := messages[m].(status := Queued)];
        }
      }
    }

    // ---- Callbacks and unsubscribe links ----

    method RecordOnMessage(m: nat, e: EventType, at: nat)
      requires m < |messages| && e != UnknownEvent
      modifies this`messages
      ensures messages == old(messages)[m := OnMessage(old(messages)[m], e, at, now)]
    {
      var message := messages[m];
      if Rank(EventStatus(e).value) >= Rank(message.status) {
        message := message.(status := EventStatus(e).value);
      }
      if e == FailedEvent {
        message := message.(attempts := Max(message.attempts, 5));
      }
      message := message.(stamps := Stamp(message.stamps, e, at));
      messages := messages[m := message.(updatedAt := now)];
    }

    method RecordOnRecipient(message: Message, e: EventType, at: nat)
      requires e != UnknownEvent
      modifies this`recipients
      ensures recipients == RecipientsOnCallback(old(recipients), message, e, at)
    {
      if message.recipient.None? || message.recipient.value >= |recipients| {
        return;
      }
      var recipient := recipients[message.recipient.value];
      if Advances(message, e) {
        recipient := recipient.(status := EventRecipientStatus(e));
      }
      recipient := recipient.(lastEventAt := Some(at));
      recipients := recipients[message.recipient.value := recipient.(stamps := Stamp(recipient.stamps, e, at))];
    }

    method RecordOnConsent(message: Message, e: EventType)
      modifies this`contacts
      ensures contacts == ContactsOnCallback(old(contacts), message, e)
    {
      if message.contact.None? || message.contact.value >= |contacts| {
        return;
      }
      var contact, channel := contacts[message.contact.value], message.channel;
      if e in {BouncedEvent, ComplainedEvent, SuppressedEvent, UnsubscribedEvent} {
        var status := if e == UnsubscribedEvent then Withdrawn else ConsentSuppressed;
        contact := WithConsent(contact, channel, RecordConsent(ConsentFor(contact, channel), status));
      }
      contacts := contacts[message.contact.value := contact];
    }

    method ProcessProviderCallback(id: nat, providerId: nat, e: EventType, at: nat)
      modifies this`messages, this`recipients, this`contacts, this`handled
      ensures Snapshot() == ReceiveCallback(old(Snapshot()), id, providerId, e, at)
    {
      if id in handled {
        return;
      }
      handled := handled + {id};
      var found := FindByProvider(messages, providerId);
      if found.None? || e == UnknownEvent {
        return;
      }
      var message := messages[found.value];
      RecordOnMessage(found.value, e, at);
      RecordOnRecipient(message, e, at);
      RecordOnConsent(message, e);
    }

    method WithdrawMessage(m: nat, contact: nat, channel: Channel)
      requires m < |messages| && Owned(messages[m])
      modifies this`messages, this`recipients, this`allowances, this`accounts, this`usage
      ensures Snapshot() == UnsubscribeOne(old(Snapshot()), m, contact, channel)
      ensures |accounts| == |campaigns|
    {
      var message := messages[m];
      if UnsubscribeHits(message, contact, channel) {
        ReleaseSmsForMessage(message);
        messages := messages[m := message.(
          status := Unsubscribed, updatedAt := now, stamps := message.stamps.(unsubscribedAt := Some(now)))];
        recipients := UpdateRecipient(recipients, message.recipient, RecipientUnsubscribed, now);
      }
    }

    /** Takes the contact's undelivered marketing messages on the channel out of the queue. */
    method WithdrawMessages(contact: nat, channel: Channel)
      requires forall m :: 0 <= m < |messages| ==> Owned(messages[m])
      modifies this`messages, this`recipients, this`allowances, this`accounts, this`usage
      ensures Snapshot() == UnsubscribeUpTo(old(Snapshot()), contact, channel, |old(messages)|)
    {
      for m := 0 to |messages|
        invariant Snapshot() == UnsubscribeUpTo(old(Snapshot()), contact, channel, m)
        invariant |messages| == |old(messages)| && (m > 0 ==> |accounts| == |campaigns|)
        invariant forall j :: 0 <= j < |messages| ==> messages[j].campaign == old(messages)[j].campaign
      {
        assert old(Owned(messages[m]));
        WithdrawMessage(m, contact, channel);
      }
    }

    method RefreshCampaigns(affected: set<nat>)
      modifies this`campaigns
      ensures Snapshot() == RefreshUpTo(old(Snapshot()), affected, |old(campaigns)|)
    {
      for c := 0 to |campaigns|
        invariant Snapshot() == RefreshUpTo(old(Snapshot()), affected, c) && |campaigns| == |old(campaigns)|
      {
        if c in affected {
          RefreshCampaignStatus(c);
        }
      }
    }

    method UseUnsubscribeLink(k: nat)
      requires forall m :: 0 <= m < |messages| ==> Owned(messages[m])
      modifies this
      ensures Snapshot() == Unsubscribe(old(Snapshot()), k)
    {
      if k >= |capabilities| || capabilities[k].used || capabilities[k].contact >= |contacts| {
        return;
      }
      var contact, channel := capabilities[k].contact, capabilities[k].channel;
      if ConsentFor(contacts[contact], channel) != ConsentSuppressed {
        contacts := contacts[contact := WithConsent(contacts[contact], channel, Withdrawn)];
      }
      capabilities := capabilities[k := capabilities[k].(used := true)];
      assert contacts == old(contacts)[contact :=
                           WithConsent(old(contacts)[contact], channel,
                                       RecordConsent(ConsentFor(old(contacts)[contact], channel), Withdrawn))];
      var affected := AffectedCampaigns(Snapshot(), contact, channel);
      WithdrawMessages(contact, channel);
      RefreshCampaigns(affected);
    }
  }
}
