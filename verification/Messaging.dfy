/**
  Campaign messaging (communications/campaigns.py and communications/services.py) as a state machine.
  Only the claim of a delivery runs in a transaction: after it a worker calls the provider and then
  commits each of its writes alone, so these are steps of their own, any number of workers may be
  between two of them, and each may be killed there. Everything else is one atomic step.
  */
module Messaging {
  import opened Wrappers
  import opened Segments
  import opened Messages
  import opened Callbacks
  import opened SmsLedger

  datatype CampaignStatus = Draft | Scheduled | Expanding | Sending | CampaignSent | CampaignCanceled | CampaignFailed

  /** The campaign's SMS reservation is account `c` of the ledger. */
  datatype Campaign = Campaign(
    channel: Channel, status: CampaignStatus, body: string, scheduledFor: Option<nat>,
    recipientCount: nat, eligibleCount: nat, excludedCount: nat, estimatedSegments: nat)

  datatype Site = Site(hostname: string, emailReady: bool, smsReady: bool, hasPostalAddress: bool)

  /** How far a worker is: the provider call, and the writes it has committed since. */
  datatype Stage = Calling | Recorded | Told | Settled | Cleared | Landed

  /**
    A worker that claimed a message, with its copy of the attempt count. `accepted` says the provider
    took the message, `settled` that the worker has consumed or released its segments.
    */
  datatype Flight = Flight(message: nat, attempts: nat, stage: Stage, accepted: bool, settled: bool)

  datatype Capability = Capability(contact: nat, channel: Channel, used: bool)

  /** `handled` holds the ids of the provider callbacks already processed or ignored. */
  datatype State = State(
    site: Site, now: nat, period: nat,
    contacts: seq<Messages.Contact>, campaigns: seq<Campaign>, recipients: seq<Recipient>, messages: seq<Message>,
    capabilities: seq<Capability>, sms: Ledger, flights: seq<Flight>, handled: set<nat>)

  type Token = s: string | IsToken(s) witness seq(43, _ => 'x')

  const STALE_SECONDS: nat := 15 * 60

  function Initial(site: Site, included: nat, purchased: nat): State {
    State(site, 0, 0, [], [], [], [], [], Ledger([Allowance(included, purchased, 0, 0)], [], []), [], {})
  }

  // ---- Audience, eligibility and preview ----

  datatype Reason =
    | Archived | NoEmail | EmailSuppressed | NoEmailConsent | NoPhone | SmsSuppressed | NoSmsConsent

  /** Why a contact may not get marketing messages on a channel, None if it may. */
  function ContactEligibility(c: Messages.Contact, channel: Channel): Option<Reason> {
    if c.archived then Some(Archived)
    else if channel == Email then
      if !c.hasEmail then Some(NoEmail)
      else if c.emailConsent == ConsentSuppressed then Some(EmailSuppressed)
      else if c.emailConsent != Granted then Some(NoEmailConsent)
      else None
    else if !c.hasPhone then Some(NoPhone)
    else if c.smsConsent == ConsentSuppressed then Some(SmsSuppressed)
    else if c.smsConsent != Granted then Some(NoSmsConsent)
    else None
  }

  predicate TransactionallyReachable(c: Messages.Contact, channel: Channel) {
    !c.archived && ConsentFor(c, channel) != ConsentSuppressed
  }

  predicate SuppressionReason(r: Reason) { r == EmailSuppressed || r == SmsSuppressed }

  /** The contacts, among the first `n`, that the campaign's audience query returns: in id order, none archived. */
  function AudienceIds(contacts: seq<Messages.Contact>, audience: set<nat>, n: nat): seq<nat>
    requires n <= |contacts|
  {
    if n == 0 then []
    else AudienceIds(contacts, audience, n - 1)
         + (if n - 1 in audience && !contacts[n - 1].archived then [n - 1] else [])
  }

  predicate Eligible(contacts: seq<Messages.Contact>, channel: Channel, id: nat) {
    id < |contacts| && ContactEligibility(contacts[id], channel).None?
  }

  function CountEligible(contacts: seq<Messages.Contact>, channel: Channel, ids: seq<nat>): nat {
    if ids == [] then 0
    else CountEligible(contacts, channel, ids[..|ids| - 1]) + if Eligible(contacts, channel, ids[|ids| - 1]) then 1 else 0
  }

  function SegmentsPerMessage(site: Site, campaign: Campaign): nat {
    if campaign.channel == Sms then SegmentCount(BodyForEstimate(campaign.body, site.hostname)) else 0
  }

  function Times(a: nat, b: nat): nat { a * b }

  datatype Preview = Preview(candidates: nat, eligible: nat, excluded: nat, segments: nat)

  function CampaignPreview(s: State, c: nat, audience: set<nat>): Preview
    requires c < |s.campaigns|
  {
    var ids := AudienceIds(s.contacts, audience, |s.contacts|);
    var eligible := CountEligible(s.contacts, s.campaigns[c].channel, ids);
    Preview(|ids|, eligible, Max(0, |ids| - eligible), Times(eligible, SegmentsPerMessage(s.site, s.campaigns[c])))
  }

  // ---- launch_campaign ----

  datatype Refusal =
    | NotADraft | InvalidCampaign | NoEligibleRecipients | ChannelNotConfigured | NoPostalAddress
    | UsageNotConfirmed | SmsLimitExceeded | NotCancelable

  predicate Configured(site: Site, channel: Channel) {
    if channel == Email then site.emailReady else site.smsReady
  }

  predicate SenderProblem(site: Site, channel: Channel) {
    channel == Email && !site.hasPostalAddress
  }

  function LaunchRefusal(s: State, c: nat, audience: set<nat>, valid: bool, confirmed: bool): Option<Refusal>
    requires c < |s.campaigns|
  {
    var campaign, preview := s.campaigns[c], CampaignPreview(s, c, audience);
    if campaign.status != Draft then Some(NotADraft)
    else if !valid then Some(InvalidCampaign)
    else if preview.eligible == 0 then Some(NoEligibleRecipients)
    else if !Configured(s.site, campaign.channel) then Some(ChannelNotConfigured)
    else if SenderProblem(s.site, campaign.channel) then Some(NoPostalAddress)
    else if campaign.channel == Sms && !confirmed then Some(UsageNotConfirmed)
    else if campaign.channel == Sms && preview.segments > RemainingIn(s.sms, s.period) then Some(SmsLimitExceeded)
    else None
  }

  function Launched(s: State, c: nat, audience: set<nat>): State
    requires c < |s.campaigns|
  {
    var campaign, p := s.campaigns[c], CampaignPreview(s, c, audience);
    s.(sms := if campaign.channel == Sms then ReserveForLaunch(s.sms, c, s.period, p.segments) else s.sms,
       campaigns := s.campaigns[c := campaign.(
         status := Scheduled, scheduledFor := Some(campaign.scheduledFor.GetOr(s.now)),
         recipientCount := p.candidates, eligibleCount := p.eligible, excludedCount := p.excluded,
         estimatedSegments := p.segments)])
  }

  /** `valid` says the campaign passes its own validation. */
  function Launch(s: State, c: nat, audience: set<nat>, valid: bool, confirmed: bool): Result<State, Refusal>
    requires c < |s.campaigns|
  {
    var refusal := LaunchRefusal(s, c, audience, valid, confirmed);
    if refusal.Some? then Err(refusal.value) else Ok(Launched(s, c, audience))
  }

  // ---- expand_campaign ----

  function FindRecipient(rows: seq<Recipient>, c: nat, contact: nat): (found: Option<nat>)
    ensures found.Some? ==>
              found.value < |rows| && rows[found.value].campaign == c && rows[found.value].contact == contact
    ensures found.None? ==> forall r :: 0 <= r < |rows| ==> !(rows[r].campaign == c && rows[r].contact == contact)
  {
    if rows == [] then None
    else if rows[|rows| - 1].campaign == c && rows[|rows| - 1].contact == contact then Some(|rows| - 1)
    else FindRecipient(rows[..|rows| - 1], c, contact)
  }

  predicate HasMessage(messages: seq<Message>, recipient: nat) {
    exists m :: 0 <= m < |messages| && messages[m].recipient == Some(recipient)
  }

  /** Recipients counted, how many of them queued, and the segments of their messages. */
  datatype Tally = Tally(total: nat, queued: nat, segments: nat)

  function Counted(t: Tally, status: RecipientStatus, segments: nat): Tally {
    Tally(t.total + 1, t.queued + (if status == RecipientQueued then 1 else 0), t.segments + segments)
  }

  function MessageSegments(site: Site, campaign: Campaign, token: Token): nat {
    if campaign.channel == Sms then SegmentCount(SmsBody(campaign.body, UnsubscribeUrl(site.hostname, token))) else 0
  }

  function CampaignMessage(s: State, c: nat, contact: nat, recipient: nat, segments: nat): Message
    requires c < |s.campaigns|
  {
    Message(s.campaigns[c].channel, Some(contact), Some(c), Some(recipient), true, Queued, 0, s.now, s.now, None,
            segments, if c < |s.sms.accounts| then s.sms.accounts[c].allowance else None, NO_STAMPS)
  }

  function UpsertRecipient(rows: seq<Recipient>, r: nat, row: Recipient): seq<Recipient> {
    if r < |rows| then rows[r := row] else rows + [row]
  }

  /** One contact of the audience. */
  function ExpandOne(s: State, c: nat, contact: nat, token: Token, tally: Tally): (State, Tally)
    requires c < |s.campaigns|
  {
    var campaign := s.campaigns[c];
    var found := FindRecipient(s.recipients, c, contact);
    var r := found.GetOr(|s.recipients|);
    var row := if found.Some? then s.recipients[r] else Recipient(c, contact, RecipientExcluded, 0, NO_STAMPS, None);
    if contact >= |s.contacts| then (s, tally)
    else if found.Some? && HasMessage(s.messages, r) then (s, Counted(tally, row.status, row.segments))
    else
      var reason := ContactEligibility(s.contacts[contact], campaign.channel);
      if reason.Some? then
        var status := if SuppressionReason(reason.value) then RecipientSuppressed else RecipientExcluded;
        (s.(recipients := UpsertRecipient(s.recipients, r, row.(status := status))), Counted(tally, status, 0))
      else
        var segments := MessageSegments(s.site, campaign, token);
        (s.(recipients := UpsertRecipient(s.recipients, r, row.(status := RecipientQueued, segments := segments)),
            capabilities := s.capabilities + [Capability(contact, campaign.channel, false)],
            messages := s.messages + [CampaignMessage(s, c, contact, r, segments)]),
         Counted(tally, RecipientQueued, segments))
  }

  function TokenFor(tokens: seq<Token>, k: nat): Token {
    if k < |tokens| then tokens[k] else seq(43, _ => 'x')
  }

  function ExpandAll(s: State, c: nat, ids: seq<nat>, tokens: seq<Token>): (r: (State, Tally))
    requires c < |s.campaigns|
    ensures r.0 == s.(messages := r.0.messages, recipients := r.0.recipients, capabilities := r.0.capabilities)
  {
    if ids == [] then (s, Tally(0, 0, 0))
    else
      var n := |ids| - 1;
      var (t, tally) := ExpandAll(s, c, ids[..n], tokens);
      ExpandOne(t, c, ids[n], TokenFor(tokens, n), tally)
  }

  function ExpansionReleases(sms: Ledger, c: nat, channel: Channel, segments: nat): Ledger {
    if channel == Sms && c < |sms.accounts| && segments < sms.accounts[c].reserved
    then Release(sms, c, sms.accounts[c].reserved - segments) else sms
  }

  function ExpansionDone(s: State, c: nat, tally: Tally): State
    requires c < |s.campaigns|
  {
    s.(sms := ExpansionReleases(s.sms, c, s.campaigns[c].channel, tally.segments),
       campaigns := s.campaigns[c := s.campaigns[c].(
         status := if tally.queued > 0 then Sending else CampaignSent,
         recipientCount := tally.total, eligibleCount := tally.queued,
         excludedCount := Max(0, tally.total - tally.queued), estimatedSegments := tally.segments)])
  }

  /** `tokens` are the unsubscribe tokens drawn, one for each contact of the audience. */
  function Expand(s: State, c: nat, audience: set<nat>, tokens: seq<Token>): State
    requires c < |s.campaigns|
  {
    var campaign := s.campaigns[c];
    if campaign.status != Scheduled || (campaign.scheduledFor.Some? && campaign.scheduledFor.value > s.now) then s
    else if SenderProblem(s.site, campaign.channel)
    then s.(campaigns := s.campaigns[c := campaign.(status := CampaignFailed)])
    else
      var (t, tally) := ExpandAll(s, c, AudienceIds(s.contacts, audience, |s.contacts|), tokens);
      ExpansionDone(t, c, tally)
  }

  // ---- cancel_campaign, refresh_campaign_status ----

  predicate PendingStatus(status: MessageStatus) { status == Queued || status == Failed }

  function SuppressPending(messages: seq<Message>, c: nat, now: nat): (r: seq<Message>)
    ensures |r| == |messages|
  {
    seq(|messages|, m requires 0 <= m < |messages| =>
      if messages[m].campaign == Some(c) && PendingStatus(messages[m].status)
      then messages[m].(status := Suppressed, updatedAt := now) else messages[m])
  }

  predicate MessageSuppressed(messages: seq<Message>, recipient: nat) {
    exists m :: 0 <= m < |messages| && messages[m].recipient == Some(recipient) && messages[m].status == Suppressed
  }

  function SuppressRecipients(rows: seq<Recipient>, messages: seq<Message>, c: nat): (t: seq<Recipient>)
    ensures |t| == |rows|
  {
    seq(|rows|, r requires 0 <= r < |rows| =>
      if rows[r].campaign == c && rows[r].status == RecipientQueued && MessageSuppressed(messages, r)
      then rows[r].(status := RecipientSuppressed) else rows[r])
  }

  predicate Cancelable(status: CampaignStatus) {
    status == Draft || status == Scheduled || status == Expanding || status == Sending
  }

  function Cancel(s: State, c: nat): Result<State, Refusal>
    requires c < |s.campaigns|
  {
    var campaign := s.campaigns[c];
    if !Cancelable(campaign.status) then Err(NotCancelable)
    else
      var messages := SuppressPending(s.messages, c, s.now);
      Ok(s.(sms := if campaign.channel == Sms && c < |s.sms.accounts| then Release(s.sms, c, s.sms.accounts[c].reserved)
                   else s.sms,
            messages := messages,
            recipients := SuppressRecipients(s.recipients, messages, c),
            campaigns := s.campaigns[c := campaign.(status := CampaignCanceled)]))
  }

  predicate AwaitsDelivery(rows: seq<Recipient>, c: nat) {
    exists r :: 0 <= r < |rows| && rows[r].campaign == c && rows[r].status == RecipientQueued
  }

  function Refresh(s: State, c: nat): State {
    if c < |s.campaigns| && s.campaigns[c].status in {Sending, Expanding} && !AwaitsDelivery(s.recipients, c)
    then s.(campaigns := s.campaigns[c := s.campaigns[c].(status := CampaignSent)]) else s
  }

  // ---- deliver_message ----

  function ReleaseFor(sms: Ledger, m: Message): Ledger {
    if m.channel == Sms && m.segments > 0 && m.campaign.Some? then Release(sms, m.campaign.value, m.segments) else sms
  }

  function ConsumeFor(sms: Ledger, m: Message): Ledger {
    if m.channel == Sms && m.campaign.Some? then Consume(sms, m.campaign.value, m.allowance, m.segments) else sms
  }

  /** `_recipient_update`: the two timestamps delivery itself can set are overwritten. */
  function UpdateRecipient(rows: seq<Recipient>, r: Option<nat>, status: RecipientStatus, now: nat): seq<Recipient> {
    if r.None? || r.value >= |rows| then rows
    else
      var row := rows[r.value];
      rows[r.value := row.(
        status := status,
        stamps := match status
                  case RecipientSent => row.stamps.(sentAt := Some(now))
                  case RecipientUnsubscribed => row.stamps.(unsubscribedAt := Some(now))
                  case _ => row.stamps)]
  }

  predicate StillReachable(s: State, m: Message) {
    m.contact.None? || m.contact.value >= |s.contacts|
    || (var contact := s.contacts[m.contact.value];
        if m.marketing then ContactEligibility(contact, m.channel).None?
        else TransactionallyReachable(contact, m.channel))
  }

  /** A delivery task may do something with the message. */
  predicate Deliverable(m: Message, now: nat) {
    !Terminal(m.status) && m.status != Processing && m.attempts < MAX_ATTEMPTS && m.availableAt <= now
  }

  function RefreshFor(s: State, m: Message): State {
    if m.campaign.Some? then Refresh(s, m.campaign.value) else s
  }

  /** A message whose contact may not get it any more is taken out of the queue. */
  function Suppress(s: State, m: nat): State
    requires m < |s.messages|
  {
    var message := s.messages[m];
    RefreshFor(
      s.(messages := s.messages[m := message.(status := Suppressed, updatedAt := s.now)],
         recipients := UpdateRecipient(s.recipients, message.recipient, RecipientSuppressed, s.now),
         sms := ReleaseFor(s.sms, message)),
      message)
  }

  function Claim(s: State, m: nat): State {
    if m >= |s.messages| || !Deliverable(s.messages[m], s.now) then s
    else
      var message := s.messages[m];
      if !StillReachable(s, message) then Suppress(s, m)
      else
        s.(messages := s.messages[m := message.(status := Processing, attempts := message.attempts + 1, updatedAt := s.now)],
           flights := s.flights + [Flight(m, message.attempts + 1, Calling, false, false)])
  }

  /** The worker is calling the provider. */
  predicate InAir(s: State, f: nat) {
    f < |s.flights| && s.flights[f].stage.Calling? && s.flights[f].message < |s.messages|
  }

  predicate AtLimit(flight: Flight) { flight.attempts >= MAX_ATTEMPTS }

  function At(flights: seq<Flight>, f: nat, stage: Stage): seq<Flight>
    requires f < |flights|
  {
    flights[f := flights[f].(stage := stage)]
  }

  /** The provider accepted the message under `providerId`. */
  function RecordSent(s: State, f: nat, providerId: nat): State {
    if !InAir(s, f) then s
    else
      var m := s.flights[f].message;
      s.(messages := s.messages[m := s.messages[m].(
           status := Sent, providerId := Some(providerId), updatedAt := s.now,
           stamps := s.messages[m].stamps.(sentAt := Some(s.now)))],
         flights := s.flights[f := s.flights[f].(stage := Recorded, accepted := true)])
  }

  function Pow2(n: nat): nat { if n == 0 then 1 else 2 * Pow2(n - 1) }

  function Backoff(attempts: nat): nat { 60 * Min(60, Pow2(attempts)) }

  /** The provider call raised. */
  function RecordFailure(s: State, f: nat): State {
    if !InAir(s, f) then s
    else
      var m := s.flights[f].message;
      s.(messages := s.messages[m := s.messages[m].(
           status := Failed, availableAt := s.now + Backoff(s.flights[f].attempts), updatedAt := s.now)],
         flights := At(s.flights, f, Recorded))
  }

  /** Only the worker's own copy says whether the attempts are used up. */
  function TellRecipient(s: State, f: nat): State
    requires f < |s.flights| && s.flights[f].message < |s.messages|
  {
    var flight := s.flights[f];
    s.(recipients := UpdateRecipient(s.recipients, s.messages[flight.message].recipient,
                                     if flight.accepted then RecipientSent
                                     else if AtLimit(flight) then RecipientFailed else RecipientQueued, s.now),
       flights := At(s.flights, f, if flight.accepted || AtLimit(flight) then Told else Landed))
  }

  function SettleFor(sms: Ledger, flight: Flight, m: Message): Ledger {
    if flight.accepted then ConsumeFor(sms, m) else ReleaseFor(sms, m)
  }

  function SettleSegments(s: State, f: nat): State
    requires f < |s.flights| && s.flights[f].message < |s.messages|
  {
    s.(sms := SettleFor(s.sms, s.flights[f], s.messages[s.flights[f].message]),
       flights := s.flights[f := s.flights[f].(stage := Settled, settled := true)])
  }

  /** A message that failed for good is saved once more, without its text. */
  function ClearText(s: State, f: nat): State
    requires f < |s.flights| && s.flights[f].message < |s.messages|
  {
    var m := s.flights[f].message;
    s.(messages := s.messages[m := s.messages[m].(updatedAt := s.now)], flights := At(s.flights, f, Cleared))
  }

  function FinishCampaign(s: State, f: nat): State
    requires f < |s.flights| && s.flights[f].message < |s.messages|
  {
    RefreshFor(s.(flights := At(s.flights, f, Landed)), s.messages[s.flights[f].message])
  }

  /** The next write of a worker that has its answer from the provider. */
  function GoOn(s: State, f: nat): State {
    if f >= |s.flights| || s.flights[f].message >= |s.messages| then s
    else
      match s.flights[f].stage
      case Calling => s
      case Recorded => TellRecipient(s, f)
      case Told => SettleSegments(s, f)
      case Settled => if s.flights[f].accepted then FinishCampaign(s, f) else ClearText(s, f)
      case Cleared => FinishCampaign(s, f)
      case Landed => s
  }

  /** The worker is killed, wherever it is: nothing more is written. */
  function Crash(s: State, f: nat): State {
    if f >= |s.flights| then s else s.(flights := At(s.flights, f, Landed))
  }

  predicate Stale(m: Message, now: nat) {
    m.status == Processing && m.updatedAt + STALE_SECONDS <= now
  }

  /** The reclaim at the start of `queued_message_ids`. */
  function ReclaimStale(s: State): State {
    s.(messages := seq(|s.messages|, m requires 0 <= m < |s.messages| =>
         if Stale(s.messages[m], s.now) then s.messages[m].(status := Queued) else s.messages[m]))
  }

  // ---- process_provider_callback ----

  function FindByProvider(messages: seq<Message>, providerId: nat): (found: Option<nat>)
    ensures found.Some? ==> found.value < |messages| && messages[found.value].providerId == Some(providerId)
    ensures found.None? ==> forall m :: 0 <= m < |messages| ==> messages[m].providerId != Some(providerId)
  {
    if messages == [] then None
    else if messages[|messages| - 1].providerId == Some(providerId) then Some(|messages| - 1)
    else FindByProvider(messages[..|messages| - 1], providerId)
  }

  function RecipientsOnCallback(rows: seq<Recipient>, m: Message, e: EventType, at: nat): seq<Recipient> {
    if m.recipient.None? || m.recipient.value >= |rows| then rows
    else rows[m.recipient.value := OnRecipient(rows[m.recipient.value], Advances(m, e), e, at)]
  }

  function ContactsOnCallback(rows: seq<Messages.Contact>, m: Message, e: EventType): seq<Messages.Contact> {
    if m.contact.None? || m.contact.value >= |rows| then rows
    else
      var row := rows[m.contact.value];
      rows[m.contact.value := WithConsent(row, m.channel, OnConsent(ConsentFor(row, m.channel), e))]
  }

  function ReceiveCallback(s: State, id: nat, providerId: nat, e: EventType, at: nat): State {
    var found := FindByProvider(s.messages, providerId);
    if id in s.handled then s
    else if found.None? || e == UnknownEvent then s.(handled := s.handled + {id})
    else
      var message := s.messages[found.value];
      s.(messages := s.messages[found.value := OnMessage(message, e, at, s.now)],
         recipients := RecipientsOnCallback(s.recipients, message, e, at),
         contacts := ContactsOnCallback(s.contacts, message, e),
         handled := s.handled + {id})
  }

  // ---- unsubscribe ----

  predicate UnsubscribeHits(m: Message, contact: nat, channel: Channel) {
    m.contact == Some(contact) && m.channel == channel && m.marketing && PendingStatus(m.status)
  }

  function UnsubscribeOne(s: State, m: nat, contact: nat, channel: Channel): State {
    if m >= |s.messages| || !UnsubscribeHits(s.messages[m], contact, channel) then s
    else
      var message := s.messages[m];
      s.(sms := ReleaseFor(s.sms, message),
         messages := s.messages[m := message.(
           status := Unsubscribed, updatedAt := s.now, stamps := message.stamps.(unsubscribedAt := Some(s.now)))],
         recipients := UpdateRecipient(s.recipients, message.recipient, RecipientUnsubscribed, s.now))
  }

  function UnsubscribeUpTo(s: State, contact: nat, channel: Channel, n: nat): State {
    if n == 0 then s else UnsubscribeOne(UnsubscribeUpTo(s, contact, channel, n - 1), n - 1, contact, channel)
  }

  function AffectedCampaigns(s: State, contact: nat, channel: Channel): set<nat> {
    set m | 0 <= m < |s.messages| && UnsubscribeHits(s.messages[m], contact, channel) && s.messages[m].campaign.Some?
      :: s.messages[m].campaign.value
  }

  function RefreshUpTo(s: State, affected: set<nat>, n: nat): State {
    if n == 0 then s
    else
      var t := RefreshUpTo(s, affected, n - 1);
      if n - 1 in affected then Refresh(t, n - 1) else t
  }

  predicate LinkWorks(s: State, k: nat) {
    k < |s.capabilities| && !s.capabilities[k].used && s.capabilities[k].contact < |s.contacts|
  }

  /** The consent is withdrawn, and the link used up. */
  function LinkUsed(s: State, k: nat): State
    requires LinkWorks(s, k)
  {
    var contact, channel := s.capabilities[k].contact, s.capabilities[k].channel;
    var row := s.contacts[contact];
    s.(contacts := s.contacts[contact := WithConsent(row, channel, RecordConsent(ConsentFor(row, channel), Withdrawn))],
       capabilities := s.capabilities[k := s.capabilities[k].(used := true)])
  }

  function Unsubscribe(s: State, k: nat): State {
    if !LinkWorks(s, k) then s
    else
      var contact, channel := s.capabilities[k].contact, s.capabilities[k].channel;
      var t := LinkUsed(s, k);
      RefreshUpTo(UnsubscribeUpTo(t, contact, channel, |t.messages|),
                  AffectedCampaigns(t, contact, channel), |t.campaigns|)
  }

  // ---- queue_campaign_test ----

  function TestSegments(campaign: Campaign): nat {
    if campaign.channel == Sms then SegmentCount(ChargedTest(campaign.body)) else 0
  }

  function QueueTest(s: State, c: nat, confirmed: bool): Result<State, Refusal>
    requires c < |s.campaigns|
  {
    var campaign := s.campaigns[c];
    var segments := TestSegments(campaign);
    if !Configured(s.site, campaign.channel) then Err(ChannelNotConfigured)
    else if campaign.channel == Sms && !confirmed then Err(UsageNotConfirmed)
    else if campaign.channel == Sms && RemainingIn(s.sms, s.period) < segments then Err(SmsLimitExceeded)
    else
      Ok(s.(sms := if campaign.channel == Sms then ReserveForTest(s.sms, c, s.period, segments) else s.sms,
            messages := s.messages + [
              Message(campaign.channel, None, Some(c), None, false, Queued, 0, s.now, s.now, None, segments,
                      if campaign.channel == Sms then Some(s.period) else None, NO_STAMPS)]))
  }

  // ---- Runs ----

  datatype Step =
    | Tick(seconds: nat)
    | AddContact(row: Messages.Contact)
    | EditContact(contact: nat, archived: bool, hasEmail: bool, hasPhone: bool)
    | SetConsent(contact: nat, channel: Channel, consent: ConsentStatus)
    | AddCampaign(channel: Channel, body: string, scheduledFor: Option<nat>)
    | OpenPeriod(included: nat, purchased: nat)
    | QueueTransactional(channel: Channel, addressee: Option<nat>)
    | TestSend(campaign: nat, confirmed: bool)
    | LaunchCampaign(campaign: nat, audience: set<nat>, valid: bool, confirmed: bool)
    | ExpandCampaign(campaign: nat, audience: set<nat>, tokens: seq<Token>)
    | CancelCampaign(campaign: nat)
    | ClaimMessage(message: nat)
    | ProviderAccepts(flight: nat, providerId: nat)
    | ProviderRaises(flight: nat)
    | WorkerGoesOn(flight: nat)
    | WorkerDies(flight: nat)
    | Reclaim
    | ProviderCallback(id: nat, providerId: nat, event: EventType, at: nat)
    | UseUnsubscribeLink(capability: nat)

  predicate CampaignStep(step: Step) {
    step.TestSend? || step.LaunchCampaign? || step.ExpandCampaign? || step.CancelCampaign?
  }

  predicate WorkerStep(step: Step) {
    step.ClaimMessage? || step.ProviderAccepts? || step.ProviderRaises? || step.WorkerGoesOn? || step.WorkerDies?
  }

  /** Neither an operation on a campaign, nor a worker's, nor an unsubscribe link. */
  predicate PlainStep(step: Step) {
    !CampaignStep(step) && !WorkerStep(step) && !step.UseUnsubscribeLink?
  }

  function OrSame(s: State, outcome: Result<State, Refusal>): State {
    if outcome.Ok? then outcome.value else s
  }

  function Next(s: State, step: Step): State {
    match step
    case Tick(seconds) => s.(now := s.now + seconds)
    case AddContact(row) => s.(contacts := s.contacts + [row])
    case EditContact(i, archived, hasEmail, hasPhone) =>
      if i >= |s.contacts| then s
      else s.(contacts := s.contacts[i := s.contacts[i].(archived := archived, hasEmail := hasEmail, hasPhone := hasPhone)])
    case SetConsent(i, channel, consent) =>
      if i >= |s.contacts| then s
      else s.(contacts := s.contacts[i :=
                WithConsent(s.contacts[i], channel, RecordConsent(ConsentFor(s.contacts[i], channel), consent))])
    case AddCampaign(channel, body, scheduledFor) =>
      s.(campaigns := s.campaigns + [Campaign(channel, Draft, body, scheduledFor, 0, 0, 0, 0)],
         sms := s.sms.(accounts := s.sms.accounts + [Account(0, None)]))
    case OpenPeriod(included, purchased) =>
      s.(sms := s.sms.(allowances := s.sms.allowances + [Allowance(included, purchased, 0, 0)]),
         period := |s.sms.allowances|)
    case QueueTransactional(channel, contact) =>
      s.(messages := s.messages + [
           Message(channel, contact, None, None, false, Queued, 0, s.now, s.now, None, 0, None, NO_STAMPS)])
    case TestSend(c, confirmed) => if c >= |s.campaigns| then s else OrSame(s, QueueTest(s, c, confirmed))
    case LaunchCampaign(c, audience, valid, confirmed) =>
      if c >= |s.campaigns| then s else OrSame(s, Launch(s, c, audience, valid, confirmed))
    case ExpandCampaign(c, audience, tokens) => if c >= |s.campaigns| then s else Expand(s, c, audience, tokens)
    case CancelCampaign(c) => if c >= |s.campaigns| then s else OrSame(s, Cancel(s, c))
    case ClaimMessage(m) => Claim(s, m)
    case ProviderAccepts(f, providerId) => RecordSent(s, f, providerId)
    case ProviderRaises(f) => RecordFailure(s, f)
    case WorkerGoesOn(f) => GoOn(s, f)
    case WorkerDies(f) => Crash(s, f)
    case Reclaim => ReclaimStale(s)
    case ProviderCallback(id, providerId, e, at) => ReceiveCallback(s, id, providerId, e, at)
    case UseUnsubscribeLink(k) => Unsubscribe(s, k)
  }

  function Run(s: State, steps: seq<Step>): State {
    if steps == [] then s else Next(Run(s, steps[..|steps| - 1]), steps[|steps| - 1])
  }

  // ---- Shapes the proofs use ----

  lemma {:induction false} UnsubscribeUpToShape(s: State, contact: nat, channel: Channel, n: nat)
    ensures var t := UnsubscribeUpTo(s, contact, channel, n);
            && t == s.(messages := t.messages, recipients := t.recipients, sms := t.sms)
            && |t.messages| == |s.messages| && |t.recipients| == |s.recipients|
            && forall m :: 0 <= m < |s.messages| ==>
                 t.messages[m] == if m < n && UnsubscribeHits(s.messages[m], contact, channel)
                                  then s.messages[m].(status := Unsubscribed, updatedAt := s.now,
                                                      stamps := s.messages[m].stamps.(unsubscribedAt := Some(s.now)))
                                  else s.messages[m]
  {
    if n != 0 {
      UnsubscribeUpToShape(s, contact, channel, n - 1);
    }
  }

  lemma {:induction false} RefreshUpToShape(s: State, affected: set<nat>, n: nat)
    ensures var t := RefreshUpTo(s, affected, n);
            && t == s.(campaigns := t.campaigns) && |t.campaigns| == |s.campaigns|
            && forall c :: 0 <= c < |s.campaigns| ==>
                 || t.campaigns[c] == s.campaigns[c]
                 || (s.campaigns[c].status in {Sending, Expanding}
                     && t.campaigns[c] == s.campaigns[c].(status := CampaignSent))
  {
    if n != 0 {
      RefreshUpToShape(s, affected, n - 1);
    }
  }
}
