/** SMS reservations over whole messaging runs (communications/campaigns.py): the ledger reconciles in every month. */
module Reservations {
  import opened Wrappers
  import opened Messages
  import opened SmsLedger
  import opened Messaging

  // ---- The ledger reconciles in every run ----

  lemma ForMessageReconciles(sms: Ledger, m: Message)
    requires Reconciles(sms)
    ensures Reconciles(ReleaseFor(sms, m)) && Reconciles(ConsumeFor(sms, m))
  {
    if m.campaign.Some? {
      ReleaseReconciles(sms, m.campaign.value, m.segments);
      ConsumeReconciles(sms, m.campaign.value, m.allowance, m.segments);
    }
  }

  lemma {:induction false} UnsubscribeReconciles(s: State, contact: nat, channel: Channel, n: nat)
    requires Reconciles(s.sms)
    ensures Reconciles(UnsubscribeUpTo(s, contact, channel, n).sms)
  {
    if n != 0 {
      UnsubscribeReconciles(s, contact, channel, n - 1);
      var t := UnsubscribeUpTo(s, contact, channel, n - 1);
      if n - 1 < |t.messages| {
        ForMessageReconciles(t.sms, t.messages[n - 1]);
      }
    }
  }

  /** The worker's next write is the one to the ledger. */
  predicate Settles(s: State, f: nat) {
    f < |s.flights| && s.flights[f].message < |s.messages| && s.flights[f].stage.Told?
  }

  /** The ledger a step leaves, in terms of the movements it makes. */
  function LedgerAfter(s: State, step: Step): Ledger {
    match step
    case AddCampaign(_, _, _) => s.sms.(accounts := s.sms.accounts + [Account(0, None)])
    case OpenPeriod(included, purchased) =>
      s.sms.(allowances := s.sms.allowances + [Allowance(included, purchased, 0, 0)])
    case TestSend(c, confirmed) =>
      if c < |s.campaigns| && QueueTest(s, c, confirmed).Ok? && s.campaigns[c].channel == Sms
      then ReserveForTest(s.sms, c, s.period, TestSegments(s.campaigns[c])) else s.sms
    case LaunchCampaign(c, audience, valid, confirmed) =>
      if c < |s.campaigns| && Launch(s, c, audience, valid, confirmed).Ok? && s.campaigns[c].channel == Sms
      then ReserveForLaunch(s.sms, c, s.period, CampaignPreview(s, c, audience).segments) else s.sms
    case ExpandCampaign(c, audience, tokens) =>
      if c < |s.campaigns| then Expand(s, c, audience, tokens).sms else s.sms
    case CancelCampaign(c) =>
      if c < |s.campaigns| && Cancelable(s.campaigns[c].status) && s.campaigns[c].channel == Sms && c < |s.sms.accounts|
      then Release(s.sms, c, s.sms.accounts[c].reserved) else s.sms
    case ClaimMessage(m) =>
      if m < |s.messages| && Deliverable(s.messages[m], s.now) && !StillReachable(s, s.messages[m])
      then ReleaseFor(s.sms, s.messages[m]) else s.sms
    case WorkerGoesOn(f) =>
      if Settles(s, f) then SettleFor(s.sms, s.flights[f], s.messages[s.flights[f].message]) else s.sms
    case UseUnsubscribeLink(k) => Unsubscribe(s, k).sms
    case _ => s.sms
  }

  lemma LedgerAfterIsNext(s: State, step: Step)
    ensures Next(s, step).sms == LedgerAfter(s, step)
  {
  }

  lemma UnsubscribeLedger(s: State, k: nat)
    ensures var t := Unsubscribe(s, k);
            t == s || (k < |s.capabilities|
                       && t.sms == UnsubscribeUpTo(s, s.capabilities[k].contact, s.capabilities[k].channel, |s.messages|).sms)
  {
    if LinkWorks(s, k) {
      var contact, channel := s.capabilities[k].contact, s.capabilities[k].channel;
      var t := LinkUsed(s, k);
      UnsubscribeIgnoresContacts(s, t, contact, channel, |s.messages|);
      RefreshUpToShape(UnsubscribeUpTo(t, contact, channel, |t.messages|),
                       AffectedCampaigns(t, contact, channel), |t.campaigns|);
    }
  }

  lemma {:induction false} UnsubscribeIgnoresContacts(s: State, t: State, contact: nat, channel: Channel, n: nat)
    requires t == s.(contacts := t.contacts, capabilities := t.capabilities)
    ensures var u, v := UnsubscribeUpTo(s, contact, channel, n), UnsubscribeUpTo(t, contact, channel, n);
            v == u.(contacts := t.contacts, capabilities := t.capabilities)
  {
    if n != 0 {
      UnsubscribeIgnoresContacts(s, t, contact, channel, n - 1);
    }
  }

  lemma NextReconciles(s: State, step: Step)
    requires Reconciles(s.sms)
    ensures Reconciles(LedgerAfter(s, step))
  {
    match step
    case AddCampaign(_, _, _) =>
      AccountsDoNotMatter(s.sms, s.sms.(accounts := s.sms.accounts + [Account(0, None)]));
    case OpenPeriod(included, purchased) => NewPeriodReconciles(s.sms, included, purchased);
    case TestSend(c, confirmed) =>
      if c < |s.campaigns| && QueueTest(s, c, confirmed).Ok? && s.campaigns[c].channel == Sms {
        ReserveReconciles(s.sms, c, s.period, TestSegments(s.campaigns[c]));
      }
    case LaunchCampaign(c, audience, valid, confirmed) =>
      if c < |s.campaigns| && Launch(s, c, audience, valid, confirmed).Ok? && s.campaigns[c].channel == Sms {
        ReserveReconciles(s.sms, c, s.period, CampaignPreview(s, c, audience).segments);
      }
    case ExpandCampaign(c, audience, tokens) =>
      if c < |s.campaigns| {
        ExpandReconciles(s, c, audience, tokens);
      }
    case CancelCampaign(c) =>
      if c < |s.sms.accounts| {
        ReleaseReconciles(s.sms, c, s.sms.accounts[c].reserved);
      }
    case ClaimMessage(m) =>
      if m < |s.messages| {
        ForMessageReconciles(s.sms, s.messages[m]);
      }
    case WorkerGoesOn(f) =>
      if Settles(s, f) {
        ForMessageReconciles(s.sms, s.messages[s.flights[f].message]);
      }
    case UseUnsubscribeLink(k) =>
      UnsubscribeLedger(s, k);
      if k < |s.capabilities| {
        UnsubscribeReconciles(s, s.capabilities[k].contact, s.capabilities[k].channel, |s.messages|);
      }
    case _ =>
  }

  lemma AccountsDoNotMatter(l: Ledger, t: Ledger)
    requires Reconciles(l) && t == l.(accounts := t.accounts)
    ensures Reconciles(t)
  {
    forall a: nat | a < |t.allowances|
      ensures Reconciled(t, a)
    {
      assert Reconciled(l, a);
    }
  }

  /** An expansion's only movement is the release of what its messages do not need. */
  lemma ExpandLedger(s: State, c: nat, audience: set<nat>, tokens: seq<Token>) returns (segments: nat)
    requires c < |s.campaigns|
    ensures var after := Expand(s, c, audience, tokens).sms;
            after == s.sms || after == ExpansionReleases(s.sms, c, s.campaigns[c].channel, segments)
  {
    segments := ExpandAll(s, c, AudienceIds(s.contacts, audience, |s.contacts|), tokens).1.segments;
  }

  lemma ExpandReconciles(s: State, c: nat, audience: set<nat>, tokens: seq<Token>)
    requires Reconciles(s.sms) && c < |s.campaigns|
    ensures Reconciles(Expand(s, c, audience, tokens).sms)
  {
    var segments := ExpandLedger(s, c, audience, tokens);
    if c < |s.sms.accounts| && segments < s.sms.accounts[c].reserved {
      ReleaseReconciles(s.sms, c, s.sms.accounts[c].reserved - segments);
    }
  }

  /**
    Over every run and every month: an allowance's reserved and sent segments are what its usage
    events add up to, and together they never exceed what was included and purchased.
    */
  lemma {:induction false} LedgerAlwaysReconciles(site: Site, included: nat, purchased: nat, steps: seq<Step>)
    ensures Reconciles(Run(Initial(site, included, purchased), steps).sms)
  {
    if steps == [] {
      assert Reconciles(Ledger([], [], []));
      NewPeriodReconciles(Ledger([], [], []), included, purchased);
      assert [] + [Allowance(included, purchased, 0, 0)] == [Allowance(included, purchased, 0, 0)];
    } else {
      var earlier := steps[..|steps| - 1];
      LedgerAlwaysReconciles(site, included, purchased, earlier);
      var s := Run(Initial(site, included, purchased), earlier);
      NextReconciles(s, steps[|steps| - 1]);
      LedgerAfterIsNext(s, steps[|steps| - 1]);
    }
  }
}
