/** What campaigns hold over whole runs, and how it comes to nothing (communications/campaigns.py, services.py). */
module Holdings {
  import opened Sums
  import opened Messages
  import opened SmsLedger
  import opened Messaging
  import opened Delivery
  import opened Reservations
  import opened Backing
  import opened Expansion
  import opened Settling

  // ---- Recipients exist only for campaigns that were expanded ----

  ghost predicate RecipientsExpanded(s: State) {
    forall r :: 0 <= r < |s.recipients| ==>
      s.recipients[r].campaign < |s.campaigns|
      && s.campaigns[s.recipients[r].campaign].status !in {Draft, Scheduled}
  }

  /** No recipient appears or changes campaign, and no expanded campaign goes back. */
  ghost predicate RecipientsQuiet(s: State, t: State) {
    && |t.recipients| == |s.recipients| && |s.campaigns| <= |t.campaigns|
    && (forall r :: 0 <= r < |s.recipients| ==> t.recipients[r].campaign == s.recipients[r].campaign)
    && (forall c :: 0 <= c < |s.campaigns| && s.campaigns[c].status !in {Draft, Scheduled} ==>
          t.campaigns[c].status !in {Draft, Scheduled})
  }

  lemma ExpandKeepsRecipients(s: State, c: nat, audience: set<nat>, tokens: seq<Token>)
    requires RecipientsExpanded(s) && c < |s.campaigns|
    ensures RecipientsExpanded(Expand(s, c, audience, tokens))
  {
    ExpandAllRecipients(s, c, AudienceIds(s.contacts, audience, |s.contacts|), tokens);
  }

  lemma {:induction false} UnsubscribeUpToQuiet(s: State, contact: nat, channel: Channel, n: nat)
    ensures RecipientsQuiet(s, UnsubscribeUpTo(s, contact, channel, n))
  {
    if n != 0 {
      UnsubscribeUpToQuiet(s, contact, channel, n - 1);
    }
  }

  lemma UnsubscribeKeepsRecipients(s: State, k: nat)
    requires RecipientsExpanded(s)
    ensures RecipientsExpanded(Unsubscribe(s, k))
  {
    if LinkWorks(s, k) {
      var contact, channel := s.capabilities[k].contact, s.capabilities[k].channel;
      var t := LinkUsed(s, k);
      UnsubscribeUpToShape(t, contact, channel, |t.messages|);
      UnsubscribeUpToQuiet(t, contact, channel, |t.messages|);
      RefreshUpToShape(UnsubscribeUpTo(t, contact, channel, |t.messages|),
                       AffectedCampaigns(t, contact, channel), |t.campaigns|);
      assert RecipientsQuiet(s, Unsubscribe(s, k));
    }
  }

  lemma OtherStepKeepsRecipients(s: State, step: Step)
    requires RecipientsExpanded(s) && !WorkerStep(step) && !step.ExpandCampaign? && !step.UseUnsubscribeLink?
    ensures RecipientsExpanded(Next(s, step))
  {
    assert RecipientsQuiet(s, Next(s, step));
  }

  lemma NextKeepsRecipients(s: State, step: Step)
    requires RecipientsExpanded(s)
    ensures RecipientsExpanded(Next(s, step))
  {
    if WorkerStep(step) {
    } else if step.UseUnsubscribeLink? {
      UnsubscribeKeepsRecipients(s, step.capability);
    } else if step.ExpandCampaign? {
      if step.campaign < |s.campaigns| {
        ExpandKeepsRecipients(s, step.campaign, step.audience, step.tokens);
      }
    } else {
      OtherStepKeepsRecipients(s, step);
    }
  }

  // ---- Expansion ----

  lemma UndueKeepsBound(s: State, d: nat, audience: set<nat>, tokens: seq<Token>, c: nat)
    requires Tidy(s) && BoundAt(s, c) && c < |s.campaigns| && d < |s.campaigns| && !Due(s, d)
    ensures BoundAt(Expand(s, d, audience, tokens), c)
  {
    var t := Expand(s, d, audience, tokens);
    if c == d && s.campaigns[d].status == Scheduled && t != s {
      UnsettledNonNegative(t, c, t.sms.accounts[c].allowance);
    } else {
      SettlingNothingKeepsBound(s, t, c);
    }
  }

  /** What a due expansion leaves: the segments queued are unsettled, and what is held beyond them is released. */
  lemma DueKeepsBound(s: State, d: nat, audience: set<nat>, tokens: seq<Token>, c: nat)
    requires Tidy(s) && RecipientsExpanded(s) && BoundAt(s, c) && c < |s.campaigns| && d < |s.campaigns| && Due(s, d)
    ensures BoundAt(Expand(s, d, audience, tokens), c)
  {
    var ids := AudienceIds(s.contacts, audience, |s.contacts|);
    AudienceIsOrdered(s.contacts, audience, |s.contacts|);
    assert forall k :: 0 <= k < |ids| ==> ids[k] in ids;
    ExpandAllTally(s, d, ids, tokens);
    ExpandAllAppends(s, d, ids, tokens);
    var (u, tally) := ExpandAll(s, d, ids, tokens);
    var a := s.sms.accounts[c].allowance;
    AppendedAlike(s, u, d, c, a);
    UnsettledNonNegative(s, c, a);
    ExpansionDoneKeepsBound(u, d, tally, c);
  }

  lemma ExpansionDoneKeepsBound(u: State, d: nat, tally: Tally, c: nat)
    requires InOrder(u) && Backed(u.sms) && c < |u.campaigns| && d < |u.campaigns|
    requires u.campaigns[d].channel == Email ==> u.sms.accounts[d].reserved == 0
    requires c != d ==> BoundAt(u, c)
    requires c == d ==> tally.segments <= Unsettled(u, d, u.sms.accounts[d].allowance)
    ensures BoundAt(ExpansionDone(u, d, tally), c)
  {
    var t := ExpansionDone(u, d, tally);
    if tally.segments < u.sms.accounts[d].reserved {
      ReleaseIsExact(u.sms, d, u.sms.accounts[d].reserved - tally.segments);
    }
    UnsettledGrows(u, t, c, u.sms.accounts[c].allowance);
  }

  // ---- Tables ----

  lemma NewMessagesFunded(s: State, step: Step)
    requires InOrder(s)
    requires step.TestSend? || step.QueueTransactional? || step.ExpandCampaign?
    ensures var t := Next(s, step);
            |t.campaigns| == |s.campaigns|
            && forall m :: |s.messages| <= m < |t.messages| ==> Funded(t.messages[m], |t.campaigns|)
  {
    if step.ExpandCampaign? && step.campaign < |s.campaigns| {
      ExpandAllAppends(s, step.campaign, AudienceIds(s.contacts, step.audience, |s.contacts|), step.tokens);
    }
  }

  lemma NoNewMessages(s: State, step: Step)
    requires !step.TestSend? && !step.QueueTransactional? && !step.ExpandCampaign?
    ensures |Next(s, step).messages| == |s.messages|
  {
    match step
    case ClaimMessage(m) =>
    case UseUnsubscribeLink(k) =>
      if LinkWorks(s, k) {
        UnsubscribeShape(s, k);
      }
    case _ =>
  }

  lemma NextKeepsFunded(s: State, step: Step)
    requires InOrder(s) && forall m :: 0 <= m < |s.messages| ==> Funded(s.messages[m], |s.campaigns|)
    ensures var t := Next(s, step); forall m :: 0 <= m < |t.messages| ==> Funded(t.messages[m], |t.campaigns|)
  {
    StepProgress(s, step);
    CampaignsCount(s, step);
    if step.TestSend? || step.QueueTransactional? || step.ExpandCampaign? {
      NewMessagesFunded(s, step);
    } else {
      NoNewMessages(s, step);
    }
    var t := Next(s, step);
    forall m | 0 <= m < |t.messages|
      ensures Funded(t.messages[m], |t.campaigns|)
    {
      if m < |s.messages| {
        assert Funded(s.messages[m], |s.campaigns|);
      }
    }
  }

  /** No campaign's holding grows but by a launch or a test of an SMS campaign. */
  ghost predicate HoldingsShrink(l: Ledger, t: Ledger) {
    |l.accounts| <= |t.accounts|
    && forall c :: 0 <= c < |l.accounts| ==> t.accounts[c].reserved <= l.accounts[c].reserved
  }

  lemma {:induction false} UnsubscribeShrinks(s: State, contact: nat, channel: Channel, n: nat)
    ensures HoldingsShrink(s.sms, UnsubscribeUpTo(s, contact, channel, n).sms)
  {
    if n != 0 {
      UnsubscribeShrinks(s, contact, channel, n - 1);
    }
  }

  lemma HoldingsGrowOnlyBy(s: State, step: Step)
    requires InOrder(s)
    ensures !step.TestSend? && !step.LaunchCampaign? ==> HoldingsShrink(s.sms, LedgerAfter(s, step))
    ensures step.TestSend? || step.LaunchCampaign? ==>
              var t := LedgerAfter(s, step);
              |t.accounts| == |s.sms.accounts|
              && forall c :: 0 <= c < |s.campaigns| && s.campaigns[c].channel == Email ==> t.accounts[c] == s.sms.accounts[c]
  {
    match step
    case UseUnsubscribeLink(k) =>
      UnsubscribeLedger(s, k);
      if k < |s.capabilities| {
        UnsubscribeShrinks(s, s.capabilities[k].contact, s.capabilities[k].channel, |s.messages|);
      }
    case ExpandCampaign(c, audience, tokens) =>
      if c < |s.campaigns| {
        var segments := ExpandLedger(s, c, audience, tokens);
      }
    case _ =>
  }

  lemma ChannelsKept(s: State, step: Step)
    ensures |s.campaigns| <= |Next(s, step).campaigns|
    ensures forall c :: 0 <= c < |s.campaigns| ==> Next(s, step).campaigns[c].channel == s.campaigns[c].channel
  {
    CampaignsCount(s, step);
    if step.UseUnsubscribeLink? {
      LinkKeepsChannels(s, step.capability);
    }
  }

  lemma LinkKeepsChannels(s: State, k: nat)
    ensures SchedulesKept(s, Unsubscribe(s, k))
  {
    if LinkWorks(s, k) {
      var contact, channel := s.capabilities[k].contact, s.capabilities[k].channel;
      var t := LinkUsed(s, k);
      UnsubscribeUpToShape(t, contact, channel, |t.messages|);
      RefreshUpToShape(UnsubscribeUpTo(t, contact, channel, |t.messages|),
                       AffectedCampaigns(t, contact, channel), |t.campaigns|);
    }
  }

  lemma NextKeepsEmailEmpty(s: State, step: Step)
    requires Tidy(s)
    ensures var t := Next(s, step);
            |t.campaigns| == |t.sms.accounts|
            && forall c :: 0 <= c < |t.campaigns| && t.campaigns[c].channel == Email ==> t.sms.accounts[c].reserved == 0
  {
    NextKeepsOrder(s, step);
    CampaignsCount(s, step);
    ChannelsKept(s, step);
    HoldingsGrowOnlyBy(s, step);
    LedgerAfterIsNext(s, step);
  }

  lemma NextKeepsBacked(s: State, step: Step)
    requires InOrder(s) && Backed(s.sms) && !Crosses(s, step)
    ensures InOrder(Next(s, step)) && Backed(Next(s, step).sms)
  {
    NextKeepsOrder(s, step);
    forall a: nat | a < |Next(s, step).sms.allowances|
      ensures Slack(Next(s, step).sms, a) >= 0
    {
      NextMoves(s, step, a);
      if a >= |s.sms.allowances| {
        NobodyHolds(s.sms, a);
      }
    }
  }

  lemma NobodyHolds(l: Ledger, a: nat)
    requires Placed(l) && a >= |l.allowances|
    ensures Slack(l, a) == 0
  {
    SumZero(HeldOf(l, a), |l.accounts|);
  }

  lemma NextKeepsTidy(s: State, step: Step)
    requires Tidy(s) && AttemptsBound(s) && !Crosses(s, step)
    ensures Tidy(Next(s, step)) && AttemptsBound(Next(s, step))
  {
    NextKeepsBacked(s, step);
    NextKeepsFunded(s, step);
    NextKeepsEmailEmpty(s, step);
    NextKeepsAttemptsBound(s, step);
  }

  // ---- Every step and every run ----

  lemma CampaignStepKeepsBound(s: State, step: Step, c: nat)
    requires Tidy(s) && RecipientsExpanded(s) && BoundAt(s, c) && c < |s.campaigns| && !Crosses(s, step)
    requires step.TestSend? || step.LaunchCampaign? || step.CancelCampaign?
    ensures BoundAt(Next(s, step), c)
  {
    if step.campaign < |s.campaigns| {
      match step
      case TestSend(d, confirmed) =>
        if QueueTest(s, d, confirmed).Ok? {
          TestKeepsBound(s, d, confirmed, c);
        }
      case LaunchCampaign(d, audience, valid, confirmed) =>
        if Launch(s, d, audience, valid, confirmed).Ok? {
          LaunchKeepsBound(s, d, audience, valid, confirmed, c);
        }
      case CancelCampaign(d) =>
        if Cancel(s, d).Ok? {
          CancelKeepsBound(s, d, c);
        }
    }
  }

  lemma ExpandKeepsBound(s: State, d: nat, audience: set<nat>, tokens: seq<Token>, c: nat)
    requires Tidy(s) && RecipientsExpanded(s) && BoundAt(s, c) && c < |s.campaigns|
    ensures BoundAt(Next(s, ExpandCampaign(d, audience, tokens)), c)
  {
    if d < |s.campaigns| {
      if Due(s, d) {
        DueKeepsBound(s, d, audience, tokens, c);
      } else {
        UndueKeepsBound(s, d, audience, tokens, c);
      }
    }
  }

  lemma NextKeepsBound(s: State, step: Step, c: nat)
    requires Tidy(s) && RecipientsExpanded(s) && BoundAt(s, c) && c < |s.campaigns| && !Crosses(s, step)
    ensures BoundAt(Next(s, step), c)
  {
    match step
    case ClaimMessage(m) => ClaimKeepsBound(s, m, c);
    case ProviderAccepts(f, providerId) => RecordKeepsBound(s, f, providerId, c);
    case ProviderRaises(f) => RecordKeepsBound(s, f, 0, c);
    case WorkerGoesOn(f) => GoOnKeepsBound(s, f, c);
    case WorkerDies(f) => CrashKeepsBound(s, f, c);
    case UseUnsubscribeLink(k) => LinkKeepsBound(s, k, c);
    case TestSend(_, _) => CampaignStepKeepsBound(s, step, c);
    case LaunchCampaign(_, _, _, _) => CampaignStepKeepsBound(s, step, c);
    case CancelCampaign(_) => CampaignStepKeepsBound(s, step, c);
    case ExpandCampaign(d, audience, tokens) => ExpandKeepsBound(s, d, audience, tokens, c);
    case AddCampaign(channel, body, scheduledFor) => AddCampaignKeepsBound(s, channel, body, scheduledFor, c);
    case QueueTransactional(channel, addressee) => TransactionalKeepsBound(s, channel, addressee, c);
    case _ => OtherStepKeepsBound(s, step, c);
  }

  lemma {:induction false} RunIsTidy(site: Site, included: nat, purchased: nat, steps: seq<Step>)
    requires NeverCrosses(Initial(site, included, purchased), steps)
    ensures var s := Run(Initial(site, included, purchased), steps);
            Tidy(s) && RecipientsExpanded(s) && AttemptsBound(s)
  {
    if steps == [] {
      RunIsBacked(site, included, purchased, []);
    } else {
      var earlier, step := steps[..|steps| - 1], steps[|steps| - 1];
      RunIsTidy(site, included, purchased, earlier);
      NextKeepsTidy(Run(Initial(site, included, purchased), earlier), step);
      NextKeepsRecipients(Run(Initial(site, included, purchased), earlier), step);
    }
  }

  /**
    Over every run in which nothing crosses between months: a campaign past scheduling holds at most
    the segments of its messages that are paid from that month and not settled yet.
    */
  lemma {:induction false} ReservationsDoNotLeak(site: Site, included: nat, purchased: nat, steps: seq<Step>, c: nat)
    requires NeverCrosses(Initial(site, included, purchased), steps)
    ensures BoundAt(Run(Initial(site, included, purchased), steps), c)
  {
    if steps != [] {
      var earlier, step := steps[..|steps| - 1], steps[|steps| - 1];
      var s := Run(Initial(site, included, purchased), earlier);
      ReservationsDoNotLeak(site, included, purchased, earlier, c);
      RunIsTidy(site, included, purchased, earlier);
      if c < |s.campaigns| {
        NextKeepsBound(s, step, c);
      } else {
        NewCampaignIsBound(s, step, c);
      }
    }
  }

  lemma NewCampaignIsBound(s: State, step: Step, c: nat)
    requires Tidy(s) && c >= |s.campaigns|
    ensures BoundAt(Next(s, step), c)
  {
    CampaignsCount(s, step);
    if step.AddCampaign? {
      AddCampaignKeepsBound(s, step.channel, step.body, step.scheduledFor, c);
    }
  }
}
