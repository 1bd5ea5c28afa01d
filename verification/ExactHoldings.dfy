/**
  When a campaign holds exactly what its unsettled messages need: the reservation and the messages
  stay in step until a message is settled a second time or the campaign itself is operated on.
  */
module ExactHoldings {
  import opened Wrappers
  import opened Sums
  import opened Messages
  import opened SmsLedger
  import opened Messaging
  import opened Delivery
  import opened Reservations
  import opened Backing
  import opened Expansion
  import opened Settling
  import opened Holdings
  import opened Finished

  /** The campaign holds what its unsettled messages of its month come to. */
  ghost predicate Exact(s: State, c: nat) {
    c < |s.campaigns| && c < |s.sms.accounts|
    && s.sms.accounts[c].reserved == Unsettled(s, c, s.sms.accounts[c].allowance)
  }

  /** Releasing the message's segments now would take what others need. */
  predicate Spent(s: State, m: nat, c: nat)
    requires m < |s.messages| && c < |s.sms.accounts|
  {
    s.messages[m].providerId.Some? || SettledByWorker(s.flights, m)
    || s.messages[m].allowance != s.sms.accounts[c].allowance
  }

  predicate Uses(s: State, m: nat, c: nat) {
    m < |s.messages| && s.messages[m].campaign == Some(c) && s.messages[m].segments > 0
  }

  /**
    The step can set the campaign's reservation apart from its messages: it is a launch, an expansion, a
    cancellation or a first test of the month, or it settles a message again or brings one back.
    */
  predicate Muddles(s: State, step: Step, c: nat)
    requires c < |s.sms.accounts|
  {
    match step
    case TestSend(d, _) => d == c && s.sms.accounts[c].allowance != Some(s.period)
    case LaunchCampaign(d, _, _, _) => d == c
    case ExpandCampaign(d, _, _) => d == c
    case CancelCampaign(d) => d == c
    case ClaimMessage(m) =>
      Uses(s, m, c) && Spent(s, m, c) && Deliverable(s.messages[m], s.now) && !StillReachable(s, s.messages[m])
    case ProviderAccepts(f, _) => InAir(s, f) && Uses(s, s.flights[f].message, c) && TakenOut(s.messages[s.flights[f].message])
    case ProviderRaises(f) => InAir(s, f) && Uses(s, s.flights[f].message, c) && TakenOut(s.messages[s.flights[f].message])
    case WorkerGoesOn(f) =>
      Settles(s, f) && Uses(s, s.flights[f].message, c)
      && (SettledUp(s, s.flights[f].message)
          || s.messages[s.flights[f].message].allowance != s.sms.accounts[c].allowance)
    case UseUnsubscribeLink(k) =>
      k < |s.capabilities|
      && exists m: nat :: m < |s.messages| && Uses(s, m, c) && Spent(s, m, c)
                          && UnsubscribeHits(s.messages[m], s.capabilities[k].contact, s.capabilities[k].channel)
    case _ => false
  }

  // ---- Steps that settle nothing of the campaign's ----

  /** The campaign's messages and its account are as they were. */
  ghost predicate Apart(s: State, t: State, c: nat) {
    && c < |s.campaigns| <= |t.campaigns| && c < |s.sms.accounts| && c < |t.sms.accounts|
    && t.sms.accounts[c] == s.sms.accounts[c]
    && |s.messages| <= |t.messages|
    && (forall m: nat :: m < |s.messages| ==>
          SameOrigin(s.messages[m], t.messages[m]) && (Uses(s, m, c) ==> (SettledUp(t, m) <==> SettledUp(s, m))))
    && (forall m: nat :: |s.messages| <= m < |t.messages| ==> !Uses(t, m, c))
  }

  lemma ApartKeepsExact(s: State, t: State, c: nat)
    requires Exact(s, c) && Apart(s, t, c)
    ensures Exact(t, c)
  {
    var a := s.sms.accounts[c].allowance;
    SumEqual(UnsettledOf(s, c, a), UnsettledOf(t, c, a), |s.messages|);
    forall m: nat | |s.messages| <= m < |t.messages|
      ensures UnsettledOf(t, c, a)(m) == 0
    {
      assert !Uses(t, m, c);
    }
    SumConstantTail(UnsettledOf(t, c, a), |s.messages|, |t.messages|, 0);
  }

  // ---- Steps that settle one message ----

  /** Message `m` alone is settled; if it is the campaign's, its segments come off the campaign. */
  ghost predicate TakesOne(s: State, t: State, m: nat, c: nat) {
    && c < |s.campaigns| == |t.campaigns| && c < |s.sms.accounts| == |t.sms.accounts|
    && m < |s.messages| == |t.messages|
    && (forall n: nat :: n < |s.messages| ==> SameOrigin(s.messages[n], t.messages[n]))
    && (forall n: nat :: n < |s.messages| && n != m ==> (SettledUp(t, n) <==> SettledUp(s, n)))
    && t.sms.accounts[c].allowance == s.sms.accounts[c].allowance
    && (if Uses(s, m, c) then
          && !SettledUp(s, m) && SettledUp(t, m) && s.messages[m].allowance == s.sms.accounts[c].allowance
          && t.sms.accounts[c].reserved == Max(0, s.sms.accounts[c].reserved - s.messages[m].segments)
        else t.sms.accounts[c].reserved == s.sms.accounts[c].reserved)
  }

  lemma TakingOneKeepsExact(s: State, t: State, m: nat, c: nat)
    requires Exact(s, c) && TakesOne(s, t, m, c)
    ensures Exact(t, c)
  {
    var a := s.sms.accounts[c].allowance;
    SumOneChange(UnsettledOf(s, c, a), UnsettledOf(t, c, a), |s.messages|, m);
    SumAtLeast(UnsettledOf(s, c, a), |s.messages|, m);
  }

  lemma ReleaseTakes(l: Ledger, m: Message, c: nat)
    requires Backed(l) && Funded(m, |l.accounts|) && c < |l.accounts|
    ensures var t := ReleaseFor(l, m);
            && |t.accounts| == |l.accounts| && t.accounts[c].allowance == l.accounts[c].allowance
            && t.accounts[c].reserved == if m.campaign == Some(c) then Max(0, l.accounts[c].reserved - m.segments)
                                         else l.accounts[c].reserved
  {
    if m.segments > 0 {
      ReleaseIsExact(l, m.campaign.value, m.segments);
    }
  }

  lemma ConsumeTakes(l: Ledger, m: Message, c: nat)
    requires Backed(l) && Funded(m, |l.accounts|) && c < |l.accounts|
    requires m.segments > 0 ==> l.accounts[m.campaign.value].allowance == m.allowance
                                || Consumed(l, m.campaign.value, m.allowance, m.segments) == 0
    requires m.campaign == Some(c) && m.segments > 0 ==> m.allowance == l.accounts[c].allowance
    ensures var t := ConsumeFor(l, m);
            && |t.accounts| == |l.accounts| && t.accounts[c].allowance == l.accounts[c].allowance
            && t.accounts[c].reserved == if m.campaign == Some(c) then Max(0, l.accounts[c].reserved - m.segments)
                                         else l.accounts[c].reserved
  {
    if m.segments > 0 {
      ConsumeIsExact(l, m.campaign.value, m.allowance, m.segments);
    }
  }

  lemma TakeOffKeepsExact(s: State, m: nat, c: nat)
    requires Tidy(s) && Exact(s, c)
    requires m < |s.messages| && Deliverable(s.messages[m], s.now) && StillReachable(s, s.messages[m])
    ensures Exact(Claim(s, m), c)
  {
    var t := Claim(s, m);
    forall n: nat
      ensures SettledByWorker(t.flights, n) <==> SettledByWorker(s.flights, n)
    {
      NewFlightSettlesNothing(s.flights, Flight(m, s.messages[m].attempts + 1, Calling, false, false), n);
    }
    ApartKeepsExact(s, t, c);
  }

  lemma SuppressKeepsExact(s: State, m: nat, c: nat)
    requires Tidy(s) && Exact(s, c) && m < |s.messages| && PendingStatus(s.messages[m].status)
    requires Uses(s, m, c) ==> !Spent(s, m, c)
    ensures Exact(Suppress(s, m), c)
  {
    ReleaseTakes(s.sms, s.messages[m], c);
    TakingOneKeepsExact(s, Suppress(s, m), m, c);
  }

  lemma ClaimKeepsExact(s: State, m: nat, c: nat)
    requires Tidy(s) && Exact(s, c) && !Muddles(s, ClaimMessage(m), c)
    ensures Exact(Next(s, ClaimMessage(m)), c)
  {
    if m < |s.messages| && Deliverable(s.messages[m], s.now) {
      if StillReachable(s, s.messages[m]) {
        TakeOffKeepsExact(s, m, c);
      } else {
        SuppressKeepsExact(s, m, c);
      }
    }
  }

  lemma RecordKeepsExact(s: State, t: State, f: nat, providerId: nat, c: nat)
    requires Tidy(s) && Exact(s, c)
    requires t == RecordSent(s, f, providerId) || t == RecordFailure(s, f)
    requires InAir(s, f) && Uses(s, s.flights[f].message, c) ==> !TakenOut(s.messages[s.flights[f].message])
    ensures Exact(t, c)
  {
    if InAir(s, f) {
      forall n: nat
        ensures SettledByWorker(t.flights, n) <==> SettledByWorker(s.flights, n)
      {
        OneFlightMoves(s.flights, f, t.flights[f], n);
      }
      ApartKeepsExact(s, t, c);
    }
  }

  lemma MoveKeepsExact(s: State, t: State, f: nat, c: nat)
    requires Tidy(s) && Exact(s, c) && MovesOn(s, t, f) && SchedulesKept(s, t) && t.sms == s.sms
    requires f < |s.flights| ==> (t.flights[f].settled ==> s.flights[f].settled)
    ensures Exact(t, c)
  {
    forall n: nat
      ensures SettledByWorker(t.flights, n) <==> SettledByWorker(s.flights, n)
    {
      if t.flights != s.flights {
        OneFlightMoves(s.flights, f, t.flights[f], n);
      }
    }
    ApartKeepsExact(s, t, c);
  }

  lemma SettleKeepsExact(s: State, f: nat, c: nat)
    requires Tidy(s) && Exact(s, c) && Settles(s, f)
    requires !Crosses(s, WorkerGoesOn(f)) && !Muddles(s, WorkerGoesOn(f), c)
    ensures Exact(SettleSegments(s, f), c)
  {
    var t, m := SettleSegments(s, f), s.flights[f].message;
    if s.flights[f].accepted {
      ConsumeTakes(s.sms, s.messages[m], c);
    } else {
      ReleaseTakes(s.sms, s.messages[m], c);
    }
    assert t.flights[f].message == m && t.flights[f].settled;
    forall n: nat | n != m
      ensures SettledByWorker(t.flights, n) <==> SettledByWorker(s.flights, n)
    {
      OneFlightMoves(s.flights, f, t.flights[f], n);
    }
    TakingOneKeepsExact(s, t, m, c);
  }

  lemma GoOnKeepsExact(s: State, f: nat, c: nat)
    requires Tidy(s) && Exact(s, c) && !Crosses(s, WorkerGoesOn(f)) && !Muddles(s, WorkerGoesOn(f), c)
    ensures Exact(Next(s, WorkerGoesOn(f)), c)
  {
    if Settles(s, f) {
      SettleKeepsExact(s, f, c);
    } else {
      GoOnShape(s, f);
      GoOnKeepsSchedules(s, f);
      LedgerAfterIsNext(s, WorkerGoesOn(f));
      MoveKeepsExact(s, GoOn(s, f), f, c);
    }
  }

  lemma CrashKeepsExact(s: State, f: nat, c: nat)
    requires Tidy(s) && Exact(s, c)
    ensures Exact(Next(s, WorkerDies(f)), c)
  {
    GoOnShape(s, f);
    MoveKeepsExact(s, Crash(s, f), f, c);
  }

  lemma WorkerStepKeepsExact(s: State, step: Step, c: nat)
    requires Tidy(s) && Exact(s, c) && WorkerStep(step) && !Crosses(s, step) && !Muddles(s, step, c)
    ensures Exact(Next(s, step), c)
  {
    match step
    case ClaimMessage(m) => ClaimKeepsExact(s, m, c);
    case ProviderAccepts(f, providerId) => RecordKeepsExact(s, RecordSent(s, f, providerId), f, providerId, c);
    case ProviderRaises(f) => RecordKeepsExact(s, RecordFailure(s, f), f, 0, c);
    case WorkerGoesOn(f) => GoOnKeepsExact(s, f, c);
    case WorkerDies(f) => CrashKeepsExact(s, f, c);
  }

  // ---- Unsubscribe ----

  lemma WithdrawKeepsExact(s: State, t: State, m: nat, contact: nat, channel: Channel, c: nat)
    requires Tidy(s) && Exact(s, c) && t == UnsubscribeOne(s, m, contact, channel)
    requires m < |s.messages| && Uses(s, m, c) && UnsubscribeHits(s.messages[m], contact, channel) ==> !Spent(s, m, c)
    ensures Exact(t, c)
  {
    if m < |s.messages| && UnsubscribeHits(s.messages[m], contact, channel) {
      ReleaseTakes(s.sms, s.messages[m], c);
      TakingOneKeepsExact(s, t, m, c);
    }
  }

  lemma {:induction false} WithdrawAllKeepsExact(s: State, contact: nat, channel: Channel, n: nat, c: nat)
    requires Tidy(s) && BoundAt(s, c) && Exact(s, c) && NoneSpent(s, contact, channel, c)
    ensures Exact(UnsubscribeUpTo(s, contact, channel, n), c)
  {
    if n != 0 {
      WithdrawAllKeepsExact(s, contact, channel, n - 1, c);
      UnsubscribeKeepsBound(s, contact, channel, n - 1, c);
      NextWithdrawKeepsExact(s, UnsubscribeUpTo(s, contact, channel, n - 1), UnsubscribeUpTo(s, contact, channel, n),
                             contact, channel, n, c);
    }
  }

  lemma NextWithdrawKeepsExact(s: State, u: State, t: State, contact: nat, channel: Channel, n: nat, c: nat)
    requires n > 0 && u == UnsubscribeUpTo(s, contact, channel, n - 1) && t == UnsubscribeUpTo(s, contact, channel, n)
    requires c < |s.sms.accounts| && NoneSpent(s, contact, channel, c) && Tidy(u) && Exact(u, c)
    ensures Exact(t, c)
  {
    StillUnspent(s, u, contact, channel, n - 1, c);
    WithdrawKeepsExact(u, t, n - 1, contact, channel, c);
  }

  /** The link reaches none of the campaign's messages whose segments are not there to be released. */
  ghost predicate NoneSpent(s: State, contact: nat, channel: Channel, c: nat)
    requires c < |s.sms.accounts|
  {
    forall m: nat :: m < |s.messages| && Uses(s, m, c) && UnsubscribeHits(s.messages[m], contact, channel) ==>
                       !Spent(s, m, c)
  }

  /** Withdrawing the messages before it leaves a message as it was. */
  lemma StillUnspent(s: State, u: State, contact: nat, channel: Channel, m: nat, c: nat)
    requires c < |s.sms.accounts| && u == UnsubscribeUpTo(s, contact, channel, m)
    ensures c < |u.sms.accounts| && |u.messages| == |s.messages|
    ensures m < |s.messages| ==>
              (Uses(u, m, c) <==> Uses(s, m, c)) && u.messages[m] == s.messages[m] && (Spent(u, m, c) <==> Spent(s, m, c))
  {
    UnsubscribeUpToShape(s, contact, channel, m);
    AllowanceKept(s, contact, channel, m, c);
  }

  lemma {:induction false} AllowanceKept(s: State, contact: nat, channel: Channel, n: nat, c: nat)
    requires c < |s.sms.accounts|
    ensures var t := UnsubscribeUpTo(s, contact, channel, n);
            c < |t.sms.accounts| && t.sms.accounts[c].allowance == s.sms.accounts[c].allowance
  {
    if n != 0 {
      AllowanceKept(s, contact, channel, n - 1, c);
    }
  }

  lemma LinkKeepsExact(s: State, k: nat, c: nat)
    requires Tidy(s) && Exact(s, c) && !Muddles(s, UseUnsubscribeLink(k), c)
    ensures Exact(Unsubscribe(s, k), c)
  {
    if LinkWorks(s, k) {
      var contact, channel := s.capabilities[k].contact, s.capabilities[k].channel;
      var t := LinkUsed(s, k);
      ApartKeepsExact(s, t, c);
      WithdrawAllKeepsExact(t, contact, channel, |t.messages|, c);
      var u := UnsubscribeUpTo(t, contact, channel, |t.messages|);
      RefreshUpToShape(u, AffectedCampaigns(t, contact, channel), |t.campaigns|);
      ApartKeepsExact(u, Unsubscribe(s, k), c);
    }
  }

  // ---- Campaign operations ----

  lemma TestKeepsExact(s: State, d: nat, confirmed: bool, c: nat)
    requires Tidy(s) && Exact(s, c) && !Muddles(s, TestSend(d, confirmed), c)
    ensures Exact(Next(s, TestSend(d, confirmed)), c)
  {
    if d < |s.campaigns| && QueueTest(s, d, confirmed).Ok? {
      var t := QueueTest(s, d, confirmed).value;
      AppendedUnsettled(s, t, c, t.sms.accounts[c].allowance);
    }
  }

  lemma CancelKeepsExact(s: State, d: nat, c: nat)
    requires Tidy(s) && Exact(s, c) && d != c
    ensures Exact(Next(s, CancelCampaign(d)), c)
  {
    if d < |s.campaigns| && Cancel(s, d).Ok? {
      ApartKeepsExact(s, Cancel(s, d).value, c);
    }
  }

  lemma LaunchKeepsExact(s: State, d: nat, audience: set<nat>, valid: bool, confirmed: bool, c: nat)
    requires Tidy(s) && Exact(s, c) && d != c
    ensures Exact(Next(s, LaunchCampaign(d, audience, valid, confirmed)), c)
  {
    if d < |s.campaigns| && Launch(s, d, audience, valid, confirmed).Ok? {
      ApartKeepsExact(s, Launched(s, d, audience), c);
    }
  }

  lemma ExpandKeepsExact(s: State, d: nat, audience: set<nat>, tokens: seq<Token>, c: nat)
    requires Tidy(s) && Exact(s, c) && d != c
    ensures Exact(Next(s, ExpandCampaign(d, audience, tokens)), c)
  {
    if d < |s.campaigns| {
      var segments := ExpandLedger(s, d, audience, tokens);
      ExpandLeavesOthers(s, d, audience, tokens, c);
      ApartKeepsExact(s, Expand(s, d, audience, tokens), c);
    }
  }

  lemma ExpandLeavesOthers(s: State, d: nat, audience: set<nat>, tokens: seq<Token>, c: nat)
    requires Tidy(s) && d < |s.campaigns| && d != c
    ensures var t := Expand(s, d, audience, tokens);
            && t.flights == s.flights && |t.campaigns| == |s.campaigns| && s.messages <= t.messages
            && forall m :: |s.messages| <= m < |t.messages| ==> !Uses(t, m, c)
  {
    ExpandAllAppends(s, d, AudienceIds(s.contacts, audience, |s.contacts|), tokens);
  }

  lemma CampaignStepKeepsExact(s: State, step: Step, c: nat)
    requires Tidy(s) && Exact(s, c) && CampaignStep(step) && !Muddles(s, step, c)
    ensures Exact(Next(s, step), c)
  {
    match step
    case TestSend(d, confirmed) => TestKeepsExact(s, d, confirmed, c);
    case LaunchCampaign(d, audience, valid, confirmed) => LaunchKeepsExact(s, d, audience, valid, confirmed, c);
    case CancelCampaign(d) => CancelKeepsExact(s, d, c);
    case ExpandCampaign(d, audience, tokens) => ExpandKeepsExact(s, d, audience, tokens, c);
  }

  lemma PlainStepKeepsExact(s: State, step: Step, c: nat)
    requires Tidy(s) && Exact(s, c) && PlainStep(step)
    ensures Exact(Next(s, step), c)
  {
    ApartKeepsExact(s, Next(s, step), c);
  }

  // ---- Where it starts ----

  lemma NothingUnsettled(s: State, c: nat, a: Option<nat>)
    requires forall m: nat :: Uses(s, m, c) ==> s.messages[m].allowance != a || SettledUp(s, m)
    ensures Unsettled(s, c, a) == 0
  {
    forall m: nat | m < |s.messages|
      ensures UnsettledOf(s, c, a)(m) == 0
    {
      if s.messages[m].campaign == Some(c) && s.messages[m].segments > 0 {
        assert Uses(s, m, c);
      }
    }
    SumZero(UnsettledOf(s, c, a), |s.messages|);
  }

  /** The first test of a campaign that holds nothing and has no messages to send. */
  lemma FirstTestIsExact(s: State, c: nat, confirmed: bool)
    requires Tidy(s) && c < |s.campaigns| && QueueTest(s, c, confirmed).Ok?
    requires s.sms.accounts[c].reserved == 0 && forall m: nat :: Uses(s, m, c) ==> SettledUp(s, m)
    ensures Exact(QueueTest(s, c, confirmed).value, c)
  {
    var t := QueueTest(s, c, confirmed).value;
    NothingUnsettled(s, c, t.sms.accounts[c].allowance);
    AppendedUnsettled(s, t, c, t.sms.accounts[c].allowance);
  }

  lemma QueuedAreUnsettled(s: State, u: State, c: nat, ids: seq<nat>, tokens: seq<Token>)
    requires Tidy(s) && c < |s.campaigns| && NoRecipientsYet(s, c) && u == ExpandAll(s, c, ids, tokens).0
    requires Increasing(ids) && forall k :: 0 <= k < |ids| ==> ids[k] < |s.contacts|
    requires forall m: nat :: Uses(s, m, c) ==> SettledUp(s, m)
    ensures Unsettled(u, c, s.sms.accounts[c].allowance) == ExpandAll(s, c, ids, tokens).1.segments
            == QueuedSegments(s, c, ids, tokens)
  {
    ExpandAllTally(s, c, ids, tokens);
    ExpandAllAppends(s, c, ids, tokens);
    NothingUnsettled(s, c, s.sms.accounts[c].allowance);
    AppendedAlike(s, u, c, c, s.sms.accounts[c].allowance);
  }

  /** An expansion whose messages need no more than was reserved, when no earlier message still needs any of it. */
  lemma ExpansionIsExact(s: State, c: nat, audience: set<nat>, tokens: seq<Token>)
    requires Tidy(s) && RecipientsExpanded(s) && c < |s.campaigns| && Due(s, c) && s.campaigns[c].channel == Sms
    requires forall m: nat :: Uses(s, m, c) ==> SettledUp(s, m)
    requires QueuedSegments(s, c, AudienceIds(s.contacts, audience, |s.contacts|), tokens) <= s.sms.accounts[c].reserved
    ensures Exact(Expand(s, c, audience, tokens), c)
  {
    var ids := AudienceIds(s.contacts, audience, |s.contacts|);
    AudienceIsOrdered(s.contacts, audience, |s.contacts|);
    assert forall k :: 0 <= k < |ids| ==> ids[k] in ids;
    var (u, tally) := ExpandAll(s, c, ids, tokens);
    QueuedAreUnsettled(s, u, c, ids, tokens);
    ExpansionDoneIsExact(u, c, tally);
  }

  lemma ExpansionDoneIsExact(u: State, c: nat, tally: Tally)
    requires InOrder(u) && Backed(u.sms) && c < |u.campaigns| && u.campaigns[c].channel == Sms
    requires tally.segments == Unsettled(u, c, u.sms.accounts[c].allowance) <= u.sms.accounts[c].reserved
    ensures Exact(ExpansionDone(u, c, tally), c)
  {
    var t := ExpansionDone(u, c, tally);
    if tally.segments < u.sms.accounts[c].reserved {
      ReleaseIsExact(u.sms, c, u.sms.accounts[c].reserved - tally.segments);
    }
    SumEqual(UnsettledOf(u, c, u.sms.accounts[c].allowance), UnsettledOf(t, c, u.sms.accounts[c].allowance), |u.messages|);
  }

  // ---- Every run ----

  predicate NeverMuddles(s: State, steps: seq<Step>, c: nat)
    requires c < |s.sms.accounts|
  {
    steps == []
    || (var earlier, u := steps[..|steps| - 1], Run(s, steps[..|steps| - 1]);
        NeverMuddles(s, earlier, c) && (c < |u.sms.accounts| ==> !Muddles(u, steps[|steps| - 1], c)))
  }

  lemma NextKeepsExact(s: State, step: Step, c: nat)
    requires Tidy(s) && Exact(s, c) && !Crosses(s, step) && !Muddles(s, step, c)
    ensures Exact(Next(s, step), c)
  {
    if WorkerStep(step) {
      WorkerStepKeepsExact(s, step, c);
    } else if CampaignStep(step) {
      CampaignStepKeepsExact(s, step, c);
    } else if step.UseUnsubscribeLink? {
      LinkKeepsExact(s, step.capability, c);
    } else {
      PlainStepKeepsExact(s, step, c);
    }
  }

  lemma {:induction false} RunKeepsExact(s: State, steps: seq<Step>, c: nat)
    requires Tidy(s) && AttemptsBound(s) && Exact(s, c) && NeverCrosses(s, steps) && NeverMuddles(s, steps, c)
    ensures var t := Run(s, steps); Tidy(t) && AttemptsBound(t) && Exact(t, c)
  {
    if steps != [] {
      var earlier, step := steps[..|steps| - 1], steps[|steps| - 1];
      RunKeepsExact(s, earlier, c);
      NextKeepsExact(Run(s, earlier), step, c);
      NextKeepsTidy(Run(s, earlier), step);
    }
  }

  /** The segments of the campaign's stuck messages of the month it holds segments from. */
  ghost function StuckThere(s: State, c: nat, a: Option<nat>): nat -> int {
    (m: nat) =>
      if m < |s.messages| && s.messages[m].campaign == Some(c) && s.messages[m].allowance == a && Stuck(s, m)
      then s.messages[m].segments else 0
  }

  ghost predicate NoneStuck(s: State, c: nat)
    requires c < |s.sms.accounts|
  {
    forall m: nat :: Uses(s, m, c) && s.messages[m].allowance == s.sms.accounts[c].allowance ==> !Stuck(s, m)
  }

  lemma FinalIsStuckOrSettled(t: State, c: nat)
    requires Exact(t, c) && Attended(t) && AllFinal(t, c)
    ensures t.sms.accounts[c].reserved == Sum(StuckThere(t, c, t.sms.accounts[c].allowance), |t.messages|)
  {
    var a := t.sms.accounts[c].allowance;
    forall m: nat | m < |t.messages|
      ensures UnsettledOf(t, c, a)(m) == StuckThere(t, c, a)(m)
    {
      if t.messages[m].campaign == Some(c) {
        UnsettledExactly(t, m);
      }
    }
    SumEqual(UnsettledOf(t, c, a), StuckThere(t, c, a), |t.messages|);
  }

  lemma StuckSumIsZeroExactly(t: State, c: nat)
    requires c < |t.sms.accounts|
    ensures Sum(StuckThere(t, c, t.sms.accounts[c].allowance), |t.messages|) == 0 <==> NoneStuck(t, c)
  {
    var a := t.sms.accounts[c].allowance;
    if NoneStuck(t, c) {
      SumZero(StuckThere(t, c, a), |t.messages|);
    } else {
      var m: nat :| Uses(t, m, c) && t.messages[m].allowance == a && Stuck(t, m);
      SumAtLeast(StuckThere(t, c, a), |t.messages|, m);
    }
  }

  /**
    If the campaign held exactly what its messages needed and nothing muddled that since, then once its
    messages are final and nobody works on them it holds nothing if and only if none of them that uses
    segments of that month is stuck.
    */
  lemma FinishedHoldsNothingExactly(s: State, steps: seq<Step>, c: nat)
    requires Tidy(s) && AttemptsBound(s) && Exact(s, c) && NeverCrosses(s, steps) && NeverMuddles(s, steps, c)
    requires Attended(s) && AllFinal(Run(s, steps), c)
    ensures var t := Run(s, steps);
            && Exact(t, c)
            && t.sms.accounts[c].reserved == Sum(StuckThere(t, c, t.sms.accounts[c].allowance), |t.messages|)
            && (t.sms.accounts[c].reserved == 0 <==> NoneStuck(t, c))
  {
    RunKeepsExact(s, steps, c);
    RunKeepsAttended(s, steps);
    FinalIsStuckOrSettled(Run(s, steps), c);
    StuckSumIsZeroExactly(Run(s, steps), c);
  }
}
