/**
  Which month's allowance backs which campaign, over whole runs (communications/campaigns.py): what
  an allowance counts as reserved is what campaigns hold from it, what launches overwrote, and what
  moved between months behind its back.
  */
module Backing {
  import opened Wrappers
  import opened Sums
  import opened Messages
  import opened SmsLedger
  import opened Messaging
  import opened Reservations

  ghost predicate InOrder(s: State) {
    |s.campaigns| == |s.sms.accounts| && s.period < |s.sms.allowances| && Placed(s.sms)
  }

  // ---- What a step moves ----

  predicate LaunchReserves(s: State, step: Step) {
    step.LaunchCampaign? && step.campaign < |s.campaigns| && step.campaign < |s.sms.accounts|
    && s.campaigns[step.campaign].channel == Sms
    && Launch(s, step.campaign, step.audience, step.valid, step.confirmed).Ok?
  }

  predicate TestReserves(s: State, step: Step) {
    step.TestSend? && step.campaign < |s.campaigns| && step.campaign < |s.sms.accounts|
    && s.campaigns[step.campaign].channel == Sms && QueueTest(s, step.campaign, step.confirmed).Ok?
  }

  /** A worker books a sent message on its campaign. */
  predicate Books(s: State, step: Step) {
    step.WorkerGoesOn? && Settles(s, step.flight) && s.flights[step.flight].accepted
    && (var m := s.messages[s.flights[step.flight].message];
        m.channel == Sms && m.campaign.Some? && m.campaign.value < |s.sms.accounts|)
  }

  function BookedMessage(s: State, step: Step): Message
    requires Books(s, step)
  {
    s.messages[s.flights[step.flight].message]
  }

  function BookedSegments(s: State, step: Step): nat
    requires Books(s, step)
  {
    var m := BookedMessage(s, step);
    Consumed(s.sms, m.campaign.value, m.allowance, m.segments)
  }

  /** What the campaign held from the allowance when a launch replaced its reservation. */
  function Overwrites(s: State, step: Step, a: nat): nat {
    if LaunchReserves(s, step) then HeldBy(s.sms.accounts[step.campaign], a) else 0
  }

  /** What the step leaves on the allowance for segments now held or used from another month's, less what came the other way. */
  function Crossing(s: State, step: Step, a: nat): int {
    if TestReserves(s, step) then
      HeldBy(s.sms.accounts[step.campaign], a)
      - (if a == s.period then s.sms.accounts[step.campaign].reserved else 0)
    else if Books(s, step) then
      var m, used := BookedMessage(s, step), BookedSegments(s, step);
      (if s.sms.accounts[m.campaign.value].allowance == Some(a) then used else 0)
      - (if m.allowance == Some(a) then used else 0)
    else 0
  }

  /** A test while segments of another month are held, or a sent message paid from another month than its campaign's. */
  predicate Crosses(s: State, step: Step) {
    || (TestReserves(s, step) && s.sms.accounts[step.campaign].reserved > 0
        && s.sms.accounts[step.campaign].allowance != Some(s.period))
    || (Books(s, step) && BookedSegments(s, step) > 0
        && BookedMessage(s, step).allowance != s.sms.accounts[BookedMessage(s, step).campaign.value].allowance)
  }

  // ---- One step ----

  lemma ForMessageMoves(sms: Ledger, m: Message, a: nat)
    ensures Slack(ReleaseFor(sms, m), a) == Slack(sms, a)
    ensures var used := if m.channel == Sms && m.campaign.Some?
                        then Consumed(sms, m.campaign.value, m.allowance, m.segments) else 0;
            Slack(ConsumeFor(sms, m), a)
            == Slack(sms, a)
               + (if m.campaign.Some? && m.campaign.value < |sms.accounts|
                     && sms.accounts[m.campaign.value].allowance == Some(a) then used else 0)
               - (if m.allowance == Some(a) then used else 0)
  {
    if m.campaign.Some? {
      ReleaseMoves(sms, m.campaign.value, m.segments, a);
      ConsumeMoves(sms, m.campaign.value, m.allowance, m.segments, a);
    }
  }

  lemma {:induction false} UnsubscribeMoves(s: State, contact: nat, channel: Channel, n: nat, a: nat)
    ensures Slack(UnsubscribeUpTo(s, contact, channel, n).sms, a) == Slack(s.sms, a)
  {
    if n != 0 {
      UnsubscribeMoves(s, contact, channel, n - 1, a);
      var t := UnsubscribeUpTo(s, contact, channel, n - 1);
      if n - 1 < |t.messages| {
        ForMessageMoves(t.sms, t.messages[n - 1], a);
      }
    }
  }

  lemma NewAccountMoves(l: Ledger, a: nat)
    ensures Slack(l.(accounts := l.accounts + [Account(0, None)]), a) == Slack(l, a)
  {
    var t := l.(accounts := l.accounts + [Account(0, None)]);
    SumEqual(HeldOf(l, a), HeldOf(t, a), |l.accounts|);
  }

  lemma NewPeriodMoves(l: Ledger, included: nat, purchased: nat, a: nat)
    ensures Slack(l.(allowances := l.allowances + [Allowance(included, purchased, 0, 0)]), a) == Slack(l, a)
  {
    var t := l.(allowances := l.allowances + [Allowance(included, purchased, 0, 0)]);
    SumEqual(HeldOf(l, a), HeldOf(t, a), |l.accounts|);
  }

  lemma ReservingMoves(s: State, step: Step, a: nat)
    requires InOrder(s) && (step.TestSend? || step.LaunchCampaign?)
    ensures Slack(LedgerAfter(s, step), a) == Slack(s.sms, a) + Overwrites(s, step, a) + Crossing(s, step, a)
  {
    if LaunchReserves(s, step) {
      LaunchStrands(s.sms, step.campaign, s.period,
                    CampaignPreview(s, step.campaign, step.audience).segments, a);
    } else if TestReserves(s, step) {
      TestMovesHolding(s.sms, step.campaign, s.period, TestSegments(s.campaigns[step.campaign]), a);
    }
  }

  lemma ExpandingMoves(s: State, c: nat, audience: set<nat>, tokens: seq<Token>, a: nat)
    requires c < |s.campaigns|
    ensures Slack(Expand(s, c, audience, tokens).sms, a) == Slack(s.sms, a)
  {
    var segments := ExpandLedger(s, c, audience, tokens);
    if c < |s.sms.accounts| && segments < s.sms.accounts[c].reserved {
      ReleaseMoves(s.sms, c, s.sms.accounts[c].reserved - segments, a);
    }
  }

  lemma CancelMoves(s: State, c: nat, a: nat)
    ensures Slack(LedgerAfter(s, CancelCampaign(c)), a) == Slack(s.sms, a)
  {
    if c < |s.sms.accounts| {
      ReleaseMoves(s.sms, c, s.sms.accounts[c].reserved, a);
    }
  }

  lemma ClaimMoves(s: State, m: nat, a: nat)
    ensures Slack(LedgerAfter(s, ClaimMessage(m)), a) == Slack(s.sms, a)
  {
    if m < |s.messages| {
      ForMessageMoves(s.sms, s.messages[m], a);
    }
  }

  lemma LinkMoves(s: State, k: nat, a: nat)
    ensures Slack(Unsubscribe(s, k).sms, a) == Slack(s.sms, a)
  {
    UnsubscribeLedger(s, k);
    if k < |s.capabilities| {
      UnsubscribeMoves(s, s.capabilities[k].contact, s.capabilities[k].channel, |s.messages|, a);
    }
  }

  lemma WorkerMoves(s: State, f: nat, a: nat)
    ensures Slack(LedgerAfter(s, WorkerGoesOn(f)), a) == Slack(s.sms, a) + Crossing(s, WorkerGoesOn(f), a)
  {
    if Settles(s, f) {
      ForMessageMoves(s.sms, s.messages[s.flights[f].message], a);
    }
  }

  /** What an allowance counts beyond what campaigns hold from it changes by exactly these two. */
  lemma NextMoves(s: State, step: Step, a: nat)
    requires InOrder(s)
    ensures Slack(Next(s, step).sms, a) == Slack(s.sms, a) + Overwrites(s, step, a) + Crossing(s, step, a)
  {
    LedgerAfterIsNext(s, step);
    match step
    case AddCampaign(_, _, _) => NewAccountMoves(s.sms, a);
    case OpenPeriod(included, purchased) => NewPeriodMoves(s.sms, included, purchased, a);
    case TestSend(_, _) => ReservingMoves(s, step, a);
    case LaunchCampaign(_, _, _, _) => ReservingMoves(s, step, a);
    case ExpandCampaign(c, audience, tokens) =>
      if c < |s.campaigns| {
        ExpandingMoves(s, c, audience, tokens, a);
      }
    case CancelCampaign(c) => CancelMoves(s, c, a);
    case ClaimMessage(m) => ClaimMoves(s, m, a);
    case UseUnsubscribeLink(k) => LinkMoves(s, k, a);
    case WorkerGoesOn(f) => WorkerMoves(s, f, a);
    case _ =>
  }

  /**
    A step changes nothing between months, overwriting apart, if and only if it neither tests a
    campaign that holds another month's segments nor books a message of another month.
    */
  lemma BackingMovesExactly(s: State, step: Step)
    requires InOrder(s)
    ensures (forall a: nat :: Slack(Next(s, step).sms, a) == Slack(s.sms, a) + Overwrites(s, step, a))
            <==> !Crosses(s, step)
  {
    forall a: nat
      ensures Slack(Next(s, step).sms, a) == Slack(s.sms, a) + Overwrites(s, step, a) + Crossing(s, step, a)
    {
      NextMoves(s, step, a);
    }
    if Crosses(s, step) {
      var a := if TestReserves(s, step) then s.period else BookedMessage(s, step).allowance.value;
      assert Crossing(s, step, a) != 0;
    }
  }

  // ---- Order ----

  ghost predicate KeepsPlaced(l: Ledger, t: Ledger) {
    |t.accounts| == |l.accounts| && |t.allowances| == |l.allowances| && (Placed(l) ==> Placed(t))
  }

  lemma ForMessageKeepsPlaced(l: Ledger, m: Message)
    ensures KeepsPlaced(l, ReleaseFor(l, m)) && KeepsPlaced(l, ConsumeFor(l, m))
  {
  }

  lemma {:induction false} UnsubscribeKeepsPlaced(s: State, contact: nat, channel: Channel, n: nat)
    ensures KeepsPlaced(s.sms, UnsubscribeUpTo(s, contact, channel, n).sms)
  {
    if n != 0 {
      UnsubscribeKeepsPlaced(s, contact, channel, n - 1);
      var t := UnsubscribeUpTo(s, contact, channel, n - 1);
      if n - 1 < |t.messages| {
        ForMessageKeepsPlaced(t.sms, t.messages[n - 1]);
      }
    }
  }

  lemma ExpandKeepsPlaced(s: State, c: nat, audience: set<nat>, tokens: seq<Token>)
    requires c < |s.campaigns|
    ensures KeepsPlaced(s.sms, Expand(s, c, audience, tokens).sms)
  {
    var segments := ExpandLedger(s, c, audience, tokens);
  }

  lemma LinkKeepsPlaced(s: State, k: nat)
    ensures KeepsPlaced(s.sms, Unsubscribe(s, k).sms)
  {
    UnsubscribeLedger(s, k);
    if k < |s.capabilities| {
      UnsubscribeKeepsPlaced(s, s.capabilities[k].contact, s.capabilities[k].channel, |s.messages|);
    }
  }

  lemma CampaignStepKeepsPlaced(s: State, step: Step)
    requires InOrder(s) && CampaignStep(step)
    ensures KeepsPlaced(s.sms, LedgerAfter(s, step))
  {
    if step.ExpandCampaign? && step.campaign < |s.campaigns| {
      ExpandKeepsPlaced(s, step.campaign, step.audience, step.tokens);
    }
  }

  lemma WorkerKeepsPlaced(s: State, step: Step)
    requires WorkerStep(step)
    ensures KeepsPlaced(s.sms, LedgerAfter(s, step))
  {
    match step
    case ClaimMessage(m) =>
      if m < |s.messages| {
        ForMessageKeepsPlaced(s.sms, s.messages[m]);
      }
    case WorkerGoesOn(f) =>
      if Settles(s, f) {
        ForMessageKeepsPlaced(s.sms, s.messages[s.flights[f].message]);
      }
    case _ =>
  }

  lemma LedgerKeepsPlaced(s: State, step: Step)
    requires InOrder(s)
    ensures var t := LedgerAfter(s, step);
            && Placed(t)
            && |t.accounts| == |s.sms.accounts| + (if step.AddCampaign? then 1 else 0)
            && |t.allowances| == |s.sms.allowances| + (if step.OpenPeriod? then 1 else 0)
  {
    if WorkerStep(step) {
      WorkerKeepsPlaced(s, step);
    } else if CampaignStep(step) {
      CampaignStepKeepsPlaced(s, step);
    } else if step.UseUnsubscribeLink? {
      LinkKeepsPlaced(s, step.capability);
    }
  }

  lemma CampaignsCount(s: State, step: Step)
    ensures |Next(s, step).campaigns| == |s.campaigns| + (if step.AddCampaign? then 1 else 0)
    ensures Next(s, step).period == if step.OpenPeriod? then |s.sms.allowances| else s.period
  {
    match step
    case UseUnsubscribeLink(k) =>
      if LinkWorks(s, k) {
        UnsubscribeCounts(s, k);
      }
    case _ =>
  }

  lemma UnsubscribeCounts(s: State, k: nat)
    requires LinkWorks(s, k)
    ensures |Unsubscribe(s, k).campaigns| == |s.campaigns| && Unsubscribe(s, k).period == s.period
  {
    var contact, channel := s.capabilities[k].contact, s.capabilities[k].channel;
    var t := LinkUsed(s, k);
    UnsubscribeUpToShape(t, contact, channel, |t.messages|);
    RefreshUpToShape(UnsubscribeUpTo(t, contact, channel, |t.messages|),
                     AffectedCampaigns(t, contact, channel), |t.campaigns|);
  }

  lemma NextKeepsOrder(s: State, step: Step)
    requires InOrder(s)
    ensures InOrder(Next(s, step))
  {
    LedgerAfterIsNext(s, step);
    LedgerKeepsPlaced(s, step);
    CampaignsCount(s, step);
  }

  // ---- Every run ----

  function TotalOverwritten(s: State, steps: seq<Step>, a: nat): nat {
    if steps == [] then 0
    else TotalOverwritten(s, steps[..|steps| - 1], a) + Overwrites(Run(s, steps[..|steps| - 1]), steps[|steps| - 1], a)
  }

  function TotalCrossing(s: State, steps: seq<Step>, a: nat): int {
    if steps == [] then 0
    else TotalCrossing(s, steps[..|steps| - 1], a) + Crossing(Run(s, steps[..|steps| - 1]), steps[|steps| - 1], a)
  }

  predicate NeverCrosses(s: State, steps: seq<Step>) {
    steps == []
    || (NeverCrosses(s, steps[..|steps| - 1]) && !Crosses(Run(s, steps[..|steps| - 1]), steps[|steps| - 1]))
  }

  /** Over every run and every month: reserved segments are those held from the allowance, those overwritten, and those that crossed. */
  lemma {:induction false} ReservedIsAccountedFor(site: Site, included: nat, purchased: nat, steps: seq<Step>, a: nat)
    ensures var s0 := Initial(site, included, purchased); var s := Run(s0, steps);
            && InOrder(s)
            && (a < |s.sms.allowances| ==>
                  s.sms.allowances[a].reserved
                  == Held(s.sms, a) + TotalOverwritten(s0, steps, a) + TotalCrossing(s0, steps, a))
            && Slack(s.sms, a) == TotalOverwritten(s0, steps, a) + TotalCrossing(s0, steps, a)
  {
    if steps != [] {
      var earlier, step := steps[..|steps| - 1], steps[|steps| - 1];
      ReservedIsAccountedFor(site, included, purchased, earlier, a);
      NextMoves(Run(Initial(site, included, purchased), earlier), step, a);
      NextKeepsOrder(Run(Initial(site, included, purchased), earlier), step);
    }
  }

  lemma NotCrossing(s: State, step: Step, a: nat)
    requires !Crosses(s, step) && Placed(s.sms)
    ensures Crossing(s, step, a) == 0
  {
  }

  /** If nothing crosses, every allowance counts exactly what campaigns hold from it and what launches overwrote. */
  lemma {:induction false} ReservedIsHeldOrOverwritten(site: Site, included: nat, purchased: nat, steps: seq<Step>, a: nat)
    requires NeverCrosses(Initial(site, included, purchased), steps)
    ensures var s0 := Initial(site, included, purchased); var s := Run(s0, steps);
            && TotalCrossing(s0, steps, a) == 0
            && (a < |s.sms.allowances| ==>
                  s.sms.allowances[a].reserved == Held(s.sms, a) + TotalOverwritten(s0, steps, a))
  {
    ReservedIsAccountedFor(site, included, purchased, steps, a);
    if steps != [] {
      var earlier := steps[..|steps| - 1];
      ReservedIsHeldOrOverwritten(site, included, purchased, earlier, a);
      ReservedIsAccountedFor(site, included, purchased, earlier, a);
      NotCrossing(Run(Initial(site, included, purchased), earlier), steps[|steps| - 1], a);
    }
  }

  lemma RunIsBacked(site: Site, included: nat, purchased: nat, steps: seq<Step>)
    requires NeverCrosses(Initial(site, included, purchased), steps)
    ensures InOrder(Run(Initial(site, included, purchased), steps))
    ensures Backed(Run(Initial(site, included, purchased), steps).sms)
  {
    ReservedIsAccountedFor(site, included, purchased, steps, 0);
    forall a: nat
      ensures Slack(Run(Initial(site, included, purchased), steps).sms, a) >= 0
    {
      ReservedIsAccountedFor(site, included, purchased, steps, a);
      ReservedIsHeldOrOverwritten(site, included, purchased, steps, a);
    }
  }

  /** Within the first month nothing can cross. */
  lemma {:induction false} OneMonthNeverCrosses(site: Site, included: nat, purchased: nat, steps: seq<Step>)
    requires forall k :: 0 <= k < |steps| ==> !steps[k].OpenPeriod?
    ensures var s0 := Initial(site, included, purchased);
            |Run(s0, steps).sms.allowances| == 1 && NeverCrosses(s0, steps)
  {
    if steps != [] {
      var earlier, step := steps[..|steps| - 1], steps[|steps| - 1];
      OneMonthNeverCrosses(site, included, purchased, earlier);
      ReservedIsAccountedFor(site, included, purchased, earlier, 0);
      var s := Run(Initial(site, included, purchased), earlier);
      LedgerAfterIsNext(s, step);
      LedgerKeepsPlaced(s, step);
      OneAllowanceCannotCross(s, step);
    }
  }

  lemma OneAllowanceCannotCross(s: State, step: Step)
    requires InOrder(s) && |s.sms.allowances| == 1
    ensures !Crosses(s, step)
  {
  }
}
