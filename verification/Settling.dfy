/**
  A campaign's reservation against the messages that still have a claim on it. A message's segments
  are settled when a worker consumes or releases them, or when the message is taken out of the queue;
  until then they may be held. Here: what each step does to that bound.
  */
module Settling {
  import opened Wrappers
  import opened Sums
  import opened Messages
  import opened SmsLedger
  import opened Messaging
  import opened Delivery
  import opened Reservations
  import opened Backing
  import opened Owing

  // ---- Unsettled segments ----

  predicate SettledByWorker(flights: seq<Flight>, m: nat) {
    exists f :: 0 <= f < |flights| && flights[f].message == m && flights[f].settled
  }

  /** Out of the queue without being sent; that step gives the segments back itself. */
  predicate TakenOut(m: Message) {
    m.providerId.None? && (m.status == Suppressed || m.status == Unsubscribed)
  }

  predicate SettledUp(s: State, m: nat)
    requires m < |s.messages|
  {
    TakenOut(s.messages[m]) || SettledByWorker(s.flights, m)
  }

  /** The segments of the campaign's unsettled messages that are paid from allowance `a`. */
  function UnsettledOf(s: State, c: nat, a: Option<nat>): nat -> int {
    (m: nat) =>
      if m < |s.messages| && s.messages[m].campaign == Some(c) && s.messages[m].allowance == a && !SettledUp(s, m)
      then s.messages[m].segments else 0
  }

  function Unsettled(s: State, c: nat, a: Option<nat>): int {
    Sum(UnsettledOf(s, c, a), |s.messages|)
  }

  /** Once its audience is settled, a campaign holds no more than its unsettled messages of that month need. */
  ghost predicate BoundAt(s: State, c: nat) {
    c < |s.campaigns| && c < |s.sms.accounts| && s.campaigns[c].status != Scheduled ==>
      s.sms.accounts[c].reserved <= Unsettled(s, c, s.sms.accounts[c].allowance)
  }

  /** A message that uses segments is an SMS of some campaign. */
  predicate Funded(m: Message, campaigns: nat) {
    m.segments > 0 ==> m.channel == Sms && m.campaign.Some? && m.campaign.value < campaigns
  }

  ghost predicate Tidy(s: State) {
    && InOrder(s) && Backed(s.sms)
    && (forall m :: 0 <= m < |s.messages| ==> Funded(s.messages[m], |s.campaigns|))
    && (forall c :: 0 <= c < |s.campaigns| && s.campaigns[c].channel == Email ==> s.sms.accounts[c].reserved == 0)
    && (forall f :: 0 <= f < |s.flights| ==> s.flights[f].message < |s.messages|)
  }

  lemma UnsettledNonNegative(s: State, c: nat, a: Option<nat>)
    ensures 0 <= Unsettled(s, c, a)
  {
    SumNonNegative(UnsettledOf(s, c, a), |s.messages|);
  }

  // ---- Steps that settle nothing ----

  /** No message is settled, and new ones are not either. */
  ghost predicate SettlesNothing(s: State, t: State) {
    && |s.messages| <= |t.messages|
    && forall m :: 0 <= m < |s.messages| ==>
         SameOrigin(s.messages[m], t.messages[m]) && (SettledUp(t, m) ==> SettledUp(s, m))
  }

  lemma UnsettledGrows(s: State, t: State, c: nat, a: Option<nat>)
    requires SettlesNothing(s, t)
    ensures Unsettled(s, c, a) <= Unsettled(t, c, a)
  {
    SumAtMost(UnsettledOf(s, c, a), UnsettledOf(t, c, a), |s.messages|);
    SumGrows(UnsettledOf(t, c, a), |s.messages|, |t.messages|);
  }

  lemma SettlingNothingKeepsBound(s: State, t: State, c: nat)
    requires BoundAt(s, c) && SettlesNothing(s, t)
    requires c < |s.campaigns| == |t.campaigns| && c < |s.sms.accounts| == |t.sms.accounts|
    requires t.sms.accounts[c] == s.sms.accounts[c]
    requires t.campaigns[c].status == Scheduled || s.campaigns[c].status != Scheduled
    ensures BoundAt(t, c)
  {
    UnsettledGrows(s, t, c, s.sms.accounts[c].allowance);
  }

  // ---- Settling one message ----

  /** What releasing or consuming a message's segments takes off a campaign that holds them. */
  ghost predicate TakesMessage(l: Ledger, t: Ledger, m: Message) {
    && |t.accounts| == |l.accounts|
    && forall c :: 0 <= c < |l.accounts| ==>
         && t.accounts[c].allowance == l.accounts[c].allowance
         && t.accounts[c].reserved <= l.accounts[c].reserved
         && (m.campaign == Some(c) && m.allowance == l.accounts[c].allowance ==>
               t.accounts[c].reserved <= Max(0, l.accounts[c].reserved - m.segments))
  }

  /** Message `m` alone is settled, and its segments are taken off its campaign if they are there. */
  ghost predicate SettlesOne(s: State, t: State, m: nat) {
    && m < |s.messages| == |t.messages|
    && (forall n :: 0 <= n < |s.messages| ==> SameOrigin(s.messages[n], t.messages[n]))
    && (forall n :: 0 <= n < |s.messages| && n != m ==> (SettledUp(t, n) <==> SettledUp(s, n)))
    && TakesMessage(s.sms, t.sms, s.messages[m])
  }

  lemma SettlingOneKeepsBound(s: State, t: State, m: nat, c: nat)
    requires BoundAt(s, c) && SettlesOne(s, t, m)
    requires c < |s.campaigns| == |t.campaigns| && c < |s.sms.accounts|
    requires t.campaigns[c].status == Scheduled || s.campaigns[c].status != Scheduled
    ensures BoundAt(t, c)
  {
    var a := s.sms.accounts[c].allowance;
    SumOneChange(UnsettledOf(s, c, a), UnsettledOf(t, c, a), |s.messages|, m);
    UnsettledNonNegative(t, c, a);
  }

  lemma ReleaseTakesMessage(l: Ledger, m: Message, campaigns: nat)
    requires Backed(l) && Funded(m, campaigns)
    ensures TakesMessage(l, ReleaseFor(l, m), m) && Backed(ReleaseFor(l, m))
  {
    if m.segments > 0 {
      ReleaseIsExact(l, m.campaign.value, m.segments);
    }
  }

  lemma ConsumeTakesMessage(l: Ledger, m: Message)
    requires Backed(l) && Funded(m, |l.accounts|)
    requires m.campaign.Some? && m.campaign.value < |l.accounts| ==>
               l.accounts[m.campaign.value].allowance == m.allowance
               || Consumed(l, m.campaign.value, m.allowance, m.segments) == 0
    ensures TakesMessage(l, ConsumeFor(l, m), m) && Backed(ConsumeFor(l, m))
  {
    if m.segments > 0 {
      ConsumeIsExact(l, m.campaign.value, m.allowance, m.segments);
    }
  }

  // ---- Delivery ----

  /** Campaigns keep their channel and do not become or cease to be scheduled. */
  ghost predicate SchedulesKept(s: State, t: State) {
    && |t.campaigns| == |s.campaigns|
    && forall c :: 0 <= c < |s.campaigns| ==>
         t.campaigns[c].channel == s.campaigns[c].channel
         && (t.campaigns[c].status == Scheduled <==> s.campaigns[c].status == Scheduled)
  }

  lemma GoOnKeepsSchedules(s: State, f: nat)
    ensures SchedulesKept(s, GoOn(s, f))
  {
  }

  lemma NewFlightSettlesNothing(flights: seq<Flight>, flight: Flight, m: nat)
    requires !flight.settled
    ensures SettledByWorker(flights + [flight], m) <==> SettledByWorker(flights, m)
  {
    var more := flights + [flight];
    if SettledByWorker(flights, m) {
      var f :| 0 <= f < |flights| && flights[f].message == m && flights[f].settled;
      assert more[f].message == m && more[f].settled;
    }
  }

  /** A worker's step settles no message but, perhaps, its own. */
  lemma OneFlightMoves(flights: seq<Flight>, f: nat, flight: Flight, m: nat)
    requires f < |flights| && flight.message == flights[f].message && (flights[f].settled ==> flight.settled)
    requires m == flights[f].message ==> (flight.settled ==> flights[f].settled)
    ensures SettledByWorker(flights[f := flight], m) <==> SettledByWorker(flights, m)
  {
    var after := flights[f := flight];
    if g :| 0 <= g < |flights| && flights[g].message == m && flights[g].settled {
      assert after[g].message == m && after[g].settled;
    }
  }

  lemma TakeOffKeepsBound(s: State, m: nat, c: nat)
    requires Tidy(s) && BoundAt(s, c) && c < |s.campaigns|
    requires m < |s.messages| && Deliverable(s.messages[m], s.now) && StillReachable(s, s.messages[m])
    ensures BoundAt(Claim(s, m), c)
  {
    var t := Claim(s, m);
    forall n: nat
      ensures SettledByWorker(t.flights, n) <==> SettledByWorker(s.flights, n)
    {
      NewFlightSettlesNothing(s.flights, Flight(m, s.messages[m].attempts + 1, Calling, false, false), n);
    }
    SettlingNothingKeepsBound(s, t, c);
  }

  lemma SuppressKeepsBound(s: State, m: nat, c: nat)
    requires Tidy(s) && BoundAt(s, c) && c < |s.campaigns| && m < |s.messages|
    ensures BoundAt(Suppress(s, m), c)
  {
    ReleaseTakesMessage(s.sms, s.messages[m], |s.campaigns|);
    SettlingOneKeepsBound(s, Suppress(s, m), m, c);
  }

  lemma ClaimKeepsBound(s: State, m: nat, c: nat)
    requires Tidy(s) && BoundAt(s, c) && c < |s.campaigns|
    ensures BoundAt(Claim(s, m), c)
  {
    if m < |s.messages| && Deliverable(s.messages[m], s.now) {
      if StillReachable(s, s.messages[m]) {
        TakeOffKeepsBound(s, m, c);
      } else {
        SuppressKeepsBound(s, m, c);
      }
    }
  }

  lemma RecordKeepsBound(s: State, f: nat, providerId: nat, c: nat)
    requires Tidy(s) && BoundAt(s, c) && c < |s.campaigns|
    ensures BoundAt(RecordSent(s, f, providerId), c) && BoundAt(RecordFailure(s, f), c)
  {
    var sent, failed := RecordSent(s, f, providerId), RecordFailure(s, f);
    LedgerAfterIsNext(s, ProviderAccepts(f, providerId));
    LedgerAfterIsNext(s, ProviderRaises(f));
    if InAir(s, f) {
      forall n: nat
        ensures SettledByWorker(sent.flights, n) <==> SettledByWorker(s.flights, n)
        ensures SettledByWorker(failed.flights, n) <==> SettledByWorker(s.flights, n)
      {
        OneFlightMoves(s.flights, f, sent.flights[f], n);
        OneFlightMoves(s.flights, f, failed.flights[f], n);
      }
      SettlingNothingKeepsBound(s, sent, c);
      SettlingNothingKeepsBound(s, failed, c);
    }
  }

  /** A worker's move that leaves the ledger alone. */
  lemma MoveKeepsBound(s: State, t: State, f: nat, c: nat)
    requires BoundAt(s, c) && c < |s.campaigns| && c < |s.sms.accounts|
    requires MovesOn(s, t, f) && SchedulesKept(s, t) && t.sms == s.sms
    requires f < |s.flights| ==> (t.flights[f].settled ==> s.flights[f].settled)
    ensures BoundAt(t, c)
  {
    forall n: nat
      ensures SettledByWorker(t.flights, n) <==> SettledByWorker(s.flights, n)
    {
      if t.flights != s.flights {
        OneFlightMoves(s.flights, f, t.flights[f], n);
      }
    }
    SettlingNothingKeepsBound(s, t, c);
  }

  lemma SettleKeepsBound(s: State, f: nat, c: nat)
    requires Tidy(s) && BoundAt(s, c) && c < |s.campaigns| && Settles(s, f) && !Crosses(s, WorkerGoesOn(f))
    ensures BoundAt(SettleSegments(s, f), c)
  {
    var t, m := SettleSegments(s, f), s.flights[f].message;
    if s.flights[f].accepted {
      ConsumeTakesMessage(s.sms, s.messages[m]);
    } else {
      ReleaseTakesMessage(s.sms, s.messages[m], |s.campaigns|);
    }
    forall n: nat | n != m
      ensures SettledByWorker(t.flights, n) <==> SettledByWorker(s.flights, n)
    {
      OneFlightMoves(s.flights, f, t.flights[f], n);
    }
    SettlingOneKeepsBound(s, t, m, c);
  }

  lemma GoOnKeepsBound(s: State, f: nat, c: nat)
    requires Tidy(s) && BoundAt(s, c) && c < |s.campaigns| && !Crosses(s, WorkerGoesOn(f))
    ensures BoundAt(GoOn(s, f), c)
  {
    if Settles(s, f) {
      SettleKeepsBound(s, f, c);
    } else {
      GoOnShape(s, f);
      GoOnKeepsSchedules(s, f);
      LedgerAfterIsNext(s, WorkerGoesOn(f));
      MoveKeepsBound(s, GoOn(s, f), f, c);
    }
  }

  lemma CrashKeepsBound(s: State, f: nat, c: nat)
    requires Tidy(s) && BoundAt(s, c) && c < |s.campaigns|
    ensures BoundAt(Crash(s, f), c)
  {
    GoOnShape(s, f);
    MoveKeepsBound(s, Crash(s, f), f, c);
  }

  // ---- Unsubscribe ----

  lemma UnsubscribeOneKeepsBound(s: State, t: State, m: nat, contact: nat, channel: Channel, c: nat)
    requires Tidy(s) && BoundAt(s, c) && c < |s.campaigns| && t == UnsubscribeOne(s, m, contact, channel)
    ensures Tidy(t) && BoundAt(t, c) && t.campaigns == s.campaigns
  {
    if t != s {
      ReleaseTakesMessage(s.sms, s.messages[m], |s.campaigns|);
      SettlingOneKeepsBound(s, t, m, c);
      assert SameOrigin(s.messages[m], t.messages[m]);
    }
  }

  lemma {:induction false} UnsubscribeKeepsBound(s: State, contact: nat, channel: Channel, n: nat, c: nat)
    requires Tidy(s) && BoundAt(s, c) && c < |s.campaigns|
    ensures var t := UnsubscribeUpTo(s, contact, channel, n);
            Tidy(t) && BoundAt(t, c) && t.campaigns == s.campaigns
  {
    if n != 0 {
      UnsubscribeKeepsBound(s, contact, channel, n - 1, c);
      UnsubscribeOneKeepsBound(UnsubscribeUpTo(s, contact, channel, n - 1), UnsubscribeUpTo(s, contact, channel, n),
                               n - 1, contact, channel, c);
    }
  }

  lemma LinkKeepsBound(s: State, k: nat, c: nat)
    requires Tidy(s) && BoundAt(s, c) && c < |s.campaigns|
    ensures BoundAt(Unsubscribe(s, k), c) && SchedulesKept(s, Unsubscribe(s, k))
  {
    if LinkWorks(s, k) {
      var contact, channel := s.capabilities[k].contact, s.capabilities[k].channel;
      var t := LinkUsed(s, k);
      SettlingNothingKeepsBound(s, t, c);
      UnsubscribeKeepsBound(t, contact, channel, |t.messages|, c);
      var u := UnsubscribeUpTo(t, contact, channel, |t.messages|);
      RefreshUpToShape(u, AffectedCampaigns(t, contact, channel), |t.campaigns|);
      SettlingNothingKeepsBound(u, Unsubscribe(s, k), c);
    }
  }

  // ---- Campaign operations ----

  lemma CancelKeepsBound(s: State, d: nat, c: nat)
    requires Tidy(s) && BoundAt(s, c) && c < |s.campaigns| && d < |s.campaigns| && Cancel(s, d).Ok?
    ensures BoundAt(Cancel(s, d).value, c)
  {
    var t := Cancel(s, d).value;
    ReleaseIsExact(s.sms, d, s.sms.accounts[d].reserved);
    if c == d {
      UnsettledNonNegative(t, c, t.sms.accounts[c].allowance);
    } else {
      var a := s.sms.accounts[c].allowance;
      SumEqual(UnsettledOf(s, c, a), UnsettledOf(t, c, a), |s.messages|);
    }
  }

  lemma AppendedUnsettled(s: State, t: State, c: nat, a: Option<nat>)
    requires t.flights == s.flights && |t.messages| == |s.messages| + 1 && t.messages[..|s.messages|] == s.messages
    requires forall f :: 0 <= f < |s.flights| ==> s.flights[f].message < |s.messages|
    requires t.messages[|s.messages|].status == Queued
    ensures var row := t.messages[|s.messages|];
            Unsettled(t, c, a)
            == Unsettled(s, c, a) + if row.campaign == Some(c) && row.allowance == a then row.segments else 0
  {
    assert forall m :: 0 <= m < |s.messages| ==> t.messages[m] == t.messages[..|s.messages|][m];
    SumEqual(UnsettledOf(s, c, a), UnsettledOf(t, c, a), |s.messages|);
  }

  lemma TestKeepsBound(s: State, d: nat, confirmed: bool, c: nat)
    requires Tidy(s) && BoundAt(s, c) && c < |s.campaigns| && d < |s.campaigns|
    requires QueueTest(s, d, confirmed).Ok? && !Crosses(s, TestSend(d, confirmed))
    ensures BoundAt(QueueTest(s, d, confirmed).value, c)
  {
    var t := QueueTest(s, d, confirmed).value;
    AppendedUnsettled(s, t, c, t.sms.accounts[c].allowance);
    UnsettledNonNegative(s, c, t.sms.accounts[c].allowance);
  }

  lemma LaunchKeepsBound(s: State, d: nat, audience: set<nat>, valid: bool, confirmed: bool, c: nat)
    requires Tidy(s) && BoundAt(s, c) && c < |s.campaigns| && d < |s.campaigns|
    requires Launch(s, d, audience, valid, confirmed).Ok?
    ensures BoundAt(Launch(s, d, audience, valid, confirmed).value, c)
  {
    if c != d {
      SettlingNothingKeepsBound(s, Launched(s, d, audience), c);
    }
  }

  lemma AddCampaignKeepsBound(s: State, channel: Channel, body: string, scheduledFor: Option<nat>, c: nat)
    requires Tidy(s) && (c < |s.campaigns| ==> BoundAt(s, c))
    ensures BoundAt(Next(s, AddCampaign(channel, body, scheduledFor)), c)
  {
    var t := Next(s, AddCampaign(channel, body, scheduledFor));
    if c < |s.campaigns| {
      UnsettledGrows(s, t, c, s.sms.accounts[c].allowance);
    } else {
      UnsettledNonNegative(t, c, None);
    }
  }

  lemma TransactionalKeepsBound(s: State, channel: Channel, addressee: Option<nat>, c: nat)
    requires Tidy(s) && BoundAt(s, c) && c < |s.campaigns|
    ensures BoundAt(Next(s, QueueTransactional(channel, addressee)), c)
  {
    AppendedUnsettled(s, Next(s, QueueTransactional(channel, addressee)), c, s.sms.accounts[c].allowance);
  }

  lemma OtherStepKeepsBound(s: State, step: Step, c: nat)
    requires Tidy(s) && BoundAt(s, c) && c < |s.campaigns|
    requires step.Tick? || step.AddContact? || step.EditContact? || step.SetConsent? || step.OpenPeriod?
             || step.Reclaim? || step.ProviderCallback?
    ensures BoundAt(Next(s, step), c)
  {
    SettlingNothingKeepsBound(s, Next(s, step), c);
  }

  // ---- Expansion ----

  predicate Due(s: State, c: nat)
    requires c < |s.campaigns|
  {
    && s.campaigns[c].status == Scheduled && !SenderProblem(s.site, s.campaigns[c].channel)
    && (s.campaigns[c].scheduledFor.Some? ==> s.campaigns[c].scheduledFor.value <= s.now)
  }

  /** New messages of campaign `d`: what is owed grows as what is unsettled does. */
  lemma AppendedAlike(s: State, t: State, d: nat, c: nat, a: Option<nat>)
    requires d < |s.campaigns| && Appends(s, t, d)
    requires forall f :: 0 <= f < |s.flights| ==> s.flights[f].message < |s.messages|
    requires d < |s.sms.accounts|
    ensures Unsettled(t, c, a) == Unsettled(s, c, a)
            + if c == d && a == s.sms.accounts[d].allowance then Owed(t.messages, d) - Owed(s.messages, d) else 0
  {
    var n, k := |s.messages|, |t.messages|;
    assert forall m :: 0 <= m < n ==> t.messages[m] == s.messages[m];
    assert forall m :: n <= m < k ==> NewCampaignMessage(s, t.messages[m], d);
    if c == d && a == s.sms.accounts[d].allowance {
      SumTailsAgree(UnsettledOf(s, c, a), UnsettledOf(t, c, a), OwedOf(s.messages, d), OwedOf(t.messages, d), n, k);
    } else {
      SumEqual(UnsettledOf(s, c, a), UnsettledOf(t, c, a), n);
      SumConstantTail(UnsettledOf(t, c, a), n, k, 0);
    }
  }
}
