/**
  Runs that lose segments. One test SMS is queued; its last worker is killed, or a worker is killed
  between recording an acceptance and booking it, or a later month's test moves the reservation.
  */
module LostSegments {
  import opened Wrappers
  import opened Segments
  import opened Messages
  import opened SmsLedger
  import opened Messaging
  import opened Delivery
  import opened Backing
  import opened Settling
  import opened Finished

  const HERE: Site := Site("h", false, true, false)
  const START: State := Initial(HERE, 10, 0)
  const CAMPAIGN: Campaign := Campaign(Sms, Draft, "a", None, 0, 0, 0, 0)
  const ROW: Message := Message(Sms, None, Some(0), None, false, Queued, 0, 0, 0, None, 1, Some(0), NO_STAMPS)
  const RESERVED: Ledger := Ledger([Allowance(10, 0, 1, 0)], [Account(1, Some(0))], [UsageEvent(0, 0, Reserved, 1)])

  /** The site with its one test message, and the segment reserved for it. */
  function With(now: nat, row: Message, flights: seq<Flight>): State {
    State(HERE, now, 0, [], [CAMPAIGN], [], [row], [], RESERVED, flights, {})
  }

  lemma {:induction false} RunOfConcat(s: State, a: seq<Step>, b: seq<Step>)
    ensures Run(s, a + b) == Run(Run(s, a), b)
  {
    if b == [] {
      assert a + b == a;
    } else {
      RunOfConcat(s, a, b[..|b| - 1]);
      assert (a + b)[..|a + b| - 1] == a + b[..|b| - 1];
    }
  }

  lemma OneMore(s: State, steps: seq<Step>, last: Step)
    ensures Run(s, steps + [last]) == Next(Run(s, steps), last)
  {
    assert (steps + [last])[..|steps|] == steps;
  }

  lemma Then(start: State, steps: seq<Step>, last: Step, s: State, t: State)
    requires Run(start, steps) == s && Next(s, last) == t
    ensures Run(start, steps + [last]) == t
  {
    OneMore(start, steps, last);
  }

  lemma OneStep(s: State, step: Step)
    ensures Run(s, [step]) == Next(s, step)
  {
    OneMore(s, [], step);
    assert [] + [step] == [step];
  }

  lemma OneSegment()
    ensures TestSegments(CAMPAIGN) == 1
  {
    var text := ChargedTest(CAMPAIGN.body);
    assert text == "TEST: a";
    EstimatedAtOne(text);
  }

  const OPENING: seq<Step> := [AddCampaign(Sms, "a", None), TestSend(0, true)]

  lemma Opened()
    ensures Run(START, OPENING) == With(0, ROW, [])
  {
    OneSegment();
    var s := Next(START, OPENING[0]);
    assert OPENING[..1] == [OPENING[0]];
    OneStep(START, OPENING[0]);
    assert s.campaigns == [CAMPAIGN];
    assert QueueTest(s, 0, true).Ok?;
    assert QueueTest(s, 0, true).value == With(0, ROW, []);
  }

  // ---- One worker after another ----

  predicate CanTry(now: nat, row: Message) {
    && (row.status == Queued || row.status == Failed) && row.attempts < MAX_ATTEMPTS && row.availableAt <= now
    && row.contact.None? && row.recipient.None? && row.campaign == Some(0)
  }

  function Tried(now: nat, row: Message): Message {
    row.(status := Processing, attempts := row.attempts + 1, updatedAt := now)
  }

  function Out(attempts: nat): Flight { Flight(0, attempts, Calling, false, false) }

  function Down(flight: Flight): Flight { flight.(stage := Landed) }

  lemma TakeOff(now: nat, row: Message, flights: seq<Flight>)
    requires CanTry(now, row)
    ensures Next(With(now, row, flights), ClaimMessage(0))
            == With(now, Tried(now, row), flights + [Out(row.attempts + 1)])
  {
    assert [row][0 := Tried(now, row)] == [Tried(now, row)];
  }

  function FailedRow(now: nat, row: Message, attempts: nat): Message {
    row.(status := Failed, availableAt := now + Backoff(attempts), updatedAt := now)
  }

  /** A worker below the limit gets an error: it records it and is done. */
  lemma GiveUp(now: nat, row: Message, flights: seq<Flight>, f: nat, attempts: nat)
    requires f < |flights| && flights[f] == Out(attempts) && attempts < MAX_ATTEMPTS && row.recipient.None?
    ensures Next(Next(With(now, row, flights), ProviderRaises(f)), WorkerGoesOn(f))
            == With(now, FailedRow(now, row, attempts), flights[f := Down(Out(attempts))])
  {
    var t := Next(With(now, row, flights), ProviderRaises(f));
    assert t == With(now, FailedRow(now, row, attempts), flights[f := Out(attempts).(stage := Recorded)]);
  }

  lemma Die(now: nat, row: Message, flights: seq<Flight>, f: nat)
    requires f < |flights|
    ensures Next(With(now, row, flights), WorkerDies(f)) == With(now, row, flights[f := Down(flights[f])])
  {
  }

  /** An attempt that fails, and the longest wait there is. */
  function Round(f: nat): seq<Step> {
    [ClaimMessage(0)] + [ProviderRaises(f)] + [WorkerGoesOn(f)] + [Tick(3600)]
  }

  lemma OneRound(now: nat, row: Message, flights: seq<Flight>)
    requires CanTry(now, row) && row.attempts + 1 < MAX_ATTEMPTS
    ensures var after := FailedRow(now, Tried(now, row), row.attempts + 1);
            && Run(With(now, row, flights), Round(|flights|))
               == With(now + 3600, after, flights + [Down(Out(row.attempts + 1))])
            && CanTry(now + 3600, after)
  {
    var s := With(now, row, flights);
    var f, flown := |flights|, flights + [Out(row.attempts + 1)];
    OneStep(s, ClaimMessage(0));
    TakeOff(now, row, flights);
    GiveUp(now, Tried(now, row), flown, |flights|, row.attempts + 1);
    assert flown[|flights| := Down(Out(row.attempts + 1))] == flights + [Down(Out(row.attempts + 1))];
    OneMore(s, [ClaimMessage(0)], ProviderRaises(f));
    OneMore(s, [ClaimMessage(0)] + [ProviderRaises(f)], WorkerGoesOn(f));
    OneMore(s, [ClaimMessage(0)] + [ProviderRaises(f)] + [WorkerGoesOn(f)], Tick(3600));
    BackoffWithinAnHour(row.attempts + 1);
  }

  lemma BackoffWithinAnHour(attempts: nat)
    ensures Backoff(attempts) <= 3600
  {
  }

  // ---- Killed between recording and booking ----

  const CLAIMED: seq<Step> := OPENING + [ClaimMessage(0)]

  lemma FirstTakeOff()
    ensures Next(With(0, ROW, []), ClaimMessage(0)) == With(0, Tried(0, ROW), [Out(1)])
  {
    TakeOff(0, ROW, []);
    assert [] + [Out(1)] == [Out(1)];
  }

  lemma FirstClaim()
    ensures Run(START, CLAIMED) == With(0, Tried(0, ROW), [Out(1)])
  {
    Opened();
    FirstTakeOff();
    ClaimedIs(With(0, ROW, []), With(0, Tried(0, ROW), [Out(1)]));
  }

  /** A run of `CLAIMED` is a run of the opening and one more step. */
  lemma ClaimedIs(s: State, t: State)
    requires Run(START, OPENING) == s && Next(s, ClaimMessage(0)) == t
    ensures Run(START, CLAIMED) == t
  {
    OneMore(START, OPENING, ClaimMessage(0));
  }

  const KILLED_AFTER_SENDING: seq<Step> := CLAIMED + [ProviderAccepts(0, 7)] + [WorkerDies(0)]

  const SENT_ROW: Message := Tried(0, ROW).(
    status := Sent, providerId := Some(7), stamps := NO_STAMPS.(sentAt := Some(0)))

  const KILLED: Flight := Flight(0, 1, Landed, true, false)

  lemma LastWorkerKilled()
    ensures Run(START, KILLED_AFTER_SENDING) == With(0, SENT_ROW, [KILLED])
  {
    FirstClaim();
    Accept(0, Tried(0, ROW), [Out(1)], 0, 1);
    Die(0, SENT_ROW, [KILLED.(stage := Recorded)], 0);
    var sent := With(0, SENT_ROW, [KILLED.(stage := Recorded)]);
    Then(START, CLAIMED, ProviderAccepts(0, 7), With(0, Tried(0, ROW), [Out(1)]), sent);
    Then(START, CLAIMED + [ProviderAccepts(0, 7)], WorkerDies(0), sent, With(0, SENT_ROW, [KILLED]));
  }

  function SentAs(now: nat, row: Message): Message {
    row.(status := Sent, providerId := Some(7), updatedAt := now, stamps := row.stamps.(sentAt := Some(now)))
  }

  lemma Accept(now: nat, row: Message, flights: seq<Flight>, f: nat, attempts: nat)
    requires f < |flights| && flights[f] == Out(attempts)
    ensures Next(With(now, row, flights), ProviderAccepts(f, 7))
            == With(now, SentAs(now, row), flights[f := Flight(0, attempts, Recorded, true, false)])
  {
  }

  /** All workers are gone, and the ones that were to settle the message did not. */
  lemma NothingLeftToDo(now: nat, row: Message, flights: seq<Flight>, k: nat)
    requires Final(row) && !TakenOut(row) && row.campaign == Some(0)
    requires forall f :: 0 <= f < |flights| ==> flights[f].message == 0 && flights[f].stage.Landed? && !flights[f].settled
    requires k < |flights| && Seals(flights[k])
    ensures var s := With(now, row, flights); Stuck(s, 0) && AllFinal(s, 0) && Resting(s, 0)
  {
    assert Killed(flights[k]);
  }

  /** The message went out, nobody is at work on it, and its segment stays reserved. */
  lemma AcceptedAndKilled()
    ensures var s := Run(START, KILLED_AFTER_SENDING);
            && |s.messages| == 1 && s.messages[0].status == Sent && Stuck(s, 0) && AllFinal(s, 0) && Resting(s, 0)
            && s.sms.accounts == [Account(1, Some(0))]
  {
    LastWorkerKilled();
    NothingLeftToDo(0, SENT_ROW, [KILLED], 0);
  }

  // ---- A stale worker fails the message after the last one was killed ----

  const WAITED: seq<Step> := CLAIMED + [Tick(STALE_SECONDS)]
  const RECLAIMED: seq<Step> := WAITED + [Reclaim]
  const ROUNDS: seq<Step> := Round(1) + Round(2) + Round(3)
  const LAST: seq<Step> := [ClaimMessage(0)] + [WorkerDies(4)] + [ProviderRaises(0)] + [WorkerGoesOn(0)]

  lemma Waited()
    ensures Run(START, WAITED) == With(STALE_SECONDS, Tried(0, ROW), [Out(1)])
  {
    FirstClaim();
    Then(START, CLAIMED, Tick(STALE_SECONDS),
         With(0, Tried(0, ROW), [Out(1)]), With(STALE_SECONDS, Tried(0, ROW), [Out(1)]));
  }

  lemma TakenBack()
    ensures Run(START, RECLAIMED) == With(STALE_SECONDS, ROW.(attempts := 1), [Out(1)])
  {
    Waited();
    PutBack(STALE_SECONDS, Tried(0, ROW));
    Then(START, WAITED, Reclaim, With(STALE_SECONDS, Tried(0, ROW), [Out(1)]),
         With(STALE_SECONDS, ROW.(attempts := 1), [Out(1)]));
  }

  lemma PutBack(now: nat, row: Message)
    requires Stale(row, now)
    ensures Next(With(now, row, [Out(1)]), Reclaim) == With(now, row.(status := Queued), [Out(1)])
  {
  }

  /** The first worker is still calling the provider; the ones after it have failed. */
  function Failures(n: nat): seq<Flight> {
    if n == 0 then [Out(1)] else Failures(n - 1) + [Down(Out(n + 1))]
  }

  /** A message that has been tried this often, and may be tried again. */
  ghost predicate TriedSoFar(s: State, attempts: nat, flights: seq<Flight>) {
    && |s.messages| == 1 && s == With(s.now, s.messages[0], flights)
    && CanTry(s.now, s.messages[0]) && s.messages[0].attempts == attempts && s.messages[0].providerId.None?
  }

  lemma NextRound(s: State, n: nat)
    requires n < 3 && TriedSoFar(s, n + 1, Failures(n)) && |Failures(n)| == n + 1
    ensures TriedSoFar(Run(s, Round(n + 1)), n + 2, Failures(n + 1)) && |Failures(n + 1)| == n + 2
  {
    OneRound(s.now, s.messages[0], Failures(n));
  }

  lemma AllRounds(s: State)
    requires TriedSoFar(s, 1, Failures(0))
    ensures TriedSoFar(Run(s, ROUNDS), 4, Failures(3))
  {
    NextRound(s, 0);
    RunOfConcat(s, Round(1), Round(2));
    NextRound(Run(s, Round(1)), 1);
    RunOfConcat(s, Round(1) + Round(2), Round(3));
    NextRound(Run(s, Round(1) + Round(2)), 2);
  }

  /** The last attempt is killed, and the first worker, which has been waiting all along, gets an error. */
  lemma LastRound(s: State)
    requires TriedSoFar(s, 4, Failures(3))
    ensures var row := FailedRow(s.now, Tried(s.now, s.messages[0]), 1);
            Run(s, LAST) == With(s.now, row, [Down(Out(1)), Down(Out(2)), Down(Out(3)), Down(Out(4)), Down(Out(5))])
  {
    var now, row := s.now, s.messages[0];
    var flown := Failures(3) + [Out(5)];
    OneStep(s, ClaimMessage(0));
    TakeOff(now, row, Failures(3));
    OneMore(s, [ClaimMessage(0)], WorkerDies(4));
    Die(now, Tried(now, row), flown, 4);
    var dead := flown[4 := Down(Out(5))];
    OneMore(s, [ClaimMessage(0)] + [WorkerDies(4)], ProviderRaises(0));
    OneMore(s, [ClaimMessage(0)] + [WorkerDies(4)] + [ProviderRaises(0)], WorkerGoesOn(0));
    GiveUp(now, Tried(now, row), dead, 0, 1);
    assert dead[0 := Down(Out(1))] == [Down(Out(1)), Down(Out(2)), Down(Out(3)), Down(Out(4)), Down(Out(5))];
  }

  const KILLED_AT_LIMIT: seq<Step> := RECLAIMED + ROUNDS + LAST

  /** Out of attempts, nobody at work on it, and its segment stays reserved. */
  lemma StaleFailureLeaks()
    ensures var s := Run(START, KILLED_AT_LIMIT);
            && |s.messages| == 1 && s.messages[0].status == Failed && Stuck(s, 0) && AllFinal(s, 0) && Resting(s, 0)
            && s.sms.accounts == [Account(1, Some(0))]
  {
    TakenBack();
    var s := Run(START, RECLAIMED);
    assert TriedSoFar(s, 1, Failures(0));
    RunOfConcat(START, RECLAIMED, ROUNDS);
    AllRounds(s);
    RunOfConcat(START, RECLAIMED + ROUNDS, LAST);
    var t := Run(s, ROUNDS);
    LastRound(t);
    var row := FailedRow(t.now, Tried(t.now, t.messages[0]), 1);
    NothingLeftToDo(t.now, row, [Down(Out(1)), Down(Out(2)), Down(Out(3)), Down(Out(4)), Down(Out(5))], 4);
  }

  // ---- A test in the next month ----

  const NEXT_MONTH: seq<Step> := OPENING + [OpenPeriod(10, 0)]
  const MOVED: Ledger := Ledger(
    [Allowance(10, 0, 1, 0), Allowance(10, 0, 1, 0)], [Account(2, Some(1))],
    [UsageEvent(0, 0, Reserved, 1), UsageEvent(0, 1, Reserved, 1)])

  lemma MonthOpened()
    ensures Run(START, NEXT_MONTH)
            == With(0, ROW, []).(period := 1,
                                 sms := RESERVED.(allowances := [Allowance(10, 0, 1, 0), Allowance(10, 0, 0, 0)]))
  {
    Opened();
    OneMore(START, OPENING, OpenPeriod(10, 0));
  }

  lemma TestedAgain()
    ensures var s := Run(START, NEXT_MONTH + [TestSend(0, true)]);
            s.sms == MOVED && s.campaigns == [CAMPAIGN] && Crosses(Run(START, NEXT_MONTH), TestSend(0, true))
  {
    MonthOpened();
    OneSegment();
    var s := Run(START, NEXT_MONTH);
    assert QueueTest(s, 0, true).Ok?;
    Then(START, NEXT_MONTH, TestSend(0, true), s, Next(s, TestSend(0, true)));
  }

  lemma CancelMoved(s: State)
    requires s.sms == MOVED && s.campaigns == [CAMPAIGN]
    ensures var t := Next(s, CancelCampaign(0));
            && t.campaigns == [CAMPAIGN.(status := CampaignCanceled)]
            && t.sms.accounts == [Account(1, Some(1))]
            && t.sms.allowances == [Allowance(10, 0, 1, 0), Allowance(10, 0, 0, 0)]
  {
    assert Release(MOVED, 0, 2).accounts == [Account(1, Some(1))];
  }

  /**
    Two tests, one in each month, and then the campaign is cancelled: one segment stays on it, which
    the second month does not count, and one stays reserved in the first month, which nobody holds.
    */
  lemma NextMonthTestStrands()
    ensures var s := Run(START, NEXT_MONTH + [TestSend(0, true)] + [CancelCampaign(0)]);
            && s.campaigns == [CAMPAIGN.(status := CampaignCanceled)]
            && s.sms.accounts == [Account(1, Some(1))]
            && s.sms.allowances == [Allowance(10, 0, 1, 0), Allowance(10, 0, 0, 0)]
  {
    TestedAgain();
    var s := Run(START, NEXT_MONTH + [TestSend(0, true)]);
    CancelMoved(s);
    Then(START, NEXT_MONTH + [TestSend(0, true)], CancelCampaign(0), s, Next(s, CancelCampaign(0)));
  }

  // ---- A launch over what a test had reserved ----

  const READER: Messages.Contact := Messages.Contact(false, true, true, Granted, Granted)

  const WITH_READER: seq<Step> := OPENING + [AddContact(READER)]
  const LAUNCHED: seq<Step> := WITH_READER + [LaunchCampaign(0, {0}, true, true)]

  lemma ReaderAdded()
    ensures Run(START, WITH_READER) == With(0, ROW, []).(contacts := [READER])
  {
    Opened();
    Then(START, OPENING, AddContact(READER), With(0, ROW, []), With(0, ROW, []).(contacts := [READER]));
  }

  lemma ReaderIsEligible(s: State)
    requires s.contacts == [READER] && s.campaigns == [CAMPAIGN] && s.site == HERE
    ensures CampaignPreview(s, 0, {0}) == Preview(1, 1, 0, 1)
  {
    ShortBodyEstimate("a", "h");
    assert AudienceIds(s.contacts, {0}, 1) == [0];
    assert CountEligible(s.contacts, Sms, [0][..0]) == 0;
    assert CountEligible(s.contacts, Sms, [0]) == 1;
  }

  lemma LaunchOver(s: State)
    requires s == With(0, ROW, []).(contacts := [READER])
    ensures var t := Next(s, LaunchCampaign(0, {0}, true, true));
            && t.sms.allowances == [Allowance(10, 0, 2, 0)] && t.sms.accounts == [Account(1, Some(0))]
            && |t.campaigns| == 1 && t.campaigns[0].status == Scheduled && t.campaigns[0].channel == Sms
  {
    ReaderIsEligible(s);
    assert LaunchRefusal(s, 0, {0}, true, true).None?;
  }

  /** A test reserves a segment, the launch sets the reservation anew, and after a cancellation the first segment is still reserved. */
  lemma LaunchStrandsTheTest()
    ensures Overwrites(Run(START, WITH_READER), LaunchCampaign(0, {0}, true, true), 0) == 1
    ensures var s := Run(START, LAUNCHED + [CancelCampaign(0)]);
            && s.sms.accounts == [Account(0, Some(0))] && s.sms.allowances == [Allowance(10, 0, 1, 0)]
            && |s.campaigns| == 1 && s.campaigns[0].status == CampaignCanceled
  {
    ReaderAdded();
    var s := With(0, ROW, []).(contacts := [READER]);
    LaunchOver(s);
    var t := Next(s, LaunchCampaign(0, {0}, true, true));
    Then(START, WITH_READER, LaunchCampaign(0, {0}, true, true), s, t);
    CancelLaunched(t);
    Then(START, LAUNCHED, CancelCampaign(0), t, Next(t, CancelCampaign(0)));
    LaunchOverwrites(s);
  }

  lemma CancelLaunched(s: State)
    requires s.sms.allowances == [Allowance(10, 0, 2, 0)] && s.sms.accounts == [Account(1, Some(0))]
    requires |s.campaigns| == 1 && s.campaigns[0].status == Scheduled && s.campaigns[0].channel == Sms
    ensures var t := Next(s, CancelCampaign(0));
            && t.sms.accounts == [Account(0, Some(0))] && t.sms.allowances == [Allowance(10, 0, 1, 0)]
            && |t.campaigns| == 1 && t.campaigns[0].status == CampaignCanceled
  {
  }

  lemma LaunchOverwrites(s: State)
    requires s == With(0, ROW, []).(contacts := [READER])
    ensures Overwrites(s, LaunchCampaign(0, {0}, true, true), 0) == 1
  {
    ReaderIsEligible(s);
    assert LaunchRefusal(s, 0, {0}, true, true).None?;
  }
}
