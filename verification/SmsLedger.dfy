/**
  The ledger of SMS segments (communications/campaigns.py): monthly allowances, what each campaign
  still has reserved from one, and the usage events that record every movement.
  */
module SmsLedger {
  import opened Wrappers
  import opened Sums

  datatype Allowance = Allowance(included: nat, purchased: nat, reserved: nat, sent: nat)

  /** The `sms_reserved_segments` and `sms_allowance` columns of a campaign. */
  datatype Account = Account(reserved: nat, allowance: Option<nat>)

  datatype Action = Reserved | Accepted | Released
  datatype UsageEvent = UsageEvent(campaign: nat, allowance: nat, action: Action, segments: nat)
  datatype Ledger = Ledger(allowances: seq<Allowance>, accounts: seq<Account>, usage: seq<UsageEvent>)

  function Remaining(a: Allowance): nat {
    Max(0, a.included + a.purchased - a.reserved - a.sent)
  }

  function RemainingIn(l: Ledger, period: nat): nat {
    if period < |l.allowances| then Remaining(l.allowances[period]) else 0
  }

  // ---- Movements ----

  /** A launch sets the campaign's reservation, whatever it was. */
  function ReserveForLaunch(l: Ledger, c: nat, period: nat, segments: nat): Ledger {
    if c >= |l.accounts| || period >= |l.allowances| then l
    else
      var a := l.allowances[period];
      Ledger(l.allowances[period := a.(reserved := a.reserved + segments)],
             l.accounts[c := Account(segments, Some(period))],
             l.usage + [UsageEvent(c, period, Reserved, segments)])
  }

  /** A test send adds to it. */
  function ReserveForTest(l: Ledger, c: nat, period: nat, segments: nat): Ledger {
    if c >= |l.accounts| || period >= |l.allowances| then l
    else
      var a := l.allowances[period];
      Ledger(l.allowances[period := a.(reserved := a.reserved + segments)],
             l.accounts[c := Account(l.accounts[c].reserved + segments, Some(period))],
             l.usage + [UsageEvent(c, period, Reserved, segments)])
  }

  function Least(a: nat, b: nat, c: nat): nat {
    Min(a, Min(b, c))
  }

  /** `_release_sms_locked` */
  function Release(l: Ledger, c: nat, segments: nat): Ledger {
    if c >= |l.accounts| || l.accounts[c].allowance.None? || l.accounts[c].allowance.value >= |l.allowances| then l
    else
      var account := l.accounts[c];
      var a := l.allowances[account.allowance.value];
      var released := Least(segments, a.reserved, account.reserved);
      if released == 0 then l
      else Ledger(l.allowances[account.allowance.value := a.(reserved := a.reserved - released)],
                  l.accounts[c := account.(reserved := account.reserved - released)],
                  l.usage + [UsageEvent(c, account.allowance.value, Released, released)])
  }

  /** `consume_sms_for_message`, from the allowance the message was created under. */
  function Consume(l: Ledger, c: nat, allowance: Option<nat>, segments: nat): Ledger {
    if segments == 0 || c >= |l.accounts| || allowance.None? || allowance.value >= |l.allowances| then l
    else
      var account := l.accounts[c];
      var a := l.allowances[allowance.value];
      var used := Least(segments, a.reserved, account.reserved);
      Ledger(l.allowances[allowance.value := a.(reserved := a.reserved - used, sent := a.sent + used)],
             l.accounts[c := account.(reserved := account.reserved - used)],
             l.usage + [UsageEvent(c, allowance.value, Accepted, used)])
  }

  // ---- Reconciliation ----

  function UsageOf(usage: seq<UsageEvent>, allowance: nat, action: Action): nat -> int {
    (k: nat) =>
      if k < |usage| && usage[k].allowance == allowance && usage[k].action == action then usage[k].segments else 0
  }

  function Total(usage: seq<UsageEvent>, allowance: nat, action: Action): int {
    Sum(UsageOf(usage, allowance, action), |usage|)
  }

  /** An allowance's counters are what its usage events add up to, and it never gives more than it has. */
  ghost predicate Reconciled(l: Ledger, a: nat)
    requires a < |l.allowances|
  {
    && l.allowances[a].reserved == Total(l.usage, a, Reserved) - Total(l.usage, a, Accepted) - Total(l.usage, a, Released)
    && l.allowances[a].sent == Total(l.usage, a, Accepted)
    && l.allowances[a].reserved + l.allowances[a].sent <= l.allowances[a].included + l.allowances[a].purchased
  }

  ghost predicate Reconciles(l: Ledger) {
    && (forall a: nat :: a < |l.allowances| ==> Reconciled(l, a))
    && (forall k :: 0 <= k < |l.usage| ==> l.usage[k].allowance < |l.allowances|)
  }

  lemma OneMoreUsage(usage: seq<UsageEvent>, e: UsageEvent, a: nat, action: Action)
    ensures Total(usage + [e], a, action)
            == Total(usage, a, action) + if e.allowance == a && e.action == action then e.segments else 0
  {
    SumEqual(UsageOf(usage, a, action), UsageOf(usage + [e], a, action), |usage|);
  }

  /** A movement that books `e` and changes one allowance's counters accordingly keeps the ledger reconciled. */
  lemma BookedMovement(l: Ledger, t: Ledger, e: UsageEvent)
    requires Reconciles(l) && e.allowance < |l.allowances| == |t.allowances|
    requires t.usage == l.usage + [e]
    requires forall a :: 0 <= a < |l.allowances| && a != e.allowance ==> t.allowances[a] == l.allowances[a]
    requires var old_, new_ := l.allowances[e.allowance], t.allowances[e.allowance];
             && new_.included == old_.included && new_.purchased == old_.purchased
             && new_.reserved == old_.reserved + (if e.action == Reserved then e.segments else 0 - e.segments)
             && new_.sent == old_.sent + (if e.action == Accepted then e.segments else 0)
             && new_.reserved + new_.sent <= new_.included + new_.purchased
    ensures Reconciles(t)
  {
    forall a: nat | a < |t.allowances|
      ensures Reconciled(t, a)
    {
      assert Reconciled(l, a);
      OneMoreUsage(l.usage, e, a, Reserved);
      OneMoreUsage(l.usage, e, a, Accepted);
      OneMoreUsage(l.usage, e, a, Released);
    }
  }

  lemma ReserveReconciles(l: Ledger, c: nat, period: nat, segments: nat)
    requires Reconciles(l) && segments <= RemainingIn(l, period)
    ensures Reconciles(ReserveForLaunch(l, c, period, segments))
    ensures Reconciles(ReserveForTest(l, c, period, segments))
  {
    if c < |l.accounts| && period < |l.allowances| {
      assert Reconciled(l, period);
      BookedMovement(l, ReserveForLaunch(l, c, period, segments), UsageEvent(c, period, Reserved, segments));
      BookedMovement(l, ReserveForTest(l, c, period, segments), UsageEvent(c, period, Reserved, segments));
    }
  }

  lemma ReleaseReconciles(l: Ledger, c: nat, segments: nat)
    requires Reconciles(l)
    ensures Reconciles(Release(l, c, segments))
  {
    var t := Release(l, c, segments);
    if t != l {
      assert Reconciled(l, l.accounts[c].allowance.value);
      BookedMovement(l, t, t.usage[|l.usage|]);
    }
  }

  lemma ConsumeReconciles(l: Ledger, c: nat, allowance: Option<nat>, segments: nat)
    requires Reconciles(l)
    ensures Reconciles(Consume(l, c, allowance, segments))
  {
    var t := Consume(l, c, allowance, segments);
    if t != l {
      assert Reconciled(l, allowance.value);
      BookedMovement(l, t, t.usage[|l.usage|]);
    }
  }

  /** Opening a month brings an allowance without movements. */
  lemma {:induction false} NewPeriodReconciles(l: Ledger, included: nat, purchased: nat)
    requires Reconciles(l)
    ensures Reconciles(l.(allowances := l.allowances + [Allowance(included, purchased, 0, 0)]))
  {
    var t := l.(allowances := l.allowances + [Allowance(included, purchased, 0, 0)]);
    forall a: nat | a < |t.allowances|
      ensures Reconciled(t, a)
    {
      if a < |l.allowances| {
        assert Reconciled(l, a);
      } else {
        SumZero(UsageOf(t.usage, a, Reserved), |t.usage|);
        SumZero(UsageOf(t.usage, a, Accepted), |t.usage|);
        SumZero(UsageOf(t.usage, a, Released), |t.usage|);
      }
    }
  }

  // ---- Which allowance backs which campaign ----

  function HeldOf(l: Ledger, a: nat): nat -> int {
    (c: nat) => if c < |l.accounts| && l.accounts[c].allowance == Some(a) then l.accounts[c].reserved else 0
  }

  /** What the campaigns together hold from the allowance. */
  function Held(l: Ledger, a: nat): int {
    Sum(HeldOf(l, a), |l.accounts|)
  }

  /** What the allowance counts as reserved and no campaign holds from it; less than nothing if campaigns hold more than it counts. */
  function Slack(l: Ledger, a: nat): int {
    (if a < |l.allowances| then l.allowances[a].reserved else 0) - Held(l, a)
  }

  /** A campaign that holds segments holds them from an allowance that exists. */
  ghost predicate Placed(l: Ledger) {
    forall c :: 0 <= c < |l.accounts| ==>
      match l.accounts[c].allowance
      case Some(a) => a < |l.allowances|
      case None => l.accounts[c].reserved == 0
  }

  /** Every allowance counts at least what campaigns hold from it. */
  ghost predicate Backed(l: Ledger) {
    Placed(l) && forall a: nat :: a < |l.allowances| ==> Slack(l, a) >= 0
  }

  function HeldBy(account: Account, a: nat): nat {
    if account.allowance == Some(a) then account.reserved else 0
  }

  lemma AccountMoves(l: Ledger, t: Ledger, c: nat, a: nat)
    requires c < |l.accounts| == |t.accounts|
    requires forall d :: 0 <= d < |l.accounts| && d != c ==> t.accounts[d] == l.accounts[d]
    ensures Held(t, a) == Held(l, a) - HeldBy(l.accounts[c], a) + HeldBy(t.accounts[c], a)
  {
    SumOneChange(HeldOf(l, a), HeldOf(t, a), |l.accounts|, c);
  }

  lemma HeldWithinTotal(l: Ledger, c: nat, a: nat)
    requires c < |l.accounts|
    ensures HeldBy(l.accounts[c], a) <= Held(l, a)
  {
    forall d: nat | d < |l.accounts|
      ensures 0 <= HeldOf(l, a)(d)
    {
      assert l.accounts[d].reserved >= 0;
    }
    SumAtLeast(HeldOf(l, a), |l.accounts|, c);
  }

  /** A launch leaves what the campaign held before to nobody, in the allowance it was held from. */
  lemma LaunchStrands(l: Ledger, c: nat, period: nat, segments: nat, a: nat)
    requires c < |l.accounts| && period < |l.allowances|
    ensures var t := ReserveForLaunch(l, c, period, segments);
            Slack(t, a) == Slack(l, a) + HeldBy(l.accounts[c], a)
  {
    AccountMoves(l, ReserveForLaunch(l, c, period, segments), c, a);
  }

  /** A test takes what the campaign held over to the present month's allowance, which does not count it. */
  lemma TestMovesHolding(l: Ledger, c: nat, period: nat, segments: nat, a: nat)
    requires c < |l.accounts| && period < |l.allowances|
    ensures var t := ReserveForTest(l, c, period, segments);
            Slack(t, a) == Slack(l, a) + HeldBy(l.accounts[c], a) - if a == period then l.accounts[c].reserved else 0
  {
    AccountMoves(l, ReserveForTest(l, c, period, segments), c, a);
  }

  lemma ReleaseMoves(l: Ledger, c: nat, segments: nat, a: nat)
    ensures Slack(Release(l, c, segments), a) == Slack(l, a)
  {
    var t := Release(l, c, segments);
    if t != l {
      AccountMoves(l, t, c, a);
    }
  }

  /** What consuming a message's segments takes from the message's allowance and off the campaign. */
  function Consumed(l: Ledger, c: nat, allowance: Option<nat>, segments: nat): nat {
    if c >= |l.accounts| || allowance.None? || allowance.value >= |l.allowances| then 0
    else Least(segments, l.allowances[allowance.value].reserved, l.accounts[c].reserved)
  }

  /** A message paid from one allowance uses up a campaign's holding from another. */
  lemma ConsumeMoves(l: Ledger, c: nat, allowance: Option<nat>, segments: nat, a: nat)
    ensures var t, used := Consume(l, c, allowance, segments), Consumed(l, c, allowance, segments);
            Slack(t, a) == Slack(l, a) + (if c < |l.accounts| && l.accounts[c].allowance == Some(a) then used else 0)
                                       - (if allowance == Some(a) then used else 0)
  {
    var t := Consume(l, c, allowance, segments);
    if t != l {
      AccountMoves(l, t, c, a);
    }
  }

  /**
    A test leaves every campaign's holding with an allowance that counts it, as far as it did before,
    if and only if the campaign holds nothing or holds it from the present month already.
    */
  lemma TestKeepsBackingExactly(l: Ledger, c: nat, period: nat, segments: nat)
    requires c < |l.accounts| && period < |l.allowances| && Placed(l)
    ensures var t := ReserveForTest(l, c, period, segments);
            (forall a: nat :: a < |l.allowances| ==> Slack(t, a) == Slack(l, a))
            <==> l.accounts[c].reserved == 0 || l.accounts[c].allowance == Some(period)
  {
    forall a: nat
      ensures Slack(ReserveForTest(l, c, period, segments), a)
              == Slack(l, a) + HeldBy(l.accounts[c], a) - if a == period then l.accounts[c].reserved else 0
    {
      TestMovesHolding(l, c, period, segments, a);
    }
    assert Slack(ReserveForTest(l, c, period, segments), period)
           == Slack(l, period) + HeldBy(l.accounts[c], period) - l.accounts[c].reserved;
  }

  // ---- Movements on a backed ledger take what they are asked for ----

  /** One movement on one campaign's account: `asked` is taken off it, as far as it goes. */
  ghost predicate TakenOff(l: Ledger, t: Ledger, c: nat, asked: nat) {
    && |t.accounts| == |l.accounts| && |t.allowances| == |l.allowances|
    && (forall d :: 0 <= d < |l.accounts| && d != c ==> t.accounts[d] == l.accounts[d])
    && (c < |l.accounts| ==> t.accounts[c] == l.accounts[c].(reserved := Max(0, l.accounts[c].reserved - asked)))
  }

  /** A release gives back all it is asked to, up to what the campaign holds. */
  lemma ReleaseIsExact(l: Ledger, c: nat, segments: nat)
    requires Backed(l)
    ensures var t := Release(l, c, segments); TakenOff(l, t, c, segments) && Backed(t)
  {
    var t := Release(l, c, segments);
    if c < |l.accounts| && l.accounts[c].allowance.Some? {
      HeldWithinTotal(l, c, l.accounts[c].allowance.value);
      assert Slack(l, l.accounts[c].allowance.value) >= 0;
    }
    forall a: nat | a < |t.allowances|
      ensures Slack(t, a) >= 0
    {
      ReleaseMoves(l, c, segments, a);
    }
  }

  /** So does consumption, when the message is paid from the allowance the campaign holds its segments from. */
  lemma ConsumeIsExact(l: Ledger, c: nat, allowance: Option<nat>, segments: nat)
    requires Backed(l) && c < |l.accounts|
    requires l.accounts[c].allowance == allowance || Consumed(l, c, allowance, segments) == 0
    ensures var t := Consume(l, c, allowance, segments);
            && TakenOff(l, t, c, if l.accounts[c].allowance == allowance then segments else 0)
            && Backed(t)
  {
    var t := Consume(l, c, allowance, segments);
    if allowance.Some? && allowance.value < |l.allowances| {
      HeldWithinTotal(l, c, allowance.value);
      assert Slack(l, allowance.value) >= 0;
    }
    forall a: nat | a < |t.allowances|
      ensures Slack(t, a) >= 0
    {
      ConsumeMoves(l, c, allowance, segments, a);
    }
  }
}
