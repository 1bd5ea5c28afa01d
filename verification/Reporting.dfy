/**
  Grouped commerce reports against the simple sums they refine: the inventory map
  (payments/services.py) and the money columns of the comparisons (sites/reporting.py).
  */
module Reporting {
  import opened Wrappers
  import opened Sums
  import opened Commerce
  import opened CommerceTables

  // ---- ticket_inventory_map ----

  /** One grouped query for all types and one lookup each give what `TicketInventory` gives type by type. */
  method TicketInventoryMap(s: State, types: seq<nat>) returns (inventory: map<nat, Inventory>)
    requires forall t :: t in types ==> t < |s.setup.ticketTypes|
    ensures inventory.Keys == set t | t in types
    ensures forall t :: t in types ==> inventory[t] == TicketInventory(s, t)
  {
    var sold: map<nat, int> := map[];
    for i := 0 to |s.lines|
      invariant forall t :: t in types ==> LookUp(sold, t) == Sum(SoldOf(s, t), i)
    {
      if i < |s.orders| && s.lines[i].ticketType in types && Settled(s.orders[i].status) {
        sold := sold[s.lines[i].ticketType := LookUp(sold, s.lines[i].ticketType) + s.lines[i].quantity];
      }
    }
    var held: map<nat, int> := map[];
    for i := 0 to |s.holds|
      invariant forall t :: t in types ==> LookUp(held, t) == Sum(HeldOf(s, t), i)
    {
      if s.holds[i].ticketType in types && Live(s.holds[i], s.now) {
        held := held[s.holds[i].ticketType := LookUp(held, s.holds[i].ticketType) + s.holds[i].quantity];
      }
    }
    inventory := map[];
    for k := 0 to |types|
      invariant inventory.Keys == set t | t in types[..k]
      invariant forall t :: t in inventory ==> t in types && inventory[t] == TicketInventory(s, t)
    {
      var t := types[k];
      assert t in types;
      var quantity := s.setup.ticketTypes[t].quantity;
      inventory := inventory[t := Inventory(LookUp(sold, t), LookUp(held, t),
                                            Max(0, quantity - LookUp(sold, t) - LookUp(held, t)))];
      assert types[..k + 1] == types[..k] + [t];
    }
    assert types[..|types|] == types;
  }

  function LookUp(m: map<nat, int>, key: nat): int {
    if key in m then m[key] else 0
  }

  // ---- Money columns ----

  datatype Column = Gross | Refunds | StripeFees | PlatformFees | PlatformFeeRefunds

  function Amount(order: Order, column: Column): nat {
    match column
    case Gross => order.total
    case Refunds => order.refunded
    case StripeFees => order.stripeFee.GetOr(0)
    case PlatformFees => order.fee
    case PlatformFeeRefunds => order.feeRefunded
  }

  /** An order's contribution to a column: settled orders only. */
  function AmountOf(orders: seq<Order>, column: Column): nat -> int {
    (i: nat) => if i < |orders| && Settled(orders[i].status) then Amount(orders[i], column) else 0
  }

  function OccurrenceOf(orders: seq<Order>): nat -> int {
    (i: nat) => if i < |orders| then orders[i].occurrence else -1
  }

  function ColumnTotal(orders: seq<Order>, column: Column): int {
    Sum(AmountOf(orders, column), |orders|)
  }

  function ColumnFor(orders: seq<Order>, column: Column, occurrence: nat): int {
    Sum(InGroup(AmountOf(orders, column), OccurrenceOf(orders), occurrence), |orders|)
  }

  datatype Summary = Summary(gross: int, stripeFees: int, platformFeeNet: int, refunds: int, net: int)

  /** The ticket figures of `commerce_summary`. */
  function CommerceSummary(orders: seq<Order>): Summary {
    var platformNet := ColumnTotal(orders, PlatformFees) - ColumnTotal(orders, PlatformFeeRefunds);
    Summary(ColumnTotal(orders, Gross), ColumnTotal(orders, StripeFees), platformNet, ColumnTotal(orders, Refunds),
            ColumnTotal(orders, Gross) - ColumnTotal(orders, Refunds) - ColumnTotal(orders, StripeFees) - platformNet)
  }

  /** An occurrence on the report, with the event it belongs to. */
  datatype Listed = Listed(occurrence: nat, event: nat)

  datatype MoneyRow = MoneyRow(listed: Listed, gross: int, refunds: int, net: int)

  function RowFor(orders: seq<Order>, listed: Listed): MoneyRow {
    var o := listed.occurrence;
    MoneyRow(listed, ColumnFor(orders, Gross, o), ColumnFor(orders, Refunds, o),
             ColumnFor(orders, Gross, o) - ColumnFor(orders, Refunds, o) - ColumnFor(orders, StripeFees, o)
             - ColumnFor(orders, PlatformFees, o) + ColumnFor(orders, PlatformFeeRefunds, o))
  }

  datatype Finance = Finance(gross: int, refunds: int, fees: int, platformFees: int, platformFeeRefunds: int)

  function FinanceFor(stats: map<nat, Finance>, occurrence: nat): Finance {
    if occurrence in stats then stats[occurrence] else Finance(0, 0, 0, 0, 0)
  }

  function AddOrder(f: Finance, order: Order): Finance {
    Finance(f.gross + Amount(order, Gross), f.refunds + Amount(order, Refunds), f.fees + Amount(order, StripeFees),
            f.platformFees + Amount(order, PlatformFees), f.platformFeeRefunds + Amount(order, PlatformFeeRefunds))
  }

  /** The grouped query followed by one row per listed occurrence. */
  method OccurrenceComparison(orders: seq<Order>, listing: seq<Listed>) returns (rows: seq<MoneyRow>)
    ensures |rows| == |listing|
    ensures forall k :: 0 <= k < |rows| ==> rows[k] == RowFor(orders, listing[k])
  {
    var stats: map<nat, Finance> := map[];
    for i := 0 to |orders|
      invariant forall o: nat :: FinanceFor(stats, o) == GroupedFinance(orders, o, i)
    {
      ghost var before := stats;
      if Settled(orders[i].status) {
        stats := stats[orders[i].occurrence := AddOrder(FinanceFor(stats, orders[i].occurrence), orders[i])];
      }
      forall o: nat
        ensures FinanceFor(stats, o) == GroupedFinance(orders, o, i + 1)
      {
        assert FinanceFor(before, o) == GroupedFinance(orders, o, i);
      }
    }
    rows := [];
    for k := 0 to |listing|
      invariant |rows| == k
      invariant forall j :: 0 <= j < k ==> rows[j] == RowFor(orders, listing[j])
    {
      var f := FinanceFor(stats, listing[k].occurrence);
      rows := rows + [MoneyRow(listing[k], f.gross, f.refunds,
                               f.gross - f.refunds - f.fees - f.platformFees + f.platformFeeRefunds)];
    }
  }

  /** The five columns of one occurrence over the first `n` orders. */
  function GroupedFinance(orders: seq<Order>, o: nat, n: nat): Finance {
    Finance(Sum(InGroup(AmountOf(orders, Gross), OccurrenceOf(orders), o), n),
            Sum(InGroup(AmountOf(orders, Refunds), OccurrenceOf(orders), o), n),
            Sum(InGroup(AmountOf(orders, StripeFees), OccurrenceOf(orders), o), n),
            Sum(InGroup(AmountOf(orders, PlatformFees), OccurrenceOf(orders), o), n),
            Sum(InGroup(AmountOf(orders, PlatformFeeRefunds), OccurrenceOf(orders), o), n))
  }

  // ---- Per event ----

  datatype EventTotals = EventTotals(occurrences: int, gross: int, refunds: int)

  function OneOf(rows: seq<MoneyRow>): nat -> int { (k: nat) => if k < |rows| then 1 else 0 }

  function GrossOf(rows: seq<MoneyRow>): nat -> int { (k: nat) => if k < |rows| then rows[k].gross else 0 }

  function RefundsOf(rows: seq<MoneyRow>): nat -> int { (k: nat) => if k < |rows| then rows[k].refunds else 0 }

  function NetOf(rows: seq<MoneyRow>): nat -> int { (k: nat) => if k < |rows| then rows[k].net else 0 }

  function EventOf(rows: seq<MoneyRow>): nat -> int { (k: nat) => if k < |rows| then rows[k].listed.event else -1 }

  function TotalsFor(rows: seq<MoneyRow>, event: nat, n: nat): EventTotals {
    EventTotals(Sum(InGroup(OneOf(rows), EventOf(rows), event), n),
                Sum(InGroup(GrossOf(rows), EventOf(rows), event), n),
                Sum(InGroup(RefundsOf(rows), EventOf(rows), event), n))
  }

  function TotalsIn(series: map<nat, EventTotals>, event: nat): EventTotals {
    if event in series then series[event] else EventTotals(0, 0, 0)
  }

  /** Regroups the rows by event in one pass; `events` lists the keys in order of first appearance. */
  method EventComparison(rows: seq<MoneyRow>) returns (events: seq<nat>, series: map<nat, EventTotals>)
    ensures series.Keys == set e | e in events
    ensures forall j, k :: 0 <= j < k < |events| ==> events[j] != events[k]
    ensures forall k :: 0 <= k < |rows| ==> rows[k].listed.event in events
    ensures forall e :: e in events ==> series[e] == TotalsFor(rows, e, |rows|)
  {
    events, series := [], map[];
    for i := 0 to |rows|
      invariant series.Keys == set e | e in events
      invariant forall j, k :: 0 <= j < k < |events| ==> events[j] != events[k]
      invariant forall k :: 0 <= k < i ==> rows[k].listed.event in events
      invariant forall e: nat :: TotalsIn(series, e) == TotalsFor(rows, e, i)
    {
      var event := rows[i].listed.event;
      ghost var before := series;
      if event !in series {
        series := series[event := EventTotals(0, 0, 0)];
        events := events + [event];
      }
      var t := series[event];
      series := series[event := EventTotals(t.occurrences + 1, t.gross + rows[i].gross, t.refunds + rows[i].refunds)];
      forall e: nat
        ensures TotalsIn(series, e) == TotalsFor(rows, e, i + 1)
      {
        assert TotalsIn(before, e) == TotalsFor(rows, e, i);
      }
    }
    forall e | e in events
      ensures series[e] == TotalsFor(rows, e, |rows|)
    {
      assert TotalsIn(series, e) == TotalsFor(rows, e, |rows|);
    }
  }

  // ---- The grouped reports add up ----

  function Rows(orders: seq<Order>, listing: seq<Listed>): seq<MoneyRow> {
    seq(|listing|, k requires 0 <= k < |listing| => RowFor(orders, listing[k]))
  }

  ghost predicate Lists(listing: seq<Listed>, occurrence: nat) {
    exists k :: 0 <= k < |listing| && listing[k].occurrence == occurrence
  }

  ghost predicate NoRepeats(listing: seq<Listed>) {
    forall j, k :: 0 <= j < k < |listing| ==> listing[j].occurrence != listing[k].occurrence
  }

  ghost predicate CoversOrders(orders: seq<Order>, listing: seq<Listed>) {
    NoRepeats(listing) && forall i :: 0 <= i < |orders| ==> Lists(listing, orders[i].occurrence)
  }

  function ListedColumn(orders: seq<Order>, listing: seq<Listed>, column: Column): nat -> int {
    (k: nat) => if k < |listing| then ColumnFor(orders, column, listing[k].occurrence) else 0
  }

  lemma ColumnAddsUp(orders: seq<Order>, listing: seq<Listed>, column: Column)
    requires CoversOrders(orders, listing)
    ensures Sum(ListedColumn(orders, listing, column), |listing|) == ColumnTotal(orders, column)
  {
    var ids := seq(|listing|, k requires 0 <= k < |listing| => listing[k].occurrence);
    forall i: nat | i < |orders|
      ensures OccurrenceOf(orders)(i) in ids
    {
      assert Lists(listing, orders[i].occurrence);
      var k :| 0 <= k < |listing| && listing[k].occurrence == orders[i].occurrence;
      assert ids[k] == orders[i].occurrence;
    }
    GroupsCoverTotal(AmountOf(orders, column), OccurrenceOf(orders), |orders|, ids);
    SumEqual(GroupTotals(AmountOf(orders, column), OccurrenceOf(orders), |orders|, ids),
             ListedColumn(orders, listing, column), |listing|);
  }

  lemma {:induction false} NetIsLinear(orders: seq<Order>, listing: seq<Listed>, n: nat)
    requires n <= |listing|
    ensures Sum(NetOf(Rows(orders, listing)), n)
            == Sum(ListedColumn(orders, listing, Gross), n) - Sum(ListedColumn(orders, listing, Refunds), n)
               - Sum(ListedColumn(orders, listing, StripeFees), n)
               - Sum(ListedColumn(orders, listing, PlatformFees), n)
               + Sum(ListedColumn(orders, listing, PlatformFeeRefunds), n)
  {
    if n != 0 {
      NetIsLinear(orders, listing, n - 1);
    }
  }

  /** The per-occurrence columns sum to the site's totals, a missing Stripe fee counting as zero. */
  lemma OccurrenceRowsAddUp(orders: seq<Order>, listing: seq<Listed>)
    requires CoversOrders(orders, listing)
    ensures var rows := Rows(orders, listing);
            && Sum(GrossOf(rows), |rows|) == CommerceSummary(orders).gross
            && Sum(RefundsOf(rows), |rows|) == CommerceSummary(orders).refunds
            && Sum(NetOf(rows), |rows|) == CommerceSummary(orders).net
  {
    var rows := Rows(orders, listing);
    ColumnAddsUp(orders, listing, Gross);
    ColumnAddsUp(orders, listing, Refunds);
    ColumnAddsUp(orders, listing, StripeFees);
    ColumnAddsUp(orders, listing, PlatformFees);
    ColumnAddsUp(orders, listing, PlatformFeeRefunds);
    SumEqual(GrossOf(rows), ListedColumn(orders, listing, Gross), |rows|);
    SumEqual(RefundsOf(rows), ListedColumn(orders, listing, Refunds), |rows|);
    NetIsLinear(orders, listing, |rows|);
  }

  function EventGross(rows: seq<MoneyRow>, events: seq<nat>): nat -> int {
    (k: nat) => if k < |events| then TotalsFor(rows, events[k], |rows|).gross else 0
  }

  function EventRefunds(rows: seq<MoneyRow>, events: seq<nat>): nat -> int {
    (k: nat) => if k < |events| then TotalsFor(rows, events[k], |rows|).refunds else 0
  }

  /** Regrouping by event loses and doubles nothing. */
  lemma EventRowsAddUp(rows: seq<MoneyRow>, events: seq<nat>)
    requires forall j, k :: 0 <= j < k < |events| ==> events[j] != events[k]
    requires forall k :: 0 <= k < |rows| ==> rows[k].listed.event in events
    ensures Sum(EventGross(rows, events), |events|) == Sum(GrossOf(rows), |rows|)
    ensures Sum(EventRefunds(rows, events), |events|) == Sum(RefundsOf(rows), |rows|)
  {
    GroupsCoverTotal(GrossOf(rows), EventOf(rows), |rows|, events);
    GroupsCoverTotal(RefundsOf(rows), EventOf(rows), |rows|, events);
    SumEqual(EventGross(rows, events), GroupTotals(GrossOf(rows), EventOf(rows), |rows|, events), |events|);
    SumEqual(EventRefunds(rows, events), GroupTotals(RefundsOf(rows), EventOf(rows), |rows|, events), |events|);
  }

  /** On every run, a listing of all the site's occurrences leaves no order out of the report. */
  lemma ReportsCoverEveryRun(setup: Setup, steps: seq<Step>, listing: seq<Listed>)
    requires NoRepeats(listing)
    requires forall o: nat :: o < |setup.occurrences| ==> Lists(listing, o)
    ensures var orders := Run(Initial(setup), steps).orders;
            Sum(NetOf(Rows(orders, listing)), |listing|) == CommerceSummary(orders).net
  {
    RunKeepsTables(setup, steps);
    var s := Run(Initial(setup), steps);
    forall i | 0 <= i < |s.orders|
      ensures Lists(listing, s.orders[i].occurrence)
    {
      assert OrderRow(s, i);
    }
    OccurrenceRowsAddUp(s.orders, listing);
  }
}
