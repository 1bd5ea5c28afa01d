/**
  The webhook inbox (payments/services.py, process_connect_event): at-least-once deliveries of
  events, each applied to a world by a handler that may refuse it or fail part-way and roll back.
  */
module Inbox {
  import opened Wrappers

  datatype RowStatus = Received | Processed | Failed
  datatype Row = Row(status: RowStatus, attempts: nat)

  /** `interrupted` says that this try fails for a reason outside the handler and is rolled back. */
  datatype Delivery<+E> = Delivery(id: nat, event: E, interrupted: bool)

  datatype Box<+W> = Box(world: W, rows: map<nat, Row>)

  type Handler<!W, !E, !Err> = (W, E) -> Result<W, Err>

  function RowOf(rows: map<nat, Row>, id: nat): Row {
    if id in rows then rows[id] else Row(Received, 0)
  }

  /** One delivery: the row is created if needed, and the event applied unless it already was. */
  function Process<W, E, Err>(handler: Handler<W, E, Err>, b: Box<W>, d: Delivery<E>): Box<W> {
    var row := RowOf(b.rows, d.id);
    if row.status == Processed then b
    else
      var outcome := handler(b.world, d.event);
      if d.interrupted || outcome.Err?
      then b.(rows := b.rows[d.id := Row(Failed, row.attempts + 1)])
      else Box(outcome.value, b.rows[d.id := Row(Processed, row.attempts + 1)])
  }

  function ProcessAll<W, E, Err>(handler: Handler<W, E, Err>, b: Box<W>, ds: seq<Delivery<E>>): Box<W> {
    if ds == [] then b
    else Process(handler, ProcessAll(handler, b, ds[..|ds| - 1]), ds[|ds| - 1])
  }

  lemma ProcessOneMore<W, E, Err>(handler: Handler<W, E, Err>, b: Box<W>, ds: seq<Delivery<E>>, d: Delivery<E>)
    ensures ProcessAll(handler, b, ds + [d]) == Process(handler, ProcessAll(handler, b, ds), d)
  {
    assert (ds + [d])[..|ds|] == ds;
  }

  /** How many of the deliveries left their event PROCESSED. */
  function Successes<W, E, Err>(handler: Handler<W, E, Err>, b: Box<W>, ds: seq<Delivery<E>>): nat {
    if ds == [] then 0
    else
      Successes(handler, b, ds[..|ds| - 1])
      + if RowOf(ProcessAll(handler, b, ds).rows, ds[|ds| - 1].id).status == Processed then 1 else 0
  }

  lemma SuccessesOneMore<W, E, Err>(handler: Handler<W, E, Err>, b: Box<W>, ds: seq<Delivery<E>>, d: Delivery<E>)
    ensures Successes(handler, b, ds + [d])
            == Successes(handler, b, ds)
               + if RowOf(ProcessAll(handler, b, ds + [d]).rows, d.id).status == Processed then 1 else 0
  {
    assert (ds + [d])[..|ds|] == ds;
  }

  // ---- The specification: each event once, in the order of first success ----

  /** Applying a list of events one after another. */
  function Fold<W, E, Err>(handler: Handler<W, E, Err>, world: W, events: seq<Delivery<E>>): W {
    if events == [] then world
    else
      var before := Fold(handler, world, events[..|events| - 1]);
      var outcome := handler(before, events[|events| - 1].event);
      if outcome.Ok? then outcome.value else before
  }

  predicate Mentions<E>(ds: seq<Delivery<E>>, id: nat) {
    exists k :: 0 <= k < |ds| && ds[k].id == id
  }

  /** The deliveries that are the first success of their event. */
  function FirstSuccesses<W, E, Err>(handler: Handler<W, E, Err>, world: W, ds: seq<Delivery<E>>): seq<Delivery<E>> {
    if ds == [] then []
    else
      var earlier := FirstSuccesses(handler, world, ds[..|ds| - 1]);
      var d := ds[|ds| - 1];
      if Mentions(earlier, d.id) || d.interrupted || handler(Fold(handler, world, earlier), d.event).Err?
      then earlier else earlier + [d]
  }

  /** How many deliveries of an event were actually tried: all of them up to its first success. */
  function Tries<W, E, Err>(handler: Handler<W, E, Err>, world: W, ds: seq<Delivery<E>>, id: nat): nat {
    if ds == [] then 0
    else
      var earlier := ds[..|ds| - 1];
      Tries(handler, world, earlier, id)
      + if ds[|ds| - 1].id == id && !Mentions(FirstSuccesses(handler, world, earlier), id) then 1 else 0
  }

  ghost predicate DistinctIds<E>(ds: seq<Delivery<E>>) {
    forall j, k :: 0 <= j < k < |ds| ==> ds[j].id != ds[k].id
  }

  lemma MentionsOneMore<E>(ds: seq<Delivery<E>>, d: Delivery<E>)
    ensures forall id: nat :: Mentions(ds + [d], id) <==> Mentions(ds, id) || d.id == id
  {
    forall id: nat
      ensures Mentions(ds + [d], id) <==> Mentions(ds, id) || d.id == id
    {
      if Mentions(ds, id) {
        var k :| 0 <= k < |ds| && ds[k].id == id;
        assert (ds + [d])[k].id == id;
      }
      assert (ds + [d])[|ds|] == d;
    }
  }

  /** The box holds what the specification says of the deliveries so far. */
  ghost predicate Agrees<W, E, Err>(
    handler: Handler<W, E, Err>, world: W, b: Box<W>, applied: seq<Delivery<E>>, tries: nat -> nat)
  {
    && b.world == Fold(handler, world, applied)
    && DistinctIds(applied)
    && (forall id: nat :: RowOf(b.rows, id).status == Processed <==> Mentions(applied, id))
    && (forall id: nat :: RowOf(b.rows, id).attempts == tries(id))
  }

  function TriesOf<W, E, Err>(handler: Handler<W, E, Err>, world: W, ds: seq<Delivery<E>>): nat -> nat {
    (id: nat) => Tries(handler, world, ds, id)
  }

  lemma OneMoreDelivery<W, E, Err>(
    handler: Handler<W, E, Err>, world: W, b: Box<W>, applied: seq<Delivery<E>>, tries: nat -> nat,
    d: Delivery<E>, more: seq<Delivery<E>>, moreTries: nat -> nat)
    requires Agrees(handler, world, b, applied, tries)
    requires more == if Mentions(applied, d.id) || d.interrupted || handler(b.world, d.event).Err?
                     then applied else applied + [d]
    requires forall id: nat :: moreTries(id) == tries(id) + if d.id == id && !Mentions(applied, id) then 1 else 0
    ensures Agrees(handler, world, Process(handler, b, d), more, moreTries)
  {
    MentionsOneMore(applied, d);
    assert (applied + [d])[..|applied|] == applied;
  }

  /**
    Whatever is redelivered, retried or rolled back, the world is the fold of the distinct events in
    the order of their first success; a row is PROCESSED exactly when its event was applied, and its
    `attempts` counts the tries.
    */
  lemma {:induction false} AppliedExactlyOnce<W, E, Err>(handler: Handler<W, E, Err>, world: W, ds: seq<Delivery<E>>)
    ensures var b := ProcessAll(handler, Box(world, map[]), ds);
            var applied := FirstSuccesses(handler, world, ds);
            && b.world == Fold(handler, world, applied)
            && DistinctIds(applied)
            && (forall id: nat :: RowOf(b.rows, id).status == Processed <==> Mentions(applied, id))
            && (forall id: nat :: RowOf(b.rows, id).attempts == Tries(handler, world, ds, id))
  {
    InboxAgrees(handler, world, ds);
    forall id: nat
      ensures RowOf(ProcessAll(handler, Box(world, map[]), ds).rows, id).attempts == Tries(handler, world, ds, id)
    {
      assert TriesOf(handler, world, ds)(id) == Tries(handler, world, ds, id);
    }
  }

  lemma {:induction false} InboxAgrees<W, E, Err>(handler: Handler<W, E, Err>, world: W, ds: seq<Delivery<E>>)
    ensures Agrees(handler, world, ProcessAll(handler, Box(world, map[]), ds),
                   FirstSuccesses(handler, world, ds), TriesOf(handler, world, ds))
  {
    if ds != [] {
      var earlier, d := ds[..|ds| - 1], ds[|ds| - 1];
      InboxAgrees(handler, world, earlier);
      OneMoreDelivery(handler, world, ProcessAll(handler, Box(world, map[]), earlier),
                      FirstSuccesses(handler, world, earlier), TriesOf(handler, world, earlier),
                      d, FirstSuccesses(handler, world, ds), TriesOf(handler, world, ds));
    }
  }

  /** Every applied event was delivered, and was delivered without interruption. */
  lemma {:induction false} AppliedWasDelivered<W, E, Err>(handler: Handler<W, E, Err>, world: W, ds: seq<Delivery<E>>)
    ensures forall d :: d in FirstSuccesses(handler, world, ds) ==> d in ds && !d.interrupted
  {
    if ds != [] {
      AppliedWasDelivered(handler, world, ds[..|ds| - 1]);
    }
  }

  /** A retry of events that never were interrupted or refused leaves none of them unapplied. */
  lemma {:induction false} UninterruptedDeliveryIsApplied<W, E, Err>(
    handler: Handler<W, E, Err>, world: W, ds: seq<Delivery<E>>, d: Delivery<E>)
    requires !d.interrupted
    requires handler(Fold(handler, world, FirstSuccesses(handler, world, ds)), d.event).Ok?
    ensures Mentions(FirstSuccesses(handler, world, ds + [d]), d.id)
  {
    assert (ds + [d])[..|ds|] == ds;
    MentionsOneMore(FirstSuccesses(handler, world, ds), d);
  }
}
