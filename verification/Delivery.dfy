/** Delivering many remote events to one store, in any order. */
module Delivery {
  import Text
  import opened Base
  import opened Model
  import opened Tables

  /** The tables after a batch, the number of new events, and the refusal that
      ended it, if any. */
  datatype Outcome = Outcome(db: Db, added: nat, error: Option<Error>)

  /** `remoteName` is used for an event that comes with a blank name. */
  function Deliver(db: Db, wires: seq<WireEvent>, remoteName: string): Outcome
    decreases |wires|
  {
    if wires == [] then Outcome(db, 0, None)
    else
      match InsertRemote(db, wires[0].event, NameFor(wires[0], remoteName))
      case Err(error) => Outcome(db, 0, Some(error))
      case Ok((later, added)) =>
        var rest := Deliver(later, wires[1..], remoteName);
        rest.(added := rest.added + (if added then 1 else 0))
  }

  function NameFor(wire: WireEvent, remoteName: string): string {
    if Text.IsBlank(wire.authorName) then remoteName else wire.authorName
  }

  function EventSet(wires: seq<WireEvent>): set<EventEnvelope>
    decreases |wires|
  {
    if wires == [] then {} else {wires[0].event} + EventSet(wires[1..])
  }

  ghost predicate AllFit(es: set<EventEnvelope>) {
    forall e :: e in es ==> SequenceFits(e)
  }

  /** No two of the delivered and stored events contend for one key. */
  ghost predicate Consistent(events: Events, es: set<EventEnvelope>)
    requires AllFit(es)
  {
    && (forall e :: e in es ==> AgreesWith(events, e))
    && (forall e, f :: e in es && f in es && KeyOf(e) == KeyOf(f) ==> ToRow(e) == ToRow(f))
  }

  /** `after` holds exactly the events of `events` and those of `es`. */
  ghost predicate IsUnion(events: Events, es: set<EventEnvelope>, after: Events)
    requires AllFit(es)
  {
    && (forall k :: k in events ==> k in after && after[k] == events[k])
    && (forall e :: e in es ==> KeyOf(e) in after && after[KeyOf(e)] == ToRow(e))
    && (forall k :: k in after ==> k in events || exists e :: e in es && KeyOf(e) == k)
  }

  ghost predicate Deliverable(db: Db, es: set<EventEnvelope>) {
    (forall e :: e in es ==> Acceptable(db, e)) && Consistent(db.events, es)
  }

  /** A batch is taken whole exactly when every event of it is acceptable and no
      two of the delivered and stored events contend for one key; the store then
      holds what it held and what was delivered. Whatever happens, nothing held
      changes and the store grows by the number of events reported as new. */
  lemma {:induction false} DeliverExactly(db: Db, wires: seq<WireEvent>, remoteName: string)
    requires ValidDb(db)
    ensures Deliver(db, wires, remoteName).error.None? <==> Deliverable(db, EventSet(wires))
    ensures Deliverable(db, EventSet(wires)) ==>
              var after := Deliver(db, wires, remoteName).db;
              && IsUnion(db.events, EventSet(wires), after.events)
              && after == db.(events := after.events, peers := after.peers)
    ensures var r := Deliver(db, wires, remoteName);
            ValidDb(r.db) && Extends(db, r.db) && |r.db.events| == |db.events| + r.added
    decreases |wires|
  {
    if wires != [] {
      var e, rest := wires[0].event, wires[1..];
      var name := NameFor(wires[0], remoteName);
      InsertRemoteExactly(db, e, name);
      assert e in EventSet(wires);
      if InsertRemote(db, e, name).Ok? {
        var later := InsertRemote(db, e, name).value.0;
        DeliverExactly(later, rest, remoteName);
        DeliverableStep(db, later, e, EventSet(rest));
        if Deliverable(db, EventSet(wires)) {
          UnionStep(db.events, later.events, e, EventSet(rest), Deliver(later, rest, remoteName).db.events);
        }
      }
    }
  }

  lemma DeliverableStep(db: Db, later: Db, e: EventEnvelope, rest: set<EventEnvelope>)
    requires Acceptable(db, e) && AgreesWith(db.events, e)
    requires later == db.(events := db.events[KeyOf(e) := ToRow(e)], peers := later.peers)
    ensures Deliverable(db, {e} + rest) <==> Deliverable(later, rest)
  {
    forall f
      ensures Acceptable(later, f) <==> Acceptable(db, f)
    {
    }
    if Deliverable(db, {e} + rest) {
      forall f | f in rest
        ensures Acceptable(later, f) && AgreesWith(later.events, f)
      {
        assert f in {e} + rest && e in {e} + rest;
      }
    }
    if Deliverable(later, rest) {
      forall f | f in rest
        ensures Acceptable(db, f) && AgreesWith(db.events, f)
        ensures KeyOf(f) == KeyOf(e) ==> ToRow(f) == ToRow(e)
      {
        assert AgreesWith(later.events, f);
      }
    }
  }

  lemma UnionStep(events: Events, mid: Events, e: EventEnvelope, rest: set<EventEnvelope>, after: Events)
    requires SequenceFits(e) && AllFit(rest) && AgreesWith(events, e)
    requires mid == events[KeyOf(e) := ToRow(e)]
    requires IsUnion(mid, rest, after)
    ensures IsUnion(events, {e} + rest, after)
  {
    assert KeyOf(e) in mid;
    forall k | k in after && k !in events
      ensures exists f :: f in {e} + rest && KeyOf(f) == k
    {
      if k in mid {
        assert e in {e} + rest && KeyOf(e) == k;
      } else {
        var f :| f in rest && KeyOf(f) == k;
        assert f in {e} + rest;
      }
    }
  }

  lemma UnionUnique(events: Events, es: set<EventEnvelope>, p: Events, q: Events)
    requires AllFit(es) && IsUnion(events, es, p) && IsUnion(events, es, q)
    ensures p == q
  {
    forall k
      ensures k in p <==> k in q
      ensures k in p ==> p[k] == q[k]
    {
      if k in p && k !in events {
        var e :| e in es && KeyOf(e) == k;
      }
      if k in q && k !in events {
        var e :| e in es && KeyOf(e) == k;
      }
    }
  }

  /** Order and duplication do not matter: two deliveries of one set of events to
      one store are both taken or both refused, and leave the same events. */
  lemma DeliveryOrderIrrelevant(db: Db, xs: seq<WireEvent>, ys: seq<WireEvent>, m: string, n: string)
    requires ValidDb(db) && EventSet(xs) == EventSet(ys)
    ensures Deliver(db, xs, m).error.None? <==> Deliver(db, ys, n).error.None?
    ensures Deliver(db, xs, m).error.None? ==>
              && Deliver(db, xs, m).db.events == Deliver(db, ys, n).db.events
              && Deliver(db, xs, m).added == Deliver(db, ys, n).added
  {
    DeliverExactly(db, xs, m);
    DeliverExactly(db, ys, n);
    if Deliverable(db, EventSet(xs)) {
      UnionUnique(db.events, EventSet(xs), Deliver(db, xs, m).db.events, Deliver(db, ys, n).db.events);
    }
  }
}
