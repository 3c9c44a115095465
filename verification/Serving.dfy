/** The serving steps of the session machine against the loop that serves requests:
    what the loop sends for a request, the machine can send. */
module Serving {
  import opened Model
  import opened Tables
  import opened Inventory
  import opened Wire
  import opened Transfer
  import opened Session

  lemma {:induction false} NamedAtRest(db: Db, wires: seq<WireEvent>)
    requires AllNamed([db], wires)
    ensures wires == WiresFor(db, EventsOf(wires))
  {
    if wires != [] {
      assert KnownName([db], wires[0]);
      var clock :| NamedAt([db], clock, wires[0]);
      forall i | 0 <= i < |wires[1..]|
        ensures KnownName([db], wires[1..][i])
      {
        assert KnownName([db], wires[i + 1]);
      }
      NamedAtRest(db, wires[1..]);
      var es := EventsOf(wires);
      assert es[1..] == EventsOf(wires[1..]);
      assert wires == [wires[0]] + wires[1..];
      WiresForStep(db, es);
    }
  }

  lemma WiresForStep(db: Db, es: seq<EventEnvelope>)
    requires es != []
    ensures WiresFor(db, es) == [WireEvent(es[0], AuthorName(db, es[0].header.author))] + WiresFor(db, es[1..])
  {
  }

  /** Emitting batch after batch: the sizes chosen, the side in the end, the records. */
  predicate CanEmitAll(x: Side, sizes: seq<nat>)
    decreases |sizes|
  {
    sizes == [] || (x.phase.Serving? && CanEmit(x, sizes[0]) && CanEmitAll(Emit(x, sizes[0]).0, sizes[1..]))
  }

  function EmitAll(x: Side, sizes: seq<nat>): (Side, seq<Frame>)
    requires CanEmitAll(x, sizes)
    decreases |sizes|
  {
    if sizes == [] then (x, [])
    else
      var (next, frames) := Emit(x, sizes[0]);
      var (last, more) := EmitAll(next, sizes[1..]);
      (last, frames + more)
  }

  lemma BatchCanBeEmitted(x: Side, wires: seq<WireEvent>, later: seq<WireEvent>)
    requires x.phase.Serving? && x.outbox == wires + later && BatchRule(wires) && FrameFits(EventBatch(wires))
    ensures CanEmit(x, |wires|) && Emit(x, |wires|) == (x.(outbox := later), [EventBatch(wires)])
  {
    hide BatchRule, FrameFits;
    assert x.outbox[..|wires|] == wires && x.outbox[|wires|..] == later;
    assert 1 <= |wires| by { BatchesHold(wires); }
  }

  lemma BatchesHold(wires: seq<WireEvent>)
    requires BatchRule(wires)
    ensures |wires| >= 1
  {
  }

  lemma {:induction false} BatchesCanBeEmitted(x: Side, frames: seq<Frame>) returns (sizes: seq<nat>)
    requires x.phase.Serving? && AllBatches(frames) && Flatten(frames) == x.outbox
    ensures CanEmitAll(x, sizes) && EmitAll(x, sizes) == (x.(outbox := []), frames)
    decreases |frames|
  {
    if frames == [] {
      sizes := [];
    } else {
      var wires, rest := frames[0].wires, frames[1..];
      var next := x.(outbox := Flatten(rest));
      BatchCanBeEmitted(x, wires, Flatten(rest));
      hide CanEmit, Emit, BatchRule, FrameFits;
      var more := BatchesCanBeEmitted(next, rest);
      sizes := [|wires|] + more;
      assert sizes[0] == |wires| && sizes[1..] == more;
      assert EmitAll(next, more) == (next.(outbox := []), rest);
      assert next.(outbox := []) == x.(outbox := []);
      assert [EventBatch(wires)] + rest == frames;
    }
  }

  /** One request served by the loop over pages and batches, on a store at rest, is
      a way for the machine to serve it: reading the range, then emitting exactly
      the records that the loop sends. */
  lemma LoopIsServing(x: Side, r: RangeRequest, frames: seq<Frame>, sent: seq<EventEnvelope>) returns (sizes: seq<nat>)
    requires x.phase.Serving? && x.outbox == [] && x.todo != [] && x.todo[0] == r && GoodRequest(r, x.shared)
    requires Carries([x.db], frames, sent) && Serves(x.db.events, x.db.events, r, sent)
    ensures CanEmitAll(x, [0] + sizes) && EmitAll(x, [0] + sizes) == (x.(todo := x.todo[1..]), frames)
  {
    ServesAtRest(x.db.events, r, sent);
    NamedAtRest(x.db, Flatten(frames));
    var read := x.(todo := x.todo[1..], outbox := WiresFor(x.db, sent));
    assert Emit(x, 0) == (read, []);
    sizes := BatchesCanBeEmitted(read, frames);
    assert ([0] + sizes)[1..] == sizes;
    assert [] + frames == frames;
  }
}
