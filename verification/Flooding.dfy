/** Flooding stops in every mesh, and when it has stopped it has delivered. */
module Flooding {
  import opened Base
  import opened Model
  import opened Crypto
  import opened Tables
  import opened Mesh

  predicate Floods(action: Action) {
    action.DoForward? || action.DoReceive?
  }

  ghost predicate OnlyFloods(actions: seq<Action>) {
    forall i :: 0 <= i < |actions| ==> Floods(actions[i])
  }

  // ---------------------------------------------------------------- flooding stops

  function KeysOf(copies: multiset<Copy>): set<EventKey> {
    set c | c in copies && SequenceFits(c.wire.event) :: KeyOf(c.wire.event)
  }

  /** Which of the keys each node lacks. */
  function Lacking(m: Mesh, keys: set<EventKey>): set<(PeerId, EventKey)> {
    set p, k | p in m.nodes && k in keys && k !in m.nodes[p].events :: (p, k)
  }

  /** Every step lowers this: looking at a broadcast makes one record of it at most,
      reading a record makes broadcasts only when a node lacked the event. */
  function Potential(m: Mesh, keys: set<EventKey>, links: nat): nat {
    2 * |m.queued| + |m.wire| + (2 * links + 1) * |Lacking(m, keys)|
  }

  ghost predicate Covered(m: Mesh, keys: set<EventKey>, links: nat) {
    |m.links| <= links && KeysOf(m.queued) <= keys && KeysOf(m.wire) <= keys
  }

  lemma {:induction false} SmallerSet<T>(x: set<T>, y: set<T>)
    requires x <= y
    ensures |x| <= |y|
    ensures x != y ==> |x| < |y|
  {
    if x != {} {
      var e :| e in x;
      SmallerSet(x - {e}, y - {e});
    }
  }

  lemma {:induction false} CopiesCount(links: set<Link>, p: PeerId, wire: WireEvent)
    ensures |Copies(links, p, wire)| <= |links|
    decreases links
  {
    if links != {} {
      var l :| l in links;
      CopiesCount(links - {l}, p, wire);
      var rest := Copies(links - {l}, p, wire);
      assert Copies(links, p, wire) <= rest + {Copy(l, wire)};
      SmallerSet(Copies(links, p, wire), rest + {Copy(l, wire)});
    }
  }

  lemma CloseShrinks(m: Mesh, session: nat)
    ensures |Close(m, session).links| <= |m.links|
  {
    SmallerSet(Close(m, session).links, m.links);
  }

  lemma CloseCovered(m: Mesh, session: nat, keys: set<EventKey>, links: nat)
    requires Covered(m, keys, links)
    ensures Covered(Close(m, session), keys, links)
  {
    CloseShrinks(m, session);
  }

  lemma ForwardFalls(m: Mesh, c: Copy, keys: set<EventKey>, links: nat)
    requires CanForward(m, c) && Covered(m, keys, links)
    ensures Covered(Forward(m, c), keys, links)
    ensures Potential(Forward(m, c), keys, links) < Potential(m, keys, links)
  {
    hide Passes, Goes;
    var later := Forward(m, c);
    CloseShrinks(m, c.link.session);
    assert Lacking(later, keys) == Lacking(m, keys);
    assert SequenceFits(c.wire.event) ==> KeyOf(c.wire.event) in KeysOf(m.queued);
  }

  /** What an insertion that is reported as new does to the tables. */
  lemma NewMeansInserted(db: Db, e: EventEnvelope, name: string)
    requires InsertRemote(db, e, name).Ok? && InsertRemote(db, e, name).value.1
    ensures SequenceFits(e) && KeyOf(e) !in db.events
    ensures InsertRemote(db, e, name).value.0.events == db.events[KeyOf(e) := ToRow(e)]
  {
    hide ValidateAndOpenEvent;
  }

  lemma InsertedFalls(m: Mesh, q: PeerId, db: Db, wire: WireEvent, keys: set<EventKey>, links: nat)
    requires q in m.nodes && SequenceFits(wire.event) && KeyOf(wire.event) in keys && Covered(m, keys, links)
    requires KeyOf(wire.event) !in m.nodes[q].events &&
               db.events == m.nodes[q].events[KeyOf(wire.event) := ToRow(wire.event)]
    ensures Covered(Broadcast(WithDb(m, q, db), q, wire), keys, links)
    ensures Potential(Broadcast(WithDb(m, q, db), q, wire), keys, links) < Potential(m, keys, links)
  {
    var later := Broadcast(WithDb(m, q, db), q, wire);
    CopiesCount(m.links, q, wire);
    LackingFalls(m, q, db, KeyOf(wire.event), later, keys);
    hide Lacking, Copies, KeysOf;
    OneLess(2 * links + 1, |Lacking(later, keys)|, |Lacking(m, keys)|);
    BroadcastCounts(m, q, db, wire, keys, links);
  }

  lemma {:induction false} OneLess(n: nat, a: nat, b: nat)
    requires a < b
    ensures n * a + n <= n * b
  {
    if n > 0 {
      OneLess(n - 1, a, b);
    }
  }

  lemma BroadcastCounts(m: Mesh, q: PeerId, db: Db, wire: WireEvent, keys: set<EventKey>, links: nat)
    requires |Copies(m.links, q, wire)| <= links && Covered(m, keys, links)
    requires SequenceFits(wire.event) && KeyOf(wire.event) in keys
    ensures var later := Broadcast(WithDb(m, q, db), q, wire);
            |later.queued| <= |m.queued| + links && later.wire == m.wire && Covered(later, keys, links)
  {
  }

  lemma LackingFalls(m: Mesh, q: PeerId, db: Db, k: EventKey, later: Mesh, keys: set<EventKey>)
    requires q in m.nodes && k in keys && k !in m.nodes[q].events && k in db.events
    requires forall j :: j in m.nodes[q].events ==> j in db.events
    requires later.nodes == m.nodes[q := db]
    ensures |Lacking(later, keys)| < |Lacking(m, keys)|
  {
    assert (q, k) in Lacking(m, keys) && (q, k) !in Lacking(later, keys);
    SmallerSet(Lacking(later, keys), Lacking(m, keys));
  }

  lemma ReceiveFalls(m: Mesh, c: Copy, keys: set<EventKey>, links: nat)
    requires CanReceive(m, c) && Covered(m, keys, links)
    ensures Covered(Receive(m, c), keys, links)
    ensures Potential(Receive(m, c), keys, links) < Potential(m, keys, links)
  {
    var rest := m.(wire := m.wire - multiset{c});
    var q, e, name := c.link.dst, c.wire.event, c.wire.authorName;
    assert SequenceFits(e) ==> KeyOf(e) in KeysOf(m.wire);
    assert Covered(rest, keys, links);
    assert Lacking(rest, keys) == Lacking(m, keys);
    assert Potential(rest, keys, links) < Potential(m, keys, links);
    CloseCovered(rest, c.link.session, keys, links);
    assert Lacking(Close(rest, c.link.session), keys) == Lacking(m, keys);
    hide InsertRemote, Covered, Lacking;
    match InsertRemote(m.nodes[q], e, name)
    case Err(_) =>
    case Ok((db, added)) =>
      if added {
        NewMeansInserted(m.nodes[q], e, name);
        InsertedFalls(rest, q, db, c.wire, keys, links);
      }
  }

  lemma FloodStepFalls(m: Mesh, action: Action, keys: set<EventKey>, links: nat)
    requires Enabled(m, action) && Floods(action) && Covered(m, keys, links)
    ensures Covered(Step(m, action), keys, links)
    ensures Potential(Step(m, action), keys, links) < Potential(m, keys, links)
  {
    hide Covered, Forward, Receive, Potential;
    match action
    case DoForward(c) => ForwardFalls(m, c, keys, links);
    case DoReceive(c) => ReceiveFalls(m, c, keys, links);
  }

  lemma {:induction false} FloodBound(m: Mesh, actions: seq<Action>, keys: set<EventKey>, links: nat)
    requires CanRun(m, actions) && OnlyFloods(actions) && Covered(m, keys, links)
    ensures |actions| <= Potential(m, keys, links)
    decreases |actions|
  {
    hide Covered, Step, Potential, Enabled;
    if actions != [] {
      assert Floods(actions[0]);
      FloodStepFalls(m, actions[0], keys, links);
      FloodBound(Step(m, actions[0]), actions[1..], keys, links);
    }
  }

  /** From any state of any mesh, cycles and parallel sessions included, flooding
      stops: at most so many broadcasts and records can be handled. */
  lemma FloodingStops(m: Mesh, actions: seq<Action>)
    requires CanRun(m, actions) && OnlyFloods(actions)
    ensures |actions| <= Potential(m, KeysOf(m.queued) + KeysOf(m.wire), |m.links|)
  {
    FloodBound(m, actions, KeysOf(m.queued) + KeysOf(m.wire), |m.links|);
  }
}
