/** A session between two honest sides takes no failing branch, whatever the
    schedule, always ends, and leaves both with the events that were served. */
module SessionSafety {
  import Runs
  import opened Base
  import opened Text
  import opened Model
  import opened Tables
  import opened Delivery
  import opened Inventory
  import opened Wire
  import opened Transfer
  import opened Session
  import opened SessionProof

  // ---------------------------------------------------------------- what a side takes next

  /** The head of the link from b to a. */
  lemma NextControl(s: Setup, y: Side, x: Side, link: seq<Frame>)
    requires Linked(s, y, x, link) && link != [] && Got(x.phase) < 5
    ensures link[0] == Script(s)[Got(x.phase)]
    ensures Got(x.phase) < Sent(y.phase)
  {
    hide Script, Flows, OnlyBatches;
    var i, j := Got(x.phase), Sent(y.phase);
    if i < j {
      assert link[..j - i][0] == link[0];
      assert Script(s)[i..j][0] == Script(s)[i];
    }
  }

  lemma LinkShrinks(s: Setup, y: Side, x: Side, z: Side, link: seq<Frame>)
    requires Linked(s, y, x, link) && link != [] && Got(x.phase) < Sent(y.phase)
    requires Got(z.phase) == Got(x.phase) + 1 && z.received == x.received && !z.phase.Live? && !x.phase.Live?
    ensures Linked(s, y, z, link[1..])
  {
    hide Script, DataOn;
    var i, j := Got(x.phase), Sent(y.phase);
    DropFirst(link, j - i);
    assert Script(s)[i..j][1..] == Script(s)[i + 1..j];
    SameData(s, y, x, z, link[j - i..]);
  }

  lemma DropFirst<T>(xs: seq<T>, k: nat)
    requires 0 < k <= |xs|
    ensures xs[1..][..k - 1] == xs[..k][1..] && xs[1..][k - 1..] == xs[k..]
  {
  }

  lemma SameData(s: Setup, y: Side, x: Side, z: Side, data: seq<Frame>)
    requires DataOn(s, y, x, data) && z.received == x.received && z.phase.Live? == x.phase.Live?
    ensures DataOn(s, y, z, data)
  {
  }

  // ---------------------------------------------------------------- control records

  lemma TakeHelloOwn(s: Setup, x: Side)
    requires Ready(s) && Own(s, x) && x.phase.AwaitHello?
    ensures TakeHello(x, s.hb) == x.(phase := SendProofs, remote := s.hb.body)
    ensures Own(s, TakeHello(x, s.hb))
  {
    assert HonestSide(s) && HonestSide(FlipSetup(s));
    hide ChannelsFrom, KnowsChannels, ValidDb, AllGood, GoodOutbox, AllFit, IsUnion, Ready, NamesOf;
  }

  lemma RememberKeeps(db: Db, peer: PeerId, name: string)
    requires ValidDb(db)
    ensures ValidDb(RememberPeer(db, peer, name))
    ensures RememberPeer(db, peer, name) == db.(peers := RememberPeer(db, peer, name).peers)
  {
    CleanLabelBound(name, "Unknown peer", 48);
    Runs.NameKeeps(db, peer, CleanLabel(name, "Unknown peer", 48));
  }

  lemma TakeProofsOwn(s: Setup, x: Side)
    requires Ready(s) && Own(s, x) && x.phase.AwaitProofs?
    ensures var z := TakeProofs(x, ProofsOf(s.b0.groups, s.hb.body, s.ha.body));
            Own(s, z) && z.phase.SendChannels? && z.received == x.received
  {
    hide ChannelsFrom, KnowsChannels, ValidDb, AllGood, GoodOutbox, AllFit, IsUnion, CleanLabel, SharedGroups,
         Common, ProofsOf, HonestSide, InventoryA, InventoryB;
    SharedExactly(s.a0.groups, s.b0.groups, s.ha.body, s.hb.body);
    RememberKeeps(x.db, x.remote.peer, x.remote.displayName);
    assert Shared(s) != {};
  }

  lemma TakeChannelsOwn(s: Setup, x: Side)
    requires Ready(s) && Own(s, x) && x.phase.AwaitChannels?
    ensures var z := TakeChannels(x, ChannelFrames(s.b0.groups, s.b0.channels, Order(Shared(s)), Shared(s)));
            Own(s, z) && z.phase.SendInventories? && z.received == x.received
  {
    hide ChannelsFrom, KnowsChannels, ValidDb, AllGood, GoodOutbox, AllFit, IsUnion, Ready, ChannelFrames, MergeAll,
         NamesOf, Shared, Order, InventoryA, InventoryB;
    ChannelsArrive(s, x.db);
  }

  lemma TakeInventoriesOwn(s: Setup, x: Side)
    requires Own(s, x) && x.phase.AwaitInventories?
    ensures Own(s, x.(phase := SendRequests, remoteInv := Restrict(InventoryB(s), x.shared)))
  {
    RestrictTwice(InventoriesOf(s.b0.groups, s.b0.events), Shared(s));
    hide ChannelsFrom, KnowsChannels, ValidDb, AllGood, GoodOutbox, AllFit, IsUnion, Shared, Restrict, InventoriesOf,
         NamesOf;
  }

  lemma TakeRequestsOwn(s: Setup, x: Side)
    requires Own(s, x) && x.phase.AwaitRequests?
    ensures Own(s, x.(phase := Serving, todo := ServedToB(s)))
  {
    RequestsAreGood(s);
    hide ChannelsFrom, KnowsChannels, ValidDb, AllGood, GoodOutbox, AllFit, IsUnion, Shared, ServedToB, NamesOf;
  }

  /** The control records of b. */
  lemma ScriptOfPeer(s: Setup)
    ensures Script(FlipSetup(s)) ==
            [Hello(s.hb),
             GroupProofs(ProofsOf(s.b0.groups, s.hb.body, s.ha.body)),
             Channels(ChannelFrames(s.b0.groups, s.b0.channels, Order(Shared(s)), Shared(s))),
             Inventories(InventoryB(s)),
             Requests(RequestsOfB(s))]
  {
    SharedFlips(s);
    FlippedInventories(s);
    hide Shared, InventoriesFrame, Order;
  }

  /** Taking a control record. */
  lemma TakeControlOwn(s: Setup, x: Side)
    requires Ready(s) && Own(s, x) && Awaits(x) && Got(x.phase) < 5
    ensures var z := Take(x, Script(FlipSetup(s))[Got(x.phase)]);
            && Own(s, z) && Got(z.phase) == Got(x.phase) + 1 && Sent(z.phase) == Sent(x.phase)
            && z.received == x.received && !z.phase.Live? && !x.phase.Live?
            && (Got(z.phase) == 5 ==> z == x.(phase := Serving, todo := ServedToB(s)))
  {
    hide Own, Ready, TakeHello, TakeProofs, TakeChannels, Script, Shared, InventoryB, RequestsOfB, ChannelFrames,
         ProofsOf;
    ScriptOfPeer(s);
    match x.phase
    case AwaitHello => TakeHelloOwn(s, x);
    case AwaitProofs => TakeProofsOwn(s, x);
    case AwaitChannels => TakeChannelsOwn(s, x);
    case AwaitInventories => TakeInventoriesOwn(s, x);
    case AwaitRequests => TakeRequestsOwn(s, x);
  }

  /** The link that a side fills, when it takes a control record: only the last of
      these records, the requests, gives it anything to send. */
  lemma TakeControlLinked(s: Setup, x: Side, z: Side, y: Side, link: seq<Frame>)
    requires Linked(s, x, y, link) && Own(s, x)
    requires Awaits(x) && Got(x.phase) < 5 && Got(z.phase) == Got(x.phase) + 1 && Sent(z.phase) == Sent(x.phase)
    requires Got(z.phase) == 5 ==> z == x.(phase := Serving, todo := ServedToB(s))
    ensures Linked(s, z, y, link)
  {
    hide Script, DataOn, Own, ServedToB;
    StartsEmpty(s, x);
    TakeControlData(s, x, z, y, link[Sent(x.phase) - Got(y.phase)..]);
  }

  lemma TakeControlData(s: Setup, x: Side, z: Side, y: Side, data: seq<Frame>)
    requires DataOn(s, x, y, data) && x.outbox == [] && Got(x.phase) < 5 && Got(z.phase) == Got(x.phase) + 1
    requires Got(z.phase) == 5 ==> z == x.(phase := Serving, todo := ServedToB(s))
    ensures DataOn(s, z, y, data)
  {
    assert Flows(s, [], [], [], ServedToB(s));
    hide Flows, ServedToB;
  }

  // ---------------------------------------------------------------- event records

  /** The next event record from a peer whose control records are all taken. */
  lemma NextData(s: Setup, y: Side, x: Side, link: seq<Frame>)
    requires Linked(s, y, x, link) && link != [] && x.phase.AwaitEvents?
    ensures DataOn(s, y, x, link) && Sent(y.phase) == 5 && Got(y.phase) >= 5
  {
    hide Script, Flows;
    assert link[0..] == link;
  }

  lemma DataLinked(s: Setup, y: Side, x: Side, link: seq<Frame>)
    requires DataOn(s, y, x, link) && Sent(y.phase) == 5 && Got(x.phase) == 5
    ensures Linked(s, y, x, link)
  {
    hide DataOn, Script;
    assert link[0..] == link && link[..0] == [] && Script(s)[5..5] == [];
  }

  lemma BatchTakenData(s: Setup, y: Side, x: Side, z: Side, link: seq<Frame>)
    requires DataOn(s, y, x, link) && Got(y.phase) >= 5 && x.phase.AwaitEvents? && z.phase.AwaitEvents?
    requires link != [] && link[0].EventBatch? && z.received == x.received + link[0].wires
    ensures DataOn(s, y, z, link[1..])
  {
    hide Flows, SentFit;
    var rest := link[1..];
    assert Flatten(link) == link[0].wires + Flatten(rest);
    SentFitMoves(s, x.received, link[0].wires, Flatten(rest));
    BatchTakenFlows(s, x.received, link[0].wires, Flatten(rest), y.outbox, y.todo);
    if !y.phase.Serving? && !y.phase.Failed? {
      var n := |link| - 1;
      assert n > 0;
      assert rest[|rest| - 1] == link[n];
      assert rest[..|rest| - 1] == link[1..n];
    }
  }

  lemma SentFitMoves(s: Setup, received: seq<WireEvent>, wires: seq<WireEvent>, rest: seq<WireEvent>)
    requires SentFit(s, received) && SentFit(s, wires + rest)
    ensures SentFit(s, received + wires) && SentFit(s, rest)
  {
    hide FitsFrame;
    var all := wires + rest;
    assert forall i :: 0 <= i < |wires| ==> all[i] == wires[i];
    assert forall i :: 0 <= i < |rest| ==> all[|wires| + i] == rest[i];
  }

  lemma BatchTakenFlows(s: Setup, received: seq<WireEvent>, wires: seq<WireEvent>, link: seq<WireEvent>,
                        outbox: seq<WireEvent>, todo: seq<RangeRequest>)
    requires Flows(s, received, wires + link, outbox, todo)
    ensures Flows(s, received + wires, link, outbox, todo)
  {
    var rest := EventsOf(outbox) + ServedEvents(s.a0.events, todo);
    EventsOfConcat(wires, link);
    EventsOfConcat(received, wires);
    Reassociate(EventsOf(wires), EventsOf(link), rest);
    Reassociate(EventsOf(received), EventsOf(wires), EventsOf(link) + rest);
  }

  lemma BatchesBefore(frames: seq<Frame>, n: nat)
    requires n <= |frames| && OnlyBatches(frames[..n])
    ensures forall i :: 0 <= i < n ==> frames[i].EventBatch?
  {
    assert forall i :: 0 <= i < n ==> frames[..n][i] == frames[i];
  }

  lemma DoneTakenData(s: Setup, y: Side, x: Side, link: seq<Frame>)
    requires DataOn(s, y, x, link) && Got(y.phase) >= 5 && x.phase.AwaitEvents?
    requires link != [] && link[0].SyncDone?
    ensures DataOn(s, y, x.(phase := Live), link[1..])
  {
    hide Flows;
    if !y.phase.Serving? && !y.phase.Failed? {
      BatchesBefore(link, |link| - 1);
    }
    assert link == [SyncDone];
    assert Flatten(link) == Flatten(link[1..]) by {
      assert Flatten(link) == WiresOf(link[0]) + Flatten(link[1..]);
    }
  }

  /** What is taken, or about to be taken, is stored at the sender. */
  lemma TakenIsStored(s: Setup, y: Side, x: Side, link: seq<Frame>, e: EventEnvelope)
    requires DataOn(s, y, x, link) && Got(y.phase) >= 5 && link != [] && link[0].EventBatch?
    requires e in EventSet(x.received) || e in EventSet(link[0].wires)
    ensures StoredEvent(s.a0.events, e) && e.header.group in Shared(s)
  {
    EventSetIs(x.received);
    EventSetIs(link[0].wires);
    var rest := link[1..];
    assert Flatten(link) == link[0].wires + Flatten(rest);
    EventsOfConcat(link[0].wires, Flatten(rest));
    assert e in EventsOf(x.received) || e in EventsOf(Flatten(link));
    FlowsMember(s, x.received, Flatten(link), y.outbox, y.todo, e);
    TotalIsStored(s, e);
  }

  lemma FlowsMember(s: Setup, received: seq<WireEvent>, link: seq<WireEvent>, outbox: seq<WireEvent>,
                    todo: seq<RangeRequest>, e: EventEnvelope)
    requires Flows(s, received, link, outbox, todo)
    requires e in EventsOf(received) || e in EventsOf(link)
    ensures e in Total(s)
  {
    var rest := EventsOf(outbox) + ServedEvents(s.a0.events, todo);
    assert e in EventsOf(received) || e in EventsOf(link) + rest;
  }

  lemma TakenIsUnion(s: Setup, x: Side, wires: seq<WireEvent>)
    requires Ready(s) && Own(s, x) && x.phase.AwaitEvents?
    requires forall e :: e in EventSet(x.received) || e in EventSet(wires) ==>
               StoredEvent(s.b0.events, e) && e.header.group in Shared(s)
    ensures var r := Deliver(x.db, wires, x.remote.displayName);
            && r.error.None? && ValidDb(r.db) && r.db == x.db.(events := r.db.events, peers := r.db.peers)
            && AllFit(EventSet(x.received + wires)) && IsUnion(s.a0.events, EventSet(x.received + wires), r.db.events)
  {
    hide Own, ValidDb, IsUnion, Ready, Deliverable, Extends, Deliver;
    OwnUnion(s, x);
    BatchDeliverable(s, x, wires);
    DeliverExactly(x.db, wires, x.remote.displayName);
    EventSetConcat(x.received, wires);
    var after := Deliver(x.db, wires, x.remote.displayName).db;
    assert AllFit(EventSet(x.received) + EventSet(wires));
    UnionCompose(s.a0.events, EventSet(x.received), x.db.events, EventSet(wires), after.events);
  }

  lemma OwnUnion(s: Setup, x: Side)
    requires Own(s, x)
    ensures ValidDb(x.db) && AllFit(EventSet(x.received)) && IsUnion(s.a0.events, EventSet(x.received), x.db.events)
  {
    hide FitsFrame, ChannelsFrom, KnowsChannels, ValidDb, AllGood, GoodOutbox, AllFit, IsUnion, NamesOf;
  }

  /** Taking a batch of the peer's events adds exactly them. */
  lemma TakeEventsOwn(s: Setup, x: Side, wires: seq<WireEvent>)
    requires Ready(s) && Own(s, x) && x.phase.AwaitEvents?
    requires forall e :: e in EventSet(x.received) || e in EventSet(wires) ==>
               StoredEvent(s.b0.events, e) && e.header.group in Shared(s)
    ensures var z := TakeEvents(x, wires);
            Own(s, z) && z.phase == x.phase && z.received == x.received + wires
  {
    hide ChannelsFrom, KnowsChannels, ValidDb, AllGood, GoodOutbox, AllFit, IsUnion, Ready, NamesOf, Deliver, EventSet,
         FitsFrame;
    TakenIsUnion(s, x, wires);
  }

  lemma TakeDoneOwn(s: Setup, x: Side)
    requires Own(s, x) && x.phase.AwaitEvents?
    ensures Own(s, x.(phase := Live))
  {
    hide ChannelsFrom, KnowsChannels, ValidDb, AllGood, GoodOutbox, AllFit, IsUnion;
  }

  // ---------------------------------------------------------------- every step keeps the invariant

  /** The link from a side depends on that side only through what it has still to
      send. */
  lemma SameSender(s: Setup, x: Side, z: Side, y: Side, link: seq<Frame>)
    requires Linked(s, x, y, link)
    requires Sent(z.phase) == Sent(x.phase) && Got(z.phase) == Got(x.phase) && z.phase.Serving? == x.phase.Serving?
    requires z.phase.Failed? == x.phase.Failed?
    requires z.todo == x.todo && z.outbox == x.outbox
    ensures Linked(s, z, y, link)
  {
    hide Script, DataOn;
    SameRemaining(s, x, z, y, link[Sent(x.phase) - Got(y.phase)..]);
  }

  lemma SameRemaining(s: Setup, x: Side, z: Side, y: Side, data: seq<Frame>)
    requires DataOn(s, x, y, data) && Got(z.phase) == Got(x.phase)
    requires z.phase.Serving? == x.phase.Serving? && z.phase.Failed? == x.phase.Failed?
    requires z.todo == x.todo && z.outbox == x.outbox
    ensures DataOn(s, z, y, data)
  {
    hide Flows, SentFit, OnlyBatches, Flatten;
  }

  lemma TakeControlKeeps(s: Setup, net: Net)
    requires Ready(s) && Inv(s, net) && EnabledLeft(net, DoTake) && Got(net.a.phase) < 5
    ensures Inv(s, StepLeft(net, DoTake))
  {
    hide Own, Linked, Ready, Take, Script;
    var x := net.a;
    NextControl(FlipSetup(s), net.b, x, net.ba);
    TakeControlOwn(s, x);
    var z := Take(x, net.ba[0]);
    LinkShrinks(FlipSetup(s), net.b, x, z, net.ba);
    TakeControlLinked(s, x, z, net.b, net.ab);
  }

  lemma TakeBatchKeeps(s: Setup, net: Net)
    requires net.a.phase.AwaitEvents? && net.ba != [] && net.ba[0].EventBatch? && EnabledLeft(net, DoTake)
    requires Ready(s) && Inv(s, net)
    ensures Inv(s, StepLeft(net, DoTake))
  {
    hide Own, Linked, DataOn, Ready, TakeEvents;
    var x, y, link := net.a, net.b, net.ba;
    NextData(FlipSetup(s), y, x, link);
    var wires := link[0].wires;
    forall e | e in EventSet(x.received) || e in EventSet(wires)
      ensures StoredEvent(s.b0.events, e) && e.header.group in Shared(s)
    {
      SharedFlips(s);
      TakenIsStored(FlipSetup(s), y, x, link, e);
    }
    TakeEventsOwn(s, x, wires);
    TakeBatchLinked(s, x, TakeEvents(x, wires), y, net.ab, link);
  }

  lemma TakeBatchLinked(s: Setup, x: Side, z: Side, y: Side, ab: seq<Frame>, ba: seq<Frame>)
    requires Linked(s, x, y, ab) && Linked(FlipSetup(s), y, x, ba)
    requires x.phase.AwaitEvents? && ba != [] && ba[0].EventBatch? && z == TakeEvents(x, ba[0].wires)
    requires z.phase == x.phase && z.received == x.received + ba[0].wires
    ensures Linked(s, z, y, ab) && Linked(FlipSetup(s), y, z, ba[1..])
  {
    hide Linked, DataOn;
    NextData(FlipSetup(s), y, x, ba);
    BatchTakenData(FlipSetup(s), y, x, z, ba);
    DataLinked(FlipSetup(s), y, z, ba[1..]);
    SameSender(s, x, z, y, ab);
  }

  lemma TakeDoneKeeps(s: Setup, net: Net)
    requires net.a.phase.AwaitEvents? && net.ba != [] && net.ba[0].SyncDone? && EnabledLeft(net, DoTake) && Inv(s, net)
    ensures Inv(s, StepLeft(net, DoTake))
  {
    hide Own, Linked, DataOn;
    var x, y, link := net.a, net.b, net.ba;
    NextData(FlipSetup(s), y, x, link);
    TakeDoneOwn(s, x);
    DoneTakenData(FlipSetup(s), y, x, link);
    DataLinked(FlipSetup(s), y, x.(phase := Live), link[1..]);
    SameSender(s, x, x.(phase := Live), y, net.ab);
  }

  lemma DataFrames(s: Setup, y: Side, x: Side, link: seq<Frame>)
    requires DataOn(s, y, x, link) && Got(y.phase) >= 5 && link != []
    ensures link[0].EventBatch? || link[0].SyncDone?
  {
    hide Flows;
    if !y.phase.Serving? && !y.phase.Failed? {
      BatchesBefore(link, |link| - 1);
    }
  }

  lemma NextDataKind(s: Setup, net: Net)
    requires Inv(s, net) && net.a.phase.AwaitEvents? && net.ba != []
    ensures net.ba[0].EventBatch? || net.ba[0].SyncDone?
  {
    hide Own, Linked, DataOn;
    NextData(FlipSetup(s), net.b, net.a, net.ba);
    DataFrames(FlipSetup(s), net.b, net.a, net.ba);
  }

  /** A step of either side keeps the invariant. */
  lemma StepKeeps(s: Setup, net: Net, move: Move)
    requires Ready(s) && Inv(s, net) && Enabled(net, move)
    ensures Inv(s, Step(net, move))
  {
    hide Inv, Ready, StepLeft;
    if move.left {
      StepLeftKeeps(s, net, move.act);
    } else {
      ReadyFlips(s);
      InvFlips(s, net);
      StepLeftKeeps(FlipSetup(s), Flip(net), move.act);
      InvFlips(FlipSetup(s), StepLeft(Flip(net), move.act));
    }
  }

  lemma StepLeftKeeps(s: Setup, net: Net, act: Act)
    requires Ready(s) && Inv(s, net) && EnabledLeft(net, act)
    ensures Inv(s, StepLeft(net, act))
  {
    hide Inv, Ready, StepLeft;
    match act
    case DoEmit(n) => EmitKeeps(s, net, n);
    case DoTake =>
      if Got(net.a.phase) < 5 {
        TakeControlKeeps(s, net);
      } else {
        NextDataKind(s, net);
        if net.ba[0].EventBatch? {
          TakeBatchKeeps(s, net);
        } else {
          TakeDoneKeeps(s, net);
        }
      }
  }

  lemma {:induction false} RunKeeps(s: Setup, net: Net, moves: seq<Move>)
    requires Ready(s) && Inv(s, net) && CanRun(net, moves)
    ensures Inv(s, Run(net, moves))
    decreases |moves|
  {
    hide Inv, Ready, Step, Enabled;
    if moves != [] {
      StepKeeps(s, net, moves[0]);
      RunKeeps(s, Step(net, moves[0]), moves[1..]);
    }
  }

  // ---------------------------------------------------------------- progress

  /** What a side has still to send, counted in steps. */
  function Work(s: Setup, x: Side): nat {
    if Got(x.phase) < 5 then 5 - Sent(x.phase) + |ServedToB(s)| + |Total(s)| + 1
    else if x.phase.Serving? then |x.outbox| + |x.todo| + |ServedEvents(s.a0.events, x.todo)| + 1
    else 0
  }

  function Measure(s: Setup, net: Net): nat {
    2 * (Work(s, net.a) + Work(FlipSetup(s), net.b)) + |net.ab| + |net.ba|
  }

  lemma EmitWorks(s: Setup, x: Side, n: nat)
    requires Own(s, x) && CanEmit(x, n)
    ensures Work(s, Emit(x, n).0) < Work(s, x) && |Emit(x, n).1| <= 1
  {
    hide Own, BatchLen, ServedToB, Total, Shared, ServeMore, Script;
    if x.phase.Serving? {
      OwnStore(s, x);
      ServeWorks(s, x, n);
    } else {
      EmitControl(s, x, n);
    }
  }

  lemma OwnStore(s: Setup, x: Side)
    requires Own(s, x) && x.phase.Serving?
    ensures x.db.events == s.a0.events && x.shared == Shared(s)
    ensures x.todo != [] ==> GoodRequest(x.todo[0], x.shared)
  {
    hide FitsFrame, ChannelsFrom, KnowsChannels, ValidDb, GoodOutbox, AllFit, IsUnion, NamesOf;
  }

  lemma ServeWorks(s: Setup, x: Side, n: nat)
    requires x.phase.Serving? && CanEmit(x, n) && x.db.events == s.a0.events
    requires x.todo != [] ==> GoodRequest(x.todo[0], x.shared)
    ensures Work(s, ServeMore(x, n).0) < Work(s, x) && |ServeMore(x, n).1| <= 1
  {
    hide BatchLen, RangeList, ServedToB, Total;
  }

  lemma TakeDataWorks(s: Setup, x: Side, frame: Frame)
    requires x.phase.AwaitEvents?
    ensures Work(s, Take(x, frame)) == 0
  {
    hide ServedToB, Total;
  }

  lemma TakeControlWorks(s: Setup, x: Side)
    requires Ready(s) && Own(s, x) && Awaits(x) && Got(x.phase) < 5
    ensures Work(s, Take(x, Script(FlipSetup(s))[Got(x.phase)])) == Work(s, x)
  {
    hide Own, Ready, Take, Script, ServedToB;
    TakeControlOwn(s, x);
    StartsEmpty(s, x);
    assert Total(s) == ServedEvents(s.a0.events, ServedToB(s));
  }

  lemma TakeWorks(s: Setup, net: Net)
    requires Ready(s) && Inv(s, net) && EnabledLeft(net, DoTake)
    ensures Work(s, Take(net.a, net.ba[0])) <= Work(s, net.a)
  {
    hide Own, Linked, Ready, Take, Script, Work;
    if Got(net.a.phase) < 5 {
      NextControl(FlipSetup(s), net.b, net.a, net.ba);
      TakeControlWorks(s, net.a);
    } else {
      TakeDataWorks(s, net.a, net.ba[0]);
    }
  }

  lemma StartsEmpty(s: Setup, x: Side)
    requires Own(s, x) && !x.phase.Serving? && !x.phase.Failed?
    ensures x.outbox == [] && x.todo == []
  {
    hide FitsFrame, ChannelsFrom, KnowsChannels, ValidDb, AllGood, GoodOutbox, AllFit, IsUnion, NamesOf;
  }

  lemma StepLeftFalls(s: Setup, net: Net, act: Act)
    requires Ready(s) && Inv(s, net) && EnabledLeft(net, act)
    ensures Measure(s, StepLeft(net, act)) < Measure(s, net)
  {
    hide Ready, Work;
    match act
    case DoEmit(n) =>
      hide Emit, Own;
      EmitWorks(s, net.a, n);
    case DoTake =>
      TakeWorks(s, net);
  }

  lemma StepFalls(s: Setup, net: Net, move: Move)
    requires Ready(s) && Inv(s, net) && Enabled(net, move)
    ensures Measure(s, Step(net, move)) < Measure(s, net)
  {
    hide Ready, Inv, Work;
    if move.left {
      StepLeftFalls(s, net, move.act);
    } else {
      hide StepLeft;
      ReadyFlips(s);
      InvFlips(s, net);
      StepLeftFalls(FlipSetup(s), Flip(net), move.act);
    }
  }

  /** Every schedule of a session is finite: no schedule is longer than this. */
  lemma {:induction false} SchedulesEnd(s: Setup, net: Net, moves: seq<Move>)
    requires Ready(s) && Inv(s, net) && CanRun(net, moves)
    ensures |moves| <= Measure(s, net)
    decreases |moves|
  {
    hide Ready, Inv, Step, Measure, Enabled;
    if moves != [] {
      StepKeeps(s, net, moves[0]);
      StepFalls(s, net, moves[0]);
      SchedulesEnd(s, Step(net, moves[0]), moves[1..]);
    }
  }

  /** A side that neither sends nor can take anything waits for a record that the
      other has not sent. */
  predicate Quiet(net: Net) {
    !CanEmit(net.a, 1) && !CanEmit(net.b, 1)
    && (Awaits(net.a) ==> net.ba == []) && (Awaits(net.b) ==> net.ab == [])
  }

  lemma AwaitingRanks(s: Setup, x: Side)
    requires Own(s, x) && !CanEmit(x, 1)
    ensures Awaits(x) || x.phase.Live? || x.phase.Failed?
    ensures Got(x.phase) < 5 ==> Awaits(x) && Sent(x.phase) == Got(x.phase) + 1
    ensures Got(x.phase) == 5 ==> Sent(x.phase) == 5 && !x.phase.Serving?
  {
    hide FitsFrame, ChannelsFrom, KnowsChannels, ValidDb, AllGood, GoodOutbox, AllFit, IsUnion, NamesOf, Estimates;
  }

  lemma EmptyLink(s: Setup, x: Side, y: Side)
    requires Linked(s, x, y, [])
    ensures Sent(x.phase) == Got(y.phase) && DataOn(s, x, y, [])
  {
    hide Script, DataOn;
    var empty: seq<Frame> := [];
    assert empty[0..] == empty;
  }

  lemma NoData(s: Setup, x: Side, y: Side)
    requires DataOn(s, x, y, []) && !x.phase.Serving? && !x.phase.Failed?
    ensures Got(x.phase) < 5 || y.phase.Live?
  {
    hide Flows;
  }

  /** No deadlock: while a side is not live, a side can act, unless one has failed. */
  lemma NoDeadlockLeft(s: Setup, net: Net)
    requires Inv(s, net) && Quiet(net) && !net.a.phase.Failed? && !net.b.phase.Failed?
    ensures net.a.phase.Live?
  {
    hide Own, Linked, DataOn, CanEmit;
    AwaitingRanks(s, net.a);
    AwaitingRanks(FlipSetup(s), net.b);
    if net.ab == [] {
      EmptyLink(s, net.a, net.b);
    }
    if net.ba == [] {
      EmptyLink(FlipSetup(s), net.b, net.a);
      if !net.b.phase.Serving? {
        NoData(FlipSetup(s), net.b, net.a);
      }
    }
  }

  ghost predicate Stuck(net: Net) {
    forall move :: !Enabled(net, move)
  }

  lemma StuckIsQuiet(net: Net)
    requires Stuck(net)
    ensures Quiet(net) && Quiet(Flip(net))
  {
    assert !Enabled(net, Move(true, DoEmit(1))) && !Enabled(net, Move(false, DoEmit(1)));
    assert !Enabled(net, Move(true, DoTake)) && !Enabled(net, Move(false, DoTake));
  }

  /** While no side has failed, the only nets in which nothing can happen are those
      with both sides live. */
  lemma NoDeadlock(s: Setup, net: Net)
    requires Inv(s, net) && !net.a.phase.Failed? && !net.b.phase.Failed?
    ensures Stuck(net) <==> net.a.phase.Live? && net.b.phase.Live?
  {
    hide Inv;
    if Stuck(net) {
      StuckIsQuiet(net);
      NoDeadlockLeft(s, net);
      InvFlips(s, net);
      NoDeadlockLeft(FlipSetup(s), Flip(net));
    }
  }

  /** A side fails only over an event that fits no frame. */
  lemma FitNeverFails(s: Setup, x: Side, y: Side, link: seq<Frame>)
    requires Own(s, x) && Linked(s, x, y, link) && x.phase.Failed?
    ensures x.phase.error == FrameTooLarge && !ServedFit(s)
  {
    hide Own, Script, ServedFit, FitsFrame, DataOn;
    ChokedOn(s, x);
    ChokedInTotal(s, x, y, link[Sent(x.phase) - Got(y.phase)..]);
    NotFit(s, x.outbox[0].event);
  }

  lemma ChokedOn(s: Setup, x: Side)
    requires Own(s, x) && x.phase.Failed?
    ensures x.phase.error == FrameTooLarge && x.outbox != [] && !FitsFrame(s, x.outbox[0].event)
  {
    hide FitsFrame, ChannelsFrom, KnowsChannels, ValidDb, AllGood, GoodOutbox, AllFit, IsUnion, NamesOf;
  }

  lemma ChokedInTotal(s: Setup, x: Side, y: Side, data: seq<Frame>)
    requires DataOn(s, x, y, data) && x.phase.Failed? && x.outbox != []
    ensures x.outbox[0].event in Total(s)
  {
    hide Flows, SentFit, Total;
    OutboxInTotal(s, y.received, Flatten(data), x.outbox, x.todo);
  }

  lemma NotFit(s: Setup, e: EventEnvelope)
    requires e in Total(s) && !FitsFrame(s, e)
    ensures !ServedFit(s)
  {
  }

  lemma OutboxInTotal(s: Setup, received: seq<WireEvent>, link: seq<WireEvent>, outbox: seq<WireEvent>,
                      todo: seq<RangeRequest>)
    requires Flows(s, received, link, outbox, todo) && outbox != []
    ensures outbox[0].event in Total(s)
  {
    var e := outbox[0].event;
    assert EventsOf(outbox)[0] == e;
    var tail := EventsOf(outbox) + ServedEvents(s.a0.events, todo);
    assert tail[0] == e;
    assert e in EventsOf(link) + tail;
  }

  ghost predicate BothFit(s: Setup) {
    ServedFit(s) && ServedFit(FlipSetup(s))
  }

  lemma BothFitNeverFail(s: Setup, net: Net)
    requires Inv(s, net)
    ensures BothFit(s) ==> !net.a.phase.Failed? && !net.b.phase.Failed?
    ensures net.a.phase.Failed? ==> net.a.phase.error == FrameTooLarge
    ensures net.b.phase.Failed? ==> net.b.phase.error == FrameTooLarge
  {
    hide Own, Linked, ServedFit;
    if net.a.phase.Failed? {
      FitNeverFails(s, net.a, net.b, net.ab);
    }
    if net.b.phase.Failed? {
      FitNeverFails(FlipSetup(s), net.b, net.a, net.ba);
    }
  }

  /** When all that is to be sent fits, any net on the way can be brought to its end. */
  lemma {:induction false} Finish(s: Setup, net: Net) returns (moves: seq<Move>)
    requires Ready(s) && BothFit(s) && Inv(s, net)
    ensures CanRun(net, moves)
    ensures Run(net, moves).a.phase.Live? && Run(net, moves).b.phase.Live?
    decreases Measure(s, net)
  {
    hide Ready, BothFit, Inv, Measure, Enabled, Step;
    if net.a.phase.Live? && net.b.phase.Live? {
      moves := [];
    } else {
      BothFitNeverFail(s, net);
      NoDeadlock(s, net);
      var move :| Enabled(net, move);
      StepKeeps(s, net, move);
      StepFalls(s, net, move);
      var rest := Finish(s, Step(net, move));
      moves := [move] + rest;
      assert moves[1..] == rest;
    }
  }

  // ---------------------------------------------------------------- outcome

  /** What a completed session leaves at a: exactly what b was asked for, in that
      order, was received, and it was added to what a held. */
  ghost predicate Completed(s: Setup, x: Side) {
    && x.phase.Live? && ValidDb(x.db)
    && x.db.groups == s.a0.groups && x.db.blocked == s.a0.blocked
    && ChannelsFrom(s, x.db.channels) && KnowsChannels(s, x.db.channels)
    && EventsOf(x.received) == Total(FlipSetup(s))
    && AllFit(EventSet(x.received)) && IsUnion(s.a0.events, EventSet(x.received), x.db.events)
  }

  lemma CompletedLeft(s: Setup, net: Net)
    requires Inv(s, net) && net.a.phase.Live? && net.b.phase.Live?
    ensures Completed(s, net.a)
  {
    assert net.ba[0..] == net.ba;
    hide ValidDb, ChannelsFrom, KnowsChannels, IsUnion, AllFit;
    FinalFlow(FlipSetup(s), net.b, net.a, net.ba);
  }

  lemma FinalFlow(s: Setup, y: Side, x: Side, link: seq<Frame>)
    requires Linked(s, y, x, link) && x.phase.Live? && y.phase.Live? && y.outbox == [] && y.todo == []
    ensures link == [] && EventsOf(x.received) == Total(s) && SentFit(s, x.received)
  {
    hide FitsFrame;
    assert link[0..] == link;
    var xs := EventsOf(x.received);
    assert xs + ([] + ([] + [])) == xs;
  }

  /** What was taken whole was sent whole, so all of it fits. */
  lemma LiveMeansFit(s: Setup, net: Net)
    requires Inv(s, net) && net.a.phase.Live? && net.b.phase.Live?
    ensures ServedFit(s)
  {
    StartsEmpty(s, net.a);
    hide Own, Linked, FitsFrame;
    FinalFlow(s, net.a, net.b, net.ab);
    EventsOfMembers(net.b.received);
  }

  lemma OneLiveBothLive(s: Setup, net: Net)
    requires Inv(s, net) && Quiet(net) && net.a.phase.Live?
    ensures net.b.phase.Live?
  {
    hide Own, DataOn, Script, CanEmit;
    AwaitingRanks(FlipSetup(s), net.b);
    LiveHasAll(FlipSetup(s), net.b, net.a, net.ba[Sent(net.b.phase) - Got(net.a.phase)..]);
    if net.ab == [] {
      EmptyLink(s, net.a, net.b);
      NoData(s, net.a, net.b);
    }
  }

  lemma LiveHasAll(s: Setup, y: Side, x: Side, data: seq<Frame>)
    requires DataOn(s, y, x, data) && x.phase.Live?
    ensures Got(y.phase) >= 5 && !y.phase.Serving? && !y.phase.Failed?
  {
    hide Flows, SentFit;
  }

  lemma LiveMeansBothFit(s: Setup, net: Net)
    requires Inv(s, net) && Quiet(net) && net.a.phase.Live?
    ensures net.b.phase.Live? && BothFit(s)
  {
    hide Inv, Quiet, ServedFit;
    OneLiveBothLive(s, net);
    LiveMeansFit(s, net);
    InvFlips(s, net);
    LiveMeansFit(FlipSetup(s), Flip(net));
  }

  lemma BothFitFlips(s: Setup)
    ensures BothFit(FlipSetup(s)) <==> BothFit(s)
  {
    assert FlipSetup(FlipSetup(s)) == s;
  }

  /** At the end of a schedule a side is live exactly when all that either side was
      to send fits. */
  lemma Outcome(s: Setup, net: Net)
    requires Inv(s, net) && Stuck(net)
    ensures net.a.phase.Live? <==> BothFit(s)
    ensures net.b.phase.Live? <==> BothFit(s)
  {
    hide Inv, Stuck, Quiet, BothFit;
    StuckIsQuiet(net);
    InvFlips(s, net);
    BothFitFlips(s);
    if BothFit(s) {
      BothFitNeverFail(s, net);
      NoDeadlock(s, net);
    }
    if net.a.phase.Live? {
      LiveMeansBothFit(s, net);
    }
    if net.b.phase.Live? {
      LiveMeansBothFit(FlipSetup(s), Flip(net));
    }
  }

  lemma BothComplete(s: Setup, net: Net)
    requires Inv(s, net) && net.a.phase.Live? && net.b.phase.Live?
    ensures Completed(s, net.a) && Completed(FlipSetup(s), net.b)
  {
    hide Inv, Completed;
    CompletedLeft(s, net);
    InvFlips(s, net);
    CompletedLeft(FlipSetup(s), Flip(net));
  }

  /** A session between two honest sides, under any schedule: at most Measure steps
      happen, and a side fails only because an event it was asked for fits no frame.
      Once nothing more can happen, each side is live exactly when every event that
      the two were asked for fits a frame; both have then received exactly what
      they asked for. */
  lemma SessionCompletesExactly(s: Setup, moves: seq<Move>)
    requires Ready(s) && CanRun(Init(s), moves)
    ensures var net := Run(Init(s), moves);
            && |moves| <= Measure(s, Init(s))
            && (net.a.phase.Failed? ==> net.a.phase.error == FrameTooLarge && !BothFit(s))
            && (net.b.phase.Failed? ==> net.b.phase.error == FrameTooLarge && !BothFit(s))
            && (Stuck(net) ==> (net.a.phase.Live? <==> BothFit(s)) && (net.b.phase.Live? <==> BothFit(s)))
            && (net.a.phase.Live? && net.b.phase.Live? ==> Completed(s, net.a) && Completed(FlipSetup(s), net.b))
  {
    hide Inv, Ready, Run, CanRun, Measure, Init, Stuck, Completed, BothFit;
    InitInv(s);
    RunKeeps(s, Init(s), moves);
    SchedulesEnd(s, Init(s), moves);
    var net := Run(Init(s), moves);
    BothFitNeverFail(s, net);
    if Stuck(net) {
      Outcome(s, net);
    }
    if net.a.phase.Live? && net.b.phase.Live? {
      BothComplete(s, net);
    }
  }
}
