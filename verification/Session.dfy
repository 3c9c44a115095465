/** The synchronising part of a session as a state machine: two sides that run the
    same program over two unbounded FIFO links (src/network.rs, run_session,
    run_authenticated_session up to the live loop). */
module Session {
  import opened Base
  import opened Model
  import opened Ordering
  import opened Tables
  import opened Delivery
  import opened Inventory
  import opened Wire
  import opened Transfer

  datatype Phase =
    | SendHello | AwaitHello
    | SendProofs | AwaitProofs
    | SendChannels | AwaitChannels
    | SendInventories | AwaitInventories
    | SendRequests | AwaitRequests
    | Serving | AwaitEvents
    | Live
    | Failed(error: Error)

  /** `outbox` holds events read for the request being served, `todo` the requests
      still to serve; `received` records the events taken so far. */
  datatype Side = Side(
    phase: Phase, db: Db, hello: PeerHello, remote: HelloBody, shared: set<GroupId>,
    localInv: seq<GroupInventory>, remoteInv: seq<GroupInventory>,
    todo: seq<RangeRequest>, outbox: seq<WireEvent>, received: seq<WireEvent>)

  function StartSide(db: Db, hello: PeerHello): Side {
    Side(SendHello, db, hello, hello.body, {}, [], [], [], [], [])
  }

  function Fail(x: Side, error: Error): Side {
    x.(phase := Failed(error))
  }

  function Order(groups: set<GroupId>): seq<GroupId> {
    var keys := set g | g in groups :: SortKey(0, 0, 0, g);
    seq(|Sort(keys)|, i requires 0 <= i < |Sort(keys)| => Sort(keys)[i].fourth)
  }

  function InventoriesFrame(db: Db, shared: set<GroupId>): seq<GroupInventory> {
    Restrict(InventoriesOf(db.groups, db.events), shared)
  }

  function WiresFor(db: Db, es: seq<EventEnvelope>): seq<WireEvent> {
    seq(|es|, i requires 0 <= i < |es| => WireEvent(es[i], AuthorName(db, es[i].header.author)))
  }

  // ---------------------------------------------------------------- sending

  /** A side may act on its own in every phase that does not wait. When events are
      in the outbox, n of them form the next batch. */
  predicate CanEmit(x: Side, n: nat) {
    match x.phase
    case SendHello | SendProofs | SendChannels | SendInventories | SendRequests => true
    case Serving => x.outbox != [] ==> 1 <= n <= |x.outbox| && BatchRule(x.outbox[..n])
    case _ => false
  }

  function ServeMore(x: Side, n: nat): (Side, seq<Frame>)
    requires x.phase.Serving? && CanEmit(x, n)
  {
    if x.outbox != [] then
      var frame := EventBatch(x.outbox[..n]);
      if FrameFits(frame) then (x.(outbox := x.outbox[n..]), [frame]) else (Fail(x, FrameTooLarge), [])
    else if x.todo != [] then
      var r := x.todo[0];
      if r.group !in x.shared then (Fail(x, UnauthorizedGroup), [])
      else if !(0 < r.first <= r.last) then (Fail(x, InvalidRange), [])
      else if r.last > I64_MAX then (Fail(x, IntegerOutOfRange), [])
      else
        var events := RangeList(x.db.events, r.group, r.author, r.first, r.last);
        (x.(todo := x.todo[1..], outbox := WiresFor(x.db, events)), [])
    else (x.(phase := AwaitEvents), [SyncDone])
  }

  function Emit(x: Side, n: nat): (Side, seq<Frame>)
    requires CanEmit(x, n)
  {
    match x.phase
    case SendHello => (x.(phase := AwaitHello), [Hello(x.hello)])
    case SendProofs => (x.(phase := AwaitProofs), [GroupProofs(ProofsOf(x.db.groups, x.hello.body, x.remote))])
    case SendChannels =>
      (x.(phase := AwaitChannels), [Channels(ChannelFrames(x.db.groups, x.db.channels, Order(x.shared), x.shared))])
    case SendInventories =>
      var inventories := InventoriesFrame(x.db, x.shared);
      (x.(phase := AwaitInventories, localInv := inventories), [Inventories(inventories)])
    case SendRequests => (x.(phase := AwaitRequests), [Requests(MissingRanges(x.localInv, x.remoteInv))])
    case Serving => ServeMore(x, n)
  }

  // ---------------------------------------------------------------- receiving

  predicate Awaits(x: Side) {
    match x.phase
    case AwaitHello | AwaitProofs | AwaitChannels | AwaitInventories | AwaitRequests | AwaitEvents => true
    case _ => false
  }

  function TakeHello(x: Side, hello: PeerHello): Side {
    var verified := VerifyHello(hello);
    if verified.Err? then Fail(x, verified.error)
    else if hello.body.peer == x.hello.body.peer then Fail(x, SelfConnection)
    else if hello.body.peer in x.db.blocked then Fail(x, PeerBlocked)
    else x.(phase := SendProofs, remote := hello.body)
  }

  function TakeProofs(x: Side, proofs: seq<GroupProof>): Side {
    var shared := SharedGroups(x.db.groups, x.hello.body, x.remote, proofs);
    if shared == {} then Fail(x, NoSharedGroup)
    else x.(phase := SendChannels, shared := shared, db := RememberPeer(x.db, x.remote.peer, x.remote.displayName))
  }

  function TakeChannels(x: Side, channels: seq<SealedChannel>): Side {
    var merged := MergeAll(x.db, x.shared, channels);
    if merged.1.Some? then Fail(x.(db := merged.0), merged.1.value)
    else x.(phase := SendInventories, db := merged.0)
  }

  function TakeEvents(x: Side, wires: seq<WireEvent>): Side {
    var r := Deliver(x.db, wires, x.remote.displayName);
    if r.error.Some? then Fail(x.(db := r.db), r.error.value)
    else x.(db := r.db, received := x.received + wires)
  }

  function Take(x: Side, frame: Frame): Side
    requires Awaits(x)
  {
    match (x.phase, frame)
    case (AwaitHello, Hello(hello)) => TakeHello(x, hello)
    case (AwaitProofs, GroupProofs(proofs)) => TakeProofs(x, proofs)
    case (AwaitChannels, Channels(channels)) => TakeChannels(x, channels)
    case (AwaitInventories, Inventories(inventories)) =>
      x.(phase := SendRequests, remoteInv := Restrict(inventories, x.shared))
    case (AwaitRequests, Requests(requests)) =>
      x.(phase := Serving, todo := requests[..ServedCount(requests)])
    case (AwaitEvents, EventBatch(wires)) => TakeEvents(x, wires)
    case (AwaitEvents, SyncDone) => x.(phase := Live)
    case _ => Fail(x, UnexpectedRecord)
  }

  // ---------------------------------------------------------------- two sides

  /** Frames sent and not yet taken wait in `ab` and `ba`. */
  datatype Net = Net(a: Side, b: Side, ab: seq<Frame>, ba: seq<Frame>)

  datatype Act = DoEmit(n: nat) | DoTake

  datatype Move = Move(left: bool, act: Act)

  function Flip(net: Net): Net {
    Net(net.b, net.a, net.ba, net.ab)
  }

  predicate EnabledLeft(net: Net, act: Act) {
    match act
    case DoEmit(n) => CanEmit(net.a, n)
    case DoTake => Awaits(net.a) && net.ba != []
  }

  function StepLeft(net: Net, act: Act): Net
    requires EnabledLeft(net, act)
  {
    match act
    case DoEmit(n) =>
      var (x, frames) := Emit(net.a, n);
      net.(a := x, ab := net.ab + frames)
    case DoTake => net.(a := Take(net.a, net.ba[0]), ba := net.ba[1..])
  }

  predicate Enabled(net: Net, move: Move) {
    EnabledLeft(if move.left then net else Flip(net), move.act)
  }

  function Step(net: Net, move: Move): Net
    requires Enabled(net, move)
  {
    if move.left then StepLeft(net, move.act) else Flip(StepLeft(Flip(net), move.act))
  }

  /** A schedule that the machine can follow. */
  predicate CanRun(net: Net, moves: seq<Move>)
    decreases |moves|
  {
    moves == [] || (Enabled(net, moves[0]) && CanRun(Step(net, moves[0]), moves[1..]))
  }

  function Run(net: Net, moves: seq<Move>): Net
    requires CanRun(net, moves)
    decreases |moves|
  {
    if moves == [] then net else Run(Step(net, moves[0]), moves[1..])
  }

  /** Two stores and the hellos of their owners at the start of a session. */
  datatype Setup = Setup(a0: Db, b0: Db, ha: PeerHello, hb: PeerHello)

  function FlipSetup(s: Setup): Setup {
    Setup(s.b0, s.a0, s.hb, s.ha)
  }

  function Init(s: Setup): Net {
    Net(StartSide(s.a0, s.ha), StartSide(s.b0, s.hb), [], [])
  }

  function Shared(s: Setup): set<GroupId> {
    Common(s.a0.groups, s.b0.groups)
  }

  // ---------------------------------------------------------------- assumptions

  /** Stores that hold the same event at every key both hold. */
  ghost predicate Agree(x: Events, y: Events) {
    forall k :: k in x && k in y ==> x[k] == y[k]
  }

  ghost predicate ChannelsAgree(x: map<ChannelId, ChannelRow>, y: map<ChannelId, ChannelRow>) {
    forall c :: c in x && c in y ==> x[c].group == y[c].group
  }

  /** What one honest side must bring: a valid store, an acceptable hello, no block
      on the other side or on an author of whom the other holds an event in a shared
      group, and events whose lengths are 64-bit sizes. */
  ghost predicate HonestSide(s: Setup) {
    && ValidDb(s.a0)
    && VerifyHello(s.ha).Ok?
    && s.hb.body.peer !in s.a0.blocked
    && (forall k :: k in s.b0.events && k.group in Shared(s) ==> k.author !in s.a0.blocked)
    && (forall k :: k in s.a0.events && k.group in Shared(s) ==> CiphertextLen(s.a0.events[k].ciphertext) <= U64_MAX)
  }

  ghost predicate Ready(s: Setup) {
    && HonestSide(s) && HonestSide(FlipSetup(s))
    && s.ha.body.peer != s.hb.body.peer
    && Shared(s) != {}
    && Agree(s.a0.events, s.b0.events)
    && ChannelsAgree(s.a0.channels, s.b0.channels)
  }

  lemma ReadyFlips(s: Setup)
    requires Ready(s)
    ensures Ready(FlipSetup(s)) && Shared(FlipSetup(s)) == Shared(s) && FlipSetup(FlipSetup(s)) == s
  {
    assert Shared(FlipSetup(s)) == Shared(s);
  }
}
