/** One side of a session against any peer whatever (src/network.rs, run_session): the
    records it hears may be of any kind, content and order. */
module AnyPeer {
  import opened Base
  import opened Text
  import opened Model
  import opened Crypto
  import opened Tables
  import opened Delivery
  import opened Inventory
  import opened Wire
  import opened Transfer
  import opened Session
  import Runs

  datatype Turn = Say(n: nat) | Hear(frame: Frame)

  predicate CanTurn(x: Side, turn: Turn) {
    match turn
    case Say(n) => CanEmit(x, n)
    case Hear(_) => Awaits(x)
  }

  function After(x: Side, turn: Turn): Side
    requires CanTurn(x, turn)
  {
    match turn
    case Say(n) => Emit(x, n).0
    case Hear(frame) => Take(x, frame)
  }

  function Spoken(x: Side, turn: Turn): seq<Frame>
    requires CanTurn(x, turn)
  {
    match turn
    case Say(n) => Emit(x, n).1
    case Hear(_) => []
  }

  predicate CanTalk(x: Side, turns: seq<Turn>)
    decreases |turns|
  {
    turns == [] || (CanTurn(x, turns[0]) && CanTalk(After(x, turns[0]), turns[1..]))
  }

  function Talk(x: Side, turns: seq<Turn>): Side
    requires CanTalk(x, turns)
    decreases |turns|
  {
    if turns == [] then x else Talk(After(x, turns[0]), turns[1..])
  }

  /** All records that the side puts on the link. */
  function Said(x: Side, turns: seq<Turn>): seq<Frame>
    requires CanTalk(x, turns)
    decreases |turns|
  {
    if turns == [] then [] else Spoken(x, turns[0]) + Said(After(x, turns[0]), turns[1..])
  }

  /** All records that the side takes. */
  function Heard(turns: seq<Turn>): seq<Frame> {
    if turns == [] then []
    else (if turns[0].Hear? then [turns[0].frame] else []) + Heard(turns[1..])
  }

  // ---------------------------------------------------------------- the hello

  /** The conditions of the handshake: the version, a name of at most 192 bytes that
      shows something, the signature of the peer it names, not the own key, no block. */
  predicate Admissible(own: PeerId, blocked: set<PeerId>, hello: PeerHello) {
    && hello.body.version == 1
    && (exists i :: 0 <= i < |hello.body.displayName| && !IsWhitespace(hello.body.displayName[i]))
    && ByteLen(hello.body.displayName) <= 192
    && hello.signature == Signed(hello.body.peer, hello.body)
    && hello.body.peer != own
    && hello.body.peer !in blocked
  }

  /** A side that waits for the hello goes on exactly when an admissible one comes; else
      it fails, and keeps all it has. */
  lemma HelloTakenExactly(x: Side, frame: Frame)
    requires x.phase.AwaitHello?
    ensures var later := Take(x, frame);
            if frame.Hello? && Admissible(x.hello.body.peer, x.db.blocked, frame.hello)
            then later == x.(phase := SendProofs, remote := frame.hello.body)
            else later.phase.Failed? && later == x.(phase := later.phase)
  {
    hide ByteLen;
  }

  predicate AtTheDoor(x: Side) {
    x.phase.SendHello? || x.phase.AwaitHello?
  }

  /** What a side is before it has taken an admissible hello, and what it has said. */
  predicate Outside(start: Side, x: Side, said: seq<Frame>) {
    && (AtTheDoor(x) || x.phase.Failed?)
    && x == start.(phase := x.phase)
    && said == if x.phase.SendHello? then [] else [Hello(start.hello)]
  }

  predicate Admits(start: Side, frame: Frame) {
    frame.Hello? && Admissible(start.hello.body.peer, start.db.blocked, frame.hello)
  }

  lemma OutsideStays(start: Side, x: Side, said: seq<Frame>, turn: Turn)
    requires Outside(start, x, said) && CanTurn(x, turn)
    requires turn.Hear? ==> !Admits(start, turn.frame)
    ensures Outside(start, After(x, turn), said + Spoken(x, turn))
  {
    match turn
    case Say(n) =>
    case Hear(frame) =>
      HelloTakenExactly(x, frame);
      hide Take, Admissible;
      assert said + [] == said;
  }

  lemma {:induction false} OutsideForEver(start: Side, x: Side, said: seq<Frame>, turns: seq<Turn>)
    requires Outside(start, x, said) && CanTalk(x, turns)
    requires forall frame :: frame in Heard(turns) ==> !Admits(start, frame)
    ensures Outside(start, Talk(x, turns), said + Said(x, turns))
    decreases |turns|
  {
    hide Outside, Admits, CanTurn, After, Spoken;
    if turns == [] {
      assert said + [] == said;
    } else {
      assert turns[0].Hear? ==> turns[0].frame in Heard(turns);
      assert forall frame :: frame in Heard(turns[1..]) ==> frame in Heard(turns);
      OutsideStays(start, x, said, turns[0]);
      OutsideForEver(start, After(x, turns[0]), said + Spoken(x, turns[0]), turns[1..]);
      assert said + Spoken(x, turns[0]) + Said(After(x, turns[0]), turns[1..]) == said + Said(x, turns);
    }
  }

  /** Whatever the peer sends: as long as it is no admissible hello the side stays at the
      door or fails, its store never changes, and it says its hello and nothing else. */
  lemma NobodyElseEnters(db: Db, hello: PeerHello, turns: seq<Turn>)
    requires CanTalk(StartSide(db, hello), turns)
    requires forall frame :: frame in Heard(turns) ==>
               !(frame.Hello? && Admissible(hello.body.peer, db.blocked, frame.hello))
    ensures var x := Talk(StartSide(db, hello), turns);
            && (x.phase.SendHello? || x.phase.AwaitHello? || x.phase.Failed?) && x.db == db
            && (Said(StartSide(db, hello), turns) == [] || Said(StartSide(db, hello), turns) == [Hello(hello)])
  {
    var start := StartSide(db, hello);
    hide CanTurn, After, Spoken, Admissible, Talk, Said;
    OutsideForEver(start, start, [], turns);
    assert [] + Said(start, turns) == Said(start, turns);
  }

  // ---------------------------------------------------------------- what a peer can bring about

  /** The peer has sent a proof made with the key of the group, from its hello to ours. */
  predicate Proven(groups: map<GroupId, GroupRow>, own: HelloBody, remote: HelloBody, heard: seq<Frame>, g: GroupId) {
    && g in groups
    && exists frame :: frame in heard && frame.GroupProofs? &&
         GroupProof(g, Mac(groups[g].secret, g, remote.peer, remote.nonce, own.peer, own.nonce)) in frame.proofs
  }

  /** The groups of which a record tells more than a proof. */
  function Mentioned(frame: Frame): set<GroupId> {
    match frame
    case Channels(channels) => set c | c in channels :: c.group
    case Inventories(inventories) => set v | v in inventories :: v.group
    case Requests(requests) => set r | r in requests :: r.group
    case EventBatch(wires) => set w | w in wires :: w.event.header.group
    case _ => {}
  }

  /** All that the side has at hand to send is of shared groups. */
  ghost predicate Confined(x: Side) {
    && (forall v :: v in x.localInv || v in x.remoteInv ==> v.group in x.shared)
    && (forall w :: w in x.outbox ==> w.event.header.group in x.shared)
  }

  lemma {:induction false} RestrictExactly(inventories: seq<GroupInventory>, groups: set<GroupId>)
    ensures forall v :: v in Restrict(inventories, groups) <==> v in inventories && v.group in groups
  {
    if inventories != [] {
      RestrictExactly(inventories[1..], groups);
      assert forall v :: v in inventories <==> v == inventories[0] || v in inventories[1..];
    }
  }

  lemma {:induction false} FramesOfGroups(groups: map<GroupId, GroupRow>, channels: map<ChannelId, ChannelRow>,
                                          list: seq<GroupId>, shared: set<GroupId>)
    ensures forall c :: c in ChannelFrames(groups, channels, list, shared) ==> c.group in shared
  {
    if list != [] {
      FramesOfGroups(groups, channels, list[1..], shared);
      forall channel | channel in ChannelList(channels, list[0])
        ensures channel.group == list[0]
      {
        ChannelListExactly(channels, list[0], channel);
      }
    }
  }

  lemma {:induction false} RequestsOfOne(heads: HeadMap, group: GroupId, list: seq<AuthorHead>)
    ensures forall r :: r in GroupRequests(heads, group, list) ==> r.group == group && 0 < r.first <= r.last
  {
    if list != [] {
      RequestsOfOne(heads, group, list[1..]);
    }
  }

  /** Whatever inventories come, the requests are for proper ranges of listed groups. */
  lemma {:induction false} RequestsOfGroups(heads: HeadMap, remote: seq<GroupInventory>)
    ensures forall r :: r in AllRequests(heads, remote) ==>
              0 < r.first <= r.last && exists v :: v in remote && v.group == r.group
  {
    if remote != [] {
      RequestsOfOne(heads, remote[0].group, remote[0].heads);
      RequestsOfGroups(heads, remote[1..]);
      forall r | r in AllRequests(heads, remote)
        ensures exists v :: v in remote && v.group == r.group
      {
        if r in AllRequests(heads, remote[1..]) {
          var v :| v in remote[1..] && v.group == r.group;
          assert v in remote;
        } else {
          assert remote[0] in remote;
        }
      }
    }
  }

  lemma {:induction false} DeliverySettings(db: Db, wires: seq<WireEvent>, name: string)
    ensures var later := Deliver(db, wires, name).db; later.groups == db.groups && later.blocked == db.blocked
    decreases |wires|
  {
    hide ValidateAndOpenEvent, CleanLabel;
    if wires != [] {
      var r := InsertRemote(db, wires[0].event, NameFor(wires[0], name));
      if r.Ok? {
        DeliverySettings(r.value.0, wires[1..], name);
      }
    }
  }

  /** No group is shared before proofs were taken, all that waits to be sent and all that
      was sent is of shared groups, and each of these is proven. */
  ghost predicate Guarded(start: Side, x: Side, heard: seq<Frame>, said: seq<Frame>) {
    && x.hello == start.hello && x.db.groups == start.db.groups && x.db.blocked == start.db.blocked
    && (AtTheDoor(x) || x.phase.SendProofs? || x.phase.AwaitProofs? ==> x.shared == {})
    && (x.shared != {} || (!AtTheDoor(x) && !x.phase.Failed?) ==> x.remote.peer != start.hello.body.peer)
    && Confined(x)
    && (forall g :: g in x.shared ==> Proven(start.db.groups, start.hello.body, x.remote, heard, g))
    && (forall frame :: frame in said ==> Mentioned(frame) <= x.shared)
  }

  lemma SayGuards(start: Side, x: Side, heard: seq<Frame>, said: seq<Frame>, n: nat)
    requires Guarded(start, x, heard, said) && CanEmit(x, n)
    ensures Guarded(start, Emit(x, n).0, heard, said + Emit(x, n).1)
  {
    hide Proven, ChannelList, Restrict, ProofsOf, FrameFits, RangeList, MissingRanges, InventoriesOf, ValidDb;
    RestrictExactly(InventoriesOf(x.db.groups, x.db.events), x.shared);
    FramesOfGroups(x.db.groups, x.db.channels, Order(x.shared), x.shared);
    SayMentions(x, n);
    SayConfines(x, n);
  }

  lemma SayMentions(x: Side, n: nat)
    requires Confined(x) && CanEmit(x, n)
    ensures forall frame :: frame in Emit(x, n).1 ==> Mentioned(frame) <= x.shared
  {
    hide ChannelList, Restrict, ProofsOf, FrameFits, RangeList, InventoriesOf, Order;
    match x.phase
    case SendInventories => RestrictExactly(InventoriesOf(x.db.groups, x.db.events), x.shared);
    case SendChannels => FramesOfGroups(x.db.groups, x.db.channels, Order(x.shared), x.shared);
    case SendRequests => RequestsOfGroups(LocalHeads(map[], x.localInv), x.remoteInv);
    case _ =>
  }

  lemma SayConfines(x: Side, n: nat)
    requires Confined(x) && CanEmit(x, n)
    ensures Confined(Emit(x, n).0)
  {
    hide ChannelList, Restrict, ProofsOf, FrameFits, InventoriesOf, Order, ChannelFrames, MissingRanges, AuthorName;
    match x.phase
    case SendInventories => RestrictExactly(InventoriesOf(x.db.groups, x.db.events), x.shared);
    case Serving =>
      if x.outbox == [] && x.todo != [] {
        var r := x.todo[0];
        RangeListExactly(x.db.events, r.group, r.author, r.first, r.last);
        forall e | e in RangeList(x.db.events, r.group, r.author, r.first, r.last)
          ensures e.header.group == r.group
        {
          assert StoredInRange(x.db.events, r.group, r.author, r.first, r.last, e);
        }
      }
    case _ =>
  }

  lemma ProvenStays(groups: map<GroupId, GroupRow>, own: HelloBody, remote: HelloBody, heard: seq<Frame>, frame: Frame,
                    g: GroupId)
    requires Proven(groups, own, remote, heard, g)
    ensures Proven(groups, own, remote, heard + [frame], g)
  {
    var f :| f in heard && f.GroupProofs? &&
      GroupProof(g, Mac(groups[g].secret, g, remote.peer, remote.nonce, own.peer, own.nonce)) in f.proofs;
    assert f in heard + [frame];
  }

  /** Hearing anything but proofs in their place leaves what is shared, and who it is
      shared with, as it was. */
  lemma HearKeepsShared(x: Side, frame: Frame)
    requires Awaits(x) && Confined(x) && (x.phase.AwaitHello? || x.phase.AwaitProofs? ==> x.shared == {})
    ensures var later := Take(x, frame);
            && later.hello == x.hello && later.db.groups == x.db.groups && later.db.blocked == x.db.blocked
            && (!(x.phase.AwaitProofs? && frame.GroupProofs?) ==> later.shared == x.shared)
            && (!(x.phase.AwaitHello? && frame.Hello?) ==> later.remote == x.remote)
            && Confined(later)
  {
    hide Deliver, MergeAll, Restrict, CleanLabel, VerifyHello, SharedGroups;
    match (x.phase, frame)
    case (AwaitChannels, Channels(channels)) => MergesExactly(x.db, x.shared, channels, 0);
    case (AwaitInventories, Inventories(inventories)) => RestrictExactly(inventories, x.shared);
    case (AwaitEvents, EventBatch(wires)) => DeliverySettings(x.db, wires, x.remote.displayName);
    case _ =>
  }

  lemma HearGuards(start: Side, x: Side, heard: seq<Frame>, said: seq<Frame>, frame: Frame)
    requires Guarded(start, x, heard, said) && Awaits(x)
    ensures Guarded(start, Take(x, frame), heard + [frame], said)
  {
    hide Confined, Deliver, MergeAll, Restrict, CleanLabel, VerifyHello, ByteLen, Admissible;
    HearKeepsShared(x, frame);
    var later := Take(x, frame);
    if x.phase.AwaitHello? {
      HelloTakenExactly(x, frame);
    }
    forall g | g in later.shared
      ensures Proven(start.db.groups, start.hello.body, later.remote, heard + [frame], g)
    {
      if g in x.shared {
        ProvenStays(start.db.groups, start.hello.body, x.remote, heard, frame, g);
      } else {
        ProvenExactly(x.db.groups, x.hello.body, x.remote, frame.proofs, g);
        assert frame in heard + [frame];
      }
    }
  }

  lemma TurnGuards(start: Side, x: Side, heard: seq<Frame>, said: seq<Frame>, turn: Turn)
    requires Guarded(start, x, heard, said) && CanTurn(x, turn)
    ensures Guarded(start, After(x, turn), heard + Heard([turn]), said + Spoken(x, turn))
  {
    hide Guarded, Emit, Take, CanEmit, Awaits;
    assert [turn][1..] == [];
    match turn
    case Say(n) =>
      SayGuards(start, x, heard, said, n);
      assert heard + Heard([turn]) == heard;
    case Hear(frame) =>
      HearGuards(start, x, heard, said, frame);
      assert Heard([turn]) == [frame];
      assert said + Spoken(x, turn) == said;
  }

  lemma HeardCons(turns: seq<Turn>)
    requires turns != []
    ensures Heard(turns) == Heard([turns[0]]) + Heard(turns[1..])
  {
    assert [turns[0]][1..] == [];
  }

  lemma {:induction false} GuardedForEver(start: Side, x: Side, heard: seq<Frame>, said: seq<Frame>, turns: seq<Turn>)
    requires Guarded(start, x, heard, said) && CanTalk(x, turns)
    ensures Guarded(start, Talk(x, turns), heard + Heard(turns), said + Said(x, turns))
    decreases |turns|
  {
    hide Guarded, After, Spoken, CanTurn;
    if turns == [] {
      assert heard + [] == heard && said + [] == said;
    } else {
      var next, told, more := After(x, turns[0]), Heard([turns[0]]), Spoken(x, turns[0]);
      TurnGuards(start, x, heard, said, turns[0]);
      HeardCons(turns);
      hide Heard;
      GuardedForEver(start, next, heard + told, said + more, turns[1..]);
      assert heard + told + Heard(turns[1..]) == heard + Heard(turns);
      assert said + more + Said(next, turns[1..]) == said + Said(x, turns);
    }
  }

  lemma StartIsGuarded(db: Db, hello: PeerHello)
    ensures Guarded(StartSide(db, hello), StartSide(db, hello), [], [])
  {
  }

  /** Against any peer: a side tells of a group, its channels, heads, ranges or events,
      only when it has taken an admissible hello and a proof, made with the key of the
      group, from that hello to its own. */
  lemma OnlyProvenIsTold(db: Db, hello: PeerHello, turns: seq<Turn>, frame: Frame, g: GroupId)
    requires CanTalk(StartSide(db, hello), turns)
    requires frame in Said(StartSide(db, hello), turns) && g in Mentioned(frame)
    ensures var remote := Talk(StartSide(db, hello), turns).remote;
            remote.peer != hello.body.peer && Proven(db.groups, hello.body, remote, Heard(turns), g)
  {
    hide Talk, Said, CanTalk, Proven, Confined, Mentioned;
    var start := StartSide(db, hello);
    StartIsGuarded(db, hello);
    GuardedForEver(start, start, [], [], turns);
    assert [] + Heard(turns) == Heard(turns) && [] + Said(start, turns) == Said(start, turns);
  }

  /** So a peer that presents nothing made with the key of a group learns nothing of the
      group, whatever else it sends. */
  lemma KeylessPeerLearnsNothing(db: Db, hello: PeerHello, turns: seq<Turn>, frame: Frame, g: GroupId)
    requires CanTalk(StartSide(db, hello), turns) && frame in Said(StartSide(db, hello), turns) && g in db.groups
    requires forall f, p :: f in Heard(turns) && f.GroupProofs? && p in f.proofs ==>
               WithoutKey(p.proof, db.groups[g].secret, hello.body)
    ensures g !in Mentioned(frame)
  {
    hide Talk, Said, CanTalk, Mentioned;
    if g in Mentioned(frame) {
      OnlyProvenIsTold(db, hello, turns, frame, g);
    }
  }

  // ---------------------------------------------------------------- what a peer can do to the store

  ghost predicate Unharmed(db: Db, later: Db) {
    && ValidDb(later) && Extends(db, later) && later.groups == db.groups && later.blocked == db.blocked
    && forall k :: k in later.events && k !in db.events ==> k.author !in db.blocked
  }

  lemma {:induction false} DeliveryHarmsNothing(db: Db, wires: seq<WireEvent>, name: string)
    requires ValidDb(db)
    ensures Unharmed(db, Deliver(db, wires, name).db)
    decreases |wires|
  {
    hide ValidDb, Extends, InsertRemote;
    if wires == [] {
      ItselfUnharmed(db);
    } else {
      var e, given := wires[0].event, NameFor(wires[0], name);
      InsertRemoteExactly(db, e, given);
      var r := InsertRemote(db, e, given);
      if r.Ok? {
        DeliveryHarmsNothing(r.value.0, wires[1..], name);
        UnharmedTwice(db, r.value.0, Deliver(r.value.0, wires[1..], name).db);
      } else {
        ItselfUnharmed(db);
      }
    }
  }

  lemma ItselfUnharmed(db: Db)
    requires ValidDb(db)
    ensures Unharmed(db, db)
  {
    hide ValidDb;
  }

  lemma UnharmedTwice(db: Db, later: Db, last: Db)
    requires Unharmed(db, later) && Unharmed(later, last)
    ensures Unharmed(db, last)
  {
    hide ValidDb;
  }

  lemma FirstIsAuthentic(groups: map<GroupId, GroupRow>, shared: set<GroupId>, list: seq<SealedChannel>, c: ChannelId)
    requires forall i :: 0 <= i < |list| ==> Authentic(groups, shared, list[i])
    ensures FirstOf(list, c).Some? ==> FirstOf(list, c).value.group in groups
  {
    var first := FirstIsOne(list, c);
  }

  lemma MergingHarmsNothing(db: Db, shared: set<GroupId>, list: seq<SealedChannel>)
    requires ValidDb(db)
    ensures Unharmed(db, MergeAll(db, shared, list).0)
  {
    var later, n := MergeAll(db, shared, list).0, Leading(db.groups, shared, list);
    hide MergeAll, CleanLabel;
    MergesExactly(db, shared, list, 0);
    forall c
      ensures c in db.channels ==> c in later.channels && later.channels[c] == db.channels[c]
      ensures c in later.channels ==> later.channels[c].group in db.groups
    {
      MergesExactly(db, shared, list, c);
      FirstIsAuthentic(db.groups, shared, list[..n], c);
    }
    Runs.ChannelsGrow(db, later);
    hide ValidDb;
  }

  lemma TurnHarmsNothing(x: Side, turn: Turn)
    requires ValidDb(x.db) && CanTurn(x, turn)
    ensures Unharmed(x.db, After(x, turn).db)
  {
    hide Unharmed, MergeAll, Deliver, VerifyHello, SharedGroups, CanEmit, RememberPeer, ValidDb, Restrict;
    ItselfUnharmed(x.db);
    match turn
    case Say(n) =>
    case Hear(frame) =>
      match (x.phase, frame) {
        case (AwaitProofs, GroupProofs(proofs)) => RememberingHarmsNothing(x.db, x.remote);
        case (AwaitChannels, Channels(channels)) => MergingHarmsNothing(x.db, x.shared, channels);
        case (AwaitEvents, EventBatch(wires)) => DeliveryHarmsNothing(x.db, wires, x.remote.displayName);
        case _ =>
      }
  }

  lemma RememberingHarmsNothing(db: Db, remote: HelloBody)
    requires ValidDb(db)
    ensures Unharmed(db, RememberPeer(db, remote.peer, remote.displayName))
  {
    CleanLabelBound(remote.displayName, "Unknown peer", 48);
    Runs.NameKeeps(db, remote.peer, CleanLabel(remote.displayName, "Unknown peer", 48));
    hide ValidDb;
  }

  /** Whatever a peer sends, in a session of any length: the store stays valid, loses and
      changes no group, channel or event, and takes nothing by a blocked author. */
  lemma {:induction false} NoPeerHarmsTheStore(x: Side, turns: seq<Turn>)
    requires ValidDb(x.db) && CanTalk(x, turns)
    ensures Unharmed(x.db, Talk(x, turns).db)
    decreases |turns|
  {
    hide After, CanTurn, ValidDb;
    if turns == [] {
      ItselfUnharmed(x.db);
    } else {
      TurnHarmsNothing(x, turns[0]);
      NoPeerHarmsTheStore(After(x, turns[0]), turns[1..]);
      UnharmedTwice(x.db, After(x, turns[0]).db, Talk(x, turns).db);
    }
  }

  // ---------------------------------------------------------------- records out of place

  /** Which record a side takes in which phase. */
  predicate InPlace(phase: Phase, frame: Frame) {
    || (phase.AwaitHello? && frame.Hello?) || (phase.AwaitProofs? && frame.GroupProofs?)
    || (phase.AwaitChannels? && frame.Channels?) || (phase.AwaitInventories? && frame.Inventories?)
    || (phase.AwaitRequests? && frame.Requests?) || (phase.AwaitEvents? && (frame.EventBatch? || frame.SyncDone?))
  }

  /** Any other record ends the session, and changes nothing else. */
  lemma OutOfPlaceFails(x: Side, frame: Frame)
    requires Awaits(x) && !InPlace(x.phase, frame)
    ensures Take(x, frame) == x.(phase := Failed(UnexpectedRecord))
  {
  }

  /** When the records in place are taken, and what the side then goes on with. */
  lemma InPlaceExactly(x: Side, frame: Frame)
    requires Awaits(x) && InPlace(x.phase, frame) && !frame.Hello?
    ensures var later := Take(x, frame);
            match frame
            case GroupProofs(proofs) =>
              if forall g :: g in x.db.groups ==>
                   GroupProof(g, Mac(x.db.groups[g].secret, g, x.remote.peer, x.remote.nonce,
                                     x.hello.body.peer, x.hello.body.nonce)) !in proofs
              then later == x.(phase := Failed(NoSharedGroup))
              else
                && later == x.(phase := SendChannels, shared := later.shared,
                               db := x.db.(peers := x.db.peers[x.remote.peer :=
                                 CleanLabel(x.remote.displayName, "Unknown peer", 48)]))
                && forall g :: g in later.shared <==>
                     && g in x.db.groups
                     && GroupProof(g, Mac(x.db.groups[g].secret, g, x.remote.peer, x.remote.nonce,
                                          x.hello.body.peer, x.hello.body.nonce)) in proofs
            case Channels(channels) =>
              later.phase.SendInventories? <==>
                forall i :: 0 <= i < |channels| ==> Authentic(x.db.groups, x.shared, channels[i])
            case Inventories(inventories) =>
              && later == x.(phase := SendRequests, remoteInv := later.remoteInv)
              && forall v :: v in later.remoteInv <==> v in inventories && v.group in x.shared
            case Requests(requests) =>
              later == x.(phase := Serving, todo := if |requests| <= 10_000 then requests else requests[..10_000])
            case EventBatch(wires) =>
              if Deliver(x.db, wires, x.remote.displayName).error.None?
              then later.phase.AwaitEvents? && later.received == x.received + wires
              else later.phase.Failed?
            case SyncDone => later == x.(phase := Live)
  {
    hide Deliver, MergeAll, CleanLabel;
    match frame
    case GroupProofs(proofs) =>
      forall g
        ensures g in SharedGroups(x.db.groups, x.hello.body, x.remote, proofs) <==>
                && g in x.db.groups
                && GroupProof(g, Mac(x.db.groups[g].secret, g, x.remote.peer, x.remote.nonce,
                                     x.hello.body.peer, x.hello.body.nonce)) in proofs
      {
        ProvenExactly(x.db.groups, x.hello.body, x.remote, proofs, g);
      }
    case Channels(channels) => MergesExactly(x.db, x.shared, channels, 0);
    case Inventories(inventories) => RestrictExactly(inventories, x.shared);
    case _ =>
  }

  // ---------------------------------------------------------------- two sides

  lemma {:induction false} TalkMore(x: Side, turns: seq<Turn>, turn: Turn)
    requires CanTalk(x, turns) && CanTurn(Talk(x, turns), turn)
    ensures CanTalk(x, turns + [turn]) && Talk(x, turns + [turn]) == After(Talk(x, turns), turn)
    ensures Said(x, turns + [turn]) == Said(x, turns) + Spoken(Talk(x, turns), turn)
    decreases |turns|
  {
    hide After, CanTurn, Spoken;
    var all := turns + [turn];
    if turns == [] {
      assert all[0] == turn && all[1..] == [];
    } else {
      assert all[0] == turns[0] && all[1..] == turns[1..] + [turn];
      TalkMore(After(x, turns[0]), turns[1..], turn);
    }
  }

  lemma {:induction false} HeardMore(turns: seq<Turn>, turn: Turn)
    ensures Heard(turns + [turn]) == Heard(turns) + if turn.Hear? then [turn.frame] else []
  {
    var all := turns + [turn];
    if turns == [] {
      assert all[0] == turn && all[1..] == [];
    } else {
      assert all[0] == turns[0] && all[1..] == turns[1..] + [turn];
      HeardMore(turns[1..], turn);
    }
  }

  /** What the two sides of a net did, each for itself: either has heard what the other
      said, up to what is still on the link. */
  ghost predicate Apart(s: Setup, net: Net, xs: seq<Turn>, ys: seq<Turn>) {
    var a, b := StartSide(s.a0, s.ha), StartSide(s.b0, s.hb);
    && CanTalk(a, xs) && Talk(a, xs) == net.a
    && CanTalk(b, ys) && Talk(b, ys) == net.b
    && Said(a, xs) == Heard(ys) + net.ab
    && Said(b, ys) == Heard(xs) + net.ba
  }

  lemma ApartLeft(s: Setup, net: Net, xs: seq<Turn>, ys: seq<Turn>, act: Act) returns (turn: Turn)
    requires Apart(s, net, xs, ys) && EnabledLeft(net, act)
    ensures Apart(s, StepLeft(net, act), xs + [turn], ys)
  {
    hide Emit, Take, CanEmit, Awaits, Talk, Said, CanTalk, Heard;
    var a, b := StartSide(s.a0, s.ha), StartSide(s.b0, s.hb);
    match act {
      case DoEmit(n) =>
        turn := Say(n);
        assert Said(a, xs) + Emit(net.a, n).1 == Heard(ys) + (net.ab + Emit(net.a, n).1);
      case DoTake =>
        turn := Hear(net.ba[0]);
        assert Said(a, xs) + [] == Said(a, xs);
        assert Heard(xs) + net.ba == Heard(xs) + [net.ba[0]] + net.ba[1..];
    }
    TalkMore(a, xs, turn);
    HeardMore(xs, turn);
    assert Heard(xs) + [] == Heard(xs);
  }

  lemma ApartFlips(s: Setup, net: Net, xs: seq<Turn>, ys: seq<Turn>)
    requires Apart(s, net, xs, ys)
    ensures Apart(FlipSetup(s), Flip(net), ys, xs)
  {
  }

  lemma {:induction false} RunIsApart(s: Setup, net: Net, moves: seq<Move>, xs: seq<Turn>, ys: seq<Turn>)
    returns (us: seq<Turn>, vs: seq<Turn>)
    requires Apart(s, net, xs, ys) && CanRun(net, moves)
    ensures Apart(s, Run(net, moves), us, vs)
    decreases |moves|
  {
    hide Apart, StepLeft, EnabledLeft;
    if moves == [] {
      us, vs := xs, ys;
    } else if moves[0].left {
      var turn := ApartLeft(s, net, xs, ys, moves[0].act);
      us, vs := RunIsApart(s, Step(net, moves[0]), moves[1..], xs + [turn], ys);
    } else {
      ApartFlips(s, net, xs, ys);
      var turn := ApartLeft(FlipSetup(s), Flip(net), ys, xs, moves[0].act);
      ApartFlips(FlipSetup(s), StepLeft(Flip(net), moves[0].act), ys + [turn], xs);
      us, vs := RunIsApart(s, Step(net, moves[0]), moves[1..], xs, ys + [turn]);
    }
  }

  lemma InitIsApart(s: Setup)
    ensures Apart(s, Init(s), [], [])
  {
  }

  ghost predicate NoHellos(frames: seq<Frame>) {
    forall frame :: frame in frames ==> !frame.Hello?
  }

  /** A side says its hello first and never again. */
  ghost predicate HelloFirst(x: Side, said: seq<Frame>) {
    if x.phase.SendHello? then said == []
    else said != [] && said[0] == Hello(x.hello) && NoHellos(said[1..])
  }

  lemma TurnSaysNoHello(x: Side, said: seq<Frame>, turn: Turn)
    requires HelloFirst(x, said) && CanTurn(x, turn)
    ensures HelloFirst(After(x, turn), said + Spoken(x, turn))
  {
    hide MergeAll, Deliver, VerifyHello, SharedGroups, CleanLabel, FrameFits, RangeList, ChannelFrames, ProofsOf;
    match turn
    case Say(n) =>
      if !x.phase.SendHello? {
        assert (said + Spoken(x, turn))[1..] == said[1..] + Spoken(x, turn);
      }
    case Hear(frame) => assert said + [] == said;
  }

  lemma {:induction false} HelloIsFirst(x: Side, said: seq<Frame>, turns: seq<Turn>)
    requires HelloFirst(x, said) && CanTalk(x, turns)
    ensures HelloFirst(Talk(x, turns), said + Said(x, turns)) && Talk(x, turns).hello == x.hello
    decreases |turns|
  {
    hide HelloFirst, CanTurn, Spoken, MergeAll, Deliver, VerifyHello, SharedGroups, RememberPeer, Emit, Take;
    if turns == [] {
      assert said + [] == said;
    } else {
      TurnSaysNoHello(x, said, turns[0]);
      TurnKeepsHello(x, turns[0]);
      HelloIsFirst(After(x, turns[0]), said + Spoken(x, turns[0]), turns[1..]);
      assert said + Spoken(x, turns[0]) + Said(After(x, turns[0]), turns[1..]) == said + Said(x, turns);
    }
  }

  lemma TurnKeepsHello(x: Side, turn: Turn)
    requires CanTurn(x, turn)
    ensures After(x, turn).hello == x.hello
  {
    hide MergeAll, Deliver, VerifyHello, SharedGroups, RememberPeer, FrameFits, RangeList, ChannelFrames;
  }

  /** Two sides, whatever their stores and hellos: when one must not admit the other's
      hello, for its version, name, signature, key or a block, it never gets past the
      handshake, its store never changes, and only its hello ever is on the link. */
  lemma BarredNeverEnters(s: Setup, moves: seq<Move>)
    requires CanRun(Init(s), moves) && !Admissible(s.ha.body.peer, s.a0.blocked, s.hb)
    ensures var net := Run(Init(s), moves);
            && (net.a.phase.SendHello? || net.a.phase.AwaitHello? || net.a.phase.Failed?)
            && net.a.db == s.a0 && (net.ab == [] || net.ab == [Hello(s.ha)])
  {
    InitIsApart(s);
    hide CanRun, Run, Init, Apart, Talk, CanTalk, Said, Heard, Admissible;
    var xs, ys := RunIsApart(s, Init(s), moves, [], []);
    var a, b := StartSide(s.a0, s.ha), StartSide(s.b0, s.hb);
    var net := Run(Init(s), moves);
    ApartMeans(s, net, xs, ys);
    HelloIsFirst(b, [], ys);
    assert [] + Said(b, ys) == Said(b, ys);
    forall frame | frame in Heard(xs)
      ensures frame.Hello? ==> frame == Hello(s.hb)
    {
      assert frame in Said(b, ys);
    }
    NobodyElseEnters(s.a0, s.ha, xs);
  }

  lemma ApartMeans(s: Setup, net: Net, xs: seq<Turn>, ys: seq<Turn>)
    requires Apart(s, net, xs, ys)
    ensures var a, b := StartSide(s.a0, s.ha), StartSide(s.b0, s.hb);
            && CanTalk(a, xs) && Talk(a, xs) == net.a && CanTalk(b, ys)
            && Said(a, xs) == Heard(ys) + net.ab && Said(b, ys) == Heard(xs) + net.ba
  {
  }

  /** When it may admit the hello, it does so as soon as it takes it. */
  lemma AdmittedEnters(s: Setup, moves: seq<Move>)
    requires CanRun(Init(s), moves) && Admissible(s.ha.body.peer, s.a0.blocked, s.hb)
    requires Run(Init(s), moves).a.phase.AwaitHello? && Run(Init(s), moves).ba != []
    ensures var net := Run(Init(s), moves);
            && Enabled(net, Move(true, DoTake))
            && Step(net, Move(true, DoTake)).a == net.a.(phase := SendProofs, remote := s.hb.body)
            && net.a.db == s.a0
  {
    InitIsApart(s);
    hide CanRun, Run, Init, Apart, Talk, CanTalk, Said, Heard, Admissible;
    var xs, ys := RunIsApart(s, Init(s), moves, [], []);
    var a, b := StartSide(s.a0, s.ha), StartSide(s.b0, s.hb);
    var net := Run(Init(s), moves);
    ApartMeans(s, net, xs, ys);
    HelloIsFirst(b, [], ys);
    assert [] + Said(b, ys) == Said(b, ys);
    NothingHeardYet(a, xs);
    assert net.ba == Said(b, ys);
    HelloTakenExactly(net.a, net.ba[0]);
  }

  /** At the door nothing has been heard. */
  lemma {:induction false} NothingHeardYet(x: Side, turns: seq<Turn>)
    requires AtTheDoor(x) && CanTalk(x, turns) && AtTheDoor(Talk(x, turns))
    ensures Heard(turns) == [] && Talk(x, turns) == x.(phase := Talk(x, turns).phase)
    decreases |turns|
  {
    if turns != [] {
      var next := After(x, turns[0]);
      if AtTheDoor(next) {
        NothingHeardYet(next, turns[1..]);
      } else {
        NeverBack(next, turns[1..]);
      }
    }
  }

  lemma {:induction false} NeverBack(x: Side, turns: seq<Turn>)
    requires !AtTheDoor(x) && CanTalk(x, turns)
    ensures !AtTheDoor(Talk(x, turns))
    decreases |turns|
  {
    if turns != [] {
      TurnNotBack(x, turns[0]);
      hide AtTheDoor, After, CanTurn;
      NeverBack(After(x, turns[0]), turns[1..]);
    }
  }

  lemma TurnNotBack(x: Side, turn: Turn)
    requires !AtTheDoor(x) && CanTurn(x, turn)
    ensures !AtTheDoor(After(x, turn))
  {
    hide MergeAll, Deliver, VerifyHello, SharedGroups, RememberPeer, FrameFits, RangeList, ChannelFrames;
  }
}
