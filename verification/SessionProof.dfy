/** Why a session between two honest sides never fails, always ends, and what it
    leaves behind. */
module SessionProof {
  import opened Base
  import opened Text
  import opened Model
  import opened Ordering
  import opened Tables
  import opened Runs
  import opened Delivery
  import opened Inventory
  import opened Wire
  import opened Transfer
  import opened Session

  // ---------------------------------------------------------------- positions in the program

  /** Control records sent so far. */
  function Sent(p: Phase): (n: nat)
    ensures n <= 5
  {
    match p
    case SendHello => 0
    case AwaitHello | SendProofs => 1
    case AwaitProofs | SendChannels => 2
    case AwaitChannels | SendInventories => 3
    case AwaitInventories | SendRequests => 4
    case _ => 5
  }

  /** Control records taken so far. */
  function Got(p: Phase): nat {
    match p
    case SendHello | AwaitHello => 0
    case SendProofs | AwaitProofs => 1
    case SendChannels | AwaitChannels => 2
    case SendInventories | AwaitInventories => 3
    case SendRequests | AwaitRequests => 4
    case _ => 5
  }

  function InventoryA(s: Setup): seq<GroupInventory> {
    InventoriesFrame(s.a0, Shared(s))
  }

  function InventoryB(s: Setup): seq<GroupInventory> {
    InventoriesFrame(s.b0, Shared(s))
  }

  /** The requests that b sends, cut to the number that a serves. */
  function RequestsOfB(s: Setup): seq<RangeRequest> {
    MissingRanges(InventoryB(s), InventoryA(s))
  }

  function ServedToB(s: Setup): seq<RangeRequest> {
    RequestsOfB(s)[..ServedCount(RequestsOfB(s))]
  }

  /** All events that a sends to b in the session. */
  function Total(s: Setup): seq<EventEnvelope> {
    ServedEvents(s.a0.events, ServedToB(s))
  }

  /** The control records of a. */
  function Script(s: Setup): (script: seq<Frame>)
    ensures |script| == 5
  {
    [Hello(s.ha),
     GroupProofs(ProofsOf(s.a0.groups, s.ha.body, s.hb.body)),
     Channels(ChannelFrames(s.a0.groups, s.a0.channels, Order(Shared(s)), Shared(s))),
     Inventories(InventoryA(s)),
     Requests(MissingRanges(InventoryA(s), InventoryB(s)))]
  }

  // ---------------------------------------------------------------- invariant

  /** Channels of x come from its own store or, with their group, from the other. */
  ghost predicate ChannelsFrom(s: Setup, channels: map<ChannelId, ChannelRow>) {
    && (forall c :: c in s.a0.channels ==> c in channels && channels[c] == s.a0.channels[c])
    && (forall c :: c in channels ==>
          c in s.a0.channels || (c in s.b0.channels && channels[c].group == s.b0.channels[c].group))
  }

  predicate FromPeer(s: Setup, c: ChannelId) {
    c in s.b0.channels && s.b0.channels[c].group in Shared(s)
  }

  /** The own channel; else that of the peer, with its name cleaned. */
  function MergedRow(s: Setup, c: ChannelId): ChannelRow
    requires c in s.a0.channels || FromPeer(s, c)
  {
    if c in s.a0.channels then s.a0.channels[c]
    else var row := s.b0.channels[c]; ChannelRow(row.group, CleanLabel(row.name, "channel", 64), row.position)
  }

  /** Exactly the own channels and those of the peer in shared groups. */
  ghost predicate KnowsChannels(s: Setup, channels: map<ChannelId, ChannelRow>) {
    forall c ::
      && (c in channels <==> c in s.a0.channels || FromPeer(s, c))
      && (c in channels ==> channels[c] == MergedRow(s, c))
  }

  /** The store of a while it serves, as far as names go: that of the start, with the
      name of the peer. */
  function NamesOf(s: Setup): Db {
    RememberPeer(s.a0, s.hb.body.peer, s.hb.body.displayName)
  }

  function SentAs(s: Setup, e: EventEnvelope): WireEvent {
    WireEvent(e, AuthorName(NamesOf(s), e.header.author))
  }

  predicate FitsFrame(s: Setup, e: EventEnvelope) {
    BatchLen([SentAs(s, e)]) <= MAX_FRAME_BYTES
  }

  /** Every event that a is to send fits a frame, with the name that a sends. */
  predicate ServedFit(s: Setup) {
    forall e :: e in Total(s) ==> FitsFrame(s, e)
  }

  ghost predicate GoodOutbox(s: Setup, outbox: seq<WireEvent>) {
    forall i :: 0 <= i < |outbox| ==> Addressable(outbox[i]) && outbox[i] == SentAs(s, outbox[i].event)
  }

  ghost predicate SentFit(s: Setup, wires: seq<WireEvent>) {
    forall i :: 0 <= i < |wires| ==> FitsFrame(s, wires[i].event)
  }

  /** Before a side has sent all it was asked for. */
  predicate Busy(p: Phase) {
    !p.AwaitEvents? && !p.Live?
  }

  /** The only way to fail: the next event to send fits no frame. */
  ghost predicate Choked(s: Setup, x: Side) {
    x.phase.Failed? ==> x.phase.error == FrameTooLarge && x.outbox != [] && !FitsFrame(s, x.outbox[0].event)
  }

  /** What side a knows and holds at its position in the program. */
  ghost predicate Own(s: Setup, x: Side) {
    && Choked(s, x)
    && x.hello == s.ha
    && ValidDb(x.db) && x.db.groups == s.a0.groups && x.db.blocked == s.a0.blocked
    && (Got(x.phase) >= 1 ==> x.remote == s.hb.body)
    && (Got(x.phase) >= 2 ==> x.shared == Shared(s))
    && ChannelsFrom(s, x.db.channels)
    && (Got(x.phase) < 3 ==> x.db.channels == s.a0.channels)
    && (Got(x.phase) >= 3 ==> KnowsChannels(s, x.db.channels))
    && (Sent(x.phase) >= 4 ==> x.localInv == InventoryA(s))
    && (Got(x.phase) >= 4 ==> x.remoteInv == InventoryB(s))
    && (!x.phase.Serving? && !x.phase.Failed? ==> x.todo == [] && x.outbox == [])
    && (Busy(x.phase) ==> x.received == [] && x.db.events == s.a0.events)
    && (Got(x.phase) < 2 ==> x.db.peers == s.a0.peers)
    && (Busy(x.phase) && Got(x.phase) >= 2 ==> x.db.peers == NamesOf(s).peers)
    && AllGood(x.todo, Shared(s)) && GoodOutbox(s, x.outbox)
    && AllFit(EventSet(x.received)) && IsUnion(s.a0.events, EventSet(x.received), x.db.events)
  }

  ghost predicate OnlyBatches(frames: seq<Frame>) {
    forall i :: 0 <= i < |frames| ==> frames[i].EventBatch?
  }

  /** What b has taken, what is on the link, what waits in the outbox of a and what
      a has still to read make up, in this order, all that a sends. */
  ghost predicate Flows(s: Setup, received: seq<WireEvent>, link: seq<WireEvent>, outbox: seq<WireEvent>,
                        todo: seq<RangeRequest>) {
    EventsOf(received) + (EventsOf(link) + (EventsOf(outbox) + ServedEvents(s.a0.events, todo))) == Total(s)
  }

  /** The event records on the link from a to b, after the control records. */
  ghost predicate DataOn(s: Setup, x: Side, y: Side, data: seq<Frame>) {
    if Got(x.phase) < 5 then data == [] && y.received == [] && !y.phase.Live?
    else
      && Flows(s, y.received, Flatten(data), x.outbox, x.todo)
      && SentFit(s, y.received) && SentFit(s, Flatten(data))
      && (if x.phase.Serving? || x.phase.Failed? then OnlyBatches(data) && !y.phase.Live?
          else if y.phase.Live? then data == []
          else |data| > 0 && data[|data| - 1] == SyncDone && OnlyBatches(data[..|data| - 1]))
  }

  /** The link from a to b carries what a has sent of its script and b has not
      taken, then events. */
  ghost predicate Linked(s: Setup, x: Side, y: Side, link: seq<Frame>) {
    var got, sent := Got(y.phase), Sent(x.phase);
    && got <= sent && sent - got <= |link|
    && link[..sent - got] == Script(s)[got..sent]
    && DataOn(s, x, y, link[sent - got..])
  }

  ghost predicate Inv(s: Setup, net: Net) {
    && Own(s, net.a) && Own(FlipSetup(s), net.b)
    && Linked(s, net.a, net.b, net.ab) && Linked(FlipSetup(s), net.b, net.a, net.ba)
  }

  lemma InvFlips(s: Setup, net: Net)
    requires Inv(s, net)
    ensures Inv(FlipSetup(s), Flip(net))
  {
    assert FlipSetup(FlipSetup(s)) == s;
  }

  lemma UnionWithNothing(events: Events)
    ensures AllFit(EventSet([])) && IsUnion(events, EventSet([]), events)
  {
  }

  lemma InitHalf(s: Setup)
    requires ValidDb(s.a0)
    ensures Own(s, StartSide(s.a0, s.ha))
    ensures Linked(s, StartSide(s.a0, s.ha), StartSide(s.b0, s.hb), [])
  {
    UnionWithNothing(s.a0.events);
  }

  lemma InitInv(s: Setup)
    requires Ready(s)
    ensures Inv(s, Init(s))
  {
    InitHalf(s);
    InitHalf(FlipSetup(s));
  }

  // ---------------------------------------------------------------- facts about the two stores

  lemma SharedFlips(s: Setup)
    ensures Shared(FlipSetup(s)) == Shared(s)
  {
  }

  lemma FlippedInventories(s: Setup)
    ensures InventoryA(FlipSetup(s)) == InventoryB(s) && InventoryB(FlipSetup(s)) == InventoryA(s)
  {
    SharedFlips(s);
  }

  lemma {:induction false} RestrictTwice(inventories: seq<GroupInventory>, groups: set<GroupId>)
    ensures Restrict(Restrict(inventories, groups), groups) == Restrict(inventories, groups)
  {
    if inventories != [] {
      RestrictTwice(inventories[1..], groups);
      var rest := Restrict(inventories[1..], groups);
      if inventories[0].group in groups {
        assert ([inventories[0]] + rest)[1..] == rest;
      } else {
        assert Restrict(inventories, groups) == rest;
      }
    }
  }

  lemma InventoriesAre(s: Setup)
    ensures AreInventories(s.a0.events, Shared(s), InventoryA(s))
    ensures AreInventories(s.b0.events, Shared(s), InventoryB(s))
  {
    InventoriesOfCorrect(s.a0.groups, s.a0.events);
    InventoriesOfCorrect(s.b0.groups, s.b0.events);
    RestrictInventories(s.a0.events, s.a0.groups.Keys, InventoriesOf(s.a0.groups, s.a0.events), Shared(s));
    RestrictInventories(s.b0.events, s.b0.groups.Keys, InventoriesOf(s.b0.groups, s.b0.events), Shared(s));
    assert s.a0.groups.Keys * Shared(s) == Shared(s) && s.b0.groups.Keys * Shared(s) == Shared(s);
  }

  lemma RequestsAreGood(s: Setup)
    ensures AllGood(ServedToB(s), Shared(s))
  {
    InventoriesAre(s);
    RequestsSound(s.b0.events, s.a0.events, Shared(s), InventoryB(s), InventoryA(s));
  }

  /** Everything that a sends is stored at a, in a shared group. */
  lemma TotalIsStored(s: Setup, e: EventEnvelope)
    requires e in Total(s)
    ensures StoredEvent(s.a0.events, e) && e.header.group in Shared(s)
  {
    ServedEventsExactly(s.a0.events, ServedToB(s), e);
    RequestsAreGood(s);
    var r :| r in ServedToB(s) && Asks(r, e.header.group, e.header.author, e.header.sequence);
  }

  // ---------------------------------------------------------------- channels

  lemma OrderLists(groups: set<GroupId>)
    ensures forall g :: g in Order(groups) <==> g in groups
  {
    var keys := set h | h in groups :: SortKey(0, 0, 0, h);
    SortCorrect(keys);
    var sorted := Sort(keys);
    assert forall i :: 0 <= i < |sorted| ==> sorted[i] in keys;
    forall g | g in groups
      ensures g in Order(groups)
    {
      assert SortKey(0, 0, 0, g) in sorted;
      var i :| 0 <= i < |sorted| && sorted[i] == SortKey(0, 0, 0, g);
      assert Order(groups)[i] == g;
    }
  }

  /** Merging the channels of the peer never fails, and makes them known as the peer has
      them. */
  lemma ChannelsArrive(s: Setup, db: Db)
    requires Ready(s)
    requires ValidDb(db) && db.groups == s.a0.groups && db.channels == s.a0.channels
    ensures var frames := ChannelFrames(s.b0.groups, s.b0.channels, Order(Shared(s)), Shared(s));
            && MergeAll(db, Shared(s), frames).1.None?
            && var later := MergeAll(db, Shared(s), frames).0;
               && later == db.(channels := later.channels) && ValidDb(later)
               && ChannelsFrom(s, later.channels) && KnowsChannels(s, later.channels)
  {
    assert ChannelsAgree(s.a0.channels, s.b0.channels) && ValidDb(s.b0);
    hide ChannelFrames, MergeAll, Order, CleanLabel, Ready, ValidDb;
    var merged := MergeAll(db, Shared(s), ChannelFrames(s.b0.groups, s.b0.channels, Order(Shared(s)), Shared(s)));
    OrderLists(Shared(s));
    ChannelsCopied(s.b0, db, Order(Shared(s)), Shared(s), 0);
    var later := merged.0;
    forall c
      ensures c in later.channels <==> c in s.a0.channels || FromPeer(s, c)
      ensures c in later.channels ==> later.channels[c] == MergedRow(s, c)
    {
      ChannelsCopied(s.b0, db, Order(Shared(s)), Shared(s), c);
    }
    MergedIsFrom(s, db, later);
    ChannelsGrow(db, later);
  }

  lemma MergedIsFrom(s: Setup, db: Db, later: Db)
    requires ChannelsAgree(s.a0.channels, s.b0.channels) && KnowsChannels(s, later.channels)
    requires ValidDb(db) && db.groups == s.a0.groups && db.channels == s.a0.channels
    ensures ChannelsFrom(s, later.channels)
    ensures forall c :: c in later.channels ==> later.channels[c].group in db.groups
  {
    hide CleanLabel, RowBound;
  }

  // ---------------------------------------------------------------- events

  /** An event stored at the peer, in a shared group, is acceptable here once the
      peer's channels are known. */
  lemma PeerEventAcceptable(s: Setup, db: Db, e: EventEnvelope)
    requires Ready(s)
    requires db.groups == s.a0.groups && db.blocked == s.a0.blocked && KnowsChannels(s, db.channels)
    requires StoredEvent(s.b0.events, e) && e.header.group in Shared(s)
    ensures Acceptable(db, e)
  {
    var k := KeyOf(e);
    assert HonestSide(FlipSetup(s));
    assert RowBound(s.b0, k, s.b0.events[k]);
    RowRoundTrip(e);
  }

  lemma {:induction false} EventSetIs(wires: seq<WireEvent>)
    ensures forall e :: e in EventSet(wires) <==> e in EventsOf(wires)
  {
    if wires != [] {
      EventSetIs(wires[1..]);
    }
  }

  lemma {:induction false} EventSetConcat(xs: seq<WireEvent>, ys: seq<WireEvent>)
    ensures EventSet(xs + ys) == EventSet(xs) + EventSet(ys)
  {
    if xs == [] {
      assert xs + ys == ys;
    } else {
      var all := xs + ys;
      assert all[0] == xs[0] && all[1..] == xs[1..] + ys;
      EventSetConcat(xs[1..], ys);
    }
  }

  lemma UnionCompose(events: Events, es: set<EventEnvelope>, mid: Events, fs: set<EventEnvelope>, after: Events)
    requires AllFit(es) && AllFit(fs) && AllFit(es + fs)
    requires IsUnion(events, es, mid) && IsUnion(mid, fs, after)
    ensures IsUnion(events, es + fs, after)
  {
    forall k | k in after && k !in events
      ensures exists e :: e in es + fs && KeyOf(e) == k
    {
      if k in mid {
        var e :| e in es && KeyOf(e) == k;
        assert e in es + fs;
      } else {
        var e :| e in fs && KeyOf(e) == k;
        assert e in es + fs;
      }
    }
  }

  /** A batch of the peer's events is taken without refusal. */
  lemma BatchDeliverable(s: Setup, x: Side, wires: seq<WireEvent>)
    requires Ready(s) && Own(s, x) && Got(x.phase) >= 3
    requires forall e :: e in EventSet(x.received) || e in EventSet(wires) ==>
               StoredEvent(s.b0.events, e) && e.header.group in Shared(s)
    ensures Deliverable(x.db, EventSet(wires))
  {
    var es := EventSet(wires);
    forall e | e in es
      ensures Acceptable(x.db, e) && AgreesWith(x.db.events, e)
    {
      PeerEventAcceptable(s, x.db, e);
      var k := KeyOf(e);
      RowRoundTrip(e);
      if k in x.db.events && k !in s.a0.events {
        var f :| f in EventSet(x.received) && KeyOf(f) == k;
        RowRoundTrip(f);
      }
    }
  }

  // ---------------------------------------------------------------- sending keeps the invariant

  lemma SliceMore<T>(xs: seq<T>, i: nat, j: nat)
    requires i <= j < |xs|
    ensures xs[i..j] + [xs[j]] == xs[i..j + 1]
  {
  }

  lemma NoDataYet(s: Setup, x: Side, z: Side, y: Side, data: seq<Frame>)
    requires DataOn(s, x, y, data) && Got(x.phase) < 5 && Got(z.phase) == Got(x.phase)
    ensures data == [] && DataOn(s, z, y, [])
  {
    hide Flows;
  }

  lemma WholePrefix<T>(xs: seq<T>, k: nat)
    requires k <= |xs| && xs[k..] == []
    ensures xs[..k] == xs && |xs| == k
  {
  }

  /** Adding the next control record to a link. */
  lemma LinkGrows(s: Setup, x: Side, z: Side, y: Side, link: seq<Frame>)
    requires Linked(s, x, y, link) && Got(x.phase) < 5 && Got(z.phase) == Got(x.phase)
    requires Sent(z.phase) == Sent(x.phase) + 1
    ensures Linked(s, z, y, link + [Script(s)[Sent(x.phase)]])
  {
    hide Script, DataOn;
    var i, j := Got(y.phase), Sent(x.phase);
    SentAtMost(z.phase);
    NoDataYet(s, x, z, y, link[j - i..]);
    WholePrefix(link, j - i);
    SliceMore(Script(s), i, j);
    Appended(link, Script(s)[j]);
  }

  lemma SentAtMost(p: Phase)
    ensures Sent(p) <= 5
  {
  }

  lemma Appended<T>(xs: seq<T>, x: T)
    ensures (xs + [x])[..|xs| + 1] == xs + [x] && (xs + [x])[|xs| + 1..] == []
  {
  }

  lemma EmitControlOwn(s: Setup, x: Side, n: nat)
    requires Own(s, x) && CanEmit(x, n) && !x.phase.Serving?
    ensures Own(s, Emit(x, n).0)
  {
    hide ChannelsFrom, KnowsChannels, ValidDb, AllGood, GoodOutbox, AllFit, IsUnion, ChannelFrames, MissingRanges,
         NamesOf;
  }

  lemma EmitControl(s: Setup, x: Side, n: nat)
    requires CanEmit(x, n) && !x.phase.Serving? && Sent(x.phase) < 5 && Own(s, x)
    ensures Emit(x, n).1 == [Script(s)[Sent(x.phase)]]
    ensures Sent(Emit(x, n).0.phase) == Sent(x.phase) + 1 && Got(Emit(x, n).0.phase) == Got(x.phase) < 5
    ensures Emit(x, n).0.received == x.received && !Emit(x, n).0.phase.Live?
  {
    hide ChannelsFrom, KnowsChannels, ValidDb, AllGood, GoodOutbox, AllFit, IsUnion, NamesOf, FitsFrame, ServeMore;
  }

  lemma NameIsAddressable(db: Db, p: PeerId)
    requires ValidDb(db)
    ensures ByteLen(AuthorName(db, p)) <= 192
  {
    ByteLenBound(AuthorName(db, p));
  }

  lemma StoredIsShort(s: Setup, e: EventEnvelope)
    requires Ready(s) && StoredEvent(s.a0.events, e) && e.header.group in Shared(s)
    ensures CiphertextLen(e.ciphertext) <= U64_MAX && SignatureLen(e.signature) == 64
  {
    assert HonestSide(s);
    var k := KeyOf(e);
    assert RowBound(s.a0, k, s.a0.events[k]);
  }

  lemma RangeIsServable(s: Setup, db: Db, r: RangeRequest)
    requires Ready(s) && ValidDb(db) && GoodRequest(r, Shared(s)) && db.peers == NamesOf(s).peers
    ensures GoodOutbox(s, WiresFor(db, RangeList(s.a0.events, r.group, r.author, r.first, r.last)))
  {
    hide Ready, ValidDb, NamesOf;
    var es := RangeList(s.a0.events, r.group, r.author, r.first, r.last);
    RangeListExactly(s.a0.events, r.group, r.author, r.first, r.last);
    var wires := WiresFor(db, es);
    forall i | 0 <= i < |wires|
      ensures Addressable(wires[i]) && wires[i] == SentAs(s, wires[i].event)
    {
      var e := es[i];
      assert e in es && StoredInRange(s.a0.events, r.group, r.author, r.first, r.last, e);
      StoredIsShort(s, e);
      NameIsAddressable(db, e.header.author);
    }
  }

  lemma {:induction false} EventsOfWiresFor(db: Db, es: seq<EventEnvelope>)
    ensures EventsOf(WiresFor(db, es)) == es
  {
    if es != [] {
      EventsOfWiresFor(db, es[1..]);
      assert WiresFor(db, es)[1..] == WiresFor(db, es[1..]);
    }
  }

  /** A batch that passes the frame limit is of events that each do. */
  lemma PassedFit(s: Setup, wires: seq<WireEvent>)
    requires GoodOutbox(s, wires) && FrameFits(EventBatch(wires))
    ensures SentFit(s, wires)
  {
    hide BatchLen, SentAs;
    forall i | 0 <= i < |wires|
      ensures FitsFrame(s, wires[i].event)
    {
      SingleWithinBatch(wires, i);
    }
  }

  /** A batch that does not pass is one event that does not fit. */
  lemma RefusedIsChoked(s: Setup, outbox: seq<WireEvent>, n: nat)
    requires GoodOutbox(s, outbox) && 1 <= n <= |outbox| && BatchRule(outbox[..n]) &&
               !FrameFits(EventBatch(outbox[..n]))
    ensures !FitsFrame(s, outbox[0].event)
  {
    hide BatchLen, SentAs;
    if n == 1 {
      assert outbox[..1] == [outbox[0]];
    } else {
      MultiBatchFits(outbox[..n]);
    }
  }

  lemma PartsAreGood(s: Setup, outbox: seq<WireEvent>, n: nat)
    requires GoodOutbox(s, outbox) && n <= |outbox|
    ensures GoodOutbox(s, outbox[..n]) && GoodOutbox(s, outbox[n..])
  {
  }

  lemma EmitOwn(s: Setup, x: Side, n: nat)
    requires Ready(s) && Own(s, x) && CanEmit(x, n)
    ensures Own(s, Emit(x, n).0)
  {
    hide Own, Ready, Emit;
    if !x.phase.Serving? {
      EmitControlOwn(s, x, n);
    } else if x.outbox != [] {
      EmitBatchOwn(s, x, n);
    } else if x.todo != [] {
      EmitRangeOwn(s, x, n);
    } else {
      EmitEndOwn(s, x, n);
    }
  }

  lemma EmitEndOwn(s: Setup, x: Side, n: nat)
    requires Own(s, x) && CanEmit(x, n) && x.phase.Serving? && x.outbox == [] && x.todo == []
    ensures Own(s, Emit(x, n).0)
  {
    hide ChannelsFrom, KnowsChannels, ValidDb, AllGood, GoodOutbox, AllFit, IsUnion, NamesOf, FitsFrame;
  }

  lemma EmitBatchOwn(s: Setup, x: Side, n: nat)
    requires Own(s, x) && CanEmit(x, n) && x.phase.Serving? && x.outbox != []
    ensures Own(s, Emit(x, n).0)
  {
    hide ChannelsFrom, KnowsChannels, ValidDb, AllGood, GoodOutbox, AllFit, IsUnion, NamesOf, FitsFrame, BatchLen;
    PartsAreGood(s, x.outbox, n);
    if !FrameFits(EventBatch(x.outbox[..n])) {
      RefusedIsChoked(s, x.outbox, n);
    }
  }

  lemma RestIsGood(todo: seq<RangeRequest>, shared: set<GroupId>)
    requires todo != [] && AllGood(todo, shared)
    ensures GoodRequest(todo[0], shared) && AllGood(todo[1..], shared)
  {
  }

  lemma EmitRangeOwn(s: Setup, x: Side, n: nat)
    requires Ready(s) && Own(s, x) && CanEmit(x, n) && x.phase.Serving? && x.outbox == [] && x.todo != []
    ensures Own(s, Emit(x, n).0)
  {
    hide ChannelsFrom, KnowsChannels, ValidDb, AllGood, GoodOutbox, AllFit, IsUnion, Ready, NamesOf;
    RestIsGood(x.todo, Shared(s));
    RangeIsServable(s, x.db, x.todo[0]);
  }

  lemma OneBatchMore(data: seq<Frame>, wires: seq<WireEvent>)
    requires OnlyBatches(data)
    ensures OnlyBatches(data + [EventBatch(wires)])
    ensures Flatten(data + [EventBatch(wires)]) == Flatten(data) + wires
  {
    FlattenConcat(data, [EventBatch(wires)]);
    FlattenOne(wires);
  }

  lemma Reassociate<T>(xs: seq<T>, ys: seq<T>, zs: seq<T>)
    ensures xs + (ys + zs) == (xs + ys) + zs
  {
  }

  lemma BatchFlows(s: Setup, received: seq<WireEvent>, link: seq<WireEvent>, outbox: seq<WireEvent>,
                   todo: seq<RangeRequest>, n: nat)
    requires Flows(s, received, link, outbox, todo) && n <= |outbox|
    ensures Flows(s, received, link + outbox[..n], outbox[n..], todo)
  {
    var rest := ServedEvents(s.a0.events, todo);
    EventsOfConcat(link, outbox[..n]);
    EventsOfConcat(outbox[..n], outbox[n..]);
    assert outbox[..n] + outbox[n..] == outbox;
    Reassociate(EventsOf(link), EventsOf(outbox[..n]), EventsOf(outbox[n..]) + rest);
    Reassociate(EventsOf(outbox[..n]), EventsOf(outbox[n..]), rest);
  }

  lemma RangeFlows(s: Setup, received: seq<WireEvent>, link: seq<WireEvent>, todo: seq<RangeRequest>, db: Db)
    requires Flows(s, received, link, [], todo) && todo != []
    ensures var page := RangeList(s.a0.events, todo[0].group, todo[0].author, todo[0].first, todo[0].last);
            Flows(s, received, link, WiresFor(db, page), todo[1..])
  {
    var r := todo[0];
    var events := RangeList(s.a0.events, r.group, r.author, r.first, r.last);
    EventsOfWiresFor(db, events);
    assert EventsOf([]) + ServedEvents(s.a0.events, todo) == ServedEvents(s.a0.events, todo);
  }

  lemma EndMark(data: seq<Frame>)
    requires OnlyBatches(data)
    ensures Flatten(data + [SyncDone]) == Flatten(data)
    ensures (data + [SyncDone])[..|data|] == data
  {
    EndMarkAddsNothing(data);
  }

  lemma BatchData(s: Setup, x: Side, y: Side, data: seq<Frame>, n: nat)
    requires DataOn(s, x, y, data) && x.phase.Serving? && 1 <= n <= |x.outbox|
    requires SentFit(s, x.outbox[..n])
    ensures DataOn(s, x.(outbox := x.outbox[n..]), y, data + [EventBatch(x.outbox[..n])])
  {
    hide Flows, FitsFrame;
    OneBatchMore(data, x.outbox[..n]);
    BatchFlows(s, y.received, Flatten(data), x.outbox, x.todo, n);
  }

  lemma RangeData(s: Setup, x: Side, y: Side, data: seq<Frame>)
    requires DataOn(s, x, y, data) && x.phase.Serving? && x.outbox == [] && x.todo != []
    requires x.db.events == s.a0.events
    ensures var r := x.todo[0];
            var page := RangeList(x.db.events, r.group, r.author, r.first, r.last);
            DataOn(s, x.(todo := x.todo[1..], outbox := WiresFor(x.db, page)), y, data)
  {
    hide Flows, SentFit;
    RangeFlows(s, y.received, Flatten(data), x.todo, x.db);
  }

  lemma EndData(s: Setup, x: Side, y: Side, data: seq<Frame>)
    requires DataOn(s, x, y, data) && x.phase.Serving? && x.outbox == [] && x.todo == []
    ensures DataOn(s, x.(phase := AwaitEvents), y, data + [SyncDone])
  {
    hide Flows, SentFit;
    EndMark(data);
  }

  lemma ChokedData(s: Setup, x: Side, y: Side, data: seq<Frame>)
    requires DataOn(s, x, y, data) && x.phase.Serving?
    ensures DataOn(s, Fail(x, FrameTooLarge), y, data + [])
  {
    hide Flows, SentFit;
    assert data + [] == data;
  }

  lemma EmitServing(s: Setup, x: Side, y: Side, data: seq<Frame>, n: nat)
    requires Own(s, x) && x.phase.Serving? && CanEmit(x, n)
    requires DataOn(s, x, y, data)
    ensures DataOn(s, Emit(x, n).0, y, data + Emit(x, n).1)
  {
    hide DataOn, GoodOutbox, SentFit, BatchLen;
    if x.outbox != [] {
      if FrameFits(EventBatch(x.outbox[..n])) {
        PartsAreGood(s, x.outbox, n);
        PassedFit(s, x.outbox[..n]);
        BatchData(s, x, y, data, n);
      } else {
        ChokedData(s, x, y, data);
      }
    } else if x.todo != [] {
      assert GoodRequest(x.todo[0], Shared(s));
      RangeData(s, x, y, data);
      assert data + [] == data;
    } else {
      EndData(s, x, y, data);
    }
  }

  lemma ServingStays(s: Setup, x: Side, n: nat)
    requires Own(s, x) && CanEmit(x, n) && x.phase.Serving?
    ensures var z := Emit(x, n).0;
            && (z.phase.Serving? || z.phase.AwaitEvents? || z.phase.Failed?)
            && z.received == x.received
  {
    hide BatchLen;
    if x.outbox == [] && x.todo != [] {
      assert GoodRequest(x.todo[0], Shared(s));
    }
  }

  lemma ServingLinked(s: Setup, x: Side, y: Side, link: seq<Frame>, n: nat)
    requires Own(s, x) && CanEmit(x, n) && Linked(s, x, y, link) && x.phase.Serving?
    ensures Linked(s, Emit(x, n).0, y, link + Emit(x, n).1)
  {
    hide Own, DataOn, Emit, Script;
    ServingStays(s, x, n);
    var k := Sent(x.phase) - Got(y.phase);
    EmitServing(s, x, y, link[k..], n);
    Extended(link, Emit(x, n).1, k);
  }

  lemma EmitLinked(s: Setup, x: Side, y: Side, link: seq<Frame>, n: nat)
    requires Own(s, x) && CanEmit(x, n) && Linked(s, x, y, link)
    ensures Linked(s, Emit(x, n).0, y, link + Emit(x, n).1)
    ensures Got(Emit(x, n).0.phase) == Got(x.phase) && Emit(x, n).0.received == x.received
    ensures !x.phase.Live? && !Emit(x, n).0.phase.Live?
  {
    hide Own, Linked, Emit;
    if x.phase.Serving? {
      ServingLinked(s, x, y, link, n);
      ServingStays(s, x, n);
    } else {
      EmitControl(s, x, n);
      LinkGrows(s, x, Emit(x, n).0, y, link);
    }
  }

  lemma Extended<T>(xs: seq<T>, ys: seq<T>, k: nat)
    requires k <= |xs|
    ensures (xs + ys)[..k] == xs[..k] && (xs + ys)[k..] == xs[k..] + ys
  {
  }

  /** The other link depends on the sender only through what it has taken. */
  lemma SentOnly(s: Setup, y: Side, x: Side, z: Side, link: seq<Frame>)
    requires Linked(s, y, x, link)
    requires Got(z.phase) == Got(x.phase) && z.received == x.received && z.phase.Live? == x.phase.Live?
    ensures Linked(s, y, z, link)
  {
    hide DataOn, Script, Sent, Got;
    DataSeenSame(s, y, x, z, link[Sent(y.phase) - Got(x.phase)..]);
  }

  lemma DataSeenSame(s: Setup, y: Side, x: Side, z: Side, data: seq<Frame>)
    requires DataOn(s, y, x, data)
    requires Got(z.phase) == Got(x.phase) && z.received == x.received && z.phase.Live? == x.phase.Live?
    ensures DataOn(s, y, z, data)
  {
    hide Script, Flows, Flatten, SentFit, FitsFrame;
  }

  lemma EmitKeeps(s: Setup, net: Net, n: nat)
    requires Ready(s) && Inv(s, net) && EnabledLeft(net, DoEmit(n))
    ensures Inv(s, StepLeft(net, DoEmit(n)))
  {
    hide Own, Linked, Emit, Ready;
    EmitOwn(s, net.a, n);
    EmitLinked(s, net.a, net.b, net.ab, n);
    SentOnly(FlipSetup(s), net.b, net.a, Emit(net.a, n).0, net.ba);
  }
}
