/** The assumptions of the theorems: agreement holds in every mesh, and there are
    starts, with an event to transfer, that meet them all. */
module Instances {
  import Mesh
  import Handover
  import opened Base
  import opened Text
  import opened Model
  import opened Crypto
  import opened Tables
  import opened Inventory
  import opened Transfer
  import opened Wire
  import opened Session
  import opened Convergence
  import opened Cluster
  import opened FloodDelivery
  import opened FloodSizes
  import opened FloodLimits

  /** The stores of any two nodes of a mesh agree, as a session needs. */
  lemma NodesAgree(start: Mesh.Mesh, actions: seq<Mesh.Action>, p: PeerId, q: PeerId)
    requires Mesh.Start(start) && Mesh.CanRun(start, actions)
    requires p in Mesh.Run(start, actions).nodes && q in Mesh.Run(start, actions).nodes
    ensures Agree(Mesh.Run(start, actions).nodes[p].events, Mesh.Run(start, actions).nodes[q].events)
  {
    var x, y := Mesh.Run(start, actions).nodes[p].events, Mesh.Run(start, actions).nodes[q].events;
    forall k | k in x && k in y
      ensures x[k] == y[k]
    {
      Mesh.StoresAgree(start, actions, p, q, k);
    }
  }

  function HelloOf(peer: PeerId, name: string): PeerHello {
    var body := HelloBody(PROTOCOL_VERSION, peer, peer, name, 4000);
    PeerHello(body, Signed(peer, body))
  }

  lemma HelloAccepted(peer: PeerId)
    ensures VerifyHello(HelloOf(peer, "x")).Ok?
  {
    assert "x"[1..] == "" && ByteLen("x") == 1 && !IsBlank("x");
  }

  /** The store of a node that has appended one text. */
  lemma OneText() returns (db: Db, e: EventEnvelope)
    ensures ValidDb(db) && SequenceFits(e) && db == LONE_STORE.(events := map[KeyOf(e) := ToRow(e)], peers := db.peers)
    ensures KeyOf(e) == EventKey(7, 1, 1)
    ensures Sendable(FromRow(KeyOf(e), ToRow(e)))
  {
    db, e := LoneStoreAppends();
    LoneStoreValid();
    assert AuthorSequences(map[], 7, 1) == {};
    AppendExactly(LONE_STORE, Identity(1, "one"), 9, TextMessage("x"), 0, 0, db, e);
    LoneIsSendable(db, e);
    hide ValidDb, Append, Sendable, ValidateAndOpenEvent;
    RowRoundTrip(e);
  }

  lemma ASessionIsReady() returns (s: Setup)
    ensures Ready(s) && Unblocked(s) && AllSendable(s) && !Level(s)
  {
    var db, e := OneText();
    s := Setup(db, LONE_STORE, HelloOf(1, "x"), HelloOf(2, "x"));
    HelloAccepted(1);
    HelloAccepted(2);
    assert 7 in Shared(s);
    hide ValidDb, VerifyHello, Sendable;
    assert ValidDb(LONE_STORE) by { LoneStoreValid(); }
    HeadOfIs(db.events, 7, 1, 1);
    HeadOfIs(LONE_STORE.events, 7, 1, 0);
  }

  const LINE_EDGES: set<Edge> := {(1, 2), (2, 3)}

  lemma LinePath(c: Nodes, p: PeerId, q: PeerId)
    requires c.Keys == {1, 2, 3} && p in c && q in c && forall r :: r in c ==> 7 in c[r].groups
    ensures exists path :: Path(c, LINE_EDGES, path, p, q, 7)
  {
    var path := if p == q then [p] else if p == 2 || q == 2 then [p, q] else [p, 2, q];
    assert forall r :: r in path ==> Holder(c, r, 7);
    assert Path(c, LINE_EDGES, path, p, q, 7);
  }

  lemma LineIsConnected(c: Nodes)
    requires c.Keys == {1, 2, 3} && forall p :: p in c ==> 7 in c[p].groups && c[p].groups[7].secret == 5
    ensures Connected(c, LINE_EDGES, 7)
  {
    hide Path, LINE_EDGES;
    forall p: PeerId, q: PeerId | Holder(c, p, 7) && Holder(c, q, 7)
      ensures c[p].groups[7].secret == c[q].groups[7].secret && exists path :: Path(c, LINE_EDGES, path, p, q, 7)
    {
      LinePath(c, p, q);
    }
  }

  lemma LineIsGathered(c: Nodes, x: Db, y: Db, homes: map<ChannelId, GroupId>)
    requires c.Keys == {1, 2, 3} && c[1] == x && c[2] == y && c[3] == y && Member(x, x.events, homes) &&
               Member(y, x.events, homes)
    requires x.blocked == {} && y.blocked == {}
    requires forall k :: k in x.events ==> CiphertextLen(x.events[k].ciphertext) <= U64_MAX
    ensures Gathered(c, x.events, homes)
  {
    hide Member, CiphertextLen;
    forall p | p in c
      ensures c[p].blocked == {} && Member(c[p], x.events, homes)
    {
      assert p == 1 || p == 2 || p == 3;
    }
    forall k | k in x.events
      ensures HeldBySome(c, k)
    {
      assert k in c[1].events;
    }
  }

  lemma LineHellos(c: Nodes) returns (hellos: map<PeerId, PeerHello>)
    requires c.Keys == {1, 2, 3}
    ensures Introduced(c, hellos)
  {
    HelloAccepted(1);
    HelloAccepted(2);
    HelloAccepted(3);
    hide VerifyHello;
    hellos := map[1 := HelloOf(1, "x"), 2 := HelloOf(2, "x"), 3 := HelloOf(3, "x")];
  }

  lemma LoneMembers(db: Db, e: EventEnvelope)
    requires ValidDb(db) && SequenceFits(e) && db == LONE_STORE.(events := map[KeyOf(e) := ToRow(e)], peers := db.peers)
    ensures Member(db, db.events, map[9 := 7]) && Member(LONE_STORE, db.events, map[9 := 7])
  {
    LoneStoreValid();
    hide ValidDb;
  }

  lemma LineMeets(c: Nodes, x: Db, y: Db)
    requires c.Keys == {1, 2, 3} && c[1] == x && c[2] == y && c[3] == y && 7 in x.groups && y.groups == x.groups
    ensures forall e :: e in LINE_EDGES ==> Meets(c, e)
  {
    assert 7 in Common(x.groups, y.groups) && 7 in Common(y.groups, y.groups);
  }

  /** Three nodes in a line, with an event at one end. */
  lemma ALine() returns (c: Nodes, all: Events, homes: map<ChannelId, GroupId>)
    ensures Gathered(c, all, homes) && AllFit(all) && c.Keys == {1, 2, 3} && Holder(c, 3, 7) &&
              Connected(c, LINE_EDGES, 7)
    ensures forall e :: e in LINE_EDGES ==> Meets(c, e)
    ensures HeadOf(c[3].events, 7, 1) < HeadOf(all, 7, 1)
  {
    var db, e := OneText();
    LoneMembers(db, e);
    c, all, homes := map[1 := db, 2 := LONE_STORE, 3 := LONE_STORE], db.events, map[9 := 7];
    hide ValidDb, Sendable, Member, HeadOf, Connected, Gathered, Meets;
    HeadOfIs(all, 7, 1, 1);
    HeadOfIs(LONE_STORE.events, 7, 1, 0);
    LineIsConnected(c);
    LineIsGathered(c, db, LONE_STORE, homes);
    LineMeets(c, db, LONE_STORE);
  }

  /** That start has every number of the rounds that convergence asks for. */
  lemma ALineCanMeet(n: nat) returns (c: Nodes, rounds: seq<seq<Visit>>, all: Events, homes: map<ChannelId, GroupId>)
    ensures Gathered(c, all, homes) && Connected(c, LINE_EDGES, 7) && Holder(c, 3, 7)
    ensures CanRounds(c, rounds, LINE_EDGES) && |rounds| == n
    ensures HeadOf(c[3].events, 7, 1) < HeadOf(all, 7, 1)
  {
    hide Gathered, AllFit, Connected, Holder, CanRounds, Introduced, Meets, HeadOf;
    c, all, homes := ALine();
    var hellos := LineHellos(c);
    rounds := RoundsExist(c, LINE_EDGES, n, hellos, all, homes);
  }

  lemma LoneStoreValid()
    ensures ValidDb(LONE_STORE)
  {
  }

  const PAIR := Mesh.Mesh(map[1 := LONE_STORE, 2 := LONE_STORE], {Mesh.Link(0, 1, 2, {7}), Mesh.Link(0, 2, 1, {7})},
                          multiset{}, multiset{})

  lemma PairIsWelcoming()
    ensures Mesh.Inv(PAIR) && Welcoming(PAIR) && forall k :: !Holds(PAIR, 1, k)
  {
    LoneStoreValid();
    assert forall g, p, n :: !Held(LONE_STORE.events, g, p, n);
    hide ValidDb;
  }

  lemma PairIsConnected()
    ensures Connects(PAIR, [Mesh.Link(0, 1, 2, {7})], 1, 2, 7)
  {
    var path := [Mesh.Link(0, 1, 2, {7})];
    assert path[1..] == [];
    assert Connects(PAIR, path[1..], 2, 2, 7);
  }

  lemma SendableIsLive(e: EventEnvelope, name: string)
    requires Sendable(e) && ByteLen(name) <= 192
    ensures LiveFits(WireEvent(e, name))
  {
    SendableExactly(e);
    FitsWithoutName(WireEvent(e, name));
  }

  /** Two nodes with a session: what one appends, the other comes to hold. */
  lemma APairPublishes() returns (actions: seq<Mesh.Action>, k: EventKey)
    ensures Mesh.Inv(PAIR) && Welcoming(PAIR) && !Holds(PAIR, 1, k)
    ensures Mesh.CanRun(PAIR, actions) && Quiet(Mesh.Run(PAIR, actions)) && Holds(Mesh.Run(PAIR, actions), 2, k)
  {
    hide Append, Mesh.Inv, Welcoming, Mesh.Run, Mesh.CanRun, Quiet, Holds, Connects, StoredEvent, InsertRemote;
    hide Sendable, LiveFits, CleanLabel, Entered;
    var one := Identity(1, "one");
    var db, e := LoneStoreAppends();
    LoneStoreTakes(e, db);
    LoneIsSendable(db, e);
    CleanLabelBound("one", "New peer", 48);
    SendableIsLive(e, one.DisplayName());
    PairIsWelcoming();
    PairIsConnected();
    actions := PublishedComesToRest(PAIR, one, 9, TextMessage("x"), 0, 0, db, e);
    k := KeyOf(e);
    var w := WireEvent(e, one.DisplayName());
    PublishedArrivesExactly(PAIR, actions, w, k, [Mesh.Link(0, 1, 2, {7})], 2);
  }

  const LARGE := Attachment("a", seq(MAX_FRAME_BYTES, _ => 'a'), [], "")
  const LARGE_SEND := Mesh.DoSend(Identity(1, "one"), 9, LARGE, 0, 0)

  lemma LargeAppends() returns (db: Db, e: EventEnvelope)
    ensures Append(LONE_STORE, Identity(1, "one"), 9, LARGE, 0, 0) == Ok((db, e))
    ensures SequenceFits(e) && KeyOf(e) == EventKey(7, 1, 1)
    ensures !LiveFits(WireEvent(e, Identity(1, "one").DisplayName()))
  {
    LoneStoreValid();
    assert AuthorSequences(map[], 7, 1) == {};
    ValidPayloadCanBeUnsendable(1, 7, 9, 5, 1, 0, 0, Identity(1, "one").DisplayName());
    hide ValidDb, LARGE, SealEvent, LiveFits;
    AppendSucceedsExactly(LONE_STORE, Identity(1, "one"), 9, LARGE, 0, 0);
    var r := Append(LONE_STORE, Identity(1, "one"), 9, LARGE, 0, 0);
    db, e := r.value.0, r.value.1;
    AppendExactly(LONE_STORE, Identity(1, "one"), 9, LARGE, 0, 0, db, e);
    Mesh.AppendSeals(LONE_STORE, Identity(1, "one"), 9, LARGE, 0, 0);
  }

  /** The same two nodes, and an attachment that no frame carries: it is appended, and
      in every run of live traffic that comes to rest the other node lacks it, and the
      session that was to send it is gone. */
  lemma ALargeAttachmentStaysHome(actions: seq<Mesh.Action>)
    requires Mesh.CanRun(PAIR, [LARGE_SEND] + actions) && OnlyLive([LARGE_SEND] + actions)
    requires Quiet(Mesh.Run(PAIR, [LARGE_SEND] + actions))
    ensures var m := Mesh.Run(PAIR, [LARGE_SEND] + actions);
            && Holds(m, 1, EventKey(7, 1, 1)) && !Holds(m, 2, EventKey(7, 1, 1))
            && Mesh.Link(0, 1, 2, {7}) !in m.links
  {
    var db, e := LargeAppends();
    var w, all := WireEvent(e, Identity(1, "one").DisplayName()), [LARGE_SEND] + actions;
    LargeEnters(db, e, w);
    assert all[0] == LARGE_SEND;
    PairIsWelcoming();
    LiveIsUnsynced(all);
    hide Append, Mesh.Inv, Mesh.Run, Mesh.CanRun, Quiet, Holds, OnlyLive, NoSync, LiveFits, Entering, Entered, LARGE;
    hide CleanLabel, Welcoming;
    EnteredCons(PAIR, all);
    TooLargeStaysHome(PAIR, all, w, EventKey(7, 1, 1), 1);
    TooLargeStaysHome(PAIR, all, w, EventKey(7, 1, 1), 2);
    TooLargeEndsSessions(PAIR, all, w, EventKey(7, 1, 1), Mesh.Link(0, 1, 2, {7}));
  }

  lemma LargeEnters(db: Db, e: EventEnvelope, w: WireEvent)
    requires Append(LONE_STORE, Identity(1, "one"), 9, LARGE, 0, 0) == Ok((db, e))
    requires w == WireEvent(e, Identity(1, "one").DisplayName())
    ensures Entering(PAIR, LARGE_SEND) == [w]
  {
    hide Append, LARGE, CleanLabel;
  }

  const EMPTY_LIST: seq<GroupInventory> := [GroupInventory(7, [])]
  const SIDE := Handover.Side(Mesh.Link(0, 1, 2, {7}), LONE_STORE, multiset{}, Handover.Opening, [], [], map[], map[],
                              [], [])

  lemma EmptyListIs(events: Events)
    requires events == map[]
    ensures AreInventories(events, {7}, EMPTY_LIST) && MissingRanges(EMPTY_LIST, EMPTY_LIST) == []
  {
    assert Authors(events, 7) == {};
    assert EMPTY_LIST[1..] == [];
  }

  lemma SideAsks()
    ensures Handover.CanMove(SIDE, Handover.ListHeads(EMPTY_LIST))
    ensures var s1 := Handover.Moved(SIDE, Handover.ListHeads(EMPTY_LIST));
            && s1 == SIDE.(stage := Handover.Listed(EMPTY_LIST)) && Handover.CanMove(s1, Handover.Ask(EMPTY_LIST))
            && Handover.Moved(s1, Handover.Ask(EMPTY_LIST)) == SIDE.(stage := Handover.Serving(0, None))
  {
    EmptyListIs(map[]);
    hide AreInventories, MissingRanges, EMPTY_LIST;
  }

  lemma SidePublishes(s: Handover.Side, db: Db, e: EventEnvelope, w: WireEvent, publish: Handover.Move)
    requires s.db == LONE_STORE && s.link.src == 1 && s.waiting == multiset{}
    requires Append(LONE_STORE, Identity(1, "one"), 9, TextMessage("x"), 0, 0) == Ok((db, e))
    requires w == WireEvent(e, Identity(1, "one").DisplayName())
    requires publish == Handover.Publish(Identity(1, "one"), 9, TextMessage("x"), 0, 0)
    ensures Handover.CanMove(s, publish) && Handover.Moved(s, publish) == s.(db := db, waiting := multiset{w})
  {
    hide Append, CleanLabel, LONE_STORE;
  }

  lemma SideEnds(s3: Handover.Side, w: WireEvent)
    requires s3.stage == Handover.Serving(0, None) && s3.asked == [] && s3.waiting == multiset{w}
    ensures Handover.CanMove(s3, Handover.Announce(w))
    ensures var s4 := Handover.Moved(s3, Handover.Announce(w));
            && Handover.CanMove(s4, Handover.Subscribe)
            && Handover.Moved(s4, Handover.Subscribe) == s3.(waiting := multiset{}, stage := Handover.Live)
  {
  }

  /** A side lists its heads, appends a text and broadcasts it, and subscribes: it is
      then live and at rest, holds the text, and has sent nothing. */
  lemma HandoverLosesAText() returns (moves: seq<Handover.Move>, k: EventKey)
    ensures Handover.Fresh(SIDE) && Handover.CanMoveAll(SIDE, moves)
    ensures var s := Handover.MovedAll(SIDE, moves);
            Handover.AtRest(s) && k in s.db.events && k !in s.peer && s.sent == []
  {
    var db, e := LoneStoreAppends();
    LoneStoreTakes(e, db);
    LoneStoreValid();
    k := KeyOf(e);
    var w := WireEvent(e, Identity(1, "one").DisplayName());
    var list, ask, announce := Handover.ListHeads(EMPTY_LIST), Handover.Ask(EMPTY_LIST), Handover.Announce(w);
    var publish := Handover.Publish(Identity(1, "one"), 9, TextMessage("x"), 0, 0);
    SideAsks();
    hide Handover.CanMove, Handover.Moved, Append, InsertRemote, ValidDb, CleanLabel, EMPTY_LIST;
    var s1 := Handover.Moved(SIDE, list);
    var s2 := Handover.Moved(s1, ask);
    SidePublishes(s2, db, e, w, publish);
    var s3 := Handover.Moved(s2, publish);
    SideEnds(s3, w);
    var s4 := Handover.Moved(s3, announce);
    Handover.MovedCons(s4, Handover.Subscribe, []);
    var rest := [announce] + ([Handover.Subscribe] + []);
    Handover.MovedCons(s3, announce, [Handover.Subscribe] + []);
    Handover.MovedCons(s2, publish, rest);
    Handover.MovedCons(s1, ask, [publish] + rest);
    Handover.MovedCons(SIDE, list, [ask] + ([publish] + rest));
    moves := [list] + ([ask] + ([publish] + rest));
  }
}
