/** What flooding leaves out: an event that a node comes to hold without its being on
    its way. When exactly a mesh at rest has delivered an event. */
module FloodLimits {
  import Text
  import Runs
  import opened Base
  import opened Model
  import opened Crypto
  import opened Tables
  import opened Transfer
  import opened Wire
  import opened Mesh
  import opened Flooding
  import opened FloodDelivery
  import opened FloodSizes

  /** The author holds the event, no copy of it waits on a live session, and its
      holders are those of the start. */
  ghost predicate Still(start: Mesh, m: Mesh, k: EventKey) {
    && Holds(m, k.author, k)
    && (forall p :: Holds(m, p, k) <==> Holds(start, p, k))
    && (forall l :: l in m.links ==> !Pending(m, l, k))
  }

  /** What a step must do to leave the holders of an event alone. */
  ghost predicate LeavesAlone(m: Mesh, later: Mesh, k: EventKey) {
    && later.links <= m.links
    && (forall p :: Holds(later, p, k) <==> Holds(m, p, k))
    && (forall l :: l in later.links && Pending(later, l, k) ==> Pending(m, l, k))
  }

  lemma StillStays(start: Mesh, m: Mesh, later: Mesh, k: EventKey)
    requires Still(start, m, k) && LeavesAlone(m, later, k)
    ensures Still(start, later, k)
  {
    hide Holds, Pending;
  }

  lemma ForwardLeaves(m: Mesh, c: Copy, k: EventKey)
    requires CanForward(m, c)
    ensures LeavesAlone(m, Forward(m, c), k)
  {
    hide Goes, Passes;
    forall l | Pending(Forward(m, c), l, k)
      ensures Pending(m, l, k)
    {
      var d :| (d in Forward(m, c).queued || d in Forward(m, c).wire) && IsCopyOf(d, l, k);
      assert d in m.queued || d in m.wire;
    }
  }

  /** Another event is stored and broadcast. */
  lemma OtherBroadcastLeaves(m: Mesh, rest: Mesh, p: PeerId, db: Db, wire: WireEvent, k: EventKey)
    requires p in m.nodes && SequenceFits(wire.event) && KeyOf(wire.event) != k
    requires rest.nodes == m.nodes && rest.links <= m.links && rest.queued <= m.queued && rest.wire <= m.wire
    requires db.events == m.nodes[p].events[KeyOf(wire.event) := ToRow(wire.event)]
    ensures LeavesAlone(m, Broadcast(WithDb(rest, p, db), p, wire), k)
  {
    var later := Broadcast(WithDb(rest, p, db), p, wire);
    BroadcastMembers(WithDb(rest, p, db), p, wire);
    forall l | l in later.links && Pending(later, l, k)
      ensures Pending(m, l, k)
    {
      var d :| (d in later.queued || d in later.wire) && IsCopyOf(d, l, k);
      assert d in m.queued || d in m.wire;
    }
  }

  lemma FewerCopiesLeave(m: Mesh, later: Mesh, k: EventKey)
    requires later.nodes == m.nodes && later.links <= m.links && later.queued <= m.queued && later.wire <= m.wire
    ensures LeavesAlone(m, later, k)
  {
    forall l | Pending(later, l, k)
      ensures Pending(m, l, k)
    {
      var d :| (d in later.queued || d in later.wire) && IsCopyOf(d, l, k);
      assert d in m.queued || d in m.wire;
    }
  }

  lemma SendLeaves(m: Mesh, identity: Identity, channel: ChannelId, payload: MessagePayload, nonce: Nonce, now: I64,
                   k: EventKey)
    requires Inv(m) && Holds(m, k.author, k)
    ensures LeavesAlone(m, Send(m, identity, channel, payload, nonce, now), k)
  {
    hide Append, ValidDb, LeavesAlone;
    var p := identity.peer;
    FewerCopiesLeave(m, m, k);
    if p in m.nodes && Append(m.nodes[p], identity, channel, payload, nonce, now).Ok? {
      var (db, event) := Append(m.nodes[p], identity, channel, payload, nonce, now).value;
      SendGains(m, identity, channel, payload, nonce, now, db, event);
      SentIsHeld(m, identity, channel, payload, nonce, now, db, event);
      hide Inv;
      OtherBroadcastLeaves(m, m, p, db, WireEvent(event, identity.DisplayName()), k);
    }
  }

  lemma ReceiveLeaves(m: Mesh, c: Copy, k: EventKey)
    requires CanReceive(m, c) && !Pending(m, c.link, k)
    ensures LeavesAlone(m, Receive(m, c), k)
  {
    hide InsertRemote, LeavesAlone, Broadcast;
    var q, e, name := c.link.dst, c.wire.event, c.wire.authorName;
    var rest := m.(wire := m.wire - multiset{c});
    assert SequenceFits(e) ==> KeyOf(e) != k by {
      assert !IsCopyOf(c, c.link, k);
    }
    FewerCopiesLeave(m, rest, k);
    FewerCopiesLeave(m, Close(rest, c.link.session), k);
    match InsertRemote(m.nodes[q], e, name)
    case Err(_) =>
    case Ok((db, added)) =>
      if added && e.header.group in c.link.groups {
        NewMeansInserted(m.nodes[q], e, name);
        OtherBroadcastLeaves(m, rest, q, db, c.wire, k);
      }
  }

  lemma CloseLeaves(m: Mesh, session: nat, k: EventKey)
    ensures LeavesAlone(m, Close(m, session), k)
  {
    FewerCopiesLeave(m, Close(m, session), k);
  }

  lemma MaintainLeaves(m: Mesh, p: PeerId, command: Runs.Command, k: EventKey)
    requires Inv(m) && p in m.nodes && Maintenance(command)
    ensures LeavesAlone(m, WithDb(m, p, Runs.Apply(m.nodes[p], command)), k)
  {
    hide Runs.Apply, Inv, LeavesAlone;
    MaintainedEvents(m, p, command);
    SameEventsLeave(m, p, Runs.Apply(m.nodes[p], command), k);
  }

  lemma SameEventsLeave(m: Mesh, p: PeerId, db: Db, k: EventKey)
    requires p in m.nodes && db.events == m.nodes[p].events
    ensures LeavesAlone(m, WithDb(m, p, db), k)
  {
    var later := WithDb(m, p, db);
    forall l | Pending(later, l, k)
      ensures Pending(m, l, k)
    {
      var d :| (d in later.queued || d in later.wire) && IsCopyOf(d, l, k);
      assert d in m.queued || d in m.wire;
    }
  }

  lemma LiveStepLeaves(start: Mesh, m: Mesh, action: Action, k: EventKey)
    requires Inv(m) && Still(start, m, k) && Enabled(m, action) && LiveAction(action)
    ensures LeavesAlone(m, Step(m, action), k)
  {
    hide Inv, LeavesAlone, Holds, Pending, Send, Receive, Forward, Close, WithDb;
    match action
    case DoSend(identity, channel, payload, nonce, now) => SendLeaves(m, identity, channel, payload, nonce, now, k);
    case DoForward(c) => ForwardLeaves(m, c, k);
    case DoReceive(c) => ReceiveLeaves(m, c, k);
    case DoClose(session) => CloseLeaves(m, session, k);
    case DoMaintain(p, command) => MaintainLeaves(m, p, command, k);
  }

  lemma {:induction false} StillRuns(start: Mesh, m: Mesh, actions: seq<Action>, k: EventKey)
    requires Inv(m) && Still(start, m, k) && CanRun(m, actions) && OnlyLive(actions)
    ensures Still(start, Run(m, actions), k)
    decreases |actions|
  {
    hide Inv, Still, Step, Enabled, LeavesAlone;
    if actions != [] {
      assert LiveAction(actions[0]);
      StepKeeps(m, actions[0]);
      LiveStepLeaves(start, m, actions[0], k);
      StillStays(start, m, Step(m, actions[0]), k);
      StillRuns(start, Step(m, actions[0]), actions[1..], k);
    }
  }

  lemma QuietIsStill(m: Mesh, k: EventKey)
    requires Quiet(m) && Holds(m, k.author, k)
    ensures Still(m, m, k)
  {
  }

  /** An event that its author held in a mesh at rest never moves: its holders stay
      the same under all appends, live traffic, local maintenance and closings. */
  lemma AtRestNothingMoves(start: Mesh, actions: seq<Action>, q: PeerId, k: EventKey)
    requires Inv(start) && Quiet(start) && CanRun(start, actions) && OnlyLive(actions)
    requires Holds(start, k.author, k)
    ensures Holds(Run(start, actions), q, k) <==> Holds(start, q, k)
  {
    QuietIsStill(start, k);
    hide Inv, Quiet, CanRun, Run, Holds;
    StillRuns(start, start, actions, k);
  }

  lemma AuthorHolds(m: Mesh, q: PeerId, k: EventKey)
    requires Inv(m) && Holds(m, q, k)
    ensures Holds(m, k.author, k)
  {
    HeldIsAtHome(m, q, k);
  }

  lemma NothingEntersTwice(start: Mesh, actions: seq<Action>, k: EventKey)
    requires Inv(start) && CanRun(start, actions) && Holds(start, k.author, k)
    ensures !EnteredFitting(start, actions, k)
  {
    hide Inv, Holds, Entered, IsOf, LiveFits;
    NotAgain(start, actions, k);
  }

  /** The event is appended in the run, and fits a frame as it is handed on. */
  ghost predicate EnteredFitting(start: Mesh, actions: seq<Action>, k: EventKey)
    requires CanRun(start, actions)
  {
    exists w :: w in Entered(start, actions) && IsOf(w, k) && LiveFits(w)
  }

  /** No session of the start is to send another event that no frame carries. */
  ghost predicate OthersCarried(start: Mesh, actions: seq<Action>, k: EventKey)
    requires CanRun(start, actions)
  {
    forall w :: w in Entered(start, actions) && !IsOf(w, k) ==> Carried(start.links, w)
  }

  lemma FittingIsCarried(start: Mesh, actions: seq<Action>, k: EventKey)
    requires Inv(start) && Quiet(start) && CanRun(start, actions)
    requires OthersCarried(start, actions, k) && EnteredFitting(start, actions, k)
    ensures AllCarried(start, actions)
  {
    assert QueueFits(start);
    hide Inv, Quiet, CanRun, Run, Entered, LiveFits, Passes, QueueFits;
    var v :| v in Entered(start, actions) && IsOf(v, k) && LiveFits(v);
    forall w | w in Entered(start, actions)
      ensures Carried(start.links, w)
    {
      if IsOf(w, k) {
        EnteredOnce(start, actions, v, w, k);
      }
    }
  }

  /** Exactly what flooding delivers. From rest, over standing sessions between nodes
      that welcome each other, any traffic that comes to rest again, with no other
      event beyond the frame limit: a node that the sessions of the group connect to a
      holder of an event holds it exactly when it held it at the start, is its author,
      or the event was appended since and fits a frame. So an event that entered
      before, by synchronising, goes nowhere, and neither does one that is too large. */
  lemma FloodingDeliversExactly(start: Mesh, actions: seq<Action>, path: seq<Link>, p: PeerId, q: PeerId, k: EventKey)
    requires Inv(start) && Welcoming(start) && Quiet(start)
    requires CanRun(start, actions) && OnlyTraffic(actions) && Quiet(Run(start, actions))
    requires OthersCarried(start, actions, k)
    requires Holds(Run(start, actions), p, k) && Connects(start, path, p, q, k.group)
    ensures Holds(Run(start, actions), q, k) <==>
              Holds(start, q, k) || q == k.author || EnteredFitting(start, actions, k)
  {
    TrafficIsLive(actions);
    InvFromHome(start);
    RunKeepsMesh(start, actions);
    hide Inv, Welcoming, Quiet, CanRun, Run, Holds, Connects, OnlyTraffic, FromHome, OthersCarried, AllCarried;
    AuthorHolds(Run(start, actions), p, k);
    if Holds(start, k.author, k) {
      AtRestNothingMoves(start, actions, q, k);
      NothingEntersTwice(start, actions, k);
    } else if EnteredFitting(start, actions, k) {
      FittingIsCarried(start, actions, k);
      NewToAll(start, start, path, p, q, k);
      FloodingReachesAll(start, actions, path, p, q, k);
    } else {
      NewIsHomebound(start, actions, q, k);
    }
  }

  lemma NewIsHomebound(start: Mesh, actions: seq<Action>, q: PeerId, k: EventKey)
    requires Inv(start) && CanRun(start, actions) && OnlyLive(actions)
    requires !Holds(start, k.author, k) && Holds(Run(start, actions), k.author, k)
    requires !EnteredFitting(start, actions, k)
    ensures Holds(Run(start, actions), q, k) <==> q == k.author
    ensures !Holds(start, q, k)
  {
    hide Inv, CanRun, Run, Holds, LiveFits, OnlyLive, NoSync, Entered;
    LiveIsUnsynced(actions);
    NewWasEntered(start, actions, k);
    var w :| w in Entered(start, actions) && IsOf(w, k);
    TooLargeStaysHome(start, actions, w, k, q);
    if Holds(start, q, k) {
      AuthorHolds(start, q, k);
    }
  }

  /** Where the sessions that still stand connect a node to a holder of an event, size
      no longer matters: the node holds it exactly when the event is new since the
      start, or the node held it then. This is so under all live actions. */
  lemma StandingSessionsDeliver(start: Mesh, actions: seq<Action>, path: seq<Link>, p: PeerId, q: PeerId, k: EventKey)
    requires Inv(start) && Quiet(start) && CanRun(start, actions) && OnlyLive(actions) && Quiet(Run(start, actions))
    requires Holds(Run(start, actions), p, k) && Connects(Run(start, actions), path, p, q, k.group)
    ensures Holds(Run(start, actions), q, k) <==> !Holds(start, k.author, k) || Holds(start, q, k)
  {
    InvFromHome(start);
    hide Inv, Quiet, CanRun, Run, Holds, Connects, OnlyLive, FromHome;
    if Holds(start, k.author, k) {
      AtRestNothingMoves(start, actions, q, k);
    } else {
      NewToAll(start, Run(start, actions), path, p, q, k);
      FloodingDelivers(start, actions, path, p, q, k);
    }
  }

  lemma EnteredFirst(start: Mesh, send: Action, rest: seq<Action>)
    requires Enabled(start, send) && CanRun(Step(start, send), rest) && OnlyFloods(rest)
    requires CanRun(start, [send] + rest)
    ensures Entered(start, [send] + rest) == Entering(start, send)
  {
    hide Step, Enabled, Entering;
    assert ([send] + rest)[1..] == rest;
    FloodsEnterNothing(Step(start, send), rest);
  }

  lemma {:induction false} FloodsEnterNothing(m: Mesh, actions: seq<Action>)
    requires CanRun(m, actions) && OnlyFloods(actions)
    ensures Entered(m, actions) == []
    decreases |actions|
  {
    hide Step, Enabled;
    if actions != [] {
      assert Floods(actions[0]);
      FloodsEnterNothing(Step(m, actions[0]), actions[1..]);
    }
  }

  /** Exactly what one publishes arrives: when nothing else is appended, then however a
      mesh comes to rest a node that the standing sessions of the group connect to the
      author holds the event exactly when it is the author, or the event fits a frame. */
  lemma PublishedArrivesExactly(start: Mesh, actions: seq<Action>, w: WireEvent, k: EventKey, path: seq<Link>,
                                q: PeerId)
    requires Inv(start) && Welcoming(start) && QueueFits(start)
    requires CanRun(start, actions) && OnlyTraffic(actions) && Quiet(Run(start, actions))
    requires Entered(start, actions) == [w] && IsOf(w, k) && Connects(start, path, k.author, q, k.group)
    ensures Holds(Run(start, actions), q, k) <==> q == k.author || LiveFits(w)
  {
    hide Inv, Welcoming, CanRun, Run, Quiet, Holds, Reaches, OnlyTraffic, OnlyLive, NoSync, FromHome, Connects, Entered;
    hide QueueFits, LiveFits, Passes;
    InvFromHome(start);
    TrafficIsLive(actions);
    LiveIsUnsynced(actions);
    assert w in Entered(start, actions);
    EnteredIsNew(start, actions, w);
    if LiveFits(w) {
      NewToAll(start, start, path, k.author, q, k);
      FloodingReachesAll(start, actions, path, k.author, q, k);
    } else {
      TooLargeStaysHome(start, actions, w, k, q);
    }
  }

  /** After an append there is such a way to rest. */
  lemma PublishedComesToRest(start: Mesh, identity: Identity, channel: ChannelId, payload: MessagePayload,
                             nonce: Nonce, now: I64, db: Db, event: EventEnvelope) returns (actions: seq<Action>)
    requires Inv(start) && identity.peer in start.nodes
    requires Append(start.nodes[identity.peer], identity, channel, payload, nonce, now) == Ok((db, event))
    ensures CanRun(start, actions) && OnlyTraffic(actions) && Quiet(Run(start, actions))
    ensures Entered(start, actions) == [WireEvent(event, identity.DisplayName())]
    ensures SequenceFits(event) && event.header.author == identity.peer
  {
    var send := DoSend(identity, channel, payload, nonce, now);
    var m := Step(start, send);
    assert Entering(start, send) == [WireEvent(event, identity.DisplayName())];
    SentIsHeld(start, identity, channel, payload, nonce, now, db, event);
    hide Inv, Append, CanRun, Run, Quiet, Holds, Send, Covered, OnlyTraffic, FromHome, Entered, Entering;
    StepKeeps(start, send);
    var keys := KeysOf(m.queued) + KeysOf(m.wire);
    CoveredByItself(m);
    var rest := Drain(m, keys, |m.links|);
    RunCons(start, send, rest);
    FloodsAreTraffic(send, rest);
    EnteredFirst(start, send, rest);
    actions := [send] + rest;
  }

  lemma InvFromHome(m: Mesh)
    requires Inv(m)
    ensures FromHome(m)
  {
  }

  /** An event taken in the synchronising part of a session is not passed on, then or
      later: in a mesh at rest, whatever live traffic follows, every other node holds
      it exactly when it held it before. */
  lemma SyncIsNeverFlooded(m: Mesh, at: PeerId, origin: PeerId, e: EventEnvelope, name: string,
                           actions: seq<Action>, q: PeerId)
    requires Inv(m) && Quiet(m) && at in m.nodes && origin in m.nodes && StoredEvent(m.nodes[origin].events, e)
    requires CanRun(Sync(m, at, e, name), actions) && OnlyLive(actions)
    ensures q != at ==> (Holds(Run(Sync(m, at, e, name), actions), q, KeyOf(e)) <==> Holds(m, q, KeyOf(e)))
  {
    SyncKeeps(m, at, origin, e, name);
    var later, k := Sync(m, at, e, name), KeyOf(e);
    SyncIsQuiet(m, at, e, name, q, k);
    assert Holds(m, origin, k);
    hide Inv, Quiet, CanRun, Run, Holds, Sync, EventsGrow;
    AuthorHolds(m, origin, k);
    HoldsStays(m, later, k.author, k);
    AtRestNothingMoves(later, actions, q, k);
  }

  lemma SyncIsQuiet(m: Mesh, at: PeerId, e: EventEnvelope, name: string, q: PeerId, k: EventKey)
    requires Quiet(m) && at in m.nodes
    ensures Quiet(Sync(m, at, e, name))
    ensures q != at ==> (Holds(Sync(m, at, e, name), q, k) <==> Holds(m, q, k))
  {
    hide InsertRemote;
  }

  const LONE_STORE := Db(map[7 := GroupRow("group", 5, 0)], map[9 := ChannelRow(7, "general", 0)], map[], map[], {})

  lemma LoneStoreTakes(e: EventEnvelope, db: Db)
    requires Append(LONE_STORE, Identity(1, "one"), 9, TextMessage("x"), 0, 0) == Ok((db, e))
    ensures SequenceFits(e) && e.header.group == 7 && StoredEvent(db.events, e)
    ensures InsertRemote(LONE_STORE, e, "one").Ok?
    ensures KeyOf(e) in InsertRemote(LONE_STORE, e, "one").value.0.events
  {
    assert ValidDb(LONE_STORE);
    AppendExactly(LONE_STORE, Identity(1, "one"), 9, TextMessage("x"), 0, 0, db, e);
    RowRoundTrip(e);
    InsertRemoteExactly(LONE_STORE, e, "one");
  }

  lemma LoneStoreAppends() returns (db: Db, e: EventEnvelope)
    ensures Append(LONE_STORE, Identity(1, "one"), 9, TextMessage("x"), 0, 0) == Ok((db, e))
  {
    assert AuthorSequences(map[], 7, 1) == {};
    assert Text.ByteLen("x") == 1 && !Text.IsBlank("x") by {
      assert "x"[1..] == "";
    }
    AppendSucceedsExactly(LONE_STORE, Identity(1, "one"), 9, TextMessage("x"), 0, 0);
    var r := Append(LONE_STORE, Identity(1, "one"), 9, TextMessage("x"), 0, 0);
    db, e := r.value.0, r.value.1;
  }

  lemma TextLength()
    ensures TextMessage("x").Validate().Ok? && PayloadLen(TextMessage("x")) == 3
  {
    assert "x"[1..] == "" && Text.ByteLen("x") == 1 && !Text.IsBlank("x");
  }

  lemma TextIsSendable()
    ensures var event := SealEvent(1, 7, 9, 5, 1, 0, 0, TextMessage("x")); event.Ok? && Sendable(event.value)
  {
    TextLength();
    assert BytesLen(19) == 20 && VarintLen(1) == 1 && VarintLen(ZigZag(0)) == 1;
    SealedFitsExactly(1, 7, 9, 5, 1, 0, 0, TextMessage("x"));
    SendableExactly(SealEvent(1, 7, 9, 5, 1, 0, 0, TextMessage("x")).value);
  }

  lemma LoneIsSendable(db: Db, e: EventEnvelope)
    requires Append(LONE_STORE, Identity(1, "one"), 9, TextMessage("x"), 0, 0) == Ok((db, e))
    ensures Sendable(e)
  {
    TextIsSendable();
    assert AuthorSequences(map[], 7, 1) == {};
    assert ValidDb(LONE_STORE);
    hide Append, SealEvent, Sendable, ValidDb;
    AppendExactly(LONE_STORE, Identity(1, "one"), 9, TextMessage("x"), 0, 0, db, e);
    AppendSeals(LONE_STORE, Identity(1, "one"), 9, TextMessage("x"), 0, 0);
  }

  lemma LoneFits(e: EventEnvelope)
    requires Sendable(e)
    ensures BatchLen([WireEvent(e, "one")]) <= MAX_FRAME_BYTES
  {
    assert Text.ByteLen("one") <= 192 by {
      assert "one"[1..] == "ne" && "ne"[1..] == "e" && "e"[1..] == "";
    }
    SingleBatchFits(WireEvent(e, "one"));
  }

  const LONE_START := Mesh(map[1 := LONE_STORE, 2 := LONE_STORE, 3 := LONE_STORE], {}, multiset{}, multiset{})
  const LONE_SEND := DoSend(Identity(1, "one"), 9, TextMessage("x"), 0, 0)
  const LONE_LINK := Link(0, 2, 3, {7})

  lemma GapFirst(db: Db, e: EventEnvelope)
    requires Append(LONE_STORE, Identity(1, "one"), 9, TextMessage("x"), 0, 0) == Ok((db, e))
    ensures Step(LONE_START, LONE_SEND) == WithDb(LONE_START, 1, db)
  {
    hide Append;
    assert Copies({}, 1, WireEvent(e, Identity(1, "one").DisplayName())) == {};
  }

  lemma GapLast(m: Mesh, db: Db, e: EventEnvelope)
    requires m == WithDb(LONE_START, 1, db).(links := {LONE_LINK})
    requires SequenceFits(e) && e.header.group == 7
    requires InsertRemote(LONE_STORE, e, "one").Ok? && KeyOf(e) in InsertRemote(LONE_STORE, e, "one").value.0.events
    ensures var last := Sync(m, 2, e, "one");
            Quiet(last) && last.links == {LONE_LINK} && Holds(last, 2, KeyOf(e)) && !Holds(last, 3, KeyOf(e))
  {
    hide InsertRemote;
    assert m.nodes[2] == LONE_STORE && m.nodes[3] == LONE_STORE;
  }

  lemma ThreeSteps(m: Mesh, a: Action, b: Action, c: Action)
    requires Enabled(m, a) && Enabled(Step(m, a), b) && Enabled(Step(Step(m, a), b), c)
    ensures CanRun(m, [a] + ([b] + ([c] + []))) && Run(m, [a] + ([b] + ([c] + []))) == Step(Step(Step(m, a), b), c)
  {
    hide Enabled, Step;
    var last := Step(Step(Step(m, a), b), c);
    assert CanRun(last, []) && Run(last, []) == last;
    RunCons(Step(Step(m, a), b), c, []);
    RunCons(Step(m, a), b, [c] + []);
    RunCons(m, a, [b] + ([c] + []));
  }

  lemma GapMiddle(db: Db, e: EventEnvelope)
    requires StoredEvent(db.events, e) && BatchLen([WireEvent(e, "one")]) <= MAX_FRAME_BYTES
    ensures var m1 := WithDb(LONE_START, 1, db);
            var m2 := m1.(links := {LONE_LINK});
            && Enabled(LONE_START, LONE_SEND)
            && Enabled(m1, DoConnect(LONE_LINK)) && Step(m1, DoConnect(LONE_LINK)) == m2
            && Enabled(m2, DoSync(2, 1, e, "one")) && Step(m2, DoSync(2, 1, e, "one")) == Sync(m2, 2, e, "one")
  {
    hide StoredEvent, Sync, BatchLen;
  }

  /** A run in which a synchronised event stays where it is: node 2 takes an event of
      node 1 in the synchronising part of a session while it has a live session with
      node 3; the mesh comes to rest and node 3, two sessions from the author, lacks
      the event. */
  lemma SyncLeavesAGap() returns (actions: seq<Action>, k: EventKey)
    ensures Start(LONE_START) && CanRun(LONE_START, actions)
    ensures var m := Run(LONE_START, actions);
            Quiet(m) && LONE_LINK in m.links && k.group in LONE_LINK.groups && Holds(m, 2, k) && !Holds(m, 3, k)
  {
    var db, e := LoneStoreAppends();
    LoneStoreTakes(e, db);
    LoneIsSendable(db, e);
    LoneFits(e);
    GapFirst(db, e);
    k := KeyOf(e);
    var connect, sync := DoConnect(LONE_LINK), DoSync(2, 1, e, "one");
    GapMiddle(db, e);
    hide Append, InsertRemote, StoredEvent, Quiet, Holds, CanRun, Run, Enabled, Step, Sendable, BatchLen;
    ThreeSteps(LONE_START, LONE_SEND, connect, sync);
    GapLast(WithDb(LONE_START, 1, db).(links := {LONE_LINK}), db, e);
    actions := [LONE_SEND] + ([connect] + ([sync] + []));
  }
}
