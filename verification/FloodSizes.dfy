/** The frame limit on live records: which events leave their author at all, and which
    sessions outlast them. */
module FloodSizes {
  import Runs
  import opened Base
  import opened Model
  import opened Tables
  import opened Transfer
  import opened Wire
  import opened Mesh
  import opened Flooding
  import opened FloodDelivery

  // ---------------------------------------------------------------- what travels

  /** A stored event, as small as a record of it can be. */
  function Smallest(k: EventKey, row: EventRow): WireEvent {
    WireEvent(FromRow(k, row), "")
  }

  /** An event that a node takes from another was sent in a frame. */
  lemma TakenFits(m: Mesh, action: Action, q: PeerId, k: EventKey)
    requires Inv(m) && Enabled(m, action)
    requires Holds(Step(m, action), q, k) && !Holds(m, q, k) && q != k.author
    ensures LiveFits(Smallest(k, Step(m, action).nodes[q].events[k]))
  {
    hide Inv, LiveFits, Append, InsertRemote, Runs.Apply;
    match action
    case DoSend(identity, channel, payload, nonce, now) => SentAtHome(m, identity, channel, payload, nonce, now, q, k);
    case DoReceive(c) => ReceivedFits(m, c, q, k);
    case DoSync(at, origin, event, name) => SyncedFits(m, at, origin, event, name, q, k);
    case DoMaintain(p, command) => MaintainedEvents(m, p, command);
    case DoForward(c) =>
    case DoConnect(l) =>
    case DoClose(session) =>
  }

  lemma SentAtHome(m: Mesh, identity: Identity, channel: ChannelId, payload: MessagePayload, nonce: Nonce, now: I64,
                   q: PeerId, k: EventKey)
    requires Inv(m) && identity.peer in m.nodes
    requires Holds(Send(m, identity, channel, payload, nonce, now), q, k) && !Holds(m, q, k)
    ensures q == k.author
    ensures exists w :: w in Entering(m, DoSend(identity, channel, payload, nonce, now)) && IsOf(w, k)
  {
    hide Append;
    match Append(m.nodes[identity.peer], identity, channel, payload, nonce, now)
    case Err(_) =>
    case Ok((db, event)) =>
      SendGains(m, identity, channel, payload, nonce, now, db, event);
      SentIsHeld(m, identity, channel, payload, nonce, now, db, event);
      hide Inv;
      var w := WireEvent(event, identity.DisplayName());
      assert w in Entering(m, DoSend(identity, channel, payload, nonce, now)) && IsOf(w, k);
  }

  lemma RecordIsStored(m: Mesh, c: Copy)
    requires Inv(m) && (c in m.queued || c in m.wire)
    ensures SequenceFits(c.wire.event) && Holds(m, c.wire.event.header.author, KeyOf(c.wire.event))
    ensures FromRow(KeyOf(c.wire.event), ToRow(c.wire.event)) == c.wire.event
    ensures c in m.wire ==> Goes(c)
  {
    assert CopyStored(m, c);
    hide ValidNodes, LinksJoinNodes;
    StoredIsAtHome(m, c.link.src, c.wire.event);
  }

  lemma ReceivedIsStored(m: Mesh, c: Copy, q: PeerId, k: EventKey)
    requires CanReceive(m, c) && Holds(Receive(m, c), q, k) && !Holds(m, q, k)
    ensures IsOf(c.wire, k) && Receive(m, c).nodes[q].events[k] == ToRow(c.wire.event)
  {
    hide InsertRemote;
    match InsertRemote(m.nodes[c.link.dst], c.wire.event, c.wire.authorName)
    case Err(_) =>
    case Ok((db, added)) =>
      if added {
        NewMeansInserted(m.nodes[c.link.dst], c.wire.event, c.wire.authorName);
      }
  }

  lemma ReceivedFits(m: Mesh, c: Copy, q: PeerId, k: EventKey)
    requires Inv(m) && CanReceive(m, c) && Holds(Receive(m, c), q, k) && !Holds(m, q, k)
    ensures IsOf(c.wire, k) && LiveFits(Smallest(k, Receive(m, c).nodes[q].events[k]))
  {
    hide Inv, Receive, LiveFits, Passes, BatchLen;
    ReceivedIsStored(m, c, q, k);
    RecordIsStored(m, c);
    FitsWithoutName(c.wire);
  }

  lemma SyncedFits(m: Mesh, at: PeerId, origin: PeerId, e: EventEnvelope, name: string, q: PeerId, k: EventKey)
    requires Inv(m) && at in m.nodes && origin in m.nodes && StoredEvent(m.nodes[origin].events, e)
    requires BatchLen([WireEvent(e, name)]) <= MAX_FRAME_BYTES
    requires Holds(Sync(m, at, e, name), q, k) && !Holds(m, q, k)
    ensures LiveFits(Smallest(k, Sync(m, at, e, name).nodes[q].events[k]))
  {
    hide Inv, InsertRemote, LiveFits, BatchLen, ValidDb, OwnLog, AtHome, StoredEvent, AgreesWith;
    StoredIsAtHome(m, origin, e);
    RemoteInsert(m, at, origin, e, name);
    FitsWithoutName(WireEvent(e, name));
  }

  lemma RowStays(m: Mesh, later: Mesh, q: PeerId, k: EventKey)
    requires EventsGrow(m, later) && Holds(m, q, k)
    ensures Holds(later, q, k) && later.nodes[q].events[k] == m.nodes[q].events[k]
  {
  }

  /** In every run, with any connecting, synchronising and closing: an event that a
      node comes to hold, other than its author, is within the frame limit. An event
      beyond it stays with its author. */
  lemma {:induction false} OnlyWhatFitsTravels(start: Mesh, actions: seq<Action>, q: PeerId, k: EventKey)
    requires Inv(start) && CanRun(start, actions)
    requires Holds(Run(start, actions), q, k) && !Holds(start, q, k) && q != k.author
    ensures LiveFits(Smallest(k, Run(start, actions).nodes[q].events[k]))
    decreases |actions|
  {
    hide Inv, Step, Enabled, EventsGrow, LiveFits;
    if actions != [] {
      var m := Step(start, actions[0]);
      StepKeeps(start, actions[0]);
      if Holds(m, q, k) {
        TakenFits(start, actions[0], q, k);
        RunGrows(m, actions[1..]);
        RowStays(m, Run(m, actions[1..]), q, k);
      } else {
        OnlyWhatFitsTravels(m, actions[1..], q, k);
      }
    }
  }

  // ---------------------------------------------------------------- an event beyond the limit

  predicate Unsynced(action: Action) {
    !action.DoSync?
  }

  ghost predicate NoSync(actions: seq<Action>) {
    forall i :: 0 <= i < |actions| ==> Unsynced(actions[i])
  }

  /** No node but the author holds the event, and no copy of it can be sent. */
  ghost predicate Homebound(m: Mesh, k: EventKey) {
    && (forall p :: Holds(m, p, k) ==> p == k.author)
    && (forall c :: c in m.queued && IsOf(c.wire, k) ==> !LiveFits(c.wire))
    && (forall c :: c in m.wire ==> !IsOf(c.wire, k))
  }

  ghost predicate NoneFits(wires: seq<WireEvent>, k: EventKey) {
    forall w :: w in wires && IsOf(w, k) ==> !LiveFits(w)
  }

  lemma NoRecordYet(m: Mesh, c: Copy, k: EventKey)
    requires Inv(m) && !Holds(m, k.author, k) && (c in m.queued || c in m.wire)
    ensures !IsOf(c.wire, k)
  {
    RecordIsStored(m, c);
  }

  lemma HeldNowhere(m: Mesh, p: PeerId, k: EventKey)
    requires Inv(m) && !Holds(m, k.author, k)
    ensures !Holds(m, p, k)
  {
    if Holds(m, p, k) {
      HeldIsAtHome(m, p, k);
    }
  }

  lemma HomeboundAtStart(m: Mesh, k: EventKey)
    requires Inv(m) && !Holds(m, k.author, k)
    ensures Homebound(m, k)
  {
    hide Inv, Holds, IsOf, LiveFits;
    forall c | c in m.queued || c in m.wire
      ensures !IsOf(c.wire, k)
    {
      NoRecordYet(m, c, k);
    }
    forall p
      ensures !Holds(m, p, k)
    {
      HeldNowhere(m, p, k);
    }
  }

  lemma FewerStayHomebound(m: Mesh, later: Mesh, k: EventKey)
    requires Homebound(m, k) && later.nodes == m.nodes && later.queued <= m.queued && later.wire <= m.wire
    ensures Homebound(later, k)
  {
    assert forall p :: Holds(later, p, k) <==> Holds(m, p, k);
    assert forall c :: c in later.queued ==> c in m.queued;
    assert forall c :: c in later.wire ==> c in m.wire;
  }

  lemma BroadcastHomebound(m: Mesh, p: PeerId, db: Db, wire: WireEvent, k: EventKey)
    requires Homebound(m, k) && p in m.nodes && SequenceFits(wire.event)
    requires db.events == m.nodes[p].events[KeyOf(wire.event) := ToRow(wire.event)]
    requires KeyOf(wire.event) == k ==> p == k.author && !LiveFits(wire)
    ensures Homebound(Broadcast(WithDb(m, p, db), p, wire), k)
  {
    hide LiveFits;
    var later := Broadcast(WithDb(m, p, db), p, wire);
    BroadcastMembers(WithDb(m, p, db), p, wire);
    forall q | Holds(later, q, k)
      ensures q == k.author
    {
      assert Holds(m, q, k) || (q == p && k == KeyOf(wire.event));
    }
  }

  lemma SendHomebound(m: Mesh, identity: Identity, channel: ChannelId, payload: MessagePayload, nonce: Nonce, now: I64,
                      k: EventKey)
    requires Inv(m) && Homebound(m, k) && identity.peer in m.nodes
    requires NoneFits(Entering(m, DoSend(identity, channel, payload, nonce, now)), k)
    ensures Homebound(Send(m, identity, channel, payload, nonce, now), k)
  {
    hide Append, Homebound, LiveFits;
    match Append(m.nodes[identity.peer], identity, channel, payload, nonce, now)
    case Err(_) =>
    case Ok((db, event)) =>
      var w := WireEvent(event, identity.DisplayName());
      assert w in Entering(m, DoSend(identity, channel, payload, nonce, now));
      SendGains(m, identity, channel, payload, nonce, now, db, event);
      SentIsHeld(m, identity, channel, payload, nonce, now, db, event);
      hide Inv, Holds;
      BroadcastHomebound(m, identity.peer, db, w, k);
  }

  lemma ForwardHomebound(m: Mesh, c: Copy, k: EventKey)
    requires Homebound(m, k) && CanForward(m, c)
    ensures Homebound(Forward(m, c), k)
  {
    hide LiveFits, Passes;
    var later := Forward(m, c);
    assert forall p :: Holds(later, p, k) <==> Holds(m, p, k);
    assert forall d :: d in later.queued ==> d in m.queued;
    assert forall d :: d in later.wire ==> d in m.wire || (d == c && LiveFits(c.wire));
  }

  lemma ReceiveHomebound(m: Mesh, c: Copy, k: EventKey)
    requires Homebound(m, k) && CanReceive(m, c)
    ensures Homebound(Receive(m, c), k)
  {
    assert !IsOf(c.wire, k);
    hide InsertRemote, Homebound;
    var rest := m.(wire := m.wire - multiset{c});
    FewerStayHomebound(m, rest, k);
    FewerStayHomebound(m, Close(rest, c.link.session), k);
    match InsertRemote(m.nodes[c.link.dst], c.wire.event, c.wire.authorName)
    case Err(_) =>
    case Ok((db, added)) =>
      if added {
        NewMeansInserted(m.nodes[c.link.dst], c.wire.event, c.wire.authorName);
        BroadcastHomebound(rest, c.link.dst, db, c.wire, k);
      }
  }

  lemma MaintainHomebound(m: Mesh, p: PeerId, command: Runs.Command, k: EventKey)
    requires Inv(m) && Homebound(m, k) && p in m.nodes && Maintenance(command)
    ensures Homebound(WithDb(m, p, Runs.Apply(m.nodes[p], command)), k)
  {
    MaintainedEvents(m, p, command);
    hide Inv, Runs.Apply, LiveFits;
    var later := WithDb(m, p, Runs.Apply(m.nodes[p], command));
    assert forall q :: Holds(later, q, k) ==> Holds(m, q, k);
  }

  lemma StepHomebound(m: Mesh, action: Action, k: EventKey)
    requires Inv(m) && Homebound(m, k) && Enabled(m, action) && Unsynced(action)
    requires NoneFits(Entering(m, action), k)
    ensures Homebound(Step(m, action), k)
  {
    hide Inv, Homebound, NoneFits, Entering, Send, Receive, Forward, WithDb, CanReceive, CanForward;
    match action
    case DoSend(identity, channel, payload, nonce, now) =>
      SendHomebound(m, identity, channel, payload, nonce, now, k);
    case DoForward(c) => ForwardHomebound(m, c, k);
    case DoReceive(c) => ReceiveHomebound(m, c, k);
    case DoConnect(l) => FewerStayHomebound(m, m.(links := m.links + {l}), k);
    case DoClose(session) => FewerStayHomebound(m, Close(m, session), k);
    case DoMaintain(p, command) => MaintainHomebound(m, p, command, k);
  }

  lemma {:induction false} HomeboundRuns(m: Mesh, actions: seq<Action>, k: EventKey)
    requires Inv(m) && Homebound(m, k) && CanRun(m, actions) && NoSync(actions)
    requires NoneFits(Entered(m, actions), k)
    ensures Homebound(Run(m, actions), k)
    decreases |actions|
  {
    hide Inv, Homebound, Step, Enabled, Entering, Entered, LiveFits;
    if actions != [] {
      assert Unsynced(actions[0]);
      EnteredCons(m, actions);
      StepKeeps(m, actions[0]);
      StepHomebound(m, actions[0], k);
      HomeboundRuns(Step(m, actions[0]), actions[1..], k);
    }
  }

  /** What is appended in a run was held nowhere when it was, and is held from then on. */
  lemma {:induction false} EnteredIsNew(m: Mesh, actions: seq<Action>, w: WireEvent)
    requires Inv(m) && CanRun(m, actions) && w in Entered(m, actions)
    ensures SequenceFits(w.event) && !Holds(m, w.event.header.author, KeyOf(w.event))
    ensures Holds(Run(m, actions), w.event.header.author, KeyOf(w.event))
    decreases |actions|
  {
    hide Inv, Step, Enabled, Entering, EventsGrow, Holds;
    EnteredCons(m, actions);
    var later := Step(m, actions[0]);
    StepKeeps(m, actions[0]);
    if w in Entering(m, actions[0]) {
      EnteringIsNew(m, actions[0], w);
      RunGrows(later, actions[1..]);
      HoldsStays(later, Run(later, actions[1..]), w.event.header.author, KeyOf(w.event));
    } else {
      EnteredIsNew(later, actions[1..], w);
      if Holds(m, w.event.header.author, KeyOf(w.event)) {
        HoldsStays(m, later, w.event.header.author, KeyOf(w.event));
      }
    }
  }

  lemma EnteringIsNew(m: Mesh, action: Action, w: WireEvent)
    requires Inv(m) && Enabled(m, action) && w in Entering(m, action)
    ensures SequenceFits(w.event) && !Holds(m, w.event.header.author, KeyOf(w.event))
    ensures Holds(Step(m, action), w.event.header.author, KeyOf(w.event))
  {
    hide Inv, Append, Holds;
    match action
    case DoSend(identity, channel, payload, nonce, now) =>
      var (db, event) := Append(m.nodes[identity.peer], identity, channel, payload, nonce, now).value;
      SentIsHeld(m, identity, channel, payload, nonce, now, db, event);
  }

  lemma NotAgain(m: Mesh, actions: seq<Action>, k: EventKey)
    requires Inv(m) && CanRun(m, actions) && Holds(m, k.author, k)
    ensures forall w :: w in Entered(m, actions) ==> !IsOf(w, k)
  {
    hide Inv, Holds, Entered, Run, CanRun;
    forall w | w in Entered(m, actions)
      ensures !IsOf(w, k)
    {
      if IsOf(w, k) {
        EnteredIsNew(m, actions, w);
      }
    }
  }

  lemma EnteringIsHeld(m: Mesh, action: Action, w: WireEvent, k: EventKey)
    requires Inv(m) && Enabled(m, action) && w in Entering(m, action) && IsOf(w, k)
    ensures Holds(Step(m, action), k.author, k)
  {
    EnteringIsNew(m, action, w);
  }

  /** No key is appended twice. */
  lemma {:induction false} EnteredOnce(m: Mesh, actions: seq<Action>, v: WireEvent, w: WireEvent, k: EventKey)
    requires Inv(m) && CanRun(m, actions) && v in Entered(m, actions) && w in Entered(m, actions)
    requires IsOf(v, k) && IsOf(w, k)
    ensures v == w
    decreases |actions|
  {
    hide Inv, Step, Enabled, Entering, Holds, IsOf;
    EnteredCons(m, actions);
    EnteringOne(m, actions[0]);
    var later := Step(m, actions[0]);
    StepKeeps(m, actions[0]);
    if v in Entering(m, actions[0]) {
      EnteringIsHeld(m, actions[0], v, k);
      NotAgain(later, actions[1..], k);
    } else if w in Entering(m, actions[0]) {
      EnteringIsHeld(m, actions[0], w, k);
      NotAgain(later, actions[1..], k);
    } else {
      EnteredOnce(later, actions[1..], v, w, k);
    }
  }

  lemma EnteringOne(m: Mesh, action: Action)
    ensures forall v, w :: v in Entering(m, action) && w in Entering(m, action) ==> v == w
  {
    hide Append;
  }

  /** An event that its author comes to hold was appended. */
  lemma {:induction false} NewWasEntered(m: Mesh, actions: seq<Action>, k: EventKey)
    requires Inv(m) && CanRun(m, actions) && !Holds(m, k.author, k) && Holds(Run(m, actions), k.author, k)
    ensures exists w :: w in Entered(m, actions) && IsOf(w, k)
    decreases |actions|
  {
    hide Inv, Step, Enabled, Entering, Holds;
    if actions != [] {
      var later := Step(m, actions[0]);
      StepKeeps(m, actions[0]);
      EnteredCons(m, actions);
      if Holds(later, k.author, k) {
        NewAtHome(m, actions[0], k);
        var w :| w in Entering(m, actions[0]) && IsOf(w, k);
        assert w in Entered(m, actions);
      } else {
        NewWasEntered(later, actions[1..], k);
        var w :| w in Entered(later, actions[1..]) && IsOf(w, k);
        assert w in Entered(m, actions);
      }
    }
  }

  lemma NewAtHome(m: Mesh, action: Action, k: EventKey)
    requires Inv(m) && Enabled(m, action) && !Holds(m, k.author, k) && Holds(Step(m, action), k.author, k)
    ensures exists w :: w in Entering(m, action) && IsOf(w, k)
  {
    hide Inv, Append, InsertRemote, Runs.Apply, Entering, Goes, LiveFits;
    match action
    case DoSend(identity, channel, payload, nonce, now) =>
      SentAtHome(m, identity, channel, payload, nonce, now, k.author, k);
    case DoReceive(c) =>
      ReceivedFits(m, c, k.author, k);
      RecordIsStored(m, c);
    case DoSync(at, origin, event, name) =>
      StoredIsAtHome(m, origin, event);
      SyncedKey(m, at, origin, event, name, k.author, k);
    case DoMaintain(p, command) => MaintainedEvents(m, p, command);
    case DoForward(c) =>
    case DoConnect(l) =>
    case DoClose(session) =>
  }

  lemma SyncedKey(m: Mesh, at: PeerId, origin: PeerId, e: EventEnvelope, name: string, q: PeerId, k: EventKey)
    requires Inv(m) && at in m.nodes && origin in m.nodes && StoredEvent(m.nodes[origin].events, e)
    requires Holds(Sync(m, at, e, name), q, k) && !Holds(m, q, k)
    ensures KeyOf(e) == k
  {
    hide Inv, InsertRemote, ValidDb, OwnLog, AtHome, StoredEvent, AgreesWith;
    RemoteInsert(m, at, origin, e, name);
  }

  lemma TooLargeIsHomebound(start: Mesh, actions: seq<Action>, w: WireEvent, k: EventKey)
    requires Inv(start) && CanRun(start, actions) && NoSync(actions)
    requires w in Entered(start, actions) && IsOf(w, k) && !LiveFits(w)
    ensures Homebound(Run(start, actions), k)
  {
    hide Inv, CanRun, Run, Entered, LiveFits, Homebound;
    EnteredIsNew(start, actions, w);
    forall v | v in Entered(start, actions) && IsOf(v, k)
      ensures !LiveFits(v)
    {
      EnteredOnce(start, actions, v, w, k);
    }
    HomeboundAtStart(start, k);
    HomeboundRuns(start, actions, k);
  }

  /** An event that as appended is beyond the frame limit is held by its author alone,
      whatever appends, traffic, connections and closings follow. */
  lemma TooLargeStaysHome(start: Mesh, actions: seq<Action>, w: WireEvent, k: EventKey, q: PeerId)
    requires Inv(start) && CanRun(start, actions) && NoSync(actions)
    requires w in Entered(start, actions) && IsOf(w, k) && !LiveFits(w)
    ensures Holds(Run(start, actions), q, k) <==> q == k.author
  {
    TooLargeIsHomebound(start, actions, w, k);
    hide Inv, CanRun, Run, Entered, LiveFits, Holds;
    EnteredIsNew(start, actions, w);
  }

  lemma LiveIsUnsynced(actions: seq<Action>)
    requires OnlyLive(actions)
    ensures NoSync(actions)
  {
    forall i | 0 <= i < |actions|
      ensures Unsynced(actions[i])
    {
      assert LiveAction(actions[i]);
    }
  }

  /** And once at rest no session of the author that was to send it is left. */
  lemma TooLargeEndsSessions(start: Mesh, actions: seq<Action>, w: WireEvent, k: EventKey, l: Link)
    requires Inv(start) && CanRun(start, actions) && OnlyLive(actions) && Quiet(Run(start, actions))
    requires w in Entered(start, actions) && IsOf(w, k) && !LiveFits(w)
    requires l.src == k.author && Passes(Copy(l, w))
    ensures l !in Run(start, actions).links
  {
    hide Inv, CanRun, Run, Entered, LiveFits, Quiet, Holds, NoSync, OnlyLive;
    LiveIsUnsynced(actions);
    EnteredIsNew(start, actions, w);
    TooLargeStaysHome(start, actions, w, k, l.dst);
    if l in Run(start, actions).links {
      OneStep(start, Run(start, actions), l, k);
      FloodingDelivers(start, actions, [l], l.src, l.dst, k);
    }
  }

  lemma OneStep(start: Mesh, m: Mesh, l: Link, k: EventKey)
    requires l in m.links && k.group in l.groups && !Holds(start, l.src, k)
    ensures Reaches(start, m, [l], l.src, l.dst, k)
  {
    assert Reaches(start, m, [l][1..], l.dst, l.dst, k);
  }

  // ---------------------------------------------------------------- which sessions stand

  /** A session has ended, or is to send what no frame carries. */
  ghost predicate Doomed(links: set<Link>, m: Mesh) {
    && m.links <= links
    && (m.links != links || !QueueFits(m))
  }

  lemma ForwardDooms(links: set<Link>, m: Mesh, c: Copy)
    requires Doomed(links, m) && CanForward(m, c)
    ensures Doomed(links, Forward(m, c))
  {
    hide LiveFits, Passes;
    var later := Forward(m, c);
    if Passes(c) && !LiveFits(c.wire) {
      assert c.link in m.links && c.link !in later.links;
    } else if m.links == links {
      var d :| d in m.queued && d.link in m.links && Passes(d) && !LiveFits(d.wire);
      assert d != c;
      assert d in later.queued;
    }
  }

  lemma MoreDooms(links: set<Link>, m: Mesh, later: Mesh)
    requires Doomed(links, m) && later.links <= m.links && m.queued <= later.queued
    ensures Doomed(links, later)
  {
    hide LiveFits, Passes;
    if later.links == links && m.links == links {
      var d :| d in m.queued && d.link in m.links && Passes(d) && !LiveFits(d.wire);
      assert d in later.queued;
    }
  }

  lemma StepDooms(links: set<Link>, m: Mesh, action: Action)
    requires Doomed(links, m) && Enabled(m, action) && LiveAction(action)
    ensures Doomed(links, Step(m, action))
  {
    hide Doomed, Append, InsertRemote, Runs.Apply, Forward;
    match action
    case DoForward(c) => ForwardDooms(links, m, c);
    case DoSend(_, _, _, _, _) => MoreDooms(links, m, Step(m, action));
    case DoReceive(_) => MoreDooms(links, m, Step(m, action));
    case DoClose(_) => MoreDooms(links, m, Step(m, action));
    case DoMaintain(_, _) => MoreDooms(links, m, Step(m, action));
  }

  /** Appending an event that a session cannot send. */
  lemma SendDooms(links: set<Link>, m: Mesh, action: Action, w: WireEvent)
    requires Inv(m) && m.links <= links && Enabled(m, action) && w in Entering(m, action) && !Carried(links, w)
    ensures Doomed(links, Step(m, action))
  {
    hide Append, LiveFits, Passes, Holds;
    match action
    case DoSend(identity, channel, payload, nonce, now) =>
      var (db, event) := Append(m.nodes[identity.peer], identity, channel, payload, nonce, now).value;
      SentIsHeld(m, identity, channel, payload, nonce, now, db, event);
      hide Inv;
      var l :| l in links && l.src == w.event.header.author && Passes(Copy(l, w)) && !LiveFits(w);
      BroadcastMembers(WithDb(m, identity.peer, db), identity.peer, w);
      if l in m.links {
        assert Copy(l, w) in Copies(m.links, identity.peer, w);
        assert Copy(l, w) in Step(m, action).queued;
      }
  }

  lemma LinksOnlyFall(m: Mesh, action: Action)
    requires Enabled(m, action) && LiveAction(action)
    ensures Step(m, action).links <= m.links
  {
    hide Append, InsertRemote, Runs.Apply, Passes, LiveFits;
  }

  lemma {:induction false} DoomedRun(links: set<Link>, m: Mesh, actions: seq<Action>)
    requires Inv(m) && CanRun(m, actions) && OnlyLive(actions) && m.links <= links && Quiet(Run(m, actions))
    requires Doomed(links, m) || exists w :: w in Entered(m, actions) && !Carried(links, w)
    ensures Run(m, actions).links != links
    decreases |actions|
  {
    hide Inv, Step, Enabled, Entering, Carried;
    if actions == [] {
      hide Passes, LiveFits;
    } else {
      hide Doomed, Quiet;
      assert LiveAction(actions[0]);
      StepKeeps(m, actions[0]);
      LinksOnlyFall(m, actions[0]);
      if Doomed(links, m) {
        StepDooms(links, m, actions[0]);
      } else {
        EnteredCons(m, actions);
        var w :| w in Entered(m, actions) && !Carried(links, w);
        if w in Entering(m, actions[0]) {
          SendDooms(links, m, actions[0], w);
        }
      }
      DoomedRun(links, Step(m, actions[0]), actions[1..]);
    }
  }

  /** Exactly when the sessions stand: between nodes that welcome each other's events,
      traffic that has come to rest has left every session exactly when none was to
      send an event beyond the frame limit. */
  lemma SessionsStandExactly(start: Mesh, actions: seq<Action>)
    requires Inv(start) && Welcoming(start) && CanRun(start, actions) && OnlyTraffic(actions)
    requires Quiet(Run(start, actions))
    ensures Run(start, actions).links == start.links <==> AllCarried(start, actions)
  {
    TrafficIsLive(actions);
    hide Inv, Welcoming, CanRun, Run, Quiet, OnlyTraffic, OnlyLive, Entered, Carried, QueueFits;
    if AllCarried(start, actions) {
      SessionsStay(start, actions);
    } else {
      DoomedRun(start.links, start, actions);
    }
  }

  // ---------------------------------------------------------------- what a receipt does to sessions

  lemma ReceivedAgrees(m: Mesh, c: Copy)
    requires Inv(m) && CanReceive(m, c)
    ensures ValidDb(m.nodes[c.link.dst]) && Goes(c)
    ensures SequenceFits(c.wire.event) && c.wire.event.header.version == PROTOCOL_VERSION
    ensures AgreesWith(m.nodes[c.link.dst].events, c.wire.event)
  {
    assert CopyStored(m, c) && ValidDb(m.nodes[c.link.dst]);
    hide ValidDb, OwnLog, LinksJoinNodes, AgreesWith, InsertRemote;
    RecordIsStored(m, c);
    RowRoundTrip(c.wire.event);
    RemoteInsert(m, c.link.dst, c.link.src, c.wire.event, "");
  }

  /** A record that comes in ends its session exactly when the receiver blocks the author
      of the event, or has not the group with the key it was sealed with, or not its
      channel in that group; no other session ends. */
  lemma ReceiptClosesExactly(m: Mesh, c: Copy)
    requires Inv(m) && CanReceive(m, c)
    ensures var db, e := m.nodes[c.link.dst], c.wire.event;
            var later := Receive(m, c);
            && SequenceFits(e)
            && (c.link !in later.links <==> e.header.author in db.blocked || !RowBound(db, KeyOf(e), ToRow(e)))
            && (forall l :: l in m.links && l.session != c.link.session ==> l in later.links)
            && later.links <= m.links
  {
    hide Inv, InsertRemote, LiveFits, RowBound, ValidDb, Extends, AgreesWith;
    ReceivedAgrees(m, c);
    InsertRemoteExactly(m.nodes[c.link.dst], c.wire.event, c.wire.authorName);
  }
}
