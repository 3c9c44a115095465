/** When flooding has stopped it has delivered: what every step of a live mesh keeps
    about the neighbours of a node that took an event. */
module FloodDelivery {
  import Runs
  import opened Base
  import opened Model
  import opened Crypto
  import opened Tables
  import opened Transfer
  import opened Wire
  import opened Mesh
  import opened Flooding

  /** Everything but the synchronising part and the opening of a session. */
  predicate LiveAction(action: Action) {
    !action.DoSync? && !action.DoConnect?
  }

  ghost predicate Holds(m: Mesh, p: PeerId, k: EventKey) {
    p in m.nodes && k in m.nodes[p].events
  }

  ghost predicate IsCopyOf(c: Copy, l: Link, k: EventKey) {
    c.link == l && IsOf(c.wire, k)
  }

  ghost predicate Pending(m: Mesh, l: Link, k: EventKey) {
    exists c :: (c in m.queued || c in m.wire) && IsCopyOf(c, l, k)
  }

  ghost predicate Settled(m: Mesh, l: Link, k: EventKey) {
    Holds(m, l.dst, k) || Pending(m, l, k)
  }

  /** A node that took the event since `start`, by appending it or from a live
      session, owes it to every session that shares the group: the neighbour holds
      it, or a copy is on its way. */
  ghost predicate NeighboursServed(start: Mesh, m: Mesh, k: EventKey) {
    forall l :: l in m.links && k.group in l.groups && Holds(m, l.src, k) && !Holds(start, l.src, k) ==>
      Settled(m, l, k)
  }

  /** What a step must do to keep every neighbour served. */
  ghost predicate StepServes(m: Mesh, later: Mesh, k: EventKey) {
    && later.links <= m.links && EventsGrow(m, later)
    && (forall l :: l in later.links && k.group in l.groups && Pending(m, l, k) ==> Settled(later, l, k))
    && (forall l :: l in later.links && Holds(later, l.src, k) && !Holds(m, l.src, k) ==> Pending(later, l, k))
  }

  lemma ServingKeeps(start: Mesh, m: Mesh, later: Mesh, k: EventKey)
    requires NeighboursServed(start, m, k) && StepServes(m, later, k)
    ensures NeighboursServed(start, later, k)
  {
    hide Pending;
    forall l | l in later.links && k.group in l.groups && Holds(later, l.src, k) && !Holds(start, l.src, k)
      ensures Settled(later, l, k)
    {
      if Holds(m, l.src, k) {
        assert Settled(m, l, k);
        if Holds(m, l.dst, k) {
          HoldsStays(m, later, l.dst, k);
        }
      }
    }
  }

  lemma HoldsStays(m: Mesh, later: Mesh, p: PeerId, k: EventKey)
    requires Holds(m, p, k) && EventsGrow(m, later)
    ensures Holds(later, p, k)
  {
  }

  lemma MoreCopies(m: Mesh, later: Mesh, l: Link, k: EventKey)
    requires Pending(m, l, k)
    requires forall c :: c in m.queued ==> c in later.queued
    requires forall c :: c in m.wire ==> c in later.wire
    ensures Pending(later, l, k)
  {
    var c :| (c in m.queued || c in m.wire) && IsCopyOf(c, l, k);
  }

  /** A filtered copy is of a group that is not shared, or for the author itself. */
  lemma FilteredIsHeld(m: Mesh, c: Copy, k: EventKey)
    requires Inv(m) && c in m.queued && !Passes(c) && IsCopyOf(c, c.link, k) && k.group in c.link.groups
    ensures Holds(m, c.link.dst, k)
  {
    assert CopyStored(m, c);
    hide Inv;
    StoredIsAtHome(m, c.link.src, c.wire.event);
  }

  lemma ForwardServes(m: Mesh, c: Copy, k: EventKey)
    requires Inv(m) && CanForward(m, c)
    ensures StepServes(m, Forward(m, c), k)
  {
    hide Inv, EventsGrow, Passes, LiveFits;
    var later := Forward(m, c);
    SameGrowthOf(m, later);
    forall l | l in later.links && k.group in l.groups && Pending(m, l, k)
      ensures Settled(later, l, k)
    {
      var d :| (d in m.queued || d in m.wire) && IsCopyOf(d, l, k);
      if d != c || Goes(c) {
        ForwardKeepsCopy(m, c, d);
      } else {
        FilteredIsHeld(m, c, k);
      }
    }
  }

  lemma SameGrowthOf(m: Mesh, later: Mesh)
    requires later.nodes == m.nodes
    ensures EventsGrow(m, later)
  {
    GrowsItself(m);
  }

  lemma ForwardKeepsCopy(m: Mesh, c: Copy, d: Copy)
    requires CanForward(m, c) && (d in m.queued || d in m.wire) && (d != c || Goes(c))
    ensures d in Forward(m, c).queued || d in Forward(m, c).wire
  {
    hide Passes, LiveFits;
  }

  lemma SameStoresServe(m: Mesh, later: Mesh, k: EventKey)
    requires later.links <= m.links && EventsGrow(m, later)
    requires forall p :: p in m.nodes ==> later.nodes[p].events == m.nodes[p].events
    requires later.queued == m.queued && later.wire == m.wire
    ensures StepServes(m, later, k)
  {
    forall l | l in later.links && k.group in l.groups && Pending(m, l, k)
      ensures Settled(later, l, k)
    {
      MoreCopies(m, later, l, k);
    }
  }

  /** A node stores a new event and hands copies to its sessions; `taken` is the
      record that brought it, if any. */
  lemma BroadcastServes(m: Mesh, rest: Mesh, p: PeerId, db: Db, wire: WireEvent, k: EventKey)
    requires p in m.nodes && SequenceFits(wire.event) && rest.nodes == m.nodes && rest.links == m.links
    requires db.events == m.nodes[p].events[KeyOf(wire.event) := ToRow(wire.event)]
    requires EventsGrow(m, Broadcast(WithDb(rest, p, db), p, wire))
    requires rest.queued == m.queued
    requires forall c :: c in m.wire ==> c in rest.wire || (c.wire == wire && c.link.dst == p)
    ensures StepServes(m, Broadcast(WithDb(rest, p, db), p, wire), k)
  {
    var later := Broadcast(WithDb(rest, p, db), p, wire);
    hide EventsGrow;
    forall l | l in later.links && k.group in l.groups && Pending(m, l, k)
      ensures Settled(later, l, k)
    {
      var d :| (d in m.queued || d in m.wire) && IsCopyOf(d, l, k);
      if d in m.queued || d in rest.wire {
        assert d in later.queued || d in later.wire;
      }
    }
    forall l | l in later.links && Holds(later, l.src, k) && !Holds(m, l.src, k)
      ensures Pending(later, l, k)
    {
      assert l.src == p && k == KeyOf(wire.event);
      assert Copy(l, wire) in Copies(rest.links, p, wire);
      assert Copy(l, wire) in later.queued && IsCopyOf(Copy(l, wire), l, k);
    }
  }

  lemma SendServes(m: Mesh, identity: Identity, channel: ChannelId, payload: MessagePayload, nonce: Nonce, now: I64,
                   k: EventKey)
    requires Inv(m)
    ensures StepServes(m, Send(m, identity, channel, payload, nonce, now), k)
  {
    SendKeeps(m, identity, channel, payload, nonce, now);
    hide Append, ValidDb, EventsGrow;
    var p := identity.peer;
    if p !in m.nodes || Append(m.nodes[p], identity, channel, payload, nonce, now).Err? {
      SameStoresServe(m, m, k);
    } else {
      var (db, event) := Append(m.nodes[p], identity, channel, payload, nonce, now).value;
      SendGains(m, identity, channel, payload, nonce, now, db, event);
      hide Inv, StepServes;
      BroadcastServes(m, m, p, db, WireEvent(event, identity.DisplayName()), k);
    }
  }

  lemma DroppedServes(m: Mesh, c: Copy, later: Mesh, k: EventKey)
    requires c.link.dst in m.nodes && later.nodes == m.nodes && later.links <= m.links && later.queued == m.queued
    requires later.wire == m.wire - multiset{c}
    requires c.link !in later.links || (SequenceFits(c.wire.event) && KeyOf(c.wire.event) in m.nodes[c.link.dst].events)
    ensures StepServes(m, later, k)
  {
    SameGrowthOf(m, later);
    forall l | l in later.links && k.group in l.groups && Pending(m, l, k)
      ensures Settled(later, l, k)
    {
      var d :| (d in m.queued || d in m.wire) && IsCopyOf(d, l, k);
      if d != c {
        assert d in later.queued || d in later.wire;
      }
    }
  }

  lemma OldMeansHeld(db: Db, e: EventEnvelope, name: string)
    requires InsertRemote(db, e, name).Ok? && !InsertRemote(db, e, name).value.1
    ensures SequenceFits(e) && KeyOf(e) in db.events
  {
    hide ValidateAndOpenEvent;
  }

  lemma ReceiveServes(m: Mesh, c: Copy, k: EventKey)
    requires Inv(m) && CanReceive(m, c)
    ensures StepServes(m, Receive(m, c), k)
  {
    hide Inv, EventsGrow, InsertRemote, StepServes, Broadcast, Close;
    ReceiveKeeps(m, c);
    DropClosedServes(m, c, k);
    var q, e, name := c.link.dst, c.wire.event, c.wire.authorName;
    var rest := m.(wire := m.wire - multiset{c});
    match InsertRemote(m.nodes[q], e, name)
    case Err(_) =>
    case Ok((db, added)) =>
      if e.header.group in c.link.groups {
        if added {
          NewMeansInserted(m.nodes[q], e, name);
          BroadcastServes(m, rest, q, db, c.wire, k);
        } else {
          OldMeansHeld(m.nodes[q], e, name);
          DroppedServes(m, c, rest, k);
        }
      }
  }

  lemma DropClosedServes(m: Mesh, c: Copy, k: EventKey)
    requires CanReceive(m, c)
    ensures StepServes(m, Close(m.(wire := m.wire - multiset{c}), c.link.session), k)
  {
    hide StepServes;
    DroppedServes(m, c, Close(m.(wire := m.wire - multiset{c}), c.link.session), k);
  }

  lemma LiveStepServes(m: Mesh, action: Action, k: EventKey)
    requires Inv(m) && Enabled(m, action) && LiveAction(action)
    ensures StepServes(m, Step(m, action), k)
  {
    hide Inv, StepServes, EventsGrow, Send, Receive, Forward, Close, WithDb, CanReceive, CanForward;
    match action
    case DoSend(identity, channel, payload, nonce, now) => SendServes(m, identity, channel, payload, nonce, now, k);
    case DoForward(c) => ForwardServes(m, c, k);
    case DoReceive(c) => ReceiveServes(m, c, k);
    case DoClose(session) => CloseServes(m, session, k);
    case DoMaintain(p, command) => MaintainServes(m, p, command, k);
  }

  lemma CloseServes(m: Mesh, session: nat, k: EventKey)
    ensures StepServes(m, Close(m, session), k)
  {
    hide StepServes, EventsGrow;
    SameGrowthOf(m, Close(m, session));
    SameStoresServe(m, Close(m, session), k);
  }

  lemma MaintainServes(m: Mesh, p: PeerId, command: Runs.Command, k: EventKey)
    requires Inv(m) && p in m.nodes && Maintenance(command)
    ensures StepServes(m, WithDb(m, p, Runs.Apply(m.nodes[p], command)), k)
  {
    hide Inv, StepServes, EventsGrow, Runs.Apply;
    MaintainKeeps(m, p, command);
    MaintainedEvents(m, p, command);
    SameStoresServe(m, WithDb(m, p, Runs.Apply(m.nodes[p], command)), k);
  }

  lemma MaintainedEvents(m: Mesh, p: PeerId, command: Runs.Command)
    requires Inv(m) && p in m.nodes && Maintenance(command)
    ensures Runs.Apply(m.nodes[p], command).events == m.nodes[p].events
  {
    assert ValidDb(m.nodes[p]);
    MaintenanceKeepsEvents(m.nodes[p], command);
  }

  ghost predicate OnlyLive(actions: seq<Action>) {
    forall i :: 0 <= i < |actions| ==> LiveAction(actions[i])
  }

  lemma {:induction false} LiveRunServes(start: Mesh, m: Mesh, actions: seq<Action>, k: EventKey)
    requires Inv(m) && CanRun(m, actions) && OnlyLive(actions) && NeighboursServed(start, m, k)
    ensures NeighboursServed(start, Run(m, actions), k)
    decreases |actions|
  {
    hide Inv, NeighboursServed, Step, Enabled;
    if actions != [] {
      assert LiveAction(actions[0]);
      StepKeeps(m, actions[0]);
      LiveStepServes(m, actions[0], k);
      ServingKeeps(start, m, Step(m, actions[0]), k);
      LiveRunServes(start, Step(m, actions[0]), actions[1..], k);
    }
  }

  // ---------------------------------------------------------------- delivery

  /** Nothing is pending on any live session. */
  ghost predicate Quiet(m: Mesh) {
    forall c :: c in m.queued || c in m.wire ==> c.link !in m.links
  }

  /** A way from p to q over live sessions that share the group, through nodes that
      lacked the event at the start. */
  ghost predicate Reaches(start: Mesh, m: Mesh, path: seq<Link>, p: PeerId, q: PeerId, k: EventKey) {
    if path == [] then p == q
    else
      && path[0] in m.links && path[0].src == p && k.group in path[0].groups && !Holds(start, p, k)
      && Reaches(start, m, path[1..], path[0].dst, q, k)
  }

  lemma {:induction false} QuietMeansDelivered(start: Mesh, m: Mesh, path: seq<Link>, p: PeerId, q: PeerId, k: EventKey)
    requires NeighboursServed(start, m, k) && Quiet(m)
    requires Holds(m, p, k) && Reaches(start, m, path, p, q, k)
    ensures Holds(m, q, k)
    decreases |path|
  {
    if path != [] {
      assert Settled(m, path[0], k);
      QuietMeansDelivered(start, m, path[1..], path[0].dst, q, k);
    }
  }

  /** Flooding delivers: in any run of appends, live traffic and local maintenance,
      once nothing is pending, an event that a node appended or took from a live
      session since the start is held by every node that the sessions still standing
      connect to it through nodes that lacked the event at the start, and everywhere
      it is what its author's log says. */
  lemma FloodingDelivers(start: Mesh, actions: seq<Action>, path: seq<Link>, p: PeerId, q: PeerId, k: EventKey)
    requires Inv(start) && CanRun(start, actions) && OnlyLive(actions) && Quiet(Run(start, actions))
    requires Holds(Run(start, actions), p, k)
    requires Reaches(start, Run(start, actions), path, p, q, k)
    ensures var m := Run(start, actions);
            Holds(m, q, k) && AtHome(m, k, m.nodes[q].events[k])
  {
    hide Inv, Run, CanRun, Quiet, Holds, Reaches, OnlyLive;
    ServedAtStart(start, k);
    LiveRunServes(start, start, actions, k);
    RunKeepsMesh(start, actions);
    QuietMeansDelivered(start, Run(start, actions), path, p, q, k);
    HeldIsAtHome(Run(start, actions), q, k);
  }

  lemma ServedAtStart(start: Mesh, k: EventKey)
    ensures NeighboursServed(start, start, k)
  {
  }

  lemma HeldIsAtHome(m: Mesh, q: PeerId, k: EventKey)
    requires Inv(m) && Holds(m, q, k)
    ensures AtHome(m, k, m.nodes[q].events[k])
  {
    assert AtHome(m, k, m.nodes[q].events[k]);
  }

  // ---------------------------------------------------------------- no session ends

  predicate Traffic(action: Action) {
    action.DoSend? || action.DoForward? || action.DoReceive?
  }

  ghost predicate OnlyTraffic(actions: seq<Action>) {
    forall i :: 0 <= i < |actions| ==> Traffic(actions[i])
  }

  /** The event that an append hands to the sessions of the node. */
  ghost function Entering(m: Mesh, action: Action): seq<WireEvent> {
    match action
    case DoSend(identity, channel, payload, nonce, now) =>
      if identity.peer !in m.nodes then []
      else
        (match Append(m.nodes[identity.peer], identity, channel, payload, nonce, now)
         case Err(_) => []
         case Ok((_, event)) => [WireEvent(event, identity.DisplayName())])
    case _ => []
  }

  /** All that is appended in a run, as it is handed to the sessions. */
  ghost function Entered(m: Mesh, actions: seq<Action>): seq<WireEvent>
    requires CanRun(m, actions)
    decreases |actions|
  {
    if actions == [] then []
    else Entering(m, actions[0]) + Entered(Step(m, actions[0]), actions[1..])
  }

  /** The event fits a frame, or no session of its author is to send it. */
  ghost predicate Carried(links: set<Link>, wire: WireEvent) {
    forall l :: l in links && l.src == wire.event.header.author && Passes(Copy(l, wire)) ==> LiveFits(wire)
  }

  ghost predicate QueueFits(m: Mesh) {
    forall c :: c in m.queued && c.link in m.links && Passes(c) ==> LiveFits(c.wire)
  }

  /** No session of the start is to send an event beyond the frame limit. */
  ghost predicate AllCarried(m: Mesh, actions: seq<Action>)
    requires CanRun(m, actions)
  {
    QueueFits(m) && forall w :: w in Entered(m, actions) ==> Carried(m.links, w)
  }

  /** The receiver has the groups of the session with the secrets of the sender, and
      knows the sender's channels of those groups. */
  ghost predicate Welcomes(src: Db, dst: Db, groups: set<GroupId>) {
    && (forall g :: g in groups && g in src.groups ==> g in dst.groups && dst.groups[g].secret == src.groups[g].secret)
    && (forall c :: c in src.channels && src.channels[c].group in groups ==>
          c in dst.channels && dst.channels[c].group == src.channels[c].group)
  }

  /** Every session is between nodes that welcome each other's events, and no node
      blocks another. */
  ghost predicate Welcoming(m: Mesh) {
    && (forall l :: l in m.links && l.src in m.nodes && l.dst in m.nodes ==>
          Welcomes(m.nodes[l.src], m.nodes[l.dst], l.groups))
    && (forall p, q :: p in m.nodes && q in m.nodes ==> q !in m.nodes[p].blocked)
  }

  ghost predicate SameSettings(m: Mesh, later: Mesh) {
    && later.links == m.links && later.nodes.Keys == m.nodes.Keys
    && forall p :: p in m.nodes ==>
         && later.nodes[p].groups == m.nodes[p].groups && later.nodes[p].channels == m.nodes[p].channels
         && later.nodes[p].blocked == m.nodes[p].blocked
  }

  lemma SettingsStay(m: Mesh, later: Mesh)
    requires Welcoming(m) && SameSettings(m, later)
    ensures Welcoming(later)
  {
  }

  lemma WelcomeBinds(src: Db, dst: Db, groups: set<GroupId>, e: EventEnvelope)
    requires Welcomes(src, dst, groups) && ValidDb(src) && StoredEvent(src.events, e) && e.header.group in groups
    ensures RowBound(dst, KeyOf(e), ToRow(e)) && e.header.version == PROTOCOL_VERSION
  {
    assert RowBound(src, KeyOf(e), src.events[KeyOf(e)]);
    RowRoundTrip(e);
  }

  lemma ReceiveAccepted(m: Mesh, c: Copy)
    requires Inv(m) && Welcoming(m) && CanReceive(m, c)
    ensures Passes(c) && InsertRemote(m.nodes[c.link.dst], c.wire.event, c.wire.authorName).Ok?
  {
    var src, dst, e := c.link.src, c.link.dst, c.wire.event;
    assert CopyStored(m, c);
    assert ValidDb(m.nodes[src]) && ValidDb(m.nodes[dst]);
    assert Welcomes(m.nodes[src], m.nodes[dst], c.link.groups);
    StoredIsAtHome(m, src, e);
    assert e.header.author in m.nodes && e.header.author !in m.nodes[dst].blocked;
    assert Passes(c);
    RemoteInsert(m, dst, src, e, c.wire.authorName);
    hide Inv, Welcoming, Welcomes, ValidDb, StoredEvent, Extends, InsertRemote, RowBound;
    WelcomeBinds(m.nodes[src], m.nodes[dst], c.link.groups, e);
    InsertRemoteExactly(m.nodes[dst], e, c.wire.authorName);
  }

  lemma InsertKeepsSettings(db: Db, e: EventEnvelope, name: string)
    requires InsertRemote(db, e, name).Ok?
    ensures var later := InsertRemote(db, e, name).value.0;
            later.groups == db.groups && later.channels == db.channels && later.blocked == db.blocked
  {
    hide ValidateAndOpenEvent;
  }

  ghost predicate SameSetting(db: Db, later: Db) {
    later.groups == db.groups && later.channels == db.channels && later.blocked == db.blocked
  }

  lemma SettingsWithDb(m: Mesh, later: Mesh, p: PeerId, db: Db)
    requires p in m.nodes && SameSetting(m.nodes[p], db) && later.links == m.links && later.nodes == m.nodes[p := db]
    ensures SameSettings(m, later)
  {
  }

  lemma SendSettings(m: Mesh, identity: Identity, channel: ChannelId, payload: MessagePayload, nonce: Nonce, now: I64)
    requires identity.peer in m.nodes
    ensures SameSettings(m, Send(m, identity, channel, payload, nonce, now))
  {
    hide Append, SameSettings;
    AppendKeepsSettings(m.nodes[identity.peer], identity, channel, payload, nonce, now);
    match Append(m.nodes[identity.peer], identity, channel, payload, nonce, now)
    case Err(_) => SettingsItself(m, m);
    case Ok((db, event)) => SettingsWithDb(m, Send(m, identity, channel, payload, nonce, now), identity.peer, db);
  }

  lemma SettingsItself(m: Mesh, later: Mesh)
    requires later.links == m.links && later.nodes == m.nodes
    ensures SameSettings(m, later)
  {
  }

  lemma ReceiveSettings(m: Mesh, c: Copy)
    requires Inv(m) && Welcoming(m) && CanReceive(m, c)
    ensures SameSettings(m, Receive(m, c))
  {
    hide Inv, Welcoming, InsertRemote, SameSettings;
    ReceiveAccepted(m, c);
    InsertKeepsSettings(m.nodes[c.link.dst], c.wire.event, c.wire.authorName);
    match InsertRemote(m.nodes[c.link.dst], c.wire.event, c.wire.authorName)
    case Ok((db, added)) =>
      if added {
        SettingsWithDb(m, Receive(m, c), c.link.dst, db);
      } else {
        SettingsItself(m, Receive(m, c));
      }
  }

  lemma SentIsHeld(m: Mesh, identity: Identity, channel: ChannelId, payload: MessagePayload, nonce: Nonce, now: I64,
                   db: Db, event: EventEnvelope)
    requires Inv(m) && identity.peer in m.nodes
    requires Append(m.nodes[identity.peer], identity, channel, payload, nonce, now) == Ok((db, event))
    ensures SequenceFits(event) && event.header.author == identity.peer && FromHome(m)
    ensures !Holds(m, identity.peer, KeyOf(event))
    ensures Holds(Send(m, identity, channel, payload, nonce, now), identity.peer, KeyOf(event))
  {
    AppendExactly(m.nodes[identity.peer], identity, channel, payload, nonce, now, db, event);
    hide Append, ValidDb;
    SendGains(m, identity, channel, payload, nonce, now, db, event);
  }

  lemma SendQueue(m: Mesh, identity: Identity, channel: ChannelId, payload: MessagePayload, nonce: Nonce, now: I64)
    requires Inv(m) && QueueFits(m) && identity.peer in m.nodes
    requires forall w :: w in Entering(m, DoSend(identity, channel, payload, nonce, now)) ==> Carried(m.links, w)
    ensures QueueFits(Send(m, identity, channel, payload, nonce, now))
  {
    hide Append, Passes, LiveFits;
    match Append(m.nodes[identity.peer], identity, channel, payload, nonce, now)
    case Err(_) =>
    case Ok((db, event)) =>
      SentIsHeld(m, identity, channel, payload, nonce, now, db, event);
      hide Inv, Holds;
      var wire := WireEvent(event, identity.DisplayName());
      assert wire in Entering(m, DoSend(identity, channel, payload, nonce, now));
      BroadcastMembers(WithDb(m, identity.peer, db), identity.peer, wire);
  }

  /** With all of the queue within the limit, forwarding closes nothing. */
  lemma ForwardQueue(m: Mesh, c: Copy)
    requires QueueFits(m) && CanForward(m, c)
    ensures SameSettings(m, Forward(m, c)) && QueueFits(Forward(m, c))
  {
    hide Passes, LiveFits, SameSettings;
    SettingsItself(m, Forward(m, c));
  }

  lemma BroadcastQueue(m: Mesh, p: PeerId, wire: WireEvent)
    requires QueueFits(m) && LiveFits(wire)
    ensures QueueFits(Broadcast(m, p, wire))
  {
    hide Passes, LiveFits;
    BroadcastMembers(m, p, wire);
  }

  lemma FewerFit(m: Mesh, later: Mesh)
    requires QueueFits(m) && later.links <= m.links && later.queued == m.queued
    ensures QueueFits(later)
  {
  }

  lemma RecordGoes(m: Mesh, c: Copy)
    requires Inv(m) && c in m.wire
    ensures Goes(c)
  {
    hide ValidNodes, FromHome, LinksJoinNodes, CopyStored;
  }

  lemma ReceiveQueue(m: Mesh, c: Copy)
    requires Inv(m) && QueueFits(m) && CanReceive(m, c)
    ensures QueueFits(Receive(m, c))
  {
    hide Inv, Passes, LiveFits, InsertRemote, QueueFits, Broadcast;
    RecordGoes(m, c);
    var rest := m.(wire := m.wire - multiset{c});
    FewerFit(m, rest);
    FewerFit(m, Close(rest, c.link.session));
    match InsertRemote(m.nodes[c.link.dst], c.wire.event, c.wire.authorName)
    case Err(_) =>
    case Ok((db, added)) =>
      FewerFit(m, WithDb(rest, c.link.dst, db));
      BroadcastQueue(WithDb(rest, c.link.dst, db), c.link.dst, c.wire);
  }

  lemma TrafficStep(m: Mesh, action: Action)
    requires Inv(m) && Welcoming(m) && QueueFits(m) && Enabled(m, action) && Traffic(action)
    requires forall w :: w in Entering(m, action) ==> Carried(m.links, w)
    ensures SameSettings(m, Step(m, action)) && QueueFits(Step(m, action))
  {
    hide Inv, Welcoming, SameSettings, Send, Receive, Forward, CanReceive, CanForward, QueueFits, Carried, Append;
    match action
    case DoSend(identity, channel, payload, nonce, now) =>
      SendSettings(m, identity, channel, payload, nonce, now);
      SendQueue(m, identity, channel, payload, nonce, now);
    case DoForward(c) => ForwardQueue(m, c);
    case DoReceive(c) =>
      ReceiveSettings(m, c);
      ReceiveQueue(m, c);
  }

  lemma AppendKeepsSettings(db: Db, identity: Identity, channel: ChannelId, payload: MessagePayload, nonce: Nonce,
                            now: I64)
    ensures Append(db, identity, channel, payload, nonce, now).Ok? ==>
              var later := Append(db, identity, channel, payload, nonce, now).value.0;
              later.groups == db.groups && later.channels == db.channels && later.blocked == db.blocked
  {
    hide SealEvent;
  }

  lemma EnteredCons(m: Mesh, actions: seq<Action>)
    requires CanRun(m, actions) && actions != []
    ensures forall w :: w in Entered(m, actions) <==>
              w in Entering(m, actions[0]) || w in Entered(Step(m, actions[0]), actions[1..])
  {
    hide Step, Enabled, Entering;
  }

  /** Between nodes that welcome each other's events no session ever ends, as long as
      none is to send an event beyond the frame limit. */
  lemma {:induction false} SessionsStay(m: Mesh, actions: seq<Action>)
    requires Inv(m) && Welcoming(m) && CanRun(m, actions) && OnlyTraffic(actions) && AllCarried(m, actions)
    ensures Run(m, actions).links == m.links
    decreases |actions|
  {
    hide Inv, Welcoming, Step, Enabled, Entering, Entered, Carried, QueueFits;
    if actions != [] {
      assert Traffic(actions[0]);
      EnteredCons(m, actions);
      StepKeeps(m, actions[0]);
      TrafficStep(m, actions[0]);
      SettingsStay(m, Step(m, actions[0]));
      SessionsStay(Step(m, actions[0]), actions[1..]);
    }
  }

  lemma {:induction false} ReachesBy(start: Mesh, m: Mesh, later: Mesh, path: seq<Link>, p: PeerId, q: PeerId,
                                     k: EventKey)
    requires Reaches(start, m, path, p, q, k) && later.links == m.links
    ensures Reaches(start, later, path, p, q, k)
  {
    if path != [] {
      ReachesBy(start, m, later, path[1..], path[0].dst, q, k);
    }
  }

  /** Over the sessions that stood at the start, when none is to send an event beyond
      the frame limit: once at rest, an event that a node holds is held by every node
      that a path of these sessions connects to it, through nodes that lacked the event
      at the start. */
  lemma FloodingReachesAll(start: Mesh, actions: seq<Action>, path: seq<Link>, p: PeerId, q: PeerId, k: EventKey)
    requires Inv(start) && Welcoming(start) && CanRun(start, actions) && OnlyTraffic(actions)
    requires AllCarried(start, actions) && Quiet(Run(start, actions)) && Holds(Run(start, actions), p, k)
    requires Reaches(start, start, path, p, q, k)
    ensures var m := Run(start, actions);
            Holds(m, q, k) && AtHome(m, k, m.nodes[q].events[k])
  {
    hide Inv, Welcoming, Run, CanRun, Quiet, Holds, Reaches, AllCarried;
    SessionsStay(start, actions);
    ReachesBy(start, start, Run(start, actions), path, p, q, k);
    TrafficIsLive(actions);
    FloodingDelivers(start, actions, path, p, q, k);
  }

  lemma TrafficIsLive(actions: seq<Action>)
    requires OnlyTraffic(actions)
    ensures OnlyLive(actions)
  {
    forall i | 0 <= i < |actions|
      ensures LiveAction(actions[i])
    {
      assert Traffic(actions[i]);
    }
  }

  lemma NotQuietCanStep(m: Mesh)
    requires LinksJoinNodes(m)
    ensures Quiet(m) <==> forall action :: Floods(action) ==> !Enabled(m, action)
  {
    forall c | (c in m.queued || c in m.wire) && c.link in m.links
      ensures Enabled(m, DoForward(c)) || Enabled(m, DoReceive(c))
    {
    }
  }

  lemma RunCons(m: Mesh, action: Action, rest: seq<Action>)
    requires Enabled(m, action) && CanRun(Step(m, action), rest)
    ensures CanRun(m, [action] + rest) && Run(m, [action] + rest) == Run(Step(m, action), rest)
  {
    hide Enabled, Step;
    assert ([action] + rest)[1..] == rest;
  }

  lemma InvJoins(m: Mesh)
    requires Inv(m)
    ensures LinksJoinNodes(m)
  {
  }

  /** Traffic alone brings any mesh to rest. */
  lemma {:induction false} Drain(m: Mesh, keys: set<EventKey>, links: nat) returns (actions: seq<Action>)
    requires Inv(m) && Covered(m, keys, links)
    ensures CanRun(m, actions) && OnlyFloods(actions) && Quiet(Run(m, actions))
    decreases Potential(m, keys, links)
  {
    hide Inv, Covered, Potential, Enabled, Step, Quiet, LinksJoinNodes;
    InvJoins(m);
    NotQuietCanStep(m);
    if Quiet(m) {
      actions := [];
    } else {
      var action :| Floods(action) && Enabled(m, action);
      StepKeeps(m, action);
      FloodStepFalls(m, action, keys, links);
      var rest := Drain(Step(m, action), keys, links);
      RunCons(m, action, rest);
      actions := [action] + rest;
    }
  }

  lemma {:induction false} RunHolds(m: Mesh, actions: seq<Action>, p: PeerId, k: EventKey)
    requires Inv(m) && CanRun(m, actions) && Holds(m, p, k)
    ensures Holds(Run(m, actions), p, k)
    decreases |actions|
  {
    hide Inv, Step, Enabled, Holds;
    if actions != [] {
      StepKeeps(m, actions[0]);
      HoldsStays(m, Step(m, actions[0]), p, k);
      RunHolds(Step(m, actions[0]), actions[1..], p, k);
    }
  }

  lemma FloodsAreTraffic(send: Action, actions: seq<Action>)
    requires send.DoSend? && OnlyFloods(actions)
    ensures OnlyTraffic([send] + actions)
  {
    forall i | 0 <= i < |actions|
      ensures Traffic(actions[i])
    {
      assert Floods(actions[i]);
    }
  }

  /** A way from p to q over standing sessions that share the group. */
  ghost predicate Connects(m: Mesh, path: seq<Link>, p: PeerId, q: PeerId, group: GroupId) {
    if path == [] then p == q
    else
      && path[0] in m.links && path[0].src == p && group in path[0].groups
      && Connects(m, path[1..], path[0].dst, q, group)
  }

  /** An event that its author does not hold is held nowhere. */
  lemma {:induction false} NewToAll(start: Mesh, m: Mesh, path: seq<Link>, p: PeerId, q: PeerId, k: EventKey)
    requires FromHome(start) && !Holds(start, k.author, k) && Connects(m, path, p, q, k.group)
    ensures Reaches(start, m, path, p, q, k)
  {
    assert Holds(start, p, k) ==> AtHome(start, k, start.nodes[p].events[k]);
    if path != [] {
      NewToAll(start, m, path[1..], path[0].dst, q, k);
    }
  }

  lemma CoveredByItself(m: Mesh)
    ensures Covered(m, KeysOf(m.queued) + KeysOf(m.wire), |m.links|)
  {
  }
}
