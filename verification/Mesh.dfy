/** Any number of nodes with live sessions between them: local appends and the
    flooding of new events (src/node.rs, send; src/network.rs, the live loop). */
module Mesh {
  import Text
  import opened Base
  import opened Model
  import opened Crypto
  import opened Tables
  import opened Runs
  import opened Transfer
  import opened Wire

  /** One direction of a live session: `src` sends to `dst` events of `groups`. */
  datatype Link = Link(session: nat, src: PeerId, dst: PeerId, groups: set<GroupId>)

  datatype Copy = Copy(link: Link, wire: WireEvent)

  /** A node is named by its identity, so each identity appends at one store.
      `queued` holds broadcasts that a session has not looked at, `wire` records
      sent and not yet read; taking them in any order includes first-in-first-out. */
  datatype Mesh = Mesh(nodes: map<PeerId, Db>, links: set<Link>, queued: multiset<Copy>, wire: multiset<Copy>)

  datatype Action =
    | DoSend(identity: Identity, channel: ChannelId, payload: MessagePayload, nonce: Nonce, now: I64)
    | DoForward(copy: Copy)
    | DoReceive(copy: Copy)
    | DoSync(at: PeerId, origin: PeerId, event: EventEnvelope, name: string)
    | DoConnect(link: Link)
    | DoClose(session: nat)
    | DoMaintain(node: PeerId, command: Command)

  function WithDb(m: Mesh, p: PeerId, db: Db): Mesh {
    m.(nodes := m.nodes[p := db])
  }

  function Copies(links: set<Link>, p: PeerId, wire: WireEvent): set<Copy> {
    set l | l in links && l.src == p :: Copy(l, wire)
  }

  /** Every session of the node gets a copy. */
  function Broadcast(m: Mesh, p: PeerId, wire: WireEvent): Mesh {
    m.(queued := m.queued + multiset(Copies(m.links, p, wire)))
  }

  function Close(m: Mesh, session: nat): Mesh {
    m.(links := set l | l in m.links && l.session != session)
  }

  function Send(m: Mesh, identity: Identity, channel: ChannelId, payload: MessagePayload, nonce: Nonce,
                now: I64): Mesh {
    if identity.peer !in m.nodes then m
    else
      match Append(m.nodes[identity.peer], identity, channel, payload, nonce, now)
      case Err(_) => m
      case Ok((db, event)) =>
        Broadcast(WithDb(m, identity.peer, db), identity.peer, WireEvent(event, identity.DisplayName()))
  }

  /** A session passes a broadcast on unless the group is not shared or the remote
      peer is the author. */
  predicate Passes(c: Copy) {
    c.wire.event.header.group in c.link.groups && c.wire.event.header.author != c.link.dst
  }

  /** Passed on, and within the frame limit. */
  predicate Goes(c: Copy) {
    Passes(c) && LiveFits(c.wire)
  }

  predicate CanForward(m: Mesh, c: Copy) {
    c.link in m.links && c in m.queued
  }

  /** A record beyond the frame limit cannot be sent, which ends the session. */
  function Forward(m: Mesh, c: Copy): Mesh {
    var rest := m.(queued := m.queued - multiset{c});
    if !Passes(c) then rest
    else if LiveFits(c.wire) then rest.(wire := m.wire + multiset{c})
    else Close(rest, c.link.session)
  }

  predicate CanReceive(m: Mesh, c: Copy) {
    c.link in m.links && c in m.wire && c.link.dst in m.nodes
  }

  /** Only a first insertion is broadcast again; a refusal ends the session. */
  function Receive(m: Mesh, c: Copy): Mesh
    requires CanReceive(m, c)
  {
    var rest := m.(wire := m.wire - multiset{c});
    if c.wire.event.header.group !in c.link.groups then Close(rest, c.link.session)
    else
      match InsertRemote(m.nodes[c.link.dst], c.wire.event, c.wire.authorName)
      case Err(_) => Close(rest, c.link.session)
      case Ok((db, added)) =>
        if added then Broadcast(WithDb(rest, c.link.dst, db), c.link.dst, c.wire) else rest
  }

  /** One event taken in the synchronising part of a session: stored, never
      broadcast. What the sender sends there is in its store and fits a frame. */
  function Sync(m: Mesh, at: PeerId, event: EventEnvelope, name: string): Mesh
    requires at in m.nodes
  {
    match InsertRemote(m.nodes[at], event, name)
    case Err(_) => m
    case Ok((db, _)) => WithDb(m, at, db)
  }

  predicate Maintenance(command: Command) {
    !command.DoAppend? && !command.DoInsertRemote?
  }

  ghost predicate Enabled(m: Mesh, action: Action) {
    match action
    case DoSend(identity, _, _, _, _) => identity.peer in m.nodes
    case DoForward(c) => CanForward(m, c)
    case DoReceive(c) => CanReceive(m, c)
    case DoSync(at, origin, event, name) =>
           && at in m.nodes && origin in m.nodes && StoredEvent(m.nodes[origin].events, event)
           && BatchLen([WireEvent(event, name)]) <= MAX_FRAME_BYTES
    case DoConnect(l) => l.src in m.nodes && l.dst in m.nodes
    case DoClose(_) => true
    case DoMaintain(p, command) => p in m.nodes && Maintenance(command)
  }

  ghost function Step(m: Mesh, action: Action): Mesh
    requires Enabled(m, action)
  {
    match action
    case DoSend(identity, channel, payload, nonce, now) => Send(m, identity, channel, payload, nonce, now)
    case DoForward(c) => Forward(m, c)
    case DoReceive(c) => Receive(m, c)
    case DoSync(at, _, event, name) => Sync(m, at, event, name)
    case DoConnect(l) => m.(links := m.links + {l})
    case DoClose(session) => Close(m, session)
    case DoMaintain(p, command) => WithDb(m, p, Apply(m.nodes[p], command))
  }

  ghost predicate CanRun(m: Mesh, actions: seq<Action>)
    decreases |actions|
  {
    actions == [] || (Enabled(m, actions[0]) && CanRun(Step(m, actions[0]), actions[1..]))
  }

  ghost function Run(m: Mesh, actions: seq<Action>): Mesh
    requires CanRun(m, actions)
    decreases |actions|
  {
    if actions == [] then m else Run(Step(m, actions[0]), actions[1..])
  }

  /** Appending at a node queues the new event once on every link that leaves the node,
      under the name its author gives itself, and nothing else is queued or on its way;
      a refused append changes nothing. */
  lemma SendExactly(m: Mesh, identity: Identity, channel: ChannelId, payload: MessagePayload, nonce: Nonce, now: I64,
                    c: Copy)
    requires identity.peer in m.nodes
    ensures var p := identity.peer;
            var r, later := Append(m.nodes[p], identity, channel, payload, nonce, now),
                            Send(m, identity, channel, payload, nonce, now);
            if r.Err? then later == m
            else
              var wire := WireEvent(r.value.1, Text.CleanLabel(identity.requestedName, "New peer", 48));
              && later == m.(nodes := m.nodes[p := r.value.0], queued := later.queued)
              && later.queued[c] == m.queued[c] + if c.link in m.links && c.link.src == p && c.wire == wire then 1
                   else 0
  {
    hide Append, Text.CleanLabel;
  }

  /** What becomes of a record taken from the link: the session ends when the event is of
      another group or refused; a new event is stored and queued once on every link that
      leaves the node; one that is held already goes no further. */
  lemma ReceiveExactly(m: Mesh, c: Copy, d: Copy)
    requires CanReceive(m, c)
    ensures var q, e := c.link.dst, c.wire.event;
            var r, later := InsertRemote(m.nodes[q], e, c.wire.authorName), Receive(m, c);
            && later.wire == m.wire - multiset{c}
            && (if e.header.group !in c.link.groups || r.Err?
                then later.nodes == m.nodes && later.queued == m.queued
                     && (forall l :: l in later.links <==> l in m.links && l.session != c.link.session)
                else
                  && later.links == m.links
                  && later.nodes == (if r.value.1 then m.nodes[q := r.value.0] else m.nodes)
                  && later.queued[d] == m.queued[d] +
                       if r.value.1 && d.link in m.links && d.link.src == q && d.wire == c.wire then 1 else 0)
  {
    hide InsertRemote;
  }

  /** What becomes of a broadcast that a session looks at: it is dropped when the group is
      not shared or the remote peer is the author; else it is sent, or, beyond the frame
      limit, ends the session. */
  lemma ForwardExactly(m: Mesh, c: Copy)
    requires CanForward(m, c)
    ensures var later, h := Forward(m, c), c.wire.event.header;
            && later.nodes == m.nodes && later.queued == m.queued - multiset{c}
            && (if h.group !in c.link.groups || h.author == c.link.dst
                then later.wire == m.wire && later.links == m.links
                else if 1 + WireEventLen(c.wire) <= 16_777_216
                then later.wire == m.wire + multiset{c} && later.links == m.links
                else later.wire == m.wire && forall l :: l in later.links <==>
                  l in m.links && l.session != c.link.session)
  {
    hide WireEventLen;
  }

  // ---------------------------------------------------------------- no equivocation

  /** The author's own log has no gap. */
  ghost predicate OwnLog(events: Events, author: PeerId) {
    forall g, n :: Held(events, g, author, n) && n > 1 ==> Held(events, g, author, n - 1)
  }

  ghost predicate ValidNodes(m: Mesh) {
    forall p :: p in m.nodes ==> ValidDb(m.nodes[p]) && OwnLog(m.nodes[p].events, p)
  }

  /** Every event stored anywhere is an entry of its author's own log. */
  ghost predicate FromHome(m: Mesh) {
    forall p, k :: p in m.nodes && k in m.nodes[p].events ==> AtHome(m, k, m.nodes[p].events[k])
  }

  ghost predicate AtHome(m: Mesh, k: EventKey, row: EventRow) {
    k.author in m.nodes && k in m.nodes[k.author].events && m.nodes[k.author].events[k] == row
  }

  ghost predicate CopyStored(m: Mesh, c: Copy) {
    c.link.src in m.nodes && StoredEvent(m.nodes[c.link.src].events, c.wire.event)
  }

  /** Every event in flight is stored at the node it was sent from, and every record
      sent had to go and could. */
  ghost predicate CopiesStored(m: Mesh) {
    && (forall c :: c in m.queued ==> CopyStored(m, c))
    && (forall c :: c in m.wire ==> CopyStored(m, c) && Goes(c))
  }

  ghost predicate LinksJoinNodes(m: Mesh) {
    forall l :: l in m.links ==> l.src in m.nodes && l.dst in m.nodes
  }

  ghost predicate Inv(m: Mesh) {
    ValidNodes(m) && FromHome(m) && CopiesStored(m) && LinksJoinNodes(m)
  }

  /** Nodes without events, and nothing in flight. */
  ghost predicate Start(m: Mesh) {
    && (forall p :: p in m.nodes ==> ValidDb(m.nodes[p]) && m.nodes[p].events == map[])
    && m.links == {} && m.queued == multiset{} && m.wire == multiset{}
  }

  lemma StartInv(m: Mesh)
    requires Start(m)
    ensures Inv(m)
  {
    assert forall g, p, n :: p in m.nodes ==> !Held(m.nodes[p].events, g, p, n);
  }

  ghost predicate Kept(events: Events, later: Events) {
    forall k :: k in events ==> k in later && later[k] == events[k]
  }

  ghost predicate EventsGrow(m: Mesh, later: Mesh) {
    && m.nodes.Keys == later.nodes.Keys
    && forall p :: p in m.nodes ==> Kept(m.nodes[p].events, later.nodes[p].events)
  }

  lemma HomeStays(m: Mesh, later: Mesh, k: EventKey, row: EventRow)
    requires AtHome(m, k, row) && EventsGrow(m, later)
    ensures AtHome(later, k, row)
  {
  }

  /** Every new event of the store is, or becomes, an entry of its author's log. */
  ghost predicate NewFromHome(m: Mesh, p: PeerId, events: Events)
    requires p in m.nodes
  {
    forall k :: k in events && k !in m.nodes[p].events ==> k.author == p || AtHome(m, k, events[k])
  }

  /** One node gets a new store. */
  lemma NodeChanges(m: Mesh, p: PeerId, db: Db, later: Mesh)
    requires Inv(m) && p in m.nodes && later.nodes == m.nodes[p := db]
    requires ValidDb(db) && OwnLog(db.events, p)
    requires Kept(m.nodes[p].events, db.events) && NewFromHome(m, p, db.events)
    ensures ValidNodes(later) && FromHome(later) && EventsGrow(m, later)
  {
    hide CopiesStored, LinksJoinNodes, OwnLog, ValidDb, AtHome, Kept;
    assert forall q :: q in m.nodes && q != p ==> later.nodes[q] == m.nodes[q];
    assert forall q :: q in m.nodes ==> Kept(m.nodes[q].events, m.nodes[q].events) by { KeptItself(m); }
    assert EventsGrow(m, later);
    forall q, k | q in later.nodes && k in later.nodes[q].events
      ensures AtHome(later, k, later.nodes[q].events[k])
    {
      NodeEventHome(m, p, db, later, q, k);
    }
  }

  lemma KeptItself(m: Mesh)
    ensures forall q :: q in m.nodes ==> Kept(m.nodes[q].events, m.nodes[q].events)
  {
  }

  lemma NodeEventHome(m: Mesh, p: PeerId, db: Db, later: Mesh, q: PeerId, k: EventKey)
    requires FromHome(m) && p in m.nodes && later.nodes == m.nodes[p := db] && EventsGrow(m, later)
    requires Kept(m.nodes[p].events, db.events) && NewFromHome(m, p, db.events)
    requires q in later.nodes && k in later.nodes[q].events
    ensures AtHome(later, k, later.nodes[q].events[k])
  {
    hide EventsGrow;
    var row := later.nodes[q].events[k];
    if k in m.nodes[q].events {
      assert AtHome(m, k, m.nodes[q].events[k]) && m.nodes[q].events[k] == row;
      HomeStays(m, later, k, row);
    } else if k.author != p {
      assert AtHome(m, k, row);
      HomeStays(m, later, k, row);
    } else {
      assert q == p;
    }
  }

  lemma CopiesStay(m: Mesh, later: Mesh, c: Copy)
    requires EventsGrow(m, later) && CopyStored(m, c)
    ensures CopyStored(later, c)
  {
  }

  /** The sequence that an own log gives out next is the one after its end. */
  lemma OwnLogGrows(db: Db, later: Db, event: EventEnvelope, p: PeerId)
    requires OwnLog(db.events, p) && SequenceFits(event) && event.header.author == p
    requires event.header.sequence == NextSequence(db, event.header.group, p)
    requires later.events == db.events[KeyOf(event) := ToRow(event)]
    ensures OwnLog(later.events, p)
  {
    var next := event.header.sequence;
    if next > 1 {
      SequencesAreHeld(db.events, event.header.group, p, next - 1);
    }
    forall g, n | Held(later.events, g, p, n) && n > 1
      ensures Held(later.events, g, p, n - 1)
    {
      if EventKey(g, p, n) != KeyOf(event) {
        assert Held(db.events, g, p, n);
      }
      assert Held(db.events, g, p, n - 1);
    }
  }

  /** The store of a node gains one event: its own, or one that its author has. */
  ghost predicate Gains(m: Mesh, p: PeerId, db: Db, e: EventEnvelope) {
    && p in m.nodes && ValidDb(db) && OwnLog(db.events, p)
    && SequenceFits(e) && FromRow(KeyOf(e), ToRow(e)) == e
    && KeyOf(e) !in m.nodes[p].events && db.events == m.nodes[p].events[KeyOf(e) := ToRow(e)]
    && (e.header.author == p || AtHome(m, KeyOf(e), ToRow(e)))
  }

  /** Nothing is on its way that was not, except copies of one event from one node. */
  ghost predicate OnlyMore(m: Mesh, later: Mesh, p: PeerId, wire: WireEvent) {
    && later.links <= m.links
    && (forall c :: c in later.queued ==> c in m.queued || (c.link.src == p && c.wire == wire))
    && (forall c :: c in later.wire ==> c in m.wire)
  }

  lemma GainsMeans(m: Mesh, p: PeerId, db: Db, e: EventEnvelope)
    requires Gains(m, p, db, e)
    ensures p in m.nodes && ValidDb(db) && OwnLog(db.events, p) && StoredEvent(db.events, e)
    ensures Kept(m.nodes[p].events, db.events) && NewFromHome(m, p, db.events)
  {
    hide ValidDb, OwnLog, AtHome;
  }

  lemma GainKeeps(m: Mesh, p: PeerId, db: Db, wire: WireEvent, later: Mesh)
    requires Inv(m) && Gains(m, p, db, wire.event) && OnlyMore(m, later, p, wire) && later.nodes == m.nodes[p := db]
    ensures Inv(later) && EventsGrow(m, later)
  {
    GainsMeans(m, p, db, wire.event);
    hide ValidNodes, FromHome, CopiesStored, ValidDb, OwnLog, EventsGrow, StoredEvent, Goes, LinksJoinNodes, AtHome,
         Gains, NewFromHome, Kept;
    NodeChanges(m, p, db, later);
    LinksStay(m, later);
    CopiesKeep(m, later, p, wire);
  }

  lemma BroadcastMembers(m: Mesh, p: PeerId, wire: WireEvent)
    ensures forall c :: c in Broadcast(m, p, wire).queued <==> c in m.queued || c in Copies(m.links, p, wire)
  {
  }

  lemma LinksStay(m: Mesh, later: Mesh)
    requires LinksJoinNodes(m) && EventsGrow(m, later) && later.links <= m.links
    ensures LinksJoinNodes(later)
  {
  }

  lemma CopiesKeep(m: Mesh, later: Mesh, p: PeerId, wire: WireEvent)
    requires CopiesStored(m) && EventsGrow(m, later) && OnlyMore(m, later, p, wire)
    requires p in later.nodes && StoredEvent(later.nodes[p].events, wire.event)
    ensures CopiesStored(later)
  {
    hide EventsGrow, StoredEvent, Goes, Passes;
    forall c | c in later.queued
      ensures CopyStored(later, c)
    {
      if c in m.queued {
        CopiesStay(m, later, c);
      }
    }
    forall c | c in later.wire
      ensures CopyStored(later, c) && Goes(c)
    {
      CopiesStay(m, later, c);
    }
  }

  lemma SendGains(m: Mesh, identity: Identity, channel: ChannelId, payload: MessagePayload, nonce: Nonce, now: I64,
                  db: Db, event: EventEnvelope)
    requires ValidNodes(m) && identity.peer in m.nodes
    requires Append(m.nodes[identity.peer], identity, channel, payload, nonce, now) == Ok((db, event))
    ensures Gains(m, identity.peer, db, event)
  {
    var p := identity.peer;
    AppendExactly(m.nodes[p], identity, channel, payload, nonce, now, db, event);
    hide Append, ValidDb;
    OwnLogGrows(m.nodes[p], db, event, p);
    RowRoundTrip(event);
  }

  lemma SendKeeps(m: Mesh, identity: Identity, channel: ChannelId, payload: MessagePayload, nonce: Nonce, now: I64)
    requires Inv(m)
    ensures Inv(Send(m, identity, channel, payload, nonce, now))
    ensures EventsGrow(m, Send(m, identity, channel, payload, nonce, now))
  {
    hide Append, ValidDb, Gains;
    var p := identity.peer;
    if p in m.nodes {
      match Append(m.nodes[p], identity, channel, payload, nonce, now)
      case Err(_) =>
      case Ok((db, event)) =>
        SendGains(m, identity, channel, payload, nonce, now, db, event);
        hide Inv, EventsGrow;
        BroadcastKeeps(m, p, db, WireEvent(event, identity.DisplayName()));
    }
  }

  lemma StoredIsAtHome(m: Mesh, origin: PeerId, e: EventEnvelope)
    requires Inv(m) && origin in m.nodes && StoredEvent(m.nodes[origin].events, e)
    ensures AtHome(m, KeyOf(e), ToRow(e)) && FromRow(KeyOf(e), ToRow(e)) == e
  {
    hide ValidNodes, CopiesStored, LinksJoinNodes;
  }

  lemma OthersLog(events: Events, p: PeerId, e: EventEnvelope)
    requires OwnLog(events, p) && SequenceFits(e) && e.header.author != p
    ensures OwnLog(events[KeyOf(e) := ToRow(e)], p)
  {
    var later := events[KeyOf(e) := ToRow(e)];
    forall g, n | Held(later, g, p, n) && n > 1
      ensures Held(later, g, p, n - 1)
    {
      assert Held(events, g, p, n);
      assert Held(events, g, p, n - 1);
    }
  }

  /** Inserting, anywhere, an event that some node stores is never an equivocation. */
  lemma RemoteInsert(m: Mesh, q: PeerId, origin: PeerId, e: EventEnvelope, name: string)
    requires Inv(m) && q in m.nodes && origin in m.nodes && StoredEvent(m.nodes[origin].events, e)
    ensures AgreesWith(m.nodes[q].events, e)
    ensures InsertRemote(m.nodes[q], e, name) != Err(Equivocation)
    ensures match InsertRemote(m.nodes[q], e, name)
            case Err(_) => true
            case Ok((db, added)) => if added then Gains(m, q, db, e) else db == m.nodes[q] && KeyOf(e) in db.events
  {
    StoredIsAtHome(m, origin, e);
    assert ValidDb(m.nodes[q]) && OwnLog(m.nodes[q].events, q);
    var k := KeyOf(e);
    assert k in m.nodes[q].events ==> AtHome(m, k, m.nodes[q].events[k]);
    hide Inv, ValidDb, OwnLog, Acceptable, RowBound, Extends;
    InsertRemoteExactly(m.nodes[q], e, name);
    if e.header.author != q {
      OthersLog(m.nodes[q].events, q, e);
    }
    RemoteSame(m.nodes[q], e, name);
    NotEquivocal(m.nodes[q], e, name);
  }

  lemma RemoteSame(db: Db, e: EventEnvelope, name: string)
    ensures InsertRemote(db, e, name).Ok? && !InsertRemote(db, e, name).value.1 ==>
              InsertRemote(db, e, name).value.0 == db
  {
    hide ValidateAndOpenEvent;
  }

  lemma NotEquivocal(db: Db, e: EventEnvelope, name: string)
    requires SequenceFits(e) && AgreesWith(db.events, e)
    ensures InsertRemote(db, e, name) != Err(Equivocation)
  {
  }

  /** No event changes; copies may move from the queue to the wire, or vanish. */
  ghost predicate Shuffles(m: Mesh, later: Mesh) {
    && later.nodes == m.nodes && later.links <= m.links
    && (forall c :: c in later.queued ==> c in m.queued)
    && (forall c :: c in later.wire ==> c in m.wire || (c in m.queued && Goes(c)))
  }

  lemma ShuffleKeeps(m: Mesh, later: Mesh)
    requires Inv(m) && Shuffles(m, later)
    ensures Inv(later) && EventsGrow(m, later)
  {
    hide OwnLog, ValidDb, AtHome, StoredEvent, Goes, Kept;
    KeptItself(m);
    forall p, k | p in later.nodes && k in later.nodes[p].events
      ensures AtHome(later, k, later.nodes[p].events[k])
    {
      HomeStays(m, later, k, m.nodes[p].events[k]);
    }
  }

  lemma ForwardKeeps(m: Mesh, c: Copy)
    requires Inv(m) && CanForward(m, c)
    ensures Inv(Forward(m, c)) && EventsGrow(m, Forward(m, c))
  {
    hide Inv, EventsGrow, Passes, LiveFits;
    ShuffleKeeps(m, Forward(m, c));
  }

  lemma ReceiveKeeps(m: Mesh, c: Copy)
    requires Inv(m) && CanReceive(m, c)
    ensures Inv(Receive(m, c)) && EventsGrow(m, Receive(m, c))
  {
    var q, e, name := c.link.dst, c.wire.event, c.wire.authorName;
    var rest := m.(wire := m.wire - multiset{c});
    assert CopyStored(m, c);
    hide Inv, EventsGrow, InsertRemote, Gains, StoredEvent, CopyStored, AgreesWith;
    DropKeeps(m, rest);
    DropKeeps(m, Close(rest, c.link.session));
    RemoteInsert(rest, q, c.link.src, e, name);
    match InsertRemote(m.nodes[q], e, name)
    case Err(_) =>
    case Ok((db, added)) =>
      if added && e.header.group in c.link.groups {
        BroadcastKeeps(rest, q, db, c.wire);
        SameGrowth(m, rest, Receive(m, c));
      }
  }

  lemma DropKeeps(m: Mesh, later: Mesh)
    requires Inv(m) && later.nodes == m.nodes && later.links <= m.links && later.queued == m.queued &&
               later.wire <= m.wire
    ensures Inv(later) && EventsGrow(m, later)
  {
    ShuffleKeeps(m, later);
  }

  lemma BroadcastKeeps(m: Mesh, p: PeerId, db: Db, wire: WireEvent)
    requires Inv(m) && Gains(m, p, db, wire.event)
    ensures Inv(Broadcast(WithDb(m, p, db), p, wire)) && EventsGrow(m, Broadcast(WithDb(m, p, db), p, wire))
  {
    hide Inv, EventsGrow;
    BroadcastMembers(WithDb(m, p, db), p, wire);
    GainKeeps(m, p, db, wire, Broadcast(WithDb(m, p, db), p, wire));
  }

  lemma SameGrowth(m: Mesh, rest: Mesh, later: Mesh)
    requires rest.nodes == m.nodes && EventsGrow(rest, later)
    ensures EventsGrow(m, later)
  {
  }

  lemma GrowsItself(m: Mesh)
    ensures EventsGrow(m, m)
  {
  }

  lemma SyncKeeps(m: Mesh, at: PeerId, origin: PeerId, e: EventEnvelope, name: string)
    requires Inv(m) && at in m.nodes && origin in m.nodes && StoredEvent(m.nodes[origin].events, e)
    ensures Inv(Sync(m, at, e, name)) && EventsGrow(m, Sync(m, at, e, name))
  {
    hide Inv, EventsGrow, InsertRemote, Gains, StoredEvent, AgreesWith;
    GrowsItself(m);
    RemoteInsert(m, at, origin, e, name);
    match InsertRemote(m.nodes[at], e, name)
    case Err(_) =>
    case Ok((db, added)) =>
      if added {
        StoredQuietly(m, at, db, WireEvent(e, name));
      } else {
        assert m.nodes[at := db] == m.nodes;
      }
  }

  lemma StoredQuietly(m: Mesh, p: PeerId, db: Db, wire: WireEvent)
    requires Inv(m) && Gains(m, p, db, wire.event)
    ensures Inv(WithDb(m, p, db)) && EventsGrow(m, WithDb(m, p, db))
  {
    hide Inv, EventsGrow, Gains;
    GainKeeps(m, p, db, wire, WithDb(m, p, db));
  }

  lemma MaintainKeeps(m: Mesh, p: PeerId, command: Command)
    requires Inv(m) && p in m.nodes && Maintenance(command)
    ensures Inv(WithDb(m, p, Apply(m.nodes[p], command)))
    ensures EventsGrow(m, WithDb(m, p, Apply(m.nodes[p], command)))
  {
    var db := Apply(m.nodes[p], command);
    assert ValidDb(m.nodes[p]) && OwnLog(m.nodes[p].events, p);
    ApplyKeeps(m.nodes[p], command);
    MaintenanceKeepsEvents(m.nodes[p], command);
    var later := WithDb(m, p, db);
    hide Apply, ValidDb, OwnLog, AtHome;
    NodeChanges(m, p, db, later);
    MaintainedCopies(m, later);
    LinksStay(m, later);
  }

  lemma MaintainedCopies(m: Mesh, later: Mesh)
    requires CopiesStored(m) && EventsGrow(m, later) && later.queued == m.queued && later.wire == m.wire
    ensures CopiesStored(later)
  {
    hide EventsGrow, CopyStored, Goes;
    forall c | c in m.queued || c in m.wire
      ensures CopyStored(later, c)
    {
      CopiesStay(m, later, c);
    }
  }

  lemma MaintenanceKeepsEvents(db: Db, command: Command)
    requires ValidDb(db) && Maintenance(command)
    ensures Apply(db, command).events == db.events
  {
    hide ValidDb, VerifyInvite;
    match command
    case DoImportInvite(invite) =>
      if ImportInvite(db, invite).Ok? {
        ImportInviteKeeps(db, invite);
      }
    case _ =>
  }

  lemma ConnectKeeps(m: Mesh, l: Link)
    requires Inv(m) && l.src in m.nodes && l.dst in m.nodes
    ensures Inv(m.(links := m.links + {l})) && EventsGrow(m, m.(links := m.links + {l}))
  {
    hide OwnLog, ValidDb, StoredEvent, Goes;
    KeptItself(m);
  }

  lemma StepKeeps(m: Mesh, action: Action)
    requires Inv(m) && Enabled(m, action)
    ensures Inv(Step(m, action)) && EventsGrow(m, Step(m, action))
  {
    hide Inv, EventsGrow, Send, Receive, Sync, Apply, StoredEvent;
    match action
    case DoSend(identity, channel, payload, nonce, now) => SendKeeps(m, identity, channel, payload, nonce, now);
    case DoForward(c) => ForwardKeeps(m, c);
    case DoReceive(c) => ReceiveKeeps(m, c);
    case DoSync(at, origin, event, name) => SyncKeeps(m, at, origin, event, name);
    case DoConnect(l) => ConnectKeeps(m, l);
    case DoClose(session) => ShuffleKeeps(m, Close(m, session));
    case DoMaintain(p, command) => MaintainKeeps(m, p, command);
  }

  lemma {:induction false} RunKeepsMesh(m: Mesh, actions: seq<Action>)
    requires Inv(m) && CanRun(m, actions)
    ensures Inv(Run(m, actions))
    decreases |actions|
  {
    hide Inv, Step, Enabled;
    if actions != [] {
      StepKeeps(m, actions[0]);
      RunKeepsMesh(Step(m, actions[0]), actions[1..]);
    }
  }

  lemma GrowsTwice(m: Mesh, later: Mesh, last: Mesh)
    requires EventsGrow(m, later) && EventsGrow(later, last)
    ensures EventsGrow(m, last)
  {
  }

  lemma {:induction false} RunGrows(m: Mesh, actions: seq<Action>)
    requires Inv(m) && CanRun(m, actions)
    ensures EventsGrow(m, Run(m, actions))
    decreases |actions|
  {
    hide Inv, Step, Enabled, EventsGrow;
    if actions == [] {
      GrowsItself(m);
    } else {
      StepKeeps(m, actions[0]);
      RunGrows(Step(m, actions[0]), actions[1..]);
      GrowsTwice(m, Step(m, actions[0]), Run(m, actions));
    }
  }

  lemma {:induction false} LogDownTo(events: Events, p: PeerId, g: GroupId, n: int, i: int)
    requires OwnLog(events, p) && Held(events, g, p, n) && 1 <= i <= n
    ensures Held(events, g, p, i)
    decreases n
  {
    if i < n {
      LogDownTo(events, p, g, n - 1, i);
    }
  }

  lemma OwnLogExactly(events: Events, p: PeerId, g: GroupId, n: int)
    requires OwnLog(events, p)
    ensures Held(events, g, p, n) <==> 1 <= n <= HeadOf(events, g, p)
  {
    hide HeadOf, OwnLog;
    HeadOfExactly(events, g, p);
    if Held(events, g, p, n) && n > HeadOf(events, g, p) {
      LogDownTo(events, p, g, n, HeadOf(events, g, p) + 1);
    }
  }

  lemma NodeOwnLog(m: Mesh, p: PeerId)
    requires Inv(m) && p in m.nodes
    ensures OwnLog(m.nodes[p].events, p)
  {
    hide FromHome, CopiesStored, LinksJoinNodes, OwnLog, ValidDb;
  }

  /** In every run in which each identity appends at one store: the author's own
      log in each group is exactly 1..n, and n is the head it advertises. */
  lemma OwnLogHasNoGap(start: Mesh, actions: seq<Action>, p: PeerId, g: GroupId, n: int)
    requires Start(start) && CanRun(start, actions) && p in Run(start, actions).nodes
    ensures var events := Run(start, actions).nodes[p].events;
            Held(events, g, p, n) <==> 1 <= n <= HeadOf(events, g, p)
  {
    hide Run, CanRun, Start, Inv, OwnLog, HeadOf, Held;
    StartInv(start);
    RunKeepsMesh(start, actions);
    NodeOwnLog(Run(start, actions), p);
    OwnLogExactly(Run(start, actions).nodes[p].events, p, g, n);
  }

  /** Every stored event is an entry of its author's own log, so any two stores
      agree wherever both hold a key. */
  lemma StoresAgree(start: Mesh, actions: seq<Action>, p: PeerId, q: PeerId, k: EventKey)
    requires Start(start) && CanRun(start, actions)
    requires p in Run(start, actions).nodes && q in Run(start, actions).nodes
    requires k in Run(start, actions).nodes[p].events
    ensures var m := Run(start, actions);
            && k.author in m.nodes && k in m.nodes[k.author].events
            && m.nodes[p].events[k] == m.nodes[k.author].events[k]
            && (k in m.nodes[q].events ==> m.nodes[q].events[k] == m.nodes[p].events[k])
  {
    StartInv(start);
    RunKeepsMesh(start, actions);
    var m := Run(start, actions);
    hide Run, CanRun, Start, ValidNodes, CopiesStored;
    assert AtHome(m, k, m.nodes[p].events[k]);
    assert k in m.nodes[q].events ==> AtHome(m, k, m.nodes[q].events[k]);
  }

  /** No event in flight is ever refused as an equivocation, at any node. */
  lemma EquivocationNeverRaised(start: Mesh, actions: seq<Action>, c: Copy, q: PeerId, name: string)
    requires Start(start) && CanRun(start, actions)
    requires q in Run(start, actions).nodes
    requires c in Run(start, actions).queued || c in Run(start, actions).wire
    ensures InsertRemote(Run(start, actions).nodes[q], c.wire.event, name) != Err(Equivocation)
  {
    StartInv(start);
    RunKeepsMesh(start, actions);
    var m := Run(start, actions);
    assert CopyStored(m, c);
    hide Run, CanRun, Start, Inv;
    RemoteInsert(m, q, c.link.src, c.wire.event, name);
  }

  lemma AppendSeals(db: Db, identity: Identity, channel: ChannelId, payload: MessagePayload, nonce: Nonce, now: I64)
    requires ValidDb(db) && Append(db, identity, channel, payload, nonce, now).Ok?
    ensures var e := Append(db, identity, channel, payload, nonce, now).value.1;
            && channel in db.channels && e.header.group == db.channels[channel].group && e.header.group in db.groups
            && SealEvent(identity.peer, e.header.group, channel, db.groups[e.header.group].secret,
                         e.header.sequence, now, nonce, payload) == Ok(e)
  {
    hide ValidDb;
  }

  /** Why each identity must stay at one store: when two stores of one identity
      append at the same sequence of one group, the second event is refused as an
      equivocation at the first store exactly when the two appends differ in
      payload, nonce or time. */
  lemma OneIdentityAtTwoStores(x: Db, y: Db, identity: Identity, channel: ChannelId,
                               px: MessagePayload, nx: Nonce, tx: I64, py: MessagePayload, ny: Nonce, ty: I64,
                               x1: Db, ex: EventEnvelope, y1: Db, ey: EventEnvelope, name: string)
    requires ValidDb(x) && ValidDb(y) && identity.peer !in y.blocked
    requires Append(x, identity, channel, px, nx, tx) == Ok((x1, ex))
    requires Append(y, identity, channel, py, ny, ty) == Ok((y1, ey))
    requires ex.header.group == ey.header.group && x.groups[ex.header.group].secret == y.groups[ey.header.group].secret
    requires ex.header.sequence == ey.header.sequence
    ensures InsertRemote(y1, ex, name) == Err(Equivocation) <==> (px, nx, tx) != (py, ny, ty)
  {
    AppendExactly(x, identity, channel, px, nx, tx, x1, ex);
    AppendExactly(y, identity, channel, py, ny, ty, y1, ey);
    AppendSeals(x, identity, channel, px, nx, tx);
    AppendSeals(y, identity, channel, py, ny, ty);
    assert ToRow(ex) == ToRow(ey) <==> (px, nx, tx) == (py, ny, ty);
    hide ValidDb, Extends, Append, ValidateAndOpenEvent;
    InsertRemoteExactly(y1, ex, name);
  }
}
