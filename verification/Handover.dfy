/** One side of a session while its store goes on growing: from its inventories over the
    requests it serves to the live part, for which it subscribes to broadcasts only at
    the end. What falls between is neither served nor forwarded. */
module Handover {
  import Runs
  import opened Base
  import opened Model
  import opened Tables
  import opened Delivery
  import opened Inventory
  import opened Transfer
  import opened Wire
  import opened Mesh

  /** `before` is the store when the serving of a request began. */
  datatype Stage =
    | Opening
    | Listed(inventory: seq<GroupInventory>)
    | Serving(next: nat, before: Option<Events>)
    | Live

  /** The side `link.src`. `waiting` holds new events that are stored and not yet
      broadcast, `queue` broadcasts since the subscription, `sent` the events sent to
      the peer, in order. `peer` is what the peer held when it listed its heads; also
      kept are the store as it was listed, the requests of the peer, and all broadcasts
      since the subscription. */
  datatype Side = Side(link: Link, db: Db, waiting: multiset<WireEvent>, stage: Stage, queue: seq<WireEvent>,
                       sent: seq<WireEvent>, peer: Events, listed: Events, asked: seq<RangeRequest>,
                       heard: seq<WireEvent>)

  /** The first two store a new event that is broadcast later, one lock after the
      other; `Operate` is every other use of the store. */
  datatype Move =
    | Publish(identity: Identity, channel: ChannelId, payload: MessagePayload, nonce: Nonce, now: I64)
    | Take(event: EventEnvelope, name: string)
    | Operate(command: Runs.Command)
    | Announce(wire: WireEvent)
    | ListHeads(inventory: seq<GroupInventory>)
    | Ask(remote: seq<GroupInventory>)
    | Begin
    | Serve(wires: seq<WireEvent>)
    | Subscribe
    | Pass

  /** The requests that are served. */
  function Due(s: Side): seq<RangeRequest> {
    s.asked[..ServedCount(s.asked)]
  }

  ghost predicate CanMove(s: Side, move: Move) {
    match move
    case Publish(identity, channel, payload, nonce, now) =>
      identity.peer == s.link.src && Append(s.db, identity, channel, payload, nonce, now).Ok?
    case Take(event, name) => InsertRemote(s.db, event, name).Ok? && InsertRemote(s.db, event, name).value.1
    case Operate(_) => true
    case Announce(wire) => wire in s.waiting
    case ListHeads(inventory) => s.stage.Opening? && AreInventories(s.db.events, s.link.groups, inventory)
    case Ask(remote) => s.stage.Listed? && AreInventories(s.peer, s.link.groups, remote)
    case Begin => s.stage.Serving? && s.stage.before.None? && s.stage.next < |Due(s)|
    case Serve(wires) =>
      && s.stage.Serving? && s.stage.before.Some? && s.stage.next < |Due(s)|
      && Serves(s.stage.before.value, s.db.events, Due(s)[s.stage.next], EventsOf(wires))
    case Subscribe => s.stage.Serving? && s.stage.before.None? && s.stage.next == |Due(s)|
    case Pass => s.stage.Live? && s.queue != [] && (Passes(Copy(s.link, s.queue[0])) ==> LiveFits(s.queue[0]))
  }

  ghost function Moved(s: Side, move: Move): Side
    requires CanMove(s, move)
  {
    match move
    case Publish(identity, channel, payload, nonce, now) =>
      var (db, event) := Append(s.db, identity, channel, payload, nonce, now).value;
      s.(db := db, waiting := s.waiting + multiset{WireEvent(event, identity.DisplayName())})
    case Take(event, name) =>
      s.(db := InsertRemote(s.db, event, name).value.0, waiting := s.waiting + multiset{WireEvent(event, name)})
    case Operate(command) => s.(db := Runs.Apply(s.db, command))
    case Announce(wire) =>
      var rest := s.(waiting := s.waiting - multiset{wire});
      if s.stage.Live? then rest.(queue := s.queue + [wire], heard := s.heard + [wire]) else rest
    case ListHeads(inventory) => s.(stage := Listed(inventory), listed := s.db.events)
    case Ask(remote) =>
      s.(stage := Serving(0, None), asked := MissingRanges(remote, s.stage.inventory))
    case Begin => s.(stage := s.stage.(before := Some(s.db.events)))
    case Serve(wires) => s.(stage := Serving(s.stage.next + 1, None), sent := s.sent + wires)
    case Subscribe => s.(stage := Live)
    case Pass =>
      var rest := s.(queue := s.queue[1..]);
      if Passes(Copy(s.link, s.queue[0])) then rest.(sent := s.sent + [s.queue[0]]) else rest
  }

  ghost predicate CanMoveAll(s: Side, moves: seq<Move>)
    decreases |moves|
  {
    moves == [] || (CanMove(s, moves[0]) && CanMoveAll(Moved(s, moves[0]), moves[1..]))
  }

  ghost function MovedAll(s: Side, moves: seq<Move>): Side
    requires CanMoveAll(s, moves)
    decreases |moves|
  {
    if moves == [] then s else MovedAll(Moved(s, moves[0]), moves[1..])
  }

  ghost predicate Fresh(s: Side) {
    && ValidDb(s.db) && s.waiting == multiset{} && s.stage == Opening && s.queue == [] && s.sent == []
    && s.listed == map[] && s.asked == [] && s.heard == []
  }

  // ---------------------------------------------------------------- what the peer is sent

  ghost predicate Sends(wires: seq<WireEvent>, k: EventKey) {
    exists w :: w in wires && IsOf(w, k)
  }

  ghost predicate Asked(requests: seq<RangeRequest>, k: EventKey) {
    exists r :: r in requests && Asks(r, k.group, k.author, k.sequence)
  }

  /** A broadcast of the event that the session has to pass on came while it listened. */
  ghost predicate Heard(s: Side, k: EventKey) {
    exists w :: w in s.heard && IsOf(w, k) && Passes(Copy(s.link, w))
  }

  function Done(s: Side): nat {
    match s.stage
    case Serving(next, _) => next
    case Live => |Due(s)|
    case _ => 0
  }

  ghost predicate StoresGrow(s: Side) {
    && ValidDb(s.db) && Included(s.listed, s.db.events)
    && (s.stage.Serving? && s.stage.before.Some? ==>
          Included(s.listed, s.stage.before.value) && Included(s.stage.before.value, s.db.events))
    && (s.stage.Listed? ==> AreInventories(s.listed, s.link.groups, s.stage.inventory))
  }

  /** The requests are for the gap between the heads, as they were listed; all that is
      asked for was there then. */
  ghost predicate AsksForListed(s: Side) {
    && (forall r, n :: r in s.asked && r.first <= n <= r.last ==> Held(s.listed, r.group, r.author, n))
    && (s.stage.Serving? || s.stage.Live? ==>
          forall r :: r in s.asked <==> Wanted(s.peer, s.listed, s.link.groups, r))
  }

  ghost predicate SendsOnlyDue(s: Side) {
    forall k :: Sends(s.sent, k) ==> Asked(Due(s), k) || Heard(s, k)
  }

  ghost predicate ServedSoFar(s: Side) {
    && Done(s) <= |Due(s)|
    && forall k :: Asked(Due(s)[..Done(s)], k) ==> Sends(s.sent, k)
  }

  ghost predicate PassedSoFar(s: Side) {
    && (forall w :: w in s.heard ==> w in s.queue || w in s.sent || !Passes(Copy(s.link, w)))
    && (forall w :: w in s.queue ==> w in s.heard)
    && (!s.stage.Live? ==> s.heard == [])
  }

  ghost predicate Inv(s: Side) {
    && StoresGrow(s) && AsksForListed(s) && SendsOnlyDue(s) && ServedSoFar(s) && PassedSoFar(s)
    && (s.stage.Opening? || s.stage.Listed? ==> s.asked == [] && s.sent == [])
  }

  lemma FreshInv(s: Side)
    requires Fresh(s)
    ensures Inv(s)
  {
    hide ValidDb;
  }

  lemma GrowKeeps(s: Side, db: Db, waiting: multiset<WireEvent>)
    requires Inv(s) && ValidDb(db) && Included(s.db.events, db.events)
    ensures Inv(s.(db := db, waiting := waiting))
  {
    hide ValidDb;
    var later := s.(db := db, waiting := waiting);
    assert forall k :: Heard(later, k) <==> Heard(s, k);
  }

  lemma StoreMoveApplies(s: Side, move: Move, command: Runs.Command)
    requires CanMove(s, move)
    requires match move
             case Publish(identity, channel, payload, nonce, now) =>
               command == Runs.DoAppend(identity, channel, payload, nonce, now)
             case Take(event, name) => command == Runs.DoInsertRemote(event, name)
             case Operate(c) => command == c
             case _ => false
    ensures Moved(s, move) == s.(db := Runs.Apply(s.db, command), waiting := Moved(s, move).waiting)
  {
    hide Append, InsertRemote;
  }

  lemma StoreMoveKeeps(s: Side, move: Move)
    requires Inv(s) && CanMove(s, move) && (move.Publish? || move.Take? || move.Operate?)
    ensures Inv(Moved(s, move))
  {
    var command :=
      match move
      case Publish(identity, channel, payload, nonce, now) => Runs.DoAppend(identity, channel, payload, nonce, now)
      case Take(event, name) => Runs.DoInsertRemote(event, name)
      case Operate(command) => command;
    Runs.ApplyKeeps(s.db, command);
    StoreMoveApplies(s, move, command);
    hide ValidDb, Inv, Append, InsertRemote, Runs.Apply, Moved;
    GrowKeeps(s, Runs.Apply(s.db, command), Moved(s, move).waiting);
  }

  lemma AnnounceKeeps(s: Side, wire: WireEvent)
    requires Inv(s) && wire in s.waiting
    ensures Inv(Moved(s, Announce(wire)))
  {
    hide StoresGrow, AsksForListed, Passes;
    var later := Moved(s, Announce(wire));
    assert StoresGrow(later) && AsksForListed(later) by { SameStores(s, later); }
    forall k | Heard(s, k)
      ensures Heard(later, k)
    {
      var w :| w in s.heard && IsOf(w, k) && Passes(Copy(s.link, w));
      assert w in later.heard;
    }
  }

  lemma SameStores(s: Side, later: Side)
    requires later.db == s.db && later.listed == s.listed && later.asked == s.asked && later.link == s.link
    requires later.peer == s.peer && StoresGrow(s) && AsksForListed(s)
    requires later.stage == s.stage ||
             (s.stage.Serving? && (later.stage.Live? || (later.stage.Serving? && later.stage.before.None?)))
    ensures StoresGrow(later) && AsksForListed(later)
  {
    hide ValidDb, Included, AreInventories, Wanted, Held;
  }

  lemma ListKeeps(s: Side, inventory: seq<GroupInventory>)
    requires Inv(s) && CanMove(s, ListHeads(inventory))
    ensures Inv(Moved(s, ListHeads(inventory)))
  {
    hide ValidDb, AreInventories;
  }

  lemma AsksRightly(peer: Events, listed: Events, groups: set<GroupId>, remote: seq<GroupInventory>,
                    inventory: seq<GroupInventory>)
    requires AreInventories(peer, groups, remote) && AreInventories(listed, groups, inventory)
    ensures forall r, n :: r in MissingRanges(remote, inventory) && r.first <= n <= r.last ==>
              Held(listed, r.group, r.author, n)
    ensures forall r :: r in MissingRanges(remote, inventory) <==> Wanted(peer, listed, groups, r)
  {
    hide AreInventories, MissingRanges, Wanted, Held;
    RequestsSound(peer, listed, groups, remote, inventory);
    forall r
      ensures r in MissingRanges(remote, inventory) <==> Wanted(peer, listed, groups, r)
    {
      RequestsExactly(peer, listed, groups, remote, inventory, r);
    }
  }

  lemma AskKeeps(s: Side, remote: seq<GroupInventory>)
    requires Inv(s) && CanMove(s, Ask(remote))
    ensures Inv(Moved(s, Ask(remote)))
  {
    hide ValidDb, AreInventories, MissingRanges, Passes, Wanted, Held, Included;
    AsksRightly(s.peer, s.listed, s.link.groups, remote, s.stage.inventory);
    assert Due(Moved(s, Ask(remote)))[..0] == [];
  }

  lemma {:induction false} EventHasWire(wires: seq<WireEvent>, e: EventEnvelope)
    ensures e in EventsOf(wires) <==> exists w :: w in wires && w.event == e
  {
    if wires != [] {
      EventHasWire(wires[1..], e);
      assert forall w :: w in wires <==> w == wires[0] || w in wires[1..];
    }
  }

  /** A served request brings what was listed, and nothing outside its range. */
  lemma ServedIsDue(listed: Events, before: Events, now: Events, r: RangeRequest, wires: seq<WireEvent>, k: EventKey)
    requires Included(listed, before) && Serves(before, now, r, EventsOf(wires))
    requires forall n :: r.first <= n <= r.last ==> Held(listed, r.group, r.author, n)
    ensures Sends(wires, k) <==> Asks(r, k.group, k.author, k.sequence)
  {
    if Sends(wires, k) {
      var w :| w in wires && IsOf(w, k);
      EventHasWire(wires, w.event);
      var i :| 0 <= i < |EventsOf(wires)| && EventsOf(wires)[i] == w.event;
      assert StoredInRange(now, r.group, r.author, r.first, r.last, w.event);
    }
    if Asks(r, k.group, k.author, k.sequence) {
      assert Held(listed, r.group, r.author, k.sequence) && Held(before, r.group, r.author, k.sequence);
      var e := EventAtSequence(before, r.group, r.author, k.sequence);
      EventHasWire(wires, e);
      var w :| w in wires && w.event == e;
      assert IsOf(w, k);
    }
  }

  lemma SendsMore(x: seq<WireEvent>, y: seq<WireEvent>, k: EventKey)
    ensures Sends(x + y, k) <==> Sends(x, k) || Sends(y, k)
  {
    if w :| w in x && IsOf(w, k) {
      assert w in x + y;
    }
    if w :| w in y && IsOf(w, k) {
      assert w in x + y;
    }
  }

  lemma AskedMore(requests: seq<RangeRequest>, i: nat, k: EventKey)
    requires i < |requests|
    ensures Asked(requests[..i + 1], k) <==>
              Asked(requests[..i], k) || Asks(requests[i], k.group, k.author, k.sequence)
  {
    assert requests[..i + 1] == requests[..i] + [requests[i]];
  }

  lemma AskedAll(requests: seq<RangeRequest>, i: nat, k: EventKey)
    requires i < |requests| && Asks(requests[i], k.group, k.author, k.sequence)
    ensures Asked(requests, k)
  {
    assert requests[i] in requests;
  }

  lemma ServeSends(s: Side, wires: seq<WireEvent>, k: EventKey)
    requires Inv(s) && CanMove(s, Serve(wires))
    ensures var i := s.stage.next;
            && (Sends(s.sent + wires, k) ==> Asked(Due(s), k) || Heard(s, k))
            && (Asked(Due(s)[..i + 1], k) ==> Sends(s.sent + wires, k))
  {
    var i := s.stage.next;
    var r := Due(s)[i];
    assert r == s.asked[i] && r in s.asked;
    assert forall n :: r.first <= n <= r.last ==> Held(s.listed, r.group, r.author, n);
    hide ValidDb, Serves, Passes, Sends, Asked, Asks, AsksForListed, Heard, Held, Included, AreInventories;
    ServedIsDue(s.listed, s.stage.before.value, s.db.events, r, wires, k);
    SendsMore(s.sent, wires, k);
    AskedMore(Due(s), i, k);
    if Asks(r, k.group, k.author, k.sequence) {
      AskedAll(Due(s), i, k);
    }
  }

  lemma ServeKeeps(s: Side, wires: seq<WireEvent>)
    requires Inv(s) && CanMove(s, Serve(wires))
    ensures Inv(Moved(s, Serve(wires)))
  {
    var later := Moved(s, Serve(wires));
    SameStores(s, later);
    hide Serves, Passes, Sends, Asked, StoresGrow, AsksForListed;
    forall k
      ensures Sends(later.sent, k) ==> Asked(Due(later), k) || Heard(later, k)
      ensures Asked(Due(later)[..Done(later)], k) ==> Sends(later.sent, k)
    {
      ServeSends(s, wires, k);
      assert Heard(later, k) <==> Heard(s, k);
    }
  }

  lemma StageKeeps(s: Side, move: Move)
    requires Inv(s) && CanMove(s, move) && (move.Begin? || move.Subscribe?)
    ensures Inv(Moved(s, move))
  {
    hide ValidDb, Sends, Asked, Passes;
    var later := Moved(s, move);
    assert forall k :: Heard(later, k) <==> Heard(s, k);
    assert Due(later)[..Done(later)] == Due(s)[..Done(s)];
  }

  lemma PassKeeps(s: Side)
    requires Inv(s) && CanMove(s, Pass)
    ensures Inv(Moved(s, Pass))
  {
    hide StoresGrow, AsksForListed, Passes, LiveFits, Asked;
    var later, w := Moved(s, Pass), s.queue[0];
    SameStores(s, later);
    assert forall v :: v in s.queue ==> v == w || v in s.queue[1..];
    forall k
      ensures Sends(later.sent, k) ==> Asked(Due(later), k) || Heard(later, k)
      ensures Sends(s.sent, k) ==> Sends(later.sent, k)
    {
      SendsMore(s.sent, [w], k);
      assert Heard(later, k) <==> Heard(s, k);
      if Sends([w], k) && Passes(Copy(s.link, w)) {
        assert w in s.heard && IsOf(w, k);
      }
    }
  }

  lemma MoveKeeps(s: Side, move: Move)
    requires Inv(s) && CanMove(s, move)
    ensures Inv(Moved(s, move))
  {
    hide Inv, Moved;
    match move
    case Publish(_, _, _, _, _) => StoreMoveKeeps(s, move);
    case Take(_, _) => StoreMoveKeeps(s, move);
    case Operate(_) => StoreMoveKeeps(s, move);
    case Announce(wire) => AnnounceKeeps(s, wire);
    case ListHeads(inventory) => ListKeeps(s, inventory);
    case Ask(remote) => AskKeeps(s, remote);
    case Begin => StageKeeps(s, move);
    case Serve(wires) => ServeKeeps(s, wires);
    case Subscribe => StageKeeps(s, move);
    case Pass => PassKeeps(s);
  }

  lemma {:induction false} AllKeep(s: Side, moves: seq<Move>)
    requires Inv(s) && CanMoveAll(s, moves)
    ensures Inv(MovedAll(s, moves))
    decreases |moves|
  {
    hide Inv, Moved, CanMove;
    if moves != [] {
      MoveKeeps(s, moves[0]);
      AllKeep(Moved(s, moves[0]), moves[1..]);
    }
  }

  lemma MovedCons(s: Side, move: Move, rest: seq<Move>)
    requires CanMove(s, move) && CanMoveAll(Moved(s, move), rest)
    ensures CanMoveAll(s, [move] + rest) && MovedAll(s, [move] + rest) == MovedAll(Moved(s, move), rest)
  {
    hide CanMove, Moved;
    assert ([move] + rest)[1..] == rest;
  }

  // ---------------------------------------------------------------- what is lost

  /** A session that is live and has nothing left to pass on. */
  predicate AtRest(s: Side) {
    s.stage.Live? && s.queue == []
  }

  /** In every run of uses of the store, broadcasts and session steps: once live and at
      rest, the peer has been sent exactly what one of the served requests asked for
      and what was broadcast to be passed on after the subscription. */
  lemma SentExactly(start: Side, moves: seq<Move>, k: EventKey)
    requires Fresh(start) && CanMoveAll(start, moves) && AtRest(MovedAll(start, moves))
    ensures var s := MovedAll(start, moves); Sends(s.sent, k) <==> Asked(Due(s), k) || Heard(s, k)
  {
    FreshInv(start);
    AllKeep(start, moves);
    var s := MovedAll(start, moves);
    hide MovedAll, CanMoveAll, Fresh, StoresGrow, AsksForListed, Passes, Asked;
    assert Due(s)[..|Due(s)|] == Due(s);
    if Heard(s, k) {
      var w :| w in s.heard && IsOf(w, k) && Passes(Copy(s.link, w));
      assert w in s.sent;
    }
  }

  lemma AskedExactly(s: Side, k: EventKey)
    requires AsksForListed(s) && s.stage.Live? && |s.asked| <= MAX_REQUESTS && k.group in s.link.groups
    ensures Asked(Due(s), k) <==>
              HeadOf(s.peer, k.group, k.author) < k.sequence <= HeadOf(s.listed, k.group, k.author)
  {
    hide HeadOf;
    assert Due(s) == s.asked;
    HeadOfExactly(s.peer, k.group, k.author);
    HeadOfExactly(s.listed, k.group, k.author);
    var r := RangeRequest(k.group, k.author, HeadOf(s.peer, k.group, k.author) + 1,
                          HeadOf(s.listed, k.group, k.author));
    assert r in s.asked <==> Wanted(s.peer, s.listed, s.link.groups, r);
  }

  lemma TakesWhatIsSent(db: Db, wires: seq<WireEvent>, name: string, k: EventKey)
    requires ValidDb(db) && Deliver(db, wires, name).error.None?
    ensures k in Deliver(db, wires, name).db.events <==> k in db.events || Sends(wires, k)
  {
    DeliverExactly(db, wires, name);
    hide ValidDb, Deliver, Acceptable;
    SentSet(wires, k);
  }

  lemma {:induction false} SentSet(wires: seq<WireEvent>, k: EventKey)
    ensures (exists e :: e in EventSet(wires) && SequenceFits(e) && KeyOf(e) == k) <==> Sends(wires, k)
  {
    if wires != [] {
      SentSet(wires[1..], k);
      SendsMore([wires[0]], wires[1..], k);
      assert [wires[0]] + wires[1..] == wires;
      assert Sends([wires[0]], k) <==> IsOf(wires[0], k);
    }
  }

  lemma UpToTheHead(events: Events, k: EventKey)
    requires k.sequence <= HeadOf(events, k.group, k.author)
    ensures k in events
  {
    HeadOfExactly(events, k.group, k.author);
    assert Held(events, k.group, k.author, k.sequence);
  }

  /** Exactly what a session leaves out. Once live and at rest, with at most 10,000
      requests and nothing refused: the peer lacks an event that this side holds in a
      shared group exactly when the peer lacked it at first, the event was beyond the
      head that this side listed, and no broadcast of it to be passed on came after the
      subscription. */
  lemma PeerLacksExactly(start: Side, moves: seq<Move>, peer: Db, name: string, k: EventKey)
    requires Fresh(start) && CanMoveAll(start, moves) && AtRest(MovedAll(start, moves))
    requires ValidDb(peer) && peer.events == MovedAll(start, moves).peer
    requires |MovedAll(start, moves).asked| <= MAX_REQUESTS
    requires Deliver(peer, MovedAll(start, moves).sent, name).error.None?
    requires k in MovedAll(start, moves).db.events && k.group in MovedAll(start, moves).link.groups
    ensures var s := MovedAll(start, moves);
            k !in Deliver(peer, s.sent, name).db.events <==>
            k !in peer.events && k.sequence > HeadOf(s.listed, k.group, k.author) && !Heard(s, k)
  {
    FreshInv(start);
    AllKeep(start, moves);
    SentExactly(start, moves, k);
    var s := MovedAll(start, moves);
    assert StoresGrow(s) && AsksForListed(s);
    hide MovedAll, CanMoveAll, Fresh, Inv, AsksForListed, HeadOf, Deliver, Heard, Sends, Asked;
    AskedExactly(s, k);
    TakesWhatIsSent(peer, s.sent, name, k);
    if k.sequence <= HeadOf(peer.events, k.group, k.author) {
      UpToTheHead(peer.events, k);
    }
  }

  /** For the events of this side itself, whose log has no gap: exactly those that were
      appended after the heads were listed, and broadcast before the subscription. */
  lemma PeerLacksOwnExactly(start: Side, moves: seq<Move>, peer: Db, name: string, k: EventKey)
    requires Fresh(start) && CanMoveAll(start, moves) && AtRest(MovedAll(start, moves))
    requires ValidDb(peer) && peer.events == MovedAll(start, moves).peer
    requires |MovedAll(start, moves).asked| <= MAX_REQUESTS
    requires Deliver(peer, MovedAll(start, moves).sent, name).error.None?
    requires k in MovedAll(start, moves).db.events && k.group in MovedAll(start, moves).link.groups
    requires k.author == start.link.src && OwnLog(MovedAll(start, moves).listed, k.author)
    ensures var s := MovedAll(start, moves);
            k !in Deliver(peer, s.sent, name).db.events <==>
            k !in peer.events && k !in s.listed && !Heard(s, k)
  {
    PeerLacksExactly(start, moves, peer, name, k);
    FreshInv(start);
    AllKeep(start, moves);
    var s := MovedAll(start, moves);
    hide MovedAll, CanMoveAll, Fresh, Inv, HeadOf, Deliver, Heard, OwnLog, ValidDb;
    ListedExactly(s, k);
  }

  lemma ListedExactly(s: Side, k: EventKey)
    requires OwnLog(s.listed, k.author)
    ensures k in s.listed <==> k.sequence <= HeadOf(s.listed, k.group, k.author)
  {
    hide HeadOf, OwnLog;
    OwnLogExactly(s.listed, k.author, k.group, k.sequence);
  }

  // ---------------------------------------------------------------- what is broadcast

  lemma {:induction false} WaitsUntilAnnounced(s: Side, moves: seq<Move>, wire: WireEvent)
    requires CanMoveAll(s, moves) && wire in s.waiting
    ensures wire in MovedAll(s, moves).waiting || Announce(wire) in moves
    decreases |moves|
  {
    hide CanMove, Moved;
    if moves != [] && moves[0] != Announce(wire) {
      StillWaits(s, moves[0], wire);
      WaitsUntilAnnounced(Moved(s, moves[0]), moves[1..], wire);
    }
  }

  lemma StillWaits(s: Side, move: Move, wire: WireEvent)
    requires CanMove(s, move) && wire in s.waiting && move != Announce(wire)
    ensures wire in Moved(s, move).waiting
  {
    hide Append, InsertRemote, Runs.Apply, MissingRanges, Serves, AreInventories;
  }

  lemma NewOneWaits(s: Side, move: Move, k: EventKey)
    requires ValidDb(s.db) && CanMove(s, move) && (move.Operate? ==> Maintenance(move.command))
    requires k in Moved(s, move).db.events && k !in s.db.events
    ensures exists wire :: wire in Moved(s, move).waiting && IsOf(wire, k)
  {
    hide Append, InsertRemote, Runs.Apply, ValidDb, MissingRanges, Serves, AreInventories, Passes;
    match move
    case Publish(identity, channel, payload, nonce, now) =>
      var (db, event) := Append(s.db, identity, channel, payload, nonce, now).value;
      AppendExactly(s.db, identity, channel, payload, nonce, now, db, event);
      var wire := WireEvent(event, identity.DisplayName());
      assert wire in Moved(s, move).waiting && IsOf(wire, k);
    case Take(event, name) =>
      InsertRemoteExactly(s.db, event, name);
      var wire := WireEvent(event, name);
      assert wire in Moved(s, move).waiting && IsOf(wire, k);
    case Operate(command) => MaintenanceKeepsEvents(s.db, command);
    case _ =>
  }

  /** Every event that enters the store while a session stands, by an append or from
      another session, waits to be broadcast or has been. */
  lemma {:induction false} EveryNewEventIsBroadcast(s: Side, moves: seq<Move>, k: EventKey)
    requires Inv(s) && CanMoveAll(s, moves)
    requires forall move :: move in moves && move.Operate? ==> Maintenance(move.command)
    requires k !in s.db.events && k in MovedAll(s, moves).db.events
    ensures exists wire :: IsOf(wire, k) && (wire in MovedAll(s, moves).waiting || Announce(wire) in moves)
    decreases |moves|
  {
    hide CanMove, Moved, IsOf, ValidDb;
    var next := Moved(s, moves[0]);
    MoveKeeps(s, moves[0]);
    if k in next.db.events {
      NewOneWaits(s, moves[0], k);
      var wire :| wire in next.waiting && IsOf(wire, k);
      WaitsUntilAnnounced(next, moves[1..], wire);
    } else {
      EveryNewEventIsBroadcast(next, moves[1..], k);
      var wire :| IsOf(wire, k) && (wire in MovedAll(next, moves[1..]).waiting || Announce(wire) in moves[1..]);
      assert Announce(wire) in moves[1..] ==> Announce(wire) in moves;
    }
  }
}
