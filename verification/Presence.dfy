/** Who is online, and the status lines (src/network.rs, SharedNetworkState). */
module Presence {
  import opened Base
  import opened Ordering
  import opened Inventory

  datatype OnlinePeer = OnlinePeer(id: PeerId, name: string, address: string, sharedGroups: seq<GroupId>)

  datatype Row = Row(peer: Option<OnlinePeer>, sessions: nat)

  datatype State = State(peers: map<PeerId, Row>, status: seq<string>, generation: U64)

  datatype NetworkSnapshot =
    NetworkSnapshot(listenAddress: string, onlinePeers: seq<OnlinePeer>, status: seq<string>, generation: U64)

  const MAX_STATUS: nat := 12

  function RowOf(peers: map<PeerId, Row>, id: PeerId): Row {
    if id in peers then peers[id] else Row(None, 0)
  }

  function Last(lines: seq<string>, n: nat): seq<string> {
    if |lines| <= n then lines else lines[|lines| - n..]
  }

  function Bumped(generation: U64): U64 {
    (generation + 1) % (U64_MAX + 1)
  }

  function NoteIn(s: State, line: string): State {
    s.(status := Last(s.status + [line], MAX_STATUS), generation := Bumped(s.generation))
  }

  function OnlineLine(peer: OnlinePeer): string {
    peer.name + " connected from " + peer.address
  }

  function OnlineIn(s: State, peer: OnlinePeer): State {
    NoteIn(s.(peers := s.peers[peer.id := Row(Some(peer), RowOf(s.peers, peer.id).sessions + 1)]), OnlineLine(peer))
  }

  function OfflineLine(s: State, id: PeerId): Option<string> {
    if id in s.peers && s.peers[id].sessions <= 1 && s.peers[id].peer.Some?
    then Some(s.peers[id].peer.value.name + " went offline") else None
  }

  /** The count goes down to zero at most. */
  function OfflineIn(s: State, id: PeerId): State {
    var left :=
      if id in s.peers
      then s.(peers := s.peers[id := s.peers[id].(sessions := Max(s.peers[id].sessions - 1, 0))])
      else s;
    match OfflineLine(s, id)
    case Some(line) => NoteIn(left, line)
    case None => left.(generation := Bumped(left.generation))
  }

  /** The peers with a session, in the order of their keys. */
  function Listed(peers: map<PeerId, Row>, order: seq<SortKey>): seq<OnlinePeer> {
    if order == [] then []
    else
      var row := RowOf(peers, order[0].second);
      (if row.sessions > 0 && row.peer.Some? then [row.peer.value] else []) + Listed(peers, order[1..])
  }

  class SharedNetworkState {
    const listenAddress: string
    var peers: map<PeerId, Row>
    var status: seq<string>
    var generation: U64

    ghost function Contents(): State
      reads this
    {
      State(peers, status, generation)
    }

    constructor (listenAddress: string)
      ensures this.listenAddress == listenAddress
      ensures Contents() == State(map[], ["Listening on " + listenAddress], 1)
    {
      this.listenAddress := listenAddress;
      peers, status, generation := map[], ["Listening on " + listenAddress], 1;
    }

    method Bump()
      modifies this`generation
      ensures generation == Bumped(old(generation))
    {
      generation := if generation == U64_MAX then 0 else generation + 1;
    }

    method Note(line: string)
      modifies this`status, this`generation
      ensures Contents() == NoteIn(old(Contents()), line)
    {
      status := status + [line];
      ghost var all, k := status, 0;
      while |status| > MAX_STATUS
        invariant k <= |all| && status == all[k..] && |status| >= Min(|all|, MAX_STATUS)
        invariant generation == old(generation)
      {
        status := status[1..];
        k := k + 1;
      }
      Bump();
    }

    method Online(peer: OnlinePeer)
      modifies this
      ensures Contents() == OnlineIn(old(Contents()), peer)
    {
      var row := RowOf(peers, peer.id);
      peers := peers[peer.id := Row(Some(peer), row.sessions + 1)];
      Note(peer.name + " connected from " + peer.address);
    }

    method Offline(id: PeerId)
      modifies this
      ensures Contents() == OfflineIn(old(Contents()), id)
    {
      var offlineName: Option<string> := None;
      if id in peers {
        var row := peers[id];
        var sessions := if row.sessions == 0 then 0 else row.sessions - 1;
        peers := peers[id := row.(sessions := sessions)];
        if sessions == 0 && row.peer.Some? {
          offlineName := Some(row.peer.value.name);
        }
      }
      match offlineName
      case Some(name) => Note(name + " went offline");
      case None => Bump();
    }

    method Snapshot() returns (snapshot: NetworkSnapshot)
      ensures snapshot == NetworkSnapshot(listenAddress, Listed(peers, AuthorOrder(peers.Keys)), status, generation)
    {
      var order := AuthorOrder(peers.Keys);
      var online := [];
      assert order[0..] == order;
      for i := 0 to |order|
        invariant online + Listed(peers, order[i..]) == Listed(peers, order)
      {
        ghost var rest := order[i..];
        assert rest[0] == order[i] && rest[1..] == order[i + 1..];
        var row := peers[order[i].second];
        if row.sessions > 0 && row.peer.Some? {
          online := online + [row.peer.value];
        }
      }
      snapshot := NetworkSnapshot(listenAddress, online, status, generation);
    }
  }

  // ---------------------------------------------------------------- whole runs

  /** A session is online from its start to its end. `Bumps` stands for every change
      that only counts: an event or channel stored, a new address, a frame shown. */
  datatype Event = Begins(session: nat, peer: OnlinePeer) | Ends(session: nat) | Notes(line: string) | Bumps

  /** The state, the sessions that are online, all lines ever noted, and the number
      of changes. */
  datatype World = World(state: State, live: map<nat, OnlinePeer>, lines: seq<string>, changes: nat)

  function Fresh(listenAddress: string): World {
    var line := "Listening on " + listenAddress;
    World(State(map[], [line], 1), map[], [line], 0)
  }

  predicate CanHappen(w: World, e: Event) {
    match e
    case Begins(session, _) => session !in w.live
    case Ends(session) => session in w.live
    case Notes(_) => true
    case Bumps => true
  }

  function Happen(w: World, e: Event): World
    requires CanHappen(w, e)
  {
    match e
    case Begins(session, peer) =>
      World(OnlineIn(w.state, peer), w.live[session := peer], w.lines + [OnlineLine(peer)], w.changes + 1)
    case Ends(session) =>
      var id := w.live[session].id;
      var more := match OfflineLine(w.state, id) case Some(line) => [line] case None => [];
      World(OfflineIn(w.state, id), w.live - {session}, w.lines + more, w.changes + 1)
    case Notes(line) => World(NoteIn(w.state, line), w.live, w.lines + [line], w.changes + 1)
    case Bumps => w.(state := w.state.(generation := Bumped(w.state.generation)), changes := w.changes + 1)
  }

  predicate CanRun(w: World, events: seq<Event>)
    decreases |events|
  {
    events == [] || (CanHappen(w, events[0]) && CanRun(Happen(w, events[0]), events[1..]))
  }

  function Run(w: World, events: seq<Event>): World
    requires CanRun(w, events)
    decreases |events|
  {
    if events == [] then w else Run(Happen(w, events[0]), events[1..])
  }

  function SessionsOf(live: map<nat, OnlinePeer>, id: PeerId): set<nat> {
    set s | s in live && live[s].id == id
  }

  /** Every count is the number of sessions of the peer that are online; the status
      is the last twelve lines; the generation counts the changes. */
  ghost predicate Inv(w: World) {
    && (forall id :: RowOf(w.state.peers, id).sessions == |SessionsOf(w.live, id)|)
    && (forall id :: id in w.state.peers ==> w.state.peers[id].peer.Some? && w.state.peers[id].peer.value.id == id)
    && w.state.status == Last(w.lines, MAX_STATUS)
    && w.state.generation == (1 + w.changes) % (U64_MAX + 1)
  }

  lemma LastTwice(lines: seq<string>, line: string, n: nat)
    requires n > 0
    ensures Last(Last(lines, n) + [line], n) == Last(lines + [line], n)
  {
  }

  lemma BeginsCounts(live: map<nat, OnlinePeer>, session: nat, peer: OnlinePeer, id: PeerId)
    requires session !in live
    ensures |SessionsOf(live[session := peer], id)| == |SessionsOf(live, id)| + (if id == peer.id then 1 else 0)
  {
    if id == peer.id {
      assert SessionsOf(live[session := peer], id) == SessionsOf(live, id) + {session};
    } else {
      assert SessionsOf(live[session := peer], id) == SessionsOf(live, id);
    }
  }

  lemma EndsCounts(live: map<nat, OnlinePeer>, session: nat, id: PeerId)
    requires session in live
    ensures |SessionsOf(live - {session}, id)| == |SessionsOf(live, id)| - (if id == live[session].id then 1 else 0)
  {
    if id == live[session].id {
      assert SessionsOf(live, id) == SessionsOf(live - {session}, id) + {session};
    } else {
      assert SessionsOf(live - {session}, id) == SessionsOf(live, id);
    }
  }

  /** Ending a session never takes a count below one, so nothing saturates. */
  lemma NeverSaturates(w: World, session: nat)
    requires Inv(w) && session in w.live
    ensures w.live[session].id in w.state.peers && w.state.peers[w.live[session].id].sessions >= 1
  {
    var id := w.live[session].id;
    assert session in SessionsOf(w.live, id);
    assert RowOf(w.state.peers, id).sessions == |SessionsOf(w.live, id)|;
  }

  lemma BeginKeeps(w: World, session: nat, peer: OnlinePeer)
    requires Inv(w) && session !in w.live
    ensures Inv(Happen(w, Begins(session, peer)))
  {
    hide RowOf, SessionsOf, Bumped;
    CountGoesOn(w.changes);
    BeginKeepsCounts(w, session, peer);
    LastTwice(w.lines, OnlineLine(peer), MAX_STATUS);
  }

  lemma BeginKeepsCounts(w: World, session: nat, peer: OnlinePeer)
    requires Inv(w) && session !in w.live
    ensures var later := Happen(w, Begins(session, peer));
            && (forall id :: RowOf(later.state.peers, id).sessions == |SessionsOf(later.live, id)|)
            && (forall id :: id in later.state.peers ==>
                  later.state.peers[id].peer.Some? && later.state.peers[id].peer.value.id == id)
  {
    hide Last, SessionsOf, Bumped;
    var later := Happen(w, Begins(session, peer));
    forall id
      ensures RowOf(later.state.peers, id).sessions == |SessionsOf(later.live, id)|
    {
      BeginsCounts(w.live, session, peer, id);
      assert RowOf(w.state.peers, id).sessions == |SessionsOf(w.live, id)|;
    }
  }

  lemma EndKeepsCounts(w: World, session: nat)
    requires Inv(w) && session in w.live
    ensures var later := Happen(w, Ends(session));
            && (forall id :: RowOf(later.state.peers, id).sessions == |SessionsOf(later.live, id)|)
            && (forall id :: id in later.state.peers ==>
                  later.state.peers[id].peer.Some? && later.state.peers[id].peer.value.id == id)
  {
    var later := Happen(w, Ends(session));
    NeverSaturates(w, session);
    hide Last, SessionsOf, Bumped;
    forall id
      ensures RowOf(later.state.peers, id).sessions == |SessionsOf(later.live, id)|
    {
      EndsCounts(w.live, session, id);
      assert RowOf(w.state.peers, id).sessions == |SessionsOf(w.live, id)|;
    }
  }

  lemma EndKeeps(w: World, session: nat)
    requires Inv(w) && session in w.live
    ensures Inv(Happen(w, Ends(session)))
  {
    hide RowOf, SessionsOf, Bumped;
    CountGoesOn(w.changes);
    EndKeepsCounts(w, session);
    match OfflineLine(w.state, w.live[session].id) {
      case Some(line) => LastTwice(w.lines, line, MAX_STATUS);
      case None => assert w.lines + [] == w.lines;
    }
  }

  lemma SameCounts(w: World, later: World)
    requires Inv(w) && later.state.peers == w.state.peers && later.live == w.live
    ensures forall id :: RowOf(later.state.peers, id).sessions == |SessionsOf(later.live, id)|
  {
  }

  lemma CountGoesOn(changes: nat)
    ensures Bumped((1 + changes) % (U64_MAX + 1)) == (2 + changes) % (U64_MAX + 1)
  {
    var unit := U64_MAX + 1;
    var q, r := (1 + changes) / unit, (1 + changes) % unit;
    assert 1 + changes == q * unit + r;
    if r == unit - 1 {
      Quotient(2 + changes, unit, q + 1, 0);
    } else {
      Quotient(2 + changes, unit, q, r + 1);
    }
  }

  lemma NoteKeeps(w: World, line: string)
    requires Inv(w)
    ensures Inv(Happen(w, Notes(line)))
  {
    hide RowOf, SessionsOf, Bumped;
    CountGoesOn(w.changes);
    SameCounts(w, Happen(w, Notes(line)));
    LastTwice(w.lines, line, MAX_STATUS);
  }

  lemma BumpKeeps(w: World)
    requires Inv(w)
    ensures Inv(Happen(w, Bumps))
  {
    hide RowOf, SessionsOf, Bumped;
    CountGoesOn(w.changes);
    SameCounts(w, Happen(w, Bumps));
  }

  lemma HappenKeeps(w: World, e: Event)
    requires Inv(w) && CanHappen(w, e)
    ensures Inv(Happen(w, e))
  {
    hide Inv, Happen;
    match e
    case Begins(session, peer) => BeginKeeps(w, session, peer);
    case Ends(session) => EndKeeps(w, session);
    case Notes(line) => NoteKeeps(w, line);
    case Bumps => BumpKeeps(w);
  }

  lemma {:induction false} RunKeeps(w: World, events: seq<Event>)
    requires Inv(w) && CanRun(w, events)
    ensures Inv(Run(w, events))
    decreases |events|
  {
    hide Inv, Happen, CanHappen;
    if events != [] {
      HappenKeeps(w, events[0]);
      RunKeeps(Happen(w, events[0]), events[1..]);
    }
  }

  lemma {:induction false} ListedExactly(peers: map<PeerId, Row>, order: seq<SortKey>, p: OnlinePeer)
    ensures p in Listed(peers, order) <==>
            exists i :: 0 <= i < |order| && RowOf(peers, order[i].second).sessions > 0 &&
              RowOf(peers, order[i].second).peer == Some(p)
  {
    if order != [] {
      ListedExactly(peers, order[1..], p);
      assert forall i :: 1 <= i < |order| ==> order[i] == order[1..][i - 1];
      assert forall i :: 0 <= i < |order| - 1 ==> order[1..][i] == order[i + 1];
    }
  }

  /** In every run, over any interleaving of sessions: the snapshot lists a peer
      exactly when a session with it is online, the status is the last lines noted,
      twelve at most, and the generation tells how often the state changed. */
  lemma SnapshotExactly(listenAddress: string, events: seq<Event>, id: PeerId)
    requires CanRun(Fresh(listenAddress), events)
    ensures var w := Run(Fresh(listenAddress), events);
            && ((exists p :: p in Listed(w.state.peers, AuthorOrder(w.state.peers.Keys)) && p.id == id) <==>
                (exists s :: s in w.live && w.live[s].id == id))
            && w.state.status == Last(w.lines, MAX_STATUS) && |w.state.status| <= MAX_STATUS
            && w.state.generation == (1 + w.changes) % (U64_MAX + 1)
  {
    FreshInv(listenAddress);
    RunKeeps(Fresh(listenAddress), events);
    var w := Run(Fresh(listenAddress), events);
    hide Run, CanRun, Fresh;
    ListedWhenLive(w, id);
  }

  lemma FreshInv(listenAddress: string)
    ensures Inv(Fresh(listenAddress))
  {
    assert forall id :: SessionsOf(map[], id) == {};
  }

  lemma ListedWhenLive(w: World, id: PeerId)
    requires Inv(w)
    ensures (exists p :: p in Listed(w.state.peers, AuthorOrder(w.state.peers.Keys)) && p.id == id) <==>
            (exists s :: s in w.live && w.live[s].id == id)
  {
    var peers := w.state.peers;
    var order := AuthorOrder(peers.Keys);
    assert RowOf(peers, id).sessions == |SessionsOf(w.live, id)|;
    if s :| s in w.live && w.live[s].id == id {
      assert s in SessionsOf(w.live, id);
      var p := peers[id].peer.value;
      OrderHas(peers.Keys, id);
      ListedExactly(peers, order, p);
    }
    if p :| p in Listed(peers, order) && p.id == id {
      ListedExactly(peers, order, p);
      var i :| 0 <= i < |order| && RowOf(peers, order[i].second).sessions > 0 &&
          RowOf(peers, order[i].second).peer == Some(p);
      assert order[i].second in peers;
      var s :| s in SessionsOf(w.live, id);
    }
  }

  lemma OrderHas(ids: set<PeerId>, id: PeerId)
    requires id in ids
    ensures exists i :: 0 <= i < |AuthorOrder(ids)| && AuthorOrder(ids)[i].second == id
  {
    AuthorOrderComplete(ids);
    assert id in Seconds(AuthorOrder(ids));
  }

  predicate AscendingIds(ps: seq<OnlinePeer>) {
    ps == [] || ((forall i :: 1 <= i < |ps| ==> ps[0].id < ps[i].id) && AscendingIds(ps[1..]))
  }

  predicate AscendingKeys(order: seq<SortKey>) {
    order == [] || ((forall i :: 1 <= i < |order| ==> order[0].second < order[i].second) && AscendingKeys(order[1..]))
  }

  ghost predicate Keyed(peers: map<PeerId, Row>) {
    forall id :: id in peers && peers[id].peer.Some? ==> peers[id].peer.value.id == id
  }

  lemma ListedHasKey(peers: map<PeerId, Row>, order: seq<SortKey>, p: OnlinePeer) returns (i: nat)
    requires Keyed(peers) && p in Listed(peers, order)
    ensures i < |order| && order[i].second == p.id
  {
    hide Listed;
    ListedExactly(peers, order, p);
    i :| 0 <= i < |order| && RowOf(peers, order[i].second).sessions > 0 &&
      RowOf(peers, order[i].second).peer == Some(p);
  }

  lemma {:induction false} ListedAscends(peers: map<PeerId, Row>, order: seq<SortKey>)
    requires AscendingKeys(order) && Keyed(peers)
    ensures AscendingIds(Listed(peers, order))
  {
    hide Keyed;
    if order != [] {
      ListedAscends(peers, order[1..]);
      var rest, row := Listed(peers, order[1..]), RowOf(peers, order[0].second);
      if row.sessions > 0 && row.peer.Some? {
        FirstIsLeast(peers, order);
        assert ([row.peer.value] + rest)[1..] == rest;
      } else {
        assert Listed(peers, order) == rest;
      }
    }
  }

  lemma FirstIsLeast(peers: map<PeerId, Row>, order: seq<SortKey>)
    requires AscendingKeys(order) && Keyed(peers) && order != []
    requires RowOf(peers, order[0].second).sessions > 0 && RowOf(peers, order[0].second).peer.Some?
    ensures forall p :: p in Listed(peers, order[1..]) ==> RowOf(peers, order[0].second).peer.value.id < p.id
  {
    hide Listed;
    forall p | p in Listed(peers, order[1..])
      ensures order[0].second < p.id
    {
      var i := ListedHasKey(peers, order[1..], p);
      assert order[1..][i] == order[i + 1];
    }
  }

  lemma {:induction false} KeysAscend(order: seq<SortKey>)
    requires forall i, j :: 0 <= i < j < |order| ==> order[i].second < order[j].second
    ensures AscendingKeys(order)
  {
    if order != [] {
      KeysAscend(order[1..]);
    }
  }

  /** The snapshot lists no peer twice, and lists them by ascending id. */
  lemma SnapshotAscends(w: World)
    requires Inv(w)
    ensures AscendingIds(Listed(w.state.peers, AuthorOrder(w.state.peers.Keys)))
  {
    var keys := set a | a in w.state.peers.Keys :: SortKey(0, a, 0, 0);
    var order := AuthorOrder(w.state.peers.Keys);
    SortCorrect(keys);
    assert forall i :: 0 <= i < |order| ==> order[i] in keys;
    assert forall i, j :: 0 <= i < j < |order| ==> Before(order[i], order[j]);
    KeysAscend(order);
    ListedAscends(w.state.peers, order);
  }

  // ---------------------------------------------------------------- the lines

  /** Which sessions are online after some events, from the events alone. */
  function OnlineAfter(events: seq<Event>): map<nat, OnlinePeer> {
    if events == [] then map[]
    else
      var before := OnlineAfter(events[..|events| - 1]);
      match events[|events| - 1]
      case Begins(session, peer) => before[session := peer]
      case Ends(session) => before - {session}
      case _ => before
  }

  /** The peer as of its latest session. */
  function LatestPeer(events: seq<Event>, id: PeerId): Option<OnlinePeer> {
    if events == [] then None
    else
      match events[|events| - 1]
      case Begins(_, peer) => if peer.id == id then Some(peer) else LatestPeer(events[..|events| - 1], id)
      case _ => LatestPeer(events[..|events| - 1], id)
  }

  /** The line that an event adds after others: who connects, whose last session ends,
      and what is noted. */
  function LineOf(events: seq<Event>, event: Event): seq<string> {
    match event
    case Begins(_, peer) => [peer.name + " connected from " + peer.address]
    case Ends(session) =>
      var online := OnlineAfter(events);
      if session in online && (forall s :: s in online && s != session ==> online[s].id != online[session].id)
      then
        match LatestPeer(events, online[session].id)
        case Some(peer) => [peer.name + " went offline"]
        case None => []
      else []
    case Notes(line) => [line]
    case Bumps => []
  }

  function LinesOf(listenAddress: string, events: seq<Event>): seq<string> {
    if events == [] then ["Listening on " + listenAddress]
    else
      var before := events[..|events| - 1];
      LinesOf(listenAddress, before) + LineOf(before, events[|events| - 1])
  }

  /** The state agrees with what the events alone tell. */
  ghost predicate Tells(listenAddress: string, events: seq<Event>, w: World) {
    && Inv(w) && w.live == OnlineAfter(events) && w.lines == LinesOf(listenAddress, events)
    && w.changes == |events|
    && forall id :: id in w.state.peers ==>
         w.state.peers[id].peer.Some? && w.state.peers[id].peer == LatestPeer(events, id)
  }

  lemma OthersStand(w: World, session: nat)
    requires Inv(w) && session in w.live
    ensures var id := w.live[session].id;
            && id in w.state.peers
            && (w.state.peers[id].sessions <= 1 <==>
                forall s :: s in w.live && s != session ==> w.live[s].id != id)
  {
    var id := w.live[session].id;
    var all := SessionsOf(w.live, id);
    NeverSaturates(w, session);
    assert RowOf(w.state.peers, id).sessions == |all|;
    assert session in all;
    if s :| s in w.live && s != session && w.live[s].id == id {
      assert {s, session} <= all;
      TwoAtLeast(all, s, session);
    } else {
      assert all == {session};
    }
  }

  lemma TwoAtLeast(s: set<nat>, x: nat, y: nat)
    requires x in s && y in s && x != y
    ensures |s| >= 2
  {
    assert |s - {x}| == |s| - 1 && y in s - {x};
  }

  lemma OneMore(listenAddress: string, events: seq<Event>, event: Event)
    ensures var all := events + [event];
            && LinesOf(listenAddress, all) == LinesOf(listenAddress, events) + LineOf(events, event)
            && (forall id :: LatestPeer(all, id) ==
                  if event.Begins? && event.peer.id == id then Some(event.peer) else LatestPeer(events, id))
            && OnlineAfter(all) == match event
                                   case Begins(session, peer) => OnlineAfter(events)[session := peer]
                                   case Ends(session) => OnlineAfter(events) - {session}
                                   case _ => OnlineAfter(events)
  {
    var all := events + [event];
    assert all[..|all| - 1] == events && all[|all| - 1] == event;
  }

  lemma EndTellsMore(listenAddress: string, events: seq<Event>, w: World, session: nat)
    requires Tells(listenAddress, events, w) && session in w.live
    ensures w.lines + LineOf(events, Ends(session)) == Happen(w, Ends(session)).lines
    ensures forall id :: id in Happen(w, Ends(session)).state.peers ==>
              id in w.state.peers && Happen(w, Ends(session)).state.peers[id].peer == w.state.peers[id].peer
  {
    OthersStand(w, session);
    hide Inv, SessionsOf, LinesOf, Last, Bumped;
  }

  lemma TellsMore(listenAddress: string, events: seq<Event>, w: World, event: Event)
    requires Tells(listenAddress, events, w) && CanHappen(w, event)
    ensures Tells(listenAddress, events + [event], Happen(w, event))
  {
    HappenKeeps(w, event);
    OneMore(listenAddress, events, event);
    hide Inv, SessionsOf, LinesOf, LatestPeer, OnlineAfter, Last, Bumped;
    match event
    case Ends(session) =>
      EndTellsMore(listenAddress, events, w, session);
      hide LineOf, OfflineIn, OfflineLine;
    case _ => assert w.lines + [] == w.lines;
  }

  lemma {:induction false} RunTells(listenAddress: string, before: seq<Event>, w: World, events: seq<Event>)
    requires Tells(listenAddress, before, w) && CanRun(w, events)
    ensures Tells(listenAddress, before + events, Run(w, events))
    decreases |events|
  {
    hide Tells, Happen, CanHappen;
    if events == [] {
      assert before + [] == before;
    } else {
      TellsMore(listenAddress, before, w, events[0]);
      RunTells(listenAddress, before + [events[0]], Happen(w, events[0]), events[1..]);
      assert before + [events[0]] + events[1..] == before + events;
    }
  }

  /** In every run: the status is the last twelve of the lines that the events alone
      call for, "went offline" once the last session of a peer has ended and under the
      name of its latest one; and every event counts one. */
  lemma LinesExactly(listenAddress: string, events: seq<Event>)
    requires CanRun(Fresh(listenAddress), events)
    ensures var w, lines := Run(Fresh(listenAddress), events), LinesOf(listenAddress, events);
            && w.state.status == (if |lines| <= 12 then lines else lines[|lines| - 12..])
            && w.state.generation == (1 + |events|) % 0x1_0000_0000_0000_0000
  {
    ToldInTheEnd(listenAddress, events);
  }

  lemma ToldInTheEnd(listenAddress: string, events: seq<Event>)
    requires CanRun(Fresh(listenAddress), events)
    ensures Tells(listenAddress, events, Run(Fresh(listenAddress), events))
  {
    FreshInv(listenAddress);
    hide Run, CanRun;
    assert Tells(listenAddress, [], Fresh(listenAddress));
    RunTells(listenAddress, [], Fresh(listenAddress), events);
    assert [] + events == events;
  }

  lemma ListedIsKept(w: World, p: OnlinePeer)
    requires Inv(w) && p in Listed(w.state.peers, AuthorOrder(w.state.peers.Keys))
    ensures p.id in w.state.peers && w.state.peers[p.id].peer == Some(p) && SessionsOf(w.live, p.id) != {}
  {
    var peers, order := w.state.peers, AuthorOrder(w.state.peers.Keys);
    hide Listed, Last, SessionsOf;
    ListedExactly(peers, order, p);
    var i :| 0 <= i < |order| && RowOf(peers, order[i].second).sessions > 0 &&
      RowOf(peers, order[i].second).peer == Some(p);
    assert order[i].second in peers && order[i].second == p.id;
    assert RowOf(peers, p.id).sessions == |SessionsOf(w.live, p.id)|;
  }

  lemma KeptIsListed(w: World, p: OnlinePeer)
    requires Inv(w) && SessionsOf(w.live, p.id) != {}
    requires p.id in w.state.peers && w.state.peers[p.id].peer == Some(p)
    ensures p in Listed(w.state.peers, AuthorOrder(w.state.peers.Keys))
  {
    var peers, order := w.state.peers, AuthorOrder(w.state.peers.Keys);
    hide Listed, Last, SessionsOf;
    ListedExactly(peers, order, p);
    assert RowOf(peers, p.id).sessions == |SessionsOf(w.live, p.id)|;
    OrderHas(peers.Keys, p.id);
    var i :| 0 <= i < |order| && order[i].second == p.id;
    assert RowOf(peers, order[i].second).sessions > 0;
  }

  /** And a snapshot lists exactly the peers with a session online, each as of its latest
      session. */
  lemma ListedAsOfLatest(listenAddress: string, events: seq<Event>, p: OnlinePeer)
    requires CanRun(Fresh(listenAddress), events)
    ensures var w := Run(Fresh(listenAddress), events);
            p in Listed(w.state.peers, AuthorOrder(w.state.peers.Keys)) <==>
            && (exists s :: s in OnlineAfter(events) && OnlineAfter(events)[s].id == p.id)
            && LatestPeer(events, p.id) == Some(p)
  {
    ToldInTheEnd(listenAddress, events);
    var w := Run(Fresh(listenAddress), events);
    hide Run, CanRun, Fresh, Listed, OnlineAfter, LatestPeer, LinesOf, Inv;
    if p in Listed(w.state.peers, AuthorOrder(w.state.peers.Keys)) {
      ListedIsKept(w, p);
      var s :| s in SessionsOf(w.live, p.id);
      assert s in OnlineAfter(events) && OnlineAfter(events)[s].id == p.id;
      assert w.state.peers[p.id].peer == LatestPeer(events, p.id);
    }
    if s :| s in w.live && w.live[s].id == p.id && LatestPeer(events, p.id) == Some(p) {
      assert s in SessionsOf(w.live, p.id);
      LiveIsKept(w, s);
      KeptIsListed(w, p);
    }
  }

  lemma LiveIsKept(w: World, s: nat)
    requires Inv(w) && s in w.live
    ensures w.live[s].id in w.state.peers
  {
    NeverSaturates(w, s);
  }
}
