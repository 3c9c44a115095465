/** What one completed session changes, and where repeated sessions end. */
module Convergence {
  import opened Base
  import opened Text
  import opened Tables
  import opened Delivery
  import opened Inventory
  import opened Wire
  import opened Transfer
  import opened Session
  import opened SessionProof
  import opened SessionSafety

  // ---------------------------------------------------------------- one session

  /** The events of side a after a completed session: its own, unchanged, and the
      events it was sent. */
  ghost predicate Enriched(s: Setup, later: Events) {
    && (forall k :: k in s.a0.events ==> k in later && later[k] == s.a0.events[k])
    && (forall k :: k in later && k !in s.a0.events ==>
          k in s.b0.events && later[k] == s.b0.events[k] && FromRow(k, later[k]) in Total(FlipSetup(s)))
    && (forall e :: e in Total(FlipSetup(s)) ==> SequenceFits(e) && KeyOf(e) in later)
  }

  lemma CompletedEnriches(s: Setup, x: Side)
    requires Ready(s) && Completed(s, x)
    ensures Enriched(s, x.db.events)
  {
    hide Ready, Total, KnowsChannels, ChannelsFrom, ValidDb;
    EventSetIs(x.received);
    forall k | k in x.db.events && k !in s.a0.events
      ensures k in s.b0.events && x.db.events[k] == s.b0.events[k]
      ensures FromRow(k, x.db.events[k]) in Total(FlipSetup(s))
    {
      var e :| e in EventSet(x.received) && KeyOf(e) == k;
      TotalIsStored(FlipSetup(s), e);
    }
  }

  /** What a served request of a asks for, and b holds, a holds afterwards. */
  lemma AskedAndSent(s: Setup, later: Events, r: RangeRequest, n: int)
    requires Enriched(s, later)
    requires r in ServedToB(FlipSetup(s)) && r.first <= n <= r.last && Held(s.b0.events, r.group, r.author, n)
    ensures Held(later, r.group, r.author, n)
  {
    var e := EventAtSequence(s.b0.events, r.group, r.author, n);
    assert Asks(r, e.header.group, e.header.author, e.header.sequence);
    ServedEventsExactly(s.b0.events, ServedToB(FlipSetup(s)), e);
    assert e in Total(FlipSetup(s));
  }

  /** The requests of a. */
  function RequestsOfA(s: Setup): seq<RangeRequest> {
    MissingRanges(InventoryA(s), InventoryB(s))
  }

  lemma ServedToA(s: Setup)
    ensures ServedToB(FlipSetup(s)) == RequestsOfA(s)[..ServedCount(RequestsOfA(s))]
  {
    FlippedInventories(s);
  }

  lemma HeadAtLeast(events: Events, g: GroupId, a: PeerId, n: nat)
    requires forall i :: 1 <= i <= n ==> Held(events, g, a, i)
    ensures n <= HeadOf(events, g, a)
  {
    HeadOfExactly(events, g, a);
  }

  lemma GapFilled(s: Setup, later: Events, g: GroupId, a: PeerId, n: int)
    requires Enriched(s, later) && g in Shared(s) && |RequestsOfA(s)| <= MAX_REQUESTS
    requires 1 <= n <= Max(HeadOf(s.a0.events, g, a), HeadOf(s.b0.events, g, a))
    ensures Held(later, g, a, n)
  {
    HeadOfExactly(s.a0.events, g, a);
    HeadOfExactly(s.b0.events, g, a);
    ServedToA(s);
    InventoriesAre(s);
    hide Enriched, ServedToB, MissingRanges, InventoryA, InventoryB, Total, Shared;
    RequestsCoverTheGap(s.a0.events, s.b0.events, Shared(s), InventoryA(s), InventoryB(s), g, a, n);
    if n > HeadOf(s.a0.events, g, a) {
      var r :| r in RequestsOfA(s) && Asks(r, g, a, n);
      AskedAndSent(s, later, r, n);
    } else {
      StaysHeld(s, later, g, a, n);
    }
  }

  lemma StaysHeld(s: Setup, later: Events, g: GroupId, a: PeerId, n: int)
    requires Enriched(s, later) && Held(s.a0.events, g, a, n)
    ensures Held(later, g, a, n)
  {
  }

  /** With at most 10,000 requests, one session brings every head of a shared group
      up to at least the greater of the two earlier heads. */
  lemma HeadsReachTheMaximum(s: Setup, later: Events, g: GroupId, a: PeerId)
    requires Enriched(s, later) && g in Shared(s) && |RequestsOfA(s)| <= MAX_REQUESTS
    ensures Max(HeadOf(s.a0.events, g, a), HeadOf(s.b0.events, g, a)) <= HeadOf(later, g, a)
  {
    hide Enriched, RequestsOfA, Shared, HeadOf;
    var max := Max(HeadOf(s.a0.events, g, a), HeadOf(s.b0.events, g, a));
    forall n | 1 <= n <= max
      ensures Held(later, g, a, n)
    {
      GapFilled(s, later, g, a, n);
    }
    HeadAtLeast(later, g, a, max);
  }

  /** Even when the number of requests is cut to 10,000, a session in which b is
      ahead somewhere brings a an event that it lacked. */
  lemma BehindMeansGrowth(s: Setup, later: Events, g: GroupId, a: PeerId)
    requires Enriched(s, later) && g in Shared(s)
    requires HeadOf(s.a0.events, g, a) < HeadOf(s.b0.events, g, a)
    ensures exists k :: k in later && k !in s.a0.events
  {
    HeadOfExactly(s.b0.events, g, a);
    ServedToA(s);
    InventoriesAre(s);
    hide Enriched, ServedToB, MissingRanges, InventoryA, InventoryB, Total, Shared, HeadOf;
    var wanted := RangeRequest(g, a, HeadOf(s.a0.events, g, a) + 1, HeadOf(s.b0.events, g, a));
    RequestsExactly(s.a0.events, s.b0.events, Shared(s), InventoryA(s), InventoryB(s), wanted);
    RequestsSound(s.a0.events, s.b0.events, Shared(s), InventoryA(s), InventoryB(s));
    var r := RequestsOfA(s)[0];
    assert r == ServedToB(FlipSetup(s))[0];
    AskedAndSent(s, later, r, r.first);
    assert EventKey(r.group, r.author, r.first) in later;
  }

  /** One completed session under any schedule: side a has lost nothing, gained only
      events of b, and, if its requests were not cut, holds at least the greater of
      the two heads of every author of a shared group. The same holds of side b,
      whose session is the flipped one. */
  lemma OneSession(s: Setup, moves: seq<Move>, g: GroupId, a: PeerId)
    requires Ready(s) && CanRun(Init(s), moves) && g in Shared(s)
    requires Run(Init(s), moves).a.phase.Live? && Run(Init(s), moves).b.phase.Live?
    ensures var later := Run(Init(s), moves).a.db.events;
            && Enriched(s, later)
            && (|RequestsOfA(s)| <= MAX_REQUESTS ==>
                Max(HeadOf(s.a0.events, g, a), HeadOf(s.b0.events, g, a)) <= HeadOf(later, g, a))
  {
    hide Ready, CanRun, Run, Init, Stuck, BothFit, Completed, Enriched, Shared, HeadOf, RequestsOfA;
    SessionCompletesExactly(s, moves);
    var x := Run(Init(s), moves).a;
    CompletedEnriches(s, x);
    if |RequestsOfA(s)| <= MAX_REQUESTS {
      HeadsReachTheMaximum(s, x.db.events, g, a);
    }
  }

  // ---------------------------------------------------------------- session after session

  /** The events of two stores together. */
  function Both(s: Setup): Events {
    s.a0.events + s.b0.events
  }

  /** Neither side blocks an author of whom either store holds an event in a
      shared group. */
  ghost predicate Unblocked(s: Setup) {
    forall k :: k in Both(s) && k.group in Shared(s) ==> k.author !in s.a0.blocked && k.author !in s.b0.blocked
  }

  /** t is the start of a next session, after a session from s under some schedule;
      its hellos are new, from the same two peers. */
  ghost predicate Follows(s: Setup, t: Setup) {
    && VerifyHello(t.ha).Ok? && VerifyHello(t.hb).Ok?
    && t.ha.body.peer == s.ha.body.peer && t.hb.body.peer == s.hb.body.peer
    && exists moves :: CanRun(Init(s), moves) && EndsAt(Run(Init(s), moves), t.a0, t.b0)
  }

  predicate EndsAt(net: Net, a: Db, b: Db) {
    net.a.phase.Live? && net.b.phase.Live? && net.a.db == a && net.b.db == b
  }

  /** From a ready start in which all that is asked for fits, there is a next session
      to follow. */
  lemma NextSessionExists(s: Setup)
    requires Ready(s) && BothFit(s)
    ensures exists t :: Follows(s, t)
  {
    InitInv(s);
    var moves := Finish(s, Init(s));
    var net := Run(Init(s), moves);
    assert HonestSide(s) && HonestSide(FlipSetup(s));
    hide Run, CanRun, Init, BothFit;
    assert EndsAt(net, net.a.db, net.b.db);
    assert Follows(s, Setup(net.a.db, net.b.db, s.ha, s.hb));
  }

  /** What one session makes of side a. */
  ghost predicate Synced(s: Setup, a: Db) {
    && ValidDb(a) && a.groups == s.a0.groups && a.blocked == s.a0.blocked
    && ChannelsFrom(s, a.channels) && Enriched(s, a.events)
  }

  lemma FollowsSyncs(s: Setup, t: Setup)
    requires Ready(s) && Follows(s, t)
    ensures Synced(s, t.a0) && Synced(FlipSetup(s), t.b0)
    ensures Shared(t) == Shared(s)
  {
    var moves :| CanRun(Init(s), moves) && EndsAt(Run(Init(s), moves), t.a0, t.b0);
    var net := Run(Init(s), moves);
    InitInv(s);
    SessionSafety.RunKeeps(s, Init(s), moves);
    hide Inv, Ready, Run, CanRun, Enriched;
    CompletedLeft(s, net);
    CompletedEnriches(s, net.a);
    InvFlips(s, net);
    ReadyFlips(s);
    CompletedLeft(FlipSetup(s), Flip(net));
    CompletedEnriches(FlipSetup(s), net.b);
  }

  /** All of x, and nothing but events of x and y. */
  ghost predicate Between(x: Events, y: Events, later: Events) {
    && (forall k :: k in x ==> k in later && later[k] == x[k])
    && (forall k :: k in later && k !in x ==> k in y && later[k] == y[k])
  }

  lemma SameUnion(x: Events, y: Events, p: Events, q: Events)
    requires Agree(x, y) && Between(x, y, p) && Between(y, x, q)
    ensures p + q == x + y && Agree(p, q)
  {
  }

  /** A session never changes what the two stores hold together. */
  lemma UnionUnchanged(s: Setup, t: Setup)
    requires Ready(s) && Follows(s, t)
    ensures Both(t) == Both(s) && Agree(t.a0.events, t.b0.events)
  {
    FollowsSyncs(s, t);
    EnrichedBetween(s, t.a0.events);
    EnrichedBetween(FlipSetup(s), t.b0.events);
    hide Follows, HonestSide, Synced, Shared, ChannelsAgree, Between, Agree;
    SameUnion(s.a0.events, s.b0.events, t.a0.events, t.b0.events);
  }

  lemma EnrichedBetween(s: Setup, later: Events)
    requires Enriched(s, later)
    ensures Between(s.a0.events, s.b0.events, later)
  {
  }

  lemma HonestAgain(s: Setup, t: Setup)
    requires Ready(s) && Unblocked(s) && Follows(s, t)
    ensures HonestSide(t)
  {
    FollowsSyncs(s, t);
    UnionUnchanged(s, t);
    hide Follows, Shared, Total, ChannelsAgree, ChannelsFrom, ValidDb;
    forall k | k in t.b0.events && k.group in Shared(t)
      ensures k.author !in t.a0.blocked
    {
      assert k in Both(t);
    }
    forall k | k in t.a0.events && k.group in Shared(t)
      ensures CiphertextLen(t.a0.events[k].ciphertext) <= U64_MAX
    {
      assert k in s.a0.events || k in s.b0.events;
    }
  }

  lemma FollowsFlips(s: Setup, t: Setup)
    requires Ready(s) && Follows(s, t)
    ensures Ready(FlipSetup(s)) && Follows(FlipSetup(s), FlipSetup(t))
  {
    ReadyFlips(s);
    var moves :| CanRun(Init(s), moves) && EndsAt(Run(Init(s), moves), t.a0, t.b0);
    FlippedRun(Init(s), moves);
    hide Run, CanRun;
    assert Flip(Init(s)) == Init(FlipSetup(s));
    assert CanRun(Init(FlipSetup(s)), Mirror(moves));
  }

  function Mirror(moves: seq<Move>): seq<Move> {
    if moves == [] then [] else [moves[0].(left := !moves[0].left)] + Mirror(moves[1..])
  }

  lemma {:induction false} FlippedRun(net: Net, moves: seq<Move>)
    requires CanRun(net, moves)
    ensures CanRun(Flip(net), Mirror(moves)) && Run(Flip(net), Mirror(moves)) == Flip(Run(net, moves))
    decreases |moves|
  {
    hide StepLeft, EnabledLeft;
    if moves != [] {
      var m := moves[0].(left := !moves[0].left);
      assert Enabled(Flip(net), m) && Step(Flip(net), m) == Flip(Step(net, moves[0]));
      FlippedRun(Step(net, moves[0]), moves[1..]);
      assert Mirror(moves)[1..] == Mirror(moves[1..]) && Mirror(moves)[0] == m;
    }
  }

  lemma ChannelsAgreeAgain(s: Setup, t: Setup)
    requires Ready(s) && Follows(s, t)
    ensures ChannelsAgree(t.a0.channels, t.b0.channels)
  {
    FollowsSyncs(s, t);
    hide Follows, HonestSide, ValidDb, Enriched, Shared, Agree;
  }

  /** The stores after a session are ready for the next. */
  lemma ReadyAgain(s: Setup, t: Setup)
    requires Ready(s) && Unblocked(s) && Follows(s, t)
    ensures Ready(t) && Unblocked(t)
  {
    HonestAgain(s, t);
    FollowsFlips(s, t);
    BothFlips(s);
    SharedFlips(s);
    HonestAgain(FlipSetup(s), FlipSetup(t));
    FollowsSyncs(s, t);
    UnionUnchanged(s, t);
    ChannelsAgreeAgain(s, t);
    hide Follows, Enriched, HonestSide, ValidDb, Agree, ChannelsAgree, Shared, ChannelsFrom;
  }

  lemma BothFlips(s: Setup)
    requires Ready(s)
    ensures Both(FlipSetup(s)) == Both(s)
  {
    hide HonestSide, Shared;
  }

  // ---------------------------------------------------------------- counting

  /** How many events the two stores lack of what they hold together. */
  function Missing(s: Setup): nat {
    BothCounts(s.a0.events, s.b0.events);
    2 * |Both(s)| - |s.a0.events| - |s.b0.events|
  }

  lemma BothCounts(x: Events, y: Events)
    ensures |x| <= |x + y| && |y| <= |x + y|
  {
    SubsetCounts(x.Keys, (x + y).Keys);
    SubsetCounts(y.Keys, (x + y).Keys);
  }

  lemma {:induction false} SubsetCounts<T>(x: set<T>, y: set<T>)
    requires x <= y
    ensures |x| <= |y|
    ensures |x| == |y| ==> x == y
  {
    if x != {} {
      var e :| e in x;
      SubsetCounts(x - {e}, y - {e});
    }
  }

  /** The heads of both stores are equal for every author of a shared group. */
  ghost predicate Level(s: Setup) {
    forall g, a :: g in Shared(s) ==> HeadOf(s.a0.events, g, a) == HeadOf(s.b0.events, g, a)
  }

  lemma GrowthCounts(x: Events, y: Events, later: Events)
    requires Between(x, y, later)
    ensures |x| <= |later|
    ensures (exists k :: k in later && k !in x) ==> |x| < |later|
  {
    SubsetCounts(x.Keys, later.Keys);
    if k :| k in later && k !in x {
      assert k in later.Keys && k !in x.Keys;
    }
  }

  /** Every session between stores with unequal heads leaves fewer events missing. */
  lemma MissingFalls(s: Setup, t: Setup)
    requires Ready(s) && Follows(s, t)
    ensures Missing(t) <= Missing(s)
    ensures !Level(s) ==> Missing(t) < Missing(s)
  {
    FollowsSyncs(s, t);
    UnionUnchanged(s, t);
    EnrichedBetween(s, t.a0.events);
    EnrichedBetween(FlipSetup(s), t.b0.events);
    hide Follows, Ready, Between, Enriched, HeadOf, Both;
    GrowthCounts(s.a0.events, s.b0.events, t.a0.events);
    GrowthCounts(s.b0.events, s.a0.events, t.b0.events);
    if !Level(s) {
      var g, a :| g in Shared(s) && HeadOf(s.a0.events, g, a) != HeadOf(s.b0.events, g, a);
      if HeadOf(s.a0.events, g, a) < HeadOf(s.b0.events, g, a) {
        BehindMeansGrowth(s, t.a0.events, g, a);
      } else {
        SharedFlips(s);
        BehindMeansGrowth(FlipSetup(s), t.b0.events, g, a);
      }
    }
  }

  lemma NothingAsked(s: Setup, later: Events)
    requires Level(s) && Enriched(s, later)
    ensures later == s.a0.events
  {
    InventoriesAre(s);
    ServedToA(s);
    hide MissingRanges, InventoryA, InventoryB, Shared, HeadOf;
    var requests := RequestsOfA(s);
    if requests != [] {
      RequestsExactly(s.a0.events, s.b0.events, Shared(s), InventoryA(s), InventoryB(s), requests[0]);
    }
    assert Total(FlipSetup(s)) == [];
  }

  /** Between stores with equal heads a session changes no event. */
  lemma LevelIsStable(s: Setup, t: Setup)
    requires Ready(s) && Follows(s, t) && Level(s)
    ensures t.a0.events == s.a0.events && t.b0.events == s.b0.events && Level(t)
  {
    FollowsSyncs(s, t);
    SharedFlips(s);
    hide Follows, Ready, Enriched, HeadOf, Shared;
    assert Level(FlipSetup(s));
    NothingAsked(s, t.a0.events);
    NothingAsked(FlipSetup(s), t.b0.events);
  }

  lemma NothingMissing(s: Setup)
    requires Agree(s.a0.events, s.b0.events) && Missing(s) == 0
    ensures Level(s)
  {
    BothCounts(s.a0.events, s.b0.events);
    SubsetCounts(s.a0.events.Keys, Both(s).Keys);
    SubsetCounts(s.b0.events.Keys, Both(s).Keys);
    assert s.a0.events.Keys == s.b0.events.Keys;
    assert s.a0.events == s.b0.events;
  }

  /** Where both heads are equal, they are the head of the union. */
  lemma LevelHeadIsUnionHead(s: Setup, g: GroupId, a: PeerId)
    requires HeadOf(s.a0.events, g, a) == HeadOf(s.b0.events, g, a)
    ensures HeadOf(Both(s), g, a) == HeadOf(s.a0.events, g, a)
  {
    HeadOfExactly(s.a0.events, g, a);
    HeadOfExactly(s.b0.events, g, a);
    var h := HeadOf(s.a0.events, g, a);
    forall i | 1 <= i <= h
      ensures Held(Both(s), g, a, i)
    {
      assert Held(s.a0.events, g, a, i);
    }
    HeadOfIs(Both(s), g, a, h);
  }

  /** Sessions of the same two peers, one after the other. */
  ghost predicate Chain(ss: seq<Setup>) {
    ss != [] && (|ss| > 1 ==> Follows(ss[0], ss[1]) && Chain(ss[1..]))
  }

  /** Every event of a shared group fits a frame under any name. */
  ghost predicate AllSendable(s: Setup) {
    forall k :: k in Both(s) && k.group in Shared(s) ==> Sendable(FromRow(k, Both(s)[k]))
  }

  lemma SendableHalfFits(s: Setup)
    requires Ready(s) && AllSendable(s)
    ensures ServedFit(s)
  {
    assert ValidDb(s.a0);
    BothIsLeft(s);
    hide Ready, Both, Total, NamesOf, ValidDb, Sendable, Shared;
    forall e | e in Total(s)
      ensures FitsFrame(s, e)
    {
      TotalIsStored(s, e);
      assert e == FromRow(KeyOf(e), Both(s)[KeyOf(e)]);
      NamesAreShort(s, e.header.author);
      SingleBatchFits(SentAs(s, e));
    }
  }

  lemma BothIsLeft(s: Setup)
    requires Ready(s)
    ensures forall k :: k in s.a0.events ==> k in Both(s) && Both(s)[k] == s.a0.events[k]
  {
    hide HonestSide, Shared, ChannelsAgree;
  }

  lemma NamesAreShort(s: Setup, p: PeerId)
    requires ValidDb(s.a0)
    ensures ByteLen(AuthorName(NamesOf(s), p)) <= 192
  {
    RememberKeeps(s.a0, s.hb.body.peer, s.hb.body.displayName);
    hide ValidDb, RememberPeer;
    NameIsAddressable(NamesOf(s), p);
  }

  lemma SendableFits(s: Setup)
    requires Ready(s) && AllSendable(s)
    ensures BothFit(s)
  {
    ReadyFlips(s);
    BothFlips(s);
    SharedFlips(s);
    hide Ready, Both, Shared, Sendable, ServedFit;
    SendableHalfFits(s);
    SendableHalfFits(FlipSetup(s));
  }

  lemma SendableAgain(s: Setup, t: Setup)
    requires Ready(s) && AllSendable(s) && Follows(s, t)
    ensures AllSendable(t)
  {
    UnionUnchanged(s, t);
    FollowsSyncs(s, t);
    hide Ready, Both, Shared, Sendable, Follows, Synced;
  }

  /** From a ready start whose events fit there are chains of sessions of any length. */
  lemma {:induction false} ChainExists(s: Setup, n: nat) returns (ss: seq<Setup>)
    requires Ready(s) && Unblocked(s) && AllSendable(s)
    ensures Chain(ss) && |ss| == n + 1 && ss[0] == s
    decreases n
  {
    hide Ready, Unblocked, Follows, AllSendable, BothFit;
    if n == 0 {
      ss := [s];
    } else {
      SendableFits(s);
      NextSessionExists(s);
      var t :| Follows(s, t);
      ReadyAgain(s, t);
      SendableAgain(s, t);
      var rest := ChainExists(t, n - 1);
      ss := [s] + rest;
      assert ss[1..] == rest;
    }
  }

  lemma {:induction false} ChainLevels(ss: seq<Setup>)
    requires Chain(ss) && Ready(ss[0]) && Unblocked(ss[0])
    requires Level(ss[0]) || Missing(ss[0]) < |ss|
    ensures var last := ss[|ss| - 1];
            Level(last) && Both(last) == Both(ss[0]) && Shared(last) == Shared(ss[0])
    decreases |ss|
  {
    hide Ready, Unblocked, Follows, Level, Both, Missing, Shared;
    if |ss| == 1 {
      if !Level(ss[0]) {
        AgreeOf(ss[0]);
        NothingMissing(ss[0]);
      }
    } else {
      ReadyAgain(ss[0], ss[1]);
      UnionUnchanged(ss[0], ss[1]);
      FollowsSyncs(ss[0], ss[1]);
      MissingFalls(ss[0], ss[1]);
      if Level(ss[0]) {
        LevelIsStable(ss[0], ss[1]);
      }
      ChainLevels(ss[1..]);
    }
  }

  lemma AgreeOf(s: Setup)
    requires Ready(s)
    ensures Agree(s.a0.events, s.b0.events)
  {
  }

  /** Repeated sessions converge: after as many sessions as events are missing at
      first, under any schedules and with any number of requests cut, both heads of
      every author of a shared group equal the contiguous head of what the two
      stores held together at first. */
  lemma SessionsConverge(ss: seq<Setup>, g: GroupId, a: PeerId)
    requires Chain(ss) && Ready(ss[0]) && Unblocked(ss[0]) && Missing(ss[0]) < |ss| && g in Shared(ss[0])
    ensures var last := ss[|ss| - 1];
            HeadOf(last.a0.events, g, a) == HeadOf(last.b0.events, g, a) == HeadOf(Both(ss[0]), g, a)
  {
    hide Chain, Ready, Unblocked, Missing, HeadOf, Both, Shared;
    ChainLevels(ss);
    LevelHeadIsUnionHead(ss[|ss| - 1], g, a);
  }
}
