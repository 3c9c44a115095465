/** Sessions between many nodes: where repeated sessions over the edges of a graph
    end. */
module Cluster {
  import opened Base
  import opened Tables
  import opened Wire
  import opened Transfer
  import opened Session
  import opened SessionProof
  import opened SessionSafety
  import opened Convergence

  type Nodes = map<PeerId, Db>

  type Edge = (PeerId, PeerId)

  /** One completed session of p with q: s is its start, t holds the stores after it. */
  datatype Visit = Visit(p: PeerId, q: PeerId, s: Setup, t: Setup) {
    function At(): Edge {
      (p, q)
    }
  }

  ghost predicate CanVisit(c: Nodes, v: Visit) {
    && v.p in c && v.q in c && v.p != v.q
    && v.s.a0 == c[v.p] && v.s.b0 == c[v.q]
    && v.s.ha.body.peer == v.p && v.s.hb.body.peer == v.q
    && VerifyHello(v.s.ha).Ok? && VerifyHello(v.s.hb).Ok?
    && Shared(v.s) != {} && Follows(v.s, v.t)
  }

  function After(c: Nodes, v: Visit): Nodes {
    c[v.p := v.t.a0][v.q := v.t.b0]
  }

  ghost predicate CanVisitAll(c: Nodes, vs: seq<Visit>)
    decreases |vs|
  {
    vs == [] || (CanVisit(c, vs[0]) && CanVisitAll(After(c, vs[0]), vs[1..]))
  }

  function VisitAll(c: Nodes, vs: seq<Visit>): Nodes
    decreases |vs|
  {
    if vs == [] then c else VisitAll(After(c, vs[0]), vs[1..])
  }

  // ---------------------------------------------------------------- what the nodes hold together

  /** A valid store with some of these events, and channels in these groups. */
  ghost predicate Member(db: Db, all: Events, homes: map<ChannelId, GroupId>) {
    && ValidDb(db) && Included(db.events, all)
    && (forall c :: c in db.channels ==> c in homes && homes[c] == db.channels[c].group)
  }

  ghost predicate HeldBySome(c: Nodes, k: EventKey) {
    exists p :: p in c && k in c[p].events
  }

  ghost predicate Open(c: Nodes, all: Events) {
    && (forall p, k :: p in c && k in all ==> k.author !in c[p].blocked)
    && (forall p, q :: p in c && q in c ==> q !in c[p].blocked)
  }

  /** `all` is what the nodes hold together; no two stores disagree on an event or on
      the group of a channel, and no node blocks another or an author. */
  ghost predicate Gathered(c: Nodes, all: Events, homes: map<ChannelId, GroupId>) {
    && (forall p :: p in c ==> Member(c[p], all, homes))
    && (forall k :: k in all ==> HeldBySome(c, k))
    && (forall k :: k in all ==> CiphertextLen(all[k].ciphertext) <= U64_MAX)
    && Open(c, all)
  }

  /** A store after sessions: the same groups and blocks, and no event less. */
  ghost predicate Grown(db: Db, later: Db) {
    later.groups == db.groups && later.blocked == db.blocked && Included(db.events, later.events)
  }

  ghost predicate AllGrown(c: Nodes, d: Nodes) {
    d.Keys == c.Keys && forall p :: p in c ==> Grown(c[p], d[p])
  }

  lemma StartIsHonest(c: Nodes, e: Edge, s: Setup, all: Events, homes: map<ChannelId, GroupId>)
    requires Gathered(c, all, homes) && e.0 in c && e.1 in c
    requires s.a0 == c[e.0] && s.b0 == c[e.1] && s.hb.body.peer == e.1 && VerifyHello(s.ha).Ok?
    ensures HonestSide(s)
  {
    assert Member(c[e.0], all, homes) && Member(c[e.1], all, homes);
    hide ValidDb, VerifyHello, Shared, HeldBySome;
  }

  lemma MembersAgree(x: Db, y: Db, all: Events, homes: map<ChannelId, GroupId>)
    requires Member(x, all, homes) && Member(y, all, homes)
    ensures Agree(x.events, y.events) && ChannelsAgree(x.channels, y.channels)
  {
    hide ValidDb;
  }

  lemma StartIsReady(c: Nodes, e: Edge, s: Setup, all: Events, homes: map<ChannelId, GroupId>)
    requires Gathered(c, all, homes) && e.0 in c && e.1 in c && e.0 != e.1
    requires s.a0 == c[e.0] && s.b0 == c[e.1] && s.ha.body.peer == e.0 && s.hb.body.peer == e.1
    requires VerifyHello(s.ha).Ok? && VerifyHello(s.hb).Ok? && Shared(s) != {}
    ensures Ready(s)
  {
    hide Member, VerifyHello, Shared, HonestSide, HeldBySome, Open, Agree, ChannelsAgree;
    StartIsHonest(c, e, s, all, homes);
    StartIsHonest(c, (e.1, e.0), FlipSetup(s), all, homes);
    MembersAgree(c[e.0], c[e.1], all, homes);
  }

  lemma VisitIsReady(c: Nodes, v: Visit, all: Events, homes: map<ChannelId, GroupId>)
    requires Gathered(c, all, homes) && CanVisit(c, v)
    ensures Ready(v.s)
  {
    hide Gathered, Ready, Follows, VerifyHello, Shared;
    StartIsReady(c, v.At(), v.s, all, homes);
  }

  lemma SyncedMember(s: Setup, later: Db, all: Events, homes: map<ChannelId, GroupId>)
    requires Member(s.a0, all, homes) && Member(s.b0, all, homes) && Synced(s, later)
    ensures Member(later, all, homes) && Grown(s.a0, later)
  {
    hide ValidDb, Total;
  }

  /** Larger stores of the same events are together what the smaller were. */
  lemma GatheredStays(c: Nodes, d: Nodes, all: Events, homes: map<ChannelId, GroupId>)
    requires Gathered(c, all, homes) && AllGrown(c, d)
    requires forall p :: p in d ==> Member(d[p], all, homes)
    ensures Gathered(d, all, homes)
  {
    hide Member;
    forall k | k in all
      ensures HeldBySome(d, k)
    {
      var p :| p in c && k in c[p].events;
      assert Grown(c[p], d[p]) && k in d[p].events;
    }
    forall p | p in d
      ensures d[p].blocked == c[p].blocked
    {
      assert Grown(c[p], d[p]);
    }
  }

  lemma TwoGrown(c: Nodes, p: PeerId, x: Db, q: PeerId, y: Db)
    requires p in c && q in c && p != q && Grown(c[p], x) && Grown(c[q], y)
    ensures AllGrown(c, c[p := x][q := y])
  {
    var d := c[p := x][q := y];
    forall r | r in c
      ensures Grown(c[r], d[r])
    {
      if r != p && r != q {
        assert d[r] == c[r];
      }
    }
  }

  lemma VisitSyncs(c: Nodes, v: Visit, all: Events, homes: map<ChannelId, GroupId>)
    requires Gathered(c, all, homes) && CanVisit(c, v)
    ensures Member(v.t.a0, all, homes) && Grown(c[v.p], v.t.a0)
    ensures Member(v.t.b0, all, homes) && Grown(c[v.q], v.t.b0)
  {
    VisitIsReady(c, v, all, homes);
    hide Ready, Follows, Synced, VerifyHello, Shared, Member, Grown, Open, HeldBySome;
    FollowsSyncs(v.s, v.t);
    SyncedMember(v.s, v.t.a0, all, homes);
    SyncedMember(FlipSetup(v.s), v.t.b0, all, homes);
  }

  lemma TwoMembers(c: Nodes, p: PeerId, x: Db, q: PeerId, y: Db, all: Events, homes: map<ChannelId, GroupId>)
    requires Gathered(c, all, homes) && p in c && q in c
    requires Member(x, all, homes) && Member(y, all, homes)
    ensures var d := c[p := x][q := y]; forall r :: r in d ==> Member(d[r], all, homes)
  {
    hide Member, Open, HeldBySome;
    var d := c[p := x][q := y];
    forall r | r in d
      ensures Member(d[r], all, homes)
    {
      if r != p && r != q {
        assert d[r] == c[r];
      }
    }
  }

  lemma VisitKeeps(c: Nodes, v: Visit, all: Events, homes: map<ChannelId, GroupId>)
    requires Gathered(c, all, homes) && CanVisit(c, v)
    ensures Gathered(After(c, v), all, homes) && AllGrown(c, After(c, v))
  {
    VisitSyncs(c, v, all, homes);
    hide Gathered, Follows, VerifyHello, Shared, Member, Grown, AllGrown;
    TwoMembers(c, v.p, v.t.a0, v.q, v.t.b0, all, homes);
    TwoGrown(c, v.p, v.t.a0, v.q, v.t.b0);
    GatheredStays(c, After(c, v), all, homes);
  }

  lemma GrownItself(c: Nodes)
    ensures AllGrown(c, c)
  {
  }

  lemma GrownTwice(c: Nodes, d: Nodes, e: Nodes)
    requires AllGrown(c, d) && AllGrown(d, e)
    ensures AllGrown(c, e)
  {
    forall p | p in c
      ensures Grown(c[p], e[p])
    {
      assert Grown(c[p], d[p]) && Grown(d[p], e[p]);
    }
  }

  lemma {:induction false} VisitsKeep(c: Nodes, vs: seq<Visit>, all: Events, homes: map<ChannelId, GroupId>)
    requires Gathered(c, all, homes) && CanVisitAll(c, vs)
    ensures Gathered(VisitAll(c, vs), all, homes) && AllGrown(c, VisitAll(c, vs))
    decreases |vs|
  {
    hide Gathered, CanVisit, AllGrown;
    if vs == [] {
      GrownItself(c);
    } else {
      VisitKeeps(c, vs[0], all, homes);
      VisitsKeep(After(c, vs[0]), vs[1..], all, homes);
      GrownTwice(c, After(c, vs[0]), VisitAll(c, vs));
    }
  }

  // ---------------------------------------------------------------- counting

  /** Which of the events each node lacks. */
  function Lacks(c: Nodes, all: Events): set<(PeerId, EventKey)> {
    set p, k | p in c && k in all && k !in c[p].events :: (p, k)
  }

  lemma LacksFewer(c: Nodes, d: Nodes, all: Events)
    requires AllGrown(c, d)
    ensures Lacks(d, all) <= Lacks(c, all) && |Lacks(d, all)| <= |Lacks(c, all)|
    ensures |Lacks(d, all)| == |Lacks(c, all)| ==> Lacks(d, all) == Lacks(c, all)
  {
    forall x | x in Lacks(d, all)
      ensures x in Lacks(c, all)
    {
      assert Grown(c[x.0], d[x.0]);
    }
    SubsetCounts(Lacks(d, all), Lacks(c, all));
  }

  /** The heads of two nodes are equal for every author of a group they share. */
  ghost predicate LevelEdge(c: Nodes, e: Edge) {
    && e.0 in c && e.1 in c
    && forall g, a :: g in Common(c[e.0].groups, c[e.1].groups) ==>
      HeadOf(c[e.0].events, g, a) == HeadOf(c[e.1].events, g, a)
  }

  ghost predicate SameEvents(c: Nodes, d: Nodes) {
    d.Keys == c.Keys && forall p :: p in c ==> d[p].events == c[p].events && d[p].groups == c[p].groups
  }

  lemma LevelCarries(c: Nodes, d: Nodes, e: Edge)
    requires SameEvents(c, d)
    ensures LevelEdge(c, e) <==> LevelEdge(d, e)
  {
  }

  lemma NodeGainedNothing(c: Nodes, d: Nodes, all: Events, p: PeerId)
    requires p in c && p in d && Grown(c[p], d[p]) && Included(d[p].events, all) && Lacks(d, all) == Lacks(c, all)
    ensures d[p].events == c[p].events && d[p].groups == c[p].groups
  {
    forall k | k in d[p].events
      ensures k in c[p].events
    {
      assert (p, k) !in Lacks(d, all);
    }
  }

  /** Where nobody lacks less than before, the stores are as before. */
  lemma NothingGained(c: Nodes, d: Nodes, all: Events, homes: map<ChannelId, GroupId>)
    requires Gathered(d, all, homes) && AllGrown(c, d) && |Lacks(d, all)| == |Lacks(c, all)|
    ensures SameEvents(c, d)
  {
    LacksFewer(c, d, all);
    hide Lacks, Included, ValidDb, Open, HeldBySome;
    forall p | p in c
      ensures d[p].events == c[p].events && d[p].groups == c[p].groups
    {
      assert Grown(c[p], d[p]) && Member(d[p], all, homes);
      hide Grown, Member;
      NodeGainedNothing(c, d, all, p);
    }
  }

  /** A session between nodes with unequal heads leaves fewer events lacking. */
  lemma VisitFalls(c: Nodes, v: Visit, all: Events, homes: map<ChannelId, GroupId>)
    requires Gathered(c, all, homes) && CanVisit(c, v) && !LevelEdge(c, v.At())
    ensures |Lacks(After(c, v), all)| < |Lacks(c, all)|
  {
    var d := After(c, v);
    VisitIsReady(c, v, all, homes);
    VisitKeeps(c, v, all, homes);
    LacksFewer(c, d, all);
    if |Lacks(d, all)| == |Lacks(c, all)| {
      NothingGained(c, d, all, homes);
      assert v.t.a0.events == v.s.a0.events && v.t.b0.events == v.s.b0.events;
      hide Gathered, Follows, Ready, LevelEdge, HeadOf, Lacks, AllGrown, SameEvents;
      MissingFalls(v.s, v.t);
      LevelIsLevel(c, v);
      SameMissing(v.s, v.t);
      assert false;
    }
  }

  lemma LevelIsLevel(c: Nodes, v: Visit)
    requires CanVisit(c, v)
    ensures Level(v.s) <==> LevelEdge(c, v.At())
  {
    hide Follows, HeadOf;
  }

  lemma SameMissing(s: Setup, t: Setup)
    requires t.a0.events == s.a0.events && t.b0.events == s.b0.events
    ensures Missing(t) == Missing(s)
  {
  }

  // ---------------------------------------------------------------- rounds of visits

  predicate Linked(edges: set<Edge>, p: PeerId, q: PeerId) {
    (p, q) in edges || (q, p) in edges
  }

  predicate Visits(vs: seq<Visit>, e: Edge) {
    exists v :: v in vs && (v.At() == e || v.At() == (e.1, e.0))
  }

  /** Visits along the edges only, and along each edge at least one. */
  predicate Round(vs: seq<Visit>, edges: set<Edge>) {
    && (forall v :: v in vs ==> Linked(edges, v.p, v.q))
    && (forall e :: e in edges ==> Visits(vs, e))
  }

  ghost predicate CanRounds(c: Nodes, rounds: seq<seq<Visit>>, edges: set<Edge>)
    decreases |rounds|
  {
    rounds == [] ||
    (CanVisitAll(c, rounds[0]) && Round(rounds[0], edges) && CanRounds(VisitAll(c, rounds[0]), rounds[1..], edges))
  }

  function AfterRounds(c: Nodes, rounds: seq<seq<Visit>>): Nodes
    decreases |rounds|
  {
    if rounds == [] then c else AfterRounds(VisitAll(c, rounds[0]), rounds[1..])
  }

  ghost predicate AllLevel(c: Nodes, edges: set<Edge>) {
    forall p: PeerId, q: PeerId :: Linked(edges, p, q) ==> LevelEdge(c, (p, q))
  }

  lemma LevelBothWays(c: Nodes, p: PeerId, q: PeerId)
    requires LevelEdge(c, (p, q))
    ensures LevelEdge(c, (q, p))
  {
    hide HeadOf;
    assert Common(c[p].groups, c[q].groups) == Common(c[q].groups, c[p].groups);
  }

  lemma LevelsCarry(c: Nodes, d: Nodes, edges: set<Edge>)
    requires SameEvents(c, d) && AllLevel(c, edges)
    ensures AllLevel(d, edges)
  {
    hide LevelEdge, SameEvents;
    forall p: PeerId, q: PeerId | Linked(edges, p, q)
      ensures LevelEdge(d, (p, q))
    {
      LevelCarries(c, d, (p, q));
    }
  }

  /** Visits that leave as many events lacking as before found every edge level. */
  lemma {:induction false} VisitsFall(c: Nodes, vs: seq<Visit>, all: Events, homes: map<ChannelId, GroupId>)
    requires Gathered(c, all, homes) && CanVisitAll(c, vs)
    ensures |Lacks(VisitAll(c, vs), all)| <= |Lacks(c, all)|
    ensures |Lacks(VisitAll(c, vs), all)| == |Lacks(c, all)| ==>
              SameEvents(c, VisitAll(c, vs)) && forall v :: v in vs ==> LevelEdge(c, v.At())
    decreases |vs|
  {
    hide Gathered, CanVisit, AllGrown, SameEvents, LevelEdge, Lacks, After;
    if vs == [] {
      SameItself(c);
    } else {
      var d := After(c, vs[0]);
      VisitKeeps(c, vs[0], all, homes);
      LacksFewer(c, d, all);
      VisitsFall(d, vs[1..], all, homes);
      if |Lacks(VisitAll(c, vs), all)| == |Lacks(c, all)| {
        if !LevelEdge(c, vs[0].At()) {
          VisitFalls(c, vs[0], all, homes);
        }
        NothingGained(c, d, all, homes);
        SameTwice(c, d, VisitAll(c, vs));
        forall v | v in vs
          ensures LevelEdge(c, v.At())
        {
          if v != vs[0] {
            assert v in vs[1..];
            LevelCarries(c, d, v.At());
          }
        }
      }
    }
  }

  lemma SameItself(c: Nodes)
    ensures SameEvents(c, c)
  {
  }

  lemma SameTwice(c: Nodes, d: Nodes, e: Nodes)
    requires SameEvents(c, d) && SameEvents(d, e)
    ensures SameEvents(c, e)
  {
  }

  lemma RoundLevels(c: Nodes, vs: seq<Visit>, edges: set<Edge>)
    requires Round(vs, edges) && forall v :: v in vs ==> LevelEdge(c, v.At())
    ensures AllLevel(c, edges)
  {
    hide LevelEdge;
    forall p: PeerId, q: PeerId | Linked(edges, p, q)
      ensures LevelEdge(c, (p, q))
    {
      assert Visits(vs, if (p, q) in edges then (p, q) else (q, p));
      var v :| v in vs && (v.At() == (p, q) || v.At() == (q, p));
      if v.At() == (q, p) {
        LevelBothWays(c, q, p);
      }
    }
  }

  lemma TwoSame(c: Nodes, p: PeerId, x: Db, q: PeerId, y: Db)
    requires p in c && q in c && p != q && Grown(c[p], x) && Grown(c[q], y)
    requires x.events == c[p].events && y.events == c[q].events
    ensures SameEvents(c, c[p := x][q := y])
  {
    hide Included;
    var d := c[p := x][q := y];
    forall r | r in c
      ensures d[r].events == c[r].events && d[r].groups == c[r].groups
    {
      if r != p && r != q {
        assert d[r] == c[r];
      }
    }
  }

  lemma VisitIsStable(c: Nodes, v: Visit, all: Events, homes: map<ChannelId, GroupId>)
    requires Gathered(c, all, homes) && CanVisit(c, v) && LevelEdge(c, v.At())
    ensures SameEvents(c, After(c, v))
  {
    VisitIsReady(c, v, all, homes);
    VisitSyncs(c, v, all, homes);
    LevelIsLevel(c, v);
    hide Gathered, Follows, Ready, Grown, LevelEdge, Level, Member, VerifyHello, Shared, SameEvents;
    LevelIsStable(v.s, v.t);
    TwoSame(c, v.p, v.t.a0, v.q, v.t.b0);
  }

  /** Where every edge is level, visits along the edges change no event. */
  lemma {:induction false} VisitsAreStable(c: Nodes, vs: seq<Visit>, edges: set<Edge>, all: Events,
                                           homes: map<ChannelId, GroupId>)
    requires Gathered(c, all, homes) && CanVisitAll(c, vs) && AllLevel(c, edges)
    requires forall v :: v in vs ==> Linked(edges, v.p, v.q)
    ensures SameEvents(c, VisitAll(c, vs))
    decreases |vs|
  {
    hide Gathered, CanVisit, SameEvents, LevelEdge, After, Linked;
    if vs == [] {
      SameItself(c);
    } else {
      var d := After(c, vs[0]);
      assert LevelEdge(c, vs[0].At());
      VisitKeeps(c, vs[0], all, homes);
      VisitIsStable(c, vs[0], all, homes);
      LevelsCarry(c, d, edges);
      VisitsAreStable(d, vs[1..], edges, all, homes);
      SameTwice(c, d, VisitAll(c, vs));
    }
  }

  lemma {:induction false} RoundsLevel(c: Nodes, rounds: seq<seq<Visit>>, edges: set<Edge>, all: Events,
                                       homes: map<ChannelId, GroupId>)
    requires Gathered(c, all, homes) && CanRounds(c, rounds, edges)
    requires AllLevel(c, edges) || |Lacks(c, all)| < |rounds|
    ensures Gathered(AfterRounds(c, rounds), all, homes) && AllGrown(c, AfterRounds(c, rounds))
    ensures AllLevel(AfterRounds(c, rounds), edges)
    decreases |rounds|
  {
    hide Gathered, AllGrown, CanVisitAll, SameEvents, AllLevel, Lacks, VisitAll;
    if rounds == [] {
      GrownItself(c);
    } else {
      var d := VisitAll(c, rounds[0]);
      VisitsKeep(c, rounds[0], all, homes);
      RoundStep(c, rounds[0], edges, all, homes);
      RoundsLevel(d, rounds[1..], edges, all, homes);
      GrownTwice(c, d, AfterRounds(c, rounds));
    }
  }

  lemma RoundStep(c: Nodes, vs: seq<Visit>, edges: set<Edge>, all: Events, homes: map<ChannelId, GroupId>)
    requires Gathered(c, all, homes) && CanVisitAll(c, vs) && Round(vs, edges)
    ensures AllLevel(VisitAll(c, vs), edges) || |Lacks(VisitAll(c, vs), all)| < |Lacks(c, all)|
    ensures AllLevel(c, edges) ==> AllLevel(VisitAll(c, vs), edges)
  {
    hide Gathered, CanVisitAll, SameEvents, AllLevel, LevelEdge, Lacks, VisitAll;
    var d := VisitAll(c, vs);
    VisitsFall(c, vs, all, homes);
    if |Lacks(d, all)| == |Lacks(c, all)| {
      RoundLevels(c, vs, edges);
    }
    if AllLevel(c, edges) {
      VisitsAreStable(c, vs, edges, all, homes);
      LevelsCarry(c, d, edges);
    }
  }

  // ---------------------------------------------------------------- where the rounds end

  predicate Holder(c: Nodes, p: PeerId, g: GroupId) {
    p in c && g in c[p].groups
  }

  /** A path along the edges through nodes that have the group. */
  predicate Path(c: Nodes, edges: set<Edge>, path: seq<PeerId>, p: PeerId, q: PeerId, g: GroupId) {
    && path != [] && path[0] == p && path[|path| - 1] == q
    && (forall i :: 0 <= i < |path| ==> Holder(c, path[i], g))
    && (forall i :: 0 < i < |path| ==> Linked(edges, path[i - 1], path[i]))
  }

  /** The nodes that have the group are connected, and have it with one secret. */
  ghost predicate Connected(c: Nodes, edges: set<Edge>, g: GroupId) {
    forall p: PeerId, q: PeerId :: Holder(c, p, g) && Holder(c, q, g) ==>
      && c[p].groups[g].secret == c[q].groups[g].secret
      && exists path :: Path(c, edges, path, p, q, g)
  }

  lemma {:induction false} PathLevel(c: Nodes, edges: set<Edge>, path: seq<PeerId>, p: PeerId, q: PeerId, g: GroupId,
                                     a: PeerId)
    requires AllLevel(c, edges) && Connected(c, edges, g) && Path(c, edges, path, p, q, g)
    ensures HeadOf(c[p].events, g, a) == HeadOf(c[q].events, g, a)
    decreases |path|
  {
    hide HeadOf;
    if |path| > 1 {
      var r := path[|path| - 2];
      assert Linked(edges, path[|path| - 2], path[|path| - 1]);
      assert Holder(c, r, g) && Holder(c, q, g);
      assert LevelEdge(c, (r, q));
      PathLevel(c, edges, path[..|path| - 1], p, r, g, a);
    }
  }

  lemma HeldTogether(c: Nodes, all: Events, homes: map<ChannelId, GroupId>, g: GroupId, a: PeerId, n: int)
    requires Gathered(c, all, homes)
    ensures Held(all, g, a, n) <==> exists p :: p in c && Held(c[p].events, g, a, n)
  {
    hide ValidDb, Open;
    if Held(all, g, a, n) {
      assert HeldBySome(c, EventKey(g, a, n));
    }
    if p :| p in c && Held(c[p].events, g, a, n) {
      assert Member(c[p], all, homes);
    }
  }

  lemma HolderIfHeld(c: Nodes, all: Events, homes: map<ChannelId, GroupId>, p: PeerId, g: GroupId, a: PeerId, n: int)
    requires Gathered(c, all, homes) && p in c && Held(c[p].events, g, a, n)
    ensures Holder(c, p, g)
  {
    hide Open;
    assert Member(c[p], all, homes);
    assert RowBound(c[p], EventKey(g, a, n), c[p].events[EventKey(g, a, n)]);
  }

  /** The head that all nodes of a group have is the head of what they hold together. */
  lemma CommonHeadIsUnionHead(c: Nodes, all: Events, homes: map<ChannelId, GroupId>, p: PeerId, g: GroupId, a: PeerId)
    requires Gathered(c, all, homes) && p in c
    requires forall q :: Holder(c, q, g) ==> HeadOf(c[q].events, g, a) == HeadOf(c[p].events, g, a)
    ensures HeadOf(all, g, a) == HeadOf(c[p].events, g, a)
  {
    hide HeadOf, Gathered, Held;
    var h := HeadOf(c[p].events, g, a);
    HeadOfExactly(c[p].events, g, a);
    forall i | 1 <= i <= h
      ensures Held(all, g, a, i)
    {
      HeldTogether(c, all, homes, g, a, i);
    }
    HeldTogether(c, all, homes, g, a, h + 1);
    if q :| q in c && Held(c[q].events, g, a, h + 1) {
      HolderIfHeld(c, all, homes, q, g, a, h + 1);
      HeadOfExactly(c[q].events, g, a);
    }
    HeadOfIs(all, g, a, h);
  }

  lemma PathStays(c: Nodes, d: Nodes, edges: set<Edge>, path: seq<PeerId>, p: PeerId, q: PeerId, g: GroupId)
    requires AllGrown(c, d) && Path(c, edges, path, p, q, g)
    ensures Path(d, edges, path, p, q, g)
  {
    forall i | 0 <= i < |path|
      ensures Holder(d, path[i], g)
    {
      assert Holder(c, path[i], g) && Grown(c[path[i]], d[path[i]]);
    }
  }

  lemma ConnectedStays(c: Nodes, d: Nodes, edges: set<Edge>, g: GroupId)
    requires AllGrown(c, d) && Connected(c, edges, g)
    ensures Connected(d, edges, g)
  {
    hide Path;
    forall p: PeerId, q: PeerId | Holder(d, p, g) && Holder(d, q, g)
      ensures d[p].groups[g].secret == d[q].groups[g].secret && exists path :: Path(d, edges, path, p, q, g)
    {
      assert Grown(c[p], d[p]) && Grown(c[q], d[q]);
      assert Holder(c, p, g) && Holder(c, q, g);
      var path :| Path(c, edges, path, p, q, g);
      PathStays(c, d, edges, path, p, q, g);
    }
  }

  /** Any number of nodes converge: after more rounds of sessions along the edges than
      events were lacking at first, in any order within a round and under any schedule
      of each session, every node of a group whose nodes the edges connect has for every
      author the contiguous head of what all nodes held together at first. */
  lemma ClusterConverges(c: Nodes, rounds: seq<seq<Visit>>, edges: set<Edge>, all: Events,
                         homes: map<ChannelId, GroupId>, g: GroupId, p: PeerId, a: PeerId)
    requires Gathered(c, all, homes) && Connected(c, edges, g) && Holder(c, p, g)
    requires CanRounds(c, rounds, edges) && |Lacks(c, all)| < |rounds|
    ensures var d := AfterRounds(c, rounds); p in d && HeadOf(d[p].events, g, a) == HeadOf(all, g, a)
  {
    hide Gathered, CanRounds, AfterRounds, AllLevel, Connected, HeadOf, Path, Lacks;
    var d := AfterRounds(c, rounds);
    RoundsLevel(c, rounds, edges, all, homes);
    assert Grown(c[p], d[p]);
    ConnectedStays(c, d, edges, g);
    forall q: PeerId | Holder(d, q, g)
      ensures HeadOf(d[q].events, g, a) == HeadOf(d[p].events, g, a)
    {
      var path := PathBetween(d, edges, q, p, g);
      PathLevel(d, edges, path, q, p, g, a);
    }
    CommonHeadIsUnionHead(d, all, homes, p, g, a);
  }

  lemma PathBetween(c: Nodes, edges: set<Edge>, p: PeerId, q: PeerId, g: GroupId) returns (path: seq<PeerId>)
    requires Connected(c, edges, g) && Holder(c, p, g) && Holder(c, q, g)
    ensures Path(c, edges, path, p, q, g)
  {
    path :| Path(c, edges, path, p, q, g);
  }

  // ---------------------------------------------------------------- rounds exist

  /** A hello that each node can send. */
  ghost predicate Introduced(c: Nodes, hellos: map<PeerId, PeerHello>) {
    forall p :: p in c ==> p in hellos && VerifyHello(hellos[p]).Ok? && hellos[p].body.peer == p
  }

  ghost predicate AllFit(all: Events) {
    forall k :: k in all ==> Sendable(FromRow(k, all[k]))
  }

  /** Two different nodes with a group in common. */
  ghost predicate Meets(c: Nodes, e: Edge) {
    e.0 in c && e.1 in c && e.0 != e.1 && Common(c[e.0].groups, c[e.1].groups) != {}
  }

  lemma VisitExists(c: Nodes, e: Edge, hellos: map<PeerId, PeerHello>, all: Events, homes: map<ChannelId, GroupId>)
    returns (v: Visit)
    requires Gathered(c, all, homes) && Meets(c, e) && Introduced(c, hellos) && AllFit(all)
    ensures CanVisit(c, v) && v.At() == e
  {
    var s := Setup(c[e.0], c[e.1], hellos[e.0], hellos[e.1]);
    StartIsReady(c, e, s, all, homes);
    StartFits(c, e, s, all, homes);
    hide Gathered, Ready, AllFit, BothFit, Follows, VerifyHello, AllSendable;
    SendableFits(s);
    NextSessionExists(s);
    var t :| Follows(s, t);
    v := Visit(e.0, e.1, s, t);
  }

  lemma StartFits(c: Nodes, e: Edge, s: Setup, all: Events, homes: map<ChannelId, GroupId>)
    requires Gathered(c, all, homes) && e.0 in c && e.1 in c && AllFit(all)
    requires s.a0 == c[e.0] && s.b0 == c[e.1]
    ensures AllSendable(s)
  {
    assert Member(c[e.0], all, homes) && Member(c[e.1], all, homes);
    hide ValidDb, Shared, Sendable, HeldBySome, Open;
  }

  lemma MeetsStays(c: Nodes, d: Nodes, e: Edge)
    requires AllGrown(c, d) && Meets(c, e)
    ensures Meets(d, e)
  {
    hide Common;
    assert Grown(c[e.0], d[e.0]) && Grown(c[e.1], d[e.1]);
  }

  lemma {:induction false} VisitsExist(c: Nodes, es: seq<Edge>, hellos: map<PeerId, PeerHello>, all: Events,
                                       homes: map<ChannelId, GroupId>) returns (vs: seq<Visit>)
    requires Gathered(c, all, homes) && Introduced(c, hellos) && AllFit(all)
    requires forall e :: e in es ==> Meets(c, e)
    ensures CanVisitAll(c, vs) && |vs| == |es| && forall i :: 0 <= i < |es| ==> vs[i].At() == es[i]
    decreases |es|
  {
    hide Gathered, Meets, AllFit, CanVisit, AllGrown, After, VerifyHello;
    if es == [] {
      vs := [];
    } else {
      assert es[0] in es;
      var v := VisitExists(c, es[0], hellos, all, homes);
      VisitKeeps(c, v, all, homes);
      var d := After(c, v);
      IntroducedStays(c, d, hellos);
      forall e | e in es[1..]
        ensures Meets(d, e)
      {
        assert e in es;
        MeetsStays(c, d, e);
      }
      var rest := VisitsExist(d, es[1..], hellos, all, homes);
      vs := [v] + rest;
      assert vs[1..] == rest;
    }
  }

  lemma IntroducedStays(c: Nodes, d: Nodes, hellos: map<PeerId, PeerHello>)
    requires AllGrown(c, d) && Introduced(c, hellos)
    ensures Introduced(d, hellos)
  {
  }

  lemma {:induction false} Listed(edges: set<Edge>) returns (es: seq<Edge>)
    ensures forall e :: e in es <==> e in edges
    decreases edges
  {
    if edges == {} {
      es := [];
    } else {
      var e :| e in edges;
      var rest := Listed(edges - {e});
      es := [e] + rest;
    }
  }

  /** Where all events fit a frame there are such rounds, of any number: the sessions
      that convergence asks for can be had from every start. */
  lemma {:induction false} RoundsExist(c: Nodes, edges: set<Edge>, n: nat, hellos: map<PeerId, PeerHello>, all: Events,
                                       homes: map<ChannelId, GroupId>) returns (rounds: seq<seq<Visit>>)
    requires Gathered(c, all, homes) && Introduced(c, hellos) && AllFit(all)
    requires forall e :: e in edges ==> Meets(c, e)
    ensures CanRounds(c, rounds, edges) && |rounds| == n
    decreases n
  {
    hide Gathered, Introduced, Meets, AllFit, CanVisitAll, AllGrown, VisitAll, Round;
    if n == 0 {
      rounds := [];
    } else {
      var es := Listed(edges);
      var vs := VisitsExist(c, es, hellos, all, homes);
      RoundOfAll(edges, es, vs);
      VisitsKeep(c, vs, all, homes);
      var d := VisitAll(c, vs);
      IntroducedStays(c, d, hellos);
      forall e | e in edges
        ensures Meets(d, e)
      {
        MeetsStays(c, d, e);
      }
      var rest := RoundsExist(d, edges, n - 1, hellos, all, homes);
      rounds := [vs] + rest;
      assert rounds[1..] == rest;
    }
  }

  lemma RoundOfAll(edges: set<Edge>, es: seq<Edge>, vs: seq<Visit>)
    requires (forall e :: e in es <==> e in edges) && |vs| == |es|
    requires forall i :: 0 <= i < |es| ==> vs[i].At() == es[i]
    ensures Round(vs, edges)
  {
    forall v | v in vs
      ensures Linked(edges, v.p, v.q)
    {
      var i :| 0 <= i < |vs| && vs[i] == v;
      assert es[i] in es;
    }
    forall e | e in edges
      ensures Visits(vs, e)
    {
      assert e in es;
      var i :| 0 <= i < |es| && es[i] == e;
      assert vs[i] in vs;
    }
  }
}
