/** Inventories and the requests that two of them give rise to
    (src/store.rs, inventories; src/network.rs, missing_ranges). */
module Inventory {
  import opened Base
  import opened Model
  import opened Ordering
  import opened Tables

  datatype RangeRequest = RangeRequest(group: GroupId, author: PeerId, first: U64, last: U64)

  // ---------------------------------------------------------------- inventories

  function Authors(events: Events, group: GroupId): set<PeerId> {
    set k | k in events && k.group == group :: k.author
  }

  lemma HeldHasAuthor(events: Events, group: GroupId, author: PeerId, n: int)
    requires Held(events, group, author, n)
    ensures author in Authors(events, group)
  {
    var k := EventKey(group, author, n);
    assert k in events && k.author == author;
  }

  /** Each of the authors once, with the contiguous head of that author. */
  predicate AreHeads(events: Events, group: GroupId, authors: set<PeerId>, heads: seq<AuthorHead>) {
    if heads == [] then authors == {}
    else
      && heads[0].author in authors
      && heads[0].sequence == HeadOf(events, group, heads[0].author)
      && AreHeads(events, group, authors - {heads[0].author}, heads[1..])
  }

  /** One inventory for each of the groups, in any order, each listing exactly the
      authors of any event of its group. */
  predicate AreInventories(events: Events, groups: set<GroupId>, inventories: seq<GroupInventory>) {
    if inventories == [] then groups == {}
    else
      && inventories[0].group in groups
      && AreHeads(events, inventories[0].group, Authors(events, inventories[0].group), inventories[0].heads)
      && AreInventories(events, groups - {inventories[0].group}, inventories[1..])
  }

  lemma {:induction false} HeadsExactly(events: Events, group: GroupId, authors: set<PeerId>, heads: seq<AuthorHead>,
                                        h: AuthorHead)
    requires AreHeads(events, group, authors, heads)
    ensures h in heads <==> h.author in authors && h.sequence == HeadOf(events, group, h.author)
  {
    if heads != [] {
      HeadsExactly(events, group, authors - {heads[0].author}, heads[1..], h);
      assert h in heads <==> h == heads[0] || h in heads[1..];
    }
  }

  /** Read as a relation, the inventories of a store say of each of the groups and
      each author with any event there: n is advertised exactly when n is the
      greatest number such that 1..n are all stored. */
  lemma {:induction false} InventoriesExactly(events: Events, groups: set<GroupId>, inventories: seq<GroupInventory>,
                                              g: GroupId, h: AuthorHead)
    requires AreInventories(events, groups, inventories)
    ensures (exists v :: v in inventories && v.group == g && h in v.heads) <==>
            && g in groups && h.author in Authors(events, g)
            && (forall i :: 1 <= i <= h.sequence ==> Held(events, g, h.author, i))
            && !Held(events, g, h.author, h.sequence + 1)
  {
    HeadOfExactly(events, g, h.author);
    if (forall i :: 1 <= i <= h.sequence ==> Held(events, g, h.author, i)) &&
      !Held(events, g, h.author, h.sequence + 1) {
      HeadOfIs(events, g, h.author, h.sequence);
    }
    InventoriesList(events, groups, inventories, g, h);
  }

  lemma {:induction false} InventoriesList(events: Events, groups: set<GroupId>, inventories: seq<GroupInventory>,
                                           g: GroupId, h: AuthorHead)
    requires AreInventories(events, groups, inventories)
    ensures (exists v :: v in inventories && v.group == g && h in v.heads) <==>
            g in groups && h.author in Authors(events, g) && h.sequence == HeadOf(events, g, h.author)
  {
    if inventories != [] {
      var first, rest := inventories[0], inventories[1..];
      InventoriesList(events, groups - {first.group}, rest, g, h);
      HeadsExactly(events, first.group, Authors(events, first.group), first.heads, h);
      assert forall v :: v in inventories <==> v == first || v in rest;
      if g == first.group && h in first.heads {
        assert first in inventories;
      }
    }
  }

  function Restrict(inventories: seq<GroupInventory>, groups: set<GroupId>): seq<GroupInventory> {
    if inventories == [] then []
    else (if inventories[0].group in groups then [inventories[0]] else []) + Restrict(inventories[1..], groups)
  }

  lemma {:induction false} RestrictInventories(events: Events, all: set<GroupId>, inventories: seq<GroupInventory>,
                                               groups: set<GroupId>)
    requires AreInventories(events, all, inventories)
    ensures AreInventories(events, all * groups, Restrict(inventories, groups))
  {
    if inventories != [] {
      var first, rest := inventories[0], inventories[1..];
      RestrictInventories(events, all - {first.group}, rest, groups);
      var tail := Restrict(rest, groups);
      if first.group in groups {
        assert (all - {first.group}) * groups == all * groups - {first.group};
        assert ([first] + tail)[1..] == tail;
      } else {
        assert (all - {first.group}) * groups == all * groups;
        assert Restrict(inventories, groups) == tail;
      }
    }
  }

  /** The keys of an ordered map, in order. */
  function AuthorOrder(authors: set<PeerId>): (order: seq<SortKey>)
    ensures forall i :: 0 <= i < |order| ==> order[i].second in authors
  {
    var keys := set a | a in authors :: SortKey(0, a, 0, 0);
    SortCorrect(keys);
    assert forall i :: 0 <= i < |Sort(keys)| ==> Sort(keys)[i] in keys;
    Sort(keys)
  }

  ghost function Seconds(order: seq<SortKey>): (s: set<PeerId>)
    ensures forall i :: 0 <= i < |order| ==> order[i].second in s
    ensures forall a :: a in s ==> exists i :: 0 <= i < |order| && order[i].second == a
  {
    if order == [] then {}
    else
      assert forall i :: 1 <= i < |order| ==> order[i] == order[1..][i - 1];
      {order[0].second} + Seconds(order[1..])
  }

  lemma AuthorOrderDistinct(authors: set<PeerId>)
    ensures var order := AuthorOrder(authors);
            forall i, j :: 0 <= i < j < |order| ==> order[i].second != order[j].second
  {
    var keys := set a | a in authors :: SortKey(0, a, 0, 0);
    var order := AuthorOrder(authors);
    SortCorrect(keys);
    assert forall i :: 0 <= i < |order| ==> order[i] in keys;
    assert forall i, j :: 0 <= i < j < |order| ==> Before(order[i], order[j]);
  }

  lemma AuthorOrderComplete(authors: set<PeerId>)
    ensures Seconds(AuthorOrder(authors)) == authors
  {
    var keys := set a | a in authors :: SortKey(0, a, 0, 0);
    var order := AuthorOrder(authors);
    SortCorrect(keys);
    forall a | a in authors
      ensures a in Seconds(order)
    {
      assert SortKey(0, a, 0, 0) in order;
      var i :| 0 <= i < |order| && order[i] == SortKey(0, a, 0, 0);
      assert order[i].second in Seconds(order);
    }
  }

  function HeadsInOrder(events: Events, group: GroupId, order: seq<SortKey>): seq<AuthorHead> {
    if order == [] then []
    else
      HeadOfExactly(events, group, order[0].second);
      [AuthorHead(order[0].second, HeadOf(events, group, order[0].second))] + HeadsInOrder(events, group, order[1..])
  }

  function InventoryOf(events: Events, group: GroupId): GroupInventory {
    GroupInventory(group, HeadsInOrder(events, group, AuthorOrder(Authors(events, group))))
  }

  function InventoriesFor(events: Events, list: seq<GroupId>): seq<GroupInventory> {
    seq(|list|, i requires 0 <= i < |list| => InventoryOf(events, list[i]))
  }

  /** The inventories of a store: every group, every author with an event there. */
  function InventoriesOf(groups: map<GroupId, GroupRow>, events: Events): seq<GroupInventory> {
    InventoriesFor(events, GroupList(groups))
  }

  lemma {:induction false} HeadsInOrderCorrect(events: Events, group: GroupId, order: seq<SortKey>)
    requires forall i, j :: 0 <= i < j < |order| ==> order[i].second != order[j].second
    ensures AreHeads(events, group, Seconds(order), HeadsInOrder(events, group, order))
  {
    if order != [] {
      var a, rest := order[0].second, order[1..];
      assert forall i :: 0 <= i < |rest| ==> rest[i] == order[i + 1];
      HeadsInOrderCorrect(events, group, rest);
      assert Seconds(order) - {a} == Seconds(rest);
    }
  }

  lemma {:induction false} InventoriesForCorrect(events: Events, groups: set<GroupId>, list: seq<GroupId>)
    requires forall g :: g in list <==> g in groups
    requires forall i, j :: 0 <= i < j < |list| ==> list[i] != list[j]
    ensures AreInventories(events, groups, InventoriesFor(events, list))
    decreases |list|
  {
    if list != [] {
      var g, rest := list[0], list[1..];
      assert g in list;
      assert forall h :: h in list <==> h == g || h in rest;
      assert forall i :: 0 <= i < |rest| ==> rest[i] == list[i + 1];
      InventoriesForCorrect(events, groups - {g}, rest);
      AuthorOrderDistinct(Authors(events, g));
      AuthorOrderComplete(Authors(events, g));
      HeadsInOrderCorrect(events, g, AuthorOrder(Authors(events, g)));
      assert InventoriesFor(events, list)[1..] == InventoriesFor(events, rest);
    } else {
      assert groups == set g | g in groups && g in list;
    }
  }

  lemma InventoriesOfCorrect(groups: map<GroupId, GroupRow>, events: Events)
    ensures AreInventories(events, groups.Keys, InventoriesOf(groups, events))
  {
    GroupListMembers(groups);
    GroupListDistinct(groups);
    InventoriesForCorrect(events, groups.Keys, GroupList(groups));
  }

  // ---------------------------------------------------------------- requests

  type HeadMap = map<(GroupId, PeerId), U64>

  function HeadsInto(heads: HeadMap, group: GroupId, list: seq<AuthorHead>): HeadMap
    decreases |list|
  {
    if list == [] then heads
    else HeadsInto(heads[(group, list[0].author) := list[0].sequence], group, list[1..])
  }

  /** Collecting pairs into a map: the last of two equal keys stays. */
  function LocalHeads(heads: HeadMap, inventories: seq<GroupInventory>): HeadMap
    decreases |inventories|
  {
    if inventories == [] then heads
    else LocalHeads(HeadsInto(heads, inventories[0].group, inventories[0].heads), inventories[1..])
  }

  function LocalHead(heads: HeadMap, group: GroupId, author: PeerId): U64 {
    if (group, author) in heads then heads[(group, author)] else 0
  }

  function GroupRequests(heads: HeadMap, group: GroupId, list: seq<AuthorHead>): seq<RangeRequest> {
    if list == [] then []
    else
      var local := LocalHead(heads, group, list[0].author);
      (if list[0].sequence > local
       then [RangeRequest(group, list[0].author, SaturatingSucc(local), list[0].sequence)]
       else [])
      + GroupRequests(heads, group, list[1..])
  }

  function AllRequests(heads: HeadMap, remote: seq<GroupInventory>): seq<RangeRequest> {
    if remote == [] then []
    else GroupRequests(heads, remote[0].group, remote[0].heads) + AllRequests(heads, remote[1..])
  }

  function MissingRanges(local: seq<GroupInventory>, remote: seq<GroupInventory>): seq<RangeRequest> {
    AllRequests(LocalHeads(map[], local), remote)
  }

  // ---------------------------------------------------------------- reading a map of heads

  lemma {:induction false} HeadsIntoReads(events: Events, group: GroupId, authors: set<PeerId>, list: seq<AuthorHead>,
                                          heads: HeadMap, g: GroupId, a: PeerId)
    requires AreHeads(events, group, authors, list)
    ensures LocalHead(HeadsInto(heads, group, list), g, a) ==
            if g == group && a in authors then HeadOf(events, g, a) else LocalHead(heads, g, a)
    decreases |list|
  {
    if list != [] {
      HeadsIntoReads(events, group, authors - {list[0].author}, list[1..],
                     heads[(group, list[0].author) := list[0].sequence], g, a);
    }
  }

  /** Read through the map of heads, a store's own inventories give its heads. */
  lemma {:induction false} LocalHeadsRead(events: Events, groups: set<GroupId>, inventories: seq<GroupInventory>,
                                          heads: HeadMap, g: GroupId, a: PeerId)
    requires AreInventories(events, groups, inventories)
    ensures LocalHead(LocalHeads(heads, inventories), g, a) ==
            if g in groups && a in Authors(events, g) then HeadOf(events, g, a) else LocalHead(heads, g, a)
    decreases |inventories|
  {
    if inventories != [] {
      var first := inventories[0];
      HeadsIntoReads(events, first.group, Authors(events, first.group), first.heads, heads, g, a);
      LocalHeadsRead(events, groups - {first.group}, inventories[1..],
                     HeadsInto(heads, first.group, first.heads), g, a);
    }
  }

  lemma NoAuthorNoHead(events: Events, group: GroupId, author: PeerId)
    requires author !in Authors(events, group)
    ensures HeadOf(events, group, author) == 0
  {
    HeadOfExactly(events, group, author);
    if HeadOf(events, group, author) > 0 {
      HeldHasAuthor(events, group, author, 1);
    }
  }

  lemma {:induction false} GroupRequestsMembers(heads: HeadMap, group: GroupId, list: seq<AuthorHead>, r: RangeRequest)
    ensures r in GroupRequests(heads, group, list) <==>
            && r.group == group && LocalHead(heads, group, r.author) < r.last
            && r.first == LocalHead(heads, group, r.author) + 1
            && AuthorHead(r.author, r.last) in list
  {
    if list != [] {
      GroupRequestsMembers(heads, group, list[1..], r);
      assert forall h :: h in list <==> h == list[0] || h in list[1..];
    }
  }

  /** The request for one author of one group that two stores give rise to. */
  ghost predicate Wanted(local: Events, remote: Events, groups: set<GroupId>, r: RangeRequest) {
    && r.group in groups
    && HeadOf(local, r.group, r.author) < HeadOf(remote, r.group, r.author)
    && r.first == HeadOf(local, r.group, r.author) + 1
    && r.last == HeadOf(remote, r.group, r.author)
  }

  lemma {:induction false} AllRequestsMembers(events: Events, groups: set<GroupId>, heads: HeadMap,
                                              remote: seq<GroupInventory>, r: RangeRequest)
    requires AreInventories(events, groups, remote)
    ensures r in AllRequests(heads, remote) <==>
            && r.group in groups && r.author in Authors(events, r.group)
            && LocalHead(heads, r.group, r.author) < r.last
            && r.first == LocalHead(heads, r.group, r.author) + 1
            && r.last == HeadOf(events, r.group, r.author)
  {
    if remote != [] {
      var first := remote[0];
      AllRequestsMembers(events, groups - {first.group}, heads, remote[1..], r);
      GroupRequestsMembers(heads, first.group, first.heads, r);
      HeadsExactly(events, first.group, Authors(events, first.group), first.heads, AuthorHead(r.author, r.last));
    }
  }

  /** The requests are exactly one for each shared group and author where the
      remote head is ahead, from the local head's successor to the remote head. */
  lemma RequestsExactly(local: Events, remote: Events, groups: set<GroupId>,
                        li: seq<GroupInventory>, ri: seq<GroupInventory>, r: RangeRequest)
    requires AreInventories(local, groups, li) && AreInventories(remote, groups, ri)
    ensures r in MissingRanges(li, ri) <==> Wanted(local, remote, groups, r)
  {
    LocalHeadsRead(local, groups, li, map[], r.group, r.author);
    AllRequestsMembers(remote, groups, LocalHeads(map[], li), ri, r);
    if r.author !in Authors(local, r.group) {
      NoAuthorNoHead(local, r.group, r.author);
    }
    if r.author !in Authors(remote, r.group) {
      NoAuthorNoHead(remote, r.group, r.author);
    }
  }

  ghost predicate DistinctTargets(rs: seq<RangeRequest>) {
    forall i, j :: 0 <= i < j < |rs| ==> (rs[i].group, rs[i].author) != (rs[j].group, rs[j].author)
  }

  lemma {:induction false} GroupRequestsDistinct(events: Events, group: GroupId, authors: set<PeerId>,
                                                 heads: HeadMap, list: seq<AuthorHead>)
    requires AreHeads(events, group, authors, list)
    ensures DistinctTargets(GroupRequests(heads, group, list))
    ensures forall r :: r in GroupRequests(heads, group, list) ==> r.group == group && r.author in authors
  {
    if list != [] {
      GroupRequestsDistinct(events, group, authors - {list[0].author}, heads, list[1..]);
      var rest := GroupRequests(heads, group, list[1..]);
      assert forall j :: 0 <= j < |rest| ==> rest[j] in rest;
    }
  }

  /** No two requests are for the same author of the same group. */
  lemma {:induction false} RequestsDistinct(events: Events, groups: set<GroupId>, heads: HeadMap,
                                            remote: seq<GroupInventory>)
    requires AreInventories(events, groups, remote)
    ensures DistinctTargets(AllRequests(heads, remote))
    ensures forall r :: r in AllRequests(heads, remote) ==> r.group in groups
  {
    if remote != [] {
      var first := remote[0];
      RequestsDistinct(events, groups - {first.group}, heads, remote[1..]);
      GroupRequestsDistinct(events, first.group, Authors(events, first.group), heads, first.heads);
      var xs, ys := GroupRequests(heads, first.group, first.heads), AllRequests(heads, remote[1..]);
      assert forall i :: 0 <= i < |xs| ==> xs[i] in xs;
      assert forall j :: 0 <= j < |ys| ==> ys[j] in ys;
    }
  }

  predicate Asks(r: RangeRequest, group: GroupId, author: PeerId, n: int) {
    r.group == group && r.author == author && r.first <= n <= r.last
  }

  /** What the requests of a session ask for: pairwise disjoint ranges of positive
      sequences of shared groups, each starting at one that the local store lacks,
      and all of them held by the remote store. */
  lemma RequestsSound(local: Events, remote: Events, groups: set<GroupId>,
                      li: seq<GroupInventory>, ri: seq<GroupInventory>)
    requires AreInventories(local, groups, li) && AreInventories(remote, groups, ri)
    ensures var rs := MissingRanges(li, ri);
            && (forall i :: 0 <= i < |rs| ==> 0 < rs[i].first <= rs[i].last <= I64_MAX && rs[i].group in groups)
            && (forall i :: 0 <= i < |rs| ==> !Held(local, rs[i].group, rs[i].author, rs[i].first))
            && (forall i, n :: 0 <= i < |rs| && rs[i].first <= n <= rs[i].last ==>
                  Held(remote, rs[i].group, rs[i].author, n))
            && DistinctTargets(rs)
  {
    var rs := MissingRanges(li, ri);
    RequestsDistinct(remote, groups, LocalHeads(map[], li), ri);
    forall i | 0 <= i < |rs|
      ensures 0 < rs[i].first <= rs[i].last <= I64_MAX && rs[i].group in groups
      ensures !Held(local, rs[i].group, rs[i].author, rs[i].first)
      ensures forall n :: rs[i].first <= n <= rs[i].last ==> Held(remote, rs[i].group, rs[i].author, n)
    {
      RequestsExactly(local, remote, groups, li, ri, rs[i]);
      HeadOfExactly(local, rs[i].group, rs[i].author);
      HeadOfExactly(remote, rs[i].group, rs[i].author);
    }
  }

  /** Together with the local prefix, the requests cover exactly 1..max of the two
      heads of every author of every shared group. */
  lemma RequestsCoverTheGap(local: Events, remote: Events, groups: set<GroupId>,
                            li: seq<GroupInventory>, ri: seq<GroupInventory>, g: GroupId, a: PeerId, n: int)
    requires AreInventories(local, groups, li) && AreInventories(remote, groups, ri)
    requires g in groups
    ensures (1 <= n <= HeadOf(local, g, a) || exists r :: r in MissingRanges(li, ri) && Asks(r, g, a, n))
            <==> 1 <= n <= Max(HeadOf(local, g, a), HeadOf(remote, g, a))
  {
    HeadOfExactly(remote, g, a);
    if r :| r in MissingRanges(li, ri) && Asks(r, g, a, n) {
      RequestsExactly(local, remote, groups, li, ri, r);
    }
    if HeadOf(local, g, a) < n <= HeadOf(remote, g, a) {
      var r := RangeRequest(g, a, HeadOf(local, g, a) + 1, HeadOf(remote, g, a));
      RequestsExactly(local, remote, groups, li, ri, r);
      assert Asks(r, g, a, n);
    }
  }
}
