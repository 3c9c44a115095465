/** The store object (src/store.rs): five tables that its methods update in place.
    Each method is tied to the table functions of module Tables. */
module EventStore {
  import opened Base
  import opened Text
  import opened Model
  import opened Crypto
  import opened Ordering
  import opened Tables
  import opened Runs
  import opened Timeline
  import opened Inventory

  // ---------------------------------------------------------------- the fold over sorted rows

  /** SELECT author, author_sequence ... ORDER BY author, author_sequence. */
  function SequenceRows(events: Events, group: GroupId): (rows: seq<SortKey>) {
    Sort(set k | k in events && k.group == group :: SortKey(0, k.author, k.sequence, group))
  }

  ghost function PrefixSequences(rows: seq<SortKey>, n: nat, author: PeerId): set<int>
    requires n <= |rows|
  {
    set j | 0 <= j < n && rows[j].second == author :: rows[j].third
  }

  ghost function PrefixAuthors(rows: seq<SortKey>, n: nat): set<PeerId>
    requires n <= |rows|
  {
    set j | 0 <= j < n :: rows[j].second
  }

  lemma RowsExactly(events: Events, group: GroupId)
    ensures var rows := SequenceRows(events, group);
            && Ascending(rows)
            && (forall i :: 0 <= i < |rows| ==>
                  && rows[i].first == 0 && rows[i].fourth == group && rows[i].text == ""
                  && Held(events, group, rows[i].second, rows[i].third))
            && PrefixAuthors(rows, |rows|) == Authors(events, group)
            && (forall a :: PrefixSequences(rows, |rows|, a) == AuthorSequences(events, group, a))
  {
    var keys := set k | k in events && k.group == group :: SortKey(0, k.author, k.sequence, group);
    var rows := SequenceRows(events, group);
    SortCorrect(keys);
    hide Sort, Head;
    forall i | 0 <= i < |rows|
      ensures rows[i].first == 0 && rows[i].fourth == group && rows[i].text == ""
      ensures Held(events, group, rows[i].second, rows[i].third)
    {
      assert rows[i] in keys;
    }
    forall k | k in events && k.group == group
      ensures exists i :: 0 <= i < |rows| && rows[i].second == k.author && rows[i].third == k.sequence
    {
      assert SortKey(0, k.author, k.sequence, group) in keys;
      var i :| 0 <= i < |rows| && rows[i] == SortKey(0, k.author, k.sequence, group);
    }
    forall i | 0 <= i < |rows|
      ensures rows[i].second in Authors(events, group)
    {
      HeldHasAuthor(events, group, rows[i].second, rows[i].third);
    }
    forall a
      ensures PrefixSequences(rows, |rows|, a) == AuthorSequences(events, group, a)
    {
      forall n
        ensures n in PrefixSequences(rows, |rows|, a) <==> n in AuthorSequences(events, group, a)
      {
        SequencesAreHeld(events, group, a, n);
      }
    }
  }

  /** Adding a number above all others moves the head only if it is the next one. */
  lemma HeadStep(s: set<int>, x: int)
    requires forall y :: y in s ==> y < x
    requires 0 < x
    ensures Head(s + {x}) == if x == Head(s) + 1 then x else Head(s)
  {
    var h := Head(s);
    assert h >= 1 ==> h in s;
    HeadUnique(s + {x}, if x == h + 1 then x else h);
  }

  lemma PrefixStep(events: Events, group: GroupId, rows: seq<SortKey>, n: nat, a: PeerId)
    requires rows == SequenceRows(events, group) && n < |rows|
    ensures a != rows[n].second ==> PrefixSequences(rows, n + 1, a) == PrefixSequences(rows, n, a)
    ensures PrefixSequences(rows, n + 1, rows[n].second) == PrefixSequences(rows, n, rows[n].second) + {rows[n].third}
    ensures PrefixAuthors(rows, n + 1) == PrefixAuthors(rows, n) + {rows[n].second}
    ensures forall y :: y in PrefixSequences(rows, n, rows[n].second) ==> y < rows[n].third
    ensures 0 < rows[n].third
  {
    RowsExactly(events, group);
    forall j | 0 <= j < n && rows[j].second == rows[n].second
      ensures rows[j].third < rows[n].third
    {
      assert Before(rows[j], rows[n]);
    }
  }

  /** After n rows: a head for exactly the authors met, each contiguous so far. */
  ghost predicate FoldState(rows: seq<SortKey>, n: nat, contiguous: map<PeerId, U64>)
    requires n <= |rows|
  {
    && contiguous.Keys == PrefixAuthors(rows, n)
    && (forall a :: a in contiguous ==> contiguous[a] == Head(PrefixSequences(rows, n, a)))
  }

  lemma NotYetMet(rows: seq<SortKey>, n: nat, author: PeerId)
    requires n <= |rows| && author !in PrefixAuthors(rows, n)
    ensures Head(PrefixSequences(rows, n, author)) == 0
  {
    assert PrefixSequences(rows, n, author) == {};
    HeadUnique({}, 0);
  }

  lemma FoldStep(events: Events, group: GroupId, rows: seq<SortKey>, n: nat, contiguous: map<PeerId, U64>)
    requires rows == SequenceRows(events, group) && n < |rows|
    requires FoldState(rows, n, contiguous)
    ensures var author, sequence := rows[n].second, rows[n].third;
            var head: U64 := if author in contiguous then contiguous[author] else 0;
            && 0 < sequence <= I64_MAX
            && FoldState(rows, n + 1, contiguous[author := if sequence == head + 1 then sequence else head])
  {
    var author, sequence := rows[n].second, rows[n].third;
    RowsExactly(events, group);
    PrefixStep(events, group, rows, n, author);
    HeadStep(PrefixSequences(rows, n, author), sequence);
    if author !in contiguous {
      NotYetMet(rows, n, author);
    }
    forall a | a in contiguous && a != author
      ensures contiguous[a] == Head(PrefixSequences(rows, n + 1, a))
    {
      PrefixStep(events, group, rows, n, a);
    }
  }

  /** The entries of an ordered map, as inventory heads. */
  function HeadList(contiguous: map<PeerId, U64>, order: seq<SortKey>): seq<AuthorHead>
    requires forall i :: 0 <= i < |order| ==> order[i].second in contiguous
  {
    if order == [] then []
    else [AuthorHead(order[0].second, contiguous[order[0].second])] + HeadList(contiguous, order[1..])
  }

  /** On the heads that the fold found, listing its map is listing the heads. */
  lemma {:induction false} HeadListIs(events: Events, group: GroupId, contiguous: map<PeerId, U64>, order: seq<SortKey>)
    requires forall i :: 0 <= i < |order| ==>
               order[i].second in contiguous && contiguous[order[i].second] == HeadOf(events, group, order[i].second)
    ensures HeadList(contiguous, order) == HeadsInOrder(events, group, order)
  {
    if order != [] {
      assert forall i :: 0 <= i < |order[1..]| ==> order[1..][i] == order[i + 1];
      HeadListIs(events, group, contiguous, order[1..]);
    }
  }

  function Reversed<T>(xs: seq<T>): seq<T> {
    seq(|xs|, i requires 0 <= i < |xs| => xs[|xs| - 1 - i])
  }

  /** Opens the rows of a channel, one entry each; on a valid store none is refused. */
  method OpenRows(db: Db, channel: ChannelId, rows: seq<SortKey>) returns (r: Result<seq<TimelineEntry>>)
    requires ValidDb(db) && channel in db.channels
    requires forall i :: 0 <= i < |rows| ==> SortsEvent(db.events, channel, rows[i])
    ensures r.Ok? && |r.value| == |rows|
    ensures forall i :: 0 <= i < |rows| ==> r.value[i] == EntryAt(db, channel, rows[i])
  {
    var secret := SecretOf(db, channel);
    var entries: seq<TimelineEntry> := [];
    for i := 0 to |rows|
      invariant |entries| == i
      invariant forall j :: 0 <= j < i ==> entries[j] == EntryAt(db, channel, rows[j])
    {
      ChannelEventsOpen(db, channel, rows[i]);
      var event := EventAt(db, channel, rows[i]);
      match ValidateAndOpenEvent(event, secret) {
        case Err(error) =>
          return Err(error);
        case Ok(payload) =>
          entries := entries + [TimelineEntry(event, NameAt(db, rows[i]), payload)];
      }
    }
    return Ok(entries);
  }

  /** Rows read from the latest on and then reversed are what is shown. */
  lemma DescendingIsShown(db: Db, channel: ChannelId, limit: nat, entries: seq<TimelineEntry>)
    requires ValidDb(db) && channel in db.channels
    requires |entries| == ShownCount(db.events, channel, limit)
    requires var order := ChannelOrder(db.events, channel);
             forall j :: 0 <= j < |entries| ==> entries[j] == EntryAt(db, channel, order[|order| - 1 - j])
    ensures Reversed(entries) == Shown(db, channel, limit)
  {
    hide Sort, ChannelOrder, ValidDb;
    var order, shown := ChannelOrder(db.events, channel), Shown(db, channel, limit);
    assert |shown| == |entries|;
    forall i | 0 <= i < |entries|
      ensures Reversed(entries)[i] == shown[i]
    {
      assert ShownOrder(db.events, channel, limit)[i] == order[|order| - |entries| + i];
    }
  }

  // ---------------------------------------------------------------- the store

  class Store {
    var groups: map<GroupId, GroupRow>
    var channels: map<ChannelId, ChannelRow>
    var events: Events
    var peers: map<PeerId, string>
    var blocked: set<PeerId>

    function Contents(): Db
      reads this
    {
      Db(groups, channels, events, peers, blocked)
    }

    ghost predicate Valid()
      reads this
    {
      ValidDb(Contents())
    }

    constructor ()
      ensures Valid() && Contents() == EMPTY_DB
    {
      groups, channels, events, peers, blocked := map[], map[], map[], map[], {};
    }

    method CreateGroup(group: GroupId, name: string, secret: Secret, now: I64, channel: ChannelId)
      returns (r: Result<(GroupRow, Channel)>)
      requires Valid()
      modifies this
      ensures Valid() && Contents() == Apply(old(Contents()), DoCreateGroup(group, name, secret, now, channel))
      ensures r.Ok? <==> group !in old(groups) && channel !in old(channels)
      ensures match r
              case Ok((row, general)) =>
                     group in groups && groups[group] == row && general == Channel(channel, group, "general", 0)
              case Err(error) => error == ConstraintViolation
    {
      ApplyKeeps(Contents(), DoCreateGroup(group, name, secret, now, channel));
      if group in groups || channel in channels {
        return Err(ConstraintViolation);
      }
      var row := GroupRow(CleanLabel(name, "New group", 64), secret, now);
      var general := Channel(channel, group, "general", 0);
      groups := groups[group := row];
      channels := channels[channel := ChannelRow(group, general.name, general.position)];
      return Ok((row, general));
    }

    method CreateChannel(group: GroupId, channel: ChannelId, name: string) returns (r: Result<Channel>)
      requires Valid()
      modifies this
      ensures Valid() && Contents() == Apply(old(Contents()), DoCreateChannel(group, channel, name))
      ensures match Tables.CreateChannel(old(Contents()), group, channel, name)
              case Ok(_) => r == Ok(Channel(channel, group, name, NextPosition(old(Contents()), group)))
              case Err(error) => r == Err(error)
    {
      ApplyKeeps(Contents(), DoCreateChannel(group, channel, name));
      var position := NextPosition(Contents(), group);
      if !(0 <= position < U32_LIMIT) {
        return Err(IntegerOutOfRange);
      }
      if group !in groups || channel in channels {
        return Err(ConstraintViolation);
      }
      channels := channels[channel := ChannelRow(group, name, position)];
      return Ok(Channel(channel, group, name, position));
    }

    method MergeChannel(channel: Channel) returns (r: Result<bool>)
      requires Valid()
      modifies this
      ensures Valid() && Contents() == Apply(old(Contents()), DoMergeChannel(channel))
      ensures r == if channel.group in old(groups) then Ok(channel.id !in old(channels)) else Err(UnknownGroup)
    {
      ApplyKeeps(Contents(), DoMergeChannel(channel));
      if channel.group !in groups {
        return Err(UnknownGroup);
      }
      if channel.id in channels {
        return Ok(false);
      }
      channels := channels[channel.id :=
        ChannelRow(channel.group, CleanLabel(channel.name, "channel", 64), channel.position)];
      return Ok(true);
    }

    method ImportInvite(invite: GroupInvite) returns (r: Result<GroupInvite>)
      requires Valid()
      modifies this
      ensures Valid() && Contents() == Apply(old(Contents()), DoImportInvite(invite))
      ensures match Tables.ImportInvite(old(Contents()), invite)
              case Ok(_) => r == Ok(invite)
              case Err(error) => r == Err(error)
    {
      ghost var before := Contents();
      ApplyKeeps(before, DoImportInvite(invite));
      var body := invite.body;
      var verified := VerifyInvite(invite);
      if verified.Err? {
        return Err(verified.error);
      }
      if body.channels == [] {
        return Err(NoChannels);
      }
      if body.group in groups {
        if groups[body.group].secret != body.secret {
          return Err(KeyConflict);
        }
      } else {
        groups := groups[body.group :=
          GroupRow(CleanLabel(body.groupName, "Imported group", 64), body.secret, body.createdAt)];
      }
      ghost var joined := Contents();
      for i := 0 to |body.channels|
        invariant groups == joined.groups && events == joined.events
        invariant peers == joined.peers && blocked == joined.blocked
        invariant AddInviteChannels(joined, body.group, body.channels) ==
                  AddInviteChannels(Contents(), body.group, body.channels[i..])
      {
        var c := body.channels[i];
        if c.id !in channels {
          channels := channels[c.id := ChannelRow(body.group, CleanLabel(c.name, "channel", 64), c.position)];
        }
        assert body.channels[i..][1..] == body.channels[i + 1..];
      }
      peers := peers[body.inviter := CleanLabel(body.inviterName, "Inviter", 48)];
      return Ok(invite);
    }

    method Append(identity: Identity, channel: ChannelId, payload: MessagePayload, nonce: Nonce, now: I64)
      returns (r: Result<EventEnvelope>)
      requires Valid()
      modifies this
      ensures Valid() && Contents() == Apply(old(Contents()), DoAppend(identity, channel, payload, nonce, now))
      ensures match Tables.Append(old(Contents()), identity, channel, payload, nonce, now)
              case Ok((_, event)) => r == Ok(event)
              case Err(error) => r == Err(error)
    {
      ApplyKeeps(Contents(), DoAppend(identity, channel, payload, nonce, now));
      AppendSucceedsExactly(Contents(), identity, channel, payload, nonce, now);
      var valid := payload.Validate();
      if valid.Err? {
        return Err(valid.error);
      }
      if channel !in channels {
        return Err(UnknownChannel);
      }
      var group := channels[channel].group;
      var secret := groups[group].secret;
      var next := NextSequence(Contents(), group, identity.peer);
      if !(0 < next <= I64_MAX) {
        return Err(IntegerOutOfRange);
      }
      var event := SealEvent(identity.peer, group, channel, secret, next, now, nonce, payload).value;
      events := events[KeyOf(event) := ToRow(event)];
      peers := peers[identity.peer := identity.DisplayName()];
      return Ok(event);
    }

    method InsertRemoteEvent(event: EventEnvelope, authorName: string) returns (r: Result<bool>)
      requires Valid()
      modifies this
      ensures Valid()
      ensures match InsertRemote(old(Contents()), event, authorName)
              case Ok((later, added)) => Contents() == later && r == Ok(added)
              case Err(error) => Contents() == old(Contents()) && r == Err(error)
      ensures r.Ok? <==> Acceptable(old(Contents()), event) && AgreesWith(old(events), event)
      ensures r.Ok? ==> (r.value <==> |events| == |old(events)| + 1) && (!r.value ==> events == old(events))
    {
      hide ValidDb, Extends;
      ghost var before := Contents();
      InsertRemoteExactly(before, event, authorName);
      var h := event.header;
      if h.author in blocked {
        return Err(AuthorBlocked);
      }
      if h.group !in groups {
        return Err(UnknownGroup);
      }
      var payloadOrError := ValidateAndOpenEvent(event, groups[h.group].secret);
      if payloadOrError.Err? {
        return Err(payloadOrError.error);
      }
      if !(h.channel in channels && channels[h.channel].group == h.group) {
        return Err(UnknownChannel);
      }
      if h.sequence > I64_MAX {
        return Err(IntegerOutOfRange);
      }
      if h.sequence == 0 {
        return Err(ConstraintViolation);
      }
      if KeyOf(event) in events {
        if events[KeyOf(event)].id != h.id {
          return Err(Equivocation);
        }
        return Ok(false);
      }
      events := events[KeyOf(event) := ToRow(event)];
      peers := peers[h.author := CleanLabel(authorName, "Unknown peer", 48)];
      assert Contents() == InsertRemote(before, event, authorName).value.0;
      return Ok(true);
    }

    method BlockPeer(peer: PeerId)
      requires Valid()
      modifies this
      ensures Valid() && Contents() == Apply(old(Contents()), DoBlock(peer))
    {
      ApplyKeeps(Contents(), DoBlock(peer));
      blocked := blocked + {peer};
    }

    method UnblockPeer(peer: PeerId)
      requires Valid()
      modifies this
      ensures Valid() && Contents() == Apply(old(Contents()), DoUnblock(peer))
    {
      ApplyKeeps(Contents(), DoUnblock(peer));
      blocked := blocked - {peer};
    }

    method RememberPeer(peer: PeerId, name: string)
      requires Valid()
      modifies this
      ensures Valid() && Contents() == Apply(old(Contents()), DoRememberPeer(peer, name))
    {
      ApplyKeeps(Contents(), DoRememberPeer(peer, name));
      peers := peers[peer := CleanLabel(name, "Unknown peer", 48)];
    }

    /** The fold of one group: the contiguous head of each author that has any
        event there, found by one pass over rows sorted by author and sequence. */
    method GroupHeads(group: GroupId) returns (heads: seq<AuthorHead>)
      ensures heads == InventoryOf(events, group).heads
    {
      var rows := SequenceRows(events, group);
      var contiguous: map<PeerId, U64> := map[];
      for n := 0 to |rows|
        invariant FoldState(rows, n, contiguous)
      {
        FoldStep(events, group, rows, n, contiguous);
        var author, sequence := rows[n].second, rows[n].third;
        var head := if author in contiguous then contiguous[author] else 0;
        if sequence == SaturatingSucc(head) {
          head := sequence;
        }
        contiguous := contiguous[author := head];
      }
      RowsExactly(events, group);
      var order := AuthorOrder(contiguous.Keys);
      heads := HeadList(contiguous, order);
      HeadListIs(events, group, contiguous, order);
    }

    /** The inventories, and what they mean: for every group and every author with
        any event there, the greatest n such that 1..n are all stored. */
    method Inventories() returns (result: seq<GroupInventory>)
      ensures result == InventoriesOf(groups, events)
      ensures AreInventories(events, groups.Keys, result)
    {
      result := [];
      var list := GroupList(groups);
      for i := 0 to |list|
        invariant result == InventoriesFor(events, list[..i])
      {
        var heads := GroupHeads(list[i]);
        result := result + [GroupInventory(list[i], heads)];
        assert list[..i + 1] == list[..i] + [list[i]];
      }
      assert list[..|list|] == list;
      InventoriesOfCorrect(groups, events);
    }

    method Timeline(channel: ChannelId, limit: nat) returns (r: Result<seq<TimelineEntry>>)
      requires Valid()
      ensures r == if channel in channels then Ok(Shown(Contents(), channel, limit)) else Err(UnknownChannel)
    {
      var db := Contents();
      if channel !in db.channels {
        return Err(UnknownChannel);
      }
      var order := ChannelOrder(db.events, channel);
      var count := Min(Min(limit, MAX_SHOWN), |order|);
      // ORDER BY ... DESC LIMIT count
      var rows := Reversed(order)[..count];
      var openings := OpenRows(db, channel, rows);
      match openings {
        case Err(error) =>
          return Err(error);
        case Ok(entries) =>
          DescendingIsShown(db, channel, limit, entries);
          return Ok(Reversed(entries));
      }
    }
  }
}
