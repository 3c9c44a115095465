/** Invites: what one store builds and another imports (src/store.rs, build_invite
    and import_invite, without the text form). */
module Invites {
  import Text
  import opened Base
  import opened Model
  import opened Ordering
  import opened Tables
  import opened Runs
  import opened Delivery
  import opened Transfer
  import opened FloodDelivery

  function Described(channels: seq<Channel>): seq<InviteChannel> {
    if channels == [] then []
    else [InviteChannel(channels[0].id, channels[0].name, channels[0].position)] + Described(channels[1..])
  }

  function BuildInvite(db: Db, identity: Identity, group: GroupId, now: I64): Result<GroupInvite> {
    var _ :- Ensure(group in db.groups, UnknownGroup);
    var row := db.groups[group];
    var body := UnsignedGroupInvite(PROTOCOL_VERSION, group, row.name, row.secret,
                                    Described(ChannelList(db.channels, group)),
                                    identity.peer, identity.DisplayName(), now);
    Ok(GroupInvite(body, Signed(identity.peer, body)))
  }

  /** The first mention of a channel in an invite. */
  function FirstOf(channels: seq<InviteChannel>, c: ChannelId): Option<InviteChannel> {
    if channels == [] then None else if channels[0].id == c then Some(channels[0]) else FirstOf(channels[1..], c)
  }

  lemma {:induction false} DescribedMentions(channels: seq<Channel>, c: ChannelId)
    ensures FirstOf(Described(channels), c).Some? <==> exists channel :: channel in channels && channel.id == c
  {
    if channels != [] {
      DescribedMentions(channels[1..], c);
      assert forall d :: d in channels <==> d == channels[0] || d in channels[1..];
      assert Described(channels)[1..] == Described(channels[1..]);
    }
  }

  /** An invite mentions exactly the channels of its group. */
  lemma InviteMentions(db: Db, group: GroupId, c: ChannelId)
    ensures FirstOf(Described(ChannelList(db.channels, group)), c).Some? <==>
              c in db.channels && db.channels[c].group == group
  {
    var list := ChannelList(db.channels, group);
    DescribedMentions(list, c);
    if channel :| channel in list && channel.id == c {
      ChannelListExactly(db.channels, group, channel);
    }
    if c in db.channels && db.channels[c].group == group {
      var channel := Channel(c, group, db.channels[c].name, db.channels[c].position);
      ChannelListExactly(db.channels, group, channel);
      assert channel in list;
    }
  }

  lemma {:induction false} AddedRows(db: Db, group: GroupId, channels: seq<InviteChannel>, c: ChannelId)
    ensures var later := AddInviteChannels(db, group, channels);
            && later == db.(channels := later.channels)
            && (c in later.channels <==> c in db.channels || FirstOf(channels, c).Some?)
            && (c in db.channels ==> later.channels[c] == db.channels[c])
            && (c !in db.channels && FirstOf(channels, c).Some? ==>
                  var first := FirstOf(channels, c).value;
                  later.channels[c] == ChannelRow(group, Text.CleanLabel(first.name, "channel", 64), first.position))
    decreases |channels|
  {
    hide Text.CleanLabel;
    if channels != [] {
      var d := channels[0];
      AddedRows(AddChannel(db, Channel(d.id, group, d.name, d.position)), group, channels[1..], c);
    }
  }

  predicate HasChannel(db: Db, group: GroupId) {
    exists c :: c in db.channels && db.channels[c].group == group
  }

  /** None of the group's channel ids is known at dst under another group. */
  predicate NoChannelClash(src: Db, dst: Db, group: GroupId) {
    forall c :: c in src.channels && src.channels[c].group == group && c in dst.channels ==>
      dst.channels[c].group == group
  }

  lemma InviteAccepted(src: Db, dst: Db, identity: Identity, group: GroupId, now: I64)
    requires group in src.groups
    ensures var invite := BuildInvite(src, identity, group, now).value;
            ImportInvite(dst, invite).Ok? <==>
              HasChannel(src, group) && (group in dst.groups ==> dst.groups[group].secret == src.groups[group].secret)
  {
    var list := ChannelList(src.channels, group);
    if list != [] {
      InviteMentions(src, group, list[0].id);
    }
    if HasChannel(src, group) {
      var c :| c in src.channels && src.channels[c].group == group;
      InviteMentions(src, group, c);
    }
  }

  lemma ImportedChannels(dst: Db, invite: GroupInvite, c: ChannelId)
    requires ImportInvite(dst, invite).Ok?
    ensures var later, group := ImportInvite(dst, invite).value, invite.body.group;
            && (c in later.channels <==> c in dst.channels || FirstOf(invite.body.channels, c).Some?)
            && (c in dst.channels ==> later.channels[c] == dst.channels[c])
            && (c !in dst.channels && c in later.channels ==> later.channels[c].group == group)
            && group in later.groups && later.groups[group].secret == invite.body.secret
            && later.blocked == dst.blocked
  {
    var body := invite.body;
    var joined :=
      if body.group in dst.groups then dst
      else dst.(groups := dst.groups[body.group :=
        GroupRow(Text.CleanLabel(body.groupName, "Imported group", 64), body.secret, body.createdAt)]);
    AddedRows(joined, body.group, body.channels, c);
  }

  /** An invite that one store builds is importable elsewhere exactly when the group
      has a channel and its key does not conflict. Importing changes no event. The
      importer then has the key and all channels of the group as the inviter has
      them, exactly when no channel id of the group is known to it under another
      group. */
  lemma InviteJoins(src: Db, dst: Db, identity: Identity, group: GroupId, now: I64)
    requires ValidDb(dst) && group in src.groups
    ensures BuildInvite(src, identity, group, now).Ok?
    ensures var invite := BuildInvite(src, identity, group, now).value;
            && (ImportInvite(dst, invite).Ok? <==>
                HasChannel(src, group) &&
                  (group in dst.groups ==> dst.groups[group].secret == src.groups[group].secret))
            && (ImportInvite(dst, invite).Ok? ==>
                var later := ImportInvite(dst, invite).value;
                && ValidDb(later) && Extends(dst, later) && later.events == dst.events
                && (Welcomes(src, later, {group}) <==> NoChannelClash(src, dst, group)))
  {
    var invite := BuildInvite(src, identity, group, now).value;
    InviteAccepted(src, dst, identity, group, now);
    if ImportInvite(dst, invite).Ok? {
      ImportInviteKeeps(dst, invite);
      InviteWelcomes(src, dst, invite);
    }
  }

  lemma InviteWelcomes(src: Db, dst: Db, invite: GroupInvite)
    requires invite.body.group in src.groups && invite.body.secret == src.groups[invite.body.group].secret
    requires invite.body.channels == Described(ChannelList(src.channels, invite.body.group))
    requires ImportInvite(dst, invite).Ok?
    ensures Welcomes(src, ImportInvite(dst, invite).value, {invite.body.group}) <==>
              NoChannelClash(src, dst, invite.body.group)
  {
    hide ImportInvite, BuildInvite, ChannelList, Described;
    var group, later := invite.body.group, ImportInvite(dst, invite).value;
    ImportedChannels(dst, invite, 0);
    forall c
      ensures c in later.channels <==> c in dst.channels || (c in src.channels && src.channels[c].group == group)
      ensures c in dst.channels ==> later.channels[c] == dst.channels[c]
      ensures c !in dst.channels && c in later.channels ==> later.channels[c].group == group
    {
      ImportedChannels(dst, invite, c);
      InviteMentions(src, group, c);
    }
    if Welcomes(src, later, {group}) {
      forall c | c in src.channels && src.channels[c].group == group && c in dst.channels
        ensures dst.channels[c].group == group
      {
        assert src.channels[c].group in {group};
      }
    }
  }

  /** What the importer must not have: a block on the author, another event at the
      key, the channel of the event under another group. */
  predicate Admitted(dst: Db, e: EventEnvelope) {
    && e.header.author !in dst.blocked
    && SequenceFits(e) && AgreesWith(dst.events, e)
    && (e.header.channel in dst.channels ==> dst.channels[e.header.channel].group == e.header.group)
  }

  lemma ImportedBinds(src: Db, dst: Db, identity: Identity, group: GroupId, now: I64, e: EventEnvelope)
    requires ValidDb(src) && group in src.groups && StoredEvent(src.events, e) && e.header.group == group
    requires ImportInvite(dst, BuildInvite(src, identity, group, now).value).Ok?
    ensures var later := ImportInvite(dst, BuildInvite(src, identity, group, now).value).value;
            && later.events == dst.events && later.blocked == dst.blocked
            && e.header.version == PROTOCOL_VERSION
            && (RowBound(later, KeyOf(e), ToRow(e)) <==>
                (e.header.channel in dst.channels ==> dst.channels[e.header.channel].group == group))
  {
    var invite := BuildInvite(src, identity, group, now).value;
    assert RowBound(src, KeyOf(e), src.events[KeyOf(e)]);
    RowRoundTrip(e);
    ImportedChannels(dst, invite, e.header.channel);
    InviteMentions(src, group, e.header.channel);
    ImportKeepsEvents(dst, invite);
  }

  lemma ImportKeepsEvents(dst: Db, invite: GroupInvite)
    requires ImportInvite(dst, invite).Ok?
    ensures ImportInvite(dst, invite).value.events == dst.events
  {
    var body := invite.body;
    var joined :=
      if body.group in dst.groups then dst
      else dst.(groups := dst.groups[body.group :=
        GroupRow(Text.CleanLabel(body.groupName, "Imported group", 64), body.secret, body.createdAt)]);
    AddedRows(joined, body.group, body.channels, 0);
  }

  /** Which events of the group the importer takes from the inviter: exactly those
      whose author it does not block, that agree with what it holds, and whose
      channel it does not know under another group. */
  lemma InviteAdmitsExactly(src: Db, dst: Db, identity: Identity, group: GroupId, now: I64, e: EventEnvelope,
                            name: string)
    requires ValidDb(src) && ValidDb(dst) && group in src.groups && StoredEvent(src.events, e) &&
               e.header.group == group
    requires ImportInvite(dst, BuildInvite(src, identity, group, now).value).Ok?
    ensures InsertRemote(ImportInvite(dst, BuildInvite(src, identity, group, now).value).value, e, name).Ok? <==>
              Admitted(dst, e)
  {
    var invite := BuildInvite(src, identity, group, now).value;
    ImportInviteKeeps(dst, invite);
    ImportedBinds(src, dst, identity, group, now, e);
    hide ImportInvite, BuildInvite, ValidDb, RowBound, Extends;
    InsertRemoteExactly(ImportInvite(dst, invite).value, e, name);
  }

  lemma StoredAreConsistent(src: Events, later: Db, es: set<EventEnvelope>)
    requires forall e :: e in es ==> StoredEvent(src, e)
    ensures Deliverable(later, es) <==> forall e :: e in es ==> Acceptable(later, e) && AgreesWith(later.events, e)
  {
    hide Acceptable;
  }

  /** What holds of every event of the group that the inviter stores. */
  lemma AllAdmittedExactly(src: Db, dst: Db, identity: Identity, group: GroupId, now: I64, es: set<EventEnvelope>)
    requires ValidDb(src) && group in src.groups
    requires ImportInvite(dst, BuildInvite(src, identity, group, now).value).Ok?
    requires forall e :: e in es ==> StoredEvent(src.events, e) && e.header.group == group
    ensures forall e :: e in es ==>
              (Admitted(dst, e) <==>
               && Acceptable(ImportInvite(dst, BuildInvite(src, identity, group, now).value).value, e)
               && AgreesWith(ImportInvite(dst, BuildInvite(src, identity, group, now).value).value.events, e))
  {
    assert BuildInvite(src, identity, group, now).Ok?;
    hide ImportInvite, BuildInvite, ValidDb, RowBound;
    forall e | e in es
      ensures Admitted(dst, e) <==>
              && Acceptable(ImportInvite(dst, BuildInvite(src, identity, group, now).value).value, e)
              && AgreesWith(ImportInvite(dst, BuildInvite(src, identity, group, now).value).value.events, e)
    {
      ImportedBinds(src, dst, identity, group, now, e);
    }
  }

  /** An importer rebuilds the history of the group: any list of the inviter's
      events of the group, in any order and with any repetition, is taken whole
      exactly when each is admitted, and adds exactly these events. */
  lemma InviteRebuildsHistory(src: Db, dst: Db, identity: Identity, group: GroupId, now: I64,
                              wires: seq<WireEvent>, name: string)
    requires ValidDb(src) && ValidDb(dst) && group in src.groups
    requires ImportInvite(dst, BuildInvite(src, identity, group, now).value).Ok?
    requires forall e :: e in EventSet(wires) ==> StoredEvent(src.events, e) && e.header.group == group
    ensures var r := Deliver(ImportInvite(dst, BuildInvite(src, identity, group, now).value).value, wires, name);
            && (r.error.None? <==> forall e :: e in EventSet(wires) ==> Admitted(dst, e))
            && (r.error.None? ==> AllFit(EventSet(wires)) && IsUnion(dst.events, EventSet(wires), r.db.events))
  {
    assert BuildInvite(src, identity, group, now).Ok?;
    hide ImportInvite, BuildInvite, ValidDb, Acceptable, Admitted, Extends, Deliverable, EventSet, Deliver, AgreesWith,
         IsUnion;
    var invite := BuildInvite(src, identity, group, now).value;
    var later := ImportInvite(dst, invite).value;
    ImportInviteKeeps(dst, invite);
    AllAdmittedExactly(src, dst, identity, group, now, EventSet(wires));
    StoredAreConsistent(src.events, later, EventSet(wires));
    DeliverExactly(later, wires, name);
  }

  lemma AllOfGroup(src: Events, group: GroupId, es: set<EventEnvelope>, after: Events)
    requires forall e :: e in es <==> StoredEvent(src, e) && e.header.group == group
    requires AllFit(es) && IsUnion(map[], es, after)
    ensures forall k :: k in after <==> k in src && k.group == group
    ensures forall k :: k in after ==> after[k] == src[k]
  {
    forall k | k in src && k.group == group
      ensures k in after && after[k] == src[k]
    {
      assert StoredEvent(src, FromRow(k, src[k])) && KeyOf(FromRow(k, src[k])) == k;
      assert FromRow(k, src[k]) in es;
    }
  }

  /** A store that holds nothing rebuilds all of it. */
  lemma EmptyStoreRebuildsAll(src: Db, identity: Identity, group: GroupId, now: I64, wires: seq<WireEvent>,
                              name: string)
    requires ValidDb(src) && group in src.groups && HasChannel(src, group)
    requires forall e :: e in EventSet(wires) <==> StoredEvent(src.events, e) && e.header.group == group
    ensures ImportInvite(EMPTY_DB, BuildInvite(src, identity, group, now).value).Ok?
    ensures var r := Deliver(ImportInvite(EMPTY_DB, BuildInvite(src, identity, group, now).value).value, wires, name);
            && r.error.None?
            && (forall k :: k in r.db.events <==> k in src.events && k.group == group)
            && (forall k :: k in r.db.events ==> r.db.events[k] == src.events[k])
  {
    InviteAccepted(src, EMPTY_DB, identity, group, now);
    hide ImportInvite, BuildInvite, ValidDb, Deliver, HasChannel, EventSet, IsUnion;
    InviteRebuildsHistory(src, EMPTY_DB, identity, group, now, wires, name);
    var r := Deliver(ImportInvite(EMPTY_DB, BuildInvite(src, identity, group, now).value).value, wires, name);
    AllOfGroup(src.events, group, EventSet(wires), r.db.events);
  }

  // ---------------------------------------------------------------- column by column

  /** An invite is imported exactly when it has the version, the signature of the inviter
      it names, a channel, and no other key than the one the store has for its group. A
      new group is as the invite says; a channel that is held stays, another is as its
      first mention says; names are cleaned; events and blocks are as before. */
  lemma ImportsExactly(db: Db, invite: GroupInvite, c: ChannelId)
    ensures var body, r := invite.body, ImportInvite(db, invite);
            && (r.Ok? <==>
                && body.version == 1 && invite.signature == Signed(body.inviter, body) && body.channels != []
                && (body.group in db.groups ==> db.groups[body.group].secret == body.secret))
            && (r.Ok? ==>
                && r.value.groups ==
                     (if body.group in db.groups then db.groups
                      else db.groups[body.group :=
                             GroupRow(Text.CleanLabel(body.groupName, "Imported group", 64), body.secret,
                               body.createdAt)])
                && r.value.peers == db.peers[body.inviter := Text.CleanLabel(body.inviterName, "Inviter", 48)]
                && r.value.events == db.events && r.value.blocked == db.blocked
                && (c in r.value.channels <==> c in db.channels || FirstOf(body.channels, c).Some?)
                && (c in db.channels ==> r.value.channels[c] == db.channels[c])
                && (c !in db.channels && FirstOf(body.channels, c).Some? ==>
                      var first := FirstOf(body.channels, c).value;
                      r.value.channels[c] ==
                        ChannelRow(body.group, Text.CleanLabel(first.name, "channel", 64), first.position)))
  {
    hide Text.CleanLabel;
    var body := invite.body;
    var joined :=
      if body.group in db.groups then db
      else db.(groups := db.groups[body.group :=
        GroupRow(Text.CleanLabel(body.groupName, "Imported group", 64), body.secret, body.createdAt)]);
    AddedRows(joined, body.group, body.channels, c);
  }

  lemma {:induction false} DescribedFirst(channels: seq<Channel>, channel: Channel)
    requires channel in channels
    requires forall i, j :: 0 <= i < j < |channels| ==> channels[i].id != channels[j].id
    ensures FirstOf(Described(channels), channel.id) == Some(InviteChannel(channel.id, channel.name, channel.position))
  {
    var described := Described(channels);
    assert described[1..] == Described(channels[1..]);
    if channel != channels[0] {
      var i :| 0 < i < |channels| && channels[i] == channel;
      assert channels[1..][i - 1] == channel;
      DescribedFirst(channels[1..], channel);
    }
  }

  lemma ListedOnce(channels: map<ChannelId, ChannelRow>, group: GroupId)
    ensures var list := ChannelList(channels, group);
            forall i, j :: 0 <= i < j < |list| ==> list[i].id != list[j].id
  {
    var list := ChannelList(channels, group);
    ChannelListAscends(channels, group);
    hide ChannelList;
    forall i, j | 0 <= i < j < |list|
      ensures list[i].id != list[j].id
    {
      assert list[i] in list && list[j] in list;
      LessIsStrict(list[i].name);
      ChannelListExactly(channels, group, list[i]);
      ChannelListExactly(channels, group, list[j]);
    }
  }

  /** What a store that holds nothing has after importing an invite: the group with its
      key, each of its channels in its place, under the name it has there, cleaned, and
      the name of the inviter, cleaned once more. */
  lemma EmptyStoreCopiesTheGroup(src: Db, identity: Identity, group: GroupId, now: I64, c: ChannelId)
    requires group in src.groups && HasChannel(src, group)
    ensures var r := ImportInvite(EMPTY_DB, BuildInvite(src, identity, group, now).value);
            && r.Ok?
            && r.value.groups ==
                 map[group := GroupRow(Text.CleanLabel(src.groups[group].name, "Imported group", 64),
                                       src.groups[group].secret, now)]
            && r.value.peers ==
                 map[identity.peer := Text.CleanLabel(Text.CleanLabel(identity.requestedName, "New peer", 48),
                   "Inviter", 48)]
            && r.value.events == map[] && r.value.blocked == {}
            && (c in r.value.channels <==> c in src.channels && src.channels[c].group == group)
            && (c in r.value.channels ==>
                  r.value.channels[c] == ChannelRow(group, Text.CleanLabel(src.channels[c].name, "channel", 64),
                                                    src.channels[c].position))
  {
    hide ChannelList, Text.CleanLabel, ImportInvite;
    var list := ChannelList(src.channels, group);
    var invite := BuildInvite(src, identity, group, now).value;
    InviteAccepted(src, EMPTY_DB, identity, group, now);
    ImportsExactly(EMPTY_DB, invite, c);
    ListedOnce(src.channels, group);
    InviteMentions(src, group, c);
    if c in src.channels && src.channels[c].group == group {
      var channel := Channel(c, group, src.channels[c].name, src.channels[c].position);
      ChannelListExactly(src.channels, group, channel);
      DescribedFirst(list, channel);
    }
  }
}
