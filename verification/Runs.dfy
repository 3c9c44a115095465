/** Whole runs of one store: any sequence of its operations, in any order. */
module Runs {
  import opened Base
  import opened Text
  import opened Model
  import opened Crypto
  import opened Tables

  datatype Command =
    | DoCreateGroup(group: GroupId, name: string, secret: Secret, now: I64, channel: ChannelId)
    | DoCreateChannel(group: GroupId, channel: ChannelId, name: string)
    | DoMergeChannel(merged: Channel)
    | DoImportInvite(invite: GroupInvite)
    | DoAppend(identity: Identity, channel: ChannelId, payload: MessagePayload, nonce: Nonce, now: I64)
    | DoInsertRemote(event: EventEnvelope, name: string)
    | DoRememberPeer(peer: PeerId, name: string)
    | DoBlock(peer: PeerId)
    | DoUnblock(peer: PeerId)

  /** A refused operation leaves the tables as they are. */
  function Apply(db: Db, command: Command): Db {
    match command
    case DoCreateGroup(g, name, secret, now, c) =>
      var r := CreateGroup(db, g, name, secret, now, c); if r.Ok? then r.value else db
    case DoCreateChannel(g, c, name) =>
      var r := CreateChannel(db, g, c, name); if r.Ok? then r.value else db
    case DoMergeChannel(channel) =>
      var r := MergeChannel(db, channel); if r.Ok? then r.value else db
    case DoImportInvite(invite) =>
      var r := ImportInvite(db, invite); if r.Ok? then r.value else db
    case DoAppend(identity, c, payload, nonce, now) =>
      var r := Append(db, identity, c, payload, nonce, now); if r.Ok? then r.value.0 else db
    case DoInsertRemote(event, name) =>
      var r := InsertRemote(db, event, name); if r.Ok? then r.value.0 else db
    case DoRememberPeer(peer, name) => RememberPeer(db, peer, name)
    case DoBlock(peer) => BlockPeer(db, peer)
    case DoUnblock(peer) => UnblockPeer(db, peer)
  }

  function Run(db: Db, commands: seq<Command>): Db
    decreases |commands|
  {
    if commands == [] then db else Run(Apply(db, commands[0]), commands[1..])
  }

  lemma {:induction false} AddInviteChannelsKeeps(db: Db, group: GroupId, channels: seq<InviteChannel>)
    requires ValidDb(db) && group in db.groups
    ensures var later := AddInviteChannels(db, group, channels);
            && ValidDb(later) && Extends(db, later)
            && later == db.(channels := later.channels)
            && (forall i :: 0 <= i < |channels| ==> channels[i].id in later.channels)
    decreases |channels|
  {
    if channels != [] {
      var c := channels[0];
      var next := AddChannel(db, Channel(c.id, group, c.name, c.position));
      ChannelsGrow(db, next);
      AddInviteChannelsKeeps(next, group, channels[1..]);
      forall i | 0 <= i < |channels|
        ensures channels[i].id in AddInviteChannels(db, group, channels).channels
      {
        assert i > 0 ==> channels[i] == channels[1..][i - 1];
      }
    }
  }

  /** A table that differs by more channels of known groups is as valid. */
  lemma ChannelsGrow(db: Db, later: Db)
    requires ValidDb(db)
    requires later == db.(channels := later.channels)
    requires forall c :: c in db.channels ==> c in later.channels && later.channels[c] == db.channels[c]
    requires forall c :: c in later.channels ==> later.channels[c].group in db.groups
    ensures ValidDb(later) && Extends(db, later)
  {
    forall k | k in later.events
      ensures RowBound(later, k, later.events[k])
    {
      assert RowBound(db, k, db.events[k]);
    }
  }

  lemma GroupsGrow(db: Db, later: Db)
    requires ValidDb(db)
    requires later == db.(groups := later.groups)
    requires forall g :: g in db.groups ==> g in later.groups && later.groups[g] == db.groups[g]
    ensures ValidDb(later) && Extends(db, later)
  {
    forall k | k in later.events
      ensures RowBound(later, k, later.events[k])
    {
      assert RowBound(db, k, db.events[k]);
    }
  }

  lemma NameKeeps(db: Db, peer: PeerId, name: string)
    requires ValidDb(db) && ByteLen(name) <= 192
    ensures ValidDb(Named(db, peer, name)) && Extends(db, Named(db, peer, name))
  {
    var later := Named(db, peer, name);
    forall k | k in later.events
      ensures RowBound(later, k, later.events[k])
    {
      assert RowBound(db, k, db.events[k]);
    }
  }

  lemma ImportInviteKeeps(db: Db, invite: GroupInvite)
    requires ValidDb(db) && ImportInvite(db, invite).Ok?
    ensures ValidDb(ImportInvite(db, invite).value) && Extends(db, ImportInvite(db, invite).value)
    ensures invite.body.group in ImportInvite(db, invite).value.groups
    ensures ImportInvite(db, invite).value.groups[invite.body.group].secret == invite.body.secret
    ensures ImportInvite(db, invite).value.events == db.events
  {
    var body := invite.body;
    var joined :=
      if body.group in db.groups then db
      else db.(groups := db.groups[body.group :=
        GroupRow(CleanLabel(body.groupName, "Imported group", 64), body.secret, body.createdAt)]);
    GroupsGrow(db, joined);
    AddInviteChannelsKeeps(joined, body.group, body.channels);
    var added := AddInviteChannels(joined, body.group, body.channels);
    CleanLabelBound(body.inviterName, "Inviter", 48);
    NameKeeps(added, body.inviter, CleanLabel(body.inviterName, "Inviter", 48));
  }

  lemma BlockingKeeps(db: Db, blocked: set<PeerId>)
    requires ValidDb(db)
    ensures ValidDb(db.(blocked := blocked)) && Extends(db, db.(blocked := blocked))
  {
    var later := db.(blocked := blocked);
    forall k | k in later.events
      ensures RowBound(later, k, later.events[k])
    {
      assert RowBound(db, k, db.events[k]);
    }
  }

  lemma CreateGroupKeeps(db: Db, g: GroupId, name: string, secret: Secret, now: I64, c: ChannelId)
    requires ValidDb(db) && CreateGroup(db, g, name, secret, now, c).Ok?
    ensures var later := CreateGroup(db, g, name, secret, now, c).value;
            ValidDb(later) && Extends(db, later) && g in later.groups && later.groups[g].secret == secret
  {
    var withGroup := db.(groups := db.groups[g := GroupRow(CleanLabel(name, "New group", 64), secret, now)]);
    GroupsGrow(db, withGroup);
    ChannelsGrow(withGroup, CreateGroup(db, g, name, secret, now, c).value);
  }

  lemma ApplyKeeps(db: Db, command: Command)
    requires ValidDb(db)
    ensures ValidDb(Apply(db, command)) && Extends(db, Apply(db, command))
  {
    hide ValidateAndOpenEvent, VerifyInvite, CreateGroup, Append, InsertRemote, CleanLabel, Acceptable, RowBound;
    match command
    case DoCreateGroup(g, name, secret, now, c) =>
      if CreateGroup(db, g, name, secret, now, c).Ok? {
        CreateGroupKeeps(db, g, name, secret, now, c);
      }
    case DoCreateChannel(g, c, name) =>
      if CreateChannel(db, g, c, name).Ok? {
        ChannelsGrow(db, CreateChannel(db, g, c, name).value);
      }
    case DoMergeChannel(channel) =>
      if MergeChannel(db, channel).Ok? {
        ChannelsGrow(db, MergeChannel(db, channel).value);
      }
    case DoImportInvite(invite) =>
      if ImportInvite(db, invite).Ok? {
        ImportInviteKeeps(db, invite);
      }
    case DoAppend(identity, c, payload, nonce, now) =>
      var r := Append(db, identity, c, payload, nonce, now);
      if r.Ok? {
        AppendExactly(db, identity, c, payload, nonce, now, r.value.0, r.value.1);
      }
    case DoInsertRemote(event, name) =>
      InsertRemoteExactly(db, event, name);
    case DoRememberPeer(peer, name) =>
      CleanLabelBound(name, "Unknown peer", 48);
      NameKeeps(db, peer, CleanLabel(name, "Unknown peer", 48));
    case DoBlock(peer) =>
      BlockingKeeps(db, db.blocked + {peer});
    case DoUnblock(peer) =>
      BlockingKeeps(db, db.blocked - {peer});
  }

  /** Every reachable store is valid, and every later one extends it: a group
      keeps its secret, a channel its group, an event every column. */
  lemma {:induction false} RunKeeps(db: Db, commands: seq<Command>)
    requires ValidDb(db)
    ensures ValidDb(Run(db, commands)) && Extends(db, Run(db, commands))
    decreases |commands|
  {
    if commands != [] {
      ApplyKeeps(db, commands[0]);
      RunKeeps(Apply(db, commands[0]), commands[1..]);
    }
  }

  /** In every store reached from an empty one, every stored event opens to a
      valid payload under the secret of its own group, in a channel of that group. */
  lemma EveryStoredEventOpens(commands: seq<Command>, key: EventKey)
    requires key in Run(EMPTY_DB, commands).events
    ensures var db := Run(EMPTY_DB, commands);
            var event := FromRow(key, db.events[key]);
            && key.group in db.groups
            && event.header.channel in db.channels
            && db.channels[event.header.channel].group == key.group
            && ValidateAndOpenEvent(event, db.groups[key.group].secret).Ok?
  {
    RunKeeps(EMPTY_DB, commands);
    var db := Run(EMPTY_DB, commands);
    assert RowBound(db, key, db.events[key]);
  }
}
