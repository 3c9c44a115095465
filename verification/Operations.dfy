/** What the operations of the store do, in numbers and column by column, and laws over
    two of them (src/store.rs, src/model.rs). */
module Operations {
  import opened Base
  import opened Text
  import opened Model
  import opened Crypto
  import opened Ordering
  import opened Tables
  import opened Runs
  import opened Delivery

  // ---------------------------------------------------------------- what can be said

  /** Some character is not white space. */
  predicate Shows(s: string) {
    exists i :: 0 <= i < |s| && !IsWhitespace(s[i])
  }

  /** The author's log in the group of the channel has reached the last sequence. */
  predicate LogIsFull(db: Db, author: PeerId, channel: ChannelId)
    requires channel in db.channels
  {
    Held(db.events, db.channels[channel].group, author, 0x7fff_ffff_ffff_ffff)
  }

  lemma FullMeansNoNext(db: Db, group: GroupId, author: PeerId)
    ensures NextSequence(db, group, author) <= I64_MAX <==> !Held(db.events, group, author, 0x7fff_ffff_ffff_ffff)
  {
    var held := AuthorSequences(db.events, group, author);
    SequencesAreHeld(db.events, group, author, 0x7fff_ffff_ffff_ffff);
    if held != {} {
      SequencesAreHeld(db.events, group, author, NextSequence(db, group, author) - 1);
    }
  }

  /** Appending a text or system message, case by case. */
  lemma MessageAppendsExactly(db: Db, identity: Identity, channel: ChannelId, payload: MessagePayload,
                              nonce: Nonce, now: I64)
    requires ValidDb(db) && !payload.Attachment?
    ensures var r, body := Append(db, identity, channel, payload, nonce, now), payload.body;
            if !Shows(body) then r == Err(EmptyMessage)
            else if ByteLen(body) > 65_536 then r == Err(MessageTooLong)
            else if channel !in db.channels then r == Err(UnknownChannel)
            else if LogIsFull(db, identity.peer, channel) then r == Err(IntegerOutOfRange)
            else r.Ok? && r.value.1.header.kind == if payload.TextMessage? then 1 else 3
  {
    if channel in db.channels {
      FullMeansNoNext(db, db.channels[channel].group, identity.peer);
      NextSequencePositive(db, db.channels[channel].group, identity.peer);
    }
    AppendSucceedsExactly(db, identity, channel, payload, nonce, now);
    hide ByteLen, NextSequence;
  }

  /** Appending an attachment, case by case. */
  lemma AttachmentAppendsExactly(db: Db, identity: Identity, channel: ChannelId, fileName: string, mime: string,
                                 bytes: seq<U8>, caption: string, nonce: Nonce, now: I64)
    requires ValidDb(db)
    ensures var r := Append(db, identity, channel, Attachment(fileName, mime, bytes, caption), nonce, now);
            if !Shows(fileName) then r == Err(NoFileName)
            else if |bytes| > 8_388_608 then r == Err(AttachmentTooLong)
            else if ByteLen(caption) > 65_536 then r == Err(CaptionTooLong)
            else if channel !in db.channels then r == Err(UnknownChannel)
            else if LogIsFull(db, identity.peer, channel) then r == Err(IntegerOutOfRange)
            else r.Ok? && r.value.1.header.kind == 2
  {
    if channel in db.channels {
      FullMeansNoNext(db, db.channels[channel].group, identity.peer);
      NextSequencePositive(db, db.channels[channel].group, identity.peer);
    }
    AppendSucceedsExactly(db, identity, channel, Attachment(fileName, mime, bytes, caption), nonce, now);
    hide ByteLen, NextSequence;
  }

  /** The event that an author makes of a payload without checking it. */
  function Unchecked(author: PeerId, group: GroupId, channel: ChannelId, secret: Secret, sequence: U64, sentAt: I64,
                     kind: U8, nonce: Nonce, payload: MessagePayload): EventEnvelope
  {
    var withoutId := EventHeaderWithoutId(1, group, channel, author, sequence, sentAt, kind, nonce);
    var ciphertext := Sealed(secret, nonce, withoutId, Encoded(payload));
    var header := EventHeader(1, Digest(withoutId, ciphertext), group, channel, author, sequence, sentAt, kind, nonce);
    EventEnvelope(header, ciphertext, Signed(author, SigningBytes(header, ciphertext)))
  }

  /** The store has the group of the event with its key, the channel in it, no block on
      the author and no other event at its place. */
  predicate Expects(db: Db, event: EventEnvelope, secret: Secret) {
    var h := event.header;
    && h.group in db.groups && db.groups[h.group].secret == secret
    && h.channel in db.channels && db.channels[h.channel].group == h.group
    && h.author !in db.blocked
    && 0 < h.sequence <= 0x7fff_ffff_ffff_ffff && EventKey(h.group, h.author, h.sequence) !in db.events
  }

  /** A remote message is taken under the same limits, and its kind must be told. */
  lemma RemoteMessageExactly(db: Db, author: PeerId, group: GroupId, channel: ChannelId, secret: Secret, sequence: U64,
                             sentAt: I64, kind: U8, nonce: Nonce, payload: MessagePayload, name: string)
    requires ValidDb(db) && !payload.Attachment?
    requires Expects(db, Unchecked(author, group, channel, secret, sequence, sentAt, kind, nonce, payload), secret)
    ensures var e := Unchecked(author, group, channel, secret, sequence, sentAt, kind, nonce, payload);
            InsertRemote(db, e, name).Ok? <==>
            Shows(payload.body) && ByteLen(payload.body) <= 65_536 && kind == if payload.TextMessage? then 1 else 3
  {
    var e := Unchecked(author, group, channel, secret, sequence, sentAt, kind, nonce, payload);
    InsertRemoteExactly(db, e, name);
    hide ByteLen, InsertRemote;
  }

  lemma RemoteAttachmentExactly(db: Db, author: PeerId, group: GroupId, channel: ChannelId, secret: Secret,
                                sequence: U64, sentAt: I64, kind: U8, nonce: Nonce, payload: MessagePayload,
                                name: string)
    requires ValidDb(db) && payload.Attachment?
    requires Expects(db, Unchecked(author, group, channel, secret, sequence, sentAt, kind, nonce, payload), secret)
    ensures var e := Unchecked(author, group, channel, secret, sequence, sentAt, kind, nonce, payload);
            InsertRemote(db, e, name).Ok? <==>
            && Shows(payload.fileName) && |payload.bytes| <= 8_388_608 && ByteLen(payload.caption) <= 65_536
            && kind == 2
  {
    var e := Unchecked(author, group, channel, secret, sequence, sentAt, kind, nonce, payload);
    InsertRemoteExactly(db, e, name);
    hide ByteLen, InsertRemote;
  }

  // ---------------------------------------------------------------- groups and channels

  /** A new group comes with its first channel, and nothing else changes; with an id in
      use nothing changes at all. */
  lemma CreateGroupExactly(db: Db, group: GroupId, name: string, secret: Secret, now: I64, channel: ChannelId)
    ensures var later := Apply(db, DoCreateGroup(group, name, secret, now, channel));
            if group in db.groups || channel in db.channels then later == db
            else
              && later.groups == db.groups[group := GroupRow(CleanLabel(name, "New group", 64), secret, now)]
              && later.channels == db.channels[channel := ChannelRow(group, "general", 0)]
              && later.events == db.events && later.peers == db.peers && later.blocked == db.blocked
  {
    hide CleanLabel;
  }

  /** What is valid can be appended to the channel of a new group at once, by anyone, and
      is the first event of the author there. */
  lemma NewGroupTakesMessages(db: Db, group: GroupId, name: string, secret: Secret, now: I64, channel: ChannelId,
                              identity: Identity, payload: MessagePayload, nonce: Nonce, sentAt: I64)
    requires ValidDb(db) && group !in db.groups && channel !in db.channels && payload.Validate().Ok?
    ensures var later := Apply(db, DoCreateGroup(group, name, secret, now, channel));
            var r := Append(later, identity, channel, payload, nonce, sentAt);
            && r.Ok? && r.value.1.header.group == group && r.value.1.header.sequence == 1
            && ValidateAndOpenEvent(r.value.1, secret) == Ok(payload)
  {
    var command := DoCreateGroup(group, name, secret, now, channel);
    var later := Apply(db, command);
    ApplyKeeps(db, command);
    CreateGroupExactly(db, group, name, secret, now, channel);
    NoEventsYet(db, group, identity.peer);
    hide ValidDb, Append, Apply, CleanLabel, ValidateAndOpenEvent;
    assert NextSequence(later, group, identity.peer) == 1;
    AppendSucceedsExactly(later, identity, channel, payload, nonce, sentAt);
    var (after, event) := Append(later, identity, channel, payload, nonce, sentAt).value;
    AppendExactly(later, identity, channel, payload, nonce, sentAt, after, event);
  }

  lemma NoEventsYet(db: Db, group: GroupId, author: PeerId)
    requires ValidDb(db) && group !in db.groups
    ensures AuthorSequences(db.events, group, author) == {}
  {
    assert forall k :: k in db.events && k.group == group ==> !RowBound(db, k, db.events[k]);
  }

  /** A new channel comes after all channels of its group, at the first position that is
      free behind them; positions have 32 bits. */
  lemma CreateChannelExactly(db: Db, group: GroupId, channel: ChannelId, name: string)
    ensures var later := Apply(db, DoCreateChannel(group, channel, name));
            var full := exists c :: c in db.channels && db.channels[c].group == group
                                    && db.channels[c].position == 0xffff_ffff;
            if full || group !in db.groups || channel in db.channels then later == db
            else
              && channel in later.channels
              && later == db.(channels := db.channels[channel := later.channels[channel]])
              && later.channels[channel].group == group && later.channels[channel].name == name
              && (forall c :: c in db.channels && db.channels[c].group == group ==>
                    db.channels[c].position < later.channels[channel].position)
              && (later.channels[channel].position == 0 ||
                  exists c :: c in db.channels && db.channels[c].group == group
                              && db.channels[c].position == later.channels[channel].position - 1)
  {
    var positions := set c | c in db.channels && db.channels[c].group == group :: db.channels[c].position;
    assert NextPosition(db, group) == MaxOr(positions, -1) + 1;
    if positions != {} {
      var c :| c in db.channels && db.channels[c].group == group && db.channels[c].position == MaxOr(positions, -1);
    }
    forall c | c in db.channels && db.channels[c].group == group
      ensures db.channels[c].position <= MaxOr(positions, -1)
    {
      assert db.channels[c].position in positions;
    }
  }

  /** So it is listed last. */
  lemma NewChannelIsLast(db: Db, group: GroupId, channel: ChannelId, name: string)
    requires var later := Apply(db, DoCreateChannel(group, channel, name)); later != db
    ensures var list := ChannelList(Apply(db, DoCreateChannel(group, channel, name)).channels, group);
            list != [] && list[|list| - 1].id == channel
  {
    var later := Apply(db, DoCreateChannel(group, channel, name));
    CreateChannelExactly(db, group, channel, name);
    hide Apply, ChannelList;
    var list, row := ChannelList(later.channels, group), later.channels[channel];
    var created := Channel(channel, group, row.name, row.position);
    ChannelListExactly(later.channels, group, created);
    ChannelListAscends(later.channels, group);
    var i :| 0 <= i < |list| && list[i] == created;
    var last := list[|list| - 1];
    assert last in list;
    ChannelListExactly(later.channels, group, last);
    LessIsStrict(row.name);
    if i < |list| - 1 {
      assert false;
    }
  }

  /** A channel from elsewhere is added to a known group when its id is free, with its
      name cleaned; else nothing changes. Merging again changes nothing. */
  lemma MergeChannelExactly(db: Db, channel: Channel)
    ensures var later := Apply(db, DoMergeChannel(channel));
            && later == (if channel.group in db.groups && channel.id !in db.channels
                         then db.(channels := db.channels[channel.id :=
                                ChannelRow(channel.group, CleanLabel(channel.name, "channel", 64), channel.position)])
                         else db)
            && Apply(later, DoMergeChannel(channel)) == later
  {
    hide CleanLabel;
  }

  // ---------------------------------------------------------------- blocking

  /** Blocking a peer stops its events, and no other's; nothing held goes. */
  lemma BlockExactly(db: Db, peer: PeerId, event: EventEnvelope, name: string)
    ensures var later := Apply(db, DoBlock(peer));
            && later == db.(blocked := later.blocked)
            && (forall p :: p in later.blocked <==> p in db.blocked || p == peer)
            && (event.header.author == peer ==> InsertRemote(later, event, name) == Err(AuthorBlocked))
            && (event.header.author != peer ==>
                  (InsertRemote(later, event, name).Ok? <==> InsertRemote(db, event, name).Ok?))
  {
    hide ValidateAndOpenEvent, CleanLabel;
  }

  /** Unblocking takes the block away, and events of the peer are taken as by a store
      that never blocked it. */
  lemma UnblockExactly(db: Db, peer: PeerId, event: EventEnvelope, name: string)
    ensures var later := Apply(db, DoUnblock(peer));
            && later == db.(blocked := later.blocked)
            && (forall p :: p in later.blocked <==> p in db.blocked && p != peer)
            && (event.header.author == peer ==> InsertRemote(later, event, name) != Err(AuthorBlocked))
            && (peer !in db.blocked ==> Apply(Apply(db, DoBlock(peer)), DoUnblock(peer)) == db)
  {
    hide ValidateAndOpenEvent, CleanLabel;
    if event.header.author == peer {
      NotBlockedOtherwise(Apply(db, DoUnblock(peer)), event, name);
    }
    if peer !in db.blocked {
      assert db.blocked + {peer} - {peer} == db.blocked;
    }
  }

  lemma NotBlockedOtherwise(db: Db, event: EventEnvelope, name: string)
    requires event.header.author !in db.blocked
    ensures InsertRemote(db, event, name) != Err(AuthorBlocked)
  {
  }

  // ---------------------------------------------------------------- names

  /** Which name a store has for a peer after each operation: that of the operation for
      the peer it names, else the one before. */
  lemma NamesExactly(db: Db, command: Command, p: PeerId)
    ensures var later := Apply(db, command);
            match command
            case DoAppend(identity, c, payload, nonce, now) =>
              if Append(db, identity, c, payload, nonce, now).Ok? && p == identity.peer
              then AuthorName(later, p) == CleanLabel(identity.requestedName, "New peer", 48)
              else AuthorName(later, p) == AuthorName(db, p)
            case DoInsertRemote(event, name) =>
              if InsertRemote(db, event, name).Ok? && InsertRemote(db, event, name).value.1 && p == event.header.author
              then AuthorName(later, p) == CleanLabel(name, "Unknown peer", 48)
              else AuthorName(later, p) == AuthorName(db, p)
            case DoImportInvite(invite) =>
              if ImportInvite(db, invite).Ok? && p == invite.body.inviter
              then AuthorName(later, p) == CleanLabel(invite.body.inviterName, "Inviter", 48)
              else AuthorName(later, p) == AuthorName(db, p)
            case DoRememberPeer(peer, name) =>
              if p == peer then AuthorName(later, p) == CleanLabel(name, "Unknown peer", 48)
              else AuthorName(later, p) == AuthorName(db, p)
            case _ => AuthorName(later, p) == AuthorName(db, p)
  {
    hide ValidateAndOpenEvent, VerifyInvite, CleanLabel, Digits;
    match command
    case DoImportInvite(invite) =>
      var body := invite.body;
      var joined :=
        if body.group in db.groups then db
        else db.(groups := db.groups[body.group :=
          GroupRow(CleanLabel(body.groupName, "Imported group", 64), body.secret, body.createdAt)]);
      AddingKeepsPeers(joined, body.group, body.channels);
    case _ =>
  }

  lemma {:induction false} AddingKeepsPeers(db: Db, group: GroupId, channels: seq<InviteChannel>)
    ensures AddInviteChannels(db, group, channels).peers == db.peers
    decreases |channels|
  {
    if channels != [] {
      var c := channels[0];
      AddingKeepsPeers(AddChannel(db, Channel(c.id, group, c.name, c.position)), group, channels[1..]);
    }
  }

  /** The name that comes with a new event counts, unless it is blank: then that of the
      peer who sends it. */
  lemma DeliveredName(db: Db, wire: WireEvent, remoteName: string)
    requires Deliver(db, [wire], remoteName).error.None? && Deliver(db, [wire], remoteName).added == 1
    ensures AuthorName(Deliver(db, [wire], remoteName).db, wire.event.header.author) ==
            CleanLabel(if Shows(wire.authorName) then wire.authorName else remoteName, "Unknown peer", 48)
  {
    hide CleanLabel, Digits, ValidateAndOpenEvent;
    assert [wire][1..] == [];
  }

  // ---------------------------------------------------------------- names of the unknown

  function DigitValue(c: char): int {
    if 'A' <= c <= 'Z' then c as int - 'A' as int
    else if 'a' <= c <= 'z' then c as int - 'a' as int + 26
    else if '0' <= c <= '9' then c as int - '0' as int + 52
    else if c == '-' then 62 else if c == '_' then 63 else -1
  }

  function Value(digits: string): int {
    if digits == "" then 0 else 64 * Value(digits[..|digits| - 1]) + DigitValue(digits[|digits| - 1])
  }

  lemma DigitExactly(value: nat)
    requires value < 64
    ensures DigitValue(Digit(value)) == value
  {
  }

  lemma {:induction false} DigitsExactly(x: nat, n: nat)
    ensures Value(Digits(x, n)) == x % Power64(n)
  {
    if n > 0 {
      var head := Digits(x / 64, n - 1);
      DigitExactly(x % 64);
      DigitsExactly(x / 64, n - 1);
      assert Digits(x, n)[..n - 1] == head;
      Remainders(x, Power64(n - 1));
    }
  }

  function Power64(n: nat): (p: nat)
    ensures p > 0
  {
    if n == 0 then 1 else 64 * Power64(n - 1)
  }

  lemma Remainders(x: nat, p: nat)
    requires p > 0
    ensures 64 * (x / 64 % p) + x % 64 == x % (64 * p)
  {
    var q, r := x / 64, x % 64;
    var a, b := q / p, q % p;
    assert x == 64 * q + r && q == p * a + b;
    assert x == (64 * p) * a + (64 * b + r) by {
      assert 64 * (p * a) == (64 * p) * a;
    }
    assert 64 * b + r < 64 * p;
    assert x == a * (64 * p) + (64 * b + r);
    Quotient(x, 64 * p, a, 64 * b + r);
  }

  /** A peer without a stored name is called after the first 48 bits of its key. */
  lemma UnknownPeerIsNamedByKey(db: Db, p: PeerId)
    requires p !in db.peers && p < 0x1_0000000000000000_0000000000000000_0000000000000000_0000000000000000
    ensures var name := AuthorName(db, p);
            && |name| == 13 && name[..5] == "Peer "
            && Value(name[5..]) == p / 0x1_0000000000000000_0000000000000000_0000000000000000_0000
  {
    var leading := p / 0x1_0000000000000000_0000000000000000_0000000000000000_0000;
    assert leading < 0x1_0000_0000_0000;
    hide Digits, Value;
    Power64Eight();
    DigitsExactly(leading, 8);
    assert AuthorName(db, p)[5..] == Digits(leading, 8);
  }

  lemma Power64Eight()
    ensures Power64(8) == 0x1_0000_0000_0000
  {
    assert Power64(2) == 0x1000;
    assert Power64(4) == 0x100_0000;
    assert Power64(6) == 0x10_0000_0000;
  }
}
