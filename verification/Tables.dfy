/** The tables of the store and what each statement of src/store.rs does to them.
    A transaction is one function: on an error there is no new table. */
module Tables {
  import opened Base
  import opened Text
  import opened Model
  import opened Crypto
  import opened Ordering

  /** The author_sequence column: a signed 64-bit integer, CHECK(author_sequence > 0). */
  type Sequence = x: int | 0 < x <= 0x7fff_ffff_ffff_ffff witness 1

  /** UNIQUE(group_id, author, author_sequence). */
  datatype EventKey = EventKey(group: GroupId, author: PeerId, sequence: Sequence)

  /** The other columns of an event; there is no version column. */
  datatype EventRow = EventRow(
    id: EventId, channel: ChannelId, sentAt: I64, kind: U8, nonce: Nonce,
    ciphertext: Ciphertext, signature: Signature<SigningBytes>)

  datatype GroupRow = GroupRow(name: string, secret: Secret, createdAt: I64)

  datatype ChannelRow = ChannelRow(group: GroupId, name: string, position: U32)

  type Events = map<EventKey, EventRow>

  datatype Db = Db(
    groups: map<GroupId, GroupRow>,
    channels: map<ChannelId, ChannelRow>,
    events: Events,
    peers: map<PeerId, string>,
    blocked: set<PeerId>)

  const EMPTY_DB := Db(map[], map[], map[], map[], {})

  /** A signing key and the name its owner asked for. */
  datatype Identity = Identity(peer: PeerId, requestedName: string) {
    function DisplayName(): string {
      SanitizeName(requestedName)
    }
  }

  // ---------------------------------------------------------------- rows

  predicate SequenceFits(event: EventEnvelope) {
    0 < event.header.sequence <= I64_MAX
  }

  function KeyOf(event: EventEnvelope): EventKey
    requires SequenceFits(event)
  {
    EventKey(event.header.group, event.header.author, event.header.sequence)
  }

  function ToRow(event: EventEnvelope): EventRow {
    var h := event.header;
    EventRow(h.id, h.channel, h.sentAt, h.kind, h.nonce, event.ciphertext, event.signature)
  }

  function FromRow(key: EventKey, row: EventRow): EventEnvelope {
    EventEnvelope(
      EventHeader(PROTOCOL_VERSION, row.id, key.group, row.channel, key.author, key.sequence,
                  row.sentAt, row.kind, row.nonce),
      row.ciphertext, row.signature)
  }

  /** Reading a row back gives the event that was stored exactly when the event
      carries the version that reading re-creates. */
  lemma RowRoundTrip(event: EventEnvelope)
    requires SequenceFits(event)
    ensures FromRow(KeyOf(event), ToRow(event)) == event <==> event.header.version == PROTOCOL_VERSION
  {
  }

  function SignatureLen<M>(signature: Signature<M>): nat {
    match signature
    case Signed(_, _) => 64
    case OtherSignature(len, _) => len
  }

  // ---------------------------------------------------------------- queries

  predicate Held(events: Events, group: GroupId, author: PeerId, n: int) {
    0 < n <= I64_MAX && EventKey(group, author, n) in events
  }

  function AuthorSequences(events: Events, group: GroupId, author: PeerId): set<int> {
    set k | k in events && k.group == group && k.author == author :: k.sequence
  }

  lemma SequencesAreHeld(events: Events, group: GroupId, author: PeerId, n: int)
    ensures n in AuthorSequences(events, group, author) <==> Held(events, group, author, n)
  {
    if Held(events, group, author, n) {
      var k := EventKey(group, author, n);
      assert k in events && k.sequence == n;
    }
  }

  /** The contiguous head that an inventory advertises. */
  function HeadOf(events: Events, group: GroupId, author: PeerId): nat {
    Head(AuthorSequences(events, group, author))
  }

  lemma HeadOfExactly(events: Events, group: GroupId, author: PeerId)
    ensures forall i :: 1 <= i <= HeadOf(events, group, author) ==> Held(events, group, author, i)
    ensures !Held(events, group, author, HeadOf(events, group, author) + 1)
    ensures HeadOf(events, group, author) <= I64_MAX
  {
    var h := HeadOf(events, group, author);
    forall i | 1 <= i <= h
      ensures Held(events, group, author, i)
    {
      SequencesAreHeld(events, group, author, i);
    }
    SequencesAreHeld(events, group, author, h + 1);
    assert 1 <= h ==> Held(events, group, author, h);
  }

  lemma HeadOfIs(events: Events, group: GroupId, author: PeerId, n: nat)
    requires forall i :: 1 <= i <= n ==> Held(events, group, author, i)
    requires !Held(events, group, author, n + 1)
    ensures HeadOf(events, group, author) == n
  {
    var s := AuthorSequences(events, group, author);
    forall i | 1 <= i <= n
      ensures i in s
    {
      SequencesAreHeld(events, group, author, i);
    }
    SequencesAreHeld(events, group, author, n + 1);
    HeadUnique(s, n);
  }

  /** The stored events of an author with sequence in first..last, ascending. */
  function RangeList(events: Events, group: GroupId, author: PeerId, first: int, last: int)
    : seq<EventEnvelope>
    decreases last - first
  {
    if first > last then []
    else
      (if Held(events, group, author, first)
       then [FromRow(EventKey(group, author, first), events[EventKey(group, author, first)])]
       else [])
      + RangeList(events, group, author, first + 1, last)
  }

  const PAGE_ROWS: nat := 128

  function EventsRange(db: Db, group: GroupId, author: PeerId, first: U64, last: U64)
    : Result<seq<EventEnvelope>>
  {
    var _ :- Ensure(0 < first <= last, InvalidRange);
    var _ :- Ensure(first <= I64_MAX && last <= I64_MAX, IntegerOutOfRange);
    var all := RangeList(db.events, group, author, first, last);
    Ok(all[..Min(|all|, PAGE_ROWS)])
  }

  /** The digits of URL-safe base64. */
  function Digit(value: nat): char
    requires value < 64
  {
    if value < 26 then 'A' + value as char
    else if value < 52 then 'a' + (value - 26) as char
    else if value < 62 then '0' + (value - 52) as char
    else if value == 62 then '-' else '_'
  }

  function Digits(x: nat, n: nat): (s: string)
    ensures |s| == n
  {
    if n == 0 then "" else Digits(x / 64, n - 1) + [Digit(x % 64)]
  }

  /** The stored display name, or "Peer " and eight base64 digits of the key. */
  function AuthorName(db: Db, author: PeerId): string {
    if author in db.peers then db.peers[author]
    else "Peer " + Digits(author / 0x1_0000000000000000_0000000000000000_0000000000000000_0000, 8)
  }

  /** ORDER BY created_at_ms, name. */
  function GroupKeys(groups: map<GroupId, GroupRow>): (keys: set<SortKey>)
    ensures forall key :: key in keys <==>
              key.fourth in groups && key == GroupKey(key.fourth, groups[key.fourth])
  {
    set g | g in groups :: GroupKey(g, groups[g])
  }

  function GroupKey(g: GroupId, row: GroupRow): SortKey {
    SortKey(row.createdAt, 0, 0, g, row.name)
  }

  function GroupList(groups: map<GroupId, GroupRow>): seq<GroupId> {
    var order := Sort(GroupKeys(groups));
    seq(|order|, i requires 0 <= i < |order| => order[i].fourth)
  }

  function ChannelList(channels: map<ChannelId, ChannelRow>, group: GroupId): seq<Channel> {
    var ids := set c | c in channels &&
        channels[c].group == group :: SortKey(channels[c].position, 0, 0, c, channels[c].name);
    var order := Sort(ids);
    SortCorrect(ids);
    assert forall i :: 0 <= i < |order| ==> order[i] in ids;
    seq(|order|, i requires 0 <= i < |order| =>
      var row := channels[order[i].fourth];
      Channel(order[i].fourth, row.group, row.name, row.position))
  }

  lemma GroupListMembers(groups: map<GroupId, GroupRow>)
    ensures forall g :: g in GroupList(groups) <==> g in groups
  {
    var order := Sort(GroupKeys(groups));
    SortCorrect(GroupKeys(groups));
    hide Sort, GroupKeys;
    assert forall i :: 0 <= i < |order| ==> order[i] in order;
    forall g | g in groups
      ensures g in GroupList(groups)
    {
      assert GroupKey(g, groups[g]) in order;
      var i :| 0 <= i < |order| && order[i] == GroupKey(g, groups[g]);
      assert GroupList(groups)[i] == g;
    }
  }

  lemma GroupListDistinct(groups: map<GroupId, GroupRow>)
    ensures forall i, j :: 0 <= i < j < |GroupList(groups)| ==> GroupList(groups)[i] != GroupList(groups)[j]
  {
    var order := Sort(GroupKeys(groups));
    SortCorrect(GroupKeys(groups));
    hide Sort, GroupKeys, Less;
    forall i, j | 0 <= i < j < |order|
      ensures order[i].fourth != order[j].fourth
    {
      assert Before(order[i], order[j]) && order[i] in order && order[j] in order;
    }
  }

  lemma ChannelListExactly(channels: map<ChannelId, ChannelRow>, group: GroupId, channel: Channel)
    ensures channel in ChannelList(channels, group) <==>
            && channel.id in channels && channel.group == group
            && channels[channel.id] == ChannelRow(group, channel.name, channel.position)
  {
    var ids := set c | c in channels &&
        channels[c].group == group :: SortKey(channels[c].position, 0, 0, c, channels[c].name);
    var order := Sort(ids);
    SortCorrect(ids);
    assert forall i :: 0 <= i < |order| ==> order[i] in ids;
    if channel.id in channels && channels[channel.id] == ChannelRow(group, channel.name, channel.position) &&
      channel.group == group {
      var s := SortKey(channel.position, 0, 0, channel.id, channel.name);
      assert s in order;
      var i :| 0 <= i < |order| && order[i] == s;
      assert ChannelList(channels, group)[i] == channel;
    }
  }

  /** Channels are listed by position, those at one position by name, those of one name
      by id. */
  lemma ChannelListAscends(channels: map<ChannelId, ChannelRow>, group: GroupId)
    ensures var list := ChannelList(channels, group);
            forall i, j :: 0 <= i < j < |list| ==>
              var x, y := list[i], list[j];
              || x.position < y.position
              || (x.position == y.position && (Less(x.name, y.name) || (x.name == y.name && x.id < y.id)))
  {
    var ids :=
      set c | c in channels && channels[c].group == group :: SortKey(channels[c].position, 0, 0, c, channels[c].name);
    var order := Sort(ids);
    SortCorrect(ids);
    assert forall i :: 0 <= i < |order| ==> order[i] in ids;
    hide Sort, Less;
    var list := ChannelList(channels, group);
    forall i, j | 0 <= i < j < |list|
      ensures var x, y := list[i], list[j];
              || x.position < y.position
              || (x.position == y.position && (Less(x.name, y.name) || (x.name == y.name && x.id < y.id)))
    {
      assert Before(order[i], order[j]) && order[i] in ids && order[j] in ids;
    }
  }

  /** Groups are listed by the time of their creation, those of one time by name, those of
      one name by id. */
  lemma GroupListAscends(groups: map<GroupId, GroupRow>)
    ensures forall i, j :: 0 <= i < j < |GroupList(groups)| ==>
              var g, h := GroupList(groups)[i], GroupList(groups)[j];
              g in groups && h in groups && CreatedBefore(g, groups[g], h, groups[h])
  {
    var order := Sort(GroupKeys(groups));
    SortCorrect(GroupKeys(groups));
    hide Sort, GroupKeys, Less;
    var list := GroupList(groups);
    forall i, j | 0 <= i < j < |list|
      ensures var g, h := list[i], list[j];
              g in groups && h in groups && CreatedBefore(g, groups[g], h, groups[h])
    {
      assert Before(order[i], order[j]) && order[i] in order && order[j] in order;
    }
  }

  predicate CreatedBefore(g: GroupId, x: GroupRow, h: GroupId, y: GroupRow) {
    || x.createdAt < y.createdAt
    || (x.createdAt == y.createdAt && (Less(x.name, y.name) || (x.name == y.name && g < h)))
  }

  // ---------------------------------------------------------------- mutators

  function Named(db: Db, peer: PeerId, name: string): Db {
    db.(peers := db.peers[peer := name])
  }

  function InsertEvent(db: Db, event: EventEnvelope): Result<Db> {
    var _ :- Ensure(event.header.sequence <= I64_MAX, IntegerOutOfRange);
    var _ :- Ensure(event.header.sequence > 0, ConstraintViolation);
    var _ :- Ensure(
      && SignatureLen(event.signature) == 64
      && event.header.group in db.groups
      && event.header.channel in db.channels
      && KeyOf(event) !in db.events
      && (forall k :: k in db.events ==> db.events[k].id != event.header.id),
      ConstraintViolation);
    Ok(db.(events := db.events[KeyOf(event) := ToRow(event)]))
  }

  function NextSequence(db: Db, group: GroupId, author: PeerId): int {
    MaxOr(AuthorSequences(db.events, group, author), 0) + 1
  }

  function Append(db: Db, identity: Identity, channel: ChannelId, payload: MessagePayload,
                  nonce: Nonce, now: I64)
    : Result<(Db, EventEnvelope)>
  {
    var _ :- payload.Validate();
    var _ :- Ensure(channel in db.channels && db.channels[channel].group in db.groups, UnknownChannel);
    var group := db.channels[channel].group;
    var next := NextSequence(db, group, identity.peer);
    // MAX + 1 beyond the 64-bit range turns into a floating-point value, which
    // is then not read back as an integer.
    var _ :- Ensure(0 < next <= I64_MAX, IntegerOutOfRange);
    var event :- SealEvent(identity.peer, group, channel, db.groups[group].secret, next, now, nonce, payload);
    var inserted :- InsertEvent(db, event);
    Ok((Named(inserted, identity.peer, identity.DisplayName()), event))
  }

  function InsertRemote(db: Db, event: EventEnvelope, authorName: string): Result<(Db, bool)> {
    var h := event.header;
    var _ :- Ensure(h.author !in db.blocked, AuthorBlocked);
    var _ :- Ensure(h.group in db.groups, UnknownGroup);
    var _ :- ValidateAndOpenEvent(event, db.groups[h.group].secret);
    var _ :- Ensure(h.channel in db.channels && db.channels[h.channel].group == h.group, UnknownChannel);
    var _ :- Ensure(h.sequence <= I64_MAX, IntegerOutOfRange);
    if h.sequence > 0 && KeyOf(event) in db.events then
      var _ :- Ensure(db.events[KeyOf(event)].id == h.id, Equivocation);
      Ok((db, false))
    else
      var inserted :- InsertEvent(db, event);
      Ok((Named(inserted, h.author, CleanLabel(authorName, "Unknown peer", 48)), true))
  }

  function CreateGroup(db: Db, group: GroupId, name: string, secret: Secret, now: I64, channel: ChannelId)
    : Result<Db>
  {
    var _ :- Ensure(group !in db.groups && channel !in db.channels, ConstraintViolation);
    Ok(db.(groups := db.groups[group := GroupRow(CleanLabel(name, "New group", 64), secret, now)],
           channels := db.channels[channel := ChannelRow(group, "general", 0)]))
  }

  function NextPosition(db: Db, group: GroupId): int {
    MaxOr(set c | c in db.channels && db.channels[c].group == group :: db.channels[c].position, -1) + 1
  }

  function CreateChannel(db: Db, group: GroupId, channel: ChannelId, name: string): Result<Db> {
    var position := NextPosition(db, group);
    var _ :- Ensure(0 <= position < U32_LIMIT, IntegerOutOfRange);
    var _ :- Ensure(group in db.groups && channel !in db.channels, ConstraintViolation);
    Ok(db.(channels := db.channels[channel := ChannelRow(group, name, position)]))
  }

  /** INSERT OR IGNORE INTO channels. */
  function AddChannel(db: Db, channel: Channel): Db {
    if channel.id in db.channels then db
    else
      db.(channels := db.channels[channel.id :=
        ChannelRow(channel.group, CleanLabel(channel.name, "channel", 64), channel.position)])
  }

  function MergeChannel(db: Db, channel: Channel): Result<Db> {
    var _ :- Ensure(channel.group in db.groups, UnknownGroup);
    Ok(AddChannel(db, channel))
  }

  function AddInviteChannels(db: Db, group: GroupId, channels: seq<InviteChannel>): Db
    decreases |channels|
  {
    if channels == [] then db
    else
      var c := channels[0];
      AddInviteChannels(AddChannel(db, Channel(c.id, group, c.name, c.position)), group, channels[1..])
  }

  function ImportInvite(db: Db, invite: GroupInvite): Result<Db> {
    var body := invite.body;
    var _ :- VerifyInvite(invite);
    var _ :- Ensure(body.channels != [], NoChannels);
    var _ :- Ensure(body.group in db.groups ==> db.groups[body.group].secret == body.secret, KeyConflict);
    var joined :=
      if body.group in db.groups then db
      else db.(groups := db.groups[body.group :=
        GroupRow(CleanLabel(body.groupName, "Imported group", 64), body.secret, body.createdAt)]);
    Ok(Named(AddInviteChannels(joined, body.group, body.channels), body.inviter,
             CleanLabel(body.inviterName, "Inviter", 48)))
  }

  function RememberPeer(db: Db, peer: PeerId, name: string): Db {
    Named(db, peer, CleanLabel(name, "Unknown peer", 48))
  }

  function BlockPeer(db: Db, peer: PeerId): Db {
    db.(blocked := db.blocked + {peer})
  }

  function UnblockPeer(db: Db, peer: PeerId): Db {
    db.(blocked := db.blocked - {peer})
  }

  // ---------------------------------------------------------------- invariant

  /** The row belongs to a known group, to a channel of that group, and opens
      under the secret of that group. */
  predicate RowBound(db: Db, key: EventKey, row: EventRow) {
    && key.group in db.groups
    && row.channel in db.channels
    && db.channels[row.channel].group == key.group
    && ValidateAndOpenEvent(FromRow(key, row), db.groups[key.group].secret).Ok?
  }

  ghost predicate ValidDb(db: Db) {
    match db
    case Db(groups, channels, events, peers, _) =>
      && (forall c :: c in channels ==> channels[c].group in groups)
      && (forall k :: k in events ==> RowBound(db, k, events[k]))
      && (forall p :: p in peers ==> ByteLen(peers[p]) <= 192)
  }

  /** Nothing stored is ever changed or removed: groups keep their secrets,
      channels their groups, and events every column. */
  ghost predicate Extends(db: Db, later: Db) {
    && (forall g :: g in db.groups ==> g in later.groups && later.groups[g] == db.groups[g])
    && (forall c :: c in db.channels ==> c in later.channels && later.channels[c] == db.channels[c])
    && (forall k :: k in db.events ==> k in later.events && later.events[k] == db.events[k])
  }

  /** What a valid store demands of a remote event, apart from agreement with
      what it holds. */
  predicate Acceptable(db: Db, event: EventEnvelope) {
    && event.header.author !in db.blocked
    && SequenceFits(event)
    && RowBound(db, KeyOf(event), ToRow(event))
    && event.header.version == PROTOCOL_VERSION
  }

  predicate AgreesWith(events: Events, event: EventEnvelope)
    requires SequenceFits(event)
  {
    KeyOf(event) in events ==> events[KeyOf(event)] == ToRow(event)
  }

  /** In a valid store no two keys share an id, so the primary key on the id never
      refuses an event whose own key is free. */
  lemma IdsFollowKeys(db: Db, event: EventEnvelope, secret: Secret)
    requires ValidDb(db) && SequenceFits(event) && ValidateAndOpenEvent(event, secret).Ok?
    ensures forall k :: k in db.events && db.events[k].id == event.header.id ==>
              k == KeyOf(event) && db.events[k] == ToRow(event)
  {
    forall k | k in db.events && db.events[k].id == event.header.id
      ensures k == KeyOf(event) && db.events[k] == ToRow(event)
    {
      assert RowBound(db, k, db.events[k]);
      IdIdentifiesEvent(FromRow(k, db.events[k]), event, db.groups[k.group].secret, secret);
    }
  }

  /** A remote event is taken exactly when it is acceptable and agrees with the
      event already held at its key. It is reported as new exactly when the key
      was free, and then it is the only change to the events. */
  lemma InsertRemoteExactly(db: Db, event: EventEnvelope, name: string)
    requires ValidDb(db)
    ensures InsertRemote(db, event, name).Ok? <==> Acceptable(db, event) && AgreesWith(db.events, event)
    ensures InsertRemote(db, event, name).Ok? ==>
              var (later, added) := InsertRemote(db, event, name).value;
              && added == (KeyOf(event) !in db.events)
              && later.events == db.events[KeyOf(event) := ToRow(event)]
              && later == db.(events := later.events, peers := later.peers)
              && Extends(db, later) && ValidDb(later)
    ensures Acceptable(db, event) && !AgreesWith(db.events, event) ==>
              InsertRemote(db, event, name) == Err(Equivocation)
  {
    if Acceptable(db, event) {
      RowRoundTrip(event);
      var key := KeyOf(event);
      var secret := db.groups[event.header.group].secret;
      IdsFollowKeys(db, event, secret);
      if key !in db.events {
        InsertKeepsValid(db, event);
        CleanLabelBound(name, "Unknown peer", 48);
      }
    } else if event.header.group in db.groups && ValidateAndOpenEvent(event, db.groups[event.header.group].secret).Ok?
              && SequenceFits(event) {
      RowRoundTrip(event);
    }
  }

  lemma InsertKeepsValid(db: Db, event: EventEnvelope)
    requires ValidDb(db) && SequenceFits(event) && RowBound(db, KeyOf(event), ToRow(event))
    requires KeyOf(event) !in db.events
    ensures ValidDb(db.(events := db.events[KeyOf(event) := ToRow(event)]))
    ensures Extends(db, db.(events := db.events[KeyOf(event) := ToRow(event)]))
  {
    var later := db.(events := db.events[KeyOf(event) := ToRow(event)]);
    forall k | k in later.events
      ensures RowBound(later, k, later.events[k])
    {
      if k in db.events {
        assert RowBound(db, k, db.events[k]);
      }
    }
  }

  predicate CanAppend(db: Db, author: PeerId, channel: ChannelId, payload: MessagePayload) {
    && payload.Validate().Ok?
    && channel in db.channels && db.channels[channel].group in db.groups
    && 0 < NextSequence(db, db.channels[channel].group, author) <= I64_MAX
  }

  function SealedNext(db: Db, author: PeerId, channel: ChannelId, payload: MessagePayload, nonce: Nonce, now: I64)
    : EventEnvelope
    requires CanAppend(db, author, channel, payload)
  {
    var group := db.channels[channel].group;
    SealEvent(author, group, channel, db.groups[group].secret, NextSequence(db, group, author), now, nonce, payload)
    .value
  }

  lemma NextSequencePositive(db: Db, group: GroupId, author: PeerId)
    ensures 0 < NextSequence(db, group, author)
    ensures forall n :: Held(db.events, group, author, n) ==> n < NextSequence(db, group, author)
  {
    var held := AuthorSequences(db.events, group, author);
    if held != {} {
      SequencesAreHeld(db.events, group, author, NextSequence(db, group, author) - 1);
    }
    forall n | Held(db.events, group, author, n)
      ensures n < NextSequence(db, group, author)
    {
      SequencesAreHeld(db.events, group, author, n);
    }
  }

  lemma SealedNextFits(db: Db, author: PeerId, channel: ChannelId, payload: MessagePayload, nonce: Nonce, now: I64)
    requires ValidDb(db) && CanAppend(db, author, channel, payload)
    ensures var event := SealedNext(db, author, channel, payload, nonce, now);
            && SequenceFits(event) && event.header.version == PROTOCOL_VERSION
            && KeyOf(event) !in db.events && RowBound(db, KeyOf(event), ToRow(event))
            && ValidateAndOpenEvent(event, db.groups[event.header.group].secret) == Ok(payload)
            && InsertEvent(db, event).Ok?
  {
    var event := SealedNext(db, author, channel, payload, nonce, now);
    var secret := db.groups[db.channels[channel].group].secret;
    OpensExactlyWhatWasSealed(event, secret, payload);
    RowRoundTrip(event);
    NextSequencePositive(db, event.header.group, author);
    assert KeyOf(event) in db.events ==> Held(db.events, event.header.group, author, event.header.sequence);
    IdsFollowKeys(db, event, secret);
  }

  /** Appending succeeds exactly for a valid payload, a known channel and a next
      sequence that fits 63 bits. */
  lemma AppendSucceedsExactly(db: Db, identity: Identity, channel: ChannelId, payload: MessagePayload,
                              nonce: Nonce, now: I64)
    requires ValidDb(db)
    ensures Append(db, identity, channel, payload, nonce, now).Ok? <==>
            && payload.Validate().Ok?
            && channel in db.channels
            && NextSequence(db, db.channels[channel].group, identity.peer) <= I64_MAX
    ensures Append(db, identity, channel, payload, nonce, now).Ok? ==>
            && CanAppend(db, identity.peer, channel, payload)
            && var event := SealedNext(db, identity.peer, channel, payload, nonce, now);
               SequenceFits(event)
               && Append(db, identity, channel, payload, nonce, now) ==
                  var later := db.(events := db.events[KeyOf(event) := ToRow(event)]);
                  Ok((Named(later, identity.peer, identity.DisplayName()), event))
  {
    if channel in db.channels {
      NextSequencePositive(db, db.channels[channel].group, identity.peer);
    }
    if CanAppend(db, identity.peer, channel, payload) {
      SealedNextFits(db, identity.peer, channel, payload, nonce, now);
    }
  }

  /** An append stores one event more, at the next sequence of the author in the
      group of the channel; the event opens to the payload, and nothing else that
      replicates changes. */
  lemma AppendExactly(db: Db, identity: Identity, channel: ChannelId, payload: MessagePayload,
                      nonce: Nonce, now: I64, later: Db, event: EventEnvelope)
    requires ValidDb(db) && Append(db, identity, channel, payload, nonce, now) == Ok((later, event))
    ensures SequenceFits(event) && RowBound(db, KeyOf(event), ToRow(event)) && event.header.version == PROTOCOL_VERSION
    ensures event.header.author == identity.peer && event.header.channel == channel
    ensures ValidateAndOpenEvent(event, db.groups[event.header.group].secret) == Ok(payload)
    ensures event.header.sequence == NextSequence(db, event.header.group, identity.peer)
    ensures KeyOf(event) !in db.events
    ensures later.events == db.events[KeyOf(event) := ToRow(event)]
    ensures later == db.(events := later.events, peers := later.peers)
    ensures Extends(db, later) && ValidDb(later)
  {
    AppendSucceedsExactly(db, identity, channel, payload, nonce, now);
    SealedNextFits(db, identity.peer, channel, payload, nonce, now);
    InsertKeepsValid(db, event);
    CleanLabelBound(identity.requestedName, "New peer", 48);
  }
}
