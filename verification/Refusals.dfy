/** Why something is refused: of all that is wrong, what is reported, and what has been
    done by then (src/crypto.rs, src/store.rs, src/network.rs). */
module Refusals {
  import opened Base
  import opened Text
  import opened Model
  import opened Crypto
  import opened Ordering
  import opened Tables
  import opened Operations
  import opened Delivery
  import opened Inventory
  import opened Wire
  import opened Transfer
  import opened Session
  import AnyPeer
  import Invites

  function Refusal<T>(r: Result<T>): Option<Error> {
    match r
    case Ok(_) => None
    case Err(error) => Some(error)
  }

  // ---------------------------------------------------------------- events

  function PayloadRefusal(payload: MessagePayload): Option<Error> {
    match payload
    case Attachment(fileName, _, bytes, caption) =>
      if !Shows(fileName) then Some(NoFileName)
      else if |bytes| > 8_388_608 then Some(AttachmentTooLong)
      else if ByteLen(caption) > 65_536 then Some(CaptionTooLong) else None
    case _ =>
      if !Shows(payload.body) then Some(EmptyMessage)
      else if ByteLen(payload.body) > 65_536 then Some(MessageTooLong) else None
  }

  /** What the fields of an event must be, given what it was sealed with. */
  function EventRefusal(event: EventEnvelope, secret: Secret): Option<Error> {
    var h, sealed := event.header, event.ciphertext;
    var covered := EventHeaderWithoutId(1, h.group, h.channel, h.author, h.sequence, h.sentAt, h.kind, h.nonce);
    if h.version != 1 then Some(UnsupportedVersion)
    else if h.id != Digest(covered, sealed) then Some(EventIdMismatch)
    else if event.signature != Signed(h.author, SigningBytes(h, sealed)) then Some(BadSignature)
    else
      match sealed
      case Noise(_, _) => Some(AuthenticationFailed)
      case Sealed(key, nonce, associated, plain) =>
        if (key, nonce, associated) != (secret, h.nonce, covered) then Some(AuthenticationFailed)
        else if plain.Undecodable? then Some(UndecodablePayload)
        else if h.kind != (if plain.payload.TextMessage? then 1 else if plain.payload.Attachment? then 2 else 3)
        then Some(KindMismatch)
        else PayloadRefusal(plain.payload)
  }

  lemma EventRefusals(event: EventEnvelope, secret: Secret)
    ensures Refusal(ValidateAndOpenEvent(event, secret)) == EventRefusal(event, secret)
  {
    hide ByteLen;
  }

  /** In a valid store: another event at the place means any difference at all. */
  function RemoteRefusal(db: Db, event: EventEnvelope): Option<Error> {
    var h := event.header;
    if h.author in db.blocked then Some(AuthorBlocked)
    else if h.group !in db.groups then Some(UnknownGroup)
    else if EventRefusal(event, db.groups[h.group].secret).Some? then EventRefusal(event, db.groups[h.group].secret)
    else if h.channel !in db.channels || db.channels[h.channel].group != h.group then Some(UnknownChannel)
    else if h.sequence > 0x7fff_ffff_ffff_ffff then Some(IntegerOutOfRange)
    else if h.sequence == 0 then Some(ConstraintViolation)
    else
      var key := EventKey(h.group, h.author, h.sequence);
      if key in db.events && FromRow(key, db.events[key]) != event then Some(Equivocation) else None
  }

  lemma RemoteRefusals(db: Db, event: EventEnvelope, name: string)
    requires ValidDb(db)
    ensures Refusal(InsertRemote(db, event, name)) == RemoteRefusal(db, event)
  {
    if event.header.group in db.groups {
      EventRefusals(event, db.groups[event.header.group].secret);
    }
    InsertRemoteExactly(db, event, name);
    hide ValidateAndOpenEvent, EventRefusal, CleanLabel, ValidDb;
    if SequenceFits(event) && event.header.version == 1 {
      RowRoundTrip(event);
    }
  }

  /** A batch is taken up to the first event that is refused; those before it stay. */
  lemma {:induction false} BatchRefusals(db: Db, wires: seq<WireEvent>, name: string) returns (i: nat)
    requires ValidDb(db)
    ensures i <= |wires| && Deliver(db, wires[..i], name).error.None?
    ensures var r, before := Deliver(db, wires, name), Deliver(db, wires[..i], name).db;
            && r.db == before && ValidDb(before)
            && r.error == if i < |wires| then RemoteRefusal(before, wires[i].event) else None
    ensures i < |wires| ==> Deliver(db, wires, name).error.Some?
    decreases |wires|
  {
    hide InsertRemote, RemoteRefusal, ValidDb;
    i := 0;
    if wires != [] {
      var e, given := wires[0].event, NameFor(wires[0], name);
      InsertRemoteExactly(db, e, given);
      RemoteRefusals(db, e, given);
      var r := InsertRemote(db, e, given);
      if r.Ok? {
        var j := BatchRefusals(r.value.0, wires[1..], name);
        i := j + 1;
        assert wires[..i][0] == wires[0] && wires[..i][1..] == wires[1..][..j];
      }
    }
  }

  // ---------------------------------------------------------------- groups, channels, invites, ranges

  lemma CreationRefusals(db: Db, group: GroupId, channel: ChannelId, name: string, secret: Secret, now: I64)
    ensures Refusal(CreateGroup(db, group, name, secret, now, channel)) ==
            if group in db.groups || channel in db.channels then Some(ConstraintViolation) else None
    ensures Refusal(CreateChannel(db, group, channel, name)) ==
            if exists c :: c in db.channels && db.channels[c].group == group && db.channels[c].position == 0xffff_ffff
            then Some(IntegerOutOfRange)
            else if group !in db.groups || channel in db.channels then Some(ConstraintViolation) else None
  {
    hide CleanLabel;
    var positions := set c | c in db.channels && db.channels[c].group == group :: db.channels[c].position;
    assert NextPosition(db, group) == MaxOr(positions, -1) + 1;
    if c :| c in db.channels && db.channels[c].group == group && db.channels[c].position == 0xffff_ffff {
      assert db.channels[c].position in positions;
    }
  }

  lemma InviteRefusals(db: Db, invite: GroupInvite)
    ensures var body := invite.body;
            Refusal(ImportInvite(db, invite)) ==
            if body.version != 1 then Some(UnsupportedVersion)
            else if invite.signature != Signed(body.inviter, body) then Some(BadSignature)
            else if body.channels == [] then Some(NoChannels)
            else if body.group in db.groups && db.groups[body.group].secret != body.secret then Some(KeyConflict)
            else None
  {
    hide CleanLabel, AddInviteChannels;
  }

  lemma BuildRefusals(db: Db, identity: Identity, group: GroupId, now: I64)
    ensures Refusal(Invites.BuildInvite(db, identity, group, now)) ==
            if group in db.groups then None else Some(UnknownGroup)
  {
    hide ChannelList;
  }

  lemma RangeRefusals(db: Db, group: GroupId, author: PeerId, first: U64, last: U64)
    ensures Refusal(EventsRange(db, group, author, first, last)) ==
            if first == 0 || first > last then Some(InvalidRange)
            else if last > 0x7fff_ffff_ffff_ffff then Some(IntegerOutOfRange) else None
  {
  }

  // ---------------------------------------------------------------- sessions

  lemma HelloRefusals(x: Side, hello: PeerHello)
    requires x.phase.AwaitHello?
    ensures var later, body := Take(x, Hello(hello)), hello.body;
            later.phase ==
            if body.version != 1 then Failed(UnsupportedVersion)
            else if !Shows(body.displayName) || ByteLen(body.displayName) > 192 then Failed(InvalidPeerName)
            else if hello.signature != Signed(body.peer, body) then Failed(BadSignature)
            else if body.peer == x.hello.body.peer then Failed(SelfConnection)
            else if body.peer in x.db.blocked then Failed(PeerBlocked)
            else SendProofs
  {
    hide ByteLen;
  }

  function DescriptorRefusal(groups: map<GroupId, GroupRow>, shared: set<GroupId>, sealed: SealedChannel)
    : Option<Error>
  {
    if sealed.group !in shared then Some(UnauthorizedGroup)
    else if sealed.group !in groups then Some(UnknownGroup)
    else
      match sealed.box
      case OtherBox(_) => Some(AuthenticationFailed)
      case Boxed(key, associated, content) =>
        if key != groups[sealed.group].secret || associated != sealed.group then Some(AuthenticationFailed)
        else if content.None? then Some(UndecodablePayload)
        else if content.value.group != sealed.group then Some(ChannelGroupMismatch) else None
  }

  lemma DescriptorRefusals(db: Db, shared: set<GroupId>, sealed: SealedChannel)
    ensures Refusal(MergeSealed(db, shared, sealed)) == DescriptorRefusal(db.groups, shared, sealed)
    ensures Authentic(db.groups, shared, sealed) <==> DescriptorRefusal(db.groups, shared, sealed).None?
  {
    hide CleanLabel;
  }

  /** The first descriptor that is not authentic ends the merging of a list. */
  lemma {:induction false} ListRefusals(db: Db, shared: set<GroupId>, list: seq<SealedChannel>)
    ensures var n := Leading(db.groups, shared, list);
            && (n < |list| ==> DescriptorRefusal(db.groups, shared, list[n]).Some?)
            && MergeAll(db, shared, list).1 ==
                 if n < |list| then DescriptorRefusal(db.groups, shared, list[n]) else None
    decreases |list|
  {
    hide MergeSealed, Authentic, DescriptorRefusal;
    if list != [] {
      DescriptorRefusals(db, shared, list[0]);
      MergesFirst(db, shared, list[0]);
      var r := MergeSealed(db, shared, list[0]);
      if r.Ok? {
        ListRefusals(r.value, shared, list[1..]);
      }
    }
  }

  /** A side that serves stops at a bad request, before it says anything for it, and at a
      batch that is too large, with all it has still to say. */
  lemma ServingRefusals(x: Side, n: nat)
    requires x.phase.Serving? && CanEmit(x, n)
    ensures var (later, said) := Emit(x, n);
            if x.outbox != [] then
              if 1 + VarintLen(n) + WiresLen(x.outbox[..n]) > 16_777_216
              then later == x.(phase := Failed(FrameTooLarge)) && said == []
              else later == x.(outbox := x.outbox[n..]) && said == [EventBatch(x.outbox[..n])]
            else if x.todo == [] then later == x.(phase := AwaitEvents) && said == [SyncDone]
            else
              var r := x.todo[0];
              && said == []
              && (if r.group !in x.shared then later == x.(phase := Failed(UnauthorizedGroup))
                  else if r.first == 0 || r.first > r.last then later == x.(phase := Failed(InvalidRange))
                  else if r.last > 0x7fff_ffff_ffff_ffff then later == x.(phase := Failed(IntegerOutOfRange))
                  else later.phase.Serving? && later.todo == x.todo[1..])
  {
    hide RangeList, AuthorName, WiresLen, VarintLen;
  }

  /** The loop that serves refuses what the machine refuses. */
  lemma RequestRefusals(r: RangeRequest, shared: set<GroupId>)
    ensures RequestError(r, shared) ==
            if r.group !in shared then Some(UnauthorizedGroup)
            else if r.first == 0 || r.first > r.last then Some(InvalidRange)
            else if r.last > 0x7fff_ffff_ffff_ffff then Some(IntegerOutOfRange) else None
  {
  }

  /** The refusal of proofs, channels and events, and what of them is kept. */
  lemma RecordRefusals(x: Side, frame: Frame) returns (i: nat)
    requires ValidDb(x.db) && Awaits(x) && AnyPeer.InPlace(x.phase, frame)
    ensures var later := Take(x, frame);
            match frame
            case Channels(channels) =>
              && i == Leading(x.db.groups, x.shared, channels)
              && var db := MergeAll(x.db, x.shared, channels).0;
                 if i < |channels|
                 then
                   && DescriptorRefusal(x.db.groups, x.shared, channels[i]).Some?
                   && later == x.(phase := Failed(DescriptorRefusal(x.db.groups, x.shared, channels[i]).value), db :=
                        db)
                 else later == x.(phase := SendInventories, db := db)
            case EventBatch(wires) =>
              && i <= |wires|
              && var db := Deliver(x.db, wires[..i], x.remote.displayName).db;
                 if i < |wires|
                 then
                   && RemoteRefusal(db, wires[i].event).Some?
                   && later == x.(phase := Failed(RemoteRefusal(db, wires[i].event).value), db := db)
                 else later == x.(db := db, received := x.received + wires)
            case _ => true
  {
    hide Deliver, MergeAll, CleanLabel, RemoteRefusal, DescriptorRefusal, ValidDb, Authentic;
    i := 0;
    match frame
    case Channels(channels) =>
      i := Leading(x.db.groups, x.shared, channels);
      ListRefusals(x.db, x.shared, channels);
    case EventBatch(wires) => i := BatchRefusals(x.db, wires, x.remote.displayName);
    case _ =>
  }
}
