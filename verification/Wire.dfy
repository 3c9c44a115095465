/** Records of the reliable stream and their encoded sizes (src/network.rs). */
module Wire {
  import opened Base
  import opened Text
  import opened Model
  import opened Crypto
  import opened Tables
  import opened Inventory

  const MAX_FRAME_BYTES: nat := 16 * 1024 * 1024
  const SYNC_BATCH_BYTES: nat := 12 * 1024 * 1024

  datatype HelloBody = HelloBody(version: U16, nonce: Nonce, peer: PeerId, displayName: string, port: U16)

  datatype PeerHello = PeerHello(body: HelloBody, signature: Signature<HelloBody>)

  /** HMAC over the group, then sender and receiver with their nonces. */
  datatype Proof =
    | Mac(secret: Secret, group: GroupId, sender: PeerId, senderNonce: Nonce, receiver: PeerId, receiverNonce: Nonce)
    | OtherProof(bits: nat)

  datatype GroupProof = GroupProof(group: GroupId, proof: Proof)

  /** A channel descriptor sealed with a group key and bound to a group. */
  datatype Box = Boxed(key: Secret, associated: GroupId, content: Option<Channel>) | OtherBox(bits: nat)

  datatype SealedChannel = SealedChannel(group: GroupId, box: Box)

  datatype Frame =
    | Hello(hello: PeerHello)
    | GroupProofs(proofs: seq<GroupProof>)
    | Channels(channels: seq<SealedChannel>)
    | Inventories(inventories: seq<GroupInventory>)
    | Requests(requests: seq<RangeRequest>)
    | EventBatch(wires: seq<WireEvent>)
    | SyncDone

  // ---------------------------------------------------------------- handshake

  function VerifyHello(hello: PeerHello): Result<()> {
    var _ :- Ensure(hello.body.version == PROTOCOL_VERSION, UnsupportedVersion);
    var _ :- Ensure(HelloNameAccepted(hello.body.displayName), InvalidPeerName);
    VerifySignature(hello.body.peer, hello.body, hello.signature)
  }

  function GroupProofFor(secret: Secret, group: GroupId, sender: HelloBody, receiver: HelloBody): Proof {
    Mac(secret, group, sender.peer, sender.nonce, receiver.peer, receiver.nonce)
  }

  function ProofsOf(groups: map<GroupId, GroupRow>, local: HelloBody, remote: HelloBody): seq<GroupProof> {
    var list := GroupList(groups);
    GroupListMembers(groups);
    seq(|list|, i requires 0 <= i < |list| =>
      assert list[i] in GroupList(groups);
      GroupProof(list[i], GroupProofFor(groups[list[i]].secret, list[i], local, remote)))
  }

  function SharedGroups(groups: map<GroupId, GroupRow>, local: HelloBody, remote: HelloBody, proofs: seq<GroupProof>)
    : set<GroupId>
  {
    set g | g in groups && GroupProof(g, GroupProofFor(groups[g].secret, g, remote, local)) in proofs
  }

  function Common(x: map<GroupId, GroupRow>, y: map<GroupId, GroupRow>): set<GroupId> {
    set g | g in x && g in y && x[g].secret == y[g].secret
  }

  /** Proof checking finds exactly the groups that both hold with equal secrets. */
  lemma SharedExactly(x: map<GroupId, GroupRow>, y: map<GroupId, GroupRow>, hx: HelloBody, hy: HelloBody)
    ensures SharedGroups(x, hx, hy, ProofsOf(y, hy, hx)) == Common(x, y)
  {
    GroupListMembers(y);
    var list, proofs := GroupList(y), ProofsOf(y, hy, hx);
    assert forall i :: 0 <= i < |list| ==> list[i] in list;
    forall g
      ensures g in SharedGroups(x, hx, hy, proofs) <==> g in Common(x, y)
    {
      if g in Common(x, y) {
        var i :| 0 <= i < |list| && list[i] == g;
        assert proofs[i] == GroupProof(g, GroupProofFor(x[g].secret, g, hy, hx));
      }
      if g in x && GroupProof(g, GroupProofFor(x[g].secret, g, hy, hx)) in proofs {
        var i :| 0 <= i < |proofs| && proofs[i] == GroupProof(g, GroupProofFor(x[g].secret, g, hy, hx));
        assert list[i] == g;
      }
    }
  }

  /** A group counts as shared exactly when the side has it and among the proofs is one
      made with its key, from the other's hello to the own. */
  lemma ProvenExactly(groups: map<GroupId, GroupRow>, local: HelloBody, remote: HelloBody, proofs: seq<GroupProof>,
                      g: GroupId)
    ensures g in SharedGroups(groups, local, remote, proofs) <==>
            && g in groups
            && GroupProof(g, Mac(groups[g].secret, g, remote.peer, remote.nonce, local.peer, local.nonce)) in proofs
  {
  }

  /** What can be presented without the key of a group: anything that is no proof, proofs
      made with other keys, the side's own proofs sent back to it, and proofs that were
      made for another of its hellos. */
  predicate WithoutKey(proof: Proof, secret: Secret, local: HelloBody) {
    proof.Mac? ==> proof.secret != secret || proof.sender == local.peer || proof.receiverNonce != local.nonce
  }

  /** None of that makes the group a shared one. */
  lemma NoKeyNoShare(groups: map<GroupId, GroupRow>, local: HelloBody, remote: HelloBody, proofs: seq<GroupProof>,
                     g: GroupId)
    requires remote.peer != local.peer && g in groups
    requires forall p :: p in proofs ==> WithoutKey(p.proof, groups[g].secret, local)
    ensures g !in SharedGroups(groups, local, remote, proofs)
  {
    ProvenExactly(groups, local, remote, proofs, g);
  }

  // ---------------------------------------------------------------- channels

  function SealChannel(secret: Secret, channel: Channel): SealedChannel {
    SealedChannel(channel.group, Boxed(secret, channel.group, Some(channel)))
  }

  function SealAll(secret: Secret, channels: seq<Channel>): seq<SealedChannel> {
    seq(|channels|, i requires 0 <= i < |channels| => SealChannel(secret, channels[i]))
  }

  /** The channels of the shared groups, group after group. */
  function ChannelFrames(groups: map<GroupId, GroupRow>, channels: map<ChannelId, ChannelRow>,
                         list: seq<GroupId>, shared: set<GroupId>): seq<SealedChannel>
  {
    if list == [] then []
    else
      (if list[0] in shared && list[0] in groups
       then SealAll(groups[list[0]].secret, ChannelList(channels, list[0]))
       else [])
      + ChannelFrames(groups, channels, list[1..], shared)
  }

  function OpenChannel(sealed: SealedChannel, secret: Secret): Result<Channel> {
    var _ :- Ensure(sealed.box.Boxed? && sealed.box.key == secret && sealed.box.associated == sealed.group,
                    AuthenticationFailed);
    if sealed.box.content.Some? then Ok(sealed.box.content.value) else Err(UndecodablePayload)
  }

  function MergeSealed(db: Db, shared: set<GroupId>, sealed: SealedChannel): Result<Db> {
    var _ :- Ensure(sealed.group in shared, UnauthorizedGroup);
    var _ :- Ensure(sealed.group in db.groups, UnknownGroup);
    var channel :- OpenChannel(sealed, db.groups[sealed.group].secret);
    var _ :- Ensure(channel.group == sealed.group, ChannelGroupMismatch);
    MergeChannel(db, channel)
  }

  /** Each descriptor is merged as it comes; the first that is refused ends it. */
  function MergeAll(db: Db, shared: set<GroupId>, list: seq<SealedChannel>): (Db, Option<Error>)
    decreases |list|
  {
    if list == [] then (db, None)
    else
      match MergeSealed(db, shared, list[0])
      case Err(error) => (db, Some(error))
      case Ok(next) => MergeAll(next, shared, list[1..])
  }

  /** A descriptor of a shared and known group, sealed with the key of that group, and
      saying so inside and out. */
  predicate Authentic(groups: map<GroupId, GroupRow>, shared: set<GroupId>, sealed: SealedChannel) {
    && sealed.group in shared && sealed.group in groups
    && sealed.box.Boxed? && sealed.box.key == groups[sealed.group].secret && sealed.box.associated == sealed.group
    && sealed.box.content.Some? && sealed.box.content.value.group == sealed.group
  }

  /** The first descriptor of the channel in the list. */
  function FirstOf(list: seq<SealedChannel>, c: ChannelId): Option<Channel> {
    if list == [] then None
    else if list[0].box.Boxed? && list[0].box.content.Some? && list[0].box.content.value.id == c
    then list[0].box.content
    else FirstOf(list[1..], c)
  }

  /** How many descriptors come before the first that is not authentic. */
  function Leading(groups: map<GroupId, GroupRow>, shared: set<GroupId>, list: seq<SealedChannel>): (n: nat)
    ensures n <= |list| && (forall i :: 0 <= i < n ==> Authentic(groups, shared, list[i]))
    ensures n < |list| ==> !Authentic(groups, shared, list[n])
  {
    if list == [] || !Authentic(groups, shared, list[0]) then 0
    else
      var n := 1 + Leading(groups, shared, list[1..]);
      assert forall i :: 1 <= i < |list| ==> list[i] == list[1..][i - 1];
      n
  }

  /** A list of descriptors is taken up to the first that is not authentic, which is
      refused; the channels held stay, and each other one is what its first descriptor
      says, with its name cleaned. */
  lemma {:induction false} MergesExactly(db: Db, shared: set<GroupId>, list: seq<SealedChannel>, c: ChannelId)
    ensures var (later, error) := MergeAll(db, shared, list);
            var n := Leading(db.groups, shared, list);
            && (error.None? <==> n == |list|)
            && later == db.(channels := later.channels)
            && (c in later.channels <==> c in db.channels || FirstOf(list[..n], c).Some?)
            && (c in db.channels ==> later.channels[c] == db.channels[c])
            && (c !in db.channels && FirstOf(list[..n], c).Some? ==>
                  var first := FirstOf(list[..n], c).value;
                  later.channels[c] == ChannelRow(first.group, CleanLabel(first.name, "channel", 64), first.position))
    decreases |list|
  {
    hide CleanLabel, Authentic;
    if list != [] {
      MergesFirst(db, shared, list[0]);
      var merged := MergeSealed(db, shared, list[0]);
      if merged.Ok? {
        var n := Leading(db.groups, shared, list);
        MergesExactly(merged.value, shared, list[1..], c);
        assert list[..n][0] == list[0] && list[..n][1..] == list[1..][..n - 1];
        AuthenticMeans(db.groups, shared, list[0]);
      }
    }
  }

  lemma AuthenticMeans(groups: map<GroupId, GroupRow>, shared: set<GroupId>, sealed: SealedChannel)
    requires Authentic(groups, shared, sealed)
    ensures sealed.box.Boxed? && sealed.box.content.Some?
  {
  }

  lemma MergesFirst(db: Db, shared: set<GroupId>, sealed: SealedChannel)
    ensures MergeSealed(db, shared, sealed).Ok? <==> Authentic(db.groups, shared, sealed)
    ensures MergeSealed(db, shared, sealed).Ok? ==>
              var later, channel := MergeSealed(db, shared, sealed).value, sealed.box.content.value;
              later == if channel.id in db.channels then db
                       else db.(channels := db.channels[channel.id :=
                              ChannelRow(channel.group, CleanLabel(channel.name, "channel", 64), channel.position)])
  {
    hide CleanLabel;
  }

  /** The descriptors that a side sends: those of its channels of the listed and shared
      groups, each as it is stored, sealed with the key of its group. */
  lemma {:induction false} FramesExactly(groups: map<GroupId, GroupRow>, channels: map<ChannelId, ChannelRow>,
                                         list: seq<GroupId>, shared: set<GroupId>, sealed: SealedChannel)
    ensures sealed in ChannelFrames(groups, channels, list, shared) <==>
            && sealed.group in list && sealed.group in shared && sealed.group in groups
            && sealed.box.Boxed? && sealed.box.key == groups[sealed.group].secret
            && sealed.box.associated == sealed.group && sealed.box.content.Some?
            && var channel := sealed.box.content.value;
               && channel.group == sealed.group && channel.id in channels
               && channels[channel.id] == ChannelRow(sealed.group, channel.name, channel.position)
  {
    hide ChannelList;
    if list != [] {
      FramesExactly(groups, channels, list[1..], shared, sealed);
      assert sealed.group in list <==> sealed.group == list[0] || sealed.group in list[1..];
      if list[0] in groups {
        SealedExactly(groups[list[0]].secret, ChannelList(channels, list[0]), sealed);
      }
      if sealed.box.Boxed? && sealed.box.content.Some? {
        ChannelListExactly(channels, list[0], sealed.box.content.value);
      }
    }
  }

  lemma SealedExactly(secret: Secret, channels: seq<Channel>, sealed: SealedChannel)
    ensures sealed in SealAll(secret, channels) <==>
            && sealed.box.Boxed? && sealed.box.key == secret && sealed.box.associated == sealed.group
            && sealed.box.content.Some? && sealed.box.content.value.group == sealed.group
            && sealed.box.content.value in channels
  {
    var all := SealAll(secret, channels);
    if sealed.box.Boxed? && sealed.box.content.Some? && sealed.box.content.value in channels {
      var i :| 0 <= i < |channels| && channels[i] == sealed.box.content.value;
      assert all[i] == SealChannel(secret, channels[i]);
    }
  }

  lemma {:induction false} FirstIsOne(list: seq<SealedChannel>, c: ChannelId) returns (sealed: SealedChannel)
    ensures FirstOf(list, c).Some? ==> sealed in list && sealed.box.Boxed? && sealed.box.content == FirstOf(list, c)
    ensures FirstOf(list, c).Some? ==> FirstOf(list, c).value.id == c
    ensures FirstOf(list, c).None? ==>
              forall s :: s in list && s.box.Boxed? && s.box.content.Some? ==> s.box.content.value.id != c
  {
    sealed := SealedChannel(0, OtherBox(0));
    if list != [] {
      if list[0].box.Boxed? && list[0].box.content.Some? && list[0].box.content.value.id == c {
        sealed := list[0];
      } else {
        sealed := FirstIsOne(list[1..], c);
      }
    }
  }

  /** What a peer with equal keys makes of them: every channel of the groups that was not
      held is now as the sender has it, with its name cleaned, and all else stays. */
  lemma ChannelsCopied(src: Db, dst: Db, list: seq<GroupId>, shared: set<GroupId>, c: ChannelId)
    requires shared <= Common(src.groups, dst.groups) && forall g :: g in list <==> g in shared
    ensures var (later, error) := MergeAll(dst, shared, ChannelFrames(src.groups, src.channels, list, shared));
            && error.None? && later == dst.(channels := later.channels)
            && (c in later.channels <==> c in dst.channels || (c in src.channels && src.channels[c].group in shared))
            && (c in later.channels ==>
                  later.channels[c] ==
                    if c in dst.channels then dst.channels[c]
                    else var row := src.channels[c];
                         ChannelRow(row.group, CleanLabel(row.name, "channel", 64), row.position))
  {
    hide CleanLabel, ChannelFrames, FirstOf, MergeAll;
    var sent := ChannelFrames(src.groups, src.channels, list, shared);
    forall i | 0 <= i < |sent|
      ensures Authentic(dst.groups, shared, sent[i])
    {
      FramesExactly(src.groups, src.channels, list, shared, sent[i]);
    }
    MergesExactly(dst, shared, sent, c);
    assert sent[..|sent|] == sent;
    var first := FirstIsOne(sent, c);
    FramesExactly(src.groups, src.channels, list, shared, first);
    if c in src.channels && src.channels[c].group in shared {
      var row := src.channels[c];
      var channel := Channel(c, row.group, row.name, row.position);
      FramesExactly(src.groups, src.channels, list, shared, SealChannel(src.groups[row.group].secret, channel));
    }
  }

  // ---------------------------------------------------------------- sizes

  /** Seven bits to the byte. */
  function VarintLen(n: nat): (len: nat)
    ensures len >= 1
  {
    if n < 128 then 1 else 1 + VarintLen(n / 128)
  }

  function Pow128(k: nat): (p: nat)
    ensures p >= 1
  {
    if k == 0 then 1 else 128 * Pow128(k - 1)
  }

  lemma {:induction false} VarintBound(n: nat, k: nat)
    requires n < Pow128(k) && k > 0
    ensures VarintLen(n) <= k
  {
    if n >= 128 {
      assert n / 128 < Pow128(k - 1);
      assert k - 1 > 0;
      VarintBound(n / 128, k - 1);
    }
  }

  /** The shortest encoding that has room, at seven bits to the byte. */
  lemma {:induction false} VarintLenExactly(n: nat, k: nat)
    requires k > 0
    ensures VarintLen(n) <= k <==> n < Pow128(k)
  {
    assert Pow128(1) == 128 * Pow128(0);
    if n >= 128 && k > 1 {
      VarintLenExactly(n / 128, k - 1);
    }
  }

  lemma Pow128Ten()
    ensures Pow128(10) == 0x40_0000_0000_0000_0000
    ensures Pow128(2) == 0x4000
  {
    assert Pow128(2) == 0x4000;
    assert Pow128(4) == 0x4000 * 0x4000;
    assert Pow128(6) == 0x4000 * 0x4000 * 0x4000;
    assert Pow128(8) == 0x4000 * 0x4000 * 0x4000 * 0x4000;
  }

  function ZigZag(x: I64): U64 {
    if x >= 0 then 2 * x else -2 * x - 1
  }

  function BytesLen(n: nat): nat {
    VarintLen(n) + n
  }

  function PayloadLen(payload: MessagePayload): nat {
    match payload
    case Attachment(fileName, mime, bytes, caption) =>
      1 + BytesLen(ByteLen(fileName)) + BytesLen(ByteLen(mime)) + BytesLen(|bytes|) + BytesLen(ByteLen(caption))
    case _ => 1 + BytesLen(ByteLen(payload.body))
  }

  /** Plaintext and a 16-byte authentication tag. */
  function CiphertextLen(ciphertext: Ciphertext): nat {
    match ciphertext
    case Sealed(_, _, _, Encoded(payload)) => PayloadLen(payload) + 16
    case Sealed(_, _, _, Undecodable(len, _)) => len + 16
    case Noise(len, _) => len
  }

  /** Version, id, group, channel, author, sequence, time, kind and nonce. */
  function HeaderLen(h: EventHeader): nat {
    VarintLen(h.version) + 32 + 16 + 16 + 32 + VarintLen(h.sequence) + VarintLen(ZigZag(h.sentAt)) + 1 + 24
  }

  function EventLen(event: EventEnvelope): nat {
    HeaderLen(event.header) + BytesLen(CiphertextLen(event.ciphertext)) + BytesLen(SignatureLen(event.signature))
  }

  function WireEventLen(wire: WireEvent): nat {
    EventLen(wire.event) + BytesLen(ByteLen(wire.authorName))
  }

  function WiresLen(wires: seq<WireEvent>): nat {
    if wires == [] then 0 else WireEventLen(wires[0]) + WiresLen(wires[1..])
  }

  /** The encoded size of a batch frame: tag, count, events. */
  function BatchLen(wires: seq<WireEvent>): nat {
    1 + VarintLen(|wires|) + WiresLen(wires)
  }

  /** The size that the sender counts for one event. */
  function Estimate(wire: WireEvent): nat {
    CiphertextLen(wire.event.ciphertext) + SignatureLen(wire.event.signature) + ByteLen(wire.authorName) + 256
  }

  function Estimates(wires: seq<WireEvent>): nat {
    if wires == [] then 0 else Estimate(wires[0]) + Estimates(wires[1..])
  }

  /** Lengths fit a 64-bit size. */
  predicate Addressable(wire: WireEvent) {
    && CiphertextLen(wire.event.ciphertext) <= U64_MAX
    && SignatureLen(wire.event.signature) <= U64_MAX
    && ByteLen(wire.authorName) <= U64_MAX
  }

  /** The allowance of 256 bytes covers everything but the three byte strings, with
      at least 78 bytes to spare. */
  lemma EstimateDominates(wire: WireEvent)
    requires Addressable(wire)
    ensures WireEventLen(wire) + 78 <= Estimate(wire)
  {
    Pow128Ten();
    var h := wire.event.header;
    VarintBound(h.version, 10);
    VarintBound(h.sequence, 10);
    VarintBound(ZigZag(h.sentAt), 10);
    VarintBound(CiphertextLen(wire.event.ciphertext), 10);
    VarintBound(SignatureLen(wire.event.signature), 10);
    VarintBound(ByteLen(wire.authorName), 10);
    assert VarintLen(h.version) <= 3 by {
      assert VarintLen(h.version) == if h.version < 128 then 1 else 1 + VarintLen(h.version / 128);
      assert Pow128(3) == 0x20_0000;
      VarintBound(h.version, 3);
    }
  }

  lemma {:induction false} EstimatesDominate(wires: seq<WireEvent>)
    requires forall i :: 0 <= i < |wires| ==> Addressable(wires[i])
    ensures WiresLen(wires) + 78 * |wires| <= Estimates(wires)
  {
    if wires != [] {
      EstimateDominates(wires[0]);
      EstimatesDominate(wires[1..]);
    }
  }

  /** The rule by which the sender cuts batches. */
  predicate BatchRule(wires: seq<WireEvent>) {
    |wires| == 1 || (|wires| > 1 && Estimates(wires) <= SYNC_BATCH_BYTES)
  }

  /** A batch of several events always passes the frame limit, at both ends. */
  lemma MultiBatchFits(wires: seq<WireEvent>)
    requires forall i :: 0 <= i < |wires| ==> Addressable(wires[i])
    requires |wires| > 1 && BatchRule(wires)
    ensures BatchLen(wires) <= 16_777_216
  {
    EstimatesDominate(wires);
    Pow128Ten();
    VarintBound(|wires|, 10);
  }

  /** A live event has a frame of its own: a tag and the event. */
  predicate LiveFits(wire: WireEvent) {
    1 + WireEventLen(wire) <= MAX_FRAME_BYTES
  }

  /** What fits a batch of one fits a live frame, and what fits under a name fits
      under the empty one. */
  lemma FitsWithoutName(wire: WireEvent)
    ensures BatchLen([wire]) <= MAX_FRAME_BYTES ==> LiveFits(wire)
    ensures LiveFits(wire) ==> LiveFits(WireEvent(wire.event, ""))
  {
    SingleBatchLen(wire);
    assert VarintLen(ByteLen("")) == 1;
  }

  /** The event fits a frame on its own under every name that a store can hold. */
  ghost predicate FitsUnderAnyName(event: EventEnvelope) {
    forall name :: ByteLen(name) <= 192 ==> BatchLen([WireEvent(event, name)]) <= MAX_FRAME_BYTES
  }

  /** The same by its size: tag, count, the length of the longest name, and the name. */
  predicate Sendable(event: EventEnvelope) {
    4 + EventLen(event) + 192 <= MAX_FRAME_BYTES
  }

  lemma SingleBatchFits(wire: WireEvent)
    requires Sendable(wire.event) && ByteLen(wire.authorName) <= 192
    ensures BatchLen([wire]) <= MAX_FRAME_BYTES
    ensures Addressable(wire)
  {
    Pow128Ten();
    VarintBound(ByteLen(wire.authorName), 2);
    SingleBatchLen(wire);
  }

  lemma {:induction false} LongName(n: nat)
    ensures ByteLen(seq(n, _ => '\U{10000}')) == 4 * n
  {
    if n > 0 {
      var name := seq(n, _ => '\U{10000}');
      assert name[1..] == seq(n - 1, _ => '\U{10000}');
      LongName(n - 1);
    }
  }

  lemma SingleBatchLen(wire: WireEvent)
    ensures BatchLen([wire]) == 2 + WireEventLen(wire)
  {
    assert [wire][1..] == [];
    assert WiresLen([wire]) == WireEventLen(wire) + WiresLen([]);
  }

  /** The size says it exactly: 48 characters of four bytes are the worst name. */
  lemma SendableExactly(event: EventEnvelope)
    ensures Sendable(event) <==> FitsUnderAnyName(event)
  {
    if FitsUnderAnyName(event) {
      var name := seq(48, _ => '\U{10000}');
      LongName(48);
      SingleBatchLen(WireEvent(event, name));
      assert VarintLen(192) == 2;
    }
    if Sendable(event) {
      forall name | ByteLen(name) <= 192
        ensures BatchLen([WireEvent(event, name)]) <= MAX_FRAME_BYTES
      {
        SingleBatchFits(WireEvent(event, name));
      }
    }
  }

  /** A single event passes whenever its estimate is within
      the frame limit. */
  lemma SingleBatchByEstimate(wire: WireEvent)
    requires Addressable(wire) && Estimate(wire) <= MAX_FRAME_BYTES
    ensures BatchLen([wire]) <= MAX_FRAME_BYTES
  {
    EstimateDominates(wire);
    SingleBatchLen(wire);
  }

  /** A valid attachment can be too large to ever be sent: neither the file name
      nor the media type has a size limit, only the bytes and the caption do. */
  lemma ValidPayloadCanBeUnsendable(author: PeerId, group: GroupId, channel: ChannelId, secret: Secret,
                                    sequence: U64, now: I64, nonce: Nonce, name: string)
    ensures var payload := Attachment("a", seq(MAX_FRAME_BYTES, _ => 'a'), [], "");
            var event := SealEvent(author, group, channel, secret, sequence, now, nonce, payload);
            && payload.Validate().Ok? && event.Ok?
            && BatchLen([WireEvent(event.value, name)]) > MAX_FRAME_BYTES
            && !LiveFits(WireEvent(event.value, name))
  {
    var mime := seq(MAX_FRAME_BYTES, _ => 'a');
    var payload := Attachment("a", mime, [], "");
    assert !IsWhitespace("a"[0]);
    ByteLenBound(mime);
    assert payload.Validate() == Ok(());
    var event := SealEvent(author, group, channel, secret, sequence, now, nonce, payload).value;
    assert CiphertextLen(event.ciphertext) > MAX_FRAME_BYTES;
    assert WiresLen([WireEvent(event, name)]) >= WireEventLen(WireEvent(event, name));
  }

  /** Exactly the payloads that encode within the room left by header, signature,
      tag and the longest name make events that fit a frame under any stored name. */
  lemma SealedFitsExactly(author: PeerId, group: GroupId, channel: ChannelId, secret: Secret,
                          sequence: U64, now: I64, nonce: Nonce, payload: MessagePayload)
    requires payload.Validate().Ok?
    ensures var event := SealEvent(author, group, channel, secret, sequence, now, nonce, payload);
            event.Ok? &&
            (FitsUnderAnyName(event.value) <==>
             BytesLen(PayloadLen(payload) + 16) + VarintLen(sequence) + VarintLen(ZigZag(now)) <= 16_776_833)
  {
    SendableExactly(SealEvent(author, group, channel, secret, sequence, now, nonce, payload).value);
  }

  /** And exactly the payloads whose event fits a frame of its own, with the name it is
      sent under: what one can check before appending. */
  lemma SealedLiveExactly(author: PeerId, group: GroupId, channel: ChannelId, secret: Secret, sequence: U64, now: I64,
                          nonce: Nonce, payload: MessagePayload, name: string)
    requires payload.Validate().Ok?
    ensures var event := SealEvent(author, group, channel, secret, sequence, now, nonce, payload);
            event.Ok? &&
            (LiveFits(WireEvent(event.value, name)) <==>
             BytesLen(PayloadLen(payload) + 16) + VarintLen(sequence) + VarintLen(ZigZag(now)) + BytesLen(ByteLen(name))
               <= 16_777_028)
  {
    hide PayloadLen, ByteLen;
    var event := SealEvent(author, group, channel, secret, sequence, now, nonce, payload).value;
    assert HeaderLen(event.header) == 121 + VarintLen(sequence) + VarintLen(ZigZag(now)) + VarintLen(PROTOCOL_VERSION);
  }

  lemma OneLetter(c: char)
    requires c < 128 as char
    ensures ByteLen([c]) == 1
  {
    assert [c][1..] == "";
  }

  /** Two sizes in numbers: a text of one letter, and an attachment with one byte in
      every field; and what the sender counts for the text. */
  lemma SizesInNumbers(name: string)
    requires ByteLen(name) == 1
    ensures PayloadLen(TextMessage("x")) == 3 && PayloadLen(Attachment("a", "b", [0], "c")) == 9
    ensures var event := SealEvent(1, 7, 9, 5, 1, 0, 0, TextMessage("x"));
            && event.Ok? && EventLen(event.value) == 209
            && WireEventLen(WireEvent(event.value, name)) == 211 && Estimate(WireEvent(event.value, name)) == 340
  {
    OneLetter('x');
    OneLetter('a');
    OneLetter('b');
    OneLetter('c');
    assert !IsWhitespace("x"[0]);
    assert TextMessage("x").Validate() == Ok(());
    hide ByteLen;
    assert VarintLen(64) == 1 && VarintLen(19) == 1 && VarintLen(1) == 1 && VarintLen(ZigZag(0)) == 1;
  }
}
