/** Events, channels, groups and inventories (src/model.rs), with symbolic
    cryptography: a ciphertext, a digest and a signature remember what they were
    made from, so that decryption and verification are comparisons. */
module Model {
  import opened Base
  import opened Text

  const PROTOCOL_VERSION: U16 := 1
  const MAX_TEXT_BYTES: nat := 64 * 1024
  const MAX_ATTACHMENT_BYTES: nat := 8 * 1024 * 1024

  datatype MessagePayload =
    | TextMessage(body: string)
    | Attachment(fileName: string, mime: string, bytes: seq<U8>, caption: string)
    | SystemMessage(body: string)
  {
    function Kind(): U8 {
      match this
      case TextMessage(_) => 1
      case Attachment(_, _, _, _) => 2
      case SystemMessage(_) => 3
    }

    function Validate(): Result<()> {
      match this
      case Attachment(fileName, _, bytes, caption) =>
        var _ :- Ensure(!IsBlank(fileName), NoFileName);
        var _ :- Ensure(|bytes| <= MAX_ATTACHMENT_BYTES, AttachmentTooLong);
        Ensure(ByteLen(caption) <= MAX_TEXT_BYTES, CaptionTooLong)
      case _ =>
        var _ :- Ensure(!IsBlank(body), EmptyMessage);
        Ensure(ByteLen(body) <= MAX_TEXT_BYTES, MessageTooLong)
    }
  }

  datatype EventHeaderWithoutId = EventHeaderWithoutId(
    version: U16, group: GroupId, channel: ChannelId, author: PeerId,
    sequence: U64, sentAt: I64, kind: U8, nonce: Nonce)

  /** The decrypted bytes: an encoded payload, or bytes that decode to none. */
  datatype Plaintext = Encoded(payload: MessagePayload) | Undecodable(len: nat, bits: nat)

  /** `Noise` stands for every byte string that no encryption produced. */
  datatype Ciphertext =
    | Sealed(key: Secret, nonce: Nonce, associated: EventHeaderWithoutId, plain: Plaintext)
    | Noise(len: nat, bits: nat)

  datatype EventId = Digest(header: EventHeaderWithoutId, body: Ciphertext) | OtherId(bits: nat)

  datatype EventHeader = EventHeader(
    version: U16, id: EventId, group: GroupId, channel: ChannelId, author: PeerId,
    sequence: U64, sentAt: I64, kind: U8, nonce: Nonce)
  {
    function WithoutId(): EventHeaderWithoutId {
      EventHeaderWithoutId(version, group, channel, author, sequence, sentAt, kind, nonce)
    }
  }

  datatype Signature<M> = Signed(signer: PeerId, message: M) | OtherSignature(len: nat, bits: nat)

  datatype SigningBytes = SigningBytes(header: EventHeader, body: Ciphertext)

  datatype EventEnvelope = EventEnvelope(
    header: EventHeader, ciphertext: Ciphertext, signature: Signature<SigningBytes>)

  /** An event on the wire, with the name its sender knows its author by. */
  datatype WireEvent = WireEvent(event: EventEnvelope, authorName: string)

  datatype Channel = Channel(id: ChannelId, group: GroupId, name: string, position: U32)

  datatype InviteChannel = InviteChannel(id: ChannelId, name: string, position: U32)

  datatype UnsignedGroupInvite = UnsignedGroupInvite(
    version: U16, group: GroupId, groupName: string, secret: Secret,
    channels: seq<InviteChannel>, inviter: PeerId, inviterName: string, createdAt: I64)

  datatype GroupInvite = GroupInvite(body: UnsignedGroupInvite, signature: Signature<UnsignedGroupInvite>)

  datatype AuthorHead = AuthorHead(author: PeerId, sequence: U64)

  datatype GroupInventory = GroupInventory(group: GroupId, heads: seq<AuthorHead>)
}
