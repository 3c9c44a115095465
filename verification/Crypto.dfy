/** Sealing and opening of events (src/crypto.rs). */
module Crypto {
  import opened Base
  import opened Model

  function SealEvent(author: PeerId, group: GroupId, channel: ChannelId, secret: Secret,
                     sequence: U64, sentAt: I64, nonce: Nonce, payload: MessagePayload)
    : Result<EventEnvelope>
  {
    var _ :- payload.Validate();
    var withoutId := EventHeaderWithoutId(
      PROTOCOL_VERSION, group, channel, author, sequence, sentAt, payload.Kind(), nonce);
    var ciphertext := Sealed(secret, nonce, withoutId, Encoded(payload));
    var header := EventHeader(
      PROTOCOL_VERSION, Digest(withoutId, ciphertext), group, channel, author, sequence, sentAt,
      payload.Kind(), nonce);
    Ok(EventEnvelope(header, ciphertext, Signed(author, SigningBytes(header, ciphertext))))
  }

  function VerifySignature<M(==)>(peer: PeerId, message: M, signature: Signature<M>): Result<()> {
    Ensure(signature == Signed(peer, message), BadSignature)
  }

  function Decrypt(ciphertext: Ciphertext, secret: Secret, nonce: Nonce, associated: EventHeaderWithoutId)
    : Result<Plaintext>
  {
    if ciphertext.Sealed? && ciphertext.key == secret && ciphertext.nonce == nonce
       && ciphertext.associated == associated
    then Ok(ciphertext.plain)
    else Err(AuthenticationFailed)
  }

  function ValidateAndOpenEvent(event: EventEnvelope, secret: Secret): Result<MessagePayload> {
    var header := event.header;
    var _ :- Ensure(header.version == PROTOCOL_VERSION, UnsupportedVersion);
    var withoutId := header.WithoutId();
    var _ :- Ensure(Digest(withoutId, event.ciphertext) == header.id, EventIdMismatch);
    var _ :- VerifySignature(header.author, SigningBytes(header, event.ciphertext), event.signature);
    var plain :- Decrypt(event.ciphertext, secret, header.nonce, withoutId);
    var payload :- if plain.Encoded? then Ok(plain.payload) else Err(UndecodablePayload);
    var _ :- Ensure(payload.Kind() == header.kind, KindMismatch);
    var _ :- payload.Validate();
    Ok(payload)
  }

  function VerifyInvite(invite: GroupInvite): Result<()> {
    var _ :- Ensure(invite.body.version == PROTOCOL_VERSION, UnsupportedVersion);
    VerifySignature(invite.body.inviter, invite.body, invite.signature)
  }

  /** The event that `author` seals from the fields of `header`. */
  function Resealed(header: EventHeader, secret: Secret, payload: MessagePayload): Result<EventEnvelope> {
    SealEvent(header.author, header.group, header.channel, secret, header.sequence, header.sentAt,
              header.nonce, payload)
  }

  /** An event opens to a payload exactly when it is, in every field, what its
      author seals from that payload: sealing and opening are inverse, and a change
      of any part of a sealed event makes it fail to open. */
  lemma OpensExactlyWhatWasSealed(event: EventEnvelope, secret: Secret, payload: MessagePayload)
    ensures ValidateAndOpenEvent(event, secret) == Ok(payload) <==>
            Resealed(event.header, secret, payload) == Ok(event)
  {
    if payload.Validate().Ok? {
      assert payload.Validate() == Ok(());
    }
  }

  /** An event opens under at most one secret. */
  lemma OpensUnderOneSecret(event: EventEnvelope, s: Secret, t: Secret)
    requires ValidateAndOpenEvent(event, s).Ok? && ValidateAndOpenEvent(event, t).Ok?
    ensures s == t
  {
    assert event.ciphertext.key == s && event.ciphertext.key == t;
  }

  /** Two valid events with one id are one event. */
  lemma IdIdentifiesEvent(e: EventEnvelope, f: EventEnvelope, s: Secret, t: Secret)
    requires ValidateAndOpenEvent(e, s).Ok? && ValidateAndOpenEvent(f, t).Ok?
    requires e.header.id == f.header.id
    ensures e == f && s == t
  {
    assert e.header.WithoutId() == f.header.WithoutId() && e.ciphertext == f.ciphertext;
    assert e.header == f.header;
  }
}
