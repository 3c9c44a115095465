/** Machine integers, identifiers and the result type shared by every module. */
module Base {
  const U32_LIMIT: nat := 0x1_0000_0000
  const U64_MAX: nat := 0xffff_ffff_ffff_ffff
  const I64_MAX: nat := 0x7fff_ffff_ffff_ffff

  type U8 = x: int | 0 <= x < 0x100
  type U16 = x: int | 0 <= x < 0x1_0000
  type U32 = x: int | 0 <= x < 0x1_0000_0000
  type U64 = x: int | 0 <= x <= 0xffff_ffff_ffff_ffff
  type I64 = x: int | -0x8000_0000_0000_0000 <= x <= 0x7fff_ffff_ffff_ffff

  // Fixed-length byte strings are read as big-endian numbers, so that their
  // byte order is the order of the numbers.
  type PeerId = nat
  type GroupId = nat
  type ChannelId = nat
  type Secret = nat
  type Nonce = nat

  datatype Option<+T> = None | Some(value: T)

  /** Every way an operation of the store or of a session can be refused. */
  datatype Error =
    | EmptyMessage
    | MessageTooLong
    | NoFileName
    | AttachmentTooLong
    | CaptionTooLong
    | UnsupportedVersion
    | EventIdMismatch
    | BadSignature
    | AuthenticationFailed
    | UndecodablePayload
    | KindMismatch
    | UnknownChannel
    | UnknownGroup
    | AuthorBlocked
    | Equivocation
    | IntegerOutOfRange
    | ConstraintViolation
    | KeyConflict
    | NoChannels
    | InvalidRange
    | UnauthorizedGroup
    | FrameTooLarge
    | UnexpectedRecord
    | InvalidPeerName
    | SelfConnection
    | PeerBlocked
    | NoSharedGroup
    | ChannelGroupMismatch
    | StreamEnded

  datatype Result<+T> = Ok(value: T) | Err(error: Error) {
    predicate IsFailure() {
      Err?
    }

    function PropagateFailure<U>(): Result<U>
      requires Err?
    {
      Err(error)
    }

    function Extract(): T
      requires Ok?
    {
      value
    }
  }

  /** The guard of an early return: nothing on success, the error otherwise. */
  function Ensure(condition: bool, error: Error): Result<()> {
    if condition then Ok(()) else Err(error)
  }

  function Min(a: int, b: int): int {
    if a <= b then a else b
  }

  function Max(a: int, b: int): int {
    if a >= b then a else b
  }

  /** u64 addition of one that stays at the top of the range. */
  function SaturatingSucc(x: U64): U64 {
    if x == U64_MAX then U64_MAX else x + 1
  }

  lemma Product(a: nat, b: nat, unit: nat)
    requires a < b
    ensures a * unit + unit <= b * unit
  {
    assert (b - a - 1) * unit >= 0;
    assert b * unit == (b - a - 1) * unit + a * unit + unit;
  }

  lemma Quotient(x: nat, unit: nat, q: nat, r: nat)
    requires unit > 0 && x == q * unit + r && r < unit
    ensures x / unit == q && x % unit == r
  {
    var p, s := x / unit, x % unit;
    assert x == p * unit + s;
    if p < q {
      Product(p, q, unit);
    } else if q < p {
      Product(q, p, unit);
    }
  }
}
