/** The letter model shared by every layer: the letter envelope, its type and
    option flags, the batching configuration, the batch builder and the events a
    channel raises. */
module Letters {

  newtype byte = x: int | 0 <= x < 256

  /** An opaque serialized segment. */
  type Bytes = seq<byte>

  /** A node or correlation identifier; EmptyGuid plays the role of Guid.Empty. */
  type Guid = nat

  const EmptyGuid: Guid := 0

  /** A channel's shutdown reason, carried through unchanged. */
  type ShutdownReason = nat

  datatype Option<T> = None | Some(value: T)

  datatype LetterType = Ack | Initialize | Heartbeat | Batch | User

  /** The byte each letter type is encoded as. */
  function TypeCode(t: LetterType): (b: byte)
    ensures b in {0x01, 0x02, 0x03, 0x04, 0x64}
  {
    match t
    case Ack => 0x01
    case Initialize => 0x02
    case Heartbeat => 0x03
    case Batch => 0x04
    case User => 0x64
  }

  /** Decodes a letter type byte; bytes that name no type give None. */
  function TypeFromCode(b: byte): (r: Option<LetterType>)
    ensures r.Some? ==> TypeCode(r.value) == b
    ensures r.None? <==> b !in {0x01, 0x02, 0x03, 0x04, 0x64}
  {
    if b == 0x01 then Some(LetterType.Ack)
    else if b == 0x02 then Some(Initialize)
    else if b == 0x03 then Some(Heartbeat)
    else if b == 0x04 then Some(Batch)
    else if b == 0x64 then Some(User)
    else None
  }

  /** Encoding then decoding a letter type gives it back. */
  lemma TypeCodeRoundTrip(t: LetterType)
    ensures TypeFromCode(TypeCode(t)) == Some(t)
  {
  }

  /** The independent flags of a letter; a flag is set when it is in the set. */
  datatype LetterOption = Requeue | SilentDiscard | Multicast | Answer | UniqueId | Ack

  type LetterOptions = set<LetterOption>

  datatype Letter = Letter(
    id: Guid,
    letterType: LetterType,
    options: LetterOptions,
    address: seq<Guid>,
    parts: seq<Bytes>)
  {
    predicate IsBatch() { letterType == Batch }
  }

  /** Batching configuration; times in milliseconds. */
  datatype BatchOptions = BatchOptions(enabled: bool, extendMs: nat, maxExtendMs: nat, maxLetters: nat)

  /** The defaults a socket starts with: batching on, Extend 100 ms, MaxExtend 1 s, 4000 letters. */
  const DefaultBatchOptions: BatchOptions := BatchOptions(true, 100, 1000, 4000)

  datatype EnqueueResult = CanEnqueueMore | CantEnqueueMore

  /** What a channel layer reports upwards, or hands to the channel it wraps. */
  datatype ChannelEvent =
    | InnerEnqueue(letter: Letter)
    | Sent(letter: Letter)
    | FailedToSend(letter: Letter)
    | Received(letter: Letter)
    | QueueEmpty
    | Disconnected(reason: ShutdownReason)

  /** The batch builder's output: one Batch letter whose parts are the
      accumulated letters, each serialized, in the order they were added. */
  function BuildBatch(pending: seq<Letter>, serialize: Letter -> Bytes): (b: Letter)
    ensures b.IsBatch() && |b.parts| == |pending|
    ensures forall i :: 0 <= i < |pending| ==> b.parts[i] == serialize(pending[i])
  {
    Letter(EmptyGuid, Batch, {}, [], seq(|pending|, i requires 0 <= i < |pending| => serialize(pending[i])))
  }

  /** Every part of a letter, deserialized, in part order. */
  function Unpack(parts: seq<Bytes>, deserialize: Bytes -> Letter): (r: seq<Letter>)
    ensures |r| == |parts|
    ensures forall i :: 0 <= i < |parts| ==> r[i] == deserialize(parts[i])
  {
    if parts == [] then [] else [deserialize(parts[0])] + Unpack(parts[1..], deserialize)
  }

  /** Unpacking a built batch with a codec that round-trips gives back the letters, in order. */
  lemma BatchRoundTrip(pending: seq<Letter>, serialize: Letter -> Bytes, deserialize: Bytes -> Letter)
    requires forall l :: deserialize(serialize(l)) == l
    ensures Unpack(BuildBatch(pending, serialize).parts, deserialize) == pending
  {
  }

  /** One Sent event per letter, in order. */
  function SentEach(ls: seq<Letter>): (r: seq<ChannelEvent>)
    ensures |r| == |ls|
    ensures forall i :: 0 <= i < |ls| ==> r[i] == Sent(ls[i])
  {
    if ls == [] then [] else [Sent(ls[0])] + SentEach(ls[1..])
  }

  /** One FailedToSend event per letter, in order. */
  function FailedEach(ls: seq<Letter>): (r: seq<ChannelEvent>)
    ensures |r| == |ls|
    ensures forall i :: 0 <= i < |ls| ==> r[i] == FailedToSend(ls[i])
  {
    if ls == [] then [] else [FailedToSend(ls[0])] + FailedEach(ls[1..])
  }

  /** One Received event per letter, in order. */
  function ReceivedEach(ls: seq<Letter>): (r: seq<ChannelEvent>)
    ensures |r| == |ls|
    ensures forall i :: 0 <= i < |ls| ==> r[i] == Received(ls[i])
  {
    if ls == [] then [] else [Received(ls[0])] + ReceivedEach(ls[1..])
  }

  lemma SentEachSnoc(ls: seq<Letter>, l: Letter)
    ensures SentEach(ls + [l]) == SentEach(ls) + [Sent(l)]
  {
  }

  lemma FailedEachSnoc(ls: seq<Letter>, l: Letter)
    ensures FailedEach(ls + [l]) == FailedEach(ls) + [FailedToSend(l)]
  {
  }

  lemma ReceivedEachSnoc(ls: seq<Letter>, l: Letter)
    ensures ReceivedEach(ls + [l]) == ReceivedEach(ls) + [Received(l)]
  {
  }
}
