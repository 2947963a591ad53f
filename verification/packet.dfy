/** Messages of the simulated network (net/packet/message.go). */
module Packet {
  newtype Byte = x: int | 0 <= x < 256

  type Key = seq<Byte>
  type Value = seq<Byte>

  /** The DemuxKey values used once reads take no lock, plus the zero value. */
  datatype Kind =
    | NoKind
    | ClientReadRequest
    | ClientWriteRequest
    | ClientStrongWriteRequest
    | ClientReadResponse
    | ClientWriteResponse
    | LockRequestNoTimeout
    | LockResponse
    | UnlockRequest
    | UnlockAck
    | GetRequest
    | GetResponse
    | PutRequest
    | PutResponse
    | TimestampRequest
    | BackgroundWriteRequest
    | BackgroundWriteResponse

  datatype Message = Message(id: int, src: int, dest: int, kind: Kind, key: Key, value: Value, timestamp: nat, ok: bool)

  const ZERO_MESSAGE := Message(0, 0, 0, NoKind, [], [], 0, false)

  /** A message that carries neither key, value nor timestamp. */
  function Signal(id: int, src: int, dest: int, kind: Kind, ok: bool): Message {
    Message(id, src, dest, kind, [], [], 0, ok)
  }

  predicate IsRead(m: Message) { m.kind.ClientReadRequest? }

  predicate IsWrite(m: Message) { m.kind.ClientWriteRequest? || m.kind.ClientStrongWriteRequest? }

  predicate IsClientRequest(m: Message) { IsRead(m) || IsWrite(m) }

  predicate IsGrant(m: Message) { m.kind.LockResponse? && m.ok }

  /** Messages the network must not duplicate: a client request exists in one place
      at a time, and a lock is granted by one message. */
  predicate OneShot(m: Message) { IsClientRequest(m) || IsGrant(m) }

  /** Two copies of a request that differ at most in where they are addressed. */
  predicate SameRequest(a: Message, b: Message) { a == b.(dest := a.dest) }
}
