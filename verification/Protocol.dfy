// Values shared by every part of the client: bytes, parsed server replies and
// the stock option type.
module Protocol {

  type Byte = b: int | 0 <= b < 256
  type Bytes = seq<Byte>

  datatype Option<+T> = None | Some(value: T)

  // The two-letter result codes of the meta protocol (types.go:41-50).
  datatype Code = HD | VA | EN | NS | EX | NF | MN | ME

  // What a meta response can report about an item; an absent flag is None.
  datatype Metadata = Metadata(
    cas: Option<nat>, ttl: Option<int>, size: Option<nat>,
    clientFlags: Option<nat>, lastAccess: Option<nat>, hitBefore: Option<bool>)

  const NoMetadata := Metadata(None, None, None, None, None, None)

  // A parsed reply. parseErr marks a frame that was consumed whole although a
  // flag in it was unreadable (types.go:219-232). The value and key are None
  // where the client holds a nil slice. debug holds the item internals of an ME
  // reply.
  datatype RawResponse = RawResponse(
    code: Code, value: Option<Bytes>, meta: Metadata, key: Option<Bytes>, token: Bytes,
    won: bool, busy: bool, stale: bool, flags: seq<Bytes>, parseErr: bool, debug: map<Bytes, Bytes> := map[])

  // ERROR, CLIENT_ERROR and SERVER_ERROR lines: a definite outcome for the
  // command they answer.
  datatype ServerError = GenericError | ClientError(message: Bytes) | ServerFault(message: Bytes)
}
