// What a parsed reply means to the caller of an operation (client.go:292-331,
// client.go:403-445, client.go:515-534, batch.go:347-374).
module Results {
  import opened Protocol
  import opened Text
  import opened Commands
  import opened Builders
  import Transport

  datatype Operation =
    | Get(key: Bytes, get: GetOptions)
    | Set(key: Bytes, value: Bytes, store: SetOptions)
    | Delete(key: Bytes, delete: DeleteOptions)
    | Arithmetic(key: Bytes, arithmetic: ArithmeticOptions)

  function Prepare(op: Operation): Built {
    match op
    case Get(key, o) => BuildGet(key, o)
    case Set(key, value, o) => BuildSet(key, value, o)
    case Delete(key, o) => BuildDelete(key, o)
    case Arithmetic(key, o) => BuildArithmetic(key, o)
  }

  datatype GetStatus = GetHit | GetMiss | GetPending | GetUnchanged
  datatype ValueState = ValueFresh | ValueStale | ValueMissing
  datatype LeaseState = LeaseNone | LeaseGranted | LeaseBusy
  datatype MutationStatus = Applied | NotFound | AlreadyExists | CASMismatch

  datatype Problem =
    | Unreadable | Unexpected | OmittedToken | InvalidToken | UnknownToken | RepeatedToken | NoBarrier | MissingReply
    | PipelineFailed | Lost(cause: Transport.Error)

  // The typed result of one operation.
  datatype Answer =
    | GetAnswer(key: Bytes, status: GetStatus, value: Option<Bytes>, meta: Metadata, state: ValueState,
                lease: LeaseState, returnedKey: Option<Bytes>, tag: Bytes)
    | MutationAnswer(key: Bytes, outcome: MutationStatus, cas: Option<nat>, size: Option<nat>,
                     returnedKey: Option<Bytes>, tag: Bytes)
    | ArithmeticAnswer(key: Bytes, outcome: MutationStatus, number: Option<nat>, meta: Metadata,
                       returnedKey: Option<Bytes>, tag: Bytes)
    | Failed(problem: Problem, ambiguous: bool)

  function StoreStatus(code: Code, mode: StoreMode): Option<MutationStatus> {
    match code
    case HD => Some(Applied)
    case EX => Some(CASMismatch)
    case NF => Some(NotFound)
    case NS => Some(if mode.ModeAdd? then AlreadyExists else NotFound)
    case _ => None
  }

  function DeleteStatus(code: Code): Option<MutationStatus> {
    match code
    case HD => Some(Applied) case EX => Some(CASMismatch) case NF => Some(NotFound) case _ => None
  }

  function ArithmeticStatus(code: Code): Option<MutationStatus> {
    match code
    case HD => Some(Applied) case VA => Some(Applied) case EX => Some(CASMismatch)
    case NF => Some(NotFound) case NS => Some(NotFound) case _ => None
  }

  // A reply that stands for a value still to be loaded: won or busy, not stale,
  // and empty if the read could also have won an early refresh.
  predicate Placeholder(o: GetOptions, wire: RawResponse) {
    && o.vivifyTTL.Some? && (wire.won || wire.busy) && !wire.stale
    && (o.refreshBefore.None? || (wire.code.VA? && (wire.value.None? || wire.value.value == [])))
  }

  function SemanticGet(key: Bytes, o: GetOptions, wire: RawResponse): Answer {
    if wire.code.EN? then
      GetAnswer(key, GetMiss, None, wire.meta, ValueMissing, LeaseNone, wire.key, wire.token)
    else if (!wire.code.VA? && !wire.code.HD?) || (wire.code.HD? && !o.metadataOnly && o.unlessCAS.None?) then
      Failed(Unexpected, false)
    else
      var value := if wire.code.VA? then wire.value else None;
      var lease := if wire.busy then LeaseBusy else if wire.won then LeaseGranted else LeaseNone;
      if Placeholder(o, wire) then
        GetAnswer(key, if wire.won then GetMiss else GetPending, value, wire.meta, ValueMissing, lease, wire.key, wire.token)
      else
        GetAnswer(key, if wire.code.HD? && o.unlessCAS.Some? then GetUnchanged else GetHit, value, wire.meta,
                  if wire.stale then ValueStale else ValueFresh, lease, wire.key, wire.token)
  }

  function SemanticArithmetic(key: Bytes, o: ArithmeticOptions, wire: RawResponse): Answer {
    match ArithmeticStatus(wire.code)
    case None => Failed(Unexpected, false)
    case Some(status) =>
      if status.Applied? && wire.code != (if o.metadataOnly then HD else VA) then Failed(Unexpected, false)
      else if !wire.code.VA? then ArithmeticAnswer(key, status, None, wire.meta, wire.key, wire.token)
      else
        match ParseUint(if wire.value.Some? then wire.value.value else [], MAX_64)
        case None => Failed(Unexpected, false)
        case Some(n) => ArithmeticAnswer(key, status, Some(n), wire.meta, wire.key, wire.token)
  }

  function Mutation(key: Bytes, status: Option<MutationStatus>, wire: RawResponse): Answer {
    match status
    case None => Failed(Unexpected, false)
    case Some(s) => MutationAnswer(key, s, wire.meta.cas, wire.meta.size, wire.key, wire.token)
  }

  // The typed methods of MetaClient on the reply to one command
  // (meta.go:249-301).
  function Interpret(op: Operation, wire: RawResponse): Answer {
    if wire.parseErr then Failed(Unreadable, false)
    else
      match op
      case Get(key, o) => SemanticGet(key, o, wire)
      case Set(key, _, o) => Mutation(key, StoreStatus(wire.code, o.mode), wire)
      case Delete(key, _) => Mutation(key, DeleteStatus(wire.code), wire)
      case Arithmetic(key, o) => SemanticArithmetic(key, o, wire)
  }

  // Losing the reply to one of these may hide a change.
  predicate SideEffect(op: Operation, command: MetaCommand) { !op.Get? || HasSideEffect(command) }
}
