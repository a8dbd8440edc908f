# A verified model of a memcached meta-protocol client

This project models a Go client for memcached's meta protocol and proves what
its parts promise. It covers the multiplexed transport, the command and reply
codec, pipelined batches, lease and compare-and-swap coordination, and the
in-process flights of Fetch and FetchMany. `dafny verify dfyconfig.toml` checks
all of it.

## How it is organised

- **Transport.** `Transport` is a transition system. One event is one critical
  section of a mutex, one compare-and-swap or one byte reaching a socket, so a
  run is any interleaving of callers, writers, readers, teardowns, drains and
  retirements, with any requests and any number of connections. The state also
  records what was written where and who has each request in hand.
  `TransportInvariant`, `TransportSteps` and `TransportFlow` prove the invariant
  of all 23 events, `TransportTheorems` draws the promises from it,
  `TransportTurns` says what one event can do to one connection and one request,
  `TransportAnswers` and `TransportLate` say exactly when an answer can be lost and
  when a teardown takes a request from another connection, `TransportWitness`
  holds two runs in which the code does less than its comments say, and `TransportCode` gives the critical sections as methods with the
  source's loops, in-place filters and integer offsets, each equal to its event.
- **Codec.** `Base64`, `Text`, `Commands`, `Responses`, `Builders`: printing and
  marshalling on the client's side, the protocol's grammar on the server's, and
  the reverse for replies.
- **Batches.** `Results` is the typed meaning of replies; `Batch`,
  `BatchRefinement`, `BatchCode`, `BatchPlan`, `BatchCut` and `BatchTheorem` go from the
  caller's list to payload bytes and back, against any server that follows the
  q-flag rules of `protocol.txt`.
- **Coordination.** `Store` is the server behind leases and cas tokens,
  `Coordination` runs Update and Take against it while other clients interleave,
  and `Conservation` relates Take and Append over whole runs.
- **Flights.** `Flights` and `FlightTheorems` are the registry of in-process
  loads; `FetchMany` is the read loop, the registration and the settling of leases.

## Assumptions

- A server answers complete requests in the order they arrive, never finishes a
  reply before it has read the whole request, and answers so that a request's own
  stop rule accepts its last reply and no earlier one (`Transport.Framed`).
- In batches: a miss carries nothing, a get with N never misses, and a success
  carries only what flags asked for (`Batch.FollowsRules`). `protocol.txt:859-864`
  says that a quiet delete hides success only; a miss is then still answered.
- An exchange that fails got as far as an exchange can: a command is executed after
  it was wholly written, and no more replies come back than were sent
  (`BatchCut.Possible`).
- The router picks an existing server for every key. Transform functions and
  loaders return; loaders do not call back for the same key.

## Where the code and its comments differ

- `transport.go:22` says that a request moves forward only. The code moves
  Writing back to Queued at `transport.go:393`; the model follows the code.
- `transport.go:204-205` says that commands on the wire finish their exchange when
  the pool closes. A connection that closes between a reply and its writer's return
  to the lock makes the writer settle an answered request as lost.
  `TransportWitness.DrainDuringFlushLosesAnAnswer` is such a run. For every state
  in which the reader holds an answer, `TransportAnswers.AnswerLostIff` says
  whether it can still be lost, and `TransportAnswers.AnswerArrives` that it
  reaches its caller otherwise. The error has a nil cause after a drain, after a
  retirement and after the read that finishes a draining connection, and only then
  (`TransportAnswers.NilCauseIff`).
- `transport.go:44-47` says that `onWire` is guarded by the connection's mutex.
  The loop at `transport.go:544-553` reads it after the unlock. If the writer has
  requeued the request and another connection has written it by then, the old
  connection's loop settles it while it is live elsewhere.
  `TransportWitness.StaleTeardownSettlesARehomedRequest` is such a run,
  `TransportLate.LateTeardownIff` says exactly when it happens, and
  `TransportLate.OnlyTheBatchIsLate` that it cannot happen to a request outside the
  batch the writer had when the connection closed. So `NoGapNoOverlap` is stated
  for requests still claimed by the connection that is torn down.
- `transport.go:492-495` says that queued requests move to another connection.
  They do only if the connection had delivered a response
  (`TransportTheorems.RehomedAtMostOncePerConn`); otherwise each receives the
  teardown's cause itself, with a written count of 0.

## Model

| member | source | states |
|---|---|---|
| TransportFlow.StepKeeps | transport.go:89-592 | Every event of the transport keeps the invariant that correlates queues, wire bytes, replies, settlements and the pool. |
| TransportTheorems.FifoCorrelation | transport.go:405-455 | A request settled without error holds exactly the server's answer to its own payload; no settled request holds a reply to another one. |
| TransportTheorems.SlotsFollowTheWire | transport.go:299-334 | A live connection's in-flight list is what its wire carries and the server has not answered, cancelled callers included, so the next reply belongs to the head. |
| TransportTheorems.AtMostOnce | transport.go:364-402 | Over a run no byte of a request is written twice, and all its bytes go to one connection. |
| TransportTheorems.SettledForever | transport.go:56-63 | A settled request keeps its first outcome for ever and its channel is closed at most once. |
| TransportTheorems.WrittenIsHonest | transport.go:85-131 | The reported written count covers every byte of the request on any wire, then or later; 0 means none ever. |
| TransportTheorems.NoGapNoOverlap | transport.go:524-555 | On a dead connection each claimed, unsettled request is in the hands of teardown's loop or of the writer or reader, and never of teardown's loop and another. |
| TransportTheorems.NothingLeftBehind | transport.go:375-403 | Once teardown's, flush's and the reader's work is over, every request the connection claimed is settled. |
| TransportTheorems.OnlyUnwrittenGoBack | transport.go:393-394 | A request that goes from Writing back to Queued has no byte on any wire and no replies. |
| TransportTheorems.BlameIsUnique | transport.go:527-553 | Two whole written requests that got an unwrapped cause got it from two different teardowns, each blaming its own. |
| TransportTheorems.BlamedIsTheHead | transport.go:527-536 | A connection comes to blame a request only in the step that closes it, and then the head of its in-flight list; it never blames another. |
| TransportTheorems.AmbiguityIsHonest | client.go:181-200 | A side-effecting command is ambiguous exactly when it was reported whole and no answer of its own decides; a definite error means its own error line or a command never wholly sent. |
| TransportTheorems.WhoSettles | transport.go:56-63 | Only delivery, the caller's cancellation, flush's loop and teardown's loop can settle a claimed request, each for the request in its hand. |
| TransportTheorems.OnlyDeliverSucceeds | transport.go:449-453 | A request whose answer was read is settled without error by the reader's complete alone; what else can settle it is its caller or a loop of a closed connection. |
| TransportAnswers.AnswerLostIff | transport.go:354-390 | While the reader holds a request's answer, some continuation settles the request with an error, its caller still waiting, iff its writer is not back from the flush and the connection is closed, empty or can expire, or its writer came back to a closed connection, or a teardown elsewhere lists it. |
| TransportAnswers.AnswerArrives | transport.go:449 | An answer that is not at risk stays in the reader's hands until the reader completes its request with the whole answer, whatever else happens. |
| TransportAnswers.NilCauseIff | transport.go:443-447 | An answered request settled by a late writer gets an error without cause iff the connection was closed by a drain, a retirement or the read that finished it. |
| TransportLate.LateTeardownIff | transport.go:544-553 | Teardown's loop settles the request it looks at iff it is marked and unanswered; it takes it from another connection iff the request went back to the queue after the teardown and another connection has marked it since. |
| TransportLate.OnlyTheBatchIsLate | transport.go:524-526 | A request outside the writer's batch at the closing step is never on another connection while the teardown lists it. |
| TransportAnswers.StepTracked | transport.go:204-219 | A live connection is in the pool, or a closing pool is still to drain it, or it is draining and has something to finish. |
| TransportTheorems.PoolBounds | transport.go:143-174 | The pool never holds more than maxConns connections, nor one twice. |
| TransportTheorems.PickIsLeastLoaded | transport.go:146-174 | pickLocked keeps exactly the live, not over-idle connections, picks one of least load, and opens a new one iff all are busy and room remains or none is left. |
| TransportTheorems.RehomedAtMostOncePerConn | transport.go:176-202 | A request is queued on a connection at most once and leaves one only after it died having delivered a response. |
| TransportWitness.DrainDuringFlushLosesAnAnswer | transport.go:559-579 | There is a run in which closing the pool settles an answered request as lost with a nil cause. |
| TransportWitness.StaleTeardownSettlesARehomedRequest | transport.go:544-553 | There is a run in which a dead connection's teardown settles a request that is in flight on a live connection. |
| TransportCode.OffsetsClassify | transport.go:376-395 | flush's comparisons of the byte count with its end offsets name exactly the whole requests and the partial one. |
| TransportCode.OneMoreByte | transport.go:336-348 | Each further byte of the flush buffer is the next byte of the payload the byte event names. |
| TransportCode.WriteByteAdvances | transport.go:348 | Writing one byte moves the abstract flush to the state the next byte count describes. |
| TransportCode.Assemble | transport.go:337-346 | The buffer is the payloads back to back and ends are their end offsets. |
| TransportCode.WriteAll | transport.go:594-607 | What reached the socket is a prefix of the data of the reported length, and no error means all of it, whatever the socket does. |
| TransportCode.ServerPool.Filter | transport.go:147-168 | The in-place filter keeps the survivors in order, retires the over-idle ones and ends at the first of least load. |
| TransportCode.ServerPool.PickLocked | transport.go:146-174 | The method with its loop changes connections and members, and picks, as the specification does. |
| TransportCode.ServerPool.Enqueue | transport.go:133-141 | A closed pool takes nothing; an open one queues the request on the chosen connection. |
| TransportCode.PickAndAddIsEnqueueThenAdd | transport.go:133-141 | Picking and adding in one critical section is the events Enqueue and Add, both allowed, with the invariant kept. |
| TransportCode.ServerPool.DetachTurn | transport.go:192-201 | One turn of detach's loop forgets, re-homes or fails the next request of the list. |
| TransportCode.DetachedIsRehomeThenAdd | transport.go:180-202 | That turn is the event Rehome, with Add after it when a connection was picked. |
| TransportCode.ServerPool.ClaimPending | transport.go:306-330 | The claim loop takes the live queued requests in order, forgets the others and appends the batch to inflight. |
| TransportCode.ServerPool.MarkWritten | transport.go:366-372 | The marking loop stops at the first request that is not whole on the wire. |
| TransportCode.ServerPool.EndFlush | transport.go:354-374 | flush's critical section, on byte counts, is the event on whole and partial requests, truncation of the tail included. |
| TransportCode.SwitchAgrees | transport.go:381-397 | The switch on offsets completes, requeues or fails a request as the abstract flush says. |
| TransportCode.ServerPool.SettleTurn | transport.go:376-398 | One turn of flush's settling loop is the settling event. |
| TransportCode.ServerPool.IsOldestLive | transport.go:480-490 | True iff the request is in flight and everything ahead of it is settled. |
| Base64.RoundTrip | wire.go:46-49 | Decoding an encoded key gives the key back (section 4 of RFC 4648). |
| Base64.EncodedPrintable | wire.go:48-52 | An encoded key has no separator or control byte and four bytes for every three. |
| Text.AsciiFields | wire.go:223-240 | The two cursors find exactly the longest runs without a space. |
| Text.FieldsOfLine | wire.go:223-240 | A line printed field by field splits into those fields. |
| Text.UintRoundTrip | wire.go:108-111 | A printed number parses back within its bit size and is one field. |
| Text.IntRoundTrip | client.go:228-230 | A printed signed 64-bit number parses back and is one field. |
| Commands.EncodeKey | wire.go:35-54 | A key is encoded iff it holds a separator or control byte; empty and overlong keys are refused. |
| Commands.Marshal | wire.go:71-125 | The bytes are the command line and body of the protocol, and each refusal comes for its own reason, in order. |
| Commands.CommandRoundTrip | wire.go:71-125 | The server's grammar reads a printed command back, with its key bytes, flags and value, and leaves what follows. |
| Commands.StreamRoundTrip | transport.go:339-342 | Any number of commands back to back read back as the same list, values with line breaks included. |
| Commands.PrefixFree | wire.go:103-124 | No command's bytes are a proper prefix of another's. |
| Builders.LookupSlot | client.go:244-289 | Each flag letter a builder can emit is found with its own token exactly when its option is set. |
| Builders.GetAsks | client.go:244-271 | What a get asks to be told reaches the server; the cas is asked for whenever a write may need it. |
| Builders.GetDoes | client.go:272-289 | Touch, vivify, refresh, compare and tag options reach the server with their values. |
| Builders.SetDoes | client.go:371-377 | Client flags, ttl and mode of a store reach the server. |
| Builders.SetAsks | client.go:378-400 | The conditions of a store and what it asks back reach the server. |
| Builders.DeleteReadBack | client.go:451-472 | Every option of a delete reaches the server. |
| Builders.ArithmeticReadBack | client.go:482-512 | Every option of an arithmetic command reaches the server. |
| Builders.GetClean | client.go:232-290 | A built get has printable flags, none of which marks the key as encoded or the command as quiet. |
| Builders.SetClean | client.go:350-401 | The same of a built store. |
| Builders.DeleteClean | client.go:447-473 | The same of a built delete. |
| Builders.ArithmeticClean | client.go:475-513 | The same of a built arithmetic command. |
| Builders.CommandHasSideEffect | client.go:203-216 | The loop finds a side effect in a get iff one of T, N, R or E is given. |
| Builders.GetSideEffect | client.go:203-216 | A built get has a side effect iff it touches, vivifies, refreshes or sets a cas. |
| Responses.ReadSlice | wire.go:127-141 | bufio's contract: up to the line feed, a full buffer, or the rest of the stream. |
| Responses.ReadLine | wire.go:127-146 | The line, the error and the bytes consumed do not depend on how the buffer cuts the stream; too long means over 64 KiB. |
| Responses.ParseResponseFlags | wire.go:242-329 | The loop applies every flag in order, skips what it cannot read and decodes the key last. |
| Responses.FlagsRoundTrip | wire.go:242-319 | Typed flags in any order and number tell the client what the server put in them, without error. |
| Responses.KeyComesBack | wire.go:320-327 | A returned key comes back as its own bytes, encoded or not. |
| Responses.ReadRawResponse | wire.go:148-221 | Reading from a position is the framing function of the rest of the stream, and consumes what it says. |
| Text.TrimIs | wire.go:157-162 | Trimming an error message takes white space off both ends and nothing else, until none is left there. |
| Text.NamedBack | wire.go:199-210 | Item internals with distinct names come back with their values, whatever the values hold. |
| Responses.FrameRoundTrip | wire.go:148-221 | One frame is read as sent and consumed whole, whatever follows and whether or not its flags can be read. |
| Responses.StreamRoundTrip | transport.go:407-421 | Repeated reading returns the list of frames sent and stops where it ends. |
| Batch.QuietCommand | batch.go:131-146 | The quiet form drops a tag of the caller's, adds the position and, if silence is allowed, q. |
| BatchRefinement.QuietForm | batch.go:131-146 | Without its tag and q the quiet form is the command itself, and the tag is its position. |
| BatchRefinement.SilenceIsInferred | batch.go:334-345 | A reply that q keeps back means what the client infers from silence, and none that may carry a lease is kept back. |
| BatchRefinement.GroupRefines | batch.go:250-332 | A group that was answered resolves to the one-by-one results and leaves the server in the same state. |
| BatchCode.Correlate | batch.go:251-289 | byIndex is exactly the expected positions seen once, badIndex those seen more often; barrier and last fault are found. |
| BatchCode.ResolveItem | batch.go:291-331 | One operation's result follows from its own replies, the barrier and the faults. |
| BatchCode.ResolveGroup | batch.go:250-332 | For any replies, every position of the group is written, with its decision, and no other. |
| BatchCode.ResolvingIsHonest | batch.go:290-331 | Ambiguous iff a change may hide, the whole command was written and neither one reply nor a correlated barrier decides; success is inferred only after a barrier with every reply correlated. |
| BatchPlan.SpansTile | batch.go:220-229 | The spans follow one another from the start of the payload to the barrier and hold each command's bytes. |
| BatchPlan.WrittenIsStream | batch.go:220-228 | The payload before the barrier is the printed quiet commands back to back. |
| BatchPlan.LayOut | batch.go:220-229 | The loop computes the payload and the spans, or names the first command that cannot be printed. |
| BatchPlan.GroupAll | batch.go:175-213 | The first loop groups the operations by server in order, or refuses for a true reason. |
| BatchPlan.OrderGroups | batch.go:214-231 | The groups come in the order of the servers, with their payloads, or some operation in them cannot be printed. |
| BatchPlan.PlanBatch | batch.go:170-231 | A batch is sent iff every operation is acceptable; a rejection names a position and its true fault. |
| BatchTheorem.Projects | batch.go:196-213 | Each server sees exactly its own operations, in the caller's order. |
| BatchTheorem.PayloadServed | batch.go:220-229 | The server, reading the payload's bytes, executes the group's operations and answers the barrier last. |
| BatchTheorem.BatchRefines | batch.go:164-248 | From bytes to results, each server's operations give what running the whole list one by one gives, and the same state. |
| BatchCut.CutShort | batch.go:309-331 | In a group whose exchange fails every operation is told its one-by-one answer or the error, ambiguous iff it has a side effect and was wholly written, and always if its change was made. |
| BatchTheorem.RunBatch | batch.go:164-248 | Over all servers, whichever exchanges fail, the results come in the caller's order; a server that answers contributes the results and state of the one-by-one run, the others what CutShort says. |
| BatchTheorem.ShelfIsHonest | protocol.txt:609-620 | A server that keeps values follows the rules the batch theorems assume of servers. |
| BatchTheorem.ShelfReadsBack | batch.go:131-162 | On a server that keeps values and follows the rules, a batch that stores and reads a key gets the stored value. |
| Store.HitIff | protocol.txt:849-855 | An event changes a key's cas iff it stores, deletes, invalidates or drops it; nothing else changes value or staleness. |
| Store.NeverAgain | protocol.txt:636-639 | A cas value a key no longer has never comes back. |
| Store.SameCasIffUntouched | protocol.txt:636-639 | A key still has a cas iff nothing hit it since, and then the same value and staleness. |
| Store.WriteBackAppliesIff | fetch.go:337-359 | A write-back is stored iff nothing hit the key since the read that won; otherwise it changes nothing. |
| Store.ReleaseRemovesOnlyItsLease | fetch.go:277-292 | A release removes the very value its read saw, or nothing. |
| Store.HandBackKeepsTheValue | get.go:52-82 | Handing a token back never changes a value nor makes a fresh one stale, and lets the next reader win. |
| Store.OneWinnerPerVersion | fetch.go:158-162 | Two winning reads of a key saw different cas values, and something hit the key between them. |
| Coordination.UpdateWrite | update.go:97-109 | An accepted write of update finds the key as its read saw it; a refused one was beaten by a change in between. |
| Coordination.WriteNext | update.go:97-109 | The write is stored and linearizes, or was beaten since its read. |
| Coordination.TryUpdate | update.go:57-109 | One attempt stores, is beaten, or gives up having changed nothing but a returned token. |
| Coordination.Update | update.go:51-112 | The stored bytes are fn of what the key held at that instant; a conflict means eight attempts, each beaten by another client's change. |
| Coordination.OtherChanges | update.go:107-111 | Beaten attempts give as many distinct changes by other clients, one between each read and its write. |
| Coordination.ReturnStaleWin | get.go:59-82 | At most one conditional invalidation with the read's cas is sent, and none without cas and ttl. |
| Coordination.TakeRemove | update.go:144-161 | An accepted delete removes the value the read saw; a refused one was beaten. |
| Coordination.TryTake | update.go:122-161 | One attempt of Take returns all it deleted, finds nothing, or was beaten. |
| Coordination.Take | update.go:113-163 | Take returns exactly the bytes it removes, at the moment it removes them; nothing means absent or empty at its read; a conflict means eight attempts, each beaten by another client's change. |
| Conservation.TakeAppendConservation | set.go:126-145 | What takes returned, then the current value, is the first value, then all appended fragments, in the server's order. |
| Flights.RegisterKeeps | fetch.go:562-579 | Registering a list of keys gives each unregistered one a new flight and leaves existing ones alone. |
| Flights.StepKeeps | fetch.go:220-245 | Every event keeps the invariant of registry, flights and callers. |
| FlightTheorems.OneLoaderPerKey | fetch.go:216-245 | Two foreground loaders that run at the same time never run for the same key. |
| FlightTheorems.RegisteredWhileInProgress | fetch.go:562-591 | A key is registered exactly while its owner is between registration and publication. |
| FlightTheorems.JoinersSeeTheOwner | fetch.go:603-616 | A joiner receives the owner's value and error for a key the joiner asked for; one that finishes has received all. |
| FlightTheorems.RegisterCovers | fetch.go:562-579 | In every run the keys of a call's own and joined flights together are exactly the keys it asked for. |
| FlightTheorems.EveryKeyIsServed | fetch.go:581-617 | A finished call holds, for every key it asked for, what one loader returned for that key, its own or the one it joined. |
| FlightTheorems.NoCircularWait | fetch.go:581-608 | A caller that waits has closed all its flights, and waits for one whose owner is not waiting. |
| FlightTheorems.Progress | fetch.go:603-608 | While a call is unfinished some call can go on without anyone giving up. |
| FlightTheorems.EveryWaitEnds | fetch.go:603-608 | Every step except a new call uses up a bounded measure, so every wait ends. |
| FetchMany.UniqueKeys | fetch.go:672-684 | The result is the distinct keys in order of first occurrence. |
| FetchMany.UniqueKeepsOrder | fetch.go:672-684 | Two keys keep the order of their first occurrences. |
| FetchMany.FetchOne | fetch.go:126-195 | fetch decides as the specification says within six attempts, unless its caller gives up. |
| FetchMany.SortRound | fetch.go:438-483 | A round places every pending key, or leaves it busy, where fetch would have. |
| FetchMany.JoinRound | fetch.go:487-498 | Busy keys get the value of a flight here, are absent, or remain. |
| FetchMany.ReadLoop | fetch.go:429-512 | Within six rounds every distinct key gets exactly one place, the one fetch gives it; it fails only if some key's fetch does or the caller gives up. |
| FetchMany.Partition | fetch.go:435-512 | Found, lead, local and joined-empty keys are disjoint, without repetitions, and together the requested keys. |
| FetchMany.Client.Register | fetch.go:562-579 | The two registration loops on the client's map are the registration of the flights model. |
| Flights.RegisterDistinct | fetch.go:562-579 | Distinct keys without a flight get a new one each, in order; the others join the flight that was there. |
| FetchMany.Client.Publish | fetch.go:587-595 | Every own flight gets the loader's value and error for its key and is closed; its key, and no other, leaves the map. |
| FetchMany.Collect | fetch.go:597-617 | The values are those of the own keys the loader returned, overridden by those of joined flights that did not fail, the last one counting; the error is the own one, or else the first joined one. |
| FetchMany.OthersLeaveAlone | fetch.go:584-592 | In every run, no step of another call touches the flights of a call whose loader runs. |
| FetchMany.Client.RunFlights | fetch.go:554-618 | Whatever other calls do while the loader runs, the own keys are those that had no flight and the others are joined, the own flights end published, closed and unregistered, and what comes back is what Collect says. |
| FetchMany.Settle | fetch.go:521-536 | Every lease won gets one write-back or release under its own cas. |
| FetchMany.Merge | fetch.go:540-545 | The result gains exactly the computed values that are not empty. |
| FetchMany.ComputedIff | fetch.go:597-617 | A value is computed for a key iff the loader returned it for an own key or the one joined flight of that key gave it. |
| FetchMany.FetchAll | fetch.go:424-546 | The result holds exactly the found values and the non-empty values computed for lead and local keys; a lease is written back iff the call succeeds and such a value exists, released otherwise; each failure has its own cause. |

## Left out

- Dialing, sockets, clocks and timers: a write is "some bytes, maybe an error", and deadlines, idle times, remaining ttl and back-off are arbitrary.
- Read deadlines: arming and re-arming (`armReadDeadlineLocked`, `orphan`) have no effect in the model, where a read may time out at any moment.
- Wake-ups: the writer may claim whenever there is something to claim.
- Statuses inside pickLocked: the model reads the loads of all connections in one step; the code locks them one after the other.
- The locked parts of teardown, drain and the read loop are given as events only: they are assignments without loops, and as methods they would repeat the events.
- TransportTheorems.NoGapNoOverlap: does not speak of requests that went back to the queue and were claimed by another connection, because there the property fails; TransportLate.LateTeardownIff says when.
- Builders: the append chains of the four builders are written as one list of slots, and a store mode outside the five is not representable.
- Results: when a typed result comes with an error, only the error is kept.
- BatchTheorem.RunBatch: the exchanges with different servers run one after another instead of at the same time; servers share no state, and a group touches only its own server and positions.
- Batch operations that are nil or of an unknown type.
- Store: ttl arithmetic, client flags, E flags, arithmetic commands and the LRU; expiry and eviction happen at any time.
- Coordination: value encoding, and ttl of writes. A returned token travels with the call that returns it rather than in a goroutine of its own; other clients still interleave before it.
- FetchMany.FetchAll: background refreshes are returned as tokens and not run; what joined flights publish is arbitrary here, and JoinersSeeTheOwner says whose value it is. A batch call that is refused as a whole is not modelled.
- Flights: loaders that panic or call back for the same key, and background refreshes, which use a separate set.
- Routing, options, Degrade wrappers, counters, JSON codecs, Debug and Inspect: branch-level facts.
