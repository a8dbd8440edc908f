// The multiplexed transport as a transition system (transport.go). Many callers
// share a connection: a writer claims whatever is queued and flushes it as one
// buffer, a reader hands replies to the oldest in-flight request, callers may
// give up at any time and a teardown may run in the middle of a flush.
//
// One event is one critical section of a mutex, one compare-and-swap, or one
// byte reaching the wire, so every interleaving of the goroutines is a sequence
// of events. Besides the program's own fields a state records, for the theorems
// only, what was written where (wire, received, sent), who has a request in
// hand (place) and which connections it was queued on (homes).
module Transport {
  import opened Protocol

  type Id = nat      // a request, numbered by submission
  type ConnId = nat  // a connection, numbered by creation

  // What the server sends for one request: some replies, and possibly an error
  // line in place of the rest.
  datatype Script = Script(replies: seq<RawResponse>, fail: Option<ServerError>)

  datatype Exchange = Exchange(payload: Bytes, stop: RawResponse -> bool, script: Script)

  // The requests of a run, what the server will answer to each, and the cap on
  // connections. Everything here is arbitrary: a theorem about a run holds for
  // every choice.
  datatype Config = Config(exchange: nat -> Exchange, maxConns: nat)

  // A server that answers a request exactly: the caller's stop rule accepts the
  // last reply and none before it, or an error line comes first.
  ghost predicate Framed(x: Exchange) {
    && |x.payload| > 0
    && (x.script.fail.None? ==> |x.script.replies| > 0 && x.stop(x.script.replies[|x.script.replies| - 1]))
    && forall i :: 0 <= i < |x.script.replies| - (if x.script.fail.None? then 1 else 0) ==> !x.stop(x.script.replies[i])
  }

  ghost predicate ValidConfig(cfg: Config) {
    cfg.maxConns >= 1 && forall r: Id :: Framed(cfg.exchange(r))
  }

  function Len(cfg: Config, r: Id): nat { |cfg.exchange(r).payload| }
  function Replies(cfg: Config, r: Id): seq<RawResponse> { cfg.exchange(r).script.replies }
  function Fail(cfg: Config, r: Id): Option<ServerError> { cfg.exchange(r).script.fail }

  // Wire stands for any I/O, framing or dial failure; Lost(None) is the error
  // the code builds around a nil cause.
  datatype Error =
    | PoolClosed | Canceled | Deadline
    | FromServer(error: ServerError)
    | Wire(code: nat)
    | Lost(cause: Option<Error>)

  datatype Phase = Queued | Writing | Done

  // Who has the request in hand: the pool between pickLocked and add, the
  // pending list of a connection, the writer that claimed it, the requeue list
  // of a failed flush, the pending list a teardown took over, the list a drain
  // took over, or nobody any more.
  datatype Place =
    | Fresh | Held(c: ConnId) | Pending(c: ConnId) | Claimed(c: ConnId)
    | Requeued(c: ConnId) | Leftover(c: ConnId) | Drained(c: ConnId) | Gone

  datatype Outcome = Outcome(responses: seq<RawResponse>, written: nat, err: Option<Error>)

  // closes counts how often the done channel was closed; sent counts the bytes
  // of this request on any wire. expiring: its caller gave up at its deadline
  // and is yet to report that to the connection.
  datatype Request = Request(
    phase: Phase, responses: seq<RawResponse>, onWire: bool,
    outcome: Option<Outcome>, closes: nat,
    place: Place, homes: seq<ConnId>, sent: nat, expiring: bool)

  const NewRequest := Request(Queued, [], false, None, 0, Fresh, [], 0, false)

  // The writer goroutine. While Sending, the first full requests of batch are
  // written and part bytes of the next one. Settling is the loop after a failed
  // or overtaken flush: left is what the loop has yet to visit, seen is what the
  // writer copied under the lock together with the write error.
  datatype Writer =
    | Idle
    | Sending(flush: Flush)
    | Settling(left: Flush, seen: Seen, requeue: seq<Id>)
    | Rehoming(homeless: seq<Id>)

  datatype Flush = Flush(batch: seq<Id>, full: nat, part: nat)

  datatype Seen = Seen(
    closed: bool, cause: Option<Error>, blamed: Option<Id>, served: bool, err: Option<Error>)

  datatype WireByte = WireByte(req: Id, off: nat)

  // tearing and leftover are the lists teardownLocked walks after releasing the
  // lock, drained the one drain walks; rehome is the served flag it read.
  // popped is the head the reader took off and has yet to complete. received,
  // answering and given follow the server: the requests it has completely, how
  // many it has answered, and how many replies of the next it has sent.
  datatype Conn = Conn(
    pending: seq<Id>, inflight: seq<Id>, dialed: bool, closed: bool,
    cause: Option<Error>, blamed: Option<Id>, closing: bool, served: bool,
    writer: Writer, popped: Option<Id>,
    tearing: seq<Id>, leftover: seq<Id>, rehome: bool, drained: seq<Id>,
    wire: seq<WireByte>, stub: seq<WireByte>, received: seq<Id>, answering: nat, given: nat)

  const NewConn := Conn([], [], false, false, None, None, false, false, Idle, None,
                        [], [], false, [], [], [], [], 0, 0)

  // holder is the request between pickLocked and add, both under the pool's
  // mutex; toDrain is the list close walks after releasing it.
  datatype State = State(
    reqs: seq<Request>, conns: seq<Conn>, members: seq<ConnId>, closed: bool,
    toDrain: seq<ConnId>, holder: Option<(Id, ConnId)>)

  const Init := State([], [], [], false, [], None)

  // ---- building blocks, shared with the loops in TransportCode ----

  // request.complete (transport.go:57-63).
  function Complete(q: Request, responses: seq<RawResponse>, written: nat, err: Option<Error>): Request {
    if q.phase.Done? then q
    else q.(phase := Done, outcome := Some(Outcome(responses, written, err)), closes := q.closes + 1)
  }

  // A caller's own compare-and-swap to done (transport.go:109-127): the caller
  // returns the outcome itself and no channel is closed.
  function GiveUp(q: Request, written: nat, err: Error): Request {
    q.(phase := Done, outcome := Some(Outcome([], written, Some(err))))
  }

  function Load(k: Conn): nat { |k.pending| + |k.inflight| }

  // pickLocked's filter (transport.go:151-168).
  function Survivors(conns: seq<Conn>, members: seq<ConnId>, idle: set<ConnId>): (kept: seq<ConnId>)
    requires forall i :: 0 <= i < |members| ==> members[i] < |conns|
    ensures |kept| <= |members|
    ensures forall c :: c in kept <==> c in members && !conns[c].closed && c !in idle
    ensures Distinct(members) ==> Distinct(kept)
  {
    if members == [] then [] else
      var front := members[..|members| - 1];
      var last := members[|members| - 1];
      assert members == front + [last];
      var kept := Survivors(conns, front, idle);
      if conns[last].closed || last in idle then kept else kept + [last]
  }

  // pickLocked's choice: the first connection of least load.
  function LeastLoaded(conns: seq<Conn>, kept: seq<ConnId>): (best: ConnId)
    requires kept != []
    requires forall i :: 0 <= i < |kept| ==> kept[i] < |conns|
    ensures best in kept
    ensures forall c :: c in kept ==> Load(conns[best]) <= Load(conns[c])
  {
    var front := kept[..|kept| - 1];
    var last := kept[|kept| - 1];
    assert kept == front + [last];
    if front == [] then last
    else
      var best := LeastLoaded(conns, front);
      if Load(conns[last]) < Load(conns[best]) then last else best
  }

  ghost predicate Distinct<T(!new)>(s: seq<T>) {
    forall i, j :: 0 <= i < j < |s| ==> s[i] != s[j]
  }

  // retire, for every connection past its idle timeout (transport.go:156-159,
  // transport.go:581-592).
  function Retire(conns: seq<Conn>, members: seq<ConnId>, idle: set<ConnId>): (r: seq<Conn>)
    ensures |r| == |conns|
    ensures forall c :: 0 <= c < |conns| ==>
      r[c] == if c in members && c in idle then conns[c].(closed := true) else conns[c]
  {
    seq(|conns|, c requires 0 <= c < |conns| => if c in members && c in idle then conns[c].(closed := true) else conns[c])
  }

  datatype Choice = Choice(conns: seq<Conn>, members: seq<ConnId>, best: ConnId)

  // pickLocked as a whole (transport.go:146-174).
  function PickLocked(cfg: Config, conns: seq<Conn>, members: seq<ConnId>, idle: set<ConnId>): Choice
    requires forall i :: 0 <= i < |members| ==> members[i] < |conns|
  {
    var left := Retire(conns, members, idle);
    var kept := Survivors(conns, members, idle);
    assert forall i :: 0 <= i < |kept| ==> kept[i] in kept;
    if kept == [] || (Load(conns[LeastLoaded(conns, kept)]) > 0 && |kept| < cfg.maxConns)
    then Choice(left + [NewConn], kept + [|conns|], |conns|)
    else Choice(left, kept, LeastLoaded(conns, kept))
  }

  // The live requests of a pending list, in order (transport.go:313-319).
  function Live(reqs: seq<Request>, queued: seq<Id>): (batch: seq<Id>)
    requires forall i :: 0 <= i < |queued| ==> queued[i] < |reqs|
    ensures forall r :: r in batch <==> r in queued && reqs[r].phase.Queued?
    ensures Distinct(queued) ==> Distinct(batch)
  {
    if queued == [] then [] else
      var front := queued[..|queued| - 1];
      var last := queued[|queued| - 1];
      assert queued == front + [last];
      var batch := Live(reqs, front);
      if reqs[last].phase.Queued? then batch + [last] else batch
  }

  // Claiming a pending list: a queued request is now being written, one its
  // caller gave up on is dropped.
  function ClaimAll(reqs: seq<Request>, queued: seq<Id>, c: ConnId): (r: seq<Request>)
    ensures |r| == |reqs|
    ensures forall i :: 0 <= i < |reqs| ==> r[i] == if i in queued then ClaimOne(reqs[i], c) else reqs[i]
  {
    seq(|reqs|, i requires 0 <= i < |reqs| => if i in queued then ClaimOne(reqs[i], c) else reqs[i])
  }

  function ClaimOne(q: Request, c: ConnId): Request {
    if q.phase.Queued? then q.(phase := Writing, place := Claimed(c)) else q.(place := Gone)
  }

  // Setting onWire on a list (transport.go:357-359, transport.go:366-372).
  function MarkAll(reqs: seq<Request>, list: seq<Id>): (r: seq<Request>)
    ensures |r| == |reqs|
    ensures forall i :: 0 <= i < |reqs| ==> r[i] == if i in list then reqs[i].(onWire := true) else reqs[i]
  {
    seq(|reqs|, i requires 0 <= i < |reqs| => if i in list then reqs[i].(onWire := true) else reqs[i])
  }

  // A list changing hands.
  function MoveAll(reqs: seq<Request>, list: seq<Id>, place: Place): (r: seq<Request>)
    ensures |r| == |reqs|
    ensures forall i :: 0 <= i < |reqs| ==> r[i] == if i in list then reqs[i].(place := place) else reqs[i]
  {
    seq(|reqs|, i requires 0 <= i < |reqs| => if i in list then reqs[i].(place := place) else reqs[i])
  }

  // oldestLiveLocked (transport.go:480-490).
  predicate OldestLive(reqs: seq<Request>, inflight: seq<Id>, r: Id)
    requires forall i :: 0 <= i < |inflight| ==> inflight[i] < |reqs|
  {
    inflight != [] &&
    (inflight[0] == r || (reqs[inflight[0]].phase.Done? && OldestLive(reqs, inflight[1..], r)))
  }

  // The locked part of teardownLocked (transport.go:527-542). What it took over
  // is settled one request at a time by SettleLost and Rehome.
  function Teardown(s: State, c: ConnId, cause: Error, headSaw: bool): State
    requires c < |s.conns|
  {
    var k := s.conns[c];
    if k.closed then s
    else
      var k' := k.(closed := true, cause := Some(cause),
                   blamed := if headSaw && k.inflight != [] then Some(k.inflight[0]) else None,
                   tearing := k.inflight, inflight := [],
                   leftover := k.pending, pending := [], rehome := k.served);
      s.(conns := s.conns[c := k'], reqs := MoveAll(s.reqs, k.pending, Leftover(c)))
  }

  // The error a torn-down request receives (transport.go:385-389,
  // transport.go:548-551).
  function LostError(cause: Option<Error>, blamed: Option<Id>, r: Id): Option<Error> {
    if blamed == Some(r) then cause else Some(Lost(cause))
  }

  function Span(r: Id, n: nat): (bytes: seq<WireByte>)
    ensures |bytes| == n
    ensures forall i :: 0 <= i < n ==> bytes[i] == WireByte(r, i)
  {
    seq(n, i requires 0 <= i < n => WireByte(r, i))
  }

  // ---- events ----

  datatype Event =
    | Submit                                    // exchange builds a request
    | Reject(r: Id)                             // enqueue on a closed pool
    | Enqueue(r: Id, idle: set<ConnId>)         // enqueue: pickLocked
    | Add                                       // the add that follows
    | Dial(c: ConnId)
    | DialFail(c: ConnId, code: nat)
    | Claim(c: ConnId)                          // writeLoop's critical section
    | WriteByte(c: ConnId)
    | FlushEnd(c: ConnId, err: Option<nat>)     // flush's critical section
    | SettleBatch(c: ConnId)                    // one turn of flush's loop
    | FlushFail(c: ConnId)                      // flush's own fail
    | Rehome(c: ConnId, afterFlush: bool, idle: set<ConnId>)  // one turn of detach's loop
    | Read(c: ConnId)                           // a reply or error line arrives
    | ReadFail(c: ConnId, deadline: bool, code: nat)
    | Deliver(c: ConnId)                        // readLoop completes the head
    | CancelQueued(r: Id, deadline: bool)
    | CancelWriting(r: Id, deadline: bool)
    | Expire(r: Id)
    | SettleLost(c: ConnId)                     // one turn of teardown's loop
    | Forget(c: ConnId)                         // detach drops a dead connection
    | ClosePool
    | Drain(c: ConnId)
    | SettleDrained(c: ConnId)

  predicate IdleOnly(s: State, idle: set<ConnId>)
    requires forall i :: 0 <= i < |s.members| ==> s.members[i] < |s.conns|
  {
    forall c :: c in s.members && c in idle ==> Load(s.conns[c]) == 0
  }

  predicate Unwritten(f: Flush) { f.full < |f.batch| }

  function RehomeList(k: Conn, afterFlush: bool): seq<Id> {
    if afterFlush then (if k.writer.Rehoming? then k.writer.homeless else []) else k.leftover
  }

  function ErrOf(deadline: bool): Error { if deadline then Deadline else Canceled }

  ghost predicate Enabled(cfg: Config, s: State, e: Event)
    requires WellFormed(s)
  {
    match e
    case Submit => true
    case Reject(r) => r < |s.reqs| && s.reqs[r].place.Fresh? && s.reqs[r].phase.Queued? && s.closed && s.holder.None?
    case Enqueue(r, idle) =>
      && r < |s.reqs| && s.reqs[r].place.Fresh? && s.reqs[r].phase.Queued?
      && !s.closed && s.holder.None? && IdleOnly(s, idle)
    case Add => s.holder.Some?
    case Dial(c) => c < |s.conns| && !s.conns[c].dialed && !s.conns[c].closed
    case DialFail(c, code) => c < |s.conns| && !s.conns[c].dialed
    case Claim(c) =>
      && c < |s.conns| && s.conns[c].dialed && !s.conns[c].closed
      && s.conns[c].writer.Idle? && s.conns[c].pending != []
    case WriteByte(c) =>
      c < |s.conns| && s.conns[c].writer.Sending? && Unwritten(s.conns[c].writer.flush)
    case FlushEnd(c, err) =>
      && c < |s.conns| && s.conns[c].writer.Sending?
      && (err.None? ==> !Unwritten(s.conns[c].writer.flush))
    case SettleBatch(c) => c < |s.conns| && s.conns[c].writer.Settling? && s.conns[c].writer.left.batch != []
    case FlushFail(c) => c < |s.conns| && s.conns[c].writer.Settling? && s.conns[c].writer.left.batch == []
    case Rehome(c, afterFlush, idle) =>
      && c < |s.conns| && RehomeList(s.conns[c], afterFlush) != [] && s.holder.None? && IdleOnly(s, idle)
    case Read(c) =>
      && c < |s.conns| && s.conns[c].dialed && !s.conns[c].closed && s.conns[c].popped.None?
      && s.conns[c].answering < |s.conns[c].received|
    case ReadFail(c, deadline, code) => c < |s.conns| && s.conns[c].dialed && s.conns[c].popped.None?
    case Deliver(c) => c < |s.conns| && s.conns[c].popped.Some?
    case CancelQueued(r, deadline) => r < |s.reqs| && s.reqs[r].phase.Queued? && !s.reqs[r].place.Fresh?
    case CancelWriting(r, deadline) => r < |s.reqs| && s.reqs[r].phase.Writing?
    case Expire(r) => r < |s.reqs| && s.reqs[r].place.Claimed? && s.reqs[r].phase.Done? && s.reqs[r].expiring
    case SettleLost(c) => c < |s.conns| && s.conns[c].tearing != []
    case Forget(c) => c < |s.conns| && s.conns[c].cause.Some? && s.holder.None?
    case ClosePool => s.holder.None?
    case Drain(c) => c in s.toDrain
    case SettleDrained(c) => c < |s.conns| && s.conns[c].drained != []
  }

  ghost predicate CanStep(cfg: Config, s: State, e: Event) {
    WellFormed(s) && Enabled(cfg, s, e)
  }

  // Every identifier a state mentions exists.
  ghost predicate WellFormed(s: State) {
    && (forall i :: 0 <= i < |s.members| ==> s.members[i] < |s.conns|)
    && (forall i :: 0 <= i < |s.toDrain| ==> s.toDrain[i] < |s.conns|)
    && (s.holder.Some? ==> s.holder.value.0 < |s.reqs| && s.holder.value.1 < |s.conns|)
    && (forall r :: 0 <= r < |s.reqs| ==> PlaceExists(s, s.reqs[r].place))
    && (forall c :: 0 <= c < |s.conns| ==> ListsExist(s.reqs, s.conns[c]))
  }

  ghost predicate PlaceExists(s: State, p: Place) {
    Owner(p).Some? ==> Owner(p).value < |s.conns|
  }

  ghost predicate Within(reqs: seq<Request>, list: seq<Id>) {
    forall i :: 0 <= i < |list| ==> list[i] < |reqs|
  }

  ghost predicate ListsExist(reqs: seq<Request>, k: Conn) {
    && Within(reqs, k.pending) && Within(reqs, k.inflight) && Within(reqs, k.tearing)
    && Within(reqs, k.leftover) && Within(reqs, k.drained) && Within(reqs, k.received)
    && Within(reqs, Work(k.writer).batch) && Within(reqs, Requeue(k.writer))
    && (k.popped.Some? ==> k.popped.value < |reqs|)
    && (k.blamed.Some? ==> k.blamed.value < |reqs|)
    && Work(k.writer).full <= |Work(k.writer).batch|
    && (k.writer.Sending? && !k.closed ==> |k.writer.flush.batch| - k.writer.flush.full <= |k.inflight|)
  }

  // What the writer has yet to write or settle.
  function Work(w: Writer): Flush {
    match w
    case Sending(f) => f
    case Settling(f, _, _) => f
    case _ => Flush([], 0, 0)
  }

  function Requeue(w: Writer): seq<Id> {
    match w
    case Settling(_, _, requeue) => requeue
    case Rehoming(requeue) => requeue
    case _ => []
  }

  function Owner(p: Place): Option<ConnId> {
    match p
    case Fresh => None
    case Gone => None
    case _ => Some(p.c)
  }

  function Apply(cfg: Config, s: State, e: Event): State
    requires WellFormed(s) && Enabled(cfg, s, e)
  {
    match e
    case Submit => s.(reqs := s.reqs + [NewRequest])
    case Reject(r) =>
      s.(reqs := s.reqs[r := s.reqs[r].(phase := Done, outcome := Some(Outcome([], 0, Some(PoolClosed))))])
    case Enqueue(r, idle) => Hold(cfg, s, r, idle)
    case Add => ApplyAdd(s)
    case Dial(c) => s.(conns := s.conns[c := s.conns[c].(dialed := true)])
    case DialFail(c, code) => Teardown(s, c, Wire(code), false)
    case Claim(c) => ApplyClaim(s, c)
    case WriteByte(c) => ApplyWriteByte(cfg, s, c)
    case FlushEnd(c, err) => ApplyFlushEnd(s, c, if err.Some? then Some(Wire(err.value)) else None)
    case SettleBatch(c) => ApplySettleBatch(cfg, s, c)
    case FlushFail(c) => ApplyFlushFail(s, c)
    case Rehome(c, afterFlush, idle) => ApplyRehome(cfg, s, c, afterFlush, idle)
    case Read(c) => ApplyRead(cfg, s, c)
    case ReadFail(c, deadline, code) => Teardown(s, c, if deadline then Deadline else Wire(code), true)
    case Deliver(c) => ApplyDeliver(cfg, s, c)
    case CancelQueued(r, deadline) => s.(reqs := s.reqs[r := GiveUp(s.reqs[r], 0, ErrOf(deadline))])
    case CancelWriting(r, deadline) =>
      s.(reqs := s.reqs[r := GiveUp(s.reqs[r], Len(cfg, r), ErrOf(deadline)).(expiring := deadline)])
    case Expire(r) => ApplyExpire(s, r)
    case SettleLost(c) => ApplySettleLost(cfg, s, c)
    case Forget(c) => s.(members := Without(s.members, c))
    case ClosePool => if s.closed then s else s.(closed := true, members := [], toDrain := s.members)
    case Drain(c) => ApplyDrain(s, c)
    case SettleDrained(c) => ApplySettleDrained(s, c)
  }

  function ApplyAdd(s: State): State
    requires WellFormed(s) && s.holder.Some?
  {
    var (r, c) := s.holder.value;
    s.(holder := None,
       conns := s.conns[c := s.conns[c].(pending := s.conns[c].pending + [r])],
       reqs := s.reqs[r := s.reqs[r].(place := Pending(c))])
  }

  function ApplyFlushFail(s: State, c: ConnId): State
    requires c < |s.conns| && s.conns[c].writer.Settling?
  {
    var w := s.conns[c].writer;
    var t := if w.seen.err.Some? then Teardown(s, c, w.seen.err.value, false) else s;
    t.(conns := t.conns[c := t.conns[c].(writer := Rehoming(w.requeue))])
  }

  function ApplyDeliver(cfg: Config, s: State, c: ConnId): State
    requires WellFormed(s) && c < |s.conns| && s.conns[c].popped.Some?
  {
    var r := s.conns[c].popped.value;
    s.(conns := s.conns[c := s.conns[c].(popped := None)],
       reqs := s.reqs[r := Complete(s.reqs[r], s.reqs[r].responses, Len(cfg, r), None)])
  }

  // expire, after a caller's own deadline (transport.go:504-512).
  function ApplyExpire(s: State, r: Id): State
    requires WellFormed(s) && r < |s.reqs| && s.reqs[r].place.Claimed?
  {
    var c := s.reqs[r].place.c;
    var t := s.(reqs := s.reqs[r := s.reqs[r].(expiring := false)]);
    if !s.conns[c].closed && OldestLive(s.reqs, s.conns[c].inflight, r)
    then Teardown(t, c, Deadline, true) else t
  }

  function ApplySettleDrained(s: State, c: ConnId): State
    requires WellFormed(s) && c < |s.conns| && s.conns[c].drained != []
  {
    var k := s.conns[c];
    var r := k.drained[0];
    s.(conns := s.conns[c := k.(drained := k.drained[1..])],
       reqs := s.reqs[r := Complete(s.reqs[r], [], 0, Some(PoolClosed)).(place := Gone)])
  }

  // enqueue and detach: pickLocked, then the request waits for its add.
  function Hold(cfg: Config, s: State, r: Id, idle: set<ConnId>): State
    requires r < |s.reqs| && forall i :: 0 <= i < |s.members| ==> s.members[i] < |s.conns|
  {
    var pick := PickLocked(cfg, s.conns, s.members, idle);
    var q := s.reqs[r];
    s.(conns := pick.conns, members := pick.members, holder := Some((r, pick.best)),
       reqs := s.reqs[r := q.(place := Held(pick.best), homes := q.homes + [pick.best])])
  }

  function ApplyClaim(s: State, c: ConnId): State
    requires WellFormed(s) && c < |s.conns|
  {
    var k := s.conns[c];
    var batch := Live(s.reqs, k.pending);
    var k' := k.(pending := [], inflight := k.inflight + batch,
                 writer := if batch == [] then Idle else Sending(Flush(batch, 0, 0)));
    s.(conns := s.conns[c := k'], reqs := ClaimAll(s.reqs, k.pending, c))
  }

  function ApplyWriteByte(cfg: Config, s: State, c: ConnId): State
    requires WellFormed(s) && c < |s.conns| && s.conns[c].writer.Sending? && Unwritten(s.conns[c].writer.flush)
  {
    var k := s.conns[c];
    var f := k.writer.flush;
    var r := f.batch[f.full];
    var b := WireByte(r, f.part);
    var k' := if f.part + 1 < Len(cfg, r)
              then k.(wire := k.wire + [b], stub := k.stub + [b],
                      writer := Sending(f.(part := f.part + 1)))
              else k.(wire := k.wire + [b], stub := [], received := k.received + [r],
                      writer := Sending(f.(full := f.full + 1, part := 0)));
    s.(conns := s.conns[c := k'], reqs := s.reqs[r := s.reqs[r].(sent := s.reqs[r].sent + 1)])
  }

  // flush's critical section (transport.go:354-374).
  function ApplyFlushEnd(s: State, c: ConnId, err: Option<Error>): State
    requires WellFormed(s) && c < |s.conns| && s.conns[c].writer.Sending?
  {
    var k := s.conns[c];
    var f := k.writer.flush;
    var settling := Settling(f, Seen(k.closed, k.cause, k.blamed, k.served, err), []);
    if k.closed then s.(conns := s.conns[c := k.(writer := settling)])
    else
      var k' := if err.None? then k.(writer := Idle)
                else k.(writer := settling, inflight := k.inflight[..|k.inflight| - (|f.batch| - f.full)]);
      s.(conns := s.conns[c := k'], reqs := MarkAll(s.reqs, f.batch[..f.full]))
  }

  // One turn of the loop after a flush (transport.go:376-398).
  function ApplySettleBatch(cfg: Config, s: State, c: ConnId): State
    requires WellFormed(s) && c < |s.conns|
    requires s.conns[c].writer.Settling? && s.conns[c].writer.left.batch != []
  {
    var Settling(f, seen, requeue) := s.conns[c].writer;
    var r := f.batch[0];
    var q := s.reqs[r];
    if GoesBack(f, seen, q) then
      s.(conns := s.conns[c := s.conns[c].(writer := Settling(Rest(f), seen, requeue + [r]))],
         reqs := s.reqs[r := q.(phase := Queued, place := Requeued(c))])
    else
      s.(conns := s.conns[c := s.conns[c].(writer := Settling(Rest(f), seen, requeue))],
         reqs := s.reqs[r := SettleWritten(cfg, f, seen, r, q)])
  }

  function Rest(f: Flush): Flush
    requires f.batch != []
  {
    Flush(f.batch[1..], if f.full > 0 then f.full - 1 else 0, if f.full > 0 then f.part else 0)
  }

  // The switch of flush's loop: an unwritten request goes back to the queue if
  // the connection had served and nobody gave up on it, anything else is
  // settled for the bytes that were written.
  predicate GoesBack(f: Flush, seen: Seen, q: Request) {
    f.full == 0 && f.part == 0 && seen.served && q.phase.Writing?
  }

  function SettleWritten(cfg: Config, f: Flush, seen: Seen, r: Id, q: Request): Request {
    if f.full > 0 then
      if seen.closed then Complete(q, q.responses, Len(cfg, r), LostError(seen.cause, seen.blamed, r)) else q
    else Complete(q, [], f.part, seen.err)
  }

  // One turn of detach's loop (transport.go:192-201), for the list a flush
  // requeued or the pending list of a teardown.
  function ApplyRehome(cfg: Config, s: State, c: ConnId, afterFlush: bool, idle: set<ConnId>): State
    requires WellFormed(s) && c < |s.conns| && RehomeList(s.conns[c], afterFlush) != []
  {
    var k := s.conns[c];
    var r := RehomeList(k, afterFlush)[0];
    var q := s.reqs[r];
    var k' := if afterFlush then k.(writer := Rehoming(k.writer.homeless[1..])) else k.(leftover := k.leftover[1..]);
    var t := s.(conns := s.conns[c := k']);
    if !q.phase.Queued? then t.(reqs := s.reqs[r := q.(place := Gone)])
    else if !s.closed && (afterFlush || k.rehome) then
      Hold(cfg, t.(reqs := s.reqs[r := q.(place := Fresh)]), r, idle)
    else
      var err := if s.closed then Some(PoolClosed) else k.cause;
      t.(reqs := s.reqs[r := Complete(q, [], 0, err).(place := Gone)])
  }

  // One turn of readLoop (transport.go:409-448).
  function ApplyRead(cfg: Config, s: State, c: ConnId): State
    requires WellFormed(s) && c < |s.conns| && s.conns[c].answering < |s.conns[c].received|
  {
    var k := s.conns[c];
    var sender := k.received[k.answering];
    if k.given >= |Replies(cfg, sender)| then
      if Fail(cfg, sender).Some? then Teardown(s, c, FromServer(Fail(cfg, sender).value), true) else s
    else if k.inflight == [] then
      Teardown(s, c, Wire(0), true)  // response without a request
    else
      var reply := Replies(cfg, sender)[k.given];
      var last := k.given + 1 == |Replies(cfg, sender)| && Fail(cfg, sender).None?;
      var k1 := if last then k.(answering := k.answering + 1, given := 0) else k.(given := k.given + 1);
      var head := k.inflight[0];
      var reqs := s.reqs[head := s.reqs[head].(responses := s.reqs[head].responses + [reply])];
      var k2 := if !cfg.exchange(head).stop(reply) then k1
                else k1.(inflight := k.inflight[1..], served := true, popped := Some(head),
                         closed := k.closed || (k.closing && |k.inflight| == 1));
      s.(conns := s.conns[c := k2], reqs := reqs)
  }

  // One turn of teardownLocked's loop (transport.go:544-553).
  function ApplySettleLost(cfg: Config, s: State, c: ConnId): State
    requires WellFormed(s) && c < |s.conns| && s.conns[c].tearing != []
  {
    var k := s.conns[c];
    var r := k.tearing[0];
    var q := s.reqs[r];
    var q' := if q.onWire then Complete(q, q.responses, Len(cfg, r), LostError(k.cause, k.blamed, r)) else q;
    s.(conns := s.conns[c := k.(tearing := k.tearing[1..])], reqs := s.reqs[r := q'])
  }

  // drain (transport.go:559-579).
  function ApplyDrain(s: State, c: ConnId): State
    requires c < |s.conns|
  {
    var k := s.conns[c];
    var t := s.(toDrain := Without(s.toDrain, c));
    if k.closed then t
    else t.(conns := s.conns[c := k.(pending := [], drained := k.drained + k.pending, closing := true,
                                     closed := k.inflight == [])],
            reqs := MoveAll(s.reqs, k.pending, Drained(c)))
  }

  function Without(s: seq<ConnId>, c: ConnId): (r: seq<ConnId>)
    ensures |r| <= |s|
    ensures forall x :: x in r <==> x in s && x != c
    ensures Distinct(s) ==> Distinct(r)
  {
    if s == [] then [] else
      var front := s[..|s| - 1];
      var last := s[|s| - 1];
      assert s == front + [last];
      assert Distinct(s) ==> last !in front;
      var r := Without(front, c);
      if last == c then r else r + [last]
  }
}
