// What every event of the transport keeps. Each part of the invariant names only
// the fields it is about, so an event is checked against the parts it touches.
module TransportInvariant {
  import opened Protocol
  import opened Transport

  // ---- one connection ----

  // A list and a place say the same thing.
  ghost predicate Listed(reqs: seq<Request>, list: seq<Id>, place: Place) {
    && Distinct(list)
    && (forall i :: 0 <= i < |list| ==> list[i] < |reqs| && reqs[list[i]].place == place)
    && (forall r :: 0 <= r < |reqs| && reqs[r].place == place ==> r in list)
  }

  ghost predicate AllAt(reqs: seq<Request>, list: seq<Id>, place: Place) {
    forall i :: 0 <= i < |list| ==> list[i] < |reqs| && reqs[list[i]].place == place
  }

  ghost predicate OneAt(reqs: seq<Request>, one: Option<Id>, place: Place) {
    one.Some? ==> one.value < |reqs| && reqs[one.value].place == place
  }

  // The in-flight list is what the server has yet to answer, in its order: the
  // requests it has whole, then those still being written.
  ghost predicate Fifo(closed: bool, inflight: seq<Id>, received: seq<Id>, answering: nat, w: Writer) {
    && answering <= |received|
    && Work(w).full <= |Work(w).batch|
    && inflight == if closed then [] else received[answering..] + Unsent(w)
  }

  ghost function Unsent(w: Writer): seq<Id>
    requires Work(w).full <= |Work(w).batch|
  {
    if w.Sending? then w.flush.batch[w.flush.full..] else []
  }

  ghost predicate LastAnswered(popped: Option<Id>, received: seq<Id>, answering: nat) {
    popped.Some? ==> 0 < answering <= |received| && received[answering - 1] == popped.value
  }

  // How much of its answer each received request holds.
  ghost predicate Answers(cfg: Config, reqs: seq<Request>, received: seq<Id>, answering: nat, given: nat) {
    && (answering < |received| ==> Midway(cfg, received[answering], given))
    && (answering >= |received| ==> given == 0)
    && (forall i :: 0 <= i < |received| ==>
          received[i] < |reqs| && Answer(cfg, answering, given, i, received[i], reqs[received[i]]))
  }

  ghost predicate Midway(cfg: Config, r: Id, given: nat) {
    && given <= |Replies(cfg, r)|
    && (Fail(cfg, r).None? ==> given < |Replies(cfg, r)|)
  }

  ghost predicate Answer(cfg: Config, answering: nat, given: nat, i: nat, r: Id, q: Request) {
    && q.sent == Len(cfg, r)
    && (i < answering ==> q.responses == Replies(cfg, r) && Fail(cfg, r).None?)
    && (i == answering && given <= |Replies(cfg, r)| ==> q.responses == Replies(cfg, r)[..given])
    && (i > answering ==> q.responses == [])
  }

  // An answered request is settled, or the reader is about to settle it.
  ghost predicate Delivered(reqs: seq<Request>, received: seq<Id>, answering: nat, popped: Option<Id>) {
    forall i :: 0 <= i < |received| && i < answering ==>
      received[i] < |reqs| && (reqs[received[i]].phase.Done? || popped == Some(received[i]))
  }

  ghost predicate Progress(cfg: Config, f: Flush) {
    && f.full <= |f.batch|
    && (f.full == |f.batch| ==> f.part == 0)
    && (f.full < |f.batch| ==> f.part < Len(cfg, f.batch[f.full]))
    && Distinct(f.batch)
  }

  ghost predicate Written(cfg: Config, reqs: seq<Request>, f: Flush, received: seq<Id>) {
    forall i :: 0 <= i < |f.batch| ==>
      && f.batch[i] < |reqs|
      && reqs[f.batch[i]].sent == (if i < f.full then Len(cfg, f.batch[i]) else if i == f.full then f.part else 0)
      && (i >= f.full ==> reqs[f.batch[i]].responses == [] && f.batch[i] !in received)
  }

  ghost predicate WriterState(reqs: seq<Request>, received: seq<Id>, stub: seq<WireByte>, w: Writer,
                              closed: bool, cause: Option<Error>, blamed: Option<Id>, served: bool) {
    match w
    case Idle => stub == []
    case Sending(f) =>
      && f.full <= |f.batch| && f.full <= |received|
      && received[|received| - f.full..] == f.batch[..f.full]
      && Unmarked(reqs, f.batch)
      && stub == (if f.full < |f.batch| then Span(f.batch[f.full], f.part) else [])
    case Settling(f, seen, requeue) =>
      && f.full <= |f.batch|
      && (seen.err.None? ==> f.full == |f.batch| && seen.closed)
      && (seen.err.Some? ==> seen.err.value.Wire?)
      && (seen.closed ==> closed && seen.cause == cause && seen.blamed == blamed)
      && (seen.served ==> served)
      && (requeue != [] ==> served)
      && Unmarked(reqs, if seen.closed then f.batch else f.batch[f.full..])
    case Rehoming(requeue) => closed && (requeue != [] ==> served)
  }

  ghost predicate Unmarked(reqs: seq<Request>, list: seq<Id>) {
    forall i :: 0 <= i < |list| ==> list[i] < |reqs| && !reqs[list[i]].onWire
  }

  // A caller that gave up while bytes may still be written reported them all.
  ghost predicate Covering(cfg: Config, reqs: seq<Request>, w: Writer) {
    w.Sending? ==> forall i :: 0 <= i < |w.flush.batch| && w.flush.full <= i ==>
      w.flush.batch[i] < |reqs| && Reported(cfg, w.flush.batch[i], reqs[w.flush.batch[i]])
  }

  ghost predicate Reported(cfg: Config, r: Id, q: Request) {
    q.outcome.Some? ==> q.outcome.value.written == Len(cfg, r)
  }

  // On a live connection every request of an ended flush is marked as written.
  ghost predicate Marks(reqs: seq<Request>, received: seq<Id>, closed: bool, w: Writer) {
    !closed ==> forall i :: 0 <= i < |received| - (if w.Sending? then w.flush.full else 0) ==>
      received[i] < |reqs| && reqs[received[i]].onWire
  }

  // The wire holds whole payloads back to back, in the order they were claimed,
  // and at most one unfinished payload after them.
  ghost predicate WireShape(cfg: Config, received: seq<Id>, wire: seq<WireByte>, stub: seq<WireByte>) {
    wire == Flat(cfg, received) + stub
  }

  ghost predicate StubShape(cfg: Config, reqs: seq<Request>, received: seq<Id>, stub: seq<WireByte>) {
    stub != [] ==>
      var r := stub[0].req;
      && r < |reqs| && r !in received && reqs[r].sent == |stub| < Len(cfg, r)
      && stub == Span(r, |stub|)
  }

  ghost function Flat(cfg: Config, rs: seq<Id>): seq<WireByte> {
    if rs == [] then [] else Flat(cfg, rs[..|rs| - 1]) + Span(rs[|rs| - 1], Len(cfg, rs[|rs| - 1]))
  }

  ghost predicate Causes(cfg: Config, closed: bool, cause: Option<Error>, blamed: Option<Id>) {
    && (!closed ==> cause.None?)
    && (blamed.Some? ==> cause.Some?)
    && (cause.Some? ==> !cause.value.Lost?)
    && (cause.Some? && cause.value.FromServer? ==>
          blamed.Some? && Fail(cfg, blamed.value) == Some(cause.value.error))
  }

  ghost predicate TornDown(closed: bool, cause: Option<Error>, tearing: seq<Id>, leftover: seq<Id>, rehome: bool, served: bool) {
    && (!closed ==> tearing == [] && leftover == [])
    && (leftover != [] ==> cause.Some?)
    && (rehome ==> served)
  }

  // What a teardown took over was not answered.
  ghost predicate Apart(tearing: seq<Id>, received: seq<Id>, answering: nat) {
    forall i :: 0 <= i < |received| && i < answering ==> received[i] !in tearing
  }

  function StubOwner(stub: seq<WireByte>): Option<Id> { if stub == [] then None else Some(stub[0].req) }

  ghost predicate Custody(reqs: seq<Request>, c: ConnId, k: Conn) {
    && Listed(reqs, k.pending, Pending(c))
    && Listed(reqs, k.leftover, Leftover(c))
    && Listed(reqs, k.drained, Drained(c))
    && Listed(reqs, Requeue(k.writer), Requeued(c))
    && AllAt(reqs, k.inflight, Claimed(c))
    && Within(reqs, k.tearing)
    && AllAt(reqs, k.received, Claimed(c))
    && AllAt(reqs, Work(k.writer).batch, Claimed(c))
    && OneAt(reqs, k.popped, Claimed(c))
    && (k.blamed.Some? ==> k.blamed.value < |reqs|)
    && OneAt(reqs, StubOwner(k.stub), Claimed(c))
  }

  ghost predicate ConnInv(cfg: Config, reqs: seq<Request>, c: ConnId, k: Conn) {
    && Custody(reqs, c, k)
    && Distinct(k.received)
    && Fifo(k.closed, k.inflight, k.received, k.answering, k.writer)
    && LastAnswered(k.popped, k.received, k.answering)
    && Answers(cfg, reqs, k.received, k.answering, k.given)
    && Delivered(reqs, k.received, k.answering, k.popped)
    && Progress(cfg, Work(k.writer))
    && Written(cfg, reqs, Work(k.writer), k.received)
    && WriterState(reqs, k.received, k.stub, k.writer, k.closed, k.cause, k.blamed, k.served)
    && Covering(cfg, reqs, k.writer)
    && Marks(reqs, k.received, k.closed, k.writer)
    && WireShape(cfg, k.received, k.wire, k.stub)
    && StubShape(cfg, reqs, k.received, k.stub)
    && Causes(cfg, k.closed, k.cause, k.blamed)
    && TornDown(k.closed, k.cause, k.tearing, k.leftover, k.rehome, k.served)
    && Apart(k.tearing, k.received, k.answering)
  }

  // ---- one request ----

  // Someone is bound to settle a request that is being written: no gap.
  ghost predicate Covered(k: Conn, r: Id, q: Request) {
    || (!k.closed && r in k.inflight)
    || k.popped == Some(r)
    || (r in k.tearing && q.onWire)
    || (k.writer.Sending? && r in k.writer.flush.batch)
    || (k.writer.Settling? && r in Unsettled(k.writer.left, k.writer.seen))
  }

  // What flush's loop will still complete or requeue.
  ghost function Unsettled(f: Flush, seen: Seen): seq<Id> {
    if seen.closed then f.batch else if f.full <= |f.batch| then f.batch[f.full..] else []
  }

  ghost predicate OutcomeInv(cfg: Config, r: Id, q: Request) {
    && (q.outcome.Some? <==> q.phase.Done?)
    && q.closes <= 1
    && (q.outcome.None? ==> q.closes == 0)
    && q.sent <= Len(cfg, r) && q.responses <= Replies(cfg, r)
    && (q.outcome.Some? ==>
          var o := q.outcome.value;
          && q.sent <= o.written <= Len(cfg, r)
          && o.responses <= Replies(cfg, r)
          && (o.err.None? ==> o.responses == Replies(cfg, r) && Fail(cfg, r).None?
                              && o.written == Len(cfg, r) == q.sent && q.closes == 1)
          && (o.err.Some? && o.err.value.FromServer? && o.written == Len(cfg, r) ==>
                Fail(cfg, r) == Some(o.err.value.error)))
  }

  // A whole written request that was settled with an error no wrapper hides.
  ghost predicate RawCause(cfg: Config, r: Id, q: Request) {
    && q.closes == 1 && q.outcome.Some? && q.outcome.value.written == Len(cfg, r)
    && q.outcome.value.err.Some? && !q.outcome.value.err.value.Lost?
  }

  ghost predicate Homes(conns: seq<Conn>, q: Request) {
    && Distinct(q.homes)
    && (forall i :: 0 <= i < |q.homes| ==> q.homes[i] < |conns|)
    && (forall i :: 0 <= i < (if q.place.Fresh? then |q.homes| else |q.homes| - 1) ==>
          conns[q.homes[i]].closed && conns[q.homes[i]].served)
    && (Owner(q.place).Some? ==> q.homes != [] && q.homes[|q.homes| - 1] == Owner(q.place).value)
  }

  ghost predicate ReqInv(cfg: Config, conns: seq<Conn>, holder: Option<(Id, ConnId)>, r: Id, q: Request) {
    && OutcomeInv(cfg, r, q)
    && Homes(conns, q)
    && (q.phase.Queued? ==> !q.place.Claimed? && !q.place.Gone?)
    && (q.phase.Writing? ==> q.place.Claimed?)
    && (!q.place.Claimed? ==> q.sent == 0 && q.responses == [] && !q.onWire)
    && (q.place.Held? <==> holder == Some((r, if q.place.Held? then q.place.c else 0)))
    && (q.place.Claimed? && q.phase.Writing? ==> Covered(conns[q.place.c], r, q))
    && (RawCause(cfg, r, q) ==> Blamed(conns, r))
  }

  ghost predicate Blamed(conns: seq<Conn>, r: Id) {
    exists c :: 0 <= c < |conns| && conns[c].blamed == Some(r)
  }

  // ---- the pool ----

  ghost predicate PoolInv(cfg: Config, s: State) {
    && |s.members| <= cfg.maxConns
    && Distinct(s.members)
    && (forall i :: 0 <= i < |s.members| ==> s.members[i] < |s.conns|)
    && (forall i :: 0 <= i < |s.toDrain| ==> s.toDrain[i] < |s.conns|)
    && (s.holder.Some? ==> s.holder.value.0 < |s.reqs| && s.reqs[s.holder.value.0].place == Held(s.holder.value.1))
  }

  ghost predicate Inv(cfg: Config, s: State) {
    && PoolInv(cfg, s)
    && (forall c :: 0 <= c < |s.conns| ==> ConnInv(cfg, s.reqs, c, s.conns[c]))
    && (forall r :: 0 <= r < |s.reqs| ==> ReqInv(cfg, s.conns, s.holder, r, s.reqs[r]))
  }

  lemma ListsOf(cfg: Config, reqs: seq<Request>, c: ConnId, k: Conn)
    requires ConnInv(cfg, reqs, c, k)
    ensures ListsExist(reqs, k)
  {
    hide Answers, Delivered, Written, WriterState, Covering, Marks, WireShape, StubShape, Causes, TornDown, Apart,
      Distinct;
  }

  lemma InvWellFormed(cfg: Config, s: State)
    requires Inv(cfg, s)
    ensures WellFormed(s)
  {
    forall c | 0 <= c < |s.conns| ensures ListsExist(s.reqs, s.conns[c]) {
      ListsOf(cfg, s.reqs, c, s.conns[c]);
    }
    forall r | 0 <= r < |s.reqs| ensures PlaceExists(s, s.reqs[r].place) {
      assert ReqInv(cfg, s.conns, s.holder, r, s.reqs[r]);
    }
  }

  // ---- frames ----

  // The connection one of whose lists a request is on.
  function Lister(p: Place): Option<ConnId> { if p.Held? then None else Owner(p) }

  // A connection is unaffected by changes to requests it does not list.
  ghost predicate SameOwned(reqs: seq<Request>, reqs': seq<Request>, c: ConnId) {
    && |reqs| <= |reqs'|
    && (forall r :: 0 <= r < |reqs| && Lister(reqs[r].place) == Some(c) ==> reqs'[r] == reqs[r])
    && (forall r :: 0 <= r < |reqs'| && Lister(reqs'[r].place) == Some(c) ==> r < |reqs| && reqs'[r] == reqs[r])
  }

  lemma FrameListed(reqs: seq<Request>, reqs': seq<Request>, c: ConnId, list: seq<Id>, place: Place)
    requires SameOwned(reqs, reqs', c) && Listed(reqs, list, place) && Lister(place) == Some(c)
    ensures Listed(reqs', list, place)
  {
  }

  lemma FrameCustody(reqs: seq<Request>, reqs': seq<Request>, c: ConnId, k: Conn)
    requires SameOwned(reqs, reqs', c) && Custody(reqs, c, k)
    ensures Custody(reqs', c, k)
    ensures Unchanged(reqs, reqs', k.received) && Unchanged(reqs, reqs', Work(k.writer).batch)
    ensures k.stub != [] ==> k.stub[0].req < |reqs| <= |reqs'| && reqs'[k.stub[0].req] == reqs[k.stub[0].req]
  {
    FrameListed(reqs, reqs', c, k.pending, Pending(c));
    FrameListed(reqs, reqs', c, k.leftover, Leftover(c));
    FrameListed(reqs, reqs', c, k.drained, Drained(c));
    FrameListed(reqs, reqs', c, Requeue(k.writer), Requeued(c));
    hide Listed;
  }

  ghost predicate Unchanged(reqs: seq<Request>, reqs': seq<Request>, list: seq<Id>) {
    && |reqs| <= |reqs'|
    && forall i :: 0 <= i < |list| ==> list[i] < |reqs| && reqs'[list[i]] == reqs[list[i]]
  }

  lemma FrameReader(cfg: Config, reqs: seq<Request>, reqs': seq<Request>, k: Conn)
    requires Unchanged(reqs, reqs', k.received)
    requires Answers(cfg, reqs, k.received, k.answering, k.given)
    requires Delivered(reqs, k.received, k.answering, k.popped)
    requires Marks(reqs, k.received, k.closed, k.writer)
    ensures Answers(cfg, reqs', k.received, k.answering, k.given)
    ensures Delivered(reqs', k.received, k.answering, k.popped)
    ensures Marks(reqs', k.received, k.closed, k.writer)
  {
    hide Answer;
  }

  lemma FrameWriter(cfg: Config, reqs: seq<Request>, reqs': seq<Request>, k: Conn)
    requires Unchanged(reqs, reqs', Work(k.writer).batch)
    requires k.stub != [] ==> k.stub[0].req < |reqs| <= |reqs'| && reqs'[k.stub[0].req] == reqs[k.stub[0].req]
    requires Written(cfg, reqs, Work(k.writer), k.received)
    requires WriterState(reqs, k.received, k.stub, k.writer, k.closed, k.cause, k.blamed, k.served)
    requires Covering(cfg, reqs, k.writer)
    requires StubShape(cfg, reqs, k.received, k.stub)
    ensures Written(cfg, reqs', Work(k.writer), k.received)
    ensures WriterState(reqs', k.received, k.stub, k.writer, k.closed, k.cause, k.blamed, k.served)
    ensures Covering(cfg, reqs', k.writer)
    ensures StubShape(cfg, reqs', k.received, k.stub)
  {
  }

  lemma FrameConn(cfg: Config, reqs: seq<Request>, reqs': seq<Request>, c: ConnId, k: Conn)
    requires ConnInv(cfg, reqs, c, k) && SameOwned(reqs, reqs', c)
    ensures ConnInv(cfg, reqs', c, k)
  {
    hide Custody, SameOwned, Answers, Delivered, Written, WriterState, Covering, Marks, StubShape, Unchanged, Fifo,
      Distinct;
    FrameCustody(reqs, reqs', c, k);
    FrameReader(cfg, reqs, reqs', k);
    FrameWriter(cfg, reqs, reqs', k);
  }

  // A request is unaffected by changes elsewhere, as long as its connection
  // still covers it.
  lemma FrameReq(cfg: Config, conns: seq<Conn>, conns': seq<Conn>, holder: Option<(Id, ConnId)>,
                 holder': Option<(Id, ConnId)>, r: Id, q: Request)
    requires ReqInv(cfg, conns, holder, r, q)
    requires |conns| <= |conns'|
    requires forall c :: 0 <= c < |conns| ==> Later(conns[c], conns'[c])
    requires q.place.Claimed? && q.phase.Writing? ==> Covered(conns'[q.place.c], r, q)
    requires holder' == holder || (!q.place.Held? && (holder'.Some? ==> holder'.value.0 != r))
    ensures ReqInv(cfg, conns', holder', r, q)
  {
    hide Covered, OutcomeInv;
  }

  ghost predicate Later(k: Conn, k': Conn) {
    && (k.closed ==> k'.closed)
    && (k.served ==> k'.served)
    && (k.blamed.Some? ==> k'.blamed == k.blamed)
  }
}
