// Every event keeps the invariant.
module TransportSteps {
  import opened Protocol
  import opened Transport
  import opened TransportInvariant

  // ---- deciding one request ----

  // A request whose outcome becomes known keeps its place, its replies and its
  // bytes.
  ghost predicate Decided(q: Request, q': Request) {
    && q'.phase.Done?
    && q'.place == q.place && q'.responses == q.responses && q'.onWire == q.onWire
    && q'.sent == q.sent && q'.homes == q.homes
    && (q.phase.Done? ==> q' == q.(expiring := q'.expiring))
  }

  lemma DecidedReader(cfg: Config, reqs: seq<Request>, r: Id, q': Request, k: Conn)
    requires r < |reqs| && Decided(reqs[r], q')
    requires Answers(cfg, reqs, k.received, k.answering, k.given)
    requires Delivered(reqs, k.received, k.answering, k.popped)
    requires Marks(reqs, k.received, k.closed, k.writer)
    ensures Answers(cfg, reqs[r := q'], k.received, k.answering, k.given)
    ensures Delivered(reqs[r := q'], k.received, k.answering, k.popped)
    ensures Marks(reqs[r := q'], k.received, k.closed, k.writer)
  {
  }

  lemma DecidedWriter(cfg: Config, reqs: seq<Request>, r: Id, q': Request, k: Conn)
    requires r < |reqs| && Decided(reqs[r], q')
    requires Written(cfg, reqs, Work(k.writer), k.received)
    requires WriterState(reqs, k.received, k.stub, k.writer, k.closed, k.cause, k.blamed, k.served)
    requires StubShape(cfg, reqs, k.received, k.stub)
    ensures Written(cfg, reqs[r := q'], Work(k.writer), k.received)
    ensures WriterState(reqs[r := q'], k.received, k.stub, k.writer, k.closed, k.cause, k.blamed, k.served)
    ensures StubShape(cfg, reqs[r := q'], k.received, k.stub)
  {
  }

  // Who holds what depends on the places alone.
  lemma PlacesCustody(reqs: seq<Request>, reqs': seq<Request>, c: ConnId, k: Conn)
    requires Custody(reqs, c, k) && |reqs'| == |reqs|
    requires forall r :: 0 <= r < |reqs| ==> reqs'[r].place == reqs[r].place
    ensures Custody(reqs', c, k)
  {
    hide Distinct;
  }

  lemma DecidedConn(cfg: Config, reqs: seq<Request>, r: Id, q': Request, c: ConnId, k: Conn)
    requires ConnInv(cfg, reqs, c, k)
    requires r < |reqs| && Decided(reqs[r], q')
    requires Covering(cfg, reqs[r := q'], k.writer)
    ensures ConnInv(cfg, reqs[r := q'], c, k)
  {
    hide Custody, Answers, Delivered, Written, WriterState, Covering, Marks, StubShape, Fifo, Distinct, Progress;
    PlacesCustody(reqs, reqs[r := q'], c, k);
    DecidedReader(cfg, reqs, r, q', k);
    DecidedWriter(cfg, reqs, r, q', k);
  }

  // A request outside the unwritten part of a live flush.
  ghost predicate NotUnsent(k: Conn, r: Id) {
    k.writer.Sending? ==> forall i :: 0 <= i < |k.writer.flush.batch| && k.writer.flush.full <= i ==> k.writer.flush.batch[i] != r
  }

  lemma StillCovering(cfg: Config, reqs: seq<Request>, r: Id, q': Request, c: ConnId, k: Conn)
    requires ConnInv(cfg, reqs, c, k) && r < |reqs|
    requires reqs[r].place != Claimed(c) || NotUnsent(k, r) || Reported(cfg, r, q')
    ensures Covering(cfg, reqs[r := q'], k.writer)
  {
    hide Answers, Delivered, Written, WriterState, Marks, WireShape, StubShape, Causes, TornDown, Apart, Distinct,
      Fifo, Listed;
  }

  lemma DecidedReq(cfg: Config, s: State, r: Id, q: Request, q': Request)
    requires ReqInv(cfg, s.conns, s.holder, r, q)
    requires Decided(q, q') && OutcomeInv(cfg, r, q')
    requires RawCause(cfg, r, q') ==> Blamed(s.conns, r)
    ensures ReqInv(cfg, s.conns, s.holder, r, q')
  {
    hide OutcomeInv, RawCause, Covered;
  }

  lemma DecideOne(cfg: Config, s: State, r: Id, q': Request)
    requires Inv(cfg, s)
    requires r < |s.reqs| && Decided(s.reqs[r], q')
    requires !s.reqs[r].place.Claimed? || Reported(cfg, r, q') ||
             (s.reqs[r].place.c < |s.conns| && NotUnsent(s.conns[s.reqs[r].place.c], r))
    requires OutcomeInv(cfg, r, q')
    requires RawCause(cfg, r, q') ==> Blamed(s.conns, r)
    ensures Inv(cfg, s.(reqs := s.reqs[r := q']))
  {
    hide ConnInv, ReqInv, OutcomeInv, RawCause, Covering, Reported, NotUnsent;
    var s' := s.(reqs := s.reqs[r := q']);
    forall c | 0 <= c < |s.conns| ensures ConnInv(cfg, s'.reqs, c, s'.conns[c]) {
      StillCovering(cfg, s.reqs, r, q', c, s.conns[c]);
      DecidedConn(cfg, s.reqs, r, q', c, s.conns[c]);
    }
    DecidedReq(cfg, s, r, s.reqs[r], q');
  }

  lemma CancelQueuedStep(cfg: Config, s: State, r: Id, deadline: bool)
    requires ValidConfig(cfg) && Inv(cfg, s) && CanStep(cfg, s, CancelQueued(r, deadline))
    ensures Inv(cfg, Apply(cfg, s, CancelQueued(r, deadline)))
  {
    hide ConnInv, WellFormed, Covered, Homes, Covering, NotUnsent;
    assert ReqInv(cfg, s.conns, s.holder, r, s.reqs[r]);
    assert Framed(cfg.exchange(r));
    DecideOne(cfg, s, r, GiveUp(s.reqs[r], 0, ErrOf(deadline)));
  }

  lemma RejectStep(cfg: Config, s: State, r: Id)
    requires ValidConfig(cfg) && Inv(cfg, s) && CanStep(cfg, s, Reject(r))
    ensures Inv(cfg, Apply(cfg, s, Reject(r)))
  {
    hide ConnInv, WellFormed, Covered, Homes, Covering, NotUnsent;
    assert ReqInv(cfg, s.conns, s.holder, r, s.reqs[r]);
    assert Framed(cfg.exchange(r));
    DecideOne(cfg, s, r, s.reqs[r].(phase := Done, outcome := Some(Outcome([], 0, Some(PoolClosed)))));
  }

  lemma CancelWritingStep(cfg: Config, s: State, r: Id, deadline: bool)
    requires ValidConfig(cfg) && Inv(cfg, s) && CanStep(cfg, s, CancelWriting(r, deadline))
    ensures Inv(cfg, Apply(cfg, s, CancelWriting(r, deadline)))
  {
    hide ConnInv, WellFormed, Covered, Homes, Covering, NotUnsent;
    assert ReqInv(cfg, s.conns, s.holder, r, s.reqs[r]);
    DecideOne(cfg, s, r, GiveUp(s.reqs[r], Len(cfg, r), ErrOf(deadline)).(expiring := deadline));
  }

  // ---- events that touch one connection and what it owns ----

  ghost predicate Kept(s: State, s': State, c: ConnId, r: Id)
    requires r < |s'.reqs| && c < |s'.conns|
  {
    && r < |s.reqs| && s'.reqs[r] == s.reqs[r]
    && (s.reqs[r].place == Claimed(c) && s.reqs[r].phase.Writing? ==> Covered(s'.conns[c], r, s.reqs[r]))
  }

  ghost predicate OnlyConn(s: State, s': State, c: ConnId) {
    && |s'.conns| == |s.conns| && c < |s.conns|
    && (forall x :: 0 <= x < |s.conns| && x != c ==> s'.conns[x] == s.conns[x] && SameOwned(s.reqs, s'.reqs, x))
    && Later(s.conns[c], s'.conns[c])
    && s'.holder == s.holder
  }

  lemma Local(cfg: Config, s: State, s': State, c: ConnId)
    requires Inv(cfg, s) && PoolInv(cfg, s')
    requires OnlyConn(s, s', c)
    requires ConnInv(cfg, s'.reqs, c, s'.conns[c])
    requires forall r :: 0 <= r < |s'.reqs| ==> Kept(s, s', c, r) || ReqInv(cfg, s'.conns, s'.holder, r, s'.reqs[r])
    ensures Inv(cfg, s')
  {
    hide ConnInv, PoolInv, Covered, SameOwned;
    forall x | 0 <= x < |s'.conns| ensures ConnInv(cfg, s'.reqs, x, s'.conns[x]) {
      if x != c {
        FrameConn(cfg, s.reqs, s'.reqs, x, s.conns[x]);
      }
    }
    forall r | 0 <= r < |s'.reqs| ensures ReqInv(cfg, s'.conns, s'.holder, r, s'.reqs[r]) {
      if Kept(s, s', c, r) {
        FrameReq(cfg, s.conns, s'.conns, s.holder, s'.holder, r, s.reqs[r]);
      }
    }
  }

  ghost predicate StillCovered(reqs: seq<Request>, c: ConnId, k: Conn, k': Conn) {
    forall x :: 0 <= x < |reqs| && reqs[x].place == Claimed(c) && reqs[x].phase.Writing? && Covered(k, x, reqs[x]) ==>
      Covered(k', x, reqs[x])
  }

  // A change of one connection's lists, with no request changed.
  lemma ConnOnly(cfg: Config, s: State, c: ConnId, k': Conn)
    requires Inv(cfg, s) && c < |s.conns|
    requires Later(s.conns[c], k') && ConnInv(cfg, s.reqs, c, k')
    requires StillCovered(s.reqs, c, s.conns[c], k')
    ensures Inv(cfg, s.(conns := s.conns[c := k']))
  {
    hide ConnInv, PoolInv, Covered, ReqInv, Later;
    var s' := s.(conns := s.conns[c := k']);
    PoolReqs(cfg, s, s');
    forall x | 0 <= x < |s.reqs| ensures Kept(s, s', c, x) {
      WritingCovered(cfg, s, x, c);
    }
    Local(cfg, s, s', c);
  }

  // A change of one connection together with one request it owns.
  lemma LocalOne(cfg: Config, s: State, c: ConnId, r: Id, q': Request, k': Conn)
    requires Inv(cfg, s) && c < |s.conns| && r < |s.reqs|
    requires Owner(s.reqs[r].place) == Some(c) && !s.reqs[r].place.Held?
    requires !q'.place.Held? && (Owner(q'.place) == Some(c) || Owner(q'.place) == None)
    requires Later(s.conns[c], k') && ConnInv(cfg, s.reqs[r := q'], c, k')
    requires StillCovered(s.reqs[r := q'], c, s.conns[c], k')
    requires ReqInv(cfg, s.conns[c := k'], s.holder, r, q')
    ensures Inv(cfg, s.(conns := s.conns[c := k'], reqs := s.reqs[r := q']))
  {
    hide ConnInv, PoolInv, Covered, ReqInv, Later;
    var s' := s.(conns := s.conns[c := k'], reqs := s.reqs[r := q']);
    PoolReqs(cfg, s, s');
    forall x | 0 <= x < |s.reqs| && x != r ensures Kept(s, s', c, x) {
      WritingCovered(cfg, s, x, c);
    }
    assert forall x :: x != c ==> SameOwned(s.reqs, s'.reqs, x);
    Local(cfg, s, s', c);
  }

  // One request is settled and its connection crosses it off a list.
  lemma SettleOne(cfg: Config, s: State, c: ConnId, r: Id, q': Request, k': Conn)
    requires Inv(cfg, s) && c < |s.conns| && r < |s.reqs| && s.reqs[r].place == Claimed(c)
    requires Decided(s.reqs[r], q') && OutcomeInv(cfg, r, q')
    requires RawCause(cfg, r, q') ==> Blamed(s.conns, r)
    requires NotUnsent(s.conns[c], r)
    requires Later(s.conns[c], k')
    requires ConnInv(cfg, s.reqs[r := q'], c, k')
    requires StillCovered(s.reqs[r := q'], c, s.conns[c], k')
    ensures Inv(cfg, s.(conns := s.conns[c := k'], reqs := s.reqs[r := q']))
  {
    hide ConnInv, OutcomeInv, RawCause, Covering, Later, Covered, NotUnsent, Reported, Homes, ReqInv, StillCovered;
    DecideOne(cfg, s, r, q');
    ConnOnly(cfg, s.(reqs := s.reqs[r := q']), c, k');
  }

  lemma DeliverStep(cfg: Config, s: State, c: ConnId)
    requires Inv(cfg, s) && CanStep(cfg, s, Deliver(c))
    ensures Inv(cfg, Apply(cfg, s, Deliver(c)))
  {
    hide ConnInv, WellFormed, Homes, PoolInv;
    var k := s.conns[c];
    var r := k.popped.value;
    DeliverConn(cfg, s.reqs, c, k);
    assert ReqInv(cfg, s.conns, s.holder, r, s.reqs[r]);
    SettleOne(cfg, s, c, r, Complete(s.reqs[r], s.reqs[r].responses, Len(cfg, r), None), k.(popped := None));
  }

  lemma DeliverConn(cfg: Config, reqs: seq<Request>, c: ConnId, k: Conn)
    requires ConnInv(cfg, reqs, c, k) && k.popped.Some?
    ensures
      var r := k.popped.value;
      && r < |reqs| && NotUnsent(k, r)
      && reqs[r].place == Claimed(c) && reqs[r].responses == Replies(cfg, r) && Fail(cfg, r).None?
      && reqs[r].sent == Len(cfg, r)
      && ConnInv(cfg, reqs[r := Complete(reqs[r], reqs[r].responses, Len(cfg, r), None)], c, k.(popped := None))
  {
    hide Covering, Marks, WireShape, StubShape, WriterState, Causes, TornDown, Apart, Fifo, Listed, Progress, AllAt;
    var r := k.popped.value;
    assert r in k.received;
    assert Answer(cfg, k.answering, k.given, k.answering - 1, r, reqs[r]);
    assert NotUnsent(k, r);
    var q' := Complete(reqs[r], reqs[r].responses, Len(cfg, r), None);
    StillCovering(cfg, reqs, r, q', c, k);
    DecidedConn(cfg, reqs, r, q', c, k);
  }

  // One turn of teardown's loop. The request may meanwhile be in flight on
  // another connection; deciding it is still harmless.
  lemma SettleLostStep(cfg: Config, s: State, c: ConnId)
    requires Inv(cfg, s) && CanStep(cfg, s, SettleLost(c))
    ensures Inv(cfg, Apply(cfg, s, SettleLost(c)))
  {
    hide ConnInv, WellFormed, ReqInv, Covered, Complete, LostError, PoolInv;
    var k := s.conns[c];
    CrossOff(cfg, s.reqs, c, k);
    var r := k.tearing[0];
    var q := s.reqs[r];
    var q' := if q.onWire then Complete(q, q.responses, Len(cfg, r), LostError(k.cause, k.blamed, r)) else q;
    LostDecision(cfg, s, c, r, q');
    var s1 := s.(reqs := s.reqs[r := q']);
    CrossOff(cfg, s1.reqs, c, k);
    forall x | 0 <= x < |s1.reqs| && s1.reqs[x].phase.Writing? && Covered(k, x, s1.reqs[x])
      ensures Covered(k.(tearing := k.tearing[1..]), x, s1.reqs[x]) {
      CoveredAfterCrossOff(k, x, s1.reqs[x]);
    }
    ConnOnly(cfg, s1, c, k.(tearing := k.tearing[1..]));
  }

  lemma LostDecision(cfg: Config, s: State, c: ConnId, r: Id, q': Request)
    requires Inv(cfg, s) && c < |s.conns| && r < |s.reqs|
    requires Causes(cfg, s.conns[c].closed, s.conns[c].cause, s.conns[c].blamed)
    requires q' == if s.reqs[r].onWire
                   then Complete(s.reqs[r], s.reqs[r].responses, Len(cfg, r), LostError(s.conns[c].cause, s.conns[c].blamed, r))
                   else s.reqs[r]
    ensures Inv(cfg, s.(reqs := s.reqs[r := q']))
    ensures q'.phase.Done? || !q'.onWire
  {
    hide ConnInv, Homes, Covered, Covering, Reported, PoolInv, NotUnsent;
    var q := s.reqs[r];
    assert ReqInv(cfg, s.conns, s.holder, r, q);
    if q.onWire && !q.phase.Done? {
      HomesOwner(s.conns, q);
      OnWireNotUnsent(cfg, s.reqs, q.place.c, s.conns[q.place.c], r);
      DecideOne(cfg, s, r, q');
    } else {
      assert s.reqs[r := q'] == s.reqs;
    }
  }

  lemma WritingCovered(cfg: Config, s: State, r: Id, c: ConnId)
    requires Inv(cfg, s) && r < |s.reqs| && c < |s.conns|
    ensures s.reqs[r].place == Claimed(c) && s.reqs[r].phase.Writing? ==> Covered(s.conns[c], r, s.reqs[r])
  {
    hide ConnInv, Homes, Covered, OutcomeInv, PoolInv;
    assert ReqInv(cfg, s.conns, s.holder, r, s.reqs[r]);
  }

  lemma PoolReqs(cfg: Config, s: State, s': State)
    requires PoolInv(cfg, s)
    requires s'.members == s.members && s'.toDrain == s.toDrain && s'.holder == s.holder
    requires |s'.conns| >= |s.conns| && |s'.reqs| >= |s.reqs|
    requires forall r :: 0 <= r < |s.reqs| && s.reqs[r].place.Held? ==> s'.reqs[r].place == s.reqs[r].place
    ensures PoolInv(cfg, s')
  {
  }

  lemma HomesOwner(conns: seq<Conn>, q: Request)
    requires Homes(conns, q)
    ensures Owner(q.place).Some? ==> Owner(q.place).value < |conns|
  {
  }

  lemma CrossOff(cfg: Config, reqs: seq<Request>, c: ConnId, k: Conn)
    requires ConnInv(cfg, reqs, c, k) && k.tearing != []
    ensures k.tearing[0] < |reqs|
    ensures ConnInv(cfg, reqs, c, k.(tearing := k.tearing[1..]))
    ensures Causes(cfg, k.closed, k.cause, k.blamed)
    ensures k.closed && Later(k, k.(tearing := k.tearing[1..]))
  {
    hide Answers, Delivered, Written, WriterState, Covering, Marks, WireShape, StubShape, Fifo, Distinct, Progress,
      Listed, AllAt;
  }

  lemma CoveredAfterCrossOff(k: Conn, r: Id, q: Request)
    requires k.tearing != []
    requires Covered(k, r, q)
    requires r == k.tearing[0] ==> !q.onWire
    ensures Covered(k.(tearing := k.tearing[1..]), r, q)
  {
    if r in k.tearing && r != k.tearing[0] {
      assert k.tearing == [k.tearing[0]] + k.tearing[1..];
    }
  }

  lemma OnWireNotUnsent(cfg: Config, reqs: seq<Request>, c: ConnId, k: Conn, r: Id)
    requires ConnInv(cfg, reqs, c, k) && r < |reqs| && reqs[r].onWire
    ensures NotUnsent(k, r)
  {
    hide Answers, Delivered, Written, Covering, Marks, WireShape, StubShape, Fifo, Distinct, Progress, Listed, AllAt;
  }

  // ---- flush's loop ----

  lemma SettleBatchStep(cfg: Config, s: State, c: ConnId)
    requires ValidConfig(cfg) && Inv(cfg, s) && CanStep(cfg, s, SettleBatch(c))
    ensures Inv(cfg, Apply(cfg, s, SettleBatch(c)))
  {
    hide ConnInv, WellFormed, ReqInv, Covered, SettleWritten, PoolInv, Rest, ValidConfig, StillCovered, Later;
    var k := s.conns[c];
    var Settling(f, seen, requeue) := k.writer;
    FirstOfBatch(cfg, s.reqs, c, k);
    var r := f.batch[0];
    if GoesBack(f, seen, s.reqs[r]) {
      GoBackStep(cfg, s, c, r);
    } else {
      var q' := SettleWritten(cfg, f, seen, r, s.reqs[r]);
      BatchDecision(cfg, s, c, r, q');
      var s1 := s.(reqs := s.reqs[r := q']);
      DropFirst(cfg, s1.reqs, c, k);
      DropFirstCovers(s1.reqs, c, k, requeue);
      ConnOnly(cfg, s1, c, k.(writer := Settling(Rest(f), seen, requeue)));
    }
  }

  // What flush's loop knows about the request it visits next.
  lemma FirstOfBatch(cfg: Config, reqs: seq<Request>, c: ConnId, k: Conn)
    requires ConnInv(cfg, reqs, c, k) && k.writer.Settling? && k.writer.left.batch != []
    ensures
      var Settling(f, seen, _) := k.writer;
      var r := f.batch[0];
      && r < |reqs| && reqs[r].place == Claimed(c)
      && reqs[r].sent == (if f.full > 0 then Len(cfg, r) else f.part)
      && (f.full == 0 ==> f.part < Len(cfg, r) && reqs[r].responses == [] && !reqs[r].onWire && r !in k.received
                          && seen.err.Some? && seen.err.value.Wire?)
      && (seen.closed ==> seen.cause == k.cause && seen.blamed == k.blamed && k.closed)
      && Causes(cfg, k.closed, k.cause, k.blamed)
      && (seen.served ==> k.served) && f.full <= |f.batch|
  {
    hide Answers, Delivered, Covering, Marks, WireShape, StubShape, Fifo, Distinct, Listed;
  }

  lemma BatchDecision(cfg: Config, s: State, c: ConnId, r: Id, q': Request)
    requires Inv(cfg, s) && c < |s.conns|
    requires s.conns[c].writer.Settling? && s.conns[c].writer.left.batch != []
    requires r == s.conns[c].writer.left.batch[0] && r < |s.reqs|
    requires q' == SettleWritten(cfg, s.conns[c].writer.left, s.conns[c].writer.seen, r, s.reqs[r])
    requires !GoesBack(s.conns[c].writer.left, s.conns[c].writer.seen, s.reqs[r])
    ensures Inv(cfg, s.(reqs := s.reqs[r := q']))
    ensures q'.phase.Done? || (q' == s.reqs[r] && s.conns[c].writer.left.full > 0 && !s.conns[c].writer.seen.closed)
  {
    hide ConnInv, Homes, Covered, Covering, Reported, PoolInv;
    var q := s.reqs[r];
    assert ReqInv(cfg, s.conns, s.holder, r, q);
    FirstOfBatch(cfg, s.reqs, c, s.conns[c]);
    if q' == q {
      assert s.reqs[r := q'] == s.reqs;
    } else {
      DecideOne(cfg, s, r, q');
    }
  }

  lemma DropFirst(cfg: Config, reqs: seq<Request>, c: ConnId, k: Conn)
    requires ValidConfig(cfg)
    requires ConnInv(cfg, reqs, c, k) && k.writer.Settling? && k.writer.left.batch != []
    ensures
      var k' := k.(writer := Settling(Rest(k.writer.left), k.writer.seen, k.writer.requeue));
      ConnInv(cfg, reqs, c, k') && Later(k, k')
  {
    hide Answers, Delivered, WireShape, StubShape, Listed, Framed, Causes, WriterState, Progress, Written, Distinct,
      OneAt;
    RestFits(cfg, reqs, k.writer.left, k.received);
    RestState(reqs, k);
    assert AllAt(reqs, k.writer.left.batch[1..], Claimed(c));
  }

  lemma RestFits(cfg: Config, reqs: seq<Request>, f: Flush, received: seq<Id>)
    requires ValidConfig(cfg) && f.batch != []
    requires Progress(cfg, f) && Written(cfg, reqs, f, received)
    ensures Progress(cfg, Rest(f)) && Written(cfg, reqs, Rest(f), received)
  {
    var f' := Rest(f);
    if f'.full < |f'.batch| {
      assert Framed(cfg.exchange(f'.batch[f'.full]));
      assert f'.batch[f'.full] == f.batch[f'.full + 1];
    }
  }

  lemma RestState(reqs: seq<Request>, k: Conn)
    requires k.writer.Settling? && k.writer.left.batch != []
    requires WriterState(reqs, k.received, k.stub, k.writer, k.closed, k.cause, k.blamed, k.served)
    ensures WriterState(reqs, k.received, k.stub, Settling(Rest(k.writer.left), k.writer.seen, k.writer.requeue),
                        k.closed, k.cause, k.blamed, k.served)
  {
    UnsettledRest(k.writer.left, k.writer.seen);
  }

  lemma UnsettledRest(f: Flush, seen: Seen)
    requires f.batch != [] && f.full <= |f.batch|
    ensures Unsettled(f, seen) == (if seen.closed || f.full == 0 then [f.batch[0]] else []) + Unsettled(Rest(f), seen)
  {
  }

  lemma DropFirstCovers(reqs: seq<Request>, c: ConnId, k: Conn, requeue: seq<Id>)
    requires k.writer.Settling? && k.writer.left.batch != [] && k.writer.left.full <= |k.writer.left.batch|
    requires
      var r := k.writer.left.batch[0];
      r < |reqs| && (!reqs[r].phase.Writing? || (k.writer.left.full > 0 && !k.writer.seen.closed))
    ensures StillCovered(reqs, c, k, k.(writer := Settling(Rest(k.writer.left), k.writer.seen, requeue)))
  {
    UnsettledRest(k.writer.left, k.writer.seen);
  }

  // A request that no list of claimed requests mentions.
  ghost predicate Uninvolved(k: Conn, r: Id) {
    && r !in k.received && r !in Work(k.writer).batch && r !in k.inflight
    && k.popped != Some(r) && StubOwner(k.stub) != Some(r)
  }

  lemma MovedUnchanged(reqs: seq<Request>, r: Id, q': Request, c: ConnId, k: Conn)
    requires Custody(reqs, c, k) && r < |reqs| && Uninvolved(k, r)
    ensures Unchanged(reqs, reqs[r := q'], k.received)
    ensures Unchanged(reqs, reqs[r := q'], Work(k.writer).batch)
    ensures k.stub != [] ==> k.stub[0].req < |reqs| && reqs[r := q'][k.stub[0].req] == reqs[k.stub[0].req]
  {
    hide Listed;
  }

  // The request flush gives back to the queue.
  lemma GoBackStep(cfg: Config, s: State, c: ConnId, r: Id)
    requires ValidConfig(cfg) && Inv(cfg, s) && c < |s.conns|
    requires s.conns[c].writer.Settling? && s.conns[c].writer.left.batch != []
    requires r == s.conns[c].writer.left.batch[0] && r < |s.reqs|
    requires GoesBack(s.conns[c].writer.left, s.conns[c].writer.seen, s.reqs[r])
    ensures
      var Settling(f, seen, requeue) := s.conns[c].writer;
      Inv(cfg, s.(conns := s.conns[c := s.conns[c].(writer := Settling(Rest(f), seen, requeue + [r]))],
                  reqs := s.reqs[r := s.reqs[r].(phase := Queued, place := Requeued(c))]))
  {
    hide ConnInv, Covered, PoolInv, Rest, ValidConfig, StillCovered, Later, OutcomeInv;
    var k := s.conns[c];
    FirstOfBatch(cfg, s.reqs, c, k);
    GoBackConn(cfg, s.reqs, c, k);
    var k' := k.(writer := Settling(Rest(k.writer.left), k.writer.seen, k.writer.requeue + [r]));
    assert ReqInv(cfg, s.conns, s.holder, r, s.reqs[r]);
    var q' := s.reqs[r].(phase := Queued, place := Requeued(c));
    RequeuedReq(cfg, s, c, r, q', k');
    LocalOne(cfg, s, c, r, q', k');
  }

  lemma RequeuedReq(cfg: Config, s: State, c: ConnId, r: Id, q': Request, k': Conn)
    requires c < |s.conns| && r < |s.reqs| && ReqInv(cfg, s.conns, s.holder, r, s.reqs[r])
    requires s.reqs[r].place == Claimed(c) && s.reqs[r].phase.Writing?
    requires s.reqs[r].sent == 0 && s.reqs[r].responses == [] && !s.reqs[r].onWire
    requires q' == s.reqs[r].(phase := Queued, place := Requeued(c)) && Later(s.conns[c], k')
    ensures ReqInv(cfg, s.conns[c := k'], s.holder, r, q')
  {
    hide Covered;
  }

  lemma GoBackConn(cfg: Config, reqs: seq<Request>, c: ConnId, k: Conn)
    requires ValidConfig(cfg)
    requires ConnInv(cfg, reqs, c, k) && k.writer.Settling? && k.writer.left.batch != []
    requires k.writer.left.batch[0] < |reqs|
    requires GoesBack(k.writer.left, k.writer.seen, reqs[k.writer.left.batch[0]])
    ensures
      var r := k.writer.left.batch[0];
      var k' := k.(writer := Settling(Rest(k.writer.left), k.writer.seen, k.writer.requeue + [r]));
      var reqs' := reqs[r := reqs[r].(phase := Queued, place := Requeued(c))];
      ConnInv(cfg, reqs', c, k') && Later(k, k') && StillCovered(reqs', c, k, k')
  {
    hide Answers, Delivered, WriterState, Covering, Marks, StubShape, Rest, StillCovered, Causes, ValidConfig, Fifo,
      Written, Progress, Listed, AllAt, WireShape, OneAt;
    var Settling(f, seen, requeue) := k.writer;
    var r := f.batch[0];
    var q' := reqs[r].(phase := Queued, place := Requeued(c));
    FirstOfBatch(cfg, reqs, c, k);
    DropFirst(cfg, reqs, c, k);
    DropFirstCovers(reqs[r := q'], c, k, requeue + [r]);
    var k1 := k.(writer := Settling(Rest(f), seen, requeue));
    FirstUninvolved(cfg, reqs, c, k);
    RequeueConn(cfg, reqs, c, k1, r, q');
  }

  lemma FirstUninvolved(cfg: Config, reqs: seq<Request>, c: ConnId, k: Conn)
    requires ConnInv(cfg, reqs, c, k) && k.writer.Settling? && k.writer.left.batch != []
    requires k.writer.left.full == 0 && k.writer.left.part == 0 && k.writer.left.batch[0] < |reqs|
    ensures Uninvolved(k.(writer := Settling(Rest(k.writer.left), k.writer.seen, k.writer.requeue)), k.writer.left.batch[0])
  {
    hide Answers, Delivered, WriterState, Covering, Marks, Causes, Listed, AllAt, OneAt, WireShape, TornDown, Apart;
    var f := k.writer.left;
    assert f.batch[0] !in f.batch[1..];
    assert k.popped.Some? ==> k.popped.value in k.received;
  }

  // The request joins the list of those flush will re-home.
  lemma RequeueConn(cfg: Config, reqs: seq<Request>, c: ConnId, k: Conn, r: Id, q': Request)
    requires ConnInv(cfg, reqs, c, k) && r < |reqs| && Uninvolved(k, r)
    requires k.writer.Settling? && k.writer.seen.served && reqs[r].place == Claimed(c) && q'.place == Requeued(c)
    ensures ConnInv(cfg, reqs[r := q'], c, k.(writer := Settling(k.writer.left, k.writer.seen, k.writer.requeue + [r])))
  {
    hide Custody, Answers, Delivered, Written, WriterState, Covering, Marks, StubShape, Fifo, Distinct, Progress;
    var reqs' := reqs[r := q'];
    MovedUnchanged(reqs, r, q', c, k);
    FrameReader(cfg, reqs, reqs', k);
    FrameWriter(cfg, reqs, reqs', k);
    var k' := k.(writer := Settling(k.writer.left, k.writer.seen, k.writer.requeue + [r]));
    RequeueCustody(reqs, c, k, r, q');
    RequeueRest(cfg, reqs', k, r);
  }

  lemma RequeueRest(cfg: Config, reqs: seq<Request>, k: Conn, r: Id)
    requires k.writer.Settling? && k.writer.seen.served
    requires WriterState(reqs, k.received, k.stub, k.writer, k.closed, k.cause, k.blamed, k.served)
    requires Fifo(k.closed, k.inflight, k.received, k.answering, k.writer)
    requires Marks(reqs, k.received, k.closed, k.writer)
    ensures
      var w := Settling(k.writer.left, k.writer.seen, k.writer.requeue + [r]);
      && WriterState(reqs, k.received, k.stub, w, k.closed, k.cause, k.blamed, k.served)
      && Fifo(k.closed, k.inflight, k.received, k.answering, w)
      && Marks(reqs, k.received, k.closed, w)
      && Covering(cfg, reqs, w)
  {
  }

  lemma RequeueCustody(reqs: seq<Request>, c: ConnId, k: Conn, r: Id, q': Request)
    requires Custody(reqs, c, k) && r < |reqs| && Uninvolved(k, r)
    requires k.writer.Settling? && reqs[r].place == Claimed(c) && q'.place == Requeued(c)
    ensures Custody(reqs[r := q'], c, k.(writer := Settling(k.writer.left, k.writer.seen, k.writer.requeue + [r])))
  {
    ListedJoin(reqs, r, q', k.writer.requeue, Requeued(c));
    ListedOther(reqs, r, q', k.pending, Pending(c));
    ListedOther(reqs, r, q', k.leftover, Leftover(c));
    ListedOther(reqs, r, q', k.drained, Drained(c));
    hide Listed;
  }

  lemma ListedJoin(reqs: seq<Request>, r: Id, q': Request, list: seq<Id>, place: Place)
    requires r < |reqs| && Listed(reqs, list, place) && reqs[r].place != place && q'.place == place
    ensures Listed(reqs[r := q'], list + [r], place)
  {
  }

  lemma ListedOther(reqs: seq<Request>, r: Id, q': Request, list: seq<Id>, place: Place)
    requires r < |reqs| && Listed(reqs, list, place) && reqs[r].place != place && q'.place != place
    ensures Listed(reqs[r := q'], list, place)
  {
  }

  // ---- teardown ----

  // What a caller of teardownLocked must know about its cause.
  ghost predicate FairCause(cfg: Config, k: Conn, cause: Error, headSaw: bool) {
    && !cause.Lost?
    && (cause.FromServer? && !k.closed ==>
          headSaw && k.inflight != [] && Fail(cfg, k.inflight[0]) == Some(cause.error))
  }

  lemma TeardownKeeps(cfg: Config, s: State, c: ConnId, cause: Error, headSaw: bool)
    requires Inv(cfg, s) && c < |s.conns| && FairCause(cfg, s.conns[c], cause, headSaw)
    ensures Inv(cfg, Teardown(s, c, cause, headSaw))
    ensures Teardown(s, c, cause, headSaw).conns[c].closed
  {
    hide ConnInv, Covered, PoolInv, ReqInv, SameOwned, FairCause;
    var k := s.conns[c];
    if !k.closed {
      var s' := Teardown(s, c, cause, headSaw);
      var k' := s'.conns[c];
      TeardownConn(cfg, s.reqs, c, k, cause, headSaw);
      PendingPlaces(cfg, s.reqs, c, k);
      MovePool(cfg, s, s', k.pending, Leftover(c));
      MoveOthers(s.reqs, k.pending, Pending(c), Leftover(c), c);
      forall r | 0 <= r < |s.reqs|
        ensures Kept(s, s', c, r) || ReqInv(cfg, s'.conns, s'.holder, r, s'.reqs[r]) {
        WritingCovered(cfg, s, r, c);
        if r in k.pending {
          assert ReqInv(cfg, s.conns, s.holder, r, s.reqs[r]);
          QueueMove(cfg, s.conns, s'.conns, s.holder, r, s.reqs[r], Leftover(c));
        } else if s.reqs[r].place == Claimed(c) && s.reqs[r].phase.Writing? {
          TeardownCovers(cfg, s.reqs, c, k, k', r);
        }
      }
      Local(cfg, s, s', c);
    }
  }

  lemma PendingPlaces(cfg: Config, reqs: seq<Request>, c: ConnId, k: Conn)
    requires ConnInv(cfg, reqs, c, k)
    ensures AllAt(reqs, k.pending, Pending(c))
  {
    hide Answers, Delivered, Written, WriterState, Covering, Marks, WireShape, StubShape, Causes, TornDown, Apart,
      Distinct;
  }

  lemma MovePool(cfg: Config, s: State, s': State, list: seq<Id>, place: Place)
    requires PoolInv(cfg, s)
    requires s'.members == s.members && s'.toDrain == s.toDrain && s'.holder == s.holder && |s'.conns| == |s.conns|
    requires s'.reqs == MoveAll(s.reqs, list, place)
    requires forall i :: 0 <= i < |list| ==> list[i] < |s.reqs| && !s.reqs[list[i]].place.Held?
    ensures PoolInv(cfg, s')
  {
  }

  lemma MoveOthers(reqs: seq<Request>, list: seq<Id>, from: Place, to: Place, c: ConnId)
    requires AllAt(reqs, list, from) && Owner(from) == Some(c) && Owner(to) == Some(c)
    ensures forall x :: x != c ==> SameOwned(reqs, MoveAll(reqs, list, to), x)
  {
  }

  // A queued request changes hands within its connection.
  lemma QueueMove(cfg: Config, conns: seq<Conn>, conns': seq<Conn>, holder: Option<(Id, ConnId)>, r: Id, q: Request, to: Place)
    requires ReqInv(cfg, conns, holder, r, q)
    requires q.place.Pending? && (to == Leftover(q.place.c) || to == Drained(q.place.c))
    requires |conns'| == |conns| && forall x :: 0 <= x < |conns| ==> Later(conns[x], conns'[x])
    ensures ReqInv(cfg, conns', holder, r, q.(place := to))
  {
    hide Covered;
  }

  lemma TeardownConn(cfg: Config, reqs: seq<Request>, c: ConnId, k: Conn, cause: Error, headSaw: bool)
    requires ConnInv(cfg, reqs, c, k) && !k.closed && FairCause(cfg, k, cause, headSaw)
    ensures
      var k' := k.(closed := true, cause := Some(cause),
                   blamed := if headSaw && k.inflight != [] then Some(k.inflight[0]) else None,
                   tearing := k.inflight, inflight := [],
                   leftover := k.pending, pending := [], rehome := k.served);
      ConnInv(cfg, MoveAll(reqs, k.pending, Leftover(c)), c, k') && Later(k, k')
  {
    hide Answers, Delivered, Written, Covering, StubShape, WireShape, Progress, WriterState, Listed, AllAt, OneAt;
    var reqs' := MoveAll(reqs, k.pending, Leftover(c));
    PendingUnchanged(cfg, reqs, reqs', c, k);
    FrameReader(cfg, reqs, reqs', k);
    FrameWriter(cfg, reqs, reqs', k);
    TeardownState(reqs', k, cause, if headSaw && k.inflight != [] then Some(k.inflight[0]) else None);
    TeardownCustody(reqs, c, k);
    InflightAt(cfg, reqs, c, k);
  }

  lemma InflightAt(cfg: Config, reqs: seq<Request>, c: ConnId, k: Conn)
    requires AllAt(reqs, k.inflight, Claimed(c))
    ensures forall i :: 0 <= i < |k.inflight| ==> k.inflight[i] < |reqs|
  {
  }

  lemma TeardownState(reqs: seq<Request>, k: Conn, cause: Error, blamed: Option<Id>)
    requires WriterState(reqs, k.received, k.stub, k.writer, false, k.cause, k.blamed, k.served)
    ensures WriterState(reqs, k.received, k.stub, k.writer, true, Some(cause), blamed, k.served)
  {
  }

  // A change of the pending requests leaves everything claimed alone.
  lemma PendingUnchanged(cfg: Config, reqs: seq<Request>, reqs': seq<Request>, c: ConnId, k: Conn)
    requires Custody(reqs, c, k) && |reqs'| == |reqs|
    requires forall r :: 0 <= r < |reqs| && r !in k.pending ==> reqs'[r] == reqs[r]
    ensures Unchanged(reqs, reqs', k.received) && Unchanged(reqs, reqs', Work(k.writer).batch)
    ensures Unchanged(reqs, reqs', k.inflight)
    ensures k.stub != [] ==> k.stub[0].req < |reqs| && reqs'[k.stub[0].req] == reqs[k.stub[0].req]
    ensures k.popped.Some? ==> reqs'[k.popped.value] == reqs[k.popped.value]
  {
  }

  lemma TeardownCustody(reqs: seq<Request>, c: ConnId, k: Conn)
    requires Custody(reqs, c, k) && k.leftover == []
    ensures
      var reqs' := MoveAll(reqs, k.pending, Leftover(c));
      && Listed(reqs', [], Pending(c)) && Listed(reqs', k.pending, Leftover(c))
      && Listed(reqs', k.drained, Drained(c)) && Listed(reqs', Requeue(k.writer), Requeued(c))
      && AllAt(reqs', [], Claimed(c)) && AllAt(reqs', k.received, Claimed(c))
      && AllAt(reqs', Work(k.writer).batch, Claimed(c))
      && OneAt(reqs', k.popped, Claimed(c)) && OneAt(reqs', StubOwner(k.stub), Claimed(c))
  {
  }

  lemma TeardownCovers(cfg: Config, reqs: seq<Request>, c: ConnId, k: Conn, k': Conn, r: Id)
    requires ConnInv(cfg, reqs, c, k) && !k.closed && r < |reqs| && Covered(k, r, reqs[r])
    requires k'.tearing == k.inflight && k'.popped == k.popped && k'.writer == k.writer
    ensures Covered(k', r, reqs[r])
  {
    hide Custody, Answers, Delivered, Written, WriterState, Covering, WireShape, StubShape, Causes, Distinct;
    if r in k.inflight && !(k.writer.Sending? && r in k.writer.flush.batch) {
      assert k.inflight == k.received[k.answering..] + Unsent(k.writer);
      assert r in k.received[k.answering..];
      var i :| k.answering <= i < |k.received| && k.received[i] == r;
      if k.writer.Sending? {
        SendingTail(reqs, k);
      }
    }
  }

  lemma SendingTail(reqs: seq<Request>, k: Conn)
    requires k.writer.Sending?
    requires WriterState(reqs, k.received, k.stub, k.writer, k.closed, k.cause, k.blamed, k.served)
    ensures
      var f := k.writer.flush;
      f.full <= |k.received| && f.full <= |f.batch| &&
      forall i :: |k.received| - f.full <= i < |k.received| ==> k.received[i] in f.batch
  {
    var f := k.writer.flush;
    forall i | |k.received| - f.full <= i < |k.received| ensures k.received[i] in f.batch {
      assert k.received[|k.received| - f.full..][i - (|k.received| - f.full)] == f.batch[..f.full][i - (|k.received| - f.full)];
    }
  }

  lemma DialFailStep(cfg: Config, s: State, c: ConnId, code: nat)
    requires Inv(cfg, s) && CanStep(cfg, s, DialFail(c, code))
    ensures Inv(cfg, Apply(cfg, s, DialFail(c, code)))
  {
    hide Inv, WellFormed;
    TeardownKeeps(cfg, s, c, Wire(code), false);
  }

  lemma ReadFailStep(cfg: Config, s: State, c: ConnId, deadline: bool, code: nat)
    requires Inv(cfg, s) && CanStep(cfg, s, ReadFail(c, deadline, code))
    ensures Inv(cfg, Apply(cfg, s, ReadFail(c, deadline, code)))
  {
    hide Inv, WellFormed;
    TeardownKeeps(cfg, s, c, if deadline then Deadline else Wire(code), true);
  }

  lemma ExpireStep(cfg: Config, s: State, r: Id)
    requires Inv(cfg, s) && CanStep(cfg, s, Expire(r))
    ensures Inv(cfg, Apply(cfg, s, Expire(r)))
  {
    hide Inv, ListsExist, OldestLive;
    var t := s.(reqs := s.reqs[r := s.reqs[r].(expiring := false)]);
    QuietKeeps(cfg, s, r);
    TeardownKeeps(cfg, t, s.reqs[r].place.c, Deadline, true);
  }

  // Nothing depends on whether a settled request's caller has reported yet.
  lemma QuietKeeps(cfg: Config, s: State, r: Id)
    requires Inv(cfg, s) && r < |s.reqs| && s.reqs[r].phase.Done?
    ensures Inv(cfg, s.(reqs := s.reqs[r := s.reqs[r].(expiring := false)]))
  {
    hide ConnInv, ReqInv, OutcomeInv, RawCause, Covering;
    var q' := s.reqs[r].(expiring := false);
    var s' := s.(reqs := s.reqs[r := q']);
    forall c | 0 <= c < |s.conns| ensures ConnInv(cfg, s'.reqs, c, s'.conns[c]) {
      QuietCovering(cfg, s.reqs, r, c, s.conns[c]);
      DecidedConn(cfg, s.reqs, r, q', c, s.conns[c]);
    }
    QuietReq(cfg, s, r);
  }

  lemma QuietCovering(cfg: Config, reqs: seq<Request>, r: Id, c: ConnId, k: Conn)
    requires ConnInv(cfg, reqs, c, k) && r < |reqs|
    ensures Covering(cfg, reqs[r := reqs[r].(expiring := false)], k.writer)
  {
    hide Answers, Delivered, Written, WriterState, Marks, WireShape, StubShape, Causes, TornDown, Apart, Distinct,
      Fifo, Custody;
  }

  lemma QuietReq(cfg: Config, s: State, r: Id)
    requires r < |s.reqs| && ReqInv(cfg, s.conns, s.holder, r, s.reqs[r]) && s.reqs[r].phase.Done?
    ensures ReqInv(cfg, s.conns, s.holder, r, s.reqs[r].(expiring := false))
  {
    hide Covered, Homes;
    DecidedReq(cfg, s, r, s.reqs[r], s.reqs[r].(expiring := false));
  }

  lemma FlushFailStep(cfg: Config, s: State, c: ConnId)
    requires Inv(cfg, s) && CanStep(cfg, s, FlushFail(c))
    ensures Inv(cfg, Apply(cfg, s, FlushFail(c)))
  {
    hide Inv, WellFormed, ConnInv, Later, StillCovered;
    var w := s.conns[c].writer;
    SettledWriter(cfg, s, c);
    var t := if w.seen.err.Some? then Teardown(s, c, w.seen.err.value, false) else s;
    if w.seen.err.Some? {
      TeardownKeeps(cfg, s, c, w.seen.err.value, false);
    }
    ConnOf(cfg, t, c);
    WriterGone(cfg, t.reqs, c, t.conns[c]);
    ConnOnly(cfg, t, c, t.conns[c].(writer := Rehoming(w.requeue)));
  }

  lemma ConnOf(cfg: Config, s: State, c: ConnId)
    requires Inv(cfg, s) && c < |s.conns|
    ensures ConnInv(cfg, s.reqs, c, s.conns[c])
  {
    hide ConnInv, ReqInv, PoolInv;
  }

  lemma ReqOf(cfg: Config, s: State, r: Id)
    requires Inv(cfg, s) && r < |s.reqs|
    ensures ReqInv(cfg, s.conns, s.holder, r, s.reqs[r])
  {
    hide ConnInv, ReqInv, PoolInv;
  }

  lemma SettledWriter(cfg: Config, s: State, c: ConnId)
    requires Inv(cfg, s) && c < |s.conns| && s.conns[c].writer.Settling?
    ensures
      var seen := s.conns[c].writer.seen;
      && (seen.err.Some? ==> seen.err.value.Wire?)
      && (seen.err.None? ==> s.conns[c].closed)
  {
    hide Inv, Custody, Answers, Delivered, Covering, Marks, WireShape, StubShape, Fifo, Distinct, Listed;
    ConnOf(cfg, s, c);
  }

  // The writer is done with its batch.
  lemma WriterGone(cfg: Config, reqs: seq<Request>, c: ConnId, k: Conn)
    requires ConnInv(cfg, reqs, c, k) && k.writer.Settling? && k.writer.left.batch == [] && k.closed
    ensures
      var k' := k.(writer := Rehoming(k.writer.requeue));
      ConnInv(cfg, reqs, c, k') && Later(k, k') && StillCovered(reqs, c, k, k')
  {
    hide Answers, Delivered, WireShape, StubShape, Causes, Listed, OneAt;
  }

  // ---- the head of a queue leaves it ----

  lemma QueueUninvolved(reqs: seq<Request>, c: ConnId, k: Conn, r: Id)
    requires Custody(reqs, c, k) && r < |reqs| && !reqs[r].place.Claimed?
    ensures Uninvolved(k, r)
  {
    hide Listed;
  }

  lemma LeaveListed(reqs: seq<Request>, r: Id, q': Request, list: seq<Id>, place: Place)
    requires Listed(reqs, list, place) && list != [] && r == list[0] && q'.place != place
    ensures r < |reqs| && reqs[r].place == place && Listed(reqs[r := q'], list[1..], place)
  {
    assert list == [list[0]] + list[1..];
  }

  ghost predicate Homeless(p: Place) { p.Gone? || p.Fresh? }

  lemma LeaveFrame(cfg: Config, reqs: seq<Request>, c: ConnId, k: Conn, r: Id, q': Request)
    requires ConnInv(cfg, reqs, c, k) && r < |reqs| && !reqs[r].place.Claimed?
    ensures
      var reqs' := reqs[r := q'];
      && Uninvolved(k, r)
      && Answers(cfg, reqs', k.received, k.answering, k.given)
      && Delivered(reqs', k.received, k.answering, k.popped)
      && Marks(reqs', k.received, k.closed, k.writer)
      && Written(cfg, reqs', Work(k.writer), k.received)
      && WriterState(reqs', k.received, k.stub, k.writer, k.closed, k.cause, k.blamed, k.served)
      && Covering(cfg, reqs', k.writer)
      && StubShape(cfg, reqs', k.received, k.stub)
      && Within(reqs', k.tearing)
      && AllAt(reqs', k.inflight, Claimed(c)) && AllAt(reqs', k.received, Claimed(c))
      && AllAt(reqs', Work(k.writer).batch, Claimed(c))
      && OneAt(reqs', k.popped, Claimed(c)) && OneAt(reqs', StubOwner(k.stub), Claimed(c))
  {
    hide Answers, Delivered, Written, WriterState, Covering, Marks, StubShape, Fifo, Distinct, Progress, Listed,
      WireShape, Causes, TornDown, Apart;
    QueueUninvolved(reqs, c, k, r);
    MovedUnchanged(reqs, r, q', c, k);
    FrameReader(cfg, reqs, reqs[r := q'], k);
    FrameWriter(cfg, reqs, reqs[r := q'], k);
  }

  lemma LeaveDrained(cfg: Config, reqs: seq<Request>, c: ConnId, k: Conn, q': Request)
    requires ConnInv(cfg, reqs, c, k) && k.drained != [] && k.drained[0] < |reqs| && Homeless(q'.place)
    ensures ConnInv(cfg, reqs[k.drained[0] := q'], c, k.(drained := k.drained[1..]))
    ensures reqs[k.drained[0]].place == Drained(c)
  {
    hide Answers, Delivered, Written, WriterState, Covering, Marks, StubShape, Fifo, Distinct, Progress, Listed,
      AllAt, OneAt;
    var r := k.drained[0];
    LeaveListed(reqs, r, q', k.drained, Drained(c));
    ListedOther(reqs, r, q', k.pending, Pending(c));
    ListedOther(reqs, r, q', k.leftover, Leftover(c));
    ListedOther(reqs, r, q', Requeue(k.writer), Requeued(c));
    LeaveFrame(cfg, reqs, c, k, r, q');
  }

  lemma LeaveLeftover(cfg: Config, reqs: seq<Request>, c: ConnId, k: Conn, q': Request)
    requires ConnInv(cfg, reqs, c, k) && k.leftover != [] && k.leftover[0] < |reqs| && Homeless(q'.place)
    ensures ConnInv(cfg, reqs[k.leftover[0] := q'], c, k.(leftover := k.leftover[1..]))
    ensures reqs[k.leftover[0]].place == Leftover(c) && k.closed && (k.rehome ==> k.served)
  {
    hide Answers, Delivered, Written, WriterState, Covering, Marks, StubShape, Fifo, Distinct, Progress, Listed,
      AllAt, OneAt;
    var r := k.leftover[0];
    LeaveListed(reqs, r, q', k.leftover, Leftover(c));
    ListedOther(reqs, r, q', k.pending, Pending(c));
    ListedOther(reqs, r, q', k.drained, Drained(c));
    ListedOther(reqs, r, q', Requeue(k.writer), Requeued(c));
    LeaveFrame(cfg, reqs, c, k, r, q');
  }

  lemma LeaveRequeue(cfg: Config, reqs: seq<Request>, c: ConnId, k: Conn, q': Request)
    requires ConnInv(cfg, reqs, c, k) && k.writer.Rehoming? && k.writer.homeless != []
    requires k.writer.homeless[0] < |reqs| && Homeless(q'.place)
    ensures ConnInv(cfg, reqs[k.writer.homeless[0] := q'], c, k.(writer := Rehoming(k.writer.homeless[1..])))
    ensures reqs[k.writer.homeless[0]].place == Requeued(c) && k.closed && k.served
  {
    hide Answers, Delivered, StubShape, Distinct, Listed, OneAt;
    var r := k.writer.homeless[0];
    LeaveListed(reqs, r, q', k.writer.homeless, Requeued(c));
    ListedOther(reqs, r, q', k.pending, Pending(c));
    ListedOther(reqs, r, q', k.drained, Drained(c));
    ListedOther(reqs, r, q', k.leftover, Leftover(c));
    LeaveFrame(cfg, reqs, c, k, r, q');
  }

  ghost predicate Queueing(p: Place) { p.Drained? || p.Leftover? || p.Requeued? }

  // The three ways a request can leave a queue.
  ghost predicate Leaves(conns: seq<Conn>, q: Request, q': Request) {
    || (q.phase.Done? && q' == q.(place := Gone))
    || (exists err :: q' == Complete(q, [], 0, err).(place := Gone) && err.Some?)
    || (q.phase.Queued? && q' == q.(place := Fresh) && Queueing(q.place) && q.place.c < |conns|
        && conns[q.place.c].closed && conns[q.place.c].served)
  }

  lemma LeaveReq(cfg: Config, conns: seq<Conn>, conns': seq<Conn>, holder: Option<(Id, ConnId)>, r: Id, q: Request, q': Request)
    requires ReqInv(cfg, conns, holder, r, q) && Queueing(q.place) && Leaves(conns, q, q') && Len(cfg, r) > 0
    requires |conns| == |conns'| && forall x :: 0 <= x < |conns| ==> Later(conns[x], conns'[x])
    ensures ReqInv(cfg, conns', holder, r, q')
  {
    hide Covered;
  }

  // A request leaves a queue of its connection.
  lemma LeaveStep(cfg: Config, s: State, c: ConnId, r: Id, q': Request, k': Conn)
    requires ValidConfig(cfg) && Inv(cfg, s) && c < |s.conns| && r < |s.reqs|
    requires Queueing(s.reqs[r].place) && s.reqs[r].place.c == c && Leaves(s.conns, s.reqs[r], q')
    requires ConnInv(cfg, s.reqs[r := q'], c, k') && Later(s.conns[c], k')
    requires StillCovered(s.reqs[r := q'], c, s.conns[c], k')
    ensures Inv(cfg, s.(conns := s.conns[c := k'], reqs := s.reqs[r := q']))
  {
    hide Inv, ConnInv, ReqInv, StillCovered;
    ReqOf(cfg, s, r);
    assert Framed(cfg.exchange(r));
    LeaveReq(cfg, s.conns, s.conns[c := k'], s.holder, r, s.reqs[r], q');
    LocalOne(cfg, s, c, r, q', k');
  }

  lemma SettleDrainedStep(cfg: Config, s: State, c: ConnId)
    requires ValidConfig(cfg) && Inv(cfg, s) && CanStep(cfg, s, SettleDrained(c))
    ensures Inv(cfg, Apply(cfg, s, SettleDrained(c)))
  {
    hide Inv, ConnInv, Complete, ValidConfig;
    var k := s.conns[c];
    var r := k.drained[0];
    var q' := Complete(s.reqs[r], [], 0, Some(PoolClosed)).(place := Gone);
    ConnOf(cfg, s, c);
    LeaveDrained(cfg, s.reqs, c, k, q');
    assert Leaves(s.conns, s.reqs[r], q');
    LeaveStep(cfg, s, c, r, q', k.(drained := k.drained[1..]));
  }

  // The turn of detach's loop that takes a request out of its old queue.
  lemma ReleaseStep(cfg: Config, s: State, c: ConnId, afterFlush: bool, q': Request)
    requires ValidConfig(cfg) && Inv(cfg, s) && c < |s.conns| && RehomeList(s.conns[c], afterFlush) != []
    requires RehomeList(s.conns[c], afterFlush)[0] < |s.reqs|
    requires
      var q := s.reqs[RehomeList(s.conns[c], afterFlush)[0]];
      && Homeless(q'.place)
      && (Leaves(s.conns, q, q') || (q.phase.Queued? && q' == q.(place := Fresh) && (afterFlush || s.conns[c].rehome)))
    ensures
      var k := s.conns[c];
      var k' := if afterFlush then k.(writer := Rehoming(k.writer.homeless[1..])) else k.(leftover := k.leftover[1..]);
      Inv(cfg, s.(conns := s.conns[c := k'], reqs := s.reqs[RehomeList(k, afterFlush)[0] := q']))
  {
    hide Inv, ConnInv, ValidConfig, Homeless;
    ConnOf(cfg, s, c);
    var k := s.conns[c];
    var r := RehomeList(k, afterFlush)[0];
    if afterFlush {
      LeaveRequeue(cfg, s.reqs, c, k, q');
      LeaveStep(cfg, s, c, r, q', k.(writer := Rehoming(k.writer.homeless[1..])));
    } else {
      LeaveLeftover(cfg, s.reqs, c, k, q');
      LeaveStep(cfg, s, c, r, q', k.(leftover := k.leftover[1..]));
    }
  }

  // ---- pickLocked ----

  lemma RetiredConn(cfg: Config, reqs: seq<Request>, c: ConnId, k: Conn)
    requires ConnInv(cfg, reqs, c, k) && Load(k) == 0
    ensures
      var k' := k.(closed := true);
      ConnInv(cfg, reqs, c, k') && Later(k, k') && StillCovered(reqs, c, k, k')
  {
    hide Answers, Delivered, Written, Covering, WireShape, StubShape, Listed, AllAt, OneAt, Progress, Distinct;
  }

  lemma FreshConn(cfg: Config, reqs: seq<Request>, c: ConnId)
    requires forall r :: 0 <= r < |reqs| ==> Owner(reqs[r].place) != Some(c)
    ensures ConnInv(cfg, reqs, c, NewConn)
  {
    FreshCustody(reqs, c);
    hide Custody;
  }

  lemma FreshCustody(reqs: seq<Request>, c: ConnId)
    requires forall r :: 0 <= r < |reqs| ==> Owner(reqs[r].place) != Some(c)
    ensures Custody(reqs, c, NewConn)
  {
  }

  lemma OwnersExist(cfg: Config, s: State)
    requires Inv(cfg, s)
    ensures forall r :: 0 <= r < |s.reqs| ==> Owner(s.reqs[r].place) != Some(|s.conns|)
  {
    hide ConnInv, PoolInv, OutcomeInv, Covered, Inv;
    forall r | 0 <= r < |s.reqs| ensures Owner(s.reqs[r].place) != Some(|s.conns|) {
      ReqOf(cfg, s, r);
      HomesOwner(s.conns, s.reqs[r]);
    }
  }

  // What a pick leaves of the connections.
  ghost predicate PickKeeps(cfg: Config, s: State, pick: Choice) {
    && |s.conns| <= |pick.conns| && pick.best < |pick.conns|
    && (forall c :: 0 <= c < |pick.conns| ==> ConnInv(cfg, s.reqs, c, pick.conns[c]))
    && (forall c :: 0 <= c < |s.conns| ==> Later(s.conns[c], pick.conns[c]))
    && (forall c :: 0 <= c < |s.conns| ==> StillCovered(s.reqs, c, s.conns[c], pick.conns[c]))
    && (pick.best < |s.conns| ==> !s.conns[pick.best].closed)
  }

  // The connections after pickLocked, with the request still nowhere.
  lemma PickConns(cfg: Config, s: State, idle: set<ConnId>)
    requires (forall i :: 0 <= i < |s.members| ==> s.members[i] < |s.conns|) && IdleOnly(s, idle)
    requires Inv(cfg, s)
    ensures PickKeeps(cfg, s, PickLocked(cfg, s.conns, s.members, idle))
  {
    hide ConnInv, ReqInv, Covered, Load, Distinct;
    var pick := PickLocked(cfg, s.conns, s.members, idle);
    OwnersExist(cfg, s);
    forall c | 0 <= c < |pick.conns|
      ensures ConnInv(cfg, s.reqs, c, pick.conns[c])
      ensures c < |s.conns| ==> Later(s.conns[c], pick.conns[c]) && StillCovered(s.reqs, c, s.conns[c], pick.conns[c]) {
      if c == |s.conns| {
        FreshConn(cfg, s.reqs, c);
      } else {
        ConnOf(cfg, s, c);
        if c in s.members && c in idle {
          RetiredConn(cfg, s.reqs, c, s.conns[c]);
        }
      }
    }
  }

  // enqueue, and detach once the request has left its old queue.
  lemma HoldStep(cfg: Config, s: State, r: Id, idle: set<ConnId>)
    requires ValidConfig(cfg) && Inv(cfg, s) && r < |s.reqs|
    requires s.reqs[r].place.Fresh? && s.reqs[r].phase.Queued? && s.holder.None? && IdleOnly(s, idle)
    ensures Inv(cfg, Hold(cfg, s, r, idle))
  {
    hide ConnInv, ReqInv, Covered, StillCovered, PickLocked, Later, IdleOnly, Distinct;
    PickConns(cfg, s, idle);
    var s' := Hold(cfg, s, r, idle);
    forall c | 0 <= c < |s'.conns| ensures ConnInv(cfg, s'.reqs, c, s'.conns[c]) {
      FrameConn(cfg, s.reqs, s'.reqs, c, s'.conns[c]);
    }
    forall x | 0 <= x < |s.reqs| ensures ReqInv(cfg, s'.conns, s'.holder, x, s'.reqs[x]) {
      ReqOf(cfg, s, x);
      if x == r {
        HeldReq(cfg, s.conns, s'.conns, r, s.reqs[r], s'.holder.value.1);
      } else {
        StillCoveredReq(cfg, s, s'.conns, x);
        NotHeld(cfg, s, x);
        FrameReq(cfg, s.conns, s'.conns, s.holder, s'.holder, x, s.reqs[x]);
      }
    }
    PickPool(cfg, s, r, idle);
  }

  lemma NotHeld(cfg: Config, s: State, x: Id)
    requires Inv(cfg, s) && x < |s.reqs| && s.holder.None?
    ensures !s.reqs[x].place.Held?
  {
    hide Inv, Covered, OutcomeInv, Homes;
    ReqOf(cfg, s, x);
  }

  lemma StillCoveredReq(cfg: Config, s: State, conns': seq<Conn>, x: Id)
    requires Inv(cfg, s) && x < |s.reqs| && |s.conns| <= |conns'|
    requires forall c :: 0 <= c < |s.conns| ==> StillCovered(s.reqs, c, s.conns[c], conns'[c])
    ensures s.reqs[x].place.Claimed? && s.reqs[x].phase.Writing? ==> Covered(conns'[s.reqs[x].place.c], x, s.reqs[x])
  {
    hide Inv, Covered, OutcomeInv;
    ReqOf(cfg, s, x);
    if s.reqs[x].place.Claimed? && s.reqs[x].phase.Writing? {
      HomesOwner(s.conns, s.reqs[x]);
      StillCoveredAt(s.reqs, s.reqs[x].place.c, s.conns[s.reqs[x].place.c], conns'[s.reqs[x].place.c], x);
    }
  }

  lemma StillCoveredAt(reqs: seq<Request>, c: ConnId, k: Conn, k': Conn, x: Id)
    requires StillCovered(reqs, c, k, k') && x < |reqs|
    requires reqs[x].place == Claimed(c) && reqs[x].phase.Writing? && Covered(k, x, reqs[x])
    ensures Covered(k', x, reqs[x])
  {
    hide Covered;
  }

  // A request in the hands of the pool has left every earlier connection, so
  // the one just picked is new to it.
  lemma HeldReq(cfg: Config, conns: seq<Conn>, conns': seq<Conn>, r: Id, q: Request, best: ConnId)
    requires ReqInv(cfg, conns, None, r, q) && q.place.Fresh? && q.phase.Queued?
    requires |conns| <= |conns'| && best < |conns'|
    requires forall c :: 0 <= c < |conns| ==> Later(conns[c], conns'[c])
    requires best < |conns| ==> !conns[best].closed
    ensures ReqInv(cfg, conns', Some((r, best)), r, q.(place := Held(best), homes := q.homes + [best]))
  {
    hide Covered, Blamed;
  }

  lemma PickMembers(cfg: Config, conns: seq<Conn>, members: seq<ConnId>, idle: set<ConnId>)
    requires forall i :: 0 <= i < |members| ==> members[i] < |conns|
    requires cfg.maxConns >= 1 && |members| <= cfg.maxConns && Distinct(members)
    ensures
      var pick := PickLocked(cfg, conns, members, idle);
      && |pick.members| <= cfg.maxConns && Distinct(pick.members) && |conns| <= |pick.conns|
      && forall i :: 0 <= i < |pick.members| ==> pick.members[i] < |pick.conns|
  {
    hide Load;
    var kept := Survivors(conns, members, idle);
    assert forall i :: 0 <= i < |kept| ==> kept[i] in kept;
  }

  lemma PickPool(cfg: Config, s: State, r: Id, idle: set<ConnId>)
    requires cfg.maxConns >= 1 && PoolInv(cfg, s) && r < |s.reqs|
    ensures PoolInv(cfg, Hold(cfg, s, r, idle))
  {
    hide PickLocked, Distinct;
    PickMembers(cfg, s.conns, s.members, idle);
  }

  lemma EnqueueStep(cfg: Config, s: State, r: Id, idle: set<ConnId>)
    requires ValidConfig(cfg) && Inv(cfg, s) && CanStep(cfg, s, Enqueue(r, idle))
    ensures Inv(cfg, Apply(cfg, s, Enqueue(r, idle)))
  {
    hide Inv, Hold, ListsExist, PlaceExists;
    HoldStep(cfg, s, r, idle);
  }

  // What detach's loop finds: a request on its list is queued or settled, and
  // a request it must fail has a cause to report.
  lemma DetachFinds(cfg: Config, s: State, c: ConnId, afterFlush: bool, r: Id)
    requires Inv(cfg, s) && c < |s.conns| && RehomeList(s.conns[c], afterFlush) != []
    requires r == RehomeList(s.conns[c], afterFlush)[0]
    ensures r < |s.reqs| && !s.reqs[r].phase.Writing?
    ensures !afterFlush ==> s.conns[c].cause.Some?
  {
    hide Inv, Covered, OutcomeInv, Homes, Answers, Delivered, Written, WriterState, Covering, Marks, StubShape,
      Fifo, WireShape, Distinct;
    ConnOf(cfg, s, c);
    ReqOf(cfg, s, r);
  }

  lemma SameLoads(s: State, m: State, idle: set<ConnId>)
    requires forall i :: 0 <= i < |s.members| ==> s.members[i] < |s.conns|
    requires m.members == s.members && |m.conns| == |s.conns|
    requires forall c :: 0 <= c < |s.conns| ==> m.conns[c].pending == s.conns[c].pending && m.conns[c].inflight == s.conns[c].inflight
    requires IdleOnly(s, idle)
    ensures IdleOnly(m, idle)
  {
  }

  lemma RehomeStep(cfg: Config, s: State, c: ConnId, afterFlush: bool, idle: set<ConnId>)
    requires ValidConfig(cfg) && Inv(cfg, s) && CanStep(cfg, s, Rehome(c, afterFlush, idle))
    ensures Inv(cfg, Apply(cfg, s, Rehome(c, afterFlush, idle)))
  {
    hide Inv, Hold, PlaceExists, ListsExist, ValidConfig, IdleOnly, Leaves;
    var k := s.conns[c];
    var r := RehomeList(k, afterFlush)[0];
    DetachFinds(cfg, s, c, afterFlush, r);
    var q := s.reqs[r];
    var k' := if afterFlush then k.(writer := Rehoming(k.writer.homeless[1..])) else k.(leftover := k.leftover[1..]);
    if !q.phase.Queued? {
      LeavesByDrop(s.conns, q);
      ReleaseStep(cfg, s, c, afterFlush, q.(place := Gone));
    } else if !s.closed && (afterFlush || k.rehome) {
      ReleaseStep(cfg, s, c, afterFlush, q.(place := Fresh));
      var m := s.(conns := s.conns[c := k'], reqs := s.reqs[r := q.(place := Fresh)]);
      SameLoads(s, m, idle);
      HoldStep(cfg, m, r, idle);
    } else {
      var err := if s.closed then Some(PoolClosed) else k.cause;
      LeavesByError(s.conns, q, err);
      ReleaseStep(cfg, s, c, afterFlush, Complete(q, [], 0, err).(place := Gone));
    }
  }

  lemma LeavesByDrop(conns: seq<Conn>, q: Request)
    requires q.phase.Done?
    ensures Leaves(conns, q, q.(place := Gone))
  {
  }

  lemma LeavesByError(conns: seq<Conn>, q: Request, err: Option<Error>)
    requires err.Some?
    ensures Leaves(conns, q, Complete(q, [], 0, err).(place := Gone))
  {
  }

  // ---- the remaining small events ----

  lemma AddStep(cfg: Config, s: State)
    requires Inv(cfg, s) && CanStep(cfg, s, Add)
    ensures Inv(cfg, Apply(cfg, s, Add))
  {
    hide Inv, ConnInv, ReqInv, Covered, PlaceExists, ListsExist, SameOwned;
    var (r, c) := s.holder.value;
    var q := s.reqs[r];
    var k := s.conns[c];
    var s' := Apply(cfg, s, Add);
    HolderPlace(cfg, s);
    ConnOf(cfg, s, c);
    JoinPending(cfg, s.reqs, c, k, r);
    AddOthers(s.reqs, s'.reqs, r, c);
    forall x | 0 <= x < |s'.conns| ensures ConnInv(cfg, s'.reqs, x, s'.conns[x]) {
      if x != c {
        ConnOf(cfg, s, x);
        FrameConn(cfg, s.reqs, s'.reqs, x, s.conns[x]);
      }
    }
    forall x | 0 <= x < |s'.reqs| ensures ReqInv(cfg, s'.conns, s'.holder, x, s'.reqs[x]) {
      ReqOf(cfg, s, x);
      if x == r {
        AddedReq(cfg, s.conns, s'.conns, r, c, q);
      } else {
        OnlyHolder(cfg, s, x);
        AddCovers(cfg, s, s'.conns, x);
        FrameReq(cfg, s.conns, s'.conns, s.holder, s'.holder, x, s.reqs[x]);
      }
    }
    AddPool(cfg, s, s');
    InvOf(cfg, s');
  }

  lemma InvOf(cfg: Config, s: State)
    requires PoolInv(cfg, s)
    requires forall c :: 0 <= c < |s.conns| ==> ConnInv(cfg, s.reqs, c, s.conns[c])
    requires forall r :: 0 <= r < |s.reqs| ==> ReqInv(cfg, s.conns, s.holder, r, s.reqs[r])
    ensures Inv(cfg, s)
  {
    hide ConnInv, ReqInv, PoolInv;
  }

  lemma HolderPlace(cfg: Config, s: State)
    requires Inv(cfg, s) && s.holder.Some?
    ensures s.holder.value.0 < |s.reqs| && s.reqs[s.holder.value.0].place == Held(s.holder.value.1)
  {
    hide ConnInv, ReqInv;
  }

  lemma OnlyHolder(cfg: Config, s: State, x: Id)
    requires Inv(cfg, s) && x < |s.reqs| && s.holder.Some? && s.holder.value.0 != x
    ensures !s.reqs[x].place.Held?
  {
    hide Inv, Covered, OutcomeInv, Homes;
    ReqOf(cfg, s, x);
  }

  lemma JoinPending(cfg: Config, reqs: seq<Request>, c: ConnId, k: Conn, r: Id)
    requires ConnInv(cfg, reqs, c, k) && r < |reqs| && reqs[r].place == Held(c)
    ensures
      var k' := k.(pending := k.pending + [r]);
      ConnInv(cfg, reqs[r := reqs[r].(place := Pending(c))], c, k') && Later(k, k') && StillCovered(reqs, c, k, k')
  {
    hide Answers, Delivered, Written, WriterState, Covering, Marks, StubShape, Fifo, Distinct, Progress, Listed,
      AllAt, OneAt, WireShape, TornDown, Apart, Causes;
    var q' := reqs[r].(place := Pending(c));
    ListedJoin(reqs, r, q', k.pending, Pending(c));
    ListedOther(reqs, r, q', k.leftover, Leftover(c));
    ListedOther(reqs, r, q', k.drained, Drained(c));
    ListedOther(reqs, r, q', Requeue(k.writer), Requeued(c));
    LeaveFrame(cfg, reqs, c, k, r, q');
  }

  lemma AddOthers(reqs: seq<Request>, reqs': seq<Request>, r: Id, c: ConnId)
    requires r < |reqs| && reqs[r].place == Held(c) && reqs' == reqs[r := reqs[r].(place := Pending(c))]
    ensures forall x :: x != c ==> SameOwned(reqs, reqs', x)
  {
  }

  lemma AddedReq(cfg: Config, conns: seq<Conn>, conns': seq<Conn>, r: Id, c: ConnId, q: Request)
    requires ReqInv(cfg, conns, Some((r, c)), r, q) && q.place == Held(c)
    requires |conns'| == |conns| && forall x :: 0 <= x < |conns| ==> Later(conns[x], conns'[x])
    ensures ReqInv(cfg, conns', None, r, q.(place := Pending(c)))
  {
    hide Covered;
  }

  lemma AddCovers(cfg: Config, s: State, conns': seq<Conn>, x: Id)
    requires Inv(cfg, s) && x < |s.reqs| && |conns'| == |s.conns|
    requires forall c :: 0 <= c < |s.conns| ==> conns'[c] == s.conns[c] || StillCovered(s.reqs, c, s.conns[c], conns'[c])
    ensures s.reqs[x].place.Claimed? && s.reqs[x].phase.Writing? ==> Covered(conns'[s.reqs[x].place.c], x, s.reqs[x])
  {
    hide Inv, Covered;
    forall c | 0 <= c < |s.conns| ensures StillCovered(s.reqs, c, s.conns[c], conns'[c]) {
    }
    StillCoveredReq(cfg, s, conns', x);
  }

  lemma AddPool(cfg: Config, s: State, s': State)
    requires Inv(cfg, s) && s'.holder == None && s'.members == s.members && s'.toDrain == s.toDrain
    requires |s'.conns| == |s.conns|
    ensures PoolInv(cfg, s')
  {
    hide ConnInv, ReqInv;
  }

  lemma SubmitStep(cfg: Config, s: State)
    requires Inv(cfg, s)
    ensures Inv(cfg, s.(reqs := s.reqs + [NewRequest]))
  {
    hide Inv, ConnInv, ReqInv, Covered;
    var s' := s.(reqs := s.reqs + [NewRequest]);
    forall c | 0 <= c < |s.conns| ensures ConnInv(cfg, s'.reqs, c, s'.conns[c]) {
      ConnOf(cfg, s, c);
      FrameConn(cfg, s.reqs, s'.reqs, c, s.conns[c]);
    }
    forall r | 0 <= r < |s'.reqs| ensures ReqInv(cfg, s'.conns, s'.holder, r, s'.reqs[r]) {
      if r < |s.reqs| {
        ReqOf(cfg, s, r);
      } else {
        NewReq(cfg, s);
      }
    }
    SubmitPool(cfg, s);
    InvOf(cfg, s');
  }

  lemma NewReq(cfg: Config, s: State)
    requires Inv(cfg, s)
    ensures ReqInv(cfg, s.conns, s.holder, |s.reqs|, NewRequest)
  {
    hide ConnInv;
  }

  lemma SubmitPool(cfg: Config, s: State)
    requires Inv(cfg, s)
    ensures PoolInv(cfg, s.(reqs := s.reqs + [NewRequest]))
  {
    hide ConnInv, ReqInv;
  }

  lemma DialStep(cfg: Config, s: State, c: ConnId)
    requires Inv(cfg, s) && c < |s.conns|
    ensures Inv(cfg, s.(conns := s.conns[c := s.conns[c].(dialed := true)]))
  {
    hide Inv, Custody, Answers, Delivered, Written, WriterState, Covering, Marks, StubShape, Fifo, Distinct,
      Progress, WireShape, TornDown, Apart, Causes;
    ConnOf(cfg, s, c);
    var k := s.conns[c];
    var k' := k.(dialed := true);
    assert Custody(s.reqs, c, k') by { DialCustody(s.reqs, c, k); }
    ConnOnly(cfg, s, c, k');
  }

  lemma DialCustody(reqs: seq<Request>, c: ConnId, k: Conn)
    requires Custody(reqs, c, k)
    ensures Custody(reqs, c, k.(dialed := true))
  {
    hide Listed, AllAt, OneAt;
  }

  lemma PoolOnly(cfg: Config, s: State, s': State)
    requires Inv(cfg, s) && s'.reqs == s.reqs && s'.conns == s.conns && s'.holder == s.holder
    requires |s'.members| <= |s.members| && Distinct(s'.members)
    requires forall c :: c in s'.members ==> c in s.members
    requires forall c :: c in s'.toDrain ==> c in s.toDrain || c in s.members
    ensures Inv(cfg, s')
  {
    hide ConnInv, ReqInv, Distinct;
    assert forall i :: 0 <= i < |s'.members| ==> s'.members[i] in s'.members;
    assert forall i :: 0 <= i < |s'.toDrain| ==> s'.toDrain[i] in s'.toDrain;
  }

  lemma ForgetStep(cfg: Config, s: State, c: ConnId)
    requires Inv(cfg, s)
    ensures Inv(cfg, s.(members := Without(s.members, c)))
  {
    hide ConnInv, ReqInv;
    PoolOnly(cfg, s, s.(members := Without(s.members, c)));
  }

  lemma ClosePoolStep(cfg: Config, s: State)
    requires Inv(cfg, s)
    ensures Inv(cfg, s.(closed := true, members := [], toDrain := s.members))
  {
    hide ConnInv, ReqInv;
    PoolOnly(cfg, s, s.(closed := true, members := [], toDrain := s.members));
  }

  // ---- drain ----

  lemma DrainStep(cfg: Config, s: State, c: ConnId)
    requires Inv(cfg, s) && CanStep(cfg, s, Drain(c))
    ensures Inv(cfg, Apply(cfg, s, Drain(c)))
  {
    hide Inv, WellFormed, MoveAll, Without;
    DrainExists(s, c);
    DrainPool(cfg, s, c);
    if !s.conns[c].closed { DrainOpen(cfg, s.(toDrain := Without(s.toDrain, c)), c); }
  }

  lemma DrainExists(s: State, c: ConnId)
    requires WellFormed(s) && c in s.toDrain
    ensures c < |s.conns|
  {
    hide PlaceExists, ListsExist;
  }

  lemma DrainPool(cfg: Config, s: State, c: ConnId)
    requires Inv(cfg, s)
    ensures Inv(cfg, s.(toDrain := Without(s.toDrain, c)))
  {
    hide ConnInv, ReqInv, Covered, Distinct;
    PoolOnly(cfg, s, s.(toDrain := Without(s.toDrain, c)));
  }

  lemma DrainOpen(cfg: Config, t: State, c: ConnId)
    requires Inv(cfg, t) && c < |t.conns| && !t.conns[c].closed
    ensures
      var k := t.conns[c];
      Inv(cfg, t.(conns := t.conns[c := k.(pending := [], drained := k.drained + k.pending, closing := true,
                                           closed := k.inflight == [])],
                  reqs := MoveAll(t.reqs, k.pending, Drained(c))))
  {
    hide Inv, ConnInv, ReqInv, Covered, SameOwned, PlaceExists, ListsExist, Distinct, PoolInv;
    var k := t.conns[c];
    var k' := k.(pending := [], drained := k.drained + k.pending, closing := true, closed := k.inflight == []);
    var s' := t.(conns := t.conns[c := k'], reqs := MoveAll(t.reqs, k.pending, Drained(c)));
    ConnOf(cfg, t, c);
    DrainConn(cfg, t.reqs, c, k);
    PendingPlaces(cfg, t.reqs, c, k);
    PoolOf(cfg, t);
    MovePool(cfg, t, s', k.pending, Drained(c));
    MoveOthers(t.reqs, k.pending, Pending(c), Drained(c), c);
    forall r | 0 <= r < |t.reqs|
      ensures Kept(t, s', c, r) || ReqInv(cfg, s'.conns, s'.holder, r, s'.reqs[r]) {
      WritingCovered(cfg, t, r, c);
      if r in k.pending {
        ReqOf(cfg, t, r);
        QueueMove(cfg, t.conns, s'.conns, t.holder, r, t.reqs[r], Drained(c));
      } else if t.reqs[r].place == Claimed(c) && t.reqs[r].phase.Writing? {
        DrainCovers(k, k', r, t.reqs[r]);
      }
    }
    Local(cfg, t, s', c);
  }

  lemma PoolOf(cfg: Config, s: State)
    requires Inv(cfg, s)
    ensures PoolInv(cfg, s)
  {
  }

  lemma DrainCovers(k: Conn, k': Conn, r: Id, q: Request)
    requires Covered(k, r, q)
    requires k'.inflight == k.inflight && k'.popped == k.popped && k'.writer == k.writer && k'.tearing == k.tearing
    requires !k.closed && k'.closed == (k.inflight == [])
    ensures Covered(k', r, q)
  {
  }

  lemma DrainConn(cfg: Config, reqs: seq<Request>, c: ConnId, k: Conn)
    requires ConnInv(cfg, reqs, c, k) && !k.closed
    ensures
      var k' := k.(pending := [], drained := k.drained + k.pending, closing := true, closed := k.inflight == []);
      ConnInv(cfg, MoveAll(reqs, k.pending, Drained(c)), c, k') && Later(k, k')
  {
    hide Answers, Delivered, Written, Covering, StubShape, WireShape, Progress, WriterState, Listed, AllAt, OneAt;
    var reqs' := MoveAll(reqs, k.pending, Drained(c));
    PendingUnchanged(cfg, reqs, reqs', c, k);
    FrameReader(cfg, reqs, reqs', k);
    FrameWriter(cfg, reqs, reqs', k);
    if k.inflight == [] {
      ClosedState(reqs', k);
    }
    DrainCustody(reqs, c, k);
  }

  lemma ClosedState(reqs: seq<Request>, k: Conn)
    requires WriterState(reqs, k.received, k.stub, k.writer, false, k.cause, k.blamed, k.served)
    ensures WriterState(reqs, k.received, k.stub, k.writer, true, k.cause, k.blamed, k.served)
  {
  }

  lemma DrainCustody(reqs: seq<Request>, c: ConnId, k: Conn)
    requires Custody(reqs, c, k)
    ensures Custody(MoveAll(reqs, k.pending, Drained(c)), c,
                    k.(pending := [], drained := k.drained + k.pending, closing := true, closed := k.inflight == []))
  {
    hide Distinct, MoveAll;
    var reqs' := MoveAll(reqs, k.pending, Drained(c));
    ListedUnion(reqs, k.drained, k.pending, Drained(c), Pending(c));
    MovedAway(reqs, k.pending, Pending(c), Drained(c));
    ListedApart(reqs, k.leftover, Leftover(c), k.pending, Pending(c), Drained(c));
    ListedApart(reqs, Requeue(k.writer), Requeued(c), k.pending, Pending(c), Drained(c));
    hide Listed;
    DrainAt(reqs, c, k);
  }

  lemma DrainAt(reqs: seq<Request>, c: ConnId, k: Conn)
    requires Custody(reqs, c, k)
    ensures
      var reqs' := MoveAll(reqs, k.pending, Drained(c));
      && AllAt(reqs', k.inflight, Claimed(c)) && AllAt(reqs', k.received, Claimed(c))
      && AllAt(reqs', Work(k.writer).batch, Claimed(c)) && Within(reqs', k.tearing)
      && OneAt(reqs', k.popped, Claimed(c)) && OneAt(reqs', StubOwner(k.stub), Claimed(c))
  {
    hide Distinct;
  }

  // Moving a list away leaves nothing at its place.
  lemma MovedAway(reqs: seq<Request>, list: seq<Id>, from: Place, to: Place)
    requires Listed(reqs, list, from) && to != from
    ensures Listed(MoveAll(reqs, list, to), [], from)
  {
  }

  lemma ListedApart(reqs: seq<Request>, list: seq<Id>, place: Place, moved: seq<Id>, from: Place, to: Place)
    requires Listed(reqs, list, place) && Listed(reqs, moved, from) && place != from && place != to
    ensures Listed(MoveAll(reqs, moved, to), list, place)
  {
    hide Distinct;
  }

  lemma ListedUnion(reqs: seq<Request>, a: seq<Id>, b: seq<Id>, pa: Place, pb: Place)
    requires Listed(reqs, a, pa) && Listed(reqs, b, pb) && pa != pb
    ensures Listed(MoveAll(reqs, b, pa), a + b, pa)
  {
  }

  // ---- the writer ----

  lemma ClaimStep(cfg: Config, s: State, c: ConnId)
    requires ValidConfig(cfg) && Inv(cfg, s) && CanStep(cfg, s, Claim(c))
    ensures Inv(cfg, Apply(cfg, s, Claim(c)))
  {
    hide ConnInv, ReqInv, Covered, SameOwned, PlaceExists, ListsExist, Distinct, ValidConfig, Kept, PoolInv;
    var k := s.conns[c];
    var s' := Apply(cfg, s, Claim(c));
    var k' := s'.conns[c];
    ConnOf(cfg, s, c);
    PendingPlaces(cfg, s.reqs, c, k);
    forall i | 0 <= i < |k.pending| ensures Untouched(s.reqs[k.pending[i]]) {
      ReqOf(cfg, s, k.pending[i]);
      PendingUntouched(cfg, s, k.pending[i]);
    }
    ClaimConn(cfg, s.reqs, c, k);
    ClaimPool(cfg, s, s', k.pending, c);
    ClaimOthers(s.reqs, s'.reqs, k.pending, c);
    forall r | 0 <= r < |s.reqs|
      ensures Kept(s, s', c, r) || ReqInv(cfg, s'.conns, s'.holder, r, s'.reqs[r]) {
      ReqOf(cfg, s, r);
      if r in k.pending {
        ClaimedReq(cfg, s, k', c, r);
      } else {
        WritingCovered(cfg, s, r, c);
        ClaimCovers(k, k', c, r, s.reqs[r]);
        KeptBy(s, s', c, r);
      }
    }
    Local(cfg, s, s', c);
  }

  // No byte written, no reply received.
  ghost predicate Untouched(q: Request) {
    && q.sent == 0 && q.responses == [] && !q.onWire
    && (q.phase.Queued? ==> q.outcome.None?)
    && !q.phase.Writing?
  }

  lemma PendingUntouched(cfg: Config, s: State, r: Id)
    requires r < |s.reqs| && ReqInv(cfg, s.conns, s.holder, r, s.reqs[r]) && s.reqs[r].place.Pending?
    ensures Untouched(s.reqs[r])
  {
    hide Covered, Homes;
  }

  lemma KeptBy(s: State, s': State, c: ConnId, r: Id)
    requires r < |s.reqs| && r < |s'.reqs| && c < |s'.conns| && s'.reqs[r] == s.reqs[r]
    requires s.reqs[r].place == Claimed(c) && s.reqs[r].phase.Writing? ==> Covered(s'.conns[c], r, s.reqs[r])
    ensures Kept(s, s', c, r)
  {
    hide Covered;
  }

  lemma ClaimPool(cfg: Config, s: State, s': State, list: seq<Id>, c: ConnId)
    requires PoolInv(cfg, s)
    requires s'.members == s.members && s'.toDrain == s.toDrain && s'.holder == s.holder && |s'.conns| == |s.conns|
    requires s'.reqs == ClaimAll(s.reqs, list, c)
    requires forall i :: 0 <= i < |list| ==> list[i] < |s.reqs| && s.reqs[list[i]].place == Pending(c)
    ensures PoolInv(cfg, s')
  {
  }

  lemma ClaimOthers(reqs: seq<Request>, reqs': seq<Request>, list: seq<Id>, c: ConnId)
    requires AllAt(reqs, list, Pending(c)) && reqs' == ClaimAll(reqs, list, c)
    ensures forall x :: x != c ==> SameOwned(reqs, reqs', x)
  {
  }

  lemma ClaimedReq(cfg: Config, s: State, k': Conn, c: ConnId, r: Id)
    requires c < |s.conns| && r < |s.reqs| && ReqInv(cfg, s.conns, s.holder, r, s.reqs[r])
    requires s.reqs[r].place == Pending(c) && Later(s.conns[c], k')
    requires s.reqs[r].phase.Queued? ==> k'.writer.Sending? && r in k'.writer.flush.batch
    ensures ReqInv(cfg, s.conns[c := k'], s.holder, r, ClaimOne(s.reqs[r], c))
  {
    BlamedLater(s.conns, s.conns[c := k'], r);
    hide Blamed;
  }

  lemma BlamedLater(conns: seq<Conn>, conns': seq<Conn>, r: Id)
    requires |conns| <= |conns'| && forall x :: 0 <= x < |conns| ==> Later(conns[x], conns'[x])
    ensures Blamed(conns, r) ==> Blamed(conns', r)
  {
    if Blamed(conns, r) {
      var c :| 0 <= c < |conns| && conns[c].blamed == Some(r);
      assert conns'[c].blamed == Some(r);
    }
  }

  lemma ClaimCovers(k: Conn, k': Conn, c: ConnId, r: Id, q: Request)
    requires k.writer.Idle? && k'.popped == k.popped && k'.tearing == k.tearing && k'.closed == k.closed
    requires k.inflight <= k'.inflight
    ensures Covered(k, r, q) ==> Covered(k', r, q)
  {
  }

  lemma ClaimConn(cfg: Config, reqs: seq<Request>, c: ConnId, k: Conn)
    requires ValidConfig(cfg) && ConnInv(cfg, reqs, c, k) && !k.closed && k.writer.Idle?
    requires forall i :: 0 <= i < |k.pending| ==> k.pending[i] < |reqs| && Untouched(reqs[k.pending[i]])
    ensures
      var batch := Live(reqs, k.pending);
      var k' := k.(pending := [], inflight := k.inflight + batch,
                   writer := if batch == [] then Idle else Sending(Flush(batch, 0, 0)));
      ConnInv(cfg, ClaimAll(reqs, k.pending, c), c, k') && Later(k, k')
  {
    hide Answers, Delivered, StubShape, WireShape, Custody, ValidConfig, Untouched, Causes, TornDown, Apart,
      Covering, Written, Progress, Marks, Distinct, ClaimAll, Live, WriterState, Fifo, Unchanged;
    var reqs' := ClaimAll(reqs, k.pending, c);
    var batch := Live(reqs, k.pending);
    ClaimFrame(cfg, reqs, c, k);
    ClaimCustody(reqs, c, k);
    ClaimFifo(k, batch);
    if batch != [] {
      ClaimMarks(reqs', k, batch);
      ClaimedWriter(cfg, reqs, c, k);
    }
  }

  lemma ClaimFrame(cfg: Config, reqs: seq<Request>, c: ConnId, k: Conn)
    requires ConnInv(cfg, reqs, c, k)
    ensures
      var reqs' := ClaimAll(reqs, k.pending, c);
      && Answers(cfg, reqs', k.received, k.answering, k.given)
      && Delivered(reqs', k.received, k.answering, k.popped)
      && Marks(reqs', k.received, k.closed, k.writer)
      && Written(cfg, reqs', Work(k.writer), k.received)
      && WriterState(reqs', k.received, k.stub, k.writer, k.closed, k.cause, k.blamed, k.served)
      && Covering(cfg, reqs', k.writer)
      && StubShape(cfg, reqs', k.received, k.stub)
  {
    hide Answers, Delivered, StubShape, WireShape, Custody, Causes, TornDown, Apart, Covering, Written, Progress,
      Marks, Distinct, WriterState, Fifo, Unchanged;
    var reqs' := ClaimAll(reqs, k.pending, c);
    PendingUnchanged(cfg, reqs, reqs', c, k);
    FrameReader(cfg, reqs, reqs', k);
    FrameWriter(cfg, reqs, reqs', k);
  }

  lemma ClaimFifo(k: Conn, batch: seq<Id>)
    requires Fifo(k.closed, k.inflight, k.received, k.answering, k.writer) && !k.closed && k.writer.Idle?
    ensures Fifo(k.closed, k.inflight + batch, k.received, k.answering,
                 if batch == [] then Idle else Sending(Flush(batch, 0, 0)))
  {
    assert batch[0..] == batch;
  }

  lemma ClaimedWriter(cfg: Config, reqs: seq<Request>, c: ConnId, k: Conn)
    requires ValidConfig(cfg) && Custody(reqs, c, k) && k.writer.Idle? && Live(reqs, k.pending) != []
    requires forall i :: 0 <= i < |k.pending| ==> k.pending[i] < |reqs| && Untouched(reqs[k.pending[i]])
    requires WriterState(ClaimAll(reqs, k.pending, c), k.received, k.stub, k.writer, k.closed, k.cause, k.blamed, k.served)
    ensures
      var reqs' := ClaimAll(reqs, k.pending, c);
      var f := Flush(Live(reqs, k.pending), 0, 0);
      && Progress(cfg, f)
      && Written(cfg, reqs', f, k.received)
      && WriterState(reqs', k.received, k.stub, Sending(f), k.closed, k.cause, k.blamed, k.served)
      && Covering(cfg, reqs', Sending(f))
  {
    hide ValidConfig, Custody, Untouched, ClaimAll, Written, Covering, Progress;
    ReceivedPlaces(reqs, c, k);
    LivePlaces(reqs, c, k.pending);
    ClaimWriter(cfg, ClaimAll(reqs, k.pending, c), k, Live(reqs, k.pending));
  }

  lemma ReceivedPlaces(reqs: seq<Request>, c: ConnId, k: Conn)
    requires Custody(reqs, c, k)
    ensures forall i :: 0 <= i < |k.received| ==> k.received[i] < |reqs| && reqs[k.received[i]].place == Claimed(c)
    ensures Distinct(k.pending) && forall i :: 0 <= i < |k.pending| ==> k.pending[i] < |reqs| && reqs[k.pending[i]].place == Pending(c)
  {
  }

  lemma ClaimMarks(reqs: seq<Request>, k: Conn, batch: seq<Id>)
    requires Marks(reqs, k.received, k.closed, k.writer) && k.writer.Idle?
    ensures Marks(reqs, k.received, k.closed, Sending(Flush(batch, 0, 0)))
  {
  }

  // What writeLoop's loop leaves of a pending list.
  lemma LivePlaces(reqs: seq<Request>, c: ConnId, queued: seq<Id>)
    requires forall i :: 0 <= i < |queued| ==> queued[i] < |reqs| && Untouched(reqs[queued[i]])
    ensures
      var batch := Live(reqs, queued);
      var reqs' := ClaimAll(reqs, queued, c);
      forall i :: 0 <= i < |batch| ==>
        && batch[i] in queued && batch[i] < |reqs| && reqs'[batch[i]].outcome.None?
        && reqs'[batch[i]].sent == 0 && reqs'[batch[i]].responses == [] && !reqs'[batch[i]].onWire
        && reqs'[batch[i]].place == Claimed(c)
  {
    var batch := Live(reqs, queued);
    assert forall i :: 0 <= i < |batch| ==> batch[i] in batch;
  }

  lemma ClaimWriter(cfg: Config, reqs: seq<Request>, k: Conn, batch: seq<Id>)
    requires ValidConfig(cfg) && batch != [] && Distinct(batch)
    requires forall i :: 0 <= i < |batch| ==>
      && batch[i] < |reqs| && batch[i] !in k.received && reqs[batch[i]].outcome.None?
      && reqs[batch[i]].sent == 0 && reqs[batch[i]].responses == [] && !reqs[batch[i]].onWire
    requires k.stub == []
    ensures
      var f := Flush(batch, 0, 0);
      && Progress(cfg, f)
      && Written(cfg, reqs, f, k.received)
      && WriterState(reqs, k.received, k.stub, Sending(f), k.closed, k.cause, k.blamed, k.served)
      && Covering(cfg, reqs, Sending(f))
  {
    assert Framed(cfg.exchange(batch[0]));
  }

  // A list keeps its place if the same requests are there.
  lemma ListedSame(reqs: seq<Request>, reqs': seq<Request>, list: seq<Id>, place: Place)
    requires Listed(reqs, list, place) && |reqs'| == |reqs|
    requires forall r :: 0 <= r < |reqs| ==> (reqs'[r].place == place <==> reqs[r].place == place)
    ensures Listed(reqs', list, place)
  {
  }

  lemma ClaimPlaces(reqs: seq<Request>, list: seq<Id>, c: ConnId)
    requires Listed(reqs, list, Pending(c))
    requires forall i :: 0 <= i < |list| ==> Untouched(reqs[list[i]])
    ensures
      var reqs' := ClaimAll(reqs, list, c);
      forall r :: 0 <= r < |reqs| ==>
        if reqs[r].place == Pending(c) then reqs'[r].place == Claimed(c) || reqs'[r].place == Gone
        else reqs'[r] == reqs[r]
  {
  }

  lemma ClaimCustody(reqs: seq<Request>, c: ConnId, k: Conn)
    requires Custody(reqs, c, k) && k.writer.Idle?
    requires forall i :: 0 <= i < |k.pending| ==> k.pending[i] < |reqs| && Untouched(reqs[k.pending[i]])
    ensures
      var batch := Live(reqs, k.pending);
      Custody(ClaimAll(reqs, k.pending, c), c,
              k.(pending := [], inflight := k.inflight + batch,
                 writer := if batch == [] then Idle else Sending(Flush(batch, 0, 0))))
  {
    LiveAt(reqs, c, k.pending);
    ClaimCustodyOf(reqs, c, k, Live(reqs, k.pending));
  }

  lemma ClaimCustodyOf(reqs: seq<Request>, c: ConnId, k: Conn, batch: seq<Id>)
    requires Custody(reqs, c, k) && k.writer.Idle?
    requires forall i :: 0 <= i < |k.pending| ==> k.pending[i] < |reqs| && Untouched(reqs[k.pending[i]])
    requires AllAt(ClaimAll(reqs, k.pending, c), batch, Claimed(c))
    ensures
      Custody(ClaimAll(reqs, k.pending, c), c,
              k.(pending := [], inflight := k.inflight + batch,
                 writer := if batch == [] then Idle else Sending(Flush(batch, 0, 0))))
  {
    hide ClaimAll, Untouched, Listed, AllAt, OneAt, Within;
    ClaimLists(reqs, c, k);
    ClaimedAt(reqs, c, k, batch);
  }

  lemma LiveAt(reqs: seq<Request>, c: ConnId, queued: seq<Id>)
    requires forall i :: 0 <= i < |queued| ==> queued[i] < |reqs| && Untouched(reqs[queued[i]])
    ensures AllAt(ClaimAll(reqs, queued, c), Live(reqs, queued), Claimed(c))
  {
    LivePlaces(reqs, c, queued);
  }

  lemma ClaimLists(reqs: seq<Request>, c: ConnId, k: Conn)
    requires Custody(reqs, c, k) && k.writer.Idle?
    requires forall i :: 0 <= i < |k.pending| ==> k.pending[i] < |reqs| && Untouched(reqs[k.pending[i]])
    ensures
      var reqs' := ClaimAll(reqs, k.pending, c);
      && Listed(reqs', [], Pending(c)) && Listed(reqs', k.leftover, Leftover(c))
      && Listed(reqs', k.drained, Drained(c)) && Listed(reqs', [], Requeued(c))
  {
    hide ClaimAll, Untouched, AllAt, OneAt, Within;
    var reqs' := ClaimAll(reqs, k.pending, c);
    ClaimPlaces(reqs, k.pending, c);
    ListedSame(reqs, reqs', k.leftover, Leftover(c));
    ListedSame(reqs, reqs', k.drained, Drained(c));
    ListedSame(reqs, reqs', [], Requeued(c));
  }

  lemma ClaimedAt(reqs: seq<Request>, c: ConnId, k: Conn, batch: seq<Id>)
    requires Custody(reqs, c, k) && k.writer.Idle?
    requires forall i :: 0 <= i < |k.pending| ==> k.pending[i] < |reqs| && Untouched(reqs[k.pending[i]])
    requires AllAt(ClaimAll(reqs, k.pending, c), batch, Claimed(c))
    ensures
      var reqs' := ClaimAll(reqs, k.pending, c);
      && AllAt(reqs', k.inflight + batch, Claimed(c)) && AllAt(reqs', k.received, Claimed(c))
      && Within(reqs', k.tearing)
      && OneAt(reqs', k.popped, Claimed(c)) && OneAt(reqs', StubOwner(k.stub), Claimed(c))
  {
    hide Untouched, ClaimAll, Listed, AllAt, OneAt;
    ClaimPlaces(reqs, k.pending, c);
    var reqs' := ClaimAll(reqs, k.pending, c);
    AllAtStill(reqs, reqs', k.inflight, Claimed(c), Pending(c));
    AllAtStill(reqs, reqs', k.received, Claimed(c), Pending(c));
    AllAtBoth(reqs', k.inflight, batch, Claimed(c));
    OneAtStill(reqs, reqs', k.popped, Claimed(c), Pending(c));
    OneAtStill(reqs, reqs', StubOwner(k.stub), Claimed(c), Pending(c));
  }

  lemma AllAtStill(reqs: seq<Request>, reqs': seq<Request>, list: seq<Id>, place: Place, moved: Place)
    requires AllAt(reqs, list, place) && |reqs'| == |reqs| && moved != place
    requires forall r :: 0 <= r < |reqs| ==> reqs[r].place == moved || reqs'[r] == reqs[r]
    ensures AllAt(reqs', list, place)
  {
  }

  lemma OneAtStill(reqs: seq<Request>, reqs': seq<Request>, one: Option<Id>, place: Place, moved: Place)
    requires OneAt(reqs, one, place) && |reqs'| == |reqs| && moved != place
    requires forall r :: 0 <= r < |reqs| ==> reqs[r].place == moved || reqs'[r] == reqs[r]
    ensures OneAt(reqs', one, place)
  {
  }

  lemma AllAtBoth(reqs: seq<Request>, a: seq<Id>, b: seq<Id>, place: Place)
    requires AllAt(reqs, a, place) && AllAt(reqs, b, place)
    ensures AllAt(reqs, a + b, place)
  {
  }
}
