// The events that move bytes and replies keep the invariant, and so does every
// event.
module TransportFlow {
  import opened Protocol
  import opened Transport
  import opened TransportInvariant
  import opened TransportSteps

  // ---- a byte reaches the wire ----

  lemma WriteByteStep(cfg: Config, s: State, c: ConnId)
    requires ValidConfig(cfg) && Inv(cfg, s) && CanStep(cfg, s, WriteByte(c))
    ensures Inv(cfg, Apply(cfg, s, WriteByte(c)))
  {
    hide Inv, ConnInv, ReqInv, ValidConfig, PlaceExists, ListsExist, StillCovered;
    ConnOf(cfg, s, c);
    NextUnsent(cfg, s.reqs, c, s.conns[c]);
    var k := s.conns[c];
    var f := k.writer.flush;
    var r := f.batch[f.full];
    var q' := s.reqs[r].(sent := s.reqs[r].sent + 1);
    var k' := Apply(cfg, s, WriteByte(c)).conns[c];
    ReqOf(cfg, s, r);
    SentOne(cfg, s, c, r, q', k');
    WriteByteConn(cfg, s.reqs, c, k);
    LocalOne(cfg, s, c, r, q', k');
  }

  // What the writer knows about the request whose byte it writes next.
  lemma NextUnsent(cfg: Config, reqs: seq<Request>, c: ConnId, k: Conn)
    requires ConnInv(cfg, reqs, c, k) && k.writer.Sending? && Unwritten(k.writer.flush)
    ensures
      var f := k.writer.flush;
      var r := f.batch[f.full];
      && r < |reqs| && reqs[r].place == Claimed(c) && reqs[r].sent == f.part < Len(cfg, r)
      && Reported(cfg, r, reqs[r]) && reqs[r].responses == [] && r !in k.received
      && r in f.batch && k.stub == Span(r, f.part) && k.answering <= |k.received|
  {
    hide Answers, Delivered, Marks, WireShape, StubShape, Distinct, Listed, OneAt;
  }

  lemma SentOne(cfg: Config, s: State, c: ConnId, r: Id, q': Request, k': Conn)
    requires c < |s.conns| && r < |s.reqs| && ReqInv(cfg, s.conns, s.holder, r, s.reqs[r])
    requires s.reqs[r].place == Claimed(c) && s.reqs[r].sent < Len(cfg, r) && Reported(cfg, r, s.reqs[r])
    requires q' == s.reqs[r].(sent := s.reqs[r].sent + 1)
    requires Later(s.conns[c], k') && k'.writer.Sending? && r in k'.writer.flush.batch
    ensures ReqInv(cfg, s.conns[c := k'], s.holder, r, q')
  {
    BlamedLater(s.conns, s.conns[c := k'], r);
    hide Blamed;
  }

  lemma WriteByteConn(cfg: Config, reqs: seq<Request>, c: ConnId, k: Conn)
    requires ValidConfig(cfg) && ConnInv(cfg, reqs, c, k) && k.writer.Sending? && Unwritten(k.writer.flush)
    requires k.writer.flush.batch[k.writer.flush.full] < |reqs|
    ensures
      var f := k.writer.flush;
      var r := f.batch[f.full];
      var b := WireByte(r, f.part);
      var k' := if f.part + 1 < Len(cfg, r)
                then k.(wire := k.wire + [b], stub := k.stub + [b], writer := Sending(f.(part := f.part + 1)))
                else k.(wire := k.wire + [b], stub := [], received := k.received + [r],
                        writer := Sending(f.(full := f.full + 1, part := 0)));
      var reqs' := reqs[r := reqs[r].(sent := reqs[r].sent + 1)];
      ConnInv(cfg, reqs', c, k') && Later(k, k') && StillCovered(reqs', c, k, k')
  {
    hide ConnInv, ValidConfig;
    var f := k.writer.flush;
    if f.part + 1 < Len(cfg, f.batch[f.full]) {
      PartConn(cfg, reqs, c, k);
    } else {
      WholeConn(cfg, reqs, c, k);
    }
  }

  // The next byte is not the last of its request.
  lemma PartConn(cfg: Config, reqs: seq<Request>, c: ConnId, k: Conn)
    requires ConnInv(cfg, reqs, c, k) && k.writer.Sending? && Unwritten(k.writer.flush)
    requires k.writer.flush.batch[k.writer.flush.full] < |reqs|
    requires k.writer.flush.part + 1 < Len(cfg, k.writer.flush.batch[k.writer.flush.full])
    ensures
      var f := k.writer.flush;
      var r := f.batch[f.full];
      var b := WireByte(r, f.part);
      var k' := k.(wire := k.wire + [b], stub := k.stub + [b], writer := Sending(f.(part := f.part + 1)));
      ConnInv(cfg, reqs[r := reqs[r].(sent := reqs[r].sent + 1)], c, k')
  {
    hide Answers, Delivered, Written, WriterState, Covering, Marks, StubShape, Fifo, Distinct, WireShape, TornDown,
      Apart, Causes, Custody, Progress;
    var f := k.writer.flush;
    var r := f.batch[f.full];
    var reqs' := reqs[r := reqs[r].(sent := reqs[r].sent + 1)];
    NextUnsent(cfg, reqs, c, k);
    SentReader(cfg, reqs, r, k);
    PlacesCustody(reqs, reqs', c, k);
    PartWriter(cfg, reqs, c, k);
    PartMarks(reqs', k);
    StubCustody(reqs', c, k, r);
  }

  lemma SentReader(cfg: Config, reqs: seq<Request>, r: Id, k: Conn)
    requires r < |reqs| && r !in k.received
    requires Answers(cfg, reqs, k.received, k.answering, k.given)
    requires Delivered(reqs, k.received, k.answering, k.popped)
    requires Marks(reqs, k.received, k.closed, k.writer)
    ensures
      var reqs' := reqs[r := reqs[r].(sent := reqs[r].sent + 1)];
      && Answers(cfg, reqs', k.received, k.answering, k.given)
      && Delivered(reqs', k.received, k.answering, k.popped)
      && Marks(reqs', k.received, k.closed, k.writer)
  {
  }

  lemma PartWriter(cfg: Config, reqs: seq<Request>, c: ConnId, k: Conn)
    requires ConnInv(cfg, reqs, c, k) && k.writer.Sending? && Unwritten(k.writer.flush)
    requires k.writer.flush.batch[k.writer.flush.full] < |reqs|
    requires k.writer.flush.part + 1 < Len(cfg, k.writer.flush.batch[k.writer.flush.full])
    ensures
      var f := k.writer.flush;
      var r := f.batch[f.full];
      var b := WireByte(r, f.part);
      var f' := f.(part := f.part + 1);
      var reqs' := reqs[r := reqs[r].(sent := reqs[r].sent + 1)];
      && Progress(cfg, f') && Written(cfg, reqs', f', k.received)
      && WriterState(reqs', k.received, k.stub + [b], Sending(f'), k.closed, k.cause, k.blamed, k.served)
      && Covering(cfg, reqs', Sending(f'))
      && StubShape(cfg, reqs', k.received, k.stub + [b])
      && Fifo(k.closed, k.inflight, k.received, k.answering, Sending(f'))
      && WireShape(cfg, k.received, k.wire + [b], k.stub + [b])
  {
    hide Answers, Delivered, Custody, Flat, Causes, TornDown, Apart, Marks, Progress, Written, WriterState, Covering,
      StubShape, Fifo, WireShape;
    NextUnsent(cfg, reqs, c, k);
    PartBatch(cfg, reqs, k);
    PartState(cfg, reqs, k);
    PartShape(cfg, k);
  }

  lemma PartBatch(cfg: Config, reqs: seq<Request>, k: Conn)
    requires k.writer.Sending? && Unwritten(k.writer.flush)
    requires k.writer.flush.batch[k.writer.flush.full] < |reqs|
    requires k.writer.flush.part + 1 < Len(cfg, k.writer.flush.batch[k.writer.flush.full])
    requires Progress(cfg, k.writer.flush) && Written(cfg, reqs, k.writer.flush, k.received)
    requires Covering(cfg, reqs, k.writer)
    ensures
      var f := k.writer.flush;
      var r := f.batch[f.full];
      var f' := f.(part := f.part + 1);
      var reqs' := reqs[r := reqs[r].(sent := reqs[r].sent + 1)];
      Progress(cfg, f') && Written(cfg, reqs', f', k.received) && Covering(cfg, reqs', Sending(f'))
  {
  }

  // The unfinished payload grows by the byte that was written.
  lemma PartState(cfg: Config, reqs: seq<Request>, k: Conn)
    requires k.writer.Sending? && Unwritten(k.writer.flush)
    requires k.writer.flush.batch[k.writer.flush.full] < |reqs|
    requires k.writer.flush.part + 1 < Len(cfg, k.writer.flush.batch[k.writer.flush.full])
    requires k.writer.flush.batch[k.writer.flush.full] !in k.received
    requires reqs[k.writer.flush.batch[k.writer.flush.full]].sent == k.writer.flush.part
    requires WriterState(reqs, k.received, k.stub, k.writer, k.closed, k.cause, k.blamed, k.served)
    ensures
      var f := k.writer.flush;
      var r := f.batch[f.full];
      var b := WireByte(r, f.part);
      var f' := f.(part := f.part + 1);
      var reqs' := reqs[r := reqs[r].(sent := reqs[r].sent + 1)];
      && WriterState(reqs', k.received, k.stub + [b], Sending(f'), k.closed, k.cause, k.blamed, k.served)
      && StubShape(cfg, reqs', k.received, k.stub + [b])
  {
    var f := k.writer.flush;
    SpanGrows(f.batch[f.full], f.part);
  }

  lemma SpanGrows(r: Id, n: nat)
    ensures Span(r, n) + [WireByte(r, n)] == Span(r, n + 1)
  {
  }

  lemma PartShape(cfg: Config, k: Conn)
    requires k.writer.Sending? && Unwritten(k.writer.flush)
    requires Fifo(k.closed, k.inflight, k.received, k.answering, k.writer)
    requires WireShape(cfg, k.received, k.wire, k.stub)
    ensures
      var f := k.writer.flush;
      var b := WireByte(f.batch[f.full], f.part);
      && Fifo(k.closed, k.inflight, k.received, k.answering, Sending(f.(part := f.part + 1)))
      && WireShape(cfg, k.received, k.wire + [b], k.stub + [b])
  {
    hide Flat;
    var f := k.writer.flush;
    assert k.wire + [WireByte(f.batch[f.full], f.part)] == Flat(cfg, k.received) + (k.stub + [WireByte(f.batch[f.full], f.part)]);
  }

  lemma PartMarks(reqs: seq<Request>, k: Conn)
    requires k.writer.Sending? && Marks(reqs, k.received, k.closed, k.writer)
    ensures Marks(reqs, k.received, k.closed, Sending(k.writer.flush.(part := k.writer.flush.part + 1)))
  {
  }

  lemma StubCustody(reqs: seq<Request>, c: ConnId, k: Conn, r: Id)
    requires Custody(reqs, c, k) && k.writer.Sending? && Unwritten(k.writer.flush)
    requires r == k.writer.flush.batch[k.writer.flush.full]
    requires k.stub != [] ==> k.stub[0].req == r
    ensures
      var f := k.writer.flush;
      var b := WireByte(r, f.part);
      Custody(reqs, c, k.(wire := k.wire + [b], stub := k.stub + [b], writer := Sending(f.(part := f.part + 1))))
  {
    hide Listed;
  }

  // The last byte of a request: now the server has it whole.
  lemma WholeConn(cfg: Config, reqs: seq<Request>, c: ConnId, k: Conn)
    requires ValidConfig(cfg) && ConnInv(cfg, reqs, c, k) && k.writer.Sending? && Unwritten(k.writer.flush)
    requires k.writer.flush.batch[k.writer.flush.full] < |reqs|
    requires k.writer.flush.part + 1 >= Len(cfg, k.writer.flush.batch[k.writer.flush.full])
    ensures
      var f := k.writer.flush;
      var r := f.batch[f.full];
      var b := WireByte(r, f.part);
      var k' := k.(wire := k.wire + [b], stub := [], received := k.received + [r],
                   writer := Sending(f.(full := f.full + 1, part := 0)));
      ConnInv(cfg, reqs[r := reqs[r].(sent := reqs[r].sent + 1)], c, k')
  {
    hide Answers, Delivered, Written, WriterState, Covering, Marks, StubShape, Fifo, WireShape, TornDown, Causes,
      Custody, Progress, ValidConfig, Distinct;
    var f := k.writer.flush;
    var r := f.batch[f.full];
    var reqs' := reqs[r := reqs[r].(sent := reqs[r].sent + 1)];
    NextUnsent(cfg, reqs, c, k);
    SentReader(cfg, reqs, r, k);
    PlacesCustody(reqs, reqs', c, k);
    WholeWriter(cfg, reqs, c, k);
    WholeReader(cfg, reqs', k, r);
    WholeCustody(reqs', c, k, r);
  }

  lemma WholeWriter(cfg: Config, reqs: seq<Request>, c: ConnId, k: Conn)
    requires ValidConfig(cfg) && ConnInv(cfg, reqs, c, k) && k.writer.Sending? && Unwritten(k.writer.flush)
    requires k.writer.flush.batch[k.writer.flush.full] < |reqs|
    requires k.writer.flush.part + 1 >= Len(cfg, k.writer.flush.batch[k.writer.flush.full])
    ensures
      var f := k.writer.flush;
      var r := f.batch[f.full];
      var f' := f.(full := f.full + 1, part := 0);
      var reqs' := reqs[r := reqs[r].(sent := reqs[r].sent + 1)];
      var received' := k.received + [r];
      && Progress(cfg, f') && Written(cfg, reqs', f', received')
      && WriterState(reqs', received', [], Sending(f'), k.closed, k.cause, k.blamed, k.served)
      && Covering(cfg, reqs', Sending(f'))
      && Fifo(k.closed, k.inflight, received', k.answering, Sending(f'))
      && WireShape(cfg, received', k.wire + [WireByte(r, f.part)], [])
      && StubShape(cfg, reqs', received', [])
  {
    hide Answers, Delivered, Custody, Causes, TornDown, Apart, Marks, ValidConfig, Progress, Fifo, Written,
      WriterState, Covering, WireShape, Distinct;
    WholeBatch(cfg, reqs, c, k);
    WholeTail(reqs, k);
    WholeFifo(k);
    WholeWire(cfg, reqs, c, k);
  }

  lemma WholeBatch(cfg: Config, reqs: seq<Request>, c: ConnId, k: Conn)
    requires ValidConfig(cfg) && ConnInv(cfg, reqs, c, k) && k.writer.Sending? && Unwritten(k.writer.flush)
    requires k.writer.flush.batch[k.writer.flush.full] < |reqs|
    requires k.writer.flush.part + 1 >= Len(cfg, k.writer.flush.batch[k.writer.flush.full])
    ensures
      var f := k.writer.flush;
      var r := f.batch[f.full];
      var f' := f.(full := f.full + 1, part := 0);
      var reqs' := reqs[r := reqs[r].(sent := reqs[r].sent + 1)];
      Progress(cfg, f') && Written(cfg, reqs', f', k.received + [r]) && Covering(cfg, reqs', Sending(f'))
  {
    hide Answers, Delivered, Custody, Causes, TornDown, Apart, Marks, StubShape, Fifo, WriterState, WireShape;
    var f := k.writer.flush;
    if f.full + 1 < |f.batch| {
      assert Framed(cfg.exchange(f.batch[f.full + 1]));
    }
  }

  lemma WholeTail(reqs: seq<Request>, k: Conn)
    requires k.writer.Sending? && Unwritten(k.writer.flush)
    requires k.writer.flush.batch[k.writer.flush.full] < |reqs|
    requires WriterState(reqs, k.received, k.stub, k.writer, k.closed, k.cause, k.blamed, k.served)
    ensures
      var f := k.writer.flush;
      var r := f.batch[f.full];
      var f' := f.(full := f.full + 1, part := 0);
      var reqs' := reqs[r := reqs[r].(sent := reqs[r].sent + 1)];
      WriterState(reqs', k.received + [r], [], Sending(f'), k.closed, k.cause, k.blamed, k.served)
  {
    var f := k.writer.flush;
    var r := f.batch[f.full];
    var reqs' := reqs[r := reqs[r].(sent := reqs[r].sent + 1)];
    assert f.batch[..f.full + 1] == f.batch[..f.full] + [r];
    var received' := k.received + [r];
    assert received'[|received'| - (f.full + 1)..] == k.received[|k.received| - f.full..] + [r];
    assert Unmarked(reqs', f.batch);
    assert f.full + 1 == |f.batch| || Span(f.batch[f.full + 1], 0) == [];
  }

  lemma WholeFifo(k: Conn)
    requires k.writer.Sending? && Unwritten(k.writer.flush)
    requires Fifo(k.closed, k.inflight, k.received, k.answering, k.writer)
    ensures
      var f := k.writer.flush;
      Fifo(k.closed, k.inflight, k.received + [f.batch[f.full]], k.answering, Sending(f.(full := f.full + 1, part := 0)))
  {
    var f := k.writer.flush;
    MoveOver(k.received, k.answering, f.batch, f.full);
  }

  lemma MoveOver(a: seq<Id>, i: nat, b: seq<Id>, j: nat)
    requires i <= |a| && j < |b|
    ensures a[i..] + b[j..] == (a + [b[j]])[i..] + b[j + 1..]
  {
    assert b[j..] == [b[j]] + b[j + 1..];
    assert (a + [b[j]])[i..] == a[i..] + [b[j]];
  }

  lemma WholeWire(cfg: Config, reqs: seq<Request>, c: ConnId, k: Conn)
    requires ConnInv(cfg, reqs, c, k) && k.writer.Sending? && Unwritten(k.writer.flush)
    requires k.writer.flush.part + 1 >= Len(cfg, k.writer.flush.batch[k.writer.flush.full])
    ensures
      var r := k.writer.flush.batch[k.writer.flush.full];
      WireShape(cfg, k.received + [r], k.wire + [WireByte(r, k.writer.flush.part)], [])
  {
    hide Answers, Delivered, Custody, Causes, TornDown, Apart, Marks, StubShape, Fifo, Written, Covering, Distinct,
      WriterState, Progress, WireShape;
    StubWhole(cfg, reqs, k);
    var f := k.writer.flush;
    WireWhole(cfg, k, f.batch[f.full], WireByte(f.batch[f.full], f.part));
  }

  lemma StubWhole(cfg: Config, reqs: seq<Request>, k: Conn)
    requires k.writer.Sending? && Unwritten(k.writer.flush) && Progress(cfg, k.writer.flush)
    requires k.writer.flush.part + 1 >= Len(cfg, k.writer.flush.batch[k.writer.flush.full])
    requires WriterState(reqs, k.received, k.stub, k.writer, k.closed, k.cause, k.blamed, k.served)
    ensures
      var r := k.writer.flush.batch[k.writer.flush.full];
      k.stub + [WireByte(r, k.writer.flush.part)] == Span(r, Len(cfg, r))
  {
    hide Distinct;
    SpanGrows(k.writer.flush.batch[k.writer.flush.full], k.writer.flush.part);
  }

  lemma WireWhole(cfg: Config, k: Conn, r: Id, b: WireByte)
    requires WireShape(cfg, k.received, k.wire, k.stub) && k.stub + [b] == Span(r, Len(cfg, r))
    ensures WireShape(cfg, k.received + [r], k.wire + [b], [])
  {
    var received' := k.received + [r];
    assert received'[..|received'| - 1] == k.received;
    assert k.wire + [b] == Flat(cfg, k.received) + (k.stub + [b]);
  }

  lemma WholeReader(cfg: Config, reqs: seq<Request>, k: Conn, r: Id)
    requires ValidConfig(cfg) && k.writer.Sending? && Unwritten(k.writer.flush)
    requires r < |reqs| && reqs[r].sent == Len(cfg, r) && reqs[r].responses == [] && r !in k.received
    requires k.answering <= |k.received| && Distinct(k.received)
    requires LastAnswered(k.popped, k.received, k.answering)
    requires Answers(cfg, reqs, k.received, k.answering, k.given)
    requires Delivered(reqs, k.received, k.answering, k.popped)
    requires Marks(reqs, k.received, k.closed, k.writer)
    ensures
      var received' := k.received + [r];
      && Distinct(received')
      && LastAnswered(k.popped, received', k.answering)
      && Answers(cfg, reqs, received', k.answering, k.given)
      && Delivered(reqs, received', k.answering, k.popped)
      && Marks(reqs, received', k.closed, Sending(k.writer.flush.(full := k.writer.flush.full + 1, part := 0)))
  {
    assert Framed(cfg.exchange(r));
  }

  lemma WholeCustody(reqs: seq<Request>, c: ConnId, k: Conn, r: Id)
    requires Custody(reqs, c, k) && k.writer.Sending? && Unwritten(k.writer.flush)
    requires r == k.writer.flush.batch[k.writer.flush.full]
    ensures
      var f := k.writer.flush;
      Custody(reqs, c, k.(wire := k.wire + [WireByte(r, f.part)], stub := [], received := k.received + [r],
                          writer := Sending(f.(full := f.full + 1, part := 0))))
  {
    hide Listed;
  }

  // ---- flush takes the lock again ----

  lemma FlushEndStep(cfg: Config, s: State, c: ConnId, err: Option<nat>)
    requires Inv(cfg, s) && CanStep(cfg, s, FlushEnd(c, err))
    ensures Inv(cfg, Apply(cfg, s, FlushEnd(c, err)))
  {
    hide Inv, ConnInv, ReqInv, StillCovered, PlaceExists, SameOwned, Covered, Kept, PoolInv;
    ConnOf(cfg, s, c);
    var k := s.conns[c];
    var e := if err.Some? then Some(Wire(err.value)) else None;
    if k.closed {
      EndClosed(cfg, s.reqs, c, k, e);
      ConnOnly(cfg, s, c, ApplyFlushEnd(s, c, e).conns[c]);
    } else {
      EndLive(cfg, s, c, e);
    }
  }

  lemma EndLive(cfg: Config, s: State, c: ConnId, e: Option<Error>)
    requires Inv(cfg, s) && WellFormed(s) && c < |s.conns| && s.conns[c].writer.Sending? && !s.conns[c].closed
    requires (e.None? ==> !Unwritten(s.conns[c].writer.flush)) && (e.Some? ==> e.value.Wire?)
    ensures Inv(cfg, ApplyFlushEnd(s, c, e))
  {
    hide Inv, ConnInv, ReqInv, StillCovered, PlaceExists, SameOwned, Covered, Kept, PoolInv;
    ConnOf(cfg, s, c);
    var k := s.conns[c];
    var s' := ApplyFlushEnd(s, c, e);
    hide WellFormed;
    EndMarked(cfg, s.reqs, c, k, e);
    EndOthers(cfg, s.reqs, s'.reqs, c, k);
    MarkPool(cfg, s, s', k.writer.flush.batch[..k.writer.flush.full]);
    forall r | 0 <= r < |s.reqs| ensures ReqInv(cfg, s'.conns, s'.holder, r, s'.reqs[r]) {
      ReqOf(cfg, s, r);
      EndReq(cfg, s, s', c, k, r, e);
    }
    Local(cfg, s, s', c);
  }

  // The flush was overtaken by a teardown, or by the last reply of a drained
  // connection: the whole batch is left to the writer.
  lemma EndClosed(cfg: Config, reqs: seq<Request>, c: ConnId, k: Conn, err: Option<Error>)
    requires ConnInv(cfg, reqs, c, k) && k.writer.Sending? && k.closed
    requires err.Some? ==> err.value.Wire?
    requires err.None? ==> !Unwritten(k.writer.flush)
    ensures
      var k' := k.(writer := Settling(k.writer.flush, Seen(k.closed, k.cause, k.blamed, k.served, err), []));
      ConnInv(cfg, reqs, c, k') && Later(k, k') && StillCovered(reqs, c, k, k')
  {
    hide Answers, Delivered, WireShape, StubShape, Causes, TornDown, Apart, Listed, AllAt, OneAt, Distinct, Written;
  }

  ghost function AfterEnd(k: Conn, err: Option<Error>): Conn
    requires k.writer.Sending? && k.writer.flush.full <= |k.writer.flush.batch|
    requires |k.writer.flush.batch| - k.writer.flush.full <= |k.inflight|
  {
    var f := k.writer.flush;
    if err.None? then k.(writer := Idle)
    else k.(writer := Settling(f, Seen(k.closed, k.cause, k.blamed, k.served, err), []),
            inflight := k.inflight[..|k.inflight| - (|f.batch| - f.full)])
  }

  lemma EndMarked(cfg: Config, reqs: seq<Request>, c: ConnId, k: Conn, err: Option<Error>)
    requires ConnInv(cfg, reqs, c, k) && k.writer.Sending? && !k.closed
    requires k.writer.flush.full <= |k.writer.flush.batch|
    requires |k.writer.flush.batch| - k.writer.flush.full <= |k.inflight|
    requires err.Some? ==> err.value.Wire?
    requires err.None? ==> !Unwritten(k.writer.flush)
    ensures
      var reqs' := MarkAll(reqs, k.writer.flush.batch[..k.writer.flush.full]);
      ConnInv(cfg, reqs', c, AfterEnd(k, err)) && Later(k, AfterEnd(k, err))
  {
    hide Answers, Delivered, Written, WriterState, Covering, Marks, StubShape, Fifo, Distinct, WireShape, TornDown,
      Apart, Causes, Custody, Progress, MarkAll;
    var f := k.writer.flush;
    var reqs' := MarkAll(reqs, f.batch[..f.full]);
    MarkedParts(cfg, reqs, k, f.batch[..f.full]);
    EndFifo(k, err);
    EndMarks(reqs, k, err);
    EndState(cfg, reqs, k, err);
    EndCustody(reqs, c, k, err);
  }

  lemma MarkedParts(cfg: Config, reqs: seq<Request>, k: Conn, list: seq<Id>)
    requires Answers(cfg, reqs, k.received, k.answering, k.given)
    requires Delivered(reqs, k.received, k.answering, k.popped)
    requires Written(cfg, reqs, Work(k.writer), k.received)
    requires StubShape(cfg, reqs, k.received, k.stub)
    ensures
      var reqs' := MarkAll(reqs, list);
      && Answers(cfg, reqs', k.received, k.answering, k.given)
      && Delivered(reqs', k.received, k.answering, k.popped)
      && Written(cfg, reqs', Work(k.writer), k.received)
      && StubShape(cfg, reqs', k.received, k.stub)
  {
  }

  // The unwritten tail of the batch is exactly the tail of the in-flight list.
  lemma EndFifo(k: Conn, err: Option<Error>)
    requires k.writer.Sending? && !k.closed && k.writer.flush.full <= |k.writer.flush.batch|
    requires |k.writer.flush.batch| - k.writer.flush.full <= |k.inflight|
    requires Fifo(k.closed, k.inflight, k.received, k.answering, k.writer)
    requires err.None? ==> !Unwritten(k.writer.flush)
    ensures
      var k' := AfterEnd(k, err);
      Fifo(k'.closed, k'.inflight, k'.received, k'.answering, k'.writer)
      && k'.inflight == k.received[k.answering..]
  {
    var f := k.writer.flush;
    assert k.inflight == k.received[k.answering..] + f.batch[f.full..];
    if err.Some? {
      assert k.inflight[..|k.inflight| - (|f.batch| - f.full)] == k.received[k.answering..];
    } else {
      assert f.batch[f.full..] == [];
    }
  }

  lemma EndMarks(reqs: seq<Request>, k: Conn, err: Option<Error>)
    requires k.writer.Sending? && k.writer.flush.full <= |k.writer.flush.batch|
    requires |k.writer.flush.batch| - k.writer.flush.full <= |k.inflight|
    requires Marks(reqs, k.received, k.closed, k.writer)
    requires WriterState(reqs, k.received, k.stub, k.writer, k.closed, k.cause, k.blamed, k.served)
    ensures Marks(MarkAll(reqs, k.writer.flush.batch[..k.writer.flush.full]), k.received, k.closed, AfterEnd(k, err).writer)
  {
    var f := k.writer.flush;
    var tail := |k.received| - f.full;
    forall i | tail <= i < |k.received| ensures k.received[i] in f.batch[..f.full] && k.received[i] < |reqs| {
      assert k.received[tail..][i - tail] == f.batch[..f.full][i - tail];
      assert k.received[i] == f.batch[i - tail];
    }
  }

  lemma EndState(cfg: Config, reqs: seq<Request>, k: Conn, err: Option<Error>)
    requires k.writer.Sending? && k.writer.flush.full <= |k.writer.flush.batch| && !k.closed
    requires |k.writer.flush.batch| - k.writer.flush.full <= |k.inflight|
    requires Progress(cfg, k.writer.flush) && Written(cfg, reqs, k.writer.flush, k.received)
    requires WriterState(reqs, k.received, k.stub, k.writer, k.closed, k.cause, k.blamed, k.served)
    requires err.Some? ==> err.value.Wire?
    requires err.None? ==> !Unwritten(k.writer.flush)
    ensures
      var reqs' := MarkAll(reqs, k.writer.flush.batch[..k.writer.flush.full]);
      var k' := AfterEnd(k, err);
      && WriterState(reqs', k'.received, k'.stub, k'.writer, k'.closed, k'.cause, k'.blamed, k'.served)
      && Covering(cfg, reqs', k'.writer)
      && Progress(cfg, Work(k'.writer))
      && (Written(cfg, reqs', k.writer.flush, k.received) ==> Written(cfg, reqs', Work(k'.writer), k'.received))
  {
    var f := k.writer.flush;
    forall i | f.full <= i < |f.batch| ensures f.batch[i] !in f.batch[..f.full] {
    }
  }

  lemma EndCustody(reqs: seq<Request>, c: ConnId, k: Conn, err: Option<Error>)
    requires Custody(reqs, c, k)
    requires k.writer.Sending? && k.writer.flush.full <= |k.writer.flush.batch|
    requires |k.writer.flush.batch| - k.writer.flush.full <= |k.inflight|
    ensures Custody(MarkAll(reqs, k.writer.flush.batch[..k.writer.flush.full]), c, AfterEnd(k, err))
  {
    hide Distinct, MarkAll;
    var reqs' := MarkAll(reqs, k.writer.flush.batch[..k.writer.flush.full]);
    SamePlaces(reqs, k.writer.flush.batch[..k.writer.flush.full]);
    PlacesCustody(reqs, reqs', c, k);
    hide Listed, AllAt, OneAt, Within;
    assert AllAt(reqs', AfterEnd(k, err).inflight, Claimed(c)) by {
      AllAtPrefix(reqs', k.inflight, |AfterEnd(k, err).inflight|, Claimed(c));
    }
    assert AllAt(reqs', [], Claimed(c)) by {
      AllAtPrefix(reqs', k.inflight, 0, Claimed(c));
    }
  }

  lemma SamePlaces(reqs: seq<Request>, list: seq<Id>)
    ensures forall r :: 0 <= r < |reqs| ==> MarkAll(reqs, list)[r].place == reqs[r].place
  {
  }

  lemma AllAtPrefix(reqs: seq<Request>, list: seq<Id>, n: nat, place: Place)
    requires AllAt(reqs, list, place) && n <= |list|
    ensures AllAt(reqs, list[..n], place)
  {
  }

  lemma EndOthers(cfg: Config, reqs: seq<Request>, reqs': seq<Request>, c: ConnId, k: Conn)
    requires ConnInv(cfg, reqs, c, k) && k.writer.Sending? && k.writer.flush.full <= |k.writer.flush.batch|
    requires reqs' == MarkAll(reqs, k.writer.flush.batch[..k.writer.flush.full])
    ensures forall x :: x != c ==> SameOwned(reqs, reqs', x)
    ensures forall i :: 0 <= i < k.writer.flush.full ==>
      k.writer.flush.batch[i] < |reqs| && reqs[k.writer.flush.batch[i]].place == Claimed(c)
  {
    hide Answers, Delivered, Written, WriterState, Covering, Marks, StubShape, Fifo, Distinct, WireShape, TornDown,
      Apart, Causes, Progress, Listed, OneAt;
  }

  lemma MarkPool(cfg: Config, s: State, s': State, list: seq<Id>)
    requires Inv(cfg, s) && s'.reqs == MarkAll(s.reqs, list)
    requires s'.members == s.members && s'.toDrain == s.toDrain && s'.holder == s.holder && |s'.conns| == |s.conns|
    ensures PoolInv(cfg, s')
  {
    hide ConnInv, ReqInv;
  }

  lemma EndReq(cfg: Config, s: State, s': State, c: ConnId, k: Conn, r: Id, err: Option<Error>)
    requires Inv(cfg, s) && c < |s.conns| && k == s.conns[c] && r < |s.reqs|
    requires ReqInv(cfg, s.conns, s.holder, r, s.reqs[r])
    requires k.writer.Sending? && !k.closed && k.writer.flush.full <= |k.writer.flush.batch|
    requires |k.writer.flush.batch| - k.writer.flush.full <= |k.inflight|
    requires s'.reqs == MarkAll(s.reqs, k.writer.flush.batch[..k.writer.flush.full])
    requires s'.conns == s.conns[c := AfterEnd(k, err)] && s'.holder == s.holder && Later(k, AfterEnd(k, err))
    requires err.None? ==> !Unwritten(k.writer.flush)
    requires r in k.writer.flush.batch[..k.writer.flush.full] ==> s.reqs[r].place == Claimed(c)
    ensures ReqInv(cfg, s'.conns, s'.holder, r, s'.reqs[r])
  {
    hide Inv, Covered, MarkAll, AfterEnd, ReqInv, Later, MarkedAs;
    var q := s.reqs[r];
    var q' := s'.reqs[r];
    assert MarkedAs(q, q', c) by {
      MarkedOne(s.reqs, k.writer.flush.batch[..k.writer.flush.full], r, c);
    }
    if q.place == Claimed(c) && q.phase.Writing? {
      ConnOf(cfg, s, c);
      WritingCovered(cfg, s, r, c);
      EndCovers(cfg, s.reqs, c, k, r, q', err);
    } else {
      WritingElsewhere(cfg, s, r);
    }
    MarkedReq(cfg, s, s', c, r, q, q');
  }

  // What setting onWire may do to a request.
  ghost predicate MarkedAs(q: Request, q': Request, c: ConnId) {
    q' == q || (q.place == Claimed(c) && q' == q.(onWire := true))
  }

  lemma MarkedOne(reqs: seq<Request>, list: seq<Id>, r: Id, c: ConnId)
    requires r < |reqs| && (r in list ==> reqs[r].place == Claimed(c))
    ensures MarkedAs(reqs[r], MarkAll(reqs, list)[r], c)
  {
  }

  lemma WritingElsewhere(cfg: Config, s: State, r: Id)
    requires Inv(cfg, s) && r < |s.reqs|
    ensures
      var q := s.reqs[r];
      q.place.Claimed? ==> q.place.c < |s.conns| && (q.phase.Writing? ==> Covered(s.conns[q.place.c], r, q))
  {
    hide Inv, Covered, OutcomeInv;
    ReqOf(cfg, s, r);
    HomesOwner(s.conns, s.reqs[r]);
  }

  lemma MarkedReq(cfg: Config, s: State, s': State, c: ConnId, r: Id, q: Request, q': Request)
    requires ReqInv(cfg, s.conns, s.holder, r, q) && MarkedAs(q, q', c)
    requires c < |s.conns| == |s'.conns| && s'.holder == s.holder
    requires forall x :: 0 <= x < |s.conns| && x != c ==> s'.conns[x] == s.conns[x]
    requires Later(s.conns[c], s'.conns[c])
    requires q.place == Claimed(c) && q.phase.Writing? ==> Covered(s'.conns[c], r, q')
    ensures ReqInv(cfg, s'.conns, s'.holder, r, q')
  {
    BlamedLater(s.conns, s'.conns, r);
    hide Blamed, Covered;
    HomesOwner(s.conns, q);
  }

  lemma EndCovers(cfg: Config, reqs: seq<Request>, c: ConnId, k: Conn, r: Id, q': Request, err: Option<Error>)
    requires ConnInv(cfg, reqs, c, k) && k.writer.Sending? && !k.closed && r < |reqs|
    requires k.writer.flush.full <= |k.writer.flush.batch|
    requires |k.writer.flush.batch| - k.writer.flush.full <= |k.inflight|
    requires reqs[r].phase.Writing? && Covered(k, r, reqs[r])
    requires err.None? ==> !Unwritten(k.writer.flush)
    ensures Covered(AfterEnd(k, err), r, q')
  {
    hide Custody, Answers, Written, Covering, Marks, StubShape, Distinct, WireShape, Causes, Progress, Delivered,
      WriterState, Fifo, AfterEnd;
    EndFifo(k, err);
    EndWaits(cfg, reqs, c, k, r);
    EndCoversOne(k, r, q', err);
  }

  // On a live connection a request either waits for its answer or its bytes are
  // still to come.
  lemma EndWaits(cfg: Config, reqs: seq<Request>, c: ConnId, k: Conn, r: Id)
    requires ConnInv(cfg, reqs, c, k) && k.writer.Sending? && !k.closed && r < |reqs|
    requires k.writer.flush.full <= |k.writer.flush.batch|
    requires reqs[r].phase.Writing? && Covered(k, r, reqs[r])
    ensures k.answering <= |k.received|
    ensures k.popped == Some(r) || r in k.received[k.answering..] || r in k.writer.flush.batch[k.writer.flush.full..]
  {
    hide Custody, Answers, Written, Covering, Marks, StubShape, Distinct, WireShape, Causes, Progress, Delivered,
      WriterState;
    var f := k.writer.flush;
    assert k.inflight == k.received[k.answering..] + f.batch[f.full..];
    assert f.batch == f.batch[..f.full] + f.batch[f.full..];
    if r in f.batch[..f.full] {
      WrittenWaits(reqs, k, r);
    }
  }

  lemma EndCoversOne(k: Conn, r: Id, q': Request, err: Option<Error>)
    requires k.writer.Sending? && k.writer.flush.full <= |k.writer.flush.batch| && !k.closed
    requires |k.writer.flush.batch| - k.writer.flush.full <= |k.inflight| && k.answering <= |k.received|
    requires err.None? ==> !Unwritten(k.writer.flush)
    requires AfterEnd(k, err).inflight == k.received[k.answering..]
    requires k.popped == Some(r) || r in k.received[k.answering..] || r in k.writer.flush.batch[k.writer.flush.full..]
    ensures Covered(AfterEnd(k, err), r, q')
  {
  }

  // A written request of the batch still waits for its answer, or the reader
  // has it in hand.
  lemma WrittenWaits(reqs: seq<Request>, k: Conn, r: Id)
    requires k.writer.Sending? && r < |reqs| && reqs[r].phase.Writing?
    requires WriterState(reqs, k.received, k.stub, k.writer, k.closed, k.cause, k.blamed, k.served)
    requires Delivered(reqs, k.received, k.answering, k.popped) && k.answering <= |k.received|
    requires k.writer.flush.full <= |k.writer.flush.batch| && r in k.writer.flush.batch[..k.writer.flush.full]
    ensures k.popped == Some(r) || r in k.received[k.answering..]
  {
    var f := k.writer.flush;
    var i :| 0 <= i < f.full && f.batch[i] == r;
    var j := |k.received| - f.full + i;
    assert k.received[|k.received| - f.full..][i] == f.batch[..f.full][i];
    assert k.received[j] == r;
    if j >= k.answering {
      assert k.received[k.answering..][j - k.answering] == r;
    }
  }

  // ---- a reply arrives ----

  lemma ReadStep(cfg: Config, s: State, c: ConnId)
    requires ValidConfig(cfg) && Inv(cfg, s) && CanStep(cfg, s, Read(c))
    ensures Inv(cfg, Apply(cfg, s, Read(c)))
  {
    hide Inv, ConnInv, ReqInv, ValidConfig, WellFormed, StillCovered, Later;
    ConnOf(cfg, s, c);
    var k := s.conns[c];
    HeadAnswers(cfg, s.reqs, c, k);
    var r := k.received[k.answering];
    if k.given >= |Replies(cfg, r)| {
      TeardownKeeps(cfg, s, c, FromServer(Fail(cfg, r).value), true);
    } else {
      var q' := s.reqs[r].(responses := s.reqs[r].responses + [Replies(cfg, r)[k.given]]);
      var k' := ReadConn(cfg, k);
      StopIsLast(cfg, r, k.given);
      ReplyConn(cfg, s.reqs, c, k);
      ReqOf(cfg, s, r);
      ReplyReq(cfg, s, c, r, q', k');
      LocalOne(cfg, s, c, r, q', k');
    }
  }

  // The head of the in-flight list is the request the server is answering.
  lemma HeadAnswers(cfg: Config, reqs: seq<Request>, c: ConnId, k: Conn)
    requires ConnInv(cfg, reqs, c, k) && !k.closed && k.answering < |k.received|
    ensures
      var r := k.received[k.answering];
      && k.inflight != [] && k.inflight[0] == r && r < |reqs| && reqs[r].place == Claimed(c)
      && Midway(cfg, r, k.given) && reqs[r].responses == Replies(cfg, r)[..k.given]
  {
    hide Delivered, Written, WriterState, Covering, Marks, StubShape, Distinct, WireShape, TornDown, Apart, Causes,
      Progress, Listed, OneAt;
    assert Answer(cfg, k.answering, k.given, k.answering, k.received[k.answering], reqs[k.received[k.answering]]);
  }

  // The caller's stop rule fires exactly on the last reply.
  lemma StopIsLast(cfg: Config, r: Id, given: nat)
    requires ValidConfig(cfg) && given < |Replies(cfg, r)|
    ensures cfg.exchange(r).stop(Replies(cfg, r)[given]) <==> given + 1 == |Replies(cfg, r)| && Fail(cfg, r).None?
  {
    assert Framed(cfg.exchange(r));
  }

  ghost function ReadConn(cfg: Config, k: Conn): Conn
    requires k.answering < |k.received| && k.inflight != []
  {
    var r := k.received[k.answering];
    if k.given + 1 == |Replies(cfg, r)| && Fail(cfg, r).None? then
      k.(answering := k.answering + 1, given := 0, inflight := k.inflight[1..], served := true,
         popped := Some(r), closed := k.closed || (k.closing && |k.inflight| == 1))
    else k.(given := k.given + 1)
  }

  lemma ReplyReq(cfg: Config, s: State, c: ConnId, r: Id, q': Request, k': Conn)
    requires c < |s.conns| && r < |s.reqs| && ReqInv(cfg, s.conns, s.holder, r, s.reqs[r])
    requires s.reqs[r].place == Claimed(c) && Later(s.conns[c], k')
    requires q' == s.reqs[r].(responses := q'.responses) && q'.responses <= Replies(cfg, r)
    requires k'.popped == Some(r) || (!k'.closed && r in k'.inflight)
    ensures ReqInv(cfg, s.conns[c := k'], s.holder, r, q')
  {
    BlamedLater(s.conns, s.conns[c := k'], r);
    hide Blamed;
  }

  lemma ReplyConn(cfg: Config, reqs: seq<Request>, c: ConnId, k: Conn)
    requires ValidConfig(cfg) && ConnInv(cfg, reqs, c, k) && !k.closed && k.popped.None?
    requires k.answering < |k.received| && k.inflight != [] && k.received[k.answering] < |reqs|
    requires k.given < |Replies(cfg, k.received[k.answering])|
    ensures
      var r := k.received[k.answering];
      var reqs' := reqs[r := reqs[r].(responses := reqs[r].responses + [Replies(cfg, r)[k.given]])];
      var k' := ReadConn(cfg, k);
      && ConnInv(cfg, reqs', c, k') && Later(k, k') && StillCovered(reqs', c, k, k')
      && reqs'[r].responses <= Replies(cfg, r)
      && (k'.popped == Some(r) || (!k'.closed && r in k'.inflight))
  {
    hide ConnInv, Answers, Delivered, Written, WriterState, Covering, Marks, StubShape, Fifo, Distinct, WireShape,
      TornDown, Apart, Causes, Custody, Progress, ValidConfig, StillCovered, ReadConn, Later, LastAnswered;
    ReplyParts(cfg, reqs, c, k);
    ReplyReader(cfg, reqs, c, k);
    ReplyState(cfg, reqs, c, k);
    ReplyCovers(cfg, reqs, c, k);
    ReplyWhole(cfg, reqs, c, k);
  }

  // What a longer reply list does not touch.
  lemma ReplyParts(cfg: Config, reqs: seq<Request>, c: ConnId, k: Conn)
    requires ConnInv(cfg, reqs, c, k) && k.answering < |k.received| && k.received[k.answering] < |reqs|
    requires k.given < |Replies(cfg, k.received[k.answering])|
    ensures
      var r := k.received[k.answering];
      var reqs' := reqs[r := reqs[r].(responses := reqs[r].responses + [Replies(cfg, r)[k.given]])];
      && Written(cfg, reqs', Work(k.writer), k.received)
      && WriterState(reqs', k.received, k.stub, k.writer, k.closed, k.cause, k.blamed, k.served)
      && Covering(cfg, reqs', k.writer)
      && Marks(reqs', k.received, k.closed, k.writer)
      && StubShape(cfg, reqs', k.received, k.stub)
  {
    hide Answers, Delivered, Fifo, Distinct, WireShape, TornDown, Apart, Causes, Custody, Progress, Written,
      WriterState, Covering, Marks, StubShape;
    assert k.received[k.answering] in k.received;
    ReplyWritten(cfg, reqs, k);
    ReplyMarked(cfg, reqs, k);
    ReplyMarks(cfg, reqs, k);
  }

  lemma ReplyWritten(cfg: Config, reqs: seq<Request>, k: Conn)
    requires k.answering < |k.received| && k.received[k.answering] < |reqs|
    requires k.given < |Replies(cfg, k.received[k.answering])|
    requires Written(cfg, reqs, Work(k.writer), k.received)
    ensures
      var r := k.received[k.answering];
      var reqs' := reqs[r := reqs[r].(responses := reqs[r].responses + [Replies(cfg, r)[k.given]])];
      Written(cfg, reqs', Work(k.writer), k.received)
  {
    assert k.received[k.answering] in k.received;
  }

  lemma ReplyMarked(cfg: Config, reqs: seq<Request>, k: Conn)
    requires k.answering < |k.received| && k.received[k.answering] < |reqs|
    requires k.given < |Replies(cfg, k.received[k.answering])|
    requires WriterState(reqs, k.received, k.stub, k.writer, k.closed, k.cause, k.blamed, k.served)
    ensures
      var r := k.received[k.answering];
      var reqs' := reqs[r := reqs[r].(responses := reqs[r].responses + [Replies(cfg, r)[k.given]])];
      WriterState(reqs', k.received, k.stub, k.writer, k.closed, k.cause, k.blamed, k.served)
  {
  }

  lemma ReplyMarks(cfg: Config, reqs: seq<Request>, k: Conn)
    requires k.answering < |k.received| && k.received[k.answering] < |reqs|
    requires k.given < |Replies(cfg, k.received[k.answering])|
    requires Covering(cfg, reqs, k.writer) && Marks(reqs, k.received, k.closed, k.writer)
    requires StubShape(cfg, reqs, k.received, k.stub)
    ensures
      var r := k.received[k.answering];
      var reqs' := reqs[r := reqs[r].(responses := reqs[r].responses + [Replies(cfg, r)[k.given]])];
      && Covering(cfg, reqs', k.writer) && Marks(reqs', k.received, k.closed, k.writer)
      && StubShape(cfg, reqs', k.received, k.stub)
  {
  }

  lemma ReplyReader(cfg: Config, reqs: seq<Request>, c: ConnId, k: Conn)
    requires ValidConfig(cfg) && ConnInv(cfg, reqs, c, k) && !k.closed && k.popped.None? && k.inflight != []
    requires k.answering < |k.received| && k.received[k.answering] < |reqs|
    requires k.given < |Replies(cfg, k.received[k.answering])|
    ensures
      var r := k.received[k.answering];
      var reqs' := reqs[r := reqs[r].(responses := reqs[r].responses + [Replies(cfg, r)[k.given]])];
      var k' := ReadConn(cfg, k);
      && Answers(cfg, reqs', k.received, k'.answering, k'.given)
      && Delivered(reqs', k.received, k'.answering, k'.popped)
      && LastAnswered(k'.popped, k.received, k'.answering)
      && reqs'[r].responses <= Replies(cfg, r)
  {
    hide Written, WriterState, Covering, Marks, StubShape, Fifo, WireShape, TornDown, Apart, Causes, Custody,
      Progress, Answers, ValidConfig, Distinct;
    var r := k.received[k.answering];
    NextReply(cfg, reqs, k.received, k.answering, k.given);
    if k.given + 1 == |Replies(cfg, r)| && Fail(cfg, r).None? {
      AnswerEnds(cfg, reqs, k.received, k.answering, k.given);
    } else {
      AnswerGrows(cfg, reqs, k.received, k.answering, k.given);
    }
  }

  lemma NextReply(cfg: Config, reqs: seq<Request>, received: seq<Id>, answering: nat, given: nat)
    requires Answers(cfg, reqs, received, answering, given)
    requires answering < |received| && received[answering] < |reqs| && given < |Replies(cfg, received[answering])|
    ensures
      var r := received[answering];
      reqs[r].responses + [Replies(cfg, r)[given]] == Replies(cfg, r)[..given + 1] <= Replies(cfg, r)
  {
    var r := received[answering];
    assert Answer(cfg, answering, given, answering, r, reqs[r]);
  }

  lemma AnswerGrows(cfg: Config, reqs: seq<Request>, received: seq<Id>, answering: nat, given: nat)
    requires Answers(cfg, reqs, received, answering, given) && Distinct(received)
    requires answering < |received| && received[answering] < |reqs| && given < |Replies(cfg, received[answering])|
    requires !(given + 1 == |Replies(cfg, received[answering])| && Fail(cfg, received[answering]).None?)
    ensures
      var r := received[answering];
      Answers(cfg, reqs[r := reqs[r].(responses := reqs[r].responses + [Replies(cfg, r)[given]])], received, answering, given + 1)
  {
    NextReply(cfg, reqs, received, answering, given);
  }

  lemma AnswerEnds(cfg: Config, reqs: seq<Request>, received: seq<Id>, answering: nat, given: nat)
    requires ValidConfig(cfg) && Answers(cfg, reqs, received, answering, given) && Distinct(received)
    requires answering < |received| && received[answering] < |reqs|
    requires given + 1 == |Replies(cfg, received[answering])| && Fail(cfg, received[answering]).None?
    ensures
      var r := received[answering];
      Answers(cfg, reqs[r := reqs[r].(responses := reqs[r].responses + [Replies(cfg, r)[given]])], received, answering + 1, 0)
  {
    NextReply(cfg, reqs, received, answering, given);
    var r := received[answering];
    assert Replies(cfg, r)[..given + 1] == Replies(cfg, r);
    if answering + 1 < |received| {
      assert Framed(cfg.exchange(received[answering + 1]));
    }
  }

  lemma ReplyState(cfg: Config, reqs: seq<Request>, c: ConnId, k: Conn)
    requires ConnInv(cfg, reqs, c, k) && !k.closed && k.inflight != [] && k.answering < |k.received|
    ensures
      var k' := ReadConn(cfg, k);
      && Fifo(k'.closed, k'.inflight, k'.received, k'.answering, k'.writer)
      && TornDown(k'.closed, k'.cause, k'.tearing, k'.leftover, k'.rehome, k'.served)
      && Causes(cfg, k'.closed, k'.cause, k'.blamed)
      && (k'.popped == Some(k.received[k.answering]) || (!k'.closed && k.received[k.answering] in k'.inflight))
      && Later(k, k')
  {
    hide Answers, Delivered, Written, Covering, StubShape, WireShape, Custody, Progress, Distinct, Marks, WriterState;
    assert k.received[k.answering..] == [k.received[k.answering]] + k.received[k.answering + 1..];
    assert k.inflight == [k.received[k.answering]] + (k.received[k.answering + 1..] + Unsent(k.writer));
  }

  lemma ReplyCovers(cfg: Config, reqs: seq<Request>, c: ConnId, k: Conn)
    requires ConnInv(cfg, reqs, c, k) && !k.closed && k.popped.None? && k.inflight != []
    requires k.answering < |k.received| && k.received[k.answering] < |reqs|
    requires k.given < |Replies(cfg, k.received[k.answering])|
    ensures
      var r := k.received[k.answering];
      StillCovered(reqs[r := reqs[r].(responses := reqs[r].responses + [Replies(cfg, r)[k.given]])], c, k, ReadConn(cfg, k))
  {
    hide Answers, Delivered, Written, WriterState, Covering, Marks, StubShape, WireShape, TornDown, Apart, Causes,
      Custody, Progress, Distinct;
    assert k.inflight == [k.inflight[0]] + k.inflight[1..];
    assert k.inflight[0] == k.received[k.answering];
  }

  // Everything together.
  lemma ReplyWhole(cfg: Config, reqs: seq<Request>, c: ConnId, k: Conn)
    requires ConnInv(cfg, reqs, c, k) && !k.closed && k.popped.None? && k.inflight != []
    requires k.answering < |k.received| && k.received[k.answering] < |reqs|
    requires k.given < |Replies(cfg, k.received[k.answering])|
    requires
      var r := k.received[k.answering];
      var reqs' := reqs[r := reqs[r].(responses := reqs[r].responses + [Replies(cfg, r)[k.given]])];
      var k' := ReadConn(cfg, k);
      && Written(cfg, reqs', Work(k.writer), k.received)
      && WriterState(reqs', k.received, k.stub, k.writer, k.closed, k.cause, k.blamed, k.served)
      && Covering(cfg, reqs', k.writer)
      && Marks(reqs', k.received, k.closed, k.writer)
      && StubShape(cfg, reqs', k.received, k.stub)
      && Answers(cfg, reqs', k.received, k'.answering, k'.given)
      && Delivered(reqs', k.received, k'.answering, k'.popped)
      && LastAnswered(k'.popped, k.received, k'.answering)
      && Fifo(k'.closed, k'.inflight, k'.received, k'.answering, k'.writer)
      && TornDown(k'.closed, k'.cause, k'.tearing, k'.leftover, k'.rehome, k'.served)
      && Causes(cfg, k'.closed, k'.cause, k'.blamed)
    ensures
      var r := k.received[k.answering];
      ConnInv(cfg, reqs[r := reqs[r].(responses := reqs[r].responses + [Replies(cfg, r)[k.given]])], c, ReadConn(cfg, k))
  {
    hide Written, Covering, StubShape, Answers, Delivered, LastAnswered, Fifo, Causes, Custody, Distinct,
      WriterState, Marks, Progress, WireShape, Replies;
    var r := k.received[k.answering];
    var reqs' := reqs[r := reqs[r].(responses := reqs[r].responses + [Replies(cfg, r)[k.given]])];
    var k' := ReadConn(cfg, k);
    PlacesCustody(reqs, reqs', c, k);
    ReadCustody(cfg, reqs', c, k);
    ServedState(reqs', k, k'.closed, k'.served);
    assert Marks(reqs', k.received, k'.closed, k.writer) by { LaterMarks(reqs', k, k'.closed); }
  }

  lemma LaterMarks(reqs: seq<Request>, k: Conn, closed: bool)
    requires Marks(reqs, k.received, k.closed, k.writer) && (k.closed ==> closed)
    ensures Marks(reqs, k.received, closed, k.writer)
  {
  }

  lemma ServedState(reqs: seq<Request>, k: Conn, closed: bool, served: bool)
    requires WriterState(reqs, k.received, k.stub, k.writer, k.closed, k.cause, k.blamed, k.served)
    requires (k.closed ==> closed) && (k.served ==> served)
    ensures WriterState(reqs, k.received, k.stub, k.writer, closed, k.cause, k.blamed, served)
  {
  }

  lemma ReadCustody(cfg: Config, reqs: seq<Request>, c: ConnId, k: Conn)
    requires Custody(reqs, c, k) && k.answering < |k.received| && k.inflight != []
    ensures Custody(reqs, c, ReadConn(cfg, k))
  {
    AllAtTail(reqs, k.inflight, Claimed(c));
    AllAtOne(reqs, k.received, k.answering, Claimed(c));
    hide Custody, Listed, AllAt, OneAt, Within;
    CustodyOf(reqs, c, k, ReadConn(cfg, k));
  }

  lemma CustodyOf(reqs: seq<Request>, c: ConnId, k: Conn, k': Conn)
    requires Custody(reqs, c, k)
    requires k'.pending == k.pending && k'.leftover == k.leftover && k'.drained == k.drained && k'.writer == k.writer
    requires k'.tearing == k.tearing && k'.received == k.received && k'.blamed == k.blamed && k'.stub == k.stub
    requires k'.inflight == k.inflight || AllAt(reqs, k'.inflight, Claimed(c))
    requires k'.popped == k.popped || OneAt(reqs, k'.popped, Claimed(c))
    ensures Custody(reqs, c, k')
  {
    hide Listed, AllAt, OneAt, Within;
  }

  lemma AllAtTail(reqs: seq<Request>, list: seq<Id>, place: Place)
    requires AllAt(reqs, list, place) && list != []
    ensures AllAt(reqs, list[1..], place)
  {
  }

  lemma AllAtOne(reqs: seq<Request>, list: seq<Id>, i: nat, place: Place)
    requires AllAt(reqs, list, place) && i < |list|
    ensures OneAt(reqs, Some(list[i]), place)
  {
  }

  // ---- every event ----

  lemma StepKeeps(cfg: Config, s: State, e: Event)
    requires ValidConfig(cfg) && Inv(cfg, s) && CanStep(cfg, s, e)
    ensures Inv(cfg, Apply(cfg, s, e))
  {
    hide Inv, ValidConfig, WellFormed;
    match e
    case Submit => SubmitStep(cfg, s);
    case Reject(r) => RejectStep(cfg, s, r);
    case Enqueue(r, idle) => EnqueueStep(cfg, s, r, idle);
    case Add => AddStep(cfg, s);
    case Dial(c) => DialStep(cfg, s, c);
    case DialFail(c, code) => DialFailStep(cfg, s, c, code);
    case Claim(c) => ClaimStep(cfg, s, c);
    case WriteByte(c) => WriteByteStep(cfg, s, c);
    case FlushEnd(c, err) => FlushEndStep(cfg, s, c, err);
    case SettleBatch(c) => SettleBatchStep(cfg, s, c);
    case FlushFail(c) => FlushFailStep(cfg, s, c);
    case Rehome(c, afterFlush, idle) => RehomeStep(cfg, s, c, afterFlush, idle);
    case Read(c) => ReadStep(cfg, s, c);
    case ReadFail(c, deadline, code) => ReadFailStep(cfg, s, c, deadline, code);
    case Deliver(c) => DeliverStep(cfg, s, c);
    case CancelQueued(r, deadline) => CancelQueuedStep(cfg, s, r, deadline);
    case CancelWriting(r, deadline) => CancelWritingStep(cfg, s, r, deadline);
    case Expire(r) => ExpireStep(cfg, s, r);
    case SettleLost(c) => SettleLostStep(cfg, s, c);
    case Forget(c) => ForgetStep(cfg, s, c);
    case ClosePool => ClosePoolStep(cfg, s);
    case Drain(c) => DrainStep(cfg, s, c);
    case SettleDrained(c) => SettleDrainedStep(cfg, s, c);
  }
}
