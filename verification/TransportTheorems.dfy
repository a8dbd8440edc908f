// What the transport promises, over every run of every interleaving.
module TransportTheorems {
  import opened Protocol
  import opened Transport
  import opened TransportInvariant
  import opened TransportSteps
  import opened TransportFlow

  // A run: states joined by events, from the empty pool.
  ghost predicate Run(cfg: Config, ss: seq<State>, es: seq<Event>) {
    && |ss| == |es| + 1 && ss[0] == Init
    && forall i :: 0 <= i < |es| ==> Joined(cfg, ss[i], es[i], ss[i + 1])
  }

  ghost predicate Joined(cfg: Config, s: State, e: Event, s': State) {
    CanStep(cfg, s, e) && s' == Apply(cfg, s, e)
  }

  lemma {:induction false} RunInv(cfg: Config, ss: seq<State>, es: seq<Event>, i: nat)
    requires ValidConfig(cfg) && Run(cfg, ss, es) && i < |ss|
    ensures Inv(cfg, ss[i])
  {
    if i == 0 {
      hide ValidConfig;
    } else {
      hide Inv, ValidConfig, CanStep;
      RunInv(cfg, ss, es, i - 1);
      assert Joined(cfg, ss[i - 1], es[i - 1], ss[i]);
      StepKeeps(cfg, ss[i - 1], es[i - 1]);
    }
  }

  // ---- correlation ----

  // A request settled without error holds exactly the server's answer to its
  // own payload, and a settled request never holds a reply to another one.
  lemma FifoCorrelation(cfg: Config, ss: seq<State>, es: seq<Event>, i: nat, r: Id)
    requires ValidConfig(cfg) && Run(cfg, ss, es) && i < |ss| && r < |ss[i].reqs|
    requires ss[i].reqs[r].outcome.Some?
    ensures
      var o := ss[i].reqs[r].outcome.value;
      && o.responses <= Replies(cfg, r)
      && (o.err.None? ==> o.responses == Replies(cfg, r) && Fail(cfg, r).None?)
  {
    hide Inv, Homes, Covered;
    RunInv(cfg, ss, es, i);
    ReqOf(cfg, ss[i], r);
  }

  // The slots of a live connection: its in-flight list is exactly what the wire
  // carries and the server has not answered, whether or not the callers are
  // still there, so the next reply always belongs to the head.
  lemma SlotsFollowTheWire(cfg: Config, ss: seq<State>, es: seq<Event>, i: nat, c: ConnId)
    requires ValidConfig(cfg) && Run(cfg, ss, es) && i < |ss| && c < |ss[i].conns|
    ensures
      var k := ss[i].conns[c];
      && k.wire == Flat(cfg, k.received) + k.stub
      && k.answering <= |k.received|
      && (!k.closed && k.answering < |k.received| ==>
            k.inflight != [] && k.inflight[0] == k.received[k.answering])
      && (!k.closed && !k.writer.Sending? ==> k.inflight == k.received[k.answering..])
  {
    hide Inv, Custody, Answers, Delivered, Written, WriterState, Covering, Marks, StubShape, Distinct, TornDown,
      Apart, Causes, Progress;
    RunInv(cfg, ss, es, i);
    ConnOf(cfg, ss[i], c);
  }

  // ---- at most once on the wire ----

  // No byte of a request is written twice, and all of them go to one connection.
  lemma AtMostOnce(cfg: Config, ss: seq<State>, es: seq<Event>, i: nat, c1: ConnId, p1: nat, c2: ConnId, p2: nat)
    requires ValidConfig(cfg) && Run(cfg, ss, es) && i < |ss|
    requires c1 < |ss[i].conns| && p1 < |ss[i].conns[c1].wire|
    requires c2 < |ss[i].conns| && p2 < |ss[i].conns[c2].wire|
    requires ss[i].conns[c1].wire[p1].req == ss[i].conns[c2].wire[p2].req
    ensures c1 == c2
    ensures ss[i].conns[c1].wire[p1].off == ss[i].conns[c2].wire[p2].off ==> p1 == p2
  {
    hide Inv, ConnInv;
    RunInv(cfg, ss, es, i);
    ConnOf(cfg, ss[i], c1);
    ConnOf(cfg, ss[i], c2);
    WireOwned(cfg, ss[i].reqs, c1, ss[i].conns[c1], p1);
    WireOwned(cfg, ss[i].reqs, c2, ss[i].conns[c2], p2);
    if c1 == c2 && ss[i].conns[c1].wire[p1] == ss[i].conns[c2].wire[p2] {
      WireDistinct(cfg, ss[i].reqs, c1, ss[i].conns[c1], p1, p2);
    }
  }

  // A byte on a wire belongs to a request its connection claimed, and is one of
  // those counted as sent.
  lemma WireOwned(cfg: Config, reqs: seq<Request>, c: ConnId, k: Conn, p: nat)
    requires ConnInv(cfg, reqs, c, k) && p < |k.wire|
    ensures
      var b := k.wire[p];
      b.req < |reqs| && reqs[b.req].place == Claimed(c) && b.off < reqs[b.req].sent <= Len(cfg, b.req)
  {
    hide Delivered, Written, WriterState, Covering, Marks, Distinct, TornDown, Apart, Causes, Progress, Fifo, Listed;
    if p < |Flat(cfg, k.received)| {
      FlatMember(cfg, k.received, p);
      var i :| 0 <= i < |k.received| && k.received[i] == k.wire[p].req;
      assert Answer(cfg, k.answering, k.given, i, k.received[i], reqs[k.received[i]]);
    }
  }

  lemma {:induction false} FlatMember(cfg: Config, rs: seq<Id>, p: nat)
    requires p < |Flat(cfg, rs)|
    ensures Flat(cfg, rs)[p].req in rs && Flat(cfg, rs)[p].off < Len(cfg, Flat(cfg, rs)[p].req)
  {
    var front := rs[..|rs| - 1];
    if p < |Flat(cfg, front)| {
      FlatMember(cfg, front, p);
    }
  }

  lemma WireDistinct(cfg: Config, reqs: seq<Request>, c: ConnId, k: Conn, p1: nat, p2: nat)
    requires ConnInv(cfg, reqs, c, k) && p1 < |k.wire| && p2 < |k.wire| && k.wire[p1] == k.wire[p2]
    ensures p1 == p2
  {
    hide Custody, Answers, Delivered, Written, WriterState, Covering, Marks, TornDown, Apart, Causes, Progress, Fifo;
    var flat := Flat(cfg, k.received);
    if p1 < |flat| { FlatMember(cfg, k.received, p1); }
    if p2 < |flat| { FlatMember(cfg, k.received, p2); }
    if p1 < |flat| && p2 < |flat| {
      FlatDistinct(cfg, k.received, p1, p2);
    }
  }

  lemma {:induction false} FlatDistinct(cfg: Config, rs: seq<Id>, p1: nat, p2: nat)
    requires Distinct(rs) && p1 < |Flat(cfg, rs)| && p2 < |Flat(cfg, rs)|
    requires Flat(cfg, rs)[p1] == Flat(cfg, rs)[p2]
    ensures p1 == p2
  {
    var front := rs[..|rs| - 1];
    if p1 < |Flat(cfg, front)| { FlatMember(cfg, front, p1); }
    if p2 < |Flat(cfg, front)| { FlatMember(cfg, front, p2); }
    if p1 < |Flat(cfg, front)| && p2 < |Flat(cfg, front)| {
      FlatDistinct(cfg, front, p1, p2);
    }
  }

  // ---- the outcome ----

  // A settled request stays settled, with the outcome it got first; its done
  // channel is closed at most once.
  ghost predicate StaysSettled(s: State, s': State, r: Id) {
    r < |s.reqs| && s.reqs[r].phase.Done? ==>
      && r < |s'.reqs| && s'.reqs[r].phase.Done?
      && s'.reqs[r].outcome == s.reqs[r].outcome && s'.reqs[r].closes == s.reqs[r].closes
  }

  // An event that neither settles nor cancels leaves a claimed or settled
  // request's fate as it is.
  ghost predicate Untouched(s: State, s': State, r: Id) {
    r < |s.reqs| && !s.reqs[r].phase.Queued? ==>
      && r < |s'.reqs| && s'.reqs[r].phase == s.reqs[r].phase
      && s'.reqs[r].outcome == s.reqs[r].outcome && s'.reqs[r].closes == s.reqs[r].closes
  }

  lemma StepSettlesOnce(cfg: Config, s: State, e: Event, r: Id)
    requires CanStep(cfg, s, e)
    ensures StaysSettled(s, Apply(cfg, s, e), r)
  {
    hide WellFormed, ApplyRead, ApplyRehome, ApplySettleBatch, Teardown, ApplyFlushEnd, ApplyWriteByte, ApplyClaim,
      Hold;
    match e
    case Read(c) => SettledRead(cfg, s, c, r);
    case Rehome(c, afterFlush, idle) => SettledRehome(cfg, s, c, afterFlush, idle, r);
    case SettleBatch(c) => SettledBatch(cfg, s, c, r);
    case FlushFail(c) => SettledFlushFail(s, c, r);
    case DialFail(c, code) => SettledTeardown(s, c, Wire(code), false, r);
    case ReadFail(c, deadline, code) => SettledTeardown(s, c, if deadline then Deadline else Wire(code), true, r);
    case Expire(x) => SettledExpire(s, x, r);
    case Enqueue(x, idle) => SettledHold(cfg, s, x, idle, r);
    case Claim(c) => SettledClaim(s, c, r);
    case WriteByte(c) => SettledWrite(cfg, s, c, r);
    case FlushEnd(c, err) => SettledEnd(s, c, if err.Some? then Some(Wire(err.value)) else None, r);
    case _ => SettledOther(cfg, s, e, r);
  }

  lemma SettledTeardown(s: State, c: ConnId, cause: Error, headSaw: bool, r: Id)
    requires c < |s.conns|
    ensures Untouched(s, Teardown(s, c, cause, headSaw), r)
  {
  }

  lemma SettledRead(cfg: Config, s: State, c: ConnId, r: Id)
    requires CanStep(cfg, s, Read(c))
    ensures Untouched(s, ApplyRead(cfg, s, c), r)
  {
    assert ListsExist(s.reqs, s.conns[c]);
    hide WellFormed, ListsExist;
  }

  lemma SettledHold(cfg: Config, s: State, x: Id, idle: set<ConnId>, r: Id)
    requires WellFormed(s) && x < |s.reqs|
    ensures Untouched(s, Hold(cfg, s, x, idle), r)
  {
    hide PickLocked, ListsExist, PlaceExists;
  }

  lemma SettledRehome(cfg: Config, s: State, c: ConnId, afterFlush: bool, idle: set<ConnId>, r: Id)
    requires CanStep(cfg, s, Rehome(c, afterFlush, idle))
    ensures Untouched(s, ApplyRehome(cfg, s, c, afterFlush, idle), r)
  {
    assert ListsExist(s.reqs, s.conns[c]);
    hide PickLocked, ListsExist;
  }

  lemma SettledBatch(cfg: Config, s: State, c: ConnId, r: Id)
    requires CanStep(cfg, s, SettleBatch(c))
    ensures StaysSettled(s, ApplySettleBatch(cfg, s, c), r)
  {
    assert ListsExist(s.reqs, s.conns[c]);
    hide ListsExist;
  }

  lemma SettledFlushFail(s: State, c: ConnId, r: Id)
    requires c < |s.conns| && s.conns[c].writer.Settling?
    ensures Untouched(s, ApplyFlushFail(s, c), r)
  {
    hide Teardown;
    var w := s.conns[c].writer;
    if w.seen.err.Some? {
      SettledTeardown(s, c, w.seen.err.value, false, r);
    }
  }

  lemma SettledExpire(s: State, x: Id, r: Id)
    requires WellFormed(s) && x < |s.reqs| && s.reqs[x].place.Claimed?
    ensures Untouched(s, ApplyExpire(s, x), r)
  {
    hide Teardown, OldestLive, ListsExist;
    var t := s.(reqs := s.reqs[x := s.reqs[x].(expiring := false)]);
    SettledTeardown(t, s.reqs[x].place.c, Deadline, true, r);
  }

  lemma SettledClaim(s: State, c: ConnId, r: Id)
    requires WellFormed(s) && c < |s.conns|
    ensures Untouched(s, ApplyClaim(s, c), r)
  {
    assert ListsExist(s.reqs, s.conns[c]);
    hide Live, WellFormed;
  }

  lemma SettledWrite(cfg: Config, s: State, c: ConnId, r: Id)
    requires CanStep(cfg, s, WriteByte(c))
    ensures Untouched(s, ApplyWriteByte(cfg, s, c), r)
  {
    assert ListsExist(s.reqs, s.conns[c]);
    hide WellFormed;
  }

  lemma SettledEnd(s: State, c: ConnId, err: Option<Error>, r: Id)
    requires WellFormed(s) && c < |s.conns| && s.conns[c].writer.Sending?
    ensures Untouched(s, ApplyFlushEnd(s, c, err), r)
  {
    assert ListsExist(s.reqs, s.conns[c]);
    hide WellFormed;
  }

  lemma SettledOther(cfg: Config, s: State, e: Event, r: Id)
    requires CanStep(cfg, s, e)
    requires !e.Read? && !e.Rehome? && !e.SettleBatch? && !e.FlushFail? && !e.DialFail? && !e.ReadFail?
    requires !e.Expire? && !e.Enqueue? && !e.Claim? && !e.WriteByte? && !e.FlushEnd?
    ensures StaysSettled(s, Apply(cfg, s, e), r)
  {
    hide PlaceExists, Without;
  }

  lemma {:induction false} SettledForever(cfg: Config, ss: seq<State>, es: seq<Event>, i: nat, j: nat, r: Id)
    requires ValidConfig(cfg) && Run(cfg, ss, es) && i <= j < |ss| && r < |ss[i].reqs|
    requires ss[i].reqs[r].phase.Done?
    ensures r < |ss[j].reqs| && ss[j].reqs[r].phase.Done?
    ensures ss[j].reqs[r].outcome == ss[i].reqs[r].outcome && ss[i].reqs[r].outcome.Some?
    ensures ss[j].reqs[r].closes == ss[i].reqs[r].closes <= 1
    decreases j - i
  {
    hide Inv, CanStep, Apply;
    RunInv(cfg, ss, es, i);
    ReqOf(cfg, ss[i], r);
    if i < j {
      SettledForever(cfg, ss, es, i, j - 1, r);
      assert Joined(cfg, ss[j - 1], es[j - 1], ss[j]);
      StepSettlesOnce(cfg, ss[j - 1], es[j - 1], r);
    }
  }

  // The written count a caller was given covers every byte of the request that
  // is on any wire, then or at any later time; a count of 0 means there is none
  // and never will be.
  lemma WrittenIsHonest(cfg: Config, ss: seq<State>, es: seq<Event>, i: nat, j: nat, r: Id, c: ConnId, p: nat)
    requires ValidConfig(cfg) && Run(cfg, ss, es) && i <= j < |ss| && r < |ss[i].reqs|
    requires ss[i].reqs[r].outcome.Some?
    requires c < |ss[j].conns| && p < |ss[j].conns[c].wire| && ss[j].conns[c].wire[p].req == r
    ensures ss[j].conns[c].wire[p].off < ss[i].reqs[r].outcome.value.written
  {
    hide Inv, ConnInv, Homes, Covered;
    RunInv(cfg, ss, es, i);
    RunInv(cfg, ss, es, j);
    ReqOf(cfg, ss[i], r);
    SettledForever(cfg, ss, es, i, j, r);
    ReqOf(cfg, ss[j], r);
    ConnOf(cfg, ss[j], c);
    WireOwned(cfg, ss[j].reqs, c, ss[j].conns[c], p);
  }

  // ---- teardown and flush divide a dying connection's requests ----

  // What the writer will still complete or requeue.
  ghost function WriterTodo(w: Writer): seq<Id> {
    match w
    case Sending(f) => f.batch
    case Settling(f, seen, _) => Unsettled(f, seen)
    case _ => []
  }

  // No gap and no overlap: on a closed connection every request it still holds
  // and nobody has settled is in the hands of teardown's loop, of the writer, or
  // of the reader; never of teardown's loop and another one.
  lemma NoGapNoOverlap(cfg: Config, ss: seq<State>, es: seq<Event>, i: nat, c: ConnId, r: Id)
    requires ValidConfig(cfg) && Run(cfg, ss, es) && i < |ss| && c < |ss[i].conns| && r < |ss[i].reqs|
    requires ss[i].conns[c].closed && ss[i].reqs[r].place == Claimed(c) && ss[i].reqs[r].phase.Writing?
    ensures
      var k := ss[i].conns[c];
      var torn := r in k.tearing && ss[i].reqs[r].onWire;
      var writers := r in WriterTodo(k.writer);
      var readers := k.popped == Some(r);
      && (torn || writers || readers)
      && !(torn && (writers || readers))
      && (readers ==> ss[i].reqs[r].responses == Replies(cfg, r) && Fail(cfg, r).None?)
  {
    hide Inv, Custody, Delivered, Written, Covering, Marks, StubShape, Distinct, TornDown, Causes, Progress, Fifo,
      WireShape;
    RunInv(cfg, ss, es, i);
    ConnOf(cfg, ss[i], c);
    WritingCovered(cfg, ss[i], r, c);
    var k := ss[i].conns[c];
    if k.popped == Some(r) {
      assert Answer(cfg, k.answering, k.given, k.answering - 1, r, ss[i].reqs[r]);
    }
  }

  // Once the loops are over nothing is left behind.
  lemma NothingLeftBehind(cfg: Config, ss: seq<State>, es: seq<Event>, i: nat, c: ConnId, r: Id)
    requires ValidConfig(cfg) && Run(cfg, ss, es) && i < |ss| && c < |ss[i].conns| && r < |ss[i].reqs|
    requires ss[i].conns[c].closed && (ss[i].conns[c].writer.Idle? || ss[i].conns[c].writer.Rehoming?)
    requires ss[i].conns[c].tearing == [] && ss[i].conns[c].popped.None?
    requires ss[i].reqs[r].place == Claimed(c)
    ensures ss[i].reqs[r].phase.Done? && ss[i].reqs[r].outcome.Some?
  {
    hide Inv, Homes;
    RunInv(cfg, ss, es, i);
    ReqOf(cfg, ss[i], r);
    if ss[i].reqs[r].phase.Writing? {
      NoGapNoOverlap(cfg, ss, es, i, c, r);
      assert false;
    }
  }

  ghost predicate Carries(wire: seq<WireByte>, r: Id) {
    exists p :: 0 <= p < |wire| && wire[p].req == r
  }

  // Only a request with no byte on any wire goes back to the queue.
  lemma OnlyUnwrittenGoBack(cfg: Config, ss: seq<State>, es: seq<Event>, i: nat, r: Id, c: ConnId)
    requires ValidConfig(cfg) && Run(cfg, ss, es) && i < |es| && r < |ss[i].reqs| && c < |ss[i + 1].conns|
    requires ss[i].reqs[r].phase.Writing? && r < |ss[i + 1].reqs| && ss[i + 1].reqs[r].phase.Queued?
    ensures ss[i + 1].reqs[r].sent == 0 && ss[i + 1].reqs[r].responses == []
    ensures !Carries(ss[i + 1].conns[c].wire, r)
  {
    hide Inv, Homes, CanStep, Apply, ConnInv, Covered, OutcomeInv, Joined;
    RunInv(cfg, ss, es, i + 1);
    ReqOf(cfg, ss[i + 1], r);
    if Carries(ss[i + 1].conns[c].wire, r) {
      var p :| 0 <= p < |ss[i + 1].conns[c].wire| && ss[i + 1].conns[c].wire[p].req == r;
      ConnOf(cfg, ss[i + 1], c);
      WireOwned(cfg, ss[i + 1].reqs, c, ss[i + 1].conns[c], p);
    }
  }

  // ---- blame and ambiguity ----

  // Two whole written requests that both received an unwrapped cause received
  // it from two different teardowns.
  lemma BlameIsUnique(cfg: Config, ss: seq<State>, es: seq<Event>, i: nat, r1: Id, r2: Id)
    requires ValidConfig(cfg) && Run(cfg, ss, es) && i < |ss| && r1 < |ss[i].reqs| && r2 < |ss[i].reqs| && r1 != r2
    requires RawCause(cfg, r1, ss[i].reqs[r1]) && RawCause(cfg, r2, ss[i].reqs[r2])
    ensures exists c1, c2 ::
      && 0 <= c1 < |ss[i].conns| && 0 <= c2 < |ss[i].conns| && c1 != c2
      && ss[i].conns[c1].blamed == Some(r1) && ss[i].conns[c2].blamed == Some(r2)
  {
    hide Inv, Homes, Covered, OutcomeInv, RawCause;
    RunInv(cfg, ss, es, i);
    ReqOf(cfg, ss[i], r1);
    ReqOf(cfg, ss[i], r2);
    var c1 :| 0 <= c1 < |ss[i].conns| && ss[i].conns[c1].blamed == Some(r1);
    var c2 :| 0 <= c2 < |ss[i].conns| && ss[i].conns[c2].blamed == Some(r2);
    assert c1 != c2;
  }

  // A connection is blamed on one request at most, and that is the one at the
  // head of its in-flight list when it is torn down.
  ghost predicate BlamesHead(k: Conn, k': Conn) {
    || k'.blamed == k.blamed
    || (k.blamed.None? && !k.closed && k'.closed && k.inflight != [] && k'.blamed == Some(k.inflight[0]))
  }

  lemma BlamedIsTheHead(cfg: Config, ss: seq<State>, es: seq<Event>, i: nat, c: ConnId)
    requires ValidConfig(cfg) && Run(cfg, ss, es) && i < |es| && c < |ss[i].conns|
    ensures c < |ss[i + 1].conns| && BlamesHead(ss[i].conns[c], ss[i + 1].conns[c])
  {
    hide Inv, CanStep, Apply, BlamesHead, ValidConfig;
    assert Joined(cfg, ss[i], es[i], ss[i + 1]);
    RunInv(cfg, ss, es, i);
    StepBlames(cfg, ss[i], es[i], c);
  }

  lemma StepBlames(cfg: Config, s: State, e: Event, c: ConnId)
    requires Inv(cfg, s) && CanStep(cfg, s, e) && c < |s.conns|
    ensures c < |Apply(cfg, s, e).conns| && BlamesHead(s.conns[c], Apply(cfg, s, e).conns[c])
  {
    hide Inv, WellFormed, BlamesHead, ApplyRead, ApplyRehome, ApplySettleBatch, Teardown, ApplyFlushEnd,
      ApplyWriteByte, ApplyClaim, Hold;
    OpenUnblamed(cfg, s, c);
    match e
    case Read(x) => ReadBlames(cfg, s, x, c);
    case Rehome(x, afterFlush, idle) => RehomeBlames(cfg, s, x, afterFlush, idle, c);
    case FlushFail(x) => FlushFailBlames(s, x, c);
    case DialFail(x, code) => TeardownBlames(s, x, Wire(code), false, c);
    case ReadFail(x, deadline, code) => TeardownBlames(s, x, if deadline then Deadline else Wire(code), true, c);
    case Expire(r) => ExpireBlames(s, r, c);
    case Enqueue(r, idle) => HoldBlames(cfg, s, r, idle, c);
    case Claim(x) => ClaimBlames(s, x, c);
    case WriteByte(x) => WriteBlames(cfg, s, x, c);
    case FlushEnd(x, err) => EndBlames(s, x, if err.Some? then Some(Wire(err.value)) else None, c);
    case SettleBatch(x) => BatchBlames(cfg, s, x, c);
    case _ => OtherBlames(cfg, s, e, c);
  }

  // A live connection blames nobody yet.
  lemma OpenUnblamed(cfg: Config, s: State, x: ConnId)
    requires Inv(cfg, s) && x < |s.conns|
    ensures Unblamed(s.conns[x])
  {
    hide Inv, Custody, Answers, Delivered, Written, WriterState, Covering, Marks, StubShape, Distinct, Apart, Fifo,
      Progress, TornDown, WireShape;
    ConnOf(cfg, s, x);
  }

  predicate Unblamed(k: Conn) { !k.closed ==> k.blamed.None? }

  lemma TeardownBlames(s: State, x: ConnId, cause: Error, headSaw: bool, c: ConnId)
    requires x < |s.conns| && c < |s.conns| && Unblamed(s.conns[c])
    ensures |Teardown(s, x, cause, headSaw).conns| == |s.conns|
    ensures BlamesHead(s.conns[c], Teardown(s, x, cause, headSaw).conns[c])
  {
    hide MoveAll;
  }

  lemma ReadBlames(cfg: Config, s: State, x: ConnId, c: ConnId)
    requires WellFormed(s) && x < |s.conns| && s.conns[x].answering < |s.conns[x].received|
    requires c < |s.conns| && Unblamed(s.conns[c])
    ensures |ApplyRead(cfg, s, x).conns| == |s.conns| && BlamesHead(s.conns[c], ApplyRead(cfg, s, x).conns[c])
  {
    hide Teardown, WellFormed, ListsExist;
    var sender := s.conns[x].received[s.conns[x].answering];
    if s.conns[x].given >= |Replies(cfg, sender)| {
      if Fail(cfg, sender).Some? { TeardownBlames(s, x, FromServer(Fail(cfg, sender).value), true, c); }
    } else if s.conns[x].inflight == [] {
      TeardownBlames(s, x, Wire(0), true, c);
    } else {
      ReplyBlames(cfg, s, x, c);
    }
  }

  lemma ReplyBlames(cfg: Config, s: State, x: ConnId, c: ConnId)
    requires x < |s.conns| && s.conns[x].answering < |s.conns[x].received| && WellFormed(s) && c < |s.conns|
    requires s.conns[x].inflight != [] && s.conns[x].given < |Replies(cfg, s.conns[x].received[s.conns[x].answering])|
    ensures |ApplyRead(cfg, s, x).conns| == |s.conns| && ApplyRead(cfg, s, x).conns[c].blamed == s.conns[c].blamed
  {
    hide Teardown, WellFormed;
  }

  lemma HoldBlames(cfg: Config, s: State, r: Id, idle: set<ConnId>, c: ConnId)
    requires WellFormed(s) && r < |s.reqs| && c < |s.conns|
    ensures |s.conns| <= |Hold(cfg, s, r, idle).conns| && BlamesHead(s.conns[c], Hold(cfg, s, r, idle).conns[c])
  {
    hide WellFormed, Survivors, LeastLoaded, Load;
  }

  lemma RehomeBlames(cfg: Config, s: State, x: ConnId, afterFlush: bool, idle: set<ConnId>, c: ConnId)
    requires CanStep(cfg, s, Rehome(x, afterFlush, idle)) && c < |s.conns|
    ensures |s.conns| <= |ApplyRehome(cfg, s, x, afterFlush, idle).conns|
    ensures BlamesHead(s.conns[c], ApplyRehome(cfg, s, x, afterFlush, idle).conns[c])
  {
    hide Survivors, LeastLoaded, Load, ListsExist, PlaceExists;
  }

  lemma FlushFailBlames(s: State, x: ConnId, c: ConnId)
    requires x < |s.conns| && s.conns[x].writer.Settling? && c < |s.conns| && Unblamed(s.conns[c])
    ensures |ApplyFlushFail(s, x).conns| == |s.conns| && BlamesHead(s.conns[c], ApplyFlushFail(s, x).conns[c])
  {
    hide Teardown;
    var w := s.conns[x].writer;
    if w.seen.err.Some? { TeardownBlames(s, x, w.seen.err.value, false, c); }
  }

  lemma ExpireBlames(s: State, r: Id, c: ConnId)
    requires WellFormed(s) && r < |s.reqs| && s.reqs[r].place.Claimed? && c < |s.conns| && Unblamed(s.conns[c])
    ensures |ApplyExpire(s, r).conns| == |s.conns| && BlamesHead(s.conns[c], ApplyExpire(s, r).conns[c])
  {
    hide Teardown, OldestLive, ListsExist;
    var t := s.(reqs := s.reqs[r := s.reqs[r].(expiring := false)]);
    TeardownBlames(t, s.reqs[r].place.c, Deadline, true, c);
  }

  lemma ClaimBlames(s: State, x: ConnId, c: ConnId)
    requires WellFormed(s) && x < |s.conns| && c < |s.conns|
    ensures |ApplyClaim(s, x).conns| == |s.conns| && BlamesHead(s.conns[c], ApplyClaim(s, x).conns[c])
  {
    hide WellFormed, Live, ClaimAll;
  }

  lemma WriteBlames(cfg: Config, s: State, x: ConnId, c: ConnId)
    requires CanStep(cfg, s, WriteByte(x)) && c < |s.conns|
    ensures |ApplyWriteByte(cfg, s, x).conns| == |s.conns| && BlamesHead(s.conns[c], ApplyWriteByte(cfg, s, x).conns[c])
  {
    hide WellFormed;
  }

  lemma EndBlames(s: State, x: ConnId, err: Option<Error>, c: ConnId)
    requires WellFormed(s) && x < |s.conns| && s.conns[x].writer.Sending? && c < |s.conns|
    ensures |ApplyFlushEnd(s, x, err).conns| == |s.conns| && BlamesHead(s.conns[c], ApplyFlushEnd(s, x, err).conns[c])
  {
    hide WellFormed, MarkAll;
  }

  lemma BatchBlames(cfg: Config, s: State, x: ConnId, c: ConnId)
    requires CanStep(cfg, s, SettleBatch(x)) && c < |s.conns|
    ensures |ApplySettleBatch(cfg, s, x).conns| == |s.conns|
    ensures BlamesHead(s.conns[c], ApplySettleBatch(cfg, s, x).conns[c])
  {
    hide WellFormed, GoesBack, SettleWritten;
  }

  lemma OtherBlames(cfg: Config, s: State, e: Event, c: ConnId)
    requires CanStep(cfg, s, e) && c < |s.conns|
    requires !e.Read? && !e.Rehome? && !e.SettleBatch? && !e.FlushFail? && !e.DialFail? && !e.ReadFail?
    requires !e.Expire? && !e.Enqueue? && !e.Claim? && !e.WriteByte? && !e.FlushEnd?
    ensures c < |Apply(cfg, s, e).conns| && BlamesHead(s.conns[c], Apply(cfg, s, e).conns[c])
  {
    hide PlaceExists, Without, MoveAll;
  }

  datatype Report = Succeeded | Definite(err: Error) | Ambiguous(err: Error)

  // executeMeta's reading of an exchange (client.go:181-194).
  function ReportOf(o: Outcome, len: nat, sideEffect: bool): Report {
    if o.err.None? then Succeeded
    else if o.err.value.FromServer? then Definite(o.err.value)
    else if o.written == len && sideEffect then Ambiguous(o.err.value)
    else Definite(o.err.value)
  }

  // A side-effecting command is reported as ambiguous exactly when its whole
  // payload may have reached the server and no reply of its own decides: never
  // when the server answered it with an error line, always otherwise. And a
  // command reported as definite was either answered by its own error line or
  // is never completely on a wire.
  lemma AmbiguityIsHonest(cfg: Config, ss: seq<State>, es: seq<Event>, i: nat, j: nat, r: Id)
    requires ValidConfig(cfg) && Run(cfg, ss, es) && i <= j < |ss| && r < |ss[i].reqs| && ss[i].reqs[r].outcome.Some?
    ensures
      var o := ss[i].reqs[r].outcome.value;
      var report := ReportOf(o, Len(cfg, r), true);
      && r < |ss[j].reqs|
      && (report.Succeeded? ==> o.responses == Replies(cfg, r))
      && (report.Ambiguous? <==>
            o.err.Some? && o.written == Len(cfg, r) && !(o.err.value.FromServer? && Fail(cfg, r) == Some(o.err.value.error)))
      && (report.Definite? ==>
            (o.err.value.FromServer? && Fail(cfg, r) == Some(o.err.value.error)) || ss[j].reqs[r].sent < Len(cfg, r))
  {
    hide Inv, Homes, Covered;
    RunInv(cfg, ss, es, i);
    RunInv(cfg, ss, es, j);
    ReqOf(cfg, ss[i], r);
    SettledForever(cfg, ss, es, i, j, r);
    ReqOf(cfg, ss[j], r);
  }

  // ---- an answer in the reader's hands ----

  // The events that can settle a request that was claimed.
  ghost predicate Settles(s: State, e: Event, r: Id) {
    r < |s.reqs| &&
    match e
    case Deliver(c) => c < |s.conns| && s.conns[c].popped == Some(r)
    case CancelWriting(x, _) => x == r
    case SettleBatch(c) =>
      && c < |s.conns| && s.conns[c].writer.Settling?
      && s.conns[c].writer.left.batch != [] && s.conns[c].writer.left.batch[0] == r
    case SettleLost(c) => c < |s.conns| && s.conns[c].tearing != [] && s.conns[c].tearing[0] == r && s.reqs[r].onWire
    case _ => false
  }

  lemma WhoSettles(cfg: Config, s: State, e: Event, r: Id)
    requires Inv(cfg, s) && CanStep(cfg, s, e) && r < |s.reqs| && s.reqs[r].phase.Writing?
    requires r < |Apply(cfg, s, e).reqs| && Apply(cfg, s, e).reqs[r].phase.Done?
    ensures Settles(s, e, r)
  {
    hide Inv, WellFormed, ApplyRead, ApplyRehome, ApplySettleBatch, Teardown, ApplyFlushEnd, ApplyWriteByte,
      ApplyClaim, Hold;
    match e
    case Read(c) => SettledRead(cfg, s, c, r);
    case Rehome(c, afterFlush, idle) => SettledRehome(cfg, s, c, afterFlush, idle, r);
    case SettleBatch(c) => BatchSettles(cfg, s, c, r);
    case FlushFail(c) => SettledFlushFail(s, c, r);
    case DialFail(c, code) => SettledTeardown(s, c, Wire(code), false, r);
    case ReadFail(c, deadline, code) => SettledTeardown(s, c, if deadline then Deadline else Wire(code), true, r);
    case Expire(x) => SettledExpire(s, x, r);
    case Enqueue(x, idle) => SettledHold(cfg, s, x, idle, r);
    case Claim(c) => SettledClaim(s, c, r);
    case WriteByte(c) => SettledWrite(cfg, s, c, r);
    case FlushEnd(c, err) => SettledEnd(s, c, if err.Some? then Some(Wire(err.value)) else None, r);
    case SettleDrained(c) => DrainedUnclaimed(cfg, s, c, r);
    case _ => OtherSettles(cfg, s, e, r);
  }

  lemma BatchSettles(cfg: Config, s: State, c: ConnId, r: Id)
    requires CanStep(cfg, s, SettleBatch(c)) && r < |s.reqs|
    requires ApplySettleBatch(cfg, s, c).reqs[r] != s.reqs[r]
    ensures Settles(s, SettleBatch(c), r)
  {
    assert ListsExist(s.reqs, s.conns[c]);
    hide ListsExist;
  }

  lemma DrainedUnclaimed(cfg: Config, s: State, c: ConnId, r: Id)
    requires Inv(cfg, s) && c < |s.conns| && s.conns[c].drained != [] && r < |s.reqs| && s.reqs[r].phase.Writing?
    ensures s.conns[c].drained[0] != r
  {
    hide Inv, ConnInv, Covered, Homes, OutcomeInv;
    ConnOf(cfg, s, c);
    ReqOf(cfg, s, r);
    DrainedPlace(cfg, s.reqs, c, s.conns[c]);
  }

  lemma DrainedPlace(cfg: Config, reqs: seq<Request>, c: ConnId, k: Conn)
    requires ConnInv(cfg, reqs, c, k) && k.drained != []
    ensures k.drained[0] < |reqs| && reqs[k.drained[0]].place == Drained(c)
  {
    hide Answers, Delivered, Written, WriterState, Covering, Marks, StubShape, Distinct, Apart, Fifo, Progress;
  }

  lemma OtherSettles(cfg: Config, s: State, e: Event, r: Id)
    requires CanStep(cfg, s, e) && r < |s.reqs| && s.reqs[r].phase.Writing?
    requires !e.Read? && !e.Rehome? && !e.SettleBatch? && !e.FlushFail? && !e.DialFail? && !e.ReadFail?
    requires !e.Expire? && !e.Enqueue? && !e.Claim? && !e.WriteByte? && !e.FlushEnd? && !e.SettleDrained?
    requires Apply(cfg, s, e).reqs[r].phase.Done?
    ensures Settles(s, e, r)
  {
    hide PlaceExists, Without;
  }

  // A request whose whole answer the reader has taken off the wire is settled
  // without error exactly when the reader's own complete comes first. What can
  // come before it is its caller giving up, the loop of a flush that found its
  // connection closed, or a teardown's loop that still lists the request.
  lemma OnlyDeliverSucceeds(cfg: Config, ss: seq<State>, es: seq<Event>, i: nat, c: ConnId, r: Id)
    requires ValidConfig(cfg) && Run(cfg, ss, es) && i < |es| && c < |ss[i].conns| && r < |ss[i].reqs|
    requires ss[i].conns[c].popped == Some(r) && ss[i].reqs[r].phase.Writing?
    requires r < |ss[i + 1].reqs| && ss[i + 1].reqs[r].phase.Done?
    ensures ss[i + 1].reqs[r].outcome.Some?
    ensures
      var o := ss[i + 1].reqs[r].outcome.value;
      && (o.err.None? <==> es[i] == Deliver(c))
      && (es[i] == Deliver(c) ==> o.responses == Replies(cfg, r))
      && (es[i] != Deliver(c) ==>
            || (es[i].CancelWriting? && es[i].r == r)
            || (es[i] == SettleBatch(c) && ss[i].conns[c].writer.seen.closed && ss[i].conns[c].closed)
            || (es[i].SettleLost? && es[i].c < |ss[i].conns| && ss[i].conns[es[i].c].closed && r in ss[i].conns[es[i].c].tearing))
  {
    hide Inv, CanStep, Apply, ConnInv, Covered, Homes, Settles;
    RunInv(cfg, ss, es, i);
    assert Joined(cfg, ss[i], es[i], ss[i + 1]);
    WhoSettles(cfg, ss[i], es[i], r);
    AnsweredBy(cfg, ss[i], es[i], c, r);
  }

  lemma AnsweredBy(cfg: Config, s: State, e: Event, c: ConnId, r: Id)
    requires Inv(cfg, s) && CanStep(cfg, s, e) && Settles(s, e, r)
    requires c < |s.conns| && s.conns[c].popped == Some(r) && s.reqs[r].phase.Writing?
    requires r < |Apply(cfg, s, e).reqs| && Apply(cfg, s, e).reqs[r].phase.Done?
    ensures
      var q' := Apply(cfg, s, e).reqs[r];
      && q'.outcome.Some?
      && (q'.outcome.value.err.None? <==> e == Deliver(c))
      && (e == Deliver(c) ==> q'.outcome.value.responses == Replies(cfg, r))
      && (e.SettleBatch? ==> e.c == c && s.conns[c].closed && s.conns[c].writer.seen.closed)
      && (e.SettleLost? ==> e.c < |s.conns| && s.conns[e.c].closed && r in s.conns[e.c].tearing)
      && (e == Deliver(c) || (e.CancelWriting? && e.r == r) || e.SettleBatch? || e.SettleLost?)
  {
    hide Inv, WellFormed, Covered, Homes, OutcomeInv, ConnInv, Answer;
    Owned(cfg, s, e, c, r);
    match e
    case Deliver(x) => WholeAnswer(cfg, s, c, r);
    case SettleBatch(x) => LateWriter(cfg, s, c);
    case SettleLost(x) => LateTeardown(cfg, s, x);
    case _ =>
  }

  lemma WholeAnswer(cfg: Config, s: State, c: ConnId, r: Id)
    requires Inv(cfg, s) && c < |s.conns| && s.conns[c].popped == Some(r)
    ensures r < |s.reqs| && s.reqs[r].responses == Replies(cfg, r)
  {
    hide Inv, Custody, Delivered, Written, WriterState, Covering, Marks, StubShape, Distinct, Apart, Fifo, Progress,
      TornDown, Causes, WireShape, Answer;
    ConnOf(cfg, s, c);
    var k := s.conns[c];
    assert Answer(cfg, k.answering, k.given, k.answering - 1, r, s.reqs[r]);
    AnswerWhole(cfg, k.answering, k.given, r, s.reqs[r]);
  }

  // A writer that saw its connection closed was right.
  lemma LateWriter(cfg: Config, s: State, c: ConnId)
    requires Inv(cfg, s) && c < |s.conns| && s.conns[c].writer.Settling?
    ensures
      var seen := s.conns[c].writer.seen;
      seen.closed ==> s.conns[c].closed && (seen.blamed.Some? ==> seen.cause.Some?)
  {
    hide Inv, Custody, Answers, Delivered, Written, Covering, Marks, StubShape, Distinct, Apart, Fifo, Progress,
      TornDown, WireShape, Unmarked;
    ConnOf(cfg, s, c);
  }

  lemma LateTeardown(cfg: Config, s: State, x: ConnId)
    requires Inv(cfg, s) && x < |s.conns| && s.conns[x].tearing != []
    ensures s.conns[x].closed && (s.conns[x].blamed.Some? ==> s.conns[x].cause.Some?)
  {
    hide Inv, Custody, Answers, Delivered, Written, Covering, Marks, StubShape, Distinct, Apart, Fifo, Progress,
      WireShape, WriterState;
    ConnOf(cfg, s, x);
  }

  lemma AnswerWhole(cfg: Config, answering: nat, given: nat, r: Id, q: Request)
    requires 0 < answering && Answer(cfg, answering, given, answering - 1, r, q)
    ensures q.responses == Replies(cfg, r)
  {
  }

  lemma Owned(cfg: Config, s: State, e: Event, c: ConnId, r: Id)
    requires Inv(cfg, s) && Settles(s, e, r)
    requires c < |s.conns| && s.conns[c].popped == Some(r)
    ensures e.Deliver? || e.SettleBatch? ==> e.c == c
    ensures e.SettleBatch? ==> s.conns[c].writer.left.full > 0
  {
    hide Inv, Covered, Homes, OutcomeInv, Answers, Listed, Delivered, WriterState, Covering, Marks, StubShape,
      Distinct, Apart, Progress;
    ConnOf(cfg, s, c);
    if e.Deliver? || e.SettleBatch? {
      ConnOf(cfg, s, e.c);
    }
  }

  // ---- the pool ----

  lemma PoolBounds(cfg: Config, ss: seq<State>, es: seq<Event>, i: nat)
    requires ValidConfig(cfg) && Run(cfg, ss, es) && i < |ss|
    ensures |ss[i].members| <= cfg.maxConns && Distinct(ss[i].members)
  {
    hide ConnInv, ReqInv;
    RunInv(cfg, ss, es, i);
  }

  // pickLocked keeps exactly the live connections that are not idle for too
  // long, and picks one of least load; it opens a new one exactly when it has
  // none, or all of them are busy and the cap leaves room.
  lemma PickIsLeastLoaded(cfg: Config, conns: seq<Conn>, members: seq<ConnId>, idle: set<ConnId>)
    requires forall i :: 0 <= i < |members| ==> members[i] < |conns|
    ensures
      var pick := PickLocked(cfg, conns, members, idle);
      var survives := (c: ConnId) requires c < |conns| => c in members && !conns[c].closed && c !in idle;
      && (forall c :: 0 <= c < |conns| ==> (c in pick.members <==> survives(c)))
      && pick.best in pick.members
      && (pick.best == |conns| <==>
            (forall c :: 0 <= c < |conns| && survives(c) ==> Load(conns[c]) > 0)
            && ((forall c :: 0 <= c < |conns| ==> !survives(c)) || |Survivors(conns, members, idle)| < cfg.maxConns))
      && (pick.best != |conns| ==>
            && pick.best < |conns| && survives(pick.best)
            && (forall c :: 0 <= c < |conns| && survives(c) ==> Load(conns[pick.best]) <= Load(conns[c])))
  {
    hide Load;
    var kept := Survivors(conns, members, idle);
    assert forall i :: 0 <= i < |kept| ==> kept[i] in kept;
    assert forall i :: 0 <= i < |members| ==> members[i] in members;
  }

  // A request is queued on a connection at most once, and leaves one for another
  // only after that one died having delivered a response.
  lemma RehomedAtMostOncePerConn(cfg: Config, ss: seq<State>, es: seq<Event>, i: nat, r: Id, a: nat, b: nat)
    requires ValidConfig(cfg) && Run(cfg, ss, es) && i < |ss| && r < |ss[i].reqs|
    requires a < b < |ss[i].reqs[r].homes|
    ensures
      var homes := ss[i].reqs[r].homes;
      && homes[a] != homes[b] && homes[a] < |ss[i].conns|
      && ss[i].conns[homes[a]].closed && ss[i].conns[homes[a]].served
  {
    hide Inv, Covered, OutcomeInv;
    RunInv(cfg, ss, es, i);
    ReqOf(cfg, ss[i], r);
  }
}
