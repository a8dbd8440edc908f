// What one event can do to one connection and to one request, whatever else is
// going on. The theorems about runs that look at several steps rest on this.
module TransportTurns {
  import opened Protocol
  import opened Transport
  import opened TransportInvariant
  import opened TransportSteps

  // ---- one connection ----

  // The events that tear a live connection down.
  ghost predicate Tears(s: State, e: Event, x: ConnId)
    requires WellFormed(s) && x < |s.conns|
  {
    match e
    case DialFail(c, _) => c == x && !s.conns[x].dialed
    case ReadFail(c, _, _) => c == x && s.conns[x].popped.None?
    case Read(c) => c == x && s.conns[x].popped.None?
    case FlushFail(c) => c == x && s.conns[x].writer.Settling?
    case Expire(r) =>
      && r < |s.reqs| && s.reqs[r].place == Claimed(x) && s.reqs[r].expiring
      && OldestLive(s.reqs, s.conns[x].inflight, r)
    case _ => false
  }

  ghost predicate WriterTurn(e: Event, c: ConnId, k: Conn, k': Conn) {
    || k'.writer == k.writer
    || (e == Claim(c) && !k.closed && k.dialed && k.writer.Idle?
        && k'.writer.Sending? && forall r :: r in k'.writer.flush.batch ==> r in k.pending)
    || (e == WriteByte(c) && k.writer.Sending? && k'.writer.Sending? && k'.writer.flush.batch == k.writer.flush.batch)
    || (e.FlushEnd? && e.c == c && k.writer.Sending? && EndTurn(k, k'))
    || (e == SettleBatch(c) && k.writer.Settling? && k.writer.left.batch != [] && k'.writer.Settling?
        && k'.writer.left == Rest(k.writer.left) && k'.writer.seen == k.writer.seen)
    || (e == FlushFail(c) && k.writer.Settling? && k'.writer.Rehoming? && (k.writer.seen.err.Some? ==> k'.closed))
    || (e.Rehome? && k.writer.Rehoming? && k'.writer.Rehoming?)
  }

  // The writer is back at the lock: only a connection it finds closed leaves the
  // whole batch to it.
  ghost predicate EndTurn(k: Conn, k': Conn)
    requires k.writer.Sending?
  {
    || (k'.writer.Idle? && !k.closed)
    || (k'.writer.Settling? && k'.writer.left == k.writer.flush && k'.writer.seen.closed == k.closed
        && (!k.closed ==> k'.writer.seen.err.Some?))
  }

  ghost predicate ListTurn(s: State, e: Event, c: ConnId, k: Conn, k': Conn)
    requires WellFormed(s) && c < |s.conns|
  {
    || (k'.closed == k.closed && k'.inflight == k.inflight && k'.tearing == k.tearing)
    || (k'.closed == k.closed && k'.tearing == k.tearing && !k.closed && e == Claim(c) && k.writer.Idle? && k.inflight <= k'.inflight)
    || (k'.closed == k.closed && k'.tearing == k.tearing && !k.closed && e.FlushEnd? && e.c == c && k.writer.Sending?
        && k'.writer.Settling? && |k'.inflight| <= |k.inflight|)
    || (e == Read(c) && !k.closed && k.popped.None? && k'.tearing == k.tearing && k.inflight != [] && k'.inflight == k.inflight[1..]
        && k'.popped == Some(k.inflight[0]) && k'.closed == (k.closing && k'.inflight == []))
    || (e == SettleLost(c) && k'.closed == k.closed && k'.inflight == k.inflight
        && k.tearing != [] && k'.tearing == k.tearing[1..])
    || (!k.closed && k'.closed && Tears(s, e, c) && k'.tearing == k.inflight && k'.inflight == [] && k'.cause.Some?
        && k'.popped == k.popped)
    || (!k.closed && k'.closed && k'.inflight == k.inflight == [] && k'.tearing == k.tearing && (e == Drain(c) || Retires(s, e, c)))
  }

  // A pick that finds the connection past its idle timeout.
  ghost predicate Retires(s: State, e: Event, c: ConnId) {
    c in s.members && ((e.Enqueue? && c in e.idle) || (e.Rehome? && c in e.idle && !s.closed))
  }

  ghost predicate Turn(s: State, e: Event, c: ConnId, k: Conn, k': Conn)
    requires WellFormed(s) && c < |s.conns|
  {
    && (k.dialed ==> k'.dialed)
    && (k'.cause == k.cause || (!k.closed && Tears(s, e, c) && k'.popped == k.popped))
    && (k'.popped == k.popped || e == Deliver(c) || (e == Read(c) && k.popped.None? && k.dialed))
    && (k'.closing == k.closing || e == Drain(c))
    && (e == Drain(c) && !k'.closed ==> k'.closing && k'.inflight != [])
    && WriterTurn(e, c, k, k') && ListTurn(s, e, c, k, k')
  }

  lemma StepTurns(cfg: Config, s: State, e: Event, c: ConnId)
    requires Inv(cfg, s) && CanStep(cfg, s, e) && c < |s.conns|
    ensures c < |Apply(cfg, s, e).conns| && Turn(s, e, c, s.conns[c], Apply(cfg, s, e).conns[c])
  {
    hide Inv, WellFormed, Turn, ApplyRead, ApplyRehome, ApplySettleBatch, Teardown, ApplyFlushEnd, ApplyWriteByte,
      ApplyClaim, Hold, OldestLive;
    OpenConn(cfg, s, c);
    match e
    case Read(x) => ReadTurns(cfg, s, x, c);
    case Rehome(x, afterFlush, idle) => RehomeTurns(cfg, s, x, afterFlush, idle, c);
    case FlushFail(x) => FlushFailTurns(cfg, s, x, c);
    case DialFail(x, code) => TeardownTurns(s, s, e, x, Wire(code), false, c);
    case ReadFail(x, deadline, code) => TeardownTurns(s, s, e, x, if deadline then Deadline else Wire(code), true, c);
    case Expire(r) => ExpireTurns(cfg, s, r, c);
    case Enqueue(r, idle) => EnqueueTurns(cfg, s, r, idle, c);
    case Claim(x) => ClaimTurns(cfg, s, x, c);
    case WriteByte(x) => WriteTurns(cfg, s, x, c);
    case FlushEnd(x, err) => EndTurns(cfg, s, x, err, c);
    case SettleBatch(x) => BatchTurns(cfg, s, x, c);
    case _ => OtherTurns(cfg, s, e, c);
  }

  // A live connection has no cause yet and nothing to settle.
  lemma OpenConn(cfg: Config, s: State, c: ConnId)
    requires Inv(cfg, s) && c < |s.conns|
    ensures Untorn(s.conns[c])
  {
    hide Inv, Custody, Answers, Delivered, Written, WriterState, Covering, Marks, StubShape, Distinct, Apart, Fifo,
      Progress, WireShape;
    ConnOf(cfg, s, c);
  }

  predicate Untorn(k: Conn) { !k.closed ==> k.blamed.None? && k.cause.None? && k.tearing == [] }

  // t is s, or s with a caller's report crossed off.
  lemma TeardownTurns(s: State, t: State, e: Event, x: ConnId, cause: Error, headSaw: bool, c: ConnId)
    requires WellFormed(s) && t.conns == s.conns && x < |s.conns| && c < |s.conns| && Untorn(s.conns[c])
    requires (!s.conns[x].closed ==> Tears(s, e, x)) && !e.Drain?
    ensures |Teardown(t, x, cause, headSaw).conns| == |s.conns|
    ensures Turn(s, e, c, s.conns[c], Teardown(t, x, cause, headSaw).conns[c])
  {
    hide MoveAll, Tears, WellFormed;
  }

  lemma ReadTurns(cfg: Config, s: State, x: ConnId, c: ConnId)
    requires CanStep(cfg, s, Read(x)) && c < |s.conns| && Untorn(s.conns[c])
    ensures |ApplyRead(cfg, s, x).conns| == |s.conns|
    ensures Turn(s, Read(x), c, s.conns[c], ApplyRead(cfg, s, x).conns[c])
  {
    assert ListsExist(s.reqs, s.conns[x]);
    hide Teardown, WellFormed, ListsExist;
    var sender := s.conns[x].received[s.conns[x].answering];
    if s.conns[x].given >= |Replies(cfg, sender)| {
      if Fail(cfg, sender).Some? { TeardownTurns(s, s, Read(x), x, FromServer(Fail(cfg, sender).value), true, c); }
    } else if s.conns[x].inflight == [] {
      TeardownTurns(s, s, Read(x), x, Wire(0), true, c);
    } else {
      ReplyTurns(cfg, s, x, c);
    }
  }

  lemma ReplyTurns(cfg: Config, s: State, x: ConnId, c: ConnId)
    requires CanStep(cfg, s, Read(x)) && c < |s.conns|
    requires s.conns[x].inflight != [] && s.conns[x].given < |Replies(cfg, s.conns[x].received[s.conns[x].answering])|
    ensures |ApplyRead(cfg, s, x).conns| == |s.conns|
    ensures Turn(s, Read(x), c, s.conns[c], ApplyRead(cfg, s, x).conns[c])
  {
    hide Teardown, WellFormed, WriterTurn;
    assert WriterTurn(Read(x), c, s.conns[c], ApplyRead(cfg, s, x).conns[c]) by { SameWriter(Read(x), c, s.conns[c], ApplyRead(cfg, s, x).conns[c]); }
  }

  lemma SameWriter(e: Event, c: ConnId, k: Conn, k': Conn)
    requires k'.writer == k.writer
    ensures WriterTurn(e, c, k, k')
  {
  }

  // What pickLocked does to the connections there are.
  lemma PickTurns(cfg: Config, conns: seq<Conn>, members: seq<ConnId>, idle: set<ConnId>, c: ConnId)
    requires (forall i :: 0 <= i < |members| ==> members[i] < |conns|) && c < |conns|
    ensures
      var pick := PickLocked(cfg, conns, members, idle);
      && |conns| <= |pick.conns|
      && pick.conns[c] == if c in members && c in idle then conns[c].(closed := true) else conns[c]
  {
    hide Survivors, LeastLoaded;
  }

  lemma RetiredTurns(s: State, e: Event, c: ConnId, k': Conn)
    requires WellFormed(s) && c < |s.conns| && Untorn(s.conns[c]) && !e.Drain?
    requires k' == s.conns[c] || (k' == s.conns[c].(closed := true) && Retires(s, e, c) && Load(s.conns[c]) == 0)
    ensures Turn(s, e, c, s.conns[c], k')
  {
    hide Tears, WellFormed, Retires;
  }

  lemma EnqueueTurns(cfg: Config, s: State, r: Id, idle: set<ConnId>, c: ConnId)
    requires CanStep(cfg, s, Enqueue(r, idle)) && c < |s.conns| && Untorn(s.conns[c])
    ensures |s.conns| <= |Hold(cfg, s, r, idle).conns|
    ensures Turn(s, Enqueue(r, idle), c, s.conns[c], Hold(cfg, s, r, idle).conns[c])
  {
    PickTurns(cfg, s.conns, s.members, idle, c);
    hide PickLocked, WellFormed, Turn;
    RetiredTurns(s, Enqueue(r, idle), c, Hold(cfg, s, r, idle).conns[c]);
  }

  // The connection whose list a re-homing shortens.
  function Crossed(k: Conn, afterFlush: bool): Conn
    requires RehomeList(k, afterFlush) != []
  {
    if afterFlush then k.(writer := Rehoming(k.writer.homeless[1..])) else k.(leftover := k.leftover[1..])
  }

  lemma RehomeConns(cfg: Config, s: State, x: ConnId, afterFlush: bool, idle: set<ConnId>)
    requires CanStep(cfg, s, Rehome(x, afterFlush, idle))
    ensures
      var conns := s.conns[x := Crossed(s.conns[x], afterFlush)];
      var t := ApplyRehome(cfg, s, x, afterFlush, idle);
      t.conns == conns || (!s.closed && t.conns == PickLocked(cfg, conns, s.members, idle).conns)
  {
    hide WellFormed, PickLocked;
    ListsOfConn(s, x);
    PoolPlaces(s);
  }

  lemma RehomeTurns(cfg: Config, s: State, x: ConnId, afterFlush: bool, idle: set<ConnId>, c: ConnId)
    requires CanStep(cfg, s, Rehome(x, afterFlush, idle)) && c < |s.conns| && Untorn(s.conns[c])
    ensures |s.conns| <= |ApplyRehome(cfg, s, x, afterFlush, idle).conns|
    ensures Turn(s, Rehome(x, afterFlush, idle), c, s.conns[c], ApplyRehome(cfg, s, x, afterFlush, idle).conns[c])
  {
    hide WellFormed, PickLocked, Turn, ApplyRehome;
    RehomeConns(cfg, s, x, afterFlush, idle);
    PoolPlaces(s);
    var k' := Crossed(s.conns[x], afterFlush);
    PickTurns(cfg, s.conns[x := k'], s.members, idle, c);
    CrossedTurns(s, Rehome(x, afterFlush, idle), x, k', c, ApplyRehome(cfg, s, x, afterFlush, idle).conns[c]);
  }

  lemma CrossedTurns(s: State, e: Event, x: ConnId, k1: Conn, c: ConnId, k': Conn)
    requires WellFormed(s) && c < |s.conns| && x < |s.conns| && Untorn(s.conns[c]) && e.Rehome?
    requires
      || k1 == s.conns[x].(leftover := k1.leftover)
      || (k1 == s.conns[x].(writer := k1.writer) && s.conns[x].writer.Rehoming? && k1.writer.Rehoming?)
    requires
      var k := if c == x then k1 else s.conns[c];
      k' == k || (k' == k.(closed := true) && Retires(s, e, c) && Load(s.conns[c]) == 0)
    ensures Turn(s, e, c, s.conns[c], k')
  {
    hide Tears, WellFormed, Retires;
  }

  lemma FlushFailTurns(cfg: Config, s: State, x: ConnId, c: ConnId)
    requires CanStep(cfg, s, FlushFail(x)) && c < |s.conns| && Untorn(s.conns[c])
    ensures |ApplyFlushFail(s, x).conns| == |s.conns|
    ensures Turn(s, FlushFail(x), c, s.conns[c], ApplyFlushFail(s, x).conns[c])
  {
    hide WellFormed, MoveAll, Turn;
    var w := s.conns[x].writer;
    FlushFailConn(s, FlushFail(x), x, c, ApplyFlushFail(s, x).conns[c]);
  }

  lemma FlushFailConn(s: State, e: Event, x: ConnId, c: ConnId, k': Conn)
    requires WellFormed(s) && x < |s.conns| && c < |s.conns| && Untorn(s.conns[c]) && e == FlushFail(x)
    requires s.conns[x].writer.Settling?
    requires
      var k, w := s.conns[c], s.conns[x].writer;
      if c != x then k' == k
      else if w.seen.err.None? || k.closed then k' == k.(writer := Rehoming(w.requeue))
      else k' == k.(closed := true, cause := Some(w.seen.err.value), blamed := None, tearing := k.inflight, inflight := [],
                    leftover := k.pending, pending := [], rehome := k.served, writer := Rehoming(w.requeue))
    ensures Turn(s, e, c, s.conns[c], k')
  {
    assert x == c && !s.conns[c].closed ==> Tears(s, e, c);
    hide Tears, WellFormed, Retires;
  }

  lemma ExpireTurns(cfg: Config, s: State, r: Id, c: ConnId)
    requires CanStep(cfg, s, Expire(r)) && c < |s.conns| && Untorn(s.conns[c])
    ensures |ApplyExpire(s, r).conns| == |s.conns|
    ensures Turn(s, Expire(r), c, s.conns[c], ApplyExpire(s, r).conns[c])
  {
    var x := s.reqs[r].place.c;
    assert PlaceExists(s, s.reqs[r].place);
    assert ListsExist(s.reqs, s.conns[x]);
    var t := s.(reqs := s.reqs[r := s.reqs[r].(expiring := false)]);
    hide Teardown, OldestLive, ListsExist, WellFormed;
    if !s.conns[x].closed && OldestLive(s.reqs, s.conns[x].inflight, r) {
      TeardownTurns(s, t, Expire(r), x, Deadline, true, c);
    }
  }

  lemma ClaimTurns(cfg: Config, s: State, x: ConnId, c: ConnId)
    requires CanStep(cfg, s, Claim(x)) && c < |s.conns|
    ensures |ApplyClaim(s, x).conns| == |s.conns| && Turn(s, Claim(x), c, s.conns[c], ApplyClaim(s, x).conns[c])
  {
    assert ListsExist(s.reqs, s.conns[x]);
    hide WellFormed, ClaimAll, ListsExist, Tears;
  }

  lemma WriteTurns(cfg: Config, s: State, x: ConnId, c: ConnId)
    requires CanStep(cfg, s, WriteByte(x)) && c < |s.conns|
    ensures |ApplyWriteByte(cfg, s, x).conns| == |s.conns|
    ensures Turn(s, WriteByte(x), c, s.conns[c], ApplyWriteByte(cfg, s, x).conns[c])
  {
    assert ListsExist(s.reqs, s.conns[x]);
    hide WellFormed, ListsExist, Tears;
  }

  lemma EndTurns(cfg: Config, s: State, x: ConnId, err: Option<nat>, c: ConnId)
    requires CanStep(cfg, s, FlushEnd(x, err)) && c < |s.conns|
    ensures |Apply(cfg, s, FlushEnd(x, err)).conns| == |s.conns|
    ensures Turn(s, FlushEnd(x, err), c, s.conns[c], Apply(cfg, s, FlushEnd(x, err)).conns[c])
  {
    assert ListsExist(s.reqs, s.conns[x]);
    hide WellFormed, ListsExist, Turn, MarkAll;
    EndConn(s, FlushEnd(x, err), x, c, Apply(cfg, s, FlushEnd(x, err)).conns[c]);
  }

  lemma EndConn(s: State, e: Event, x: ConnId, c: ConnId, k': Conn)
    requires WellFormed(s) && x < |s.conns| && c < |s.conns| && e.FlushEnd? && e.c == x && s.conns[x].writer.Sending?
    requires
      var k := s.conns[c];
      if c != x then k' == k
      else
        || (k' == k.(writer := Idle) && !k.closed)
        || (k' == k.(writer := k'.writer, inflight := k'.inflight) && EndTurn(k, k') && k'.writer.Settling?
            && (k.closed ==> k'.inflight == k.inflight) && |k'.inflight| <= |k.inflight|)
    ensures Turn(s, e, c, s.conns[c], k')
  {
    hide Tears, WellFormed, Retires;
  }

  lemma BatchTurns(cfg: Config, s: State, x: ConnId, c: ConnId)
    requires CanStep(cfg, s, SettleBatch(x)) && c < |s.conns|
    ensures |ApplySettleBatch(cfg, s, x).conns| == |s.conns|
    ensures Turn(s, SettleBatch(x), c, s.conns[c], ApplySettleBatch(cfg, s, x).conns[c])
  {
    assert ListsExist(s.reqs, s.conns[x]);
    hide WellFormed, ListsExist, GoesBack, SettleWritten, Rest, Turn;
    BatchConn(s, SettleBatch(x), x, c, ApplySettleBatch(cfg, s, x).conns[c]);
  }

  lemma BatchConn(s: State, e: Event, x: ConnId, c: ConnId, k': Conn)
    requires WellFormed(s) && x < |s.conns| && c < |s.conns| && e == SettleBatch(x)
    requires s.conns[x].writer.Settling? && s.conns[x].writer.left.batch != []
    requires
      var k := s.conns[c];
      if c != x then k' == k
      else k' == k.(writer := k'.writer) && k'.writer.Settling? && k'.writer.left == Rest(k.writer.left)
           && k'.writer.seen == k.writer.seen
    ensures Turn(s, e, c, s.conns[c], k')
  {
    hide Tears, WellFormed, Retires, Rest;
  }

  lemma OtherTurns(cfg: Config, s: State, e: Event, c: ConnId)
    requires CanStep(cfg, s, e) && c < |s.conns|
    requires !e.Read? && !e.Rehome? && !e.SettleBatch? && !e.FlushFail? && !e.DialFail? && !e.ReadFail?
    requires !e.Expire? && !e.Enqueue? && !e.Claim? && !e.WriteByte? && !e.FlushEnd?
    ensures c < |Apply(cfg, s, e).conns| && Turn(s, e, c, s.conns[c], Apply(cfg, s, e).conns[c])
  {
    hide PlaceExists, Without, MoveAll, ListsExist, Turn;
    OtherConn(s, e, c, Apply(cfg, s, e).conns[c]);
  }

  lemma OtherConn(s: State, e: Event, c: ConnId, k': Conn)
    requires WellFormed(s) && c < |s.conns|
    requires
      var k := s.conns[c];
      || (k' == k.(pending := k'.pending, drained := k'.drained, dialed := k'.dialed || k.dialed) && (e == Drain(c) ==> k.closed))
      || (k' == k.(popped := None) && e == Deliver(c))
      || (e == SettleLost(c) && k.tearing != [] && k' == k.(tearing := k.tearing[1..]))
      || (k' == k.(pending := [], drained := k'.drained, closing := true, closed := k.inflight == []) && e == Drain(c) && !k.closed)
    ensures Turn(s, e, c, s.conns[c], k')
  {
    hide Tears, WellFormed, Retires, WriterTurn;
    SameWriter(e, c, s.conns[c], k');
  }

  // Only a pick opens a connection.
  lemma SameConns(cfg: Config, s: State, e: Event)
    requires CanStep(cfg, s, e) && !e.Enqueue? && !e.Rehome?
    ensures |Apply(cfg, s, e).conns| == |s.conns|
  {
    hide ListsExist, MoveAll, MarkAll, ClaimAll, Live, OldestLive, Without, SettleWritten, GoesBack,
      Complete, LostError;
    if e.Expire? { PlaceOf(s, e.r); }
  }

  lemma PickOpens(cfg: Config, conns: seq<Conn>, members: seq<ConnId>, idle: set<ConnId>)
    requires forall i :: 0 <= i < |members| ==> members[i] < |conns|
    ensures
      var pick := PickLocked(cfg, conns, members, idle);
      forall c :: |conns| <= c < |pick.conns| ==> pick.conns[c] == NewConn && c in pick.members
  {
    hide Survivors, LeastLoaded;
  }

  lemma NewTurns(cfg: Config, s: State, e: Event, c: ConnId)
    requires CanStep(cfg, s, e) && |s.conns| <= c < |Apply(cfg, s, e).conns|
    ensures Apply(cfg, s, e).conns[c] == NewConn && c in Apply(cfg, s, e).members
    ensures (e.Enqueue? || e.Rehome?) && !s.closed && !Apply(cfg, s, e).closed
  {
    hide WellFormed, ApplyRehome, Hold;
    if e.Enqueue? {
      NewHold(cfg, s, e.r, e.idle, c);
    } else if e.Rehome? {
      NewRehome(cfg, s, e.c, e.afterFlush, e.idle, c);
    } else {
      SameConns(cfg, s, e);
    }
  }

  lemma NewHold(cfg: Config, s: State, r: Id, idle: set<ConnId>, c: ConnId)
    requires WellFormed(s) && r < |s.reqs| && |s.conns| <= c < |Hold(cfg, s, r, idle).conns|
    ensures Hold(cfg, s, r, idle).conns[c] == NewConn && c in Hold(cfg, s, r, idle).members
    ensures Hold(cfg, s, r, idle).closed == s.closed
  {
    PickOpens(cfg, s.conns, s.members, idle);
    hide PickLocked, WellFormed;
  }

  lemma NewRehome(cfg: Config, s: State, x: ConnId, afterFlush: bool, idle: set<ConnId>, c: ConnId)
    requires CanStep(cfg, s, Rehome(x, afterFlush, idle))
    requires |s.conns| <= c < |ApplyRehome(cfg, s, x, afterFlush, idle).conns|
    ensures
      var t := ApplyRehome(cfg, s, x, afterFlush, idle);
      t.conns[c] == NewConn && c in t.members && !s.closed && !t.closed
  {
    hide WellFormed, PickLocked;
    ListsOfConn(s, x);
    PoolPlaces(s);
    var k := s.conns[x];
    var k' := if afterFlush then k.(writer := Rehoming(k.writer.homeless[1..])) else k.(leftover := k.leftover[1..]);
    PickOpens(cfg, s.conns[x := k'], s.members, idle);
  }

  // ---- one request ----

  // flush's critical section marks a request as written.
  ghost predicate MarksIt(s: State, e: Event, d: ConnId, r: Id) {
    && e.FlushEnd? && e.c == d && d < |s.conns| && !s.conns[d].closed && s.conns[d].writer.Sending?
    && s.conns[d].writer.flush.full <= |s.conns[d].writer.flush.batch|
    && r in s.conns[d].writer.flush.batch[..s.conns[d].writer.flush.full]
  }

  // flush's loop sends a request back to the queue.
  ghost predicate Requeues(s: State, e: Event, c: ConnId, r: Id) {
    && e == SettleBatch(c) && c < |s.conns| && s.conns[c].writer.Settling? && s.conns[c].writer.left.batch != []
    && s.conns[c].writer.left.batch[0] == r && r < |s.reqs|
    && GoesBack(s.conns[c].writer.left, s.conns[c].writer.seen, s.reqs[r])
  }

  ghost predicate Fate(s: State, e: Event, r: Id, q: Request, q': Request) {
    && q.homes <= q'.homes
    && (q'.onWire == q.onWire || (q'.onWire && exists d :: MarksIt(s, e, d, r)))
    && (q'.expiring ==> q.expiring || e == CancelWriting(r, true))
    && (q.place.Claimed? ==> q'.place == q.place || Requeues(s, e, q.place.c, r))
    && (q.phase.Done? ==> q'.phase.Done? && q'.outcome == q.outcome)
  }

  lemma StepFate(cfg: Config, s: State, e: Event, r: Id)
    requires Inv(cfg, s) && CanStep(cfg, s, e) && r < |s.reqs|
    ensures r < |Apply(cfg, s, e).reqs| && Fate(s, e, r, s.reqs[r], Apply(cfg, s, e).reqs[r])
  {
    hide Inv, WellFormed, Fate, ApplyRead, ApplyRehome, ApplySettleBatch, Teardown, ApplyFlushEnd, ApplyWriteByte,
      ApplyClaim, Hold, OldestLive;
    match e
    case Read(x) =>
      Unclaimed(cfg, s, x, r);
      ReadFate(cfg, s, x, r);
    case Rehome(x, afterFlush, idle) =>
      Unclaimed(cfg, s, x, r);
      RehomeFate(cfg, s, x, afterFlush, idle, r);
    case FlushFail(x) =>
      Unclaimed(cfg, s, x, r);
      FlushFailFate(cfg, s, x, r);
    case DialFail(x, code) =>
      Unclaimed(cfg, s, x, r);
      TeardownFate(cfg, s, e, x, Wire(code), false, r);
    case ReadFail(x, deadline, code) =>
      Unclaimed(cfg, s, x, r);
      TeardownFate(cfg, s, e, x, if deadline then Deadline else Wire(code), true, r);
    case Expire(x) =>
      PlaceOf(s, x);
      Unclaimed(cfg, s, s.reqs[x].place.c, r);
      ExpireFate(cfg, s, x, r);
    case Enqueue(x, idle) => EnqueueFate(cfg, s, x, idle, r);
    case Claim(x) =>
      Unclaimed(cfg, s, x, r);
      ClaimFate(cfg, s, x, r);
    case WriteByte(x) => WriteFate(cfg, s, x, r);
    case FlushEnd(x, err) => EndFate(cfg, s, x, err, r);
    case SettleBatch(x) =>
      BatchPlace(cfg, s, x);
      BatchFate(cfg, s, x, r);
    case Drain(x) =>
      PoolPlaces(s);
      Unclaimed(cfg, s, x, r);
      DrainFate(cfg, s, x, r);
    case SettleDrained(x) =>
      Unclaimed(cfg, s, x, r);
      DrainedFate(cfg, s, x, r);
    case _ =>
      HeldUnclaimed(cfg, s);
      OtherFate(cfg, s, e, r);
  }

  lemma PlaceOf(s: State, x: Id)
    requires WellFormed(s) && x < |s.reqs|
    ensures PlaceExists(s, s.reqs[x].place)
  {
    hide ListsExist, PlaceExists;
  }

  lemma PoolPlaces(s: State)
    requires WellFormed(s)
    ensures forall x :: x in s.toDrain ==> x < |s.conns|
    ensures forall i :: 0 <= i < |s.members| ==> s.members[i] < |s.conns|
  {
    hide ListsExist, PlaceExists;
  }

  lemma ListsOfConn(s: State, x: ConnId)
    requires WellFormed(s) && x < |s.conns|
    ensures ListsExist(s.reqs, s.conns[x])
  {
    hide ListsExist, PlaceExists;
  }

  // The lists of requests nobody has claimed.
  lemma Unclaimed(cfg: Config, s: State, x: ConnId, r: Id)
    requires Inv(cfg, s) && x < |s.conns| && r < |s.reqs|
    ensures Queueing(s, x, r)
  {
    hide Inv, Answers, Delivered, Written, WriterState, Covering, Marks, StubShape, Distinct, Apart, Fifo, Progress,
      WireShape, TornDown, Causes;
    ConnOf(cfg, s, x);
  }

  ghost predicate Queueing(s: State, x: ConnId, r: Id)
    requires x < |s.conns| && r < |s.reqs|
  {
    var k := s.conns[x];
    r in k.pending || r in k.leftover || r in k.drained || r in Requeue(k.writer) ==> !s.reqs[r].place.Claimed?
  }

  lemma TeardownFate(cfg: Config, s: State, e: Event, x: ConnId, cause: Error, headSaw: bool, r: Id)
    requires x < |s.conns| && r < |s.reqs| && Queueing(s, x, r)
    ensures
      var t := Teardown(s, x, cause, headSaw);
      |t.reqs| == |s.reqs| && Fate(s, e, r, s.reqs[r], t.reqs[r])
      && t.reqs[r] == s.reqs[r].(place := t.reqs[r].place)
  {
    hide Requeues, MarksIt;
  }

  lemma ReadFate(cfg: Config, s: State, x: ConnId, r: Id)
    requires CanStep(cfg, s, Read(x)) && r < |s.reqs| && x < |s.conns| && Queueing(s, x, r)
    ensures |ApplyRead(cfg, s, x).reqs| == |s.reqs| && Fate(s, Read(x), r, s.reqs[r], ApplyRead(cfg, s, x).reqs[r])
  {
    hide Teardown, WellFormed, Requeues, MarksIt;
    ListsOfConn(s, x);
    var sender := s.conns[x].received[s.conns[x].answering];
    if s.conns[x].given >= |Replies(cfg, sender)| {
      if Fail(cfg, sender).Some? { TeardownFate(cfg, s, Read(x), x, FromServer(Fail(cfg, sender).value), true, r); }
    } else if s.conns[x].inflight == [] {
      TeardownFate(cfg, s, Read(x), x, Wire(0), true, r);
    } else {
    }
  }

  lemma EnqueueFate(cfg: Config, s: State, x: Id, idle: set<ConnId>, r: Id)
    requires CanStep(cfg, s, Enqueue(x, idle)) && r < |s.reqs|
    ensures |Hold(cfg, s, x, idle).reqs| == |s.reqs|
    ensures Fate(s, Enqueue(x, idle), r, s.reqs[r], Hold(cfg, s, x, idle).reqs[r])
  {
    hide PickLocked, WellFormed, Requeues, MarksIt;
  }

  lemma RehomeFate(cfg: Config, s: State, x: ConnId, afterFlush: bool, idle: set<ConnId>, r: Id)
    requires CanStep(cfg, s, Rehome(x, afterFlush, idle)) && r < |s.reqs| && x < |s.conns| && Queueing(s, x, r)
    ensures |ApplyRehome(cfg, s, x, afterFlush, idle).reqs| == |s.reqs|
    ensures Fate(s, Rehome(x, afterFlush, idle), r, s.reqs[r], ApplyRehome(cfg, s, x, afterFlush, idle).reqs[r])
  {
    hide PickLocked, WellFormed, Requeues, MarksIt;
    ListsOfConn(s, x);
  }

  lemma FlushFailFate(cfg: Config, s: State, x: ConnId, r: Id)
    requires CanStep(cfg, s, FlushFail(x)) && r < |s.reqs| && x < |s.conns| && Queueing(s, x, r)
    ensures |ApplyFlushFail(s, x).reqs| == |s.reqs| && Fate(s, FlushFail(x), r, s.reqs[r], ApplyFlushFail(s, x).reqs[r])
  {
    hide WellFormed, Teardown, Fate;
    var w := s.conns[x].writer;
    if w.seen.err.Some? { TeardownFate(cfg, s, FlushFail(x), x, w.seen.err.value, false, r); } else { SameFate(s, FlushFail(x), r, s.reqs[r]); }
  }

  lemma SameFate(s: State, e: Event, r: Id, q: Request)
    ensures Fate(s, e, r, q, q)
  {
  }

  lemma ExpireFate(cfg: Config, s: State, x: Id, r: Id)
    requires CanStep(cfg, s, Expire(x)) && r < |s.reqs|
    requires s.reqs[x].place.c < |s.conns| && Queueing(s, s.reqs[x].place.c, r)
    ensures |ApplyExpire(s, x).reqs| == |s.reqs| && Fate(s, Expire(x), r, s.reqs[r], ApplyExpire(s, x).reqs[r])
  {
    hide WellFormed, OldestLive, Requeues, MarksIt;
    ListsOfConn(s, s.reqs[x].place.c);
  }

  lemma ClaimFate(cfg: Config, s: State, x: ConnId, r: Id)
    requires CanStep(cfg, s, Claim(x)) && r < |s.reqs| && x < |s.conns| && Queueing(s, x, r)
    ensures |ApplyClaim(s, x).reqs| == |s.reqs| && Fate(s, Claim(x), r, s.reqs[r], ApplyClaim(s, x).reqs[r])
  {
    hide WellFormed, Live, Requeues, MarksIt;
    ListsOfConn(s, x);
  }

  lemma WriteFate(cfg: Config, s: State, x: ConnId, r: Id)
    requires CanStep(cfg, s, WriteByte(x)) && r < |s.reqs|
    ensures |ApplyWriteByte(cfg, s, x).reqs| == |s.reqs|
    ensures Fate(s, WriteByte(x), r, s.reqs[r], ApplyWriteByte(cfg, s, x).reqs[r])
  {
    hide WellFormed, Requeues, MarksIt;
    ListsOfConn(s, x);
  }

  lemma EndFate(cfg: Config, s: State, x: ConnId, err: Option<nat>, r: Id)
    requires CanStep(cfg, s, FlushEnd(x, err)) && r < |s.reqs|
    ensures |Apply(cfg, s, FlushEnd(x, err)).reqs| == |s.reqs|
    ensures Fate(s, FlushEnd(x, err), r, s.reqs[r], Apply(cfg, s, FlushEnd(x, err)).reqs[r])
    ensures MarksIt(s, FlushEnd(x, err), x, r) ==> Apply(cfg, s, FlushEnd(x, err)).reqs[r] == s.reqs[r].(onWire := true)
  {
    hide WellFormed, Requeues;
    ListsOfConn(s, x);
    if s.reqs[r] != Apply(cfg, s, FlushEnd(x, err)).reqs[r] { assert MarksIt(s, FlushEnd(x, err), x, r); }
  }

  lemma BatchFate(cfg: Config, s: State, x: ConnId, r: Id)
    requires CanStep(cfg, s, SettleBatch(x)) && r < |s.reqs|
    requires s.conns[x].writer.left.batch[0] == r ==> s.reqs[r].place == Claimed(x)
    ensures |ApplySettleBatch(cfg, s, x).reqs| == |s.reqs|
    ensures Fate(s, SettleBatch(x), r, s.reqs[r], ApplySettleBatch(cfg, s, x).reqs[r])
  {
    hide WellFormed, MarksIt;
    ListsOfConn(s, x);
  }

  lemma BatchPlace(cfg: Config, s: State, x: ConnId)
    requires Inv(cfg, s) && x < |s.conns| && s.conns[x].writer.Settling? && s.conns[x].writer.left.batch != []
    ensures s.conns[x].writer.left.batch[0] < |s.reqs| && s.reqs[s.conns[x].writer.left.batch[0]].place == Claimed(x)
  {
    hide Inv, ConnInv;
    ConnOf(cfg, s, x);
    FirstOfBatch(cfg, s.reqs, x, s.conns[x]);
  }

  lemma DrainFate(cfg: Config, s: State, x: ConnId, r: Id)
    requires CanStep(cfg, s, Drain(x)) && r < |s.reqs| && x < |s.conns| && Queueing(s, x, r)
    ensures |Apply(cfg, s, Drain(x)).reqs| == |s.reqs| && Fate(s, Drain(x), r, s.reqs[r], Apply(cfg, s, Drain(x)).reqs[r])
  {
    hide WellFormed, Without, Requeues, MarksIt;
  }

  lemma DrainedFate(cfg: Config, s: State, x: ConnId, r: Id)
    requires CanStep(cfg, s, SettleDrained(x)) && r < |s.reqs| && x < |s.conns| && Queueing(s, x, r)
    ensures |Apply(cfg, s, SettleDrained(x)).reqs| == |s.reqs|
    ensures Fate(s, SettleDrained(x), r, s.reqs[r], Apply(cfg, s, SettleDrained(x)).reqs[r])
  {
    hide WellFormed, Requeues, MarksIt;
    ListsOfConn(s, x);
  }

  lemma OtherFate(cfg: Config, s: State, e: Event, r: Id)
    requires CanStep(cfg, s, e) && r < |s.reqs| && (s.holder.Some? ==> s.reqs[s.holder.value.0].place.Held?)
    requires !e.Read? && !e.Rehome? && !e.SettleBatch? && !e.FlushFail? && !e.DialFail? && !e.ReadFail?
    requires !e.Expire? && !e.Enqueue? && !e.Claim? && !e.WriteByte? && !e.FlushEnd? && !e.Drain? && !e.SettleDrained?
    ensures r < |Apply(cfg, s, e).reqs| && Fate(s, e, r, s.reqs[r], Apply(cfg, s, e).reqs[r])
  {
    hide PlaceExists, Without, Fate, Complete;
    OtherFateOne(s, e, r, s.reqs[r], Apply(cfg, s, e).reqs[r]);
  }

  lemma OtherFateOne(s: State, e: Event, r: Id, q: Request, q': Request)
    requires r < |s.reqs| && q == s.reqs[r]
    requires
      || q' == q
      || (q' == q.(place := q'.place) && !q.place.Claimed?)
      || (!q.phase.Done? && q'.phase.Done? && q' == q.(phase := Done, outcome := q'.outcome))
      || (q'.phase.Done? && e == CancelWriting(r, q'.expiring) && !q.phase.Done?
          && q' == q.(phase := Done, outcome := q'.outcome, expiring := q'.expiring))
      || (exists responses, written, err :: q' == Complete(q, responses, written, err))
    ensures Fate(s, e, r, q, q')
  {
    hide Requeues, MarksIt;
  }

  lemma HeldUnclaimed(cfg: Config, s: State)
    requires Inv(cfg, s)
    ensures s.holder.Some? ==> s.holder.value.0 < |s.reqs| && s.reqs[s.holder.value.0].place.Held?
  {
    hide ConnInv, ReqInv;
  }
}
