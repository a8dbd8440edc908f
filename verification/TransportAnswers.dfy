// An answer the reader has taken off the wire: when it reaches its caller, and
// when something else may still settle the request first.
module TransportAnswers {
  import opened Protocol
  import opened Transport
  import opened TransportInvariant
  import opened TransportSteps
  import opened TransportFlow
  import opened TransportTheorems
  import opened TransportTurns
  import opened TransportLate

  // ---- where a live connection can be found ----

  // A writer only works on a dialed connection, and a live connection is in the
  // pool, or a closing pool is still to drain it, or it is draining.
  ghost predicate Reachable(s: State, c: ConnId)
    requires c < |s.conns|
  {
    var k := s.conns[c];
    && (!k.writer.Idle? ==> k.dialed)
    && (!k.closed ==>
          if !s.closed then c in s.members && !k.closing
          else c in s.toDrain || (k.closing && (k.inflight != [] || k.writer.Settling?)))
  }

  ghost predicate Tracked(s: State) {
    && (!s.closed ==> s.toDrain == [])
    && (forall c :: 0 <= c < |s.conns| ==> Reachable(s, c))
  }

  // What one event does to the pool's own fields.
  ghost predicate PoolTurn(s: State, e: Event, s': State) {
    && (s.closed ==> s'.closed && forall c :: c in s.toDrain ==> c in s'.toDrain || e == Drain(c))
    && (!s.closed && s'.closed ==> e == ClosePool && s'.toDrain == s.members && s'.conns == s.conns)
    && (!s.closed && !s'.closed ==>
          && s'.toDrain == Undrained(s, e)
          && forall c :: c in s.members && c < |s'.conns| ==>
               c in s'.members || s'.conns[c].closed || (e == Forget(c) && c < |s.conns| && s.conns[c].cause.Some?))
  }

  ghost function Undrained(s: State, e: Event): seq<ConnId> { if e.Drain? then Transport.Without(s.toDrain, e.c) else s.toDrain }

  lemma StepPool(cfg: Config, s: State, e: Event)
    requires CanStep(cfg, s, e)
    ensures PoolTurn(s, e, Apply(cfg, s, e))
  {
    hide WellFormed, PoolTurn, ApplyRehome, Hold;
    if e.Enqueue? {
      HoldPool(cfg, s, e, s, e.r, e.idle);
    } else if e.Rehome? {
      RehomePool(cfg, s, e.c, e.afterFlush, e.idle);
    } else {
      OtherPool(cfg, s, e);
    }
  }

  lemma PickPool(cfg: Config, conns: seq<Conn>, members: seq<ConnId>, idle: set<ConnId>, c: ConnId)
    requires (forall i :: 0 <= i < |members| ==> members[i] < |conns|) && c < |conns| && c in members
    ensures
      var pick := PickLocked(cfg, conns, members, idle);
      |conns| <= |pick.conns| && (c in pick.members || pick.conns[c].closed)
  {
    hide LeastLoaded;
  }

  // t is s with the head of a list crossed off.
  lemma HoldPool(cfg: Config, s: State, e: Event, t: State, r: Id, idle: set<ConnId>)
    requires WellFormed(s) && t == s.(reqs := t.reqs, conns := t.conns) && |t.reqs| == |s.reqs| && |t.conns| == |s.conns|
    requires r < |s.reqs| && !s.closed && !e.Drain?
    ensures PoolTurn(s, e, Hold(cfg, t, r, idle))
  {
    hide PickLocked, ListsExist, PlaceExists;
    forall c | c in s.members && c < |Hold(cfg, t, r, idle).conns|
      ensures c in Hold(cfg, t, r, idle).members || Hold(cfg, t, r, idle).conns[c].closed
    {
      PickPool(cfg, t.conns, t.members, idle, c);
    }
  }

  lemma RehomePool(cfg: Config, s: State, x: ConnId, afterFlush: bool, idle: set<ConnId>)
    requires CanStep(cfg, s, Rehome(x, afterFlush, idle))
    ensures PoolTurn(s, Rehome(x, afterFlush, idle), ApplyRehome(cfg, s, x, afterFlush, idle))
  {
    hide WellFormed, Hold, PoolTurn;
    ListsOfConn(s, x);
    var k := s.conns[x];
    var r := RehomeList(k, afterFlush)[0];
    var k' := if afterFlush then k.(writer := Rehoming(k.writer.homeless[1..])) else k.(leftover := k.leftover[1..]);
    var t := s.(conns := s.conns[x := k'], reqs := s.reqs[r := s.reqs[r].(place := Fresh)]);
    if s.reqs[r].phase.Queued? && !s.closed && (afterFlush || k.rehome) {
      HoldPool(cfg, s, Rehome(x, afterFlush, idle), t, r, idle);
    } else {
      SamePool(s, Rehome(x, afterFlush, idle), ApplyRehome(cfg, s, x, afterFlush, idle));
    }
  }

  lemma SamePool(s: State, e: Event, s': State)
    requires s'.members == s.members && s'.toDrain == s.toDrain && s'.closed == s.closed && !e.Drain?
    ensures PoolTurn(s, e, s')
  {
  }

  lemma OtherPool(cfg: Config, s: State, e: Event)
    requires CanStep(cfg, s, e) && !e.Enqueue? && !e.Rehome?
    ensures PoolTurn(s, e, Apply(cfg, s, e))
  {
    hide ListsExist, MoveAll, MarkAll, ClaimAll, Live, OldestLive, SettleWritten, GoesBack, Complete, LostError, PoolTurn;
    if e.Expire? { PlaceOf(s, e.r); }
    OtherPoolTurn(cfg, s, e, Apply(cfg, s, e));
  }

  lemma OtherPoolTurn(cfg: Config, s: State, e: Event, s': State)
    requires CanStep(cfg, s, e)
    requires
      || (s'.closed == s.closed && s'.members == s.members && s'.toDrain == s.toDrain && !e.Drain?)
      || (e.Drain? && s'.closed == s.closed && s'.members == s.members && s'.toDrain == Transport.Without(s.toDrain, e.c))
      || (e.Forget? && s'.closed == s.closed && s'.members == Transport.Without(s.members, e.c) && s'.toDrain == s.toDrain)
      || (e == ClosePool && !s.closed && s'.closed && s'.toDrain == s.members && s'.conns == s.conns)
    ensures PoolTurn(s, e, s')
  {
    hide WellFormed;
  }

  lemma ReachableTurn(s: State, e: Event, s': State, c: ConnId)
    requires WellFormed(s) && c < |s.conns| && c < |s'.conns|
    requires Tracked(s) && PoolTurn(s, e, s') && Turn(s, e, c, s.conns[c], s'.conns[c])
    requires Untorn(s.conns[c])
    requires s.conns[c].writer.Settling? && s.conns[c].writer.seen.err.None? ==> s.conns[c].closed
    requires e == Drain(c) ==> c in s.toDrain
    ensures Reachable(s', c)
  {
    hide WellFormed, Tears, Retires, EndTurn;
    assert Reachable(s, c);
    ReachableWriter(s, e, s', c);
    if !s'.conns[c].closed { ReachablePool(s, e, s', c); }
  }

  lemma ReachableWriter(s: State, e: Event, s': State, c: ConnId)
    requires WellFormed(s) && c < |s.conns| && c < |s'.conns| && Turn(s, e, c, s.conns[c], s'.conns[c]) && Reachable(s, c)
    ensures !s'.conns[c].writer.Idle? ==> s'.conns[c].dialed
  {
    hide WellFormed, ListTurn;
  }

  lemma ReachablePool(s: State, e: Event, s': State, c: ConnId)
    requires WellFormed(s) && c < |s.conns| && c < |s'.conns| && Turn(s, e, c, s.conns[c], s'.conns[c]) && Tracked(s)
    requires PoolTurn(s, e, s') && Untorn(s.conns[c]) && !s'.conns[c].closed
    requires s.conns[c].writer.Settling? && s.conns[c].writer.seen.err.None? ==> s.conns[c].closed
    requires e == Drain(c) ==> c in s.toDrain
    ensures
      if !s'.closed then c in s'.members && !s'.conns[c].closing
      else c in s'.toDrain || (s'.conns[c].closing && (s'.conns[c].inflight != [] || s'.conns[c].writer.Settling?))
  {
    hide WellFormed, Tears, Retires;
    assert Reachable(s, c);
    OpenBefore(s, e, c, s.conns[c], s'.conns[c]);
    if s.closed { Draining(s, e, c, s.conns[c], s'.conns[c]); }
  }

  lemma OpenBefore(s: State, e: Event, c: ConnId, k: Conn, k': Conn)
    requires WellFormed(s) && c < |s.conns| && Turn(s, e, c, k, k')
    ensures !k'.closed ==> !k.closed
    ensures k'.closing && !k.closing ==> e == Drain(c)
  {
    hide WellFormed, Tears, Retires, WriterTurn;
  }

  // A draining connection goes on until nothing is in flight on it.
  lemma Draining(s: State, e: Event, c: ConnId, k: Conn, k': Conn)
    requires WellFormed(s) && c < |s.conns| && Turn(s, e, c, k, k') && !k.closed && !k'.closed
    requires k.writer.Settling? ==> k.writer.seen.err.Some?
    ensures e == Drain(c) ==> k'.closing && k'.inflight != []
    ensures k.closing && (k.inflight != [] || k.writer.Settling?) ==> k'.closing && (k'.inflight != [] || k'.writer.Settling?)
  {
    hide WellFormed, Tears, Retires, EndTurn;
  }

  lemma StepTracked(cfg: Config, s: State, e: Event)
    requires Inv(cfg, s) && CanStep(cfg, s, e) && Tracked(s)
    ensures Tracked(Apply(cfg, s, e))
  {
    hide Inv, WellFormed, Turn, Reachable, Apply, Enabled, PoolTurn;
    var s' := Apply(cfg, s, e);
    StepPool(cfg, s, e);
    PoolDrains(cfg, s, e, s');
    forall c | 0 <= c < |s'.conns| ensures Reachable(s', c) {
      if c < |s.conns| {
        StepTurns(cfg, s, e, c);
        OpenConn(cfg, s, c);
        if s.conns[c].writer.Settling? { SettledWriter(cfg, s, c); }
        DrainsListed(cfg, s, e, c);
        ReachableTurn(s, e, s', c);
      } else {
        NewTurns(cfg, s, e, c);
        NewReachable(s', c);
      }
    }
  }

  lemma DrainsListed(cfg: Config, s: State, e: Event, c: ConnId)
    requires CanStep(cfg, s, e)
    ensures e == Drain(c) ==> c in s.toDrain
  {
    hide WellFormed;
  }

  lemma NewReachable(s: State, c: ConnId)
    requires c < |s.conns| && s.conns[c] == NewConn && c in s.members && !s.closed
    ensures Reachable(s, c)
  {
  }

  lemma PoolDrains(cfg: Config, s: State, e: Event, s': State)
    requires CanStep(cfg, s, e) && PoolTurn(s, e, s') && (!s.closed ==> s.toDrain == [])
    ensures !s'.closed ==> s'.toDrain == []
  {
  }

  lemma {:induction false} RunTracked(cfg: Config, ss: seq<State>, es: seq<Event>, i: nat)
    requires ValidConfig(cfg) && Run(cfg, ss, es) && i < |ss|
    ensures Tracked(ss[i])
  {
    hide Inv, ValidConfig, WellFormed, Enabled, Apply, Reachable;
    if i > 0 {
      RunTracked(cfg, ss, es, i - 1);
      RunInv(cfg, ss, es, i - 1);
      assert Joined(cfg, ss[i - 1], es[i - 1], ss[i]);
      StepTracked(cfg, ss[i - 1], es[i - 1]);
    }
  }

  // ---- the condition ----

  // The writer has the request in a batch it has not come back to the lock with.
  ghost predicate InFlush(k: Conn, r: Id) { k.writer.Sending? && r in k.writer.flush.batch }

  // The connection is closed, or can be before its writer is back: nothing is in
  // flight, so that a drain closes it, or a request in flight can still run into
  // its deadline.
  ghost predicate CanClose(reqs: seq<Request>, k: Conn) {
    k.closed || k.inflight == [] || exists x :: x in k.inflight && x < |reqs| && CanExpire(reqs[x])
  }

  predicate CanExpire(q: Request) { !q.phase.Done? || q.expiring }

  // Some teardown has the request on its list.
  ghost predicate Torn(s: State, r: Id) {
    exists d :: 0 <= d < |s.conns| && r in s.conns[d].tearing
  }

  // Something other than the reader and the caller can still settle an answered
  // request: a writer that finds the connection closed, or a teardown's loop that
  // finds the request marked.
  ghost predicate AtRisk(s: State, c: ConnId, r: Id)
    requires c < |s.conns| && r < |s.reqs|
  {
    var k := s.conns[c];
    || (InFlush(k, r) && (CanClose(s.reqs, k) || Torn(s, r)))
    || (k.writer.Settling? && k.writer.seen.closed && r in k.writer.left.batch)
    || (s.reqs[r].onWire && Torn(s, r))
  }

  // The reader has the whole answer to a request and is yet to complete it.
  ghost predicate InHand(s: State, c: ConnId, r: Id) {
    c < |s.conns| && r < |s.reqs| && s.conns[c].popped == Some(r) && s.reqs[r].phase.Writing?
  }

  lemma HandFacts(cfg: Config, s: State, c: ConnId, r: Id)
    requires Inv(cfg, s) && c < |s.conns| && s.conns[c].popped == Some(r)
    ensures r < |s.reqs| && s.reqs[r].place == Claimed(c) && !s.reqs[r].phase.Queued?
    ensures r !in s.conns[c].inflight && r !in s.conns[c].tearing
    ensures r in s.conns[c].received
  {
    hide Inv, ConnInv, OutcomeInv, Covered, Homes;
    ConnOf(cfg, s, c);
    HandPlace(cfg, s.reqs, c, s.conns[c], r);
    ReqOf(cfg, s, r);
  }

  lemma HandPlace(cfg: Config, reqs: seq<Request>, c: ConnId, k: Conn, r: Id)
    requires ConnInv(cfg, reqs, c, k) && k.popped == Some(r)
    ensures r < |reqs| && reqs[r].place == Claimed(c) && r in k.received
    ensures r !in k.inflight && r !in k.tearing
  {
    hide Answers, Delivered, WriterState, Covering, Marks, StubShape, WireShape, Causes, TornDown, Listed, AllAt,
      Progress;
    var i := k.answering - 1;
    assert k.received[i] == r;
  }

  // A written request of a flush is among those its loop takes as whole.
  lemma HandWritten(cfg: Config, s: State, c: ConnId, r: Id)
    requires Inv(cfg, s) && c < |s.conns| && s.conns[c].popped == Some(r) && r in Work(s.conns[c].writer).batch
    ensures
      var f := Work(s.conns[c].writer);
      f.full <= |f.batch| && r in f.batch[..f.full]
  {
    hide Inv, ConnInv;
    ConnOf(cfg, s, c);
    HandFacts(cfg, s, c, r);
    WrittenWhole(cfg, s.reqs, c, s.conns[c], r);
  }

  lemma WrittenWhole(cfg: Config, reqs: seq<Request>, c: ConnId, k: Conn, r: Id)
    requires ConnInv(cfg, reqs, c, k) && r in k.received && r in Work(k.writer).batch
    ensures Work(k.writer).full <= |Work(k.writer).batch| && r in Work(k.writer).batch[..Work(k.writer).full]
  {
    hide Answers, Delivered, WriterState, Covering, Marks, StubShape, WireShape, Causes, TornDown, Custody, Fifo;
    var f := Work(k.writer);
    var i :| 0 <= i < |f.batch| && f.batch[i] == r;
    assert i < f.full;
    assert f.batch[..f.full][i] == r;
  }

  // ---- no risk: the answer arrives ----

  predicate Own(e: Event, r: Id) { e.CancelWriting? && e.r == r }

  ghost predicate Answered(cfg: Config, s: State, r: Id) {
    && r < |s.reqs| && s.reqs[r].phase.Done?
    && s.reqs[r].outcome == Some(Outcome(Replies(cfg, r), Len(cfg, r), None))
  }

  // The request is still in hand after a step, or the reader has completed it.
  lemma HandStep(cfg: Config, s: State, e: Event, c: ConnId, r: Id)
    requires ValidConfig(cfg) && Inv(cfg, s) && CanStep(cfg, s, e) && InHand(s, c, r) && !AtRisk(s, c, r) && !Own(e, r)
    ensures Inv(cfg, Apply(cfg, s, e))
    ensures if e == Deliver(c) then Answered(cfg, Apply(cfg, s, e), r) else InHand(Apply(cfg, s, e), c, r)
  {
    hide Inv, WellFormed, Apply, Enabled, Turn, Fate, ValidConfig, InFlush, CanClose;
    var s' := Apply(cfg, s, e);
    StepKeeps(cfg, s, e);
    StepTurns(cfg, s, e, c);
    StepFate(cfg, s, e, r);
    HandFacts(cfg, s, c, r);
    if e == Deliver(c) {
      DeliverAnswers(cfg, s, c, r);
    } else {
      HandStays(s, e, c, s.conns[c], s'.conns[c], r);
      HandFacts(cfg, s', c, r);
      if s'.reqs[r].phase.Done? { NotSettled(cfg, s, e, c, r); }
    }
  }

  lemma DeliverAnswers(cfg: Config, s: State, c: ConnId, r: Id)
    requires Inv(cfg, s) && CanStep(cfg, s, Deliver(c)) && InHand(s, c, r)
    ensures Answered(cfg, Apply(cfg, s, Deliver(c)), r)
  {
    hide Inv, ListsExist, PlaceExists;
    WholeAnswer(cfg, s, c, r);
  }

  lemma HandStays(s: State, e: Event, c: ConnId, k: Conn, k': Conn, r: Id)
    requires WellFormed(s) && c < |s.conns| && Turn(s, e, c, k, k') && k.popped == Some(r) && e != Deliver(c)
    ensures k'.popped == Some(r)
  {
    hide WellFormed, WriterTurn, ListTurn;
  }

  lemma NotSettled(cfg: Config, s: State, e: Event, c: ConnId, r: Id)
    requires Inv(cfg, s) && CanStep(cfg, s, e) && InHand(s, c, r) && !AtRisk(s, c, r) && !Own(e, r) && e != Deliver(c)
    requires r < |Apply(cfg, s, e).reqs|
    ensures !Apply(cfg, s, e).reqs[r].phase.Done?
  {
    hide Inv, WellFormed, Apply, Enabled, InFlush, CanClose;
    if Apply(cfg, s, e).reqs[r].phase.Done? {
      WhoSettles(cfg, s, e, r);
      AnsweredBy(cfg, s, e, c, r);
      assert false;
    }
  }

  // No risk now, none after the next step.
  lemma SafeStep(cfg: Config, s: State, e: Event, c: ConnId, r: Id)
    requires ValidConfig(cfg) && Inv(cfg, s) && CanStep(cfg, s, e) && Tracked(s)
    requires InHand(s, c, r) && !AtRisk(s, c, r) && !Own(e, r) && e != Deliver(c)
    ensures InHand(Apply(cfg, s, e), c, r) && !AtRisk(Apply(cfg, s, e), c, r)
  {
    hide Inv, WellFormed, Apply, Enabled, Turn, Fate, ValidConfig, InFlush, CanClose, Reachable, Torn;
    var s' := Apply(cfg, s, e);
    HandStep(cfg, s, e, c, r);
    HandFacts(cfg, s, c, r);
    StepTurns(cfg, s, e, c);
    StepFate(cfg, s, e, r);
    if Torn(s', r) { TornBefore(cfg, s, e, c, r); }
    if InFlush(s'.conns[c], r) {
      FlushBefore(cfg, s, e, c, r);
      FlushDialed(s, c, r);
      OpenStays(cfg, s, e, c, r);
    }
    SettlingBefore(s, e, c, s.conns[c], s'.conns[c], r);
    MarkedBefore(cfg, s, e, c, r);
  }

  // A teardown does not list an answered request.
  lemma TornBefore(cfg: Config, s: State, e: Event, c: ConnId, r: Id)
    requires Inv(cfg, s) && CanStep(cfg, s, e) && InHand(s, c, r) && Torn(Apply(cfg, s, e), r)
    ensures Torn(s, r)
  {
    hide Inv, WellFormed, Apply, Enabled, Turn;
    var s' := Apply(cfg, s, e);
    var d :| 0 <= d < |s'.conns| && r in s'.conns[d].tearing;
    HandFacts(cfg, s, c, r);
    if d < |s.conns| {
      StepTurns(cfg, s, e, d);
      TornFrom(s, e, d, s.conns[d], s'.conns[d], r);
      TornRequests(cfg, s, d, r);
    } else {
      NewTurns(cfg, s, e, d);
    }
  }

  lemma FlushBefore(cfg: Config, s: State, e: Event, c: ConnId, r: Id)
    requires Inv(cfg, s) && CanStep(cfg, s, e) && InHand(s, c, r)
    requires c < |Apply(cfg, s, e).conns| && InFlush(Apply(cfg, s, e).conns[c], r)
    ensures InFlush(s.conns[c], r)
  {
    hide Inv, WellFormed, Apply, Enabled, ListTurn, OldestLive;
    HandFacts(cfg, s, c, r);
    StepTurns(cfg, s, e, c);
    Unclaimed(cfg, s, c, r);
  }

  lemma FlushDialed(s: State, c: ConnId, r: Id)
    requires Tracked(s) && c < |s.conns| && InFlush(s.conns[c], r)
    ensures s.conns[c].dialed
  {
    assert Reachable(s, c);
  }

  // A flush on a connection that nothing can close goes on like that.
  lemma OpenStays(cfg: Config, s: State, e: Event, c: ConnId, r: Id)
    requires Inv(cfg, s) && CanStep(cfg, s, e) && InHand(s, c, r) && InFlush(s.conns[c], r) && s.conns[c].dialed
    requires !CanClose(s.reqs, s.conns[c])
    requires c < |Apply(cfg, s, e).conns| && InFlush(Apply(cfg, s, e).conns[c], r)
    ensures !CanClose(Apply(cfg, s, e).reqs, Apply(cfg, s, e).conns[c])
  {
    hide Inv, WellFormed, Apply, Enabled, OldestLive, WriterTurn, Fate;
    var s', k := Apply(cfg, s, e), s.conns[c];
    StepTurns(cfg, s, e, c);
    if e.Expire? && Tears(s, e, c) {
      forall i | 0 <= i < |k.inflight| ensures k.inflight[i] < |s.reqs| { TornRequests(cfg, s, c, k.inflight[i]); }
      OldestIn(s.reqs, k.inflight, e.r);
    }
    assert !s'.conns[c].closed && s'.conns[c].inflight == k.inflight;
    forall x | x in k.inflight && x < |s'.reqs| ensures !CanExpire(s'.reqs[x]) {
      TornRequests(cfg, s, c, x);
      StepFate(cfg, s, e, x);
      SettledFate(cfg, s, e, x, s.reqs[x], s'.reqs[x]);
    }
  }

  lemma SettledFate(cfg: Config, s: State, e: Event, x: Id, q: Request, q': Request)
    requires CanStep(cfg, s, e) && x < |s.reqs| && q == s.reqs[x] && Fate(s, e, x, q, q') && !CanExpire(q)
    ensures !CanExpire(q')
  {
    hide WellFormed;
  }

  lemma {:induction false} OldestIn(reqs: seq<Request>, inflight: seq<Id>, r: Id)
    requires (forall i :: 0 <= i < |inflight| ==> inflight[i] < |reqs|) && OldestLive(reqs, inflight, r)
    ensures r in inflight
  {
    if inflight[0] != r { OldestIn(reqs, inflight[1..], r); }
  }

  lemma SettlingBefore(s: State, e: Event, c: ConnId, k: Conn, k': Conn, r: Id)
    requires WellFormed(s) && c < |s.conns| && Turn(s, e, c, k, k')
    ensures k'.writer.Settling? && k'.writer.seen.closed && r in k'.writer.left.batch ==>
      || (k.writer.Settling? && k.writer.seen.closed && r in k.writer.left.batch)
      || (InFlush(k, r) && CanClose(s.reqs, k))
  {
    hide WellFormed, ListTurn;
  }

  lemma MarkedBefore(cfg: Config, s: State, e: Event, c: ConnId, r: Id)
    requires Inv(cfg, s) && CanStep(cfg, s, e) && InHand(s, c, r) && r < |Apply(cfg, s, e).reqs|
    ensures Apply(cfg, s, e).reqs[r].onWire ==> s.reqs[r].onWire || InFlush(s.conns[c], r)
  {
    hide Inv, WellFormed, Apply, Enabled, MarksIt;
    HandFacts(cfg, s, c, r);
    StepFate(cfg, s, e, r);
    if Apply(cfg, s, e).reqs[r].onWire && !s.reqs[r].onWire {
      var d :| MarksIt(s, e, d, r);
      MarksClaimed(cfg, s, e, d, r);
      MarksFlush(s, e, d, r);
    }
  }

  lemma MarksFlush(s: State, e: Event, d: ConnId, r: Id)
    requires MarksIt(s, e, d, r)
    ensures d < |s.conns| && InFlush(s.conns[d], r)
  {
    var f := s.conns[d].writer.flush;
    assert f.batch == f.batch[..f.full] + f.batch[f.full..];
  }

  // ---- the future ----

  // What may still happen from a state, if the request's caller does not give up.
  ghost predicate Path(cfg: Config, ts: seq<State>, fs: seq<Event>, r: Id) {
    && |ts| == |fs| + 1
    && forall i :: 0 <= i < |fs| ==> Joined(cfg, ts[i], fs[i], ts[i + 1]) && !Own(fs[i], r)
  }

  lemma {:induction false} SafePath(cfg: Config, ts: seq<State>, fs: seq<Event>, n: nat, c: ConnId, r: Id)
    requires ValidConfig(cfg) && Path(cfg, ts, fs, r) && n < |ts| && Inv(cfg, ts[0]) && Tracked(ts[0])
    requires InHand(ts[0], c, r) && !AtRisk(ts[0], c, r)
    ensures Inv(cfg, ts[n]) && Tracked(ts[n])
    ensures Answered(cfg, ts[n], r) || (InHand(ts[n], c, r) && !AtRisk(ts[n], c, r))
  {
    hide Inv, WellFormed, Apply, Enabled, Tracked, AtRisk, InHand, Answered, ValidConfig;
    if n > 0 {
      SafePath(cfg, ts, fs, n - 1, c, r);
      var s, e := ts[n - 1], fs[n - 1];
      assert Joined(cfg, s, e, ts[n]);
      StepKeeps(cfg, s, e);
      StepTracked(cfg, s, e);
      if Answered(cfg, s, r) {
        AnsweredStays(cfg, s, e, r);
      } else if e == Deliver(c) {
        HandStep(cfg, s, e, c, r);
      } else {
        SafeStep(cfg, s, e, c, r);
      }
    }
  }

  lemma AnsweredStays(cfg: Config, s: State, e: Event, r: Id)
    requires CanStep(cfg, s, e) && Answered(cfg, s, r)
    ensures Answered(cfg, Apply(cfg, s, e), r)
  {
    hide WellFormed, Apply, Enabled;
    StepSettlesOnce(cfg, s, e, r);
  }

  // ---- risk: a continuation that loses the answer ----

  ghost predicate Lost(s: State, r: Id) {
    r < |s.reqs| && s.reqs[r].phase.Done? && s.reqs[r].outcome.Some? && s.reqs[r].outcome.value.err.Some?
  }

  // The request can still be settled with an error though its caller waits.
  ghost predicate CanLose(cfg: Config, s: State, r: Id) {
    exists ts, fs :: Path(cfg, ts, fs, r) && ts[0] == s && Lost(ts[|fs|], r)
  }

  lemma LosesNow(cfg: Config, s: State, r: Id)
    requires Lost(s, r)
    ensures CanLose(cfg, s, r)
  {
    assert Path(cfg, [s], [], r);
  }

  lemma LosesNext(cfg: Config, s: State, e: Event, r: Id)
    requires CanStep(cfg, s, e) && !Own(e, r) && CanLose(cfg, Apply(cfg, s, e), r)
    ensures CanLose(cfg, s, r)
  {
    hide WellFormed, Enabled, Apply, Lost;
    var ts, fs :| Path(cfg, ts, fs, r) && ts[0] == Apply(cfg, s, e) && Lost(ts[|fs|], r);
    var ts', fs' := [s] + ts, [e] + fs;
    forall i | 0 <= i < |fs'| ensures Joined(cfg, ts'[i], fs'[i], ts'[i + 1]) && !Own(fs'[i], r) {
      if i > 0 { assert Joined(cfg, ts[i - 1], fs[i - 1], ts[i]); }
    }
    assert Path(cfg, ts', fs', r) && ts'[|fs'|] == ts[|fs|];
  }

  // The writer found the connection closed: it works through its batch until it
  // settles the request.
  lemma {:induction false} WriterLoses(cfg: Config, s: State, c: ConnId, r: Id)
    requires ValidConfig(cfg) && Inv(cfg, s) && InHand(s, c, r)
    requires s.conns[c].writer.Settling? && s.conns[c].writer.seen.closed && r in s.conns[c].writer.left.batch
    ensures CanLose(cfg, s, r)
    decreases |s.conns[c].writer.left.batch|
  {
    hide Inv, WellFormed, Apply, Enabled, Turn, Fate, ValidConfig, CanLose, Rest;
    var e := SettleBatch(c);
    InvWellFormed(cfg, s);
    BatchEnabled(cfg, s, c);
    BatchApplied(cfg, s, c);
    var s' := Apply(cfg, s, e);
    StepKeeps(cfg, s, e);
    LateWriter(cfg, s, c);
    HandWritten(cfg, s, c, r);
    if s.conns[c].writer.left.batch[0] == r {
      BatchTakes(cfg, s, c, r);
      LosesNow(cfg, s', r);
    } else {
      BatchGoesOn(cfg, s, c, r);
      WriterLoses(cfg, s', c, r);
    }
    LosesNext(cfg, s, e, r);
  }

  lemma BatchEnabled(cfg: Config, s: State, c: ConnId)
    requires WellFormed(s) && c < |s.conns| && s.conns[c].writer.Settling? && s.conns[c].writer.left.batch != []
    ensures CanStep(cfg, s, SettleBatch(c))
  {
    hide WellFormed;
  }

  lemma BatchApplied(cfg: Config, s: State, c: ConnId)
    requires CanStep(cfg, s, SettleBatch(c))
    ensures Apply(cfg, s, SettleBatch(c)) == ApplySettleBatch(cfg, s, c)
  {
    hide WellFormed;
  }

  lemma BatchTakes(cfg: Config, s: State, c: ConnId, r: Id)
    requires WellFormed(s) && InHand(s, c, r) && s.conns[c].writer.Settling? && s.conns[c].writer.seen.closed
    requires s.conns[c].writer.left.batch != [] && s.conns[c].writer.left.batch[0] == r && s.conns[c].writer.left.full > 0
    requires s.conns[c].writer.seen.blamed.Some? ==> s.conns[c].writer.seen.cause.Some?
    ensures Lost(ApplySettleBatch(cfg, s, c), r)
  {
    hide WellFormed;
  }

  lemma BatchGoesOn(cfg: Config, s: State, c: ConnId, r: Id)
    requires WellFormed(s) && InHand(s, c, r) && s.conns[c].writer.Settling?
    requires s.conns[c].writer.left.batch != [] && s.conns[c].writer.left.batch[0] != r && r in s.conns[c].writer.left.batch
    ensures
      var s' := ApplySettleBatch(cfg, s, c);
      && InHand(s', c, r) && s'.conns[c].writer.Settling? && s'.conns[c].writer.seen == s.conns[c].writer.seen
      && r in s'.conns[c].writer.left.batch && |s'.conns[c].writer.left.batch| < |s.conns[c].writer.left.batch|
  {
    hide WellFormed, GoesBack, SettleWritten, Rest;
    ListsOfConn(s, c);
    RestHas(s.conns[c].writer.left, r);
  }

  lemma RestHas(f: Flush, r: Id)
    requires f.batch != [] && f.batch[0] != r && r in f.batch
    ensures r in Rest(f).batch && |Rest(f).batch| < |f.batch|
  {
    assert f.batch == [f.batch[0]] + f.batch[1..];
  }

  // A teardown's loop gets to the request, which is marked.
  lemma {:induction false} TeardownLoses(cfg: Config, s: State, d: ConnId, c: ConnId, r: Id)
    requires ValidConfig(cfg) && Inv(cfg, s) && InHand(s, c, r) && d < |s.conns|
    requires s.reqs[r].onWire && r in s.conns[d].tearing
    ensures CanLose(cfg, s, r)
    decreases |s.conns[d].tearing|
  {
    hide Inv, WellFormed, Apply, Enabled, ValidConfig, CanLose, Lost;
    var e := SettleLost(d);
    InvWellFormed(cfg, s);
    TornEnabled(cfg, s, d);
    ListsOfConn(s, d);
    var s' := Apply(cfg, s, e);
    StepKeeps(cfg, s, e);
    LateTeardown(cfg, s, d);
    LostApplied(cfg, s, d);
    if s.conns[d].tearing[0] == r {
      TornTakes(cfg, s, d, r);
      LosesNow(cfg, s', r);
    } else {
      TornGoesOn(cfg, s, d, c, r);
      TeardownLoses(cfg, s', d, c, r);
    }
    LosesNext(cfg, s, e, r);
  }

  lemma TornEnabled(cfg: Config, s: State, d: ConnId)
    requires WellFormed(s) && d < |s.conns| && s.conns[d].tearing != []
    ensures CanStep(cfg, s, SettleLost(d))
  {
    hide WellFormed;
  }

  lemma LostApplied(cfg: Config, s: State, d: ConnId)
    requires CanStep(cfg, s, SettleLost(d))
    ensures Apply(cfg, s, SettleLost(d)) == ApplySettleLost(cfg, s, d)
  {
    hide WellFormed;
  }

  lemma TornTakes(cfg: Config, s: State, d: ConnId, r: Id)
    requires WellFormed(s) && d < |s.conns| && s.conns[d].tearing != [] && s.conns[d].tearing[0] == r && r < |s.reqs|
    requires s.reqs[r].onWire && s.reqs[r].phase.Writing? && (s.conns[d].blamed.Some? ==> s.conns[d].cause.Some?)
    ensures Lost(ApplySettleLost(cfg, s, d), r)
  {
    hide WellFormed;
  }

  lemma TornGoesOn(cfg: Config, s: State, d: ConnId, c: ConnId, r: Id)
    requires WellFormed(s) && InHand(s, c, r) && s.reqs[r].onWire && d < |s.conns|
    requires s.conns[d].tearing != [] && s.conns[d].tearing[0] != r && r in s.conns[d].tearing && s.conns[d].tearing[0] < |s.reqs|
    ensures
      var s' := ApplySettleLost(cfg, s, d);
      && InHand(s', c, r) && s'.reqs[r].onWire && d < |s'.conns| && r in s'.conns[d].tearing
      && |s'.conns[d].tearing| < |s.conns[d].tearing|
  {
    hide WellFormed;
    var list := s.conns[d].tearing;
    assert list == [list[0]] + list[1..];
  }

  // flush's writer comes back to the lock.
  lemma FlushComesBack(cfg: Config, s: State, c: ConnId, r: Id)
    requires WellFormed(s) && InHand(s, c, r) && InFlush(s.conns[c], r)
    requires r in s.conns[c].writer.flush.batch[..s.conns[c].writer.flush.full]
    ensures CanStep(cfg, s, FlushEnd(c, Some(0)))
    ensures
      var s' := Apply(cfg, s, FlushEnd(c, Some(0)));
      && InHand(s', c, r) && |s'.conns| == |s.conns|
      && (forall d :: 0 <= d < |s.conns| ==> s'.conns[d].tearing == s.conns[d].tearing)
      && (s.conns[c].closed ==>
            s'.conns[c].writer.Settling? && s'.conns[c].writer.seen.closed && r in s'.conns[c].writer.left.batch)
      && (!s.conns[c].closed ==> s'.reqs[r].onWire)
  {
    hide WellFormed;
    ListsOfConn(s, c);
  }

  lemma ClosedFlushLoses(cfg: Config, s: State, c: ConnId, r: Id)
    requires ValidConfig(cfg) && Inv(cfg, s) && InHand(s, c, r) && InFlush(s.conns[c], r) && s.conns[c].closed
    ensures CanLose(cfg, s, r)
  {
    hide Inv, WellFormed, Apply, Enabled, ValidConfig, CanLose;
    InvWellFormed(cfg, s);
    HandWritten(cfg, s, c, r);
    FlushComesBack(cfg, s, c, r);
    StepKeeps(cfg, s, FlushEnd(c, Some(0)));
    WriterLoses(cfg, Apply(cfg, s, FlushEnd(c, Some(0))), c, r);
    LosesNext(cfg, s, FlushEnd(c, Some(0)), r);
  }

  // The writer marks the request, which a teardown elsewhere still lists.
  lemma TornFlushLoses(cfg: Config, s: State, c: ConnId, r: Id)
    requires ValidConfig(cfg) && Inv(cfg, s) && InHand(s, c, r) && InFlush(s.conns[c], r) && !s.conns[c].closed
    requires Torn(s, r)
    ensures CanLose(cfg, s, r)
  {
    hide Inv, WellFormed, Apply, Enabled, ValidConfig, CanLose;
    InvWellFormed(cfg, s);
    HandWritten(cfg, s, c, r);
    FlushComesBack(cfg, s, c, r);
    StepKeeps(cfg, s, FlushEnd(c, Some(0)));
    var d :| 0 <= d < |s.conns| && r in s.conns[d].tearing;
    TeardownLoses(cfg, Apply(cfg, s, FlushEnd(c, Some(0))), d, c, r);
    LosesNext(cfg, s, FlushEnd(c, Some(0)), r);
  }

  // ---- closing the connection under a flush ----

  predicate Outside(e: Event) { e.Add? || e.ClosePool? || e.Drain? || e.Expire? || e.CancelWriting? }

  // An event outside the flush leaves it, and the answer in hand, as they are.
  lemma OutsideKeeps(cfg: Config, s: State, e: Event, c: ConnId, r: Id)
    requires ValidConfig(cfg) && Inv(cfg, s) && CanStep(cfg, s, e) && Tracked(s) && Outside(e) && !Own(e, r)
    requires InHand(s, c, r) && InFlush(s.conns[c], r)
    ensures Inv(cfg, Apply(cfg, s, e)) && Tracked(Apply(cfg, s, e))
    ensures InHand(Apply(cfg, s, e), c, r) && InFlush(Apply(cfg, s, e).conns[c], r)
    ensures s.conns[c].closed ==> Apply(cfg, s, e).conns[c].closed
    ensures Apply(cfg, s, e).conns[c].inflight == s.conns[c].inflight || Apply(cfg, s, e).conns[c].closed
  {
    hide Inv, WellFormed, Apply, Enabled, Turn, Fate, ValidConfig, Reachable;
    var s' := Apply(cfg, s, e);
    StepKeeps(cfg, s, e);
    StepTracked(cfg, s, e);
    StepTurns(cfg, s, e, c);
    StepFate(cfg, s, e, r);
    OutsideTurn(s, e, c, s.conns[c], s'.conns[c]);
    ClosedTurn(s, e, c, s.conns[c], s'.conns[c]);
    HandFacts(cfg, s', c, r);
    if s'.reqs[r].phase.Done? {
      WhoSettles(cfg, s, e, r);
      assert false;
    }
  }

  lemma OutsideTurn(s: State, e: Event, c: ConnId, k: Conn, k': Conn)
    requires WellFormed(s) && c < |s.conns| && Turn(s, e, c, k, k') && Outside(e)
    ensures k'.writer == k.writer && k'.popped == k.popped
    ensures k'.inflight == k.inflight || k'.closed
  {
    hide WellFormed, OldestLive;
  }

  // A drain closes the connection, since nothing else is in flight on it.
  lemma DrainLoses(cfg: Config, s: State, c: ConnId, r: Id)
    requires ValidConfig(cfg) && Inv(cfg, s) && Tracked(s) && InHand(s, c, r) && InFlush(s.conns[c], r)
    requires s.closed && s.conns[c].inflight == []
    ensures CanLose(cfg, s, r)
  {
    hide Inv, WellFormed, Apply, Enabled, ValidConfig, CanLose, Turn;
    if s.conns[c].closed {
      ClosedFlushLoses(cfg, s, c, r);
    } else {
      assert Reachable(s, c);
      InvWellFormed(cfg, s);
      DrainEnabled(cfg, s, c);
      OutsideKeeps(cfg, s, Drain(c), c, r);
      StepTurns(cfg, s, Drain(c), c);
      DrainCloses(s, c, s.conns[c], Apply(cfg, s, Drain(c)).conns[c]);
      ClosedFlushLoses(cfg, Apply(cfg, s, Drain(c)), c, r);
      LosesNext(cfg, s, Drain(c), r);
    }
  }

  lemma DrainEnabled(cfg: Config, s: State, c: ConnId)
    requires WellFormed(s) && c in s.toDrain
    ensures CanStep(cfg, s, Drain(c))
  {
    hide WellFormed;
  }

  lemma DrainCloses(s: State, c: ConnId, k: Conn, k': Conn)
    requires WellFormed(s) && c < |s.conns| && Turn(s, Drain(c), c, k, k') && k.inflight == []
    ensures k'.closed
  {
    hide WellFormed;
  }

  // With nothing else in flight, closing the pool is enough.
  lemma EmptyLoses(cfg: Config, s: State, c: ConnId, r: Id)
    requires ValidConfig(cfg) && Inv(cfg, s) && Tracked(s) && InHand(s, c, r) && InFlush(s.conns[c], r)
    requires s.conns[c].inflight == []
    ensures CanLose(cfg, s, r)
    decreases s.holder.Some?, !s.closed
  {
    hide Inv, WellFormed, Apply, Enabled, ValidConfig, CanLose, Reachable;
    InvWellFormed(cfg, s);
    if s.conns[c].closed {
      ClosedFlushLoses(cfg, s, c, r);
    } else if s.closed {
      DrainLoses(cfg, s, c, r);
    } else {
      var e := if s.holder.Some? then Add else ClosePool;
      PoolEnabled(cfg, s);
      OutsideKeeps(cfg, s, e, c, r);
      if Apply(cfg, s, e).conns[c].closed {
        ClosedFlushLoses(cfg, Apply(cfg, s, e), c, r);
      } else {
        EmptyLoses(cfg, Apply(cfg, s, e), c, r);
      }
      LosesNext(cfg, s, e, r);
    }
  }

  lemma PoolEnabled(cfg: Config, s: State)
    requires WellFormed(s)
    ensures s.holder.Some? ==> CanStep(cfg, s, Add) && Apply(cfg, s, Add).holder.None?
    ensures s.holder.None? ==> CanStep(cfg, s, ClosePool) && Apply(cfg, s, ClosePool).closed
    ensures s.holder.None? ==> Apply(cfg, s, ClosePool).holder.None?
  {
    hide ListsExist, PlaceExists;
  }

  // A request in flight runs into its deadline: the connection is torn down.
  lemma ExpiryLoses(cfg: Config, s: State, c: ConnId, r: Id, x: Id)
    requires ValidConfig(cfg) && Inv(cfg, s) && Tracked(s) && InHand(s, c, r) && InFlush(s.conns[c], r)
    requires x in s.conns[c].inflight && x < |s.reqs| && s.reqs[x].phase.Done? && s.reqs[x].expiring
    requires AheadDone(s.reqs, s.conns[c].inflight, x)
    ensures CanLose(cfg, s, r)
  {
    hide Inv, WellFormed, Apply, Enabled, ValidConfig, CanLose, Reachable, OldestLive, AheadDone;
    InvWellFormed(cfg, s);
    if s.conns[c].closed {
      ClosedFlushLoses(cfg, s, c, r);
    } else {
      forall i | 0 <= i < |s.conns[c].inflight| ensures s.conns[c].inflight[i] < |s.reqs| {
        TornRequests(cfg, s, c, s.conns[c].inflight[i]);
      }
      TornRequests(cfg, s, c, x);
      OldestNow(s.reqs, s.conns[c].inflight, x);
      ExpireCloses(cfg, s, c, x);
      OutsideKeeps(cfg, s, Expire(x), c, r);
      ClosedFlushLoses(cfg, Apply(cfg, s, Expire(x)), c, r);
      LosesNext(cfg, s, Expire(x), r);
    }
  }

  // Everything in flight ahead of a request is settled.
  ghost predicate AheadDone(reqs: seq<Request>, inflight: seq<Id>, x: Id) {
    exists i :: 0 <= i < |inflight| && inflight[i] == x && DoneUpTo(reqs, inflight, i)
  }

  ghost predicate DoneUpTo(reqs: seq<Request>, inflight: seq<Id>, i: nat) {
    forall j :: 0 <= j < i && j < |inflight| ==> inflight[j] < |reqs| && reqs[inflight[j]].phase.Done?
  }

  lemma {:induction false} OldestNow(reqs: seq<Request>, inflight: seq<Id>, x: Id)
    requires (forall i :: 0 <= i < |inflight| ==> inflight[i] < |reqs|) && AheadDone(reqs, inflight, x)
    ensures OldestLive(reqs, inflight, x)
  {
    var i :| 0 <= i < |inflight| && inflight[i] == x && DoneUpTo(reqs, inflight, i);
    if inflight[0] != x {
      assert inflight[1..][i - 1] == x && DoneUpTo(reqs, inflight[1..], i - 1);
      OldestNow(reqs, inflight[1..], x);
    }
  }

  lemma ExpireCloses(cfg: Config, s: State, c: ConnId, x: Id)
    requires WellFormed(s) && c < |s.conns| && !s.conns[c].closed && x < |s.reqs|
    requires s.reqs[x].place == Claimed(c) && s.reqs[x].phase.Done? && s.reqs[x].expiring
    requires (forall i :: 0 <= i < |s.conns[c].inflight| ==> s.conns[c].inflight[i] < |s.reqs|)
    requires OldestLive(s.reqs, s.conns[c].inflight, x)
    ensures CanStep(cfg, s, Expire(x)) && c < |Apply(cfg, s, Expire(x)).conns| && Apply(cfg, s, Expire(x)).conns[c].closed
  {
    hide WellFormed, OldestLive;
  }

  lemma {:induction false} FirstLive(reqs: seq<Request>, inflight: seq<Id>, n: nat) returns (i: nat)
    requires n < |inflight| && (forall j :: 0 <= j < |inflight| ==> inflight[j] < |reqs|) && !reqs[inflight[n]].phase.Done?
    ensures i <= n && !reqs[inflight[i]].phase.Done? && DoneUpTo(reqs, inflight, i)
  {
    if j: nat :| j < n && !reqs[inflight[j]].phase.Done? {
      i := FirstLive(reqs, inflight, j);
    } else {
      i := n;
    }
  }

  // The oldest live request gives up at its deadline, then reports it.
  lemma DeadlineLoses(cfg: Config, s: State, c: ConnId, r: Id, i: nat)
    requires ValidConfig(cfg) && Inv(cfg, s) && Tracked(s) && InHand(s, c, r) && InFlush(s.conns[c], r)
    requires i < |s.conns[c].inflight| && s.conns[c].inflight[i] < |s.reqs|
    requires !s.reqs[s.conns[c].inflight[i]].phase.Done? && DoneUpTo(s.reqs, s.conns[c].inflight, i)
    ensures CanLose(cfg, s, r)
  {
    hide Inv, WellFormed, Apply, Enabled, ValidConfig, CanLose, Reachable, DoneUpTo;
    var x := s.conns[c].inflight[i];
    HandFacts(cfg, s, c, r);
    InvWellFormed(cfg, s);
    TornRequests(cfg, s, c, x);
    ClaimedNotQueued(cfg, s, x);
    DeadlineEnabled(cfg, s, x);
    var s' := Apply(cfg, s, CancelWriting(x, true));
    OutsideKeeps(cfg, s, CancelWriting(x, true), c, r);
    if s'.conns[c].closed {
      ClosedFlushLoses(cfg, s', c, r);
    } else {
      StillDone(cfg, s, x, s.conns[c].inflight, i);
      assert AheadDone(s'.reqs, s'.conns[c].inflight, x);
      ExpiryLoses(cfg, s', c, r, x);
    }
    LosesNext(cfg, s, CancelWriting(x, true), r);
  }

  lemma ClaimedNotQueued(cfg: Config, s: State, x: Id)
    requires Inv(cfg, s) && x < |s.reqs| && s.reqs[x].place.Claimed?
    ensures !s.reqs[x].phase.Queued?
  {
    hide Inv, OutcomeInv, Homes, Covered;
    ReqOf(cfg, s, x);
  }

  lemma DeadlineEnabled(cfg: Config, s: State, x: Id)
    requires WellFormed(s) && x < |s.reqs| && s.reqs[x].phase.Writing?
    ensures CanStep(cfg, s, CancelWriting(x, true))
    ensures
      var s' := Apply(cfg, s, CancelWriting(x, true));
      x < |s'.reqs| && s'.reqs[x].phase.Done? && s'.reqs[x].expiring
  {
    hide WellFormed;
  }

  lemma StillDone(cfg: Config, s: State, x: Id, inflight: seq<Id>, i: nat)
    requires WellFormed(s) && x < |s.reqs| && s.reqs[x].phase.Writing? && CanStep(cfg, s, CancelWriting(x, true))
    requires DoneUpTo(s.reqs, inflight, i)
    ensures DoneUpTo(Apply(cfg, s, CancelWriting(x, true)).reqs, inflight, i)
  {
    hide WellFormed;
  }

  lemma CloseLoses(cfg: Config, s: State, c: ConnId, r: Id)
    requires ValidConfig(cfg) && Inv(cfg, s) && Tracked(s) && InHand(s, c, r) && InFlush(s.conns[c], r)
    requires CanClose(s.reqs, s.conns[c])
    ensures CanLose(cfg, s, r)
  {
    hide Inv, WellFormed, ValidConfig, CanLose, Reachable, AheadDone, DoneUpTo, InFlush, Tracked;
    var inflight := s.conns[c].inflight;
    forall i | 0 <= i < |inflight| ensures inflight[i] < |s.reqs| { TornRequests(cfg, s, c, inflight[i]); }
    if s.conns[c].closed {
      ClosedFlushLoses(cfg, s, c, r);
    } else if inflight == [] {
      EmptyLoses(cfg, s, c, r);
    } else if n: nat :| n < |inflight| && !s.reqs[inflight[n]].phase.Done? {
      var i := FirstLive(s.reqs, inflight, n);
      DeadlineLoses(cfg, s, c, r, i);
    } else {
      var x :| x in inflight && x < |s.reqs| && CanExpire(s.reqs[x]);
      SettledAhead(s.reqs, inflight, x);
      ExpiryLoses(cfg, s, c, r, x);
    }
  }

  lemma SettledAhead(reqs: seq<Request>, inflight: seq<Id>, x: Id)
    requires (forall i :: 0 <= i < |inflight| ==> inflight[i] < |reqs| && reqs[inflight[i]].phase.Done?) && x in inflight
    ensures AheadDone(reqs, inflight, x)
  {
    var i :| 0 <= i < |inflight| && inflight[i] == x;
    assert DoneUpTo(reqs, inflight, i);
  }

  lemma RiskLoses(cfg: Config, s: State, c: ConnId, r: Id)
    requires ValidConfig(cfg) && Inv(cfg, s) && Tracked(s) && InHand(s, c, r) && AtRisk(s, c, r)
    ensures CanLose(cfg, s, r)
  {
    hide Inv, ValidConfig, CanLose, Tracked, CanClose;
    var k := s.conns[c];
    if k.writer.Settling? && k.writer.seen.closed && r in k.writer.left.batch {
      WriterLoses(cfg, s, c, r);
    } else if s.reqs[r].onWire && Torn(s, r) {
      var d :| 0 <= d < |s.conns| && r in s.conns[d].tearing;
      TeardownLoses(cfg, s, d, c, r);
    } else if CanClose(s.reqs, k) {
      CloseLoses(cfg, s, c, r);
    } else {
      OpenConnection(s.reqs, k);
      TornFlushLoses(cfg, s, c, r);
    }
  }

  lemma OpenConnection(reqs: seq<Request>, k: Conn)
    requires !CanClose(reqs, k)
    ensures !k.closed
  {
  }

  // An answer the reader has in hand can still be lost, though the caller waits,
  // exactly when the request is at risk: its writer is not yet back from the
  // flush and the connection is or can be closed meanwhile, or its writer came
  // back to a closed connection, or a teardown elsewhere lists the request.
  lemma AnswerLostIff(cfg: Config, ss: seq<State>, es: seq<Event>, i: nat, c: ConnId, r: Id)
    requires ValidConfig(cfg) && Run(cfg, ss, es) && i < |ss| && InHand(ss[i], c, r)
    ensures CanLose(cfg, ss[i], r) <==> AtRisk(ss[i], c, r)
  {
    hide Inv, Run, ValidConfig, Tracked, AtRisk, Path, CanLose, Answered;
    RunInv(cfg, ss, es, i);
    RunTracked(cfg, ss, es, i);
    if AtRisk(ss[i], c, r) {
      RiskLoses(cfg, ss[i], c, r);
    } else {
      SafeKeeps(cfg, ss[i], c, r);
    }
  }

  lemma SafeKeeps(cfg: Config, s: State, c: ConnId, r: Id)
    requires ValidConfig(cfg) && Inv(cfg, s) && Tracked(s) && InHand(s, c, r) && !AtRisk(s, c, r)
    ensures !CanLose(cfg, s, r)
  {
    hide Inv, ValidConfig, Tracked, AtRisk, Joined;
    if CanLose(cfg, s, r) {
      var ts, fs :| Path(cfg, ts, fs, r) && ts[0] == s && Lost(ts[|fs|], r);
      SafePath(cfg, ts, fs, |fs|, c, r);
      assert false;
    }
  }

  // An answer that is not at risk reaches its caller: as long as the caller does
  // not give up, the request waits in the reader's hands until the reader
  // completes it with the whole answer.
  lemma AnswerArrives(cfg: Config, ss: seq<State>, es: seq<Event>, i: nat, j: nat, c: ConnId, r: Id)
    requires ValidConfig(cfg) && Run(cfg, ss, es) && i <= j < |ss| && InHand(ss[i], c, r) && !AtRisk(ss[i], c, r)
    requires forall n :: i <= n < j ==> !Own(es[n], r)
    ensures Answered(cfg, ss[j], r) || (InHand(ss[j], c, r) && !AtRisk(ss[j], c, r))
  {
    hide Inv, Joined, ValidConfig, Tracked, AtRisk, Answered, InHand;
    RunInv(cfg, ss, es, i);
    RunTracked(cfg, ss, es, i);
    var ts, fs := ss[i..j + 1], es[i..j];
    forall n | 0 <= n < |fs| ensures Joined(cfg, ts[n], fs[n], ts[n + 1]) && !Own(fs[n], r) {
      assert ts[n] == ss[i + n] && fs[n] == es[i + n] && ts[n + 1] == ss[i + n + 1];
    }
    SafePath(cfg, ts, fs, j - i, c, r);
  }

  // ---- lost for no reason ----

  // The closings that leave no cause: a drain or a retirement of a connection
  // with nothing in flight, and the read that finishes a draining one.
  ghost predicate ClosesBare(s: State, e: Event, c: ConnId, k: Conn, k': Conn) {
    || (e == Drain(c) && k.inflight == [])
    || (Retires(s, e, c) && k.inflight == [])
    || (e == Read(c) && k.closing && |k.inflight| == 1 && k'.popped == Some(k.inflight[0]))
  }

  lemma BareTurn(s: State, e: Event, c: ConnId, k: Conn, k': Conn)
    requires WellFormed(s) && c < |s.conns| && k == s.conns[c] && Turn(s, e, c, k, k')
    requires Untorn(k) && !k.closed && k'.closed
    ensures k'.cause.None? <==> ClosesBare(s, e, c, k, k')
  {
    hide WellFormed, WriterTurn, OldestLive;
  }

  lemma {:induction false} CauseStays(cfg: Config, ss: seq<State>, es: seq<Event>, t: nat, j: nat, c: ConnId)
    requires ValidConfig(cfg) && Run(cfg, ss, es) && t <= j < |ss| && c < |ss[t].conns| && ss[t].conns[c].closed
    ensures c < |ss[j].conns| && ss[j].conns[c].closed && ss[j].conns[c].cause == ss[t].conns[c].cause
    decreases j
  {
    hide Inv, Joined, WellFormed, ValidConfig, WriterTurn, ListTurn, Tears;
    if t < j {
      CauseStays(cfg, ss, es, t, j - 1, c);
      TurnAt(cfg, ss, es, j - 1, c);
      ClosedTurn(ss[j - 1], es[j - 1], c, ss[j - 1].conns[c], ss[j].conns[c]);
    }
  }

  // The error a late writer gives an answered request.
  lemma LateError(cfg: Config, s: State, c: ConnId, r: Id)
    requires Inv(cfg, s) && c < |s.conns| && s.conns[c].writer.Settling? && s.conns[c].writer.seen.closed
    requires s.conns[c].writer.left.batch != []
    ensures
      var seen := s.conns[c].writer.seen;
      LostError(seen.cause, seen.blamed, r) == Some(Error.Lost(None)) <==> s.conns[c].cause.None?
  {
    hide Inv, ConnInv;
    ConnOf(cfg, s, c);
    FirstOfBatch(cfg, s.reqs, c, s.conns[c]);
  }

  lemma LateOutcome(cfg: Config, s: State, c: ConnId, r: Id)
    requires WellFormed(s) && InHand(s, c, r) && s.conns[c].writer.Settling? && s.conns[c].writer.seen.closed
    requires s.conns[c].writer.left.batch != [] && s.conns[c].writer.left.batch[0] == r && s.conns[c].writer.left.full > 0
    ensures
      var q' := ApplySettleBatch(cfg, s, c).reqs[r];
      q'.outcome.Some? && q'.outcome.value.err == LostError(s.conns[c].writer.seen.cause, s.conns[c].writer.seen.blamed, r)
  {
    hide WellFormed;
  }

  // When the writer settles an answered request, the error names no cause
  // exactly when the connection was closed by a drain, by a retirement or by the
  // read that finished it.
  lemma NilCauseIff(cfg: Config, ss: seq<State>, es: seq<Event>, t: nat, i: nat, c: ConnId, r: Id)
    requires ValidConfig(cfg) && Run(cfg, ss, es) && t < i < |es| && c < |ss[t].conns| && c < |ss[t + 1].conns|
    requires !ss[t].conns[c].closed && ss[t + 1].conns[c].closed
    requires es[i] == SettleBatch(c) && InHand(ss[i], c, r) && r < |ss[i + 1].reqs| && ss[i + 1].reqs[r].phase.Done?
    ensures ss[i + 1].reqs[r].outcome.Some?
    ensures ss[i + 1].reqs[r].outcome.value.err == Some(Error.Lost(None)) <==>
      ClosesBare(ss[t], es[t], c, ss[t].conns[c], ss[t + 1].conns[c])
  {
    hide Inv, WellFormed, Apply, Enabled, ValidConfig, Turn, ClosesBare, LostError;
    TurnAt(cfg, ss, es, t, c);
    OpenConn(cfg, ss[t], c);
    BareTurn(ss[t], es[t], c, ss[t].conns[c], ss[t + 1].conns[c]);
    CauseStays(cfg, ss, es, t + 1, i, c);
    RunInv(cfg, ss, es, i);
    assert Joined(cfg, ss[i], es[i], ss[i + 1]);
    WhoSettles(cfg, ss[i], es[i], r);
    AnsweredBy(cfg, ss[i], es[i], c, r);
    Owned(cfg, ss[i], es[i], c, r);
    LateError(cfg, ss[i], c, r);
    BatchApplied(cfg, ss[i], c);
    LateOutcome(cfg, ss[i], c, r);
  }
}
