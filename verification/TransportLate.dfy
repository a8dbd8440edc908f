// teardown's loop runs after the lock is gone (transport.go:544-553). When it
// gets to a request, the request may be on another connection by then.
module TransportLate {
  import opened Protocol
  import opened Transport
  import opened TransportInvariant
  import opened TransportSteps
  import opened TransportTheorems
  import opened TransportTurns

  lemma TurnAt(cfg: Config, ss: seq<State>, es: seq<Event>, i: nat, c: ConnId)
    requires ValidConfig(cfg) && Run(cfg, ss, es) && i < |es| && c < |ss[i].conns|
    ensures WellFormed(ss[i]) && Inv(cfg, ss[i]) && c < |ss[i + 1].conns|
    ensures Turn(ss[i], es[i], c, ss[i].conns[c], ss[i + 1].conns[c])
  {
    hide Inv, WellFormed, Enabled, Apply, Turn, ValidConfig;
    assert Joined(cfg, ss[i], es[i], ss[i + 1]);
    RunInv(cfg, ss, es, i);
    StepTurns(cfg, ss[i], es[i], c);
  }

  lemma FateAt(cfg: Config, ss: seq<State>, es: seq<Event>, i: nat, r: Id)
    requires ValidConfig(cfg) && Run(cfg, ss, es) && i < |es| && r < |ss[i].reqs|
    ensures WellFormed(ss[i]) && Inv(cfg, ss[i]) && r < |ss[i + 1].reqs|
    ensures Fate(ss[i], es[i], r, ss[i].reqs[r], ss[i + 1].reqs[r])
  {
    hide Inv, WellFormed, Enabled, Apply, Fate, ValidConfig;
    assert Joined(cfg, ss[i], es[i], ss[i + 1]);
    RunInv(cfg, ss, es, i);
    StepFate(cfg, ss[i], es[i], r);
  }

  lemma NewAt(cfg: Config, ss: seq<State>, es: seq<Event>, i: nat, c: ConnId)
    requires Run(cfg, ss, es) && i < |es| && |ss[i].conns| <= c < |ss[i + 1].conns|
    ensures ss[i + 1].conns[c] == NewConn && c in ss[i + 1].members && !ss[i].closed && !ss[i + 1].closed
  {
    hide WellFormed, Enabled, Apply;
    assert Joined(cfg, ss[i], es[i], ss[i + 1]);
    NewTurns(cfg, ss[i], es[i], c);
  }

  // ---- what a teardown took over ----

  lemma TornRequests(cfg: Config, s: State, c: ConnId, r: Id)
    requires Inv(cfg, s) && c < |s.conns|
    ensures r in s.conns[c].tearing ==> r < |s.reqs| && s.conns[c].closed
    ensures r in s.conns[c].inflight ==> r < |s.reqs| && s.reqs[r].place == Claimed(c)
    ensures r in Work(s.conns[c].writer).batch ==> r < |s.reqs| && s.reqs[r].place == Claimed(c)
  {
    hide Inv, Answers, Delivered, Written, WriterState, Covering, Marks, StubShape, Distinct, Apart, Fifo, Progress,
      WireShape, Causes, Listed;
    ConnOf(cfg, s, c);
  }

  // A list of requests to tear down is made when the connection closes, and only
  // gets shorter.
  lemma TornFrom(s: State, e: Event, c: ConnId, k: Conn, k': Conn, r: Id)
    requires WellFormed(s) && c < |s.conns| && Turn(s, e, c, k, k') && r in k'.tearing
    ensures r in k.tearing || (!k.closed && r in k.inflight && !e.SettleBatch?)
  {
    hide WellFormed, WriterTurn, OldestLive;
  }

  lemma FirstBack(cfg: Config, s: State, c: ConnId, r: Id)
    requires Inv(cfg, s) && c < |s.conns| && r < |s.reqs| && s.conns[c].writer.Settling?
    requires s.conns[c].writer.left.batch != [] && s.conns[c].writer.left.batch[0] == r
    ensures s.reqs[r].place == Claimed(c)
    ensures s.reqs[r].homes != [] && s.reqs[r].homes[|s.reqs[r].homes| - 1] == c
    ensures s.conns[c].writer.left.full == 0 ==> !s.reqs[r].onWire
  {
    hide Inv, ConnInv, OutcomeInv, Covered;
    ConnOf(cfg, s, c);
    ReqOf(cfg, s, r);
    FirstOfBatch(cfg, s.reqs, c, s.conns[c]);
  }

  // A request on a list of a teardown that its connection no longer has claimed
  // went back to the queue after the teardown.
  lemma {:induction false} WentBack(cfg: Config, ss: seq<State>, es: seq<Event>, i: nat, c: ConnId, r: Id) returns (j: nat)
    requires ValidConfig(cfg) && Run(cfg, ss, es) && i < |ss| && c < |ss[i].conns| && r < |ss[i].reqs|
    requires r in ss[i].conns[c].tearing && ss[i].reqs[r].place != Claimed(c)
    ensures j < i && c < |ss[j].conns| && r in ss[j].conns[c].tearing && Requeues(ss[j], es[j], c, r)
    decreases i
  {
    hide Inv, WellFormed, Joined, Turn, Fate, ValidConfig, GoesBack;
    if i > 0 && c >= |ss[i - 1].conns| { NewAt(cfg, ss, es, i - 1, c); }
    var s, e := ss[i - 1], es[i - 1];
    TurnAt(cfg, ss, es, i - 1, c);
    TornRequests(cfg, s, c, r);
    TornFrom(s, e, c, s.conns[c], ss[i].conns[c], r);
    FateAt(cfg, ss, es, i - 1, r);
    Moved(s, e, r, s.reqs[r], ss[i].reqs[r]);
    if r in s.conns[c].tearing {
      if s.reqs[r].place == Claimed(c) { j := i - 1; } else { j := WentBack(cfg, ss, es, i - 1, c, r); }
    }
  }

  lemma Moved(s: State, e: Event, r: Id, q: Request, q': Request)
    requires Fate(s, e, r, q, q')
    ensures q.place.Claimed? ==> q'.place == q.place || Requeues(s, e, q.place.c, r)
  {
  }

  // ---- marked since ----

  lemma MarksClaimed(cfg: Config, s: State, e: Event, d: ConnId, r: Id)
    requires Inv(cfg, s) && MarksIt(s, e, d, r)
    ensures r < |s.reqs| && s.reqs[r].place == Claimed(d)
  {
    hide Inv;
    var f := s.conns[d].writer.flush;
    assert r in f.batch;
    TornRequests(cfg, s, d, r);
  }

  // A marked request never leaves its connection.
  lemma {:induction false} MarkedStays(cfg: Config, ss: seq<State>, es: seq<Event>, m: nat, i: nat, d: ConnId, r: Id)
    requires ValidConfig(cfg) && Run(cfg, ss, es) && m <= i < |ss| && r < |ss[m].reqs|
    requires ss[m].reqs[r].onWire && ss[m].reqs[r].place == Claimed(d)
    ensures r < |ss[i].reqs| && ss[i].reqs[r].onWire && ss[i].reqs[r].place == Claimed(d)
    decreases i
  {
    hide Inv, Joined, ValidConfig, WellFormed;
    if m < i {
      MarkedStays(cfg, ss, es, m, i - 1, d, r);
      FateAt(cfg, ss, es, i - 1, r);
      if Requeues(ss[i - 1], es[i - 1], d, r) { FirstBack(cfg, ss[i - 1], d, r); }
    }
  }

  lemma {:induction false} MarkedSince(cfg: Config, ss: seq<State>, es: seq<Event>, j: nat, i: nat, r: Id)
    returns (m: nat, d: ConnId)
    requires ValidConfig(cfg) && Run(cfg, ss, es) && j <= i < |ss| && r < |ss[j].reqs| && r < |ss[i].reqs|
    requires !ss[j].reqs[r].onWire && ss[i].reqs[r].onWire
    ensures j <= m < i && MarksIt(ss[m], es[m], d, r) && ss[i].reqs[r].place == Claimed(d)
    decreases i
  {
    hide Inv, Joined, ValidConfig, WellFormed, MarksIt, GoesBack;
    RequestsStay(cfg, ss, es, j, i - 1, r);
    FateAt(cfg, ss, es, i - 1, r);
    if ss[i - 1].reqs[r].onWire {
      m, d := MarkedSince(cfg, ss, es, j, i - 1, r);
      MarkedStays(cfg, ss, es, i - 1, i, d, r);
    } else {
      d :| MarksIt(ss[i - 1], es[i - 1], d, r);
      m := i - 1;
      MarksClaimed(cfg, ss[m], es[m], d, r);
      NoRequeue(ss[m], es[m], d, r);
    }
  }

  lemma NoRequeue(s: State, e: Event, d: ConnId, r: Id)
    requires MarksIt(s, e, d, r)
    ensures forall c :: !Requeues(s, e, c, r)
  {
  }

  // Requests stay, and keep the connections they were queued on.
  lemma {:induction false} RequestsStay(cfg: Config, ss: seq<State>, es: seq<Event>, j: nat, i: nat, r: Id)
    requires ValidConfig(cfg) && Run(cfg, ss, es) && j <= i < |ss| && r < |ss[j].reqs|
    ensures r < |ss[i].reqs| && ss[j].reqs[r].homes <= ss[i].reqs[r].homes
    decreases i
  {
    hide Inv, Joined, ValidConfig, WellFormed, MarksIt, Requeues;
    if j < i {
      RequestsStay(cfg, ss, es, j, i - 1, r);
      FateAt(cfg, ss, es, i - 1, r);
    }
  }

  lemma BackInQueue(cfg: Config, ss: seq<State>, es: seq<Event>, j: nat, c: ConnId, r: Id)
    requires ValidConfig(cfg) && Run(cfg, ss, es) && j < |es| && c < |ss[j].conns| && Requeues(ss[j], es[j], c, r)
    ensures r < |ss[j].reqs| && r < |ss[j + 1].reqs| && !ss[j + 1].reqs[r].onWire
    ensures ss[j].reqs[r].homes != [] && ss[j].reqs[r].homes[|ss[j].reqs[r].homes| - 1] == c
  {
    hide Inv, Covered, Homes, OutcomeInv, ValidConfig, ListsExist, PlaceExists;
    assert Joined(cfg, ss[j], es[j], ss[j + 1]);
    RunInv(cfg, ss, es, j);
    FirstBack(cfg, ss[j], c, r);
  }

  // ---- the late loop ----

  // c's own flush sent r back to the queue after c's teardown had listed it, and
  // another connection has marked it as written since.
  ghost predicate WrittenElsewhere(ss: seq<State>, es: seq<Event>, i: nat, c: ConnId, r: Id)
    requires i <= |es| < |ss|
  {
    exists j, m, d ::
      && 0 <= j < m < i && d != c && c < |ss[j].conns| && r in ss[j].conns[c].tearing
      && Requeues(ss[j], es[j], c, r) && MarksIt(ss[m], es[m], d, r)
  }

  lemma ElsewhereIff(cfg: Config, ss: seq<State>, es: seq<Event>, i: nat, c: ConnId, r: Id)
    requires ValidConfig(cfg) && Run(cfg, ss, es) && i < |ss| && c < |ss[i].conns| && r < |ss[i].reqs|
    requires r in ss[i].conns[c].tearing
    ensures
      var q := ss[i].reqs[r];
      && (WrittenElsewhere(ss, es, i, c, r) <==> q.onWire && q.place.Claimed? && q.place.c != c)
      && (WrittenElsewhere(ss, es, i, c, r) ==> c in q.homes)
  {
    hide Inv, Joined, Requeues, MarksIt, ValidConfig;
    var q := ss[i].reqs[r];
    if q.onWire && q.place.Claimed? && q.place.c != c {
      var j := WentBack(cfg, ss, es, i, c, r);
      BackInQueue(cfg, ss, es, j, c, r);
      var m, d := MarkedSince(cfg, ss, es, j + 1, i, r);
      assert WrittenElsewhere(ss, es, i, c, r);
    }
    if WrittenElsewhere(ss, es, i, c, r) {
      var j, m, d :|
        && 0 <= j < m < i && d != c && c < |ss[j].conns| && r in ss[j].conns[c].tearing
        && Requeues(ss[j], es[j], c, r) && MarksIt(ss[m], es[m], d, r);
      BackInQueue(cfg, ss, es, j, c, r);
      RequestsStay(cfg, ss, es, j, i, r);
      RunInv(cfg, ss, es, m);
      MarksClaimed(cfg, ss[m], es[m], d, r);
      MarkedNow(cfg, ss, es, m, d, r);
      MarkedStays(cfg, ss, es, m + 1, i, d, r);
    }
  }

  lemma MarkedNow(cfg: Config, ss: seq<State>, es: seq<Event>, m: nat, d: ConnId, r: Id)
    requires ValidConfig(cfg) && Run(cfg, ss, es) && m < |es| && MarksIt(ss[m], es[m], d, r) && r < |ss[m].reqs|
    requires ss[m].reqs[r].place == Claimed(d)
    ensures r < |ss[m + 1].reqs| && ss[m + 1].reqs[r].onWire && ss[m + 1].reqs[r].place == Claimed(d)
  {
    hide WellFormed, MarksIt, ValidConfig;
    assert Joined(cfg, ss[m], es[m], ss[m + 1]);
    assert es[m].FlushEnd? && es[m].c == d by { MarksEvent(ss[m], es[m], d, r); }
    EndFate(cfg, ss[m], d, es[m].err, r);
  }

  lemma MarksEvent(s: State, e: Event, d: ConnId, r: Id)
    requires MarksIt(s, e, d, r)
    ensures e.FlushEnd? && e.c == d
  {
  }

  // teardown's loop settles the request it looks at exactly when that request is
  // marked as written and unanswered. It takes the request away from another
  // connection exactly when the request went back to the queue after the
  // teardown and is marked again since.
  lemma LateTeardownIff(cfg: Config, ss: seq<State>, es: seq<Event>, i: nat, c: ConnId, r: Id)
    requires ValidConfig(cfg) && Run(cfg, ss, es) && i < |es| && es[i] == SettleLost(c)
    requires c < |ss[i].conns| && ss[i].conns[c].tearing != [] && ss[i].conns[c].tearing[0] == r && r < |ss[i].reqs|
    ensures r < |ss[i + 1].reqs|
    ensures
      var k, q, q' := ss[i].conns[c], ss[i].reqs[r], ss[i + 1].reqs[r];
      var settled := !q.phase.Done? && q'.phase.Done?;
      && (settled <==> q.onWire && q.phase.Writing?)
      && (settled ==> k.closed && q.place.Claimed? && q'.outcome.Some? && q'.outcome.value.written == Len(cfg, r))
      && (settled && q.place.c != c <==> q.phase.Writing? && WrittenElsewhere(ss, es, i, c, r))
      && (settled && q.place.c != c ==> c in q.homes && q.homes[|q.homes| - 1] == q.place.c)
  {
    hide Inv, CanStep, ConnInv, Covered, OutcomeInv, WrittenElsewhere, ValidConfig;
    RunInv(cfg, ss, es, i);
    assert Joined(cfg, ss[i], es[i], ss[i + 1]);
    ReqOf(cfg, ss[i], r);
    LateTeardown(cfg, ss[i], c);
    assert r in ss[i].conns[c].tearing;
    ElsewhereIff(cfg, ss, es, i, c, r);
  }

  // ---- when it cannot happen ----

  // A closed connection's writer takes on nothing new.
  lemma BatchShrinks(s: State, e: Event, c: ConnId, k: Conn, k': Conn, r: Id)
    requires WellFormed(s) && c < |s.conns| && Turn(s, e, c, k, k') && k'.closed
    requires r in Work(k'.writer).batch
    ensures r in Work(k.writer).batch
  {
    hide WellFormed, OldestLive;
  }

  lemma ClosedTurn(s: State, e: Event, c: ConnId, k: Conn, k': Conn)
    requires WellFormed(s) && c < |s.conns| && Turn(s, e, c, k, k')
    ensures k.closed ==> k'.closed
  {
    hide WellFormed, OldestLive, WriterTurn;
  }

  lemma {:induction false} BatchSince(cfg: Config, ss: seq<State>, es: seq<Event>, t: nat, j: nat, c: ConnId, r: Id)
    requires ValidConfig(cfg) && Run(cfg, ss, es) && t < j < |ss| && c < |ss[t].conns|
    requires c < |ss[t + 1].conns| && ss[t + 1].conns[c].closed
    ensures c < |ss[j].conns| && ss[j].conns[c].closed
    ensures r in Work(ss[j].conns[c].writer).batch ==> r in Work(ss[t].conns[c].writer).batch
    decreases j
  {
    hide Inv, Joined, WellFormed, Turn, ValidConfig;
    if t + 1 < j { BatchSince(cfg, ss, es, t, j - 1, c, r); }
    TurnAt(cfg, ss, es, j - 1, c);
    ClosedTurn(ss[j - 1], es[j - 1], c, ss[j - 1].conns[c], ss[j].conns[c]);
    if r in Work(ss[j].conns[c].writer).batch {
      BatchShrinks(ss[j - 1], es[j - 1], c, ss[j - 1].conns[c], ss[j].conns[c], r);
    }
  }

  lemma {:induction false} StaysClosed(cfg: Config, ss: seq<State>, es: seq<Event>, j: nat, t: nat, c: ConnId)
    requires ValidConfig(cfg) && Run(cfg, ss, es) && j <= t < |ss| && c < |ss[j].conns| && ss[j].conns[c].closed
    ensures c < |ss[t].conns| && ss[t].conns[c].closed
    decreases t
  {
    hide Inv, Joined, WellFormed, Turn, ValidConfig;
    if j < t {
      StaysClosed(cfg, ss, es, j, t - 1, c);
      TurnAt(cfg, ss, es, t - 1, c);
      ClosedTurn(ss[t - 1], es[t - 1], c, ss[t - 1].conns[c], ss[t].conns[c]);
    }
  }

  // A teardown's loop takes nothing away from another connection that was not in
  // the writer's batch when the connection closed; with an idle writer it takes
  // nothing away at all.
  lemma OnlyTheBatchIsLate(cfg: Config, ss: seq<State>, es: seq<Event>, t: nat, i: nat, c: ConnId, r: Id)
    requires ValidConfig(cfg) && Run(cfg, ss, es) && t < i < |ss| && c < |ss[t].conns| && c < |ss[t + 1].conns|
    requires !ss[t].conns[c].closed && ss[t + 1].conns[c].closed
    requires c < |ss[i].conns| && r in ss[i].conns[c].tearing && r < |ss[i].reqs|
    requires r !in Work(ss[t].conns[c].writer).batch
    ensures ss[i].reqs[r].place == Claimed(c)
  {
    hide Inv, Run, ValidConfig, GoesBack;
    if ss[i].reqs[r].place != Claimed(c) {
      var j := WentBack(cfg, ss, es, i, c, r);
      RunInv(cfg, ss, es, j);
      TornRequests(cfg, ss[j], c, r);
      if j <= t { StaysClosed(cfg, ss, es, j, t, c); } else { BatchSince(cfg, ss, es, t, j, c, r); }
      assert false;
    }
  }
}
