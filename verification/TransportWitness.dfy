// Two runs in which the transport does less than its comments say. Every state
// is written out and each step is checked by itself.
module TransportWitness {
  import opened Protocol
  import opened Transport
  import opened TransportTheorems

  const REPLY := RawResponse(MN, None, NoMetadata, None, [], false, false, false, [], false)

  // Every request is one byte long and is answered by one reply.
  function OneByte(r: nat): Exchange { Exchange([109], (reply: RawResponse) => true, Script([REPLY], None)) }

  function Small(): Config { Config(OneByte, 1) }

  ghost predicate Goes(s: State, e: Event, s': State) {
    CanStep(Small(), s, e) && s' == Apply(Small(), s, e)
  }

  // A run that ends in a given state.
  ghost predicate Reaches(s: State) {
    exists ss: seq<State>, es: seq<Event> :: Run(Small(), ss, es) && ss[|es|] == s
  }

  lemma Start()
    ensures Reaches(Init)
  {
    assert Run(Small(), [Init], []);
  }

  lemma Onward(s: State, e: Event, s': State)
    requires Reaches(s) && Goes(s, e, s')
    ensures Reaches(s')
  {
    hide Goes, Joined;
    var ss: seq<State>, es: seq<Event> :| Run(Small(), ss, es) && ss[|es|] == s;
    Longer(Small(), ss, es, e, s') by { GoesJoins(s, e, s'); }
    hide Run;
    assert (ss + [s'])[|es + [e]|] == s';
  }

  lemma GoesJoins(s: State, e: Event, s': State)
    requires Goes(s, e, s')
    ensures Joined(Small(), s, e, s')
  {
    hide CanStep, Apply, Small;
  }

  lemma Longer(cfg: Config, ss: seq<State>, es: seq<Event>, e: Event, s': State)
    requires Run(cfg, ss, es) && Joined(cfg, ss[|es|], e, s')
    ensures |ss| == |es| + 1 && Run(cfg, ss + [s'], es + [e])
  {
    hide Joined;
    var ss', es' := ss + [s'], es + [e];
    forall i | 0 <= i < |es'| ensures Joined(cfg, ss'[i], es'[i], ss'[i + 1]) {
      if i < |es| { assert Joined(cfg, ss[i], es[i], ss[i + 1]); }
    }
  }

  // A request of these runs on its way, and how it is settled.
  const HELD := NewRequest.(place := Held(0), homes := [0])
  const WAITING := NewRequest.(place := Pending(0), homes := [0])
  const CLAIMED := Request(Writing, [], false, None, 0, Claimed(0), [0], 0, false)
  const ANSWERED := CLAIMED.(responses := [REPLY], sent := 1)
  const SERVED := Settle(ANSWERED, [REPLY], None)

  function Settle(q: Request, responses: seq<RawResponse>, err: Option<Error>): Request {
    q.(phase := Done, outcome := Some(Outcome(responses, 1, err)), closes := 1)
  }

  // ---- a drain in the middle of a flush ----

  function DrainedConn(w: Writer): Conn {
    NewConn.(dialed := true, closing := true, closed := true, served := true, popped := Some(0), writer := w,
             wire := [WireByte(0, 0)], received := [0], answering := 1)
  }

  const D1 := State([NewRequest], [], [], false, [], None)
  const D2 := State([HELD], [NewConn], [0], false, [], Some((0, 0)))
  const D3 := State([WAITING], [NewConn.(pending := [0])], [0], false, [], None)
  const D4 := State([WAITING], [NewConn.(pending := [0], dialed := true)], [0], false, [], None)
  const D5 := State(
    [CLAIMED],
    [NewConn.(dialed := true, inflight := [0], writer := Sending(Flush([0], 0, 0)))],
    [0], false, [], None)
  const D6 := State(
    [CLAIMED.(sent := 1)],
    [NewConn.(dialed := true, inflight := [0], writer := Sending(Flush([0], 1, 0)),
              wire := [WireByte(0, 0)], received := [0])],
    [0], false, [], None)
  const D7 := State(
    [ANSWERED],
    [NewConn.(dialed := true, served := true, popped := Some(0), writer := Sending(Flush([0], 1, 0)),
              wire := [WireByte(0, 0)], received := [0], answering := 1)],
    [0], false, [], None)
  const D8 := State(
    [ANSWERED],
    [NewConn.(dialed := true, served := true, popped := Some(0), writer := Sending(Flush([0], 1, 0)),
              wire := [WireByte(0, 0)], received := [0], answering := 1)],
    [], true, [0], None)
  const D9 := State([ANSWERED], [DrainedConn(Sending(Flush([0], 1, 0)))], [], true, [], None)
  const D10 := State(
    [ANSWERED],
    [DrainedConn(Settling(Flush([0], 1, 0), Seen(true, None, None, true, None), []))],
    [], true, [], None)
  const D11 := State(
    [Settle(ANSWERED, [REPLY], Some(Lost(None)))],
    [DrainedConn(Settling(Flush([], 0, 0), Seen(true, None, None, true, None), []))],
    [], true, [], None)

  lemma D1Follows()
    ensures Goes(Init, Submit, D1)
  {
  }

  lemma D2Follows()
    ensures Goes(D1, Enqueue(0, {}), D2)
  {
    assert PickLocked(Small(), D1.conns, D1.members, {}) == Choice([NewConn], [0], 0);
  }

  lemma D3Follows()
    ensures Goes(D2, Add, D3)
  {
    assert [] + [0] == [0];
  }

  lemma D4Follows()
    ensures Goes(D3, Dial(0), D4)
  {
  }

  lemma D5Follows()
    ensures Goes(D4, Claim(0), D5)
  {
    assert Live(D4.reqs, [0]) == [0];
    assert ClaimAll(D4.reqs, [0], 0) == D5.reqs;
  }

  lemma D6Follows()
    ensures Goes(D5, WriteByte(0), D6)
  {
    assert [] + [WireByte(0, 0)] == [WireByte(0, 0)] && [] + [0] == [0];
  }

  lemma D7Follows()
    ensures Goes(D6, Read(0), D7)
  {
    assert [0][1..] == [] && [] + [REPLY] == [REPLY];
  }

  lemma D8Follows()
    ensures Goes(D7, ClosePool, D8)
  {
  }

  lemma D9Follows()
    ensures Goes(D8, Drain(0), D9)
  {
    NoneLeft();
    NothingMoved();
    hide Without, MoveAll;
    var none: seq<Id> := [];
    assert none + none == none;
  }

  lemma NoneLeft()
    ensures Without([0], 0) == []
  {
  }

  lemma NothingMoved()
    ensures MoveAll(D8.reqs, [], Drained(0)) == D8.reqs
  {
  }

  lemma D10Follows()
    ensures Goes(D9, FlushEnd(0, None), D10)
  {
  }

  lemma D11Follows()
    ensures Goes(D10, SettleBatch(0), D11)
  {
    assert [0][1..] == [];
  }

  // Closing the pool can cost a caller an answer the reader already has: drain
  // closes the connection with no cause while its writer has yet to retake the
  // lock, so the writer settles the answered request as lost.
  lemma DrainDuringFlushLosesAnAnswer()
    ensures exists s :: Reaches(s) && |s.reqs| == 1 && s.reqs[0].outcome == Some(Outcome([REPLY], 1, Some(Lost(None))))
  {
    hide Goes, Reaches;
    Start();
    D1Follows();
    Onward(Init, Submit, D1);
    D2Follows();
    Onward(D1, Enqueue(0, {}), D2);
    D3Follows();
    Onward(D2, Add, D3);
    D4Follows();
    Onward(D3, Dial(0), D4);
    D5Follows();
    Onward(D4, Claim(0), D5);
    D6Follows();
    Onward(D5, WriteByte(0), D6);
    D7Follows();
    Onward(D6, Read(0), D7);
    D8Follows();
    Onward(D7, ClosePool, D8);
    D9Follows();
    Onward(D8, Drain(0), D9);
    D10Follows();
    Onward(D9, FlushEnd(0, None), D10);
    D11Follows();
    Onward(D10, SettleBatch(0), D11);
    assert Reaches(D11) && |D11.reqs| == 1 && D11.reqs[0].outcome == Some(Outcome([REPLY], 1, Some(Lost(None))));
  }

  // ---- a teardown's loop that runs late ----

  // The first connection once it is torn down, and what its writer saw then.
  function TornConn(tearing: seq<Id>, w: Writer): Conn {
    NewConn.(dialed := true, served := true, rehome := true, closed := true, cause := Some(Wire(0)), blamed := Some(1),
             tearing := tearing, writer := w, wire := [WireByte(0, 0)], received := [0], answering := 1)
  }

  const OVERTAKEN := Seen(true, Some(Wire(0)), Some(1), true, Some(Wire(9)))

  const T1 := State([NewRequest], [], [], false, [], None)
  const T2 := State([NewRequest, NewRequest], [], [], false, [], None)
  const T3 := State([HELD, NewRequest], [NewConn], [0], false, [], Some((0, 0)))
  const T4 := State([WAITING, NewRequest], [NewConn.(pending := [0])], [0], false, [], None)
  const T5 := State([WAITING, HELD], [NewConn.(pending := [0])], [0], false, [], Some((1, 0)))
  const T6 := State([WAITING, WAITING], [NewConn.(pending := [0, 1])], [0], false, [], None)
  const T7 := State([WAITING, WAITING], [NewConn.(pending := [0, 1], dialed := true)], [0], false, [], None)
  const T8 := State(
    [CLAIMED, CLAIMED],
    [NewConn.(dialed := true, inflight := [0, 1], writer := Sending(Flush([0, 1], 0, 0)))],
    [0], false, [], None)
  const T9 := State(
    [CLAIMED.(sent := 1), CLAIMED],
    [NewConn.(dialed := true, inflight := [0, 1], writer := Sending(Flush([0, 1], 1, 0)),
              wire := [WireByte(0, 0)], received := [0])],
    [0], false, [], None)
  const T10 := State(
    [ANSWERED, CLAIMED],
    [NewConn.(dialed := true, served := true, inflight := [1], popped := Some(0), writer := Sending(Flush([0, 1], 1, 0)),
              wire := [WireByte(0, 0)], received := [0], answering := 1)],
    [0], false, [], None)
  const T11 := State(
    [SERVED, CLAIMED],
    [NewConn.(dialed := true, served := true, inflight := [1], writer := Sending(Flush([0, 1], 1, 0)),
              wire := [WireByte(0, 0)], received := [0], answering := 1)],
    [0], false, [], None)
  const T12 := State([SERVED, CLAIMED], [TornConn([1], Sending(Flush([0, 1], 1, 0)))], [0], false, [], None)
  const T13 := State(
    [SERVED, CLAIMED],
    [TornConn([1], Settling(Flush([0, 1], 1, 0), OVERTAKEN, []))],
    [0], false, [], None)
  const T14 := State(
    [SERVED, CLAIMED],
    [TornConn([1], Settling(Flush([1], 0, 0), OVERTAKEN, []))],
    [0], false, [], None)
  const T15 := State(
    [SERVED, Request(Queued, [], false, None, 0, Requeued(0), [0], 0, false)],
    [TornConn([1], Settling(Flush([], 0, 0), OVERTAKEN, [1]))],
    [0], false, [], None)
  const T16 := State(
    [SERVED, Request(Queued, [], false, None, 0, Requeued(0), [0], 0, false)],
    [TornConn([1], Rehoming([1]))],
    [0], false, [], None)
  const T17 := State(
    [SERVED, Request(Queued, [], false, None, 0, Held(1), [0, 1], 0, false)],
    [TornConn([1], Rehoming([])), NewConn],
    [1], false, [], Some((1, 1)))
  const T18 := State(
    [SERVED, Request(Queued, [], false, None, 0, Pending(1), [0, 1], 0, false)],
    [TornConn([1], Rehoming([])), NewConn.(pending := [1])],
    [1], false, [], None)
  const T19 := State(
    [SERVED, Request(Queued, [], false, None, 0, Pending(1), [0, 1], 0, false)],
    [TornConn([1], Rehoming([])), NewConn.(pending := [1], dialed := true)],
    [1], false, [], None)
  const T20 := State(
    [SERVED, Request(Writing, [], false, None, 0, Claimed(1), [0, 1], 0, false)],
    [TornConn([1], Rehoming([])), NewConn.(dialed := true, inflight := [1], writer := Sending(Flush([1], 0, 0)))],
    [1], false, [], None)
  const T21 := State(
    [SERVED, Request(Writing, [], false, None, 0, Claimed(1), [0, 1], 1, false)],
    [TornConn([1], Rehoming([])), NewConn.(dialed := true, inflight := [1], writer := Sending(Flush([1], 1, 0)),
                                           wire := [WireByte(1, 0)], received := [1])],
    [1], false, [], None)
  const T22 := State(
    [SERVED, Request(Writing, [], true, None, 0, Claimed(1), [0, 1], 1, false)],
    [TornConn([1], Rehoming([])), NewConn.(dialed := true, inflight := [1], wire := [WireByte(1, 0)], received := [1])],
    [1], false, [], None)
  const T23 := State(
    [SERVED, Request(Done, [], true, Some(Outcome([], 1, Some(Wire(0)))), 1, Claimed(1), [0, 1], 1, false)],
    [TornConn([], Rehoming([])), NewConn.(dialed := true, inflight := [1], wire := [WireByte(1, 0)], received := [1])],
    [1], false, [], None)

  lemma T1Follows()
    ensures Goes(Init, Submit, T1)
  {
  }

  lemma T2Follows()
    ensures Goes(T1, Submit, T2)
  {
  }

  lemma T3Follows()
    ensures Goes(T2, Enqueue(0, {}), T3)
  {
    assert PickLocked(Small(), T2.conns, T2.members, {}) == Choice([NewConn], [0], 0);
  }

  lemma T4Follows()
    ensures Goes(T3, Add, T4)
  {
    assert [] + [0] == [0];
  }

  lemma T5Follows()
    ensures Goes(T4, Enqueue(1, {}), T5)
  {
    assert Survivors(T4.conns, [0], {}) == [0];
    assert PickLocked(Small(), T4.conns, T4.members, {}) == Choice(T4.conns, [0], 0);
  }

  lemma T6Follows()
    ensures Goes(T5, Add, T6)
  {
    assert [0] + [1] == [0, 1];
  }

  lemma T7Follows()
    ensures Goes(T6, Dial(0), T7)
  {
  }

  lemma T8Follows()
    ensures Goes(T7, Claim(0), T8)
  {
    BothLive();
    BothClaimed();
    hide Live, ClaimAll;
    assert [] + [0, 1] == [0, 1];
  }

  lemma T9Follows()
    ensures Goes(T8, WriteByte(0), T9)
  {
    assert [] + [WireByte(0, 0)] == [WireByte(0, 0)] && [] + [0] == [0];
  }

  lemma T10Follows()
    ensures Goes(T9, Read(0), T10)
  {
    assert [0, 1][1..] == [1] && [] + [REPLY] == [REPLY];
  }

  lemma T11Follows()
    ensures Goes(T10, Deliver(0), T11)
  {
  }

  lemma T12Follows()
    ensures Goes(T11, ReadFail(0, false, 0), T12)
  {
    assert MoveAll(T11.reqs, [], Leftover(0)) == T11.reqs;
  }

  lemma T13Follows()
    ensures Goes(T12, FlushEnd(0, Some(9)), T13)
  {
  }

  lemma T14Follows()
    ensures Goes(T13, SettleBatch(0), T14)
  {
  }

  lemma T15Follows()
    ensures Goes(T14, SettleBatch(0), T15)
  {
    assert [1][1..] == [] && [] + [1] == [1];
  }

  lemma T16Follows()
    ensures Goes(T15, FlushFail(0), T16)
  {
  }

  lemma T17Follows()
    ensures Goes(T16, Rehome(0, true, {}), T17)
  {
    PickAfterLoss();
    assert [1][1..] == [];
    hide PickLocked;
    assert [0] + [1] == [0, 1];
    assert T16.conns[0 := T17.conns[0]] == T17.conns[..1];
  }

  lemma T18Follows()
    ensures Goes(T17, Add, T18)
  {
    assert [] + [1] == [1];
  }

  lemma T19Follows()
    ensures Goes(T18, Dial(1), T19)
  {
  }

  lemma T20Follows()
    ensures Goes(T19, Claim(1), T20)
  {
    LoneLive();
    LoneClaimed();
    hide Live, ClaimAll;
    assert [] + [1] == [1];
  }

  lemma LoneLive()
    ensures Live(T19.reqs, [1]) == [1]
  {
  }

  lemma LoneClaimed()
    ensures ClaimAll(T19.reqs, [1], 1) == T20.reqs
  {
  }

  lemma T21Follows()
    ensures Goes(T20, WriteByte(1), T21)
  {
    assert [] + [WireByte(1, 0)] == [WireByte(1, 0)] && [] + [1] == [1];
  }

  lemma T22Follows()
    ensures Goes(T21, FlushEnd(1, None), T22)
  {
    LoneMarked();
    hide MarkAll;
    assert [1][..1] == [1];
  }

  lemma LoneMarked()
    ensures MarkAll(T21.reqs, [1]) == T22.reqs
  {
  }

  lemma T23Follows()
    ensures Goes(T22, SettleLost(0), T23)
  {
    assert [1][1..] == [];
  }

  lemma BothLive()
    ensures Live(T7.reqs, [0, 1]) == [0, 1]
  {
    assert [0, 1][..1] == [0];
    assert Live(T7.reqs, [0]) == [0];
  }

  lemma BothClaimed()
    ensures ClaimAll(T7.reqs, [0, 1], 0) == T8.reqs
  {
  }

  lemma PickAfterLoss()
    ensures PickLocked(Small(), T17.conns[..1], [0], {}) == Choice(T17.conns, [1], 1)
  {
    assert Survivors(T17.conns[..1], [0], {}) == [];
  }

  // Teardown's loop reads onWire after the lock is gone. When the writer has
  // sent the request on and a live connection has written it by then, the old
  // connection's teardown settles it with its own cause.
  lemma StaleTeardownSettlesARehomedRequest()
    ensures exists s ::
      && Reaches(s) && |s.reqs| == 2 && |s.conns| == 2
      && s.reqs[1].outcome == Some(Outcome([], 1, s.conns[0].cause)) && s.conns[0].cause.Some?
      && !s.conns[1].closed && s.conns[1].inflight == [1] && s.conns[1].wire == Span(1, 1)
  {
    hide Goes, Reaches;
    Start();
    T1Follows();
    Onward(Init, Submit, T1);
    T2Follows();
    Onward(T1, Submit, T2);
    T3Follows();
    Onward(T2, Enqueue(0, {}), T3);
    T4Follows();
    Onward(T3, Add, T4);
    T5Follows();
    Onward(T4, Enqueue(1, {}), T5);
    T6Follows();
    Onward(T5, Add, T6);
    T7Follows();
    Onward(T6, Dial(0), T7);
    T8Follows();
    Onward(T7, Claim(0), T8);
    T9Follows();
    Onward(T8, WriteByte(0), T9);
    T10Follows();
    Onward(T9, Read(0), T10);
    T11Follows();
    Onward(T10, Deliver(0), T11);
    T12Follows();
    Onward(T11, ReadFail(0, false, 0), T12);
    T13Follows();
    Onward(T12, FlushEnd(0, Some(9)), T13);
    T14Follows();
    Onward(T13, SettleBatch(0), T14);
    T15Follows();
    Onward(T14, SettleBatch(0), T15);
    T16Follows();
    Onward(T15, FlushFail(0), T16);
    T17Follows();
    Onward(T16, Rehome(0, true, {}), T17);
    T18Follows();
    Onward(T17, Add, T18);
    T19Follows();
    Onward(T18, Dial(1), T19);
    T20Follows();
    Onward(T19, Claim(1), T20);
    T21Follows();
    Onward(T20, WriteByte(1), T21);
    T22Follows();
    Onward(T21, FlushEnd(1, None), T22);
    T23Follows();
    Onward(T22, SettleLost(0), T23);
    assert T23.conns[1].wire == Span(1, 1);
    assert Reaches(T23) && |T23.reqs| == 2 && |T23.conns| == 2;
  }
}
