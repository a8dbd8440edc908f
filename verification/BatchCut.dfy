// A group whose exchange fails: the connection is lost, or the server answers a
// command with an error line. The server has executed some of the commands, and
// some of its replies have come back.
module BatchCut {
  import opened Protocol
  import opened Commands
  import opened Builders
  import opened Results
  import opened Batch
  import opened BatchRefinement
  import opened BatchPlan
  import Transport

  // How far an exchange got: commands executed, replies that came back, payload
  // bytes reported as written, and the error.
  datatype Cut = Cut(executed: nat, returned: nat, written: nat, error: Transport.Error)

  // The replies a server has sent after so many commands of a group.
  function RepliesTo<S>(exec: Exec<S>, s: S, items: seq<Item>, executed: nat): seq<RawResponse>
    requires executed <= |items|
  {
    ServeAll(exec, s, Quiets(items[..executed])).1
  }

  // No more replies than were sent, and a command was written before it was
  // executed.
  ghost predicate Possible<S>(exec: Exec<S>, s: S, laid: seq<Item>, cut: Cut) {
    && cut.executed <= |laid| && cut.returned <= |RepliesTo(exec, s, laid, cut.executed)|
    && forall k :: 0 <= k < cut.executed ==> laid[k].end <= cut.written
  }

  function CutExchange<S>(exec: Exec<S>, s: S, items: seq<Item>, cut: Cut): Exchanged
    requires cut.executed <= |items| && cut.returned <= |RepliesTo(exec, s, items, cut.executed)|
  {
    Exchanged(RepliesTo(exec, s, items, cut.executed)[..cut.returned], cut.written, Some(cut.error))
  }

  // What a caller is told of one operation of such a group: its own answer, or
  // the error, ambiguous as soon as a change may have been made.
  ghost predicate ToldOf(item: Item, executed: bool, cut: Cut, answer: Answer, told: Answer) {
    || (executed && told == answer)
    || (told == Failed(Results.Lost(cut.error), SideEffect(item.op, item.command) && item.end <= cut.written)
        && (executed && SideEffect(item.op, item.command) ==> told.ambiguous))
  }

  lemma {:induction false} AloneGrows<S>(exec: Exec<S>, s: S, items: seq<Item>, n: nat)
    requires n <= |items|
    ensures |RunAlone(exec, s, items).1| == |items| && RunAlone(exec, s, items[..n]).1 == RunAlone(exec, s, items).1[..n]
  {
    hide Interpret;
    if n < |items| {
      AloneGrows(exec, s, items[..|items| - 1], n);
      assert items[..|items| - 1][..n] == items[..n];
    } else {
      assert items[..n] == items;
      AloneWhole(exec, s, items);
    }
  }

  lemma {:induction false} AloneWhole<S>(exec: Exec<S>, s: S, items: seq<Item>)
    ensures |RunAlone(exec, s, items).1| == |items|
  {
    hide Interpret;
    if items != [] { AloneWhole(exec, s, items[..|items| - 1]); }
  }

  // Fewer replies give no answer, or the same one.
  lemma {:induction false} AnswersPrefix(replies: seq<RawResponse>, n: nat, index: int)
    requires n <= |replies|
    ensures Answers(replies[..n], index) <= Answers(replies, index)
  {
    hide TokenIndex;
    if n < |replies| {
      AnswersPrefix(replies[..|replies| - 1], n, index);
      assert replies[..|replies| - 1][..n] == replies[..n];
    } else {
      assert replies[..n] == replies;
    }
  }

  lemma NoBarrierYet(replies: seq<RawResponse>, n: nat, items: seq<Item>)
    requires Correlated(replies, items) && n <= |replies|
    ensures !Barrier(replies[..n])
  {
  }

  // A lost exchange never makes a result up: each operation of the group is told
  // its own one-by-one answer or the error, and one whose change may have been
  // made without being reported is told so.
  lemma CutShort<S(!new)>(exec: Exec<S>, s: S, laid: seq<Item>, cut: Cut, k: nat)
    requires Honest(exec) && DistinctIndexes(laid) && (forall i :: 0 <= i < |laid| ==> Prepared(laid[i]))
    requires Possible(exec, s, laid, cut) && k < |laid|
    ensures ServeAll(exec, s, Quiets(laid[..cut.executed])).0 == RunAlone(exec, s, laid[..cut.executed]).0
    ensures |RunAlone(exec, s, laid).1| == |laid|
    ensures ToldOf(laid[k], k < cut.executed, cut, RunAlone(exec, s, laid).1[k],
                   Decide(laid[k], Expected(laid), CutExchange(exec, s, laid, cut)))
  {
    hide Honest, Prepared, ServeAll, RunAlone, Quiets, Expected, Decide, Resolves, Correlated, ToldOf;
    var done := laid[..cut.executed];
    assert DistinctIndexes(done);
    ServedAsAlone(exec, s, done);
    AloneGrows(exec, s, laid, cut.executed);
    var replies := RepliesTo(exec, s, laid, cut.executed);
    var answers := RunAlone(exec, s, laid).1;
    NoBarrierYet(replies, cut.returned, done);
    AnswersPrefix(replies, cut.returned, laid[k].index);
    if k < cut.executed {
      assert done[k] == laid[k];
      ToldIfExecuted(laid[k], Expected(laid), replies, cut, answers[k]);
    } else {
      NotAnswered(replies, done, laid[k].index);
      ToldIfNot(laid[k], Expected(laid), replies, cut, answers[k]);
    }
  }

  lemma NotAnswered(replies: seq<RawResponse>, done: seq<Item>, index: nat)
    requires Correlated(replies, done) && forall i :: 0 <= i < |done| ==> done[i].index != index
    ensures Answers(replies, index) == []
  {
    AnswersUnknown(replies, done, index);
  }

  lemma ToldIfExecuted(item: Item, expected: set<int>, replies: seq<RawResponse>, cut: Cut, answer: Answer)
    requires cut.returned <= |replies| && Resolves(item, replies, answer) && item.end <= cut.written
    requires !Barrier(replies[..cut.returned])
    requires Answers(replies[..cut.returned], item.index) <= Answers(replies, item.index)
    ensures ToldOf(item, true, cut, answer,
                   Decide(item, expected, Exchanged(replies[..cut.returned], cut.written, Some(cut.error))))
  {
    hide Answers, Interpret, Infer, NeedsReply, SideEffect, Fault, Barrier;
  }

  lemma ToldIfNot(item: Item, expected: set<int>, replies: seq<RawResponse>, cut: Cut, answer: Answer)
    requires cut.returned <= |replies| && Answers(replies, item.index) == []
    requires !Barrier(replies[..cut.returned])
    requires Answers(replies[..cut.returned], item.index) <= Answers(replies, item.index)
    ensures ToldOf(item, false, cut, answer,
                   Decide(item, expected, Exchanged(replies[..cut.returned], cut.written, Some(cut.error))))
  {
    hide Answers, Interpret, Infer, NeedsReply, SideEffect, Fault, Barrier;
  }
}
