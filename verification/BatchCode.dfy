// batch and resolveGroup with their loops and maps (batch.go:164-332), and the
// batch over all servers.
module BatchCode {
  import opened Protocol
  import opened Text
  import opened Commands
  import opened Builders
  import opened Results
  import opened Batch
  import opened BatchRefinement

  // ---- correlating replies ----

  // byIndex holds the expected positions seen once, badIndex those seen more
  // often.
  ghost predicate Sorted(expected: set<int>, responses: seq<RawResponse>, byIndex: map<int, RawResponse>, badIndex: set<int>) {
    forall i :: SortedAt(expected, responses, byIndex, badIndex, i)
  }

  ghost predicate SortedAt(expected: set<int>, responses: seq<RawResponse>, byIndex: map<int, RawResponse>,
                           badIndex: set<int>, i: int) {
    var mine := Answers(responses, i);
    && (i in byIndex <==> i in expected && |mine| == 1)
    && (i in byIndex ==> byIndex[i] == mine[0])
    && (i in badIndex <==> i in expected && |mine| >= 2)
  }

  lemma SortedNext(expected: set<int>, responses: seq<RawResponse>, r: RawResponse, byIndex: map<int, RawResponse>,
                   badIndex: set<int>, byIndex': map<int, RawResponse>, badIndex': set<int>)
    requires Sorted(expected, responses, byIndex, badIndex)
    requires
      var index := TokenIndex(r);
      if r.code == MN || index.None? || index.value !in expected then byIndex' == byIndex && badIndex' == badIndex
      else
        var i := index.value;
        if i in byIndex then byIndex' == byIndex - {i} && badIndex' == badIndex + {i}
        else if i in badIndex then byIndex' == byIndex && badIndex' == badIndex
        else byIndex' == byIndex[i := r] && badIndex' == badIndex
    ensures Sorted(expected, responses + [r], byIndex', badIndex')
  {
    hide TokenIndex;
    forall i ensures SortedAt(expected, responses + [r], byIndex', badIndex', i) {
      assert SortedAt(expected, responses, byIndex, badIndex, i);
      AnswersNext(responses, r, i);
    }
  }

  lemma AnswersNext(responses: seq<RawResponse>, r: RawResponse, i: int)
    ensures
      Answers(responses + [r], i) ==
        if r.code != MN && TokenIndex(r) == Some(i) then Answers(responses, i) + [r] else Answers(responses, i)
  {
    assert (responses + [r])[..|responses|] == responses;
  }

  lemma FaultNext(responses: seq<RawResponse>, r: RawResponse, expected: set<int>)
    ensures
      LastFault(responses + [r], expected) ==
        if FaultOf(r, expected).Some? then FaultOf(r, expected) else LastFault(responses, expected)
    ensures Barrier(responses + [r]) == (Barrier(responses) || r.code == MN)
  {
    assert (responses + [r])[..|responses|] == responses;
    assert (responses + [r])[|responses|] == r;
    if Barrier(responses) {
      var i :| 0 <= i < |responses| && responses[i].code == MN;
      assert (responses + [r])[i].code == MN;
    }
    if Barrier(responses + [r]) && r.code != MN {
      var i :| 0 <= i < |responses + [r]| && (responses + [r])[i].code == MN;
      assert responses[i].code == MN;
    }
  }

  lemma NothingSorted(expected: set<int>)
    ensures Sorted(expected, [], map[], {})
    ensures LastFault([], expected).None? && !Barrier([])
  {
  }

  // The first loop of resolveGroup (batch.go:259-286).
  method Correlate(expected: set<int>, responses: seq<RawResponse>)
    returns (byIndex: map<int, RawResponse>, badIndex: set<int>, barrier: bool, fault: Option<Problem>)
    ensures Sorted(expected, responses, byIndex, badIndex)
    ensures barrier == Barrier(responses) && fault == LastFault(responses, expected)
  {
    byIndex, badIndex, barrier, fault := map[], {}, false, None;
    NothingSorted(expected);
    assert responses[..0] == [];
    for n := 0 to |responses|
      invariant Sorted(expected, responses[..n], byIndex, badIndex)
      invariant barrier == Barrier(responses[..n]) && fault == LastFault(responses[..n], expected)
    {
      hide Sorted, Barrier, LastFault;
      var r := responses[n];
      ghost var before := responses[..n];
      assert responses[..n + 1] == before + [r];
      FaultNext(before, r, expected);
      ghost var wasBy, wasBad := byIndex, badIndex;
      if r.code == MN {
        barrier := true;
      } else if r.token == [] {
        fault := Some(OmittedToken);
      } else {
        var index := ParseInt(r.token);
        if index.None? {
          fault := Some(InvalidToken);
        } else if index.value !in expected {
          fault := Some(UnknownToken);
        } else if index.value in byIndex {
          byIndex := byIndex - {index.value};
          badIndex := badIndex + {index.value};
        } else if index.value !in badIndex {
          byIndex := byIndex[index.value := r];
        }
      }
      SortedNext(expected, before, r, wasBy, wasBad, byIndex, badIndex);
    }
    assert responses[..|responses|] == responses;
  }

  // resolveGroup (batch.go:250-332): every position of the group is written
  // exactly once, with what Decide says, and no other is touched.
  method ResolveGroup(output: array<Answer>, items: seq<Item>, x: Exchanged)
    requires DistinctIndexes(items) && forall k :: 0 <= k < |items| ==> items[k].index < output.Length
    modifies output
    ensures forall k :: 0 <= k < |items| ==> output[items[k].index] == Decide(items[k], Expected(items), x)
    ensures forall j :: 0 <= j < output.Length && j !in Expected(items) ==> output[j] == old(output[j])
  {
    hide Sorted, Decide, Expected, LastFault, Barrier, Fault;
    var expected: set<int> := Expected(items);
    var byIndex, badIndex, barrier, fault := Correlate(expected, x.responses);
    FaultIs(x, expected);
    if x.err.None? && !barrier { fault := Some(NoBarrier); }
    for n := 0 to |items|
      invariant forall k :: 0 <= k < n ==> output[items[k].index] == Decide(items[k], expected, x)
      invariant forall j :: 0 <= j < output.Length && j !in expected ==> output[j] == old(output[j])
    {
      var item := items[n];
      assert item.index in expected;
      assert forall k :: 0 <= k < n ==> items[k].index != item.index;
      var result := ResolveItem(item, expected, x, byIndex, badIndex, barrier, fault);
      output[item.index] := result;
    }
  }

  lemma FaultIs(x: Exchanged, expected: set<int>)
    ensures Fault(x, expected) ==
      if x.err.None? && !Barrier(x.responses) then Some(NoBarrier) else LastFault(x.responses, expected)
  {
  }

  // One turn of resolveGroup's second loop (batch.go:291-331).
  method ResolveItem(item: Item, expected: set<int>, x: Exchanged, byIndex: map<int, RawResponse>, badIndex: set<int>,
                     barrier: bool, fault: Option<Problem>)
    returns (result: Answer)
    requires Sorted(expected, x.responses, byIndex, badIndex) && item.index in expected
    requires barrier == Barrier(x.responses) && fault == Fault(x, expected)
    ensures result == Decide(item, expected, x)
  {
    hide Answers, Fault, Barrier, Interpret, Infer, SideEffect;
    assert SortedAt(expected, x.responses, byIndex, badIndex, item.index);
    var ambiguous := SideEffect(item.op, item.command) && x.written >= item.end;
    if item.index in badIndex {
      result := Failed(RepeatedToken, ambiguous);
    } else if item.index in byIndex {
      result := Interpret(item.op, byIndex[item.index].(token := []));
    } else if barrier && fault.None? {
      if !NeedsReply(item.op) { result := Infer(item.op); } else { result := Failed(MissingReply, ambiguous); }
    } else {
      var cause := if x.err.Some? then Results.Lost(x.err.value) else if fault.Some? then fault.value else PipelineFailed;
      result := Failed(cause, ambiguous);
    }
  }

  // ---- honesty ----

  lemma {:induction false} FaultFree(responses: seq<RawResponse>, expected: set<int>)
    ensures LastFault(responses, expected).None? <==>
            forall i :: 0 <= i < |responses| ==> FaultOf(responses[i], expected).None?
  {
    if responses != [] {
      var front, last := responses[..|responses| - 1], responses[|responses| - 1];
      FaultFree(front, expected);
      assert responses == front + [last];
      hide FaultOf;
      assert LastFault(responses, expected).None? <==>
        FaultOf(last, expected).None? && forall i :: 0 <= i < |front| ==> FaultOf(responses[i], expected).None?;
    }
  }

  // Whatever comes back: a result is ambiguous exactly when a change may be
  // hidden, the whole command was written, and no single reply of its own and no
  // correlated barrier decides; a result without a reply of its own is given out
  // only after a barrier, with every other reply correlated, and only for a
  // command whose success may be silent.
  lemma ResolvingIsHonest(item: Item, expected: set<int>, x: Exchanged)
    ensures
      var answer := Decide(item, expected, x);
      var mine := Answers(x.responses, item.index);
      var silent :=
        && Barrier(x.responses) && !NeedsReply(item.op)
        && forall i :: 0 <= i < |x.responses| ==> FaultOf(x.responses[i], expected).None?;
      && ((answer.Failed? && answer.ambiguous) <==>
            SideEffect(item.op, item.command) && x.written >= item.end && |mine| != 1 && !(mine == [] && silent))
      && (mine == [] && !answer.Failed? ==> silent && answer == Infer(item.op))
      && (mine == [] && silent ==> answer == Infer(item.op))
  {
    hide Answers, LastFault, FaultOf, Barrier, SideEffect, ParseUint;
    FaultFree(x.responses, expected);
  }
}
