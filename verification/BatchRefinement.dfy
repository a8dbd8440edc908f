// A batch does what its operations do one by one.
module BatchRefinement {
  import opened Protocol
  import opened Text
  import opened Commands
  import opened Builders
  import opened Results
  import opened Batch

  // ---- the commands of a group ----

  // batch prepares an operation and refuses one that carries a tag of its own.
  predicate Prepared(item: Item) {
    && Prepare(item.op) == Built(item.command)
    && (forall i :: 0 <= i < |item.command.flags| ==> !Tagged(item.command.flags[i]))
    && item.index < MAX_63
  }

  function Quiets(items: seq<Item>): (ms: seq<MetaCommand>)
    ensures |ms| == |items| && forall i :: 0 <= i < |items| ==> ms[i] == Quiet(items[i])
  {
    seq(|items|, i requires 0 <= i < |items| => Quiet(items[i]))
  }

  lemma BuiltClean(op: Operation)
    requires Prepare(op).Built?
    ensures CleanFlags(Prepare(op).command.flags)
  {
    match op
    case Get(_, o) => GetClean(o);
    case Set(_, _, o) => SetClean(o);
    case Delete(_, o) => DeleteClean(o);
    case Arithmetic(_, o) => ArithmeticClean(o);
  }

  lemma {:induction false} PlainlyAlready(flags: seq<Bytes>)
    requires forall i :: 0 <= i < |flags| ==> !Directive(flags[i])
    ensures Plainly(flags) == flags && Untagged(flags) == flags
  {
    if flags != [] {
      PlainlyAlready(flags[..|flags| - 1]);
      assert flags == flags[..|flags| - 1] + [flags[|flags| - 1]];
      assert !Directive(flags[|flags| - 1]);
    }
  }

  lemma {:induction false} LookupNone(flags: seq<Bytes>, letter: Byte)
    requires forall i :: 0 <= i < |flags| ==> flags[i] == [] || flags[i][0] != letter
    ensures Lookup(flags, letter).None?
  {
    if flags != [] { LookupNone(flags[1..], letter); }
  }

  lemma {:induction false} LookupAfter(flags: seq<Bytes>, more: seq<Bytes>, letter: Byte)
    requires Lookup(flags, letter).None?
    ensures Lookup(flags + more, letter) == Lookup(more, letter)
  {
    if flags == [] {
      assert flags + more == more;
    } else {
      LookupAfter(flags[1..], more, letter);
      assert (flags + more)[1..] == flags[1..] + more;
    }
  }

  // The quiet form differs from the command only by its tag and its q.
  lemma QuietForm(item: Item)
    requires Prepared(item)
    ensures
      var m := Quiet(item);
      && m.(flags := Plainly(m.flags)) == item.command
      && Lookup(m.flags, TAG) == Some(FormatUint(item.index))
      && (Given(m.flags, 113) <==> IsQuiet(item.op))
      && !Given(item.command.flags, TAG)
  {
    var flags := item.command.flags;
    BuiltClean(item.op);
    forall i | 0 <= i < |flags| ensures !Directive(flags[i]) && flags[i] != [] && flags[i][0] != 113 && flags[i][0] != TAG {
      assert !Tagged(flags[i]);
    }
    hide Prepare, Prepared, CleanFlags, NeedsReply, IsQuiet, FormatUint, Plainly, Untagged, Lookup, TagOf;
    PlainlyAlready(flags);
    LookupNone(flags, 113);
    LookupNone(flags, TAG);
    var more := [TagOf(item.index)] + if IsQuiet(item.op) then [QUIET] else [];
    assert Quiet(item).flags == flags + more;
    LookupAfter(flags, more, 113);
    LookupAfter(flags, more, TAG);
    TagFlags(item.index, IsQuiet(item.op));
    PlainlyAgain(flags, item.index, IsQuiet(item.op));
  }

  lemma PlainlyAgain(flags: seq<Bytes>, index: nat, quiet: bool)
    requires Plainly(flags) == flags
    ensures Plainly(flags + ([TagOf(index)] + if quiet then [QUIET] else [])) == flags
  {
    var more := [TagOf(index)] + if quiet then [QUIET] else [];
    assert (flags + [TagOf(index)])[..|flags|] == flags;
    if quiet {
      assert (flags + more)[..|flags| + 1] == flags + [TagOf(index)];
    } else {
      assert more == [TagOf(index)];
    }
  }

  lemma TagFlags(index: nat, quiet: bool)
    ensures
      var more := [TagOf(index)] + if quiet then [QUIET] else [];
      Lookup(more, TAG) == Some(FormatUint(index)) && (Lookup(more, 113).Some? <==> quiet)
  {
    var more := [TagOf(index)] + if quiet then [QUIET] else [];
    assert TagOf(index)[1..] == FormatUint(index);
    assert more[1..] == if quiet then [QUIET] else [];
    assert [QUIET][1..] == [];
  }

  // ---- one operation ----

  // A success that was asked to report nothing, or a miss, is what the client
  // infers from silence; a get that can win a lease never stays silent.
  lemma SilenceIsInferred(item: Item, reply: RawResponse)
    requires Prepared(item) && FollowsRules(item.command, reply)
    requires IsQuiet(item.op) && Hides(item.command.command, reply.code) && !Given(item.command.flags, TAG)
    ensures !NeedsReply(item.op) && Interpret(item.op, reply) == Infer(item.op)
  {
    var flags := item.command.flags;
    match item.op
    case Get(key, o) => GetFlagsSay(key, o);
    case Set(key, value, o) => SetFlagsSay(key, value, o);
    case Delete(key, o) =>
      DeleteFlagsSay(key, o);
      assert MD[1] != MG[1];
    case Arithmetic(_, o) =>
  }

  lemma GetFlagsSay(key: Bytes, o: GetOptions)
    requires BuildGet(key, o).Built?
    ensures Given(BuildGet(key, o).command.flags, 78) == o.vivifyTTL.Some?
  {
    hide Emit, Lookup, GetError;
    var slots := GetSlots(o);
    assert DistinctLetters(slots);
    BareBack(slots, 10);
  }

  lemma SetFlagsSay(key: Bytes, value: Bytes, o: SetOptions)
    requires BuildSet(key, value, o).Built?
    ensures
      var flags := BuildSet(key, value, o).command.flags;
      Given(flags, 99) == o.returnCAS && Given(flags, 115) == o.returnSize && Given(flags, 107) == o.returnKey
  {
    hide Emit, Lookup, SetError, ModeToken;
    var slots := SetSlots(o);
    assert DistinctLetters(slots);
    BareBack(slots, 7);
    BareBack(slots, 8);
    BareBack(slots, 9);
  }

  lemma DeleteFlagsSay(key: Bytes, o: DeleteOptions)
    requires BuildDelete(key, o).Built?
    ensures
      var flags := BuildDelete(key, o).command.flags;
      !Given(flags, 99) && !Given(flags, 115) && Given(flags, 107) == o.returnKey
  {
    hide Emit, Lookup, DeleteError;
    var slots := DeleteSlots(o);
    assert DistinctLetters(slots);
    BareBack(slots, 5);
    LookupAbsent(slots, 99);
    LookupAbsent(slots, 115);
  }

  lemma TagBack(item: Item, reply: RawResponse)
    requires item.index < MAX_63
    ensures TokenIndex(reply.(token := FormatUint(item.index))) == Some(item.index)
  {
    IntRoundTrip(item.index);
  }

  // ---- a group ----

  // What the replies to a group say about one of its operations.
  ghost predicate Resolves(item: Item, replies: seq<RawResponse>, answer: Answer) {
    var mine := Answers(replies, item.index);
    || (mine == [] && !NeedsReply(item.op) && answer == Infer(item.op))
    || (|mine| == 1 && answer == Interpret(item.op, mine[0].(token := [])))
  }

  ghost predicate Correlated(replies: seq<RawResponse>, items: seq<Item>) {
    forall i :: 0 <= i < |replies| ==> replies[i].code != MN && Known(replies[i], items)
  }

  ghost predicate Known(r: RawResponse, items: seq<Item>) {
    exists k :: 0 <= k < |items| && TokenIndex(r) == Some(items[k].index)
  }

  lemma {:induction false} AnswersUnknown(replies: seq<RawResponse>, items: seq<Item>, index: nat)
    requires Correlated(replies, items)
    requires forall k :: 0 <= k < |items| ==> items[k].index != index
    ensures Answers(replies, index) == []
  {
    if replies != [] {
      var front, last := replies[..|replies| - 1], replies[|replies| - 1];
      assert Correlated(front, items);
      AnswersUnknown(front, items, index);
      assert Known(last, items);
    }
  }

  lemma CorrelatedGrows(replies: seq<RawResponse>, items: seq<Item>, more: seq<RawResponse>, item: Item)
    requires Correlated(replies, items)
    requires forall i :: 0 <= i < |more| ==> more[i].code != MN && TokenIndex(more[i]) == Some(item.index)
    ensures Correlated(replies + more, items + [item])
  {
    hide TokenIndex;
    forall i | 0 <= i < |replies + more| ensures (replies + more)[i].code != MN && Known((replies + more)[i], items + [item]) {
      if i < |replies| {
        assert Known(replies[i], items);
        var k :| 0 <= k < |items| && TokenIndex(replies[i]) == Some(items[k].index);
        assert (items + [item])[k] == items[k];
      } else {
        assert (items + [item])[|items|] == item;
      }
    }
  }

  // One more operation: its reply is its own, and nobody else's answers change.
  lemma OneMore<S(!new)>(exec: Exec<S>, s: S, item: Item)
    requires Honest(exec) && Prepared(item)
    ensures
      var (after, more) := ServeOne(exec, s, Quiet(item));
      var (next, reply) := exec(s, item.command);
      && after == next
      && |more| <= 1
      && (more == [] ==> !NeedsReply(item.op) && Interpret(item.op, reply) == Infer(item.op))
      && (more != [] ==>
            && more[0].code != MN && TokenIndex(more[0]) == Some(item.index)
            && Interpret(item.op, more[0].(token := [])) == Interpret(item.op, reply))
  {
    QuietForm(item);
    var (next, reply) := exec(s, item.command);
    assert FollowsRules(item.command, reply);
    TagBack(item, reply);
    if IsQuiet(item.op) && Hides(item.command.command, reply.code) {
      SilenceIsInferred(item, reply);
    } else {
      assert reply.(token := FormatUint(item.index)).(token := []) == reply;
    }
  }

  lemma {:induction false} ServedAsAlone<S(!new)>(exec: Exec<S>, s: S, items: seq<Item>)
    requires Honest(exec) && DistinctIndexes(items)
    requires forall i :: 0 <= i < |items| ==> Prepared(items[i])
    ensures
      var (after, replies) := ServeAll(exec, s, Quiets(items));
      var (next, answers) := RunAlone(exec, s, items);
      && after == next && |answers| == |items| && Correlated(replies, items)
      && forall k :: 0 <= k < |items| ==> Resolves(items[k], replies, answers[k])
  {
    hide Honest, Prepared, ServeOne, Quiet, Interpret, Infer, NeedsReply, TokenIndex, Resolves, Correlated, Answers;
    if items == [] {
      assert Correlated([], []) by { NothingCorrelated(); }
    } else {
      var front, item := items[..|items| - 1], items[|items| - 1];
      ServedAsAlone(exec, s, front);
      assert Quiets(items)[..|items| - 1] == Quiets(front);
      var (before, replies) := ServeAll(exec, s, Quiets(front));
      var (_, answers) := RunAlone(exec, s, front);
      var more := ServeOne(exec, before, Quiet(item)).1;
      var answer := Interpret(item.op, exec(before, item.command).1);
      OneMore(exec, before, item);
      assert front + [item] == items;
      hide ServeAll, RunAlone, Quiets;
      CorrelatedGrows(replies, front, more, item);
      forall k | 0 <= k < |items| ensures Resolves(items[k], replies + more, (answers + [answer])[k]) {
        if k < |front| {
          StillResolves(front[k], replies, answers[k], more, item);
        } else {
          NowResolves(front, item, replies, answer, more);
        }
      }
    }
  }

  lemma NothingCorrelated()
    ensures Correlated([], [])
  {
  }

  lemma StillResolves(item: Item, replies: seq<RawResponse>, answer: Answer, more: seq<RawResponse>, last: Item)
    requires Resolves(item, replies, answer) && item.index != last.index && |more| <= 1
    requires more != [] ==> TokenIndex(more[0]) == Some(last.index)
    ensures Resolves(item, replies + more, answer)
  {
    AnswersWith(replies, more, item.index);
  }

  lemma NowResolves(front: seq<Item>, item: Item, replies: seq<RawResponse>, answer: Answer, more: seq<RawResponse>)
    requires Correlated(replies, front) && |more| <= 1
    requires forall k :: 0 <= k < |front| ==> front[k].index != item.index
    requires more == [] ==> !NeedsReply(item.op) && answer == Infer(item.op)
    requires more != [] ==>
      && more[0].code != MN && TokenIndex(more[0]) == Some(item.index)
      && Interpret(item.op, more[0].(token := [])) == answer
    ensures Resolves(item, replies + more, answer)
  {
    AnswersUnknown(replies, front, item.index);
    AnswersWith(replies, more, item.index);
  }

  lemma AnswersWith(replies: seq<RawResponse>, more: seq<RawResponse>, index: nat)
    requires |more| <= 1
    ensures
      Answers(replies + more, index) ==
        if more != [] && more[0].code != MN && TokenIndex(more[0]) == Some(index) then Answers(replies, index) + [more[0]]
        else Answers(replies, index)
  {
    if more != [] {
      assert (replies + more)[..|replies|] == replies;
    } else {
      assert replies + more == replies;
    }
  }

  lemma {:induction false} NoFault(replies: seq<RawResponse>, items: seq<Item>)
    requires Correlated(replies, items)
    ensures LastFault(replies, Expected(items)).None?
  {
    if replies != [] {
      var front, last := replies[..|replies| - 1], replies[|replies| - 1];
      assert Correlated(front, items);
      NoFault(front, items);
      assert Known(last, items);
    }
  }

  // A group whose exchange succeeded resolves to the results of its operations
  // run one by one, and leaves the server in the same state.
  lemma GroupRefines<S(!new)>(exec: Exec<S>, s: S, items: seq<Item>, written: nat)
    requires Honest(exec) && DistinctIndexes(items)
    requires forall i :: 0 <= i < |items| ==> Prepared(items[i])
    ensures
      var (after, replies) := ServeAll(exec, s, Quiets(items));
      var (next, answers) := RunAlone(exec, s, items);
      var x := Exchanged(replies + [BARRIER], written, None);
      && after == next && |answers| == |items|
      && forall k :: 0 <= k < |items| ==> Decide(items[k], Expected(items), x) == answers[k]
  {
    hide Honest, Prepared, ServeAll, RunAlone, Quiets, Decide, Resolves, Expected, DistinctIndexes;
    ServedAsAlone(exec, s, items);
    var (after, replies) := ServeAll(exec, s, Quiets(items));
    var (next, answers) := RunAlone(exec, s, items);
    forall k | 0 <= k < |items|
      ensures Decide(items[k], Expected(items), Exchanged(replies + [BARRIER], written, None)) == answers[k]
    {
      DecideAsAlone(items, replies, written, items[k], answers[k]);
    }
  }

  lemma DecideAsAlone(items: seq<Item>, replies: seq<RawResponse>, written: nat, item: Item, answer: Answer)
    requires Correlated(replies, items) && Resolves(item, replies, answer)
    ensures Decide(item, Expected(items), Exchanged(replies + [BARRIER], written, None)) == answer
  {
    hide Interpret, Infer, NeedsReply, Correlated, IsAmbiguous, Answers, LastFault, FaultOf, Barrier, Expected,
      TokenIndex;
    NoFault(replies, items);
    BarrierLast(replies, Expected(items));
    AnswersWith(replies, [BARRIER], item.index);
  }

  lemma BarrierLast(replies: seq<RawResponse>, expected: set<int>)
    ensures Barrier(replies + [BARRIER])
    ensures LastFault(replies + [BARRIER], expected) == LastFault(replies, expected)
  {
    assert (replies + [BARRIER])[|replies|] == BARRIER;
    assert (replies + [BARRIER])[..|replies|] == replies;
  }
}
