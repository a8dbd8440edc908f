// Pipelined batches (batch.go). Operations become quiet commands tagged with
// their position, followed by a no-op; replies the server left out are filled
// in. The main theorem says that the results, and the servers' state, are those
// of running the operations one by one.
module Batch {
  import opened Protocol
  import opened Text
  import opened Commands
  import opened Builders
  import opened Results
  import opened Transport

  // ---- quiet commands ----

  // A prepared operation, its position in the caller's list, and its bytes in
  // the payload of its group.
  datatype Item = Item(index: nat, op: Operation, command: MetaCommand, start: nat, end: nat)

  const QUIET: Bytes := [113]
  const TAG: Byte := 79

  predicate Tagged(flag: Bytes) { flag != [] && flag[0] == TAG }

  function Untagged(flags: seq<Bytes>): seq<Bytes> {
    if flags == [] then []
    else
      var front, last := flags[..|flags| - 1], flags[|flags| - 1];
      if Tagged(last) then Untagged(front) else Untagged(front) + [last]
  }

  // successResponseRequired (batch.go:148-162).
  predicate NeedsReply(op: Operation) {
    match op
    case Get(_, o) => o.vivifyTTL.Some?
    case Set(_, _, o) => o.returnCAS || o.returnKey || o.returnSize
    case Delete(_, o) => o.returnKey
    case Arithmetic(_, _) => true
  }

  predicate IsQuiet(op: Operation) { op.Get? || !NeedsReply(op) }

  function TagOf(index: nat): Bytes { [TAG] + FormatUint(index) }

  function Quiet(item: Item): MetaCommand {
    item.command.(flags :=
      Untagged(item.command.flags) + [TagOf(item.index)] + if IsQuiet(item.op) then [QUIET] else [])
  }

  // quietCommand (batch.go:131-146).
  method QuietCommand(item: Item) returns (command: MetaCommand)
    ensures command == Quiet(item)
  {
    var flags := item.command.flags;
    var kept: seq<Bytes> := [];
    for i := 0 to |flags|
      invariant kept == Untagged(flags[..i])
    {
      assert flags[..i + 1][..i] == flags[..i];
      if |flags[i]| == 0 || flags[i][0] != TAG { kept := kept + [flags[i]]; }
    }
    assert flags[..|flags|] == flags;
    kept := kept + [TagOf(item.index)];
    if item.op.Get? || !NeedsReply(item.op) { kept := kept + [QUIET]; }
    command := item.command.(flags := kept);
    assert kept == Quiet(item).flags;
  }

  // ---- the server's side ----

  // A server as a function from its state and a command without tag or quiet
  // flag to its new state and its reply.
  type Exec<!S> = (S, MetaCommand) -> (S, RawResponse)

  const BARRIER := RawResponse(MN, None, NoMetadata, None, [], false, false, false, [], false)

  predicate Directive(flag: Bytes) { flag != [] && (flag[0] == TAG || flag[0] == 113) }

  function Plainly(flags: seq<Bytes>): seq<Bytes> {
    if flags == [] then []
    else
      var front, last := flags[..|flags| - 1], flags[|flags| - 1];
      if Directive(last) then Plainly(front) else Plainly(front) + [last]
  }

  // What q leaves out: a get's miss, anything else's success (protocol.txt:609-620,
  // protocol.txt:778-785, protocol.txt:859-864).
  predicate Hides(command: Bytes, code: Code) { if command == MG then code.EN? else code.HD? }

  // A tagged, possibly quiet command: the plain command is executed, the reply
  // carries the tag, and q may keep it back.
  function ServeOne<S>(exec: Exec<S>, s: S, m: MetaCommand): (S, seq<RawResponse>) {
    var (next, reply) := exec(s, m.(flags := Plainly(m.flags)));
    var tag := Lookup(m.flags, TAG);
    (next,
     if Given(m.flags, 113) && Hides(m.command, reply.code) then []
     else [reply.(token := if tag.Some? then tag.value else [])])
  }

  function ServeAll<S>(exec: Exec<S>, s: S, ms: seq<MetaCommand>): (S, seq<RawResponse>) {
    if ms == [] then (s, [])
    else
      var (before, replies) := ServeAll(exec, s, ms[..|ms| - 1]);
      var (after, more) := ServeOne(exec, before, ms[|ms| - 1]);
      (after, replies + more)
  }

  // What the rules promise of any one reply: only a no-op is answered by MN, a
  // tag is copied only if given, a miss says nothing else and does not happen to
  // a vivifying get, and a success reports only what was asked for.
  predicate FollowsRules(m: MetaCommand, r: RawResponse) {
    && r.code != MN
    && (!Given(m.flags, TAG) ==> r.token == [])
    && (m.command == MG && r.code.EN? ==>
          r.meta == NoMetadata && r.key.None? && !r.parseErr && !Given(m.flags, 78))
    && (m.command != MG && r.code.HD? && !Given(m.flags, 99) && !Given(m.flags, 115) && !Given(m.flags, 107) ==>
          r.meta == NoMetadata && r.key.None? && !r.parseErr)
  }

  ghost predicate Honest<S(!new)>(exec: Exec<S>) {
    forall s: S, m: MetaCommand :: FollowsRules(m, exec(s, m).1)
  }

  // ---- one by one ----

  function RunAlone<S>(exec: Exec<S>, s: S, items: seq<Item>): (S, seq<Answer>) {
    if items == [] then (s, [])
    else
      var (before, answers) := RunAlone(exec, s, items[..|items| - 1]);
      var last := items[|items| - 1];
      var (after, reply) := exec(before, last.command);
      (after, answers + [Interpret(last.op, reply)])
  }

  // ---- resolving a group ----

  function TokenIndex(r: RawResponse): Option<int> { if r.token == [] then None else ParseInt(r.token) }

  // The replies that carry a given position.
  function Answers(responses: seq<RawResponse>, index: int): seq<RawResponse> {
    if responses == [] then []
    else
      var front, last := responses[..|responses| - 1], responses[|responses| - 1];
      if last.code != MN && TokenIndex(last) == Some(index) then Answers(front, index) + [last] else Answers(front, index)
  }

  predicate Barrier(responses: seq<RawResponse>) {
    exists i :: 0 <= i < |responses| && responses[i].code == MN
  }

  function FaultOf(r: RawResponse, expected: set<int>): Option<Problem> {
    if r.code == MN then None
    else if r.token == [] then Some(OmittedToken)
    else match ParseInt(r.token)
      case None => Some(InvalidToken)
      case Some(index) => if index in expected then None else Some(UnknownToken)
  }

  // The last reply that cannot be correlated, if there is one.
  function LastFault(responses: seq<RawResponse>, expected: set<int>): Option<Problem> {
    if responses == [] then None
    else
      var fault := FaultOf(responses[|responses| - 1], expected);
      if fault.Some? then fault else LastFault(responses[..|responses| - 1], expected)
  }

  datatype Exchanged = Exchanged(responses: seq<RawResponse>, written: nat, err: Option<Error>)

  function Fault(x: Exchanged, expected: set<int>): Option<Problem> {
    if x.err.None? && !Barrier(x.responses) then Some(NoBarrier) else LastFault(x.responses, expected)
  }

  predicate IsAmbiguous(item: Item, written: nat) { SideEffect(item.op, item.command) && written >= item.end }

  // inferQuietResult (batch.go:334-345).
  function Infer(op: Operation): Answer {
    match op
    case Get(key, _) => GetAnswer(key, GetMiss, None, NoMetadata, ValueMissing, LeaseNone, None, [])
    case Set(key, _, _) => MutationAnswer(key, Applied, None, None, None, [])
    case Delete(key, _) => MutationAnswer(key, Applied, None, None, None, [])
    case Arithmetic(_, _) => Failed(Unexpected, false)
  }

  // The result of one operation of a group, from everything that came back.
  function Decide(item: Item, expected: set<int>, x: Exchanged): Answer {
    var mine := Answers(x.responses, item.index);
    var fault := Fault(x, expected);
    if |mine| >= 2 then Failed(RepeatedToken, IsAmbiguous(item, x.written))
    else if |mine| == 1 then Interpret(item.op, mine[0].(token := []))
    else if Barrier(x.responses) && fault.None? then
      if !NeedsReply(item.op) then Infer(item.op) else Failed(MissingReply, IsAmbiguous(item, x.written))
    else
      Failed(if x.err.Some? then Results.Lost(x.err.value) else if fault.Some? then fault.value else PipelineFailed,
             IsAmbiguous(item, x.written))
  }

  function Expected(items: seq<Item>): (expected: set<int>)
    ensures forall i :: i in expected <==> exists k :: 0 <= k < |items| && items[k].index == i
  {
    set k | 0 <= k < |items| :: items[k].index
  }

  ghost predicate DistinctIndexes(items: seq<Item>) {
    forall i, j :: 0 <= i < j < |items| ==> items[i].index != items[j].index
  }
}
