// A batch over any number of servers, from the caller's list to the caller's
// results.
module BatchTheorem {
  import opened Protocol
  import opened Text
  import opened Commands
  import opened Builders
  import opened Results
  import opened Batch
  import opened BatchRefinement
  import opened BatchCode
  import opened BatchPlan
  import opened BatchCut
  import Responses

  // Running the operations one by one, in the caller's order, each on the server
  // its key belongs to.
  function RunSequential<S>(exec: Exec<S>, states: seq<S>, ops: seq<Operation>, route: Bytes -> nat): (r: (seq<S>, seq<Answer>))
    requires forall key: Bytes :: route(key) < |states|
    ensures |r.0| == |states| && |r.1| == |ops|
  {
    if ops == [] then (states, [])
    else
      var (before, answers) := RunSequential(exec, states, ops[..|ops| - 1], route);
      var last := ops[|ops| - 1];
      var server := route(last.key);
      var (after, reply) := exec(before[server], CommandOf(last));
      (before[server := after], answers + [Interpret(last, reply)])
  }

  // One server sees exactly its own operations, in their order.
  lemma {:induction false} Projects<S>(exec: Exec<S>, states: seq<S>, ops: seq<Operation>, route: Bytes -> nat, server: nat)
    requires (forall key :: route(key) < |states|) && server < |states|
    ensures
      var (after, answers) := RunSequential(exec, states, ops, route);
      var items := Routed(ops, route, server);
      var (next, own) := RunAlone(exec, states[server], items);
      && after[server] == next && |own| == |items|
      && forall k :: 0 <= k < |items| ==> answers[items[k].index] == own[k]
  {
    hide CommandOf, Interpret;
    if ops != [] {
      var front, last := ops[..|ops| - 1], ops[|ops| - 1];
      Projects(exec, states, front, route, server);
      var items := Routed(front, route, server);
      if route(last.key) == server {
        assert (items + [Item(|ops| - 1, last, CommandOf(last), 0, 0)])[..|items|] == items;
      }
    }
  }

  lemma {:induction false} SpansDoNotMatter<S>(exec: Exec<S>, s: S, items: seq<Item>)
    ensures RunAlone(exec, s, Laid(items)) == RunAlone(exec, s, items)
    ensures Quiets(Laid(items)) == Quiets(items) && Expected(Laid(items)) == Expected(items)
  {
    hide Interpret;
    if items != [] {
      var front := items[..|items| - 1];
      SpansDoNotMatter(exec, s, front);
      assert Laid(items)[..|items| - 1] == Laid(front);
    }
  }

  // ---- the server reads bytes ----

  function Received(r: Request): MetaCommand {
    match r
    case Noop => MetaCommand(Commands.MN, [], [], [], false)
    case Request(command, key, flags, value) =>
      MetaCommand(command, key, flags, if value.Some? then value.value else [], value.Some?)
  }

  function ServeRequests<S>(exec: Exec<S>, s: S, rs: seq<Request>): (S, seq<RawResponse>) {
    if rs == [] then (s, [])
    else
      var (before, replies) := ServeRequests(exec, s, rs[..|rs| - 1]);
      var last := rs[|rs| - 1];
      if last.Noop? then (before, replies + [BARRIER])
      else
        var (after, more) := ServeOne(exec, before, Received(last));
        (after, replies + more)
  }

  // The server's whole reaction to a payload, if it can read it.
  function ServeBytes<S>(exec: Exec<S>, s: S, payload: Bytes): Option<(S, seq<RawResponse>)> {
    match ReadCommands(payload)
    case None => None
    case Some(rs) => Some(ServeRequests(exec, s, rs))
  }

  lemma {:induction false} ServesMeanings<S>(exec: Exec<S>, s: S, ms: seq<MetaCommand>)
    requires forall i :: 0 <= i < |ms| ==> !ms[i].hasValue ==> ms[i].value == []
    ensures ServeRequests(exec, s, Meanings(ms)) == ServeAll(exec, s, ms)
  {
    hide ServeOne;
    if ms != [] {
      var front, last := ms[..|ms| - 1], ms[|ms| - 1];
      ServesMeanings(exec, s, front);
      assert Meanings(ms)[..|ms| - 1] == Meanings(front);
      assert Received(Meaning(last)) == last;
    }
  }

  lemma BarrierRead()
    ensures ReadCommands(MN_LINE) == Some([Noop])
  {
    assert MN_LINE == Commands.MN + CRLF + [];
    FieldsOfLine(Commands.MN, []);
    assert Commands.MN + Spaced([]) == Commands.MN && [Commands.MN] + [] == [Commands.MN];
    LineEnds(Commands.MN, []);
    assert MN_LINE[..2] == Commands.MN && MN_LINE[4..] == [];
    hide Fields, LineFeed, FormatUint, ReadFields;
    assert ReadCommand(MN_LINE) == Some(Parsed(Noop, [])) by { NoopFields(); }
    assert ReadCommands([]) == Some([]);
    ReadOn(MN_LINE, Noop, []);
    assert [Noop] + [] == [Noop];
  }

  lemma NoopFields()
    ensures ReadFields([Commands.MN], []) == Some(Parsed(Noop, []))
  {
  }

  // The payload of a group, read by the server, is its operations and the
  // barrier.
  lemma PayloadServed<S>(exec: Exec<S>, s: S, items: seq<Item>)
    requires forall k :: 0 <= k < |items| ==> Prepared(items[k]) && Refusal(Quiet(items[k])).None?
    ensures
      var (after, replies) := ServeAll(exec, s, Quiets(items));
      ServeBytes(exec, s, Payload(items)) == Some((after, replies + [BARRIER]))
  {
    var ms := Quiets(items);
    forall k | 0 <= k < |ms| ensures Refusal(ms[k]).None? && Plain(ms[k]) && (!ms[k].hasValue ==> ms[k].value == []) {
      QuietPlain(items[k]);
    }
    hide Refusal, Plain, Quiet, Prepared, ReadCommands, ServeOne, Meaning;
    WrittenIsStream(items);
    BarrierRead();
    StreamRoundTrip(ms, MN_LINE);
    var rs := Meanings(ms) + [Noop];
    assert rs[..|ms|] == Meanings(ms);
    ServesMeanings(exec, s, ms);
  }

  lemma QuietPlain(item: Item)
    requires Prepared(item)
    ensures Plain(Quiet(item)) && (!Quiet(item).hasValue ==> Quiet(item).value == [])
  {
    BuiltClean(item.op);
    var flags := item.command.flags;
    forall i | 0 <= i < |flags| ensures !Directive(flags[i]) && !MarksBase64(flags[i]) {
      assert !Tagged(flags[i]) && flags[i][0] != 113;
    }
    PlainlyAlready(flags);
    hide Prepare, NeedsReply, FormatUint, CleanFlags;
    forall i | 0 <= i < |Quiet(item).flags| ensures !MarksBase64(Quiet(item).flags[i]) {
      if i < |flags| { assert Quiet(item).flags[i] == flags[i]; }
    }
    ValueOnlyInStores(item.op);
  }

  lemma ValueOnlyInStores(op: Operation)
    requires Prepare(op).Built?
    ensures !Prepare(op).command.hasValue ==> Prepare(op).command.value == []
  {
  }

  // ---- the theorem ----

  ghost predicate AllAccepted(ops: seq<Operation>, maxItemSize: nat) {
    |ops| <= MAX_63 && forall i :: 0 <= i < |ops| ==> Accepted(ops, i, maxItemSize)
  }

  lemma AllAcceptedIs(ops: seq<Operation>, maxItemSize: nat)
    requires |ops| <= MAX_63
    ensures AllAccepted(ops, maxItemSize) <==> forall i :: 0 <= i < |ops| ==> Accepted(ops, i, maxItemSize)
  {
  }

  lemma RoutedPrepared(ops: seq<Operation>, route: Bytes -> nat, server: nat, maxItemSize: nat)
    requires AllAccepted(ops, maxItemSize)
    ensures
      var items := Routed(ops, route, server);
      && DistinctIndexes(items)
      && forall k :: 0 <= k < |items| ==> Prepared(items[k]) && Refusal(Quiet(items[k])).None?
  {
    var items := Routed(ops, route, server);
    forall k | 0 <= k < |items| ensures Prepared(items[k]) && Refusal(Quiet(items[k])).None? {
      RoutedItem(ops, route, server, k);
      assert Accepted(ops, items[k].index, maxItemSize);
      hide Routed, Refusal, Quiet, Tagged;
    }
  }

  // One server of a batch, all the way: its operations are printed as one
  // payload, the server reads the bytes, executes and answers what it may not
  // keep back, and what the client makes of the answers is, operation for
  // operation, what it would have been told had it run the caller's whole list
  // one by one; the server is left in the same state.
  lemma BatchRefines<S(!new)>(exec: Exec<S>, states: seq<S>, ops: seq<Operation>, route: Bytes -> nat, server: nat,
                              written: nat, maxItemSize: nat)
    requires Honest(exec) && (forall key: Bytes :: route(key) < |states|) && server < |states|
    requires AllAccepted(ops, maxItemSize)
    ensures
      var (after, answers) := RunSequential(exec, states, ops, route);
      var items := Routed(ops, route, server);
      var laid := Laid(items);
      var served := ServeBytes(exec, states[server], Payload(items));
      && served.Some? && served.value.0 == after[server]
      && forall k :: 0 <= k < |laid| ==>
           Decide(laid[k], Expected(laid), Exchanged(served.value.1, written, None)) == answers[laid[k].index]
  {
    hide Honest, Prepared, Refusal, Quiet, Decide, ServeBytes, ServeAll, RunAlone, RunSequential, Routed,
      AllAccepted, DistinctIndexes, Laid, Expected, Quiets;
    var items := Routed(ops, route, server);
    var s := states[server];
    RoutedPrepared(ops, route, server, maxItemSize);
    LaidPrepared(items);
    SpansDoNotMatter(exec, s, items);
    GroupRefines(exec, s, Laid(items), written);
    PayloadServed(exec, s, items);
    Projects(exec, states, ops, route, server);
  }

  lemma LaidPrepared(items: seq<Item>)
    requires DistinctIndexes(items) && forall k :: 0 <= k < |items| ==> Prepared(items[k])
    ensures DistinctIndexes(Laid(items)) && forall k :: 0 <= k < |items| ==> Prepared(Laid(items)[k])
  {
    hide Laid, Prepare;
    forall k | 0 <= k < |items| ensures Prepared(Laid(items)[k]) { assert Prepared(items[k]); }
  }

  // ---- the whole call ----

  ghost predicate Has(groups: seq<Group>, n: nat, server: nat) {
    exists g :: 0 <= g < n && g < |groups| && groups[g].server == server
  }

  lemma GroupAt(ops: seq<Operation>, route: Bytes -> nat, servers: nat, g: nat)
    requires g < |GroupsOf(ops, route, servers)|
    ensures
      var group := GroupsOf(ops, route, servers)[g];
      var items := Routed(ops, route, group.server);
      group.server < servers && items != [] && group == Group(group.server, Laid(items), Payload(items))
  {
    hide Routed, Laid, Payload;
    if g < |GroupsOf(ops, route, servers - 1)| { GroupAt(ops, route, servers - 1, g); }
  }

  lemma GroupFound(ops: seq<Operation>, route: Bytes -> nat, servers: nat, server: nat)
    requires server < servers && Routed(ops, route, server) != []
    ensures Has(GroupsOf(ops, route, servers), |GroupsOf(ops, route, servers)|, server)
  {
    hide Routed, Laid, Payload;
    var groups := GroupsOf(ops, route, servers);
    if server == servers - 1 {
      assert groups[|groups| - 1].server == server;
    } else {
      var before := GroupsOf(ops, route, servers - 1);
      GroupFound(ops, route, servers - 1, server);
      var g :| 0 <= g < |before| && before[g].server == server;
      assert groups[g] == before[g];
    }
  }

  lemma HasNext(groups: seq<Group>, n: nat, server: nat)
    requires n < |groups|
    ensures Has(groups, n + 1, server) == (Has(groups, n, server) || groups[n].server == server)
  {
    if Has(groups, n + 1, server) {
      var g :| 0 <= g < n + 1 && g < |groups| && groups[g].server == server;
      assert g < n || g == n;
    }
  }

  lemma NotYet(ops: seq<Operation>, route: Bytes -> nat, servers: nat, n: nat)
    requires n < |GroupsOf(ops, route, servers)|
    ensures !Has(GroupsOf(ops, route, servers), n, GroupsOf(ops, route, servers)[n].server)
  {
  }

  // ---- what a batch comes to ----

  // Every exchange that fails got as far as an exchange can.
  ghost predicate CutsPossible<S>(exec: Exec<S>, states: seq<S>, ops: seq<Operation>, route: Bytes -> nat, cuts: nat -> Option<Cut>) {
    forall server :: 0 <= server < |states| && cuts(server).Some? ==>
      Possible(exec, states[server], Laid(Routed(ops, route, server)), cuts(server).value)
  }

  // The state a server is left in: that of the one-by-one run, or of the part its
  // exchange got to.
  ghost function Left<S>(exec: Exec<S>, states: seq<S>, ops: seq<Operation>, route: Bytes -> nat, cuts: nat -> Option<Cut>,
                         server: nat): S
    requires (forall key: Bytes :: route(key) < |states|) && server < |states|
  {
    var items := Routed(ops, route, server);
    match cuts(server)
    case None => RunSequential(exec, states, ops, route).0[server]
    case Some(cut) => RunAlone(exec, states[server], if cut.executed <= |items| then items[..cut.executed] else items).0
  }

  // What the caller is told of one operation: its answer of the one-by-one run,
  // or what ToldOf allows when the exchange with its server failed.
  ghost predicate Told<S>(exec: Exec<S>, states: seq<S>, ops: seq<Operation>, route: Bytes -> nat, cuts: nat -> Option<Cut>,
                          i: nat, told: Answer)
    requires (forall key: Bytes :: route(key) < |states|) && i < |ops|
  {
    var answer := RunSequential(exec, states, ops, route).1[i];
    match cuts(route(ops[i].key))
    case None => told == answer
    case Some(cut) => exists k :: ToldAt(Laid(Routed(ops, route, route(ops[i].key))), k, i, cut, answer, told)
  }

  ghost predicate ToldAt(laid: seq<Item>, k: int, i: nat, cut: Cut, answer: Answer, told: Answer) {
    0 <= k < |laid| && laid[k].index == i && ToldOf(laid[k], k < cut.executed, cut, answer, told)
  }

  // Resolving a group settles exactly the operations of its server.
  lemma GroupSettles(ops: seq<Operation>, route: Bytes -> nat, server: nat, laid: seq<Item>,
                     was: seq<Answer>, now: seq<Answer>, good: (int, Answer) -> bool)
    requires |was| == |now| == |ops| && laid == Laid(Routed(ops, route, server))
    requires forall k :: 0 <= k < |laid| ==> laid[k].index < |ops| && good(laid[k].index, now[laid[k].index])
    requires forall j :: 0 <= j < |ops| && j !in Expected(laid) ==> now[j] == was[j]
    ensures forall i :: 0 <= i < |ops| ==> if route(ops[i].key) == server then good(i, now[i]) else now[i] == was[i]
  {
    hide CommandOf;
    forall i | 0 <= i < |ops| ensures if route(ops[i].key) == server then good(i, now[i]) else now[i] == was[i] {
      if route(ops[i].key) == server {
        var k := RoutedCovers(ops, route, i);
        assert laid[k].index == i;
      } else {
        forall k | 0 <= k < |laid| ensures laid[k].index != i { RoutedItem(ops, route, server, k); }
        assert i !in Expected(laid);
      }
    }
  }

  lemma LaidIndexes(ops: seq<Operation>, route: Bytes -> nat, server: nat)
    ensures forall k :: 0 <= k < |Laid(Routed(ops, route, server))| ==> Laid(Routed(ops, route, server))[k].index < |ops|
  {
    hide Routed, Laid;
  }

  // The state of the loop over groups: the operations of the first n servers
  // have their results, and those servers have moved on.
  ghost predicate Settled(groups: seq<Group>, n: nat, ops: seq<Operation>, route: Bytes -> nat, results: seq<Answer>,
                          good: (int, Answer) -> bool) {
    && |results| == |ops|
    && forall i :: 0 <= i < |ops| && Has(groups, n, route(ops[i].key)) ==> good(i, results[i])
  }

  ghost predicate Moved<S>(groups: seq<Group>, n: nat, states: seq<S>, after: seq<S>, goal: seq<S>) {
    && |after| == |states| == |goal|
    && forall server :: 0 <= server < |states| ==>
         after[server] == if Has(groups, n, server) then goal[server] else states[server]
  }

  lemma TurnSettles<S>(groups: seq<Group>, n: nat, ops: seq<Operation>, route: Bytes -> nat, was: seq<Answer>,
                       now: seq<Answer>, good: (int, Answer) -> bool, states: seq<S>, before: seq<S>, after: seq<S>, goal: seq<S>)
    requires n < |groups| && Settled(groups, n, ops, route, was, good) && Moved(groups, n, states, before, goal)
    requires |now| == |ops|
    requires forall i :: 0 <= i < |ops| ==>
      if route(ops[i].key) == groups[n].server then good(i, now[i]) else now[i] == was[i]
    requires groups[n].server < |before| && after == before[groups[n].server := goal[groups[n].server]]
    ensures Settled(groups, n + 1, ops, route, now, good) && Moved(groups, n + 1, states, after, goal)
  {
    hide Has;
    forall server: nat ensures Has(groups, n + 1, server) == (Has(groups, n, server) || groups[n].server == server) {
      HasNext(groups, n, server);
    }
  }

  lemma LoopEnds<S>(exec: Exec<S>, states: seq<S>, ops: seq<Operation>, route: Bytes -> nat, cuts: nat -> Option<Cut>,
                    results: seq<Answer>, after: seq<S>, goal: seq<S>, good: (int, Answer) -> bool)
    requires (forall key: Bytes :: route(key) < |states|) && |goal| == |states|
    requires forall server :: 0 <= server < |states| ==> goal[server] == Left(exec, states, ops, route, cuts, server)
    requires
      var groups := GroupsOf(ops, route, |states|);
      Settled(groups, |groups|, ops, route, results, good) && Moved(groups, |groups|, states, after, goal)
    ensures after == goal && |results| == |ops| && forall i :: 0 <= i < |ops| ==> good(i, results[i])
  {
    hide RunSequential, Routed, GroupsOf, Has, Left;
    forall i | 0 <= i < |ops| ensures good(i, results[i]) {
      var k := RoutedCovers(ops, route, i);
      GroupFound(ops, route, |states|, route(ops[i].key));
    }
    forall server | 0 <= server < |states| ensures after[server] == goal[server] {
      if Routed(ops, route, server) != [] {
        GroupFound(ops, route, |states|, server);
      } else {
        NothingLeft(exec, states, ops, route, cuts, server);
      }
    }
  }

  // A server without operations stays as it is.
  lemma NothingLeft<S>(exec: Exec<S>, states: seq<S>, ops: seq<Operation>, route: Bytes -> nat, cuts: nat -> Option<Cut>, server: nat)
    requires (forall key: Bytes :: route(key) < |states|) && server < |states| && Routed(ops, route, server) == []
    ensures Left(exec, states, ops, route, cuts, server) == states[server]
  {
    hide RunSequential, Routed;
    Projects(exec, states, ops, route, server);
  }

  lemma LoopStarts<S>(states: seq<S>, goal: seq<S>, groups: seq<Group>, ops: seq<Operation>, route: Bytes -> nat,
                      results: seq<Answer>, good: (int, Answer) -> bool)
    requires |states| == |goal| && |results| == |ops|
    ensures Settled(groups, 0, ops, route, results, good) && Moved(groups, 0, states, states, goal)
  {
  }

  // The exchange with a server: all of it, or as far as it got.
  function Exchange<S>(exec: Exec<S>, s: S, group: Group, cut: Option<Cut>): (r: Option<(S, Exchanged)>) {
    match cut
    case None =>
      (match ServeBytes(exec, s, group.payload)
       case None => None
       case Some(served) => Some((served.0, Exchanged(served.1, |group.payload|, None))))
    case Some(x) =>
      if x.executed <= |group.items| && x.returned <= |RepliesTo(exec, s, group.items, x.executed)|
      then Some((ServeAll(exec, s, Quiets(group.items[..x.executed])).0, CutExchange(exec, s, group.items, x)))
      else None
  }

  // What the loop of batch knows about the group at n.
  lemma GroupReady<S(!new)>(exec: Exec<S>, states: seq<S>, before: seq<S>, ops: seq<Operation>, route: Bytes -> nat,
                            cuts: nat -> Option<Cut>, goal: seq<S>, n: nat, maxItemSize: nat)
    requires Honest(exec) && (forall key: Bytes :: route(key) < |states|) && AllAccepted(ops, maxItemSize)
    requires CutsPossible(exec, states, ops, route, cuts) && |goal| == |states|
    requires forall server :: 0 <= server < |states| ==> goal[server] == Left(exec, states, ops, route, cuts, server)
    requires n < |GroupsOf(ops, route, |states|)| && Moved(GroupsOf(ops, route, |states|), n, states, before, goal)
    ensures
      var group := GroupsOf(ops, route, |states|)[n];
      && group.server < |states| && |before| == |states|
      && group.items == Laid(Routed(ops, route, group.server))
      && DistinctIndexes(group.items) && (forall k :: 0 <= k < |group.items| ==> group.items[k].index < |ops|)
      && var served := Exchange(exec, before[group.server], group, cuts(group.server));
      && served.Some? && served.value.0 == goal[group.server]
      && forall k :: 0 <= k < |group.items| ==>
           Told(exec, states, ops, route, cuts, group.items[k].index, Decide(group.items[k], Expected(group.items), served.value.1))
  {
    hide Honest, AllAccepted, GroupsOf, Routed, Laid, Exchange, RunSequential, Decide, Expected, DistinctIndexes, Left,
      Has, Prepared, Told, CutsPossible;
    var group := GroupsOf(ops, route, |states|)[n];
    GroupAt(ops, route, |states|, n);
    NotYet(ops, route, |states|, n);
    LaidIndexes(ops, route, group.server);
    RoutedPrepared(ops, route, group.server, maxItemSize);
    LaidPrepared(Routed(ops, route, group.server));
    if cuts(group.server).None? {
      WholeGroup(exec, states, ops, route, cuts, group, maxItemSize);
    } else {
      CutGroup(exec, states, ops, route, cuts, group, maxItemSize);
    }
  }

  lemma WholeGroup<S(!new)>(exec: Exec<S>, states: seq<S>, ops: seq<Operation>, route: Bytes -> nat, cuts: nat -> Option<Cut>,
                            group: Group, maxItemSize: nat)
    requires Honest(exec) && (forall key: Bytes :: route(key) < |states|) && AllAccepted(ops, maxItemSize)
    requires group.server < |states| && cuts(group.server).None?
    requires
      var items := Routed(ops, route, group.server);
      group.items == Laid(items) && group.payload == Payload(items)
    requires forall k :: 0 <= k < |group.items| ==> group.items[k].index < |ops|
    ensures
      var served := Exchange(exec, states[group.server], group, cuts(group.server));
      && served.Some? && served.value.0 == Left(exec, states, ops, route, cuts, group.server)
      && forall k :: 0 <= k < |group.items| ==>
           Told(exec, states, ops, route, cuts, group.items[k].index, Decide(group.items[k], Expected(group.items), served.value.1))
  {
    hide Honest, AllAccepted, Routed, Laid, ServeBytes, RunSequential, Decide, Expected;
    BatchRefines(exec, states, ops, route, group.server, |group.payload|, maxItemSize);
    forall k | 0 <= k < |group.items| ensures route(ops[group.items[k].index].key) == group.server {
      RoutedItem(ops, route, group.server, k);
    }
  }

  lemma CutGroup<S(!new)>(exec: Exec<S>, states: seq<S>, ops: seq<Operation>, route: Bytes -> nat, cuts: nat -> Option<Cut>,
                          group: Group, maxItemSize: nat)
    requires Honest(exec) && (forall key: Bytes :: route(key) < |states|) && AllAccepted(ops, maxItemSize)
    requires CutsPossible(exec, states, ops, route, cuts) && group.server < |states| && cuts(group.server).Some?
    requires group.items == Laid(Routed(ops, route, group.server))
    requires forall k :: 0 <= k < |group.items| ==> group.items[k].index < |ops|
    ensures
      var served := Exchange(exec, states[group.server], group, cuts(group.server));
      && served.Some? && served.value.0 == Left(exec, states, ops, route, cuts, group.server)
      && forall k :: 0 <= k < |group.items| ==>
           Told(exec, states, ops, route, cuts, group.items[k].index, Decide(group.items[k], Expected(group.items), served.value.1))
  {
    hide Honest, AllAccepted, Routed, Laid, RunSequential, Decide, Expected, ToldOf, Prepared, DistinctIndexes, RunAlone,
      ServeAll, Quiets, RepliesTo, Told;
    var items, s, cut := Routed(ops, route, group.server), states[group.server], cuts(group.server).value;
    RoutedPrepared(ops, route, group.server, maxItemSize);
    LaidPrepared(items);
    CutSpans(exec, s, items, cut);
    forall k | 0 <= k < |group.items|
      ensures Told(exec, states, ops, route, cuts, group.items[k].index,
                   Decide(group.items[k], Expected(group.items), CutExchange(exec, s, group.items, cut)))
    {
      CutTold(exec, states, ops, route, cuts, group, k);
    }
  }

  lemma CutTold<S(!new)>(exec: Exec<S>, states: seq<S>, ops: seq<Operation>, route: Bytes -> nat, cuts: nat -> Option<Cut>,
                         group: Group, k: nat)
    requires Honest(exec) && (forall key: Bytes :: route(key) < |states|) && group.server < |states|
    requires cuts(group.server).Some? && group.items == Laid(Routed(ops, route, group.server)) && k < |group.items|
    requires group.items[k].index < |ops| && DistinctIndexes(group.items)
    requires forall i :: 0 <= i < |group.items| ==> Prepared(group.items[i])
    requires Possible(exec, states[group.server], group.items, cuts(group.server).value)
    ensures Told(exec, states, ops, route, cuts, group.items[k].index,
                 Decide(group.items[k], Expected(group.items),
                        CutExchange(exec, states[group.server], group.items, cuts(group.server).value)))
  {
    hide Honest, Routed, Laid, RunSequential, Decide, Expected, ToldOf, Prepared, DistinctIndexes, RunAlone, ServeAll,
      Quiets, RepliesTo, CutExchange;
    var s, cut := states[group.server], cuts(group.server).value;
    OwnAnswer(exec, states, ops, route, group.server, k);
    CutShort(exec, s, group.items, cut, k);
    var i := group.items[k].index;
    assert ToldAt(group.items, k, i, cut, RunSequential(exec, states, ops, route).1[i],
                  Decide(group.items[k], Expected(group.items), CutExchange(exec, s, group.items, cut)));
  }

  // The one-by-one answer of an operation, seen from its own server.
  lemma OwnAnswer<S>(exec: Exec<S>, states: seq<S>, ops: seq<Operation>, route: Bytes -> nat, server: nat, k: nat)
    requires (forall key: Bytes :: route(key) < |states|) && server < |states|
    requires k < |Laid(Routed(ops, route, server))|
    ensures
      var laid := Laid(Routed(ops, route, server));
      var own := RunAlone(exec, states[server], laid).1;
      && laid[k].index < |ops| && route(ops[laid[k].index].key) == server
      && |own| == |laid| && RunSequential(exec, states, ops, route).1[laid[k].index] == own[k]
  {
    hide Routed, Laid, RunSequential, RunAlone, Quiets;
    Projects(exec, states, ops, route, server);
    SpansDoNotMatter(exec, states[server], Routed(ops, route, server));
    RoutedItem(ops, route, server, k);
  }

  // The server's part does not depend on where the bytes are in the payload.
  lemma CutSpans<S(!new)>(exec: Exec<S>, s: S, items: seq<Item>, cut: Cut)
    requires Honest(exec) && cut.executed <= |items| && DistinctIndexes(items)
    requires forall k :: 0 <= k < |items| ==> Prepared(Laid(items)[k])
    ensures ServeAll(exec, s, Quiets(Laid(items)[..cut.executed])).0 == RunAlone(exec, s, items[..cut.executed]).0
  {
    hide Honest, Prepared, ServeAll, RunAlone, Quiets, Laid, DistinctIndexes, Correlated, Resolves;
    LaidTake(items, cut.executed);
    SpansDoNotMatter(exec, s, items[..cut.executed]);
    LaidDistinct(items, cut.executed);
    ServedAsAlone(exec, s, Laid(items)[..cut.executed]);
  }

  lemma LaidDistinct(items: seq<Item>, n: nat)
    requires DistinctIndexes(items) && n <= |items|
    ensures DistinctIndexes(Laid(items)[..n])
  {
    hide Laid;
  }

  lemma {:induction false} LaidTake(items: seq<Item>, n: nat)
    requires n <= |items|
    ensures Laid(items)[..n] == Laid(items[..n])
  {
    hide Quiet, Printed;
    if n < |items| {
      LaidTake(items[..|items| - 1], n);
      assert items[..|items| - 1][..n] == items[..n];
    } else {
      assert items[..n] == items;
    }
  }

  // batch against servers that answer, or whose exchange fails (batch.go:170-248):
  // the results are in the caller's order. A server that answers contributes the
  // one-by-one results and moves on as in the one-by-one run, whatever happens on
  // the others; for the rest Told and Left say what is known.
  method RunBatch<S(!new)>(exec: Exec<S>, states: seq<S>, ops: seq<Operation>, route: Bytes -> nat, cuts: nat -> Option<Cut>,
                           maxItemSize: nat)
    returns (plan: Plan, results: array<Answer>, after: seq<S>)
    requires Honest(exec) && (forall key: Bytes :: route(key) < |states|) && |ops| <= MAX_63
    requires CutsPossible(exec, states, ops, route, cuts)
    ensures plan.Rejected? ==> after == states
    ensures plan.Planned? <==> AllAccepted(ops, maxItemSize)
    ensures plan.Planned? ==>
      && results.Length == |ops| && |after| == |states|
      && (forall i :: 0 <= i < |ops| ==> Told(exec, states, ops, route, cuts, i, results[i]))
      && (forall server :: 0 <= server < |states| ==> after[server] == Left(exec, states, ops, route, cuts, server))
    ensures plan.Planned? && (forall server :: 0 <= server < |states| ==> cuts(server).None?) ==>
      (after, results[..]) == RunSequential(exec, states, ops, route)
  {
    hide *;
    AllAcceptedIs(ops, maxItemSize);
    results := new Answer[|ops|](i => Failed(PipelineFailed, false));
    after := states;
    plan := PlanBatch(ops, route, |states|, maxItemSize);
    if plan.Rejected? { return; }
    var groups := plan.groups;
    ghost var goal := seq(|states|, server requires 0 <= server < |states| => Left(exec, states, ops, route, cuts, server));
    ghost var good := (i: int, told: Answer) => 0 <= i < |ops| && Told(exec, states, ops, route, cuts, i, told);
    LoopStarts(states, goal, groups, ops, route, results[..], good);
    for n := 0 to |groups|
      invariant Settled(groups, n, ops, route, results[..], good) && Moved(groups, n, states, after, goal)
    {
      var group := groups[n];
      ghost var was, before := results[..], after;
      GroupReady(exec, states, after, ops, route, cuts, goal, n, maxItemSize);
      var served := Exchange(exec, after[group.server], group, cuts(group.server));
      ResolveGroup(results, group.items, served.value.1);
      after := after[group.server := served.value.0];
      GroupSettles(ops, route, group.server, group.items, was, results[..], good);
      TurnSettles(groups, n, ops, route, was, results[..], good, states, before, after, goal);
    }
    LoopEnds(exec, states, ops, route, cuts, results[..], after, goal, good);
    if forall server :: 0 <= server < |states| ==> cuts(server).None? {
      UncutIsSequential(exec, states, ops, route, cuts, results[..], after);
    }
  }

  lemma UncutIsSequential<S>(exec: Exec<S>, states: seq<S>, ops: seq<Operation>, route: Bytes -> nat, cuts: nat -> Option<Cut>,
                             results: seq<Answer>, after: seq<S>)
    requires (forall key: Bytes :: route(key) < |states|) && |results| == |ops| && |after| == |states|
    requires forall server :: 0 <= server < |states| ==> cuts(server).None?
    requires forall i :: 0 <= i < |ops| ==> Told(exec, states, ops, route, cuts, i, results[i])
    requires forall server :: 0 <= server < |states| ==> after[server] == Left(exec, states, ops, route, cuts, server)
    ensures (after, results) == RunSequential(exec, states, ops, route)
  {
    hide RunSequential;
    var (goal, answers) := RunSequential(exec, states, ops, route);
    assert after == goal && results == answers;
  }

  // ---- the rules can be followed ----

  type Shelf = map<Bytes, Bytes>

  // A server that keeps values: a get finds what a store left, or vivifies it.
  function ShelfExec(s: Shelf, m: MetaCommand): (Shelf, RawResponse) {
    if m.command == MG then
      if m.key in s then (s, Responses.Blank(VA, Some(s[m.key]), None, []))
      else if Given(m.flags, 78) then (s[m.key := []], Responses.Blank(VA, Some([]), None, []).(won := true))
      else (s, Responses.Blank(EN, None, None, []))
    else if m.command == MS then (s[m.key := m.value], Responses.Blank(HD, None, None, []))
    else if m.command == MD && m.key in s then (s - {m.key}, Responses.Blank(HD, None, None, []))
    else (s, Responses.Blank(NF, None, None, []))
  }

  lemma ShelfIsHonest()
    ensures Honest(ShelfExec)
  {
    hide Lookup;
  }

  lemma OneByOne<S>(exec: Exec<S>, states: seq<S>, front: seq<Operation>, last: Operation, route: Bytes -> nat)
    requires forall key: Bytes :: route(key) < |states|
    ensures
      var (before, answers) := RunSequential(exec, states, front, route);
      var (after, reply) := exec(before[route(last.key)], CommandOf(last));
      RunSequential(exec, states, front + [last], route) == (before[route(last.key) := after], answers + [Interpret(last, reply)])
  {
    hide CommandOf, Interpret;
    assert (front + [last])[..|front|] == front;
  }

  // On it, a batch that stores a value and reads it back gets the value, and
  // leaves it on the shelf.
  lemma ShelfReadsBack(s: Shelf, store: Operation, get: Operation, route: Bytes -> nat)
    requires store.Set? && get.Get? && store.key == get.key && Prepare(store).Built? && Prepare(get).Built?
    requires get.get.unlessCAS.None? && get.get.vivifyTTL.None? && forall key: Bytes :: route(key) == 0
    ensures
      var (after, answers) := RunSequential(ShelfExec, [s], [store, get], route);
      && after == [s[store.key := store.value]]
      && answers[1].GetAnswer? && answers[1].status == GetHit && answers[1].value == Some(store.value)
  {
    hide Prepare, CommandOf, Lookup, Interpret, ShelfExec, RunSequential;
    StoreThenGet(s, store, get);
    Nobody(s, route);
    OneByOne(ShelfExec, [s], [], store, route);
    assert [] + [store] == [store];
    OneByOne(ShelfExec, [s], [store], get, route);
    assert [store] + [get] == [store, get];
  }

  lemma Nobody(s: Shelf, route: Bytes -> nat)
    requires forall key: Bytes :: route(key) == 0
    ensures RunSequential(ShelfExec, [s], [], route) == ([s], [])
  {
  }

  lemma StoreThenGet(s: Shelf, store: Operation, get: Operation)
    requires store.Set? && get.Get? && store.key == get.key && Prepare(store).Built? && Prepare(get).Built?
    requires get.get.unlessCAS.None? && get.get.vivifyTTL.None?
    ensures
      var after := ShelfExec(s, CommandOf(store)).0;
      && after == s[store.key := store.value]
      && ShelfExec(after, CommandOf(get)).0 == after
      && var answer := Interpret(get, ShelfExec(after, CommandOf(get)).1);
      answer.GetAnswer? && answer.status == GetHit && answer.value == Some(store.value)
  {
    assert CommandOf(store).key == store.key && CommandOf(store).value == store.value && CommandOf(store).command == MS;
    assert CommandOf(get).key == get.key && CommandOf(get).command == MG;
    assert MS[1] != MG[1];
    hide Prepare, CommandOf, Lookup;
  }
}
