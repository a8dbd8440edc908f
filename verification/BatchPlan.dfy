// From a list of operations to payloads, one per server, and back (batch.go:170-248).
module BatchPlan {
  import opened Protocol
  import opened Text
  import opened Commands
  import opened Builders
  import opened Results
  import opened Batch
  import opened BatchRefinement
  import opened BatchCode

  const MN_LINE: Bytes := [109, 110, 13, 10]

  // ---- groups ----

  function CommandOf(op: Operation): MetaCommand {
    match Prepare(op)
    case Built(command) => command
    case Refused(_) => MetaCommand([], op.key, [], [], false)
  }

  // The operations of one server, in the caller's order.
  function Routed(ops: seq<Operation>, route: Bytes -> nat, server: nat): (items: seq<Item>)
    ensures forall k :: 0 <= k < |items| ==>
      items[k].index < |ops| && items[k].op == ops[items[k].index] && items[k].command == CommandOf(items[k].op)
    ensures forall j, k :: 0 <= j < k < |items| ==> items[j].index < items[k].index
  {
    if ops == [] then []
    else
      var items := Routed(ops[..|ops| - 1], route, server);
      var last := ops[|ops| - 1];
      if route(last.key) == server then items + [Item(|ops| - 1, last, CommandOf(last), 0, 0)] else items
  }

  // The same operations with the bytes they take in the payload.
  function Laid(items: seq<Item>): (laid: seq<Item>)
    ensures |laid| == |items|
    ensures forall k :: 0 <= k < |items| ==>
      laid[k].index == items[k].index && laid[k].op == items[k].op && laid[k].command == items[k].command
  {
    if items == [] then []
    else
      var front, last := items[..|items| - 1], items[|items| - 1];
      var start := |Written(front)|;
      Laid(front) + [last.(start := start, end := start + |Printed(Quiet(last))|)]
  }

  function Written(items: seq<Item>): Bytes {
    if items == [] then [] else Written(items[..|items| - 1]) + Printed(Quiet(items[|items| - 1]))
  }

  function Payload(items: seq<Item>): Bytes { Written(items) + MN_LINE }

  // Every operation owns the bytes between its offsets, and the spans follow one
  // another from the start of the payload up to the barrier.
  lemma {:induction false} SpansTile(items: seq<Item>, k: nat)
    requires k < |items|
    ensures
      var laid := Laid(items);
      && laid[k].start <= laid[k].end <= |Written(items)|
      && Payload(items)[laid[k].start..laid[k].end] == Printed(Quiet(items[k]))
      && laid[k].start == (if k == 0 then 0 else laid[k - 1].end)
      && (k == |items| - 1 ==> laid[k].end == |Written(items)|)
  {
    hide Quiet, Printed;
    SpanInWritten(items, k);
    var laid := Laid(items);
    assert Payload(items)[laid[k].start..laid[k].end] == Written(items)[laid[k].start..laid[k].end];
  }

  lemma {:induction false} SpanInWritten(items: seq<Item>, k: nat)
    requires k < |items|
    ensures
      var laid := Laid(items);
      && laid[k].start <= laid[k].end <= |Written(items)|
      && Written(items)[laid[k].start..laid[k].end] == Printed(Quiet(items[k]))
      && laid[k].start == (if k == 0 then 0 else laid[k - 1].end)
      && (k == |items| - 1 ==> laid[k].end == |Written(items)|)
  {
    hide Quiet, Printed;
    var front, last := items[..|items| - 1], items[|items| - 1];
    if k < |front| {
      SpanInWritten(front, k);
      var laid := Laid(front);
      assert Written(items)[laid[k].start..laid[k].end] == Written(front)[laid[k].start..laid[k].end];
    } else if front != [] {
      SpanInWritten(front, |front| - 1);
    }
  }

  lemma {:induction false} WrittenIsStream(items: seq<Item>)
    ensures Written(items) == Stream(Quiets(items))
  {
    if items != [] {
      var front, last := items[..|items| - 1], items[|items| - 1];
      WrittenIsStream(front);
      assert Quiets(items) == Quiets(front) + [Quiet(last)];
      StreamGrows(Quiets(front), Quiet(last));
    }
  }

  lemma {:induction false} StreamGrows(ms: seq<MetaCommand>, m: MetaCommand)
    ensures Stream(ms + [m]) == Stream(ms) + Printed(m)
  {
    hide Printed;
    if ms == [] {
      assert [m][1..] == [];
    } else {
      StreamGrows(ms[1..], m);
      assert (ms + [m])[1..] == ms[1..] + [m];
    }
  }

  // ---- planning ----

  datatype Group = Group(server: nat, items: seq<Item>, payload: Bytes)

  datatype PlanError =
    | BadOptions(index: nat, option: OptionError) | TooLarge(index: nat) | Reserved(index: nat)
    | Unprintable(index: nat, usage: UsageError)

  datatype Plan = Planned(groups: seq<Group>) | Rejected(error: PlanError)

  predicate Oversized(m: MetaCommand, maxItemSize: nat) { m.hasValue && maxItemSize > 0 && |m.value| > maxItemSize }

  predicate CarriesTag(m: MetaCommand) { exists i :: 0 <= i < |m.flags| && Tagged(m.flags[i]) }

  function ItemOf(ops: seq<Operation>, i: nat): Item
    requires i < |ops|
  {
    Item(i, ops[i], CommandOf(ops[i]), 0, 0)
  }

  predicate Accepted(ops: seq<Operation>, i: nat, maxItemSize: nat)
    requires i < |ops|
  {
    && Prepare(ops[i]).Built? && !Oversized(CommandOf(ops[i]), maxItemSize) && !CarriesTag(CommandOf(ops[i]))
    && Refusal(Quiet(ItemOf(ops, i))).None?
  }

  // A rejection names a position and what is wrong there.
  predicate Truthful(e: PlanError, ops: seq<Operation>, maxItemSize: nat) {
    e.index < |ops| &&
    match e
    case BadOptions(i, option) => Prepare(ops[i]) == Refused(option)
    case TooLarge(i) => Oversized(CommandOf(ops[i]), maxItemSize)
    case Reserved(i) => CarriesTag(CommandOf(ops[i]))
    case Unprintable(i, usage) => Refusal(Quiet(ItemOf(ops, i))) == Some(usage)
  }

  function GroupsOf(ops: seq<Operation>, route: Bytes -> nat, servers: nat): (groups: seq<Group>)
    ensures forall g :: 0 <= g < |groups| ==> groups[g].server < servers
    ensures forall g, h :: 0 <= g < h < |groups| ==> groups[g].server < groups[h].server
  {
    if servers == 0 then []
    else
      var groups := GroupsOf(ops, route, servers - 1);
      var items := Routed(ops, route, servers - 1);
      if items == [] then groups else groups + [Group(servers - 1, Laid(items), Payload(items))]
  }

  method HasTag(m: MetaCommand) returns (has: bool)
    ensures has == CarriesTag(m)
  {
    for i := 0 to |m.flags|
      invariant forall j :: 0 <= j < i ==> !Tagged(m.flags[j])
    {
      if |m.flags[i]| > 0 && m.flags[i][0] == TAG {
        assert Tagged(m.flags[i]);
        return true;
      }
    }
    return false;
  }

  // One group's payload and spans (batch.go:220-229).
  method LayOut(items: seq<Item>) returns (laid: seq<Item>, payload: Bytes, refused: Option<(nat, UsageError)>)
    ensures refused.None? ==> laid == Laid(items) && payload == Payload(items)
    ensures refused.None? <==> forall k :: 0 <= k < |items| ==> Refusal(Quiet(items[k])).None?
    ensures refused.Some? ==> exists k ::
      0 <= k < |items| && items[k].index == refused.value.0 && Refusal(Quiet(items[k])) == Some(refused.value.1)
  {
    hide Refusal, Quiet, Printed;
    laid, payload := [], [];
    for k := 0 to |items|
      invariant laid == Laid(items[..k]) && payload == Written(items[..k])
      invariant forall j :: 0 <= j < k ==> Refusal(Quiet(items[j])).None?
    {
      assert items[..k + 1][..k] == items[..k];
      var item := items[k].(start := |payload|);
      var quiet := QuietCommand(items[k]);
      var wire := Marshal(quiet);
      if wire.Err? {
        assert Refusal(Quiet(items[k])) == Some(wire.error);
        return [], [], Some((items[k].index, wire.error));
      }
      payload := payload + wire.value;
      laid := laid + [item.(end := |payload|)];
    }
    assert items[..|items|] == items;
    payload := payload + MN_LINE;
    refused := None;
  }

  // What the first loop has grouped so far.
  ghost predicate Grouped(groups: map<nat, seq<Item>>, ops: seq<Operation>, route: Bytes -> nat, servers: nat) {
    && (forall server :: server in groups ==> server < servers)
    && (forall server :: 0 <= server < servers ==>
          Routed(ops, route, server) == (if server in groups then groups[server] else []))
  }

  lemma GroupedNone(ops: seq<Operation>, route: Bytes -> nat, servers: nat)
    ensures Grouped(map[], ops[..0], route, servers)
  {
  }

  lemma GroupedNext(groups: map<nat, seq<Item>>, ops: seq<Operation>, n: nat, route: Bytes -> nat, servers: nat)
    requires n < |ops| && Grouped(groups, ops[..n], route, servers) && route(ops[n].key) < servers
    ensures
      var server := route(ops[n].key);
      Grouped(groups[server := (if server in groups then groups[server] else []) + [ItemOf(ops, n)]],
              ops[..n + 1], route, servers)
  {
    assert ops[..n + 1][..n] == ops[..n];
  }

  lemma RoutedItem(ops: seq<Operation>, route: Bytes -> nat, server: nat, k: nat)
    requires k < |Routed(ops, route, server)|
    ensures
      var item := Routed(ops, route, server)[k];
      item.index < |ops| && item == ItemOf(ops, item.index) && route(item.op.key) == server
  {
    if k < |Routed(ops[..|ops| - 1], route, server)| { RoutedItem(ops[..|ops| - 1], route, server, k); }
  }

  // Every operation is in the group of its server.
  lemma {:induction false} RoutedCovers(ops: seq<Operation>, route: Bytes -> nat, i: nat) returns (k: nat)
    requires i < |ops|
    ensures k < |Routed(ops, route, route(ops[i].key))| && Routed(ops, route, route(ops[i].key))[k] == ItemOf(ops, i)
  {
    if i == |ops| - 1 {
      k := |Routed(ops[..i], route, route(ops[i].key))|;
    } else {
      k := RoutedCovers(ops[..|ops| - 1], route, i);
    }
  }

  // What the first loop checks of an operation.
  predicate Admitted(ops: seq<Operation>, i: nat, maxItemSize: nat)
    requires i < |ops|
  {
    Prepare(ops[i]).Built? && !Oversized(CommandOf(ops[i]), maxItemSize) && !CarriesTag(CommandOf(ops[i]))
  }

  // batch's first loop (batch.go:175-213): every operation is prepared and joins
  // the group of its server, or the whole batch is refused.
  method GroupAll(ops: seq<Operation>, route: Bytes -> nat, servers: nat, maxItemSize: nat)
    returns (groups: map<nat, seq<Item>>, error: Option<PlanError>)
    requires forall key: Bytes :: route(key) < servers
    ensures error.None? ==> Grouped(groups, ops, route, servers) && forall i :: 0 <= i < |ops| ==> Admitted(ops, i, maxItemSize)
    ensures error.Some? ==>
      Truthful(error.value, ops, maxItemSize) && exists i :: 0 <= i < |ops| && !Admitted(ops, i, maxItemSize)
  {
    hide Prepare, CommandOf, Refusal, Quiet, Routed, Oversized, CarriesTag, Grouped;
    groups, error := map[], None;
    GroupedNone(ops, route, servers);
    for n := 0 to |ops|
      invariant Grouped(groups, ops[..n], route, servers)
      invariant forall i :: 0 <= i < n ==> Admitted(ops, i, maxItemSize)
    {
      var op := ops[n];
      var built := Prepare(op);
      assert built.Refused? ==> !Admitted(ops, n, maxItemSize);
      if built.Refused? { return groups, Some(BadOptions(n, built.error)); }
      CommandBuilt(op);
      assert Oversized(CommandOf(op), maxItemSize) || CarriesTag(CommandOf(op)) ==> !Admitted(ops, n, maxItemSize);
      if Oversized(built.command, maxItemSize) { return groups, Some(TooLarge(n)); }
      var tagged := HasTag(built.command);
      if tagged { return groups, Some(Reserved(n)); }
      var server := route(op.key);
      GroupedNext(groups, ops, n, route, servers);
      groups := groups[server := (if server in groups then groups[server] else []) + [Item(n, op, built.command, 0, 0)]];
    }
    assert ops[..|ops|] == ops;
  }

  ghost predicate Printable(ops: seq<Operation>, route: Bytes -> nat, servers: nat) {
    forall i :: 0 <= i < |ops| && route(ops[i].key) < servers ==> Refusal(Quiet(ItemOf(ops, i))).None?
  }

  lemma PrintableNext(ops: seq<Operation>, route: Bytes -> nat, server: nat, items: seq<Item>)
    requires Printable(ops, route, server) && items == Routed(ops, route, server)
    requires forall k :: 0 <= k < |items| ==> Refusal(Quiet(items[k])).None?
    ensures Printable(ops, route, server + 1)
  {
    hide Refusal, Quiet, Routed, CommandOf;
    forall i | 0 <= i < |ops| && route(ops[i].key) < server + 1 ensures Refusal(Quiet(ItemOf(ops, i))).None? {
      if route(ops[i].key) == server { var k := RoutedCovers(ops, route, i); }
    }
  }

  // batch's second loop (batch.go:214-231): the groups in the order of their
  // servers, with their payloads.
  method OrderGroups(ops: seq<Operation>, route: Bytes -> nat, servers: nat, groups: map<nat, seq<Item>>)
    returns (ordered: seq<Group>, refused: Option<(nat, UsageError)>)
    requires Grouped(groups, ops, route, servers)
    ensures refused.None? ==> ordered == GroupsOf(ops, route, servers) && Printable(ops, route, servers)
    ensures refused.Some? ==>
      refused.value.0 < |ops| && Refusal(Quiet(ItemOf(ops, refused.value.0))) == Some(refused.value.1)
  {
    hide Refusal, Quiet, Routed, CommandOf, Printable;
    ordered, refused := [], None;
    PrintableNone(ops, route);
    for server := 0 to servers
      invariant ordered == GroupsOf(ops, route, server) && Printable(ops, route, server)
    {
      var items := if server in groups then groups[server] else [];
      assert items == Routed(ops, route, server);
      var laid, payload;
      laid, payload, refused := LayOut(items);
      if refused.Some? {
        ghost var k :| 0 <= k < |items| && items[k].index == refused.value.0 && Refusal(Quiet(items[k])) == Some(refused.value.1);
        RoutedItem(ops, route, server, k);
        return;
      }
      PrintableNext(ops, route, server, items);
      if items != [] { ordered := ordered + [Group(server, laid, payload)]; }
    }
    refused := None;
  }

  lemma PrintableNone(ops: seq<Operation>, route: Bytes -> nat)
    ensures Printable(ops, route, 0)
  {
  }

  // batch up to the exchanges (batch.go:170-231). The router picks a server for
  // every key.
  method PlanBatch(ops: seq<Operation>, route: Bytes -> nat, servers: nat, maxItemSize: nat) returns (plan: Plan)
    requires forall key: Bytes :: route(key) < servers
    ensures plan.Planned? <==> forall i :: 0 <= i < |ops| ==> Accepted(ops, i, maxItemSize)
    ensures plan.Planned? ==> plan.groups == GroupsOf(ops, route, servers)
    ensures plan.Rejected? ==> Truthful(plan.error, ops, maxItemSize)
  {
    hide Refusal, Quiet, Grouped, GroupsOf, Admitted, Accepted, Prepare, CommandOf, Oversized, CarriesTag;
    var groups, error := GroupAll(ops, route, servers, maxItemSize);
    AcceptedSplit(ops, maxItemSize);
    if error.Some? { return Rejected(error.value); }
    var ordered, refused := OrderGroups(ops, route, servers, groups);
    if refused.Some? { return Rejected(Unprintable(refused.value.0, refused.value.1)); }
    plan := Planned(ordered);
  }

  lemma AcceptedSplit(ops: seq<Operation>, maxItemSize: nat)
    ensures forall i :: 0 <= i < |ops| ==>
      (Accepted(ops, i, maxItemSize) <==> Admitted(ops, i, maxItemSize) && Refusal(Quiet(ItemOf(ops, i))).None?)
  {
    hide Prepare, Refusal, Quiet, CommandOf, Oversized, CarriesTag;
  }

  lemma CommandBuilt(op: Operation)
    requires Prepare(op).Built?
    ensures Prepare(op).command == CommandOf(op)
  {
  }
}
