// The in-process flights of fetch.go:198-245 and fetch.go:548-618: callers that
// need the same key share one loader. One event is one critical section of
// fetchMu, one close of a done channel, or one receive from it. A runFlight is a
// runFlights of one key.
module Flights {
  import opened Protocol

  type CallerId = nat
  type FlightId = nat

  // What a loader returned: a value for some keys, or an error.
  datatype Load = Load(values: map<Bytes, Bytes>, err: Option<nat>)

  // What a flight publishes for its key.
  datatype Shared = Shared(value: Option<Bytes>, err: Option<nat>)

  datatype Flight = Flight(key: Bytes, owner: CallerId, result: Option<Shared>, closed: bool)

  datatype Phase = Starting | Loading | Publishing | Closing(left: nat) | Waiting | Finished | Canceled

  // own are the flights a caller registered, joins those it found; seen is what
  // it has received from joins so far.
  datatype Caller = Caller(
    keys: seq<Bytes>, phase: Phase, own: seq<FlightId>, joins: seq<FlightId>, load: Option<Load>, seen: seq<Shared>)

  datatype State = State(registry: map<Bytes, FlightId>, flights: seq<Flight>, callers: seq<Caller>)

  const Init := State(map[], [], [])

  datatype Event =
    | Call(keys: seq<Bytes>)
    | Register(c: CallerId)
    | LoaderReturns(c: CallerId, load: Load)
    | Publish(c: CallerId)
    | CloseOne(c: CallerId)
    | Observe(c: CallerId)
    | Finish(c: CallerId)
    | Cancel(c: CallerId)

  // ---- registration ----

  datatype Registered = Registered(registry: map<Bytes, FlightId>, flights: seq<Flight>, own: seq<FlightId>, joins: seq<FlightId>)

  // The register closure of runFlights, for one key.
  function RegisterOne(r: Registered, c: CallerId, key: Bytes): Registered {
    if key in r.registry then r.(joins := r.joins + [r.registry[key]])
    else
      r.(registry := r.registry[key := |r.flights|], flights := r.flights + [Flight(key, c, None, false)],
         own := r.own + [|r.flights|])
  }

  function RegisterAll(r: Registered, c: CallerId, keys: seq<Bytes>): Registered {
    if keys == [] then r else RegisterOne(RegisterAll(r, c, keys[..|keys| - 1]), c, keys[|keys| - 1])
  }

  // The keys of some flights.
  function KeyList(flights: seq<Flight>, ids: seq<FlightId>): seq<Bytes>
    requires forall i :: 0 <= i < |ids| ==> ids[i] < |flights|
  {
    seq(|ids|, i requires 0 <= i < |ids| => flights[ids[i]].key)
  }

  // ---- publication ----

  function Lookup(load: Load, key: Bytes): Shared {
    Shared(if key in load.values then Some(load.values[key]) else None, load.err)
  }

  function PublishAll(flights: seq<Flight>, own: seq<FlightId>, load: Load): (r: seq<Flight>)
    ensures |r| == |flights|
    ensures forall f :: 0 <= f < |flights| ==>
      r[f] == if f in own then flights[f].(result := Some(Lookup(load, flights[f].key))) else flights[f]
  {
    seq(|flights|, f requires 0 <= f < |flights| =>
      if f in own then flights[f].(result := Some(Lookup(load, flights[f].key))) else flights[f])
  }

  ghost function KeysOf(flights: seq<Flight>, own: seq<FlightId>): set<Bytes> {
    set i | 0 <= i < |own| && own[i] < |flights| :: flights[own[i]].key
  }

  // ---- steps ----

  ghost predicate Enabled(s: State, e: Event) {
    match e
    case Call(_) => true
    case Register(c) => c < |s.callers| && s.callers[c].phase.Starting?
    case LoaderReturns(c, _) => c < |s.callers| && s.callers[c].phase.Loading?
    case Publish(c) => c < |s.callers| && s.callers[c].phase.Publishing? && s.callers[c].load.Some?
    case CloseOne(c) =>
      && c < |s.callers| && s.callers[c].phase.Closing? && 0 < s.callers[c].phase.left <= |s.callers[c].own|
      && s.callers[c].own[s.callers[c].phase.left - 1] < |s.flights|
    case Observe(c) =>
      && c < |s.callers| && s.callers[c].phase.Waiting? && |s.callers[c].seen| < |s.callers[c].joins|
      && var f := s.callers[c].joins[|s.callers[c].seen|];
         f < |s.flights| && s.flights[f].closed && s.flights[f].result.Some?
    case Finish(c) => c < |s.callers| && s.callers[c].phase.Waiting? && |s.callers[c].seen| == |s.callers[c].joins|
    case Cancel(c) => c < |s.callers| && s.callers[c].phase.Waiting?
  }

  ghost function Apply(s: State, e: Event): State
    requires Enabled(s, e)
  {
    match e
    case Call(keys) => s.(callers := s.callers + [Caller(keys, Starting, [], [], None, [])])
    case Register(c) =>
      var k := s.callers[c];
      var r := RegisterAll(Registered(s.registry, s.flights, [], []), c, k.keys);
      State(r.registry, r.flights,
            s.callers[c := k.(own := r.own, joins := r.joins, phase := if r.own == [] then Waiting else Loading)])
    case LoaderReturns(c, load) => s.(callers := s.callers[c := s.callers[c].(load := Some(load), phase := Publishing)])
    case Publish(c) =>
      var k := s.callers[c];
      State(s.registry - KeysOf(s.flights, k.own), PublishAll(s.flights, k.own, k.load.value),
            s.callers[c := k.(phase := Closing(|k.own|))])
    case CloseOne(c) =>
      var k := s.callers[c];
      var f := k.own[k.phase.left - 1];
      s.(flights := s.flights[f := s.flights[f].(closed := true)],
         callers := s.callers[c := k.(phase := if k.phase.left == 1 then Waiting else Closing(k.phase.left - 1))])
    case Observe(c) =>
      var k := s.callers[c];
      s.(callers := s.callers[c := k.(seen := k.seen + [s.flights[k.joins[|k.seen|]].result.value])])
    case Finish(c) => s.(callers := s.callers[c := s.callers[c].(phase := Finished)])
    case Cancel(c) => s.(callers := s.callers[c := s.callers[c].(phase := Canceled)])
  }

  ghost predicate Run(ss: seq<State>, es: seq<Event>) {
    && |ss| == |es| + 1 && ss[0] == Init
    && forall i :: 0 <= i < |es| ==> Step(ss[i], es[i], ss[i + 1])
  }

  ghost predicate Step(s: State, e: Event, s': State) { Enabled(s, e) && s' == Apply(s, e) }

  // ---- what every step keeps ----

  // Between registration and publication.
  predicate Busy(p: Phase) { p.Loading? || p.Publishing? }

  // A registered key's flight is unpublished and its owner is busy with it.
  ghost predicate RegistryInv(registry: map<Bytes, FlightId>, flights: seq<Flight>) {
    forall k :: k in registry ==>
      registry[k] < |flights| && flights[registry[k]].key == k && flights[registry[k]].result.None?
  }

  ghost predicate FlightInv(registry: map<Bytes, FlightId>, callers: seq<Caller>, f: FlightId, flight: Flight) {
    && flight.owner < |callers| && f in callers[flight.owner].own
    && (flight.result.None? ==> !flight.closed && flight.key in registry && registry[flight.key] == f
                                && Busy(callers[flight.owner].phase))
    && (flight.result.Some? ==>
          && !Busy(callers[flight.owner].phase) && callers[flight.owner].load.Some?
          && flight.result.value == Lookup(callers[flight.owner].load.value, flight.key))
  }

  ghost predicate CallerInv(flights: seq<Flight>, c: CallerId, k: Caller) {
    && OwnInv(flights, c, k) && JoinInv(flights, k)
    && (k.phase.Starting? ==> k.own == [] && k.joins == [] && k.load.None?)
    && (k.phase.Publishing? ==> k.load.Some?)
    && (Busy(k.phase) ==> k.own != [] && k.seen == [])
    && (k.phase.Finished? ==> |k.seen| == |k.joins|)
  }

  ghost predicate OwnInv(flights: seq<Flight>, c: CallerId, k: Caller) {
    && (forall i :: 0 <= i < |k.own| ==> k.own[i] < |flights| && flights[k.own[i]].owner == c)
    && (forall i, j :: 0 <= i < j < |k.own| ==> k.own[i] != k.own[j])
    && (k.phase.Closing? ==> 0 < k.phase.left <= |k.own|)
    && (forall i :: 0 <= i < |k.own| && Opened(k.phase, i) ==> flights[k.own[i]].closed && flights[k.own[i]].result.Some?)
  }

  ghost predicate JoinInv(flights: seq<Flight>, k: Caller) {
    && (forall i :: 0 <= i < |k.joins| ==> k.joins[i] < |flights|)
    && |k.seen| <= |k.joins|
    && (forall i :: 0 <= i < |k.seen| ==> flights[k.joins[i]].result == Some(k.seen[i]) && flights[k.joins[i]].closed)
  }

  // The own flights whose channel a caller has already closed.
  predicate Opened(p: Phase, i: nat) {
    p.Waiting? || p.Finished? || p.Canceled? || (p.Closing? && p.left <= i)
  }

  ghost predicate Inv(s: State) {
    && RegistryInv(s.registry, s.flights)
    && (forall f :: 0 <= f < |s.flights| ==> FlightInv(s.registry, s.callers, f, s.flights[f]))
    && (forall c :: 0 <= c < |s.callers| ==> CallerInv(s.flights, c, s.callers[c]))
  }

  lemma InvOf(s: State)
    requires RegistryInv(s.registry, s.flights)
    requires forall f :: 0 <= f < |s.flights| ==> FlightInv(s.registry, s.callers, f, s.flights[f])
    requires forall c :: 0 <= c < |s.callers| ==> CallerInv(s.flights, c, s.callers[c])
    ensures Inv(s)
  {
  }

  lemma FlightOf(s: State, f: FlightId)
    requires Inv(s) && f < |s.flights|
    ensures FlightInv(s.registry, s.callers, f, s.flights[f])
  {
  }

  lemma CallerOf(s: State, c: CallerId)
    requires Inv(s) && c < |s.callers|
    ensures CallerInv(s.flights, c, s.callers[c])
  {
  }

  lemma RegistryOf(s: State)
    requires Inv(s)
    ensures RegistryInv(s.registry, s.flights)
  {
  }

  // Flights only gain a result, then are closed.
  ghost predicate Grown(flights: seq<Flight>, flights': seq<Flight>) {
    && |flights| <= |flights'|
    && forall f :: 0 <= f < |flights| ==>
         && flights'[f].owner == flights[f].owner && (flights[f].closed ==> flights'[f].closed)
         && (flights[f].result.Some? ==> flights'[f].result == flights[f].result)
  }

  lemma FrameCaller(flights: seq<Flight>, flights': seq<Flight>, c: CallerId, k: Caller)
    requires CallerInv(flights, c, k) && Grown(flights, flights')
    ensures CallerInv(flights', c, k)
  {
  }

  // ---- each step keeps it ----

  // What registering leaves behind, given what was there.
  ghost predicate RegisteredFrom(r: Registered, r': Registered, c: CallerId) {
    && r.flights <= r'.flights
    && (forall k :: k in r.registry ==> k in r'.registry && r'.registry[k] == r.registry[k])
    && (forall i :: 0 <= i < |r'.own| ==> |r.flights| <= r'.own[i] < |r'.flights|)
    && (forall i, j :: 0 <= i < j < |r'.own| ==> r'.own[i] < r'.own[j])
    && (forall f :: |r.flights| <= f < |r'.flights| ==> NewFlight(r', c, f))
    && (forall i :: 0 <= i < |r'.joins| ==> r'.joins[i] < |r'.flights|)
  }

  ghost predicate NewFlight(r: Registered, c: CallerId, f: FlightId)
    requires f < |r.flights|
  {
    var flight := r.flights[f];
    && flight.owner == c && flight.result.None? && !flight.closed && f in r.own
    && flight.key in r.registry && r.registry[flight.key] == f
  }

  lemma RegisterOneKeeps(r: Registered, r': Registered, c: CallerId, key: Bytes)
    requires RegistryInv(r'.registry, r'.flights) && RegisteredFrom(r, r', c)
    ensures RegistryInv(RegisterOne(r', c, key).registry, RegisterOne(r', c, key).flights)
    ensures RegisteredFrom(r, RegisterOne(r', c, key), c)
  {
    var r'' := RegisterOne(r', c, key);
    forall f | |r.flights| <= f < |r''.flights| ensures NewFlight(r'', c, f) {
      if f < |r'.flights| { assert NewFlight(r', c, f); }
    }
  }

  lemma {:induction false} RegisterKeeps(r: Registered, c: CallerId, keys: seq<Bytes>)
    requires RegistryInv(r.registry, r.flights) && r.own == [] && r.joins == []
    ensures RegistryInv(RegisterAll(r, c, keys).registry, RegisterAll(r, c, keys).flights)
    ensures RegisteredFrom(r, RegisterAll(r, c, keys), c)
    ensures |RegisterAll(r, c, keys).own| + |RegisterAll(r, c, keys).joins| == |keys|
  {
    if keys != [] {
      RegisterKeeps(r, c, keys[..|keys| - 1]);
      hide RegistryInv, RegisteredFrom;
      RegisterOneKeeps(r, RegisterAll(r, c, keys[..|keys| - 1]), c, keys[|keys| - 1]);
    }
  }

  // The keys of own and joined flights together are the keys asked for, each as
  // often as it was asked for.
  ghost predicate Splits(flights: seq<Flight>, own: seq<FlightId>, joins: seq<FlightId>, keys: seq<Bytes>) {
    && (forall i :: 0 <= i < |own| ==> own[i] < |flights|) && (forall i :: 0 <= i < |joins| ==> joins[i] < |flights|)
    && multiset(KeyList(flights, own)) + multiset(KeyList(flights, joins)) == multiset(keys)
  }

  lemma KeyListGrows(flights: seq<Flight>, flights': seq<Flight>, ids: seq<FlightId>)
    requires (forall i :: 0 <= i < |ids| ==> ids[i] < |flights|) && |flights| <= |flights'|
    requires forall f :: 0 <= f < |flights| ==> flights'[f].key == flights[f].key
    ensures (forall i :: 0 <= i < |ids| ==> ids[i] < |flights'|) && KeyList(flights', ids) == KeyList(flights, ids)
  {
  }

  lemma KeyListAppend(flights: seq<Flight>, ids: seq<FlightId>, f: FlightId)
    requires (forall i :: 0 <= i < |ids| ==> ids[i] < |flights|) && f < |flights|
    ensures (forall i :: 0 <= i < |ids + [f]| ==> (ids + [f])[i] < |flights|)
    ensures multiset(KeyList(flights, ids + [f])) == multiset(KeyList(flights, ids)) + multiset{flights[f].key}
  {
    assert KeyList(flights, ids + [f]) == KeyList(flights, ids) + [flights[f].key];
  }

  lemma SplitsOne(r: Registered, c: CallerId, keys: seq<Bytes>, key: Bytes)
    requires RegistryInv(r.registry, r.flights) && Splits(r.flights, r.own, r.joins, keys)
    ensures
      var r' := RegisterOne(r, c, key);
      Splits(r'.flights, r'.own, r'.joins, keys + [key])
  {
    var r' := RegisterOne(r, c, key);
    KeyListGrows(r.flights, r'.flights, r.own);
    KeyListGrows(r.flights, r'.flights, r.joins);
    assert multiset(keys + [key]) == multiset(keys) + multiset{key};
    if key in r.registry {
      KeyListAppend(r.flights, r.joins, r.registry[key]);
    } else {
      KeyListAppend(r'.flights, r.own, |r.flights|);
    }
  }

  lemma {:induction false} RegisterSplits(r: Registered, c: CallerId, keys: seq<Bytes>)
    requires RegistryInv(r.registry, r.flights) && r.own == [] && r.joins == []
    ensures
      var r' := RegisterAll(r, c, keys);
      Splits(r'.flights, r'.own, r'.joins, keys)
  {
    hide RegistryInv, Splits, RegisterOne, RegisteredFrom;
    if keys == [] {
      NothingSplits(r.flights);
    } else {
      var front, last := keys[..|keys| - 1], keys[|keys| - 1];
      RegisterSplits(r, c, front);
      RegisterKeeps(r, c, front);
      SplitsOne(RegisterAll(r, c, front), c, front, last);
      assert keys == front + [last];
    }
  }

  lemma NothingSplits(flights: seq<Flight>)
    ensures Splits(flights, [], [], [])
  {
  }

  // ---- registering distinct keys ----

  // The keys with no flight yet, and those with one, in order.
  function NewKeys(keys: seq<Bytes>, registry: map<Bytes, FlightId>): (r: seq<Bytes>)
    ensures forall k :: k in r <==> k in keys && k !in registry
  {
    if keys == [] then [] else
      var front, last := keys[..|keys| - 1], keys[|keys| - 1];
      assert keys == front + [last];
      if last in registry then NewKeys(front, registry) else NewKeys(front, registry) + [last]
  }

  function OldKeys(keys: seq<Bytes>, registry: map<Bytes, FlightId>): (r: seq<Bytes>)
    ensures forall k :: k in r <==> k in keys && k in registry
    ensures multiset(NewKeys(keys, registry)) + multiset(r) == multiset(keys)
  {
    if keys == [] then [] else
      var front, last := keys[..|keys| - 1], keys[|keys| - 1];
      assert keys == front + [last];
      if last in registry then OldKeys(front, registry) + [last] else OldKeys(front, registry)
  }

  ghost predicate NoTwice(keys: seq<Bytes>) { forall i, j :: 0 <= i < j < |keys| ==> keys[i] != keys[j] }

  // Registering distinct keys opens a flight for each that had none, in order,
  // and joins the flight each of the others had.
  ghost predicate OpensAndJoins(r: Registered, r': Registered, c: CallerId, keys: seq<Bytes>) {
    var added, joined := NewKeys(keys, r.registry), OldKeys(keys, r.registry);
    && |r'.own| == |added| && |r'.joins| == |joined| && |r'.flights| == |r.flights| + |added|
    && (forall f :: 0 <= f < |r.flights| ==> r'.flights[f] == r.flights[f])
    && (forall i :: 0 <= i < |added| ==>
          r'.own[i] == |r.flights| + i && r'.flights[|r.flights| + i] == Flight(added[i], c, None, false))
    && (forall i :: 0 <= i < |joined| ==> r'.joins[i] == r.registry[joined[i]])
    && (forall k :: k in r'.registry <==> k in r.registry || k in keys)
    && (forall k :: k in r.registry ==> r'.registry[k] == r.registry[k])
  }

  lemma {:induction false} RegisterDistinct(r: Registered, c: CallerId, keys: seq<Bytes>)
    requires r.own == [] && r.joins == [] && NoTwice(keys)
    ensures OpensAndJoins(r, RegisterAll(r, c, keys), c, keys)
  {
    hide OpensAndJoins, RegisterOne;
    if keys == [] {
      NothingOpens(r, c);
    } else {
      var front, last := keys[..|keys| - 1], keys[|keys| - 1];
      RegisterDistinct(r, c, front);
      assert last !in front;
      assert keys == front + [last];
      DistinctOne(r, RegisterAll(r, c, front), c, front, last);
    }
  }

  lemma NothingOpens(r: Registered, c: CallerId)
    requires r.own == [] && r.joins == []
    ensures OpensAndJoins(r, r, c, [])
  {
  }

  lemma DistinctOne(r: Registered, r': Registered, c: CallerId, keys: seq<Bytes>, key: Bytes)
    requires OpensAndJoins(r, r', c, keys) && key !in keys
    ensures OpensAndJoins(r, RegisterOne(r', c, key), c, keys + [key])
  {
    KeysOneMore(keys, key, r.registry);
    hide NewKeys, OldKeys;
  }

  lemma KeysOneMore(keys: seq<Bytes>, key: Bytes, registry: map<Bytes, FlightId>)
    ensures NewKeys(keys + [key], registry) == NewKeys(keys, registry) + if key in registry then [] else [key]
    ensures OldKeys(keys + [key], registry) == OldKeys(keys, registry) + if key in registry then [key] else []
  {
    assert (keys + [key])[..|keys|] == keys;
  }

  lemma RegisterStep(s: State, c: CallerId)
    requires Inv(s) && Enabled(s, Register(c))
    ensures Inv(Apply(s, Register(c)))
  {
    hide Inv, RegistryInv, RegisterAll, Lookup;
    CallerOf(s, c);
    RegistryOf(s);
    var k := s.callers[c];
    var r0 := Registered(s.registry, s.flights, [], []);
    RegisterKeeps(r0, c, k.keys);
    var r := RegisterAll(r0, c, k.keys);
    var s' := Apply(s, Register(c));
    forall f | 0 <= f < |s'.flights| ensures FlightInv(s'.registry, s'.callers, f, s'.flights[f]) {
      if f < |s.flights| { FlightOf(s, f); } else { assert NewFlight(r, c, f); }
    }
    forall x | 0 <= x < |s'.callers| ensures CallerInv(s'.flights, x, s'.callers[x]) {
      hide FlightInv, CallerInv, NewFlight;
      if x != c {
        CallerOf(s, x);
        FrameCaller(s.flights, s'.flights, x, s.callers[x]);
      } else {
        RegisteredCaller(r0, r, c, k);
      }
    }
    InvOf(s');
  }

  lemma RegisteredCaller(r: Registered, r': Registered, c: CallerId, k: Caller)
    requires RegisteredFrom(r, r', c) && CallerInv(r.flights, c, k) && k.phase.Starting?
    ensures
      CallerInv(r'.flights, c, k.(own := r'.own, joins := r'.joins, phase := if r'.own == [] then Waiting else Loading))
  {
    assert k.seen == [];
    forall i | 0 <= i < |r'.own| ensures r'.flights[r'.own[i]].owner == c {
      assert NewFlight(r', c, r'.own[i]);
    }
  }

  // A step that only moves one caller along, keeping what its flights depend on.
  lemma CallerStep(s: State, c: CallerId, k: Caller)
    requires Inv(s) && c < |s.callers| && k.own == s.callers[c].own
    requires Busy(k.phase) == Busy(s.callers[c].phase)
    requires k.load == s.callers[c].load || Busy(k.phase)
    requires CallerInv(s.flights, c, k)
    ensures Inv(s.(callers := s.callers[c := k]))
  {
    var s' := s.(callers := s.callers[c := k]);
    hide Inv, RegistryInv, Lookup, CallerInv;
    RegistryOf(s);
    forall f | 0 <= f < |s'.flights| ensures FlightInv(s'.registry, s'.callers, f, s'.flights[f]) { FlightOf(s, f); }
    forall x | 0 <= x < |s'.callers| ensures CallerInv(s'.flights, x, s'.callers[x]) {
      if x != c { CallerOf(s, x); }
    }
    InvOf(s');
  }

  lemma CallStep(s: State, keys: seq<Bytes>)
    requires Inv(s)
    ensures Inv(Apply(s, Call(keys)))
  {
    var s' := Apply(s, Call(keys));
    hide Inv, RegistryInv, Lookup;
    RegistryOf(s);
    forall f | 0 <= f < |s'.flights| ensures FlightInv(s'.registry, s'.callers, f, s'.flights[f]) { FlightOf(s, f); }
    forall x | 0 <= x < |s'.callers| ensures CallerInv(s'.flights, x, s'.callers[x]) {
      if x < |s.callers| { CallerOf(s, x); }
    }
    InvOf(s');
  }

  lemma PublishStep(s: State, c: CallerId)
    requires Inv(s) && Enabled(s, Publish(c))
    ensures Inv(Apply(s, Publish(c)))
  {
    var k := s.callers[c];
    var s' := Apply(s, Publish(c));
    hide Inv, KeysOf, Lookup, RegistryInv;
    forall f | 0 <= f < |s'.flights| ensures FlightInv(s'.registry, s'.callers, f, s'.flights[f]) {
      FlightOf(s, f);
      if f !in k.own && s.flights[f].result.None? { KeyOutside(s, c, f); }
    }
    PublishGrows(s, c);
    forall x | 0 <= x < |s'.callers| ensures CallerInv(s'.flights, x, s'.callers[x]) {
      CallerOf(s, x);
      hide FlightInv, Grown;
      if x != c { FrameCaller(s.flights, s'.flights, x, s.callers[x]); } else { ClosingCaller(s, c); }
    }
    PublishRegistry(s, c);
    InvOf(s');
  }

  // Nothing that was published before is published again.
  lemma PublishGrows(s: State, c: CallerId)
    requires Inv(s) && Enabled(s, Publish(c))
    ensures Grown(s.flights, PublishAll(s.flights, s.callers[c].own, s.callers[c].load.value))
  {
    hide Inv, Lookup;
    var own := s.callers[c].own;
    CallerOf(s, c);
    forall f | 0 <= f < |s.flights| && f in own ensures s.flights[f].result.None? {
      FlightOf(s, f);
    }
  }

  lemma ClosingCaller(s: State, c: CallerId)
    requires c < |s.callers| && s.callers[c].phase.Publishing? && s.callers[c].load.Some?
    requires CallerInv(s.flights, c, s.callers[c])
    ensures CallerInv(PublishAll(s.flights, s.callers[c].own, s.callers[c].load.value), c,
                      s.callers[c].(phase := Closing(|s.callers[c].own|)))
  {
    hide Lookup;
  }

  lemma KeyOutside(s: State, c: CallerId, f: FlightId)
    requires Inv(s) && c < |s.callers| && f < |s.flights| && f !in s.callers[c].own && s.flights[f].result.None?
    requires Busy(s.callers[c].phase)
    ensures s.flights[f].key !in KeysOf(s.flights, s.callers[c].own)
  {
    hide Inv, Lookup;
    var own := s.callers[c].own;
    FlightOf(s, f);
    CallerOf(s, c);
    forall i | 0 <= i < |own| ensures s.flights[own[i]].key != s.flights[f].key {
      FlightOf(s, own[i]);
    }
  }

  lemma PublishRegistry(s: State, c: CallerId)
    requires Inv(s) && Enabled(s, Publish(c))
    ensures RegistryInv(Apply(s, Publish(c)).registry, Apply(s, Publish(c)).flights)
  {
    hide Inv, Lookup, FlightInv;
    RegistryOf(s);
    CallerOf(s, c);
    var own := s.callers[c].own;
    forall i | 0 <= i < |own| ensures s.flights[own[i]].key in KeysOf(s.flights, own) {
    }
  }

  lemma CloseStep(s: State, c: CallerId)
    requires Inv(s) && Enabled(s, CloseOne(c))
    ensures Inv(Apply(s, CloseOne(c)))
  {
    hide Inv, Lookup, RegistryInv, FlightInv, CallerInv;
    var k := s.callers[c];
    var s' := Apply(s, CloseOne(c));
    var g := k.own[k.phase.left - 1];
    CallerOf(s, c);
    FlightOf(s, g);
    ClosingFlight(s, c, g);
    RegistryOf(s);
    CloseRegistry(s, g);
    forall f | 0 <= f < |s'.flights| ensures FlightInv(s'.registry, s'.callers, f, s'.flights[f]) {
      FlightOf(s, f);
      StillFlight(s, c, g, f, s'.callers[c]);
    }
    forall x | 0 <= x < |s'.callers| ensures CallerInv(s'.flights, x, s'.callers[x]) {
      CallerOf(s, x);
      FrameCaller(s.flights, s'.flights, x, s.callers[x]);
      if x == c { ClosedCaller(s'.flights, c, k); }
    }
    InvOf(s');
  }

  // A flight about to be closed is its caller's own and published.
  lemma ClosingFlight(s: State, c: CallerId, g: FlightId)
    requires c < |s.callers| && g < |s.flights| && g in s.callers[c].own && s.callers[c].phase.Closing?
    requires CallerInv(s.flights, c, s.callers[c]) && FlightInv(s.registry, s.callers, g, s.flights[g])
    ensures s.flights[g].owner == c && s.flights[g].result.Some?
  {
    hide Lookup, JoinInv;
  }

  lemma StillFlight(s: State, c: CallerId, g: FlightId, f: FlightId, k: Caller)
    requires c < |s.callers| && g < |s.flights| && f < |s.flights| && s.flights[g].result.Some?
    requires FlightInv(s.registry, s.callers, f, s.flights[f])
    requires k == s.callers[c].(phase := k.phase) && Busy(k.phase) == Busy(s.callers[c].phase)
    ensures
      var flight := if f == g then s.flights[f].(closed := true) else s.flights[f];
      FlightInv(s.registry, s.callers[c := k], f, flight)
  {
    hide Lookup;
  }

  // Closing one more of its channels, last to first.
  lemma ClosedCaller(flights: seq<Flight>, c: CallerId, k: Caller)
    requires CallerInv(flights, c, k) && k.phase.Closing?
    requires flights[k.own[k.phase.left - 1]].closed && flights[k.own[k.phase.left - 1]].result.Some?
    ensures CallerInv(flights, c, k.(phase := if k.phase.left == 1 then Waiting else Closing(k.phase.left - 1)))
  {
  }

  lemma CloseRegistry(s: State, g: FlightId)
    requires RegistryInv(s.registry, s.flights) && g < |s.flights|
    ensures RegistryInv(s.registry, s.flights[g := s.flights[g].(closed := true)])
  {
  }

  lemma ObserveStep(s: State, c: CallerId)
    requires Inv(s) && Enabled(s, Observe(c))
    ensures Inv(Apply(s, Observe(c)))
  {
    hide Inv, RegistryInv, FlightInv;
    CallerOf(s, c);
    var k := s.callers[c];
    CallerStep(s, c, k.(seen := k.seen + [s.flights[k.joins[|k.seen|]].result.value]));
  }

  lemma LoaderStep(s: State, c: CallerId, load: Load)
    requires Inv(s) && Enabled(s, LoaderReturns(c, load))
    ensures Inv(Apply(s, LoaderReturns(c, load)))
  {
    hide Inv, RegistryInv, FlightInv;
    CallerOf(s, c);
    CallerStep(s, c, s.callers[c].(load := Some(load), phase := Publishing));
  }

  lemma EndStep(s: State, c: CallerId, phase: Phase)
    requires Inv(s) && c < |s.callers| && s.callers[c].phase.Waiting?
    requires phase.Canceled? || (phase.Finished? && |s.callers[c].seen| == |s.callers[c].joins|)
    ensures Inv(s.(callers := s.callers[c := s.callers[c].(phase := phase)]))
  {
    hide Inv, RegistryInv, FlightInv;
    CallerOf(s, c);
    CallerStep(s, c, s.callers[c].(phase := phase));
  }

  lemma StepKeeps(s: State, e: Event)
    requires Inv(s) && Enabled(s, e)
    ensures Inv(Apply(s, e))
  {
    hide Inv, RegistryInv, FlightInv, CallerInv;
    match e
    case Call(keys) => CallStep(s, keys);
    case Register(c) => RegisterStep(s, c);
    case LoaderReturns(c, load) => LoaderStep(s, c, load);
    case Publish(c) => PublishStep(s, c);
    case CloseOne(c) => CloseStep(s, c);
    case Observe(c) => ObserveStep(s, c);
    case Finish(c) => EndStep(s, c, Finished);
    case Cancel(c) => EndStep(s, c, Canceled);
  }

  lemma {:induction false} RunInv(ss: seq<State>, es: seq<Event>, i: nat)
    requires Run(ss, es) && i < |ss|
    ensures Inv(ss[i])
  {
    if i > 0 {
      hide Inv, Enabled, Apply;
      RunInv(ss, es, i - 1);
      assert Step(ss[i - 1], es[i - 1], ss[i]);
      StepKeeps(ss[i - 1], es[i - 1]);
    }
  }
}
