// What the flights promise, over every run.
module FlightTheorems {
  import opened Protocol
  import opened Flights

  lemma BusyUnpublished(s: State, c: CallerId, f: FlightId)
    requires Inv(s) && c < |s.callers| && f in s.callers[c].own && Busy(s.callers[c].phase)
    ensures f < |s.flights| && s.flights[f].owner == c && s.flights[f].result.None?
    ensures s.flights[f].key in s.registry && s.registry[s.flights[f].key] == f
  {
    hide Inv, Lookup, JoinInv;
    CallerOf(s, c);
    FlightOf(s, f);
  }

  // Two loaders that run at the same time never run for the same key.
  lemma OneLoaderPerKey(ss: seq<State>, es: seq<Event>, i: nat, a: CallerId, b: CallerId, f: FlightId, g: FlightId)
    requires Run(ss, es) && i < |ss|
    requires a < |ss[i].callers| && b < |ss[i].callers| && a != b
    requires ss[i].callers[a].phase.Loading? && ss[i].callers[b].phase.Loading?
    requires f in ss[i].callers[a].own && g in ss[i].callers[b].own
    ensures f < |ss[i].flights| && g < |ss[i].flights| && ss[i].flights[f].key != ss[i].flights[g].key
  {
    hide Inv, Run;
    RunInv(ss, es, i);
    BusyUnpublished(ss[i], a, f);
    BusyUnpublished(ss[i], b, g);
  }

  // Someone between registration and publication has a flight for the key.
  ghost predicate InProgress(s: State, key: Bytes) {
    exists c, f ::
      && 0 <= c < |s.callers| && Busy(s.callers[c].phase)
      && f in s.callers[c].own && 0 <= f < |s.flights| && s.flights[f].key == key
  }

  // A key is registered exactly while its owner is between registration and
  // publication.
  lemma RegisteredWhileInProgress(ss: seq<State>, es: seq<Event>, i: nat, key: Bytes)
    requires Run(ss, es) && i < |ss|
    ensures key in ss[i].registry <==> InProgress(ss[i], key)
  {
    hide Inv, Run, Lookup;
    var s := ss[i];
    RunInv(ss, es, i);
    if key in s.registry {
      RegistryOf(s);
      var f := s.registry[key];
      FlightOf(s, f);
      assert f in s.callers[s.flights[f].owner].own;
    }
    if InProgress(s, key) {
      var c, f :| 0 <= c < |s.callers| && Busy(s.callers[c].phase) && f in s.callers[c].own && 0 <= f < |s.flights| && s.flights[f].key == key;
      BusyUnpublished(s, c, f);
    }
  }

  // ---- what a call is served ----

  // Once it is registered, a call has a flight for every key it asked for.
  ghost predicate Served(flights: seq<Flight>, k: Caller) {
    !k.phase.Starting? ==> Splits(flights, k.own, k.joins, k.keys)
  }

  lemma ServedStill(flights: seq<Flight>, flights': seq<Flight>, k: Caller, k': Caller)
    requires Served(flights, k) && |flights| <= |flights'|
    requires forall f :: 0 <= f < |flights| ==> flights'[f].key == flights[f].key
    requires k'.own == k.own && k'.joins == k.joins && k'.keys == k.keys && (k.phase.Starting? ==> k'.phase.Starting?)
    ensures Served(flights', k')
  {
    if !k.phase.Starting? {
      KeyListGrows(flights, flights', k.own);
      KeyListGrows(flights, flights', k.joins);
    }
  }

  lemma ServedStep(s: State, e: Event, c: CallerId)
    requires Inv(s) && Enabled(s, e) && c < |Apply(s, e).callers| && (c < |s.callers| ==> Served(s.flights, s.callers[c]))
    ensures Served(Apply(s, e).flights, Apply(s, e).callers[c])
  {
    hide Inv, Served, RegisterAll, RegistryInv, RegisteredFrom, KeysOf, Lookup;
    RegistryOf(s);
    if e == Register(c) {
      var r := Registered(s.registry, s.flights, [], []);
      RegisterKeeps(r, c, s.callers[c].keys);
      RegisterSplits(r, c, s.callers[c].keys);
      SplitServed(Apply(s, e).flights, Apply(s, e).callers[c]);
    } else if c < |s.callers| {
      if e.Register? { RegisterGrows(s, e.c); }
      ServedStill(s.flights, Apply(s, e).flights, s.callers[c], Apply(s, e).callers[c]);
    } else {
      NewServed(s.flights, Apply(s, e).callers[c]);
    }
  }

  lemma SplitServed(flights: seq<Flight>, k: Caller)
    requires Splits(flights, k.own, k.joins, k.keys)
    ensures Served(flights, k)
  {
  }

  lemma NewServed(flights: seq<Flight>, k: Caller)
    requires k.phase.Starting?
    ensures Served(flights, k)
  {
  }

  lemma RegisterGrows(s: State, c: CallerId)
    requires Inv(s) && Enabled(s, Register(c))
    ensures s.flights <= Apply(s, Register(c)).flights
  {
    hide Inv, RegistryInv, RegisterAll;
    RegistryOf(s);
    RegisterKeeps(Registered(s.registry, s.flights, [], []), c, s.callers[c].keys);
  }

  // In every run the flights a registered call owns or joined are for the keys it
  // asked for: no key is missing, none is extra, none is loaded and joined twice.
  lemma {:induction false} RegisterCovers(ss: seq<State>, es: seq<Event>, i: nat, c: CallerId)
    requires Run(ss, es) && i < |ss| && c < |ss[i].callers| && !ss[i].callers[c].phase.Starting?
    ensures Splits(ss[i].flights, ss[i].callers[c].own, ss[i].callers[c].joins, ss[i].callers[c].keys)
  {
    hide Inv, Splits, Enabled, Apply;
    RunServed(ss, es, i, c);
  }

  lemma {:induction false} RunServed(ss: seq<State>, es: seq<Event>, i: nat, c: CallerId)
    requires Run(ss, es) && i < |ss| && c < |ss[i].callers|
    ensures Served(ss[i].flights, ss[i].callers[c])
  {
    hide Inv, Splits, Enabled, Apply, Served;
    if i > 0 {
      RunInv(ss, es, i - 1);
      assert Step(ss[i - 1], es[i - 1], ss[i]);
      if c < |ss[i - 1].callers| { RunServed(ss, es, i - 1, c); }
      ServedStep(ss[i - 1], es[i - 1], c);
    }
  }

  // What a joiner receives is what the owner's loader returned for a key the
  // joiner asked for.
  lemma JoinersSeeTheOwner(ss: seq<State>, es: seq<Event>, i: nat, c: CallerId, j: nat)
    requires Run(ss, es) && i < |ss| && c < |ss[i].callers| && j < |ss[i].callers[c].seen|
    ensures
      var k := ss[i].callers[c];
      && j < |k.joins| && k.joins[j] < |ss[i].flights|
      && var flight := ss[i].flights[k.joins[j]];
      && flight.key in k.keys
      && flight.owner < |ss[i].callers| && ss[i].callers[flight.owner].load.Some?
      && k.seen[j] == Lookup(ss[i].callers[flight.owner].load.value, flight.key)
      && (k.phase.Finished? ==> |k.seen| == |k.joins|)
  {
    hide Inv, Run, Lookup, Splits;
    RunInv(ss, es, i);
    CallerOf(ss[i], c);
    FlightOf(ss[i], ss[i].callers[c].joins[j]);
    RegisterCovers(ss, es, i, c);
    JoinedKey(ss[i].flights, ss[i].callers[c].own, ss[i].callers[c].joins, ss[i].callers[c].keys, j);
  }

  lemma JoinedKey(flights: seq<Flight>, own: seq<FlightId>, joins: seq<FlightId>, keys: seq<Bytes>, j: nat)
    requires Splits(flights, own, joins, keys) && j < |joins|
    ensures flights[joins[j]].key in keys
  {
    assert KeyList(flights, joins)[j] in multiset(KeyList(flights, joins));
    assert flights[joins[j]].key in multiset(keys);
  }

  // The call's own flight for a key, or what it received from a joined one.
  ghost predicate GotOwn(s: State, c: CallerId, key: Bytes)
    requires c < |s.callers|
  {
    exists f :: f in s.callers[c].own && 0 <= f < |s.flights| && s.flights[f].key == key
                && s.flights[f].owner == c && s.callers[c].load.Some?
                && s.flights[f].result == Some(Lookup(s.callers[c].load.value, key))
  }

  ghost predicate GotJoined(s: State, c: CallerId, key: Bytes)
    requires c < |s.callers|
  {
    exists j :: 0 <= j < |s.callers[c].seen| && j < |s.callers[c].joins| && JoinedFor(s, s.callers[c], j, key)
  }

  ghost predicate JoinedFor(s: State, k: Caller, j: nat, key: Bytes)
    requires j < |k.seen| && j < |k.joins|
  {
    && k.joins[j] < |s.flights| && s.flights[k.joins[j]].key == key
    && var owner := s.flights[k.joins[j]].owner;
       owner < |s.callers| && s.callers[owner].load.Some? && k.seen[j] == Lookup(s.callers[owner].load.value, key)
  }

  // A call that finished has, for every key it asked for, what one loader
  // returned for that key: its own, or that of the flight it joined.
  lemma EveryKeyIsServed(ss: seq<State>, es: seq<Event>, i: nat, c: CallerId, key: Bytes)
    requires Run(ss, es) && i < |ss| && c < |ss[i].callers| && ss[i].callers[c].phase.Finished?
    requires key in ss[i].callers[c].keys
    ensures GotOwn(ss[i], c, key) || GotJoined(ss[i], c, key)
  {
    hide Inv, Run, Lookup, Splits, Served;
    var s, k := ss[i], ss[i].callers[c];
    RunInv(ss, es, i);
    CallerOf(s, c);
    RegisterCovers(ss, es, i, c);
    KeyFound(s.flights, k.own, k.joins, k.keys, key);
    if n: nat :| n < |k.own| && s.flights[k.own[n]].key == key {
      FlightOf(s, k.own[n]);
      assert k.own[n] in k.own;
    } else {
      var j: nat :| j < |k.joins| && s.flights[k.joins[j]].key == key;
      JoinersSeeTheOwner(ss, es, i, c, j);
      assert JoinedFor(s, k, j, key);
    }
  }

  lemma KeyFound(flights: seq<Flight>, own: seq<FlightId>, joins: seq<FlightId>, keys: seq<Bytes>, key: Bytes)
    requires Splits(flights, own, joins, keys) && key in keys
    ensures (forall i :: 0 <= i < |own| ==> own[i] < |flights|) && (forall i :: 0 <= i < |joins| ==> joins[i] < |flights|)
    ensures || (exists n :: 0 <= n < |own| && flights[own[n]].key == key)
            || (exists j :: 0 <= j < |joins| && flights[joins[j]].key == key)
  {
    assert key in multiset(keys);
    var a, b := KeyList(flights, own), KeyList(flights, joins);
    assert key in a || key in b;
    if key in a {
      var n :| 0 <= n < |a| && a[n] == key;
      assert flights[own[n]].key == key;
    } else {
      var j :| 0 <= j < |b| && b[j] == key;
      assert flights[joins[j]].key == key;
    }
  }

  // A caller that has to wait for a flight waits for someone who does not wait:
  // the flight's owner is loading, publishing or closing.
  lemma NoCircularWait(ss: seq<State>, es: seq<Event>, i: nat, c: CallerId)
    requires Run(ss, es) && i < |ss| && c < |ss[i].callers|
    requires ss[i].callers[c].phase.Waiting? && |ss[i].callers[c].seen| < |ss[i].callers[c].joins|
    ensures
      var k := ss[i].callers[c];
      var f := k.joins[|k.seen|];
      && f < |ss[i].flights| && ss[i].flights[f].owner < |ss[i].callers|
      && (forall g :: g in k.own && 0 <= g < |ss[i].flights| ==> ss[i].flights[g].closed && ss[i].flights[g].result.Some?)
      && (!ss[i].flights[f].closed ==>
            var owner := ss[i].callers[ss[i].flights[f].owner].phase; Busy(owner) || owner.Closing?)
  {
    hide Inv, Run, Lookup;
    var s := ss[i];
    RunInv(ss, es, i);
    CallerOf(s, c);
    var k := s.callers[c];
    var f := k.joins[|k.seen|];
    FlightOf(s, f);
    if !s.flights[f].closed { OwnerMoves(s, f); }
  }

  lemma OwnerMoves(s: State, f: FlightId)
    requires Inv(s) && f < |s.flights| && !s.flights[f].closed
    ensures s.flights[f].owner < |s.callers|
    ensures var owner := s.callers[s.flights[f].owner].phase; Busy(owner) || owner.Closing?
  {
    hide Inv, Lookup, JoinInv;
    FlightOf(s, f);
    CallerOf(s, s.flights[f].owner);
    var k := s.callers[s.flights[f].owner];
    var i :| 0 <= i < |k.own| && k.own[i] == f;
  }

  // ---- every wait ends ----

  predicate Done(p: Phase) { p.Finished? || p.Canceled? }

  // Loaders return: any result will do.
  const NOTHING := Load(map[], None)

  // As long as some call is unfinished, some call can go on without anyone
  // giving up.
  lemma Progress(ss: seq<State>, es: seq<Event>, i: nat, c: CallerId) returns (e: Event)
    requires Run(ss, es) && i < |ss| && c < |ss[i].callers| && !Done(ss[i].callers[c].phase)
    ensures Enabled(ss[i], e) && !e.Call? && !e.Cancel?
  {
    hide Inv, Run, Lookup;
    var s := ss[i];
    RunInv(ss, es, i);
    CallerOf(s, c);
    var k := s.callers[c];
    if !k.phase.Waiting? {
      e := Moves(s, c);
    } else if |k.seen| == |k.joins| {
      e := Finish(c);
    } else {
      var f := k.joins[|k.seen|];
      FlightOf(s, f);
      if s.flights[f].closed {
        e := Observe(c);
      } else {
        OwnerMoves(s, f);
        e := Moves(s, s.flights[f].owner);
      }
    }
  }

  lemma Moves(s: State, c: CallerId) returns (e: Event)
    requires Inv(s) && c < |s.callers| && !Done(s.callers[c].phase) && !s.callers[c].phase.Waiting?
    ensures Enabled(s, e) && !e.Call? && !e.Cancel?
  {
    hide Inv, JoinInv;
    CallerOf(s, c);
    var p := s.callers[c].phase;
    e := if p.Starting? then Register(c)
         else if p.Loading? then LoaderReturns(c, NOTHING)
         else if p.Publishing? then Publish(c)
         else CloseOne(c);
  }

  // How many steps a call still has to take, at most.
  function Rank(k: Caller): int {
    match k.phase
    case Starting => 4 + |k.keys|
    case Loading => 4 + |k.own| + |k.joins| - 1
    case Publishing => 2 + |k.own| + |k.joins|
    case Closing(left) => 1 + left + |k.joins|
    case Waiting => 1 + |k.joins| - |k.seen|
    case _ => 0
  }

  function TotalRank(callers: seq<Caller>): int {
    if callers == [] then 0 else TotalRank(callers[..|callers| - 1]) + Rank(callers[|callers| - 1])
  }

  lemma {:induction false} RankAt(callers: seq<Caller>, c: CallerId, k: Caller)
    requires c < |callers|
    ensures TotalRank(callers[c := k]) == TotalRank(callers) - Rank(callers[c]) + Rank(k)
  {
    hide Rank;
    var front := callers[..|callers| - 1];
    if c < |front| {
      RankAt(front, c, k);
      assert callers[c := k][..|callers| - 1] == front[c := k];
    } else {
      assert callers[c := k][..|callers| - 1] == front;
    }
  }

  lemma {:induction false} RankNonNegative(s: State, n: nat)
    requires Inv(s) && n <= |s.callers|
    ensures 0 <= TotalRank(s.callers[..n])
  {
    hide Inv;
    if n > 0 {
      RankNonNegative(s, n - 1);
      CallerOf(s, n - 1);
      assert s.callers[..n][..n - 1] == s.callers[..n - 1];
    }
  }

  // Every step but a new call uses up rank, so no call goes on for ever.
  lemma EveryWaitEnds(ss: seq<State>, es: seq<Event>, i: nat)
    requires Run(ss, es) && i < |es| && !es[i].Call?
    ensures 0 <= TotalRank(ss[i + 1].callers) < TotalRank(ss[i].callers)
  {
    var s, s' := ss[i], ss[i + 1];
    assert Step(s, es[i], s');
    hide Inv, Run, Lookup;
    RunInv(ss, es, i);
    RunInv(ss, es, i + 1);
    RankNonNegative(s', |s'.callers|);
    assert s'.callers[..|s'.callers|] == s'.callers;
    RankStep(s, es[i]);
  }

  lemma RankStep(s: State, e: Event)
    requires Inv(s) && Enabled(s, e) && !e.Call?
    ensures TotalRank(Apply(s, e).callers) < TotalRank(s.callers)
  {
    hide Inv, Lookup, RegisterAll, TotalRank, RegisteredFrom;
    var c := e.c;
    CallerOf(s, c);
    var k := s.callers[c];
    if e.Register? {
      RegistryOf(s);
      RegisterKeeps(Registered(s.registry, s.flights, [], []), c, k.keys);
    }
    RankAt(s.callers, c, Apply(s, e).callers[c]);
    assert Apply(s, e).callers == s.callers[c := Apply(s, e).callers[c]];
  }
}
