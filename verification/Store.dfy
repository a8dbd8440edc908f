// A small model of the server behind leases and compare-and-swap, after the
// sections "Meta Get", "Meta Set" and "Meta Delete" of protocol.txt. Clients of
// every process interleave at this level: a run is any sequence of commands and
// of entries dropped by expiry or eviction.
module Store {
  import opened Protocol
  import opened Builders

  // sent: some reader was already told that it won the right to recompute.
  datatype Entry = Entry(value: Bytes, cas: nat, stale: bool, sent: bool)

  // counter is the last cas value given out, for any key.
  datatype Server = Server(entries: map<Bytes, Entry>, counter: nat)

  // due: the remaining time is below what a read with R asked for. A Drop is an
  // expiry or an eviction.
  datatype Event =
    | Read(key: Bytes, vivify: bool, refresh: bool, due: bool)
    | Write(key: Bytes, value: Bytes, mode: StoreMode, compare: Option<nat>, vivify: bool)
    | Remove(key: Bytes, compare: Option<nat>, invalidate: bool)
    | Drop(key: Bytes)

  // The cas value a key has, if it is there.
  function CasAt(s: Server, key: Bytes): Option<nat> {
    if key in s.entries then Some(s.entries[key].cas) else None
  }

  function Fresh(s: Server, key: Bytes, value: Bytes, stale: bool, sent: bool): Server {
    Server(s.entries[key := Entry(value, s.counter + 1, stale, sent)], s.counter + 1)
  }

  function Without(s: Server, key: Bytes): Server { s.(entries := s.entries - {key}) }

  // A read wins a stale entry's token, or one that is due, once.
  predicate Wins(e: Entry, ev: Event)
    requires ev.Read?
  {
    !e.sent && (e.stale || (ev.refresh && ev.due))
  }

  predicate Matches(s: Server, key: Bytes, compare: Option<nat>)
    requires key in s.entries
  {
    compare.None? || compare == Some(s.entries[key].cas)
  }

  // The result code of a write (protocol.txt:724-735, protocol.txt:789-810).
  function WriteCode(s: Server, ev: Event): Code
    requires ev.Write?
  {
    if ev.key !in s.entries then
      match ev.mode
      case ModeAdd => HD
      case ModeSet => if ev.compare.Some? then NF else HD
      case ModeReplace => if ev.compare.Some? then NF else NS
      case _ => if ev.vivify then HD else NS
    else if ev.mode.ModeAdd? then NS
    else if Matches(s, ev.key, ev.compare) then HD
    else EX
  }

  function Joined(s: Server, ev: Event): Bytes
    requires ev.Write?
  {
    if ev.key !in s.entries then ev.value
    else if ev.mode.ModeAppend? then s.entries[ev.key].value + ev.value
    else if ev.mode.ModePrepend? then ev.value + s.entries[ev.key].value
    else ev.value
  }

  function RemoveCode(s: Server, ev: Event): Code
    requires ev.Remove?
  {
    if ev.key !in s.entries then NF else if Matches(s, ev.key, ev.compare) then HD else EX
  }

  function Next(s: Server, ev: Event): Server {
    match ev
    case Read(key, vivify, _, _) =>
      if key !in s.entries then (if vivify then Fresh(s, key, [], false, true) else s)
      else if Wins(s.entries[key], ev) then s.(entries := s.entries[key := s.entries[key].(sent := true)])
      else s
    // a store, an append included, makes a fresh entry whose token is unspent
    case Write(key, _, _, _, _) =>
      if WriteCode(s, ev) == HD then Fresh(s, key, Joined(s, ev), false, false) else s
    case Remove(key, _, invalidate) =>
      if RemoveCode(s, ev) != HD then s
      else if invalidate then Fresh(s, key, s.entries[key].value, true, false)
      else Without(s, key)
    case Drop(key) => Without(s, key)
  }

  function Coded(code: Code): RawResponse {
    RawResponse(code, None, NoMetadata, None, [], false, false, false, [], false)
  }

  // The reply, with the cas and ttl a client's reads ask for; ttl is whatever
  // the server's clock says.
  function Reply(s: Server, ev: Event, ttl: int): RawResponse {
    match ev
    case Read(key, vivify, refresh, _) =>
      if key !in s.entries then
        if vivify then Coded(VA).(value := Some([]), meta := NoMetadata.(cas := Some(s.counter + 1), ttl := Some(ttl)), won := true)
        else Coded(EN)
      else
        var e := s.entries[key];
        var won := Wins(e, ev);
        Coded(VA).(value := Some(e.value), meta := NoMetadata.(cas := Some(e.cas), ttl := Some(ttl)), won := won,
                   busy := e.sent && !won && (e.stale || vivify || refresh), stale := e.stale)
    case Write(_, _, _, _, _) => Coded(WriteCode(s, ev))
    case Remove(_, _, _) => Coded(RemoveCode(s, ev))
    case Drop(_) => Coded(HD)
  }

  // ---- runs ----

  ghost predicate Run(ss: seq<Server>, es: seq<Event>) {
    && |ss| == |es| + 1
    && forall i :: 0 <= i < |es| ==> Step(ss[i], es[i], ss[i + 1])
  }

  ghost predicate Step(s: Server, e: Event, s': Server) { s' == Next(s, e) }

  // Every cas value in use has been given out, to one key.
  ghost predicate Sound(s: Server) {
    && (forall k :: k in s.entries ==> s.entries[k].cas <= s.counter)
    && (forall k, l :: k in s.entries && l in s.entries && s.entries[k].cas == s.entries[l].cas ==> k == l)
  }

  lemma NextSound(s: Server, e: Event)
    requires Sound(s)
    ensures Sound(Next(s, e)) && s.counter <= Next(s, e).counter
  {
    hide WriteCode, RemoveCode, Joined, Wins;
  }

  lemma {:induction false} RunSound(ss: seq<Server>, es: seq<Event>, i: nat, j: nat)
    requires Run(ss, es) && i <= j < |ss| && Sound(ss[i])
    ensures Sound(ss[j]) && ss[i].counter <= ss[j].counter
    decreases j
  {
    hide Sound, Next;
    if i < j {
      RunSound(ss, es, i, j - 1);
      assert Step(ss[j - 1], es[j - 1], ss[j]);
      NextSound(ss[j - 1], es[j - 1]);
    }
  }

  // ---- what changes an entry ----

  // The event puts something else in a key's place: it stores, deletes,
  // invalidates, expires or evicts.
  predicate Hits(s: Server, e: Event, key: Bytes) {
    e.key == key &&
    match e
    case Read(_, vivify, _, _) => key !in s.entries && vivify
    case Write(_, _, _, _, _) => WriteCode(s, e) == HD
    case Remove(_, _, _) => RemoveCode(s, e) == HD
    case Drop(_) => key in s.entries
  }

  // A hit gives the key a new cas value or removes it; nothing else changes its
  // value or its staleness.
  lemma HitIff(s: Server, e: Event, key: Bytes)
    requires Sound(s)
    ensures Hits(s, e, key) <==> CasAt(Next(s, e), key) != CasAt(s, key)
    ensures !Hits(s, e, key) && key in s.entries ==>
      && key in Next(s, e).entries
      && Next(s, e).entries[key].value == s.entries[key].value && Next(s, e).entries[key].stale == s.entries[key].stale
    ensures Hits(s, e, key) ==> CasAt(Next(s, e), key).None? || CasAt(Next(s, e), key).value > s.counter
  {
    hide Joined, Wins;
  }

  // A cas value that a key does not have any more never comes back.
  lemma {:induction false} NeverAgain(ss: seq<Server>, es: seq<Event>, i: nat, j: nat, key: Bytes, t: nat)
    requires Run(ss, es) && i <= j < |ss| && Sound(ss[i])
    requires t <= ss[i].counter && CasAt(ss[i], key) != Some(t)
    ensures CasAt(ss[j], key) != Some(t)
    decreases j
  {
    hide Sound, Next, Hits;
    if i < j {
      NeverAgain(ss, es, i, j - 1, key, t);
      RunSound(ss, es, i, j - 1);
      assert Step(ss[j - 1], es[j - 1], ss[j]);
      HitIff(ss[j - 1], es[j - 1], key);
    }
  }

  // ---- no resurrection ----

  ghost predicate Untouched(ss: seq<Server>, es: seq<Event>, i: nat, j: nat, key: Bytes)
    requires i <= j <= |es| && |ss| == |es| + 1
  {
    forall m :: i <= m < j ==> !Hits(ss[m], es[m], key)
  }

  // A key still has the cas value a read returned exactly when nothing hit it
  // since; it then still has the value and the staleness the read saw.
  lemma {:induction false} SameCasIffUntouched(ss: seq<Server>, es: seq<Event>, i: nat, j: nat, key: Bytes)
    requires Run(ss, es) && i <= j < |ss| && Sound(ss[i]) && key in ss[i].entries
    ensures CasAt(ss[j], key) == CasAt(ss[i], key) <==> Untouched(ss, es, i, j, key)
    ensures CasAt(ss[j], key) == CasAt(ss[i], key) ==>
      ss[j].entries[key].value == ss[i].entries[key].value && ss[j].entries[key].stale == ss[i].entries[key].stale
    decreases j
  {
    if i < j {
      SameCasIffUntouched(ss, es, i, j - 1, key);
      RunSound(ss, es, i, j - 1);
      assert Step(ss[j - 1], es[j - 1], ss[j]);
      HitIff(ss[j - 1], es[j - 1], key);
      if CasAt(ss[j - 1], key) != CasAt(ss[i], key) {
        assert ss[i].entries[key].cas <= ss[i].counter;
        NeverAgain(ss, es, j - 1, j, key, ss[i].entries[key].cas);
      }
    }
  }

  // A read told a client of a cas value at i: it did not have to exist before
  // the read, a vivifying read makes the entry it reports.
  ghost predicate Told(ss: seq<Server>, es: seq<Event>, i: nat, key: Bytes, t: nat, ttl: int)
    requires |ss| == |es| + 1
  {
    i < |es| && es[i].Read? && es[i].key == key && Reply(ss[i], es[i], ttl).meta.cas == Some(t)
  }

  lemma ToldEntry(ss: seq<Server>, es: seq<Event>, i: nat, key: Bytes, t: nat, ttl: int)
    requires Run(ss, es) && Told(ss, es, i, key, t, ttl)
    ensures CasAt(ss[i + 1], key) == Some(t)
    ensures Reply(ss[i], es[i], ttl).value == Some(ss[i + 1].entries[key].value)
    ensures Reply(ss[i], es[i], ttl).stale == ss[i + 1].entries[key].stale
  {
    assert Step(ss[i], es[i], ss[i + 1]);
  }

  // Fetch's write-back (fetch.go:343-359): conditioned on the cas of the read
  // that won, it is stored exactly when no store, delete, invalidation, expiry or
  // eviction hit the key since that read.
  lemma WriteBackAppliesIff(ss: seq<Server>, es: seq<Event>, i: nat, j: nat, key: Bytes, t: nat, ttl: int, value: Bytes)
    requires Run(ss, es) && Sound(ss[0]) && i < j < |es| && Told(ss, es, i, key, t, ttl)
    requires es[j] == Write(key, value, ModeSet, Some(t), false)
    ensures WriteCode(ss[j], es[j]) == HD <==> Untouched(ss, es, i + 1, j, key)
    ensures !Untouched(ss, es, i + 1, j, key) ==> ss[j + 1] == ss[j]
    ensures Untouched(ss, es, i + 1, j, key) ==> key in ss[j + 1].entries && ss[j + 1].entries[key].value == value
  {
    hide Sound, Untouched;
    ToldEntry(ss, es, i, key, t, ttl);
    RunSound(ss, es, 0, i + 1);
    SameCasIffUntouched(ss, es, i + 1, j, key);
    assert Step(ss[j], es[j], ss[j + 1]);
  }

  // releaseLease (fetch.go:281-292): it removes the very value its read saw, and
  // nothing that came later.
  lemma ReleaseRemovesOnlyItsLease(ss: seq<Server>, es: seq<Event>, i: nat, j: nat, key: Bytes, t: nat, ttl: int)
    requires Run(ss, es) && Sound(ss[0]) && i < j < |es| && Told(ss, es, i, key, t, ttl)
    requires es[j] == Remove(key, Some(t), false)
    ensures RemoveCode(ss[j], es[j]) == HD <==> Untouched(ss, es, i + 1, j, key)
    ensures !Untouched(ss, es, i + 1, j, key) ==> ss[j + 1] == ss[j]
    ensures Untouched(ss, es, i + 1, j, key) ==>
      && key !in ss[j + 1].entries && key in ss[j].entries
      && Some(ss[j].entries[key].value) == Reply(ss[i], es[i], ttl).value
  {
    hide Sound, Untouched;
    ToldEntry(ss, es, i, key, t, ttl);
    RunSound(ss, es, 0, i + 1);
    SameCasIffUntouched(ss, es, i + 1, j, key);
    assert Step(ss[j], es[j], ss[j + 1]);
  }

  // returnStaleWin (get.go:59-82): handing a token back never changes a value,
  // never makes a fresh one stale, and lets the next reader win.
  lemma HandBackKeepsTheValue(ss: seq<Server>, es: seq<Event>, i: nat, j: nat, key: Bytes, t: nat, ttl: int)
    requires Run(ss, es) && Sound(ss[0]) && i < j < |es| && Told(ss, es, i, key, t, ttl)
    requires Reply(ss[i], es[i], ttl).stale && Reply(ss[i], es[i], ttl).won
    requires es[j] == Remove(key, Some(t), true)
    ensures !Untouched(ss, es, i + 1, j, key) ==> ss[j + 1] == ss[j]
    ensures Untouched(ss, es, i + 1, j, key) ==>
      && key in ss[j].entries && key in ss[j + 1].entries
      && ss[j].entries[key].stale && ss[j + 1].entries[key].stale
      && ss[j + 1].entries[key].value == ss[j].entries[key].value
      && Some(ss[j].entries[key].value) == Reply(ss[i], es[i], ttl).value
      && Wins(ss[j + 1].entries[key], Read(key, false, false, false))
  {
    hide Sound, Untouched;
    ToldEntry(ss, es, i, key, t, ttl);
    RunSound(ss, es, 0, i + 1);
    SameCasIffUntouched(ss, es, i + 1, j, key);
    assert Step(ss[j], es[j], ss[j + 1]);
  }

  // ---- leases ----

  ghost predicate Winning(ss: seq<Server>, es: seq<Event>, i: nat, key: Bytes, ttl: int)
    requires |ss| == |es| + 1
  {
    i < |es| && es[i].Read? && es[i].key == key && Reply(ss[i], es[i], ttl).won
  }

  // One version of an entry is won by at most one read, in any process.
  lemma OneWinnerPerVersion(ss: seq<Server>, es: seq<Event>, i: nat, j: nat, key: Bytes, ttl: int)
    requires Run(ss, es) && Sound(ss[0]) && i < j < |es|
    requires Winning(ss, es, i, key, ttl) && Winning(ss, es, j, key, ttl)
    ensures Reply(ss[i], es[i], ttl).meta.cas != Reply(ss[j], es[j], ttl).meta.cas
    ensures exists m :: i < m <= j && Hits(ss[m], es[m], key)
  {
    assert Step(ss[i], es[i], ss[i + 1]);
    assert Step(ss[j], es[j], ss[j + 1]);
    RunSound(ss, es, 0, i + 1);
    RunSound(ss, es, i + 1, j);
    hide Sound, Untouched;
    SentStays(ss, es, i + 1, j, key);
    SameCasIffUntouched(ss, es, i + 1, j, key);
    ToldBy(ss, es, i, j, key, ttl);
  }

  lemma ToldBy(ss: seq<Server>, es: seq<Event>, i: nat, j: nat, key: Bytes, ttl: int)
    requires Run(ss, es) && i < j < |es| && Sound(ss[i + 1]) && Sound(ss[j]) && ss[i + 1].counter <= ss[j].counter
    requires Winning(ss, es, i, key, ttl) && Winning(ss, es, j, key, ttl)
    requires key in ss[j].entries && CasAt(ss[i + 1], key) == CasAt(ss[j], key) ==> ss[j].entries[key].sent
    requires CasAt(ss[j], key) == CasAt(ss[i + 1], key) <==> Untouched(ss, es, i + 1, j, key)
    ensures Reply(ss[i], es[i], ttl).meta.cas != Reply(ss[j], es[j], ttl).meta.cas
    ensures exists m :: i < m <= j && Hits(ss[m], es[m], key)
  {
    assert Step(ss[i], es[i], ss[i + 1]);
    if key in ss[j].entries {
      assert !Untouched(ss, es, i + 1, j, key);
    } else {
      assert Hits(ss[j], es[j], key);
    }
  }

  lemma {:induction false} SentStays(ss: seq<Server>, es: seq<Event>, i: nat, j: nat, key: Bytes)
    requires Run(ss, es) && i <= j < |ss| && Sound(ss[i]) && key in ss[i].entries && ss[i].entries[key].sent
    ensures CasAt(ss[j], key) == CasAt(ss[i], key) ==> ss[j].entries[key].sent
    decreases j
  {
    if i < j {
      SentStays(ss, es, i, j - 1, key);
      RunSound(ss, es, i, j - 1);
      assert Step(ss[j - 1], es[j - 1], ss[j]);
      HitIff(ss[j - 1], es[j - 1], key);
      if CasAt(ss[j - 1], key) != CasAt(ss[i], key) {
        assert ss[i].entries[key].cas <= ss[i].counter;
        NeverAgain(ss, es, j - 1, j, key, ss[i].entries[key].cas);
      }
    }
  }
}
