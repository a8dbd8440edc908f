// FetchMany's read loop and the settling of its leases (fetch.go:424-546,
// fetch.go:548-618, fetch.go:672-684). What the servers answer, which keys are in
// flight in this process and what loaders return are arbitrary.
module FetchMany {
  import opened Protocol
  import opened Results
  import opened Flights

  // ---- distinct keys ----

  // The keys without repetitions, in the order of their first occurrences.
  function Unique(keys: seq<Bytes>): (u: seq<Bytes>)
    ensures forall k :: k in u <==> k in keys
    ensures forall i, j :: 0 <= i < j < |u| ==> u[i] != u[j]
  {
    if keys == [] then []
    else
      var front, last := keys[..|keys| - 1], keys[|keys| - 1];
      assert keys == front + [last];
      if last in front then Unique(front) else Unique(front) + [last]
  }

  lemma {:induction false} UniqueKeepsOrder(keys: seq<Bytes>, i: nat, j: nat)
    requires i < j < |Unique(keys)|
    ensures exists a, b :: 0 <= a < b < |keys| && keys[a] == Unique(keys)[i] && keys[b] == Unique(keys)[j] && keys[b] !in keys[..b]
  {
    var front, last := keys[..|keys| - 1], keys[|keys| - 1];
    assert keys == front + [last];
    if j < |Unique(front)| {
      UniqueKeepsOrder(front, i, j);
      var a, b :| 0 <= a < b < |front| && front[a] == Unique(front)[i] && front[b] == Unique(front)[j] && front[b] !in front[..b];
      assert keys[..b] == front[..b] && keys[a] == front[a] && keys[b] == front[b];
    } else {
      assert Unique(front)[i] in front;
      var a :| 0 <= a < |front| && front[a] == Unique(front)[i];
      assert keys[..|keys| - 1] == front && keys[a] == front[a];
    }
  }

  // uniqueKeys (fetch.go:672-684).
  method UniqueKeys(keys: seq<Bytes>) returns (unique: seq<Bytes>)
    ensures unique == Unique(keys)
  {
    unique := [];
    var seen: set<Bytes> := {};
    for i := 0 to |keys|
      invariant unique == Unique(keys[..i])
      invariant forall k :: k in seen <==> k in keys[..i]
    {
      assert keys[..i + 1][..i] == keys[..i];
      assert keys[..i + 1] == keys[..i] + [keys[i]];
      if keys[i] in seen { continue; }
      seen := seen + {keys[i]};
      unique := unique + [keys[i]];
    }
    assert keys[..|keys|] == keys;
  }

  // ---- one answer ----

  datatype Holder = Holder(key: Bytes, cas: nat)

  datatype Class = Found(value: Bytes, refresh: Option<nat>) | Lead(cas: nat) | Local | Busy | Broken

  // What a read brings: an answer, or an error because the caller's own context
  // has ended.
  datatype Reading = Answered(answer: Answer) | CallerGone

  // The switch of the read loop (fetch.go:447-480).
  function Classify(reading: Reading, degrade: bool): Class {
    if reading.CallerGone? then Broken else ClassOf(reading.answer, degrade)
  }

  function ClassOf(r: Answer, degrade: bool): Class {
    if !r.GetAnswer? then (if degrade then Local else Broken)
    else if r.status == GetHit && r.value.Some? && r.value.value != [] then
      Found(r.value.value, if r.lease == LeaseGranted then r.meta.cas else None)
    else if r.status == GetMiss && r.lease == LeaseGranted && r.meta.cas.Some? then Lead(r.meta.cas.value)
    else if r.status == GetHit && r.lease != LeaseBusy then (if r.meta.cas.Some? then Lead(r.meta.cas.value) else Local)
    else if r.status == GetMiss then Local
    else Busy
  }

  // ---- the read loop ----

  // What joinFlight finds for a busy key: nothing in flight here, a value or an
  // error from the flight, or the caller's context ending first.
  datatype Join = NotHere | Gave(value: Bytes) | Failing

  const WAITS := 5

  // What one key's fetch comes to: a value to return at once, perhaps with a
  // background refresh, a load under a lease, a load without one, or an error.
  datatype Choice = Give(value: Bytes, refresh: Option<nat>) | DoLead(cas: nat) | DoLocal | Fail

  // fetch's loop from attempt n on (fetch.go:126-195).
  function Decision(key: Bytes, answers: nat -> Bytes -> Reading, joins: nat -> Bytes -> Join, degrade: bool, n: nat): Choice
    decreases WAITS + 1 - n
  {
    match Classify(answers(n)(key), degrade)
    case Found(value, refresh) => Give(value, refresh)
    case Lead(cas) => DoLead(cas)
    case Local => DoLocal
    case Broken => Fail
    case Busy =>
      match joins(n)(key)
      case Gave(value) => Give(value, None)
      case Failing => Fail
      case NotHere => if n >= WAITS then DoLocal else Decision(key, answers, joins, degrade, n + 1)
  }

  // fetch's own loop (fetch.go:126-195).
  method FetchOne(key: Bytes, answers: nat -> Bytes -> Reading, joins: nat -> Bytes -> Join, gaveUp: nat -> bool, degrade: bool)
    returns (choice: Choice, attempts: nat)
    ensures attempts <= WAITS + 1
    ensures choice == Decision(key, answers, joins, degrade, 0) || (choice.Fail? && exists n :: 0 <= n < WAITS && gaveUp(n))
  {
    attempts := 0;
    while true
      invariant attempts <= WAITS
      invariant Decision(key, answers, joins, degrade, attempts) == Decision(key, answers, joins, degrade, 0)
      decreases WAITS - attempts
    {
      var attempt := attempts;
      attempts := attempts + 1;
      match Classify(answers(attempt)(key), degrade)
      case Found(value, refresh) => return Give(value, refresh), attempts;
      case Lead(cas) => return DoLead(cas), attempts;
      case Local => return DoLocal, attempts;
      case Broken => return Fail, attempts;
      case Busy =>
        match joins(attempt)(key) {
          case Gave(value) => return Give(value, None), attempts;
          case Failing => return Fail, attempts;
          case NotHere =>
            if attempt >= WAITS { return DoLocal, attempts; }
            if gaveUp(attempt) { return Fail, attempts; }
        }
    }
  }

  datatype Sorted = Sorted(
    found: map<Bytes, Bytes>, lead: seq<Holder>, local: seq<Bytes>, refresh: seq<Holder>)

  const NONE := Sorted(map[], [], [], [])

  function HeldKeys(holders: seq<Holder>): (keys: seq<Bytes>)
    ensures |keys| == |holders| && forall i :: 0 <= i < |holders| ==> keys[i] == holders[i].key
  {
    if holders == [] then [] else HeldKeys(holders[..|holders| - 1]) + [holders[|holders| - 1].key]
  }

  lemma KeysGrow(holders: seq<Holder>, h: Holder)
    ensures HeldKeys(holders + [h]) == HeldKeys(holders) + [h.key]
  {
    assert (holders + [h])[..|holders|] == holders;
  }

  // How often each key is found, led, computed locally, joined without a value,
  // or still to be sorted.
  ghost function Total(hits: seq<Bytes>, lead: seq<Bytes>, local: seq<Bytes>, absent: seq<Bytes>, rest: multiset<Bytes>): multiset<Bytes> {
    multiset(hits) + multiset(lead) + multiset(local) + multiset(absent) + rest
  }

  lemma TotalMoves(hits: seq<Bytes>, lead: seq<Bytes>, local: seq<Bytes>, absent: seq<Bytes>, rest: multiset<Bytes>, key: Bytes)
    ensures Total(hits + [key], lead, local, absent, rest) == Total(hits, lead, local, absent, rest + multiset{key})
    ensures Total(hits, lead + [key], local, absent, rest) == Total(hits, lead, local, absent, rest + multiset{key})
    ensures Total(hits, lead, local + [key], absent, rest) == Total(hits, lead, local, absent, rest + multiset{key})
    ensures Total(hits, lead, local, absent + [key], rest) == Total(hits, lead, local, absent, rest + multiset{key})
  {
    var one := multiset{key};
    assert multiset(hits + [key]) == multiset(hits) + one;
    assert multiset(lead + [key]) == multiset(lead) + one;
    assert multiset(local + [key]) == multiset(local) + one;
    assert multiset(absent + [key]) == multiset(absent) + one;
    Swap(multiset(hits), multiset(lead), multiset(local), multiset(absent), rest, one);
  }

  lemma Swap(a: multiset<Bytes>, b: multiset<Bytes>, c: multiset<Bytes>, d: multiset<Bytes>, e: multiset<Bytes>, x: multiset<Bytes>)
    ensures (a + x) + b + c + d + e == a + b + c + d + (e + x)
    ensures a + (b + x) + c + d + e == a + b + c + d + (e + x)
    ensures a + b + (c + x) + d + e == a + b + c + d + (e + x)
    ensures a + b + c + (d + x) + e == a + b + c + d + (e + x)
  {
  }

  // All the keys accounted for: those found, in the order they were found, those
  // to lead, those to compute locally, and those a joined flight had no value
  // for. rest is still to be sorted.
  ghost predicate Accounts(s: Sorted, hits: seq<Bytes>, absent: seq<Bytes>, rest: multiset<Bytes>, keys: seq<Bytes>) {
    && Total(hits, HeldKeys(s.lead), s.local, absent, rest) == multiset(Unique(keys))
    && (forall k :: k in s.found <==> k in hits)
    && (forall k :: k in s.found ==> s.found[k] != [])
    && (forall i :: 0 <= i < |s.refresh| ==> s.refresh[i].key in hits)
  }

  lemma AccountFound(s: Sorted, hits: seq<Bytes>, absent: seq<Bytes>, rest: multiset<Bytes>, key: Bytes, keys: seq<Bytes>,
                     value: Bytes, refresh: Option<nat>)
    requires Accounts(s, hits, absent, rest + multiset{key}, keys) && value != []
    ensures
      var won := if refresh.Some? then [Holder(key, refresh.value)] else [];
      Accounts(s.(found := s.found[key := value], refresh := s.refresh + won), hits + [key], absent, rest, keys)
  {
    TotalMoves(hits, HeldKeys(s.lead), s.local, absent, rest, key);
    hide Total, Unique, HeldKeys;
  }

  lemma AccountLead(s: Sorted, hits: seq<Bytes>, absent: seq<Bytes>, rest: multiset<Bytes>, h: Holder, keys: seq<Bytes>)
    requires Accounts(s, hits, absent, rest + multiset{h.key}, keys)
    ensures Accounts(s.(lead := s.lead + [h]), hits, absent, rest, keys)
  {
    TotalMoves(hits, HeldKeys(s.lead), s.local, absent, rest, h.key);
    KeysGrow(s.lead, h);
    hide Total, Unique, HeldKeys;
  }

  lemma AccountLocal(s: Sorted, hits: seq<Bytes>, absent: seq<Bytes>, rest: multiset<Bytes>, key: Bytes, keys: seq<Bytes>)
    requires Accounts(s, hits, absent, rest + multiset{key}, keys)
    ensures Accounts(s.(local := s.local + [key]), hits, absent, rest, keys)
  {
    TotalMoves(hits, HeldKeys(s.lead), s.local, absent, rest, key);
    hide Total, Unique, HeldKeys;
  }

  function Place(s: Sorted, key: Bytes, kind: Class): Sorted {
    match kind
    case Found(value, refresh) =>
      s.(found := s.found[key := value],
         refresh := s.refresh + if refresh.Some? then [Holder(key, refresh.value)] else [])
    case Lead(cas) => s.(lead := s.lead + [Holder(key, cas)])
    case Local => s.(local := s.local + [key])
    case _ => s
  }

  // One answer of a round.
  method SortOne(s: Sorted, key: Bytes, kind: Class, ghost hits: seq<Bytes>, ghost absent: seq<Bytes>,
                 ghost rest: multiset<Bytes>, ghost keys: seq<Bytes>)
    returns (s': Sorted, ghost hits': seq<Bytes>)
    requires Accounts(s, hits, absent, rest + multiset{key}, keys) && !kind.Busy? && !kind.Broken?
    requires kind.Found? ==> kind.value != []
    ensures Accounts(s', hits', absent, rest, keys) && s' == Place(s, key, kind)
  {
    hide Accounts;
    s', hits' := s, hits;
    match kind
    case Found(value, refresh) =>
      AccountFound(s, hits, absent, rest, key, keys, value, refresh);
      var won := if refresh.Some? then [Holder(key, refresh.value)] else [];
      s' := s.(found := s.found[key := value], refresh := s.refresh + won);
      hits' := hits + [key];
    case Lead(cas) =>
      AccountLead(s, hits, absent, rest, Holder(key, cas), keys);
      s' := s.(lead := s.lead + [Holder(key, cas)]);
    case _ =>
      AccountLocal(s, hits, absent, rest, key, keys);
      s' := s.(local := s.local + [key]);
  }

  // Everything sorted so far is where fetch would have put that very key.
  ghost predicate AsFetch(s: Sorted, absent: seq<Bytes>, answers: nat -> Bytes -> Reading, joins: nat -> Bytes -> Join, degrade: bool) {
    && (forall i :: 0 <= i < |s.lead| ==> Decision(s.lead[i].key, answers, joins, degrade, 0) == DoLead(s.lead[i].cas))
    && (forall i :: 0 <= i < |s.local| ==> Decision(s.local[i], answers, joins, degrade, 0) == DoLocal)
    && (forall i :: 0 <= i < |absent| ==> Decision(absent[i], answers, joins, degrade, 0) == Give([], None))
    && (forall k :: k in s.found ==> Gives(k, s.found[k], answers, joins, degrade))
    && (forall i :: 0 <= i < |s.refresh| ==> Refreshes(s.refresh[i], answers, joins, degrade))
  }

  ghost predicate Gives(k: Bytes, value: Bytes, answers: nat -> Bytes -> Reading, joins: nat -> Bytes -> Join, degrade: bool) {
    var choice := Decision(k, answers, joins, degrade, 0);
    choice.Give? && choice.value == value
  }

  ghost predicate Refreshes(h: Holder, answers: nat -> Bytes -> Reading, joins: nat -> Bytes -> Join, degrade: bool) {
    var choice := Decision(h.key, answers, joins, degrade, 0);
    choice.Give? && choice.refresh == Some(h.cas)
  }

  // Keys that are still undecided after n attempts.
  ghost predicate Undecided(list: seq<Bytes>, answers: nat -> Bytes -> Reading, joins: nat -> Bytes -> Join, degrade: bool, n: nat) {
    forall i :: 0 <= i < |list| ==> Decision(list[i], answers, joins, degrade, 0) == Decision(list[i], answers, joins, degrade, n)
  }

  // Keys that are busy at attempt n.
  ghost predicate BusyAt(list: seq<Bytes>, answers: nat -> Bytes -> Reading, joins: nat -> Bytes -> Join, degrade: bool, n: nat) {
    && Undecided(list, answers, joins, degrade, n)
    && forall i :: 0 <= i < |list| ==> Classify(answers(n)(list[i]), degrade).Busy?
  }

  // Keys that nobody in this process was loading at attempt n.
  ghost predicate LeftAt(list: seq<Bytes>, answers: nat -> Bytes -> Reading, joins: nat -> Bytes -> Join, degrade: bool, n: nat) {
    forall i :: 0 <= i < |list| ==>
      Decision(list[i], answers, joins, degrade, 0) ==
        if n >= WAITS then DoLocal else Decision(list[i], answers, joins, degrade, n + 1)
  }

  lemma PlaceAsFetch(s: Sorted, absent: seq<Bytes>, answers: nat -> Bytes -> Reading, joins: nat -> Bytes -> Join, degrade: bool,
                     n: nat, pending: seq<Bytes>, i: nat)
    requires AsFetch(s, absent, answers, joins, degrade) && Undecided(pending, answers, joins, degrade, n) && i < |pending|
    requires !Classify(answers(n)(pending[i]), degrade).Busy?
    ensures AsFetch(Place(s, pending[i], Classify(answers(n)(pending[i]), degrade)), absent, answers, joins, degrade)
  {
    var key := pending[i];
    assert Decision(key, answers, joins, degrade, 0) == Decision(key, answers, joins, degrade, n);
    var kind := Classify(answers(n)(key), degrade);
    hide Classify;
    match kind
    case Found(value, refresh) =>
      assert Gives(key, value, answers, joins, degrade);
      if refresh.Some? { assert Refreshes(Holder(key, refresh.value), answers, joins, degrade); }
    case _ =>
  }

  lemma JoinAsFetch(s: Sorted, absent: seq<Bytes>, answers: nat -> Bytes -> Reading, joins: nat -> Bytes -> Join, degrade: bool,
                    n: nat, busy: seq<Bytes>, i: nat)
    requires AsFetch(s, absent, answers, joins, degrade) && BusyAt(busy, answers, joins, degrade, n) && i < |busy|
    requires joins(n)(busy[i]).Gave?
    ensures
      var value := joins(n)(busy[i]).value;
      && AsFetch(Place(s, busy[i], Found(value, None)), absent, answers, joins, degrade)
      && (value == [] ==> AsFetch(s, absent + [busy[i]], answers, joins, degrade))
  {
    var key := busy[i];
    assert Decision(key, answers, joins, degrade, 0) == Decision(key, answers, joins, degrade, n);
    assert Gives(key, joins(n)(key).value, answers, joins, degrade);
    hide Classify;
    assert s.refresh + [] == s.refresh;
  }

  lemma BusyGrows(busy: seq<Bytes>, answers: nat -> Bytes -> Reading, joins: nat -> Bytes -> Join, degrade: bool, n: nat,
                  pending: seq<Bytes>, i: nat)
    requires BusyAt(busy, answers, joins, degrade, n) && Undecided(pending, answers, joins, degrade, n) && i < |pending|
    requires Classify(answers(n)(pending[i]), degrade).Busy?
    ensures BusyAt(busy + [pending[i]], answers, joins, degrade, n)
  {
    hide Classify, Decision;
  }

  lemma LeftGrows(left: seq<Bytes>, answers: nat -> Bytes -> Reading, joins: nat -> Bytes -> Join, degrade: bool, n: nat,
                  busy: seq<Bytes>, i: nat)
    requires LeftAt(left, answers, joins, degrade, n) && BusyAt(busy, answers, joins, degrade, n) && i < |busy|
    requires joins(n)(busy[i]).NotHere?
    ensures LeftAt(left + [busy[i]], answers, joins, degrade, n)
  {
    assert Decision(busy[i], answers, joins, degrade, 0) == Decision(busy[i], answers, joins, degrade, n);
    hide Classify;
  }

  lemma Nothing(answers: nat -> Bytes -> Reading, joins: nat -> Bytes -> Join, degrade: bool, n: nat, keys: seq<Bytes>)
    ensures AsFetch(NONE, [], answers, joins, degrade) && BusyAt([], answers, joins, degrade, n)
    ensures LeftAt([], answers, joins, degrade, n) && Undecided(keys, answers, joins, degrade, 0)
  {
  }

  // The keys left after a round go into the next one, or are computed locally.
  lemma LeftOver(s: Sorted, absent: seq<Bytes>, answers: nat -> Bytes -> Reading, joins: nat -> Bytes -> Join, degrade: bool,
                 n: nat, left: seq<Bytes>)
    requires AsFetch(s, absent, answers, joins, degrade) && LeftAt(left, answers, joins, degrade, n)
    ensures n < WAITS ==> Undecided(left, answers, joins, degrade, n + 1)
    ensures n >= WAITS ==> AsFetch(s.(local := s.local + left), absent, answers, joins, degrade)
  {
    hide Decision;
  }

  // The next of a list, set aside or moved to the end of another.
  lemma TakeNext(done: seq<Bytes>, list: seq<Bytes>, i: nat)
    requires i < |list|
    ensures
      var rest := multiset(done) + multiset(list[i + 1..]);
      && multiset(done) + multiset(list[i..]) == rest + multiset{list[i]}
      && multiset(done + [list[i]]) + multiset(list[i + 1..]) == rest + multiset{list[i]}
  {
    assert list[i..] == [list[i]] + list[i + 1..];
    assert multiset(list[i..]) == multiset{list[i]} + multiset(list[i + 1..]);
    assert multiset(done + [list[i]]) == multiset(done) + multiset{list[i]};
    Around(multiset(done), multiset(list[i + 1..]), multiset{list[i]});
  }

  lemma Around(a: multiset<Bytes>, b: multiset<Bytes>, x: multiset<Bytes>)
    ensures a + (x + b) == a + b + x && (a + x) + b == a + b + x
  {
  }

  lemma ListEnds(done: seq<Bytes>, list: seq<Bytes>)
    ensures multiset(done) + multiset(list[|list|..]) == multiset(done)
    ensures multiset([]) + multiset(list[0..]) == multiset(list)
  {
    assert list[|list|..] == [] && list[0..] == list;
  }

  // One round of answers (fetch.go:446-483).
  method SortRound(s: Sorted, pending: seq<Bytes>, answers: nat -> Bytes -> Reading, attempt: nat, degrade: bool,
                   ghost joins: nat -> Bytes -> Join, ghost hits: seq<Bytes>, ghost absent: seq<Bytes>, ghost keys: seq<Bytes>)
    returns (ok: bool, s': Sorted, busy: seq<Bytes>, ghost hits': seq<Bytes>)
    requires Accounts(s, hits, absent, multiset(pending), keys)
    requires AsFetch(s, absent, answers, joins, degrade) && Undecided(pending, answers, joins, degrade, attempt)
    ensures ok ==>
      && Accounts(s', hits', absent, multiset(busy), keys)
      && AsFetch(s', absent, answers, joins, degrade) && BusyAt(busy, answers, joins, degrade, attempt)
    ensures !ok ==> exists k :: k in pending && Decision(k, answers, joins, degrade, 0) == Fail
  {
    hide Accounts, Classify, Decision, AsFetch, Undecided, BusyAt, Place;
    ok, s', busy, hits' := true, s, [], hits;
    Nothing(answers, joins, degrade, attempt, []);
    ListEnds([], pending);
    for i := 0 to |pending|
      invariant ok && Accounts(s', hits', absent, multiset(busy) + multiset(pending[i..]), keys)
      invariant AsFetch(s', absent, answers, joins, degrade) && BusyAt(busy, answers, joins, degrade, attempt)
    {
      var key := pending[i];
      TakeNext(busy, pending, i);
      var kind := Classify(answers(attempt)(key), degrade);
      ClassSays(answers(attempt)(key), degrade);
      if kind.Broken? {
        BrokenFails(answers, joins, degrade, attempt, pending, i);
        return false, s', busy, hits';
      }
      if kind.Busy? {
        BusyGrows(busy, answers, joins, degrade, attempt, pending, i);
        busy := busy + [key];
      } else {
        PlaceAsFetch(s', absent, answers, joins, degrade, attempt, pending, i);
        s', hits' := SortOne(s', key, kind, hits', absent, multiset(busy) + multiset(pending[i + 1..]), keys);
      }
    }
    ListEnds(busy, pending);
  }

  lemma BrokenFails(answers: nat -> Bytes -> Reading, joins: nat -> Bytes -> Join, degrade: bool, n: nat, pending: seq<Bytes>, i: nat)
    requires Undecided(pending, answers, joins, degrade, n) && i < |pending|
    requires Classify(answers(n)(pending[i]), degrade).Broken?
    ensures Decision(pending[i], answers, joins, degrade, 0) == Fail
  {
    hide Classify;
  }

  lemma FailingFails(answers: nat -> Bytes -> Reading, joins: nat -> Bytes -> Join, degrade: bool, n: nat, busy: seq<Bytes>, i: nat)
    requires BusyAt(busy, answers, joins, degrade, n) && i < |busy| && joins(n)(busy[i]).Failing?
    ensures Decision(busy[i], answers, joins, degrade, 0) == Fail
  {
    assert Decision(busy[i], answers, joins, degrade, 0) == Decision(busy[i], answers, joins, degrade, n);
    hide Classify;
  }

  lemma ClassSays(r: Reading, degrade: bool)
    ensures Classify(r, degrade).Found? ==> Classify(r, degrade).value != []
  {
  }

  // Busy keys that this process is already loading (fetch.go:487-498).
  method JoinRound(s: Sorted, busy: seq<Bytes>, joins: nat -> Bytes -> Join, attempt: nat, degrade: bool,
                   ghost answers: nat -> Bytes -> Reading, ghost hits: seq<Bytes>, ghost absent: seq<Bytes>, ghost keys: seq<Bytes>)
    returns (ok: bool, s': Sorted, remaining: seq<Bytes>, ghost hits': seq<Bytes>, ghost absent': seq<Bytes>)
    requires Accounts(s, hits, absent, multiset(busy), keys)
    requires AsFetch(s, absent, answers, joins, degrade) && BusyAt(busy, answers, joins, degrade, attempt)
    ensures ok ==> Accounts(s', hits', absent', multiset(remaining), keys) && AsFetch(s', absent', answers, joins, degrade)
    ensures ok ==> LeftAt(remaining, answers, joins, degrade, attempt)
    ensures !ok ==> exists k :: k in busy && Decision(k, answers, joins, degrade, 0) == Fail
  {
    hide Accounts, Decision, AsFetch, BusyAt, LeftAt, Place;
    Nothing(answers, joins, degrade, attempt, []);
    ok, s', remaining, hits', absent' := true, s, [], hits, absent;
    ListEnds([], busy);
    for i := 0 to |busy|
      invariant ok && Accounts(s', hits', absent', multiset(remaining) + multiset(busy[i..]), keys)
      invariant AsFetch(s', absent', answers, joins, degrade) && LeftAt(remaining, answers, joins, degrade, attempt)
    {
      var key := busy[i];
      TakeNext(remaining, busy, i);
      ghost var rest := multiset(remaining) + multiset(busy[i + 1..]);
      match joins(attempt)(key)
      case NotHere =>
        LeftGrows(remaining, answers, joins, degrade, attempt, busy, i);
        remaining := remaining + [key];
      case Failing =>
        FailingFails(answers, joins, degrade, attempt, busy, i);
        return false, s', remaining, hits', absent';
      case Gave(value) =>
        JoinAsFetch(s', absent', answers, joins, degrade, attempt, busy, i);
        if value != [] {
          s', hits' := SortOne(s', key, Found(value, None), hits', absent', rest, keys);
        } else {
          JoinedEmpty(s', hits', absent', rest, key, keys);
          absent' := absent' + [key];
        }
    }
    ListEnds(remaining, busy);
  }

  lemma JoinedEmpty(s: Sorted, hits: seq<Bytes>, absent: seq<Bytes>, rest: multiset<Bytes>, key: Bytes, keys: seq<Bytes>)
    requires Accounts(s, hits, absent, rest + multiset{key}, keys)
    ensures Accounts(s, hits, absent + [key], rest, keys)
  {
    TotalMoves(hits, HeldKeys(s.lead), s.local, absent, rest, key);
    hide Total, Unique;
  }

  lemma AllLocal(s: Sorted, hits: seq<Bytes>, absent: seq<Bytes>, remaining: seq<Bytes>, keys: seq<Bytes>)
    requires Accounts(s, hits, absent, multiset(remaining), keys)
    ensures Accounts(s.(local := s.local + remaining), hits, absent, multiset{}, keys)
  {
  }

  lemma StartAccounts(keys: seq<Bytes>)
    ensures Accounts(NONE, [], [], multiset(Unique(keys)), keys)
  {
  }

  // fetchMany's read loop (fetch.go:429-512): reading, joining and waiting until
  // every key has a place, at most one round more than there are waits.
  method ReadLoop(keys: seq<Bytes>, answers: nat -> Bytes -> Reading, joins: nat -> Bytes -> Join, gaveUp: nat -> bool,
                  degrade: bool)
    returns (ok: bool, s: Sorted, rounds: nat, ghost hits: seq<Bytes>, ghost absent: seq<Bytes>)
    ensures rounds <= WAITS + 1
    ensures ok ==> Accounts(s, hits, absent, multiset{}, keys) && AsFetch(s, absent, answers, joins, degrade)
    ensures ok ==> NoneFails(keys, answers, joins, degrade)
    ensures !ok ==> !NoneFails(keys, answers, joins, degrade) || exists n :: 0 <= n < WAITS && gaveUp(n)
  {
    hide Accounts, Unique, NoneFails, Decision, Classify, AsFetch, Undecided, BusyAt, LeftAt;
    var pending := UniqueKeys(keys);
    s, hits, absent, rounds := NONE, [], [], 0;
    StartAccounts(keys);
    Nothing(answers, joins, degrade, 0, pending);
    ok := true;
    if pending == [] {
      assert multiset(pending) == multiset{};
      AllDecided(s, hits, absent, keys, answers, joins, degrade);
      return;
    }
    while true
      invariant rounds <= WAITS && Accounts(s, hits, absent, multiset(pending), keys)
      invariant AsFetch(s, absent, answers, joins, degrade) && Undecided(pending, answers, joins, degrade, rounds)
      decreases WAITS - rounds
    {
      var attempt := rounds;
      rounds := rounds + 1;
      var busy;
      SomeFails(s, hits, absent, pending, keys, answers, joins, degrade);
      ok, s, busy, hits := SortRound(s, pending, answers, attempt, degrade, joins, hits, absent, keys);
      if !ok { return; }
      if busy == [] {
        assert multiset(busy) == multiset{};
        AllDecided(s, hits, absent, keys, answers, joins, degrade);
        return;
      }
      var remaining;
      SomeFails(s, hits, absent, busy, keys, answers, joins, degrade);
      ok, s, remaining, hits, absent := JoinRound(s, busy, joins, attempt, degrade, answers, hits, absent, keys);
      if !ok { return; }
      if remaining == [] {
        assert multiset(remaining) == multiset{};
        AllDecided(s, hits, absent, keys, answers, joins, degrade);
        return;
      }
      LeftOver(s, absent, answers, joins, degrade, attempt, remaining);
      if attempt >= WAITS {
        AllLocal(s, hits, absent, remaining, keys);
        s := s.(local := s.local + remaining);
        AllDecided(s, hits, absent, keys, answers, joins, degrade);
        return;
      }
      if gaveUp(attempt) { return false, s, rounds, hits, absent; }
      pending := remaining;
    }
  }

  // No requested key comes to an error.
  ghost predicate NoneFails(keys: seq<Bytes>, answers: nat -> Bytes -> Reading, joins: nat -> Bytes -> Join, degrade: bool) {
    forall k :: k in keys ==> !Decision(k, answers, joins, degrade, 0).Fail?
  }

  lemma AllDecided(s: Sorted, hits: seq<Bytes>, absent: seq<Bytes>, keys: seq<Bytes>, answers: nat -> Bytes -> Reading,
                   joins: nat -> Bytes -> Join, degrade: bool)
    requires Accounts(s, hits, absent, multiset{}, keys) && AsFetch(s, absent, answers, joins, degrade)
    ensures NoneFails(keys, answers, joins, degrade)
  {
    hide Accounts, Decision, AsFetch;
    forall k | k in keys ensures !Decision(k, answers, joins, degrade, 0).Fail? {
      Partition(s, hits, absent, keys, k);
      OneDecided(s, absent, k, answers, joins, degrade);
    }
  }

  lemma OneDecided(s: Sorted, absent: seq<Bytes>, k: Bytes, answers: nat -> Bytes -> Reading, joins: nat -> Bytes -> Join, degrade: bool)
    requires AsFetch(s, absent, answers, joins, degrade)
    requires k in s.found || k in HeldKeys(s.lead) || k in s.local || k in absent
    ensures !Decision(k, answers, joins, degrade, 0).Fail?
  {
    hide Decision;
    if k in s.found {
      assert Gives(k, s.found[k], answers, joins, degrade);
    }
  }

  lemma SomeFails(s: Sorted, hits: seq<Bytes>, absent: seq<Bytes>, rest: seq<Bytes>, keys: seq<Bytes>,
                  answers: nat -> Bytes -> Reading, joins: nat -> Bytes -> Join, degrade: bool)
    requires Accounts(s, hits, absent, multiset(rest), keys)
    ensures (exists k :: k in rest && Decision(k, answers, joins, degrade, 0) == Fail) ==> !NoneFails(keys, answers, joins, degrade)
  {
    hide Unique, HeldKeys, Decision;
    forall k | k in rest ensures k in keys {
      assert k in multiset(rest);
      assert k in multiset(Unique(keys));
    }
  }

  // ---- what the accounting means ----

  lemma {:induction false} OnceEach(u: seq<Bytes>, k: Bytes)
    requires forall i, j :: 0 <= i < j < |u| ==> u[i] != u[j]
    ensures multiset(u)[k] == if k in u then 1 else 0
  {
    if u != [] {
      var front, last := u[..|u| - 1], u[|u| - 1];
      assert u == front + [last];
      assert multiset(u) == multiset(front) + multiset{last};
      OnceEach(front, k);
    }
  }

  // Every requested key has exactly one place, and no other key has any.
  lemma Partition(s: Sorted, hits: seq<Bytes>, absent: seq<Bytes>, keys: seq<Bytes>, k: Bytes)
    requires Accounts(s, hits, absent, multiset{}, keys)
    ensures
      var inFound, inLead, inLocal, inAbsent := k in s.found, k in HeldKeys(s.lead), k in s.local, k in absent;
      && (k in keys <==> inFound || inLead || inLocal || inAbsent)
      && !(inFound && inLead) && !(inFound && inLocal) && !(inFound && inAbsent)
      && !(inLead && inLocal) && !(inLead && inAbsent) && !(inLocal && inAbsent)
      && multiset(HeldKeys(s.lead))[k] <= 1 && multiset(s.local)[k] <= 1
  {
    OnceEach(Unique(keys), k);
    hide Unique, HeldKeys;
    assert Total(hits, HeldKeys(s.lead), s.local, absent, multiset{})[k] ==
      multiset(hits)[k] + multiset(HeldKeys(s.lead))[k] + multiset(s.local)[k] + multiset(absent)[k];
  }

  lemma FoundKeys(s: Sorted, hits: seq<Bytes>, absent: seq<Bytes>, keys: seq<Bytes>)
    requires Accounts(s, hits, absent, multiset{}, keys)
    ensures forall k :: k in s.found ==> k in keys && s.found[k] != []
  {
    forall k ensures k in s.found ==> k in keys && s.found[k] != [] { Partition(s, hits, absent, keys, k); }
  }

  // ---- running the flights ----

  lemma RegisterNext(r: Registered, c: CallerId, keys: seq<Bytes>, i: nat)
    requires i < |keys|
    ensures RegisterAll(r, c, keys[..i + 1]) == RegisterOne(RegisterAll(r, c, keys[..i]), c, keys[i])
  {
    assert keys[..i + 1][..i] == keys[..i];
  }

  lemma RegisterEnds(r: Registered, c: CallerId, keys: seq<Bytes>)
    ensures RegisterAll(r, c, keys[..0]) == r && keys[..|keys|] == keys
  {
  }

  // runFlights' bookkeeping (fetch.go:554-579) on the client's map of flights.
  class Client {
    var fetchFlights: map<Bytes, FlightId>
    var flights: seq<Flight>

    constructor ()
      ensures fetchFlights == map[] && flights == []
    {
      fetchFlights, flights := map[], [];
    }

    ghost predicate Valid()
      reads this
    {
      RegistryInv(fetchFlights, flights)
    }

    // Registering every key, under fetchMu (fetch.go:562-579).
    method Register(c: CallerId, lead: seq<Holder>, local: seq<Bytes>) returns (own: seq<FlightId>, joins: seq<FlightId>)
      requires Valid()
      modifies this
      ensures Valid()
      ensures
        Registered(fetchFlights, flights, own, joins) ==
          RegisterAll(Registered(old(fetchFlights), old(flights), [], []), c, HeldKeys(lead) + local)
    {
      ghost var r0 := Registered(fetchFlights, flights, [], []);
      ghost var keys := HeldKeys(lead) + local;
      own, joins := [], [];
      RegisterEnds(r0, c, keys);
      RegisterKeeps(r0, c, keys);
      hide HeldKeys, RegisterAll, RegisterOne, RegistryInv;
      for i := 0 to |lead|
        invariant Registered(fetchFlights, flights, own, joins) == RegisterAll(r0, c, keys[..i])
      {
        RegisterNext(r0, c, keys, i);
        own, joins := RegisterKey(c, lead[i].key, own, joins);
      }
      for i := 0 to |local|
        invariant Registered(fetchFlights, flights, own, joins) == RegisterAll(r0, c, keys[..|lead| + i])
      {
        RegisterNext(r0, c, keys, |lead| + i);
        own, joins := RegisterKey(c, local[i], own, joins);
      }
    }

    method RegisterKey(c: CallerId, key: Bytes, own: seq<FlightId>, joins: seq<FlightId>)
      returns (own': seq<FlightId>, joins': seq<FlightId>)
      modifies this
      ensures
        Registered(fetchFlights, flights, own', joins') ==
          RegisterOne(Registered(old(fetchFlights), old(flights), own, joins), c, key)
    {
      own', joins' := own, joins;
      if key in fetchFlights {
        joins' := joins + [fetchFlights[key]];
        return;
      }
      fetchFlights := fetchFlights[key := |flights|];
      own' := own + [|flights|];
      flights := flights + [Flight(key, c, None, false)];
    }

    // Handing out what the loader returned, and waking the joiners
    // (fetch.go:587-595).
    method Publish(own: seq<FlightId>, load: Load)
      requires forall i :: 0 <= i < |own| ==> own[i] < |flights|
      modifies this
      ensures fetchFlights == old(fetchFlights) - KeysOf(old(flights), own)
      ensures flights == Closed(old(flights), own, load)
    {
      ghost var before, registered := flights, fetchFlights;
      assert own[..0] == [];
      for i := 0 to |own|
        invariant |flights| == |before| && fetchFlights == registered - KeysOf(before, own[..i])
        invariant forall f :: 0 <= f < |flights| ==>
          flights[f] == if f in own[..i] then before[f].(result := Some(Lookup(load, before[f].key))) else before[f]
      {
        hide Lookup;
        KeysNext(before, own, i);
        flights := flights[own[i] := flights[own[i]].(result := Some(Lookup(load, flights[own[i]].key)))];
        fetchFlights := fetchFlights - {flights[own[i]].key};
      }
      assert own[..|own|] == own;
      for i := 0 to |own|
        invariant |flights| == |before| && fetchFlights == registered - KeysOf(before, own)
        invariant forall f :: 0 <= f < |flights| ==>
          && (f in own ==> flights[f] == before[f].(result := Some(Lookup(load, before[f].key)), closed := flights[f].closed))
          && (f in own[..i] ==> flights[f].closed)
          && (f !in own ==> flights[f] == before[f])
      {
        hide Lookup, KeysOf;
        assert own[..i + 1] == own[..i] + [own[i]];
        flights := flights[own[i] := flights[own[i]].(closed := true)];
      }
    }

    // runFlights (fetch.go:554-618). While the loader runs the lock is free, and
    // others says what other calls do to the map and the flights meanwhile; what
    // the joined flights publish and where the caller stops waiting is left open.
    method RunFlights(c: CallerId, lead: seq<Holder>, local: seq<Bytes>, load: seq<Bytes> -> Load,
                      others: (Desk, seq<FlightId>) -> Desk, published: FlightId -> Shared, stops: nat -> bool)
      returns (values: map<Bytes, Option<Bytes>>, err: Option<nat>, canceled: bool, own: seq<Bytes>, joined: seq<Joined>,
               mine: seq<FlightId>)
      requires Valid() && NoTwice(HeldKeys(lead) + local)
      requires forall d, ids :: Tidy(d, ids) ==> LeavesAlone(d, others(d, ids), ids)
      modifies this
      ensures Valid()
      ensures own == NewKeys(HeldKeys(lead) + local, old(fetchFlights))
      ensures JoinedAll(joined, OldKeys(HeldKeys(lead) + local, old(fetchFlights)), old(fetchFlights), published)
      ensures
        var r := RegisterAll(Registered(old(fetchFlights), old(flights), [], []), c, HeldKeys(lead) + local);
        var met := Meanwhile(Desk(r.registry, r.flights), others, r.own);
        && mine == r.own && (forall i :: 0 <= i < |mine| ==> mine[i] < |met.flights|)
        && fetchFlights == met.registry - KeysOf(met.flights, mine) && flights == Closed(met.flights, mine, load(own))
      ensures LandedAt(fetchFlights, flights, mine, own, c, load(own))
      ensures Collected(own, load(own), joined, stops, values, err, canceled)
    {
      hide RegistryInv, HeldKeys, Collected, NewKeys, OldKeys, LeavesAlone, Tidy, RegisterAll, LandedAt, OpensAndJoins,
        Closed, KeysOf, JoinedAll;
      ghost var keys, registry := HeldKeys(lead) + local, fetchFlights;
      ghost var r0 := Registered(fetchFlights, flights, [], []);
      var joins;
      mine, joins := Register(c, lead, local);
      RegisterDistinct(r0, c, keys);
      ghost var r1 := Registered(fetchFlights, flights, mine, joins);
      OwnKeys(r0, r1, c, keys);
      own := KeyList(flights, mine);
      joined := [];
      NoneJoined(registry, published, OldKeys(keys, registry));
      for j := 0 to |joins|
        invariant flights == r1.flights && fetchFlights == r1.registry && j <= |OldKeys(keys, registry)|
        invariant JoinedAll(joined, OldKeys(keys, registry)[..j], registry, published)
      {
        JoinKnown(r0, r1, c, keys, j);
        JoinedNext(joined, OldKeys(keys, registry), j, registry, published);
        joined := joined + [Joined(flights[joins[j]].key, published(joins[j]))];
      }
      AllJoined(r0, r1, c, keys);
      var loaded := Load(map[], None);
      TidyNow(r0, r1, c, keys);
      ghost var met := Meanwhile(Desk(r1.registry, r1.flights), others, mine);
      if own != [] {
        loaded := load(own);
        var desk := others(Desk(fetchFlights, flights), mine);
        MineThere(Desk(r1.registry, r1.flights), desk, mine);
        fetchFlights, flights := desk.registry, desk.flights;
        Publish(mine, loaded);
        Landing(Desk(r1.registry, r1.flights), desk, r0, r1, c, keys, own, loaded);
      } else {
        NoneLand(r1, own, c, load(own));
      }
      values, err, canceled := Collect(own, loaded, joined, stops);
      CollectedBy(own, loaded, load(own), joined, stops, values, err, canceled);
    }
  }

  // The client's map and its flights.
  datatype Desk = Desk(registry: map<Bytes, FlightId>, flights: seq<Flight>)

  // Between registration and publication: the map is in order, and the call's own
  // flights are there, unpublished.
  ghost predicate Tidy(d: Desk, mine: seq<FlightId>) {
    && RegistryInv(d.registry, d.flights)
    && forall i :: 0 <= i < |mine| ==> mine[i] < |d.flights| && d.flights[mine[i]].result.None?
  }

  // What other calls never do: take away a flight, or touch one of this call's.
  ghost predicate LeavesAlone(before: Desk, after: Desk, mine: seq<FlightId>) {
    && RegistryInv(after.registry, after.flights) && |before.flights| <= |after.flights|
    && forall i :: 0 <= i < |mine| ==> mine[i] < |before.flights| && after.flights[mine[i]] == before.flights[mine[i]]
  }

  // A call with nothing to load does not give the lock away before it is done.
  function Meanwhile(d: Desk, others: (Desk, seq<FlightId>) -> Desk, mine: seq<FlightId>): Desk {
    if mine == [] then d else others(d, mine)
  }

  // In every run, while a call is loading, no step of another call touches its
  // flights.
  lemma OthersLeaveAlone(s: State, e: Event, c: CallerId)
    requires Inv(s) && Enabled(s, e) && c < |s.callers| && s.callers[c].phase.Loading? && (e.Call? || e.c != c)
    ensures Tidy(Desk(s.registry, s.flights), s.callers[c].own)
    ensures LeavesAlone(Desk(s.registry, s.flights), Desk(Apply(s, e).registry, Apply(s, e).flights), s.callers[c].own)
  {
    hide Inv, Lookup, RegisterAll, RegistryInv, KeysOf;
    StepKeeps(s, e);
    RegistryOf(s);
    RegistryOf(Apply(s, e));
    CallerOf(s, c);
    if e.Register? { RegisterKeeps(Registered(s.registry, s.flights, [], []), e.c, s.callers[e.c].keys); }
    forall i | 0 <= i < |s.callers[c].own|
      ensures s.callers[c].own[i] < |s.flights| && s.flights[s.callers[c].own[i]].result.None?
      ensures s.callers[c].own[i] < |Apply(s, e).flights|
      ensures Apply(s, e).flights[s.callers[c].own[i]] == s.flights[s.callers[c].own[i]]
    {
      FlightOf(s, s.callers[c].own[i]);
      if !e.Call? { CallerOf(s, e.c); }
    }
  }

  // Some flights with a result each, and closed.
  function Closed(flights: seq<Flight>, ids: seq<FlightId>, load: Load): (r: seq<Flight>)
    ensures |r| == |flights|
    ensures forall f :: 0 <= f < |r| ==>
      r[f] == if f in ids then flights[f].(result := Some(Lookup(load, flights[f].key)), closed := true) else flights[f]
  {
    seq(|flights|, f requires 0 <= f < |flights| =>
      if f in ids then flights[f].(result := Some(Lookup(load, flights[f].key)), closed := true) else flights[f])
  }

  // The call's flights have the loader's results for their keys, are closed, and
  // are no longer registered.
  ghost predicate LandedAt(registry: map<Bytes, FlightId>, flights: seq<Flight>, mine: seq<FlightId>, own: seq<Bytes>, c: CallerId,
                           loaded: Load)
  {
    |mine| == |own| && forall i :: 0 <= i < |own| ==>
      && own[i] !in registry && mine[i] < |flights|
      && flights[mine[i]] == Flight(own[i], c, Some(Lookup(loaded, own[i])), true)
  }

  lemma TidyNow(r: Registered, r': Registered, c: CallerId, keys: seq<Bytes>)
    requires OpensAndJoins(r, r', c, keys) && RegistryInv(r'.registry, r'.flights)
    ensures Tidy(Desk(r'.registry, r'.flights), r'.own)
  {
    hide NewKeys, OldKeys;
  }

  lemma MineThere(before: Desk, after: Desk, mine: seq<FlightId>)
    requires LeavesAlone(before, after, mine)
    ensures forall i :: 0 <= i < |mine| ==> mine[i] < |after.flights|
  {
  }

  lemma NoneJoined(registry: map<Bytes, FlightId>, published: FlightId -> Shared, keys: seq<Bytes>)
    ensures JoinedAll([], keys[..0], registry, published)
  {
  }

  lemma JoinedNext(joined: seq<Joined>, keys: seq<Bytes>, j: nat, registry: map<Bytes, FlightId>, published: FlightId -> Shared)
    requires j < |keys| && JoinedAll(joined, keys[..j], registry, published) && keys[j] in registry
    ensures JoinedAll(joined + [Joined(keys[j], published(registry[keys[j]]))], keys[..j + 1], registry, published)
  {
  }

  lemma AllJoined(r: Registered, r': Registered, c: CallerId, keys: seq<Bytes>)
    requires OpensAndJoins(r, r', c, keys)
    ensures |r'.joins| == |OldKeys(keys, r.registry)|
    ensures OldKeys(keys, r.registry)[..|r'.joins|] == OldKeys(keys, r.registry)
  {
  }

  lemma NoneLand(r: Registered, own: seq<Bytes>, c: CallerId, loaded: Load)
    requires own == [] && r.own == []
    ensures LandedAt(r.registry, r.flights, r.own, own, c, loaded)
    ensures r.registry == r.registry - KeysOf(r.flights, r.own) && r.flights == Closed(r.flights, r.own, loaded)
  {
    assert KeysOf(r.flights, r.own) == {};
  }

  lemma Landing(before: Desk, met: Desk, r: Registered, r': Registered, c: CallerId, keys: seq<Bytes>, own: seq<Bytes>, loaded: Load)
    requires OpensAndJoins(r, r', c, keys) && own == NewKeys(keys, r.registry)
    requires before == Desk(r'.registry, r'.flights) && LeavesAlone(before, met, r'.own)
    ensures (forall i :: 0 <= i < |r'.own| ==> r'.own[i] < |met.flights|)
    ensures
      var registry, flights := met.registry - KeysOf(met.flights, r'.own), Closed(met.flights, r'.own, loaded);
      RegistryInv(registry, flights) && LandedAt(registry, flights, r'.own, own, c, loaded)
  {
    hide OpensAndJoins, NewKeys, KeysOf, Lookup, Closed, LeavesAlone, RegistryInv;
    MineThere(before, met, r'.own);
    OwnCount(r, r', c, keys);
    forall i | 0 <= i < |own|
      ensures own[i] !in met.registry - KeysOf(met.flights, r'.own)
      ensures Closed(met.flights, r'.own, loaded)[r'.own[i]] == Flight(own[i], c, Some(Lookup(loaded, own[i])), true)
    {
      OwnFlight(r, r', c, keys, i);
      LandsOne(before, met, r'.own, i, own[i], c, loaded);
    }
    RestInOrder(before, met, r'.own, loaded);
  }

  lemma OwnCount(r: Registered, r': Registered, c: CallerId, keys: seq<Bytes>)
    requires OpensAndJoins(r, r', c, keys)
    ensures |r'.own| == |NewKeys(keys, r.registry)|
  {
  }

  lemma OwnFlight(r: Registered, r': Registered, c: CallerId, keys: seq<Bytes>, i: nat)
    requires OpensAndJoins(r, r', c, keys) && i < |r'.own|
    ensures i < |NewKeys(keys, r.registry)| && r'.own[i] < |r'.flights|
    ensures r'.flights[r'.own[i]] == Flight(NewKeys(keys, r.registry)[i], c, None, false)
  {
    hide NewKeys, OldKeys;
  }

  lemma LandsOne(before: Desk, met: Desk, mine: seq<FlightId>, i: nat, key: Bytes, c: CallerId, loaded: Load)
    requires LeavesAlone(before, met, mine) && i < |mine| && mine[i] < |before.flights|
    requires before.flights[mine[i]] == Flight(key, c, None, false)
    ensures mine[i] < |met.flights| && key !in met.registry - KeysOf(met.flights, mine)
    ensures Closed(met.flights, mine, loaded)[mine[i]] == Flight(key, c, Some(Lookup(loaded, key)), true)
  {
    hide RegistryInv, Lookup, KeysOf;
    KeyListed(met.flights, mine, i);
  }

  // What is left in the map is in order.
  lemma RestInOrder(before: Desk, met: Desk, mine: seq<FlightId>, loaded: Load)
    requires LeavesAlone(before, met, mine)
    ensures RegistryInv(met.registry - KeysOf(met.flights, mine), Closed(met.flights, mine, loaded))
  {
    hide KeysOf, Lookup;
    var registry := met.registry - KeysOf(met.flights, mine);
    forall k | k in registry ensures registry[k] !in mine {
      if registry[k] in mine {
        var i :| 0 <= i < |mine| && mine[i] == registry[k];
        KeyListed(met.flights, mine, i);
        assert false;
      }
    }
  }

  lemma KeyListed(flights: seq<Flight>, ids: seq<FlightId>, i: nat)
    requires i < |ids| && ids[i] < |flights|
    ensures flights[ids[i]].key in KeysOf(flights, ids)
  {
  }

  // A joined flight's key and what it published.
  datatype Joined = Joined(key: Bytes, shared: Shared)

  function JoinKeys(joined: seq<Joined>): (keys: seq<Bytes>)
    ensures |keys| == |joined| && forall j :: 0 <= j < |keys| ==> keys[j] == joined[j].key
  {
    seq(|joined|, j requires 0 <= j < |joined| => joined[j].key)
  }

  // What the flights registered for some keys published.
  ghost predicate JoinedAll(joined: seq<Joined>, keys: seq<Bytes>, registry: map<Bytes, FlightId>, published: FlightId -> Shared) {
    && |joined| == |keys|
    && forall j :: 0 <= j < |joined| ==>
         keys[j] in registry && joined[j] == Joined(keys[j], published(registry[keys[j]]))
  }

  lemma KeysNext(flights: seq<Flight>, own: seq<FlightId>, i: nat)
    requires i < |own| && forall j :: 0 <= j < |own| ==> own[j] < |flights|
    ensures own[..i + 1] == own[..i] + [own[i]]
    ensures KeysOf(flights, own[..i + 1]) == KeysOf(flights, own[..i]) + {flights[own[i]].key}
  {
    var a, b := own[..i], own[..i + 1];
    assert b == a + [own[i]];
    forall k | k in KeysOf(flights, a) + {flights[own[i]].key} ensures k in KeysOf(flights, b) {
      if k in KeysOf(flights, a) {
        var n :| 0 <= n < |a| && a[n] < |flights| && flights[a[n]].key == k;
        assert b[n] == a[n];
      } else {
        assert b[i] == own[i];
      }
    }
  }

  lemma OwnKeys(r: Registered, r': Registered, c: CallerId, keys: seq<Bytes>)
    requires OpensAndJoins(r, r', c, keys)
    ensures forall i :: 0 <= i < |r'.own| ==> r'.own[i] < |r'.flights|
    ensures KeyList(r'.flights, r'.own) == NewKeys(keys, r.registry)
  {
  }

  // A joined flight is the one that was registered for the key.
  lemma JoinKnown(r: Registered, r': Registered, c: CallerId, keys: seq<Bytes>, j: nat)
    requires OpensAndJoins(r, r', c, keys) && RegistryInv(r.registry, r.flights) && j < |r'.joins|
    ensures j < |OldKeys(keys, r.registry)| && OldKeys(keys, r.registry)[j] in r.registry
    ensures r'.joins[j] == r.registry[OldKeys(keys, r.registry)[j]] && r'.joins[j] < |r.flights|
    ensures r'.joins[j] < |r'.flights| && r'.flights[r'.joins[j]].key == OldKeys(keys, r.registry)[j]
  {
    var joined := OldKeys(keys, r.registry);
    hide NewKeys, OldKeys;
    assert joined[j] in joined;
  }

  // ---- what a call collects ----

  ghost predicate Given(joined: seq<Joined>, j: int, k: Bytes) {
    0 <= j < |joined| && joined[j].key == k && joined[j].shared.err.None?
  }

  ghost predicate LastGiven(joined: seq<Joined>, j: int, k: Bytes) {
    Given(joined, j, k) && forall m :: j < m < |joined| ==> !Given(joined, m, k)
  }

  // The values of the own keys the loader returned, overridden by those of the
  // joined flights that did not fail.
  ghost predicate Gathered(own: seq<Bytes>, loaded: Load, joined: seq<Joined>, values: map<Bytes, Option<Bytes>>) {
    && (forall k :: k in values <==> (k in own && k in loaded.values) || exists j :: Given(joined, j, k))
    && (forall k, j :: LastGiven(joined, j, k) ==> k in values && values[k] == joined[j].shared.value)
    && (forall k :: k in own && k in loaded.values && (forall j :: !Given(joined, j, k)) ==>
          k in values && values[k] == Some(loaded.values[k]))
  }

  // The own loader's error, or else that of the first joined flight that failed.
  ghost predicate FirstError(own: seq<Bytes>, loaded: Load, joined: seq<Joined>, err: Option<nat>) {
    if own != [] && loaded.err.Some? then err == loaded.err
    else
      || (err.None? && forall j :: 0 <= j < |joined| ==> joined[j].shared.err.None?)
      || (exists j :: 0 <= j < |joined| && FirstFailed(joined, j) && err == joined[j].shared.err)
  }

  ghost predicate FirstFailed(joined: seq<Joined>, j: nat)
    requires j < |joined|
  {
    joined[j].shared.err.Some? && forall m :: 0 <= m < j ==> joined[m].shared.err.None?
  }

  ghost predicate Collected(own: seq<Bytes>, loaded: Load, joined: seq<Joined>, stops: nat -> bool,
                            values: map<Bytes, Option<Bytes>>, err: Option<nat>, canceled: bool) {
    && (canceled <==> exists j :: 0 <= j < |joined| && stops(j))
    && (canceled ==> values == map[])
    && (!canceled ==> Gathered(own, loaded, joined, values) && FirstError(own, loaded, joined, err))
  }

  lemma CollectedBy(own: seq<Bytes>, loaded: Load, other: Load, joined: seq<Joined>, stops: nat -> bool,
                    values: map<Bytes, Option<Bytes>>, err: Option<nat>, canceled: bool)
    requires Collected(own, loaded, joined, stops, values, err, canceled) && (own != [] ==> other == loaded)
    ensures Collected(own, other, joined, stops, values, err, canceled)
  {
  }

  // What the loader and the joined flights leave in runFlights' result
  // (fetch.go:597-617). A caller whose context ends while it waits gets nothing.
  method Collect(own: seq<Bytes>, loaded: Load, joined: seq<Joined>, stops: nat -> bool)
    returns (values: map<Bytes, Option<Bytes>>, err: Option<nat>, canceled: bool)
    ensures canceled <==> exists j :: 0 <= j < |joined| && stops(j)
    ensures canceled ==> values == map[]
    ensures !canceled ==> Gathered(own, loaded, joined, values) && FirstError(own, loaded, joined, err)
  {
    values, err, canceled := map[], None, false;
    if own != [] {
      err := loaded.err;
      for i := 0 to |own|
        invariant forall k :: k in values <==> k in own[..i] && k in loaded.values
        invariant forall k :: k in values ==> values[k] == Some(loaded.values[k])
      {
        assert own[..i + 1] == own[..i] + [own[i]];
        if own[i] in loaded.values { values := values[own[i] := Some(loaded.values[own[i]])]; }
      }
      assert own[..|own|] == own;
    }
    assert joined[..0] == [];
    for j := 0 to |joined|
      invariant !canceled && forall m :: 0 <= m < j ==> !stops(m)
      invariant Gathered(own, loaded, joined[..j], values) && FirstError(own, loaded, joined[..j], err)
    {
      if stops(j) { return map[], None, true; }
      assert joined[..j + 1] == joined[..j] + [joined[j]];
      OneMore(own, loaded, joined[..j], joined[j], values, err);
      if joined[j].shared.err.Some? {
        if err.None? { err := joined[j].shared.err; }
        continue;
      }
      values := values[joined[j].key := joined[j].shared.value];
    }
    assert joined[..|joined|] == joined;
  }

  lemma OneMore(own: seq<Bytes>, loaded: Load, joined: seq<Joined>, next: Joined, values: map<Bytes, Option<Bytes>>, err: Option<nat>)
    requires Gathered(own, loaded, joined, values) && FirstError(own, loaded, joined, err)
    ensures Gathered(own, loaded, joined + [next],
                     if next.shared.err.Some? then values else values[next.key := next.shared.value])
    ensures FirstError(own, loaded, joined + [next], if err.None? then next.shared.err else err)
  {
    MoreGathered(own, loaded, joined, next, values);
    hide Gathered;
    var all := joined + [next];
    if err.None? {
      if next.shared.err.Some? { assert FirstFailed(all, |joined|); }
    } else if !(own != [] && loaded.err.Some?) {
      var j :| 0 <= j < |joined| && FirstFailed(joined, j) && err == joined[j].shared.err;
      assert FirstFailed(all, j);
    }
  }

  lemma MoreGathered(own: seq<Bytes>, loaded: Load, joined: seq<Joined>, next: Joined, values: map<Bytes, Option<Bytes>>)
    requires Gathered(own, loaded, joined, values)
    ensures Gathered(own, loaded, joined + [next],
                     if next.shared.err.Some? then values else values[next.key := next.shared.value])
  {
    var all, n := joined + [next], |joined|;
    var values' := if next.shared.err.Some? then values else values[next.key := next.shared.value];
    GivenMore(joined, next);
    hide Given;
    forall k ensures k in values' <==> (k in own && k in loaded.values) || exists j :: Given(all, j, k) {
      if j :| Given(all, j, k) {
        if j != n { assert Given(joined, j, k); }
      }
      if j :| Given(joined, j, k) { assert Given(all, j, k); }
      if k == next.key && next.shared.err.None? { assert Given(all, n, k); }
    }
    forall k, j | LastGiven(all, j, k) ensures 0 <= j <= n && k in values' && values'[k] == all[j].shared.value {
      LastMore(joined, next, j, k);
    }
    forall k | k in own && k in loaded.values && (forall j :: !Given(all, j, k))
      ensures k in values' && values'[k] == Some(loaded.values[k])
    {
      assert !Given(all, n, k);
      forall j ensures !Given(joined, j, k) { assert !Given(all, j, k); }
    }
  }

  lemma GivenMore(joined: seq<Joined>, next: Joined)
    ensures forall j, k :: j != |joined| ==> (Given(joined + [next], j, k) <==> Given(joined, j, k))
    ensures forall k :: !Given(joined, |joined|, k)
    ensures forall k :: Given(joined + [next], |joined|, k) <==> next.key == k && next.shared.err.None?
  {
  }

  lemma LastMore(joined: seq<Joined>, next: Joined, j: int, k: Bytes)
    requires LastGiven(joined + [next], j, k)
    ensures 0 <= j <= |joined|
    ensures if j == |joined| then next.key == k && next.shared.err.None?
            else LastGiven(joined, j, k) && !(next.key == k && next.shared.err.None?)
  {
    var all := joined + [next];
    GivenMore(joined, next);
    if j != |joined| {
      assert !Given(all, |joined|, k);
      forall m | j < m < |joined| ensures !Given(joined, m, k) { assert !Given(all, m, k); }
    }
  }

  // ---- settling ----

  datatype Settlement = WriteBack(key: Bytes, value: Bytes, cas: nat) | Release(key: Bytes, cas: nat)

  function SettleOne(h: Holder, computed: map<Bytes, Option<Bytes>>, failed: bool): Settlement {
    if !failed && h.key in computed && computed[h.key].Some? && computed[h.key].value != []
    then WriteBack(h.key, computed[h.key].value, h.cas) else Release(h.key, h.cas)
  }

  // The loop that settles every lease won (fetch.go:525-536): one write-back or
  // release each, under the cas of the read that won it.
  method Settle(lead: seq<Holder>, computed: map<Bytes, Option<Bytes>>, failed: bool) returns (settled: seq<Settlement>)
    ensures |settled| == |lead| && forall i :: 0 <= i < |lead| ==> settled[i] == SettleOne(lead[i], computed, failed)
  {
    settled := [];
    for i := 0 to |lead|
      invariant |settled| == i && forall j :: 0 <= j < i ==> settled[j] == SettleOne(lead[j], computed, failed)
    {
      var value := if lead[i].key in computed then computed[lead[i].key] else None;
      if !failed && value.Some? && value.value != [] {
        settled := settled + [WriteBack(lead[i].key, value.value, lead[i].cas)];
      } else {
        settled := settled + [Release(lead[i].key, lead[i].cas)];
      }
    }
  }

  // The values of computed join those that were found (fetch.go:540-544).
  method Merge(found: map<Bytes, Bytes>, computed: map<Bytes, Option<Bytes>>) returns (all: map<Bytes, Bytes>)
    requires forall k :: k in found ==> found[k] != []
    ensures forall k :: k in all <==> k in found || (k in computed && computed[k].Some? && computed[k].value != [])
    ensures forall k :: k in all ==> all[k] != []
    ensures forall k :: k in all && k !in computed ==> all[k] == found[k]
    ensures forall k :: k in computed && computed[k].Some? && computed[k].value != [] ==> k in all && all[k] == computed[k].value
  {
    all := found;
    var left := computed.Keys;
    while left != {}
      invariant left <= computed.Keys
      invariant forall k :: k in all <==>
        k in found || (k in computed && k !in left && computed[k].Some? && computed[k].value != [])
      invariant forall k :: k in all ==> all[k] != []
      invariant forall k :: k in all && (k !in computed || k in left) ==> k in found && all[k] == found[k]
      invariant forall k :: k in computed && k !in left && computed[k].Some? && computed[k].value != [] ==> all[k] == computed[k].value
      decreases left
    {
      var key :| key in left;
      left := left - {key};
      if computed[key].Some? && computed[key].value != [] { all := all[key := computed[key].value]; }
    }
  }

  // ---- the whole call ----

  // The keys a call has to compute, in the order the loader is given them.
  function Todo(s: Sorted): seq<Bytes> { HeldKeys(s.lead) + s.local }

  lemma CountTwice(keys: seq<Bytes>, i: nat, j: nat)
    requires i < j < |keys| && keys[i] == keys[j]
    ensures multiset(keys)[keys[i]] >= 2
  {
    assert keys == keys[..j] + keys[j..];
    assert keys[..j][i] in keys[..j] && keys[j..][0] in keys[j..];
  }

  lemma TodoDistinct(s: Sorted, hits: seq<Bytes>, absent: seq<Bytes>, keys: seq<Bytes>)
    requires Accounts(s, hits, absent, multiset{}, keys)
    ensures NoTwice(Todo(s))
    ensures forall k :: k in Todo(s) ==> k in keys && k !in s.found
  {
    var todo := Todo(s);
    assert multiset(todo) == multiset(HeldKeys(s.lead)) + multiset(s.local);
    forall i, j | 0 <= i < j < |todo| ensures todo[i] != todo[j] {
      if todo[i] == todo[j] {
        CountTwice(todo, i, j);
        OnceEach(Unique(keys), todo[i]);
        assert false;
      }
    }
    forall k | k in todo ensures k in keys && k !in s.found { Partition(s, hits, absent, keys, k); }
  }

  ghost predicate Brings(joined: seq<Joined>, j: int, k: Bytes, v: Bytes) {
    0 <= j < |joined| && joined[j] == Joined(k, Shared(Some(v), None))
  }

  // The own loader returned v for the key, or the flight joined for it did.
  ghost predicate Computes(own: seq<Bytes>, loaded: Load, joined: seq<Joined>, k: Bytes, v: Bytes) {
    (k in own && k in loaded.values && loaded.values[k] == v) || exists j :: Brings(joined, j, k, v)
  }

  // Each key is loaded or joined, and none is both.
  lemma OneSource(own: seq<Bytes>, joined: seq<Joined>, todo: seq<Bytes>, k: Bytes)
    requires NoTwice(todo) && multiset(own) + multiset(JoinKeys(joined)) == multiset(todo)
    ensures k in own ==> forall j :: !Given(joined, j, k)
    ensures forall i, j :: Given(joined, i, k) && Given(joined, j, k) ==> i == j
    ensures k in own || (exists j :: Given(joined, j, k)) ==> k in todo
  {
    OnceEach(todo, k);
    var taken := JoinKeys(joined);
    assert multiset(own)[k] + multiset(taken)[k] <= 1;
    forall j | Given(joined, j, k) ensures k !in own && k in todo {
      assert taken[j] == k;
      assert k in multiset(taken);
    }
    forall i, j | Given(joined, i, k) && Given(joined, j, k) && i < j ensures false {
      CountTwice(taken, i, j);
    }
  }

  lemma ComputedIff(own: seq<Bytes>, loaded: Load, joined: seq<Joined>, todo: seq<Bytes>, values: map<Bytes, Option<Bytes>>, k: Bytes)
    requires NoTwice(todo) && multiset(own) + multiset(JoinKeys(joined)) == multiset(todo)
    requires Gathered(own, loaded, joined, values)
    ensures k in values ==> k in todo
    ensures forall v :: (k in values && values[k] == Some(v)) <==> Computes(own, loaded, joined, k, v)
  {
    OneSource(own, joined, todo, k);
    if j :| Given(joined, j, k) {
      assert LastGiven(joined, j, k);
      assert values[k] == joined[j].shared.value;
      forall v ensures values[k] == Some(v) <==> Computes(own, loaded, joined, k, v) {
        assert Brings(joined, j, k, v) <==> joined[j].shared.value == Some(v);
        forall m | Brings(joined, m, k, v) ensures m == j { assert Given(joined, m, k); }
      }
    } else {
      forall v, m ensures !Brings(joined, m, k, v) {
        if Brings(joined, m, k, v) { assert Given(joined, m, k); }
      }
    }
  }

  // How a call ends: reading failed, its caller's context ended while it waited,
  // or a loader failed.
  datatype Cause = ReadFailed | GaveUp | LoadFailed(error: nat)
  datatype Result = Values(found: map<Bytes, Bytes>) | Failure(cause: Cause)

  // What settling a lease comes to: a write-back of the value computed for its
  // key, if the call succeeds and there is one, and a release otherwise.
  ghost predicate SettledAs(h: Holder, t: Settlement, ok: bool, own: seq<Bytes>, loaded: Load, joined: seq<Joined>) {
    && (forall v :: t == WriteBack(h.key, v, h.cas) <==> ok && v != [] && Computes(own, loaded, joined, h.key, v))
    && (t == Release(h.key, h.cas) <==> !ok || forall v :: Computes(own, loaded, joined, h.key, v) ==> v == [])
  }

  lemma SettlesAs(h: Holder, values: map<Bytes, Option<Bytes>>, failed: bool, own: seq<Bytes>, loaded: Load, joined: seq<Joined>)
    requires !failed ==>
      forall v :: (h.key in values && values[h.key] == Some(v)) <==> Computes(own, loaded, joined, h.key, v)
    ensures SettledAs(h, SettleOne(h, values, failed), !failed, own, loaded, joined)
  {
    hide Computes;
    if !failed && h.key in values && values[h.key].Some? {
      assert Computes(own, loaded, joined, h.key, values[h.key].value);
    }
  }

  // The result of a call that succeeds: what it found, and every non-empty value
  // that was computed.
  ghost predicate Answers(s: Sorted, found: map<Bytes, Bytes>, own: seq<Bytes>, loaded: Load, joined: seq<Joined>) {
    forall k, v :: (k in found && found[k] == v) <==>
      (k in s.found && s.found[k] == v) || (v != [] && Computes(own, loaded, joined, k, v))
  }

  lemma MergedAnswers(s: Sorted, values: map<Bytes, Option<Bytes>>, all: map<Bytes, Bytes>, own: seq<Bytes>, loaded: Load,
                      joined: seq<Joined>)
    requires forall k :: k in s.found ==> s.found[k] != []
    requires forall k :: k in values ==> k !in s.found
    requires forall k :: k in all <==> k in s.found || (k in values && values[k].Some? && values[k].value != [])
    requires forall k :: k in all && k !in values ==> all[k] == s.found[k]
    requires forall k :: k in values && values[k].Some? && values[k].value != [] ==> k in all && all[k] == values[k].value
    requires forall k, v :: (k in values && values[k] == Some(v)) <==> Computes(own, loaded, joined, k, v)
    ensures Answers(s, all, own, loaded, joined)
  {
    hide Computes;
    forall k, v
      ensures (k in all && all[k] == v) <==> (k in s.found && s.found[k] == v) || (v != [] && Computes(own, loaded, joined, k, v))
    {
      assert (k in values && values[k] == Some(v)) <==> Computes(own, loaded, joined, k, v);
    }
  }

  // When a call succeeds, and which error it gives otherwise.
  ghost predicate EndsAs(r: Result, own: seq<Bytes>, loaded: Load, joined: seq<Joined>, stops: nat -> bool) {
    if exists j :: 0 <= j < |joined| && stops(j) then r == Failure(GaveUp)
    else FirstError(own, loaded, joined, if r.Values? then None else if r.cause.LoadFailed? then Some(r.cause.error) else None)
         && (r.Values? || r.cause.LoadFailed?)
  }

  // fetchMany (fetch.go:424-546). load is the caller's loader, published what
  // other callers' flights give, stops where the caller stops waiting for them.
  method FetchAll(client: Client, caller: CallerId, keys: seq<Bytes>, answers: nat -> Bytes -> Reading,
                  joins: nat -> Bytes -> Join, gaveUp: nat -> bool, degrade: bool, load: seq<Bytes> -> Load,
                  others: (Desk, seq<FlightId>) -> Desk, published: FlightId -> Shared, stops: nat -> bool)
    returns (r: Result, settled: seq<Settlement>, rounds: nat, read: bool, s: Sorted, own: seq<Bytes>, joined: seq<Joined>,
             mine: seq<FlightId>, ghost hits: seq<Bytes>, ghost absent: seq<Bytes>)
    requires client.Valid()
    requires forall d, ids :: Tidy(d, ids) ==> LeavesAlone(d, others(d, ids), ids)
    modifies client
    ensures client.Valid() && LandedAt(client.fetchFlights, client.flights, mine, own, caller, load(own))
    ensures rounds <= WAITS + 1
    ensures read ==> Accounts(s, hits, absent, multiset{}, keys) && AsFetch(s, absent, answers, joins, degrade)
    ensures read ==> NoneFails(keys, answers, joins, degrade)
    ensures !read ==> !NoneFails(keys, answers, joins, degrade) || exists n :: 0 <= n < WAITS && gaveUp(n)
    ensures !read ==> r == Failure(ReadFailed) && settled == [] && own == [] && joined == []
    ensures read ==>
      && own == NewKeys(Todo(s), old(client.fetchFlights))
      && JoinedAll(joined, OldKeys(Todo(s), old(client.fetchFlights)), old(client.fetchFlights), published)
    ensures read ==> EndsAs(r, own, load(own), joined, stops)
    ensures r.Values? ==> Answers(s, r.found, own, load(own), joined)
    ensures r.Values? ==> forall k :: k in r.found ==> k in keys && r.found[k] != []
    ensures read ==>
      |settled| == |s.lead| && forall i :: 0 <= i < |settled| ==> SettledAs(s.lead[i], settled[i], r.Values?, own, load(own), joined)
  {
    hide *;
    own, joined, mine, settled := [], [], [], [];
    NothingLanded(client.fetchFlights, client.flights, caller, load([]));
    read, s, rounds, hits, absent := ReadLoop(keys, answers, joins, gaveUp, degrade);
    if !read {
      r := Failure(ReadFailed);
      return;
    }
    FoundKeys(s, hits, absent, keys);
    TodoDistinct(s, hits, absent, keys);
    if s.lead == [] && s.local == [] {
      NothingToDo(s, client.fetchFlights, published, load([]), stops);
      r := Values(s.found);
      return;
    }
    var computed, err, canceled;
    TodoIs(s);
    computed, err, canceled, own, joined, mine :=
      client.RunFlights(caller, s.lead, s.local, load, others, published, stops);
    JoinedKeys(joined, Todo(s), old(client.fetchFlights), published);
    settled := Settle(s.lead, computed, canceled || err.Some?);
    AllSettled(s, computed, canceled || err.Some?, own, load(own), joined, stops, err, canceled);
    CollectedEnds(own, load(own), joined, stops, computed, err, canceled);
    if canceled {
      r := Failure(GaveUp);
      return;
    }
    if err.Some? {
      r := Failure(LoadFailed(err.value));
      return;
    }
    var all := Merge(s.found, computed);
    Computed(own, load(own), joined, Todo(s), computed, stops, err);
    MergedAnswers(s, computed, all, own, load(own), joined);
    AnswersAsked(s, all, computed, keys);
    r := Values(all);
  }

  lemma NothingLanded(registry: map<Bytes, FlightId>, flights: seq<Flight>, c: CallerId, loaded: Load)
    ensures LandedAt(registry, flights, [], [], c, loaded)
  {
  }

  lemma TodoIs(s: Sorted)
    ensures Todo(s) == HeldKeys(s.lead) + s.local
  {
  }

  lemma NothingToDo(s: Sorted, registry: map<Bytes, FlightId>, published: FlightId -> Shared, loaded: Load, stops: nat -> bool)
    requires s.lead == [] && s.local == [] && forall k :: k in s.found ==> s.found[k] != []
    ensures NewKeys(Todo(s), registry) == [] && JoinedAll([], OldKeys(Todo(s), registry), registry, published)
    ensures EndsAs(Values(s.found), [], loaded, [], stops) && Answers(s, s.found, [], loaded, [])
  {
  }

  // The keys of own and joined flights are the keys to compute.
  lemma JoinedKeys(joined: seq<Joined>, todo: seq<Bytes>, registry: map<Bytes, FlightId>, published: FlightId -> Shared)
    requires JoinedAll(joined, OldKeys(todo, registry), registry, published)
    ensures multiset(NewKeys(todo, registry)) + multiset(JoinKeys(joined)) == multiset(todo)
  {
    assert JoinKeys(joined) == OldKeys(todo, registry);
  }

  lemma Computed(own: seq<Bytes>, loaded: Load, joined: seq<Joined>, todo: seq<Bytes>, values: map<Bytes, Option<Bytes>>,
                 stops: nat -> bool, err: Option<nat>)
    requires NoTwice(todo) && multiset(own) + multiset(JoinKeys(joined)) == multiset(todo)
    requires Collected(own, loaded, joined, stops, values, err, false)
    ensures forall k :: k in values ==> k in todo
    ensures forall k, v :: (k in values && values[k] == Some(v)) <==> Computes(own, loaded, joined, k, v)
  {
    hide Computes, Gathered, NoTwice, JoinKeys;
    forall k
      ensures k in values ==> k in todo
      ensures forall v :: (k in values && values[k] == Some(v)) <==> Computes(own, loaded, joined, k, v)
    {
      ComputedIff(own, loaded, joined, todo, values, k);
    }
  }

  lemma AllSettled(s: Sorted, values: map<Bytes, Option<Bytes>>, failed: bool, own: seq<Bytes>, loaded: Load, joined: seq<Joined>,
                   stops: nat -> bool, err: Option<nat>, canceled: bool)
    requires NoTwice(Todo(s)) && multiset(own) + multiset(JoinKeys(joined)) == multiset(Todo(s))
    requires Collected(own, loaded, joined, stops, values, err, canceled) && failed == (canceled || err.Some?)
    ensures forall h :: SettledAs(h, SettleOne(h, values, failed), !failed, own, loaded, joined)
  {
    hide Computes, Collected, NoTwice, JoinKeys, SettledAs, SettleOne;
    if !failed { Computed(own, loaded, joined, Todo(s), values, stops, err); }
    forall h ensures SettledAs(h, SettleOne(h, values, failed), !failed, own, loaded, joined) {
      SettlesAs(h, values, failed, own, loaded, joined);
    }
  }

  lemma CollectedEnds(own: seq<Bytes>, loaded: Load, joined: seq<Joined>, stops: nat -> bool, values: map<Bytes, Option<Bytes>>,
                      err: Option<nat>, canceled: bool)
    requires Collected(own, loaded, joined, stops, values, err, canceled)
    ensures canceled ==> EndsAs(Failure(GaveUp), own, loaded, joined, stops)
    ensures !canceled && err.Some? ==> EndsAs(Failure(LoadFailed(err.value)), own, loaded, joined, stops)
    ensures forall found :: !canceled && err.None? ==> EndsAs(Values(found), own, loaded, joined, stops)
  {
    hide FirstError, Gathered;
  }

  lemma AnswersAsked(s: Sorted, all: map<Bytes, Bytes>, values: map<Bytes, Option<Bytes>>, keys: seq<Bytes>)
    requires forall k :: k in s.found ==> k in keys
    requires forall k :: k in values ==> k in Todo(s)
    requires forall k :: k in Todo(s) ==> k in keys && k !in s.found
    requires forall k :: k in all ==> k in s.found || k in values
    ensures forall k :: k in all ==> k in keys
  {
    hide Todo;
  }
}
