// The optimistic loops of update.go, run against the server of Store while any
// number of other clients interleave with them.
module Coordination {
  import opened Protocol
  import opened Builders
  import opened Results
  import opened Store

  // How a command fares: answered, never executed, or executed with its reply
  // lost.
  datatype Fate = Answered | LostBefore | LostAfter

  // One client's view of a shared server. Before its n-th command the others do
  // whatever others(n) holds. trace and events are the server's history; mine
  // says which of the events are this client's.
  class Session {
    var s: Server
    var n: nat
    ghost var trace: seq<Server>
    ghost var events: seq<Event>
    ghost var mine: set<nat>
    const others: nat -> seq<Event>
    const fate: nat -> Fate
    const ttl: nat -> int

    ghost predicate Valid()
      reads this
    {
      && |trace| == |events| + 1 && Run(trace, events) && s == trace[|events|] && Sound(trace[0])
      && forall m :: m in mine ==> m < |events|
    }

    constructor (s: Server, others: nat -> seq<Event>, fate: nat -> Fate, ttl: nat -> int)
      requires Sound(s)
      ensures Valid() && trace == [s] && events == [] && mine == {}
      ensures this.others == others && this.fate == fate && this.ttl == ttl
    {
      this.s, this.n, this.others, this.fate, this.ttl := s, 0, others, fate, ttl;
      this.trace, this.events, this.mine := [s], [], {};
    }

    method Happen(e: Event)
      requires Valid()
      modifies `s, `trace, `events
      ensures Valid() && trace == old(trace) + [s] && events == old(events) + [e]
    {
      s := Next(s, e);
      Longer(trace, events, e);
      trace := trace + [s];
      events := events + [e];
    }

    // One command of this client: the others first, then, unless it is lost on
    // the way, the command itself.
    method Call(e: Event) returns (reply: Option<RawResponse>)
      requires Valid()
      modifies `s, `n, `trace, `events, `mine
      ensures Valid() && old(trace) <= trace && old(events) <= events && n == old(n) + 1
      ensures mine == old(mine) || (events != [] && mine == old(mine) + {|events| - 1})
      ensures |events| - 1 in mine && |events| - 1 !in old(mine) ==> |events| > |old(events)| && events[|events| - 1] == e
      ensures reply.Some? ==>
        && |events| > |old(events)| && events[|events| - 1] == e && mine == old(mine) + {|events| - 1}
        && reply.value == Reply(trace[|events| - 1], e, ttl(old(n)))
    {
      var ahead := others(n);
      for i := 0 to |ahead|
        invariant Valid() && old(trace) <= trace && old(events) <= events && mine == old(mine)
        invariant n == old(n)
      {
        Happen(ahead[i]);
      }
      reply := None;
      var f := fate(n);
      if !f.LostBefore? {
        var left := ttl(n);
        if f.Answered? { reply := Some(Reply(s, e, left)); }
        ghost var before := s;
        Happen(e);
        assert trace[|events| - 1] == before;
        mine := mine + {|events| - 1};
      }
      n := n + 1;
    }
  }

  lemma Longer(trace: seq<Server>, events: seq<Event>, e: Event)
    requires Run(trace, events)
    ensures Run(trace + [Next(trace[|events|], e)], events + [e])
  {
    hide Next;
    var trace', events' := trace + [Next(trace[|events|], e)], events + [e];
    forall i | 0 <= i < |events'| ensures Step(trace'[i], events'[i], trace'[i + 1]) {
      if i < |events| { assert Step(trace[i], events[i], trace[i + 1]); }
    }
  }

  // ---- what a read tells ----

  // baseReadOptions (get.go:35-37).
  const BASE := GetOptions(false, true, true, false, false, false, false, false, None, None, None, None, None, false, [])

  function ReadOf(key: Bytes): Event { Read(key, false, false, false) }

  // What update's fn is applied to: the value, unless it is absent, stale or
  // empty.
  function View(s: Server, key: Bytes): Option<Bytes> {
    if key in s.entries && !s.entries[key].stale && s.entries[key].value != [] then Some(s.entries[key].value) else None
  }

  lemma ReadSays(s: Server, key: Bytes, ttl: int)
    ensures
      var answer := SemanticGet(key, BASE, Reply(s, ReadOf(key), ttl));
      if key in s.entries then
        && answer.GetAnswer? && answer.status == GetHit && answer.value == Some(s.entries[key].value)
        && answer.meta.cas == Some(s.entries[key].cas) && answer.meta.ttl == Some(ttl)
        && (answer.state == ValueFresh <==> !s.entries[key].stale)
        && (answer.state == ValueStale <==> s.entries[key].stale)
        && (answer.state == ValueStale && answer.lease == LeaseGranted <==> s.entries[key].stale && !s.entries[key].sent)
      else
        answer.GetAnswer? && answer.status == GetMiss && answer.meta.cas.None? && answer.lease == LeaseNone
        && answer.state == ValueMissing && answer.value.None?
  {
  }

  // ---- attempts ----

  // A read and the conditional write or delete that followed it.
  datatype Attempt = Attempt(read: nat, write: nat)

  predicate Conditional(e: Event, key: Bytes) {
    e.key == key && (e.Write? || (e.Remove? && !e.invalidate))
  }

  predicate Applies(s: Server, e: Event) {
    match e
    case Write(_, _, _, _, _) => WriteCode(s, e) == HD
    case Remove(_, _, _) => RemoveCode(s, e) == HD
    case _ => false
  }

  // An attempt of this client that lost: its write was refused, because another
  // client hit the key between its read and its write.
  ghost predicate Beaten(trace: seq<Server>, events: seq<Event>, mine: set<nat>, a: Attempt, key: Bytes) {
    && a.read < a.write < |events| && |trace| == |events| + 1 && a.read in mine && a.write in mine
    && events[a.read] == ReadOf(key) && Conditional(events[a.write], key)
    && !Applies(trace[a.write], events[a.write])
    && exists m :: a.read < m < a.write && m !in mine && Hits(trace[m], events[m], key)
  }

  // Nothing of this client's own comes between the read and the write.
  ghost predicate Apart(mine: set<nat>, read: nat, write: nat) {
    forall m :: read < m < write ==> m !in mine
  }

  lemma BeatenStays(trace: seq<Server>, events: seq<Event>, mine: set<nat>, trace': seq<Server>, events': seq<Event>,
                    mine': set<nat>, a: Attempt, key: Bytes)
    requires Beaten(trace, events, mine, a, key) && trace <= trace' && events <= events' && |trace'| == |events'| + 1
    requires mine <= mine' && forall m :: m in mine' && m !in mine ==> m >= |events|
    ensures Beaten(trace', events', mine', a, key)
  {
    hide Hits;
    var m :| a.read < m < a.write && m !in mine && Hits(trace[m], events[m], key);
    assert trace'[m] == trace[m] && events'[m] == events[m];
  }

  lemma {:induction false} SomethingHit(ss: seq<Server>, es: seq<Event>, i: nat, j: nat, key: Bytes) returns (m: nat)
    requires Run(ss, es) && i <= j < |ss| && Sound(ss[i]) && CasAt(ss[i], key) != CasAt(ss[j], key)
    ensures i <= m < j && Hits(ss[m], es[m], key)
    decreases j
  {
    RunSound(ss, es, i, j - 1);
    assert Step(ss[j - 1], es[j - 1], ss[j]);
    HitIff(ss[j - 1], es[j - 1], key);
    if CasAt(ss[j - 1], key) == CasAt(ss[j], key) {
      m := SomethingHit(ss, es, i, j - 1, key);
    } else {
      m := j - 1;
    }
  }

  lemma ReadKeepsCas(s: Server, key: Bytes)
    ensures CasAt(Next(s, ReadOf(key)), key) == CasAt(s, key)
    ensures View(Next(s, ReadOf(key)), key) == View(s, key)
  {
  }

  // The write of update, made from what its read saw.
  function WriteFor(key: Bytes, value: Bytes, cas: Option<nat>): Event {
    Write(key, value, if cas.Some? then ModeSet else ModeAdd, cas, false)
  }

  // A refused write was beaten; an accepted one finds the key as its read saw it.
  lemma UpdateWrite(ss: seq<Server>, es: seq<Event>, mine: set<nat>, read: nat, write: nat, key: Bytes, value: Bytes)
    requires Run(ss, es) && Sound(ss[0]) && read < write < |es| && read in mine && write in mine && Apart(mine, read, write)
    requires es[read] == ReadOf(key) && es[write] == WriteFor(key, value, CasAt(ss[read], key))
    ensures WriteCode(ss[write], es[write]) == HD ==>
      CasAt(ss[write], key) == CasAt(ss[read], key) && View(ss[write], key) == View(ss[read], key)
    ensures WriteCode(ss[write], es[write]) != HD ==> Beaten(ss, es, mine, Attempt(read, write), key)
  {
    hide Sound, Next, Hits;
    RunSound(ss, es, 0, read);
    RunSound(ss, es, read, read + 1);
    assert Step(ss[read], es[read], ss[read + 1]);
    ReadKeepsCas(ss[read], key);
    if CasAt(ss[write], key) == CasAt(ss[read], key) {
      if key in ss[read].entries { SameCasIffUntouched(ss, es, read + 1, write, key); }
    } else {
      var m := SomethingHit(ss, es, read + 1, write, key);
    }
  }

  // ---- update ----

  datatype Updated = Stored(value: Bytes) | Aborted | EmptyValue | Conflict | Broken

  const ATTEMPTS := 8

  // This client's own commands since from changed nothing, except perhaps the
  // last one.
  ghost predicate OnlyTried(trace: seq<Server>, events: seq<Event>, mine: set<nat>, from: nat, upto: nat)
    requires |trace| == |events| + 1
  {
    forall m :: m in mine && from <= m < upto && m < |events| ==>
      events[m].Read? || (Conditional(events[m], events[m].key) && !Applies(trace[m], events[m]))
  }

  // Where the retry loop stands: every attempt so far was beaten, one after the
  // other, and nothing this client sent has changed anything.
  ghost predicate Going(trace: seq<Server>, events: seq<Event>, mine: set<nat>, from: nat, attempts: seq<Attempt>, key: Bytes) {
    && |trace| == |events| + 1 && from <= |events|
    && (forall m :: m in mine ==> m < |events|)
    && OnlyTried(trace, events, mine, from, |events|)
    && (forall a :: 0 <= a < |attempts| ==> from <= attempts[a].read && Beaten(trace, events, mine, attempts[a], key))
    && (forall a, b :: 0 <= a < b < |attempts| ==> attempts[a].write < attempts[b].read)
  }

  // One more command of this client that changed nothing.
  lemma GoingOn(trace: seq<Server>, events: seq<Event>, mine: set<nat>, from: nat, attempts: seq<Attempt>, key: Bytes,
                trace': seq<Server>, events': seq<Event>, mine': set<nat>)
    requires Going(trace, events, mine, from, attempts, key)
    requires trace <= trace' && events <= events' && |trace'| == |events'| + 1
    requires mine' == mine || (events' != [] && mine' == mine + {|events'| - 1})
    requires |events'| - 1 in mine' && |events'| - 1 !in mine ==>
      && |events'| > |events|
      && var e := events'[|events'| - 1];
         (e.Read? || (Conditional(e, e.key) && !Applies(trace'[|events'| - 1], e)))
    ensures Going(trace', events', mine', from, attempts, key)
  {
    hide Beaten, Conditional, Applies;
    forall a | 0 <= a < |attempts| ensures from <= attempts[a].read && Beaten(trace', events', mine', attempts[a], key) {
      BeatenStays(trace, events, mine, trace', events', mine', attempts[a], key);
    }
    forall m | m in mine' && from <= m < |events'|
      ensures events'[m].Read? || (Conditional(events'[m], events'[m].key) && !Applies(trace'[m], events'[m]))
    {
      if m in mine {
        assert events'[m] == events[m] && trace'[m] == trace[m];
      }
    }
  }

  lemma OneMoreAttempt(trace: seq<Server>, events: seq<Event>, mine: set<nat>, from: nat, attempts: seq<Attempt>, key: Bytes,
                       a: Attempt)
    requires Going(trace, events, mine, from, attempts, key) && Beaten(trace, events, mine, a, key) && from <= a.read
    requires forall b :: 0 <= b < |attempts| ==> attempts[b].write < a.read
    ensures Going(trace, events, mine, from, attempts + [a], key)
  {
    hide Beaten, OnlyTried;
  }

  lemma GoingStart(trace: seq<Server>, events: seq<Event>, mine: set<nat>, key: Bytes)
    requires |trace| == |events| + 1 && forall m :: m in mine ==> m < |events|
    ensures Going(trace, events, mine, |events|, [], key)
  {
  }

  // A conflict after n attempts means n changes by other clients, one inside each
  // attempt, one after the other.
  lemma {:induction false} OtherChanges(trace: seq<Server>, events: seq<Event>, mine: set<nat>, from: nat,
                                        attempts: seq<Attempt>, key: Bytes) returns (changes: seq<nat>)
    requires Going(trace, events, mine, from, attempts, key)
    ensures |changes| == |attempts|
    ensures forall i :: 0 <= i < |changes| ==>
      && from <= attempts[i].read < changes[i] < attempts[i].write < |events| && changes[i] !in mine
      && Hits(trace[changes[i]], events[changes[i]], key)
    ensures forall i, j :: 0 <= i < j < |changes| ==> changes[i] < changes[j]
  {
    hide Hits, OnlyTried;
    changes := [];
    if attempts != [] {
      var n := |attempts| - 1;
      var last := attempts[n];
      assert Beaten(trace, events, mine, last, key);
      var m :| last.read < m < last.write && m !in mine && Hits(trace[m], events[m], key);
      changes := OtherChanges(trace, events, mine, from, attempts[..n], key);
      changes := changes + [m];
    }
  }

  // update's write, once it was accepted: the stored bytes are fn of what the key
  // held at that very moment.
  ghost predicate Linearized(trace: seq<Server>, events: seq<Event>, mine: set<nat>, from: nat, key: Bytes,
                             fn: Option<Bytes> -> Option<Bytes>, value: Bytes)
  {
    && |trace| == |events| + 1 && events != []
    && var w := |events| - 1;
    && from <= w && w in mine
    && events[w].Write? && events[w].key == key && events[w].value == value
    && Applies(trace[w], events[w])
    && value != [] && fn(View(trace[w], key)) == Some(value)
    && key in trace[w + 1].entries && trace[w + 1].entries[key].value == value && !trace[w + 1].entries[key].stale
    && OnlyTried(trace, events, mine, from, w)
  }

  lemma WriteLinearizes(trace: seq<Server>, events: seq<Event>, mine: set<nat>, trace': seq<Server>, events': seq<Event>,
                        mine': set<nat>, from: nat, attempts: seq<Attempt>, key: Bytes,
                        fn: Option<Bytes> -> Option<Bytes>, read: nat, value: Bytes)
    requires Going(trace, events, mine, from, attempts, key)
    requires trace <= trace' && events <= events' && Run(trace', events') && Sound(trace'[0])
    requires |events'| > |events| && mine' == mine + {|events'| - 1}
    requires from <= read == |events| - 1 && read in mine && events[read] == ReadOf(key)
    requires value != [] && fn(View(trace[read], key)) == Some(value)
    requires events'[|events'| - 1] == WriteFor(key, value, CasAt(trace[read], key))
    requires WriteCode(trace'[|events'| - 1], events'[|events'| - 1]) == HD
    ensures Linearized(trace', events', mine', from, key, fn, value)
  {
    hide Sound, Beaten;
    var w := |events'| - 1;
    assert trace'[read] == trace[read] && events'[read] == events[read];
    UpdateWrite(trace', events', mine', read, w, key, value);
    assert Step(trace'[w], events'[w], trace'[w + 1]);
    forall m | m in mine' && from <= m < w
      ensures events'[m].Read? || (Conditional(events'[m], events'[m].key) && !Applies(trace'[m], events'[m]))
    {
      assert events'[m] == events[m] && trace'[m] == trace[m];
    }
  }

  // returnStaleWin (get.go:59-82), when its goroutine gets to run.
  method ReturnStaleWin(session: Session, key: Bytes, answer: Answer)
    requires session.Valid() && answer.GetAnswer?
    modifies session
    ensures session.Valid() && old(session.trace) <= session.trace && old(session.events) <= session.events
    ensures session.mine == old(session.mine) || (session.events != [] && session.mine == old(session.mine) + {|session.events| - 1})
    ensures |session.events| - 1 in session.mine && |session.events| - 1 !in old(session.mine) ==>
      |session.events| > |old(session.events)| && session.events[|session.events| - 1] == Remove(key, answer.meta.cas, true)
    ensures answer.meta.cas.None? || answer.meta.ttl.None? ==> session.events == old(session.events)
  {
    if answer.meta.cas.None? || answer.meta.ttl.None? { return; }
    var reply := session.Call(Remove(key, answer.meta.cas, true));
  }

  // A call that gave up may only have handed a token back.
  ghost predicate OnlyHandedBack(trace: seq<Server>, events: seq<Event>, mine: set<nat>, from: nat) {
    && |trace| == |events| + 1
    && forall m :: m in mine && from <= m < |events| ==>
         || events[m].Read? || (Conditional(events[m], events[m].key) && !Applies(trace[m], events[m]))
         || (events[m].Remove? && events[m].invalidate && events[m].compare.Some?)
  }

  lemma HandedBack(trace: seq<Server>, events: seq<Event>, mine: set<nat>, from: nat, attempts: seq<Attempt>, key: Bytes,
                   trace': seq<Server>, events': seq<Event>, mine': set<nat>)
    requires Going(trace, events, mine, from, attempts, key)
    requires trace <= trace' && events <= events' && |trace'| == |events'| + 1
    requires mine' == mine || (events' != [] && mine' == mine + {|events'| - 1})
    requires |events'| - 1 in mine' && |events'| - 1 !in mine ==>
      var e := events'[|events'| - 1]; |events'| > |events| && e.Remove? && e.invalidate && e.compare.Some?
    ensures OnlyHandedBack(trace', events', mine', from)
  {
    hide Beaten, Applies;
    forall m | m in mine && from <= m < |events'| ensures events'[m] == events[m] && trace'[m] == trace[m] {
    }
  }

  lemma WriteBeaten(trace: seq<Server>, events: seq<Event>, mine: set<nat>, trace': seq<Server>, events': seq<Event>,
                    mine': set<nat>, from: nat, attempts: seq<Attempt>, key: Bytes, read: nat, value: Bytes)
    requires Going(trace, events, mine, from, attempts, key)
    requires trace <= trace' && events <= events' && Run(trace', events') && Sound(trace'[0])
    requires |events'| > |events| && mine' == mine + {|events'| - 1}
    requires from <= read == |events| - 1 && read in mine && events[read] == ReadOf(key)
    requires forall b :: 0 <= b < |attempts| ==> attempts[b].write < read
    requires events'[|events'| - 1] == WriteFor(key, value, CasAt(trace[read], key))
    requires WriteCode(trace'[|events'| - 1], events'[|events'| - 1]) != HD
    ensures Going(trace', events', mine', from, attempts + [Attempt(read, |events'| - 1)], key)
  {
    hide Sound, Beaten, OnlyTried, CasAt, Step, WriteCode;
    var w := |events'| - 1;
    assert trace'[read] == trace[read] && events'[read] == events[read];
    UpdateWrite(trace', events', mine', read, w, key, value);
    GoingOn(trace, events, mine, from, attempts, key, trace', events', mine') by { Refused(trace'[w], events'[w]); }
    OneMoreAttempt(trace', events', mine', from, attempts, key, Attempt(read, w));
  }

  lemma Refused(s: Server, e: Event)
    requires e.Write? && WriteCode(s, e) != HD
    ensures Conditional(e, e.key) && !Applies(s, e)
  {
  }

  lemma NewestRead(trace: seq<Server>, events: seq<Event>, mine: set<nat>, from: nat, attempts: seq<Attempt>, key: Bytes)
    requires Going(trace, events, mine, from, attempts, key)
    ensures forall b :: 0 <= b < |attempts| ==> attempts[b].write < |events|
  {
    hide OnlyTried;
  }

  // What update hands to fn, and what it will compare with (update.go:71-81).
  function CurrentOf(answer: Answer): Option<Bytes>
    requires answer.GetAnswer?
  {
    if answer.status == GetHit && answer.state == ValueFresh && answer.value.Some? && answer.value.value != []
    then answer.value else None
  }

  function CompareOf(answer: Answer): Option<nat>
    requires answer.GetAnswer?
  {
    if answer.status == GetHit then answer.meta.cas else None
  }

  // The read of one turn.
  method ReadKey(session: Session, key: Bytes, ghost from: nat, ghost attempts: seq<Attempt>) returns (answer: Option<Answer>)
    requires session.Valid() && Going(session.trace, session.events, session.mine, from, attempts, key)
    modifies session
    ensures session.Valid() && old(session.trace) <= session.trace && old(session.events) <= session.events
    ensures answer.Some? ==>
      && answer.value.GetAnswer? && session.events != []
      && var read := |session.events| - 1;
      && from <= read && read in session.mine && session.events[read] == ReadOf(key)
      && Going(session.trace, session.events, session.mine, from, attempts, key)
      && (forall b :: 0 <= b < |attempts| ==> attempts[b].write < read)
      && CurrentOf(answer.value) == View(session.trace[read], key) && CompareOf(answer.value) == CasAt(session.trace[read], key)
      && answer.value == SemanticGet(key, BASE, Reply(session.trace[read], ReadOf(key), session.ttl(old(session.n))))
  {
    hide Run, Sound, Going, Beaten, OnlyTried, SemanticGet, Reply, Next;
    ghost var t0, e0, m0 := session.trace, session.events, session.mine;
    NewestRead(t0, e0, m0, from, attempts, key);
    StartsBefore(t0, e0, m0, from, attempts, key);
    var n := session.n;
    var reply := session.Call(ReadOf(key));
    if reply.None? { return None; }
    GoingOn(t0, e0, m0, from, attempts, key, session.trace, session.events, session.mine);
    ReadSays(session.trace[|session.events| - 1], key, session.ttl(n));
    answer := Some(SemanticGet(key, BASE, reply.value));
  }

  // The write of one turn: stored, or beaten since its read.
  method WriteNext(session: Session, key: Bytes, value: Bytes, compare: Option<nat>, fn: Option<Bytes> -> Option<Bytes>,
                   ghost from: nat, ghost attempts: seq<Attempt>)
    returns (r: Updated, ghost attempts': seq<Attempt>)
    requires session.Valid() && Going(session.trace, session.events, session.mine, from, attempts, key) && session.events != []
    requires
      var read := |session.events| - 1;
      && from <= read && read in session.mine && session.events[read] == ReadOf(key) && (forall b :: 0 <= b < |attempts| ==> attempts[b].write < read)
      && compare == CasAt(session.trace[read], key) && value != [] && fn(View(session.trace[read], key)) == Some(value)
    modifies session
    ensures session.Valid() && old(session.trace) <= session.trace && old(session.events) <= session.events
    ensures r.Stored? || r.Conflict? || r.Broken?
    ensures r.Stored? ==> Linearized(session.trace, session.events, session.mine, from, key, fn, r.value)
    ensures r.Conflict? ==>
      |attempts'| == |attempts| + 1 && Going(session.trace, session.events, session.mine, from, attempts', key)
  {
    hide Run, Sound, Going, Linearized, Beaten, OnlyTried, SemanticGet, Reply, Next, View, CasAt, WriteCode;
    attempts' := attempts;
    ghost var t1, e1, m1 := session.trace, session.events, session.mine;
    ghost var read := |e1| - 1;
    var n := session.n;
    var reply := session.Call(WriteFor(key, value, compare));
    if reply.None? { return Broken, attempts; }
    ghost var write := |session.events| - 1;
    WriteReply(session.trace[write], session.events[write], session.ttl(n));
    var status := StoreStatus(reply.value.code, if compare.Some? then ModeSet else ModeAdd);
    if status.None? { return Broken, attempts; }
    if status == Some(Applied) {
      WriteLinearizes(t1, e1, m1, session.trace, session.events, session.mine, from, attempts, key, fn, read, value);
      return Stored(value), attempts;
    }
    WriteBeaten(t1, e1, m1, session.trace, session.events, session.mine, from, attempts, key, read, value);
    return Conflict, attempts + [Attempt(read, write)];
  }

  // One turn of update's loop (update.go:57-109). fn gives None where the
  // source's returns an error.
  method TryUpdate(session: Session, key: Bytes, fn: Option<Bytes> -> Option<Bytes>, ghost from: nat, ghost attempts: seq<Attempt>)
    returns (r: Updated, ghost attempts': seq<Attempt>)
    requires session.Valid() && Going(session.trace, session.events, session.mine, from, attempts, key)
    modifies session
    ensures session.Valid() && old(session.trace) <= session.trace && old(session.events) <= session.events
    ensures r.Stored? ==> Linearized(session.trace, session.events, session.mine, from, key, fn, r.value)
    ensures r.Conflict? ==>
      |attempts'| == |attempts| + 1 && Going(session.trace, session.events, session.mine, from, attempts', key)
    ensures r.Aborted? || r.EmptyValue? ==> OnlyHandedBack(session.trace, session.events, session.mine, from)
  {
    hide Run, Sound, Going, Linearized, Beaten, OnlyTried, OnlyHandedBack, SemanticGet, Reply, Next, View, CasAt,
      WriteCode;
    var read := ReadKey(session, key, from, attempts);
    if read.None? { return Broken, attempts; }
    var answer := read.value;
    var next := fn(CurrentOf(answer));
    if next.None? || next.value == [] {
      ghost var t1, e1, m1 := session.trace, session.events, session.mine;
      if answer.state == ValueStale && answer.lease == LeaseGranted { ReturnStaleWin(session, key, answer); }
      HandedBack(t1, e1, m1, from, attempts, key, session.trace, session.events, session.mine);
      return (if next.None? then Aborted else EmptyValue), attempts;
    }
    r, attempts' := WriteNext(session, key, next.value, CompareOf(answer), fn, from, attempts);
  }

  lemma StartsBefore(trace: seq<Server>, events: seq<Event>, mine: set<nat>, from: nat, attempts: seq<Attempt>, key: Bytes)
    requires Going(trace, events, mine, from, attempts, key)
    ensures from <= |events|
  {
  }

  lemma WriteReply(s: Server, e: Event, ttl: int)
    requires e.Write?
    ensures Reply(s, e, ttl).code == WriteCode(s, e)
  {
  }

  // update (update.go:51-112).
  method Update(session: Session, key: Bytes, fn: Option<Bytes> -> Option<Bytes>) returns (r: Updated, ghost attempts: seq<Attempt>)
    requires session.Valid()
    modifies session
    ensures session.Valid() && old(session.trace) <= session.trace && old(session.events) <= session.events
    ensures r.Stored? ==> Linearized(session.trace, session.events, session.mine, |old(session.events)|, key, fn, r.value)
    ensures r.Conflict? ==>
      |attempts| == ATTEMPTS && Going(session.trace, session.events, session.mine, |old(session.events)|, attempts, key)
    ensures r.Aborted? || r.EmptyValue? ==> OnlyHandedBack(session.trace, session.events, session.mine, |old(session.events)|)
  {
    ghost var from := |session.events|;
    attempts := [];
    GoingStart(session.trace, session.events, session.mine, key);
    for attempt := 0 to ATTEMPTS
      invariant session.Valid() && old(session.trace) <= session.trace && old(session.events) <= session.events
      invariant |attempts| == attempt && Going(session.trace, session.events, session.mine, from, attempts, key)
    {
      hide Going, Linearized, OnlyHandedBack;
      r, attempts := TryUpdate(session, key, fn, from, attempts);
      if !r.Conflict? { return; }
    }
    r := Conflict;
  }

  // ---- take ----

  datatype TakeResult = Taken(value: Bytes) | Nothing | TakeConflict | TakeBroken

  lemma TakeRemove(ss: seq<Server>, es: seq<Event>, mine: set<nat>, read: nat, write: nat, key: Bytes)
    requires Run(ss, es) && Sound(ss[0]) && read < write < |es| && key in ss[read].entries
    requires read in mine && write in mine && Apart(mine, read, write)
    requires es[read] == ReadOf(key) && es[write] == Remove(key, CasAt(ss[read], key), false)
    ensures RemoveCode(ss[write], es[write]) == HD ==>
      key in ss[write].entries && ss[write].entries[key].value == ss[read].entries[key].value
    ensures RemoveCode(ss[write], es[write]) != HD ==> Beaten(ss, es, mine, Attempt(read, write), key)
  {
    hide Sound, Next, Hits;
    RunSound(ss, es, 0, read);
    RunSound(ss, es, read, read + 1);
    assert Step(ss[read], es[read], ss[read + 1]);
    ReadKeepsValue(ss[read], key);
    if CasAt(ss[write], key) == CasAt(ss[read], key) {
      SameCasIffUntouched(ss, es, read + 1, write, key);
    } else {
      var m := SomethingHit(ss, es, read + 1, write, key);
    }
  }

  lemma ReadKeepsValue(s: Server, key: Bytes)
    requires key in s.entries
    ensures
      var s' := Next(s, ReadOf(key));
      key in s'.entries && s'.entries[key].value == s.entries[key].value && s'.entries[key].cas == s.entries[key].cas
  {
  }

  // Take's delete, once it was accepted: it removed exactly the bytes it returns.
  ghost predicate TookAll(trace: seq<Server>, events: seq<Event>, mine: set<nat>, from: nat, key: Bytes, value: Bytes) {
    && |trace| == |events| + 1 && events != []
    && var w := |events| - 1;
    && from <= w && w in mine && events[w].Remove? && events[w].key == key && !events[w].invalidate
    && value != [] && key in trace[w].entries && trace[w].entries[key].value == value
    && key !in trace[w + 1].entries
    && OnlyTried(trace, events, mine, from, w)
  }

  lemma RemoveTakes(trace: seq<Server>, events: seq<Event>, mine: set<nat>, trace': seq<Server>, events': seq<Event>,
                    mine': set<nat>, from: nat, attempts: seq<Attempt>, key: Bytes, read: nat)
    requires Going(trace, events, mine, from, attempts, key)
    requires trace <= trace' && events <= events' && Run(trace', events') && Sound(trace'[0])
    requires |events'| > |events| && mine' == mine + {|events'| - 1}
    requires from <= read == |events| - 1 && read in mine && events[read] == ReadOf(key) && key in trace[read].entries
    requires forall b :: 0 <= b < |attempts| ==> attempts[b].write < read
    requires events'[|events'| - 1] == Remove(key, CasAt(trace[read], key), false)
    ensures RemoveCode(trace'[|events'| - 1], events'[|events'| - 1]) == HD && trace[read].entries[key].value != [] ==>
      TookAll(trace', events', mine', from, key, trace[read].entries[key].value)
    ensures RemoveCode(trace'[|events'| - 1], events'[|events'| - 1]) != HD ==>
      Going(trace', events', mine', from, attempts + [Attempt(read, |events'| - 1)], key)
  {
    hide Sound, Beaten;
    var w := |events'| - 1;
    assert trace'[read] == trace[read] && events'[read] == events[read];
    TakeRemove(trace', events', mine', read, w, key);
    assert Step(trace'[w], events'[w], trace'[w + 1]);
    if RemoveCode(trace'[w], events'[w]) == HD {
      forall m | m in mine' && from <= m < w
        ensures events'[m].Read? || (Conditional(events'[m], events'[m].key) && !Applies(trace'[m], events'[m]))
      {
        assert events'[m] == events[m] && trace'[m] == trace[m];
      }
    } else {
      hide OnlyTried, Step, Run, CasAt;
      GoingOn(trace, events, mine, from, attempts, key, trace', events', mine');
      OneMoreAttempt(trace', events', mine', from, attempts, key, Attempt(read, w));
    }
  }

  // The delete of one turn.
  method RemoveRead(session: Session, key: Bytes, value: Bytes, cas: nat, ghost from: nat, ghost attempts: seq<Attempt>)
    returns (r: TakeResult, ghost attempts': seq<Attempt>)
    requires session.Valid() && Going(session.trace, session.events, session.mine, from, attempts, key) && session.events != []
    requires
      var read := |session.events| - 1;
      && from <= read && read in session.mine && session.events[read] == ReadOf(key) && (forall b :: 0 <= b < |attempts| ==> attempts[b].write < read)
      && key in session.trace[read].entries && session.trace[read].entries[key].value == value && value != []
      && CasAt(session.trace[read], key) == Some(cas)
    modifies session
    ensures session.Valid() && old(session.trace) <= session.trace && old(session.events) <= session.events
    ensures r.Taken? ==> r.value == value && TookAll(session.trace, session.events, session.mine, from, key, value)
    ensures r.TakeConflict? ==>
      |attempts'| == |attempts| + 1 && Going(session.trace, session.events, session.mine, from, attempts', key)
    ensures !r.Nothing?
  {
    hide Run, Sound, Going, TookAll, Beaten, OnlyTried, Reply, Next, CasAt, RemoveCode;
    attempts' := attempts;
    ghost var t1, e1, m1 := session.trace, session.events, session.mine;
    ghost var read := |e1| - 1;
    var n := session.n;
    var reply := session.Call(Remove(key, Some(cas), false));
    if reply.None? { return TakeBroken, attempts; }
    ghost var write := |session.events| - 1;
    RemoveReply(session.trace[write], session.events[write], session.ttl(n));
    RemoveTakes(t1, e1, m1, session.trace, session.events, session.mine, from, attempts, key, read);
    var status := DeleteStatus(reply.value.code);
    if status.None? { return TakeBroken, attempts; }
    if status == Some(Applied) { return Taken(value), attempts; }
    return TakeConflict, attempts + [Attempt(read, write)];
  }

  lemma RemoveReply(s: Server, e: Event, ttl: int)
    requires e.Remove?
    ensures Reply(s, e, ttl).code == RemoveCode(s, e)
  {
  }

  lemma HitSays(s: Server, key: Bytes, ttl: int)
    ensures
      var answer := SemanticGet(key, BASE, Reply(s, ReadOf(key), ttl));
      answer.GetAnswer? &&
      if answer.status == GetHit && answer.value.Some? && answer.value.value != [] then
        && key in s.entries && s.entries[key].value == answer.value.value && answer.meta.cas == Some(s.entries[key].cas)
        && CasAt(s, key) == answer.meta.cas
      else EmptyAt(s, key)
  {
    ReadSays(s, key, ttl);
  }

  // Take found nothing: at its last read the key was absent or empty.
  ghost predicate NothingThere(trace: seq<Server>, events: seq<Event>, from: nat, key: Bytes) {
    && |trace| == |events| + 1
    && exists read :: from <= read < |events| && events[read] == ReadOf(key) && EmptyAt(trace[read], key)
  }

  ghost predicate EmptyAt(s: Server, key: Bytes) { key !in s.entries || s.entries[key].value == [] }

  // One turn of Take's loop (update.go:122-161).
  method TryTake(session: Session, key: Bytes, ghost from: nat, ghost attempts: seq<Attempt>)
    returns (r: TakeResult, ghost attempts': seq<Attempt>)
    requires session.Valid() && Going(session.trace, session.events, session.mine, from, attempts, key)
    modifies session
    ensures session.Valid() && old(session.trace) <= session.trace && old(session.events) <= session.events
    ensures r.Taken? ==> TookAll(session.trace, session.events, session.mine, from, key, r.value)
    ensures r.Nothing? ==>
      NothingThere(session.trace, session.events, from, key) && OnlyHandedBack(session.trace, session.events, session.mine, from)
    ensures r.TakeConflict? ==>
      |attempts'| == |attempts| + 1 && Going(session.trace, session.events, session.mine, from, attempts', key)
  {
    hide Run, Sound, Going, TookAll, OnlyHandedBack, SemanticGet, Reply, CasAt, EmptyAt;
    var n := session.n;
    var read := ReadKey(session, key, from, attempts);
    if read.None? { return TakeBroken, attempts; }
    var answer := read.value;
    ghost var t1, e1, m1 := session.trace, session.events, session.mine;
    HitSays(t1[|e1| - 1], key, session.ttl(n));
    if answer.status != GetHit || answer.value.None? || answer.value.value == [] {
      if answer.state == ValueStale && answer.lease == LeaseGranted { ReturnStaleWin(session, key, answer); }
      HandedBack(t1, e1, m1, from, attempts, key, session.trace, session.events, session.mine);
      assert session.events[|e1| - 1] == e1[|e1| - 1] && session.trace[|e1| - 1] == t1[|e1| - 1];
      return Nothing, attempts;
    }
    if answer.meta.cas.None? { return TakeBroken, attempts; }
    r, attempts' := RemoveRead(session, key, answer.value.value, answer.meta.cas.value, from, attempts);
  }

  // Take (update.go:120-163).
  method Take(session: Session, key: Bytes) returns (r: TakeResult, ghost attempts: seq<Attempt>)
    requires session.Valid()
    modifies session
    ensures session.Valid() && old(session.trace) <= session.trace && old(session.events) <= session.events
    ensures r.Taken? ==> TookAll(session.trace, session.events, session.mine, |old(session.events)|, key, r.value)
    ensures r.Nothing? ==>
      && NothingThere(session.trace, session.events, |old(session.events)|, key)
      && OnlyHandedBack(session.trace, session.events, session.mine, |old(session.events)|)
    ensures r.TakeConflict? ==>
      |attempts| == ATTEMPTS && Going(session.trace, session.events, session.mine, |old(session.events)|, attempts, key)
  {
    ghost var from := |session.events|;
    attempts := [];
    GoingStart(session.trace, session.events, session.mine, key);
    for attempt := 0 to ATTEMPTS
      invariant session.Valid() && old(session.trace) <= session.trace && old(session.events) <= session.events
      invariant |attempts| == attempt && Going(session.trace, session.events, session.mine, from, attempts, key)
    {
      hide Going, TookAll, OnlyHandedBack, NothingThere;
      r, attempts := TryTake(session, key, from, attempts);
      if !r.TakeConflict? { return; }
    }
    r := TakeConflict;
  }
}
