// The critical sections of transport.go as the code writes them, with its loops,
// its in-place filters and its integer offsets. Each is proved to do what the
// event of the same name does in Transport, so the theorems about runs are
// theorems about this code.
module TransportCode {
  import opened Protocol
  import opened Transport
  import opened TransportInvariant
  import opened TransportSteps

  // ---- offsets ----

  function Total(cfg: Config, batch: seq<Id>): nat {
    if batch == [] then 0 else Len(cfg, batch[0]) + Total(cfg, batch[1..])
  }

  function Buffer(cfg: Config, batch: seq<Id>): (b: Bytes)
    ensures |b| == Total(cfg, batch)
  {
    if batch == [] then [] else cfg.exchange(batch[0]).payload + Buffer(cfg, batch[1..])
  }

  // Where a count of written bytes leaves a flush.
  function Advance(cfg: Config, batch: seq<Id>, written: nat): (f: Flush)
    requires written <= Total(cfg, batch)
    ensures f.batch == batch && f.full <= |batch|
  {
    if batch == [] then Flush(batch, 0, 0)
    else if written < Len(cfg, batch[0]) then Flush(batch, 0, written)
    else
      var rest := Advance(cfg, batch[1..], written - Len(cfg, batch[0]));
      Flush(batch, rest.full + 1, rest.part)
  }

  lemma {:induction false} TotalGrows(cfg: Config, batch: seq<Id>, i: nat)
    requires i < |batch|
    ensures Total(cfg, batch[..i + 1]) == Total(cfg, batch[..i]) + Len(cfg, batch[i])
    ensures Total(cfg, batch[..i + 1]) <= Total(cfg, batch)
  {
    if i > 0 {
      TotalGrows(cfg, batch[1..], i - 1);
      assert batch[..i + 1][1..] == batch[1..][..i];
      assert batch[..i][1..] == batch[1..][..i - 1];
    } else {
      assert batch[..1][1..] == [];
    }
  }

  lemma {:induction false} BufferGrows(cfg: Config, batch: seq<Id>, i: nat)
    requires i < |batch|
    ensures Buffer(cfg, batch[..i + 1]) == Buffer(cfg, batch[..i]) + cfg.exchange(batch[i]).payload
  {
    if i > 0 {
      BufferGrows(cfg, batch[1..], i - 1);
      assert batch[..i + 1][1..] == batch[1..][..i];
      assert batch[..i][1..] == batch[1..][..i - 1];
    } else {
      assert batch[..1][1..] == [];
    }
  }

  // The comparisons flush makes with its end offsets name the requests that are
  // whole on the wire, and the one that is partly there.
  lemma {:induction false} OffsetsClassify(cfg: Config, batch: seq<Id>, written: nat, i: nat)
    requires written <= Total(cfg, batch) && i < |batch|
    ensures
      var f := Advance(cfg, batch, written);
      var start, end := Total(cfg, batch[..i]), Total(cfg, batch[..i + 1]);
      && (written >= end <==> i < f.full)
      && (start < written < end <==> i == f.full && f.part > 0)
      && (i == f.full ==> f.part == written - start)
  {
    TotalGrows(cfg, batch, i);
    if i == 0 {
      assert batch[..1][1..] == [];
    } else if written < Len(cfg, batch[0]) {
      assert batch[..i + 1][0] == batch[0] && batch[..i][0] == batch[0];
    } else {
      OffsetsClassify(cfg, batch[1..], written - Len(cfg, batch[0]), i - 1);
      assert batch[..i + 1][1..] == batch[1..][..i];
      assert batch[..i][1..] == batch[1..][..i - 1];
    }
  }

  // One more byte written is one WriteByte event, and the byte is the next byte
  // of the payload that event names.
  lemma {:induction false} OneMoreByte(cfg: Config, batch: seq<Id>, written: nat)
    requires written < Total(cfg, batch)
    requires forall i :: 0 <= i < |batch| ==> Len(cfg, batch[i]) > 0
    ensures
      var f := Advance(cfg, batch, written);
      && f.full < |batch| && f.part < Len(cfg, batch[f.full])
      && Buffer(cfg, batch)[written] == cfg.exchange(batch[f.full]).payload[f.part]
      && Advance(cfg, batch, written + 1) ==
           (if f.part + 1 < Len(cfg, batch[f.full]) then f.(part := f.part + 1) else f.(full := f.full + 1, part := 0))
  {
    if written < Len(cfg, batch[0]) {
      if written + 1 == Len(cfg, batch[0]) && |batch| > 1 {
        assert Len(cfg, batch[1..][0]) > 0;
      }
    } else {
      OneMoreByte(cfg, batch[1..], written - Len(cfg, batch[0]));
    }
  }

  lemma WriteByteAdvances(cfg: Config, s: State, c: ConnId, batch: seq<Id>, written: nat)
    requires CanStep(cfg, s, WriteByte(c)) && written < Total(cfg, batch)
    requires forall i :: 0 <= i < |batch| ==> Len(cfg, batch[i]) > 0
    requires s.conns[c].writer == Sending(Advance(cfg, batch, written))
    ensures Apply(cfg, s, WriteByte(c)).conns[c].writer == Sending(Advance(cfg, batch, written + 1))
  {
    OneMoreByte(cfg, batch, written);
    hide WellFormed;
  }

  // ---- writing ----

  // The bytes and offsets flush prepares (transport.go:337-346).
  method Assemble(cfg: Config, batch: seq<Id>) returns (buffer: Bytes, ends: seq<nat>)
    ensures buffer == Buffer(cfg, batch)
    ensures |ends| == |batch| && forall i :: 0 <= i < |batch| ==> ends[i] == Total(cfg, batch[..i + 1])
  {
    buffer, ends := [], [];
    for i := 0 to |batch|
      invariant buffer == Buffer(cfg, batch[..i])
      invariant |ends| == i && forall j :: 0 <= j < i ==> ends[j] == Total(cfg, batch[..j + 1])
    {
      BufferGrows(cfg, batch, i);
      buffer := buffer + cfg.exchange(batch[i]).payload;
      ends := ends + [|buffer|];
    }
    assert batch[..|batch|] == batch;
  }

  // What the socket does with the k-th Write: how much it takes and whether it
  // fails.
  datatype Taken = Taken(n: nat, err: Option<Error>)

  // writeAll (transport.go:594-607) with whatever the socket does.
  method WriteAll(data: Bytes, socket: nat -> Taken) returns (wire: Bytes, written: nat, err: Option<Error>)
    ensures written <= |data| && wire == data[..written]
    ensures err.None? ==> written == |data|
    ensures written < |data| ==> err.Some?
    ensures (forall k :: socket(k).n > 0 && socket(k).err.None?) ==> err.None?
  {
    wire, written := [], 0;
    var k: nat := 0;
    while written < |data|
      invariant written <= |data| && wire == data[..written]
    {
      var taken := socket(k);
      var n := if taken.n > |data| - written then |data| - written else taken.n;
      wire := wire + data[written..written + n];
      written := written + n;
      if taken.err.Some? { return wire, written, taken.err; }
      if n == 0 { return wire, written, Some(Wire(1)); }
      k := k + 1;
    }
    err := None;
  }

  // ---- the shared state ----

  // The connections past their idle timeout with nothing outstanding.
  ghost function IdleOf(conns: seq<Conn>, members: seq<ConnId>, stale: set<ConnId>): set<ConnId>
    requires forall j :: 0 <= j < |members| ==> members[j] < |conns|
  {
    set c | c in members && c in stale && Load(conns[c]) == 0
  }

  lemma SameIdle(conns: seq<Conn>, c: ConnId, k': Conn, members: seq<ConnId>, stale: set<ConnId>)
    requires forall j :: 0 <= j < |members| ==> members[j] < |conns|
    requires c < |conns| && Load(k') == Load(conns[c])
    ensures IdleOf(conns[c := k'], members, stale) == IdleOf(conns, members, stale)
  {
    hide Load;
    assert forall j :: j in members ==> j < |conns|;
  }

  // One more turn of pickLocked's loop.
  lemma RetireOneMore(conns: seq<Conn>, members: seq<ConnId>, i: nat, idle: set<ConnId>)
    requires forall j :: 0 <= j < |members| ==> members[j] < |conns|
    requires Distinct(members) && i < |members|
    ensures
      var c := members[i];
      var before := Retire(conns, members[..i], idle);
      && before[c] == conns[c]
      && Retire(conns, members[..i + 1], idle) ==
           (if c in idle && !conns[c].closed then before[c := conns[c].(closed := true)] else before)
  {
    StaysClosed(conns[members[i]]);
    assert members[..i + 1] == members[..i] + [members[i]];
  }

  lemma StaysClosed(k: Conn)
    ensures k.closed ==> k.(closed := true) == k
  {
  }

  lemma SurvivorsOneMore(conns: seq<Conn>, members: seq<ConnId>, i: nat, idle: set<ConnId>)
    requires forall j :: 0 <= j < |members| ==> members[j] < |conns|
    requires i < |members|
    ensures
      var c := members[i];
      Survivors(conns, members[..i + 1], idle) ==
        (if conns[c].closed || c in idle then Survivors(conns, members[..i], idle)
         else Survivors(conns, members[..i], idle) + [c])
  {
    assert members[..i + 1][..i] == members[..i];
  }

  lemma LeastOfMore(conns: seq<Conn>, kept: seq<ConnId>, c: ConnId)
    requires forall i :: 0 <= i < |kept| ==> kept[i] < |conns|
    requires c < |conns|
    ensures
      LeastLoaded(conns, kept + [c]) ==
        if kept == [] || Load(conns[c]) < Load(conns[LeastLoaded(conns, kept)]) then c else LeastLoaded(conns, kept)
  {
    assert (kept + [c])[..|kept|] == kept;
  }

  // pickLocked and the add that follows it, one critical section of the pool.
  function PickAndAdd(cfg: Config, s: State, r: Id, idle: set<ConnId>): State
    requires r < |s.reqs| && forall i :: 0 <= i < |s.members| ==> s.members[i] < |s.conns|
    requires Transport.PickLocked(cfg, s.conns, s.members, idle).best < |Transport.PickLocked(cfg, s.conns, s.members, idle).conns|
  {
    var pick := Transport.PickLocked(cfg, s.conns, s.members, idle);
    var q := s.reqs[r];
    var k := pick.conns[pick.best];
    s.(conns := pick.conns[pick.best := k.(pending := k.pending + [r])], members := pick.members,
       holder := None, reqs := s.reqs[r := q.(place := Pending(pick.best), homes := q.homes + [pick.best])])
  }

  lemma PickAndAddIsEnqueueThenAdd(cfg: Config, s: State, r: Id, stale: set<ConnId>)
    requires ValidConfig(cfg) && Inv(cfg, s) && !s.closed && s.holder.None?
    requires r < |s.reqs| && s.reqs[r].place.Fresh? && s.reqs[r].phase.Queued?
    ensures forall i :: 0 <= i < |s.members| ==> s.members[i] < |s.conns|
    ensures
      var idle := IdleOf(s.conns, s.members, stale);
      var pick := Transport.PickLocked(cfg, s.conns, s.members, idle);
      var e := Enqueue(r, idle);
      && CanStep(cfg, s, e) && CanStep(cfg, Apply(cfg, s, e), Add) && Inv(cfg, Apply(cfg, Apply(cfg, s, e), Add))
      && pick.best < |pick.conns|
      && Apply(cfg, Apply(cfg, s, e), Add) == PickAndAdd(cfg, s, r, idle)
  {
    hide Inv, ValidConfig, Load, Transport.PickLocked, ListsExist, PlaceExists, Owner;
    InvWellFormed(cfg, s);
    var idle := IdleOf(s.conns, s.members, stale);
    var t := Hold(cfg, s, r, idle);
    assert IdleOnly(s, idle);
    assert CanStep(cfg, s, Enqueue(r, idle));
    hide WellFormed, IdleOnly, IdleOf;
    EnqueueStep(cfg, s, r, idle);
    InvWellFormed(cfg, t);
    AddStep(cfg, t);
    AddAfterHold(cfg, s, r, idle);
  }

  lemma AddAfterHold(cfg: Config, s: State, r: Id, idle: set<ConnId>)
    requires r < |s.reqs| && forall i :: 0 <= i < |s.members| ==> s.members[i] < |s.conns|
    requires WellFormed(Hold(cfg, s, r, idle))
    ensures
      var pick := Transport.PickLocked(cfg, s.conns, s.members, idle);
      && pick.best < |pick.conns|
      && ApplyAdd(Hold(cfg, s, r, idle)) == PickAndAdd(cfg, s, r, idle)
  {
    Chosen(cfg, s.conns, s.members, idle);
    hide WellFormed, Transport.PickLocked;
    assert ApplyAdd(Hold(cfg, s, r, idle)).reqs == PickAndAdd(cfg, s, r, idle).reqs;
  }

  // One turn of detach's loop, one critical section of the pool: the next of the
  // list is forgotten, re-homed or failed.
  function Detached(cfg: Config, s: State, c: ConnId, afterFlush: bool, idle: set<ConnId>): State
    requires c < |s.conns| && RehomeList(s.conns[c], afterFlush) != []
    requires RehomeList(s.conns[c], afterFlush)[0] < |s.reqs|
    requires forall i :: 0 <= i < |s.members| ==> s.members[i] < |s.conns|
  {
    var k := s.conns[c];
    var r := RehomeList(k, afterFlush)[0];
    var q := s.reqs[r];
    var conns := s.conns[c := Shortened(k, afterFlush)];
    if !q.phase.Queued? then s.(conns := conns, reqs := s.reqs[r := q.(place := Gone)])
    else if !s.closed && (afterFlush || k.rehome) then
      Chosen(cfg, conns, s.members, idle);
      PickAndAdd(cfg, s.(conns := conns), r, idle)
    else
      s.(conns := conns,
         reqs := s.reqs[r := Complete(q, [], 0, if s.closed then Some(PoolClosed) else k.cause).(place := Gone)])
  }

  function Shortened(k: Conn, afterFlush: bool): Conn
    requires RehomeList(k, afterFlush) != []
  {
    if afterFlush then k.(writer := Rehoming(k.writer.homeless[1..])) else k.(leftover := k.leftover[1..])
  }

  // Such a turn is the event Rehome, and Add after it if a connection was picked.
  lemma DetachedIsRehomeThenAdd(cfg: Config, s: State, c: ConnId, afterFlush: bool, stale: set<ConnId>)
    requires ValidConfig(cfg) && Inv(cfg, s) && s.holder.None?
    requires c < |s.conns| && RehomeList(s.conns[c], afterFlush) != []
    ensures WellFormed(s)
    ensures RehomeList(s.conns[c], afterFlush)[0] < |s.reqs|
    ensures
      var idle := IdleOf(s.conns, s.members, stale);
      var e := Rehome(c, afterFlush, idle);
      var t := ApplyRehome(cfg, s, c, afterFlush, idle);
      && CanStep(cfg, s, e) && Inv(cfg, t) && WellFormed(t)
      && Detached(cfg, s, c, afterFlush, idle) == (if t.holder.Some? then ApplyAdd(t) else t)
  {
    hide Inv, ValidConfig, Load, Transport.PickLocked, PlaceExists, Owner;
    InvWellFormed(cfg, s);
    var idle := IdleOf(s.conns, s.members, stale);
    assert ListsExist(s.reqs, s.conns[c]);
    assert IdleOnly(s, idle);
    assert CanStep(cfg, s, Rehome(c, afterFlush, idle));
    hide WellFormed, IdleOnly, IdleOf, ListsExist;
    RehomeStep(cfg, s, c, afterFlush, idle);
    InvWellFormed(cfg, Apply(cfg, s, Rehome(c, afterFlush, idle)));
    DetachedIs(cfg, s, c, afterFlush, idle);
  }

  lemma DetachedIs(cfg: Config, s: State, c: ConnId, afterFlush: bool, idle: set<ConnId>)
    requires WellFormed(s) && s.holder.None?
    requires c < |s.conns| && RehomeList(s.conns[c], afterFlush) != [] && RehomeList(s.conns[c], afterFlush)[0] < |s.reqs|
    requires WellFormed(ApplyRehome(cfg, s, c, afterFlush, idle))
    ensures
      var t := ApplyRehome(cfg, s, c, afterFlush, idle);
      Detached(cfg, s, c, afterFlush, idle) == (if t.holder.Some? then ApplyAdd(t) else t)
  {
    hide ListsExist, PlaceExists, Transport.PickLocked;
    var k := s.conns[c];
    var r := RehomeList(k, afterFlush)[0];
    var conns := s.conns[c := Shortened(k, afterFlush)];
    Chosen(cfg, conns, s.members, idle);
    var t := ApplyRehome(cfg, s, c, afterFlush, idle);
    if t.holder.Some? {
      assert ApplyAdd(t).reqs == Detached(cfg, s, c, afterFlush, idle).reqs;
    }
  }

  lemma Chosen(cfg: Config, conns: seq<Conn>, members: seq<ConnId>, idle: set<ConnId>)
    requires forall i :: 0 <= i < |members| ==> members[i] < |conns|
    ensures
      var pick := Transport.PickLocked(cfg, conns, members, idle);
      pick.best < |pick.conns|
  {
    var kept := Survivors(conns, members, idle);
    hide Survivors, LeastLoaded, Load, Distinct, Retire;
    assert forall i :: 0 <= i < |kept| ==> kept[i] in kept;
  }

  // Where pickLocked's loop stands after i turns.
  ghost predicate Filtered(was: seq<Conn>, list: seq<ConnId>, i: nat, stale: set<ConnId>,
                           conns: seq<Conn>, kept: seq<ConnId>, best: ConnId, bestLoad: nat)
  {
    && (forall j :: 0 <= j < |list| ==> list[j] < |was|)
    && Distinct(list) && i <= |list|
    && (forall j :: 0 <= j < |kept| ==> kept[j] < |was|)
    && conns == Retire(was, list[..i], IdleOf(was, list, stale))
    && kept == Survivors(was, list[..i], IdleOf(was, list, stale))
    && (kept != [] ==> best == LeastLoaded(was, kept) && bestLoad == Load(was[best]))
  }

  lemma FilterStart(was: seq<Conn>, list: seq<ConnId>, stale: set<ConnId>)
    requires forall j :: 0 <= j < |list| ==> list[j] < |was|
    requires Distinct(list)
    ensures Filtered(was, list, 0, stale, was, [], 0, 0)
  {
  }

  lemma FilterEnd(was: seq<Conn>, list: seq<ConnId>, stale: set<ConnId>,
                  conns: seq<Conn>, kept: seq<ConnId>, best: ConnId, bestLoad: nat)
    requires Filtered(was, list, |list|, stale, conns, kept, best, bestLoad)
    ensures forall j :: 0 <= j < |list| ==> list[j] < |was|
    ensures conns == Retire(was, list, IdleOf(was, list, stale))
    ensures kept == Survivors(was, list, IdleOf(was, list, stale))
    ensures forall i :: 0 <= i < |kept| ==> kept[i] < |was|
    ensures kept != [] ==> best == LeastLoaded(was, kept) && bestLoad == Load(was[best])
  {
    hide Retire, Survivors, LeastLoaded, IdleOf, Load;
    assert list[..|list|] == list;
  }

  lemma TurnExists(was: seq<Conn>, list: seq<ConnId>, i: nat, stale: set<ConnId>,
                   conns: seq<Conn>, kept: seq<ConnId>, best: ConnId, bestLoad: nat)
    requires Filtered(was, list, i, stale, conns, kept, best, bestLoad) && i < |list|
    ensures list[i] < |conns| == |was| && conns[list[i]] == was[list[i]]
    ensures list[i] in IdleOf(was, list, stale) <==> list[i] in stale && Load(was[list[i]]) == 0
  {
    hide Survivors, LeastLoaded, Load;
    RetireOneMore(was, list, i, IdleOf(was, list, stale));
  }

  lemma SkipClosed(was: seq<Conn>, list: seq<ConnId>, i: nat, stale: set<ConnId>,
                   conns: seq<Conn>, kept: seq<ConnId>, best: ConnId, bestLoad: nat)
    requires Filtered(was, list, i, stale, conns, kept, best, bestLoad) && i < |list|
    requires was[list[i]].closed
    ensures Filtered(was, list, i + 1, stale, conns, kept, best, bestLoad)
  {
    hide Retire, Survivors, LeastLoaded, Load, IdleOf, Distinct;
    RetireOneMore(was, list, i, IdleOf(was, list, stale));
    SurvivorsOneMore(was, list, i, IdleOf(was, list, stale));
  }

  lemma DropIdle(was: seq<Conn>, list: seq<ConnId>, i: nat, stale: set<ConnId>,
                 conns: seq<Conn>, kept: seq<ConnId>, best: ConnId, bestLoad: nat)
    requires Filtered(was, list, i, stale, conns, kept, best, bestLoad) && i < |list|
    requires !was[list[i]].closed && list[i] in stale && Load(was[list[i]]) == 0
    ensures list[i] < |conns|
    ensures Filtered(was, list, i + 1, stale, conns[list[i] := was[list[i]].(closed := true)], kept, best, bestLoad)
  {
    hide Retire, Survivors, LeastLoaded, Load, IdleOf, Distinct;
    TurnExists(was, list, i, stale, conns, kept, best, bestLoad);
    RetireOneMore(was, list, i, IdleOf(was, list, stale));
    SurvivorsOneMore(was, list, i, IdleOf(was, list, stale));
  }

  lemma KeepLive(was: seq<Conn>, list: seq<ConnId>, i: nat, stale: set<ConnId>,
                 conns: seq<Conn>, kept: seq<ConnId>, best: ConnId, bestLoad: nat)
    requires Filtered(was, list, i, stale, conns, kept, best, bestLoad) && i < |list|
    requires !was[list[i]].closed && !(list[i] in stale && Load(was[list[i]]) == 0)
    ensures
      var better := kept == [] || Load(was[list[i]]) < bestLoad;
      Filtered(was, list, i + 1, stale, conns, kept + [list[i]],
               if better then list[i] else best, if better then Load(was[list[i]]) else bestLoad)
  {
    hide Retire, Survivors, LeastLoaded, Load, IdleOf, Distinct;
    TurnExists(was, list, i, stale, conns, kept, best, bestLoad);
    RetireOneMore(was, list, i, IdleOf(was, list, stale));
    SurvivorsOneMore(was, list, i, IdleOf(was, list, stale));
    LeastOfMore(was, kept, list[i]);
  }

  // One more turn of writeLoop's claim.
  lemma ClaimOneMore(was: seq<Request>, queued: seq<Id>, i: nat, c: ConnId)
    requires forall j :: 0 <= j < |queued| ==> queued[j] < |was|
    requires Distinct(queued) && i < |queued|
    ensures
      var r := queued[i];
      var before := ClaimAll(was, queued[..i], c);
      before[r] == was[r] && ClaimAll(was, queued[..i + 1], c) == before[r := ClaimOne(was[r], c)]
  {
    hide ClaimOne;
    assert queued[..i + 1] == queued[..i] + [queued[i]];
    assert queued[i] !in queued[..i];
    hide Distinct;
  }

  lemma LiveOneMore(was: seq<Request>, queued: seq<Id>, i: nat)
    requires forall j :: 0 <= j < |queued| ==> queued[j] < |was|
    requires i < |queued|
    ensures
      Live(was, queued[..i + 1]) ==
        if was[queued[i]].phase.Queued? then Live(was, queued[..i]) + [queued[i]] else Live(was, queued[..i])
  {
    assert queued[..i + 1][..i] == queued[..i];
    hide Distinct;
  }

  // One more turn of the loops that set onWire.
  lemma MarkOneMore(was: seq<Request>, batch: seq<Id>, i: nat)
    requires i < |batch| && batch[i] < |was|
    ensures
      var before := MarkAll(was, batch[..i]);
      MarkAll(was, batch[..i + 1]) == before[batch[i] := before[batch[i]].(onWire := true)]
  {
    assert batch[..i + 1] == batch[..i] + [batch[i]];
  }

  lemma MarkNone(was: seq<Request>)
    ensures MarkAll(was, []) == was
  {
  }

  // A write that took everything left no part of the batch behind.
  lemma AllWritten(cfg: Config, batch: seq<Id>, written: nat)
    requires written <= Total(cfg, batch)
    ensures written == Total(cfg, batch) ==> Advance(cfg, batch, written).full == |batch|
  {
    if batch != [] {
      OffsetsClassify(cfg, batch, written, |batch| - 1);
      assert batch[..|batch| - 1 + 1] == batch;
    }
  }

  // What flush has yet to settle when its loop is at index i.
  function From(f: Flush, i: nat): Flush
    requires i <= |f.batch|
  {
    Flush(f.batch[i..], if f.full > i then f.full - i else 0, if f.full >= i then f.part else 0)
  }

  lemma FromNext(f: Flush, i: nat)
    requires i < |f.batch|
    ensures From(f, i).batch != [] && Rest(From(f, i)) == From(f, i + 1)
  {
    assert f.batch[i..][1..] == f.batch[i + 1..];
  }

  lemma StartOf(cfg: Config, batch: seq<Id>, ends: seq<nat>, i: nat)
    requires i < |batch| == |ends| && forall j :: 0 <= j < |batch| ==> ends[j] == Total(cfg, batch[..j + 1])
    ensures Total(cfg, batch[..i]) == if i > 0 then ends[i - 1] else 0
  {
    if i > 0 { assert batch[..i - 1 + 1] == batch[..i]; }
  }

  lemma FlushFits(s: State, c: ConnId)
    requires WellFormed(s) && c < |s.conns| && s.conns[c].writer.Sending?
    ensures Within(s.reqs, s.conns[c].writer.flush.batch)
    ensures !s.conns[c].closed ==>
      |s.conns[c].writer.flush.batch| - s.conns[c].writer.flush.full <= |s.conns[c].inflight|
  {
    assert ListsExist(s.reqs, s.conns[c]);
  }

  // What flush's critical section leaves, case by case.
  lemma EndIs(s: State, c: ConnId, err: Option<Error>)
    requires WellFormed(s) && c < |s.conns| && s.conns[c].writer.Sending?
    requires err.None? ==> s.conns[c].writer.flush.full == |s.conns[c].writer.flush.batch|
    ensures
      var k := s.conns[c];
      var f := k.writer.flush;
      var settling := Settling(f, Seen(k.closed, k.cause, k.blamed, k.served, err), []);
      && (k.closed ==> ApplyFlushEnd(s, c, err) == s.(conns := s.conns[c := k.(writer := settling)]))
      && (!k.closed && err.None? ==>
            ApplyFlushEnd(s, c, err) == s.(conns := s.conns[c := k.(writer := Idle)], reqs := MarkAll(s.reqs, f.batch)))
      && (!k.closed && err.Some? ==>
            && |f.batch| - f.full <= |k.inflight| && f.full <= |f.batch|
            && ApplyFlushEnd(s, c, err) ==
                 s.(conns := s.conns[c := k.(writer := settling, inflight := k.inflight[..|k.inflight| - (|f.batch| - f.full)])],
                    reqs := MarkAll(s.reqs, f.batch[..f.full])))
  {
    assert ListsExist(s.reqs, s.conns[c]);
    hide WellFormed, MarkAll;
    assert s.conns[c].writer.flush.batch[..|s.conns[c].writer.flush.batch|] == s.conns[c].writer.flush.batch;
  }

  // The switch of flush's loop, on the offsets and on the flush record.
  lemma SwitchAgrees(cfg: Config, seen: Seen, batch: seq<Id>, written: nat, i: nat, q: Request)
    requires written <= Total(cfg, batch) && i < |batch|
    ensures
      var left := From(Advance(cfg, batch, written), i);
      var start, end, r := Total(cfg, batch[..i]), Total(cfg, batch[..i + 1]), batch[i];
      && (GoesBack(left, seen, q) <==> written <= start && written < end && seen.served && q.phase.Writing?)
      && (!GoesBack(left, seen, q) ==>
            SettleWritten(cfg, left, seen, r, q) ==
              if written >= end then
                (if seen.closed then Complete(q, q.responses, Len(cfg, r), LostError(seen.cause, seen.blamed, r)) else q)
              else if written > start then Complete(q, [], written - start, seen.err)
              else Complete(q, [], 0, seen.err))
  {
    OffsetsClassify(cfg, batch, written, i);
    hide Advance, Total, Complete, LostError;
  }

  class ServerPool {
    var reqs: seq<Request>
    var conns: seq<Conn>
    var members: seq<ConnId>
    var closed: bool
    var toDrain: seq<ConnId>
    var holder: Option<(Id, ConnId)>

    ghost function View(): State
      reads this
    {
      State(reqs, conns, members, closed, toDrain, holder)
    }

    constructor ()
      ensures View() == Init
    {
      reqs, conns, members, closed, toDrain, holder := [], [], [], false, [], None;
    }

    // pickLocked's filter (transport.go:147-168); stale holds the connections
    // that have been idle for longer than the timeout.
    method Filter(stale: set<ConnId>) returns (best: ConnId, bestLoad: nat)
      requires forall i :: 0 <= i < |members| ==> members[i] < |conns|
      requires Distinct(members)
      modifies `conns, `members
      ensures
        var idle := IdleOf(old(conns), old(members), stale);
        && conns == Retire(old(conns), old(members), idle)
        && members == Survivors(old(conns), old(members), idle)
      ensures forall i :: 0 <= i < |members| ==> members[i] < |old(conns)|
      ensures members != [] ==> best == LeastLoaded(old(conns), members) && bestLoad == Load(old(conns)[best])
    {
      ghost var was := conns;
      var list := members;
      hide *;
      var kept: seq<ConnId> := [];
      best, bestLoad := 0, 0;
      FilterStart(was, list, stale);
      for i := 0 to |list|
        modifies `conns
        invariant Filtered(was, list, i, stale, conns, kept, best, bestLoad)
      {
        var c := list[i];
        TurnExists(was, list, i, stale, conns, kept, best, bestLoad);
        var k := conns[c];
        if k.closed {
          SkipClosed(was, list, i, stale, conns, kept, best, bestLoad);
        } else if Load(k) == 0 && c in stale {
          DropIdle(was, list, i, stale, conns, kept, best, bestLoad);
          conns := conns[c := k.(closed := true)];
        } else {
          KeepLive(was, list, i, stale, conns, kept, best, bestLoad);
          if kept == [] || Load(k) < bestLoad {
            best, bestLoad := c, Load(k);
          }
          kept := kept + [c];
        }
      }
      FilterEnd(was, list, stale, conns, kept, best, bestLoad);
      members := kept;
    }

    // pickLocked (transport.go:146-174).
    method PickLocked(cfg: Config, stale: set<ConnId>) returns (best: ConnId)
      requires forall i :: 0 <= i < |members| ==> members[i] < |conns|
      requires Distinct(members)
      modifies `conns, `members
      ensures
        Choice(conns, members, best) ==
          Transport.PickLocked(cfg, old(conns), old(members), IdleOf(old(conns), old(members), stale))
    {
      hide Survivors, LeastLoaded, Load, Retire, IdleOf, Distinct;
      var bestLoad;
      best, bestLoad := Filter(stale);
      if members == [] || (bestLoad > 0 && |members| < cfg.maxConns) {
        best := |conns|;
        conns := conns + [NewConn];
        members := members + [best];
      }
    }

    // enqueue (transport.go:133-141): a closed pool takes nothing; otherwise the
    // request ends up in the pending list of the connection pickLocked chose.
    method Enqueue(cfg: Config, r: Id, stale: set<ConnId>) returns (accepted: bool)
      requires Distinct(members) && forall i :: 0 <= i < |members| ==> members[i] < |conns|
      requires holder.None? && r < |reqs|
      modifies this
      ensures accepted == !old(closed)
      ensures !accepted ==> View() == old(View())
      ensures accepted ==>
        var s := old(View());
        var idle := IdleOf(s.conns, s.members, stale);
        var pick := Transport.PickLocked(cfg, s.conns, s.members, idle);
        pick.best < |pick.conns| && View() == PickAndAdd(cfg, s, r, idle)
    {
      if closed { return false; }
      Chosen(cfg, conns, members, IdleOf(conns, members, stale));
      hide Transport.PickLocked, IdleOf, Distinct;
      var best := PickLocked(cfg, stale);
      conns := conns[best := conns[best].(pending := conns[best].pending + [r])];
      reqs := reqs[r := reqs[r].(place := Pending(best), homes := reqs[r].homes + [best])];
      accepted := true;
    }

    // One turn of detach's loop (transport.go:192-201).
    method DetachTurn(cfg: Config, c: ConnId, afterFlush: bool, stale: set<ConnId>)
      requires c < |conns| && RehomeList(conns[c], afterFlush) != [] && RehomeList(conns[c], afterFlush)[0] < |reqs|
      requires Distinct(members) && forall i :: 0 <= i < |members| ==> members[i] < |conns|
      requires holder.None?
      modifies this
      ensures View() == Detached(cfg, old(View()), c, afterFlush, IdleOf(old(conns), old(members), stale))
    {
      hide Transport.PickLocked, IdleOf, Distinct, Complete;
      var k := conns[c];
      var r := RehomeList(k, afterFlush)[0];
      var q := reqs[r];
      SameIdle(conns, c, Shortened(k, afterFlush), members, stale);
      conns := conns[c := Shortened(k, afterFlush)];
      if !q.phase.Queued? {
        reqs := reqs[r := q.(place := Gone)];
      } else if !closed && (afterFlush || k.rehome) {
        Chosen(cfg, conns, members, IdleOf(conns, members, stale));
        var best := PickLocked(cfg, stale);
        conns := conns[best := conns[best].(pending := conns[best].pending + [r])];
        reqs := reqs[r := q.(place := Pending(best), homes := q.homes + [best])];
      } else {
        reqs := reqs[r := Complete(q, [], 0, if closed then Some(PoolClosed) else k.cause).(place := Gone)];
      }
    }

    // writeLoop's critical section (transport.go:306-330): claim what is queued,
    // forget what its caller gave up on.
    method ClaimPending(c: ConnId) returns (batch: seq<Id>)
      requires c < |conns| && Distinct(conns[c].pending)
      requires forall i :: 0 <= i < |conns[c].pending| ==> conns[c].pending[i] < |reqs|
      requires WellFormed(View())
      modifies `reqs, `conns
      ensures View() == ApplyClaim(old(View()), c)
      ensures batch == Live(old(reqs), old(conns)[c].pending)
    {
      ghost var was := reqs;
      var k := conns[c];
      var queued := k.pending;
      hide WellFormed, ClaimAll, Live, Distinct;
      assert queued[..0] == [];
      assert ClaimAll(was, [], c) == was;
      assert Live(was, []) == [];
      batch := [];
      for i := 0 to |queued|
        modifies `reqs
        invariant reqs == ClaimAll(was, queued[..i], c)
        invariant batch == Live(was, queued[..i])
      {
        var r := queued[i];
        ClaimOneMore(was, queued, i, c);
        LiveOneMore(was, queued, i);
        if reqs[r].phase.Queued? {
          reqs := reqs[r := reqs[r].(phase := Writing, place := Claimed(c))];
          batch := batch + [r];
        } else {
          reqs := reqs[r := reqs[r].(place := Gone)];
        }
      }
      assert queued[..|queued|] == queued;
      conns := conns[c := k.(pending := [], inflight := k.inflight + batch,
                             writer := if batch == [] then Idle else Sending(Flush(batch, 0, 0)))];
    }

    // The loop of a flush that succeeded (transport.go:357-359).
    method MarkBatch(batch: seq<Id>)
      requires Within(reqs, batch)
      modifies `reqs
      ensures reqs == MarkAll(old(reqs), batch)
    {
      ghost var was := reqs;
      hide MarkAll;
      assert batch[..0] == [] && batch[..|batch|] == batch;
      MarkNone(was);
      for i := 0 to |batch|
        modifies `reqs
        invariant reqs == MarkAll(was, batch[..i])
      {
        MarkOneMore(was, batch, i);
        reqs := reqs[batch[i] := reqs[batch[i]].(onWire := true)];
      }
    }

    // The loop of one that did not (transport.go:366-372): how many requests are
    // whole on the wire.
    method MarkWritten(cfg: Config, batch: seq<Id>, ends: seq<nat>, written: nat) returns (whole: nat)
      requires Within(reqs, batch) && written <= Total(cfg, batch)
      requires |ends| == |batch| && forall i :: 0 <= i < |batch| ==> ends[i] == Total(cfg, batch[..i + 1])
      modifies `reqs
      ensures whole == Advance(cfg, batch, written).full
      ensures reqs == MarkAll(old(reqs), batch[..whole])
    {
      ghost var was := reqs;
      ghost var f := Advance(cfg, batch, written);
      hide MarkAll, Advance, Total;
      assert batch[..0] == [];
      MarkNone(was);
      for i := 0 to |batch|
        modifies `reqs
        invariant i <= f.full
        invariant reqs == MarkAll(was, batch[..i])
      {
        OffsetsClassify(cfg, batch, written, i);
        if written < ends[i] { return i; }
        MarkOneMore(was, batch, i);
        reqs := reqs[batch[i] := reqs[batch[i]].(onWire := true)];
      }
      return |batch|;
    }

    // flush once the write is over (transport.go:354-374), in terms of the byte
    // count it got back.
    method EndFlush(cfg: Config, c: ConnId, batch: seq<Id>, ends: seq<nat>, written: nat, err: Option<Error>)
      requires WellFormed(View()) && c < |conns| && written <= Total(cfg, batch)
      requires |ends| == |batch| && forall i :: 0 <= i < |batch| ==> ends[i] == Total(cfg, batch[..i + 1])
      requires conns[c].writer == Sending(Advance(cfg, batch, written))
      requires err.None? ==> written == Total(cfg, batch)
      modifies `reqs, `conns
      ensures View() == ApplyFlushEnd(old(View()), c, err)
    {
      hide WellFormed, ListsExist, PlaceExists, Advance, Total, MarkAll, ApplyFlushEnd;
      FlushFits(View(), c);
      AllWritten(cfg, batch, written);
      EndIs(View(), c, err);
      var k := conns[c];
      var f := k.writer.flush;
      var settling := Settling(f, Seen(k.closed, k.cause, k.blamed, k.served, err), []);
      if err.None? && !k.closed {
        MarkBatch(batch);
        conns := conns[c := k.(writer := Idle)];
      } else if !k.closed {
        var whole := MarkWritten(cfg, batch, ends, written);
        conns := conns[c := k.(writer := settling, inflight := k.inflight[..|k.inflight| - (|batch| - whole)])];
      } else {
        conns := conns[c := k.(writer := settling)];
      }
    }

    // One turn of flush's loop (transport.go:376-398): the switch on the byte
    // count and the offsets decides as the flush record does.
    method SettleTurn(cfg: Config, c: ConnId, batch: seq<Id>, ends: seq<nat>, written: nat, i: nat)
      requires WellFormed(View()) && c < |conns| && written <= Total(cfg, batch) && i < |batch|
      requires |ends| == |batch| && forall j :: 0 <= j < |batch| ==> ends[j] == Total(cfg, batch[..j + 1])
      requires conns[c].writer.Settling? && conns[c].writer.left == From(Advance(cfg, batch, written), i)
      modifies `reqs, `conns
      ensures old(conns[c].writer.left.batch) != [] && View() == ApplySettleBatch(cfg, old(View()), c)
      ensures |conns| == |old(conns)| && conns[c].writer.Settling?
      ensures conns[c].writer.left == From(Advance(cfg, batch, written), i + 1)
    {
      ghost var f := Advance(cfg, batch, written);
      var k := conns[c];
      var seen := k.writer.seen;
      var r := batch[i];
      assert ListsExist(reqs, k);
      assert f.batch[i..][0] == r && r < |reqs|;
      FromNext(f, i);
      SwitchAgrees(cfg, seen, batch, written, i, reqs[r]);
      hide WellFormed, ListsExist, Advance, Total, From, Rest, GoesBack, SettleWritten, Complete, LostError;
      var q := reqs[r];
      var start := if i > 0 then ends[i - 1] else 0;
      assert start == Total(cfg, batch[..i]) by { StartOf(cfg, batch, ends, i); }
      var requeue := k.writer.requeue;
      if written >= ends[i] {
        if seen.closed {
          q := Complete(q, q.responses, Len(cfg, r), LostError(seen.cause, seen.blamed, r));
        }
      } else if written > start {
        q := Complete(q, [], written - start, seen.err);
      } else if seen.served && q.phase.Writing? {
        q := q.(phase := Queued, place := Requeued(c));
        requeue := requeue + [r];
      } else {
        q := Complete(q, [], 0, seen.err);
      }
      reqs := reqs[r := q];
      conns := conns[c := k.(writer := Settling(Rest(k.writer.left), seen, requeue))];
    }

    // oldestLiveLocked (transport.go:480-490).
    method IsOldestLive(c: ConnId, r: Id) returns (oldest: bool)
      requires c < |conns|
      requires forall i :: 0 <= i < |conns[c].inflight| ==> conns[c].inflight[i] < |reqs|
      ensures oldest == OldestLive(reqs, conns[c].inflight, r)
      ensures oldest <==>
        exists i ::
          && 0 <= i < |conns[c].inflight| && conns[c].inflight[i] == r
          && forall j :: 0 <= j < i ==> reqs[conns[c].inflight[j]].phase.Done?
    {
      var inflight := conns[c].inflight;
      for i := 0 to |inflight|
        invariant forall j :: 0 <= j < i ==> inflight[j] != r && reqs[inflight[j]].phase.Done?
        invariant OldestLive(reqs, inflight[i..], r) == OldestLive(reqs, inflight, r)
      {
        if inflight[i] == r { return true; }
        if !reqs[inflight[i]].phase.Done? { return false; }
        assert inflight[i..][1..] == inflight[i + 1..];
      }
      return false;
    }
  }
}
