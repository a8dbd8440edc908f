// Append and Take together lose nothing and duplicate nothing (set.go:126-145,
// update.go:113-163).
module Conservation {
  import opened Protocol
  import opened Builders
  import opened Store
  import opened Coordination

  // Nothing touches the key but appends, and takes whose deletes carry the cas
  // of one of their own reads; readOf names that read. Nothing expires and no
  // reply is lost. Other keys are unconstrained.
  ghost predicate OnlyAppendsAndTakes(ss: seq<Server>, es: seq<Event>, key: Bytes, readOf: nat -> nat)
    requires |ss| == |es| + 1
  {
    forall m :: 0 <= m < |es| && es[m].key == key ==> AppendOrTake(ss, es, key, readOf, m)
  }

  ghost predicate AppendOrTake(ss: seq<Server>, es: seq<Event>, key: Bytes, readOf: nat -> nat, m: nat)
    requires |ss| == |es| + 1 && m < |es|
  {
    match es[m]
    case Read(_, vivify, _, _) => !vivify
    case Write(_, fragment, mode, compare, vivify) => mode.ModeAppend? && compare.None? && vivify
    case Remove(_, compare, invalidate) =>
      var r := readOf(m);
      !invalidate && r < m && es[r] == ReadOf(key) && key in ss[r].entries && compare == CasAt(ss[r], key)
    case Drop(_) => false
  }

  function Current(s: Server, key: Bytes): Bytes { if key in s.entries then s.entries[key].value else [] }

  // What the first n events appended to the key, in the server's order.
  ghost function Appended(ss: seq<Server>, es: seq<Event>, key: Bytes, n: nat): Bytes
    requires |ss| == |es| + 1 && n <= |es|
  {
    if n == 0 then []
    else
      var e := es[n - 1];
      Appended(ss, es, key, n - 1) + if e.key == key && e.Write? && Applies(ss[n - 1], e) then e.value else []
  }

  // What the takes among them returned: each returns the value its read saw.
  ghost function Returned(ss: seq<Server>, es: seq<Event>, key: Bytes, readOf: nat -> nat, n: nat): Bytes
    requires |ss| == |es| + 1 && n <= |es|
  {
    if n == 0 then []
    else
      var e := es[n - 1];
      Returned(ss, es, key, readOf, n - 1) +
      if e.key == key && e.Remove? && Applies(ss[n - 1], e) && readOf(n - 1) < |ss| then Current(ss[readOf(n - 1)], key) else []
  }

  lemma {:induction false} TakeAppendConservation(ss: seq<Server>, es: seq<Event>, key: Bytes, readOf: nat -> nat, n: nat)
    requires Run(ss, es) && Sound(ss[0]) && OnlyAppendsAndTakes(ss, es, key, readOf) && n <= |es|
    ensures Returned(ss, es, key, readOf, n) + Current(ss[n], key) == Current(ss[0], key) + Appended(ss, es, key, n)
  {
    hide Sound, Current, Applies, Next;
    if n > 0 {
      TakeAppendConservation(ss, es, key, readOf, n - 1);
      assert Step(ss[n - 1], es[n - 1], ss[n]);
      var e := es[n - 1];
      if e.key == key {
        assert AppendOrTake(ss, es, key, readOf, n - 1);
        hide OnlyAppendsAndTakes, AppendOrTake;
        OnKey(ss, es, key, readOf, n - 1);
      } else {
        OtherKey(ss[n - 1], e, key);
      }
      Balance(Returned(ss, es, key, readOf, n - 1), Current(ss[n - 1], key), Current(ss[0], key),
              Appended(ss, es, key, n - 1), if e.key == key && e.Write? && Applies(ss[n - 1], e) then e.value else []);
    } else {
      assert [] + Current(ss[0], key) == Current(ss[0], key) + [];
    }
  }

  lemma Balance(returned: Bytes, current: Bytes, start: Bytes, appended: Bytes, more: Bytes)
    requires returned + current == start + appended
    ensures returned + [] == returned && appended + [] == appended && returned + current + [] == start + appended
    ensures returned + (current + more) == start + (appended + more)
  {
    assert returned + (current + more) == (returned + current) + more;
  }

  // One event on the key: an append grows the value, a take returns all of it.
  lemma OnKey(ss: seq<Server>, es: seq<Event>, key: Bytes, readOf: nat -> nat, m: nat)
    requires Run(ss, es) && Sound(ss[0]) && m < |es| && es[m].key == key && AppendOrTake(ss, es, key, readOf, m)
    ensures es[m].Write? ==> Applies(ss[m], es[m]) && Current(ss[m + 1], key) == Current(ss[m], key) + es[m].value
    ensures es[m].Remove? && Applies(ss[m], es[m]) ==>
      readOf(m) < |ss| && Current(ss[readOf(m)], key) == Current(ss[m], key) && Current(ss[m + 1], key) == []
    ensures es[m].Read? || (es[m].Remove? && !Applies(ss[m], es[m])) ==> Current(ss[m + 1], key) == Current(ss[m], key)
    ensures !es[m].Drop?
  {
    hide Sound;
    assert Step(ss[m], es[m], ss[m + 1]);
    if es[m].Write? {
      AppendGrows(ss[m], es[m]);
    } else if es[m].Remove? && RemoveCode(ss[m], es[m]) == HD {
      RunSound(ss, es, 0, readOf(m));
      SameCasIffUntouched(ss, es, readOf(m), m, key);
    }
  }

  lemma AppendGrows(s: Server, e: Event)
    requires e.Write? && e.mode.ModeAppend? && e.compare.None? && e.vivify
    ensures Applies(s, e) && Current(Next(s, e), e.key) == Current(s, e.key) + e.value
  {
  }

  lemma OtherKey(s: Server, e: Event, key: Bytes)
    requires e.key != key
    ensures Current(Next(s, e), key) == Current(s, key)
  {
    hide WriteCode, RemoveCode, Joined, Wins;
  }
}
