// The command builders of client.go:218-513: typed options become flags, and a
// server that looks its flags up gets the options back.
module Builders {
  import opened Protocol
  import opened Text
  import opened Commands

  type Int64 = n: int | -0x8000_0000_0000_0000 <= n < 0x8000_0000_0000_0000 witness 0
  type Uint64 = n: nat | n < 0x1_0000_0000_0000_0000
  type Uint32 = n: nat | n < 0x1_0000_0000

  datatype StoreMode = ModeSet | ModeAdd | ModeReplace | ModeAppend | ModePrepend

  datatype GetOptions = GetOptions(
    metadataOnly: bool, returnCAS: bool, returnTTL: bool, returnSize: bool, returnLastAccess: bool,
    returnHitBefore: bool, returnClientFlags: bool, returnKey: bool, touch: Option<Int64>, vivifyTTL: Option<Int64>,
    refreshBefore: Option<Int64>, unlessCAS: Option<Uint64>, setCAS: Option<Uint64>, noLRUBump: bool, tag: Bytes)

  datatype SetOptions = SetOptions(
    ttl: Int64, clientFlags: Uint32, mode: StoreMode, compareCAS: Option<Uint64>, setCAS: Option<Uint64>,
    invalidate: bool, vivifyTTL: Option<Int64>, returnCAS: bool, returnSize: bool, returnKey: bool, tag: Bytes)

  datatype DeleteOptions = DeleteOptions(
    compareCAS: Option<Uint64>, setCAS: Option<Uint64>, invalidate: bool, staleFor: Option<Int64>, dropValue: bool,
    returnKey: bool, tag: Bytes)

  datatype ArithmeticOptions = ArithmeticOptions(
    delta: Uint64, decrement: bool, initial: Option<Uint64>, initialTTL: Option<Int64>, touch: Option<Int64>,
    compareCAS: Option<Uint64>, setCAS: Option<Uint64>, metadataOnly: bool, returnTTL: bool, returnCAS: bool,
    returnKey: bool, tag: Bytes)

  datatype OptionError =
    | UnlessCASNeedsValue | RefreshNeedsValue | NotPositive | TTLIgnored | VivifyMisplaced | AddCompares
    | InvalidateNeedsCAS | StaleForNeedsInvalidate | InitialIncomplete | BadOpaque

  datatype Built = Built(command: MetaCommand) | Refused(error: OptionError)

  // ---- flags as slots ----

  // A flag letter, and its token when the command carries it.
  datatype Slot = Slot(letter: Byte, token: Option<Bytes>)

  function Bare(letter: Byte, given: bool): Slot { Slot(letter, if given then Some([]) else None) }

  function Unsigned(letter: Byte, n: Option<nat>): Slot {
    Slot(letter, if n.Some? then Some(FormatUint(n.value)) else None)
  }

  function Signed(letter: Byte, n: Option<int>): Slot {
    Slot(letter, if n.Some? then Some(FormatInt(n.value)) else None)
  }

  function Emit(slots: seq<Slot>): seq<Bytes> {
    if slots == [] then [] else One(slots[0]) + Emit(slots[1..])
  }

  function One(slot: Slot): seq<Bytes> {
    if slot.token.Some? then [[slot.letter] + slot.token.value] else []
  }

  // What the server finds under a flag letter.
  function Lookup(flags: seq<Bytes>, letter: Byte): Option<Bytes> {
    if flags == [] then None
    else if flags[0] != [] && flags[0][0] == letter then Some(flags[0][1..])
    else Lookup(flags[1..], letter)
  }

  predicate DistinctLetters(slots: seq<Slot>) {
    forall i, j :: 0 <= i < j < |slots| ==> slots[i].letter != slots[j].letter
  }

  lemma {:induction false} LookupAbsent(slots: seq<Slot>, letter: Byte)
    requires forall i :: 0 <= i < |slots| ==> slots[i].letter != letter
    ensures Lookup(Emit(slots), letter).None?
  {
    if slots != [] {
      LookupAbsent(slots[1..], letter);
      assert One(slots[0]) + Emit(slots[1..]) == if slots[0].token.Some? then [One(slots[0])[0]] + Emit(slots[1..]) else Emit(slots[1..]);
    }
  }

  // Each letter appears for its own slot and for no other.
  lemma {:induction false} LookupSlot(slots: seq<Slot>, i: nat)
    requires i < |slots| && DistinctLetters(slots)
    ensures Lookup(Emit(slots), slots[i].letter) == slots[i].token
  {
    var head, tail := slots[0], slots[1..];
    assert One(head) + Emit(tail) == if head.token.Some? then [One(head)[0]] + Emit(tail) else Emit(tail);
    if i > 0 {
      assert tail[i - 1] == slots[i];
      LookupSlot(tail, i - 1);
    } else {
      LookupAbsent(tail, head.letter);
      if head.token.Some? {
        assert ([head.letter] + head.token.value)[1..] == head.token.value;
      }
    }
  }

  predicate CleanSlot(slot: Slot) {
    && slot.letter > 32 && slot.letter != 127 && slot.letter != 98 && slot.letter != 113
    && (slot.token.Some? && slot.token.value != [] ==> Word(slot.token.value))
  }

  predicate CleanSlots(slots: seq<Slot>) { forall i :: 0 <= i < |slots| ==> CleanSlot(slots[i]) }

  // Flags that can be printed and never say that the key is encoded or that the
  // reply is unwanted.
  predicate CleanFlags(flags: seq<Bytes>) {
    Words(flags) && !AnyBase64(flags) && forall i :: 0 <= i < |flags| ==> flags[i] != [] && flags[i][0] != 113
  }

  lemma {:induction false} EmitClean(slots: seq<Slot>)
    requires CleanSlots(slots)
    ensures CleanFlags(Emit(slots))
  {
    if slots != [] {
      EmitClean(slots[1..]);
      var head, rest := One(slots[0]), Emit(slots[1..]);
      assert CleanSlot(slots[0]);
      forall i | 0 <= i < |head + rest|
        ensures Word((head + rest)[i]) && !MarksBase64((head + rest)[i]) && (head + rest)[i][0] != 113
      {
        if i >= |head| {
          assert (head + rest)[i] == rest[i - |head|];
          assert !MarksBase64(rest[i - |head|]);
        }
      }
    }
  }

  lemma SignedClean(letter: Byte, n: Option<Int64>)
    requires CleanSlot(Slot(letter, None))
    ensures CleanSlot(Signed(letter, n))
  {
    if n.Some? { IntRoundTrip(n.value); }
  }

  lemma UnsignedClean(letter: Byte, n: Option<Uint64>)
    requires CleanSlot(Slot(letter, None))
    ensures CleanSlot(Unsigned(letter, n))
  {
    if n.Some? { UintRoundTrip(n.value, MAX_64); }
  }

  // ---- the four builders ----

  predicate ValidOpaque(token: Bytes) { token == [] || (|token| <= 32 && Word(token)) }

  function OpaqueSlot(token: Bytes): Slot { Slot(79, if token == [] then None else Some(token)) }

  function NonPositive(n: Option<int>): bool { n.Some? && n.value <= 0 }

  function GetError(o: GetOptions): Option<OptionError> {
    if o.unlessCAS.Some? && o.metadataOnly then Some(UnlessCASNeedsValue)
    else if o.metadataOnly && o.vivifyTTL.Some? && o.refreshBefore.Some? then Some(RefreshNeedsValue)
    else if NonPositive(o.vivifyTTL) || NonPositive(o.refreshBefore) then Some(NotPositive)
    else if !ValidOpaque(o.tag) then Some(BadOpaque)
    else None
  }

  function GetSlots(o: GetOptions): seq<Slot> {
    [Bare(118, !o.metadataOnly),
     Bare(99, o.returnCAS || o.vivifyTTL.Some? || o.refreshBefore.Some? || o.unlessCAS.Some?),
     Bare(102, o.returnClientFlags), Bare(116, o.returnTTL), Bare(115, o.returnSize), Bare(108, o.returnLastAccess),
     Bare(104, o.returnHitBefore), Bare(107, o.returnKey), Bare(117, o.noLRUBump),
     Signed(84, o.touch), Signed(78, o.vivifyTTL), Signed(82, o.refreshBefore),
     Unsigned(67, o.unlessCAS), Unsigned(69, o.setCAS), OpaqueSlot(o.tag)]
  }

  function BuildGet(key: Bytes, o: GetOptions): Built {
    match GetError(o)
    case Some(e) => Refused(e)
    case None => Built(MetaCommand(MG, key, Emit(GetSlots(o)), [], false))
  }

  function ModeToken(mode: StoreMode): Option<Bytes> {
    match mode
    case ModeSet => None case ModeAdd => Some([69]) case ModeReplace => Some([82])
    case ModeAppend => Some([65]) case ModePrepend => Some([80])
  }

  function ClientFlagsOf(o: SetOptions): Option<Uint64> { Some(o.clientFlags) }

  function TtlOf(o: SetOptions): Option<Int64> { if o.ttl != 0 then Some(o.ttl) else None }

  function SetError(o: SetOptions): Option<OptionError> {
    var concatenate := o.mode.ModeAppend? || o.mode.ModePrepend?;
    if concatenate && o.ttl != 0 then Some(TTLIgnored)
    else if !concatenate && o.vivifyTTL.Some? then Some(VivifyMisplaced)
    else if o.mode.ModeAdd? && o.compareCAS.Some? then Some(AddCompares)
    else if o.invalidate && o.compareCAS.None? then Some(InvalidateNeedsCAS)
    else if NonPositive(o.vivifyTTL) then Some(NotPositive)
    else if !ValidOpaque(o.tag) then Some(BadOpaque)
    else None
  }

  function SetSlots(o: SetOptions): seq<Slot> {
    [Unsigned(70, ClientFlagsOf(o)), Signed(84, TtlOf(o)),
     Slot(77, ModeToken(o.mode)), Unsigned(67, o.compareCAS), Unsigned(69, o.setCAS), Bare(73, o.invalidate),
     Signed(78, o.vivifyTTL), Bare(99, o.returnCAS), Bare(115, o.returnSize), Bare(107, o.returnKey),
     OpaqueSlot(o.tag)]
  }

  function BuildSet(key: Bytes, value: Bytes, o: SetOptions): Built {
    match SetError(o)
    case Some(e) => Refused(e)
    case None => Built(MetaCommand(MS, key, Emit(SetSlots(o)), value, true))
  }

  function DeleteError(o: DeleteOptions): Option<OptionError> {
    if o.staleFor.Some? && !o.invalidate then Some(StaleForNeedsInvalidate)
    else if !ValidOpaque(o.tag) then Some(BadOpaque)
    else None
  }

  function DeleteSlots(o: DeleteOptions): seq<Slot> {
    [Unsigned(67, o.compareCAS), Unsigned(69, o.setCAS), Bare(73, o.invalidate), Signed(84, o.staleFor),
     Bare(120, o.dropValue), Bare(107, o.returnKey), OpaqueSlot(o.tag)]
  }

  function BuildDelete(key: Bytes, o: DeleteOptions): Built {
    match DeleteError(o)
    case Some(e) => Refused(e)
    case None => Built(MetaCommand(MD, key, Emit(DeleteSlots(o)), [], false))
  }

  function ArithmeticError(o: ArithmeticOptions): Option<OptionError> {
    if o.initial.Some? != o.initialTTL.Some? then Some(InitialIncomplete)
    else if NonPositive(o.initialTTL) then Some(NotPositive)
    else if !ValidOpaque(o.tag) then Some(BadOpaque)
    else None
  }

  function ArithmeticSlots(o: ArithmeticOptions): seq<Slot> {
    [Unsigned(68, Some(o.delta)), Slot(77, if o.decrement then Some([68]) else None), Unsigned(74, o.initial),
     Signed(78, o.initialTTL), Signed(84, o.touch), Unsigned(67, o.compareCAS), Unsigned(69, o.setCAS),
     Bare(118, !o.metadataOnly), Bare(116, o.returnTTL), Bare(99, o.returnCAS), Bare(107, o.returnKey),
     OpaqueSlot(o.tag)]
  }

  function BuildArithmetic(key: Bytes, o: ArithmeticOptions): Built {
    match ArithmeticError(o)
    case Some(e) => Refused(e)
    case None => Built(MetaCommand(MA, key, Emit(ArithmeticSlots(o)), [], false))
  }

  // ---- what a server reads out of the flags ----

  function Given(flags: seq<Bytes>, letter: Byte): bool { Lookup(flags, letter).Some? }

  function GivenInt(flags: seq<Bytes>, letter: Byte): Option<int> {
    match Lookup(flags, letter) case None => None case Some(token) => ParseInt(token)
  }

  function GivenUint(flags: seq<Bytes>, letter: Byte): Option<nat> {
    match Lookup(flags, letter) case None => None case Some(token) => ParseUint(token, MAX_64)
  }

  lemma SignedBack(slots: seq<Slot>, i: nat, n: Option<Int64>)
    requires i < |slots| && DistinctLetters(slots) && slots[i] == Signed(slots[i].letter, n)
    ensures GivenInt(Emit(slots), slots[i].letter) == n
  {
    LookupSlot(slots, i);
    if n.Some? { IntRoundTrip(n.value); }
  }

  lemma UnsignedBack(slots: seq<Slot>, i: nat, n: Option<Uint64>)
    requires i < |slots| && DistinctLetters(slots) && slots[i] == Unsigned(slots[i].letter, n)
    ensures GivenUint(Emit(slots), slots[i].letter) == n
  {
    LookupSlot(slots, i);
    if n.Some? { UintRoundTrip(n.value, MAX_64); }
  }

  lemma BareBack(slots: seq<Slot>, i: nat)
    requires i < |slots| && DistinctLetters(slots)
    ensures Lookup(Emit(slots), slots[i].letter) == slots[i].token
  {
    LookupSlot(slots, i);
  }

  // What a get asks to be told reaches the server; the cas token is asked for
  // whenever the client may need it for a write.
  lemma GetAsks(key: Bytes, o: GetOptions)
    requires BuildGet(key, o).Built?
    ensures
      var flags := BuildGet(key, o).command.flags;
      && Given(flags, 118) == !o.metadataOnly
      && Given(flags, 99) == (o.returnCAS || o.vivifyTTL.Some? || o.refreshBefore.Some? || o.unlessCAS.Some?)
      && Given(flags, 102) == o.returnClientFlags
      && Given(flags, 116) == o.returnTTL
      && Given(flags, 115) == o.returnSize
      && Given(flags, 108) == o.returnLastAccess
      && Given(flags, 104) == o.returnHitBefore
      && Given(flags, 107) == o.returnKey
      && Given(flags, 117) == o.noLRUBump
  {
    hide Emit, Lookup, FormatInt, FormatUint, GivenInt, GivenUint, ModeToken, TtlOf, ClientFlagsOf, SetError,
      GetError, ArithmeticError, DeleteError;
    var slots := GetSlots(o);
    assert DistinctLetters(slots);
    BareBack(slots, 0); BareBack(slots, 1); BareBack(slots, 2); BareBack(slots, 3); BareBack(slots, 4);
    BareBack(slots, 5); BareBack(slots, 6); BareBack(slots, 7); BareBack(slots, 8);
  }

  // So does what it asks to be done, and its tag.
  lemma GetDoes(key: Bytes, o: GetOptions)
    requires BuildGet(key, o).Built?
    ensures
      var flags := BuildGet(key, o).command.flags;
      && GivenInt(flags, 84) == o.touch
      && GivenInt(flags, 78) == o.vivifyTTL
      && GivenInt(flags, 82) == o.refreshBefore
      && GivenUint(flags, 67) == o.unlessCAS
      && GivenUint(flags, 69) == o.setCAS
      && Lookup(flags, 79) == (if o.tag == [] then None else Some(o.tag))
  {
    hide Emit, Lookup, FormatInt, FormatUint, GivenInt, GivenUint, ModeToken, TtlOf, ClientFlagsOf, SetError,
      GetError, ArithmeticError, DeleteError;
    var slots := GetSlots(o);
    assert DistinctLetters(slots);
    SignedBack(slots, 9, o.touch); SignedBack(slots, 10, o.vivifyTTL); SignedBack(slots, 11, o.refreshBefore);
    UnsignedBack(slots, 12, o.unlessCAS); UnsignedBack(slots, 13, o.setCAS); BareBack(slots, 14);
  }

  // The conditions and the mode of a store.
  lemma SetDoes(key: Bytes, value: Bytes, o: SetOptions)
    requires BuildSet(key, value, o).Built?
    ensures
      var flags := BuildSet(key, value, o).command.flags;
      && GivenUint(flags, 70) == ClientFlagsOf(o)
      && GivenInt(flags, 84) == TtlOf(o)
      && Lookup(flags, 77) == ModeToken(o.mode)
  {
    hide Emit, Lookup, FormatInt, FormatUint, GivenInt, GivenUint, ModeToken, TtlOf, ClientFlagsOf, SetError,
      GetError, ArithmeticError, DeleteError;
    var slots := SetSlots(o);
    assert DistinctLetters(slots);
    UnsignedBack(slots, 0, ClientFlagsOf(o)); SignedBack(slots, 1, TtlOf(o)); BareBack(slots, 2);
  }

  lemma SetAsks(key: Bytes, value: Bytes, o: SetOptions)
    requires BuildSet(key, value, o).Built?
    ensures
      var flags := BuildSet(key, value, o).command.flags;
      && GivenUint(flags, 67) == o.compareCAS
      && GivenUint(flags, 69) == o.setCAS
      && Given(flags, 73) == o.invalidate
      && GivenInt(flags, 78) == o.vivifyTTL
      && Given(flags, 99) == o.returnCAS
      && Given(flags, 115) == o.returnSize
      && Given(flags, 107) == o.returnKey
      && Lookup(flags, 79) == (if o.tag == [] then None else Some(o.tag))
  {
    hide Emit, Lookup, FormatInt, FormatUint, GivenInt, GivenUint, ModeToken, TtlOf, ClientFlagsOf, SetError,
      GetError, ArithmeticError, DeleteError;
    var slots := SetSlots(o);
    assert DistinctLetters(slots);
    UnsignedBack(slots, 3, o.compareCAS); UnsignedBack(slots, 4, o.setCAS);
    BareBack(slots, 5); SignedBack(slots, 6, o.vivifyTTL); BareBack(slots, 7); BareBack(slots, 8);
    BareBack(slots, 9); BareBack(slots, 10);
  }

  lemma DeleteReadBack(key: Bytes, o: DeleteOptions)
    requires BuildDelete(key, o).Built?
    ensures
      var flags := BuildDelete(key, o).command.flags;
      && GivenUint(flags, 67) == o.compareCAS
      && GivenUint(flags, 69) == o.setCAS
      && Given(flags, 73) == o.invalidate
      && GivenInt(flags, 84) == o.staleFor
      && Given(flags, 120) == o.dropValue
      && Given(flags, 107) == o.returnKey
      && Lookup(flags, 79) == (if o.tag == [] then None else Some(o.tag))
  {
    hide Emit, Lookup, FormatInt, FormatUint, GivenInt, GivenUint, ModeToken, TtlOf, ClientFlagsOf, SetError,
      GetError, ArithmeticError, DeleteError;
    var slots := DeleteSlots(o);
    assert DistinctLetters(slots);
    UnsignedBack(slots, 0, o.compareCAS); UnsignedBack(slots, 1, o.setCAS); BareBack(slots, 2);
    SignedBack(slots, 3, o.staleFor); BareBack(slots, 4); BareBack(slots, 5); BareBack(slots, 6);
  }

  lemma ArithmeticReadBack(key: Bytes, o: ArithmeticOptions)
    requires BuildArithmetic(key, o).Built?
    ensures
      var flags := BuildArithmetic(key, o).command.flags;
      && GivenUint(flags, 68) == Some(o.delta)
      && Lookup(flags, 77) == (if o.decrement then Some([68]) else None)
      && GivenUint(flags, 74) == o.initial
      && GivenInt(flags, 78) == o.initialTTL
      && GivenInt(flags, 84) == o.touch
      && GivenUint(flags, 67) == o.compareCAS
      && GivenUint(flags, 69) == o.setCAS
      && Given(flags, 118) == !o.metadataOnly
      && Given(flags, 116) == o.returnTTL
      && Given(flags, 99) == o.returnCAS
      && Given(flags, 107) == o.returnKey
      && Lookup(flags, 79) == (if o.tag == [] then None else Some(o.tag))
  {
    hide Emit, Lookup, FormatInt, FormatUint, GivenInt, GivenUint, ModeToken, TtlOf, ClientFlagsOf, SetError,
      GetError, ArithmeticError, DeleteError;
    var slots := ArithmeticSlots(o);
    assert DistinctLetters(slots);
    UnsignedBack(slots, 0, Some(o.delta)); BareBack(slots, 1); UnsignedBack(slots, 2, o.initial);
    SignedBack(slots, 3, o.initialTTL); SignedBack(slots, 4, o.touch); UnsignedBack(slots, 5, o.compareCAS);
    UnsignedBack(slots, 6, o.setCAS); BareBack(slots, 7); BareBack(slots, 8); BareBack(slots, 9);
    BareBack(slots, 10); BareBack(slots, 11);
  }

  // ---- side effects ----

  // commandHasSideEffect (client.go:203-216).
  predicate HasSideEffect(m: MetaCommand) {
    if m.command != MG then m.command != Commands.ME
    else Given(m.flags, 84) || Given(m.flags, 78) || Given(m.flags, 82) || Given(m.flags, 69)
  }

  method CommandHasSideEffect(m: MetaCommand) returns (has: bool)
    ensures has == HasSideEffect(m)
  {
    if m.command != MG { return m.command != Commands.ME; }
    var flags := m.flags;
    for i := 0 to |flags|
      invariant forall letter :: letter == 84 || letter == 78 || letter == 82 || letter == 69 ==>
        Lookup(flags, letter) == Lookup(flags[i..], letter)
    {
      assert flags[i..][1..] == flags[i + 1..];
      if flags[i] != [] {
        var letter := flags[i][0];
        if letter == 84 || letter == 78 || letter == 82 || letter == 69 { return true; }
      }
    }
    return false;
  }

  // A get that only reads is the one kind of operation that is safe to lose.
  lemma GetSideEffect(key: Bytes, o: GetOptions)
    requires BuildGet(key, o).Built?
    ensures HasSideEffect(BuildGet(key, o).command) <==>
            o.touch.Some? || o.vivifyTTL.Some? || o.refreshBefore.Some? || o.setCAS.Some?
  {
    hide Emit, Lookup, FormatInt, FormatUint;
    var slots := GetSlots(o);
    assert DistinctLetters(slots);
    BareBack(slots, 9); BareBack(slots, 10); BareBack(slots, 11); BareBack(slots, 13);
  }

  // Whatever the options, marshal refuses nothing a builder made except for its
  // key, and the key is read back as it was.
  lemma GetClean(o: GetOptions)
    requires GetError(o).None?
    ensures CleanFlags(Emit(GetSlots(o)))
  {
    SignedClean(84, o.touch);
    SignedClean(78, o.vivifyTTL);
    SignedClean(82, o.refreshBefore);
    UnsignedClean(67, o.unlessCAS);
    UnsignedClean(69, o.setCAS);
    hide Signed, Unsigned, Word, Emit;
    EmitClean(GetSlots(o));
  }

  lemma SetClean(o: SetOptions)
    requires SetError(o).None?
    ensures CleanFlags(Emit(SetSlots(o)))
  {
    UnsignedClean(70, ClientFlagsOf(o));
    SignedClean(84, TtlOf(o));
    assert CleanSlot(Slot(77, ModeToken(o.mode)));
    UnsignedClean(67, o.compareCAS);
    UnsignedClean(69, o.setCAS);
    SignedClean(78, o.vivifyTTL);
    hide Signed, Unsigned, Word, Emit;
    EmitClean(SetSlots(o));
  }

  lemma DeleteClean(o: DeleteOptions)
    requires DeleteError(o).None?
    ensures CleanFlags(Emit(DeleteSlots(o)))
  {
    UnsignedClean(67, o.compareCAS);
    UnsignedClean(69, o.setCAS);
    SignedClean(84, o.staleFor);
    hide Signed, Unsigned, Word, Emit;
    EmitClean(DeleteSlots(o));
  }

  lemma ArithmeticClean(o: ArithmeticOptions)
    requires ArithmeticError(o).None?
    ensures CleanFlags(Emit(ArithmeticSlots(o)))
  {
    UnsignedClean(68, Some(o.delta));
    assert CleanSlot(Slot(77, if o.decrement then Some([68]) else None));
    UnsignedClean(74, o.initial);
    SignedClean(78, o.initialTTL);
    SignedClean(84, o.touch);
    UnsignedClean(67, o.compareCAS);
    UnsignedClean(69, o.setCAS);
    hide Signed, Unsigned, Word, Emit;
    EmitClean(ArithmeticSlots(o));
  }
}
