// Commands on the wire: how the client prints them (wire.go:35-125) and how a
// server reads them back (protocol.txt, "Meta Commands" and the command
// sections).
module Commands {
  import opened Protocol
  import opened Text
  import Base64

  const MG: Bytes := [109, 103]
  const MS: Bytes := [109, 115]
  const MD: Bytes := [109, 100]
  const MA: Bytes := [109, 97]
  const ME: Bytes := [109, 101]
  const MN: Bytes := [109, 110]
  const BASE64_FLAG: Bytes := [98]
  const MAX_WIRE_KEY := 250

  datatype MetaCommand = MetaCommand(command: Bytes, key: Bytes, flags: seq<Bytes>, value: Bytes, hasValue: bool)

  datatype UsageError =
    | Unsupported | MissingValue | UnexpectedValue | EmptyKey | LongKey | BinaryDebug | BadFlag

  datatype Result<+T> = Ok(value: T) | Err(error: UsageError)

  // ---- printing ----

  predicate Separating(b: Byte) { b <= 32 || b == 127 }

  predicate Binary(key: Bytes) { exists i :: 0 <= i < |key| && Separating(key[i]) }

  function WireKey(key: Bytes): Bytes { if Binary(key) then Base64.Encode(key) else key }

  function WireFlags(m: MetaCommand): seq<Bytes> {
    m.flags + if Binary(m.key) && BASE64_FLAG !in m.flags then [BASE64_FLAG] else []
  }

  function Line(m: MetaCommand): Bytes {
    m.command + Spaced([WireKey(m.key)] + (if m.hasValue then [FormatUint(|m.value|)] else []) + WireFlags(m))
  }

  function Body(m: MetaCommand): Bytes { if m.hasValue then m.value + CRLF else [] }

  // encodeKey.
  function CheckKey(key: Bytes): Option<UsageError> {
    if key == [] then Some(EmptyKey) else if |WireKey(key)| > MAX_WIRE_KEY then Some(LongKey) else None
  }

  // marshal refuses what it cannot print, in this order.
  function Refusal(m: MetaCommand): Option<UsageError> {
    if m.command !in {MG, MS, MD, MA, ME} then Some(Unsupported)
    else if m.command == MS && !m.hasValue then Some(MissingValue)
    else if m.command != MS && m.hasValue then Some(UnexpectedValue)
    else if CheckKey(m.key).Some? then CheckKey(m.key)
    else if Binary(m.key) && m.command == ME then Some(BinaryDebug)
    else if !Words(WireFlags(m)) then Some(BadFlag)
    else None
  }

  function Printed(m: MetaCommand): Bytes { Line(m) + CRLF + Body(m) }

  // encodeKey (wire.go:35-54).
  method EncodeKey(key: Bytes) returns (wire: Bytes, binary: bool, err: Option<UsageError>)
    ensures err == CheckKey(key)
    ensures err.None? ==> binary == Binary(key) && wire == WireKey(key)
  {
    if key == [] { return [], false, Some(EmptyKey); }
    binary := false;
    for i := 0 to |key|
      invariant !binary && forall j :: 0 <= j < i ==> !Separating(key[j])
    {
      if key[i] <= 0x20 || key[i] == 0x7f {
        binary := true;
        assert Separating(key[i]);
        break;
      }
    }
    assert binary == Binary(key);
    wire := if binary then Base64.Encode(key) else key;
    if |wire| > MAX_WIRE_KEY { return [], false, Some(LongKey); }
    err := None;
  }

  method Invalid(flag: Bytes) returns (bad: bool)
    ensures bad == !Word(flag)
  {
    if flag == [] { return true; }
    for i := 0 to |flag|
      invariant forall j :: 0 <= j < i ==> !Separating(flag[j])
    {
      if flag[i] <= 0x20 || flag[i] == 0x7f { return true; }
    }
    assert forall j :: 0 <= j < |flag| ==> !Separating(flag[j]);
    return false;
  }

  // marshal's flag loop (wire.go:112-118).
  method WriteFlags(head: Bytes, flags: seq<Bytes>) returns (ok: bool, b: Bytes)
    ensures ok == Words(flags)
    ensures ok ==> b == head + Spaced(flags)
  {
    b := head;
    for i := 0 to |flags|
      invariant b == head + Spaced(flags[..i])
      invariant forall j :: 0 <= j < i ==> Word(flags[j])
    {
      hide Spaced, Word;
      var bad := Invalid(flags[i]);
      if bad { return false, []; }
      SpacedGrows(flags, i);
      assert head + (Spaced(flags[..i]) + [SPACE] + flags[i]) == head + Spaced(flags[..i]) + [SPACE] + flags[i];
      b := b + [SPACE] + flags[i];
    }
    assert flags[..|flags|] == flags;
    ok := true;
  }

  // marshal's search for a flag that already marks the key (wire.go:92-101).
  method MarkKey(given: seq<Bytes>) returns (flags: seq<Bytes>)
    ensures flags == given + if BASE64_FLAG in given then [] else [BASE64_FLAG]
  {
    flags := given;
    for i := 0 to |given|
      invariant BASE64_FLAG !in given[..i]
    {
      assert given[..i + 1] == given[..i] + [given[i]];
      if given[i] == BASE64_FLAG { return; }
    }
    assert given[..|given|] == given;
    flags := flags + [BASE64_FLAG];
  }

  // marshal (wire.go:71-125).
  method Marshal(m: MetaCommand) returns (r: Result<Bytes>)
    ensures r == match Refusal(m) case Some(e) => Err(e) case None => Ok(Printed(m))
  {
    hide Words, WireKey, CheckKey, Line, Binary;
    if m.command != MG && m.command != MS && m.command != MD && m.command != MA && m.command != ME {
      return Err(Unsupported);
    }
    if m.command == MS && !m.hasValue { return Err(MissingValue); }
    if m.command != MS && m.hasValue { return Err(UnexpectedValue); }
    var key, binary, err := EncodeKey(m.key);
    if err.Some? { return Err(err.value); }
    var flags := m.flags;
    if binary {
      if m.command == ME { return Err(BinaryDebug); }
      flags := MarkKey(flags);
    }
    assert flags == WireFlags(m);
    hide WireFlags;
    var b := m.command + [SPACE] + key;
    if m.hasValue { b := b + [SPACE] + FormatUint(|m.value|); }
    LineSoFar(m, b);
    var ok;
    ok, b := WriteFlags(b, flags);
    if !ok { return Err(BadFlag); }
    b := b + CRLF;
    if m.hasValue { b := b + m.value + CRLF; }
    assert b == Line(m) + CRLF + Body(m);
    return Ok(b);
  }

  lemma LineSoFar(m: MetaCommand, head: Bytes)
    requires head == m.command + [SPACE] + WireKey(m.key) + if m.hasValue then [SPACE] + FormatUint(|m.value|) else []
    ensures Line(m) == head + Spaced(WireFlags(m))
  {
    var flags := WireFlags(m);
    var key := WireKey(m.key);
    hide WireKey, WireFlags, FormatUint;
    if m.hasValue {
      var size := FormatUint(|m.value|);
      assert ([key] + [size] + flags)[1..] == [size] + flags;
      assert ([size] + flags)[1..] == flags;
      assert Spaced([key] + [size] + flags) == [SPACE] + key + ([SPACE] + size + Spaced(flags));
    } else {
      assert [key] + [] + flags == [key] + flags;
      assert ([key] + flags)[1..] == flags;
      assert Spaced([key] + flags) == [SPACE] + key + Spaced(flags);
    }
  }

  // ---- reading ----

  // A command as the server takes it: the key itself, whatever its bytes, and
  // the flags without the one that says how the key was sent.
  datatype Request = Noop | Request(command: Bytes, key: Bytes, flags: seq<Bytes>, value: Option<Bytes>)

  datatype Parsed = Parsed(request: Request, rest: Bytes)

  function Unmarked(flags: seq<Bytes>): seq<Bytes> {
    if flags == [] then [] else (if MarksBase64(flags[0]) then [] else [flags[0]]) + Unmarked(flags[1..])
  }

  function ReadCommand(s: Bytes): (p: Option<Parsed>)
    ensures p.Some? ==> |p.value.rest| < |s|
  {
    match LineFeed(s)
    case None => None
    case Some(i) =>
      if i == 0 || s[i - 1] != 13 then None
      else ReadFields(Fields(s[..i - 1]), s[i + 1..])
  }

  function ReadFields(fields: seq<Bytes>, rest: Bytes): (p: Option<Parsed>)
    ensures p.Some? ==> |p.value.rest| <= |rest|
  {
    if fields == [MN] then Some(Parsed(Noop, rest))
    else if |fields| < 2 || fields[0] !in {MG, MS, MD, MA, ME} then None
    else if fields[0] != MS then ReadKey(fields[0], fields[1], fields[2..], None, rest)
    else if |fields| < 3 || fields[2] == [] || !Digits(fields[2]) then None
    else
      var size := Number(fields[2]);
      if |rest| < size + 2 || rest[size..size + 2] != CRLF then None
      else ReadKey(MS, fields[1], fields[3..], Some(rest[..size]), rest[size + 2..])
  }

  function ReadKey(command: Bytes, key: Bytes, flags: seq<Bytes>, value: Option<Bytes>, rest: Bytes): (p: Option<Parsed>)
    ensures p.Some? ==> p.value.rest == rest
  {
    if !AnyBase64(flags) then Some(Parsed(Request(command, key, flags, value), rest))
    else
      match Base64.Decode(key)
      case None => None
      case Some(bytes) => Some(Parsed(Request(command, bytes, Unmarked(flags), value), rest))
  }

  function ReadCommands(s: Bytes): Option<seq<Request>>
    decreases |s|
  {
    if s == [] then Some([])
    else
      match ReadCommand(s)
      case None => None
      case Some(p) =>
        match ReadCommands(p.rest)
        case None => None
        case Some(more) => Some([p.request] + more)
  }

  // ---- what is printed is what is read ----

  // A command whose key is not already marked as encoded by its caller, as every
  // builder makes it.
  predicate Plain(m: MetaCommand) { !AnyBase64(m.flags) }

  function Meaning(m: MetaCommand): Request {
    Request(m.command, m.key, m.flags, if m.hasValue then Some(m.value) else None)
  }

  lemma KeyPrintable(key: Bytes)
    requires key != []
    ensures Word(WireKey(key))
  {
    if Binary(key) {
      Base64.EncodedPrintable(key);
    } else {
      assert forall i :: 0 <= i < |key| ==> !Separating(key[i]);
    }
  }

  lemma {:induction false} UnmarkedPlain(flags: seq<Bytes>)
    requires !AnyBase64(flags)
    ensures Unmarked(flags) == flags && Unmarked(flags + [BASE64_FLAG]) == flags
  {
    assert MarksBase64(BASE64_FLAG);
    if flags == [] {
      assert [BASE64_FLAG][1..] == [];
    } else {
      assert !MarksBase64(flags[0]);
      forall i | 0 <= i < |flags[1..]| ensures !MarksBase64(flags[1..][i]) {
        assert flags[1..][i] == flags[i + 1];
      }
      UnmarkedPlain(flags[1..]);
      assert (flags + [BASE64_FLAG])[1..] == flags[1..] + [BASE64_FLAG];
      assert flags == [flags[0]] + flags[1..];
    }
  }

  lemma KeyRead(m: MetaCommand, value: Option<Bytes>, rest: Bytes)
    requires Plain(m) && m.key != []
    ensures ReadKey(m.command, WireKey(m.key), WireFlags(m), value, rest) ==
            Some(Parsed(Request(m.command, m.key, m.flags, value), rest))
  {
    forall i | 0 <= i < |m.flags| ensures m.flags[i] != BASE64_FLAG {
      assert !MarksBase64(m.flags[i]);
    }
    if Binary(m.key) {
      Base64.RoundTrip(m.key);
      UnmarkedPlain(m.flags);
      var flags := WireFlags(m);
      assert MarksBase64(flags[|flags| - 1]);
    } else {
      assert WireFlags(m) == m.flags;
    }
  }

  lemma LineRead(m: MetaCommand)
    requires Refusal(m).None?
    ensures
      && Fields(Line(m)) ==
           [m.command, WireKey(m.key)] + (if m.hasValue then [FormatUint(|m.value|)] else []) + WireFlags(m)
      && forall i :: 0 <= i < |Line(m)| ==> Line(m)[i] != 10
  {
    hide WireKey, WireFlags, Fields, FormatUint, Word, Binary;
    var size := if m.hasValue then [FormatUint(|m.value|)] else [];
    var all := [WireKey(m.key)] + size + WireFlags(m);
    KeyPrintable(m.key);
    UintRoundTrip(|m.value|, |m.value| + 1);
    CommandWord(m);
    assert Words(all);
    hide Words, CheckKey;
    FieldsOfLine(m.command, all);
    SpacedUnbroken(all);
  }

  lemma CommandWord(m: MetaCommand)
    requires m.command in {MG, MS, MD, MA, ME}
    ensures Word(m.command) && forall i :: 0 <= i < |m.command| ==> m.command[i] != 10
  {
  }

  // One command, whatever follows it.
  lemma CommandRoundTrip(m: MetaCommand, rest: Bytes)
    requires Refusal(m).None? && Plain(m)
    ensures ReadCommand(Printed(m) + rest) == Some(Parsed(Meaning(m), rest))
  {
    LineRead(m);
    var after := Body(m) + rest;
    assert Printed(m) + rest == Line(m) + CRLF + after;
    LineEnds(Line(m), after);
    KeyRead(m, if m.hasValue then Some(m.value) else None, rest);
    var s := Printed(m) + rest;
    assert s[..|Line(m)| + 1 - 1] == Line(m);
    assert s[|Line(m)| + 1 + 1..] == after;
    hide Line, Printed, Fields, WireKey, WireFlags, ReadKey, LineFeed, AnyBase64;
    FieldsRead(m, rest);
  }

  lemma FieldsRead(m: MetaCommand, rest: Bytes)
    requires Refusal(m).None?
    ensures
      var fields := [m.command, WireKey(m.key)] + (if m.hasValue then [FormatUint(|m.value|)] else []) + WireFlags(m);
      ReadFields(fields, Body(m) + rest) ==
        ReadKey(m.command, WireKey(m.key), WireFlags(m), if m.hasValue then Some(m.value) else None, rest)
  {
    var fields := [m.command, WireKey(m.key)] + (if m.hasValue then [FormatUint(|m.value|)] else []) + WireFlags(m);
    hide WireKey, WireFlags, CheckKey, FormatUint, ReadKey, Number, Digits, Words;
    assert |fields| >= 2 && fields[0] == m.command && fields[1] == WireKey(m.key);
    if m.hasValue {
      FormatDigits(|m.value|);
      assert fields[3..] == WireFlags(m);
      var after := Body(m) + rest;
      assert after == m.value + (CRLF + rest);
      assert after[..|m.value|] == m.value;
      assert after[|m.value|..|m.value| + 2] == CRLF;
      assert after[|m.value| + 2..] == rest;
    } else {
      assert fields[2..] == WireFlags(m);
      assert Body(m) + rest == rest;
    }
  }

  function Stream(ms: seq<MetaCommand>): Bytes {
    if ms == [] then [] else Printed(ms[0]) + Stream(ms[1..])
  }

  function Meanings(ms: seq<MetaCommand>): (rs: seq<Request>)
    ensures |rs| == |ms| && forall i :: 0 <= i < |ms| ==> rs[i] == Meaning(ms[i])
  {
    if ms == [] then [] else [Meaning(ms[0])] + Meanings(ms[1..])
  }

  // Any number of commands back to back, as a flush or a batch sends them, read
  // back as the same commands, whatever bytes their keys and values hold.
  lemma {:induction false} StreamRoundTrip(ms: seq<MetaCommand>, rest: Bytes)
    requires forall i :: 0 <= i < |ms| ==> Refusal(ms[i]).None? && Plain(ms[i])
    requires ReadCommands(rest).Some?
    ensures ReadCommands(Stream(ms) + rest) == Some(Meanings(ms) + ReadCommands(rest).value)
  {
    hide Printed, Meaning, ReadCommand, ReadCommands, Refusal, Plain;
    if ms == [] {
      assert Stream(ms) + rest == rest;
      assert Meanings(ms) + ReadCommands(rest).value == ReadCommands(rest).value;
    } else {
      var after := Stream(ms[1..]) + rest;
      CommandRoundTrip(ms[0], after);
      StreamRoundTrip(ms[1..], rest);
      assert Stream(ms) + rest == Printed(ms[0]) + after;
      ReadOn(Printed(ms[0]) + after, Meaning(ms[0]), after);
      var more := ReadCommands(rest).value;
      assert [Meaning(ms[0])] + (Meanings(ms[1..]) + more) == [Meaning(ms[0])] + Meanings(ms[1..]) + more;
    }
  }

  lemma ReadOn(s: Bytes, r: Request, after: Bytes)
    requires ReadCommand(s) == Some(Parsed(r, after)) && ReadCommands(after).Some?
    ensures ReadCommands(s) == Some([r] + ReadCommands(after).value)
  {
    assert s != [];
    hide ReadCommand;
  }

  // No command's bytes begin another command's.
  lemma PrefixFree(a: MetaCommand, b: MetaCommand)
    requires Refusal(a).None? && Plain(a) && Refusal(b).None? && Plain(b)
    requires Printed(a) <= Printed(b)
    ensures Printed(a) == Printed(b) && Meaning(a) == Meaning(b)
  {
    hide Printed, Meaning, ReadCommand, Refusal, Plain;
    var rest := Printed(b)[|Printed(a)|..];
    CommandRoundTrip(a, rest);
    CommandRoundTrip(b, []);
    assert Printed(a) + rest == Printed(b) == Printed(b) + [];
    assert rest == [];
  }
}
