// The reply stream (wire.go:127-329): reading lines through a buffer of any
// size, framing replies, and parsing the flags of one. The printing functions
// are the server's side, as protocol.txt describes it.
module Responses {
  import opened Protocol
  import opened Text
  import Base64

  const MAX_LINE := 65536

  datatype ReadError =
    | Truncated | TooLong | NotCrlf | Empty | NoSize | BadSize | TooBig | BadTail | NoKey | UnknownCode

  // ---- lines ----

  datatype LineRead = Line(text: Bytes, rest: Bytes) | LineError(error: ReadError)

  function ReadLineSpec(s: Bytes): (r: LineRead)
    ensures r.Line? ==> |r.text| + 2 + |r.rest| == |s| && |r.text| + 2 <= MAX_LINE && s == r.text + CRLF + r.rest
  {
    match LineFeed(s)
    case None => LineError(if |s| > MAX_LINE then TooLong else Truncated)
    case Some(i) =>
      if i + 1 > MAX_LINE then LineError(TooLong)
      else if i == 0 || s[i - 1] != 13 then LineError(NotCrlf)
      else
        assert s == s[..i - 1] + [s[i - 1], s[i]] + s[i + 1..];
        Line(s[..i - 1], s[i + 1..])
  }

  datatype Stop = Found | BufferFull | EndOfStream

  // bufio's ReadSlice: up to and including the next line feed, or as much as the
  // buffer takes, or what is left before the stream ends.
  method ReadSlice(input: Bytes, start: nat, room: nat) returns (part: Bytes, stop: Stop)
    requires start <= |input| && room > 0
    ensures start + |part| <= |input| && part == input[start..start + |part|]
    ensures stop.Found? ==> part != [] && part[|part| - 1] == 10 && 10 !in part[..|part| - 1]
    ensures !stop.Found? ==> 10 !in part
    ensures stop.BufferFull? ==> |part| == room
    ensures stop.EndOfStream? ==> start + |part| == |input|
  {
    var n := 0;
    while n < room && start + n < |input|
      invariant start + n <= |input| && n <= room
      invariant forall i :: start <= i < start + n ==> input[i] != 10
    {
      if input[start + n] == 10 { return input[start..start + n + 1], Found; }
      n := n + 1;
    }
    part := input[start..start + n];
    stop := if n == room then BufferFull else EndOfStream;
  }

  // readLine (wire.go:127-146). chunk is how much the buffer happens to hold at
  // each turn; the result does not depend on it.
  method ReadLine(input: Bytes, start: nat, chunk: nat -> nat) returns (r: LineRead, next: nat)
    requires start <= |input|
    ensures r == ReadLineSpec(input[start..])
    ensures r.Line? ==> next <= |input| && input[next..] == r.rest
  {
    hide ReadLineSpec, LineFeed;
    ghost var s := input[start..];
    var line: Bytes := [];
    next := start;
    var turn: nat := 0;
    while true
      invariant start <= next <= |input|
      invariant line == s[..next - start] && 10 !in line && |line| <= MAX_LINE
      decreases |input| - next
    {
      var part, stop := ReadSlice(input, next, chunk(turn) + 1);
      turn := turn + 1;
      Appended(s, line, input[next..next + |part|], next - start, stop.Found?);
      line := line + part;
      next := next + |part|;
      LineSoFar(s, |line|, stop.Found?);
      if |line| > MAX_LINE { return LineError(TooLong), next; }
      if stop.Found? { break; }
      if stop.EndOfStream? { return LineError(Truncated), next; }
    }
    assert s[|line|..] == input[next..];
    if |line| < 2 || line[|line| - 2] != 13 { return LineError(NotCrlf), next; }
    assert line[..|line| - 2] == s[..|line| - 2];
    r := Line(line[..|line| - 2], input[next..]);
  }

  lemma Appended(s: Bytes, line: Bytes, part: Bytes, n: nat, found: bool)
    requires n + |part| <= |s| && line == s[..n] && part == s[n..n + |part|] && 10 !in line
    requires if found then part != [] && part[|part| - 1] == 10 && 10 !in part[..|part| - 1] else 10 !in part
    ensures line + part == s[..n + |part|]
    ensures forall i :: 0 <= i < n + |part| - (if found then 1 else 0) ==> s[i] != 10
    ensures found ==> s[n + |part| - 1] == 10
    ensures !found ==> 10 !in line + part
  {
    assert forall i :: 0 <= i < n ==> s[i] == line[i];
    assert forall i :: n <= i < n + |part| ==> s[i] == part[i - n];
    assert found ==> forall i :: 0 <= i < |part| - 1 ==> part[i] == part[..|part| - 1][i];
  }

  // What n bytes without an inner line feed say about the whole stream.
  lemma LineSoFar(s: Bytes, n: nat, found: bool)
    requires n <= |s| && (found ==> n > 0 && s[n - 1] == 10)
    requires forall i :: 0 <= i < n - (if found then 1 else 0) ==> s[i] != 10
    ensures n > MAX_LINE ==> ReadLineSpec(s) == LineError(TooLong)
    ensures found && n <= MAX_LINE ==>
      ReadLineSpec(s) == if n < 2 || s[n - 2] != 13 then LineError(NotCrlf) else Line(s[..n - 2], s[n..])
    ensures !found && n == |s| && n <= MAX_LINE ==> ReadLineSpec(s) == LineError(Truncated)
  {
    if found { LineFeedIs(s, n - 1); }
    hide LineFeed;
  }

  // ---- flags ----

  function Number64(token: Bytes): Option<nat> { ParseUint(token, MAX_64) }

  function Bad(r: RawResponse): RawResponse { r.(parseErr := true) }

  // One flag; what cannot be read is noted and skipped.
  function OneFlag(r: RawResponse, flag: Bytes): RawResponse {
    if flag == [] then r
    else
      var token := flag[1..];
      match flag[0]
      case 99 => if Number64(token).Some? then r.(meta := r.meta.(cas := Number64(token))) else Bad(r)
      case 116 => if ParseInt(token).Some? then r.(meta := r.meta.(ttl := ParseInt(token))) else Bad(r)
      case 115 => if Number64(token).Some? then r.(meta := r.meta.(size := Number64(token))) else Bad(r)
      case 102 =>
        if ParseUint(token, MAX_32).Some? then r.(meta := r.meta.(clientFlags := ParseUint(token, MAX_32))) else Bad(r)
      case 108 => if Number64(token).Some? then r.(meta := r.meta.(lastAccess := Number64(token))) else Bad(r)
      case 104 => if token == [48] || token == [49] then r.(meta := r.meta.(hitBefore := Some(token == [49]))) else Bad(r)
      case 107 => r.(key := Some(token))
      case 79 => r.(token := token)
      case 87 => r.(won := true)
      case 90 => r.(busy := true)
      case 88 => r.(stale := true)
      case _ => r
  }

  function AllFlags(r: RawResponse, flags: seq<Bytes>): RawResponse {
    if flags == [] then r else OneFlag(AllFlags(r, flags[..|flags| - 1]), flags[|flags| - 1])
  }

  function DecodeKey(r: RawResponse, base64: bool): RawResponse {
    if !base64 || r.key.None? then r
    else match Base64.Decode(r.key.value) case None => Bad(r) case Some(key) => r.(key := Some(key))
  }

  function Flagged(r: RawResponse): RawResponse { DecodeKey(AllFlags(r, r.flags), AnyBase64(r.flags)) }

  // parseResponseFlags (wire.go:242-329).
  method ParseResponseFlags(given: RawResponse) returns (result: RawResponse)
    ensures result == Flagged(given)
  {
    result := given;
    var base64 := false;
    for i := 0 to |given.flags|
      invariant result == AllFlags(given, given.flags[..i])
      invariant base64 == AnyBase64(given.flags[..i])
    {
      hide OneFlag;
      var flag := given.flags[i];
      assert given.flags[..i + 1][..i] == given.flags[..i];
      assert AnyBase64(given.flags[..i + 1]) == (AnyBase64(given.flags[..i]) || MarksBase64(flag)) by {
        MarksOneMore(given.flags, i);
      }
      if flag == [] {
        assert OneFlag(result, flag) == result by { EmptyFlag(result); }
        continue;
      }
      if flag[0] == 98 { base64 := true; }
      result := OneFlag(result, flag);
    }
    assert given.flags[..|given.flags|] == given.flags;
    if base64 && result.key.Some? {
      var decoded := Base64.Decode(result.key.value);
      if decoded.None? { result := result.(parseErr := true); } else { result := result.(key := decoded); }
    }
  }

  lemma EmptyFlag(r: RawResponse)
    ensures OneFlag(r, []) == r
  {
  }

  lemma MarksOneMore(flags: seq<Bytes>, i: nat)
    requires i < |flags|
    ensures AnyBase64(flags[..i + 1]) == (AnyBase64(flags[..i]) || MarksBase64(flags[i]))
  {
    if AnyBase64(flags[..i]) {
      var j :| 0 <= j < i && MarksBase64(flags[..i][j]);
      assert flags[..i + 1][j] == flags[j];
    }
    assert flags[..i + 1][i] == flags[i];
    if AnyBase64(flags[..i + 1]) {
      var j :| 0 <= j < i + 1 && MarksBase64(flags[..i + 1][j]);
      if j < i { assert flags[..i][j] == flags[j]; }
    }
  }

  // The flags a server can send, typed.
  datatype Flag =
    | Cas(n: nat) | Ttl(seconds: int) | Size(n: nat) | ClientFlags(n: nat) | LastAccess(n: nat) | HitBefore(hit: bool)
    | Key(text: Bytes) | Opaque(text: Bytes) | Won | Busy | Stale | KeyIsBase64

  predicate Sendable(f: Flag) {
    match f
    case Cas(n) => n < MAX_64
    case Ttl(n) => -(MAX_63 as int) <= n < MAX_63
    case Size(n) => n < MAX_64
    case ClientFlags(n) => n < MAX_32
    case LastAccess(n) => n < MAX_64
    case _ => true
  }

  function PrintFlag(f: Flag): Bytes {
    match f
    case Cas(n) => [99] + FormatUint(n)
    case Ttl(n) => [116] + FormatInt(n)
    case Size(n) => [115] + FormatUint(n)
    case ClientFlags(n) => [102] + FormatUint(n)
    case LastAccess(n) => [108] + FormatUint(n)
    case HitBefore(hit) => [104, if hit then 49 else 48]
    case Key(key) => [107] + key
    case Opaque(token) => [79] + token
    case Won => [87]
    case Busy => [90]
    case Stale => [88]
    case KeyIsBase64 => [98]
  }

  // What a flag tells the client.
  function Tell(r: RawResponse, f: Flag): RawResponse {
    match f
    case Cas(n) => r.(meta := r.meta.(cas := Some(n)))
    case Ttl(n) => r.(meta := r.meta.(ttl := Some(n)))
    case Size(n) => r.(meta := r.meta.(size := Some(n)))
    case ClientFlags(n) => r.(meta := r.meta.(clientFlags := Some(n)))
    case LastAccess(n) => r.(meta := r.meta.(lastAccess := Some(n)))
    case HitBefore(hit) => r.(meta := r.meta.(hitBefore := Some(hit)))
    case Key(key) => r.(key := Some(key))
    case Opaque(token) => r.(token := token)
    case Won => r.(won := true)
    case Busy => r.(busy := true)
    case Stale => r.(stale := true)
    case KeyIsBase64 => r
  }

  function TellAll(r: RawResponse, fs: seq<Flag>): RawResponse {
    if fs == [] then r else Tell(TellAll(r, fs[..|fs| - 1]), fs[|fs| - 1])
  }

  function PrintFlags(fs: seq<Flag>): (ws: seq<Bytes>)
    ensures |ws| == |fs| && forall i :: 0 <= i < |fs| ==> ws[i] == PrintFlag(fs[i])
  {
    seq(|fs|, i requires 0 <= i < |fs| => PrintFlag(fs[i]))
  }

  lemma FlagRoundTrip(r: RawResponse, f: Flag)
    requires Sendable(f)
    ensures OneFlag(r, PrintFlag(f)) == Tell(r, f)
    ensures MarksBase64(PrintFlag(f)) <==> f.KeyIsBase64?
  {
    hide ParseUint, ParseInt, FormatUint, FormatInt, Word;
    assert PrintFlag(f)[1..] == match f
      case Cas(n) => FormatUint(n) case Ttl(n) => FormatInt(n) case Size(n) => FormatUint(n)
      case ClientFlags(n) => FormatUint(n) case LastAccess(n) => FormatUint(n)
      case HitBefore(hit) => [if hit then 49 else 48]
      case Key(key) => key case Opaque(token) => token case _ => [];
    match f
    case Cas(n) => UintRoundTrip(n, MAX_64);
    case Ttl(n) => IntRoundTrip(n);
    case Size(n) => UintRoundTrip(n, MAX_64);
    case ClientFlags(n) => UintRoundTrip(n, MAX_32);
    case LastAccess(n) => UintRoundTrip(n, MAX_64);
    case _ =>
  }

  // Flags in any order and number tell the client what the server put in them,
  // and none of them is an error.
  lemma {:induction false} FlagsRoundTrip(r: RawResponse, fs: seq<Flag>)
    requires forall i :: 0 <= i < |fs| ==> Sendable(fs[i])
    ensures AllFlags(r, PrintFlags(fs)) == TellAll(r, fs)
    ensures TellAll(r, fs).parseErr == r.parseErr
  {
    if fs != [] {
      var front := fs[..|fs| - 1];
      FlagsRoundTrip(r, front);
      FlagRoundTrip(TellAll(r, front), fs[|fs| - 1]);
      assert PrintFlags(fs)[..|fs| - 1] == PrintFlags(front);
    }
  }

  // A key that was sent encoded, and said to be, comes back as its own bytes.
  lemma KeyComesBack(r: RawResponse, fs: seq<Flag>, key: Bytes)
    requires forall i :: 0 <= i < |fs| ==> Sendable(fs[i])
    requires r.flags == PrintFlags(fs)
    requires TellAll(r, fs).key == Some(if KeyIsBase64 in fs then Base64.Encode(key) else key)
    ensures Flagged(r) == TellAll(r, fs).(key := Some(key))
  {
    FlagsRoundTrip(r, fs);
    Base64.RoundTrip(key);
    hide OneFlag, AllFlags, TellAll, PrintFlag, Base64.Encode;
    forall i | 0 <= i < |fs| ensures MarksBase64(r.flags[i]) <==> fs[i] == KeyIsBase64 {
      FlagRoundTrip(r, fs[i]);
    }
  }

  // ---- replies ----

  const CLIENT_ERROR: Bytes := [67, 76, 73, 69, 78, 84, 95, 69, 82, 82, 79, 82]
  const SERVER_ERROR: Bytes := [83, 69, 82, 86, 69, 82, 95, 69, 82, 82, 79, 82]
  const ERROR: Bytes := [69, 82, 82, 79, 82]

  function CodeOf(word: Bytes): Option<Code> {
    if word == [72, 68] then Some(HD) else if word == [86, 65] then Some(VA) else if word == [69, 78] then Some(EN)
    else if word == [78, 83] then Some(NS) else if word == [69, 88] then Some(EX) else if word == [78, 70] then Some(NF)
    else if word == [77, 78] then Some(MN) else if word == [77, 69] then Some(ME) else None
  }

  function PrintCode(code: Code): Bytes {
    match code
    case HD => [72, 68] case VA => [86, 65] case EN => [69, 78] case NS => [78, 83]
    case EX => [69, 88] case NF => [78, 70] case MN => [77, 78] case ME => [77, 69]
  }

  function Blank(code: Code, value: Option<Bytes>, key: Option<Bytes>, flags: seq<Bytes>): RawResponse {
    RawResponse(code, value, NoMetadata, key, [], false, false, false, flags, false)
  }

  // One thing off the stream. A reply whose flags could not all be read is still
  // a reply, marked by its parseErr.
  datatype Read = Reply(response: RawResponse) | ServerSaid(error: ServerError)
  datatype Got = Got(read: Read, rest: Bytes) | Broken(error: ReadError)

  function ReadResponse(s: Bytes, maxItemSize: nat): (g: Got)
    ensures g.Got? ==> |g.rest| < |s|
  {
    match ReadLineSpec(s)
    case LineError(e) => Broken(e)
    case Line(text, rest) => ReadText(text, rest, maxItemSize)
  }

  function ReadText(text: Bytes, rest: Bytes, maxItemSize: nat): (g: Got)
    ensures g.Got? ==> |g.rest| <= |rest|
  {
    if text == ERROR then Got(ServerSaid(GenericError), rest)
    else if CLIENT_ERROR <= text then Got(ServerSaid(ClientError(Trim(text[|CLIENT_ERROR|..]))), rest)
    else if SERVER_ERROR <= text then Got(ServerSaid(ServerFault(Trim(text[|SERVER_ERROR|..]))), rest)
    else ReadParts(Fields(text), rest, maxItemSize)
  }

  function ReadParts(parts: seq<Bytes>, rest: Bytes, maxItemSize: nat): (g: Got)
    ensures g.Got? ==> |g.rest| <= |rest|
  {
    if parts == [] then Broken(Empty)
    else
      match CodeOf(parts[0])
      case None => Broken(UnknownCode)
      case Some(ME) =>
        if |parts| < 2 then Broken(NoKey)
        else Got(Reply(Blank(ME, None, Some(parts[1]), parts[1..]).(debug := Named(parts[2..]))), rest)
      case Some(VA) =>
        if |parts| < 2 then Broken(NoSize)
        else
          (match ReadValue(parts[1], rest, maxItemSize)
           case LineError(e) => Broken(e)
           case Line(value, after) => Got(Reply(Flagged(Blank(VA, Some(value), None, parts[2..]))), after))
      case Some(code) => Got(Reply(Flagged(Blank(code, None, None, parts[1..]))), rest)
  }

  // The value of a VA reply (wire.go:172-196), after its line.
  function ReadValue(size: Bytes, rest: Bytes, maxItemSize: nat): (r: LineRead)
    ensures r.Line? ==> |r.rest| <= |rest|
  {
    match ParseUint(size, MAX_63)
    case None => LineError(BadSize)
    case Some(n) =>
      if maxItemSize > 0 && n > maxItemSize then LineError(TooBig)
      else if |rest| < n + 2 then LineError(Truncated)
      else if rest[n..n + 2] != CRLF then LineError(BadTail)
      else Line(rest[..n], rest[n + 2..])
  }

  method TakeValue(size: Bytes, input: Bytes, start: nat, maxItemSize: nat) returns (r: LineRead, next: nat)
    requires start <= |input|
    ensures r == ReadValue(size, input[start..], maxItemSize)
    ensures r.Line? ==> next <= |input| && input[next..] == r.rest
  {
    hide ParseUint;
    next := start;
    var n := ParseUint(size, MAX_63);
    if n.None? { return LineError(BadSize), next; }
    if maxItemSize > 0 && n.value > maxItemSize { return LineError(TooBig), next; }
    if |input| - start < n.value + 2 { return LineError(Truncated), next; }
    ghost var rest := input[start..];
    assert input[start..start + n.value] == rest[..n.value];
    assert input[start + n.value..start + n.value + 2] == rest[n.value..n.value + 2];
    if input[start + n.value..start + n.value + 2] != CRLF { return LineError(BadTail), next; }
    next := start + n.value + 2;
    assert input[next..] == rest[n.value + 2..];
    r := Line(input[start..start + n.value], input[next..]);
  }

  // The item internals of an ME reply (wire.go:205-210).
  method NameValues(fields: seq<Bytes>) returns (names: map<Bytes, Bytes>)
    ensures names == Named(fields)
  {
    names := map[];
    for i := 0 to |fields|
      invariant names == Named(fields[..i])
    {
      assert fields[..i + 1][..i] == fields[..i];
      var n := CutAt(fields[i]);
      if n < |fields[i]| { names := names[fields[i][..n] := fields[i][n + 1..]]; }
    }
    assert fields[..|fields|] == fields;
  }

  // readRawResponse (wire.go:148-221).
  method ReadRawResponse(input: Bytes, start: nat, chunk: nat -> nat, maxItemSize: nat) returns (g: Got, next: nat)
    requires start <= |input|
    ensures g == ReadResponse(input[start..], maxItemSize)
    ensures g.Got? ==> next <= |input| && input[next..] == g.rest
  {
    hide Flagged, Fields, ReadValue, CodeOf, ReadLineSpec;
    var r;
    r, next := ReadLine(input, start, chunk);
    if r.LineError? { return Broken(r.error), next; }
    var text := r.text;
    if text == ERROR { return Got(ServerSaid(GenericError), r.rest), next; }
    if CLIENT_ERROR <= text { return Got(ServerSaid(ClientError(Trim(text[|CLIENT_ERROR|..]))), r.rest), next; }
    if SERVER_ERROR <= text { return Got(ServerSaid(ServerFault(Trim(text[|SERVER_ERROR|..]))), r.rest), next; }
    var parts := AsciiFields(text);
    if parts == [] { return Broken(Empty), next; }
    var code := CodeOf(parts[0]);
    if code.None? { return Broken(UnknownCode), next; }
    var result := Blank(code.value, None, None, []);
    var flagStart := 1;
    if code == Some(VA) {
      if |parts| < 2 { return Broken(NoSize), next; }
      var value;
      value, next := TakeValue(parts[1], input, next, maxItemSize);
      if value.LineError? { return Broken(value.error), next; }
      result := result.(value := Some(value.text));
      flagStart := 2;
    } else if code == Some(ME) {
      if |parts| < 2 { return Broken(NoKey), next; }
      var debug := NameValues(parts[2..]);
      return Got(Reply(result.(key := Some(parts[1]), flags := parts[1..], debug := debug)), r.rest), next;
    }
    result := ParseResponseFlags(result.(flags := parts[flagStart..]));
    g := Got(Reply(result), input[next..]);
  }

  // What a server sends: a reply with or without a value, item internals, or an
  // error line. The flags are any words at all.
  datatype Frame =
    | Header(code: Code, flags: seq<Bytes>)
    | Valued(value: Bytes, flags: seq<Bytes>)
    | Internals(fields: seq<Bytes>)
    | ErrorLine | ClientErrorLine(message: Bytes) | ServerErrorLine(message: Bytes)

  function FrameLine(f: Frame): Bytes {
    match f
    case Header(code, flags) => PrintCode(code) + Spaced(flags)
    case Valued(value, flags) => PrintCode(VA) + Spaced([FormatUint(|value|)] + flags)
    case Internals(fields) => PrintCode(ME) + Spaced(fields)
    case ErrorLine => ERROR
    case ClientErrorLine(message) => CLIENT_ERROR + message
    case ServerErrorLine(message) => SERVER_ERROR + message
  }

  function Print(f: Frame): Bytes {
    FrameLine(f) + CRLF + if f.Valued? then f.value + CRLF else []
  }

  predicate WellFormed(f: Frame, maxItemSize: nat) {
    && |FrameLine(f)| + 2 <= MAX_LINE
    && match f
       case Header(code, flags) => !code.VA? && !code.ME? && Words(flags)
       case Valued(value, flags) => Words(flags) && |value| < MAX_63 && (maxItemSize > 0 ==> |value| <= maxItemSize)
       case Internals(fields) => fields != [] && Words(fields)
       case ErrorLine => true
       case ClientErrorLine(message) => 10 !in message
       case ServerErrorLine(message) => 10 !in message
  }

  function Meaning(f: Frame): Read {
    match f
    case Header(code, flags) => Reply(Flagged(Blank(code, None, None, flags)))
    case Valued(value, flags) => Reply(Flagged(Blank(VA, Some(value), None, flags)))
    case Internals(fields) =>
      if fields == [] then Reply(Blank(ME, None, None, []))
      else Reply(Blank(ME, None, Some(fields[0]), fields).(debug := Named(fields[1..])))
    case ErrorLine => ServerSaid(GenericError)
    case ClientErrorLine(message) => ServerSaid(ClientError(Trim(message)))
    case ServerErrorLine(message) => ServerSaid(ServerFault(Trim(message)))
  }

  function FrameFields(f: Frame): seq<Bytes> {
    match f
    case Header(code, flags) => [PrintCode(code)] + flags
    case Valued(value, flags) => [PrintCode(VA), FormatUint(|value|)] + flags
    case Internals(fields) => [PrintCode(ME)] + fields
    case _ => []
  }

  lemma FrameText(f: Frame, maxItemSize: nat)
    requires WellFormed(f, maxItemSize)
    ensures 10 !in FrameLine(f)
    ensures f.Header? || f.Valued? || f.Internals? ==>
      && Fields(FrameLine(f)) == FrameFields(f)
      && FrameLine(f) != ERROR && !(CLIENT_ERROR <= FrameLine(f)) && !(SERVER_ERROR <= FrameLine(f))
  {
    match f
    case Header(code, flags) => FieldsText(code, flags);
    case Valued(value, flags) =>
      UintRoundTrip(|value|, MAX_63);
      FieldsText(VA, [FormatUint(|value|)] + flags);
      assert [PrintCode(VA)] + ([FormatUint(|value|)] + flags) == FrameFields(f);
    case Internals(fields) => FieldsText(ME, fields);
    case _ =>
  }

  lemma FieldsText(code: Code, fields: seq<Bytes>)
    requires Words(fields)
    ensures
      var line := PrintCode(code) + Spaced(fields);
      && Fields(line) == [PrintCode(code)] + fields
      && 10 !in line
      && line != ERROR && !(CLIENT_ERROR <= line) && !(SERVER_ERROR <= line)
  {
    var line := PrintCode(code) + Spaced(fields);
    FieldsOfLine(PrintCode(code), fields);
    SpacedUnbroken(fields);
    hide Fields;
    assert line[0] == PrintCode(code)[0] && line[1] == PrintCode(code)[1];
    NotPrefix(CLIENT_ERROR, line);
    NotPrefix(SERVER_ERROR, line);
    assert ERROR[1] == 82;
  }

  lemma NotPrefix(p: Bytes, s: Bytes)
    requires p != [] && s != [] && p[0] != s[0]
    ensures !(p <= s)
  {
  }

  // One frame is consumed whole, whatever follows it and whether or not its
  // flags can be read.
  lemma FrameRoundTrip(f: Frame, rest: Bytes, maxItemSize: nat)
    requires WellFormed(f, maxItemSize)
    ensures ReadResponse(Print(f) + rest, maxItemSize) == Got(Meaning(f), rest)
  {
    hide FrameLine, Meaning, ReadText, LineFeed, ReadLineSpec;
    var body := (if f.Valued? then f.value + CRLF else []);
    var line := FrameLine(f);
    FrameText(f, maxItemSize);
    TextRead(f, rest, maxItemSize);
    assert Print(f) + rest == line + CRLF + (body + rest);
    LineBack(line, body + rest);
  }

  lemma LineBack(line: Bytes, after: Bytes)
    requires |line| + 2 <= MAX_LINE && 10 !in line
    ensures ReadLineSpec(line + CRLF + after) == Line(line, after)
  {
    LineEnds(line, after);
    var s := line + CRLF + after;
    assert s[..|line| + 1 - 1] == line && s[|line| + 1 + 1..] == after;
  }

  lemma TextRead(f: Frame, rest: Bytes, maxItemSize: nat)
    requires WellFormed(f, maxItemSize)
    ensures ReadText(FrameLine(f), (if f.Valued? then f.value + CRLF else []) + rest, maxItemSize) == Got(Meaning(f), rest)
  {
    FrameText(f, maxItemSize);
    assert [] + rest == rest;
    match f
    case ErrorLine =>
    case ClientErrorLine(message) =>
      assert (CLIENT_ERROR + message)[|CLIENT_ERROR|..] == message;
    case ServerErrorLine(message) =>
      NotPrefix(CLIENT_ERROR, SERVER_ERROR + message);
      assert (SERVER_ERROR + message)[|SERVER_ERROR|..] == message;
    case _ =>
      hide WellFormed, Fields, FrameLine, Meaning, ReadParts, FrameFields;
      PartsRead(f, rest, maxItemSize);
  }

  lemma PartsRead(f: Frame, rest: Bytes, maxItemSize: nat)
    requires WellFormed(f, maxItemSize) && (f.Header? || f.Valued? || f.Internals?)
    ensures
      ReadParts(FrameFields(f), if f.Valued? then f.value + CRLF + rest else rest, maxItemSize) == Got(Meaning(f), rest)
  {
    hide FrameLine, Flagged, ParseUint, FormatUint, Words;
    match f
    case Header(code, flags) => assert FrameFields(f)[1..] == flags;
    case Valued(value, flags) => ValueRead(value, flags, rest, maxItemSize);
    case Internals(fields) => assert FrameFields(f)[1..] == fields && FrameFields(f)[2..] == fields[1..];
  }

  lemma ValueRead(value: Bytes, flags: seq<Bytes>, rest: Bytes, maxItemSize: nat)
    requires |value| < MAX_63 && (maxItemSize > 0 ==> |value| <= maxItemSize)
    ensures
      ReadParts([PrintCode(VA), FormatUint(|value|)] + flags, value + CRLF + rest, maxItemSize) ==
        Got(Reply(Flagged(Blank(VA, Some(value), None, flags))), rest)
  {
    hide Flagged, FormatUint, ReadValue, CodeOf, PrintCode, ReadParts;
    ValueBack(value, rest, maxItemSize);
    CodeBack(VA);
    var parts := [PrintCode(VA), FormatUint(|value|)] + flags;
    assert parts[2..] == flags;
    ValuePart(parts, value + CRLF + rest, maxItemSize);
  }

  lemma CodeBack(code: Code)
    ensures CodeOf(PrintCode(code)) == Some(code)
  {
  }

  // A VA line hands its second field to the value reader.
  lemma ValuePart(parts: seq<Bytes>, after: Bytes, maxItemSize: nat)
    requires |parts| >= 2 && CodeOf(parts[0]) == Some(VA)
    requires ReadValue(parts[1], after, maxItemSize).Line?
    ensures
      var read := ReadValue(parts[1], after, maxItemSize);
      ReadParts(parts, after, maxItemSize) == Got(Reply(Flagged(Blank(VA, Some(read.text), None, parts[2..]))), read.rest)
  {
    hide Flagged, ReadValue, CodeOf;
  }

  lemma ValueBack(value: Bytes, rest: Bytes, maxItemSize: nat)
    requires |value| < MAX_63 && (maxItemSize > 0 ==> |value| <= maxItemSize)
    ensures ReadValue(FormatUint(|value|), value + CRLF + rest, maxItemSize) == Line(value, rest)
  {
    hide ParseUint, FormatUint, Word;
    UintRoundTrip(|value|, MAX_63);
    var after := value + CRLF + rest;
    assert after[..|value|] == value;
    assert after[|value|..|value| + 2] == CRLF;
    assert after[|value| + 2..] == rest;
  }

  // ---- streams ----

  function PrintAll(fs: seq<Frame>): Bytes {
    if fs == [] then [] else Print(fs[0]) + PrintAll(fs[1..])
  }

  // Reading n times in a row.
  function ReadMany(s: Bytes, n: nat, maxItemSize: nat): Option<(seq<Read>, Bytes)> {
    if n == 0 then Some(([], s))
    else
      match ReadResponse(s, maxItemSize)
      case Broken(_) => None
      case Got(read, rest) =>
        match ReadMany(rest, n - 1, maxItemSize)
        case None => None
        case Some((more, end)) => Some(([read] + more, end))
  }

  function Meanings(fs: seq<Frame>): seq<Read> {
    if fs == [] then [] else [Meaning(fs[0])] + Meanings(fs[1..])
  }

  // Repeated reading returns the list the server sent and stops exactly where
  // that list ends.
  lemma {:induction false} StreamRoundTrip(fs: seq<Frame>, rest: Bytes, maxItemSize: nat)
    requires forall i :: 0 <= i < |fs| ==> WellFormed(fs[i], maxItemSize)
    ensures ReadMany(PrintAll(fs) + rest, |fs|, maxItemSize) == Some((Meanings(fs), rest))
  {
    hide WellFormed, Print, Meaning, ReadResponse, ReadMany;
    if fs == [] {
      assert PrintAll(fs) + rest == rest;
      ReadNone(rest, maxItemSize);
    } else {
      var after := PrintAll(fs[1..]) + rest;
      FrameRoundTrip(fs[0], after, maxItemSize);
      StreamRoundTrip(fs[1..], rest, maxItemSize);
      assert PrintAll(fs) + rest == Print(fs[0]) + after;
      ReadOneMore(Print(fs[0]) + after, |fs| - 1, maxItemSize, Meaning(fs[0]), after, Meanings(fs[1..]), rest);
    }
  }

  lemma ReadNone(s: Bytes, maxItemSize: nat)
    ensures ReadMany(s, 0, maxItemSize) == Some(([], s))
  {
  }

  lemma ReadOneMore(s: Bytes, n: nat, maxItemSize: nat, read: Read, after: Bytes, more: seq<Read>, end: Bytes)
    requires ReadResponse(s, maxItemSize) == Got(read, after) && ReadMany(after, n, maxItemSize) == Some((more, end))
    ensures ReadMany(s, n + 1, maxItemSize) == Some(([read] + more, end))
  {
    hide ReadResponse;
  }
}
