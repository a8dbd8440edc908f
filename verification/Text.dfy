// Fields and numbers of a protocol line.
module Text {
  import opened Protocol

  const SPACE: Byte := 32
  const CRLF: Bytes := [13, 10]

  // ---- fields ----

  // A field: not empty, and no byte that separates fields, ends a line or is a
  // control code.
  predicate Word(w: Bytes) {
    w != [] && forall i :: 0 <= i < |w| ==> w[i] > 32 && w[i] != 127
  }

  predicate Words(ws: seq<Bytes>) {
    forall i :: 0 <= i < |ws| ==> Word(ws[i])
  }

  // Each field behind a space.
  function Spaced(ws: seq<Bytes>): Bytes {
    if ws == [] then [] else [SPACE] + ws[0] + Spaced(ws[1..])
  }

  // Where the first field of a line ends.
  function WordEnd(line: Bytes): (n: nat)
    ensures n <= |line|
    ensures forall i :: 0 <= i < n ==> line[i] != SPACE
    ensures n < |line| ==> line[n] == SPACE
  {
    if line == [] || line[0] == SPACE then 0 else 1 + WordEnd(line[1..])
  }

  // The fields of a line: its longest runs without a space.
  function Fields(line: Bytes): seq<Bytes>
    decreases |line|
  {
    if line == [] then []
    else if line[0] == SPACE then Fields(line[1..])
    else [line[..WordEnd(line)]] + Fields(line[WordEnd(line)..])
  }

  lemma WordEndIs(line: Bytes, n: nat)
    requires n <= |line| && (forall i :: 0 <= i < n ==> line[i] != SPACE)
    requires n < |line| ==> line[n] == SPACE
    ensures WordEnd(line) == n
  {
  }

  lemma {:induction false} FieldsOfSpaced(ws: seq<Bytes>)
    requires forall i :: 0 <= i < |ws| ==> ws[i] != [] && SPACE !in ws[i]
    ensures Fields(Spaced(ws)) == ws
  {
    if ws != [] {
      var rest := Spaced(ws[1..]);
      var line := Spaced(ws);
      assert line[1..] == ws[0] + rest;
      WordEndIs(ws[0] + rest, |ws[0]|);
      assert (ws[0] + rest)[..|ws[0]|] == ws[0];
      assert (ws[0] + rest)[|ws[0]|..] == rest;
      assert (ws[0] + rest)[0] != SPACE;
      FieldsOfSpaced(ws[1..]);
      assert ws == [ws[0]] + ws[1..];
    }
  }

  lemma WordAt(ws: seq<Bytes>, i: nat)
    requires Words(ws) && i < |ws|
    ensures Word(ws[i])
  {
  }

  lemma WordPlain(w: Bytes)
    requires Word(w)
    ensures w != [] && SPACE !in w
  {
  }

  // A line printed field by field splits into those fields.
  lemma FieldsOfLine(head: Bytes, ws: seq<Bytes>)
    requires Word(head) && Words(ws)
    ensures Fields(head + Spaced(ws)) == [head] + ws
  {
    hide Words, Word, Fields, WordEnd;
    var all := [head] + ws;
    forall i | 0 <= i < |all| ensures all[i] != [] && SPACE !in all[i] {
      if i > 0 { WordAt(ws, i - 1); }
      WordPlain(all[i]);
    }
    FieldsOfSpaced(all);
    assert all[1..] == ws;
    assert Spaced(all)[1..] == head + Spaced(ws) && Spaced(all)[0..] == Spaced(all);
    SkipSpace(Spaced(all), 0);
  }

  // No field, and no line of fields, holds a line break.
  lemma {:induction false} SpacedUnbroken(ws: seq<Bytes>)
    requires Words(ws)
    ensures forall i :: 0 <= i < |Spaced(ws)| ==> Spaced(ws)[i] >= 32
  {
    if ws != [] {
      SpacedUnbroken(ws[1..]);
      assert Word(ws[0]);
    }
  }

  lemma {:induction false} SpacedGrows(ws: seq<Bytes>, i: nat)
    requires i < |ws|
    ensures Spaced(ws[..i + 1]) == Spaced(ws[..i]) + [SPACE] + ws[i]
  {
    if i > 0 {
      SpacedGrows(ws[1..], i - 1);
      assert ws[..i + 1][1..] == ws[1..][..i];
      assert ws[..i][1..] == ws[1..][..i - 1];
    } else {
      assert ws[..1][1..] == [];
    }
  }

  lemma SkipSpace(line: Bytes, start: nat)
    requires start < |line| && line[start] == SPACE
    ensures Fields(line[start..]) == Fields(line[start + 1..])
  {
    assert line[start..][1..] == line[start + 1..];
  }

  lemma TakeWord(line: Bytes, start: nat, end: nat)
    requires start < end <= |line| && forall i :: start <= i < end ==> line[i] != SPACE
    requires end < |line| ==> line[end] == SPACE
    ensures Fields(line[start..]) == [line[start..end]] + Fields(line[end..])
  {
    WordEndIs(line[start..], end - start);
    assert line[start..][end - start..] == line[end..];
    assert line[start..][..end - start] == line[start..end];
  }

  method SkipSpaces(line: Bytes, from: nat) returns (start: nat)
    requires from <= |line|
    ensures from <= start <= |line| && Fields(line[start..]) == Fields(line[from..])
    ensures start < |line| ==> line[start] != SPACE
  {
    start := from;
    while start < |line| && line[start] == SPACE
      invariant from <= start <= |line|
      invariant Fields(line[start..]) == Fields(line[from..])
    {
      hide Fields;
      SkipSpace(line, start);
      start := start + 1;
    }
  }

  // asciiFields (wire.go:223-240).
  method AsciiFields(line: Bytes) returns (fields: seq<Bytes>)
    ensures fields == Fields(line)
  {
    fields := [];
    var start := 0;
    assert line[0..] == line && line[|line|..] == [];
    assert Fields([]) == [];
    hide Fields;
    while start < |line|
      invariant 0 <= start <= |line|
      invariant fields + Fields(line[start..]) == Fields(line)
    {
      start := SkipSpaces(line, start);
      if start == |line| { break; }
      var end := start;
      while end < |line| && line[end] != SPACE
        invariant start <= end <= |line|
        invariant forall i :: start <= i < end ==> line[i] != SPACE
      {
        end := end + 1;
      }
      TakeWord(line, start, end);
      assert fields + ([line[start..end]] + Fields(line[end..])) == fields + [line[start..end]] + Fields(line[end..]);
      fields := fields + [line[start..end]];
      start := end;
    }
  }

  // ---- the flag that marks an encoded key ----

  predicate MarksBase64(flag: Bytes) { flag != [] && flag[0] == 98 }

  predicate AnyBase64(flags: seq<Bytes>) { exists i :: 0 <= i < |flags| && MarksBase64(flags[i]) }

  // ---- numbers ----

  const MAX_32: nat := 0x1_0000_0000
  const MAX_63: nat := 0x8000_0000_0000_0000
  const MAX_64: nat := 0x1_0000_0000_0000_0000

  function FormatUint(n: nat): (s: Bytes)
    ensures |s| > 0
  {
    if n < 10 then [48 + n] else FormatUint(n / 10) + [48 + n % 10]
  }

  predicate Digits(s: Bytes) {
    forall i :: 0 <= i < |s| ==> 48 <= s[i] <= 57
  }

  function Number(s: Bytes): nat
    requires Digits(s)
  {
    if s == [] then 0 else Number(s[..|s| - 1]) * 10 + (s[|s| - 1] - 48)
  }

  // strconv.ParseUint in base ten; limit is two to the bit size.
  function ParseUint(s: Bytes, limit: nat): Option<nat> {
    if s == [] || !Digits(s) || Number(s) >= limit then None else Some(Number(s))
  }

  function FormatInt(n: int): Bytes {
    if n < 0 then [45] + FormatUint(-n) else FormatUint(n)
  }

  // strconv.ParseInt in base ten and 64 bits.
  function ParseInt(s: Bytes): Option<int> {
    if s == [] then None
    else
      var signed := s[0] == 43 || s[0] == 45;
      match ParseUint(if signed then s[1..] else s, MAX_64)
      case None => None
      case Some(n) =>
        var value: int := if s[0] == 45 then -(n as int) else n;
        if -(MAX_63 as int) <= value < MAX_63 then Some(value) else None
  }

  lemma {:induction false} FormatDigits(n: nat)
    ensures Digits(FormatUint(n)) && Number(FormatUint(n)) == n
  {
    if n >= 10 {
      FormatDigits(n / 10);
      assert FormatUint(n)[..|FormatUint(n)| - 1] == FormatUint(n / 10);
    }
  }

  lemma UintRoundTrip(n: nat, limit: nat)
    requires n < limit
    ensures ParseUint(FormatUint(n), limit) == Some(n)
    ensures Word(FormatUint(n))
  {
    FormatDigits(n);
  }

  lemma IntRoundTrip(n: int)
    requires -(MAX_63 as int) <= n < MAX_63
    ensures ParseInt(FormatInt(n)) == Some(n)
    ensures Word(FormatInt(n))
  {
    var size: nat := if n < 0 then -n else n;
    UintRoundTrip(size, MAX_64);
    FormatDigits(size);
    assert 48 <= FormatUint(size)[0] <= 57;
    hide FormatUint, ParseUint, Digits, Number;
    if n < 0 {
      assert FormatInt(n)[1..] == FormatUint(size);
    }
  }

  // ---- lines ----

  // Where the first line feed is, if there is one.
  function LineFeed(s: Bytes): (i: Option<nat>)
    ensures i.Some? ==> i.value < |s| && s[i.value] == 10 && forall j :: 0 <= j < i.value ==> s[j] != 10
    ensures i.None? ==> forall j :: 0 <= j < |s| ==> s[j] != 10
  {
    if s == [] then None
    else if s[0] == 10 then Some(0)
    else match LineFeed(s[1..]) case None => None case Some(j) => Some(j + 1)
  }

  lemma LineFeedIs(s: Bytes, i: nat)
    requires i < |s| && s[i] == 10 && forall j :: 0 <= j < i ==> s[j] != 10
    ensures LineFeed(s) == Some(i)
  {
  }

  // A printed line, whatever follows it, ends where it was printed to end.
  lemma LineEnds(line: Bytes, rest: Bytes)
    requires forall i :: 0 <= i < |line| ==> line[i] != 10
    ensures LineFeed(line + CRLF + rest) == Some(|line| + 1)
    ensures (line + CRLF + rest)[..|line|] == line
    ensures (line + CRLF + rest)[|line| + 2..] == rest
    ensures (line + CRLF + rest)[|line|] == 13
  {
    LineFeedIs(line + CRLF + rest, |line| + 1);
  }

  // ---- white space ----

  // One white-space character of Unicode, in UTF-8.
  predicate IsSpace(w: Bytes) {
    || (|w| == 1 && (9 <= w[0] <= 13 || w[0] == SPACE))
    || (|w| == 2 && w[0] == 0xC2 && (w[1] == 0x85 || w[1] == 0xA0))
    || (|w| == 3 && (w == [0xE1, 0x9A, 0x80] || w == [0xE2, 0x81, 0x9F] || w == [0xE3, 0x80, 0x80]
                     || (w[0] == 0xE2 && w[1] == 0x80 && (0x80 <= w[2] <= 0x8A || w[2] in {0xA8, 0xA9, 0xAF}))))
  }

  function LeadingSpace(s: Bytes): (n: nat)
    ensures n <= |s| && (n > 0 ==> IsSpace(s[..n]))
    ensures n == 0 ==> forall m :: 0 <= m <= |s| ==> !IsSpace(s[..m])
  {
    if |s| >= 1 && IsSpace(s[..1]) then 1
    else if |s| >= 2 && IsSpace(s[..2]) then 2
    else if |s| >= 3 && IsSpace(s[..3]) then 3
    else 0
  }

  function TrailingSpace(s: Bytes): (n: nat)
    ensures n <= |s| && (n > 0 ==> IsSpace(s[|s| - n..]))
    ensures n == 0 ==> forall m :: 0 <= m <= |s| ==> !IsSpace(s[m..])
  {
    if |s| >= 1 && IsSpace(s[|s| - 1..]) then 1
    else if |s| >= 2 && IsSpace(s[|s| - 2..]) then 2
    else if |s| >= 3 && IsSpace(s[|s| - 3..]) then 3
    else 0
  }

  function TrimLeft(s: Bytes): Bytes
    decreases |s|
  {
    var n := LeadingSpace(s);
    if n == 0 then s else TrimLeft(s[n..])
  }

  function TrimRight(s: Bytes): Bytes
    decreases |s|
  {
    var n := TrailingSpace(s);
    if n == 0 then s else TrimRight(s[..|s| - n])
  }

  // strings.TrimSpace.
  function Trim(s: Bytes): Bytes { TrimRight(TrimLeft(s)) }

  // White-space characters and nothing else.
  ghost predicate Blanks(s: Bytes)
    decreases |s|
  {
    s == [] || exists n :: 0 < n <= |s| && IsSpace(s[..n]) && Blanks(s[n..])
  }

  lemma {:induction false} TrimsLeft(s: Bytes) returns (before: Bytes)
    ensures s == before + TrimLeft(s) && Blanks(before) && LeadingSpace(TrimLeft(s)) == 0
    decreases |s|
  {
    hide IsSpace;
    var n := LeadingSpace(s);
    if n == 0 {
      before := [];
    } else {
      var more := TrimsLeft(s[n..]);
      before := s[..n] + more;
      assert before[..n] == s[..n] && before[n..] == more;
    }
  }

  lemma {:induction false} BlanksMore(s: Bytes, last: Bytes)
    requires Blanks(s) && IsSpace(last)
    ensures Blanks(s + last)
    decreases |s|
  {
    hide IsSpace;
    if s == [] {
      NoEmptySpace(last);
      assert (s + last)[..|last|] == last && (s + last)[|last|..] == [];
    } else {
      var n :| 0 < n <= |s| && IsSpace(s[..n]) && Blanks(s[n..]);
      BlanksMore(s[n..], last);
      assert (s + last)[..n] == s[..n] && (s + last)[n..] == s[n..] + last;
    }
  }

  lemma NoEmptySpace(w: Bytes)
    requires IsSpace(w)
    ensures w != []
  {
  }

  lemma {:induction false} TrimsRight(s: Bytes) returns (after: Bytes)
    ensures s == TrimRight(s) + after && Blanks(after) && TrailingSpace(TrimRight(s)) == 0
    decreases |s|
  {
    hide IsSpace, Blanks;
    var n := TrailingSpace(s);
    if n == 0 {
      after := [];
      assert Blanks([]) by { NoBlanks(); }
    } else {
      var more := TrimsRight(s[..|s| - n]);
      after := more + s[|s| - n..];
      BlanksMore(more, s[|s| - n..]);
    }
  }

  lemma NoBlanks()
    ensures Blanks([])
  {
  }

  lemma PrefixLeads(s: Bytes, n: nat)
    requires n <= |s| && LeadingSpace(s) == 0
    ensures LeadingSpace(s[..n]) == 0
  {
    var m := LeadingSpace(s[..n]);
    assert s[..n][..m] == s[..m];
  }

  // Trimming takes white space off both ends and nothing else, until no more is
  // there.
  lemma TrimIs(s: Bytes) returns (before: Bytes, after: Bytes)
    ensures s == before + Trim(s) + after && Blanks(before) && Blanks(after)
    ensures LeadingSpace(Trim(s)) == 0 && TrailingSpace(Trim(s)) == 0
  {
    hide IsSpace, Blanks, LeadingSpace, TrailingSpace, TrimLeft, TrimRight;
    before := TrimsLeft(s);
    after := TrimsRight(TrimLeft(s));
    PrefixLeads(TrimLeft(s), |Trim(s)|);
    assert TrimLeft(s)[..|Trim(s)|] == Trim(s);
  }

  // ---- name and value ----

  const EQUALS: Byte := 61

  // strings.Cut at the first equals sign: where it is, or the end.
  function CutAt(field: Bytes): (n: nat)
    ensures n <= |field| && (forall i :: 0 <= i < n ==> field[i] != EQUALS) && (n < |field| ==> field[n] == EQUALS)
  {
    if field == [] || field[0] == EQUALS then 0 else 1 + CutAt(field[1..])
  }

  // The fields that name a value, the last one of a name counting.
  function Named(fields: seq<Bytes>): map<Bytes, Bytes> {
    if fields == [] then map[]
    else
      var names, last := Named(fields[..|fields| - 1]), fields[|fields| - 1];
      var n := CutAt(last);
      if n < |last| then names[last[..n] := last[n + 1..]] else names
  }

  // Distinct names come back with their values, whatever the values hold.
  lemma {:induction false} NamedBack(names: seq<Bytes>, values: seq<Bytes>, fields: seq<Bytes>)
    requires |names| == |values| == |fields|
    requires forall i, j :: 0 <= i < j < |names| ==> names[i] != names[j]
    requires forall i :: 0 <= i < |names| ==> EQUALS !in names[i] && fields[i] == names[i] + [EQUALS] + values[i]
    ensures forall k :: k in Named(fields) <==> k in names
    ensures forall i :: 0 <= i < |names| ==> names[i] in Named(fields) && Named(fields)[names[i]] == values[i]
  {
    if fields != [] {
      var n := |fields| - 1;
      NamedBack(names[..n], values[..n], fields[..n]);
      CutFound(names[n], values[n]);
      assert names == names[..n] + [names[n]];
    }
  }

  lemma CutFound(name: Bytes, value: Bytes)
    requires EQUALS !in name
    ensures
      var field := name + [EQUALS] + value;
      CutAt(field) == |name| && field[..|name|] == name && field[|name| + 1..] == value
  {
    var field := name + [EQUALS] + value;
    var n := CutAt(field);
    assert field[|name|] == EQUALS;
    assert field[..|name|] == name;
  }
}
