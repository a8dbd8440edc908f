// The standard encoding of section 4 of RFC 4648, as the client uses it for keys
// that are not plain text (wire.go:46-49, wire.go:320-326).
module Base64 {
  import opened Protocol

  type Sextet = d: int | 0 <= d < 64

  const PAD: Byte := 61

  function Letter(d: Sextet): Byte {
    if d < 26 then 65 + d else if d < 52 then 71 + d else if d < 62 then d - 4 else if d == 62 then 43 else 47
  }

  function Digit(b: Byte): Option<Sextet> {
    if 65 <= b <= 90 then Some(b - 65)
    else if 97 <= b <= 122 then Some(b - 71)
    else if 48 <= b <= 57 then Some(b + 4)
    else if b == 43 then Some(62)
    else if b == 47 then Some(63)
    else None
  }

  // The four digits of three bytes, and back.
  function D0(a: Byte): Sextet { a / 4 }
  function D1(a: Byte, b: Byte): Sextet { a % 4 * 16 + b / 16 }
  function D2(b: Byte, c: Byte): Sextet { b % 16 * 4 + c / 64 }
  function D3(c: Byte): Sextet { c % 64 }

  function B0(w: Sextet, x: Sextet): Byte { w * 4 + x / 16 }
  function B1(x: Sextet, y: Sextet): Byte { x % 16 * 16 + y / 4 }
  function B2(y: Sextet, z: Sextet): Byte { y % 4 * 64 + z }

  lemma FirstBack(a: Byte, b: Byte)
    ensures B0(D0(a), D1(a, b)) == a
  {
  }

  lemma SecondBack(a: Byte, b: Byte, c: Byte)
    ensures B1(D1(a, b), D2(b, c)) == b
  {
    Low(a % 4, b / 16);
  }

  lemma Low(x: nat, p: nat)
    requires x < 4 && p < 16
    ensures (x * 16 + p) % 16 == p
  {
  }

  lemma ThirdBack(b: Byte, c: Byte)
    ensures B2(D2(b, c), D3(c)) == c
  {
  }

  function Encode(s: Bytes): Bytes {
    if |s| == 0 then []
    else if |s| == 1 then [Letter(D0(s[0])), Letter(D1(s[0], 0)), PAD, PAD]
    else if |s| == 2 then [Letter(D0(s[0])), Letter(D1(s[0], s[1])), Letter(D2(s[1], 0)), PAD]
    else
      [Letter(D0(s[0])), Letter(D1(s[0], s[1])), Letter(D2(s[1], s[2])), Letter(D3(s[2]))] + Encode(s[3..])
  }

  // The decoder skips line breaks; padding is only accepted at the end.
  function Decode(s: Bytes): Option<Bytes> { DecodeQuads(Unbroken(s)) }

  function Unbroken(s: Bytes): Bytes {
    if s == [] then [] else (if s[0] == 13 || s[0] == 10 then [] else [s[0]]) + Unbroken(s[1..])
  }

  function DecodeQuads(s: Bytes): Option<Bytes> {
    if s == [] then Some([])
    else if |s| < 4 then None
    else
      match (Digit(s[0]), Digit(s[1]), Digit(s[2]), Digit(s[3]))
      case (Some(w), Some(x), Some(y), Some(z)) =>
        (match DecodeQuads(s[4..])
         case None => None
         case Some(rest) => Some([B0(w, x), B1(x, y), B2(y, z)] + rest))
      case (Some(w), Some(x), Some(y), None) =>
        if s[3] == PAD && |s| == 4 then Some([B0(w, x), B1(x, y)]) else None
      case (Some(w), Some(x), None, None) =>
        if s[2] == PAD && s[3] == PAD && |s| == 4 then Some([B0(w, x)]) else None
      case _ => None
  }

  lemma LetterDigit(d: Sextet)
    ensures Digit(Letter(d)) == Some(d) && Digit(PAD).None?
    ensures Letter(d) > 32 && Letter(d) != 127 && Letter(d) != PAD
  {
  }

  lemma {:induction false} QuadsRoundTrip(s: Bytes)
    ensures DecodeQuads(Encode(s)) == Some(s)
  {
    hide Letter, Digit, D0, D1, D2, D3, B0, B1, B2;
    if |s| > 0 {
      var b := if |s| == 1 then 0 else s[1];
      var c := if |s| <= 2 then 0 else s[2];
      LetterDigit(D0(s[0]));
      LetterDigit(D1(s[0], b));
      LetterDigit(D2(b, c));
      LetterDigit(D3(c));
      FirstBack(s[0], b);
      SecondBack(s[0], b, c);
      ThirdBack(b, c);
      if |s| > 2 {
        QuadsRoundTrip(s[3..]);
        assert Encode(s)[4..] == Encode(s[3..]);
        assert s == [s[0], s[1], s[2]] + s[3..];
      } else if |s| == 2 {
        assert s == [s[0], s[1]];
      } else {
        assert s == [s[0]];
      }
    }
  }

  // An encoded key is printable: nothing in it separates fields or ends a line.
  lemma {:induction false} EncodedPrintable(s: Bytes)
    ensures forall i :: 0 <= i < |Encode(s)| ==> Encode(s)[i] > 32 && Encode(s)[i] != 127
    ensures |Encode(s)| == (|s| + 2) / 3 * 4
  {
    if |s| > 2 {
      EncodedPrintable(s[3..]);
    }
  }

  lemma {:induction false} UnbrokenPlain(s: Bytes)
    requires forall i :: 0 <= i < |s| ==> s[i] > 32
    ensures Unbroken(s) == s
  {
    if s != [] {
      UnbrokenPlain(s[1..]);
      assert s == [s[0]] + s[1..];
    }
  }

  lemma RoundTrip(s: Bytes)
    ensures Decode(Encode(s)) == Some(s)
  {
    EncodedPrintable(s);
    UnbrokenPlain(Encode(s));
    QuadsRoundTrip(s);
  }
}
