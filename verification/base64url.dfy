/** Unpadded base64url (section 5 of RFC 4648) as Go's `base64.RawURLEncoding` reads and writes it. */
module Base64Url {
  import opened Options

  type byte = b: int | 0 <= b < 256
  type sextet = v: int | 0 <= v < 64

  function Digit(v: sextet): (c: char)
    ensures c != '.' && c != '\r' && c != '\n' && c != '\"'
  {
    if v < 26 then ((v + 65) as char)
    else if v < 52 then ((v + 71) as char)
    else if v < 62 then ((v - 4) as char)
    else if v == 62 then '-' else '_'
  }

  function Value(c: char): Option<sextet> {
    if 'A' <= c <= 'Z' then Some(c as int - 65)
    else if 'a' <= c <= 'z' then Some(c as int - 71)
    else if '0' <= c <= '9' then Some(c as int + 4)
    else if c == '-' then Some(62)
    else if c == '_' then Some(63)
    else None
  }

  lemma ValueOfDigit(v: sextet)
    ensures Value(Digit(v)) == Some(v)
  {
  }

  function Encode(b: seq<byte>): string {
    if |b| == 0 then ""
    else if |b| == 1 then [Digit(b[0] / 4), Digit(b[0] % 4 * 16)]
    else if |b| == 2 then [Digit(b[0] / 4), Digit(b[0] % 4 * 16 + b[1] / 16), Digit(b[1] % 16 * 4)]
    else
      [Digit(b[0] / 4), Digit(b[0] % 4 * 16 + b[1] / 16), Digit(b[1] % 16 * 4 + b[2] / 64), Digit(b[2] % 64)]
      + Encode(b[3..])
  }

  /** Line breaks are skipped, any other character outside the alphabet is an error, and so is a lone last digit. */
  function Decode(s: string): Option<seq<byte>> {
    DecodeDigits(Unbroken(s))
  }

  function Unbroken(s: string): string {
    if s == "" then ""
    else if s[0] == '\r' || s[0] == '\n' then Unbroken(s[1..])
    else [s[0]] + Unbroken(s[1..])
  }

  function DecodeDigits(s: string): Option<seq<byte>> {
    if |s| == 0 then Some([])
    else if |s| == 1 then None
    else
      var v0, v1 := Value(s[0]), Value(s[1]);
      if v0.None? || v1.None? then None
      else
        var b0 := v0.value * 4 + v1.value / 16;
        if |s| == 2 then Some([b0])
        else
          var v2 := Value(s[2]);
          if v2.None? then None
          else
            var b1 := v1.value % 16 * 16 + v2.value / 4;
            if |s| == 3 then Some([b0, b1])
            else
              var v3, rest := Value(s[3]), DecodeDigits(s[4..]);
              if v3.None? || rest.None? then None
              else Some([b0, b1, v2.value % 4 * 64 + v3.value] + rest.value)
  }

  lemma OneByte(b: seq<byte>)
    requires |b| == 1
    ensures DecodeDigits(Encode(b)) == Some(b)
  {
    DecodesTwo(b[0] / 4, b[0] % 4 * 16);
    assert b == [b[0]];
  }

  lemma TwoBytes(b: seq<byte>)
    requires |b| == 2
    ensures DecodeDigits(Encode(b)) == Some(b)
  {
    RegroupTwo(b[0], b[1]);
    ThreeDigits(b[0] / 4, b[0] % 4 * 16 + b[1] / 16, b[1] % 16 * 4, b);
  }

  lemma RegroupTwo(x: byte, y: byte)
    ensures x % 4 * 16 + y / 16 < 64 && y % 16 * 4 < 64
    ensures x / 4 * 4 + (x % 4 * 16 + y / 16) / 16 == x && (x % 4 * 16 + y / 16) % 16 * 16 + y % 16 * 4 / 4 == y
  {
    assert (x % 4 * 16 + y / 16) / 16 == x % 4 && (x % 4 * 16 + y / 16) % 16 == y / 16;
  }

  lemma ThreeDigits(v0: sextet, v1: sextet, v2: sextet, b: seq<byte>)
    requires |b| == 2 && v0 * 4 + v1 / 16 == b[0] && v1 % 16 * 16 + v2 / 4 == b[1]
    ensures DecodeDigits([Digit(v0), Digit(v1), Digit(v2)]) == Some(b)
  {
    DecodesThree(v0, v1, v2);
    assert b == [b[0], b[1]];
  }

  lemma {:induction false} DigitsRoundTrip(b: seq<byte>)
    ensures DecodeDigits(Encode(b)) == Some(b)
  {
    if |b| == 1 {
      OneByte(b);
    } else if |b| == 2 {
      TwoBytes(b);
    } else if |b| >= 3 {
      DigitsRoundTrip(b[3..]);
      OneMoreGroup(b);
    }
  }

  lemma OneMoreGroup(b: seq<byte>)
    requires |b| >= 3 && DecodeDigits(Encode(b[3..])) == Some(b[3..])
    ensures DecodeDigits(Encode(b)) == Some(b)
  {
    var s := Encode(b);
    FourDigits(b);
    Regroup(b[0], b[1], b[2]);
    JoinGroup(b[0] / 4, b[0] % 4 * 16 + b[1] / 16, b[1] % 16 * 4 + b[2] / 64, b[2] % 64, s, b);
  }

  lemma JoinGroup(v0: sextet, v1: sextet, v2: sextet, v3: sextet, s: string, b: seq<byte>)
    requires |s| >= 4 && |b| >= 3 && DecodeDigits(s[4..]) == Some(b[3..])
    requires Value(s[0]) == Some(v0) && Value(s[1]) == Some(v1) && Value(s[2]) == Some(v2) && Value(s[3]) == Some(v3)
    requires v0 * 4 + v1 / 16 == b[0] && v1 % 16 * 16 + v2 / 4 == b[1] && v2 % 4 * 64 + v3 == b[2]
    ensures DecodeDigits(s) == Some(b)
  {
    DecodesFour(v0, v1, v2, v3, s);
    assert [b[0], b[1], b[2]] + b[3..] == b;
  }

  lemma DecodesTwo(v0: sextet, v1: sextet)
    ensures DecodeDigits([Digit(v0), Digit(v1)]) == Some([v0 * 4 + v1 / 16])
  {
    ValueOfDigit(v0);
    ValueOfDigit(v1);
  }

  lemma DecodesThree(v0: sextet, v1: sextet, v2: sextet)
    ensures DecodeDigits([Digit(v0), Digit(v1), Digit(v2)]) == Some([v0 * 4 + v1 / 16, v1 % 16 * 16 + v2 / 4])
  {
    ValueOfDigit(v0);
    ValueOfDigit(v1);
    ValueOfDigit(v2);
  }

  lemma DecodesFour(v0: sextet, v1: sextet, v2: sextet, v3: sextet, s: string)
    requires |s| >= 4 && DecodeDigits(s[4..]).Some?
    requires Value(s[0]) == Some(v0) && Value(s[1]) == Some(v1) && Value(s[2]) == Some(v2) && Value(s[3]) == Some(v3)
    ensures DecodeDigits(s)
         == Some([v0 * 4 + v1 / 16, v1 % 16 * 16 + v2 / 4, v2 % 4 * 64 + v3] + DecodeDigits(s[4..]).value)
  {
  }

  lemma FourDigits(b: seq<byte>)
    requires |b| >= 3
    ensures var s := Encode(b);
      && |s| >= 4 && s[4..] == Encode(b[3..])
      && Value(s[0]) == Some(b[0] / 4) && Value(s[1]) == Some(b[0] % 4 * 16 + b[1] / 16)
      && Value(s[2]) == Some(b[1] % 16 * 4 + b[2] / 64) && Value(s[3]) == Some(b[2] % 64)
  {
    ValueOfDigit(b[0] / 4);
    ValueOfDigit(b[0] % 4 * 16 + b[1] / 16);
    ValueOfDigit(b[1] % 16 * 4 + b[2] / 64);
    ValueOfDigit(b[2] % 64);
  }

  /** Three bytes cut into four digits and put back. */
  lemma Regroup(b0: byte, b1: byte, b2: byte)
    ensures var v0, v1, v2, v3 := b0 / 4, b0 % 4 * 16 + b1 / 16, b1 % 16 * 4 + b2 / 64, b2 % 64;
      v0 * 4 + v1 / 16 == b0 && v1 % 16 * 16 + v2 / 4 == b1 && v2 % 4 * 64 + v3 == b2
  {
  }

  /** No separator, quote or line break comes out of the encoder, and its length is four thirds, rounded up. */
  lemma {:induction false} EncodeShape(b: seq<byte>)
    ensures |Encode(b)| == (4 * |b| + 2) / 3
    ensures forall i :: 0 <= i < |Encode(b)| ==> Encode(b)[i] !in {'.', '\r', '\n', '\"'}
  {
    if |b| >= 3 {
      EncodeShape(b[3..]);
    }
  }

  predicate OverAlphabet(s: string) { forall i :: 0 <= i < |s| ==> Value(s[i]).Some? }

  /** Every character the encoder writes is one of the 64 of the alphabet. */
  lemma {:induction false} EncodeIsOverAlphabet(b: seq<byte>)
    ensures OverAlphabet(Encode(b))
  {
    if |b| >= 3 {
      EncodeIsOverAlphabet(b[3..]);
    }
  }

  lemma {:induction false} UnbrokenIsSame(s: string)
    requires forall i :: 0 <= i < |s| ==> s[i] != '\r' && s[i] != '\n'
    ensures Unbroken(s) == s
  {
    if s != "" {
      UnbrokenIsSame(s[1..]);
    }
  }

  lemma RoundTrip(b: seq<byte>)
    ensures Decode(Encode(b)) == Some(b)
  {
    EncodeShape(b);
    UnbrokenIsSame(Encode(b));
    DigitsRoundTrip(b);
  }
}
