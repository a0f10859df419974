/**
  The key codec of config.go: base64.StdEncoding.DecodeString followed by hex.EncodeToString.
  `Encode` is the encoding of section 4 of RFC 4648, `HexEncode` the lower-case form of section 8.
  The decoder is Go's: it skips carriage returns and newlines and does not look at the unused
  bits before the padding.
 */
module Codec {
  import opened Text

  function Digit64(i: nat): char
    requires i < 64
  {
    if i < 26 then ('A' as int + i) as char
    else if i < 52 then ('a' as int + i - 26) as char
    else if i < 62 then ('0' as int + i - 52) as char
    else if i == 62 then '+' else '/'
  }

  predicate InAlphabet(c: char) {
    'A' <= c <= 'Z' || 'a' <= c <= 'z' || '0' <= c <= '9' || c == '+' || c == '/'
  }

  function Value64(c: char): (i: nat)
    requires InAlphabet(c)
    ensures i < 64 && Digit64(i) == c
  {
    if 'A' <= c <= 'Z' then c as int - 'A' as int
    else if 'a' <= c <= 'z' then c as int - 'a' as int + 26
    else if '0' <= c <= '9' then c as int - '0' as int + 52
    else if c == '+' then 62 else 63
  }

  lemma DigitRoundTrip(i: nat)
    requires i < 64
    ensures InAlphabet(Digit64(i)) && Value64(Digit64(i)) == i
  {
  }

  /** Table 1 of RFC 4648. */
  const ALPHABET := "ABCDEFGHIJKLMNOPQRSTUVWXYZ" + "abcdefghijklmnopqrstuvwxyz" + "0123456789" + "+/"

  lemma CapitalsAreTheAlphabet(i: nat)
    requires i < 26
    ensures ALPHABET[i] == Digit64(i)
  {
    assert "ABCDEFGHIJKLMNOPQRSTUVWXYZ"[i] == ('A' as int + i) as char;
  }

  lemma SmallLettersAreTheAlphabet(i: nat)
    requires i < 26
    ensures ALPHABET[i + 26] == Digit64(i + 26)
  {
    assert "abcdefghijklmnopqrstuvwxyz"[i] == ('a' as int + i) as char;
  }

  lemma FiguresAreTheAlphabet(i: nat)
    requires i < 12
    ensures ALPHABET[i + 52] == Digit64(i + 52)
  {
    if i < 10 {
      assert "0123456789"[i] == ('0' as int + i) as char;
    } else {
      assert ALPHABET[i + 52] == "+/"[i - 10];
    }
  }

  lemma DigitsAreTheAlphabet(i: nat)
    requires i < 64
    ensures Digit64(i) == ALPHABET[i]
  {
    if i < 26 {
      CapitalsAreTheAlphabet(i);
    } else if i < 52 {
      SmallLettersAreTheAlphabet(i - 26);
    } else {
      FiguresAreTheAlphabet(i - 52);
    }
  }

  /** A character is of the alphabet exactly if it stands in the table, and its value is where. */
  lemma ValuesAreTheAlphabet(c: char)
    ensures InAlphabet(c) <==> c in ALPHABET
    ensures InAlphabet(c) ==> ALPHABET[Value64(c)] == c
  {
    if InAlphabet(c) {
      DigitsAreTheAlphabet(Value64(c));
    }
    if c in ALPHABET {
      var i :| 0 <= i < |ALPHABET| && ALPHABET[i] == c;
      DigitsAreTheAlphabet(i);
      DigitRoundTrip(i);
    }
  }

  /** One quantum: three bytes, or the last one or two with padding. */
  function EncodeQuantum(b: seq<Byte>): (q: string)
    requires 1 <= |b| <= 3
    ensures |q| == 4
  {
    if |b| == 1 then [Digit64(b[0] / 4), Digit64(b[0] % 4 * 16), '=', '=']
    else if |b| == 2 then
      [Digit64(b[0] / 4), Digit64(b[0] % 4 * 16 + b[1] / 16), Digit64(b[1] % 16 * 4), '=']
    else
      [Digit64(b[0] / 4), Digit64(b[0] % 4 * 16 + b[1] / 16), Digit64(b[1] % 16 * 4 + b[2] / 64), Digit64(b[2] % 64)]
  }

  function Encode(b: seq<Byte>): string {
    if b == [] then "" else if |b| <= 3 then EncodeQuantum(b) else EncodeQuantum(b[..3]) + Encode(b[3..])
  }

  /** The decoder passes over line breaks wherever they stand. */
  function StripBreaks(s: string): string {
    if s == "" then ""
    else (if s[0] == '\r' || s[0] == '\n' then "" else [s[0]]) + StripBreaks(s[1..])
  }

  /** Padding is accepted in the last quantum only. */
  function DecodeQuantum(q: string, last: bool): Option<seq<Byte>>
    requires |q| == 4
  {
    if !InAlphabet(q[0]) || !InAlphabet(q[1]) then None
    else
      var v0, v1 := Value64(q[0]), Value64(q[1]);
      var b0 := v0 * 4 + v1 / 16;
      if q[2] == '=' then (if q[3] == '=' && last then Some([b0]) else None)
      else if !InAlphabet(q[2]) then None
      else
        var v2 := Value64(q[2]);
        var b1 := v1 % 16 * 16 + v2 / 4;
        if q[3] == '=' then (if last then Some([b0, b1]) else None)
        else if !InAlphabet(q[3]) then None
        else Some([b0, b1, v2 % 4 * 64 + Value64(q[3])])
  }

  function DecodeQuanta(s: string): Option<seq<Byte>> {
    if s == "" then Some([])
    else if |s| < 4 then None
    else
      var first, rest := DecodeQuantum(s[..4], |s| == 4), DecodeQuanta(s[4..]);
      if first.None? || rest.None? then None else Some(first.value + rest.value)
  }

  function Decode(s: string): Option<seq<Byte>> {
    DecodeQuanta(StripBreaks(s))
  }

  lemma QuantumHasNoBreaks(b: seq<Byte>)
    requires 1 <= |b| <= 3
    ensures '\r' !in EncodeQuantum(b) && '\n' !in EncodeQuantum(b)
  {
  }

  lemma {:induction false} EncodeHasNoBreaks(b: seq<Byte>)
    ensures '\r' !in Encode(b) && '\n' !in Encode(b)
  {
    if |b| > 3 {
      QuantumHasNoBreaks(b[..3]);
      EncodeHasNoBreaks(b[3..]);
    } else if b != [] {
      QuantumHasNoBreaks(b);
    }
  }

  lemma {:induction false} StripNothing(s: string)
    requires '\r' !in s && '\n' !in s
    ensures StripBreaks(s) == s
  {
    if s != "" {
      StripNothing(s[1..]);
    }
  }

  /** The sextets of three bytes hold their bits. */
  lemma Sextets(x: Byte, y: Byte, z: Byte)
    ensures x / 4 < 64 && x % 4 * 16 + y / 16 < 64 && y % 16 * 4 + z / 64 < 64 && z % 64 < 64
    ensures x / 4 * 4 + (x % 4 * 16 + y / 16) / 16 == x
    ensures (x % 4 * 16 + y / 16) % 16 * 16 + (y % 16 * 4 + z / 64) / 4 == y
    ensures (y % 16 * 4 + z / 64) % 4 * 64 + z % 64 == z
  {
  }

  lemma TwoSextets(x: Byte, y: Byte)
    ensures x / 4 < 64 && x % 4 * 16 + y / 16 < 64 && y % 16 * 4 < 64
    ensures x / 4 * 4 + (x % 4 * 16 + y / 16) / 16 == x
    ensures (x % 4 * 16 + y / 16) % 16 * 16 + (y % 16 * 4) / 4 == y
  {
    Sextets(x, y, 0);
  }

  lemma ThreeDigitsDecode(b: seq<Byte>, u: nat, v: nat, w: nat)
    requires u < 64 && v < 64 && w < 64
    requires |b| == 2 && b[0] == u * 4 + v / 16 && b[1] == v % 16 * 16 + w / 4
    ensures DecodeQuantum([Digit64(u), Digit64(v), Digit64(w), '='], true) == Some(b)
  {
    DigitRoundTrip(u);
    DigitRoundTrip(v);
    DigitRoundTrip(w);
    assert Digit64(w) != '=';
    assert b == [b[0], b[1]];
  }

  lemma FourDigitsDecode(b: seq<Byte>, u: nat, v: nat, w: nat, x: nat, last: bool)
    requires u < 64 && v < 64 && w < 64 && x < 64
    requires |b| == 3 && b[0] == u * 4 + v / 16 && b[1] == v % 16 * 16 + w / 4 && b[2] == w % 4 * 64 + x
    ensures DecodeQuantum([Digit64(u), Digit64(v), Digit64(w), Digit64(x)], last) == Some(b)
  {
    DigitRoundTrip(u);
    DigitRoundTrip(v);
    DigitRoundTrip(w);
    DigitRoundTrip(x);
    assert Digit64(w) != '=' && Digit64(x) != '=';
    assert b == [b[0], b[1], b[2]];
  }

  lemma TwoByteRoundTrip(b: seq<Byte>)
    requires |b| == 2
    ensures DecodeQuantum(EncodeQuantum(b), true) == Some(b)
  {
    TwoSextets(b[0], b[1]);
    ThreeDigitsDecode(b, b[0] / 4, b[0] % 4 * 16 + b[1] / 16, b[1] % 16 * 4);
  }

  lemma ThreeByteRoundTrip(b: seq<Byte>, last: bool)
    requires |b| == 3
    ensures DecodeQuantum(EncodeQuantum(b), last) == Some(b)
  {
    Sextets(b[0], b[1], b[2]);
    FourDigitsDecode(b, b[0] / 4, b[0] % 4 * 16 + b[1] / 16, b[1] % 16 * 4 + b[2] / 64, b[2] % 64, last);
  }

  lemma QuantumRoundTrip(b: seq<Byte>, last: bool)
    requires 1 <= |b| <= 3 && (last || |b| == 3)
    ensures DecodeQuantum(EncodeQuantum(b), last) == Some(b)
  {
    if |b| == 3 {
      ThreeByteRoundTrip(b, last);
    } else if |b| == 2 {
      TwoByteRoundTrip(b);
    } else {
      DigitRoundTrip(b[0] / 4);
      DigitRoundTrip(b[0] % 4 * 16);
      assert b == [b[0]];
    }
  }

  lemma {:induction false} QuantaRoundTrip(b: seq<Byte>)
    ensures DecodeQuanta(Encode(b)) == Some(b)
  {
    var s := Encode(b);
    if |b| > 3 {
      QuantaRoundTrip(b[3..]);
      QuantumRoundTrip(b[..3], false);
      assert s[..4] == EncodeQuantum(b[..3]) && s[4..] == Encode(b[3..]) != "";
      assert b == b[..3] + b[3..];
    } else if b != [] {
      QuantumRoundTrip(b, true);
      assert s[..4] == s && s[4..] == "";
      assert b + [] == b;
    }
  }

  /** Decoding inverts encoding, for every byte string. */
  lemma RoundTrip(b: seq<Byte>)
    ensures Decode(Encode(b)) == Some(b)
  {
    EncodeHasNoBreaks(b);
    StripNothing(Encode(b));
    QuantaRoundTrip(b);
  }

  // What else the decoder accepts.

  lemma {:induction false} StripDistributes(a: string, b: string)
    ensures StripBreaks(a + b) == StripBreaks(a) + StripBreaks(b)
  {
    if a == "" {
      assert a + b == b;
    } else {
      StripDistributes(a[1..], b);
      StripFirst(a);
      StripFirst(a + b);
      assert (a + b)[1..] == a[1..] + b;
      Regroup(Stripped(a[0]), StripBreaks(a[1..]), StripBreaks(b));
    }
  }

  function Stripped(c: char): string {
    if c == '\r' || c == '\n' then "" else [c]
  }

  lemma StripFirst(s: string)
    requires s != ""
    ensures StripBreaks(s) == Stripped(s[0]) + StripBreaks(s[1..])
  {
  }

  /** Line breaks are passed over, wherever they stand. */
  lemma BreaksAreSkipped(a: string, c: char, b: string)
    requires c == '\r' || c == '\n'
    ensures Decode(a + [c] + b) == Decode(a + b)
  {
    StripDistributes(a + [c], b);
    StripDistributes(a, [c]);
    StripDistributes(a, b);
    assert [c][1..] == "";
    assert StripBreaks([c]) == "";
    assert StripBreaks(a) + "" == StripBreaks(a);
  }

  lemma EncodesBack(b: seq<Byte>, u: nat, v: nat, w: nat, x: nat)
    requires u < 64 && v < 64 && w < 64 && x < 64 && 1 <= |b| <= 3
    requires b[0] == u * 4 + v / 16
    requires |b| > 1 ==> b[1] == v % 16 * 16 + w / 4
    requires |b| > 2 ==> b[2] == w % 4 * 64 + x
    ensures EncodeQuantum(b)[0] == Digit64(u)
    ensures |b| > 1 ==> EncodeQuantum(b)[1] == Digit64(v)
    ensures |b| > 2 ==> EncodeQuantum(b)[2] == Digit64(w) && EncodeQuantum(b)[3] == Digit64(x)
  {
    SextetsOf(u, v, w, x);
  }

  /** One quantum decoded was encoded that way, up to the bits of the last digit that padding leaves unused. */
  lemma QuantumDecodedIsEncoded(q: string, last: bool, b: seq<Byte>)
    requires |q| == 4 && DecodeQuantum(q, last) == Some(b)
    ensures 1 <= |b| <= 3 && (|b| < 3 ==> last)
    ensures forall k | 0 <= k < 4 && k != |b| :: q[k] == EncodeQuantum(b)[k]
    ensures |b| == 3 ==> q == EncodeQuantum(b)
  {
    var u, v := Value64(q[0]), Value64(q[1]);
    var w := if |b| > 1 then Value64(q[2]) else 0;
    var x := if |b| > 2 then Value64(q[3]) else 0;
    EncodesBack(b, u, v, w, x);
  }

  lemma SextetsOf(u: nat, v: nat, w: nat, x: nat)
    requires u < 64 && v < 64 && w < 64 && x < 64
    ensures var a, b, c := u * 4 + v / 16, v % 16 * 16 + w / 4, w % 4 * 64 + x;
            a / 4 == u && a % 4 * 16 + b / 16 == v && b % 16 * 4 + c / 64 == w && c % 64 == x
  {
  }

  /** What padding and unused bits allow: texts that agree but for the digit before the padding. */
  ghost predicate SameButUnusedBits(s: string, t: string, size: nat) {
    && |s| == |t|
    && forall k | 0 <= k < |s| :: s[k] == t[k] || (size % 3 != 0 && k == |s| - 4 + size % 3)
  }

  lemma FirstQuantumDecodes(s: string, b: seq<Byte>) returns (first: seq<Byte>, rest: seq<Byte>)
    requires DecodeQuanta(s) == Some(b) && s != ""
    ensures |s| >= 4 && DecodeQuantum(s[..4], |s| == 4) == Some(first) && DecodeQuanta(s[4..]) == Some(rest)
    ensures b == first + rest && (|s| == 4 ==> rest == [] && b == first)
  {
    first, rest := DecodeQuantum(s[..4], |s| == 4).value, DecodeQuanta(s[4..]).value;
  }

  lemma {:induction false} QuantaDecodedAreEncoded(s: string, b: seq<Byte>)
    requires DecodeQuanta(s) == Some(b)
    ensures SameButUnusedBits(s, Encode(b), |b|)
    decreases |s|
  {
    if s != "" {
      var first, rest := FirstQuantumDecodes(s, b);
      var q := s[..4];
      QuantumDecodedIsEncoded(q, |s| == 4, first);
      OneGroupIsItsQuantum(first);
      if |s| == 4 {
        assert q == s;
      } else {
        QuantaDecodedAreEncoded(s[4..], rest);
        EncodeByGroups(first, rest);
        GlueQuantum(q, s[4..], Encode(rest), |rest|);
        assert s == q + s[4..];
      }
    }
  }

  lemma GlueQuantum(q: string, s: string, t: string, size: nat)
    requires |q| == 4 && SameButUnusedBits(s, t, size)
    ensures SameButUnusedBits(q + s, q + t, size + 3)
  {
    forall k | 0 <= k < |q + s|
      ensures (q + s)[k] == (q + t)[k] || (size % 3 != 0 && k == |q + s| - 4 + size % 3)
    {
      if k >= 4 {
        assert s[k - 4] == t[k - 4] || (size % 3 != 0 && k - 4 == |s| - 4 + size % 3);
      }
    }
  }

  /**
    The other direction.  A text without line breaks that decodes is the encoding of what it decodes
    to, except that the bits the padding leaves unused are not looked at.
   */
  lemma DecodedTextIsTheEncoding(s: string, b: seq<Byte>)
    requires '\r' !in s && '\n' !in s && Decode(s) == Some(b)
    ensures SameButUnusedBits(s, Encode(b), |b|)
  {
    StripNothing(s);
    QuantaDecodedAreEncoded(s, b);
  }

  // What the encoding is, in the words of section 4 of RFC 4648.

  /** The characters stand for these values in the alphabet. */
  ghost predicate Spells(q: string, v: seq<nat>) {
    |v| <= |q| && forall i | 0 <= i < |v| :: v[i] < 64 && q[i] == ALPHABET[v[i]]
  }

  function Digits(v: seq<nat>, base: nat): nat {
    if v == [] then 0 else Digits(v[..|v| - 1], base) * base + v[|v| - 1]
  }

  lemma DigitsOf(v: seq<nat>, base: nat)
    ensures |v| == 1 ==> Digits(v, base) == v[0]
    ensures |v| == 2 ==> Digits(v, base) == v[0] * base + v[1]
    ensures |v| == 3 ==> Digits(v, base) == (v[0] * base + v[1]) * base + v[2]
    ensures |v| == 4 ==> Digits(v, base) == ((v[0] * base + v[1]) * base + v[2]) * base + v[3]
  {
    if 2 <= |v| <= 4 {
      DigitsOf(v[..|v| - 1], base);
    }
  }

  lemma SameBits(x: nat, y: nat, z: nat)
    requires x < 256 && y < 256 && z < 256
    ensures x / 4 * 64 + x % 4 * 16 == x * 16
    ensures (x / 4 * 64 + (x % 4 * 16 + y / 16)) * 64 + y % 16 * 4 == (x * 256 + y) * 4
    ensures ((x / 4 * 64 + (x % 4 * 16 + y / 16)) * 64 + (y % 16 * 4 + z / 64)) * 64 + z % 64 == (x * 256 + y) * 256 + z
  {
  }

  function Values(b: seq<Byte>): (v: seq<nat>)
    requires 1 <= |b| <= 3
    ensures |v| == |b| + 1
  {
    if |b| == 1 then [b[0] / 4, b[0] % 4 * 16]
    else if |b| == 2 then [b[0] / 4, b[0] % 4 * 16 + b[1] / 16, b[1] % 16 * 4]
    else [b[0] / 4, b[0] % 4 * 16 + b[1] / 16, b[1] % 16 * 4 + b[2] / 64, b[2] % 64]
  }

  lemma QuantumSpellsValues(b: seq<Byte>)
    requires 1 <= |b| <= 3
    ensures Spells(EncodeQuantum(b), Values(b))
  {
    var v := Values(b);
    forall i | 0 <= i < |v| ensures v[i] < 64 && EncodeQuantum(b)[i] == ALPHABET[v[i]] {
      DigitsAreTheAlphabet(v[i]);
    }
  }

  /**
    A group of n bytes, n at most 3, is one number: in base 256 as bytes, and, with 0, 4 or 2 zero
    bits after it, in base 64 as n + 1 characters of the alphabet, followed by padding up to four.
   */
  lemma QuantumIsTheSameNumber(b: seq<Byte>) returns (v: seq<nat>)
    requires 1 <= |b| <= 3
    ensures Spells(EncodeQuantum(b), v) && |v| == |b| + 1
    ensures Digits(v, 64) == Digits(b, 256) * (if |b| == 3 then 1 else if |b| == 2 then 4 else 16)
    ensures EncodeQuantum(b)[|b| + 1..] == if |b| == 3 then "" else if |b| == 2 then "=" else "=="
  {
    v := Values(b);
    QuantumSpellsValues(b);
    DigitsOf(v, 64);
    DigitsOf(b, 256);
    SameBits(b[0], if |b| > 1 then b[1] else 0, if |b| > 2 then b[2] else 0);
  }

  /** Groups of three bytes are encoded apart. */
  lemma {:induction false} EncodeByGroups(a: seq<Byte>, b: seq<Byte>)
    requires |a| % 3 == 0
    ensures Encode(a + b) == Encode(a) + Encode(b)
    decreases |a|
  {
    if a == [] {
      assert a + b == b;
    } else {
      var q, rest := EncodeQuantum(a[..3]), a[3..];
      EncodeByGroups(rest, b);
      EncodeFirst(a);
      EncodeFirstOfSum(a, b);
      Regroup(q, Encode(rest), Encode(b));
      calc {
        Encode(a + b);
        q + Encode(rest + b);
        q + (Encode(rest) + Encode(b));
        (q + Encode(rest)) + Encode(b);
        Encode(a) + Encode(b);
      }
    }
  }

  lemma EncodeFirstOfSum(a: seq<Byte>, b: seq<Byte>)
    requires |a| >= 3
    ensures Encode(a + b) == EncodeQuantum(a[..3]) + Encode(a[3..] + b)
  {
    EncodeFirst(a + b);
    assert (a + b)[..3] == a[..3] && (a + b)[3..] == a[3..] + b;
  }

  lemma OneGroupIsItsQuantum(b: seq<Byte>)
    ensures b == [] ==> Encode(b) == ""
    ensures 1 <= |b| <= 3 ==> Encode(b) == EncodeQuantum(b)
  {
  }

  lemma EncodeFirst(b: seq<Byte>)
    requires |b| >= 3
    ensures Encode(b) == EncodeQuantum(b[..3]) + Encode(b[3..])
  {
    if |b| == 3 {
      assert b[..3] == b && b[3..] == [];
      assert EncodeQuantum(b) + "" == EncodeQuantum(b);
    }
  }

  function HexDigit(n: nat): char
    requires n < 16
  {
    if n < 10 then ('0' as int + n) as char else ('a' as int + n - 10) as char
  }

  predicate IsLowerHex(c: char) {
    '0' <= c <= '9' || 'a' <= c <= 'f'
  }

  function HexValue(c: char): (n: nat)
    requires IsLowerHex(c)
    ensures n < 16 && HexDigit(n) == c
  {
    if '0' <= c <= '9' then c as int - '0' as int else c as int - 'a' as int + 10
  }

  function HexEncode(b: seq<Byte>): (s: string)
    ensures |s| == 2 * |b| && forall c <- s :: IsLowerHex(c)
  {
    if b == [] then "" else [HexDigit(b[0] / 16), HexDigit(b[0] % 16)] + HexEncode(b[1..])
  }

  function HexDecode(s: string): Option<seq<Byte>> {
    if s == "" then Some([])
    else if |s| < 2 || !IsLowerHex(s[0]) || !IsLowerHex(s[1]) then None
    else match HexDecode(s[2..])
         case None => None
         case Some(rest) => Some([HexValue(s[0]) * 16 + HexValue(s[1])] + rest)
  }

  const HEX := "0123456789abcdef"

  /** Table 5 of RFC 4648, in small letters: two digits a byte, the high one first. */
  lemma {:induction false} HexIsTwoDigitsAByte(b: seq<Byte>, k: nat)
    requires k < |b|
    ensures HexEncode(b)[2 * k] == HEX[b[k] / 16] && HexEncode(b)[2 * k + 1] == HEX[b[k] % 16]
    decreases k
  {
    if k == 0 {
      HexDigitIsTheTable(b[0] / 16);
      HexDigitIsTheTable(b[0] % 16);
    } else {
      HexIsTwoDigitsAByte(b[1..], k - 1);
      assert HexEncode(b)[2..] == HexEncode(b[1..]);
    }
  }

  lemma HexDigitIsTheTable(n: nat)
    requires n < 16
    ensures HexDigit(n) == HEX[n]
  {
  }

  lemma {:induction false} HexRoundTrip(b: seq<Byte>)
    ensures HexDecode(HexEncode(b)) == Some(b)
  {
    if b != [] {
      HexRoundTrip(b[1..]);
      assert HexEncode(b)[2..] == HexEncode(b[1..]);
      assert b == [b[0]] + b[1..];
    }
  }

  datatype KeyResult = Key(hex: string) | NotBase64 | WrongLength

  /** encodeBase64ToHex */
  function EncodeBase64ToHex(key: string): KeyResult {
    match Decode(key)
    case None => NotBase64
    case Some(decoded) => if |decoded| != 32 then WrongLength else Key(HexEncode(decoded))
  }

  /** A 32-byte key in base64 comes out as its 64 lower-case hex digits. */
  lemma KeyIsTranscribed(key: seq<Byte>)
    requires |key| == 32
    ensures EncodeBase64ToHex(Encode(key)) == Key(HexEncode(key))
    ensures |HexEncode(key)| == 64
    ensures forall k | 0 <= k < 32 ::
              HexEncode(key)[2 * k] == HEX[key[k] / 16] && HexEncode(key)[2 * k + 1] == HEX[key[k] % 16]
  {
    RoundTrip(key);
    forall k | 0 <= k < 32
      ensures HexEncode(key)[2 * k] == HEX[key[k] / 16] && HexEncode(key)[2 * k + 1] == HEX[key[k] % 16]
    {
      HexIsTwoDigitsAByte(key, k);
    }
  }

  /** Every accepted input stands for 32 bytes, and those can be read back from the output. */
  lemma AcceptedKeysAreReproduced(s: string)
    ensures EncodeBase64ToHex(s).Key? <==> (Decode(s).Some? && |Decode(s).value| == 32)
    ensures EncodeBase64ToHex(s).NotBase64? <==> Decode(s).None?
    ensures EncodeBase64ToHex(s).Key? ==>
              && HexDecode(EncodeBase64ToHex(s).hex) == Decode(s)
              && |EncodeBase64ToHex(s).hex| == 64 && OneLine(EncodeBase64ToHex(s).hex)
  {
    if EncodeBase64ToHex(s).Key? {
      HexRoundTrip(Decode(s).value);
    }
  }

  /** Inputs for different keys never print alike; inputs for the same key always do. */
  lemma DistinctKeysPrintDistinctly(s: string, t: string)
    requires EncodeBase64ToHex(s).Key? && EncodeBase64ToHex(t).Key?
    ensures EncodeBase64ToHex(s) == EncodeBase64ToHex(t) <==> Decode(s) == Decode(t)
  {
    AcceptedKeysAreReproduced(s);
    AcceptedKeysAreReproduced(t);
  }
}
