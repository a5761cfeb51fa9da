/** Standard base64 with padding, section 4 of RFC 4648, as Go's StdEncoding reads and
    writes it: the encoder emits no line breaks; the decoder skips CR and LF, insists on
    padding, and ignores the unused bits of the last quantum. */
module Base64 {

  type byte = x: int | 0 <= x < 256

  type sextet = x: int | 0 <= x < 64

  datatype Decoded = Bytes(bytes: seq<byte>) | Corrupt

  function EncodeSextet(v: sextet): char {
    if v < 26 then ('A' as int + v) as char
    else if v < 52 then ('a' as int + v - 26) as char
    else if v < 62 then ('0' as int + v - 52) as char
    else if v == 62 then '+' else '/'
  }

  /** The value of an alphabet character, or -1. */
  function DecodeChar(c: char): (v: int)
    ensures -1 <= v < 64
  {
    if 'A' <= c <= 'Z' then c as int - 'A' as int
    else if 'a' <= c <= 'z' then c as int - 'a' as int + 26
    else if '0' <= c <= '9' then c as int - '0' as int + 52
    else if c == '+' then 62 else if c == '/' then 63 else -1
  }

  predicate InAlphabet(c: char) { DecodeChar(c) >= 0 || c == '=' }

  /** One, two or three bytes as four characters. */
  function Quantum1(a: byte): (s: string)
    ensures |s| == 4 && forall i :: 0 <= i < |s| ==> InAlphabet(s[i])
  {
    [EncodeSextet(a / 4), EncodeSextet(a % 4 * 16), '=', '=']
  }

  function Quantum2(a: byte, b: byte): (s: string)
    ensures |s| == 4 && forall i :: 0 <= i < |s| ==> InAlphabet(s[i])
  {
    [EncodeSextet(a / 4), EncodeSextet(a % 4 * 16 + b / 16), EncodeSextet(b % 16 * 4), '=']
  }

  function Quantum3(a: byte, b: byte, c: byte): (s: string)
    ensures |s| == 4 && forall i :: 0 <= i < |s| ==> InAlphabet(s[i])
  {
    [EncodeSextet(a / 4), EncodeSextet(a % 4 * 16 + b / 16), EncodeSextet(b % 16 * 4 + c / 64), EncodeSextet(c % 64)]
  }

  function Encode(d: seq<byte>): (s: string)
    ensures |s| == 4 * ((|d| + 2) / 3)
    ensures forall i :: 0 <= i < |s| ==> InAlphabet(s[i])
  {
    if d == [] then ""
    else if |d| == 1 then Quantum1(d[0])
    else if |d| == 2 then Quantum2(d[0], d[1])
    else Quantum3(d[0], d[1], d[2]) + Encode(d[3..])
  }

  function Prepend(d: seq<byte>, r: Decoded): Decoded {
    match r case Bytes(bytes) => Bytes(d + bytes) case Corrupt => Corrupt
  }

  function DecodeQuanta(s: string): Decoded {
    if s == "" then Bytes([])
    else if |s| < 4 then Corrupt
    else
      var v0, v1, v2, v3 := DecodeChar(s[0]), DecodeChar(s[1]), DecodeChar(s[2]), DecodeChar(s[3]);
      if v0 < 0 || v1 < 0 then Corrupt
      else if |s| == 4 && s[2] == '=' && s[3] == '=' then Bytes([v0 * 4 + v1 / 16])
      else if v2 < 0 then Corrupt
      else if |s| == 4 && s[3] == '=' then Bytes([v0 * 4 + v1 / 16, v1 % 16 * 16 + v2 / 4])
      else if v3 < 0 then Corrupt
      else Prepend([v0 * 4 + v1 / 16, v1 % 16 * 16 + v2 / 4, v2 % 4 * 64 + v3], DecodeQuanta(s[4..]))
  }

  function StripLines(s: string): string {
    if s == "" then "" else (if s[0] == '\r' || s[0] == '\n' then "" else [s[0]]) + StripLines(s[1..])
  }

  /** StdEncoding.DecodeString. */
  function Decode(s: string): Decoded { DecodeQuanta(StripLines(s)) }

  lemma SextetRoundTrip(v: sextet)
    ensures DecodeChar(EncodeSextet(v)) == v && EncodeSextet(v) != '='
  {
  }

  lemma OneByte(a: byte)
    ensures DecodeQuanta(Quantum1(a)) == Bytes([a])
  {
    var v0: sextet, v1: sextet := a / 4, a % 4 * 16;
    SextetRoundTrip(v0);
    SextetRoundTrip(v1);
    assert v0 * 4 + v1 / 16 == a;
  }

  lemma TwoBytes(a: byte, b: byte)
    ensures DecodeQuanta(Quantum2(a, b)) == Bytes([a, b])
  {
    var v0: sextet, v1: sextet, v2: sextet := a / 4, a % 4 * 16 + b / 16, b % 16 * 4;
    SextetRoundTrip(v0);
    SextetRoundTrip(v1);
    SextetRoundTrip(v2);
    assert v0 * 4 + v1 / 16 == a && v1 % 16 * 16 + v2 / 4 == b;
  }

  lemma FullQuantum(a: byte, b: byte, c: byte, s: string)
    ensures DecodeQuanta(Quantum3(a, b, c) + s) == Prepend([a, b, c], DecodeQuanta(s))
  {
    var v0: sextet, v1: sextet, v2: sextet, v3: sextet := a / 4, a % 4 * 16 + b / 16, b % 16 * 4 + c / 64, c % 64;
    SextetRoundTrip(v0);
    SextetRoundTrip(v1);
    SextetRoundTrip(v2);
    SextetRoundTrip(v3);
    assert (Quantum3(a, b, c) + s)[4..] == s;
    assert v0 * 4 + v1 / 16 == a && v1 % 16 * 16 + v2 / 4 == b && v2 % 4 * 64 + v3 == c;
  }

  lemma {:induction false} QuantaRoundTrip(d: seq<byte>)
    ensures DecodeQuanta(Encode(d)) == Bytes(d)
  {
    if |d| == 1 {
      OneByte(d[0]);
    } else if |d| == 2 {
      TwoBytes(d[0], d[1]);
    } else if |d| > 2 {
      FullQuantum(d[0], d[1], d[2], Encode(d[3..]));
      QuantaRoundTrip(d[3..]);
      assert [d[0], d[1], d[2]] + d[3..] == d;
    }
  }

  lemma {:induction false} StripNothing(s: string)
    requires forall i :: 0 <= i < |s| ==> s[i] != '\r' && s[i] != '\n'
    ensures StripLines(s) == s
  {
    if s == "" {
    } else {
      StripNothing(s[1..]);
    }
  }

  lemma NoLines(s: string)
    requires forall i :: 0 <= i < |s| ==> InAlphabet(s[i])
    ensures forall i :: 0 <= i < |s| ==> s[i] != '\r' && s[i] != '\n'
  {
    forall i | 0 <= i < |s| ensures s[i] != '\r' && s[i] != '\n' { assert InAlphabet(s[i]); }
  }

  /** Decoding undoes encoding, for every byte string. */
  lemma RoundTrip(d: seq<byte>)
    ensures Decode(Encode(d)) == Bytes(d)
  {
    QuantaRoundTrip(d);
    NoLines(Encode(d));
    StripNothing(Encode(d));
  }

  // ------------------------------------------------------------ the alphabet

  /** The value of a character by its ASCII code: capitals, small letters, digits, plus,
      slash; padding stands for zero bits. */
  function Value(c: char): nat {
    var n := c as int;
    if 65 <= n <= 90 then n - 65
    else if 97 <= n <= 122 then n - 71
    else if 48 <= n <= 57 then n + 4
    else if n == 43 then 62 else if n == 47 then 63 else 0
  }

  lemma ValueOf(v: sextet)
    ensures Value(EncodeSextet(v)) == v && EncodeSextet(v) != '='
  {
  }

  /** A byte of the string, and zero beyond its end. */
  function ByteAt(d: seq<byte>, i: nat): byte { if i < |d| then d[i] else 0 }

  /** Four characters spell three bytes: the same number of 24 bits. */
  predicate Spells(s: string, a: byte, b: byte, c: byte)
    requires |s| == 4
  {
    0x40000 * Value(s[0]) + 0x1000 * Value(s[1]) + 0x40 * Value(s[2]) + Value(s[3]) == 0x10000 * a + 0x100 * b + c
  }

  lemma QuantumSpells(a: byte, b: byte, c: byte)
    ensures Spells(Quantum3(a, b, c), a, b, c)
  {
    ValueOf(a / 4);
    ValueOf(a % 4 * 16 + b / 16);
    ValueOf(b % 16 * 4 + c / 64);
    ValueOf(c % 64);
  }

  lemma PaddedSpells(a: byte, b: byte)
    ensures Spells(Quantum1(a), a, 0, 0) && Spells(Quantum2(a, b), a, b, 0)
  {
    ValueOf(a / 4);
    ValueOf(a % 4 * 16);
    ValueOf(a % 4 * 16 + b / 16);
    ValueOf(b % 16 * 4);
  }

  /** The k-th group of four characters spells the k-th three bytes. */
  predicate GroupSpells(s: string, d: seq<byte>, k: nat)
    requires 4 * k + 4 <= |s|
  {
    Spells(s[4 * k..4 * k + 4], ByteAt(d, 3 * k), ByteAt(d, 3 * k + 1), ByteAt(d, 3 * k + 2))
  }

  lemma FirstSpells(d: seq<byte>)
    requires d != []
    ensures |Encode(d)| >= 4 && GroupSpells(Encode(d), d, 0)
  {
    if |d| == 1 {
      PaddedSpells(d[0], 0);
      assert Quantum1(d[0])[0..4] == Quantum1(d[0]);
    } else if |d| == 2 {
      PaddedSpells(d[0], d[1]);
      assert Quantum2(d[0], d[1])[0..4] == Quantum2(d[0], d[1]);
    } else {
      QuantumSpells(d[0], d[1], d[2]);
      assert Encode(d)[0..4] == Quantum3(d[0], d[1], d[2]);
    }
  }

  lemma LaterSpells(s: string, d: seq<byte>, q: string, e: string, k: nat)
    requires |q| == 4 && s == q + e && |d| >= 3 && 4 * k + 4 <= |e| && GroupSpells(e, d[3..], k)
    ensures GroupSpells(s, d, k + 1)
  {
    assert s[4 * (k + 1)..4 * (k + 1) + 4] == e[4 * k..4 * k + 4];
    assert forall j: nat :: ByteAt(d[3..], j) == ByteAt(d, j + 3);
  }

  /** Each group of four characters spells the three bytes in its place. */
  lemma {:induction false} EncodeSpells(d: seq<byte>, k: nat)
    requires 3 * k < |d|
    ensures 4 * k + 4 <= |Encode(d)| && GroupSpells(Encode(d), d, k)
  {
    if k == 0 {
      FirstSpells(d);
    } else {
      var q, e := Quantum3(d[0], d[1], d[2]), Encode(d[3..]);
      EncodeSpells(d[3..], k - 1);
      LaterSpells(Encode(d), d, q, e, k - 1);
    }
  }

  /** Padding stands exactly where no byte reaches: at most two characters, at the end. */
  lemma {:induction false} PaddingAt(d: seq<byte>, i: nat)
    requires i < |Encode(d)|
    ensures Encode(d)[i] == '=' <==> 3 * i >= 4 * |d|
  {
    if |d| == 1 {
      OnePadded(d[0]);
    } else if |d| == 2 {
      TwoPadded(d[0], d[1]);
    } else if i < 4 {
      NonePadded(d[0], d[1], d[2], i);
    } else {
      PaddingAt(d[3..], i - 4);
    }
  }

  lemma OnePadded(a: byte)
    ensures var q := Quantum1(a); q[0] != '=' && q[1] != '=' && q[2] == '=' && q[3] == '='
  {
    ValueOf(a / 4);
    ValueOf(a % 4 * 16);
  }

  lemma TwoPadded(a: byte, b: byte)
    ensures var q := Quantum2(a, b); q[0] != '=' && q[1] != '=' && q[2] != '=' && q[3] == '='
  {
    ValueOf(a / 4);
    ValueOf(a % 4 * 16 + b / 16);
    ValueOf(b % 16 * 4);
  }

  lemma NonePadded(a: byte, b: byte, c: byte, i: nat)
    requires i < 4
    ensures Quantum3(a, b, c)[i] != '='
  {
    ValueOf(a / 4);
    ValueOf(a % 4 * 16 + b / 16);
    ValueOf(b % 16 * 4 + c / 64);
    ValueOf(c % 64);
  }
}
