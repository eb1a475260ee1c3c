/** Unpadded base64url (section 5 of RFC 4648), decoded as leniently as Node's Buffer does. */
module Base64Url {
  type Byte = b: int | 0 <= b < 256

  type Sextet = v: int | 0 <= v < 64

  function CharOf(v: Sextet): char {
    if v < 26 then ('A' as int + v) as char
    else if v < 52 then ('a' as int + v - 26) as char
    else if v < 62 then ('0' as int + v - 52) as char
    else if v == 62 then '-' else '_'
  }

  // The value of an alphabet character; 64 for any other.
  function ValueOf(c: char): (v: int)
    ensures 0 <= v <= 64
  {
    if 'A' <= c <= 'Z' then c as int - 'A' as int
    else if 'a' <= c <= 'z' then c as int - 'a' as int + 26
    else if '0' <= c <= '9' then c as int - '0' as int + 52
    else if c == '-' then 62
    else if c == '_' then 63
    else 64
  }

  lemma CharValue(v: Sextet)
    ensures ValueOf(CharOf(v)) == v
  {
  }

  predicate InAlphabet(wire: string) {
    forall i | 0 <= i < |wire| :: ValueOf(wire[i]) < 64
  }

  function Encode(b: seq<Byte>): (w: string)
    ensures |w| == (4 * |b| + 2) / 3
  {
    if |b| == 0 then ""
    else if |b| == 1 then [CharOf(b[0] / 4), CharOf(b[0] % 4 * 16)]
    else if |b| == 2 then [CharOf(b[0] / 4), CharOf(b[0] % 4 * 16 + b[1] / 16), CharOf(b[1] % 16 * 4)]
    else
      [CharOf(b[0] / 4), CharOf(b[0] % 4 * 16 + b[1] / 16), CharOf(b[1] % 16 * 4 + b[2] / 64), CharOf(b[2] % 64)]
      + Encode(b[3..])
  }

  // Bits left over at the end, and a single trailing character, are dropped.
  function Decode(w: string): seq<Byte>
    requires InAlphabet(w)
  {
    if |w| < 2 then []
    else
      var v0, v1 := ValueOf(w[0]), ValueOf(w[1]);
      var b0 := v0 * 4 + v1 / 16;
      if |w| == 2 then [b0]
      else
        var v2 := ValueOf(w[2]);
        var b1 := v1 % 16 * 16 + v2 / 4;
        if |w| == 3 then [b0, b1]
        else [b0, b1, v2 % 4 * 64 + ValueOf(w[3])] + Decode(w[4..])
  }

  lemma Bits(b0: Byte, b1: Byte, b2: Byte)
    ensures b0 / 4 * 4 + b0 % 4 * 16 / 16 == b0
    ensures b0 / 4 * 4 + (b0 % 4 * 16 + b1 / 16) / 16 == b0
    ensures (b0 % 4 * 16 + b1 / 16) % 16 * 16 + b1 % 16 * 4 / 4 == b1
    ensures (b0 % 4 * 16 + b1 / 16) % 16 * 16 + (b1 % 16 * 4 + b2 / 64) / 4 == b1
    ensures (b1 % 16 * 4 + b2 / 64) % 4 * 64 + b2 % 64 == b2
  {
  }

  // One byte at the end.
  lemma LastByte(b: seq<Byte>)
    requires |b| == 1
    ensures InAlphabet(Encode(b)) && Decode(Encode(b)) == b
  {
    hide CharOf, ValueOf;
    Bits(b[0], 0, 0);
    CharValue(b[0] / 4);
    CharValue(b[0] % 4 * 16);
  }

  // Two bytes at the end.
  lemma LastBytes(b: seq<Byte>)
    requires |b| == 2
    ensures InAlphabet(Encode(b)) && Decode(Encode(b)) == b
  {
    hide CharOf, ValueOf;
    Bits(b[0], b[1], 0);
    CharValue(b[0] / 4);
    CharValue(b[0] % 4 * 16 + b[1] / 16);
    CharValue(b[1] % 16 * 4);
  }

  // Four characters carry three bytes.
  lemma Group(b0: Byte, b1: Byte, b2: Byte, rest: string)
    requires InAlphabet(rest)
    ensures var c0, c1 := CharOf(b0 / 4), CharOf(b0 % 4 * 16 + b1 / 16);
            var c2, c3 := CharOf(b1 % 16 * 4 + b2 / 64), CharOf(b2 % 64);
            var w := [c0, c1, c2, c3] + rest;
            InAlphabet(w) && Decode(w) == [b0, b1, b2] + Decode(rest)
  {
    hide CharOf, ValueOf;
    Bits(b0, b1, b2);
    var group := [CharOf(b0 / 4), CharOf(b0 % 4 * 16 + b1 / 16), CharOf(b1 % 16 * 4 + b2 / 64), CharOf(b2 % 64)];
    CharValue(b0 / 4);
    CharValue(b0 % 4 * 16 + b1 / 16);
    CharValue(b1 % 16 * 4 + b2 / 64);
    CharValue(b2 % 64);
    assert (group + rest)[4..] == rest;
  }

  /** The alphabet, in the order of the values. */
  lemma Alphabet(v: Sextet)
    ensures v < 26 ==> CharOf(v) == "ABCDEFGHIJKLMNOPQRSTUVWXYZ"[v]
    ensures 26 <= v < 52 ==> CharOf(v) == "abcdefghijklmnopqrstuvwxyz"[v - 26]
    ensures 52 <= v ==> CharOf(v) == "0123456789-_"[v - 52]
  {
    if v < 26 {
      UpperAt(v);
    } else if v < 52 {
      LowerAt(v - 26);
    }
  }

  lemma UpperAt(i: nat)
    requires i < 26
    ensures "ABCDEFGHIJKLMNOPQRSTUVWXYZ"[i] == ('A' as int + i) as char
  {
  }

  lemma LowerAt(i: nat)
    requires i < 26
    ensures "abcdefghijklmnopqrstuvwxyz"[i] == ('a' as int + i) as char
  {
  }

  // The number that the first characters spell, six bits each, the first one leading.
  function Spelled(w: string, n: nat): nat
    requires n <= |w|
  {
    if n == 0 then 0 else 64 * Spelled(w, n - 1) + ValueOf(w[n - 1])
  }

  lemma SpelledUpTo4(w: string)
    requires |w| >= 2
    ensures Spelled(w, 2) == 64 * ValueOf(w[0]) + ValueOf(w[1])
    ensures |w| >= 3 ==> Spelled(w, 3) == 64 * (64 * ValueOf(w[0]) + ValueOf(w[1])) + ValueOf(w[2])
    ensures |w| >= 4 ==>
              Spelled(w, 4) == 64 * (64 * (64 * ValueOf(w[0]) + ValueOf(w[1])) + ValueOf(w[2])) + ValueOf(w[3])
  {
    hide ValueOf;
    assert Spelled(w, 1) == ValueOf(w[0]);
  }

  lemma Regrouped(a: int, b: int, c: int)
    requires 0 <= a < 256 && 0 <= b < 256 && 0 <= c < 256
    ensures 64 * (a / 4) + a % 4 * 16 == a * 16
    ensures 64 * (64 * (a / 4) + (a % 4 * 16 + b / 16)) + b % 16 * 4 == (a * 256 + b) * 4
    ensures 64 * (64 * (64 * (a / 4) + (a % 4 * 16 + b / 16)) + (b % 16 * 4 + c / 64)) + c % 64
            == (a * 256 + b) * 256 + c
  {
  }

  /** What an encoding spells: three bytes are the 24 bits of four characters, one or two left at the end
      are the leading bits of two or three, and the bits behind them are zero. */
  lemma Spelling(b: seq<Byte>)
    requires b != []
    ensures var w, a := Encode(b), b[0] as int;
            if |b| == 1 then |w| == 2 && Spelled(w, 2) == a * 16
            else if |b| == 2 then |w| == 3 && Spelled(w, 3) == (a * 256 + b[1]) * 4
            else |w| >= 4 && Spelled(w, 4) == (a * 256 + b[1]) * 256 + b[2] && w[4..] == Encode(b[3..])
  {
    if |b| == 1 {
      OneSpelled(b);
    } else if |b| == 2 {
      TwoSpelled(b);
    } else {
      ThreeSpelled(b);
    }
  }

  lemma OneSpelled(b: seq<Byte>)
    requires |b| == 1
    ensures |Encode(b)| == 2 && Spelled(Encode(b), 2) == b[0] as int * 16
  {
    Regrouped(b[0], 0, 0);
    CharValue(b[0] / 4);
    CharValue(b[0] % 4 * 16);
    hide CharOf, ValueOf, Spelled;
    SpelledUpTo4(Encode(b));
  }

  lemma TwoSpelled(b: seq<Byte>)
    requires |b| == 2
    ensures |Encode(b)| == 3 && Spelled(Encode(b), 3) == (b[0] as int * 256 + b[1]) * 4
  {
    Regrouped(b[0], b[1], 0);
    CharValue(b[0] / 4);
    CharValue(b[0] % 4 * 16 + b[1] / 16);
    CharValue(b[1] % 16 * 4);
    hide CharOf, ValueOf, Spelled;
    SpelledUpTo4(Encode(b));
  }

  lemma ThreeSpelled(b: seq<Byte>)
    requires |b| > 2
    ensures |Encode(b)| >= 4 && Spelled(Encode(b), 4) == (b[0] as int * 256 + b[1]) * 256 + b[2]
    ensures Encode(b)[4..] == Encode(b[3..])
  {
    Regrouped(b[0], b[1], b[2]);
    CharValue(b[0] / 4);
    CharValue(b[0] % 4 * 16 + b[1] / 16);
    CharValue(b[1] % 16 * 4 + b[2] / 64);
    CharValue(b[2] % 64);
    hide CharOf, ValueOf, Spelled;
    SpelledUpTo4(Encode(b));
  }

  /** Decoding undoes encoding. */
  lemma {:induction false} RoundTrip(b: seq<Byte>)
    ensures InAlphabet(Encode(b)) && Decode(Encode(b)) == b
  {
    if b == [] {
    } else if |b| == 1 {
      LastByte(b);
    } else if |b| == 2 {
      LastBytes(b);
    } else {
      hide CharOf, ValueOf, InAlphabet, Decode;
      RoundTrip(b[3..]);
      Group(b[0], b[1], b[2], Encode(b[3..]));
      assert b == [b[0], b[1], b[2]] + b[3..];
    }
  }
}
