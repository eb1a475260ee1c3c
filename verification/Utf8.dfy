/** UTF-8 as TextEncoder writes it and a fatal TextDecoder reads it. */
module Utf8 {
  import opened Wrappers
  import opened Base64Url

  // A JavaScript string by code points; a surrogate among them is a lone one.
  type Text = seq<nat>

  predicate Surrogate(c: nat) {
    0xD800 <= c <= 0xDFFF
  }

  predicate Scalar(c: nat) {
    c <= 0x10FFFF && !Surrogate(c)
  }

  predicate Scalars(t: Text) {
    forall i | 0 <= i < |t| :: Scalar(t[i])
  }

  function EncodeScalar(c: nat): (b: seq<Byte>)
    requires Scalar(c)
    ensures 1 <= |b| <= 4
  {
    if c < 0x80 then [c]
    else if c < 0x800 then [0xC0 + c / 64, 0x80 + c % 64]
    else if c < 0x10000 then [0xE0 + c / 4096, 0x80 + c / 64 % 64, 0x80 + c % 64]
    else [0xF0 + c / 262144, 0x80 + c / 4096 % 64, 0x80 + c / 64 % 64, 0x80 + c % 64]
  }

  function Encode(t: Text): seq<Byte>
    requires Scalars(t)
  {
    if t == [] then [] else EncodeScalar(t[0]) + Encode(t[1..])
  }

  predicate Continues(b: seq<Byte>, i: nat) {
    i < |b| && 0x80 <= b[i] < 0xC0
  }

  // The six payload bits of a continuation byte.
  function Low(b: seq<Byte>, i: nat): nat
    requires Continues(b, i)
  {
    b[i] as int - 0x80
  }

  // The first scalar of a byte string and how many bytes it takes; overlong forms, surrogates and
  // values past 0x10FFFF are malformed.
  function First(b: seq<Byte>): (r: Option<(nat, nat)>)
    requires b != []
    ensures r.Some? ==> 1 <= r.value.1 <= |b| && Scalar(r.value.0)
  {
    var lead: int := b[0];
    if lead < 0x80 then Some((lead, 1))
    else if 0xC2 <= lead < 0xE0 && Continues(b, 1) then Some(((lead - 0xC0) * 64 + Low(b, 1), 2))
    else if 0xE0 <= lead < 0xF0 && Continues(b, 1) && Continues(b, 2) then
      var c := (lead - 0xE0) * 4096 + Low(b, 1) * 64 + Low(b, 2);
      if c < 0x800 || Surrogate(c) then None else Some((c, 3))
    else if 0xF0 <= lead < 0xF5 && Continues(b, 1) && Continues(b, 2) && Continues(b, 3) then
      var c := (lead - 0xF0) * 262144 + Low(b, 1) * 4096 + Low(b, 2) * 64 + Low(b, 3);
      if c < 0x10000 || c > 0x10FFFF then None else Some((c, 4))
    else None
  }

  function Decode(b: seq<Byte>): Option<Text>
    decreases |b|
  {
    if b == [] then Some([])
    else
      var (c, n) :- First(b);
      var rest :- Decode(b[n..]);
      Some([c] + rest)
  }

  // new TextDecoder('utf-8', { fatal: true }): one leading byte-order mark is dropped.
  function DecodeText(b: seq<Byte>): Option<Text> {
    if |b| >= 3 && b[..3] == [0xEF, 0xBB, 0xBF] then Decode(b[3..]) else Decode(b)
  }

  lemma Split(c: nat)
    ensures c == c / 64 * 64 + c % 64
    ensures c == c / 4096 * 4096 + c / 64 % 64 * 64 + c % 64
    ensures c == c / 262144 * 262144 + c / 4096 % 64 * 4096 + c / 64 % 64 * 64 + c % 64
  {
    assert c / 64 / 64 == c / 4096;
    assert c / 4096 / 64 == c / 262144;
  }

  lemma FirstOfScalar(c: nat, rest: seq<Byte>)
    requires Scalar(c)
    ensures First(EncodeScalar(c) + rest) == Some((c, |EncodeScalar(c)|))
  {
    var e := EncodeScalar(c);
    var b := e + rest;
    assert forall i | 0 <= i < |e| :: b[i] == e[i];
    Split(c);
  }

  /** A byte string begins with a scalar exactly when it begins with that scalar's encoding: overlong,
      truncated and out-of-range forms are refused. */
  lemma FirstExactly(b: seq<Byte>, c: nat, n: nat)
    requires b != []
    ensures First(b) == Some((c, n)) <==> Scalar(c) && n <= |b| && n == |EncodeScalar(c)| && b[..n] == EncodeScalar(c)
  {
    if First(b) == Some((c, n)) {
      FirstIsEncoded(b, c, n);
    }
    if Scalar(c) && n <= |b| && n == |EncodeScalar(c)| && b[..n] == EncodeScalar(c) {
      assert b == EncodeScalar(c) + b[n..];
      hide First, EncodeScalar;
      FirstOfScalar(c, b[n..]);
    }
  }

  lemma FirstIsEncoded(b: seq<Byte>, c: nat, n: nat)
    requires b != [] && First(b) == Some((c, n))
    ensures Scalar(c) && n <= |b| && n == |EncodeScalar(c)| && b[..n] == EncodeScalar(c)
  {
    if n == 1 {
    } else if n == 2 {
      Joined(b[0] - 0xC0, Low(b, 1), 0, 0);
    } else if n == 3 {
      ThreeBytes(b, c);
    } else {
      FourBytes(b, c);
    }
  }

  lemma ThreeBytes(b: seq<Byte>, c: nat)
    requires b != [] && First(b) == Some((c, 3))
    ensures |EncodeScalar(c)| == 3 <= |b| && b[..3] == EncodeScalar(c)
  {
    Joined(b[0] - 0xE0, Low(b, 1), Low(b, 2), 0);
    assert c == (b[0] - 0xE0) * 4096 + Low(b, 1) * 64 + Low(b, 2);
    hide First;
  }

  lemma FourBytes(b: seq<Byte>, c: nat)
    requires b != [] && First(b) == Some((c, 4))
    ensures |EncodeScalar(c)| == 4 <= |b| && b[..4] == EncodeScalar(c)
  {
    Joined(b[0] - 0xF0, Low(b, 1), Low(b, 2), Low(b, 3));
    assert c == (b[0] - 0xF0) * 262144 + Low(b, 1) * 4096 + Low(b, 2) * 64 + Low(b, 3);
    hide First;
  }

  // Six-bit digits behind a leading one.
  lemma Joined(a: int, x: int, y: int, z: int)
    requires 0 <= a && 0 <= x < 64 && 0 <= y < 64 && 0 <= z < 64
    ensures var c := a * 64 + x; c / 64 == a && c % 64 == x
    ensures var c := a * 4096 + x * 64 + y; c / 4096 == a && c / 64 % 64 == x && c % 64 == y
    ensures var c := a * 262144 + x * 4096 + y * 64 + z;
            c / 262144 == a && c / 4096 % 64 == x && c / 64 % 64 == y && c % 64 == z
  {
    var u, v := a * 64 + x, a * 262144 + x * 4096 + y * 64 + z;
    assert (u * 64 + y) / 64 == u && (u * 64 + y) % 64 == y;
    assert v == ((u * 64) + y) * 64 + z;
    assert v / 64 == u * 64 + y && v % 64 == z;
    assert v / 4096 == v / 64 / 64 == u;
    assert v / 262144 == v / 4096 / 64 == a;
    assert (u * 64 + y) / 4096 == (u * 64 + y) / 64 / 64 == a;
  }

  // The low six bits of a byte.
  function Six(b: Byte): int {
    b as int % 64
  }

  // The bits of an encoding: a lead byte that tells its length, then six bits a byte.
  predicate Carries(b: seq<Byte>, c: nat)
    requires 1 <= |b| <= 4
  {
    var lead: int := b[0];
    && (forall i | 1 <= i < |b| :: b[i] / 64 == 2)
    && match |b|
       case 1 => lead == c
       case 2 => lead / 32 == 6 && c == lead % 32 * 64 + Six(b[1])
       case 3 => lead / 16 == 14 && c == lead % 16 * 4096 + Six(b[1]) * 64 + Six(b[2])
       case _ => lead / 8 == 30 && c == lead % 8 * 262144 + Six(b[1]) * 4096 + Six(b[2]) * 64 + Six(b[3])
  }

  /** An encoding is the shortest of the four forms, and carries the scalar's bits. */
  lemma ScalarBits(c: nat)
    requires Scalar(c)
    ensures var b := EncodeScalar(c);
            && |b| == (if c <= 0x7F then 1 else if c <= 0x7FF then 2 else if c <= 0xFFFF then 3 else 4)
            && Carries(b, c)
  {
    Split(c);
  }

  lemma DecodeNext(b: seq<Byte>, c: nat, n: nat, rest: Text)
    requires b != [] && First(b) == Some((c, n)) && Decode(b[n..]) == Some(rest)
    ensures Decode(b) == Some([c] + rest)
  {
    hide First;
  }

  /** A fatal decoder reads back every text of scalars. */
  lemma {:induction false} RoundTrip(t: Text)
    requires Scalars(t)
    ensures Decode(Encode(t)) == Some(t)
  {
    hide First, EncodeScalar;
    if t == [] {
    } else {
      RoundTrip(t[1..]);
      DecodeEncoded(t[0], Encode(t[1..]), t[1..]);
      assert [t[0]] + t[1..] == t;
    }
  }

  lemma DecodeEncoded(c: nat, bytes: seq<Byte>, rest: Text)
    requires Scalar(c) && Decode(bytes) == Some(rest)
    ensures Decode(EncodeScalar(c) + bytes) == Some([c] + rest)
  {
    hide First, EncodeScalar, Decode, Scalar;
    FirstOfScalar(c, bytes);
    var n := |EncodeScalar(c)|;
    assert (EncodeScalar(c) + bytes)[n..] == bytes;
    DecodeNext(EncodeScalar(c) + bytes, c, n, rest);
  }

  lemma {:induction false} EncodeConcat(a: Text, b: Text)
    requires Scalars(a) && Scalars(b)
    ensures Encode(a + b) == Encode(a) + Encode(b)
  {
    if a == [] {
      assert a + b == b;
    } else {
      hide EncodeScalar;
      EncodeConcat(a[1..], b);
      assert (a + b)[1..] == a[1..] + b;
    }
  }
}
