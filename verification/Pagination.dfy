/** Opaque page cursors (src/shared/pagination/index.ts): base64url of UTF-8 of [1, scope, position]. */
module Pagination {
  import opened Wrappers
  import B = Base64Url
  import opened Utf8

  const MAX_SCOPE := 128
  const MAX_POSITION := 256
  const MAX_WIRE := 1024

  const QUOTE := 0x22
  const BACKSLASH := 0x5C

  predicate ValidPart(t: Text, max: nat) {
    && Scalars(t) && t != [] && |Encode(t)| <= max
    && forall i | 0 <= i < |t| :: t[i] >= 32 && t[i] != 127
  }

  // ----- JSON.stringify of valid parts: only quotes and backslashes need escaping -----

  function Escape(t: Text): Text {
    if t == [] then []
    else (if t[0] == QUOTE || t[0] == BACKSLASH then [BACKSLASH, t[0]] else [t[0]]) + Escape(t[1..])
  }

  function Quote(t: Text): Text {
    [QUOTE] + Escape(t) + [QUOTE]
  }

  // [1,"scope","position"]
  function Print(scope: Text, position: Text): Text {
    [0x5B, 0x31, 0x2C] + Quote(scope) + [0x2C] + Quote(position) + [0x5D]
  }

  // ----- JSON.parse, as far as a value can be [number, string, string] (section 7 of RFC 8259) -----

  predicate Blank(c: nat) {
    c in {0x20, 0x09, 0x0A, 0x0D}
  }

  function SkipBlanks(t: Text): (r: Text)
    ensures |r| <= |t|
  {
    if t != [] && Blank(t[0]) then SkipBlanks(t[1..]) else t
  }

  function Expect(t: Text, c: nat): (r: Option<Text>)
    ensures r.Some? ==> |r.value| < |t|
  {
    var u := SkipBlanks(t);
    if u != [] && u[0] == c then Some(u[1..]) else None
  }

  predicate Digit(c: nat) {
    0x30 <= c <= 0x39
  }

  // A run of digits: its value, its length and what follows.
  function Digits(t: Text, value: nat, count: nat): (nat, nat, Text)
    decreases |t|
  {
    if t != [] && Digit(t[0]) then Digits(t[1..], 10 * value + (t[0] - 0x30), count + 1) else (value, count, t)
  }

  function Pow10(e: nat): (p: real)
    ensures p > 0.0
  {
    if e == 0 then 1.0 else 10.0 * Pow10(e - 1)
  }

  // int frac? exp? of a number without its sign.
  function Magnitude(t: Text): Option<(real, Text)> {
    var (whole, n, t1) := Digits(t, 0, 0);
    if n == 0 || (n > 1 && t[0] == 0x30) then None
    else
      var fraction := t1 != [] && t1[0] == 0x2E;
      var (part, k, t2) := if fraction then Digits(t1[1..], 0, 0) else (0, 0, t1);
      if fraction && k == 0 then None
      else
        var mantissa := whole as real + part as real / Pow10(k);
        if t2 != [] && t2[0] in {0x65, 0x45} then
          var t3 := t2[1..];
          var negative := t3 != [] && t3[0] == 0x2D;
          var (e, m, t4) := Digits(if t3 != [] && t3[0] in {0x2B, 0x2D} then t3[1..] else t3, 0, 0);
          if m == 0 then None
          else Some((if negative then mantissa / Pow10(e) else mantissa * Pow10(e), t4))
        else Some((mantissa, t2))
  }

  function ParseNumber(t: Text): Option<(real, Text)> {
    var u := SkipBlanks(t);
    if u != [] && u[0] == 0x2D then
      var (v, rest) :- Magnitude(u[1..]);
      Some((-v, rest))
    else Magnitude(u)
  }

  // Whether the nearest double, ties to even, is 1.
  predicate RoundsToOne(v: real) {
    1.0 - 1.0 / 18014398509481984.0 <= v <= 1.0 + 1.0 / 9007199254740992.0
  }

  function Distance(a: real, b: real): real {
    if a < b then b - a else a - b
  }

  /** That is: no other double is nearer to it than 1. The doubles next to 1 are 1 - 2^-53 and 1 + 2^-52,
      and both have an odd mantissa, so that a tie goes to 1. */
  lemma NearestIsOne(v: real)
    ensures RoundsToOne(v) <==>
            && Distance(v, 1.0) <= Distance(v, 1.0 - 1.0 / 9007199254740992.0)
            && Distance(v, 1.0) <= Distance(v, 1.0 + 1.0 / 4503599627370496.0)
  {
  }

  function Hex(c: nat): Option<nat> {
    if Digit(c) then Some(c - 0x30)
    else if 0x61 <= c <= 0x66 then Some(c - 0x61 + 10)
    else if 0x41 <= c <= 0x46 then Some(c - 0x41 + 10)
    else None
  }

  // The four digits of \uXXXX.
  function Unit(t: Text): (r: Option<nat>)
    ensures r.Some? ==> |t| >= 4
  {
    if |t| < 4 then None
    else
      var a :- Hex(t[0]);
      var b :- Hex(t[1]);
      var c :- Hex(t[2]);
      var d :- Hex(t[3]);
      Some(a * 4096 + b * 256 + c * 16 + d)
  }

  function ShortEscape(c: nat): Option<nat> {
    if c in {QUOTE, BACKSLASH, 0x2F} then Some(c)
    else if c == 0x62 then Some(8) else if c == 0x66 then Some(12) else if c == 0x6E then Some(10)
    else if c == 0x72 then Some(13) else if c == 0x74 then Some(9) else None
  }

  function Prepend(c: nat, r: Option<(Text, Text)>): Option<(Text, Text)> {
    match r case None => None case Some((s, rest)) => Some(([c] + s, rest))
  }

  // The characters of a string up to its closing quote. Two escaped surrogates that make a pair are
  // one code point.
  function Chars(t: Text): Option<(Text, Text)>
    decreases |t|
  {
    if t == [] || t[0] < 0x20 then None
    else if t[0] == QUOTE then Some(([], t[1..]))
    else if t[0] != BACKSLASH then
      Prepend(t[0], Chars(t[1..]))
    else if |t| < 2 then None
    else if t[1] == 0x75 then
      var u :- Unit(t[2..]);
      var after := t[6..];
      if 0xD800 <= u < 0xDC00 && |after| >= 6 && after[0] == BACKSLASH && after[1] == 0x75
         && Unit(after[2..]).Some? && 0xDC00 <= Unit(after[2..]).value < 0xE000 then
        Prepend(0x10000 + (u - 0xD800) * 1024 + (Unit(after[2..]).value - 0xDC00), Chars(after[6..]))
      else
        Prepend(u, Chars(after))
    else
      var c :- ShortEscape(t[1]);
      Prepend(c, Chars(t[2..]))
  }

  function ParseString(t: Text): Option<(Text, Text)> {
    var u :- Expect(t, QUOTE);
    Chars(u)
  }

  // Some for exactly the JSON texts of a number and two strings in an array.
  function Parse(t: Text): Option<(real, Text, Text)> {
    var t1 :- Expect(t, 0x5B);
    var (v, t2) :- ParseNumber(t1);
    var t3 :- Expect(t2, 0x2C);
    var (scope, t4) :- ParseString(t3);
    var t5 :- Expect(t4, 0x2C);
    var (position, t6) :- ParseString(t5);
    var t7 :- Expect(t6, 0x5D);
    if SkipBlanks(t7) == [] then Some((v, scope, position)) else None
  }

  // ----- the codec -----

  function EncodeCursor(scope: Text, position: Text): Option<string> {
    if ValidPart(scope, MAX_SCOPE) && ValidPart(position, MAX_POSITION) then
      PrintScalars(scope, position);
      Some(B.Encode(Encode(Print(scope, position))))
    else None
  }

  function DecodeCursor(wire: string, scope: Text): Option<Text> {
    if wire == "" || |wire| > MAX_WIRE || !B.InAlphabet(wire) || !ValidPart(scope, MAX_SCOPE) then None
    else
      var bytes := B.Decode(wire);
      if B.Encode(bytes) != wire then None
      else
        var text :- DecodeText(bytes);
        var (v, s, position) :- Parse(text);
        if RoundsToOne(v) && s == scope && ValidPart(position, MAX_POSITION) then Some(position) else None
  }

  // A part of a cursor: characters that show, in so many bytes.
  predicate Part(t: Text, max: nat) {
    && Scalars(t) && 1 <= |Encode(t)| <= max
    && (forall c | c in t :: 32 <= c < 127 || 127 < c)
  }

  lemma PartsAre(t: Text, max: nat)
    ensures ValidPart(t, max) <==> Part(t, max)
  {
    if Scalars(t) && t != [] { assert |Encode(t)| == |EncodeScalar(t[0])| + |Encode(t[1..])|; }
    if Part(t, max) {
      forall i | 0 <= i < |t| ensures t[i] >= 32 && t[i] != 127 { assert t[i] in t; }
    }
  }

  /** A scope of 128 bytes and a position of 256 are the most that can be encoded, and control characters are
      what cannot. */
  lemma EncodesWhen(scope: Text, position: Text)
    ensures EncodeCursor(scope, position).Some? <==> Part(scope, 128) && Part(position, 256)
  {
    hide ValidPart, Part, Print, Encode;
    PartsAre(scope, 128);
    PartsAre(position, 256);
  }

  lemma {:induction false} EscapeScalars(t: Text)
    requires Scalars(t)
    ensures Scalars(Escape(t))
  {
    if t == [] {
    } else {
      EscapeScalars(t[1..]);
    }
  }

  lemma PrintScalars(scope: Text, position: Text)
    requires Scalars(scope) && Scalars(position)
    ensures Scalars(Print(scope, position))
  {
    EscapeScalars(scope);
    EscapeScalars(position);
  }

  // ----- printing and parsing -----

  predicate Printable(t: Text) {
    forall i | 0 <= i < |t| :: t[i] >= 32
  }

  lemma CharsEnd(rest: Text)
    ensures Chars([QUOTE] + rest) == Some(([], rest))
  {
    assert ([QUOTE] + rest)[1..] == rest;
  }

  lemma CharsPlain(c: nat, tail: Text)
    requires c >= 32 && c != QUOTE && c != BACKSLASH
    ensures Chars([c] + tail) == Prepend(c, Chars(tail))
  {
    assert ([c] + tail)[1..] == tail;
  }

  lemma CharsEscaped(c: nat, tail: Text)
    requires c == QUOTE || c == BACKSLASH
    ensures Chars([BACKSLASH, c] + tail) == Prepend(c, Chars(tail))
  {
    assert ([BACKSLASH, c] + tail)[2..] == tail;
  }

  lemma {:induction false} CharsOfEscape(t: Text, rest: Text)
    requires Printable(t)
    ensures Chars(Escape(t) + [QUOTE] + rest) == Some((t, rest))
  {
    hide Chars;
    if t == [] {
      CharsEnd(rest);
      assert Escape(t) + [QUOTE] + rest == [QUOTE] + rest;
    } else {
      var tail := Escape(t[1..]) + [QUOTE] + rest;
      CharsOfEscape(t[1..], rest);
      if t[0] == QUOTE || t[0] == BACKSLASH {
        CharsEscaped(t[0], tail);
        assert Escape(t) + [QUOTE] + rest == [BACKSLASH, t[0]] + tail;
      } else {
        CharsPlain(t[0], tail);
        assert Escape(t) + [QUOTE] + rest == [t[0]] + tail;
      }
      assert [t[0]] + t[1..] == t;
    }
  }

  lemma StringOfQuote(t: Text, rest: Text)
    requires Printable(t)
    ensures ParseString(Quote(t) + rest) == Some((t, rest))
  {
    CharsOfEscape(t, rest);
    var u := Quote(t) + rest;
    assert u[0] == QUOTE && u[1..] == Escape(t) + [QUOTE] + rest;
  }

  lemma NumberOne(rest: Text)
    ensures ParseNumber([0x31, 0x2C] + rest) == Some((1.0, [0x2C] + rest))
  {
    var t := [0x31, 0x2C] + rest;
    assert t[1..] == [0x2C] + rest;
    assert Digits(t[1..], 1, 1) == (1, 1, t[1..]);
    assert Digits(t, 0, 0) == (1, 1, t[1..]);
  }

  lemma ExpectHead(c: nat, rest: Text)
    requires !Blank(c)
    ensures Expect([c] + rest, c) == Some(rest)
  {
    assert ([c] + rest)[1..] == rest;
  }

  /** JSON parsing reads back what was printed. */
  lemma ParsePrinted(scope: Text, position: Text)
    requires Printable(scope) && Printable(position)
    ensures Parse(Print(scope, position)) == Some((1.0, scope, position))
  {
    var end := [0x5D] + [];
    var t5 := Quote(position) + end;
    var t4 := [0x2C] + t5;
    var t3 := Quote(scope) + t4;
    var t2 := [0x2C] + t3;
    var t1 := [0x31, 0x2C] + t3;
    assert Print(scope, position) == [0x5B] + t1;
    hide Quote, ParseString, ParseNumber, Expect, Printable, Print;
    ExpectHead(0x5B, t1);
    NumberOne(t3);
    ExpectHead(0x2C, t3);
    StringOfQuote(scope, t4);
    ExpectHead(0x2C, t5);
    StringOfQuote(position, end);
    ExpectHead(0x5D, []);
  }

  // ----- the bound -----

  function Escapes(t: Text): nat {
    if t == [] then 0 else (if t[0] == QUOTE || t[0] == BACKSLASH then 1 else 0) + Escapes(t[1..])
  }

  lemma {:induction false} EscapeLength(t: Text)
    requires Scalars(t)
    ensures Scalars(Escape(t)) && |Encode(Escape(t))| == |Encode(t)| + Escapes(t)
  {
    EscapeScalars(t);
    if t == [] {
    } else {
      EscapeLength(t[1..]);
      var head := if t[0] == QUOTE || t[0] == BACKSLASH then [BACKSLASH, t[0]] else [t[0]];
      assert Scalars(head) && Escape(t) == head + Escape(t[1..]);
      EncodeConcat(head, Escape(t[1..]));
      assert head[1..] == [] || head[1..][1..] == [];
      assert |Encode(head)| == |EncodeScalar(t[0])| + if |head| == 2 then 1 else 0;
    }
  }

  lemma AsciiBytes(t: Text)
    requires |t| == 1 && t[0] < 0x80
    ensures Scalars(t) && |Encode(t)| == 1
  {
    assert t[1..] == [];
  }

  lemma QuoteLength(t: Text)
    requires Scalars(t)
    ensures Scalars(Quote(t)) && |Encode(Quote(t))| == |Encode(t)| + Escapes(t) + 2
  {
    EscapeLength(t);
    AsciiBytes([QUOTE]);
    EncodeConcat([QUOTE], Escape(t));
    EncodeConcat([QUOTE] + Escape(t), [QUOTE]);
  }

  // Nine bytes of punctuation, the parts, and one more byte for every quote and backslash in them.
  lemma PrintLength(scope: Text, position: Text)
    requires Scalars(scope) && Scalars(position)
    ensures Scalars(Print(scope, position))
    ensures |Encode(Print(scope, position))|
            == 9 + |Encode(scope)| + Escapes(scope) + |Encode(position)| + Escapes(position)
  {
    hide Quote, Escape, Escapes, EncodeScalar;
    QuoteLength(scope);
    QuoteLength(position);
    AsciiBytes([0x2C]);
    AsciiBytes([0x5D]);
    var open := [0x5B, 0x31, 0x2C];
    assert open == [0x5B] + [0x31] + [0x2C];
    AsciiBytes([0x5B]);
    AsciiBytes([0x31]);
    EncodeConcat([0x5B], [0x31]);
    EncodeConcat([0x5B] + [0x31], [0x2C]);
    hide Encode;
    EncodeConcat(open, Quote(scope));
    EncodeConcat(open + Quote(scope), [0x2C]);
    EncodeConcat(open + Quote(scope) + [0x2C], Quote(position));
    EncodeConcat(open + Quote(scope) + [0x2C] + Quote(position), [0x5D]);
  }

  // What the wire limit leaves for the parts, escapes counted.
  predicate Fits(scope: Text, position: Text) {
    && ValidPart(scope, 128) && ValidPart(position, 256)
    && |Encode(scope)| + Escapes(scope) + |Encode(position)| + Escapes(position) <= 759
  }

  lemma PrintDecodes(scope: Text, position: Text)
    requires Scalars(scope) && Scalars(position)
    ensures Scalars(Print(scope, position))
    ensures DecodeText(Encode(Print(scope, position))) == Some(Print(scope, position))
  {
    var text := Print(scope, position);
    PrintScalars(scope, position);
    RoundTrip(text);
    var bytes := Encode(text);
    assert text[0] == 0x5B;
    assert EncodeScalar(0x5B) == [0x5B] && bytes[0] == 0x5B;
    hide Print, Encode, Decode, Scalars;
    assert DecodeText(bytes) == Some(text);
  }

  /** A cursor decodes to the position it was made for exactly when its JSON text has at most 768
      bytes, which the part limits alone do not ensure; and every other expected scope refuses it. */
  lemma CursorRoundTrip(scope: Text, position: Text, expected: Text)
    requires EncodeCursor(scope, position).Some?
    ensures DecodeCursor(EncodeCursor(scope, position).value, expected)
            == if expected == scope && Fits(scope, position) then Some(position) else None
  {
    PrintLength(scope, position);
    PrintDecodes(scope, position);
    ParsePrinted(scope, position);
    var bytes := Encode(Print(scope, position));
    B.RoundTrip(bytes);
    hide Print, Parse, Encode, Decode, DecodeText, B.Encode, B.Decode, Escapes, B.InAlphabet, Scalars;
    assert |B.Encode(bytes)| == (4 * |bytes| + 2) / 3;
  }

  /** The part limits alone promise nothing: parts of quotes only, each as long as its limit allows,
      make a 777-byte text and a cursor that no decoder accepts. */
  lemma LongestCursorIsRefused()
    ensures var scope: Text, position: Text := seq(128, _ => QUOTE), seq(256, _ => QUOTE);
            && EncodeCursor(scope, position).Some?
            && Scalars(Print(scope, position)) && |Encode(Print(scope, position))| == 777
            && DecodeCursor(EncodeCursor(scope, position).value, scope) == None
  {
    var scope: Text, position: Text := seq(128, _ => QUOTE), seq(256, _ => QUOTE);
    Quotes(scope);
    Quotes(position);
    PrintLength(scope, position);
    CursorRoundTrip(scope, position, scope);
  }

  lemma {:induction false} Quotes(t: Text)
    requires forall i | 0 <= i < |t| :: t[i] == QUOTE
    ensures Scalars(t) && |Encode(t)| == |t| && Escapes(t) == |t|
  {
    if t == [] {
    } else {
      Quotes(t[1..]);
    }
  }

  // Bytes whose text is a version-1 cursor of this scope and position.
  predicate Means(bytes: seq<B.Byte>, scope: Text, position: Text) {
    match DecodeText(bytes)
    case None => false
    case Some(text) =>
      match Parse(text)
      case None => false
      case Some((v, s, p)) => RoundsToOne(v) && s == scope && p == position
  }

  /** A wire is accepted exactly when it is the base64url spelling, within the limit, of bytes that mean
      a valid scope and position; those bytes, and so the spelling, are then unique. */
  lemma AcceptedWires(wire: string, scope: Text, position: Text)
    ensures DecodeCursor(wire, scope) == Some(position) <==>
            && ValidPart(scope, 128) && ValidPart(position, 256) && 1 <= |wire| <= 1024
            && exists bytes: seq<B.Byte> :: B.Encode(bytes) == wire && Means(bytes, scope, position)
    ensures forall b: seq<B.Byte>, b': seq<B.Byte> :: B.Encode(b) == wire == B.Encode(b') ==> b == b'
  {
    hide Parse, DecodeText, ValidPart, RoundsToOne;
    forall b: seq<B.Byte> | B.Encode(b) == wire
      ensures B.InAlphabet(wire) && B.Decode(wire) == b
    {
      B.RoundTrip(b);
    }
    if DecodeCursor(wire, scope) == Some(position) {
      assert B.Encode(B.Decode(wire)) == wire && Means(B.Decode(wire), scope, position);
    }
  }

  // ----- pages -----

  datatype Page<+T> = Page(items: seq<T>, hasMore: bool, nextCursor: Option<string>)

  function Window<T>(rows: seq<T>, limit: int, scope: Text, position: T -> Text): Option<Page<T>> {
    if limit < 1 || limit > 100 || |rows| > limit + 1 then None
    else if |rows| <= limit then Some(Page(rows, false, None))
    else
      var next :- EncodeCursor(scope, position(rows[limit - 1]));
      Some(Page(rows[..limit], true, Some(next)))
  }

  // A list ordered strictly by position, under whatever order the query uses.
  ghost predicate Ordered<T>(list: seq<T>, position: T -> Text, less: (Text, Text) -> bool) {
    && (forall i, j | 0 <= i < j < |list| :: less(position(list[i]), position(list[j])))
    && (forall i, j | 0 <= i <= j < |list| :: !less(position(list[j]), position(list[i])))
  }

  // The query: the rows after a position, in order.
  function RowsAfter<T>(list: seq<T>, position: T -> Text, less: (Text, Text) -> bool, after: Text): seq<T> {
    if list == [] then []
    else (if less(after, position(list[0])) then [list[0]] else []) + RowsAfter(list[1..], position, less, after)
  }

  lemma {:induction false} RowsAfterNone<T>(list: seq<T>, position: T -> Text, less: (Text, Text) -> bool, after: Text)
    requires forall i | 0 <= i < |list| :: less(after, position(list[i]))
    ensures RowsAfter(list, position, less, after) == list
  {
    if list == [] {
    } else {
      RowsAfterNone(list[1..], position, less, after);
    }
  }

  // After a row of the list come exactly the rows behind it.
  lemma {:induction false} RowsAfterRow<T>(list: seq<T>, position: T -> Text, less: (Text, Text) -> bool, i: nat)
    requires Ordered(list, position, less) && i < |list|
    ensures RowsAfter(list, position, less, position(list[i])) == list[i + 1..]
  {
    assert !less(position(list[i]), position(list[0]));
    var rest := list[1..];
    if i == 0 {
      assert forall k | 0 <= k < |rest| :: rest[k] == list[k + 1];
      RowsAfterNone(rest, position, less, position(list[0]));
    } else {
      RowsAfterRow(rest, position, less, i - 1);
      assert rest[i - 1..][1..] == list[i + 1..];
    }
  }

  function Flat<T>(pages: seq<Page<T>>): seq<T> {
    if pages == [] then [] else Flat(pages[..|pages| - 1]) + pages[|pages| - 1].items
  }

  // From row `at` on, the last row of each full page that another page follows fits a cursor.
  predicate BoundariesFit<T>(list: seq<T>, limit: nat, scope: Text, position: T -> Text, at: nat)
    requires limit > 0
    decreases |list| - at
  {
    at + limit < |list| ==>
      Fits(scope, position(list[at + limit - 1])) && BoundariesFit(list, limit, scope, position, at + limit)
  }

  function PageCount(n: nat, limit: nat): (k: nat)
    requires limit > 0
  {
    if n <= limit then 1 else 1 + PageCount(n - limit, limit)
  }

  lemma MulAtLeast(a: nat, b: nat, d: nat)
    requires a < b
    ensures a * d + d <= b * d
  {
    assert b * d == a * d + d + (b - a - 1) * d;
  }

  lemma Quotient(x: nat, d: nat, q: nat)
    requires d > 0 && q * d <= x < q * d + d
    ensures x / d == q
  {
    var p := x / d;
    assert p * d + x % d == x && 0 <= x % d < d;
    if p < q { MulAtLeast(p, q, d); }
    if q < p { MulAtLeast(q, p, d); }
  }

  // The number of pages is the length over the limit, rounded up, and at least one.
  lemma {:induction false} PageCountIsCeiling(n: nat, limit: nat)
    requires limit > 0
    ensures PageCount(n, limit) == if n == 0 then 1 else (n + limit - 1) / limit
  {
    if n == 0 {
    } else {
      PageCountBounds(n, limit);
      var k := PageCount(n, limit);
      assert (k - 1) * limit == k * limit - limit;
      Quotient(n + limit - 1, limit, k);
    }
  }

  lemma {:induction false} PageCountBounds(n: nat, limit: nat)
    requires limit > 0 && n > 0
    ensures PageCount(n, limit) >= 1
    ensures PageCount(n, limit) * limit >= n && PageCount(n, limit) * limit - limit < n
  {
    if n > limit {
      PageCountBounds(n - limit, limit);
      var k := PageCount(n - limit, limit);
      assert (k + 1) * limit == k * limit + limit;
    }
  }

  // The client's next read: at most one row more than the limit, after the cursor if there is one.
  method Read<T>(list: seq<T>, limit: nat, scope: Text, position: T -> Text, less: (Text, Text) -> bool,
                 cursor: Option<string>, ghost done: nat)
    returns (rows: seq<T>, ok: bool)
    requires Ordered(list, position, less) && done <= |list|
    requires if done == 0 then cursor == None
             else cursor.Some? && EncodeCursor(scope, position(list[done - 1])) == cursor
    ensures ok <==> (done > 0 ==> Fits(scope, position(list[done - 1])))
    ensures ok ==> rows == if |list| - done <= limit then list[done..] else list[done..done + limit + 1]
  {
    hide DecodeCursor, EncodeCursor, Fits, RowsAfter, Ordered;
    rows, ok := list, true;
    if cursor.Some? {
      CursorRoundTrip(scope, position(list[done - 1]), scope);
      var after := DecodeCursor(cursor.value, scope);
      if after.None? { return [], false; }
      RowsAfterRow(list, position, less, done - 1);
      rows := RowsAfter(list, position, less, after.value);
    }
    if |rows| > limit + 1 { rows := rows[..limit + 1]; }
  }

  // The pages hold the list up to here.
  ghost predicate Holds<T>(pages: seq<Page<T>>, limit: nat, list: seq<T>, done: nat) {
    done <= |list| && Flat(pages) == list[..done] && forall p | p in pages :: |p.items| <= limit
  }

  lemma HoldsNone<T>(limit: nat, list: seq<T>)
    ensures Holds([], limit, list, 0)
  {
  }

  lemma HoldsMore<T>(pages: seq<Page<T>>, limit: nat, list: seq<T>, done: nat, next: nat, page: Page<T>)
    requires Holds(pages, limit, list, done) && done <= next <= |list| && next - done <= limit
    requires page.items == list[done..next]
    ensures Holds(pages + [page], limit, list, next)
  {
    assert (pages + [page])[..|pages|] == pages;
    assert list[..done] + list[done..next] == list[..next];
  }

  // What `Window` makes of the next read, and what that says about the boundaries still ahead.
  lemma NextPage<T>(list: seq<T>, limit: nat, scope: Text, position: T -> Text, done: nat, rows: seq<T>)
    requires 1 <= limit <= 100 && done <= |list|
    requires rows == if |list| - done <= limit then list[done..] else list[done..done + limit + 1]
    ensures |list| - done <= limit ==>
              && Window(rows, limit, scope, position) == Some(Page(list[done..], false, None))
              && BoundariesFit(list, limit, scope, position, done)
              && PageCount(|list| - done, limit) == 1
    ensures |list| - done > limit ==>
              var next := EncodeCursor(scope, position(list[done + limit - 1]));
              && Window(rows, limit, scope, position)
                 == (if next == None then None else Some(Page(list[done..done + limit], true, next)))
              && (next == None ==> !BoundariesFit(list, limit, scope, position, done))
              && (BoundariesFit(list, limit, scope, position, done) <==>
                  && Fits(scope, position(list[done + limit - 1]))
                  && BoundariesFit(list, limit, scope, position, done + limit))
              && PageCount(|list| - done, limit) == 1 + PageCount(|list| - done - limit, limit)
  {
    hide ValidPart, Print, Encode, Escapes;
    if |list| - done > limit {
      assert rows[limit - 1] == list[done + limit - 1];
      assert rows[..limit] == list[done..done + limit];
    }
  }

  /** A client that follows cursors from the start: it reaches the end exactly when every page boundary
      fits a cursor, and then the pages are max(1, ceil(n / limit)) in number and make up the list. What
      it has read so far is always a prefix of the list. */
  method Walk<T>(list: seq<T>, limit: nat, scope: Text, position: T -> Text, less: (Text, Text) -> bool)
    returns (pages: seq<Page<T>>, complete: bool)
    requires 1 <= limit <= 100 && Ordered(list, position, less)
    ensures complete <==> BoundariesFit(list, limit, scope, position, 0)
    ensures complete ==> Holds(pages, limit, list, |list|)
    ensures complete ==> |pages| == if list == [] then 1 else (|list| + limit - 1) / limit
    ensures exists n :: Holds(pages, limit, list, n)
  {
    hide *;
    pages := [];
    HoldsNone(limit, list);
    var cursor: Option<string> := None;
    ghost var done: nat := 0;
    PageCountIsCeiling(|list|, limit);
    while true
      invariant done <= |list| && (done == |list| ==> done == 0)
      invariant Holds(pages, limit, list, done)
      invariant |pages| + PageCount(|list| - done, limit) == PageCount(|list|, limit)
      invariant BoundariesFit(list, limit, scope, position, 0) <==>
                && (done > 0 ==> Fits(scope, position(list[done - 1])))
                && BoundariesFit(list, limit, scope, position, done)
      invariant if done == 0 then cursor == None
                else cursor.Some? && EncodeCursor(scope, position(list[done - 1])) == cursor
      decreases |list| - done
    {
      var rows, ok := Read(list, limit, scope, position, less, cursor, done);
      if !ok { return pages, false; }
      NextPage(list, limit, scope, position, done, rows);
      var page := Window(rows, limit, scope, position);
      if page.None? { return pages, false; }
      HoldsMore(pages, limit, list, done, done + |page.value.items|, page.value);
      pages := pages + [page.value];
      if !page.value.hasMore { return pages, true; }
      cursor := page.value.nextCursor;
      done := done + limit;
    }
  }
}
