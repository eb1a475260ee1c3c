/** The text that JSON.stringify prints, code point by code point (JSON.stringify in
    src/shared/events/index.ts), and its length in UTF-8. */
module Printing {
  import opened Wrappers
  import opened Json
  import opened Utf8

  const QUOTE := 0x22
  const BACKSLASH := 0x5C

  function Ascii(s: string): (t: Text)
    ensures |t| == |s| && forall i | 0 <= i < |s| :: t[i] == s[i] as nat
  {
    seq(|s|, i requires 0 <= i < |s| => s[i] as nat)
  }

  // The lower-case digit of a value below sixteen.
  function HexDigit(v: nat): nat {
    if v < 10 then '0' as nat + v else 'a' as nat + v - 10
  }

  // Section 25.5.2.3 of ECMA-262: quotes, backslashes and control characters are escaped.
  function PrintChar(c: char): Text {
    var n := c as nat;
    if n == QUOTE || n == BACKSLASH then [BACKSLASH, n]
    else if n == 8 then [BACKSLASH, 'b' as nat]
    else if n == 9 then [BACKSLASH, 't' as nat]
    else if n == 10 then [BACKSLASH, 'n' as nat]
    else if n == 12 then [BACKSLASH, 'f' as nat]
    else if n == 13 then [BACKSLASH, 'r' as nat]
    else if n < 32 then [BACKSLASH, 'u' as nat, '0' as nat, '0' as nat, HexDigit(n / 16), HexDigit(n % 16)]
    else [n]
  }

  function PrintChars(s: string): Text {
    if s == "" then [] else PrintChar(s[0]) + PrintChars(s[1..])
  }

  function PrintString(s: string): Text {
    [QUOTE] + PrintChars(s) + [QUOTE]
  }

  function Decimal(n: nat): Text {
    (if n < 10 then [] else Decimal(n / 10)) + ['0' as nat + n % 10]
  }

  function PrintNumber(x: Number): Text {
    match x
    case Whole(n) => if n < 0 then Ascii("-") + Decimal(-n) else Decimal(n)
    case NegativeZero => Ascii("0")
    case Infinite => Ascii("null")
    case Other(text) => Ascii(text)
  }

  function Print(j: Json): Text {
    match j
    case Null => Ascii("null")
    case Bool(b) => if b then Ascii("true") else Ascii("false")
    case Num(x) => PrintNumber(x)
    case Str(s) => PrintString(s)
    case Arr(items) => Ascii("[") + PrintItems(items) + Ascii("]")
    case Obj(fields) => Ascii("{") + PrintFields(fields) + Ascii("}")
  }

  // Commas go between two items.
  function Separator(more: nat): Text {
    if more > 0 then Ascii(",") else []
  }

  function PrintItems(items: seq<Json>): Text {
    if items == [] then [] else Print(items[0]) + Separator(|items| - 1) + PrintItems(items[1..])
  }

  function PrintField(f: Member): Text {
    PrintString(f.key) + Ascii(":") + Print(f.value)
  }

  function PrintFields(fields: seq<Member>): Text {
    if fields == [] then [] else PrintField(fields[0]) + Separator(|fields| - 1) + PrintFields(fields[1..])
  }

  /** What is parsed from a printed value prints the same text again. */
  lemma {:induction false} PrintOfWire(j: Json)
    ensures Print(Wire(j)) == Print(j)
  {
    match j {
      case Arr(items) => PrintOfWireItems(items);
      case Obj(fields) => PrintOfWireFields(fields);
      case Num(_) => assert Decimal(0) == Ascii("0");
      case _ =>
    }
  }

  lemma {:induction false} PrintOfWireItems(items: seq<Json>)
    ensures PrintItems(WireItems(items)) == PrintItems(items)
  {
    if items == [] {
    } else {
      PrintOfWire(items[0]);
      PrintOfWireItems(items[1..]);
      hide Print, Wire, Separator;
      assert WireItems(items)[1..] == WireItems(items[1..]);
    }
  }

  lemma {:induction false} PrintOfWireFields(fields: seq<Member>)
    ensures PrintFields(WireFields(fields)) == PrintFields(fields)
  {
    if fields == [] {
    } else {
      PrintOfWire(fields[0].value);
      PrintOfWireFields(fields[1..]);
      hide Print, Wire, Separator;
      assert WireFields(fields)[1..] == WireFields(fields[1..]);
    }
  }

  // ----- how many bytes that is -----

  // A text of scalars and its length in UTF-8.
  predicate Takes(t: Text, bytes: nat) {
    Scalars(t) && |Encode(t)| == bytes
  }

  lemma TakesBoth(a: Text, m: nat, b: Text, n: nat)
    requires Takes(a, m) && Takes(b, n)
    ensures Takes(a + b, m + n)
  {
    EncodeConcat(a, b);
  }

  lemma {:induction false} AsciiTakes(t: Text)
    requires forall i | 0 <= i < |t| :: t[i] < 0x80
    ensures Takes(t, |t|)
  {
    if t == [] {
    } else {
      AsciiTakes(t[1..]);
    }
  }

  lemma OneTakes(n: nat)
    requires Scalar(n)
    ensures Takes([n], |EncodeScalar(n)|)
  {
    assert [n][1..] == [];
    hide EncodeScalar;
    assert Encode([n]) == EncodeScalar(n) + Encode([n][1..]);
  }

  lemma CharTakes(c: char)
    ensures Takes(PrintChar(c), CharLength(c))
  {
    var n := c as nat;
    if n < 0x80 {
      AsciiTakes(PrintChar(c));
    } else {
      OneTakes(n);
    }
  }

  lemma {:induction false} CharsTake(s: string)
    ensures Takes(PrintChars(s), CharsLength(s))
  {
    hide PrintChar, CharLength;
    if s == "" {
    } else {
      CharTakes(s[0]);
      CharsTake(s[1..]);
      hide Takes;
      TakesBoth(PrintChar(s[0]), CharLength(s[0]), PrintChars(s[1..]), CharsLength(s[1..]));
    }
  }

  lemma StringTakes(s: string)
    ensures Takes(PrintString(s), 2 + CharsLength(s))
  {
    CharsTake(s);
    AsciiTakes([QUOTE]);
    hide Takes, PrintChars, CharsLength;
    TakesBoth([QUOTE], 1, PrintChars(s), CharsLength(s));
    TakesBoth([QUOTE] + PrintChars(s), 1 + CharsLength(s), [QUOTE], 1);
  }

  lemma {:induction false} DecimalTakes(n: nat)
    ensures Takes(Decimal(n), Digits(n))
  {
    AsciiTakes(['0' as nat + n % 10]);
    if n < 10 {
      assert [] + ['0' as nat + n % 10] == ['0' as nat + n % 10];
    } else {
      DecimalTakes(n / 10);
      hide Takes;
      TakesBoth(Decimal(n / 10), Digits(n / 10), ['0' as nat + n % 10], 1);
    }
  }

  // Numbers are printed in ASCII.
  predicate PlainNumber(x: Number) {
    x.Other? ==> forall i | 0 <= i < |x.text| :: x.text[i] as nat < 0x80
  }

  predicate PlainNumbers(j: Json) {
    match j
    case Num(x) => PlainNumber(x)
    case Arr(items) => forall i | 0 <= i < |items| :: PlainNumbers(items[i])
    case Obj(fields) => forall i | 0 <= i < |fields| :: PlainNumbers(fields[i].value)
    case _ => true
  }

  lemma NumberTakes(x: Number)
    requires PlainNumber(x)
    ensures Takes(PrintNumber(x), NumberLength(x))
  {
    match x {
      case Whole(n) =>
        DecimalTakes(if n < 0 then -n else n);
        AsciiTakes(Ascii("-"));
        hide Takes, Decimal, Digits;
        if n < 0 { TakesBoth(Ascii("-"), 1, Decimal(-n), Digits(-n)); }
      case _ => AsciiTakes(PrintNumber(x));
    }
  }

  lemma WordTakes(j: Json)
    requires j.Null? || j.Bool?
    ensures Takes(Print(j), Length(j))
  {
    AsciiTakes(Ascii("null"));
    AsciiTakes(Ascii("true"));
    AsciiTakes(Ascii("false"));
  }

  lemma Enclosed(open: string, close: string, t: Text, bytes: nat)
    requires |open| == |close| == 1 && open[0] as nat < 0x80 && close[0] as nat < 0x80 && Takes(t, bytes)
    ensures Takes(Ascii(open) + t + Ascii(close), 2 + bytes)
  {
    AsciiTakes(Ascii(open));
    AsciiTakes(Ascii(close));
    hide Takes;
    TakesBoth(Ascii(open), 1, t, bytes);
    TakesBoth(Ascii(open) + t, 1 + bytes, Ascii(close), 1);
  }

  lemma SeparatorTakes(more: nat)
    ensures Takes(Separator(more), if more > 0 then 1 else 0)
  {
    AsciiTakes(Separator(more));
  }

  /** The length that a value is held to is the number of UTF-8 bytes of the text that is printed for it. */
  lemma {:induction false} LengthIsPrinted(j: Json)
    requires PlainNumbers(j)
    ensures Takes(Print(j), Length(j))
  {
    hide Takes, PrintString, CharsLength, PrintNumber, NumberLength, PrintItems, PrintFields, ItemsLength, FieldsLength;
    match j {
      case Num(x) => NumberTakes(x);
      case Str(s) => StringTakes(s);
      case Arr(items) =>
        ItemsTake(items);
        Enclosed("[", "]", PrintItems(items), Commas(|items|) + ItemsLength(items));
      case Obj(fields) =>
        FieldsTake(fields);
        Enclosed("{", "}", PrintFields(fields), Commas(|fields|) + FieldsLength(fields));
      case _ => WordTakes(j);
    }
  }

  lemma {:induction false} ItemsTake(items: seq<Json>)
    requires forall i | 0 <= i < |items| :: PlainNumbers(items[i])
    ensures Takes(PrintItems(items), Commas(|items|) + ItemsLength(items))
  {
    hide Print, Length, PlainNumbers;
    if items == [] {
      AsciiTakes([]);
    } else {
      var n := |items| - 1;
      LengthIsPrinted(items[0]);
      ItemsTake(items[1..]);
      SeparatorTakes(n);
      hide Takes;
      TakesBoth(Print(items[0]), Length(items[0]), Separator(n), if n > 0 then 1 else 0);
      TakesBoth(Print(items[0]) + Separator(n), Length(items[0]) + (if n > 0 then 1 else 0),
                PrintItems(items[1..]), Commas(n) + ItemsLength(items[1..]));
    }
  }

  lemma {:induction false} FieldTakes(f: Member)
    requires PlainNumbers(f.value)
    ensures Takes(PrintField(f), 3 + CharsLength(f.key) + Length(f.value))
    decreases f
  {
    hide Print, Length, PrintString, CharsLength, PlainNumbers;
    StringTakes(f.key);
    AsciiTakes(Ascii(":"));
    LengthIsPrinted(f.value);
    hide Takes;
    TakesBoth(PrintString(f.key), 2 + CharsLength(f.key), Ascii(":"), 1);
    TakesBoth(PrintString(f.key) + Ascii(":"), 3 + CharsLength(f.key), Print(f.value), Length(f.value));
  }

  lemma {:induction false} FieldsTake(fields: seq<Member>)
    requires forall i | 0 <= i < |fields| :: PlainNumbers(fields[i].value)
    ensures Takes(PrintFields(fields), Commas(|fields|) + FieldsLength(fields))
  {
    hide Print, Length, PrintField, CharsLength, PlainNumbers;
    if fields == [] {
      AsciiTakes([]);
    } else {
      var n := |fields| - 1;
      var first := 3 + CharsLength(fields[0].key) + Length(fields[0].value);
      FieldTakes(fields[0]);
      FieldsTake(fields[1..]);
      SeparatorTakes(n);
      hide Takes;
      TakesBoth(PrintField(fields[0]), first, Separator(n), if n > 0 then 1 else 0);
      TakesBoth(PrintField(fields[0]) + Separator(n), first + (if n > 0 then 1 else 0),
                PrintFields(fields[1..]), Commas(n) + FieldsLength(fields[1..]));
    }
  }
}
