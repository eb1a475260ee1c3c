/** JSON values as JSON.parse builds them, and what JSON.stringify makes of them. */
module Json {
  import opened Wrappers

  // Whole: an integer of magnitude below 1e21. Other: every other finite number, as it is printed.
  // Infinite: what an overflowing literal such as 1e999 parses to.
  datatype Number = Whole(n: int) | NegativeZero | Infinite | Other(text: string)

  datatype Json =
    | Null | Bool(b: bool) | Num(x: Number) | Str(s: string)
    | Arr(items: seq<Json>) | Obj(fields: seq<Member>)

  datatype Member = Member(key: string, value: Json)

  // ----- what survives stringify followed by parse -----

  function Wire(j: Json): Json {
    match j
    case Num(NegativeZero) => Num(Whole(0))
    case Num(Infinite) => Null
    case Arr(items) => Arr(WireItems(items))
    case Obj(fields) => Obj(WireFields(fields))
    case _ => j
  }

  function WireItems(items: seq<Json>): (r: seq<Json>)
    ensures |r| == |items|
  {
    if items == [] then [] else [Wire(items[0])] + WireItems(items[1..])
  }

  function WireFields(fields: seq<Member>): (r: seq<Member>)
    ensures |r| == |fields| && forall i | 0 <= i < |fields| :: r[i].key == fields[i].key
  {
    if fields == [] then [] else [Member(fields[0].key, Wire(fields[0].value))] + WireFields(fields[1..])
  }

  lemma {:induction false} WireTwice(j: Json)
    ensures Wire(Wire(j)) == Wire(j)
  {
    match j {
      case Arr(items) => WireItemsTwice(items);
      case Obj(fields) => WireFieldsTwice(fields);
      case _ =>
    }
  }

  lemma {:induction false} WireItemsTwice(items: seq<Json>)
    ensures WireItems(WireItems(items)) == WireItems(items)
  {
    if items == [] {
    } else {
      WireTwice(items[0]);
      WireItemsTwice(items[1..]);
      assert WireItems(items)[1..] == WireItems(items[1..]);
    }
  }

  lemma {:induction false} WireFieldsTwice(fields: seq<Member>)
    ensures WireFields(WireFields(fields)) == WireFields(fields)
  {
    if fields == [] {
    } else {
      WireTwice(fields[0].value);
      WireFieldsTwice(fields[1..]);
      assert WireFields(fields)[1..] == WireFields(fields[1..]);
    }
  }

  // ----- the UTF-8 length of the text JSON.stringify prints -----

  function CharLength(c: char): nat {
    if c in "\"\\\t\n\r" || c as int in {8, 12} then 2
    else if c as int < 0x20 then 6
    else if c as int < 0x80 then 1
    else if c as int < 0x800 then 2
    else if c as int < 0x10000 then 3
    else 4
  }

  function CharsLength(s: string): nat {
    if s == "" then 0 else CharLength(s[0]) + CharsLength(s[1..])
  }

  function Digits(n: nat): nat {
    if n < 10 then 1 else 1 + Digits(n / 10)
  }

  function NumberLength(x: Number): nat {
    match x
    case Whole(n) => if n < 0 then 1 + Digits(-n) else Digits(n)
    case NegativeZero => 1
    case Infinite => 4
    case Other(text) => |text|
  }

  function Commas(n: nat): nat {
    if n == 0 then 0 else n - 1
  }

  function Length(j: Json): nat {
    match j
    case Null => 4
    case Bool(b) => if b then 4 else 5
    case Num(x) => NumberLength(x)
    case Str(s) => 2 + CharsLength(s)
    case Arr(items) => 2 + Commas(|items|) + ItemsLength(items)
    case Obj(fields) => 2 + Commas(|fields|) + FieldsLength(fields)
  }

  function ItemsLength(items: seq<Json>): nat {
    if items == [] then 0 else Length(items[0]) + ItemsLength(items[1..])
  }

  function FieldsLength(fields: seq<Member>): nat {
    if fields == [] then 0
    else 2 + CharsLength(fields[0].key) + 1 + Length(fields[0].value) + FieldsLength(fields[1..])
  }

  lemma {:induction false} LengthOfWire(j: Json)
    ensures Length(Wire(j)) == Length(j)
  {
    match j {
      case Arr(items) => LengthOfWireItems(items);
      case Obj(fields) => LengthOfWireFields(fields);
      case _ =>
    }
  }

  lemma {:induction false} LengthOfWireItems(items: seq<Json>)
    ensures ItemsLength(WireItems(items)) == ItemsLength(items)
  {
    if items == [] {
    } else {
      LengthOfWire(items[0]);
      LengthOfWireItems(items[1..]);
      assert WireItems(items)[1..] == WireItems(items[1..]);
    }
  }

  lemma {:induction false} LengthOfWireFields(fields: seq<Member>)
    ensures FieldsLength(WireFields(fields)) == FieldsLength(fields)
  {
    if fields == [] {
    } else {
      LengthOfWire(fields[0].value);
      LengthOfWireFields(fields[1..]);
      assert WireFields(fields)[1..] == WireFields(fields[1..]);
    }
  }

  // Bytes as far as this model looks at them: how many there are, and what JSON.parse makes of the
  // text they encode (None for text that is not JSON or not UTF-8).
  datatype Bytes = Bytes(length: nat, tree: Option<Json>)

  function Stringify(j: Json): Bytes {
    Bytes(Length(j), Some(Wire(j)))
  }

  /** Printing what was printed and parsed gives the same bytes. */
  lemma StringifyTwice(j: Json)
    ensures Stringify(Wire(j)) == Stringify(j)
  {
    WireTwice(j);
    LengthOfWire(j);
  }

  // ----- objects -----

  function Get(fields: seq<Member>, key: string): Option<Json> {
    if fields == [] then None
    else if fields[0].key == key then Some(fields[0].value)
    else Get(fields[1..], key)
  }

  // { ...fields, [key]: value } for a key that is already there
  function Put(fields: seq<Member>, key: string, value: Json): (r: seq<Member>)
    ensures |r| == |fields|
  {
    if fields == [] then []
    else if fields[0].key == key then [Member(key, value)] + fields[1..]
    else [fields[0]] + Put(fields[1..], key, value)
  }

  lemma {:induction false} GetAfterPut(fields: seq<Member>, key: string, value: Json, other: string)
    requires Get(fields, key).Some?
    ensures Get(Put(fields, key, value), other) == if other == key then Some(value) else Get(fields, other)
  {
    if fields[0].key != key {
      GetAfterPut(fields[1..], key, value, other);
      assert Put(fields, key, value)[1..] == Put(fields[1..], key, value);
    }
  }

  lemma {:induction false} PutSame(fields: seq<Member>, key: string, value: Json)
    requires Get(fields, key) == Some(value)
    ensures Put(fields, key, value) == fields
  {
    if fields[0].key != key { PutSame(fields[1..], key, value); }
  }

  lemma {:induction false} PutLength(fields: seq<Member>, key: string, value: Json)
    requires Get(fields, key).Some?
    ensures FieldsLength(Put(fields, key, value)) + Length(Get(fields, key).value)
            == FieldsLength(fields) + Length(value)
  {
    if fields[0].key != key {
      PutLength(fields[1..], key, value);
      assert Put(fields, key, value)[1..] == Put(fields[1..], key, value);
    } else {
      assert Put(fields, key, value)[1..] == fields[1..];
    }
  }

  lemma {:induction false} GetAfterWire(fields: seq<Member>, key: string)
    ensures Get(WireFields(fields), key) ==
            match Get(fields, key) case None => None case Some(j) => Some(Wire(j))
  {
    if fields == [] {
    } else {
      GetAfterWire(fields[1..], key);
      assert WireFields(fields)[1..] == WireFields(fields[1..]);
    }
  }

  // An object literal; an undefined value leaves no field in the printed text.
  function Record(entries: seq<(string, Option<Json>)>): seq<Member> {
    if entries == [] then []
    else (match entries[0].1 case None => [] case Some(j) => [Member(entries[0].0, j)]) + Record(entries[1..])
  }

  predicate DistinctKeys(entries: seq<(string, Option<Json>)>) {
    forall i, j | 0 <= i < j < |entries| :: entries[i].0 != entries[j].0
  }

  lemma {:induction false} GetFromRecord(entries: seq<(string, Option<Json>)>, i: nat)
    requires DistinctKeys(entries) && i < |entries|
    ensures Get(Record(entries), entries[i].0) == entries[i].1
  {
    if i == 0 {
      GetNothing(entries[1..], entries[0].0);
    } else {
      GetFromRecord(entries[1..], i - 1);
    }
    assert entries[0].1.Some? ==> Record(entries)[1..] == Record(entries[1..]);
    assert entries[0].1.None? ==> Record(entries) == Record(entries[1..]);
  }

  lemma {:induction false} RecordLength(entries: seq<(string, Option<Json>)>)
    requires forall i | 0 <= i < |entries| :: entries[i].1.Some?
    ensures |Record(entries)| == |entries|
  {
    if entries == [] {
    } else {
      RecordLength(entries[1..]);
    }
  }

  lemma {:induction false} GetNothing(entries: seq<(string, Option<Json>)>, key: string)
    requires forall i | 0 <= i < |entries| :: entries[i].0 != key
    ensures Get(Record(entries), key) == None
  {
    if entries == [] {
    } else {
      GetNothing(entries[1..], key);
      assert entries[0].1.Some? ==> Record(entries)[1..] == Record(entries[1..]);
      assert entries[0].1.None? ==> Record(entries) == Record(entries[1..]);
    }
  }

  // keys(v, allowed) of the envelope codec
  predicate OnlyKeys(fields: seq<Member>, allowed: seq<string>) {
    forall i | 0 <= i < |fields| :: fields[i].key in allowed
  }

  lemma {:induction false} RecordKeys(entries: seq<(string, Option<Json>)>, allowed: seq<string>)
    requires forall i | 0 <= i < |entries| :: entries[i].0 in allowed
    ensures OnlyKeys(Record(entries), allowed)
  {
    if entries == [] {
    } else {
      RecordKeys(entries[1..], allowed);
    }
  }

  predicate Plain(entries: seq<(string, Option<Json>)>) {
    forall i | 0 <= i < |entries| && entries[i].1.Some? :: Wire(entries[i].1.value) == entries[i].1.value
  }

  lemma {:induction false} WireOfRecord(entries: seq<(string, Option<Json>)>)
    requires Plain(entries)
    ensures WireFields(Record(entries)) == Record(entries)
  {
    if entries == [] {
    } else {
      WireOfRecord(entries[1..]);
      assert entries[0].1.Some? ==> Record(entries)[1..] == Record(entries[1..]);
      assert entries[0].1.None? ==> Record(entries) == Record(entries[1..]);
    }
  }

  /** What an object literal with distinct keys and printable values looks like to its reader. */
  lemma RecordFacts(entries: seq<(string, Option<Json>)>, allowed: seq<string>)
    requires DistinctKeys(entries) && Plain(entries)
    requires forall i | 0 <= i < |entries| :: entries[i].0 in allowed
    ensures forall i | 0 <= i < |entries| :: Get(Record(entries), entries[i].0) == entries[i].1
    ensures OnlyKeys(Record(entries), allowed)
    ensures Wire(Obj(Record(entries))) == Obj(Record(entries))
  {
    forall i | 0 <= i < |entries|
      ensures Get(Record(entries), entries[i].0) == entries[i].1
    {
      GetFromRecord(entries, i);
    }
    RecordKeys(entries, allowed);
    WireOfRecord(entries);
  }

  // ----- equality of JSON values: jsonb equality, and deep equality of parsed values -----

  datatype Value =
    | VNull | VBool(b: bool) | VNum(x: Number) | VStr(s: string)
    | VArr(items: seq<Value>) | VObj(members: map<string, Value>)

  // Field order does not matter to either equality.
  function Meaning(j: Json): Value {
    match j
    case Null => VNull
    case Bool(b) => VBool(b)
    case Num(x) => VNum(x)
    case Str(s) => VStr(s)
    case Arr(items) => VArr(Meanings(items))
    case Obj(fields) => VObj(Members(fields))
  }

  function Meanings(items: seq<Json>): seq<Value> {
    if items == [] then [] else [Meaning(items[0])] + Meanings(items[1..])
  }

  function Members(fields: seq<Member>): map<string, Value> {
    if fields == [] then map[] else Members(fields[1..])[fields[0].key := Meaning(fields[0].value)]
  }

  // Whether two printed texts mean the same JSON value.
  predicate SameJson(a: Bytes, b: Bytes) {
    a.tree.Some? && b.tree.Some? && Meaning(a.tree.value) == Meaning(b.tree.value)
  }

  /** The same JSON value, by its shape: equal scalars, lists of the same values, and objects with the same
      keys and the same value under each, in any order of fields. */
  predicate Same(a: Json, b: Json)
    decreases a
  {
    match a
    case Arr(items) => b.Arr? && |b.items| == |items| && forall i | 0 <= i < |items| :: Same(items[i], b.items[i])
    case Obj(fields) =>
      && b.Obj?
      && (forall i | 0 <= i < |fields| && Get(fields, fields[i].key) == Some(fields[i].value) ::
            && Get(b.fields, fields[i].key).Some?
            && Same(fields[i].value, Get(b.fields, fields[i].key).value))
      && forall j | 0 <= j < |b.fields| :: Get(fields, b.fields[j].key).Some?
    case _ => a == b
  }

  lemma {:induction false} MeaningsAt(items: seq<Json>)
    ensures |Meanings(items)| == |items| && forall i | 0 <= i < |items| :: Meanings(items)[i] == Meaning(items[i])
  {
    if items == [] {
    } else {
      MeaningsAt(items[1..]);
    }
  }

  lemma {:induction false} MembersAt(fields: seq<Member>, key: string)
    ensures key in Members(fields) <==> Get(fields, key).Some?
    ensures Get(fields, key).Some? ==> Members(fields)[key] == Meaning(Get(fields, key).value)
  {
    if fields == [] {
    } else {
      MembersAt(fields[1..], key);
    }
  }

  lemma {:induction false} GetHas(fields: seq<Member>, i: nat)
    requires i < |fields|
    ensures Get(fields, fields[i].key).Some?
  {
    if i == 0 {
    } else {
      GetHas(fields[1..], i - 1);
    }
  }

  lemma {:induction false} GetWhere(fields: seq<Member>, key: string) returns (i: nat)
    requires Get(fields, key).Some?
    ensures i < |fields| && fields[i] == Member(key, Get(fields, key).value)
  {
    if fields[0].key == key {
      i := 0;
    } else {
      i := GetWhere(fields[1..], key);
      i := i + 1;
    }
  }

  predicate SameAt(a: Option<Json>, b: Option<Json>) {
    match (a, b)
    case (Some(x), Some(y)) => Meaning(x) == Meaning(y)
    case _ => a.None? && b.None?
  }

  ghost predicate SameFields(f: seq<Member>, g: seq<Member>) {
    forall key :: SameAt(Get(f, key), Get(g, key))
  }

  /** Two objects mean the same exactly when they have the same value, or none, under every key. */
  lemma SameObjects(f: seq<Member>, g: seq<Member>)
    ensures Meaning(Obj(f)) == Meaning(Obj(g)) <==> SameFields(f, g)
  {
    forall key
      ensures SameAt(Get(f, key), Get(g, key)) <==>
              (key in Members(f) <==> key in Members(g)) && (key in Members(f) ==> Members(f)[key] == Members(g)[key])
    {
      MembersAt(f, key);
      MembersAt(g, key);
    }
    if SameFields(f, g) {
      forall key
        ensures key in Members(f) <==> key in Members(g)
        ensures key in Members(f) ==> Members(f)[key] == Members(g)[key]
      {
        assert SameAt(Get(f, key), Get(g, key));
      }
      assert Members(f) == Members(g);
    }
  }

  lemma SameArrays(a: seq<Json>, b: seq<Json>)
    ensures Meaning(Arr(a)) == Meaning(Arr(b)) <==>
            |a| == |b| && forall i | 0 <= i < |a| :: Meaning(a[i]) == Meaning(b[i])
  {
    MeaningsAt(a);
    MeaningsAt(b);
    if Meanings(a) == Meanings(b) {
      forall i | 0 <= i < |a| ensures Meaning(a[i]) == Meaning(b[i]) {
        assert Meanings(a)[i] == Meanings(b)[i];
      }
    }
    if |a| == |b| && forall i | 0 <= i < |a| :: Meaning(a[i]) == Meaning(b[i]) {
      assert Meanings(a) == Meanings(b);
    }
  }

  /** Equality of meanings is sameness by shape. */
  lemma {:induction false} MeaningIsSame(a: Json, b: Json)
    ensures Meaning(a) == Meaning(b) <==> Same(a, b)
    decreases a
  {
    if a.Arr? && b.Arr? {
      SameArrays(a.items, b.items);
      forall i | 0 <= i < |a.items| && i < |b.items| { MeaningIsSame(a.items[i], b.items[i]); }
    } else if a.Obj? && b.Obj? {
      var f, g := a.fields, b.fields;
      SameObjects(f, g);
      forall i | 0 <= i < |f| && Get(g, f[i].key).Some?
        ensures Meaning(f[i].value) == Meaning(Get(g, f[i].key).value) <==> Same(f[i].value, Get(g, f[i].key).value)
      {
        MeaningIsSame(f[i].value, Get(g, f[i].key).value);
      }
      SameByKey(f, g);
    }
  }

  // Every field of both objects, as `Same` looks at them.
  predicate SameByField(f: seq<Member>, g: seq<Member>) {
    && (forall i | 0 <= i < |f| && Get(f, f[i].key) == Some(f[i].value) ::
          Get(g, f[i].key).Some? && Meaning(f[i].value) == Meaning(Get(g, f[i].key).value))
    && forall j | 0 <= j < |g| :: Get(f, g[j].key).Some?
  }

  lemma FoundInBoth(f: seq<Member>, g: seq<Member>, key: string)
    requires SameByField(f, g) && Get(g, key).Some?
    ensures Get(f, key).Some?
  {
    var j := GetWhere(g, key);
    assert Get(f, g[j].key).Some?;
  }

  // Looking at every field of both objects is looking at every key.
  lemma SameByKey(f: seq<Member>, g: seq<Member>)
    ensures SameFields(f, g) <==> SameByField(f, g)
  {
    hide Meaning, Get;
    if SameFields(f, g) {
      forall i | 0 <= i < |f| && Get(f, f[i].key) == Some(f[i].value)
        ensures Get(g, f[i].key).Some? && Meaning(f[i].value) == Meaning(Get(g, f[i].key).value)
      {
        assert SameAt(Get(f, f[i].key), Get(g, f[i].key));
      }
      forall j | 0 <= j < |g| ensures Get(f, g[j].key).Some? {
        GetHas(g, j);
        assert SameAt(Get(f, g[j].key), Get(g, g[j].key));
      }
    }
    if SameByField(f, g) {
      forall key ensures SameAt(Get(f, key), Get(g, key)) {
        if Get(g, key).Some? { FoundInBoth(f, g, key); }
        if Get(f, key).Some? {
          var i := GetWhere(f, key);
          assert f[i].key == key;
        }
      }
    }
  }

  /** Two texts are the same JSON exactly when both parse, to values of the same shape. */
  lemma SameJsonIsSame(a: Bytes, b: Bytes)
    ensures SameJson(a, b) <==> a.tree.Some? && b.tree.Some? && Same(a.tree.value, b.tree.value)
  {
    if a.tree.Some? && b.tree.Some? { MeaningIsSame(a.tree.value, b.tree.value); }
  }
}
