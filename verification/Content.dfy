/** The content of event envelopes: what two of them with the same JSON share, what decoding and creation
    keep, and what they refuse (src/shared/events/index.ts). */
module Content {
  import opened Wrappers
  import opened Identity
  import opened Provenance
  import opened Json
  import opened Envelope

  // ----- readers respect the meaning of what they read -----

  lemma TextSame(v: Option<Json>, u: Option<Json>)
    requires SameAt(v, u)
    ensures Text(v) == Text(u) && IdIn(v) == IdIn(u) && (Present(v).None? <==> Present(u).None?)
  {
    hide ParseId;
  }

  // Which keys an object may have depends on its keys alone.
  lemma OnlyKeysSame(f: seq<Member>, g: seq<Member>, allowed: seq<string>)
    requires SameFields(f, g) && OnlyKeys(f, allowed)
    ensures OnlyKeys(g, allowed)
  {
    hide Meaning, Get;
    forall j | 0 <= j < |g| ensures g[j].key in allowed {
      GetHas(g, j);
      assert SameAt(Get(f, g[j].key), Get(g, g[j].key));
      var i := GetWhere(f, g[j].key);
    }
  }

  lemma SameFieldsSymmetric(f: seq<Member>, g: seq<Member>)
    requires SameFields(f, g)
    ensures SameFields(g, f)
  {
    hide Meaning, Get;
    forall key ensures SameAt(Get(g, key), Get(f, key)) {
      assert SameAt(Get(f, key), Get(g, key));
    }
  }

  lemma FieldsSame(v: Option<Json>, u: Option<Json>, allowed: seq<string>)
    requires SameAt(v, u)
    ensures Fields(v).Some? <==> Fields(u).Some?
    ensures Fields(v).Some? ==> SameFields(Fields(v).value, Fields(u).value)
    ensures Fields(v).Some? ==> (OnlyKeys(Fields(v).value, allowed) <==> OnlyKeys(Fields(u).value, allowed))
  {
    if Fields(v).Some? {
      var f, g := Fields(v).value, Fields(u).value;
      SameObjects(f, g);
      hide SameFields, OnlyKeys, Meaning;
      SameFieldsSymmetric(f, g);
      if OnlyKeys(f, allowed) { OnlyKeysSame(f, g, allowed); }
      if OnlyKeys(g, allowed) { OnlyKeysSame(g, f, allowed); }
    }
  }

  lemma FieldSame(f: seq<Member>, g: seq<Member>, key: string)
    requires SameFields(f, g)
    ensures SameAt(Get(f, key), Get(g, key))
  {
    hide Meaning, Get;
  }

  lemma ActorInSame(v: Option<Json>, u: Option<Json>)
    requires SameAt(v, u)
    ensures ActorIn(v) == ActorIn(u)
  {
    hide SameAt, Get, OnlyKeys, IdentityValid, SameFields, ACTOR_KEYS, Text, Present, Fields;
    TextSame(v, u);
    FieldsSame(v, u, ACTOR_KEYS);
    if Fields(v).Some? {
      FieldSame(Fields(v).value, Fields(u).value, "kind");
      FieldSame(Fields(v).value, Fields(u).value, "identity");
      TextSame(Get(Fields(v).value, "kind"), Get(Fields(u).value, "kind"));
      TextSame(Get(Fields(v).value, "identity"), Get(Fields(u).value, "identity"));
    }
  }

  lemma RefInSame(v: Option<Json>, u: Option<Json>)
    requires SameAt(v, u)
    ensures RefIn(v) == RefIn(u)
  {
    hide SameAt, Get, OnlyKeys, IdIn, SameFields, REF_KEYS, Text, Present, Fields, ParseKind;
    TextSame(v, u);
    FieldsSame(v, u, REF_KEYS);
    if Fields(v).Some? {
      FieldSame(Fields(v).value, Fields(u).value, "kind");
      FieldSame(Fields(v).value, Fields(u).value, "id");
      TextSame(Get(Fields(v).value, "kind"), Get(Fields(u).value, "kind"));
      TextSame(Get(Fields(v).value, "id"), Get(Fields(u).value, "id"));
    }
  }

  lemma ReplayInSame(v: Option<Json>, u: Option<Json>)
    requires SameAt(v, u)
    ensures ReplayIn(v) == ReplayIn(u)
  {
    hide SameAt, Get, OnlyKeys, IdIn, RefIn, SameFields, REPLAY_KEYS, Text, Present, Fields;
    TextSame(v, u);
    FieldsSame(v, u, REPLAY_KEYS);
    if Fields(v).Some? {
      FieldSame(Fields(v).value, Fields(u).value, "run_id");
      FieldSame(Fields(v).value, Fields(u).value, "source");
      TextSame(Get(Fields(v).value, "run_id"), Get(Fields(u).value, "run_id"));
      RefInSame(Get(Fields(v).value, "source"), Get(Fields(u).value, "source"));
    }
  }

  lemma ScalarsSame(v: Option<Json>, u: Option<Json>)
    requires SameAt(v, u)
    ensures OriginIn(v) == OriginIn(u) && SourceIn(v) == SourceIn(u) && TenantIn(v) == TenantIn(u)
  {
    TextSame(v, u);
    hide SameAt, Text, Present;
  }

  lemma DepthSame(v: Option<Json>, u: Option<Json>)
    requires SameAt(v, u)
    ensures DepthIn(v) == DepthIn(u)
  {
  }

  lemma AttributionInSame(v: Option<Json>, u: Option<Json>)
    requires SameAt(v, u)
    ensures AttributionIn(v) == AttributionIn(u)
  {
    hide SameAt, Get, OnlyKeys, ActorIn, TenantIn, SameFields, ATTRIBUTION_KEYS, Fields, ValidAttribution;
    FieldsSame(v, u, ATTRIBUTION_KEYS);
    if Fields(v).Some? {
      var f, g := Fields(v).value, Fields(u).value;
      FieldSame(f, g, "initiator");
      FieldSame(f, g, "on_behalf_of");
      FieldSame(f, g, "tenant");
      ActorInSame(Get(f, "initiator"), Get(g, "initiator"));
      ActorInSame(Get(f, "on_behalf_of"), Get(g, "on_behalf_of"));
      ScalarsSame(Get(f, "tenant"), Get(g, "tenant"));
    }
  }

  lemma WorkInSame(v: Option<Json>, u: Option<Json>)
    requires SameAt(v, u)
    ensures WorkIn(v) == WorkIn(u)
  {
    hide SameAt, Get, OnlyKeys, SameFields, WORK_KEYS, Fields, RestoreWork, IdIn, SourceIn, OriginIn, DepthIn, RefIn,
         ReplayIn, AttributionIn, Text;
    FieldsSame(v, u, WORK_KEYS);
    if Fields(v).Some? {
      var f, g := Fields(v).value, Fields(u).value;
      TextSame(Get(f, "work_id"), Get(g, "work_id")) by { FieldSame(f, g, "work_id"); }
      TextSame(Get(f, "correlation_id"), Get(g, "correlation_id")) by { FieldSame(f, g, "correlation_id"); }
      ScalarsSame(Get(f, "correlation_source"), Get(g, "correlation_source")) by {
        FieldSame(f, g, "correlation_source");
      }
      TextSame(Get(f, "operation"), Get(g, "operation")) by { FieldSame(f, g, "operation"); }
      AttributionInSame(Get(f, "attribution"), Get(g, "attribution")) by { FieldSame(f, g, "attribution"); }
      RefInSame(Get(f, "causation"), Get(g, "causation")) by { FieldSame(f, g, "causation"); }
      ScalarsSame(Get(f, "origin"), Get(g, "origin")) by { FieldSame(f, g, "origin"); }
      DepthSame(Get(f, "depth"), Get(g, "depth")) by { FieldSame(f, g, "depth"); }
      ReplayInSame(Get(f, "replay"), Get(g, "replay")) by { FieldSame(f, g, "replay"); }
    }
  }

  // ----- the content of an envelope -----

  function EventFields(e: Event): seq<Member> {
    Fields(e.bytes.tree).GetOr([])
  }

  function Part(e: Event, key: string): Option<Json> {
    Get(EventFields(e), key)
  }

  // The same type, time and work, and payloads of the same shape.
  predicate SameContent(e: Event, f: Event) {
    && Part(e, "type") == Part(f, "type") && Part(e, "occurred_at_ms") == Part(f, "occurred_at_ms")
    && e.work == f.work
    && Part(e, "payload").Some? && Part(f, "payload").Some?
    && Same(Part(e, "payload").value, Part(f, "payload").value)
  }

  lemma SealedFields(e: Event)
    requires Decode(e.bytes) == Some(e)
    ensures e.bytes.tree == Some(Obj(EventFields(e))) && WellFormed(EventFields(e))
    ensures Part(e, "id") == Some(Str(e.id)) && Part(e, "work") == Some(WorkOut(e.work)) && ValidWork(e.work)
  {
    Decoded(e.bytes);
    var w := e.bytes.tree.value.fields;
    var n := Normalized(w, e.id, e.work);
    WellFormedNormalized(w, e.id, e.work);
    WellFormedWire(n);
    GetAfterWire(n, "id");
    GetAfterWire(n, "work");
    WorkRoundTrip(e.work);
    hide WellFormed, Get, Put, WorkOut, WorkIn, ValidWork, Decode, WireFields, Length, Normalized;
  }

  lemma {:induction false} KeyCount(w: seq<Member>)
    ensures |set m | m in w :: m.key| <= |w|
  {
    if w == [] {
      assert (set m | m in w :: m.key) == {};
    } else {
      KeyCount(w[1..]);
      assert (set m | m in w :: m.key) == {w[0].key} + set m | m in w[1..] :: m.key;
    }
  }

  lemma {:induction false} Filled<T>(a: set<T>, b: set<T>)
    requires a <= b && |b| <= |a|
    ensures a == b
    decreases |a|
  {
    if a == {} {
      assert b == {};
    } else {
      var x :| x in a;
      Filled(a - {x}, b - {x});
      assert a == a - {x} + {x} && b == b - {x} + {x};
    }
  }

  lemma SixKeys()
    ensures |set k | k in ENVELOPE_KEYS| == 6
  {
    var keys := {"v", "id", "type", "occurred_at_ms", "work", "payload"};
    assert "type"[0] != "work"[0];
    assert |keys| == 6;
    assert keys == set k | k in ENVELOPE_KEYS;
  }

  // Six fields with the six keys are no others.
  lemma OnlySixKeys(w: seq<Member>, key: string)
    requires |w| == 6 && (forall i | 0 <= i < 6 :: Get(w, ENVELOPE_KEYS[i]).Some?) && Get(w, key).Some?
    ensures key in ENVELOPE_KEYS
  {
    var six, all := set k | k in ENVELOPE_KEYS, set m | m in w :: m.key;
    SixKeys();
    KeyCount(w);
    hide Get;
    forall i | 0 <= i < 6 ensures ENVELOPE_KEYS[i] in all {
      var j := GetWhere(w, ENVELOPE_KEYS[i]);
      assert w[j] in w;
    }
    assert six <= all;
    Filled(six, all);
    var j := GetWhere(w, key);
    assert w[j] in w;
    assert key in all;
  }

  // The parts that every well-formed envelope has in common.
  lemma CommonParts(e: Event, key: string)
    requires Decode(e.bytes) == Some(e)
    ensures Part(e, "v") == Some(Num(Whole(1)))
    ensures Part(e, "type").Some? && Part(e, "type").value.Str?
    ensures Part(e, "occurred_at_ms").Some? && Part(e, "occurred_at_ms").value.Num?
    ensures Part(e, "payload").Some?
    ensures Part(e, key).Some? ==> key in ENVELOPE_KEYS
  {
    SealedFields(e);
    var w := EventFields(e);
    hide Get, TypeName, Decode, ValidWork, WorkOut, EventFields;
    if Part(e, key).Some? { OnlySixKeys(w, key); }
  }

  lemma SharedParts(e: Event, f: Event)
    requires Decode(e.bytes) == Some(e) && Decode(f.bytes) == Some(f)
    requires SameFields(EventFields(e), EventFields(f))
    ensures e.id == f.id && SameContent(e, f)
  {
    SealedFields(e);
    SealedFields(f);
    CommonParts(e, "v");
    CommonParts(f, "v");
    var v, u := EventFields(e), EventFields(f);
    FieldSame(v, u, "id");
    FieldSame(v, u, "type");
    FieldSame(v, u, "occurred_at_ms");
    FieldSame(v, u, "work");
    FieldSame(v, u, "payload");
    WorkInSame(Part(e, "work"), Part(f, "work"));
    WorkRoundTrip(e.work);
    WorkRoundTrip(f.work);
    hide Get, Decode, WorkIn, WorkOut, ValidWork, WellFormed, SameFields, EventFields, Same;
    MeaningIsSame(Part(e, "payload").value, Part(f, "payload").value);
    ScalarPart(Part(e, "id"), Part(f, "id"));
    ScalarPart(Part(e, "type"), Part(f, "type"));
    ScalarPart(Part(e, "occurred_at_ms"), Part(f, "occurred_at_ms"));
  }

  // Equal meanings of scalars are equal.
  lemma ScalarPart(v: Option<Json>, u: Option<Json>)
    requires SameAt(v, u) && v.Some? && (v.value.Str? || v.value.Num?)
    ensures v == u
  {
  }

  lemma SameItself(v: Option<Json>)
    ensures SameAt(v, v)
  {
  }

  lemma SixShared(e: Event, f: Event)
    requires Decode(e.bytes) == Some(e) && Decode(f.bytes) == Some(f) && e.id == f.id && SameContent(e, f)
    ensures SameAt(Part(e, "v"), Part(f, "v")) && SameAt(Part(e, "id"), Part(f, "id"))
    ensures SameAt(Part(e, "type"), Part(f, "type"))
    ensures SameAt(Part(e, "occurred_at_ms"), Part(f, "occurred_at_ms"))
    ensures SameAt(Part(e, "work"), Part(f, "work")) && SameAt(Part(e, "payload"), Part(f, "payload"))
  {
    hide Get, Decode, WorkOut, ValidWork, WellFormed, EventFields, Same, Meaning, Part, ENVELOPE_KEYS;
    SealedFields(e);
    SealedFields(f);
    CommonParts(e, "v");
    CommonParts(f, "v");
    MeaningIsSame(Part(e, "payload").value, Part(f, "payload").value);
    SameItself(Part(e, "v"));
    SameItself(Part(e, "id"));
    SameItself(Part(e, "type"));
    SameItself(Part(e, "occurred_at_ms"));
    SameItself(Part(e, "work"));
  }

  lemma KeyCases(key: string)
    requires key in ENVELOPE_KEYS
    ensures key == "v" || key == "id" || key == "type" || key == "occurred_at_ms" || key == "work" || key == "payload"
  {
    var i :| 0 <= i < 6 && ENVELOPE_KEYS[i] == key;
  }

  lemma ContentShared(e: Event, f: Event, key: string)
    requires Decode(e.bytes) == Some(e) && Decode(f.bytes) == Some(f) && e.id == f.id && SameContent(e, f)
    ensures SameAt(Part(e, key), Part(f, key))
  {
    hide Get, Decode, WorkOut, ValidWork, WellFormed, EventFields, Same, Meaning, Part, ENVELOPE_KEYS, SameContent;
    CommonParts(e, key);
    CommonParts(f, key);
    SixShared(e, f);
    if key in ENVELOPE_KEYS { KeyCases(key); }
  }

  /** The stored texts of two envelopes are the same JSON exactly when they have the same id, type, time and
      work, and payloads of the same shape. */
  lemma SameEvents(e: Event, f: Event)
    requires Decode(e.bytes) == Some(e) && Decode(f.bytes) == Some(f)
    ensures SameJson(e.bytes, f.bytes) <==> e.id == f.id && SameContent(e, f)
  {
    SealedFields(e);
    SealedFields(f);
    SameObjects(EventFields(e), EventFields(f));
    hide Decode, WellFormed, WorkOut, ValidWork, EventFields, SameContent, Meaning;
    if SameFields(EventFields(e), EventFields(f)) { SharedParts(e, f); }
    if e.id == f.id && SameContent(e, f) {
      forall key ensures SameAt(Get(EventFields(e), key), Get(EventFields(f), key)) {
        ContentShared(e, f, key);
      }
    }
  }

  // What printing and parsing make of a field.
  function Wired(v: Option<Json>): Option<Json> {
    match v case None => None case Some(j) => Some(Wire(j))
  }

  lemma NormalizedParts(raw: Bytes, key: string)
    requires Decode(raw).Some? && key != "id" && key != "work"
    ensures raw.tree.Some? && raw.tree.value.Obj?
    ensures Part(Decode(raw).value, key) == Wired(Get(raw.tree.value.fields, key))
  {
    Decoded(raw);
    var w, e := raw.tree.value.fields, Decode(raw).value;
    var m, n := Put(w, "id", Str(e.id)), Normalized(w, e.id, e.work);
    assert Get(w, ENVELOPE_KEYS[1]).Some? && Get(w, ENVELOPE_KEYS[4]).Some?;
    GetAfterPut(w, "id", Str(e.id), "work");
    GetAfterPut(w, "id", Str(e.id), key);
    GetAfterPut(m, "work", WorkOut(e.work), key);
    GetAfterWire(n, key);
    hide WellFormed, Get, Put, WorkOut, ValidWork, Decode, WireFields, Length;
  }

  /** Decoding keeps every other field as it was sent, and reads the id and the work out of theirs. */
  lemma DecodeKeepsContent(raw: Bytes)
    requires Decode(raw).Some?
    ensures raw.tree.Some? && raw.tree.value.Obj?
    ensures var e, w := Decode(raw).value, raw.tree.value.fields;
            && Part(e, "type") == Wired(Get(w, "type"))
            && Part(e, "occurred_at_ms") == Wired(Get(w, "occurred_at_ms"))
            && Part(e, "payload") == Wired(Get(w, "payload"))
            && Some(e.id) == IdIn(Get(w, "id")) && Some(e.work) == WorkIn(Get(w, "work"))
            && Part(e, "id") == Some(Str(e.id)) && Part(e, "work") == Some(WorkOut(e.work))
  {
    NormalizationIsFixed(raw);
    SealedFields(Decode(raw).value);
    assert Decode(raw).Some? ==>
        && raw.tree.Some? && raw.tree.value.Obj?
        && IdIn(Get(raw.tree.value.fields, "id")) == Some(Decode(raw).value.id)
        && WorkIn(Get(raw.tree.value.fields, "work")) == Some(Decode(raw).value.work) by {
      hide WellFormed, Normalized, IdIn, WorkIn, Get;
    }
    hide WellFormed, Get, Put, WorkOut, ValidWork, Decode, WireFields, Length, IdIn, WorkIn, Part;
    NormalizedParts(raw, "type");
    NormalizedParts(raw, "occurred_at_ms");
    NormalizedParts(raw, "payload");
  }

  /** What a producer asks for is what its envelope holds. */
  lemma CreateKeepsContent(id: string, name: string, occurredAt: Json, work: Work, payload: seq<Member>)
    requires ValidWork(work) && Create(id, name, occurredAt, work, payload).Some?
    ensures var e := Create(id, name, occurredAt, work, payload).value;
            && Part(e, "type") == Some(Str(name)) && Part(e, "occurred_at_ms") == Some(Wire(occurredAt))
            && Part(e, "payload") == Some(Obj(WireFields(payload)))
            && Some(e.id) == ParseId(id) && e.work == work
  {
    var f := CreateFields(id, name, occurredAt, work, payload);
    var raw := Stringify(Obj(f));
    CreateKeepsWork(id, name, occurredAt, work, payload);
    assert raw.tree == Some(Obj(WireFields(f))) by { WireOfObject(f); }
    CreatedGets(id, name, occurredAt, work, payload);
    hide ValidWork, WorkOut, CreateFields, Get, Decode, Part, Length;
    DecodeKeepsContent(raw);
    hide WireFields, Wire;
    WireTwice(occurredAt);
    WireTwice(Obj(payload));
    WireOfObject(payload);
    WireOfObject(WireFields(payload));
  }

  // ----- what is refused -----

  // A base of lowercase letters, digits, dots, underscores and hyphens, and a version.
  predicate TypeParts(s: string, base: string, version: string) {
    && s == base + ".v" + version && |s| <= 128 && 1 <= |base| <= 120 && 1 <= |version| <= 6
    && (forall k | 0 <= k < |base| ::
          var c := base[k];
          'a' <= c <= 'z' || '0' <= c <= '9' || c == '_' || c == '.' || c == '-')
    && (forall k | 0 <= k < |version| :: '0' <= version[k] <= '9') && version[0] != '0'
  }

  lemma PartsOfType(s: string, i: nat)
    requires i + 3 <= |s| <= 128 && TypeNameAt(s, i)
    ensures TypeParts(s, s[..i], s[i + 2..])
  {
    assert s == s[..i] + ".v" + s[i + 2..];
  }

  lemma TypeOfParts(s: string, base: string, version: string)
    requires TypeParts(s, base, version)
    ensures |base| + 3 <= |s| && TypeNameAt(s, |base|)
  {
    var i := |base|;
    assert s[..i] == base && s[i + 2..] == version;
    assert s[i] == '.' && s[i + 1] == 'v' && s[i + 2] == version[0];
    assert forall k | 0 <= k < i :: s[k] == base[k];
    assert forall k | i + 3 <= k < |s| :: s[k] == version[k - i - 2];
  }

  /** A type name is a base and a version from 1 to 999999 without leading zero, joined by ".v". */
  lemma TypeNames(s: string)
    ensures TypeName(s) <==> exists base, version :: TypeParts(s, base, version)
  {
    hide TypeNameAt, TypeParts;
    if TypeName(s) {
      var i :| 0 <= i <= |s| - 3 && TypeNameAt(s, i);
      PartsOfType(s, i);
    }
    if base, version :| TypeParts(s, base, version) {
      TypeOfParts(s, base, version);
      assert |s| <= 128 by { TypeLength(s, base, version); }
    }
  }

  lemma TypeLength(s: string, base: string, version: string)
    requires TypeParts(s, base, version)
    ensures |s| <= 128
  {
  }

  lemma OnlyKeysFinds(fields: seq<Member>, allowed: seq<string>, key: string)
    requires OnlyKeys(fields, allowed) && Get(fields, key).Some?
    ensures key in allowed
  {
    var i := GetWhere(fields, key);
  }

  /** Unknown fields refuse, at every level of an envelope, and so do sizes, versions and times out of
      bounds. */
  lemma DecodeIsStrict(raw: Bytes, key: string)
    requires Decode(raw).Some?
    ensures raw.length <= 65536 && Decode(raw).value.bytes.length <= 65536
    ensures raw.tree.Some? && raw.tree.value.Obj?
    ensures var w := raw.tree.value.fields;
            && |w| == 6
            && (Get(w, key).Some? ==> key in ["v", "id", "type", "occurred_at_ms", "work", "payload"])
            && Get(w, "v") == Some(Num(Whole(1)))
            && Get(w, "type").Some? && Get(w, "type").value.Str? && TypeName(Get(w, "type").value.s)
            && Get(w, "payload").Some? && Get(w, "payload").value.Obj?
            && (Get(w, "occurred_at_ms") == Some(Num(NegativeZero))
                || exists n: int | 0 <= n <= 253402300799999 :: Get(w, "occurred_at_ms") == Some(Num(Whole(n))))
  {
    Decoded(raw);
    var w := raw.tree.value.fields;
    hide Get, TypeName, Decode, Normalized, ValidWork;
    if Get(w, key).Some? { OnlySixKeys(w, key); }
    if Get(w, "occurred_at_ms") != Some(Num(NegativeZero)) {
      var n := Get(w, "occurred_at_ms").value.x.n;
      assert Get(w, "occurred_at_ms") == Some(Num(Whole(n)));
    }
  }

  lemma WorkInIsStrict(v: Option<Json>, key: string)
    requires WorkIn(v).Some?
    ensures v.Some? && v.value.Obj?
    ensures Get(v.value.fields, key).Some? ==>
              key in ["work_id", "correlation_id", "correlation_source", "operation", "attribution",
                      "causation", "origin", "depth", "replay"]
    ensures var a := Get(v.value.fields, "attribution");
            && a.Some? && a.value.Obj?
            && (Get(a.value.fields, key).Some? ==> key in ["initiator", "on_behalf_of", "tenant"])
  {
    hide Get, OnlyKeys, RestoreWork, IdIn, SourceIn, OriginIn, DepthIn, RefIn, ReplayIn, ActorIn, TenantIn, Text,
         ValidAttribution, WORK_KEYS, ATTRIBUTION_KEYS;
    if Get(v.value.fields, key).Some? { OnlyKeysFinds(v.value.fields, WORK_KEYS, key); }
    var a := Get(v.value.fields, "attribution").value.fields;
    if Get(a, key).Some? { OnlyKeysFinds(a, ATTRIBUTION_KEYS, key); }
    KeyLists();
  }

  lemma KeyLists()
    ensures WORK_KEYS == ["work_id", "correlation_id", "correlation_source", "operation", "attribution",
                          "causation", "origin", "depth", "replay"]
    ensures ATTRIBUTION_KEYS == ["initiator", "on_behalf_of", "tenant"]
    ensures ACTOR_KEYS == ["kind", "identity"] && REF_KEYS == ["kind", "id"] && REPLAY_KEYS == ["run_id", "source"]
  {
  }

  lemma PartsAreStrict(v: Option<Json>, key: string)
    requires v.Some? && v.value != Null
    ensures ActorIn(v).Some? ==> v.value.Obj? && (Get(v.value.fields, key).Some? ==> key in ["kind", "identity"])
    ensures RefIn(v).Some? ==> v.value.Obj? && (Get(v.value.fields, key).Some? ==> key in ["kind", "id"])
    ensures ReplayIn(v).Some? ==> v.value.Obj? && (Get(v.value.fields, key).Some? ==> key in ["run_id", "source"])
  {
    KeyLists();
    hide Get, OnlyKeys, IdIn, Text, IdentityValid, ParseKind, WORK_KEYS, ATTRIBUTION_KEYS, ACTOR_KEYS, REF_KEYS,
         REPLAY_KEYS;
    if v.value.Obj? && Get(v.value.fields, key).Some? {
      var f := v.value.fields;
      if OnlyKeys(f, ACTOR_KEYS) { OnlyKeysFinds(f, ACTOR_KEYS, key); }
      if OnlyKeys(f, REF_KEYS) { OnlyKeysFinds(f, REF_KEYS, key); }
      if OnlyKeys(f, REPLAY_KEYS) { OnlyKeysFinds(f, REPLAY_KEYS, key); }
    }
  }

  // ----- the names on the wire -----

  predicate Named(r: Reference, j: Json) {
    && j.Obj?
    && Get(j.fields, "id") == Some(Str(r.id))
    && Get(j.fields, "kind")
       == Some(Str(match r.kind case ScopeRef => "scope" case WorkRef => "work" case EventRef => "event"))
  }

  lemma ReferenceNames(r: Reference)
    ensures Named(r, RefOut(r))
  {
    var e := RefEntries(r);
    GetFromRecord(e, 0);
    GetFromRecord(e, 1);
    assert e[0].0 == "kind" && e[1].0 == "id";
    hide Record, Get;
  }

  lemma WorkGet(w: Work, i: nat)
    requires ValidWork(w) && i < 9
    ensures |WorkEntries(w)| == 9 && Get(Record(WorkEntries(w)), WorkEntries(w)[i].0) == WorkEntries(w)[i].1
  {
    WorkFields(w);
    assert |WorkEntries(w)| == 9;
    hide WorkEntries, Record, Get, ValidWork;
  }

  lemma ScalarNames(w: Work)
    requires ValidWork(w)
    ensures WorkOut(w).Obj?
    ensures var f := WorkOut(w).fields;
            && Get(f, "work_id") == Some(Str(w.workId)) && Get(f, "correlation_id") == Some(Str(w.correlationId))
            && Get(f, "correlation_source") == Some(Str(if w.correlationSource.External? then "external" else "local"))
            && Get(f, "operation") == Some(Str(w.operation))
            && Get(f, "depth") == (if w.depth.Some? then Some(Num(Whole(w.depth.value))) else None)
  {
    hide Record, Get, ValidWork, RefOut, ReplayOut;
    WorkGet(w, 0);
    WorkGet(w, 1);
    WorkGet(w, 2);
    WorkGet(w, 3);
    WorkGet(w, 7);
  }

  function OriginName(o: Origin): string {
    match o
    case Request => "request" case Schedule => "schedule" case Replayed => "replay"
    case Backfill => "backfill" case Startup => "startup"
  }

  // The run and the source of a replay.
  predicate ReplayNamed(r: ReplayInfo, j: Json) {
    && j.Obj? && Get(j.fields, "run_id") == Some(Str(r.runId))
    && Get(j.fields, "source").Some? && Named(r.source, Get(j.fields, "source").value)
  }

  lemma ReplayNames(r: ReplayInfo)
    ensures ReplayNamed(r, ReplayOut(r))
  {
    ReferenceNames(r.source);
    var e := ReplayEntries(r);
    hide Named, RefOut;
    GetFromRecord(e, 0);
    GetFromRecord(e, 1);
    assert e[0].0 == "run_id" && e[1].0 == "source";
    hide Record, Get;
  }

  // An actor by its kind, and by its identity unless it is anonymous.
  predicate ActorNamed(a: Option<Actor>, j: Option<Json>) {
    match a
    case None => j.None?
    case Some(Anonymous) =>
      j.Some? && j.value.Obj? && Get(j.value.fields, "kind") == Some(Str("anonymous"))
      && Get(j.value.fields, "identity").None?
    case Some(Named(kind, identity)) =>
      && j.Some? && j.value.Obj? && Get(j.value.fields, "identity") == Some(Str(identity))
      && Get(j.value.fields, "kind")
         == Some(Str(match kind case User => "user" case Service => "service" case System => "system"))
  }

  lemma ActorNames(a: Option<Actor>)
    ensures ActorNamed(a, ActorOut(a))
  {
    if a.Some? {
      var e := ActorEntries(a.value);
      GetFromRecord(e, 0);
      GetFromRecord(e, 1);
      assert e[0].0 == "kind" && e[1].0 == "identity";
      hide Record, Get;
    }
  }

  // Who works for whom, and in which tenant.
  predicate AttributionNamed(a: Attribution, j: Json) {
    && j.Obj? && ActorNamed(a.initiator, Get(j.fields, "initiator"))
    && ActorNamed(a.onBehalfOf, Get(j.fields, "on_behalf_of"))
    && Get(j.fields, "tenant") == if a.tenant.Some? then Some(Str(a.tenant.value)) else None
  }

  lemma AttributionNames(a: Attribution)
    requires ValidAttribution(a)
    ensures AttributionNamed(a, Obj(Record(AttributionEntries(a))))
  {
    AttributionFields(a);
    ActorNames(a.initiator);
    ActorNames(a.onBehalfOf);
    hide Record, Get, ActorOut, ActorNamed, ValidAttribution;
  }

  lemma OptionalNames(w: Work)
    requires ValidWork(w)
    ensures WorkOut(w).Obj?
    ensures var f := WorkOut(w).fields;
            && Get(f, "causation") == (match w.causation case None => None case Some(r) => Some(RefOut(r)))
            && Get(f, "replay") == (match w.replay case None => None case Some(r) => Some(ReplayOut(r)))
            && Get(f, "attribution") == Some(Obj(Record(AttributionEntries(w.attribution))))
            && Get(f, "origin") == (match w.origin case None => None case Some(o) => Some(Str(OriginName(o))))
  {
    hide Record, Get, ValidWork, RefOut, ReplayOut, AttributionEntries;
    WorkGet(w, 4);
    WorkGet(w, 5);
    WorkGet(w, 6);
    WorkGet(w, 8);
  }

  /** Where a work's parts are found in what is written for it. */
  lemma WorkNames(w: Work)
    requires ValidWork(w)
    ensures WorkOut(w).Obj?
    ensures var f := WorkOut(w).fields;
            && Get(f, "work_id") == Some(Str(w.workId)) && Get(f, "correlation_id") == Some(Str(w.correlationId))
            && Get(f, "correlation_source") == Some(Str(if w.correlationSource.External? then "external" else "local"))
            && Get(f, "operation") == Some(Str(w.operation))
            && Get(f, "depth") == (if w.depth.Some? then Some(Num(Whole(w.depth.value))) else None)
            && Get(f, "origin") == (match w.origin case None => None case Some(o) => Some(Str(OriginName(o))))
            && Get(f, "attribution").Some? && AttributionNamed(w.attribution, Get(f, "attribution").value)
            && (Get(f, "causation").Some? <==> w.causation.Some?) && (Get(f, "replay").Some? <==> w.replay.Some?)
            && (w.causation.Some? ==> Named(w.causation.value, Get(f, "causation").value))
            && (w.replay.Some? ==> ReplayNamed(w.replay.value, Get(f, "replay").value))
  {
    ScalarNames(w);
    OptionalNames(w);
    PartsOfWork(w);
    hide *;
    AttributionNames(w.attribution);
    if w.causation.Some? { ReferenceNames(w.causation.value); }
    if w.replay.Some? { ReplayNames(w.replay.value); }
  }

  lemma PartsOfWork(w: Work)
    requires ValidWork(w)
    ensures ValidAttribution(w.attribution)
  {
    hide ValidId, ValidOperation, ValidAttribution;
  }

  // ----- there are envelopes -----

  lemma {:induction false} CharsBound(s: string)
    ensures CharsLength(s) <= 6 * |s|
  {
    if s == "" {
    } else {
      CharsBound(s[1..]);
    }
  }

  function EntryLength(entry: (string, Option<Json>)): nat {
    match entry.1 case None => 0 case Some(j) => 3 + CharsLength(entry.0) + Length(j)
  }

  lemma FirstEntry(entries: seq<(string, Option<Json>)>)
    requires entries != []
    ensures FieldsLength(Record(entries)) == EntryLength(entries[0]) + FieldsLength(Record(entries[1..]))
    ensures |Record(entries)| <= 1 + |Record(entries[1..])|
  {
    hide Length, CharsLength, FieldsLength;
    var rest := Record(entries[1..]);
    if entries[0].1.Some? {
      ConsLength(Member(entries[0].0, entries[0].1.value), rest);
    } else {
      assert Record(entries) == rest;
    }
  }

  lemma ConsLength(m: Member, rest: seq<Member>)
    ensures FieldsLength([m] + rest) == 3 + CharsLength(m.key) + Length(m.value) + FieldsLength(rest)
  {
    hide Length, CharsLength;
    assert ([m] + rest)[1..] == rest;
  }

  // A record of n entries, each within a bound.
  lemma {:induction false} RecordBound(entries: seq<(string, Option<Json>)>, bound: nat, n: nat, total: nat)
    requires forall i | 0 <= i < |entries| :: EntryLength(entries[i]) <= bound
    requires |entries| <= n && total == n * bound
    ensures |Record(entries)| <= n && FieldsLength(Record(entries)) <= total
  {
    if entries == [] {
    } else {
      assert total - bound == (n - 1) * bound;
      RecordBound(entries[1..], bound, n - 1, total - bound);
      hide Record, FieldsLength, EntryLength;
      FirstEntry(entries);
    }
  }

  lemma EntryBound(key: string, value: Option<Json>)
    requires |key| <= 20
    ensures EntryLength((key, value)) <= 123 + if value.Some? then Length(value.value) else 0
  {
    CharsBound(key);
    hide Length, CharsLength;
  }

  lemma StrBound(s: string)
    ensures Length(Str(s)) <= 2 + 6 * |s|
  {
    CharsBound(s);
  }

  // Work that anybody may start.
  function PlainWork(id: ID): Work {
    Work(id, id, Local, None, Some(Request), "job", Attribution(None, None, None), Some(0), None)
  }

  lemma PlainWorkValid(id: ID)
    requires ValidId(id)
    ensures ValidWork(PlainWork(id))
  {
    hide ValidId;
  }

  lemma SmallLengths()
    ensures Length(Obj([])) == 2 && Length(Num(Whole(0))) == 1 && Length(Num(Whole(1))) == 1
  {
  }

  lemma PlainWorkValues(id: ID, i: nat)
    requires |id| == 36 && i < 9
    ensures var e := WorkEntries(PlainWork(id)); e[i].1.Some? ==> Length(e[i].1.value) <= 300
  {
    SmallLengths();
    StrBound(id);
    StrBound("local");
    StrBound("job");
    StrBound("request");
    hide Length;
    assert Record(AttributionEntries(PlainWork(id).attribution)) == [];
    hide Record;
  }

  lemma ShortKeys()
    ensures |WORK_KEYS| == 9 && forall i | 0 <= i < 9 :: |WORK_KEYS[i]| <= 20
    ensures |ENVELOPE_KEYS| == 6 && forall i | 0 <= i < 6 :: |ENVELOPE_KEYS[i]| <= 20
  {
  }

  lemma WorkKeysAre(w: Work)
    ensures |WorkEntries(w)| == 9 && forall i | 0 <= i < 9 :: WorkEntries(w)[i].0 == WORK_KEYS[i]
  {
    hide Record;
  }

  lemma PlainWorkBound(id: ID)
    requires |id| == 36
    ensures Length(WorkOut(PlainWork(id))) <= 4000
  {
    var e := WorkEntries(PlainWork(id));
    WorkKeysAre(PlainWork(id));
    ShortKeys();
    hide Record, WorkEntries, EntryLength, FieldsLength, Length;
    forall i | 0 <= i < 9 ensures EntryLength(e[i]) <= 423 {
      PlainWorkValues(id, i);
      EntryBound(e[i].0, e[i].1);
    }
    RecordBound(e, 423, 9, 3807);
    ObjBound(Record(e), 9, 3807);
  }

  lemma ObjBound(fields: seq<Member>, n: nat, bound: nat)
    requires |fields| <= n && FieldsLength(fields) <= bound
    ensures Length(Obj(fields)) <= 2 + n + bound
  {
  }

  lemma EnvelopeKeysAre(id: string, name: string, occurredAt: Json, work: Work, payload: seq<Member>)
    ensures var e := CreateEntries(id, name, occurredAt, work, payload);
            |e| == 6 && forall i | 0 <= i < 6 :: e[i].0 == ENVELOPE_KEYS[i]
  {
    hide WorkOut;
  }

  lemma PlainEnvelopeValues(id: ID, payload: seq<Member>, i: nat)
    requires |id| == 36 && i < 6 && Length(Obj(payload)) <= 4000
    ensures Length(CreateEntries(id, "a.v1", Num(Whole(0)), PlainWork(id), payload)[i].1.GetOr(Null)) <= 4000
  {
    hide Length, WorkOut, PlainWork;
    SmallLengths();
    StrBound(id);
    StrBound("a.v1");
    PlainWorkBound(id);
    var e := CreateEntries(id, "a.v1", Num(Whole(0)), PlainWork(id), payload);
    assert e[0].1 == Some(Num(Whole(1))) && e[1].1 == Some(Str(id)) && e[2].1 == Some(Str("a.v1"));
    assert e[3].1 == Some(Num(Whole(0))) && e[4].1 == Some(WorkOut(PlainWork(id))) && e[5].1 == Some(Obj(payload));
  }

  lemma PlainEnvelopeBound(id: ID, payload: seq<Member>)
    requires |id| == 36 && Length(Obj(payload)) <= 4000
    ensures Length(Obj(CreateFields(id, "a.v1", Num(Whole(0)), PlainWork(id), payload))) <= MAX_BYTES
  {
    var e := CreateEntries(id, "a.v1", Num(Whole(0)), PlainWork(id), payload);
    EnvelopeKeysAre(id, "a.v1", Num(Whole(0)), PlainWork(id), payload);
    ShortKeys();
    hide Length, Record, WorkOut, CreateEntries, EntryLength, FieldsLength;
    forall i | 0 <= i < 6 ensures EntryLength(e[i]) <= 4200 {
      PlainEnvelopeValues(id, payload, i);
      EntryBound(e[i].0, e[i].1);
    }
    RecordBound(e, 4200, 6, 25200);
    ObjBound(Record(e), 6, 25200);
  }

  // The first id of a generator that starts at time zero with no entropy to speak of.
  function SomeId(): (id: ID)
    ensures ValidId(id) && |id| == 36
  {
    EncodedRoundTrip(0, 0, seq(10, _ => 0));
    EncodeV7(0, 0, seq(10, _ => 0))
  }

  lemma PlainEnvelope(id: ID, payload: seq<Member>)
    requires ValidId(id) && |id| == 36 && Length(Obj(payload)) <= 4000
    ensures ValidWork(PlainWork(id)) && Create(id, "a.v1", Num(Whole(0)), PlainWork(id), payload).Some?
    ensures Create(id, "a.v1", Num(Whole(0)), PlainWork(id), payload).value.id == id
  {
    PlainWorkValid(id);
    PlainEnvelopeBound(id, payload);
    TypeNameIs("a.v1", 1);
    assert OccurredAt(Some(Wire(Num(Whole(0)))));
    hide ValidWork, WorkOut, Length, CreateFields, TypeName, Create, Canonical, Lower, OccurredAt, PlainWork;
    CreateKeepsWork(id, "a.v1", Num(Whole(0)), PlainWork(id), payload);
  }

  /** Envelopes exist, with any small payload, so that nothing said of all of them is empty. */
  lemma SomeEnvelope(payload: seq<Member>) returns (e: Event)
    requires Length(Obj(payload)) <= 4000
    ensures Decode(e.bytes) == Some(e) && e.id == SomeId()
    ensures Part(e, "payload") == Some(Obj(WireFields(payload)))
  {
    hide ValidWork, Length, TypeName, Decode, SomeId, Part, WireFields, Create, PlainWork, ValidId;
    var id := SomeId();
    PlainEnvelope(id, payload);
    CreateKeepsContent(id, "a.v1", Num(Whole(0)), PlainWork(id), payload);
    CreatedIsFixed(id, "a.v1", Num(Whole(0)), PlainWork(id), payload);
    e := Create(id, "a.v1", Num(Whole(0)), PlainWork(id), payload).value;
  }

  lemma CreatedIsFixed(id: string, name: string, occurredAt: Json, work: Work, payload: seq<Member>)
    requires Create(id, name, occurredAt, work, payload).Some?
    ensures var e := Create(id, name, occurredAt, work, payload).value; Decode(e.bytes) == Some(e)
  {
    hide Decode, Length, CreateFields;
    NormalizationIsFixed(Stringify(Obj(CreateFields(id, name, occurredAt, work, payload))));
  }

  lemma TypeNameIs(s: string, i: nat)
    requires i + 3 <= |s| <= 128 && TypeNameAt(s, i)
    ensures TypeName(s)
  {
  }
}
