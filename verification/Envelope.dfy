/** The normalizing codec of durable event envelopes (src/shared/events/index.ts). */
module Envelope {
  import opened Wrappers
  import opened Identity
  import opened Provenance
  import opened Json

  const MAX_BYTES := 65536
  const MAX_OCCURRED := 253402300799999

  // ----- reading -----

  // v == null ? undefined : v
  function Present(v: Option<Json>): Option<Json> {
    if v == Some(Null) then None else v
  }

  function Fields(v: Option<Json>): Option<seq<Member>> {
    if v.Some? && v.value.Obj? then Some(v.value.fields) else None
  }

  function Text(v: Option<Json>): Option<string> {
    if v.Some? && v.value.Str? then Some(v.value.s) else None
  }

  function IdIn(v: Option<Json>): Option<ID> {
    var s :- Text(v);
    ParseId(s)
  }

  function ActorKindIn(s: string): Option<ActorKind> {
    if s == "user" then Some(User) else if s == "service" then Some(Service)
    else if s == "system" then Some(System) else None
  }

  // The inner option is `undefined`; the outer one is refusal.
  function ActorIn(v: Option<Json>): Option<Option<Actor>> {
    if Present(v).None? then Some(None)
    else
      var a :- Fields(v);
      var kind :- Text(Get(a, "kind"));
      var identity :- if Present(Get(a, "identity")).None? then Some("") else Text(Get(a, "identity"));
      if !OnlyKeys(a, ACTOR_KEYS) then None
      else if kind == "anonymous" then (if identity == "" then Some(Some(Anonymous)) else None)
      else
        var k :- ActorKindIn(kind);
        if IdentityValid(identity) then Some(Some(Named(k, identity))) else None
  }

  function RefIn(v: Option<Json>): Option<Option<Reference>> {
    if Present(v).None? then Some(None)
    else
      var r :- Fields(v);
      var kind :- Text(Get(r, "kind"));
      var k :- ParseKind(kind);
      var id :- IdIn(Get(r, "id"));
      if OnlyKeys(r, REF_KEYS) then Some(Some(Reference(k, id))) else None
  }

  function OriginIn(v: Option<Json>): Option<Option<Origin>> {
    if Present(v).None? then Some(None)
    else
      var s :- Text(v);
      if s == "request" then Some(Some(Request)) else if s == "schedule" then Some(Some(Schedule))
      else if s == "replay" then Some(Some(Replayed)) else if s == "backfill" then Some(Some(Backfill))
      else if s == "startup" then Some(Some(Startup)) else None
  }

  // A depth that is not an integer is refused by the work validator; -0 is the integer 0.
  function DepthIn(v: Option<Json>): Option<Option<int>> {
    if Present(v).None? then Some(None)
    else match v.value
      case Num(Whole(n)) => Some(Some(n))
      case Num(NegativeZero) => Some(Some(0))
      case _ => None
  }

  function SourceIn(v: Option<Json>): Option<CorrelationSource> {
    var s :- Text(v);
    if s == "local" then Some(Local) else if s == "external" then Some(External) else None
  }

  function TenantIn(v: Option<Json>): Option<Option<string>> {
    if Present(v).None? then Some(None)
    else
      var s :- Text(v);
      Some(Some(s))
  }

  const ATTRIBUTION_KEYS := ["initiator", "on_behalf_of", "tenant"]

  function AttributionIn(v: Option<Json>): Option<Attribution> {
    var a :- Fields(v);
    var initiator :- ActorIn(Get(a, "initiator"));
    var onBehalfOf :- ActorIn(Get(a, "on_behalf_of"));
    var tenant :- TenantIn(Get(a, "tenant"));
    var r := Attribution(initiator, onBehalfOf, tenant);
    if OnlyKeys(a, ATTRIBUTION_KEYS) && ValidAttribution(r) then Some(r) else None
  }

  const REPLAY_KEYS := ["run_id", "source"]

  function ReplayIn(v: Option<Json>): Option<Option<ReplayInfo>> {
    if Present(v).None? then Some(None)
    else
      var r :- Fields(v);
      var run :- IdIn(Get(r, "run_id"));
      var source :- RefIn(Get(r, "source"));
      if OnlyKeys(r, REPLAY_KEYS) && source.Some? then Some(Some(ReplayInfo(run, source.value))) else None
  }

  const WORK_KEYS :=
    ["work_id", "correlation_id", "correlation_source", "operation", "attribution",
     "causation", "origin", "depth", "replay"]

  function WorkIn(v: Option<Json>): Option<Work> {
    var w :- Fields(v);
    var workId :- IdIn(Get(w, "work_id"));
    var correlationId :- IdIn(Get(w, "correlation_id"));
    var source :- SourceIn(Get(w, "correlation_source"));
    var operation :- Text(Get(w, "operation"));
    var attribution :- AttributionIn(Get(w, "attribution"));
    var causation :- RefIn(Get(w, "causation"));
    var origin :- OriginIn(Get(w, "origin"));
    var depth :- DepthIn(Get(w, "depth"));
    var replay :- ReplayIn(Get(w, "replay"));
    var work := Work(workId, correlationId, source, causation, origin, operation, attribution, depth, replay);
    if OnlyKeys(w, WORK_KEYS) && RestoreWork(work).Ok? then Some(work) else None
  }

  // ----- writing -----

  function OptionalText(v: Option<string>): Option<Json> {
    match v case None => None case Some(s) => Some(Str(s))
  }

  const ACTOR_KEYS := ["kind", "identity"]

  function ActorEntries(a: Actor): seq<(string, Option<Json>)> {
    match a
    case Anonymous => [("kind", Some(Str("anonymous"))), ("identity", None)]
    case Named(kind, identity) =>
      var k := match kind case User => "user" case Service => "service" case System => "system";
      [("kind", Some(Str(k))), ("identity", Some(Str(identity)))]
  }

  function ActorOut(a: Option<Actor>): Option<Json> {
    match a case None => None case Some(actor) => Some(Obj(Record(ActorEntries(actor))))
  }

  const REF_KEYS := ["kind", "id"]

  function RefEntries(r: Reference): seq<(string, Option<Json>)> {
    var k := match r.kind case ScopeRef => "scope" case WorkRef => "work" case EventRef => "event";
    [("kind", Some(Str(k))), ("id", Some(Str(r.id)))]
  }

  function RefOut(r: Reference): Json {
    Obj(Record(RefEntries(r)))
  }

  function OriginOut(o: Option<Origin>): Option<Json> {
    match o
    case None => None
    case Some(Request) => Some(Str("request"))
    case Some(Schedule) => Some(Str("schedule"))
    case Some(Replayed) => Some(Str("replay"))
    case Some(Backfill) => Some(Str("backfill"))
    case Some(Startup) => Some(Str("startup"))
  }

  function SourceOut(c: CorrelationSource): Json {
    Str(if c.Local? then "local" else "external")
  }

  function DepthOut(d: Option<int>): Option<Json> {
    match d case None => None case Some(n) => Some(Num(Whole(n)))
  }

  function AttributionEntries(a: Attribution): seq<(string, Option<Json>)> {
    [("initiator", ActorOut(a.initiator)), ("on_behalf_of", ActorOut(a.onBehalfOf)), ("tenant", OptionalText(a.tenant))]
  }

  function ReplayEntries(r: ReplayInfo): seq<(string, Option<Json>)> {
    [("run_id", Some(Str(r.runId))), ("source", Some(RefOut(r.source)))]
  }

  function ReplayOut(r: ReplayInfo): Json {
    Obj(Record(ReplayEntries(r)))
  }

  function WorkEntries(w: Work): seq<(string, Option<Json>)> {
    [("work_id", Some(Str(w.workId))),
     ("correlation_id", Some(Str(w.correlationId))),
     ("correlation_source", Some(SourceOut(w.correlationSource))),
     ("operation", Some(Str(w.operation))),
     ("attribution", Some(Obj(Record(AttributionEntries(w.attribution))))),
     ("causation", match w.causation case None => None case Some(r) => Some(RefOut(r))),
     ("origin", OriginOut(w.origin)),
     ("depth", DepthOut(w.depth)),
     ("replay", match w.replay case None => None case Some(r) => Some(ReplayOut(r)))]
  }

  function WorkOut(w: Work): Json {
    Obj(Record(WorkEntries(w)))
  }

  // ----- round trip of the work -----

  lemma ActorFields(a: Actor)
    ensures var r, e := Record(ActorEntries(a)), ActorEntries(a);
            && Get(r, "kind") == e[0].1 && Get(r, "identity") == e[1].1
            && OnlyKeys(r, ACTOR_KEYS) && Wire(Obj(r)) == Obj(r)
  {
    var e := ActorEntries(a);
    RecordFacts(e, ACTOR_KEYS);
    hide Record, Get, OnlyKeys, Wire;
    assert Get(Record(e), e[0].0) == e[0].1 && Get(Record(e), e[1].0) == e[1].1;
  }

  lemma ActorRoundTrip(a: Option<Actor>)
    requires a.Some? ==> ValidActor(a.value)
    ensures ActorIn(ActorOut(a)) == Some(a)
    ensures ActorOut(a).Some? ==> Wire(ActorOut(a).value) == ActorOut(a).value
  {
    hide Record, Get, OnlyKeys, Wire, IdentityValid, ACTOR_KEYS;
    if a.Some? { ActorFields(a.value); }
  }

  lemma RefRoundTrip(r: Reference)
    requires ValidReference(r)
    ensures RefIn(Some(RefOut(r))) == Some(Some(r)) && Wire(RefOut(r)) == RefOut(r)
  {
    var e := RefEntries(r);
    RecordFacts(e, REF_KEYS);
    hide Record, Get, OnlyKeys, Wire;
    assert Get(Record(e), e[0].0) == e[0].1 && Get(Record(e), e[1].0) == e[1].1;
  }

  lemma ReplayRoundTrip(r: ReplayInfo)
    requires ValidId(r.runId) && ValidReference(r.source)
    ensures ReplayIn(Some(ReplayOut(r))) == Some(Some(r)) && Wire(ReplayOut(r)) == ReplayOut(r)
  {
    var e := ReplayEntries(r);
    RefRoundTrip(r.source);
    hide Record, Get, OnlyKeys, Wire, RefOut, RefIn;
    RecordFacts(e, REPLAY_KEYS);
    assert Get(Record(e), e[0].0) == e[0].1 && Get(Record(e), e[1].0) == e[1].1;
  }

  lemma AttributionFields(a: Attribution)
    requires ValidAttribution(a)
    ensures var r := Record(AttributionEntries(a));
            && Get(r, "initiator") == ActorOut(a.initiator) && Get(r, "on_behalf_of") == ActorOut(a.onBehalfOf)
            && Get(r, "tenant") == OptionalText(a.tenant)
            && OnlyKeys(r, ATTRIBUTION_KEYS) && Wire(Obj(r)) == Obj(r)
  {
    var e := AttributionEntries(a);
    ActorRoundTrip(a.initiator);
    ActorRoundTrip(a.onBehalfOf);
    hide Record, Get, OnlyKeys, ActorOut, ActorIn, IdentityValid;
    assert DistinctKeys(e);
    RecordFacts(e, ATTRIBUTION_KEYS);
    assert Get(Record(e), e[0].0) == e[0].1 && Get(Record(e), e[1].0) == e[1].1 && Get(Record(e), e[2].0) == e[2].1;
  }

  lemma AttributionRoundTrip(a: Attribution)
    requires ValidAttribution(a)
    ensures var out := Obj(Record(AttributionEntries(a)));
            AttributionIn(Some(out)) == Some(a) && Wire(out) == out
  {
    hide Record, Get, OnlyKeys, Wire, ActorOut, ActorIn, AttributionEntries, IdentityValid, ATTRIBUTION_KEYS,
         ValidActor;
    AttributionFields(a);
    ActorRoundTrip(a.initiator);
    ActorRoundTrip(a.onBehalfOf);
  }

  lemma WorkKeysDistinct(w: Work)
    ensures DistinctKeys(WorkEntries(w))
  {
    var e := WorkEntries(w);
    forall i, j | 0 <= i < j < 9
      ensures e[i].0 != e[j].0
    {
      assert e[i].0 == WORK_KEYS[i] && e[j].0 == WORK_KEYS[j];
      hide WorkEntries;
      assert |WORK_KEYS[i]| == |WORK_KEYS[j]| ==> WORK_KEYS[i][0] != WORK_KEYS[j][0];
    }
  }

  // What validity of a work says about its parts.
  lemma WorkParts(w: Work)
    requires ValidWork(w)
    ensures ValidId(w.workId) && ValidId(w.correlationId) && ValidAttribution(w.attribution)
    ensures w.causation.Some? ==> ValidReference(w.causation.value)
    ensures w.replay.Some? ==> ValidId(w.replay.value.runId) && ValidReference(w.replay.value.source)
  {
    hide ValidId, ValidAttribution, ValidOperation;
  }

  lemma WorkPlain(w: Work)
    requires ValidWork(w)
    ensures Plain(WorkEntries(w))
  {
    hide Record, RefOut, RefIn, ReplayOut, ReplayIn, AttributionEntries, AttributionIn, ValidAttribution, ValidId,
         ValidWork, ValidReference;
    WorkParts(w);
    AttributionRoundTrip(w.attribution);
    if w.causation.Some? { RefRoundTrip(w.causation.value); }
    if w.replay.Some? { ReplayRoundTrip(w.replay.value); }
  }

  lemma WorkFields(w: Work)
    requires ValidWork(w)
    ensures var r, e := Record(WorkEntries(w)), WorkEntries(w);
            && (forall i | 0 <= i < 9 :: Get(r, e[i].0) == e[i].1)
            && OnlyKeys(r, WORK_KEYS) && Wire(WorkOut(w)) == WorkOut(w)
  {
    var e := WorkEntries(w);
    WorkKeysDistinct(w);
    WorkPlain(w);
    assert forall i | 0 <= i < 9 :: e[i].0 == WORK_KEYS[i];
    hide Record, Get, OnlyKeys, Wire, Plain, DistinctKeys, WorkEntries;
    RecordFacts(e, WORK_KEYS);
  }

  lemma ScalarRoundTrip(w: Work)
    ensures SourceIn(Some(SourceOut(w.correlationSource))) == Some(w.correlationSource)
    ensures OriginIn(OriginOut(w.origin)) == Some(w.origin)
    ensures DepthIn(DepthOut(w.depth)) == Some(w.depth)
    ensures Text(Some(Str(w.operation))) == Some(w.operation)
    ensures ValidId(w.workId) ==> IdIn(Some(Str(w.workId))) == Some(w.workId)
    ensures ValidId(w.correlationId) ==> IdIn(Some(Str(w.correlationId))) == Some(w.correlationId)
  {
    hide ParseId;
  }

  lemma WorkReadsScalars(w: Work)
    requires ValidWork(w)
    ensures var r := Record(WorkEntries(w));
            && IdIn(Get(r, "work_id")) == Some(w.workId)
            && IdIn(Get(r, "correlation_id")) == Some(w.correlationId)
            && SourceIn(Get(r, "correlation_source")) == Some(w.correlationSource)
            && Text(Get(r, "operation")) == Some(w.operation)
            && OriginIn(Get(r, "origin")) == Some(w.origin)
            && DepthIn(Get(r, "depth")) == Some(w.depth)
  {
    hide Record, Get, OnlyKeys, Wire, RefOut, ReplayOut, AttributionEntries, AttributionIn, ValidWork,
         ValidReference, ValidAttribution, WORK_KEYS, ValidId, IdIn, SourceIn, SourceOut, OriginIn, OriginOut, DepthIn,
         DepthOut, Text;
    WorkFields(w);
    WorkParts(w);
    ScalarRoundTrip(w);
    var r, e := Record(WorkEntries(w)), WorkEntries(w);
    assert Get(r, e[0].0) == e[0].1 && Get(r, e[1].0) == e[1].1 && Get(r, e[2].0) == e[2].1;
    assert Get(r, e[3].0) == e[3].1 && Get(r, e[6].0) == e[6].1 && Get(r, e[7].0) == e[7].1;
  }

  lemma WorkReadsParts(w: Work)
    requires ValidWork(w)
    ensures var r := Record(WorkEntries(w));
            && AttributionIn(Get(r, "attribution")) == Some(w.attribution)
            && RefIn(Get(r, "causation")) == Some(w.causation)
            && ReplayIn(Get(r, "replay")) == Some(w.replay)
  {
    hide Record, Get, OnlyKeys, Wire, RefOut, ReplayOut, AttributionEntries, AttributionIn, ValidWork,
         ValidReference, ValidAttribution;
    WorkFields(w);
    WorkParts(w);
    AttributionRoundTrip(w.attribution);
    if w.causation.Some? { RefRoundTrip(w.causation.value); }
    if w.replay.Some? { ReplayRoundTrip(w.replay.value); }
    var r, e := Record(WorkEntries(w)), WorkEntries(w);
    assert Get(r, e[4].0) == e[4].1 && Get(r, e[5].0) == e[5].1 && Get(r, e[8].0) == e[8].1;
  }

  /** Reading back what was written is the identity on every valid work, and what is written prints
      without loss. */
  lemma WorkRoundTrip(w: Work)
    requires ValidWork(w)
    ensures WorkIn(Some(WorkOut(w))) == Some(w) && Wire(WorkOut(w)) == WorkOut(w)
  {
    WorkReadsScalars(w);
    WorkReadsParts(w);
    WorkFields(w);
    assert RestoreWork(w).Ok?;
    hide Record, Get, OnlyKeys, Wire, RefIn, ReplayIn, AttributionIn, IdIn, SourceIn, OriginIn, DepthIn,
         WorkEntries, RestoreWork, ValidWork;
  }

  // ----- the envelope -----

  predicate TypeChar(c: char) {
    'a' <= c <= 'z' || '0' <= c <= '9' || c in "_.-"
  }

  // One to 120 type characters, then ".v" and a version of one to six digits without leading zero.
  predicate TypeNameAt(s: string, i: nat)
    requires i + 3 <= |s|
  {
    && 1 <= i <= 120 && (forall k | 0 <= k < i :: TypeChar(s[k]))
    && s[i] == '.' && s[i + 1] == 'v' && '1' <= s[i + 2] <= '9'
    && |s| <= i + 8 && (forall k | i + 3 <= k < |s| :: '0' <= s[k] <= '9')
  }

  predicate TypeName(s: string) {
    |s| <= 128 && exists i | 0 <= i <= |s| - 3 :: TypeNameAt(s, i)
  }

  predicate OccurredAt(v: Option<Json>) {
    match v
    case Some(Num(Whole(n))) => 0 <= n <= MAX_OCCURRED
    case Some(Num(NegativeZero)) => true
    case _ => false
  }

  const ENVELOPE_KEYS := ["v", "id", "type", "occurred_at_ms", "work", "payload"]

  predicate WellFormed(w: seq<Member>) {
    && |w| == 6 && (forall i | 0 <= i < 6 :: Get(w, ENVELOPE_KEYS[i]).Some?)
    && Get(w, "v") == Some(Num(Whole(1)))
    && Text(Get(w, "type")).Some? && TypeName(Text(Get(w, "type")).value)
    && OccurredAt(Get(w, "occurred_at_ms"))
    && Fields(Get(w, "payload")).Some?
  }

  datatype Event = Event(id: ID, bytes: Bytes, work: Work)

  // The envelope's fields with the parsed id and the re-written work in place.
  function Normalized(w: seq<Member>, id: ID, work: Work): seq<Member> {
    Put(Put(w, "id", Str(id)), "work", WorkOut(work))
  }

  function Decode(raw: Bytes): Option<Event> {
    if raw.length > MAX_BYTES then None
    else
      var w :- Fields(raw.tree);
      if !WellFormed(w) then None
      else
        var id :- IdIn(Get(w, "id"));
        var work :- WorkIn(Get(w, "work"));
        var normalized := Stringify(Obj(Normalized(w, id, work)));
        if normalized.length > MAX_BYTES then None else Some(Event(id, normalized, work))
  }

  function CreateEntries(id: string, name: string, occurredAt: Json, work: Work, payload: seq<Member>)
    : seq<(string, Option<Json>)>
  {
    [("v", Some(Num(Whole(1)))), ("id", Some(Str(id))), ("type", Some(Str(name))),
     ("occurred_at_ms", Some(occurredAt)), ("work", Some(WorkOut(work))), ("payload", Some(Obj(payload)))]
  }

  function CreateFields(id: string, name: string, occurredAt: Json, work: Work, payload: seq<Member>): seq<Member> {
    Record(CreateEntries(id, name, occurredAt, work, payload))
  }

  function Create(id: string, name: string, occurredAt: Json, work: Work, payload: seq<Member>): Option<Event> {
    Decode(Stringify(Obj(CreateFields(id, name, occurredAt, work, payload))))
  }

  // What a decoded envelope is made of.
  lemma Decoded(raw: Bytes)
    requires Decode(raw).Some?
    ensures raw.tree.Some? && raw.tree.value.Obj? && WellFormed(raw.tree.value.fields)
    ensures var e, w := Decode(raw).value, raw.tree.value.fields;
            && ValidId(e.id) && ValidWork(e.work)
            && e.bytes == Stringify(Obj(Normalized(w, e.id, e.work))) && e.bytes.length <= MAX_BYTES
  {
    hide WellFormed, Normalized, ValidWork, RestoreWork;
    var w := raw.tree.value.fields;
    IdInValid(Get(w, "id"));
    WorkInValid(Get(w, "work"));
  }

  lemma IdInValid(v: Option<Json>)
    requires IdIn(v).Some?
    ensures ValidId(IdIn(v).value) && Wire(v.value) == v.value
  {
    ParsedIsValid(v.value.s);
  }

  lemma WorkInValid(v: Option<Json>)
    requires WorkIn(v).Some?
    ensures ValidWork(WorkIn(v).value)
  {
    hide IdIn, AttributionIn, RefIn, ReplayIn, OriginIn, DepthIn, SourceIn, Text, ValidateWork;
  }

  lemma WellFormedWire(w: seq<Member>)
    requires WellFormed(w)
    ensures WellFormed(WireFields(w))
  {
    forall i | 0 <= i < 6 { GetAfterWire(w, ENVELOPE_KEYS[i]); }
    hide Get, TypeName, WireFields;
    assert Get(w, ENVELOPE_KEYS[0]).Some? && Get(w, ENVELOPE_KEYS[2]).Some? && Get(w, ENVELOPE_KEYS[3]).Some?
           && Get(w, ENVELOPE_KEYS[5]).Some?;
  }

  lemma WellFormedNormalized(w: seq<Member>, id: ID, work: Work)
    requires WellFormed(w)
    ensures var n := Normalized(w, id, work);
            WellFormed(n) && Get(n, "id") == Some(Str(id)) && Get(n, "work") == Some(WorkOut(work))
  {
    var m := Put(w, "id", Str(id));
    assert Get(w, ENVELOPE_KEYS[1]).Some? && Get(w, ENVELOPE_KEYS[4]).Some?;
    forall i | 0 <= i < 6 {
      GetAfterPut(w, "id", Str(id), ENVELOPE_KEYS[i]);
    }
    hide Get, TypeName, Put, WorkOut;
    assert Get(m, ENVELOPE_KEYS[4]).Some?;
    forall i | 0 <= i < 6 {
      GetAfterPut(m, "work", WorkOut(work), ENVELOPE_KEYS[i]);
    }
    assert forall i | 0 <= i < 6 :: Get(m, ENVELOPE_KEYS[i]).Some?;
    assert Get(m, ENVELOPE_KEYS[0]) == Get(w, ENVELOPE_KEYS[0]) && Get(m, ENVELOPE_KEYS[2]) == Get(w, ENVELOPE_KEYS[2])
           && Get(m, ENVELOPE_KEYS[3]) == Get(w, ENVELOPE_KEYS[3])
           && Get(m, ENVELOPE_KEYS[5]) == Get(w, ENVELOPE_KEYS[5]);
  }

  /** Normalization is a fixed point: an accepted envelope decodes from its own bytes to itself, with
      the same id, work and bytes. */
  lemma NormalizationIsFixed(raw: Bytes)
    requires Decode(raw).Some?
    ensures Decode(Decode(raw).value.bytes) == Decode(raw)
  {
    Decoded(raw);
    var w, e := raw.tree.value.fields, Decode(raw).value;
    var n := Normalized(w, e.id, e.work);
    WellFormedNormalized(w, e.id, e.work);
    var again := WireFields(n);
    WellFormedWire(n);
    GetAfterWire(n, "id");
    GetAfterWire(n, "work");
    WorkRoundTrip(e.work);
    hide WellFormed, Get, Put, WorkOut, WorkIn, ValidWork, Decode, WireFields, Length;
    PutSame(again, "id", Str(e.id));
    PutSame(again, "work", WorkOut(e.work));
    assert Normalized(again, e.id, e.work) == again;
    StringifyTwice(Obj(n));
    DecodeFields(e.bytes, again, e.id, e.work);
  }

  lemma DecodeFields(raw: Bytes, w: seq<Member>, id: ID, work: Work)
    requires raw.tree == Some(Obj(w)) && WellFormed(w)
    requires IdIn(Get(w, "id")) == Some(id) && WorkIn(Get(w, "work")) == Some(work)
    ensures Decode(raw) ==
            var n := Stringify(Obj(Normalized(w, id, work)));
            if raw.length > MAX_BYTES || n.length > MAX_BYTES then None else Some(Event(id, n, work))
  {
    hide WellFormed, Get, Normalized, Stringify, IdIn, WorkIn;
  }

  lemma CreatedGets(id: string, name: string, occurredAt: Json, work: Work, payload: seq<Member>)
    requires ValidWork(work)
    ensures var w := WireFields(CreateFields(id, name, occurredAt, work, payload));
            && |w| == 6
            && Get(w, "v") == Some(Num(Whole(1))) && Get(w, "id") == Some(Str(id)) && Get(w, "type") == Some(Str(name))
            && Get(w, "occurred_at_ms") == Some(Wire(occurredAt)) && Get(w, "work") == Some(WorkOut(work))
            && Get(w, "payload") == Some(Obj(WireFields(payload)))
  {
    hide ValidWork, WorkOut, Record, Get, WireFields;
    var e := CreateEntries(id, name, occurredAt, work, payload);
    var f := CreateFields(id, name, occurredAt, work, payload);
    WorkRoundTrip(work);
    assert DistinctKeys(e);
    RecordLength(e);
    forall i | 0 <= i < 6
      ensures Get(WireFields(f), e[i].0) == Some(Wire(e[i].1.value))
    {
      GetFromRecord(e, i);
      GetAfterWire(f, e[i].0);
    }
    assert Get(WireFields(f), e[0].0) == Some(Wire(e[0].1.value))
           && Get(WireFields(f), e[1].0) == Some(Wire(e[1].1.value));
    assert Get(WireFields(f), e[2].0) == Some(Wire(e[2].1.value))
           && Get(WireFields(f), e[3].0) == Some(Wire(e[3].1.value));
    assert Get(WireFields(f), e[4].0) == Some(Wire(e[4].1.value))
           && Get(WireFields(f), e[5].0) == Some(Wire(e[5].1.value));
  }

  lemma {:induction false} AsciiLength(s: string)
    requires forall i | 0 <= i < |s| :: CharLength(s[i]) == 1
    ensures CharsLength(s) == |s|
  {
    if s == "" {
    } else {
      AsciiLength(s[1..]);
    }
  }

  lemma LowerLength(id: string)
    requires Canonical(id)
    ensures CharsLength(Lower(id)) == CharsLength(id)
  {
    AsciiLength(id);
    AsciiLength(Lower(id));
  }

  // Lower-casing an id does not change the length of the printed envelope.
  lemma SameLength(w: seq<Member>, id: string, work: Work)
    requires ParseId(id).Some? && Get(w, "id") == Some(Str(id)) && Get(w, "work") == Some(WorkOut(work))
    ensures Length(Obj(Normalized(w, ParseId(id).value, work))) == Length(Obj(w))
  {
    var lower := Lower(id);
    LowerLength(id);
    hide Get, Put, WorkOut, Canonical, Lower;
    PutLength(w, "id", Str(lower));
    GetAfterPut(w, "id", Str(lower), "work");
    PutSame(Put(w, "id", Str(lower)), "work", WorkOut(work));
  }

  // An integer time up to the end of the year 9999.
  predicate InRange(occurredAt: Json) {
    occurredAt == Num(NegativeZero)
    || (occurredAt.Num? && occurredAt.x.Whole? && 0 <= occurredAt.x.n <= 253402300799999)
  }

  lemma TimesInRange(occurredAt: Json)
    ensures OccurredAt(Some(Wire(occurredAt))) <==> InRange(occurredAt)
  {
  }

  /** Creation keeps the producer's work and id, and succeeds on exactly the inputs within bounds. */
  lemma CreateKeepsWork(id: string, name: string, occurredAt: Json, work: Work, payload: seq<Member>)
    requires ValidWork(work)
    ensures var r := Create(id, name, occurredAt, work, payload);
            && (r.Some? <==>
                  && ParseId(id).Some? && TypeName(name) && InRange(occurredAt)
                  && Length(Obj(CreateFields(id, name, occurredAt, work, payload))) <= 65536)
            && (r.Some? ==> r.value.work == work && Some(r.value.id) == ParseId(id))
  {
    var f := CreateFields(id, name, occurredAt, work, payload);
    var w := WireFields(f);
    var raw := Stringify(Obj(f));
    assert raw.tree == Some(Obj(w)) && raw.length == Length(Obj(f));
    assert IdIn(Some(Str(id))) == ParseId(id);
    hide ValidWork, WorkOut, WorkIn, CreateFields, Get, WireFields, Wire, TypeName, OccurredAt, Normalized, WellFormed,
         ParseId, Length, Decode, IdIn;
    TimesInRange(occurredAt);
    CreatedGets(id, name, occurredAt, work, payload);
    WorkRoundTrip(work);
    LengthOfWire(Obj(f));
    assert Wire(Obj(f)) == Obj(w) by { WireOfObject(f); }
    CreatedWellFormed(w, name, occurredAt, WorkOut(work), payload);
    if WellFormed(w) && ParseId(id).Some? {
      SameLength(w, id, work);
      DecodeFields(raw, w, ParseId(id).value, work);
    } else {
      DecodeRefuses(raw, w);
    }
  }

  lemma WireOfObject(f: seq<Member>)
    ensures Wire(Obj(f)) == Obj(WireFields(f))
  {
  }

  lemma DecodeRefuses(raw: Bytes, w: seq<Member>)
    requires raw.tree == Some(Obj(w))
    requires !WellFormed(w) || IdIn(Get(w, "id")).None?
    ensures Decode(raw).None?
  {
    hide WellFormed, Get, Normalized, Stringify, IdIn, WorkIn;
  }

  lemma CreatedWellFormed(w: seq<Member>, name: string, occurredAt: Json, work: Json, payload: seq<Member>)
    requires |w| == 6 && Get(w, "v") == Some(Num(Whole(1))) && Get(w, "id").Some? && Get(w, "type") == Some(Str(name))
    requires Get(w, "occurred_at_ms") == Some(Wire(occurredAt)) && Get(w, "work") == Some(work)
    requires Get(w, "payload") == Some(Obj(WireFields(payload)))
    ensures WellFormed(w) <==> TypeName(name) && OccurredAt(Some(Wire(occurredAt)))
  {
    hide Get, TypeName, OccurredAt, Wire, WireFields;
  }
}
