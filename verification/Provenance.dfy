/** Values, validators and transitions of execution provenance (src/shared/provenance). */
module Provenance {
  import opened Wrappers
  import opened Identity

  const MAX_U32 := 4294967295

  // ----- values -----

  datatype ActorKind = User | Service | System

  datatype Actor = Anonymous | Named(kind: ActorKind, identity: string)

  predicate IdentityChar(c: char) {
    'A' <= c <= 'Z' || 'a' <= c <= 'z' || '0' <= c <= '9' || c in "._:/-"
  }

  predicate IdentityValid(s: string) {
    1 <= |s| <= 128 && forall i | 0 <= i < |s| :: IdentityChar(s[i])
  }

  // Actors that the constructor `actor` can build.
  predicate ValidActor(a: Actor) {
    a.Named? ==> IdentityValid(a.identity)
  }

  predicate NamedActor(a: Actor) {
    ValidActor(a) && a.Named?
  }

  datatype Attribution = Attribution(initiator: Option<Actor>, onBehalfOf: Option<Actor>, tenant: Option<string>)

  // Attributions that the constructor `attribution` can build.
  predicate ValidAttribution(a: Attribution) {
    && (a.initiator.Some? ==> ValidActor(a.initiator.value))
    && (a.onBehalfOf.Some? ==>
          && a.initiator.Some? && NamedActor(a.initiator.value) && NamedActor(a.onBehalfOf.value)
          && a.initiator != a.onBehalfOf)
    && (a.tenant.Some? ==> IdentityValid(a.tenant.value))
  }

  predicate OperationChar(c: char) {
    'a' <= c <= 'z' || '0' <= c <= '9' || c in "_.:-"
  }

  predicate ValidOperation(s: string) {
    && 1 <= |s| <= 128 && 'a' <= s[0] <= 'z'
    && forall i | 1 <= i < |s| :: OperationChar(s[i])
  }

  datatype RefKind = ScopeRef | WorkRef | EventRef

  datatype Reference = Reference(kind: RefKind, id: ID)

  predicate ValidReference(r: Reference) {
    ValidId(r.id)
  }

  datatype Origin = Request | Schedule | Replayed | Backfill | Startup

  datatype CorrelationSource = Local | External

  datatype ReplayInfo = ReplayInfo(runId: ID, source: Reference)

  datatype Work = Work(
    workId: ID, correlationId: ID, correlationSource: CorrelationSource, causation: Option<Reference>,
    origin: Option<Origin>, operation: string, attribution: Attribution, depth: Option<int>,
    replay: Option<ReplayInfo>)

  // Work whose generated ids may still be missing.
  datatype DraftReplay = DraftReplay(runId: Option<ID>, source: Reference)

  datatype Draft = Draft(
    workId: Option<ID>, correlationId: Option<ID>, correlationSource: CorrelationSource,
    causation: Option<Reference>, origin: Option<Origin>, operation: string, attribution: Attribution,
    depth: Option<int>, replay: Option<DraftReplay>)

  datatype Scope = Scope(
    work: Work, scopeId: ID, startedAt: int, executor: Actor, attempt: int, previousAttempt: Option<ID>)

  datatype Code =
    | InvalidActor | InvalidAttempt | InvalidAttribution | InvalidDepth | InvalidOperation | InvalidOrigin
    | InvalidReference | InvalidScope | InvalidTime | InvalidWork | AttemptExhausted | DepthExhausted

  datatype Failure = Invalid(code: Code) | InvalidGeneratedId | NoId(error: IdError)

  function AsDraft(w: Work): Draft {
    Draft(Some(w.workId), Some(w.correlationId), w.correlationSource, w.causation, w.origin, w.operation,
          w.attribution, w.depth,
          if w.replay.Some? then Some(DraftReplay(Some(w.replay.value.runId), w.replay.value.source)) else None)
  }

  // ----- validation -----

  // None when the draft is valid; `defaults` lets generated ids be missing.
  function ValidateWork(w: Draft, defaults: bool): Option<Code> {
    if (if w.workId.None? then !defaults else !ValidId(w.workId.value))
       || (if w.correlationId.None? then !defaults else !ValidId(w.correlationId.value)) then Some(InvalidWork)
    else if !ValidOperation(w.operation) then Some(InvalidOperation)
    else if !ValidAttribution(w.attribution) then Some(InvalidAttribution)
    else if w.replay.Some? != (w.origin == Some(Replayed)) then Some(InvalidOrigin)
    else if w.causation.Some? && !ValidReference(w.causation.value) then Some(InvalidReference)
    else if w.causation.Some? && w.causation.value.kind.WorkRef? && Some(w.causation.value.id) == w.workId then
      Some(InvalidWork)
    else if w.depth.Some?
            && (w.depth.value < 0 || w.depth.value > MAX_U32
                || (w.correlationSource.Local? && w.depth.value == 0 && w.causation.Some?)
                || (w.depth.value > 0 && w.causation.None?)) then Some(InvalidDepth)
    else if w.replay.Some?
            && (!ValidReference(w.replay.value.source)
                || (if w.replay.value.runId.None? then !defaults else !ValidId(w.replay.value.runId.value))) then
      Some(InvalidReference)
    else if w.replay.Some? && w.replay.value.source.kind.WorkRef? && Some(w.replay.value.source.id) == w.workId then
      Some(InvalidWork)
    else None
  }

  predicate ValidWork(w: Work) {
    ValidateWork(AsDraft(w), false).None?
  }

  function RestoreWork(w: Work): Result<Work, Failure> {
    match ValidateWork(AsDraft(w), false)
    case Some(code) => Err(Invalid(code))
    case None => Ok(w)
  }

  predicate ValidTime(r: Reading) {
    r.Millis? && 0 <= r.ms <= MAX_MS
  }

  function RestoreScope(s: Scope): Result<Scope, Failure> {
    if !ValidId(s.scopeId) then Err(Invalid(InvalidScope))
    else
      var _ :- RestoreWork(s.work);
      if !NamedActor(s.executor) then Err(Invalid(InvalidActor))
      else if s.attempt < 1 || s.attempt > MAX_U32 then Err(Invalid(InvalidAttempt))
      else if s.previousAttempt.Some?
              && (!ValidId(s.previousAttempt.value) || s.previousAttempt.value == s.scopeId || s.attempt == 1) then
        Err(Invalid(InvalidScope))
      else if s.work.causation == Some(Reference(ScopeRef, s.scopeId)) then Err(Invalid(InvalidScope))
      else if !ValidTime(Millis(s.startedAt)) then Err(Invalid(InvalidTime))
      else Ok(s)
  }

  predicate ValidScope(s: Scope) {
    RestoreScope(s) == Ok(s)
  }

  // ----- the factory's one way to build a scope -----

  // What `#emit` has to check before it spends an id.
  function EmitPrecheck(w: Draft, executor: Actor, attempt: int, clock: Reading): Option<Failure> {
    if !NamedActor(executor) then Some(Invalid(InvalidActor))
    else if attempt < 1 || attempt > MAX_U32 then Some(Invalid(InvalidAttempt))
    else match ValidateWork(w, true)
      case Some(code) => Some(Invalid(code))
      case None => if ValidTime(clock) then None else Some(Invalid(InvalidTime))
  }

  // The draft with its missing ids defaulted to the scope id.
  function Fill(w: Draft, id: ID): Work {
    Work(w.workId.GetOr(id), w.correlationId.GetOr(id), w.correlationSource, w.causation, w.origin, w.operation,
         w.attribution, w.depth,
         if w.replay.Some? then Some(ReplayInfo(w.replay.value.runId.GetOr(id), w.replay.value.source)) else None)
  }

  // `#emit` once an id is there.
  function Build(w: Draft, executor: Actor, attempt: int, previous: Option<ID>, forbidden: set<ID>, ms: int, id: ID)
    : Result<Scope, Failure>
  {
    if !ValidId(id) || id in forbidden then Err(InvalidGeneratedId)
    else match RestoreScope(Scope(Fill(w, id), id, ms, executor, attempt, previous))
      case Ok(s) => Ok(s)
      case Err(_) => Err(InvalidGeneratedId)
  }

  // The finitely many ids that a draft cannot take.
  function Collisions(w: Draft, previous: Option<ID>, forbidden: set<ID>): set<ID> {
    forbidden
    + (if previous.Some? then {previous.value} else {})
    + (if w.causation.Some? && (w.causation.value.kind.ScopeRef? || (w.causation.value.kind.WorkRef? && w.workId.None?))
       then {w.causation.value.id} else {})
    + (if w.replay.Some? && w.replay.value.source.kind.WorkRef? && w.workId.None?
       then {w.replay.value.source.id} else {})
  }

  /** Two-phase validation is complete: after the checks that need no id have passed, building
      fails on exactly the malformed ids and the explicit collisions. */
  lemma EmitComplete(w: Draft, executor: Actor, attempt: int, previous: Option<ID>, forbidden: set<ID>,
                     clock: Reading, id: ID)
    requires EmitPrecheck(w, executor, attempt, clock).None?
    requires previous.Some? ==> ValidId(previous.value) && attempt > 1
    ensures Build(w, executor, attempt, previous, forbidden, clock.ms, id).Ok? <==>
            ValidId(id) && id !in Collisions(w, previous, forbidden)
    ensures Build(w, executor, attempt, previous, forbidden, clock.ms, id).Err? ==>
            Build(w, executor, attempt, previous, forbidden, clock.ms, id) == Err(InvalidGeneratedId)
  {
    hide ValidId, ValidOperation, ValidAttribution, IdentityValid;
    if ValidId(id) {
      FillValid(w, id);
    }
  }

  lemma FillValid(w: Draft, id: ID)
    requires ValidateWork(w, true).None? && ValidId(id)
    ensures ValidWork(Fill(w, id)) <==>
            (w.workId.None? ==>
               && w.causation != Some(Reference(WorkRef, id))
               && (w.replay.Some? ==> w.replay.value.source != Reference(WorkRef, id)))
  {
    hide ValidId, ValidOperation, ValidAttribution;
  }

  // ----- incoming hints -----

  datatype HintedCause = NoCause | Cause(kind: string, id: string)

  datatype Hints = Hints(correlation: Option<string>, causation: Option<HintedCause>)

  datatype Disposition = Fresh | Continued | Restarted

  datatype HintField = Correlation | Causation

  datatype Reason = BadId | BadKind | MissingCorrelation

  datatype Incoming = Incoming(
    decision: Disposition, correlation: Option<ID>, cause: Option<Reference>, issues: seq<(HintField, Reason)>)

  function ParseKind(kind: string): Option<RefKind> {
    if kind == "scope" then Some(ScopeRef)
    else if kind == "work" then Some(WorkRef)
    else if kind == "event" then Some(EventRef)
    else None
  }

  // Incoming values that inspection can produce.
  predicate ValidIncoming(i: Incoming) {
    && (i.decision.Continued? <==> i.correlation.Some?)
    && (i.correlation.Some? ==> ValidId(i.correlation.value))
    && (i.cause.Some? ==> i.correlation.Some? && ValidReference(i.cause.value))
  }

  function HintedReference(c: HintedCause): Option<Reference> {
    if c.Cause? && ParseKind(c.kind).Some? && ParseId(c.id).Some?
    then Some(Reference(ParseKind(c.kind).value, ParseId(c.id).value)) else None
  }

  /** Classification of public hints: a hint is adopted exactly when it parses (and, for a cause,
      when a correlation was adopted too); every hint that is not adopted leaves one issue. */
  method InspectIncoming(h: Hints) returns (r: Incoming)
    ensures ValidIncoming(r)
    ensures r.correlation == (if h.correlation.Some? then ParseId(h.correlation.value) else None)
    ensures r.decision.Fresh? <==> h.correlation.None? && h.causation.None?
    ensures r.cause == if h.causation.Some? && r.correlation.Some? then HintedReference(h.causation.value) else None
    ensures (Correlation, BadId) in r.issues <==> h.correlation.Some? && r.correlation.None?
    ensures (exists reason :: (Causation, reason) in r.issues) <==> h.causation.Some? && r.cause.None?
    ensures (Causation, BadKind) in r.issues <==>
            h.causation.Some? && (h.causation.value.NoCause? || ParseKind(h.causation.value.kind).None?)
    ensures (Causation, BadId) in r.issues <==>
            && h.causation.Some? && h.causation.value.Cause? && ParseKind(h.causation.value.kind).Some?
            && ParseId(h.causation.value.id).None?
    ensures (Causation, MissingCorrelation) in r.issues <==>
            h.causation.Some? && HintedReference(h.causation.value).Some? && r.correlation.None?
    ensures r.cause.Some? ==>
              h.causation.value.kind
              == (match r.cause.value.kind case ScopeRef => "scope" case WorkRef => "work" case EventRef => "event")
    ensures (Causation, BadKind) in r.issues ==>
              h.causation.value.NoCause? || h.causation.value.kind !in ["scope", "work", "event"]
    ensures |r.issues| <= 2 && (|r.issues| == 2 ==> r.issues[0] == (Correlation, BadId))
  {
    var decision := Fresh;
    var correlation: Option<ID> := None;
    var cause: Option<Reference> := None;
    var issues: seq<(HintField, Reason)> := [];
    if h.correlation.None? && h.causation.None? {
      return Incoming(decision, correlation, cause, issues);
    }
    decision := Restarted;
    if h.correlation.Some? {
      var p := ParseId(h.correlation.value);
      if p.Some? {
        ParsedIsValid(h.correlation.value);
        correlation := p;
        decision := Continued;
      } else {
        issues := issues + [(Correlation, BadId)];
      }
    }
    ghost var before := issues;
    if h.causation.Some? {
      var c := h.causation.value;
      if c.NoCause? || ParseKind(c.kind).None? {
        issues := issues + [(Causation, BadKind)];
      } else {
        var p := ParseId(c.id);
        if p.None? {
          issues := issues + [(Causation, BadId)];
        } else if correlation.None? {
          issues := issues + [(Causation, MissingCorrelation)];
        } else {
          ParsedIsValid(c.id);
          cause := Some(Reference(ParseKind(c.kind).value, p.value));
        }
      }
    }
    assert |issues| > |before| ==> issues[|before|] in issues;
    r := Incoming(decision, correlation, cause, issues);
  }

  // ----- transitions: what each one asks `#emit` to build -----

  datatype RootSpec = RootSpec(
    workId: Option<ID>, origin: Origin, operation: string, attribution: Attribution, executor: Actor)

  datatype StepSpec = StepSpec(workId: Option<ID>, operation: string, executor: Actor, cause: Option<Reference>)

  datatype WorkSpec = WorkSpec(workId: ID, operation: string, cause: Option<Reference>)

  datatype ReplaySpec = ReplaySpec(
    source: Reference, runId: Option<ID>, workId: Option<ID>, operation: string, attribution: Attribution,
    executor: Actor)

  datatype Emission = Emission(
    draft: Draft, executor: Actor, attempt: int, previous: Option<ID>, forbidden: set<ID>)

  function RootWork(s: RootSpec): Result<Draft, Failure> {
    if s.origin.Replayed? then Err(Invalid(InvalidOrigin))
    else if s.workId.Some? && !ValidId(s.workId.value) then Err(Invalid(InvalidWork))
    else Ok(Draft(s.workId, None, Local, None, Some(s.origin), s.operation, s.attribution, Some(0), None))
  }

  function ChildWork(parent: Scope, workId: Option<ID>, operation: string, cause: Option<Reference>)
    : Result<Draft, Failure>
    requires ValidScope(parent)
  {
    if workId.Some? && (!ValidId(workId.value) || workId.value == parent.work.workId) then Err(Invalid(InvalidWork))
    else if parent.work.depth == Some(MAX_U32) then Err(Invalid(DepthExhausted))
    else
      var w := AsDraft(parent.work).(
        workId := workId, operation := operation,
        depth := if parent.work.depth.Some? then Some(parent.work.depth.value + 1) else None,
        causation := if cause.None? then Some(Reference(ScopeRef, parent.scopeId)) else cause);
      match ValidateWork(w, true)
      case Some(code) => Err(Invalid(code))
      case None => Ok(w)
  }

  function Prepare(parent: Scope, s: WorkSpec): Result<Work, Failure>
    requires ValidScope(parent)
  {
    if !ValidId(s.workId) then Err(Invalid(InvalidWork))
    else
      var w :- ChildWork(parent, Some(s.workId), s.operation, s.cause);
      RestoreWork(Fill(w, s.workId))
  }

  function OpenPlan(s: RootSpec): Result<Emission, Failure> {
    var w :- RootWork(s);
    Ok(Emission(w, s.executor, 1, None, {}))
  }

  function ChildPlan(parent: Scope, s: StepSpec): Result<Emission, Failure>
    requires ValidScope(parent)
  {
    var w :- ChildWork(parent, s.workId, s.operation, s.cause);
    Ok(Emission(w, s.executor, 1, None,
                if s.workId.None? then {parent.scopeId, parent.work.workId} else {parent.scopeId}))
  }

  function ExecutePlan(work: Work, executor: Actor, attempt: int): Result<Emission, Failure> {
    Ok(Emission(AsDraft(work), executor, attempt, None, {}))
  }

  function RetryPlan(previous: Scope, executor: Actor): Result<Emission, Failure> {
    if previous.attempt == MAX_U32 then Err(Invalid(AttemptExhausted))
    else
      var scopeId := previous.scopeId;
      Ok(Emission(AsDraft(previous.work), executor, previous.attempt + 1, Some(scopeId), {scopeId}))
  }

  function ReplayPlan(s: ReplaySpec): Result<Emission, Failure> {
    if !ValidReference(s.source) || (s.runId.Some? && !ValidId(s.runId.value)) then Err(Invalid(InvalidReference))
    else if s.workId.Some?
            && (!ValidId(s.workId.value) || (s.source.kind.WorkRef? && s.source.id == s.workId.value)) then
      Err(Invalid(InvalidWork))
    else
      Ok(Emission(
           Draft(s.workId, None, Local, None, Some(Replayed), s.operation, s.attribution, Some(0),
                 Some(DraftReplay(s.runId, s.source))),
           s.executor, 1, None, if s.source.kind.ScopeRef? then {s.source.id} else {}))
  }

  function EnterPlan(s: RootSpec, i: Incoming): Result<Emission, Failure> {
    var w :- RootWork(s);
    Ok(Emission(
         if i.decision.Continued? then
           w.(correlationId := i.correlation, correlationSource := External, causation := i.cause,
           origin := None, depth := None)
         else w,
         s.executor, 1, None, {}))
  }

  // One reading of the scope clock, and the clock reading and entropy that the generator meets.
  datatype Tick = Tick(clock: Reading, idClock: Reading, entropy: Option<Ten>)

  function Emit(g: Generator, e: Emission, t: Tick): (res: (Generator, Result<Scope, Failure>))
    requires g.Valid()
    ensures res.0.Valid()
  {
    match EmitPrecheck(e.draft, e.executor, e.attempt, t.clock)
    case Some(f) => (g, Err(f))
    case None =>
      match Mint(g, t.idClock, t.entropy)
      case (g', Err(error)) => (g', Err(NoId(error)))
      case (g', Ok(id)) => (g', Build(e.draft, e.executor, e.attempt, e.previous, e.forbidden, t.clock.ms, id))
  }

  function Perform(g: Generator, plan: Result<Emission, Failure>, t: Tick): (res: (Generator, Result<Scope, Failure>))
    requires g.Valid()
    ensures res.0.Valid()
  {
    match plan
    case Err(f) => (g, Err(f))
    case Ok(e) => Emit(g, e, t)
  }

  // The hinted cause is neither the work nor the scope that it would cause.
  predicate CauseIsElsewhere(s: RootSpec, i: Incoming, scopeId: ID) {
    i.cause.Some? ==>
      i.cause.value != Reference(ScopeRef, scopeId) && i.cause.value != Reference(WorkRef, s.workId.GetOr(scopeId))
  }

  // Of the checks before the id, hints can only fail the one for a supplied work id.
  lemma PrecheckOfHints(s: RootSpec, i: Incoming, clock: Reading)
    requires ValidIncoming(i) && OpenPlan(s).Ok?
    ensures EnterPlan(s, i).Ok?
    ensures var plain, hinted := OpenPlan(s).value, EnterPlan(s, i).value;
            EmitPrecheck(hinted.draft, s.executor, 1, clock).None? <==>
            && EmitPrecheck(plain.draft, s.executor, 1, clock).None?
            && (i.cause.Some? && s.workId.Some? ==> i.cause.value != Reference(WorkRef, s.workId.value))
  {
    hide ValidId, ValidOperation, ValidAttribution, IdentityValid;
  }

  lemma PlanFacts(s: RootSpec, i: Incoming)
    requires ValidIncoming(i) && OpenPlan(s).Ok?
    ensures OpenPlan(s).value == Emission(OpenPlan(s).value.draft, s.executor, 1, None, {})
    ensures EnterPlan(s, i).Ok? && EnterPlan(s, i).value
            == Emission(EnterPlan(s, i).value.draft, s.executor, 1, None, {})
    ensures Collisions(OpenPlan(s).value.draft, None, {}) == {}
    ensures Collisions(EnterPlan(s, i).value.draft, None, {})
            == if i.cause.Some? && (i.cause.value.kind.ScopeRef? || (i.cause.value.kind.WorkRef? && s.workId.None?))
               then {i.cause.value.id} else {}
  {
    hide ValidId;
  }

  lemma OpenAndEnter(s: RootSpec, i: Incoming)
    ensures EnterPlan(s, i).Ok? <==> OpenPlan(s).Ok?
  {
    hide ValidId;
  }

  lemma MintedIsValid(g: Generator, r: Reading, entropy: Option<Ten>)
    requires g.Valid() && Mint(g, r, entropy).1.Ok?
    ensures ValidId(Mint(g, r, entropy).1.value)
  {
    var g' := Mint(g, r, entropy).0;
    EncodedRoundTrip(g'.last.value, g'.counter, entropy.value);
  }

  // Emission by its checks, its id and the collisions.
  lemma EmitsWhen(g: Generator, e: Emission, t: Tick)
    requires g.Valid() && (e.previous.Some? ==> ValidId(e.previous.value) && e.attempt > 1)
    ensures var minted, passes := Mint(g, t.idClock, t.entropy).1,
                                  EmitPrecheck(e.draft, e.executor, e.attempt, t.clock).None?;
            && (Emit(g, e, t).1.Ok? <==>
                  passes && minted.Ok? && minted.value !in Collisions(e.draft, e.previous, e.forbidden))
            && (Emit(g, e, t).1.Ok? ==> Emit(g, e, t).1.value.scopeId == minted.value)
            && (passes && minted.Ok? && Emit(g, e, t).1.Err? ==> Emit(g, e, t).1 == Err(InvalidGeneratedId))
  {
    hide Mint, ValidId, ValidateWork, NamedActor, Collisions;
    if EmitPrecheck(e.draft, e.executor, e.attempt, t.clock).None? && Mint(g, t.idClock, t.entropy).1.Ok? {
      MintedIsValid(g, t.idClock, t.entropy);
      EmitComplete(e.draft, e.executor, e.attempt, e.previous, e.forbidden, t.clock,
                   Mint(g, t.idClock, t.entropy).1.value);
    }
  }

  /** Hints refuse work that opens without them exactly when the continued cause names the work or the
      scope that it would cause: the supplied work id, or the id minted for the scope. */
  lemma HintsRefuseOnlyCircularCauses(g: Generator, s: RootSpec, i: Incoming, t: Tick)
    requires g.Valid() && ValidIncoming(i)
    ensures var plain, hinted := Perform(g, OpenPlan(s), t).1, Perform(g, EnterPlan(s, i), t).1;
            hinted.Ok? <==> plain.Ok? && CauseIsElsewhere(s, i, plain.value.scopeId)
  {
    hide OpenPlan, EnterPlan, Emit, Mint, EmitPrecheck, Collisions, ValidIncoming, ValidId;
    OpenAndEnter(s, i);
    if OpenPlan(s).Ok? {
      PlanFacts(s, i);
      PrecheckOfHints(s, i, t.clock);
      EmitsWhen(g, OpenPlan(s).value, t);
      EmitsWhen(g, EnterPlan(s, i).value, t);
    }
  }

  // A work that can be opened, with a supplied work id.
  function SomeRoot(workId: ID): RootSpec {
    RootSpec(Some(workId), Request, "job", Attribution(None, None, None), Named(Service, "worker"))
  }

  lemma SomeRootPasses(workId: ID, clock: Reading)
    requires ValidId(workId) && ValidTime(clock)
    ensures OpenPlan(SomeRoot(workId)).Ok?
    ensures EmitPrecheck(OpenPlan(SomeRoot(workId)).value.draft, SomeRoot(workId).executor, 1, clock).None?
  {
    hide ValidId;
  }

  lemma SomeRootOpens(workId: ID, t: Tick)
    requires ValidId(workId) && ValidTime(t.clock) && Mint(INITIAL, t.idClock, t.entropy).1.Ok?
    ensures Perform(INITIAL, OpenPlan(SomeRoot(workId)), t).1.Ok?
    ensures Perform(INITIAL, OpenPlan(SomeRoot(workId)), t).1.value.scopeId
            == Mint(INITIAL, t.idClock, t.entropy).1.value
  {
    var s := SomeRoot(workId);
    SomeRootPasses(workId, t.clock);
    PlanFacts(s, Incoming(Fresh, None, None, []));
    hide Mint, ValidId, Emit, Collisions, EmitPrecheck, OpenPlan;
    EmitsWhen(INITIAL, OpenPlan(s).value, t);
  }

  lemma FirstIsMinted(ten: Ten)
    ensures INITIAL.Valid() && Mint(INITIAL, Millis(0), Some(ten)).1 == Ok(EncodeV7(0, Seed(ten), ten))
  {
    hide EncodeV7;
  }

  // A continued hint with this cause.
  function Hinted(correlation: ID, cause: Reference): Incoming {
    Incoming(Continued, Some(correlation), Some(cause), [])
  }

  lemma CauseRefused(g: Generator, s: RootSpec, t: Tick, correlation: ID, cause: Reference)
    requires g.Valid() && Perform(g, OpenPlan(s), t).1.Ok? && ValidId(correlation) && ValidReference(cause)
    requires var id := Perform(g, OpenPlan(s), t).1.value.scopeId;
             cause == Reference(ScopeRef, id) || cause == Reference(WorkRef, s.workId.GetOr(id))
    ensures ValidIncoming(Hinted(correlation, cause)) && Perform(g, EnterPlan(s, Hinted(correlation, cause)), t).1.Err?
  {
    hide Perform, OpenPlan, EnterPlan, ValidId;
    HintsRefuseOnlyCircularCauses(g, s, Hinted(correlation, cause), t);
  }

  /** Both kinds of refusal happen: a root that opens without hints is refused with a continued cause that
      is its supplied work id, and with one that is the id about to be minted. */
  lemma CircularCausesAreRefused() returns (s: RootSpec, t: Tick, work: Incoming, scope: Incoming)
    ensures ValidIncoming(work) && ValidIncoming(scope)
    ensures Perform(INITIAL, OpenPlan(s), t).1.Ok?
    ensures s.workId.Some? && work.cause == Some(Reference(WorkRef, s.workId.value))
    ensures s.workId.value != Perform(INITIAL, OpenPlan(s), t).1.value.scopeId
    ensures scope.cause == Some(Reference(ScopeRef, Perform(INITIAL, OpenPlan(s), t).1.value.scopeId))
    ensures Perform(INITIAL, EnterPlan(s, work), t).1.Err? && Perform(INITIAL, EnterPlan(s, scope), t).1.Err?
  {
    var ten: Ten := seq(10, _ => 0);
    hide EncodeV7, ValidId, Perform, OpenPlan, EnterPlan, Mint, ValidIncoming, Zeros, Less, Seed;
    FirstIsMinted(ten);
    var minted, supplied := EncodeV7(0, Seed(ten), ten), EncodeV7(1, 0, ten);
    EncodedRoundTrip(0, Seed(ten), ten);
    EncodedRoundTrip(1, 0, ten);
    StampOrder(0, Seed(ten), ten, 1, 0, ten);
    LessIrreflexive(minted);
    s, t := SomeRoot(supplied), Tick(Millis(0), Millis(0), Some(ten));
    SomeRootOpens(supplied, t);
    work, scope := Hinted(minted, Reference(WorkRef, supplied)), Hinted(minted, Reference(ScopeRef, minted));
    CauseRefused(INITIAL, s, t, minted, Reference(WorkRef, supplied));
    CauseRefused(INITIAL, s, t, minted, Reference(ScopeRef, minted));
  }

  /** The factory over its stateful generator. */
  class Factory {
    const ids: V7

    constructor (ids: V7)
      ensures this.ids == ids
    {
      this.ids := ids;
    }

    method EmitScope(e: Emission, t: Tick) returns (r: Result<Scope, Failure>)
      requires ids.View().Valid()
      modifies ids
      ensures (ids.View(), r) == Emit(old(ids.View()), e, t)
    {
      hide Mint, Build, ValidateWork, NamedActor;
      if !NamedActor(e.executor) { return Err(Invalid(InvalidActor)); }
      if e.attempt < 1 || e.attempt > MAX_U32 { return Err(Invalid(InvalidAttempt)); }
      var invalid := ValidateWork(e.draft, true);
      if invalid.Some? { return Err(Invalid(invalid.value)); }
      if !ValidTime(t.clock) { return Err(Invalid(InvalidTime)); }
      var next := ids.NewId(t.idClock, t.entropy);
      if next.Err? { return Err(NoId(next.error)); }
      r := Build(e.draft, e.executor, e.attempt, e.previous, e.forbidden, t.clock.ms, next.value);
    }

    method Open(s: RootSpec, t: Tick) returns (r: Result<Scope, Failure>)
      requires ids.View().Valid()
      modifies ids
      ensures (ids.View(), r) == Perform(old(ids.View()), OpenPlan(s), t)
    {
      var w :- RootWork(s);
      r := EmitScope(Emission(w, s.executor, 1, None, {}), t);
    }

    method Child(parent: Scope, s: StepSpec, t: Tick) returns (r: Result<Scope, Failure>)
      requires ids.View().Valid() && ValidScope(parent)
      modifies ids
      ensures (ids.View(), r) == Perform(old(ids.View()), ChildPlan(parent, s), t)
    {
      var w :- ChildWork(parent, s.workId, s.operation, s.cause);
      var forbidden := {parent.scopeId};
      if s.workId.None? { forbidden := forbidden + {parent.work.workId}; }
      r := EmitScope(Emission(w, s.executor, 1, None, forbidden), t);
    }

    method Execute(work: Work, executor: Actor, attempt: int, t: Tick) returns (r: Result<Scope, Failure>)
      requires ids.View().Valid()
      modifies ids
      ensures (ids.View(), r) == Perform(old(ids.View()), ExecutePlan(work, executor, attempt), t)
    {
      r := EmitScope(Emission(AsDraft(work), executor, attempt, None, {}), t);
    }

    method Retry(previous: Scope, executor: Actor, t: Tick) returns (r: Result<Scope, Failure>)
      requires ids.View().Valid()
      modifies ids
      ensures (ids.View(), r) == Perform(old(ids.View()), RetryPlan(previous, executor), t)
    {
      if previous.attempt == MAX_U32 { return Err(Invalid(AttemptExhausted)); }
      var next := previous.attempt + 1;
      r := EmitScope(Emission(AsDraft(previous.work), executor, next, Some(previous.scopeId), {previous.scopeId}), t);
    }

    method Replay(s: ReplaySpec, t: Tick) returns (r: Result<Scope, Failure>)
      requires ids.View().Valid()
      modifies ids
      ensures (ids.View(), r) == Perform(old(ids.View()), ReplayPlan(s), t)
    {
      if !ValidReference(s.source) { return Err(Invalid(InvalidReference)); }
      if s.runId.Some? && !ValidId(s.runId.value) { return Err(Invalid(InvalidReference)); }
      if s.workId.Some? {
        if !ValidId(s.workId.value) { return Err(Invalid(InvalidWork)); }
        if s.source == Reference(WorkRef, s.workId.value) { return Err(Invalid(InvalidWork)); }
      }
      var forbidden: set<ID> := {};
      if s.source.kind.ScopeRef? { forbidden := {s.source.id}; }
      var replay := Some(DraftReplay(s.runId, s.source));
      var w := Draft(s.workId, None, Local, None, Some(Replayed), s.operation, s.attribution, Some(0), replay);
      r := EmitScope(Emission(w, s.executor, 1, None, forbidden), t);
    }

    method Enter(s: RootSpec, i: Incoming, t: Tick) returns (r: Result<Scope, Failure>)
      requires ids.View().Valid() && ValidIncoming(i)
      modifies ids
      ensures (ids.View(), r) == Perform(old(ids.View()), EnterPlan(s, i), t)
    {
      var w :- RootWork(s);
      if i.decision.Continued? {
        w := w.(correlationId := i.correlation, correlationSource := External);
        w := w.(causation := i.cause, origin := None, depth := None);
      }
      r := EmitScope(Emission(w, s.executor, 1, None, {}), t);
    }
  }
}
