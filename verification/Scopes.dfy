/** What the transitions of the provenance factory answer, in their callers' terms: exactly when each of
    them succeeds, and every field of the scope or the work that it then hands out. */
module Scopes {
  import opened Wrappers
  import opened Identity
  import opened Provenance

  // ----- what names and actors are made of -----

  const LOWER := "abcdefghijklmnopqrstuvwxyz"
  const UPPER := "ABCDEFGHIJKLMNOPQRSTUVWXYZ"
  const NUMERALS := "0123456789"

  lemma LowerLetters(c: char)
    ensures 'a' <= c <= 'z' <==> c in LOWER
  {
    var all := "abcdefghijklmnopqrstuvwxyz";
    assert all == LOWER;
    if 'a' <= c <= 'z' { assert all[c as int - 97] == c; }
  }

  lemma UpperLetters(c: char)
    ensures 'A' <= c <= 'Z' <==> c in UPPER
  {
    var all := "ABCDEFGHIJKLMNOPQRSTUVWXYZ";
    assert all == UPPER;
    if 'A' <= c <= 'Z' { assert all[c as int - 65] == c; }
  }

  lemma Digits(c: char)
    ensures '0' <= c <= '9' <==> c in NUMERALS
  {
    var all := "0123456789";
    assert all == NUMERALS;
    if '0' <= c <= '9' { assert all[c as int - 48] == c; }
  }

  lemma Letters(c: char)
    ensures ('a' <= c <= 'z' <==> c in LOWER) && ('A' <= c <= 'Z' <==> c in UPPER)
    ensures ('0' <= c <= '9' <==> c in NUMERALS)
  {
    hide LOWER, UPPER, NUMERALS;
    LowerLetters(c);
    UpperLetters(c);
    Digits(c);
  }

  /** An operation is a lower-case letter and up to 127 lower-case letters, numerals and `_.:-`. */
  lemma OperationsAre(s: string)
    ensures ValidOperation(s) <==>
            && 1 <= |s| <= 128 && s[0] in LOWER
            && forall i | 1 <= i < |s| :: s[i] in LOWER || s[i] in NUMERALS || s[i] in "_.:-"
  {
    hide LOWER, UPPER, NUMERALS;
    if s != "" { Letters(s[0]); }
    forall i | 1 <= i < |s| ensures OperationChar(s[i]) <==> s[i] in LOWER || s[i] in NUMERALS || s[i] in "_.:-" {
      Letters(s[i]);
    }
  }

  predicate Identifier(s: string) {
    && 1 <= |s| <= 128
    && forall i | 0 <= i < |s| :: s[i] in LOWER || s[i] in UPPER || s[i] in NUMERALS || s[i] in "._:/-"
  }

  lemma IdentifiersAre(s: string)
    ensures IdentityValid(s) <==> Identifier(s)
  {
    hide LOWER, UPPER, NUMERALS;
    forall i | 0 <= i < |s|
      ensures IdentityChar(s[i]) <==> s[i] in LOWER || s[i] in UPPER || s[i] in NUMERALS || s[i] in "._:/-"
    {
      Letters(s[i]);
    }
  }

  /** An attribution is refused exactly for an identifier that is none, or for acting on behalf of somebody
      without a named initiator, of nobody in particular, or of oneself. */
  lemma AttributionsAre(a: Attribution)
    ensures !ValidAttribution(a) <==>
            || (a.initiator.Some? && a.initiator.value.Named? && !Identifier(a.initiator.value.identity))
            || (a.tenant.Some? && !Identifier(a.tenant.value))
            || (a.onBehalfOf.Some?
                && (a.onBehalfOf.value.Anonymous? || !Identifier(a.onBehalfOf.value.identity)
                    || a.initiator.None? || a.initiator.value.Anonymous? || a.initiator == a.onBehalfOf))
  {
    hide IdentityValid, Identifier;
    if a.tenant.Some? { IdentifiersAre(a.tenant.value); }
    if a.initiator.Some? && a.initiator.value.Named? { IdentifiersAre(a.initiator.value.identity); }
    if a.onBehalfOf.Some? && a.onBehalfOf.value.Named? { IdentifiersAre(a.onBehalfOf.value.identity); }
  }

  // ----- the shared way to build a scope -----

  // A scope that answers exactly what was asked of `#emit`.
  predicate Answers(s: Scope, e: Emission) {
    && ValidScope(s) && s.work == Fill(e.draft, s.scopeId) && s.executor == e.executor
    && s.attempt == e.attempt && s.previousAttempt == e.previous && s.scopeId !in e.forbidden
  }

  // The id minted at this tick, and the time that the clock showed.
  predicate IssuedAt(g: Generator, t: Tick, s: Scope)
    requires g.Valid()
  {
    Mint(g, t.idClock, t.entropy).1 == Ok(s.scopeId) && Millis(s.startedAt) == t.clock
  }

  lemma EmitAnswers(g: Generator, e: Emission, t: Tick)
    requires g.Valid() && Emit(g, e, t).1.Ok?
    ensures Answers(Emit(g, e, t).1.value, e) && IssuedAt(g, t, Emit(g, e, t).1.value)
  {
    hide Mint, ValidId, ValidateWork, NamedActor;
  }

  lemma DraftOfWork(w: Work, id: ID)
    ensures Fill(AsDraft(w), id) == w
  {
  }

  // The caller's part of what every scope needs.
  predicate Runnable(executor: Actor, attempt: int, t: Tick) {
    NamedActor(executor) && 1 <= attempt <= MAX_U32 && ValidTime(t.clock)
  }

  // The id for a new scope is there, and is none of these.
  predicate IdIsFree(g: Generator, t: Tick, taken: set<ID>)
    requires g.Valid()
  {
    Mint(g, t.idClock, t.entropy).1.Ok? && Mint(g, t.idClock, t.entropy).1.value !in taken
  }

  lemma PrecheckWhen(w: Draft, executor: Actor, attempt: int, t: Tick)
    ensures EmitPrecheck(w, executor, attempt, t.clock).None? <==>
            Runnable(executor, attempt, t) && ValidateWork(w, true).None?
  {
    hide ValidateWork, NamedActor;
  }

  lemma EmissionWhen(g: Generator, e: Emission, t: Tick)
    requires g.Valid() && (e.previous.Some? ==> ValidId(e.previous.value) && e.attempt > 1)
    ensures Emit(g, e, t).1.Ok? <==>
            && Runnable(e.executor, e.attempt, t) && ValidateWork(e.draft, true).None?
            && IdIsFree(g, t, Collisions(e.draft, e.previous, e.forbidden))
    ensures Emit(g, e, t).1.Ok? ==>
              Answers(Emit(g, e, t).1.value, e) && IssuedAt(g, t, Emit(g, e, t).1.value)
  {
    hide Mint, ValidId, ValidateWork, Collisions, Runnable, EmitPrecheck, Emit, Answers, IssuedAt;
    PrecheckWhen(e.draft, e.executor, e.attempt, t);
    EmitsWhen(g, e, t);
    if Emit(g, e, t).1.Ok? { EmitAnswers(g, e, t); }
  }

  // ----- work -----

  // Work that is not caused by itself and replays nothing of its own.
  predicate CauseFits(cause: Option<Reference>, workId: Option<ID>) {
    cause.Some? ==> ValidReference(cause.value)
                    && (cause.value.kind.WorkRef? ==> workId != Some(cause.value.id))
  }

  // How far from the root: a local root, or a root of unknown depth, or work that something caused.
  predicate DepthFits(depth: Option<int>, source: CorrelationSource, cause: Option<Reference>) {
    match depth
    case None => true
    case Some(0) => source.External? || cause.None?
    case Some(d) => 0 < d <= MAX_U32 && cause.Some?
  }

  predicate IdFits(id: Option<ID>, defaults: bool) {
    if id.None? then defaults else ValidId(id.value)
  }

  lemma DraftWhen(w: Draft, defaults: bool)
    ensures ValidateWork(w, defaults).None? <==>
            && IdFits(w.workId, defaults) && IdFits(w.correlationId, defaults)
            && ValidOperation(w.operation) && ValidAttribution(w.attribution)
            && DepthFits(w.depth, w.correlationSource, w.causation)
            && (w.origin == Some(Replayed) <==> w.replay.Some?)
            && CauseFits(w.causation, w.workId)
            && (w.replay.Some? ==>
                  IdFits(w.replay.value.runId, defaults) && CauseFits(Some(w.replay.value.source), w.workId))
  {
    hide ValidId, ValidOperation, ValidAttribution;
  }

  /** A work is valid exactly when each of its parts is, when its depth fits its cause, and when neither
      its cause nor the source that it replays is the work itself. */
  lemma ValidWorkWhen(w: Work)
    ensures ValidWork(w) <==>
            && ValidId(w.workId) && ValidId(w.correlationId) && ValidOperation(w.operation)
            && ValidAttribution(w.attribution) && DepthFits(w.depth, w.correlationSource, w.causation)
            && (w.origin == Some(Replayed) <==> w.replay.Some?)
            && CauseFits(w.causation, Some(w.workId))
            && (w.replay.Some? ==>
                  ValidId(w.replay.value.runId) && CauseFits(Some(w.replay.value.source), Some(w.workId)))
  {
    hide ValidId, ValidOperation, ValidAttribution, ValidateWork;
    DraftWhen(AsDraft(w), false);
  }

  /** The code of a refused work names something that is wrong with it ... */
  lemma CodesAreTruthful(w: Draft, defaults: bool)
    ensures match ValidateWork(w, defaults)
            case None => true
            case Some(InvalidWork) =>
              || !IdFits(w.workId, defaults) || !IdFits(w.correlationId, defaults)
              || (w.workId.Some?
                  && (w.causation == Some(Reference(WorkRef, w.workId.value))
                      || (w.replay.Some? && w.replay.value.source == Reference(WorkRef, w.workId.value))))
            case Some(InvalidOperation) => !ValidOperation(w.operation)
            case Some(InvalidAttribution) => !ValidAttribution(w.attribution)
            case Some(InvalidOrigin) => (w.origin == Some(Replayed)) != w.replay.Some?
            case Some(InvalidDepth) => !DepthFits(w.depth, w.correlationSource, w.causation)
            case Some(InvalidReference) =>
              || (w.causation.Some? && !ValidReference(w.causation.value))
              || (w.replay.Some?
                  && (!IdFits(w.replay.value.runId, defaults) || !ValidReference(w.replay.value.source)))
            case Some(_) => false
  {
    hide ValidId, ValidOperation, ValidAttribution;
  }

  /** ... and so does the error of a scope that is not built. */
  lemma EmitErrorsAreTruthful(g: Generator, e: Emission, t: Tick)
    requires g.Valid() && (e.previous.Some? ==> ValidId(e.previous.value) && e.attempt > 1)
    ensures match Emit(g, e, t).1
            case Ok(_) => true
            case Err(NoId(error)) => Mint(g, t.idClock, t.entropy).1 == Err(error)
            case Err(InvalidGeneratedId) => !IdIsFree(g, t, Collisions(e.draft, e.previous, e.forbidden))
            case Err(Invalid(InvalidActor)) => !NamedActor(e.executor)
            case Err(Invalid(InvalidAttempt)) => !(1 <= e.attempt <= MAX_U32)
            case Err(Invalid(InvalidTime)) => !ValidTime(t.clock)
            case Err(Invalid(code)) => ValidateWork(e.draft, true) == Some(code)
  {
    EmitsWhen(g, e, t);
    CodesAreTruthful(e.draft, true);
    hide Mint, ValidId, ValidateWork, NamedActor, Collisions, Build, DepthFits;
  }

  // ----- roots -----

  predicate RootFits(s: RootSpec) {
    && !s.origin.Replayed? && (s.workId.Some? ==> ValidId(s.workId.value))
    && ValidOperation(s.operation) && ValidAttribution(s.attribution)
  }

  // The first attempt of some work, for this executor.
  predicate First(s: Scope, executor: Actor, work: Work) {
    s.work == work && s.executor == executor && s.attempt == 1 && s.previousAttempt.None?
  }

  // A new local chain that only the caller's work id and the scope's own id name.
  predicate Opened(s: RootSpec, r: Scope) {
    First(r, s.executor,
          Work(s.workId.GetOr(r.scopeId), r.scopeId, Local, None, Some(s.origin), s.operation, s.attribution,
               Some(0), None))
  }

  // A chain that somebody else began: its correlation and its cause, and nothing else that is unknown here.
  predicate ContinuedFrom(s: RootSpec, i: Incoming, r: Scope) {
    && i.correlation.Some?
    && First(r, s.executor,
             Work(s.workId.GetOr(r.scopeId), i.correlation.value, External, i.cause, None, s.operation,
                  s.attribution, None, None))
  }

  predicate Entered(s: RootSpec, i: Incoming, r: Scope) {
    if i.decision.Continued? then ContinuedFrom(s, i, r) else Opened(s, r)
  }

  // A new local chain that says what it repeats.
  predicate ReplayOf(s: ReplaySpec, r: Scope) {
    First(r, s.executor,
          Work(s.workId.GetOr(r.scopeId), r.scopeId, Local, None, Some(Replayed), s.operation, s.attribution,
               Some(0), Some(ReplayInfo(s.runId.GetOr(r.scopeId), s.source))))
  }

  lemma OpenPlanWhen(s: RootSpec)
    ensures OpenPlan(s).Ok? && ValidateWork(OpenPlan(s).value.draft, true).None? <==> RootFits(s)
    ensures OpenPlan(s).Ok? ==>
              var e := OpenPlan(s).value;
              && e.executor == s.executor && e.attempt == 1 && e.previous.None?
              && Collisions(e.draft, None, e.forbidden) == {}
  {
    hide ValidId, ValidOperation, ValidAttribution;
  }

  /** Opening succeeds exactly on what fits, and opens a local chain at depth zero under the scope's own id. */
  lemma OpenAnswers(g: Generator, s: RootSpec, t: Tick)
    requires g.Valid()
    ensures var r := Perform(g, OpenPlan(s), t).1;
            && (r.Ok? <==> RootFits(s) && Runnable(s.executor, 1, t) && IdIsFree(g, t, {}))
            && (r.Ok? ==> Opened(s, r.value) && IssuedAt(g, t, r.value))
  {
    OpenPlanWhen(s);
    hide ValidateWork, ValidId, Emit, Runnable, RootFits, IdIsFree, IssuedAt, ValidScope;
    if OpenPlan(s).Ok? { EmissionWhen(g, OpenPlan(s).value, t); }
  }

  /** Entering succeeds exactly when opening does and the hinted cause is elsewhere. A continued entry
      carries the hinted correlation and cause from outside, without origin or depth; any other entry
      is an opening. */
  lemma EnterAnswers(g: Generator, s: RootSpec, i: Incoming, t: Tick)
    requires g.Valid() && ValidIncoming(i)
    ensures var r := Perform(g, EnterPlan(s, i), t).1;
            && (r.Ok? <==>
                  && RootFits(s) && Runnable(s.executor, 1, t) && IdIsFree(g, t, {})
                  && CauseIsElsewhere(s, i, Mint(g, t.idClock, t.entropy).1.value))
            && (r.Ok? ==> Entered(s, i, r.value) && IssuedAt(g, t, r.value))
  {
    hide ValidateWork, ValidId, Emit, Runnable, RootFits, IdIsFree, ValidScope, Mint, Entered, OpenPlan, EnterPlan,
         Opened, CauseIsElsewhere;
    OpenAnswers(g, s, t);
    HintsRefuseOnlyCircularCauses(g, s, i, t);
    if Perform(g, EnterPlan(s, i), t).1.Ok? { EnteredWhen(g, s, i, t); }
  }

  lemma EnteredWhen(g: Generator, s: RootSpec, i: Incoming, t: Tick)
    requires g.Valid() && ValidIncoming(i) && Perform(g, EnterPlan(s, i), t).1.Ok?
    ensures var r := Perform(g, EnterPlan(s, i), t).1.value; Entered(s, i, r) && IssuedAt(g, t, r)
  {
    hide ValidateWork, ValidId, Emit, IssuedAt, ValidScope, Mint;
    EmitAnswers(g, EnterPlan(s, i).value, t);
  }

  predicate ReplayFits(s: ReplaySpec) {
    && ValidReference(s.source) && (s.runId.Some? ==> ValidId(s.runId.value))
    && (s.workId.Some? ==> ValidId(s.workId.value) && s.source != Reference(WorkRef, s.workId.value))
    && ValidOperation(s.operation) && ValidAttribution(s.attribution)
  }

  lemma ReplayPlanWhen(s: ReplaySpec)
    ensures ReplayPlan(s).Ok? && ValidateWork(ReplayPlan(s).value.draft, true).None? <==> ReplayFits(s)
    ensures ReplayPlan(s).Ok? ==>
              var e := ReplayPlan(s).value;
              && e.executor == s.executor && e.attempt == 1 && e.previous.None?
              && Collisions(e.draft, None, e.forbidden)
                 == if s.source.kind.ScopeRef? || (s.source.kind.WorkRef? && s.workId.None?)
                    then {s.source.id} else {}
  {
    hide ValidId, ValidOperation, ValidAttribution;
  }

  /** Replaying succeeds exactly on what fits, unless the new scope would be its own source, and opens a
      local chain that names the run and the source. */
  lemma ReplayAnswers(g: Generator, s: ReplaySpec, t: Tick)
    requires g.Valid()
    ensures var r := Perform(g, ReplayPlan(s), t).1;
            && (r.Ok? <==>
                  && ReplayFits(s) && Runnable(s.executor, 1, t)
                  && IdIsFree(g, t, if s.source.kind.ScopeRef? || (s.source.kind.WorkRef? && s.workId.None?)
                                    then {s.source.id} else {}))
            && (r.Ok? ==> ReplayOf(s, r.value) && IssuedAt(g, t, r.value))
  {
    ReplayPlanWhen(s);
    hide ValidateWork, ValidId, Emit, Runnable, ReplayFits, IdIsFree, IssuedAt, ValidScope, Collisions;
    if ReplayPlan(s).Ok? { EmissionWhen(g, ReplayPlan(s).value, t); }
  }

  // ----- the work below a scope -----

  // One hop below the parent: its chain, with this work id, operation and cause.
  function OneHop(parent: Scope, workId: ID, operation: string, cause: Option<Reference>): Work {
    Work(workId, parent.work.correlationId, parent.work.correlationSource,
         Some(cause.GetOr(Reference(ScopeRef, parent.scopeId))), parent.work.origin, operation,
         parent.work.attribution,
         if parent.work.depth.Some? then Some(parent.work.depth.value + 1) else None, parent.work.replay)
  }

  predicate ChildOf(parent: Scope, s: StepSpec, r: Scope) {
    && First(r, s.executor, OneHop(parent, s.workId.GetOr(r.scopeId), s.operation, s.cause))
    && r.scopeId != parent.scopeId && r.work.workId != parent.work.workId
  }

  // A work id may be left out, else it must be new to its parent, its cause and its replayed source.
  predicate WorkIdFits(parent: Scope, workId: Option<ID>, cause: Option<Reference>) {
    && CauseFits(cause, workId)
    && (workId.Some? ==>
          && ValidId(workId.value) && workId.value != parent.work.workId
          && (parent.work.replay.Some? ==> parent.work.replay.value.source != Reference(WorkRef, workId.value)))
  }

  predicate HopFits(parent: Scope, operation: string) {
    parent.work.depth != Some(MAX_U32) && ValidOperation(operation)
  }

  // The ids that the scope of a child cannot take.
  function TakenByChild(parent: Scope, s: StepSpec): set<ID> {
    {parent.scopeId}
    + (if s.workId.None? then {parent.work.workId} else {})
    + (if s.cause.Some? && (s.cause.value.kind.ScopeRef? || (s.cause.value.kind.WorkRef? && s.workId.None?))
       then {s.cause.value.id} else {})
    + (if s.workId.None? && parent.work.replay.Some? && parent.work.replay.value.source.kind.WorkRef?
       then {parent.work.replay.value.source.id} else {})
  }

  lemma PartsOfScope(s: Scope)
    requires ValidScope(s)
    ensures ValidId(s.scopeId) && ValidWork(s.work) && NamedActor(s.executor) && 1 <= s.attempt <= MAX_U32
    ensures s.work.causation != Some(Reference(ScopeRef, s.scopeId))
  {
    hide ValidId, ValidateWork, NamedActor;
  }

  // The draft of a child, before it is checked.
  function HopDraft(parent: Scope, workId: Option<ID>, operation: string, cause: Option<Reference>): Draft {
    AsDraft(parent.work).(
      workId := workId, operation := operation,
      depth := if parent.work.depth.Some? then Some(parent.work.depth.value + 1) else None,
      causation := Some(cause.GetOr(Reference(ScopeRef, parent.scopeId))))
  }

  lemma HopDraftFills(parent: Scope, workId: Option<ID>, operation: string, cause: Option<Reference>, id: ID)
    ensures Fill(HopDraft(parent, workId, operation, cause), id)
            == OneHop(parent, workId.GetOr(id), operation, cause)
  {
  }

  lemma HopDraftWhen(parent: Scope, workId: Option<ID>, operation: string, cause: Option<Reference>)
    requires ValidScope(parent) && (workId.Some? ==> ValidId(workId.value) && workId.value != parent.work.workId)
    requires parent.work.depth != Some(MAX_U32)
    ensures ValidateWork(HopDraft(parent, workId, operation, cause), true).None? <==>
            ValidOperation(operation) && WorkIdFits(parent, workId, cause)
  {
    hide ValidId, ValidOperation, ValidAttribution, ValidScope, ValidateWork, ValidWork, NamedActor, CauseFits;
    PartsOfScope(parent);
    ValidWorkWhen(parent.work);
    DraftWhen(HopDraft(parent, workId, operation, cause), true);
    CauseOfChild(parent, workId, cause);
    if parent.work.replay.Some? { SourceOfChild(parent, workId); }
  }

  lemma CauseOfChild(parent: Scope, workId: Option<ID>, cause: Option<Reference>)
    requires ValidId(parent.scopeId)
    ensures CauseFits(Some(cause.GetOr(Reference(ScopeRef, parent.scopeId))), workId) <==> CauseFits(cause, workId)
  {
    hide ValidId;
  }

  lemma SourceOfChild(parent: Scope, workId: Option<ID>)
    requires parent.work.replay.Some? && CauseFits(Some(parent.work.replay.value.source), Some(parent.work.workId))
    ensures CauseFits(Some(parent.work.replay.value.source), workId) <==>
            (workId.Some? ==> parent.work.replay.value.source != Reference(WorkRef, workId.value))
  {
    hide ValidId;
  }

  lemma ChildWorkWhen(parent: Scope, workId: Option<ID>, operation: string, cause: Option<Reference>)
    requires ValidScope(parent)
    ensures ChildWork(parent, workId, operation, cause).Ok? <==>
            HopFits(parent, operation) && WorkIdFits(parent, workId, cause)
    ensures ChildWork(parent, workId, operation, cause).Ok? ==>
              ChildWork(parent, workId, operation, cause).value == HopDraft(parent, workId, operation, cause)
    ensures ChildWork(parent, workId, operation, cause).Ok? ==>
              ValidateWork(HopDraft(parent, workId, operation, cause), true).None?
  {
    hide ValidId, ValidOperation, ValidateWork, ValidScope, CauseFits;
    if (workId.Some? ==> ValidId(workId.value) && workId.value != parent.work.workId)
       && parent.work.depth != Some(MAX_U32) {
      HopDraftWhen(parent, workId, operation, cause);
    }
  }

  lemma ChildPlanWhen(parent: Scope, s: StepSpec)
    requires ValidScope(parent)
    ensures ChildPlan(parent, s).Ok? <==> HopFits(parent, s.operation) && WorkIdFits(parent, s.workId, s.cause)
    ensures ChildPlan(parent, s).Ok? ==>
              var e := ChildPlan(parent, s).value;
              && e.executor == s.executor && e.attempt == 1 && e.previous.None?
              && ValidateWork(e.draft, true).None?
              && Collisions(e.draft, None, e.forbidden) == TakenByChild(parent, s)
              && (forall id :: Fill(e.draft, id) == OneHop(parent, s.workId.GetOr(id), s.operation, s.cause))
              && parent.scopeId in e.forbidden && (s.workId.None? ==> parent.work.workId in e.forbidden)
  {
    ChildWorkWhen(parent, s.workId, s.operation, s.cause);
    hide ValidateWork, ValidId, ValidScope, HopFits, WorkIdFits, ChildWork, Fill, OneHop;
    forall id ensures Fill(HopDraft(parent, s.workId, s.operation, s.cause), id)
                      == OneHop(parent, s.workId.GetOr(id), s.operation, s.cause) {
      HopDraftFills(parent, s.workId, s.operation, s.cause, id);
    }
  }

  /** A child succeeds exactly on what fits and an id that is free; it stays on its parent's chain, one hop
      deeper, caused by the parent's scope unless the caller names another cause. */
  lemma ChildAnswers(g: Generator, parent: Scope, s: StepSpec, t: Tick)
    requires g.Valid() && ValidScope(parent)
    ensures var r := Perform(g, ChildPlan(parent, s), t).1;
            && (r.Ok? <==>
                  && HopFits(parent, s.operation) && WorkIdFits(parent, s.workId, s.cause)
                  && Runnable(s.executor, 1, t) && IdIsFree(g, t, TakenByChild(parent, s)))
            && (r.Ok? ==> ChildOf(parent, s, r.value) && IssuedAt(g, t, r.value))
  {
    ChildPlanWhen(parent, s);
    hide ValidateWork, ValidId, Emit, Runnable, HopFits, IdIsFree, IssuedAt, ValidScope, Collisions, ChildPlan, Fill,
         TakenByChild;
    if ChildPlan(parent, s).Ok? { EmissionWhen(g, ChildPlan(parent, s).value, t); }
  }

  /** Before any scope is built, a root is refused for a replay without a source or for its work id, and a child for its
      work id, for a full depth, or for what is wrong with the work that it asks for. */
  lemma PlanErrorsAreTruthful(s: RootSpec, parent: Scope, step: StepSpec)
    requires ValidScope(parent)
    ensures match OpenPlan(s)
            case Ok(_) => true
            case Err(error) =>
              || (error == Invalid(InvalidOrigin) && s.origin.Replayed?)
              || (error == Invalid(InvalidWork) && s.workId.Some? && !ValidId(s.workId.value))
    ensures match ChildPlan(parent, step)
            case Ok(_) => true
            case Err(error) =>
              || (error == Invalid(DepthExhausted) && parent.work.depth == Some(MAX_U32))
              || (error == Invalid(InvalidWork) && !WorkIdFits(parent, step.workId, step.cause))
              || (exists code :: error == Invalid(code)
                                 && ValidateWork(HopDraft(parent, step.workId, step.operation, step.cause), true)
                                    == Some(code))
  {
    hide ValidId, ValidateWork, ValidScope;
  }

  /** Preparing succeeds exactly on what fits, and prepares one hop below the parent. */
  lemma PrepareAnswers(parent: Scope, s: WorkSpec)
    requires ValidScope(parent)
    ensures var r := Prepare(parent, s);
            && (r.Ok? <==> HopFits(parent, s.operation) && WorkIdFits(parent, Some(s.workId), s.cause))
            && (r.Ok? ==> r.value == OneHop(parent, s.workId, s.operation, s.cause))
  {
    ChildWorkWhen(parent, Some(s.workId), s.operation, s.cause);
    var w := ChildWork(parent, Some(s.workId), s.operation, s.cause);
    hide ValidScope, ValidId, ChildWork, Fill, ValidateWork, OneHop, HopFits;
    if w.Ok? {
      HopDraftFills(parent, Some(s.workId), s.operation, s.cause, s.workId);
      FillValid(w.value, s.workId);
      assert ValidWork(Fill(w.value, s.workId));
    }
  }

  // ----- the same work again -----

  predicate ExecutionOf(work: Work, executor: Actor, attempt: int, r: Scope) {
    r.work == work && r.executor == executor && r.attempt == attempt && r.previousAttempt.None?
  }

  predicate RetryOf(previous: Scope, executor: Actor, r: Scope) {
    && r.work == previous.work && r.executor == executor && r.attempt == previous.attempt + 1
    && r.previousAttempt == Some(previous.scopeId) && r.scopeId != previous.scopeId
  }

  // The scope that caused a work cannot be a scope of it.
  function CausingScope(w: Work): set<ID> {
    if w.causation.Some? && w.causation.value.kind.ScopeRef? then {w.causation.value.id} else {}
  }

  /** Executing succeeds exactly for a named executor at a possible attempt, and runs the given work. */
  lemma ExecuteAnswers(g: Generator, work: Work, executor: Actor, attempt: int, t: Tick)
    requires g.Valid() && ValidWork(work)
    ensures var r := Perform(g, ExecutePlan(work, executor, attempt), t).1;
            && (r.Ok? <==> Runnable(executor, attempt, t) && IdIsFree(g, t, CausingScope(work)))
            && (r.Ok? ==> ExecutionOf(work, executor, attempt, r.value) && IssuedAt(g, t, r.value))
  {
    DraftIsValid(work);
    var e := ExecutePlan(work, executor, attempt).value;
    if Emit(g, e, t).1.Ok? { DraftOfWork(work, Emit(g, e, t).1.value.scopeId); }
    hide ValidateWork, ValidId, Emit, Runnable, IdIsFree, IssuedAt, ValidScope, Fill, Mint;
    EmissionWhen(g, e, t);
    assert Collisions(e.draft, None, {}) == CausingScope(work);
  }

  lemma DraftIsValid(w: Work)
    requires ValidWork(w)
    ensures ValidateWork(AsDraft(w), true).None?
  {
    hide ValidId, ValidOperation, ValidAttribution;
  }

  /** A retry succeeds exactly while attempts last, and runs the same work at the next attempt. */
  lemma RetryAnswers(g: Generator, previous: Scope, executor: Actor, t: Tick)
    requires g.Valid() && ValidScope(previous)
    ensures var r := Perform(g, RetryPlan(previous, executor), t).1;
            && (r.Ok? <==>
                  && previous.attempt < MAX_U32 && Runnable(executor, previous.attempt + 1, t)
                  && IdIsFree(g, t, {previous.scopeId} + CausingScope(previous.work)))
            && (r.Ok? ==> RetryOf(previous, executor, r.value) && IssuedAt(g, t, r.value))
            && (previous.attempt == MAX_U32 ==> r == Err(Invalid(AttemptExhausted)))
  {
    PartsOfScope(previous);
    DraftIsValid(previous.work);
    hide ValidateWork, ValidId, Emit, IdIsFree, IssuedAt, ValidScope, Fill, Mint, NamedActor;
    var plan := RetryPlan(previous, executor);
    if plan.Ok? {
      EmissionWhen(g, plan.value, t);
      assert Collisions(plan.value.draft, plan.value.previous, plan.value.forbidden)
             == {previous.scopeId} + CausingScope(previous.work);
      if Emit(g, plan.value, t).1.Ok? { DraftOfWork(previous.work, Emit(g, plan.value, t).1.value.scopeId); }
    }
  }
}
