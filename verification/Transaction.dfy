/** Database.transaction as the interleaving of the operation, the budget timer, the caller's abort
    signal and the server (src/shared/postgres/index.ts). */
module Transaction {
  import opened Wrappers

  datatype Failure =
    | Closed | Canceled | TimedOut | CommitUncertain | Conflict | ServerFailed | Unavailable
    | Callers(tag: string)

  // What a query or a callback throws: a failure already classified, the server's own error with its
  // SQLSTATE, or anything else (lost connection, client-side timeout).
  datatype Thrown = Classified(tag: string) | Server(code: string) | Foreign

  function Map(e: Thrown): Failure {
    match e
    case Classified(tag) => Callers(tag)
    case Server(code) =>
      if code in {"23505", "40001", "40P01"} then Conflict
      else if code == "57014" then TimedOut
      else ServerFailed
    case Foreign => Unavailable
  }

  function CommitFailure(e: Thrown): Failure {
    if e.Server? then Map(e) else CommitUncertain
  }

  type Outcome<+T> = Result<T, Failure>

  // Where the operation is suspended.
  datatype Phase<+T> =
    | Beginning
    | Running
    | RollingBack(refusal: Failure)
    | Committing(value: T)
    | Returned

  // What became of the transaction at the server.
  datatype Fate = Undecided | Committed | Gone

  datatype Tx<+T> = Tx(
    phase: Phase<T>, aborted: bool, committing: bool, released: bool,
    clean: bool,                    // released for reuse, not to be destroyed
    returned: Option<Outcome<T>>,   // what the callback returned
    stopped: Option<Failure>,       // the first value of the `stopped` promise
    settled: Option<Outcome<T>>,    // the first of the two raced promises
    fate: Fate,
    releases: nat,                  // calls of client.release
    commits: nat,                   // COMMITs sent
    acknowledged: bool)             // a COMMIT tag came back

  datatype Event<+T> =
    | Timer
    | CallerAborts
    | BeginReply(failure: Option<Thrown>)
    | CallbackReturns(r: Outcome<T>)
    | CallbackThrows(thrown: Thrown)
    | RollbackReply(failure: Option<Thrown>)
    | CommitTag(isCommit: bool)
    | CommitThrows(thrown: Thrown)
    | ServerCommits
    | ServerDrops

  function Release<T>(t: Tx<T>, destroy: bool): Tx<T> {
    if t.released then t else t.(released := true, clean := !destroy, releases := t.releases + 1)
  }

  function Settle<T>(t: Tx<T>, r: Outcome<T>): Tx<T> {
    if t.settled.Some? then t else t.(settled := Some(r))
  }

  function Stop<T>(t: Tx<T>, canceled: bool): Tx<T> {
    var u := Release(t.(aborted := true), true);
    var f := if t.committing then CommitUncertain else if canceled then Canceled else TimedOut;
    if u.stopped.Some? then u else Settle(u.(stopped := Some(f)), Err(f))
  }

  // The operation's async function returns r; its catch or finally clause has released the client.
  function Return<T>(t: Tx<T>, r: Outcome<T>, destroy: bool): Tx<T> {
    Settle(Release(t, destroy).(phase := Returned), r)
  }

  // A client has just been leased; the signal may have fired while it was.
  function Leased<T>(alreadyAborted: bool): Tx<T> {
    var t := Tx(Beginning, false, false, false, false, None, None, None, Undecided, 0, 0, false);
    if alreadyAborted then Stop(t, true).(phase := Returned) else t
  }

  // The order facts that the server provides: a COMMIT is decided only once sent, a COMMIT tag comes
  // only from a commit, and a ROLLBACK tag or the server's own error only from a transaction that is gone.
  predicate Possible<T>(t: Tx<T>, e: Event<T>) {
    match e
    case Timer | CallerAborts => true
    case BeginReply(_) => t.phase.Beginning?
    case CallbackReturns(_) | CallbackThrows(_) => t.phase.Running?
    case RollbackReply(failure) => t.phase.RollingBack? && (failure.None? ==> t.fate.Gone?)
    case CommitTag(isCommit) => t.phase.Committing? && t.fate == (if isCommit then Committed else Gone)
    case CommitThrows(thrown) => t.phase.Committing? && (thrown.Server? ==> t.fate.Gone?)
    case ServerCommits => t.commits > 0 && t.fate.Undecided?
    case ServerDrops => t.fate.Undecided?
  }

  function Step<T>(t: Tx<T>, e: Event<T>): Tx<T>
    requires Possible(t, e)
  {
    match e
    case Timer => Stop(t, false)
    case CallerAborts => Stop(t, true)
    case BeginReply(None) => t.(phase := Running)
    case BeginReply(Some(thrown)) => Return(t, Err(Map(thrown)), true)
    case CallbackReturns(r) =>
      var u := t.(returned := Some(r));
      if t.aborted then Release(u, false).(phase := Returned)
      else if r.Err? then u.(phase := RollingBack(r.error))
      else u.(committing := true, commits := u.commits + 1, phase := Committing(r.value))
    case CallbackThrows(thrown) => Return(t, Err(Map(thrown)), true)
    case RollbackReply(None) => Return(t, Err(t.phase.refusal), false)
    case RollbackReply(Some(thrown)) => Return(t, Err(Map(thrown)), true)
    case CommitTag(isCommit) =>
      if isCommit then Return(t.(acknowledged := true), Ok(t.phase.value), false)
        else Return(t, Err(ServerFailed), false)
    case CommitThrows(thrown) => Return(t, Err(CommitFailure(thrown)), true)
    case ServerCommits => t.(fate := Committed)
    case ServerDrops => t.(fate := Gone)
  }

  // ----- every interleaving -----

  // The client, the promises, COMMIT and the server.
  predicate FlagsSound<T>(t: Tx<T>) {
    && t.releases == (if t.released then 1 else 0)
    && (t.clean ==> t.released && !t.fate.Undecided?)
    && (t.aborted <==> t.stopped.Some?)
    && (t.aborted ==> t.released)
    && (t.settled.Some? <==> t.stopped.Some? || t.phase.Returned?)
    && (t.settled.Some? <==> t.released)
    && t.commits == (if t.committing then 1 else 0)
    && (t.phase.Committing? ==> t.committing)
    && (t.phase.Beginning? || t.phase.Running? || t.phase.RollingBack? ==> !t.committing)
    && (t.fate.Committed? ==> t.committing)
    && (t.acknowledged ==> t.fate.Committed?)
    && (t.settled.Some? && t.settled.value.Ok? ==> t.acknowledged)
    && (t.settled.Some? && t.settled.value.Err? && !t.settled.value.error.CommitUncertain? ==>
          t.fate.Gone? || !t.committing)
  }

  // What the callback returned, and what became of it.
  ghost predicate ReturnSound<T>(t: Tx<T>) {
    && (t.phase.Beginning? || t.phase.Running? ==> t.returned.None?)
    && (t.phase.RollingBack? ==> t.returned == Some(Err(t.phase.refusal)))
    && (t.phase.Committing? ==> t.returned == Some(Ok(t.phase.value)))
    && (t.committing ==> t.returned.Some? && t.returned.value.Ok?)
    && (t.settled.Some? && t.settled.value.Ok? ==> t.returned == t.settled)
    && (t.settled == Some(Err(CommitUncertain)) ==> t.committing || t.returned == Some(Err(CommitUncertain)))
  }

  ghost predicate Sound<T>(t: Tx<T>) {
    FlagsSound(t) && ReturnSound(t)
  }

  lemma StepKeepsFlags<T>(t: Tx<T>, e: Event<T>)
    requires FlagsSound(t) && Possible(t, e)
    ensures FlagsSound(Step(t, e))
    ensures t.settled.Some? ==> Step(t, e).settled == t.settled
    ensures t.fate != Undecided ==> Step(t, e).fate == t.fate
  {
    hide Map;
  }

  lemma StepKeepsReturn<T>(t: Tx<T>, e: Event<T>)
    requires ReturnSound(t) && Possible(t, e) && (t.phase.Committing? ==> t.committing)
    ensures ReturnSound(Step(t, e))
    ensures t.returned.Some? ==> Step(t, e).returned == t.returned
  {
    hide Stop, Return, Map, Release, Settle;
    NeverUncertain();
    match e {
      case Timer => StopParts(t, false);
      case CallerAborts => StopParts(t, true);
      case BeginReply(Some(thrown)) => ReturnParts(t, Err(Map(thrown)), true);
      case CallbackReturns(r) => ReleaseParts(t.(returned := Some(r)), false);
      case CallbackThrows(thrown) => ReturnParts(t, Err(Map(thrown)), true);
      case RollbackReply(None) => ReturnParts(t, Err(t.phase.refusal), false);
      case RollbackReply(Some(thrown)) => ReturnParts(t, Err(Map(thrown)), true);
      case CommitTag(isCommit) =>
        ReturnParts(t.(acknowledged := true), Ok(t.phase.value), false);
        ReturnParts(t, Err(ServerFailed), false);
      case CommitThrows(thrown) => ReturnParts(t, Err(CommitFailure(thrown)), true);
      case _ =>
    }
  }

  // What stopping, returning and releasing leave of the callback's history.
  lemma StopParts<T>(t: Tx<T>, canceled: bool)
    ensures var u := Stop(t, canceled);
            && u.phase == t.phase && u.committing == t.committing && u.returned == t.returned
            && (u.settled == t.settled
                || (u.settled.Some? && u.settled.value.Err?
                  && (u.settled.value.error.CommitUncertain? ==> t.committing)))
  {
  }

  lemma ReturnParts<T>(t: Tx<T>, r: Outcome<T>, destroy: bool)
    ensures var u := Return(t, r, destroy);
            && u.phase.Returned? && u.committing == t.committing && u.returned == t.returned
            && u.settled == if t.settled.Some? then t.settled else Some(r)
  {
  }

  lemma ReleaseParts<T>(t: Tx<T>, destroy: bool)
    ensures var u := Release(t, destroy);
            u.phase == t.phase && u.committing == t.committing && u.returned == t.returned && u.settled == t.settled
  {
  }

  // Only a COMMIT can be uncertain.
  lemma NeverUncertain()
    ensures forall thrown :: Map(thrown) != CommitUncertain
  {
  }

  lemma StepKeepsSound<T>(t: Tx<T>, e: Event<T>)
    requires Sound(t) && Possible(t, e)
    ensures Sound(Step(t, e))
    ensures t.settled.Some? ==> Step(t, e).settled == t.settled
    ensures t.returned.Some? ==> Step(t, e).returned == t.returned
    ensures t.fate != Undecided ==> Step(t, e).fate == t.fate
  {
    StepKeepsFlags(t, e);
    StepKeepsReturn(t, e);
    hide Step, ReturnSound;
  }

  predicate Run<T(!new)>(t: Tx<T>, events: seq<Event<T>>)
    decreases |events|
  {
    events == [] || (Possible(t, events[0]) && Run(Step(t, events[0]), events[1..]))
  }

  function After<T(!new)>(t: Tx<T>, events: seq<Event<T>>): Tx<T>
    requires Run(t, events)
    decreases |events|
  {
    if events == [] then t else After(Step(t, events[0]), events[1..])
  }

  lemma {:induction false} RunKeepsSound<T(!new)>(t: Tx<T>, events: seq<Event<T>>)
    requires Sound(t) && Run(t, events)
    ensures Sound(After(t, events))
    ensures t.settled.Some? ==> After(t, events).settled == t.settled
    ensures t.returned.Some? ==> After(t, events).returned == t.returned
    ensures t.fate != Undecided ==> After(t, events).fate == t.fate
    decreases |events|
  {
    if events == [] {
    } else {
      StepKeepsSound(t, events[0]);
      RunKeepsSound(Step(t, events[0]), events[1..]);
    }
  }

  /** What a caller may conclude from an outcome. */
  predicate Truthful<T>(r: Outcome<T>, committed: bool) {
    && (r.Ok? ==> committed)
    && (r.Err? && !r.error.CommitUncertain? ==> !committed)
  }

  /** Under every interleaving: a settled call stays settled; `ok` is an acknowledged COMMIT; an error
      other than commit_uncertain means that nothing is committed, then or later; COMMIT is sent at
      most once; the client is released exactly once by the time the call settles, and for reuse only
      if the server has no open transaction on it. */
  lemma Truth<T(!new)>(alreadyAborted: bool, before: seq<Event<T>>, later: seq<Event<T>>)
    requires Run(Leased<T>(alreadyAborted), before)
    requires After(Leased<T>(alreadyAborted), before).settled.Some?
    requires Run(After(Leased<T>(alreadyAborted), before), later)
    ensures var t := After(Leased<T>(alreadyAborted), before);
            var t' := After(t, later);
            && t'.settled == t.settled
            && Truthful(t.settled.value, t'.fate.Committed?)
            && (t.settled.value.Ok? ==> t.acknowledged)
            && t.releases == t'.releases == 1
            && (t'.clean ==> !t'.fate.Undecided?)
            && t'.commits <= 1
  {
    var t0 := Leased<T>(alreadyAborted);
    assert Sound(t0);
    RunKeepsSound(t0, before);
    RunKeepsSound(After(t0, before), later);
  }

  // ----- what each event answers -----

  /** SQLSTATE 23505, 40001 and 40P01 are conflicts, 57014 is a timeout, every other error of the server is
      internal, and what is neither the server's nor already classified is unavailability. */
  lemma ErrorClasses(e: Thrown)
    ensures Map(e) == Conflict <==> e.Server? && (e.code == "23505" || e.code == "40001" || e.code == "40P01")
    ensures Map(e) == TimedOut <==> e.Server? && e.code == "57014"
    ensures Map(e) == Unavailable <==> e.Foreign?
    ensures Map(e) == ServerFailed <==>
            e.Server? && e.code != "23505" && e.code != "40001" && e.code != "40P01" && e.code != "57014"
    ensures e.Classified? ==> Map(e) == Callers(e.tag)
  {
  }

  /** While nothing has settled a call, each event answers exactly so: the timer with a timeout and the
      caller with a cancellation, or with uncertainty once COMMIT is sent; an error with its class, but a
      COMMIT lost to something other than the server's own error with uncertainty; an answered ROLLBACK
      with the callback's refusal; and a COMMIT tag with the value that the callback returned. */
  lemma EventsAnswer<T(!new)>(alreadyAborted: bool, before: seq<Event<T>>, e: Event<T>)
    requires Run(Leased<T>(alreadyAborted), before)
    requires After(Leased<T>(alreadyAborted), before).settled.None?
    requires Possible(After(Leased<T>(alreadyAborted), before), e)
    ensures var t := After(Leased<T>(alreadyAborted), before);
            var answer := Step(t, e).settled;
            match e
            case Timer => answer == Some(Err(if t.commits == 0 then TimedOut else CommitUncertain))
            case CallerAborts => answer == Some(Err(if t.commits == 0 then Canceled else CommitUncertain))
            case BeginReply(failure) => answer == if failure.None? then None else Some(Err(Map(failure.value)))
            case CallbackReturns(r) => answer == None && Step(t, e).commits == (if r.Ok? then 1 else 0)
            case CallbackThrows(thrown) => answer == Some(Err(Map(thrown))) && Step(t, e).commits == 0
            case RollbackReply(None) => answer == t.returned && t.returned.Some? && t.returned.value.Err?
            case RollbackReply(Some(thrown)) => answer == Some(Err(Map(thrown)))
            case CommitTag(true) => answer == t.returned && t.returned.Some? && t.returned.value.Ok?
            case CommitTag(false) => answer == Some(Err(ServerFailed))
            case CommitThrows(thrown) => answer == Some(Err(if thrown.Server? then Map(thrown) else CommitUncertain))
            case _ => answer == None
  {
    var t0 := Leased<T>(alreadyAborted);
    assert Sound(t0);
    RunKeepsSound(t0, before);
    hide Run, After, Map;
  }

  // The server has answered ROLLBACK, or something to COMMIT: no transaction is open any more.
  predicate Answered<T>(e: Event<T>) {
    (e.RollbackReply? && e.failure.None?) || e.CommitTag?
  }

  predicate Fails<T>(e: Event<T>) {
    e.Timer? || e.CallerAborts? || e.CallbackThrows? || e.CommitThrows?
    || ((e.BeginReply? || e.RollbackReply?) && e.failure.Some?)
  }

  /** And the client: while nothing has settled a call it is leased; an answer that ends the transaction gives
      it back for reuse, anything that fails destroys it, and only the timer and the caller signal an abort. */
  lemma ClientIsReused<T(!new)>(alreadyAborted: bool, before: seq<Event<T>>, e: Event<T>)
    requires Run(Leased<T>(alreadyAborted), before)
    requires After(Leased<T>(alreadyAborted), before).settled.None?
    requires Possible(After(Leased<T>(alreadyAborted), before), e)
    ensures var t, t' := After(Leased<T>(alreadyAborted), before), Step(After(Leased<T>(alreadyAborted), before), e);
            && !t.released && !t.aborted
            && (t'.released && t'.clean <==> Answered(e)) && (t'.released && !t'.clean <==> Fails(e))
            && t'.releases == (if Answered(e) || Fails(e) then 1 else 0)
            && (t'.aborted <==> e.Timer? || e.CallerAborts?)
  {
    var t0 := Leased<T>(alreadyAborted);
    assert Sound(t0);
    RunKeepsSound(t0, before);
    hide Run, After, Map;
  }

  /** So a call whose COMMIT is acknowledged before anything stops it answers ok with the callback's value,
      and keeps to it. */
  lemma AcknowledgedIsOk<T(!new)>(alreadyAborted: bool, before: seq<Event<T>>, later: seq<Event<T>>)
    requires Run(Leased<T>(alreadyAborted), before)
    requires var t := After(Leased<T>(alreadyAborted), before); t.settled.None? && Possible(t, CommitTag(true))
    requires Run(Step(After(Leased<T>(alreadyAborted), before), CommitTag(true)), later)
    ensures var t := After(Leased<T>(alreadyAborted), before);
            && t.returned.Some? && t.returned.value.Ok?
            && After(Step(t, CommitTag(true)), later).settled == t.returned
            && After(Step(t, CommitTag(true)), later).fate.Committed?
  {
    var t0 := Leased<T>(alreadyAborted);
    var t := After(t0, before);
    assert Sound(t0);
    RunKeepsSound(t0, before);
    EventsAnswer(alreadyAborted, before, CommitTag(true));
    StepKeepsSound(t, CommitTag(true));
    RunKeepsSound(Step(t, CommitTag(true)), later);
  }

  // How a transaction ended, as its caller and the database know it.
  datatype End = Acknowledged | Lost(committed: bool) | Refused(why: Failure)

  function EndOf<T>(answer: Outcome<T>, committed: bool): End {
    match answer
    case Ok(_) => Acknowledged
    case Err(CommitUncertain) => Lost(committed)
    case Err(why) => Refused(why)
  }

  predicate Kept(end: End) {
    end.Acknowledged? || (end.Lost? && end.committed)
  }

  /** A transaction is one step with three outcomes: by the end of a settled call, its writes are kept
      exactly when they are committed for good; an acknowledged call returns what its callback did; only a
      callback that accepted is ever committed, and only such a call is uncertain, unless the callback
      itself says so. */
  lemma EndIsTruth<T(!new)>(alreadyAborted: bool, before: seq<Event<T>>, later: seq<Event<T>>)
    requires Run(Leased<T>(alreadyAborted), before)
    requires After(Leased<T>(alreadyAborted), before).settled.Some?
    requires Run(After(Leased<T>(alreadyAborted), before), later)
    ensures var t := After(Leased<T>(alreadyAborted), before);
            var t' := After(t, later);
            var end := EndOf(t.settled.value, t'.fate.Committed?);
            && (Kept(end) <==> t'.fate.Committed?)
            && (end.Acknowledged? ==> t.returned == t.settled)
            && (t'.fate.Committed? ==> t'.returned.Some? && t'.returned.value.Ok?)
            && (t.returned.Some? ==> t'.returned == t.returned)
            && (t.settled.value == Err(CommitUncertain) ==>
                  t.returned.Some? && (t.returned.value.Ok? || t.returned.value == Err(CommitUncertain)))
  {
    Truth<T>(alreadyAborted, before, later);
    var t0 := Leased<T>(alreadyAborted);
    assert Sound(t0);
    RunKeepsSound(t0, before);
    RunKeepsSound(After(t0, before), later);
  }

  /** The budget timer and the caller's abort each settle the call, wherever the operation is. */
  lemma StopSettles<T(!new)>(alreadyAborted: bool, events: seq<Event<T>>, e: Event<T>)
    requires Run(Leased<T>(alreadyAborted), events) && (e.Timer? || e.CallerAborts?)
    ensures Step(After(Leased<T>(alreadyAborted), events), e).settled.Some?
  {
    var t0 := Leased<T>(alreadyAborted);
    assert Sound(t0);
    RunKeepsSound(t0, events);
  }

  /** commit_uncertain is honest: each fate of the transaction can lie behind the same answer. */
  lemma UncertainMeansEither<T(!new)>(v: T, committed: bool)
    ensures exists events: seq<Event<T>> | Run(Leased<T>(false), events) ::
              var t := After(Leased<T>(false), events);
              t.settled == Some(Err(CommitUncertain)) && t.fate == (if committed then Committed else Gone)
  {
    var server: Event<T> := if committed then ServerCommits else ServerDrops;
    var begin: Event<T>, back: Event<T>, timer: Event<T> := BeginReply(None), CallbackReturns(Ok(v)), Timer;
    var events := [begin, back, server, timer];
    var t0 := Leased<T>(false);
    var t1 := Step(t0, begin);
    var t2 := Step(t1, back);
    var t3 := Step(t2, server);
    var t4 := Step(t3, timer);
    assert events[1..] == [back, server, timer] && events[1..][1..] == [server, timer];
    assert events[1..][1..][1..] == [timer] && events[1..][1..][1..][1..] == [];
    assert Run(t4, []) && After(t4, []) == t4;
    assert Run(t3, [timer]) && After(t3, [timer]) == t4;
    assert Run(t2, [server, timer]) && After(t2, [server, timer]) == t4;
    assert Run(t1, [back, server, timer]) && After(t1, [back, server, timer]) == t4;
    assert Run(t0, events) && After(t0, events) == t4;
  }

  // ----- the program: flags and promises set by callbacks -----

  class Operation<T> {
    var phase: Phase<T>
    var aborted: bool
    var committing: bool
    var released: bool
    var clean: bool
    var stopped: Option<Failure>
    var settled: Option<Outcome<T>>
    ghost var returned: Option<Outcome<T>>
    ghost var fate: Fate
    ghost var releases: nat
    ghost var commits: nat
    ghost var acknowledged: bool

    ghost function View(): Tx<T>
      reads this
    {
      Tx(phase, aborted, committing, released, clean, returned, stopped, settled, fate, releases, commits, acknowledged)
    }

    constructor (abortedSince: bool)
      ensures View() == Leased(abortedSince)
    {
      phase, aborted, committing, released, clean := Beginning, false, false, false, false;
      stopped, settled, returned := None, None, None;
      fate, releases, commits, acknowledged := Undecided, 0, 0, false;
      new;
      if abortedSince {
        OnStop(true);
        phase := Returned;
      }
    }

    method ReleaseClient(destroy: bool)
      modifies this
      ensures View() == Release(old(View()), destroy)
    {
      if !released {
        released, clean := true, !destroy;
        releases := releases + 1;
      }
    }

    // Promise.race: the first of the two promises to settle.
    method Race(r: Outcome<T>)
      modifies this`settled
      ensures settled == if old(settled).Some? then old(settled) else Some(r)
    {
      if settled.None? { settled := Some(r); }
    }

    /** The budget timer or the caller's signal. */
    method OnStop(canceled: bool)
      modifies this
      ensures View() == Stop(old(View()), canceled)
    {
      aborted := true;
      ReleaseClient(true);
      var f := if committing then CommitUncertain else if canceled then Canceled else TimedOut;
      if stopped.None? {
        stopped := Some(f);
        Race(Err(f));
      }
    }

    // The finally clause, after a catch clause that destroys the client if something was thrown.
    method Finish(r: Outcome<T>, thrown: bool)
      modifies this
      ensures View() == Return(old(View()), r, thrown)
    {
      if thrown { ReleaseClient(true); }
      ReleaseClient(false);
      phase := Returned;
      Race(r);
    }

    method OnBegin(failure: Option<Thrown>)
      requires phase.Beginning?
      modifies this
      ensures View() == Step(old(View()), BeginReply(failure))
    {
      match failure {
        case None => phase := Running;
        case Some(thrown) => Finish(Err(Map(thrown)), true);
      }
    }

    method OnCallback(r: Outcome<T>)
      requires phase.Running?
      modifies this
      ensures View() == Step(old(View()), CallbackReturns(r))
    {
      returned := Some(r);
      if aborted {
        ReleaseClient(false);
        phase := Returned;
        return;
      }
      match r {
        case Err(refusal) => phase := RollingBack(refusal);
        case Ok(value) =>
          committing := true;
          phase := Committing(value);
          commits := commits + 1;
      }
    }

    method OnCallbackThrows(thrown: Thrown)
      requires phase.Running?
      modifies this
      ensures View() == Step(old(View()), CallbackThrows(thrown))
    {
      Finish(Err(Map(thrown)), true);
    }

    method OnRollback(failure: Option<Thrown>)
      requires Possible(View(), RollbackReply(failure))
      modifies this
      ensures View() == Step(old(View()), RollbackReply(failure))
    {
      match failure {
        case None => Finish(Err(phase.refusal), false);
        case Some(thrown) => Finish(Err(Map(thrown)), true);
      }
    }

    method OnCommit(isCommit: bool)
      requires Possible(View(), CommitTag(isCommit))
      modifies this
      ensures View() == Step(old(View()), CommitTag(isCommit))
    {
      if !isCommit {
        Finish(Err(ServerFailed), false);
        return;
      }
      acknowledged := true;
      Finish(Ok(phase.value), false);
    }

    method OnCommitThrows(thrown: Thrown)
      requires Possible(View(), CommitThrows(thrown))
      modifies this
      ensures View() == Step(old(View()), CommitThrows(thrown))
    {
      Finish(Err(CommitFailure(thrown)), true);
    }
  }
}
