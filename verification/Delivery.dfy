/** Bounded log delivery: one pump, drop counting and close (src/shared/logger/delivery.ts), fed by the
    emit closure (src/shared/logger/runtime.ts). */
module Delivery {
  import opened Wrappers
  import opened Fields
  import P = Provenance
  import I = Identity

  // A rendered record and its length in UTF-8.
  datatype Line = Line(text: string, bytes: nat)

  datatype Config = Config(none: bool, threshold: nat, capacity: nat, maxBytes: nat)

  // One call of a logger: what the clock reads, the extra fields in the heap they live in, and the line
  // that the formatter makes of them, none if it throws.
  datatype Emission = Emission(
    severity: nat, bad: bool, now: I.Reading, heap: Heap, extra: Value, rendered: Option<Line>)

  predicate Filtered(c: Config, e: Emission) {
    c.none || e.severity < c.threshold
  }

  function Encoded(e: Emission): Option<Line> {
    if e.bad || !P.ValidTime(e.now) || Copy(e.heap, e.extra, {}).None? then None else e.rendered
  }

  // ----- what happened, as a log -----

  datatype Flush = Unflushed | Flushing | Flushed(ok: bool)

  // The lines accepted so far, how many of them the sink was handed, and how it settled for each.
  datatype Log = Log(
    admitted: seq<Line>, sent: nat, outcomes: seq<bool>, dropped: nat, unencoded: nat, closed: bool, flush: Flush)

  datatype Event = Emit(emission: Emission) | SinkSettles(ok: bool) | FlushSettles(ok: bool) | Close

  const START := Log([], 0, [], 0, 0, false, Unflushed)

  predicate Busy(s: Log) {
    s.sent > |s.outcomes|
  }

  predicate Possible(s: Log, e: Event) {
    match e
    case SinkSettles(_) => Busy(s)
    case FlushSettles(_) => s.flush.Flushing?
    case _ => true
  }

  // Flushing starts when delivery is closed and idle; without output there is nothing to wait for.
  function Idle(c: Config, s: Log): Log {
    if s.closed then s.(flush := if c.none then Flushed(true) else Flushing) else s
  }

  function Offer(c: Config, s: Log, line: Line): Log {
    if s.closed || line.bytes > c.maxBytes || (Busy(s) && |s.admitted| - s.sent >= c.capacity) then
      s.(dropped := s.dropped + 1)
    else
      s.(admitted := s.admitted + [line], sent := if Busy(s) then s.sent else s.sent + 1)
  }

  function Next(c: Config, s: Log, e: Event): Log
    requires Possible(s, e)
  {
    match e
    case Emit(emission) =>
      if Filtered(c, emission) then s
      else if s.closed then s.(dropped := s.dropped + 1)
      else
        (match Encoded(emission)
         case None => s.(unencoded := s.unencoded + 1)
         case Some(line) => Offer(c, s, line))
    case SinkSettles(ok) =>
      var t := s.(outcomes := s.outcomes + [ok]);
      if t.sent < |t.admitted| then t.(sent := t.sent + 1) else Idle(c, t)
    case FlushSettles(ok) => s.(flush := Flushed(ok))
    case Close => if s.closed then s else if Busy(s) then s.(closed := true) else Idle(c, s.(closed := true))
  }

  function Count(outcomes: seq<bool>, ok: bool): nat {
    if outcomes == [] then 0
    else Count(outcomes[..|outcomes| - 1], ok) + if outcomes[|outcomes| - 1] == ok then 1 else 0
  }

  function Failures(s: Log): nat {
    Count(s.outcomes, false) + s.unencoded + if s.flush == Flushed(false) then 1 else 0
  }

  predicate Sound(c: Config, s: Log) {
    && |s.outcomes| <= s.sent <= |s.outcomes| + 1
    && s.sent <= |s.admitted|
    && (!Busy(s) ==> s.sent == |s.admitted|)
    && |s.admitted| - s.sent <= c.capacity
    && (s.flush.Unflushed? <==> !s.closed || Busy(s))
    && (c.none ==> !s.flush.Flushing?)
  }

  predicate Extends(s: Log, t: Log) {
    && s.admitted <= t.admitted && s.sent <= t.sent && s.outcomes <= t.outcomes
    && s.dropped <= t.dropped && s.unencoded <= t.unencoded
    && (s.closed ==> t.closed && t.admitted == s.admitted && t.unencoded == s.unencoded)
    && (s.flush.Flushed? ==> t.flush == s.flush)
    && (s.flush.Flushing? ==> !t.flush.Unflushed?)
  }

  lemma NextKeepsSound(c: Config, s: Log, e: Event)
    requires Sound(c, s) && Possible(s, e)
    ensures Sound(c, Next(c, s, e)) && Extends(s, Next(c, s, e))
  {
  }

  predicate Run(c: Config, s: Log, events: seq<Event>)
    decreases |events|
  {
    events == [] || (Possible(s, events[0]) && Run(c, Next(c, s, events[0]), events[1..]))
  }

  function After(c: Config, s: Log, events: seq<Event>): Log
    requires Run(c, s, events)
    decreases |events|
  {
    if events == [] then s else After(c, Next(c, s, events[0]), events[1..])
  }

  // The emissions of a run that pass the level filter.
  function Unfiltered(c: Config, events: seq<Event>): nat {
    if events == [] then 0
    else (if events[0].Emit? && !Filtered(c, events[0].emission) then 1 else 0) + Unfiltered(c, events[1..])
  }

  // ----- every run -----

  lemma {:induction false} RunKeepsSound(c: Config, s: Log, events: seq<Event>)
    requires Sound(c, s) && Run(c, s, events)
    ensures Sound(c, After(c, s, events)) && Extends(s, After(c, s, events))
    ensures var t := After(c, s, events);
            |t.admitted| + t.dropped + t.unencoded == |s.admitted| + s.dropped + s.unencoded + Unfiltered(c, events)
    decreases |events|
  {
    if events == [] {
    } else {
      NextKeepsSound(c, s, events[0]);
      RunKeepsSound(c, Next(c, s, events[0]), events[1..]);
    }
  }

  lemma {:induction false} CountBoth(outcomes: seq<bool>)
    ensures Count(outcomes, true) + Count(outcomes, false) == |outcomes|
    ensures Count(outcomes, false) == 0 <==> forall i | 0 <= i < |outcomes| :: outcomes[i]
  {
    if outcomes == [] {
    } else {
      CountBoth(outcomes[..|outcomes| - 1]);
    }
  }

  /** After any run: every accepted line is written, failed, waiting or in flight, at most one in flight
      and at most `capacity` waiting; every emission past the filter is accepted, dropped or
      encode-failed; and the sink was handed the accepted lines in their order. */
  lemma Conservation(c: Config, before: seq<Event>, later: seq<Event>)
    requires Run(c, START, before) && Run(c, After(c, START, before), later)
    ensures var s := After(c, START, before);
            var waiting := |s.admitted| - s.sent;
            var inFlight := s.sent - |s.outcomes|;
            && |s.admitted| == Count(s.outcomes, true) + Count(s.outcomes, false) + waiting + inFlight
            && 0 <= waiting <= c.capacity && 0 <= inFlight <= 1
            && |s.admitted| + s.dropped + s.unencoded == Unfiltered(c, before)
            && var t := After(c, s, later);
            t.sent <= |t.admitted| && s.admitted[..s.sent] <= t.admitted[..t.sent]
  {
    RunKeepsSound(c, START, before);
    var s := After(c, START, before);
    CountBoth(s.outcomes);
    RunKeepsSound(c, s, later);
  }

  // Nothing but this many of the counts of lost emissions changes.
  predicate OnlyCounts(s: Log, t: Log, dropped: nat, unencoded: nat) {
    t == s.(dropped := s.dropped + dropped, unencoded := s.unencoded + unencoded)
  }

  /** What becomes of an emission in any run: below the level nothing; while open and encodable, its line is
      accepted exactly when it is short enough and at most `capacity` accepted lines have not settled yet,
      and goes to the sink at once exactly when all have; anything else moves one counter, and only that. */
  lemma EmissionAnswers(c: Config, events: seq<Event>, e: Emission)
    requires Run(c, START, events)
    ensures var s, t := After(c, START, events), Next(c, After(c, START, events), Emit(e));
            var encodable := !e.bad && e.now.Millis? && 0 <= e.now.ms <= 281474976710655
                             && Copy(e.heap, e.extra, {}).Some? && e.rendered.Some?;
            if c.none || e.severity < c.threshold then t == s
            else if s.closed then OnlyCounts(s, t, 1, 0)
            else if !encodable then OnlyCounts(s, t, 0, 1)
            else if e.rendered.value.bytes <= c.maxBytes && |s.admitted| - |s.outcomes| <= c.capacity then
              && t == s.(admitted := s.admitted + [e.rendered.value], sent := t.sent)
              && t.sent == s.sent + if |s.outcomes| == |s.admitted| then 1 else 0
            else OnlyCounts(s, t, 1, 0)
  {
    hide Copy;
    RunKeepsSound(c, START, events);
  }

  /** A close that finds flushing finished and no failure counted: the sink has written every line ever
      accepted, and none is accepted later. */
  lemma CleanCloseMeansWritten(c: Config, before: seq<Event>, later: seq<Event>)
    requires Run(c, START, before) && Run(c, After(c, START, before), later)
    requires After(c, START, before).flush.Flushed?
    ensures var s := After(c, START, before);
            && s.sent == |s.outcomes| == |s.admitted|
            && (Failures(s) == 0 ==> s.flush.ok && forall i | 0 <= i < |s.outcomes| :: s.outcomes[i])
            && After(c, s, later) == s.(dropped := s.dropped + Unfiltered(c, later))
  {
    RunKeepsSound(c, START, before);
    var s := After(c, START, before);
    CountBoth(s.outcomes);
    RunKeepsSound(c, s, later);
    var t := After(c, s, later);
    assert s.outcomes == t.outcomes[..|s.outcomes|];
  }

  // The promises of the sink that a closed delivery still waits for.
  function Outstanding(c: Config, s: Log): int {
    |s.admitted| - |s.outcomes| + if c.none || s.flush.Flushed? then 0 else 1
  }

  /** Close makes progress: a closed delivery waits on exactly one promise of the sink at a time, each one
      settled brings it one nearer, nothing else sets it back, and with none left it is flushed. */
  lemma CloseDrains(c: Config, events: seq<Event>, e: Event)
    requires Run(c, START, events) && After(c, START, events).closed && Possible(After(c, START, events), e)
    ensures var s := After(c, START, events);
            && Outstanding(c, s) >= 0
            && (Outstanding(c, s) == 0 <==> s.flush.Flushed?)
            && (Outstanding(c, s) > 0 <==> Busy(s) || s.flush.Flushing?)
            && !(Busy(s) && s.flush.Flushing?)
            && Outstanding(c, Next(c, s, e)) == Outstanding(c, s) - if e.SinkSettles? || e.FlushSettles? then 1 else 0
  {
    RunKeepsSound(c, START, events);
  }

  // ----- the program: counters, a queue and flags, changed in place -----

  // What one outcome of the sink does to the counters, and to where the pump and the flush stand.
  lemma SettledCounts(c: Config, s: Log, ok: bool)
    requires Sound(c, s) && Busy(s)
    ensures s.sent <= |s.admitted|
    ensures var t := Next(c, s, SinkSettles(ok));
            && Count(t.outcomes, true) == Count(s.outcomes, true) + (if ok then 1 else 0)
            && Failures(t) == Failures(s) + (if ok then 0 else 1)
            && t.admitted == s.admitted && t.dropped == s.dropped && t.closed == s.closed
            && (s.sent < |s.admitted| ==> t.sent == s.sent + 1 && Busy(t) && t.flush == s.flush)
            && (s.sent == |s.admitted| ==>
                  t.sent == s.sent && !Busy(t) && (t.flush.Flushed? <==> s.closed && c.none))
            && !s.flush.Flushed?
  {
    var t := Next(c, s, SinkSettles(ok));
    assert t.outcomes[..|s.outcomes|] == s.outcomes;
  }

  datatype CloseError = InvalidDeadline | DeadlineExceeded | SinkFailed

  class Delivery {
    const capacity: nat
    const maxBytes: nat
    const noop: bool
    var accepted: nat
    var written: nat
    var dropped: nat
    var failed: nat
    var closed: bool
    var queue: seq<Line>
    var running: bool
    var done: bool
    ghost const config: Config
    ghost var log: Log
    ghost var handed: seq<Line>  // the arguments of the calls of sink.write

    // The counters are those of the log, the sink was handed what it says, and the rest is queued.
    ghost predicate Valid()
      reads this
    {
      && config.capacity == capacity && config.maxBytes == maxBytes && config.none == noop
      && Sound(config, log)
      && accepted == |log.admitted| && written == Count(log.outcomes, true)
      && dropped == log.dropped && failed == Failures(log)
      && closed == log.closed && running == Busy(log) && done == log.flush.Flushed?
      && handed == log.admitted[..log.sent] && queue == log.admitted[log.sent..]
    }

    constructor (ghost config: Config, capacity: nat, maxBytes: nat, noop: bool)
      requires config.capacity == capacity && config.maxBytes == maxBytes && config.none == noop
      ensures Valid() && log == START && this.config == config
    {
      this.config := config;
      this.capacity, this.maxBytes, this.noop := capacity, maxBytes, noop;
      accepted, written, dropped, failed := 0, 0, 0, 0;
      closed, queue, running, done := false, [], false, false;
      log := START;
      handed := [];
    }

    /** The program's own counters balance: what is accepted is written, failed at the sink, queued or in
        flight; the other failures are encodings and the flush. */
    lemma Balance()
      requires Valid()
      ensures accepted == written + Count(log.outcomes, false) + |queue| + if running then 1 else 0
      ensures failed == Count(log.outcomes, false) + log.unencoded + if log.flush == Flushed(false) then 1 else 0
      ensures |queue| <= capacity && (queue != [] ==> running)
    {
      CountBoth(log.outcomes);
    }

    method Write(line: Line)
      requires Valid()
      modifies this
      ensures Valid() && log == Offer(config, old(log), line)
    {
      log := Offer(config, log, line);
      if closed || line.bytes > maxBytes || (running && |queue| >= capacity) {
        dropped := dropped + 1;
        return;
      }
      accepted := accepted + 1;
      queue := queue + [line];
      if !running {
        running := true;
        Shift();
      }
    }

    // The pump takes the next line and hands it to the sink; it is suspended until the sink settles.
    method Shift()
      requires queue != []
      modifies this`queue, this`handed
      ensures queue == old(queue)[1..] && handed == old(handed) + [old(queue)[0]]
    {
      var line := queue[0];
      queue := queue[1..];
      handed := handed + [line];
    }

    /** The pump resumes: the sink's promise for the line in flight has settled. */
    method SinkSettles(ok: bool)
      requires Valid() && running
      modifies this
      ensures Valid() && log == Next(config, old(log), Event.SinkSettles(ok))
    {
      hide Count, Sound, Idle;
      NextKeepsSound(config, log, Event.SinkSettles(ok));
      SettledCounts(config, log, ok);
      log := Next(config, log, Event.SinkSettles(ok));
      if ok { written := written + 1; } else { failed := failed + 1; }
      if queue != [] {
        Shift();
      } else {
        running := false;
        if closed { StartFlush(); }
      }
    }

    // The part of the flush before its first await.
    method StartFlush()
      modifies this`done
      ensures done == (old(done) || noop)
    {
      if noop { done := true; }
    }

    method FlushSettles(ok: bool)
      requires Valid() && log.flush.Flushing?
      modifies this
      ensures Valid() && log == Next(config, old(log), Event.FlushSettles(ok))
    {
      log := Next(config, log, Event.FlushSettles(ok));
      if !ok { failed := failed + 1; }
      done := true;
    }

    /** The part of close before its wait; an invalid deadline changes nothing. */
    method Close(validDeadline: bool) returns (refused: Option<CloseError>)
      requires Valid()
      modifies this
      ensures Valid()
      ensures if validDeadline then refused == None && log == Next(config, old(log), Event.Close)
              else refused == Some(InvalidDeadline) && log == old(log)
    {
      if !validDeadline { return Some(InvalidDeadline); }
      log := Next(config, log, Event.Close);
      if !closed {
        closed := true;
        if !running { StartFlush(); }
      }
      return None;
    }

    /** The answer once the wait is over, by the deadline or because flushing is done. */
    method CloseResult(timedOut: bool) returns (r: Result<(), CloseError>)
      requires Valid() && (timedOut || done)
      ensures r == if timedOut then Err(DeadlineExceeded) else if Failures(log) == 0 then Ok(()) else Err(SinkFailed)
      ensures r.Ok? ==> written == accepted && queue == [] && !running
    {
      CountBoth(log.outcomes);
      if timedOut { return Err(DeadlineExceeded); }
      return if failed > 0 then Err(SinkFailed) else Ok(());
    }

    // The emit closure of runtime.ts; the formatter's line is part of the emission.
    method EmitRecord(none: bool, threshold: nat, e: Emission)
      requires Valid() && config.none == none && config.threshold == threshold
      modifies this
      ensures Valid() && log == Next(config, old(log), Emit(e))
    {
      if none || e.severity < threshold { return; }
      if closed {
        log := Next(config, log, Emit(e));
        dropped := dropped + 1;
        return;
      }
      if e.bad || !P.ValidTime(e.now) {
        log := Next(config, log, Emit(e));
        failed := failed + 1;
        return;
      }
      var parents := new Parents();
      var fields := parents.Snapshot(e.heap, e.extra);
      if fields.None? || e.rendered.None? {
        log := Next(config, log, Emit(e));
        failed := failed + 1;
        return;
      }
      Write(e.rendered.value);
    }
  }
}
