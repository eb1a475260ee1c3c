/** WebSocket connection lifetime (src/shared/socket/ws/server.ts): a state machine per connection, one
    handler at a time, and an orderly close. */
module Socket {
  import opened Wrappers

  const LIMIT := 64
  const PROTOCOL := "n2f.v1"

  // ----- one connection -----

  // The handler's promise `pending` is set in every phase but Idle: while session.handle runs, while its
  // response is sent, and until the promise's finally callback clears it.
  datatype Phase = Idle | Handling | Sending | Finishing

  datatype Conn = Conn(
    phase: Phase, pong: bool, closing: bool,
    stopped: bool,              // stop.abort was called
    aborted: bool,              // the operation's signal of the current handler
    gone: bool,                 // the close event was seen
    starts: nat,                // calls of session.handle
    ends: nat,                  // handlers whose promise is over
    sends: nat,                 // responses sent
    sessionCloses: nat,         // calls of session.close
    closeCode: Option<nat>,     // of the first ws.close
    terminated: bool)

  datatype ConnEvent =
    | Message(isBinary: bool, decodes: bool)
    | HandlerReturns(ok: bool, encodes: bool)
    | HandlerThrows
    | SendSettles(ok: bool)
    | PendingCleared
    | HandlerDeadline
    | Heartbeat
    | Pong
    | StoppingNotice   // Server.close asks for a closing handshake
    | Killed           // the budget of Server.close is spent
    | Closed           // the close event of the socket
    | Cleanup          // after the close event, once `await pending` is over

  const ACCEPTED := Conn(Idle, true, false, false, false, false, 0, 0, 0, 0, None, false)

  predicate ConnPossible(c: Conn, e: ConnEvent) {
    match e
    case HandlerReturns(_, _) | HandlerThrows => c.phase.Handling?
    case SendSettles(_) => c.phase.Sending?
    case PendingCleared => c.phase.Finishing?
    case HandlerDeadline => c.phase.Handling? || c.phase.Sending?
    case Heartbeat => !c.gone
    case Closed => !c.gone
    case Cleanup => c.gone && c.phase.Idle? && c.sessionCloses == 0
    case _ => true
  }

  function AskClose(c: Conn, code: nat): (d: Conn)
    ensures d == c.(closeCode := d.closeCode)
  {
    if c.closeCode.Some? then c else c.(closeCode := Some(code))
  }

  // Aborting twice is aborting once: a handler that started in between is not reached.
  function Abort(c: Conn): Conn {
    if c.stopped then c else c.(stopped := true, aborted := c.aborted || c.phase.Handling? || c.phase.Sending?)
  }

  function Receive(c: Conn, isBinary: bool, decodes: bool): Conn {
    if c.closing then c
    else if !c.phase.Idle? then AskClose(c, 1013).(closing := true)
    else if isBinary then AskClose(c, 1003).(closing := true)
    else if !decodes then AskClose(c, 1008).(closing := true)
    else c.(phase := Handling, aborted := false, starts := c.starts + 1)
  }

  function Respond(c: Conn, ok: bool): Conn {
    if c.aborted || c.closing then c.(phase := Finishing)
    else if !ok then AskClose(c, 1011).(closing := true, phase := Finishing)
    else c.(phase := Sending, sends := c.sends + 1)
  }

  function ConnNext(c: Conn, e: ConnEvent): Conn
    requires ConnPossible(c, e)
  {
    match e
    case Message(isBinary, decodes) => Receive(c, isBinary, decodes)
    case HandlerReturns(ok, encodes) => Respond(c, ok && encodes)
    case HandlerThrows => AskClose(c, 1011).(closing := true, phase := Finishing)
    case SendSettles(ok) =>
      if ok then c.(phase := Finishing)
      else AskClose(c, 1011).(closing := true, phase := Finishing)
    case PendingCleared => c.(phase := Idle, ends := c.ends + 1)
    case HandlerDeadline => c.(aborted := true, terminated := true)
    case Heartbeat => if c.pong then c.(pong := false) else c.(terminated := true)
    case Pong => c.(pong := true)
    case StoppingNotice => AskClose(c, 1001)
    case Killed => Abort(c).(terminated := true)
    case Closed => Abort(c.(closing := true, gone := true))
    case Cleanup => c.(sessionCloses := c.sessionCloses + 1)
  }

  predicate ConnSound(c: Conn) {
    && (c.gone ==> c.closing && c.stopped)
    && c.sessionCloses <= 1
    && (c.sessionCloses == 1 ==> c.gone && c.phase.Idle?)
    && c.starts == c.ends + (if c.phase.Idle? then 0 else 1)
    && c.sends <= c.starts
    && (c.phase.Handling? ==> c.sends < c.starts)
  }

  // Steps of the handler and of the clean-up that are still to come once the socket is closed.
  function Remaining(c: Conn): nat {
    (match c.phase case Handling => 3 case Sending => 2 case Finishing => 1 case Idle => 0)
    + if c.sessionCloses == 0 then 1 else 0
  }

  predicate Progress(e: ConnEvent) {
    e.HandlerReturns? || e.HandlerThrows? || e.SendSettles? || e.PendingCleared? || e.Cleanup?
  }

  lemma ConnKeepsSound(c: Conn, e: ConnEvent)
    requires ConnSound(c) && ConnPossible(c, e)
    ensures ConnSound(ConnNext(c, e))
  {
    hide AskClose;
    if e.Message? {
      ReceiveSound(c, e.isBinary, e.decodes);
      hide Receive;
    }
  }

  lemma ReceiveSound(c: Conn, isBinary: bool, decodes: bool)
    requires ConnSound(c)
    ensures ConnSound(Receive(c, isBinary, decodes))
  {
    hide AskClose;
  }

  lemma ReceiveStep(c: Conn, isBinary: bool, decodes: bool)
    ensures var d := Receive(c, isBinary, decodes);
            && d.starts == c.starts + (if c.phase.Idle? && !c.closing && !isBinary && decodes then 1 else 0)
            && (d.starts > c.starts ==> d.phase.Handling?)
            && d.sends == c.sends && d.gone == c.gone && d.sessionCloses == c.sessionCloses && (c.closing ==> d.closing)
  {
    hide AskClose;
  }

  /** A handler starts only when none is pending, nothing is closing and the session is open; nothing is
      sent once closing or aborted; closing is for ever; session.close comes after the pending handler. */
  lemma ConnStep(c: Conn, e: ConnEvent)
    requires ConnPossible(c, e)
    ensures var d := ConnNext(c, e);
            && c.starts <= d.starts <= c.starts + 1
            && (d.starts > c.starts ==> c.phase.Idle? && !c.closing && d.phase.Handling?)
            && (d.sends > c.sends ==> c.phase.Handling? && !c.closing && !c.aborted)
            && (c.closing ==> d.closing) && (c.gone ==> d.gone)
            && d.sessionCloses == c.sessionCloses + (if e.Cleanup? then 1 else 0)
            && (d.sessionCloses > c.sessionCloses ==> c.gone && c.phase.Idle? && c.sessionCloses == 0)
  {
    hide AskClose;
    if e.Message? {
      ReceiveStep(c, e.isBinary, e.decodes);
      hide Receive;
    }
  }

  // The close code that an event gives its peer a reason for, if it asks for a close at all.
  function Reason(c: Conn, e: ConnEvent): Option<nat>
    requires ConnPossible(c, e)
  {
    match e
    case StoppingNotice => Some(1001)
    case Message(isBinary, decodes) =>
      if c.closing then None
      else if !c.phase.Idle? then Some(1013)
      else if isBinary then Some(1003)
      else if decodes then None else Some(1008)
    case HandlerReturns(ok, encodes) => if c.closing || c.aborted || (ok && encodes) then None else Some(1011)
    case HandlerThrows => Some(1011)
    case SendSettles(ok) => if ok then None else Some(1011)
    case _ => None
  }

  predicate Starts(c: Conn, e: ConnEvent) {
    e.Message? && !c.closing && c.phase.Idle? && !e.isBinary && e.decodes
  }

  predicate Answers(c: Conn, e: ConnEvent) {
    e.HandlerReturns? && e.ok && e.encodes && !c.closing && !c.aborted
  }

  // What d is after an event, part by part.
  predicate Brings(c: Conn, e: ConnEvent, d: Conn)
    requires ConnPossible(c, e)
  {
    && d.starts == c.starts + (if Starts(c, e) then 1 else 0)
    && d.sends == c.sends + (if Answers(c, e) then 1 else 0)
    && d.ends == c.ends + (if e.PendingCleared? then 1 else 0)
    && d.closeCode == (if c.closeCode.Some? then c.closeCode else Reason(c, e))
    && (d.closing <==> c.closing || e.Closed? || (Reason(c, e).Some? && !e.StoppingNotice?))
    && (d.terminated <==> c.terminated || e.HandlerDeadline? || e.Killed? || (e.Heartbeat? && !c.pong))
    && (d.pong <==> e.Pong? || (c.pong && !e.Heartbeat?))
    && (d.gone <==> c.gone || e.Closed?) && (d.stopped <==> c.stopped || e.Closed? || e.Killed?)
    && (d.aborted <==>
          && !Starts(c, e)
          && (c.aborted || e.HandlerDeadline?
              || ((e.Closed? || e.Killed?) && !c.stopped && (c.phase.Handling? || c.phase.Sending?))))
  }

  /** What each event brings about, and that nothing else does: a decodable text message starts the handler
      when none is pending; an encodable answer is sent unless aborted or closing; the first reason to close
      is the one that the peer is given; and only a missed pong, a deadline or a budget terminates. */
  lemma ConnAnswers(c: Conn, e: ConnEvent)
    requires ConnPossible(c, e)
    ensures Brings(c, e, ConnNext(c, e))
  {
    hide ConnNext, Brings;
    if e.Message? {
      ReceiveAnswers(c, e.isBinary, e.decodes);
    } else if e.HandlerReturns? || e.HandlerThrows? || e.SendSettles? {
      HandlerAnswers(c, e);
    } else {
      OtherAnswers(c, e);
    }
  }

  lemma OtherAnswers(c: Conn, e: ConnEvent)
    requires ConnPossible(c, e) && !e.Message? && !e.HandlerReturns? && !e.HandlerThrows? && !e.SendSettles?
    ensures Brings(c, e, ConnNext(c, e))
  {
    hide Receive, Respond;
  }

  // A close that is asked for on the way to another phase.
  lemma ClosesFor(c: Conn, e: ConnEvent, code: nat, phase: Phase)
    requires ConnPossible(c, e) && Reason(c, e) == Some(code) && !Starts(c, e) && !Answers(c, e)
    requires e.Message? || e.HandlerReturns? || e.HandlerThrows? || e.SendSettles?
    ensures Brings(c, e, AskClose(c, code).(closing := true, phase := phase))
  {
    hide Reason, Starts, Answers, ConnPossible;
  }

  lemma HandlerAnswers(c: Conn, e: ConnEvent)
    requires ConnPossible(c, e) && (e.HandlerReturns? || e.HandlerThrows? || e.SendSettles?)
    ensures Brings(c, e, ConnNext(c, e))
  {
    if Reason(c, e).Some? {
      ClosesFor(c, e, 1011, Finishing);
      hide Receive, AskClose, Brings;
    } else {
      hide Receive, AskClose;
    }
  }

  lemma ReceiveAnswers(c: Conn, isBinary: bool, decodes: bool)
    ensures Brings(c, Message(isBinary, decodes), ConnNext(c, Message(isBinary, decodes)))
  {
    var reason := Reason(c, Message(isBinary, decodes));
    if reason.Some? {
      ClosesFor(c, Message(isBinary, decodes), reason.value, c.phase);
      hide AskClose, Brings;
    } else {
      hide AskClose;
    }
  }

  // Nothing that disturbs a handler: heartbeats that are answered in time, and notices of a close to come.
  predicate Quiet(events: seq<ConnEvent>) {
    forall i | 0 <= i < |events| :: events[i].Heartbeat? || events[i].Pong? || events[i].StoppingNotice?
  }

  function QuietNext(c: Conn, events: seq<ConnEvent>): Conn
    requires !c.gone && Quiet(events)
    decreases |events|
  {
    if events == [] then c
    else
      assert Quiet(events[1..]);
      QuietNext(ConnNext(c, events[0]), events[1..])
  }

  lemma {:induction false} QuietKeeps(c: Conn, events: seq<ConnEvent>)
    requires !c.gone && Quiet(events)
    ensures var d := QuietNext(c, events);
            d == c.(pong := d.pong, terminated := d.terminated, closeCode := d.closeCode)
    decreases |events|
  {
    if events == [] {
    } else {
      assert Quiet(events[1..]);
      QuietKeeps(ConnNext(c, events[0]), events[1..]);
    }
  }

  /** An exchange: on an open, idle connection a decodable text message whose handler returns an encodable
      answer gets exactly that answer, whatever heartbeats pass meanwhile, and leaves the connection as open
      and idle as it was, so the next message is served too. */
  lemma ExchangeIsAnswered(c: Conn, first: seq<ConnEvent>, second: seq<ConnEvent>)
    requires c.phase.Idle? && !c.closing && !c.gone && Quiet(first) && Quiet(second)
    ensures var asked := ConnNext(c, Message(false, true));
            && asked.phase.Handling? && !asked.gone
            && var worked := QuietNext(asked, first);
            && worked.phase.Handling? && !worked.gone
            && var sent := ConnNext(worked, HandlerReturns(true, true));
            && sent.phase.Sending? && !sent.gone
            && var waited := QuietNext(sent, second);
            && waited.phase.Sending?
            && var d := ConnNext(ConnNext(waited, SendSettles(true)), PendingCleared);
            && d.phase.Idle? && !d.closing && !d.gone && !d.aborted
            && d.starts == c.starts + 1 && d.sends == c.sends + 1 && d.ends == c.ends + 1
  {
    hide AskClose;
    var asked := ConnNext(c, Message(false, true));
    QuietKeeps(asked, first);
    QuietKeeps(ConnNext(QuietNext(asked, first), HandlerReturns(true, true)), second);
  }

  /** Once the socket is closed a connection waits for nothing but its handler and its clean-up, and each
      of their steps brings it nearer. */
  lemma ClosedOnlyWaits(c: Conn, e: ConnEvent)
    requires ConnSound(c) && ConnPossible(c, e) && c.gone
    ensures Remaining(ConnNext(c, e)) <= Remaining(c)
    ensures Progress(e) ==> Remaining(ConnNext(c, e)) < Remaining(c)
    ensures Remaining(c) == 0 <==> c.sessionCloses == 1
    ensures Remaining(c) > 0 ==>
              exists p: ConnEvent | Progress(p) :: ConnPossible(c, p)
  {
    var next := match c.phase case Handling => HandlerThrows case Sending => SendSettles(true)
                              case Finishing => PendingCleared case Idle => Cleanup;
    assert Progress(next);
    assert Remaining(c) > 0 ==> ConnPossible(c, next);
  }

  // ----- the server -----

  datatype Request = Request(origins: seq<string>, protocols: seq<string>)

  predicate Welcome(r: Request, origin: string) {
    |r.origins| == 1 && r.origins[0] == origin && PROTOCOL in r.protocols
  }

  // Every connection ever admitted by number, and for each call of close the connections it waits for.
  datatype World = World(closed: bool, conns: seq<Conn>, waits: seq<set<nat>>)

  const FRESH := World(false, [], [])

  // Handshake: ws completed it, which it does before handleUpgrade returns. Opens: open() gave a session.
  datatype Event =
    | Upgrade(request: Request, handshake: bool, opens: bool)
    | On(id: nat, event: ConnEvent)
    | Close
    | BudgetSpent(call: nat)

  function Active(w: World): set<nat> {
    set i | 0 <= i < |w.conns| && w.conns[i].sessionCloses == 0
  }

  predicate Possible(w: World, e: Event) {
    match e
    case On(id, event) =>
      id < |w.conns| && ConnPossible(w.conns[id], event) && !event.StoppingNotice? && !event.Killed?
    case BudgetSpent(call) => call < |w.waits|
    case _ => true
  }

  datatype Answer = Forbidden | Unavailable | Dropped | Admitted

  function Answered(w: World, origin: string, r: Request, handshake: bool, opens: bool): Answer {
    if !Welcome(r, origin) then Forbidden
    else if w.closed || |Active(w)| >= LIMIT then Unavailable
    else if handshake && opens then Admitted else Dropped
  }

  function Tell(conns: seq<Conn>, ids: set<nat>, e: ConnEvent): seq<Conn>
    requires e.StoppingNotice? || e.Killed?
  {
    seq(|conns|, i requires 0 <= i < |conns| => if i in ids then ConnNext(conns[i], e) else conns[i])
  }

  function Next(w: World, origin: string, e: Event): World
    requires Possible(w, e)
  {
    match e
    case Upgrade(request, handshake, opens) =>
      if Answered(w, origin, request, handshake, opens).Admitted? then w.(conns := w.conns + [ACCEPTED]) else w
    case On(id, event) => w.(conns := w.conns[id := ConnNext(w.conns[id], event)])
    case Close =>
      w.(closed := true, waits := w.waits + [Active(w)], conns := Tell(w.conns, Active(w), StoppingNotice))
    case BudgetSpent(call) => w.(conns := Tell(w.conns, w.waits[call], Killed))
  }

  ghost predicate Sound(w: World) {
    && (forall i | 0 <= i < |w.conns| :: ConnSound(w.conns[i]))
    && |Active(w)| <= LIMIT
    && (w.waits != [] ==> w.closed)
    && (forall k, i | 0 <= k < |w.waits| && 0 <= i < |w.conns| && i !in w.waits[k] :: w.conns[i].sessionCloses == 1)
  }

  // What holds of every later state.
  ghost predicate Leads(w: World, v: World) {
    && (w.closed ==> v.closed && |v.conns| == |w.conns|)
    && |w.conns| <= |v.conns| && w.waits <= v.waits
    && (forall i | 0 <= i < |w.conns| ::
          var c, d := w.conns[i], v.conns[i];
          && (c.closing ==> d.closing && d.starts == c.starts)
          && (c.sessionCloses == 1 ==> d.sessionCloses == 1))
  }

  /** The answers to a request, in the numbers of the protocol: 403 unless it names one origin, the
      server's, and offers n2f.v1; 503 once the server is closed or 64 sessions are open. */
  lemma UpgradeAnswers(w: World, origin: string, r: Request, handshake: bool, opens: bool)
    ensures var answer, v := Answered(w, origin, r, handshake, opens), Next(w, origin, Upgrade(r, handshake, opens));
            && (answer.Forbidden? <==> r.origins != [origin] || "n2f.v1" !in r.protocols)
            && (answer.Unavailable? <==> !answer.Forbidden? && (w.closed || |Active(w)| >= 64))
            && (answer.Admitted? <==> !answer.Forbidden? && !answer.Unavailable? && handshake && opens)
            && v == (if answer.Admitted? then w.(conns := w.conns + [v.conns[|v.conns| - 1]]) else w)
            && (answer.Admitted? ==>
                  var c := v.conns[|w.conns|];
                  && c.phase.Idle? && c.pong && !c.closing && !c.gone && !c.stopped && !c.terminated
                  && c.closeCode.None? && c.starts == c.ends == c.sends == c.sessionCloses == 0)
  {
    assert r.origins == [origin] <==> |r.origins| == 1 && r.origins[0] == origin;
  }

  // A connection that still had no reason to close is given 1001; nothing else of it changes.
  predicate AskedToLeave(c: Conn, d: Conn) {
    d == if c.closeCode.None? then c.(closeCode := Some(1001)) else c
  }

  // A connection is terminated, and its handler is told to stop if it was not told before.
  predicate CutOff(c: Conn, d: Conn) {
    && d == c.(terminated := true, stopped := true, aborted := d.aborted)
    && (d.aborted <==> c.aborted || (!c.stopped && (c.phase.Handling? || c.phase.Sending?)))
  }

  lemma ToldAnswers(c: Conn)
    ensures AskedToLeave(c, ConnNext(c, StoppingNotice)) && CutOff(c, ConnNext(c, Killed))
  {
    hide Receive, Respond;
  }

  /** Closing asks every session still open to leave, and waits for all of them ... */
  lemma CloseReaches(w: World, origin: string)
    ensures var v := Next(w, origin, Close);
            && v.closed && v.waits == w.waits + [set i | 0 <= i < |w.conns| && w.conns[i].sessionCloses == 0]
            && |v.conns| == |w.conns|
            && forall i | 0 <= i < |w.conns| ::
                 if w.conns[i].sessionCloses == 0 then AskedToLeave(w.conns[i], v.conns[i])
                 else v.conns[i] == w.conns[i]
  {
    hide ConnNext, AskedToLeave, CutOff;
    forall i | 0 <= i < |w.conns| ensures AskedToLeave(w.conns[i], ConnNext(w.conns[i], StoppingNotice)) {
      ToldAnswers(w.conns[i]);
    }
  }

  /** ... and once its budget is spent, it cuts off what it waits for, and nothing else. */
  lemma BudgetReaches(w: World, origin: string, call: nat)
    requires call < |w.waits|
    ensures var v := Next(w, origin, BudgetSpent(call));
            && v.closed == w.closed && v.waits == w.waits && |v.conns| == |w.conns|
            && forall i | 0 <= i < |w.conns| ::
                 if i in w.waits[call] then CutOff(w.conns[i], v.conns[i]) else v.conns[i] == w.conns[i]
  {
    hide ConnNext, AskedToLeave, CutOff;
    forall i | 0 <= i < |w.conns| ensures CutOff(w.conns[i], ConnNext(w.conns[i], Killed)) {
      ToldAnswers(w.conns[i]);
    }
  }

  lemma ActiveAfter(w: World, id: nat, c: Conn)
    requires id < |w.conns|
    ensures Active(w.(conns := w.conns[id := c])) == if c.sessionCloses == 0 then Active(w) + {id} else Active(w) - {id}
    ensures |Active(w.(conns := w.conns[id := c]))| <= |Active(w)| + if w.conns[id].sessionCloses == 0 then 0 else 1
  {
    var a, b := Active(w), Active(w.(conns := w.conns[id := c]));
    if c.sessionCloses == 0 { assert b == a + {id}; } else { assert b == a - {id}; }
    if id in a { assert a + {id} == a; }
  }

  lemma ToldKeeps(c: Conn, e: ConnEvent)
    requires (e.StoppingNotice? || e.Killed?) && ConnSound(c)
    ensures var d := ConnNext(c, e);
            ConnSound(d) && d.closing == c.closing && d.starts == c.starts && d.sessionCloses == c.sessionCloses
  {
    hide AskClose;
  }

  lemma TellKeeps(conns: seq<Conn>, ids: set<nat>, e: ConnEvent)
    requires e.StoppingNotice? || e.Killed?
    requires forall i | 0 <= i < |conns| :: ConnSound(conns[i])
    ensures |Tell(conns, ids, e)| == |conns|
    ensures forall i | 0 <= i < |conns| ::
              var c, d := conns[i], Tell(conns, ids, e)[i];
              ConnSound(d) && d.closing == c.closing && d.starts == c.starts && d.sessionCloses == c.sessionCloses
  {
    hide ConnNext, ConnSound, AskClose, Abort;
    forall i | 0 <= i < |conns|
      ensures var c, d := conns[i], Tell(conns, ids, e)[i];
              ConnSound(d) && d.closing == c.closing && d.starts == c.starts && d.sessionCloses == c.sessionCloses
    {
      ToldKeeps(conns[i], e);
    }
  }

  lemma ConnSoundCloses(c: Conn)
    requires ConnSound(c)
    ensures c.sessionCloses <= 1
  {
  }

  lemma OnKeepsSound(w: World, origin: string, id: nat, event: ConnEvent)
    requires Sound(w) && Possible(w, On(id, event))
    ensures Sound(Next(w, origin, On(id, event))) && Leads(w, Next(w, origin, On(id, event)))
  {
    hide ConnNext, ConnPossible, ConnSound, Active;
    ConnKeepsSound(w.conns[id], event);
    ConnStep(w.conns[id], event);
    ConnSoundCloses(w.conns[id]);
    ConnSoundCloses(ConnNext(w.conns[id], event));
    ActiveAfter(w, id, ConnNext(w.conns[id], event));
  }

  lemma AdmitActive(w: World)
    ensures Active(w.(conns := w.conns + [ACCEPTED])) == Active(w) + {|w.conns|}
  {
  }

  lemma AcceptKeepsSound(w: World)
    requires Sound(w) && !w.closed && |Active(w)| < LIMIT
    ensures var v := w.(conns := w.conns + [ACCEPTED]); Sound(v) && Leads(w, v)
  {
    hide ConnSound, Active;
    AdmitActive(w);
    AcceptedIsSound();
    var v := w.(conns := w.conns + [ACCEPTED]);
    assert forall i | 0 <= i < |w.conns| :: v.conns[i] == w.conns[i];
  }

  lemma AcceptedIsSound()
    ensures ConnSound(ACCEPTED)
  {
  }

  lemma AdmitKeepsSound(w: World, origin: string, request: Request, handshake: bool, opens: bool)
    requires Sound(w)
    ensures var e := Upgrade(request, handshake, opens); Sound(Next(w, origin, e)) && Leads(w, Next(w, origin, e))
  {
    hide Sound, Active;
    if Answered(w, origin, request, handshake, opens).Admitted? { AcceptKeepsSound(w); }
  }

  lemma CloseKeepsSound(w: World, origin: string, e: Event)
    requires Sound(w) && Possible(w, e) && (e.Close? || e.BudgetSpent?)
    ensures Sound(Next(w, origin, e)) && Leads(w, Next(w, origin, e)) && Active(Next(w, origin, e)) == Active(w)
  {
    hide ConnNext, ConnSound, Tell;
    var ids := if e.Close? then Active(w) else w.waits[e.call];
    TellKeeps(w.conns, ids, if e.Close? then StoppingNotice else Killed);
    var v := Next(w, origin, e);
    assert Active(v) == Active(w);
    forall i | 0 <= i < |w.conns| ensures w.conns[i].sessionCloses <= 1 {
      ConnSoundCloses(w.conns[i]);
    }
  }

  lemma StepKeepsSound(w: World, origin: string, e: Event)
    requires Sound(w) && Possible(w, e)
    ensures Sound(Next(w, origin, e)) && Leads(w, Next(w, origin, e))
  {
    hide *;
    match e {
      case Upgrade(request, handshake, opens) => AdmitKeepsSound(w, origin, request, handshake, opens);
      case On(id, event) => OnKeepsSound(w, origin, id, event);
      case _ => CloseKeepsSound(w, origin, e);
    }
  }

  // ----- every run -----

  predicate Run(w: World, origin: string, events: seq<Event>)
    decreases |events|
  {
    events == [] || (Possible(w, events[0]) && Run(Next(w, origin, events[0]), origin, events[1..]))
  }

  function After(w: World, origin: string, events: seq<Event>): World
    requires Run(w, origin, events)
    decreases |events|
  {
    if events == [] then w else After(Next(w, origin, events[0]), origin, events[1..])
  }

  lemma LeadsOn(u: World, v: World, w: World)
    requires Leads(u, v) && Leads(v, w)
    ensures Leads(u, w)
  {
  }

  lemma {:induction false} RunKeepsSound(w: World, origin: string, events: seq<Event>)
    requires Sound(w) && Run(w, origin, events)
    ensures Sound(After(w, origin, events)) && Leads(w, After(w, origin, events))
    decreases |events|
  {
    hide Sound, Possible, Next;
    if events != [] {
      var next := Next(w, origin, events[0]);
      StepKeepsSound(w, origin, events[0]);
      RunKeepsSound(next, origin, events[1..]);
      hide Leads;
      LeadsOn(w, next, After(w, origin, events));
    } else {
      assert Leads(w, w);
    }
  }

  /** Over any order of events: at most 64 sessions are open; on every connection at most one handler has
      started and not ended; session.close runs at most once, only after the last handler ended; and once
      closing is set no handler starts any more. */
  lemma Lifetimes(origin: string, before: seq<Event>, later: seq<Event>, id: nat)
    requires Run(FRESH, origin, before) && Run(After(FRESH, origin, before), origin, later)
    requires id < |After(FRESH, origin, before).conns|
    ensures var w := After(FRESH, origin, before);
            var c := w.conns[id];
            && |Active(w)| <= LIMIT
            && c.ends <= c.starts <= c.ends + 1
            && c.sessionCloses <= 1
            && (c.sessionCloses == 1 ==> c.closing && c.starts == c.ends)
            && id < |After(w, origin, later).conns|
            && var d := After(w, origin, later).conns[id];
            (c.closing ==> d.starts == c.starts) && (c.sessionCloses == 1 ==> d.sessionCloses == 1)
  {
    assert Active(FRESH) == {};
    RunKeepsSound(FRESH, origin, before);
    var w := After(FRESH, origin, before);
    assert ConnSound(w.conns[id]);
    RunKeepsSound(w, origin, later);
  }

  // Server.close answers true when every connection that this call waits for is cleaned up.
  predicate Drained(w: World, call: nat) {
    call < |w.waits| && forall i | i in w.waits[call] && i < |w.conns| :: w.conns[i].sessionCloses == 1
  }

  /** Once a call of Server.close can answer true, no admitted session is left: every connection ever
      admitted has been cleaned up, and no other one is ever admitted. */
  lemma DrainedMeansEmpty(origin: string, before: seq<Event>, later: seq<Event>, call: nat)
    requires Run(FRESH, origin, before) && Run(After(FRESH, origin, before), origin, later)
    requires Drained(After(FRESH, origin, before), call)
    ensures var w := After(FRESH, origin, before);
            var w' := After(w, origin, later);
            Active(w) == {} && Active(w') == {} && |w'.conns| == |w.conns|
  {
    assert Active(FRESH) == {};
    RunKeepsSound(FRESH, origin, before);
    var w := After(FRESH, origin, before);
    RunKeepsSound(w, origin, later);
    forall i | 0 <= i < |w.conns| ensures w.conns[i].sessionCloses == 1 {
      if i !in w.waits[call] {}
    }
  }

  // ----- the program: what `accept` keeps for a connection -----

  class Connection {
    var pending: Phase
    var pong: bool
    var closing: bool
    var stopped: bool
    var aborted: bool
    var gone: bool
    var closeCode: Option<nat>
    var terminated: bool
    ghost var starts: nat
    ghost var ends: nat
    ghost var sends: nat
    ghost var sessionCloses: nat

    ghost function View(): Conn
      reads this
    {
      Conn(pending, pong, closing, stopped, aborted, gone, starts, ends, sends, sessionCloses, closeCode, terminated)
    }

    constructor ()
      ensures View() == ACCEPTED
    {
      pending, pong, closing, stopped, aborted, gone := Idle, true, false, false, false, false;
      closeCode, terminated := None, false;
      starts, ends, sends, sessionCloses := 0, 0, 0, 0;
    }

    // ws.close
    method Ask(code: nat)
      modifies this
      ensures View() == AskClose(old(View()), code)
    {
      if closeCode.None? { closeCode := Some(code); }
    }

    method OnMessage(isBinary: bool, decodes: bool)
      modifies this
      ensures View() == ConnNext(old(View()), Message(isBinary, decodes))
    {
      if closing { return; }
      if pending != Idle {
        closing := true;
        Ask(1013);
        return;
      }
      if isBinary {
        closing := true;
        Ask(1003);
        return;
      }
      if !decodes {
        closing := true;
        Ask(1008);
        return;
      }
      pending, aborted := Handling, false;
      starts := starts + 1;
    }

    method OnHandlerReturns(ok: bool, encodes: bool)
      requires pending == Handling
      modifies this
      ensures View() == ConnNext(old(View()), HandlerReturns(ok, encodes))
    {
      if aborted || closing {
        pending := Finishing;
        return;
      }
      if !ok || !encodes {
        closing := true;
        Ask(1011);
        pending := Finishing;
        return;
      }
      pending := Sending;
      sends := sends + 1;
    }

    // A throwing handler and a failed send meet in the same catch clause.
    method Catch()
      modifies this
      ensures View() == AskClose(old(View()), 1011).(closing := true, phase := Finishing)
    {
      closing := true;
      Ask(1011);
      pending := Finishing;
    }

    method OnSendSettles(ok: bool)
      requires pending == Sending
      modifies this
      ensures View() == ConnNext(old(View()), SendSettles(ok))
    {
      if ok { pending := Finishing; } else { Catch(); }
    }

    method ClearPending()
      requires pending == Finishing
      modifies this
      ensures View() == ConnNext(old(View()), PendingCleared)
    {
      pending := Idle;
      ends := ends + 1;
    }

    method OnHandlerDeadline()
      requires pending == Handling || pending == Sending
      modifies this
      ensures View() == ConnNext(old(View()), HandlerDeadline)
    {
      aborted := true;
      terminated := true;
    }

    method OnHeartbeat()
      requires !gone
      modifies this
      ensures View() == ConnNext(old(View()), Heartbeat)
    {
      if !pong {
        terminated := true;
        return;
      }
      pong := false;
    }

    // stop.abort: the listener that a running handler has added aborts its operation.
    method StopAbort()
      modifies this
      ensures View() == Abort(old(View()))
    {
      if !stopped {
        stopped := true;
        if pending == Handling || pending == Sending { aborted := true; }
      }
    }

    method OnClose()
      requires !gone
      modifies this
      ensures View() == ConnNext(old(View()), Closed)
    {
      closing := true;
      gone := true;
      StopAbort();
    }

    method Kill()
      modifies this
      ensures View() == ConnNext(old(View()), Killed)
    {
      StopAbort();
      terminated := true;
    }

    method Handle(e: ConnEvent)
      requires ConnPossible(View(), e)
      modifies this
      ensures View() == ConnNext(old(View()), e)
    {
      hide Receive, Respond;
      match e {
        case Message(isBinary, decodes) => OnMessage(isBinary, decodes);
        case HandlerReturns(ok, encodes) => OnHandlerReturns(ok, encodes);
        case HandlerThrows => Catch();
        case SendSettles(ok) => OnSendSettles(ok);
        case PendingCleared => ClearPending();
        case HandlerDeadline => OnHandlerDeadline();
        case Heartbeat => OnHeartbeat();
        case Pong => pong := true;
        case StoppingNotice => Ask(1001);
        case Killed => Kill();
        case Closed => OnClose();
        case Cleanup => sessionCloses := sessionCloses + 1;
      }
    }
  }

  predicate Distinct<T(==)>(all: seq<T>) {
    forall i, j | 0 <= i < j < |all| :: all[i] != all[j]
  }

  // The set holds exactly the elements with these numbers.
  predicate Numbered<T(==)>(all: seq<T>, active: set<T>, ids: set<nat>) {
    && Distinct(all)
    && (forall i | 0 <= i < |all| :: all[i] in active <==> i in ids)
    && (forall c | c in active :: c in all)
    && (forall i | i in ids :: i < |all|)
    && |active| == |ids|
  }

  lemma NumberedAdd<T>(all: seq<T>, active: set<T>, ids: set<nat>, c: T)
    requires Numbered(all, active, ids) && c !in all
    ensures Numbered(all + [c], active + {c}, ids + {|all|})
  {
    assert c !in active && |all| !in ids;
    var more := all + [c];
    forall i | 0 <= i < |more| ensures more[i] in active + {c} <==> i in ids + {|all|} {
      if i < |all| { assert more[i] == all[i] && all[i] in all; }
    }
  }

  lemma NumberedRemove<T>(all: seq<T>, active: set<T>, ids: set<nat>, id: nat)
    requires Numbered(all, active, ids) && id < |all| && id in ids
    ensures Numbered(all, active - {all[id]}, ids - {id})
  {
    forall i | 0 <= i < |all| ensures all[i] in active - {all[id]} <==> i in ids - {id} {
      if i < id { assert all[i] != all[id]; } else if i > id { assert all[id] != all[i]; }
    }
  }

  lemma NumberedApart<T>(all: seq<T>, a: set<T>, x: set<nat>, b: set<T>, y: set<nat>)
    requires Numbered(all, a, x) && Numbered(all, b, y)
    ensures a * b == {} <==> x * y == {}
  {
    if i :| i in x * y { assert all[i] in a * b; }
    if c :| c in a * b {
      var i :| 0 <= i < |all| && all[i] == c;
      assert i in x * y;
    }
  }

  lemma WaitsApart(w: World, call: nat)
    requires Sound(w) && call < |w.waits|
    ensures w.waits[call] * Active(w) == {} <==> Drained(w, call)
  {
    hide ConnSound;
    forall i | 0 <= i < |w.conns| ensures w.conns[i].sessionCloses <= 1 { ConnSoundCloses(w.conns[i]); }
    forall i | i in w.waits[call] && i < |w.conns| && w.conns[i].sessionCloses == 0
      ensures i in w.waits[call] * Active(w)
    {
    }
  }

  ghost predicate Views(all: seq<Connection>, conns: seq<Conn>)
    reads all
  {
    |all| == |conns| && forall i | 0 <= i < |all| :: all[i].View() == conns[i]
  }

  lemma ViewsAdd(all: seq<Connection>, conns: seq<Conn>, c: Connection)
    requires Views(all, conns)
    ensures Views(all + [c], conns + [c.View()])
  {
  }

  lemma ViewsLength(all: seq<Connection>, conns: seq<Conn>)
    requires Views(all, conns)
    ensures |all| == |conns|
  {
  }

  lemma ViewAt(all: seq<Connection>, conns: seq<Conn>, id: nat)
    requires Views(all, conns) && id < |all|
    ensures |all| == |conns| && all[id].View() == conns[id]
  {
  }

  lemma TellOne(conns: seq<Conn>, told: set<nat>, id: nat, e: ConnEvent)
    requires id < |conns| && id !in told && (e.StoppingNotice? || e.Killed?)
    ensures Tell(conns, told, e)[id] == conns[id]
    ensures Tell(conns, told + {id}, e) == Tell(conns, told, e)[id := ConnNext(conns[id], e)]
  {
    hide ConnNext;
  }

  lemma TellNone(conns: seq<Conn>, e: ConnEvent)
    requires e.StoppingNotice? || e.Killed?
    ensures Tell(conns, {}, e) == conns
  {
  }

  lemma NumberOf<T>(all: seq<T>, active: set<T>, ids: set<nat>, c: T) returns (id: nat)
    requires Numbered(all, active, ids) && c in active
    ensures id < |all| && all[id] == c && id in ids
  {
    id :| 0 <= id < |all| && all[id] == c;
  }

  lemma NumberedParts<T>(all: seq<T>, active: set<T>, ids: set<nat>)
    requires Numbered(all, active, ids)
    ensures Distinct(all) && |active| == |ids| && forall c | c in active :: c in all
    ensures active == {} ==> ids == {}
  {
  }

  class Server {
    const origin: string
    var closed: bool
    var active: set<Connection>
    ghost var world: World
    ghost var all: seq<Connection>  // by number

    // The connections are those of the world; the active ones are those not cleaned up.
    ghost predicate Valid()
      reads this, all
    {
      Sound(world) && closed == world.closed && Views(all, world.conns) && Numbered(all, active, Active(world))
    }

    constructor (origin: string)
      ensures Valid() && world == FRESH && this.origin == origin
    {
      this.origin := origin;
      closed, active := false, {};
      world, all := FRESH, [];
      new;
      assert Active(FRESH) == {};
    }

    method Upgrade(r: Request, handshake: bool, opens: bool) returns (answer: Answer)
      requires Valid()
      modifies this
      ensures Valid() && world == Next(old(world), origin, Event.Upgrade(r, handshake, opens))
      ensures answer == Answered(old(world), origin, r, handshake, opens)
    {
      hide Sound, Active, Numbered, Distinct, Views, Connection.View, Next;
      AdmitNext(world, origin, r, handshake, opens);
      NumberedParts(all, active, Active(world));
      if |r.origins| != 1 || r.origins[0] != origin || PROTOCOL !in r.protocols { return Forbidden; }
      if closed || |active| >= LIMIT { return Unavailable; }
      if !handshake || !opens { return Dropped; }
      Accept();
      return Admitted;
    }

    // The part of accept once there is a session.
    method Accept()
      requires Valid() && !closed && |active| < LIMIT
      modifies this
      ensures Valid() && world == old(world).(conns := old(world).conns + [ACCEPTED])
    {
      hide Sound, Active, Numbered, Views, Connection.View;
      NumberedParts(all, active, Active(world));
      AcceptKeepsSound(world);
      hide Leads;
      var c := new Connection();
      ghost var w, others := world, all;
      AdmitActive(w);
      ViewsLength(others, w.conns);
      NumberedAdd(others, active, Active(w), c);
      world := w.(conns := w.conns + [ACCEPTED]);
      all := others + [c];
      active := active + {c};
      ViewsAdd(others, w.conns, c);
      assert Views(all, world.conns);
      assert Numbered(all, active, Active(world));
    }

    // Anything that happens to a connection happens to that one only.
    method Handle(c: Connection, ghost conns: seq<Conn>, ghost id: nat, e: ConnEvent)
      requires Views(all, conns) && Distinct(all) && id < |all| && all[id] == c
      requires id < |conns| && ConnPossible(conns[id], e)
      modifies c
      ensures Views(all, conns[id := ConnNext(conns[id], e)])
    {
      hide ConnNext, Connection.View;
      ViewAt(all, conns, id);
      c.Handle(e);
    }

    /** Any callback of a connection; the last one also takes it out of the active set. */
    method Callback(c: Connection, ghost id: nat, e: ConnEvent)
      requires Valid() && id < |all| && all[id] == c && Possible(world, On(id, e))
      modifies this, c
      ensures Valid() && world == Next(old(world), origin, On(id, e))
    {
      hide ConnNext, ConnSound, Active, Sound, ConnPossible, Numbered, Distinct, Views, Next, Leads, Possible;
      OnKeepsSound(world, origin, id, e);
      OnNext(world, origin, id, e);
      NumberedParts(all, active, Active(world));
      OnActive(world, id, e);
      Handle(c, world.conns, id, e);
      if e.Cleanup? {
        NumberedRemove(all, active, Active(world), id);
        active := active - {c};
      }
      world := Next(world, origin, On(id, e));
      assert Views(all, world.conns);
      assert Numbered(all, active, Active(world));
    }

    // One of the entries that are left is told.
    method TellNext(todo: set<Connection>, ghost left: set<nat>, ghost told: set<nat>, e: ConnEvent)
      returns (c: Connection, ghost id: nat)
      requires todo != {} && Numbered(all, todo, left) && told !! left && (e.StoppingNotice? || e.Killed?)
      requires Views(all, Tell(world.conns, told, e))
      modifies todo
      ensures c in todo && id in left && Numbered(all, todo - {c}, left - {id})
      ensures Views(all, Tell(world.conns, told + {id}, e))
    {
      hide Numbered, Distinct, Views, Connection.View, ConnNext;
      c :| c in todo;
      id := NumberOf(all, todo, left, c);
      NumberedParts(all, todo, left);
      NumberedRemove(all, todo, left, id);
      ViewsLength(all, Tell(world.conns, told, e));
      TellOne(world.conns, told, id, e);
      hide Tell;
      Handle(c, Tell(world.conns, told, e), id, e);
    }

    // Each of the entries is told, one after the other.
    method TellAll(entries: set<Connection>, ghost ids: set<nat>, e: ConnEvent)
      requires Views(all, world.conns) && Numbered(all, entries, ids) && (e.StoppingNotice? || e.Killed?)
      modifies entries
      ensures Views(all, Tell(world.conns, ids, e))
    {
      hide *;
      TellNone(world.conns, e);
      var todo := entries;
      ghost var left := ids;
      assert ids - left == {};
      while todo != {}
        invariant todo <= entries && left <= ids
        invariant Numbered(all, todo, left) && Views(all, Tell(world.conns, ids - left, e))
        decreases |todo|
      {
        var c, id := TellNext(todo, left, ids - left, e);
        assert ids - left + {id} == ids - (left - {id});
        todo, left := todo - {c}, left - {id};
      }
      NumberedParts(all, todo, left);
      assert ids - left == ids;
    }

    /** The part of close before its wait: the entries to wait for are the active connections. */
    method Close() returns (entries: set<Connection>)
      requires Valid()
      modifies this, active
      ensures Valid() && world == Next(old(world), origin, Event.Close)
      ensures entries == old(active) && Numbered(all, entries, world.waits[|world.waits| - 1])
    {
      hide Sound, Active, Numbered, Views, Tell;
      CloseKeepsSound(world, origin, Event.Close);
      closed := true;
      entries := active;
      TellAll(entries, Active(world), StoppingNotice);
      world := Next(world, origin, Event.Close);
    }

    /** Whether the promises that a call of close waits for are all settled: each settles when its
        connection leaves the active set. */
    method AllDone(entries: set<Connection>, ghost call: nat) returns (done: bool)
      requires Valid() && call < |world.waits| && Numbered(all, entries, world.waits[call])
      ensures done == Drained(world, call)
    {
      hide Sound, Views, Numbered, Active, Drained;
      NumberedApart(all, entries, world.waits[call], active, Active(world));
      WaitsApart(world, call);
      done := entries * active == {};
    }

    /** The budget of a call of close is spent: it aborts and terminates what it was waiting for. */
    method SpendBudget(entries: set<Connection>, ghost call: nat)
      requires Valid() && call < |world.waits| && Numbered(all, entries, world.waits[call])
      modifies this`world, entries
      ensures Valid() && world == Next(old(world), origin, BudgetSpent(call))
    {
      hide Sound, Active, Numbered, Views, Tell;
      CloseKeepsSound(world, origin, BudgetSpent(call));
      TellAll(entries, world.waits[call], Killed);
      world := Next(world, origin, BudgetSpent(call));
    }
  }

  lemma AdmitNext(w: World, origin: string, r: Request, handshake: bool, opens: bool)
    ensures Next(w, origin, Event.Upgrade(r, handshake, opens))
            == if Answered(w, origin, r, handshake, opens).Admitted? then w.(conns := w.conns + [ACCEPTED]) else w
  {
  }

  lemma OnNext(w: World, origin: string, id: nat, e: ConnEvent)
    requires Possible(w, On(id, e))
    ensures id < |w.conns| && ConnPossible(w.conns[id], e)
    ensures Next(w, origin, On(id, e)) == w.(conns := w.conns[id := ConnNext(w.conns[id], e)])
  {
  }

  lemma OnActive(w: World, id: nat, e: ConnEvent)
    requires Sound(w) && Possible(w, On(id, e))
    ensures Active(w.(conns := w.conns[id := ConnNext(w.conns[id], e)]))
            == if e.Cleanup? then Active(w) - {id} else Active(w)
    ensures e.Cleanup? ==> id in Active(w)
  {
    hide ConnNext;
    var c := w.conns[id];
    ConnStep(c, e);
    ActiveAfter(w, id, ConnNext(c, e));
    if c.sessionCloses == 0 { assert Active(w) + {id} == Active(w); } else { assert Active(w) - {id} == Active(w); }
  }
}
