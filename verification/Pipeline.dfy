/** The durable event pipeline as one transition system: outbox, mailbox, stream, the clients that
    hold leases and deliveries, and the logs of what has been committed. A step is a committed
    statement or a client's move; whether its reply was heard is part of the step. A client that
    crashes takes no more steps, and a transaction that did not commit is no step. */
module Pipeline {
  import opened Wrappers
  import opened Identity
  import opened Json
  import opened Envelope
  import opened Tables

  const MAX_DELIVER := 5

  datatype Message = Message(id: ID, data: Bytes)

  datatype Dest = ToMailbox | ToStream

  // How far the dispatcher that holds a lease has come. It publishes once, and acknowledges on a durable
  // receipt for the same event; other holders may acknowledge or release whenever they like.
  datatype Phase = Held | NoReceipt | Receipted(to: Dest) | Done

  datatype State = State(
    outbox: Outbox, mailbox: Mailbox, stream: seq<Message>,
    pulls: multiset<nat>,            // deliveries of each stream message
    handed: set<nat>,                // deliveries whose sink gave a receipt
    acked: set<nat>,                 // messages acknowledged to the stream
    leases: map<Lease, Phase>,       // leases whose claim was heard
    claims: seq<Lease>,              // committed claims
    finishes: seq<Lease>,            // committed acks and releases
    via: map<ID, Dest>,              // where the receipt behind `sent` came from
    blind: set<ID>,                  // rows that a holder acknowledged without a receipt
    effects: seq<ID>)                // committed consumer effects

  const EMPTY := State(map[], map[], [], multiset{}, {}, {}, map[], [], [], map[], {}, [])

  datatype Step =
    | Enqueue(e: Event, now: int)
    | Claim(token: string, locked: set<ID>, expireAt: int, pickAt: int, leaseAt: int, pick: Option<ID>, heard: bool)
    | PublishMail(l: Lease, now: int, heard: bool)
    | PublishStream(l: Lease, duplicate: Option<nat>, heard: bool)
    | PublishNowhere(l: Lease)
    | Ack(l: Lease, now: int)
    | Release(l: Lease, now: int)
    | DirectMail(e: Event, now: int)
    | DirectStream(e: Event, duplicate: Option<nat>)
    | Pull(i: nat)
    | Hand(i: nat, now: int, heard: bool)
    | AckMessage(i: nat)
    | Consume(locked: set<ID>, pickAt: int, now: int, pick: Option<ID>, verdict: Verdict)

  // A duplicate acknowledgement names a stored message with the same id.
  predicate Answer(s: State, id: ID, duplicate: Option<nat>) {
    duplicate.Some? ==> duplicate.value < |s.stream| && s.stream[duplicate.value].id == id
  }

  predicate Enabled(s: State, step: Step) {
    match step
    case Enqueue(e, _) => Sealed(e)
    case Claim(token, locked, expireAt, pickAt, _, pick, _) =>
      ParseId(token).Some? && IsCandidate(Expire(s.outbox, expireAt), locked, pickAt, pick)
    case PublishMail(l, _, _) => l in s.leases && s.leases[l].Held?
    case PublishStream(l, duplicate, _) => l in s.leases && s.leases[l].Held? && Answer(s, l.event.id, duplicate)
    case PublishNowhere(l) => l in s.leases && s.leases[l].Held?
    case Ack(l, _) => l in s.leases
    case Release(l, _) => l in s.leases
    case DirectMail(e, _) => Sealed(e)
    case DirectStream(e, duplicate) => Sealed(e) && Answer(s, e.id, duplicate)
    case Pull(i) => i < |s.stream| && i !in s.acked && s.pulls[i] < MAX_DELIVER
    case Hand(i, _, _) => i in s.pulls && i < |s.stream|
    case AckMessage(i) => i in s.handed
    case Consume(locked, pickAt, _, pick, _) => IsLetter(s.mailbox, locked, pickAt, pick)
  }

  // The stream after a publish: stored, or already there.
  function Appended(stream: seq<Message>, e: Event, duplicate: Option<nat>): seq<Message> {
    if duplicate.None? then stream + [Message(e.id, e.bytes)] else stream
  }

  // The broker's receipt: a duplicate is checked against the stored content.
  predicate StreamReceipt(stream: seq<Message>, e: Event, duplicate: Option<nat>, heard: bool)
    requires duplicate.Some? ==> duplicate.value < |stream|
  {
    heard && (duplicate.Some? ==> SameJson(stream[duplicate.value].data, e.bytes))
  }

  function Finish(s: State, l: Lease, success: bool, now: int): State
    requires l in s.leases
  {
    var done := s.(leases := s.leases[l := Done]);
    match Finished(s.outbox, l, success, now)
    case Err(_) => done
    case Ok(t) =>
      done.(outbox := t, finishes := s.finishes + [l],
            via := if success && s.leases[l].Receipted? then s.via[l.event.id := s.leases[l].to] else s.via,
            blind := if success && !s.leases[l].Receipted? then s.blind + {l.event.id} else s.blind)
  }

  function Next(s: State, step: Step): State
    requires Enabled(s, step)
  {
    match step
    case Enqueue(e, now) =>
      (match InsertOut(s.outbox, e, now) case Ok(t) => s.(outbox := t) case Err(_) => s)
    case Claim(token, _, expireAt, _, leaseAt, pick, heard) =>
      (match Claimed(s.outbox, expireAt, leaseAt, token, pick)
       case (_, Err(_)) => s
       case (t, Ok(None)) => s.(outbox := t)
       case (t, Ok(Some(l))) =>
         s.(outbox := t, claims := s.claims + [l], leases := if heard then s.leases[l := Held] else s.leases))
    case PublishMail(l, now, heard) =>
      (match InsertMail(s.mailbox, l.event, now)
       case Err(_) => s.(leases := s.leases[l := NoReceipt])
       case Ok(t) => s.(mailbox := t, leases := s.leases[l := if heard then Receipted(ToMailbox) else NoReceipt]))
    case PublishStream(l, duplicate, heard) =>
      s.(stream := Appended(s.stream, l.event, duplicate),
         leases := s.leases[l :=
           if StreamReceipt(s.stream, l.event, duplicate, heard) then Receipted(ToStream) else NoReceipt])
    case PublishNowhere(l) => s.(leases := s.leases[l := NoReceipt])
    case Ack(l, now) => Finish(s, l, true, now)
    case Release(l, now) => Finish(s, l, false, now)
    case DirectMail(e, now) =>
      (match InsertMail(s.mailbox, e, now) case Ok(t) => s.(mailbox := t) case Err(_) => s)
    case DirectStream(e, duplicate) => s.(stream := Appended(s.stream, e, duplicate))
    case Pull(i) => s.(pulls := s.pulls + multiset{i})
    case Hand(i, now, heard) =>
      (match Decode(s.stream[i].data)
       case None => s
       case Some(e) =>
         match InsertMail(s.mailbox, e, now)
         case Err(_) => s
         case Ok(t) => s.(mailbox := t, handed := if heard then s.handed + {i} else s.handed))
    case AckMessage(i) => s.(acked := s.acked + {i})
    case Consume(_, _, now, pick, verdict) =>
      if pick.None? then s
      else match Consumed(s.mailbox, pick.value, verdict, now)
        case None => s
        case Some((t, effect)) =>
          s.(mailbox := t, effects := s.effects + if effect.Some? then [effect.value] else [])
  }

  // ----- what every reachable state satisfies -----

  predicate Stored(id: ID, b: Bytes) {
    Decode(b).Some? && Decode(b).value.id == id && Decode(b).value.bytes == b
  }

  predicate RowOk(r: OutRow) {
    && r.attempts <= MAX_ATTEMPTS
    && (r.state.Dead? ==> r.attempts == MAX_ATTEMPTS)
    && (r.state.Sent? ==> r.attempts > 0)
    && (r.lease.Some? ==> r.state.Pending? && r.attempts > 0)
    && (r.lease.None? && r.state.Pending? ==> r.attempts < MAX_ATTEMPTS)
  }

  predicate OutOk(t: Outbox) {
    forall id | id in t :: Stored(id, t[id].envelope) && RowOk(t[id])
  }

  predicate LetterOk(r: MailRow) {
    && r.attempts <= MAX_ATTEMPTS
    && (r.state.Waiting? ==> r.attempts < MAX_ATTEMPTS)
    && (r.state.Spent? ==> r.attempts == MAX_ATTEMPTS)
    && (r.state.Processed? ==> r.attempts > 0)
  }

  predicate MailOk(t: Mailbox) {
    forall id | id in t :: Stored(id, t[id].envelope) && LetterOk(t[id])
  }

  predicate StreamOk(stream: seq<Message>) {
    forall i | 0 <= i < |stream| :: Stored(stream[i].id, stream[i].data)
  }

  // The destination holds the id with equal JSON.
  predicate Holds(mailbox: Mailbox, stream: seq<Message>, d: Dest, id: ID, b: Bytes) {
    match d
    case ToMailbox => id in mailbox && SameJson(mailbox[id].envelope, b)
    case ToStream => exists i | 0 <= i < |stream| :: stream[i].id == id && SameJson(stream[i].data, b)
  }

  function Count<T(==)>(log: seq<T>, x: T): nat {
    multiset(log)[x]
  }

  // Attempt numbers of a row's claims rise from 1; the last one is behind its current lease.
  predicate ClaimOk(t: Outbox, c: Lease) {
    && c.event.id in t && 1 <= c.attempt <= t[c.event.id].attempts
    && Sealed(c.event) && t[c.event.id].envelope == c.event.bytes
  }

  predicate ClaimsOk(t: Outbox, claims: seq<Lease>) {
    && (forall k | 0 <= k < |claims| :: ClaimOk(t, claims[k]))
    && (forall j, k | 0 <= j < k < |claims| && claims[j].event.id == claims[k].event.id ::
          claims[j].attempt < claims[k].attempt)
    && (forall id | id in t && t[id].lease.Some? :: LatestClaim(t[id], claims, id))
  }

  predicate LatestClaim(r: OutRow, claims: seq<Lease>, id: ID)
    requires r.lease.Some?
  {
    exists k | 0 <= k < |claims| ::
      claims[k].event.id == id && claims[k].attempt == r.attempts && Uuid(claims[k].token) == r.lease.value.token
  }

  predicate LeasesOk(s: State) {
    forall l | l in s.leases ::
      && l in s.claims
      && (s.leases[l].Receipted? ==> Holds(s.mailbox, s.stream, s.leases[l].to, l.event.id, l.event.bytes))
  }

  predicate SentOk(s: State) {
    forall id | id in s.outbox && s.outbox[id].state.Sent? && id !in s.blind ::
      id in s.via && Holds(s.mailbox, s.stream, s.via[id], id, s.outbox[id].envelope)
  }

  predicate HandedOk(s: State) {
    && s.acked <= s.handed
    && forall i | i in s.handed ::
         i < |s.stream| && Holds(s.mailbox, s.stream, ToMailbox, s.stream[i].id, s.stream[i].data)
  }

  ghost predicate EffectsOk(mailbox: Mailbox, effects: seq<ID>) {
    forall id :: Count(effects, id) == if id in mailbox && mailbox[id].state.Processed? then 1 else 0
  }

  ghost predicate Inv(s: State) {
    && OutOk(s.outbox) && MailOk(s.mailbox) && StreamOk(s.stream)
    && ClaimsOk(s.outbox, s.claims) && LeasesOk(s) && SentOk(s) && HandedOk(s)
    && EffectsOk(s.mailbox, s.effects)
  }

  // ----- what a step can change -----

  predicate OutGrows(t: Outbox, t': Outbox) {
    forall id | id in t ::
      && id in t' && t'[id].envelope == t[id].envelope && t[id].attempts <= t'[id].attempts
      && (!t[id].state.Pending? ==> t'[id] == t[id])
  }

  predicate MailGrows(t: Mailbox, t': Mailbox) {
    forall id | id in t ::
      && id in t' && t'[id].envelope == t[id].envelope && t[id].attempts <= t'[id].attempts
      && (!t[id].state.Waiting? ==> t'[id] == t[id])
  }

  predicate Later(s: State, s': State) {
    && OutGrows(s.outbox, s'.outbox) && MailGrows(s.mailbox, s'.mailbox) && s.stream <= s'.stream
    && s.handed <= s'.handed && s.acked <= s'.acked
    && s.claims <= s'.claims && s.finishes <= s'.finishes && s.effects <= s'.effects
    && s.blind <= s'.blind && s.pulls <= s'.pulls
  }

  lemma LaterTransitive(a: State, b: State, c: State)
    requires Later(a, b) && Later(b, c)
    ensures Later(a, c)
  {
  }

  lemma HoldsStays(s: State, s': State, d: Dest, id: ID, b: Bytes)
    requires MailGrows(s.mailbox, s'.mailbox) && s.stream <= s'.stream && Holds(s.mailbox, s.stream, d, id, b)
    ensures Holds(s'.mailbox, s'.stream, d, id, b)
  {
    hide SameJson;
    if d.ToStream? {
      var i :| 0 <= i < |s.stream| && s.stream[i].id == id && SameJson(s.stream[i].data, b);
      assert s'.stream[i] == s.stream[i];
    }
  }

  lemma SealedIsStored(e: Event)
    requires Sealed(e)
    ensures Stored(e.id, e.bytes) && SameJson(e.bytes, e.bytes)
  {
    Decoded(e.bytes);
    hide Decode, Meaning;
  }

  // ----- one step at a time -----

  // A step that leaves the outbox, its claims and the leases alone.
  lemma BeyondOutbox(s: State, s': State)
    requires Inv(s) && s'.outbox == s.outbox && s'.claims == s.claims && s'.via == s.via && s'.blind == s.blind
    requires MailGrows(s.mailbox, s'.mailbox) && s.stream <= s'.stream
    requires MailOk(s'.mailbox) && StreamOk(s'.stream) && EffectsOk(s'.mailbox, s'.effects)
    requires forall l | l in s'.leases ::
               l in s.leases && (s'.leases[l] == s.leases[l] || !s'.leases[l].Receipted?
                                 || Holds(s'.mailbox, s'.stream, s'.leases[l].to, l.event.id, l.event.bytes))
    requires s'.acked <= s'.handed
    requires forall i | i in s'.handed ::
               i in s.handed
               || (i < |s'.stream| && Holds(s'.mailbox, s'.stream, ToMailbox, s'.stream[i].id, s'.stream[i].data))
    requires s.handed <= s'.handed && s.acked <= s'.acked && s.finishes == s'.finishes && s.effects <= s'.effects
    requires s.pulls <= s'.pulls
    ensures Inv(s') && Later(s, s')
  {
    hide Holds, Stored, RowOk, LetterOk, MailGrows, SameJson, EffectsOk;
    forall l | l in s'.leases && s'.leases[l].Receipted?
      ensures Holds(s'.mailbox, s'.stream, s'.leases[l].to, l.event.id, l.event.bytes)
    {
      if s'.leases[l] == s.leases[l] { HoldsStays(s, s', s.leases[l].to, l.event.id, l.event.bytes); }
    }
    forall id | id in s.outbox && s.outbox[id].state.Sent? && id !in s.blind
      ensures Holds(s'.mailbox, s'.stream, s.via[id], id, s.outbox[id].envelope)
    {
      HoldsStays(s, s', s.via[id], id, s.outbox[id].envelope);
    }
    forall i | i in s'.handed
      ensures i < |s'.stream| && Holds(s'.mailbox, s'.stream, ToMailbox, s'.stream[i].id, s'.stream[i].data)
    {
      if i in s.handed {
        HoldsStays(s, s', ToMailbox, s.stream[i].id, s.stream[i].data);
        assert s'.stream[i] == s.stream[i];
      }
    }
  }

  lemma MailInserted(t: Mailbox, e: Event, now: int, effects: seq<ID>)
    requires MailOk(t) && EffectsOk(t, effects) && Sealed(e) && InsertMail(t, e, now).Ok?
    ensures var t' := InsertMail(t, e, now).value;
            && MailOk(t') && MailGrows(t, t') && EffectsOk(t', effects)
            && e.id in t' && SameJson(t'[e.id].envelope, e.bytes)
  {
    hide SameJson, Stored, Sealed, EffectsOk;
    SealedIsStored(e);
    if e.id !in t { EffectsOfNew(t, effects, e.id, MailRow(e.bytes, Waiting, 0, now)); }
  }

  lemma EffectsOfNew(t: Mailbox, effects: seq<ID>, id: ID, r: MailRow)
    requires EffectsOk(t, effects) && id !in t && !r.state.Processed?
    ensures EffectsOk(t[id := r], effects)
  {
  }

  lemma StreamAppended(stream: seq<Message>, e: Event, duplicate: Option<nat>)
    requires StreamOk(stream) && Sealed(e)
    ensures var stream' := Appended(stream, e, duplicate);
            && StreamOk(stream') && stream <= stream'
            && (duplicate.None? ==> stream'[|stream|] == Message(e.id, e.bytes) && SameJson(e.bytes, e.bytes))
  {
    SealedIsStored(e);
    hide SameJson, Stored, Sealed;
  }

  lemma LeaseSealed(s: State, l: Lease)
    requires Inv(s) && l in s.leases
    ensures Sealed(l.event) && ClaimOk(s.outbox, l)
  {
    assert l in s.claims;
  }

  lemma PublishKeepsInv(s: State, step: Step)
    requires Inv(s) && Enabled(s, step)
    requires step.PublishMail? || step.PublishStream? || step.PublishNowhere?
    ensures Inv(Next(s, step)) && Later(s, Next(s, step))
  {
    hide Sealed, Stored, SameJson, RowOk, LetterOk, ClaimsOk, EffectsOk, OutOk, MailOk, StreamOk, Claimed, Consumed,
         Decode, Finish;
    var l, s' := step.l, Next(s, step);
    LeaseSealed(s, l);
    if step.PublishMail? && InsertMail(s.mailbox, l.event, step.now).Ok? {
      MailInserted(s.mailbox, l.event, step.now, s.effects);
    }
    if step.PublishStream? {
      StreamAppended(s.stream, l.event, step.duplicate);
    }
    hide InsertMail, Appended;
    BeyondOutbox(s, s');
  }

  lemma DirectKeepsInv(s: State, step: Step)
    requires Inv(s) && Enabled(s, step)
    requires step.DirectMail? || step.DirectStream? || step.Pull? || step.AckMessage?
    ensures Inv(Next(s, step)) && Later(s, Next(s, step))
  {
    hide Sealed, Stored, SameJson, RowOk, LetterOk, ClaimsOk, EffectsOk, OutOk, MailOk, StreamOk;
    if step.DirectMail? && InsertMail(s.mailbox, step.e, step.now).Ok? {
      MailInserted(s.mailbox, step.e, step.now, s.effects);
    }
    if step.DirectStream? {
      StreamAppended(s.stream, step.e, step.duplicate);
    }
    hide InsertMail, Appended;
    BeyondOutbox(s, Next(s, step));
  }

  lemma StoredIsSealed(id: ID, b: Bytes)
    requires Stored(id, b)
    ensures Decode(b).Some? && Sealed(Decode(b).value) && Decode(b).value.id == id && Decode(b).value.bytes == b
  {
    hide Decode;
  }

  lemma HandKeepsInv(s: State, step: Step)
    requires Inv(s) && Enabled(s, step) && step.Hand?
    ensures Inv(Next(s, step)) && Later(s, Next(s, step))
  {
    hide Sealed, SameJson, RowOk, LetterOk, ClaimsOk, EffectsOk, OutOk, MailOk, Decode;
    var m := s.stream[step.i];
    assert Stored(m.id, m.data);
    StoredIsSealed(m.id, m.data);
    if InsertMail(s.mailbox, Decode(m.data).value, step.now).Ok? {
      MailInserted(s.mailbox, Decode(m.data).value, step.now, s.effects);
    }
    hide InsertMail, Stored;
    BeyondOutbox(s, Next(s, step));
  }

  lemma ConsumedRow(t: Mailbox, p: ID, verdict: Verdict, now: int)
    requires p in t && Stored(p, t[p].envelope)
    ensures var state :=
              if verdict.Accept? then Processed else if t[p].attempts + 1 >= MAX_ATTEMPTS then Spent else Waiting;
            var r := t[p].(state := state, attempts := t[p].attempts + 1, availableAt := now + RETRY_MS);
            Consumed(t, p, verdict, now) == Some((t[p := r], if verdict.Accept? then Some(p) else None))
  {
    hide Decode;
  }

  lemma EffectsFollow(t: Mailbox, effects: seq<ID>, p: ID, r: MailRow)
    requires EffectsOk(t, effects) && p in t && t[p].state.Waiting?
    ensures EffectsOk(t[p := r], effects + if r.state.Processed? then [p] else [])
  {
    var more := if r.state.Processed? then [p] else [];
    forall id
      ensures Count(effects + more, id) == Count(effects, id) + Count(more, id)
    {
      assert multiset(effects + more) == multiset(effects) + multiset(more);
    }
  }

  lemma LetterFound(t: Mailbox, locked: set<ID>, now: int, p: ID)
    requires IsLetter(t, locked, now, Some(p))
    ensures p in t && t[p].state.Waiting? && t[p].attempts < MAX_ATTEMPTS
  {
    hide Less;
  }

  lemma MailParts(s: State)
    requires Inv(s)
    ensures MailOk(s.mailbox) && EffectsOk(s.mailbox, s.effects) && StreamOk(s.stream) && HandedOk(s)
    ensures forall p | p in s.mailbox :: Stored(p, s.mailbox[p].envelope)
  {
    hide Stored, EffectsOk, StreamOk, HandedOk, OutOk, ClaimsOk, LeasesOk, SentOk, LetterOk;
  }

  lemma PickedLetter(s: State, step: Step)
    requires Inv(s) && Enabled(s, step) && step.Consume? && step.pick.Some?
    ensures var p := step.pick.value;
            && p in s.mailbox && Stored(p, s.mailbox[p].envelope) && s.mailbox[p].state.Waiting?
            && s.mailbox[p].attempts < MAX_ATTEMPTS && MailOk(s.mailbox) && EffectsOk(s.mailbox, s.effects)
            && StreamOk(s.stream)
            && HandedOk(s)
  {
    hide Inv, Stored, EffectsOk, MailOk, StreamOk, HandedOk, IsLetter;
    MailParts(s);
    LetterFound(s.mailbox, step.locked, step.pickAt, step.pick.value);
  }

  lemma LetterMoved(t: Mailbox, p: ID, r: MailRow)
    requires MailOk(t) && p in t && t[p].state.Waiting? && r.envelope == t[p].envelope && LetterOk(r)
    requires t[p].attempts <= r.attempts
    ensures MailOk(t[p := r]) && MailGrows(t, t[p := r])
  {
    hide Stored;
  }

  /** Consuming: one letter's bookkeeping moves on, and its effects join the log exactly when the
      letter becomes processed. */
  lemma ConsumeKeepsInv(s: State, step: Step)
    requires Inv(s) && Enabled(s, step) && step.Consume?
    ensures Inv(Next(s, step)) && Later(s, Next(s, step))
  {
    hide Inv, Enabled, Stored, EffectsOk, MailOk, MailGrows, Consumed, StreamOk, Holds, HandedOk, Later;
    if step.pick.Some? {
      var p, t := step.pick.value, s.mailbox;
      PickedLetter(s, step);
      ConsumedRow(t, p, step.verdict, step.now);
      var r := Consumed(t, p, step.verdict, step.now).value.0[p];
      EffectsFollow(t, s.effects, p, r);
      LetterMoved(t, p, r);
      AckedAreHanded(s);
      BeyondOutbox(s, Next(s, step));
    } else {
      Unchanged(s);
    }
  }

  lemma AckedAreHanded(s: State)
    requires Inv(s)
    ensures s.acked <= s.handed
  {
  }

  lemma Unchanged(s: State)
    ensures Later(s, s)
  {
  }

  // A step on one outbox row that keeps its envelope: what is left to check.
  lemma RowChanged(s: State, s': State, id: ID)
    requires Inv(s) && id in s.outbox && s'.outbox.Keys == s.outbox.Keys
    requires forall x | x in s.outbox && x != id :: s'.outbox[x] == s.outbox[x]
    requires s'.outbox[id].envelope == s.outbox[id].envelope && RowOk(s'.outbox[id])
    requires s.outbox[id].attempts <= s'.outbox[id].attempts && s.outbox[id].state.Pending?
    requires s'.mailbox == s.mailbox && s'.stream == s.stream && s'.effects == s.effects
    requires s'.handed == s.handed && s'.acked == s.acked && s'.pulls == s.pulls
    requires ClaimsOk(s'.outbox, s'.claims) && s.claims <= s'.claims && s.finishes <= s'.finishes
    requires forall l | l in s'.leases ::
               l in s'.claims && (s'.leases[l].Receipted? ==> l in s.leases && s.leases[l] == s'.leases[l])
    requires forall x | x in s.via && x != id :: x in s'.via && s'.via[x] == s.via[x]
    requires s.blind <= s'.blind
    requires s'.outbox[id].state.Sent? && id !in s'.blind ==>
               id in s'.via && Holds(s.mailbox, s.stream, s'.via[id], id, s.outbox[id].envelope)
    ensures Inv(s') && Later(s, s')
  {
    hide Holds, Stored, RowOk, MailOk, StreamOk, EffectsOk, ClaimsOk;
  }

  // Clearing a row's lease leaves its claims as they are.
  lemma ClaimsOutlive(t: Outbox, claims: seq<Lease>, id: ID, r: OutRow)
    requires ClaimsOk(t, claims) && id in t
    requires r.envelope == t[id].envelope && r.attempts == t[id].attempts && r.lease.None?
    ensures ClaimsOk(t[id := r], claims)
  {
    hide Sealed;
    forall k | 0 <= k < |claims| ensures ClaimOk(t[id := r], claims[k]) { assert ClaimOk(t, claims[k]); }
    forall x | x in t && x != id && t[x].lease.Some?
      ensures LatestClaim(t[id := r][x], claims, x)
    {
      assert LatestClaim(t[x], claims, x);
    }
  }

  lemma OwnedRow(s: State, l: Lease, now: int)
    requires Inv(s) && l in s.leases && Owns(s.outbox, l, now)
    ensures RowOk(s.outbox[l.event.id]) && ClaimsOk(s.outbox, s.claims)
            && s.outbox[l.event.id].envelope == l.event.bytes
    ensures s.leases[l].Receipted? ==> Holds(s.mailbox, s.stream, s.leases[l].to, l.event.id, l.event.bytes)
    ensures forall x | x in s.leases :: x in s.claims
  {
    LeaseSealed(s, l);
    hide Sealed, Holds, EffectsOk, ClaimsOk;
  }

  lemma FinishKeepsInv(s: State, step: Step)
    requires Inv(s) && Enabled(s, step) && (step.Ack? || step.Release?)
    ensures Inv(Next(s, step)) && Later(s, Next(s, step))
  {
    hide Inv, ClaimsOk, Holds, Later, OutOk, MailOk, StreamOk, EffectsOk, HandedOk, Decode, SameJson, Sealed,
         Expire, Consumed, Claimed, InsertMail, InsertOut;
    var l, s' := step.l, Next(s, step);
    var id := l.event.id;
    if Owns(s.outbox, l, step.now) {
      OwnedRow(s, l, step.now);
      ClaimsOutlive(s.outbox, s.claims, id, s'.outbox[id]);
      assert s'.outbox == s.outbox[id := s'.outbox[id]];
      RowChanged(s, s', id);
    } else {
      BesidesPhase(s, l, Done);
    }
  }

  // Moving a lease on to a phase that claims no receipt.
  lemma BesidesPhase(s: State, l: Lease, phase: Phase)
    requires Inv(s) && l in s.leases && !phase.Receipted?
    ensures var s' := s.(leases := s.leases[l := phase]); Inv(s') && Later(s, s')
  {
    hide Holds, EffectsOk, ClaimsOk, Stored, RowOk, LetterOk;
  }

  lemma Inserted(t: Outbox, claims: seq<Lease>, id: ID, r: OutRow)
    requires ClaimsOk(t, claims) && id !in t && r.lease.None?
    ensures ClaimsOk(t[id := r], claims)
  {
    hide Sealed;
    forall k | 0 <= k < |claims| ensures ClaimOk(t[id := r], claims[k]) { assert ClaimOk(t, claims[k]); }
    forall x | x in t && t[x].lease.Some?
      ensures LatestClaim(t[id := r][x], claims, x)
    {
      assert LatestClaim(t[x], claims, x);
    }
  }

  lemma EnqueueKeepsInv(s: State, step: Step)
    requires Inv(s) && Enabled(s, step) && step.Enqueue?
    ensures Inv(Next(s, step)) && Later(s, Next(s, step))
  {
    hide Sealed, Stored, SameJson, EffectsOk, Holds, MailOk, StreamOk, ClaimsOk;
    if step.e.id !in s.outbox {
      var r := OutRow(step.e.bytes, Pending, 0, step.now, None);
      SealedIsStored(step.e);
      Inserted(s.outbox, s.claims, step.e.id, r);
      RowAdded(s, step.e.id, r);
    } else {
      Unchanged(s);
    }
  }

  lemma RowAdded(s: State, id: ID, r: OutRow)
    requires Inv(s) && id !in s.outbox && Stored(id, r.envelope) && RowOk(r) && !r.state.Sent?
    requires ClaimsOk(s.outbox[id := r], s.claims)
    ensures var s' := s.(outbox := s.outbox[id := r]); Inv(s') && Later(s, s')
  {
    hide Stored, EffectsOk, Holds, MailOk, StreamOk, ClaimsOk, RowOk;
  }

  // The first statement of a claim keeps everything: it only buries overdue rows.
  lemma ExpireKeepsInv(s: State, now: int)
    requires Inv(s)
    ensures Inv(s.(outbox := Expire(s.outbox, now))) && Later(s, s.(outbox := Expire(s.outbox, now)))
  {
    hide Stored, EffectsOk, Holds, MailOk, StreamOk, ClaimsOk;
    ExpireKeepsClaims(s.outbox, s.claims, now);
    var t := Expire(s.outbox, now);
    assert OutOk(t);
    assert OutGrows(s.outbox, t);
    hide OutOk, OutGrows, RowOk;
  }

  lemma ExpireKeepsClaims(t: Outbox, claims: seq<Lease>, now: int)
    requires ClaimsOk(t, claims)
    ensures ClaimsOk(Expire(t, now), claims)
  {
    hide Sealed;
    var t' := Expire(t, now);
    forall k | 0 <= k < |claims| ensures ClaimOk(t', claims[k]) { assert ClaimOk(t, claims[k]); }
    forall id | id in t' && t'[id].lease.Some?
      ensures LatestClaim(t'[id], claims, id)
    {
      assert LatestClaim(t[id], claims, id);
    }
  }

  // What the claim of a found row does, once its envelope is known to decode.
  lemma ClaimedRow(t: Outbox, expireAt: int, pickAt: int, leaseAt: int, token: string, id: ID)
    requires id in t && Stored(id, t[id].envelope) && Claimable(Expire(t, expireAt)[id], pickAt)
    ensures var row := Expire(t, expireAt)[id];
            var l := Lease(Decode(row.envelope).value, token, row.attempts + 1);
            && row.envelope == t[id].envelope
            && Claimed(t, expireAt, leaseAt, token, Some(id))
               == (Expire(t, expireAt)[id := Leased(row, token, leaseAt)], Ok(Some(l)))
  {
    hide Decode;
  }

  lemma PickedRow(s: State, step: Step)
    requires Inv(s) && Enabled(s, step) && step.Claim? && step.pick.Some?
    ensures var id := step.pick.value;
            && id in s.outbox && Stored(id, s.outbox[id].envelope)
            && Claimable(Expire(s.outbox, step.expireAt)[id], step.pickAt)
            && Expire(s.outbox, step.expireAt)[id].envelope == s.outbox[id].envelope
  {
    hide Stored, EffectsOk, ClaimsOk, Holds;
  }

  lemma ClaimKeepsInv(s: State, step: Step)
    requires Inv(s) && Enabled(s, step) && step.Claim?
    ensures Inv(Next(s, step)) && Later(s, Next(s, step))
  {
    hide Inv, Enabled, Stored, ClaimsOk, Later, Expire, Claimed, Decode, Sealed;
    var t := Expire(s.outbox, step.expireAt);
    var s1 := s.(outbox := t);
    ExpireKeepsInv(s, step.expireAt);
    if step.pick.Some? {
      var id := step.pick.value;
      PickedRow(s, step);
      var row := t[id];
      StoredIsSealed(id, row.envelope);
      ClaimedRow(s.outbox, step.expireAt, step.pickAt, step.leaseAt, step.token, id);
      var l := Lease(Decode(row.envelope).value, step.token, row.attempts + 1);
      ClaimLogged(s1, id, l, t[id := Leased(row, step.token, step.leaseAt)]);
      ClaimTaken(s1, id, l, step.leaseAt, step.heard);
      LaterTransitive(s, s1, Next(s, step));
    } else {
      assert Claimed(s.outbox, step.expireAt, step.leaseAt, step.token, None) == (t, Ok(None)) by {
        ClaimedNone(s, step);
      }
    }
  }

  lemma ClaimedNone(s: State, step: Step)
    requires step.Claim?
    ensures Claimed(s.outbox, step.expireAt, step.leaseAt, step.token, None)
            == (Expire(s.outbox, step.expireAt), Ok(None))
  {
  }

  lemma ClaimTaken(s: State, id: ID, l: Lease, leaseAt: int, heard: bool)
    requires Inv(s) && id in s.outbox && s.outbox[id].state.Pending? && s.outbox[id].attempts < MAX_ATTEMPTS
    requires l.attempt == s.outbox[id].attempts + 1
    requires ClaimsOk(s.outbox[id := Leased(s.outbox[id], l.token, leaseAt)], s.claims + [l])
    ensures var s' := s.(outbox := s.outbox[id := Leased(s.outbox[id], l.token, leaseAt)], claims := s.claims + [l],
                         leases := if heard then s.leases[l := Held] else s.leases);
            Inv(s') && Later(s, s')
  {
    hide ClaimsOk, Stored, Holds, EffectsOk, MailOk, StreamOk;
    var s' := s.(outbox := s.outbox[id := Leased(s.outbox[id], l.token, leaseAt)], claims := s.claims + [l],
                 leases := if heard then s.leases[l := Held] else s.leases);
    assert RowOk(s.outbox[id]);
    assert forall x | x in s.leases :: x in s.claims;
    assert s'.claims[|s.claims|] == l;
    RowChanged(s, s', id);
  }

  lemma ClaimLogged(s: State, id: ID, l: Lease, t: Outbox)
    requires Inv(s) && id in s.outbox && Sealed(l.event) && l.event.id == id && l.event.bytes == s.outbox[id].envelope
    requires l.attempt == s.outbox[id].attempts + 1
    requires t.Keys == s.outbox.Keys && forall x | x in t && x != id :: t[x] == s.outbox[x]
    requires t[id].envelope == s.outbox[id].envelope && t[id].attempts == l.attempt
    requires t[id].lease.Some? && t[id].lease.value.token == Uuid(l.token)
    ensures ClaimsOk(t, s.claims + [l])
  {
    hide Sealed, RowOk, Stored, Holds, EffectsOk, MailOk, StreamOk, OutOk;
    var claims := s.claims + [l];
    assert claims[|s.claims|] == l;
    assert LatestClaim(t[id], claims, id);
    forall x | x in t && x != id && t[x].lease.Some?
      ensures LatestClaim(t[x], claims, x)
    {
      assert LatestClaim(s.outbox[x], s.claims, x);
      var k :| 0 <= k < |s.claims| && s.claims[k].event.id == x && s.claims[k].attempt == t[x].attempts
               && Uuid(s.claims[k].token) == t[x].lease.value.token;
      assert claims[k] == s.claims[k];
    }
  }

  lemma NextKeepsInv(s: State, step: Step)
    requires Inv(s) && Enabled(s, step)
    ensures Inv(Next(s, step)) && Later(s, Next(s, step))
  {
    hide Next, Inv, Later;
    match step {
      case Enqueue(_, _) => EnqueueKeepsInv(s, step);
      case Claim(_, _, _, _, _, _, _) => ClaimKeepsInv(s, step);
      case PublishMail(_, _, _) => PublishKeepsInv(s, step);
      case PublishStream(_, _, _) => PublishKeepsInv(s, step);
      case PublishNowhere(_) => PublishKeepsInv(s, step);
      case Ack(_, _) => FinishKeepsInv(s, step);
      case Release(_, _) => FinishKeepsInv(s, step);
      case Hand(_, _, _) => HandKeepsInv(s, step);
      case Consume(_, _, _, _, _) => ConsumeKeepsInv(s, step);
      case _ => DirectKeepsInv(s, step);
    }
  }

  // ----- runs -----

  predicate Run(s: State, steps: seq<Step>)
    decreases |steps|
  {
    steps == [] || (Enabled(s, steps[0]) && Run(Next(s, steps[0]), steps[1..]))
  }

  function After(s: State, steps: seq<Step>): State
    requires Run(s, steps)
    decreases |steps|
  {
    if steps == [] then s else After(Next(s, steps[0]), steps[1..])
  }

  lemma {:induction false} RunKeepsInv(s: State, steps: seq<Step>)
    requires Inv(s) && Run(s, steps)
    ensures Inv(After(s, steps)) && Later(s, After(s, steps))
    decreases |steps|
  {
    hide Inv, Next, Enabled;
    if steps == [] {
    } else {
      NextKeepsInv(s, steps[0]);
      RunKeepsInv(Next(s, steps[0]), steps[1..]);
      LaterTransitive(s, Next(s, steps[0]), After(s, steps));
    }
  }

  lemma StartInv()
    ensures Inv(EMPTY)
  {
  }
}
