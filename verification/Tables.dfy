/** The outbox and mailbox tables and the statements run on them (src/shared/events/postgres). */
module Tables {
  import opened Wrappers
  import opened Identity
  import opened Json
  import opened Envelope
  import T = Transaction

  const MAX_ATTEMPTS := 5
  const LEASE_MS := 30000
  const RETRY_MS := 100

  datatype Failure = IdReused | LeaseLost | BadEnvelope | BadToken | Declined(tag: string)

  // ----- rows -----

  datatype OutState = Pending | Sent | Dead

  datatype Lock = Lock(token: ID, until: int)

  // $1::uuid: texts that differ in case are one uuid.
  function Uuid(text: string): ID {
    Lower(text)
  }

  datatype OutRow = OutRow(envelope: Bytes, state: OutState, attempts: nat, availableAt: int, lease: Option<Lock>)

  type Outbox = map<ID, OutRow>

  datatype MailState = Waiting | Processed | Spent

  datatype MailRow = MailRow(envelope: Bytes, state: MailState, attempts: nat, availableAt: int)

  type Mailbox = map<ID, MailRow>

  // A claimed event. Tokens are supplied by the caller of `claim`, in any spelling that parses.
  datatype Lease = Lease(event: Event, token: string, attempt: nat)

  // An envelope that came out of the codec: it decodes from its own bytes to itself.
  predicate Sealed(e: Event) {
    Decode(e.bytes) == Some(e)
  }

  /** Every envelope that can be created or decoded is sealed. */
  lemma DecodedIsSealed(raw: Bytes)
    requires Decode(raw).Some?
    ensures Sealed(Decode(raw).value)
  {
    NormalizationIsFixed(raw);
  }

  // ----- insert: ON CONFLICT keeps the stored envelope, and succeeds only for equal JSON -----

  function InsertOut(t: Outbox, e: Event, now: int): Result<Outbox, Failure> {
    if e.id !in t then Ok(t[e.id := OutRow(e.bytes, Pending, 0, now, None)])
    else if SameJson(t[e.id].envelope, e.bytes) then Ok(t)
    else Err(IdReused)
  }

  function InsertMail(t: Mailbox, e: Event, now: int): Result<Mailbox, Failure> {
    if e.id !in t then Ok(t[e.id := MailRow(e.bytes, Waiting, 0, now)])
    else if SameJson(t[e.id].envelope, e.bytes) then Ok(t)
    else Err(IdReused)
  }

  // ----- claim -----

  predicate Unleased(r: OutRow, now: int) {
    r.lease.None? || r.lease.value.until <= now
  }

  predicate Overdue(r: OutRow, now: int) {
    r.state.Pending? && r.attempts == MAX_ATTEMPTS && Unleased(r, now)
  }

  // The first statement: expired fifth attempts die.
  function Expire(t: Outbox, now: int): (t': Outbox)
    ensures t'.Keys == t.Keys
  {
    map id | id in t :: if Overdue(t[id], now) then t[id].(state := Dead, lease := None) else t[id]
  }

  predicate Claimable(r: OutRow, now: int) {
    r.state.Pending? && r.attempts < MAX_ATTEMPTS && r.availableAt <= now && Unleased(r, now)
  }

  // ORDER BY available_at, event_id
  predicate Before(at: int, id: ID, at': int, id': ID) {
    at < at' || (at == at' && Less(id, id'))
  }

  // The candidate of the second statement, rows locked by others skipped.
  predicate IsCandidate(t: Outbox, locked: set<ID>, now: int, pick: Option<ID>) {
    match pick
    case None => forall id | id in t && id !in locked :: !Claimable(t[id], now)
    case Some(p) =>
      && p in t && p !in locked && Claimable(t[p], now)
      && forall id | id in t && id !in locked && id != p && Claimable(t[id], now) ::
           Before(t[p].availableAt, p, t[id].availableAt, id)
  }

  function Leased(r: OutRow, token: string, now: int): OutRow {
    r.(lease := Some(Lock(Uuid(token), now + LEASE_MS)), attempts := r.attempts + 1)
  }

  // The whole transaction for a given candidate.
  function Claimed(t: Outbox, expireAt: int, leaseAt: int, token: string, pick: Option<ID>)
    : (Outbox, Result<Option<Lease>, Failure>)
    requires pick.Some? ==> pick.value in t
  {
    var t1 := Expire(t, expireAt);
    match pick
    case None => (t1, Ok(None))
    case Some(id) =>
      var row := Leased(t1[id], token, leaseAt);
      match Decode(row.envelope)
      case None => (t, Err(BadEnvelope))
      case Some(e) => (t1[id := row], Ok(Some(Lease(e, token, row.attempts))))
  }

  // ----- ack and release -----

  predicate Owns(t: Outbox, l: Lease, now: int) {
    && l.event.id in t && t[l.event.id].state.Pending?
    && t[l.event.id].lease.Some? && t[l.event.id].lease.value.token == Uuid(l.token)
    && t[l.event.id].lease.value.until > now
  }

  function Finished(t: Outbox, l: Lease, success: bool, now: int): Result<Outbox, Failure> {
    if !Owns(t, l, now) then Err(LeaseLost)
    else
      var r := t[l.event.id];
      var state := if success then Sent else if r.attempts >= MAX_ATTEMPTS then Dead else Pending;
      Ok(t[l.event.id := r.(state := state, lease := None, availableAt := now + RETRY_MS)])
  }

  // ----- consume -----

  predicate Consumable(r: MailRow, now: int) {
    r.state.Waiting? && r.attempts < MAX_ATTEMPTS && r.availableAt <= now
  }

  predicate IsLetter(t: Mailbox, locked: set<ID>, now: int, pick: Option<ID>) {
    match pick
    case None => forall id | id in t && id !in locked :: !Consumable(t[id], now)
    case Some(p) =>
      && p in t && p !in locked && Consumable(t[p], now)
      && forall id | id in t && id !in locked && id != p && Consumable(t[id], now) ::
           Before(t[p].availableAt, p, t[id].availableAt, id)
  }

  // What the consumer callback came to: Accept keeps its effects, anything else is rolled back to the
  // savepoint.
  datatype Verdict = Accept | Refuse(tag: string)

  // The committed outcome: the table, and whether the callback's effects are in it.
  function Consumed(t: Mailbox, pick: ID, verdict: Verdict, now: int): Option<(Mailbox, Option<ID>)>
    requires pick in t
  {
    var e :- Decode(t[pick].envelope);
    var state :=
      if verdict.Accept? then Processed else if t[pick].attempts + 1 >= MAX_ATTEMPTS then Spent else Waiting;
    var t' := if e.id in t
              then t[e.id := t[e.id].(state := state, attempts := t[e.id].attempts + 1, availableAt := now + RETRY_MS)]
              else t;
    Some((t', if verdict.Accept? then Some(e.id) else None))
  }

  // ----- the ordered scans -----

  // The first claimable row nobody else holds.
  method Candidate(t: Outbox, locked: set<ID>, now: int) returns (pick: Option<ID>)
    ensures IsCandidate(t, locked, now, pick)
  {
    pick := None;
    var rest := t.Keys;
    while rest != {}
      invariant rest <= t.Keys && (pick.Some? ==> pick.value !in rest)
      invariant IsCandidate(t, locked + rest, now, pick)
      decreases |rest|
    {
      var id :| id in rest;
      var before := pick;
      rest := rest - {id};
      if id !in locked && Claimable(t[id], now)
         && (pick.None? || Before(t[id].availableAt, id, t[pick.value].availableAt, pick.value)) {
        pick := Some(id);
      }
      CandidateStep(t, locked, now, before, pick, id, rest);
    }
    assert locked + rest == locked;
  }

  method Letter(t: Mailbox, locked: set<ID>, now: int) returns (pick: Option<ID>)
    ensures IsLetter(t, locked, now, pick)
  {
    pick := None;
    var rest := t.Keys;
    while rest != {}
      invariant rest <= t.Keys && (pick.Some? ==> pick.value !in rest)
      invariant IsLetter(t, locked + rest, now, pick)
      decreases |rest|
    {
      var id :| id in rest;
      var before := pick;
      rest := rest - {id};
      if id !in locked && Consumable(t[id], now)
         && (pick.None? || Before(t[id].availableAt, id, t[pick.value].availableAt, pick.value)) {
        pick := Some(id);
      }
      LetterStep(t, locked, now, before, pick, id, rest);
    }
    assert locked + rest == locked;
  }

  // ----- the statements as they run -----

  // What the caller of a transaction sees, by how it ended and what the callback returned. A callback that
  // refuses is rolled back; `Acknowledged` is then the reply to ROLLBACK.
  datatype Reply<+R> = Reply(r: Result<R, Failure>) | Uncertain | Down(why: T.Failure)

  function Seen<R>(end: T.End, r: Result<R, Failure>): Reply<R> {
    match end
    case Acknowledged => Reply(r)
    case Lost(_) => if r.Ok? then Uncertain else Reply(r)
    case Refused(why) => Down(why)
  }

  // The type that a failure of a callback carries.
  function Tag(e: Failure): string {
    match e
    case IdReused => "events.id_reused"
    case LeaseLost => "events.lease_lost"
    case BadEnvelope => "events.invalid"
    case BadToken => "id.invalid"
    case Declined(tag) => tag
  }

  // What a callback with this result returns to `transaction`.
  function Returned<R>(r: Result<R, Failure>): T.Outcome<R> {
    match r case Ok(v) => Ok(v) case Err(e) => Err(T.Callers(Tag(e)))
  }

  predicate IsRefusal<R>(answer: T.Outcome<R>, r: Result<R, Failure>) {
    r.Err? && answer.Err? && answer.error == T.Callers(Tag(r.error))
  }

  // How a settled call ended, given what its callback returns, and what it tells its caller.
  function Ended<R>(answer: T.Outcome<R>, committed: bool, r: Result<R, Failure>): T.End {
    if IsRefusal(answer, r) then T.Acknowledged else T.EndOf(answer, committed)
  }

  function Told<R>(answer: T.Outcome<R>, r: Result<R, Failure>): Reply<R> {
    if IsRefusal(answer, r) then Reply(r)
    else match answer
      case Ok(v) => Reply(Ok(v))
      case Err(CommitUncertain) => Uncertain
      case Err(why) => Down(why)
  }

  /** The statements below run as one step because of this: for every interleaving of a transaction whose
      callback returns r, the reply is what `Seen` says of its end; the writes of a callback that accepts
      are kept exactly when they are committed for good; and a callback that refuses commits nothing, and
      is answered with its refusal or with an error other than commit_uncertain. */
  lemma StatementsAreSteps<R(!new)>(
    aborted: bool, before: seq<T.Event<R>>, later: seq<T.Event<R>>, r: Result<R, Failure>)
    requires T.Run(T.Leased<R>(aborted), before) && T.After(T.Leased<R>(aborted), before).settled.Some?
    requires T.Run(T.After(T.Leased<R>(aborted), before), later)
    requires var returned := T.After(T.After(T.Leased<R>(aborted), before), later).returned;
             returned.Some? ==> returned.value == Returned(r)
    ensures var t := T.After(T.Leased<R>(aborted), before);
            var answer, committed := t.settled.value, T.After(t, later).fate.Committed?;
            var end := Ended(answer, committed, r);
            && Told(answer, r) == Seen(end, r)
            && (committed <==> r.Ok? && T.Kept(end))
            && (r.Err? ==> !committed && answer.Err? && !answer.error.CommitUncertain?)
  {
    hide Tag;
    T.EndIsTruth<R>(aborted, before, later);
  }

  class Database {
    var outbox: Outbox
    var mailbox: Mailbox
    // committed consumer effects, by event
    var effects: seq<ID>

    constructor ()
      ensures outbox == map[] && mailbox == map[] && effects == []
    {
      outbox, mailbox, effects := map[], map[], [];
    }

    method Enqueue(e: Event, now: int, end: T.End) returns (r: Reply<()>)
      modifies this`outbox
      ensures var ins := InsertOut(old(outbox), e, now);
              && outbox == (if ins.Ok? && T.Kept(end) then ins.value else old(outbox))
              && r == Seen(end, if ins.Ok? then Ok(()) else Err(ins.error))
    {
      if e.id in outbox && !SameJson(outbox[e.id].envelope, e.bytes) {
        return Seen(end, Err(IdReused));
      }
      if T.Kept(end) && e.id !in outbox {
        outbox := outbox[e.id := OutRow(e.bytes, Pending, 0, now, None)];
      }
      return Seen(end, Ok(()));
    }

    method Claim(token: string, locked: set<ID>, expireAt: int, pickAt: int, leaseAt: int, end: T.End)
      returns (r: Reply<Option<Lease>>, ghost pick: Option<ID>)
      modifies this`outbox
      ensures ParseId(token).None? ==> r == Reply(Err(BadToken)) && outbox == old(outbox)
      ensures ParseId(token).Some? ==> IsCandidate(Expire(old(outbox), expireAt), locked, pickAt, pick)
      ensures ParseId(token).Some? ==>
                var (t, res) := Claimed(old(outbox), expireAt, leaseAt, token, pick);
                r == Seen(end, res) && outbox == if res.Ok? && T.Kept(end) then t else old(outbox)
    {
      hide Decode, SameJson, ParseId, Uuid;
      if ParseId(token).None? { return Reply(Err(BadToken)), None; }
      var t := map id | id in outbox ::
        if Overdue(outbox[id], expireAt) then outbox[id].(state := Dead, lease := None) else outbox[id];
      assert t == Expire(outbox, expireAt);
      var found := Candidate(t, locked, pickAt);
      pick := found;
      if found.None? {
        if T.Kept(end) { outbox := t; }
        return Seen(end, Ok(None)), pick;
      }
      var row := Leased(t[found.value], token, leaseAt);
      t := t[found.value := row];
      var event := Decode(row.envelope);
      if event.None? { return Seen(end, Err(BadEnvelope)), pick; }
      if T.Kept(end) { outbox := t; }
      return Seen(end, Ok(Some(Lease(event.value, token, row.attempts)))), pick;
    }

    method Finish(l: Lease, success: bool, now: int, end: T.End) returns (r: Reply<()>)
      modifies this`outbox
      ensures var f := Finished(old(outbox), l, success, now);
              && outbox == (if f.Ok? && T.Kept(end) then f.value else old(outbox))
              && r == Seen(end, if f.Ok? then Ok(()) else Err(f.error))
    {
      var id := l.event.id;
      if id !in outbox { return Seen(end, Err(LeaseLost)); }
      var row := outbox[id];
      if row.state != Pending || row.lease.None? || row.lease.value.token != Uuid(l.token)
        || row.lease.value.until <= now {
        return Seen(end, Err(LeaseLost));
      }
      var state := Sent;
      if !success { state := if row.attempts >= MAX_ATTEMPTS then Dead else Pending; }
      if T.Kept(end) {
        outbox := outbox[id := row.(state := state, lease := None, availableAt := now + RETRY_MS)];
      }
      return Seen(end, Ok(()));
    }

    method Deliver(e: Event, now: int, end: T.End) returns (r: Reply<()>)
      modifies this`mailbox
      ensures var ins := InsertMail(old(mailbox), e, now);
              && mailbox == (if ins.Ok? && T.Kept(end) then ins.value else old(mailbox))
              && r == Seen(end, if ins.Ok? then Ok(()) else Err(ins.error))
    {
      if e.id in mailbox && !SameJson(mailbox[e.id].envelope, e.bytes) {
        return Seen(end, Err(IdReused));
      }
      if T.Kept(end) && e.id !in mailbox {
        mailbox := mailbox[e.id := MailRow(e.bytes, Waiting, 0, now)];
      }
      return Seen(end, Ok(()));
    }

    // The callback writes its effects inside the transaction; a savepoint separates them from the
    // bookkeeping, so a refusal undoes the one and still commits the other.
    method Consume(locked: set<ID>, pickAt: int, now: int, verdict: Verdict, end: T.End)
      returns (r: Reply<bool>, ghost pick: Option<ID>)
      modifies this`mailbox, this`effects
      ensures IsLetter(old(mailbox), locked, pickAt, pick)
      ensures pick.None? ==> mailbox == old(mailbox) && effects == old(effects) && r == Seen(end, Ok(false))
      ensures pick.Some? ==>
                match Consumed(old(mailbox), pick.value, verdict, now)
                case None => mailbox == old(mailbox) && effects == old(effects) && r == Seen(end, Err(BadEnvelope))
                case Some((t, effect)) =>
                  && mailbox == (if T.Kept(end) then t else old(mailbox))
                  && effects == old(effects) + (if T.Kept(end) && effect.Some? then [effect.value] else [])
                  && r == if end.Acknowledged? && verdict.Refuse? then Reply(Err(Declined(verdict.tag)))
                     else Seen(end, Ok(true))
    {
      hide Decode, IsLetter, SameJson;
      var found := Letter(mailbox, locked, pickAt);
      pick := found;
      if found.None? { return Seen(end, Ok(false)), pick; }
      var row := mailbox[found.value];
      var event := Decode(row.envelope);
      if event.None? { return Seen(end, Err(BadEnvelope)), pick; }
      var id := event.value.id;
      var savepoint := effects;
      var working := effects + [id];
      var rejected: Option<Failure> := None;
      if verdict.Refuse? {
        rejected := Some(Declined(verdict.tag));
        working := savepoint;
      }
      var state :=
        if rejected.None? then Processed else if row.attempts + 1 >= MAX_ATTEMPTS then Spent else Waiting;
      if T.Kept(end) {
        effects := working;
        if id in mailbox {
          mailbox := mailbox[id := mailbox[id].(state := state, attempts := mailbox[id].attempts + 1,
                                                availableAt := now + RETRY_MS)];
        }
      }
      r := Seen(end, Ok(true));
      if r == Reply(Ok(true)) && rejected.Some? { r := Reply(Err(rejected.value)); }
    }
  }

  lemma CandidateStep(t: Outbox, locked: set<ID>, now: int, before: Option<ID>, pick: Option<ID>, id: ID, rest: set<ID>)
    requires id in t && id !in rest && before != Some(id) && IsCandidate(t, locked + rest + {id}, now, before)
    requires pick == if id !in locked && Claimable(t[id], now)
                        && (before.None? || Before(t[id].availableAt, id, t[before.value].availableAt, before.value))
                     then Some(id) else before
    ensures IsCandidate(t, locked + rest, now, pick)
  {
    if before.Some? { BeforeTotal(t[id].availableAt, id, t[before.value].availableAt, before.value); }
    if pick == Some(id) && before.Some? {
      forall x | x in t && x !in locked + rest && x != id && Claimable(t[x], now)
        ensures Before(t[id].availableAt, id, t[x].availableAt, x)
      {
        if x != before.value {
          BeforeTransitive(t[id].availableAt, id, t[before.value].availableAt, before.value, t[x].availableAt, x);
        }
      }
    }
  }

  lemma LetterStep(t: Mailbox, locked: set<ID>, now: int, before: Option<ID>, pick: Option<ID>, id: ID, rest: set<ID>)
    requires id in t && id !in rest && before != Some(id) && IsLetter(t, locked + rest + {id}, now, before)
    requires pick == if id !in locked && Consumable(t[id], now)
                        && (before.None? || Before(t[id].availableAt, id, t[before.value].availableAt, before.value))
                     then Some(id) else before
    ensures IsLetter(t, locked + rest, now, pick)
  {
    if before.Some? { BeforeTotal(t[id].availableAt, id, t[before.value].availableAt, before.value); }
    if pick == Some(id) && before.Some? {
      forall x | x in t && x !in locked + rest && x != id && Consumable(t[x], now)
        ensures Before(t[id].availableAt, id, t[x].availableAt, x)
      {
        if x != before.value {
          BeforeTransitive(t[id].availableAt, id, t[before.value].availableAt, before.value, t[x].availableAt, x);
        }
      }
    }
  }

  lemma BeforeTotal(at: int, id: ID, at': int, id': ID)
    requires id != id'
    ensures Before(at, id, at', id') || Before(at', id', at, id)
  {
    LessTotal(id, id');
  }

  lemma BeforeTransitive(a: int, id: ID, a': int, id': ID, a'': int, id'': ID)
    requires Before(a, id, a', id') && Before(a', id', a'', id'')
    ensures Before(a, id, a'', id'')
  {
    if a == a' == a'' { LessTransitive(id, id', id''); }
  }
}
