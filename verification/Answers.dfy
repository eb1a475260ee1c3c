/** What the statements of the pipeline answer, said without the predicates they are written with: who gets
    a row, who may finish it and until when, what is stored and what is refused. */
module Answers {
  import opened Wrappers
  import opened Identity
  import opened Json
  import opened Envelope
  import opened Content
  import opened Tables
  import opened Pipeline
  import opened Guarantees

  // ----- insert -----

  lemma StoredEvent(id: ID, b: Bytes)
    requires Stored(id, b)
    ensures Decode(b).Some? && Decode(b).value.id == id && Decode(b).value.bytes == b && Sealed(Decode(b).value)
  {
    hide Decode;
  }

  /** An unknown id gets a fresh row that is due at once; a known one keeps its row, and is refused exactly
      when the stored envelope has another type, time, work or payload. */
  lemma EnqueueAnswers(t: Outbox, e: Event, now: int)
    requires OutOk(t) && Sealed(e)
    ensures e.id !in t ==> InsertOut(t, e, now) == Ok(t[e.id := OutRow(e.bytes, Pending, 0, now, None)])
    ensures e.id in t ==>
              && Decode(t[e.id].envelope).Some?
              && InsertOut(t, e, now)
                 == if SameContent(Decode(t[e.id].envelope).value, e) then Ok(t) else Err(IdReused)
  {
    hide Decode, SameJson, RowOk, SameContent;
    if e.id in t {
      StoredEvent(e.id, t[e.id].envelope);
      SameEvents(Decode(t[e.id].envelope).value, e);
    }
  }

  lemma DeliverAnswers(t: Mailbox, e: Event, now: int)
    requires MailOk(t) && Sealed(e)
    ensures e.id !in t ==> InsertMail(t, e, now) == Ok(t[e.id := MailRow(e.bytes, Waiting, 0, now)])
    ensures e.id in t ==>
              && Decode(t[e.id].envelope).Some?
              && InsertMail(t, e, now)
                 == if SameContent(Decode(t[e.id].envelope).value, e) then Ok(t) else Err(IdReused)
  {
    hide Decode, SameJson, LetterOk, SameContent;
    if e.id in t {
      StoredEvent(e.id, t[e.id].envelope);
      SameEvents(Decode(t[e.id].envelope).value, e);
    }
  }

  /** There are two envelopes under one id of which the second is refused once the first is stored, while
      the first may come again. */
  lemma ConflictIsRefused(now: int) returns (e: Event, f: Event)
    ensures Sealed(e) && Sealed(f) && e.id == f.id
    ensures var t := map[e.id := MailRow(e.bytes, Waiting, 0, now)];
            InsertMail(t, f, now) == Err(IdReused) && InsertMail(t, e, now) == Ok(t)
  {
    var more := [Member("a", Null)];
    assert Length(Obj([])) <= 4000 && Length(Obj(more)) <= 4000;
    assert WireFields(more) == more;
    e := SomeEnvelope([]);
    f := SomeEnvelope(more);
    hide Decode, Part, SomeId, Length;
    SealedIsStored(e);
    SealedIsStored(f);
    OtherPayload(e, f);
    var t := map[e.id := MailRow(e.bytes, Waiting, 0, now)];
    DeliverAnswers(t, e, now);
    DeliverAnswers(t, f, now);
  }

  lemma OtherPayload(e: Event, f: Event)
    requires Part(e, "payload") == Some(Obj([])) && Part(f, "payload") == Some(Obj([Member("a", Null)]))
    ensures !SameContent(e, f)
  {
    hide Part;
    var more := [Member("a", Null)];
    assert more[0].key == "a" && Get([], "a").None?;
    assert !Same(Obj([]), Obj(more));
  }

  // ----- receipts -----

  /** A publication to the mailbox gets its receipt exactly when the reply is heard and the mailbox did not
      know the id, or knows it with the same content. */
  lemma MailReceipts(s: State, step: Step)
    requires Inv(s) && Enabled(s, step) && step.PublishMail?
    ensures step.l in s.leases && step.l in Next(s, step).leases && Sealed(step.l.event)
    ensures var e, known := step.l.event, step.l.event.id in s.mailbox;
            && (known ==> Decode(s.mailbox[e.id].envelope).Some?)
            && Next(s, step).leases[step.l]
               == (if step.heard && (known ==> SameContent(Decode(s.mailbox[e.id].envelope).value, e))
                   then Receipted(ToMailbox) else NoReceipt)
            && Next(s, step).mailbox
               == if known then s.mailbox else s.mailbox[e.id := MailRow(e.bytes, Waiting, 0, step.now)]
  {
    LeaseSealed(s, step.l);
    StoresOk(s);
    hide Inv, Decode, SameContent, Stored, MailOk, OutOk, Sealed, InsertMail, IsCandidate, IsLetter;
    DeliverAnswers(s.mailbox, step.l.event, step.now);
  }

  /** A publication to the stream gets its receipt exactly when the reply is heard and the message is new,
      or a duplicate of a stored one with the same content. */
  lemma StreamReceipts(s: State, step: Step)
    requires Inv(s) && Enabled(s, step) && step.PublishStream?
    ensures step.l in s.leases && step.l in Next(s, step).leases && Sealed(step.l.event)
    ensures step.duplicate.Some? ==>
              step.duplicate.value < |s.stream| && Decode(s.stream[step.duplicate.value].data).Some?
    ensures var e, known := step.l.event, step.duplicate;
            && Next(s, step).leases[step.l]
               == (if step.heard && (known.Some? ==> SameContent(Decode(s.stream[known.value].data).value, e))
                   then Receipted(ToStream) else NoReceipt)
            && Next(s, step).stream == if known.Some? then s.stream else s.stream + [Message(e.id, e.bytes)]
  {
    LeaseSealed(s, step.l);
    StoresOk(s);
    hide Inv, Decode, SameJson, SameContent, Stored, MailOk, OutOk, Sealed, InsertMail, IsCandidate, IsLetter;
    if step.duplicate.Some? {
      var m := s.stream[step.duplicate.value];
      StoredEvent(m.id, m.data);
      SealedDecodes(step.l.event);
      SealedDecodes(Decode(m.data).value);
      SameEvents(Decode(m.data).value, step.l.event);
    }
  }

  lemma StoresOk(s: State)
    requires Inv(s)
    ensures OutOk(s.outbox) && MailOk(s.mailbox)
    ensures forall i | 0 <= i < |s.stream| :: Stored(s.stream[i].id, s.stream[i].data)
  {
    hide Stored, RowOk, LetterOk, ClaimsOk, LeasesOk, SentOk, HandedOk, EffectsOk;
  }

  // ----- a live lease is exclusive -----

  /** While a row's lease lives, no claim takes or buries it. */
  lemma LiveLeaseIsExclusive(s: State, step: Step, id: ID)
    requires Inv(s) && Enabled(s, step) && step.Claim?
    requires id in s.outbox && s.outbox[id].lease.Some?
    requires step.expireAt < s.outbox[id].lease.value.until && step.pickAt < s.outbox[id].lease.value.until
    ensures step.pick != Some(id)
    ensures id in Next(s, step).outbox && Next(s, step).outbox[id] == s.outbox[id]
  {
    hide Inv, Decode, Sealed, SameJson, InsertMail, Consumed;
    if step.pick.Some? {
      PickedRow(s, step);
      ClaimedRow(s.outbox, step.expireAt, step.pickAt, step.leaseAt, step.token, step.pick.value);
      hide Claimed, Stored;
    }
  }

  // No claim of the run looks after this lock's end, and no step finishes the row with its token.
  predicate LeftAlone(steps: seq<Step>, id: ID, lock: Lock) {
    forall k | 0 <= k < |steps| ::
      && (steps[k].Claim? ==> steps[k].expireAt < lock.until && steps[k].pickAt < lock.until)
      && (steps[k].Ack? || steps[k].Release? ==> steps[k].l.event.id != id || Uuid(steps[k].l.token) != lock.token)
  }

  lemma StepLeavesAlone(s: State, step: Step, id: ID)
    requires Inv(s) && Enabled(s, step) && id in s.outbox && s.outbox[id].lease.Some?
    requires LeftAlone([step], id, s.outbox[id].lease.value)
    ensures id in Next(s, step).outbox && Next(s, step).outbox[id] == s.outbox[id]
  {
    assert [step][0] == step;
    hide Next, Inv, Enabled, Uuid;
    if step.Claim? {
      LiveLeaseIsExclusive(s, step, id);
    } else if step.Ack? || step.Release? {
      FinishOfOthers(s, step, id);
    } else {
      OthersKeepRows(s, step, id);
    }
  }

  lemma FinishOfOthers(s: State, step: Step, id: ID)
    requires Enabled(s, step) && (step.Ack? || step.Release?) && id in s.outbox && s.outbox[id].lease.Some?
    requires step.l.event.id != id || Uuid(step.l.token) != s.outbox[id].lease.value.token
    ensures id in Next(s, step).outbox && Next(s, step).outbox[id] == s.outbox[id]
  {
    hide Uuid;
  }

  lemma OthersKeepRows(s: State, step: Step, id: ID)
    requires Enabled(s, step) && !step.Claim? && !step.Ack? && !step.Release? && id in s.outbox
    ensures id in Next(s, step).outbox && Next(s, step).outbox[id] == s.outbox[id]
  {
    hide Decode, Sealed, SameJson, InsertMail, Consumed, Claimed, Expire, IsCandidate, IsLetter, Uuid, Finish,
         StreamReceipt, Appended, Answer;
  }

  /** Until a lease ends, only a finish by its holder changes the row: whatever all the others do, it stays
      exactly as the claim left it. */
  lemma {:induction false} OnlyTheHolderChangesIt(s: State, steps: seq<Step>, id: ID)
    requires Inv(s) && Run(s, steps) && id in s.outbox && s.outbox[id].lease.Some?
    requires LeftAlone(steps, id, s.outbox[id].lease.value)
    ensures id in After(s, steps).outbox && After(s, steps).outbox[id] == s.outbox[id]
    decreases |steps|
  {
    hide Inv, Next, Enabled, Uuid;
    if steps == [] {
    } else {
      StepLeavesAlone(s, steps[0], id);
      NextKeepsInv(s, steps[0]);
      OnlyTheHolderChangesIt(Next(s, steps[0]), steps[1..], id);
    }
  }

  // ----- who may finish a row, and until when -----

  /** With fresh tokens a claim can finish its row exactly while it is the row's latest, its lease is still
      there, and has not ended. Finishing marks the row sent, or lets it go: dead after the fifth attempt,
      otherwise pending again after a tenth of a second. */
  lemma FinishAnswers(steps: seq<Step>, c: Lease, success: bool, now: int)
    requires Run(EMPTY, steps) && FreshTokens(After(EMPTY, steps).claims) && c in After(EMPTY, steps).claims
    ensures c.event.id in After(EMPTY, steps).outbox
    ensures var t, id := After(EMPTY, steps).outbox, c.event.id;
            var r := t[id];
            Finished(t, c, success, now)
            == if c.attempt == r.attempts && r.lease.Some? && now < r.lease.value.until then
                 var state := if success then Sent else if r.attempts == 5 then Dead else Pending;
                 Ok(t[id := OutRow(r.envelope, state, r.attempts, now + 100, None)])
               else Err(LeaseLost)
  {
    var s := After(EMPTY, steps);
    Reached(steps);
    ClaimsAre(s, c);
    hide Run, After, Inv, Uuid, FreshTokens, Sealed, ClaimOk;
    if s.outbox[c.event.id].lease.Some? {
      FreshNow(s, c.event.id);
      var live := LiveClaim(s, c.event.id);
    }
  }

  lemma ClaimsAre(s: State, c: Lease)
    requires Inv(s) && c in s.claims
    ensures c.event.id in s.outbox && c.attempt <= s.outbox[c.event.id].attempts <= 5
  {
    hide Stored, LetterOk, LeasesOk, EffectsOk, MailOk, StreamOk, SentOk, HandedOk, Sealed, Uuid;
    var k :| 0 <= k < |s.claims| && s.claims[k] == c;
    assert ClaimOk(s.outbox, s.claims[k]);
    assert RowOk(s.outbox[c.event.id]);
  }

  lemma {:induction false} RunMovesLeasesOn(s: State, steps: seq<Step>)
    requires Inv(s) && Run(s, steps)
    ensures LeasesMoveOn(s.outbox, After(s, steps).outbox)
    decreases |steps|
  {
    hide Inv, Next, Enabled;
    if steps == [] {
    } else {
      NextKeepsInv(s, steps[0]);
      AnyStepMovesLeasesOn(s, steps[0]);
      RunMovesLeasesOn(Next(s, steps[0]), steps[1..]);
    }
  }

  lemma AnyStepMovesLeasesOn(s: State, step: Step)
    requires Inv(s) && Enabled(s, step)
    ensures LeasesMoveOn(s.outbox, Next(s, step).outbox)
  {
    if step.Ack? || step.Release? {
      hide Inv, Sealed, Decode, SameJson, InsertMail, InsertOut, Consumed, Claimed, Expire, Uuid;
    } else {
      hide Inv, Next, Enabled;
      StepMovesLeasesOn(s, step);
    }
  }

  lemma ClaimLocks(s: State, step: Step)
    requires Inv(s) && Enabled(s, step) && step.Claim? && step.pick.Some?
    ensures var s', id := Next(s, step), step.pick.value;
            && s'.claims == s.claims + [s'.claims[|s.claims|]]
            && id in s.outbox && id in s'.outbox
            && var c := s'.claims[|s.claims|];
            && c.event.id == id && c.token == step.token
            && c.attempt == s'.outbox[id].attempts == s.outbox[id].attempts + 1
            && s'.outbox[id].state.Pending?
            && s'.outbox[id].lease == Some(Lock(Uuid(step.token), step.leaseAt + 30000))
  {
    hide Inv, Enabled, Decode, Expire, Claimed, Stored, Uuid, Sealed;
    var id := step.pick.value;
    PickedRow(s, step);
    ClaimedRow(s.outbox, step.expireAt, step.pickAt, step.leaseAt, step.token, id);
    StoredIsSealed(id, s.outbox[id].envelope);
    ExpireFacts(s.outbox, step.expireAt, id);
  }

  lemma ExpireFacts(t: Outbox, now: int, id: ID)
    requires id in t
    ensures id in Expire(t, now) && Expire(t, now)[id].attempts == t[id].attempts
  {
  }

  /** A lease lasts thirty seconds: made at some instant, a claim can finish its row before thirty seconds
      have passed, and gets lease_lost in every later state from then on. */
  lemma LeaseLastsThirtySeconds(steps: seq<Step>, step: Step, later: seq<Step>, success: bool, now: int)
    requires Run(EMPTY, steps) && Enabled(After(EMPTY, steps), step) && step.Claim? && step.pick.Some?
    requires Run(Next(After(EMPTY, steps), step), later)
    requires FreshTokens(After(Next(After(EMPTY, steps), step), later).claims)
    ensures var s1 := Next(After(EMPTY, steps), step);
            && |s1.claims| == |After(EMPTY, steps).claims| + 1
            && var c := s1.claims[|s1.claims| - 1];
            && (Finished(s1.outbox, c, success, now).Ok? <==> now < step.leaseAt + 30000)
            && (now >= step.leaseAt + 30000 ==> Finished(After(s1, later).outbox, c, success, now) == Err(LeaseLost))
  {
    hide Run, After, Inv, Next, Enabled, FreshTokens, Uuid;
    var s0 := After(EMPTY, steps);
    var s1 := Next(s0, step);
    var s2 := After(s1, later);
    Reached(steps);
    NextKeepsInv(s0, step);
    ClaimLocks(s0, step);
    RunKeepsInv(s1, later);
    RunMovesLeasesOn(s1, later);
    var c := s1.claims[|s1.claims| - 1];
    FreshPrefix(s1.claims, s2.claims);
    LastClaim(s0, s1, s2, c);
    FinishExactly(s1, c, success, now);
    FinishExactly(s2, c, success, now);
  }

  lemma LastClaim(s0: State, s1: State, s2: State, c: Lease)
    requires s1.claims == s0.claims + [c] && s1.claims <= s2.claims
    ensures c in s1.claims && c in s2.claims
  {
    assert s1.claims[|s0.claims|] == c && s2.claims[|s0.claims|] == c;
  }

  lemma FinishExactly(s: State, c: Lease, success: bool, now: int)
    requires Inv(s) && FreshTokens(s.claims) && c in s.claims
    ensures c.event.id in s.outbox
    ensures Finished(s.outbox, c, success, now).Ok? <==>
            var r := s.outbox[c.event.id];
            c.attempt == r.attempts && r.lease.Some? && now < r.lease.value.until
    ensures Finished(s.outbox, c, success, now).Err? ==> Finished(s.outbox, c, success, now) == Err(LeaseLost)
  {
    ClaimsAre(s, c);
    hide Inv, Uuid, FreshTokens, Sealed, ClaimOk;
    if s.outbox[c.event.id].lease.Some? {
      FreshNow(s, c.event.id);
      var live := LiveClaim(s, c.event.id);
    }
  }

  // ----- what a claim finds -----

  /** Whoever is due is served, and in order: when a pending row with attempts left has passed its times and
      nobody has it locked, the claim takes a row, one that was as due and not available later. */
  lemma DueRowsAreServed(steps: seq<Step>, step: Step, id: ID)
    requires Run(EMPTY, steps) && Enabled(After(EMPTY, steps), step) && step.Claim? && step.expireAt <= step.pickAt
    requires var s := After(EMPTY, steps);
             && id in s.outbox && id !in step.locked && s.outbox[id].state.Pending? && s.outbox[id].attempts < 5
             && s.outbox[id].availableAt <= step.pickAt
             && (s.outbox[id].lease.Some? ==> s.outbox[id].lease.value.until <= step.expireAt)
    ensures var s, s' := After(EMPTY, steps), Next(After(EMPTY, steps), step);
            && step.pick.Some? && step.pick.value in s.outbox
            && var p := step.pick.value;
            && p !in step.locked && s.outbox[p].state.Pending? && s.outbox[p].attempts < 5
            && (s.outbox[p].lease.Some? ==> s.outbox[p].lease.value.until <= step.pickAt)
            && (s.outbox[p].availableAt < s.outbox[id].availableAt
                || (s.outbox[p].availableAt == s.outbox[id].availableAt && (p == id || Less(p, id))))
            && p in s'.outbox
            && s'.outbox[p] == s.outbox[p].(lease := Some(Lock(Uuid(step.token), step.leaseAt + 30000)),
                                            attempts := s.outbox[p].attempts + 1)
  {
    var s := After(EMPTY, steps);
    hide Run, After, Inv, Next, Uuid, Less, IsCandidate, Enabled, Expire;
    Reached(steps);
    ClaimLooks(s, step);
    ServedRow(s.outbox, step.expireAt, step.pickAt, step.locked, step.pick, id);
    TakenRow(s, step);
  }

  lemma ClaimLooks(s: State, step: Step)
    requires Enabled(s, step) && step.Claim?
    ensures IsCandidate(Expire(s.outbox, step.expireAt), step.locked, step.pickAt, step.pick)
  {
    hide IsCandidate, Expire;
  }

  lemma ConsumeLooks(s: State, step: Step)
    requires Enabled(s, step) && step.Consume?
    ensures IsLetter(s.mailbox, step.locked, step.pickAt, step.pick)
  {
    hide IsLetter;
  }

  lemma ServedRow(t: Outbox, expireAt: int, pickAt: int, locked: set<ID>, pick: Option<ID>, id: ID)
    requires IsCandidate(Expire(t, expireAt), locked, pickAt, pick)
    requires id in t && id !in locked && t[id].state.Pending? && t[id].attempts < 5
    requires t[id].availableAt <= pickAt && expireAt <= pickAt
    requires t[id].lease.Some? ==> t[id].lease.value.until <= expireAt
    ensures pick.Some? && pick.value in t && pick.value !in locked
    ensures var p := pick.value;
            && t[p].state.Pending? && t[p].attempts < 5
            && (t[p].lease.Some? ==> t[p].lease.value.until <= pickAt)
            && (t[p].availableAt < t[id].availableAt
                || (t[p].availableAt == t[id].availableAt && (p == id || Less(p, id))))
  {
    hide Less;
    assert Expire(t, expireAt)[id] == t[id];
    assert Claimable(Expire(t, expireAt)[id], pickAt);
  }

  lemma TakenRow(s: State, step: Step)
    requires Inv(s) && Enabled(s, step) && step.Claim? && step.pick.Some? && step.pick.value in s.outbox
    requires s.outbox[step.pick.value].attempts < 5
    ensures var p := step.pick.value;
            && p in Next(s, step).outbox
            && Next(s, step).outbox[p]
               == s.outbox[p].(lease := Some(Lock(Uuid(step.token), step.leaseAt + 30000)),
                               attempts := s.outbox[p].attempts + 1)
  {
    hide Inv, Enabled, Decode, Claimed, Stored, Uuid, Sealed;
    var p := step.pick.value;
    PickedRow(s, step);
    ClaimedRow(s.outbox, step.expireAt, step.pickAt, step.leaseAt, step.token, p);
    StoredIsSealed(p, s.outbox[p].envelope);
  }

  lemma RowsAre(s: State)
    requires Inv(s)
    ensures forall id | id in s.outbox :: s.outbox[id].attempts <= 5
    ensures forall id | id in s.mailbox :: s.mailbox[id].attempts <= 5
  {
    hide Stored, ClaimsOk, LeasesOk, SentOk, HandedOk, EffectsOk, StreamOk;
  }

  /** A row is buried only when it is pending, has had five attempts and has no lease that still lives. */
  lemma OnlyOverdueRowsAreBuried(s: State, step: Step, id: ID)
    requires Inv(s) && Enabled(s, step) && step.Claim? && id in s.outbox && id in Next(s, step).outbox
    requires !s.outbox[id].state.Dead? && Next(s, step).outbox[id].state.Dead?
    ensures s.outbox[id].state.Pending? && s.outbox[id].attempts == 5
    ensures s.outbox[id].lease.Some? ==> s.outbox[id].lease.value.until <= step.expireAt
  {
    hide Inv, Decode, Sealed, Uuid, IsCandidate;
    if step.pick.Some? {
      PickedRow(s, step);
      ClaimedRow(s.outbox, step.expireAt, step.pickAt, step.leaseAt, step.token, step.pick.value);
      hide Claimed, Stored;
    }
  }

  /** Nobody is served early: what a claim takes was pending with attempts left, due, and free of any lease
      that still lived; and what a consumer takes was waiting with attempts left, and due. */
  lemma NothingIsServedEarly(steps: seq<Step>, step: Step)
    requires Run(EMPTY, steps) && Enabled(After(EMPTY, steps), step)
    requires (step.Claim? || step.Consume?) && step.pick.Some?
    ensures var s, p := After(EMPTY, steps), step.pick.value;
            && p !in step.locked
            && (step.Claim? ==>
                  && p in s.outbox && s.outbox[p].state.Pending? && s.outbox[p].attempts < 5
                  && s.outbox[p].availableAt <= step.pickAt
                  && (s.outbox[p].lease.Some? ==> s.outbox[p].lease.value.until <= step.pickAt))
            && (step.Consume? ==>
                  && p in s.mailbox && s.mailbox[p].state.Waiting? && s.mailbox[p].attempts < 5
                  && s.mailbox[p].availableAt <= step.pickAt)
  {
    var s := After(EMPTY, steps);
    hide Run, After, IsCandidate, IsLetter, Enabled, Expire;
    if step.Claim? {
      ClaimLooks(s, step);
      PickedWasDue(s.outbox, step.expireAt, step.pickAt, step.locked, step.pick);
    } else {
      ConsumeLooks(s, step);
      LetterWasDue(s.mailbox, step.pickAt, step.locked, step.pick);
    }
  }

  lemma PickedWasDue(t: Outbox, expireAt: int, pickAt: int, locked: set<ID>, pick: Option<ID>)
    requires IsCandidate(Expire(t, expireAt), locked, pickAt, pick) && pick.Some?
    ensures var p := pick.value;
            && p !in locked && p in t && t[p].state.Pending? && t[p].attempts < 5 && t[p].availableAt <= pickAt
            && (t[p].lease.Some? ==> t[p].lease.value.until <= pickAt)
  {
    hide Less;
  }

  lemma LetterWasDue(t: Mailbox, pickAt: int, locked: set<ID>, pick: Option<ID>)
    requires IsLetter(t, locked, pickAt, pick) && pick.Some?
    ensures var p := pick.value;
            p !in locked && p in t && t[p].state.Waiting? && t[p].attempts < 5 && t[p].availableAt <= pickAt
  {
    hide Less;
  }

  // ----- what a consumer finds -----

  /** The mailbox serves in order too, and keeps count: an accepted letter is processed; a refused one waits
      a tenth of a second, or is spent on its fifth attempt. */
  lemma DueLettersAreServed(steps: seq<Step>, step: Step, id: ID)
    requires Run(EMPTY, steps) && Enabled(After(EMPTY, steps), step) && step.Consume?
    requires var s := After(EMPTY, steps);
             && id in s.mailbox && id !in step.locked && s.mailbox[id].state.Waiting?
             && s.mailbox[id].availableAt <= step.pickAt
    ensures var s, s' := After(EMPTY, steps), Next(After(EMPTY, steps), step);
            && step.pick.Some? && step.pick.value in s.mailbox
            && var p := step.pick.value;
            && p !in step.locked && s.mailbox[p].state.Waiting? && s.mailbox[p].attempts < 5
            && (s.mailbox[p].availableAt < s.mailbox[id].availableAt
                || (s.mailbox[p].availableAt == s.mailbox[id].availableAt && (p == id || Less(p, id))))
            && p in s'.mailbox
            && var state := if step.verdict.Accept? then Processed
                            else if s.mailbox[p].attempts == 4 then Spent else Waiting;
            s'.mailbox[p] == MailRow(s.mailbox[p].envelope, state, s.mailbox[p].attempts + 1, step.now + 100)
  {
    var s := After(EMPTY, steps);
    hide Run, After, Inv, Next, Less, IsLetter, Enabled;
    Reached(steps);
    ConsumeLooks(s, step);
    WaitingLetters(s, id);
    ServedLetter(s.mailbox, step.pickAt, step.locked, step.pick, id);
    TakenLetter(s, step);
  }

  lemma ServedLetter(t: Mailbox, now: int, locked: set<ID>, pick: Option<ID>, id: ID)
    requires IsLetter(t, locked, now, pick)
    requires id in t && id !in locked && t[id].state.Waiting? && t[id].attempts < 5 && t[id].availableAt <= now
    ensures pick.Some? && pick.value in t && pick.value !in locked
    ensures var p := pick.value;
            && t[p].state.Waiting? && t[p].attempts < 5
            && (t[p].availableAt < t[id].availableAt
                || (t[p].availableAt == t[id].availableAt && (p == id || Less(p, id))))
  {
    hide Less;
    assert Consumable(t[id], now);
  }

  lemma TakenLetter(s: State, step: Step)
    requires Inv(s) && Enabled(s, step) && step.Consume? && step.pick.Some? && step.pick.value in s.mailbox
    ensures var p, s' := step.pick.value, Next(s, step);
            && p in s'.mailbox
            && var state := if step.verdict.Accept? then Processed
                            else if s.mailbox[p].attempts >= 4 then Spent else Waiting;
            s'.mailbox[p] == MailRow(s.mailbox[p].envelope, state, s.mailbox[p].attempts + 1, step.now + 100)
  {
    hide Inv, Enabled, Decode, Stored, Consumed, MailOk, EffectsOk, StreamOk, HandedOk;
    PickedLetter(s, step);
    ConsumedRow(s.mailbox, step.pick.value, step.verdict, step.now);
  }

  lemma WaitingLetters(s: State, id: ID)
    requires Inv(s) && id in s.mailbox && s.mailbox[id].state.Waiting?
    ensures s.mailbox[id].attempts < 5
  {
    hide Stored, ClaimsOk, LeasesOk, SentOk, HandedOk, EffectsOk, StreamOk, OutOk;
  }

  /** A message of the stream is delivered at most five times in any run, and never once it is acknowledged. */
  lemma DeliveriesAreBounded(steps: seq<Step>, i: nat, later: seq<Step>)
    requires Run(EMPTY, steps) && Run(After(EMPTY, steps), later)
    ensures After(EMPTY, steps).pulls[i] <= 5
    ensures i in After(EMPTY, steps).acked ==>
              After(After(EMPTY, steps), later).pulls[i] == After(EMPTY, steps).pulls[i]
  {
    PullsWithin(EMPTY, steps, i);
    AckedStaysUndelivered(After(EMPTY, steps), later, i);
  }

  lemma PullStep(s: State, step: Step, i: nat)
    requires Enabled(s, step)
    ensures Next(s, step).pulls[i] == s.pulls[i] + (if step == Pull(i) then 1 else 0)
    ensures step == Pull(i) ==> i !in s.acked && s.pulls[i] < 5
    ensures i in s.acked ==> i in Next(s, step).acked
  {
    hide Decode, Sealed, SameJson, InsertMail, InsertOut, Consumed, Claimed, Expire, IsCandidate, IsLetter, Uuid,
         StreamReceipt, Appended, Answer, Finished;
  }

  lemma {:induction false} PullsWithin(s: State, steps: seq<Step>, i: nat)
    requires s.pulls[i] <= 5 && Run(s, steps)
    ensures After(s, steps).pulls[i] <= 5
    decreases |steps|
  {
    hide Next, Enabled;
    if steps == [] {
    } else {
      PullStep(s, steps[0], i);
      PullsWithin(Next(s, steps[0]), steps[1..], i);
    }
  }

  lemma {:induction false} AckedStaysUndelivered(s: State, steps: seq<Step>, i: nat)
    requires Run(s, steps)
    ensures i in s.acked ==> After(s, steps).pulls[i] == s.pulls[i]
    decreases |steps|
  {
    hide Next, Enabled;
    if steps == [] {
    } else {
      PullStep(s, steps[0], i);
      AckedStaysUndelivered(Next(s, steps[0]), steps[1..], i);
    }
  }
}
