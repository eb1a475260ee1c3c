/** What the pipeline promises over every run, from an empty database and an empty stream. */
module Guarantees {
  import opened Wrappers
  import opened Identity
  import opened Json
  import opened Envelope
  import opened Tables
  import opened Pipeline

  lemma Reached(steps: seq<Step>)
    requires Run(EMPTY, steps)
    ensures Inv(After(EMPTY, steps))
  {
    StartInv();
    RunKeepsInv(EMPTY, steps);
  }

  // ----- consumer effects -----

  /** The effects of an event are committed at most once, and exactly when its letter is processed.
      Whatever happens later, republication under the same id included, a processed or spent letter and
      its count of effects stay as they are. */
  lemma EffectsAtMostOnce(steps: seq<Step>, later: seq<Step>, id: ID)
    requires Run(EMPTY, steps) && Run(After(EMPTY, steps), later)
    ensures var s := After(EMPTY, steps);
            var s' := After(s, later);
            && Count(s.effects, id) <= 1
            && (Count(s.effects, id) == 1 <==> id in s.mailbox && s.mailbox[id].state.Processed?)
            && (id in s.mailbox && !s.mailbox[id].state.Waiting? ==>
                  && id in s'.mailbox && s'.mailbox[id] == s.mailbox[id]
                  && Count(s'.effects, id) == Count(s.effects, id))
  {
    hide Run, After, Stored, RowOk, LetterOk, ClaimsOk, LeasesOk, SentOk, HandedOk;
    Reached(steps);
    RunKeepsInv(After(EMPTY, steps), later);
  }

  /** One consume is atomic: a refused, throwing or undecodable letter adds no effect; an accepted one
      adds its own, once, together with its state. */
  lemma ConsumeIsAtomic(steps: seq<Step>, step: Step)
    requires Run(EMPTY, steps) && Enabled(After(EMPTY, steps), step) && step.Consume?
    ensures var s := After(EMPTY, steps);
            var s' := Next(s, step);
            && (step.pick.None? ==> s' == s)
            && (step.pick.Some? ==>
                  var p := step.pick.value;
                  && s'.effects == s.effects + (if step.verdict.Accept? then [p] else [])
                  && s'.mailbox.Keys == s.mailbox.Keys
                  && s'.mailbox[p].attempts == s.mailbox[p].attempts + 1
                  && (s'.mailbox[p].state.Processed? <==> step.verdict.Accept?)
                  && forall id | id in s.mailbox && id != p :: s'.mailbox[id] == s.mailbox[id])
  {
    hide Run, After, Inv, Enabled, EffectsOk, MailOk, Stored, HandedOk, StreamOk, Consumed, Decode;
    var s := After(EMPTY, steps);
    Reached(steps);
    if step.pick.Some? {
      PickedLetter(s, step);
      ConsumedRow(s.mailbox, step.pick.value, step.verdict, step.now);
    }
  }

  // ----- nothing acknowledged is lost -----

  /** A row marked sent on a receipt is held with equal JSON by the destination that gave it; a message
      acknowledged to the stream is held by the mailbox. Both for ever. */
  lemma NothingAcknowledgedIsLost(steps: seq<Step>, later: seq<Step>)
    requires Run(EMPTY, steps) && Run(After(EMPTY, steps), later)
    ensures var s := After(EMPTY, steps);
            var s' := After(s, later);
            && (forall id | id in s.outbox && s.outbox[id].state.Sent? && id !in s.blind ::
                  && id in s.via && Holds(s.mailbox, s.stream, s.via[id], id, s.outbox[id].envelope)
                  && Holds(s'.mailbox, s'.stream, s.via[id], id, s.outbox[id].envelope)
                  && id in s'.outbox && s'.outbox[id] == s.outbox[id])
            && (forall i | i in s.acked ::
                  && i < |s.stream| && i < |s'.stream| && s'.stream[i] == s.stream[i]
                  && Holds(s'.mailbox, s'.stream, ToMailbox, s.stream[i].id, s.stream[i].data))
  {
    hide Run, After, Stored, RowOk, LetterOk, ClaimsOk, LeasesOk, EffectsOk, Holds, MailOk, StreamOk;
    var s := After(EMPTY, steps);
    var s' := After(s, later);
    Reached(steps);
    RunKeepsInv(s, later);
    forall id | id in s.outbox && s.outbox[id].state.Sent? && id !in s.blind
      ensures Holds(s'.mailbox, s'.stream, s.via[id], id, s.outbox[id].envelope)
    {
      HoldsStays(s, s', s.via[id], id, s.outbox[id].envelope);
    }
    forall i | i in s.acked
      ensures Holds(s'.mailbox, s'.stream, ToMailbox, s.stream[i].id, s.stream[i].data)
    {
      HoldsStays(s, s', ToMailbox, s.stream[i].id, s.stream[i].data);
    }
  }

  /** Reuse of an id after the duplicate window can store two contents in the stream; only contents
      with equal JSON can both be acknowledged. */
  lemma ConflictsAreNotBothAcknowledged(steps: seq<Step>, i: nat, j: nat)
    requires Run(EMPTY, steps)
    requires var s := After(EMPTY, steps);
             i in s.acked && j in s.acked && i < |s.stream| && j < |s.stream| && s.stream[i].id == s.stream[j].id
    ensures var s := After(EMPTY, steps); SameJson(s.stream[i].data, s.stream[j].data)
  {
    hide Run, After, Meaning, Stored, RowOk, LetterOk, ClaimsOk, LeasesOk, EffectsOk, MailOk, StreamOk, SentOk;
    Reached(steps);
  }

  /** End to end: once the stream is drained into the mailbox and every letter is processed, each sent
      event has had its effects committed exactly once. */
  lemma DrainedMeansExactlyOnce(steps: seq<Step>, id: ID)
    requires Run(EMPTY, steps)
    requires var s := After(EMPTY, steps);
             && (forall i | 0 <= i < |s.stream| :: i in s.acked)
             && (forall x | x in s.mailbox :: s.mailbox[x].state.Processed?)
             && id in s.outbox && s.outbox[id].state.Sent? && id !in s.blind
    ensures var s := After(EMPTY, steps);
            && Count(s.effects, id) == 1
            && id in s.mailbox && SameJson(s.mailbox[id].envelope, s.outbox[id].envelope)
  {
    hide Run, After, Meaning, Stored, RowOk, LetterOk, ClaimsOk, LeasesOk, MailOk, StreamOk;
    var s := After(EMPTY, steps);
    Reached(steps);
    if s.via[id].ToStream? {
      var i :| 0 <= i < |s.stream| && s.stream[i].id == id && SameJson(s.stream[i].data, s.outbox[id].envelope);
      assert Holds(s.mailbox, s.stream, ToMailbox, s.stream[i].id, s.stream[i].data);
    }
  }

  // ----- lease fencing -----

  // No two claims of one row used the same uuid for a token.
  predicate FreshTokens(claims: seq<Lease>) {
    forall j, k | 0 <= j < k < |claims| && claims[j].event.id == claims[k].event.id ::
      Uuid(claims[j].token) != Uuid(claims[k].token)
  }

  // The token behind a row's lease was not used for an earlier claim of the row.
  predicate LiveTokenFresh(s: State, id: ID)
    requires id in s.outbox && s.outbox[id].lease.Some?
  {
    forall c | c in s.claims && c.event.id == id && c.attempt < s.outbox[id].attempts ::
      Uuid(c.token) != s.outbox[id].lease.value.token
  }

  /** While a lease is live, the claims that may finish the row are exactly those at its current attempt,
      if and only if the caller did not reuse a token. */
  lemma FencingNeedsFreshTokens(steps: seq<Step>, id: ID, now: int)
    requires Run(EMPTY, steps)
    requires var s := After(EMPTY, steps);
             id in s.outbox && s.outbox[id].lease.Some? && s.outbox[id].lease.value.until > now
    ensures var s := After(EMPTY, steps);
            (forall c | c in s.claims && c.event.id == id ::
               Finished(s.outbox, c, true, now).Ok? <==> c.attempt == s.outbox[id].attempts)
            <==> LiveTokenFresh(s, id)
  {
    hide Run, After, Inv, Uuid;
    Reached(steps);
    var live := LiveClaim(After(EMPTY, steps), id);
  }

  // The claim behind a live lease: the only one at the row's attempt, and the last.
  lemma LiveClaim(s: State, id: ID) returns (live: Lease)
    requires Inv(s) && id in s.outbox && s.outbox[id].lease.Some?
    ensures s.outbox[id].state.Pending?
    ensures live in s.claims && live.event.id == id && live.attempt == s.outbox[id].attempts
    ensures Uuid(live.token) == s.outbox[id].lease.value.token
    ensures forall c | c in s.claims && c.event.id == id ::
              c.attempt <= s.outbox[id].attempts && (c.attempt == s.outbox[id].attempts ==> c == live)
  {
    hide Stored, LetterOk, LeasesOk, EffectsOk, MailOk, StreamOk, SentOk, HandedOk, Sealed, Uuid;
    assert RowOk(s.outbox[id]) && LatestClaim(s.outbox[id], s.claims, id);
    var k :| 0 <= k < |s.claims| && s.claims[k].event.id == id && s.claims[k].attempt == s.outbox[id].attempts
             && Uuid(s.claims[k].token) == s.outbox[id].lease.value.token;
    live := s.claims[k];
    forall c | c in s.claims && c.event.id == id
      ensures c.attempt <= s.outbox[id].attempts && (c.attempt == s.outbox[id].attempts ==> c == live)
    {
      var j :| 0 <= j < |s.claims| && s.claims[j] == c;
      assert ClaimOk(s.outbox, s.claims[j]);
    }
  }

  lemma FreshNow(s: State, id: ID)
    requires Inv(s) && FreshTokens(s.claims) && id in s.outbox && s.outbox[id].lease.Some?
    ensures LiveTokenFresh(s, id)
    ensures forall c | c in s.claims && c.event.id == id && Uuid(c.token) == s.outbox[id].lease.value.token ::
              c.attempt == s.outbox[id].attempts
  {
    hide Stored, LetterOk, LeasesOk, EffectsOk, MailOk, StreamOk, SentOk, HandedOk, Sealed, RowOk;
    assert LatestClaim(s.outbox[id], s.claims, id);
    var k :| 0 <= k < |s.claims| && s.claims[k].event.id == id && s.claims[k].attempt == s.outbox[id].attempts
             && Uuid(s.claims[k].token) == s.outbox[id].lease.value.token;
    forall c | c in s.claims && c.event.id == id && Uuid(c.token) == s.outbox[id].lease.value.token
      ensures c.attempt == s.outbox[id].attempts
    {
      var j :| 0 <= j < |s.claims| && s.claims[j] == c;
      assert j == k;
    }
  }

  /** With fresh tokens, once a row has been claimed again, every older holder gets lease_lost for ever,
      whether it acknowledges or releases. */
  lemma StaleHoldersAreLockedOut(steps: seq<Step>, later: seq<Step>, first: Lease, success: bool, now: int)
    requires Run(EMPTY, steps) && Run(After(EMPTY, steps), later)
    requires FreshTokens(After(After(EMPTY, steps), later).claims)
    requires var s := After(EMPTY, steps);
             first in s.claims && first.event.id in s.outbox && first.attempt < s.outbox[first.event.id].attempts
    ensures Finished(After(After(EMPTY, steps), later).outbox, first, success, now) == Err(LeaseLost)
  {
    hide Run, After, Stored, RowOk, LetterOk, ClaimsOk, LeasesOk, EffectsOk, MailOk, StreamOk, SentOk, HandedOk;
    var s := After(EMPTY, steps);
    var s' := After(s, later);
    Reached(steps);
    RunKeepsInv(s, later);
    var id := first.event.id;
    assert first in s'.claims;
    if s'.outbox[id].lease.Some? { FreshNow(s', id); }
  }

  lemma NothingExpires(t: Outbox, now: int)
    requires forall id | id in t :: t[id].attempts < MAX_ATTEMPTS
    ensures Expire(t, now) == t
  {
  }

  // Claiming the only row there is.
  lemma ClaimOnlyRow(s: State, e: Event, row: OutRow, token: string, now: int)
    requires ParseId(token).Some? && Sealed(e) && row.envelope == e.bytes && row.attempts < 4 && Claimable(row, now)
             && s.outbox == map[e.id := row]
    ensures var claim := Claim(token, {}, now, now, now, Some(e.id), true);
            var l := Lease(e, token, row.attempts + 1);
            && Enabled(s, claim)
            && Next(s, claim) == s.(outbox := map[e.id := Leased(row, token, now)], claims := s.claims + [l],
                                    leases := s.leases[l := Held])
  {
    hide Sealed, SameJson, Stored, Decode, Expire, Less, InsertMail, InsertOut, Consumed, Claimed, IsCandidate,
         Claimable;
    SealedDecodes(e);
    SealedIsStored(e);
    NothingExpires(s.outbox, now);
    OnlyCandidate(e.id, row, now);
    ClaimedRow(s.outbox, now, now, now, token, e.id);
    assert s.outbox[e.id := Leased(row, token, now)] == map[e.id := Leased(row, token, now)];
  }

  lemma OnlyCandidate(id: ID, row: OutRow, now: int)
    requires Claimable(row, now)
    ensures IsCandidate(map[id := row], {}, now, Some(id))
  {
  }

  lemma SealedDecodes(e: Event)
    requires Sealed(e)
    ensures Decode(e.bytes) == Some(e)
  {
  }

  lemma FirstEnqueue(e: Event)
    requires Sealed(e)
    ensures Enabled(EMPTY, Enqueue(e, 0))
    ensures Next(EMPTY, Enqueue(e, 0)) == EMPTY.(outbox := map[e.id := OutRow(e.bytes, Pending, 0, 0, None)])
  {
    hide Sealed, Decode, SameJson;
  }

  lemma ThreeSteps(s0: State, a: Step, b: Step, c: Step)
    requires Enabled(s0, a) && Enabled(Next(s0, a), b) && Enabled(Next(Next(s0, a), b), c)
    ensures Run(s0, [a, b, c]) && After(s0, [a, b, c]) == Next(Next(Next(s0, a), b), c)
  {
    hide Enabled, Next;
    var s1, s2 := Next(s0, a), Next(Next(s0, a), b);
    assert [a, b, c][1..] == [b, c] && [b, c][1..] == [c] && [c][1..] == [];
    assert Run(Next(s2, c), []);
    assert Run(s2, [c]) && After(s2, [c]) == Next(s2, c);
    assert Run(s1, [b, c]) && After(s1, [b, c]) == Next(s2, c);
  }

  /** The guard is needed: a caller that reuses a token lets the first holder finish the second claim. */
  lemma ReusedTokenBreaksFencing(e: Event, token: string) returns (steps: seq<Step>, stale: Lease)
    requires Sealed(e) && ParseId(token).Some?
    ensures Run(EMPTY, steps)
    ensures var s := After(EMPTY, steps);
            && stale in s.claims && stale.event == e && stale.attempt == 1
            && e.id in s.outbox && s.outbox[e.id].attempts == 2
            && Finished(s.outbox, stale, true, 30001).Ok?
  {
    hide Next, Enabled, Sealed, Run, After;
    var a, b, c := Enqueue(e, 0), Claim(token, {}, 0, 0, 0, Some(e.id), true),
                   Claim(token, {}, 30000, 30000, 30000, Some(e.id), true);
    var row := OutRow(e.bytes, Pending, 0, 0, None);
    FirstEnqueue(e);
    var s1 := EMPTY.(outbox := map[e.id := row]);
    ClaimOnlyRow(s1, e, row, token, 0);
    var s2 := Next(s1, b);
    ClaimOnlyRow(s2, e, Leased(row, token, 0), token, 30000);
    var s3 := Next(s2, c);
    steps, stale := [a, b, c], Lease(e, token, 1);
    ThreeSteps(EMPTY, a, b, c);
    assert stale in s2.claims && stale in s3.claims;
  }

  // ----- what `sent` means when any holder may acknowledge -----

  // Some destination holds the row's event with equal JSON.
  predicate HeldSomewhere(s: State, id: ID)
    requires id in s.outbox
  {
    Holds(s.mailbox, s.stream, ToMailbox, id, s.outbox[id].envelope)
    || Holds(s.mailbox, s.stream, ToStream, id, s.outbox[id].envelope)
  }

  predicate SentAreHeld(s: State) {
    forall id | id in s.outbox && s.outbox[id].state.Sent? :: HeldSomewhere(s, id)
  }

  // What a holder can check before it acknowledges: it has a receipt, or finds the event at a destination.
  predicate Backed(s: State, step: Step)
    requires Enabled(s, step)
  {
    step.Ack? && Owns(s.outbox, step.l, step.now) ==> s.leases[step.l].Receipted? || HeldSomewhere(s, step.l.event.id)
  }

  predicate AllBacked(s: State, steps: seq<Step>)
    requires Run(s, steps)
    decreases |steps|
  {
    steps == [] || (Backed(s, steps[0]) && AllBacked(Next(s, steps[0]), steps[1..]))
  }

  // Every sent row is held in every state of the run.
  predicate HeldThroughout(s: State, steps: seq<Step>)
    requires Run(s, steps)
    decreases |steps|
  {
    SentAreHeld(s) && (steps == [] || HeldThroughout(Next(s, steps[0]), steps[1..]))
  }

  lemma HeldStays(s: State, s': State, id: ID)
    requires Later(s, s') && id in s.outbox && HeldSomewhere(s, id)
    ensures id in s'.outbox && HeldSomewhere(s', id)
  {
    hide Holds;
    if Holds(s.mailbox, s.stream, ToMailbox, id, s.outbox[id].envelope) {
      HoldsStays(s, s', ToMailbox, id, s.outbox[id].envelope);
    } else {
      HoldsStays(s, s', ToStream, id, s.outbox[id].envelope);
    }
  }

  lemma OnlyAcksSend(s: State, step: Step)
    requires Inv(s) && Enabled(s, step) && !step.Ack?
    ensures forall id | id in Next(s, step).outbox && Next(s, step).outbox[id].state.Sent? ::
              id in s.outbox && s.outbox[id].state.Sent?
  {
    hide Inv, Decode, Enabled, Sealed, SameJson, InsertMail, Consumed;
    if step.Claim? && step.pick.Some? {
      PickedRow(s, step);
      ClaimedRow(s.outbox, step.expireAt, step.pickAt, step.leaseAt, step.token, step.pick.value);
      hide Claimed, Stored;
    }
  }

  lemma AckSendsOne(s: State, step: Step)
    requires Inv(s) && Enabled(s, step) && step.Ack?
    ensures step.l in s.leases
    ensures var s', id := Next(s, step), step.l.event.id;
            && s'.mailbox == s.mailbox && s'.stream == s.stream
            && if Owns(s.outbox, step.l, step.now) then
                 && id in s.outbox && id in s'.outbox && s'.outbox == s.outbox[id := s'.outbox[id]]
                 && s'.outbox[id].state.Sent? && s'.outbox[id].envelope == s.outbox[id].envelope
               else
                 s'.outbox == s.outbox
  {
    hide Inv;
  }

  lemma ReceiptIsHeld(s: State, l: Lease, now: int)
    requires Inv(s) && l in s.leases && Owns(s.outbox, l, now) && s.leases[l].Receipted?
    ensures HeldSomewhere(s, l.event.id)
  {
    OwnedRow(s, l, now);
    hide Inv, Holds, Owns;
  }

  // The step on which it hangs.
  lemma AckKeepsSentHeld(s: State, step: Step)
    requires Inv(s) && Enabled(s, step) && SentAreHeld(s)
    ensures SentAreHeld(Next(s, step)) <==> Backed(s, step)
  {
    hide Inv, Next, Enabled, Later, Owns, HeldSomewhere;
    var s' := Next(s, step);
    NextKeepsInv(s, step);
    forall id | id in s.outbox && s.outbox[id].state.Sent? ensures id in s'.outbox && HeldSomewhere(s', id) {
      HeldStays(s, s', id);
    }
    if step.Ack? {
      AckSendsOne(s, step);
      if Owns(s.outbox, step.l, step.now) {
        if s.leases[step.l].Receipted? { ReceiptIsHeld(s, step.l, step.now); }
        SameHeld(s, s', step.l.event.id);
      }
    } else {
      OnlyAcksSend(s, step);
    }
  }

  lemma SameHeld(s: State, s': State, id: ID)
    requires id in s.outbox && id in s'.outbox && s'.outbox[id].envelope == s.outbox[id].envelope
    requires s'.mailbox == s.mailbox && s'.stream == s.stream
    ensures HeldSomewhere(s', id) <==> HeldSomewhere(s, id)
  {
    hide Holds;
  }

  lemma {:induction false} HeldOverRun(s: State, steps: seq<Step>)
    requires Inv(s) && Run(s, steps) && SentAreHeld(s)
    ensures HeldThroughout(s, steps) <==> AllBacked(s, steps)
    decreases |steps|
  {
    hide Inv, Next, Enabled, Backed, SentAreHeld;
    if steps == [] {
    } else {
      NextKeepsInv(s, steps[0]);
      AckKeepsSentHeld(s, steps[0]);
      if Backed(s, steps[0]) {
        HeldOverRun(Next(s, steps[0]), steps[1..]);
      } else {
        NotHeldFirst(Next(s, steps[0]), steps[1..]);
      }
    }
  }

  lemma NotHeldFirst(s: State, steps: seq<Step>)
    requires Run(s, steps) && !SentAreHeld(s)
    ensures !HeldThroughout(s, steps)
  {
    hide SentAreHeld, Next, Enabled;
  }

  /** Every sent row is held by some destination, in every state of a run, exactly when every successful
      ack of the run has a receipt or is of an event that a destination already holds. */
  lemma SentMeansHeldWhenBacked(steps: seq<Step>)
    requires Run(EMPTY, steps)
    ensures HeldThroughout(EMPTY, steps) <==> AllBacked(EMPTY, steps)
  {
    StartInv();
    assert SentAreHeld(EMPTY);
    hide Inv, Next, Enabled, Backed, SentAreHeld, EMPTY;
    HeldOverRun(EMPTY, steps);
  }

  // Every ack of the run is made with a receipt, as dispatch makes it.
  predicate AllReceipted(s: State, steps: seq<Step>)
    requires Run(s, steps)
    decreases |steps|
  {
    steps == []
    || ((steps[0].Ack? ==> s.leases[steps[0].l].Receipted?) && AllReceipted(Next(s, steps[0]), steps[1..]))
  }

  lemma ReceiptedStep(s: State, step: Step)
    requires Enabled(s, step) && (step.Ack? ==> s.leases[step.l].Receipted?)
    ensures Next(s, step).blind == s.blind
  {
    hide InsertMail, InsertOut, Consumed, Claimed, Decode, IsCandidate, IsLetter, Sealed;
  }

  lemma {:induction false} ReceiptedRun(s: State, steps: seq<Step>)
    requires Run(s, steps) && AllReceipted(s, steps)
    ensures After(s, steps).blind == s.blind
    decreases |steps|
  {
    hide Next, Enabled;
    if steps == [] {
    } else {
      ReceiptedStep(s, steps[0]);
      ReceiptedRun(Next(s, steps[0]), steps[1..]);
    }
  }

  /** When only dispatchers acknowledge, every sent row is held for ever where its receipt came from. */
  lemma DispatchersLoseNothing(steps: seq<Step>, later: seq<Step>)
    requires Run(EMPTY, steps) && AllReceipted(EMPTY, steps) && Run(After(EMPTY, steps), later)
    ensures var s := After(EMPTY, steps);
            forall id | id in s.outbox && s.outbox[id].state.Sent? ::
              var s' := After(s, later);
              id in s.via && Holds(s'.mailbox, s'.stream, s.via[id], id, s.outbox[id].envelope)
  {
    hide Run, After, AllReceipted, Holds;
    ReceiptedRun(EMPTY, steps);
    NothingAcknowledgedIsLost(steps, later);
  }

  /** The guard is needed: a holder that acknowledges what it never published leaves a row marked sent that
      no destination holds. */
  lemma UnbackedAckLosesEvent(e: Event, token: string) returns (steps: seq<Step>)
    requires Sealed(e) && ParseId(token).Some?
    ensures Run(EMPTY, steps)
    ensures var s := After(EMPTY, steps);
            && e.id in s.outbox && s.outbox[e.id].state.Sent? && s.outbox[e.id].envelope == e.bytes
            && s.mailbox == map[] && s.stream == [] && !HeldSomewhere(s, e.id)
  {
    hide Next, Enabled, Sealed, Run, After, ParseId, Uuid;
    var l := Lease(e, token, 1);
    var a, b, c := Enqueue(e, 0), Claim(token, {}, 0, 0, 0, Some(e.id), true), Ack(l, 0);
    var row := OutRow(e.bytes, Pending, 0, 0, None);
    FirstEnqueue(e);
    var s1 := EMPTY.(outbox := map[e.id := row]);
    ClaimOnlyRow(s1, e, row, token, 0);
    var s2 := Next(s1, b);
    AckOnlyRow(s2, l, 0);
    steps := [a, b, c];
    ThreeSteps(EMPTY, a, b, c);
    hide SameJson;
  }

  lemma AckOnlyRow(s: State, l: Lease, now: int)
    requires l in s.leases && Owns(s.outbox, l, now)
    ensures Enabled(s, Ack(l, now))
    ensures var s' := Next(s, Ack(l, now));
            && s'.mailbox == s.mailbox && s'.stream == s.stream
            && l.event.id in s'.outbox && s'.outbox[l.event.id].state.Sent?
            && s'.outbox[l.event.id].envelope == s.outbox[l.event.id].envelope
  {
    hide Uuid;
  }

  // ----- each claim is finished once -----

  predicate FinishesOk(s: State) {
    && (forall k | 0 <= k < |s.finishes| ::
          && s.finishes[k] in s.claims && s.finishes[k].event.id in s.outbox
          && var r := s.outbox[s.finishes[k].event.id];
          s.finishes[k].attempt <= r.attempts && (r.lease.Some? ==> s.finishes[k].attempt < r.attempts))
    && (forall j, k | 0 <= j < k < |s.finishes| :: s.finishes[j] != s.finishes[k])
  }

  // A row keeps its lease, loses it, or takes one at a higher attempt.
  predicate LeasesMoveOn(t: Outbox, t': Outbox) {
    forall id | id in t :: id in t' && t[id].attempts <= t'[id].attempts
      && (t'[id].lease.None? || t'[id].lease == t[id].lease || t[id].attempts < t'[id].attempts)
  }

  lemma FinishesStay(s: State, s': State)
    requires FinishesOk(s) && s'.finishes == s.finishes && s.claims <= s'.claims && LeasesMoveOn(s.outbox, s'.outbox)
    ensures FinishesOk(s')
  {
    hide Claimable;
  }

  lemma StepMovesLeasesOn(s: State, step: Step)
    requires Inv(s) && Enabled(s, step)
    requires !step.Ack? && !step.Release?
    ensures LeasesMoveOn(s.outbox, Next(s, step).outbox) && Next(s, step).finishes == s.finishes
  {
    hide Inv, Decode, Enabled, Sealed, SameJson, InsertMail, Consumed;
    if step.Claim? && step.pick.Some? {
      PickedRow(s, step);
      ClaimedRow(s.outbox, step.expireAt, step.pickAt, step.leaseAt, step.token, step.pick.value);
      hide Claimed, Stored;
    }
  }

  lemma StepKeepsFinishes(s: State, step: Step)
    requires Inv(s) && FinishesOk(s) && Enabled(s, step) && FreshTokens(Next(s, step).claims)
    ensures FinishesOk(Next(s, step))
  {
    var s' := Next(s, step);
    NextKeepsInv(s, step);
    if step.Ack? || step.Release? {
      FinishIsNew(s, step);
    } else {
      StepMovesLeasesOn(s, step);
      hide Inv, Next, Enabled;
      FinishesStay(s, s');
    }
  }

  lemma FinishIsNew(s: State, step: Step)
    requires Inv(s) && FinishesOk(s) && Enabled(s, step) && (step.Ack? || step.Release?) && FreshTokens(s.claims)
    ensures FinishesOk(Next(s, step))
  {
    hide Inv, Sealed, FreshTokens, Decode, SameJson, InsertMail, InsertOut, Consumed, Claimed, Expire;
    var l, s' := step.l, Next(s, step);
    LeaseClaimed(s, l);
    if Owns(s.outbox, l, step.now) {
      FreshNow(s, l.event.id);
      assert l.attempt == s.outbox[l.event.id].attempts;
    }
  }

  lemma LeaseClaimed(s: State, l: Lease)
    requires Inv(s) && l in s.leases
    ensures l in s.claims && ClaimOk(s.outbox, l)
  {
    LeaseSealed(s, l);
  }

  lemma {:induction false} FinishesOverRun(s: State, steps: seq<Step>)
    requires Inv(s) && FinishesOk(s) && Run(s, steps) && FreshTokens(After(s, steps).claims)
    ensures FinishesOk(After(s, steps))
    decreases |steps|
  {
    hide Inv, Next, Enabled, FinishesOk;
    if steps == [] {
    } else {
      NextKeepsInv(s, steps[0]);
      RunKeepsInv(Next(s, steps[0]), steps[1..]);
      FreshPrefix(Next(s, steps[0]).claims, After(s, steps).claims);
      StepKeepsFinishes(s, steps[0]);
      FinishesOverRun(Next(s, steps[0]), steps[1..]);
    }
  }

  lemma FreshPrefix(claims: seq<Lease>, more: seq<Lease>)
    requires claims <= more && FreshTokens(more)
    ensures FreshTokens(claims)
  {
    forall j, k | 0 <= j < k < |claims| && claims[j].event.id == claims[k].event.id
      ensures Uuid(claims[j].token) != Uuid(claims[k].token)
    {
      assert more[j] == claims[j] && more[k] == claims[k];
    }
  }

  /** With fresh tokens, every successful ack or release is of a committed claim, and no claim is
      finished twice. */
  lemma ClaimsFinishOnce(steps: seq<Step>)
    requires Run(EMPTY, steps) && FreshTokens(After(EMPTY, steps).claims)
    ensures var s := After(EMPTY, steps);
            && (forall k | 0 <= k < |s.finishes| :: s.finishes[k] in s.claims)
            && (forall j, k | 0 <= j < k < |s.finishes| :: s.finishes[j] != s.finishes[k])
  {
    hide Run, After, Inv;
    StartInv();
    assert FinishesOk(EMPTY);
    FinishesOverRun(EMPTY, steps);
  }

  // ----- the attempt budget -----

  // The attempts that the rows of `ids` can ever make.
  function Slots(ids: set<ID>): set<(ID, nat)> {
    set id, n | id in ids && n in {1, 2, 3, 4, 5} :: (id, n)
  }

  function Own(id: ID): (r: set<(ID, nat)>)
    ensures |r| == 5
  {
    {(id, 1), (id, 2), (id, 3), (id, 4), (id, 5)}
  }

  lemma SlotsSplit(ids: set<ID>, id: ID)
    requires id in ids
    ensures Slots(ids) == Slots(ids - {id}) + Own(id) && Slots(ids - {id}) !! Own(id)
  {
    forall p | p in Slots(ids) ensures p in Slots(ids - {id}) + Own(id) {
      if p.0 != id { assert p.0 in ids - {id} && p.1 in {1, 2, 3, 4, 5}; }
    }
    forall p | p in Own(id) ensures p in Slots(ids) { assert p.0 in ids && p.1 in {1, 2, 3, 4, 5}; }
  }

  lemma {:induction false} SlotCount(ids: set<ID>)
    ensures |Slots(ids)| == 5 * |ids|
    decreases |ids|
  {
    if ids == {} {
      assert Slots(ids) == {};
    } else {
      var id :| id in ids;
      SlotCount(ids - {id});
      SlotsSplit(ids, id);
      hide Slots, Own;
      assert |Slots(ids)| == |Slots(ids - {id})| + |Own(id)|;
    }
  }

  function Taken(claims: seq<Lease>): (r: set<(ID, nat)>)
    ensures forall p | p in r :: exists k | 0 <= k < |claims| :: p == (claims[k].event.id, claims[k].attempt)
  {
    if claims == [] then {}
    else
      var r := Taken(claims[1..]) + {(claims[0].event.id, claims[0].attempt)};
      assert forall p | p in Taken(claims[1..]) ::
          exists k | 0 <= k < |claims| :: p == (claims[k].event.id, claims[k].attempt) by {
        forall p | p in Taken(claims[1..])
          ensures exists k | 0 <= k < |claims| :: p == (claims[k].event.id, claims[k].attempt)
        {
          var k :| 0 <= k < |claims[1..]| && p == (claims[1..][k].event.id, claims[1..][k].attempt);
          assert p == (claims[k + 1].event.id, claims[k + 1].attempt);
        }
      }
      r
  }

  lemma {:induction false} TakenCount(claims: seq<Lease>)
    requires forall j, k | 0 <= j < k < |claims| ::
               (claims[j].event.id, claims[j].attempt) != (claims[k].event.id, claims[k].attempt)
    ensures |Taken(claims)| == |claims|
  {
    if claims == [] {
    } else {
      TakenCount(claims[1..]);
      assert (claims[0].event.id, claims[0].attempt) !in Taken(claims[1..]);
    }
  }

  /** Attempts never exceed five; `dead` means exactly five; a pending row without a lease has fewer;
      no two claims of a row share an attempt number, so a run has at most five claims per row. */
  lemma AttemptBudget(steps: seq<Step>)
    requires Run(EMPTY, steps)
    ensures var s := After(EMPTY, steps);
            && (forall id | id in s.outbox ::
                  && s.outbox[id].attempts <= 5
                  && (s.outbox[id].state.Dead? ==> s.outbox[id].attempts == 5)
                  && (s.outbox[id].state.Pending? && s.outbox[id].lease.None? ==> s.outbox[id].attempts < 5))
            && (forall c | c in s.claims :: c.event.id in s.outbox && 1 <= c.attempt <= s.outbox[c.event.id].attempts)
            && |s.claims| <= 5 * |s.outbox|
  {
    hide Run, After, Stored, LetterOk, LeasesOk, EffectsOk, MailOk, StreamOk, SentOk, HandedOk, Sealed;
    var s := After(EMPTY, steps);
    Reached(steps);
    forall c | c in s.claims
      ensures ClaimOk(s.outbox, c) && (c.event.id, c.attempt) in Slots(s.outbox.Keys)
    {
      var k :| 0 <= k < |s.claims| && s.claims[k] == c;
      assert ClaimOk(s.outbox, s.claims[k]) && RowOk(s.outbox[c.event.id]);
    }
    TakenCount(s.claims);
    SlotCount(s.outbox.Keys);
    Within(Taken(s.claims), Slots(s.outbox.Keys));
  }

  lemma {:induction false} Within<T>(a: set<T>, b: set<T>)
    requires a <= b
    ensures |a| <= |b|
    decreases |a|
  {
    if a == {} {
    } else {
      var x :| x in a;
      Within(a - {x}, b - {x});
    }
  }

  // The leases of a row whose dispatcher has gone past publishing. Each publishes once.
  function Published(s: State, id: ID): set<Lease> {
    set l | l in s.leases && l.event.id == id && !s.leases[l].Held?
  }

  /** A dispatcher publishes a row at most once per attempt. */
  lemma PublishesWithinAttempts(steps: seq<Step>, id: ID)
    requires Run(EMPTY, steps) && id in After(EMPTY, steps).outbox
    ensures |Published(After(EMPTY, steps), id)| <= After(EMPTY, steps).outbox[id].attempts <= 5
  {
    hide Run, After, Stored, LetterOk, EffectsOk, MailOk, StreamOk, SentOk, HandedOk, Sealed, Holds;
    var s := After(EMPTY, steps);
    Reached(steps);
    assert RowOk(s.outbox[id]);
    forall a, b | a in Published(s, id) && b in Published(s, id) && a.attempt == b.attempt
      ensures a == b
    {
      assert a in s.claims && b in s.claims;
    }
    forall a | a in Published(s, id) ensures 1 <= a.attempt <= s.outbox[id].attempts {
      LeaseClaimed(s, a);
    }
    DistinctAttempts(Published(s, id), s.outbox[id].attempts);
  }

  lemma {:induction false} DistinctAttempts(leases: set<Lease>, n: nat)
    requires forall a | a in leases :: 1 <= a.attempt <= n
    requires forall a, b | a in leases && b in leases && a.attempt == b.attempt :: a == b
    ensures |leases| <= n
  {
    if n == 0 {
      assert leases == {};
    } else if x :| x in leases && x.attempt == n {
      DistinctAttempts(leases - {x}, n - 1);
    } else {
      DistinctAttempts(leases, n - 1);
    }
  }

  // ----- progress -----

  // When the times a row waits for have passed.
  predicate Due(r: OutRow, now: int) {
    r.availableAt <= now && (r.lease.Some? ==> r.lease.value.until <= now)
  }

  /** Nothing pending is stuck: once its times pass, a pending row is claimable while attempts are left,
      and the next claim buries it when they are not. A claim comes back empty only when no row that
      nobody has locked is claimable. */
  lemma PendingRowsProgress(steps: seq<Step>, step: Step, id: ID)
    requires Run(EMPTY, steps) && Enabled(After(EMPTY, steps), step) && step.Claim?
    requires var s := After(EMPTY, steps);
             && id in s.outbox && s.outbox[id].state.Pending? && Due(s.outbox[id], step.expireAt)
             && step.expireAt <= step.pickAt
    ensures var s := After(EMPTY, steps);
            var s' := Next(s, step);
            id in s'.outbox &&
            if s.outbox[id].attempts == 5 then s'.outbox[id].state.Dead?
            else
              && Claimable(s.outbox[id], step.pickAt)
              && (id !in step.locked ==>
                    && step.pick.Some? && step.pick.value in s.outbox && |s'.claims| == |s.claims| + 1
                    && s'.claims[|s.claims|].event.id == step.pick.value
                    && (step.pick.value == id
                        || var p := step.pick.value;
                           Before(s.outbox[p].availableAt, p, s.outbox[id].availableAt, id)))
  {
    hide Run, After, Stored, LetterOk, EffectsOk, MailOk, StreamOk, SentOk, HandedOk, Sealed, Holds, ClaimsOk, LeasesOk,
         Decode, Less, InsertMail, InsertOut, Consumed, SameJson;
    var s := After(EMPTY, steps);
    Reached(steps);
    assert RowOk(s.outbox[id]);
    if step.pick.Some? {
      PickedRow(s, step);
      ClaimedRow(s.outbox, step.expireAt, step.pickAt, step.leaseAt, step.token, step.pick.value);
      StoredIsSealed(step.pick.value, s.outbox[step.pick.value].envelope);
      hide Claimed;
    }
  }
}
