/** Store.dispatch and Broker.transfer as their callers run them: a sequence of awaited moves on the
    pipeline, with everybody else's moves in between and a lost reply or a refusal at every await. */
module Dispatch {
  import opened Wrappers
  import opened Identity
  import opened Json
  import opened Envelope
  import opened Tables
  import opened Pipeline
  import opened Content
  import opened Answers

  // What becomes of a transaction: its reply is heard, it is known to have failed, or the reply is lost.
  datatype Reply = Heard | Failed | Lost(committed: bool)

  // What may go wrong around one dispatch or transfer, and which stored message of the same id the broker
  // still remembers, if any. Everybody else moves in between only if `others` says so.
  datatype Faults = Faults(
    others: bool, claim: Reply, published: bool, settle: Reply, remembered: Option<nat>,
    handed: bool, ackArrives: bool, ackHeard: bool)

  datatype Trouble = Canceled | InvalidToken | Unsure | Unavailable | NotPublished | Conflict(why: Failure)

  ghost predicate Reaches(a: State, b: State) {
    exists steps: seq<Step> | Run(a, steps) :: After(a, steps) == b
  }

  lemma ReachesNext(a: State, b: State, step: Step)
    requires Reaches(a, b) && Enabled(b, step)
    ensures Reaches(a, Next(b, step))
  {
    hide Enabled, Next;
    var steps: seq<Step> :| Run(a, steps) && After(a, steps) == b;
    RunSnoc(a, steps, step);
    assert Run(a, steps + [step]);
  }

  lemma {:induction false} RunSnoc(a: State, steps: seq<Step>, step: Step)
    requires Run(a, steps) && Enabled(After(a, steps), step)
    ensures Run(a, steps + [step]) && After(a, steps + [step]) == Next(After(a, steps), step)
    decreases |steps|
  {
    hide Enabled, Next;
    if steps == [] {
      assert (steps + [step])[1..] == [];
      assert Run(Next(a, step), []);
    } else {
      RunSnoc(Next(a, steps[0]), steps[1..], step);
      assert (steps + [step])[1..] == steps[1..] + [step];
    }
  }

  lemma {:induction false} RunConcat(a: State, steps: seq<Step>, more: seq<Step>)
    requires Run(a, steps) && Run(After(a, steps), more)
    ensures Run(a, steps + more) && After(a, steps + more) == After(After(a, steps), more)
    decreases |more|
  {
    hide Enabled, Next;
    if more == [] {
      assert steps + more == steps;
    } else {
      RunSnoc(a, steps, more[0]);
      RunConcat(a, steps + [more[0]], more[1..]);
      assert steps + [more[0]] + more[1..] == steps + more;
    }
  }

  lemma ReachesTransitive(a: State, b: State, c: State)
    requires Reaches(a, b) && Reaches(b, c)
    ensures Reaches(a, c)
  {
    hide Enabled, Next;
    var x: seq<Step> :| Run(a, x) && After(a, x) == b;
    var y: seq<Step> :| Run(b, y) && After(b, y) == c;
    RunConcat(a, x, y);
    assert Run(a, x + y);
  }

  lemma ReachesSelf(a: State)
    ensures Reaches(a, a)
  {
    assert Run(a, []) && After(a, []) == a;
  }

  // Past the overdue rows, every row is locked by somebody else or not claimable.
  predicate NoneClaimable(s: State, locked: set<ID>, expireAt: int, pickAt: int) {
    var t := Expire(s.outbox, expireAt);
    forall id | id in t && id !in locked :: !Claimable(t[id], pickAt)
  }

  // A claim that found nothing: overdue rows are buried, and nothing else is there to claim.
  predicate NothingToClaim(before: State, after: State, locked: set<ID>, expireAt: int, pickAt: int) {
    after == before.(outbox := Expire(before.outbox, expireAt)) && NoneClaimable(before, locked, expireAt, pickAt)
  }

  // The broker's answer: the message that it remembers, if that has the event's id.
  function Remembered(s: State, id: ID, remembered: Option<nat>): Option<nat> {
    if remembered.Some? && remembered.value < |s.stream| && s.stream[remembered.value].id == id then remembered
    else None
  }

  // The destination does not know the id, or knows it with the same content.
  predicate Agrees(s: State, e: Event, to: Dest, remembered: Option<nat>) {
    match to
    case ToMailbox =>
      e.id in s.mailbox ==>
        Decode(s.mailbox[e.id].envelope).Some? && SameContent(Decode(s.mailbox[e.id].envelope).value, e)
    case ToStream =>
      var i := Remembered(s, e.id, remembered);
      i.Some? ==> Decode(s.stream[i.value].data).Some? && SameContent(Decode(s.stream[i.value].data).value, e)
  }

  // The first claim committed after a state.
  function NextClaim(before: State, after: State): Option<Lease> {
    if |before.claims| < |after.claims| then Some(after.claims[|before.claims|]) else None
  }

  // The row of a claim just made: still pending, locked under the claim's token for thirty seconds.
  predicate Latest(s: State, l: Lease, leaseAt: int) {
    && l.event.id in s.outbox && s.outbox[l.event.id].state.Pending?
    && s.outbox[l.event.id].lease == Some(Lock(Uuid(l.token), leaseAt + 30000))
  }

  // What one transfer of the i-th message comes to when nobody else moves.
  predicate Delivered(before: State, after: State, i: nat, f: Faults, r: Result<bool, Trouble>) {
    && i < |before.stream| && Decode(before.stream[i].data).Some?
    && var e := Decode(before.stream[i].data).value;
    && (i in after.acked <==>
          (i in before.handed || (f.handed && Agrees(before, e, ToMailbox, None))) && f.ackArrives)
    && r == (if i in after.acked && f.ackHeard then Ok(true) else Err(Unavailable))
  }

  // A released row: pending again, or dead after its fifth attempt.
  predicate LetGo(s: State, l: Lease) {
    && l in s.finishes && l.event.id in s.outbox
    && var r := s.outbox[l.event.id];
    r.lease.None? && r.state == if r.attempts >= MAX_ATTEMPTS then Dead else Pending
  }

  class World {
    var s: State

    constructor ()
      ensures s == EMPTY && Inv(s)
    {
      s := EMPTY;
      new;
      StartInv();
    }

    // Everybody else: any number of steps that do not use this dispatcher's own lease.
    method Others(mine: Option<Lease>, others: bool)
      requires Inv(s)
      modifies this
      ensures Inv(s) && Later(old(s), s) && Reaches(old(s), s)
      ensures mine.Some? && mine.value in old(s).leases ==>
                mine.value in s.leases && s.leases[mine.value] == old(s).leases[mine.value]
      ensures !others ==> s == old(s)
    {
      ReachesSelf(s);
      Unchanged(s);
    }

    method Move(step: Step)
      requires Inv(s) && Enabled(s, step)
      modifies this
      ensures s == Next(old(s), step) && Inv(s) && Later(old(s), s) && Reaches(old(s), s)
    {
      ReachesSelf(s);
      ReachesNext(s, s, step);
      NextKeepsInv(s, step);
      s := Next(s, step);
    }

    /** claim: a malformed token is refused; a heard reply carries a lease on a row, locked for thirty seconds,
        or says that there is none to claim; a failed one changes nothing; and after a lost one no lease is held. */
    method Claim(token: string, locked: set<ID>, expireAt: int, pickAt: int, leaseAt: int, reply: Reply)
      returns (r: Result<Option<Lease>, Trouble>)
      requires Inv(s)
      modifies this
      ensures Inv(s) && Later(old(s), s) && Reaches(old(s), s)
      ensures r.Ok? && r.value.Some? ==>
                var l := r.value.value;
                && l in s.leases && s.leases[l] == Held && s.claims == old(s).claims + [l]
                && l.token == token && Latest(s, l, leaseAt)
                && s.mailbox == old(s).mailbox && s.stream == old(s).stream
      ensures r == Ok(None) ==> NothingToClaim(old(s), s, locked, expireAt, pickAt)
      ensures r == Err(InvalidToken) <==> ParseId(token).None?
      ensures ParseId(token).Some? ==>
                && (r.Ok? <==> reply.Heard?)
                && (r == Ok(None) <==> reply.Heard? && NoneClaimable(old(s), locked, expireAt, pickAt))
                && (r == Err(Unavailable) <==> reply.Failed?) && (r == Err(Unsure) <==> reply.Lost?)
      ensures r == Err(InvalidToken) || r == Err(Unavailable) ==> s == old(s)
      ensures r == Err(Unsure) ==> s.leases == old(s).leases && |s.claims| <= |old(s).claims| + 1
    {
      hide Inv, Later, Reaches, Expire, Decode, IsCandidate, Claimed, ParseId, Uuid, Latest, NoneClaimable;
      ReachesSelf(s);
      Unchanged(s);
      if ParseId(token).None? { return Err(InvalidToken); }
      if reply.Failed? { return Err(Unavailable); }
      if reply == Lost(false) { return Err(Unsure); }
      var pick := Candidate(Expire(s.outbox, expireAt), locked, pickAt);
      var step := Step.Claim(token, locked, expireAt, pickAt, leaseAt, pick, reply.Heard?);
      ghost var before := s;
      if pick.Some? { ClaimFinds(s, step); } else { ClaimFindsNothing(s, step); }
      Move(step);
      if reply.Lost? { return Err(Unsure); }
      if pick.None? { return Ok(None); }
      assert s.claims == before.claims + [s.claims[|s.claims| - 1]];
      return Ok(Some(s.claims[|s.claims| - 1]));
    }

    /** The publisher of the dispatcher's choice; no destination stands for one that throws, is refused, or
        answers with a receipt that is not durable or names another event. There is a receipt exactly when
        the destination agrees and its answer is heard. */
    method Publish(l: Lease, to: Option<Dest>, now: int, remembered: Option<nat>, heard: bool)
      requires Inv(s) && l in s.leases && s.leases[l] == Held
      modifies this
      ensures Inv(s) && Later(old(s), s) && Reaches(old(s), s)
      ensures l in s.leases && (s.leases[l].NoReceipt? || s.leases[l].Receipted?)
      ensures s.leases[l].Receipted? ==> to == Some(s.leases[l].to)
      ensures s.leases[l].Receipted? <==> to.Some? && heard && Agrees(old(s), l.event, to.value, remembered)
      ensures s.outbox == old(s).outbox && s.claims == old(s).claims
      ensures s.mailbox == if to == Some(ToMailbox) && l.event.id !in old(s).mailbox
                           then old(s).mailbox[l.event.id := MailRow(l.event.bytes, Waiting, 0, now)]
                           else old(s).mailbox
      ensures s.stream == if to == Some(ToStream) && Remembered(old(s), l.event.id, remembered).None?
                          then old(s).stream + [Message(l.event.id, l.event.bytes)] else old(s).stream
    {
      hide Inv, Later, Reaches, InsertMail, InsertOut, StreamReceipt, Appended, Decode, SameJson, Claimed, Consumed,
           Finished, Expire, IsCandidate, IsLetter, Sealed, Finish, SameContent;
      match to {
        case None => Move(PublishNowhere(l));
        case Some(ToMailbox) =>
          MailReceipts(s, PublishMail(l, now, heard));
          MailOnly(s, PublishMail(l, now, heard));
          Move(PublishMail(l, now, heard));
        case Some(ToStream) =>
          var step := PublishStream(l, Remembered(s, l.event.id, remembered), heard);
          StreamReceipts(s, step);
          Move(step);
      }
    }

    /** Acknowledge or release: heard, it is done exactly when the lease owns its row, and lease_lost if not. */
    method Settle(l: Lease, now: int, reply: Reply) returns (r: Result<(), Trouble>)
      requires Inv(s) && l in s.leases && (s.leases[l].NoReceipt? || s.leases[l].Receipted?)
      modifies this
      ensures Inv(s) && Later(old(s), s) && Reaches(old(s), s)
      ensures r.Ok? && old(s).leases[l].Receipted? ==>
                && l in s.finishes && l.event.id in s.outbox && s.outbox[l.event.id].state.Sent?
                && l.event.id in s.via && s.via[l.event.id] == old(s).leases[l].to
      ensures r.Ok? && old(s).leases[l].NoReceipt? ==> LetGo(s, l)
      ensures r == match reply
                   case Failed => Err(Unavailable)
                   case Lost(_) => Err(Unsure)
                   case Heard => if Owns(old(s).outbox, l, now) then Ok(()) else Err(Conflict(LeaseLost))
      ensures r == Err(Unavailable) ==> s == old(s)
      ensures r == Err(Conflict(LeaseLost)) ==> s.outbox == old(s).outbox && !Owns(s.outbox, l, now)
      ensures s.claims == old(s).claims
    {
      hide Inv, Later, Reaches, Owns, Next, LetGo;
      ReachesSelf(s);
      Unchanged(s);
      if reply.Failed? { return Err(Unavailable); }
      if reply == Lost(false) { return Err(Unsure); }
      var success := s.leases[l].Receipted?;
      var step := if success then Ack(l, now) else Release(l, now);
      var answer := Finished(s.outbox, l, success, now);
      SettleStep(s, l, now);
      Move(step);
      if reply.Lost? { return Err(Unsure); }
      if answer.Err? { return Err(Conflict(answer.error)); }
      r := Ok(());
    }

    /** One dispatch, among any number of other clients: `true` means that the row it claimed is marked sent,
        and that the destination holds its event with equal JSON; `false`, that no row was claimable; an
        event that was not published is released; and lease_lost, that the claim no longer owns its row.
        The claim is its own: the first one after the call began. When nobody else moves and every reply is
        heard, the answer is exactly as told: `false` when none is claimable, lease_lost when it settles
        thirty seconds after the claim or later, and otherwise `true` exactly when the destination agrees. */
    method Dispatch(token: string, locked: set<ID>, to: Option<Dest>, aborted: bool,
                    expireAt: int, pickAt: int, leaseAt: int, publishAt: int, settleAt: int, f: Faults)
      returns (r: Result<bool, Trouble>)
      requires Inv(s)
      modifies this
      ensures Inv(s) && Later(old(s), s) && Reaches(old(s), s)
      ensures r == Err(Canceled) <==> aborted
      ensures aborted ==> s == old(s)
      ensures r == Ok(true) ==>
                && NextClaim(old(s), s).Some?
                && var l := NextClaim(old(s), s).value;
                && l.token == token && l in s.finishes && l.event.id in s.outbox && s.outbox[l.event.id].state.Sent?
                && s.outbox[l.event.id].envelope == l.event.bytes
                && to.Some? && Holds(s.mailbox, s.stream, to.value, l.event.id, l.event.bytes)
      ensures r == Ok(false) ==> NothingToClaim(old(s), s, locked, expireAt, pickAt)
      ensures r == Err(InvalidToken) <==> !aborted && ParseId(token).None?
      ensures r == Err(InvalidToken) ==> s == old(s)
      ensures r == Err(NotPublished) ==>
                && NextClaim(old(s), s).Some?
                && NextClaim(old(s), s).value.token == token && LetGo(s, NextClaim(old(s), s).value)
      ensures r.Err? && r.error.Conflict? ==>
                && r.error.why == LeaseLost && NextClaim(old(s), s).Some?
                && NextClaim(old(s), s).value.token == token && !Owns(s.outbox, NextClaim(old(s), s).value, settleAt)
      ensures !aborted && ParseId(token).Some? && f.claim.Heard? ==>
                (r == Ok(false) <==> NoneClaimable(old(s), locked, expireAt, pickAt))
      ensures !aborted && ParseId(token).Some? && Calm(f) && r != Ok(false) ==>
                && NextClaim(old(s), s).Some?
                && var e := NextClaim(old(s), s).value.event;
                r == if settleAt >= leaseAt + 30000 then Err(Conflict(LeaseLost))
                     else if to.Some? && Agrees(old(s), e, to.value, f.remembered) then Ok(true)
                     else Err(NotPublished)
    {
      hide Inv, Later, Reaches, Holds, Owns, LetGo, ParseId, NothingToClaim, NoneClaimable, Latest, Agrees;
      ReachesSelf(s);
      Unchanged(s);
      ghost var s0 := s;
      if aborted { return Err(Canceled); }
      var claimed := Claim(token, locked, expireAt, pickAt, leaseAt, f.claim);
      if claimed.Err? { return Err(claimed.error); }
      if claimed.value.None? { return Ok(false); }
      var l := claimed.value.value;
      ghost var s1 := s;
      r := Attempt(l, to, publishAt, settleAt, f);
      Chain(s0, s1, s);
      ClaimIsNext(s0, s1, s, l);
      LatestOwns(s1, l, leaseAt, settleAt);
      AgreesAlike(s0, s1, l.event, to, f.remembered);
    }

    // What follows a claim that was heard: publish, then acknowledge or release.
    method Attempt(l: Lease, to: Option<Dest>, publishAt: int, settleAt: int, f: Faults)
      returns (r: Result<bool, Trouble>)
      requires Inv(s) && l in s.leases && s.leases[l] == Held && l in s.claims
      modifies this
      ensures Inv(s) && Later(old(s), s) && Reaches(old(s), s)
      ensures r == Ok(true) ==>
                && l in s.finishes && l.event.id in s.outbox && s.outbox[l.event.id].state.Sent?
                && s.outbox[l.event.id].envelope == l.event.bytes
                && to.Some? && Holds(s.mailbox, s.stream, to.value, l.event.id, l.event.bytes)
      ensures r != Ok(false) && r != Err(InvalidToken) && r != Err(Canceled)
      ensures r == Err(NotPublished) ==> LetGo(s, l)
      ensures r.Err? && r.error.Conflict? ==> r.error.why == LeaseLost && !Owns(s.outbox, l, settleAt)
      ensures !f.others && f.published && f.settle.Heard? ==>
                r == if !Owns(old(s).outbox, l, settleAt) then Err(Conflict(LeaseLost))
                     else if to.Some? && Agrees(old(s), l.event, to.value, f.remembered) then Ok(true)
                     else Err(NotPublished)
    {
      hide Inv, Later, Reaches, Holds, Owns, LetGo, Agrees;
      ghost var s1 := s;
      Others(Some(l), f.others);
      ghost var s2 := s;
      Publish(l, to, publishAt, f.remembered, f.published);
      ghost var s3 := s;
      Chain(s1, s2, s3);
      var receipt := s.leases[l].Receipted?;
      Others(Some(l), f.others);
      ghost var s4 := s;
      Chain(s1, s3, s4);
      if receipt { ReceiptHolds(s, l); }
      ghost var to' := if receipt then s.leases[l].to else ToMailbox;
      var settled := Settle(l, settleAt, f.settle);
      Chain(s1, s4, s);
      ClaimStays(s1, s, l);
      if settled.Err? { return Err(settled.error); }
      if !receipt { return Err(NotPublished); }
      HoldsLater(s4, s, to', l);
      return Ok(true);
    }

    /** One transfer of what the consumer is given next, if anything: `true` means that this message is
        acknowledged to the stream; `false`, that none was delivered. Whatever the answer, the mailbox holds
        what is acknowledged. When nobody else moves, the message is acknowledged exactly when the mailbox
        agrees, its answer is heard and the acknowledgement arrives. */
    method Transfer(next: Option<nat>, now: int, f: Faults) returns (r: Result<bool, Trouble>)
      requires Inv(s) && (next.Some? ==> Enabled(s, Pull(next.value)))
      modifies this
      ensures Inv(s) && Later(old(s), s) && Reaches(old(s), s)
      ensures r == Ok(true) ==> next.Some? && next.value in s.acked
      ensures r == Ok(false) <==> next.None?
      ensures r == Ok(false) ==> s == old(s)
      ensures r.Err? ==> r == Err(Unavailable)
      ensures next.Some? && !f.others ==> Delivered(old(s), s, next.value, f, r)
      ensures forall i | i in s.acked ::
                i < |s.stream| && Holds(s.mailbox, s.stream, ToMailbox, s.stream[i].id, s.stream[i].data)
    {
      hide *;
      if next.None? {
        ReachesSelf(s);
        Unchanged(s);
        r := Ok(false);
      } else {
        r := Deliver(next.value, now, f);
      }
      forall i | i in s.acked { AckedHolds(s, i); }
    }

    method Deliver(i: nat, now: int, f: Faults) returns (r: Result<bool, Trouble>)
      requires Inv(s) && Enabled(s, Pull(i))
      modifies this
      ensures Inv(s) && Later(old(s), s) && Reaches(old(s), s)
      ensures r == Ok(true) ==> i in s.acked
      ensures r == Ok(true) || r == Err(Unavailable)
      ensures !f.others ==> Delivered(old(s), s, i, f, r)
    {
      hide Inv, Later, Reaches, Next, Agrees, Decode, Enabled;
      ghost var s0 := s;
      PullOnly(s, i);
      Move(Pull(i));
      ghost var s1 := s;
      Others(None, f.others);
      Chain(s0, s1, s);
      PulledStays(s1, s, i);
      ghost var s2 := s;
      var handed := HandOver(i, now, f.handed);
      Chain(s0, s2, s);
      AgreesAlike(s0, s2, Decode(s0.stream[i].data).value, Some(ToMailbox), None);
      if !handed { return Err(Unavailable); }
      ghost var s3 := s;
      r := Acknowledge(i, f);
      Chain(s0, s3, s);
    }

    // The sink's part.
    method HandOver(i: nat, now: int, heard: bool) returns (handed: bool)
      requires Inv(s) && i in s.pulls && i < |s.stream|
      modifies this
      ensures Inv(s) && Later(old(s), s) && Reaches(old(s), s)
      ensures handed <==> i in s.handed
      ensures i < |old(s).stream| && Decode(old(s).stream[i].data).Some?
      ensures i in s.handed <==>
              i in old(s).handed || (heard && Agrees(old(s), Decode(old(s).stream[i].data).value, ToMailbox, None))
      ensures s.acked == old(s).acked
    {
      hide Inv, Later, Reaches, Next, Agrees, Decode;
      HandAnswers(s, i, now, heard);
      Move(Hand(i, now, heard));
      handed := i in s.handed;
    }

    // The acknowledgement: it may not arrive, and its reply may be lost.
    method Acknowledge(i: nat, f: Faults) returns (r: Result<bool, Trouble>)
      requires Inv(s) && i in s.handed
      modifies this
      ensures Inv(s) && Later(old(s), s) && Reaches(old(s), s)
      ensures r == Ok(true) ==> i in s.acked
      ensures r == Ok(true) || r == Err(Unavailable)
      ensures !f.others ==> s.acked == if f.ackArrives then old(s).acked + {i} else old(s).acked
      ensures !f.others ==> r == if f.ackArrives && f.ackHeard then Ok(true) else Err(Unavailable)
    {
      hide Inv, Later, Reaches;
      ghost var s0 := s;
      Others(None, f.others);
      ghost var s1 := s;
      HandedStays(s0, s1, i);
      if !f.ackArrives { return Err(Unavailable); }
      Move(AckMessage(i));
      Chain(s0, s1, s);
      return if f.ackHeard then Ok(true) else Err(Unavailable);
    }
  }

  // Nobody else moves, and every reply is heard.
  predicate Calm(f: Faults) {
    !f.others && f.claim.Heard? && f.published && f.settle.Heard?
  }

  lemma Chain(a: State, b: State, c: State)
    requires Later(a, b) && Reaches(a, b) && Later(b, c) && Reaches(b, c)
    ensures Later(a, c) && Reaches(a, c)
  {
    LaterTransitive(a, b, c);
    ReachesTransitive(a, b, c);
  }

  lemma ClaimFinds(s: State, step: Step)
    requires Inv(s) && Enabled(s, step) && step.Claim? && step.pick.Some?
    ensures var s' := Next(s, step);
            && |s'.claims| == |s.claims| + 1 && s'.claims == s.claims + [s'.claims[|s.claims|]]
            && (!step.heard ==> s'.leases == s.leases)
            && var l := s'.claims[|s.claims|];
            && l.token == step.token && Latest(s', l, step.leaseAt)
            && (step.heard ==> l in s'.leases && s'.leases[l] == Held)
            && s'.mailbox == s.mailbox && s'.stream == s.stream
            && !NoneClaimable(s, step.locked, step.expireAt, step.pickAt)
  {
    hide Inv, Enabled, Decode, Expire, Claimed, Stored, Uuid, Claimable;
    PickedRow(s, step);
    ClaimedRow(s.outbox, step.expireAt, step.pickAt, step.leaseAt, step.token, step.pick.value);
    ClaimLocks(s, step);
    PickIsClaimable(s, step);
  }

  lemma PickIsClaimable(s: State, step: Step)
    requires Enabled(s, step) && step.Claim? && step.pick.Some?
    ensures !NoneClaimable(s, step.locked, step.expireAt, step.pickAt)
  {
    hide Expire, ParseId, Claimable;
  }

  lemma LatestOwns(s: State, l: Lease, leaseAt: int, now: int)
    ensures Latest(s, l, leaseAt) ==> (Owns(s.outbox, l, now) <==> now < leaseAt + 30000)
  {
    hide Uuid;
  }

  lemma AgreesAlike(a: State, b: State, e: Event, to: Option<Dest>, remembered: Option<nat>)
    ensures to.Some? && a.mailbox == b.mailbox && a.stream == b.stream ==>
              (Agrees(a, e, to.value, remembered) <==> Agrees(b, e, to.value, remembered))
  {
    hide Decode, SameContent;
  }

  // A publication to the mailbox leaves the other tables and the stream as they were.
  lemma MailOnly(s: State, step: Step)
    requires Enabled(s, step) && step.PublishMail?
    ensures var s' := Next(s, step); s'.outbox == s.outbox && s'.claims == s.claims && s'.stream == s.stream
  {
    hide InsertMail;
  }

  lemma PullOnly(s: State, i: nat)
    requires Enabled(s, Pull(i))
    ensures var s' := Next(s, Pull(i));
            && i in s'.pulls && i < |s'.stream| && s'.stream == s.stream && s'.mailbox == s.mailbox
            && s'.handed == s.handed && s'.acked == s.acked && i !in s.acked
  {
  }

  lemma PulledStays(a: State, b: State, i: nat)
    requires Later(a, b) && i in a.pulls && i < |a.stream|
    ensures i in b.pulls && i < |b.stream|
  {
    hide OutGrows, MailGrows;
  }

  lemma AgreesWhenStored(s: State, e: Event, now: int)
    requires Inv(s) && Sealed(e)
    ensures Agrees(s, e, ToMailbox, None) <==> InsertMail(s.mailbox, e, now).Ok?
  {
    StoresOk(s);
    hide Inv, Decode, SameContent, MailOk, OutOk, Sealed, InsertMail;
    DeliverAnswers(s.mailbox, e, now);
  }

  lemma HandStep(s: State, i: nat, now: int, heard: bool, e: Event)
    requires Enabled(s, Hand(i, now, heard)) && Decode(s.stream[i].data) == Some(e)
    ensures var s' := Next(s, Hand(i, now, heard));
            && s'.acked == s.acked
            && s'.handed == if heard && InsertMail(s.mailbox, e, now).Ok? then s.handed + {i} else s.handed
  {
    hide Decode, InsertMail, InsertOut, Claimed, Consumed, Finish, Appended, StreamReceipt, Expire;
  }

  lemma HandAnswers(s: State, i: nat, now: int, heard: bool)
    requires Inv(s) && i < |s.stream| && Enabled(s, Hand(i, now, heard))
    ensures Decode(s.stream[i].data).Some?
    ensures var e, s' := Decode(s.stream[i].data).value, Next(s, Hand(i, now, heard));
            && (i in s'.handed <==> i in s.handed || (heard && Agrees(s, e, ToMailbox, None)))
            && s'.acked == s.acked
  {
    hide *;
    StoresOk(s);
    var m := s.stream[i];
    assert Stored(m.id, m.data);
    StoredEvent(m.id, m.data);
    AgreesWhenStored(s, Decode(m.data).value, now);
    HandStep(s, i, now, heard, Decode(m.data).value);
  }

  lemma ClaimIsNext(a: State, b: State, c: State, l: Lease)
    requires b.claims == a.claims + [l] && Later(b, c)
    ensures NextClaim(a, c) == Some(l)
  {
    assert c.claims[|a.claims|] == b.claims[|a.claims|];
  }

  lemma ClaimFindsNothing(s: State, step: Step)
    requires Enabled(s, step) && step.Claim? && step.pick.None?
    ensures NothingToClaim(s, Next(s, step), step.locked, step.expireAt, step.pickAt)
    ensures NoneClaimable(s, step.locked, step.expireAt, step.pickAt)
    ensures Next(s, step).leases == s.leases && Next(s, step).claims == s.claims
  {
    hide Expire, ParseId;
  }

  lemma Settles(t: Outbox, l: Lease, success: bool, now: int)
    requires Finished(t, l, success, now).Ok?
    ensures var t' := Finished(t, l, success, now).value;
            && l.event.id in t' && t'[l.event.id].lease.None?
            && t'[l.event.id].state
               == if success then Sent else if t'[l.event.id].attempts >= MAX_ATTEMPTS then Dead else Pending
  {
  }

  lemma SettleStep(s: State, l: Lease, now: int)
    requires l in s.leases && (s.leases[l].NoReceipt? || s.leases[l].Receipted?)
    ensures var success := s.leases[l].Receipted?;
            var step := if success then Ack(l, now) else Release(l, now);
            && Enabled(s, step)
            && var s' := Next(s, step);
            && s'.claims == s.claims
            && (Finished(s.outbox, l, success, now).Ok? <==> Owns(s.outbox, l, now))
            && if Owns(s.outbox, l, now) then
                 && (success ==>
                       && l in s'.finishes && l.event.id in s'.outbox && s'.outbox[l.event.id].state.Sent?
                       && l.event.id in s'.via && s'.via[l.event.id] == s.leases[l].to)
                 && (!success ==> LetGo(s', l))
               else s'.outbox == s.outbox && Finished(s.outbox, l, success, now) == Err(LeaseLost)
  {
    hide Owns;
    var success := s.leases[l].Receipted?;
    if Finished(s.outbox, l, success, now).Ok? { Settles(s.outbox, l, success, now); }
  }

  lemma ClaimStays(a: State, b: State, l: Lease)
    requires Inv(b) && Later(a, b) && l in a.claims
    ensures l in b.claims && l.event.id in b.outbox && b.outbox[l.event.id].envelope == l.event.bytes
  {
    hide Holds, EffectsOk, Stored, RowOk, LetterOk, Sealed;
    var k :| 0 <= k < |a.claims| && a.claims[k] == l;
    assert b.claims[k] == l;
    assert ClaimOk(b.outbox, b.claims[k]);
  }

  lemma ReceiptHolds(s: State, l: Lease)
    requires Inv(s) && l in s.leases && s.leases[l].Receipted?
    ensures Holds(s.mailbox, s.stream, s.leases[l].to, l.event.id, l.event.bytes)
  {
    hide Holds, EffectsOk, Stored, RowOk, LetterOk, ClaimsOk;
  }

  lemma HoldsLater(a: State, b: State, d: Dest, l: Lease)
    requires Later(a, b) && Holds(a.mailbox, a.stream, d, l.event.id, l.event.bytes)
    ensures Holds(b.mailbox, b.stream, d, l.event.id, l.event.bytes)
  {
    HoldsStays(a, b, d, l.event.id, l.event.bytes);
  }

  lemma HandedStays(a: State, b: State, i: nat)
    requires Later(a, b) && i in a.handed
    ensures i in b.handed
  {
  }

  lemma AckedHolds(s: State, i: nat)
    requires Inv(s) && i in s.acked
    ensures i < |s.stream| && Holds(s.mailbox, s.stream, ToMailbox, s.stream[i].id, s.stream[i].data)
  {
    hide Holds, EffectsOk, Stored, RowOk, LetterOk, ClaimsOk;
  }
}
