# Verified model of the durable event pipeline and its neighbours

This Dafny project models the parts of the repository whose promises span many
calls, and proves those promises for every input, every run or every
interleaving.

- **Durable events.** `Tables` has the outbox and mailbox rows and the statements
  of `Store` and `Mailbox`. `Pipeline` is one transition system over the two
  tables, the retained stream, the clients' leases and deliveries, and the logs of
  claims, finishes and committed effects; `Guarantees` has its whole-run theorems,
  and `Answers` says what each statement answers in the terms of its caller: who gets
  a row, who may finish it and until when, what is stored and what is refused.
  `Dispatch` runs `Store.dispatch` and `Broker.transfer` as sequences of awaited
  moves with everybody else's moves in between. `Transaction` is the interleaving
  machine of `Database.transaction`; `EndIsTruth` and `Tables.StatementsAreSteps`
  derive from it that a statement is one step of the pipeline that happened, did not
  happen, or happened without the caller hearing so. `Migrations` is a second client
  of the same transactions. `Envelope` is the normalizing codec that lets identity
  cross the stores, over the JSON trees of `Json`; `Content` says which envelopes count
  as the same, and `Printing` has the printed text behind the byte limits.
- **Identity and lineage.** `Identity` has the version-7 generator of sections 5.7
  and 6.2 of RFC 9562 and the order of its texts. `Provenance` has the two-phase
  validation and the factory; `Scopes` says exactly when each transition succeeds and
  what its scope carries; `Lineage` runs every transition in any order over one
  generator.
- **Logging.** `Fields` is the snapshot of a possibly cyclic object graph;
  `Delivery` is the bounded pump with its counters, fed by the emit closure.
- **Pages.** `Base64Url`, `Utf8` and `Pagination` are a concrete printer and parser
  for cursors, and a client that walks the pages.
- **Sockets.** `Socket` has one state machine per connection, and the server that
  admits, closes and drains them.

The program's mutable objects are classes (`V7`, `Factory`, `Database`, `Operation`,
`Runner`, `Parents`, `Delivery`, `Connection`, `Server`). Their methods are proved
equal to functions on values, and the theorems over runs are about those functions.
In `Delivery` the function is a log of what happened, so the counters and the queue
refine the log. `ghost` fields are history that the program does not keep.

The properties hold under these premises. A statement that locks a row is atomic.
Clocks, entropy, replies, the choice of the rows other sessions have locked, and
the moment of every callback are arbitrary. A COMMIT tag comes only from a commit,
and a ROLLBACK tag or an error reply to COMMIT only from a transaction that is gone.
The broker evicts nothing, its duplicate acknowledgement names a stored message with
the same id, and a consumer is given only stored, unacknowledged messages with
deliveries left. `handleUpgrade` of the ws library calls back before it returns,
if at all, and a socket's close event comes once.

Four promises hold only under a condition, and each has its exact condition here. The
contracts of the modules name the one on lease tokens.

- The part limits of a cursor (128 and 256 bytes, every quote and backslash escaped)
  allow 777 bytes of JSON, and `decode` accepts no wire of a text longer than 768
  bytes. `CursorRoundTrip` holds exactly when the text fits;
  `LongestCursorIsRefused` is an input that does not.
- Malformed hints refuse nothing, but a well-formed continued cause can: exactly when
  it names the work or the scope that it would cause, which are the supplied work id
  and the id minted for the scope. `HintsRefuseOnlyCircularCauses` is the equivalence
  over what `enter` and `open` return; `CircularCausesAreRefused` has an input of each
  kind.
- Fencing by lease needs tokens that are fresh for the row, which `claim` does not
  check. `FencingNeedsFreshTokens` is the equivalence, and `ReusedTokenBreaksFencing`
  a run in which a stale holder finishes a later claim.
- `sent` does not imply that a destination holds the event, because the public `ack`
  also marks rows that nobody published; `UnbackedAckLosesEvent` is such a run. Every
  sent row is held in every state of a run exactly when each successful ack has a
  receipt or is of an event that a destination already holds
  (`SentMeansHeldWhenBacked`), which a holder can check before it acknowledges;
  `dispatch` acknowledges only with a receipt (`DispatchersLoseNothing`).

`dafny verify dfyconfig.toml` checks the whole project with Dafny 4.11.

## Model

| member | source | states |
|---|---|---|
| Identity.PaddedHexIsFixed | src/shared/id/value.ts:34-36 | Padding the shortest hexadecimal form gives the fixed-width digits, for every number that fits the width. |
| Identity.ParsedIsValid | src/shared/id/value.ts:14-22 | What `parse` accepts it lower-cases to a text that parses to itself. |
| Identity.ParseAnswers | src/shared/id/value.ts:12-22 | A text is accepted exactly when it is five hyphenated groups of hexadecimal digits, 8-4-4-4-12, of the standard variant; the id is the same digits in lower case. |
| Identity.EncodedRoundTrip | src/shared/id/value.ts:23-41 | Every encoded id parses to itself, has version 7, and `unixMillis` returns its millisecond over the full 48 bits. |
| Identity.StampOrder | src/shared/id/value.ts:34-41 | Text order of encoded ids is the order of their (millisecond, counter) stamps, whatever the random suffix. |
| Identity.V7.constructor | src/shared/id/v7.ts:23-28 | A generator starts with no held millisecond. |
| Identity.V7.NewId | src/shared/id/v7.ts:29-65 | One call with its byte buffer filled in place: result and new state for every clock reading and entropy result; a refusal leaves the state alone. |
| Identity.MintAnswers | src/shared/id/v7.ts:29-65 | Exactly when a call fails and how; otherwise, read from the text: the later of the clock and the held millisecond, the next count or eleven bits of entropy, and the eight suffix bytes under the variant. |
| Identity.MintedAbove | src/shared/id/v7.ts:37-63 | Whatever a generator mints later is above every text its held stamp can have, rollback included. |
| Identity.RunIncreases | src/shared/id/v7.ts:29-65 | Over any clock and any entropy the successful texts strictly increase, so no two are equal. |
| Identity.RunParses | src/shared/id/v7.ts:29-65 | Each id of a run is a valid version-7 id whose millisecond the clock showed or the generator held. |
| Identity.FailuresLeaveNoTrace | src/shared/id/v7.ts:30-64 | Erasing the failed calls of a run changes neither its ids nor its final state. |
| Identity.Capacity | src/shared/id/v7.ts:37-63 | With the clock not advancing exactly 4096 minus the seed calls succeed, between 2049 and 4096, and every later one is exhausted. |
| Provenance.EmitComplete | src/shared/provenance/factory.ts:121-158 | After the checks that need no id, emission fails exactly for a malformed id or an id in an explicit finite set of collisions. |
| Provenance.InspectIncoming | src/shared/provenance/incoming.ts:34-65 | A hint is adopted exactly when it parses (a cause also needs an adopted correlation); each one not adopted leaves one issue, in order, with the reason that applies. |
| Scopes.OperationsAre | src/shared/provenance/operation.ts:5-6 | An operation is a lower-case letter and up to 127 lower-case letters, numerals, dots, colons, underscores and hyphens. |
| Scopes.AttributionsAre | src/shared/provenance/attribution.ts:16-40 | An attribution is refused exactly for an invalid identifier, or for acting on behalf of somebody without a named initiator, of nobody in particular, or of oneself. |
| Scopes.ValidWorkWhen | src/shared/provenance/work.ts:36-80 | A work is valid exactly when its parts are, its depth fits its cause and source, and neither its cause nor what it replays is itself. |
| Scopes.CodesAreTruthful | src/shared/provenance/work.ts:36-80 | The code of a refused work or draft names something that is wrong with it. |
| Scopes.EmitErrorsAreTruthful | src/shared/provenance/factory.ts:128-158 | So does the error of a scope that is not built. |
| Scopes.PlanErrorsAreTruthful | src/shared/provenance/factory.ts:70-106 | And the error of a root or a child that is refused before. |
| Scopes.OpenAnswers | src/shared/provenance/factory.ts:159-162 | Opening succeeds exactly on a spec that fits; the scope has the minted id, the time of the clock, and every field as asked, on a local chain of its own at depth zero. |
| Scopes.EnterAnswers | src/shared/provenance/factory.ts:209-221 | Entering succeeds exactly when opening does and the cause is elsewhere; continued, the scope carries the hinted correlation and cause from outside, without origin or depth; otherwise it is an opening. |
| Scopes.ReplayAnswers | src/shared/provenance/factory.ts:181-208 | Replaying succeeds exactly on a spec that fits and an id that is not its source; the scope names the run and the source on a local chain of its own. |
| Scopes.ChildAnswers | src/shared/provenance/factory.ts:163-169 | A child succeeds exactly on a spec that fits its parent and an id that is free; it keeps the chain, one hop deeper, caused by the parent unless another cause is named. |
| Scopes.PrepareAnswers | src/shared/provenance/factory.ts:107-115 | Prepared work is exactly such a hop, under the supplied work id. |
| Scopes.ExecuteAnswers | src/shared/provenance/factory.ts:170-174 | Executing succeeds exactly for a named executor at a possible attempt, and runs the given work. |
| Scopes.RetryAnswers | src/shared/provenance/factory.ts:175-180 | A retry succeeds exactly while attempts last; it runs the same work at the next attempt and names the attempt before. |
| Provenance.HintsRefuseOnlyCircularCauses | src/shared/provenance/factory.ts:209-221 | With the same generator, clock and entropy, entering succeeds exactly when opening does and a continued cause names neither the work nor the scope it would cause. |
| Provenance.CircularCausesAreRefused | src/shared/provenance/factory.ts:209-221 | A root that opens without hints, refused with a cause that is its supplied work id and with one that is the id about to be minted. |
| Provenance.Factory.EmitScope | src/shared/provenance/factory.ts:121-158 | The checks in their order; no id is spent before they pass; the generator moves as the emission says. |
| Provenance.Factory.Open | src/shared/provenance/factory.ts:159-162 | Opening emits the root draft. |
| Provenance.Factory.Child | src/shared/provenance/factory.ts:163-169 | A child is one hop deeper, may not take its parent's scope id, nor by default its work id. |
| Provenance.Factory.Execute | src/shared/provenance/factory.ts:170-174 | Execution emits the work as it is at the given attempt. |
| Provenance.Factory.Retry | src/shared/provenance/factory.ts:175-180 | A retry emits the same work at the next attempt after the previous scope. |
| Provenance.Factory.Replay | src/shared/provenance/factory.ts:181-208 | A replay opens a new chain that names its source and cannot be it. |
| Provenance.Factory.Enter | src/shared/provenance/factory.ts:209-221 | Entry adopts a continued correlation and cause and forgets origin and depth. |
| Lineage.AdvanceKeepsSound | src/shared/provenance/factory.ts:84-222 | Every transition keeps every scope and prepared work related to its chain, and ids ordered by creation. |
| Lineage.RunSound | src/shared/provenance/factory.ts:107-222 | So it is after any sequence of transitions, clocks and entropy. |
| Lineage.RunTraced | src/shared/provenance/factory.ts:70-222 | Every scope of a run carries what its move asked for, of the scopes and works before it, at the time its move's clock showed, and so does every prepared work; every work id was chosen by a caller or is the id of a scope of the run. |
| Lineage.ChainsAreConstant | src/shared/provenance/factory.ts:84-115 | Along a chain correlation, attribution, origin and replay never change, and are what the root's move asked for, or the root's own id; depth counts the hops, and is unknown, under the hinted correlation, exactly when the root was entered with a continued hint. |
| Lineage.RetriesAreConsecutive | src/shared/provenance/factory.ts:175-180 | A scope with a previous attempt has its work, the next number, and a larger id. |
| Lineage.EdgesDescend | src/shared/provenance/factory.ts:99-103 | Default-cause and previous-attempt edges go to a strictly smaller id text. |
| Lineage.LineageIsAcyclic | src/shared/provenance/factory.ts:84-180 | No walk over those edges, of any length, returns to its start. |
| Lineage.OwnScopesNeverCollide | src/shared/provenance/factory.ts:163-169 | With one generator a defaulted child is refused exactly when its new id is a work id of its chain, and then a caller of the run supplied that id; it is never the id of a scope of the run. |
| Json.StringifyTwice | src/shared/events/index.ts:173-175 | Printing what was printed and parsed gives the same bytes. |
| Json.SameJsonIsSame | src/shared/events/postgres/store.ts:28-38 | Two printed texts are the same JSON exactly when scalars are equal, arrays are item by item, and objects have the same keys with the same values in whatever order. |
| Printing.LengthIsPrinted | src/shared/events/index.ts:173-177 | The length that an envelope is held to is the number of UTF-8 bytes of the text printed for it. |
| Printing.PrintOfWire | src/shared/events/index.ts:173-175 | What is parsed from a printed value prints the same text again. |
| Envelope.RefRoundTrip | src/shared/events/index.ts:42-49 | Reading back a written reference is the identity. |
| Envelope.AttributionRoundTrip | src/shared/events/index.ts:73-79 | Reading back a written attribution is the identity. |
| Envelope.WorkRoundTrip | src/shared/events/index.ts:50-111 | `workIn` after `workOut` is the identity on every valid work, through printing and parsing. |
| Envelope.NormalizationIsFixed | src/shared/events/index.ts:149-182 | An accepted envelope decodes from its own bytes to itself: same id, work and bytes. |
| Envelope.CreateKeepsWork | src/shared/events/index.ts:125-148 | Creation succeeds exactly within the documented bounds and keeps the producer's work and id. |
| Content.CreateKeepsContent | src/shared/events/index.ts:125-148 | A created envelope carries the type, the time and the payload that it was given. |
| Content.DecodeKeepsContent | src/shared/events/index.ts:149-182 | A decoded envelope keeps type, time and payload, and its work and id are those of the input. |
| Content.DecodeIsStrict | src/shared/events/index.ts:149-172 | What decodes is within 65,536 bytes and has the six fields and no other, version 1, a type name, a payload object and an integer time in range. |
| Content.WorkInIsStrict | src/shared/events/index.ts:50-91 | A work that is read has none but its known fields, its attribution too. |
| Content.WorkNames | src/shared/events/index.ts:92-111 | Each part of a written work is found under its name. |
| Content.TypeNames | src/shared/events/index.ts:163-163 | A type name is exactly a base of 1 to 120 of its characters, `.v`, and a version of 1 to 6 digits that does not begin with zero, 128 characters at most. |
| Content.SameEvents | src/shared/events/postgres/store.ts:31-31 | Two sealed envelopes under one id are equal JSON exactly when type, time, work and payload are the same. |
| Content.SomeEnvelope | src/shared/events/index.ts:125-182 | There is an envelope that decodes from its own bytes to itself. |
| Transaction.StepKeepsSound | src/shared/postgres/index.ts:133-204 | Every event keeps the flags, the raced promises and the server's fate consistent; an outcome once settled stays. |
| Transaction.Truth | src/shared/postgres/index.ts:108-204 | `ok` is an acknowledged COMMIT; an error other than commit_uncertain means nothing is committed then or later; one COMMIT at most; one release by the time of settling, and for reuse only without an open transaction. |
| Transaction.EventsAnswer | src/shared/postgres/index.ts:133-204 | The answer that each event gives a call not yet settled, and that no other event settles it: a COMMIT tag the callback's value, a ROLLBACK tag to COMMIT database.failed, an answered ROLLBACK the refusal, a lost COMMIT commit_uncertain, an error its class, the timer and the abort theirs. |
| Transaction.ClientIsReused | src/shared/postgres/index.ts:135-197 | While a call is not settled its client is leased; an answered ROLLBACK or COMMIT gives it back for reuse, and every failure, the timer and the abort destroy it. |
| Transaction.AcknowledgedIsOk | src/shared/postgres/index.ts:181-199 | In every run a COMMIT tag that arrives before anything settled makes the call return the callback's ok. |
| Transaction.ErrorClasses | src/shared/postgres/index.ts:37-52 | The failure that each kind of error is mapped to; none is commit_uncertain. |
| Transaction.EndIsTruth | src/shared/postgres/index.ts:108-204 | By the end of a settled call its writes are kept exactly when committed for good; an acknowledged call returns the callback's value; only an accepting callback is ever committed. |
| Transaction.StopSettles | src/shared/postgres/index.ts:147-167 | The budget timer and the caller's abort settle the call wherever the operation is suspended. |
| Transaction.UncertainMeansEither | src/shared/postgres/index.ts:53-55 | Behind the same commit_uncertain a run has committed and another has not. |
| Transaction.Operation.constructor | src/shared/postgres/index.ts:133-173 | A leased client's state, an abort during the lease included. |
| Transaction.Operation.ReleaseClient | src/shared/postgres/index.ts:135-141 | The first release counts and decides between reuse and destruction. |
| Transaction.Operation.OnStop | src/shared/postgres/index.ts:147-161 | Stopping aborts, destroys the client and answers by whether COMMIT was sent. |
| Transaction.Operation.Finish | src/shared/postgres/index.ts:191-199 | The catch and finally clauses and the race, for a returned or thrown end. |
| Transaction.Operation.OnBegin | src/shared/postgres/index.ts:174-175 | The callback runs once BEGIN is answered. |
| Transaction.Operation.OnCallback | src/shared/postgres/index.ts:176-182 | A stopped operation ends, a refusal rolls back, a value sends COMMIT. |
| Transaction.Operation.OnCallbackThrows | src/shared/postgres/index.ts:191-193 | A throwing callback is classified and its client destroyed. |
| Transaction.Operation.OnRollback | src/shared/postgres/index.ts:178-179 | The refusal is the answer once ROLLBACK is answered. |
| Transaction.Operation.OnCommit | src/shared/postgres/index.ts:183-190 | Only a COMMIT tag makes the value the answer. |
| Transaction.Operation.OnCommitThrows | src/shared/postgres/index.ts:191-193 | A lost COMMIT is uncertain; the server's own error is not. |
| Migrations.InsertAtEnd | src/shared/postgres/index.ts:258-262 | A row with a higher version goes behind all rows read in version order. |
| Migrations.Validate | src/shared/postgres/index.ts:231-237 | The loop accepts exactly the lists of positive, strictly increasing safe versions with scripts. |
| Migrations.Runner.Apply | src/shared/postgres/index.ts:244-264 | Drift exactly when the ledger disagrees or is longer; otherwise the missing scripts run in order and the ledger becomes the list. |
| Migrations.Runner.Migrate | src/shared/postgres/index.ts:228-267 | The store and the answer of one call under every way its transaction can end; one that is closed, stopped or cut off before COMMIT answers with its own error. |
| Migrations.CallKeeps | src/shared/postgres/index.ts:228-267 | A call only appends; it succeeds exactly when an agreeing list has all its scripts run and COMMIT acknowledged, and then the ledger equals the list; it is drift exactly when the list disagrees and the transaction itself is not refused; drift, invalid lists and refused transactions change nothing. |
| Migrations.CallAnswers | src/shared/postgres/index.ts:228-267 | The answer and the store of every call, by the list, the ledger, the first failing script and the end of the transaction, in that order of precedence. |
| Migrations.LedgerOnlyGrows | src/shared/postgres/index.ts:228-267 | Over any sequence of calls the ledger grows by appending, and the committed scripts are its rows', in order, once each. |
| Migrations.SuccessIsForEver | src/shared/postgres/index.ts:244-264 | A list that succeeded stays a prefix of the ledger; lists that do not extend it drift for ever, or get the transaction's own error; extensions run only what is new. |
| Tables.DecodedIsSealed | src/shared/events/postgres/store.ts:58-61 | Stored bytes of a decoded envelope decode to the same envelope. |
| Tables.StatementsAreSteps | src/shared/events/postgres/store.ts:47-85 | For every interleaving of its transaction and every result of its callback, a statement's reply and effect are those of one step; a refusing one commits nothing and is answered with its refusal or another error that is not commit_uncertain. |
| Tables.Candidate | src/shared/events/postgres/store.ts:52-56 | The scan finds the least (available_at, event_id) claimable row that nobody has locked, or none exactly when there is none. |
| Tables.Letter | src/shared/events/postgres/store.ts:143-147 | The same for consumable mailbox rows. |
| Tables.Database.constructor | src/shared/events/postgres/migrations/0001_events.sql:1-18 | Empty tables. |
| Tables.Database.Enqueue | src/shared/events/postgres/store.ts:22-40 | A new id is stored, equal JSON under a known id changes nothing, other JSON is refused; nothing changes unless committed. |
| Tables.Database.Claim | src/shared/events/postgres/store.ts:44-63 | A malformed token is refused before anything is sent; otherwise overdue fifth attempts die, the candidate is leased for thirty seconds with one more attempt, its envelope decoded, under every end of the transaction. |
| Tables.Database.Finish | src/shared/events/postgres/store.ts:70-86 | Only the holder of an unexpired lease on a pending row finishes it; failure leaves it pending or, at five attempts, dead. |
| Tables.Database.Deliver | src/shared/events/postgres/store.ts:124-133 | Publication into the mailbox is the same insert. |
| Tables.Database.Consume | src/shared/events/postgres/store.ts:134-175 | An accepted letter commits its effects with its state; a refused one commits only its bookkeeping. |
| Pipeline.PublishKeepsInv | src/shared/events/jetstream/broker.ts:214-256 | Publishing into either destination keeps the invariant; a receipt means that the destination holds the event with equal JSON, duplicates included. |
| Pipeline.HandKeepsInv | src/shared/events/jetstream/broker.ts:257-279 | A delivery is handed only when the mailbox holds its content. |
| Pipeline.ConsumeKeepsInv | src/shared/events/postgres/store.ts:134-175 | Effects join the log exactly when a letter becomes processed. |
| Pipeline.ClaimKeepsInv | src/shared/events/postgres/store.ts:44-63 | Attempt numbers of a row's claims rise one by one, and the live lease is the last claim. |
| Pipeline.FinishKeepsInv | src/shared/events/postgres/store.ts:64-86 | Finishing moves one row and keeps `sent` backed by a receipt. |
| Pipeline.EnqueueKeepsInv | src/shared/events/postgres/store.ts:22-40 | Enqueueing adds at most one fresh row. |
| Pipeline.NextKeepsInv | src/shared/events/postgres/store.ts:22-175 | Every step of every client keeps the invariant; envelopes never change, finished rows are absorbing, logs only grow. |
| Pipeline.RunKeepsInv | src/shared/events/postgres/store.ts:22-175 | So does every run. |
| Guarantees.EffectsAtMostOnce | src/shared/events/postgres/store.ts:134-175 | Effects of an id are committed at most once, exactly when its letter is processed, and republication never reopens it. |
| Guarantees.ConsumeIsAtomic | src/shared/events/postgres/store.ts:142-174 | A consume changes one letter; its effects are there exactly if the callback accepted. |
| Guarantees.NothingAcknowledgedIsLost | src/shared/events/postgres/store.ts:87-120 | A row marked sent on a receipt is held with equal JSON by that destination, an acknowledged message by the mailbox, both for ever. |
| Guarantees.AckKeepsSentHeld | src/shared/events/postgres/store.ts:64-86 | A step keeps every sent row held exactly when it is no successful ack, or one with a receipt or of an event that a destination already holds. |
| Guarantees.SentMeansHeldWhenBacked | src/shared/events/postgres/store.ts:64-120 | Every sent row is held in every state of a run exactly when all its successful acks are so backed. |
| Guarantees.DispatchersLoseNothing | src/shared/events/postgres/store.ts:87-120 | When every ack is made with a receipt, every sent row is held for ever where the receipt came from. |
| Guarantees.UnbackedAckLosesEvent | src/shared/events/postgres/store.ts:64-86 | Enqueue, claim and ack without publishing: a row is sent and no destination holds it. |
| Guarantees.ConflictsAreNotBothAcknowledged | src/shared/events/jetstream/broker.ts:231-253 | Of two contents under one id only those with equal JSON can both be acknowledged, even past the duplicate window. |
| Guarantees.DrainedMeansExactlyOnce | src/shared/events/jetstream/broker.ts:257-279 | With stream and mailbox drained, each event sent on a receipt has had its effects exactly once. |
| Guarantees.FencingNeedsFreshTokens | src/shared/events/postgres/store.ts:78-82 | While a lease lives, exactly the claims at the current attempt can finish the row, if and only if its token is new for the row. |
| Guarantees.StaleHoldersAreLockedOut | src/shared/events/postgres/store.ts:64-86 | With fresh tokens every older holder gets lease_lost for ever after a reclaim. |
| Guarantees.ReusedTokenBreaksFencing | src/shared/events/postgres/store.ts:44-86 | A run with a reused token in which the first holder can finish the second claim. |
| Guarantees.ClaimsFinishOnce | src/shared/events/postgres/store.ts:70-86 | With fresh tokens no claim is finished successfully twice, by any holder. |
| Guarantees.AttemptBudget | src/shared/events/postgres/store.ts:47-56 | Attempts stay within five, dead means five, an unleased pending row has fewer, and a run claims at most five times per row. |
| Guarantees.PublishesWithinAttempts | src/shared/events/postgres/store.ts:93-111 | Dispatchers publish a row at most once per attempt. |
| Guarantees.PendingRowsProgress | src/shared/events/postgres/store.ts:47-56 | Once its times pass a pending row is claimable or is buried by the next claim; a claim is empty only when nothing unlocked is claimable. |
| Answers.EnqueueAnswers | src/shared/events/postgres/store.ts:22-40 | A new id is stored, pending and due at once; a known one keeps its row, refused exactly when type, time, work or payload differ. |
| Answers.DeliverAnswers | src/shared/events/postgres/store.ts:124-133 | The same for the mailbox. |
| Answers.ConflictIsRefused | src/shared/events/postgres/store.ts:28-38 | Two envelopes under one id, of which the second is refused where the first is stored, and the first may come again. |
| Answers.MailReceipts | src/shared/events/postgres/store.ts:124-133 | A heard publication gets its receipt exactly when the mailbox did not know the id or holds the same content. |
| Answers.StreamReceipts | src/shared/events/jetstream/broker.ts:214-256 | A heard publication gets its receipt exactly when the message is new or a duplicate with the same content. |
| Answers.LiveLeaseIsExclusive | src/shared/events/postgres/store.ts:47-55 | No claim takes or buries a row before its lease ends. |
| Answers.OnlyTheHolderChangesIt | src/shared/events/postgres/store.ts:44-86 | In every run, until a lease ends only a finish with its token changes the row. |
| Answers.FinishAnswers | src/shared/events/postgres/store.ts:70-86 | In every run with fresh tokens a claim finishes its row exactly while it is the latest and its lease lives; the row is then sent, pending again after 100 ms, or dead after five attempts. |
| Answers.LeaseLastsThirtySeconds | src/shared/events/postgres/store.ts:53-81 | A claim can finish its row until thirty seconds after it was made, and gets lease_lost in every later state from then on. |
| Answers.DueRowsAreServed | src/shared/events/postgres/store.ts:52-56 | A claim takes a row whenever one is due and not locked, and none that was available later than it. |
| Answers.NothingIsServedEarly | src/shared/events/postgres/store.ts:52-147 | What a claim takes was pending, with attempts left, due and free of a living lease; what a consumer takes was waiting, with attempts left, and due. |
| Answers.OnlyOverdueRowsAreBuried | src/shared/events/postgres/store.ts:47-50 | A claim buries only pending rows at five attempts without a live lease. |
| Answers.DueLettersAreServed | src/shared/events/postgres/store.ts:142-170 | A consumer gets a letter whenever one is due and not locked, and none that was available later; accepted it is processed, refused it waits 100 ms or is spent on its fifth attempt. |
| Answers.DeliveriesAreBounded | src/shared/events/jetstream/broker.ts:183-192 | A message is delivered at most five times in any run, and not again once it is acknowledged. |
| Dispatch.World.Claim | src/shared/events/postgres/store.ts:44-63 | A claim among other clients, with its three clock readings: a heard one is empty exactly when nothing unlocked was claimable, and otherwise holds its row for thirty seconds; a refused token or a failed transaction changes nothing, an unheard claim leaves no usable lease. |
| Dispatch.World.Publish | src/shared/events/postgres/store.ts:97-103 | A publisher of either kind, a throwing one or one with a bad receipt: there is a receipt exactly when the destination did not know the id, or knows it with the same content, and the answer is heard. |
| Dispatch.World.Settle | src/shared/events/postgres/store.ts:103-111 | Acknowledge on a receipt, release otherwise: the row is sent, or pending or dead without a lease; lease_lost exactly when the claim no longer owns it. |
| Dispatch.World.Dispatch | src/shared/events/postgres/store.ts:87-120 | Of the claim that this call made: `true` means that its row is sent and the destination holds the event; a failed publication releases the row; lease_lost means that the claim no longer owns it. `false` means that nothing was claimable. When nobody else moves and every reply is heard, the answer is `false` exactly when nothing is claimable, lease_lost from thirty seconds after the claim, and otherwise `true` exactly when the destination agrees. |
| Dispatch.World.Transfer | src/shared/events/jetstream/broker.ts:257-279 | Of the message the consumer is given: `true` means that it is acknowledged, `false` that none was delivered and nothing changed; an acknowledgement may not arrive or go unheard; whatever the answer, the mailbox holds what is acknowledged. When nobody else moves it is acknowledged exactly when the mailbox agrees and both replies come through. |
| Fields.CopyCorrect | src/shared/logger/fields.ts:5-42 | A snapshot succeeds exactly when no walk over visited edges meets something unsupported or an object again; it is then the one finite unfolding with secrets replaced, shared objects allowed. |
| Fields.VisibleAt | src/shared/logger/fields.ts:31-37 | Exactly the enumerable properties are visited and kept, in their order. |
| Fields.FailureWalk | src/shared/logger/fields.ts:10-41 | Every refusal is explained by such a walk. |
| Fields.OneUnfolding | src/shared/logger/fields.ts:5-42 | A value has at most one finite unfolding. |
| Fields.SecretsDoNotShow | src/shared/logger/fields.ts:9-9 | What secrets hold changes neither the snapshot nor whether there is one. |
| Fields.Parents.Snapshot | src/shared/logger/fields.ts:5-42 | The program with its one mutable set terminates, computes the copy, and restores the set on every exit. |
| Fields.Parents.SnapshotObject | src/shared/logger/fields.ts:14-38 | The loops over array slots and enumerable properties, refusing at the first that has no value. |
| Delivery.NextKeepsSound | src/shared/logger/delivery.ts:30-76 | One line in flight, a bounded queue, no idle pump with lines waiting, flushing exactly when closed and idle. |
| Delivery.Conservation | src/shared/logger/delivery.ts:30-65 | At most one line in flight and `capacity` waiting; every emission past the filter is accepted, dropped or encode-failed; the sink gets lines in acceptance order. |
| Delivery.EmissionAnswers | src/shared/logger/runtime.ts:267-303 | What becomes of an emission in any run: an encodable one is accepted exactly when it is within the length and at most `capacity` accepted lines have not settled; otherwise exactly one counter moves. |
| Delivery.Delivery.Balance | src/shared/logger/delivery.ts:16-23 | On the program's own counters: accepted is written plus failed at the sink plus queued plus in flight, and the queue is within its capacity. |
| Delivery.CleanCloseMeansWritten | src/shared/logger/delivery.ts:66-97 | A close without failures means that every line ever accepted was written; later emissions only count as dropped. |
| Delivery.CloseDrains | src/shared/logger/delivery.ts:43-80 | A closed delivery waits on one promise of the sink at a time, each one brings it nearer, and with none left it is flushed, once. |
| Delivery.Delivery.constructor | src/shared/logger/delivery.ts:15-29 | Counters at zero, an empty queue. |
| Delivery.Delivery.Write | src/shared/logger/delivery.ts:30-42 | Drop when closed, too long or full; otherwise queue, and start the pump if it is not running. |
| Delivery.Delivery.SinkSettles | src/shared/logger/delivery.ts:43-56 | The pump after one line: count it, take the next one, or stop and flush if closed. |
| Delivery.Delivery.FlushSettles | src/shared/logger/delivery.ts:57-65 | The end of the flush, counted if it failed. |
| Delivery.Delivery.Close | src/shared/logger/delivery.ts:66-76 | Closing takes effect once and starts the flush of an idle pump. |
| Delivery.Delivery.CloseResult | src/shared/logger/delivery.ts:77-97 | The answer is ok exactly when the wait ended without deadline and nothing had failed; then every accepted line is written and the queue is empty. |
| Delivery.Delivery.EmitRecord | src/shared/logger/runtime.ts:267-303 | Filter, closed, bad fields or time, failed snapshot or rendering, write: each emission is counted once. |
| Base64Url.RoundTrip | src/shared/pagination/index.ts:46-47 | Decoding undoes base64url (section 5 of RFC 4648). |
| Base64Url.Alphabet | src/shared/pagination/index.ts:41-41 | The sixty-four characters in the order of their values. |
| Base64Url.Spelling | src/shared/pagination/index.ts:32-32 | Four characters spell 24 bits, first byte leading; the last one or two bytes take two or three, padded with zero bits. |
| Utf8.RoundTrip | src/shared/pagination/index.ts:48-50 | A fatal UTF-8 decoder reads back every text of scalar values. |
| Utf8.FirstExactly | src/shared/pagination/index.ts:48-50 | A byte string begins with a scalar exactly when it begins with its encoding; overlong, truncated and out-of-range forms are refused. |
| Utf8.ScalarBits | src/shared/pagination/index.ts:32-32 | An encoding is the shortest of the four forms and carries the bits of its scalar. |
| Pagination.ParsePrinted | src/shared/pagination/index.ts:30-34 | Parsing (section 7 of RFC 8259) reads back the printed scope and position. |
| Pagination.PrintLength | src/shared/pagination/index.ts:30-34 | The printed text takes nine bytes, the parts, and one for every quote and backslash in them. |
| Pagination.EncodesWhen | src/shared/pagination/index.ts:14-35 | A cursor is made exactly of a scope of 1 to 128 bytes and a position of 1 to 256, without control characters. |
| Pagination.CursorRoundTrip | src/shared/pagination/index.ts:26-61 | A cursor decodes to its position exactly when its text has at most 768 bytes and the expected scope is its own. |
| Pagination.LongestCursorIsRefused | src/shared/pagination/index.ts:26-45 | Valid parts whose cursor no decoder accepts. |
| Pagination.AcceptedWires | src/shared/pagination/index.ts:36-61 | A wire is accepted exactly when it is the base64url spelling of bytes that mean a valid scope and position, and those bytes are unique. |
| Pagination.NearestIsOne | src/shared/pagination/index.ts:52-58 | A number in the text counts as version 1 exactly when no other double is nearer to it. |
| Pagination.NextPage | src/shared/pagination/index.ts:63-81 | What the page cut makes of the next read, and when a next cursor is refused. |
| Pagination.Read | src/shared/pagination/index.ts:36-61 | A client's read after a cursor returns the next rows, at most limit + 1, exactly when the cursor's row fits a cursor. |
| Pagination.Walk | src/shared/pagination/index.ts:26-81 | Following cursors ends after max(1, ceil(n / limit)) pages that make up the list, exactly when every page boundary fits a cursor. |
| Socket.ConnStep | src/shared/socket/ws/server.ts:76-167 | A handler starts only when none is pending and nothing is closing; nothing is sent once closing or aborted; session.close comes after the pending handler. |
| Socket.ConnAnswers | src/shared/socket/ws/server.ts:82-167 | What each event brings about, in both directions: which message starts the handler, which answer is sent, which code the peer is given first, what sets closing, aborts and terminates. |
| Socket.ExchangeIsAnswered | src/shared/socket/ws/server.ts:111-150 | On an open, idle connection a decodable message with an encodable answer gets it, through any heartbeats, and the connection is ready for the next one. |
| Socket.ClosedOnlyWaits | src/shared/socket/ws/server.ts:152-166 | A closed connection waits for nothing but its handler and its clean-up, and their steps bring it nearer. |
| Socket.StepKeepsSound | src/shared/socket/ws/server.ts:31-194 | Every event keeps at most 64 active sessions, and each call of close waiting for all that are active. |
| Socket.UpgradeAnswers | src/shared/socket/ws/server.ts:31-81 | 403 exactly unless one origin, the server's, and n2f.v1 are named; 503 exactly when closed or at 64 sessions; an admitted connection starts fresh. |
| Socket.CloseReaches | src/shared/socket/ws/server.ts:169-176 | Closing gives every session still open 1001, unless it has a reason already, and waits for exactly those. |
| Socket.BudgetReaches | src/shared/socket/ws/server.ts:178-185 | A spent budget terminates what its call waits for, aborts their handlers, and touches nothing else. |
| Socket.Lifetimes | src/shared/socket/ws/server.ts:57-168 | In every order of events at most one handler runs per connection, none starts once closing is set, and session.close runs once at most, with no handler left. |
| Socket.DrainedMeansEmpty | src/shared/socket/ws/server.ts:169-194 | When close can answer true, no admitted session is left and none is ever admitted again. |
| Socket.Connection.constructor | src/shared/socket/ws/server.ts:76-81 | The variables of an accepted connection. |
| Socket.Connection.OnMessage | src/shared/socket/ws/server.ts:93-112 | Ignore while closing, refuse a second message, binary data and bad text with their codes, otherwise start the handler. |
| Socket.Connection.OnHandlerReturns | src/shared/socket/ws/server.ts:119-134 | Nothing after abort or closing; a failure closes; a response is sent. |
| Socket.Connection.Catch | src/shared/socket/ws/server.ts:141-143 | A throwing handler and a failed send close the connection. |
| Socket.Connection.ClearPending | src/shared/socket/ws/server.ts:148-150 | The handler's promise is over. |
| Socket.Connection.OnHandlerDeadline | src/shared/socket/ws/server.ts:115-118 | The handler's deadline aborts and terminates. |
| Socket.Connection.OnHeartbeat | src/shared/socket/ws/server.ts:82-89 | A missed pong terminates. |
| Socket.Connection.OnClose | src/shared/socket/ws/server.ts:152-155 | The close event sets closing and aborts the handler. |
| Socket.Connection.Handle | src/shared/socket/ws/server.ts:82-167 | Every callback does what its event does to the connection's value. |
| Socket.Server.constructor | src/shared/socket/ws/server.ts:14-30 | No connection, open for upgrades. |
| Socket.Server.Upgrade | src/shared/socket/ws/server.ts:31-56 | The answer to an upgrade, by origin, protocol, closing and the number of active sessions. |
| Socket.Server.Accept | src/shared/socket/ws/server.ts:71-81 | An opened session is active. |
| Socket.Server.Callback | src/shared/socket/ws/server.ts:156-166 | A callback changes one connection; only the clean-up takes it out of the active set. |
| Socket.Server.Close | src/shared/socket/ws/server.ts:169-172 | Closing refuses new upgrades and asks every active connection to close. |
| Socket.Server.AllDone | src/shared/socket/ws/server.ts:175-175 | The promises a call of close waits for are settled exactly when every connection it waits for is cleaned up. |
| Socket.Server.SpendBudget | src/shared/socket/ws/server.ts:176-187 | A spent budget aborts and terminates what the call was waiting for. |

## Left out

- `JSON.parse` and `TextDecoder` on envelopes: bytes are a length and the JSON tree they parse to, and parsing undoes printing up to negative zero and overflowing numbers; `Printing` has the printed text, and only the cursor codec a concrete parser.
- Printing.LengthIsPrinted: asks that numbers other than integers print in ASCII, as they do; their digits are given, not computed.
- Lone surrogates in envelope strings: a Dafny `char` cannot hold one, so payloads that carry one are outside the model.
- Envelope.WorkRoundTrip: a depth of negative zero is read as 0; the program keeps the sign in memory, and prints 0.
- U+0000 in an envelope: PostgreSQL refuses it in text and in jsonb, which is a statement that does not commit.
- Numbers in jsonb: PostgreSQL compares them as decimals of any precision, and the model as JSON.parse reads them.
- Dispatch.World.Others: other clients are the steps of the transition system, of which the method's body takes none; its contract admits any number.
- Guarantees.PublishesWithinAttempts: publications by code that claims by hand and publishes more than once are not counted.
- The broker's duplicate window: whether a publish is a duplicate is arbitrary, as long as a duplicate names a stored message with the same id. Stream limits, redelivery timing and `provision` are constants or left out.
- Fairness: that somebody claims, transfers or consumes at all; progress is stated per row and per claim.
- Branding by WeakSet and freezing: values are of types that only the constructors' conditions admit.
- Class fields behind timers: deadlines, heartbeats and budgets are events that may come at any time.
- Fields.CopyCorrect: getters are not called because accessors are refused; proxies, symbol keys and the sign of zero are not part of this model.
- Transaction.Truth: starts with a leased client; the answers before that (closed, canceled, a failed connect), when nothing has been sent, the pool and `Database.close` are not part of this model.
- Bit operations are written as arithmetic on bytes and twelve-bit counters.
- Authentication, HTTP, configuration, telemetry, principals, the console and JSON formatters, and the application root: plumbing or members that are easy beside these.
