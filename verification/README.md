# A verified model of the evidence-handling core

AI Secure watches metadata from gateways, identity providers and file servers, reports
findings, and lets operators send approved text or carry out approved changes. This
project models the parts on which its promises rest and proves those promises:

| files | what they model |
|---|---|
| `Journal.dfy`, `Dispatch*.dfy`, `Gateway.dfy` | the authenticated journal with its receipts, and the protocol *reserve, dispatch, finish* run by any number of interleaved senders that may crash or see the store reopened |
| `Approvals.dfy` | the dual approval a response needs before it may enter that protocol |
| `EventIndex.dfy` | the collector's event repository: an index table beside the authoritative journal |
| `AuditChain.dfy`, `Proposals.dfy`, `ProposalSafety.dfy`, `ProposalSteps.dfy` | the audit chain with external checkpoints, and the life of a response proposal, with the responder called between two transactions |
| `Snapshots.dfy` | the normalized snapshot, which the boundary check returns and the rules read |
| `Names.dfy`, `Importer.dfy`, `Conservation.dfy`, `Accounting.dfy`, `SourceOrder.dfy`, `ImportOrigins.dfy`, `Listing.dfy`, `Normalizer.dfy`, `Canonical.dfy`, `Acceptance.dfy`, `Boundary.dfy`, `CollidingRows.dfy` | import of logs into a snapshot, the boundary check `normalize`, and what the two guarantee together |
| `Window.dfy`, `Engine.dfy`, `EngineRules.dfy`, `Sweep.dfy`, `SweepCounts.dfy`, `LargeSuites.dfy` | the detection rules, the sliding window behind AS-003, and the search for thresholds |
| `Analytics.dfy`, `AnalyticsSafety.dfy`, `CaseRules.dfy` | multi-source analysis, its rules told by the observations, and its monotonicity |
| `Ordering.dfy` | options, results, filters and the (time, identifier) order |

Code that changes things step by step is a class or a method with loops, proved equal to
a function of its inputs or its old state; the theorems are about those functions, and for
each one some of them say what it does in the terms of its inputs alone, without it.
Protocols are transition systems: a run is any list of steps, and a step that is not
enabled does nothing.

## Assumptions

- A MAC of the journal or of the audit chain is a datatype constructor: injective in
  sequence number, time, payload and previous MAC, with `Forged` values for anything not
  made with the key. Signatures are a boolean of the label, two approvals a boolean of the
  plan. Encryption is the identity, except that a journal row remembers the sequence number
  it was sealed for.
- SHA-256 is a parameter. What is needed of it is said as a hypothesis about the values of
  one import (`HashesApart`, `Apart`), never about all texts, so that the hypotheses can
  be met by a hash of fixed length.
- A database transaction is one atomic step; so are one transport call, one label check
  and one read of a provider's state. Clocks never run backwards.
- Times are whole seconds. Values that cannot be read are `Null`.

## Where the code and its documentation part

- A label is dispatched at most once as long as reservations follow the label check within
  86,086 s, and an approved plan is applied at most once as long as they follow the check of
  its approvals within 86,101 s. Both bounds are exact: one second more, and a run uses one
  permit twice (`PermitBoundExact`, `LatePermitUsedTwice`).
- Room for results is reserved ahead, but `append` looks at the row count alone. A step keeps
  the reserved room if and only if it is harmless (`StepBudget`): a plain append must find
  no row free at all or one more than is committed, and neither pruning nor anything else
  may drop the pending receipt of a sender still at work. Both harms occur
  (`AppendTakesReservedRoom`, `PrunedReceiptTakesReservedRoom`).
- Index rows of the collector's events may be lost without harm, except when the journal
  already holds as many events as the limit and a new event arrives: then one event too
  many is recorded, and nothing can be read until the journal is cut (`IndexIsOnlyACache`,
  `LossAtCapacityBlocksReading`, `OverrunHappens`).
- `slug` is said never to let a name with a colon pass unchanged. It would for exactly the
  names of 76 or 77 characters that consist of 59 or 60 kept characters, begun by a letter
  or digit and not ended by a dash, a colon and the name's own hash (`UnchangedExactly`).
  Whether SHA-256 has such a name is not known; for any such text some hash value makes it
  one (`SpelledHashPasses`).
- One inventory row dated beyond the horizon replaces every other row of its asset before
  it is dropped, so the asset's data is lost (`AssetSurvivesExactly`).
- Rows beyond the horizon are all charged to the last source, whose counter is clamped at
  zero; `RowsAddUp` says exactly when the totals still add up.
- The evaluation report counts missed detections among behavioural rules only. A scenario
  that expects a hygiene rule, or a rule that does not exist, can never miss it
  (`NoneMissed`).
- "Full recall" is recall rounded to four places: from 20,001 expected detections on, a
  recommended threshold may miss one (`FullRecallExact`; `LargeSuiteHidesMiss`, on a
  document that the boundary check accepts).
- AS-004 looks at one login before the reads only, the first listed among the latest. One
  more login silences it exactly when it becomes that one and is not both suspicious and
  over an exposed, unpatched gateway (`SnapshotSilencedExactly`): also a suspicious login over
  another gateway, or a benign one of the same second listed earlier.
- One observation of an actor whose baseline reaches into the last day makes the whole
  analysis fail (`LateBaselineExactly`); adding evidence never silences a case otherwise.

## Model

| member | source | states |
|---|---|---|
| Journal.Evidence.Verify | aisecure/gateway.py:167-176 | the loop over the rows succeeds exactly when numbers are contiguous above the anchor and every row's MAC is the genuine one over its predecessor's, and then returns the head |
| Journal.Evidence.AppendRow | aisecure/gateway.py:178-194 | one row is added at the head, or nothing changes: inconsistent chain, or row count at the limit |
| Journal.Evidence.Reserve | aisecure/gateway.py:196-224 | replays a receipt exactly on a consistent journal and for the fingerprint it was stored with, with the report stored, refuses another one, refuses an ID whose request row is still in the journal, refuses without room for two rows beyond all pending ones, else writes receipt and row together |
| Journal.Evidence.Finish | aisecure/gateway.py:226-235 | result row and receipt change together or not at all; a receipt that is gone stays gone |
| Journal.Evidence.Prune | aisecure/gateway.py:252-277 | re-anchors at the last row before the cut-off, drops that prefix and older receipts, and appends the retention row, or changes nothing; the check after the commit never fails and returns the new head |
| Journal.RetentionChains | aisecure/gateway.py:252-277 | pruning within the limit succeeds exactly outside the retention floor; it takes away exactly the leading rows and the receipts older than the cut, re-anchors at the last row cut, and its retention row chains directly from the checkpoint it records |
| Journal.TipDeterminesJournal | aisecure/gateway.py:164-176 | two journals that verify over one anchor and end in one tip are equal row for row |
| Journal.HeadFixesHistory | aisecure/gateway.py:123-126 | a head kept elsewhere matches a later verified journal exactly when its first rows are unchanged |
| Journal.ConsistentExactly | aisecure/gateway.py:164-194 | a journal is consistent if and only if its rows are what some entries leave behind when appended one after the other to the anchor |
| DispatchSafety.DispatchedAtMostOnce | aisecure/gateway.py:196-235 | in every interleaving, with crashes, reopening and lost receipts, one request ID is dispatched at most once more than the prunes that removed its last request row |
| DispatchSafety.ReceiptsTruthful | aisecure/gateway.py:395-417 | while an ID was never pruned: prevented means no dispatch, a completed state exactly one, pending or unknown at most one |
| DispatchSafety.JournalAlwaysVerifies | aisecure/gateway.py:167-184 | every run keeps the chain verifiable, numbers contiguous above the anchor, and rows within the limit |
| DispatchOrigins.PreparesExactly | aisecure/gateway.py:95-118 | a request enters a run exactly when its signed label is of this text and ID and valid now, or its approved plan is, or it needs none; it carries what it was prepared with |
| DispatchOrigins.OnlyPublicGoesOut | aisecure/gateway.py:373-406 | in every run, whatever was dispatched was prepared clean and under a valid public label of this text and ID, or as an approved plan that then met the approved state |
| DispatchOrigins.ReservesExactly | aisecure/gateway.py:196-224 | in every run a reservation is made exactly when neither a receipt nor a journal row has the ID and two rows are free beyond all results awaited; its sender then goes on exactly if its request may go out, and else is recorded as prevented; otherwise nothing changes |
| DispatchOrigins.DispatchesExactly | aisecure/gateway.py:402-412 | in every run an attempt dispatches exactly the requests that hold a reservation, unless it is halted or finds a plan's state changed, and ends completed, received by the demo, verified, failed or unknown as the attempt says |
| DispatchOrigins.FinishesExactly | aisecure/gateway.py:226-235 | in every run a result is recorded exactly while the journal has a row to spare, in the journal and in the receipt of its own ID if that is still there, and nowhere else |
| DispatchOrigins.ReplaysExactly | aisecure/gateway.py:202-207 | in every run, while the receipt of a reservation is there, a request with its ID is answered with the report recorded last if and only if it carries the fingerprint the winner was prepared with; any other is refused and the tables stay |
| DispatchOrigins.ReceiptsChange | aisecure/gateway.py:196-277 | a step takes a receipt away only if it loses it or prunes past its time, and changes one only by a reservation or a result of its ID |
| DispatchPermits.PermitUsedOnce | aisecure/gateway.py:111-113 | one signed label causes at most one dispatch, and one approved plan at most one application, in any run, across prunes, if reservations follow the check within 86,086 s and 86,101 s |
| DispatchPermits.LatePermitUsedTwice | aisecure/gateway.py:252-256 | for either kind a concrete run one second over the bound in which one permit is used twice |
| DispatchPermits.PermitBoundExact | aisecure/control/response.py:46-79 | a waiting bound is safe for all runs if and only if it is at most 86,086 s for labels and 86,101 s for plans |
| DispatchPermits.ApprovedPlanEnters | aisecure/control/response.py:38-72 | a plan that two operators approved enters a run, and as the same permit however often it is approved again |
| DispatchBudget.StepBudget | aisecure/gateway.py:178-277 | one step keeps every reservation's room if and only if it is harmless: no plain append into committed room, no lost or pruned receipt of a sender at work |
| DispatchBudget.BudgetExactly | aisecure/gateway.py:178-277 | in every run the room is there at every moment if and only if every step is harmless |
| DispatchBudget.RoomExactly | aisecure/gateway.py:226-235 | the results of held reservations can all be recorded, one after another, if and only if rows plus held reservations stay within the limit |
| DispatchBudget.ResultsAlwaysFit | aisecure/gateway.py:212-219 | in every run of harmless steps, rows plus pending receipts stay within the limit and the results of all reservations held can be recorded, in any order |
| DispatchBudget.AppendTakesReservedRoom | aisecure/gateway.py:178-194 | a concrete run: one plain append makes a held reservation's result fail for lack of room |
| DispatchBudget.PrunedReceiptTakesReservedRoom | aisecure/gateway.py:226-277 | a concrete run: a late result whose receipt was pruned takes the room of another reservation, whose own result then fails |
| DispatchBudget.VerifiedResponses | aisecure/control/response.py:76-98 | in every run a verified response was applied on exactly the approved state hash, returned, and read back as expected; while never pruned, exactly once; a failed precondition means it was never applied |
| Approvals.VerifyPair | aisecure/control/response.py:38-65 | the loop accepts a pair if and only if two people with two keys in the two roles each signed this very plan within the time window, and names exactly those two |
| Approvals.AcceptedExactly | aisecure/control/response.py:38-65 | a pair is accepted if and only if one operator approves a sound plan as the primary and another, with another key, as the secondary, in whichever order |
| Gateways.Gateway.Send | aisecure/gateway.py:395-417 | one send changes the tables and the transport log exactly as specified case by case; in particular the log grows only with consent, no stop, a clean text and a valid public label of it, and does grow when the ID can also be reserved and the attempt is made; the answer says what became of the attempt |
| Gateways.SendIsFourSteps | aisecure/control/bundles.py:112-134 | one send run alone is the four atomic steps prepare, reserve, transport, finish, or nothing without consent or once stopped, so what is proved of all interleavings holds of it |
| EventIndex.EventStore.Read | aisecure/control/events.py:42-53 | the recorded events in time and ID order, refused beyond the limit or on an inconsistent chain |
| EventIndex.EventStore.Ingest | aisecure/control/events.py:13-41 | duplicate, conflict, full, or recorded in journal and index together |
| EventIndex.EventStore.Prune | aisecure/control/events.py:54-70 | needs the current checkpoint; afterwards the index keeps exactly the entries of events still in the journal |
| EventIndex.VerdictExactly | aisecure/control/events.py:13-41 | while the events can be read: a duplicate exactly if this event is recorded, a conflict exactly if another one has its identifier, and else full or recorded by the room in index and journal |
| EventIndex.PrunesExactly | aisecure/control/events.py:54-70 | a prune is made exactly on a consistent journal with its current checkpoint and for a cut that is not negative and leaves the last day; while the events can be read the index keeps exactly the entries of events still there |
| EventIndex.ReadExactlyOnce | aisecure/control/events.py:42-53 | in every run, whatever index rows vanish or go stale, reading succeeds if and only if the recorded, unpruned events number at most the limit, and then yields each exactly once, strictly ordered |
| EventIndex.LosslessReads | aisecure/control/events.py:29-53 | a run that loses no index row can always be read |
| EventIndex.VerdictIgnoresIndex | aisecure/control/events.py:20-30 | losing index rows changes the verdict on an event if and only if the event is new and the loss makes room in a full index or, once the journal holds more events than the limit, its own row is lost |
| EventIndex.IndexIsOnlyACache | aisecure/control/events.py:13-70 | a run in which index rows vanish at any moments has, at every moment, the journal and events of the run without the losses, if and only if no new event comes at capacity while an index row is missing |
| EventIndex.DirectPruneHidesEvent | aisecure/control/events.py:62-67 | cutting the journal past the repository, or stopping before its index is cleaned, makes every event cut whose index row stays be answered as a duplicate though no row records it; the whole prune does not |
| EventIndex.LossAtCapacityBlocksReading | aisecure/control/events.py:29-53 | a new event at capacity with an index row missing is recorded, and reading is refused from then on until the journal is cut |
| EventIndex.OverrunHappens | aisecure/control/events.py:29-30 | a concrete run that reaches this case |
| AuditChain.VerifyAudit | aisecure/store.py:229-250 | the loop over rows with previous, valid and seen decides chain validity and whether the anchor's count and tip match |
| AuditChain.CheckpointExact | aisecure/store.py:242-246 | a checkpoint of a valid chain validates a later table if and only if that table is a valid chain that begins with the rows of checkpoint time |
| AuditChain.TruncationCaughtBelowCheckpoint | aisecure/store.py:229-246 | appends never invalidate a checkpoint; a cut is caught exactly when it goes below the checkpoint |
| AuditChain.TruncationUnseenWithoutCheckpoint | aisecure/store.py:248-250 | without a checkpoint no cut is noticed |
| AuditChain.ValidExactly | aisecure/store.py:217-250 | an audit table is a valid chain if and only if it is what some entries leave behind when written one after the other |
| Proposals.Store.Propose | aisecure/store.py:356-370 | reuses an unexpired pending proposal for the same snapshot and finding, else records a new one with its audit row |
| Proposals.Store.ApproveAndSimulate | aisecure/store.py:371-395 | a pending, unexpired proposal of the current snapshot with an intact plan becomes simulated, with its audit row; otherwise nothing changes |
| Proposals.Store.ApproveForExecution | aisecure/store.py:397-449 | two distinct operators approve one target for a pending, unexpired proposal of the current snapshot; otherwise nothing changes |
| Proposals.Store.ExecuteApproved | aisecure/store.py:450-507 | two transactions around the responder call; once the first succeeds, the proposal ends verified exactly if the reply says verified and executed and no other snapshot was ingested in between, and else failed |
| ProposalSafety.CurrentIsLastIngested | aisecure/store.py:255-275 | in every run the current snapshot is the one ingested last, and there is none before the first |
| ProposalSteps.ProposesExactly | aisecure/store.py:356-370 | in every run a new proposal is made exactly for a finding of the snapshot ingested last that no open proposal covers, pending for five minutes with the policy's plan |
| ProposalSteps.SimulatesExactly | aisecure/store.py:371-395 | in every run a simulation takes effect exactly on an unexpired pending proposal of the snapshot ingested last with its plan intact |
| ProposalSteps.ApprovesExactly | aisecure/store.py:397-449 | in every run a real approval takes effect exactly on such a proposal, by two different operators and for a target |
| ProposalSteps.StartsExactly | aisecure/store.py:450-480 | in every run an execution starts exactly on an unexpired approved proposal of the snapshot ingested last with its plan intact, for the approved target |
| ProposalSteps.EndsExactly | aisecure/store.py:481-507 | in every run an answered execution ends its proposal as verified exactly when the reply says verified and executed and its snapshot is still the one ingested last |
| ProposalSafety.StatusMovesForward | aisecure/store.py:356-507 | one step of any kind moves a status only along pending to simulated or approved, approved to executing, executing to verified or failed, and leaves what the proposal is about |
| ProposalSafety.StatusNeverReturns | aisecure/store.py:356-507 | however a run goes on, a proposal never moves back, is never deleted and never comes to mean another finding, snapshot, expiry or target |
| ProposalSafety.VerifiedExactly | aisecure/store.py:450-507 | in every run a proposal is verified if and only if one executor was started on it while its snapshot was the one ingested last, the approval unexpired and for its target and the plan intact, was then answered verified and executed, and then committed while that snapshot was again the one ingested last |
| ProposalSafety.RespondedOnceAfterApproval | aisecure/store.py:450-480 | in every run the responder is called at most once per proposal, after an audited approval of the same target by two different operators, with the policy's plan |
| ProposalSafety.VerifiedMeansVerifiedReply | aisecure/store.py:489-507 | in every run a verified proposal was answered, and every answer to it said verified and executed |
| ProposalSafety.AuditAgreesWithStatus | aisecure/store.py:489-507 | in every run the audit table says verified exactly when the proposals table does |
| Names.SlugLegal | aisecure/connectors/importer.py:42-58 | any name becomes a legal identifier of at most 80 characters, holding a colon exactly when it was generated |
| Names.PassesExactly | aisecure/connectors/importer.py:51-53 | a name passes unchanged exactly when it is a legal identifier without colon that does not end in a dash |
| Names.UnchangedExactly | aisecure/connectors/importer.py:42-58 | a name is unchanged if and only if it is such an identifier or spells out its own hash after a head of 59 or 60 characters and a colon |
| Names.SpelledHashPasses | aisecure/connectors/importer.py:54-58 | every such head and every hash value give a name with a colon that would pass unchanged if it had this hash |
| Names.SlugInjective | aisecure/connectors/importer.py:45-49 | two names share an identifier only if both are generated and their hashes collide |
| Names.SlugExactly | aisecure/connectors/importer.py:42-58 | a name that does not pass becomes a head, a colon and its hash; the head is the name with dashes for what may not be kept, trimmed, cut at 60 characters, trimmed again, and mended if empty or badly begun |
| Importer.ReadLine | aisecure/connectors/importer.py:251-288 | the field loop with its early exits gives the record of the line and the names in use, or the identifier clash |
| Importer.ReadSource | aisecure/connectors/importer.py:245-304 | row loop: records, names and counters, or too many rows, or a clash |
| Importer.Merge | aisecure/connectors/importer.py:333-366 | the deduplication loop over one source's records with its dictionaries and counters |
| Importer.BuildSnapshot | aisecure/connectors/importer.py:318-418 | the whole import: sources in order, horizon filter, shadow assets, policy, snapshot time, sorting, provenance |
| ImportOrigins.LineSays | aisecure/connectors/importer.py:251-300 | a line gives a row exactly when it is not blank and every value it maps can be taken; the row says, field by field, the last value mapped there, with identifiers made legal and a derived one if there is none |
| ImportOrigins.RowSays | aisecure/connectors/importer.py:251-300 | every event row comes from a log line of some source and says of it what that line says |
| ImportOrigins.InventorySays | aisecure/connectors/importer.py:303-316 | every inventory row comes from an inventory line and holds in each of its eight fields what the line maps there; the weakness is there exactly when a reference is mapped |
| Listing.AssetsListed | aisecure/connectors/importer.py:381-403 | every listed asset is the row observed last of its inventory lines, said field by field, or, if unknown assets are recorded, one that events name and of which every field is unknown; every asset without a row beyond the horizon is listed |
| Listing.EventsListed | aisecure/connectors/importer.py:372-398 | the events listed are exactly the stored ones in time, and under the policy that skips unknown assets exactly those of them that name a listed asset |
| Listing.SkippingKeepsExactly | aisecure/connectors/importer.py:372-398 | under that policy an accepted log row in time is listed exactly when it names a listed asset, and nothing else is listed |
| Listing.EventsSaid | aisecure/connectors/importer.py:333-366 | every listed event is what a log line says field by field, under its own identifier or its new one, and names the gateway or asset that the line names |
| Listing.GapsAndSources | aisecure/connectors/importer.py:385-412 | the gaps reported are exactly the assets that events in time name and no inventory row survives for, once each and in order; each source is told with its name, hash and counts |
| Listing.TimeAndOrder | aisecure/connectors/importer.py:387-403 | without a given time the snapshot takes the latest time of an event in time or a surviving asset, or the current one if there is neither; assets are listed by identifier and events by time |
| Conservation.NoEvidenceLost | aisecure/connectors/importer.py:344-380 | each accepted event row within the horizon is in the snapshot exactly once, under its own or its new identifier; nothing else is; identifiers are unique |
| Conservation.HashesKeepApart | aisecure/connectors/importer.py:28-31 | hashes that do not collide keep new identifiers apart from every original one and from each other |
| Conservation.BuildConserves | aisecure/connectors/importer.py:335-366 | every prefix of the sources conserves its rows, and a later row never evicts an earlier one |
| SourceOrder.ImportSucceedsExactly | aisecure/connectors/importer.py:318-418 | with unknown assets recorded, an import succeeds if and only if every source can be read and an event in time or a surviving asset is left |
| SourceOrder.BuildsExactly | aisecure/connectors/importer.py:245-304 | the sources can be read if and only if none has too many rows and no identifier stands for two names anywhere in them |
| SourceOrder.OrderOfSourcesIrrelevant | aisecure/connectors/importer.py:318-418 | neither success nor the set of event contents imported depends on the order of the sources |
| Accounting.BuildAccounted | aisecure/connectors/importer.py:245-301 | for every source rows read equal rows imported plus rows skipped through reading and deduplication, none negative |
| Accounting.AbsorbAccounted | aisecure/connectors/importer.py:344-366 | what a log source counts as imported is exactly the number of events it added |
| Accounting.RowsAddUp | aisecure/connectors/importer.py:372-380 | after the horizon filter the totals add up if and only if the last source had imported at least as many rows as were dropped |
| Accounting.PutKeepsNewest | aisecure/connectors/importer.py:335-342 | of two inventory rows of one asset the one observed later is kept, and of equals the one read last |
| Accounting.AssetSurvivesExactly | aisecure/connectors/importer.py:381-383 | an inventory asset keeps a row if and only if none of its rows lies beyond the horizon |
| Normalizer.Normalize | aisecure/schema.py:136-211 | the two loops accept exactly the documents specified and return the sorted, pseudonymised result |
| Acceptance.AssetAcceptedExactly | aisecure/schema.py:155-172 | an asset is accepted if and only if its dictionary spells one that meets the stated bounds, and becomes that asset |
| Acceptance.EventAcceptedExactly | aisecure/schema.py:174-206 | an event is accepted if and only if its dictionary spells one that meets the stated bounds and names a listed asset, and becomes that event under pseudonyms |
| Acceptance.DocumentAcceptedExactly | aisecure/schema.py:136-211 | a document is accepted if and only if its header is in bounds, its items spell such assets of different identifiers, and its other items such events, one for one identifier |
| Acceptance.AcceptedOrder | aisecure/schema.py:207-211 | an accepted snapshot lists its assets by identifier and its events by time and identifier, and keeps the time and the provenance of the document |
| Canonical.AssetsSound | aisecure/schema.py:155-172 | accepted assets are each valid, converted one by one, and share no identifier |
| Canonical.AssetsComplete | aisecure/schema.py:155-172 | valid assets with distinct identifiers are always accepted |
| Canonical.EventsExactly | aisecure/schema.py:174-210 | events are accepted if and only if each is valid and items with one identifier are one event, and then each is kept once |
| Canonical.NormalizeIsCanonical | aisecure/schema.py:155-211 | permuting assets or events or repeating events changes neither acceptance nor result |
| Canonical.NormalizeResult | aisecure/schema.py:207-211 | the result is strictly ordered by time and identifier and holds exactly the events its items give |
| Canonical.NormalizedSound | aisecure/schema.py:148-211 | an accepted snapshot has an asset, unique identifiers, resolved references and no time after its own |
| Boundary.ImportsAreAccepted | aisecure/schema.py:136-211 | whatever the importer returns the normalizer accepts, for well-typed profiles, a clock that is not behind, legal source names and caps that hold |
| Boundary.AcceptedGood | aisecure/connectors/importer.py:251-300 | every record read has exactly the targets of its kind, a legal identifier, and fields of the right shape |
| Boundary.FinishedReady | aisecure/connectors/importer.py:372-403 | after the horizon filter and either policy, identifiers are unique, times are not after the snapshot's and every event refers to a listed asset |
| Boundary.BuildShaped | aisecure/connectors/importer.py:233-366 | every event and asset in the store has exact keys, legal identifiers and fields of the right shape, whatever the sources hold |
| Canonical.EventRoundTrip | aisecure/schema.py:174-206 | normalizing an event replaces the three names by pseudonyms and changes nothing else |
| Canonical.AssetRoundTrip | aisecure/schema.py:155-172 | an asset can be read back from its normalized form; only a whole score has become a decimal one |
| CollidingRows.BothLoginsArrive | aisecure/connectors/importer.py:357-366 | a complete import of two different logins under one identifier meets all hypotheses above: both are in the snapshot, the second renamed, and the normalizer accepts it |
| Window.SlidingPeak | aisecure/engine.py:80-91 | the deque and counter loop returns the first window with the most distinct files |
| Window.PeakIsUpperBound | aisecure/engine.py:80-91 | no set of reads spanning at most the window has more distinct files than the peak |
| Window.PeakIsReached | aisecure/engine.py:80-91 | some set of reads spanning at most the window has exactly that many |
| Window.BestIsEarliest | aisecure/engine.py:90-91 | the evidence is the earliest window that reaches the peak |
| Window.BulkExactly | aisecure/engine.py:90-93 | the peak reaches the threshold if and only if some set of reads within the window touches that many files |
| Engine.Analyze | aisecure/engine.py:28-107 | asset, login and bulk passes give exactly the findings specified |
| EngineRules.SingleRulesExactly | aisecure/engine.py:36-72 | the AS-001 findings are one for each pending asset, the AS-005 findings one for each asset with an unknown flag, an unknown patch state or too old a row, and the AS-002 findings one for each successful privileged login from an untrusted device or without approval, as configured; each in order and with its evidence |
| EngineRules.BulkRuleOfSnapshot | aisecure/engine.py:74-96 | the AS-003 findings are exactly those of the actors, sessions and assets for which some read events within the window touch enough distinct files, with all reads of the first best window and their number of files |
| EngineRules.ReadsInOrder | aisecure/engine.py:74-79 | the reads of one actor, session and asset are gone through by time and, at the same time, by identifier |
| EngineRules.CorrelationOfSnapshot | aisecure/engine.py:97-106 | the AS-004 findings are exactly those of such groups with enough sensitive files whose deciding login is questionable and came over an exposed, unpatched gateway, with that gateway, that login and the reads as evidence |
| EngineRules.OneBulkPerGroup | aisecure/engine.py:79-96 | every actor, session and asset with such reads has one AS-003 finding, and there are no others |
| EngineRules.OneLinkPerGroup | aisecure/engine.py:79-106 | every such group with a deciding login of that kind has one AS-004 finding, and there are no others |
| Engine.BulkRuleExact | aisecure/engine.py:74-96 | an AS-003 finding is reported if and only if some reads of one actor, session and asset within the window touch enough distinct files |
| Engine.RaisingThresholdFilters | aisecure/engine.py:80-106 | raising the threshold removes exactly the AS-003 and AS-004 findings with too few files; all others stay unchanged and in order |
| Engine.CorrelationSound | aisecure/engine.py:97-106 | an AS-004 finding names a latest eligible login of the same actor and session that is suspicious and came over an exposed, unpatched gateway, with enough sensitive files |
| Engine.CorrelationExact | aisecure/engine.py:97-106 | AS-004 is reported if and only if the first of the latest eligible logins is suspicious, its gateway exposed and unpatched, and enough sensitive files were read |
| Engine.LoginSilencesExactly | aisecure/engine.py:97-106 | one more login, anywhere among the logins of a session, silences an AS-004 finding if and only if it becomes the deciding login and is not both suspicious and over an exposed, unpatched gateway |
| Engine.SnapshotSilencedExactly | aisecure/engine.py:66-106 | the same in a snapshot: one more login, anywhere among all events, silences the AS-004 finding of a group if and only if it is a successful login of that session that does so |
| Engine.CorrelationReported | aisecure/engine.py:74-106 | a snapshot has an AS-004 finding if and only if one of its groups has |
| Engine.BenignLoginSilences | aisecure/engine.py:101-103 | two ways to do so: a later login that is benign or over another gateway, and such a login of the same second listed first |
| Sweep.Rate | aisecure/evaluate.py:47-78 | the counters of one scenario are the counts specified |
| Sweep.Evaluate | aisecure/evaluate.py:81-93 | totals over all scenarios, or an error for none |
| Sweep.Search | aisecure/evaluate.py:135-155 | all cells of the sorted grid and the recommended one, or an error exactly when some configuration of the grid is out of bounds or no scenario is given |
| SweepCounts.ScoreExactly | aisecure/evaluate.py:47-78 | a score counts the findings of each behavioural rule, and among them those with evidence of the incident and those without; hygiene findings are only counted; a label is missed unless a finding of its behavioural rule has evidence of the incident |
| SweepCounts.TotalsExactly | aisecure/evaluate.py:81-93 | the totals are the sums of these counts over the scenarios, and the labels expected |
| SweepCounts.RecallRounds | aisecure/evaluate.py:122-122 | full recall is recall rounded to four places being 1.0 |
| SweepCounts.SearchExactly | aisecure/evaluate.py:135-155 | the search needs every configuration in bounds, has a cell for exactly the thresholds and windows given, in order, each with the totals under it, and recommends a complete cell with the fewest false positives, then the lowest threshold, then the longest window |
| Sweep.MissesAre | aisecure/evaluate.py:65-67 | a rule is missed once for every label that expects it, unless one of its findings touches the incident |
| Sweep.HigherThresholdFindsLess | aisecure/evaluate.py:141-151 | at a fixed window true and false positives never grow with the threshold and missed detections never shrink |
| Sweep.FullRecallDownwardClosed | aisecure/evaluate.py:152 | thresholds with full recall are downward closed for each window |
| Sweep.RecommendedIsMinimal | aisecure/evaluate.py:152-155 | a cell is recommended exactly when one has full recall, and none with full recall is preferable |
| Sweep.RecommendedThresholdIsTight | aisecure/evaluate.py:153-155 | at the recommended window every lower threshold costs strictly more false positives and every higher one with full recall exactly as many |
| Sweep.NoneMissed | aisecure/evaluate.py:65-74 | no detection counts as missed if and only if every behavioural rule expected of a scenario has a finding on its incident |
| Sweep.FullRecallExact | aisecure/evaluate.py:122 | rounded full recall implies nothing missed if and only if fewer than 20,000 detections are expected, or 20,000 when the tie rounds down |
| Sweep.RecommendedMissesNothing | aisecure/evaluate.py:152-155 | below that size a recommendation misses no expected behavioural rule |
| LargeSuites.LargeSuiteHidesMiss | aisecure/evaluate.py:31-155 | for every suite size of 20,001 or more, a document the boundary check accepts, labels on it and a grid in bounds whose recommended cell misses a detection |
| Analytics.Deduplicate | aisecure/control/analytics.py:66-74 | the dictionary loop keeps each identifier once in time and ID order, and refuses conflicting reuse and oversize input |
| Analytics.Analyze | aisecure/control/analytics.py:77-148 | grouping, selections and rules per actor, per login and per baseline give exactly the cases specified |
| CaseRules.CasesExactly | aisecure/control/analytics.py:95-148 | the cases are exactly those that one of the five rules, each told by the observations and their times, outcomes, classes and targets alone, reports on some organization and actor, with the first 32 identifiers in order and their number |
| CaseRules.ThresholdExactly | aisecure/control/analytics.py:143-145 | the volume limit is the largest of three times the median of the samples, the median and six times their median distance from it or 1024, and one MiB |
| CaseRules.RefusedExactly | aisecure/control/analytics.py:66-140 | the analysis refuses, in this order, more than 10,000 observations, two different ones of one identifier, one out of range of time, and one of an actor whose baseline reaches into the last day; it accepts everything else |
| AnalyticsSafety.SubjectKeepsCases | aisecure/control/analytics.py:99-148 | for one organization and actor every case is still there when more events are known, on at least as many observations |
| AnalyticsSafety.LoginStillReported | aisecure/control/analytics.py:116-136 | the same for the cases of one login |
| AnalyticsSafety.CaseHasSubject | aisecure/control/analytics.py:95-148 | every case reported is a case of some organization and actor with an observation |
| AnalyticsSafety.MoreEvidenceKeepsCases | aisecure/control/analytics.py:77-148 | adding events that the analysis accepts silences no case: what is reported for an organization and actor is still reported for that organization and actor |
| AnalyticsSafety.LateBaselineExactly | aisecure/control/analytics.py:137-140 | accepted, well-timed events are refused if and only if one of their actors has a baseline that reaches into the last day |

## Left out

- Network, devices and providers: each call is an arbitrary success, failure or exception.
- SQLite, files, permissions, backups and key storage: committed tables are sequences and maps.
- HMAC, SHA-256, AES-GCM, Ed25519: see the assumptions above.
- JSON, CSV and date parsing, Unicode and lone surrogates, and the reading of one value by a profile (`_value`): the model starts from typed values per line.
- EventIndex.EventStore.Prune: the method runs through; that it may stop between its two transactions is the act `JournalPrune` of the runs.
- Journal.Evidence.Prune: the vacuum after the commit is not modelled.
- Normalizer.Normalize: the order of provenance entries, the caller's source mode and the error messages are not modelled, and whole seconds replace fractions.
- Importer.BuildSnapshot: counters of unknown values, of normalised names and of skip reasons, time ranges and warnings are not modelled.
- Engine.Analyze: priorities, titles, reasons, finding identifiers and the final sort by priority are not modelled; nor is `coverage`.
- Sweep.Rate: the case metrics of one rule and its precision, ratios of the counts modelled, are not modelled.
- Sweep.Evaluate: precision, the rule-case metrics, spans in days and affected actors are ratios and displays of the same counts and are not modelled.
- Sweep.Search: floating-point division is replaced by exact comparison; how a value exactly half way is rounded is a parameter.
- Analytics.Analyze: case texts, case identifiers, first and last times and stale sources are not modelled; medians are exact instead of floating-point.
- Gateways.Gateway.Send: what a scan finds in files, and the rule names and texts of the reports, are not modelled; a disabled bundle delivery counts as a finding.
- In the runs of the protocol the verdict on a plan's two approvals is part of the plan, and identifier syntax of plans and approvers is taken as checked. Snapshot identifiers are taken as injective in their document.
- Constants of a profile that are fractions, lists or objects: the text of an identifier made from one is not modelled.
- Document scanning, regex detection, user interfaces, the browser extension, HTTP routing, demonstrations and synthetic traffic.
