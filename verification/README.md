# WorldTangle: verified models of the simulator's rules

WorldTangle is a deterministic economic simulator: integer arithmetic and small state machines
around an event log. This project models the parts whose correctness is a statement about every
run, or about a loop together with the functions around it, and proves those statements with
Dafny. `dafny verify dfyconfig.toml` checks everything.

How the model is written:

- Code that updates state in place is a class whose methods are proved against a pure
  specification function of the old state (`View()` is the abstract state). Whole runs are
  folds of those functions, and the main results are lemmas about arbitrary runs.
- Whatever the rules do not control is an adversary: the interleaving of commits, polls, drains
  and reconnections; the answer of an LLM provider; what the market finds between two calls; a
  crash after any durable write; an observer callback that throws.
- A thrown error is an `Err` value with the engine's error code. Several JavaScript errors that
  differ only in their message share a code here.
- `bigint` amounts are unbounded integers. A JavaScript number that the code checks with
  `Number.isSafeInteger` is checked here too.
- SHA-256 and the canonical printer are injective where a digest is a datatype over what it
  covers. The key digest of the response cache is any function to 64 hexadecimal digits; where
  a result needs it to tell keys apart, it asks so of the keys of that run only
  (`Cache.CollisionFree`), and `Cache.ToyWorldQualifies` shows that all hypotheses of the cache
  results hold together. Schema parsing is the identity on valid
  values, except where the schema itself changes or refuses something that matters (trimmed
  model names, bounded lists, positive leg amounts).
- Where an identifier is produced by a counter, the counter is part of the state.

One module per component: `EventStream`, `Replay`, `ConversationRules`, `ConversationPhase`,
`Ledger`, `Budget`, `Cache`, `Household`, `Memory`, `Goals`, `Loans`, `Cpi`, `Bus`, `Waterfall`,
`Cohort`, `Printers`, over the small libraries `Shared`, `Ordering`, `Text` and `Money`.

## What turned out to be conditional

- Budget flags: the 80% and 100% flags are exact in every run whose event observer returns.
  A charge that crosses a threshold leaves them exact if and only if the observer survives every
  event that is due before the last flag to be set (`Budget.FlagsLagExactlyWhen`,
  `Budget.AThrowingObserverHidesTheWarning`). In the same way an agent's day is the sum of its
  bills in every run whose observer returns, and a charge is missing from it exactly when the
  observer fails too early (`Budget.DayIsCountedExactlyWhen`,
  `Budget.AThrowingObserverHidesTheTokens`).
- Response cache: caching is unobservable exactly for providers whose successes can be stored
  unchanged and depend on the cache key alone (`Cache.TransparentExactlyWhenCacheable`). A model
  name with surrounding blanks, for instance, is passed through by the first call and trimmed by
  every later one.
- Memory: a summary may name at most 256 sources, so the working set is bounded in every run
  exactly when `maxActiveMemories - compactToMemories` is at most 254; otherwise the record that
  overflows is stored and then fails, and so does every later one
  (`Memory.WorkingSetIsBoundedExactlyWhen`).
- Loans: a loan can be processed in every run exactly when it has at least one cent of principal
  per month; a smaller loan starts with instalments without principal, which collection refuses
  (`Loans.LoansProcessExactlyWhen`).
- Goals: with one rule that lets every goal through, and rules that do not look at a goal's
  name or priority, activating a whole menu is safe in every store exactly when no rule becomes
  true, below the limit, by activating another goal (`Goals.BatchNeverFailsExactlyWhen`). For
  each rule that does there is a store whose batch fails on its last goal
  (`Goals.SocialGoalBreaksTheBatch`).
- Conversations: a conversation is sure to close, in `maxTurns` turns whose answers can be
  recorded, exactly when its bounds admit terms to offer. Opening does not check that: bounds for
  a very small stake in a very valuable company have none (`ConversationRules.TinyStakeHasNoMenu`,
  `ConversationRules.CandidatesExistWhen`), such a conversation stays open for ever
  (`ConversationPhase.ClosesExactlyWhenTermsExist`), and while it is selected for a turn no turn
  of that tick is found (`ConversationPhase.DiscoverConversationTurnOpportunities`).
- Conversation turns: a turn aborts its tick if and only if some answer it asked for cannot be
  recorded, because its token count is negative or not a safe integer, or its other evidence does
  not fit the call record (`ConversationPhase.TurnIsSafe`). Whether the answer was accepted does
  not matter.
- CSV: a printed document reads back exactly when no row is without cells
  (`Printers.CsvRoundTrip`).

## Model

| member | source | states |
|---|---|---|
| EventStream.StreamConnection.constructor | apps/server/src/event-stream.ts:256-282 | A new connection has written nothing and accounts for the empty range after its start. |
| EventStream.StreamConnection.Write | apps/server/src/event-stream.ts:350-361 | A chunk is taken whole or not at all; a full buffer still takes it but blocks with exactly one drain listener; a gone peer closes. |
| EventStream.StreamConnection.ReadBatch | apps/server/src/event-stream.ts:139-187 | Whatever the batch, its deliveries continue the account step by step to the end of the log read, as one gap exactly when the backlog exceeds the limit. |
| EventStream.StreamConnection.DeliverOne | apps/server/src/event-stream.ts:311-338 | One delivery extends what is written and accounted for; stopping means closed or blocked. |
| EventStream.StreamConnection.Deliver | apps/server/src/event-stream.ts:311-338 | After the write loop an open, unblocked connection has reached the target of its batch. |
| EventStream.StreamConnection.Poll | apps/server/src/event-stream.ts:311-338 | A poll keeps the account of every event, writes nothing while blocked or closed, and catches up otherwise. |
| EventStream.StreamConnection.HandleDrain | apps/server/src/event-stream.ts:363-367 | A drain unblocks an open connection and polls at once, keeping the account. |
| EventStream.StreamConnection.Heartbeat | apps/server/src/event-stream.ts:340-348 | A heartbeat writes exactly one comment, no frame, and moves no position. |
| EventStream.StreamConnection.Serve | apps/server/src/event-stream.ts:284-376 | A new connection is started and then meets any interleaving of commits, polls with commits between their two queries, drains, heartbeats and a close: the written frames account for exactly the events up to `afterSeq` while it is open. |
| EventStream.ServeVisit | apps/server/src/event-stream.ts:250-376 | One visit over a fresh connection from the last id received, cut after some frames, is a session with its account. |
| EventStream.EachEventHasOneFate | apps/server/src/event-stream.ts:139-187 | Each accounted event is exactly one of delivered once, inside exactly one gap, or unsubscribed. |
| EventStream.BatchReachesLogEnd | apps/server/src/event-stream.ts:139-187 | A batch over any two consistent log reads continues the account to the end of the page. |
| EventStream.BatchFailsExactlyWhen | apps/server/src/event-stream.ts:139-187 | A read fails only over a subscribed digest that does not fit its schema; a backlog beyond the limit becomes one gap up to the newest event, and any other is read event by event. |
| EventStream.ReceivedPrefixAccounted | apps/server/src/event-stream.ts:189-202 | Cut after any received frame, a session accounts for everything up to that frame's id. |
| EventStream.FramesAreTold | apps/server/src/event-stream.ts:84-126 | Which event gets which frame: lifecycle frames for the seven named types with the status from the payload or the type's suffix, digest frames for completed ticks, each only for its own topic, and nothing else. |
| EventStream.AccountTellsAll | apps/server/src/event-stream.ts:139-202 | An account of events is the client's promise: told or in a gap, and truthful. |
| EventStream.ClientAccounted | apps/server/src/event-stream.ts:189-202 | Across reconnections that send the last received id, all received frames together form one account. |
| EventStream.ClientMissesNothing | apps/server/src/event-stream.ts:139-202 | In the client's own terms: ids strictly increase; up to its last id every event of the seven lifecycle types, if it subscribed to them, and every tick digest, if it subscribed to those, came as a frame with that event's id, type, tick and payload or lies in a received gap; and no frame tells anything else. |
| EventStream.ServeClient | apps/server/src/event-stream.ts:139-376 | A client that keeps reconnecting with its last id to real connections, while events are committed, is a client run over the final log, so it is promised all that: ids strictly increase, no event of a subscribed topic is missed outside a gap, no other frame arrives. |
| Replay.ProjectionDecidesSameFacts | apps/server/src/replay-executor.ts:37-56 | Projections are equal exactly when two events state the same facts, run identity aside. |
| Replay.OnlyRunIdentityIsIgnored | apps/server/src/replay-executor.ts:37-56 | A field of an event makes no difference exactly when it is one of the six that name the run or its clock. |
| Replay.FirstReplayEventMismatch | apps/server/src/replay-executor.ts:94-140 | No mismatch exactly when the ranges agree event by event; otherwise the first difference, fully described. |
| Replay.RangeDecides | apps/server/src/simulation-service.ts:3715-3740 | Comparing only the range after the checkpoint decides whether the whole log repeats the source. |
| Replay.ReplayRun.constructor | apps/server/src/simulation-service.ts:1106-1131 | Creation leaves a checkpoint at the end of genesis at tick 0, without divergences exactly when genesis agrees and the cache is complete. |
| Replay.ReplayRun.CompareReplayRange | apps/server/src/simulation-service.ts:3715-3740 | A comparison without divergence proves the whole log reproduces the source; a true reproduction never records one. |
| Replay.ReplayRun.CompareAndCheckpoint | apps/server/src/simulation-service.ts:3715-3740 | The checkpoint moves only over compared events; a crash in between keeps the invariant. |
| Replay.ReplayRun.ApplyReplayBoundary | apps/server/src/simulation-service.ts:3434-3484 | A boundary that stops early has a divergence on record. |
| Replay.ReplayRun.FinishReplay | apps/server/src/simulation-service.ts:3742-3780 | The row closes as completed exactly without divergences. |
| Replay.ReplayRun.ReplayTick | apps/server/src/simulation-service.ts:3389-3423 | One round of the loop runs exactly one more tick and compares it, or closes the row, or leaves it running after a crash. |
| Replay.ReplayRun.ExecuteReplay | apps/server/src/simulation-service.ts:3354-3432 | One attempt from any durable state ends completed or diverged unless it crashed or threw; a completed one has run exactly the requested ticks, each once. |
| Replay.ReplayRun.RunWithRecovery | apps/server/src/simulation-service.ts:3297-3484 | Whatever ticks append and wherever the process dies: `completed` means exactly the requested ticks were run and compared, the log reproduces a prefix of the source and the known state hash at the last tick; a strict replay never ticks past a divergence; no tick starts before the commands due at its boundary; and every recorded mismatch is real. |
| ConversationRules.CandidatesWithinBounds | packages/engine/src/conversation-rules.ts:56-152 | Every listed candidate satisfies the terms schema and the bounds. |
| ConversationRules.CandidatesAreLowMiddleHigh | packages/engine/src/conversation-rules.ts:56-122 | The listed terms are exactly the low, middle and high ones of the bounds; for investments all nine pairs with the share nearest to amount over valuation. |
| ConversationRules.CandidatesExistWhen | packages/engine/src/conversation-rules.ts:56-122 | When a menu of terms exists: always, except for investments whose share rounds out of range. |
| ConversationRules.TinyStakeHasNoMenu | packages/engine/src/conversation-rules.ts:56-122 | Concrete bounds for which no candidate exists. |
| ConversationRules.LastTermsFromOther | packages/engine/src/conversation-rules.ts:167-178 | The backward scan finds the opposing terms. |
| ConversationRules.TermsFromOtherIsLatest | packages/engine/src/conversation-rules.ts:167-178 | Those are the latest terms tabled by anyone else. |
| ConversationRules.ConversationHasNoProgress | packages/engine/src/conversation-rules.ts:267-280 | The scan decides whether the speaker repeats its own latest terms. |
| ConversationRules.RepeatingMeansSaidBefore | packages/engine/src/conversation-rules.ts:267-280 | Repeating means that the speaker's latest message tabled exactly these terms. |
| ConversationRules.MenuIsBounded | packages/engine/src/conversation-rules.ts:180-231 | A menu lets nobody table terms outside the bounds, nor accept anything but the opposing terms. |
| ConversationRules.MenuIsExactly | packages/engine/src/conversation-rules.ts:180-231 | What a menu offers, no more and no less: every candidate as an offer or counter-offer, acceptance of the opposing terms if there are any, clarification and refusal. |
| ConversationRules.ResolvedIsOffered | packages/engine/src/conversation-rules.ts:233-265 | Whatever the provider said, a resolved proposal is an offered option. |
| ConversationRules.MenuProposalsNeverFailThePlan | packages/engine/src/conversation-rules.ts:282-325 | For a resolved proposal the plan fails only on a bad token count; the accept-must-repeat error never fires. |
| ConversationRules.ResolvedOutcomeAgrees | packages/engine/src/conversation-rules.ts:327-414 | A resolved outcome never contradicts the close reason and carries exactly the accepted terms. |
| ConversationRules.OutcomesResolveExactly | packages/engine/src/conversation-rules.ts:327-414 | Which answers to the outcome call are resolved, and to what, for each close reason. |
| ConversationPhase.OneTurnPerAgent | apps/server/src/conversation-phase.ts:136-186 | No agent takes part in two turns of one batch. |
| ConversationPhase.DeferredOnlyWhenBusy | apps/server/src/conversation-phase.ts:136-186 | A due conversation is deferred only because a participant is already busy. |
| ConversationPhase.SelectionContinues | apps/server/src/conversation-phase.ts:136-186 | One step of the selection: the next due conversation is taken unless a participant is busy, and makes its participants busy. |
| ConversationPhase.DiscoverConversationTurnOpportunities | apps/server/src/conversation-phase.ts:136-186 | The scan finds the selected conversations, each with its speaker and current menu; it fails exactly when one of them has no menu. |
| ConversationPhase.PrepareConversationBatch | apps/server/src/conversation-phase.ts:334-454 | Each entry is prepared from its own opportunity and provider answers, including the outcome call after a plan that threw; the batch is refused exactly when one entry is. |
| ConversationPhase.ConversationStore.AppendMessage | apps/server/src/persistence/conversation-store.ts:531-687 | The checks of an append in their order, then the message and the counters; nothing changes on a refusal. |
| ConversationPhase.ConversationStore.Close | apps/server/src/persistence/conversation-store.ts:690-770 | The checks of a close in their order, then the outcome; nothing changes on a refusal. |
| ConversationPhase.AppendsExactlyWhen | apps/server/src/persistence/conversation-store.ts:531-687 | Which messages the store takes, from whom, at what cost and with which terms, and what they change. |
| ConversationPhase.ConcludesExactlyWhen | apps/server/src/persistence/conversation-store.ts:690-770 | Which outcomes go with which reasons when an open conversation is closed. |
| ConversationPhase.ConversationStore.ApplyEntry | apps/server/src/conversation-phase.ts:640-892 | One entry records its calls, appends and closes its own conversation and leaves all others alone; a call that cannot be recorded is an error. |
| ConversationPhase.ConversationStore.ApplyBatch | apps/server/src/conversation-phase.ts:640-892 | A batch is applied entry by entry, or fails as a whole. |
| ConversationPhase.PreparedTurnFits | apps/server/src/conversation-phase.ts:275-454 | For a message answer that can be recorded, the prepared turn is within the conversation's terms, turn order and token budget, and holds exactly the answers that were asked for. |
| ConversationPhase.UnrecordableMessageAborts | apps/server/src/conversation-phase.ts:334-562 | A message answer that cannot be recorded aborts the turn, in preparation or when it is applied. |
| ConversationPhase.TurnIsSafe | apps/server/src/conversation-phase.ts:640-892 | A turn aborts exactly when some answer it asked for cannot be recorded; otherwise it keeps the conversation safe and adds a message or closes. |
| ConversationPhase.OpeningIsSafe | apps/server/src/conversation-phase.ts:640-892 | Every newly opened conversation, with or without terms to offer, satisfies the safety invariant. |
| ConversationPhase.TurnFollowsAnswer | apps/server/src/conversation-phase.ts:275-892 | What any recordable answer does: what is said and by whom, whether and why the conversation ends, what comes of it, and the tokens it costs. |
| ConversationPhase.AgreementExactlyWhenAccepted | apps/server/src/conversation-phase.ts:275-892 | A turn ends in agreement exactly when the provider accepts the opposing terms within the token budget; these are the terms agreed on, whatever the outcome call says. |
| ConversationPhase.EveryOptionCanBeChosen | apps/server/src/conversation-phase.ts:275-892 | Each thing that may be said can be said and goes out as proposed; it ends the conversation exactly when it accepts, refuses, repeats the speaker's own terms or uses up the turns. |
| ConversationPhase.EveryCandidateCanBeAgreed | apps/server/src/conversation-phase.ts:136-892 | Every candidate can be what a new conversation of two or more turns agrees on. |
| ConversationPhase.ConversationIsSafe | apps/server/src/conversation-phase.ts:275-892 | Under every provider: speakers alternate, terms stay in bounds, tokens within budget, agreement exactly on an accepted opposing offer; an open conversation has fewer messages than `maxTurns`, one for each completed turn. |
| ConversationPhase.ClosesExactlyWhenTermsExist | apps/server/src/conversation-phase.ts:136-892 | Every provider with recordable answers closes an opened conversation within `maxTurns` turns exactly when its bounds admit terms; otherwise no provider ever changes it. |
| Ledger.DoubleEntryLedger.Post | packages/engine/src/ledger.ts:135-215 | The posting loops realise one attempt: the same answer, balances and journal, and no change on any refusal. |
| Ledger.DoubleEntryLedger.CheckNewWork | packages/engine/src/ledger.ts:156-209 | The checks refuse in the source's order, and otherwise give the balances the legs lead to. |
| Ledger.RefusedExactlyWhen | packages/engine/src/ledger.ts:49-209 | When a request under a new key is refused, told in totals, owners, channels and floors, and with which error. |
| Ledger.SavedExactlyWhen | packages/engine/src/ledger.ts:135-215 | A transaction is saved exactly when it is well formed, its key is new in its run and the request is admissible. |
| Ledger.SavedWorkMoves | packages/engine/src/ledger.ts:181-213 | Saved work changes each account by its debits less its credits and nothing else, and reports the new balances of the accounts it names. |
| Ledger.FailedAndRepeatedPostsAreErasable | packages/engine/src/ledger.ts:135-215 | Refused and repeated posts can be erased from any run; what remains is exactly what the journal gained. |
| Ledger.BalancesReconcile | packages/engine/src/ledger.ts:235-243 | In every run each cached balance is the reconciliation of its base over the saved legs. |
| Ledger.MoneyIsConserved | packages/engine/src/ledger.ts:181-213 | The total over the accounts of a simulation run never changes. |
| Ledger.FloorsAreKept | packages/engine/src/ledger.ts:196-209 | No account that is at or above its floor falls below it. |
| Ledger.OnlySpendersLowerAnAccount | packages/engine/src/ledger.ts:106-125 | Without posts by the system or an admin an agent's account falls only through that very agent, a company's or government's only through that very institution, and a bank-internal or outside-world account not at all. |
| Ledger.OnlyTheSystemIssuesMoney | packages/engine/src/ledger.ts:49-125 | Agents and institutions cannot raise the money outside the banks and the outside world. |
| Ledger.RetriesAreIdempotent | packages/engine/src/ledger.ts:56-67 | After any further attempts, reusing a saved key changes nothing: the original is reported for the same request and a conflict for another. |
| Budget.InMemoryLlmBudgetController.AuthorizeCall | packages/engine/src/llm-budget.ts:389-431 | Authorization only reads, and decides in the source's order. |
| Budget.AllowedExactlyWhen | packages/engine/src/llm-budget.ts:389-431 | A call is allowed exactly when model, module and agent are not switched off and neither the run nor the agent has used up its budget; from 80% of either it is served on the lower tier, for the reason told. |
| Budget.RefusedBecause | packages/engine/src/llm-budget.ts:389-408 | A refusal names the first thing in the way. |
| Budget.BeginsExactlyWhen | packages/engine/src/llm-budget.ts:205-244 | A call goes out exactly when it is allowed, under a number of its own and on the tier it may use. |
| Budget.EachTokenCostsItsPrice | packages/engine/src/llm-budget.ts:110-143 | Each uncached, cached and output token costs its price, and no tokens cost nothing. |
| Budget.PricedExactlyWhen | packages/engine/src/llm-budget.ts:110-143 | When a call can be priced. |
| Budget.InMemoryLlmBudgetController.Record | packages/engine/src/llm-budget.ts:433-511 | One charge, including the state a throwing observer leaves behind at each of its events. |
| Budget.BudgetedLlmProvider.BeginProposal | packages/engine/src/llm-budget.ts:205-244 | The part of a proposal before the provider is asked. |
| Budget.BudgetedLlmProvider.FinishWithCharge | packages/engine/src/llm-budget.ts:245-300 | The part after a live answer. |
| Budget.ChargeKeepsSound | packages/engine/src/llm-budget.ts:433-511 | A charge keeps every invariant whatever the observer does, and leaves the flags exact when it completes. |
| Budget.EveryRunIsSound | packages/engine/src/llm-budget.ts:433-545 | In every run cost is the sum of the charges, usage events carry running sums, and each threshold event occurs at most once and in order. |
| Budget.FlagsAreExact | packages/engine/src/llm-budget.ts:481-511 | With an observer that returns, the flags say exactly whether 80% and all of the ceiling have been reached. |
| Budget.FlagsLagExactlyWhen | packages/engine/src/llm-budget.ts:448-511 | A charge that crosses a threshold leaves the flags exact if and only if the observer survives the events due before the last flag, both directions. |
| Budget.AThrowingObserverHidesTheWarning | packages/engine/src/llm-budget.ts:526-543 | A concrete charge that crosses 80% without the flag. |
| Budget.CountersMatchBills | packages/engine/src/llm-budget.ts:433-453 | However calls overlap and whatever the observer does, token counters and cost are the sums over the answers that could be priced. |
| Budget.DayIsCountedExactlyWhen | packages/engine/src/llm-budget.ts:448-480 | A charge is counted for its agent's day if and only if the observer survives the usage event and, on a new day, the events for the limits it reaches. |
| Budget.AThrowingObserverHidesTheTokens | packages/engine/src/llm-budget.ts:454-480 | A concrete charge that is billed to the run and missing from the agent's day. |
| Budget.DaysMatchBills | packages/engine/src/llm-budget.ts:433-480 | With an observer that returns, an agent's day is the sum of the tokens billed to it in any run. |
| Budget.AgentsAreToldOnce | packages/engine/src/llm-budget.ts:454-480 | With an observer that returns, an agent is told about each of its limits exactly once a day, when it is reached. |
| Budget.AllowanceIsFinal | packages/engine/src/llm-budget.ts:409-416 | Once a day's allowance is used up no later call of the agent on that day is allowed, in any run. |
| Budget.AtTheCeilingOnlyInFlightCallsAreCharged | packages/engine/src/llm-budget.ts:389-408 | From the ceiling on, only calls already in flight are charged, each once. |
| Budget.OvershootIsInFlight | packages/engine/src/llm-budget.ts:205-300 | For any overlap of calls: below the ceiling, or below it at a point after which every charge was to a different call then in flight. |
| Budget.SequentialOvershootIsOneCall | scripts/live-budget-acceptance.ts:147-151 | One call at a time passes the ceiling by less than the cost of one call. |
| Cache.InMemoryLlmResponseCache.Get | packages/engine/src/llm-cache.ts:160-163 | The stored record of a key, normalised. |
| Cache.InMemoryLlmResponseCache.PutRecord | packages/engine/src/llm-cache.ts:165-175 | Stores once; never replaces a record. |
| Cache.CachedLlmProvider.LookUp | packages/engine/src/llm-cache.ts:313-399 | A proposal up to the point where the provider would be asked. |
| Cache.CachedLlmProvider.Receive | packages/engine/src/llm-cache.ts:401-466 | A proposal from the provider's answer on. |
| Cache.LooksUp | packages/engine/src/llm-cache.ts:313-399 | What a proposal finds, read off the records alone: a hit is served only under its own key, so a digest collision is reported and never answered with another response. |
| Cache.LandsAs | packages/engine/src/llm-cache.ts:401-466 | What an answer leads to: when it is stored and served, served without storing, rejected, or refused because another response is stored. |
| Cache.SameKeyExactlyWhen | packages/engine/src/llm-cache.ts:113-129 | Requests share a key exactly when route names, both versions and the request hash agree. |
| Cache.NormalizedExactlyWhen | packages/engine/src/llm-cache.ts:22-44 | Which records can be stored, and that only blanks around names are removed. |
| Cache.TrimIsExact | packages/engine/src/llm-cache.ts:22-29 | Trimming removes the white space at both ends, all of it and nothing else. |
| Cache.NormalizeIdempotent | packages/engine/src/llm-cache.ts:135-150 | Normalising a normal record changes nothing. |
| Cache.CachedRunsAreTransparent | packages/engine/src/llm-cache.ts:313-466 | For a cacheable provider every interleaving of overlapping proposals ends as direct calls would, as long as the key digest confuses no two keys of that run. |
| Cache.TransparentExactlyWhenCacheable | packages/engine/src/llm-cache.ts:313-466 | Which providers can be cached unnoticed in runs without a digest collision, both directions. |
| Cache.ConflictingAnswersShow | packages/engine/src/llm-cache.ts:165-175 | Answers under one key that do not store alike become visible. |
| Cache.UnkeepableShows | packages/engine/src/llm-cache.ts:429-437 | An answer that cannot be stored unchanged becomes visible when asked for twice. |
| Cache.ValidationUndoesCreation | packages/engine/src/llm-cache.ts:206-229 | Validation accepts every created artifact and returns it unchanged. |
| Cache.OnlyCreatedArtifactsValidate | packages/engine/src/llm-cache.ts:218-229 | Whatever validates is a created artifact, and its digest determines it. |
| Cache.CreatedExactlyWhen | packages/engine/src/llm-cache.ts:186-216 | An artifact can be created exactly for a run id and storable records with different hashes, and lists them all in key order. |
| Cache.ValidatesExactlyWhen | packages/engine/src/llm-cache.ts:218-229 | An artifact of storable records validates exactly when its entries are in key order and its digest is theirs. |
| Cache.CreationForgetsOrder | packages/engine/src/llm-cache.ts:186-216 | Artifact and digest do not depend on the order records were supplied in. |
| Cache.RecordedRunsReplay | packages/engine/src/llm-cache.ts:313-466 | Every outcome served in a recorded run, whatever the provider did, can be served from its cache. |
| Cache.ExportedRunsReplay | packages/engine/src/llm-cache.ts:177-229 | Export, reload, replay: each request ever served is answered with the same value, stored model and token counts. |
| Cache.CacheOnlyRunsChangeNothing | packages/engine/src/llm-cache.ts:389-399 | In cache-only mode nothing waits for a provider and no record changes. |
| Household.HouseholdAccounts.CollectLegs | apps/server/src/finance-phase.ts:272-291 | The loop collects the payer legs of an amount. |
| Household.HouseholdAccounts.SettleLocalFoodPurchases | apps/server/src/finance-phase.ts:392-541 | The shopping loop, with its early exits, for any market. |
| Household.HouseholdAccounts.RunHouseholdSettlement | apps/server/src/finance-phase.ts:543-708 | A household's day, category by category. |
| Household.AllocateSpending | packages/engine/src/finance-rules.ts:115-129 | The approval loop. |
| Household.LegsSumToWhatIsThere | apps/server/src/finance-phase.ts:272-291 | Credits sum to the amount or to all positive balances, and overdraw nobody. |
| Household.LegsDrainInOrder | apps/server/src/finance-phase.ts:272-291 | An account is drawn on only once every earlier one is emptied. |
| Household.AffordableQuantity | packages/engine/src/market-rules.ts:117-123 | The largest quantity the budget pays for. |
| Household.ApprovalsFit | packages/engine/src/finance-rules.ts:115-129 | Approvals exceed neither requests nor funds; utilities are all or nothing. |
| Household.CutsAreForced | packages/engine/src/finance-rules.ts:115-129 | A category gets what it asked for unless the earlier ones left less; then it gets what they left, and utilities get nothing. |
| Household.ShoppingSpends | apps/server/src/finance-phase.ts:392-541 | Whatever fills, stockouts and rejections occur, shopping spends at most the budget, exactly as paid. |
| Household.OfferSells | apps/server/src/finance-phase.ts:423-515 | What one offering sells: the largest affordable quantity, or what was in stock, or nothing, depending on what ordering and settling find; and when shopping ends. |
| Household.RefusalsAreSkipped | apps/server/src/finance-phase.ts:423-540 | An offering that refuses for any other reason makes no difference to the later ones. |
| Household.WillingMarketSells | apps/server/src/finance-phase.ts:392-541 | In a market that finds the same at each step the household buys until each offering is sold out or costs more than what is left for the outside world. |
| Household.CategoryIsExact | apps/server/src/finance-phase.ts:602-689 | Local and outside payments of a category sum to its approval; an energy bill is paid exactly when utilities are in service and affordable, stress is recorded exactly when something essential was cut, and only food is bought locally. |
| Household.HouseholdSettlementIsExact | apps/server/src/finance-phase.ts:543-708 | Every category is settled for exactly what was approved, payments are exact, later categories stay funded, no account becomes overdrawn. |
| Memory.DeterministicMemoryStore.RecordMemory | packages/engine/src/memory-store.ts:147-152 | Append and compaction, including what a failure leaves stored. |
| Memory.DeterministicMemoryStore.CompactInto | packages/engine/src/memory-store.ts:242-267 | The summary is added and its sources marked, or nothing changes. |
| Memory.SourcesAreLeastImportant | packages/engine/src/memory-store.ts:188-200 | A compaction takes as many different active memories as needed, listed by time, each of which matters less than any it keeps, or as much and is older. |
| Memory.RecordOutcome | packages/engine/src/memory-store.ts:147-217 | After a record the active memories number one more, or exactly the target; other agents are untouched; failure exactly when a summary would need too many sources. |
| Memory.RecordedAsAsked | packages/engine/src/memory-store.ts:147-217 | The store after any record: the memory as asked, and past the limit one summary with the highest importance of its sources, which now point to it; with more than 256 sources the record stays and the compaction fails. |
| Memory.CompactionAcceptedExactlyWhen | packages/engine/src/memory-store.ts:242-267 | The repository accepts a compaction exactly for a well-formed reflection that names two to 256 active memories of its agent under a new id. |
| Memory.RunsOnlyAppend | packages/engine/src/memory-store.ts:220-267 | In every run memories are never changed, removed or compacted twice. |
| Memory.EveryMemorySurvives | packages/engine/src/memory-store.ts:242-267 | Following `compactedInto` from any memory ends at one active memory of the agent that matters at least as much. |
| Memory.MaximumImportanceIsKept | packages/engine/src/memory-store.ts:188-217 | The highest importance an agent ever recorded is never lost. |
| Memory.WorkingSetIsBoundedExactlyWhen | packages/engine/src/memory-store.ts:188-217 | The cap holds in every run exactly when one summary can name all its sources. |
| Goals.GoalLifecycleEngine.Eligible | packages/engine/src/goal-lifecycle.ts:130-162 | The menu loop. |
| Goals.GoalLifecycleEngine.Activate | packages/engine/src/goal-lifecycle.ts:165-206 | One activation from the current menu, or no change. |
| Goals.ActivatesExactlyWhen | packages/engine/src/goal-lifecycle.ts:165-206 | When one goal is activated, what then changes, and which error each refusal gives. |
| Goals.AdvancesExactly | packages/engine/src/goal-lifecycle.ts:222-263 | Progress is counted in millionths, rounded to the nearest, and reaches its goal from half a millionth below one. |
| Goals.AdvancesExactlyWhen | packages/engine/src/goal-lifecycle.ts:222-233 | When a goal can be moved forward, and which error each refusal gives. |
| Goals.AbandonsExactlyWhen | packages/engine/src/goal-lifecycle.ts:265-297 | Exactly a goal that is not over can be abandoned, and keeps its progress. |
| Goals.GoalLifecycleEngine.ActivateMenu | packages/engine/src/goal-lifecycle.ts:208-220 | The batch, including what a failure part-way leaves. |
| Goals.MenuWithoutFirst | packages/engine/src/goal-lifecycle.ts:130-162 | The menu without its first goal is the menu once that goal is active. |
| Goals.MenuIsExactly | packages/engine/src/goal-lifecycle.ts:115-162 | The menu in its own terms: dormant goals by priority and id, each let in with the entries ahead of it counted as active; a missing goal met a full menu or was refused at its place. |
| Goals.DefaultRuleOpens | packages/engine/src/goal-lifecycle.ts:103-113 | When the default rule lets a goal in: with no active goal, at once, or at ticks 1, 91, 181 and so on, or 1, 31, 61. |
| Goals.DefaultRulesAreAntitone | packages/engine/src/goal-lifecycle.ts:104-113 | The default rule never becomes true by adding an active goal. |
| Goals.BatchActivatesItsMenu | packages/engine/src/goal-lifecycle.ts:208-220 | Under antitone rules a batch never fails and activates exactly its initial menu. |
| Goals.SocialGoalBreaksTheBatch | packages/engine/src/goal-lifecycle.ts:165-220 | For every goal refused while `n` are active and allowed while one more is, a store whose batch activates all of its menu but the last goal and then fails. |
| Goals.BatchNeverFailsExactlyWhen | packages/engine/src/goal-lifecycle.ts:130-220 | Given an unconditional rule and rules blind to names, batches never fail in any store exactly when the rules are antitone below the limit. |
| Goals.ActiveGoalsStayWithinLimit | packages/engine/src/goal-lifecycle.ts:130-297 | Whatever is attempted, active goals never exceed the limit. |
| Goals.GoalsOnlyMoveForward | packages/engine/src/goal-lifecycle.ts:165-297 | In every run goals only move forward from dormant over active to their end; what is over never changes, and progress is never lost. |
| Loans.GenerateAmortizationSchedule | packages/engine/src/amortization.ts:50-103 | The loop yields the closed-form rows. |
| Loans.PrincipalPartsSum | packages/engine/src/amortization.ts:67-102 | Principal parts are within their opening balances and sum to the principal. |
| Loans.RowsFollowEachOther | packages/engine/src/amortization.ts:50-103 | Each row follows from the one before: thirty days later, on what its principal part left, all parts equal but the last. |
| Loans.ScheduledExactlyWhen | packages/engine/src/amortization.ts:50-66 | Which terms have a schedule. |
| Loans.InterestNeverRises | packages/engine/src/amortization.ts:28-43 | Interest never rises from one row to a later one. |
| Loans.RowInterestIsNearest | packages/engine/src/amortization.ts:28-43 | A row's interest is a twelfth of the yearly interest on its opening balance, to the nearest cent and even on ties. |
| Loans.InterestExactlyWhen | packages/engine/src/amortization.ts:28-43 | For which balances and rates there is interest, and which. |
| Loans.InterestErrorIsBounded | packages/engine/src/amortization.ts:28-43 | Total rounded interest is within half a cent per row of balance times rate times 30/360. |
| Loans.YearlyPrincipalMatchesSchedule | packages/engine/src/credit-scoring.ts:28-40 | The closed form equals the first min(12, N) rows of the schedule. |
| Loans.LoanAccount.QuoteTargets | packages/engine/src/loan-collections.ts:48-90 | The quoting loop with its refusals. |
| Loans.QuotedExactlyWhen | packages/engine/src/loan-collections.ts:48-90 | Which instalments can be quoted together, and for how much. |
| Loans.LoanAccount.Process | apps/server/src/persistence/loan-collection-store.ts:182-229 | One due instalment: a miss or a whole-arrears collection, or no change. |
| Loans.MissedExactlyWhen | packages/engine/src/loan-collections.ts:120-145 | When a miss is recorded, and that the third in a row is the default. |
| Loans.LoanLife | packages/engine/src/loan-collections.ts:107-145 | For any cash, in every run that can be processed: outstanding is the uncollected principal, paid off exactly when all is collected, defaulted exactly when three in a row were missed. |
| Loans.CashDecidesEachMonth | apps/server/src/persistence/loan-collection-store.ts:182-262 | In every month of a run the cash decides: with enough for all principal and interest owed so far everything is collected, otherwise the instalment is missed; a finished loan stays as it is. |
| Loans.LoansProcessExactlyWhen | apps/server/src/persistence/loan-collection-store.ts:231-262 | Every run can be processed exactly when there is a cent of principal per month. |
| Cpi.GreatestCommonDivisor | packages/engine/src/economic-indicators.ts:58-67 | Euclid's loop. |
| Cpi.GcdDivides | packages/engine/src/economic-indicators.ts:58-67 | Its result divides both numbers. |
| Cpi.GcdIsGreatest | packages/engine/src/economic-indicators.ts:58-67 | Every common divisor divides it. |
| Cpi.LcmIsCommonMultiple | packages/engine/src/economic-indicators.ts:69-71 | The multiple is divisible by both numbers. |
| Cpi.LcmIsLeast | packages/engine/src/economic-indicators.ts:69-71 | Every common multiple is a multiple of it. |
| Cpi.ComputeCpiIndex | packages/engine/src/economic-indicators.ts:78-126 | The basket loops. |
| Cpi.CommonBaseIsCommonMultiple | packages/engine/src/economic-indicators.ts:91-108 | The running multiple is divisible by every base price seen. |
| Cpi.CommonBaseIsLeast | packages/engine/src/economic-indicators.ts:91-108 | Every common multiple of the base prices is a multiple of it. |
| Cpi.IndexedExactlyWhen | packages/engine/src/economic-indicators.ts:78-114 | Which baskets have an index. |
| Cpi.IndexOverAnyCommonMultiple | packages/engine/src/economic-indicators.ts:115-126 | The index does not depend on which common multiple is used. |
| Cpi.IndexIsExactRationalRounded | packages/engine/src/economic-indicators.ts:73-126 | It is the exact weighted rational, rounded once half-even. |
| Cpi.IndexForgetsOrder | packages/engine/src/economic-indicators.ts:78-126 | It does not depend on the order of the basket. |
| Cpi.UnchangedPricesGiveBaseIndex | packages/engine/src/economic-indicators.ts:73-126 | It is 1000 at base prices. |
| Cpi.IndexIsMonotone | packages/engine/src/economic-indicators.ts:78-126 | It never falls when prices rise. |
| Bus.EventBus.Publish | packages/engine/src/bus.ts:43-67 | A publication makes exactly the calls of draining its event and always leaves the bus at rest, even after an exception. |
| Bus.EventBus.DispatchOne | packages/engine/src/bus.ts:49-57 | The sink, then typed and wildcard handlers in order; publications only join the queue. |
| Bus.FifoIsBreadthFirst | packages/engine/src/bus.ts:43-67 | First-in-first-out dispatch is breadth first, level by level. |
| Bus.DrainIsBreadthFirst | packages/engine/src/bus.ts:43-67 | Each occurrence is sunk before its handlers, and all of them finish before the next one; after a failure the calls are a prefix of that. |
| Bus.TypedHandlersComeFirst | packages/engine/src/bus.ts:49-57 | The calls of one occurrence: sink, handlers of its type, handlers of every type. |
| Bus.DispatchStopsAtThrow | packages/engine/src/bus.ts:49-57 | A dispatch breaks off exactly when the sink or a handler throws, right after that call. |
| Bus.PublicationStopsAtThrow | packages/engine/src/bus.ts:43-67 | A publication fails exactly when something throws on some occurrence of its breadth-first expansion, and ends with that very call. |
| Bus.SinkLogIsBreadthFirst | packages/engine/src/bus.ts:43-67 | The sink log is the breadth-first expansion of the published event. |
| Bus.PublishAll | packages/engine/src/bus.ts:58-66 | After failures, later publications see no leftover event. |
| Waterfall.Allocate | packages/engine/src/insolvency-rules.ts:113-146 | The checks and the pay-out loop. |
| Waterfall.WaterfallIsStrict | packages/engine/src/insolvency-rules.ts:113-146 | Recoveries sum to the pool or all claims; nobody is paid while a claim ahead is short. |
| Waterfall.SeniorClaimsComeFirst | packages/engine/src/insolvency-rules.ts:132-145 | Of two claims the one with the lower seniority number, or registered earlier, or with the smaller id, is paid in full before the other gets a cent. |
| Waterfall.AllocatesExactlyWhen | packages/engine/src/insolvency-rules.ts:113-131 | For which pools and claims there is an allocation. |
| Waterfall.WaterfallForgetsOrder | packages/engine/src/insolvency-rules.ts:132-136 | The input order does not matter. |
| Waterfall.TwoRoundsEqualOne | packages/engine/src/insolvency-rules.ts:137-145 | Two pools in sequence give every claim what one joint pool gives. |
| Cohort.GroupResidents | apps/server/src/agent-lab-cohort.ts:52-58 | Every stratum holds its residents in the order supplied. |
| Cohort.SelectInRounds | apps/server/src/agent-lab-cohort.ts:69-83 | The round-robin loop takes the first members of all rounds, and terminates. |
| Cohort.ResolveAssignments | apps/server/src/agent-lab-cohort.ts:34-93 | The whole resolution, with explicit assignments and errors. |
| Cohort.RoundsRearrange | apps/server/src/agent-lab-cohort.ts:52-83 | All rounds together draw every resident exactly once. |
| Cohort.SelectionSucceedsExactlyWhen | apps/server/src/agent-lab-cohort.ts:84-93 | It succeeds exactly when the size is at most the population, with that many different residents. |
| Cohort.StrataAreBalanced | apps/server/src/agent-lab-cohort.ts:69-83 | Two strata differ by more than one only when the smaller is exhausted. |
| Cohort.StrataAreAttributes | apps/server/src/agent-lab-cohort.ts:21-32 | Residents share a stratum exactly when they agree in the attributes it is made of; codes contain no bar. |
| Cohort.LikeResidentsAreBalanced | apps/server/src/agent-lab-cohort.ts:69-83 | Told in attributes: of two kinds of residents one gets two places fewer only when it is exhausted. |
| Cohort.LastPlacesGoByName | apps/server/src/agent-lab-cohort.ts:67-83 | When the last round is cut short its places go to the strata whose keys come first. |
| Cohort.SmallestHashesAreDrawn | apps/server/src/agent-lab-cohort.ts:59-66 | In a stratum the residents with the smallest seeded hashes are drawn, the id deciding between equal ones. |
| Cohort.AssignedInIdOrder | apps/server/src/agent-lab-cohort.ts:40-93 | The result lists the given or drawn agents in id order, each as often as given or drawn. |
| Cohort.AssignmentsRefusedExactlyWhen | apps/server/src/agent-lab-cohort.ts:40-49 | Given assignments are refused exactly when one names no resident. |
| Cohort.SelectionForgetsOrder | apps/server/src/agent-lab-cohort.ts:34-93 | The order residents are supplied in does not matter. |
| Printers.CsvRoundTrip | apps/server/src/export-generator.ts:109-124 | Reading a document by section 2 of RFC 4180 gives back the text cells exactly when no row is empty. |
| Printers.StringifyIsPrintable | apps/server/src/event-stream.ts:128-131 | Printed JSON is one line, whatever text it embeds. |
| Printers.JsonRoundTrip | apps/server/src/event-stream.ts:128-131 | A JSON reader after RFC 8259 gives back any value that was printed, and stops where it ends. |
| Printers.SseRoundTrip | apps/server/src/event-stream.ts:129-131 | An event source after section 9.2.6 of the WHATWG HTML standard dispatches one message for each frame written, comments or not, and each tells the frame's id, event name and, read as JSON, its data; the last frame's id is kept. |
| Printers.PartialChunkIsSilent | apps/server/src/event-stream.ts:129-131 | A frame that has not arrived completely dispatches nothing and leaves the last event ID alone. |
| Printers.CutStream | apps/server/src/event-stream.ts:129-131 | Cut anywhere, the stream has shown exactly the frames that arrived completely, and the ID to reconnect with is the last one among them. |
| Money.HalfEvenRounds | packages/shared/src/money.ts:56-88 | Within half a unit of the exact quotient, and even on ties. |
| Money.HalfEvenUnique | packages/shared/src/money.ts:56-88 | That determines the result. |
| Money.HalfEvenRatio | packages/shared/src/money.ts:56-88 | Only the ratio matters, not how the fraction is written. |

## Left out

- Persistence, routes, timers, loggers and the tick scheduler: logs and repositories are sequences and maps, and a database transaction is a step that happens or does not.
- The contents of a digest, and the remaining fields of a lifecycle frame: a frame carries the facts its delivery depends on.
- What a simulation tick does: a replayed tick appends arbitrary events, in any number of commits.
- Prompt building and provider adapters: a provider is any answer; of a call record only whether the answer fits it is modelled.
- The order in which message options are listed: lookups are by identity, so a menu is told by what it offers.
- EventStream.StreamConnection.Close: the moment timers are cleared is not modelled.
- Replay.ReplayRun.Fail: the text of a failure is not modelled.
- ConversationPhase.ConversationStore.AppendMessage: the inbox and the decision evidence of a message are not modelled.
- ConversationPhase.ConversationStore.Close: the relationships and memories written on closing are not modelled.
- ConversationPhase.TurnIsSafe: the evidence of a call besides its output tokens is one flag, fitting or not, and token counts are integers.
- Ledger.DoubleEntryLedger.Post: string patterns of ids are not modelled beyond being non-empty, and the request hash is the request itself.
- Budget.InMemoryLlmBudgetController.Record: token totals are unbounded integers, while the source's counters are JavaScript numbers; the administrative setters appear as arbitrary changes of the controls.
- Budget.BudgetedLlmProvider.FinishWithCharge: the receipt of a charge and the fields a fallback echoes are not modelled.
- Cache.CachedLlmProvider.LookUp: the durable telemetry hook, which the in-memory cache does not have, is not modelled.
- Household.AffordableQuantity: a quantity beyond the safe integers, which the source refuses, is not refused here.
- Household.HouseholdAccounts.RunHouseholdSettlement: events, order records and inventory rows are not modelled; the amounts requested per day are inputs.
- Memory.DeterministicMemoryStore.RecordMemory: memory text and references, and retrieval scoring, play no part in what is kept.
- Goals.BatchActivatesItsMenu: rules see other goals only through the number of active ones; record validation is taken as passed.
- Loans.LoanAccount.Process: ledger postings and the write-down are represented by their guards only; an account below its floor cannot occur by `Ledger.FloorsAreKept`.
- Bus.EventBus.Publish: subscribing from inside a handler is not modelled; a handler's behaviour is the finite tree of what it publishes.
- Printers.JsonRoundTrip: a number is its text, and of the escapes only those outside the surrogate range are read.
- Cohort.ResolveAssignments: the controller written into each assignment is not modelled.
- Single-branch policy rules, run lifecycle tables, tariff clamps, news templates, pagination and the payroll splitter: each is read off one function.
