# Incident-repair environment: proofs about its protocols

This project models the parts of the environment in which something has to hold over a whole run, and
proves what has to hold.

- **Settlement.** Commands are accepted into a journal (stages s1, s2, s3) and delivered into effects
  (s4, s5, s6) under three one-shot faults, with retries, worker restarts and redelivery. `Settlement`
  has the tables and store calls, `Flows` the service programs and engine calls, `Ledger` an abstract
  ledger without identifiers, clocks, intents or loops. `RepairInvariant`, `RepairRefinement` and
  `ExactlyOnce` prove that the logical-identity and the intent-outbox repair both implement that ledger
  under every schedule, `FromAnyStore` that both keep exactly-once from any store without duplicates,
  and `OutboxIntents` that the outbox writes its intents ahead of its effects. `Journal` is about what the
  journal keeps under any program at all, `StoreHistory` about what all tables say of the program that
  filled them, and `SaneStore` about what holds of every store that programs fill. `Counting`, `Verdict` and
  `HiddenWorkloads` prove when a workload passes, `SeededHistories` that the public ones pass over the
  incident's own history, and `EngineClock` how far a run moves the clock. `Defects` says exactly when the
  baseline and the too-broad repair go wrong. `Runtime` is the same store and engine as objects with fields
  and loops.
- **Recovery and session.** `Recovery` and `RecoveryRuns` have the audit chain, snapshots, restores and
  recovery proofs, `RecoveryHistory` what proofs and audit rows say of the run, `StateStore` the object.
  `Session`, `SessionRuns` and `SessionEpochs` have the tools of the agent session, the invariant over every
  run, and what the verifier's recovery verdict says about the run that led to it. `SessionHistory` proves
  that the history decides what every tool may do next. `SessionFixture` has runs from the fixture,
  `AgentSession` is the object.
- **Transcript and episode.** `Transcripts` has the authenticated transcript and the verifier's loop.
  `Episodes` and `IncidentEnv` have the online counters, the limits and the verifier's recount,
  `EpisodeLimits` exactly what ends an episode.
- **Smaller cores.** `ToolNames` (provider aliases), `Cycles` (repetition detectors), `EventLog`, `RunRecords`
  and `RecordHistory` with `EvaluationStore` (bounded replay, immutable records), `TraceTokens` (capabilities).

Conventions. A hash or MAC is the constructor of its domain applied to what is hashed: equal digests have
equal content, domains do not meet, and truncated digests count as whole ones. Canonical JSON is
injective and is read back as written. A table is the sequence or map of its rows. Where the program
changes state step by step there is a class whose methods are proved equal to functions on values, and
the theorems are about those functions. What an outside party decides (the agent's program, the gateway,
the clock text, a digest suffix) is a parameter. An operation that is refused changes nothing.

Findings about the code, each with its exact condition:

- The public baseline duplicates at each cutpoint and on every repeat. `Defects.BaselineKeepsOneRowExactly`
  and `Defects.BaselineKeepsOneEffectExactly` say exactly when it does not, for every state and every
  combination of faults. Deduplicating by event alone loses a second logical effect, exactly when the event
  has an effect under another key only (`Defects.BroadDedupKeepsKeyExactly`).
- The intent outbox believes an intent that says completed. It leaves an event without its effect exactly if
  such an intent was in the tables without the effect (`FromAnyStore.DeliveryLeavesExactlyOneEffect`). After a
  restore that never happens (`RepairRefinement.CompletedIntentHasEffect`); over tables another program
  filled it can (`FromAnyStore.ProgramMayClaimMissing`).
- `advance` overwrites the cursor, so a workload whose rows and effects are all right fails if its last
  command was not accepted last (`Verdict.WorkloadVerdict` gives the if and only if,
  `Verdict.ReversedRerunFails` an instance). P1, P2 and P3 list their commands in one fixed order, so over
  any sane store that has no row of their commands a repaired flow meets this on none of them, in whatever
  order and however often they are rerun (`SeededHistories.PublicRunsPass`), the seeded histories included
  (`SeededHistories.SeededPublicRunsPass`). It does meet it when a program deployed before it had journalled
  the last command of P3 ahead of the others (`SeededHistories.ThirdAheadFails`).
- The settings active in the incident allow one attempt (src/event_service_substrate/instance.py:197-223).
  Under them neither repair of the code passes P1 or P2, whose transient fault takes that attempt
  (`SeededHistories.OneAttemptPassesThirdOnly`; exactly when in `Verdict.WorkloadVerdict`).
- Public passes are bound to the settings and not to the code: changing a code file and deploying it
  keeps a session ready to resume (`SessionEpochs.PassesOutliveTheirCode`, exactly when in
  `SessionEpochs.DeployedMayResume`). A run from the fixture gets there
  (`SessionFixture.FixtureResumesUnseenCode`).
- Notes after the transcript header are not authenticated, and dropping the tail of the audit chain goes
  unnoticed without its head hash (`Transcripts.AcceptedExactly`, `Recovery.TruncationStaysValid`).
- The limit check is skipped on a terminating step and when the step budget is used up; an episode may
  then be over its limits (`Episodes.TerminatingStepMayOvershoot`, exactly when in
  `Episodes.EndingDecidesBounds`). A step that raises uses up the online action limit but is not
  recounted (`Episodes.RaisedStepsAreNotRecounted`).
- The digest of a stored record can be recomputed exactly if its payload does not rename the run, batch
  or creation time (`RunRecords.RecomputedExactly`, `RunRecords.FinishedExactly`).
- The module describes terminal records as digested. The store's interface lets a progress update end a run
  and so freeze a record without a digest (`RunRecords.ProgressMayFreezeWithoutDigest`);
  `RunRecords.UndigestedExactly` says that nothing else does. Every caller in the repository passes "running"
  (src/evaluation_service/orchestration.py:102 and :111), so no shipped caller gives that input, and under
  theirs a record is terminal exactly if it has a digest (`RunRecords.TerminalMeansDigested`).

## Model

| member | source | states |
|---|---|---|
| FromAnyStore.ExactlyOnceOverEverySchedule | src/agent_surface/runtime.py:183-320 | from any store with at most one row per occurrence and one effect per (event, key), whoever filled it and whatever else is in it, every sequence of accepts, deliveries, direct s5 calls, restarts and newly armed faults under either repair keeps both facts, and the absence of second intents |
| ExactlyOnce.InvariantOverEverySchedule | src/agent_surface/runtime.py:183-320 | from a store that satisfies the whole invariant every schedule keeps it, even when the two repairs alternate |
| ExactlyOnce.RepairImplementsLedger | src/training_ground/policies.py:8-62 | under either repair each engine call keeps the invariant, answers as the abstract ledger answers, and moves the meaning of the tables by exactly the ledger's step |
| ExactlyOnce.TwoRepairsOneMeaning | src/training_ground/policies.py:8-62 | from states with one meaning, the two repairs give the same replies to every schedule and end with one meaning (accepted pairs with payloads, settled pairs, attempts, cursor) |
| ExactlyOnce.RestoredIsSound | src/event_service_substrate/store.py:514-595 | the tables a restore of the initial snapshot leaves satisfy the invariant at any clock and with any faults armed |
| FromAnyStore.DeliveryLeavesExactlyOneEffect | src/agent_surface/runtime.py:556-582 | from any store without two effects under one key, a delivery that returns leaves the cursor at its sequence, and exactly one settlement effect, the one it names, if and only if it did not run the outbox into an intent that claims an effect that is not there; under the logical identity it always does |
| FromAnyStore.ProgramMayClaimMissing | src/agent_surface/runtime.py:378-424 | a program that opens an intent and completes it without settling leaves such an intent |
| ExactlyOnce.SoundDeliveryLeavesExactlyOneEffect | src/agent_surface/runtime.py:556-582 | under the invariant no intent makes such a claim, so either repair leaves exactly one effect |
| FromAnyStore.DeliveryReturnsExactlyWhen | src/agent_surface/runtime.py:556-582 | from any store whose generated ids are of the past, whatever duplicates, claims and amounts it holds, a delivery of a journalled event returns if and only if the budget is at least 1 and, when the transient fault is going to fire, retry is on and the budget at least 2; then the cursor is at its sequence and the missing effect, if one was missing, is added; otherwise it is refused and the effects stay as they were |
| ExactlyOnce.SoundDeliveryReturnsExactlyWhen | src/agent_surface/runtime.py:556-582 | under the invariant that condition is the same for both repairs, and a refused delivery leaves the settled pairs as they were |
| ExactlyOnce.CountIsOne | src/agent_surface/runtime.py:1261-1281 | under the invariant the number of effects of an event and key is one if the lookup finds one and zero otherwise |
| OutboxIntents.OutboxNeverSkipsIntent | src/training_ground/policies.py:52-60 | over every schedule under the intent outbox, every effect in the table has its intent |
| OutboxIntents.DeliveryFulfilsIntent | src/training_ground/policies.py:38-60 | a delivery that returns, through deferrals, cuts and restarts, leaves the settlement intent completed with the effect it returns |
| OutboxIntents.OutboxWritesAhead | src/training_ground/policies.py:38-60 | one outbox stage writes its intent before its effect, and if it returns the intent is completed with that effect |
| RepairRefinement.AcceptCommandRefines | src/agent_surface/runtime.py:539-554 | accepting under a repair, with the retry after a cut, does on the tables what one ledger step does, whether or not the occurrence is known |
| RepairRefinement.RepairedS5Emits | src/training_ground/policies.py:38-62 | either repaired s5 settles an event under a key at most once, defers once when the transient fault fires, and returns the id of the effect that stands |
| RepairRefinement.CompletedIntentHasEffect | src/training_ground/policies.py:47-49 | a completed intent always has its effect, so the branch for a completed intent without one is never taken |
| RepairRefinement.DeliverEventRefines | src/agent_surface/runtime.py:556-582 | the delivery loop, restarts and attempt resets included, does in one ledger step what its closed form says |
| RepairInvariant.LedgerIsUnique | src/agent_surface/runtime.py:322-376 | the tables determine the ledger they represent |
| Journal.AnyFlowKeepsJournalConsistent | src/agent_surface/runtime.py:86-230 | after any sequence of store calls, snapshots and restores, all rows of one command occurrence share a payload hash, seqs run 1, 2, 3, accepted ticks ascend with them and event ids are distinct, in the tables and in every held snapshot |
| Journal.AnyFlowKeepsAcceptedRows | src/agent_surface/runtime.py:183-213 | no store call rewrites or drops an accepted row, and the clock never goes back |
| Journal.AppendAddsNextRow | src/agent_surface/runtime.py:183-213 | from a consistent journal, append never meets a uniqueness constraint: it refuses a conflicting payload or adds the next row, and a cutpoint comes after the insert |
| Journal.MaxSeqOfGapFree | src/agent_surface/runtime.py:86-90 | the next seq is one more than the number of rows |
| Journal.RestoreKeepsConsistent | src/event_service_substrate/store.py:514-595 | a consistent journal that a restore brings back is consistent under the later clock |
| StoreHistory.LastWriteStands | src/agent_surface/runtime.py:215-230 | after any sequence of store calls, from any state, a binding, a mark, the cursor and the completion of an intent are what the last call that wrote them gave: an occurrence is bound to the id of the last register for it that was not refused |
| StoreHistory.UnwrittenStands | src/agent_surface/runtime.py:215-230 | and what no call wrote is as it was |
| StoreHistory.RegisterBinds | src/agent_surface/runtime.py:215-230 | a register is refused exactly if the first row of its occurrence has another payload; otherwise it binds the occurrence to the id it is given, and every other binding and table stays |
| StoreHistory.AcceptBindsAnswer | src/event_service_substrate/public_template/service/runtime.py:8-13 | under every flow an intake that returns binds the occurrence to the id it answers and leaves every other binding |
| StoreHistory.RetriedIntakeAnswersCutRow | src/agent_surface/runtime.py:539-554 | under every flow a cut and retried intake succeeds and answers the id of the row the cut left, while the id it binds is that of the row the retry came to |
| StoreHistory.BaselineRegistersSecondRow | src/agent_surface/runtime.py:698-702 | so the baseline, cut and retried on a new occurrence, registers the second of its two rows |
| StoreHistory.RowsAreAppended | src/agent_surface/runtime.py:183-213 | from a consistent journal, the journal after any program is the rows of the commands it appended, in order, behind those it found, each with the seq, payload, tick and id of its call |
| StoreHistory.LoadAnswersRow | src/agent_surface/runtime.py:232-253 | loading answers the event of a row of that id, under the settlement key, and refuses exactly when there is none |
| StoreHistory.EffectsAreCommitted | src/agent_surface/runtime.py:255-295 | the effects after any program are the rows it committed, in order, behind those it found: event, occurrence, key, amount 100, tick and id are those of the call |
| StoreHistory.IntentsAreOpened | src/agent_surface/runtime.py:378-424 | the intents after any program are the rows it opened, in order, with the columns of their events; only their completion ever changes |
| StoreHistory.IntentsKeepColumns | src/agent_surface/runtime.py:418-424 | and the intents that were there keep their columns |
| StoreHistory.IdsStayUnique | src/event_service_substrate/store.py:44-92 | from any state that meets them, sane or not, every program keeps the uniqueness of event, effect and intent ids |
| StoreHistory.RaisesExactly | src/agent_surface/runtime.py:183-416 | a uniqueness constraint raises exactly if the id that the call generates is in its table already |
| StoreHistory.CallTicks | src/agent_surface/runtime.py:86-320 | every store call moves the clock by one, refused or not |
| StoreHistory.CallCountsAttempts | src/agent_surface/runtime.py:255-320 | the attempts of an event are its settles since the last restart or start of a run, whatever came of them |
| StoreHistory.CallSpendsFaults | src/agent_surface/runtime.py:255-295 | each fault fires once and by itself: the s2 cutpoint at the next append that inserts, the transient fault at the next first attempt at an event, the s5 cutpoint at the next settle that commits |
| StoreHistory.EffectByKeyIsFirst | src/agent_surface/runtime.py:366-376 | the lookup by event and key finds the earliest effect |
| StoreHistory.EffectOfIsFirst | src/agent_surface/runtime.py:354-364 | the lookup by event finds the earliest effect |
| StoreHistory.RowOfIsFirst | src/agent_surface/runtime.py:232-243 | the lookup by event id finds the first row |
| StoreHistory.FirstRowIsFirst | src/agent_surface/runtime.py:157-168 | the lookup by occurrence finds the first row |
| StoreHistory.LatestIntentIsLast | src/agent_surface/runtime.py:439-464 | the lookup of an intent finds the last one |
| Settlement.FirstRow | src/agent_surface/runtime.py:157-168 | finds a row of the command occurrence if there is one and none otherwise |
| Settlement.RowOf | src/agent_surface/runtime.py:232-243 | finds the row of an event id if there is one and none otherwise |
| Settlement.EffectByKey | src/agent_surface/runtime.py:366-376 | finds an effect of the event under the key if there is one and none otherwise |
| Settlement.EffectOf | src/agent_surface/runtime.py:354-364 | finds an effect of the event under any key if there is one and none otherwise |
| Settlement.LatestIntent | src/agent_surface/runtime.py:439-464 | finds an intent of the event and key if there is one and none otherwise |
| Settlement.Settle | src/agent_surface/runtime.py:255-295 | spends the s5 cutpoint exactly when it cuts, and never the s2 cutpoint: the reason why the delivery loop ends |
| Flows.Deliver | src/event_service_substrate/public_template/service/runtime.py:16-21 | stages s4, s5, s6 in order, with the same account of the cutpoints |
| Counting.PassMeansExactlyOneEach | src/agent_surface/runtime.py:1172-1259 | when every command has a row and every such event an effect, the counted totals pass if and only if each has exactly one, every amount is 100 and the cursor has reached every seq in scope |
| SaneStore.AnyProgramKeepsSane | src/agent_surface/runtime.py:86-437 | whatever store calls a program makes, as long as it names no event of the future, a sane store stays sane: consistent journal, no id, effect or completed intent from the future, and intents whose id names their own event |
| SaneStore.InvIsSane | src/agent_surface/runtime.py:322-376 | the invariant of the repairs is one way of being sane |
| SaneStore.AcceptExactly | src/agent_surface/runtime.py:539-554 | over any consistent journal accepting under a repair, with the retry after a cut, returns the id of the known row, refuses another payload, or adds the next row under an id not seen before; it changes no other table but the registration |
| SaneStore.DeliveryKeepsSane | src/agent_surface/runtime.py:556-582 | a delivery keeps a store sane and leaves the journal and the intents of all other events alone |
| Verdict.IntakeDecides | src/agent_surface/runtime.py:618-625 | over any sane store intake refuses exactly if a listed command is known with another payload, and otherwise gives every new command its one row, in the order of the list, and every known one the row it had |
| Verdict.WorkloadVerdict | src/agent_surface/runtime.py:587-659 | over any sane store and under a repair: a workload is refused if and only if a listed command is known with another payload, or there is no attempt at all, or the transient fault is armed, an effect is missing and the budget is 1; otherwise it passes if and only if each listed command had at most one row, at most one effect for it, the right one, and the last command listed is journalled last. Whenever rows and effects are right, each command ends with one row and one effect and no other command is disturbed. Under the outbox no intent may claim a missing effect of a listed command |
| Verdict.FreshWorkloadPassesTwice | src/agent_surface/runtime.py:587-659 | over any sane store, with one attempt, or two if the transient fault is armed, a list of new, pairwise distinct commands passes, and the same list passes when rerun, under either repair and any faults |
| Verdict.FixedListsAlwaysPass | src/agent_surface/runtime.py:587-659 | over any sane store, lists with a fixed order each and no command in two of them, new at the start or standing in their order, pass every time, run in any order and any number of times, under either repair and any faults |
| SeededHistories.SeededIsSane | src/event_service_substrate/instance.py:248-316 | the seeded history of either profile is sane and does not satisfy the invariant of the repairs: one has two effects under one key, the other two rows for one occurrence |
| SeededHistories.PublicRunsPass | src/agent_surface/runtime.py:587-659 | P1, P2 and P3 with the commands the engine lists, over any sane store without a row of theirs, pass every time, in any order and number, under either repair |
| SeededHistories.SeededPublicRunsPass | src/event_service_substrate/instance.py:248-316 | so they do over the seeded history of either profile, with no restore before them |
| SeededHistories.ThirdAheadFails | src/agent_surface/runtime.py:605-616 | the failing side: P3 fails over such a store in which some program journalled its last command ahead of the others |
| SeededHistories.OneAttemptPassesThirdOnly | src/agent_surface/runtime.py:48-72 | with the one attempt of the settings active in the incident a repaired flow passes P3 and is refused on P1 and P2, over any sane store without a row of theirs |
| EngineClock.DeliveryTakes | src/agent_surface/runtime.py:556-582 | the exact number of ticks of a delivery under the logical identity, answered or refused, through deferral, cut and restart |
| EngineClock.RunTakes | src/agent_surface/runtime.py:587-659 | over any sane store a run of new commands without cutpoints takes nine ticks for each, and three more when the transient fault defers one |
| EngineClock.PublicRunTakes | src/agent_surface/runtime.py:587-659 | so P1 and P2 take twelve ticks with two attempts, and P3 twenty-seven |
| Verdict.ReorderedRerunPassesExactly | src/agent_surface/runtime.py:587-659 | over any sane store, rerunning new commands in any order leaves each its one row and one effect, and passes if and only if it ends with the command the first run ended with |
| Verdict.ReversedRerunFails | src/agent_surface/runtime.py:297-303 | an instance: two commands pass, and run the other way round they fail |
| Verdict.LastJournalledAheadFails | src/agent_surface/runtime.py:605-616 | a list in its fixed order fails under a repaired flow, with every row and effect right, when another program has journalled its last command ahead of the rest |
| Verdict.OutcomeExactly | src/agent_surface/runtime.py:1172-1259 | when every listed command has a row and its event an effect, the outcome passes if and only if each has one row and one effect of amount 100 and the cursor has reached them all |
| Verdict.DeliverAllHands | src/agent_surface/runtime.py:587-659 | over any sane store, delivering a list of journalled events is refused exactly if there is no attempt at all or a single one that the fault takes, and otherwise adds to each the settlement effect it lacks, nothing to any other, keeps the journal, and leaves the cursor at the last |
| HiddenWorkloads.RepeatedOccurrencePasses | src/agent_surface/runtime.py:736-1164 | a new occurrence accepted and then accepted, delivered and restarted in any order and number, under any faults the effort covers: every call succeeds, it gets one row, and its event one effect if it was delivered and none otherwise (the shape of H-A1, H-A4, H-B1, H-B2, H-S2, H-S3 and H-TRANS) |
| HiddenWorkloads.SeveralKeysSeveralEffects | src/agent_surface/runtime.py:865-904 | emitting under any list of keys, repeats included, leaves exactly the keys the event had and those of the list, and as many effects as keys (the shape of H-A3) |
| HiddenWorkloads.EffectsAreKeys | src/agent_surface/runtime.py:1261-1281 | under the invariant the number of effects of an event is the number of its keys |
| HiddenWorkloads.ConflictIsRefused | src/agent_surface/runtime.py:932-969 | under any flow an occurrence offered again with another payload is refused and the tables stay as they were (H-B3) |
| Defects.BaselineAddsARow | src/event_service_substrate/public_template/service/flow.py:17-29 | under the baseline every accept adds a row for its occurrence, cut or not |
| Defects.BaselineAcceptsExactly | src/event_service_substrate/public_template/service/flow.py:17-29 | an intake under the baseline is refused exactly on another payload, and otherwise adds one row, or two if it is cut and retried |
| Defects.BaselineKeepsOneRowExactly | src/event_service_substrate/public_template/service/flow.py:22-24 | it keeps at most one row for the occurrence if and only if it refuses the payload, or the occurrence is new and not both cut and retried |
| Defects.BaselineGivesNewOneRowExactly | src/event_service_substrate/public_template/service/flow.py:22-24 | a new occurrence gets exactly one row if and only if it is not both cut and retried |
| Defects.BaselineDuplicatesOnRetry | src/event_service_substrate/public_template/service/flow.py:22-24 | the failing side: a cut intake with its client retry leaves a new occurrence with two rows |
| Defects.BaselineAddsAnEffect | src/event_service_substrate/public_template/service/flow.py:37-39 | under the baseline every delivery that is not deferred adds a settlement effect |
| Defects.BaselineDeliversExactly | src/agent_surface/runtime.py:556-582 | for every state, budget and combination of faults, when a delivery under the baseline returns and how many settlement effects it adds |
| Defects.BaselineKeepsOneEffectExactly | src/event_service_substrate/public_template/service/flow.py:37-39 | a delivery under the baseline that returns leaves exactly one settlement effect if and only if the event had none and the worker is not cut after the insert |
| Defects.BaselineDuplicatesOnRestart | src/event_service_substrate/public_template/service/flow.py:37-39 | the failing side: a worker cut after the effect insert settles an unsettled event twice |
| Defects.BroadDedupKeepsKeyExactly | src/training_ground/policies.py:85-87 | under the broad repair a call that returns leaves an effect under its key if and only if there was one or the event had no effect at all |
| Defects.BroadDedupLosesSecondKey | src/training_ground/policies.py:85-87 | the failing side: once an event has any effect, another key is answered without its effect |
| Runtime.RuntimeStore.constructor | src/agent_surface/runtime.py:48-72 | arms the s2 cutpoint for profile 1, the s5 cutpoint for profile 0 and the transient fault only without a cutpoint, so never two of s5 and another |
| Runtime.RuntimeStore.Append | src/agent_surface/runtime.py:183-213 | refines the specified append, whose properties are Journal.AppendAddsNextRow and Journal.AnyFlowKeepsJournalConsistent |
| Runtime.RuntimeStore.Register | src/agent_surface/runtime.py:215-230 | refines the specified register, and binds the occurrence to the id it is given, or changes no table |
| Runtime.RuntimeStore.Load | src/agent_surface/runtime.py:232-253 | refines the specified load: refuses an event that Settlement.RowOf does not find |
| Runtime.RuntimeStore.Settle | src/agent_surface/runtime.py:255-295 | refines the specified settle, whose faults are accounted for in Settlement.Settle |
| Runtime.RuntimeStore.AdvanceCursor | src/agent_surface/runtime.py:297-313 | refines the cursor update; that it overwrites is what Verdict.ReversedRerunFails turns on |
| Runtime.RuntimeStore.Restart | src/agent_surface/runtime.py:315-320 | refines the restart: clears the attempt counters and keeps every table |
| Runtime.RuntimeStore.IntentCreate | src/agent_surface/runtime.py:378-416 | refines the specified creation, whose property is OutboxIntents.OutboxWritesAhead |
| Runtime.RuntimeStore.IntentComplete | src/agent_surface/runtime.py:418-424 | refines the specified completion, whose property is OutboxIntents.DeliveryFulfilsIntent |
| Runtime.RuntimeStore.MarkEvent | src/agent_surface/runtime.py:426-437 | refines the setting of one mark |
| Runtime.RunS2 | src/training_ground/policies.py:12-14 | refines the s2 stage of every flow, whose properties are RepairRefinement.AcceptCommandRefines and Defects.BaselineAcceptsExactly |
| Runtime.RunOutbox | src/training_ground/policies.py:38-60 | refines the intent-outbox s5 stage, whose property is OutboxIntents.OutboxWritesAhead |
| Runtime.RunS5 | src/training_ground/policies.py:20-23 | refines the s5 stage of every flow, whose properties are RepairRefinement.RepairedS5Emits and Defects.BroadDedupKeepsKeyExactly |
| Runtime.RunAccept | src/event_service_substrate/public_template/service/runtime.py:8-13 | refines s1, s2, s3 in order, stopping at the first that raises |
| Runtime.RunDeliver | src/event_service_substrate/public_template/service/runtime.py:16-21 | refines s4, s5, s6 in order, stopping at the first that raises |
| Runtime.RuntimeEngine.AcceptCommand | src/agent_surface/runtime.py:539-554 | retries once after a cutpoint and returns the id of the row the cut left; under a repair it keeps one row per occurrence in any store |
| Runtime.RuntimeEngine.DeliverEvent | src/agent_surface/runtime.py:556-582 | the loop ends, by armed cutpoints and then remaining attempts, and does what the specified delivery does; under the logical identity, when it returns, the event has exactly one settlement effect and the cursor is at its sequence |
| Runtime.RuntimeEngine.RunPublicWorkload | src/agent_surface/runtime.py:587-659 | the two loops and the outcome check do what the specified workload does; over a sane store that knows none of them, distinct commands pass under a repaired flow with attempts enough for the fault |
| Runtime.RuntimeEngine.DeliverOne | src/agent_surface/runtime.py:627-643 | refines one delivery of the workload, with the clock moves of its log lines |
| Recovery.RebuildGivesBack | src/event_service_substrate/store.py:533-560 | deleting all service rows and inserting a document gives back exactly the tables it was taken from |
| Recovery.DocumentIsInjective | src/event_service_substrate/store.py:315-321 | the service document determines the tables |
| Recovery.AppendKeepsChain | src/event_service_substrate/store.py:379-418 | every appended audit entry extends a valid chain to a valid chain |
| Recovery.SameHeadSameChain | src/event_service_substrate/store.py:379-443 | two valid chains with the same last entry hash are equal row by row |
| Recovery.TruncationStaysValid | src/event_service_substrate/store.py:420-443 | every prefix of a valid chain is valid |
| RecoveryRuns.RunKeeps | src/event_service_substrate/store.py:379-595 | every run of mutations, audits, snapshots, pauses, resumes and restores keeps the store invariant and every audit row, snapshot and proof |
| RecoveryRuns.RestoreBringsBackSnapshot | src/event_service_substrate/store.py:514-595 | with intake paused, restoring a held snapshot succeeds, gives back exactly its tables, and leaves the recovery valid |
| RecoveryRuns.SnapshotSurvivesAnyRun | src/event_service_substrate/store.py:445-595 | a snapshot taken before any run and restored after it gives back the tables of its moment, so the root mismatch never arises |
| RecoveryRuns.ProvenanceMeansRestored | src/event_service_substrate/store.py:667-736 | in every state of every run provenance exists if and only if it did at the start or some restore of the run succeeded |
| RecoveryRuns.ProvenanceMeansProof | src/event_service_substrate/store.py:667-736 | on a reachable store provenance exists if and only if there is a proof row |
| RecoveryRuns.SoundProofChecks | src/event_service_substrate/store.py:597-665 | a proof left by a restore passes the checks of tag, snapshot, audit entry and prior audit root in every later state |
| RecoveryRuns.ProvenanceIsTamperEvident | src/event_service_substrate/store.py:667-736 | any store at all that passes the provenance check with the tag of a genuine proof on its last proof has that proof, the genuine audit rows up to the restore, and the genuine snapshot payload |
| RecoveryRuns.ValidRecoveryIsTamperEvident | src/event_service_substrate/store.py:597-665 | if it passes the stronger check, its tables are exactly the snapshot's and its audit ends with the restore |
| RecoveryRuns.SnapshotIsTamperEvident | src/event_service_substrate/store.py:482-502 | two valid snapshots with one tag have one id, payload, root and tick |
| RecoveryHistory.EveryRestoreIsProved | src/event_service_substrate/store.py:528-590 | over every run a restore that succeeds leaves, for good, a proof with the roots of the tables right before and right after it, the audit root before it, its snapshot, tick and actor, and the seq and hash of the audit row it wrote |
| RecoveryHistory.EveryProofIsOfRestore | src/event_service_substrate/store.py:514-595 | and every proof the run added is that of one of its restores |
| RecoveryHistory.EveryActionIsAudited | src/event_service_substrate/store.py:379-512 | over every run each snapshot, pause, resume, restore and explicit audit that is carried out leaves one row with its kind, actor, tick and the root of the tables it left, and a refused one leaves none |
| RecoveryHistory.ActionMoves | src/event_service_substrate/store.py:504-595 | what each action does to intake, clock and tables; one that is refused changes nothing |
| RecoveryHistory.SnapshotTells | src/event_service_substrate/store.py:445-480 | a snapshot is held with the tables, root, tick and tag of its moment, and no other changes |
| RecoveryHistory.RestoreGuards | src/event_service_substrate/store.py:514-560 | a restore over any store at all, tampered ones included: which error for open intake or a broken chain, which for a snapshot that is not genuine, and that success leaves tables with the root of the snapshot |
| RecoveryHistory.ProvenanceAgrees | src/event_service_substrate/store.py:667-736 | in any store that passes the provenance check an audit row agrees with the last proof in kind, root, actor, hash and tick |
| StateStore.StateStore.constructor | src/event_service_substrate/store.py:176-186 | a fresh store satisfies the invariant; it holds the settlement cursor at 0 and no other row |
| StateStore.StateStore.AppendEntry | src/event_service_substrate/store.py:379-418 | appends the specified entry and returns its hash |
| StateStore.StateStore.AuditChainValid | src/event_service_substrate/store.py:420-443 | the forward walk decides validity of the chain |
| StateStore.StateStore.TakeSnapshot | src/event_service_substrate/store.py:445-480 | takes the specified snapshot once per id |
| StateStore.StateStore.PauseService | src/event_service_substrate/store.py:504-512 | pauses open intake and refuses otherwise |
| StateStore.StateStore.ClearTables | src/event_service_substrate/store.py:533-545 | empties every service table |
| StateStore.StateStore.InsertDocument | src/event_service_substrate/store.py:545-560 | inserts the rows of a document table by table |
| StateStore.StateStore.RestoreFrom | src/event_service_substrate/store.py:514-595 | on a valid store it succeeds if and only if intake is paused and the snapshot is held, and then the recovery is valid and the new proof tells the tables right before and right after; a failure leaves everything as it was |
| Session.ToolKeepsInvariant | src/agent_surface/session.py:468-626 | every tool keeps exactly one deployment active, with the code and settings roots of the active workspace |
| Session.RolledBackIsActive | src/agent_surface/session.py:513-551 | after a rollback exactly that revision is active and matches the rebuilt workspace |
| Session.DeployedIsActive | src/agent_surface/session.py:553-605 | after a deploy exactly the candidate is active and matches the workspace |
| SessionFixture.FixtureIsInitial | src/event_service_substrate/instance.py:197-340 | a session over any fixture, whatever history it was seeded with, meets the premises of the whole-run theorems and holds S0 |
| SessionFixture.RepairReachesResume | src/agent_surface/session.py:468-626 | from it, pause, restore S0, edit of any code file, deploy and passing P1, P2, P3 end ready to resume |
| SessionFixture.FixtureRunIsAuthenticated | src/strict_verifier/verifier.py:241-260 | that run, resumed, is one the verifier finds authenticated |
| SessionFixture.FixtureResumesUnseenCode | src/agent_surface/session.py:489-493 | after it, any further change of any code file can be deployed and resumed at once, under a code root no pass was earned with |
| SessionRuns.SessionSafety | src/agent_surface/session.py:206-246 | in every state of every run one revision is active and is the one in the workspace, and after the first pause intake is open if and only if the incident is reported closed |
| SessionRuns.PauseOpensResumeCloses | src/agent_surface/session.py:206-218 | a pause makes the incident open, a resume makes it closed, and from paused intake nothing but a resume does |
| SessionRuns.EveryResumeIsEarned | src/agent_surface/session.py:607-626 | before every successful resume the run deployed what is resumed, with no later deploy or rollback, and passed P1, P2 and P3 under its settings with no later restore under them |
| SessionRuns.AuthenticatedExactly | src/strict_verifier/verifier.py:241-260 | on a reachable store the verifier finds the recovery authenticated if and only if intake is open and S0 was restored at some time |
| SessionRuns.AuthenticatedRecoveryIsEarned | src/strict_verifier/verifier.py:241-260 | if it does, the run paused, later restored S0, and later still made a resume that was earned in that sense |
| SessionRuns.LastProofOf | src/strict_verifier/integrity.py:19-45 | finds a restore proof of the snapshot if there is one |
| SessionRuns.LastProofIsLast | src/strict_verifier/integrity.py:19-45 | and it is the last one |
| SessionHistory.PassesExactly | src/agent_surface/session.py:468-511 | over every run the passes recorded under some settings are exactly the public workloads that passed under them with no restore under them since; no failed run, rollback, deploy, resume or restore under other settings drops one |
| SessionHistory.ResumeExactly | src/agent_surface/session.py:607-626 | after every run a resume succeeds if and only if the session was not closed, a pause stands, some restore succeeded, and a deployment stands whose settings have the three passes standing |
| SessionHistory.ToolSucceedsExactly | src/agent_surface/session.py:258-626 | for every other tool too, exactly when it succeeds in terms of the history, the snapshots held and the two workspaces |
| SessionHistory.ClosedExactly | src/agent_surface/session.py:206-218 | the incident is reported closed if and only if no pause stands and the three passes stand under the active settings, so never before the first pause |
| SessionHistory.LastEditStands | src/agent_surface/session.py:258-267 | the candidate holds in each file what the last edit of it wrote, whatever was run, restored, rolled back or deployed |
| SessionHistory.UneditedStands | src/agent_surface/session.py:258-267 | and a file no edit wrote is as it was |
| SessionHistory.LastActivationStands | src/agent_surface/session.py:513-605 | the active workspace is that of the last activation: the candidate as it was deployed, or the initial workspace under the settings the revision has had from the start |
| SessionHistory.DeployActivates | src/agent_surface/session.py:553-605 | a deploy activates the candidate with its roots, settings and tick, makes every other revision available, writes one audit row over the new deployments, and leaves tables, passes and candidate alone |
| SessionHistory.RollbackActivates | src/agent_surface/session.py:513-551 | the same for a rollback, to the initial workspace under the settings of its revision |
| SessionHistory.ToolMovesPasses | src/agent_surface/session.py:468-511 | one call at a time, what each tool does to the passes of any settings |
| SessionHistory.ToolMovesStore | src/agent_surface/session.py:468-626 | a run leaves the tables and the clock the program left, a restore does what the substrate does, every other tool keeps the tables, and none touches the snapshots |
| SessionEpochs.EpochCounts | src/agent_surface/session.py:113-114 | the trace epoch is the number of restores, rollbacks, deploys, resumes and closes |
| SessionEpochs.EpochStandsUntilEnded | src/agent_surface/session.py:113-114 | the epoch never decreases and is the same at two moments if and only if none of these came between |
| SessionEpochs.DeployedMayResume | src/agent_surface/session.py:607-616 | after a deploy a resume is allowed if and only if a restore left its proof and the three workloads passed under the deployed settings |
| SessionEpochs.PassesOutliveTheirCode | src/agent_surface/session.py:489-493 | from a state ready to resume, deploying any change of one code file leaves a state ready to resume with another code root |
| AgentSession.AgentSession.WorkspaceEdit | src/agent_surface/session.py:258-267 | edits the candidate workspace only |
| AgentSession.AgentSession.RuntimeRun | src/agent_surface/session.py:468-493 | records a pass under the settings active when the run began, for the three public workloads only |
| AgentSession.AgentSession.RecoveryPause | src/agent_surface/session.py:495-500 | moves the session as the specified tool |
| AgentSession.AgentSession.RecoveryRestore | src/agent_surface/session.py:502-511 | moves the session as the specified tool and drops the passes of the active settings, and of no others |
| AgentSession.AgentSession.ReleaseRollback | src/agent_surface/session.py:513-551 | moves the session as the specified tool |
| AgentSession.AgentSession.ReleaseDeploy | src/agent_surface/session.py:553-605 | moves the session as the specified tool |
| AgentSession.AgentSession.RecoveryResume | src/agent_surface/session.py:607-626 | moves the session as the specified tool |
| AgentSession.AgentSession.CloseSession | src/agent_surface/session.py:78-82 | ends the epoch once |
| Transcripts.VerifyTranscript | src/training_ground/transcripts.py:125-226 | the loop accepts exactly the lists whose header names the episode, whose steps chain from genesis, and whose digest and chain tag fit |
| Transcripts.RecordedIsAccepted | src/training_ground/transcripts.py:45-122 | every sequence of added steps and notes gives a transcript that is accepted |
| Transcripts.SameTagSameSteps | src/training_ground/transcripts.py:97-108 | two accepted transcripts with the same chain tag have the same identity, key and steps |
| Transcripts.SameEndSameBodies | src/training_ground/transcripts.py:166-206 | even without the list digest, two chains that end in the same step digest agree body by body |
| Transcripts.AcceptedExactly | src/training_ground/transcripts.py:125-226 | under a recorded header, entries are accepted if and only if their steps are the recorded steps |
| Transcripts.OnlyStepsMatter | src/training_ground/transcripts.py:154-156 | acceptance depends on the header and the step subsequence alone |
| Transcripts.AcceptedNamesEpisode | src/training_ground/transcripts.py:166-206 | every step of an accepted transcript names the session, instance, split, seed and profile, carries a tag under the key and the digest of the step before it |
| Transcripts.AcceptedIsWellRecorded | src/training_ground/transcripts.py:93-122 | the list of a record is accepted if and only if its steps are chained and it carries the digest of the last |
| Transcripts.DigestFixesKey | src/training_ground/transcripts.py:75-88 | a step digest covers the tag with the body: equal digests mean the same body and the same key |
| Transcripts.Transcript.RecordStep | src/training_ground/transcripts.py:45-88 | appends the sealed step and moves the previous digest |
| Transcripts.Transcript.RecordMeta | src/training_ground/transcripts.py:90-91 | appends a note and leaves the chain |
| Episodes.RecountAgrees | src/strict_verifier/verifier.py:158-196 | over every run since a reset the transcript is accepted, its bytes are the online bytes, its steps plus the raised ones are the action count, and before the end both are within limits |
| Episodes.StepsMarkTheEnd | src/training_ground/episode.py:255-276 | over every run the steps number themselves in increasing order, without a gap when none raised, and exactly the step that ended the episode says terminated or truncated |
| Episodes.StepSaysWhatHappened | src/training_ground/episode.py:255-268 | the recorded step carries the sequence, action count, tick, tool, digests of arguments and result, code, flags and request and response bytes of the call |
| Episodes.EndingDecidesBounds | src/training_ground/episode.py:228-244 | for each way a step can end, whether the resources count as bounded |
| Episodes.TruncationIsUnbounded | src/training_ground/limits.py:18-30 | with no raised step, truncation for the action or byte limit makes the resource verdict false |
| EpisodeLimits.StepEndsExactly | src/training_ground/episode.py:228-276 | a step ends its episode if and only if the gateway is lost, release.status reports the incident closed, the step budget is used up, or the actions, the bytes or the fake clock are over their limit; the recorded flags and the grade say which |
| EpisodeLimits.EndsAs | src/training_ground/limits.py:18-30 | as what it ends, each reason exactly when it holds and none before it does |
| EpisodeLimits.StepsAreWithinLimits | src/training_ground/episode.py:228-244 | over every run since a reset the fake clock, the actions, the step budget and the bytes so far are within their limits in every step before the one that ended the episode, and that one shows why it did |
| Episodes.GradedExactly | src/strict_verifier/verifier.py:158-196 | the grade of any record: authentic exactly if it is chained, with the number of its steps, bounded exactly if they are within the limits |
| Episodes.GradeTellsRun | src/training_ground/episode.py:278-297 | the first grade of a connected episode is authentic, counts the actions less those that raised, and is bounded exactly if these and the bytes are within their limits |
| Episodes.ClosedIsFrozen | src/training_ground/episode.py:278-297 | closing disconnects, and after it no step is taken and no grade computed until a reset |
| Episodes.TerminatingStepMayOvershoot | src/training_ground/episode.py:228-231 | a terminating step may go over the byte limit and is graded as unbounded |
| Episodes.RaisedStepsAreNotRecounted | src/training_ground/episode.py:182-184 | a raised step can bring on an action-limit truncation whose recount is bounded |
| Episodes.EndedIsFinal | src/training_ground/episode.py:177-181 | an ended episode is not written to again, and a first grade after the end is the grade of its final transcript |
| Episodes.GradeIsFrozen | src/training_ground/episode.py:278-297 | a grade once computed stays until a reset |
| IncidentEnv.Recount | src/strict_verifier/verifier.py:186-191 | the loop counts the steps and sums their bytes |
| IncidentEnv.IncidentEnv.ResetEpisode | src/training_ground/episode.py:120-169 | starts with zero counters, no grade and a fresh transcript holding the manifest note |
| IncidentEnv.IncidentEnv.TakeStep | src/training_ground/episode.py:171-276 | moves the episode as the specified step, and ends it exactly for the reasons of EpisodeLimits.StepEndsExactly; refused when disconnected or ended |
| IncidentEnv.IncidentEnv.GatewayUnavailableStep | src/training_ground/episode.py:75-118 | counts the bytes, records a truncated step and ends the episode |
| IncidentEnv.IncidentEnv.GradeEpisode | src/training_ground/episode.py:278-297 | computes the verdict on the transcript the first time and keeps it |
| ToolNames.AliasesAreBijective | src/model_runners/tool_conversion.py:19-71 | each listed name comes back from its alias and each alias from its name, aliases are distinct and acceptable, and a name is unchanged if and only if it was acceptable |
| ToolNames.AliasExactly | src/model_runners/tool_conversion.py:45-71 | which alias each name gets: itself if acceptable; else its base, if that is short enough, shared with no other name and free; else the first free probe |
| ToolNames.BaseExactly | src/model_runners/tool_conversion.py:36-41 | the base keeps every acceptable character, replaces every other by an underscore, and has tool_ in front exactly if the name is empty or starts with a digit or hyphen |
| ToolNames.DistinctInOrder | src/model_runners/tool_conversion.py:35-35 | the different names stand in the order in which each comes first |
| ToolNames.SomeProbeIsFree | src/model_runners/tool_conversion.py:58-67 | fewer aliases are taken than there are names, so one of that many different probes is free |
| ToolNames.ProbeForAlias | src/model_runners/tool_conversion.py:58-67 | the probing loop ends within as many attempts as there are names, at the first free one |
| ToolNames.BuildTable | src/model_runners/tool_conversion.py:33-71 | the pass over the distinct names builds the specified table |
| ToolNames.CountBases | src/model_runners/tool_conversion.py:43-43 | counts for each name how many names share its base |
| Cycles.RepeatedReadOnlyCycle | src/evaluation_service/runner.py:69-91 | the shortest length within the bound whose last block stands at the end twice, with the number of times it does, or none if there is no such length |
| Cycles.RepeatedReadOnlyCycleFinding | src/evaluation_service/tool_use_debug.py:324-355 | the same for bound 4, with the sequence of the first call of the repetition |
| Cycles.FoundCountsExactly | src/evaluation_service/runner.py:83-88 | the block stands at the end j times if and only if j is at most the count |
| Cycles.FoundIsPrimitive | src/evaluation_service/runner.py:82-90 | the block found is not a repetition of a shorter one |
| Cycles.FoundIsUnique | src/evaluation_service/runner.py:82-90 | length and count are determined by the calls |
| Cycles.SamePatternSameAnswer | src/evaluation_service/tool_use_debug.py:324-355 | two detectors that tell the same calls apart, by whatever texts, give the same answer |
| Cycles.ReadSuffixIsLongest | src/evaluation_service/runner.py:74-81 | the suffix examined is all reads and cannot be longer |
| Cycles.SameCall | src/evaluation_service/tool_use_debug.py:324-355 | two calls count as the same exactly if tool, arguments and result are |
| Cycles.RepeatedFailures | src/evaluation_service/tool_use_debug.py:254-300 | one pass lists exactly the maximal streaks of two or more identical failures, in order |
| EventLog.RetainedIsSuffix | src/evaluation_service/persistence.py:346-412 | over any interleaving of appends and deletions, what is retained of a scope is a suffix, of at most the replay limit, of its history less deleted runs, and ids ascend |
| EventLog.UntouchedScopeIsFull | src/evaluation_service/persistence.py:482-496 | while no deletion touches a scope, exactly its newest events up to the limit are retained |
| EventLog.TrimKeepsNewest | src/evaluation_service/persistence.py:490-495 | trimming leaves exactly the newest events of its scope and every other scope as it was |
| EventLog.DeletionTakesExactly | src/evaluation_service/persistence.py:367-406 | deleting a run takes its events, the events of its batch that name it, all of the batch when it was the last run, and nothing else |
| EventLog.EventsAfterIsPage | src/evaluation_service/persistence.py:498-503 | what is read past a cursor is in id order and within the limit, all of the scope and past the cursor, and leaves an event out only if the page is full and the event comes after it |
| EventLog.ReaderIsFaithful | src/evaluation_service/api/routes.py:204-222 | over any interleaving of writes and polls a reader that starts at any id, even one not given yet, receives in order, nothing twice, and never passes over an event still retained; after an empty poll it has everything retained past its start |
| RunRecords.TerminalRowStays | src/evaluation_service/persistence.py:147-250 | whatever else is asked of the store, a terminal row stays as it is until it is deleted |
| RunRecords.RecomputedExactly | src/evaluation_service/persistence.py:27-33 | recomputing the digest of what get_run returns gives the stored digest if and only if the payload names the run, batch and creation time of its row |
| RunRecords.FinishedExactly | src/evaluation_service/persistence.py:181-250 | finishing leaves such a record if and only if the result payload gives no other run, batch or creation time |
| RunRecords.FinishedKeepsResult | src/evaluation_service/persistence.py:200-250 | a finished record has every field the result gives and every other field as it was; the store sets only the summary, the status, the digest and, where none was given, the end |
| RunRecords.StoredDigestsRecompute | src/evaluation_service/persistence.py:414-424 | after any operations whose payloads leave these fields alone, every stored digest recomputes |
| RunRecords.RunKeepsSeals | src/evaluation_service/persistence.py:147-250 | after any operations a digest is on terminal records only and is that of the stored payload |
| RunRecords.OwnCreationTimeBreaksDigest | src/evaluation_service/persistence.py:414-424 | a result payload with a creation time of its own makes the two digests differ |
| RunRecords.UndigestedExactly | src/evaluation_service/persistence.py:147-250 | over every run of operations a record is terminal without a digest if and only if a progress update to a terminal status ended it and it was not deleted since |
| RunRecords.TerminalMeansDigested | src/evaluation_service/persistence.py:147-250 | when no progress update has a terminal status, a record is terminal if and only if it has a digest |
| RunRecords.EveryTerminalRecordRecomputes | src/evaluation_service/persistence.py:414-424 | when moreover payloads leave the identity fields alone, every terminal record has the digest that recomputing what get_run returns gives |
| RunRecords.ProgressMayFreezeWithoutDigest | src/evaluation_service/persistence.py:167-179 | the failing side: a progress update to a terminal status freezes the record without a digest until it is deleted |
| RecordHistory.LastWriteStands | src/evaluation_service/persistence.py:147-250 | after any calls the payload of a run holds in each field what the last call that wrote it gave, so a finished record holds the last progress of every field its result does not name |
| RecordHistory.UnwrittenStands | src/evaluation_service/persistence.py:147-250 | and a field no call wrote is as it was |
| RecordHistory.ProgressMerges | src/evaluation_service/persistence.py:167-179 | a progress update gives a live run its status and every field it names, keeps every other field, column and run, and the instance id follows a given one |
| RecordHistory.FinishingMoves | src/evaluation_service/persistence.py:181-250 | finishing gives the row its status and time, the instance id follows the payload, and all else stays |
| RecordHistory.InterruptedKeeps | src/evaluation_service/persistence.py:505-522 | interrupting gives exactly the queued and running runs their status, end and error category, and keeps every other field |
| RecordHistory.ColumnsAreOfCreation | src/evaluation_service/persistence.py:147-161 | the run, batch, seed, attempt and creation time of a record are those of the call that created it |
| RecordHistory.NoSlotTwice | src/evaluation_service/persistence.py:147-161 | after any calls no two runs have one batch, seed and attempt |
| RecordHistory.DeletionIsExact | src/evaluation_service/persistence.py:346-365 | a run is gone exactly when it was terminal and deleted |
| RecordHistory.SameDigestExactly | src/evaluation_service/persistence.py:27-33 | two payloads have one digest exactly if they differ at most in their digest, export time and update time |
| EvaluationStore.EvaluationStore.CreateRun | src/evaluation_service/persistence.py:147-161 | adds a queued row unless the id or the batch slot is taken |
| EvaluationStore.EvaluationStore.UpdateRunProgress | src/evaluation_service/persistence.py:167-179 | gives the run its status and every field of the updates and keeps the rest; refused on missing and terminal runs |
| EvaluationStore.EvaluationStore.FinalizeRun | src/evaluation_service/persistence.py:181-250 | succeeds exactly on a terminal status, a live run and an honest artifact, and then stores the digest it returns |
| EvaluationStore.EvaluationStore.MarkActiveInterrupted | src/evaluation_service/persistence.py:505-522 | ends exactly the queued and running runs and counts them |
| EvaluationStore.EvaluationStore.AppendEvent | src/evaluation_service/persistence.py:482-496 | inserts under the next id and trims the scope |
| EvaluationStore.EvaluationStore.EventsAfter | src/evaluation_service/persistence.py:498-503 | at most the limit of events, all of the scope with id past the cursor, in id order, and none of the scope passed over between the cursor and the end of the page |
| EvaluationStore.EvaluationStore.DeleteRun | src/evaluation_service/persistence.py:346-412 | deletes terminal runs only, with exactly their events |
| EvaluationStore.DeletionInSteps | src/evaluation_service/persistence.py:367-406 | the three deletions one after the other leave exactly the events that neither belong to the run nor name it in its batch, and none of the batch when it was the last run |
| TraceTokens.UrlsafeRoundTrip | src/agent_surface/trace.py:27-36 | stripping base64url padding and restoring it from the length gives back every byte string |
| TraceTokens.ParseIssued | src/agent_surface/trace.py:76-144 | what was issued parses to the grant it was issued for |
| TraceTokens.IssueIsInjective | src/agent_surface/trace.py:76-101 | tokens of different grants differ |
| TraceTokens.TagOpensOneGrant | src/agent_surface/trace.py:130-144 | under an ideal MAC the tag of a grant in front of which any other body is put opens that grant or nothing |
| TraceTokens.CoversExactly | src/agent_surface/trace.py:160-174 | an allowed selector covers a request exactly if reading any key the request names gives the same value |
| TraceTokens.Validate | src/agent_surface/trace.py:146-175 | accepts exactly the tokens whose grant has the session, the epoch, the view and a selector that covers the request |
| TraceTokens.FirstValidHandle | src/agent_surface/session.py:298-324 | returns the first handle valid now, and never one of another epoch |
| TraceTokens.TokenLivesUntilEpochEnds | src/agent_surface/session.py:113-114 | a token is accepted until the next restore, rollback, deploy, resume or close, and by its view and selector |

## Left out

- Trace spans, selectors, telemetry rows and receipts: they are written beside the tables and read by nothing modelled here; the clock moves they cause are kept.
- The hidden workloads one by one and their fixed command texts: `HiddenWorkloads` proves their shapes for any command and script; those with several distinct occurrences (H-A2, H-B4, H-S1) are lists of distinct commands as in `Verdict`.
- The rest of the verifier's predicate table and the reward ladder: a finite Boolean table.
- SQLite transactions, file copies and OSError paths: each call is one atomic step; result files and candidate artifact files of a run are not part of this model.
- Python values that compare equal across types (1, 1.0 and true) and the conversion of tags with `str`: transcript fields are compared as typed values.
- Decoding of base64url text that no token has: the decoder here refuses what is not well formed, while Python's skips characters outside the alphabet.
- The snapshot columns for cursor, journal root and effect root: no recovery check reads them.
- Batches, apart from the run count that decides whether a batch's events are deleted; listing and aggregation queries.
- Clock text: the time of a write is a parameter.
- Provider adapters, the gateway process, the dashboard, sanitisation and cost statistics.
- ToolNames.BuildTable: requires that the twelve-digit suffixes of one name differ for as many attempts as there are names, which is the idealisation of the digest; a non-ASCII name counts by its characters.
- Cycles.RepeatedReadOnlyCycle: the texts that are compared are given with the call, so how they are printed is not modelled.
- EventLog.ReaderIsFaithful: the moment between the last empty poll and the reading of the status is not modelled; an event appended in it is not claimed to be sent.
- Episodes.RecountAgrees: a tool name that is not a string is recorded as text, and the action and byte limits are natural numbers.
- Session.ToolKeepsInvariant: the three workspaces hold the five named files; deleting them is outside the tools.
