# Decode Fabric: a verified model

Decode Fabric is a coordinator that hands out token-generation work to workers. A
worker *prepares* the next step of a sequence without publishing it; the coordinator
*authorises* the prepared step with a one-use grant; the worker *commits* and answers
with a receipt; the coordinator *finalises* the receipt. Around that protocol stand a
scheduler that groups sequences and reserves device memory, snapshots with a checksum,
and a framed wire format.

The project has three layers.

* **Values.** `Fabric` and `Executor` say what each operation does to the state of the
  coordinator and of a worker; `Grouping`, `Memory`, `Lifecycle`, `Recovery`, `Snapshot`,
  `Binary`, `Codec` and `Crc` do the same for their parts.
* **Objects.** `Coordinator.DecodeFabric`, `CpuExecutor.CpuDecodeExecutor`,
  `ByteStreams.Writer`, `ByteStreams.Reader`, `Frames.FrameDecoder` and
  `Frames.Connection` hold the fields the program updates in place. Every method is
  proved to take the old value to the new value given by the value layer.
* **Runs.** `Network` puts one coordinator, any number of executors and all messages
  ever sent together. A run is any list of actions: messages may be lost, repeated,
  delayed, reordered and sent to the wrong executor; executors may restart empty; any
  operation of the coordinator may come at any time, snapshot and recovery included.
  `Guarantees`, `Resting`, `Conservation` and `Replay` hold what is true of every run, and
  `Rewinds` what stays true when the coordinator may also go back to any earlier snapshot.
  `Fences` says what an epoch, a retry, a boot or an abort cuts off for good, and `Endings`
  when sequences end. `Pump*` is the closed loop of one coordinator and one executor.
  `Witnesses` holds inputs at which the program does less than it says.

Beside the value layer stand the laws that pin it: `Answers`, `Replies`, `Ranking`, `Effects`
and `Layout` say what each operation answers, whom it prefers and where each byte lies, in the
fields of its inputs and not through the predicates that define it.

The main results, hardest first: `Guarantees.Refinement`, `Guarantees.ExactlyOnce`,
`Rewinds.ExactlyOnce`, `Rewinds.TimelinesAgree`, `Guarantees.BoundedLead`,
`Replay.NothingOldIsAccepted`, `Endings.CompletedOnEndToken`, `Fences.AbortFence`,
`Endings.OldAttemptRefused`, `PumpRuns.PumpUntilIdle`, `Resting.CancelStops`,
`Ranking.FairIsUnique`, `Placement.DevicesMet`, `AcceptanceKeys.DispatchTold`,
`SnapshotBytes.SnapshotRoundTrip`, `Crc32.BurstDetected`, `Frames.Connection.RecvAll`,
`ExecutorRuns.OneUse`, `Conservation.Conserved`, `GroupingProofs.GroupFormation` and the
`Codec.*Exact` lemmas.

## How the program is read

* The state vector is a list of real numbers, and `initial`, `step`, `token`, `digest` and
  `mix` are arbitrary functions. Nothing is assumed about them: `Guarantees.Refinement` says
  where a digest collision would show. When the coordinator may go back to earlier
  snapshots, `Rewinds` asks that no two *spots* of the run collide: the finitely many
  positions of a recurrence that its executors have held or staged.
* The key of an accepted generation is an arbitrary function of its fields, too. What one
  cycle of the pump does is stated for all of them, with what happens when a key clashes with
  the one accepted last. That pumping ends needs a key that tells dispatch ids apart;
  `AcceptanceKeys` has the program's own key, on 64-bit words, and proves that it does,
  although its keys do clash otherwise (`AcceptanceKeys.KeysClash`).
* Hash-map iteration orders, clock readings, scheduling scores and the answer of the
  back-pressure checks are inputs, so the results hold for all of them.
* A prepared result is taken as the executor builds it: it names a dispatch and its
  outcome names its own sequence (`Honest`). In the network this is proved, not assumed.
* The program moves a sequence to Grouped as it joins its group; the model makes those
  moves once all groups are formed. Nothing reads the state in between.
* Recovery in a run starts from the current snapshot; `Replay` covers what follows any
  recovery, into any process, and `Rewinds` recovery from any earlier snapshot of the run.

Where the comments and the code differ, the code is modelled:

* A refused lifecycle move is ignored and the rest of the operation goes on. A Waiting
  or Yielded sequence can be dispatched and keeps its state (`Witnesses.DispatchedExactly`).
* `cancel` reports success but stops nothing in Grouped, Reserved, Running, RetryableFailure
  and states without a name (`Guarantees.CancelStops`). Of these only RetryableFailure
  stands between operations (`Resting.CancelStops`), and `Witnesses.CancelMissed` is a run
  that gets there.
* Recovery puts back to Waiting exactly the Grouped, Reserved and StepCompleted
  sequences (`Effects.RequeuedExactly`); Dispatched and Running ones stay as they are.
* The textual key does not tell unnamed backends or dtypes apart; `KeyText.TextsMeet` says
  exactly which keys share a text. A group can therefore mix keys
  (`Witnesses.MixedDispatch`).
* A group is placed by model, revision and key device alone. A device constraint is met for
  everything a pass sends out if workers that offer the same model, revision and key device
  are on one device (`Placement.DevicesMet`), and any two workers that break this leave a run
  in which it is not (`Witnesses.DeviceMissed`). The same holds of adapters, with workers
  that share a key device and not its adapters (`Placement.AdaptersMet`,
  `Witnesses.AdapterMissed`).
* A last receipt is recorded as the end of its sequence whatever its state; the state gets
  there only from Dispatched, Running and StepCompleted (`Witnesses.EndReached`). After its
  worker was marked dead the sequence stays Waiting and is picked again
  (`Witnesses.EndMissed`). The end on record is the state exactly when the state is terminal
  (`Resting.RecordIsState`).
* A retry takes its attempt id from the dispatch counter, so an id can come again. What was
  prepared before a retry is refused after it for ever if its attempt id is another one than
  the retry gives out (`Endings.OldAttemptRefused`); right after the retry it is refused if and
  only if it is (`Fences.RetryRegrants`).
* A sequence without budget that waits is recorded as completed and stays where it is
  (`Answers.CollectCloses`).
* Recovery forgets what a sequence asked for besides its model: sampling bytes, adapter,
  device constraint and tenant weight (`Effects.RecoveredExactly`). An executor keeps the end
  token it was first told (`EndTokens.EndsExactly`).
* A snapshot with more than 2^22 grants is written and refused on the way back
  (`SnapshotBytes.ParsesExactly`), after everything but its grants has been taken over
  (`Persistence.OverfullLeft`).
* Grant ids are not persisted and recur after a recovery. `Replay` shows this is harmless.

## Model

| member | source | states |
|---|---|---|
| Guarantees.Refinement | src/fabric.cpp:905-1213 | the receipts finalised for a sequence in any run are successive steps of one pure recurrence, digests, tokens and positions, from an initial state that a request of the run asked for; this covers at least the first receipt, and if it does not cover all, it ends where a second such initial state of the same state id collides with the first |
| Endings.CompletedOnEndToken | src/fabric.cpp:1184-1196 | in any run a sequence whose state is Completed has receipts, and its last one made the end token that a request of the run asked for with its state, or used up its budget |
| Endings.CompletedExactly | src/fabric.cpp:1184-1196 | in any run a completed sequence has its last receipt marked as the last, or its budget used up; one recorded as completed has such a receipt or no budget left; and with such a receipt an end is on record |
| Endings.LastExactly | src/cpu_executor.cpp:236-239 | in any run a finalised receipt is marked as the last if and only if its token is the end token asked for with the sequence's state, or its position is the last the sequence may have |
| EndTokens.EndsExactly | src/cpu_executor.cpp:99-110 | whatever calls came before, a prepared step is reported as the last if and only if the first sampling bytes seen for its state ask for its token as the end token, or at most one token is left |
| Endings.OldEpochRefused | src/fabric.cpp:934-942 | nothing prepared in a run before an epoch rolled is granted in any continuation |
| Endings.OldAttemptRefused | src/fabric.cpp:951-958 | nothing prepared before a retry is granted in any continuation, unless the retry gives out that very attempt id again |
| Endings.OldBootRefused | src/fabric.cpp:942-950 | nothing a worker prepared under one boot is granted after it has registered under another, until it registers under the old one again |
| Fences.EpochFence | src/fabric.cpp:568-573 | the same of every result of an earlier epoch, whoever sends it |
| Fences.RetryFence | src/fabric.cpp:490-528 | the same of every result of another attempt, whoever sends it |
| Fences.RetryRegrants | src/fabric.cpp:511-513 | a result that would be granted is refused right after a retry if and only if its attempt id is not the one the retry gives out |
| Fences.BootFence | src/fabric.cpp:533-543 | the same of every result of another boot |
| Fences.AbortFence | src/fabric.cpp:1215-1240 | no receipt for an aborted grant is finalised in any continuation, recoveries included |
| Fences.ReceiptFence | src/fabric.cpp:1104-1116 | nor is a second receipt for a finalised one |
| Courses.StepCourse | src/fabric.cpp:360-1240 | no step lowers the epoch, gives out an attempt id below the dispatch counter, or completes a sequence without a receipt or an empty budget |
| Answers.GrantedExactly | src/fabric.cpp:933-1060 | a prepared step is granted if and only if epoch, boot, attempt, generation and dispatch are those of this moment, the sequence has not ended or been asked to, the step succeeded, and it continues the committed position and digest with no grant pending and a new key |
| Answers.GrantTells | src/fabric.cpp:1061-1087 | every field of the grant, and its entry in the ledger |
| Answers.RefusedExactly | src/fabric.cpp:924-1060 | a refused one is sent back to be aborted, its sequence out on nothing and ready again |
| Answers.EachAnswered | src/fabric.cpp:912-1090 | every member of a prepared result is answered, in order, in the state the members before it left |
| Answers.FinalisedExactly | src/fabric.cpp:1100-1156 | a receipt is finalised if and only if it answers, field by field, an open grant its sequence waits on |
| Answers.EndsExactly | src/fabric.cpp:1184-1196 | a finalised receipt puts Completed on record if and only if it is marked as the last or reaches the maximum, and moves the state accordingly |
| Answers.ReceiptSpends | src/fabric.cpp:1157-1183 | its grant is consumed, and the accepted record says what it said |
| Answers.ReceiptsCompose | src/fabric.cpp:1094-1213 | a batch of receipts is applied as its parts are, one after the other |
| Answers.ReceivedAlone | src/fabric.cpp:1094-1213 | and a receipt alone is applied if it finalises, and changes nothing otherwise |
| Answers.AbortExactly | src/fabric.cpp:1215-1240 | an abort that names the pending proposal withdraws the grant and puts the sequence back; any other does nothing |
| Answers.AbortedRefused | src/fabric.cpp:1119-1123 | no receipt for the withdrawn grant is finalised |
| Answers.RetryRenews | src/fabric.cpp:511-525 | a failing sequence with an attempt left becomes ready under the attempt id taken from the dispatch counter; everything committed stays |
| Answers.RetryGivesUp | src/fabric.cpp:503-510 | one without is recorded as failed |
| Answers.RetryIgnored | src/fabric.cpp:490-528 | any other is left alone |
| Answers.CancelExactly | src/fabric.cpp:451-477 | what a cancellation does in each state |
| Answers.RegisteredExactly | src/fabric.cpp:533-543 | a registered worker is known as it says, under its boot; its device keeps the largest size it was given |
| Answers.DeadExactly | src/fabric.cpp:545-566 | exactly what was out on a dead worker is put back, its grant left pending; the worker has failed |
| Answers.AdvanceExactly | src/fabric.cpp:578-607 | a clock pass expires exactly what is overdue, cancels exactly what asked for it, and leaves the rest alone |
| Answers.CompletionIgnored | src/fabric.cpp:822-873 | a completion that is not of this epoch, boot, attempt, generation and dispatch ends nothing and renews nothing; nor does a success |
| Answers.CompletionCancelled | src/fabric.cpp:860-866 | one for a sequence that is to be cancelled takes it off its worker |
| Answers.CompletionLeads | src/fabric.cpp:256-319 | any other leads its sequence, whatever its state, to the state and the record its kind says |
| Answers.FailureLeads | src/fabric.cpp:1000-1011 | so does a prepared step that reports no success |
| Answers.OutcomesCompose | src/fabric.cpp:815-897 | a batch of outcomes is applied as its parts are, one after the other |
| Answers.AdmittedExactly | src/fabric.cpp:360-445 | a request is admitted if and only if it is complete, new, servable and let in; and how its sequence starts |
| Answers.KeyForFirst | src/fabric.cpp:211-224 | a request is given the first suitable key of the first worker asked that has one |
| Answers.CollectedExactly | src/fabric.cpp:645-684 | the candidates are exactly the sequences that wait, have budget and can be served, with their own tenant, class and score |
| Answers.CollectCloses | src/fabric.cpp:649-657 | exactly those without budget are recorded as completed |
| Answers.GrowthExactly | src/fabric.cpp:742-747 | a group needs the sum of its members' estimates, 64 for one without |
| Answers.SpecTells | src/fabric.cpp:777-787 | what a request says of each member |
| Answers.RequestTells | src/fabric.cpp:766-775 | what a request says of the group: dispatch, epoch, worker, boot, key, device and reservation |
| Answers.TextSpelled | src/fabric.cpp:1299-1299 | the group payload spells the key text |
| Answers.SentExactly | src/fabric.cpp:758-807 | where sending a group leaves members, reservation and worker |
| Ranking.FormedFairly | src/fabric.cpp:686-719 | each group holds candidates of its key text by score and then id, within the limits; whoever is left out is too slow, or has a lower score, or the same and a higher id, than every member of the full group or full tenant share |
| Ranking.FairIsUnique | src/fabric.cpp:686-719 | there is only one such group for each key text |
| Ranking.FormedKey | src/fabric.cpp:696-708 | a group goes under the key of the best candidate of its text |
| Ranking.EveryKeyHasGroup | src/fabric.cpp:696-708 | every candidate finds a group of its text |
| Ranking.SentByRank | src/fabric.cpp:622-810 | every request of a pass carries that one group for its key among the sequences that wait, in that order, by the scores the pass was given |
| Ranking.DispatchedExactly | src/fabric.cpp:722-757 | a group is sent if and only if the first of the least loaded workers that can take it has room for it and for the floor |
| Ranking.NonePassedOver | src/fabric.cpp:720-810 | every group that can go when its turn comes is sent |
| Replies.RefusedExactly | src/cpu_executor.cpp:148-172 | a prepare is refused if and only if a step of the same attempt is unresolved, as a duplicate or as a conflict; the state has caught up either way |
| Replies.PreparedTells | src/cpu_executor.cpp:180-242 | what is reported is what is staged, under a new proposal and the request's authority |
| Replies.PreparedInTurn | src/cpu_executor.cpp:244-272 | a prepared group has each member prepared in order, after those before it |
| Replies.RefusedInTurn | src/cpu_executor.cpp:250-262 | one that is refused ends with the first member that is |
| Replies.CommittedExactly | src/cpu_executor.cpp:299-358 | a grant is carried out if and only if it is new and names what is staged, field by field, at this position; and what that leaves |
| Replies.CommitRefused | src/cpu_executor.cpp:274-329 | otherwise nothing changes; a replay gets its receipt, anything else its error |
| Replies.AbortedExactly | src/cpu_executor.cpp:360-375 | an abort clears what it names, fails for what was committed, and does nothing else |
| Collisions.PlainCollisionFree | src/cpu_executor.cpp:76-86 | there are numerics without digest collisions, whose states differ from seed to seed |
| Collisions.OrbitsMerge | src/cpu_executor.cpp:119-123 | recurrences that share a digest without colliding stay together from there on |
| Rewinds.ExactlyOnce | src/fabric.cpp:1616-1851 | in runs that may go back to any earlier snapshot, with dispatch ids and grant ids given out again and old messages still about, the receipts the coordinator holds are still finalised exactly once and chained |
| Rewinds.Refinement | src/fabric.cpp:1616-1851 | as long as no two spots of the run collide they are still one recurrence, from an initial state that a request of the run asked for and that some request named for this sequence; it belongs to the sequence's own state id if every request for it did |
| Rewinds.SpotsAsked | src/cpu_executor.cpp:99-125 | whatever an executor of such a run stages for a sequence starts where a request of the run asked for it |
| Rewinds.TimelinesAgree | src/cpu_executor.cpp:99-125 | what was lost by going back is produced again as it was: any two runs that start a sequence at the same position and digest agree on every receipt both have, as long as no two spots of the two runs collide |
| Rewinds.TravelFine | src/distributed.cpp:155-183 | the invariant behind this holds after every such run; the half about states and digests as long as no two spots of the run collide |
| Resting.RunRests | src/fabric.cpp:622-810 | between operations no sequence is ever Grouped, Reserved, Running or in a state without a name, and every end on record is a terminal state |
| Resting.RecordIsState | src/fabric.cpp:1184-1196 | over whole runs the end on record is the sequence's state if and only if that state is terminal |
| Resting.CancelStops | src/fabric.cpp:451-477 | over whole runs a cancellation stops a sequence if and only if its state is not RetryableFailure |
| Witnesses.CancelMissed | src/fabric.cpp:265-288 | a run after which a sequence has failed on the record only, and a reported cancellation changes the record and not the state |
| Witnesses.FailureStaysOpen | src/fabric.cpp:265-288 | any reported retryable failure with no attempt left records an end the state does not reach |
| Witnesses.MixedDispatch | src/fabric.cpp:645-741 | two sequences collected with keys that differ in an unnamed backend form one group under the first key; as both keys name one key device, it is placed on the worker of the first, which is not the device the second asked for |
| Placement.DevicesMet | src/fabric.cpp:211-225 | when workers that offer the same model, revision and key device are on one device, everything any scheduling pass sends out goes to the device it asked for |
| Placement.AdaptersMet | src/fabric.cpp:722-735 | when such workers offer the same adapters, everything a pass sends out reaches a worker that offers its model, revision and adapter |
| Placement.EachSent | src/fabric.cpp:645-735 | every member a pass sends out was collected with a key of some worker that serves it, and goes to a worker that offers that key's model, revision and device |
| Witnesses.DeviceMissed | src/fabric.cpp:722-735 | for any two workers that offer one key device on two devices: a run that sends a sequence to the device it did not ask for |
| Witnesses.AdapterMissed | src/fabric.cpp:722-735 | for any two workers that offer one key device with two adapters: a run that sends a sequence where its adapter is not offered |
| Witnesses.Astray | src/fabric.cpp:722-735 | both from one run: the worker asked first takes the group of a sequence it does not serve |
| Witnesses.EndReached | src/fabric.cpp:1184-1196 | a last receipt is always recorded as Completed, and the state gets there if and only if it was Dispatched, Running or StepCompleted |
| Witnesses.EndMissed | src/fabric.cpp:545-566 | from any state in which a last receipt is due, marking the worker dead first leaves the sequence Completed on the record, Waiting in its state, and a candidate again |
| Witnesses.DispatchedExactly | src/fabric.cpp:777-802 | of the states the scheduler picks from, exactly Ready and ReadyForNextToken reach Dispatched; the others go out with their state unchanged |
| Guarantees.ExactlyOnce | src/fabric.cpp:1094-1213 | in any run the finalised receipts of a sequence have generations 1, 2, 3, ..., consecutive positions and chained digests, and the coordinator stands at the last one |
| Guarantees.BoundedLead | src/cpu_executor.cpp:319-329 | no executor is ever more than one committed token ahead of the coordinator, whatever stale requests and grants reach it |
| Guarantees.ExecutorOrbit | src/cpu_executor.cpp:99-125 | in any run the committed state of any executor is the step function iterated as often as its token count says, with KV bytes to match, and what it has staged is a step of the same recurrence at or before that count |
| Guarantees.ExecutorsAgree | src/cpu_executor.cpp:377-382 | two executors that started a state alike report the same digest whenever their token counts agree |
| Guarantees.CounterLockstep | include/decodefabric/token.hpp:24-54 | generated, committed and budget counters are equal and within the limit, lengths follow, attempts stay within bounds, and the budget advance whose result is ignored never fails |
| Guarantees.GenerationCounts | src/fabric.cpp:1159-1171 | between any two points of a run, recoveries included, generations gained, tokens gained and receipts finalised are the same number |
| Guarantees.TerminalForever | src/core.cpp:250-328 | a terminal sequence keeps its state, counters, digest and accepted record through every continuation, and its terminal record is its state |
| Guarantees.StoppedForever | src/fabric.cpp:1151-1156 | after a cancellation has taken hold, no continuation finalises another token |
| Guarantees.CancelStops | src/fabric.cpp:451-477 | a cancellation stops a sequence if and only if its state is none of the five that pass it by |
| NetworkSteps.RunKeeps | src/distributed.cpp:155-183 | the invariant relating coordinator, executors, mail and finalised log holds after every run |
| NetworkSteps.ApplyKeeps | src/distributed.cpp:361-402 | every single action keeps that invariant |
| Replay.ReplaySafety | src/fabric.cpp:1616-1851 | after recovery into any process and any further steps, nothing prepared or receipted under an earlier dispatch is authorised or finalised |
| Replay.NothingOldIsAccepted | src/fabric.cpp:1126-1133 | no message in flight when a run is cut off by a recovery is ever accepted afterwards, even when grant ids recur |
| Conservation.Conserved | src/fabric.cpp:1159-1208 | in any run receipts counted, decode steps counted and generations finalised agree; without recovery each tenant's total is the saturating sum over its sequences; with real device sizes memory stays balanced |
| Conservation.ReleaseExact | src/fabric.cpp:186-204 | in any such run a release gives back exactly the bytes reserved, a second release gives back nothing, and the clamp to zero is never taken |
| Memory.ReserveBalanced | src/fabric.cpp:742-764 | a granted reservation keeps each device's counter equal to the sum of its live reservations and within capacity |
| Memory.ReleaseBalanced | src/fabric.cpp:186-204 | so does a release, which never underflows |
| Memory.RoomExactly | src/fabric.cpp:748-757 | there is room if and only if the device's size is unknown or zero, or growth and floor each fit beside what is reserved |
| Memory.ReleasedExactly | src/fabric.cpp:186-204 | a release lowers its device's counter by its bytes, or to zero, and touches no other |
| Memory.AdvertiseBalanced | src/fabric.cpp:533-543 | so does a worker registration with a real device size |
| Operations.OperateKeeps | src/fabric.cpp:360-607 | every operation outside the commit protocol keeps the coordinator's invariant and moves no token, generation or digest |
| FabricSteps.ScheduleKeeps | src/fabric.cpp:622-810 | a scheduling pass keeps the invariant, and every request it sends describes its sequences as they stand under a new dispatch id |
| FabricSteps.IssueKeeps | src/fabric.cpp:1028-1087 | issuing a grant for an authorised member moves no counter and keeps the invariant, by which a pending grant is unconsumed and binds exactly its sequence's generation, position and digest |
| FabricSteps.FinaliseExtends | src/fabric.cpp:1125-1156 | a receipt that is finalised carries exactly the current generation, position and digest, and moves each on by one step |
| FabricSteps.FinaliseKeeps | src/fabric.cpp:1157-1208 | finalising keeps the invariant |
| FabricSteps.AbortPendingKeeps | src/fabric.cpp:1215-1240 | aborting a pending grant keeps the invariant and every counter |
| FabricInvariants.CompleteCalm | src/fabric.cpp:815-897 | a completion report, whatever its outcomes, never moves a token, generation or digest |
| FabricInvariants.RetryCalm | src/fabric.cpp:490-528 | a retry keeps every counter: its roll-back to the recovery point changes nothing |
| FabricInvariants.MarkWorkerDeadCalm | src/fabric.cpp:545-566 | losing a worker keeps every counter and every pending grant |
| Effects.AdvanceSettles | src/fabric.cpp:578-607 | after a clock pass over all sequences none is both open and past its deadline in a state that can expire, and none is still waiting for its cancellation |
| Effects.DeadWorkerCleared | src/fabric.cpp:545-566 | after a worker is marked dead nothing is in flight on it and nothing can be placed on it |
| Effects.PlacedLeastLoaded | src/fabric.cpp:722-741 | the chosen worker is the first of the least loaded that fit; none is chosen only if none fits |
| Effects.RequeuedExactly | src/fabric.cpp:1739-1750 | recovery changes a lifecycle state if and only if it is Grouped, Reserved or StepCompleted, and then to Waiting |
| Effects.RecoveredExactly | src/fabric.cpp:1640-1838 | what recovery keeps of every sequence, what it forgets, and that it withdraws exactly the pending grants |
| Lifecycle.ReachedExactly | src/core.cpp:250-328 | the transition table read backwards: from which states each state can be reached |
| Lifecycle.StoppedMoves | src/core.cpp:250-328 | no move leaves the stopped states, and only a terminal state can be moved to from one |
| Lifecycle.AdvancedBySaturates | include/decodefabric/token.hpp:39-49 | advancing a budget token by token reaches the wanted count or stops at the limit |
| ExecutorRuns.OneUse | src/cpu_executor.cpp:274-358 | over any calls each grant and each proposal promotes at most once, and each promotion has its receipt on record |
| ExecutorRuns.ReplayReturnsSameReceipt | src/cpu_executor.cpp:274-298 | a consumed grant, replayed after any further calls, returns the same receipt and changes nothing |
| ExecutorRuns.AbortAndCommitExclude | src/cpu_executor.cpp:360-375 | a commit after an abort changes nothing, an abort after a commit changes nothing and says so, whatever came between |
| ExecutorRuns.RetiredForever | src/cpu_executor.cpp:127-141 | a proposal that is no longer staged never promotes again |
| ExecutorRuns.TokensAccounted | src/cpu_executor.cpp:118-123 | the tokens of a state are its catch-up steps plus its promotions |
| Executor.CatchUpFollowsOrbit | src/cpu_executor.cpp:111-125 | catching up stays on the orbit and reaches the wanted token count |
| Executor.StageFollowsOrbit | src/cpu_executor.cpp:173-239 | what is staged, and the token reported, are the next point of the orbit |
| Executor.OrbitKvClosed | src/cpu_executor.cpp:118-123 | the KV bytes after n steps are the starting bytes plus 64 n, modulo 2^64 |
| CpuExecutor.CpuDecodeExecutor.EnsureInitialized | src/cpu_executor.cpp:99-125 | the loop reaches the adopted, caught-up state of the value layer |
| CpuExecutor.CpuDecodeExecutor.PrepareMember | src/cpu_executor.cpp:143-242 | state and result are those of the value layer, refusals included (`Replies.RefusedExactly`, `Replies.PreparedTells`, `EndTokens.EndsExactly`) |
| CpuExecutor.CpuDecodeExecutor.Prepare | src/cpu_executor.cpp:244-272 | members are prepared in order, the first failure fails the group and what was staged stays |
| CpuExecutor.CpuDecodeExecutor.Commit | src/cpu_executor.cpp:274-358 | state and result are those of the value layer in every branch |
| CpuExecutor.CpuDecodeExecutor.Abort | src/cpu_executor.cpp:360-375 | state and result are those of the value layer in every branch |
| CpuExecutor.CpuDecodeExecutor.CommittedStateDigest | src/cpu_executor.cpp:377-382 | the digest of the committed state, or 0 for an unknown one |
| Coordinator.DecodeFabric.Submit | src/fabric.cpp:360-445 | admission takes the old fabric to the specified one; it reports admission exactly when something changed |
| Coordinator.DecodeFabric.Cancel | src/fabric.cpp:451-477 | the specified new fabric, and what is reported to the caller |
| Coordinator.DecodeFabric.Retry | src/fabric.cpp:490-528 | the specified new fabric; it reports a retry exactly when the state allows one and an attempt is left, and exactly then the attempt count grows by one |
| Coordinator.DecodeFabric.RegisterWorker | src/fabric.cpp:533-543 | the specified new fabric; null ids are refused |
| Coordinator.DecodeFabric.MarkWorkerDead | src/fabric.cpp:545-566 | the loop over all sequences reaches the specified fabric |
| Coordinator.DecodeFabric.RollEpoch | src/fabric.cpp:568-573 | the next epoch, and nothing else changes |
| Coordinator.DecodeFabric.Advance | src/fabric.cpp:578-607 | the loop over all sequences reaches the specified fabric |
| Coordinator.DecodeFabric.CollectCandidates | src/fabric.cpp:645-684 | the loop collects the specified candidates and closes exhausted sequences |
| Coordinator.DecodeFabric.ChooseWorker | src/fabric.cpp:722-741 | the loop chooses the specified worker |
| Coordinator.DecodeFabric.Schedule | src/fabric.cpp:622-810 | the whole pass: deadline pass, candidates, groups, placement, reservation, dispatch (`Ranking.SentByRank`) |
| Coordinator.DecodeFabric.StaleReconcile | src/fabric.cpp:241-254 | the in-flight work is withdrawn and the sequence put back as specified |
| Coordinator.DecodeFabric.ApplyNoncommitOutcome | src/fabric.cpp:256-319 | each outcome kind reaches the specified fabric |
| Coordinator.DecodeFabric.ApplyCompletion | src/fabric.cpp:815-897 | the loop over outcomes reaches the specified fabric, stale outcomes reconciled |
| Coordinator.DecodeFabric.AuthorizePrepared | src/fabric.cpp:905-1092 | the loop over members issues exactly the specified grants and aborts (`Answers.GrantedExactly` says which) |
| Coordinator.DecodeFabric.ApplyCommitReceipt | src/fabric.cpp:1094-1213 | the loop finalises exactly the specified receipts, in order (`Answers.FinalisedExactly`, `Answers.EndsExactly`) |
| Coordinator.DecodeFabric.AbortPreparedGrant | src/fabric.cpp:1215-1240 | the specified fabric, with the grant withdrawn (`Answers.AbortExactly`) |
| Coordinator.DecodeFabric.ReleaseReservation | src/fabric.cpp:186-204 | reservation and device counters as specified |
| Coordinator.DecodeFabric.KeyForModel | src/fabric.cpp:211-224 | the first advertised key that serves the request |
| GroupingProofs.GroupFormation | src/fabric.cpp:686-719 | nobody is placed twice or invented; groups keep key text, size, tenant share and latency class; whoever was left out met a group that refused them, filled by members ranked before them (`Ranking.FormedFairly` has the ranks) |
| GroupingProofs.OrderIndependent | src/fabric.cpp:686-719 | the groups do not depend on the order candidates were collected in |
| GroupingProofs.SortedUnique | src/fabric.cpp:686-690 | there is only one sorted order, since ties are broken by sequence id |
| GroupingLoop.Form | src/fabric.cpp:692-719 | the loop with its index map forms the same groups as the value layer |
| KeyText.AppendU64 | src/core.cpp:17-22 | the digit buffer never overflows and the text is the decimal numeral |
| KeyText.ToString | src/core.cpp:28-42 | the built text is the named fields in order |
| KeyText.TextsMeet | src/core.cpp:28-42 | two keys share a text if and only if they differ at most in unnamed backends and unnamed dtypes |
| KeyText.GroupsHomogeneous | src/fabric.cpp:696-708 | the members of a group share its text, and have its very key when backend and dtype are named |
| KeyText.MixedGroup | src/fabric.cpp:696-708 | two candidates whose keys share a text are grouped under the key of the first |
| PumpRuns.PumpUntilIdle | src/fabric.cpp:1370-1397 | the pair ends where that many cycles lead; every cycle before the last sent something, and the last sent nothing unless the limit was reached; even without a limit there are at most as many such cycles as tokens left times one more than the workers, and executor and coordinator are level for every sequence that has finalised a token |
| PumpRuns.PumpKeeps | src/fabric.cpp:1286-1368 | whatever the acceptance keys: every dispatched member gains one token, or none if its key is the one accepted last; nobody else moves; the budget shrinks by exactly the tokens gained, and every dispatched sequence is level afterwards: tokens and digest |
| PumpRuns.PumpedLoad | src/fabric.cpp:1286-1368 | with a key that tells dispatch ids apart every dispatched member lightens the load, even one that gains nothing |
| PumpLoad.HeldUpOnce | src/fabric.cpp:1020-1027 | no worker holds up the same token of a sequence under two dispatch ids |
| PumpLoad.OwnKeyTells | src/fabric.cpp:24-43 | the program's own key tells dispatch ids apart |
| AcceptanceKeys.DispatchTold | src/fabric.cpp:24-34 | authorities that differ in a 64-bit dispatch id alone have different keys |
| AcceptanceKeys.KeysClash | src/fabric.cpp:24-34 | for any two authorities and any position of the one, some position of the other has the same key |
| PumpRuns.PumpCycle | src/fabric.cpp:1286-1368 | a cycle on the two objects is the cycle of the value layer |
| PumpRuns.DriveRequest | src/fabric.cpp:1289-1366 | prepare, authorise, commit or abort, and finalise one dispatch on the two objects |
| PumpDrive.DriveKeeps | src/fabric.cpp:1301-1366 | every member of a dispatched group is prepared, granted, committed and finalised, or refused and put back if its key is the one accepted last; the two sides agree again and nobody else is touched |
| PumpSchedule.ScheduleDrivable | src/fabric.cpp:722-807 | the requests of one pass have disjoint members, each described as it stands and out on that very dispatch |
| PumpSchedule.ScheduleCarried | src/fabric.cpp:622-810 | a pass renews no attempt, moves no token and adds no worker, and its requests take consecutive dispatch ids |
| PumpRuns.StartSynced | src/fabric.cpp:148-170 | a new coordinator and a new executor agree |
| PumpRuns.SubmitSynced | src/fabric.cpp:360-445 | admission of a sequence with a state of its own keeps the two sides in agreement |
| PumpRuns.OperationSynced | src/fabric.cpp:451-607 | so do cancellations, retries, worker changes, epochs, clock passes and completions |
| Recovery.RestoreKeeps | src/fabric.cpp:1640-1838 | recovery from the image of a reachable fabric keeps the invariant, and every recovered sequence, saved again, differs from what was saved only in the requeued state |
| SnapshotBytes.SnapshotRoundTrip | src/fabric.cpp:1524-1851 | the bytes written for any reachable fabric, in any map order, parse back to the same image, and recovery gives the fabric up to the stated normalisation |
| SnapshotBytes.SealedParses | src/fabric.cpp:1524-1614 | parsing undoes printing for every list of records that fits its fields |
| SnapshotBytes.ParsesExactly | src/fabric.cpp:1764-1766 | a snapshot whose numbers are in range is read back if and only if it has at most 2^22 grants, and is refused as an invalid field otherwise |
| SnapshotBytes.DamageRefused | src/fabric.cpp:1619-1628 | a snapshot of any length with up to four neighbouring bytes changed, trailer included, is refused with the checksum error |
| Persistence.SerializeState | src/fabric.cpp:1524-1614 | the writer produces exactly those bytes |
| Persistence.RecoverState | src/fabric.cpp:1616-1851 | the parser restores the parsed image in place; a bad length, checksum, magic, version or counter leaves the fabric unchanged; a later failure leaves exactly the counters and the sequences, records and grants read before it |
| Persistence.OverfullLeft | src/fabric.cpp:1764-1766 | what a refused snapshot with too many grants leaves: its counters, sequences and terminal records, and an empty ledger |
| SnapshotBytes.ListsSplit | src/fabric.cpp:1648-1834 | the lists of a snapshot are read if and only if the sequences are and what closes them is |
| Crc.AcceptedIffResidue | src/fabric.cpp:1619-1628 | the trailer matches if and only if the register over all bytes ends in one fixed residue |
| Crc.StretchInjective | src/fabric.cpp:76-85 | the register tells any two stretches of up to four bytes apart |
| Crc32.Update | src/fabric.cpp:75-86 | the masked bit loop computes the register of CRC-32 (section 8 of RFC 1952) |
| Crc32.CheckValue | src/fabric.cpp:75-86 | the register makes the standard check value 0xCBF43926 of the digits 1 to 9 |
| Crc32.BitsLawful | src/fabric.cpp:79-82 | a bit step is linear and injective and moves clear low bytes down unchanged |
| Crc32.BurstDetected | src/fabric.cpp:1619-1628 | no accepted snapshot stays accepted when up to four neighbouring bytes change |
| Crc32.OneByteDetected | src/fabric.cpp:1619-1628 | nor when any single byte changes |
| Frames.EncodeFrame | src/protocol.cpp:14-21 | header and payload of a frame |
| Frames.EmissionStable | src/protocol.cpp:23-66 | what the decoder decides about a buffer does not change when more bytes arrive |
| Frames.EmitsPut | src/protocol.cpp:14-66 | decoding undoes encoding and leaves what follows |
| Frames.FrameDecoder.Emit | src/protocol.cpp:23-66 | wait, refuse or emit, and what stays in the buffer in each case |
| Frames.FrameDecoder.Feed | src/protocol.cpp:68-76 | the same after appending |
| Frames.Connection.RecvFrame | src/transport.cpp:84-105 | the first frame of the stream up to a socket failure, whatever chunks and interruptions it arrives in; a failure or closing is reported only when that stream holds no whole frame, and loses no byte |
| Frames.Connection.RecvAll | src/transport.cpp:84-105 | any list of frames in any chunks, with any interruptions, is received as that list, with no byte left over |
| Codec.ExecuteRequestExact | src/protocol.cpp:146-208 | decoding the encoding followed by anything gives the message; every strict prefix is refused |
| Codec.PreparedResultExact | src/protocol.cpp:440-546 | the same for prepared results |
| Codec.CommitGrantExact | src/protocol.cpp:548-592 | the same for grants |
| Codec.CommitReceiptExact | src/protocol.cpp:594-664 | the same for receipts |
| Codec.AbortPreparedExact | src/protocol.cpp:666-692 | the same for aborts |
| Layout.GrantLayout | src/protocol.cpp:548-592 | where each field of a grant lies in its 126 bytes |
| Layout.AbortLayout | src/protocol.cpp:666-692 | the same for an abort and its 72 bytes |
| Layout.ReceiptsHead | src/protocol.cpp:594-602 | the same for a list of receipts |
| Layout.ReceiptsLayout | src/protocol.cpp:603-612 | and for each receipt in it, 150 bytes apart |
| Layout.ListRefused | src/protocol.cpp:623-624 | a list that announces more than 2^18 records is refused |
| Layout.PreparedHead | src/protocol.cpp:481-488 | the same for a prepared result |
| Layout.PreparedLayout | src/protocol.cpp:440-499 | and for each member in it |
| Layout.RequestHead | src/protocol.cpp:172-183 | the same for a request, its key and its device |
| Layout.MemberLayout | src/protocol.cpp:146-183 | and for each member in it |
| WireCodec.EncodeExecuteRequest | src/protocol.cpp:172-183 | the writer produces the specified bytes |
| WireCodec.DecodeExecuteRequest | src/protocol.cpp:185-208 | the reader gives the specified result, errors included |
| WireCodec.EncodePreparedResult | src/protocol.cpp:481-499 | the writer produces the specified bytes |
| WireCodec.DecodePreparedResult | src/protocol.cpp:501-546 | the reader gives the specified result, errors included |
| WireCodec.EncodeCommitGrant | src/protocol.cpp:548-559 | the writer produces the specified bytes |
| WireCodec.DecodeCommitGrant | src/protocol.cpp:561-592 | the reader gives the specified result, errors included |
| WireCodec.EncodeCommitReceipts | src/protocol.cpp:594-612 | the writer produces the specified bytes |
| WireCodec.DecodeCommitReceipts | src/protocol.cpp:614-664 | the reader gives the specified result, errors included |
| WireCodec.EncodeAbortPrepared | src/protocol.cpp:666-672 | the writer produces the specified bytes |
| WireCodec.DecodeAbortPrepared | src/protocol.cpp:674-692 | the reader gives the specified result, errors included |
| Binary.LosslessLE | include/decodefabric/binary.hpp:19-26 | little-endian integers read back |
| Binary.Exact | include/decodefabric/binary.hpp:48-115 | a reader that never looks past what it consumes accepts a message followed by anything and refuses every strict prefix |
| ByteStreams.Writer.LittleEndian | include/decodefabric/binary.hpp:15-26 | the byte loop appends the integer |
| ByteStreams.Writer.Blob | include/decodefabric/binary.hpp:30-39 | length, then bytes |
| ByteStreams.Reader.LittleEndian | include/decodefabric/binary.hpp:53-79 | the byte loop reads the integer or reports truncation |
| ByteStreams.Reader.Blob | include/decodefabric/binary.hpp:90-104 | length and bytes, with truncation and over-long lengths refused |

## Left out

- Guarantees.BoundedLead: speaks of sequences whose state id no other sequence uses, because with a shared state id each sequence drives the other's state; and of runs that do not go back to earlier snapshots, because an executor keeps what the coordinator then forgets.
- Rewinds.Refinement: assumes that no two spots of the run collide, because with recurring dispatch ids only the digests tell the lost stretch from the new one; and ties the recurrence to the sequence's own state id only when every request for the sequence named it, because a lost sequence may be submitted again with another state.
- Guarantees.ExecutorsAgree: needs the same first attempt and bytes held on both executors, because the initial state is seeded by them.
- Conservation.Conserved: tenant totals are stated for runs without recovery, because tenant totals are not persisted; memory balance for registered devices of non-zero size, because a zero size keeps the old capacity.
- PumpRuns.PumpUntilIdle: assumes that the acceptance key tells dispatch ids apart, which the program's own key does, that the dispatch counter does not pass 64 bits meanwhile, and that sequences have states of their own.
- Coordinator.DecodeFabric.Submit: the back-pressure checks are one input, and active-sequence counts per tenant and the request index are not kept.
- Coordinator.DecodeFabric.Schedule: score weights are floating point and are an input.
- The CUDA executor, which follows the same protocol behind CUDA calls.
- Sockets, threads, process entry points, the command line, and the snapshot files on disk.
- The floating-point recurrence, token choice and digest functions themselves.
- Events, explanations, JSON snapshots, derived rates, error texts and stale-rejection counters.
- The in-flight epoch, boot and position fields that only serve queries.
- Codecs of the messages outside the commit protocol (submit, status, query, explain, execute result).
- 64-bit wrap-around of id counters and token counters; it is modelled for KV bytes, device memory and tenant totals.
- Liveness: that work lost with a worker, yielded or recovered while dispatched is ever run again. The transition table does not support it.
- The lifecycle state and the token budget are values inside the sequence record, not objects of their own.
