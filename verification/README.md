# Verified models of Sonder Runtime

This project models the parts of Sonder Runtime that hold real protocols, state
machines and algorithms, and proves what they are there to guarantee. Everything
around them is reduced to what the code relies on: hashes and identities are opaque
values, Ollama is a map from alias to content, files are values replaced atomically,
models, clocks and failures are inputs.

`dafny verify dfyconfig.toml` checks the whole project (Dafny 4.11).

## What is modelled

**Personal-model deployment** (`Deployment*.dfy`). Several policies share one Ollama
endpoint. Deploy, rollback, recovery, adoption and release are sequences of durable
effects that can stop anywhere. The model is a transition system: one step is one
durable effect with the probes that lead to it, every external answer is an input, and
a crash forgets the running command and nothing else. `DeploymentInvariant` proves one
inductive invariant over every action; `DeploymentRecovery` and `DeploymentRuns` draw
the recovery theorems from it, `DeploymentRouting` and `DeploymentTakeover` the routing
theorems. `DeploymentConverse` drives runs from arbitrary states, `DeploymentExact` turns
the routing guards into exact conditions with it, and `DeploymentExamples` holds the
concrete runs.

**Command journal** (`Journal*.dfy`, `CommandJournal.dfy`). An append-only log of
checksummed JSON lines, folded into rows, truncated after a torn append and compacted.
The object with its file is in `CommandJournal`; runs over any interleaving of
instances, restarts, torn appends and compactions are in `JournalRuns`.

**Autopilot controller** (`Autopilot*.dfy`). Plans, replanning, the durable run record
with its conditional writes, and the controller loop against arbitrary callbacks. A
controller that dies is a controller whose later writes are all refused.

**Training-example selection** (`SelectionEvidence.dfy` from evidence rows to
interactions, `Selection.dfy` from interactions to examples), **canvas drawing**
(`Raster.dfy`, `Canvas.dfy`), **the blame parser** with the UTF-8 decoding it relies on
(`Blame*.dfy`), **record and replay**
(`Replay*.dfy`) and **the self-describing report** (`FitReport.dfy`).

## What turned out not to hold as hoped

- Routing safety across policies needs more than the code checks, in two places. What
  holds in every run without further checks is `HolderNeverRoutesUntrusted`.
  - `release_personal_owner` does not look at a pending journal, so a policy can give up
    ownership, another can adopt and deploy, and the first policy's recovery then routes
    its tiers to a candidate that has not passed the final suite
    (`UncheckedReleaseRoutesUntrusted`). On an endpoint shared with a second policy a
    release is safe if and only if recovery of the releasing policy would not route to the
    alias: no pending journal that is uncommitted, recorded models naming the alias and,
    for a deployment, can be undone (`ReleaseIsSafeIff`).
  - `adopt_legacy_personal`, and a first deployment onto an absent alias, do not look at
    the other policies, so a policy can take over an alias that another one routes to
    (`UncheckedAdoptionRoutesUntrusted`). Taking control is safe if and only if no other
    policy routes to the alias or has a pending rollback that would, or the taker's own
    deployment is beyond recovery (`TakeoverIsSafeIff`); an endpoint with a recorded owner
    is safe to start from if and only if that owner is alone in this sense
    (`StartIsSafeIff`).
  - Under either guard safety holds over every run: `SoundReleasesStaySafe` from any state
    in which routing is owned, `NoPolicyRoutesUntrusted` from any initial state whose
    recorded owner, if there is one, is alone.
- Recovery of an interrupted deployment restores the policy exactly when the policy is one
  it recognises (`PolicyRecoverable`); otherwise it restores the alias, stops and leaves
  journal and policy for the operator. `InterruptedDeploymentRecovers` states both sides.
- A recording replays to the same trajectory exactly when no answer was recorded after a
  provider error, because errors leave no entry on the tape, and the executions of the
  recorded answers end with the same verdicts (`ReplayEqualIff`). What they print may
  differ, and only shows as drift (`TracebackDrifts`). `ErrorThenAnswerParts` is the
  smallest recording that does not replay.
- What git prints for a blame comes back from the parser if and only if no text of a record
  holds a line break in the sense of `splitlines`, and no line of the committer's fields
  starts with a tab or says anything different about the record (`RoundTripIff`; nothing
  is assumed about the committer). A source line of a file with CR LF endings loses its
  carriage return (`TrailingReturnsAreLost`; in `ReturnExample` the text "a" with a
  carriage return comes back as "a"), and a carriage return in a committer's name can
  replace the author (`ForgedAuthorComesBack`, `ForgedAuthorExample`).
- An acknowledgement can be forgotten by the compaction of its own call, although it is
  answered: if and only if at least `max_commands` tombstones are newer, or equally new and
  received earlier (`AcknowledgementForgottenIff`). The clock need not go backwards for
  that: two acknowledgements of one instant and a limit of one suffice
  (`TieForgetsTheSecond`).

## Model

| member | source | states |
|---|---|---|
| DeploymentInvariant.ExecKeeps | adaptive_training.py:1076-1792 | the invariant tying policy, journal, transition record, owner, state, aliases and ledger holds after every sequence of steps, failures, crashes, policy edits and commands of any policy |
| DeploymentInvariant.StepKeeps | adaptive_training.py:1933-2718 | each single durable effect of any command, with any outcome of its external calls, keeps the invariant |
| DeploymentRouting.HolderNeverRoutesUntrusted | adaptive_training.py:2439-2607 | in every run, while the alias holds content that has not passed the final suite there is a transition holder and it does not route to the alias |
| DeploymentRouting.SoundReleasesStaySafe | adaptive_training.py:2018-2114 | from any invariant state in which whoever routes or would be restored to route owns the alias, no run whose releases are sound routes any tier of any policy to an untrusted alias |
| DeploymentTakeover.SoundTakeoversStaySafe | adaptive_training.py:2745-2834 | the same from any invariant state in which whoever can write the alias is alone in claiming it, for runs in which control is only taken soundly |
| DeploymentTakeover.NoPolicyRoutesUntrusted | adaptive_training.py:2382-2391 | no tier of any policy names an untrusted alias in any run from an initial state whose recorded owner, if any, is alone, as long as adoptions and first deployments happen while no other policy claims the alias |
| DeploymentExact.ReleaseIsSafeIff | adaptive_training.py:2798-2834 | next to any second policy, a release keeps routing safe in every continuation with sound releases if and only if the releasing policy has no uncommitted, recoverable journal whose prior models name the alias |
| DeploymentExact.TakeoverIsSafeIff | adaptive_training.py:2745-2795 | an adoption, or an admitted first deployment, keeps routing safe in every continuation with sound takeovers if and only if no other policy claims the alias or the taker is stuck |
| DeploymentExact.StartIsSafeIff | adaptive_training.py:1175-1199 | an initial state with a recorded owner is safe in every such continuation if and only if no other policy claims the alias |
| DeploymentConverse.PublishesUntrusted | adaptive_training.py:2320-2447 | from any quiet invariant state an admissible policy, whatever it has pending, can be driven until it has put untrusted content on the alias |
| DeploymentConverse.RouteRestored | adaptive_training.py:1494-1564 | a policy that would route is made to route by its next command, which changes nothing of any other policy |
| DeploymentExamples.UncheckedReleaseRoutesUntrusted | adaptive_training.py:2798-2834 | from an initial state five commands with no failing call leave a policy routing to an unverified candidate after an unchecked release |
| DeploymentExamples.UncheckedAdoptionRoutesUntrusted | adaptive_training.py:2745-2795 | from a safe endpoint without a recorded owner, an adoption and a deployment by a second policy leave the first one routing to an unverified candidate, with nothing released |
| DeploymentExamples.CommandIsRun | adaptive_training.py:1907-1930 | the commands of these two runs are ordinary runs of the transition system |
| DeploymentRecovery.InterruptedDeploymentRecovers | adaptive_training.py:1652-1792 | from any invariant state with an uncommitted pending deployment the next command restores the recorded alias content, and restores the prior models and clears journal, transition and leftover aliases exactly when the policy is recoverable |
| DeploymentRecovery.CommittedDeploymentFinalizes | adaptive_training.py:1580-1651 | a deployment that stopped after the state commit is finished: content and activated models stay, ownership is recorded, the journal goes |
| DeploymentRecovery.InterruptedRollbackRecovers | adaptive_training.py:1494-1564 | an interrupted rollback stands if it had committed, else the models before it come back; the journal is cleared and the alias untouched |
| DeploymentRuns.CrashRecoveryRestores | adaptive_training.py:2320-2696 | whatever happened while the deployment was pending, one undisturbed command brings alias and models back to the state at reservation |
| DeploymentRuns.ReservationRecords | adaptive_training.py:2320-2360 | the reservation records the alias content and the models of that moment |
| DeploymentRuns.CommitIsNeverUndone | adaptive_training.py:2635-2696 | a committed deployment stays committed, with its verified content in place, throughout any run while it is pending |
| DeploymentRuns.OthersAreBlocked | adaptive_training.py:1126-1199 | while a transition record exists, no action but a step of its own policy changes the record, the owner or the alias |
| DeploymentRuns.AliasWrittenByHolder | adaptive_training.py:1436-1458 | the personal alias changes only in a step of the policy that holds the transition record, with no foreign owner, and a candidate is put there only by an admitted deployment |
| DeploymentRuns.NoLeakedCandidate | adaptive_training.py:1247-1332 | in every reachable state each candidate alias is named in its policy's cleanup ledger |
| DeploymentRuns.AtMostOneCandidate | adaptive_training.py:1914-1918 | at most one candidate per policy exists at any time of any run |
| JournalModel.ReplayAppend | command_recovery.py:154-190 | replaying a concatenation is replaying the parts one after the other |
| JournalModel.ReplayOk | command_recovery.py:154-190 | rows of a legal log have distinct keys and carry a result and timestamps exactly as their state requires |
| JournalCompaction.KeptTombstonesAreNewest | command_recovery.py:281-292 | the kept tombstones are at most the limit, fill it when any is lost, and are no older than every lost one |
| JournalCompaction.KeptRows | command_recovery.py:277-301 | the kept rows are, as a multiset, every unacknowledged row and the kept tombstones, and with the lost tombstones they make up all rows |
| JournalCompaction.CompactedReplays | command_recovery.py:297-350 | the compacted log replays to exactly the kept rows, minus the uncertain time of finished ones |
| JournalCompaction.SortPlaces | command_recovery.py:281-292 | the stable sort puts every tombstone exactly behind the newer ones and the equally new ones received before it |
| JournalCompaction.KeptTombstoneIff | command_recovery.py:281-292 | a tombstone is kept if and only if fewer than the limit come before it in that order |
| JournalCompaction.CompactionPreservesMeaning | command_recovery.py:277-361 | for every key a reader of the compacted log sees the same row, or nothing exactly when there was nothing or a tombstone with at least the limit of others before it |
| JournalCompaction.CompactionBound | command_recovery.py:421-427 | a compaction leaves two records per unacknowledged row and three per kept tombstone at most |
| JournalBytes.TornAppendRecovers | command_recovery.py:192-240 | reading whole records followed by any torn tail yields their replay and the end of the last whole record; a log that does not replay is refused |
| JournalWitness.PlainIsSound | command_recovery.py:242-253 | there is a codec that keeps the two promises about records, for every event |
| JournalBytes.PrefixIsTorn | command_recovery.py:255-268 | every proper prefix of a record is such a torn tail |
| JournalBytes.TruncationIsStable | command_recovery.py:233-240 | for arbitrary readable bytes, truncating where the reader stopped and reading again gives the same rows and cuts nothing more |
| CommandJournal.DecisionReplays | command_recovery.py:387-493 | whatever a call decides to append replays on the rows it has read |
| CommandJournal.Journal.ReadLocked | command_recovery.py:192-240 | the reading loop computes the replay of the bytes and truncates the file to the last whole record, or leaves a corrupt file alone |
| CommandJournal.Journal.CompactLocked | command_recovery.py:277-361 | the file becomes the encoding of the compacted log, or stays when a record would be too large |
| CommandJournal.Journal.AppendLocked | command_recovery.py:255-268 | whatever the single writes take, the loop leaves the old file followed by as much of the record as they took before one made no progress, never more, and succeeds exactly when that is the whole record and the sync succeeds |
| CommandJournal.Journal.CommitLocked | command_recovery.py:363-372 | append, fold and forced or size-triggered compaction as one effect on the bytes |
| CommandJournal.Journal.ReceiveCommand | command_recovery.py:407-438 | new bytes and reply of a receive: conflict, public state, full, or a durable receipt with the go-ahead |
| CommandJournal.Journal.CompleteCommand | command_recovery.py:440-465 | new bytes and reply of a completion, including repeated and conflicting results |
| CommandJournal.Journal.MarkCommandUncertain | command_recovery.py:387-405 | new bytes and reply of marking a command uncertain |
| CommandJournal.Journal.AcknowledgeCommand | command_recovery.py:467-493 | new bytes and reply of an acknowledgement, which always tries to compact |
| CommandJournal.Journal.InspectCommand | command_recovery.py:495-501 | the public state, with at most a torn tail removed |
| JournalRuns.CompactionInventsNothing | command_recovery.py:297-350 | every record of the compacted log is a record of the log it replaces |
| JournalRuns.CallRefines | command_recovery.py:374-493 | a call on the bytes of a legal file with a torn tail is the call on its records, and leaves such a file whatever interrupts it |
| JournalRuns.RunsStayLegal | command_recovery.py:154-190 | after every run the file is a legal log with at most a torn tail, and reading it gives that log's rows |
| JournalRuns.CallAdvances | command_recovery.py:374-493 | across one call a known command is forgotten if and only if the call compacts and as many tombstones as fit come before its own; otherwise it only moves forward with its request, owner, result and acknowledgement kept |
| JournalRuns.AcknowledgementForgottenIff | command_recovery.py:467-493 | an acknowledgement is forgotten by its own call if and only if it is written whole, the compaction succeeds and, among the rows before the call, at least the limit of tombstones are newer than now, or of now and received before |
| JournalRuns.TieForgetsTheSecond | command_recovery.py:281-292 | with room for one tombstone the second of two acknowledgements of one instant is answered and forgotten |
| JournalRuns.StaysKnown | command_recovery.py:154-190 | the same over any stretch of a run in which the command is not forgotten |
| JournalRuns.AtMostOnce | command_recovery.py:407-438 | two go-aheads for one command in a run always have the disposal of its acknowledged, out-numbered tombstone between them |
| JournalRuns.ResultsAgree | command_recovery.py:440-465 | all answers a run gives for one command carry the same result until it is forgotten |
| JournalRuns.RunsStayBounded | command_recovery.py:421-427 | with one shared limit no run holds more unacknowledged commands than that and every compaction leaves at most five times as many records |
| AutopilotPlan.NormalizedIsWellFormed | autopilot_controller.py:256-300 | an accepted plan has ids equal to positions, respects the task budget, has a live validation, is untouched and has a non-empty criterion |
| AutopilotPlan.ReplanIsWellFormed | autopilot_controller.py:461-537 | an accepted replan is well formed again, changes earlier tasks only by superseding the failed or stale ones and adds only fresh tasks, none of them implementing under the observe policy |
| AutopilotPlan.AppendReplan | autopilot_controller.py:461-537 | the loops compute the specified replan or the specified error |
| AutopilotPlan.Admit | autopilot_controller.py:496-511 | the loop over proposed tasks admits exactly the new ones, in order, while there is room |
| AutopilotPlan.Retire | autopilot_controller.py:469-490 | the in-place supersession and whether it superseded any pending task |
| AutopilotPlan.GatesAgree | autopilot_controller.py:386-405 | on plans whose passed tasks carry fit receipts the controller's completion gate and the store's evidence check accept the same runs |
| AutopilotPlan.NextPending | autopilot_controller.py:408-419 | the first task that is pending or waiting for a provider and not deferred |
| AutopilotPlan.MarkInterrupted | autopilot_controller.py:440-458 | exactly the running tasks become uncertain, and whether there were any |
| AutopilotPlan.ClearDeferred | autopilot_controller.py:422-437 | exactly the deferred pending tasks become runnable |
| AutopilotStore.RunStore.Save | sonder_runtime/adapters/persistence/autopilot_store.py:476-561 | a progress write is refused exactly when the lease is lost or a cancel is set, and changes nothing then |
| AutopilotStore.RunStore.Finish | sonder_runtime/adapters/persistence/autopilot_store.py:894-972 | releasing a run needs the lease; completing it also needs durable evidence; cancelling closes its open tasks |
| AutopilotStore.RunStore.Claim | sonder_runtime/adapters/persistence/autopilot_store.py:416-473 | a run is claimed exactly when it is not terminal, not cancelled and not held by a live owner |
| AutopilotStore.RunStore.HandOver | autopilot_controller.py:1062-1064 | a task goes to the workbench only when it is durably running and no earlier hand-over of it is without a recorded outcome |
| AutopilotStore.HandOnce | autopilot_controller.py:440-458 | handing over a task with no open hand-over keeps the history free of replays |
| AutopilotController.ReplanKeeps | autopilot_controller.py:993-1013 | a replan within budget may be saved: budgets, plan shape, evidence and open hand-overs are kept |
| AutopilotController.StartTask | autopilot_controller.py:1023-1047 | work starts only after the running task is stored; a refused write stops the invocation |
| AutopilotController.ProviderFailed | autopilot_controller.py:1064-1100 | an unavailable provider gives the attempt back and counts at most three retries per task |
| AutopilotController.RecordOutcome | autopilot_controller.py:1101-1172 | status and receipt follow from the host's observations, a cycle is spent, and a failure is counted unless the task passed or its validation was deferred |
| AutopilotController.ReviewCompletion | autopilot_controller.py:949-1021 | with nothing runnable the run completes only, and without interference always, when the gate passes and the reviewer says complete; it goes on only after one more replan |
| AutopilotController.TryReplan | autopilot_controller.py:993-1013 | the loop goes on exactly when the budget allows the replan and the host accepts it, with that plan stored unless the write was refused; otherwise the run is blocked |
| AutopilotController.AfterPass | autopilot_controller.py:1182-1305 | after a discovery task the plan is kept, a checkpoint counted, or both a checkpoint and a replan; at most six checkpoints per run |
| AutopilotController.AfterFailure | autopilot_controller.py:1306-1365 | below the failure budget a failed task is put back only before its second attempt, with nothing else changed, or replaced by one replan; otherwise the run stops |
| AutopilotController.RecoverWorkspace | autopilot_controller.py:723-779 | after a workspace change the loop is reached only through a host-observed read-only inspection and exactly one accepted replan |
| AutopilotController.MakePlan | autopilot_controller.py:876-898 | the stored plan and criteria are the normalized proposal |
| AutopilotController.Resume | autopilot_controller.py:829-875 | a run with a task left running hands nothing over and answers with every such task uncertain, unless lease or run was lost |
| AutopilotController.Loop | autopilot_controller.py:907-1365 | the loop ends for all callbacks, by cycles left, replans left, whether writes are still accepted, provider retries left and waiting time left, and spends at most the invocation's cycles |
| AutopilotController.ExecuteRun | autopilot_controller.py:782-1420 | a whole invocation keeps the invariant, leaves terminal and cancelled runs alone, and raises only when the lease is lost |
| AutopilotController.History | autopilot_controller.py:782-1420 | over any number of resumes, crashes and cancels: cycles at most 50, replans and provider retries within budget, well-formed plans, sound completion, no replayed task |
| AutopilotController.UncertainForever | autopilot_controller.py:440-458 | an uncertain task is never anything else again, never handed over, and its run never completes |
| AutopilotController.CompletionIsSound | autopilot_controller.py:386-405 | a completed run has every task passed on fit evidence or superseded, a passed validation, and no hand-over in doubt |
| Selection.TopIsUnique | export_training_data.py:121-153 | the selection is determined by what was seen |
| Selection.TopIsSortAndTruncate | export_training_data.py:121-153 | it is the first so many of the per-prompt bests sorted by rank |
| Selection.StreamIsTop | export_training_data.py:121-153 | the streamed map with eviction is that selection as long as the character cap does not bind |
| Selection.OrderDoesNotMatter | export_training_data.py:121-153 | any two orders of arrival that avoid the cap select the same examples |
| Selection.CapHasRoom | export_training_data.py:138-141 | the cap does not bind while everything offered fits under it |
| Selection.Selector.PopLive | export_training_data.py:142-151 | popping reaches the lowest live entry before the heap runs empty, so the inconsistency error is unreachable, cap or no cap |
| Selection.Selector.Evict | export_training_data.py:138-153 | the two eviction loops squeeze the winners by lowest rank and keep the books |
| Selection.Selector.FinalizeGroup | export_training_data.py:64-153 | an interaction gets exactly one primary reason or a place among the winners; retained characters stay those of the live winners |
| Selection.Accept | export_training_data.py:219-253 | the loop with its running totals computes the final pass, reason by reason |
| Selection.PassStaysWithin | export_training_data.py:219-253 | the pass keeps to the count, byte and character ceilings together, accounts for every winner once and never reports the example limit |
| Selection.PassIsFair | export_training_data.py:219-253 | a winner is left out only if it is no valid record or does not fit beside better-ranked accepted ones |
| Selection.FinalPass | export_training_data.py:218-253 | interactions counted equal accepted examples plus primary rejections, each early reason has its exact count, the accepted ones are winners of the stream for different prompts within every budget, and no winner that would have fitted is left out |
| Selection.OrderIsByPrompt | export_training_data.py:254-258 | the listed examples are the accepted ones in the only ascending order of their prompts |
| SelectionEvidence.RankCompares | export_training_data.py:108-126 | one number compares as population, then price, then row id, and is never shared by two outcomes |
| SelectionEvidence.TallyMeans | export_training_data.py:181-209 | an interaction is disputed exactly when some row is corrupt or negative, and rests on the strongest good row if there is one |
| SelectionEvidence.CallerComesFirst | export_training_data.py:157-163 | a good outcome judged by a caller is never displaced by the runtime's own marking |
| SelectionEvidence.RunsPartition | export_training_data.py:174-182 | the interactions cut the rows into consecutive pieces of one id each, with different ids next to each other |
| SelectionEvidence.InteractionsAreWhole | sonder_runtime/adapters/memory_store.py:2657-2675 | in the order of the query each piece is all the evidence for its interaction and no interaction occurs twice |
| SelectionEvidence.StreamAll | export_training_data.py:165-216 | refused exactly when there are too many rows or interactions; otherwise the selector has seen every interaction once, holds the streamed winners and counts each early refusal and each eligible interaction exactly |
| SelectionEvidence.SelectExamples | export_training_data.py:47-269 | the whole selection from evidence rows: its error cases, its accounting, what is accepted and why anything is not, the eligible count, and the examples as the accepted ones in ascending order of distinct prompts |
| Selection.AcceptedPromptsDiffer | export_training_data.py:254-258 | accepted examples answer different prompts |
| Raster.StepIsRounding | assetgen.py:235-243 | the two comparisons of the loop step exactly to the next rounded point, with the error that goes with it |
| Raster.WalkStays | assetgen.py:230-243 | the walk starts at the start, ends at the end, stays in the box and within half a pixel of the true line |
| Raster.LineShape | assetgen.py:230-243 | a line reaches its end only at the last step and visits no point twice |
| Canvas.Canvas.constructor | assetgen.py:201-204 | a canvas of clamped sides shows its colour everywhere |
| Canvas.Canvas.Pixel | assetgen.py:206-209 | one point on the canvas changes, nothing off it does, and the buffer keeps its length |
| Canvas.Canvas.Rect | assetgen.py:211-214 | exactly the part of the rectangle on the canvas is filled |
| Canvas.Canvas.Line | assetgen.py:230-243 | the loop terminates after one pixel per step of the longer axis and colours exactly the rounded line |
| Blame.ParseBlamePorcelain | git_history.py:481-537 | the loop computes the specified parse, with the same errors and the same incompleteness flag |
| BlameProofs.HeaderParses | git_history.py:475-478 | a printed header line, with or without a group size, matches and gives back commit and line numbers |
| BlameProofs.RecordComesBackIff | git_history.py:497-524 | the fields of a record complete to exactly that record if and only if the committer's fields say nothing different about author, boundary and previous version |
| BlameRoundTrip.RoundTrip | git_history.py:481-537 | parsing the porcelain printing of any records without inner line breaks and with harmless committers returns exactly those records, without a carriage return at the end of a source line |
| BlameRoundTrip.PlainCommitterIsHarmless | git_history.py:528-531 | a committer whose name, mail and zone hold no line break is harmless |
| BlameTruncation.TruncationIsSafe | git_history.py:481-537 | for every byte prefix of such output, source lines with CR LF endings included, parsed as truncated the result is exactly the complete records, the one whose text had begun with the text that is left, and the incompleteness flag, set exactly when the cut falls inside a header or a field |
| BlameTruncation.SurvivorsAreFirst | git_history.py:481-537 | those are the first records, whole but for the end of the last text; a record flagged incomplete is not among them |
| BlameExact.ParsedIsTidy | git_history.py:486-486 | no text of a parsed record holds a line break, whatever the payload |
| BlameExact.TabsAreRecords | git_history.py:497-527 | whenever parsing ends without error or break, every line that starts with a tab has become exactly one record |
| BlameExact.RoundTripIff | git_history.py:481-537 | what git prints comes back as it was if and only if no text of a record holds a line break and every committer is harmless |
| BlameExact.TrailingReturnsAreLost | git_history.py:486-486 | any number of records whose source lines all end in a carriage return come back without it |
| BlameExact.ReturnExample | git_history.py:486-486 | one concrete record of a file with CR LF endings: the text "a" and a carriage return comes back as "a" |
| BlameExact.ForgedAuthorComesBack | git_history.py:528-531 | a committer whose name holds a carriage return and a line about the author replaces the author of any record |
| BlameExact.ForgedAuthorExample | git_history.py:528-531 | one concrete record of that kind |
| BlameUtf8.DecodeEncode | git_history.py:523-531 | decoding with replacement gives back every text that was encoded |
| BlameUtf8.DecodeCut | git_history.py:523-531 | a cut encoding decodes to the characters that are whole and one replacement for a character cut in half |
| Replay.TrajectoryRecord | eval_harness.py:1085-1109 | the projection loop computes the fold of the events |
| Replay.FoldIsSteps | eval_harness.py:1085-1109 | on the events of a case the fold yields one step per call with its response, error flag and last execution |
| Replay.ReplayEqualIff | eval_harness.py:1085-1109 | a recording made with one grading replays with another to an equal trajectory if and only if no answer was recorded after a provider error and the last executions of the recorded answers say the same; outputs and prompts may differ |
| Replay.AlikeVerdicts | eval_harness.py:489-494 | two gradings that agree on extraction, verdicts and repaired imports, but not on what they print, give the same verdicts |
| Replay.TracebackDrifts | eval_harness.py:489-494 | a traceback that differs from run to run leaves the trajectory equal and is noted as drift of the prompt that quotes it |
| Replay.DriftIff | eval_harness.py:536-539 | a call is noted as drift if and only if its prompt is not the recorded one |
| Replay.ErrorThenAnswerParts | eval_harness.py:527-571 | a provider that fails once and then answers: the recording has error and answer, its replay answer and miss |
| Replay.CleanRecordingReplays | eval_harness.py:527-539 | a recording without provider errors replays with anything that grades alike: no miss, the same responses and an equal trajectory, and with the scenario itself the same prompts |
| ReplayProviders.RecordingProvider.Generate | eval_harness.py:567-571 | an answer is appended to the tape of the current scenario; an error leaves no trace |
| ReplayProviders.ReplayProvider.Generate | eval_harness.py:527-539 | the entry under the cursor, or a miss past the end, with prompt drift noted |
| ReplayProviders.RecordCase | eval_harness.py:937-972 | a live case yields the trajectory of its answers and puts exactly those answers on tape |
| ReplayProviders.ReplayCase | eval_harness.py:523-539 | the trajectory of a replayed case depends on the tape of its own scenario only, and exactly the calls with another prompt than recorded are added to the drift |
| ReplayProviders.RecordThenReplay | eval_harness.py:486-571 | after recording a suite its cases, as they are graded now, replay in any order and number, each equal to its recording exactly when replayable, with all drift noted in order |
| FitReport.MeasuringConverges | data_convert.py:458-462 | from any start below 10 to the 90th three measurements reach a size that states itself |
| FitReport.SameSide | data_convert.py:464-464 | where two sizes are self-consistent they lie on the same side of the ceiling |
| FitReport.Report.Measure | data_convert.py:458-463 | the ten rounds always end with the report stating its own size |
| FitReport.Report.Fit | data_convert.py:455-470 | succeeds exactly when some preview prefix fits, keeps the longest one, sets the truncation flag accordingly and states the true size |

## Left out

- Deployment in imperative form: the protocol is a state machine over values, because a
  crash between any two effects needs a state for each of them; closures, exceptions and
  in-place updates of the files are steps of that machine.
- Deployment inputs: JSON encodings, identifier and size validation, adapter conversion and
  the separate probes of identity and digest; the last two are one opaque content.
- Foreign changes of the aliases are excluded from deployment runs.
- Deployment after two independent failures (the alias cannot be restored, then fail-safe
  routing is written): only safety is claimed, not restoration.
- Aliases of earlier personal models across training runs are not tracked.
- Process liveness checks, lock files and training launches of `adaptive_training.py`.
- The JSON text and checksum of a journal record: a codec with the one promise that a
  record reads back as its event and contains no newline. Identifier and request checks,
  lock timeouts and the thread lock are not part of the model; times are integers.
- AutopilotPlan.NormalizedIsWellFormed: texts are taken as already cleaned, and case is
  folded for ASCII letters only.
- Autopilot reports, events, steering notes, strategy observers and task histories: they
  decide nothing.
- After a lost lease the controller may read another owner's record before it stops; the
  model lets it read its own last one, since every later write is refused either way.
- Selection: the canonical prompt, the privacy classifier and the JSON record of an example
  are given with each interaction, as its key, a flag and sizes; the finer privacy counts
  and the counts by population are left out.
- The heap of the selection is a priority queue, not an array of heap nodes.
- Canvas circles, diamonds and file formats; colours are four bytes.
- Blame: a time with underscores or surrounding spaces counts as malformed; commit names
  are taken to be hexadecimal, and that of a previous version to be one word.
- Replay: wall-clock timeouts, tool-policy scenarios and named verifiers other than the
  code runner; within one run grading is a function of the code, but recording and replay
  may grade differently.
- FitReport.Report.Fit: reports of 10 to the 89th bytes and more.
- Everything else in the repository: prompts, servers, front ends, stores and adapters.
