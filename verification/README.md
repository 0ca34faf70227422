# Helpdesktool in Dafny

A model of the control plane and the endpoint agent of Helpdesktool, with machine-checked proofs of what they
promise together. `dafny verify dfyconfig.toml` checks everything.

## What is modelled

**The job lease, both sides at once.** `Server` gives each request handler of the control plane (creating and
deciding an action, claiming a job, reporting its result, the lease reaper, the retention purge) as a function on
the tables; `ControlPlane` is the class that changes the tables in place and is proved equal to it. `Journal` is the
agent's execution journal with its dictionary and its file. `Protocol` puts the two together as a state machine:
one agent that polls, claims, journals, executes, reports, prunes, crashes and recovers, cycle after cycle, against a
control plane that everybody else keeps using, over a network that loses requests and replies, with journal saves that
may fail and a clock that may advance at any point. `ProtocolRuns` holds the joint invariant; `ProtocolTheorems`,
`ProtocolResults`, `Recovery` and `Origins` what follows from it; `Scenarios` whole runs that show what the design does
not rule out. `LinuxAgent` is the agent as the loop it is in the source, every method of which is proved to walk a
path of that state machine.

**The control plane over whole runs.** `Lifecycle` is the automaton that folds an action's audit events back into its
status. `ServerRuns` proves that it always agrees with the tables, that attempts are bounded and actions settle, and
that nobody approves their own action. `Submissions`, `Decisions`, `Claims`, `Reports` and `Upkeep` say of each handler
what it answers and leaves, told from the request and the tables alone, and what follows for every row; `Provenance`
carries that to the agent's journal and executor. `Standing` follows a skill's definition from queueing to claim.
`Replays` proves what idempotency keys promise.

**Smaller machines.** The hash-chained audit log (`AuditChain`), the versioned skill registry and policy (`Skills`,
`Policy`), immediate execution with rollback (`Immediate`), the canonical texts that are hashed and signed (`Json`,
`SortedNames`, `ManifestText`, `EnvelopeText`), signing keys across rotation, failed saves, restart and migration
(`Signing`, `KeyRotation`, `PinRuns`, `AgentConfig`), the service executor (`Executor`), the sliding-window rate
limiter (`RateLimiter`), incident correlation (`Incidents`), the webhook outbox (`Webhooks`), step-up codes of
connector requests (`ConnectorRequests`), session tokens (`SessionToken`) and the confidence score (`Confidence`,
`Rounding`).

### Assumptions

- One shared clock that never goes back; times are whole microseconds (seconds in session tokens, reals in the rate
  limiter).
- One agent process per device, and only it holds the device's credential. Every other client may send anything.
- Each request handler is one transaction: it commits as a whole or changes nothing.
- SHA-256, HMAC and Ed25519 are ideal: free constructors, or injective function parameters. For manifests, envelopes and
  audit records the canonical JSON they are applied to is not: that its text determines the fields is proved. A request
  remembered under an idempotency key is compared as it is, in place of its digest.
- Action ids are UUIDs, so they contain no `:`. Statements that need this say so; the journal's keys are pairs of
  action and attempt, which `Text.JobIdInjective` justifies.
- Identifiers the source draws at random (action ids, event ids, nonces, step-up codes) are parameters.

### Where code and documentation differ

The model follows the code. Each difference is stated as a lemma with the exact condition:

- A requeued job is not executed again while its claim record is on file, because the agent's claim key is the same
  for every attempt: `FreshExactlyWithoutRecord`, `ReapLeavesStuckExactly`, `RequeuedWaitsForPurge`, and the run
  `RequeueGetsStuck`. Recovery does not always reach `reported`: `AcknowledgedExactly` says when it can,
  `ForfeitedStaysPending` when it never will.
- A success on record does not always mean that something ran. It does not exactly when the job was given up before
  its launch, by a crash, a failed save or a refusal, with its entry in the journal ever since:
  `SuccessWithoutExecutionExactly`, with the runs `SuccessWithoutExecution` and `SuccessAfterRefusal`. `JournalTells`
  says what the journal knows of it; for an `executing` entry it knows nothing: `JournalCannotTell`.
- A skill's standing is asked when an action is queued, not when it is claimed: `ClaimedSkillExactly`, and the run
  `ProhibitedSkillRuns`.
- Agents keep trusting retired key versions: `RetiredVersionsStayTrusted`. A pin whose save failed does not survive a
  restart, is not saved again by later refreshes, and may come back as another key: `PinSurvivesExactly`,
  `FailedSaveIsNotRetried`, and the run `LostPinCanChange`.
- The audit chain does not notice a truncated tail: `VerifiedPrefix`. It notices every change that leaves the last
  hash alone: `HeadBindsHistory`.
- Reopening an incident leaves its ticket resolved: `TicketDisagreesExactly` says exactly when the two differ, told from
  the observations in `OnlyTicketExactly`, with the history `ReopenedWithResolvedTicket`. A key can have several
  incidents, exactly when an observation came later than the window allows: `OneIncidentExactly`.
- A rollback is attempted for skills recorded at level L1 when they declare an empty rollback id:
  `RollbackAgreesWithLevel`.
- A step-up code can serve again if an exception rolls back the decision it was consumed in, even after the
  operation was carried out: `CodeServesAgainAfterException`, bounded by `OperationsBounded`.
- The cap of 0.69 keeps contradicted evidence below HIGH only for thresholds above it: `ContradictedNeverHigh`.

## Model

| member | source | states |
|---|---|---|
| ProtocolTheorems.AtMostOnceExecution | linux_agent/agent.py:164-226 | over every run of agent, control plane, other clients, losses and crashes, no claim attempt is handed to the executor twice |
| ProtocolTheorems.AtMostOncePerJobId | agent_common/journal.py:109-136 | the same for the `job_id` texts the journal is keyed by |
| ProtocolTheorems.ExecutionsPerAction | helpdesktool/lease_reaper.py:63-94 | the executor runs for an action at most max(1, maximum attempts) times, and at most once more than its claim record was purged |
| ProtocolTheorems.FreshExactlyWithoutRecord | helpdesktool/api.py:2995-3105 | a claim starts a new attempt exactly when no record is on file for the agent's fixed key and the skill is still registered; otherwise it changes nothing |
| ProtocolTheorems.RequeuedWaitsForPurge | linux_agent/agent.py:176-189 | a requeued action whose claim record is on file keeps its row unchanged through any run without a purge |
| Recovery.ReapLeavesStuckExactly | helpdesktool/lease_reaper.py:63-94 | reaping an expired claim whose record is on file leaves the action stuck exactly when attempts remain |
| Scenarios.RequeueGetsStuck | helpdesktool/lease_reaper.py:63-94 | a run from empty tables that ends with a stuck action: a lost claim reply, an expired lease, a requeue |
| Recovery.AcknowledgedExactly | helpdesktool/api.py:3109-3138 | over every run a report of a journaled attempt is acknowledged exactly when the same result is on record under its key, or nothing is and the attempt is still claimed within its lease |
| Recovery.RecoveryFinishesExactly | linux_agent/agent.py:247-277 | recovery marks an entry reported exactly in that case and when the reply arrives; otherwise the journal stays as it is |
| Recovery.ForfeitedStaysPending | linux_agent/agent.py:247-277 | once an attempt is over without a report on record (requeued, superseded, failed by the reaper), no later recovery ever finishes its entry |
| Recovery.RunOwnToken | helpdesktool/api.py:3486-3490 | over every run the token on the agent's action is the one its fixed claim key yields for the current attempt |
| ProtocolTheorems.DiskIsFaithful | agent_common/journal.py:85-107 | in every reachable state the file is a lower bound of the memory, a begun execution shows as at least `executing` on file until its action settled, and entries carry their own key and token |
| ProtocolTheorems.DiskMovesForward | agent_common/journal.py:138-182 | on file an entry's state and result only move forward, and it disappears only after its action settled |
| ProtocolTheorems.NoExecutionAfterCrash | linux_agent/agent.py:247-291 | what was on file at a crash is never executed again, by recovery or by any later cycle |
| ProtocolTheorems.RetiredForever | linux_agent/agent.py:247-291 | a job the agent has on file, in memory and not under way stays so for the rest of the run, with an unchanged number of executions |
| ProtocolTheorems.TablesReachable | helpdesktool/api.py:2995-3209 | the control plane's invariants hold of its tables in every state of the joint protocol |
| ProtocolTheorems.ExecutedWasAuthorised | helpdesktool/orchestrator.py:86-115 | whatever ran on the endpoint had been queued, and either needed no approval when submitted or was approved by someone other than its requester |
| ProtocolTheorems.OneOutcomePerJob | helpdesktool/api.py:3128-3153 | in the joint protocol two outcomes on the audit log always belong to different attempts, however often results are resent |
| ProtocolResults.JournaledResultIsRecorded | linux_agent/agent.py:247-277 | a result in the agent's journal, in memory or on file, is the only one the control plane can have recorded for that attempt |
| ProtocolResults.ExecutedResultPrevails | helpdesktool/api.py:3109-3214 | once a result is on file, no crash, lost reply, resend, pruning, purge or other client makes the control plane record another one for that attempt |
| ProtocolResults.StepAnswers | helpdesktool/api.py:3128-3175 | only an accepted report adds a result row, exactly its own, and it settles the action |
| ProtocolResults.AcceptedIsCurrent | helpdesktool/api.py:3486-3490 | a report with the token of one attempt is accepted only while that attempt is the current one and unsettled |
| Origins.RecordedResultOrigin | linux_agent/agent.py:247-326 | over every run a result on record is what the executor returned for that very job, that job's refusal, or what recovery observed of it |
| Origins.SuccessWithoutExecutionExactly | linux_agent/agent.py:261-313 | a success on record belongs to a job that never ran exactly when an earlier step gave the job up before its launch (a crash, a failed save, a refusal) and its entry stayed in memory since; recovery's observation is then the result |
| Origins.UnexecutedExactly | linux_agent/agent.py:191-313 | over every run a journaled job not being prepared, whose action is open, was never executed exactly when it was given up before its launch and its entry not lost since |
| Origins.JournalTells | linux_agent/agent.py:247-291 | when a success goes on record the job ran unless recovery observed; recovery observes for `claimed` entries, which never ran, and `executing` ones |
| Origins.ExecutedExactlyLaunched | linux_agent/agent.py:293-326 | the executor log holds exactly the jobs launched so far |
| Scenarios.SuccessWithoutExecution | linux_agent/executor.py:110-133 | a run from empty tables that ends with a succeeded action and an empty executor log |
| Scenarios.SuccessAfterRefusal | linux_agent/agent.py:293-313 | a run without a crash in which the agent refuses an envelope, its report is lost, and recovery makes a success of it |
| Scenarios.JournalCannotTell | linux_agent/agent.py:279-291 | two runs with the same tables, journal and file at recovery, which makes a success of both, although only one job ran |
| Standing.ClaimedSkillExactly | helpdesktool/api.py:3012-3022 | over every run a claimed action's skill could run when the action was first queued and is still registered; it may still run at the claim exactly unless its last registration in between is prohibited, destructive or unsupported |
| Scenarios.ProhibitedSkillRuns | helpdesktool/api.py:3012-3022 | a run in which the skill of a queued action is prohibited and the endpoint executes it all the same |
| ProtocolRuns.StepKeeps | linux_agent/agent.py:164-326 | every step of the joint protocol keeps the joint invariant of tables, journal, file, executor log and clock |
| ProtocolRuns.ReplyIsFreshOrExpired | agent_common/signing.py:135-143 | the claim of a queued action yields a new attempt, or an old one whose envelope has already expired |
| LinuxAgent.LinuxAgent.ExecutedAtMostOnce | linux_agent/agent.py:164-226 | the executor log of the program itself never repeats a job |
| LinuxAgent.LinuxAgent.Run | linux_agent/agent.py:352-416 | over any number of cycles of a process that may be killed and started again between any two steps, no job is executed twice |
| LinuxAgent.LinuxAgent.RunOnce | linux_agent/agent.py:139-162 | a cycle refreshes the pins first and processes jobs only if nothing failed before |
| LinuxAgent.LinuxAgent.ProcessJobs | linux_agent/agent.py:164-189 | one cycle, after a failed or a completed one, is a path of the protocol and executes at most ten jobs |
| LinuxAgent.LinuxAgent.HandleClaimedJob | linux_agent/agent.py:191-226 | journaling, executing, reporting, marking and pruning follow the protocol and execute this job at most once |
| LinuxAgent.LinuxAgent.ExecuteJob | linux_agent/agent.py:293-326 | the executor is called only for an envelope that passed verification under the pinned keys, with `executing` on file, and its result is on file before it is returned; a refusal leaves the journal alone |
| LinuxAgent.LinuxAgent.VerifyJob | linux_agent/agent.py:296-318 | the job goes on to execution only when the envelope verifies and `executing` is on file; otherwise a refusal is reported and the journal left alone |
| LinuxAgent.LinuxAgent.RecoverInterruptedJobs | linux_agent/agent.py:247-277 | recovery follows the protocol and executes nothing |
| LinuxAgent.LinuxAgent.ReportAndMark | linux_agent/agent.py:216-245 | only an acknowledged report, whose action has then settled, marks the entry reported, unless the process is killed before; otherwise the journal stays as it is |
| LinuxAgent.LinuxAgent.CrashAndRestart | agent_common/journal.py:81-96 | a restart reads journal and pinned keys back from their files and puts the agent at rest |
| Journal.ExecutionJournal.Save | agent_common/journal.py:98-107 | a save makes the file equal to the memory or fails and leaves it alone |
| Journal.ExecutionJournal.RecordClaimed | agent_common/journal.py:112-136 | the entry is recorded afresh, without a result, and saved |
| Journal.ExecutionJournal.Mark | agent_common/journal.py:138-161 | exactly the named entry changes its state, keeps an earlier result unless given one, and is saved |
| Journal.ExecutionJournal.Pending | agent_common/journal.py:163-170 | the unreported entries, each once, oldest first |
| Journal.ExecutionJournal.PruneReported | agent_common/journal.py:172-182 | the oldest reported entries beyond the kept number are deleted, nothing else, and saved only if there were any |
| Journal.PrefixIsOldest | agent_common/journal.py:172-182 | the head of the list sorted by age is a set no remaining reported entry is older than |
| ServerRuns.AuditReplaysToStatus | helpdesktool/orchestrator.py:53-133 | after every run, folding an action's audit events gives exactly the status and attempt of its row, every recorded previous status being the one before the event |
| ServerRuns.AttemptsEndOnce | helpdesktool/lease_reaper.py:63-94 | over every run no claim attempt is ended twice |
| ServerRuns.AttemptsBounded | helpdesktool/lease_reaper.py:63-83 | in every reachable state a queued action has attempt 0 or one below the maximum, and a claimed one an attempt of at most max(1, maximum), a lease and a token |
| ServerRuns.ActionsSettle | helpdesktool/lease_reaper.py:63-94 | over any run an action changes status at most 2 * max(1, maximum) + 2 times |
| ServerRuns.TerminalForever | helpdesktool/api.py:3128-3153 | a settled action's row never changes again |
| ServerRuns.StepTouches | helpdesktool/api.py:3027-3045 | every step moves at most the row it is about, by one of the listed moves, and logs only about it |
| ServerRuns.ReportNeedsItsToken | helpdesktool/api.py:3486-3490 | a report that changes a row carries the token of exactly its current attempt, within the lease; the token belongs to no other action or attempt under any key |
| ServerRuns.ReportOrReap | helpdesktool/lease_reaper.py:44-54 | at one clock value a report that takes effect and an expired lease exclude each other |
| ServerRuns.NobodyApprovesTheirOwn | helpdesktool/orchestrator.py:86-115 | over every run with a changing registry, an action ever queued needed no approval when submitted or was approved by someone other than its requester |
| ServerRuns.QueuedOnlyWhenRunnable | helpdesktool/policy.py:76-105 | when a step first queues an action, its skill is registered, not prohibited, not destructive and supports the device |
| Lifecycle.OneOutcomePerAttempt | helpdesktool/api.py:3079-3092 | in a consistent audit log two outcome events end attempts with different numbers |
| Lifecycle.AttemptsAdvance | helpdesktool/api.py:3023-3047 | a consistent log never lowers the attempt number and enters `claimed` only with a higher one |
| Replays.RepeatGetsOriginal | helpdesktool/api.py:339-356 | without a purge in between, a repeat of a successful request gets the original response, recomputed claim token included, and changes nothing |
| Replays.RepeatsHaveNoEffect | helpdesktool/api.py:339-380 | deleting every such repeat from a trace leaves the same final tables |
| Replays.PurgedRepeatSubmitsAgain | helpdesktool/retention_worker.py:66-82 | once its record is purged, a repeat that is still acceptable submits a second action |
| ControlPlane.ControlPlane.IdempotencyLookup | helpdesktool/api.py:339-356 | a record answers only the same payload; another payload under its key is a conflict |
| ControlPlane.ControlPlane.CreateAction | helpdesktool/api.py:2745-2793 | the new tables and the reply, refusals in the source's order, are those of `Server.Create`, about which the run theorems are |
| ControlPlane.ControlPlane.SubmitAction | helpdesktool/orchestrator.py:53-84 | the row, its audit events and, if allowed outright, its queueing |
| ControlPlane.ControlPlane.DecideAction | helpdesktool/api.py:2796-2830 | approval or denial, or the refusal, with its approval row |
| ControlPlane.ControlPlane.ApproveAction | helpdesktool/orchestrator.py:86-115 | the re-evaluated approval: queued with its approver, or denied as invalidated |
| ControlPlane.ControlPlane.PollJobs | helpdesktool/api.py:2976-2992 | the ten oldest of the actions queued for this very device, oldest first |
| ControlPlane.ControlPlane.ClaimJob | helpdesktool/api.py:2995-3105 | compare-and-set claim, envelope, record and token, or the answer from the record, or the refusal |
| ControlPlane.ControlPlane.ReportJobResult | helpdesktool/api.py:3108-3214 | refusals in the source's order, otherwise settled row, result row, audit events and record |
| ControlPlane.ControlPlane.LogReport | helpdesktool/api.py:3155-3209 | the events of an accepted report, in order |
| ControlPlane.ControlPlane.ReapOne | helpdesktool/lease_reaper.py:63-94 | requeue or failure of one expired claim |
| ControlPlane.ControlPlane.ReapBatch | helpdesktool/lease_reaper.py:37-61 | the expired claims by claim time up to the clamped limit, rows locked elsewhere skipped; reaping the batch equals reaping its rows one by one |
| ControlPlane.ControlPlane.PurgeRecords | helpdesktool/retention_worker.py:66-82 | exactly the records older than the cutoff go |
| ControlPlane.ControlPlane.Perform | helpdesktool/api.py:2745-3214 | any transaction on the live tables is the step the run theorems are about |
| Submissions.CreateAnsweredExactly | helpdesktool/api.py:2752-2775 | a request on record is answered from it; any other is accepted exactly when shape, allowlisted service, device and ticket of the tenant hold, the first failure giving its code and changing nothing |
| Submissions.AcceptedCreation | helpdesktool/orchestrator.py:53-84 | the whole new state: the row column by column, its policy event, its queueing exactly when allowed outright, its record and the reply |
| Submissions.RowOrigin | helpdesktool/api.py:2776-2793 | over every run an action's row is there because of one acceptable request and still says who asked for what, with which parameters, for which device and ticket |
| Submissions.RowsKeepToTheirTenant | helpdesktool/api.py:2767-2775 | over every run a service restart names an allowlisted service, and every action's device and ticket are its own tenant's |
| Decisions.DecideAnsweredExactly | helpdesktool/api.py:2796-2815 | a decision is refused exactly for an unknown or foreign action, one not pending, and an approval by the requester; a refusal changes nothing |
| Decisions.DenialDenies | helpdesktool/orchestrator.py:192-211 | denying a pending action changes its status to denied, logs who and why, and adds the approval row, nothing else |
| Decisions.ApprovalQueuesExactly | helpdesktool/orchestrator.py:86-115 | approving it by another actor queues it with its approver exactly when its skill may still run, and denies it as invalidated otherwise; row, events and approval row |
| Decisions.QueuedExactlyUnlessDenied | helpdesktool/orchestrator.py:117-133 | over every run an action has been queued exactly unless it waits for approval or was denied |
| Decisions.DeniedNeverQueued | helpdesktool/orchestrator.py:192-211 | over every run a pending action somebody denied stays denied and is never queued |
| Decisions.ApproverApproved | helpdesktool/orchestrator.py:92-102 | over every run whoever a row names as its approver did approve it, while it was pending, without being its requester |
| Decisions.SensitiveNeedsAnother | helpdesktool/policy.py:93-98 | over every run an action ever queued, whose skill as registered at its submission was of medium or high risk or flagged, was approved by someone other than its requester |
| Claims.ClaimAnsweredExactly | helpdesktool/api.py:3003-3052 | a claim on record is answered from it with a recomputed token; any other is granted exactly when queued for this device of this tenant under a registered skill, and otherwise a conflict that changes nothing |
| Claims.GrantedClaimExactly | helpdesktool/api.py:3027-3104 | the whole new state and the reply: the twelve signed fields one by one from row, manifest, clock and configuration, signature, token, row, event and record |
| Provenance.ActionOrigin | helpdesktool/api.py:2776-2793 | over every run of agent and control plane each action was submitted by some client's acceptable request and still is what it asked for |
| Provenance.JournaledExactly | agent_common/journal.py:112-136 | journaling a claim writes one fresh entry with the claim's nonce, token, report key, skill and parameters and no result |
| Provenance.JournaledAsSubmitted | agent_common/journal.py:112-136 | over every run each journal entry, in memory or on file, names the skill and the parameters of the request that submitted its action |
| Provenance.ExecutedAsSubmitted | linux_agent/agent.py:293-326 | over every run each executor call was for the skill and the parameters that were submitted, on the device they were submitted for, under an envelope that had passed verification before its expiry |
| Reports.ReportedStatusExactly | helpdesktool/api.py:3146-3153 | each of the four statuses exactly under its condition on success, verification and rollback |
| Reports.ReportAnsweredExactly | helpdesktool/api.py:3118-3144 | a report on record is answered from it; any other is accepted exactly from the device holding the claim within its lease; a refusal changes nothing |
| Reports.AcceptedReportExactly | helpdesktool/api.py:3146-3214 | the whole new state and the reply: status, result row, record, and the events, each exactly when it applies |
| Reports.RecordSettles | linux_agent/agent.py:293-313 | over every run of agent and control plane a recorded result settles its action with its status; a recorded refusal leaves it failed |
| Upkeep.ReapedExactly | helpdesktool/lease_reaper.py:37-94 | exactly the claims whose lease ran out are freed: requeued while attempts remain, failed otherwise, with their event; nothing else changes |
| Upkeep.PurgedExactly | helpdesktool/retention_worker.py:66-82 | exactly the records created before the cutoff go; nothing else changes |
| ControlPlane.BatchExactly | helpdesktool/lease_reaper.py:44-54 | the reaper's batch: run-out, unlocked claims in the order of their claiming, at most the limit clamped to 1..100, the others claimed no earlier |
| Text.TokenMessageInjective | helpdesktool/api.py:3486-3490 | `action:attempt:key` determines all three |
| Text.JobIdInjective | helpdesktool/api.py:3048-3062 | `job_id` determines action and attempt |
| Text.ResultKeyInjective | linux_agent/agent.py:191-226 | the agent's report keys of different attempts differ, for any action ids |
| Text.TokenMessageAttempt | helpdesktool/api.py:3486-3490 | for one action the message names its attempt, whatever the action's id looks like |
| Text.ParseInvertsDecimal | linux_agent/config.py:29-54 | reading back a written number gives it again |
| Executor.AtMostTwoMutations | linux_agent/executor.py:67-165 | one execution issues at most two mutating commands, all on the unit asked for |
| Executor.SuccessExactlyWhenObserved | linux_agent/executor.py:67-108 | the control plane records success exactly when a loaded unit was restarted with exit code 0 and then seen active and running |
| Executor.RolledBackExactlyWhenRestored | linux_agent/executor.py:144-165 | it records a rollback exactly when one was needed and left the unit as active as the precheck found it |
| Executor.RestartExactly | linux_agent/executor.py:67-165 | outcome and commands for every script of answers: failed without a restart, rolled back or not exactly as the undo was seen to restore, the undo a restart exactly for a unit that had been active |
| Executor.TwoMutationsPerJob | linux_agent/executor.py:67-165 | over every run of agent and control plane, with every executor call issuing the commands of a restart under any answers or none, a job stands for at most two mutating commands |
| Executor.MutationsPerAction | linux_agent/executor.py:67-165 | and an action for at most twice max(1, maximum attempts), and twice one more than its claim record was purged |
| Executor.ServiceRestartExecutor.Execute | linux_agent/executor.py:67-108 | the commands issued, in order, and the result, for every script of answers |
| Executor.ServiceRestartExecutor.Rollback | linux_agent/executor.py:144-165 | the undo by the prior state, and its check |
| Executor.ServiceRestartExecutor.VerifyOnly | linux_agent/executor.py:110-142 | one observation and nothing else |
| Policy.EngineRejectsExactlyDuplicates | helpdesktool/policy.py:71-74 | the constructor refuses exactly the lists that repeat an id, and finds every entry of the others |
| Policy.AllowedMeansRunnable | helpdesktool/policy.py:76-105 | allowed exactly when registered, not prohibited, not destructive and supported; approval exactly when such a skill needs it |
| Policy.EvaluateExactly | helpdesktool/policy.py:76-105 | each reason, what is allowed and what needs approval, exactly from the registered definition's own fields |
| Policy.LevelExactly | helpdesktool/policy.py:34-65 | which fields of an allowed skill each automation level stands for |
| Policy.SupportsExactly | helpdesktool/policy.py:88-91 | supported exactly when some listed system differs at most in ASCII capitals |
| Policy.LevelAgreesWithApproval | helpdesktool/policy.py:34-65 | which automation levels can coincide with a required approval |
| Immediate.RollbackAgreesWithLevel | helpdesktool/orchestrator.py:135-182 | a failed run at level L2 always rolls back and ends in its outcome; at L1 it rolls back for exactly the reversible skills with an empty rollback id |
| Immediate.EndsExactly | helpdesktool/orchestrator.py:135-182 | each final status exactly under its condition on the answers and the skill's rollback |
| Immediate.Orchestrator.Run | helpdesktool/orchestrator.py:135-182 | the events of a run, and a status that can be read off them |
| Skills.RegistryAlwaysLoads | helpdesktool/api.py:252-272 | after any registrations the active set loads, the engine meets no duplicate, every registered id is loaded at the version that counts its registrations |
| Skills.LoadsTheLast | helpdesktool/api.py:252-272 | what is loaded under an id is its last registration, definition, parameters and metadata |
| Skills.ConformsExactly | helpdesktool/skills.py:183-229 | conforming, name by name: nothing undeclared, nothing required missing, every value of its declared type |
| Skills.RegisteredKeepsInvariant | helpdesktool/api.py:1336-1410 | a registration keeps versions 1..n, exactly one active and that the highest, and matching hashes |
| Skills.HighestIsLast | helpdesktool/api.py:1336-1410 | the highest version of an id is its number of rows, and it is the active one |
| ManifestText.SameTextSameVerdict | helpdesktool/skills.py:97-216 | manifests with the same canonical text get equal policy decisions and equal parameter verdicts |
| ManifestText.HashIsOfText | helpdesktool/skills.py:128-180 | the sorted, normalised JSON text determines exactly the hashed fields, so hashes are equal exactly when texts are |
| EnvelopeText.PayloadDeterminesFields | agent_common/signing.py:75-84 | the sorted JSON payload determines all twelve signed fields |
| EnvelopeText.SignatureIsOfText | agent_common/signing.py:87-97 | an envelope passes with a control-plane signature exactly under that key and when its text is the signed text |
| Json.TextInjective | agent_common/signing.py:84 | different JSON values have different texts, with strings escaped to ASCII |
| SortedNames.SortedLists | helpdesktool/skills.py:167 | sorting lists exactly the names of the set, once each, in ascending order |
| Skills.ValidateParameters | helpdesktool/skills.py:183-216 | no error exactly when the parameters conform; a reported error names a real fault |
| Skills.SkillRegistry.CreateSkillManifest | helpdesktool/api.py:1336-1410 | the next version of the id, the previous one deactivated, the invariant kept |
| AuditChain.BuiltVerifies | helpdesktool/audit.py:49-106 | every log built by append verifies, is numbered 1..n and holds exactly the items appended |
| AuditChain.RecordTextInjective | helpdesktool/audit.py:62-76 | the hashed JSON text determines sequence number, record and previous hash |
| AuditChain.HeadBindsHistory | helpdesktool/audit.py:91-106 | under a collision-free SHA-256 over that text, two accepted logs with the same last hash are equal event by event, whatever their lengths |
| AuditChain.ChangeMovesHead | helpdesktool/audit.py:91-106 | two accepted logs that differ somewhere have different hashes everywhere after it |
| AuditChain.VerifiedPrefix | helpdesktool/audit.py:91-106 | every prefix of an accepted log is accepted |
| AuditChain.TenantChainsAreIndependent | helpdesktool/persistence.py:117-169 | under any interleaving of tenants, each tenant's rows are the log its own items build: numbered without gaps, verified, unaffected by others |
| AuditChain.InMemoryAuditLog.Append | helpdesktool/audit.py:49-89 | one linked row more |
| AuditChain.InMemoryAuditLog.VerifyChain | helpdesktool/audit.py:91-106 | true exactly for logs that link and hash correctly |
| AuditChain.SqlAuditLog.Append | helpdesktool/persistence.py:117-169 | extends the tenant's chain by one in-memory append and no other tenant's |
| RateLimiter.NoIntervalExceedsMaximum | helpdesktool/hardening.py:123-144 | in every closed interval no longer than the window at most the maximum is admitted |
| RateLimiter.AdmitsExactly | helpdesktool/hardening.py:123-144 | a request is admitted exactly when fewer than the maximum were admitted within the window before it |
| RateLimiter.RateLimiter.Dispatch | helpdesktool/hardening.py:123-144 | whatever was pruned before, the decision is that of a limiter with the full history |
| RateLimiter.RateLimiter.Prune | helpdesktool/hardening.py:146-153 | pruning idle clients changes no later decision |
| RateLimiter.Forgettable | helpdesktool/hardening.py:146-153 | a client idle for more than two windows has no admission that still counts |
| KeyRotation.FirstOfferWins | linux_agent/agent.py:93-112 | of several keys offered for an unpinned version the first is pinned |
| KeyRotation.MergeOnlyAdds | linux_agent/agent.py:93-112 | a merge keeps every pinned key, and what is new was offered |
| KeyRotation.AcceptedExactlyWhenSigned | agent_common/signing.py:100-148 | an envelope is accepted exactly when signed by the control plane under a pinned version, addressed here, unexpired and supported |
| KeyRotation.RefusedExactly | agent_common/signing.py:100-148 | otherwise the first failing check names the error |
| KeyRotation.OfferedExactly | helpdesktool/job_signing.py:82-95 | the offered keys are exactly those of the versions in the window, never below 1 |
| KeyRotation.SignatureBindsFields | agent_common/signing.py:51-98 | a signature passes for no envelope that differs in any of the twelve signed fields |
| KeyRotation.LoadInvertsSave | linux_agent/config.py:29-54 | a restart through save and load changes no pin |
| KeyRotation.MigrationKeepsLegacyPin | linux_agent/config.py:29-47 | migration keeps the older format's pin unless the newer map holds that version |
| PinRuns.FilePinsOnlyGrow | linux_agent/config.py:29-54 | over every run of offers, failed saves, restarts and migration, a pin on file keeps its key for good, on file and in memory |
| PinRuns.MemoryPinsUntilRestart | linux_agent/agent.py:93-112 | within one process a pin keeps its key, saved or not |
| PinRuns.PinSurvivesExactly | linux_agent/agent.py:114-137 | a pin in memory survives the next restart exactly when it was on file or some save succeeded in between |
| PinRuns.KeptExactly | linux_agent/agent.py:114-137 | a pin stays with one key through a stretch of a run exactly when it was on file or the first restart came after a save |
| PinRuns.FailedSaveIsNotRetried | linux_agent/agent.py:136-137 | a refresh that brings no new version writes nothing |
| PinRuns.LostPinCanChange | linux_agent/agent.py:136-137 | a run in which a version pinned under a failed save ends up pinned to another key after a restart |
| PinRuns.LegacyPinStays | linux_agent/config.py:29-47 | the older format's pin is in the first memory and stays for good, also through the save that drops the older format |
| PinRuns.RefreshCoversWindow | helpdesktool/job_signing.py:82-95 | after a refresh at version c every version from max(1, c - window) to c is pinned, and stays so as long as the pin is kept |
| PinRuns.GrantedEnvelopesVerify | helpdesktool/job_signing.py:60-95 | a claim granted under a version in a refreshed window verifies at its device until its lease ends and not after, as long as the pin is kept |
| PinRuns.RetiredVersionsStayTrusted | linux_agent/agent.py:93-112 | a version out of the window stays trusted as long as its pin is kept |
| PinRuns.WrongPinStays | linux_agent/agent.py:93-137 | a version pinned to a foreign key is not repaired as long as that pin is kept, and envelopes signed under it are refused |
| AgentConfig.AgentConfig.MergeSigningKeys | linux_agent/agent.py:93-112 | the pins merged in order, as far as the first text that is no number, which raises; the flag tells whether anything changed |
| AgentConfig.AgentConfig.EnsureSigningKey | linux_agent/agent.py:114-137 | one step of the pin machine for every reply and every outcome of the save; an API error is tolerated while some key is pinned |
| AgentConfig.AgentConfig.Save | linux_agent/config.py:49-54 | the file becomes a listing of the pins without the older fields, or stays as it was |
| AgentConfig.AgentConfig.FinishEnrollment | linux_agent/agent.py:57-91 | enrollment merges and saves in any case |
| Incidents.OccurrencesConserved | helpdesktool/incidents.py:158-179 | per key the occurrence counts add up to the over-threshold observations, in any timestamp order |
| Incidents.OverExactly | helpdesktool/incidents.py:145-258 | an observation over the threshold counts on the latest incident of its key within the window, reopening it, or opens one with a ticket; nothing else changes |
| Incidents.UnderExactly | helpdesktool/incidents.py:83-142 | one below it resolves the latest unresolved incident of its key, however old, with its ticket; nothing else changes |
| Incidents.ObservedExactly | helpdesktool/incidents.py:35-80 | which side of the threshold and of 95 percent a filesystem's own numbers put it on, to the nearest hundredth, and under which key |
| Incidents.ObservedWhenSensible | helpdesktool/incidents.py:30-37 | a filesystem is observed exactly when it has a size and its free space lies within it |
| Incidents.ResolvedExactlyWhenDated | helpdesktool/incidents.py:105-110 | an incident is resolved exactly when it carries a resolution time |
| Incidents.OneIncidentExactly | helpdesktool/incidents.py:158-172 | a key has exactly one incident exactly as long as every observation fell within the window of the last recorded one |
| Incidents.TicketResolvedExactly | helpdesktool/incidents.py:105-118 | over every history each incident has its own ticket, resolved exactly when that incident has ever recovered |
| Incidents.TicketDisagreesExactly | helpdesktool/incidents.py:174-183 | over every history an incident is open with a resolved ticket exactly when it was reopened after its last recovery |
| Incidents.OnlyTicketExactly | helpdesktool/incidents.py:105-118 | for a key that kept to one incident, its ticket is resolved exactly when the observations show a recovery that found it open |
| Incidents.ReopenedWithResolvedTicket | helpdesktool/incidents.py:174-183 | a history of three observations that ends with an open incident and a resolved ticket |
| Incidents.SteadyKeepsOne | helpdesktool/incidents.py:158-200 | ordered observations within the window of each other leave exactly one incident of the key in the tables, however often it recovers |
| Incidents.IncidentStore.Correlate | helpdesktool/incidents.py:145-256 | counts on the latest matching incident or opens one with a ticket; without an active user nothing changes |
| Incidents.IncidentStore.ResolveRecovered | helpdesktool/incidents.py:83-142 | resolves the latest open incident of the key and its ticket, if there is one |
| Incidents.IncidentStore.DetectInventory | helpdesktool/incidents.py:16-80 | exactly the sensible filesystems of an inventory are handled, in order, by the threshold; if one would open an incident without a user to own its ticket, the tables are as before |
| Webhooks.ExactlyOneDelivery | helpdesktool/persistence.py:205-232 | from its publication on, an event has exactly one delivery for each subscription active and matching then, and none for any other |
| Webhooks.WantedExactly | helpdesktool/persistence.py:205-232 | a subscription wants an event exactly when active, of its tenant and listing its kind |
| Webhooks.DeliveryOrigin | helpdesktool/persistence.py:205-232 | over every run each delivery is for one published event and a subscription that wanted it then; no tenant's event reaches another tenant's |
| Webhooks.AttemptExactly | helpdesktool/webhook_worker.py:84-131 | the row after one attempt, column by column, from the provider's answer |
| Webhooks.AttemptStepExactly | helpdesktool/webhook_worker.py:70-84 | the answer counts exactly while the subscription is there and active; otherwise the delivery is cancelled |
| Webhooks.DueExactly | helpdesktool/webhook_worker.py:118-131 | a pending delivery is due from its publication on, and after a failure from its delay on |
| Webhooks.FanoutExact | helpdesktool/persistence.py:217-231 | one publication creates exactly these deliveries |
| Webhooks.StatusFollowsOutcomes | helpdesktool/webhook_worker.py:70-129 | pending exactly while every attempt failed retryably and fewer than max(1, maximum) were made; the first other outcome settles it |
| Webhooks.AttemptsBackOff | helpdesktool/webhook_worker.py:118-129 | the attempt after k failures comes no earlier than the summed delays after publication, each gap its own delay |
| Webhooks.TotalDelayClosed | helpdesktool/webhook_worker.py:128-129 | the summed delay is 2^(k+1) - 2 up to the eleventh failure and 2048 more for each later one |
| Webhooks.DelayIsUncapped | helpdesktool/webhook_worker.py:128 | the cap of 3600 seconds never binds |
| Webhooks.PendingHasAttemptsLeft | helpdesktool/webhook_worker.py:118-129 | in every reachable state of the outbox a pending delivery has attempts left |
| Webhooks.SettledForever | helpdesktool/webhook_worker.py:48-68 | a delivery that is no longer pending never changes again |
| Webhooks.NothingReachesDisabled | helpdesktool/webhook_worker.py:73-81 | after a subscription was disabled nothing is delivered to it and no delivery for it is created |
| Webhooks.WebhookOutbox.PublishEvent | helpdesktool/persistence.py:205-232 | the loop over subscriptions adds exactly the fan-out |
| Webhooks.WebhookOutbox.Deliver | helpdesktool/webhook_worker.py:70-115 | the row after one attempt, for every answer |
| Webhooks.WebhookOutbox.ProcessBatch | helpdesktool/webhook_worker.py:40-68 | the earliest due deliveries up to the clamped limit, each attempted once as a step of the outbox's history, all others unchanged |
| Webhooks.WalkIsRun | helpdesktool/webhook_worker.py:40-68 | what the class has done is a run, so the run theorems hold of its tables |
| ConnectorRequests.HighRiskApprovedExactly | helpdesktool/api.py:2593-2618 | a high-risk approval passes exactly for another actor of the tenant, on a pending request, with the latest code handed out, not older than ten minutes |
| ConnectorRequests.MintedExactly | helpdesktool/api.py:2621-2664 | a code is handed out exactly to the requester of a pending high-risk request, for ten minutes; the refusals in order |
| ConnectorRequests.PassesExactly | helpdesktool/api.py:2667-2696 | which decisions pass, from the row and the supplied code |
| ConnectorRequests.DecidedExactly | helpdesktool/api.py:2667-2742 | the whole new row after a decision that passes, for every answer of the connector |
| ConnectorRequests.ExpiredExactly | helpdesktool/connector_request_reaper.py:30-60 | exactly pending requests older than the limit expire |
| ConnectorRequests.HighRiskExecution | helpdesktool/api.py:2667-2742 | a high-risk request succeeds or fails only that way; the hash is then gone |
| ConnectorRequests.SettledRefusesAll | helpdesktool/api.py:2675-2676 | whatever is tried later on a settled request is refused without effect |
| ConnectorRequests.LeavesPendingOnce | helpdesktool/api.py:2675-2676 | over every run of minting, deciding and expiring a request leaves pending_approval at most once |
| ConnectorRequests.DeciderIsNotRequester | helpdesktool/api.py:2677-2680 | a request leaves pending by expiry when stale, or by the decision of someone other than its requester |
| ConnectorRequests.HashIsLatestMint | helpdesktool/api.py:2621-2662 | while pending, the stored hash is that of the last code handed out, and expires ten minutes after it |
| ConnectorRequests.OperationsBounded | helpdesktool/api.py:2700-2742 | the operation is carried out at most once more than an exception rolled back a decision after it |
| ConnectorRequests.CodeServesAgainAfterException | helpdesktool/api.py:2719-2742 | a decision that passes leaves its request pending, its code still accepted, exactly when it approves and the connector raised; the same decision then carries the operation out again exactly until the code expires |
| ConnectorRequests.ConnectorRequestTable.GenerateStepUpCode | helpdesktool/api.py:2621-2662 | the refusals in order, otherwise a fresh code and its hash |
| ConnectorRequests.ConnectorRequestTable.VerifyStepUpCode | helpdesktool/api.py:2593-2618 | true exactly for an accepted code, which is then cleared |
| ConnectorRequests.ConnectorRequestTable.DecideConnectorRequest | helpdesktool/api.py:2667-2742 | the row and response for every request, answer and exception |
| ConnectorRequests.ConnectorRequestTable.ReapBatch | helpdesktool/connector_request_reaper.py:43-87 | the oldest stale requests up to the clamped limit expire, all others stay |
| SessionToken.DecodeInvertsEncode | helpdesktool/development_auth.py:55-56 | decoding inverts stripped encoding on every byte string |
| SessionToken.PaddingRestored | helpdesktool/development_auth.py:55-56 | padding by -len % 4 restores exactly the stripped signs, and no dot occurs in the text |
| SessionToken.IssuedVerifies | helpdesktool/development_auth.py:17-52 | an issued session verifies with exactly its claims, exactly before its expiry |
| SessionToken.SignatureBindsSession | helpdesktool/development_auth.py:31-37 | a session's signature is accepted only with that session's payload, secret and claims |
| Confidence.ScoreMonotone | helpdesktool/confidence.py:108-147 | better evidence on any count never lowers the score, nor takes it out of HIGH for any thresholds |
| Confidence.ScoreIsUnit | helpdesktool/confidence.py:137-142 | the score lies in [0, 1] |
| Confidence.ScoreIsNearest | helpdesktool/confidence.py:137-142 | uncontradicted evidence scores its clamped, scaled sum to the nearest 0.0001 |
| Confidence.SumExactly | helpdesktool/confidence.py:125-141 | the weights, each on its own |
| Confidence.ContradictedScoresExactly | helpdesktool/confidence.py:137-146 | contradicted evidence scores the same up to the cap of 0.69 |
| Confidence.BandsExactly | helpdesktool/confidence.py:98-105 | the bands partition the scores at the thresholds |
| Confidence.ContradictedNeverHigh | helpdesktool/confidence.py:144-149 | contradicted evidence is never HIGH, exactly for thresholds above the cap |
| Confidence.SupportAloneIsBounded | helpdesktool/confidence.py:108-149 | without requirements and baseline matches the score is at most 0.85 and never VERY_HIGH |
| Confidence.MissingRequirementsDominate | helpdesktool/confidence.py:108-149 | with none of the required signals the score is at most 0.45 and never HIGH |

## Left out

- HTTP routing, roles, rate-limit addresses, SQL, advisory and row locks, row-level security: each handler is one step
  on plain tables.
- The frontend, migrations, metrics, logging, reports, collectors, OIDC, chat adapters and the AI provider.
- `windows_agent/`: its loop is the Linux agent's; the executor is abstract in the protocol.
- `linux_agent/executor.py`: the DNS cache executor, the parsing of `systemctl` output, and output texts of results.
- Audit events of skills, integrations, incidents and connector requests; publication is modelled from a domain event
  on, not from the audit event it is mapped from.
- Heartbeat and inventory retention; what heartbeats, inventories and enrollment send. In the agent's loop they are
  requests that may fail.
- Lower-casing of operating-system names beyond ASCII, and the type error of an unhashable `service` value, modelled as
  the refusal of a service that is not allowlisted.
- Envelopes with missing fields, and timestamps that do not parse: the control plane never sends any. The order of
  fields in nested objects is the sorted one.
- The journal's file format; loading a damaged file.
- Audit details that are not JSON values and are written as their `str()`.
- Digits and white space beyond ASCII in `int()`, NaN and infinities in JSON, and the calendar form of timestamps in
  signed payloads, which are written as their microseconds.
- HMAC, JSON and UTF-8 inside session tokens are parameters; floating-point rounding of confidence and disk
  percentages is exact arithmetic with rounding half to even.
- Shallow tables: baselines, security classification, knowledge, action previews, intent classification.
- Protocol steps leave open which reported entries are pruned; `Journal.ExecutionJournal.PruneReported` says which.
