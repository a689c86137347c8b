# Operational records of VenueMind

A Dafny model of the database-backed state machines of the VenueMind Worker, with proofs of what they
promise. Tables are values, a `db.batch` is one atomic step, and the triggers, unique indexes, checks and
foreign keys are the guards of that step. Timestamps are integers, because every one of them comes from
`toISOString`; hashes and fingerprints are opaque functions.

`dafny verify dfyconfig.toml` checks the whole project.

## What is modelled

* **Event-day runbooks** (`RunbookLedger.dfy`, `RunbookEvidence.dfy`, `RunbookCommit.dfy`, `RunbookWritePath.dfy`).
  Five tables whose triggers form a commit protocol. The first two files prove what the triggers keep under any
  interleaving of single statements, what they do not keep, and what the hash chain rules out. The third models the
  repository's write path on top of them: a draft built from five queries, each of which may see a later state,
  committed as one batch against whatever the tables hold by then. The last says what a call does in terms of its
  commands and the tables alone.
* **Purges and cascades** (`ProjectCascade.dfy`). The fourteen tables below a project, the outbox below its
  notifications, their foreign keys, and the delete triggers with the purge lease.
* **Deletion, recovery and purge** (`ProjectDeletion.dfy`, `DeletionProtocol.dfy`, `DeletionProvenance.dfy`,
  `DeletionCalls.dfy`, `DeletionLimits.dfy`). Any number of actors, each reading, checking, running a guarded batch on
  what it read, and reading again. `DeletionProvenance` traces every stored column back to the call that asked for it,
  `DeletionCalls` says what each call comes to when nobody interferes, and `DeletionLimits` gives the exact conditions
  under which the protocol's agreement survives what surrounds it, and the inputs for which it does not.
* **The retention sweep** (`RetentionBacklog.dfy`, `RetentionTerms.dfy`, `RetentionSweep.dfy`). Everything overdue is
  one finite backlog; the sweep works it off stage by stage within one budget. `RetentionTerms` says in days and
  columns what that means for the rows. The sweep is run on top of the deletion protocol: a ghost field records that
  its steps are protocol steps.
* **Migrations** (`Migrations.dfy`, `LegacyBaseline.dfy`). Planner and runners for any list of migrations and any
  schema type, with any number of runners stopped between any two batches and moving between the queries of a
  plan; and the recognition of databases without records.
* **The collaboration log** (`CollaborationLog.dfy`), **registers** (`Registers.dfy`, deviations and incidents
  alike) and **occupancy monitors** (`OccupancyMonitors.dfy`).
* **Strict decoders** (`CommandSchema.dfy`, `DeviationCommands.dfy`, `PostEventCommands.dfy`, `DecoderRules.dfy`).
  Each decoder function is a value of one description type; what is proved for every description holds for each of
  them. `DecoderRules` says for each of them what it accepts. A command is sent as JSON, which has no infinite number:
  writing one gives null.
* **Product analytics** (`ProductAnalytics.dfy`). Saturating daily counters, once as a table and once in memory.

## Assumptions

* Two deletion requests of one project are never stored with the same timestamp, request ids and project ids are
  not used twice, and the sweep's select and delete of requests is one step relative to the recording of
  evidence. What happens without them is stated in `DeletionLimits.dfy`.
* In a run of the deletion protocol a project is created without deletion columns, and a project write repeats the
  stored ones. The repository enforces neither; the exact conditions are `DeletionLimits.CreateKeepsAgreementIff`
  and `DeletionLimits.PutKeepsAgreementIff`.
* A register id is not used again after its row was removed by a cascade. A put that found no register does not
  meet one with another identity at its update; the exact condition is `Registers.PutIsAcceptedIff`.
* Ids are compared by their characters, as the database does with texts in its binary collation.
* The clock never runs backwards during a sweep. No other actor moves during the sweep.

## Where code and documentation differ

* `docs/data-protection.md` says that a sweep deletes at most 50 eligible records and looks at each organization
  independently. In the code the limit counts items, each of which may cascade to any number of rows, and all
  organizations share it in order; an organization behind an exhausted budget is not visited.
* `docs/database-operations.md` speaks of schema version 10 and `docs/sharing-and-notifications.md` of version 7;
  the catalogue holds sixteen migrations. The model follows the catalogue.

## Model

| member | source | states |
|---|---|---|
| RunbookLedger.EveryStatementKeepsSound | db/generated-migrations.ts:143-154 | One accepted statement of any kind keeps the numbering, the hash chain, the head and the fit of stored transitions to their tasks. |
| RunbookLedger.EveryRunKeepsChain | db/generated-migrations.ts:135-151 | Under any interleaving of trigger-guarded statements transitions are numbered 1..n and ledger rows 1..m without gaps, sequence <= m <= n <= sequence + 1, the ledger is an unbroken chain from the source head, the stored head is the hash of row `sequence`, and a stored transition that starts at its task's current revision starts at its current status. |
| RunbookLedger.EvidenceIsAppendOnly | db/generated-migrations.ts:143-154 | Through any run of statements, deletes of tasks included, transitions, ledger rows and receipts are only ever extended at the end, and the baseline stays. |
| RunbookLedger.SafeTasksStay | db/generated-migrations.ts:136-148 | A task that has a transition stays with its definition through every run; one without stays through every run that does not delete it. |
| RunbookLedger.TaskStaysForeverIff | db/generated-migrations.ts:136-148 | No trigger guards a task row: a task stays through every run if and only if it has a transition, whose own trigger stops the cascade. |
| RunbookLedger.UpdateFollowsCitation | db/generated-migrations.ts:145-146 | From the triggers alone: an accepted task update cites a stored transition of that task, one that starts at the task's status and revision and ends at the new ones. |
| RunbookLedger.TaskHistoryIsAPath | db/generated-migrations.ts:136-148 | The transitions cited by a task's accepted updates are all of that task and form one connected path with revisions rising by one, over any run through which the task stays. |
| RunbookLedger.TriggersAllowTwoTransitionsOfOneRevision | db/generated-migrations.ts:137-146 | What the triggers alone do not give: in every new runbook a run can store two transitions of the same task revision. |
| RunbookCommit.FiveStatementsCommit | worker/runbook-repository.ts:582-669 | Whenever the opening guard of a command holds, its five statements pass every trigger and leave exactly the next book. |
| RunbookCommit.CommitKeepsCommitted | worker/runbook-repository.ts:582-674 | One committed command keeps the committed-state invariant: chain, receipts, sealed ledger and replay. |
| RunbookCommit.CurrentDraftCommits | worker/runbook-repository.ts:503-699 | A draft built on the current state commits as a whole, or aborts and changes nothing because an id or a client sequence was used before. |
| RunbookCommit.RetryReturnsOriginalAnswers | worker/runbook-repository.ts:504-518 | Sending a committed batch again builds no statement and returns the original answers. |
| RunbookCommit.StaleDraftAborts | worker/runbook-repository.ts:676-698 | A draft read at one sequence never commits at another. |
| RunbookCommit.EveryHistorySettles | worker/runbook-repository.ts:332-370 | In every run of writes, each reading the root row from any earlier state and tasks, transitions, ledger and receipts from any later ones, every state is a committed state, the sequence never falls, and states with equal sequence are equal. |
| RunbookCommit.CurrentRootIsWholeRead | worker/runbook-repository.ts:332-370 | A root row that is still current makes the whole read current, although its five queries saw different states. |
| RunbookCommit.NoLostUpdate | worker/runbook-repository.ts:488-699 | A write that changes anything had read exactly the state it replaces, in all five parts of its read. |
| RunbookCommit.OneTransitionOfEachRevision | worker/runbook-repository.ts:530-674 | In a committed state no two transitions start from one revision of a task; the later one starts higher. |
| RunbookCommit.CommittedLedgerVerifies | src/domain/event-day-runbook.ts:655-664 | The ledger check of an export succeeds on every committed state and ends at the stored head. |
| RunbookCommit.ReplayReconstructsTasks | worker/runbook-repository.ts:530-674 | Replaying the transitions in sequence order gives every task's status and revision, and all task revisions together have risen by the runbook sequence. |
| RunbookCommit.CreationIsCommitted | worker/runbook-repository.ts:415-454 | A runbook as created is a committed state, with sequence 0 and the source head. |
| RunbookWritePath.DraftDecides | worker/runbook-repository.ts:503-541 | A batch is drafted if and only if every command fits: a new one finds its task at the status and revision it expects, counting the new ones before it, and a repeated key comes with its old input; else the first that does not fit decides the refusal, with the task's present status and revision. New commands are answered with their own transition, numbered on from the sequence read. |
| RunbookWritePath.BatchStores | worker/runbook-repository.ts:543-670 | A batch that goes through has stored, for every new command in order, a transition, a ledger row and a receipt that say what the command says, column by column, each task is where its last new command asked it to go, and tasks that no new command names are unchanged. |
| RunbookWritePath.CurrentBatchSucceedsIff | worker/runbook-repository.ts:676-698 | On a current read a draft goes through if and only if its new commands use ids and client sequences that are free, and no two of them the same. |
| RunbookWritePath.BuildDraft | worker/runbook-repository.ts:503-674 | The loop over the commands computes that draft, or the refusal of the first command that does not fit. |
| RunbookWritePath.RunbookRepository.ApplyTransitionBatch | worker/runbook-repository.ts:475-708 | Whatever the call has read, in one piece or not: it is refused if and only if a command does not fit the read; it reports a concurrent transition whenever a new command was read at another sequence; on a current read it succeeds if and only if ids and client sequences are free; success stores and answers what the commands ask for, command by command, and any failure changes nothing. |
| RunbookEvidence.EveryRunIsAttested | db/generated-migrations.ts:137-152 | From the triggers alone, over every run: each ledger row repeats the transition at its place in actor, time and scope, each receipt has the transition of its key, input and correlation, and no key or client sequence is used twice. |
| RunbookEvidence.UnmatchedUpdateChangesNothing | worker/runbook-repository.ts:619-669 | An update whose WHERE clause asks for another revision, status, sequence or head changes nothing. |
| RunbookEvidence.BatchTouchingEvidenceFails | db/generated-migrations.ts:147-154 | A batch that changes or deletes an evidence row anywhere fails as a whole, whatever it does before. |
| RunbookEvidence.VerifiedIff | src/domain/event-day-runbook.ts:655-664 | The ledger check succeeds if and only if every row names the hash before it and carries the fingerprint of its own content; it ends at the last hash. |
| RunbookEvidence.HeadFixesTheLedger | src/domain/event-day-runbook.ts:655-664 | Tamper evidence: where fingerprints do not collide, two ledgers of one length that verify to the same head record the same transitions. |
| ProjectCascade.CascadeReachesTheOwned | db/generated-migrations.ts:135-139 | Level by level the cascade reaches exactly the rows of any family closed under the foreign keys, each as soon as its depth allows. |
| ProjectCascade.ThreeLevelsSuffice | db/generated-migrations.ts:135-139 | No row refers to a doomed row after three levels, whatever the delete started from. |
| ProjectCascade.PurgeRemovesTheProject | worker/data-protection-repository.ts:418-422 | Deleting a project row is never blocked and removes exactly the rows that belong to that project, outbox rows through their notification, and touches no other row. |
| ProjectCascade.PurgeMatchesItsVerification | worker/data-protection-repository.ts:415-431 | The counts taken after a purge, with any other batches in between, equal the all-zero verification written beforehand, orphaned outbox rows included. |
| ProjectCascade.VerificationHoldsIff | worker/data-protection-repository.ts:423-431 | In any state, the counts come to the verification written beforehand if and only if no row of the fourteen tables belongs to the project and no outbox row lacks its notification. |
| ProjectCascade.EvidenceIsStoredIff | db/generated-migrations.ts:135-139 | A task, transition, ledger or receipt row is stored if and only if its key is free and the row it refers to is there with the same runbook, organization and project. |
| ProjectCascade.NothingWithoutEvidence | worker/data-protection-repository.ts:419-420 | A purge whose organization or deletion time does not match deletes nothing, and a runbook under a lease is not leased again. |
| ProjectCascade.SweepRemovesTheRunbook | worker/data-protection-repository.ts:535-539 | The lease batch is never blocked, removes exactly the rows of its runbook, and leaves no lease. |
| ProjectCascade.UnleasedDeleteNeedsNoEvidence | db/generated-migrations.ts:235-239 | Without a lease a runbook can be deleted if and only if it holds no transition, ledger or receipt row. |
| ProjectCascade.EveryRunEndsAtRest | db/generated-migrations.ts:225-239 | At every batch boundary of every run no lease exists and every row's foreign keys hold. |
| ProjectCascade.EvidenceStays | db/generated-migrations.ts:234-239 | Over any run a transition, ledger or receipt row stays identical unless a step purges its project or sweeps its runbook. |
| ProjectCascade.NothingEverComesBack | worker/data-protection-repository.ts:423-431 | A purged project id gets no row again over any run that does not create the project anew. |
| DeletionProtocol.DeletedExactlyWhenRequested | worker/data-protection-repository.ts:320-349 | In every sound state a project is soft-deleted at a time if and only if a recoverable request was stored with that time; that request is the only one and has the same recovery deadline. |
| DeletionProtocol.EveryRunDeletesWhatIsRequested | worker/data-protection-repository.ts:338-397 | The same for every state reached by any number of actors that read, check, batch and read again in any interleaving, projects being created and written meanwhile. |
| DeletionProtocol.EveryRunIsSound | worker/data-protection-repository.ts:312-476 | Every reachable state satisfies the whole invariant: agreement, shape of each request, one request per time, and references of verifications. |
| DeletionProtocol.BatchIsAllOrNothing | worker/data-protection-repository.ts:338-422 | A batch that wins takes exactly its whole effect; one that lost the race changes nothing; recover, purge and acknowledge batches never abort. |
| DeletionProtocol.PurgeIsAllOrNothing | db/generated-migrations.ts:231 | In every reachable state a purge whose request is still recoverable finds its project and passes the cascade and the absence trigger; any other purge does nothing. |
| DeletionProtocol.AskIsAllOrNothing | worker/data-protection-repository.ts:338-343 | A deletion request marks the project and stores its row together, or neither. |
| DeletionProtocol.RecoverIsAllOrNothing | worker/data-protection-repository.ts:388-393 | A recovery unmarks the project and ends the request together, or neither. |
| DeletionProtocol.AnswersAreTrue | worker/data-protection-repository.ts:394-395 | Whatever steps lie between an actor's batch and its reading again: a recovery or purge is reported as done if and only if its batch won or the request had already ended that way, and the sweep has not deleted the request since; the fifteen counts of a purge, each made in its own state, never spoil that. |
| DeletionProtocol.AskAnswersAreTrue | worker/data-protection-repository.ts:344-345 | A deletion whose batch won is reported with the claim of that batch unless the sweep has deleted its request since; one whose batch lost is refused unless another deletion ran under its request id. |
| DeletionProtocol.RequestsStayUntilDropped | worker/data-protection-repository.ts:543-558 | Over any run a stored request stays, with its claim, if and only if no step of the sweep deletes it, and then never comes back. |
| DeletionProtocol.EndingsExcludeEachOther | db/generated-migrations.ts:231 | No request is both recovered and purged; recovery is not after the deadline, purge not before it, and backups become eligible 30 days after the purge. |
| DeletionProtocol.EndedRequestsNeverChange | db/generated-migrations.ts:231 | Over any run a terminal request keeps every column for as long as it exists, and its id is never stored again. |
| DeletionProvenance.EveryRecordWasAskedFor | worker/data-protection-repository.ts:312-476 | In every run, each stored request has the time, the reason, the actor, the directive, the next revision and the recovery window of the days of some call that asked for it under its id; a recovery, a purge, an acknowledgement or a verification on record was asked for by some call with that actor at that time, a purge with backups eligible thirty days on. |
| DeletionProvenance.WindowIsAsAskedFor | src/security/data-protection.ts:121-133 | While a request stands open in any reachable state, a recovery is refused as too late exactly after the days it was asked for, to the millisecond, and a purge as too early exactly before. |
| DeletionProvenance.VerificationsCameAfterThirtyDays | worker/data-protection-repository.ts:449-470 | Every verification in every reachable state is of a purged request that is still there, was looked up and is dated thirty days or more after the purge. |
| DeletionCalls.DeletionTakesEffectIff | worker/data-protection-repository.ts:312-345 | Undisturbed, a deletion takes effect if and only if the project stands undeleted at the expected revision; it marks the project at the next revision and stores a request whose window ends so many days from now. |
| DeletionCalls.RecoveryTakesEffectIff | worker/data-protection-repository.ts:376-397 | Undisturbed, a recovery takes effect if and only if its request is open and its window not over; it unmarks the project and ends the request with time and actor. |
| DeletionCalls.PurgeTakesEffectIff | worker/data-protection-repository.ts:400-438 | Undisturbed, a purge takes effect if and only if its request is open and its window over; it removes the project with exactly its rows and stores the all-zero verification of the fourteen tables and the outbox. |
| DeletionCalls.AcknowledgementTakesEffectIff | worker/data-protection-repository.ts:352-374 | An acknowledgement is stored once, for the directive of an open request alone. |
| DeletionCalls.ExpiryIsRecordedIff | worker/data-protection-repository.ts:445-470 | Evidence of expiry is recorded if and only if it is well formed, none was before, and thirty days have passed since the purge. |
| DeletionCalls.DeletedAndRecovered | worker/data-protection-repository.ts:312-397 | Round trip: a deletion taken back within its days leaves the project two revisions on and every row in place; later nothing happens. |
| DeletionCalls.DeletedAndPurged | worker/data-protection-repository.ts:312-438 | A deletion is purged exactly when its days are over, and then only the project and its rows are missing. |
| DeletionCalls.ProjectIsCreatedIff | worker/project-repository.ts:105-136 | A project is stored at revision 1 with the deletion columns of its record exactly if its id is free. |
| DeletionCalls.ProjectIsWrittenIff | worker/project-repository.ts:143-175 | A write over the stored revision leaves the next one with the deletion columns of its record; a write over another revision is lost. |
| DeletionCalls.DeletionIsTold | worker/data-protection-repository.ts:319-349 | What the caller of a deletion is told: its request, or the one thing that was in its way. |
| DeletionCalls.RecoveryIsTold | worker/data-protection-repository.ts:383-397 | What the caller of a recovery is told: the recovered request, or the one reason for the refusal. |
| DeletionCalls.PurgeIsTold | worker/data-protection-repository.ts:406-438 | What the caller of a purge is told: the purged request, or the one reason for the refusal. |
| DeletionCalls.AcknowledgementIsTold | worker/data-protection-repository.ts:358-374 | What the caller of an acknowledgement is told: the acknowledged request, an earlier acknowledgement included, or why there is none. |
| DeletionCalls.ExpiryIsTold | worker/data-protection-repository.ts:450-475 | The same evidence again is answered like the first, other evidence conflicts, and too early or unfit evidence is refused as such. |
| DeletionProtocol.EveryVerificationRefers | db/generated-migrations.ts:232-233 | In every reachable state each backup verification refers to an existing purged request of the same organization and project with equal eligibility time, not later than the verification. |
| RetentionBacklog.RemovedRequestsWereFree | worker/data-protection-repository.ts:502-558 | Whatever work of a sweep led from one state to another: every request that is gone had ended, and if it was purged, backups had been eligible to expire for more than sixty days. |
| DeletionLimits.RecoveryKeepsAgreementIff | worker/data-protection-repository.ts:389-391 | A recovery on stale evidence keeps projects and requests in agreement if and only if the project is not deleted at the request's time under another request. |
| DeletionLimits.PurgeKeepsAgreementIff | worker/data-protection-repository.ts:419-421 | The same for a purge. |
| DeletionLimits.SharedTimeBreaksRecovery | worker/data-protection-repository.ts:388-393 | The failing family: two deletions of one project in the same millisecond let a stale recovery take back the second one while its request stays active. |
| DeletionLimits.SharedTimeBreaksPurge | worker/data-protection-repository.ts:409-422 | The failing family for a purge, with a recovery window of no days: the project is gone while the second request stays active. |
| DeletionLimits.CreateKeepsAgreementIff | worker/project-repository.ts:106-137 | A new project keeps the agreement if and only if its id is taken already or its record carries neither deletion column. |
| DeletionLimits.CreatedAsDeleted | worker/project-repository.ts:112-142 | The failing family: a record that says it is deleted is stored as deleted although nothing asked for that, and the read after the insert does not find it. |
| DeletionLimits.PutKeepsAgreementIff | worker/project-repository.ts:156-176 | A project write keeps the agreement if and only if it matches no row or carries the stored deletion columns. |
| DeletionLimits.PutCanTakeADeletionAway | worker/project-repository.ts:156-176 | The failing family: a record saved at the current revision without the deletion columns. |
| DeletionLimits.DropKeepsReferencesIff | worker/data-protection-repository.ts:548-552 | Deleting selected requests keeps every verification's reference if and only if none of them has a verification by then. |
| DeletionLimits.LateEvidenceIsOrphaned | worker/data-protection-repository.ts:543-555 | The failing family: evidence recorded between the select and the delete loses its request. |
| DeletionLimits.EvidenceBetweenSelectAndDelete | worker/data-protection-repository.ts:543-555 | A sound world for every purged request in which that happens. |
| RetentionSweep.Select | worker/data-protection-repository.ts:503-509 | The database's ordered, limited selection: distinct rows, oldest key first, and all of them when fewer than the limit come back. |
| RetentionSweep.DuePurgeSucceeds | worker/data-protection-repository.ts:400-438 | A purge of an overdue request, uninterrupted, passes every check and batch and is reported as done. |
| RetentionSweep.DataProtection.PurgeProject | worker/data-protection-repository.ts:400-438 | A purge call leaves the tables and the answer that the specified outcome gives, with one audit event exactly on success, and stays within the deletion protocol. |
| RetentionSweep.DataProtection.PurgeAll | worker/data-protection-repository.ts:510-519 | The loop over selected projects purges each of them and nothing else. |
| RetentionSweep.DataProtection.SweepAll | worker/data-protection-repository.ts:532-542 | The loop over selected runbooks removes each of them and nothing else. |
| RetentionSweep.DataProtection.DeleteVerifications | worker/data-protection-repository.ts:543-556 | A bounded delete removes exactly the old verifications it selected, all of them if it stays under the budget. |
| RetentionSweep.DataProtection.DeleteRequests | worker/data-protection-repository.ts:543-557 | The same for terminal requests without a verification. |
| RetentionSweep.DataProtection.DeleteAudits | worker/data-protection-repository.ts:543-558 | The same for old audit events. |
| RetentionSweep.DataProtection.SweepOrganization | worker/data-protection-repository.ts:496-570 | One organization's five stages share one budget, each counter says how many items of its kind were worked off; what goes had served the days of the policy, with budget left nothing that has is left, and the sweep's audit event is written last. |
| RetentionSweep.DataProtection.SweepOrganizations | worker/data-protection-repository.ts:496-570 | The loop visits the organizations in order, goes on only from one that is clean, works for those it visited alone, and stops when nothing remains; otherwise every live organization is clean at the end. |
| RetentionSweep.DataProtection.SweepRetention | worker/data-protection-repository.ts:478-580 | A sweep fails only for a limit outside 1..100. In days: a runbook goes without its project only if neither it nor its tasks, monitors, registers and reviews were updated within the operational days of its organization, 365 without a policy; verifications, ended requests and audits go only after the security days, or 400; projects only when their window is over. Not exhausted, nothing is left that has served those days, save ended requests whose verification stays. The five counters say how many items of each kind went, within the limit; organizations are visited in the order of their ids and counted, each but the last left clean; requests that are gone had ended, purged ones with backups eligible for sixty days. |
| RetentionSweep.DataProtection.LiveOrganizations | worker/data-protection-repository.ts:485-492 | The organizations that are not deleted, each once, in the order of their ids. |
| RetentionTerms.CleanIsWithinTerms | worker/data-protection-repository.ts:496-558 | An organization with nothing overdue keeps no row beyond the days of its policy, said in the columns of the rows. |
| RetentionTerms.DoneWasExpired | worker/data-protection-repository.ts:496-558 | Whatever a sweep has worked off had served its days, said in the columns of the rows: projects, runbooks with all their rows, verifications, requests and audits. |
| RetentionTerms.RewritingKeepsTheRunbook | worker/data-protection-repository.ts:519-530 | Writing a task, monitor, register or review again keeps its runbook from the sweep for its days. |
| RetentionBacklog.CountersAddUp | worker/data-protection-repository.ts:495-579 | Counters that agree with the items of each kind add up to the number of items. |
| RetentionBacklog.PurgeProgress | worker/data-protection-repository.ts:510-519 | A purge takes its one item off the backlog, makes nothing else overdue, and removes only what belongs to the project. |
| RetentionBacklog.SweepProgress | worker/data-protection-repository.ts:532-542 | The same for a stale runbook: no other runbook becomes or stops being stale. |
| RetentionBacklog.ProgressComposes | worker/data-protection-repository.ts:493-570 | Pieces of work compose: their items are disjoint, counts add up, and what is gone stays accounted for. |
| RetentionBacklog.CleanStays | worker/data-protection-repository.ts:496-570 | An organization that was left clean stays clean while others are swept. |
| RetentionBacklog.ExhaustedSweepsEnd | worker/data-protection-repository.ts:493-579 | With the clock standing still, n exhausted sweeps in a row take at least n times the limit off the backlog, so they end. |
| Migrations.PlanSucceedsExactlyOnAPrefix | worker/database-migrations.ts:158-190 | For any migration list, planning on recorded rows succeeds if and only if they are a prefix with matching names and checksums, and then applied and pending make up the list. |
| Migrations.PlanIsRefusedFor | worker/database-migrations.ts:181-190 | Recorded rows are refused for the first that does not match, as unknown or as changed, and for a gap only when all match. |
| Migrations.DecidedIsPrefix | worker/database-migrations.ts:180-190 | Versions without gaps and the checks on names and checksums force the rows to be the first migrations. |
| Migrations.EveryRunRecovers | worker/database-migrations.ts:153-241 | With any number of runners stopped anywhere, and each of the planner's five queries answered from whatever state, no recorded or adopted migration runs again, the others run once and in order, and the database is always one an uninterrupted run passes through. |
| Migrations.PlanFits | worker/database-migrations.ts:153-204 | A plan whose queries saw different states is harmless: its first batch succeeds only on rows that the plan is right about. |
| Migrations.FinishedIsComplete | worker/database-migrations.ts:228-240 | A finished run has recorded the whole list and holds the schema of an uninterrupted run. |
| Migrations.FurtherRunDoesNothing | worker/database-migrations.ts:214-240 | After that a further run finds nothing pending and changes nothing. |
| Migrations.Migrator.Apply | worker/database-migrations.ts:210-241 | A dry run and a refused plan change nothing. Otherwise the call has run the first n pending migrations on what was there, each with its record, and stops for one reason: the list is complete, the next one needs a project export that is not given, or its batch fails. It asks for an export if and only if none is given and a migration that needs one comes up after everything before it has run. |
| Migrations.HeldUpIff | worker/database-migrations.ts:227-238 | Where a call ends it lacks an export if and only if some pending migration needs one that is not given, everything before it running. |
| LegacyBaseline.DetectionSucceedsIff | worker/database-migrations.ts:56-119 | Detection on a database with projects succeeds if and only if every level is all there or all missing, the first one there, and from 7 on none without the one below. |
| LegacyBaseline.DetectionFindsTheHighest | worker/database-migrations.ts:120-150 | The version reported is the highest complete level and no marker of a later level is present. |
| LegacyBaseline.NewestMarkerTellsTheVersion | worker/database-migrations.ts:14-48 | Marker by marker: the version reported is that of the newest marker found, every marker that came with it is there and none that came later. |
| LegacyBaseline.FirstLevelsAreDetected | worker/database-migrations.ts:50-151 | Exactly the markers of the first k migrations, with any unrelated ones, are recognized as version k. |
| LegacyBaseline.LaterVersionsAreComplete | worker/database-migrations.ts:99-119 | For a version of 6 or more every level from 6 up to it is complete. |
| LegacyBaseline.EarlierVersionsMayBeMissing | worker/database-migrations.ts:138-150 | The order of levels 2 to 5 is not checked: a database without them passes for version 6. |
| LegacyBaseline.LegacyPlanResumes | worker/database-migrations.ts:165-190 | An unrecorded database at version k adopts the first k migrations and plans exactly the rest. |
| LegacyBaseline.PiecedSees | worker/database-migrations.ts:50-88 | Which of the three queries sees a marker: the columns of projects, those of share links, or the table names. |
| CollaborationLog.AppendKeepsLinks | worker/collaboration-repository.ts:79-83 | An append extends its own stream, no other one, and keeps the log well linked. |
| CollaborationLog.GapTestExact | worker/collaboration-repository.ts:115-118 | On every well-linked log and for every limit from 1 up, `missed` holds if and only if the position is above 0 and is no event of the stream. |
| CollaborationLog.TwoReadGapTestExactIff | worker/collaboration-repository.ts:102-118 | Whatever is appended between the two reads, the answer is exact for the later log if and only if the reader resumes no later than where its stream ended at the first read. |
| CollaborationLog.AppendHidesGap | worker/collaboration-repository.ts:104-117 | The failing family: for every log and every position past the end of the stream, the stream's next event with an id above that position, appended between the two reads, hides the gap. |
| CollaborationLog.MemoryGapTestExactIff | worker/collaboration-repository.ts:182-195 | The memory version, which does not clamp its limit, is exact on every log if and only if the limit is at least 1. |
| CollaborationLog.PagingDeliversOnce | worker/collaboration-repository.ts:102-110 | A reader that resumes after its last event holds exactly the first events of its stream, each once and in order, and every call moves it on by a full page or to the end. |
| CollaborationLog.ReaderIsNeverReset | worker/collaboration-repository.ts:111-118 | Such a reader is never told that events are missing, appends between the two reads included. |
| CollaborationLog.PurgeKeepsOtherStreams | db/generated-migrations.ts:75 | A project purge removes the streams of its project whole and leaves every other one as it was. |
| CollaborationLog.PurgeKeepsLinks | db/generated-migrations.ts:75 | After a purge the log is still well linked, so the gap test stays exact. |
| CollaborationLog.D1Collaboration.Append | worker/collaboration-repository.ts:77-100 | The new row gets the next id and names the event of its own stream with the highest id, if there is one. |
| CollaborationLog.D1Collaboration.Events | worker/collaboration-repository.ts:102-119 | Read in one go: the first events of the stream above the id, in order, exactly as many as the limit from 1 to 100 lets through; the highest id of the stream as cursor; and missed if and only if the position is positive and no event of the stream has it. |
| CollaborationLog.MemoryCollaboration.Append | worker/collaboration-repository.ts:174-181 | Ids are the length of the list; the link is the event of the stream with the highest id. |
| CollaborationLog.MemoryCollaboration.Events | worker/collaboration-repository.ts:182-196 | The first later events up to a limit of 0 or more, all but the last so many for a negative one; the same cursor; an exact gap test from limit 1 up. |
| Registers.PutIsAcceptedIff | worker/deviation-repository.ts:70-102 | A put over a stored row leaves a row that reading accepts if and only if its document agrees with the columns the update does not set. |
| Registers.EveryRunIsAccepted | worker/deviation-repository.ts:135-229 | Under any interleaving of reads, creates, puts and removals every stored row is accepted on reading and no runbook has two registers. |
| Registers.CommitMovesOn | db/generated-migrations.ts:190 | An accepted put replaced the revision it expected, left the next one, and kept the identity. |
| Registers.PutsFormOneLine | worker/deviation-repository.ts:185-229 | Over any run the accepted puts raise the revision by one each, the stored document is the last accepted one, and columns and identity never change. |
| Registers.NoLostUpdate | worker/incident-repository.ts:188-228 | A put accepted at the revision some actor read replaces that very row, with no accepted put in between. |
| Registers.LatePutMakesARowUnreadable | worker/deviation-repository.ts:197-222 | The failing family: a put that read nothing, a create, then the put's update with another baseline; no later read accepts the row. |
| Registers.CreateAgainAnswersTheStored | worker/deviation-repository.ts:143-180 | Creating a stored register again fails to insert and answers with what is stored. |
| Registers.RegisterRepository.Create | worker/deviation-repository.ts:135-182 | Exactly when a create stores its document, with each column saying what the document says: valid, well formed, its id and its runbook without a register, and the runbook there; else the same register is answered with the stored one, another one with a conflict, and any other failure with its reason. |
| Registers.RegisterRepository.Put | worker/deviation-repository.ts:185-229 | A put is accepted if and only if it is in scope, valid, has a head, a register of the same identity is stored at the expected revision, and it carries the next one; then its row holds it and no other row changes. Each refusal has its one condition and changes nothing. |
| Registers.PutDecides | worker/deviation-repository.ts:185-229 | The same for the table functions that runs are made of. |
| Registers.CreateDecides | worker/deviation-repository.ts:135-182 | The same for a create and what it falls back to. |
| Registers.ReadIsDecided | worker/deviation-repository.ts:92-101 | A row is read if and only if its document is valid and says what each column says; a baseline that differs from the columns is refused as such. |
| OccupancyMonitors.MonitorPutsFormOneLine | worker/occupancy-repository.ts:119-142 | Accepted puts of a monitor form one line of revisions over unchanging columns. |
| OccupancyMonitors.MonitorPutIsAcceptedIff | worker/occupancy-repository.ts:119-142 | A monitor put is accepted if and only if a monitor is stored in scope at the expected revision and the document carries the next one and a ledger; then only the document, its revision, time and head change. |
| OccupancyMonitors.MonitorIsCreatedIff | worker/occupancy-repository.ts:64-87 | A monitor is created if and only if it is well formed with a ledger and the first one under its id and its runbook. |
| OccupancyMonitors.PutStaysConsistentIff | worker/occupancy-repository.ts:119-135 | Document and columns stay consistent if and only if the new document repeats the columns that stay. |
| OccupancyMonitors.BaselineCanDrift | worker/occupancy-repository.ts:119-135 | The failing family: a document with another baseline is accepted over the first one. |
| CommandSchema.TrimTrims | worker/deviation-http.ts:33-36 | Trimming removes white space at both ends and nothing else, and leaves a trimmed string as it is. |
| CommandSchema.FixedExactlyWhenNormal | worker/deviation-http.ts:27-117 | For every schema the values that decode to themselves are exactly the normal forms, which are defined without decoding. |
| CommandSchema.DecodingTwiceIsDecodingOnce | worker/deviation-http.ts:289-373 | Decoding what was decoded changes nothing, at any nesting. |
| CommandSchema.DecodedResembles | worker/deviation-http.ts:27-117 | A decoded value is its input up to blanks around strings and dropped properties, at any depth. |
| CommandSchema.RecordsDropOnlyTheIgnored | worker/deviation-http.ts:27-32 | A record keeps every property it knows; only the ones it was told to ignore are dropped. |
| CommandSchema.AcceptedIff | worker/deviation-http.ts:27-62 | A value is accepted if and only if it meets what the schema asks for, stated without decoding. |
| CommandSchema.DistinctTextsAreAcceptedIff | worker/post-event-review-http.ts:60-65 | A bounded list of ids is accepted if and only if it is short enough, no item is blank and no two are alike once trimmed. |
| CommandSchema.AcceptedCommandsAreWellFormed | worker/deviation-http.ts:390-469 | An accepted input becomes a normal body with five properties added: a human actor with the given actor id, the studio as source, the given session and the given time; all other properties are those of the decoded body, and the input carried none of the five. |
| CommandSchema.SentIsItselfIff | worker/post-event-review-http.ts:127-129 | A value that is written as JSON and parsed again is itself if and only if all its numbers are finite, at any depth; an infinite one arrives as null. |
| CommandSchema.SentDecodes | worker/deviation-http.ts:27-117 | For every schema a decoded value that is sent decodes to itself, or is refused exactly when one of its numbers was infinite. |
| CommandSchema.ScalarFreeIsFinite | worker/deviation-http.ts:38-46 | Where a description takes no loose scalars, every number decoded is finite. |
| CommandSchema.CommandsComeBack | worker/deviation-http.ts:390-469 | A well-formed command that is sent comes back under its own identity when all its numbers are finite, and is refused as invalid when one is not. |
| CommandSchema.AcceptedCommandsComeBackIff | worker/deviation-http.ts:390-469 | For every accepted input, decoding, sending and decoding again is the identity if and only if all numbers of the body are finite. |
| DeviationCommands.DeviationCommandsComeBack | worker/deviation-http.ts:390-469 | The three deviation commands, with their nested locations, changes, objects and footprints, always come back: all their numbers are finite. |
| DeviationCommands.DecodedDeviationCommandsAreFixed | worker/deviation-http.ts:390-469 | Every accepted value becomes a well-formed deviation command, and sending and decoding that is a fixed point. |
| DeviationCommands.DeviationIdentityIsTrusted | worker/deviation-http.ts:395-401 | Actor type, actor, source, session and time of a decoded command are the server's, property by property; every other property comes from the decoded body. |
| DeviationCommands.FootprintsAreTyped | worker/deviation-http.ts:63-97 | What the footprint decoder returns is a rectangle, circle, line or polygon with the properties of its kind and no others. |
| DeviationCommands.FootprintsComeBack | worker/deviation-http.ts:63-97 | Every typed footprint comes back from its JSON. |
| PostEventCommands.ReviewCommandsComeBack | worker/post-event-review-http.ts:175-211 | A well-formed review command that is sent comes back under its own identity, or is refused exactly when an effect of one of its changes is an infinite number. |
| PostEventCommands.ReviewFiniteIff | worker/post-event-review-http.ts:127-153 | The effects of changes are the only place where a review command can hold an infinite number. |
| PostEventCommands.InfiniteEffectDoesNotComeBack | worker/post-event-review-http.ts:127-153 | A change with any number as an effect is accepted as it is; sent again it is refused if and only if that number is infinite. |
| PostEventCommands.AcceptedCommandIsRefusedWhenSentAgain | worker/post-event-review-http.ts:127-211 | The failing family as whole commands: accepted, and refused when sent again. |
| PostEventCommands.DecodedReviewCommandsAreFixedIff | worker/post-event-review-http.ts:175-211 | Every accepted value becomes a well-formed review command, and sending and decoding that is a fixed point if and only if no effect in the input is an infinite number. |
| PostEventCommands.ReviewIdentityIsTrusted | worker/post-event-review-http.ts:180-186 | Actor type, actor, source, session and time of a decoded review command are the server's, property by property; every other property comes from the decoded body. |
| PostEventCommands.ChangesKeepTheirKind | worker/post-event-review-http.ts:136-153 | A change that came with spatial effects keeps them, and one that came without gets none, so decoding again takes the same branch. |
| DecoderRules.ShapeMeetsItsRule | worker/deviation-http.ts:27-50 | A record is accepted if and only if every needed property is there, nothing unknown is, and each property is the text, number, flag, count or nested value that its rule names. |
| DecoderRules.DeviationCommandIsAcceptedIff | worker/deviation-http.ts:390-469 | Which bodies the deviation decoder accepts, kind by kind and property by property, and that it calls a command unsupported if and only if its kind is none of the three. |
| DecoderRules.FootprintIsDecodedIff | worker/deviation-http.ts:63-96 | Which footprints are accepted: the numbers and points each kind needs, beside what other kinds use. |
| DecoderRules.MutationIsDecodedIff | worker/deviation-http.ts:329-357 | Which spatial mutations are accepted, operation by operation. |
| DecoderRules.LocationIsDecodedIff | worker/deviation-http.ts:377-388 | Which locations are accepted: an object of the plan by its id, or a coordinate. |
| DecoderRules.ReviewCommandIsAcceptedIff | worker/post-event-review-http.ts:175-211 | Which bodies the review decoder accepts, kind by kind and property by property, and which it calls unsupported. |
| DecoderRules.ReviewChangeIsDecodedIff | worker/post-event-review-http.ts:127-153 | A change in a review meets the deviation decoder's rule if it has spatial effects and the plain rule if it has none. |
| DecoderRules.CreateBodyIsDecodedIff | worker/post-event-review-http.ts:155-167 | Which bodies create a review: four ids, at most a hundred distinct scenario runs and 1 to 100 predictions. |
| DecoderRules.MetadataIsDecodedIff | worker/deviation-http.ts:289-310 | Which metadata of an object are accepted: a label, a layer, two numbers, a group and six nested records, all of which may be missing. |
| DecoderRules.VenueObjectIsDecodedIff | worker/deviation-http.ts:311-328 | Which objects may be added: an id, a kind and a footprint, with any metadata. |
| DecoderRules.ObjectPartsAreDecodedIff | worker/deviation-http.ts:54-194 | Which points, footprint patches, circulation and route records are accepted. |
| DecoderRules.SafetyPartsAreDecodedIff | worker/deviation-http.ts:195-288 | Which restriction, exit, emergency and occupancy records are accepted. |
| DecoderRules.ReviewPartsAreDecodedIff | worker/post-event-review-http.ts:67-86 | Which evidence references, scopes, tolerances, lesson links and targets are accepted. |
| DecoderRules.PredictionIsDecodedIff | worker/post-event-review-http.ts:101-126 | Which predictions are accepted: 1 to 50 evidence references, and a family, metric, unit and direction out of the lists. |
| DecoderRules.EffectIsDecodedIff | worker/post-event-review-http.ts:127-135 | An effect of a change is any string, number or boolean, infinite numbers included, or a sourced value. |
| PostEventCommands.CreateBodiesAreFixed | worker/post-event-review-http.ts:155-167 | A review's create body decodes to a normal form that decodes to itself and is the input up to blanks. |
| ProductAnalytics.CellsCount | worker/product-analytics-repository.ts:104-121 | After any run of increments and prunes each stored count is the number of increments since the cell was last pruned, up to 2147483647, and a cell exists exactly when that number is above 0. |
| ProductAnalytics.ValidIff | src/analytics/product-analytics.ts:88-137 | The events that are counted, one by one: seven fixed ones, an error at any stage with its category, and an abandonment at any stage without one. |
| ProductAnalytics.MemoryHoldsTheScope | worker/product-analytics-repository.ts:142-148 | After the same run the memory version holds exactly the rows of its scope. |
| ProductAnalytics.BothReadTheSame | worker/product-analytics-repository.ts:122-164 | Each grouped total of the table is the sum of the memory version's rows for that event, and the table refuses a window exactly when some sum exceeds the greatest count. |
| ProductAnalytics.WindowIsRefusedIff | worker/product-analytics-repository.ts:40-44 | A window is refused as such if and only if it is not of 1 to 90 days. |
| ProductAnalytics.GroupsFitTheLimit | worker/product-analytics-repository.ts:125-129 | There are never more than 63 groups, so the limit of 256 rows cuts nothing off. |
| ProductAnalytics.PruneChangesNoReading | worker/product-analytics-repository.ts:95-102 | A prune changes no reading whose window starts at or after its boundary. |
| ProductAnalytics.LaterReadingsAreSafe | worker/product-analytics-repository.ts:95-102 | In particular no reading made at the time of the prune or later. |
| ProductAnalytics.PrunesNeverShow | worker/product-analytics-repository.ts:95-131 | A reading made after all prunes of a run is the one there would be without any of them. |
| ProductAnalytics.MemoryAnalytics.Increment | worker/product-analytics-repository.ts:142-148 | An allowed event raises the count of its day by one, up to 2147483647; any other changes nothing. |
| ProductAnalytics.MemoryAnalytics.Prune | worker/product-analytics-repository.ts:165-174 | The loop over the entries removes exactly those more than 180 days old and returns how many. |
| ProductAnalytics.MemoryAnalytics.Metrics | worker/product-analytics-repository.ts:149-164 | For every window of 1 to 90 days the rows returned correspond one to one to the entries of the window, each with its event and its count. |

## Left out

- Ledger and receipt `id` columns, which are determined by runbook, sequence and transition, and the details column of
  a ledger row, which repeats its transition.
- Which UNIQUE constraint an insert broke: the runbook tables report one kind of conflict, so the mapping of
  constraint texts to client-sequence and idempotency conflicts is not told apart.
- RunbookLedger.EvidenceIsAppendOnly: deletes of evidence rows, alone or with their task, are modelled as always
  aborting, which is the case while the project exists and no lease covers the runbook; purges of a project, deletes
  of a whole runbook and leases are in ProjectCascade.
- The runbook that a write reads again after its batch and hands back beside the answers.
- A rename of a runbook's primary key, which no statement of the Worker performs.
- Foreign keys to organizations and users, which are only ever soft-deleted, and updates of key columns.
- Presence leases, share-link states, e-mail delivery, rate limits, observability, accounts and sessions.
- Exports and the contents of audit events; only the times of audit events matter to the sweep.
- Rows with equal sort keys come back from a selection in any order; the second sort column is not modelled.
- RetentionSweep.DataProtection.SweepRetention: no other actor moves between its statements, so that purges of
  selected projects cannot be overtaken; other actors are in DeletionProtocol.
- CollaborationLog.AppendHidesGap: the hiding event has an id above the reader's position. Where that position is above
  the last id handed out, appends of other streams have to come in between to raise the counter; they change nothing
  for this stream.
- Fairness of the sweep between organizations: the code visits them in id order and promises nothing more.
- CollaborationLog.PagingDeliversOnce: only appends happen between polls; a purge of another project between two
  polls is covered by PurgeKeepsOtherStreams, a purge of the reader's own project ends its stream.
- DeletionProtocol.EveryRunDeletesWhatIsRequested: in its runs, as in those of EveryRunIsSound, projects are created without
  deletion columns and written with the stored ones; the code lets a caller do otherwise, and DeletionLimits states exactly
  when the agreement survives that.
- DeletionProtocol.EveryRunIsSound: actors may repeat a prepared batch any number of times, which is more than
  the code does; a purge's check of the project row only ever stops it.
- The statements of a migration: a batch either fails or gives a schema that depends on the schema before it.
- Recorded `applied_at` times, and what a project export before a migration does or how it may fail.
- What a monitor's failed create falls back to; the registers' create, which falls back to more, is modelled.
- SHA-256, JSON text, SQL parsing and the database driver; documents are values, hashes are opaque.
- Registers.EveryRunIsAccepted: the ledgers inside two successive documents are not compared, as the code does
  not compare them; ledger verification is a predicate parameter.
- The deviation create body and the sync bodies of the decoders that only check one property and pass its value on, and the wording
  of refusals; a refused command is either invalid or of an unsupported type.
- Negative zero, and properties inherited by an object rather than its own: objects have the properties they list.
- The textual order of analytics rows and the check of a scope hash.
- React components, pages and the command-line scripts.
