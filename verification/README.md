# The manager's scheduling and membership engine, verified

This project models the manager of the event bot in Dafny 4.11 and proves what its users
rely on: nobody is counted twice, no reminder is logged twice, nothing that was closed comes
back, and no job is lost or run by two workers at once.

`dafny verify dfyconfig.toml` checks everything.

## How it is built

The source changes records in place behind repositories, a chat provider and a job worker.
The project has both sides of that:

* **The specification** is functions on values. `Jobs`, `Participations` and `Events` say
  what a repository call does to the stored sequences; `Manager` composes them into the use
  cases and job handlers, on a state of store, provider and workspaces.
* **The implementation** is classes with the loops and the order of calls of the source.
  `Store` (memstore), `Provider` (the fake provider), `Services` (the use cases and handlers)
  and `Worker` are proved, method by method, to do to the whole state what the specification
  says. The pure-data parts that loop (`Reminders`, `Pace`, `Markup`, `Pagination`, `Jobs.Backoff`)
  have methods with loop invariants beside their specification in the same way.
* **The properties** are lemmas about the specification:
  * `LeaseProtocol` is the queue and any number of worker processes as a state machine whose
    steps are the atomic store calls; a process may crash between any two of them.
    `LeaseGuarantees` states what holds in every run, and `Retries` follows one job that
    always fails.
  * `Runs` strings use cases, clock ticks, worker turns and crashes together, one at a time.
    `Roster`, `Lifecycle`, `Peeks` and `ReminderRuns` each prove that every operation keeps
    one invariant; `Guarantees` and `Runs` state what follows for every run.
  * `Creations`, `Edits`, `Buttons` and `Outcomes` say what one call answers and leaves
    behind, and exactly when it is refused, in terms of what was asked for and the record
    before, not in terms of the functions they are about. `Turns` does the same for one turn
    of a worker, and `TurnPaths` shows that such a turn is a path of `LeaseProtocol`.
  * `Presses` cuts the button press where the source lets go of the store, and interleaves
    any number of presses; `PressGuarantees` states what that keeps and when it does not.
  * `Reminders`, `Pagination`, `Markup`, `Escapes`, `Pace` and `PaceForms` (with `Durations`,
    `Clocks`, `Texts`, `Decimals`), `Calendar` and `EndTimes` prove schedules, paging, round trips and date
    inference.

Instants and durations are nanoseconds. A time zone is a fixed offset from UTC. A use case
happens at one instant; the clock never runs backwards. Ids are numbers where the source
prints them as 24 hexadecimal digits, and dedupe keys are values where it prints them as
text; `Keys` proves that the texts differ when the values do. A policy carries only the
fields of its mode. `textValid` stands for the validation of titles and other texts,
`online`, `posts` and the channel names of `CreateInput` for what the provider and the slug
builder answer. Posts, pins and message refreshes change nothing here. Workspace settings
do not change during a run, and nobody acts as the bot.

The lease protocol assumes what the heartbeat is for: while a live worker holds a job, time
does not reach the end of its lease. Without that assumption `LeaseGuarantees.ReopenedIff` says
exactly which write-backs put a finished job back into the queue.

Some promises hold only under a condition, and the project proves exactly which. The count
of participants is right in an interleaving of presses if and only if no step was one of two
kinds (`PressGuarantees.Loses`); a user who races join against peek takes such a step
(`PressGuarantees.JoinLosesToPeek`). A promotion cancels the expiry of the other peekers of
the event: a peek has an expiry job if and only if nobody else was promoted there since the
user last peeked (`Guarantees.PeeksNeverLost`). Paging lists everything if and only if each
row that begins a page comes after the cursor made of the row before it, whose start is cut
to milliseconds (`Pagination.PagingIsLosslessIff`). And escaped text yields a mention if and
only if an odd run of at least three braces, outside bold text, ends with two that begin one
(`Escapes.EscapeNeutralises`).

The scheduler document (`docs/11-scheduler.md`, section 5) has date edits create a new
auto-end job. The code does not: the job keeps its dedupe key and puts itself off when it
finds that the end was moved (`internal/manager/scheduler/handler.go:87-114`). The model
follows the code; an end moved to before the moment the job was to run comes late
(`Guarantees.EditEndsInTimeIff`).

## Model

| member | source | states |
|---|---|---|
| `LeaseGuarantees.LeaseSafety` | internal/manager/scheduler/worker.go:176-252 | In every reachable state of the claim, heartbeat, write-back, cancel, crash and clock steps, no two live goroutines hold one job, every held job is running under an unexpired lease, and a lease is recorded exactly while a job runs |
| `LeaseGuarantees.TerminalAbsorbing` | internal/manager/memstore/memstore.go:699-739 | Over any run a done, failed or canceled record never changes again, although no write-back looks at the status |
| `LeaseGuarantees.ReopenedIff` | internal/manager/memstore/memstore.go:824-836 | In a state without the lease discipline, a finished job leaves its terminal status exactly by a reschedule, or a retryable result, of a goroutine that still has a copy of it |
| `LeaseGuarantees.BoundedStarts` | internal/manager/scheduler/worker.go:176-183 | Attempts are claims minus reschedules and never negative; crashes included, the handler is started at most MaxAttempts times more often than it rescheduled |
| `LeaseGuarantees.RecoveryIsExact` | internal/manager/memstore/memstore.go:824-845 | A running job whose worker is gone, and for which no heartbeat is left, can be claimed exactly from its LeaseUntil on, for as long as nobody claims it |
| `LeaseGuarantees.CrashRecovery` | internal/manager/memstore/memstore.go:838-845 | So by the time one lease length has passed there was a moment at which it was claimable |
| `LeaseGuarantees.SlotsLimitExecution` | internal/manager/scheduler/worker.go:121-151 | Over any run a process executes at most Workers jobs at once |
| `LeaseProtocol.StepKeepsInv` | internal/manager/scheduler/worker.go:121-281 | Every atomic step of queue and workers keeps the invariant: lease iff running, tallies, exclusive holders, slot accounting |
| `LeaseGuarantees.RunKeepsInv` | internal/manager/scheduler/worker.go:101-252 | The invariant holds in every state of every run |
| `LeaseGuarantees.TerminalStep` | internal/manager/memstore/memstore.go:699-739 | One step under the invariant leaves a finished record as it is |
| `LeaseProtocol.StepRecord` | internal/manager/memstore/memstore.go:668-785 | What each step leaves of one record: only its own holder, a claim, a heartbeat or a cancel of its event changes it |
| `TurnPaths.TurnIsPath` | internal/manager/scheduler/worker.go:176-212 | A turn of the worker with any handler is a path of these steps to the same queue: it begins, its handler may cancel and enqueue, and its own last step reschedules or writes the result; the handler is started exactly if the job was not claimed more often than it may be tried. So what the protocol promises about starts and write-backs holds of the worker |
| `Turns.TurnOutcome` | internal/manager/scheduler/worker.go:154-212 | One turn, in literal terms: without a due job nothing happens; otherwise the most urgent one is claimed under a full lease and does what its kind asks for, and its record ends done, put off with the attempt given back, or failed |
| `Turns.ClaimedTurn` | internal/manager/scheduler/worker.go:176-212 | From any claimed job on: over its limit it fails unstarted, dated and without a lease, and nothing else changes; a reminder is logged or not, a peek expires or is put off to its end, an open event ends or the job waits for its end, a channel is archived, an unknown kind fails for good |
| `Turns.ErrorsAreWritten` | internal/manager/scheduler/worker.go:196-281 | A permanent or validation error fails the job; any other has it wait 30 seconds, doubled with each attempt, for 30 minutes at most |
| `Retries.HopelessJobFails` | internal/manager/scheduler/worker.go:176-212 | A job whose handler always fails retryably, with no crash of its holder and no cancel, is claimed at most MaxAttempts+1 times, is failed exactly when that last claim is over, and after the n-th failure waits exactly Backoff(n) |
| `Retries.StepStaysDoomed` | internal/manager/scheduler/worker.go:196-212 | One step keeps what that argument needs of the job: pending with its backoff, or running and held, or failed on the last claim |
| `Jobs.Backoff` | internal/manager/domain/job.go:97-108 | The doubling loop with its early exit computes min(30s * 2^(attempts-1), 30min) |
| `Jobs.BackoffMonotone` | internal/manager/domain/job.go:97-108 | Waiting times never shrink from one failure to the next and stay between 30 seconds and 30 minutes |
| `Jobs.ClaimPicksEarliest` | internal/manager/memstore/memstore.go:668-697 | Claim takes a claimable job of least RunAt, the first in store order among equals, and changes no other record; it reports none exactly when none is claimable |
| `Jobs.ViewClaim` | internal/manager/memstore/memstore.go:668-697 | Seen as a map from id to record, a claim rewrites exactly the record it returns, which was claimable |
| `Jobs.ViewWrite` | internal/manager/memstore/memstore.go:824-836 | Seen as a map, a write-back rewrites exactly the record with this id, whatever its status |
| `Jobs.ViewEnqueue` | internal/manager/memstore/memstore.go:626-655 | Seen as a map, enqueueing refuses exactly a used key and otherwise adds one record that was never tried, whatever status, attempts, lease or error the caller filled in, with five tries if none are given |
| `Jobs.ViewExtend` | internal/manager/memstore/memstore.go:741-755 | Seen as a map, extending a lease moves the lease of a running record and no other field but the time of the update; any other record stays |
| `Jobs.ViewCancel` | internal/manager/memstore/memstore.go:757-785 | Seen as a map, canceling by event changes exactly the pending records of the event and kinds |
| `Keys.KeyTextsDiffer` | internal/manager/domain/job.go:67-94 | Two dedupe keys print the same text exactly when they are the same key |
| `Keys.IdReads` | internal/manager/memstore/memstore.go:67-71 | A 24-digit hexadecimal id stands for one number and contains no colon |
| `JobShapes.EnqueueKeepsInv` | internal/manager/memstore/memstore.go:626-655 | Stored ids and dedupe keys stay unique, and every job keeps the shape its constructor gave it |
| `Workers.ClaimsMostUrgent` | internal/manager/scheduler/worker.go:121-151 | A round of claims leaves part of its allowance unused only when nothing is due, and takes the most urgent jobs, most urgent first |
| `Workers.ClaimsTake` | internal/manager/scheduler/worker.go:121-151 | Each job a round takes was claimable and is running; every other record is as it was |
| `Workers.Worker.Poll` | internal/manager/scheduler/worker.go:121-151 | The loop takes a slot before it claims and gives it back if nothing is due; it claims what a round of min(BatchSize, free slots) claims and never exceeds Workers |
| `Workers.Worker.Execute` | internal/manager/scheduler/worker.go:176-212 | A job over its limit fails unstarted, otherwise it is handled and written back, with exactly the state that Turns.ClaimedTurn describes |
| `Workers.Worker.WriteResult` | internal/manager/scheduler/worker.go:196-212 | Complete, leave alone, fail or retry with backoff, by the result of the handler |
| `Workers.Worker.Finish` | internal/manager/scheduler/worker.go:145-149 | A finished job gives back exactly its slot |
| `Workers.Worker.RunOnce` | internal/manager/scheduler/worker.go:154-173 | A synchronous round runs one job after the other, at most a batch, and fewer only if nothing is left |
| `Stores.Store.EnqueueIfNew` | internal/manager/memstore/memstore.go:626-655 | The scan refuses exactly a used key; otherwise the normalised record is appended under a fresh id |
| `Stores.Store.ClaimNext` | internal/manager/memstore/memstore.go:668-697 | The scan for the earliest claimable job does what Claim specifies |
| `Stores.Store.UpdateJob` | internal/manager/memstore/memstore.go:824-836 | Applies the change to the first record with this id and to no other |
| `Stores.Store.CompleteJob` | internal/manager/memstore/memstore.go:699-707 | Writes Done |
| `Stores.Store.RetryJob` | internal/manager/memstore/memstore.go:709-717 | Writes Pending at the new time |
| `Stores.Store.FailJob` | internal/manager/memstore/memstore.go:719-728 | Writes Failed with the reason |
| `Stores.Store.Postpone` | internal/manager/memstore/memstore.go:730-739 | Writes Pending at the new time and takes the attempt back |
| `Stores.Store.ExtendJobLease` | internal/manager/memstore/memstore.go:741-755 | Succeeds exactly for a stored running job and moves only its lease |
| `Stores.Store.CancelPending` | internal/manager/memstore/memstore.go:757-785 | Cancels exactly the pending jobs of the event and kinds, and counts them |
| `Stores.Store.ListJobs` | internal/manager/memstore/memstore.go:787-812 | The jobs of the event, sorted by when they run |
| `Stores.Store.UpsertParticipation` | internal/manager/memstore/memstore.go:453-498 | One record per user and event, returned before and after; an active participant is not demoted |
| `Stores.Store.ChangeStatus` | internal/manager/memstore/memstore.go:527-552 | Sets the status of the first record with this id, and clears its expiry unless active |
| `Stores.Store.CountPresent` | internal/manager/memstore/memstore.go:581-604 | Counts the active records of a role |
| `Stores.Store.CreateEvent` | internal/manager/memstore/memstore.go:217-226 | Appends the event under a fresh id |
| `Stores.Store.ChangeEvent` | internal/manager/memstore/memstore.go:280-347 | Writes the fields of Update, SetChannel or AddParticipantCount into the stored event, found by id |
| `Stores.Store.WasSentAt` | internal/manager/memstore/memstore.go:880-891 | Whether a log entry of the event has this instant |
| `Stores.Store.WasSentSequence` | internal/manager/memstore/memstore.go:893-904 | Whether a log entry of the event has this number |
| `Stores.Store.AppendLog` | internal/manager/memstore/memstore.go:849-861 | Appends the entry under a fresh id |
| `Providers.Provider.CreatePrivateChannel` | internal/provider/fake/provider_server.go:254-290 | Refuses exactly a name in use by a channel that is not archived; otherwise the new channel holds the bot and the given members |
| `Providers.Provider.AddUser` | internal/provider/fake/provider_server.go:293-324 | Adds the user at most once and reports whether it was there |
| `Providers.Provider.RemoveUser` | internal/provider/fake/provider_server.go:327-358 | Cuts out the first occurrence and reports whether there was one |
| `Providers.Provider.Archive` | internal/provider/fake/provider_server.go:361-385 | Marks an existing channel archived |
| `UseCases.Services.Reschedule` | internal/manager/usecase/reminder.go:14-59 | Cancels, computes and enqueues one reminder after the other, with the state and verdict of ReminderRuns.RegenerationIsExact and RegenerationSucceedsIff |
| `UseCases.Services.EnqueueUnsent` | internal/manager/usecase/reminder.go:40-56 | The loop skips what was logged and numbers the rest upwards |
| `UseCases.Services.NextReminderSequence` | internal/manager/usecase/reminder.go:61-76 | One more than the highest number ever used in the event, whatever order the jobs are listed in |
| `UseCases.Services.SendReminder` | internal/manager/usecase/reminder.go:98-149 | Sends unless closed, started or already logged by number, and logs the instant it was for |
| `UseCases.Services.CreateEvent` | internal/manager/usecase/event.go:65-126 | Validation, storing, organizer, channel, reminders and auto-end, in this order, with the state and answer that Creations.CreateOutcome describes |
| `UseCases.Services.ProvisionEvent` | internal/manager/usecase/event.go:312-377 | Channel creation over three names, then announcements; a failure cancels the event |
| `UseCases.Services.Abort` | internal/manager/usecase/event.go:423-440 | Cancels the half-made event and leaves its channel to the archive job |
| `UseCases.Services.ApplyEdit` | internal/manager/domain/event.go:183-232 | Refuses a closed event and an unsound edit, and otherwise returns the event with exactly the start, end and policy asked for |
| `UseCases.Services.NewEvent` | internal/manager/domain/event.go:125-174 | Accepts exactly valid parameters and returns an open event with the start, end, workspace, organizer and policy given, and no participants |
| `UseCases.Services.UpdateEvent` | internal/manager/usecase/event.go:144-174 | Authorisation, edit, overwrite and regeneration, with the state and answer that Edits.UpdateOutcome describes |
| `UseCases.Services.CloseEvent` | internal/manager/usecase/event.go:177-227 | Closing, canceling what was pending, and the archive job, as specified |
| `UseCases.Services.ArchiveEventChannel` | internal/manager/usecase/event.go:231-270 | Archives once, and follows a channel deleted by hand |
| `UseCases.Services.ApplyButton` | internal/manager/usecase/participation.go:43-113 | A press, from reading the record to its side effects, with the state and answer that Buttons.PressOutcome describes |
| `UseCases.Services.PressButton` | internal/manager/usecase/participation.go:62-113 | Upsert, second decision, and effects only if the first decision stands |
| `UseCases.Services.Effects` | internal/manager/usecase/participation.go:306-341 | Counter, canceling of expiry jobs and new expiry job, as the transition says |
| `UseCases.Services.DetachUser` | internal/manager/usecase/participation.go:343-365 | Channel, record and counter, in this order |
| `UseCases.Services.LeaveEvent` | internal/manager/usecase/participation.go:116-146 | Leaving, with the organizer refused |
| `UseCases.Services.RemoveUser` | internal/manager/usecase/participation.go:149-176 | Removing, silent for a record that is not active |
| `UseCases.Services.ExpireOnePeek` | internal/manager/usecase/participation.go:180-216 | Expires exactly an active peeker whose time has come |
| `UseCases.Services.PeekExpireHandler` | internal/manager/scheduler/handler.go:69-84 | Expires, or waits for a peek that was extended |
| `UseCases.Services.AutoEndHandler` | internal/manager/scheduler/handler.go:87-114 | Ends, or waits for an end that was postponed |
| `UseCases.Services.HandleJob` | internal/manager/scheduler/handler.go:43-56 | Each kind goes to its handler; an unknown kind fails for good |
| `Buttons.PressOutcome` | internal/manager/usecase/participation.go:43-113 | A press succeeds exactly on an open event of a known workspace, and says so by name otherwise. What it reports is decided by the record before: nobody present joins or peeks, an active peeker is promoted by join and goes on peeking otherwise, a participant stays one; in the last two cases nothing at all changes. Otherwise record, counter, membership and jobs are given field by field |
| `Buttons.LatePress` | internal/manager/usecase/participation.go:76-101 | A press decided on an older record, which finds the matter settled otherwise, answers what it finds and only touches the record: a participant is not demoted, and nothing else changes |
| `Buttons.PeekIsDue` | internal/manager/usecase/participation.go:327-332 | Whoever is let in to peek has a pending job that is due at exactly the moment the peek expires |
| `Guarantees.PeekPlansExpiry` | internal/manager/usecase/participation.go:327-332 | In every run without worker crashes each peek of somebody not present, on an open event of a known workspace, has that job |
| `Creations.CreateOutcome` | internal/manager/usecase/event.go:65-126 | The first failing check names the error and changes nothing. An accepted event is stored with the start, end, workspace, organizer and policy asked for, counts one, and everything else stays; Create succeeds exactly when one of the three names is free, the announcement can be posted and the policy can be planned, and each failure leaves the event, its channel and its jobs as far as it came |
| `Edits.UpdateOutcome` | internal/manager/usecase/event.go:144-174 | An edit succeeds exactly for an existing event, somebody who may manage it, a known workspace, an open event, a sound edit and a policy that can be planned; the stored event has the start, end and policy asked for, else the old ones, and nothing else of it, of other events or of jobs but its reminders changes. A plan that is refused is stored all the same |
| `Outcomes.PressLetsIn` | internal/manager/usecase/participation.go:43-113 | A successful press leaves the user active, a participant iff the button was join or they were one, with the counter moved by exactly that, the user a channel member, and nobody else touched |
| `Outcomes.LeavingMakesGone` | internal/manager/usecase/participation.go:116-146 | Leaving succeeds exactly for an active member of an open event who is not the organizer; then the record has left, the counter is right and the member is gone; a refusal names its reason and changes nothing |
| `Outcomes.RemovingMakesGone` | internal/manager/usecase/participation.go:149-176 | Removing succeeds exactly for a record of an open event while the provider is online; an active one is gone afterwards, another is left alone; a refusal names its reason |
| `Outcomes.ExpiringMakesGone` | internal/manager/usecase/participation.go:180-216 | A peek expires exactly when it is active and due in an existing event, and then the user is gone; otherwise nothing changes |
| `Outcomes.ClosingEnds` | internal/manager/usecase/event.go:177-227 | Closing succeeds exactly for an existing event and somebody who may manage it, and names the error otherwise; an open event then has the end, reason and status asked for, exactly its pending reminders, auto-end and expiries are canceled, its channel has an archive job that is due at once if it is new, and nothing else changes; a closed event or a refusal changes nothing |
| `Outcomes.ArchivingArchives` | internal/manager/usecase/event.go:231-270 | Archiving marks the event and the channel of the provider, keeps the members and everything else, and doing it again changes nothing |
| `Outcomes.LostChannelCloses` | internal/manager/usecase/participation.go:251-303 | A channel that is gone at the provider closes the event, for who joins and for who leaves, and the caller is told that it was not found |
| `Outcomes.LostChannelArchives` | internal/manager/usecase/event.go:231-270 | A channel that was deleted at the provider counts as archived, without an error |
| `Outcomes.SendingLogs` | internal/manager/usecase/reminder.go:98-149 | A reminder is sent exactly for an open event that has not started and whose number is not in the log; then number, instant and time of sending are logged and sending it again is refused |
| `Runs.CountIsConserved` | internal/manager/usecase/participation.go:343-375 | In every state of every sequential run, crashes of workers included, ParticipantCount is the number of active participants, and no user has two records in an event |
| `Runs.MembersAreActive` | internal/manager/usecase/participation.go:251-285 | In the same runs the channel of a provisioned event holds the bot and exactly the users with an active participation, each once |
| `Runs.StepKeepsRoster` | internal/manager/usecase/participation.go:43-216 | Every operation keeps counter, member lists and record uniqueness |
| `Roster.ApplyKeepsInv` | internal/manager/usecase/participation.go:43-113 | A press moves record, counter and member list together |
| `Roster.LeaveKeepsInv` | internal/manager/usecase/participation.go:116-146 | Leaving takes the user out of record, counter and member list together, or changes nothing |
| `Roster.RemoveKeepsInv` | internal/manager/usecase/participation.go:149-176 | Removing takes the user out of record, counter and member list together, or changes nothing |
| `Roster.ExpirePeekKeepsInv` | internal/manager/usecase/participation.go:180-216 | Expiring a peek takes the user out of record and member list together; the counter never had them |
| `Roster.CreateKeepsInv` | internal/manager/usecase/event.go:65-126 | A new event starts with its organizer counted and, once provisioned, with bot and organizer as members of a channel of its own |
| `Roster.TryNamesOutcome` | internal/manager/usecase/event.go:333-377 | The first free of the names is taken; if none is free nothing changes |
| `PressGuarantees.CountedUnlessLost` | internal/manager/usecase/participation.go:62-113 | For any interleaving of any presses, the counter plus the joins in flight is the number of active participants exactly when no step so far met the losing guard: a press that enters a record on which its button would make a participant by another transition than it had read, or an AddMember refused to a new participant |
| `PressGuarantees.StepLoses` | internal/manager/usecase/participation.go:76-101 | Exactly the steps that meet that guard lose a participant, one each |
| `PressGuarantees.PressesCountOnce` | internal/manager/usecase/participation.go:88-95 | If each user presses one kind of button and the provider refuses nobody, no press is lost in any interleaving |
| `PressGuarantees.EffectsExactlyOnce` | internal/manager/usecase/participation.go:88-113 | Then, once a user's presses are answered, each side effect the first decision calls for was performed exactly once, or none if the matter was settled beforehand |
| `PressGuarantees.JoinLosesToPeek` | internal/manager/usecase/participation.go:88-95 | With two buttons it fails: a join decided before the same user's peek and entered after it makes a participant nobody counts |
| `PressGuarantees.UninterruptedIsApply` | internal/manager/usecase/participation.go:43-113 | The interleaved steps, run without interruption, are the use case |
| `Presses.EnterSettles` | internal/manager/domain/participation.go:71-88 | The first upsert wins and every later one finds the matter settled |
| `Participations.UpsertSettles` | internal/manager/memstore/memstore.go:453-498 | After an upsert the record is active in the role of the transition, and the same button would have no further effect |
| `Guarantees.EndedIffClosed` | internal/manager/domain/event.go:235-265 | In every run, crashes included, EndedAt and EndReason are set iff the event is closed, EndsAt is after StartsAt, and an automatic end came at or after EndsAt, or StartsAt plus the grace if there is none |
| `Guarantees.ClosedForever` | internal/manager/usecase/event.go:177-227 | In every run a closed event keeps its status, end, reason and dates forever |
| `Guarantees.CloseIsIdempotent` | internal/manager/usecase/event.go:177-227 | Closing again, by anybody, at any time and for any reason, changes nothing |
| `Guarantees.ClosedIsClean` | internal/manager/usecase/event.go:206-224 | In crash-free runs a closed event has no pending or running job but the archiving of its channel, and at most one archive job ever |
| `Guarantees.AutoEndNeverLost` | internal/manager/usecase/event.go:118-123 | In crash-free runs every open event whose Create succeeded has exactly one auto_end job, and it is pending |
| `Guarantees.StepProgresses` | internal/manager/domain/event.go:253-265 | No operation reopens or rewrites a closed event, and an open one stays well formed |
| `Lifecycle.CloseKeepsInv` | internal/manager/usecase/event.go:177-227 | Closing keeps every pending job of the other events, and leaves none of its own |
| `Lifecycle.CreateKeepsInv` | internal/manager/usecase/event.go:65-126 | A successful creation adds the auto-end of the new event |
| `Lifecycle.JobKeepsInv` | internal/manager/scheduler/worker.go:176-212 | A worker turn keeps it: an auto-end that is done has closed its event, one that is early waits on |
| `Lifecycle.AutoEndTurn` | internal/manager/scheduler/handler.go:87-114 | The turn of an auto-end closes the event when it is due and otherwise puts itself off to the due time |
| `Guarantees.PeeksNeverEarly` | internal/manager/usecase/participation.go:180-216 | In every run no record expires unless it is an active peeker at or after its ExpiresAt |
| `Guarantees.PeeksNeverLost` | internal/manager/usecase/participation.go:316-332 | In crash-free runs an active peeker of an open event has a pending expiry job due no later than ExpiresAt exactly unless somebody else was promoted there since the user last peeked, and then has no live expiry job at all; no expiry job carries a count above its record's PeekCount |
| `Peeks.PeekIsEnqueued` | internal/manager/domain/job.go:76-84 | A new peek raises the count, so its job is never taken for a duplicate |
| `Peeks.PromotionStrandsOthers` | internal/manager/usecase/participation.go:319-325 | A promotion leaves every other peeker of the event without a pending expiry job |
| `Peeks.ApplyKeepsPeeks` | internal/manager/usecase/participation.go:43-113 | A press keeps both halves: a promotion strands the other active peekers of its event and nobody else, a peek gets its own expiry job and strands nobody |
| `Peeks.NeverEarly` | internal/manager/usecase/participation.go:180-216 | The handler expires only an active peeker whose time has come |
| `Peeks.JobKeepsPeeks` | internal/manager/scheduler/handler.go:69-84 | A worker turn keeps the expiry jobs of all other peeks and answers its own |
| `Reminders.ScheduleIsWanted` | internal/manager/domain/reminder.go:72-99 | Schedule returns the wanted instants in strictly ascending order and refuses exactly when there are more than 30; the early cut never changes the verdict and compaction removes nothing |
| `Reminders.FirstIntervalIsLeast` | internal/manager/domain/reminder.go:175-182 | The first candidate is the least instant from now on at which the local clock shows the time |
| `Reminders.CollectedTimes` | internal/manager/domain/reminder.go:141-172 | The loops collect distinct wanted instants, and all of them unless there are too many |
| `Reminders.IntervalFromWanted` | internal/manager/domain/reminder.go:153-172 | The interval loop has the whole grid below the final instant if it was not cut |
| `Reminders.ComputeSchedule` | internal/manager/domain/reminder.go:72-99 | Validation, loops, sort, compaction and limit compute the specified schedule |
| `Reminders.ComputeIntervalTimes` | internal/manager/domain/reminder.go:153-191 | The loop with break and calendar advance computes the specified times |
| `Reminders.ComputeOffsetTimes` | internal/manager/domain/reminder.go:141-151 | The loop keeps the offsets that lie ahead |
| `Reminders.ValidateOffsets` | internal/manager/domain/reminder.go:101-125 | One pass with a set accepts exactly 1 to 30 positive distinct offsets |
| `Reminders.Validate` | internal/manager/domain/reminder.go:55-69 | Accepts exactly the silent policy, 1 to 30 distinct positive offsets, and intervals of an hour or more with a real time of day and a final offset that is not negative |
| `Guarantees.RemindersAtMostOnce` | internal/manager/usecase/reminder.go:98-149 | In every run, crashes between logging and completing included, the log holds at most one entry per number and at most one per instant of an event, and none was written before its instant |
| `Guarantees.EditReplans` | internal/manager/usecase/event.go:144-174 | Whenever an edit succeeds in a run, the pending reminders of the event are one per instant the new policy wants, in order and numbered upwards |
| `Guarantees.EditEndsInTimeIff` | internal/manager/scheduler/handler.go:87-114 | After a successful edit in a run the event still ends in time exactly when its new end is not before the moment its pending auto-end job was already to run |
| `Guarantees.CreatePlans` | internal/manager/usecase/event.go:65-126 | Whenever Create succeeds in a run, the new event has one pending reminder per instant its policy wants and a pending auto-end job due when it is to end |
| `ReminderRuns.RegenerationIsExact` | internal/manager/usecase/reminder.go:14-59 | Regeneration cancels the pending reminders and adds exactly one job per planned instant, numbered above all numbers used; no duplicate key swallows one |
| `ReminderRuns.RegenerationSucceedsIff` | internal/manager/usecase/reminder.go:14-59 | Regeneration succeeds exactly for a closed event or a valid policy that wants at most 30 instants; any refusal is a validation error that still cancels what was pending and adds nothing |
| `ReminderRuns.NothingWantedSucceeds` | internal/manager/domain/reminder.go:72-99 | A policy that wants no instant, such as off, succeeds and leaves no reminder pending |
| `ReminderRuns.PendingArePlanned` | internal/manager/usecase/reminder.go:14-59 | Afterwards the pending reminders are due at exactly the planned instants |
| `ReminderRuns.PlannedIsWanted` | internal/manager/usecase/reminder.go:40-49 | The planned instants are those the policy wants and the log does not have |
| `ReminderRuns.EnqueueIsExact` | internal/manager/usecase/deps.go:102-109 | Numbering above everything used, the loop never meets a duplicate |
| `ReminderRuns.NothingPlannedWasSent` | internal/manager/usecase/reminder.go:40-49 | With a clock that never runs backwards a planned instant is never in the log |
| `ReminderRuns.SendKeepsInv` | internal/manager/usecase/reminder.go:98-149 | Sending logs the number and instant of the running job, which nobody else may log |
| `ReminderRuns.ScheduleKeepsInv` | internal/manager/usecase/reminder.go:14-59 | Regeneration never plans an instant that another live or logged reminder has |
| `Pagination.PagingIsLosslessIff` | internal/manager/memstore/memstore.go:252-278 | With unique ids, following NextCursor yields exactly the filtered rows, sorted, each once, if and only if every row that begins a page comes after the cursor of the row before it, whose start the cursor cuts to milliseconds |
| `Pagination.GapIsLost` | internal/manager/memstore/memstore.go:412-430 | The first row that begins a page and does not come after that cursor is never listed, however many pages are asked for |
| `Pagination.PagingIsLossless` | internal/manager/memstore/memstore.go:252-278 | In particular, with whole-millisecond starts nothing is lost, for every limit, after at most the pages needed |
| `Pagination.RestAfterCursor` | internal/manager/memstore/memstore.go:359-424 | The list for the cursor of a row is the rest of the whole list from the first row that comes after the cursor, and that is the next row when the start is whole milliseconds |
| `Pagination.ListedRows` | internal/manager/memstore/memstore.go:359-424 | A page has only stored rows of the workspace, statuses, ids and starts asked for, latest start first and larger id first among equals, at most 100, or 20 if no number is given; only a full page has a cursor, and a first page without one has every such row |
| `Pagination.CursorRoundTrip` | internal/manager/memstore/memstore.go:426-449 | A cursor gives back its row's place exactly when the start is a whole number of milliseconds |
| `Pagination.SubMillisecondIsLost` | internal/manager/memstore/memstore.go:426-430 | For instance a start of one nanosecond after a page that ends with one of two |
| `Pagination.ListIsUnique` | internal/manager/memstore/memstore.go:388-394 | There is only one sorted list of these rows, so any correct sort returns it |
| `Pagination.List` | internal/manager/memstore/memstore.go:252-278 | The filter loop, sort, limit and cursor compute the specified page |
| `Markup.PrintAfterRead` | internal/shared/markup/markup.go:73-121 | Printing what was read gives the text back exactly when its times are canonical numbers and its link labels have no bar; it never gets longer |
| `Markup.ReadAfterPrint` | internal/shared/markup/markup.go:46-63 | Reading what was printed gives the tokens back, for marker-free texts and well-formed arguments |
| `Markup.ScanIsTidy` | internal/shared/markup/markup.go:73-121 | Reading yields no empty text and no two texts in a row |
| `Markup.Parse` | internal/shared/markup/markup.go:73-121 | The index-and-buffer loop terminates and computes the specified tokens |
| `Markup.HeadReads` | internal/shared/markup/markup.go:143-190 | A printed token is recognised, whatever follows it |
| `Markup.HeadPrints` | internal/shared/markup/markup.go:143-190 | A recognised token prints the piece it was read from, or a shorter one |
| `Markup.NotationReads` | internal/shared/markup/markup.go:46-63 | The literal notation of each kind of token is what it prints and is read as that token alone |
| `Escapes.EscapeNeutralises` | internal/shared/markup/markup.go:65-70 | Nothing but text and bold is read from an escaped text exactly when no run of an odd number of braces, three at least and outside bold text, ends with two that make a token with what follows; double braces are all separated exactly when the text has no three in a row |
| `Escapes.MentionSurvives` | internal/shared/markup/markup.go:65-70 | Every mention, date or link preceded by one more brace survives, whatever follows and whatever text without bold comes before |
| `Escapes.ReadsEscaped` | internal/shared/markup/markup.go:68-70 | Escaping what follows two braces does not change whether they make a token |
| `Escapes.EscapeMissesTriple` | internal/shared/markup/markup.go:68-70 | For instance a user mention, which is then read next to the stray brace |
| `Pace.PaceRoundTrip` | internal/manager/bot/pace.go:25-64 | Reading a printed policy gives it back, for every valid policy of whole seconds; exactly the final offset of an interval is not printed, so it must be the default |
| `PaceForms.IntervalReads` | internal/manager/bot/pace.go:75-114 | A keyword in either language and any case, a duration with or without a blank before it, and a time or none: an interval from that time, else from midnight, with the last reminder three hours before the start; less than an hour is refused |
| `PaceForms.OffsetsRead` | internal/manager/bot/pace.go:116-136 | Durations with any of the three separators between them are those offsets in that order, exactly if they make a valid policy |
| `PaceForms.NoneReads` | internal/manager/bot/pace.go:66-73 | Each of the five words, in any case, switches reminders off |
| `PaceForms.BlanksDontMatter` | internal/manager/bot/datetime.go:214-218 | Surplus blanks change nothing |
| `PaceForms.TimeReadsIff` | internal/manager/bot/datetime.go:159-181 | A text is read as a time of day exactly if it is its HH:MM, or its H:MM for an hour of one digit |
| `Pace.OffsetReads` | internal/manager/bot/pace.go:139-152 | A printed offset is read back through day expansion and time.ParseDuration, and has no separator in it |
| `Pace.ParseReminderPace` | internal/manager/bot/pace.go:25-45 | Keywords, interval, offsets and validation, as specified |
| `Pace.ParseOffsets` | internal/manager/bot/pace.go:116-136 | The loop reads all fields or fails |
| `Pace.FormatReminderPace` | internal/manager/bot/pace.go:48-64 | The loop prints every offset |
| `Durations.DaysRead` | internal/manager/domain/duration.go:18-61 | A number of days is read as that many times 24 hours |
| `Durations.UnitReads` | internal/manager/domain/duration.go:18-61 | A number of any unit, microseconds under each of their names, is read as that many of it, in literal nanoseconds |
| `Durations.SumIsWorth` | internal/manager/domain/duration.go:30-33 | Terms that fit 63 bits are summed exactly, through the overflow checks |
| `Clocks.TimeRoundTrip` | internal/manager/domain/timeofday.go:54-56 | A printed time of day is read back |
| `Decimals.FormatParse` | internal/shared/markup/markup.go:165-171 | A numeral is printed back unchanged exactly when it is canonical |
| `Calendar.DateAtAcceptsRealDates` | internal/manager/bot/datetime.go:140-149 | dateAt accepts exactly the dates of the Gregorian calendar |
| `Calendar.UpcomingIsNext` | internal/manager/bot/datetime.go:90-138 | A date without a year gives the first one from the base on, less than 366 days later; it succeeds exactly when the date exists in the year of the base and, if past, in the next |
| `Calendar.EndTimeIsNext` | internal/manager/bot/datetime.go:72-79 | HH:MM as an end is the first instant after the start at which the clock shows it, at most 24 hours later |
| `Calendar.EndTimeFollows` | internal/manager/bot/datetime.go:57-88 | An accepted end follows the start as its form promises |
| `EndTimes.DurationEnds` | internal/manager/bot/datetime.go:57-70 | A plus and a printed duration ends exactly that long after the start |
| `EndTimes.TimeEnds` | internal/manager/bot/datetime.go:72-79 | A printed time of day ends at the first instant after the start that shows it |
| `EndTimes.FullDateEnds` | internal/manager/bot/datetime.go:90-126 | A date with a year, year first and day last, with any separators, alone or with a time, ends on that day at that time, else midnight; a day that does not exist is refused |
| `EndTimes.ShortDateEnds` | internal/manager/bot/datetime.go:90-138 | A date without a year, month first, ends on that day of the start's year, or of the next if it would be past, and is refused exactly when that day does not exist |
| `Calendar.DateIsUnique` | internal/manager/bot/datetime.go:140-149 | A real date is decoded to itself |
| `Calendar.DateIsReal` | internal/manager/bot/datetime.go:140-149 | Every day number is decoded to a real date with that number |
| `Calendar.DatesInOrder` | internal/manager/bot/datetime.go:140-149 | Day numbers follow the order of dates and start at the Unix epoch |

## Left out

- Durations.GoDuration: rejects a decimal point, which time.ParseDuration accepts, because fractions go through floating point; it also rejects more than 106751 days, which overflow 64 bits differently from platform to platform.
- Pace.FormatOffset: covers whole seconds; the source also prints fractions of a second.
- Texts.Normalize: takes text that is already in NFKC form; Unicode normalisation and the blanks beyond ASCII that it leaves are not part of this model.
- Pagination.EncodeCursor: is the text inside the base64url wrapping (section 5 of RFC 4648), which is a bijection.
- Reminders.Advance: with a fixed offset a calendar day is 24 hours; time zones with daylight saving are not part of this model.
- Manager.Apply: one use case at one instant; the source reads the clock again between its steps. `Presses` and `LeaseProtocol` let time pass between steps.
- Runs.Allowed: provider calls succeed for existing channels, and people close events only by ending or canceling them; a provider that is unavailable in the middle of a use case appears only in `CreateInput` and, for concurrent presses, as a refused AddMember.
- UseCases.Services.SendReminder: posting and logging are one step; the source posts first, so a crash between the two posts the reminder again. What is at most once is the log entry.
- Presses.AfterAdmit: an AddMember that answers NotFound because the channel is gone also closes the event in the source; here a press is admitted or refused, and the event stays open.
- Concurrent use cases other than button presses: two interleaved leaves can count down twice, and an interleaved edit can overwrite a closed event, so those properties are stated for sequential runs.
- The Mongo repositories: the in-memory store is the model of the store, as its own comment promises the same atomicity.
- ListByEvent of participations, SetMessages, GetByChannelID, workspaces, accounts, sessions and tokens in the store: easy members.
- Message texts, forms, help, replies, pins and message references: no effect on the state modelled here.
- ParseStartTime: its relative keywords; the date and time grammar it shares with ParseEndTime is modelled.
- PlainText and Truncate: display approximations.
- gRPC, the gateway, configuration, authentication, logging and wiring.
