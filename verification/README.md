# Verification of the deitysight agent

A Dafny 4.11 model of the collection agent under `internal/agent` and of its system-call
sandbox under `internal/sandbox`, with proofs of what the parts promise together: when a result
shown as uploaded is shown for good, through restarts, crashes and failed writes, that no object
is ever replaced, that the byte accounting of the store matches its files, that no frame a
reader has seen is lost, that a command line never reaches a record, that the generated filter
means its policy. Where the code promises less, the exact condition is proved.

`dafny verify dfyconfig.toml` checks everything.

## How it is laid out

The agent, its task records, the upload worker and the remote store:

- `Records` – task records, their transfer part, the validity test recovery applies.
- `AgentWorld` – the agent as a state machine: memory, task.json files (with what a crash may
  bring back of each), the remote store, the clock, and where the one upload worker stands. One
  step is one section under the mutex, one remote call, one step of recovery, the end of the
  process (the files stay as they are, unsynced renames included) or a crash of the machine.
  What failed, what was not acknowledged, what a put really stored, what recovery cannot read
  and what a crash leaves are part of the step.
- `AgentInvariant`, `RecordSteps`, `AdmissionSteps`, `UploadSteps`, `LiveSteps`, `AgentRuns` –
  the invariant of all reachable states and the proof that every step keeps it.
- `AgentTheorems`, `UploadedRecords`, `AdmissionTheorems`, `UniqueRecords`, `TransferTheorems`,
  `ForgottenUploads`, `RetryTheorems` – what holds over whole runs. `SampleRuns` starts the runs
  that show where something fails.
- `AgentSections`, `AgentService` – the class `Agent`, whose methods update its fields as the
  program does; each is proved to take exactly the steps of the machine, so the theorems hold
  of it. The first of the two holds the facts about single sections its methods rely on.

The other parts:

- `QuotaBooks`, `QuotaHistories`, `Storage` – the store: what each locked section does to files,
  counts and leases, theorems over every history of sections, and the classes `Store` and
  `LeasedFile`.
- `FrameLog`, `FrameCoverage`, `Capture` – the samples file: repair of arbitrary bytes, the
  coverage count, the capture that appends, syncs and publishes, and crashes at any byte.
- `AtopLine`, `AtopStream`, `AtopSample` – the parser of atop rows with its redaction, its frame
  automaton, and a stream as atop prints it.
- `Sandbox` – a classic BPF machine, the filter builder and the policy.
- `Planning` – planned points, retry delays and multipart sections, in 64-bit arithmetic.

## Where the code does less than it seems to promise

Each of these is a property that reads naturally off the code or its comments, is false of it,
and is proved here together with the exact condition under which it holds and an input for
which it fails.

- The frame count passed to atop (`scenarios.go:283`) equals the schedule length only while
  window + step - 1 and the count fit 64 bits (`FrameCountAgrees`); with window and step both
  9223372036 s, which a configuration may admit, two points are planned and atop is told one
  (`FrameCountShort`).
- "At most 10,000 parts" (`s3_client.go:85`) holds exactly for sizes up to 2^63 - 10000
  (`SectionLimit`); beyond that the rounding sum wraps, the parts are 8 MiB again and the offset
  loop never ends (`OffsetLoopEndsIff`). Only the integer type allows such sizes; no file has one.
- A task shown as uploaded can be shown as not uploaded later. Memory shows uploaded when
  task.json does (`UploadedOnRecord`), and recovery trusts what it reads (`archive.go:262-279`).
  So it is shown for good exactly when every version a crash may leave of the record shows it
  (`ShownForGoodIff`), which is the case exactly when no commit of that record failed after its
  rename since the record was last saved or settled by a crash (`UploadedForGoodIff`). A run that
  shows it and takes it back: `UploadedTakenBack`. The object itself stays (`ObjectsStable`).
- Two unexpired records can share a request_id. Only an admission can bring that about, and it
  does exactly when the disk holds a record of that request whose end times are not durable
  (`SubmitKeepsUniqueIff`; over whole runs `UniqueThroughoutIff`). A final write that fails leads
  there (`StaleRecord`), and so does recovery's write of an interruption that fails after its
  rename (`RecoveryStaleRecord`); when both kinds of writes are saved it never happens
  (`SavedEndsKeepUnique`).
- A request_id whose task is unexpired is not always answered: after one read error at start the
  agent does not know the task (`UnreadRecord`). It is then degraded and admits nothing, and
  otherwise it has the task and answers from it (`ReplayIsStable`).
- `Publish` is not an atomic replacement: the target is lost exactly when the rename after its
  removal fails (`PublishLosesTargetIff`, `TargetLost`).
- `Publish` ignores an error of its status call (`store.go:257`). If the file is there all the
  same, the rename replaces it without taking its size off `used` (`TotalStaysRight`), and it
  replaces a leased file too: a file under a lease keeps its bytes exactly as long as that does
  not happen with other bytes (`LeasedKeptIff`, over histories `LeasedStaysIff`). `LeasedReplaced`
  is such a publish, by a caller who leases results only: the leased result has other bytes
  afterwards and `used` is wrong.
- An append to a file whose removal was put off breaks the books exactly when it adds bytes
  (`AppendKeepsExactIff`, `AppendSpoils`). The agent leases only result.tar.gz and never appends
  to it; callers who keep to that are careful in every state (`ClassesKeepCareful`).
- The packaging publish (`window_task.go:93-94`) shows the counters even when the sync of the
  last frame failed; then a crash can lose a frame that a reader saw, otherwise never
  (`NoVisibleFrameLost`, `AheadLoses`; a session that does: `UnsyncedFrame`).
- Redacting an emitted PRG row again gives the same row exactly when none of its last sixteen
  fields but the final one ends with ")"; otherwise the row is rejected (`RedactionTwice`). A row
  with a tab after such a field is one that is accepted once and not twice (`RedactedOnce`).
- A multipart upload can stay on the remote store without anybody ever ending it. That is so
  exactly when no task in memory, no version of a record and not the worker has its id: then the
  agent never has it again and the upload is never ended, and otherwise the agent can come to have
  it again (`ForgottenForGoodIff`). It comes about in few ways only (`ForgottenOnlyAfter`): always
  when the answer to the create call is lost (`UnansweredCreate`, `ForgottenUpload`), and when the
  agent gives an id up, by a failed checkpoint and a failed abort or by a restart in between,
  exactly when no version of the record names it (`GivenUpIff`). A checkpoint whose directory sync
  failed leaves the id on file; after a restart the next attempt ends the upload (`FoundAgain`).
- A filter longer than 65535 instructions would be cut short by its 16-bit length field
  (`LengthMustFit`); that takes a deny list of more than 32750 numbers, far beyond any real one
  (`LongListFails`). The two shipped lists are far below that (`ShippedListsFit`).

## Model

| member | source | states |
|---|---|---|
| Planning.Schedule | internal/agent/config.go:176-189 | one point per step from 0, capped at the window, ceil(window/step)+1 of them, no overflow |
| Planning.ScheduleShape | internal/agent/config.go:176-189 | strictly increasing from 0 to the window, gaps at most one step |
| Planning.CountPoints | internal/agent/config.go:167-170 | the count admission checks is the length of the schedule |
| Planning.ValidateSampling | internal/agent/config.go:163-175 | accepts exactly the windows and steps within the limits and the point maximum |
| Planning.FrameCountAgrees | internal/agent/scenarios.go:282-285 | atop's frame count equals the schedule length iff neither sum nor count leaves 64 bits |
| Planning.FrameCountShort | internal/agent/scenarios.go:282-285 | an admissible window and step for which atop is told one frame instead of two |
| Planning.RetryDelay | internal/agent/s3_worker.go:185-193 | the loop computes min(max, initial x 2^(attempts-1)) for every attempt count without overflow |
| Planning.DelayMonotone | internal/agent/s3_worker.go:185-193 | delays are positive, never shrink with more attempts, never pass the maximum |
| Planning.DelayDoubles | internal/agent/s3_worker.go:185-193 | the first delay is the initial one, each further one twice the one before up to the maximum |
| Planning.JitterBounds | internal/agent/s3_worker.go:194 | the jittered wait lies in [d/2, d) |
| Planning.Sections | internal/agent/s3_client.go:84-128 | for every size for which the offset loop ends: end-to-end sections numbered from one, all but the last of the part size, at most 10000 |
| Planning.OffsetLoopEndsIff | internal/agent/s3_client.go:84-111 | the offset loop, in 64 bits, ends iff the size is at most 2^63 - 10000 |
| Planning.SectionLimit | internal/agent/s3_client.go:85-88 | at most 10000 sections iff the rounding sum fits 64 bits |
| Planning.PartSizeLeast | internal/agent/s3_client.go:85-88 | the part size is the least of at least 8 MiB with which 10000 parts suffice |
| Planning.SectionsPartition | internal/agent/s3_client.go:111-128 | the sections are disjoint and gap-free and their concatenation is the file |
| AgentRuns.StepKeepsInv | internal/agent/s3_worker.go:92-285 | every step of the agent, the end of the process, a crash of the machine and recovery with unread records included, keeps the invariant, and no object is replaced |
| AgentRuns.RunInv | internal/agent/agent.go:94-225 | the invariant holds in every state of every run, restarts with unsynced renames on disk included |
| UploadedRecords.UploadedOnRecord | internal/agent/s3_worker.go:92-113 | memory shows uploaded only if task.json does, no version of the record names another object, and the object is remote under the task's key with the archive's size and digest |
| UploadedRecords.ShownForGoodIff | internal/agent/archive.go:249-328 | uploaded is shown in every continuation of the run iff every version a crash may leave of the record shows it |
| UploadedRecords.UploadedForGoodIff | internal/agent/s3_worker.go:92-113 | uploaded is shown for good iff no commit of the record failed after its rename since it was last saved or settled by a crash |
| UploadedRecords.UploadedTakenBack | internal/agent/store.go:156-162 | a run in which memory shows uploaded after a restart and, after a crash, does not |
| AgentTheorems.EndTimesStable | internal/agent/agent.go:424-433 | end and expiry times, once durable, never change, across restarts |
| AgentTheorems.EverywhereStable | internal/agent/archive.go:249-328 | what every version of a record shows, later steps, restarts and crashes keep showing |
| AgentTheorems.ObjectsStable | internal/agent/s3_worker.go:259-272 | no object under a key is ever replaced or lost, although a put would overwrite |
| AgentTheorems.PutOnlyWhereMissing | internal/agent/s3_worker.go:240-263 | a put or create happens only in an attempt whose check said missing, under the task's own key, still empty |
| AgentTheorems.NoPutOnceThere | internal/agent/s3_worker.go:240-263 | once an object is under a key no later attempt puts, creates or completes for that key, across restarts, and the object stays |
| AgentTheorems.MatchNeedsNoPut | internal/agent/s3_worker.go:241-284 | from an attempt whose object is there, a run without a put leads to uploaded, dropping an old multipart upload |
| AdmissionTheorems.RecordsValid | internal/agent/archive.go:236-278 | every task.json ever renamed into place passes the test recovery applies |
| AdmissionTheorems.NeverLeftWaiting | internal/agent/s3_worker.go:16-43 | on a serving agent that is not degraded no finished task is in waiting_result |
| AdmissionTheorems.OneActive | internal/agent/agent.go:187-224 | every running task is the active one, and with none active the job channel is empty, so the send cannot block |
| AdmissionTheorems.AdmittedIsRegistered | internal/agent/agent.go:206-224 | a saved admission puts the task on record for good and in memory |
| AdmissionTheorems.RegisteredStable | internal/agent/agent.go:165-218 | the record keeps its request until the task's removal begins, across restarts and crashes, and an agent that is not degraded has the task in memory once it has loaded |
| AdmissionTheorems.ReplayIsStable | internal/agent/agent.go:165-172 | a serving agent that is not degraded has a registered task in memory and, while it is unexpired, its request in the table; on any serving agent that holds the unexpired task the table names no other for its request, and none admits a second one |
| UniqueRecords.OnlySubmitBreaksUnique | internal/agent/agent.go:147-225 | of all steps only an admission can make two unexpired records share a request |
| UniqueRecords.SubmitKeepsUniqueIff | internal/agent/agent.go:147-225 | in every reachable state an admission keeps one unexpired record per request iff the end times of every earlier record of that request are durable or its own write left the disk alone |
| UniqueRecords.RevivesUnlessDurable | internal/agent/agent.go:434-465 | a record that memory has let go can come back unexpired iff its end times are not durable |
| UniqueRecords.UniqueThroughoutIff | internal/agent/agent.go:147-225 | over every run with crashes: no request ever has two unexpired records iff every admission met only durable end times |
| UniqueRecords.SavedEndsKeepUnique | internal/agent/agent.go:434-465 | when the writes that first set end times, at the end of sampling and at an interruption found by recovery, are saved, no state of any run has two unexpired records of one request, whatever else fails |
| UniqueRecords.StaleRecordRun | internal/agent/agent.go:457-464 | for every configuration and first task, a run in which a refused final write leads to two unexpired records of one request |
| UniqueRecords.StaleRecord | internal/agent/agent.go:457-464 | such a run with nothing left open |
| UniqueRecords.RecoveryStaleRecord | internal/agent/archive.go:291-302 | a run that comes to the same through recovery's write alone |
| UniqueRecords.TableNamesIt | internal/agent/agent.go:165-172 | while no request has two unexpired records, the table names for the request of an unexpired record no other unexpired task |
| UniqueRecords.UnreadRecord | internal/agent/archive.go:262-273 | a run in which one read error leaves a serving, degraded agent without a task it admitted |
| TransferTheorems.LiveIsRecorded | internal/agent/s3_client.go:90-107 | every live multipart upload is in its task's record in memory and in all a crash may leave, unless it is one of the lost ids or its checkpoint is under way |
| ForgottenUploads.ForgottenForGoodIff | internal/agent/s3_worker.go:199-257 | in every state of every run a live upload is never had by the agent again, whatever follows, iff nothing in memory, on record in any version, or with the worker names it; and then it is never ended |
| ForgottenUploads.ForgottenOnlyAfter | internal/agent/s3_client.go:90-108 | a live upload is forgotten only after a create without an answer, a checkpoint cut off or failed together with its abort, or the start of the removal of its task's record |
| ForgottenUploads.LostInHistory | internal/agent/s3_client.go:90-108 | an upload counted as lost was given up in one of these ways earlier in the run |
| ForgottenUploads.UnansweredCreate | internal/agent/s3_client.go:90-97 | a create that takes effect and whose answer is lost, or cut off by a restart, leaves a live upload forgotten at once |
| ForgottenUploads.GivenUpIff | internal/agent/s3_client.go:98-102 | after a failed checkpoint and a failed abort, or a restart in between, the id is forgotten iff no version left of its task's record names it, as is always so before the checkpoint is written |
| ForgottenUploads.ForgottenUpload | internal/agent/s3_client.go:90-97 | a run that leaves a live upload forgotten |
| ForgottenUploads.FoundAgain | internal/agent/s3_worker.go:249-257 | a run in which an id given up after a checkpoint whose directory sync failed is found on record by a restart and its upload ended |
| TransferTheorems.PartsUnderDurableId | internal/agent/s3_client.go:98-118 | parts are sent only under an id durable in the record |
| TransferTheorems.CreateOnlyWithoutId | internal/agent/s3_worker.go:249-263 | no multipart upload is created while the record carries an id |
| TransferTheorems.LeftoverIsSelectable | internal/agent/s3_worker.go:157-167 | in every state of every run a live upload, neither lost nor in flight, of a finished unexpired task is in that task's record, and the task is eligible, overdue or waiting for its next time |
| TransferTheorems.DueStays | internal/agent/s3_worker.go:134-178 | a task the worker is not on keeps its due time |
| TransferTheorems.NoStarvation | internal/agent/s3_worker.go:134-178 | between two attempts of one task every other eligible task due strictly earlier is taken up or leaves eligibility |
| AgentSections.WriteLeaves | internal/agent/agent.go:94-107 | what a crash may leave after a write: only the new record if it was saved, what was left before if it failed before the rename, either if after it; other records are unaffected |
| AgentSections.CrashAfterWrite | internal/agent/store.go:117-163 | a crash of the machine right after a write leaves exactly that of the written record, and of every other record what it might have left before |
| AgentService.Agent.Submit | internal/agent/agent.go:147-225 | admits exactly when nothing stands against it and the record was saved, with the request's window and step or else the configured ones, starting from nothing; a request whose task has time left is answered from it or refused as a conflict; every other refusal is named for the first thing that stands against it; nothing else changes anything |
| AgentService.Agent.Enter | internal/agent/agent.go:213-224 | the record is saved before memory, request table, active task and queue change; a failure degrades |
| AgentService.Agent.Publish | internal/agent/agent.go:108-121 | memory shows the task whether or not it was saved |
| AgentService.Agent.Conclude | internal/agent/agent.go:424-456 | end times once, from now; failed iff there is no archive or no source record, partial iff there are both and errors, completed iff there are both and none, interrupted stays; the result is the archive's |
| AgentService.Agent.PrepareTransfer | internal/agent/s3_worker.go:16-43 | uploaded stays; else pending iff there is an archive the target takes, under the archive's key, digest and size, and unavailable otherwise with the reason; target, attempts and an upload id left behind always stay |
| AgentSections.PreparedOnce | internal/agent/s3_worker.go:16-43 | preparing again, as recovery does, changes nothing, and no prepared transfer waits for a result |
| AgentService.Agent.Finish | internal/agent/agent.go:434-465 | two sections: the task as it ends is written and shown; if the write failed, the result is taken back in memory; others may run in between, and the task stays and is over |
| AgentService.Agent.Corrupt | internal/agent/http.go:210-223 | a download that fails its digest marks the result unavailable |
| AgentService.Agent.Cleanup | internal/agent/agent.go:631-660 | exactly the finished tasks whose time is over leave memory, save those whose directory could not be removed |
| AgentService.Agent.StoreTransfer | internal/agent/s3_worker.go:94-113 | record first; memory shows the change only if it was saved, else the old state with a retry time |
| AgentService.Agent.NextUpload | internal/agent/s3_worker.go:134-178 | expires exactly what is over and can be saved, then takes a transfer that is finished, in time, of the configured target, not given up and due, the one due first, or reports that none is eligible |
| AgentService.Agent.RetryTransfer | internal/agent/s3_worker.go:179-198 | unless the transfer is over it waits for its next attempt, half a delay to a delay ahead, with attempts, object and upload id as they were; a retry that cannot be written is due after the initial delay |
| AgentService.Agent.Begin | internal/agent/s3_worker.go:218-220 | the attempt is counted and on record before anything else, and clears the error and time of an earlier one |
| AgentService.Agent.Commit | internal/agent/s3_worker.go:277-284 | uploaded with its time and without upload id, waiting time or error, in memory only once it is saved |
| RetryTheorems.NotBeforeRetry | internal/agent/s3_worker.go:155-198 | over every run, after a saved retry the worker does not take the task up before the time it gave, through restarts, crashes and failed writes |
| AgentService.Agent.Check | internal/agent/s3_worker.go:240-245 | the first check decides between retry, old upload, missing and matched |
| AgentService.Agent.Put | internal/agent/s3_client.go:74-134 | whole or multipart put as steps of the machine; left alone it ends stored iff every call succeeds, parts for every section included |
| AgentService.Agent.SendParts | internal/agent/s3_client.go:102-134 | parts, completion and the deferred abort and checkpoint |
| AgentService.Agent.Examine | internal/agent/s3_worker.go:212-245 | left alone it gets past the first check iff the archive is in time and intact, the state write succeeds and the store does not hold something else |
| AgentService.Agent.Supply | internal/agent/s3_worker.go:259-272 | left alone it ends matched iff the put is acknowledged, really stored the right object and the second check answers |
| AgentService.Agent.Settle | internal/agent/s3_worker.go:249-284 | left alone it ends uploaded iff the old upload is gone, a missing object was supplied, nothing was cancelled and the last write is saved |
| AgentService.Agent.Transfer | internal/agent/s3_worker.go:199-285 | an attempt, with anything else running between its sections, is a sequence of steps that leaves the worker free; left alone, it ends uploaded exactly when all its calls come out as they must |
| AgentService.Agent.Load | internal/agent/archive.go:249-290 | recovery takes in exactly the valid records it can read, none if it cannot list them, binds each request with one unexpired task, and degrades iff something was not taken in, an entry was damaged or a request is ambiguous |
| AgentService.Agent.Recover | internal/agent/archive.go:249-328 | every record that can be read has its task, unless its time is over, and each is what its record, log and archive make of it: interrupted and ended, or with a damaged archive taken back; no task is left running, on an agent that is not degraded every finished task is packaged; without a list of the tasks memory is empty |
| AgentService.Agent.Restart | internal/agent/agent.go:43-92 | a new process starts with empty memory on the files as they were left, or on what a crash of the machine left of them |
| AgentService.Agent.Mark | internal/agent/archive.go:291-302 | a running task is interrupted now and written so before anything is rebuilt; unless that is saved recovery is through with it and degraded |
| AgentService.Agent.Rebuild | internal/agent/archive.go:329-345 | the repaired task ends by its archive and counts, shown in memory even when it could not be saved |
| AgentService.Agent.Recheck | internal/agent/archive.go:306-325 | an archive that is offered, in time and not what the record says is taken back, any other left as it is |
| QuotaBooks.AtomicAllOrNothing | internal/agent/store.go:117-163 | the name has all of the new contents or what it had; nothing else changes but a temporary file whose removal failed |
| QuotaBooks.AtomicIff | internal/agent/store.go:88-163 | a replacement goes through iff its bytes fit budget and free space, both names can be had and no call fails; then the name has the new bytes and the count is right |
| QuotaBooks.AppendIff | internal/agent/store.go:88-205 | an append goes through iff its bytes, the reserve with twice them added by capture or taken off by consume, and the metadata margin fit and the file can be opened; what is written is counted |
| QuotaBooks.PublishPlacesIff | internal/agent/store.go:254-273 | a publish places the file, whether or not there was one, iff it can be renamed and an old one that is seen is not leased and can be removed; no other name is touched |
| QuotaBooks.ReleaseSays | internal/agent/store.go:339-354 | a close takes one holder off, and the last one removes a file put off with the size it was put off with |
| QuotaBooks.PublishLosesTargetIff | internal/agent/store.go:254-273 | the target vanishes iff it was seen and removed and the rename then failed; otherwise it has old or new bytes |
| QuotaBooks.TargetLost | internal/agent/store.go:254-273 | a publish after which there is no result any more |
| QuotaBooks.TotalWithout | internal/agent/store.go:62-81 | the total is the size of any one file and the total of the rest |
| QuotaBooks.DoKeepsBudget | internal/agent/store.go:88-205 | no section takes used + reserve over MaxBytes or what it was, nor used further above MaxBytes |
| QuotaBooks.TotalStaysRight | internal/agent/store.go:117-296 | with partial writes and failed renames and removals the total stays exact iff no rename slips past an unseen file |
| QuotaBooks.DoKeepsExactIff | internal/agent/store.go:117-381 | a section of a careful caller keeps the total and each pending removal exact iff it does not replace an unseen file that had bytes or whose removal was put off |
| QuotaBooks.AppendKeepsExactIff | internal/agent/store.go:174-205 | an append keeps the books exact iff it adds nothing to a file whose removal was put off |
| QuotaBooks.AppendSpoils | internal/agent/store.go:174-205 | an append that breaks the books |
| QuotaBooks.ClassesAreCareful | internal/agent/store.go:366-382 | with only results leased, a caller who neither writes a result nor renames one away is careful, and only results stay leased |
| QuotaBooks.LeasedKeptIff | internal/agent/store.go:254-296 | no section unlinks a leased file, and it keeps its bytes iff no publish goes over it unseen with other bytes |
| QuotaBooks.LeasedReplaced | internal/agent/store.go:254-273 | a publish whose status call fails replaces a leased result and leaves the total wrong |
| QuotaHistories.ClassesKeepCareful | internal/agent/store.go:117-382 | over every history, callers who keep to the classes are careful at every step |
| QuotaHistories.AccountingExactIff | internal/agent/store.go:117-296 | over every careful history used is the total size and each pending entry names a leased file of the recorded size, in every state, iff no publish went over a file its status call failed to show so as to spoil the books |
| QuotaHistories.BudgetHeld | internal/agent/store.go:88-205 | from opening on used + reserve stays within MaxBytes; opened above it, used never grows |
| QuotaHistories.CaptureReserved | internal/agent/store.go:107-205 | during capture reserve is at least 4096 and twice the captured bytes |
| QuotaBooks.PackagingStep | internal/agent/archive.go:118-128 | with the margin in place a chunk within the reserve passes the budget check and moves bytes from reserve to used |
| QuotaHistories.LeasedStaysIff | internal/agent/store.go:254-296 | over every careful history a file stays while a lease on it is open, and keeps its bytes iff no publish replaced it unseen |
| QuotaHistories.RemovalAtLastClose | internal/agent/store.go:287-353 | a removal asked for under a lease happens at the last close, once, with exact accounting, when no publish went over an unseen file meanwhile |
| QuotaHistories.DirectoryGoes | internal/agent/store.go:297-330 | with other sections in between that leave the directory alone, RemoveTask leaves neither the directory nor a file in it once each removal succeeds |
| QuotaHistories.MarkedUntilGone | internal/agent/store.go:301-353 | over every history a marked directory stays marked until it is removed, empty |
| Storage.Store.constructor | internal/agent/store.go:31-87 | opening adds up the sizes of all files |
| Storage.Store.Atomic | internal/agent/store.go:117-163 | the section as specified, and which failure gives which outcome |
| Storage.Store.Mkdir | internal/agent/store.go:236-243 | the directory is made iff its name is free, its parent is there and the call succeeds; done iff it is synced too |
| Storage.Store.BeginCapture | internal/agent/store.go:107-115 | capture begins iff the base reserve and the metadata margin fit |
| Storage.Store.Append | internal/agent/store.go:174-205 | the section as specified, with capture and consume |
| Storage.Store.Publish | internal/agent/store.go:254-273 | the section, with the exact condition of success, of a refusal for a lease, and what files and count are then |
| Storage.Store.Remove | internal/agent/store.go:274-296 | at once, put off under a lease with the size recorded, or not at all, and when it reports success |
| Storage.Store.Lease | internal/agent/store.go:366-382 | a new handle iff the file is there and can be opened, counted under its name |
| Storage.Store.Package | internal/agent/archive.go:118-201 | the archive is written in order; with the margin only the file system can refuse a chunk, and used + reserve is constant |
| Storage.Store.RemoveTask | internal/agent/store.go:297-330 | marks a directory with a lease inside, else empties and removes it; as a sequence of sections |
| Storage.LeasedFile.Close | internal/agent/store.go:339-365 | only the first close acts; it takes one holder off the count, and the last holder's close carries out a removal put off and the removal of a marked directory |
| FrameLog.LinesAndTail | internal/agent/archive.go:364-375 | any bytes are their terminated lines and an unterminated tail |
| FrameLog.Repair | internal/agent/archive.go:346-454 | what is kept, whether the file counts as damaged, and the two counts |
| FrameLog.RepairKeepsLongest | internal/agent/archive.go:346-455 | exactly the longest accepted prefix of terminated lines is kept; an undamaged file is unchanged |
| FrameLog.RepairIdempotent | internal/agent/archive.go:346-455 | repairing again changes neither bytes nor counts |
| FrameCoverage.AcceptedIffFramed | internal/agent/archive.go:390-409 | acceptance is exactly framing: sources of one id, then their complete frame_end; the state sums up the frames |
| FrameCoverage.AcceptedAccounts | internal/agent/archive.go:376-424 | over accepted records of either schema every source record is counted or pending, once, and the points are the frames and the ids of schema 1 |
| FrameCoverage.AcceptedLinesIff | internal/agent/archive.go:376-409 | lines are accepted iff none is too long, each is a record, and the records are accepted |
| FrameCoverage.Cover | internal/agent/archive.go:62-98 | the loop over one file, from the counts of the files before it, computes the specified tallies |
| FrameCoverage.Coverage | internal/agent/archive.go:50-110 | the loop over all files |
| FrameCoverage.CoverFromAdds | internal/agent/archive.go:50-98 | what earlier files counted is added, group by group, and nothing else depends on it |
| FrameCoverage.CoverageCountsCommitted | internal/agent/archive.go:50-110 | over all files the counts are those of their committed frames, group by group |
| FrameCoverage.CoverCountsCommitted | internal/agent/archive.go:60-98 | group by group the counts are those of the committed frames |
| FrameCoverage.CountedIs | internal/agent/archive.go:78-84 | a tally is how many records the group has, how many are complete and how many are not |
| FrameCoverage.OldCounted | internal/agent/archive.go:66-85 | records of schema 1 are counted as they come |
| FrameCoverage.CoverageTotals | internal/agent/archive.go:50-110 | one SEP per frame, and all source records of the frames |
| FrameCoverage.CoverageAgreesWithRepair | internal/agent/archive.go:50-110 | coverage over repaired bytes reports repair's points and source records |
| Capture.LogPrefix | internal/agent/window_task.go:49-82 | any byte prefix of the log is the log of some first records and an unterminated tail |
| Capture.Window.Emit | internal/agent/window_task.go:49-82 | append, sync, publish: counters move at a frame_end and show only after its sync; what is shown never shrinks |
| Capture.Window.Finish | internal/agent/window_task.go:89-95 | the packaging publish shows the counters as they stand |
| Capture.NoVisibleFrameLost | internal/agent/window_task.go:49-82 | after a crash at any byte recovery counts at least what any reader was shown, unless memory ran ahead of a failed sync |
| Capture.AheadLoses | internal/agent/window_task.go:78-95 | when it did, a crash that keeps the synced bytes alone loses a shown frame |
| Capture.UnsyncedFrame | internal/agent/window_task.go:49-95 | a session in which it does: one frame, its sync failed, shown by the packaging publish and gone after the crash |
| AtopLine.SplitJoined | internal/agent/scenarios.go:120 | splitting undoes joining at single spaces |
| AtopLine.FieldsJoined | internal/agent/scenarios.go:178 | fields of joined fields are the fields |
| AtopLine.NameFound | internal/agent/scenarios.go:70-157 | the greedy name pattern finds the real name, parentheses in it or not, whatever the command line |
| AtopLine.RedactionIgnoresCommand | internal/agent/scenarios.go:148-194 | the emitted row is the same for every command line and whatever white space parts the fields after it: the line with "()" in its place, or a rejection decided by those fields alone |
| AtopLine.RedactionTwice | internal/agent/scenarios.go:166-194 | redacting the result again changes nothing iff no suffix field but the last ends with ")" |
| AtopLine.RedactedSays | internal/agent/scenarios.go:165-236 | a redacted row has its process or thread, start time and container |
| AtopLine.ProcRow | internal/agent/scenarios.go:148-236 | a PRC, PRM, PRD or PRN row put together from its fields is kept as it is iff it has the number of fields of its label, a positive group and a kind; a thread goes under its group, and is skipped unless asked for |
| AtopLine.HostRow | internal/agent/scenarios.go:146-247 | a system row is its own content; a PSI row must say first whether it is supported |
| AtopLine.RedactedOnce | internal/agent/scenarios.go:148-194 | a row that is redacted, and whose redaction is rejected |
| AtopStream.Parse | internal/agent/scenarios.go:75-268 | for every input the emitted records are complete frames and at most one unfinished; success means at least one frame, no tail, every kept row emitted in order under its label, host, epoch and interval; unless the sink refuses it succeeds exactly on the accepted inputs |
| AtopStream.AcceptedIff | internal/agent/scenarios.go:75-268 | the accepted streams are exactly RESETs and then complete frames with rising epochs, every row with seven fields, a wanted label and the host, epoch and interval of its frame, every required label kept |
| AtopSample.CpuStreamAccepted | internal/agent/scenarios.go:75-268 | a stream of one frame as atop prints it is accepted, whatever the command line |
| AtopStream.CommittedFramesComplete | internal/agent/scenarios.go:105-118 | a committed frame holds a record of every required label |
| AtopStream.LabelsSay | internal/agent/scenarios.go:23-66 | the labels each scene may have and must have |
| AtopStream.EndedIdsDiffer | internal/agent/scenarios.go:132-143 | the id of an ended frame never comes back |
| AtopStream.EmittedIsAccepted | internal/agent/scenarios.go:75-268 | what the parser emits the repair automaton accepts and coverage counts |
| Sandbox.BuildFilter | internal/sandbox/sandbox_linux.go:49-67 | the appended filter halts with the policy's verdict for every call |
| Sandbox.FilterMeansPolicy | internal/sandbox/sandbox_linux.go:43-67 | for every deny list, architecture, number and arguments the code means the policy |
| Sandbox.VerdictsSay | internal/sandbox/sandbox_linux.go:43-67 | another architecture is killed, x32 and denied numbers refused, kill and pidfd signals allowed for 0 and 9 alone, tgkill for the own group alone, all else allowed |
| Sandbox.EveryJumpInside | internal/sandbox/sandbox_linux.go:49-67 | every jump is forward, fits eight bits and lands inside; nothing falls off the end |
| Sandbox.NumberAtBlocks | internal/sandbox/sandbox_linux.go:54-67 | however a block is reached the accumulator still holds the number |
| Sandbox.LengthMustFit | internal/sandbox/sandbox_linux.go:68 | the installed filter keeps the policy for calls that pass the deny list iff its length fits 16 bits |
| Sandbox.LongListFails | internal/sandbox/sandbox_linux.go:68 | a list of 32760 numbers under which an allowed call gets no verdict |
| Sandbox.ShippedListsFit | internal/sandbox/sandbox_linux.go:26-38 | both shipped filters fit |

## Left out

- AgentService.Agent.Submit: the collector's availability, the agent's context and the round deadline are one input, and so is the check for storage.
- AgentService.Agent.Put: sizes above 2^63 - 10000, for which the offset loop would not end, count as a refused put.
- AgentService.Agent.Cleanup: removing the other files of a task whose archive has expired changes nothing the agent's state shows.
- AgentService.Agent.Finish: between its two sections admissions, downloads and time may pass; uploads of other tasks are not interleaved there, though the machine allows them. In recovery the second section has no effect, since recovery stores the task again right after it.
- AgentService.Agent.Transfer: the statement about its outcome is for an attempt during which nothing else runs; with interference it is a sequence of legal steps.
- FrameLog.Repair: input and output failures while the repaired copy is written leave the original file in place and are not part of the model.
- AtopStream.Parse: the start and finish times of records.
- Object keys are kept as the tuple they are computed from, so distinct tasks have distinct keys; the hash behind YOS keys and SHA-256 are taken to be injective there.
- After a crash of the machine each record is one of its versions for good; a later crash cannot bring back another.
- UniqueRecords.UniqueThroughoutIff: files are removed without a sync of their directory (`store.go:274-296`), so a crash may undo the removal of a task.json; in the model what is removed stays removed. After a removal that failed midway the record could come back, without durable end times, beside a later admission of its request.
- ForgottenUploads.ForgottenForGoodIff: for the same reason a crash that undoes the removal of a record would bring back the upload id in it.
- A closing agent: from Close on it admits nothing, the worker leaves its task running and clears the active task, and the process ends; the model goes straight to the end of the process, so OneActive speaks of serving agents.
- An empty task directory without a task.json, which recovery removes.
- Free disk space is an input of each store section, so quota statements are about the byte budget; byte counts are unbounded integers.
- Interleaving inside RemoveTask and LeasedFile.Close: the methods run their sections in a row, the history theorems allow others between them.
- Renaming or leasing directories, symbolic links and other irregular entries: the store refuses to open over them.
- Concurrent sections of the store under one capture: PackagingStep speaks of one chunk, Package of chunks in a row.
- Task parameters beyond window and step (scenes, thread flag), host metadata, capabilities, error codes and counts by code: single fields copied along.
- Error, history and background files: repair runs the same loop there without the frame automaton, and background capture keeps one frame per file.
- Records of schema 1 tasks: default line scanning with skipped lines; the repair model is for tasks of schema 2, whose files may hold records of schema 1.
- LastSampleAt, and the two renames by which repair publishes its output.
- JSON, tar and gzip encoding; sourcePattern, whose result records carry as their source.
- Invalid UTF-8 is a token without text; the byte limit of the line scanner is an input.
- The HTTP interface, authentication, configuration parsing, presigned links, the AWS and YOS clients, request signing and the retry loop of Abort.
- The legacy round scheduler (run, waitPoint, background) and history freezing.
- The atop process, its timeouts and kill handling; the system calls that install the filter and ValidateIdentity.
