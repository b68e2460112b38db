# DefaultFileSystemMonitor, modelled in Dafny

This project models the scheduling engine of the Kafka Connect FilePulse source
connector, `DefaultFileSystemMonitor`. The engine lists object files, admits those the
state store has not yet seen (or sees as still starting), and keeps them in a *scanned*
view. On a scheduling request it copies them, under a cap, into a *scheduled* view and
splits that view into groups of URIs for the tasks. It listens to the state store: a
file reaching a completed status is queued for cleanup and withdrawn from the scanned
view, and a CLEANED file leaves the scheduled view. A cleanup pass hands the queue to the
cleanup policy, writes CLEANED for every success and re-queues the rest.

The engine is modelled as a sequential state machine: the class
`FileSystemMonitor.DefaultFileSystemMonitor` has the Java object's fields (`scheduled`,
`scanned`, `completed`, `fileState`, `nextAllowedTasksReconfiguration`,
`taskReconfigurationRequested`, `running`, `changed`) plus a log of the writes issued to
the store. Each operation and each store notification runs atomically as a method.

- `types.dfy`: metadata, records, statuses, notifications and Java `long` wrap-around.
- `scan.dfy`: the admission filter `maybeScheduled` and the fail-closed `toScheduled`.
- `listener.dfy`: the effect of the store's update listener, one notification at a time
  and over a run of notifications.
- `cleanup.dfy`: the outcome of one cleanup pass over a drained batch.
- `grouping.dfy`: iteration over a map, the sort by modification time, and the
  `groupPartitions` split.
- `monitor.dfy`: the scan gate, the class and its operations.

Collaborators the monitor calls into are inputs: the partition-key function, the
started/completed status families, the cleanup policy's verdicts (one per drained
record), whether a read to the end of the state log succeeded, the snapshot it exposes,
the notifications delivered during a refresh, the listing, and the current time.

## Model

| member | source | states |
|---|---|---|
| `Types.WrapLong` | connect-file-pulse-plugin/src/main/java/io/streamthoughts/kafka/connect/filepulse/fs/DefaultFileSystemMonitor.java:289-292 | The result is a `long`, equals its input when that input already fits, and differs from it by a multiple of 2^64: Java's wrap-around for the deadline arithmetic. |
| `Scan.MaybeScheduled` | connect-file-pulse-plugin/src/main/java/io/streamthoughts/kafka/connect/filepulse/fs/DefaultFileSystemMonitor.java:356-360 | Defines admission: a key is admitted when the snapshot does not hold it or holds it with a status of the started family; `Scan.Candidates` and `Scan.ToScheduledAdmits` state what the scan does with it. |
| `Scan.Candidates` | connect-file-pulse-plugin/src/main/java/io/streamthoughts/kafka/connect/filepulse/fs/DefaultFileSystemMonitor.java:318-321 | Each candidate is a listed item paired with its own partition key, and its key passes the admission filter (absent from the snapshot, or stored with a status of the started family). |
| `Scan.Occurrences` | connect-file-pulse-plugin/src/main/java/io/streamthoughts/kafka/connect/filepulse/fs/DefaultFileSystemMonitor.java:324-335 | Defines how many candidate pairs carry a key (the size of that key's group in the `groupingBy`); `Scan.DuplicateKeysEmptyIff` states what it decides. |
| `Scan.DuplicateKeys` | connect-file-pulse-plugin/src/main/java/io/streamthoughts/kafka/connect/filepulse/fs/DefaultFileSystemMonitor.java:324-335 | Defines the keys whose group has more than one pair; `Scan.DuplicateKeysEmptyIff` states that it is empty exactly when the candidate keys are distinct. |
| `Scan.DuplicateKeysEmptyIff` | connect-file-pulse-plugin/src/main/java/io/streamthoughts/kafka/connect/filepulse/fs/DefaultFileSystemMonitor.java:324-337 | The set of keys whose group has more than one pair is empty exactly when no two candidates share a key. |
| `Scan.ToMap` | connect-file-pulse-plugin/src/main/java/io/streamthoughts/kafka/connect/filepulse/fs/DefaultFileSystemMonitor.java:353 | Defines the `Collectors.toMap` of the candidate pairs; `Scan.ToMapOfDistinct` states its keys and values when the keys are distinct. |
| `Scan.ToMapOfDistinct` | connect-file-pulse-plugin/src/main/java/io/streamthoughts/kafka/connect/filepulse/fs/DefaultFileSystemMonitor.java:353 | Collecting pairs with distinct keys maps every pair's key to its metadata, and yields no key that is not some pair's key. |
| `Scan.ToScheduled` | connect-file-pulse-plugin/src/main/java/io/streamthoughts/kafka/connect/filepulse/fs/DefaultFileSystemMonitor.java:315-354 | When two admitted items share a key the result is empty; otherwise every admitted item's key maps to that item and every key comes from an admitted item. |
| `Scan.DistinctCandidatesUnique` | connect-file-pulse-plugin/src/main/java/io/streamthoughts/kafka/connect/filepulse/fs/DefaultFileSystemMonitor.java:318-329 | Distinct candidate keys mean no two admitted listed items share a key. |
| `Scan.UniqueCandidatesDistinct` | connect-file-pulse-plugin/src/main/java/io/streamthoughts/kafka/connect/filepulse/fs/DefaultFileSystemMonitor.java:318-329 | No two admitted listed items sharing a key means distinct candidate keys. |
| `Scan.ToScheduledAdmits` | connect-file-pulse-plugin/src/main/java/io/streamthoughts/kafka/connect/filepulse/fs/DefaultFileSystemMonitor.java:318-360 | With unique admitted keys, a listed item's key is in the result iff it passes the admission filter, and it then maps to that item; every key in the result passes the filter and maps to a listed item with that key. |
| `Scan.ToScheduledRejectsDuplicates` | connect-file-pulse-plugin/src/main/java/io/streamthoughts/kafka/connect/filepulse/fs/DefaultFileSystemMonitor.java:324-350 | Two listed positions that pass the filter with the same key (the same metadata listed twice included) make the scan result empty. |
| `Listener.Notify` | connect-file-pulse-plugin/src/main/java/io/streamthoughts/kafka/connect/filepulse/fs/DefaultFileSystemMonitor.java:142-171 | A completed-family update appends the record under its key to the completed queue, drops the key from the scanned view, keeps the scheduled view, and sets `changed` iff the key was scanned; a CLEANED update removes only the key from the scheduled view; any other status and any removal change nothing. |
| `Listener.NotifyAll` | connect-file-pulse-plugin/src/main/java/io/streamthoughts/kafka/connect/filepulse/fs/DefaultFileSystemMonitor.java:142-171 | Defines a run of notifications as `Notify` applied to each in delivery order; `Listener.NotifyAllEffect` and the lemmas before it state its effect on each view. |
| `Listener.CompletedRecords` | connect-file-pulse-plugin/src/main/java/io/streamthoughts/kafka/connect/filepulse/fs/DefaultFileSystemMonitor.java:149-154 | The records queued by a run of notifications all carry a key. |
| `Listener.NotifyAllScanned` | connect-file-pulse-plugin/src/main/java/io/streamthoughts/kafka/connect/filepulse/fs/DefaultFileSystemMonitor.java:149-159 | After a run of notifications the scanned view has lost exactly the keys of the completed-family updates. |
| `Listener.NotifyAllScheduled` | connect-file-pulse-plugin/src/main/java/io/streamthoughts/kafka/connect/filepulse/fs/DefaultFileSystemMonitor.java:160-169 | After a run of notifications the scheduled view has lost exactly the keys of the CLEANED updates. |
| `Listener.NotifyAllCompleted` | connect-file-pulse-plugin/src/main/java/io/streamthoughts/kafka/connect/filepulse/fs/DefaultFileSystemMonitor.java:149-154 | After a run of notifications the completed queue has grown by exactly the completed-family records, keyed, in delivery order. |
| `Listener.NotifyAllChanged` | connect-file-pulse-plugin/src/main/java/io/streamthoughts/kafka/connect/filepulse/fs/DefaultFileSystemMonitor.java:155-159 | After a run of notifications `changed` is set iff it was set before or some completed-family key was in the scanned view at the start. |
| `Listener.NotifyAllEffect` | connect-file-pulse-plugin/src/main/java/io/streamthoughts/kafka/connect/filepulse/fs/DefaultFileSystemMonitor.java:142-171 | The four effects of a run of notifications together, on scanned, scheduled, completed and `changed`. |
| `Listener.NotifyAllKeyed` | connect-file-pulse-plugin/src/main/java/io/streamthoughts/kafka/connect/filepulse/fs/DefaultFileSystemMonitor.java:149-154 | Notifications keep every queued record keyed. |
| `Listener.CompletedRecordsKeys` | connect-file-pulse-plugin/src/main/java/io/streamthoughts/kafka/connect/filepulse/fs/DefaultFileSystemMonitor.java:149-154 | A run of notifications queues records exactly when it completes some key, and every queued record carries one of the completed keys. |
| `Cleanup.Postponed` | connect-file-pulse-plugin/src/main/java/io/streamthoughts/kafka/connect/filepulse/fs/DefaultFileSystemMonitor.java:246-249 | The records re-queued by a cleanup pass are keyed whenever the batch is. |
| `Cleanup.Succeeded` | connect-file-pulse-plugin/src/main/java/io/streamthoughts/kafka/connect/filepulse/fs/DefaultFileSystemMonitor.java:243-245 | The records cleaned by a cleanup pass are keyed whenever the batch is. |
| `Cleanup.CleanedWrites` | connect-file-pulse-plugin/src/main/java/io/streamthoughts/kafka/connect/filepulse/fs/DefaultFileSystemMonitor.java:243-245 | One write per cleaned record, in order, stored under the record's own key with the record's status replaced by CLEANED. |
| `Cleanup.CleanupStep` | connect-file-pulse-plugin/src/main/java/io/streamthoughts/kafka/connect/filepulse/fs/DefaultFileSystemMonitor.java:241-250 | One more verdict appends its record to the re-queued or the cleaned records, and a success appends exactly that record's CLEANED write. |
| `Cleanup.CleanupConserves` | connect-file-pulse-plugin/src/main/java/io/streamthoughts/kafka/connect/filepulse/fs/DefaultFileSystemMonitor.java:238-250 | No record is lost or invented: the re-queued and the cleaned records together are, as a multiset, exactly the drained batch. |
| `Cleanup.CleanupCounts` | connect-file-pulse-plugin/src/main/java/io/streamthoughts/kafka/connect/filepulse/fs/DefaultFileSystemMonitor.java:242-250 | There are as many cleaned records (hence CLEANED writes) as SUCCEED verdicts, and as many re-queued records as other verdicts. |
| `Grouping.KeysInSomeOrder` | connect-file-pulse-plugin/src/main/java/io/streamthoughts/kafka/connect/filepulse/fs/DefaultFileSystemMonitor.java:413 | An iteration over a map's keys lists every key exactly once, in an unspecified order. |
| `Grouping.EnumerationLength` | connect-file-pulse-plugin/src/main/java/io/streamthoughts/kafka/connect/filepulse/fs/DefaultFileSystemMonitor.java:420 | An iteration over a map is as long as the map is large. |
| `Grouping.DistinctCard` | connect-file-pulse-plugin/src/main/java/io/streamthoughts/kafka/connect/filepulse/fs/DefaultFileSystemMonitor.java:420 | A list without repeats has as many distinct elements as entries. |
| `Grouping.InsertByModified` | connect-file-pulse-plugin/src/main/java/io/streamthoughts/kafka/connect/filepulse/fs/DefaultFileSystemMonitor.java:421 | Inserting one entry into a list gives one more entry and adds exactly that entry to the multiset. |
| `Grouping.InsertBelow` | connect-file-pulse-plugin/src/main/java/io/streamthoughts/kafka/connect/filepulse/fs/DefaultFileSystemMonitor.java:421 | Insertion keeps a common upper bound on modification times. |
| `Grouping.InsertKeepsSorted` | connect-file-pulse-plugin/src/main/java/io/streamthoughts/kafka/connect/filepulse/fs/DefaultFileSystemMonitor.java:421 | Insertion into a list sorted by modification time keeps it sorted. |
| `Grouping.SortByModified` | connect-file-pulse-plugin/src/main/java/io/streamthoughts/kafka/connect/filepulse/fs/DefaultFileSystemMonitor.java:421 | The sort by last modification time is sorted and a permutation of its input. |
| `Grouping.FlattenAppend` | connect-file-pulse-plugin/src/main/java/io/streamthoughts/kafka/connect/filepulse/fs/DefaultFileSystemMonitor.java:428 | Concatenating the groups of two group lists is concatenating their concatenations. |
| `Grouping.CeilDiv` | connect-file-pulse-plugin/src/main/java/io/streamthoughts/kafka/connect/filepulse/fs/DefaultFileSystemMonitor.java:428 | The rounded-up group size never exceeds the number of elements. |
| `Grouping.Chunks` | connect-file-pulse-plugin/src/main/java/io/streamthoughts/kafka/connect/filepulse/fs/DefaultFileSystemMonitor.java:428 | Exactly `n` contiguous groups whose concatenation is the input. |
| `Grouping.GroupPartitions` | connect-file-pulse-plugin/src/main/java/io/streamthoughts/kafka/connect/filepulse/fs/DefaultFileSystemMonitor.java:428 | groupPartitions succeeds iff the group count is positive, and then yields that many groups whose concatenation is the input. |
| `Grouping.GroupsOf` | connect-file-pulse-plugin/src/main/java/io/streamthoughts/kafka/connect/filepulse/fs/DefaultFileSystemMonitor.java:420-428 | Defines the groups of one attempt: the scheduled view's values in an iteration order, sorted by modification time, mapped to URIs and split into min(|scheduled|, maxGroups) groups; `Grouping.GroupsCoverScheduled` states what they contain. |
| `Grouping.GroupsCoverScheduled` | connect-file-pulse-plugin/src/main/java/io/streamthoughts/kafka/connect/filepulse/fs/DefaultFileSystemMonitor.java:420-428 | Whatever the iteration order of the scheduled view, the sources are every scheduled entry once, sorted by modification time; grouping succeeds iff the view and `maxGroups` are both positive, and then gives min(|scheduled|, maxGroups) groups concatenating to the sources' URIs. |
| `FileSystemMonitor.Deadline` | connect-file-pulse-plugin/src/main/java/io/streamthoughts/kafka/connect/filepulse/fs/DefaultFileSystemMonitor.java:288-290 | Defines the reconfiguration deadline: fixed as `now` plus the timeout in `long` arithmetic when none is set, kept otherwise; `FileSystemMonitor.FirstWaitDeadline` and `FileSystemMonitor.ScanGateOutcomes` state its use. |
| `FileSystemMonitor.Remaining` | connect-file-pulse-plugin/src/main/java/io/streamthoughts/kafka/connect/filepulse/fs/DefaultFileSystemMonitor.java:292 | Defines the time left before the deadline, in `long` arithmetic and never negative; `FileSystemMonitor.FirstWaitDeadline` states its value on the first wait. |
| `FileSystemMonitor.ScanGate` | connect-file-pulse-plugin/src/main/java/io/streamthoughts/kafka/connect/filepulse/fs/DefaultFileSystemMonitor.java:254-305 | Defines which of the five outcomes a scan takes (locked, stale log, nothing new, wait, merge) from the monitor's state and the scan's inputs; `FileSystemMonitor.ScanGateOutcomes` states when each happens and `UpdateFiles` is proved against it. |
| `FileSystemMonitor.ScanGateOutcomes` | connect-file-pulse-plugin/src/main/java/io/streamthoughts/kafka/connect/filepulse/fs/DefaultFileSystemMonitor.java:254-305 | A scan is skipped with tasks busy and the timeout `Long.MAX_VALUE`, skipped with no task busy and a stale log, skipped with tasks busy and nothing new; it always merges with no task busy and the log read; it waits only with tasks busy and new keys, keeping a deadline once set; with tasks busy it merges only once the deadline has passed. |
| `FileSystemMonitor.FirstWaitDeadline` | connect-file-pulse-plugin/src/main/java/io/streamthoughts/kafka/connect/filepulse/fs/DefaultFileSystemMonitor.java:288-305 | The first time new files meet busy tasks the deadline becomes now plus the timeout; a positive timeout makes the scan wait, a non-positive one merges at once. |
| `FileSystemMonitor.PutAll` | connect-file-pulse-plugin/src/main/java/io/streamthoughts/kafka/connect/filepulse/fs/DefaultFileSystemMonitor.java:411-417 | Defines the effect of a run of `scheduled.put` calls for a sequence of scanned keys; `FileSystemMonitor.PutAllEntries` and `FileSystemMonitor.PutAllEverything` state it. |
| `FileSystemMonitor.PutAllEntries` | connect-file-pulse-plugin/src/main/java/io/streamthoughts/kafka/connect/filepulse/fs/DefaultFileSystemMonitor.java:413-417 | Putting entries one by one keeps every existing key, adds exactly the put keys with their scanned values, and leaves untouched keys as they were. |
| `FileSystemMonitor.PutAllEverything` | connect-file-pulse-plugin/src/main/java/io/streamthoughts/kafka/connect/filepulse/fs/DefaultFileSystemMonitor.java:410-411 | Putting every scanned entry is `putAll`: the scheduled view overridden by the scanned view. |
| `FileSystemMonitor.ConcatAppend` | connect-file-pulse-plugin/src/main/java/io/streamthoughts/kafka/connect/filepulse/fs/DefaultFileSystemMonitor.java:391 | Adding one attempt's groups to the kept partitions appends them after those of earlier attempts. |
| `FileSystemMonitor.ScannedBefore` | connect-file-pulse-plugin/src/main/java/io/streamthoughts/kafka/connect/filepulse/fs/DefaultFileSystemMonitor.java:396-444 | Defines the scanned keys at the start of each attempt of a scheduling request: those at its start, less the keys completed by the notifications of every earlier attempt. |
| `FileSystemMonitor.Retried` | connect-file-pulse-plugin/src/main/java/io/streamthoughts/kafka/connect/filepulse/fs/DefaultFileSystemMonitor.java:431-444 | Defines when an attempt asks for another: one of its notifications completed a key still scanned at its start. |
| `FileSystemMonitor.RetriedUpToAll` | connect-file-pulse-plugin/src/main/java/io/streamthoughts/kafka/connect/filepulse/fs/DefaultFileSystemMonitor.java:431-444 | A run of retried attempts is exactly every one of those attempts retrying. |
| `FileSystemMonitor.QuietRoundsNeverRetry` | connect-file-pulse-plugin/src/main/java/io/streamthoughts/kafka/connect/filepulse/fs/DefaultFileSystemMonitor.java:431-444 | When no notification completes a file, no attempt retries, so a scheduling request stops after its first attempt with `changed` unset. |
| `FileSystemMonitor.CompletedDuring` | connect-file-pulse-plugin/src/main/java/io/streamthoughts/kafka/connect/filepulse/fs/DefaultFileSystemMonitor.java:149-154 | Defines the records queued during the first `n` attempts of a request: each attempt's completed records, attempt by attempt; `FileSystemMonitor.QuietRoundsQueueNothing` states when it is empty. |
| `FileSystemMonitor.QuietRoundsQueueNothing` | connect-file-pulse-plugin/src/main/java/io/streamthoughts/kafka/connect/filepulse/fs/DefaultFileSystemMonitor.java:149-154 | When no notification completes a file, the attempts of a request queue nothing. |
| `FileSystemMonitor.SnapshotAfter` | connect-file-pulse-plugin/src/main/java/io/streamthoughts/kafka/connect/filepulse/fs/DefaultFileSystemMonitor.java:403-407 | Defines the snapshot held after the first `n` attempts' refreshes; `FileSystemMonitor.SnapshotAfterLast` states which one it is. |
| `FileSystemMonitor.SnapshotAfterLast` | connect-file-pulse-plugin/src/main/java/io/streamthoughts/kafka/connect/filepulse/fs/DefaultFileSystemMonitor.java:403-407 | After a run of attempts the snapshot is that of the last refresh that reached the end of the log, and the one held before the request when none did. |
| `FileSystemMonitor.GroupCountBound` | connect-file-pulse-plugin/src/main/java/io/streamthoughts/kafka/connect/filepulse/fs/DefaultFileSystemMonitor.java:420-428 | Each attempt hands out between one and `maxGroups` groups, so a request hands out at most `maxGroups` groups per attempt made, and exactly that many when every grouped view held at least `maxGroups` files: a request that retried can return more than `maxGroups` groups. |
| `FileSystemMonitor.Recovered` | connect-file-pulse-plugin/src/main/java/io/streamthoughts/kafka/connect/filepulse/fs/DefaultFileSystemMonitor.java:184-193 | Recovered records are keyed. |
| `FileSystemMonitor.RecoveredExactly` | connect-file-pulse-plugin/src/main/java/io/streamthoughts/kafka/connect/filepulse/fs/DefaultFileSystemMonitor.java:184-193 | Recovery queues every stored record of the completed family exactly once, under its own key, and nothing else. |
| `FileSystemMonitor.DefaultFileSystemMonitor.constructor` | connect-file-pulse-plugin/src/main/java/io/streamthoughts/kafka/connect/filepulse/fs/DefaultFileSystemMonitor.java:116-179 | A new monitor has empty views, an empty queue and write log, no deadline, all flags clear, and the snapshot of the first read to the end of the log if that read succeeded. |
| `FileSystemMonitor.DefaultFileSystemMonitor.Create` | connect-file-pulse-plugin/src/main/java/io/streamthoughts/kafka/connect/filepulse/fs/DefaultFileSystemMonitor.java:116-193 | Construction fails iff the first read to the end of the log times out (recovery then has no snapshot); otherwise the monitor keeps the given timeout, key function and status families, the queue holds the recovered completed records of the snapshot, the views and write log are empty, no deadline is set and every flag is clear. |
| `FileSystemMonitor.DefaultFileSystemMonitor.RecoverPreviouslyCompletedSources` | connect-file-pulse-plugin/src/main/java/io/streamthoughts/kafka/connect/filepulse/fs/DefaultFileSystemMonitor.java:184-193 | Appends to the queue the completed-family records of the snapshot, keyed, in the snapshot's iteration order. |
| `FileSystemMonitor.DefaultFileSystemMonitor.ReadStatesToEnd` | connect-file-pulse-plugin/src/main/java/io/streamthoughts/kafka/connect/filepulse/fs/DefaultFileSystemMonitor.java:195-207 | Returns whether the read reached the end of the log; only then is the snapshot replaced. |
| `FileSystemMonitor.DefaultFileSystemMonitor.OnStateUpdate` | connect-file-pulse-plugin/src/main/java/io/streamthoughts/kafka/connect/filepulse/fs/DefaultFileSystemMonitor.java:148-170 | The listener's update callback acts on the views exactly as `Notify` says. |
| `FileSystemMonitor.DefaultFileSystemMonitor.OnStateRemove` | connect-file-pulse-plugin/src/main/java/io/streamthoughts/kafka/connect/filepulse/fs/DefaultFileSystemMonitor.java:143-146 | The listener's removal callback changes no view. |
| `FileSystemMonitor.DefaultFileSystemMonitor.Deliver` | connect-file-pulse-plugin/src/main/java/io/streamthoughts/kafka/connect/filepulse/fs/DefaultFileSystemMonitor.java:142-171 | A run of notifications acts on the views exactly as `NotifyAll` says. |
| `FileSystemMonitor.DefaultFileSystemMonitor.CleanBatch` | connect-file-pulse-plugin/src/main/java/io/streamthoughts/kafka/connect/filepulse/fs/DefaultFileSystemMonitor.java:241-250 | The walk over the verdicts yields the re-queued records and the CLEANED writes of the pass, both in batch order. |
| `FileSystemMonitor.DefaultFileSystemMonitor.CleanUpCompletedFiles` | connect-file-pulse-plugin/src/main/java/io/streamthoughts/kafka/connect/filepulse/fs/DefaultFileSystemMonitor.java:231-252 | The queue is drained and refilled with exactly the records not cleaned, and the write log grows by one CLEANED write per cleaned record; an empty queue is left as it is. |
| `FileSystemMonitor.DefaultFileSystemMonitor.UpdateFiles` | connect-file-pulse-plugin/src/main/java/io/streamthoughts/kafka/connect/filepulse/fs/DefaultFileSystemMonitor.java:254-313 | The snapshot changes unless the scan is locked or the log read fails; the scanned view changes only by merging the admitted listing, and only when the gate merges; the deadline is set while waiting and cleared on a merge; returns true iff it merged, the scanned view is non-empty and the monitor is running. |
| `FileSystemMonitor.DefaultFileSystemMonitor.Invoke` | connect-file-pulse-plugin/src/main/java/io/streamthoughts/kafka/connect/filepulse/fs/DefaultFileSystemMonitor.java:213-229 | Cleanup always runs; a scan runs only when running with no reconfiguration pending, and then changes the snapshot, the scanned view and the deadline exactly as `UpdateFiles` does; otherwise they stay; a reconfiguration is requested exactly when that scan publishes. |
| `FileSystemMonitor.DefaultFileSystemMonitor.CopyWhileBelowCap` | connect-file-pulse-plugin/src/main/java/io/streamthoughts/kafka/connect/filepulse/fs/DefaultFileSystemMonitor.java:413-417 | Puts the first `n` entries of the iteration, and `n` is the first point where the scheduled view reaches the cap: before each of those puts the view was below the cap, and it stops short of the end only with the view at the cap. It copies nothing if the view was already there, and never overshoots a cap it started below. |
| `FileSystemMonitor.DefaultFileSystemMonitor.CopyScanned` | connect-file-pulse-plugin/src/main/java/io/streamthoughts/kafka/connect/filepulse/fs/DefaultFileSystemMonitor.java:410-418 | When the scanned view fits under the cap it is put wholesale; otherwise the prefix of its iteration that `CopyWhileBelowCap` puts, ending at the first point where the scheduled view reaches the cap; existing scheduled entries stay. |
| `FileSystemMonitor.DefaultFileSystemMonitor.PrepareBatch` | connect-file-pulse-plugin/src/main/java/io/streamthoughts/kafka/connect/filepulse/fs/DefaultFileSystemMonitor.java:420-428 | The groups are those of `GroupsOf` for the scheduled view read in some iteration order; they exist iff the view and `maxGroups` are positive, and there are min(|scheduled|, maxGroups) of them. |
| `FileSystemMonitor.DefaultFileSystemMonitor.Refresh` | connect-file-pulse-plugin/src/main/java/io/streamthoughts/kafka/connect/filepulse/fs/DefaultFileSystemMonitor.java:397-408 | `changed` is cleared, the snapshot replaced iff the read reached the end of the log, and the notifications delivered: the scanned view loses their completed keys, the queue grows by exactly their completed records, and `changed` ends set iff one of them completed a scanned key. |
| `FileSystemMonitor.DefaultFileSystemMonitor.Attempt` | connect-file-pulse-plugin/src/main/java/io/streamthoughts/kafka/connect/filepulse/fs/DefaultFileSystemMonitor.java:396-430 | One attempt withdraws from the scanned view exactly the keys its notifications complete, ends with `changed` set iff the attempt retries (`Retried`), appends exactly its completed records to the queue (`CompletedDuring`), takes the snapshot of its refresh when that reached the end of the log (`SnapshotAfter`), and yields the groups of the resulting scheduled view, non-empty when grouping succeeds and an error whenever `maxGroups` is not positive. |
| `FileSystemMonitor.DefaultFileSystemMonitor.KeepAttempt` | connect-file-pulse-plugin/src/main/java/io/streamthoughts/kafka/connect/filepulse/fs/DefaultFileSystemMonitor.java:396-430 | One pass of the do-while's body: an `Attempt` whose groups, when grouping succeeds, are appended to the partitions and recorded with the scheduled view and iteration order they are the groups of, and the attempt counted; on an error nothing is appended. |
| `FileSystemMonitor.DefaultFileSystemMonitor.RunAttempts` | connect-file-pulse-plugin/src/main/java/io/streamthoughts/kafka/connect/filepulse/fs/DefaultFileSystemMonitor.java:396-444 | At most three attempts; every attempt before the last retried, and when the last one ends normally `changed` is set iff it retried too, which only the third may do. The returned groups are all attempts' groups in order, and each attempt's groups are those of a scheduled view read in some iteration order (`GroupsOfView`), the last such view being the final scheduled view. The completed queue grows by exactly the records completed during the attempts made (`CompletedDuring`) and the snapshot is that of the last refresh that reached the end of the log (`SnapshotAfter`). A non-positive `maxGroups` raises at the first attempt. |
| `FileSystemMonitor.DefaultFileSystemMonitor.ScheduleAttempts` | connect-file-pulse-plugin/src/main/java/io/streamthoughts/kafka/connect/filepulse/fs/DefaultFileSystemMonitor.java:391-445 | The attempts of `RunAttempts`, with the same per-attempt groups, queue and snapshot; all attempts' groups are returned when one ends without a retry, the final scheduled view being the last grouped one; after a retry in the third attempt the scheduled view is cleared and no group is returned; a non-positive group count raises before any group is kept. |
| `FileSystemMonitor.DefaultFileSystemMonitor.ScheduleScanned` | connect-file-pulse-plugin/src/main/java/io/streamthoughts/kafka/connect/filepulse/fs/DefaultFileSystemMonitor.java:377-455 | Once running: ends with the scanned view empty and no reconfiguration pending; returns nothing and changes no other view when nothing was scanned; otherwise has the outcome of `ScheduleAttempts`: the retry rule of `Retried`, each attempt's groups tied to its scheduled view, the queue and snapshot the attempts leave (`CompletedDuring`, `SnapshotAfter`), the give-up after a third retry and an error for a non-positive `maxGroups`. |
| `FileSystemMonitor.DefaultFileSystemMonitor.PartitionFilesAndGet` | connect-file-pulse-plugin/src/main/java/io/streamthoughts/kafka/connect/filepulse/fs/DefaultFileSystemMonitor.java:366-456 | The first call only sets running and returns no groups, touching nothing else; every later call ends with the scanned view empty and no reconfiguration pending, returns nothing when nothing was scanned, and otherwise has the outcome of `ScheduleAttempts`: the retry rule of `Retried`, each attempt's groups tied to its scheduled view, the queue and snapshot the attempts leave (`CompletedDuring`, `SnapshotAfter`), the give-up after a third retry, and an error for a non-positive `maxGroups`. |
| `FileSystemMonitor.DefaultFileSystemMonitor.Close` | connect-file-pulse-plugin/src/main/java/io/streamthoughts/kafka/connect/filepulse/fs/DefaultFileSystemMonitor.java:462-473 | Only a running monitor does anything: one read to the end of the log and one cleanup pass; afterwards it is not running. |

## Left out

- Concurrency: `synchronized`, the atomics and the `wait`/`notifyAll` handshake. Each operation is atomic. The bounded wait for a first scan in `partitionFilesAndGet` proceeds with whatever the scanned view holds.
- Store notifications that arrive during a scheduling attempt are applied at one point, the attempt's refresh. They are not interleaved with the copy and grouping steps.
- The refreshes inside `updateFiles` (DefaultFileSystemMonitor.java:264), `close` (:466) and the constructor (:179) deliver no notifications in the model; a caller interleaves `Deliver` between operations instead. In the constructor the source's order differs: notifications delivered during the first read reach the queue before recovery appends its records, and the model does not reproduce that order.
- Clock reads: `now` is a parameter, and `updateFiles` uses one `now` for both of its clock reads.
- Store I/O: `refresh`, `snapshot`, `start`/`isStarted` and `putAsync`. These become a success flag, a snapshot value, and an append-only log of writes.
- `fsListing.listObjects()`: the listing is a parameter. `offsetPolicy.toPartitionJson` is a function parameter `keyOf`.
- The cleanup policy `cleaner.apply`: its verdicts are a parameter, one per drained record in drain order.
- Exceptions from collaborators other than the refresh timeout: the model assumes `cleaner.apply`, `putAsync`, the listing and the key function never throw. This hides that `cleanUpCompletedFiles` drains the queue before calling `cleaner.apply`, so a throwing policy loses the drained batch. `invoke` would then fail before the scan, and `close` would swallow the exception.
- The constructor's `instanceof` dispatch on the cleaner type: only the batch form is modelled.
- `ConnectorUtils.groupPartitions` is outside this repository. `Grouping.GroupPartitions` is a stand-in that keeps its contract (`numGroups` contiguous groups that concatenate to the input; a non-positive count raises). Its split is the ceiling-first split of `Grouping.Chunks`, but its balancing is not stated.
- Logging and message formatting, including the duplicate report of `toScheduled`.
- The Java comparator `BY_LAST_MODIFIED` is modelled as a stable insertion sort on `lastModified`. Only sortedness and permutation are stated.
- FileSystemMonitor.DefaultFileSystemMonitor.Attempt: its contract does not restate the notification effects or the copy step; `Refresh` and `CopyScanned` state those, and `Attempt` keeps only what the retry loop needs.
- FileSystemMonitor.DefaultFileSystemMonitor.ScheduleAttempts: does not state which entries each attempt's scheduled view holds (the earlier entries not cleaned, plus the scanned entries copied under the cap). Each attempt's groups are stated against its view, and `Refresh` and `CopyScanned` state how one attempt builds that view.
- FileSystemMonitor.DefaultFileSystemMonitor.RunAttempts: does not state which entries each attempt's scheduled view holds, for the same reason.
- FileSystemMonitor.DefaultFileSystemMonitor.KeepAttempt: does not state which entries the recorded scheduled view holds, for the same reason.
- FileSystemMonitor.DefaultFileSystemMonitor.ScheduleScanned: does not state which entries each attempt's scheduled view holds, for the same reason.
- FileSystemMonitor.DefaultFileSystemMonitor.PartitionFilesAndGet: does not state which entries each attempt's scheduled view holds, for the same reason.
- FileSystemMonitor.DefaultFileSystemMonitor.PartitionFilesAndGet: the scheduling request needs exactly three rounds of store behaviour as input. Unused rounds are ignored.
- Records drained for cleanup are assumed to carry a key, as the listener and recovery always attach one; `fileObject.key().get()` therefore never fails in the model.
