/** The scheduling engine DefaultFileSystemMonitor as a sequential state machine: each of
    its operations, and each store notification, runs atomically on the object's state. */
module FileSystemMonitor {
  import opened Types
  import opened Scan
  import opened Listener
  import opened Cleanup
  import opened Grouping

  /** How many preparations a scheduling request tries before it gives up. */
  const MaxScheduleAttempts: nat := 3

  /** What the state store does during one scheduling attempt's refresh: whether the
      refresh reached the end of the log in time, the snapshot it then exposes, and the
      notifications it delivers meanwhile, in log order. */
  datatype Round = Round(refreshed: bool, snapshot: Snapshot, events: seq<Event>)

  /** The deadline for a task reconfiguration: fixed on first need as `now + timeout`
      in `long` arithmetic, then kept until a scan is published. */
  function Deadline(nextAllowed: int, now: int, timeoutMs: int): int
  {
    if nextAllowed == -1 then WrapLong(now + timeoutMs) else nextAllowed
  }

  /** The time still to wait before the deadline, in `long` arithmetic, never negative. */
  function Remaining(deadline: int, now: int): int
  {
    Max(0, WrapLong(deadline - now))
  }

  /** What one scan does once the listing is admitted (`updateFiles`). */
  datatype Gate =
    | Locked          // tasks busy and reconfiguration never allowed: nothing is read
    | Stale           // no tasks busy but the state log could not be read to its end
    | NothingNew      // tasks busy and every admitted key is already scheduled
    | Wait(deadline: int)  // tasks busy, new keys, deadline not reached yet
    | Merge           // the admitted files join the scanned view

  /** The decision of `updateFiles` from the monitor's state and the scan's inputs. */
  function ScanGate(busy: bool, allow: int, nextAllowed: int, refreshed: bool,
                    found: set<Key>, scheduledKeys: set<Key>, now: int): Gate
  {
    if busy && allow == LongMax then Locked
    else if !busy && !refreshed then Stale
    else if !busy then Merge
    else if found <= scheduledKeys then NothingNew
    else
      var deadline := Deadline(nextAllowed, now, allow);
      if Remaining(deadline, now) > 0 then Wait(deadline) else Merge
  }

  /** The scan is skipped while tasks are busy and reconfiguration is never allowed, when
      the log is stale and no task is busy, and while tasks are busy and nothing new is
      found; with no task busy and the log read, it always merges. It only waits while
      tasks are busy and something new was found, keeping a deadline once fixed, and with
      tasks busy it merges only once the deadline has passed. */
  lemma ScanGateOutcomes(busy: bool, allow: int, nextAllowed: int, refreshed: bool,
                         found: set<Key>, scheduledKeys: set<Key>, now: int)
    ensures var g := ScanGate(busy, allow, nextAllowed, refreshed, found, scheduledKeys, now);
            && (busy && allow == LongMax ==> g == Locked)
            && (!busy && !refreshed ==> g == Stale)
            && (busy && allow != LongMax && found <= scheduledKeys ==> g == NothingNew)
            && (!busy && refreshed ==> g == Merge)
            && (g.Wait? ==> busy && !(found <= scheduledKeys)
                            && (nextAllowed != -1 ==> g.deadline == nextAllowed))
            && (g.Merge? && busy ==> !(found <= scheduledKeys))
            && (g.Merge? && busy && nextAllowed != -1 && IsLong(nextAllowed - now) ==> nextAllowed <= now)
  {
  }

  /** The first time new files wait behind busy tasks, the deadline is `now` plus the
      configured timeout (when that sum fits a `long`), and a positive timeout makes the
      scan wait. */
  lemma FirstWaitDeadline(allow: int, refreshed: bool, found: set<Key>, scheduledKeys: set<Key>, now: int)
    requires IsLong(allow) && allow != LongMax && !(found <= scheduledKeys) && IsLong(now + allow)
    ensures var g := ScanGate(true, allow, -1, refreshed, found, scheduledKeys, now);
            allow > 0 ==> g == Wait(now + allow)
    ensures var g := ScanGate(true, allow, -1, refreshed, found, scheduledKeys, now);
            allow <= 0 ==> g == Merge
  {
    assert Deadline(-1, now, allow) == now + allow;
    assert Remaining(now + allow, now) == Max(0, allow) by {
      assert WrapLong(now + allow - now) == allow;
    }
  }

  /** `base` after `put(k, m[k])` for each key of `ks`, in order. */
  function PutAll(base: map<Key, Meta>, m: map<Key, Meta>, ks: seq<Key>): map<Key, Meta>
    requires forall k :: k in ks ==> k in m
  {
    if ks == [] then base else PutAll(base, m, ks[..|ks| - 1])[ks[|ks| - 1] := m[ks[|ks| - 1]]]
  }

  /** Putting entries keeps every existing key, adds exactly the put keys, and each put key
      maps to its entry in `m`; untouched keys keep their value. */
  lemma {:induction false} PutAllEntries(base: map<Key, Meta>, m: map<Key, Meta>, ks: seq<Key>)
    requires forall k :: k in ks ==> k in m
    ensures var r := PutAll(base, m, ks);
            && (forall k :: k in r <==> k in base || k in ks)
            && (forall k :: k in ks ==> r[k] == m[k])
            && (forall k :: k in base && k !in ks ==> r[k] == base[k])
  {
    if ks != [] {
      PutAllEntries(base, m, ks[..|ks| - 1]);
      assert forall k :: k in ks <==> k in ks[..|ks| - 1] || k == ks[|ks| - 1];
    }
  }

  /** Putting every entry of `m` is `putAll`: the result is `base` overridden by `m`. */
  lemma PutAllEverything(base: map<Key, Meta>, m: map<Key, Meta>, ks: seq<Key>)
    requires Enumerates(ks, m)
    ensures PutAll(base, m, ks) == base + m
  {
    PutAllEntries(base, m, ks);
  }

  /** `groups` are the groups of the view `m` read in the iteration order `order`. */
  ghost predicate GroupsOfView(m: map<Key, Meta>, order: seq<Key>, maxGroups: int, groups: seq<seq<Uri>>)
  {
    Enumerates(order, m) && GroupsOf(m, order, maxGroups) == Ok(groups)
  }

  /** The group lists of successive attempts, one after the other. */
  function Concat(batches: seq<seq<seq<Uri>>>): seq<seq<Uri>>
  {
    if batches == [] then [] else Concat(batches[..|batches| - 1]) + batches[|batches| - 1]
  }

  lemma ConcatAppend(batches: seq<seq<seq<Uri>>>, groups: seq<seq<Uri>>)
    ensures Concat(batches + [groups]) == Concat(batches) + groups
  {
    assert (batches + [groups])[..|batches|] == batches;
  }

  /** The keys of the scanned view at the start of attempt `i` of a scheduling request that
      started with the keys `s0`: each earlier attempt's notifications withdrew their
      completed keys. */
  function ScannedBefore(s0: set<Key>, fam: Families, rounds: seq<Round>, i: nat): set<Key>
    requires i <= |rounds|
  {
    if i == 0 then s0 else ScannedBefore(s0, fam, rounds, i - 1) - CompletedKeys(fam, rounds[i - 1].events)
  }

  /** `keys` are the scanned keys at the start of attempt `i`. */
  predicate ScannedAt(keys: set<Key>, s0: set<Key>, fam: Families, rounds: seq<Round>, i: nat)
    requires i <= |rounds|
  {
    keys == ScannedBefore(s0, fam, rounds, i)
  }

  /** Attempt `i` sets `changed`, and so asks for another attempt: one of its notifications
      completed a key that was still scanned. */
  predicate Retried(s0: set<Key>, fam: Families, rounds: seq<Round>, i: nat)
    requires i < |rounds|
  {
    CompletedKeys(fam, rounds[i].events) * ScannedBefore(s0, fam, rounds, i) != {}
  }

  /** One attempt's notifications take the scanned keys of its start to those of the next
      attempt's start, and it retries exactly when they completed one of those keys. */
  lemma ScannedStep(s0: set<Key>, fam: Families, rounds: seq<Round>, a: nat,
                    before: set<Key>, after: set<Key>)
    requires a < |rounds| && before == ScannedBefore(s0, fam, rounds, a)
    requires after == before - CompletedKeys(fam, rounds[a].events)
    ensures after == ScannedBefore(s0, fam, rounds, a + 1)
    ensures Retried(s0, fam, rounds, a) <==> CompletedKeys(fam, rounds[a].events) * before != {}
  {
  }

  /** Each of the first `n` attempts asked for another one. */
  predicate RetriedUpTo(s0: set<Key>, fam: Families, rounds: seq<Round>, n: nat)
    requires n <= |rounds|
  {
    n == 0 || (RetriedUpTo(s0, fam, rounds, n - 1) && Retried(s0, fam, rounds, n - 1))
  }

  /** One more attempt that retried extends the run of retried attempts. */
  lemma RetriedStep(s0: set<Key>, fam: Families, rounds: seq<Round>, n: nat)
    requires n < |rounds| && RetriedUpTo(s0, fam, rounds, n) && Retried(s0, fam, rounds, n)
    ensures RetriedUpTo(s0, fam, rounds, n + 1)
  {
  }

  /** `RetriedUpTo` says of every one of the first `n` attempts that it retried. */
  lemma {:induction false} RetriedUpToAll(s0: set<Key>, fam: Families, rounds: seq<Round>, n: nat)
    requires n <= |rounds|
    ensures RetriedUpTo(s0, fam, rounds, n) <==> forall i :: 0 <= i < n ==> Retried(s0, fam, rounds, i)
  {
    if n > 0 {
      RetriedUpToAll(s0, fam, rounds, n - 1);
    }
  }

  /** When no notification completes a file, no attempt retries: a scheduling request then
      stops after its first attempt, with `changed` unset. */
  lemma QuietRoundsNeverRetry(s0: set<Key>, fam: Families, rounds: seq<Round>, n: nat)
    requires n <= |rounds|
    requires forall i :: 0 <= i < |rounds| ==> CompletedKeys(fam, rounds[i].events) == {}
    ensures RetriedUpTo(s0, fam, rounds, n) <==> n == 0
    ensures n < |rounds| ==> !Retried(s0, fam, rounds, n)
  {
    if n > 0 {
      assert !Retried(s0, fam, rounds, n - 1);
    }
  }

  /** The records the notifications of the first `n` attempts queue, attempt by attempt. */
  function CompletedDuring(fam: Families, rounds: seq<Round>, n: nat): seq<FileObject>
    requires n <= |rounds|
  {
    if n == 0 then [] else CompletedDuring(fam, rounds, n - 1) + CompletedRecords(fam, rounds[n - 1].events)
  }

  /** `q` is the completed queue after `i` attempts of a request that started with `q0`. */
  predicate QueuedAt(q: seq<FileObject>, q0: seq<FileObject>, fam: Families, rounds: seq<Round>, i: nat)
    requires i <= |rounds|
  {
    q == q0 + CompletedDuring(fam, rounds, i)
  }

  /** One more attempt appends its notifications' records to the queue. */
  lemma QueuedStep(q: seq<FileObject>, q0: seq<FileObject>, fam: Families, rounds: seq<Round>, a: nat)
    requires a < |rounds| && QueuedAt(q, q0, fam, rounds, a)
    ensures QueuedAt(q + CompletedRecords(fam, rounds[a].events), q0, fam, rounds, a + 1)
  {
    assert q0 + CompletedDuring(fam, rounds, a) + CompletedRecords(fam, rounds[a].events)
        == q0 + (CompletedDuring(fam, rounds, a) + CompletedRecords(fam, rounds[a].events));
  }

  /** When no notification completes a file, the attempts queue nothing. */
  lemma {:induction false} QuietRoundsQueueNothing(fam: Families, rounds: seq<Round>, n: nat)
    requires n <= |rounds|
    requires forall i :: 0 <= i < |rounds| ==> CompletedKeys(fam, rounds[i].events) == {}
    ensures CompletedDuring(fam, rounds, n) == []
  {
    if n > 0 {
      QuietRoundsQueueNothing(fam, rounds, n - 1);
      CompletedRecordsKeys(fam, rounds[n - 1].events);
    }
  }

  /** The snapshot held after the refreshes of the first `n` attempts of a request that
      started with `fs0`. */
  function SnapshotAfter(fs0: Option<Snapshot>, rounds: seq<Round>, n: nat): Option<Snapshot>
    requires n <= |rounds|
  {
    if n == 0 then fs0
    else if rounds[n - 1].refreshed then Some(rounds[n - 1].snapshot)
    else SnapshotAfter(fs0, rounds, n - 1)
  }

  /** `fs` is the snapshot held after `i` attempts of a request that started with `fs0`. */
  predicate HeldAt(fs: Option<Snapshot>, fs0: Option<Snapshot>, rounds: seq<Round>, i: nat)
    requires i <= |rounds|
  {
    fs == SnapshotAfter(fs0, rounds, i)
  }

  /** One more attempt's refresh replaces the snapshot when it reached the end of the log. */
  lemma HeldStep(fs: Option<Snapshot>, fs0: Option<Snapshot>, rounds: seq<Round>, a: nat)
    requires a < |rounds| && HeldAt(fs, fs0, rounds, a)
    ensures HeldAt(if rounds[a].refreshed then Some(rounds[a].snapshot) else fs, fs0, rounds, a + 1)
  {
  }

  /** After `n` attempts the snapshot is that of the last refresh among them that reached
      the end of the log, and the one held before when none did. */
  lemma {:induction false} SnapshotAfterLast(fs0: Option<Snapshot>, rounds: seq<Round>, n: nat)
    requires n <= |rounds|
    ensures (forall i :: 0 <= i < n ==> !rounds[i].refreshed) ==> SnapshotAfter(fs0, rounds, n) == fs0
    ensures forall j :: 0 <= j < n && rounds[j].refreshed && (forall i :: j < i < n ==> !rounds[i].refreshed) ==>
              SnapshotAfter(fs0, rounds, n) == Some(rounds[j].snapshot)
  {
    if n > 0 {
      SnapshotAfterLast(fs0, rounds, n - 1);
      if !rounds[n - 1].refreshed {
        forall j | 0 <= j < n && rounds[j].refreshed && (forall i :: j < i < n ==> !rounds[i].refreshed)
          ensures SnapshotAfter(fs0, rounds, n) == Some(rounds[j].snapshot)
        {
          assert j < n - 1;
        }
      }
    }
  }

  /** One attempt hands out between one and `maxGroups` groups, and exactly `maxGroups`
      when its view holds at least that many files. */
  lemma GroupsOfViewCount(m: map<Key, Meta>, order: seq<Key>, maxGroups: int, groups: seq<seq<Uri>>)
    requires GroupsOfView(m, order, maxGroups, groups)
    ensures 1 <= |groups| <= maxGroups
    ensures |m| >= maxGroups ==> |groups| == maxGroups
  {
    GroupsCoverScheduled(m, order, maxGroups);
  }

  /** Group lists of between `lo` and `hi` groups each concatenate to between `lo` and `hi`
      groups per list. */
  lemma {:induction false} ConcatLength(batches: seq<seq<seq<Uri>>>, lo: int, hi: int)
    requires forall i :: 0 <= i < |batches| ==> lo <= |batches[i]| <= hi
    ensures |batches| * lo <= |Concat(batches)| <= |batches| * hi
  {
    if batches != [] {
      var n := |batches| - 1;
      ConcatLength(batches[..n], lo, hi);
      assert |Concat(batches)| == |Concat(batches[..n])| + |batches[n]|;
      assert |batches| * lo == n * lo + lo && |batches| * hi == n * hi + hi;
    }
  }

  /** Each attempt hands out between one and `maxGroups` groups, so a request hands out at
      most `maxGroups` groups per attempt, and exactly that many when every view it grouped
      held at least `maxGroups` files: a request that retried can hand out more groups than
      `maxGroups`. */
  lemma GroupCountBound(views: seq<map<Key, Meta>>, orders: seq<seq<Key>>,
                        maxGroups: int, batches: seq<seq<seq<Uri>>>)
    requires |views| == |orders| == |batches|
    requires forall i :: 0 <= i < |batches| ==> GroupsOfView(views[i], orders[i], maxGroups, batches[i])
    ensures forall i :: 0 <= i < |batches| ==> 1 <= |batches[i]| <= maxGroups
    ensures |batches| <= |Concat(batches)| <= |batches| * maxGroups
    ensures (forall i :: 0 <= i < |batches| ==> |views[i]| >= maxGroups) ==>
              |Concat(batches)| == |batches| * maxGroups
  {
    forall i | 0 <= i < |batches|
      ensures 1 <= |batches[i]| <= maxGroups
      ensures |views[i]| >= maxGroups ==> |batches[i]| == maxGroups
    {
      GroupsOfViewCount(views[i], orders[i], maxGroups, batches[i]);
    }
    ConcatLength(batches, 1, maxGroups);
    if forall i :: 0 <= i < |batches| ==> |views[i]| >= maxGroups {
      ConcatLength(batches, maxGroups, maxGroups);
    }
  }

  /** The completed-family records of a snapshot, each keyed, read in the order `ks`. */
  function Recovered(states: Snapshot, ks: seq<Key>, fam: Families): (r: seq<FileObject>)
    requires forall k :: k in ks ==> k in states
    ensures AllKeyed(r)
  {
    if ks == [] then []
    else
      var n := |ks| - 1;
      var obj := states[ks[n]].WithKey(ks[n]);
      Recovered(states, ks[..n], fam) + (if obj.status in fam.completed then [obj] else [])
  }

  /** Some record in the queue `q` carries the key `k`. */
  ghost predicate Queued(q: seq<FileObject>, k: Key)
  {
    exists i :: 0 <= i < |q| && q[i].key == Some(k)
  }

  /** Recovery queues, exactly once each, the record of every key whose stored status is
      in the completed family, keyed by that key; and nothing else. */
  lemma {:induction false} RecoveredExactly(states: Snapshot, ks: seq<Key>, fam: Families)
    requires forall k :: k in ks ==> k in states
    requires forall i, j :: 0 <= i < j < |ks| ==> ks[i] != ks[j]
    ensures var r := Recovered(states, ks, fam);
            && (forall k :: k in ks && states[k].status in fam.completed ==> Queued(r, k))
            && (forall i :: 0 <= i < |r| ==>
                  && r[i].key.value in ks
                  && r[i] == states[r[i].key.value].WithKey(r[i].key.value)
                  && r[i].status in fam.completed)
            && (forall i, j :: 0 <= i < j < |r| ==> r[i].key != r[j].key)
  {
    if ks != [] {
      var n := |ks| - 1;
      var r0 := Recovered(states, ks[..n], fam);
      RecoveredExactly(states, ks[..n], fam);
      assert ks[n] !in ks[..n];
      assert ks == ks[..n] + [ks[n]];
      var r := Recovered(states, ks, fam);
      var obj := states[ks[n]].WithKey(ks[n]);
      assert r == r0 + (if obj.status in fam.completed then [obj] else []);
      forall k | k in ks && states[k].status in fam.completed
        ensures Queued(r, k)
      {
        if k == ks[n] {
          assert r[|r0|].key == Some(k);
        } else {
          assert k in ks[..n] && Queued(r0, k);
          var i :| 0 <= i < |r0| && r0[i].key == Some(k);
          assert r[i] == r0[i];
        }
      }
      forall i | 0 <= i < |r|
        ensures && r[i].key.value in ks
                && r[i] == states[r[i].key.value].WithKey(r[i].key.value)
                && r[i].status in fam.completed
      {
        if i < |r0| {
          assert r[i] == r0[i];
          assert r0[i].key.value in ks[..n];
        }
      }
      forall i, j | 0 <= i < j < |r|
        ensures r[i].key != r[j].key
      {
        if j == |r0| {
          assert r[i] == r0[i] && r0[i].key.value in ks[..n];
        } else {
          assert r[i] == r0[i] && r[j] == r0[j];
        }
      }
    }
  }

  class DefaultFileSystemMonitor {
    /** How long new files may wait for running ones before a reconfiguration; the value
        `Long.MAX_VALUE` means waiting until all scheduled files are done. */
    const allowTasksReconfigurationAfterTimeoutMs: int
    /** The offset policy's partition key for a file's metadata. */
    const keyOf: Meta -> Key
    const families: Families

    /** Files handed out to tasks. */
    var scheduled: map<Key, Meta>
    /** Files found by the last admitted scan, waiting to be handed out. */
    var scanned: map<Key, Meta>
    /** Completed records waiting for cleanup, in arrival order. */
    var completed: seq<FileObject>
    /** The last snapshot read to the end of the state log; None until one was read. */
    var fileState: Option<Snapshot>
    var nextAllowedTasksReconfiguration: int
    var taskReconfigurationRequested: bool
    var running: bool
    var changed: bool
    /** Every `putAsync` issued to the state store, in order. */
    var writes: seq<Write>

    ghost predicate Valid()
      reads this`nextAllowedTasksReconfiguration, this`completed
    {
      && IsLong(allowTasksReconfigurationAfterTimeoutMs)
      && IsLong(nextAllowedTasksReconfiguration)
      && AllKeyed(completed)
    }

    /** The views that store notifications act on. */
    function Tracking(): Tracked
      reads this`scheduled, this`scanned, this`completed, this`changed
    {
      Tracked(scheduled, scanned, completed, changed)
    }

    /** Sets up empty views and reads the state log to its end once. */
    constructor (allowAfterTimeoutMs: int, keyOf: Meta -> Key, families: Families,
                 startRefreshed: bool, startSnapshot: Snapshot)
      requires IsLong(allowAfterTimeoutMs)
      ensures Valid()
      ensures allowTasksReconfigurationAfterTimeoutMs == allowAfterTimeoutMs
      ensures this.keyOf == keyOf && this.families == families
      ensures scheduled == map[] && scanned == map[] && completed == [] && writes == []
      ensures nextAllowedTasksReconfiguration == -1
      ensures !taskReconfigurationRequested && !running && !changed
      ensures fileState == if startRefreshed then Some(startSnapshot) else None
    {
      allowTasksReconfigurationAfterTimeoutMs := allowAfterTimeoutMs;
      this.keyOf := keyOf;
      this.families := families;
      scheduled, scanned, completed, writes := map[], map[], [], [];
      nextAllowedTasksReconfiguration := -1;
      taskReconfigurationRequested, running, changed := false, false, false;
      fileState := if startRefreshed then Some(startSnapshot) else None;
    }

    /** The whole construction: when the first read of the state log times out there is no
        snapshot and recovery fails on it; otherwise the completed records of the snapshot
        are queued for cleanup. */
    static method Create(allowAfterTimeoutMs: int, keyOf: Meta -> Key, families: Families,
                         startRefreshed: bool, startSnapshot: Snapshot)
      returns (r: Outcome<DefaultFileSystemMonitor>)
      requires IsLong(allowAfterTimeoutMs)
      ensures r.Ok? <==> startRefreshed
      ensures r.Ok? ==>
                && fresh(r.value) && r.value.Valid()
                && r.value.scheduled == map[] && r.value.scanned == map[] && r.value.writes == []
                && !r.value.running && !r.value.taskReconfigurationRequested
                && r.value.fileState == Some(startSnapshot)
                && r.value.nextAllowedTasksReconfiguration == -1 && !r.value.changed
                && r.value.keyOf == keyOf && r.value.families == families
                && r.value.allowTasksReconfigurationAfterTimeoutMs == allowAfterTimeoutMs
                && exists ks :: Enumerates(ks, startSnapshot) &&
                                r.value.completed == Recovered(startSnapshot, ks, families)
    {
      var m := new DefaultFileSystemMonitor(allowAfterTimeoutMs, keyOf, families, startRefreshed, startSnapshot);
      if m.fileState.None? {
        return Err("fileState is null: no states snapshot to recover from");
      }
      ghost var ks := m.RecoverPreviouslyCompletedSources();
      r := Ok(m);
    }

    /** Queues every completed-family record of the last snapshot, keyed, in the map's
        iteration order. */
    method RecoverPreviouslyCompletedSources() returns (ghost order: seq<Key>)
      requires Valid() && fileState.Some?
      modifies this`completed
      ensures Valid()
      ensures Enumerates(order, fileState.value)
      ensures completed == old(completed) + Recovered(fileState.value, order, families)
    {
      var states := fileState.value;
      var ks := KeysInSomeOrder(states);
      order := ks;
      for i := 0 to |ks|
        invariant Valid()
        invariant completed == old(completed) + Recovered(states, ks[..i], families)
      {
        assert ks[..i + 1][..i] == ks[..i];
        var obj := states[ks[i]].WithKey(ks[i]);
        if obj.status in families.completed {
          completed := completed + [obj];
        }
      }
      assert ks[..|ks|] == ks;
    }

    /** Refreshes to the end of the state log; on a timeout the previous snapshot stays. */
    method ReadStatesToEnd(refreshed: bool, snapshot: Snapshot) returns (toEnd: bool)
      modifies this`fileState
      ensures toEnd == refreshed
      ensures fileState == if refreshed then Some(snapshot) else old(fileState)
    {
      if refreshed {
        fileState := Some(snapshot);
      }
      toEnd := refreshed;
    }

    /** The listener's onStateUpdate. */
    method OnStateUpdate(key: Key, obj: FileObject)
      requires Valid()
      modifies this`scheduled, this`scanned, this`completed, this`changed
      ensures Valid()
      ensures Tracking() == Notify(old(Tracking()), families, Update(key, obj))
    {
      if obj.status in families.completed {
        completed := completed + [obj.WithKey(key)];
        if key in scanned {
          scanned := scanned - {key};
          changed := true;
        }
      } else if obj.status == Cleaned {
        // A key missing from the scheduled view is only reported.
        scheduled := scheduled - {key};
      }
    }

    /** The listener's onStateRemove: ignored. */
    method OnStateRemove(key: Key)
      ensures Tracking() == Notify(old(Tracking()), families, Remove(key))
    {
    }

    /** Delivers store notifications one by one, in log order. */
    method Deliver(events: seq<Event>)
      requires Valid()
      modifies this`scheduled, this`scanned, this`completed, this`changed
      ensures Valid()
      ensures Tracking() == NotifyAll(old(Tracking()), families, events)
    {
      for i := 0 to |events|
        invariant Valid()
        invariant Tracking() == NotifyAll(old(Tracking()), families, events[..i])
      {
        assert events[..i + 1][..i] == events[..i];
        match events[i]
        case Update(key, obj) => OnStateUpdate(key, obj);
        case Remove(key) => OnStateRemove(key);
      }
      assert events[..|events|] == events;
    }

    /** The walk over a drained batch: each success yields a CLEANED write, each failure
        is kept for re-queueing, both in batch order. */
    static method CleanBatch(batch: seq<FileObject>, results: seq<CleanupResult>)
      returns (requeued: seq<FileObject>, cleaned: seq<Write>)
      requires AllKeyed(batch) && |results| == |batch|
      ensures requeued == Postponed(batch, results)
      ensures cleaned == CleanedWrites(Succeeded(batch, results))
    {
      requeued, cleaned := [], [];
      for i := 0 to |batch|
        invariant requeued == Postponed(batch[..i], results[..i])
        invariant AllKeyed(Succeeded(batch[..i], results[..i]))
        invariant cleaned == CleanedWrites(Succeeded(batch[..i], results[..i]))
      {
        CleanupStep(batch, results, i);
        var obj := batch[i];
        if results[i] == Succeed {
          cleaned := cleaned + [Write(obj.key.value, obj.WithStatus(Cleaned))];
        } else {
          requeued := requeued + [obj];
        }
      }
      assert batch[..|batch|] == batch;
      assert results[..|results|] == results;
    }

    /** Drains the completed queue, hands the batch to the cleanup policy whose verdicts are
        `results`, writes CLEANED for every success and re-queues every failure. */
    method CleanUpCompletedFiles(results: seq<CleanupResult>)
      requires Valid() && |results| == |completed|
      modifies this`completed, this`writes
      ensures Valid()
      ensures completed == Postponed(old(completed), results)
      ensures writes == old(writes) + CleanedWrites(Succeeded(old(completed), results))
    {
      if completed == [] {
        return;
      }
      var cleanable := completed;
      completed := [];
      var requeued, cleaned := CleanBatch(cleanable, results);
      completed := completed + requeued;
      writes := writes + cleaned;
    }

    /** Scan and publish (`updateFiles`): lists the files, admits them against the store's
        snapshot, and merges them into the scanned view unless tasks are still busy and the
        reconfiguration must wait. Returns whether a task reconfiguration should be asked. */
    method UpdateFiles(refreshed: bool, snapshot: Snapshot, listing: seq<Meta>, now: int)
      returns (publish: bool)
      requires Valid() && IsLong(now)
      modifies this`fileState, this`scanned, this`nextAllowedTasksReconfiguration
      ensures Valid()
      ensures var found := ToScheduled(listing, keyOf, snapshot, families);
              var gate := ScanGate(scheduled != map[], allowTasksReconfigurationAfterTimeoutMs,
                                   old(nextAllowedTasksReconfiguration), refreshed, found.Keys,
                                   scheduled.Keys, now);
              && fileState == (if gate.Locked? || !refreshed then old(fileState) else Some(snapshot))
              && scanned == (if gate.Merge? then old(scanned) + found else old(scanned))
              && nextAllowedTasksReconfiguration == (
                   match gate
                   case Wait(deadline) => deadline
                   case Merge => -1
                   case _ => old(nextAllowedTasksReconfiguration))
              && publish == (gate.Merge? && scanned != map[] && running)
    {
      ghost var found0 := ToScheduled(listing, keyOf, snapshot, families);
      ghost var gate := ScanGate(scheduled != map[], allowTasksReconfigurationAfterTimeoutMs,
                                 nextAllowedTasksReconfiguration, refreshed, found0.Keys,
                                 scheduled.Keys, now);
      var noScheduledFiles := scheduled == map[];
      if !noScheduledFiles && allowTasksReconfigurationAfterTimeoutMs == LongMax {
        assert gate.Locked?;
        return false;
      }
      var toEnd := ReadStatesToEnd(refreshed, snapshot);
      if noScheduledFiles && !toEnd {
        assert gate.Stale?;
        return false;
      }
      var found := ToScheduled(listing, keyOf, snapshot, families);
      if !noScheduledFiles {
        if found.Keys <= scheduled.Keys {
          assert gate.NothingNew?;
          return false;
        }
        // The deadline is fixed on first need and kept until a scan is merged.
        var deadline := Deadline(nextAllowedTasksReconfiguration, now, allowTasksReconfigurationAfterTimeoutMs);
        nextAllowedTasksReconfiguration := deadline;
        var timeout := Remaining(deadline, now);
        if timeout > 0 {
          assert gate == Wait(deadline);
          return false;
        }
      }
      assert gate.Merge?;
      nextAllowedTasksReconfiguration := -1;
      scanned := scanned + found;
      publish := scanned != map[] && running;
    }

    /** The periodic tick (`invoke`): cleanup always, then, while running and with no
        reconfiguration pending, a scan; asks for a reconfiguration when it publishes. */
    method Invoke(results: seq<CleanupResult>, refreshed: bool, snapshot: Snapshot,
                  listing: seq<Meta>, now: int)
      returns (requested: bool)
      requires Valid() && IsLong(now) && |results| == |completed|
      modifies this`completed, this`writes, this`fileState, this`scanned,
               this`nextAllowedTasksReconfiguration, this`taskReconfigurationRequested
      ensures Valid()
      ensures completed == Postponed(old(completed), results)
      ensures writes == old(writes) + CleanedWrites(Succeeded(old(completed), results))
      ensures !running || old(taskReconfigurationRequested) ==>
                && !requested && scanned == old(scanned) && fileState == old(fileState)
                && nextAllowedTasksReconfiguration == old(nextAllowedTasksReconfiguration)
      ensures running && !old(taskReconfigurationRequested) ==>
                var found := ToScheduled(listing, keyOf, snapshot, families);
                var gate := ScanGate(scheduled != map[], allowTasksReconfigurationAfterTimeoutMs,
                                     old(nextAllowedTasksReconfiguration), refreshed, found.Keys,
                                     scheduled.Keys, now);
                && fileState == (if gate.Locked? || !refreshed then old(fileState) else Some(snapshot))
                && scanned == (if gate.Merge? then old(scanned) + found else old(scanned))
                && nextAllowedTasksReconfiguration == (
                     match gate
                     case Wait(deadline) => deadline
                     case Merge => -1
                     case _ => old(nextAllowedTasksReconfiguration))
                && requested == (gate.Merge? && scanned != map[])
      ensures taskReconfigurationRequested == (old(taskReconfigurationRequested) || requested)
    {
      CleanUpCompletedFiles(results);
      requested := false;
      if running {
        if !taskReconfigurationRequested {
          ghost var found := ToScheduled(listing, keyOf, snapshot, families);
          ghost var gate := ScanGate(scheduled != map[], allowTasksReconfigurationAfterTimeoutMs,
                                     nextAllowedTasksReconfiguration, refreshed, found.Keys,
                                     scheduled.Keys, now);
          ghost var before := scanned;
          ghost var fileStateBefore := fileState;
          ghost var deadlineBefore := nextAllowedTasksReconfiguration;
          var publish := UpdateFiles(refreshed, snapshot, listing, now);
          assert fileState == (if gate.Locked? || !refreshed then fileStateBefore else Some(snapshot));
          assert scanned == (if gate.Merge? then before + found else before);
          assert nextAllowedTasksReconfiguration == (
                   match gate
                   case Wait(deadline) => deadline
                   case Merge => -1
                   case _ => deadlineBefore);
          assert publish == (gate.Merge? && scanned != map[]);
          if publish {
            taskReconfigurationRequested := true;
            requested := true;
          }
        }
      }
    }

    /** The capped copy loop: walks `it` (an iteration over the scanned view) putting
        each entry into the scheduled view while that view is below the cap, and returns
        how many entries it put. */
    method CopyWhileBelowCap(it: seq<Key>, cap: int) returns (n: nat)
      requires forall k :: k in it ==> k in scanned
      modifies this`scheduled
      ensures n <= |it|
      ensures scheduled == PutAll(old(scheduled), scanned, it[..n])
      ensures n < |it| ==> |scheduled| >= cap
      ensures forall j :: 0 <= j < n ==> |PutAll(old(scheduled), scanned, it[..j])| < cap
      ensures n > 0 ==> |old(scheduled)| < cap
      ensures |old(scheduled)| < cap ==> |scheduled| <= cap
    {
      n := 0;
      while |scheduled| < cap && n < |it|
        invariant n <= |it|
        invariant scheduled == PutAll(old(scheduled), scanned, it[..n])
        invariant forall j :: 0 <= j < n ==> |PutAll(old(scheduled), scanned, it[..j])| < cap
        invariant n > 0 ==> |old(scheduled)| < cap
        invariant |old(scheduled)| < cap ==> |scheduled| <= cap
      {
        assert it[..n + 1][..n] == it[..n];
        scheduled := scheduled[it[n] := scanned[it[n]]];
        n := n + 1;
      }
    }

    /** The copy step of a scheduling attempt: everything scanned when it fits under the
        cap, otherwise entries in the map's iteration order `order` while the scheduled view
        is below the cap; the first `n` of them are taken over. */
    method CopyScanned(maxFilesToSchedule: int) returns (ghost order: seq<Key>, ghost n: nat)
      modifies this`scheduled
      ensures Enumerates(order, scanned) && n <= |order|
      ensures |scanned| <= maxFilesToSchedule ==> scheduled == old(scheduled) + scanned
      ensures |scanned| > maxFilesToSchedule ==>
                && scheduled == PutAll(old(scheduled), scanned, order[..n])
                && (n < |order| ==> |scheduled| >= maxFilesToSchedule)
                && (forall j :: 0 <= j < n ==>
                      |PutAll(old(scheduled), scanned, order[..j])| < maxFilesToSchedule)
                && (n > 0 ==> |old(scheduled)| < maxFilesToSchedule)
                && (|old(scheduled)| < maxFilesToSchedule ==> |scheduled| <= maxFilesToSchedule)
    {
      var it := KeysInSomeOrder(scanned);
      order, n := it, 0;
      if |scanned| <= maxFilesToSchedule {
        scheduled := scheduled + scanned;
      } else {
        n := CopyWhileBelowCap(it, maxFilesToSchedule);
      }
    }

    /** The grouping step of a scheduling attempt: the scheduled metadata, read in the map's
        iteration order, sorted by modification time, and split into
        min(|scheduled|, maxGroups) groups of URIs. */
    method PrepareBatch(maxGroups: int) returns (groups: Outcome<seq<seq<Uri>>>, ghost order: seq<Key>)
      ensures Enumerates(order, scheduled)
      ensures groups == GroupsOf(scheduled, order, maxGroups)
      ensures groups.Ok? <==> |scheduled| > 0 && maxGroups > 0
      ensures groups.Ok? ==> |groups.value| == Min(|scheduled|, maxGroups)
    {
      var ks := KeysInSomeOrder(scheduled);
      order := ks;
      var sources := ValuesAt(scheduled, ks);
      sources := SortByModified(sources);
      var numGroups := Min(|scheduled|, maxGroups);
      groups := GroupPartitions(Uris(sources), numGroups);
      GroupsCoverScheduled(scheduled, ks, maxGroups);
    }

    /** The start of a scheduling attempt: `changed` is cleared and the state is refreshed,
        the store delivering `round.events` meanwhile. */
    method Refresh(round: Round) returns (ghost t: Tracked)
      requires Valid()
      modifies this`scheduled, this`scanned, this`completed, this`changed, this`fileState
      ensures Valid()
      ensures t == NotifyAll(old(Tracking()).(changed := false), families, round.events)
      ensures Tracking() == t
      ensures fileState == if round.refreshed then Some(round.snapshot) else old(fileState)
      ensures changed <==> CompletedKeys(families, round.events) * old(scanned).Keys != {}
      ensures scanned == old(scanned) - CompletedKeys(families, round.events)
      ensures completed == old(completed) + CompletedRecords(families, round.events)
      ensures old(completed) <= completed
    {
      changed := false;
      ghost var before := Tracking();
      // A refresh that times out is only reported.
      var _ := ReadStatesToEnd(round.refreshed, round.snapshot);
      ghost var refreshedState := fileState;
      Deliver(round.events);
      t := Tracking();
      NotifyAllEffect(before, families, round.events);
      assert fileState == refreshedState;
    }

    /** One scheduling attempt (the body of the do-while in `partitionFilesAndGet`):
        refreshes, copies scanned files into the scheduled view under the cap and groups
        that view. The ghost `s0`, `q0`, `fs0`, `rounds` and `a` place it as attempt `a` of
        a request that started with the scanned keys `s0`, the completed queue `q0` and the
        snapshot `fs0`, and meets the store behaviour `rounds`: it takes the scanned keys, the
        queue and the snapshot from those of its start to those of the next attempt's start
        and sets `changed` exactly when it retries. What each step does to the views is the
        contract of Refresh, CopyScanned and PrepareBatch; this one keeps what the retry
        loop relies on. */
    method Attempt(round: Round, maxGroups: int, maxFilesToSchedule: int,
                   ghost s0: set<Key>, ghost q0: seq<FileObject>, ghost fs0: Option<Snapshot>,
                   ghost rounds: seq<Round>, ghost a: nat)
      returns (groups: Outcome<seq<seq<Uri>>>, ghost order: seq<Key>)
      requires Valid()
      requires a < |rounds| && round == rounds[a] && ScannedAt(scanned.Keys, s0, families, rounds, a)
      requires RetriedUpTo(s0, families, rounds, a)
      requires QueuedAt(completed, q0, families, rounds, a) && HeldAt(fileState, fs0, rounds, a)
      modifies this`scheduled, this`scanned, this`completed, this`changed, this`fileState
      ensures Valid()
      ensures fileState == if round.refreshed then Some(round.snapshot) else old(fileState)
      ensures ScannedAt(scanned.Keys, s0, families, rounds, a + 1)
      ensures changed <==> Retried(s0, families, rounds, a)
      ensures changed ==> RetriedUpTo(s0, families, rounds, a + 1)
      ensures QueuedAt(completed, q0, families, rounds, a + 1) && HeldAt(fileState, fs0, rounds, a + 1)
      ensures old(completed) <= completed
      ensures Enumerates(order, scheduled) && groups == GroupsOf(scheduled, order, maxGroups)
      ensures groups.Ok? ==> GroupsOfView(scheduled, order, maxGroups, groups.value)
      ensures groups.Ok? ==> |groups.value| > 0
      ensures groups.Err? ==> Min(|scheduled|, maxGroups) <= 0
      ensures maxGroups <= 0 ==> groups.Err?
    {
      ghost var before, queued, held := scanned.Keys, completed, fileState;
      ghost var _ := Refresh(round);
      ScannedStep(s0, families, rounds, a, before, scanned.Keys);
      QueuedStep(queued, q0, families, rounds, a);
      HeldStep(held, fs0, rounds, a);
      if changed {
        RetriedStep(s0, families, rounds, a);
      }
      ghost var refreshedState, refreshedQueue := fileState, completed;
      ghost var _, _ := CopyScanned(maxFilesToSchedule);
      groups, order := PrepareBatch(maxGroups);
      assert fileState == refreshedState && completed == refreshedQueue;
    }

    /** One pass of the do-while's body: an Attempt whose groups, when it succeeds, are
        added to `partitions`, with the attempt counted. The ghost `batches`, `views` and
        `orders` record, attempt by attempt, the groups added, the scheduled view they are
        the groups of and the iteration order it was read in. */
    method KeepAttempt(maxGroups: int, maxFilesToSchedule: int, rounds: seq<Round>,
                       ghost s0: set<Key>, ghost q0: seq<FileObject>, ghost fs0: Option<Snapshot>,
                       attempts: nat, partitions: seq<seq<Uri>>, ghost batches: seq<seq<seq<Uri>>>,
                       ghost views: seq<map<Key, Meta>>, ghost orders: seq<seq<Key>>)
      returns (groups: Outcome<seq<seq<Uri>>>, nextAttempts: nat, nextPartitions: seq<seq<Uri>>,
               ghost nextBatches: seq<seq<seq<Uri>>>, ghost nextViews: seq<map<Key, Meta>>,
               ghost nextOrders: seq<seq<Key>>)
      requires Valid() && |rounds| == MaxScheduleAttempts && attempts < MaxScheduleAttempts
      requires |batches| == attempts && partitions == Concat(batches) && |views| == |orders| == attempts
      requires forall i {:trigger GroupsOfView(views[i], orders[i], maxGroups, batches[i])} :: 0 <= i < |batches| ==> GroupsOfView(views[i], orders[i], maxGroups, batches[i])
      requires forall i :: 0 <= i < |batches| ==> |batches[i]| > 0
      requires ScannedAt(scanned.Keys, s0, families, rounds, attempts) && RetriedUpTo(s0, families, rounds, attempts)
      requires QueuedAt(completed, q0, families, rounds, attempts) && HeldAt(fileState, fs0, rounds, attempts)
      modifies this`scanned, this`scheduled, this`completed, this`changed, this`fileState
      ensures Valid()
      ensures maxGroups <= 0 ==> groups.Err?
      ensures QueuedAt(completed, q0, families, rounds, attempts + 1) && HeldAt(fileState, fs0, rounds, attempts + 1)
      ensures groups.Err? ==>
                && nextAttempts == attempts && nextPartitions == partitions
                && nextBatches == batches && nextViews == views && nextOrders == orders
                && Min(|scheduled|, maxGroups) <= 0
      ensures groups.Ok? ==> nextAttempts == attempts + 1
      ensures |nextBatches| == nextAttempts && nextPartitions == Concat(nextBatches)
      ensures |nextViews| == |nextOrders| == nextAttempts
      ensures forall i {:trigger GroupsOfView(nextViews[i], nextOrders[i], maxGroups, nextBatches[i])} :: 0 <= i < |nextBatches| ==> GroupsOfView(nextViews[i], nextOrders[i], maxGroups, nextBatches[i])
      ensures forall i :: 0 <= i < |nextBatches| ==> |nextBatches[i]| > 0
      ensures groups.Ok? ==> scheduled == nextViews[nextAttempts - 1]
      ensures groups.Ok? ==> ScannedAt(scanned.Keys, s0, families, rounds, nextAttempts)
      ensures groups.Ok? ==> (changed <==> Retried(s0, families, rounds, attempts))
      ensures groups.Ok? && changed ==> RetriedUpTo(s0, families, rounds, nextAttempts)
    {
      ghost var order: seq<Key>;
      groups, order := Attempt(rounds[attempts], maxGroups, maxFilesToSchedule, s0, q0, fs0, rounds, attempts);
      nextAttempts, nextPartitions := attempts, partitions;
      nextBatches, nextViews, nextOrders := batches, views, orders;
      if groups.Ok? {
        ConcatAppend(batches, groups.value);
        nextPartitions := partitions + groups.value;
        nextBatches := batches + [groups.value];
        nextViews, nextOrders := views + [scheduled], orders + [order];
        nextAttempts := attempts + 1;
      }
    }

    /** The do-while of `partitionFilesAndGet`, entered with files in the scanned view: up
        to three attempts, whose groups are all kept. Another attempt follows exactly when
        the last one's notifications completed a key still in the scanned view, and none
        follows the third. `batches` are the groups of each attempt, `views` the scheduled
        views they grouped and `orders` the iteration orders they read them in; the completed
        queue and the snapshot end as the attempts made leave them. */
    method RunAttempts(maxGroups: int, maxFilesToSchedule: int, rounds: seq<Round>)
      returns (r: Outcome<seq<seq<Uri>>>, ghost batches: seq<seq<seq<Uri>>>,
               ghost views: seq<map<Key, Meta>>, ghost orders: seq<seq<Key>>)
      requires Valid() && |rounds| == MaxScheduleAttempts
      modifies this`scanned, this`scheduled, this`completed, this`changed, this`fileState
      ensures Valid()
      ensures |batches| <= MaxScheduleAttempts
      ensures |views| == |orders| == |batches|
      ensures forall i {:trigger GroupsOfView(views[i], orders[i], maxGroups, batches[i])} :: 0 <= i < |batches| ==> GroupsOfView(views[i], orders[i], maxGroups, batches[i])
      ensures forall i :: 0 <= i < |batches| ==> |batches[i]| > 0
      ensures r.Ok? ==> 1 <= |batches| && r.value == Concat(batches) && scheduled == views[|batches| - 1]
      ensures r.Ok? && changed ==> |batches| == MaxScheduleAttempts
      ensures r.Err? ==> |batches| < MaxScheduleAttempts && Min(|scheduled|, maxGroups) <= 0
      ensures maxGroups <= 0 ==> r.Err? && batches == []
      ensures r.Ok? ==> (changed <==> Retried(old(scanned).Keys, families, rounds, |batches| - 1))
      ensures RetriedUpTo(old(scanned).Keys, families, rounds, if r.Err? then |batches| else |batches| - 1)
      ensures QueuedAt(completed, old(completed), families, rounds, if r.Err? then |batches| + 1 else |batches|)
      ensures HeldAt(fileState, old(fileState), rounds, if r.Err? then |batches| + 1 else |batches|)
      ensures old(completed) <= completed
    {
      ghost var s0, q0, fs0 := scanned.Keys, completed, fileState;
      var partitions: seq<seq<Uri>> := [];
      batches, views, orders := [], [], [];
      var attempts := 0;
      while true
        invariant Valid()
        invariant attempts < MaxScheduleAttempts
        invariant |batches| == attempts && partitions == Concat(batches)
        invariant |views| == |orders| == attempts
        invariant forall i {:trigger GroupsOfView(views[i], orders[i], maxGroups, batches[i])} :: 0 <= i < |batches| ==> GroupsOfView(views[i], orders[i], maxGroups, batches[i])
        invariant forall i :: 0 <= i < |batches| ==> |batches[i]| > 0
        invariant maxGroups <= 0 ==> attempts == 0
        invariant ScannedAt(scanned.Keys, s0, families, rounds, attempts)
        invariant RetriedUpTo(s0, families, rounds, attempts)
        invariant QueuedAt(completed, q0, families, rounds, attempts) && HeldAt(fileState, fs0, rounds, attempts)
        decreases MaxScheduleAttempts - attempts
      {
        var groups;
        groups, attempts, partitions, batches, views, orders :=
          KeepAttempt(maxGroups, maxFilesToSchedule, rounds, s0, q0, fs0, attempts, partitions, batches, views, orders);
        if groups.Err? {
          // groupPartitions rejects a non-positive group count.
          r := groups;
          return;
        }
        if !changed || attempts == MaxScheduleAttempts {
          r := Ok(partitions);
          return;
        }
      }
    }

    /** The attempts of RunAttempts, followed by giving up when notifications still changed
        the scanned view during the third: the scheduled view is then cleared and nothing
        is handed out. */
    method ScheduleAttempts(maxGroups: int, maxFilesToSchedule: int, rounds: seq<Round>)
      returns (r: Outcome<seq<seq<Uri>>>, ghost batches: seq<seq<seq<Uri>>>,
               ghost views: seq<map<Key, Meta>>, ghost orders: seq<seq<Key>>)
      requires Valid() && |rounds| == MaxScheduleAttempts
      modifies this`scanned, this`scheduled, this`completed, this`changed, this`fileState
      ensures Valid()
      ensures |batches| <= MaxScheduleAttempts
      ensures |views| == |orders| == |batches|
      ensures forall i {:trigger GroupsOfView(views[i], orders[i], maxGroups, batches[i])} :: 0 <= i < |batches| ==> GroupsOfView(views[i], orders[i], maxGroups, batches[i])
      ensures forall i :: 0 <= i < |batches| ==> |batches[i]| > 0
      ensures r.Ok? && changed ==>
                |batches| == MaxScheduleAttempts && r.value == [] && scheduled == map[]
      ensures r.Ok? && !changed ==>
                && 1 <= |batches| && r.value == Concat(batches) && scheduled == views[|batches| - 1]
      ensures r.Err? ==> |batches| < MaxScheduleAttempts && Min(|scheduled|, maxGroups) <= 0
      ensures maxGroups <= 0 ==> r.Err? && batches == []
      ensures r.Ok? ==> 1 <= |batches| && (changed <==> Retried(old(scanned).Keys, families, rounds, |batches| - 1))
      ensures RetriedUpTo(old(scanned).Keys, families, rounds, if r.Err? then |batches| else |batches| - 1)
      ensures QueuedAt(completed, old(completed), families, rounds, if r.Err? then |batches| + 1 else |batches|)
      ensures HeldAt(fileState, old(fileState), rounds, if r.Err? then |batches| + 1 else |batches|)
      ensures old(completed) <= completed
    {
      r, batches, views, orders := RunAttempts(maxGroups, maxFilesToSchedule, rounds);
      if r.Ok? && changed {
        // Given up: the scheduled view is cleared and no group is handed out.
        scheduled := map[];
        r := Ok([]);
      }
    }

    /** The try block of `partitionFilesAndGet` with its finally part, once the monitor is
        running: the attempts of ScheduleAttempts when the scanned view holds files, then
        the scanned view emptied and the pending reconfiguration cleared. */
    method ScheduleScanned(maxGroups: int, maxFilesToSchedule: int, rounds: seq<Round>)
      returns (r: Outcome<seq<seq<Uri>>>, ghost batches: seq<seq<seq<Uri>>>,
               ghost views: seq<map<Key, Meta>>, ghost orders: seq<seq<Key>>)
      requires Valid() && |rounds| == MaxScheduleAttempts
      modifies this`scanned, this`scheduled, this`completed, this`changed,
               this`fileState, this`taskReconfigurationRequested
      ensures Valid()
      ensures scanned == map[] && !taskReconfigurationRequested
      ensures old(scanned) == map[] ==>
                && r == Ok([]) && batches == []
                && scheduled == old(scheduled) && completed == old(completed)
                && changed == old(changed) && fileState == old(fileState)
      ensures |batches| <= MaxScheduleAttempts
      ensures |views| == |orders| == |batches|
      ensures forall i {:trigger GroupsOfView(views[i], orders[i], maxGroups, batches[i])} :: 0 <= i < |batches| ==> GroupsOfView(views[i], orders[i], maxGroups, batches[i])
      ensures forall i :: 0 <= i < |batches| ==> |batches[i]| > 0
      ensures old(scanned) != map[] && r.Ok? ==> 1 <= |batches|
      ensures old(scanned) != map[] && r.Ok? && changed ==>
                |batches| == MaxScheduleAttempts && r.value == [] && scheduled == map[]
      ensures old(scanned) != map[] && r.Ok? && !changed ==>
                && r.value == Concat(batches) && scheduled == views[|batches| - 1]
      ensures r.Err? ==>
                && old(scanned) != map[] && |batches| < MaxScheduleAttempts
                && Min(|scheduled|, maxGroups) <= 0
      ensures old(scanned) != map[] && maxGroups <= 0 ==> r.Err? && batches == []
      ensures old(scanned) != map[] && r.Ok? ==>
                (changed <==> Retried(old(scanned).Keys, families, rounds, |batches| - 1))
      ensures old(scanned) != map[] ==>
                RetriedUpTo(old(scanned).Keys, families, rounds, if r.Err? then |batches| else |batches| - 1)
      ensures old(scanned) != map[] ==>
                && QueuedAt(completed, old(completed), families, rounds, if r.Err? then |batches| + 1 else |batches|)
                && HeldAt(fileState, old(fileState), rounds, if r.Err? then |batches| + 1 else |batches|)
      ensures old(completed) <= completed
    {
      // The bounded wait for a first scan ends with whatever the scanned view holds.
      if scanned != map[] {
        r, batches, views, orders := ScheduleAttempts(maxGroups, maxFilesToSchedule, rounds);
      } else {
        r, batches, views, orders := Ok([]), [], [], [];
      }
      // The finally part.
      scanned := map[];
      taskReconfigurationRequested := false;
    }

    /** The scheduling request (`partitionFilesAndGet`). The first call only switches to
        running and returns no groups, leaving everything else as it was. Every later call
        is ScheduleScanned. */
    method PartitionFilesAndGet(maxGroups: int, maxFilesToSchedule: int, rounds: seq<Round>)
      returns (r: Outcome<seq<seq<Uri>>>, ghost batches: seq<seq<seq<Uri>>>,
               ghost views: seq<map<Key, Meta>>, ghost orders: seq<seq<Key>>)
      requires Valid() && |rounds| == MaxScheduleAttempts
      modifies this`running, this`scanned, this`scheduled, this`completed, this`changed,
               this`fileState, this`taskReconfigurationRequested
      ensures Valid() && running
      ensures !old(running) ==>
                && r == Ok([]) && batches == []
                && scanned == old(scanned) && scheduled == old(scheduled) && completed == old(completed)
                && changed == old(changed) && fileState == old(fileState)
                && taskReconfigurationRequested == old(taskReconfigurationRequested)
      ensures old(running) ==> scanned == map[] && !taskReconfigurationRequested
      ensures old(running) && old(scanned) == map[] ==>
                && r == Ok([]) && batches == []
                && scheduled == old(scheduled) && completed == old(completed)
                && changed == old(changed) && fileState == old(fileState)
      ensures |batches| <= MaxScheduleAttempts
      ensures |views| == |orders| == |batches|
      ensures forall i {:trigger GroupsOfView(views[i], orders[i], maxGroups, batches[i])} :: 0 <= i < |batches| ==> GroupsOfView(views[i], orders[i], maxGroups, batches[i])
      ensures forall i :: 0 <= i < |batches| ==> |batches[i]| > 0
      ensures old(running) && old(scanned) != map[] && r.Ok? ==> 1 <= |batches|
      ensures old(running) && old(scanned) != map[] && r.Ok? && changed ==>
                |batches| == MaxScheduleAttempts && r.value == [] && scheduled == map[]
      ensures old(running) && old(scanned) != map[] && r.Ok? && !changed ==>
                && r.value == Concat(batches) && scheduled == views[|batches| - 1]
      ensures r.Err? ==>
                && old(running) && old(scanned) != map[] && |batches| < MaxScheduleAttempts
                && Min(|scheduled|, maxGroups) <= 0
      ensures old(running) && old(scanned) != map[] && maxGroups <= 0 ==> r.Err? && batches == []
      ensures old(running) && old(scanned) != map[] && r.Ok? ==>
                (changed <==> Retried(old(scanned).Keys, families, rounds, |batches| - 1))
      ensures old(running) && old(scanned) != map[] ==>
                RetriedUpTo(old(scanned).Keys, families, rounds, if r.Err? then |batches| else |batches| - 1)
      ensures old(running) && old(scanned) != map[] ==>
                && QueuedAt(completed, old(completed), families, rounds, if r.Err? then |batches| + 1 else |batches|)
                && HeldAt(fileState, old(fileState), rounds, if r.Err? then |batches| + 1 else |batches|)
      ensures old(completed) <= completed
    {
      if !running {
        // Outside the try block: the finally part does not run on this path.
        running := true;
        return Ok([]), [], [], [];
      }
      r, batches, views, orders := ScheduleScanned(maxGroups, maxFilesToSchedule, rounds);
    }

    /** Shutdown: only the first call on a running monitor does anything — one refresh and
        one final cleanup pass; afterwards the monitor is no longer running. */
    method Close(results: seq<CleanupResult>, refreshed: bool, snapshot: Snapshot)
      requires Valid() && (running ==> |results| == |completed|)
      modifies this`running, this`fileState, this`completed, this`writes
      ensures Valid() && !running
      ensures old(running) ==>
                && fileState == (if refreshed then Some(snapshot) else old(fileState))
                && completed == Postponed(old(completed), results)
                && writes == old(writes) + CleanedWrites(Succeeded(old(completed), results))
      ensures !old(running) ==>
                fileState == old(fileState) && completed == old(completed) && writes == old(writes)
    {
      if running {
        running := false;
        var _ := ReadStatesToEnd(refreshed, snapshot);
        CleanUpCompletedFiles(results);
      }
    }
  }
}
