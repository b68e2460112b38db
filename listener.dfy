/** The effect of the state store's update listener on the monitor's views (the anonymous
    UpdateListener registered by the DefaultFileSystemMonitor constructor). */
module Listener {
  import opened Types

  /** The part of the monitor's state that store notifications touch. */
  datatype Tracked = Tracked(
    scheduled: map<Key, Meta>,
    scanned: map<Key, Meta>,
    completed: seq<FileObject>,
    changed: bool)

  /** A notification whose status belongs to the completed family. */
  predicate Completes(fam: Families, e: Event)
  {
    e.Update? && e.obj.status in fam.completed
  }

  /** A notification carrying CLEANED (and not a completed-family status). */
  predicate Cleans(fam: Families, e: Event)
  {
    e.Update? && e.obj.status !in fam.completed && e.obj.status == Cleaned
  }

  /** One notification. A completed-family update queues the record under its key and
      drops the key from the scanned view, raising `changed` only if the key was there;
      a CLEANED update drops the key from the scheduled view; anything else, and every
      removal, is ignored. */
  function Notify(t: Tracked, fam: Families, e: Event): (r: Tracked)
    ensures Completes(fam, e) ==>
              && r.completed == t.completed + [e.obj.WithKey(e.key)]
              && r.scanned == t.scanned - {e.key}
              && r.scheduled == t.scheduled
              && (r.changed <==> t.changed || e.key in t.scanned)
    ensures Cleans(fam, e) ==> r == t.(scheduled := t.scheduled - {e.key})
    ensures !Completes(fam, e) && !Cleans(fam, e) ==> r == t
    ensures AllKeyed(t.completed) ==> AllKeyed(r.completed)
  {
    match e
    case Remove(_) => t
    case Update(key, obj) =>
      if obj.status in fam.completed then
        Tracked(t.scheduled, t.scanned - {key}, t.completed + [obj.WithKey(key)], t.changed || key in t.scanned)
      else if obj.status == Cleaned then
        t.(scheduled := t.scheduled - {key})
      else
        t
  }

  /** Notifications delivered in the store's log order. */
  function NotifyAll(t: Tracked, fam: Families, es: seq<Event>): Tracked
  {
    if es == [] then t else Notify(NotifyAll(t, fam, es[..|es| - 1]), fam, es[|es| - 1])
  }

  /** Keys of the completed-family notifications. */
  function CompletedKeys(fam: Families, es: seq<Event>): set<Key>
  {
    if es == [] then {}
    else CompletedKeys(fam, es[..|es| - 1]) + (if Completes(fam, es[|es| - 1]) then {es[|es| - 1].key} else {})
  }

  /** Keys of the CLEANED notifications. */
  function CleanedKeys(fam: Families, es: seq<Event>): set<Key>
  {
    if es == [] then {}
    else CleanedKeys(fam, es[..|es| - 1]) + (if Cleans(fam, es[|es| - 1]) then {es[|es| - 1].key} else {})
  }

  /** The keyed records of the completed-family notifications, in delivery order. */
  function CompletedRecords(fam: Families, es: seq<Event>): (r: seq<FileObject>)
    ensures AllKeyed(r)
  {
    if es == [] then []
    else
      var e := es[|es| - 1];
      CompletedRecords(fam, es[..|es| - 1]) + (if Completes(fam, e) then [e.obj.WithKey(e.key)] else [])
  }

  /** The scanned view loses exactly the keys of the completed-family notifications. */
  lemma {:induction false} NotifyAllScanned(t: Tracked, fam: Families, es: seq<Event>)
    ensures NotifyAll(t, fam, es).scanned == t.scanned - CompletedKeys(fam, es)
  {
    if es != [] {
      var init, e := es[..|es| - 1], es[|es| - 1];
      NotifyAllScanned(t, fam, init);
      if Completes(fam, e) {
        assert CompletedKeys(fam, es) == CompletedKeys(fam, init) + {e.key};
        assert t.scanned - CompletedKeys(fam, init) - {e.key} == t.scanned - CompletedKeys(fam, es);
      } else {
        assert CompletedKeys(fam, es) == CompletedKeys(fam, init);
      }
    }
  }

  /** The scheduled view loses exactly the keys of the CLEANED notifications. */
  lemma {:induction false} NotifyAllScheduled(t: Tracked, fam: Families, es: seq<Event>)
    ensures NotifyAll(t, fam, es).scheduled == t.scheduled - CleanedKeys(fam, es)
  {
    if es != [] {
      var init, e := es[..|es| - 1], es[|es| - 1];
      NotifyAllScheduled(t, fam, init);
      if Cleans(fam, e) {
        assert CleanedKeys(fam, es) == CleanedKeys(fam, init) + {e.key};
        assert t.scheduled - CleanedKeys(fam, init) - {e.key} == t.scheduled - CleanedKeys(fam, es);
      } else {
        assert CleanedKeys(fam, es) == CleanedKeys(fam, init);
      }
    }
  }

  /** The completed queue grows by exactly the completed records, in delivery order. */
  lemma {:induction false} NotifyAllCompleted(t: Tracked, fam: Families, es: seq<Event>)
    ensures NotifyAll(t, fam, es).completed == t.completed + CompletedRecords(fam, es)
  {
    if es != [] {
      var init, e := es[..|es| - 1], es[|es| - 1];
      NotifyAllCompleted(t, fam, init);
      if Completes(fam, e) {
        assert t.completed + CompletedRecords(fam, init) + [e.obj.WithKey(e.key)]
            == t.completed + (CompletedRecords(fam, init) + [e.obj.WithKey(e.key)]);
      } else {
        assert CompletedRecords(fam, es) == CompletedRecords(fam, init) + [];
      }
    }
  }

  /** Notifications queue records exactly when they complete some key, and each queued
      record carries one of the completed keys. */
  lemma {:induction false} CompletedRecordsKeys(fam: Families, es: seq<Event>)
    ensures CompletedRecords(fam, es) == [] <==> CompletedKeys(fam, es) == {}
    ensures forall i :: 0 <= i < |CompletedRecords(fam, es)| ==>
              CompletedRecords(fam, es)[i].key.value in CompletedKeys(fam, es)
  {
    if es != [] {
      var init, e := es[..|es| - 1], es[|es| - 1];
      CompletedRecordsKeys(fam, init);
      if Completes(fam, e) {
        assert e.key in CompletedKeys(fam, es);
        assert CompletedRecords(fam, es)[|CompletedRecords(fam, es)| - 1].key == Some(e.key);
      } else {
        assert CompletedRecords(fam, es) == CompletedRecords(fam, init);
      }
    }
  }

  /** `changed` ends set iff it was set already or some completed key was in the scanned
      view at the start. */
  lemma {:induction false} NotifyAllChanged(t: Tracked, fam: Families, es: seq<Event>)
    ensures NotifyAll(t, fam, es).changed <==> t.changed || CompletedKeys(fam, es) * t.scanned.Keys != {}
  {
    if es != [] {
      var init, e := es[..|es| - 1], es[|es| - 1];
      NotifyAllChanged(t, fam, init);
      NotifyAllScanned(t, fam, init);
      var r0 := NotifyAll(t, fam, init);
      if Completes(fam, e) {
        assert CompletedKeys(fam, es) == CompletedKeys(fam, init) + {e.key};
        assert e.key in r0.scanned <==> e.key in t.scanned && e.key !in CompletedKeys(fam, init);
        if e.key in t.scanned {
          assert e.key in CompletedKeys(fam, es) * t.scanned.Keys;
        }
      } else {
        assert CompletedKeys(fam, es) == CompletedKeys(fam, init);
      }
    }
  }

  /** The whole effect of a run of notifications: scanned loses exactly the completed keys,
      scheduled loses exactly the cleaned keys, the completed queue grows by exactly the
      completed records in order, and `changed` ends set iff it was set already or some
      completed key was present in the scanned view at the start. */
  lemma NotifyAllEffect(t: Tracked, fam: Families, es: seq<Event>)
    ensures var r := NotifyAll(t, fam, es);
            && r.scanned == t.scanned - CompletedKeys(fam, es)
            && r.scheduled == t.scheduled - CleanedKeys(fam, es)
            && r.completed == t.completed + CompletedRecords(fam, es)
            && (r.changed <==> t.changed || CompletedKeys(fam, es) * t.scanned.Keys != {})
  {
    NotifyAllScanned(t, fam, es);
    NotifyAllScheduled(t, fam, es);
    NotifyAllCompleted(t, fam, es);
    NotifyAllChanged(t, fam, es);
  }

  /** Notifications keep every queued record keyed. */
  lemma {:induction false} NotifyAllKeyed(t: Tracked, fam: Families, es: seq<Event>)
    requires AllKeyed(t.completed)
    ensures AllKeyed(NotifyAll(t, fam, es).completed)
  {
    if es != [] {
      NotifyAllKeyed(t, fam, es[..|es| - 1]);
    }
  }
}
