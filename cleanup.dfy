/** The outcome of one cleanup pass over a drained batch of completed records
    (`cleanUpCompletedFiles` of DefaultFileSystemMonitor). */
module Cleanup {
  import opened Types

  /** The records the policy failed to clean, in batch order: they go back on the queue. */
  function Postponed(batch: seq<FileObject>, results: seq<CleanupResult>): (r: seq<FileObject>)
    requires |results| == |batch|
    ensures AllKeyed(batch) ==> AllKeyed(r)
  {
    if batch == [] then []
    else
      var n := |batch| - 1;
      Postponed(batch[..n], results[..n]) + (if results[n] == Succeed then [] else [batch[n]])
  }

  /** The records the policy cleaned, in batch order. */
  function Succeeded(batch: seq<FileObject>, results: seq<CleanupResult>): (r: seq<FileObject>)
    requires |results| == |batch|
    ensures AllKeyed(batch) ==> AllKeyed(r)
  {
    if batch == [] then []
    else
      var n := |batch| - 1;
      Succeeded(batch[..n], results[..n]) + (if results[n] == Succeed then [batch[n]] else [])
  }

  /** The CLEANED writes for cleaned records: each record, stored under its own key with
      its status replaced by CLEANED. */
  function CleanedWrites(recs: seq<FileObject>): (w: seq<Write>)
    requires AllKeyed(recs)
    ensures |w| == |recs|
    ensures forall i :: 0 <= i < |w| ==>
              w[i].key == recs[i].key.value && w[i].obj == recs[i].WithStatus(Cleaned)
  {
    if recs == [] then []
    else
      var n := |recs| - 1;
      CleanedWrites(recs[..n]) + [Write(recs[n].key.value, recs[n].WithStatus(Cleaned))]
  }

  /** One more verdict extends each outcome by the record it concerns, if any, and the
      CLEANED writes by that record's write when it was cleaned. */
  lemma CleanupStep(batch: seq<FileObject>, results: seq<CleanupResult>, i: nat)
    requires AllKeyed(batch) && |results| == |batch| && i < |batch|
    ensures Postponed(batch[..i + 1], results[..i + 1]) ==
              Postponed(batch[..i], results[..i]) + (if results[i] == Succeed then [] else [batch[i]])
    ensures Succeeded(batch[..i + 1], results[..i + 1]) ==
              Succeeded(batch[..i], results[..i]) + (if results[i] == Succeed then [batch[i]] else [])
    ensures AllKeyed(Succeeded(batch[..i + 1], results[..i + 1]))
    ensures CleanedWrites(Succeeded(batch[..i + 1], results[..i + 1])) ==
              CleanedWrites(Succeeded(batch[..i], results[..i])) +
              (if results[i] == Succeed then [Write(batch[i].key.value, batch[i].WithStatus(Cleaned))] else [])
  {
    assert batch[..i + 1][..i] == batch[..i];
    assert results[..i + 1][..i] == results[..i];
    assert AllKeyed(batch[..i + 1]);
    var s0 := Succeeded(batch[..i], results[..i]);
    if results[i] == Succeed {
      assert (s0 + [batch[i]])[..|s0|] == s0;
    } else {
      assert s0 + [] == s0;
    }
  }

  /** No record is lost or invented: the postponed and the cleaned records together are
      exactly the drained batch. */
  lemma {:induction false} CleanupConserves(batch: seq<FileObject>, results: seq<CleanupResult>)
    requires |results| == |batch|
    ensures multiset(Postponed(batch, results)) + multiset(Succeeded(batch, results)) == multiset(batch)
  {
    if batch != [] {
      var n := |batch| - 1;
      var p0, s0 := Postponed(batch[..n], results[..n]), Succeeded(batch[..n], results[..n]);
      CleanupConserves(batch[..n], results[..n]);
      assert batch == batch[..n] + [batch[n]];
      assert multiset(batch) == multiset(batch[..n]) + multiset{batch[n]};
      if results[n] == Succeed {
        assert Succeeded(batch, results) == s0 + [batch[n]];
        assert Postponed(batch, results) == p0 + [];
      } else {
        assert Postponed(batch, results) == p0 + [batch[n]];
        assert Succeeded(batch, results) == s0 + [];
      }
    }
  }

  /** One CLEANED write per SUCCEED verdict and one re-queued record per other verdict. */
  lemma {:induction false} CleanupCounts(batch: seq<FileObject>, results: seq<CleanupResult>)
    requires |results| == |batch|
    ensures |Succeeded(batch, results)| == multiset(results)[Succeed]
    ensures |Postponed(batch, results)| == multiset(results)[Fail]
  {
    if batch != [] {
      var n := |batch| - 1;
      CleanupCounts(batch[..n], results[..n]);
      assert results == results[..n] + [results[n]];
    }
  }
}
