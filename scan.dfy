/** Scan admission and fail-closed deduplication of a listing against a store snapshot
    (`maybeScheduled` and `toScheduled` of DefaultFileSystemMonitor). */
module Scan {
  import opened Types

  /** A key may be scheduled when the snapshot has no record for it, or its record is
      still in one of the started statuses. */
  predicate MaybeScheduled(snapshot: Snapshot, fam: Families, key: Key)
  {
    key !in snapshot || snapshot[key].status in fam.started
  }

  /** The listing, in listing order, paired with partition keys and filtered by
      MaybeScheduled. */
  function Candidates(listing: seq<Meta>, keyOf: Meta -> Key, snapshot: Snapshot, fam: Families)
    : (c: seq<(Key, Meta)>)
    ensures |c| <= |listing|
    ensures forall i :: 0 <= i < |c| ==>
              c[i].0 == keyOf(c[i].1) && MaybeScheduled(snapshot, fam, c[i].0) && c[i].1 in listing
  {
    if listing == [] then []
    else
      var m := listing[0];
      var rest := Candidates(listing[1..], keyOf, snapshot, fam);
      if MaybeScheduled(snapshot, fam, keyOf(m)) then [(keyOf(m), m)] + rest else rest
  }

  /** The size of the group of pairs sharing key `k` (groupingBy on the key). */
  function Occurrences(c: seq<(Key, Meta)>, k: Key): nat
  {
    if c == [] then 0
    else (if c[0].0 == k then 1 else 0) + Occurrences(c[1..], k)
  }

  /** The keys whose group holds more than one pair. */
  function DuplicateKeys(c: seq<(Key, Meta)>): set<Key>
  {
    set p | p in c && Occurrences(c, p.0) > 1 :: p.0
  }

  /** Collectors.toMap over pairs known to have distinct keys. */
  function ToMap(c: seq<(Key, Meta)>): map<Key, Meta>
  {
    if c == [] then map[] else ToMap(c[1..])[c[0].0 := c[0].1]
  }

  ghost predicate KeysDistinct(c: seq<(Key, Meta)>)
  {
    forall i, j :: 0 <= i < j < |c| ==> c[i].0 != c[j].0
  }

  /** No two listed items that pass the admission filter share a partition key. */
  ghost predicate AdmittedKeysUnique(listing: seq<Meta>, keyOf: Meta -> Key, snapshot: Snapshot, fam: Families)
  {
    forall i, j :: 0 <= i < j < |listing| && keyOf(listing[i]) == keyOf(listing[j]) ==>
      !MaybeScheduled(snapshot, fam, keyOf(listing[i]))
  }

  /** toScheduled: the key-to-metadata map of the admitted listed items, or the empty map
      as soon as two admitted items share a key. */
  function ToScheduled(listing: seq<Meta>, keyOf: Meta -> Key, snapshot: Snapshot, fam: Families)
    : (r: map<Key, Meta>)
    ensures var c := Candidates(listing, keyOf, snapshot, fam);
            !KeysDistinct(c) ==> r == map[]
    ensures var c := Candidates(listing, keyOf, snapshot, fam);
            KeysDistinct(c) ==>
              && (forall i :: 0 <= i < |c| ==> c[i].0 in r && r[c[i].0] == c[i].1)
              && (forall k :: k in r ==> exists i :: 0 <= i < |c| && c[i].0 == k)
  {
    var c := Candidates(listing, keyOf, snapshot, fam);
    DuplicateKeysEmptyIff(c);
    ToMapOfDistinct(c);
    if DuplicateKeys(c) != {} then map[] else ToMap(c)
  }

  lemma {:induction false} OccurrencesZero(c: seq<(Key, Meta)>, k: Key)
    ensures Occurrences(c, k) == 0 <==> forall i :: 0 <= i < |c| ==> c[i].0 != k
  {
    if c != [] {
      OccurrencesZero(c[1..], k);
      assert forall i :: 1 <= i < |c| ==> c[i] == c[1..][i - 1];
    }
  }

  lemma {:induction false} OccurrencesTwo(c: seq<(Key, Meta)>, i: nat, j: nat)
    requires i < j < |c| && c[i].0 == c[j].0
    ensures Occurrences(c, c[i].0) >= 2
  {
    if i == 0 {
      OccurrencesZero(c[1..], c[0].0);
      assert c[1..][j - 1] == c[j];
    } else {
      assert c[1..][i - 1] == c[i] && c[1..][j - 1] == c[j];
      OccurrencesTwo(c[1..], i - 1, j - 1);
    }
  }

  lemma {:induction false} OccurrencesAtMostOne(c: seq<(Key, Meta)>, k: Key)
    requires KeysDistinct(c)
    ensures Occurrences(c, k) <= 1
  {
    if c != [] {
      assert KeysDistinct(c[1..]) by {
        forall i, j | 0 <= i < j < |c[1..]| ensures c[1..][i].0 != c[1..][j].0 {
          assert c[1..][i] == c[i + 1] && c[1..][j] == c[j + 1];
        }
      }
      OccurrencesAtMostOne(c[1..], k);
      if c[0].0 == k {
        OccurrencesZero(c[1..], k);
        forall i | 0 <= i < |c[1..]| ensures c[1..][i].0 != k {
          assert c[1..][i] == c[i + 1];
        }
      }
    }
  }

  /** The duplicate check finds nothing exactly when all keys are distinct. */
  lemma DuplicateKeysEmptyIff(c: seq<(Key, Meta)>)
    ensures DuplicateKeys(c) == {} <==> KeysDistinct(c)
  {
    if KeysDistinct(c) {
      forall p | p in c ensures Occurrences(c, p.0) <= 1 {
        OccurrencesAtMostOne(c, p.0);
      }
    } else {
      var i, j :| 0 <= i < j < |c| && c[i].0 == c[j].0;
      OccurrencesTwo(c, i, j);
      assert c[i].0 in DuplicateKeys(c);
    }
  }

  lemma {:induction false} ToMapOfDistinct(c: seq<(Key, Meta)>)
    ensures forall k :: k in ToMap(c) ==> exists i :: 0 <= i < |c| && c[i].0 == k
    ensures KeysDistinct(c) ==> forall i :: 0 <= i < |c| ==> c[i].0 in ToMap(c) && ToMap(c)[c[i].0] == c[i].1
  {
    if c != [] {
      ToMapOfDistinct(c[1..]);
      forall k | k in ToMap(c) ensures exists i :: 0 <= i < |c| && c[i].0 == k {
        if k != c[0].0 {
          assert k in ToMap(c[1..]);
          var i :| 0 <= i < |c[1..]| && c[1..][i].0 == k;
          assert c[i + 1].0 == k;
        }
      }
      if KeysDistinct(c) {
        assert KeysDistinct(c[1..]) by {
          forall i, j | 0 <= i < j < |c[1..]| ensures c[1..][i].0 != c[1..][j].0 {
            assert c[1..][i] == c[i + 1] && c[1..][j] == c[j + 1];
          }
        }
        forall i | 0 <= i < |c| ensures c[i].0 in ToMap(c) && ToMap(c)[c[i].0] == c[i].1 {
          if i > 0 {
            assert c[1..][i - 1] == c[i];
          }
        }
      }
    }
  }

  /** Every admissible listed item has a pair among the candidates. */
  lemma {:induction false} CandidateOf(listing: seq<Meta>, keyOf: Meta -> Key, snapshot: Snapshot, fam: Families, j: nat)
    requires j < |listing| && MaybeScheduled(snapshot, fam, keyOf(listing[j]))
    ensures (keyOf(listing[j]), listing[j]) in Candidates(listing, keyOf, snapshot, fam)
  {
    if j > 0 {
      assert listing[1..][j - 1] == listing[j];
      CandidateOf(listing[1..], keyOf, snapshot, fam, j - 1);
    }
  }

  lemma HeadKeyFresh(c: seq<(Key, Meta)>, ct: seq<(Key, Meta)>)
    requires KeysDistinct(c) && |c| == |ct| + 1 && c[1..] == ct
    ensures forall q :: q in ct ==> q.0 != c[0].0
  {
    forall q | q in ct ensures q.0 != c[0].0 {
      var k :| 0 <= k < |ct| && ct[k] == q;
      assert c[k + 1] == q;
    }
  }

  /** Distinct candidate keys imply unique keys among admitted listed items. */
  lemma {:induction false} DistinctCandidatesUnique(listing: seq<Meta>, keyOf: Meta -> Key, snapshot: Snapshot, fam: Families)
    requires KeysDistinct(Candidates(listing, keyOf, snapshot, fam))
    ensures AdmittedKeysUnique(listing, keyOf, snapshot, fam)
  {
    if listing != [] {
      var t := listing[1..];
      var c := Candidates(listing, keyOf, snapshot, fam);
      var ct := Candidates(t, keyOf, snapshot, fam);
      var admitted := MaybeScheduled(snapshot, fam, keyOf(listing[0]));
      assert c == if admitted then [(keyOf(listing[0]), listing[0])] + ct else ct;
      assert KeysDistinct(ct) by {
        if admitted {
          forall i, j | 0 <= i < j < |ct| ensures ct[i].0 != ct[j].0 {
            assert ct[i] == c[i + 1] && ct[j] == c[j + 1];
          }
        }
      }
      DistinctCandidatesUnique(t, keyOf, snapshot, fam);
      forall i, j | 0 <= i < j < |listing| && keyOf(listing[i]) == keyOf(listing[j])
        ensures !MaybeScheduled(snapshot, fam, keyOf(listing[i]))
      {
        assert listing[j] == t[j - 1];
        if i > 0 {
          assert listing[i] == t[i - 1];
        } else if admitted {
          CandidateOf(t, keyOf, snapshot, fam, j - 1);
          HeadKeyFresh(c, ct);
          assert false;
        }
      }
    }
  }

  /** Unique keys among admitted listed items imply distinct candidate keys. */
  lemma {:induction false} UniqueCandidatesDistinct(listing: seq<Meta>, keyOf: Meta -> Key, snapshot: Snapshot, fam: Families)
    requires AdmittedKeysUnique(listing, keyOf, snapshot, fam)
    ensures KeysDistinct(Candidates(listing, keyOf, snapshot, fam))
  {
    if listing != [] {
      var t := listing[1..];
      var c := Candidates(listing, keyOf, snapshot, fam);
      var ct := Candidates(t, keyOf, snapshot, fam);
      var admitted := MaybeScheduled(snapshot, fam, keyOf(listing[0]));
      assert c == if admitted then [(keyOf(listing[0]), listing[0])] + ct else ct;
      assert AdmittedKeysUnique(t, keyOf, snapshot, fam) by {
        forall i, j | 0 <= i < j < |t| && keyOf(t[i]) == keyOf(t[j])
          ensures !MaybeScheduled(snapshot, fam, keyOf(t[i]))
        {
          assert t[i] == listing[i + 1] && t[j] == listing[j + 1];
        }
      }
      UniqueCandidatesDistinct(t, keyOf, snapshot, fam);
      if admitted {
        forall i, j | 0 <= i < j < |c| ensures c[i].0 != c[j].0 {
          assert c[j] == ct[j - 1];
          if i == 0 {
            var m := ct[j - 1].1;
            var jj :| 0 <= jj < |t| && t[jj] == m;
            assert listing[jj + 1] == m;
          } else {
            assert c[i] == ct[i - 1];
          }
        }
      }
    }
  }

  /** With unique admitted keys, the scan result holds exactly the admitted items: a
      listed item's key is present iff the snapshot allows scheduling it, and then it is
      mapped to that item; every key present comes from an admitted listed item. */
  lemma ToScheduledAdmits(listing: seq<Meta>, keyOf: Meta -> Key, snapshot: Snapshot, fam: Families)
    requires AdmittedKeysUnique(listing, keyOf, snapshot, fam)
    ensures var r := ToScheduled(listing, keyOf, snapshot, fam);
            && (forall j :: 0 <= j < |listing| ==>
                  (keyOf(listing[j]) in r <==> MaybeScheduled(snapshot, fam, keyOf(listing[j]))))
            && (forall j :: 0 <= j < |listing| && MaybeScheduled(snapshot, fam, keyOf(listing[j])) ==>
                  r[keyOf(listing[j])] == listing[j])
            && (forall k :: k in r ==>
                  MaybeScheduled(snapshot, fam, k) && r[k] in listing && keyOf(r[k]) == k)
  {
    var c := Candidates(listing, keyOf, snapshot, fam);
    var r := ToScheduled(listing, keyOf, snapshot, fam);
    UniqueCandidatesDistinct(listing, keyOf, snapshot, fam);
    forall j | 0 <= j < |listing| && MaybeScheduled(snapshot, fam, keyOf(listing[j]))
      ensures keyOf(listing[j]) in r && r[keyOf(listing[j])] == listing[j]
    {
      CandidateOf(listing, keyOf, snapshot, fam, j);
    }
    forall k | k in r ensures MaybeScheduled(snapshot, fam, k) && r[k] in listing && keyOf(r[k]) == k {
      var i :| 0 <= i < |c| && c[i].0 == k;
    }
  }

  /** Fail-closed: two listed positions that both pass the filter with the same key (the
      same metadata listed twice included) make the whole scan empty. */
  lemma ToScheduledRejectsDuplicates(listing: seq<Meta>, keyOf: Meta -> Key, snapshot: Snapshot, fam: Families,
                                     i: nat, j: nat)
    requires i < j < |listing| && keyOf(listing[i]) == keyOf(listing[j])
    requires MaybeScheduled(snapshot, fam, keyOf(listing[i]))
    ensures ToScheduled(listing, keyOf, snapshot, fam) == map[]
  {
    if KeysDistinct(Candidates(listing, keyOf, snapshot, fam)) {
      DistinctCandidatesUnique(listing, keyOf, snapshot, fam);
    }
  }
}
