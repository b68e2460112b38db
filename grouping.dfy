/** Turning the scheduled view into groups of URIs: enumerating a map's entries in some
    order, sorting metadata by modification time, and splitting the URI list into
    contiguous groups (the part of `partitionFilesAndGet` after the copy step). */
module Grouping {
  import opened Types

  /** `ks` lists every key of `m` exactly once, in some iteration order. */
  ghost predicate Enumerates<V>(ks: seq<Key>, m: map<Key, V>)
  {
    && (forall i, j :: 0 <= i < j < |ks| ==> ks[i] != ks[j])
    && (forall k :: k in m <==> k in ks)
  }

  /** The values of `m` read in the order of `ks`. */
  function ValuesAt<V>(m: map<Key, V>, ks: seq<Key>): (vs: seq<V>)
    requires forall k :: k in ks ==> k in m
    ensures |vs| == |ks|
    ensures forall i :: 0 <= i < |ks| ==> vs[i] == m[ks[i]]
  {
    seq(|ks|, i requires 0 <= i < |ks| => m[ks[i]])
  }

  /** An iteration over a map's entries: the order is whatever the map yields. */
  method KeysInSomeOrder<V>(m: map<Key, V>) returns (ks: seq<Key>)
    ensures Enumerates(ks, m)
  {
    ks := [];
    var rest := m.Keys;
    while rest != {}
      invariant forall k :: k in m <==> k in ks || k in rest
      invariant forall k :: k in ks ==> k !in rest
      invariant forall i, j :: 0 <= i < j < |ks| ==> ks[i] != ks[j]
      decreases rest
    {
      var k :| k in rest;
      ks := ks + [k];
      rest := rest - {k};
    }
  }

  /** An enumeration is as long as the map it enumerates. */
  lemma {:induction false} EnumerationLength<V>(ks: seq<Key>, m: map<Key, V>)
    requires Enumerates(ks, m)
    ensures |ks| == |m|
  {
    DistinctCard(ks);
    assert (set k | k in ks) == m.Keys;
  }

  lemma {:induction false} DistinctCard(ks: seq<Key>)
    requires forall i, j :: 0 <= i < j < |ks| ==> ks[i] != ks[j]
    ensures |set k | k in ks| == |ks|
  {
    if ks != [] {
      var n := |ks| - 1;
      DistinctCard(ks[..n]);
      assert (set k | k in ks) == (set k | k in ks[..n]) + {ks[n]};
      assert ks[n] !in ks[..n];
    }
  }

  predicate SortedByModified(s: seq<Meta>)
  {
    forall i, j :: 0 <= i < j < |s| ==> s[i].lastModified <= s[j].lastModified
  }

  /** Inserts `x` after every element not newer than it, which keeps the sort stable. */
  function InsertByModified(x: Meta, s: seq<Meta>): (r: seq<Meta>)
    ensures |r| == |s| + 1
    ensures multiset(r) == multiset(s) + multiset{x}
  {
    if s == [] || s[|s| - 1].lastModified <= x.lastModified then s + [x]
    else
      var n := |s| - 1;
      assert s == s[..n] + [s[n]];
      InsertByModified(x, s[..n]) + [s[n]]
  }

  /** No element of `s` was modified after `bound`. */
  predicate NoneAfter(s: seq<Meta>, bound: int)
  {
    forall i :: 0 <= i < |s| ==> s[i].lastModified <= bound
  }

  /** Insertion keeps a common upper bound on the modification times. */
  lemma {:induction false} InsertBelow(x: Meta, s: seq<Meta>, bound: int)
    requires NoneAfter(s, bound) && x.lastModified <= bound
    ensures NoneAfter(InsertByModified(x, s), bound)
  {
    var r := InsertByModified(x, s);
    if s != [] && x.lastModified < s[|s| - 1].lastModified {
      var n := |s| - 1;
      var r0 := InsertByModified(x, s[..n]);
      assert NoneAfter(s[..n], bound);
      InsertBelow(x, s[..n], bound);
      assert r == r0 + [s[n]];
      forall i | 0 <= i < |r|
        ensures r[i].lastModified <= bound
      {
        if i < |r0| {
          assert r[i] == r0[i];
        } else {
          assert r[i] == s[n];
        }
      }
    } else {
      assert r == s + [x];
      forall i | 0 <= i < |r|
        ensures r[i].lastModified <= bound
      {
        if i < |s| {
          assert r[i] == s[i];
        }
      }
    }
  }

  /** Insertion into a sorted list leaves it sorted. */
  lemma {:induction false} InsertKeepsSorted(x: Meta, s: seq<Meta>)
    requires SortedByModified(s)
    ensures SortedByModified(InsertByModified(x, s))
  {
    if s != [] && x.lastModified < s[|s| - 1].lastModified {
      var n := |s| - 1;
      var r0 := InsertByModified(x, s[..n]);
      InsertKeepsSorted(x, s[..n]);
      assert NoneAfter(s[..n], s[n].lastModified);
      InsertBelow(x, s[..n], s[n].lastModified);
      var r := InsertByModified(x, s);
      assert r == r0 + [s[n]];
      forall i, j | 0 <= i < j < |r|
        ensures r[i].lastModified <= r[j].lastModified
      {
        assert r[i] == r0[i];
        if j < |r0| {
          assert r[j] == r0[j];
        } else {
          assert r[j] == s[n];
        }
      }
    } else {
      var r := InsertByModified(x, s);
      assert r == s + [x];
      forall i, j | 0 <= i < j < |r|
        ensures r[i].lastModified <= r[j].lastModified
      {
        assert r[i] == s[i];
        if j < |s| {
          assert r[j] == s[j];
        } else {
          assert r[j] == x && s[i].lastModified <= s[|s| - 1].lastModified;
        }
      }
    }
  }

  /** The list sort by last modification time: sorted and a permutation of its input. */
  function SortByModified(s: seq<Meta>): (r: seq<Meta>)
    ensures SortedByModified(r)
    ensures multiset(r) == multiset(s)
  {
    if s == [] then []
    else
      var n := |s| - 1;
      assert s == s[..n] + [s[n]];
      var r0 := SortByModified(s[..n]);
      InsertKeepsSorted(s[n], r0);
      InsertByModified(s[n], r0)
  }

  function Uris(s: seq<Meta>): (u: seq<Uri>)
    ensures |u| == |s| && forall i :: 0 <= i < |s| ==> u[i] == s[i].uri
  {
    seq(|s|, i requires 0 <= i < |s| => s[i].uri)
  }

  function Flatten(gs: seq<seq<Uri>>): seq<Uri>
  {
    if gs == [] then [] else gs[0] + Flatten(gs[1..])
  }

  lemma {:induction false} FlattenAppend(a: seq<seq<Uri>>, b: seq<seq<Uri>>)
    ensures Flatten(a + b) == Flatten(a) + Flatten(b)
  {
    if a == [] {
      assert a + b == b;
    } else {
      assert (a + b)[1..] == a[1..] + b;
      FlattenAppend(a[1..], b);
      assert Flatten(a + b) == a[0] + Flatten(a[1..] + b);
    }
  }

  /** The rounded-up quotient len / n. */
  function CeilDiv(len: nat, n: nat): (q: nat)
    requires n > 0
    ensures q <= len
    decreases len
  {
    if len == 0 then 0 else 1 + CeilDiv(if len < n then 0 else len - n, n)
  }

  /** `n` contiguous groups whose concatenation is `elements`, earlier groups taking the
      rounded-up share. */
  function Chunks(elements: seq<Uri>, n: nat): (gs: seq<seq<Uri>>)
    requires n > 0
    ensures |gs| == n && Flatten(gs) == elements
    decreases n
  {
    if n == 1 then
      assert Flatten([elements]) == elements + Flatten([]);
      [elements]
    else
      var k := CeilDiv(|elements|, n);
      var rest := Chunks(elements[k..], n - 1);
      assert elements == elements[..k] + elements[k..];
      assert ([elements[..k]] + rest)[1..] == rest;
      [elements[..k]] + rest
  }

  /** The exception groupPartitions raises for a non-positive group count. */
  const NonPositiveGroups: string := "IllegalArgumentException: Number of groups must be positive."

  /** Kafka's ConnectorUtils.groupPartitions: rejects a non-positive group count, and
      otherwise yields exactly `numGroups` contiguous groups that concatenate to the input. */
  function GroupPartitions(elements: seq<Uri>, numGroups: int): (r: Outcome<seq<seq<Uri>>>)
    ensures r.Ok? <==> numGroups > 0
    ensures r.Ok? ==> |r.value| == numGroups && Flatten(r.value) == elements
  {
    if numGroups <= 0 then Err(NonPositiveGroups)
    else Ok(Chunks(elements, numGroups))
  }

  /** The groups handed out for a scheduled view enumerated as `ks`. */
  function GroupsOf(m: map<Key, Meta>, ks: seq<Key>, maxGroups: int): Outcome<seq<seq<Uri>>>
    requires forall k :: k in ks ==> k in m
  {
    GroupPartitions(Uris(SortByModified(ValuesAt(m, ks))), Min(|m|, maxGroups))
  }

  /** Whatever order the scheduled view is read in, the grouping (when the group count is
      positive) consists of min(|m|, maxGroups) groups whose concatenation lists the URI of
      every scheduled entry exactly once, ascending by modification time. */
  lemma GroupsCoverScheduled(m: map<Key, Meta>, ks: seq<Key>, maxGroups: int)
    requires Enumerates(ks, m)
    ensures var sources := SortByModified(ValuesAt(m, ks));
            var r := GroupsOf(m, ks, maxGroups);
            && |sources| == |m|
            && SortedByModified(sources)
            && multiset(sources) == multiset(ValuesAt(m, ks))
            && (r.Ok? <==> |m| > 0 && maxGroups > 0)
            && (r.Ok? ==> |r.value| == Min(|m|, maxGroups) && Flatten(r.value) == Uris(sources))
  {
    EnumerationLength(ks, m);
    var vs := ValuesAt(m, ks);
    assert |multiset(SortByModified(vs))| == |multiset(vs)|;
  }
}
