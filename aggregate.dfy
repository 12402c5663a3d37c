/**
 * `DataFrame.pivot_table(values=v, index=keys, aggfunc="count")`: group
 * the records by their index key, drop records whose key has a missing
 * level, count the non-missing values of column v per key, and sort the
 * result by key. A pivot is kept as a strictly increasing association list.
 */
module Aggregate {
  import opened KeyOrder

  /** An index key: one string per index level. */
  type Key = seq<string>

  /** One record as the pivot sees it: its key, and whether its value column is non-null. */
  datatype Obs = Obs(key: Key, counted: bool)

  /** One row of a pivot: an index key and its count. */
  datatype Entry = Entry(key: Key, count: nat)

  predicate Sorted(es: seq<Entry>) {
    forall i, j :: 0 <= i < j < |es| ==> KeyLess(es[i].key, es[j].key)
  }

  function KeySet(es: seq<Entry>): set<Key> {
    if es == [] then {} else {es[0].key} + KeySet(es[1..])
  }

  /** The count shown for key k, 0 when the pivot has no row for k. */
  function Lookup(es: seq<Entry>, k: Key): nat {
    if es == [] then 0 else if es[0].key == k then es[0].count else Lookup(es[1..], k)
  }

  /** Sum of the value column. */
  function Total(es: seq<Entry>): nat {
    if es == [] then 0 else es[0].count + Total(es[1..])
  }

  /** Number of records with key k and a non-null value: the reference count. */
  function Occurrences(obs: seq<Obs>, k: Key): nat {
    if obs == [] then 0
    else Occurrences(obs[..|obs| - 1], k) + (if obs[|obs| - 1].key == k && obs[|obs| - 1].counted then 1 else 0)
  }

  /** Appending one record adds at most one occurrence, of its own key. */
  lemma OccurrencesSnoc(obs: seq<Obs>, x: Obs, k: Key)
    ensures Occurrences(obs + [x], k) == Occurrences(obs, k) + (if x.key == k && x.counted then 1 else 0)
  {
    assert (obs + [x])[..|obs|] == obs;
  }

  /** Number of records with a non-null value. */
  function Counted(obs: seq<Obs>): nat {
    if obs == [] then 0 else Counted(obs[..|obs| - 1]) + (if obs[|obs| - 1].counted then 1 else 0)
  }

  function ObsKeys(obs: seq<Obs>): set<Key> {
    if obs == [] then {} else ObsKeys(obs[..|obs| - 1]) + {obs[|obs| - 1].key}
  }

  lemma {:induction false} SortedCons(e: Entry, rest: seq<Entry>)
    requires Sorted(rest)
    requires rest != [] ==> KeyLess(e.key, rest[0].key)
    ensures Sorted([e] + rest)
  {
    var s := [e] + rest;
    forall i, j | 0 <= i < j < |s| ensures KeyLess(s[i].key, s[j].key) {
      if i == 0 && j > 1 {
        KeyLessTransitive(e.key, rest[0].key, rest[j - 1].key);
      }
    }
  }

  lemma {:induction false} LookupAbsent(es: seq<Entry>, k: Key)
    requires k !in KeySet(es)
    ensures Lookup(es, k) == 0
  {
    if es != [] {
      LookupAbsent(es[1..], k);
    }
  }

  lemma {:induction false} SortedBelowAll(es: seq<Entry>, k: Key)
    requires Sorted(es) && es != [] && KeyLess(k, es[0].key)
    ensures k !in KeySet(es)
  {
    KeyLessIrreflexive(k);
    if |es| > 1 {
      KeyLessTransitive(k, es[0].key, es[1].key);
      SortedBelowAll(es[1..], k);
    }
  }

  /** Add one record with key k to a pivot, counting it when inc is 1. */
  function Bump(es: seq<Entry>, k: Key, inc: nat): (r: seq<Entry>)
    requires Sorted(es)
    ensures Sorted(r) && r != []
    ensures r[0].key == if es == [] || KeyLess(k, es[0].key) then k else es[0].key
    ensures KeySet(r) == KeySet(es) + {k}
    ensures forall q :: Lookup(r, q) == Lookup(es, q) + (if q == k then inc else 0)
    ensures Total(r) == Total(es) + inc
  {
    if es == [] then
      [Entry(k, inc)]
    else if es[0].key == k then
      [Entry(k, es[0].count + inc)] + es[1..]
    else if KeyLess(k, es[0].key) then
      SortedCons(Entry(k, inc), es);
      SortedBelowAll(es, k);
      LookupAbsent(es, k);
      [Entry(k, inc)] + es
    else
      KeyLessTotal(k, es[0].key);
      var rest := Bump(es[1..], k, inc);
      SortedCons(es[0], rest);
      [es[0]] + rest
  }

  /** The pivot of a sequence of records. */
  function Tally(obs: seq<Obs>): (r: seq<Entry>)
    ensures Sorted(r)
    ensures KeySet(r) == ObsKeys(obs)
    ensures forall k :: Lookup(r, k) == Occurrences(obs, k)
    ensures Total(r) == Counted(obs)
  {
    if obs == [] then []
    else
      var last := obs[|obs| - 1];
      Bump(Tally(obs[..|obs| - 1]), last.key, if last.counted then 1 else 0)
  }

  /** In a sorted pivot every row's count is what Lookup finds for its key. */
  lemma {:induction false} LookupAt(es: seq<Entry>, i: nat)
    requires Sorted(es) && i < |es|
    ensures Lookup(es, es[i].key) == es[i].count
  {
    if i > 0 {
      KeyLessIrreflexive(es[0].key);
      assert es[1..][i - 1] == es[i];
      LookupAt(es[1..], i - 1);
    }
  }

  lemma {:induction false} KeySetMembers(es: seq<Entry>, k: Key)
    ensures k in KeySet(es) <==> exists i :: 0 <= i < |es| && es[i].key == k
  {
    if es != [] {
      KeySetMembers(es[1..], k);
      if k in KeySet(es[1..]) {
        var i :| 0 <= i < |es| - 1 && es[1..][i].key == k;
        assert es[i + 1].key == k;
      }
      if exists i :: 0 <= i < |es| && es[i].key == k {
        var i :| 0 <= i < |es| && es[i].key == k;
        if i > 0 {
          assert es[1..][i - 1].key == k;
        }
      }
    }
  }

  lemma {:induction false} ObsKeysMembers(obs: seq<Obs>, k: Key)
    ensures k in ObsKeys(obs) <==> exists i :: 0 <= i < |obs| && obs[i].key == k
  {
    if obs != [] {
      var init := obs[..|obs| - 1];
      ObsKeysMembers(init, k);
      if k in ObsKeys(init) {
        var i :| 0 <= i < |init| && init[i].key == k;
        assert obs[i].key == k;
      }
      if exists i :: 0 <= i < |obs| && obs[i].key == k {
        var i :| 0 <= i < |obs| && obs[i].key == k;
        if i < |init| {
          assert init[i].key == k;
        }
      }
    }
  }
}
