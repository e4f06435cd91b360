/**
 * `collections.Counter` built from a list of labels. A Counter is a dict, so it remembers the order in which
 * keys were first inserted; the model keeps that order in `keys` and the tallies in `counts`.
 */
module Counting {

  datatype Counter = Counter(keys: seq<string>, counts: map<string, nat>)

  predicate Distinct(s: seq<string>) {
    forall i, j :: 0 <= i < j < |s| ==> s[i] != s[j]
  }

  /** Every key is listed exactly once and has a tally. */
  ghost predicate WellFormed(c: Counter) {
    && Distinct(c.keys)
    && forall k :: k in c.counts <==> k in c.keys
  }

  /** The dict that `Counter()` starts from. */
  function Empty(): (c: Counter)
    ensures WellFormed(c) && c.keys == []
  {
    Counter([], map[])
  }

  /** One step of `Counter(labels)`: bump the key if present, otherwise insert it at the end with 1. */
  function Add(c: Counter, x: string): (c': Counter)
    requires WellFormed(c)
    ensures WellFormed(c')
    ensures x in c'.counts && c'.counts[x] == (if x in c.counts then c.counts[x] else 0) + 1
    ensures c'.keys == if x in c.counts then c.keys else c.keys + [x]
    ensures forall k :: k in c.counts && k != x ==> k in c'.counts && c'.counts[k] == c.counts[k]
  {
    if x in c.counts then Counter(c.keys, c.counts[x := c.counts[x] + 1])
    else Counter(c.keys + [x], c.counts[x := 1])
  }

  /** `Counter(labels)`: the labels added one by one, left to right. */
  function Tally(labels: seq<string>): (c: Counter)
    ensures WellFormed(c)
    ensures forall k :: k in c.counts <==> k in labels
    decreases |labels|
  {
    if labels == [] then Empty()
    else
      var init := labels[..|labels| - 1];
      var c0 := Tally(init);
      assert labels == init + [labels[|labels| - 1]];
      Add(c0, labels[|labels| - 1])
  }

  /** `c.items()`: the (key, count) pairs in insertion order. */
  function Items(c: Counter): (items: seq<(string, nat)>)
    requires WellFormed(c)
    ensures |items| == |c.keys|
    ensures forall i :: 0 <= i < |items| ==> items[i].0 == c.keys[i] && items[i].1 == c.counts[c.keys[i]]
  {
    seq(|c.keys|, i requires 0 <= i < |c.keys| => (c.keys[i], c.counts[c.keys[i]]))
  }

  function Occurrences(s: seq<string>, x: string): nat {
    multiset(s)[x]
  }

  /** Position of the first occurrence of `x` in `s`. */
  function FirstIndex(s: seq<string>, x: string): (i: nat)
    requires x in s
    ensures i < |s| && s[i] == x && x !in s[..i]
    decreases |s|
  {
    if s[0] == x then 0
    else
      var i := 1 + FirstIndex(s[1..], x);
      assert s[..i] == [s[0]] + s[1..][..i - 1];
      i
  }

  function SumCounts(items: seq<(string, nat)>): nat
    decreases |items|
  {
    if items == [] then 0 else SumCounts(items[..|items| - 1]) + items[|items| - 1].1
  }

  lemma FirstIndexUnique(s: seq<string>, x: string, i: nat)
    requires i < |s| && s[i] == x && x !in s[..i]
    ensures FirstIndex(s, x) == i
  {
  }

  /** Appending to a sequence does not move the first occurrence of an element already in it. */
  lemma FirstIndexAppend(s: seq<string>, x: string, y: string)
    requires y in s
    ensures y in s + [x] && FirstIndex(s + [x], y) == FirstIndex(s, y)
  {
    var i := FirstIndex(s, y);
    assert (s + [x])[..i] == s[..i];
    FirstIndexUnique(s + [x], y, i);
  }

  /** Each tally is the number of times its label occurs, hence at least 1. */
  lemma {:induction false} TallyCounts(labels: seq<string>)
    ensures forall k :: k in Tally(labels).counts ==>
      Tally(labels).counts[k] == Occurrences(labels, k) >= 1
    decreases |labels|
  {
    if labels != [] {
      var init, x := labels[..|labels| - 1], labels[|labels| - 1];
      assert labels == init + [x];
      TallyCounts(init);
      assert multiset(labels) == multiset(init) + multiset{x};
    }
  }

  /** Tally(labels) is Tally of all but the last label, with the last one added. */
  lemma TallyUnfold(labels: seq<string>)
    requires labels != []
    ensures Tally(labels) == Add(Tally(labels[..|labels| - 1]), labels[|labels| - 1])
  {
  }

  /** Keys listed in the order in which each first occurs in `s`. */
  ghost predicate InFirstOccurrenceOrder(keys: seq<string>, s: seq<string>) {
    forall i, j :: 0 <= i < j < |keys| ==>
      keys[i] in s && keys[j] in s && FirstIndex(s, keys[i]) < FirstIndex(s, keys[j])
  }

  /** Adding the next label keeps the keys in first-occurrence order of the longer sequence. */
  lemma AddKeepsOrder(c0: Counter, s: seq<string>, x: string)
    requires WellFormed(c0)
    requires forall k :: k in c0.counts <==> k in s
    requires InFirstOccurrenceOrder(c0.keys, s)
    ensures InFirstOccurrenceOrder(Add(c0, x).keys, s + [x])
  {
    var keys := c0.keys;
    forall k | k in keys
      ensures k in s && FirstIndex(s + [x], k) == FirstIndex(s, k)
    {
      assert k in c0.counts;
      FirstIndexAppend(s, x, k);
    }
    if x in c0.counts {
      assert Add(c0, x).keys == keys;
    } else {
      assert Add(c0, x).keys == keys + [x];
      assert (s + [x])[..|s|] == s;
      FirstIndexUnique(s + [x], x, |s|);
      NewLastKeepsOrder(keys, s, x);
    }
  }

  /** A key first seen at the end of the sequence goes after all earlier keys. */
  lemma NewLastKeepsOrder(keys: seq<string>, s: seq<string>, x: string)
    requires x !in s
    requires InFirstOccurrenceOrder(keys, s)
    requires forall k | k in keys :: k in s && FirstIndex(s + [x], k) == FirstIndex(s, k)
    requires FirstIndex(s + [x], x) == |s|
    ensures InFirstOccurrenceOrder(keys + [x], s + [x])
  {
  }

  /** Keys come out in the order in which each label first occurs, not sorted. */
  lemma {:induction false} TallyOrder(labels: seq<string>)
    ensures InFirstOccurrenceOrder(Tally(labels).keys, labels)
    decreases |labels|
  {
    if labels != [] {
      var init, x := labels[..|labels| - 1], labels[|labels| - 1];
      assert labels == init + [x];
      var c0 := Tally(init);
      TallyOrder(init);
      AddKeepsOrder(c0, init, x);
      assert Tally(labels) == Add(c0, x);
    }
  }

  lemma SumCountsAppend(items: seq<(string, nat)>, item: (string, nat))
    ensures SumCounts(items + [item]) == SumCounts(items) + item.1
  {
    assert (items + [item])[..|items|] == items;
  }

  /** Raising one tally by one raises the total by one. */
  lemma {:induction false} SumCountsBump(a: seq<(string, nat)>, b: seq<(string, nat)>, p: nat)
    requires |a| == |b| && p < |a|
    requires forall i :: 0 <= i < |a| && i != p ==> a[i].1 == b[i].1
    requires b[p].1 == a[p].1 + 1
    ensures SumCounts(b) == SumCounts(a) + 1
    decreases |a|
  {
    var n := |a|;
    if p < n - 1 {
      SumCountsBump(a[..n - 1], b[..n - 1], p);
    } else {
      SumCountsSame(a[..n - 1], b[..n - 1]);
    }
  }

  lemma {:induction false} SumCountsSame(a: seq<(string, nat)>, b: seq<(string, nat)>)
    requires |a| == |b|
    requires forall i :: 0 <= i < |a| ==> a[i].1 == b[i].1
    ensures SumCounts(b) == SumCounts(a)
    decreases |a|
  {
    if a != [] {
      SumCountsSame(a[..|a| - 1], b[..|b| - 1]);
    }
  }

  /** Adding one label raises the total of the tallies by one. */
  lemma AddSum(c0: Counter, x: string)
    requires WellFormed(c0)
    ensures SumCounts(Items(Add(c0, x))) == SumCounts(Items(c0)) + 1
  {
    var c := Add(c0, x);
    var a, b := Items(c0), Items(c);
    if x in c0.counts {
      var p :| 0 <= p < |c0.keys| && c0.keys[p] == x;
      forall i | 0 <= i < |a| && i != p
        ensures a[i].1 == b[i].1
      {
        assert c0.keys[i] != x;
      }
      SumCountsBump(a, b, p);
    } else {
      forall i | 0 <= i < |a|
        ensures b[i] == a[i]
      {
        assert c0.keys[i] != x;
      }
      assert b == a + [(x, 1)];
      SumCountsAppend(a, (x, 1));
    }
  }

  /** The tallies add up to the number of labels. */
  lemma {:induction false} TallySum(labels: seq<string>)
    ensures SumCounts(Items(Tally(labels))) == |labels|
    decreases |labels|
  {
    if labels != [] {
      var init, x := labels[..|labels| - 1], labels[|labels| - 1];
      TallySum(init);
      TallyUnfold(labels);
      AddSum(Tally(init), x);
    }
  }
}
