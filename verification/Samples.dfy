/** A builder's health history (public/js/views/box.js: `mergeSamples`): merged by time, the newest samples kept. */
module Samples {
  import opened Options
  import StableSort

  const SPARK_POINTS := 60

  /** A sample and its time; None when the time is no finite number. */
  datatype Sample = Sample(at: Option<real>, value: int)

  ghost predicate Rising(list: seq<Sample>) {
    && (forall i :: 0 <= i < |list| ==> list[i].at.Some?)
    && (forall i, j :: 0 <= i < j < |list| ==> list[i].at.value < list[j].at.value)
  }

  // ---- One sample after the other

  /** `x` at its time, in place of the sample that was there. */
  function Put(list: seq<Sample>, x: Sample): seq<Sample>
    requires x.at.Some? && forall i :: 0 <= i < |list| ==> list[i].at.Some?
  {
    if list == [] then [x]
    else
      var n := |list| - 1;
      if list[n].at.value < x.at.value then list + [x]
      else if list[n].at.value == x.at.value then list[..n] + [x]
      else Put(list[..n], x) + [list[n]]
  }

  function PutAll(start: seq<Sample>, list: seq<Sample>): (r: seq<Sample>)
    requires forall i :: 0 <= i < |start| ==> start[i].at.Some?
    ensures forall i :: 0 <= i < |r| ==> r[i].at.Some?
  {
    if list == [] then start
    else
      var n := |list| - 1;
      var r := PutAll(start, list[..n]);
      if list[n].at == None then r else (PutTimes(r, list[n]); Put(r, list[n]))
  }

  lemma {:induction false} PutTimes(list: seq<Sample>, x: Sample)
    requires x.at.Some? && forall i :: 0 <= i < |list| ==> list[i].at.Some?
    ensures forall i :: 0 <= i < |Put(list, x)| ==> Put(list, x)[i].at.Some?
  {
    if list != [] { PutTimes(list[..|list| - 1], x); }
  }

  function Newest(list: seq<Sample>): seq<Sample> { if |list| > SPARK_POINTS then list[|list| - SPARK_POINTS..] else list }

  /** The history after both lists. */
  function Merged(was: seq<Sample>, more: seq<Sample>): seq<Sample> { Newest(PutAll([], was + more)) }

  // ---- What it holds

  lemma RiseSnoc(head: seq<Sample>, x: Sample)
    requires Rising(head) && x.at.Some? && forall y :: y in head ==> y.at.Some? && y.at.value < x.at.value
    ensures Rising(head + [x])
  {
    assert forall i :: 0 <= i < |head| ==> head[i] in head;
  }

  lemma RiseParts(list: seq<Sample>)
    requires Rising(list) && list != []
    ensures var n := |list| - 1;
            && list == list[..n] + [list[n]] && Rising(list[..n]) && list[n].at.Some?
            && forall y :: y in list[..n] ==> y.at.Some? && y.at.value < list[n].at.value
    ensures var n := |list| - 1; forall y :: y in list[..n] <==> y in list && y != list[n]
  {
    var n := |list| - 1;
    assert list == list[..n] + [list[n]];
  }

  lemma {:induction false} PutRises(list: seq<Sample>, x: Sample)
    requires Rising(list) && x.at.Some?
    ensures forall i :: 0 <= i < |list| ==> list[i].at.Some?
    ensures Rising(Put(list, x)) && |list| <= |Put(list, x)| <= |list| + 1
    ensures forall y :: y in Put(list, x) <==> y == x || (y in list && y.at != x.at)
  {
    if list == [] {
      RiseSnoc([], x);
    } else {
      Times(list);
      RiseParts(list);
      hide Rising;
      var n := |list| - 1;
      if list[n].at.value < x.at.value {
        RiseSnoc(list, x);
      } else if list[n].at.value == x.at.value {
        RiseSnoc(list[..n], x);
      } else {
        PutRises(list[..n], x);
        RiseSnoc(Put(list[..n], x), list[n]);
      }
    }
  }

  lemma Times(list: seq<Sample>)
    requires Rising(list)
    ensures forall i :: 0 <= i < |list| ==> list[i].at.Some?
  {
  }

  lemma {:induction false} PutAllRises(start: seq<Sample>, list: seq<Sample>)
    requires Rising(start)
    ensures Rising(PutAll(start, list))
  {
    if list == [] {
    } else {
      PutAllRises(start, list[..|list| - 1]);
      if list[|list| - 1].at.Some? { PutRises(PutAll(start, list[..|list| - 1]), list[|list| - 1]); }
    }
  }

  lemma NewestRises(list: seq<Sample>)
    requires Rising(list)
    ensures Rising(Newest(list)) && |Newest(list)| <= SPARK_POINTS
  {
  }

  /** The last sample of the list with its time. */
  ghost predicate LastWriter(list: seq<Sample>, x: Sample) {
    exists i :: 0 <= i < |list| && list[i] == x && forall j :: i < j < |list| ==> list[j].at != x.at
  }

  lemma LastWriterSnoc(list: seq<Sample>, e: Sample, x: Sample)
    ensures LastWriter(list + [e], x) <==> x == e || (LastWriter(list, x) && e.at != x.at)
  {
    var all := list + [e];
    if LastWriter(all, x) && x != e {
      var i :| 0 <= i < |all| && all[i] == x && forall j :: i < j < |all| ==> all[j].at != x.at;
      assert all[|list|] == e && list[i] == x;
      assert forall j :: i < j < |list| ==> list[j] == all[j];
      assert LastWriter(list, x);
    }
    if x == e { assert all[|list|] == x; }
    if LastWriter(list, x) && e.at != x.at {
      var i :| 0 <= i < |list| && list[i] == x && forall j :: i < j < |list| ==> list[j].at != x.at;
      assert all[i] == x;
    }
  }

  /** Before the cut exactly the last writer of every time is held. */
  lemma {:induction false} HoldsLastWriters(list: seq<Sample>, x: Sample)
    ensures x in PutAll([], list) <==> x.at.Some? && LastWriter(list, x)
  {
    if list == [] {
    } else {
      hide LastWriter;
      var n := |list| - 1;
      assert list == list[..n] + [list[n]];
      LastWriterSnoc(list[..n], list[n], x);
      HoldsLastWriters(list[..n], x);
      PutAllRises([], list[..n]);
      if list[n].at.Some? { PutRises(PutAll([], list[..n]), list[n]); }
    }
  }

  /** The merge: rising times, at most 60, each the last written at its time, and newer than every one cut. */
  lemma MergedIs(was: seq<Sample>, more: seq<Sample>)
    ensures var r := Merged(was, more);
            && Rising(r) && |r| <= 60
            && (forall x :: x in r ==> x.at.Some? && LastWriter(was + more, x))
            && (forall x: Sample :: x.at.Some? && LastWriter(was + more, x) && x !in r ==>
                  |r| == 60 && forall y :: y in r ==> x.at.value < y.at.value)
  {
    hide LastWriter, PutAll;
    var all := PutAll([], was + more);
    PutAllRises([], was + more);
    NewestRises(all);
    forall x ensures x in all <==> x.at.Some? && LastWriter(was + more, x) { HoldsLastWriters(was + more, x); }
    forall x | x in all && x !in Newest(all)
      ensures |Newest(all)| == SPARK_POINTS && forall y :: y in Newest(all) ==> x.at.value < y.at.value
    {
      OlderThanKept(all, x);
    }
    assert forall x :: x in Newest(all) ==> x in all;
  }

  lemma OlderThanKept(all: seq<Sample>, x: Sample)
    requires Rising(all) && x in all && x !in Newest(all)
    ensures |Newest(all)| == SPARK_POINTS && forall y :: y in Newest(all) ==> x.at.value < y.at.value
  {
    var i :| 0 <= i < |all| && all[i] == x;
    var m := |all| - SPARK_POINTS;
    assert forall k :: m <= k < |all| && m > 0 ==> Newest(all)[k - m] == all[k];
  }

  // ---- Capping first loses nothing

  lemma NewestOfSuffix(a: seq<Sample>, b: seq<Sample>)
    requires |b| >= SPARK_POINTS
    ensures Newest(a + b) == Newest(b)
  {
    assert (a + b)[|a + b| - SPARK_POINTS..] == b[|b| - SPARK_POINTS..];
  }

  /** A sample put among older and newer ones only changes the part it falls in. */
  lemma {:induction false} PutRight(a: seq<Sample>, b: seq<Sample>, x: Sample)
    requires (forall i :: 0 <= i < |a| ==> a[i].at.Some?) && (forall i :: 0 <= i < |b| ==> b[i].at.Some?)
    requires x.at.Some? && b != [] && x.at.value >= b[0].at.value
    ensures Put(a + b, x) == a + Put(b, x)
    decreases |b|
  {
    var n := |b| - 1;
    assert (a + b)[..|a + b| - 1] == a + b[..n];
    if b[n].at.value == x.at.value || b[n].at.value < x.at.value {
    } else {
      PutRight(a, b[..n], x);
    }
  }

  lemma {:induction false} PutLeft(a: seq<Sample>, b: seq<Sample>, x: Sample)
    requires (forall i :: 0 <= i < |a| ==> a[i].at.Some?) && (forall i :: 0 <= i < |b| ==> b[i].at.Some?)
    requires x.at.Some? && forall i :: 0 <= i < |b| ==> x.at.value < b[i].at.value
    ensures Put(a + b, x) == Put(a, x) + b
    decreases |b|
  {
    if b == [] {
      assert a + b == a;
    } else {
      assert (a + b)[..|a + b| - 1] == a + b[..|b| - 1];
      PutLeft(a, b[..|b| - 1], x);
      assert b == b[..|b| - 1] + [b[|b| - 1]];
    }
  }

  lemma RisingPrefix(list: seq<Sample>)
    requires Rising(list) && list != []
    ensures Rising(list[..|list| - 1])
  {
  }

  lemma Suffix(list: seq<Sample>, m: nat)
    requires Rising(list) && m < |list|
    ensures var a, b := list[..m], list[m..];
            && list == a + b && Rising(b) && (forall i :: 0 <= i < |a| ==> a[i].at.Some?)
            && forall i :: 0 <= i < |b| ==> b[i].at.Some? && b[0].at.value <= b[i].at.value
  {
  }

  /** A sample put into a list with a full newest part changes no newer part than its own. */
  lemma PutBeyond(a: seq<Sample>, b: seq<Sample>, x: Sample)
    requires (forall i :: 0 <= i < |a| ==> a[i].at.Some?) && Rising(b) && |b| == SPARK_POINTS && x.at.Some?
    requires forall i :: 0 <= i < |b| ==> b[i].at.Some? && b[0].at.value <= b[i].at.value
    ensures forall i :: 0 <= i < |a + b| ==> (a + b)[i].at.Some?
    ensures Newest(Put(a + b, x)) == Newest(Put(b, x))
  {
    hide Put, Newest, Rising;
    PutRises(b, x);
    if x.at.value >= b[0].at.value {
      PutRight(a, b, x);
      NewestOfSuffix(a, Put(b, x));
    } else {
      PutLeft(a, b, x);
      PutLeft([], b, x);
      assert [] + b == b;
      NewestOfSuffix(Put(a, x), b);
      NewestOfSuffix(Put([], x), b);
    }
  }

  /** Cut, then put: the newest are the same as put, then cut. */
  lemma PutAfterCut(list: seq<Sample>, x: Sample)
    requires Rising(list) && x.at.Some?
    ensures Rising(Newest(list)) && Newest(Put(list, x)) == Newest(Put(Newest(list), x))
  {
    NewestRises(list);
    if |list| > SPARK_POINTS {
      var m := |list| - SPARK_POINTS;
      hide Put, Rising;
      Suffix(list, m);
      PutBeyond(list[..m], list[m..], x);
    }
  }

  lemma {:induction false} PutAllAfterCut(start: seq<Sample>, list: seq<Sample>)
    requires Rising(start)
    ensures Rising(Newest(start)) && Newest(PutAll(start, list)) == Newest(PutAll(Newest(start), list))
  {
    NewestRises(start);
    if list == [] {
      assert Newest(Newest(start)) == Newest(start);
    } else {
      hide Newest;
      var head, x := list[..|list| - 1], list[|list| - 1];
      PutAllAfterCut(start, head);
      PutAllRises(start, head);
      PutAllRises(Newest(start), head);
      if x.at.Some? {
        PutAfterCut(PutAll(start, head), x);
        PutAfterCut(PutAll(Newest(start), head), x);
      }
    }
  }

  lemma {:induction false} PutAllConcat(start: seq<Sample>, a: seq<Sample>, b: seq<Sample>)
    requires Rising(start)
    ensures Rising(PutAll(start, a)) && PutAll(start, a + b) == PutAll(PutAll(start, a), b)
    decreases |b|
  {
    PutAllRises(start, a);
    if b == [] {
      assert a + b == a;
    } else {
      assert (a + b)[..|a + b| - 1] == a + b[..|b| - 1];
      PutAllConcat(start, a, b[..|b| - 1]);
    }
  }

  /** Putting a rising list one by one gives it back. */
  lemma {:induction false} PutAllSelf(list: seq<Sample>)
    requires Rising(list)
    ensures PutAll([], list) == list
  {
    if list == [] {
    } else {
      var n := |list| - 1;
      RisingPrefix(list);
      PutAllSelf(list[..n]);
      assert list == list[..n] + [list[n]];
    }
  }

  /** Repeated capped merges keep exactly what one big merge would. */
  lemma TruncationCommutes(a: seq<Sample>, b: seq<Sample>, c: seq<Sample>)
    ensures Merged(Merged(a, b), c) == Merged(a, b + c)
  {
    hide Newest, PutAll;
    var x := PutAll([], a + b);
    PutAllRises([], a + b);
    NewestRises(x);
    PutAllConcat([], Newest(x), c);
    PutAllSelf(Newest(x));
    PutAllAfterCut(x, c);
    PutAllConcat([], a + b, c);
    assert a + b + c == a + (b + c);
  }

  // ---- The loop over a map, and the sort

  function Time(x: Sample): real { if x.at.Some? then x.at.value else 0.0 }

  predicate Earlier(a: Sample, b: Sample) { Time(a) < Time(b) }

  lemma EarlierIsWeakOrder()
    ensures StableSort.WeakOrder(Earlier)
  {
  }

  /** The last of a rising list is the latest. */
  lemma Latest(a: seq<Sample>, b: seq<Sample>)
    requires Rising(a) && Rising(b) && a != [] && b != [] && a[|a| - 1] in b && b[|b| - 1] in a
    ensures a[|a| - 1] == b[|b| - 1]
  {
    RiseParts(a);
    RiseParts(b);
  }

  lemma SomeIn(list: seq<Sample>)
    ensures list != [] ==> list[0] in list
  {
  }

  /** Two rising lists with the same samples are the same list. */
  lemma {:induction false} SameRising(a: seq<Sample>, b: seq<Sample>)
    requires Rising(a) && Rising(b) && forall x :: x in a <==> x in b
    ensures a == b
    decreases |a|
  {
    if a == [] {
      SomeIn(b);
    } else {
      assert a[0] in b;
      hide Rising;
      var m, n := |a| - 1, |b| - 1;
      assert a[m] in b && b[n] in a;
      Latest(a, b);
      RiseParts(a);
      RiseParts(b);
      SameRising(a[..m], b[..n]);
    }
  }

  function Values(order: seq<real>, byAt: map<real, Sample>): (r: seq<Sample>)
    requires forall i :: 0 <= i < |order| ==> order[i] in byAt
    ensures |r| == |order| && forall i :: 0 <= i < |r| ==> r[i] == byAt[order[i]]
  {
    seq(|order|, i requires 0 <= i < |order| => byAt[order[i]])
  }

  /** The map's entries in the order their times first came, each once. */
  ghost predicate Entries(order: seq<real>, byAt: map<real, Sample>) {
    && (forall i, j :: 0 <= i < j < |order| ==> order[i] != order[j])
    && (forall t :: t in order <==> t in byAt)
    && (forall t :: t in byAt ==> byAt[t].at == Some(t))
  }

  lemma SortedValues(order: seq<real>, byAt: map<real, Sample>, all: seq<Sample>)
    requires Entries(order, byAt) && Rising(all)
    requires forall x: Sample :: x in all <==> x.at.Some? && x.at.value in byAt && byAt[x.at.value] == x
    ensures forall i :: 0 <= i < |order| ==> order[i] in byAt
    ensures StableSort.Sorted(Earlier, Values(order, byAt)) == all
  {
    assert forall i :: 0 <= i < |order| ==> order[i] in order;
    var vs := Values(order, byAt);
    EarlierIsWeakOrder();
    StableSort.SortedIsSorted(Earlier, vs);
    var r := StableSort.Sorted(Earlier, vs);
    hide StableSort.Sorted;
    SortedRises(vs, r);
    forall x ensures x in r <==> x in all {
      assert x in r <==> x in multiset(r);
      assert x in vs <==> x in multiset(vs);
      if x in all { InValues(order, byAt, x.at.value); }
    }
    SameRising(r, all);
  }

  lemma InValues(order: seq<real>, byAt: map<real, Sample>, t: real)
    requires Entries(order, byAt) && t in byAt
    ensures (forall i :: 0 <= i < |order| ==> order[i] in byAt) && byAt[t] in Values(order, byAt)
  {
    assert t in order;
    var i :| 0 <= i < |order| && order[i] == t;
    assert forall k :: 0 <= k < |order| ==> order[k] in order;
    assert Values(order, byAt)[i] == byAt[t];
  }

  /** In order and without two equal times, the sorted list rises. */
  lemma SortedRises(vs: seq<Sample>, r: seq<Sample>)
    requires forall i :: 0 <= i < |vs| ==> vs[i].at.Some?
    requires forall i, j :: 0 <= i < j < |vs| ==> vs[i].at != vs[j].at
    requires StableSort.InOrder(Earlier, r) && multiset(r) == multiset(vs)
    ensures Rising(r)
  {
    forall i | 0 <= i < |r| ensures r[i].at.Some? {
      assert r[i] in multiset(r);
      assert r[i] in vs;
    }
    forall i, j | 0 <= i < j < |r| ensures r[i].at.value < r[j].at.value {
      OncePerTime(vs, r, i, j);
      assert r[i] in multiset(vs) && r[j] in multiset(vs);
      assert !Earlier(r[j], r[i]);
      SameTimeSame(vs, r[i], r[j]);
    }
  }

  lemma SameTimeSame(vs: seq<Sample>, x: Sample, y: Sample)
    requires x in multiset(vs) && y in multiset(vs) && forall i, j :: 0 <= i < j < |vs| ==> vs[i].at != vs[j].at
    ensures x.at == y.at ==> x == y
  {
    assert x in vs && y in vs;
  }

  lemma {:induction false} Distinct(vs: seq<Sample>)
    requires forall i, j :: 0 <= i < j < |vs| ==> vs[i].at != vs[j].at
    ensures forall x :: multiset(vs)[x] <= 1
  {
    if vs != [] {
      var n := |vs| - 1;
      Distinct(vs[..n]);
      assert vs == vs[..n] + [vs[n]];
      assert vs[n] !in vs[..n];
    }
  }

  lemma OncePerTime(vs: seq<Sample>, r: seq<Sample>, i: nat, j: nat)
    requires i < j < |r| && multiset(r) == multiset(vs) && forall i, j :: 0 <= i < j < |vs| ==> vs[i].at != vs[j].at
    ensures r[i] != r[j]
  {
    Distinct(vs);
    if r[i] == r[j] { TwoIn(r, i, j); }
  }

  lemma TwoIn(r: seq<Sample>, i: nat, j: nat)
    requires i < j < |r| && r[i] == r[j]
    ensures multiset(r)[r[i]] >= 2
  {
    var a, b := r[..j], r[j..];
    assert r == a + b && multiset(r) == multiset(a) + multiset(b);
    assert a[i] == r[i] && b[0] == r[j];
    assert r[i] in multiset(a) && r[j] in multiset(b);
  }

  /** Last writer wins in the map; its values sorted by time, the newest kept. */
  method MergeSamples(was: seq<Sample>, more: seq<Sample>) returns (r: seq<Sample>)
    ensures r == Merged(was, more)
  {
    hide StableSort.Sorted, PutAll, Put;
    var list := was + more;
    var byAt: map<real, Sample> := map[];
    var order: seq<real> := [];
    PutNothing();
    for i := 0 to |list|
      invariant Entries(order, byAt)
      invariant Rising(PutAll([], list[..i]))
      invariant forall x: Sample :: x in PutAll([], list[..i]) <==> x.at.Some? && x.at.value in byAt && byAt[x.at.value] == x
    {
      var x := list[i];
      PutOne(list, i);
      if x.at.Some? {
        EntriesMore(order, byAt, x);
        if x.at.value !in byAt { order := order + [x.at.value]; }
        byAt := byAt[x.at.value := x];
      }
    }
    assert list[..|list|] == list;
    SortedValues(order, byAt, PutAll([], list));
    var sorted := StableSort.Sorted(Earlier, Values(order, byAt));
    r := if |sorted| > SPARK_POINTS then sorted[|sorted| - SPARK_POINTS..] else sorted;
  }

  lemma PutNothing()
    ensures PutAll([], []) == [] && Rising([]) && Entries([], map[])
  {
  }

  lemma EntriesMore(order: seq<real>, byAt: map<real, Sample>, x: Sample)
    requires Entries(order, byAt) && x.at.Some?
    ensures Entries(if x.at.value in byAt then order else order + [x.at.value], byAt[x.at.value := x])
  {
    var t := x.at.value;
    assert forall y :: y in order + [t] <==> y in order || y == t;
    assert forall i :: 0 <= i < |order| ==> order[i] in order;
  }

  lemma PutOne(list: seq<Sample>, i: nat)
    requires i < |list| && Rising(PutAll([], list[..i]))
    ensures Rising(PutAll([], list[..i + 1]))
    ensures list[i].at == None ==> PutAll([], list[..i + 1]) == PutAll([], list[..i])
    ensures list[i].at.Some? ==>
              forall y :: y in PutAll([], list[..i + 1]) <==> y == list[i] || (y in PutAll([], list[..i]) && y.at != list[i].at)
  {
    assert list[..i + 1][..i] == list[..i];
    if list[i].at.Some? { PutRises(PutAll([], list[..i]), list[i]); }
  }
}
