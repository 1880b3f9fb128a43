/**
  What the store derives from its builders (public/js/core/store.js: `derive`,
  `attentionOrder`): the lanes of every builder, and their attention entries merged
  and sorted.
*/
module StoreDerived {
  import opened StoreSpec
  import opened StableSort

  type Fleet = map<string, Builder>

  predicate Covers(order: seq<string>, fleet: Fleet) { forall i :: 0 <= i < |order| ==> order[i] in fleet }

  function AllLanes(order: seq<string>, fleet: Fleet): seq<Record>
    requires Covers(order, fleet)
  {
    if order == [] then []
    else AllLanes(order[..|order| - 1], fleet) + fleet[order[|order| - 1]].held.lanes
  }

  /** A builder's attention entries; all stale while the builder is stale or down. */
  function AttentionOf(b: Builder): (r: seq<Record>)
    ensures |r| == |b.held.attention|
  {
    if b.info.status == BStale || b.info.status == BDown then MarkStale(b.held.attention) else b.held.attention
  }

  function MarkStale(list: seq<Record>): (r: seq<Record>)
    ensures |r| == |list|
    ensures forall i :: 0 <= i < |list| ==> r[i] == list[i]["stale" := JBool(true)]
  {
    if list == [] then [] else MarkStale(list[..|list| - 1]) + [list[|list| - 1]["stale" := JBool(true)]]
  }

  function MergedAttention(order: seq<string>, fleet: Fleet): seq<Record>
    requires Covers(order, fleet)
  {
    if order == [] then []
    else MergedAttention(order[..|order| - 1], fleet) + AttentionOf(fleet[order[|order| - 1]])
  }

  /** A number field, 0 when it is absent or null. */
  function Number(r: Record, k: string): real { if k in r && r[k].JNum? then r[k].n else 0.0 }

  predicate StringLess(a: string, b: string)
    decreases |a|
  {
    b != [] && (a == [] || a[0] < b[0] || (a[0] == b[0] && StringLess(a[1..], b[1..])))
  }

  function BuilderName(r: Record): string { if "builder" in r && r["builder"].JStr? then r["builder"].s else "" }

  function StaleRank(r: Record): int { if "stale" in r && Truthy(r["stale"]) then 1 else 0 }

  /** `a` sorts strictly before `b`: live first, then the higher score, the earlier time, the smaller builder id. */
  predicate Before(a: Record, b: Record) {
    if StaleRank(a) != StaleRank(b) then StaleRank(a) < StaleRank(b)
    else if Number(a, "score") != Number(b, "score") then Number(a, "score") > Number(b, "score")
    else if Number(a, "since") != Number(b, "since") then Number(a, "since") < Number(b, "since")
    else StringLess(BuilderName(a), BuilderName(b))
  }

  lemma {:induction false} StringLessTotal(a: string, b: string)
    ensures a == b || StringLess(a, b) || StringLess(b, a)
    ensures !(StringLess(a, b) && StringLess(b, a))
    ensures !StringLess(a, a)
    decreases |a|
  {
    if a != [] {
      if b != [] {
        StringLessTotal(a[1..], b[1..]);
        assert a == [a[0]] + a[1..] && b == [b[0]] + b[1..];
      }
      StringLessTotal(a[1..], a[1..]);
    }
  }

  lemma {:induction false} StringLessTrans(a: string, b: string, c: string)
    requires !StringLess(b, a) && !StringLess(c, b)
    ensures !StringLess(c, a)
    decreases |a|
  {
    if a != [] && b != [] && c != [] && a[0] == b[0] == c[0] { StringLessTrans(a[1..], b[1..], c[1..]); }
  }

  lemma NotBeforeTrans(a: Record, b: Record, c: Record)
    requires !Before(b, a) && !Before(c, b)
    ensures !Before(c, a)
  {
    if !StringLess(BuilderName(b), BuilderName(a)) && !StringLess(BuilderName(c), BuilderName(b)) {
      StringLessTrans(BuilderName(a), BuilderName(b), BuilderName(c));
    }
  }

  lemma BeforeIsWeakOrder()
    ensures WeakOrder(Before)
  {
    forall a, b, c | !Before(b, a) && !Before(c, b) ensures !Before(c, a) { NotBeforeTrans(a, b, c); }
    forall a, b | Before(a, b) ensures !Before(b, a) { StringLessTotal(BuilderName(a), BuilderName(b)); }
  }

  /** The attention list: every builder's entries, in the source's order. */
  function Attention(order: seq<string>, fleet: Fleet): seq<Record>
    requires Covers(order, fleet)
  {
    SortEntries(MergedAttention(order, fleet))
  }

  function SortEntries(list: seq<Record>): seq<Record> { Sorted(Before, list) }

  lemma SameMerge(order: seq<string>, fleet: Fleet, order': seq<string>, fleet': Fleet)
    requires Covers(order, fleet) && Covers(order', fleet')
    requires MergedAttention(order, fleet) == MergedAttention(order', fleet')
    ensures Attention(order, fleet) == Attention(order', fleet')
  {
  }

  /** It is a permutation of the builders' entries, in order. */
  lemma AttentionIsSorted(order: seq<string>, fleet: Fleet)
    requires Covers(order, fleet)
    ensures InOrder(Before, Attention(order, fleet))
    ensures multiset(Attention(order, fleet)) == multiset(MergedAttention(order, fleet))
  {
    BeforeIsWeakOrder();
    SortedIsSorted(Before, MergedAttention(order, fleet));
  }

  /** The derived lists only depend on the builders' lanes, attention and status. */
  lemma {:induction false} DerivedFrame(order: seq<string>, fleet: Fleet, fleet': Fleet)
    requires Covers(order, fleet) && Covers(order, fleet')
    requires forall i :: 0 <= i < |order| ==>
               var b, b' := fleet[order[i]], fleet'[order[i]];
               b.held.lanes == b'.held.lanes && b.held.attention == b'.held.attention && b.info.status == b'.info.status
    ensures AllLanes(order, fleet) == AllLanes(order, fleet')
    ensures MergedAttention(order, fleet) == MergedAttention(order, fleet')
  {
    if order != [] { DerivedFrame(order[..|order| - 1], fleet, fleet'); }
  }

  // ---- Where every entry stands

  /** How many lanes, or attention entries, the builders have together. */
  function LaneCount(order: seq<string>, fleet: Fleet): nat
    requires Covers(order, fleet)
  {
    if order == [] then 0 else LaneCount(order[..|order| - 1], fleet) + |fleet[order[|order| - 1]].held.lanes|
  }

  function EntryCount(order: seq<string>, fleet: Fleet): nat
    requires Covers(order, fleet)
  {
    if order == [] then 0 else EntryCount(order[..|order| - 1], fleet) + |fleet[order[|order| - 1]].held.attention|
  }

  predicate At(list: seq<Record>, i: nat, r: Record) { i < |list| && list[i] == r }

  /** The lanes are every builder's, in the builders' order and each builder's own. */
  lemma {:induction false} LanesLaw(order: seq<string>, fleet: Fleet, i: nat, j: nat)
    requires Covers(order, fleet)
    ensures |AllLanes(order, fleet)| == LaneCount(order, fleet)
    ensures i < |order| && j < |fleet[order[i]].held.lanes| ==>
              At(AllLanes(order, fleet), LaneCount(order[..i], fleet) + j, fleet[order[i]].held.lanes[j])
  {
    if order != [] {
      var n := |order| - 1;
      LanesLaw(order[..n], fleet, i, j);
      if i < n { assert order[..n][..i] == order[..i]; }
    }
  }

  /** An entry as it is listed: stale when its builder is stale or down, otherwise as it came. */
  predicate ListedAs(b: Builder, a: Record, r: Record) {
    if b.info.status == BStale || b.info.status == BDown then r == a["stale" := JBool(true)] else r == a
  }

  /** Before sorting the attention entries are every builder's, in the same order. */
  lemma {:induction false} EntriesLaw(order: seq<string>, fleet: Fleet, i: nat, j: nat)
    requires Covers(order, fleet)
    ensures |MergedAttention(order, fleet)| == EntryCount(order, fleet)
    ensures i < |order| && j < |fleet[order[i]].held.attention| ==>
              var p := EntryCount(order[..i], fleet) + j;
              p < |MergedAttention(order, fleet)| && ListedAs(fleet[order[i]], fleet[order[i]].held.attention[j], MergedAttention(order, fleet)[p])
  {
    if order != [] {
      var n := |order| - 1;
      EntriesLaw(order[..n], fleet, i, j);
      if i < n { assert order[..n][..i] == order[..i]; }
    }
  }

  /** `a` is in dictionary order before `b`: a proper prefix of it, or with the smaller first character that differs. */
  ghost predicate Precedes(a: string, b: string) { exists k: nat :: PartAt(a, b, k) }

  predicate PartAt(a: string, b: string, k: nat) {
    k <= |a| && k < |b| && (forall j :: 0 <= j < k ==> a[j] == b[j]) && (k == |a| || a[k] < b[k])
  }

  lemma {:induction false} StringLessLaw(a: string, b: string)
    ensures StringLess(a, b) <==> Precedes(a, b)
    decreases |a|
  {
    if a != [] && b != [] && a[0] == b[0] {
      StringLessLaw(a[1..], b[1..]);
      if Precedes(a[1..], b[1..]) {
        var k: nat :| PartAt(a[1..], b[1..], k);
        assert PartAt(a, b, k + 1);
      }
      if Precedes(a, b) {
        var k: nat :| PartAt(a, b, k);
        assert PartAt(a[1..], b[1..], k - 1);
      }
    } else if b != [] && (a == [] || a[0] < b[0]) {
      assert PartAt(a, b, 0);
    }
  }

  /** What an entry is sorted by: its numbers, nought without one. */
  lemma NumberLaw(r: Record, k: string)
    ensures Number(r, k) == if k in r then (match r[k] case JNum(n) => n case _ => 0.0) else 0.0
  {
  }

  /** A later entry is never live before a stale one, never scores more, nor began sooner, nor is of a smaller builder, all before it alike. */
  lemma AttentionOrder(order: seq<string>, fleet: Fleet, j: nat, k: nat)
    requires Covers(order, fleet) && j < k < |Attention(order, fleet)|
    ensures var a, b := Attention(order, fleet)[j], Attention(order, fleet)[k];
            var sa, sb := "stale" in a && Truthy(a["stale"]), "stale" in b && Truthy(b["stale"]);
            && (sa ==> sb)
            && (sa == sb ==> Number(a, "score") >= Number(b, "score"))
            && (sa == sb && Number(a, "score") == Number(b, "score") ==> Number(a, "since") <= Number(b, "since"))
            && (sa == sb && Number(a, "score") == Number(b, "score") && Number(a, "since") == Number(b, "since") ==>
                  !Precedes(BuilderName(b), BuilderName(a)))
  {
    hide MergedAttention, SortEntries, Precedes;
    AttentionIsSorted(order, fleet);
    var a, b := Attention(order, fleet)[j], Attention(order, fleet)[k];
    assert !Before(b, a);
    StringLessLaw(BuilderName(b), BuilderName(a));
  }
}
