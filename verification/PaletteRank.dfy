/** Ranking the palette's items for a query (public/js/ui/fuzzy.js: `rankItems`). */
module PaletteRank {
  import opened Options
  import opened FuzzySpec
  import opened Fuzzy
  import StableSort

  const SUB_DISCOUNT := 10

  datatype Item = Item(id: string, kind: string, name: string, sub: string)

  /** A matching item: its place in the pool, its score, and its place among the recent ones. */
  datatype Scored = Scored(it: Item, i: nat, sc: int, recent: Option<nat>)

  ghost predicate IsScore(u: Alphabet, text: string, s: string, v: Option<int>) {
    var q, t := Clip(text, MAX_Q), Clip(s, MAX_S);
    (v == None <==> !Subsequence(u, q, t)) && (v.Some? ==> Maximum(u, q, t, v.value))
  }

  /** The score on the label, or at a discount on the sub-label; None when neither matches. */
  ghost predicate ScoreOf(u: Alphabet, text: string, it: Item, v: Option<int>) {
    exists a, b :: IsScore(u, text, it.name, a) && IsScore(u, text, it.sub, b)
                   && v == if a.Some? then a else if it.sub != "" && b.Some? then Some(b.value - SUB_DISCOUNT) else None
  }

  /** An item has one score. */
  lemma ScoreIsOne(u: Alphabet, text: string, s: string, v: Option<int>, w: Option<int>)
    requires IsScore(u, text, s, v) && IsScore(u, text, s, w)
    ensures v == w
  {
    hide Subsequence, Score, Alignment;
    if v.Some? && w.Some? { MaximumIsOne(u, Clip(text, MAX_Q), Clip(s, MAX_S), v.value, w.value); }
  }

  lemma MaximumIsOne(u: Alphabet, q: string, s: string, v: int, w: int)
    requires Maximum(u, q, s, v) && Maximum(u, q, s, w)
    ensures v == w
  {
    var p :| Alignment(u, q, s, p) && Score(u, q, s, p) == v;
    var r :| Alignment(u, q, s, r) && Score(u, q, s, r) == w;
  }

  method ScoreItem(u: Alphabet, text: string, it: Item) returns (v: Option<int>)
    ensures ScoreOf(u, text, it, v)
  {
    hide Subsequence, Maximum;
    var a := FuzzyScore(u, text, it.name);
    var b := FuzzyScore(u, text, it.sub);
    assert IsScore(u, text, it.name, a) && IsScore(u, text, it.sub, b);
    v := a;
    if a == None && it.sub != "" && b.Some? { v := Some(b.value - SUB_DISCOUNT); }
  }

  /** Higher scores first, then the more recently used, then the given order. */
  predicate Before(a: Scored, b: Scored) {
    if a.sc != b.sc then a.sc > b.sc
    else if a.recent != b.recent then a.recent.Some? && (b.recent == None || a.recent.value < b.recent.value)
    else a.i < b.i
  }

  lemma BeforeIsWeakOrder()
    ensures StableSort.WeakOrder(Before)
  {
  }

  predicate Wanted(kind: Option<string>, it: Item) {
    kind == None || it.kind == kind.value || (kind.value == "ACT" && it.kind == "VIEW")
  }

  function WantedFn(kind: Option<string>): Item -> bool { (it: Item) => Wanted(kind, it) }

  /** The first place of an id in the recent list. */
  function RecentAt(recent: seq<string>, id: string, i: nat): Option<nat>
    requires i <= |recent|
    decreases |recent| - i
  {
    if i == |recent| then None else if recent[i] == id then Some(i) else RecentAt(recent, id, i + 1)
  }

  /** `scored` are exactly the matching items of the pool, in order, each with its score. */
  ghost predicate Matching(u: Alphabet, text: string, recent: seq<string>, pool: seq<Item>, scored: seq<Scored>) {
    && (forall k :: 0 <= k < |scored| ==>
          && scored[k].i < |pool| && scored[k].it == pool[scored[k].i]
          && ScoreOf(u, text, scored[k].it, Some(scored[k].sc)) && scored[k].recent == RecentAt(recent, scored[k].it.id, 0))
    && (forall j, k :: 0 <= j < k < |scored| ==> scored[j].i < scored[k].i)
    && (forall i :: 0 <= i < |pool| ==> ScoreOf(u, text, pool[i], None) || exists k :: 0 <= k < |scored| && scored[k].i == i)
  }

  lemma OneMoreScored(u: Alphabet, text: string, recent: seq<string>, pool: seq<Item>, scored: seq<Scored>, it: Item, v: Option<int>)
    requires Matching(u, text, recent, pool, scored) && ScoreOf(u, text, it, v)
    ensures Matching(u, text, recent, pool + [it],
                     if v == None then scored else scored + [Scored(it, |pool|, v.value, RecentAt(recent, it.id, 0))])
  {
    hide ScoreOf, RecentAt;
    var more := pool + [it];
    var next := if v == None then scored else scored + [Scored(it, |pool|, v.value, RecentAt(recent, it.id, 0))];
    forall i | 0 <= i < |more| ensures ScoreOf(u, text, more[i], None) || exists k :: 0 <= k < |next| && next[k].i == i {
      if i < |pool| {
        if !ScoreOf(u, text, pool[i], None) {
          var k :| 0 <= k < |scored| && scored[k].i == i;
          assert next[k].i == i;
        }
      } else if v.Some? {
        assert next[|scored|].i == i;
      }
    }
  }

  /** The matching items of a kind, best first, at most `cap`; and no matching item left out is better than one listed. */
  method RankItems(u: Alphabet, items: seq<Item>, kind: Option<string>, text: string, recent: seq<string>, cap: nat)
    returns (out: seq<Scored>, ghost pool: seq<Item>, ghost scored: seq<Scored>, ghost rest: seq<Scored>)
    ensures pool == StableSort.Select(WantedFn(kind), items) && Matching(u, text, recent, pool, scored)
    ensures |out| == if |scored| > cap then cap else |scored|
    ensures StableSort.InOrder(Before, out)
    ensures multiset(out) + multiset(rest) == multiset(scored) && forall x, y :: x in rest && y in out ==> !Before(x, y)
  {
    hide ScoreOf, RecentAt, Matching, StableSort.Sorted, StableSort.Select, Before;
    var list: seq<Scored> := [];
    var wanted: seq<Item> := [];
    NothingScored(u, text, recent, kind);
    assert items[..0] == [];
    for i := 0 to |items|
      invariant wanted == StableSort.Select(WantedFn(kind), items[..i])
      invariant Matching(u, text, recent, wanted, list)
    {
      SelectStep(kind, items, i);
      if Wanted(kind, items[i]) {
        var v := ScoreItem(u, text, items[i]);
        OneMoreScored(u, text, recent, wanted, list, items[i], v);
        if v.Some? { list := list + [Scored(items[i], |wanted|, v.value, RecentAt(recent, items[i].id, 0))]; }
        wanted := wanted + [items[i]];
      }
    }
    assert items[..|items|] == items;
    BeforeIsWeakOrder();
    StableSort.SortedIsSorted(Before, list);
    var sorted := StableSort.Sorted(Before, list);
    SameLength(sorted, list);
    out := if |sorted| > cap then sorted[..cap] else sorted;
    pool, scored, rest := wanted, list, sorted[|out|..];
    TakeFirst(sorted, |out|);
  }

  lemma SameLength(a: seq<Scored>, b: seq<Scored>)
    requires multiset(a) == multiset(b)
    ensures |a| == |b|
  {
    assert |multiset(a)| == |a| && |multiset(b)| == |b|;
  }

  lemma TakeFirst(sorted: seq<Scored>, n: nat)
    requires n <= |sorted| && StableSort.InOrder(Before, sorted)
    ensures StableSort.InOrder(Before, sorted[..n])
    ensures multiset(sorted[..n]) + multiset(sorted[n..]) == multiset(sorted)
    ensures forall x, y :: x in sorted[n..] && y in sorted[..n] ==> !Before(x, y)
  {
    hide Before;
    assert sorted == sorted[..n] + sorted[n..];
  }

  lemma NothingScored(u: Alphabet, text: string, recent: seq<string>, kind: Option<string>)
    ensures Matching(u, text, recent, [], []) && StableSort.Select(WantedFn(kind), []) == []
  {
  }

  lemma SelectStep(kind: Option<string>, items: seq<Item>, i: nat)
    requires i < |items|
    ensures var w := WantedFn(kind);
            StableSort.Select(w, items[..i + 1]) == StableSort.Select(w, items[..i]) + (if Wanted(kind, items[i]) then [items[i]] else [])
  {
    assert items[..i + 1][..i] == items[..i];
  }

  /** Of two listed items the first scores more, or as much and was used later or is the only one used, or stood first in the pool. */
  lemma ListedLaw(out: seq<Scored>, j: nat, k: nat)
    requires StableSort.InOrder(Before, out) && j < k < |out|
    requires forall a, b :: 0 <= a < |out| && 0 <= b < |out| && out[a].i == out[b].i ==> out[a] == out[b]
    ensures var a, b := out[j], out[k];
            && a.sc >= b.sc
            && (a.sc == b.sc && b.recent.Some? ==> a.recent.Some? && a.recent.value <= b.recent.value)
            && (a.sc == b.sc && a.recent == b.recent ==> a.i <= b.i)
  {
    assert !Before(out[k], out[j]);
  }

  /** An item's place among the recent ones is the first of its id. */
  lemma {:induction false} RecentLaw(recent: seq<string>, id: string, i: nat)
    requires i <= |recent|
    ensures var r := RecentAt(recent, id, i);
            && (r.Some? ==> i <= r.value < |recent| && recent[r.value] == id)
            && forall k :: i <= k < (if r.Some? then r.value else |recent|) ==> recent[k] != id
    decreases |recent| - i
  {
    if i < |recent| && recent[i] != id { RecentLaw(recent, id, i + 1); }
  }

  /** Which items a prefix lets in: its own kind, and views among the actions. */
  lemma WantedLaw(kind: Option<string>, it: Item)
    ensures Wanted(kind, it) <==> (kind.Some? ==> it.kind == kind.value || (kind.value, it.kind) == ("ACT", "VIEW"))
  {
  }

  /** What an item scores: its label's score, and only without one its sub-label's, ten less. */
  lemma ItemScoreLaw(u: Alphabet, text: string, it: Item, a: Option<int>, b: Option<int>, v: Option<int>)
    requires IsScore(u, text, it.name, a) && IsScore(u, text, it.sub, b)
    ensures ScoreOf(u, text, it, v) <==>
            (a.Some? && v == a) || (a == None && it.sub != "" && b.Some? && v == Some(b.value - 10))
            || (a == None && (it.sub == "" || b == None) && v == None)
  {
    hide IsScore;
    if ScoreOf(u, text, it, v) {
      var a', b' :| IsScore(u, text, it.name, a') && IsScore(u, text, it.sub, b')
                    && v == if a'.Some? then a' else if it.sub != "" && b'.Some? then Some(b'.value - SUB_DISCOUNT) else None;
      ScoreIsOne(u, text, it.name, a, a');
      ScoreIsOne(u, text, it.sub, b, b');
    }
  }
}
