/** The fold itself (public/js/core/transcript-rows.js: `mergeTail`), with its per-page counts and its set of seen keys. */
module Transcript {
  import opened Options
  import opened TranscriptSpec

  /** A row's key: its offset, its role and its place among the rows of the same page that share both. */
  datatype Key = Key(off: nat, role: string, nth: nat)

  datatype Keyed = Keyed(e: Entry, key: Option<Key>)

  ghost predicate KeyedRight(list: seq<Entry>, r: seq<Keyed>) {
    && |r| == |list|
    && (forall i :: 0 <= i < |r| ==>
          && r[i].e == list[i]
          && r[i].key == if list[i].off == None then None
                         else Some(Key(list[i].off.value, list[i].role, Count(list[..i], list[i].off, list[i].role))))
  }

  lemma KeyedMore(list: seq<Entry>, i: nat, r: seq<Keyed>)
    requires i < |list| && KeyedRight(list[..i], r)
    ensures var e := list[i];
            var key := if e.off == None then None else Some(Key(e.off.value, e.role, Count(list[..i], e.off, e.role)));
            KeyedRight(list[..i + 1], r + [Keyed(e, key)])
  {
    hide Count;
    var more := list[..i + 1];
    assert more[..i] == list[..i];
    forall j | 0 <= j < i ensures more[..j] == list[..i][..j] && more[j] == list[..i][j] {}
  }

  lemma CountStep(list: seq<Entry>, i: nat, off: Option<nat>, role: string)
    requires i < |list|
    ensures Count(list[..i + 1], off, role) ==
            Count(list[..i], off, role) + (if list[i].off == off && list[i].role == role then 1 else 0)
  {
    assert list[..i + 1][..i] == list[..i];
  }

  method KeyRows(list: seq<Entry>) returns (r: seq<Keyed>)
    ensures KeyedRight(list, r)
  {
    hide Count, KeyedRight;
    r := [];
    var n: map<(Option<nat>, string), nat> := map[];
    Nothing(list);
    for i := 0 to |list|
      invariant KeyedRight(list[..i], r)
      invariant forall o, role :: Count(list[..i], o, role) == if (o, role) in n then n[(o, role)] else 0
    {
      var e := list[i];
      var k := (e.off, e.role);
      var c := if k in n then n[k] else 0;
      forall o, role
        ensures Count(list[..i + 1], o, role) == Count(list[..i], o, role) + (if list[i].off == o && list[i].role == role then 1 else 0)
      {
        CountStep(list, i, o, role);
      }
      KeyedMore(list, i, r);
      n := n[k := c + 1];
      r := r + [Keyed(e, if e.off == None then None else Some(Key(e.off.value, e.role, c)))];
    }
    assert list[..|list|] == list;
  }

  lemma Nothing(list: seq<Entry>)
    ensures KeyedRight(list[..0], []) && forall o, role :: Count(list[..0], o, role) == 0
  {
  }

  ghost predicate Covered(list: seq<Entry>, k: Key) { k.nth < Count(list, Some(k.off), k.role) }

  lemma CoveredOne(list: seq<Entry>, i: nat, k: Key)
    requires i < |list|
    ensures var e := list[i];
            Covered(list[..i + 1], k) <==>
            Covered(list[..i], k) || (e.off.Some? && k == Key(e.off.value, e.role, Count(list[..i], e.off, e.role)))
  {
    assert list[..i + 1][..i] == list[..i];
  }

  lemma NewOne(a: seq<Entry>, b: seq<Entry>, i: nat)
    requires i < |b|
    ensures NewOf(a, b[..i + 1]) ==
            NewOf(a, b[..i]) + (if b[i].off == None || Count(b[..i], b[i].off, b[i].role) >= Count(a, b[i].off, b[i].role) then [b[i]] else [])
  {
    assert b[..i + 1][..i] == b[..i];
  }

  /** One row after the other, each key once. */
  method Dedup(a: seq<Entry>, b: seq<Entry>) returns (out: seq<Entry>)
    ensures out == a + NewOf(a, b)
  {
    hide NewOf, Count;
    var x := KeyRows(a);
    var y := KeyRows(b);
    var seen: set<Key> := {};
    out := [];
    NoneCovered();
    for i := 0 to |x|
      invariant out == a[..i] && forall k :: k in seen <==> Covered(a[..i], k)
    {
      forall k ensures Covered(a[..i + 1], k) <==> Covered(a[..i], k) || Some(k) == x[i].key { CoveredOne(a, i, k); }
      if !(x[i].key.Some? && x[i].key.value in seen) {
        if x[i].key.Some? { seen := seen + {x[i].key.value}; }
        out := out + [x[i].e];
      }
    }
    assert a[..|a|] == a && b[..0] == [];
    for i := 0 to |y|
      invariant out == a + NewOf(a, b[..i]) && forall k :: k in seen <==> Covered(a, k) || Covered(b[..i], k)
    {
      forall k ensures Covered(b[..i + 1], k) <==> Covered(b[..i], k) || Some(k) == y[i].key { CoveredOne(b, i, k); }
      NewOne(a, b, i);
      if !(y[i].key.Some? && y[i].key.value in seen) {
        if y[i].key.Some? { seen := seen + {y[i].key.value}; }
        out := out + [y[i].e];
      }
    }
    assert b[..|b|] == b;
  }

  lemma NoneCovered()
    ensures forall k :: !Covered([], k)
    ensures forall a :: NewOf(a, []) == []
  {
  }

  /** The rows of both, in file order, each once. */
  method Join(prev: Tail, page: Page, dir: Dir) returns (all: seq<Entry>)
    ensures all == Joined(prev, page, dir)
  {
    hide NewOf, Count;
    if dir == FromTail || prev.end == None {
      all := Dedup(page.entries, []);
      NoneCovered();
    } else if dir == Older {
      all := Dedup(page.entries, prev.entries);
    } else {
      all := Dedup(prev.entries, page.entries);
    }
  }

  /** The oldest rows go when there are too many. */
  method Cut(all: seq<Entry>, keep: nat) returns (entries: seq<Entry>, dropped: bool)
    ensures entries == Last(all, keep) && dropped == (|all| > keep)
  {
    if |all| > keep { return all[|all| - keep..], true; }
    return all, false;
  }

  method MergeTail(prev: Tail, page: Page, dir: Dir, keep: nat) returns (t: Tail)
    ensures t == TranscriptSpec.MergeTail(prev, page, dir, keep)
  {
    hide Joined, Last;
    if page.reset { return EMPTY.(reset := true); }
    var all := Join(prev, page, dir);
    var start, end := prev.start, prev.end;
    if dir == FromTail || prev.end == None {
      start, end := page.start, page.end;
    } else if dir == Older {
      if page.start.Some? { start := page.start; }
    } else {
      if page.end.Some? { end := page.end; }
    }
    var entries, dropped := Cut(all, keep);
    if dropped && entries != [] && entries[0].off.Some? { start := entries[0].off; }
    var size := if page.size.Some? then page.size else prev.size;
    return Tail(entries, start, end, size, start.Some? && start.value > 0, dropped, false);
  }
}
