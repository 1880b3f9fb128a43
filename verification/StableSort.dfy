/** A stable sort by "comes strictly before", as `Array.prototype.sort` does it, for any records. */
module StableSort {
  /** `r` put after every entry that does not come after it. */
  function Insert<T>(before: (T, T) -> bool, list: seq<T>, r: T): seq<T> {
    if list == [] || !before(r, list[|list| - 1]) then list + [r]
    else Insert(before, list[..|list| - 1], r) + [list[|list| - 1]]
  }

  function Sorted<T>(before: (T, T) -> bool, list: seq<T>): seq<T> {
    if list == [] then [] else Insert(before, Sorted(before, list[..|list| - 1]), list[|list| - 1])
  }

  ghost predicate InOrder<T>(before: (T, T) -> bool, list: seq<T>) {
    forall i, j :: 0 <= i < j < |list| ==> !before(list[j], list[i])
  }

  /** "Not before" is transitive and two entries are never before each other. */
  ghost predicate WeakOrder<T(!new)>(before: (T, T) -> bool) {
    && (forall a, b, c :: !before(b, a) && !before(c, b) ==> !before(c, a))
    && (forall a, b :: before(a, b) ==> !before(b, a))
  }

  lemma InsertLast<T(!new)>(before: (T, T) -> bool, list: seq<T>, r: T)
    requires WeakOrder(before) && InOrder(before, list)
    requires list != [] ==> !before(r, list[|list| - 1])
    ensures InOrder(before, list + [r])
  {
    forall i | 0 <= i < |list| ensures !before(r, list[i]) {
      if i < |list| - 1 { assert !before(list[|list| - 1], list[i]); }
    }
  }

  /** Where the entry lands: some prefix stays before it, the rest comes after it. */
  lemma {:induction false} InsertSplits<T(!new)>(before: (T, T) -> bool, list: seq<T>, r: T) returns (k: nat)
    requires WeakOrder(before) && InOrder(before, list)
    ensures k <= |list| && Insert(before, list, r) == list[..k] + [r] + list[k..]
    ensures forall i :: 0 <= i < k ==> !before(r, list[i])
    ensures forall i :: k <= i < |list| ==> before(r, list[i])
  {
    if list == [] || !before(r, list[|list| - 1]) {
      k := |list|;
      InsertLast(before, list, r);
      assert forall i :: 0 <= i < k ==> (list + [r])[i] == list[i] && !before((list + [r])[k], (list + [r])[i]);
      assert Insert(before, list, r) == list[..k] + [r] + list[k..];
    } else {
      var head, last := list[..|list| - 1], list[|list| - 1];
      k := InsertSplits(before, head, r);
      assert list[..k] == head[..k] && list[k..] == head[k..] + [last];
    }
  }

  /** Sorting permutes, orders, and keeps entries that do not differ in the order they came. */
  lemma {:induction false} SortedIsSorted<T(!new)>(before: (T, T) -> bool, list: seq<T>)
    requires WeakOrder(before)
    ensures InOrder(before, Sorted(before, list)) && multiset(Sorted(before, list)) == multiset(list)
  {
    if list != [] {
      var head, last := list[..|list| - 1], list[|list| - 1];
      SortedIsSorted(before, head);
      var s := Sorted(before, head);
      var k := InsertSplits(before, s, last);
      assert list == head + [last];
      assert s == s[..k] + s[k..];
      InsertedInOrder(before, s, last, k);
    }
  }

  lemma InsertedInOrder<T(!new)>(before: (T, T) -> bool, s: seq<T>, r: T, k: nat)
    requires WeakOrder(before) && InOrder(before, s) && k <= |s|
    requires forall i :: 0 <= i < k ==> !before(r, s[i])
    requires forall i :: k <= i < |s| ==> before(r, s[i])
    ensures InOrder(before, s[..k] + [r] + s[k..])
  {
    var t := s[..k] + [r] + s[k..];
    forall i, j | 0 <= i < j < |t| ensures !before(t[j], t[i]) {
      var i' := if i < k then i else i - 1;
      var j' := if j < k then j else j - 1;
      if i != k && j != k { assert t[i] == s[i'] && t[j] == s[j'] && i' < j'; }
    }
  }

  function Select<T>(keep: T -> bool, list: seq<T>): seq<T> {
    if list == [] then []
    else Select(keep, list[..|list| - 1]) + (if keep(list[|list| - 1]) then [list[|list| - 1]] else [])
  }

  lemma {:induction false} SelectConcat<T>(keep: T -> bool, a: seq<T>, b: seq<T>)
    ensures Select(keep, a + b) == Select(keep, a) + Select(keep, b)
    decreases |b|
  {
    if b == [] {
      assert a + b == a;
    } else {
      assert (a + b)[..|a + b| - 1] == a + b[..|b| - 1];
      SelectConcat(keep, a, b[..|b| - 1]);
    }
  }

  lemma {:induction false} SelectNone<T>(keep: T -> bool, a: seq<T>)
    requires forall i :: 0 <= i < |a| ==> !keep(a[i])
    ensures Select(keep, a) == []
  {
    if a != [] { SelectNone(keep, a[..|a| - 1]); }
  }

  predicate Tie<T>(before: (T, T) -> bool, x: T, y: T) { !before(x, y) && !before(y, x) }

  lemma TiesTie<T(!new)>(before: (T, T) -> bool, x: T, r: T, y: T)
    requires WeakOrder(before) && Tie(before, x, r) && before(r, y)
    ensures !Tie(before, x, y)
  {
    assert !before(r, x);
  }

  /** An entry put before entries it comes before changes no order among those that tie with x. */
  lemma InsertStable<T(!new)>(before: (T, T) -> bool, s: seq<T>, r: T, k: nat, x: T)
    requires WeakOrder(before) && k <= |s| && forall i :: k <= i < |s| ==> before(r, s[i])
    ensures var tie := (y: T) => Tie(before, x, y);
            Select(tie, s[..k] + [r] + s[k..]) == Select(tie, s) + (if tie(r) then [r] else [])
  {
    var tie := (y: T) => Tie(before, x, y);
    if tie(r) {
      forall i | 0 <= i < |s[k..]| ensures !tie(s[k..][i]) { TiesTie(before, x, r, s[k + i]); }
    }
    SelectInsert(tie, s, r, k);
  }

  lemma SelectInsert<T>(keep: T -> bool, s: seq<T>, r: T, k: nat)
    requires k <= |s| && (keep(r) ==> forall i :: 0 <= i < |s[k..]| ==> !keep(s[k..][i]))
    ensures Select(keep, s[..k] + [r] + s[k..]) == Select(keep, s) + (if keep(r) then [r] else [])
  {
    SelectConcat(keep, s[..k], [r]);
    SelectConcat(keep, s[..k] + [r], s[k..]);
    SelectConcat(keep, s[..k], s[k..]);
    assert s == s[..k] + s[k..];
    assert [r][..0] == [];
    assert Select(keep, [r]) == if keep(r) then [r] else [];
    if keep(r) { SelectNone(keep, s[k..]); }
  }

  /** Stability: the entries that tie with x keep their order. */
  lemma {:induction false} SortedIsStable<T(!new)>(before: (T, T) -> bool, list: seq<T>, x: T)
    requires WeakOrder(before)
    ensures var tie := (y: T) => Tie(before, x, y);
            Select(tie, Sorted(before, list)) == Select(tie, list)
  {
    if list != [] {
      SortedIsStable(before, list[..|list| - 1], x);
      SortedIsSorted(before, list[..|list| - 1]);
      var s := Sorted(before, list[..|list| - 1]);
      var k := InsertSplits(before, s, list[|list| - 1]);
      InsertStable(before, s, list[|list| - 1], k, x);
    }
  }
}
