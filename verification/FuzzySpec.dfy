/**
  What the palette's fuzzy matcher promises (public/js/ui/fuzzy.js): alignments of a
  query in a string, their scores, and the cells of the table that finds the best one.
  Case and letter classes are those of any alphabet that works character by character.
*/
module FuzzySpec {
  import opened Options

  const WORD_START := 8
  const CONSECUTIVE := 5
  const CASE_EXACT := 1
  const GAP := -1
  const MAX_Q := 64
  const MAX_S := 256

  datatype Alphabet = Alphabet(lower: char -> char, upper: char -> char, alnum: char -> bool)

  function Clip(s: string, max: nat): string { if |s| > max then s[..max] else s }

  /** The first character, a letter after a separator, or an upper case letter after a lower case one. */
  predicate WordStart(u: Alphabet, s: string, i: nat)
    requires i < |s|
  {
    if i == 0 then true
    else
      var prev, c := s[i - 1], s[i];
      if !u.alnum(prev) then u.alnum(c)
      else prev == u.lower(prev) && prev != u.upper(prev) && c != u.lower(c) && c == u.upper(c)
  }

  predicate Same(u: Alphabet, a: char, b: char) { u.lower(a) == u.lower(b) }

  /** What character i of the query earns at s[j]. */
  function Bonus(u: Alphabet, q: string, s: string, i: nat, j: nat): int
    requires i < |q| && j < |s|
  {
    (if WordStart(u, s, j) then WORD_START else 0) + (if s[j] == q[i] then CASE_EXACT else 0)
  }

  /** What two neighbours of an alignment earn: adjacent, or one less for each skipped character. */
  function Link(k: int, j: int): int { if j == k + 1 then CONSECUTIVE else GAP * (j - k - 1) }

  // ---- Alignments

  ghost predicate Alignment(u: Alphabet, q: string, s: string, p: seq<nat>) {
    && |p| == |q|
    && (forall i :: 0 <= i < |p| ==> p[i] < |s| && Same(u, q[i], s[p[i]]))
    && (forall i, j :: 0 <= i < j < |p| ==> p[i] < p[j])
  }

  function Score(u: Alphabet, q: string, s: string, p: seq<nat>): int
    requires |p| <= |q| && forall i :: 0 <= i < |p| ==> p[i] < |s|
  {
    if p == [] then 0
    else
      var i := |p| - 1;
      Score(u, q, s, p[..i]) + (if i == 0 then 0 else Link(p[i - 1], p[i])) + Bonus(u, q, s, i, p[i])
  }

  /** `v` is the score of an alignment and none scores more. */
  ghost predicate Maximum(u: Alphabet, q: string, s: string, v: int) {
    && (exists p :: Alignment(u, q, s, p) && Score(u, q, s, p) == v)
    && (forall p :: Alignment(u, q, s, p) ==> Score(u, q, s, p) <= v)
  }

  /** The query can be read in the string, in order. */
  predicate Subsequence(u: Alphabet, q: string, s: string)
    decreases |s|
  {
    if q == [] then true
    else if s == [] then false
    else if Same(u, q[|q| - 1], s[|s| - 1]) then Subsequence(u, q[..|q| - 1], s[..|s| - 1])
    else Subsequence(u, q, s[..|s| - 1])
  }

  lemma {:induction false} SubsequenceAligns(u: Alphabet, q: string, s: string) returns (p: seq<nat>)
    requires Subsequence(u, q, s)
    ensures Alignment(u, q, s, p)
    decreases |s|
  {
    if q == [] {
      p := [];
    } else if Same(u, q[|q| - 1], s[|s| - 1]) {
      var head := SubsequenceAligns(u, q[..|q| - 1], s[..|s| - 1]);
      p := head + [|s| - 1];
    } else {
      p := SubsequenceAligns(u, q, s[..|s| - 1]);
    }
  }

  lemma {:induction false} AlignedIsSubsequence(u: Alphabet, q: string, s: string, p: seq<nat>)
    requires Alignment(u, q, s, p)
    ensures Subsequence(u, q, s)
    decreases |s|
  {
    if q != [] {
      var i := |q| - 1;
      assert p[i] < |s|;
      var s' := s[..|s| - 1];
      if Same(u, q[i], s[|s| - 1]) {
        assert forall k :: 0 <= k < i ==> p[k] < p[i];
        assert Alignment(u, q[..i], s', p[..i]);
        AlignedIsSubsequence(u, q[..i], s', p[..i]);
      } else {
        assert p[i] != |s| - 1;
        assert forall k :: 0 <= k < i ==> p[k] < p[i];
        assert Alignment(u, q, s', p);
        AlignedIsSubsequence(u, q, s', p);
      }
    }
  }

  /** There is an alignment exactly when the query is a subsequence. */
  lemma AlignsIffSubsequence(u: Alphabet, q: string, s: string)
    ensures (exists p :: Alignment(u, q, s, p)) <==> Subsequence(u, q, s)
  {
    if Subsequence(u, q, s) { var p := SubsequenceAligns(u, q, s); }
    forall p | Alignment(u, q, s, p) ensures Subsequence(u, q, s) { AlignedIsSubsequence(u, q, s, p); }
  }

  lemma {:induction false} PositionsGrow(u: Alphabet, q: string, s: string, p: seq<nat>, i: nat)
    requires Alignment(u, q, s, p) && i < |p|
    ensures p[i] >= i
  {
    if i > 0 { PositionsGrow(u, q, s, p, i - 1); }
  }

  /** A query longer than the string has no alignment. */
  lemma TooLong(u: Alphabet, q: string, s: string)
    requires |q| > |s|
    ensures !Subsequence(u, q, s)
  {
    AlignsIffSubsequence(u, q, s);
    forall p | Alignment(u, q, s, p) ensures false { PositionsGrow(u, q, s, p, |q| - 1); }
  }

  // ---- The table

  type Cell = Option<int>

  /** What cell (i, j) earns when its predecessor stands at k. */
  function Through(u: Alphabet, q: string, s: string, prev: seq<Cell>, i: nat, j: nat, k: nat): int
    requires i < |q| && j < |s| && k < |prev| && prev[k].Some?
  {
    prev[k].value + Link(k, j) + Bonus(u, q, s, i, j)
  }

  /**
    Cell (i, j) after row i - 1: empty without a match or a predecessor, else the best way
    through a predecessor, adjacent before gapped, and the earliest of equal gapped ones.
  */
  ghost predicate CellOk(u: Alphabet, q: string, s: string, prev: seq<Cell>, i: nat, j: nat, c: Cell, b: int)
    requires i < |q| && j < |s| && |prev| == |s|
  {
    if !Same(u, q[i], s[j]) then c == None
    else if i == 0 then c == Some(Bonus(u, q, s, 0, j))
    else
      && (c == None ==> forall k :: 0 <= k < j ==> prev[k] == None)
      && (c.Some? ==> 0 <= b < j && prev[b].Some? && c.value == Through(u, q, s, prev, i, j, b))
      && (c.Some? ==> forall k :: 0 <= k < j && prev[k].Some? ==> Through(u, q, s, prev, i, j, k) <= c.value)
      && (c.Some? && b != j - 1 ==> forall k :: (0 <= k < b || k == j - 1) && prev[k].Some? ==> Through(u, q, s, prev, i, j, k) < c.value)
  }

  datatype Table = Table(best: seq<seq<Cell>>, back: seq<seq<int>>)

  function NoRow(n: nat): seq<Cell> { seq(n, _ => None) }

  function Above(t: Table, n: nat, i: nat): seq<Cell>
    requires i <= |t.best|
  {
    if i == 0 then NoRow(n) else t.best[i - 1]
  }

  ghost predicate Shape(t: Table, m: nat, n: nat) {
    && |t.best| == |t.back| <= m
    && (forall i :: 0 <= i < |t.best| ==> |t.best[i]| == |t.back[i]| == n)
  }

  /** Every full cell below the first row points back at a full cell of the row above. */
  ghost predicate Linked(t: Table, m: nat, n: nat) {
    && Shape(t, m, n)
    && (forall i, j {:trigger t.back[i][j]} :: 1 <= i < |t.best| && 0 <= j < n && t.best[i][j].Some? ==>
          0 <= t.back[i][j] < j && t.best[i - 1][t.back[i][j]].Some?)
  }

  ghost predicate RowOk(u: Alphabet, q: string, s: string, prev: seq<Cell>, i: nat, row: seq<Cell>, back: seq<int>)
    requires i < |q| && |prev| == |row| == |back| == |s|
  {
    forall j {:trigger back[j]} :: 0 <= j < |s| ==> CellOk(u, q, s, prev, i, j, row[j], back[j])
  }

  ghost predicate TableOk(u: Alphabet, q: string, s: string, t: Table) {
    && Linked(t, |q|, |s|)
    && (forall i {:trigger t.back[i]} :: 0 <= i < |t.best| ==> RowOk(u, q, s, Above(t, |s|, i), i, t.best[i], t.back[i]))
  }

  lemma CellAt(u: Alphabet, q: string, s: string, t: Table, i: nat, j: nat)
    requires TableOk(u, q, s, t) && i < |t.best| && j < |s|
    ensures CellOk(u, q, s, Above(t, |s|, i), i, j, t.best[i][j], t.back[i][j])
  {
    hide CellOk;
    assert RowOk(u, q, s, Above(t, |s|, i), i, t.best[i], t.back[i]);
    var b := t.back[i][j];
  }

  /** The positions the back pointers lead through, up to row i. */
  function Path(m: nat, n: nat, t: Table, i: nat, j: nat): (p: seq<nat>)
    requires Linked(t, m, n) && i < |t.best| && j < n && t.best[i][j].Some?
    ensures |p| == i + 1 && p[i] == j
    ensures forall k :: 0 <= k < |p| ==> p[k] < n
  {
    if i == 0 then [j] else Path(m, n, t, i - 1, t.back[i][j]) + [j]
  }

  /** The path to a cell is an alignment of the query so far, and the cell is its score. */
  lemma {:induction false} PathAligns(u: Alphabet, q: string, s: string, t: Table, i: nat, j: nat)
    requires TableOk(u, q, s, t) && i < |t.best| && j < |s| && t.best[i][j].Some?
    ensures Alignment(u, q[..i + 1], s, Path(|q|, |s|, t, i, j))
    ensures Score(u, q, s, Path(|q|, |s|, t, i, j)) == t.best[i][j].value
  {
    hide RowOk, CellOk, Alignment, Score;
    CellAt(u, q, s, t, i, j);
    if i == 0 {
      FirstCell(u, q, s, Above(t, |s|, i), j, t.best[i][j], t.back[i][j]);
    } else {
      var k := t.back[i][j];
      PathAligns(u, q, s, t, i - 1, k);
      CellThrough(u, q, s, t.best[i - 1], i, j, t.best[i][j], k);
      Snoc(u, q, s, Path(|q|, |s|, t, i - 1, k), i, j);
    }
  }

  lemma FirstCell(u: Alphabet, q: string, s: string, prev: seq<Cell>, j: nat, c: Cell, b: int)
    requires q != [] && j < |s| && |prev| == |s| && CellOk(u, q, s, prev, 0, j, c, b) && c.Some?
    ensures Alignment(u, q[..1], s, [j]) && Score(u, q, s, [j]) == c.value
  {
    assert [j][..0] == [];
  }

  lemma CellThrough(u: Alphabet, q: string, s: string, prev: seq<Cell>, i: nat, j: nat, c: Cell, b: nat)
    requires 1 <= i < |q| && j < |s| && |prev| == |s| && b < |s| && CellOk(u, q, s, prev, i, j, c, b) && c.Some?
    ensures b < j && prev[b].Some? && Same(u, q[i], s[j])
    ensures c.value == prev[b].value + Link(b, j) + Bonus(u, q, s, i, j)
  {
  }

  lemma Snoc(u: Alphabet, q: string, s: string, head: seq<nat>, i: nat, j: nat)
    requires 1 <= i < |q| && j < |s| && |head| == i && Alignment(u, q[..i], s, head) && head[i - 1] < j && Same(u, q[i], s[j])
    ensures Alignment(u, q[..i + 1], s, head + [j])
    ensures Score(u, q, s, head + [j]) == Score(u, q, s, head) + Link(head[i - 1], j) + Bonus(u, q, s, i, j)
  {
    hide Same, Link, Bonus;
    var p := head + [j];
    assert p[..i] == head;
    assert forall a :: 0 <= a < i ==> q[..i][a] == q[a] && q[..i + 1][a] == q[a];
    assert forall a :: 0 <= a < i ==> head[a] <= head[i - 1];
  }

  /** No alignment that ends at j beats cell (i, j), and an empty cell has none. */
  lemma {:induction false} CellIsBest(u: Alphabet, q: string, s: string, t: Table, i: nat, p: seq<nat>)
    requires TableOk(u, q, s, t) && i < |t.best| && Alignment(u, q[..i + 1], s, p)
    ensures t.best[i][p[i]].Some? && Score(u, q, s, p) <= t.best[i][p[i]].value
  {
    hide RowOk;
    var j := p[i];
    assert q[..i + 1][i] == q[i];
    CellAt(u, q, s, t, i, j);
    if i == 0 {
      assert p[..0] == [];
    } else {
      var k := p[i - 1];
      assert forall a :: 0 <= a < i ==> q[..i][a] == q[..i + 1][a];
      CellIsBest(u, q, s, t, i - 1, p[..i]);
      assert t.best[i - 1][k].Some?;
      assert Through(u, q, s, t.best[i - 1], i, j, k) <= t.best[i][j].value;
    }
  }

  /** The best cell of the last row is the maximum over all alignments. */
  lemma LastRowIsMaximum(u: Alphabet, q: string, s: string, t: Table, end: nat)
    requires q != [] && TableOk(u, q, s, t) && |t.best| == |q| && end < |s| && t.best[|q| - 1][end].Some?
    requires var last := t.best[|q| - 1];
             forall j :: 0 <= j < |s| && last[j].Some? ==> last[j].value <= last[end].value
    ensures Maximum(u, q, s, t.best[|q| - 1][end].value)
    ensures Alignment(u, q, s, Path(|q|, |s|, t, |q| - 1, end))
    ensures Score(u, q, s, Path(|q|, |s|, t, |q| - 1, end)) == t.best[|q| - 1][end].value
  {
    hide RowOk;
    var i := |q| - 1;
    assert q[..i + 1] == q;
    PathAligns(u, q, s, t, i, end);
    forall p | Alignment(u, q, s, p) ensures Score(u, q, s, p) <= t.best[i][end].value { CellIsBest(u, q, s, t, i, p); }
  }

  lemma EmptyLastRow(u: Alphabet, q: string, s: string, t: Table)
    requires q != [] && TableOk(u, q, s, t) && |t.best| == |q|
    requires var last := t.best[|q| - 1]; forall j :: 0 <= j < |s| ==> last[j] == None
    ensures !Subsequence(u, q, s)
  {
    hide RowOk;
    AlignsIffSubsequence(u, q, s);
    assert q[..|q|] == q;
    forall p | Alignment(u, q, s, p) ensures false { CellIsBest(u, q, s, t, |q| - 1, p); }
  }

  // ---- The score in closed form

  predicate BeginsWord(u: Alphabet, s: string, j: nat)
    requires j < |s|
  {
    || j == 0
    || (!u.alnum(s[j - 1]) && u.alnum(s[j]))
    || (u.alnum(s[j - 1]) && SmallLetter(u, s[j - 1]) && BigLetter(u, s[j]))
  }

  predicate SmallLetter(u: Alphabet, c: char) { u.lower(c) == c != u.upper(c) }

  predicate BigLetter(u: Alphabet, c: char) { u.upper(c) == c != u.lower(c) }

  predicate FollowsOn(p: seq<nat>, i: nat)
    requires i < |p|
  {
    i > 0 && p[i] == p[i - 1] + 1
  }

  function Words(u: Alphabet, s: string, p: seq<nat>): set<nat> { set i: nat | i < |p| && p[i] < |s| && BeginsWord(u, s, p[i]) }

  function Adjacent(p: seq<nat>): set<nat> { set i: nat | i < |p| && FollowsOn(p, i) }

  function Exact(q: string, s: string, p: seq<nat>): set<nat> {
    set i: nat | i < |p| && i < |q| && p[i] < |s| && s[p[i]] == q[i]
  }

  function Skipped(p: seq<nat>): int { if p == [] then 0 else p[|p| - 1] - p[0] + 1 - |p| }

  lemma WordsMore(u: Alphabet, s: string, p: seq<nat>)
    requires p != [] && p[|p| - 1] < |s|
    ensures var n := |p| - 1; |Words(u, s, p)| == |Words(u, s, p[..n])| + (if BeginsWord(u, s, p[n]) then 1 else 0)
  {
    hide BeginsWord;
    var n := |p| - 1;
    assert Words(u, s, p) == Words(u, s, p[..n]) + (if BeginsWord(u, s, p[n]) then {n} else {});
  }

  lemma AdjacentMore(p: seq<nat>)
    requires p != []
    ensures var n := |p| - 1; |Adjacent(p)| == |Adjacent(p[..n])| + (if FollowsOn(p, n) then 1 else 0)
  {
    var n := |p| - 1;
    forall i: nat | i < n ensures FollowsOn(p, i) == FollowsOn(p[..n], i) {}
    hide FollowsOn;
    assert Adjacent(p) == Adjacent(p[..n]) + (if FollowsOn(p, n) then {n} else {});
  }

  lemma ExactMore(q: string, s: string, p: seq<nat>)
    requires p != [] && p[|p| - 1] < |s| && |p| <= |q|
    ensures var n := |p| - 1; |Exact(q, s, p)| == |Exact(q, s, p[..n])| + (if s[p[n]] == q[n] then 1 else 0)
  {
    var n := |p| - 1;
    assert Exact(q, s, p) == Exact(q, s, p[..n]) + (if s[p[n]] == q[n] then {n} else {});
  }

  lemma StartsAgree(u: Alphabet, s: string, j: nat)
    requires j < |s|
    ensures WordStart(u, s, j) <==> BeginsWord(u, s, j)
  {
  }

  lemma {:induction false} PrefixScore(u: Alphabet, q: string, s: string, p: seq<nat>)
    requires |p| <= |q| && (forall i :: 0 <= i < |p| ==> p[i] < |s|)
    requires forall i, j :: 0 <= i < j < |p| ==> p[i] < p[j]
    ensures Score(u, q, s, p) == 8 * |Words(u, s, p)| + 5 * |Adjacent(p)| + |Exact(q, s, p)| - Skipped(p)
  {
    hide Words, Adjacent, Exact, WordStart, BeginsWord;
    if p == [] {
      NoneMatched(u, q, s);
    } else {
      var n := |p| - 1;
      PrefixScore(u, q, s, p[..n]);
      WordsMore(u, s, p);
      AdjacentMore(p);
      ExactMore(q, s, p);
      StartsAgree(u, s, p[n]);
    }
  }

  lemma NoneMatched(u: Alphabet, q: string, s: string)
    ensures Words(u, s, []) == {} && Adjacent([]) == {} && Exact(q, s, []) == {}
  {
  }

  /**
    What an alignment scores: 8 for every matched word start, 5 for every match right after the one
    before, 1 for every exact case, and one off for every character skipped between matches.
  */
  lemma ScoreLaw(u: Alphabet, q: string, s: string, p: seq<nat>)
    requires Alignment(u, q, s, p)
    ensures Score(u, q, s, p) == 8 * |Words(u, s, p)| + 5 * |Adjacent(p)| + |Exact(q, s, p)| - Skipped(p)
  {
    PrefixScore(u, q, s, p);
  }

  /** A string is looked at up to its first 64 or 256 characters. */
  lemma ClipLaw(s: string)
    ensures Clip(s, MAX_Q) <= s && |Clip(s, MAX_Q)| == (if |s| < 64 then |s| else 64)
    ensures Clip(s, MAX_S) <= s && |Clip(s, MAX_S)| == (if |s| < 256 then |s| else 256)
  {
  }
}
