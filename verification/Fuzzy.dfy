/** The fuzzy matcher itself (public/js/ui/fuzzy.js: `align`, `bestEnd`, `fuzzyScore`, `fuzzyRanges`). */
module Fuzzy {
  import opened Options
  import opened FuzzySpec

  /**
    The running maximum: over the full cells before `lim`, the greatest value plus column,
    and the first column that has it. A gap to j costs the same from all of them.
  */
  ghost predicate RunOk(prev: seq<Cell>, lim: int, run: Cell, runAt: int)
    requires lim <= |prev|
  {
    && (run == None ==> forall k :: 0 <= k < lim ==> prev[k] == None)
    && (run.Some? ==> 0 <= runAt < lim && prev[runAt].Some? && run.value == prev[runAt].value + runAt)
    && (run.Some? ==> forall k :: 0 <= k < lim && prev[k].Some? ==> prev[k].value + k <= run.value)
    && (run.Some? ==> forall k :: 0 <= k < runAt && prev[k].Some? ==> prev[k].value + k < run.value)
  }

  /** The choice between the adjacent predecessor and the best gapped one makes the cell right. */
  lemma CellStep(u: Alphabet, q: string, s: string, prev: seq<Cell>, i: nat, j: nat, run: Cell, runAt: int, c: Cell, b: int)
    requires 1 <= i < |q| && i <= j < |s| && |prev| == |s| && Same(u, q[i], s[j])
    requires RunOk(prev, j - 1, run, runAt)
    requires var gapped := if run == None then None else Some(run.value + GAP * (j - 1));
             var adj := if prev[j - 1] == None then None else Some(prev[j - 1].value + CONSECUTIVE);
             var near := gapped == None || (adj.Some? && adj.value >= gapped.value);
             var best := if near then adj else gapped;
             b == (if near then j - 1 else runAt)
             && c == if best == None then None else Some(best.value + Bonus(u, q, s, i, j))
    ensures CellOk(u, q, s, prev, i, j, c, b)
  {
    hide Bonus;
    if c == None {
      forall k | 0 <= k < j ensures prev[k] == None { assert k < j - 1 || k == j - 1; }
    } else {
      forall k | 0 <= k < j && prev[k].Some? ensures Through(u, q, s, prev, i, j, k) <= c.value { assert k < j - 1 || k == j - 1; }
    }
  }

  ghost predicate RowDone(u: Alphabet, q: string, s: string, prev: seq<Cell>, i: nat, cur: seq<Cell>, back: seq<int>, upTo: nat)
    requires i < |q| && |prev| == |cur| == |back| == |s|
  {
    && (forall k {:trigger back[k]} :: 0 <= k < upTo <= |s| ==> CellOk(u, q, s, prev, i, k, cur[k], back[k]))
    && (forall k :: upTo <= k < |s| ==> cur[k] == None)
    && (forall k :: 0 <= k < i && k < |s| ==> cur[k] == None)
  }

  lemma RowStart(u: Alphabet, q: string, s: string, prev: seq<Cell>, i: nat, cur: seq<Cell>, back: seq<int>)
    requires i < |q| && i <= |s| && |prev| == |cur| == |back| == |s|
    requires forall k :: 0 <= k < |s| && k < i - 1 ==> prev[k] == None
    requires forall k :: 0 <= k < |s| ==> cur[k] == None
    ensures RowDone(u, q, s, prev, i, cur, back, i) && RunOk(prev, i - 2, None, -1)
  {
  }

  lemma RowStep(u: Alphabet, q: string, s: string, prev: seq<Cell>, i: nat, cur: seq<Cell>, back: seq<int>, j: nat, c: Cell, b: int)
    requires i < |q| && i <= j < |s| && |prev| == |cur| == |back| == |s|
    requires RowDone(u, q, s, prev, i, cur, back, j)
    requires CellOk(u, q, s, prev, i, j, c, b)
    ensures RowDone(u, q, s, prev, i, cur[j := c], back[j := b], j + 1)
  {
    hide CellOk;
    var back' := back[j := b];
    forall k | 0 <= k < j ensures CellOk(u, q, s, prev, i, k, cur[j := c][k], back'[k]) { var x := back[k]; }
  }

  lemma Skip(u: Alphabet, q: string, s: string, prev: seq<Cell>, i: nat, j: nat, b: int)
    requires i < |q| && j < |s| && |prev| == |s| && !Same(u, q[i], s[j])
    ensures CellOk(u, q, s, prev, i, j, None, b)
  {
  }

  lemma First(u: Alphabet, q: string, s: string, prev: seq<Cell>, j: nat, b: int)
    requires q != [] && j < |s| && |prev| == |s| && Same(u, q[0], s[j])
    ensures CellOk(u, q, s, prev, 0, j, Some(Bonus(u, q, s, 0, j)), b)
  {
  }

  lemma RunStep(prev: seq<Cell>, j: int, run: Cell, runAt: int)
    requires j - 1 <= |prev| && RunOk(prev, j - 2, run, runAt)
    ensures var better := j >= 2 && prev[j - 2].Some? && (run == None || prev[j - 2].value - GAP * (j - 2) > run.value);
            RunOk(prev, j - 1, if better then Some(prev[j - 2].value - GAP * (j - 2)) else run, if better then j - 2 else runAt)
  {
  }

  /** One row of the table. */
  method FillRow(u: Alphabet, q: string, s: string, prev: seq<Cell>, i: nat) returns (row: seq<Cell>, from: seq<int>)
    requires i < |q| <= |s| && |prev| == |s|
    requires forall k :: 0 <= k < |s| && (i == 0 || k < i - 1) ==> prev[k] == None
    ensures |row| == |from| == |s| && RowOk(u, q, s, prev, i, row, from)
    ensures forall k :: 0 <= k < i ==> row[k] == None
    ensures i > 0 ==> forall j {:trigger from[j]} :: 0 <= j < |s| && row[j].Some? ==> 0 <= from[j] < j && prev[from[j]].Some?
  {
    hide CellOk, Bonus;
    var n := |s|;
    var cur := new Cell[n](_ => None);
    var back := new int[n](_ => -1);
    var run: Cell := None;
    var runAt := -1;
    RowStart(u, q, s, prev, i, cur[..], back[..]);
    for j := i to n
      invariant RowDone(u, q, s, prev, i, cur[..], back[..], j) && RunOk(prev, j - 2, run, runAt)
    {
      RunStep(prev, j, run, runAt);
      if i > 0 && j - 2 >= 0 && prev[j - 2].Some? {
        var v := prev[j - 2].value - GAP * (j - 2);
        if run == None || v > run.value { run, runAt := Some(v), j - 2; }
      }
      ghost var cells, backs := cur[..], back[..];
      if Same(u, s[j], q[i]) {
        var bonus := 0;
        if WordStart(u, s, j) { bonus := bonus + WORD_START; }
        if s[j] == q[i] { bonus := bonus + CASE_EXACT; }
        BonusIs(u, q, s, i, j, bonus);
        var b: Cell := None;
        var at := -1;
        if i == 0 {
          b := Some(0);
          First(u, q, s, prev, j, at);
        } else {
          var adj: Cell := None;
          if j >= 1 && prev[j - 1].Some? { adj := Some(prev[j - 1].value + CONSECUTIVE); }
          var viaGap: Cell := if run == None then None else Some(run.value + GAP * (j - 1));
          if viaGap == None || (adj.Some? && adj.value >= viaGap.value) {
            b, at := adj, j - 1;
          } else {
            b, at := viaGap, runAt;
          }
          CellStep(u, q, s, prev, i, j, run, runAt, if b == None then None else Some(b.value + bonus), at);
        }
        if b.Some? {
          cur[j] := Some(b.value + bonus);
          back[j] := at;
          RowStep(u, q, s, prev, i, cells, backs, j, cur[j], at);
          assert cur[..] == cells[j := cur[j]] && back[..] == backs[j := at];
        } else {
          EmptyAnyBack(u, q, s, prev, i, j, at, backs[j]);
          RowStep(u, q, s, prev, i, cells, backs, j, None, backs[j]);
          assert cells == cells[j := None] && backs == backs[j := backs[j]];
        }
      } else {
        Skip(u, q, s, prev, i, j, backs[j]);
        RowStep(u, q, s, prev, i, cells, backs, j, None, backs[j]);
        assert cells == cells[j := None] && backs == backs[j := backs[j]];
      }
    }
    row, from := cur[..], back[..];
    forall j | 0 <= j < |s| && row[j].Some? && i > 0 ensures 0 <= from[j] < j && prev[from[j]].Some? {
      BackInRow(u, q, s, prev, i, j, row[j], from[j]);
    }
  }

  lemma BonusIs(u: Alphabet, q: string, s: string, i: nat, j: nat, bonus: int)
    requires i < |q| && j < |s|
    requires bonus == (if WordStart(u, s, j) then WORD_START else 0) + (if s[j] == q[i] then CASE_EXACT else 0)
    ensures Bonus(u, q, s, i, j) == bonus
  {
  }

  lemma EmptyAnyBack(u: Alphabet, q: string, s: string, prev: seq<Cell>, i: nat, j: nat, b: int, b': int)
    requires i < |q| && j < |s| && |prev| == |s| && CellOk(u, q, s, prev, i, j, None, b)
    ensures CellOk(u, q, s, prev, i, j, None, b')
  {
  }

  lemma BackInRow(u: Alphabet, q: string, s: string, prev: seq<Cell>, i: nat, j: nat, c: Cell, b: int)
    requires 1 <= i < |q| && j < |s| && |prev| == |s| && CellOk(u, q, s, prev, i, j, c, b) && c.Some?
    ensures 0 <= b < j && prev[b].Some?
  {
  }

  /** The whole table, or None when the query is longer than the string. */
  method Align(u: Alphabet, query: string, text: string) returns (t: Option<Table>)
    ensures var q, s := Clip(query, MAX_Q), Clip(text, MAX_S);
            if |q| > |s| then t == None else t.Some? && TableOk(u, q, s, t.value) && |t.value.best| == |q|
  {
    hide RowOk;
    var q, s := Clip(query, MAX_Q), Clip(text, MAX_S);
    if |q| > |s| { return None; }
    var table := Table([], []);
    var prev := NoRow(|s|);
    for i := 0 to |q|
      invariant |table.best| == i && TableOk(u, q, s, table)
      invariant prev == Above(table, |s|, i)
      invariant forall k :: 0 <= k < |s| && (i == 0 || k < i - 1) ==> prev[k] == None
    {
      var row, back := FillRow(u, q, s, prev, i);
      TableGrows(u, q, s, table, row, back);
      table := Table(table.best + [row], table.back + [back]);
      prev := row;
    }
    return Some(table);
  }

  lemma TableGrows(u: Alphabet, q: string, s: string, t: Table, row: seq<Cell>, back: seq<int>)
    requires TableOk(u, q, s, t) && |t.best| < |q| && |row| == |back| == |s|
    requires RowOk(u, q, s, Above(t, |s|, |t.best|), |t.best|, row, back)
    requires |t.best| > 0 ==> forall j {:trigger back[j]} :: 0 <= j < |s| && row[j].Some? ==>
               0 <= back[j] < j && t.best[|t.best| - 1][back[j]].Some?
    ensures TableOk(u, q, s, Table(t.best + [row], t.back + [back]))
  {
    hide RowOk;
    var m := |t.best|;
    var t' := Table(t.best + [row], t.back + [back]);
    forall i | 0 <= i <= m ensures RowOk(u, q, s, Above(t', |s|, i), i, t'.best[i], t'.back[i]) {
      if i < m { var b := t.back[i]; assert t'.best[i] == t.best[i]; }
      assert Above(t', |s|, i) == Above(t, |s|, i);
    }
    forall i, j | 1 <= i <= m && 0 <= j < |s| && t'.best[i][j].Some?
      ensures 0 <= t'.back[i][j] < j && t'.best[i - 1][t'.back[i][j]].Some?
    {
      if i < m { var b := t.back[i][j]; } else { var b := back[j]; }
    }
  }

  /** The first of the greatest cells of the last row, or -1. */
  method BestEnd(last: seq<Cell>) returns (at: int)
    ensures -1 <= at < |last|
    ensures at == -1 ==> forall j :: 0 <= j < |last| ==> last[j] == None
    ensures at >= 0 ==> last[at].Some? && forall j :: 0 <= j < |last| && last[j].Some? ==> last[j].value <= last[at].value
    ensures at >= 0 ==> forall j :: 0 <= j < at && last[j].Some? ==> last[j].value < last[at].value
  {
    at := -1;
    for j := 0 to |last|
      invariant -1 <= at < j
      invariant at == -1 ==> forall k :: 0 <= k < j ==> last[k] == None
      invariant at >= 0 ==> last[at].Some? && forall k :: 0 <= k < j && last[k].Some? ==> last[k].value <= last[at].value
      invariant at >= 0 ==> forall k :: 0 <= k < at && last[k].Some? ==> last[k].value < last[at].value
    {
      if last[j].Some? && (at < 0 || last[j].value > last[at].value) { at := j; }
    }
  }

  /** Nothing when the query cannot be read in the string, else the greatest score of any alignment. */
  method FuzzyScore(u: Alphabet, query: string, text: string) returns (score: Option<int>)
    ensures var q, s := Clip(query, MAX_Q), Clip(text, MAX_S);
            && (score == None <==> !Subsequence(u, q, s))
            && (score.Some? ==> Maximum(u, q, s, score.value))
  {
    hide RowOk;
    var q, s := Clip(query, MAX_Q), Clip(text, MAX_S);
    if q == "" {
      EmptyQuery(u, s);
      return Some(0);
    }
    var t := Align(u, query, text);
    if t == None { TooLong(u, q, s); return None; }
    var last := t.value.best[|q| - 1];
    var at := BestEnd(last);
    if at < 0 { EmptyLastRow(u, q, s, t.value); return None; }
    LastRowIsMaximum(u, q, s, t.value, at);
    AlignsIffSubsequence(u, q, s);
    return Some(last[at].value);
  }

  lemma EmptyQuery(u: Alphabet, s: string)
    ensures Subsequence(u, [], s) && Maximum(u, [], s, 0) && Alignment(u, [], s, [])
  {
    assert Alignment(u, [], s, []) && Score(u, [], s, []) == 0;
  }

  // ---- Ranges

  type Range = (int, int)

  function Run(r: Range): (p: seq<int>)
    requires r.0 <= r.1
    ensures |p| == r.1 - r.0 && forall i :: 0 <= i < |p| ==> p[i] == r.0 + i
  {
    seq(r.1 - r.0, i => r.0 + i)
  }

  /** Non-empty, in order, with a gap between any two. */
  predicate Neat(ranges: seq<Range>) {
    && (forall i :: 0 <= i < |ranges| ==> 0 <= ranges[i].0 < ranges[i].1)
    && (forall i, j :: 0 <= i < j < |ranges| ==> ranges[i].1 < ranges[j].0)
  }

  /** The positions the ranges cover, in order. */
  function Positions(ranges: seq<Range>): seq<int>
    requires Neat(ranges)
  {
    if ranges == [] then [] else Positions(ranges[..|ranges| - 1]) + Run(ranges[|ranges| - 1])
  }

  function AsInts(p: seq<nat>): seq<int> { seq(|p|, i requires 0 <= i < |p| => p[i]) }

  lemma PositionsSnoc(head: seq<Range>, r: Range)
    requires Neat(head + [r]) && Neat(head) && r.0 < r.1
    ensures Positions(head + [r]) == Positions(head) + Run(r)
  {
    assert (head + [r])[..|head|] == head;
  }

  lemma NeatSnoc(head: seq<Range>, r: Range)
    requires Neat(head) && 0 <= r.0 < r.1 && forall i :: 0 <= i < |head| ==> head[i].1 < r.0
    ensures Neat(head + [r])
  {
  }

  lemma NeatHead(out: seq<Range>)
    requires Neat(out) && out != []
    ensures var k := |out| - 1; out == out[..k] + [out[k]] && Neat(out[..k])
    ensures forall i :: 0 <= i < |out| - 1 ==> out[i].1 < out[|out| - 1].0
    ensures forall i :: 0 <= i < |out| ==> 0 <= out[i].0 < out[i].1 <= out[|out| - 1].1
  {
  }

  lemma Widen(out: seq<Range>, p: int)
    requires Neat(out) && out != [] && out[|out| - 1].1 == p
    ensures var last := out[|out| - 1]; var out' := out[|out| - 1 := (last.0, p + 1)];
            Neat(out') && Positions(out') == Positions(out) + [p]
  {
    hide Neat, Positions;
    var k := |out| - 1;
    var wide := (out[k].0, p + 1);
    NeatHead(out);
    assert out[k := wide] == out[..k] + [wide];
    NeatSnoc(out[..k], wide);
    PositionsSnoc(out[..k], wide);
    PositionsSnoc(out[..k], out[k]);
    assert Run(wide) == Run(out[k]) + [p];
  }

  lemma Extend(out: seq<Range>, p: int)
    requires Neat(out) && p >= 0 && (out != [] ==> out[|out| - 1].1 < p)
    ensures Neat(out + [(p, p + 1)]) && Positions(out + [(p, p + 1)]) == Positions(out) + [p]
  {
    hide Neat, Positions;
    if out != [] { NeatHead(out); }
    NeatSnoc(out, (p, p + 1));
    PositionsSnoc(out, (p, p + 1));
    assert Run((p, p + 1)) == [p];
  }

  lemma NoRanges()
    ensures Neat([]) && Positions([]) == []
  {
  }

  /** Increasing positions merged into ranges. */
  method Merge(pos: seq<nat>) returns (out: seq<Range>)
    requires forall i, j :: 0 <= i < j < |pos| ==> pos[i] < pos[j]
    ensures Neat(out) && Positions(out) == AsInts(pos)
  {
    hide Neat, Positions;
    out := [];
    NoRanges();
    for i := 0 to |pos|
      invariant Neat(out) && Positions(out) == AsInts(pos[..i])
      invariant out == [] <==> i == 0
      invariant i > 0 ==> out[|out| - 1].1 == pos[i - 1] + 1
    {
      var p := pos[i];
      assert AsInts(pos[..i + 1]) == AsInts(pos[..i]) + [p];
      if out != [] && out[|out| - 1].1 == p {
        Widen(out, p);
        out := out[|out| - 1 := (out[|out| - 1].0, p + 1)];
      } else {
        Extend(out, p);
        out := out + [(p, p + 1)];
      }
    }
    assert pos[..|pos|] == pos;
  }

  /** Follow the back pointers from cell (m - 1, end). */
  method Trace(m: nat, n: nat, t: Table, end: nat) returns (pos: seq<nat>)
    requires Linked(t, m, n) && 1 <= |t.best| && end < n && t.best[|t.best| - 1][end].Some?
    ensures pos == Path(m, n, t, |t.best| - 1, end)
  {
    pos := [];
    var at: int := end;
    var i := |t.best| - 1;
    ghost var whole := Path(m, n, t, i, end);
    while i >= 0 && at >= 0
      invariant -1 <= i < |t.best| && (i >= 0 ==> 0 <= at < n && t.best[i][at].Some?)
      invariant whole == (if i >= 0 then Path(m, n, t, i, at) else []) + pos
      decreases i
    {
      pos := [at] + pos;
      at := t.back[i][at];
      i := i - 1;
    }
  }

  /** The ranges are neat and cover exactly the positions p, an alignment that no other one outscores. */
  ghost predicate BestRanges(u: Alphabet, q: string, s: string, ranges: seq<Range>, p: seq<nat>) {
    Neat(ranges) && Positions(ranges) == AsInts(p) && Alignment(u, q, s, p) && Maximum(u, q, s, Score(u, q, s, p))
  }

  /** Where a best alignment matched, as neat ranges; nothing when there is no alignment. */
  method FuzzyRanges(u: Alphabet, query: string, text: string) returns (ranges: Option<seq<Range>>)
    ensures var q, s := Clip(query, MAX_Q), Clip(text, MAX_S);
            && (ranges == None <==> !Subsequence(u, q, s))
            && (ranges.Some? ==> exists p :: BestRanges(u, q, s, ranges.value, p))
  {
    hide RowOk;
    var q, s := Clip(query, MAX_Q), Clip(text, MAX_S);
    if q == "" {
      EmptyQuery(u, s);
      assert BestRanges(u, q, s, [], []);
      return Some([]);
    }
    var t := Align(u, query, text);
    if t == None { TooLong(u, q, s); return None; }
    var at := BestEnd(t.value.best[|q| - 1]);
    if at < 0 { EmptyLastRow(u, q, s, t.value); return None; }
    LastRowIsMaximum(u, q, s, t.value, at);
    AlignsIffSubsequence(u, q, s);
    var trail := Trace(|q|, |s|, t.value, at);
    var out := Merge(trail);
    assert BestRanges(u, q, s, out, trail);
    return Some(out);
  }
}
