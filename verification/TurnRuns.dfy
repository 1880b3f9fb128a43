/** The lines of a turn whose calls come in order: its maximal runs of calls that fold. */
module TurnRuns {
  import opened Options
  import opened TurnTools

  type Fold = (string, string) -> bool

  /** All the lines' ids, one line after the other. */
  function Flat(lines: seq<seq<string>>): seq<string> { if lines == [] then [] else Flat(lines[..|lines| - 1]) + lines[|lines| - 1] }

  ghost predicate Run(fold: Fold, line: seq<string>) {
    line != [] && forall i, j :: 0 <= i < j < |line| && j == i + 1 ==> fold(line[i], line[j])
  }

  /** The maximal runs: neighbours in a line fold, a line's end and the next line's start do not. */
  ghost predicate Maximal(fold: Fold, lines: seq<seq<string>>) {
    lines == [] ||
    var n := |lines| - 1;
    Maximal(fold, lines[..n]) && Run(fold, lines[n]) && (n > 0 && lines[n - 1] != [] ==> !fold(Last(lines[n - 1]), lines[n][0]))
  }

  lemma FlatEnd(lines: seq<seq<string>>)
    requires lines != [] && lines[|lines| - 1] != []
    ensures Flat(lines) != [] && Last(Flat(lines)) == Last(lines[|lines| - 1])
  {
  }

  lemma LastRun(fold: Fold, lines: seq<seq<string>>)
    requires Maximal(fold, lines) && lines != []
    ensures var n := |lines| - 1;
            && Maximal(fold, lines[..n]) && Run(fold, lines[n]) && Flat(lines) == Flat(lines[..n]) + lines[n]
            && (n > 0 ==> Flat(lines[..n]) != [] && !fold(Last(Flat(lines[..n])), lines[n][0]))
            && (n == 0 ==> Flat(lines[..n]) == [])
  {
    var n := |lines| - 1;
    if n > 0 {
      assert lines[..n][n - 1] == lines[n - 1];
      FlatEnd(lines[..n]);
    }
  }

  lemma RunStep(fold: Fold, line: seq<string>, k: nat)
    requires Run(fold, line) && 0 < k < |line|
    ensures fold(line[k - 1], line[k])
  {
  }

  /** Of two ends of one list, where the longer one is a run, the shorter one starts inside the run. */
  lemma Inside(fold: Fold, h: seq<string>, x: seq<string>, g: seq<string>, y: seq<string>)
    requires h + x == g + y && x != [] && Run(fold, y) && |x| < |y|
    ensures h != [] && fold(Last(h), x[0])
  {
    var s, k := h + x, |y| - |x|;
    assert s[|h|] == x[0] && s[|h| - 1] == Last(h);
    assert s[|g| + k] == y[k] && s[|g| + k - 1] == y[k - 1];
    RunStep(fold, y, k);
  }

  /** A list has one partition into maximal runs. */
  lemma {:induction false} MaximalUnique(fold: Fold, a: seq<seq<string>>, b: seq<seq<string>>)
    requires Maximal(fold, a) && Maximal(fold, b) && Flat(a) == Flat(b)
    ensures a == b
    decreases |a|
  {
    hide Maximal, Run;
    if a != [] { LastRun(fold, a); RunNotEmpty(fold, a[|a| - 1]); }
    if b != [] { LastRun(fold, b); RunNotEmpty(fold, b[|b| - 1]); }
    if a != [] && b != [] {
      var n, m := |a| - 1, |b| - 1;
      if |a[n]| < |b[m]| { Inside(fold, Flat(a[..n]), a[n], Flat(b[..m]), b[m]); }
      if |b[m]| < |a[n]| { Inside(fold, Flat(b[..m]), b[m], Flat(a[..n]), a[n]); }
      SameEnds(Flat(a[..n]), a[n], Flat(b[..m]), b[m]);
      MaximalUnique(fold, a[..n], b[..m]);
      assert a == a[..n] + [a[n]] && b == b[..m] + [b[m]];
    }
  }

  lemma RunNotEmpty(fold: Fold, line: seq<string>)
    requires Run(fold, line)
    ensures line != []
  {
  }

  lemma SameEnds(h: seq<string>, x: seq<string>, g: seq<string>, y: seq<string>)
    requires h + x == g + y && |x| == |y|
    ensures h == g && x == y
  {
    assert (h + x)[..|h|] == h && (h + x)[|h|..] == x;
    assert (g + y)[..|g|] == g && (g + y)[|g|..] == y;
  }

  lemma RunChange(fold: Fold, fold': Fold, line: seq<string>)
    requires Run(fold, line) && forall a, b :: a in line && b in line ==> fold'(a, b) == fold(a, b)
    ensures Run(fold', line)
  {
  }

  lemma OneMoreRun(fold: Fold, head: seq<seq<string>>, line: seq<string>)
    requires Maximal(fold, head) && Run(fold, line)
    requires Flat(head) != [] ==> !fold(Last(Flat(head)), line[0])
    ensures Maximal(fold, head + [line])
  {
    assert (head + [line])[..|head|] == head;
    if head != [] { LastRun(fold, head); FlatEnd(head); }
  }

  lemma {:induction false} FoldChange(fold: Fold, fold': Fold, lines: seq<seq<string>>)
    requires Maximal(fold, lines)
    requires forall a, b :: a in Flat(lines) && b in Flat(lines) ==> fold'(a, b) == fold(a, b)
    ensures Maximal(fold', lines)
  {
    if lines == [] {
    } else {
      hide Maximal, Run, Flat;
      var n := |lines| - 1;
      LastRun(fold, lines);
      RunNotEmpty(fold, lines[n]);
      var h, x := Flat(lines[..n]), lines[n];
      assert forall a :: a in h || a in x ==> a in h + x;
      FoldChange(fold, fold', lines[..n]);
      RunChange(fold, fold', x);
      assert x[0] in x && (h != [] ==> Last(h) in h);
      OneMoreRun(fold', lines[..n], x);
      assert lines == lines[..n] + [x];
    }
  }

  /** One more call extends the last run or starts a new one. */
  lemma StillMaximal(fold: Fold, lines: seq<seq<string>>, id: string, joins: bool)
    requires Maximal(fold, lines)
    requires lines != [] && lines[|lines| - 1] != [] ==> joins == fold(Last(lines[|lines| - 1]), id)
    requires joins ==> lines != []
    ensures Maximal(fold, if joins then lines[|lines| - 1 := lines[|lines| - 1] + [id]] else lines + [[id]])
  {
    var n := |lines| - 1;
    if joins {
      var lines' := lines[n := lines[n] + [id]];
      assert lines'[..n] == lines[..n];
    } else {
      assert (lines + [[id]])[..|lines|] == lines;
    }
  }

  // ---- Calls in order

  datatype Started = Started(id: string, call: Call)

  /** Calls as the agent starts them: each its own id, at ascending indices. */
  ghost predicate InOrder(list: seq<Started>) {
    && (forall i, j :: 0 <= i < j < |list| ==> list[i].call.index < list[j].call.index)
    && (forall i, j :: 0 <= i < j < |list| ==> list[i].id != list[j].id)
  }

  function IdsOf(list: seq<Started>): (r: seq<string>)
    ensures |r| == |list| && forall i :: 0 <= i < |list| ==> r[i] == list[i].id
  {
    seq(|list|, i requires 0 <= i < |list| => list[i].id)
  }

  function FoldIn(calls: map<string, Call>): Fold {
    (a, b) => a in calls && b in calls && CanFold(calls[a], calls[b])
  }

  /** The state after the first calls: exactly those calls, in the order they came. */
  ghost predicate Holds(ts: Tools, list: seq<Started>) {
    && Sound(ts) && Flat(ts.lines) == IdsOf(list)
    && (forall i :: 0 <= i < |list| ==> list[i].id in ts.calls && ts.calls[list[i].id] == list[i].call)
    && (forall k :: k in ts.calls ==> k in IdsOf(list))
  }

  function AddAll(list: seq<Started>): (ts: Tools)
    requires InOrder(list)
    ensures Holds(ts, list)
  {
    hide Holds, InOrder, AddCall, Known, NoneEmpty;
    Prefix(list);
    if list == [] then NO_TOOLS
    else
      var n := |list| - 1;
      var ts := AddAll(list[..n]);
      AddOne(ts, list);
      AddCall(ts, list[n].id, list[n].call)
  }

  lemma Prefix(list: seq<Started>)
    requires InOrder(list)
    ensures list == [] ==> Holds(NO_TOOLS, list)
    ensures list != [] ==> InOrder(list[..|list| - 1])
  {
  }

  /** A line the next call may join is the last one: its last call is the one before. */
  lemma JoinsTheLast(ts: Tools, list: seq<Started>, c: Call, l: nat)
    requires InOrder(list) && Holds(ts, list) && l < |ts.lines| && Known(ts) && NoneEmpty(ts)
    requires forall i :: 0 <= i < |list| ==> list[i].call.index < c.index
    requires CanFold(ts.calls[Last(ts.lines[l])], c)
    ensures list != [] && l == |ts.lines| - 1 && Last(ts.lines[l]) == list[|list| - 1].id
  {
    hide Folded;
    var id := Last(ts.lines[l]);
    assert id in IdsOf(list);
    var i :| 0 <= i < |list| && list[i].id == id;
    assert i == |list| - 1;
    FlatEnd(ts.lines);
    assert id == Last(ts.lines[|ts.lines| - 1]);
    assert ts.lineOf[id] == l == |ts.lines| - 1;
  }

  lemma HeldParts(ts: Tools, list: seq<Started>)
    requires Holds(ts, list)
    ensures Sound(ts) && Known(ts) && NoneEmpty(ts) && Flat(ts.lines) == IdsOf(list)
    ensures forall i :: 0 <= i < |list| ==> list[i].id in ts.calls && ts.calls[list[i].id] == list[i].call
    ensures forall k :: k in ts.calls ==> k in IdsOf(list)
  {
  }

  lemma NextIsFresh(ts: Tools, list: seq<Started>)
    requires InOrder(list) && list != [] && Holds(ts, list[..|list| - 1])
    ensures var s := list[|list| - 1]; s.id !in ts.calls && FreshCall(ts, s.id, s.call)
  {
    hide Sound;
    var n := |list| - 1;
    forall k | k in ts.calls ensures k != list[n].id && ts.calls[k].index != list[n].call.index {
      assert k in IdsOf(list[..n]);
      var i :| 0 <= i < |list[..n]| && list[..n][i].id == k;
      assert list[..n][i] == list[i];
    }
  }

  lemma FlatJoin(lines: seq<seq<string>>, id: string)
    ensures Flat(lines + [[id]]) == Flat(lines) + [id]
    ensures lines != [] ==> Flat(lines[|lines| - 1 := lines[|lines| - 1] + [id]]) == Flat(lines) + [id]
  {
    assert (lines + [[id]])[..|lines|] == lines;
    if lines != [] {
      var n := |lines| - 1;
      assert lines[n := lines[n] + [id]][..n] == lines[..n];
    }
  }

  /** Where the next call goes: the end of the last line, when it folds with the call before, or a line of its own. */
  lemma WhereItGoes(ts: Tools, list: seq<Started>)
    requires InOrder(list) && list != [] && Holds(ts, list[..|list| - 1]) && Known(ts) && NoneEmpty(ts)
    ensures var s, n := list[|list| - 1], |ts.lines| - 1;
            var joins := ts.lines != [] && CanFold(ts.calls[Last(ts.lines[n])], s.call);
            && AddCall(ts, s.id, s.call).lines == (if joins then ts.lines[n := ts.lines[n] + [s.id]] else ts.lines + [[s.id]])
            && AddCall(ts, s.id, s.call).calls == ts.calls[s.id := s.call]
  {
    hide Holds, CanFold;
    var n := |list| - 1;
    NextIsFresh(ts, list);
    var l := FindLine(ts, list[n].call, 0);
    assert forall i :: 0 <= i < n ==> list[..n][i] == list[i];
    if l.Some? { JoinsTheLast(ts, list[..n], list[n].call, l.value); }
  }

  lemma HoldsNext(ts: Tools, ts': Tools, list: seq<Started>)
    requires list != [] && Holds(ts, list[..|list| - 1]) && Sound(ts')
    requires var s := list[|list| - 1];
             s.id !in ts.calls && ts'.calls == ts.calls[s.id := s.call] && Flat(ts'.lines) == Flat(ts.lines) + [s.id]
    ensures Holds(ts', list)
  {
    hide Sound;
    var n := |list| - 1;
    assert forall i :: 0 <= i < n ==> list[..n][i] == list[i];
    assert IdsOf(list) == IdsOf(list[..n]) + [list[n].id];
  }

  lemma AddOne(ts: Tools, list: seq<Started>)
    requires InOrder(list) && list != [] && Holds(ts, list[..|list| - 1])
    ensures Known(ts) && NoneEmpty(ts) && Holds(AddCall(ts, list[|list| - 1].id, list[|list| - 1].call), list)
  {
    hide Sound, AddCall, Known, NoneEmpty, Holds;
    var s := list[|list| - 1];
    HeldParts(ts, list[..|list| - 1]);
    NextIsFresh(ts, list);
    AddCallSound(ts, s.id, s.call);
    WhereItGoes(ts, list);
    FlatJoin(ts.lines, s.id);
    HoldsNext(ts, AddCall(ts, s.id, s.call), list);
  }

  /**
    Calls in order, none refused on the way: the lines are the maximal runs of calls
    that follow one another and fold, whatever the calls are; and there is one such way.
  */
  lemma {:induction false} LinesAreMaximalRuns(list: seq<Started>)
    requires InOrder(list)
    ensures Maximal(FoldIn(AddAll(list).calls), AddAll(list).lines)
  {
    hide Maximal, Sound, AddCall, InOrder, Holds;
    Prefix(list);
    if list != [] {
      var n := |list| - 1;
      var head, id, c := list[..n], list[n].id, list[n].call;
      LinesAreMaximalRuns(head);
      var ts, ts' := AddAll(head), AddAll(list);
      HeldParts(ts, head);
      NextIsFresh(ts, list);
      WhereItGoes(ts, list);
      AddOne(ts, list);
      assert ts' == AddCall(ts, id, c);
      forall a | a in Flat(ts.lines) ensures a in ts.calls && a != id {
        var i :| 0 <= i < |IdsOf(head)| && IdsOf(head)[i] == a;
        assert head[i].id in ts.calls;
      }
      FoldChange(FoldIn(ts.calls), FoldIn(ts'.calls), ts.lines);
      var joins := ts.lines != [] && CanFold(ts.calls[Last(ts.lines[|ts.lines| - 1])], c);
      StillMaximal(FoldIn(ts'.calls), ts.lines, id, joins);
    } else {
      NoLines();
    }
  }

  lemma NoLines()
    ensures AddAll([]).lines == [] && forall fold: Fold :: Maximal(fold, [])
  {
  }

  lemma LinesAreUnique(list: seq<Started>, lines: seq<seq<string>>)
    requires InOrder(list) && Flat(lines) == IdsOf(list) && Maximal(FoldIn(AddAll(list).calls), lines)
    ensures AddAll(list).lines == lines
  {
    hide Maximal;
    LinesAreMaximalRuns(list);
    MaximalUnique(FoldIn(AddAll(list).calls), AddAll(list).lines, lines);
  }

  // ---- A refusal learned late

  function ReadCall(index: int): Call { Call("Read", index, 0, None, false, false) }

  lemma LineOfIn(ts: Tools, list: seq<Started>, l: nat, i: nat)
    requires Holds(ts, list) && l < |ts.lines| && i < |ts.lines[l]|
    ensures var id := ts.lines[l][i]; id in ts.calls && id in ts.lineOf && ts.lineOf[id] == l
  {
  }

  lemma ThreeFolds(ts: Tools, list: seq<Started>)
    requires Holds(ts, list) && |list| == 3
    ensures forall i, j :: 0 <= i < 3 && 0 <= j < 3 ==>
              FoldIn(ts.calls)(list[i].id, list[j].id) == CanFold(list[i].call, list[j].call)
  {
    hide Sound, CanFold;
  }

  lemma OneRun(fold: Fold, line: seq<string>)
    requires Run(fold, line)
    ensures Maximal(fold, [line]) && Flat([line]) == line
  {
    assert [line][..0] == [];
  }

  lemma AllJoin(list: seq<Started>, a: string, b: string, c: string)
    requires InOrder(list) && IdsOf(list) == [a, b, c]
    requires CanFold(list[0].call, list[1].call) && CanFold(list[1].call, list[2].call)
    ensures AddAll(list).lines == [[a, b, c]]
  {
    hide Holds, AddAll, CanFold;
    var ts := AddAll(list);
    ThreeFolds(ts, list);
    assert list[0].id == a && list[1].id == b && list[2].id == c;
    OneRun(FoldIn(ts.calls), [a, b, c]);
    LinesAreUnique(list, [[a, b, c]]);
  }

  lemma NoneJoins(list: seq<Started>, a: string, b: string, c: string)
    requires InOrder(list) && IdsOf(list) == [a, b, c]
    requires !CanFold(list[0].call, list[1].call) && !CanFold(list[1].call, list[2].call)
    ensures AddAll(list).lines == [[a], [b], [c]]
  {
    hide Holds, AddAll, CanFold;
    var ts := AddAll(list);
    var fold := FoldIn(ts.calls);
    ThreeFolds(ts, list);
    assert list[0].id == a && list[1].id == b && list[2].id == c;
    OneRun(fold, [a]);
    OneMoreRun(fold, [[a]], [b]);
    FlatJoin([[a]], b);
    assert [[a]] + [[b]] == [[a], [b]] && [[a], [b]] + [[c]] == [[a], [b], [c]];
    OneMoreRun(fold, [[a], [b]], [c]);
    FlatJoin([[a], [b]], c);
    LinesAreUnique(list, [[a], [b], [c]]);
  }

  lemma ReadFolds(i: int)
    ensures CanFold(ReadCall(i), ReadCall(i + 1))
  {
    assert ToolName("Read") == "Read";
  }

  lemma RefuseMiddle(ts: Tools, a: string, b: string, c: string)
    requires ts.lines == [[a, b, c]] && a != b && b in ts.calls && b in ts.lineOf && ts.lineOf[b] == 0
    ensures ToolEnd(ts, b, 9, true, true).lines == [[a, c], [b]]
  {
    var line := [a, b, c];
    assert line[1..][0] == b;
    assert IndexIn(line, b) == 1;
    assert Staying(line, 1) == [a, c] && Leaving(line, 1) == [b];
    assert Splits(ts, b);
  }

  /** Learned live, a refusal leaves a line with a gap; a reload that already knows it draws three lines. */
  lemma LateRefusalDiffers()
    ensures var a, b, c := Started("a", ReadCall(0)), Started("b", ReadCall(1)), Started("c", ReadCall(2));
            var known := Started("b", ReadCall(1).(endedAt := Some(9), isError := true, denied := true));
            && InOrder([a, b, c]) && InOrder([a, known, c])
            && ToolEnd(AddAll([a, b, c]), "b", 9, true, true).lines == [["a", "c"], ["b"]]
            && AddAll([a, known, c]).lines == [["a"], ["b"], ["c"]]
  {
    hide AddAll, Holds, ToolEnd;
    var a, b, c := Started("a", ReadCall(0)), Started("b", ReadCall(1)), Started("c", ReadCall(2));
    var known := Started("b", ReadCall(1).(endedAt := Some(9), isError := true, denied := true));
    ReadFolds(0);
    ReadFolds(1);
    assert IdsOf([a, b, c]) == ["a", "b", "c"] && IdsOf([a, known, c]) == ["a", "b", "c"];
    AllJoin([a, b, c], "a", "b", "c");
    NoneJoins([a, known, c], "a", "b", "c");
    var ts := AddAll([a, b, c]);
    LineOfIn(ts, [a, b, c], 0, 1);
    RefuseMiddle(ts, "a", "b", "c");
  }
}
