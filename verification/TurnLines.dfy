/**
  The tool lines of a live turn: calls start, end, are refused, and everything else happens in
  between. When the lines are the ones a reload draws, message by message and over whole runs.
*/
module TurnLines {
  import opened Options
  import opened TurnTools
  import opened TurnRuns
  import Spec = TurnSpec
  import Laws = TurnLaws

  /** Neighbours in a line fold. */
  ghost predicate RunsIn(calls: map<string, Call>, lines: seq<seq<string>>) {
    forall l :: 0 <= l < |lines| ==> Run(FoldIn(calls), lines[l])
  }

  /** Calls that fold stand in one line. */
  ghost predicate Together(calls: map<string, Call>, lineOf: map<string, nat>)
    requires calls.Keys <= lineOf.Keys
  {
    forall a, b :: a in calls && b in calls && CanFold(calls[a], calls[b]) ==> lineOf[a] == lineOf[b]
  }

  /** The lines are exactly the maximal runs of calls that fold, in whatever order the lines were made. */
  ghost predicate Canonical(ts: Tools) {
    Sound(ts) && RunsIn(ts.calls, ts.lines) && Together(ts.calls, ts.lineOf)
  }

  // ---- There is one such set of lines

  ghost function LineSet(ts: Tools): set<seq<string>> { set line | line in ts.lines }

  lemma Neighbours(ts: Tools, l: nat, i: nat)
    requires Canonical(ts) && l < |ts.lines| && i + 1 < |ts.lines[l]|
    ensures ts.lines[l][i] in ts.calls && ts.lines[l][i + 1] in ts.calls
    ensures CanFold(ts.calls[ts.lines[l][i]], ts.calls[ts.lines[l][i + 1]])
  {
    RunStep(FoldIn(ts.calls), ts.lines[l], i + 1);
  }

  /** In a run the indices count up by one. */
  lemma {:induction false} CountsUp(ts: Tools, l: nat, i: nat)
    requires Canonical(ts) && l < |ts.lines| && i < |ts.lines[l]|
    ensures ts.lines[l][0] in ts.calls && ts.lines[l][i] in ts.calls
    ensures ts.calls[ts.lines[l][i]].index == ts.calls[ts.lines[l][0]].index + i
    decreases i
  {
    SoundFiled(ts);
    if i > 0 {
      CountsUp(ts, l, i - 1);
      Neighbours(ts, l, i - 1);
    }
  }

  /** A run of one way of drawing the calls stands in one line of any other canonical way. */
  lemma {:induction false} InOneLine(ts: Tools, us: Tools, l: nat, i: nat)
    requires Canonical(ts) && Canonical(us) && ts.calls == us.calls && l < |ts.lines| && i < |ts.lines[l]|
    ensures ts.lines[l][0] in us.lineOf && ts.lines[l][i] in us.lineOf && us.lineOf[ts.lines[l][i]] == us.lineOf[ts.lines[l][0]]
    decreases i
  {
    hide Folded;
    SoundFiled(ts);
    if i > 0 {
      InOneLine(ts, us, l, i - 1);
      Neighbours(ts, l, i - 1);
    }
  }

  lemma Found(ts: Tools, id: string) returns (l: nat, i: nat)
    requires Filed(ts) && id in ts.calls
    ensures id in ts.lineOf && l == ts.lineOf[id] && l < |ts.lines| && i < |ts.lines[l]| && ts.lines[l][i] == id
  {
    l := ts.lineOf[id];
    i :| 0 <= i < |ts.lines[l]| && ts.lines[l][i] == id;
  }

  /** The line of a call in one way and in the other: the calls of the first are among those of the second, in place. */
  lemma Within(ts: Tools, us: Tools, l: nat, m: nat)
    requires Canonical(ts) && Canonical(us) && ts.calls == us.calls && l < |ts.lines| && m < |us.lines|
    requires ts.lines[l] != [] && ts.lines[l][0] in us.lineOf && us.lineOf[ts.lines[l][0]] == m
    ensures us.lines[m] != [] && us.lines[m][0] in ts.calls && ts.lines[l][0] in ts.calls
    ensures ts.calls[us.lines[m][0]].index <= ts.calls[ts.lines[l][0]].index
    ensures forall i :: 0 <= i < |ts.lines[l]| ==> ts.lines[l][i] in us.lines[m]
  {
    hide Canonical;
    CanonicalSound(ts);
    CanonicalSound(us);
    forall i | 0 <= i < |ts.lines[l]| ensures ts.lines[l][i] in us.lines[m] {
      InOneLine(ts, us, l, i);
      var x, y := Found(us, ts.lines[l][i]);
    }
    var x, y := Found(us, ts.lines[l][0]);
    CountsUp(us, m, y);
  }

  lemma CanonicalSound(ts: Tools)
    requires Canonical(ts)
    ensures Sound(ts) && Filed(ts) && NoneEmpty(ts) && DistinctIndices(ts.calls) && Known(ts)
    ensures ts.lineOf.Keys == ts.calls.Keys
    ensures RunsIn(ts.calls, ts.lines) && Together(ts.calls, ts.lineOf)
  {
  }

  /** Two canonical lines that start with the same call: where both go on, they go on alike. */
  lemma SameStart(ts: Tools, us: Tools, l: nat, m: nat)
    requires Canonical(ts) && Canonical(us) && ts.calls == us.calls && l < |ts.lines| && m < |us.lines|
    requires ts.lines[l] != [] && us.lines[m] != [] && ts.lines[l][0] == us.lines[m][0]
    requires forall i :: 0 <= i < |ts.lines[l]| ==> ts.lines[l][i] in us.lines[m]
    ensures |ts.lines[l]| <= |us.lines[m]|
    ensures forall i :: 0 <= i < |ts.lines[l]| ==> ts.lines[l][i] == us.lines[m][i]
  {
    hide Canonical;
    forall i | 0 <= i < |ts.lines[l]| ensures i < |us.lines[m]| && ts.lines[l][i] == us.lines[m][i] {
      var j :| 0 <= j < |us.lines[m]| && us.lines[m][j] == ts.lines[l][i];
      CountsUp(ts, l, i);
      CountsUp(us, m, j);
      assert j == i;
    }
    var n := |ts.lines[l]| - 1;
    assert ts.lines[l][n] == us.lines[m][n];
  }

  lemma SameHead(ts: Tools, us: Tools, l: nat) returns (m: nat)
    requires Canonical(ts) && Canonical(us) && ts.calls == us.calls && l < |ts.lines|
    ensures m < |us.lines| && ts.lines[l] != [] && us.lines[m] != [] && ts.lines[l][0] == us.lines[m][0]
    ensures ts.lines[l][0] in us.lineOf && us.lineOf[ts.lines[l][0]] == m
    ensures us.lines[m][0] in ts.lineOf && ts.lineOf[us.lines[m][0]] == l
  {
    hide Canonical, Filed, Sound, RunsIn, Together;
    CanonicalSound(ts);
    CanonicalSound(us);
    assert ts.lines[l][0] in ts.calls;
    var y;
    m, y := Found(us, ts.lines[l][0]);
    Within(ts, us, l, m);
    NotThere(ts, ts.lines[l][0], l);
    InOneLine(us, ts, m, y);
    Within(us, ts, m, l);
    assert us.lines[m][0] == ts.lines[l][0];
  }

  lemma SameLine(ts: Tools, us: Tools, l: nat)
    requires Canonical(ts) && Canonical(us) && ts.calls == us.calls && l < |ts.lines|
    ensures ts.lines[l] in us.lines
  {
    hide Canonical, Filed, Sound, RunsIn, Together;
    var m := SameHead(ts, us, l);
    Within(ts, us, l, m);
    Within(us, ts, m, l);
    SameStart(ts, us, l, m);
    SameStart(us, ts, m, l);
    assert ts.lines[l] == us.lines[m];
  }

  /** The calls alone decide the canonical lines. */
  lemma CanonicalUnique(ts: Tools, us: Tools)
    requires Canonical(ts) && Canonical(us) && ts.calls == us.calls
    ensures LineSet(ts) == LineSet(us)
  {
    hide Canonical;
    forall line | line in ts.lines ensures line in us.lines {
      var l :| 0 <= l < |ts.lines| && ts.lines[l] == line;
      SameLine(ts, us, l);
    }
    forall line | line in us.lines ensures line in ts.lines {
      var l :| 0 <= l < |us.lines| && us.lines[l] == line;
      SameLine(us, ts, l);
    }
  }

  lemma SharesLine(ts: Tools, us: Tools, a: string, b: string)
    requires Canonical(ts) && Sound(us) && ts.calls == us.calls && LineSet(ts) == LineSet(us)
    requires a in ts.calls && b in ts.calls && CanFold(ts.calls[a], ts.calls[b])
    ensures a in us.lineOf && b in us.lineOf && us.lineOf[a] == us.lineOf[b]
  {
    hide Sound, Folded, Filed, Canonical, CanFold;
    CanonicalSound(ts);
    SoundFiled(us);
    var m, x := Found(ts, a);
    var m', y := Found(ts, b);
    assert ts.lines[m] in LineSet(us);
    var l :| 0 <= l < |us.lines| && us.lines[l] == ts.lines[m];
    NotThere(us, a, l);
    NotThere(us, b, l);
  }

  /** Lines that are, as a set, canonical ones of the same calls are canonical. */
  lemma SameSetCanonical(ts: Tools, us: Tools)
    requires Canonical(ts) && Sound(us) && ts.calls == us.calls && LineSet(ts) == LineSet(us)
    ensures Canonical(us)
  {
    hide Sound, Folded, Filed, Canonical, Run, CanFold;
    CanonicalSound(ts);
    forall l | 0 <= l < |us.lines| ensures Run(FoldIn(us.calls), us.lines[l]) {
      assert us.lines[l] in LineSet(ts);
      var m :| 0 <= m < |ts.lines| && ts.lines[m] == us.lines[l];
    }
    SameKeys(us);
    forall a, b | a in us.calls && b in us.calls && CanFold(us.calls[a], us.calls[b]) ensures us.lineOf[a] == us.lineOf[b] {
      SharesLine(ts, us, a, b);
    }
    FromParts(us);
  }

  lemma SameKeys(ts: Tools)
    requires Sound(ts)
    ensures ts.lineOf.Keys == ts.calls.Keys
  {
  }

  lemma FromParts(ts: Tools)
    requires Sound(ts)
    requires ts.calls.Keys <= ts.lineOf.Keys && RunsIn(ts.calls, ts.lines) && Together(ts.calls, ts.lineOf)
    ensures Canonical(ts)
  {
  }

  // ---- One call more

  /** No call that is there already follows `c` as `c` would fold it. */
  ghost predicate NoneFollows(calls: map<string, Call>, c: Call) {
    forall k :: k in calls ==> !CanFold(c, calls[k])
  }

  /** A call that `c` may join is the last of its line: the one it would have before `c` has the index of `c`. */
  lemma JoinsAnEnd(ts: Tools, id: string, c: Call, k: string)
    requires Canonical(ts) && id !in ts.calls && FreshCall(ts, id, c) && k in ts.calls && CanFold(ts.calls[k], c)
    ensures k in ts.lineOf && ts.lineOf[k] < |ts.lines| && ts.lines[ts.lineOf[k]] != [] && Last(ts.lines[ts.lineOf[k]]) == k
  {
    hide Canonical, Filed, Sound, Together;
    CanonicalSound(ts);
    var l, i := Found(ts, k);
    if i + 1 < |ts.lines[l]| {
      CountsUp(ts, l, i);
      CountsUp(ts, l, i + 1);
      assert false;
    }
  }

  /** The line a new call comes to: an old line that its last call folds with, or one of its own. */
  lemma AddedLine(ts: Tools, id: string, c: Call) returns (l: nat)
    requires Known(ts) && NoneEmpty(ts) && id !in ts.calls
    ensures var ts' := AddCall(ts, id, c);
            && ts'.calls == ts.calls[id := c] && ts'.lineOf == ts.lineOf[id := l]
            && if l < |ts.lines| then ts'.lines == ts.lines[l := ts.lines[l] + [id]] && CanFold(ts.calls[Last(ts.lines[l])], c)
               else l == |ts.lines| && ts'.lines == ts.lines + [[id]] && forall m :: 0 <= m < |ts.lines| ==> !CanFold(ts.calls[Last(ts.lines[m])], c)
  {
    hide CanFold;
    match FindLine(ts, c, 0)
    case Some(n) => l := n;
    case None => l := |ts.lines|;
  }

  lemma AddedRuns(ts: Tools, id: string, c: Call)
    requires Canonical(ts) && id !in ts.calls && FreshCall(ts, id, c)
    ensures Known(ts) && NoneEmpty(ts) && RunsIn(AddCall(ts, id, c).calls, AddCall(ts, id, c).lines)
  {
    hide Filed, Together, CanFold, Canonical, Sound, AddCall, Run;
    CanonicalSound(ts);
    var n := AddedLine(ts, id, c);
    var ts' := AddCall(ts, id, c);
    forall l | 0 <= l < |ts'.lines| ensures Run(FoldIn(ts'.calls), ts'.lines[l]) {
      if l < |ts.lines| {
        assert forall a :: a in ts.lines[l] ==> a in ts.calls;
        RunChange(FoldIn(ts.calls), FoldIn(ts'.calls), ts.lines[l]);
        if l == n { LongerRun(FoldIn(ts'.calls), ts.lines[l], id); }
      } else {
        OneIsRun(FoldIn(ts'.calls), id);
      }
    }
  }

  lemma OneIsRun(fold: Fold, id: string)
    ensures Run(fold, [id])
  {
  }

  lemma LongerRun(fold: Fold, line: seq<string>, id: string)
    requires Run(fold, line) && line != [] && fold(Last(line), id)
    ensures Run(fold, line + [id])
  {
  }

  /** A new call keeps the lines canonical exactly when no call that is there follows it. */
  lemma AddCallCanonical(ts: Tools, id: string, c: Call)
    requires Canonical(ts) && FreshCall(ts, id, c)
    ensures Known(ts) && NoneEmpty(ts)
    ensures Canonical(AddCall(ts, id, c)) <==> id in ts.calls || NoneFollows(ts.calls, c)
  {
    hide Canonical, Filed, Sound, RunsIn, CanFold;
    CanonicalSound(ts);
    if id !in ts.calls {
      var ts' := AddCall(ts, id, c);
      AddCallSound(ts, id, c);
      AddedRuns(ts, id, c);
      SameKeys(ts');
      if NoneFollows(ts.calls, c) {
        forall a, b | a in ts'.calls && b in ts'.calls && CanFold(ts'.calls[a], ts'.calls[b]) ensures ts'.lineOf[a] == ts'.lineOf[b] {
          NotItself(c);
          if b == id && a != id { FoundByEnd(ts, id, c, a); }
        }
        FromParts(ts');
      } else {
        var k :| k in ts.calls && CanFold(c, ts.calls[k]);
        NotBehind(ts, id, c, k);
      }
    }
  }

  lemma NotItself(c: Call)
    ensures !CanFold(c, c)
  {
  }

  /** The line a new call joins is the one its predecessor ends. */
  lemma FoundByEnd(ts: Tools, id: string, c: Call, a: string)
    requires Canonical(ts) && id !in ts.calls && FreshCall(ts, id, c) && a in ts.calls && CanFold(ts.calls[a], c)
    ensures Known(ts) && NoneEmpty(ts) && a in ts.lineOf && AddCall(ts, id, c).lineOf == ts.lineOf[id := ts.lineOf[a]]
  {
    hide Canonical, Filed, Sound, Together, RunsIn, AddCall;
    CanonicalSound(ts);
    JoinsAnEnd(ts, id, c, a);
    var n := AddedLine(ts, id, c);
    var k := Last(ts.lines[n]);
    assert k in ts.calls && ts.calls[k].index == ts.calls[a].index;
    NotThere(ts, k, n);
  }

  /** A call behind which one that folds stands already joins another line, or starts one. */
  lemma NotBehind(ts: Tools, id: string, c: Call, k: string)
    requires Canonical(ts) && id !in ts.calls && FreshCall(ts, id, c) && k in ts.calls && CanFold(c, ts.calls[k])
    ensures Known(ts) && NoneEmpty(ts) && !Canonical(AddCall(ts, id, c))
  {
    hide Filed, Sound, RunsIn, Folded, AddCall, Canonical;
    CanonicalSound(ts);
    var ts' := AddCall(ts, id, c);
    var n := AddedLine(ts, id, c);
    if Canonical(ts') {
      CanonicalSound(ts');
      var m, j := Found(ts', k);
      CountsUp(ts', n, |ts'.lines[n]| - 1);
      CountsUp(ts', n, j);
      assert false;
    }
  }

  // ---- One call's end

  /** Where a call stands in its line. */
  function Place(ts: Tools, id: string): nat
    requires id in ts.lineOf && ts.lineOf[id] < |ts.lines|
  {
    IndexIn(ts.lines[ts.lineOf[id]], id)
  }

  /** The call is the first or the last of its line. */
  predicate AtEdge(ts: Tools, id: string) {
    id in ts.lineOf && ts.lineOf[id] < |ts.lines| && (Place(ts, id) == 0 || Place(ts, id) == |ts.lines[ts.lineOf[id]]| - 1)
  }

  /** No other call folds with `c`, on either side. */
  ghost predicate FoldsWithNone(calls: map<string, Call>, id: string, c: Call) {
    forall k :: k in calls && k != id ==> !CanFold(calls[k], c) && !CanFold(c, calls[k])
  }

  /**
    The ends that leave the lines as a reload draws them: a refusal at the edge of its line; any end of a
    call that was not refused; of one that was, when no call would fold with it now.
  */
  ghost predicate EndFits(ts: Tools, id: string, denied: bool) {
    id in ts.calls ==>
      if denied then AtEdge(ts, id) else ts.calls[id].denied ==> FoldsWithNone(ts.calls, id, ts.calls[id].(denied := false))
  }

  /** A change of one call's end and flags: the others are as they were. */
  ghost predicate OneEnded(calls: map<string, Call>, calls': map<string, Call>, id: string, denied: bool) {
    && id in calls && calls'.Keys == calls.Keys && (forall k :: k in calls && k != id ==> calls'[k] == calls[k])
    && calls'[id].index == calls[id].index && calls'[id].tool == calls[id].tool && calls'[id].denied == denied
  }

  lemma FoldAfter(calls: map<string, Call>, calls': map<string, Call>, id: string, denied: bool, a: string, b: string)
    requires OneEnded(calls, calls', id, denied) && a in calls && b in calls
    ensures denied && (a == id || b == id) ==> !CanFold(calls'[a], calls'[b])
    ensures (a != id && b != id) || (!denied && !calls[id].denied) ==> (CanFold(calls'[a], calls'[b]) <==> CanFold(calls[a], calls[b]))
    ensures CanFold(calls[a], calls[b]) && !CanFold(calls'[a], calls'[b]) ==> denied
    ensures !denied && (a == id) != (b == id) ==>
              CanFold(calls'[a], calls'[b]) ==
              (if a == id then CanFold(calls[id].(denied := false), calls[b]) else CanFold(calls[a], calls[id].(denied := false)))
  {
    NotItself(calls'[id]);
    NotItself(calls[id]);
  }

  /** Of a line, what has not the call that ended among its calls is the run it was. */
  lemma OthersRun(calls: map<string, Call>, calls': map<string, Call>, id: string, denied: bool, line: seq<string>)
    requires OneEnded(calls, calls', id, denied) && Run(FoldIn(calls), line) && (forall a :: a in line ==> a in calls)
    requires id !in line || (!denied && |line| >= 2)
    ensures Run(FoldIn(calls'), line)
  {
    hide Run, CanFold;
    if id in line { NotRefused(calls, line, id); }
    forall a, b | a in line && b in line ensures FoldIn(calls')(a, b) == FoldIn(calls)(a, b) { FoldAfter(calls, calls', id, denied, a, b); }
    RunChange(FoldIn(calls), FoldIn(calls'), line);
  }

  lemma NotRefused(calls: map<string, Call>, line: seq<string>, id: string)
    requires Run(FoldIn(calls), line) && |line| >= 2 && id in line && id in calls
    ensures !calls[id].denied
  {
    var i :| 0 <= i < |line| && line[i] == id;
    var k := if i == 0 then 1 else i;
    RunStep(FoldIn(calls), line, k);
    assert CanFold(calls[line[k - 1]], calls[line[k]]);
  }

  lemma EndRuns(ts: Tools, calls': map<string, Call>, id: string, denied: bool)
    requires Canonical(ts) && OneEnded(ts.calls, calls', id, denied)
    requires denied ==> id in ts.lineOf && ts.lineOf[id] < |ts.lines| && |ts.lines[ts.lineOf[id]]| == 1
    ensures RunsIn(calls', ts.lines)
  {
    hide Canonical, CanFold, Folded, OneEnded, Sound, Run;
    CanonicalSound(ts);
    EndedKeys(ts.calls, calls', id, denied);
    forall l | 0 <= l < |ts.lines| ensures Run(FoldIn(calls'), ts.lines[l]) {
      assert forall a :: a in ts.lines[l] ==> a in ts.calls;
      if id in ts.lines[l] && |ts.lines[l]| == 1 {
        OneIsRun(FoldIn(calls'), id);
        assert ts.lines[l] == [id];
      } else {
        if id in ts.lines[l] { NotThere(ts, id, l); }
        OthersRun(ts.calls, calls', id, denied, ts.lines[l]);
      }
    }
  }

  lemma EndedKeys(calls: map<string, Call>, calls': map<string, Call>, id: string, denied: bool)
    requires OneEnded(calls, calls', id, denied)
    ensures id in calls && calls'.Keys == calls.Keys
  {
  }

  /** An end that splits no line. */
  lemma PlainEndCanonical(ts: Tools, calls': map<string, Call>, id: string, denied: bool)
    requires Canonical(ts) && OneEnded(ts.calls, calls', id, denied) && Sound(ts.(calls := calls'))
    requires denied ==> id in ts.lineOf && ts.lineOf[id] < |ts.lines| && |ts.lines[ts.lineOf[id]]| == 1
    ensures Canonical(ts.(calls := calls')) <==>
            denied || (ts.calls[id].denied ==> FoldsWithNone(ts.calls, id, ts.calls[id].(denied := false)))
  {
    hide Canonical, CanFold, Folded, OneEnded, Sound, Filed;
    CanonicalSound(ts);
    EndedKeys(ts.calls, calls', id, denied);
    EndRuns(ts, calls', id, denied);
    var ts' := ts.(calls := calls');
    if denied || !ts.calls[id].denied || FoldsWithNone(ts.calls, id, ts.calls[id].(denied := false)) {
      forall a, b | a in calls' && b in calls' && CanFold(calls'[a], calls'[b]) ensures ts.lineOf[a] == ts.lineOf[b] {
        NotItself(calls'[id]);
        FoldAfter(ts.calls, calls', id, denied, a, b);
      }
      FromParts(ts');
    } else {
      var k :| k in ts.calls && k != id && (CanFold(ts.calls[k], ts.calls[id].(denied := false)) || CanFold(ts.calls[id].(denied := false), ts.calls[k]));
      FoldAfter(ts.calls, calls', id, denied, k, id);
      FoldAfter(ts.calls, calls', id, denied, id, k);
      RefusedIsAlone(ts, id);
      var l, i := Found(ts, k);
      if Canonical(ts') { CanonicalSound(ts'); assert false; }
    }
  }

  lemma EdgeParts(line: seq<string>, at: nat)
    requires |line| >= 2 && (at == 0 || at == |line| - 1)
    ensures Staying(line, at) == if at == 0 then [line[0]] else line[..at]
    ensures Leaving(line, at) == if at == 0 then line[1..] else [line[at]]
  {
    assert line[|line|..] == [];
  }

  lemma PartRun(fold: Fold, line: seq<string>, a: nat, b: nat)
    requires Run(fold, line) && a < b <= |line|
    ensures Run(fold, line[a..b])
  {
  }

  lemma SplitEdgeRuns(ts: Tools, t1: Tools, id: string)
    requires Canonical(ts) && t1 == ts.(calls := t1.calls) && OneEnded(ts.calls, t1.calls, id, true) && Splits(t1, id) && AtEdge(ts, id)
    ensures RunsIn(SplitDenied(t1, id).calls, SplitDenied(t1, id).lines)
  {
    hide Canonical, CanFold, Folded, OneEnded, Sound, Staying, Leaving, Run, Filed;
    CanonicalSound(ts);
    EndedKeys(ts.calls, t1.calls, id, true);
    var l, at := ts.lineOf[id], Place(ts, id);
    EdgeParts(ts.lines[l], at);
    var ts' := SplitDenied(t1, id);
    assert ts'.lines == ts.lines[l := Staying(ts.lines[l], at)] + [Leaving(ts.lines[l], at)];
    OneIsRun(FoldIn(t1.calls), id);
    RestRun(ts, t1.calls, id);
    forall m | 0 <= m < |ts'.lines| ensures Run(FoldIn(t1.calls), ts'.lines[m]) {
      if m < |ts.lines| && m != l {
        assert forall a :: a in ts.lines[m] ==> a in ts.calls;
        if id in ts.lines[m] { NotThere(ts, id, m); }
        OthersRun(ts.calls, t1.calls, id, true, ts.lines[m]);
      }
    }
  }

  /** The line without the call at its edge is still a run. */
  lemma RestRun(ts: Tools, calls': map<string, Call>, id: string)
    requires Canonical(ts) && OneEnded(ts.calls, calls', id, true) && AtEdge(ts, id) && |ts.lines[ts.lineOf[id]]| >= 2
    ensures var line, at := ts.lines[ts.lineOf[id]], Place(ts, id);
            Run(FoldIn(calls'), if at == 0 then line[1..] else line[..at])
  {
    hide Canonical, CanFold, Folded, OneEnded, Sound, Run, Filed;
    CanonicalSound(ts);
    EndedKeys(ts.calls, calls', id, true);
    var l, at := ts.lineOf[id], Place(ts, id);
    var line := ts.lines[l];
    InItsLine(ts, id);
    var rest := if at == 0 then line[1..] else line[..at];
    assert line[1..|line|] == line[1..] && line[0..at] == line[..at];
    if at == 0 { PartRun(FoldIn(ts.calls), line, 1, |line|); } else { PartRun(FoldIn(ts.calls), line, 0, at); }
    assert line[at] == id;
    assert forall a :: a in rest ==> a in line;
    OthersRun(ts.calls, calls', id, true, rest);
  }

  /** A refusal at the edge of a line leaves canonical lines. */
  lemma SplitEdgeCanonical(ts: Tools, t1: Tools, id: string)
    requires Canonical(ts) && t1 == ts.(calls := t1.calls) && OneEnded(ts.calls, t1.calls, id, true) && Splits(t1, id)
    requires Sound(SplitDenied(t1, id)) && AtEdge(ts, id)
    ensures Canonical(SplitDenied(t1, id))
  {
    hide Canonical, CanFold, Folded, OneEnded, Sound, Staying, Filed, RunsIn;
    CanonicalSound(ts);
    EndedKeys(ts.calls, t1.calls, id, true);
    var l, at := ts.lineOf[id], Place(ts, id);
    EdgeParts(ts.lines[l], at);
    SplitEdgeRuns(ts, t1, id);
    var ts' := SplitDenied(t1, id);
    SameKeys(ts');
    forall a, b | a in ts'.calls && b in ts'.calls && CanFold(ts'.calls[a], ts'.calls[b]) ensures ts'.lineOf[a] == ts'.lineOf[b] {
      FoldAfter(ts.calls, t1.calls, id, true, a, b);
      assert ts.lineOf[a] == ts.lineOf[b];
      MovedTogether(ts, id, a);
      MovedTogether(ts, id, b);
    }
    FromParts(ts');
  }

  lemma MovedTogether(ts: Tools, id: string, a: string)
    requires Filed(ts) && id in ts.calls && a in ts.calls && a != id && AtEdge(ts, id) && |ts.lines[ts.lineOf[id]]| >= 2
    ensures a in ts.lineOf && a in Leaving(ts.lines[ts.lineOf[id]], Place(ts, id)) <==> ts.lineOf[a] == ts.lineOf[id] && Place(ts, id) == 0
  {
    var line, at := ts.lines[ts.lineOf[id]], Place(ts, id);
    InItsLine(ts, id);
    EdgeParts(line, at);
    var l, i := Found(ts, a);
    if l == ts.lineOf[id] && at == 0 { assert line[1..][i - 1] == a; }
  }

  /** A refusal strictly inside a line leaves two calls side by side that do not follow one another. */
  lemma SplitInside(ts: Tools, t1: Tools, id: string)
    requires Canonical(ts) && t1 == ts.(calls := t1.calls) && OneEnded(ts.calls, t1.calls, id, true) && Splits(t1, id) && !AtEdge(ts, id)
    ensures !Canonical(SplitDenied(t1, id))
  {
    hide Canonical, CanFold, Folded, Sound, Filed;
    CanonicalSound(ts);
    var l, at := ts.lineOf[id], Place(ts, id);
    var line := ts.lines[l];
    var ts' := SplitDenied(t1, id);
    assert ts'.lines[l] == line[..at] + line[at + 1..];
    CountsUp(ts, l, at - 1);
    CountsUp(ts, l, at + 1);
    CountsUp(ts, l, at);
    assert line[at] == id;
    if Canonical(ts') {
      CountsUp(ts', l, at - 1);
      CountsUp(ts', l, at);
      assert false;
    }
  }

  /** A call's end keeps the lines canonical exactly when it fits: a refusal, exactly when it is not strictly inside its line. */
  lemma ToolEndCanonical(ts: Tools, id: string, endedAt: int, isError: bool, denied: bool)
    requires Canonical(ts)
    ensures Canonical(ToolEnd(ts, id, endedAt, isError, denied)) <==> EndFits(ts, id, denied)
  {
    hide Canonical, CanFold, Folded, Sound, Filed, SplitDenied;
    if id in ts.calls {
      CanonicalSound(ts);
      ToolEndSound(ts, id, endedAt, isError, denied);
      InItsLine(ts, id);
      var t1 := ts.(calls := ts.calls[id := Ended(ts.calls[id], endedAt, isError, denied)]);
      if denied && Splits(t1, id) {
        if AtEdge(ts, id) { SplitEdgeCanonical(ts, t1, id); } else { SplitInside(ts, t1, id); }
      } else {
        if denied { NoSplit(t1, id); }
        PlainEndCanonical(ts, t1.calls, id, denied);
      }
    }
  }

  lemma NoSplit(t1: Tools, id: string)
    requires !Splits(t1, id)
    ensures SplitDenied(t1, id) == t1
  {
  }

  // ---- What a reload draws

  /** A reload adds the calls in order: its lines are canonical. */
  lemma {:induction false} ReloadCanonical(list: seq<Started>)
    requires InOrder(list)
    ensures Canonical(AddAll(list))
  {
    hide Canonical, Sound, AddCall, Holds;
    if list == [] {
      NothingDrawn();
    } else {
      var n := |list| - 1;
      var ts := AddAll(list[..n]);
      ReloadCanonical(list[..n]);
      NextIsFresh(ts, list);
      HeldParts(ts, list[..n]);
      AddCallCanonical(ts, list[n].id, list[n].call);
      forall k | k in ts.calls ensures !CanFold(list[n].call, ts.calls[k]) {
        assert k in IdsOf(list[..n]);
        var i :| 0 <= i < n && list[..n][i].id == k;
        assert list[..n][i] == list[i];
      }
    }
  }

  lemma NothingDrawn()
    ensures Canonical(NO_TOOLS) && AddAll([]) == NO_TOOLS
  {
  }

  /** The lines on the page are the reload's exactly when they are canonical. */
  lemma ReloadIff(ts: Tools, list: seq<Started>)
    requires Sound(ts) && InOrder(list) && AddAll(list).calls == ts.calls
    ensures LineSet(ts) == LineSet(AddAll(list)) <==> Canonical(ts)
  {
    hide Canonical, Sound, LineSet, InOrder, AddAll;
    ReloadCanonical(list);
    if Canonical(ts) { CanonicalUnique(ts, AddAll(list)); }
    if LineSet(ts) == LineSet(AddAll(list)) { SameSetCanonical(AddAll(list), ts); }
  }

  /** A refusal learned live leaves the lines that a reload knowing it draws exactly when the call was not strictly inside its line. */
  lemma LateRefusalIff(ts: Tools, id: string, endedAt: int, isError: bool, list: seq<Started>)
    requires Canonical(ts) && id in ts.calls && InOrder(list)
    requires AddAll(list).calls == ToolEnd(ts, id, endedAt, isError, true).calls
    ensures LineSet(ToolEnd(ts, id, endedAt, isError, true)) == LineSet(AddAll(list)) <==> AtEdge(ts, id)
  {
    hide Canonical, Sound, LineSet, InOrder, AddAll, ToolEnd, AtEdge;
    CanonicalSound(ts);
    ToolEndSound(ts, id, endedAt, isError, true);
    ToolEndCanonical(ts, id, endedAt, isError, true);
    ReloadIff(ToolEnd(ts, id, endedAt, isError, true), list);
  }

  // ---- Whole runs

  /** What a message must be for the lines to stay canonical; texts, prompts, retries, the end and STOP always are. */
  ghost predicate Keeps(t: Spec.Turn, m: Spec.Msg) {
    match m
    case MStart(id, c) => t.flow.ended || t.flow.frozen || id in t.tools.calls || NoneFollows(t.tools.calls, c)
    case MEnd(id, _, _, denied) => t.flow.frozen || EndFits(t.tools, id, denied)
    case _ => true
  }

  lemma StepCanonical(t: Spec.Turn, m: Spec.Msg)
    requires Spec.Sound(t) && Spec.Fits(t, m) && Canonical(t.tools)
    ensures Known(t.tools) && NoneEmpty(t.tools) && Spec.Sound(Spec.Step(t, m))
    ensures Canonical(Spec.Step(t, m).tools) <==> Keeps(t, m)
  {
    hide Canonical, Spec.Sound, AddCall, ToolEnd, FreshCall, EndFits;
    Laws.StepSound(t, m);
    match m
    case MStart(id, c) => AddCallCanonical(t.tools, id, c);
    case MEnd(id, at, e, d) => ToolEndCanonical(t.tools, id, at, e, d);
    case _ =>
  }

  ghost predicate KeepsAll(t: Spec.Turn, ms: seq<Spec.Msg>)
    requires Spec.Sound(t) && Laws.FitAll(t, ms)
    decreases |ms|
  {
    ms == [] || (Keeps(t, ms[0]) && (Laws.StepSound(t, ms[0]); KeepsAll(Spec.Step(t, ms[0]), ms[1..])))
  }

  /** The lines are canonical after every message. */
  ghost predicate AlwaysCanonical(t: Spec.Turn, ms: seq<Spec.Msg>)
    requires Spec.Sound(t) && Laws.FitAll(t, ms)
    decreases |ms|
  {
    Canonical(t.tools) && (ms == [] || (Laws.StepSound(t, ms[0]); AlwaysCanonical(Spec.Step(t, ms[0]), ms[1..])))
  }

  /**
    Over any run the lines are canonical after every message exactly when every counted start has no call behind it
    that folds and every counted refusal, live or not, hits the edge of its line.
  */
  lemma {:induction false} RunCanonicalIff(t: Spec.Turn, ms: seq<Spec.Msg>)
    requires Spec.Sound(t) && Laws.FitAll(t, ms) && Canonical(t.tools)
    ensures AlwaysCanonical(t, ms) <==> KeepsAll(t, ms)
    ensures KeepsAll(t, ms) ==> Canonical(Laws.After(t, ms).tools)
    decreases |ms|
  {
    hide Canonical, Spec.Sound, Spec.Step, Keeps, Spec.Fits;
    if ms != [] {
      StepCanonical(t, ms[0]);
      if Keeps(t, ms[0]) {
        RunCanonicalIff(Spec.Step(t, ms[0]), ms[1..]);
      } else {
        NotAlways(Spec.Step(t, ms[0]), ms[1..]);
      }
    }
  }

  lemma NotAlways(t: Spec.Turn, ms: seq<Spec.Msg>)
    requires Spec.Sound(t) && Laws.FitAll(t, ms) && !Canonical(t.tools)
    ensures !AlwaysCanonical(t, ms)
  {
  }

  /** So after such a run the page shows, as a set of lines, what a reload shows. */
  lemma LiveIsReload(t: Spec.Turn, ms: seq<Spec.Msg>, list: seq<Started>)
    requires Spec.Sound(t) && t.tools == NO_TOOLS && Laws.FitAll(t, ms) && KeepsAll(t, ms)
    requires InOrder(list) && AddAll(list).calls == Laws.After(t, ms).tools.calls
    ensures LineSet(Laws.After(t, ms).tools) == LineSet(AddAll(list))
  {
    hide Canonical, Spec.Sound, InOrder, AddAll, LineSet, KeepsAll, Laws.FitAll, Laws.After, Sound;
    NothingDrawn();
    RunCanonicalIff(t, ms);
    Laws.SoundParts(Laws.After(t, ms));
    ReloadIff(Laws.After(t, ms).tools, list);
  }

  // ---- Runs without refusals, calls ascending

  /** Counted starts come at ascending indices; no call is refused. */
  ghost predicate Ascends(t: Spec.Turn, m: Spec.Msg) {
    match m
    case MStart(id, c) =>
      t.flow.ended || t.flow.frozen || id in t.tools.calls ||
      (!c.denied && forall k :: k in t.tools.calls ==> t.tools.calls[k].index < c.index)
    case MEnd(id, _, _, denied) => t.flow.frozen || id !in t.tools.calls || !denied
    case _ => true
  }

  ghost predicate AscendsAll(t: Spec.Turn, ms: seq<Spec.Msg>)
    requires Spec.Sound(t) && Laws.FitAll(t, ms)
    decreases |ms|
  {
    ms == [] || (Ascends(t, ms[0]) && (Laws.StepSound(t, ms[0]); AscendsAll(Spec.Step(t, ms[0]), ms[1..])))
  }

  /** The lines hold exactly these calls, in order, none of them refused. */
  ghost predicate Unrefused(ts: Tools, list: seq<Started>) {
    Canonical(ts) && InOrder(list) && Holds(ts, list) && forall i :: 0 <= i < |list| ==> !list[i].call.denied
  }

  lemma StartInOrder(ts: Tools, list: seq<Started>, id: string, c: Call) returns (list': seq<Started>)
    requires Unrefused(ts, list) && id !in ts.calls && !c.denied && forall k :: k in ts.calls ==> ts.calls[k].index < c.index
    ensures Known(ts) && NoneEmpty(ts) && Unrefused(AddCall(ts, id, c), list')
  {
    hide Canonical, Sound, AddCall, Known, NoneEmpty;
    list' := list + [Started(id, c)];
    assert list'[..|list|] == list;
    CanonicalSound(ts);
    assert forall i :: 0 <= i < |list| ==> list[i].id in ts.calls && ts.calls[list[i].id] == list[i].call;
    AddOne(ts, list');
    AddCallCanonical(ts, id, c);
  }

  lemma EndInOrder(ts: Tools, list: seq<Started>, id: string, endedAt: int, isError: bool) returns (list': seq<Started>)
    requires Unrefused(ts, list)
    ensures Unrefused(ToolEnd(ts, id, endedAt, isError, false), list')
  {
    hide Canonical, Sound, ToolEnd, Holds, InOrder;
    list' := list;
    if id in ts.calls {
      HeldParts(ts, list);
      assert id in IdsOf(list);
      var n :| 0 <= n < |list| && list[n].id == id;
      list' := list[n := Started(id, Ended(list[n].call, endedAt, isError, false))];
      ToolEndCanonical(ts, id, endedAt, isError, false);
      CanonicalSound(ToolEnd(ts, id, endedAt, isError, false));
      EndHolds(ts, list, n, endedAt, isError);
    } else {
      UnknownEnd(ts, id, endedAt, isError, false);
    }
  }

  lemma EndHolds(ts: Tools, list: seq<Started>, n: nat, endedAt: int, isError: bool)
    requires Holds(ts, list) && InOrder(list) && n < |list|
    requires Sound(ToolEnd(ts, list[n].id, endedAt, isError, false))
    ensures var list' := list[n := Started(list[n].id, Ended(list[n].call, endedAt, isError, false))];
            InOrder(list') && Holds(ToolEnd(ts, list[n].id, endedAt, isError, false), list')
  {
    hide Sound;
    var list' := list[n := Started(list[n].id, Ended(list[n].call, endedAt, isError, false))];
    assert IdsOf(list') == IdsOf(list);
  }

  lemma StepInOrder(t: Spec.Turn, m: Spec.Msg, list: seq<Started>) returns (list': seq<Started>)
    requires Spec.Sound(t) && Spec.Fits(t, m) && Ascends(t, m) && Unrefused(t.tools, list)
    ensures Known(t.tools) && NoneEmpty(t.tools) && Unrefused(Spec.Step(t, m).tools, list')
  {
    hide Unrefused, Spec.Sound, AddCall, ToolEnd;
    Laws.StepSound(t, m);
    list' := list;
    match m
    case MStart(id, c) =>
      if !t.flow.ended && !t.flow.frozen && id !in t.tools.calls { list' := StartInOrder(t.tools, list, id, c); } else { KnownStays(t.tools, id, c); }
    case MEnd(id, at, e, d) =>
      if id !in t.tools.calls { UnknownEnd(t.tools, id, at, e, d); } else if !t.flow.frozen { list' := EndInOrder(t.tools, list, id, at, e); }
    case _ =>
  }

  lemma KnownStays(ts: Tools, id: string, c: Call)
    requires Known(ts) && NoneEmpty(ts)
    ensures id in ts.calls ==> AddCall(ts, id, c) == ts
  {
  }

  lemma UnknownEnd(ts: Tools, id: string, endedAt: int, isError: bool, denied: bool)
    requires id !in ts.calls
    ensures ToolEnd(ts, id, endedAt, isError, denied) == ts
  {
  }

  lemma {:induction false} RunInOrder(t: Spec.Turn, ms: seq<Spec.Msg>, list: seq<Started>) returns (list': seq<Started>)
    requires Spec.Sound(t) && Laws.FitAll(t, ms) && AscendsAll(t, ms) && Unrefused(t.tools, list)
    ensures Unrefused(Laws.After(t, ms).tools, list')
    decreases |ms|
  {
    hide Unrefused, Spec.Sound, Spec.Step, Ascends, Spec.Fits;
    list' := list;
    if ms != [] {
      Laws.StepSound(t, ms[0]);
      list' := StepInOrder(t, ms[0], list);
      list' := RunInOrder(Spec.Step(t, ms[0]), ms[1..], list');
    }
  }

  lemma {:induction false} MaximalUpTo(ts: Tools, n: nat)
    requires Canonical(ts) && n <= |ts.lines|
    ensures Maximal(FoldIn(ts.calls), ts.lines[..n])
  {
    hide Canonical, Run, Sound, CanFold;
    CanonicalSound(ts);
    if n > 0 {
      MaximalUpTo(ts, n - 1);
      assert ts.lines[..n][..n - 1] == ts.lines[..n - 1];
      if n > 1 {
        var a, b := Last(ts.lines[n - 2]), ts.lines[n - 1][0];
        NotThere(ts, a, n - 2);
        NotThere(ts, b, n - 1);
        assert !FoldIn(ts.calls)(a, b);
      }
    }
  }

  lemma SameCalls(ts: Tools, us: Tools, list: seq<Started>)
    requires Holds(ts, list) && Holds(us, list)
    ensures ts.calls == us.calls
  {
    hide Sound;
    forall k ensures k in ts.calls <==> k in us.calls {}
    forall k | k in ts.calls ensures ts.calls[k] == us.calls[k] {
      var i :| 0 <= i < |list| && IdsOf(list)[i] == k;
    }
  }

  /**
    A live turn whose calls ascend and none of which is refused, with anything in between: its lines are exactly the
    maximal runs of consecutive calls of one read-only tool, and the very lines a reload draws.
  */
  lemma LiveLines(t: Spec.Turn, ms: seq<Spec.Msg>) returns (list: seq<Started>)
    requires Spec.Sound(t) && t.tools == NO_TOOLS && Laws.FitAll(t, ms) && AscendsAll(t, ms)
    ensures var ts := Laws.After(t, ms).tools;
            && Maximal(FoldIn(ts.calls), ts.lines)
            && InOrder(list) && AddAll(list).calls == ts.calls && AddAll(list).lines == ts.lines
  {
    hide Canonical, Sound, AddAll, Maximal, AscendsAll, Laws.FitAll, Spec.Sound;
    NothingDrawn();
    list := RunInOrder(t, ms, []);
    var ts := Laws.After(t, ms).tools;
    MaximalUpTo(ts, |ts.lines|);
    assert ts.lines[..|ts.lines|] == ts.lines;
    SameCalls(ts, AddAll(list), list);
    LinesAreUnique(list, ts.lines);
  }
}
