/**
  The tool lines of one turn on values: which line a call joins, and what a refusal
  learned late does to its line (public/js/core/tool-words.js: `canFold`;
  public/js/cockpit/turns.js: `addCall`, `splitDenied`, `toolEnd`).
*/
module TurnTools {
  import opened Options

  datatype Call = Call(tool: string, index: int, startedAt: int, endedAt: Option<int>, isError: bool, denied: bool)

  const PREFIX := "mcp__laneboard__"
  const READ_ONLY: set<string> :=
    {"fleet", "runs", "lanes", "ci", "alerts", "morning", "history", "focus",
     "Read", "Grep", "Glob", "WebFetch", "WebSearch", "Task"}

  function ToolName(tool: string): string {
    if |PREFIX| <= |tool| && tool[..|PREFIX|] == PREFIX then tool[|PREFIX|..] else tool
  }

  predicate ChangesThings(tool: string) { ToolName(tool) !in READ_ONLY }

  /** Whether `c` joins the line whose last call is `last`. */
  predicate CanFold(last: Call, c: Call) {
    !last.denied && !c.denied && last.index == c.index - 1 && ToolName(last.tool) == ToolName(c.tool) && !ChangesThings(c.tool)
  }

  /** A tool's own name is what stands behind the prefix, or all of it. */
  lemma ToolNameLaw(tool: string)
    ensures ToolName("mcp__laneboard__" + tool) == tool
    ensures !("mcp__laneboard__" <= tool) ==> ToolName(tool) == tool
  {
  }

  /** A call joins a line exactly when it comes right after its last call, neither was refused, and both are of one reading tool. */
  lemma FoldLaw(last: Call, c: Call)
    ensures CanFold(last, c) <==>
            && c.index == last.index + 1 && !c.denied && !last.denied && ToolName(c.tool) == ToolName(last.tool)
            && ToolName(c.tool) in {"fleet", "runs", "lanes", "ci", "alerts", "morning", "history", "focus",
                                    "Read", "Grep", "Glob", "WebFetch", "WebSearch", "Task"}
  {
  }

  /** The lines as ids of calls; each call, and the line its record names. */
  datatype Tools = Tools(lines: seq<seq<string>>, calls: map<string, Call>, lineOf: map<string, nat>)

  const NO_TOOLS := Tools([], map[], map[])

  /** Every id of every line is a known call. */
  ghost predicate Known(ts: Tools) {
    forall l, i :: 0 <= l < |ts.lines| && 0 <= i < |ts.lines[l]| ==> ts.lines[l][i] in ts.calls
  }

  ghost predicate NoneEmpty(ts: Tools) { forall l :: 0 <= l < |ts.lines| ==> ts.lines[l] != [] }

  function Last(line: seq<string>): string
    requires line != []
  {
    line[|line| - 1]
  }

  /** The first line whose last call `c` may join. */
  function FindLine(ts: Tools, c: Call, from: nat): (r: Option<nat>)
    requires Known(ts) && NoneEmpty(ts) && from <= |ts.lines|
    ensures r.Some? ==> from <= r.value < |ts.lines| && CanFold(ts.calls[Last(ts.lines[r.value])], c)
    ensures forall l :: from <= l < |ts.lines| && (r == None || l < r.value) ==> !CanFold(ts.calls[Last(ts.lines[l])], c)
    decreases |ts.lines| - from
  {
    if from == |ts.lines| then None
    else if CanFold(ts.calls[Last(ts.lines[from])], c) then Some(from)
    else FindLine(ts, c, from + 1)
  }

  function AddCall(ts: Tools, id: string, c: Call): Tools
    requires Known(ts) && NoneEmpty(ts)
  {
    if id in ts.calls then ts
    else
      match FindLine(ts, c, 0)
      case Some(l) => Tools(ts.lines[l := ts.lines[l] + [id]], ts.calls[id := c], ts.lineOf[id := l])
      case None => Tools(ts.lines + [[id]], ts.calls[id := c], ts.lineOf[id := |ts.lines|])
  }

  /** Where an id stands in its line. */
  function IndexIn(line: seq<string>, id: string): (i: nat)
    ensures i <= |line|
    ensures id in line ==> i < |line| && line[i] == id
    ensures forall j :: 0 <= j < i ==> line[j] != id
  {
    if line == [] || line[0] == id then 0 else 1 + IndexIn(line[1..], id)
  }

  function Moved(lineOf: map<string, nat>, ids: seq<string>, l: nat): map<string, nat> {
    map k | k in lineOf :: if k in ids then l else lineOf[k]
  }

  /** What stays in the line of a refused call, and what leaves it: the call, or the calls after it when it was the first. */
  function Staying(line: seq<string>, at: nat): seq<string>
    requires at < |line|
  {
    if at == 0 then line[..1] else line[..at] + line[at + 1..]
  }

  function Leaving(line: seq<string>, at: nat): seq<string>
    requires at < |line|
  {
    if at == 0 then line[1..] else [line[at]]
  }

  predicate Splits(ts: Tools, id: string) {
    id in ts.calls && id in ts.lineOf && ts.lineOf[id] < |ts.lines| && id in ts.lines[ts.lineOf[id]] && |ts.lines[ts.lineOf[id]]| >= 2
  }

  function SplitDenied(ts: Tools, id: string): Tools {
    if !Splits(ts, id) then ts
    else
      var l := ts.lineOf[id];
      var at := IndexIn(ts.lines[l], id);
      var moved := Leaving(ts.lines[l], at);
      Tools(ts.lines[l := Staying(ts.lines[l], at)] + [moved], ts.calls, Moved(ts.lineOf, moved, |ts.lines|))
  }

  function ToolEnd(ts: Tools, id: string, endedAt: int, isError: bool, denied: bool): Tools {
    if id !in ts.calls then ts
    else
      var t1 := ts.(calls := ts.calls[id := Ended(ts.calls[id], endedAt, isError, denied)]);
      if denied then SplitDenied(t1, id) else t1
  }

  // ---- What every run keeps

  /** Every call stands in the line its record names, exactly once, and nowhere else. */
  ghost predicate Filed(ts: Tools) {
    && ts.lineOf.Keys == ts.calls.Keys
    && (forall l, i :: 0 <= l < |ts.lines| && 0 <= i < |ts.lines[l]| ==> ts.lines[l][i] in ts.calls && ts.lineOf[ts.lines[l][i]] == l)
    && (forall l, i, j :: 0 <= l < |ts.lines| && 0 <= i < j < |ts.lines[l]| ==> ts.lines[l][i] != ts.lines[l][j])
    && (forall id :: id in ts.calls ==> ts.lineOf[id] < |ts.lines| && id in ts.lines[ts.lineOf[id]])
  }

  /** A line of two or more calls: ascending, one read-only tool, none of them refused. */
  ghost predicate Folded(calls: map<string, Call>, line: seq<string>)
    requires forall i :: 0 <= i < |line| ==> line[i] in calls
  {
    && (forall i, j :: 0 <= i < j < |line| ==> calls[line[i]].index < calls[line[j]].index)
    && (|line| >= 2 ==> forall i :: 0 <= i < |line| ==>
          && !calls[line[i]].denied && !ChangesThings(calls[line[i]].tool)
          && ToolName(calls[line[i]].tool) == ToolName(calls[line[0]].tool))
  }

  ghost predicate DistinctIndices(calls: map<string, Call>) {
    forall a, b :: a in calls && b in calls && calls[a].index == calls[b].index ==> a == b
  }

  ghost predicate Sound(ts: Tools) {
    && Filed(ts) && NoneEmpty(ts) && DistinctIndices(ts.calls)
    && (forall l :: 0 <= l < |ts.lines| ==> Folded(ts.calls, ts.lines[l]))
  }

  lemma SoundKnown(ts: Tools)
    requires Sound(ts)
    ensures Known(ts) && NoneEmpty(ts)
  {
  }

  ghost predicate FreshCall(ts: Tools, id: string, c: Call) {
    id !in ts.calls ==> forall k :: k in ts.calls ==> ts.calls[k].index != c.index
  }

  lemma JoinFiled(ts: Tools, id: string, c: Call, l: nat)
    requires Filed(ts) && id !in ts.calls && l < |ts.lines|
    ensures Filed(Tools(ts.lines[l := ts.lines[l] + [id]], ts.calls[id := c], ts.lineOf[id := l]))
  {
    var ts' := Tools(ts.lines[l := ts.lines[l] + [id]], ts.calls[id := c], ts.lineOf[id := l]);
    forall k | k in ts'.calls ensures k in ts'.lines[ts'.lineOf[k]] {
      if k == id { assert ts'.lines[l][|ts.lines[l]|] == id; } else if ts.lineOf[k] == l {
        var i :| 0 <= i < |ts.lines[l]| && ts.lines[l][i] == k;
        assert ts'.lines[l][i] == k;
      }
    }
  }

  lemma StartFiled(ts: Tools, id: string, c: Call)
    requires Filed(ts) && id !in ts.calls
    ensures Filed(Tools(ts.lines + [[id]], ts.calls[id := c], ts.lineOf[id := |ts.lines|]))
  {
    var ts' := Tools(ts.lines + [[id]], ts.calls[id := c], ts.lineOf[id := |ts.lines|]);
    forall k | k in ts'.calls ensures k in ts'.lines[ts'.lineOf[k]] {
      if k == id { assert ts'.lines[|ts.lines|][0] == id; }
    }
  }

  lemma JoinFolded(calls: map<string, Call>, line: seq<string>, id: string, c: Call)
    requires line != [] && id !in calls && forall i :: 0 <= i < |line| ==> line[i] in calls
    requires Folded(calls, line) && CanFold(calls[Last(line)], c)
    ensures Folded(calls[id := c], line + [id])
  {
    var calls', line' := calls[id := c], line + [id];
    assert forall i :: 0 <= i < |line| ==> calls'[line'[i]] == calls[line[i]];
    assert forall i :: 0 <= i < |line| - 1 ==> calls[line[i]].index < calls[Last(line)].index;
    assert !ChangesThings(calls[Last(line)].tool);
  }

  lemma StillFolded(calls: map<string, Call>, line: seq<string>, id: string, c: Call)
    requires id !in calls && forall i :: 0 <= i < |line| ==> line[i] in calls
    requires Folded(calls, line)
    ensures Folded(calls[id := c], line)
  {
    assert forall i :: 0 <= i < |line| ==> calls[id := c][line[i]] == calls[line[i]];
  }

  /** A call with an index of its own keeps the lines sound. */
  lemma AddCallSound(ts: Tools, id: string, c: Call)
    requires Sound(ts) && FreshCall(ts, id, c)
    ensures Sound(AddCall(ts, id, c))
  {
    hide Folded, Filed;
    SoundFiled(ts);
    if id !in ts.calls {
      var ts' := AddCall(ts, id, c);
      match FindLine(ts, c, 0) {
        case Some(l) => JoinFiled(ts, id, c, l); JoinFolded(ts.calls, ts.lines[l], id, c);
        case None => StartFiled(ts, id, c); OneFolded(ts'.calls, id);
      }
      KnownAll(ts');
      forall l | 0 <= l < |ts'.lines| ensures Folded(ts'.calls, ts'.lines[l]) {
        if l < |ts.lines| && ts'.lines[l] == ts.lines[l] { StillFolded(ts.calls, ts.lines[l], id, c); }
      }
    }
  }

  lemma SoundFiled(ts: Tools)
    requires Sound(ts)
    ensures Filed(ts)
    ensures forall l, i :: 0 <= l < |ts.lines| && 0 <= i < |ts.lines[l]| ==> ts.lines[l][i] in ts.calls
  {
  }

  lemma KnownAll(ts: Tools)
    requires Filed(ts)
    ensures forall l, i :: 0 <= l < |ts.lines| && 0 <= i < |ts.lines[l]| ==> ts.lines[l][i] in ts.calls
  {
  }

  lemma OneFolded(calls: map<string, Call>, id: string)
    requires id in calls
    ensures Folded(calls, [id])
  {
  }

  lemma SplitParts(line: seq<string>, at: nat)
    requires at < |line| && |line| >= 2 && forall i, j :: 0 <= i < j < |line| ==> line[i] != line[j]
    ensures var a, b := Staying(line, at), Leaving(line, at);
            && a != [] && b != [] && a[0] == line[0]
            && (forall k :: k in line <==> k in a || k in b) && (forall k :: k in a ==> k !in b)
            && (forall i, j :: 0 <= i < j < |a| ==> a[i] != a[j]) && (forall i, j :: 0 <= i < j < |b| ==> b[i] != b[j])
  {
    var a, b := Staying(line, at), Leaving(line, at);
    forall k | k in line ensures k in a || k in b {
      var i :| 0 <= i < |line| && line[i] == k;
      if at > 0 {
        if i < at { assert a[i] == k; } else if i > at { assert a[i - 1] == k; } else { assert b[0] == k; }
      } else {
        if i == 0 { assert a[0] == k; } else { assert b[i - 1] == k; }
      }
    }
  }

  lemma SplitFiled(ts: Tools, id: string)
    requires Filed(ts) && Splits(ts, id)
    ensures Filed(SplitDenied(ts, id))
  {
    var l := ts.lineOf[id];
    var at := IndexIn(ts.lines[l], id);
    var a, b := Staying(ts.lines[l], at), Leaving(ts.lines[l], at);
    SplitParts(ts.lines[l], at);
    var ts' := SplitDenied(ts, id);
    hide Staying, Leaving;
    assert ts'.lines[l] == a && ts'.lines[|ts.lines|] == b;
    forall k | k in ts'.calls ensures ts'.lineOf[k] < |ts'.lines| && k in ts'.lines[ts'.lineOf[k]] {
      if ts.lineOf[k] == l { assert k in ts.lines[l]; }
    }
    forall m, i | 0 <= m < |ts'.lines| && 0 <= i < |ts'.lines[m]|
      ensures ts'.lines[m][i] in ts'.calls && ts'.lineOf[ts'.lines[m][i]] == m
    {
      var k := ts'.lines[m][i];
      assert k in ts'.lines[m];
      if m == l || m == |ts.lines| { assert k in ts.lines[l]; } else { assert ts'.lines[m] == ts.lines[m]; }
    }
  }

  /** A folded line less one call, its other calls as they were, is folded. */
  lemma SubFolded(calls: map<string, Call>, calls': map<string, Call>, line: seq<string>, sub: seq<string>, skip: nat)
    requires forall i :: 0 <= i < |line| ==> line[i] in calls
    requires Folded(calls, line) && skip < |line| && |sub| == |line| - 1 && |sub| >= 1
    requires forall i :: 0 <= i < |sub| ==> sub[i] == line[if i < skip then i else i + 1]
    requires forall i :: 0 <= i < |sub| ==> sub[i] in calls' && calls'[sub[i]] == calls[sub[i]]
    ensures Folded(calls', sub)
  {
    forall i, j | 0 <= i < j < |sub| ensures calls'[sub[i]].index < calls'[sub[j]].index {
      var x, y := (if i < skip then i else i + 1), (if j < skip then j else j + 1);
      assert calls[line[x]].index < calls[line[y]].index;
    }
    forall i | 0 <= i < |sub|
      ensures !calls'[sub[i]].denied && !ChangesThings(calls'[sub[i]].tool)
      ensures ToolName(calls'[sub[i]].tool) == ToolName(calls'[sub[0]].tool)
    {
      var x, y := (if i < skip then i else i + 1), (if 0 < skip then 0 else 1);
      assert ToolName(calls[line[x]].tool) == ToolName(calls[line[0]].tool) == ToolName(calls[line[y]].tool);
    }
  }

  lemma SplitFolded(calls: map<string, Call>, calls': map<string, Call>, line: seq<string>, at: nat)
    requires at < |line| && |line| >= 2 && forall i :: 0 <= i < |line| ==> line[i] in calls
    requires Folded(calls, line) && forall i, j :: 0 <= i < j < |line| ==> line[i] != line[j]
    requires calls'.Keys == calls.Keys && forall k :: k in calls && k != line[at] ==> calls'[k] == calls[k]
    ensures forall k :: k in Staying(line, at) ==> k in calls'
    ensures forall k :: k in Leaving(line, at) ==> k in calls'
    ensures Folded(calls', Staying(line, at)) && Folded(calls', Leaving(line, at))
  {
    hide Folded;
    if at == 0 {
      OneFolded(calls', line[0]);
      assert line[..1] == [line[0]];
      SubFolded(calls, calls', line, line[1..], 0);
    } else {
      OneFolded(calls', line[at]);
      var sub := line[..at] + line[at + 1..];
      assert forall i :: 0 <= i < |sub| ==> sub[i] == line[if i < at then i else i + 1];
      SubFolded(calls, calls', line, sub, at);
    }
  }

  lemma EndFiled(ts: Tools, calls': map<string, Call>)
    requires Filed(ts) && calls'.Keys == ts.calls.Keys
    ensures Filed(ts.(calls := calls'))
  {
  }

  /** A line without the call whose end came is as it was. */
  lemma OtherLine(calls: map<string, Call>, calls': map<string, Call>, line: seq<string>, id: string)
    requires forall i :: 0 <= i < |line| ==> line[i] in calls && line[i] != id
    requires calls'.Keys == calls.Keys && forall k :: k in calls && k != id ==> calls'[k] == calls[k]
    requires Folded(calls, line)
    ensures Folded(calls', line)
  {
  }

  /** A call that ends without a refusal keeps its line. */
  lemma EndedLine(calls: map<string, Call>, calls': map<string, Call>, line: seq<string>, id: string)
    requires id in calls && forall i :: 0 <= i < |line| ==> line[i] in calls
    requires calls'.Keys == calls.Keys && forall k :: k in calls && k != id ==> calls'[k] == calls[k]
    requires calls'[id].index == calls[id].index && calls'[id].tool == calls[id].tool && (!calls'[id].denied || |line| < 2)
    requires Folded(calls, line)
    ensures Folded(calls', line)
  {
  }

  lemma NotThere(ts: Tools, id: string, m: nat)
    requires Filed(ts) && id in ts.calls && m < |ts.lines| && id in ts.lines[m]
    ensures id in ts.lineOf && m == ts.lineOf[id]
  {
  }

  lemma InItsLine(ts: Tools, id: string)
    requires Filed(ts) && id in ts.calls
    ensures id in ts.lineOf && ts.lineOf[id] < |ts.lines| && id in ts.lines[ts.lineOf[id]]
    ensures forall i, j :: 0 <= i < j < |ts.lines[ts.lineOf[id]]| ==> ts.lines[ts.lineOf[id]][i] != ts.lines[ts.lineOf[id]][j]
  {
  }

  function Ended(c: Call, endedAt: int, isError: bool, denied: bool): Call {
    c.(endedAt := Some(endedAt), isError := isError, denied := denied)
  }

  lemma EndKeeps(ts: Tools, calls': map<string, Call>, id: string, m: nat)
    requires Sound(ts) && id in ts.calls && m < |ts.lines|
    requires calls'.Keys == ts.calls.Keys && forall k :: k in ts.calls && k != id ==> calls'[k] == ts.calls[k]
    requires calls'[id].index == ts.calls[id].index && calls'[id].tool == ts.calls[id].tool
    requires m != ts.lineOf[id] || !calls'[id].denied || |ts.lines[m]| < 2
    ensures forall i :: 0 <= i < |ts.lines[m]| ==> ts.lines[m][i] in calls'
    ensures Folded(calls', ts.lines[m])
  {
    hide Folded;
    if id in ts.lines[m] {
      NotThere(ts, id, m);
      EndedLine(ts.calls, calls', ts.lines[m], id);
    } else {
      OtherLine(ts.calls, calls', ts.lines[m], id);
    }
  }

  lemma SplitSound(ts: Tools, t1: Tools, id: string)
    requires Sound(ts) && id in ts.calls && t1 == ts.(calls := t1.calls) && t1.calls.Keys == ts.calls.Keys && Splits(t1, id)
    requires forall k :: k in ts.calls && k != id ==> t1.calls[k] == ts.calls[k]
    requires t1.calls[id].index == ts.calls[id].index && t1.calls[id].tool == ts.calls[id].tool
    ensures Sound(SplitDenied(t1, id))
  {
    hide Folded, Filed, Staying, Leaving;
    SoundFiled(ts);
    InItsLine(ts, id);
    EndFiled(ts, t1.calls);
    SplitFiled(t1, id);
    var l := ts.lineOf[id];
    var at := IndexIn(ts.lines[l], id);
    SplitParts(ts.lines[l], at);
    SplitFolded(ts.calls, t1.calls, ts.lines[l], at);
    var t2 := SplitDenied(t1, id);
    KnownAll(t2);
    forall m | 0 <= m < |t2.lines| ensures Folded(t2.calls, t2.lines[m]) {
      if m < |ts.lines| && m != l { EndKeeps(ts, t1.calls, id, m); }
    }
  }

  /** A call's end keeps the lines sound: a refused call that had company leaves, or its company does. */
  lemma ToolEndSound(ts: Tools, id: string, endedAt: int, isError: bool, denied: bool)
    requires Sound(ts)
    ensures Sound(ToolEnd(ts, id, endedAt, isError, denied))
  {
    hide Filed, Folded, Staying, Leaving;
    SoundFiled(ts);
    if id in ts.calls {
      var t1 := ts.(calls := ts.calls[id := Ended(ts.calls[id], endedAt, isError, denied)]);
      InItsLine(ts, id);
      if denied && Splits(t1, id) {
        SplitSound(ts, t1, id);
      } else {
        EndFiled(ts, t1.calls);
        KnownAll(t1);
        forall m | 0 <= m < |ts.lines| ensures Folded(t1.calls, ts.lines[m]) { EndKeeps(ts, t1.calls, id, m); }
      }
    }
  }

  /** What soundness says of a refused call. */
  lemma RefusedIsAlone(ts: Tools, id: string)
    requires Sound(ts) && id in ts.calls && ts.calls[id].denied
    ensures ts.lines[ts.lineOf[id]] == [id]
  {
    var line := ts.lines[ts.lineOf[id]];
    assert Folded(ts.calls, line);
    var i :| 0 <= i < |line| && line[i] == id;
  }

}
