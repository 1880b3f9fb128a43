/** One turn of the talk (public/js/cockpit/turns.js: `createTurn`), its nodes kept up to date message by message. */
module TurnView {
  import opened Options
  import opened TurnReply
  import opened TurnSpec
  import opened TurnLaws
  import opened TurnRuns
  import Tools = TurnTools

  class TurnView {
    /** The reply's children, the retry row last while it shows. */
    var children: seq<Node>
    /** The node standing at each key. */
    var placed: map<real, Node>
    var blocks: map<int, Text>
    var tools: Tools.Tools
    var prompts: map<string, Prompt>
    var flow: Flow
    ghost var items: seq<Item>

    ghost function View(): Turn
      reads this
    {
      Turn(items, blocks, tools, prompts, flow)
    }

    ghost predicate Valid()
      reads this
    {
      Sound(View()) && Shows(items, flow.retry, placed, children)
    }

    constructor (ended: bool, frozen: bool)
      ensures Valid() && View() == NewTurn(ended, frozen)
    {
      children, placed, items := [], map[], [];
      blocks, tools, prompts := map[], Tools.NO_TOOLS, map[];
      flow := Flow(0, [], ended, frozen, false, None);
    }

    /** A new node at its key: before the first node with a higher key, or before the retry row, or last. */
    method Place(k: real, n: Node)
      requires Shows(items, flow.retry, placed, children) && n != RetryRow
      requires InKeyOrder(items) && forall i, j :: 0 <= i < j < |items| ==> items[i].node != items[j].node
      requires forall i :: 0 <= i < |items| ==> items[i].key != k
      modifies this`placed, this`children, this`items
      ensures items == Insert(old(items), k, n) && Shows(items, flow.retry, placed, children)
    {
      hide Insert, InsertBefore, Nodes;
      KeyFree(items, placed, children, flow.retry, k);
      var after := LeastAbove(placed, k);
      InsertShows(items, flow.retry, placed, children, k, n, after);
      var ref := if after.Some? then Some(placed[after.value]) else if flow.retry then Some(RetryRow) else None;
      placed := placed[k := n];
      children := InsertBefore(children, n, ref);
      items := Insert(items, k, n);
    }

    /** The room for a new node: what `Place` needs, from a sound view. */
    ghost method Room(k: real, n: Node)
      requires Valid() && forall m :: KeysOf(View())(m) != Some(k)
      ensures InKeyOrder(items) && forall i, j :: 0 <= i < j < |items| ==> items[i].node != items[j].node
      ensures forall i :: 0 <= i < |items| ==> items[i].key != k
    {
      hide Sound, KeysOf, Shows;
      SoundParts(View());
      RoomFor(items, KeysOf(View()), k);
    }

    method Unretry()
      requires Valid()
      modifies this`children, this`flow
      ensures Valid() && View() == TurnSpec.Unretry(old(View()))
    {
      hide Sound;
      SameKeysSound(View(), TurnSpec.Unretry(View()));
      RetryGone(items, flow.retry, placed, children);
      children := Remove(children, RetryRow);
      flow := flow.(retry := false);
    }

    method BlockOf(i: int)
      requires Valid() && forall id :: id in tools.calls ==> tools.calls[id].index != i
      modifies this`blocks, this`placed, this`children, this`items
      ensures Valid() && View() == TurnSpec.BlockOf(old(View()), i) && i in blocks
    {
      hide Sound, Shows, Insert;
      BlockOfSound(View(), i);
      if i !in blocks {
        BlockKeyFree(View(), i);
        Room(i as real, BlockNode(i));
        blocks := blocks[i := Text("", false)];
        Place(i as real, BlockNode(i));
      }
    }

    method Delta(i: int, s: string)
      requires Valid() && Fits(View(), MDelta(i, s))
      modifies this
      ensures Valid() && View() == TurnSpec.Delta(old(View()), i, s)
    {
      hide Sound, Shows, Insert, TurnSpec.BlockOf;
      if flow.ended || flow.frozen { return; }
      ghost var t := View();
      Unretry();
      BlockOf(i);
      ghost var u := View();
      blocks := blocks[i := blocks[i].(text := blocks[i].text + s)];
      flow := flow.(streaming := Some(i));
      SameKeysSound(u, View());
    }

    method Block(i: int, s: string)
      requires Valid() && Fits(View(), MBlock(i, s))
      modifies this
      ensures Valid() && View() == TurnSpec.Block(old(View()), i, s)
    {
      hide Sound, Shows, Insert, TurnSpec.BlockOf;
      if flow.frozen { return; }
      Unretry();
      BlockOf(i);
      ghost var u := View();
      blocks := blocks[i := Text(s, true)];
      if flow.streaming == Some(i) { flow := flow.(streaming := None); }
      SameKeysSound(u, View());
    }

    /** The first line the call may join, by its last call. */
    method FindLine(c: Tools.Call) returns (r: Option<nat>)
      requires Tools.Known(tools) && Tools.NoneEmpty(tools)
      ensures r == Tools.FindLine(tools, c, 0)
    {
      for l := 0 to |tools.lines|
        invariant Tools.FindLine(tools, c, 0) == Tools.FindLine(tools, c, l)
      {
        if Tools.CanFold(tools.calls[Tools.Last(tools.lines[l])], c) { return Some(l); }
      }
      return None;
    }

    method AddCall(id: string, c: Tools.Call)
      requires Valid() && Fits(View(), MStart(id, c))
      modifies this`tools, this`placed, this`children, this`items
      ensures Tools.Known(old(tools)) && Tools.NoneEmpty(old(tools))
      ensures Valid() && View() == TurnSpec.AddCall(old(View()), id, c)
    {
      hide Sound, Shows, Insert, Tools.Known, Tools.NoneEmpty, Tools.FreshCall, Tools.FindLine, TurnSpec.AddCall;
      SoundParts(View());
      StartSound(View(), id, c);
      AddCallCases(View(), id, c);
      if id in tools.calls { return; }
      var found := FindLine(c);
      if found.Some? {
        var l := found.value;
        tools := Tools.Tools(tools.lines[l := tools.lines[l] + [id]], tools.calls[id := c], tools.lineOf[id := l]);
      } else {
        var l := |tools.lines|;
        LineKeyFree(View(), id, c);
        Room(c.index as real, LineNode(l));
        tools := Tools.Tools(tools.lines + [[id]], tools.calls[id := c], tools.lineOf[id := l]);
        Place(c.index as real, LineNode(l));
      }
    }

    method ToolStart(id: string, c: Tools.Call)
      requires Valid() && Fits(View(), MStart(id, c))
      modifies this`tools, this`placed, this`children, this`items
      ensures Tools.Known(old(tools)) && Tools.NoneEmpty(old(tools))
      ensures Valid() && View() == TurnSpec.Start(old(View()), id, c)
    {
      hide Sound, Shows, Tools.Known, Tools.NoneEmpty, TurnSpec.AddCall, Fits;
      SoundParts(View());
      if flow.ended || flow.frozen { return; }
      AddCall(id, c);
    }

    /** A refused call in company: it leaves its line, or the calls after it do when it was the first. */
    method ToolEnd(id: string, endedAt: int, isError: bool, denied: bool)
      requires Valid()
      modifies this`tools, this`placed, this`children, this`items
      ensures Valid() && View() == CallEnd(old(View()), id, endedAt, isError, denied)
    {
      hide Sound, Shows, Insert, Tools.Staying, Tools.Leaving, Tools.Moved, HeadKey;
      if flow.frozen { return; }
      CallEndSound(View(), id, endedAt, isError, denied);
      ghost var t := View();
      if id !in tools.calls { return; }
      EndParts(View(), id, endedAt, isError, denied);
      tools := tools.(calls := tools.calls[id := Tools.Ended(tools.calls[id], endedAt, isError, denied)]);
      var l := tools.lineOf[id];
      if denied && |tools.lines[l]| >= 2 {
        var at := Tools.IndexIn(tools.lines[l], id);
        var moved := Tools.Leaving(tools.lines[l], at);
        var next := |tools.lines|;
        var k := tools.calls[moved[0]].index as real;
        SplitKeyFree(t, id, endedAt, isError, k);
        RoomFor(items, KeysOf(t), k);
        var lineOf := Rename(tools.lineOf, moved, next);
        tools := Tools.Tools(tools.lines[l := Tools.Staying(tools.lines[l], at)] + [moved], tools.calls, lineOf);
        Place(k, LineNode(next));
      }
    }

    /** The records of the moved calls name the new line. */
    method Rename(lineOf: map<string, nat>, ids: seq<string>, l: nat) returns (r: map<string, nat>)
      ensures r == Tools.Moved(lineOf, ids, l)
    {
      r := lineOf;
      var keys := lineOf.Keys;
      while keys != {}
        invariant keys <= lineOf.Keys && r.Keys == lineOf.Keys
        invariant forall k :: k in lineOf ==> r[k] == if k !in keys && k in ids then l else lineOf[k]
        decreases |keys|
      {
        var k :| k in keys;
        if k in ids { r := r[k := l]; }
        keys := keys - {k};
      }
    }

    method Retrying()
      requires Valid()
      modifies this`children, this`flow
      ensures Valid() && View() == TurnSpec.Retrying(old(View()))
    {
      hide Sound;
      if flow.ended || flow.frozen { return; }
      SameKeysSound(View(), TurnSpec.Retrying(View()));
      RetryGone(items, flow.retry, placed, children);
      children := Remove(children, RetryRow) + [RetryRow];
      flow := flow.(retry := true);
    }

    method QueuePrompt(id: string, cancelled: bool)
      requires Valid()
      modifies this`prompts, this`flow
      ensures Valid() && View() == Queue(old(View()), id, cancelled)
    {
      hide Sound;
      QueueSound(View(), id, cancelled);
      if id in prompts { return; }
      prompts := prompts[id := Prompt(if cancelled then Cancelled else Queued, None)];
      flow := flow.(queue := flow.queue + [id]);
    }

    /** The prompt leaves the queue for the reply; the answer says whether it is this turn's. */
    method TakePrompt(id: string, atBlock: Option<int>) returns (ours: bool)
      requires Valid() && Fits(View(), MTaken(id, atBlock))
      modifies this`prompts, this`flow, this`placed, this`children, this`items
      ensures Valid() && View() == TurnSpec.TakePrompt(old(View()), id, atBlock) && ours == (id in old(prompts))
    {
      hide Sound, Shows, Insert, TakeKey;
      if id !in prompts { return false; }
      if prompts[id].state != Queued { return true; }
      var take := Take(atBlock.GetOr(0), flow.takes + 1);
      TakeSound(View(), id, take.block);
      SoundParts(View());
      forall m ensures KeysOf(View())(m) != Some(TakeKey(take)) { OtherTakes(View(), id, take, m); }
      Room(TakeKey(take), PromptNode(id));
      prompts := prompts[id := Prompt(Taken, Some(take))];
      flow := flow.(takes := take.nth, queue := Out(flow.queue, id));
      Place(TakeKey(take), PromptNode(id));
      return true;
    }

    method CancelPrompt(id: string) returns (ours: bool)
      requires Valid()
      modifies this`prompts
      ensures Valid() && View() == Cancel(old(View()), id) && ours == (id in old(prompts))
    {
      hide Sound;
      SameKeysSound(View(), Cancel(View(), id));
      if id !in prompts { return false; }
      prompts := prompts[id := prompts[id].(state := Cancelled)];
      return true;
    }

    method RemovePrompt(id: string)
      requires Valid()
      modifies this`prompts, this`flow, this`placed, this`children, this`items
      ensures Valid() && View() == TurnSpec.RemovePrompt(old(View()), id)
    {
      hide Sound, Shows;
      RemoveSound(View(), id);
      SoundParts(View());
      if id !in prompts { return; }
      var n := PromptNode(id);
      DropShows(items, flow.retry, placed, children, n);
      prompts := prompts - {id};
      placed := map k | k in placed && placed[k] != n :: placed[k];
      children := Remove(children, n);
      items := DropNode(items, n);
      flow := flow.(queue := Out(flow.queue, id));
    }

    method End()
      requires Valid()
      modifies this`blocks, this`children, this`flow
      ensures Valid() && View() == TurnSpec.End(old(View()))
    {
      hide Sound;
      SameKeysSound(View(), TurnSpec.End(View()));
      Unretry();
      blocks := AllDone(blocks);
      flow := flow.(ended := true, streaming := None);
    }

    method Freeze()
      requires Valid()
      modifies this`flow
      ensures Valid() && View() == TurnSpec.Freeze(old(View()))
    {
      hide Sound;
      SameKeysSound(View(), TurnSpec.Freeze(View()));
      flow := flow.(frozen := true, streaming := None);
    }

    method Take1(m: Msg)
      requires Valid() && Fits(View(), m)
      modifies this
      ensures Tools.Known(old(tools)) && Tools.NoneEmpty(old(tools))
      ensures Valid() && View() == Step(old(View()), m)
    {
      hide Sound, Shows, Tools.Known, Tools.NoneEmpty, TurnSpec.Delta, TurnSpec.Block, TurnSpec.Start, CallEnd,
           TurnSpec.TakePrompt, TurnSpec.RemovePrompt, TurnSpec.End, Queue, Cancel;
      SoundParts(View());
      match m
      case MDelta(i, s) => Delta(i, s);
      case MBlock(i, s) => Block(i, s);
      case MStart(id, c) => ToolStart(id, c);
      case MEnd(id, at, e, d) => ToolEnd(id, at, e, d);
      case MRetrying => Retrying();
      case MQueue(id, c) => QueuePrompt(id, c);
      case MTaken(id, at) => var _ := TakePrompt(id, at);
      case MCancel(id) => var _ := CancelPrompt(id);
      case MRemove(id) => RemovePrompt(id);
      case MTurnEnd => End();
      case MFreeze => Freeze();
    }

    /** A whole run: the page shows what the messages say. */
    method Run(ms: seq<Msg>)
      requires Valid() && FitAll(View(), ms)
      modifies this
      ensures Valid() && View() == After(old(View()), ms)
    {
      hide Sound, Shows, Step, Fits;
      ghost var start := View();
      assert ms[0..] == ms;
      for i := 0 to |ms|
        invariant Valid() && FitAll(View(), ms[i..]) && After(View(), ms[i..]) == After(start, ms)
      {
        assert ms[i..][0] == ms[i] && ms[i..][1..] == ms[i + 1..];
        Take1(ms[i]);
      }
    }

    /** A snapshot's calls, in the order of their indices: the lines are the canonical ones. */
    method LoadCalls(list: seq<Started>)
      requires Valid() && tools == Tools.NO_TOOLS && InOrder(list)
      requires forall i :: 0 <= i < |list| ==> list[i].call.index !in blocks
      modifies this`tools, this`placed, this`children, this`items
      ensures Valid() && tools == AddAll(list)
    {
      hide Sound, Shows, Holds, Tools.AddCall, Tools.Known, Tools.NoneEmpty, AddAll;
      NoneAdded();
      for i := 0 to |list|
        invariant Valid() && InOrder(list[..i]) && tools == AddAll(list[..i])
      {
        var head := list[..i + 1];
        assert head[..i] == list[..i];
        assert InOrder(head);
        NextIsFresh(tools, head);
        AddAllMore(head);
        AddCall(list[i].id, list[i].call);
      }
      assert list[..|list|] == list;
    }
  }

  // ---- Facts the methods use

  lemma KeyFree(items: seq<Item>, placed: map<real, Node>, children: seq<Node>, retry: bool, k: real)
    requires Shows(items, retry, placed, children) && forall i :: 0 <= i < |items| ==> items[i].key != k
    ensures k !in placed
  {
    assert forall x :: x in placed ==> Item(x, placed[x]) in items;
  }

  lemma RoomFor(items: seq<Item>, key: KeyFn, k: real)
    requires Placed(items, key) && forall m :: key(m) != Some(k)
    ensures InKeyOrder(items) && forall i, j :: 0 <= i < j < |items| ==> items[i].node != items[j].node
    ensures forall i :: 0 <= i < |items| ==> items[i].key != k
  {
    NodesDistinct(items, key);
    forall i | 0 <= i < |items| ensures items[i].key != k { assert key(items[i].node) == Some(items[i].key); }
  }

  lemma RetryGone(items: seq<Item>, retry: bool, placed: map<real, Node>, children: seq<Node>)
    requires Shows(items, retry, placed, children)
    ensures Remove(children, RetryRow) == Nodes(items)
  {
    forall i | 0 <= i < |Nodes(items)| ensures Nodes(items)[i] != RetryRow { assert items[i] in items; }
    RemoveLast(Nodes(items), retry);
  }

  lemma {:induction false} RemoveLast(ns: seq<Node>, retry: bool)
    requires forall i :: 0 <= i < |ns| ==> ns[i] != RetryRow
    ensures Remove(ns + Tail(retry), RetryRow) == ns
  {
    if ns == [] {
      assert [] + Tail(retry) == Tail(retry);
      if retry { assert [RetryRow][1..] == []; }
    } else {
      RemoveLast(ns[1..], retry);
      assert ns + Tail(retry) == [ns[0]] + (ns[1..] + Tail(retry));
      RemoveCons(ns[0], ns[1..] + Tail(retry), RetryRow);
    }
  }

  lemma BlockKeyFree(t: Turn, i: int)
    requires Sound(t) && i !in t.blocks && forall id :: id in t.tools.calls ==> t.tools.calls[id].index != i
    ensures forall m :: KeysOf(t)(m) != Some(i as real)
  {
    hide Tools.Sound, HeadKey, Placed;
    forall m ensures KeysOf(t)(m) != Some(i as real) {
      match m
      case LineNode(l) => if HeadKey(t.tools, l).Some? { HeadIsCall(t.tools, l); }
      case PromptNode(id) => if id in t.prompts && t.prompts[id].at.Some? { TakeKeyOf(t.prompts, t.flow.takes, id, i); }
      case _ =>
    }
  }

  lemma CallKeyFree(t: Turn, i: int)
    requires Sound(t) && i !in t.blocks && forall l: nat :: HeadKey(t.tools, l) != Some(i as real)
    ensures forall m :: KeysOf(t)(m) != Some(i as real)
  {
    hide Tools.Sound, HeadKey, Placed;
    forall m ensures KeysOf(t)(m) != Some(i as real) {
      match m
      case PromptNode(id) => if id in t.prompts && t.prompts[id].at.Some? { TakeKeyOf(t.prompts, t.flow.takes, id, i); }
      case _ =>
    }
  }

  lemma LineKeyFree(t: Turn, id: string, c: Tools.Call)
    requires Sound(t) && Fits(t, MStart(id, c)) && id !in t.tools.calls
    ensures forall m :: KeysOf(t)(m) != Some(c.index as real)
  {
    hide Tools.Sound, HeadKey, Placed;
    forall l: nat ensures HeadKey(t.tools, l) != Some(c.index as real) { if HeadKey(t.tools, l).Some? { HeadIsCall(t.tools, l); } }
    CallKeyFree(t, c.index);
  }

  lemma AddCallCases(t: Turn, id: string, c: Tools.Call)
    requires Tools.Known(t.tools) && Tools.NoneEmpty(t.tools)
    ensures var u, n := TurnSpec.AddCall(t, id, c), |t.tools.lines|;
            if id in t.tools.calls then u == t
            else match Tools.FindLine(t.tools, c, 0)
                 case Some(l) => u == t.(tools := Tools.Tools(t.tools.lines[l := t.tools.lines[l] + [id]], t.tools.calls[id := c], t.tools.lineOf[id := l]))
                 case None => u == t.(tools := Tools.Tools(t.tools.lines + [[id]], t.tools.calls[id := c], t.tools.lineOf[id := n]),
                                      items := Insert(t.items, c.index as real, LineNode(n)))
  {
    hide Insert, Tools.Known, Tools.NoneEmpty;
  }

  lemma EndParts(t: Turn, id: string, endedAt: int, isError: bool, denied: bool)
    requires Sound(t) && id in t.tools.calls
    ensures id in t.tools.lineOf && t.tools.lineOf[id] < |t.tools.lines| && id in t.tools.lines[t.tools.lineOf[id]]
    ensures var line := t.tools.lines[t.tools.lineOf[id]]; var at := Tools.IndexIn(line, id);
            at < |line| && (|line| >= 2 ==> Tools.Leaving(line, at) != [] && Tools.Leaving(line, at)[0] in t.tools.calls)
    ensures Placed(t.items, KeysOf(t))
  {
    hide Tools.Folded;
    Tools.SoundFiled(t.tools);
    Tools.InItsLine(t.tools, id);
    var line := t.tools.lines[t.tools.lineOf[id]];
    if |line| >= 2 { Tools.SplitParts(line, Tools.IndexIn(line, id)); }
  }

  lemma SplitKeyFree(t: Turn, id: string, endedAt: int, isError: bool, k: real)
    requires Sound(t) && id in t.tools.calls && id in t.tools.lineOf && t.tools.lineOf[id] < |t.tools.lines|
    requires var line := t.tools.lines[t.tools.lineOf[id]]; var at := Tools.IndexIn(line, id);
             && |line| >= 2 && at < |line| && id in line && Tools.Leaving(line, at) != []
             && Tools.Leaving(line, at)[0] in t.tools.calls && k == t.tools.calls[Tools.Leaving(line, at)[0]].index as real
    ensures forall m :: KeysOf(t)(m) != Some(k)
    ensures HeadKey(Tools.ToolEnd(t.tools, id, endedAt, isError, true), |t.tools.lines|) == Some(k)
  {
    hide Tools.Folded, Placed, TakesOk, Queued1, HeadKey;
    var line := t.tools.lines[t.tools.lineOf[id]];
    var at := Tools.IndexIn(line, id);
    var b := Tools.Leaving(line, at)[0];
    var ts := Tools.ToolEnd(t.tools, id, endedAt, isError, true);
    Tools.ToolEndSound(t.tools, id, endedAt, isError, true);
    EndHeads(t.tools, id, endedAt, isError, true);
    NewHeadKey(t.tools, ts, id, endedAt, isError, k);
    forall l: nat ensures HeadKey(t.tools, l) != Some(k) {
      if l < |t.tools.lines| { HeadsApart(ts, l, |t.tools.lines|); } else { NoHead(t.tools, l); }
    }
    CallKeyFree(t, t.tools.calls[b].index);
  }

  lemma NoHead(ts: Tools.Tools, l: nat)
    requires l >= |ts.lines|
    ensures HeadKey(ts, l) == None
  {
  }

  lemma NewHeadKey(ts: Tools.Tools, ts': Tools.Tools, id: string, endedAt: int, isError: bool, k: real)
    requires id in ts.calls && id in ts.lineOf && ts.lineOf[id] < |ts.lines| && ts' == Tools.ToolEnd(ts, id, endedAt, isError, true)
    requires var line := ts.lines[ts.lineOf[id]]; var at := Tools.IndexIn(line, id);
             && |line| >= 2 && id in line && at < |line| && Tools.Leaving(line, at) != []
             && Tools.Leaving(line, at)[0] in ts.calls && k == ts.calls[Tools.Leaving(line, at)[0]].index as real
    ensures |ts'.lines| == |ts.lines| + 1 && HeadKey(ts', |ts.lines|) == Some(k)
  {
  }

  lemma NoneAdded()
    ensures AddAll([]) == Tools.NO_TOOLS
  {
  }

  lemma AddAllMore(list: seq<Started>)
    requires InOrder(list) && list != []
    ensures InOrder(list[..|list| - 1])
    ensures var ts := AddAll(list[..|list| - 1]); var s := list[|list| - 1];
            Tools.Known(ts) && Tools.NoneEmpty(ts) && AddAll(list) == Tools.AddCall(ts, s.id, s.call)
  {
    hide Holds, InOrder, Tools.Sound, Tools.AddCall, Tools.Known, Tools.NoneEmpty;
    Prefix(list);
    AddOne(AddAll(list[..|list| - 1]), list);
  }
}
