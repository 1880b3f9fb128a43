/** What every run of one turn's messages keeps: order, lines, and nothing after STOP. */
module TurnLaws {
  import opened Options
  import opened TurnReply
  import opened TurnSpec
  import Tools = TurnTools

  lemma SoundParts(t: Turn)
    requires Sound(t)
    ensures Tools.Sound(t.tools) && Tools.Known(t.tools) && Tools.NoneEmpty(t.tools) && OwnIndex(t.blocks, t.tools)
    ensures TakesOk(t.prompts, t.flow.takes) && Queued1(t.prompts, t.flow.queue) && Placed(t.items, KeysOf(t))
  {
    Tools.SoundKnown(t.tools);
  }

  /** Two lines start at different indices. */
  lemma HeadsApart(ts: Tools.Tools, l: nat, m: nat)
    requires Tools.Sound(ts) && l < |ts.lines| && m < |ts.lines| && l != m
    ensures HeadKey(ts, l).Some? && HeadKey(ts, m).Some? && HeadKey(ts, l) != HeadKey(ts, m)
  {
    hide Tools.Folded;
    var a, b := ts.lines[l][0], ts.lines[m][0];
    assert ts.lineOf[a] == l && ts.lineOf[b] == m;
  }

  lemma HeadIsCall(ts: Tools.Tools, l: nat)
    requires Tools.Sound(ts) && HeadKey(ts, l).Some?
    ensures l < |ts.lines| && ts.lines[l] != [] && ts.lines[l][0] in ts.calls && HeadKey(ts, l).value == ts.calls[ts.lines[l][0]].index as real
  {
  }

  lemma TakeKeyOf(prompts: map<string, Prompt>, takes: nat, id: string, i: int)
    requires TakesOk(prompts, takes) && id in prompts && prompts[id].at.Some?
    ensures TakeKey(prompts[id].at.value) != i as real
  {
    TakeKeyBetween(prompts[id].at.value);
  }

  // ---- Blocks

  lemma BlockOfSound(t: Turn, i: int)
    requires Sound(t) && forall id :: id in t.tools.calls ==> t.tools.calls[id].index != i
    ensures Sound(BlockOf(t, i))
  {
    hide Tools.Sound, TakesOk, Placed, Insert, HeadKey, Queued1;
    SoundParts(t);
    var u := BlockOf(t, i);
    if i !in t.blocks {
      forall m | m != BlockNode(i) ensures KeysOf(u)(m) == KeysOf(t)(m) && KeysOf(t)(m) != Some(i as real) {
        match m
        case LineNode(l) => if HeadKey(t.tools, l).Some? { HeadIsCall(t.tools, l); }
        case PromptNode(id) => if id in t.prompts && t.prompts[id].at.Some? { TakeKeyOf(t.prompts, t.flow.takes, id, i); }
        case _ =>
      }
      PlacedAdd(t.items, KeysOf(t), KeysOf(u), i as real, BlockNode(i));
    }
  }

  /** Texts, flags and states may change: where things stand depends on what there is. */
  lemma SameKeysSound(t: Turn, u: Turn)
    requires Sound(t) && u.items == t.items && u.tools == t.tools && u.blocks.Keys == t.blocks.Keys
    requires u.prompts.Keys == t.prompts.Keys && u.flow.takes == t.flow.takes && u.flow.queue == t.flow.queue
    requires forall id :: id in t.prompts ==> u.prompts[id].at == t.prompts[id].at && (u.prompts[id].state == Queued ==> t.prompts[id].state == Queued)
    ensures Sound(u)
  {
    hide Tools.Sound, Placed, HeadKey;
    PlacedSame(t.items, KeysOf(t), KeysOf(u));
  }

  // ---- Tools

  lemma SameHeadsSound(t: Turn, ts: Tools.Tools)
    requires Sound(t) && Tools.Sound(ts) && OwnIndex(t.blocks, ts)
    requires |ts.lines| == |t.tools.lines| && forall l: nat :: HeadKey(ts, l) == HeadKey(t.tools, l)
    ensures Sound(WithTools(t, ts))
  {
    hide Tools.Sound, Placed, TakesOk, Queued1, HeadKey;
    PlacedSame(t.items, KeysOf(t), KeysOf(WithTools(t, ts)));
  }

  lemma NewLineSound(t: Turn, ts: Tools.Tools)
    requires Sound(t) && Tools.Sound(ts) && OwnIndex(t.blocks, ts)
    requires |ts.lines| == |t.tools.lines| + 1 && forall l: nat :: l != |t.tools.lines| ==> HeadKey(ts, l) == HeadKey(t.tools, l)
    ensures Sound(WithTools(t, ts))
  {
    hide Tools.Sound, Placed, TakesOk, Queued1, HeadKey, Insert;
    SoundParts(t);
    var l := |t.tools.lines|;
    var u := WithTools(t, ts);
    NewHead(t.tools, ts, l);
    var k := HeadKey(ts, l).value;
    HeadIsCall(ts, l);
    forall m | m != LineNode(l) ensures KeysOf(u)(m) == KeysOf(t)(m) && KeysOf(t)(m) != Some(k) {
      match m
      case LineNode(x) => if HeadKey(t.tools, x).Some? { HeadIsCall(ts, x); HeadsApart(ts, x, l); }
      case PromptNode(id) => if id in t.prompts && t.prompts[id].at.Some? { TakeKeyOf(t.prompts, t.flow.takes, id, ts.calls[ts.lines[l][0]].index); }
      case _ =>
    }
    PlacedAdd(t.items, KeysOf(t), KeysOf(u), k, LineNode(l));
  }

  lemma NewHead(ts: Tools.Tools, ts': Tools.Tools, l: nat)
    requires Tools.Sound(ts') && l < |ts'.lines| && l == |ts.lines|
    ensures HeadKey(ts', l).Some? && HeadKey(ts, l) == None
  {
  }

  lemma StartSound(t: Turn, id: string, c: Tools.Call)
    requires Sound(t) && Tools.FreshCall(t.tools, id, c) && (id !in t.tools.calls ==> c.index !in t.blocks)
    ensures Tools.Known(t.tools) && Tools.NoneEmpty(t.tools) && Sound(AddCall(t, id, c))
  {
    hide Tools.Sound, Placed, TakesOk, Queued1, Insert, WithTools, Tools.AddCall;
    SoundParts(t);
    Tools.AddCallSound(t.tools, id, c);
    var ts := Tools.AddCall(t.tools, id, c);
    AddCallHeads(t.tools, id, c);
    AddCallOwn(t.blocks, t.tools, id, c);
    if |ts.lines| == |t.tools.lines| { SameHeadsSound(t, ts); } else { NewLineSound(t, ts); }
  }

  lemma AddCallOwn(blocks: map<int, Text>, ts: Tools.Tools, id: string, c: Tools.Call)
    requires OwnIndex(blocks, ts) && Tools.Known(ts) && Tools.NoneEmpty(ts) && (id !in ts.calls ==> c.index !in blocks)
    ensures OwnIndex(blocks, Tools.AddCall(ts, id, c))
  {
  }

  lemma AddCallHeads(ts: Tools.Tools, id: string, c: Tools.Call)
    requires Tools.Sound(ts) && Tools.Known(ts) && Tools.NoneEmpty(ts)
    ensures var ts' := Tools.AddCall(ts, id, c);
            && (|ts'.lines| == |ts.lines| || |ts'.lines| == |ts.lines| + 1)
            && forall l: nat :: l < |ts.lines| || l >= |ts'.lines| ==> HeadKey(ts', l) == HeadKey(ts, l)
  {
    hide Tools.Sound;
    Tools.SoundFiled(ts);
  }

  lemma EndHeads(ts: Tools.Tools, id: string, endedAt: int, isError: bool, denied: bool)
    requires Tools.Sound(ts)
    ensures var ts' := Tools.ToolEnd(ts, id, endedAt, isError, denied);
            && (|ts'.lines| == |ts.lines| || |ts'.lines| == |ts.lines| + 1)
            && forall l: nat :: l < |ts.lines| || l >= |ts'.lines| ==> HeadKey(ts', l) == HeadKey(ts, l)
  {
    hide Tools.Folded;
    Tools.SoundFiled(ts);
    if id in ts.calls && denied {
      Tools.InItsLine(ts, id);
      var line := ts.lines[ts.lineOf[id]];
      if |line| >= 2 { Tools.SplitParts(line, Tools.IndexIn(line, id)); }
    }
  }

  lemma EndOwn(blocks: map<int, Text>, ts: Tools.Tools, id: string, endedAt: int, isError: bool, denied: bool)
    requires OwnIndex(blocks, ts)
    ensures OwnIndex(blocks, Tools.ToolEnd(ts, id, endedAt, isError, denied))
  {
  }

  lemma CallEndSound(t: Turn, id: string, endedAt: int, isError: bool, denied: bool)
    requires Sound(t)
    ensures Sound(WithTools(t, Tools.ToolEnd(t.tools, id, endedAt, isError, denied)))
  {
    hide Tools.Sound, Placed, TakesOk, Queued1, WithTools, Tools.ToolEnd, HeadKey, OwnIndex;
    SoundParts(t);
    var ts := Tools.ToolEnd(t.tools, id, endedAt, isError, denied);
    Tools.ToolEndSound(t.tools, id, endedAt, isError, denied);
    EndHeads(t.tools, id, endedAt, isError, denied);
    EndOwn(t.blocks, t.tools, id, endedAt, isError, denied);
    if |ts.lines| == |t.tools.lines| { SameHeadsSound(t, ts); } else { NewLineSound(t, ts); }
  }

  // ---- Prompts

  lemma {:induction false} OutIs(queue: seq<string>, id: string)
    requires forall i, j :: 0 <= i < j < |queue| ==> queue[i] != queue[j]
    ensures forall x :: x in Out(queue, id) <==> x in queue && x != id
    ensures forall i, j :: 0 <= i < j < |Out(queue, id)| ==> Out(queue, id)[i] != Out(queue, id)[j]
  {
    if queue == [] {
    } else {
      OutIs(queue[1..], id);
      assert queue == [queue[0]] + queue[1..];
      assert forall i :: 0 <= i < |Out(queue[1..], id)| ==> Out(queue[1..], id)[i] in queue[1..];
    }
  }

  lemma QueueSound(t: Turn, id: string, cancelled: bool)
    requires Sound(t)
    ensures Sound(Queue(t, id, cancelled))
  {
    hide Tools.Sound, Placed, HeadKey;
    if id !in t.prompts {
      var u := Queue(t, id, cancelled);
      var q := t.flow.queue;
      assert forall x :: x in q + [id] <==> x in q || x == id;
      PlacedSame(t.items, KeysOf(t), KeysOf(u));
    }
  }

  lemma TakenPrompts(prompts: map<string, Prompt>, takes: nat, queue: seq<string>, id: string, block: int)
    requires TakesOk(prompts, takes) && Queued1(prompts, queue) && id in prompts && takes + 1 < MAX_TAKES
    ensures var prompts' := prompts[id := Prompt(Taken, Some(Take(block, takes + 1)))];
            TakesOk(prompts', takes + 1) && Queued1(prompts', Out(queue, id))
  {
    OutIs(queue, id);
  }

  lemma OtherTakes(t: Turn, id: string, take: Take, m: Node)
    requires Tools.Sound(t.tools) && TakesOk(t.prompts, t.flow.takes) && take.nth == t.flow.takes + 1 < MAX_TAKES
    ensures KeysOf(t)(m) != Some(TakeKey(take))
  {
    hide Tools.Sound, HeadKey;
    TakeKeyBetween(take);
    match m
    case LineNode(l) => if HeadKey(t.tools, l).Some? { HeadIsCall(t.tools, l); }
    case PromptNode(x) => if x in t.prompts && t.prompts[x].at.Some? { TakeKeyOrder(t.prompts[x].at.value, take); }
    case _ =>
  }

  lemma TakeSound(t: Turn, id: string, block: int)
    requires Sound(t) && id in t.prompts && t.prompts[id].state == Queued && t.flow.takes + 1 < MAX_TAKES
    ensures Sound(TakeAt(t, id, block))
  {
    hide Tools.Sound, Placed, HeadKey, Insert, TakeKey, Out, Queued1, OwnIndex;
    SoundParts(t);
    var u := TakeAt(t, id, block);
    var take := Take(block, t.flow.takes + 1);
    TakenPrompts(t.prompts, t.flow.takes, t.flow.queue, id, block);
    NotPlacedYet(t, id);
    forall m | m != PromptNode(id) ensures KeysOf(u)(m) == KeysOf(t)(m) && KeysOf(t)(m) != Some(TakeKey(take)) {
      OtherTakes(t, id, take, m);
    }
    hide TakesOk;
    PlacedAdd(t.items, KeysOf(t), KeysOf(u), TakeKey(take), PromptNode(id));
  }

  lemma NotPlacedYet(t: Turn, id: string)
    requires Sound(t) && id in t.prompts && t.prompts[id].state == Queued
    ensures t.prompts[id].at == None && KeysOf(t)(PromptNode(id)) == None
  {
  }

  lemma RemoveSound(t: Turn, id: string)
    requires Sound(t)
    ensures Sound(RemovePrompt(t, id))
  {
    hide Tools.Sound, Placed, HeadKey, DropNode, Out;
    SoundParts(t);
    OutIs(t.flow.queue, id);
    var u := RemovePrompt(t, id);
    if id in t.prompts { PlacedDrop(t.items, KeysOf(t), KeysOf(u), PromptNode(id)); }
  }

  // ---- Runs

  /** A text message changes at most the block's text and flags that place nothing. */
  lemma TextSound(t: Turn, i: int, u: Turn)
    requires Sound(t) && forall id :: id in t.tools.calls ==> t.tools.calls[id].index != i
    requires var v := BlockOf(Unretry(t), i);
             u == t || (u.items == v.items && u.tools == v.tools && u.prompts == v.prompts && u.blocks.Keys == v.blocks.Keys
                        && u.flow.takes == v.flow.takes && u.flow.queue == v.flow.queue)
    ensures Sound(u)
  {
    hide Sound;
    SameKeysSound(t, Unretry(t));
    BlockOfSound(Unretry(t), i);
    if u != t { SameKeysSound(BlockOf(Unretry(t), i), u); }
  }

  lemma TextKeys(t: Turn, i: int, s: string)
    ensures var v := BlockOf(Unretry(t), i);
            forall u :: u in {Delta(t, i, s), Block(t, i, s)} ==>
              u == t || (u.items == v.items && u.tools == v.tools && u.prompts == v.prompts && u.blocks.Keys == v.blocks.Keys
                         && u.flow.takes == v.flow.takes && u.flow.queue == v.flow.queue)
  {
    hide Insert;
  }

  /** Every message that fits keeps the turn sound. */
  lemma StepSound(t: Turn, m: Msg)
    requires Sound(t) && Fits(t, m)
    ensures Tools.Known(t.tools) && Tools.NoneEmpty(t.tools) && Sound(Step(t, m))
  {
    hide Sound, AddCall, WithTools, TakeAt, BlockOf, RemovePrompt, Queue;
    SoundParts(t);
    match m
    case MDelta(i, s) => TextKeys(t, i, s); TextSound(t, i, Delta(t, i, s));
    case MBlock(i, s) => TextKeys(t, i, s); TextSound(t, i, Block(t, i, s));
    case MStart(id, c) => StartSound(t, id, c);
    case MEnd(id, at, e, d) => CallEndSound(t, id, at, e, d);
    case MRetrying => SameKeysSound(t, Retrying(t));
    case MQueue(id, c) => QueueSound(t, id, c);
    case MTaken(id, at) => if id in t.prompts && t.prompts[id].state == Queued { TakeSound(t, id, at.GetOr(0)); }
    case MCancel(id) => SameKeysSound(t, Cancel(t, id));
    case MRemove(id) => RemoveSound(t, id);
    case MTurnEnd => SameKeysSound(t, End(t));
    case MFreeze => SameKeysSound(t, Freeze(t));
  }

  /** Messages that fit, one after the other. */
  ghost predicate FitAll(t: Turn, ms: seq<Msg>)
    requires Sound(t)
    decreases |ms|
  {
    ms == [] || (Fits(t, ms[0]) && (StepSound(t, ms[0]); FitAll(Step(t, ms[0]), ms[1..])))
  }

  ghost function After(t: Turn, ms: seq<Msg>): (u: Turn)
    requires Sound(t) && FitAll(t, ms)
    ensures Sound(u)
    decreases |ms|
  {
    if ms == [] then t else (StepSound(t, ms[0]); After(Step(t, ms[0]), ms[1..]))
  }

  // ---- What soundness means on the page

  ghost predicate Stands(t: Turn, n: Node, p: nat) { p < |t.items| && t.items[p].node == n }

  /** The message index a block or a line stands at: the block's own, or that of the line's first call. */
  ghost predicate StandsAt(t: Turn, n: Node, i: int) {
    match n
    case BlockNode(b) => i == b
    case LineNode(l) =>
      l < |t.tools.lines| && t.tools.lines[l] != [] && t.tools.lines[l][0] in t.tools.calls && i == t.tools.calls[t.tools.lines[l][0]].index
    case PromptNode(_) => false
    case RetryRow => false
  }

  /** A taken prompt stands after every block and line before its block and before all others. */
  lemma PromptStandsBetween(t: Turn, id: string, p: nat, n: Node, q: nat) returns (i: int)
    requires Sound(t) && Stands(t, PromptNode(id), p) && Stands(t, n, q) && !n.PromptNode?
    ensures id in t.prompts && t.prompts[id].at.Some?
    ensures StandsAt(t, n, i) && var block := t.prompts[id].at.value.block; (q < p <==> i < block) && (p < q <==> i >= block)
  {
    hide Tools.Sound, HeadKey;
    SoundParts(t);
    assert KeysOf(t)(PromptNode(id)) == Some(t.items[p].key) && KeysOf(t)(n) == Some(t.items[q].key);
    var take := t.prompts[id].at.value;
    TakeKeyBetween(take);
    i := IndexAt(t, n);
    assert t.items[q].key == i as real;
    assert q < p ==> t.items[p].key > t.items[q].key;
    assert p < q ==> t.items[p].key < t.items[q].key;
  }

  /** Blocks and lines stand in the order of their indices. */
  lemma PartsInOrder(t: Turn, m: Node, i: int, p: nat, n: Node, j: int, q: nat)
    requires Sound(t) && Stands(t, m, p) && Stands(t, n, q) && StandsAt(t, m, i) && StandsAt(t, n, j) && i < j
    ensures p < q
  {
    hide Tools.Sound, HeadKey;
    SoundParts(t);
    assert KeysOf(t)(m) == Some(t.items[p].key) && KeysOf(t)(n) == Some(t.items[q].key);
    var a := IndexAt(t, m);
    var b := IndexAt(t, n);
    LowerFirst(t.items, KeysOf(t), p, q);
  }

  lemma LowerFirst(items: seq<Item>, keys: KeyFn, p: nat, q: nat)
    requires Placed(items, keys) && p < |items| && q < |items| && items[p].key < items[q].key
    ensures p < q
  {
  }

  lemma IndexAt(t: Turn, n: Node) returns (i: int)
    requires Tools.Sound(t.tools) && KeysOf(t)(n).Some? && !n.PromptNode?
    ensures KeysOf(t)(n) == Some(i as real) && StandsAt(t, n, i)
  {
    match n
    case BlockNode(b) => i := b;
    case LineNode(l) => HeadIsCall(t.tools, l); i := t.tools.calls[t.tools.lines[l][0]].index;
  }

  /** Two taken prompts stand by block, and at one block in the order they were taken. */
  lemma PromptsInTakeOrder(t: Turn, a: string, p: nat, b: string, q: nat)
    requires Sound(t) && Stands(t, PromptNode(a), p) && Stands(t, PromptNode(b), q)
    ensures a in t.prompts && t.prompts[a].at.Some? && b in t.prompts && t.prompts[b].at.Some?
    ensures var x, y := t.prompts[a].at.value, t.prompts[b].at.value;
            p < q <==> x.block < y.block || (x.block == y.block && x.nth < y.nth)
  {
    hide Tools.Sound, HeadKey;
    SoundParts(t);
    assert KeysOf(t)(PromptNode(a)) == Some(t.items[p].key) && KeysOf(t)(PromptNode(b)) == Some(t.items[q].key);
    TakeKeyOrder(t.prompts[a].at.value, t.prompts[b].at.value);
    assert p < q ==> t.items[p].key < t.items[q].key;
    assert q < p ==> t.items[q].key < t.items[p].key;
  }

  /** Every text block, every tool line and every taken prompt stands in the reply, once. */
  lemma EverythingStands(t: Turn, n: Node)
    requires Sound(t)
    ensures KeysOf(t)(n).Some? <==> exists p :: Stands(t, n, p)
    ensures forall p, q :: Stands(t, n, p) && Stands(t, n, q) ==> p == q
  {
    hide Tools.Sound, HeadKey;
    SoundParts(t);
    if KeysOf(t)(n).Some? {
      assert Has(t.items, n);
      var p :| 0 <= p < |t.items| && t.items[p].node == n;
      assert Stands(t, n, p);
    }
    NodesDistinct(t.items, KeysOf(t));
  }

  // ---- After STOP

  function TextsOf(t: Turn): map<int, string> { map i | i in t.blocks :: t.blocks[i].text }

  lemma FrozenStep(t: Turn, m: Msg)
    requires t.flow.frozen && Tools.Known(t.tools) && Tools.NoneEmpty(t.tools)
    ensures var u := Step(t, m); u.flow.frozen && TextsOf(u) == TextsOf(t) && u.tools == t.tools
  {
    hide Tools.Known, Tools.NoneEmpty, Insert, DropNode, WithTools;
  }

  /** After the tap on STOP no message of any run changes a text or a call. */
  lemma {:induction false} FrozenStays(t: Turn, ms: seq<Msg>)
    requires Sound(t) && FitAll(t, ms) && t.flow.frozen
    ensures After(t, ms).flow.frozen && TextsOf(After(t, ms)) == TextsOf(t) && After(t, ms).tools == t.tools
    decreases |ms|
  {
    if ms != [] {
      hide Sound, Step, Fits;
      StepSound(t, ms[0]);
      FrozenStep(t, ms[0]);
      FrozenStays(Step(t, ms[0]), ms[1..]);
    }
  }

  // ---- After the end

  /** An ended turn takes no more deltas and starts no more calls: only whole blocks and ends of known calls count. */
  lemma EndedStep(t: Turn, m: Msg)
    requires t.flow.ended && Tools.Known(t.tools) && Tools.NoneEmpty(t.tools)
    ensures var u := Step(t, m); u.flow.ended && u.tools.calls.Keys == t.tools.calls.Keys
    ensures !m.MBlock? ==> TextsOf(Step(t, m)) == TextsOf(t)
  {
    hide Tools.Known, Tools.NoneEmpty, Insert, DropNode, HeadKey;
  }
}
