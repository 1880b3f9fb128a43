/**
  One turn's view on values (public/js/cockpit/turns.js: `createTurn`): its text blocks,
  tool lines and queued prompts, and where each stands in the reply, message by message.
*/
module TurnSpec {
  import opened Options
  import opened TurnReply
  import Tools = TurnTools

  datatype Text = Text(text: string, done: bool)
  datatype PromptState = Queued | Taken | Cancelled
  /** Where a prompt was taken: before this block, as the nth take of the turn. */
  datatype Take = Take(block: int, nth: nat)
  datatype Prompt = Prompt(state: PromptState, at: Option<Take>)

  datatype Flow = Flow(takes: nat, queue: seq<string>, ended: bool, frozen: bool, retry: bool, streaming: Option<int>)

  datatype Turn = Turn(items: seq<Item>, blocks: map<int, Text>, tools: Tools.Tools, prompts: map<string, Prompt>, flow: Flow)

  const MAX_TAKES := 500000

  /** The key of a taken prompt: half a block before its block, a millionth later with every take. */
  function TakeKey(t: Take): real { t.block as real - 0.5 + t.nth as real * 0.000001 }

  /** A prompt stands strictly between the block before its own and its own. */
  lemma TakeKeyBetween(t: Take)
    requires 1 <= t.nth < MAX_TAKES
    ensures (t.block - 1) as real < TakeKey(t) < t.block as real
  {
  }

  /** Prompts stand by block, then by take. */
  lemma TakeKeyOrder(a: Take, b: Take)
    requires 1 <= a.nth < MAX_TAKES && 1 <= b.nth < MAX_TAKES
    ensures TakeKey(a) < TakeKey(b) <==> a.block < b.block || (a.block == b.block && a.nth < b.nth)
    ensures TakeKey(a) == TakeKey(b) <==> a == b
  {
  }

  function HeadKey(ts: Tools.Tools, l: nat): Option<real> {
    if l < |ts.lines| && ts.lines[l] != [] && ts.lines[l][0] in ts.calls then Some(ts.calls[ts.lines[l][0]].index as real) else None
  }

  /** The key of everything the turn draws in its reply. */
  function KeyOf(blocks: map<int, Text>, ts: Tools.Tools, prompts: map<string, Prompt>, n: Node): Option<real> {
    match n
    case BlockNode(i) => if i in blocks then Some(i as real) else None
    case LineNode(l) => HeadKey(ts, l)
    case PromptNode(id) => if id in prompts && prompts[id].at.Some? then Some(TakeKey(prompts[id].at.value)) else None
    case RetryRow => None
  }

  function KeysOf(t: Turn): KeyFn { n => KeyOf(t.blocks, t.tools, t.prompts, n) }

  // ---- Messages

  datatype Msg =
    | MDelta(i: int, text: string) | MBlock(i: int, text: string)
    | MStart(id: string, call: Tools.Call) | MEnd(id: string, endedAt: int, isError: bool, denied: bool)
    | MRetrying | MQueue(id: string, cancelled: bool) | MTaken(id: string, atBlock: Option<int>) | MCancel(id: string)
    | MRemove(id: string) | MTurnEnd | MFreeze

  function BlockOf(t: Turn, i: int): Turn {
    if i in t.blocks then t
    else t.(blocks := t.blocks[i := Text("", false)], items := Insert(t.items, i as real, BlockNode(i)))
  }

  function Unretry(t: Turn): Turn { t.(flow := t.flow.(retry := false)) }

  function Delta(t: Turn, i: int, s: string): Turn {
    if t.flow.ended || t.flow.frozen then t
    else
      var u := BlockOf(Unretry(t), i);
      u.(blocks := u.blocks[i := u.blocks[i].(text := u.blocks[i].text + s)], flow := u.flow.(streaming := Some(i)))
  }

  function Block(t: Turn, i: int, s: string): Turn {
    if t.flow.frozen then t
    else
      var u := BlockOf(Unretry(t), i);
      u.(blocks := u.blocks[i := Text(s, true)],
         flow := u.flow.(streaming := if u.flow.streaming == Some(i) then None else u.flow.streaming))
  }

  /** The tool lines after a change that makes at most one new line: the new line takes its place. */
  function WithTools(t: Turn, ts: Tools.Tools): Turn {
    var l := |t.tools.lines|;
    t.(tools := ts, items := if |ts.lines| > l && HeadKey(ts, l).Some? then Insert(t.items, HeadKey(ts, l).value, LineNode(l)) else t.items)
  }

  function AddCall(t: Turn, id: string, c: Tools.Call): Turn
    requires Tools.Known(t.tools) && Tools.NoneEmpty(t.tools)
  {
    WithTools(t, Tools.AddCall(t.tools, id, c))
  }

  function Start(t: Turn, id: string, c: Tools.Call): Turn
    requires Tools.Known(t.tools) && Tools.NoneEmpty(t.tools)
  {
    if t.flow.ended || t.flow.frozen then t else AddCall(t, id, c)
  }

  function CallEnd(t: Turn, id: string, endedAt: int, isError: bool, denied: bool): Turn {
    if t.flow.frozen then t else WithTools(t, Tools.ToolEnd(t.tools, id, endedAt, isError, denied))
  }

  function Retrying(t: Turn): Turn {
    if t.flow.ended || t.flow.frozen then t else t.(flow := t.flow.(retry := true))
  }

  function Queue(t: Turn, id: string, cancelled: bool): Turn {
    if id in t.prompts then t
    else t.(prompts := t.prompts[id := Prompt(if cancelled then Cancelled else Queued, None)],
            flow := t.flow.(queue := t.flow.queue + [id]))
  }

  function Out(queue: seq<string>, id: string): seq<string> {
    if queue == [] then [] else (if queue[0] == id then [] else [queue[0]]) + Out(queue[1..], id)
  }

  /** A queued prompt leaves the queue for its place in the reply. */
  function TakeAt(t: Turn, id: string, block: int): Turn {
    var take := Take(block, t.flow.takes + 1);
    t.(prompts := t.prompts[id := Prompt(Taken, Some(take))],
       items := Insert(t.items, TakeKey(take), PromptNode(id)),
       flow := t.flow.(takes := take.nth, queue := Out(t.flow.queue, id)))
  }

  function TakePrompt(t: Turn, id: string, atBlock: Option<int>): Turn {
    if id !in t.prompts || t.prompts[id].state != Queued then t else TakeAt(t, id, atBlock.GetOr(0))
  }

  function Cancel(t: Turn, id: string): Turn {
    if id !in t.prompts then t else t.(prompts := t.prompts[id := t.prompts[id].(state := Cancelled)])
  }

  function RemovePrompt(t: Turn, id: string): Turn {
    if id !in t.prompts then t
    else t.(prompts := t.prompts - {id}, items := DropNode(t.items, PromptNode(id)), flow := t.flow.(queue := Out(t.flow.queue, id)))
  }

  function AllDone(blocks: map<int, Text>): map<int, Text> { map i | i in blocks :: blocks[i].(done := true) }

  function End(t: Turn): Turn {
    t.(blocks := AllDone(t.blocks), flow := t.flow.(ended := true, retry := false, streaming := None))
  }

  function Freeze(t: Turn): Turn { t.(flow := t.flow.(frozen := true, streaming := None)) }

  function Step(t: Turn, m: Msg): Turn
    requires Tools.Known(t.tools) && Tools.NoneEmpty(t.tools)
  {
    match m
    case MDelta(i, s) => Delta(t, i, s)
    case MBlock(i, s) => Block(t, i, s)
    case MStart(id, c) => Start(t, id, c)
    case MEnd(id, at, e, d) => CallEnd(t, id, at, e, d)
    case MRetrying => Retrying(t)
    case MQueue(id, c) => Queue(t, id, c)
    case MTaken(id, at) => TakePrompt(t, id, at)
    case MCancel(id) => Cancel(t, id)
    case MRemove(id) => RemovePrompt(t, id)
    case MTurnEnd => End(t)
    case MFreeze => Freeze(t)
  }

  function NewTurn(ended: bool, frozen: bool): Turn {
    Turn([], map[], Tools.NO_TOOLS, map[], Flow(0, [], ended, frozen, false, None))
  }

  // ---- What every run keeps

  ghost predicate Queued1(prompts: map<string, Prompt>, queue: seq<string>) {
    && (forall i, j :: 0 <= i < j < |queue| ==> queue[i] != queue[j])
    && (forall id :: id in queue <==> id in prompts && prompts[id].at == None)
  }

  ghost predicate TakesOk(prompts: map<string, Prompt>, takes: nat) {
    && takes < MAX_TAKES
    && (forall id :: id in prompts && prompts[id].at.Some? ==> 1 <= prompts[id].at.value.nth <= takes && prompts[id].state != Queued)
    && (forall a, b :: a in prompts && b in prompts && prompts[a].at.Some? && prompts[b].at.Some? && a != b ==>
          prompts[a].at.value.nth != prompts[b].at.value.nth)
  }

  /** A block index is a text's or a call's, never both. */
  ghost predicate OwnIndex(blocks: map<int, Text>, ts: Tools.Tools) {
    forall id :: id in ts.calls ==> ts.calls[id].index !in blocks
  }

  ghost predicate Sound(t: Turn) {
    && Tools.Sound(t.tools) && OwnIndex(t.blocks, t.tools)
    && TakesOk(t.prompts, t.flow.takes) && Queued1(t.prompts, t.flow.queue)
    && Placed(t.items, KeysOf(t))
  }

  /** What the room promises of its next message: an item's index is its own (the turn counts its items). */
  ghost predicate Fits(t: Turn, m: Msg) {
    match m
    case MDelta(i, _) => forall id :: id in t.tools.calls ==> t.tools.calls[id].index != i
    case MBlock(i, _) => forall id :: id in t.tools.calls ==> t.tools.calls[id].index != i
    case MStart(id, c) => Tools.FreshCall(t.tools, id, c) && (id !in t.tools.calls ==> c.index !in t.blocks)
    case MTaken(_, _) => t.flow.takes + 1 < MAX_TAKES
    case _ => true
  }
}
