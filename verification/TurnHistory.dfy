/**
  What a turn shows, read off the messages it got (public/js/cockpit/turns.js): the text of
  every block, the retry row, the cursor, every call's record and every prompt's state.
*/
module TurnHistory {
  import opened Options
  import opened TurnReply
  import opened TurnSpec
  import opened TurnLaws
  import Tools = TurnTools

  // ---- Which messages count

  predicate HasEnded(ended: bool, ms: seq<Msg>) { ended || MTurnEnd in ms }

  predicate HasStopped(frozen: bool, ms: seq<Msg>) { frozen || MFreeze in ms }

  predicate Open(ended: bool, frozen: bool, ms: seq<Msg>) { !HasEnded(ended, ms) && !HasStopped(frozen, ms) }

  /** A text message that counts after these: a delta until the end or STOP, a whole block until STOP. */
  predicate TextCounts(ended: bool, frozen: bool, before: seq<Msg>, m: Msg) {
    (m.MDelta? && Open(ended, frozen, before)) || (m.MBlock? && !HasStopped(frozen, before))
  }

  /** The text messages that count, in order. */
  function Said(ended: bool, frozen: bool, ms: seq<Msg>): (r: seq<Msg>)
    ensures forall j :: 0 <= j < |r| ==> r[j].MDelta? || r[j].MBlock?
  {
    if ms == [] then []
    else
      var n := |ms| - 1;
      Said(ended, frozen, ms[..n]) + (if TextCounts(ended, frozen, ms[..n], ms[n]) then [ms[n]] else [])
  }

  /** The texts of a block's deltas, one after the other. */
  function Deltas(said: seq<Msg>, i: int): string {
    if said == [] then ""
    else
      var m := said[|said| - 1];
      Deltas(said[..|said| - 1], i) + (if m.MDelta? && m.i == i then m.text else "")
  }

  predicate IsWhole(m: Msg, i: int) { m.MBlock? && m.i == i }

  /** Where the messages since the last whole block i start. */
  function SinceWhole(said: seq<Msg>, i: int): (r: nat)
    ensures r <= |said| && (r > 0 ==> IsWhole(said[r - 1], i)) && forall k :: r <= k < |said| ==> !IsWhole(said[k], i)
  {
    if said == [] then 0 else if IsWhole(said[|said| - 1], i) then |said| else SinceWhole(said[..|said| - 1], i)
  }

  predicate Speaks(m: Msg, i: int) { (m.MDelta? || m.MBlock?) && m.i == i }

  /** The text of the last whole block, or nothing, followed by the deltas since. */
  function TextOf(said: seq<Msg>, i: int): string {
    var r := SinceWhole(said, i);
    (if r > 0 then said[r - 1].text else "") + Deltas(said[r..], i)
  }

  lemma TextMore(said: seq<Msg>, m: Msg, i: int)
    ensures TextOf(said + [m], i) ==
            if IsWhole(m, i) then m.text else TextOf(said, i) + (if m.MDelta? && m.i == i then m.text else "")
  {
    var all := said + [m];
    assert all[..|said|] == said;
    if IsWhole(m, i) {
      assert all[|all|..] == [];
    } else {
      var r := SinceWhole(said, i);
      assert SinceWhole(all, i) == r;
      assert all[r..] == said[r..] + [m] && all[r..][..|all[r..]| - 1] == said[r..];
    }
  }

  // ---- One message more

  lemma FitHead(t: Turn, ms: seq<Msg>, m: Msg)
    requires Sound(t) && FitAll(t, ms + [m])
    ensures FitAll(t, ms) && Fits(After(t, ms), m)
    ensures Tools.Known(After(t, ms).tools) && Tools.NoneEmpty(After(t, ms).tools) && After(t, ms + [m]) == Step(After(t, ms), m)
    decreases |ms|
  {
    hide Sound, Fits, Step;
    SoundParts(t);
    if ms == [] {
      assert ([m])[1..] == [];
      StepSound(t, m);
    } else {
      StepSound(t, ms[0]);
      assert (ms + [m])[1..] == ms[1..] + [m];
      FitHead(Step(t, ms[0]), ms[1..], m);
    }
  }

  // ---- Flags

  lemma FlagStep(t: Turn, m: Msg)
    requires Tools.Known(t.tools) && Tools.NoneEmpty(t.tools)
    ensures Step(t, m).flow.ended == (t.flow.ended || m == MTurnEnd)
    ensures Step(t, m).flow.frozen == (t.flow.frozen || m == MFreeze)
  {
    hide Tools.Known, Tools.NoneEmpty, Insert, DropNode, Out, Tools.AddCall, Tools.ToolEnd, HeadKey;
  }

  /** One message and one block: which text it has then. */
  lemma BlockStep(t: Turn, m: Msg, i: int)
    requires Tools.Known(t.tools) && Tools.NoneEmpty(t.tools)
    ensures var u := Step(t, m);
            var counts := (m.MDelta? && !t.flow.ended && !t.flow.frozen) || (m.MBlock? && !t.flow.frozen);
            && (i in u.blocks <==> i in t.blocks || (counts && m.i == i))
            && (i in u.blocks ==>
                  && u.blocks[i].text == (if counts && IsWhole(m, i) then m.text
                                          else (if i in t.blocks then t.blocks[i].text else "") + (if counts && m.i == i then m.text else ""))
                  && u.blocks[i].done == ((counts && IsWhole(m, i)) || m == MTurnEnd || (i in t.blocks && t.blocks[i].done)))
  {
    hide Tools.Known, Tools.NoneEmpty, Insert, DropNode, Out, Tools.AddCall, Tools.ToolEnd, HeadKey;
  }

  lemma {:induction false} RunFlags(t: Turn, ms: seq<Msg>)
    requires Sound(t) && FitAll(t, ms)
    ensures After(t, ms).flow.ended == HasEnded(t.flow.ended, ms) && After(t, ms).flow.frozen == HasStopped(t.flow.frozen, ms)
    decreases |ms|
  {
    if ms != [] {
      hide Sound, Fits, Step, FitAll, After;
      var n := |ms| - 1;
      assert ms == ms[..n] + [ms[n]];
      FitHead(t, ms[..n], ms[n]);
      RunFlags(t, ms[..n]);
      FlagStep(After(t, ms[..n]), ms[n]);
    } else {
      NothingYet(t);
    }
  }

  lemma NothingYet(t: Turn)
    requires Sound(t)
    ensures FitAll(t, []) && After(t, []) == t
  {
  }

  lemma SpokenMore(said: seq<Msg>, m: Msg, i: int)
    ensures Spoken(said + [m], i) <==> Spoken(said, i) || Speaks(m, i)
    ensures Wholes(said + [m], i) <==> Wholes(said, i) || IsWhole(m, i)
  {
    var all := said + [m];
    assert all[|said|] == m && forall j :: 0 <= j < |said| ==> all[j] == said[j];
  }

  /** Some message named the block. */
  ghost predicate Spoken(said: seq<Msg>, i: int) { exists j :: 0 <= j < |said| && Speaks(said[j], i) }

  /** Some message was the whole block. */
  ghost predicate Wholes(said: seq<Msg>, i: int) { exists j :: 0 <= j < |said| && IsWhole(said[j], i) }

  lemma {:induction false} NotSpoken(said: seq<Msg>, i: int)
    requires !Spoken(said, i)
    ensures TextOf(said, i) == "" && SinceWhole(said, i) == 0 && Deltas(said, i) == "" && !Wholes(said, i)
  {
    if said != [] {
      var n := |said| - 1;
      assert said == said[..n] + [said[n]];
      SpokenMore(said[..n], said[n], i);
      NotSpoken(said[..n], i);
      assert said[0..] == said;
    }
  }

  /** The blocks are what was said. */
  ghost predicate Shows(said: seq<Msg>, ended: bool, blocks: map<int, Text>, i: int) {
    && (i in blocks <==> Spoken(said, i))
    && (i in blocks ==> blocks[i].text == TextOf(said, i) && (blocks[i].done <==> Wholes(said, i) || ended))
  }

  /**
    After any run a block's text is that of its last whole block, or empty, followed by its deltas since, in order, counting
    only the deltas before the end and STOP and the whole blocks before STOP; it is there exactly when one of them named it,
    and complete exactly when one of them was whole or the turn has ended.
  */
  lemma {:induction false} RunTexts(t: Turn, ms: seq<Msg>, i: int)
    requires Sound(t) && t.blocks == map[] && FitAll(t, ms)
    ensures Shows(Said(t.flow.ended, t.flow.frozen, ms), HasEnded(t.flow.ended, ms), After(t, ms).blocks, i)
    decreases |ms|
  {
    if ms != [] {
      hide Sound, Fits, Step, FitAll, After, Shows;
      var n := |ms| - 1;
      assert ms == ms[..n] + [ms[n]];
      FitHead(t, ms[..n], ms[n]);
      RunTexts(t, ms[..n], i);
      RunFlags(t, ms[..n]);
      TextsOne(After(t, ms[..n]), ms[n], t.flow.ended, t.flow.frozen, ms[..n], i);
    } else {
      NothingYet(t);
    }
  }

  lemma TextsOne(t: Turn, m: Msg, ended: bool, frozen: bool, head: seq<Msg>, i: int)
    requires Tools.Known(t.tools) && Tools.NoneEmpty(t.tools)
    requires t.flow.ended == HasEnded(ended, head) && t.flow.frozen == HasStopped(frozen, head)
    requires Shows(Said(ended, frozen, head), HasEnded(ended, head), t.blocks, i)
    ensures Shows(Said(ended, frozen, head + [m]), HasEnded(ended, head + [m]), Step(t, m).blocks, i)
  {
    hide Step, Spoken, Wholes, TextOf, Tools.Known, Tools.NoneEmpty;
    assert (head + [m])[..|head|] == head;
    var said := Said(ended, frozen, head);
    BlockStep(t, m, i);
    if TextCounts(ended, frozen, head, m) {
      TextMore(said, m, i);
      SpokenMore(said, m, i);
      if !Spoken(said, i) { NotSpoken(said, i); }
    } else {
      assert said + [] == said;
    }
  }

  // ---- The cursor and the retry row

  /** One message and the cursor: it follows the deltas, and goes with its whole block, the end or STOP. */
  lemma CursorStep(t: Turn, m: Msg)
    requires Tools.Known(t.tools) && Tools.NoneEmpty(t.tools)
    ensures Step(t, m).flow.streaming ==
            if m.MDelta? && !t.flow.ended && !t.flow.frozen then Some(m.i)
            else if (m.MBlock? && !t.flow.frozen && t.flow.streaming == Some(m.i)) || m == MTurnEnd || m == MFreeze then None
            else t.flow.streaming
  {
    hide Tools.Known, Tools.NoneEmpty, Insert, DropNode, Out, Tools.AddCall, Tools.ToolEnd, HeadKey;
  }

  /** Where the cursor stands: in the block of the last delta that counts, unless that block came whole since, or the turn ended or was stopped. */
  function CursorOf(said: seq<Msg>, over: bool): Option<int> {
    if over || said == [] then None
    else
      var m := said[|said| - 1];
      if m.MDelta? then Some(m.i)
      else if m.MBlock? && CursorOf(said[..|said| - 1], false) == Some(m.i) then None
      else CursorOf(said[..|said| - 1], false)
  }

  lemma CursorMore(said: seq<Msg>, m: Msg)
    ensures CursorOf(said + [m], false) ==
            if m.MDelta? then Some(m.i) else if m.MBlock? && CursorOf(said, false) == Some(m.i) then None else CursorOf(said, false)
  {
    assert (said + [m])[..|said|] == said;
  }

  lemma OverIs(said: seq<Msg>)
    ensures CursorOf(said, true) == None
  {
  }

  lemma {:induction false} RunCursor(t: Turn, ms: seq<Msg>)
    requires Sound(t) && t.flow.streaming == None && FitAll(t, ms)
    ensures After(t, ms).flow.streaming == CursorOf(Said(t.flow.ended, t.flow.frozen, ms), !Open(t.flow.ended, t.flow.frozen, ms))
    decreases |ms|
  {
    if ms != [] {
      hide Sound, Fits, Step, FitAll, After, CursorOf, Said, Open, HasEnded, HasStopped;
      var n := |ms| - 1;
      assert ms == ms[..n] + [ms[n]];
      FitHead(t, ms[..n], ms[n]);
      RunCursor(t, ms[..n]);
      RunFlags(t, ms[..n]);
      CursorOne(After(t, ms[..n]), ms[n], t.flow.ended, t.flow.frozen, ms[..n]);
    } else {
      NothingYet(t);
      NoCursor(!Open(t.flow.ended, t.flow.frozen, ms));
    }
  }

  lemma CursorOne(t: Turn, m: Msg, ended: bool, frozen: bool, head: seq<Msg>)
    requires Tools.Known(t.tools) && Tools.NoneEmpty(t.tools)
    requires t.flow.ended == HasEnded(ended, head) && t.flow.frozen == HasStopped(frozen, head)
    requires t.flow.streaming == CursorOf(Said(ended, frozen, head), !Open(ended, frozen, head))
    ensures Step(t, m).flow.streaming == CursorOf(Said(ended, frozen, head + [m]), !Open(ended, frozen, head + [m]))
  {
    hide Step, CursorOf, Tools.Known, Tools.NoneEmpty;
    assert (head + [m])[..|head|] == head;
    var said := Said(ended, frozen, head);
    CursorStep(t, m);
    CursorMore(said, m);
    OverIs(said);
    OverIs(said + [m]);
    assert said + [] == said;
    StillOpen(ended, frozen, head, m);
  }

  lemma NoCursor(over: bool)
    ensures CursorOf([], over) == None
  {
  }

  lemma StillOpen(ended: bool, frozen: bool, ms: seq<Msg>, m: Msg)
    ensures Open(ended, frozen, ms + [m]) <==> Open(ended, frozen, ms) && m != MTurnEnd && m != MFreeze
  {
  }

  /** One message and the retry row: a retry shows it while the turn is open, any text that counts or the end takes it away. */
  lemma RetryStep(t: Turn, m: Msg)
    requires Tools.Known(t.tools) && Tools.NoneEmpty(t.tools)
    ensures Step(t, m).flow.retry ==
            if m == MRetrying && !t.flow.ended && !t.flow.frozen then true
            else t.flow.retry && m != MTurnEnd && !(m.MDelta? && !t.flow.ended && !t.flow.frozen) && !(m.MBlock? && !t.flow.frozen)
  {
    hide Tools.Known, Tools.NoneEmpty, Insert, DropNode, Out, Tools.AddCall, Tools.ToolEnd, HeadKey;
  }

  /** The retry row's reason stands: a retry that counts, with no text that counts and no end since. */
  ghost predicate RetryStands(ended: bool, frozen: bool, ms: seq<Msg>) {
    exists k :: 0 <= k < |ms| && RetryAt(ended, frozen, ms, k)
  }

  ghost predicate RetryAt(ended: bool, frozen: bool, ms: seq<Msg>, k: nat) {
    && k < |ms| && ms[k] == MRetrying && Open(ended, frozen, ms[..k])
    && forall j :: k < j < |ms| ==> ms[j] != MTurnEnd && !TextCounts(ended, frozen, ms[..j], ms[j])
  }

  lemma RetryMore(ended: bool, frozen: bool, ms: seq<Msg>, m: Msg)
    ensures RetryStands(ended, frozen, ms + [m]) <==>
            (m == MRetrying && Open(ended, frozen, ms)) || (RetryStands(ended, frozen, ms) && m != MTurnEnd && !TextCounts(ended, frozen, ms, m))
  {
    hide Open, TextCounts;
    var all := ms + [m];
    var n := |ms|;
    assert all[..n] == ms && forall j :: 0 <= j <= n ==> all[..j] == ms[..j];
    if m == MRetrying && Open(ended, frozen, ms) { assert RetryAt(ended, frozen, all, n); }
    if RetryStands(ended, frozen, ms) && m != MTurnEnd && !TextCounts(ended, frozen, ms, m) {
      var k: nat :| k < |ms| && RetryAt(ended, frozen, ms, k);
      assert RetryAt(ended, frozen, all, k);
    }
    if RetryStands(ended, frozen, all) {
      var k: nat :| k < |all| && RetryAt(ended, frozen, all, k);
      if k < n { assert RetryAt(ended, frozen, ms, k); assert all[n] == m; }
    }
  }

  lemma {:induction false} RunRetry(t: Turn, ms: seq<Msg>)
    requires Sound(t) && !t.flow.retry && FitAll(t, ms)
    ensures After(t, ms).flow.retry <==> RetryStands(t.flow.ended, t.flow.frozen, ms)
    decreases |ms|
  {
    if ms != [] {
      hide Sound, Fits, Step, FitAll, After, RetryStands;
      var n := |ms| - 1;
      assert ms == ms[..n] + [ms[n]];
      FitHead(t, ms[..n], ms[n]);
      RunRetry(t, ms[..n]);
      RunFlags(t, ms[..n]);
      RetryStep(After(t, ms[..n]), ms[n]);
      RetryMore(t.flow.ended, t.flow.frozen, ms[..n], ms[n]);
    } else {
      NothingYet(t);
    }
  }

  // ---- The calls

  /** The first start that counts of this call. */
  ghost predicate FirstStart(ended: bool, frozen: bool, ms: seq<Msg>, id: string, k: nat) {
    && k < |ms| && ms[k].MStart? && ms[k].id == id && Open(ended, frozen, ms[..k])
    && forall j :: 0 <= j < k ==> !(ms[j].MStart? && ms[j].id == id)
  }

  /** One message and one call: its first start makes it, every end before STOP says how it went, nothing else touches it. */
  lemma CallStep(t: Turn, m: Msg, id: string)
    requires Tools.Known(t.tools) && Tools.NoneEmpty(t.tools)
    ensures var c, u := t.tools.calls, Step(t, m).tools.calls;
            && (id in u <==> id in c || (m.MStart? && m.id == id && !t.flow.ended && !t.flow.frozen))
            && (id in c ==> u[id] == if m.MEnd? && m.id == id && !t.flow.frozen
                                     then Tools.Call(c[id].tool, c[id].index, c[id].startedAt, Some(m.endedAt), m.isError, m.denied) else c[id])
            && (id in u && id !in c ==> u[id] == m.call)
  {
    hide Tools.Known, Tools.NoneEmpty, Insert, DropNode, Out, HeadKey, Tools.FindLine, Tools.Staying, Tools.Leaving, Tools.Moved;
  }

  /** The record a call's messages make: as it started, with its last end before STOP. */
  function RecordOf(ended: bool, frozen: bool, ms: seq<Msg>, id: string): Option<Tools.Call> {
    if ms == [] then None
    else
      var n := |ms| - 1;
      var r, m := RecordOf(ended, frozen, ms[..n], id), ms[n];
      if r == None then (if m.MStart? && m.id == id && Open(ended, frozen, ms[..n]) then Some(m.call) else None)
      else if m.MEnd? && m.id == id && !HasStopped(frozen, ms[..n])
      then Some(r.value.(endedAt := Some(m.endedAt), isError := m.isError, denied := m.denied))
      else r
  }

  lemma {:induction false} RunCalls(t: Turn, ms: seq<Msg>, id: string)
    requires Sound(t) && t.tools == Tools.NO_TOOLS && FitAll(t, ms)
    ensures var c := After(t, ms).tools.calls; RecordOf(t.flow.ended, t.flow.frozen, ms, id) == if id in c then Some(c[id]) else None
    decreases |ms|
  {
    if ms != [] {
      hide Sound, Fits, Step, FitAll, After;
      var n := |ms| - 1;
      assert ms == ms[..n] + [ms[n]];
      FitHead(t, ms[..n], ms[n]);
      RunCalls(t, ms[..n], id);
      RunFlags(t, ms[..n]);
      CallStep(After(t, ms[..n]), ms[n], id);
    } else {
      NothingYet(t);
    }
  }

  // ---- The prompts

  /** One message and one prompt: queued or cancelled on its first queueing, taken once from the queue, cancelled at any time, removed. */
  lemma PromptStep(t: Turn, m: Msg, id: string)
    requires Tools.Known(t.tools) && Tools.NoneEmpty(t.tools)
    ensures var p, u := t.prompts, Step(t, m).prompts;
            && (id in u <==> (id in p || (m.MQueue? && m.id == id)) && !(m.MRemove? && m.id == id))
            && (id in u && id !in p ==> u[id] == Prompt(if m.cancelled then Cancelled else Queued, None))
            && (id in u && id in p ==>
                  u[id] == if m.MTaken? && m.id == id && p[id].state == Queued
                           then Prompt(Taken, Some(Take(if m.atBlock.Some? then m.atBlock.value else 0, t.flow.takes + 1)))
                           else if m.MCancel? && m.id == id then Prompt(Cancelled, p[id].at)
                           else p[id])
            && Step(t, m).flow.takes == t.flow.takes + (if m.MTaken? && m.id in p && p[m.id].state == Queued then 1 else 0)
  {
    hide Tools.Known, Tools.NoneEmpty, Insert, DropNode, Out, Tools.AddCall, Tools.ToolEnd, HeadKey, TakeKey;
  }

  /** The queue shows the prompts that wait or were cancelled in it, in the order they were queued. */
  lemma QueueStep(t: Turn, m: Msg)
    requires Tools.Known(t.tools) && Tools.NoneEmpty(t.tools)
    ensures var q, u := t.flow.queue, Step(t, m).flow.queue;
            u == if m.MQueue? && m.id !in t.prompts then q + [m.id]
                 else if (m.MTaken? && m.id in t.prompts && t.prompts[m.id].state == Queued) || (m.MRemove? && m.id in t.prompts) then Out(q, m.id)
                 else q
  {
    hide Tools.Known, Tools.NoneEmpty, Insert, DropNode, Out, Tools.AddCall, Tools.ToolEnd, HeadKey, TakeKey;
  }

  /** Whoever leaves the queue leaves the others in their order. */
  lemma {:induction false} OutLaw(queue: seq<string>, id: string, k: nat)
    requires k < |queue| && queue[k] == id && forall i, j :: 0 <= i < j < |queue| ==> queue[i] != queue[j]
    ensures Out(queue, id) == queue[..k] + queue[k + 1..]
  {
    if k == 0 {
      OutOther(queue[1..], id);
    } else {
      OutLaw(queue[1..], id, k - 1);
      assert queue[1..][..k - 1] == queue[1..k] && queue[1..][k..] == queue[k + 1..];
      assert queue[..k] == [queue[0]] + queue[1..k];
    }
  }

  lemma {:induction false} OutOther(queue: seq<string>, id: string)
    requires forall i :: 0 <= i < |queue| ==> queue[i] != id
    ensures Out(queue, id) == queue
  {
    if queue != [] { OutOther(queue[1..], id); }
  }
}
