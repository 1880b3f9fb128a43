/** The page's maps of prompts on their way (public/js/cockpit/pane.js), updated in place by taps, timers and messages. */
module PanePrompts {
  import opened Options
  import opened PromptSpec
  import opened PromptLaws

  function IdsOf(turns: seq<string>): set<string> { set id | id in turns }

  lemma IdsOne(turns: seq<string>, i: nat)
    requires i < |turns|
    ensures IdsOf(turns[..i + 1]) == IdsOf(turns[..i]) + {turns[i]}
  {
    assert turns[..i + 1] == turns[..i] + [turns[i]];
  }

  class PanePrompts {
    var live: bool
    var sending: map<string, Sent>
    var waits: map<string, Option<nat>>
    var notSent: map<string, Sent>
    /** The window's pending timers, and when each started. */
    var timers: map<Timer, int>
    var made: nat
    var views: nat

    function View(): Pane
      reads this
    {
      Pane(live, sending, waits, notSent, timers, made, views)
    }

    constructor (live: bool)
      ensures View() == NewPane(live) && NoHang(View())
    {
      this.live := live;
      sending, waits, notSent, timers, made, views := map[], map[], map[], map[], 0, 0;
    }

    method ClearWait(id: string)
      modifies this`timers
      ensures timers == Cleared(old(View()), id)
    {
      if id in waits && waits[id].Some? { timers := timers - {Timer(id, waits[id].value)}; }
    }

    method WaitForEcho(id: string, now: int)
      modifies this`timers, this`waits, this`made
      ensures View() == PromptSpec.WaitForEcho(old(View()), id, now)
    {
      ClearWait(id);
      timers := timers[Timer(id, made) := now];
      waits := waits[id := Some(made)];
      made := made + 1;
    }

    method SendPrompt(id: string, now: int)
      requires NoHang(View())
      modifies this
      ensures View() == Send(old(View()), id, now)
      ensures NoHang(View())
    {
      sending := sending[id := Sent(views, now)];
      views := views + 1;
      WaitForEcho(id, now);
    }

    method Retry(id: string, now: int)
      requires NoHang(View())
      modifies this
      ensures View() == Step(old(View()), ERetry(id), now)
      ensures NoHang(View())
    {
      if !live || id in sending { return; }
      SendPrompt(id, now);
    }

    method ShowNotSent(id: string)
      modifies this`sending, this`waits, this`notSent
      ensures View() == PromptSpec.ShowNotSent(old(View()), id)
    {
      if id !in sending { return; }
      var v := sending[id];
      sending := sending - {id};
      waits := waits - {id};
      notSent := notSent[id := v];
    }

    method ShowTooMany(id: string)
      requires NoHang(View())
      modifies this
      ensures View() == TooMany(old(View()), id)
      ensures NoHang(View())
    {
      if id !in sending { return; }
      var v := sending[id];
      sending := sending - {id};
      ClearWait(id);
      waits := waits - {id};
      notSent := notSent[id := v];
    }

    /** The callback of a pending timer. */
    method TimeUp(id: string, n: nat)
      requires Timer(id, n) in timers
      requires NoHang(View())
      modifies this
      ensures View() == Fire(old(View()), id, n)
      ensures NoHang(View())
    {
      timers := timers - {Timer(id, n)};
      waits := waits - {id};
      if id !in sending { return; }
      if !live {
        waits := waits[id := None];
        return;
      }
      ShowNotSent(id);
    }

    method PromptEcho(id: string)
      requires NoHang(View())
      modifies this
      ensures View() == Echo(old(View()), id)
      ensures NoHang(View())
    {
      ClearWait(id);
      waits := waits - {id};
      if id in sending || id in notSent {
        sending := sending - {id};
        notSent := notSent - {id};
      }
      assert sending == old(sending) - {id} && notSent == old(notSent) - {id};
    }

    method OtherTabRefused(id: string, now: int)
      requires NoHang(View())
      modifies this`notSent, this`views
      ensures View() == OtherTab(old(View()), id, now)
      ensures NoHang(View())
    {
      if id in sending || id in notSent { return; }
      notSent := notSent[id := Sent(views, now)];
      views := views + 1;
    }

    method EditBlock(view: nat)
      requires NoHang(View())
      modifies this`notSent
      ensures View() == Edit(old(View()), view)
      ensures NoHang(View())
    {
      var ids := notSent.Keys;
      while ids != {}
        invariant ids <= old(notSent).Keys && notSent.Keys <= old(notSent).Keys
        invariant forall id :: id in notSent ==> notSent[id] == old(notSent)[id]
        invariant forall id :: id in old(notSent) ==> (id in notSent <==> id in ids || old(notSent)[id].view != view)
        decreases |ids|
      {
        var id :| id in ids;
        if notSent[id].view == view { notSent := notSent - {id}; }
        ids := ids - {id};
      }
    }

    /** The room had the prompts of these turns: their own blocks go. */
    method DrawSnapshot(turns: seq<string>)
      requires NoHang(View())
      modifies this`sending, this`notSent
      ensures View() == Step(old(View()), ESnapshot(IdsOf(turns)), 0)
      ensures NoHang(View())
    {
      for i := 0 to |turns|
        invariant sending == old(sending) - IdsOf(turns[..i]) && notSent == old(notSent)
      {
        IdsOne(turns, i);
        sending := sending - {turns[i]};
      }
      assert turns[..|turns|] == turns;
      DropNotSent(turns);
    }

    method DropNotSent(turns: seq<string>)
      modifies this`notSent
      ensures notSent == old(notSent) - IdsOf(turns)
    {
      var ids := notSent.Keys;
      while ids != {}
        invariant ids <= old(notSent).Keys && notSent.Keys <= old(notSent).Keys
        invariant forall id :: id in notSent ==> notSent[id] == old(notSent)[id]
        invariant forall id :: id in old(notSent) ==> (id in notSent <==> id in ids || id !in turns)
        decreases |ids|
      {
        var id :| id in ids;
        if id in turns { notSent := notSent - {id}; }
        ids := ids - {id};
      }
    }

    /** Every wait that ran out counts again. */
    method RestartWaits(now: int)
      modifies this`waits, this`timers, this`made
      ensures View() == Restart(old(View()), now)
    {
      hide Restarted, Counting;
      var ids := waits.Keys;
      NoneRestarted(waits, made, now);
      while ids != {}
        invariant ids <= old(waits).Keys && made == old(made)
        invariant waits == Counting(old(waits), ids, made)
        invariant timers == old(timers) + Restarted(old(waits), ids, made, now)
        decreases |ids|
      {
        var id :| id in ids;
        CountingOne(old(waits), ids, id, made);
        if waits[id] == None {
          RestartedOne(old(timers), old(waits), ids, id, made, now);
          timers := timers[Timer(id, made) := now];
          waits := waits[id := Some(made)];
        } else {
          RestartedSame(old(waits), ids, id, made, now);
        }
        ids := ids - {id};
      }
      made := made + 1;
      AllRestarted(old(waits), old(made), now);
    }

    /** The link's state; once live, every wait that ran out counts again. */
    method SetLink(state: bool, now: int)
      requires NoHang(View())
      modifies this
      ensures View() == Link(old(View()), state, now)
      ensures NoHang(View())
    {
      hide NoHang;
      LinkNoHang(View(), state, now);
      live := state;
      if live { RestartWaits(now); }
    }

    /** Any event at any time. */
    method On(e: Event, now: int)
      requires NoHang(View())
      modifies this
      ensures View() == Step(old(View()), e, now) && NoHang(View())
    {
      match e
      case ESend(id) => SendPrompt(id, now);
      case ERetry(id) => Retry(id, now);
      case EEdit(view) => EditBlock(view);
      case EFire(id, n) => if Timer(id, n) in timers { TimeUp(id, n); }
      case EEcho(id) => PromptEcho(id);
      case ERefused(id) => ShowNotSent(id);
      case ETooMany(id) => ShowTooMany(id);
      case EOtherTab(id) => OtherTabRefused(id, now);
      case ESnapshot(ids) =>
        var turns := Listed(ids);
        DrawSnapshot(turns);
      case ELink(live) => SetLink(live, now);
    }
  }

  /** A snapshot's turns in some order. */
  method Listed(ids: set<string>) returns (turns: seq<string>)
    ensures IdsOf(turns) == ids
  {
    turns := [];
    var left := ids;
    while left != {}
      invariant left <= ids && IdsOf(turns) == ids - left
      decreases |left|
    {
      var id :| id in left;
      assert IdsOf(turns + [id]) == IdsOf(turns) + {id};
      turns := turns + [id];
      left := left - {id};
    }
  }

  /**
    A page driven by any run: its maps are those of the run, and no prompt hangs in SENDING: each has a pending timer,
    or a null wait while the link is not live.
  */
  method Run(live: bool, es: seq<Timed>) returns (page: PanePrompts)
    ensures fresh(page) && page.View() == After(NewPane(live), es) && NoHang(page.View())
    ensures forall id :: id in page.sending ==>
              id in page.waits && if page.waits[id] == None then !page.live else Timer(id, page.waits[id].value) in page.timers
  {
    page := new PanePrompts(live);
    assert es[..0] == [];
    for i := 0 to |es|
      invariant fresh(page) && page.View() == After(NewPane(live), es[..i]) && NoHang(page.View())
    {
      AfterOne(NewPane(live), es[..i], es[i]);
      assert es[..i + 1] == es[..i] + [es[i]];
      page.On(es[i].e, es[i].now);
    }
    assert es[..|es|] == es;
  }

  /** The timers of the waits that ran out and are not in `left`. */
  ghost function Restarted(waits: map<string, Option<nat>>, left: set<string>, n: nat, now: int): map<Timer, int> {
    map id | id in waits && id !in left && waits[id] == None :: Timer(id, n) := now
  }

  lemma RestartedIs(waits: map<string, Option<nat>>, left: set<string>, n: nat, now: int, t: Timer)
    ensures t in Restarted(waits, left, n, now) <==> t.n == n && t.id in waits && t.id !in left && waits[t.id] == None
    ensures t in Restarted(waits, left, n, now) ==> Restarted(waits, left, n, now)[t] == now
  {
  }

  lemma RestartedOne(timers: map<Timer, int>, waits: map<string, Option<nat>>, left: set<string>, id: string, n: nat, now: int)
    requires id in left && id in waits && waits[id] == None
    ensures (timers + Restarted(waits, left, n, now))[Timer(id, n) := now] == timers + Restarted(waits, left - {id}, n, now)
  {
    var a, b := Restarted(waits, left, n, now), Restarted(waits, left - {id}, n, now);
    forall t ensures (t in b <==> t in a || t == Timer(id, n)) && (t in b ==> b[t] == now) && (t in a ==> a[t] == now) {
      RestartedIs(waits, left, n, now, t);
      RestartedIs(waits, left - {id}, n, now, t);
    }
  }

  lemma RestartedSame(waits: map<string, Option<nat>>, left: set<string>, id: string, n: nat, now: int)
    requires id in waits && waits[id].Some?
    ensures Restarted(waits, left - {id}, n, now) == Restarted(waits, left, n, now)
  {
    var a, b := Restarted(waits, left, n, now), Restarted(waits, left - {id}, n, now);
    forall t ensures (t in b <==> t in a) && (t in b ==> b[t] == now) && (t in a ==> a[t] == now) {
      RestartedIs(waits, left, n, now, t);
      RestartedIs(waits, left - {id}, n, now, t);
    }
  }

  /** The waits once those outside `left` that ran out count again. */
  function Counting(waits: map<string, Option<nat>>, left: set<string>, n: nat): map<string, Option<nat>> {
    map id | id in waits :: if id !in left && waits[id] == None then Some(n) else waits[id]
  }

  lemma CountingOne(waits: map<string, Option<nat>>, left: set<string>, id: string, n: nat)
    requires id in left && left <= waits.Keys
    ensures var w := Counting(waits, left, n);
            && id in w && w[id] == waits[id]
            && Counting(waits, left - {id}, n) == if w[id] == None then w[id := Some(n)] else w
  {
  }

  lemma NoneRestarted(waits: map<string, Option<nat>>, n: nat, now: int)
    ensures Counting(waits, waits.Keys, n) == waits && Restarted(waits, waits.Keys, n, now) == map[]
  {
  }

  lemma AllRestarted(waits: map<string, Option<nat>>, n: nat, now: int)
    ensures Restarted(waits, {}, n, now) == map id | id in waits && waits[id] == None :: Timer(id, n) := now
    ensures Counting(waits, {}, n) == map id | id in waits :: if waits[id] == None then Some(n) else waits[id]
  {
  }
}
