/**
  The prompts a page has sent and the room has not answered (public/js/cockpit/pane.js:
  the maps `sending`, `waits` and `notSent`), and the timers that end the wait.
*/
module PromptSpec {
  import opened Options

  const CONFIRM_WAIT_MS := 5000

  /** A block on the page: a number of its own, and when it was sent. */
  datatype Sent = Sent(view: nat, at: int)
  /** The nth timer, for one client id. */
  datatype Timer = Timer(id: string, n: nat)

  /** `waits` holds a prompt's timer, or None: its time ran out while the link was not live. */
  datatype Pane = Pane(live: bool, sending: map<string, Sent>, waits: map<string, Option<nat>>, notSent: map<string, Sent>,
                       timers: map<Timer, int>, made: nat, views: nat)

  datatype Event =
    | ESend(id: string)            // SEND, with any client id
    | ERetry(id: string)           // E1's RETRY, with the block's own client id
    | EEdit(view: nat)             // EDIT takes a NOT SENT block away
    | EFire(id: string, n: nat)    // a timer's callback
    | EEcho(id: string)            // the room's `turn.prompt`
    | ERefused(id: string)         // `prompt.refused` audit-unavailable, or an `error` bad-message
    | ETooMany(id: string)         // `prompt.refused` too-many
    | EOtherTab(id: string)        // another page of this screen drew E9
    | ESnapshot(ids: set<string>)  // the client ids of a snapshot's turns
    | ELink(live: bool)

  function NewPane(live: bool): Pane { Pane(live, map[], map[], map[], map[], 0, 0) }

  /** `clearTimeout(waits.get(id))`. */
  function Cleared(p: Pane, id: string): map<Timer, int> {
    if id in p.waits && p.waits[id].Some? then p.timers - {Timer(id, p.waits[id].value)} else p.timers
  }

  function WaitForEcho(p: Pane, id: string, now: int): Pane {
    p.(timers := Cleared(p, id)[Timer(id, p.made) := now], waits := p.waits[id := Some(p.made)], made := p.made + 1)
  }

  function Send(p: Pane, id: string, now: int): Pane {
    WaitForEcho(p.(sending := p.sending[id := Sent(p.views, now)], views := p.views + 1), id, now)
  }

  function ShowNotSent(p: Pane, id: string): Pane {
    if id !in p.sending then p
    else p.(sending := p.sending - {id}, waits := p.waits - {id}, notSent := p.notSent[id := p.sending[id]])
  }

  function Fire(p: Pane, id: string, n: nat): Pane {
    if Timer(id, n) !in p.timers then p
    else
      var q := p.(timers := p.timers - {Timer(id, n)}, waits := p.waits - {id});
      if id !in q.sending then q
      else if !q.live then q.(waits := q.waits[id := None])
      else ShowNotSent(q, id)
  }

  function Echo(p: Pane, id: string): Pane {
    p.(timers := Cleared(p, id), waits := p.waits - {id}, sending := p.sending - {id}, notSent := p.notSent - {id})
  }

  function TooMany(p: Pane, id: string): Pane {
    if id !in p.sending then p else ShowNotSent(p.(timers := Cleared(p, id)), id)
  }

  function OtherTab(p: Pane, id: string, now: int): Pane {
    if id in p.sending || id in p.notSent then p
    else p.(notSent := p.notSent[id := Sent(p.views, now)], views := p.views + 1)
  }

  /** The count starts again for every prompt whose time ran out. */
  function Restart(p: Pane, now: int): Pane {
    p.(waits := map id | id in p.waits :: if p.waits[id] == None then Some(p.made) else p.waits[id],
       timers := p.timers + (map id | id in p.waits && p.waits[id] == None :: Timer(id, p.made) := now),
       made := p.made + 1)
  }

  function Link(p: Pane, live: bool, now: int): Pane {
    var q := p.(live := live);
    if live then Restart(q, now) else q
  }

  function Edit(p: Pane, view: nat): Pane {
    p.(notSent := map id | id in p.notSent && p.notSent[id].view != view :: p.notSent[id])
  }

  function Step(p: Pane, e: Event, now: int): Pane {
    match e
    case ESend(id) => Send(p, id, now)
    case ERetry(id) => if !p.live || id in p.sending then p else Send(p, id, now)
    case EEdit(v) => Edit(p, v)
    case EFire(id, n) => Fire(p, id, n)
    case EEcho(id) => Echo(p, id)
    case ERefused(id) => ShowNotSent(p, id)
    case ETooMany(id) => TooMany(p, id)
    case EOtherTab(id) => OtherTab(p, id, now)
    case ESnapshot(ids) => p.(sending := p.sending - ids, notSent := p.notSent - ids)
    case ELink(live) => Link(p, live, now)
  }

  datatype Timed = Timed(e: Event, now: int)

  function After(p: Pane, es: seq<Timed>): Pane {
    if es == [] then p else Step(After(p, es[..|es| - 1]), es[|es| - 1].e, es[|es| - 1].now)
  }
}
