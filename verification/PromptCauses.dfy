/** Why a prompt is SENDING, NOT SENT, waited for or none of them (public/js/cockpit/pane.js): each exactly by its causes. */
module PromptCauses {
  import opened Options
  import opened PromptSpec
  import opened PromptLaws

  /** A prompt goes out: a send, or RETRY on a live link while it is not on its way. */
  predicate GoesOut(p: Pane, e: Event, id: string) { e == ESend(id) || (e == ERetry(id) && p.live && id !in p.sending) }

  /** A pending timer of the prompt fires on a live link. */
  predicate TimesOut(p: Pane, e: Event, id: string) { e.EFire? && e.id == id && Timer(id, e.n) in p.timers && p.live }

  /** The room has it: its echo, or a snapshot with its turn. */
  predicate Confirms(e: Event, id: string) { e == EEcho(id) || (e.ESnapshot? && id in e.ids) }

  predicate Refuses(e: Event, id: string) { e == ERefused(id) || e == ETooMany(id) }

  /** A prompt leaves SENDING exactly when the room has it, refuses it, or its time is over on a live link. */
  lemma SendingLaw(p: Pane, e: Event, now: int, id: string)
    ensures var q := Step(p, e, now);
            && (id in q.sending <==> GoesOut(p, e, id) || (id in p.sending && !Confirms(e, id) && !Refuses(e, id) && !TimesOut(p, e, id)))
            && (id in q.sending ==> q.sending[id] == if GoesOut(p, e, id) then Sent(p.views, now) else p.sending[id])
  {
  }

  /** A prompt reads NOT SENT exactly from its refusal, its time out or another tab's refusal on, until the room has it or its block is edited. */
  lemma NotSentLaw(p: Pane, e: Event, now: int, id: string)
    ensures var q := Step(p, e, now);
            var comes := id in p.sending && (Refuses(e, id) || TimesOut(p, e, id));
            var told := e == EOtherTab(id) && id !in p.sending && id !in p.notSent;
            && (id in q.notSent <==> comes || told || (id in p.notSent && !Confirms(e, id) && e != EEdit(p.notSent[id].view)))
            && (id in q.notSent ==> q.notSent[id] == if comes then p.sending[id] else if told then Sent(p.views, now) else p.notSent[id])
  {
  }

  /** A prompt is waited for from its going out until an echo, a refusal of a sending prompt, or a timer of it; a timer that finds the link not live leaves it waiting without one. */
  lemma WaitsLaw(p: Pane, e: Event, now: int, id: string)
    ensures var q := Step(p, e, now);
            var fires := e.EFire? && e.id == id && Timer(id, e.n) in p.timers;
            var ends := e == EEcho(id) || (Refuses(e, id) && id in p.sending);
            && (id in q.waits <==> GoesOut(p, e, id) || (if fires then id in p.sending && !p.live else id in p.waits && !ends))
            && (id in q.waits ==>
                  q.waits[id] == (if GoesOut(p, e, id) then Some(p.made)
                                  else if fires then None
                                  else if e == ELink(true) && p.waits[id] == None then Some(p.made)
                                  else p.waits[id]))
  {
  }

  /** A timer is pending from the going out or the restart that made it, until it fires or is cleared: by an echo, a too-many, or the same id going out again. */
  lemma TimersLaw(p: Pane, e: Event, now: int, t: Timer)
    ensures var q := Step(p, e, now);
            var made := (GoesOut(p, e, t.id) && t.n == p.made) || (e == ELink(true) && t.id in p.waits && p.waits[t.id] == None && t.n == p.made);
            var cleared := t.id in p.waits && p.waits[t.id] == Some(t.n)
                           && (GoesOut(p, e, t.id) || e == EEcho(t.id) || (e == ETooMany(t.id) && t.id in p.sending));
            && (t in q.timers <==> made || (t in p.timers && !cleared && e != EFire(t.id, t.n)))
            && (t in q.timers ==> q.timers[t] == if made then now else p.timers[t])
  {
  }

  /** The link's word is the last one said. */
  lemma LiveLaw(p: Pane, e: Event, now: int)
    ensures Step(p, e, now).live == if e.ELink? then e.live else p.live
  {
  }

  /** After its echo a prompt is neither on its way nor NOT SENT nor waited for, and its wait's timer is gone. */
  lemma EchoEndsIt(p: Pane, id: string, now: int)
    ensures var q := Step(p, EEcho(id), now);
            id !in q.sending && id !in q.notSent && id !in q.waits
            && (id in p.waits && p.waits[id].Some? ==> Timer(id, p.waits[id].value) !in q.timers)
  {
    SendingLaw(p, EEcho(id), now, id);
    NotSentLaw(p, EEcho(id), now, id);
    WaitsLaw(p, EEcho(id), now, id);
    if id in p.waits && p.waits[id].Some? { TimersLaw(p, EEcho(id), now, Timer(id, p.waits[id].value)); }
  }

  /** No message or tap of the run brings the prompt up again. */
  predicate NotAgain(es: seq<Timed>, id: string) {
    forall i :: 0 <= i < |es| ==> es[i].e != ESend(id) && es[i].e != ERetry(id) && es[i].e != EOtherTab(id)
  }

  lemma {:induction false} StaysAway(p: Pane, es: seq<Timed>, id: string)
    requires id !in p.sending && id !in p.notSent && NotAgain(es, id)
    ensures id !in After(p, es).sending && id !in After(p, es).notSent
  {
    if es != [] {
      hide Step;
      var n := |es| - 1;
      StaysAway(p, es[..n], id);
      SendingLaw(After(p, es[..n]), es[n].e, es[n].now, id);
      NotSentLaw(After(p, es[..n]), es[n].e, es[n].now, id);
    }
  }

  /** A prompt that the room has, and that is not sent again, never reads SENDING or NOT SENT afterwards, without another tab's refusal. */
  lemma ConfirmedForGood(p: Pane, before: seq<Timed>, e: Timed, es: seq<Timed>, id: string)
    requires Confirms(e.e, id) && NotAgain(es, id)
    ensures var q := After(After(p, before + [e]), es); id !in q.sending && id !in q.notSent
  {
    hide Step;
    AfterOne(p, before, e);
    SendingLaw(After(p, before), e.e, e.now, id);
    NotSentLaw(After(p, before), e.e, e.now, id);
    StaysAway(After(p, before + [e]), es, id);
  }
}
