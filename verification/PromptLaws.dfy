/** No prompt hangs in SENDING, none is lost, and when one reads NOT SENT too early. */
module PromptLaws {
  import opened Options
  import opened PromptSpec

  /** Every waiting entry is a pending timer, or None while the link is not live; every sending prompt has one. */
  ghost predicate NoHang(p: Pane) {
    && p.sending.Keys <= p.waits.Keys
    && (forall id :: id in p.waits && p.waits[id].Some? ==> Timer(id, p.waits[id].value) in p.timers)
    && (forall id :: id in p.waits && p.waits[id] == None ==> !p.live)
    && (forall t :: t in p.timers ==> t.n < p.made)
  }

  lemma StepNoHang(p: Pane, e: Event, now: int)
    requires NoHang(p)
    ensures NoHang(Step(p, e, now))
  {
    match e
    case ELink(live) => LinkNoHang(p, live, now);
    case _ =>
  }

  lemma LinkNoHang(p: Pane, live: bool, now: int)
    requires NoHang(p)
    ensures NoHang(Link(p, live, now))
  {
    var q := Link(p, live, now);
    if live {
      forall id | id in q.waits && q.waits[id].Some? ensures Timer(id, q.waits[id].value) in q.timers {
        if p.waits[id] == None { assert Timer(id, p.made) in q.timers; }
      }
    }
  }

  /** Through retries, late echoes, refusals, snapshots and link flaps: in every reachable state no prompt hangs. */
  lemma {:induction false} RunNoHang(p: Pane, es: seq<Timed>)
    requires NoHang(p)
    ensures NoHang(After(p, es))
  {
    hide NoHang, Step;
    if es != [] {
      RunNoHang(p, es[..|es| - 1]);
      StepNoHang(After(p, es[..|es| - 1]), es[|es| - 1].e, es[|es| - 1].now);
    }
  }

  /** On a live link a sending prompt's own timer is pending, and when it fires the prompt reads NOT SENT. */
  lemma TimerEndsTheWait(p: Pane, id: string, now: int)
    requires NoHang(p) && p.live && id in p.sending
    ensures p.waits[id].Some? && Timer(id, p.waits[id].value) in p.timers
    ensures var q := Step(p, EFire(id, p.waits[id].value), now); id !in q.sending && id in q.notSent
  {
  }

  /** A prompt leaves SENDING only because the room had it, or to read NOT SENT. */
  lemma NoneIsLost(p: Pane, e: Event, now: int, id: string)
    requires id in p.sending && id !in Step(p, e, now).sending
    ensures e == EEcho(id) || (e.ESnapshot? && id in e.ids) || (id in Step(p, e, now).notSent && Step(p, e, now).notSent[id] == p.sending[id])
  {
  }

  // ---- Not too early

  /** A prompt's own timer counts from its send or later. */
  ghost predicate Since(p: Pane) {
    forall id {:trigger p.sending[id]} ::
      id in p.sending && id in p.waits && p.waits[id].Some? && Timer(id, p.waits[id].value) in p.timers ==>
        p.timers[Timer(id, p.waits[id].value)] >= p.sending[id].at
  }

  /** Everything on the page was sent by now. */
  ghost predicate Past(p: Pane, now: int) { forall id :: id in p.sending ==> p.sending[id].at <= now }

  /** Only the timers that `waits` names are pending: no cleared wait left its timer running. */
  ghost predicate Clean(p: Pane) {
    forall t :: t in p.timers ==> t.id in p.waits && p.waits[t.id] == Some(t.n)
  }

  /** A timer fires no earlier than its time. */
  predicate OnTime(p: Pane, e: Event, now: int) {
    e.EFire? && Timer(e.id, e.n) in p.timers ==> now >= p.timers[Timer(e.id, e.n)] + CONFIRM_WAIT_MS
  }

  lemma StepSince(p: Pane, e: Event, now: int)
    requires NoHang(p) && Since(p) && Past(p, now)
    ensures Since(Step(p, e, now)) && forall later :: later >= now ==> Past(Step(p, e, now), later)
  {
    match e
    case ELink(live) => LinkSince(p, live, now);
    case _ =>
  }

  lemma LinkSince(p: Pane, live: bool, now: int)
    requires NoHang(p) && Since(p) && Past(p, now)
    ensures Since(Link(p, live, now))
  {
    var q := Link(p, live, now);
    if live {
      forall id | id in q.sending && id in q.waits && q.waits[id].Some? && Timer(id, q.waits[id].value) in q.timers
        ensures q.timers[Timer(id, q.waits[id].value)] >= q.sending[id].at
      {
        if p.waits[id].Some? { assert p.sending[id].at <= p.timers[Timer(id, p.waits[id].value)]; }
      }
    }
  }

  /** A refusal that deletes the wait without stopping its timer. */
  predicate Leaves(p: Pane, e: Event) {
    e.ERefused? && e.id in p.sending && e.id in p.waits && p.waits[e.id].Some?
  }

  /** Every step keeps the timers clean exactly when it is no refusal of a prompt whose timer runs. */
  lemma StepClean(p: Pane, e: Event, now: int)
    requires NoHang(p) && Clean(p)
    ensures Clean(Step(p, e, now)) <==> !Leaves(p, e)
  {
    if Leaves(p, e) {
      var t := Timer(e.id, p.waits[e.id].value);
      assert t in Step(p, e, now).timers;
    }
  }

  /** A timer that marks a prompt NOT SENT before its own time ran is not the prompt's own. */
  lemma EarlyIsNotItsOwn(p: Pane, id: string, n: nat, now: int)
    requires NoHang(p) && Since(p) && OnTime(p, EFire(id, n), now) && Timer(id, n) in p.timers
    requires id in p.sending && id in Step(p, EFire(id, n), now).notSent && id !in Step(p, EFire(id, n), now).sending
    requires now < p.sending[id].at + CONFIRM_WAIT_MS
    ensures p.waits[id] != Some(n) && !Clean(p)
  {
    assert p.sending[id].at > now - CONFIRM_WAIT_MS;
  }

  // ---- Whole runs

  ghost predicate Orderly(p: Pane, es: seq<Timed>) {
    forall i :: 0 <= i < |es| ==>
      && OnTime(After(p, es[..i]), es[i].e, es[i].now)
      && forall j :: 0 <= j <= i ==> es[j].now <= es[i].now
  }

  /** No refusal of the run leaves a timer behind. */
  ghost predicate NoneLeft(p: Pane, es: seq<Timed>) {
    forall i :: 0 <= i < |es| ==> !Leaves(After(p, es[..i]), es[i].e)
  }

  lemma {:induction false} RunClean(p: Pane, es: seq<Timed>)
    requires NoHang(p) && Since(p) && Clean(p) && p.sending == map[] && Orderly(p, es) && NoneLeft(p, es)
    ensures NoHang(After(p, es)) && Since(After(p, es)) && Clean(After(p, es))
    ensures es != [] ==> Past(After(p, es), es[|es| - 1].now)
  {
    hide NoHang, Step, OnTime, Leaves, Clean, Since;
    if es != [] {
      var n := |es| - 1;
      var head := es[..n];
      forall i | 0 <= i < n ensures head[..i] == es[..i] {}
      RunClean(p, head);
      var q := After(p, head);
      assert Past(q, es[n].now) by { if head != [] { assert head[n - 1].now <= es[n].now; } }
      StepNoHang(q, es[n].e, es[n].now);
      StepSince(q, es[n].e, es[n].now);
      StepClean(q, es[n].e, es[n].now);
    }
  }

  /** In a run without such a refusal no timer marks a prompt NOT SENT before it waited its whole time. */
  lemma NeverEarly(p: Pane, es: seq<Timed>, id: string, n: nat, now: int)
    requires NoHang(p) && Since(p) && Clean(p) && p.sending == map[] && Orderly(p, es) && NoneLeft(p, es)
    requires var q := After(p, es);
             Timer(id, n) in q.timers && OnTime(q, EFire(id, n), now) && id in q.sending && id !in Step(q, EFire(id, n), now).sending
    ensures now >= After(p, es).sending[id].at + 5000
  {
    RunClean(p, es);
    var q := After(p, es);
    assert q.sending[id].at <= q.timers[Timer(id, n)];
  }

  // ---- Exactly when

  /** The run's last event is a timer that marks a prompt NOT SENT before it waited its whole time. */
  ghost predicate EndsEarly(p: Pane, es: seq<Timed>) {
    es != [] &&
    var n := |es| - 1;
    var q, e := After(p, es[..n]), es[n].e;
    && e.EFire? && e.id in q.sending && e.id in After(p, es).notSent && e.id !in After(p, es).sending
    && es[n].now < q.sending[e.id].at + CONFIRM_WAIT_MS
  }

  /** From the nth event on no refusal leaves a timer behind. */
  ghost predicate NoneLeftFrom(p: Pane, es: seq<Timed>, n: nat) {
    forall i :: n <= i < |es| ==> !Leaves(After(p, es[..i]), es[i].e)
  }

  /** The run, or one that goes on from it without a further such refusal, marks a prompt early. */
  ghost predicate CanBeEarly(p: Pane, es: seq<Timed>) {
    exists later :: Orderly(p, es + later) && NoneLeftFrom(p, es + later, |es|) && EndsEarly(p, es + later)
  }

  /** A page with nothing on its way. */
  ghost predicate Idle(p: Pane) { NoHang(p) && Clean(p) && p.sending == map[] }

  /** The old timer against the retry's own wait: it ends that wait early exactly when it had been running when RETRY was tapped. */
  lemma RetryEarlyIff(p: Pane, id: string, r: int)
    requires NoHang(p) && p.live && Leaves(p, ERefused(id))
    ensures var n := p.waits[id].value;
            var q := Step(Step(p, ERefused(id), r), ERetry(id), r);
            && Timer(id, n) in p.timers && id in q.sending && q.sending[id].at == r
            && ((exists f :: f >= r && OnTime(q, EFire(id, n), f) && id in Step(q, EFire(id, n), f).notSent && f < r + CONFIRM_WAIT_MS)
                <==> p.timers[Timer(id, n)] < r)
  {
    var n := p.waits[id].value;
    var start := p.timers[Timer(id, n)];
    var q := Step(Step(p, ERefused(id), r), ERetry(id), r);
    assert Timer(id, n) in q.timers && q.timers[Timer(id, n)] == start;
    if start < r {
      var f := if start + CONFIRM_WAIT_MS < r then r else start + CONFIRM_WAIT_MS;
      assert OnTime(q, EFire(id, n), f) && id in Step(q, EFire(id, n), f).notSent;
    }
  }

  /** The events that make the most of a timer left behind: link back, RETRY, and the old timer fires on time. */
  function EarlyRun(p: Pane, id: string, n: nat, start: int, at: int): seq<Timed> {
    var r := if start < at then at else start + 1;
    [Timed(ELink(true), at), Timed(ERetry(id), r), Timed(EFire(id, n), if start + CONFIRM_WAIT_MS < r then r else start + CONFIRM_WAIT_MS)]
  }

  lemma MakesEarly(p: Pane, id: string, n: nat, at: int)
    requires id !in p.sending && id !in p.waits && Timer(id, n) in p.timers && n < p.made
    ensures var start := p.timers[Timer(id, n)];
            var es := EarlyRun(p, id, n, start, at);
            var q1 := Step(p, es[0].e, es[0].now);
            var q2 := Step(q1, es[1].e, es[1].now);
            var q3 := Step(q2, es[2].e, es[2].now);
            && id in q2.sending && q2.sending[id].at == es[1].now && at <= es[1].now <= es[2].now < es[1].now + CONFIRM_WAIT_MS
            && OnTime(q2, es[2].e, es[2].now) && id in q3.notSent && id !in q3.sending
            && !Leaves(p, es[0].e) && !Leaves(q1, es[1].e) && !Leaves(q2, es[2].e)
  {
    var start := p.timers[Timer(id, n)];
    var es := EarlyRun(p, id, n, start, at);
    var q1 := Step(p, es[0].e, es[0].now);
    assert Timer(id, n) in q1.timers && q1.timers[Timer(id, n)] == start;
    var q2 := Step(q1, es[1].e, es[1].now);
    assert Timer(id, n) in q2.timers && q2.timers[Timer(id, n)] == start;
  }

  lemma OrderlyMore(p: Pane, es: seq<Timed>, x: Timed)
    requires Orderly(p, es) && OnTime(After(p, es), x.e, x.now) && (es != [] ==> es[|es| - 1].now <= x.now)
    ensures Orderly(p, es + [x]) && After(p, es + [x]) == Step(After(p, es), x.e, x.now)
  {
    hide OnTime;
    AfterOne(p, es, x);
    var all := es + [x];
    forall i | 0 <= i < |all| ensures OnTime(After(p, all[..i]), all[i].e, all[i].now) && forall j :: 0 <= j <= i ==> all[j].now <= all[i].now {
      if i < |es| { assert all[..i] == es[..i]; } else {
        assert all[..i] == es;
        if es != [] { forall j | 0 <= j < |es| ensures es[j].now <= x.now { assert es[j].now <= es[|es| - 1].now; } }
      }
    }
  }

  lemma OrderlyHead(p: Pane, es: seq<Timed>, n: nat)
    requires Orderly(p, es) && n <= |es|
    ensures Orderly(p, es[..n])
  {
    forall i | 0 <= i < n ensures es[..n][..i] == es[..i] {}
  }

  lemma NoneLeftMore(p: Pane, es: seq<Timed>, x: Timed, n: nat)
    requires NoneLeftFrom(p, es, n) && n <= |es| && !Leaves(After(p, es), x.e)
    ensures NoneLeftFrom(p, es + [x], n)
  {
    forall i | n <= i < |es + [x]| ensures !Leaves(After(p, (es + [x])[..i]), (es + [x])[i].e) {
      if i < |es| { assert (es + [x])[..i] == es[..i]; } else { assert (es + [x])[..i] == es; }
    }
  }

  /** A refusal that leaves a timer behind opens the way to an early mark. */
  lemma LeftIsEnough(p: Pane, es: seq<Timed>, e: Timed)
    requires NoHang(After(p, es)) && Orderly(p, es + [e]) && Leaves(After(p, es), e.e)
    ensures CanBeEarly(p, es + [e])
  {
    hide Step, OnTime, Leaves, After, Orderly, NoneLeftFrom;
    var run := es + [e];
    var q := After(p, run);
    AfterOne(p, es, e);
    var n := Refused(After(p, es), e.e, e.now);
    var x := EarlyRun(q, e.e.id, n, q.timers[Timer(e.e.id, n)], e.now);
    MakesEarly(q, e.e.id, n, e.now);
    NeverFires(q, x[0].now, x[1].now, e.e.id);
    NothingYet(p, run);
    OrderlyMore(p, run, x[0]);
    NoneLeftMore(p, run, x[0], |run|);
    OrderlyMore(p, run + [x[0]], x[1]);
    NoneLeftMore(p, run + [x[0]], x[1], |run|);
    OrderlyMore(p, run + [x[0]] + [x[1]], x[2]);
    NoneLeftMore(p, run + [x[0]] + [x[1]], x[2], |run|);
    var all := run + [x[0]] + [x[1]] + [x[2]];
    assert all == run + x && all[..|all| - 1] == run + [x[0]] + [x[1]];
    assert EndsEarly(p, run + x);
  }

  lemma NothingYet(p: Pane, es: seq<Timed>)
    ensures NoneLeftFrom(p, es, |es|)
  {
  }

  lemma NeverFires(p: Pane, a: int, b: int, id: string)
    ensures OnTime(p, ELink(true), a) && OnTime(Step(p, ELink(true), a), ERetry(id), b)
  {
  }

  lemma Refused(p: Pane, e: Event, now: int) returns (n: nat)
    requires NoHang(p) && Leaves(p, e)
    ensures e.ERefused? && e.id in p.waits && p.waits[e.id] == Some(n)
    ensures var q := Step(p, e, now); e.id !in q.sending && e.id !in q.waits && Timer(e.id, n) in q.timers && n < q.made
  {
    n := p.waits[e.id].value;
  }

  /** Without one, nothing that follows marks a prompt early. */
  lemma NotLeftNever(p: Pane, es: seq<Timed>, later: seq<Timed>)
    requires Idle(p) && NoneLeft(p, es) && Orderly(p, es + later) && NoneLeftFrom(p, es + later, |es|)
    ensures !EndsEarly(p, es + later)
  {
    hide OnTime, Leaves, NoHang, Clean;
    var all := es + later;
    if EndsEarly(p, all) {
      var n := |all| - 1;
      OrderlyHead(p, all, n);
      forall i | 0 <= i < n ensures !Leaves(After(p, all[..n][..i]), all[..n][i].e) {
        assert all[..n][..i] == all[..i];
        if i < |es| { assert all[..i] == es[..i]; }
      }
      OnlyTimers(After(p, all[..n]), all[n].e.id, all[n].e.n, all[n].now);
      NeverEarly(p, all[..n], all[n].e.id, all[n].e.n, all[n].now);
      assert false;
    }
  }

  lemma OnlyTimers(p: Pane, id: string, n: nat, now: int)
    requires id in p.sending && id !in Step(p, EFire(id, n), now).sending
    ensures Timer(id, n) in p.timers
  {
  }

  /**
    After a run without such refusals, one more event opens the way for a prompt to be marked early exactly when it is
    the refusal of a prompt whose timer runs.
  */
  lemma EarlyIff(p: Pane, es: seq<Timed>, e: Timed)
    requires Idle(p) && NoneLeft(p, es) && Orderly(p, es + [e])
    ensures CanBeEarly(p, es + [e]) <==> Leaves(After(p, es), e.e)
  {
    hide OnTime, Leaves, NoHang, Clean, Orderly, EndsEarly, NoneLeftFrom;
    RunNoHang(p, es);
    if Leaves(After(p, es), e.e) {
      LeftIsEnough(p, es, e);
    } else {
      NoneLeftOne(p, es, e);
      forall later | Orderly(p, es + [e] + later) && NoneLeftFrom(p, es + [e] + later, |es + [e]|) ensures !EndsEarly(p, es + [e] + later) {
        NotLeftNever(p, es + [e], later);
      }
    }
  }

  lemma NoneLeftOne(p: Pane, es: seq<Timed>, e: Timed)
    requires NoneLeft(p, es) && !Leaves(After(p, es), e.e)
    ensures NoneLeft(p, es + [e])
  {
    NoneLeftMore(p, es, e, 0);
  }

  // ---- A run with one

  /** Refused at 1 s, retried at 2 s, NOT SENT again at 5 s: the first send's timer ends the second send's wait. */
  lemma RetryMarkedEarly()
    ensures var es := [Timed(ESend("a"), 0), Timed(ERefused("a"), 1000), Timed(ERetry("a"), 2000)];
            var p := After(NewPane(true), es);
            && Orderly(NewPane(true), es) && OnTime(p, EFire("a", 0), 5000)
            && "a" in p.sending && p.sending["a"].at == 2000
            && "a" in Step(p, EFire("a", 0), 5000).notSent && "a" !in Step(p, EFire("a", 0), 5000).sending
  {
    var p0 := NewPane(true);
    var e0, e1, e2 := Timed(ESend("a"), 0), Timed(ERefused("a"), 1000), Timed(ERetry("a"), 2000);
    var es := [e0, e1, e2];
    var p1 := Step(p0, e0.e, 0);
    var p2 := Step(p1, e1.e, 1000);
    var p3 := Step(p2, e2.e, 2000);
    AfterOne(p0, [], e0);
    AfterOne(p0, [e0], e1);
    AfterOne(p0, [e0, e1], e2);
    assert es[..0] == [] && es[..1] == [e0] && es[..2] == [e0, e1];
    assert [] + [e0] == [e0] && [e0] + [e1] == [e0, e1] && [e0, e1] + [e2] == es;
    assert Timer("a", 0) in p3.timers && p3.timers[Timer("a", 0)] == 0;
  }

  lemma AfterOne(p: Pane, es: seq<Timed>, e: Timed)
    ensures After(p, es + [e]) == Step(After(p, es), e.e, e.now)
  {
    assert (es + [e])[..|es|] == es;
  }
}
