/**
  What the room link keeps over every run: it is never wedged and never doubled, it is
  `live` only once a snapshot was drawn, and its delays follow the backoff rule. Sockets
  may fail at any time; events of sockets the link has left are arbitrary.
*/
module LinkSafety {
  import opened Options
  import opened LinkSpec

  // ---- Never wedged, never doubled

  /** A close code after which the screen does not retry was received. */
  predicate Ended(l: Link) { l.shown.refused.Some? && NoRetry(l.shown.refused.value.code) }

  predicate Idle(l: Link) {
    && l.wire.ws.None? && l.timers.retry.None? && l.timers.grace.None? && !l.timers.silence && !l.timers.snapshot
  }

  predicate Running(l: Link) {
    && !l.stopped && !Ended(l)
    && l.wire.ws.Some? != l.timers.retry.Some?
  }

  predicate Sound(l: Link) {
    && (if l.stopped || Ended(l) then Idle(l) else Running(l))
    && (l.wire.ws.Some? ==> l.wire.ws.value < l.wire.made)
    && (l.shown.status == Live ==> l.log.drawn)
  }

  lemma OpenRuns(l: Link, env: Env, delay: Option<real>)
    requires !l.stopped && !Ended(l) && l.wire.ws.None? && (l.shown.status == Live ==> l.log.drawn)
    ensures Running(Open(l, env, delay)) && Sound(Open(l, env, delay))
  {
  }

  lemma GapRuns(l: Link, env: Env)
    requires Running(l) && Sound(l)
    ensures Running(Gap(l, env)) && Sound(Gap(l, env))
  {
    if l.wire.ws.Some? {
      OpenRuns(l.(log := l.log.(epoch := None, lastSeq := None), wire := l.wire.(ws := None)), env, None);
    }
  }

  lemma HandRuns(l: Link, env: Env, h: Handed)
    requires Running(l) && Sound(l)
    ensures Running(Hand(l, env, h)) && Sound(Hand(l, env, h))
  {
    GapRuns(l.(log := l.log.(handed := l.log.handed + [h])), env);
  }

  lemma DrawRuns(l: Link, env: Env, num: Option<int>, turns: seq<Turn>)
    requires Running(l) && Sound(l)
    ensures Running(Draw(l, env, num, turns)) && Sound(Draw(l, env, num, turns))
  {
    HandRuns(l.(wire := l.wire.(parts := None), log := l.log.(lastSeq := num)), env, HSnapshot(num, turns));
  }

  lemma OrderedRuns(l: Link, env: Env, m: Message)
    requires Running(l) && Sound(l)
    ensures Running(Ordered(l, env, m)) && Sound(Ordered(l, env, m))
  {
    GapRuns(l, env);
    HandRuns(l.(log := l.log.(lastSeq := Some(m.num))), env, HEntry(m));
  }

  lemma {:induction false} ReleaseRuns(l: Link, env: Env, held: seq<Message>, sock: Sock)
    requires Running(l) && Sound(l)
    ensures Running(Release(l, env, held, sock)) && Sound(Release(l, env, held, sock))
    decreases |held|
  {
    if held != [] {
      if l.wire.ws == Some(sock) {
        OrderedRuns(l, env, held[0]);
        ReleaseRuns(Ordered(l, env, held[0]), env, held[1..], sock);
      } else {
        ReleaseRuns(l, env, held[1..], sock);
      }
    }
  }

  lemma ReceiveRuns(l: Link, env: Env, f: Frame, sock: Sock)
    requires Running(l) && Sound(l) && l.wire.ws == Some(sock)
    ensures Running(Receive(l, env, f, sock)) && Sound(Receive(l, env, f, sock))
  {
    match f
    case Snapshot(p) =>
      var ps := l.wire.parts.GetOr(Parts([], []));
      var list := ps.list + [p];
      if p.part == p.parts {
        DrawRuns(l, env, p.num, JoinTurns(list));
        ReleaseRuns(Draw(l, env, p.num, JoinTurns(list)), env, ps.held, sock);
      }
    case Welcome(epoch, replay) => HandRuns(Greet(l, epoch), env, HWelcome(epoch));
    case Numbered(m) => OrderedRuns(l, env, m);
    case Plain(body) => HandRuns(l, env, HPlain(body));
    case Garbage =>
  }

  /** One event keeps the link sound; once ended it stays ended, once stopped it stays stopped. */
  lemma StepSound(l: Link, env: Env, ev: Event)
    requires Sound(l)
    ensures Sound(Step(l, env, ev))
    ensures Ended(l) ==> Ended(Step(l, env, ev))
    ensures l.stopped ==> Step(l, env, ev).stopped
  {
    match ev
    case OnFrame(sock, f) =>
      if l.wire.ws == Some(sock) { ReceiveRuns(Heard(l), env, f, sock); }
    case OnRetryTimer =>
      if l.timers.retry.Some? { OpenRuns(l.(timers := l.timers.(retry := None)), env, l.timers.retry); }
    case CallGap =>
      if l.wire.ws.Some? { GapRuns(l, env); }
    case _ =>
  }

  /**
    After every run: a stopped or ended link holds no socket and no timer; any other
    link holds exactly one of a current socket and a retry timer; and `live` means
    that a snapshot was drawn.
  */
  lemma {:induction false} NeverWedged(first: Env, run: seq<(Env, Event)>)
    ensures var l := After(first, run);
            && (!l.stopped && !Ended(l) ==> l.wire.ws.Some? != l.timers.retry.Some?)
            && (l.stopped || Ended(l) ==> l.wire.ws.None? && l.timers.retry.None?)
            && (l.shown.status == Live ==> l.log.drawn)
            && Sound(l)
    decreases |run|
  {
    if run == [] {
      OpenRuns(Fresh.(loss := Fresh.loss.(loadAt := Some(first.now)), timers := Fresh.timers.(snapshot := true)), first, None);
    } else {
      NeverWedged(first, run[..|run| - 1]);
      var last := run[|run| - 1];
      StepSound(After(first, run[..|run| - 1]), last.0, last.1);
    }
  }

  /** A close with one of the four final codes ends the link for every later event. */
  lemma {:induction false} RefusedForever(first: Env, before: seq<(Env, Event)>, env: Env, code: int, reason: string,
                                          later: seq<(Env, Event)>)
    requires NoRetry(code)
    requires After(first, before).wire.ws.Some?
    ensures var close := OnClose(After(first, before).wire.ws.value, code, reason);
            var l := After(first, before + [(env, close)] + later);
            l.wire.ws.None? && l.timers.retry.None? && l.wire.made == After(first, before).wire.made
    decreases |later|
  {
    var close := OnClose(After(first, before).wire.ws.value, code, reason);
    NeverWedged(first, before);
    EndedStays(first, before, env, close, later);
  }

  lemma {:induction false} EndedStays(first: Env, before: seq<(Env, Event)>, env: Env, close: Event, later: seq<(Env, Event)>)
    requires Ended(Step(After(first, before), env, close)) && Sound(Step(After(first, before), env, close))
    ensures var l := After(first, before + [(env, close)] + later);
            Ended(l) && Sound(l) && l.wire.made == Step(After(first, before), env, close).wire.made
    decreases |later|
  {
    var all := before + [(env, close)] + later;
    if later == [] {
      assert all == before + [(env, close)];
      assert all[..|all| - 1] == before;
    } else {
      var shorter := later[..|later| - 1];
      EndedStays(first, before, env, close, shorter);
      assert all[..|all| - 1] == before + [(env, close)] + shorter;
      StepSound(After(first, all[..|all| - 1]), all[|all| - 1].0, all[|all| - 1].1);
    }
  }

  // ---- The delays

  /** The delay after k losses: 500 ms grown by 1.8 each time, at most 15 s. */
  function Power(base: real, k: nat): real { if k == 0 then 1.0 else base * Power(base, k - 1) }

  function Delay(k: nat): real {
    if BACKOFF_START_MS * Power(BACKOFF_FACTOR, k) <= BACKOFF_MAX_MS then BACKOFF_START_MS * Power(BACKOFF_FACTOR, k)
    else BACKOFF_MAX_MS
  }

  lemma NextDelay(k: nat)
    ensures NextBackoff(Delay(k)) == Delay(k + 1)
  {
    var p := BACKOFF_START_MS * Power(BACKOFF_FACTOR, k);
    assert BACKOFF_START_MS * Power(BACKOFF_FACTOR, k + 1) == p * BACKOFF_FACTOR;
  }

  /** The socket in use opened in this event. */
  predicate Opens(l: Link, ev: Event) { ev.OnOpen? && l.wire.ws == Some(ev.sock) }

  /** A message in its place: the log goes on, or the page asks for a gap, or the number is not the next one. */
  predicate OrderedGaps(last: Option<int>, handed: seq<Handed>, env: Env, m: Message) {
    if last.Some? && m.num <= last.value then false
    else if last.Some? && m.num != last.value + 1 then true
    else env.asks(handed + [HEntry(m)])
  }

  /** Some message held behind a snapshot makes a gap, those before it applied. */
  predicate HeldGaps(last: Option<int>, handed: seq<Handed>, env: Env, held: seq<Message>)
    decreases |held|
  {
    held != [] &&
    if OrderedGaps(last, handed, env, held[0]) then true
    else if last.Some? && held[0].num <= last.value then HeldGaps(last, handed, env, held[1..])
    else HeldGaps(Some(held[0].num), handed + [HEntry(held[0])], env, held[1..])
  }

  /** The frame makes the link leave its socket. */
  predicate FrameGaps(l: Link, env: Env, f: Frame) {
    match f
    case Welcome(epoch, _) => env.asks(l.log.handed + [HWelcome(epoch)])
    case Snapshot(p) =>
      p.part == p.parts &&
      var ps := l.wire.parts.GetOr(Parts([], []));
      var handed := l.log.handed + [HSnapshot(p.num, JoinTurns(ps.list + [p]))];
      env.asks(handed) || HeldGaps(p.num, handed, env, ps.held)
    case Numbered(m) => l.wire.parts.None? && OrderedGaps(l.log.lastSeq, l.log.handed, env, m)
    case Plain(body) => env.asks(l.log.handed + [HPlain(body)])
    case Garbage => false
  }

  /**
    The event counts as one more loss: the socket was lost, or left for a new one that could
    not be made. A 4503, a 4429 and the four final codes are not losses of this kind.
  */
  predicate CountsAsLoss(l: Link, env: Env, ev: Event) {
    match ev
    case OnClose(sock, code, _) => l.wire.ws == Some(sock) && !NoRetry(code) && code != 4503 && code != 4429
    case OnSilence => l.timers.silence && l.wire.ws.Some?
    case OnRetryTimer => l.timers.retry.Some? && env.throws
    case CallRetryNow => CanRetryNow(l) && env.throws
    case CallGap => l.wire.ws.Some? && env.throws
    case OnFrame(sock, f) => l.wire.ws == Some(sock) && env.throws && FrameGaps(l, env, f)
    case _ => false
  }

  /** Losses since the socket last opened (or since the start). */
  function Losses(first: Env, run: seq<(Env, Event)>): nat
    decreases |run|
  {
    if run == [] then (if first.throws then 1 else 0)
    else
      var before := run[..|run| - 1];
      var (env, ev) := run[|run| - 1];
      var l := After(first, before);
      if Opens(l, ev) then 0
      else if CountsAsLoss(l, env, ev) then Losses(first, before) + 1
      else Losses(first, before)
  }

  /** What a frame may do to the delay: if it cost the socket and no new one could be made, the next delay runs. */
  predicate DelayKept(l: Link, l': Link) {
    if l'.wire.ws.None? && l.wire.ws.Some? then
      l'.loss.backoff == NextBackoff(l.loss.backoff) && l'.timers.retry == Some(l'.loss.backoff)
    else l'.loss.backoff == l.loss.backoff
  }

  lemma GapDelay(l: Link, env: Env)
    requires Running(l)
    ensures DelayKept(l, Gap(l, env))
    ensures l.wire.ws.None? ==> Gap(l, env) == l
  {
  }

  lemma HandDelay(l: Link, env: Env, h: Handed)
    requires Running(l)
    ensures DelayKept(l, Hand(l, env, h))
  {
    GapDelay(l.(log := l.log.(handed := l.log.handed + [h])), env);
  }

  lemma DrawDelay(l: Link, env: Env, num: Option<int>, turns: seq<Turn>)
    requires Running(l)
    ensures DelayKept(l, Draw(l, env, num, turns))
  {
    HandDelay(l.(wire := l.wire.(parts := None), log := l.log.(lastSeq := num)), env, HSnapshot(num, turns));
  }

  lemma OrderedDelay(l: Link, env: Env, m: Message)
    requires Running(l)
    ensures DelayKept(l, Ordered(l, env, m))
  {
    GapDelay(l, env);
    HandDelay(l.(log := l.log.(lastSeq := Some(m.num))), env, HEntry(m));
  }

  lemma {:induction false} ReleaseDelay(l: Link, env: Env, held: seq<Message>, sock: Sock)
    requires Running(l) && Sound(l)
    ensures DelayKept(l, Release(l, env, held, sock))
    ensures l.wire.ws.None? ==> Release(l, env, held, sock) == l
    decreases |held|
  {
    if held != [] {
      if l.wire.ws == Some(sock) {
        OrderedDelay(l, env, held[0]);
        OrderedRuns(l, env, held[0]);
        ReleaseDelay(Ordered(l, env, held[0]), env, held[1..], sock);
      } else {
        ReleaseDelay(l, env, held[1..], sock);
      }
    }
  }

  lemma ReceiveDelay(l: Link, env: Env, f: Frame, sock: Sock)
    requires Running(l) && Sound(l) && l.wire.ws == Some(sock)
    ensures DelayKept(l, Receive(l, env, f, sock))
  {
    match f
    case Snapshot(p) =>
      var ps := l.wire.parts.GetOr(Parts([], []));
      var list := ps.list + [p];
      if p.part == p.parts {
        DrawRuns(l, env, p.num, JoinTurns(list));
        DrawDelay(l, env, p.num, JoinTurns(list));
        ReleaseDelay(Draw(l, env, p.num, JoinTurns(list)), env, ps.held, sock);
      }
    case Welcome(epoch, replay) => HandDelay(Greet(l, epoch), env, HWelcome(epoch));
    case Numbered(m) => OrderedDelay(l, env, m);
    case Plain(body) => HandDelay(l, env, HPlain(body));
    case Garbage =>
  }

  /** Where a link is after leaving its socket: on the next one, or on none when none could be made. */
  function NextSock(l: Link, env: Env): Option<Sock> { if env.throws then None else Some(l.wire.made) }

  lemma GapLeaves(l: Link, env: Env)
    requires Running(l) && l.wire.ws.Some?
    ensures Gap(l, env).wire.ws == NextSock(l, env)
  {
  }

  lemma HandLeaves(l: Link, env: Env, h: Handed)
    requires Running(l) && l.wire.ws.Some?
    ensures var l' := Hand(l, env, h);
            if env.asks(l.log.handed + [h]) then l'.wire.ws == NextSock(l, env)
            else l' == l.(log := l.log.(handed := l.log.handed + [h]))
  {
    GapLeaves(l.(log := l.log.(handed := l.log.handed + [h])), env);
  }

  lemma OrderedLeaves(l: Link, env: Env, m: Message)
    requires Running(l) && l.wire.ws.Some?
    ensures var l' := Ordered(l, env, m);
            if OrderedGaps(l.log.lastSeq, l.log.handed, env, m) then l'.wire.ws == NextSock(l, env)
            else l' == (if l.log.lastSeq.Some? && m.num <= l.log.lastSeq.value then l
                        else l.(log := l.log.(lastSeq := Some(m.num), handed := l.log.handed + [HEntry(m)])))
  {
    GapLeaves(l, env);
    HandLeaves(l.(log := l.log.(lastSeq := Some(m.num))), env, HEntry(m));
  }

  lemma {:induction false} ReleaseLeft(l: Link, env: Env, held: seq<Message>, sock: Sock)
    requires l.wire.ws != Some(sock)
    ensures Release(l, env, held, sock) == l
    decreases |held|
  {
    if held != [] { ReleaseLeft(l, env, held[1..], sock); }
  }

  lemma {:induction false} ReleaseLeaves(l: Link, env: Env, held: seq<Message>, sock: Sock)
    requires Running(l) && l.wire.ws == Some(sock) && sock < l.wire.made
    ensures Release(l, env, held, sock).wire.ws ==
            if HeldGaps(l.log.lastSeq, l.log.handed, env, held) then NextSock(l, env) else Some(sock)
    decreases |held|
  {
    if held != [] {
      hide Ordered;
      OrderedLeaves(l, env, held[0]);
      if OrderedGaps(l.log.lastSeq, l.log.handed, env, held[0]) {
        ReleaseLeft(Ordered(l, env, held[0]), env, held[1..], sock);
      } else {
        ReleaseLeaves(Ordered(l, env, held[0]), env, held[1..], sock);
      }
    }
  }

  lemma BackStays(l: Link)
    ensures Back(l).wire == l.wire && Back(l).log == l.log && (Running(l) ==> Running(Back(l)))
  {
  }

  lemma SnapshotLeaves(l: Link, env: Env, p: SnapPart, sock: Sock)
    requires Running(l) && l.wire.ws == Some(sock) && sock < l.wire.made && p.part == p.parts
    ensures ReceiveSnapshot(l, env, p, sock).wire.ws == if FrameGaps(l, env, Snapshot(p)) then NextSock(l, env) else Some(sock)
  {
    hide Hand, HeldGaps, Release, Back;
    var ps := l.wire.parts.GetOr(Parts([], []));
    var turns := JoinTurns(ps.list + [p]);
    var l1 := l.(wire := l.wire.(parts := None), log := l.log.(lastSeq := p.num));
    HandLeaves(l1, env, HSnapshot(p.num, turns));
    var l2 := Hand(l1, env, HSnapshot(p.num, turns));
    var l3 := l2.(log := l2.log.(drawn := true), timers := l2.timers.(snapshot := false));
    BackStays(l3);
    if env.asks(l.log.handed + [HSnapshot(p.num, turns)]) {
      ReleaseLeft(Back(l3), env, ps.held, sock);
    } else {
      ReleaseLeaves(Back(l3), env, ps.held, sock);
    }
  }

  /** A frame of the current socket makes the link leave it exactly when it gaps. */
  lemma FrameLeaves(l: Link, env: Env, f: Frame, sock: Sock)
    requires Running(l) && l.wire.ws == Some(sock) && sock < l.wire.made
    ensures Receive(l, env, f, sock).wire.ws == if FrameGaps(l, env, f) then NextSock(l, env) else Some(sock)
  {
    hide Hand, Ordered, HeldGaps, Back;
    match f
    case Snapshot(p) => if p.part == p.parts { SnapshotLeaves(l, env, p, sock); }
    case Welcome(epoch, replay) =>
      HandLeaves(Greet(l, epoch), env, HWelcome(epoch));
      BackStays(Hand(Greet(l, epoch), env, HWelcome(epoch)));
    case Numbered(m) => OrderedLeaves(l, env, m);
    case Plain(body) => HandLeaves(l, env, HPlain(body));
    case Garbage =>
  }

  /** One event: a loss takes the next delay and waits exactly that long; an open resets it; nothing else moves it. */
  lemma StepDelay(l: Link, env: Env, ev: Event)
    requires Sound(l)
    ensures var l' := Step(l, env, ev);
            if Opens(l, ev) then l'.loss.backoff == BACKOFF_START_MS
            else if CountsAsLoss(l, env, ev) then
              l'.loss.backoff == NextBackoff(l.loss.backoff) && l'.timers.retry == Some(l'.loss.backoff)
            else l'.loss.backoff == l.loss.backoff
  {
    hide Receive, HeldGaps, OrderedGaps;
    match ev
    case OnFrame(sock, f) =>
      if l.wire.ws == Some(sock) {
        ReceiveDelay(Heard(l), env, f, sock);
        FrameLeaves(Heard(l), env, f, sock);
      }
    case CallGap => if Running(l) { GapDelay(l, env); }
    case _ =>
  }

  /** The k-th loss in a row waits min(500 * 1.8^k, 15000) ms; 4503, 4429 and RETRY NOW leave the series where it is. */
  lemma {:induction false} BackoffSeries(first: Env, run: seq<(Env, Event)>)
    ensures After(first, run).loss.backoff == Delay(Losses(first, run))
    ensures var ms := 500.0 * Power(1.8, Losses(first, run)); Delay(Losses(first, run)) == if ms <= 15000.0 then ms else 15000.0
    decreases |run|
  {
    if run == [] {
      NextDelay(0);
      assert Power(BACKOFF_FACTOR, 0) == 1.0;
    } else {
      var before := run[..|run| - 1];
      var (env, ev) := run[|run| - 1];
      BackoffSeries(first, before);
      NeverWedged(first, before);
      StepDelay(After(first, before), env, ev);
      NextDelay(Losses(first, before));
      assert Power(BACKOFF_FACTOR, 0) == 1.0;
    }
  }
}
