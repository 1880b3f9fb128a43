/**
  What the page sees of its link (public/js/cockpit/link.js): when the status changes and to
  what, what every timer is for, what the hello asks, and that a link that is back reads `live`.
*/
module LinkShown {
  import opened Options
  import opened LinkSpec
  import opened LinkSafety

  /** The event is a frame of the current socket. */
  predicate Hears(l: Link, ev: Event) { ev.OnFrame? && l.wire.ws == Some(ev.sock) }

  /** The event is the close of the current socket. */
  predicate Closes(l: Link, ev: Event) { ev.OnClose? && l.wire.ws == Some(ev.sock) }

  // ---- The status

  /** A replay on a page that drew before, or a snapshot's last part. */
  predicate ComesBack(l: Link, ev: Event) {
    Hears(l, ev) && ((ev.f.Welcome? && ev.f.replay && l.log.drawn) || (ev.f.Snapshot? && ev.f.p.part == ev.f.p.parts))
  }

  /** The room is known to be gone: the grace is over, no snapshot came in time, or the room said so in closing. */
  predicate GoesDown(l: Link, ev: Event) {
    || (ev.OnGraceTimer? && l.timers.grace.Some?)
    || (ev.OnSnapshotWait? && l.timers.snapshot && !l.log.drawn && l.shown.status == Connecting)
    || (Closes(l, ev) && (ev.code == 4503 || ((ev.code == 4002 || ev.code == 4403) && ev.reason != "insecure-origin")))
  }

  /** The page is not paired, or not allowed to be. */
  predicate GoesUnpaired(l: Link, ev: Event) {
    Closes(l, ev) && (ev.code == 4401 || ev.code == 4402 || ((ev.code == 4002 || ev.code == 4403) && ev.reason == "insecure-origin"))
  }

  lemma GapShows(l: Link, env: Env)
    ensures Gap(l, env).shown.status == l.shown.status && Gap(l, env).shown.since == l.shown.since && Gap(l, env).log.drawn == l.log.drawn
    ensures Gap(l, env).shown.refused == l.shown.refused && Gap(l, env).timers.snapshot == l.timers.snapshot
    ensures Gap(l, env).timers.silence == l.timers.silence
  {
  }

  lemma HandShows(l: Link, env: Env, h: Handed)
    ensures var l' := Hand(l, env, h);
            && l'.shown.status == l.shown.status && l'.shown.since == l.shown.since && l'.log.drawn == l.log.drawn
            && l'.shown.refused == l.shown.refused && l'.timers.snapshot == l.timers.snapshot && l'.timers.silence == l.timers.silence
  {
    GapShows(l.(log := l.log.(handed := l.log.handed + [h])), env);
  }

  lemma OrderedShows(l: Link, env: Env, m: Message)
    ensures var l' := Ordered(l, env, m);
            && l'.shown.status == l.shown.status && l'.shown.since == l.shown.since && l'.log.drawn == l.log.drawn
            && l'.shown.refused == l.shown.refused && l'.timers.snapshot == l.timers.snapshot && l'.timers.silence == l.timers.silence
  {
    GapShows(l, env);
    HandShows(l.(log := l.log.(lastSeq := Some(m.num))), env, HEntry(m));
  }

  lemma {:induction false} ReleaseShows(l: Link, env: Env, held: seq<Message>, sock: Sock)
    ensures var l' := Release(l, env, held, sock);
            && l'.shown.status == l.shown.status && l'.shown.since == l.shown.since && l'.log.drawn == l.log.drawn
            && l'.shown.refused == l.shown.refused && l'.timers.snapshot == l.timers.snapshot && l'.timers.silence == l.timers.silence
    decreases |held|
  {
    if held != [] {
      OrderedShows(l, env, held[0]);
      ReleaseShows(if l.wire.ws == Some(sock) then Ordered(l, env, held[0]) else l, env, held[1..], sock);
    }
  }

  lemma FrameShows(l: Link, env: Env, f: Frame, sock: Sock)
    requires l.wire.ws == Some(sock)
    ensures var l' := Receive(l, env, f, sock);
            var back := ComesBack(l, OnFrame(sock, f));
            && l'.shown.status == (if back then Live else l.shown.status)
            && l'.shown.since == (if back && l.shown.status != Live then None else l.shown.since)
            && l'.log.drawn == (l.log.drawn || (f.Snapshot? && f.p.part == f.p.parts))
            && l'.shown.refused == (if f.Welcome? then None else l.shown.refused)
            && l'.timers.snapshot == (l.timers.snapshot && !(f.Snapshot? && f.p.part == f.p.parts))
            && l'.timers.silence == l.timers.silence
  {
    hide Gap, Ordered, Release;
    match f
    case Welcome(epoch, replay) => HandShows(Greet(l, epoch), env, HWelcome(epoch));
    case Snapshot(p) =>
      var ps := l.wire.parts.GetOr(Parts([], []));
      var turns := JoinTurns(ps.list + [p]);
      HandShows(l.(wire := l.wire.(parts := None), log := l.log.(lastSeq := p.num)), env, HSnapshot(p.num, turns));
      ReleaseShows(Draw(l, env, p.num, turns), env, ps.held, sock);
    case Numbered(m) => OrderedShows(l, env, m);
    case Plain(body) => HandShows(l, env, HPlain(body));
    case Garbage =>
  }

  /**
    The status, event by event: `live` exactly on what brings the link back, `room-down` exactly on what shows the room
    gone, `unpaired` exactly on such a close; every other event leaves it.
  */
  lemma StatusLaw(l: Link, env: Env, ev: Event)
    ensures Step(l, env, ev).shown.status ==
            if ComesBack(l, ev) then Live else if GoesDown(l, ev) then RoomDown else if GoesUnpaired(l, ev) then Unpaired else l.shown.status
  {
    hide Receive, Release, Hand, Ordered;
    if Hears(l, ev) { FrameShows(Heard(l), env, ev.f, ev.sock); }
    if ev.CallGap? { GapShows(l, env); }
  }

  /** A snapshot was drawn exactly once some last part came. */
  lemma DrawnLaw(l: Link, env: Env, ev: Event)
    ensures Step(l, env, ev).log.drawn <==> l.log.drawn || (Hears(l, ev) && ev.f.Snapshot? && ev.f.p.part == ev.f.p.parts)
  {
    hide Receive, Release, Hand, Ordered;
    if Hears(l, ev) { FrameShows(Heard(l), env, ev.f, ev.sock); }
    if ev.CallGap? { GapShows(l, env); }
  }

  /** The date of a loss: when it began, or for a page that never drew when it was loaded. */
  function DateOf(l: Link, lossAt: real): Option<real> {
    if l.log.drawn || l.loss.loadAt == None then Some(lossAt) else l.loss.loadAt
  }

  /** What `since` says: nothing once the link is back, else when the shown loss began. */
  lemma SinceLaw(l: Link, env: Env, ev: Event)
    ensures Step(l, env, ev).shown.since ==
            if ComesBack(l, ev) then (if l.shown.status == Live then l.shown.since else None)
            else if ev.OnGraceTimer? && l.timers.grace.Some? then l.timers.grace
            else if Closes(l, ev) && ev.code == 4503 then DateOf(l, l.loss.lossAt.GetOr(env.now))
            else if GoesUnpaired(l, ev) then None
            else if GoesDown(l, ev) then (if ev.OnClose? then Some(env.now) else l.loss.loadAt)
            else l.shown.since
  {
    hide Receive, Release, Hand, Ordered;
    if Hears(l, ev) { FrameShows(Heard(l), env, ev.f, ev.sock); }
    if ev.CallGap? { GapShows(l, env); }
  }

  /** The refusal shown: the last close that gave one, until a welcome. */
  lemma RefusedLaw(l: Link, env: Env, ev: Event)
    ensures Step(l, env, ev).shown.refused ==
            if Closes(l, ev) && ev.code in {4002, 4401, 4402, 4403, 4503} then Some(Refusal(ev.code, ev.reason))
            else if Hears(l, ev) && ev.f.Welcome? then None
            else l.shown.refused
  {
    hide Receive, Release, Hand, Ordered;
    if Hears(l, ev) { FrameShows(Heard(l), env, ev.f, ev.sock); }
    if ev.CallGap? { GapShows(l, env); }
  }

  // ---- The timers

  /** Silence is counted from the socket's opening and every frame of it, until it fires, the socket closes or the page stops. */
  lemma SilenceLaw(l: Link, env: Env, ev: Event)
    ensures Step(l, env, ev).timers.silence ==
            if Opens(l, ev) || Hears(l, ev) then true
            else l.timers.silence && !ev.OnSilence? && !Closes(l, ev) && !ev.CallStop?
  {
    hide Receive, Release, Hand, Ordered;
    if Hears(l, ev) { FrameShows(Heard(l), env, ev.f, ev.sock); }
    if ev.CallGap? { GapShows(l, env); }
  }

  /** The wait for the first snapshot runs until a snapshot is drawn, it fires, the link is refused for good or stops. */
  lemma SnapshotWaitLaw(l: Link, env: Env, ev: Event)
    ensures Step(l, env, ev).timers.snapshot ==
            (l.timers.snapshot && !ev.OnSnapshotWait? && !ev.CallStop? && !(Closes(l, ev) && ev.code in {4002, 4401, 4402, 4403})
             && !(Hears(l, ev) && ev.f.Snapshot? && ev.f.p.part == ev.f.p.parts))
  {
    hide Receive, Release, Hand, Ordered;
    if Hears(l, ev) { FrameShows(Heard(l), env, ev.f, ev.sock); }
    if ev.CallGap? { GapShows(l, env); }
  }

  /** A try is shown only while one is pending, and as being tried only on a socket. */
  ghost predicate ShowsTry(l: Link) { Running(l) ==> (l.shown.retryAt.Some? ==> l.timers.retry.Some?) && (l.shown.trying ==> l.wire.ws.Some?) }

  lemma OpenShowsTry(l: Link, env: Env, delay: Option<real>)
    requires !l.stopped && !Ended(l) && l.wire.ws.None?
    ensures ShowsTry(Open(l, env, delay))
    ensures !env.throws ==> Open(l, env, delay).shown.trying == delay.Some?
  {
  }

  lemma GapShowsTry(l: Link, env: Env)
    requires Running(l) && ShowsTry(l)
    ensures Running(Gap(l, env)) && ShowsTry(Gap(l, env))
  {
    if l.wire.ws.Some? { OpenShowsTry(l.(log := l.log.(epoch := None, lastSeq := None), wire := l.wire.(ws := None)), env, None); }
  }

  lemma HandShowsTry(l: Link, env: Env, h: Handed)
    requires Running(l) && ShowsTry(l)
    ensures Running(Hand(l, env, h)) && ShowsTry(Hand(l, env, h))
  {
    GapShowsTry(l.(log := l.log.(handed := l.log.handed + [h])), env);
  }

  lemma OrderedShowsTry(l: Link, env: Env, m: Message)
    requires Running(l) && ShowsTry(l)
    ensures Running(Ordered(l, env, m)) && ShowsTry(Ordered(l, env, m))
  {
    GapShowsTry(l, env);
    HandShowsTry(l.(log := l.log.(lastSeq := Some(m.num))), env, HEntry(m));
  }

  lemma {:induction false} ReleaseShowsTry(l: Link, env: Env, held: seq<Message>, sock: Sock)
    requires Running(l) && ShowsTry(l)
    ensures Running(Release(l, env, held, sock)) && ShowsTry(Release(l, env, held, sock))
    decreases |held|
  {
    if held != [] {
      OrderedShowsTry(l, env, held[0]);
      ReleaseShowsTry(if l.wire.ws == Some(sock) then Ordered(l, env, held[0]) else l, env, held[1..], sock);
    }
  }

  /** After a loss the next try is pending and shown, in exactly its delay; 4503 and 4429 have delays of their own. */
  lemma RetryDelays(l: Link, env: Env, ev: Event)
    requires Sound(l)
    ensures Closes(l, ev) && ev.code in {4503, 4429} ==>
              var l' := Step(l, env, ev);
              l'.timers.retry == Some(30000.0) && l'.shown.retryAt == Some(env.now + 30000.0) && !l'.shown.trying && l'.wire.ws.None?
    ensures CountsAsLoss(l, env, ev) && !ev.OnFrame? ==>
              var l' := Step(l, env, ev);
              l'.timers.retry.Some? && l'.shown.retryAt == Some(env.now + l'.timers.retry.value) && !l'.shown.trying && l'.wire.ws.None?
  {
    hide Receive, Release, Hand, Ordered;
  }

  /** A pending try that comes due, or is taken at once, opens the next socket and is shown as being tried. */
  lemma TriesAgain(l: Link, env: Env, ev: Event)
    requires Sound(l) && !env.throws && ((ev.OnRetryTimer? && l.timers.retry.Some?) || (ev.CallRetryNow? && CanRetryNow(l)))
    ensures var l' := Step(l, env, ev);
            l'.wire.ws == Some(l.wire.made) && l'.shown.trying && l'.shown.retryAt == None && l'.timers.retry == None && !l'.wire.welcomed
  {
  }

  /** RETRY NOW acts exactly when no socket is there, a try is pending, and the room did not refuse for good. */
  lemma RetryNowLaw(l: Link, env: Env)
    ensures Step(l, env, CallRetryNow) != l ==>
              l.wire.ws.None? && l.timers.retry.Some?
              && (l.shown.refused.Some? ==> l.shown.refused.value.code !in {4002, 4401, 4402, 4403})
    ensures Sound(l) && !l.stopped && l.wire.ws.None? && l.timers.retry.Some? && !env.throws
            && (l.shown.refused.Some? ==> l.shown.refused.value.code !in {4002, 4401, 4402, 4403}) ==>
              Step(l, env, CallRetryNow).wire.ws.Some?
  {
  }

  lemma {:induction false} RunShowsTry(first: Env, run: seq<(Env, Event)>)
    ensures ShowsTry(After(first, run))
    decreases |run|
  {
    if run == [] {
      OpenShowsTry(Fresh.(loss := Fresh.loss.(loadAt := Some(first.now)), timers := Fresh.timers.(snapshot := true)), first, None);
    } else {
      hide Receive, After, Sound;
      var before := run[..|run| - 1];
      var (env, ev) := run[|run| - 1];
      RunShowsTry(first, before);
      NeverWedged(first, before);
      NeverWedged(first, run);
      StepShowsTry(After(first, before), env, ev);
      OneAfter(first, run);
    }
  }

  lemma OneAfter(first: Env, run: seq<(Env, Event)>)
    requires run != []
    ensures After(first, run) == Step(After(first, run[..|run| - 1]), run[|run| - 1].0, run[|run| - 1].1)
  {
  }

  lemma StepShowsTry(l: Link, env: Env, ev: Event)
    requires Sound(l) && ShowsTry(l)
    ensures ShowsTry(Step(l, env, ev))
  {
    hide Receive, Release, Hand, Ordered, Gap;
    if Running(l) {
      if Hears(l, ev) { ReceiveShowsTry(Heard(l), env, ev.f, ev.sock); }
      if ev.CallGap? { GapShowsTry(l, env); }
    } else if ev.CallGap? {
      GapStarts(l, env);
    }
  }

  lemma ReceiveShowsTry(l: Link, env: Env, f: Frame, sock: Sock)
    requires Running(l) && ShowsTry(l) && l.wire.ws == Some(sock)
    ensures ShowsTry(Receive(l, env, f, sock))
  {
    hide Hand, Ordered, Release, Gap;
    match f
    case Welcome(epoch, replay) => HandShowsTry(Greet(l, epoch), env, HWelcome(epoch));
    case Snapshot(p) =>
      var ps := l.wire.parts.GetOr(Parts([], []));
      var turns := JoinTurns(ps.list + [p]);
      var l1 := l.(wire := l.wire.(parts := None), log := l.log.(lastSeq := p.num));
      HandShowsTry(l1, env, HSnapshot(p.num, turns));
      if p.part == p.parts { BackShowsTry(Hand(l1, env, HSnapshot(p.num, turns))); ReleaseShowsTry(Draw(l, env, p.num, turns), env, ps.held, sock); }
    case Numbered(m) => OrderedShowsTry(l, env, m);
    case Plain(body) => HandShowsTry(l, env, HPlain(body));
    case Garbage =>
  }

  lemma BackShowsTry(l: Link)
    requires Running(l) && ShowsTry(l)
    ensures var l1 := l.(log := l.log.(drawn := true), timers := l.timers.(snapshot := false)); Running(Back(l1)) && ShowsTry(Back(l1))
  {
  }

  // ---- What goes out and what is handed on

  /** On opening, the link says hello with its next number and asks for what it lacks: exactly when it has an epoch and a number. */
  lemma HelloLaw(l: Link, env: Env, ev: Event)
    requires Opens(l, ev)
    ensures var l' := Step(l, env, ev);
            && l'.wire.sent == l.wire.sent + [Hello(l.wire.outSeq + 1,
                 if l.log.epoch.Some? && l.log.lastSeq.Some? then Some((l.log.epoch.value, l.log.lastSeq.value)) else None)]
            && l'.log == l.log && l'.shown == l.shown
  {
  }

  /** A screen message is written exactly on a welcomed socket that is open and takes it. */
  lemma SendLaw(l: Link, env: Env, body: string, ready: bool, fails: bool)
    ensures Step(l, env, CallSend(body, ready, fails)).wire.sent ==
            if l.wire.ws.Some? && l.wire.welcomed && ready && !fails then l.wire.sent + [Screen(l.wire.outSeq + 1, body)] else l.wire.sent
  {
  }

  lemma GapStarts(l: Link, env: Env)
    ensures l.wire.ws.Some? && !l.stopped ==> !Gap(l, env).wire.welcomed
    ensures l.wire.ws == None ==> Gap(l, env) == l
  {
  }

  /** An event that leaves the current socket, or tries for another one. */
  predicate Moves(l: Link, env: Env, ev: Event) {
    || (ev.OnRetryTimer? && l.timers.retry.Some?)
    || (ev.CallRetryNow? && CanRetryNow(l))
    || (ev.CallGap? && l.wire.ws.Some?)
    || (Hears(l, ev) && FrameGaps(l, env, ev.f))
  }

  lemma HandWelcomed(l: Link, env: Env, h: Handed)
    requires Running(l) && l.wire.ws.Some?
    ensures Hand(l, env, h).wire.welcomed == (l.wire.welcomed && !env.asks(l.log.handed + [h]))
    ensures env.asks(l.log.handed + [h]) || Hand(l, env, h) == l.(log := l.log.(handed := l.log.handed + [h]))
    ensures l.log.handed + [h] == Hand(l, env, h).log.handed
  {
    GapStarts(l.(log := l.log.(handed := l.log.handed + [h])), env);
  }

  lemma OrderedWelcomed(l: Link, env: Env, m: Message)
    requires Running(l) && l.wire.ws.Some?
    ensures Ordered(l, env, m).wire.welcomed == (l.wire.welcomed && !OrderedGaps(l.log.lastSeq, l.log.handed, env, m))
  {
    GapStarts(l, env);
    HandWelcomed(l.(log := l.log.(lastSeq := Some(m.num))), env, HEntry(m));
  }

  lemma {:induction false} ReleaseWelcomed(l: Link, env: Env, held: seq<Message>, sock: Sock)
    requires Running(l) && l.wire.ws == Some(sock) && sock < l.wire.made
    ensures Release(l, env, held, sock).wire.welcomed == (l.wire.welcomed && !HeldGaps(l.log.lastSeq, l.log.handed, env, held))
    decreases |held|
  {
    if held != [] {
      hide Ordered;
      OrderedWelcomed(l, env, held[0]);
      OrderedLeaves(l, env, held[0]);
      if OrderedGaps(l.log.lastSeq, l.log.handed, env, held[0]) {
        ReleaseLeft(Ordered(l, env, held[0]), env, held[1..], sock);
      } else {
        ReleaseWelcomed(Ordered(l, env, held[0]), env, held[1..], sock);
      }
    }
  }

  lemma SnapshotWelcomed(l: Link, env: Env, p: SnapPart, sock: Sock)
    requires Running(l) && l.wire.ws == Some(sock) && sock < l.wire.made && p.part == p.parts
    ensures ReceiveSnapshot(l, env, p, sock).wire.welcomed == (l.wire.welcomed && !FrameGaps(l, env, Snapshot(p)))
  {
    hide Hand, HeldGaps, Release, Back;
    var ps := l.wire.parts.GetOr(Parts([], []));
    var turns := JoinTurns(ps.list + [p]);
    var l1 := l.(wire := l.wire.(parts := None), log := l.log.(lastSeq := p.num));
    HandWelcomed(l1, env, HSnapshot(p.num, turns));
    HandLeaves(l1, env, HSnapshot(p.num, turns));
    var l2 := Hand(l1, env, HSnapshot(p.num, turns));
    var l3 := l2.(log := l2.log.(drawn := true), timers := l2.timers.(snapshot := false));
    BackStays(l3);
    if env.asks(l.log.handed + [HSnapshot(p.num, turns)]) {
      ReleaseLeft(Back(l3), env, ps.held, sock);
    } else {
      ReleaseWelcomed(Back(l3), env, ps.held, sock);
    }
  }

  /** A socket is welcomed from its welcome until the link leaves it or tries for another. */
  lemma WelcomedLaw(l: Link, env: Env, ev: Event)
    requires Sound(l)
    ensures Step(l, env, ev).wire.welcomed == (!Moves(l, env, ev) && (l.wire.welcomed || (Hears(l, ev) && ev.f.Welcome?)))
  {
    hide Hand, Ordered, Release, HeldGaps, OrderedGaps;
    if Hears(l, ev) {
      var h := Heard(l);
      match ev.f
      case Welcome(epoch, replay) => HandWelcomed(Greet(h, epoch), env, HWelcome(epoch));
      case Snapshot(p) => if p.part == p.parts { SnapshotWelcomed(h, env, p, ev.sock); }
      case Numbered(m) => OrderedWelcomed(h, env, m);
      case Plain(body) => HandWelcomed(h, env, HPlain(body));
      case Garbage =>
    }
    if ev.CallGap? { GapStarts(l, env); }
  }

  /** What has no number is handed on as it comes; what does not parse, parts before the last, and everything else hand nothing on. */
  lemma HandedLaw(l: Link, env: Env, ev: Event)
    requires Sound(l)
    ensures Hears(l, ev) && ev.f.Plain? ==> Step(l, env, ev).log.handed == l.log.handed + [HPlain(ev.f.body)]
    ensures Hears(l, ev) && ev.f.Welcome? ==> Step(l, env, ev).log.handed == l.log.handed + [HWelcome(ev.f.epoch)]
    ensures !Hears(l, ev) || ev.f.Garbage? || (ev.f.Snapshot? && ev.f.p.part != ev.f.p.parts) || (ev.f.Numbered? && l.wire.parts.Some?) ==>
              Step(l, env, ev).log.handed == l.log.handed
  {
    hide Ordered, Release;
  }

  // ---- When a loss began, and the grace before it shows

  /** The date and the grace of a loss, marked at its first moment unless it runs already. */
  function Marked(loss: Loss, grace: Option<real>, status: Status, drawn: bool, now: real): (Option<real>, Option<real>) {
    if loss.lossAt.Some? then (loss.lossAt, grace)
    else (Some(now), if status == RoomDown || grace.Some? then grace else if drawn || loss.loadAt.None? then Some(now) else loss.loadAt)
  }

  /** The loss of l' is that of l, marked when the link was lost in between. */
  predicate LossAfter(l: Link, l': Link, env: Env, lost: bool) {
    (l'.loss.lossAt, l'.timers.grace) ==
    if lost then Marked(l.loss, l.timers.grace, l.shown.status, l.log.drawn, env.now) else (l.loss.lossAt, l.timers.grace)
  }

  predicate SameLoss(l: Link, l': Link) {
    l'.loss == l.loss && l'.timers.grace == l.timers.grace && l'.shown.status == l.shown.status && l'.log.drawn == l.log.drawn
  }

  lemma GapLoss(l: Link, env: Env)
    requires Running(l) && l.wire.ws.Some?
    ensures LossAfter(l, Gap(l, env), env, env.throws)
  {
  }

  lemma HandLoss(l: Link, env: Env, h: Handed)
    requires Running(l) && l.wire.ws.Some?
    ensures LossAfter(l, Hand(l, env, h), env, env.throws && env.asks(l.log.handed + [h]))
  {
    GapLoss(l.(log := l.log.(handed := l.log.handed + [h])), env);
  }

  lemma OrderedLoss(l: Link, env: Env, m: Message)
    requires Running(l) && l.wire.ws.Some?
    ensures LossAfter(l, Ordered(l, env, m), env, env.throws && OrderedGaps(l.log.lastSeq, l.log.handed, env, m))
  {
    GapLoss(l, env);
    HandLoss(l.(log := l.log.(lastSeq := Some(m.num))), env, HEntry(m));
  }

  lemma {:induction false} ReleaseLoss(l: Link, env: Env, held: seq<Message>, sock: Sock)
    requires Running(l) && l.wire.ws == Some(sock) && sock < l.wire.made
    ensures LossAfter(l, Release(l, env, held, sock), env, env.throws && HeldGaps(l.log.lastSeq, l.log.handed, env, held))
    decreases |held|
  {
    if held != [] {
      hide Ordered;
      OrderedLoss(l, env, held[0]);
      OrderedLeaves(l, env, held[0]);
      if OrderedGaps(l.log.lastSeq, l.log.handed, env, held[0]) {
        ReleaseLeft(Ordered(l, env, held[0]), env, held[1..], sock);
      } else {
        ReleaseLoss(Ordered(l, env, held[0]), env, held[1..], sock);
      }
    }
  }

  /** The state a frame's own loss is marked in: a welcome ends the old loss, a snapshot that is drawn is back already. */
  function Before(l: Link, env: Env, f: Frame): Link {
    match f
    case Welcome(_, _) => l.(loss := l.loss.(lossAt := None), timers := l.timers.(grace := None))
    case Snapshot(p) =>
      if p.part == p.parts && !env.asks(l.log.handed + [HSnapshot(p.num, JoinTurns(l.wire.parts.GetOr(Parts([], [])).list + [p]))])
      then l.(shown := l.shown.(status := Live), log := l.log.(drawn := true)) else l
    case _ => l
  }

  lemma SnapshotLoss(l: Link, env: Env, p: SnapPart, sock: Sock)
    requires Running(l) && l.wire.ws == Some(sock) && sock < l.wire.made && p.part == p.parts
    ensures LossAfter(Before(l, env, Snapshot(p)), ReceiveSnapshot(l, env, p, sock), env, env.throws && FrameGaps(l, env, Snapshot(p)))
  {
    hide Hand, HeldGaps, Release, Marked;
    var ps := l.wire.parts.GetOr(Parts([], []));
    var turns := JoinTurns(ps.list + [p]);
    var l1 := l.(wire := l.wire.(parts := None), log := l.log.(lastSeq := p.num));
    HandLoss(l1, env, HSnapshot(p.num, turns));
    HandLeaves(l1, env, HSnapshot(p.num, turns));
    var l2 := Hand(l1, env, HSnapshot(p.num, turns));
    var l3 := l2.(log := l2.log.(drawn := true), timers := l2.timers.(snapshot := false));
    BackStays(l3);
    if env.asks(l.log.handed + [HSnapshot(p.num, turns)]) {
      ReleaseLeft(Back(l3), env, ps.held, sock);
    } else {
      ReleaseLoss(Back(l3), env, ps.held, sock);
    }
  }

  lemma FrameLoss(l: Link, env: Env, f: Frame, sock: Sock)
    requires Running(l) && l.wire.ws == Some(sock) && sock < l.wire.made
    ensures LossAfter(Before(l, env, f), Receive(l, env, f, sock), env, env.throws && FrameGaps(l, env, f))
  {
    hide Hand, HeldGaps, OrderedGaps, Ordered, Release;
    match f
    case Welcome(epoch, replay) => HandLoss(Greet(l, epoch), env, HWelcome(epoch));
    case Snapshot(p) => if p.part == p.parts { SnapshotLoss(l, env, p, sock); }
    case Numbered(m) => OrderedLoss(l, env, m);
    case Plain(body) => HandLoss(l, env, HPlain(body));
    case Garbage =>
  }

  /**
    A loss has one date, its first moment, and one grace, started then unless the room reads down already; a welcome ends
    both, a refusal for good, a 4503 and stopping end the grace, and it fires once.
  */
  lemma LossLaw(l: Link, env: Env, ev: Event)
    requires Sound(l)
    ensures var l' := Step(l, env, ev);
            if Hears(l, ev) then LossAfter(Before(l, env, ev.f), l', env, CountsAsLoss(l, env, ev))
            else if CountsAsLoss(l, env, ev) || (Closes(l, ev) && ev.code == 4429) then LossAfter(l, l', env, true)
            else
              && l'.loss.lossAt == (if Closes(l, ev) && ev.code == 4503 then Some(l.loss.lossAt.GetOr(env.now)) else l.loss.lossAt)
              && l'.timers.grace == (if (Closes(l, ev) && ev.code in {4002, 4401, 4402, 4403, 4503}) || ev.OnGraceTimer? || ev.CallStop?
                                     then None else l.timers.grace)
  {
    hide Receive, FrameGaps;
    if Hears(l, ev) { FrameLoss(Heard(l), env, ev.f, ev.sock); SameGaps(l, env, ev.f); }
    if ev.CallGap? && l.wire.ws.Some? { GapLoss(l, env); }
  }

  lemma SameGaps(l: Link, env: Env, f: Frame)
    ensures FrameGaps(Heard(l), env, f) == FrameGaps(l, env, f)
  {
  }

  // ---- Back, and still back

  /** Once back, the link reads `live` through everything that happens while it keeps that socket. */
  lemma {:induction false} StaysLive(l: Link, run: seq<(Env, Event)>, sock: Sock)
    requires Sound(l) && l.wire.ws == Some(sock) && l.shown.status == Live && l.shown.since == None && l.timers.grace == None
    requires forall i :: 0 <= i <= |run| ==> Steps(l, run[..i]).wire.ws == Some(sock)
    ensures var l' := Steps(l, run); l'.shown.status == Live && l'.shown.since == None && l'.timers.grace == None && Sound(l')
    decreases |run|
  {
    if run != [] {
      hide Step, Sound;
      var n := |run| - 1;
      forall i | 0 <= i <= n ensures Steps(l, run[..n][..i]).wire.ws == Some(sock) { assert run[..n][..i] == run[..i]; }
      StaysLive(l, run[..n], sock);
      assert run[..n + 1] == run && Steps(l, run[..n]).wire.ws == Some(sock);
      StaysOne(Steps(l, run[..n]), run[n].0, run[n].1, sock);
    }
  }

  /** A link on its way through a run, from any state. */
  function Steps(l: Link, run: seq<(Env, Event)>): Link
    decreases |run|
  {
    if run == [] then l else Step(Steps(l, run[..|run| - 1]), run[|run| - 1].0, run[|run| - 1].1)
  }

  lemma StaysOne(l: Link, env: Env, ev: Event, sock: Sock)
    requires Sound(l) && l.wire.ws == Some(sock) && l.shown.status == Live && l.shown.since == None && l.timers.grace == None
    requires Step(l, env, ev).wire.ws == Some(sock)
    ensures var l' := Step(l, env, ev); l'.shown.status == Live && l'.shown.since == None && l'.timers.grace == None && Sound(l')
  {
    hide Step, Sound, Marked, FrameGaps;
    StepSound(l, env, ev);
    StatusLaw(l, env, ev);
    SinceLaw(l, env, ev);
    LossLaw(l, env, ev);
    KeepsSocket(l, env, ev, sock);
  }

  lemma KeepsSocket(l: Link, env: Env, ev: Event, sock: Sock)
    requires Sound(l) && l.wire.ws == Some(sock) && Step(l, env, ev).wire.ws == Some(sock)
    ensures !Closes(l, ev) && !CountsAsLoss(l, env, ev)
  {
    hide Receive, FrameGaps;
    if Hears(l, ev) { FrameLeaves(Heard(l), env, ev.f, sock); SameGaps(l, env, ev.f); }
  }

  /** Between events: `live` has no date, and on a welcomed socket no loss is running. */
  ghost predicate Settled(l: Link) {
    && (l.shown.status == Live ==> l.shown.since == None)
    && (l.wire.ws.Some? && l.wire.welcomed ==> l.loss.lossAt == None && l.timers.grace == None)
  }

  lemma StepSettled(l: Link, env: Env, ev: Event)
    requires Sound(l) && Settled(l)
    ensures Settled(Step(l, env, ev))
  {
    hide Step, Sound, FrameGaps, Moves, CountsAsLoss;
    StatusLaw(l, env, ev);
    SinceLaw(l, env, ev);
    WelcomedLaw(l, env, ev);
    var l' := Step(l, env, ev);
    if l'.wire.ws.Some? && l'.wire.welcomed {
      LossLaw(l, env, ev);
      StillThere(l, env, ev);
    }
  }

  /** A welcomed socket after an event was the socket before it, and is not lost. */
  lemma StillThere(l: Link, env: Env, ev: Event)
    requires Sound(l) && !Moves(l, env, ev) && Step(l, env, ev).wire.ws.Some?
    ensures !CountsAsLoss(l, env, ev) && !Closes(l, ev) && l.wire.ws == Step(l, env, ev).wire.ws
  {
    hide Receive, FrameGaps;
    if Hears(l, ev) { FrameLeaves(Heard(l), env, ev.f, ev.sock); SameGaps(l, env, ev.f); }
  }

  lemma {:induction false} RunSettled(first: Env, run: seq<(Env, Event)>)
    ensures Settled(After(first, run))
    decreases |run|
  {
    if run != [] {
      hide Step, Sound, Settled;
      var before := run[..|run| - 1];
      RunSettled(first, before);
      NeverWedged(first, before);
      OneAfter(first, run);
      StepSettled(After(first, before), run[|run| - 1].0, run[|run| - 1].1);
    }
  }

  /**
    In any run, what brings a link back on its socket, a replay's welcome on a drawn page or a whole snapshot on a welcomed
    one, leaves it reading `live`, with no date, through everything that follows while it keeps that socket.
  */
  lemma BackForGood(first: Env, before: seq<(Env, Event)>, env: Env, ev: Event, later: seq<(Env, Event)>, sock: Sock)
    requires var l := After(first, before);
             l.wire.ws == Some(sock) && ComesBack(l, ev) && (ev.f.Snapshot? ==> l.wire.welcomed)
    requires var back := Step(After(first, before), env, ev);
             forall i :: 0 <= i <= |later| ==> Steps(back, later[..i]).wire.ws == Some(sock)
    ensures var l' := Steps(Step(After(first, before), env, ev), later); l'.shown.status == Live && l'.shown.since == None
  {
    hide Step, Sound, FrameGaps, Marked, Settled;
    var l := After(first, before);
    var back := Step(l, env, ev);
    NeverWedged(first, before);
    RunSettled(first, before);
    assert later[..0] == [] && Steps(back, later[..0]).wire.ws == Some(sock);
    StepSound(l, env, ev);
    ReadsLive(l, env, ev, sock);
    StaysLive(back, later, sock);
  }

  lemma ReadsLive(l: Link, env: Env, ev: Event, sock: Sock)
    requires Sound(l) && Settled(l) && l.wire.ws == Some(sock) && ComesBack(l, ev) && (ev.f.Snapshot? ==> l.wire.welcomed)
    requires Step(l, env, ev).wire.ws == Some(sock)
    ensures var l' := Step(l, env, ev); l'.shown.status == Live && l'.shown.since == None && l'.timers.grace == None
  {
    hide Step, Sound, FrameGaps, Marked;
    StatusLaw(l, env, ev);
    SinceLaw(l, env, ev);
    LossLaw(l, env, ev);
    KeepsSocket(l, env, ev, sock);
  }

  lemma BackIs(l: Link)
    requires l.shown.status != Live
    ensures Back(l).shown.retryAt == None && !Back(l).shown.trying
  {
  }

  lemma WelcomeShowsNoTry(l: Link, env: Env, epoch: Option<string>)
    requires l.log.drawn && l.shown.status != Live
    ensures var l' := ReceiveWelcome(l, env, epoch, true); l'.shown.retryAt == None && !l'.shown.trying
  {
    HandShows(Greet(l, epoch), env, HWelcome(epoch));
    hide Hand, Back;
    BackIs(Hand(Greet(l, epoch), env, HWelcome(epoch)));
  }

  lemma SnapshotShowsNoTry(l: Link, env: Env, p: SnapPart, sock: Sock)
    requires p.part == p.parts && l.shown.status != Live && (l.wire.parts.Some? ==> l.wire.parts.value.held == [])
    ensures var l' := ReceiveSnapshot(l, env, p, sock); l'.shown.retryAt == None && !l'.shown.trying
  {
    var turns := JoinTurns(l.wire.parts.GetOr(Parts([], [])).list + [p]);
    var l1 := l.(wire := l.wire.(parts := None), log := l.log.(lastSeq := p.num));
    HandShows(l1, env, HSnapshot(p.num, turns));
    hide Hand, Back, JoinTurns;
    var l2 := Hand(l1, env, HSnapshot(p.num, turns));
    BackIs(l2.(log := l2.log.(drawn := true), timers := l2.timers.(snapshot := false)));
  }

  /** What brings a link back that was not live shows no try any more. */
  lemma BackShowsNoTry(l: Link, env: Env, ev: Event)
    requires ComesBack(l, ev) && l.shown.status != Live
    requires ev.f.Snapshot? && l.wire.parts.Some? ==> l.wire.parts.value.held == []
    ensures var l' := Step(l, env, ev); l'.shown.retryAt == None && !l'.shown.trying
  {
    hide ReceiveWelcome, ReceiveSnapshot, Hand, Back, Ordered;
    if ev.f.Welcome? { WelcomeShowsNoTry(Heard(l), env, ev.f.epoch); } else { SnapshotShowsNoTry(Heard(l), env, ev.f.p, ev.sock); }
  }

  /** A link starts connecting, with the wait for its first snapshot set and the load dated, on a socket when there is one. */
  lemma StartLaw(first: Env)
    ensures var l := After(first, []);
            && l.shown.status == Connecting && l.timers.snapshot && l.loss.loadAt == Some(first.now) && l.log.handed == [] && !l.log.drawn
            && l.wire.ws == (if first.throws then None else Some(0)) && !l.shown.trying
  {
  }

  /** Tries are counted from the first moment of a loss, one for each that finds a socket, and not any more after a welcome. */
  lemma AttemptLaw(l: Link, env: Env, ev: Event)
    requires Sound(l) && !env.throws
    ensures ((ev.OnRetryTimer? && l.timers.retry.Some?) || (ev.CallRetryNow? && CanRetryNow(l))) ==>
              Step(l, env, ev).loss.attempt == l.loss.attempt + 1
    ensures Closes(l, ev) && ev.code !in {4002, 4401, 4402, 4403, 4503} ==>
              Step(l, env, ev).loss.attempt == if l.loss.lossAt.Some? then l.loss.attempt else 0
    ensures Hears(l, ev) && ev.f.Welcome? ==> Step(l, env, ev).loss.attempt == 0
  {
  }
}
