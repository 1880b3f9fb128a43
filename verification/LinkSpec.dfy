/**
  The page's room link as a transition system on values
  (public/js/cockpit/link.js, backoff from public/js/core/net.js).

  `Link` is the closure state of `createRoomLink` at one instant, together with
  what it has handed to `onMessage` (`handed`) and written to its current socket
  (`sent`). Each function is one function or one event handler of the source; the
  class `RoomLink.RoomLink` runs the same steps in place and is proved against
  these functions. Module `LinkSafety` states what they keep over every run.
*/
module LinkSpec {
  import opened Options

  const BACKOFF_START_MS := 500.0
  const BACKOFF_FACTOR := 1.8
  const BACKOFF_MAX_MS := 15000.0
  const TOO_MANY_LINKS_RETRY_MS := 30000.0
  const TOO_MANY_RETRY_MS := 30000.0

  /** A socket's identity: the order in which the link made it. */
  type Sock = nat

  datatype Entry = Entry(json: string)
  datatype Turn = Turn(json: string)

  datatype SnapPart = SnapPart(num: Option<int>, part: int, parts: int, turns: seq<Turn>)
  datatype Message = Message(num: int, entry: Entry)

  /** A frame as the message handler sees it; `Garbage` is one that does not parse to a typed object. */
  datatype Frame =
    | Welcome(epoch: Option<string>, replay: bool)
    | Snapshot(p: SnapPart)
    | Numbered(m: Message)
    | Plain(body: string)
    | Garbage

  /** What `onMessage` receives. */
  datatype Handed =
    | HWelcome(epoch: Option<string>)
    | HSnapshot(num: Option<int>, turns: seq<Turn>)
    | HEntry(m: Message)
    | HPlain(body: string)

  /** What the link writes: its hello, or a screen message with the link's own number. */
  datatype Out =
    | Hello(num: nat, resume: Option<(string, int)>)
    | Screen(num: nat, body: string)

  datatype Status = Connecting | Live | RoomDown | Unpaired
  datatype Refusal = Refusal(code: int, reason: string)
  datatype Parts = Parts(list: seq<SnapPart>, held: seq<Message>)

  /**
    What the surroundings decide during one event: the clock, whether the
    WebSocket constructor throws, and whether the message handler answers the
    messages handed to it so far by asking for a gap (`link.gap()`).
  */
  datatype Env = Env(now: real, throws: bool, asks: seq<Handed> -> bool)

  /** The current socket and what belongs to it. `made` counts the sockets so far. */
  datatype Wire = Wire(ws: Option<Sock>, made: nat, outSeq: nat, welcomed: bool, parts: Option<Parts>, sent: seq<Out>)

  /** What was taken from the room, and everything handed on. */
  datatype Log = Log(lastSeq: Option<int>, epoch: Option<string>, drawn: bool, handed: seq<Handed>)

  datatype Loss = Loss(backoff: real, attempt: nat, lossAt: Option<real>, loadAt: Option<real>)

  /** The timers that are set: the retry with its delay, the grace with the `since` it will show. */
  datatype Timers = Timers(retry: Option<real>, grace: Option<real>, silence: bool, snapshot: bool)

  /** The state the link publishes. */
  datatype Shown = Shown(status: Status, since: Option<real>, retryAt: Option<real>, trying: bool, refused: Option<Refusal>)

  datatype Link = Link(wire: Wire, log: Log, loss: Loss, timers: Timers, shown: Shown, stopped: bool)

  const Fresh := Link(
    Wire(None, 0, 0, false, None, []), Log(None, None, false, []),
    Loss(BACKOFF_START_MS, 0, None, None), Timers(None, None, false, false),
    Shown(Connecting, None, None, false, None), false)

  function NextBackoff(ms: real): real {
    if ms * BACKOFF_FACTOR <= BACKOFF_MAX_MS then ms * BACKOFF_FACTOR else BACKOFF_MAX_MS
  }

  /** The close codes after which the link never tries again. */
  predicate NoRetry(code: int) { code == 4002 || code == 4401 || code == 4402 || code == 4403 }

  // ---- Opening, losing and scheduling

  function Schedule(l: Link, env: Env, ms: real): Link {
    l.(timers := l.timers.(retry := Some(ms)), shown := l.shown.(trying := false, retryAt := Some(env.now + ms)))
  }

  /** The time a loss is counted from: a page that never drew counts from its load. */
  function LossSince(drawn: bool, loss: Loss): Option<real> {
    if drawn || loss.loadAt.None? then loss.lossAt else loss.loadAt
  }

  /** The first moment of a loss: it is dated, and the grace starts unless one runs or the room is down already. */
  function MarkLoss(l: Link, env: Env): Link {
    if l.loss.lossAt.Some? then l else
    var loss := l.loss.(lossAt := Some(env.now), attempt := 0);
    var grace := if l.shown.status != RoomDown && l.timers.grace.None? then LossSince(l.log.drawn, loss) else l.timers.grace;
    l.(loss := loss, timers := l.timers.(grace := grace))
  }

  function Lost(l: Link, env: Env, delay: Option<real>): Link {
    if l.stopped then l else
    var l1 := MarkLoss(l, env);
    if delay.Some? then Schedule(l1, env, delay.value)
    else
      var b := NextBackoff(l1.loss.backoff);
      Schedule(l1.(loss := l1.loss.(backoff := b)), env, b)
  }

  function Open(l: Link, env: Env, delay: Option<real>): Link {
    if l.stopped then l else
    var l1 := l.(timers := l.timers.(retry := None),
                 loss := l.loss.(attempt := if delay.Some? then l.loss.attempt + 1 else l.loss.attempt),
                 wire := l.wire.(outSeq := 0, welcomed := false, parts := None));
    if env.throws then Lost(l1, env, None)
    else l1.(wire := l1.wire.(ws := Some(l1.wire.made), made := l1.wire.made + 1, sent := []),
             shown := l1.shown.(trying := delay.Some?, retryAt := None))
  }

  function Gap(l: Link, env: Env): Link {
    if l.wire.ws.None? then l
    else Open(l.(log := l.log.(epoch := None, lastSeq := None), wire := l.wire.(ws := None)), env, None)
  }

  function Down(l: Link, since: Option<real>): Link {
    l.(shown := l.shown.(status := RoomDown, since := since))
  }

  function Back(l: Link): Link {
    if l.shown.status == Live then l
    else l.(shown := l.shown.(status := Live, since := None, retryAt := None, trying := false))
  }

  // ---- Receiving

  /** `onMessage(h)`, with the handler's own call of `gap()` if it makes one. */
  function Hand(l: Link, env: Env, h: Handed): Link {
    var l1 := l.(log := l.log.(handed := l.log.handed + [h]));
    if env.asks(l1.log.handed) then Gap(l1, env) else l1
  }

  function Ordered(l: Link, env: Env, m: Message): Link {
    if l.log.lastSeq.Some? && m.num <= l.log.lastSeq.value then l
    else if l.log.lastSeq.Some? && m.num != l.log.lastSeq.value + 1 then Gap(l, env)
    else Hand(l.(log := l.log.(lastSeq := Some(m.num))), env, HEntry(m))
  }

  /** The messages held behind a snapshot, each applied only while `sock` is still the current socket. */
  function Release(l: Link, env: Env, held: seq<Message>, sock: Sock): Link
    decreases |held|
  {
    if held == [] then l
    else Release(if l.wire.ws == Some(sock) then Ordered(l, env, held[0]) else l, env, held[1..], sock)
  }

  function JoinTurns(list: seq<SnapPart>): seq<Turn> {
    if list == [] then [] else JoinTurns(list[..|list| - 1]) + list[|list| - 1].turns
  }

  /** The welcome's own effect: another epoch forgets the last number, and the loss is over. */
  function Greet(l: Link, epoch: Option<string>): Link {
    var log := if epoch.None? then l.log
               else l.log.(epoch := epoch, lastSeq := if epoch != l.log.epoch then None else l.log.lastSeq);
    l.(wire := l.wire.(welcomed := true), log := log,
       timers := l.timers.(grace := None),
       loss := l.loss.(lossAt := None, attempt := 0),
       shown := l.shown.(refused := None, trying := false, retryAt := None))
  }

  function ReceiveWelcome(l: Link, env: Env, epoch: Option<string>, replay: bool): Link {
    var l1 := Hand(Greet(l, epoch), env, HWelcome(epoch));
    if replay && l1.log.drawn then Back(l1) else l1
  }

  /** The whole snapshot is here: handed on, drawn, and the link is back. */
  function Draw(l: Link, env: Env, num: Option<int>, turns: seq<Turn>): Link {
    var l1 := l.(wire := l.wire.(parts := None), log := l.log.(lastSeq := num));
    var l2 := Hand(l1, env, HSnapshot(num, turns));
    Back(l2.(log := l2.log.(drawn := true), timers := l2.timers.(snapshot := false)))
  }

  function ReceiveSnapshot(l: Link, env: Env, p: SnapPart, sock: Sock): Link {
    var ps := l.wire.parts.GetOr(Parts([], []));
    var list := ps.list + [p];
    if p.part != p.parts then l.(wire := l.wire.(parts := Some(Parts(list, ps.held))))
    else Release(Draw(l, env, p.num, JoinTurns(list)), env, ps.held, sock)
  }

  function Hold(l: Link, m: Message): Link
    requires l.wire.parts.Some?
  {
    l.(wire := l.wire.(parts := Some(Parts(l.wire.parts.value.list, l.wire.parts.value.held + [m]))))
  }

  function Receive(l: Link, env: Env, f: Frame, sock: Sock): Link {
    match f
    case Welcome(epoch, replay) => ReceiveWelcome(l, env, epoch, replay)
    case Snapshot(p) => ReceiveSnapshot(l, env, p, sock)
    case Numbered(m) => if l.wire.parts.Some? then Hold(l, m) else Ordered(l, env, m)
    case Plain(body) => Hand(l, env, HPlain(body))
    case Garbage => l
  }

  // ---- Closing

  function Refuse(l: Link, env: Env, code: int, reason: string): Link {
    var status := if code == 4401 || code == 4402 || reason == "insecure-origin" then Unpaired else RoomDown;
    l.(timers := l.timers.(retry := None, grace := None, snapshot := false),
       shown := Shown(status, if status == RoomDown then Some(env.now) else None, None, false, Some(Refusal(code, reason))))
  }

  function TooManyLinks(l: Link, env: Env, code: int, reason: string): Link {
    var loss := l.loss.(lossAt := Some(l.loss.lossAt.GetOr(env.now)));
    var shown := l.shown.(status := RoomDown, since := LossSince(l.log.drawn, loss), refused := Some(Refusal(code, reason)));
    Schedule(l.(loss := loss, timers := l.timers.(grace := None), shown := shown), env, TOO_MANY_LINKS_RETRY_MS)
  }

  function Closed(l: Link, env: Env, code: int, reason: string): Link {
    var l0 := l.(timers := l.timers.(silence := false));
    if NoRetry(code) then Refuse(l0, env, code, reason)
    else if code == 4503 then TooManyLinks(l0, env, code, reason)
    else if code == 4429 then Lost(l0, env, Some(TOO_MANY_RETRY_MS))
    else Lost(l0, env, None)
  }

  // ---- The page's calls

  function Start(l: Link, env: Env): Link {
    Open(l.(loss := l.loss.(loadAt := Some(env.now)), timers := l.timers.(snapshot := true)), env, None)
  }

  /** RETRY NOW acts: no socket, a pending try, and the link was not refused for good. */
  predicate CanRetryNow(l: Link) {
    l.wire.ws.None? && l.timers.retry.Some? && !(l.shown.refused.Some? && NoRetry(l.shown.refused.value.code))
  }

  function RetryNow(l: Link, env: Env): Link {
    if CanRetryNow(l) then Open(l, env, Some(0.0)) else l
  }

  /** A screen message goes out: `ready` is the socket's own readyState 1. */
  predicate CanSend(l: Link, ready: bool) { l.wire.ws.Some? && l.wire.welcomed && ready }

  /** `fails`: the socket's send throws; the number is used up all the same. */
  function Send(l: Link, body: string, ready: bool, fails: bool): Link {
    if !CanSend(l, ready) then l
    else
      var n := l.wire.outSeq + 1;
      l.(wire := l.wire.(outSeq := n, sent := if fails then l.wire.sent else l.wire.sent + [Screen(n, body)]))
  }

  function Stop(l: Link): Link {
    l.(stopped := true, timers := Timers(None, None, false, false), wire := l.wire.(ws := None))
  }

  // ---- Socket events and timers

  function SocketOpened(l: Link, sock: Sock): Link {
    if l.wire.ws != Some(sock) then l
    else
      var resume := if l.log.epoch.Some? && l.log.lastSeq.Some? then Some((l.log.epoch.value, l.log.lastSeq.value)) else None;
      var n := l.wire.outSeq + 1;
      l.(loss := l.loss.(backoff := BACKOFF_START_MS),
         wire := l.wire.(outSeq := n, sent := l.wire.sent + [Hello(n, resume)]),
         timers := l.timers.(silence := true))
  }

  function Heard(l: Link): Link { l.(timers := l.timers.(silence := true)) }

  function SocketMessage(l: Link, env: Env, sock: Sock, f: Frame): Link {
    if l.wire.ws != Some(sock) then l else Receive(Heard(l), env, f, sock)
  }

  function DropSocket(l: Link): Link { l.(wire := l.wire.(ws := None)) }

  function SocketClosed(l: Link, env: Env, sock: Sock, code: int, reason: string): Link {
    if l.wire.ws != Some(sock) then l else Closed(DropSocket(l), env, code, reason)
  }

  function SilenceFired(l: Link, env: Env): Link {
    if !l.timers.silence then l
    else
      var l1 := l.(timers := l.timers.(silence := false));
      if l1.wire.ws.None? then l1 else Lost(DropSocket(l1), env, None)
  }

  function GraceFired(l: Link): Link {
    if l.timers.grace.None? then l else Down(l.(timers := l.timers.(grace := None)), l.timers.grace)
  }

  function SnapshotWaitFired(l: Link): Link {
    if !l.timers.snapshot then l
    else
      var l1 := l.(timers := l.timers.(snapshot := false));
      if !l1.log.drawn && l1.shown.status == Connecting then Down(l1, l1.loss.loadAt) else l1
  }

  function RetryFired(l: Link, env: Env): Link {
    if l.timers.retry.None? then l else Open(l.(timers := l.timers.(retry := None)), env, l.timers.retry)
  }

  // ---- Events

  /** Everything that can happen to a started link. A timer event of a timer that is not set does nothing. */
  datatype Event =
    | OnOpen(sock: Sock)
    | OnFrame(sock: Sock, f: Frame)
    | OnClose(sock: Sock, code: int, reason: string)
    | OnRetryTimer | OnGraceTimer | OnSilence | OnSnapshotWait
    | CallRetryNow | CallGap | CallSend(body: string, ready: bool, fails: bool) | CallStop

  function Step(l: Link, env: Env, ev: Event): Link {
    match ev
    case OnOpen(sock) => SocketOpened(l, sock)
    case OnFrame(sock, f) => SocketMessage(l, env, sock, f)
    case OnClose(sock, code, reason) => SocketClosed(l, env, sock, code, reason)
    case OnRetryTimer => RetryFired(l, env)
    case OnGraceTimer => GraceFired(l)
    case OnSilence => SilenceFired(l, env)
    case OnSnapshotWait => SnapshotWaitFired(l)
    case CallRetryNow => RetryNow(l, env)
    case CallGap => Gap(l, env)
    case CallSend(body, ready, fails) => Send(l, body, ready, fails)
    case CallStop => Stop(l)
  }

  /** A link started in `first`, then stepped through `run`. */
  function After(first: Env, run: seq<(Env, Event)>): Link
    decreases |run|
  {
    if run == [] then Start(Fresh, first)
    else
      var last := run[|run| - 1];
      Step(After(first, run[..|run| - 1]), last.0, last.1)
  }
}
