/**
  The replica a screen holds is the room's log: whatever the network does, what
  the link handed on folds to the log of the current epoch up to `lastSeq`.

  `Conn` is what the room has seen and said on the current socket; `Legal` is the
  room's contract for the next frame (spec protocols.md, section 2.2): a frame
  numbered k carries the log's entry k, a snapshot numbered k is the fold of the log
  up to k, and a link that asked for no replay gets a snapshot before any numbered
  frame. Frames may be dropped, repeated, reordered or jump ahead.
*/
module Replication {
  import opened Options
  import opened LinkSpec
  import LinkSafety

  /** The room: entry k of each epoch's log, and how a snapshot folds one more entry. */
  datatype Room = Room(entry: (string, nat) -> Entry, fold: (seq<Turn>, Entry) -> seq<Turn>)

  /** The conversation after the first n entries of epoch e. */
  function RoomAt(room: Room, e: string, n: nat): seq<Turn> {
    if n == 0 then [] else room.fold(RoomAt(room, e, n - 1), room.entry(e, n))
  }

  /** The conversation a screen shows after the messages handed to it; None before the first snapshot. */
  function ScreenAfter(room: Room, handed: seq<Handed>): Option<seq<Turn>> {
    if handed == [] then None
    else
      var before := ScreenAfter(room, handed[..|handed| - 1]);
      match handed[|handed| - 1]
      case HSnapshot(_, turns) => Some(turns)
      case HEntry(m) => if before.None? then None else Some(room.fold(before.value, m.entry))
      case _ => before
  }

  /** A snapshot of `parts` parts numbered `num`, of which `got` were sent with these turns. */
  datatype Flight = Flight(num: nat, parts: int, got: int, turns: seq<Turn>)

  /** One socket as the room sees it: the hello it got, the epoch it welcomed with, whether numbered frames may follow. */
  datatype Conn = Conn(hello: Option<Out>, epoch: Option<string>, primed: bool, flight: Option<Flight>)

  const NewConn := Conn(None, None, false, None)

  ghost predicate LegalPart(room: Room, c: Conn, p: SnapPart) {
    && c.epoch.Some?
    && p.num.Some? && 0 <= p.num.value
    && 1 <= p.part <= p.parts
    && (if c.flight.None? then p.part == 1
        else p.num.value == c.flight.value.num && p.parts == c.flight.value.parts && p.part == c.flight.value.got + 1)
    && (p.part == p.parts ==>
          c.flight.GetOr(Flight(0, 0, 0, [])).turns + p.turns == RoomAt(room, c.epoch.value, p.num.value))
  }

  /** The room may send this frame now. */
  ghost predicate Legal(room: Room, c: Conn, f: Frame) {
    match f
    case Welcome(epoch, replay) =>
      && c.hello.Some? && c.hello.value.Hello? && c.epoch.None? && epoch.Some?
      && (replay ==> c.hello.value.resume.Some? && c.hello.value.resume.value.0 == epoch.value)
    case Snapshot(p) => LegalPart(room, c, p)
    case Numbered(m) =>
      && c.epoch.Some? && (c.primed || c.flight.Some?)
      && 1 <= m.num && m.entry == room.entry(c.epoch.value, m.num)
    case Plain(_) => true
    case Garbage => true
  }

  function NextConn(c: Conn, f: Frame): Conn {
    match f
    case Welcome(epoch, replay) => c.(epoch := epoch, primed := replay)
    case Snapshot(p) =>
      if p.part == p.parts then c.(primed := true, flight := None)
      else if p.num.None? || p.num.value < 0 then c
      else c.(flight := Some(Flight(p.num.value, p.parts, p.part, c.flight.GetOr(Flight(0, 0, 0, [])).turns + p.turns)))
    case _ => c
  }

  /** The room's view after the event: a new socket starts afresh. */
  function ConnAfter(l: Link, c: Conn, l': Link, ev: Event): Conn {
    if l'.wire.ws.None? || l'.wire.made != l.wire.made then NewConn
    else
      match ev
      case OnOpen(sock) =>
        if l.wire.ws == Some(sock) && l'.wire.sent != [] then c.(hello := Some(l'.wire.sent[|l'.wire.sent| - 1])) else c
      case OnFrame(sock, f) => if l.wire.ws == Some(sock) then NextConn(c, f) else c
      case _ => c
  }

  /** Events of sockets the link has left are unrestricted; the current one opens once and carries legal frames. */
  ghost predicate LegalEvent(room: Room, l: Link, c: Conn, ev: Event) {
    match ev
    case OnOpen(sock) => l.wire.ws == Some(sock) ==> c.hello.None?
    case OnFrame(sock, f) => l.wire.ws == Some(sock) ==> Legal(room, c, f)
    case _ => true
  }

  function ConnOf(first: Env, run: seq<(Env, Event)>): Conn
    decreases |run|
  {
    if run == [] then NewConn
    else
      var before := run[..|run| - 1];
      ConnAfter(After(first, before), ConnOf(first, before), After(first, run), run[|run| - 1].1)
  }

  ghost predicate LegalRun(room: Room, first: Env, run: seq<(Env, Event)>)
    decreases |run|
  {
    run != [] ==>
      var before := run[..|run| - 1];
      LegalRun(room, first, before) && LegalEvent(room, After(first, before), ConnOf(first, before), run[|run| - 1].1)
  }

  // ---- The invariant

  /** What was handed on is the log of the current epoch up to `lastSeq`. */
  ghost predicate Replica(room: Room, log: Log) {
    && (log.lastSeq.Some? ==>
          && 0 <= log.lastSeq.value && log.epoch.Some?
          && ScreenAfter(room, log.handed) == Some(RoomAt(room, log.epoch.value, log.lastSeq.value)))
    && (log.drawn <==> ScreenAfter(room, log.handed).Some?)
  }

  /** The link's snapshot parts and held messages are the ones the room has in flight. */
  ghost predicate SameFlight(room: Room, e: string, wire: Wire, c: Conn) {
    && (wire.parts.Some? <==> c.flight.Some?)
    && (wire.parts.Some? ==>
          && JoinTurns(wire.parts.value.list) == c.flight.value.turns
          && HeldFromLog(room, e, wire.parts.value.held))
  }

  ghost predicate HeldFromLog(room: Room, e: string, held: seq<Message>) {
    forall i :: 0 <= i < |held| ==> 1 <= held[i].num && held[i].entry == room.entry(e, held[i].num)
  }

  ghost predicate SameConn(room: Room, l: Link, c: Conn) {
    if c.epoch.None? then
      && l.wire.parts.None? && c.flight.None? && !c.primed
      && (c.hello.Some? && c.hello.value.Hello? && c.hello.value.resume.Some? ==>
            && l.log.epoch == Some(c.hello.value.resume.value.0)
            && l.log.lastSeq == Some(c.hello.value.resume.value.1))
    else
      && l.log.epoch == c.epoch
      && (c.primed ==> l.log.lastSeq.Some?)
      && SameFlight(room, c.epoch.value, l.wire, c)
  }

  ghost predicate Coupled(room: Room, l: Link, c: Conn) {
    && Replica(room, l.log)
    && (l.wire.ws.Some? ==> SameConn(room, l, c))
  }

  // ---- One step

  /** The link has left its socket, and holds nothing of it. */
  predicate Left(l: Link, l': Link) {
    && (l'.wire.ws.None? || l'.wire.made > l.wire.made)
    && (l'.wire.ws.Some? ==> l'.wire.parts.None?)
  }

  predicate SameSocket(l: Link, l': Link) {
    l'.wire == l.wire && l'.log.epoch == l.log.epoch
  }

  lemma OpenLeaves(l: Link, env: Env, delay: Option<real>)
    requires l.wire.ws.None?
    ensures Left(l, Open(l, env, delay))
    ensures Open(l, env, delay).log == l.log
  {
  }

  lemma GapLeaves(l: Link, env: Env)
    requires l.wire.ws.Some?
    ensures Left(l, Gap(l, env))
    ensures Gap(l, env).log == l.log.(epoch := None, lastSeq := None)
  {
    OpenLeaves(l.(log := l.log.(epoch := None, lastSeq := None), wire := l.wire.(ws := None)), env, None);
  }

  lemma HandKeeps(room: Room, l: Link, env: Env, h: Handed)
    requires l.wire.ws.Some?
    ensures var l' := Hand(l, env, h);
            && l'.log.handed == l.log.handed + [h] && l'.log.drawn == l.log.drawn
            && (if SameSocket(l, l') then l'.log.lastSeq == l.log.lastSeq else Left(l, l') && l'.log.lastSeq.None?)
  {
    var l1 := l.(log := l.log.(handed := l.log.handed + [h]));
    if env.asks(l1.log.handed) { GapLeaves(l1, env); }
  }

  lemma ScreenStep(room: Room, handed: seq<Handed>, h: Handed)
    ensures ScreenAfter(room, handed + [h]) ==
            match h
            case HSnapshot(_, turns) => Some(turns)
            case HEntry(m) =>
              (var before := ScreenAfter(room, handed);
               if before.None? then None else Some(room.fold(before.value, m.entry)))
            case _ => ScreenAfter(room, handed)
  {
    var all := handed + [h];
    assert all[..|all| - 1] == handed;
  }

  /** An entry of the log taken in order extends the replica by one; any other is dropped or leaves the socket. */
  lemma OrderedKeeps(room: Room, l: Link, env: Env, m: Message)
    requires l.wire.ws.Some? && l.log.epoch.Some? && l.log.lastSeq.Some? && Replica(room, l.log)
    requires 1 <= m.num && m.entry == room.entry(l.log.epoch.value, m.num)
    ensures var l' := Ordered(l, env, m);
            && Replica(room, l'.log)
            && (if SameSocket(l, l') then l'.log.lastSeq.Some? else Left(l, l') && l'.log.lastSeq.None?)
  {
    if m.num == l.log.lastSeq.value + 1 {
      HandKeeps(room, l.(log := l.log.(lastSeq := Some(m.num))), env, HEntry(m));
      ScreenStep(room, l.log.handed, HEntry(m));
    } else if m.num > l.log.lastSeq.value {
      GapLeaves(l, env);
    }
  }

  lemma {:induction false} ReleaseKeeps(room: Room, l: Link, env: Env, held: seq<Message>, sock: Sock)
    requires l.wire.ws == Some(sock) && sock < l.wire.made
    requires l.log.epoch.Some? && l.log.lastSeq.Some? && Replica(room, l.log)
    requires HeldFromLog(room, l.log.epoch.value, held)
    ensures var l' := Release(l, env, held, sock);
            && Replica(room, l'.log)
            && (if SameSocket(l, l') then l'.log.lastSeq.Some? else Left(l, l') && l'.log.lastSeq.None?)
    decreases |held|
  {
    if held != [] {
      OrderedKeeps(room, l, env, held[0]);
      var l1 := Ordered(l, env, held[0]);
      if SameSocket(l, l1) {
        ReleaseKeeps(room, l1, env, held[1..], sock);
      } else {
        LeftSocketNumber(l, env, held[0], sock);
        ReleaseElsewhere(l1, env, held[1..], sock);
      }
    }
  }

  lemma LeftSocketNumber(l: Link, env: Env, m: Message, sock: Sock)
    requires l.wire.ws == Some(sock) && sock < l.wire.made
    ensures var l' := Ordered(l, env, m); SameSocket(l, l') || l'.wire.ws != Some(sock)
  {
  }

  lemma {:induction false} ReleaseElsewhere(l: Link, env: Env, held: seq<Message>, sock: Sock)
    requires l.wire.ws != Some(sock)
    ensures Release(l, env, held, sock) == l
    decreases |held|
  {
    if held != [] { ReleaseElsewhere(l, env, held[1..], sock); }
  }

  lemma JoinOne(list: seq<SnapPart>, p: SnapPart)
    ensures JoinTurns(list + [p]) == JoinTurns(list) + p.turns
  {
    assert (list + [p])[..|list + [p]| - 1] == list;
  }

  /** A snapshot equal to the fold makes the screen that fold; the handler's own gap forgets the number. */
  lemma DrawKeeps(room: Room, l: Link, env: Env, num: Option<int>, turns: seq<Turn>)
    requires l.wire.ws.Some? && l.log.epoch.Some? && Replica(room, l.log)
    requires num.Some? && 0 <= num.value && turns == RoomAt(room, l.log.epoch.value, num.value)
    ensures var l' := Draw(l, env, num, turns);
            && Replica(room, l'.log)
            && (if l'.wire == l.wire.(parts := None) && l'.log.epoch == l.log.epoch then l'.log.lastSeq.Some?
                else Left(l, l') && l'.log.lastSeq.None?)
  {
    HandKeeps(room, l.(wire := l.wire.(parts := None), log := l.log.(lastSeq := num)), env, HSnapshot(num, turns));
    ScreenStep(room, l.log.handed, HSnapshot(num, turns));
  }

  /** A whole snapshot with its held messages: drawn, then continued in order, or the socket is left. */
  lemma SnapshotKeeps(room: Room, l: Link, env: Env, num: Option<int>, turns: seq<Turn>, held: seq<Message>, sock: Sock)
    requires l.wire.ws == Some(sock) && sock < l.wire.made && l.log.epoch.Some? && Replica(room, l.log)
    requires num.Some? && 0 <= num.value && turns == RoomAt(room, l.log.epoch.value, num.value)
    requires HeldFromLog(room, l.log.epoch.value, held)
    ensures var l' := Release(Draw(l, env, num, turns), env, held, sock);
            && Replica(room, l'.log)
            && (if l'.wire == l.wire.(parts := None) && l'.log.epoch == l.log.epoch then l'.log.lastSeq.Some?
                else Left(l, l') && l'.log.lastSeq.None?)
  {
    DrawKeeps(room, l, env, num, turns);
    var d := Draw(l, env, num, turns);
    if d.wire == l.wire.(parts := None) && d.log.epoch == l.log.epoch {
      ReleaseKeeps(room, d, env, held, sock);
    } else {
      ReleaseElsewhere(d, env, held, sock);
    }
  }

  /** A legal frame keeps the link and the room's view of it in step, or the link leaves the socket. */
  predicate StaysOrLeaves(l: Link, l': Link) {
    (l'.wire.ws == l.wire.ws && l'.wire.made == l.wire.made) || Left(l, l')
  }

  lemma WelcomeKeeps(room: Room, l: Link, env: Env, c: Conn, epoch: Option<string>, replay: bool)
    requires Coupled(room, l, c) && l.wire.ws.Some? && Legal(room, c, Welcome(epoch, replay))
    ensures var l' := ReceiveWelcome(l, env, epoch, replay);
            && Replica(room, l'.log)
            && StaysOrLeaves(l, l')
            && (!Left(l, l') ==> SameConn(room, l', NextConn(c, Welcome(epoch, replay))))
  {
    var g := Greet(l, epoch);
    HandKeeps(room, g, env, HWelcome(epoch));
    ScreenStep(room, l.log.handed, HWelcome(epoch));
  }

  lemma PartKeeps(room: Room, l: Link, env: Env, c: Conn, p: SnapPart)
    requires Coupled(room, l, c) && l.wire.ws.Some? && LegalPart(room, c, p) && p.part != p.parts
    ensures Coupled(room, ReceiveSnapshot(l, env, p, l.wire.ws.value), NextConn(c, Snapshot(p)))
  {
    var ps := l.wire.parts.GetOr(Parts([], []));
    JoinOne(ps.list, p);
    assert JoinTurns([]) == [];
  }

  lemma LastPartConn(room: Room, l: Link, l': Link, c: Conn, p: SnapPart)
    requires l.wire.ws.Some? && l.log.epoch == c.epoch && c.epoch.Some? && p.part == p.parts
    requires if l'.wire == l.wire.(parts := None) && l'.log.epoch == l.log.epoch then l'.log.lastSeq.Some?
             else Left(l, l') && l'.log.lastSeq.None?
    ensures StaysOrLeaves(l, l')
    ensures !Left(l, l') ==> SameConn(room, l', NextConn(c, Snapshot(p)))
  {
  }

  /** In flight and last part together are the fold of the log. */
  lemma WholeSnapshot(room: Room, l: Link, c: Conn, p: SnapPart)
    requires Coupled(room, l, c) && l.wire.ws.Some? && LegalPart(room, c, p) && p.part == p.parts
    ensures var ps := l.wire.parts.GetOr(Parts([], []));
            && JoinTurns(ps.list + [p]) == RoomAt(room, c.epoch.value, p.num.value)
            && HeldFromLog(room, c.epoch.value, ps.held) && l.log.epoch == c.epoch
  {
    JoinOne(l.wire.parts.GetOr(Parts([], [])).list, p);
    assert JoinTurns([]) == [];
  }

  lemma LastPartKeeps(room: Room, l: Link, env: Env, c: Conn, p: SnapPart)
    requires Coupled(room, l, c) && l.wire.ws.Some? && l.wire.ws.value < l.wire.made
    requires LegalPart(room, c, p) && p.part == p.parts
    ensures var l' := ReceiveSnapshot(l, env, p, l.wire.ws.value);
            && Replica(room, l'.log)
            && StaysOrLeaves(l, l')
            && (!Left(l, l') ==> SameConn(room, l', NextConn(c, Snapshot(p))))
  {
    WholeSnapshot(room, l, c, p);
    var ps := l.wire.parts.GetOr(Parts([], []));
    var turns := JoinTurns(ps.list + [p]);
    SnapshotKeeps(room, l, env, p.num, turns, ps.held, l.wire.ws.value);
    LastPartConn(room, l, Release(Draw(l, env, p.num, turns), env, ps.held, l.wire.ws.value), c, p);
  }

  lemma FrameKeeps(room: Room, l: Link, env: Env, c: Conn, f: Frame)
    requires Coupled(room, l, c) && l.wire.ws.Some? && l.wire.ws.value < l.wire.made && Legal(room, c, f)
    ensures var l' := Receive(l, env, f, l.wire.ws.value);
            && Replica(room, l'.log)
            && StaysOrLeaves(l, l')
            && (!Left(l, l') ==> SameConn(room, l', NextConn(c, f)))
  {
    match f
    case Welcome(epoch, replay) => WelcomeKeeps(room, l, env, c, epoch, replay);
    case Snapshot(p) =>
      if p.part == p.parts { LastPartKeeps(room, l, env, c, p); } else { PartKeeps(room, l, env, c, p); }
    case Numbered(m) => if l.wire.parts.None? { OrderedKeeps(room, l, env, m); }
    case Plain(body) =>
      HandKeeps(room, l, env, HPlain(body));
      ScreenStep(room, l.log.handed, HPlain(body));
    case Garbage =>
  }

  lemma StepKeeps(room: Room, l: Link, env: Env, c: Conn, ev: Event)
    requires Coupled(room, l, c) && LinkSafety.Sound(l) && LegalEvent(room, l, c, ev)
    ensures Coupled(room, Step(l, env, ev), ConnAfter(l, c, Step(l, env, ev), ev))
  {
    match ev
    case OnFrame(sock, f) => if l.wire.ws == Some(sock) { FrameKeeps(room, Heard(l), env, c, f); }
    case CallGap => if l.wire.ws.Some? { GapLeaves(l, env); }
    case CallRetryNow => if CanRetryNow(l) { OpenLeaves(l, env, Some(0.0)); }
    case OnRetryTimer =>
      if l.timers.retry.Some? { OpenLeaves(l.(timers := l.timers.(retry := None)), env, l.timers.retry); }
    case _ =>
  }

  lemma {:induction false} RunKeeps(room: Room, first: Env, run: seq<(Env, Event)>)
    requires LegalRun(room, first, run)
    ensures Coupled(room, After(first, run), ConnOf(first, run))
    decreases |run|
  {
    if run == [] {
      OpenLeaves(Fresh.(loss := Fresh.loss.(loadAt := Some(first.now)), timers := Fresh.timers.(snapshot := true)), first, None);
    } else {
      var before := run[..|run| - 1];
      RunKeeps(room, first, before);
      LinkSafety.NeverWedged(first, before);
      StepKeeps(room, After(first, before), run[|run| - 1].0, ConnOf(first, before), run[|run| - 1].1);
    }
  }

  /**
    Replication: after any run of a link against any room that keeps the contract,
    whenever the link holds a `lastSeq` the messages it handed on fold to exactly the
    log of its epoch up to that number. With a fold that only appends this says that
    no entry came twice, was skipped or changed place.
  */
  lemma Replicates(room: Room, first: Env, run: seq<(Env, Event)>)
    requires LegalRun(room, first, run)
    ensures var log := After(first, run).log;
            log.lastSeq.Some? ==>
              && 0 <= log.lastSeq.value && log.epoch.Some? && log.drawn
              && ScreenAfter(room, log.handed) == Some(RoomAt(room, log.epoch.value, log.lastSeq.value))
    ensures After(first, run).shown.status == Live ==> ScreenAfter(room, After(first, run).log.handed).Some?
  {
    RunKeeps(room, first, run);
    LinkSafety.NeverWedged(first, run);
  }
}
