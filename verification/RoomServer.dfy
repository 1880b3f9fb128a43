/**
  The room's side of one link (server/cockpit/link.mjs: `hello`, `replayFrom`,
  `emit`, `snapshotParts`): its answer to a hello keeps the contract of module
  `Replication`, and a page that gets all of it is caught up.
*/
module RoomServer {
  import opened Options
  import opened LinkSpec
  import opened Replication

  const REPLAY_MAX := 2000

  /** The room's epoch and the number of its last message; it keeps the last REPLAY_MAX of them. */
  datatype Server = Server(epoch: string, last: nat) {
    function Kept(): nat { if last <= REPLAY_MAX then last else REPLAY_MAX }
    function Oldest(): nat { last - Kept() + 1 }
  }

  /** The number to replay after, when the hello names this epoch and its next message is still kept. */
  function ReplayFrom(s: Server, resume: Option<(string, int)>): (from: Option<nat>)
    ensures from.Some? ==> resume == Some((s.epoch, from.value)) && s.Oldest() <= from.value + 1 <= s.last + 1
  {
    if resume.None? || resume.value.0 != s.epoch then None
    else if resume.value.1 > s.last || resume.value.1 + 1 < s.Oldest() then None
    else Some(resume.value.1)
  }

  /** The `count` numbered frames after number `from` of the epoch's log. */
  function Numbers(room: Room, e: string, from: nat, count: nat): seq<Frame>
    decreases count
  {
    if count == 0 then []
    else [Numbered(Message(from + 1, room.entry(e, from + 1)))] + Numbers(room, e, from + 1, count - 1)
  }

  function Concat(groups: seq<seq<Turn>>): seq<Turn> {
    if groups == [] then [] else Concat(groups[..|groups| - 1]) + groups[|groups| - 1]
  }

  /** Parts i+1 .. n of the snapshot numbered `num`, its turns cut into `groups`. */
  function PartFrames(num: nat, groups: seq<seq<Turn>>, i: nat): seq<Frame>
    requires i <= |groups|
    decreases |groups| - i
  {
    if i == |groups| then []
    else [Snapshot(SnapPart(Some(num), i + 1, |groups|, groups[i]))] + PartFrames(num, groups, i + 1)
  }

  /** The turns cut between turns into at least one part. */
  ghost predicate Cuts(room: Room, s: Server, groups: seq<seq<Turn>>) {
    groups != [] && Concat(groups) == RoomAt(room, s.epoch, s.last)
  }

  /** The answer to a hello. */
  function Answer(room: Room, s: Server, resume: Option<(string, int)>, groups: seq<seq<Turn>>): seq<Frame> {
    var from := ReplayFrom(s, resume);
    [Welcome(Some(s.epoch), from.Some?)] +
    (if from.Some? then Numbers(room, s.epoch, from.value, s.last - from.value) else PartFrames(s.last, groups, 0))
  }

  // ---- The answer keeps the contract

  ghost predicate LegalFrames(room: Room, c: Conn, frames: seq<Frame>)
    decreases |frames|
  {
    frames != [] ==> Legal(room, c, frames[0]) && LegalFrames(room, NextConn(c, frames[0]), frames[1..])
  }

  lemma {:induction false} NumbersLegal(room: Room, c: Conn, from: nat, count: nat)
    requires c.epoch.Some? && c.primed
    ensures LegalFrames(room, c, Numbers(room, c.epoch.value, from, count))
    decreases count
  {
    if count > 0 {
      NumbersLegal(room, c, from + 1, count - 1);
      assert Numbers(room, c.epoch.value, from, count)[1..] == Numbers(room, c.epoch.value, from + 1, count - 1);
    }
  }

  lemma {:induction false} PartsLegal(room: Room, s: Server, c: Conn, groups: seq<seq<Turn>>, i: nat)
    requires Cuts(room, s, groups) && i < |groups| && c.epoch == Some(s.epoch)
    requires if i == 0 then c.flight.None? else c.flight == Some(Flight(s.last, |groups|, i, Concat(groups[..i])))
    ensures LegalFrames(room, c, PartFrames(s.last, groups, i))
    decreases |groups| - i
  {
    var frames := PartFrames(s.last, groups, i);
    assert groups[..i + 1][..i] == groups[..i];
    assert frames[1..] == PartFrames(s.last, groups, i + 1);
    assert Concat(groups[..0]) == [];
    if i + 1 == |groups| {
      assert groups[..i + 1] == groups;
    } else {
      PartsLegal(room, s, NextConn(c, frames[0]), groups, i + 1);
    }
  }

  /** The room answers every hello within the contract. */
  lemma AnswerLegal(room: Room, s: Server, c: Conn, groups: seq<seq<Turn>>)
    requires Cuts(room, s, groups)
    requires c.hello.Some? && c.hello.value.Hello? && c.epoch.None? && c.flight.None? && !c.primed
    ensures LegalFrames(room, c, Answer(room, s, c.hello.value.resume, groups))
  {
    var resume := c.hello.value.resume;
    var frames := Answer(room, s, resume, groups);
    var c1 := NextConn(c, frames[0]);
    if ReplayFrom(s, resume).Some? {
      NumbersLegal(room, c1, ReplayFrom(s, resume).value, s.last - ReplayFrom(s, resume).value);
      assert frames[1..] == Numbers(room, s.epoch, ReplayFrom(s, resume).value, s.last - ReplayFrom(s, resume).value);
    } else {
      PartsLegal(room, s, c1, groups, 0);
      assert frames[1..] == PartFrames(s.last, groups, 0);
    }
  }

  // ---- A page that gets the whole answer is caught up

  ghost predicate Quiet(env: Env) { forall h :: !env.asks(h) }

  function Feed(l: Link, env: Env, sock: Sock, frames: seq<Frame>): Link
    decreases |frames|
  {
    if frames == [] then l else Feed(SocketMessage(l, env, sock, frames[0]), env, sock, frames[1..])
  }

  predicate On(l: Link, sock: Sock, e: string) {
    l.wire.ws == Some(sock) && l.log.epoch == Some(e)
  }

  lemma {:induction false} FeedNumbers(room: Room, l: Link, env: Env, sock: Sock, e: string, from: nat, count: nat)
    requires Quiet(env) && On(l, sock, e) && l.log.lastSeq == Some(from) && l.wire.parts.None?
    ensures var l' := Feed(l, env, sock, Numbers(room, e, from, count));
            && On(l', sock, e) && l'.log.lastSeq == Some(from + count) && l'.wire.parts.None? && l'.shown == l.shown
    decreases count
  {
    if count > 0 {
      var frames := Numbers(room, e, from, count);
      assert frames[1..] == Numbers(room, e, from + 1, count - 1);
      FeedNumbers(room, SocketMessage(l, env, sock, frames[0]), env, sock, e, from + 1, count - 1);
    }
  }

  lemma {:induction false} FeedParts(l: Link, env: Env, sock: Sock, e: string, num: nat, groups: seq<seq<Turn>>, i: nat)
    requires i < |groups| && Quiet(env) && On(l, sock, e)
    requires if i == 0 then l.wire.parts.None? else l.wire.parts.Some? && l.wire.parts.value.held == []
    ensures var l' := Feed(l, env, sock, PartFrames(num, groups, i));
            && On(l', sock, e) && l'.log.lastSeq == Some(num) && l'.wire.parts.None? && l'.log.drawn && l'.shown.status == Live
            && ((l.shown.status == Live ==> l.shown.since == None) ==> l'.shown.since == None)
    decreases |groups| - i
  {
    var frames := PartFrames(num, groups, i);
    var l1 := SocketMessage(l, env, sock, frames[0]);
    assert frames[1..] == PartFrames(num, groups, i + 1);
    if i + 1 < |groups| {
      FeedParts(l1, env, sock, e, num, groups, i + 1);
    } else {
      assert frames[1..] == [];
    }
  }

  /** What the link asked for in its hello on this socket. */
  function Asked(l: Link): Option<(string, int)> {
    if l.log.epoch.Some? && l.log.lastSeq.Some? then Some((l.log.epoch.value, l.log.lastSeq.value)) else None
  }

  /**
    A link that has just said hello and gets the room's whole answer stays on the socket and
    ends at the room's last message, whether it was replayed or drawn, and reads `live`; then each
    message the room emits next is applied as it comes.
  */
  lemma CatchesUp(room: Room, s: Server, l: Link, env: Env, sock: Sock, groups: seq<seq<Turn>>, more: nat)
    requires Quiet(env) && l.wire.ws == Some(sock) && l.wire.parts.None? && groups != []
    ensures var l' := Feed(l, env, sock, Answer(room, s, Asked(l), groups));
            && On(l', sock, s.epoch) && l'.log.lastSeq == Some(s.last)
            && ((l.log.lastSeq.Some? ==> l.log.drawn) && (l.shown.status == Live ==> l.shown.since == None) ==>
                  l'.shown.status == Live && l'.shown.since == None)
            && Feed(l', env, sock, Numbers(room, s.epoch, s.last, more)).log.lastSeq == Some(s.last + more)
  {
    var frames := Answer(room, s, Asked(l), groups);
    var l1 := SocketMessage(l, env, sock, frames[0]);
    var from := ReplayFrom(s, Asked(l));
    if from.Some? {
      assert frames[1..] == Numbers(room, s.epoch, from.value, s.last - from.value);
      FeedNumbers(room, l1, env, sock, s.epoch, from.value, s.last - from.value);
    } else {
      assert frames[1..] == PartFrames(s.last, groups, 0);
      FeedParts(l1, env, sock, s.epoch, s.last, groups, 0);
    }
    FeedNumbers(room, Feed(l, env, sock, frames), env, sock, s.epoch, s.last, more);
  }

  /** From the socket's opening on: the room answers the hello that the link wrote, and the link is caught up and `live`. */
  lemma OpensAndCatchesUp(room: Room, s: Server, l: Link, env: Env, sock: Sock, groups: seq<seq<Turn>>)
    requires Quiet(env) && l.wire.ws == Some(sock) && l.wire.parts.None? && groups != []
    requires (l.log.lastSeq.Some? ==> l.log.drawn) && (l.shown.status == Live ==> l.shown.since == None)
    ensures var open := Step(l, env, OnOpen(sock));
            && open.wire.sent != [] && open.wire.sent[|open.wire.sent| - 1].Hello?
            && var l' := Feed(open, env, sock, Answer(room, s, open.wire.sent[|open.wire.sent| - 1].resume, groups));
               On(l', sock, s.epoch) && l'.log.lastSeq == Some(s.last) && l'.shown.status == Live && l'.shown.since == None
  {
    hide Feed, Answer;
    CatchesUp(room, s, Step(l, env, OnOpen(sock)), env, sock, groups, 0);
  }
}
