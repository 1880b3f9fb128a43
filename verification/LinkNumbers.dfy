/** The numbers a link puts on what it writes: 1, 2, 3 … on each socket, as long as no send of the socket's own fails. */
module LinkNumbers {
  import opened Options
  import opened LinkSpec
  import LinkSafety

  function NumberOf(o: Out): nat { o.num }

  /** What was written to the current socket carries the numbers from 1 on, and the counter stands at the last. */
  ghost predicate Counted(l: Link) {
    l.wire.ws.Some? ==>
      l.wire.outSeq == |l.wire.sent| && forall i :: 0 <= i < |l.wire.sent| ==> NumberOf(l.wire.sent[i]) == i + 1
  }

  lemma OpenCounts(l: Link, env: Env, delay: Option<real>)
    requires l.wire.ws.None?
    ensures Counted(Open(l, env, delay))
  {
  }

  lemma GapCounts(l: Link, env: Env)
    requires Counted(l)
    ensures Counted(Gap(l, env))
  {
    if l.wire.ws.Some? {
      OpenCounts(l.(log := l.log.(epoch := None, lastSeq := None), wire := l.wire.(ws := None)), env, None);
    }
  }

  lemma HandCounts(l: Link, env: Env, h: Handed)
    requires Counted(l)
    ensures Counted(Hand(l, env, h))
  {
    GapCounts(l.(log := l.log.(handed := l.log.handed + [h])), env);
  }

  lemma OrderedCounts(l: Link, env: Env, m: Message)
    requires Counted(l)
    ensures Counted(Ordered(l, env, m))
  {
    GapCounts(l, env);
    HandCounts(l.(log := l.log.(lastSeq := Some(m.num))), env, HEntry(m));
  }

  lemma {:induction false} ReleaseCounts(l: Link, env: Env, held: seq<Message>, sock: Sock)
    requires Counted(l)
    ensures Counted(Release(l, env, held, sock))
    decreases |held|
  {
    if held != [] {
      if l.wire.ws == Some(sock) {
        OrderedCounts(l, env, held[0]);
        ReleaseCounts(Ordered(l, env, held[0]), env, held[1..], sock);
      } else {
        ReleaseCounts(l, env, held[1..], sock);
      }
    }
  }

  lemma DrawCounts(l: Link, env: Env, num: Option<int>, turns: seq<Turn>)
    requires Counted(l)
    ensures Counted(Draw(l, env, num, turns))
  {
    HandCounts(l.(wire := l.wire.(parts := None), log := l.log.(lastSeq := num)), env, HSnapshot(num, turns));
  }

  lemma ReceiveCounts(l: Link, env: Env, f: Frame, sock: Sock)
    requires Counted(l)
    ensures Counted(Receive(l, env, f, sock))
  {
    match f
    case Snapshot(p) =>
      var ps := l.wire.parts.GetOr(Parts([], []));
      var list := ps.list + [p];
      if p.part == p.parts {
        DrawCounts(l, env, p.num, JoinTurns(list));
        ReleaseCounts(Draw(l, env, p.num, JoinTurns(list)), env, ps.held, sock);
      }
    case Welcome(epoch, replay) => HandCounts(Greet(l, epoch), env, HWelcome(epoch));
    case Numbered(m) => OrderedCounts(l, env, m);
    case Plain(body) => HandCounts(l, env, HPlain(body));
    case Garbage =>
  }

  /** The socket's own send throws: its number is used up and nothing is written. */
  predicate SendFails(l: Link, ev: Event) { ev.CallSend? && CanSend(l, ev.ready) && ev.fails }

  /** Every event keeps the numbers consecutive exactly when it is not a send that fails. */
  lemma StepCounts(l: Link, env: Env, ev: Event)
    requires Counted(l) && (ev.OnRetryTimer? || ev.CallRetryNow? ==> l.timers.retry.Some? ==> l.wire.ws.None?)
    ensures Counted(Step(l, env, ev)) <==> !SendFails(l, ev)
  {
    match ev
    case OnFrame(sock, f) => if l.wire.ws == Some(sock) { ReceiveCounts(Heard(l), env, f, sock); }
    case OnRetryTimer => if l.timers.retry.Some? { OpenCounts(l.(timers := l.timers.(retry := None)), env, l.timers.retry); }
    case CallGap => GapCounts(l, env);
    case _ =>
  }

  ghost predicate NoSendFails(first: Env, run: seq<(Env, Event)>) {
    forall i :: 0 <= i < |run| ==> !SendFails(After(first, run[..i]), run[i].1)
  }

  /** In every run where no send of a socket fails, each socket's messages are numbered 1, 2, 3 … */
  lemma {:induction false} OutgoingNumbers(first: Env, run: seq<(Env, Event)>)
    requires NoSendFails(first, run)
    ensures Counted(After(first, run))
  {
    hide Step, SendFails, Counted;
    if run == [] {
      FirstCounts(first);
    } else {
      var n := |run| - 1;
      forall i | 0 <= i < n ensures run[..n][..i] == run[..i] {}
      OutgoingNumbers(first, run[..n]);
      LinkSafety.NeverWedged(first, run[..n]);
      StepCounts(After(first, run[..n]), run[n].0, run[n].1);
    }
  }

  lemma FirstCounts(first: Env)
    ensures Counted(After(first, []))
  {
    OpenCounts(Fresh.(loss := Fresh.loss.(loadAt := Some(first.now)), timers := Fresh.timers.(snapshot := true)), first, None);
  }
}
