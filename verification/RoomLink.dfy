/**
  The room link as the page runs it: one object whose fields every event handler
  updates in place (public/js/cockpit/link.js, `createRoomLink`). Each method is
  proved to make exactly the step of module `LinkSpec`, so what `LinkSafety` and
  `Replication` prove of every run holds of this object.
*/
module RoomLink {
  import opened Options
  import Spec = LinkSpec
  import opened LinkSafety

  /** Surroundings that decide nothing, for the events that ask nothing of them. */
  ghost function Calm(): Spec.Env { Spec.Env(0.0, false, _ => false) }

  class RoomLink {
    var wire: Spec.Wire
    var log: Spec.Log
    var loss: Spec.Loss
    var timers: Spec.Timers
    var st: Spec.Shown
    var stopped: bool

    ghost function View(): Spec.Link
      reads this
    {
      Spec.Link(wire, log, loss, timers, st, stopped)
    }

    constructor ()
      ensures View() == Spec.Fresh
    {
      wire := Spec.Wire(None, 0, 0, false, None, []);
      log := Spec.Log(None, None, false, []);
      loss := Spec.Loss(Spec.BACKOFF_START_MS, 0, None, None);
      timers := Spec.Timers(None, None, false, false);
      st := Spec.Shown(Spec.Connecting, None, None, false, None);
      stopped := false;
    }

    method Schedule(env: Spec.Env, ms: real)
      modifies this
      ensures View() == Spec.Schedule(old(View()), env, ms)
    {
      timers := timers.(retry := None);
      st := st.(trying := false, retryAt := Some(env.now + ms));
      timers := timers.(retry := Some(ms));
    }

    method Lost(env: Spec.Env, delay: Option<real>)
      modifies this
      ensures View() == Spec.Lost(old(View()), env, delay)
    {
      if stopped { return; }
      if loss.lossAt.None? {
        loss := loss.(lossAt := Some(env.now));
        loss := loss.(attempt := 0);
        if st.status != Spec.RoomDown && timers.grace.None? {
          timers := timers.(grace := if log.drawn || loss.loadAt.None? then loss.lossAt else loss.loadAt);
        }
      }
      if delay.Some? {
        Schedule(env, delay.value);
      } else {
        loss := loss.(backoff := Spec.NextBackoff(loss.backoff));
        Schedule(env, loss.backoff);
      }
    }

    method Open(env: Spec.Env, delay: Option<real>)
      modifies this
      ensures View() == Spec.Open(old(View()), env, delay)
    {
      if stopped { return; }
      timers := timers.(retry := None);
      if delay.Some? { loss := loss.(attempt := loss.attempt + 1); }
      wire := wire.(outSeq := 0);
      wire := wire.(welcomed := false);
      wire := wire.(parts := None);
      if env.throws {
        Lost(env, None);
        return;
      }
      wire := wire.(ws := Some(wire.made), made := wire.made + 1, sent := []);
      st := st.(trying := delay.Some?, retryAt := None);
    }

    method Gap(env: Spec.Env)
      modifies this
      ensures View() == Spec.Gap(old(View()), env)
    {
      if wire.ws.None? { return; }
      log := log.(epoch := None);
      log := log.(lastSeq := None);
      wire := wire.(ws := None);
      Open(env, None);
    }

    method Back()
      modifies this
      ensures View() == Spec.Back(old(View()))
    {
      if st.status == Spec.Live { return; }
      st := st.(status := Spec.Live, since := None, retryAt := None, trying := false);
    }

    method Down(at: Option<real>)
      modifies this
      ensures View() == Spec.Down(old(View()), at)
    {
      st := st.(status := Spec.RoomDown, since := at);
    }

    method Hand(env: Spec.Env, h: Spec.Handed)
      modifies this
      ensures View() == Spec.Hand(old(View()), env, h)
    {
      log := log.(handed := log.handed + [h]);
      if env.asks(log.handed) { Gap(env); }
    }

    method Ordered(env: Spec.Env, m: Spec.Message)
      modifies this
      ensures View() == Spec.Ordered(old(View()), env, m)
    {
      if log.lastSeq.Some? && m.num <= log.lastSeq.value { return; }
      if log.lastSeq.Some? && m.num != log.lastSeq.value + 1 {
        Gap(env);
        return;
      }
      log := log.(lastSeq := Some(m.num));
      Hand(env, Spec.HEntry(m));
    }

    method ReceiveWelcome(env: Spec.Env, name: Option<string>, replay: bool)
      modifies this
      ensures View() == Spec.ReceiveWelcome(old(View()), env, name, replay)
    {
      wire := wire.(welcomed := true);
      if name.Some? {
        if name != log.epoch { log := log.(lastSeq := None); }
        log := log.(epoch := name);
      }
      timers := timers.(grace := None);
      loss := loss.(lossAt := None, attempt := 0);
      st := st.(refused := None, trying := false, retryAt := None);
      Hand(env, Spec.HWelcome(name));
      if replay && log.drawn { Back(); }
    }

    method ReceiveSnapshot(env: Spec.Env, p: Spec.SnapPart, sock: Spec.Sock)
      modifies this
      ensures View() == Spec.ReceiveSnapshot(old(View()), env, p, sock)
    {
      if wire.parts.None? { wire := wire.(parts := Some(Spec.Parts([], []))); }
      var list, held := wire.parts.value.list + [p], wire.parts.value.held;
      wire := wire.(parts := Some(Spec.Parts(list, held)));
      if p.part != p.parts { return; }
      wire := wire.(parts := None);
      log := log.(lastSeq := p.num);
      Hand(env, Spec.HSnapshot(p.num, Spec.JoinTurns(list)));
      log := log.(drawn := true);
      timers := timers.(snapshot := false);
      Back();
      ghost var drew := View();
      for i := 0 to |held|
        invariant Spec.Release(View(), env, held[i..], sock) == Spec.Release(drew, env, held, sock)
      {
        assert held[i..][1..] == held[i + 1..];
        if wire.ws == Some(sock) { Ordered(env, held[i]); }
      }
    }

    method Receive(env: Spec.Env, f: Spec.Frame, sock: Spec.Sock)
      modifies this
      ensures View() == Spec.Receive(old(View()), env, f, sock)
    {
      match f
      case Welcome(name, replay) => ReceiveWelcome(env, name, replay);
      case Snapshot(p) => ReceiveSnapshot(env, p, sock);
      case Numbered(m) =>
        if wire.parts.Some? {
          wire := wire.(parts := Some(Spec.Parts(wire.parts.value.list, wire.parts.value.held + [m])));
        } else {
          Ordered(env, m);
        }
      case Plain(body) => Hand(env, Spec.HPlain(body));
      case Garbage =>
    }

    method Closed(env: Spec.Env, code: int, reason: string)
      modifies this
      ensures View() == Spec.Closed(old(View()), env, code, reason)
    {
      timers := timers.(silence := false);
      if Spec.NoRetry(code) {
        timers := timers.(retry := None, grace := None, snapshot := false);
        var status := if code == 4401 || code == 4402 || reason == "insecure-origin" then Spec.Unpaired else Spec.RoomDown;
        st := st.(status := status, since := if status == Spec.RoomDown then Some(env.now) else None,
                  refused := Some(Spec.Refusal(code, reason)), trying := false, retryAt := None);
      } else if code == 4503 {
        timers := timers.(grace := None);
        if loss.lossAt.None? { loss := loss.(lossAt := Some(env.now)); }
        st := st.(status := Spec.RoomDown, since := if log.drawn || loss.loadAt.None? then loss.lossAt else loss.loadAt,
                  refused := Some(Spec.Refusal(code, reason)));
        Schedule(env, Spec.TOO_MANY_LINKS_RETRY_MS);
      } else if code == 4429 {
        Lost(env, Some(Spec.TOO_MANY_RETRY_MS));
      } else {
        Lost(env, None);
      }
    }

    method Start(env: Spec.Env)
      modifies this
      ensures View() == Spec.Start(old(View()), env)
      ensures old(View()) == Spec.Fresh ==> Sound(View())
    {
      loss := loss.(loadAt := Some(env.now));
      timers := timers.(snapshot := true);
      if old(View()) == Spec.Fresh { OpenRuns(View(), env, None); }
      Open(env, None);
    }

    method RetryNow(env: Spec.Env) returns (tried: bool)
      requires Sound(View())
      modifies this
      ensures tried == Spec.CanRetryNow(old(View()))
      ensures View() == Spec.RetryNow(old(View()), env)
      ensures Sound(View())
    {
      hide Sound;
      StepSound(View(), env, Spec.CallRetryNow);
      if wire.ws.Some? || timers.retry.None? || (st.refused.Some? && Spec.NoRetry(st.refused.value.code)) { return false; }
      Open(env, Some(0.0));
      return true;
    }

    /** The message's number, or None when it did not go out. */
    method Send(body: string, ready: bool, fails: bool) returns (num: Option<nat>)
      requires Sound(View())
      modifies this
      ensures num == if Spec.CanSend(old(View()), ready) && !fails then Some(old(wire.outSeq) + 1) else None
      ensures View() == Spec.Send(old(View()), body, ready, fails)
      ensures Sound(View())
    {
      hide Sound;
      StepSound(View(), Calm(), Spec.CallSend(body, ready, fails));
      if wire.ws.None? || !wire.welcomed || !ready { return None; }
      wire := wire.(outSeq := wire.outSeq + 1);
      if fails { return None; }
      wire := wire.(sent := wire.sent + [Spec.Screen(wire.outSeq, body)]);
      return Some(wire.outSeq);
    }

    method Stop()
      requires Sound(View())
      modifies this
      ensures View() == Spec.Stop(old(View()))
      ensures Sound(View())
    {
      hide Sound;
      StepSound(View(), Calm(), Spec.CallStop);
      stopped := true;
      timers := timers.(retry := None, grace := None, silence := false, snapshot := false);
      wire := wire.(ws := None);
    }

    method SocketOpened(sock: Spec.Sock)
      requires Sound(View())
      modifies this
      ensures View() == Spec.SocketOpened(old(View()), sock)
      ensures Sound(View())
    {
      hide Sound;
      StepSound(View(), Calm(), Spec.OnOpen(sock));
      if wire.ws != Some(sock) { return; }
      loss := loss.(backoff := Spec.BACKOFF_START_MS);
      wire := wire.(outSeq := wire.outSeq + 1);
      var resume := None;
      if log.epoch.Some? && log.lastSeq.Some? { resume := Some((log.epoch.value, log.lastSeq.value)); }
      wire := wire.(sent := wire.sent + [Spec.Hello(wire.outSeq, resume)]);
      timers := timers.(silence := true);
    }

    method SocketMessage(env: Spec.Env, sock: Spec.Sock, f: Spec.Frame)
      requires Sound(View())
      modifies this
      ensures View() == Spec.SocketMessage(old(View()), env, sock, f)
      ensures Sound(View())
    {
      hide Sound;
      StepSound(View(), env, Spec.OnFrame(sock, f));
      if wire.ws != Some(sock) { return; }
      timers := timers.(silence := true);
      Receive(env, f, sock);
    }

    method SocketClosed(env: Spec.Env, sock: Spec.Sock, code: int, reason: string)
      requires Sound(View())
      modifies this
      ensures View() == Spec.SocketClosed(old(View()), env, sock, code, reason)
      ensures Sound(View())
    {
      hide Sound;
      StepSound(View(), env, Spec.OnClose(sock, code, reason));
      if wire.ws != Some(sock) { return; }
      wire := wire.(ws := None);
      Closed(env, code, reason);
    }

    method SilenceFired(env: Spec.Env)
      requires Sound(View())
      modifies this
      ensures View() == Spec.SilenceFired(old(View()), env)
      ensures Sound(View())
    {
      hide Sound;
      StepSound(View(), env, Spec.OnSilence);
      if !timers.silence { return; }
      timers := timers.(silence := false);
      if wire.ws.None? { return; }
      wire := wire.(ws := None);
      Lost(env, None);
    }

    method GraceFired()
      requires Sound(View())
      modifies this
      ensures View() == Spec.GraceFired(old(View()))
      ensures Sound(View())
    {
      hide Sound;
      StepSound(View(), Calm(), Spec.OnGraceTimer);
      if timers.grace.None? { return; }
      var at := timers.grace;
      timers := timers.(grace := None);
      Down(at);
    }

    method SnapshotWaitFired()
      requires Sound(View())
      modifies this
      ensures View() == Spec.SnapshotWaitFired(old(View()))
      ensures Sound(View())
    {
      hide Sound;
      StepSound(View(), Calm(), Spec.OnSnapshotWait);
      if !timers.snapshot { return; }
      timers := timers.(snapshot := false);
      if !log.drawn && st.status == Spec.Connecting { Down(loss.loadAt); }
    }

    method RetryFired(env: Spec.Env)
      requires Sound(View())
      modifies this
      ensures View() == Spec.RetryFired(old(View()), env)
      ensures Sound(View())
    {
      hide Sound;
      StepSound(View(), env, Spec.OnRetryTimer);
      if timers.retry.None? { return; }
      var ms := timers.retry;
      timers := timers.(retry := None);
      Open(env, ms);
    }

    /** One event, dispatched to its handler. */
    method On(env: Spec.Env, ev: Spec.Event)
      requires Sound(View())
      modifies this
      ensures View() == Spec.Step(old(View()), env, ev)
      ensures Sound(View())
    {
      hide Sound;
      StepSound(View(), env, ev);
      match ev
      case OnOpen(sock) => SocketOpened(sock);
      case OnFrame(sock, f) => SocketMessage(env, sock, f);
      case OnClose(sock, code, reason) => SocketClosed(env, sock, code, reason);
      case OnRetryTimer => RetryFired(env);
      case OnGraceTimer => GraceFired();
      case OnSilence => SilenceFired(env);
      case OnSnapshotWait => SnapshotWaitFired();
      case CallRetryNow => var _ := RetryNow(env);
      case CallGap => Gap(env);
      case CallSend(body, ready, fails) => var _ := Send(body, ready, fails);
      case CallStop => Stop();
    }
  }

  /** A whole run of a link: the object ends where `After` says, holding exactly one of a socket and a retry timer. */
  method RunLink(first: Spec.Env, run: seq<(Spec.Env, Spec.Event)>) returns (link: RoomLink)
    ensures fresh(link) && link.View() == Spec.After(first, run) && Sound(link.View())
    ensures !link.stopped && !Ended(link.View()) ==> link.wire.ws.Some? != link.timers.retry.Some?
    ensures link.st.status == Spec.Live ==> link.log.drawn
  {
    link := new RoomLink();
    link.Start(first);
    assert run[..0] == [];
    for i := 0 to |run|
      invariant fresh(link) && link.View() == Spec.After(first, run[..i]) && Sound(link.View())
    {
      assert run[..i + 1][..i] == run[..i];
      link.On(run[i].0, run[i].1);
    }
    assert run[..|run|] == run;
  }
}
