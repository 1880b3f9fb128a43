/** What one builder's record keeps: its caps, its event rate, and that routing fields never matter. */
module StoreLaws {
  import opened Options
  import opened Keys
  import opened Triggers
  import opened StoreSpec

  // ---- Caps

  /** The record is within every cap, and its sessions are stamped and filed under their own names. */
  ghost predicate WellHeld(id: string, h: Held) {
    && |h.sessions| <= 500 && |h.lanes| <= 200 && |h.attention| <= 200 && |h.approvals| <= 100 && |h.repos| <= 64
    && FiledByName(id, h.sessions)
  }

  ghost predicate FiledByName(id: string, m: map<string, Record>) {
    forall n {:trigger Look(n)} :: Look(n) && n in m ==> n != [] && StampedSession(id, n, m[n])
  }

  ghost predicate StampedSession(id: string, n: string, s: Record) {
    && NameOf(s) == n
    && Field(s, "builder") == Some(JStr(id)) && Field(s, "key") == Some(JStr(Fkey(id, n)))
  }

  lemma StampSessionOk(id: string, raw: Json)
    ensures var v := Stamp(KSession, id, raw);
            v.Some? ==> NameOf(v.value) != [] && StampedSession(id, NameOf(v.value), v.value)
  {
  }

  lemma {:induction false} StampAllOk(id: string, raws: seq<Json>)
    ensures forall i :: 0 <= i < |StampAll(KSession, id, raws, None).0| ==>
              var s := StampAll(KSession, id, raws, None).0[i]; NameOf(s) != [] && StampedSession(id, NameOf(s), s)
  {
    if raws != [] {
      StampAllOk(id, raws[..|raws| - 1]);
      StampSessionOk(id, raws[|raws| - 1]);
    }
  }

  lemma {:induction false} KeepSessionsOk(id: string, list: seq<Record>)
    requires forall i :: 0 <= i < |list| ==> NameOf(list[i]) != [] && StampedSession(id, NameOf(list[i]), list[i])
    ensures |KeepSessions(list).0| <= MAX_SESSIONS && FiledByName(id, KeepSessions(list).0)
  {
    if list != [] { KeepSessionsOk(id, list[..|list| - 1]); }
  }

  lemma {:induction false} UpsertsOk(id: string, m0: map<string, Record>, list: seq<Record>, leaving: nat)
    requires FiledByName(id, m0)
    requires forall i :: 0 <= i < |list| ==> NameOf(list[i]) != [] && StampedSession(id, NameOf(list[i]), list[i])
    requires |m0| <= MAX_SESSIONS + leaving
    ensures var m := Upserts(m0, list, leaving).0;
            |m| <= MAX_SESSIONS + leaving && FiledByName(id, m) && m0.Keys <= m.Keys
  {
    if list != [] { UpsertsOk(id, m0, list[..|list| - 1], leaving); }
  }

  /** Removing at least `leaving` of the names brings the count back by as many. */
  lemma RemovalsMakeRoom(keys: set<string>, gone: set<string>, leaving: set<string>)
    requires leaving <= keys * gone
    ensures |keys - gone| + |leaving| <= |keys|
  {
    CardSubset(leaving, keys * gone);
    assert keys == (keys - gone) + (keys * gone);
  }

  /** The upserts may pass the cap by the sessions that leave; the removals bring the count back under it. */
  lemma DeltaWithinCap(id: string, b: Builder, msg: Record)
    requires WellHeld(id, b.held)
    ensures WellHeld(id, DeltaSessions(id, b, msg).0.held)
  {
    var gone := RemovedNames(ListField(msg, "removed"));
    var leaving := gone * b.held.sessions.Keys;
    var list := StampAll(KSession, id, ListField(msg, "sessions"), None).0;
    StampAllOk(id, ListField(msg, "sessions"));
    UpsertsOk(id, b.held.sessions, list, |leaving|);
    var m := Upserts(b.held.sessions, list, |leaving|).0;
    assert (m - gone).Keys == m.Keys - gone;
    RemovalsMakeRoom(m.Keys, gone, leaving);
  }

  lemma {:induction false} CardSubset(a: set<string>, b: set<string>)
    requires a <= b
    ensures |a| <= |b|
  {
    assert b == a + (b - a);
  }

  /** The cap is passed only in between: a delta that removes one of 500 sessions may add one first. */
  lemma UpsertsMayPassTheCap(m0: map<string, Record>, s: Record)
    requires |m0| == MAX_SESSIONS && NameOf(s) !in m0
    ensures |Upserts(m0, [s], 1).0| == MAX_SESSIONS + 1
    ensures Upserts(m0, [s], 0) == (m0, 1, [])
  {
    assert [s][..0] == [];
    assert Upserts(m0, [], 1) == (m0, 0, []);
    assert Upserts(m0, [], 0) == (m0, 0, []);
  }

  lemma {:induction false} KeepApprovalsOk(list: seq<Record>)
    ensures |KeepApprovals(list).0| <= MAX_APPROVALS
  {
    if list != [] { KeepApprovalsOk(list[..|list| - 1]); }
  }

  lemma CommonWellHeld(id: string, b: Builder, msg: Record)
    requires WellHeld(id, b.held)
    ensures WellHeld(id, ApplyCommon(id, b, msg).held)
    ensures ApplyCommon(id, b, msg).held.sessions == b.held.sessions
  {
    KeepApprovalsOk(StampAll(KApproval, id, ListField(msg, "approvals"), None).0);
  }

  lemma StuckWellHeld(id: string, b: Builder, msg: Record)
    requires WellHeld(id, b.held)
    ensures WellHeld(id, ScopedStuck(b, msg).b.held)
  {
    if ValidName(msg, "name") && msg["name"].s in b.held.sessions {
      var n := msg["name"].s;
      assert Look(n);
    }
  }

  /** Every message keeps a builder's record within its caps and its sessions filed under their stamped names. */
  lemma ScopedWellHeld(id: string, b: Builder, msg: Record, now: int)
    requires WellHeld(id, b.held)
    ensures WellHeld(id, ScopedStep(id, b, msg, now).b.held)
  {
    match ScopeOf(msg)
    case SSnapshot =>
      StampAllOk(id, ListField(msg, "sessions"));
      KeepSessionsOk(id, StampAll(KSession, id, ListField(msg, "sessions"), None).0);
      CommonWellHeld(id, SnapshotSessions(id, b, msg), msg);
    case SDelta =>
      DeltaWithinCap(id, b, msg);
      CommonWellHeld(id, DeltaSessions(id, b, msg).0, msg);
    case SStuck => StuckWellHeld(id, b, msg);
    case _ =>
  }

  /** A snapshot's sessions are filed under their names, within the cap, and its other fields leave them alone. */
  lemma SnapshotHeld(id: string, b: Builder, msg: Record)
    requires WellHeld(id, b.held)
    ensures WellHeld(id, ScopedSnapshot(id, b, msg).b.held)
    ensures ScopedSnapshot(id, b, msg).b.held.sessions ==
            KeepSessions(StampAll(KSession, id, ListField(msg, "sessions"), None).0).0
  {
    SnapshotNamed(id, msg);
    CommonWellHeld(id, SnapshotSessions(id, b, msg), msg);
  }

  lemma DeltaHeld(id: string, b: Builder, msg: Record)
    requires WellHeld(id, b.held)
    ensures WellHeld(id, ScopedDelta(id, b, msg).b.held)
    ensures ScopedDelta(id, b, msg).b.held.sessions == DeltaSessions(id, b, msg).0.held.sessions
    ensures ScopedDelta(id, b, msg).b == ApplyCommon(id, DeltaSessions(id, b, msg).0, msg)
  {
    DeltaWithinCap(id, b, msg);
    CommonWellHeld(id, DeltaSessions(id, b, msg).0, msg);
  }

  /** Event, health, approval and repos messages touch nothing that is indexed or derived. */
  lemma OtherLeavesAlone(id: string, b: Builder, msg: Record, now: int)
    requires ScopeOf(msg) in {SEvent, SHealth, SApproval, SRepos, SOther}
    ensures var r := ScopedStep(id, b, msg, now).b;
            && r.held.sessions == b.held.sessions && r.held.lanes == b.held.lanes
            && r.held.attention == b.held.attention && r.info.status == b.info.status
  {
  }

  lemma SnapshotNamed(id: string, msg: Record)
    ensures var m := KeepSessions(StampAll(KSession, id, ListField(msg, "sessions"), None).0).0;
            |m| <= MAX_SESSIONS && FiledByName(id, m)
  {
    StampAllOk(id, ListField(msg, "sessions"));
    KeepSessionsOk(id, StampAll(KSession, id, ListField(msg, "sessions"), None).0);
  }

  // ---- The event window

  /** The windows and accepted times after offering events at `times`. */
  function Offer(times: seq<int>): (Window, seq<int>) {
    if times == [] then (Window(0, 0), [])
    else
      var (w, taken) := Offer(times[..|times| - 1]);
      var t := times[|times| - 1];
      var (w1, ok) := AllowEvent(w, t);
      (w1, if ok then taken + [t] else taken)
  }

  ghost predicate Clock(times: seq<int>) { forall i, j :: 0 <= i <= j < |times| ==> times[i] <= times[j] }

  /** Two windows: the last n were taken in this one, at most 20 before them less than a window ago. */
  ghost predicate Spaced(w: Window, taken: seq<int>) {
    && w.n <= EVENTS_PER_WINDOW && w.n <= |taken|
    && (forall i :: 0 <= i < |taken| - w.n ==> taken[i] < w.start)
    && (forall i :: 0 <= i < |taken| ==> taken[i] < w.start + WINDOW_MS)
    && (forall i :: 0 <= i < |taken| - w.n - EVENTS_PER_WINDOW ==> taken[i] + WINDOW_MS <= w.start)
    && (forall i :: 0 <= i < |taken| - 2 * EVENTS_PER_WINDOW ==> taken[i] + WINDOW_MS <= taken[i + 2 * EVENTS_PER_WINDOW])
  }

  lemma SpacedStep(w: Window, taken: seq<int>, now: int)
    requires Spaced(w, taken) && Clock(taken)
    requires taken != [] ==> w.start <= now && taken[|taken| - 1] <= now
    ensures var (w1, ok) := AllowEvent(w, now);
            var taken1 := if ok then taken + [now] else taken;
            Spaced(w1, taken1) && Clock(taken1) && w1.start <= now
  {
  }

  lemma {:induction false} OfferSpaced(times: seq<int>)
    requires Clock(times)
    ensures var (w, taken) := Offer(times);
            && Spaced(w, taken) && Clock(taken)
            && (times != [] ==> w.start <= times[|times| - 1])
            && (taken != [] ==> times != [] && taken[|taken| - 1] <= times[|times| - 1])
  {
    if times != [] {
      var before := times[..|times| - 1];
      OfferSpaced(before);
      var (w, taken) := Offer(before);
      SpacedStep(w, taken, times[|times| - 1]);
    }
  }

  function CountIn(taken: seq<int>, from: int): nat {
    if taken == [] then 0
    else CountIn(taken[..|taken| - 1], from) + (if from <= taken[|taken| - 1] < from + 1000 then 1 else 0)
  }

  /** An interval holds at most the last 40 of what is in it: those before are more than a window older. */
  lemma {:induction false} CountBound(taken: seq<int>, from: int)
    requires Clock(taken)
    requires forall i :: 0 <= i < |taken| - 2 * EVENTS_PER_WINDOW ==> taken[i] + WINDOW_MS <= taken[i + 2 * EVENTS_PER_WINDOW]
    ensures CountIn(taken, from) <= 40
    ensures |taken| <= 40 ==> CountIn(taken, from) <= |taken|
  {
    if taken != [] {
      var before := taken[..|taken| - 1];
      CountBound(before, from);
      var last := taken[|taken| - 1];
      if |taken| > 2 * EVENTS_PER_WINDOW && from <= last < from + WINDOW_MS {
        var k := |taken| - 1 - 2 * EVENTS_PER_WINDOW;
        assert taken[k] + WINDOW_MS <= last;
        CountLate(before, from, k + 1);
      }
    }
  }

  /** When the first k times are before the interval, at most the rest are in it. */
  lemma {:induction false} CountLate(taken: seq<int>, from: int, k: nat)
    requires k <= |taken| && forall i :: 0 <= i < k ==> taken[i] < from
    ensures CountIn(taken, from) <= |taken| - k
  {
    if taken != [] {
      if k == |taken| {
        CountLate(taken[..|taken| - 1], from, k - 1);
      } else {
        CountLate(taken[..|taken| - 1], from, k);
      }
    }
  }

  /** With a clock that does not run back, at most 40 events are taken in any half-open interval of one second. */
  lemma EventRate(times: seq<int>, from: int)
    requires Clock(times)
    ensures CountIn(Offer(times).1, from) <= 40
  {
    OfferSpaced(times);
    CountBound(Offer(times).1, from);
  }

  // ---- Routing fields a builder sends never matter

  function EraseRecord(raw: Json): Json { if raw.JObj? then JObj(StripRouting(raw.fields)) else raw }

  function EraseList(items: seq<Json>): (r: seq<Json>)
    ensures |r| == |items| && forall i :: 0 <= i < |items| ==> r[i] == EraseRecord(items[i])
  {
    if items == [] then [] else EraseList(items[..|items| - 1]) + [EraseRecord(items[|items| - 1])]
  }

  const RECORD_LISTS: set<string> := {"sessions", "lanes", "attention", "approvals"}
  const RECORDS: set<string> := {"event", "approval"}

  function EraseField(k: string, v: Json): Json {
    if k in RECORD_LISTS && v.JArr? then JArr(EraseList(v.items))
    else if k in RECORDS then EraseRecord(v)
    else v
  }

  /** The message with every routing field taken out of its session, lane, attention, approval and event records. */
  function Erased(msg: Record): Record { map k | k in msg :: EraseField(k, msg[k]) }

  lemma StampErased(kind: Kind, id: string, raw: Json)
    ensures Stamp(kind, id, EraseRecord(raw)) == Stamp(kind, id, raw)
  {
    if raw.JObj? {
      var o := raw.fields;
      var e := StripRouting(o);
      assert StripRouting(e) == e;
      assert "name" !in ROUTING_FIELDS && "lane" !in ROUTING_FIELDS && "id" !in ROUTING_FIELDS;
      assert ValidName(e, "name") == ValidName(o, "name") && ValidName(e, "lane") == ValidName(o, "lane");
      assert ValidName(e, "id") == ValidName(o, "id");
    }
  }

  lemma {:induction false} StampAllErased(kind: Kind, id: string, raws: seq<Json>, max: Option<nat>)
    ensures StampAll(kind, id, EraseList(raws), max) == StampAll(kind, id, raws, max)
  {
    if raws != [] {
      var e := EraseList(raws);
      assert e[..|e| - 1] == EraseList(raws[..|raws| - 1]);
      StampAllErased(kind, id, raws[..|raws| - 1], max);
      StampErased(kind, id, raws[|raws| - 1]);
    }
  }

  lemma ListErased(kind: Kind, id: string, msg: Record, k: string, max: Option<nat>)
    requires k in RECORD_LISTS
    ensures StampAll(kind, id, ListField(Erased(msg), k), max) == StampAll(kind, id, ListField(msg, k), max)
    ensures HasList(Erased(msg), k) == HasList(msg, k)
    ensures (k in Erased(msg) && Truthy(Erased(msg)[k])) == (k in msg && Truthy(msg[k]))
  {
    StampAllErased(kind, id, ListField(msg, k), max);
  }

  lemma FieldErased(msg: Record, k: string)
    requires k !in RECORD_LISTS && k !in RECORDS
    ensures (k in Erased(msg)) == (k in msg) && (k in msg ==> Erased(msg)[k] == msg[k])
  {
  }

  lemma CommonErased(id: string, b: Builder, msg: Record)
    ensures ApplyCommon(id, b, Erased(msg)) == ApplyCommon(id, b, msg)
  {
    ListErased(KLane, id, msg, "lanes", Some(MAX_LANES));
    ListErased(KAttention, id, msg, "attention", Some(MAX_ATTENTION));
    ListErased(KApproval, id, msg, "approvals", None);
    assert CommonLanes(id, b, Erased(msg)) == CommonLanes(id, b, msg);
    DataErased(ApplyCommon(id, b, msg).data, msg);
  }

  lemma DataErased(data: Data, msg: Record)
    ensures forall d: Data {:trigger CommonData(d, msg)} :: CommonData(d, Erased(msg)) == CommonData(d, msg)
    ensures forall i: Info {:trigger CommonInfo(i, msg)} :: CommonInfo(i, Erased(msg)) == CommonInfo(i, msg)
  {
    FieldErased(msg, "vitals");
    FieldErased(msg, "box");
    FieldErased(msg, "generatedAt");
    FieldErased(msg, "health");
    FieldErased(msg, "budget");
    FieldErased(msg, "stale");
    FieldErased(msg, "ageMs");
  }

  lemma SessionsErased(id: string, b: Builder, msg: Record)
    ensures SnapshotSessions(id, b, Erased(msg)) == SnapshotSessions(id, b, msg)
    ensures DeltaSessions(id, b, Erased(msg)) == DeltaSessions(id, b, msg)
  {
    hide Erased, StampAll, KeepSessions, DeltaFrom;
    ListErased(KSession, id, msg, "sessions", None);
    FieldErased(msg, "removed");
    assert ListField(Erased(msg), "removed") == ListField(msg, "removed");
  }

  lemma ApprovalErased(id: string, b: Builder, msg: Record)
    ensures ScopedApproval(id, b, Erased(msg)) == ScopedApproval(id, b, msg)
  {
    if "approval" in msg { StampErased(KApproval, id, msg["approval"]); }
    FieldErased(msg, "op");
  }

  lemma EventErased(id: string, b: Builder, msg: Record, now: int)
    ensures ScopedEvent(id, b, Erased(msg), now) == ScopedEvent(id, b, msg, now)
  {
    if "event" in msg && msg["event"].JObj? {
      var o := msg["event"].fields;
      assert StripRouting(StripRouting(o)) == StripRouting(o);
      assert "session_name" !in ROUTING_FIELDS;
      assert StampEvent(id, StripRouting(o)) == StampEvent(id, o);
    }
  }

  /**
    Erasure: a builder-scoped message does exactly what it does without any `key`,
    `laneKey`, `builder` or `fkey` in its records: same record, same answer.
  */
  lemma RoutingFieldsIgnored(id: string, b: Builder, msg: Record, now: int)
    ensures ScopedStep(id, b, Erased(msg), now) == ScopedStep(id, b, msg, now)
  {
    FieldErased(msg, "type");
    assert ScopeOf(Erased(msg)) == ScopeOf(msg);
    match ScopeOf(msg)
    case SSnapshot =>
      SessionsErased(id, b, msg);
      CommonErased(id, SnapshotSessions(id, b, msg), msg);
    case SDelta =>
      SessionsErased(id, b, msg);
      CommonErased(id, DeltaSessions(id, b, msg).0, msg);
      ListErased(KSession, id, msg, "sessions", None);
    case SEvent => EventErased(id, b, msg, now);
    case SApproval => ApprovalErased(id, b, msg);
    case SHealth => FieldErased(msg, "health");
    case SStuck =>
      FieldErased(msg, "name");
      FieldErased(msg, "stuck");
    case SRepos =>
      FieldErased(msg, "repo");
      FieldErased(msg, "data");
    case SOther =>
  }
}
