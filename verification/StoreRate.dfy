/**
  How many events a run of the store accepts (public/js/core/store.js: `allowEvent`): of one
  record, and of one builder whose record may leave and be made again.
*/
module StoreRate {
  import opened Options
  import opened Keys
  import opened StoreSpec
  import opened StoreDerived
  import opened StoreModes
  import opened StoreLaws
  import opened StoreRun

  // ---- What a run accepts

  /** The operation's answer is an accepted event of builder `id`. */
  predicate Accepts(d: Desk, op: Op, id: string) {
    op.OIngest? && AcceptedBy(Answer(d, op.msg, op.now)) == Some(id)
  }

  function AcceptedBy(answer: Option<Change>): Option<string> {
    if answer.Some? && answer.value.CScoped? && answer.value.out.OEvent? then Some(answer.value.id) else None
  }

  /** The operation makes a record for `id`, which had none. */
  predicate Makes(d: Desk, op: Op, id: string) { id !in d.fleet && id in Step(d, op).fleet }

  predicate Inside(t: int, from: int) { from <= t < from + 1000 }

  /** When the run accepted events of `id`. */
  function Taken(d: Desk, ops: seq<Op>, id: string): seq<int> {
    if ops == [] then []
    else
      var n := |ops| - 1;
      Taken(d, ops[..n], id) + (if Accepts(After(d, ops[..n]), ops[n], id) then [ops[n].now] else [])
  }

  /** When it accepted events of `id` since the record it holds now was made. */
  function Current(d: Desk, ops: seq<Op>, id: string): seq<int> {
    if ops == [] then []
    else
      var n := |ops| - 1;
      var at := After(d, ops[..n]);
      (if id in at.fleet then Current(d, ops[..n], id) else []) + (if Accepts(at, ops[n], id) then [ops[n].now] else [])
  }

  /** The times of `id` among accepted events. */
  function TimesOf(accepted: seq<(string, int)>, id: string): seq<int> {
    if accepted == [] then []
    else
      var last := accepted[|accepted| - 1];
      TimesOf(accepted[..|accepted| - 1], id) + (if last.0 == id then [last.1] else [])
  }

  lemma TimesMoreOf(accepted: seq<(string, int)>, last: (string, int), id: string)
    ensures TimesOf(accepted + [last], id) == TimesOf(accepted, id) + (if last.0 == id then [last.1] else [])
  {
    assert (accepted + [last])[..|accepted|] == accepted;
  }

  /** How often the run made a record of `id` in the second from `from` on. */
  function MadeIn(d: Desk, ops: seq<Op>, id: string, from: int): nat {
    if ops == [] then 0
    else
      var n := |ops| - 1;
      MadeIn(d, ops[..n], id, from)
      + (if ops[n].OIngest? && Makes(After(d, ops[..n]), ops[n], id) && Inside(ops[n].now, from) then 1 else 0)
  }

  /** `accepted` lists the run's accepted events; `taken` has, for every record, those accepted since it was made. */
  ghost predicate Counted(d: Desk, ops: seq<Op>, accepted: seq<(string, int)>, taken: map<string, seq<int>>) {
    && (forall id :: TimesOf(accepted, id) == Taken(d, ops, id))
    && taken.Keys == After(d, ops).fleet.Keys
    && (forall id :: id in taken ==> taken[id] == Current(d, ops, id))
  }

  function NextAccepted(accepted: seq<(string, int)>, op: Op, answer: Option<Change>): seq<(string, int)> {
    if op.OIngest? && AcceptedBy(answer).Some? then accepted + [(AcceptedBy(answer).value, op.now)] else accepted
  }

  ghost function NextTaken(taken: map<string, seq<int>>, d: Desk, op: Op): map<string, seq<int>> {
    map id | id in Step(d, op).fleet :: (if id in taken then taken[id] else []) + (if Accepts(d, op, id) then [op.now] else [])
  }

  lemma NothingCounted(d: Desk)
    ensures Counted(d, [], [], map id | id in d.fleet :: [])
  {
  }

  lemma CountedOne(d: Desk, ops: seq<Op>, op: Op, accepted: seq<(string, int)>, taken: map<string, seq<int>>, answer: Option<Change>)
    requires Counted(d, ops, accepted, taken) && (op.OIngest? ==> answer == Answer(After(d, ops), op.msg, op.now))
    ensures Counted(d, ops + [op], NextAccepted(accepted, op, answer), NextTaken(taken, After(d, ops), op))
  {
    hide Answer, AcceptedBy, Step;
    AfterOne(d, ops, op);
    assert (ops + [op])[..|ops|] == ops;
    if op.OIngest? && AcceptedBy(answer).Some? {
      forall id ensures TimesOf(accepted + [(AcceptedBy(answer).value, op.now)], id) == Taken(d, ops + [op], id) {
        TimesMoreOf(accepted, (AcceptedBy(answer).value, op.now), id);
      }
    }
  }

  /** The clock does not run back. */
  ghost predicate InTime(ops: seq<Op>) {
    forall i, j :: 0 <= i <= j < |ops| && ops[i].OIngest? && ops[j].OIngest? ==> ops[i].now <= ops[j].now
  }

  /** No message is later than t. */
  ghost predicate Until(ops: seq<Op>, t: int) { forall i :: 0 <= i < |ops| && ops[i].OIngest? ==> ops[i].now <= t }

  /** The clock counts from 0. */
  ghost predicate FromZero(ops: seq<Op>) { forall i :: 0 <= i < |ops| && ops[i].OIngest? ==> 0 <= ops[i].now }

  // ---- One operation and one window

  function WindowOf(d: Desk, id: string): Window { if id in d.fleet then d.fleet[id].window else Window(0, 0) }

  predicate IsEvent(msg: Record) { ScopeOf(msg) == SEvent && "event" in msg && (msg["event"].JObj? || msg["event"].JArr?) }

  predicate EventFor(d: Desk, op: Op, id: string) {
    op.OIngest? && TopOf(op.msg) == TScoped && RouteTo(d.kind, d.Local(), op.msg) == Some(id) && IsEvent(op.msg)
  }

  /** Only an event that is one asks the window; every other message leaves it alone and accepts nothing. */
  lemma OnlyEventsAsk(id: string, b: Builder, msg: Record, now: int)
    ensures var sc := ScopedStep(id, b, msg, now);
            var (w, ok) := AllowEvent(b.window, now);
            && Heard(sc, now).window == (if IsEvent(msg) then w else b.window)
            && (IsEvent(msg) ==> sc.touched)
            && ((sc.out.Some? && sc.out.value.OEvent?) <==> IsEvent(msg) && ok)
  {
    hide StampAll, KeepSessions, Upserts, KeepApprovals, StampEvent;
  }

  lemma {:induction false} RowsWindow(start: BuilderStatus, fleet: Fleet, list: seq<Json>, id: string)
    ensures id in fleet ==> id in AfterRows(start, fleet, list)
    ensures id in AfterRows(start, fleet, list) ==>
              AfterRows(start, fleet, list)[id].window == if id in fleet then fleet[id].window else Window(0, 0)
  {
    hide RowId, RowIds, RowInfo;
    if list != [] { RowsWindow(start, fleet, list[..|list| - 1], id); }
  }

  /** An operation asks the window of `id` with an event of `id`, and leaves the window of a record that stays alone otherwise. */
  lemma WindowStep(d: Desk, op: Op, id: string)
    ensures var d' := Step(d, op);
            if EventFor(d, op, id) then
              var (w, ok) := AllowEvent(WindowOf(d, id), op.now);
              id in d'.fleet && WindowOf(d', id) == w && (Accepts(d, op, id) <==> ok)
            else
              !Accepts(d, op, id) && (id in d'.fleet ==> WindowOf(d', id) == WindowOf(d, id))
    ensures Makes(d, op, id) ==> op.OIngest?
  {
    hide ScopedStep, AfterRows, RowIds, HelloId, HelloInfo, RouteTo, IsEvent, AllowEvent, Heard;
    if op.OIngest? {
      RowsWindow(d.Start(), d.fleet, ListField(op.msg, "builders"), id);
      var to := RouteTo(d.kind, d.Local(), op.msg);
      if to.Some? { OnlyEventsAsk(to.value, d.RecordOf(to.value), op.msg, op.now); }
    }
  }

  // ---- One record

  /** The record of `id` and what the run accepted of it since it was made. */
  ghost predicate Tracked(d: Desk, taken: seq<int>, id: string, t: int) {
    id in d.fleet ==>
      && Spaced(d.fleet[id].window, taken) && Clock(taken)
      && (taken != [] ==> d.fleet[id].window.start <= t && taken[|taken| - 1] <= t)
  }

  lemma TrackedStep(d: Desk, taken: seq<int>, id: string, op: Op, t: int)
    requires Tracked(d, taken, id, t) && (op.OIngest? ==> t <= op.now)
    ensures var before := if id in d.fleet then taken else [];
            Tracked(Step(d, op), before + (if Accepts(d, op, id) then [op.now] else []), id, if op.OIngest? then op.now else t)
  {
    hide Step, Accepts, TopOf, RouteTo, IsEvent, AllowEvent, Spaced, Clock;
    WindowStep(d, op, id);
    var before := if id in d.fleet then taken else [];
    assert before + [] == before;
    if id !in d.fleet { NothingSpaced(); }
    if EventFor(d, op, id) {
      SpacedStep(WindowOf(d, id), before, op.now);
      LastTaken(before, op.now);
    }
  }

  lemma NothingSpaced()
    ensures Spaced(Window(0, 0), []) && Clock([])
  {
  }

  lemma LastTaken(before: seq<int>, now: int)
    ensures (before + [now])[|before + [now]| - 1] == now
  {
  }

  lemma HeadInTime(ops: seq<Op>, t: int)
    requires ops != [] && InTime(ops) && Until(ops, t)
    ensures var n := |ops| - 1; var s := if ops[n].OIngest? then ops[n].now else t;
            InTime(ops[..n]) && Until(ops[..n], s) && s <= t
    ensures FromZero(ops) ==> FromZero(ops[..|ops| - 1])
  {
    var n := |ops| - 1;
    assert forall i :: 0 <= i < n ==> ops[..n][i] == ops[i];
  }


  lemma {:induction false} RunTracked(d: Desk, ops: seq<Op>, id: string, t: int)
    requires d.fleet == map[] && InTime(ops) && Until(ops, t)
    ensures Tracked(After(d, ops), Current(d, ops, id), id, t)
  {
    if ops != [] {
      hide Step, Accepts, Tracked;
      HeadInTime(ops, t);
      var n := |ops| - 1;
      var s := if ops[n].OIngest? then ops[n].now else t;
      RunTracked(d, ops[..n], id, s);
      TrackedStep(After(d, ops[..n]), Current(d, ops[..n], id), id, ops[n], s);
    }
  }

  lemma {:induction false} LastTime(ops: seq<Op>) returns (t: int)
    ensures Until(ops, t)
  {
    t := 0;
    if ops != [] {
      var n := |ops| - 1;
      t := LastTime(ops[..n]);
      if ops[n].OIngest? && ops[n].now > t { t := ops[n].now; }
      forall i | 0 <= i < |ops| && ops[i].OIngest? ensures ops[i].now <= t { if i < n { assert ops[..n][i] == ops[i]; } }
    }
  }

  /** Whatever feeds the store: of every record that it holds, at most 40 events were accepted in any half-open second. */
  lemma RecordRate(d: Desk, ops: seq<Op>, id: string, from: int)
    requires d.fleet == map[] && InTime(ops) && id in After(d, ops).fleet
    ensures CountIn(Current(d, ops, id), from) <= 40
  {
    var t := LastTime(ops);
    RunTracked(d, ops, id, t);
    CountBound(Current(d, ops, id), from);
  }

  // ---- One builder

  /**
    c accepted in the second from `from` on, k records made in it, window w, `n` of it used up (all of it while there is no
    record). Either one window a record was all, or one record had a second one, or the second is over.
  */
  ghost predicate Room(c: int, k: int, n: int, w: Window, from: int, last: int) {
    && 0 <= k && w.n <= n <= EVENTS_PER_WINDOW && 0 <= w.start <= last
    && (last < from ==> c == 0)
    && (|| c <= EVENTS_PER_WINDOW * k + n
        || (c <= EVENTS_PER_WINDOW * (k + 1) + n && last >= from && last >= WINDOW_MS && (w.start >= from || w == Window(0, 0)))
        || (c <= EVENTS_PER_WINDOW * (k + 2) && last >= from + WINDOW_MS))
  }

  lemma RoomEvent(c: int, k: int, w: Window, from: int, last: int, now: int)
    requires Room(c, k, w.n, w, from, last) && last <= now
    ensures var (w1, ok) := AllowEvent(w, now);
            Room(c + (if ok && Inside(now, from) then 1 else 0), k, w1.n, w1, from, now)
  {
  }

  lemma RoomMade(c: int, k: int, from: int, last: int, now: int)
    requires Room(c, k, EVENTS_PER_WINDOW, Window(0, 0), from, last) && last <= now
    ensures Room(c, k + (if Inside(now, from) then 1 else 0), 0, Window(0, 0), from, now)
  {
  }

  lemma RoomLater(c: int, k: int, n: int, w: Window, from: int, last: int, now: int)
    requires Room(c, k, n, w, from, last) && last <= now
    ensures Room(c, k, n, w, from, now) && Room(c, k, EVENTS_PER_WINDOW, Window(0, 0), from, now)
  {
  }

  function Used(d: Desk, id: string): nat { if id in d.fleet then d.fleet[id].window.n else EVENTS_PER_WINDOW }

  lemma RoomStep(d: Desk, op: Op, id: string, c: nat, k: nat, from: int, last: int)
    requires Room(c, k, Used(d, id), WindowOf(d, id), from, last) && (op.OIngest? ==> last <= op.now)
    ensures var d' := Step(d, op);
            Room(c + (if Accepts(d, op, id) && Inside(op.now, from) then 1 else 0),
                 k + (if op.OIngest? && Makes(d, op, id) && Inside(op.now, from) then 1 else 0),
                 Used(d', id), WindowOf(d', id), from, if op.OIngest? then op.now else last)
  {
    hide Step, Accepts, TopOf, RouteTo, IsEvent, AllowEvent, Room;
    WindowStep(d, op, id);
    var t := if op.OIngest? then op.now else last;
    RoomLater(c, k, Used(d, id), WindowOf(d, id), from, last, t);
    var k' := k + (if op.OIngest? && Makes(d, op, id) && Inside(op.now, from) then 1 else 0);
    if Makes(d, op, id) { RoomMade(c, k, from, last, op.now); }
    if EventFor(d, op, id) { RoomEvent(c, k', WindowOf(d, id), from, t, op.now); }
  }

  lemma CountMore(taken: seq<int>, now: int, from: int)
    ensures CountIn(taken + [now], from) == CountIn(taken, from) + (if Inside(now, from) then 1 else 0)
  {
    assert (taken + [now])[..|taken|] == taken;
  }

  lemma {:induction false} RunRoom(d: Desk, ops: seq<Op>, id: string, from: int, t: int)
    requires d.fleet == map[] && InTime(ops) && FromZero(ops) && Until(ops, t) && t >= 0
    ensures var at := After(d, ops);
            Room(CountIn(Taken(d, ops, id), from), MadeIn(d, ops, id, from), Used(at, id), WindowOf(at, id), from, t)
  {
    if ops != [] {
      hide Step, Accepts, Room, Makes, CountIn;
      HeadInTime(ops, t);
      var n := |ops| - 1;
      var s := if ops[n].OIngest? then ops[n].now else t;
      RunRoom(d, ops[..n], id, from, s);
      var at, taken, k := After(d, ops[..n]), Taken(d, ops[..n], id), MadeIn(d, ops[..n], id, from);
      RoomStep(at, ops[n], id, CountIn(taken, from), k, from, s);
      if Accepts(at, ops[n], id) { CountMore(taken, ops[n].now, from); }
      assert taken + [] == taken;
    }
  }

  /** Of one builder at most 40 events are accepted in any half-open second, and 20 more for every record of it made in that second. */
  lemma BuilderRate(d: Desk, ops: seq<Op>, id: string, from: int)
    requires d.fleet == map[] && InTime(ops) && FromZero(ops)
    ensures CountIn(Taken(d, ops, id), from) <= 40 + 20 * MadeIn(d, ops, id, from)
  {
    var t := LastTime(ops);
    RunRoom(d, ops, id, from, if t < 0 then 0 else t);
  }

  /** What the two bounds say of what a run counted. */
  lemma CountedRates(d: Desk, ops: seq<Op>, accepted: seq<(string, int)>, taken: map<string, seq<int>>)
    requires d.fleet == map[] && InTime(ops) && Counted(d, ops, accepted, taken)
    ensures forall id, from :: id in taken ==> CountIn(taken[id], from) <= 40
    ensures FromZero(ops) ==>
              forall id, from :: CountIn(TimesOf(accepted, id), from)
                                 <= 40 + 20 * MadeIn(d, ops, id, from)
  {
    hide CountIn, InTime, FromZero, MadeIn;
    forall id, from | id in taken ensures CountIn(taken[id], from) <= 40 { RecordRate(d, ops, id, from); }
    if FromZero(ops) {
      forall id, from
        ensures CountIn(TimesOf(accepted, id), from) <= 40 + 20 * MadeIn(d, ops, id, from)
      {
        BuilderRate(d, ops, id, from);
      }
    }
  }

  // ---- Runs that come up to the bound

  function EventOf(id: string, now: int): Op {
    OIngest(map["type" := JStr("event"), "builder" := JStr(id), "event" := JObj(map[])], now)
  }

  function FleetOf(rows: seq<Json>, now: int): Op { OIngest(map["type" := JStr("fleet"), "builders" := JArr(rows)], now) }

  function Events(id: string, now: int, n: nat): seq<Op> { if n == 0 then [] else Events(id, now, n - 1) + [EventOf(id, now)] }

  /** The hub leaves the builder out, lists it again, and 20 events come. */
  function Again(id: string): seq<Op> { [FleetOf([], 1000), FleetOf([Row(id)], 1000)] + Events(id, 1000, EVENTS_PER_WINDOW) }

  /** A hub that lists one builder at 0, 20 events at 999 and 20 at 1000; then the builder leaves and comes back k times. */
  function Rush(id: string, k: nat): seq<Op> {
    if k == 0 then
      [OSourceKind(Hub), FleetOf([Row(id)], 0)] + Events(id, 999, EVENTS_PER_WINDOW) + Events(id, 1000, EVENTS_PER_WINDOW)
    else Rush(id, k - 1) + Again(id)
  }

  /** A run on a hub so far: the builder's window if it is there, c events and k records counted from 999 on, all by time t. */
  ghost predicate Shows(ops: seq<Op>, id: string, w: Option<Window>, c: nat, k: nat, t: int) {
    var d := After(NEW_DESK, ops);
    && d.kind == Hub && (id in d.fleet <==> w.Some?) && (w.Some? ==> d.fleet[id].window == w.value)
    && CountIn(Taken(NEW_DESK, ops, id), 999) == c && MadeIn(NEW_DESK, ops, id, 999) == k
    && InTime(ops) && FromZero(ops) && Until(ops, t)
  }

  lemma TimesMore(ops: seq<Op>, op: Op, t: int)
    requires InTime(ops) && FromZero(ops) && Until(ops, t) && 0 <= t && (op.OIngest? ==> t <= op.now)
    ensures InTime(ops + [op]) && FromZero(ops + [op]) && Until(ops + [op], if op.OIngest? then op.now else t)
  {
  }

  lemma ShowsMore(ops: seq<Op>, op: Op, id: string, w: Option<Window>, c: nat, k: nat, t: int)
    requires Shows(ops, id, w, c, k, t) && 0 <= t && op.OIngest? && t <= op.now && Step(After(NEW_DESK, ops), op).kind == Hub
    ensures var d := After(NEW_DESK, ops);
            var d' := Step(d, op);
            Shows(ops + [op], id, if id in d'.fleet then Some(d'.fleet[id].window) else None,
                  c + (if Accepts(d, op, id) && Inside(op.now, 999) then 1 else 0),
                  k + (if Makes(d, op, id) && Inside(op.now, 999) then 1 else 0), op.now)
  {
    hide Step, Accepts, Makes, CountIn, InTime, FromZero, Until;
    TimesMore(ops, op, t);
    AfterOne(NEW_DESK, ops, op);
    assert (ops + [op])[..|ops|] == ops;
    CountMore(Taken(NEW_DESK, ops, id), op.now, 999);
    assert Taken(NEW_DESK, ops, id) + [] == Taken(NEW_DESK, ops, id);
  }

  lemma OneEvent(ops: seq<Op>, id: string, w: Window, c: nat, k: nat, t: int, now: int)
    requires ValidId(id) && Shows(ops, id, Some(w), c, k, t) && 0 <= t <= now && Inside(now, 999) && AllowEvent(w, now).1
    ensures Shows(ops + [EventOf(id, now)], id, Some(AllowEvent(w, now).0), c + 1, k, now)
  {
    hide Step, AllowEvent, Accepts;
    var op := EventOf(id, now);
    EventRoutes(After(NEW_DESK, ops), op, id, now);
    WindowStep(After(NEW_DESK, ops), op, id);
    ShowsMore(ops, op, id, Some(w), c, k, t);
  }

  lemma EventRoutes(d: Desk, op: Op, id: string, now: int)
    requires d.kind == Hub && ValidId(id) && op == EventOf(id, now)
    ensures EventFor(d, op, id) && Step(d, op).kind == Hub
  {
  }

  lemma {:induction false} EventsShow(ops: seq<Op>, id: string, w: Window, c: nat, k: nat, t: int, now: int, n: nat)
    requires ValidId(id) && Shows(ops, id, Some(w), c, k, t) && 0 <= t <= now && Inside(now, 999)
    requires w.start <= now < w.start + WINDOW_MS && w.n + n <= EVENTS_PER_WINDOW && (n == 0 ==> t == now)
    ensures Shows(ops + Events(id, now, n), id, Some(Window(w.start, w.n + n)), c + n, k, now)
  {
    hide Shows;
    if n == 0 {
      assert ops + Events(id, now, 0) == ops;
    } else if n == 1 {
      assert Events(id, now, 1) == [EventOf(id, now)];
      OneEvent(ops, id, w, c, k, t, now);
    } else {
      EventsShow(ops, id, w, c, k, t, now, n - 1);
      OneEvent(ops + Events(id, now, n - 1), id, Window(w.start, w.n + n - 1), c + n - 1, k, now, now);
      assert ops + Events(id, now, n) == ops + Events(id, now, n - 1) + [EventOf(id, now)];
    }
  }

  lemma {:induction false} EventsFirst(id: string, now: int, n: nat)
    ensures Events(id, now, n + 1) == [EventOf(id, now)] + Events(id, now, n)
  {
    if n > 0 {
      EventsFirst(id, now, n - 1);
      assert Events(id, now, n + 1) == [EventOf(id, now)] + Events(id, now, n - 1) + [EventOf(id, now)];
    }
  }

  /** Twenty events at once, the first of which opens a window. */
  lemma TwentyShow(ops: seq<Op>, id: string, w: Window, c: nat, k: nat, t: int, now: int)
    requires ValidId(id) && Shows(ops, id, Some(w), c, k, t) && 0 <= t <= now && Inside(now, 999) && w.start + WINDOW_MS <= now
    ensures Shows(ops + Events(id, now, EVENTS_PER_WINDOW), id, Some(Window(now, EVENTS_PER_WINDOW)), c + EVENTS_PER_WINDOW, k, now)
  {
    hide Shows, Events;
    OneEvent(ops, id, w, c, k, t, now);
    EventsShow(ops + [EventOf(id, now)], id, Window(now, 1), c + 1, k, now, now, EVENTS_PER_WINDOW - 1);
    EventsFirst(id, now, EVENTS_PER_WINDOW - 1);
    assert ops + [EventOf(id, now)] + Events(id, now, EVENTS_PER_WINDOW - 1) == ops + Events(id, now, EVENTS_PER_WINDOW);
  }

  lemma Listed(d: Desk, rows: seq<Json>, now: int)
    ensures Step(d, FleetOf(rows, now)).kind == d.kind && Step(d, FleetOf(rows, now)).fleet.Keys == RowIds(rows)
    ensures forall id :: !Accepts(d, FleetOf(rows, now), id)
  {
    hide AfterRows, RowIds;
    RowKeys(d.Start(), d.fleet, rows);
  }

  lemma OneRow(id: string)
    requires ValidId(id)
    ensures RowIds([Row(id)]) == {id} && RowIds([]) == {}
  {
    var list := [Row(id)];
    assert RowId(list[0]) == Some(id);
  }

  lemma Leaves(ops: seq<Op>, id: string, w: Window, c: nat, k: nat)
    requires ValidId(id) && Shows(ops, id, Some(w), c, k, 1000)
    ensures Shows(ops + [FleetOf([], 1000)], id, None, c, k, 1000)
  {
    hide Step, Accepts;
    OneRow(id);
    Listed(After(NEW_DESK, ops), [], 1000);
    ShowsMore(ops, FleetOf([], 1000), id, Some(w), c, k, 1000);
  }

  lemma Returns(ops: seq<Op>, id: string, c: nat, k: nat, t: int, now: int)
    requires ValidId(id) && Shows(ops, id, None, c, k, t) && 0 <= t <= now
    ensures Shows(ops + [FleetOf([Row(id)], now)], id, Some(Window(0, 0)), c, k + (if Inside(now, 999) then 1 else 0), now)
  {
    hide Step, Accepts;
    OneRow(id);
    var d := After(NEW_DESK, ops);
    Listed(d, [Row(id)], now);
    WindowStep(d, FleetOf([Row(id)], now), id);
    NoEvent(d, [Row(id)], now, id);
    ShowsMore(ops, FleetOf([Row(id)], now), id, None, c, k, t);
  }

  lemma NoEvent(d: Desk, rows: seq<Json>, now: int, id: string)
    ensures !EventFor(d, FleetOf(rows, now), id)
  {
  }

  lemma HubStarts(id: string)
    ensures Shows([OSourceKind(Hub)], id, None, 0, 0, 0)
  {
    var ops := [OSourceKind(Hub)];
    assert ops[..0] == [];
  }

  lemma {:induction false} RushShows(id: string, k: nat)
    requires ValidId(id)
    ensures Shows(Rush(id, k), id, Some(Window(1000, EVENTS_PER_WINDOW)), 40 + 20 * k, k, 1000)
  {
    hide Shows, Events;
    if k == 0 {
      HubStarts(id);
      var a := [OSourceKind(Hub)] + [FleetOf([Row(id)], 0)];
      Returns([OSourceKind(Hub)], id, 0, 0, 0, 0);
      EventsShow(a, id, Window(0, 0), 0, 0, 0, 999, EVENTS_PER_WINDOW);
      TwentyShow(a + Events(id, 999, EVENTS_PER_WINDOW), id, Window(0, EVENTS_PER_WINDOW), EVENTS_PER_WINDOW, 0, 999, 1000);
      assert a == [OSourceKind(Hub), FleetOf([Row(id)], 0)];
    } else {
      var before, c := Rush(id, k - 1), EVENTS_PER_WINDOW * (k + 1);
      RushShows(id, k - 1);
      var gone := before + [FleetOf([], 1000)];
      Leaves(before, id, Window(1000, EVENTS_PER_WINDOW), c, k - 1);
      Returns(gone, id, c, k - 1, 1000, 1000);
      TwentyShow(gone + [FleetOf([Row(id)], 1000)], id, Window(0, 0), c, k, 1000, 1000);
      assert Rush(id, k) == gone + [FleetOf([Row(id)], 1000)] + Events(id, 1000, EVENTS_PER_WINDOW);
    }
  }

  /**
    The exact rate: n bounds what a builder gets accepted in a second in which k records of it are made, over all runs of
    a new store, exactly when n is 40 and 20 for each of the k.
  */
  lemma RateIff(id: string, k: nat, n: nat)
    requires ValidId(id)
    ensures (forall ops, from :: InTime(ops) && FromZero(ops) && MadeIn(NEW_DESK, ops, id, from) == k ==>
                                   CountIn(Taken(NEW_DESK, ops, id), from) <= n)
            <==> 40 + 20 * k <= n
  {
    hide InTime, FromZero, MadeIn, Taken, CountIn;
    RushIs(id, k);
    forall ops, from | InTime(ops) && FromZero(ops) && MadeIn(NEW_DESK, ops, id, from) == k
      ensures CountIn(Taken(NEW_DESK, ops, id), from) <= 40 + 20 * k
    {
      BuilderRate(NEW_DESK, ops, id, from);
    }
  }

  lemma RushIs(id: string, k: nat)
    requires ValidId(id)
    ensures InTime(Rush(id, k)) && FromZero(Rush(id, k)) && MadeIn(NEW_DESK, Rush(id, k), id, 999) == k
    ensures CountIn(Taken(NEW_DESK, Rush(id, k), id), 999) == 40 + 20 * k
  {
    RushShows(id, k);
  }

  /** So the 40 hold exactly for the seconds in which no record of the builder is made. */
  lemma FortyIff(id: string, k: nat)
    requires ValidId(id)
    ensures (forall ops, from :: InTime(ops) && FromZero(ops) && MadeIn(NEW_DESK, ops, id, from) == k ==>
                                   CountIn(Taken(NEW_DESK, ops, id), from) <= 40)
            <==> k == 0
  {
    RateIff(id, k, 2 * EVENTS_PER_WINDOW);
  }
}
