/** Whose word a builder's row is (public/js/core/store.js): the fleet rows', the hello's, the connection's. */
module FleetContent {
  import opened Options
  import opened Keys
  import opened StoreSpec
  import opened StoreDerived
  import opened StoreModes
  import opened StoreRun
  import opened StoreContent

  /** The first row of a list that names the builder. */
  ghost predicate FirstRow(list: seq<Json>, id: string, i: nat) {
    && i < |list| && Names(list[i], id)
    && forall j :: 0 <= j < i ==> !Names(list[j], id)
  }

  /** The row is an object with this builder's valid id. */
  predicate Names(row: Json, id: string) { row.JObj? && "id" in row.fields && row.fields["id"] == JStr(id) && ValidId(id) }

  function Text(o: Record, k: string): Option<string> { if k in o && o[k].JStr? then Some(o[k].s) else None }

  /** What a row's state means for its builder. */
  function StatusOf(state: Option<string>): BuilderStatus {
    if state == Some("up") then BLive
    else if state in {Some("stale"), Some("incompatible")} then BStale
    else if state == Some("connecting") then BConnecting
    else BDown
  }

  /** The row says its state and version, its code and age when it has them; the rest stays. */
  ghost predicate SaidByRow(i0: Info, o: Record, i: Info) {
    && i.state == Text(o, "state") && i.status == StatusOf(i.state) && i.stale == (i.status != BLive)
    && i.version == Text(o, "version")
    && i.code == (if Text(o, "code").Some? then Text(o, "code") else i0.code)
    && i.ageMs == (if "ageMs" in o && o["ageMs"].JNum? then o["ageMs"].n else i0.ageMs)
    && i.mode == i0.mode && i.host == i0.host
  }

  lemma RowLaw(i0: Info, row: Json, id: string)
    requires Names(row, id)
    ensures RowId(row) == Some(id) && SaidByRow(i0, row.fields, RowInfo(i0, row.fields))
  {
  }

  lemma NoRowLaw(row: Json, id: string)
    ensures RowId(row) == Some(id) <==> Names(row, id)
  {
  }

  lemma IdsLaw(list: seq<Json>, id: string)
    ensures id in RowIds(list) <==> exists i: nat :: i < |list| && Names(list[i], id)
  {
    if id in RowIds(list) {
      var i: nat :| i < |list| && RowId(list[i]).Some? && RowId(list[i]).value == id;
      NoRowLaw(list[i], id);
    }
    if exists i: nat :: i < |list| && Names(list[i], id) {
      var i: nat :| i < |list| && Names(list[i], id);
      NoRowLaw(list[i], id);
      assert RowId(list[i]).value == id;
    }
  }

  /** The record of `id` after rows: its own or a new one, told by its first row; without a row as it was. */
  ghost predicate ToldByRows(start: BuilderStatus, fleet: Fleet, list: seq<Json>, id: string, after: Fleet) {
    && (id in after <==> id in fleet || id in RowIds(list))
    && (id in after && id !in RowIds(list) ==> after[id] == fleet[id])
    && (id in RowIds(list) && id in after ==>
          var b := if id in fleet then fleet[id] else NewBuilder(start);
          exists i: nat :: FirstRow(list, id, i) && after[id] == b.(info := after[id].info) && SaidByRow(b.info, list[i].fields, after[id].info))
  }

  lemma {:induction false} RowsTell(start: BuilderStatus, fleet: Fleet, list: seq<Json>, id: string)
    ensures ToldByRows(start, fleet, list, id, AfterRows(start, fleet, list))
  {
    hide RowId, RowInfo, NewBuilder, SaidByRow, RowIds;
    if list == [] {
      IdsLaw([], id);
    } else {
      var n := |list| - 1;
      RowsTell(start, fleet, list[..n], id);
      IdsLaw(list[..n], id);
      IdsLaw(list, id);
      NoRowLaw(list[n], id);
      var f := AfterRows(start, fleet, list[..n]);
      if id in RowIds(list[..n]) {
        var i: nat :| FirstRow(list[..n], id, i);
        assert Names(list[i], id) by { assert list[..n][i] == list[i]; }
        assert FirstRow(list, id, i) by { assert forall j :: 0 <= j < i ==> list[..n][j] == list[j]; }
        LaterRow(start, fleet, list, id);
      } else {
        assert forall j :: 0 <= j < n ==> list[..n][j] == list[j];
        if Names(list[n], id) {
          assert FirstRow(list, id, n);
          RowLaw((if id in fleet then fleet[id] else NewBuilder(start)).info, list[n], id);
        }
      }
    }
  }

  /** A second row of a builder says nothing. */
  lemma LaterRow(start: BuilderStatus, fleet: Fleet, list: seq<Json>, id: string)
    requires list != [] && id in RowIds(list[..|list| - 1])
    ensures var f, g := AfterRows(start, fleet, list[..|list| - 1]), AfterRows(start, fleet, list);
            (id in g <==> id in f) && (id in g ==> g[id] == f[id])
  {
    hide RowInfo, NewBuilder;
  }

  /** New builders, each where its first row stands. */
  ghost predicate Arrived(fleet: Fleet, list: seq<Json>, news: seq<string>, at: seq<nat>) {
    && |at| == |news|
    && (forall k :: 0 <= k < |at| ==> news[k] !in fleet && at[k] < |list| && FirstRow(list, news[k], at[k]))
    && (forall j, k :: 0 <= j < k < |at| ==> at[j] < at[k])
  }

  /** The order after rows is the old one and then the new builders, all of them, in the order of their first rows. */
  lemma {:induction false} OrderLaw(start: BuilderStatus, fleet: Fleet, order: seq<string>, list: seq<Json>) returns (news: seq<string>, at: seq<nat>)
    ensures OrderAfterRows(start, fleet, order, list) == order + news && Arrived(fleet, list, news, at)
    ensures forall id :: id in RowIds(list) ==> id in fleet || id in news
  {
    hide RowId, RowInfo, NewBuilder, RowIds, AfterRows, Arrived, FirstRow;
    if list == [] {
      news, at := [], [];
      NoneArrived(fleet);
      assert order + [] == order;
      forall id ensures id !in RowIds([]) { IdsLaw([], id); }
    } else {
      var n := |list| - 1;
      news, at := OrderLaw(start, fleet, order, list[..n]);
      var id := RowId(list[n]);
      forall x ensures x in RowIds(list) <==> x in RowIds(list[..n]) || id == Some(x) { IdsMore(list, x); }
      if id.Some? { RowsTell(start, fleet, list[..n], id.value); }
      ArrivedSame(fleet, list, news, at);
      if id.Some? && id.value !in RowIds(list[..n]) && id.value !in fleet {
        FirstNow(list, id.value);
        ArrivedOne(fleet, list, news, at, id.value);
        assert order + news + [id.value] == order + (news + [id.value]);
        news, at := news + [id.value], at + [n];
      }
    }
  }

  lemma NoneArrived(fleet: Fleet)
    ensures Arrived(fleet, [], [], [])
  {
  }

  lemma IdsMore(list: seq<Json>, id: string)
    requires list != []
    ensures id in RowIds(list) <==> id in RowIds(list[..|list| - 1]) || RowId(list[|list| - 1]) == Some(id)
  {
    var n := |list| - 1;
    if id in RowIds(list) {
      var i: nat :| i < |list| && RowId(list[i]).Some? && RowId(list[i]).value == id;
      assert i < n ==> list[..n][i] == list[i];
    }
    if id in RowIds(list[..n]) {
      var i: nat :| i < n && RowId(list[..n][i]).Some? && RowId(list[..n][i]).value == id;
      assert list[i] == list[..n][i];
    }
    if RowId(list[n]) == Some(id) { assert RowId(list[n]).value == id; }
  }

  lemma FirstNow(list: seq<Json>, id: string)
    requires list != [] && id !in RowIds(list[..|list| - 1]) && RowId(list[|list| - 1]) == Some(id)
    ensures FirstRow(list, id, |list| - 1)
  {
    var n := |list| - 1;
    NoRowLaw(list[n], id);
    IdsLaw(list[..n], id);
    forall j | 0 <= j < n ensures !Names(list[j], id) { assert list[..n][j] == list[j]; }
  }

  lemma FirstStays(list: seq<Json>, id: string, i: nat)
    requires list != [] && FirstRow(list[..|list| - 1], id, i)
    ensures FirstRow(list, id, i) && i < |list| - 1
  {
    hide Names;
    var n := |list| - 1;
    forall j | 0 <= j <= i ensures list[..n][j] == list[j] {}
  }

  lemma ArrivedSame(fleet: Fleet, list: seq<Json>, news: seq<string>, at: seq<nat>)
    requires list != [] && Arrived(fleet, list[..|list| - 1], news, at)
    ensures Arrived(fleet, list, news, at) && forall k :: 0 <= k < |at| ==> at[k] < |list| - 1
  {
    hide FirstRow;
    forall k | 0 <= k < |at| ensures FirstRow(list, news[k], at[k]) && at[k] < |list| - 1 { FirstStays(list, news[k], at[k]); }
  }

  lemma ArrivedOne(fleet: Fleet, list: seq<Json>, news: seq<string>, at: seq<nat>, id: string)
    requires list != [] && Arrived(fleet, list, news, at) && forall k :: 0 <= k < |at| ==> at[k] < |list| - 1
    requires id !in fleet && FirstRow(list, id, |list| - 1)
    ensures Arrived(fleet, list, news + [id], at + [|list| - 1])
  {
    hide FirstRow;
  }

  // ---- Steps of the store

  /** Fleet rows: exactly the named builders stay or come, each told by its first row. */
  lemma FleetRowsLaw(d: Desk, msg: Record, now: int, id: string)
    requires Typed(msg, "fleet") && HasList(msg, "builders")
    ensures var list, f := ListField(msg, "builders"), Step(d, OIngest(msg, now)).fleet;
            && (id in f <==> exists i: nat :: i < |list| && Names(list[i], id))
            && (id in f ==>
                  var b := if id in d.fleet then d.fleet[id] else NewBuilder(d.Start());
                  exists i: nat :: FirstRow(list, id, i) && f[id] == b.(info := f[id].info) && SaidByRow(b.info, list[i].fields, f[id].info))
  {
    hide AfterRows, RowIds, SaidByRow, FirstRow, NewBuilder, ScopedStep, HelloId;
    var list := ListField(msg, "builders");
    IdsLaw(list, id);
    RowsTell(d.Start(), d.fleet, list, id);
    RowKeys(d.Start(), d.fleet, list);
  }

  /** The builder a hello names. */
  predicate Greets(msg: Record, id: string) { Typed(msg, "hello") && "builder" in msg && Names(msg["builder"], id) }

  /** A local source's hello: its builder is the only one, told its code, mode and version; a hub's changes nothing. */
  lemma HelloLaw(d: Desk, msg: Record, now: int, id: string)
    requires Greets(msg, id)
    ensures var d' := Step(d, OIngest(msg, now));
            if d.kind == Hub then d' == d
            else
              && d'.sourceId == Some(id) && d'.fleet.Keys == {id} && d'.kind == d.kind && d'.status == d.status
              && var b := if id in d.fleet then d.fleet[id] else NewBuilder(d.Start());
                 var i := d'.fleet[id].info;
                 && d'.fleet[id] == b.(info := i)
                 && i.code == Text(msg["builder"].fields, "code") && i.mode == Text(msg, "mode") && i.version == Text(msg, "version")
                 && i == b.info.(code := i.code, mode := i.mode, version := i.version)
  {
    hide AfterRows, RowIds, NewBuilder, ScopedStep;
    RowLaw(d.RecordOf(id).info, msg["builder"], id);
  }

  lemma SomeoneGreets(msg: Record)
    requires Typed(msg, "hello") && "builder" in msg && RowId(msg["builder"]).Some?
    ensures exists id :: Greets(msg, id)
  {
    assert Greets(msg, RowId(msg["builder"]).value);
  }

  /** A hello that names no valid builder is none, and so is a message without a type or with one the page only passes on. */
  lemma NothingLaw(d: Desk, msg: Record, now: int)
    requires (Typed(msg, "hello") && forall id :: !Greets(msg, id)) || !(("type" in msg) && msg["type"].JStr?)
             || Typed(msg, "map") || Typed(msg, "alarms") || Typed(msg, "packages") || Typed(msg, "pong")
    ensures Step(d, OIngest(msg, now)) == d
  {
    hide AfterRows, RowIds, NewBuilder, ScopedStep;
    if Typed(msg, "hello") && "builder" in msg && RowId(msg["builder"]).Some? {
      SomeoneGreets(msg);
    }
  }

  /** Every other message belongs to one builder: a local source's own, whatever it says, or the one the hub stamped on it. */
  lemma ScopedLaw(d: Desk, msg: Record, now: int, id: string)
    requires "type" in msg && msg["type"].JStr? && msg["type"].s !in {"hello", "fleet", "map", "alarms", "packages", "pong"}
    ensures var d' := Step(d, OIngest(msg, now));
            var mine := if d.kind == Local then id == d.Local() else "builder" in msg && msg["builder"] == JStr(id) && ValidId(id);
            var b := if id in d.fleet then d.fleet[id] else NewBuilder(d.Start());
            var sc := ScopedStep(id, b, msg, now);
            && d' == d.(fleet := d'.fleet)
            && (if mine && sc.touched then
                  id in d'.fleet && d'.fleet[id] == (if sc.out.Some? then sc.b.(data := sc.b.data.(lastMsgAt := now)) else sc.b)
                else (id in d'.fleet <==> id in d.fleet) && (id in d'.fleet ==> d'.fleet[id] == d.fleet[id]))
  {
    hide AfterRows, RowIds, NewBuilder, ScopedStep, HelloId;
  }

  /** What the page is told of a message: who said hello, fleet rows, a frame to pass on, or the news of one builder. */
  lemma AnswerLaw(d: Desk, msg: Record, now: int, id: string)
    ensures Greets(msg, id) ==> Answer(d, msg, now) == if d.kind == Hub then None else Some(CHello(id))
    ensures Typed(msg, "fleet") ==> Answer(d, msg, now) == if HasList(msg, "builders") then Some(CFleet) else None
    ensures Typed(msg, "map") || Typed(msg, "alarms") || Typed(msg, "packages") || Typed(msg, "pong") ==> Answer(d, msg, now) == Some(CPassive)
    ensures !("type" in msg && msg["type"].JStr?) ==> Answer(d, msg, now) == None
    ensures "type" in msg && msg["type"].JStr? && msg["type"].s !in {"hello", "fleet", "map", "alarms", "packages", "pong"} ==>
              var mine := if d.kind == Local then id == d.Local() else "builder" in msg && msg["builder"] == JStr(id) && ValidId(id);
              var out := ScopedStep(id, if id in d.fleet then d.fleet[id] else NewBuilder(d.Start()), msg, now).out;
              && (mine ==> Answer(d, msg, now) == if out.Some? then Some(CScoped(id, out.value)) else None)
              && (Answer(d, msg, now).Some? && Answer(d, msg, now).value.CScoped? && Answer(d, msg, now).value.id == id ==> mine)
  {
    hide NewBuilder, ScopedStep;
    if Greets(msg, id) { NoRowLaw(msg["builder"], id); }
  }

  /** A record starts live only on a local source whose connection is open; a new one is empty. */
  lemma StartLaw(d: Desk)
    ensures d.Start() == if d.kind == Local && d.status == Open then BLive else BConnecting
    ensures var b := NewBuilder(d.Start());
            && b.held.sessions == map[] && b.held.lanes == [] && b.held.attention == [] && b.held.approvals == map[] && b.held.repos == map[]
            && b.info.status == d.Start() && b.window.n == 0 && b.data.lastMsgAt == 0 && !b.info.stale
    ensures d.Local() == if d.sourceId.Some? then d.sourceId.value else "local"
  {
  }

  /** A local source's builders read live, down or connecting as the connection is open, closed or neither; a hub's do not. */
  lemma ConnectionLaw(d: Desk, st: SourceStatus, id: string)
    ensures var d' := Step(d, OSourceStatus(st));
            && d'.status == st && d'.kind == d.kind && d'.sourceId == d.sourceId && d'.fleet.Keys == d.fleet.Keys
            && (id in d.fleet ==>
                  d'.fleet[id] == if d.kind == Hub then d.fleet[id]
                                  else d.fleet[id].(info := d.fleet[id].info.(status :=
                                         if st == Open then BLive else if st == Closed then BDown else BConnecting)))
  {
  }

  /** A switch of the source forgets the local builder's id on a hub and nothing else. */
  lemma SwitchLaw(d: Desk, k: SourceKind)
    ensures Step(d, OSourceKind(k)) == Desk(k, if k == Hub then None else d.sourceId, d.status, d.fleet)
  {
  }
}
