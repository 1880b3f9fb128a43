/**
  The client store (public/js/core/store.js): N builders behind one source, and one
  flat session index over them that the reducers keep up to date in place.
*/
module FleetStore {
  import opened Options
  import opened Keys
  import opened StoreSpec
  import opened SessionIndex
  import opened StoreDerived
  import opened StoreCore
  import opened StoreModes
  import opened StoreLaws
  import opened StoreRate
  import opened StoreRun
  import opened Triggers

  // ---- Loops over a builder's lists, on values

  method StampList(kind: Kind, id: string, raws: seq<Json>, max: Option<nat>) returns (out: seq<Record>, dropped: nat)
    ensures (out, dropped) == StampAll(kind, id, raws, max)
  {
    out, dropped := [], 0;
    for i := 0 to |raws|
      invariant (out, dropped) == StampAll(kind, id, raws[..i], max)
    {
      assert raws[..i + 1][..i] == raws[..i];
      if max.Some? && |out| >= max.value {
        dropped := dropped + 1;
      } else {
        var v := Stamp(kind, id, raws[i]);
        if v.Some? { out := out + [v.value]; }
      }
    }
    assert raws[..|raws|] == raws;
  }

  method FileSessions(list: seq<Record>) returns (m: map<string, Record>, dropped: nat)
    ensures (m, dropped) == KeepSessions(list)
  {
    m, dropped := map[], 0;
    for i := 0 to |list|
      invariant (m, dropped) == KeepSessions(list[..i])
    {
      assert list[..i + 1][..i] == list[..i];
      if NameOf(list[i]) !in m && |m| >= MAX_SESSIONS {
        dropped := dropped + 1;
      } else {
        m := m[NameOf(list[i]) := list[i]];
      }
    }
    assert list[..|list|] == list;
  }

  method FileApprovals(list: seq<Record>) returns (m: map<string, Record>, dropped: nat)
    ensures (m, dropped) == KeepApprovals(list)
  {
    m, dropped := map[], 0;
    for i := 0 to |list|
      invariant (m, dropped) == KeepApprovals(list[..i])
    {
      assert list[..i + 1][..i] == list[..i];
      var a := list[i];
      if ValidRecordName(a, "id") {
        if a["id"].s !in m && |m| >= MAX_APPROVALS {
          dropped := dropped + 1;
        } else {
          m := m[a["id"].s := a];
        }
      }
    }
    assert list[..|list|] == list;
  }

  /** The shared fields of a snapshot and a delta, applied to one record. */
  method TakeCommon(id: string, b: Builder, msg: Record) returns (r: Builder)
    ensures r == ApplyCommon(id, b, msg)
  {
    r := b;
    if "lanes" in msg && Truthy(msg["lanes"]) {
      var lanes, d := StampList(KLane, id, ListField(msg, "lanes"), Some(MAX_LANES));
      r := r.(held := r.held.(lanes := lanes), dropped := r.dropped.(lanes := r.dropped.lanes + d));
    }
    assert r == CommonLanes(id, b, msg);
    if "attention" in msg && Truthy(msg["attention"]) {
      var list, d := StampList(KAttention, id, ListField(msg, "attention"), Some(MAX_ATTENTION));
      r := r.(held := r.held.(attention := list), dropped := r.dropped.(attention := r.dropped.attention + d));
    }
    assert r == CommonAttention(id, CommonLanes(id, b, msg), msg);
    r := r.(data := CommonData(r.data, msg), info := CommonInfo(r.info, msg));
    if HasList(msg, "approvals") {
      var stamped, _ := StampList(KApproval, id, ListField(msg, "approvals"), None);
      var m, d := FileApprovals(stamped);
      r := r.(held := r.held.(approvals := m), dropped := r.dropped.(approvals := r.dropped.approvals + d));
    }
  }

  lemma CoreOrder(mode: KeyMode, order: seq<string>, fleet: Fleet, index: Sessions, h: string)
    requires CoreOf(mode, order, fleet, index, h)
    ensures InsertionOrder(order, fleet) && Well(fleet) && forall i :: 0 <= i < |order| ==> order[i] in fleet
  {
  }

  /** No builder but `h` holds a session. */
  predicate OnlyLocal(fleet: Fleet, h: string) { forall id :: id in fleet && id != h ==> fleet[id].held.sessions == map[] }

  lemma OneHolderIs(fleet: Fleet, h: string)
    ensures OnlyLocal(fleet, h) <==> OneHolder(SessionsOf(fleet), h)
  {
    if OneHolder(SessionsOf(fleet), h) {
      forall id | id in fleet && id != h ensures fleet[id].held.sessions == map[] {
        assert forall n :: n in fleet[id].held.sessions ==> Holds(SessionsOf(fleet), id, n);
        assert fleet[id].held.sessions.Keys == {};
      }
    }
  }

  function Unlisted(ids: seq<string>, seen: set<string>): set<string> { set x | x in ids && x !in seen }

  lemma UnlistedOne(all: seq<string>, i: nat, seen: set<string>)
    requires i < |all| && forall j, k :: 0 <= j < k < |all| ==> all[j] != all[k]
    ensures Unlisted(all[..i + 1], seen) == Unlisted(all[..i], seen) + (if all[i] in seen then {} else {all[i]})
    ensures all[i] !in Unlisted(all[..i], seen)
  {
    assert all[..i + 1] == all[..i] + [all[i]];
  }

  lemma AllUnlisted(all: seq<string>, fleet: Fleet, seen: set<string>)
    requires InsertionOrder(all, fleet)
    ensures Unlisted(all, seen) == fleet.Keys - seen
  {
    forall x | x in fleet.Keys - seen ensures x in all { assert Look(x); }
  }

  lemma KeepNone(none: seq<string>, seen: set<string>)
    requires none == []
    ensures KeepIds(none, seen) == []
  {
  }

  /** One step of the loop over the order: the id stays where it is, or goes. */
  lemma KeepOne(all: seq<string>, i: nat, seen: set<string>)
    requires i < |all| && forall j, k :: 0 <= j < k < |all| ==> all[j] != all[k]
    ensures var rest := KeepIds(all[..i], seen) + all[i..];
            KeepIds(all[..i + 1], seen) + all[i + 1..] == if all[i] in seen then rest else Without(rest, all[i])
  {
    hide Without;
    var id, kept := all[i], KeepIds(all[..i], seen);
    KeepIdsFrom(all[..i], seen);
    assert all[..i + 1][..i] == all[..i];
    assert kept + all[i..] == kept + [id] + all[i + 1..];
    if id !in seen { WithoutMiddle(kept, id, all[i + 1..]); }
  }

  lemma {:induction false} KeepSelf(order: seq<string>, id: string)
    requires forall i, j :: 0 <= i < j < |order| ==> order[i] != order[j]
    ensures KeepIds(order, {id}) == if id in order then [id] else []
  {
    if order != [] {
      var head, last := order[..|order| - 1], order[|order| - 1];
      KeepSelf(head, id);
      assert order == head + [last] && last !in head;
    }
  }

  function Ids(order: seq<string>): set<string> { set x | x in order }

  lemma MirrorNone(fleet: Fleet, status: BuilderStatus)
    ensures Mirrored(fleet, Ids([]), status) == fleet
  {
  }

  lemma MirrorOne(fleet: Fleet, order: seq<string>, i: nat, status: BuilderStatus)
    requires i < |order| && order[i] in fleet && forall j, k :: 0 <= j < k < |order| ==> order[j] != order[k]
    ensures var f := Mirrored(fleet, Ids(order[..i]), status); var id := order[i];
            && id in f && f[id] == fleet[id]
            && Mirrored(fleet, Ids(order[..i + 1]), status) == f[id := f[id].(info := f[id].info.(status := status))]
  {
    assert order[..i + 1] == order[..i] + [order[i]];
    assert Ids(order[..i + 1]) == Ids(order[..i]) + {order[i]};
  }

  lemma AllIds(order: seq<string>, fleet: Fleet)
    requires InsertionOrder(order, fleet)
    ensures Ids(order) == fleet.Keys && Restricted(fleet, Ids(order)) == SessionsOf(fleet)
  {
    forall x | x in fleet ensures x in order { assert Look(x); }
  }

  /** The sessions of the builders in `ids`. */
  function Restricted(fleet: Fleet, ids: set<string>): map<string, Sessions> {
    map id | id in fleet && id in ids :: fleet[id].held.sessions
  }

  lemma RestrictNone(order: seq<string>, fleet: Fleet)
    requires InsertionOrder(order, fleet)
    ensures Restricted(fleet, Ids(order[..0])) == map[]
    ensures (forall i :: 0 <= i < |order| ==> order[i] in fleet) && forall j, k :: 0 <= j < k < |order| ==> order[j] != order[k]
  {
    forall i | 0 <= i < |order| ensures order[i] in fleet { assert Look(order[i]); }
  }

  lemma RestrictOne(fleet: Fleet, order: seq<string>, i: nat)
    requires i < |order| && order[i] in fleet && forall j, k :: 0 <= j < k < |order| ==> order[j] != order[k]
    ensures var all := Restricted(fleet, Ids(order[..i])); var id := order[i];
            id !in all && Restricted(fleet, Ids(order[..i + 1])) == all[id := fleet[id].held.sessions]
  {
    assert order[..i + 1] == order[..i] + [order[i]];
    assert Ids(order[..i + 1]) == Ids(order[..i]) + {order[i]};
  }

  lemma NoneNamed()
    ensures Named<Record>(map[])
  {
  }

  lemma NamedAdd(fleet: Fleet, all: map<string, Sessions>, id: string)
    requires Well(fleet) && id in fleet && Named(all)
    ensures ValidId(id) && "" !in fleet[id].held.sessions && Named(all[id := map[]])
  {
    assert Look(id);
    assert Look("");
  }

  lemma DeltaOut(id: string, b: Builder, msg: Record)
    ensures ScopedDelta(id, b, msg).touched && ScopedSnapshot(id, b, msg).touched
    ensures ScopedSnapshot(id, b, msg).out == Some(OSnapshot)
    ensures ScopedDelta(id, b, msg).out == Some(ODelta(if HasList(msg, "sessions") then Some(DeltaSessions(id, b, msg).1) else None))
  {
    hide ApplyCommon, DeltaSessions, SnapshotSessions;
  }

  lemma StuckOut(b: Builder, msg: Record)
    ensures ScopedStuck(b, msg).touched
  {
  }

  lemma {:induction false} RowsAreIn(start: BuilderStatus, fleet: Fleet, list: seq<Json>)
    ensures AfterRows(start, fleet, list).Keys == fleet.Keys + RowIds(list)
  {
    hide RowInfo, RowId, NewBuilder;
    if list == [] {
    } else {
      RowsAreIn(start, fleet, list[..|list| - 1]);
      assert list[..|list|] == list;
      RowIdsOne(list, |list| - 1);
    }
  }

  /** A change of one record leaves the other builders' index entries alone. */
  lemma Isolated(fleet: Fleet, fleet': Fleet, id: string, index: Sessions, index': Sessions, h: string, order: seq<string>, order': seq<string>)
    requires CoreOf(ByFkey, order, fleet, index, h) && CoreOf(ByFkey, order', fleet', index', h)
    requires fleet' == fleet || (id in fleet' && fleet' == fleet[id := fleet'[id]])
    ensures SameButFor(id, index, index')
  {
    hide Agree, Named, SameButFor;
    var all, all' := SessionsOf(fleet), SessionsOf(fleet');
    if fleet' == fleet {
      AgreeUnique(KeyFn(ByFkey), all, index, index');
      SameToo(id, index);
    } else {
      assert all' == all[id := fleet'[id].held.sessions];
      OthersKeepTheirEntries(all, index, id, fleet'[id].held.sessions, index');
    }
  }

  lemma SameToo(id: string, index: Sessions)
    ensures SameButFor(id, index, index)
  {
  }

  lemma HelloIdValid(msg: Record)
    requires HelloId(msg).Some?
    ensures ValidId(HelloId(msg).value)
  {
  }

  lemma UpdateTwice(fleet: Fleet, id: string, x: Builder, y: Builder)
    ensures fleet[id := x][id := y] == fleet[id := y]
    ensures id in fleet && fleet[id] == x ==> fleet[id := x] == fleet
  {
  }

  lemma SetOverRemoved(index: Sessions, k: string, s: Record)
    ensures (index - {k})[k := s] == index[k := s]
  {
  }

  lemma RowIdsOne(list: seq<Json>, i: nat)
    requires i < |list|
    ensures RowIds(list[..i + 1]) == RowIds(list[..i]) + (if RowId(list[i]).Some? then {RowId(list[i]).value} else {})
  {
    var a, b := list[..i], list[..i + 1];
    assert forall j :: 0 <= j < i ==> a[j] == b[j];
    assert b[i] == list[i];
  }

  lemma RemovedOne(removed: seq<Json>, i: nat)
    requires i < |removed|
    ensures RemovedNames(removed[..i + 1]) ==
            RemovedNames(removed[..i]) + (if removed[i].JStr? && removed[i].s != "" then {removed[i].s} else {})
  {
    var a, b := removed[..i], removed[..i + 1];
    assert forall j :: 0 <= j < i ==> a[j] == b[j];
    assert b[i] == removed[i];
  }

  /** A snapshot's sessions replace the record's, then its other fields are taken. */
  method TakeSnapshot(id: string, b: Builder, msg: Record) returns (r: Builder)
    requires WellHeld(id, b.held)
    ensures r == ScopedSnapshot(id, b, msg).b && WellHeld(id, r.held)
  {
    var stamped, _ := StampList(KSession, id, ListField(msg, "sessions"), None);
    var m, d := FileSessions(stamped);
    r := b.(held := b.held.(sessions := m), dropped := b.dropped.(sessions := b.dropped.sessions + d));
    r := TakeCommon(id, r, msg);
    SnapshotHeld(id, b, msg);
  }

  /** A hello's code is its own, whatever was known of the builder. */
  lemma HelloCode(i: Info, j: Info, msg: Record)
    requires HelloId(msg).Some?
    ensures HelloInfo(i, msg).code == HelloInfo(j, msg).code
  {
  }

  class FleetStore {
    var kind: SourceKind
    var sourceStatus: SourceStatus
    var sourceId: Option<string>
    var sourceCode: Option<string>
    var keyMode: KeyMode
    var order: seq<string>
    var builders: Fleet
    var sessions: map<string, Record>
    var lanes: seq<Record>
    var attention: seq<Record>
    var cursor: Option<string>
    var openSession: Option<string>
    var pinned: set<string>
    var laneFilter: set<string>

    function LocalId(): string
      reads this`sourceId
    {
      sourceId.GetOr(LOCAL_FALLBACK_ID)
    }

    ghost predicate Core(h: string)
      reads this`keyMode, this`order, this`builders, this`sessions
    {
      CoreOf(keyMode, order, builders, sessions, h)
    }

    ghost predicate Derived()
      reads this`order, this`builders, this`lanes, this`attention
    {
      DerivedOf(order, builders, lanes, attention)
    }

    /** The store between two messages: the index and the derived lists are what the builders say. */
    ghost predicate Valid()
      reads this
    {
      && ValidId(LocalId())
      && (keyMode == ByName ==> kind == Local)
      && Core(LocalId()) && Derived()
    }

    constructor (mode: KeyMode)
      ensures Valid() && keyMode == mode && builders == map[] && kind == Local && sourceId == None
    {
      kind, sourceStatus, sourceId, sourceCode, keyMode := Local, Connecting, None, None, mode;
      order, builders, sessions, lanes, attention := [], map[], map[], [], [];
      cursor, openSession, pinned, laneFilter := None, None, {}, {};
    }

    /** The status a record starts with: a local source's own. */
    function StartStatus(): BuilderStatus
      reads this`kind, this`sourceStatus
    {
      if kind == Local && sourceStatus == Open then BLive else BConnecting
    }

    /** The source and the records it fed. */
    function AtDesk(): Desk
      reads this`kind, this`sourceId, this`sourceStatus, this`builders
    {
      Desk(kind, sourceId, sourceStatus, builders)
    }

    /** Builder `id`'s record, or the one it would start with. */
    function RecordOf(id: string): Builder
      reads this`builders, this`kind, this`sourceStatus
    {
      if id in builders then builders[id] else NewBuilder(StartStatus())
    }

    method BuilderFor(id: string, ghost h: string)
      requires ValidId(id) && Core(h)
      modifies this`order, this`builders
      ensures Core(h) && id in builders
      ensures builders[id] == old(RecordOf(id)) && builders == old(builders)[id := builders[id]]
      ensures order == if id in old(builders) then old(order) else old(order) + [id]
      ensures old(Derived()) ==> Derived()
    {
      if id !in builders {
        var b := NewBuilder(StartStatus());
        AddRecord(keyMode, order, builders, sessions, h, id, b);
        if Derived() { AddDerived(order, builders, lanes, attention, id, b); }
        builders := builders[id := b];
        order := order + [id];
      }
      UpdateTwice(builders, id, builders[id], builders[id]);
    }

    /** The builder's sessions leave the index. */
    method DropIndexOf(id: string, ghost h: string)
      requires CoreOf(keyMode, order, builders, sessions, h) && id in builders
      modifies this`sessions
      ensures Synced(keyMode, SessionsOf(builders), id, map[], sessions, h)
    {
      ghost var all := SessionsOf(builders);
      var names := builders[id].held.sessions.Keys;
      var left := builders[id].held.sessions;
      Begin(keyMode, order, builders, sessions, h, id);
      while names != {}
        invariant names == left.Keys && Synced(keyMode, all, id, left, sessions, h)
        invariant forall n :: n in left ==> n in builders[id].held.sessions && left[n] == builders[id].held.sessions[n]
        decreases |names|
      {
        var n :| n in names;
        var k := KeyOf(keyMode, id, n);
        HeldName(keyMode, all, id, left, sessions, h, n);
        if k in sessions && sessions[k] == builders[id].held.sessions[n] { sessions := sessions - {k}; }
        names, left := names - {n}, left - {n};
      }
      assert left == map[];
    }

    /** The lanes and the attention entries of every builder, again. */
    method Derive()
      requires InsertionOrder(order, builders)
      modifies this`lanes, this`attention
      ensures Derived()
    {
      var all, merged := [], [];
      for i := 0 to |order|
        invariant all == AllLanes(order[..i], builders) && merged == MergedAttention(order[..i], builders)
      {
        assert order[..i + 1][..i] == order[..i];
        var b := builders[order[i]];
        all := all + b.held.lanes;
        merged := merged + AttentionOf(b);
      }
      assert order[..|order|] == order;
      lanes := all;
      attention := SortEntries(merged);
    }

    // ---- Snapshot and delta

    /** The sessions of one builder enter the index. */
    method IndexAll(id: string, m: Sessions, ghost all: map<string, Sessions>, ghost h: string)
      requires Synced(keyMode, all, id, map[], sessions, h) && (keyMode == ByName ==> id == h) && FiledByName(id, m)
      modifies this`sessions
      ensures Synced(keyMode, all, id, m, sessions, h)
    {
      var names := m.Keys;
      ghost var done: Sessions := map[];
      while names != {}
        invariant names <= m.Keys && done.Keys == m.Keys - names && forall n :: n in done ==> done[n] == m[n]
        invariant Synced(keyMode, all, id, done, sessions, h)
        decreases |names|
      {
        var n :| n in names;
        assert Look(n);
        SyncSet(keyMode, all, id, done, sessions, h, n, m[n]);
        sessions := sessions[KeyOf(keyMode, id, n) := m[n]];
        names, done := names - {n}, done[n := m[n]];
      }
      assert done == m;
    }

    /** The builder's new record is in: the index holds its sessions already. */
    method Settle(id: string, b: Builder, ghost h: string)
      requires InsertionOrder(order, builders) && Well(builders) && id in builders && WellHeld(id, b.held)
      requires Synced(keyMode, SessionsOf(builders), id, b.held.sessions, sessions, h)
      modifies this`builders, this`lanes, this`attention
      ensures builders == old(builders)[id := b] && Core(h) && Derived()
    {
      Finish(keyMode, order, builders, sessions, h, id, b);
      builders := builders[id := b];
      Derive();
    }

    method ApplySnapshot(id: string, msg: Record)
      requires Valid() && ValidId(id) && (keyMode == ByName ==> id == LocalId())
      modifies this`order, this`builders, this`sessions, this`lanes, this`attention
      ensures Valid()
      ensures builders == old(builders)[id := ScopedSnapshot(id, old(RecordOf(id)), msg).b]
      ensures order == if id in old(builders) then old(order) else old(order) + [id]
    {
      hide ScopedSnapshot, CoreOf, DerivedOf, Synced, WellHeld, NewBuilder;
      ghost var fleet := builders;
      BuilderFor(id, LocalId());
      Kept(keyMode, order, builders, sessions, LocalId(), id);
      var b := TakeSnapshot(id, builders[id], msg);
      UpdateTwice(fleet, id, builders[id], b);
      DropIndexOf(id, LocalId());
      IndexAll(id, b.held.sessions, SessionsOf(builders), LocalId());
      Settle(id, b, LocalId());
    }

    /** The delta's sessions, one by one, each with its index key. */
    method UpsertSessions(id: string, m0: Sessions, list: seq<Record>, leaving: nat, ghost all: map<string, Sessions>, ghost h: string)
      returns (m: Sessions, dropped: nat, names: seq<string>)
      requires Synced(keyMode, all, id, m0, sessions, h) && (keyMode == ByName ==> id == h)
      requires forall i :: 0 <= i < |list| ==> NameOf(list[i]) != ""
      modifies this`sessions
      ensures (m, dropped, names) == Upserts(m0, list, leaving)
      ensures Synced(keyMode, all, id, m, sessions, h)
    {
      hide Synced;
      m, dropped, names := m0, 0, [];
      for i := 0 to |list|
        invariant (m, dropped, names) == Upserts(m0, list[..i], leaving)
        invariant Synced(keyMode, all, id, m, sessions, h)
      {
        assert list[..i + 1][..i] == list[..i];
        var s := list[i];
        var n := NameOf(s);
        if n !in m && |m| - leaving >= MAX_SESSIONS {
          dropped := dropped + 1;
        } else {
          var k := KeyOf(keyMode, id, n);
          SyncSet(keyMode, all, id, m, sessions, h, n, s);
          SetOverRemoved(sessions, k, s);
          if n in m { sessions := sessions - {k}; }
          m := m[n := s];
          sessions := sessions[k := s];
          names := names + [n];
        }
      }
      assert list[..|list|] == list;
    }

    /** The names the delta removes leave the record and the index. */
    method RemoveSessions(id: string, m0: Sessions, removed: seq<Json>, ghost all: map<string, Sessions>, ghost h: string)
      returns (m: Sessions)
      requires Synced(keyMode, all, id, m0, sessions, h) && (keyMode == ByName ==> id == h)
      modifies this`sessions
      ensures m == m0 - RemovedNames(removed)
      ensures Synced(keyMode, all, id, m, sessions, h)
    {
      hide Synced;
      m := m0;
      for i := 0 to |removed|
        invariant m == m0 - RemovedNames(removed[..i])
        invariant Synced(keyMode, all, id, m, sessions, h)
      {
        RemovedOne(removed, i);
        if removed[i].JStr? && removed[i].s != "" {
          var n := removed[i].s;
          var k := KeyOf(keyMode, id, n);
          SyncRemove(keyMode, all, id, m, sessions, h, n);
          if n in m { HeldName(keyMode, all, id, m, sessions, h, n); }
          if n !in m || (k in sessions && sessions[k] == m[n]) { sessions := sessions - {k}; }
          m := m - {n};
        }
      }
      assert removed[..|removed|] == removed;
    }

    /** The session part of a delta: upserts first, with the room its removals make, then the removals. */
    method DeltaIndex(id: string, b: Builder, msg: Record, ghost all: map<string, Sessions>, ghost h: string)
      returns (r: Builder, names: seq<string>)
      requires Synced(keyMode, all, id, b.held.sessions, sessions, h) && (keyMode == ByName ==> id == h)
      modifies this`sessions
      ensures (r, names) == DeltaSessions(id, b, msg)
      ensures Synced(keyMode, all, id, r.held.sessions, sessions, h)
    {
      hide Synced, Stamp, StampAll, StampedSession, Upserts, RemovedNames;
      var removed := ListField(msg, "removed");
      var leaving := RemovedNames(removed) * b.held.sessions.Keys;
      var stamped, _ := StampList(KSession, id, ListField(msg, "sessions"), None);
      StampAllOk(id, ListField(msg, "sessions"));
      var m, d;
      m, d, names := UpsertSessions(id, b.held.sessions, stamped, |leaving|, all, h);
      m := RemoveSessions(id, m, removed, all, h);
      r := b.(held := b.held.(sessions := m), dropped := b.dropped.(sessions := b.dropped.sessions + d));
    }

    method ApplyDelta(id: string, msg: Record) returns (names: seq<string>)
      requires Valid() && ValidId(id) && (keyMode == ByName ==> id == LocalId())
      modifies this`order, this`builders, this`sessions, this`lanes, this`attention
      ensures Valid()
      ensures builders == old(builders)[id := ScopedDelta(id, old(RecordOf(id)), msg).b]
      ensures order == if id in old(builders) then old(order) else old(order) + [id]
      ensures names == DeltaSessions(id, old(RecordOf(id)), msg).1
    {
      hide CoreOf, DerivedOf, Synced, WellHeld, NewBuilder, ApplyCommon, DeltaSessions, ScopedDelta;
      ghost var fleet := builders;
      BuilderFor(id, LocalId());
      Kept(keyMode, order, builders, sessions, LocalId(), id);
      Begin(keyMode, order, builders, sessions, LocalId(), id);
      var b := builders[id];
      var r;
      r, names := DeltaIndex(id, b, msg, SessionsOf(builders), LocalId());
      DeltaHeld(id, b, msg);
      r := TakeCommon(id, r, msg);
      UpdateTwice(fleet, id, b, r);
      Settle(id, r, LocalId());
    }

    // ---- Messages that leave the sessions and the derived lists alone

    method Replace(id: string, b: Builder)
      requires Valid() && id in builders && b.held.sessions == builders[id].held.sessions
      requires WellHeld(id, b.held) && b.held.lanes == builders[id].held.lanes
      requires b.held.attention == builders[id].held.attention && b.info.status == builders[id].info.status
      modifies this`builders
      ensures Valid() && builders == old(builders)[id := b]
    {
      hide CoreOf, DerivedOf, WellHeld;
      ChangeRecord(keyMode, order, builders, sessions, LocalId(), id, b);
      ChangeDerived(order, builders, lanes, attention, id, b);
      builders := builders[id := b];
    }

    method ApplyStuck(id: string, msg: Record) returns (out: Option<Out>)
      requires Valid() && ValidId(id) && (keyMode == ByName ==> id == LocalId())
      modifies this`order, this`builders, this`sessions
      ensures Valid()
      ensures var sc := ScopedStuck(old(RecordOf(id)), msg); out == sc.out && builders == old(builders)[id := sc.b]
      ensures order == if id in old(builders) then old(order) else old(order) + [id]
    {
      hide CoreOf, DerivedOf, Synced, WellHeld, NewBuilder;
      ghost var fleet := builders;
      BuilderFor(id, LocalId());
      var b := builders[id];
      if !ValidName(msg, "name") { return None; }
      var n := msg["name"].s;
      if n !in b.held.sessions { return Some(OStuck([])); }
      var s := b.held.sessions[n]["stuck" := if "stuck" in msg then msg["stuck"] else JNull];
      Kept(keyMode, order, builders, sessions, LocalId(), id);
      Begin(keyMode, order, builders, sessions, LocalId(), id);
      StuckWellHeld(id, b, msg);
      SyncSet(keyMode, SessionsOf(builders), id, b.held.sessions, sessions, LocalId(), n, s);
      sessions := sessions[KeyOf(keyMode, id, n) := s];
      var r := b.(held := b.held.(sessions := b.held.sessions[n := s]));
      Finish(keyMode, order, builders, sessions, LocalId(), id, r);
      ChangeDerived(order, builders, lanes, attention, id, r);
      UpdateTwice(fleet, id, b, r);
      builders := builders[id := r];
      return Some(OStuck([n]));
    }

    /** Event, health, approval and repos: one record changes, nothing that is indexed or derived. */
    method ApplyOther(id: string, msg: Record, now: int) returns (out: Option<Out>)
      requires Valid() && ValidId(id) && ScopeOf(msg) in {SEvent, SHealth, SApproval, SRepos, SOther}
      modifies this`order, this`builders
      ensures Valid()
      ensures var sc := ScopedStep(id, old(RecordOf(id)), msg, now);
              out == sc.out && builders == if sc.touched then old(builders)[id := sc.b] else old(builders)
      ensures order == if id in old(builders) || !ScopedStep(id, old(RecordOf(id)), msg, now).touched then old(order) else old(order) + [id]
    {
      hide CoreOf, DerivedOf, WellHeld, NewBuilder, ScopedStep;
      var sc := ScopedStep(id, RecordOf(id), msg, now);
      if sc.touched {
        ghost var fleet := builders;
        BuilderFor(id, LocalId());
        Kept(keyMode, order, builders, sessions, LocalId(), id);
        ScopedWellHeld(id, builders[id], msg, now);
        OtherLeavesAlone(id, builders[id], msg, now);
        UpdateTwice(fleet, id, builders[id], sc.b);
        Replace(id, sc.b);
      }
      return sc.out;
    }

    // ---- Fleet rows, hello and status

    /** One record goes, its sessions out of the index first. */
    method RemoveBuilder(id: string, ghost h: string, ghost h': string)
      requires Core(h) && id in builders && (keyMode == ByName ==> h == h' || h == id)
      modifies this`order, this`builders, this`sessions
      ensures Core(h') && builders == old(builders) - {id} && order == Without(old(order), id)
    {
      hide WellHeld;
      DropIndexOf(id, h);
      DropRecord(keyMode, order, builders, sessions, h, h', id);
      builders := builders - {id};
      order := Without(order, id);
    }

    /** A record's info changes; the lists that depend on its status are derived again by the caller. */
    method SetInfo(id: string, info: Info, ghost h: string)
      requires Core(h) && id in builders
      modifies this`builders
      ensures Core(h) && builders == old(builders)[id := old(builders)[id].(info := info)]
    {
      hide WellHeld, CoreOf;
      Kept(keyMode, order, builders, sessions, h, id);
      var b := builders[id].(info := info);
      ChangeRecord(keyMode, order, builders, sessions, h, id, b);
      builders := builders[id := b];
    }

    method TakeRows(list: seq<Json>) returns (seen: set<string>)
      requires Core(LocalId())
      modifies this`order, this`builders
      ensures Core(LocalId()) && seen == RowIds(list)
      ensures builders == AfterRows(StartStatus(), old(builders), list)
      ensures order == OrderAfterRows(StartStatus(), old(builders), old(order), list)
    {
      hide CoreOf, RowInfo, NewBuilder;
      seen := {};
      for i := 0 to |list|
        invariant Core(LocalId()) && seen == RowIds(list[..i])
        invariant builders == AfterRows(StartStatus(), old(builders), list[..i])
        invariant order == OrderAfterRows(StartStatus(), old(builders), old(order), list[..i])
      {
        RowIdsOne(list, i);
        assert list[..i + 1][..i] == list[..i];
        var id := RowId(list[i]);
        if id.Some? && id.value !in seen {
          seen := seen + {id.value};
          ghost var fleet := builders;
          BuilderFor(id.value, LocalId());
          ghost var b := builders[id.value];
          SetInfo(id.value, RowInfo(builders[id.value].info, list[i].fields), LocalId());
          UpdateTwice(fleet, id.value, b, builders[id.value]);
        }
      }
      assert list[..|list|] == list;
    }

    /** The records whose id is not in `seen` go. */
    method DropUnlisted(seen: set<string>, ghost h: string)
      requires Core(h)
      modifies this`order, this`builders, this`sessions
      ensures Core(h)
      ensures builders == old(builders) - (old(builders).Keys - seen) && order == KeepIds(old(order), seen)
    {
      hide WellHeld, CoreOf, KeepIds, Without;
      ghost var f := builders;
      CoreOrder(keyMode, order, builders, sessions, h);
      var all := order;
      assert KeepIds(all[..0], seen) == [] by { KeepNone(all[..0], seen); }
      for i := 0 to |all|
        invariant Core(h)
        invariant order == KeepIds(all[..i], seen) + all[i..]
        invariant builders == f - Unlisted(all[..i], seen)
      {
        var id := all[i];
        KeepOne(all, i, seen);
        UnlistedOne(all, i, seen);
        if id !in seen {
          CoreOrder(keyMode, order, builders, sessions, h);
          assert id in builders;
          RemoveBuilder(id, h, h);
        }
      }
      assert all[..|all|] == all;
      AllUnlisted(all, f, seen);
    }

    /** The hub's rows: one record for each listed builder, the others dropped. */
    method ApplyBuilders(list: seq<Json>)
      requires Valid()
      modifies this`order, this`builders, this`sessions, this`lanes, this`attention
      ensures Valid()
      ensures var f := AfterRows(StartStatus(), old(builders), list); builders == f - (f.Keys - RowIds(list))
      ensures order == KeepIds(OrderAfterRows(StartStatus(), old(builders), old(order), list), RowIds(list))
    {
      hide AfterRows, OrderAfterRows, RowIds, WellHeld, KeepIds, CoreOf;
      var seen := TakeRows(list);
      DropUnlisted(seen, LocalId());
      CoreOrder(keyMode, order, builders, sessions, LocalId());
      Derive();
    }

    /** Every record but `id`'s goes; what is left is `id`'s. */
    method KeepOnly(id: string, ghost h: string)
      requires Core(h)
      modifies this`order, this`builders, this`sessions
      ensures Core(id) && builders.Keys == old(builders).Keys * {id} && order == if id in old(builders) then [id] else []
      ensures id in old(builders) ==> builders[id] == old(builders)[id]
    {
      hide WellHeld, CoreOf, KeepIds;
      CoreOrder(keyMode, order, builders, sessions, h);
      KeepSelf(order, id);
      assert id in order <==> id in builders by { assert Look(id); }
      DropUnlisted({id}, h);
      Rehome(keyMode, order, builders, sessions, h, id);
    }

    /** The one record left is told what the hello says. */
    method AdoptHello(id: string, msg: Record, ghost h: string)
      requires Core(h) && ValidId(id)
      modifies this`order, this`builders, this`sessions
      ensures Core(id) && order == [id]
      ensures builders == map[id := old(RecordOf(id)).(info := HelloInfo(old(RecordOf(id)).info, msg))]
    {
      hide WellHeld, CoreOf, KeepIds, NewBuilder, HelloInfo;
      KeepOnly(id, h);
      BuilderFor(id, id);
      SetInfo(id, HelloInfo(builders[id].info, msg), id);
    }

    /** The local source's hello: its builder is the only one from here on. */
    method ApplyHello(msg: Record) returns (out: Option<Change>)
      requires Valid()
      modifies this`sourceId, this`sourceCode, this`order, this`builders, this`sessions, this`lanes, this`attention
      ensures Valid()
      ensures kind == Hub || HelloId(msg) == None ==>
                out == None && sourceId == old(sourceId) && sourceCode == old(sourceCode)
                && builders == old(builders) && sessions == old(sessions) && order == old(order)
      ensures kind == Local && HelloId(msg).Some? ==>
                var id := HelloId(msg).value;
                && out == Some(CHello(id)) && sourceId == Some(id) && order == [id]
                && sourceCode == HelloInfo(old(RecordOf(id)).info, msg).code
                && builders == map[id := old(RecordOf(id)).(info := HelloInfo(old(RecordOf(id)).info, msg))]
    {
      hide WellHeld, CoreOf, KeepIds, NewBuilder, DerivedOf, HelloInfo, HelloId;
      if kind == Hub || HelloId(msg) == None { return None; }
      var id := HelloId(msg).value;
      HelloIdValid(msg);
      ghost var h := LocalId();
      sourceId, sourceCode := Some(id), HelloInfo(NewBuilder(StartStatus()).info, msg).code;
      HelloCode(NewBuilder(StartStatus()).info, RecordOf(id).info, msg);
      AdoptHello(id, msg, h);
      CoreOrder(keyMode, order, builders, sessions, id);
      Derive();
      return Some(CHello(id));
    }

    /** The connection's status; a local source's builders mirror it. */
    method SetSourceStatus(status: SourceStatus)
      requires Valid()
      modifies this`sourceStatus, this`builders, this`lanes, this`attention
      ensures Valid() && sourceStatus == status
      ensures kind == Hub ==> builders == old(builders)
      ensures kind == Local ==> builders == Mirrored(old(builders), old(builders).Keys, MirrorOf(status))
    {
      hide WellHeld, CoreOf, DerivedOf, Mirrored;
      sourceStatus := status;
      if kind == Local {
        ghost var f := builders;
        CoreOrder(keyMode, order, builders, sessions, LocalId());
        MirrorNone(f, MirrorOf(status));
        for i := 0 to |order|
          invariant sourceStatus == status && Core(LocalId()) && builders == Mirrored(f, Ids(order[..i]), MirrorOf(status))
        {
          CoreOrder(keyMode, order, builders, sessions, LocalId());
          MirrorOne(f, order, i, MirrorOf(status));
          SetInfo(order[i], builders[order[i]].info.(status := MirrorOf(status)), LocalId());
        }
        CoreOrder(keyMode, order, builders, sessions, LocalId());
        AllIds(order, f);
        assert order[..|order|] == order;
        Derive();
      }
    }

    // ---- Key mode and source kind

    /** One builder's sessions enter an index that is being rebuilt. */
    method FileUnder(id: string, m: Sessions, ghost all: map<string, Sessions>)
      requires id in all && all[id] == map[] && Named(all) && Indexed(keyMode, all, sessions) && "" !in m
      modifies this`sessions
      ensures Indexed(keyMode, all[id := m], sessions) && Named(all[id := m])
    {
      hide Indexed, Named;
      var names := m.Keys;
      ghost var done: Sessions := map[];
      assert all[id := done] == all;
      while names != {}
        invariant names <= m.Keys && done.Keys == m.Keys - names && forall n :: n in done ==> done[n] == m[n]
        invariant Indexed(keyMode, all[id := done], sessions) && Named(all[id := done])
        decreases |names|
      {
        var n :| n in names;
        ghost var cur := all[id := done];
        IndexedSet(keyMode, cur, sessions, id, n, m[n]);
        assert cur[id := cur[id][n := m[n]]] == all[id := done[n := m[n]]];
        sessions := sessions[KeyOf(keyMode, id, n) := m[n]];
        names, done := names - {n}, done[n := m[n]];
      }
      assert done == m;
    }

    /** One builder more. */
    method FileBuilder(id: string, ghost all: map<string, Sessions>)
      requires Well(builders) && id in builders && id !in all && Named(all) && Indexed(keyMode, all, sessions)
      modifies this`sessions
      ensures Indexed(keyMode, all[id := builders[id].held.sessions], sessions) && Named(all[id := builders[id].held.sessions])
    {
      hide Indexed, Named, Well;
      NamedAdd(builders, all, id);
      IndexedAdd(keyMode, all, sessions, id);
      FileUnder(id, builders[id].held.sessions, all[id := map[]]);
      assert all[id := map[]][id := builders[id].held.sessions] == all[id := builders[id].held.sessions];
    }

    /** The whole index, again. */
    method Reindex()
      requires InsertionOrder(order, builders) && Well(builders)
      modifies this`sessions
      ensures Indexed(keyMode, SessionsOf(builders), sessions) && Named(SessionsOf(builders))
    {
      RestrictNone(order, builders);
      hide Indexed, Named, Well, InsertionOrder, Restricted, Ids;
      sessions := map[];
      NothingIndexed(keyMode);
      NoneNamed();
      for i := 0 to |order|
        invariant Indexed(keyMode, Restricted(builders, Ids(order[..i])), sessions) && Named(Restricted(builders, Ids(order[..i])))
      {
        RestrictOne(builders, order, i);
        FileBuilder(order[i], Restricted(builders, Ids(order[..i])));
      }
      assert order[..|order|] == order;
      AllIds(order, builders);
    }

    /** The index and everything the page keeps by key move to the other key mode. */
    method SetKeyMode(next: KeyMode)
      requires ValidId(LocalId()) && InsertionOrder(order, builders) && Well(builders) && Derived()
      modifies this`keyMode, this`cursor, this`openSession, this`pinned, this`laneFilter, this`sessions
      ensures keyMode == next
      ensures next == old(keyMode) ==>
                sessions == old(sessions) && cursor == old(cursor) && openSession == old(openSession)
                && pinned == old(pinned) && laneFilter == old(laneFilter)
      ensures next != old(keyMode) ==>
                && cursor == Conv(next, LocalId(), old(cursor)) && openSession == Conv(next, LocalId(), old(openSession))
                && pinned == ConvPins(next, LocalId(), old(pinned)) && laneFilter == {}
      ensures next != old(keyMode) && next == ByFkey ==> Valid()
      ensures next != old(keyMode) && next == ByName ==>
                && (Agree(KeyFn(ByName), SessionsOf(builders), sessions) <==> OneSessionPerName(SessionsOf(builders)))
                && (kind == Local && OneHolder(SessionsOf(builders), LocalId()) ==> Valid())
    {
      hide CoreOf, DerivedOf, InsertionOrder, Well, Agree, OneSessionPerName, OneHolder, Indexed, Named;
      if keyMode == next { return; }
      var id := LocalId();
      keyMode := next;
      cursor, openSession := Conv(next, id, cursor), Conv(next, id, openSession);
      pinned := ConvPins(next, id, pinned);
      laneFilter := {};
      Reindex();
      if next == ByFkey {
        RebuiltByFkey(order, builders, sessions, id);
      } else {
        RebuiltByName(order, builders, sessions, id);
      }
    }

    /** Which source feeds the store; a hub has no builder of its own and always keys by fleet key. */
    method SetSourceKind(to: SourceKind)
      requires Valid()
      modifies this`kind, this`sourceId, this`keyMode, this`cursor, this`openSession, this`pinned, this`laneFilter, this`sessions
      ensures Valid() && kind == to && (to == Hub ==> sourceId == None && keyMode == ByFkey)
      ensures to == Local ==> sourceId == old(sourceId) && keyMode == old(keyMode) && sessions == old(sessions) && pinned == old(pinned)
      ensures to == Hub && old(keyMode) == ByName ==> pinned == ConvPins(ByFkey, LOCAL_FALLBACK_ID, old(pinned))
    {
      hide CoreOf, DerivedOf, ConvPins;
      kind := to;
      if kind == Hub {
        ghost var h := LocalId();
        CoreOrder(keyMode, order, builders, sessions, h);
        sourceId := None;
        if keyMode == ByFkey { AnyHolder(order, builders, sessions, h, LocalId()); }
        SetKeyMode(ByFkey);
      }
    }

    // ---- One message

    function RouteOf(msg: Record): Option<string>
      reads this`kind, this`sourceId
    {
      RouteTo(kind, LocalId(), msg)
    }

    /** A builder-scoped message's effect on its builder's record, and nothing else changes. */
    method IngestScoped(id: string, msg: Record, now: int) returns (out: Option<Out>)
      requires Valid() && ValidId(id) && (keyMode == ByName ==> id == LocalId())
      modifies this`order, this`builders, this`sessions, this`lanes, this`attention
      ensures Valid()
      ensures var sc := ScopedStep(id, old(RecordOf(id)), msg, now);
              out == sc.out && builders == if sc.touched then old(builders)[id := sc.b] else old(builders)
    {
      hide CoreOf, DerivedOf, NewBuilder, ScopedSnapshot, ScopedDelta, ScopedEvent, ScopedHealth, ScopedApproval, ScopedStuck, ScopedRepos,
           DeltaSessions;
      ghost var b := RecordOf(id);
      DeltaOut(id, b, msg);
      match ScopeOf(msg)
      case SSnapshot =>
        ApplySnapshot(id, msg);
        out := Some(OSnapshot);
      case SDelta =>
        var names := ApplyDelta(id, msg);
        out := Some(ODelta(if HasList(msg, "sessions") then Some(names) else None));
      case SStuck =>
        out := ApplyStuck(id, msg);
        StuckOut(b, msg);
      case _ =>
        out := ApplyOther(id, msg, now);
    }

    method Ingest(msg: Record, now: int) returns (out: Option<Change>)
      requires Valid()
      modifies this`sourceId, this`sourceCode, this`order, this`builders, this`sessions, this`lanes, this`attention
      ensures Valid()
      ensures builders.Keys == IdsAfter(kind, old(LocalId()), old(builders).Keys, msg)
      ensures LocalId() == LocalAfter(kind, old(LocalId()), msg)
      ensures AtDesk() == Ingested(old(AtDesk()), msg, now) && out == Answer(old(AtDesk()), msg, now)
      ensures TopOf(msg) == TScoped ==>
                match old(RouteOf(msg))
                case None => sessions == old(sessions)
                case Some(id) => keyMode == ByFkey ==> SameButFor(id, old(sessions), sessions)
      ensures TopOf(msg) in {TPassive, TNone} || (TopOf(msg) == TFleet && !HasList(msg, "builders")) ==>
                sessions == old(sessions) && order == old(order)
    {
      hide CoreOf, DerivedOf, NewBuilder, ScopedStep, AfterRows, RowIds, SameButFor, HelloInfo, Touches;
      out := None;
      match TopOf(msg)
      case THello =>
        out := ApplyHello(msg);
      case TFleet =>
        if HasList(msg, "builders") {
          RowsAreIn(StartStatus(), builders, ListField(msg, "builders"));
          ApplyBuilders(ListField(msg, "builders"));
          out := Some(CFleet);
        }
      case TPassive =>
        out := Some(CPassive);
      case TNone =>
      case TScoped =>
        var id := RouteOf(msg);
        if id.Some? {
          var sc := TakeScoped(id.value, msg, now);
          if sc.Some? { out := Some(CScoped(id.value, sc.value)); }
        }
    }

    /** A scoped message, and the time its builder was last heard. */
    method TakeScoped(id: string, msg: Record, now: int) returns (out: Option<Out>)
      requires Valid() && ValidId(id) && (keyMode == ByName ==> id == LocalId())
      modifies this`order, this`builders, this`sessions, this`lanes, this`attention
      ensures Valid()
      ensures var sc := ScopedStep(id, old(RecordOf(id)), msg, now);
              out == sc.out && builders == if sc.touched then old(builders)[id := Heard(sc, now)] else old(builders)
      ensures keyMode == ByFkey ==> SameButFor(id, old(sessions), sessions)
      ensures builders.Keys == if Touches(msg) then old(builders).Keys + {id} else old(builders).Keys
    {
      hide CoreOf, DerivedOf, NewBuilder, ScopedStep, SameButFor, Touches, WellHeld;
      ghost var fleet, index := builders, sessions;
      TouchesIsTouched(id, RecordOf(id), msg, now);
      out := IngestScoped(id, msg, now);
      if out.Some? {
        Kept(keyMode, order, builders, sessions, LocalId(), id);
        ghost var b := builders[id];
        Replace(id, builders[id].(data := builders[id].data.(lastMsgAt := now)));
        UpdateTwice(fleet, id, b, builders[id]);
      }
      if keyMode == ByFkey { Isolated(fleet, builders, id, index, sessions, LocalId(), old(order), order); }
    }

    /** One thing that happens: the source and the records are the step's. */
    method Do(op: Op) returns (answer: Option<Change>)
      requires Valid()
      modifies this
      ensures Valid() && AtDesk() == Step(old(AtDesk()), op)
      ensures answer == if op.OIngest? then Answer(old(AtDesk()), op.msg, op.now) else None
    {
      hide CoreOf, DerivedOf, Ingested, Answer, Mirrored;
      answer := None;
      match op
      case OIngest(msg, now) => answer := Ingest(msg, now);
      case OSourceKind(k) => SetSourceKind(k);
      case OSourceStatus(st) => SetSourceStatus(st);
      case OFleetKeys => ToFleetKeys();
      case ONameKeys => ToNameKeys();
    }

    /**
      Any run of messages and switches: the index and the derived lists always are what the builders say. `accepted` lists
      the accepted events, builder and time; `taken` has, for every record, those accepted since it was made.
    */
    method Run(ops: seq<Op>) returns (accepted: seq<(string, int)>, ghost taken: map<string, seq<int>>)
      requires Valid()
      modifies this
      ensures Valid() && AtDesk() == After(old(AtDesk()), ops)
      ensures keyMode == ByFkey ==> Agree(KeyFn(ByFkey), SessionsOf(builders), sessions)
      ensures keyMode == ByName ==> Agree(KeyFn(ByName), SessionsOf(builders), sessions)
      ensures forall id :: id in builders ==> |builders[id].held.sessions| <= MAX_SESSIONS
      ensures Counted(old(AtDesk()), ops, accepted, taken)
      ensures old(builders) == map[] && InTime(ops) ==>
                forall id, from :: id in taken ==> CountIn(taken[id], from) <= 40
      ensures old(builders) == map[] && InTime(ops) && FromZero(ops) ==>
                forall id, from :: CountIn(TimesOf(accepted, id), from)
                                   <= 40 + 20 * MadeIn(old(AtDesk()), ops, id, from)
    {
      ghost var d := AtDesk();
      accepted, taken := RunAll(ops);
      if d.fleet == map[] && InTime(ops) { CountedRates(d, ops, accepted, taken); }
      forall id | id in builders ensures |builders[id].held.sessions| <= MAX_SESSIONS { assert Look(id); }
    }

    method RunAll(ops: seq<Op>) returns (accepted: seq<(string, int)>, ghost taken: map<string, seq<int>>)
      requires Valid()
      modifies this
      ensures Valid() && AtDesk() == After(old(AtDesk()), ops) && Counted(old(AtDesk()), ops, accepted, taken)
    {
      hide CoreOf, DerivedOf, Step, Answer, Counted, NextAccepted, NextTaken;
      ghost var d := AtDesk();
      accepted, taken := [], map id | id in builders :: [];
      NothingCounted(d);
      assert ops[..0] == [];
      for i := 0 to |ops|
        invariant Valid() && AtDesk() == After(d, ops[..i]) && Counted(d, ops[..i], accepted, taken)
      {
        assert ops[..i + 1] == ops[..i] + [ops[i]];
        AfterOne(d, ops[..i], ops[i]);
        ghost var at := AtDesk();
        var answer := Do(ops[i]);
        CountedOne(d, ops[..i], ops[i], accepted, taken, answer);
        accepted := NextAccepted(accepted, ops[i], answer);
        taken := NextTaken(taken, at, ops[i]);
      }
      assert ops[..|ops|] == ops;
    }

    method ToNameKeys()
      requires Valid()
      modifies this
      ensures Valid() && AtDesk() == old(AtDesk())
      ensures keyMode == if kind == Local && OnlyLocal(builders, LocalId()) then ByName else old(keyMode)
    {
      hide CoreOf, DerivedOf, OneHolder, OnlyLocal;
      CoreOrder(keyMode, order, builders, sessions, LocalId());
      OneHolderIs(builders, LocalId());
      if kind == Local && OnlyLocal(builders, LocalId()) { SetKeyMode(ByName); }
    }

    method ToFleetKeys()
      requires Valid()
      modifies this
      ensures Valid() && keyMode == ByFkey && AtDesk() == old(AtDesk())
    {
      hide CoreOf, DerivedOf;
      CoreOrder(keyMode, order, builders, sessions, LocalId());
      SetKeyMode(ByFkey);
    }
  }
}
