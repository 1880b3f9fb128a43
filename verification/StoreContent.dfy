/**
  What a builder's record holds after a message (public/js/core/store.js), field by field:
  which sessions, which entries of the capped lists, and whose word each of them is.
*/
module StoreContent {
  import opened Options
  import opened Keys
  import opened StoreSpec

  // ---- Stamped entries

  /** The name a kind of record must have to count. */
  function IdField(kind: Kind): Option<string> {
    match kind
    case KSession => Some("name")
    case KLane => Some("id")
    case KAttention => Some("name")
    case KApproval => None
  }

  /** An object with a name of its kind: a non-empty string of at most 200 characters. */
  predicate Counts(kind: Kind, raw: Json) {
    raw.JObj? &&
    match IdField(kind)
    case None => true
    case Some(k) => k in raw.fields && raw.fields[k].JStr? && 1 <= |raw.fields[k].s| <= 200
  }

  /** The fleet key of the name in a field, null without one. */
  function KeyIn(id: string, o: Record, k: string): Json {
    if k in o && o[k].JStr? && o[k].s != "" then JStr(Fkey(id, o[k].s)) else JNull
  }

  /** A record counts exactly when it has its name; stamped, its routing is the frame's and every other field its own. */
  lemma StampLaw(kind: Kind, id: string, raw: Json)
    ensures Stamp(kind, id, raw).Some? <==> Counts(kind, raw)
    ensures Counts(kind, raw) ==>
              var s, o := Stamp(kind, id, raw).value, raw.fields;
              && Field(s, "builder") == Some(JStr(id))
              && Field(s, "key") == Some(KeyIn(id, o, if kind == KLane then "id" else "name"))
              && Field(s, "laneKey") == (if kind == KSession then Some(KeyIn(id, o, "lane")) else None)
              && Field(s, "fkey") == None
              && forall k :: k !in {"key", "laneKey", "builder", "fkey"} ==> Field(s, k) == Field(o, k)
  {
  }

  /** Where the entries that count stand in a list. */
  function Places(kind: Kind, raws: seq<Json>): (r: seq<nat>)
    ensures forall j :: 0 <= j < |r| ==> r[j] < |raws| && Counts(kind, raws[r[j]])
    ensures forall i, j :: 0 <= i < j < |r| ==> r[i] < r[j]
    ensures forall i :: 0 <= i < |raws| && Counts(kind, raws[i]) ==> i in r
  {
    if raws == [] then []
    else
      var n := |raws| - 1;
      var head := Places(kind, raws[..n]);
      assert forall j :: 0 <= j < |head| ==> raws[..n][head[j]] == raws[head[j]];
      assert forall i :: 0 <= i < n && Counts(kind, raws[i]) ==> raws[..n][i] == raws[i] && i in head;
      if Counts(kind, raws[n]) then head + [n] else head
  }

  /** The stamped list is the entries that count, in order, up to the cap. */
  lemma {:induction false} StampedList(kind: Kind, id: string, raws: seq<Json>, max: Option<nat>)
    ensures var r, at := StampAll(kind, id, raws, max).0, Places(kind, raws);
            && |r| == (if max.Some? && max.value < |at| then max.value else |at|)
            && forall j :: 0 <= j < |r| ==> Stamp(kind, id, raws[at[j]]) == Some(r[j])
  {
    if raws != [] {
      hide Stamp, Counts, Places;
      var n := |raws| - 1;
      StampedList(kind, id, raws[..n], max);
      StampLaw(kind, id, raws[n]);
      PlacesMore(kind, raws);
    }
  }

  lemma PlacesMore(kind: Kind, raws: seq<Json>)
    requires raws != []
    ensures var n := |raws| - 1; var head := Places(kind, raws[..n]);
            && Places(kind, raws) == (if Counts(kind, raws[n]) then head + [n] else head)
            && forall j :: 0 <= j < |head| ==> head[j] < n && raws[..n][head[j]] == raws[head[j]]
  {
    hide Counts;
  }

  // ---- Filling a map by name, as long as there is room

  /** How a record names itself. */
  type Key = Record -> string

  function NamesOf(key: Key, list: seq<Record>): set<string> { set i | 0 <= i < |list| :: key(list[i]) }

  predicate LastAt(key: Key, list: seq<Record>, n: string, i: nat) {
    i < |list| && key(list[i]) == n && forall j :: i < j < |list| ==> key(list[j]) != n
  }

  /** The last entry with this name. */
  function LastOf(key: Key, list: seq<Record>, n: string): (r: Option<Record>)
    ensures r == None <==> n !in NamesOf(key, list)
    ensures r.Some? ==> exists i: nat :: LastAt(key, list, n, i) && list[i] == r.value
  {
    if list == [] then None
    else
      var k := |list| - 1;
      if key(list[k]) == n then (assert LastAt(key, list, n, k); Some(list[k]))
      else
        (NamesMore(key, list);
         assert forall i: nat :: LastAt(key, list[..k], n, i) ==> LastAt(key, list, n, i) && list[..k][i] == list[i];
         LastOf(key, list[..k], n))
  }

  lemma NamesMore(key: Key, list: seq<Record>)
    requires list != []
    ensures NamesOf(key, list) == NamesOf(key, list[..|list| - 1]) + {key(list[|list| - 1])}
  {
    var k := |list| - 1;
    forall x ensures x in NamesOf(key, list) <==> x in NamesOf(key, list[..k]) + {key(list[k])} {
      if x in NamesOf(key, list[..k]) { var i :| 0 <= i < k && key(list[..k][i]) == x; assert key(list[i]) == x; }
      if x in NamesOf(key, list) { var i :| 0 <= i < |list| && key(list[i]) == x; if i < k { assert key(list[..k][i]) == x; } }
    }
  }

  /** A name not held finds room: where it first comes, those held and those before it are fewer than may be. */
  ghost predicate FindsRoom(key: Key, held: set<string>, list: seq<Record>, n: string, room: nat) {
    exists i: nat :: FirstWithRoom(key, held, list, n, room, i)
  }

  ghost predicate FirstWithRoom(key: Key, held: set<string>, list: seq<Record>, n: string, room: nat, i: nat) {
    i < |list| && key(list[i]) == n && n !in NamesOf(key, list[..i]) && |held + NamesOf(key, list[..i])| < room
  }

  lemma RoomMore(key: Key, held: set<string>, list: seq<Record>, n: string, room: nat)
    requires list != []
    ensures var k := |list| - 1;
            FindsRoom(key, held, list, n, room) <==>
            FindsRoom(key, held, list[..k], n, room) || (key(list[k]) == n && n !in NamesOf(key, list[..k]) && |held + NamesOf(key, list[..k])| < room)
  {
    var k := |list| - 1;
    if FindsRoom(key, held, list, n, room) {
      var i: nat :| FirstWithRoom(key, held, list, n, room, i);
      if i < k { assert list[..k][..i] == list[..i]; assert FirstWithRoom(key, held, list[..k], n, room, i); }
    }
    if FindsRoom(key, held, list[..k], n, room) {
      var i: nat :| FirstWithRoom(key, held, list[..k], n, room, i);
      assert list[..k][..i] == list[..i];
      assert FirstWithRoom(key, held, list, n, room, i);
    }
    if key(list[k]) == n && n !in NamesOf(key, list[..k]) && |held + NamesOf(key, list[..k])| < room {
      assert FirstWithRoom(key, held, list, n, room, k);
    }
  }

  /** Which names are held, and how many. */
  ghost predicate HoldsNames(key: Key, keys: set<string>, list: seq<Record>, room: nat, m: set<string>) {
    && (forall n :: n in m <==> n in keys || FindsRoom(key, keys, list, n, room))
    && (|m| < room <==> |keys + NamesOf(key, list)| < room)
    && (|keys + NamesOf(key, list)| < room ==> m == keys + NamesOf(key, list))
  }

  /** Each held name has its last entry, or what it had. */
  ghost predicate HoldsLast(key: Key, m0: map<string, Record>, list: seq<Record>, m: map<string, Record>) {
    forall n :: n in m ==>
      (LastOf(key, list, n).Some? ==> m[n] == LastOf(key, list, n).value) && (LastOf(key, list, n) == None ==> n in m0 && m[n] == m0[n])
  }

  lemma NamesHeldMore(key: Key, keys: set<string>, list: seq<Record>, room: nat, m: set<string>)
    requires list != [] && HoldsNames(key, keys, list[..|list| - 1], room, m)
    ensures var n := key(list[|list| - 1]);
            HoldsNames(key, keys, list, room, if n !in m && |m| >= room then m else m + {n})
  {
    hide FindsRoom, NamesOf;
    var k := |list| - 1;
    var x := key(list[k]);
    NamesMore(key, list);
    var u := keys + NamesOf(key, list[..k]);
    assert keys + NamesOf(key, list) == u + {x};
    var m' := if x !in m && |m| >= room then m else m + {x};
    forall n ensures n in m' <==> n in keys || FindsRoom(key, keys, list, n, room) {
      RoomMore(key, keys, list, n, room);
      if n == x && n in NamesOf(key, list[..k]) && n !in m { assert |u| >= room; }
    }
    SizeMore(u, x, room);
    SizeMore(m, x, room);
  }

  lemma SizeMore(u: set<string>, x: string, room: nat)
    ensures |u| <= |u + {x}| <= |u| + 1 && (x in u ==> u + {x} == u)
  {
    if x !in u { assert |u + {x}| == |u| + 1; } else { assert u + {x} == u; }
  }

  lemma LastHeldMore(key: Key, m0: map<string, Record>, list: seq<Record>, m: map<string, Record>, skip: bool)
    requires list != [] && HoldsLast(key, m0, list[..|list| - 1], m) && (skip ==> key(list[|list| - 1]) !in m)
    ensures HoldsLast(key, m0, list, if skip then m else m[key(list[|list| - 1]) := list[|list| - 1]])
  {
  }

  /** Entries put one by one under their names: a known name is overwritten, a new one needs room. */
  function Fill(key: Key, m0: map<string, Record>, list: seq<Record>, room: nat): map<string, Record> {
    if list == [] then m0
    else
      var m, s := Fill(key, m0, list[..|list| - 1], room), list[|list| - 1];
      if key(s) !in m && |m| >= room then m else m[key(s) := s]
  }

  lemma NoneFilled(key: Key, m0: map<string, Record>, room: nat)
    ensures HoldsNames(key, m0.Keys, [], room, m0.Keys) && HoldsLast(key, m0, [], m0)
  {
    assert NamesOf(key, []) == {} && m0.Keys + {} == m0.Keys;
  }

  lemma {:induction false} FillHolds(key: Key, m0: map<string, Record>, list: seq<Record>, room: nat)
    ensures var m := Fill(key, m0, list, room); HoldsNames(key, m0.Keys, list, room, m.Keys) && HoldsLast(key, m0, list, m)
  {
    hide HoldsNames, HoldsLast;
    if list == [] {
      NoneFilled(key, m0, room);
    } else {
      var s := list[|list| - 1];
      FillHolds(key, m0, list[..|list| - 1], room);
      var m := Fill(key, m0, list[..|list| - 1], room);
      NamesHeldMore(key, m0.Keys, list, room, m.Keys);
      var skip := key(s) !in m && |m| >= room;
      LastHeldMore(key, m0, list, m, skip);
      assert |m| == |m.Keys| && m[key(s) := s].Keys == m.Keys + {key(s)};
    }
  }

  /** What filling comes to for one name. */
  lemma FillLaw(key: Key, m0: map<string, Record>, list: seq<Record>, room: nat, n: string)
    ensures var m := Fill(key, m0, list, room);
            && (n in m <==> n in m0 || FindsRoom(key, m0.Keys, list, n, room))
            && (n in m ==> (LastOf(key, list, n).Some? ==> m[n] == LastOf(key, list, n).value)
                           && (LastOf(key, list, n) == None ==> n in m0 && m[n] == m0[n]))
  {
    hide FindsRoom, LastOf, Fill;
    FillHolds(key, m0, list, room);
  }

  // ---- The sessions

  lemma {:induction false} UpsertsFill(m0: map<string, Record>, list: seq<Record>, leaving: nat)
    ensures Upserts(m0, list, leaving).0 == Fill(NameOf, m0, list, MAX_SESSIONS + leaving)
  {
    if list != [] { UpsertsFill(m0, list[..|list| - 1], leaving); }
  }

  lemma {:induction false} SnapshotFills(list: seq<Record>)
    ensures KeepSessions(list).0 == Fill(NameOf, map[], list, MAX_SESSIONS)
  {
    if list != [] { SnapshotFills(list[..|list| - 1]); }
  }

  /** What a delta reports as set: every entry whose name is held after it; the others are counted as dropped. */
  lemma {:induction false} UpsertsReport(m0: map<string, Record>, list: seq<Record>, leaving: nat)
    ensures var (m, d, names) := Upserts(m0, list, leaving);
            d + |names| == |list| && (forall n :: n in names <==> n in NamesOf(NameOf, list) && n in m) && m0.Keys <= m.Keys
  {
    if list == [] {
      assert NamesOf(NameOf, []) == {};
    } else {
      hide NamesOf;
      UpsertsReport(m0, list[..|list| - 1], leaving);
      NamesMore(NameOf, list);
      StaysOut(m0, list, leaving);
    }
  }

  /** A name that found no room finds none later either. */
  lemma StaysOut(m0: map<string, Record>, list: seq<Record>, leaving: nat)
    requires list != []
    ensures var m, s := Upserts(m0, list[..|list| - 1], leaving).0, list[|list| - 1];
            |m| - leaving < MAX_SESSIONS && NameOf(s) !in m ==> NameOf(s) !in NamesOf(NameOf, list[..|list| - 1])
  {
    hide Upserts, Fill, FindsRoom, NamesOf, HoldsNames, HoldsLast;
    var head := list[..|list| - 1];
    UpsertsFill(m0, head, leaving);
    FillHolds(NameOf, m0, head, MAX_SESSIONS + leaving);
    var m := Upserts(m0, head, leaving).0;
    if |m| - leaving < MAX_SESSIONS { RoomForAll(m0.Keys, head, MAX_SESSIONS + leaving, m); }
  }

  lemma RoomForAll(keys: set<string>, list: seq<Record>, room: nat, m: map<string, Record>)
    requires HoldsNames(NameOf, keys, list, room, m.Keys) && |m| < room
    ensures m.Keys == keys + NamesOf(NameOf, list)
  {
    hide FindsRoom, NamesOf;
    assert |m| == |m.Keys|;
  }

  lemma {:induction false} SnapshotCounts(list: seq<Record>)
    ensures KeepSessions(list).1 == Upserts(map[], list, 0).1 && KeepSessions(list).0 == Upserts(map[], list, 0).0
  {
    if list != [] { SnapshotCounts(list[..|list| - 1]); }
  }

  /** The session entries of a message, stamped. */
  function Entries(id: string, msg: Record): seq<Record> { StampAll(KSession, id, ListField(msg, "sessions"), None).0 }

  predicate Typed(msg: Record, t: string) { "type" in msg && msg["type"] == JStr(t) }

  /** The names that a delta takes away. */
  predicate Removes(msg: Record, n: string) { n != "" && JStr(n) in ListField(msg, "removed") }

  lemma RemovesIs(msg: Record, n: string)
    ensures n in RemovedNames(ListField(msg, "removed")) <==> Removes(msg, n)
  {
    var removed := ListField(msg, "removed");
    if Removes(msg, n) {
      var i :| 0 <= i < |removed| && removed[i] == JStr(n);
      assert removed[i].s == n;
    }
  }

  lemma ScopeLaw(msg: Record)
    ensures Typed(msg, "snapshot") <==> ScopeOf(msg) == SSnapshot
    ensures Typed(msg, "delta") <==> ScopeOf(msg) == SDelta
    ensures Typed(msg, "event") <==> ScopeOf(msg) == SEvent
    ensures Typed(msg, "health") <==> ScopeOf(msg) == SHealth
    ensures Typed(msg, "approval") <==> ScopeOf(msg) == SApproval
    ensures Typed(msg, "stuck") <==> ScopeOf(msg) == SStuck
    ensures Typed(msg, "repos") <==> ScopeOf(msg) == SRepos
  {
  }

  /** The shared fields leave sessions and repos alone. */
  lemma CommonLeaves(id: string, b: Builder, msg: Record)
    ensures var c := ApplyCommon(id, b, msg); c.held.sessions == b.held.sessions && c.held.repos == b.held.repos && c.window == b.window
  {
    hide StampAll, KeepApprovals, CommonData, CommonInfo;
  }

  lemma StepSessions(id: string, b: Builder, msg: Record, now: int)
    ensures var m := ScopedStep(id, b, msg, now).b.held.sessions;
            match ScopeOf(msg)
            case SSnapshot => m == KeepSessions(Entries(id, msg)).0
            case SDelta => m == DeltaFrom(b, Entries(id, msg), ListField(msg, "removed")).0.held.sessions
            case SStuck => m == ScopedStuck(b, msg).b.held.sessions
            case _ => m == b.held.sessions
  {
    hide StampAll, KeepSessions, DeltaFrom, ApplyCommon, AllowEvent, StampEvent, Stamp, ScopedStuck, ScopeOf;
    CommonLeaves(id, SnapshotSessions(id, b, msg), msg);
    CommonLeaves(id, DeltaSessions(id, b, msg).0, msg);
  }

  lemma DeltaFromIs(b: Builder, list: seq<Record>, msg: Record, n: string)
    ensures var leaving := |set x | x in b.held.sessions && Removes(msg, x)|;
            var m, all := DeltaFrom(b, list, ListField(msg, "removed")).0.held.sessions, Fill(NameOf, b.held.sessions, list, MAX_SESSIONS + leaving);
            && (n in m <==> n in all && !Removes(msg, n)) && (n in m ==> m[n] == all[n])
  {
    hide Upserts, Fill, Removes;
    var gone := RemovedNames(ListField(msg, "removed"));
    forall x ensures x in gone <==> Removes(msg, x) { RemovesIs(msg, x); }
    assert gone * b.held.sessions.Keys == set x | x in b.held.sessions && Removes(msg, x);
    UpsertsFill(b.held.sessions, list, |gone * b.held.sessions.Keys|);
  }

  /**
    The sessions after a delta: of a name that is not removed the last entry that carries it, or the session held before;
    a name held before stays unless removed, a new one is there exactly when it found room where it first came: the cap
    and the removals of held names against those held and those named before it. A removed name is not there.
  */
  lemma DeltaSessionsLaw(id: string, b: Builder, msg: Record, now: int, n: string)
    requires Typed(msg, "delta")
    ensures var list, m := Entries(id, msg), ScopedStep(id, b, msg, now).b.held.sessions;
            var leaving := |set x | x in b.held.sessions && Removes(msg, x)|;
            && (n in m <==> !Removes(msg, n) && (n in b.held.sessions || FindsRoom(NameOf, b.held.sessions.Keys, list, n, 500 + leaving)))
            && (n in m ==> (LastOf(NameOf, list, n).Some? ==> m[n] == LastOf(NameOf, list, n).value)
                           && (LastOf(NameOf, list, n) == None ==> n in b.held.sessions && m[n] == b.held.sessions[n]))
  {
    hide FindsRoom, Entries, ScopedStep, ScopeOf, Typed, DeltaFrom, LastOf, Fill, Removes;
    ScopeLaw(msg);
    StepSessions(id, b, msg, now);
    DeltaFromIs(b, Entries(id, msg), msg, n);
    FillLaw(NameOf, b.held.sessions, Entries(id, msg), MAX_SESSIONS + |set x | x in b.held.sessions && Removes(msg, x)|, n);
  }

  lemma NoKeys(m: map<string, Record>)
    requires m == map[]
    ensures m.Keys == {}
  {
  }

  /** The sessions after a snapshot: each named entry's last, as long as there was room where its name first came, and nothing else. */
  lemma SnapshotSessionsLaw(id: string, b: Builder, msg: Record, now: int, n: string)
    requires Typed(msg, "snapshot")
    ensures var list, m := Entries(id, msg), ScopedStep(id, b, msg, now).b.held.sessions;
            && (n in m <==> FindsRoom(NameOf, {}, list, n, 500))
            && (n in m ==> LastOf(NameOf, list, n) == Some(m[n]))
  {
    hide FindsRoom, Entries, ScopedStep, ScopeOf, Typed, KeepSessions, LastOf, Fill;
    ScopeLaw(msg);
    StepSessions(id, b, msg, now);
    SnapshotFills(Entries(id, msg));
    FillLaw(NameOf, map[], Entries(id, msg), MAX_SESSIONS, n);
    NoKeys(map[]);
  }

  /** No other message adds, removes or replaces a session; a stuck flag sets that one field. */
  lemma OtherSessionsLaw(id: string, b: Builder, msg: Record, now: int, n: string)
    requires !Typed(msg, "delta") && !Typed(msg, "snapshot")
    ensures var m := ScopedStep(id, b, msg, now).b.held.sessions;
            && m.Keys == b.held.sessions.Keys
            && (n in m ==> m[n] == if Typed(msg, "stuck") && "name" in msg && msg["name"] == JStr(n) && n != ""
                                   then b.held.sessions[n]["stuck" := if "stuck" in msg then msg["stuck"] else JNull]
                                   else b.held.sessions[n])
  {
    hide ScopedStep, ScopeOf;
    ScopeLaw(msg);
    StepSessions(id, b, msg, now);
  }

  // ---- The other fields

  predicate Shared(msg: Record) { Typed(msg, "snapshot") || Typed(msg, "delta") }

  /** The first `cap` entries of a list that count, stamped, in order. */
  ghost predicate Firsts(kind: Kind, id: string, raws: seq<Json>, cap: nat, r: seq<Record>) {
    var at := Places(kind, raws);
    && |r| == (if cap < |at| then cap else |at|)
    && forall j :: 0 <= j < |r| ==> Stamp(kind, id, raws[at[j]]) == Some(r[j])
  }

  lemma SessionsOnly(b: Builder, list: seq<Record>, msg: Record)
    ensures var d := DeltaFrom(b, list, ListField(msg, "removed")).0;
            d == b.(held := b.held.(sessions := d.held.sessions), dropped := d.dropped)
            && d.dropped == b.dropped.(sessions := d.dropped.sessions)
  {
    hide Upserts, RemovedNames;
  }

  /** What the shared fields make of the lists. */
  lemma CommonLists(id: string, b: Builder, msg: Record)
    ensures var h := ApplyCommon(id, b, msg).held;
            && h.lanes == (if "lanes" in msg && Truthy(msg["lanes"]) then StampAll(KLane, id, ListField(msg, "lanes"), Some(MAX_LANES)).0 else b.held.lanes)
            && h.attention == (if "attention" in msg && Truthy(msg["attention"])
                               then StampAll(KAttention, id, ListField(msg, "attention"), Some(MAX_ATTENTION)).0 else b.held.attention)
            && h.approvals == (if HasList(msg, "approvals") then KeepApprovals(StampAll(KApproval, id, ListField(msg, "approvals"), None).0).0
                               else b.held.approvals)
  {
    hide StampAll, KeepApprovals, CommonData, CommonInfo, Truthy;
  }

  lemma StepLists(id: string, b: Builder, msg: Record, now: int)
    ensures var h := ScopedStep(id, b, msg, now).b.held;
            if Shared(msg) then
              && h.lanes == ApplyCommon(id, b, msg).held.lanes && h.attention == ApplyCommon(id, b, msg).held.attention
              && h.approvals == ApplyCommon(id, b, msg).held.approvals
            else
              && h.lanes == b.held.lanes && h.attention == b.held.attention
              && h.approvals == (if Typed(msg, "approval") then ScopedApproval(id, b, msg).b.held.approvals else b.held.approvals)
  {
    hide ApplyCommon, StampAll, KeepApprovals, KeepSessions, DeltaFrom, AllowEvent, StampEvent, Stamp, ScopeOf, Typed, ScopedApproval;
    ScopeLaw(msg);
    SessionsOnly(b, Entries(id, msg), msg);
    CommonLists(id, b, msg);
    CommonLists(id, SnapshotSessions(id, b, msg), msg);
    CommonLists(id, DeltaSessions(id, b, msg).0, msg);
    ApprovalLeaves(id, b, msg);
  }

  lemma ApprovalLeaves(id: string, b: Builder, msg: Record)
    ensures var h := ScopedApproval(id, b, msg).b.held; h.lanes == b.held.lanes && h.attention == b.held.attention
  {
    hide Stamp;
  }

  /** Lanes and attention: the first 200 entries of a snapshot's or delta's list, when it carries one, else as before. */
  lemma ListsLaw(id: string, b: Builder, msg: Record, now: int)
    ensures var h := ScopedStep(id, b, msg, now).b.held;
            && (if Shared(msg) && "lanes" in msg && Truthy(msg["lanes"]) then Firsts(KLane, id, ListField(msg, "lanes"), 200, h.lanes)
                else h.lanes == b.held.lanes)
            && (if Shared(msg) && "attention" in msg && Truthy(msg["attention"])
                then Firsts(KAttention, id, ListField(msg, "attention"), 200, h.attention) else h.attention == b.held.attention)
  {
    hide ScopedStep, StampAll, KeepApprovals, Stamp, Places, Truthy, Typed, ApplyCommon, ScopedApproval;
    StepLists(id, b, msg, now);
    CommonLists(id, b, msg);
    StampedList(KLane, id, ListField(msg, "lanes"), Some(MAX_LANES));
    StampedList(KAttention, id, ListField(msg, "attention"), Some(MAX_ATTENTION));
  }

  // ---- Approvals

  function IdOf(a: Record): string { if "id" in a && a["id"].JStr? then a["id"].s else "" }

  predicate HasId(a: Record) { 1 <= |IdOf(a)| <= 200 }

  /** The stamped approvals of a message that have an id. */
  function WithId(list: seq<Record>): seq<Record> {
    if list == [] then [] else WithId(list[..|list| - 1]) + (if HasId(list[|list| - 1]) then [list[|list| - 1]] else [])
  }

  lemma {:induction false} ApprovalsFill(list: seq<Record>)
    ensures KeepApprovals(list).0 == Fill(IdOf, map[], WithId(list), MAX_APPROVALS)
  {
    if list != [] {
      hide Fill;
      ApprovalsFill(list[..|list| - 1]);
      var a := list[|list| - 1];
      FillMore(WithId(list[..|list| - 1]), a);
      assert WithId(list[..|list| - 1]) + [] == WithId(list[..|list| - 1]);
    } else {
      assert Fill(IdOf, map[], [], MAX_APPROVALS) == map[];
    }
  }

  lemma FillMore(list: seq<Record>, a: Record)
    ensures Fill(IdOf, map[], list + [a], MAX_APPROVALS) ==
            var m := Fill(IdOf, map[], list, MAX_APPROVALS); if IdOf(a) !in m && |m| >= MAX_APPROVALS then m else m[IdOf(a) := a]
  {
    assert (list + [a])[..|list|] == list;
  }

  function Approvals(id: string, msg: Record): seq<Record> { WithId(StampAll(KApproval, id, ListField(msg, "approvals"), None).0) }

  /** The id that an approval message names. */
  function ApprovalId(msg: Record): string { if "approval" in msg && msg["approval"].JObj? then IdOf(msg["approval"].fields) else "" }

  /**
    The approvals: a snapshot's or delta's list replaces them by its own, each id's last, as long as there is room; one
    approval is taken when it is known or there is room, and leaves when it closes; nothing else touches them.
  */
  lemma ApprovalsLaw(id: string, b: Builder, msg: Record, now: int, x: string)
    ensures var m, m0 := ScopedStep(id, b, msg, now).b.held.approvals, b.held.approvals;
            if Shared(msg) && HasList(msg, "approvals") then
              && (x in m <==> FindsRoom(IdOf, {}, Approvals(id, msg), x, 100))
              && (x in m ==> LastOf(IdOf, Approvals(id, msg), x) == Some(m[x]))
            else if Typed(msg, "approval") && 1 <= |ApprovalId(msg)| <= 200 && x == ApprovalId(msg) then
              if "op" in msg && msg["op"] == JStr("close") then x !in m
              else if x in m0 || |m0| < 100 then x in m && Stamp(KApproval, id, msg["approval"]) == Some(m[x])
              else x !in m
            else (x in m <==> x in m0) && (x in m ==> m[x] == m0[x])
  {
    hide ScopedStep, FindsRoom, LastOf, StampAll, Stamp, KeepApprovals, Fill, WithId, Typed, ApplyCommon;
    ScopeLaw(msg);
    TypedOnce(msg);
    StepLists(id, b, msg, now);
    CommonLists(id, b, msg);
    ApprovalsFill(StampAll(KApproval, id, ListField(msg, "approvals"), None).0);
    FillLaw(IdOf, map[], Approvals(id, msg), MAX_APPROVALS, x);
    NoKeys(map[]);
    if "approval" in msg { ApprovalStamp(id, msg["approval"]); }
  }

  lemma TypedOnce(msg: Record)
    ensures Typed(msg, "approval") ==> !Shared(msg)
  {
  }

  lemma ApprovalStamp(id: string, raw: Json)
    ensures Stamp(KApproval, id, raw).Some? <==> raw.JObj?
    ensures raw.JObj? ==> Field(Stamp(KApproval, id, raw).value, "id") == Field(raw.fields, "id")
  {
    StampLaw(KApproval, id, raw);
  }

  // ---- Single fields

  /** Repos: a known repo, or a new one while there are fewer than 64, gets the message's data; nothing else touches them. */
  lemma ReposLaw(id: string, b: Builder, msg: Record, now: int, x: string)
    ensures var m, m0 := ScopedStep(id, b, msg, now).b.held.repos, b.held.repos;
            if Typed(msg, "repos") && "repo" in msg && msg["repo"] == JStr(x) && 1 <= |x| <= 200 && (x in m0 || |m0| < 64) then
              x in m && m[x] == if "data" in msg then msg["data"] else JNull
            else (x in m <==> x in m0) && (x in m ==> m[x] == m0[x])
  {
    hide StampAll, KeepSessions, DeltaFrom, AllowEvent, StampEvent, Stamp, KeepApprovals, CommonData, CommonInfo, ScopeOf, Typed;
    ScopeLaw(msg);
    SessionsOnly(b, Entries(id, msg), msg);
  }

  /** Box, vitals, budget, health and the time: each the newest a snapshot or a delta said; a health frame says its own. */
  lemma DataLaw(id: string, b: Builder, msg: Record, now: int)
    ensures var d, d0 := ScopedStep(id, b, msg, now).b.data, b.data;
            && d.box == (if Shared(msg) && "box" in msg then msg["box"] else d0.box)
            && d.vitals == (if Shared(msg) && "vitals" in msg && Truthy(msg["vitals"]) then msg["vitals"] else d0.vitals)
            && d.budget == (if Shared(msg) && "budget" in msg then msg["budget"] else d0.budget)
            && d.health == (if Typed(msg, "health") then (if "health" in msg then msg["health"] else JNull)
                            else if Shared(msg) && "health" in msg && msg["health"] != JNull then msg["health"] else d0.health)
            && d.generatedAt == (if Shared(msg) && "generatedAt" in msg && msg["generatedAt"].JNum? && msg["generatedAt"].n != 0.0
                                 then msg["generatedAt"].n else d0.generatedAt)
            && d.lastMsgAt == d0.lastMsgAt
  {
    hide StampAll, KeepSessions, DeltaFrom, AllowEvent, StampEvent, Stamp, KeepApprovals, CommonInfo, ScopeOf, Typed, Truthy;
    ScopeLaw(msg);
    SessionsOnly(b, Entries(id, msg), msg);
  }

  /** Of the builder's own row a snapshot or a delta sets the host, whether it is stale and its age, and nothing else does. */
  lemma InfoLaw(id: string, b: Builder, msg: Record, now: int)
    ensures var i, i0 := ScopedStep(id, b, msg, now).b.info, b.info;
            var host := if "vitals" in msg && msg["vitals"].JObj? then Field(msg["vitals"].fields, "host") else None;
            && i.host == (if Shared(msg) && host.Some? && host.value.JStr? then Some(host.value.s) else i0.host)
            && i.stale == (if Shared(msg) && "stale" in msg && msg["stale"].JBool? then msg["stale"].b else i0.stale)
            && i.ageMs == (if Shared(msg) && "ageMs" in msg && msg["ageMs"].JNum? then msg["ageMs"].n else i0.ageMs)
            && i.code == i0.code && i.mode == i0.mode && i.version == i0.version && i.state == i0.state && i.status == i0.status
  {
    hide StampAll, KeepSessions, DeltaFrom, AllowEvent, StampEvent, Stamp, KeepApprovals, CommonData, ScopeOf, Typed;
    ScopeLaw(msg);
    SessionsOnly(b, Entries(id, msg), msg);
  }

  /** What a message is answered with; None is a dropped one. */
  lemma AnswerLaw(id: string, b: Builder, msg: Record, now: int)
    ensures var out := ScopedStep(id, b, msg, now).out;
            && (Typed(msg, "snapshot") <==> out == Some(OSnapshot))
            && (Typed(msg, "health") <==> out == Some(OHealth))
            && (Typed(msg, "delta") <==> out.Some? && out.value.ODelta?)
            && (out.Some? && out.value.ODelta? ==> (out.value.upserts.Some? <==> HasList(msg, "sessions")))
            && (out.Some? && out.value.OStuck? <==> Typed(msg, "stuck") && ValidName(msg, "name"))
            && (out.Some? && out.value.OStuck? ==> out.value.name == if msg["name"].s in b.held.sessions then [msg["name"].s] else [])
            && (out.Some? && out.value.OEvent? ==> Typed(msg, "event"))
            && (out.Some? && out.value.OApproval? ==> Typed(msg, "approval") && Stamp(KApproval, id, msg["approval"]) == Some(out.value.approval))
            && (out.Some? && out.value.ORepos? ==> Typed(msg, "repos"))
  {
    hide StampAll, KeepSessions, DeltaFrom, AllowEvent, StampEvent, Stamp, KeepApprovals, CommonData, CommonInfo, ScopeOf, Typed, Upserts;
    ScopeLaw(msg);
  }

  /** The names of the entries that are among `keep`, in the entries' order. */
  function Reported(list: seq<Record>, keep: set<string>): seq<string> {
    if list == [] then []
    else Reported(list[..|list| - 1], keep) + (if NameOf(list[|list| - 1]) in keep then [NameOf(list[|list| - 1])] else [])
  }

  lemma {:induction false} ReportedSame(list: seq<Record>, a: set<string>, b: set<string>)
    requires forall n :: n in NamesOf(NameOf, list) ==> (n in a <==> n in b)
    ensures Reported(list, a) == Reported(list, b)
  {
    if list != [] {
      NamesMore(NameOf, list);
      ReportedSame(list[..|list| - 1], a, b);
    }
  }

  lemma {:induction false} UpsertsReported(m0: map<string, Record>, list: seq<Record>, leaving: nat)
    ensures Upserts(m0, list, leaving).2 == Reported(list, Upserts(m0, list, leaving).0.Keys)
  {
    if list != [] {
      hide NamesOf;
      var head := list[..|list| - 1];
      UpsertsReported(m0, head, leaving);
      NamesMore(NameOf, list);
      StaysOut(m0, list, leaving);
      ReportedSame(head, Upserts(m0, head, leaving).0.Keys, Upserts(m0, list, leaving).0.Keys);
    }
  }

  /** A delta names as set the entries that are held before its removals, one by one in their order, and counts the others as dropped. */
  lemma DeltaReportLaw(id: string, b: Builder, msg: Record, now: int) returns (held: set<string>)
    requires Typed(msg, "delta") && HasList(msg, "sessions")
    ensures var leaving := |set x | x in b.held.sessions && Removes(msg, x)|;
            forall n :: n in held <==> n in b.held.sessions || FindsRoom(NameOf, b.held.sessions.Keys, Entries(id, msg), n, 500 + leaving)
    ensures var sc, list := ScopedStep(id, b, msg, now), Entries(id, msg);
            && sc.out.Some? && sc.out.value.ODelta? && sc.out.value.upserts == Some(Reported(list, held))
            && sc.b.dropped.sessions + |Reported(list, held)| == b.dropped.sessions + |list|
  {
    hide FindsRoom, NamesOf, LastOf, Fill, Upserts, Removes, StampAll, KeepApprovals, CommonData, CommonInfo, ScopeOf, Typed;
    ScopeLaw(msg);
    var list := Entries(id, msg);
    var gone := RemovedNames(ListField(msg, "removed"));
    forall x ensures x in gone <==> Removes(msg, x) { RemovesIs(msg, x); }
    var leaving := gone * b.held.sessions.Keys;
    assert leaving == set x | x in b.held.sessions && Removes(msg, x);
    UpsertsReport(b.held.sessions, list, |leaving|);
    UpsertsReported(b.held.sessions, list, |leaving|);
    UpsertsFill(b.held.sessions, list, |leaving|);
    forall n { FillLaw(NameOf, b.held.sessions, list, MAX_SESSIONS + |leaving|, n); }
    held := Upserts(b.held.sessions, list, |leaving|).0.Keys;
  }

  /** An approval, event or repository that finds no room is counted as dropped, and nothing else is by such messages. */
  lemma DroppedLaw(id: string, b: Builder, msg: Record, now: int)
    requires Typed(msg, "event") || Typed(msg, "repos") || Typed(msg, "approval")
    ensures var sc := ScopedStep(id, b, msg, now);
            sc.b.dropped ==
              if Typed(msg, "event") && "event" in msg && (msg["event"].JObj? || msg["event"].JArr?) && sc.out == None
              then b.dropped.(events := b.dropped.events + 1)
              else if Typed(msg, "repos") && "repo" in msg && msg["repo"].JStr? && 1 <= |msg["repo"].s| <= 200 && sc.out == None
              then b.dropped.(repos := b.dropped.repos + 1)
              else if Typed(msg, "approval") && 1 <= |ApprovalId(msg)| <= 200 && !("op" in msg && msg["op"] == JStr("close"))
                      && ApprovalId(msg) !in b.held.approvals && |b.held.approvals| >= 100
              then b.dropped.(approvals := b.dropped.approvals + 1)
              else b.dropped
  {
    hide AllowEvent, StampEvent, Stamp;
    ScopeLaw(msg);
    TypedOnce(msg);
    if "approval" in msg { ApprovalStamp(id, msg["approval"]); }
  }

  // ---- What is counted as dropped

  /** How many entries have a name that is not among `keep`. */
  function Absent(key: Key, list: seq<Record>, keep: set<string>): nat {
    if list == [] then 0 else Absent(key, list[..|list| - 1], keep) + (if key(list[|list| - 1]) in keep then 0 else 1)
  }

  lemma {:induction false} AbsentSame(key: Key, list: seq<Record>, a: set<string>, b: set<string>)
    requires forall n :: n in NamesOf(key, list) ==> (n in a <==> n in b)
    ensures Absent(key, list, a) == Absent(key, list, b)
  {
    if list != [] {
      NamesMore(key, list);
      AbsentSame(key, list[..|list| - 1], a, b);
    }
  }

  /** How many entries found no room when they were put. */
  function Lost(key: Key, m0: map<string, Record>, list: seq<Record>, room: nat): nat {
    if list == [] then 0
    else
      var m, s := Fill(key, m0, list[..|list| - 1], room), list[|list| - 1];
      Lost(key, m0, list[..|list| - 1], room) + (if key(s) !in m && |m| >= room then 1 else 0)
  }

  lemma {:induction false} LostAreAbsent(key: Key, m0: map<string, Record>, list: seq<Record>, room: nat)
    ensures Lost(key, m0, list, room) == Absent(key, list, Fill(key, m0, list, room).Keys)
  {
    if list != [] {
      hide NamesOf, FindsRoom;
      var head := list[..|list| - 1];
      LostAreAbsent(key, m0, head, room);
      FillHolds(key, m0, head, room);
      var m := Fill(key, m0, head, room);
      assert |m| == |m.Keys|;
      AbsentSame(key, head, m.Keys, Fill(key, m0, list, room).Keys);
    }
  }

  lemma {:induction false} SessionsLost(list: seq<Record>)
    ensures KeepSessions(list).1 == Lost(NameOf, map[], list, MAX_SESSIONS)
  {
    if list != [] {
      SnapshotFills(list[..|list| - 1]);
      SessionsLost(list[..|list| - 1]);
    }
  }

  lemma {:induction false} ApprovalsLost(list: seq<Record>)
    ensures KeepApprovals(list).1 == Lost(IdOf, map[], WithId(list), MAX_APPROVALS)
  {
    if list != [] {
      hide Fill, Lost;
      var head, a := list[..|list| - 1], list[|list| - 1];
      ApprovalsFill(head);
      ApprovalsLost(head);
      LostMore(WithId(head), a);
      assert WithId(head) + [] == WithId(head);
    } else {
      assert WithId([]) == [] && Lost(IdOf, map[], [], MAX_APPROVALS) == 0;
    }
  }

  lemma LostMore(list: seq<Record>, a: Record)
    ensures Lost(IdOf, map[], list + [a], MAX_APPROVALS) ==
            var m := Fill(IdOf, map[], list, MAX_APPROVALS);
            Lost(IdOf, map[], list, MAX_APPROVALS) + (if IdOf(a) !in m && |m| >= MAX_APPROVALS then 1 else 0)
  {
    hide Fill;
    assert (list + [a])[..|list|] == list;
  }

  /** The entries after the last one that the cap lets in. */
  lemma {:induction false} StampedLost(kind: Kind, id: string, raws: seq<Json>, max: nat)
    requires max > 0
    ensures var at := Places(kind, raws); StampAll(kind, id, raws, Some(max)).1 == if |at| >= max then |raws| - 1 - at[max - 1] else 0
  {
    if raws != [] {
      hide Stamp, Counts;
      var n := |raws| - 1;
      StampedLost(kind, id, raws[..n], max);
      StampedList(kind, id, raws[..n], Some(max));
      StampLaw(kind, id, raws[n]);
    }
  }

  function After(kind: Kind, raws: seq<Json>, cap: nat): nat
    requires cap > 0
  {
    if |Places(kind, raws)| >= cap then |raws| - 1 - Places(kind, raws)[cap - 1] else 0
  }

  lemma CommonCounts(id: string, b: Builder, msg: Record)
    ensures var d, c := b.dropped, ApplyCommon(id, b, msg);
            && c.dropped.sessions == d.sessions && c.dropped.events == d.events && c.dropped.repos == d.repos
            && c.dropped.lanes == d.lanes + (if "lanes" in msg && Truthy(msg["lanes"])
                                             then StampAll(KLane, id, ListField(msg, "lanes"), Some(MAX_LANES)).1 else 0)
            && c.dropped.attention == d.attention + (if "attention" in msg && Truthy(msg["attention"])
                                                     then StampAll(KAttention, id, ListField(msg, "attention"), Some(MAX_ATTENTION)).1 else 0)
            && c.dropped.approvals == d.approvals + (if HasList(msg, "approvals")
                                                     then KeepApprovals(StampAll(KApproval, id, ListField(msg, "approvals"), None).0).1 else 0)
            && c.held.sessions == b.held.sessions
  {
    hide StampAll, KeepApprovals, CommonData, CommonInfo, Truthy;
  }

  /**
    A snapshot counts its sessions and approvals that are not held after it, and of its lanes and attention
    all that come after the 200 it takes; nothing is lost without being counted.
  */
  lemma CountsLaw(id: string, b: Builder, msg: Record, now: int)
    requires Typed(msg, "snapshot")
    ensures var c, d := ScopedStep(id, b, msg, now).b, b.dropped;
            && c.dropped.sessions == d.sessions + Absent(NameOf, Entries(id, msg), c.held.sessions.Keys)
            && c.dropped.lanes == d.lanes + (if "lanes" in msg && Truthy(msg["lanes"]) then After(KLane, ListField(msg, "lanes"), 200) else 0)
            && c.dropped.attention == d.attention + (if "attention" in msg && Truthy(msg["attention"])
                                                     then After(KAttention, ListField(msg, "attention"), 200) else 0)
            && c.dropped.approvals == d.approvals + (if HasList(msg, "approvals") then Absent(IdOf, Approvals(id, msg), c.held.approvals.Keys) else 0)
            && c.dropped.repos == d.repos && c.dropped.events == d.events
  {
    hide StampAll, KeepApprovals, KeepSessions, DeltaFrom, ApplyCommon, ScopeOf, Typed, Fill, Lost, Absent, WithId, Places;
    ScopeLaw(msg);
    var list := Entries(id, msg);
    SessionsLost(list);
    SnapshotFills(list);
    LostAreAbsent(NameOf, map[], list, MAX_SESSIONS);
    var raw := StampAll(KApproval, id, ListField(msg, "approvals"), None).0;
    ApprovalsLost(raw);
    ApprovalsFill(raw);
    LostAreAbsent(IdOf, map[], WithId(raw), MAX_APPROVALS);
    StampedLost(KLane, id, ListField(msg, "lanes"), MAX_LANES);
    StampedLost(KAttention, id, ListField(msg, "attention"), MAX_ATTENTION);
    CommonCounts(id, SnapshotSessions(id, b, msg), msg);
    CommonLists(id, SnapshotSessions(id, b, msg), msg);
  }

  /** An accepted event's record: its routing the frame's, every other field its own. */
  lemma EventLaw(id: string, o: Record)
    ensures var e := StampEvent(id, o);
            && Field(e, "builder") == Some(JStr(id)) && Field(e, "key") == Some(KeyIn(id, o, "session_name"))
            && Field(e, "laneKey") == None && Field(e, "fkey") == None
            && forall k :: k !in {"key", "laneKey", "builder", "fkey"} ==> Field(e, k) == Field(o, k)
  {
  }

  /** An event's fields are an object's own, a list's by place, and none for anything else. */
  lemma FieldsLaw(v: Json)
    ensures v.JObj? ==> FieldsOf(v) == v.fields
    ensures v.JArr? ==> FieldsOf(v) == ByIndex(v.items)
    ensures !v.JObj? && !v.JArr? ==> FieldsOf(v) == map[]
  {
  }

  /** The number that digits write. */
  function ValueOf(s: string): int { if s == "" then 0 else 10 * ValueOf(s[..|s| - 1]) + (s[|s| - 1] as int - '0' as int) }

  lemma ValueMore(head: string, d: nat)
    requires d < 10
    ensures ValueOf(head + [('0' as int + d) as char]) == 10 * ValueOf(head) + d
  {
    var s := head + [('0' as int + d) as char];
    assert s[..|s| - 1] == head;
  }

  /** Decimal digits write their number, so no two numbers are written alike. */
  lemma {:induction false} DecimalLaw(n: nat)
    ensures ValueOf(Decimal(n)) == n
    decreases n
  {
    if n >= 10 { DecimalLaw(n / 10); }
    hide ValueOf;
    ValueMore(if n < 10 then "" else Decimal(n / 10), n % 10);
    if n < 10 { assert ValueOf("") == 0 by { NoValue(); } }
  }

  lemma NoValue()
    ensures ValueOf("") == 0
  {
  }

  /** A list in an event's place is read by its places, written in decimal. */
  lemma {:induction false} ByIndexLaw(items: seq<Json>, i: nat)
    requires i < |items|
    ensures Field(ByIndex(items), Decimal(i)) == Some(items[i])
  {
    hide Decimal;
    var n := |items| - 1;
    DecimalLaw(i);
    DecimalLaw(n);
    if i < n { ByIndexLaw(items[..n], i); }
  }

  /** And by nothing else. */
  lemma {:induction false} OnlyByIndex(items: seq<Json>, k: string) returns (j: nat)
    requires k in ByIndex(items)
    ensures j < |items| && k == Decimal(j)
  {
    hide Decimal;
    var n := |items| - 1;
    j := n;
    if k != Decimal(n) { j := OnlyByIndex(items[..n], k); }
  }
}
