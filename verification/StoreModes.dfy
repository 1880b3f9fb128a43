/**
  Key modes, whole rebuilds of the index, and which builders a source may hold
  (public/js/core/store.js: `setKeyMode`, `reindex`, `routeOf`), on values.
*/
module StoreModes {
  import opened Options
  import opened Keys
  import opened Triggers
  import opened StoreSpec
  import opened SessionIndex
  import opened StoreDerived
  import opened StoreCore

  datatype SourceKind = Local | Hub

  // ---- Keys follow the mode

  /** A key the page holds (cursor, open session, pin), in the other key mode. */
  function Conv(next: KeyMode, id: string, k: Option<string>): Option<string> {
    if k == None || k.value == "" then None
    else if next == ByFkey then
      if IsFkey(k.value) then k else if ValidId(id) then Some(Fkey(id, k.value)) else None
    else
      var p := ParseFkey(k.value);
      if p.Some? && p.value.builder == id then Some(p.value.name) else None
  }

  function ConvPins(next: KeyMode, id: string, pins: set<string>): set<string> {
    set k | k in pins && Conv(next, id, Some(k)).Some? :: Conv(next, id, Some(k)).value
  }

  /** A local name becomes the local builder's key, and its key becomes the name again; another builder's key becomes nothing. */
  lemma ConvLaw(id: string, other: string, n: string)
    requires ValidId(id) && ValidId(other) && n != ""
    ensures Conv(ByFkey, id, Some(n)) == Some(if IsFkey(n) then n else id + "/" + n)
    ensures Conv(ByName, id, Some(other + "/" + n)) == if other == id then Some(n) else None
    ensures Conv(ByName, id, None) == Conv(ByFkey, id, None) == None
  {
    ParseOfFkey(other, n);
  }

  /** The pins are those that have a key in the other mode, converted. */
  lemma PinsLaw(next: KeyMode, id: string, pins: set<string>, k: string)
    ensures k in ConvPins(next, id, pins) <==> exists p :: p in pins && Conv(next, id, Some(p)) == Some(k)
  {
    hide Conv;
    if exists p :: p in pins && Conv(next, id, Some(p)) == Some(k) {
      var p :| p in pins && Conv(next, id, Some(p)) == Some(k);
      assert Conv(next, id, Some(p)).value == k;
    }
  }

  /** A local name survives the way to fleet keys and back exactly when it does not read as a fleet key itself. */
  lemma NameConvBack(id: string, n: string)
    requires ValidId(id) && n != ""
    ensures Conv(ByName, id, Conv(ByFkey, id, Some(n))) == Some(n) <==> !IsFkey(n)
  {
    if IsFkey(n) { FkeyOfParse(n); } else { ParseOfFkey(id, n); }
  }

  /** A fleet key survives the way to names and back exactly when it is the local builder's and its name is no fleet key. */
  lemma FkeyConvBack(id: string, k: string)
    requires ValidId(id) && k != ""
    ensures Conv(ByFkey, id, Conv(ByName, id, Some(k))) == Some(k) <==>
            (IsFkey(k) && ParseFkey(k).value.builder == id && !IsFkey(ParseFkey(k).value.name))
  {
    if IsFkey(k) {
      FkeyOfParse(k);
      var n := ParseFkey(k).value.name;
      if IsFkey(n) { FkeyOfParse(n); assert |n| < |k|; }
    }
  }

  /** A name held by the local builder is found under its key in either mode. */
  lemma ConvFinds(id: string, n: string, all: map<string, Sessions>, byName: Sessions, byFkey: Sessions)
    requires ValidId(id) && n != "" && !IsFkey(n) && Holds(all, id, n)
    requires Agree(KeyFn(ByName), all, byName) && Agree(KeyFn(ByFkey), all, byFkey)
    ensures var k := Conv(ByFkey, id, Some(n)).value; n in byName && k in byFkey && byFkey[k] == byName[n]
  {
    assert KeyFn(ByName)(id, n) == n && KeyFn(ByFkey)(id, n) == Fkey(id, n);
  }

  // ---- The index built from nothing

  ghost predicate Indexed(mode: KeyMode, all: map<string, Sessions>, index: Sessions) {
    if mode == ByFkey then Agree(KeyFn(ByFkey), all, index) else SomeSessionPerName(all, index)
  }

  lemma NothingIndexed(mode: KeyMode)
    ensures Indexed(mode, map[], map[])
  {
  }

  lemma IndexedAdd(mode: KeyMode, all: map<string, Sessions>, index: Sessions, id: string)
    requires Indexed(mode, all, index) && id !in all
    ensures Indexed(mode, all[id := map[]], index)
  {
    var all' := all[id := map[]];
    assert SameHeld(all, all');
    if mode == ByFkey {
      SameSessionsAgree(KeyFn(ByFkey), all, all', index);
    } else {
      forall k | k in index ensures exists i :: Holds(all', i, k) && all'[i][k] == index[k] {
        assert Look(k);
        var i :| Holds(all, i, k) && all[i][k] == index[k];
        assert Holds(all', i, k);
      }
    }
  }

  lemma IndexedSet(mode: KeyMode, all: map<string, Sessions>, index: Sessions, id: string, n: string, s: Record)
    requires Indexed(mode, all, index) && id in all && Named(all) && n != ""
    ensures Indexed(mode, all[id := all[id][n := s]], index[KeyOf(mode, id, n) := s])
    ensures Named(all[id := all[id][n := s]])
  {
    assert Look(id);
    if mode == ByFkey {
      KeysApart(mode, all, "", id, n);
      SetAgrees(KeyFn(mode), all, index, id, n, s);
    } else {
      SetName(all, index, id, n, s);
    }
  }

  lemma OneHolderNames(all: map<string, Sessions>, h: string)
    requires OneHolder(all, h)
    ensures OneSessionPerName(all)
  {
  }

  /** By fleet keys it does not matter whose the source is. */
  lemma AnyHolder(order: seq<string>, fleet: Fleet, index: Sessions, h: string, h': string)
    requires CoreOf(ByFkey, order, fleet, index, h)
    ensures CoreOf(ByFkey, order, fleet, index, h')
  {
  }

  lemma Rehome(mode: KeyMode, order: seq<string>, fleet: Fleet, index: Sessions, h: string, h': string)
    requires CoreOf(mode, order, fleet, index, h) && fleet.Keys <= {h'}
    ensures CoreOf(mode, order, fleet, index, h')
  {
  }

  /** After a rebuild: by fleet keys the store is in order; by name exactly when no name has two sessions. */
  lemma RebuiltByFkey(order: seq<string>, fleet: Fleet, index: Sessions, h: string)
    requires InsertionOrder(order, fleet) && Well(fleet) && Named(SessionsOf(fleet)) && Indexed(ByFkey, SessionsOf(fleet), index)
    ensures CoreOf(ByFkey, order, fleet, index, h)
  {
  }

  lemma RebuiltByName(order: seq<string>, fleet: Fleet, index: Sessions, h: string)
    requires InsertionOrder(order, fleet) && Well(fleet) && Named(SessionsOf(fleet)) && Indexed(ByName, SessionsOf(fleet), index)
    ensures Agree(KeyFn(ByName), SessionsOf(fleet), index) <==> OneSessionPerName(SessionsOf(fleet))
    ensures OneHolder(SessionsOf(fleet), h) ==> CoreOf(ByName, order, fleet, index, h)
  {
    var all := SessionsOf(fleet);
    if OneHolder(all, h) { OneHolderNames(all, h); }
    if OneSessionPerName(all) { NameModeAgrees(all, index); } else { NameModeOnlyThen(all, index); }
  }

  // ---- Isolation

  /** Two indexes hold the same under every fleet key that does not name builder `id`. */
  ghost predicate SameButFor(id: string, a: Sessions, b: Sessions) {
    forall k {:trigger Look(k)} :: Look(k) && !(IsFkey(k) && ParseFkey(k).value.builder == id) ==>
      (k in a <==> k in b) && (k in a ==> a[k] == b[k])
  }

  /** A change of one builder's record leaves every other builder's index entries alone. */
  lemma OthersKeepTheirEntries(all: map<string, Sessions>, a: Sessions, id: string, m: Sessions, b: Sessions)
    requires Named(all) && Named(all[id := m])
    requires Agree(KeyFn(ByFkey), all, a) && Agree(KeyFn(ByFkey), all[id := m], b)
    ensures SameButFor(id, a, b)
  {
    hide Agree, Named;
    forall k | !(IsFkey(k) && ParseFkey(k).value.builder == id)
      ensures (k in a <==> k in b) && (k in a ==> a[k] == b[k])
    {
      IndexByFkey(all, a, k);
      IndexByFkey(all[id := m], b, k);
    }
  }

  // ---- A frame's own builder

  /** The same message but for the frame's own `builder`. */
  predicate SameFrame(a: Record, b: Record) { a - {"builder"} == b - {"builder"} }

  lemma SameField(a: Record, b: Record, k: string)
    requires SameFrame(a, b) && k != "builder"
    ensures (k in a <==> k in b) && (k in a ==> a[k] == b[k])
  {
    assert k in a <==> k in a - {"builder"};
    assert k in b <==> k in b - {"builder"};
    assert k in a ==> (a - {"builder"})[k] == a[k];
    assert k in b ==> (b - {"builder"})[k] == b[k];
  }

  lemma SameCommon(id: string, r: Builder, a: Record, b: Record)
    requires SameFrame(a, b)
    ensures ApplyCommon(id, r, a) == ApplyCommon(id, r, b)
  {
    hide SameFrame, StampAll, KeepApprovals;
    SameField(a, b, "lanes");
    SameField(a, b, "attention");
    SameField(a, b, "approvals");
    assert CommonLanes(id, r, a) == CommonLanes(id, r, b);
    SameInfo(a, b);
  }

  lemma SameInfo(a: Record, b: Record)
    requires SameFrame(a, b)
    ensures forall d: Data {:trigger CommonData(d, a)} :: CommonData(d, a) == CommonData(d, b)
    ensures forall i: Info {:trigger CommonInfo(i, a)} :: CommonInfo(i, a) == CommonInfo(i, b)
  {
    hide SameFrame;
    SameField(a, b, "vitals");
    SameField(a, b, "box");
    SameField(a, b, "generatedAt");
    SameField(a, b, "health");
    SameField(a, b, "budget");
    SameField(a, b, "stale");
    SameField(a, b, "ageMs");
  }

  /** What a local source makes of a frame does not depend on the builder the frame claims. */
  lemma FrameBuilderIgnored(local: string, r: Builder, a: Record, b: Record, now: int)
    requires SameFrame(a, b)
    ensures TopOf(a) == TopOf(b)
    ensures RouteTo(Local, local, a) == RouteTo(Local, local, b) == Some(local)
    ensures ScopedStep(local, r, a, now) == ScopedStep(local, r, b, now)
  {
    hide SameFrame, ApplyCommon, SnapshotSessions, DeltaSessions, Stamp, StampEvent, AllowEvent, StampAll, DeltaFrom;
    SameField(a, b, "type");
    assert ScopeOf(a) == ScopeOf(b);
    SameField(a, b, "sessions");
    SameField(a, b, "removed");
    match ScopeOf(a)
    case SSnapshot =>
      SameSessions(local, r, a, b);
      SameCommon(local, SnapshotSessions(local, r, a), a, b);
    case SDelta =>
      SameSessions(local, r, a, b);
      SameCommon(local, DeltaSessions(local, r, a).0, a, b);
    case SEvent => SameField(a, b, "event");
    case SApproval => SameField(a, b, "approval"); SameField(a, b, "op");
    case SHealth => SameField(a, b, "health");
    case SStuck => SameField(a, b, "name"); SameField(a, b, "stuck");
    case SRepos => SameField(a, b, "repo"); SameField(a, b, "data");
    case SOther =>
  }

  lemma SameSessions(id: string, r: Builder, a: Record, b: Record)
    requires SameFrame(a, b)
    ensures SnapshotSessions(id, r, a) == SnapshotSessions(id, r, b)
    ensures DeltaSessions(id, r, a) == DeltaSessions(id, r, b)
  {
    hide SameFrame, StampAll, KeepSessions, DeltaFrom;
    SameField(a, b, "sessions");
    SameField(a, b, "removed");
    assert ListField(a, "sessions") == ListField(b, "sessions");
    assert ListField(a, "removed") == ListField(b, "removed");
  }

  // ---- Which builders there are

  /** Whether a builder-scoped message makes its builder's record when there is none. */
  predicate Touches(msg: Record) {
    match ScopeOf(msg)
    case SEvent => "event" in msg && (msg["event"].JObj? || msg["event"].JArr?)
    case SRepos => ValidRecordName(msg, "repo")
    case SOther => false
    case _ => true
  }

  lemma TouchesIsTouched(id: string, b: Builder, msg: Record, now: int)
    ensures ScopedStep(id, b, msg, now).touched == Touches(msg)
    ensures ScopedStep(id, b, msg, now).out.Some? ==> Touches(msg)
  {
    hide AllowEvent, ApplyCommon, SnapshotSessions, DeltaSessions, Stamp, StampEvent;
  }

  datatype Top = THello | TFleet | TPassive | TScoped | TNone

  /** Which reducer a message goes to. */
  function TopOf(msg: Record): Top {
    match StringField(msg, "type")
    case None => TNone
    case Some(t) =>
      if t == "hello" then THello else if t == "fleet" then TFleet
      else if t == "map" || t == "alarms" || t == "packages" || t == "pong" then TPassive
      else TScoped
  }

  /** The builder a scoped message belongs to: the local source's own whatever it says, the hub's stamp. */
  function RouteTo(kind: SourceKind, local: string, msg: Record): Option<string> {
    if kind == Local then Some(local)
    else if StringField(msg, "builder").Some? && ValidId(msg["builder"].s) then Some(msg["builder"].s)
    else None
  }

  /** The ids of the builders after a message. */
  function IdsAfter(kind: SourceKind, local: string, ids: set<string>, msg: Record): set<string> {
    match TopOf(msg)
    case THello => if kind == Hub || HelloId(msg) == None then ids else {HelloId(msg).value}
    case TFleet => if HasList(msg, "builders") then RowIds(ListField(msg, "builders")) else ids
    case TScoped =>
      var id := RouteTo(kind, local, msg);
      if id == None || !Touches(msg) then ids else ids + {id.value}
    case _ => ids
  }

  function LocalAfter(kind: SourceKind, local: string, msg: Record): string {
    if TopOf(msg) == THello && kind == Local && HelloId(msg).Some? then HelloId(msg).value else local
  }

  /** Rows for a builder that is not the local one. */
  predicate ForeignRows(local: string, msg: Record) {
    TopOf(msg) == TFleet && HasList(msg, "builders") && !(RowIds(ListField(msg, "builders")) <= {local})
  }

  /** A local source that holds no builder but its own keeps it so exactly when it gets no fleet rows for another. */
  lemma OneLocalBuilder(local: string, ids: set<string>, msg: Record)
    requires ids <= {local}
    ensures IdsAfter(Local, local, ids, msg) <= {LocalAfter(Local, local, msg)} <==> !ForeignRows(local, msg)
  {
  }

  function Row(id: string): Json { JObj(map["id" := JStr(id)]) }

  /** Two rows give a local source two builders: a `fleet` message is not refused there. */
  lemma LocalSourceTwoBuilders()
    ensures exists msg :: IdsAfter(Local, "local", {"local"}, msg) == {"a", "b"}
  {
    var msg: Record := map["type" := JStr("fleet"), "builders" := JArr([Row("a"), Row("b")])];
    var list := ListField(msg, "builders");
    assert RowId(list[0]) == Some("a") && RowId(list[1]) == Some("b");
    assert TopOf(msg) == TFleet;
    assert RowIds(list) == {"a", "b"} by {
      forall x | x in RowIds(list) ensures x in {"a", "b"} {
        var i :| 0 <= i < |list| && RowId(list[i]).Some? && RowId(list[i]).value == x;
      }
    }
    assert IdsAfter(Local, "local", {"local"}, msg) == {"a", "b"};
  }
}
