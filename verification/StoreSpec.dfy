/**
  One builder's record in the fleet store and what each message makes of it
  (public/js/core/store.js). Records from a builder are untrusted objects: maps
  from field names to JSON values, of which the routing fields are never believed.
*/
module StoreSpec {
  import opened Options
  import opened Keys

  datatype Json =
    | JNull | JBool(b: bool) | JNum(n: real) | JStr(s: string)
    | JArr(items: seq<Json>) | JObj(fields: map<string, Json>)

  type Record = map<string, Json>

  const MAX_SESSIONS := 500
  const MAX_LANES := 200
  const MAX_ATTENTION := 200
  const MAX_APPROVALS := 100
  const MAX_REPOS := 64
  const EVENTS_PER_WINDOW := 20
  const WINDOW_MS := 1000
  const NAME_CHARS := 200
  const LOCAL_FALLBACK_ID := "local"

  // ---- Reading a message

  function Field(o: Record, k: string): Option<Json> { if k in o then Some(o[k]) else None }

  function StringField(o: Record, k: string): Option<string> {
    if k in o && o[k].JStr? then Some(o[k].s) else None
  }

  /** The array at k, or no entries when it is not one. */
  function ListField(o: Record, k: string): seq<Json> { if k in o && o[k].JArr? then o[k].items else [] }

  predicate HasList(o: Record, k: string) { k in o && o[k].JArr? }

  predicate Truthy(v: Json) {
    match v
    case JNull => false
    case JBool(b) => b
    case JNum(n) => n != 0.0
    case JStr(s) => s != []
    case _ => true
  }

  /** A non-empty string. */
  predicate ValidName(o: Record, k: string) { k in o && o[k].JStr? && o[k].s != [] }

  /** A record's name or id: non-empty and not too long. */
  predicate ValidRecordName(o: Record, k: string) { ValidName(o, k) && |o[k].s| <= NAME_CHARS }

  // ---- Stamping: routing fields are computed, never taken

  const ROUTING_FIELDS: set<string> := {"key", "laneKey", "builder", "fkey"}

  function StripRouting(o: Record): Record { o - ROUTING_FIELDS }

  datatype Kind = KSession | KLane | KAttention | KApproval

  /** The record stamped with the frame's builder, or None when the source drops it. */
  function Stamp(kind: Kind, id: string, raw: Json): Option<Record> {
    if !raw.JObj? then None else
    var o := raw.fields;
    var s := StripRouting(o)["builder" := JStr(id)];
    match kind
    case KSession =>
      if !ValidRecordName(o, "name") then None
      else Some(s["key" := JStr(Fkey(id, o["name"].s))]
                 ["laneKey" := if ValidName(o, "lane") then JStr(Fkey(id, o["lane"].s)) else JNull])
    case KLane => if !ValidRecordName(o, "id") then None else Some(s["key" := JStr(Fkey(id, o["id"].s))])
    case KAttention => if !ValidRecordName(o, "name") then None else Some(s["key" := JStr(Fkey(id, o["name"].s))])
    case KApproval => Some(s["key" := if ValidName(o, "name") then JStr(Fkey(id, o["name"].s)) else JNull])
  }

  /** The stamped entries of a list, at most `max` of them, and how many came after those. */
  function StampAll(kind: Kind, id: string, raws: seq<Json>, max: Option<nat>): (r: (seq<Record>, nat))
    ensures max.Some? ==> |r.0| <= max.value
  {
    if raws == [] then ([], 0)
    else
      var (out, dropped) := StampAll(kind, id, raws[..|raws| - 1], max);
      if max.Some? && |out| >= max.value then (out, dropped + 1)
      else
        var v := Stamp(kind, id, raws[|raws| - 1]);
        if v.Some? then (out + [v.value], dropped) else (out, dropped)
  }

  // ---- The builder's record

  datatype BuilderStatus = BLive | BStale | BDown | BConnecting
  datatype Held = Held(sessions: map<string, Record>, lanes: seq<Record>, attention: seq<Record>,
                       approvals: map<string, Record>, repos: map<string, Json>)
  datatype Info = Info(code: Option<string>, mode: Option<string>, version: Option<string>, host: Option<string>,
                       state: Option<string>, status: BuilderStatus, stale: bool, ageMs: real)
  datatype Data = Data(box: Json, vitals: Json, health: Json, budget: Json, generatedAt: real, lastMsgAt: int)
  datatype Counts = Counts(sessions: nat, lanes: nat, attention: nat, approvals: nat, repos: nat, events: nat)
  datatype Window = Window(start: int, n: nat)

  datatype Builder = Builder(held: Held, info: Info, data: Data, dropped: Counts, window: Window)

  function NewBuilder(status: BuilderStatus): Builder {
    Builder(
      Held(map[], [], [], map[], map[]), Info(None, None, None, None, None, status, false, 0.0),
      Data(JNull, JNull, JNull, JNull, 0.0, 0), Counts(0, 0, 0, 0, 0, 0), Window(0, 0))
  }

  function NameOf(s: Record): string { if "name" in s && s["name"].JStr? then s["name"].s else "" }

  // ---- Sessions of a snapshot and of a delta

  /** The snapshot's sessions, last writer wins, new names only while there is room; and how many found none. */
  function KeepSessions(list: seq<Record>): (map<string, Record>, nat) {
    if list == [] then (map[], 0)
    else
      var (m, d) := KeepSessions(list[..|list| - 1]);
      var s := list[|list| - 1];
      if NameOf(s) !in m && |m| >= MAX_SESSIONS then (m, d + 1) else (m[NameOf(s) := s], d)
  }

  /** Upserts over `m0`, where `leaving` names that this delta removes make room; the new map, the drops and the names set. */
  function Upserts(m0: map<string, Record>, list: seq<Record>, leaving: nat): (map<string, Record>, nat, seq<string>) {
    if list == [] then (m0, 0, [])
    else
      var (m, d, names) := Upserts(m0, list[..|list| - 1], leaving);
      var s := list[|list| - 1];
      if NameOf(s) !in m && |m| - leaving >= MAX_SESSIONS then (m, d + 1, names)
      else (m[NameOf(s) := s], d, names + [NameOf(s)])
  }

  /** The names a delta removes: its non-empty strings. */
  function RemovedNames(removed: seq<Json>): set<string> {
    set i | 0 <= i < |removed| && removed[i].JStr? && removed[i].s != [] :: removed[i].s
  }

  function SnapshotSessions(id: string, b: Builder, msg: Record): Builder {
    var (m, d) := KeepSessions(StampAll(KSession, id, ListField(msg, "sessions"), None).0);
    b.(held := b.held.(sessions := m), dropped := b.dropped.(sessions := b.dropped.sessions + d))
  }

  /** Upserts first, with the room the removals make, then the removals. */
  function DeltaFrom(b: Builder, stamped: seq<Record>, removed: seq<Json>): (Builder, seq<string>) {
    var gone := RemovedNames(removed);
    var leaving := |gone * b.held.sessions.Keys|;
    var (m, d, names) := Upserts(b.held.sessions, stamped, leaving);
    (b.(held := b.held.(sessions := m - gone), dropped := b.dropped.(sessions := b.dropped.sessions + d)), names)
  }

  function DeltaSessions(id: string, b: Builder, msg: Record): (Builder, seq<string>) {
    DeltaFrom(b, StampAll(KSession, id, ListField(msg, "sessions"), None).0, ListField(msg, "removed"))
  }

  // ---- The fields a snapshot and a delta share

  function KeepApprovals(list: seq<Record>): (map<string, Record>, nat) {
    if list == [] then (map[], 0)
    else
      var (m, d) := KeepApprovals(list[..|list| - 1]);
      var a := list[|list| - 1];
      if !ValidRecordName(a, "id") then (m, d)
      else if a["id"].s !in m && |m| >= MAX_APPROVALS then (m, d + 1)
      else (m[a["id"].s := a], d)
  }

  function CommonLanes(id: string, b: Builder, msg: Record): Builder {
    if !("lanes" in msg && Truthy(msg["lanes"])) then b
    else
      var (lanes, d) := StampAll(KLane, id, ListField(msg, "lanes"), Some(MAX_LANES));
      b.(held := b.held.(lanes := lanes), dropped := b.dropped.(lanes := b.dropped.lanes + d))
  }

  function CommonAttention(id: string, b: Builder, msg: Record): Builder {
    if !("attention" in msg && Truthy(msg["attention"])) then b
    else
      var (list, d) := StampAll(KAttention, id, ListField(msg, "attention"), Some(MAX_ATTENTION));
      b.(held := b.held.(attention := list), dropped := b.dropped.(attention := b.dropped.attention + d))
  }

  function CommonApprovals(id: string, b: Builder, msg: Record): Builder {
    if !HasList(msg, "approvals") then b
    else
      var (m, d) := KeepApprovals(StampAll(KApproval, id, ListField(msg, "approvals"), None).0);
      b.(held := b.held.(approvals := m), dropped := b.dropped.(approvals := b.dropped.approvals + d))
  }

  function CommonData(data: Data, msg: Record): Data {
    data.(
      vitals := if "vitals" in msg && Truthy(msg["vitals"]) then msg["vitals"] else data.vitals,
      box := if "box" in msg then msg["box"] else data.box,
      generatedAt := if "generatedAt" in msg && msg["generatedAt"].JNum? && msg["generatedAt"].n != 0.0
                     then msg["generatedAt"].n else data.generatedAt,
      health := if "health" in msg && msg["health"] != JNull then msg["health"] else data.health,
      budget := if "budget" in msg then msg["budget"] else data.budget)
  }

  function CommonInfo(info: Info, msg: Record): Info {
    info.(
      host := if "vitals" in msg && msg["vitals"].JObj? && StringField(msg["vitals"].fields, "host").Some?
              then StringField(msg["vitals"].fields, "host") else info.host,
      stale := if "stale" in msg && msg["stale"].JBool? then msg["stale"].b else info.stale,
      ageMs := if "ageMs" in msg && msg["ageMs"].JNum? then msg["ageMs"].n else info.ageMs)
  }

  function ApplyCommon(id: string, b: Builder, msg: Record): Builder {
    var b1 := CommonApprovals(id, CommonAttention(id, CommonLanes(id, b, msg), msg), msg);
    b1.(data := CommonData(b1.data, msg), info := CommonInfo(b1.info, msg))
  }

  // ---- Events, one window per builder

  /** The window after one more event, and whether the event passes. */
  function AllowEvent(w: Window, now: int): (Window, bool) {
    var w1 := if now - w.start < WINDOW_MS && now >= w.start then w else Window(now, 0);
    if w1.n >= EVENTS_PER_WINDOW then (w1, false) else (w1.(n := w1.n + 1), true)
  }

  function Decimal(n: nat): string { (if n < 10 then "" else Decimal(n / 10)) + [('0' as int + n % 10) as char] }

  /** The fields of an object; an array's are its items by index. */
  function FieldsOf(v: Json): Record
  {
    match v
    case JObj(fields) => fields
    case JArr(items) => ByIndex(items)
    case _ => map[]
  }

  function ByIndex(items: seq<Json>): Record {
    if items == [] then map[] else ByIndex(items[..|items| - 1])[Decimal(|items| - 1) := items[|items| - 1]]
  }

  function StampEvent(id: string, event: Record): Record {
    StripRouting(event)["builder" := JStr(id)]
      ["key" := if ValidName(event, "session_name") then JStr(Fkey(id, event["session_name"].s)) else JNull]
  }

  // ---- One builder-scoped message

  datatype Out =
    | OSnapshot | ODelta(upserts: Option<seq<string>>) | OEvent(event: Record) | OHealth
    | OApproval(approval: Record) | OStuck(name: seq<string>) | ORepos

  /** Whether the message made the record (or found it) at all, the record, and the answer; None is a dropped message. */
  datatype Scoped = Scoped(touched: bool, b: Builder, out: Option<Out>)

  function ScopedEvent(id: string, b: Builder, msg: Record, now: int): Scoped {
    if !("event" in msg && (msg["event"].JObj? || msg["event"].JArr?)) then Scoped(false, b, None)
    else
      var (w, ok) := AllowEvent(b.window, now);
      if !ok then Scoped(true, b.(window := w, dropped := b.dropped.(events := b.dropped.events + 1)), None)
      else Scoped(true, b.(window := w), Some(OEvent(StampEvent(id, FieldsOf(msg["event"])))))
  }

  function ScopedApproval(id: string, b: Builder, msg: Record): Scoped {
    var a := if "approval" in msg then Stamp(KApproval, id, msg["approval"]) else None;
    if a.None? || !ValidRecordName(a.value, "id") then Scoped(true, b, None)
    else
      var aid := a.value["id"].s;
      if StringField(msg, "op") == Some("close") then
        Scoped(true, b.(held := b.held.(approvals := b.held.approvals - {aid})), Some(OApproval(a.value)))
      else if aid !in b.held.approvals && |b.held.approvals| >= MAX_APPROVALS then
        Scoped(true, b.(dropped := b.dropped.(approvals := b.dropped.approvals + 1)), None)
      else Scoped(true, b.(held := b.held.(approvals := b.held.approvals[aid := a.value])), Some(OApproval(a.value)))
  }

  function ScopedStuck(b: Builder, msg: Record): Scoped {
    if !ValidName(msg, "name") then Scoped(true, b, None)
    else
      var n := msg["name"].s;
      if n !in b.held.sessions then Scoped(true, b, Some(OStuck([])))
      else
        var s := b.held.sessions[n]["stuck" := if "stuck" in msg then msg["stuck"] else JNull];
        Scoped(true, b.(held := b.held.(sessions := b.held.sessions[n := s])), Some(OStuck([n])))
  }

  function ScopedRepos(b: Builder, msg: Record): Scoped {
    if !ValidRecordName(msg, "repo") then Scoped(false, b, None)
    else
      var repo := msg["repo"].s;
      if repo !in b.held.repos && |b.held.repos| >= MAX_REPOS then
        Scoped(true, b.(dropped := b.dropped.(repos := b.dropped.repos + 1)), None)
      else
        var data := if "data" in msg then msg["data"] else JNull;
        Scoped(true, b.(held := b.held.(repos := b.held.repos[repo := data])), Some(ORepos))
  }

  datatype Scope = SSnapshot | SDelta | SEvent | SHealth | SApproval | SStuck | SRepos | SOther

  function ScopeOf(msg: Record): Scope {
    match StringField(msg, "type")
    case None => SOther
    case Some(t) =>
      if t == "snapshot" then SSnapshot else if t == "delta" then SDelta else if t == "event" then SEvent
      else if t == "health" then SHealth else if t == "approval" then SApproval else if t == "stuck" then SStuck
      else if t == "repos" then SRepos else SOther
  }

  function ScopedSnapshot(id: string, b: Builder, msg: Record): Scoped {
    Scoped(true, ApplyCommon(id, SnapshotSessions(id, b, msg), msg), Some(OSnapshot))
  }

  function ScopedDelta(id: string, b: Builder, msg: Record): Scoped {
    var (b1, names) := DeltaSessions(id, b, msg);
    Scoped(true, ApplyCommon(id, b1, msg), Some(ODelta(if HasList(msg, "sessions") then Some(names) else None)))
  }

  function ScopedHealth(b: Builder, msg: Record): Scoped {
    Scoped(true, b.(data := b.data.(health := if "health" in msg then msg["health"] else JNull)), Some(OHealth))
  }

  function ScopedStep(id: string, b: Builder, msg: Record, now: int): Scoped {
    match ScopeOf(msg)
    case SSnapshot => ScopedSnapshot(id, b, msg)
    case SDelta => ScopedDelta(id, b, msg)
    case SEvent => ScopedEvent(id, b, msg, now)
    case SHealth => ScopedHealth(b, msg)
    case SApproval => ScopedApproval(id, b, msg)
    case SStuck => ScopedStuck(b, msg)
    case SRepos => ScopedRepos(b, msg)
    case SOther => Scoped(false, b, None)
  }

  /** A scoped message's record, heard now when the message counted. */
  function Heard(sc: Scoped, now: int): Builder {
    if sc.out.Some? then sc.b.(data := sc.b.data.(lastMsgAt := now)) else sc.b
  }

  // ---- The hub's fleet rows and the local source's hello

  /** A row's state as a status; a state of no row is down. */
  function RowStatus(state: Option<string>): BuilderStatus {
    match state
    case None => BDown
    case Some(s) =>
      if s == "up" then BLive
      else if s == "stale" || s == "incompatible" then BStale
      else if s == "connecting" then BConnecting
      else BDown
  }

  function RowInfo(info: Info, row: Record): Info {
    var state := StringField(row, "state");
    info.(
      code := if StringField(row, "code").Some? then StringField(row, "code") else info.code,
      state := state, status := RowStatus(state), stale := RowStatus(state) != BLive,
      ageMs := if "ageMs" in row && row["ageMs"].JNum? then row["ageMs"].n else info.ageMs,
      version := StringField(row, "version"))
  }

  /** The id of a row that counts. */
  function RowId(row: Json): Option<string> {
    if row.JObj? && StringField(row.fields, "id").Some? && ValidId(row.fields["id"].s) then Some(row.fields["id"].s) else None
  }

  function RowIds(list: seq<Json>): set<string> {
    set i | 0 <= i < |list| && RowId(list[i]).Some? :: RowId(list[i]).value
  }

  /** The records after the rows: the first row of each id sets its record, made when it is new. */
  function AfterRows(start: BuilderStatus, fleet: map<string, Builder>, list: seq<Json>): map<string, Builder> {
    if list == [] then fleet
    else
      var head, row := list[..|list| - 1], list[|list| - 1];
      var f := AfterRows(start, fleet, head);
      var id := RowId(row);
      if id.None? || id.value in RowIds(head) then f
      else
        var b := if id.value in f then f[id.value] else NewBuilder(start);
        f[id.value := b.(info := RowInfo(b.info, row.fields))]
  }

  function OrderAfterRows(start: BuilderStatus, fleet: map<string, Builder>, order: seq<string>, list: seq<Json>): seq<string> {
    if list == [] then order
    else
      var head, id := list[..|list| - 1], RowId(list[|list| - 1]);
      var o := OrderAfterRows(start, fleet, order, head);
      if id.None? || id.value in RowIds(head) || id.value in AfterRows(start, fleet, head) then o else o + [id.value]
  }

  /** The id a hello gives its source. */
  function HelloId(msg: Record): Option<string> {
    if "builder" in msg && msg["builder"].JObj? then RowId(msg["builder"]) else None
  }

  function HelloInfo(info: Info, msg: Record): Info {
    info.(code := if "builder" in msg && msg["builder"].JObj? then StringField(msg["builder"].fields, "code") else None,
          mode := StringField(msg, "mode"), version := StringField(msg, "version"))
  }
}
