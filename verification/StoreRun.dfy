/**
  Whole runs of the store on values: what feeds it and its records, after any messages and
  switches (public/js/core/store.js: `ingest`, `setSourceKind`, `setSourceStatus`).
*/
module StoreRun {
  import opened Options
  import opened StoreSpec
  import opened SessionIndex
  import opened StoreDerived
  import opened StoreCore
  import opened StoreModes
  import opened StoreLaws

  datatype SourceStatus = Connecting | Open | Closed

  /** What one message changed. */
  datatype Change = CHello(id: string) | CFleet | CPassive | CScoped(id: string, out: Out)

  /** What drives the store: a message, or the page's own switches. */
  datatype Op =
    | OIngest(msg: Record, now: int) | OSourceKind(kind: SourceKind) | OSourceStatus(status: SourceStatus)
    | OFleetKeys
    | ONameKeys // only a local source that holds sessions of no other builder takes it

  /** The source and the records it fed. */
  datatype Desk = Desk(kind: SourceKind, sourceId: Option<string>, status: SourceStatus, fleet: Fleet) {
    function Local(): string { sourceId.GetOr(LOCAL_FALLBACK_ID) }

    /** The status a record starts with: a local source's own. */
    function Start(): BuilderStatus { if kind == StoreModes.Local && status == Open then BLive else BConnecting }

    /** Builder `id`'s record, or the one it would start with. */
    function RecordOf(id: string): Builder { if id in fleet then fleet[id] else NewBuilder(Start()) }
  }

  const NEW_DESK := Desk(Local, None, Connecting, map[])

  function MirrorOf(status: SourceStatus): BuilderStatus {
    match status
    case Open => BLive
    case Closed => BDown
    case Connecting => BConnecting
  }

  /** The records whose id is in `ids` have the status. */
  function Mirrored(fleet: Fleet, ids: set<string>, status: BuilderStatus): Fleet {
    map id | id in fleet :: if id in ids then fleet[id].(info := fleet[id].info.(status := status)) else fleet[id]
  }

  // ---- One message

  /** The id a local source takes from its hello. */
  function HelloOf(d: Desk, msg: Record): Option<string> { if d.kind == Hub then None else HelloId(msg) }

  function HelloFleet(d: Desk, msg: Record): Fleet {
    match HelloOf(d, msg)
    case None => d.fleet
    case Some(id) => map[id := d.RecordOf(id).(info := HelloInfo(d.RecordOf(id).info, msg))]
  }

  function RowsFleet(d: Desk, msg: Record): Fleet {
    if !HasList(msg, "builders") then d.fleet
    else
      var f := AfterRows(d.Start(), d.fleet, ListField(msg, "builders"));
      f - (f.Keys - RowIds(ListField(msg, "builders")))
  }

  function ScopedFleet(d: Desk, msg: Record, now: int): Fleet {
    match RouteTo(d.kind, d.Local(), msg)
    case None => d.fleet
    case Some(id) =>
      var sc := ScopedStep(id, d.RecordOf(id), msg, now);
      if sc.touched then d.fleet[id := Heard(sc, now)] else d.fleet
  }

  /** The records after one message. */
  function FleetAfter(d: Desk, msg: Record, now: int): Fleet {
    match TopOf(msg)
    case THello => HelloFleet(d, msg)
    case TFleet => RowsFleet(d, msg)
    case TScoped => ScopedFleet(d, msg, now)
    case _ => d.fleet
  }

  function ScopedAnswer(d: Desk, msg: Record, now: int): Option<Change> {
    match RouteTo(d.kind, d.Local(), msg)
    case None => None
    case Some(id) =>
      var out := ScopedStep(id, d.RecordOf(id), msg, now).out;
      if out.Some? then Some(CScoped(id, out.value)) else None
  }

  /** What the message is answered with. */
  function Answer(d: Desk, msg: Record, now: int): Option<Change> {
    match TopOf(msg)
    case THello => if HelloOf(d, msg).Some? then Some(CHello(HelloOf(d, msg).value)) else None
    case TFleet => if HasList(msg, "builders") then Some(CFleet) else None
    case TPassive => Some(CPassive)
    case TNone => None
    case TScoped => ScopedAnswer(d, msg, now)
  }

  function Ingested(d: Desk, msg: Record, now: int): Desk {
    d.(fleet := FleetAfter(d, msg, now),
       sourceId := if TopOf(msg) == THello && HelloOf(d, msg).Some? then HelloOf(d, msg) else d.sourceId)
  }

  // ---- Runs

  function Step(d: Desk, op: Op): Desk {
    match op
    case OIngest(msg, now) => Ingested(d, msg, now)
    case OSourceKind(k) => d.(kind := k, sourceId := if k == Hub then None else d.sourceId)
    case OSourceStatus(st) => d.(status := st, fleet := if d.kind == Local then Mirrored(d.fleet, d.fleet.Keys, MirrorOf(st)) else d.fleet)
    case OFleetKeys => d
    case ONameKeys => d
  }

  function After(d: Desk, ops: seq<Op>): Desk {
    if ops == [] then d else Step(After(d, ops[..|ops| - 1]), ops[|ops| - 1])
  }

  lemma AfterOne(d: Desk, ops: seq<Op>, op: Op)
    ensures After(d, ops + [op]) == Step(After(d, ops), op)
  {
    assert (ops + [op])[..|ops|] == ops;
  }

  // ---- Routing fields a builder sends never matter

  /** The operation with every routing field taken out of the records of its message. */
  function ErasedOp(op: Op): Op { if op.OIngest? then OIngest(Erased(op.msg), op.now) else op }

  function ErasedOps(ops: seq<Op>): (r: seq<Op>)
    ensures |r| == |ops| && forall i :: 0 <= i < |ops| ==> r[i] == ErasedOp(ops[i])
  {
    seq(|ops|, i requires 0 <= i < |ops| => ErasedOp(ops[i]))
  }

  lemma FrameErased(d: Desk, msg: Record)
    ensures TopOf(Erased(msg)) == TopOf(msg) && RouteTo(d.kind, d.Local(), Erased(msg)) == RouteTo(d.kind, d.Local(), msg)
    ensures HelloId(Erased(msg)) == HelloId(msg) && forall i: Info {:trigger HelloInfo(i, msg)} :: HelloInfo(i, Erased(msg)) == HelloInfo(i, msg)
    ensures HasList(Erased(msg), "builders") == HasList(msg, "builders")
    ensures ListField(Erased(msg), "builders") == ListField(msg, "builders")
  {
    hide Erased;
    FieldErased(msg, "type");
    FieldErased(msg, "builder");
    FieldErased(msg, "builders");
    FieldErased(msg, "mode");
    FieldErased(msg, "version");
  }

  /** One message, of any type: the same records, the same source, the same answer. */
  lemma MessageErased(d: Desk, msg: Record, now: int)
    ensures Ingested(d, Erased(msg), now) == Ingested(d, msg, now)
    ensures Answer(d, Erased(msg), now) == Answer(d, msg, now)
  {
    hide Erased, HelloInfo, HelloId, AfterRows, RowIds, ScopedStep, RouteTo, TopOf;
    FrameErased(d, msg);
    var id := RouteTo(d.kind, d.Local(), msg);
    if id.Some? { RoutingFieldsIgnored(id.value, d.RecordOf(id.value), msg, now); }
  }

  /**
    Erasure for the whole store: a run leaves the same records as the run with every nested `key`, `laneKey`, `builder`
    and `fkey` taken out of all its messages, so an index that agrees with the one agrees with the other and is the same.
  */
  lemma {:induction false} RunErased(d: Desk, ops: seq<Op>)
    ensures After(d, ErasedOps(ops)) == After(d, ops)
  {
    if ops != [] {
      hide Step;
      var n := |ops| - 1;
      RunErased(d, ops[..n]);
      assert ErasedOps(ops)[..n] == ErasedOps(ops[..n]);
      StepErased(After(d, ops[..n]), ops[n]);
    }
  }

  lemma StepErased(d: Desk, op: Op)
    ensures Step(d, ErasedOp(op)) == Step(d, op)
  {
    hide Ingested;
    if op.OIngest? { MessageErased(d, op.msg, op.now); }
  }

  lemma IndexErased(d: Desk, ops: seq<Op>, mode: KeyMode, a: Sessions, b: Sessions)
    requires Agree(KeyFn(mode), SessionsOf(After(d, ErasedOps(ops)).fleet), a)
    requires Agree(KeyFn(mode), SessionsOf(After(d, ops).fleet), b)
    ensures a == b
  {
    hide Agree;
    RunErased(d, ops);
    AgreeUnique(KeyFn(mode), SessionsOf(After(d, ops).fleet), a, b);
  }

  // ---- Which builders a local source holds

  /** A local source holds no builder but its own. */
  predicate OnlyOwn(d: Desk) { d.kind == Local ==> d.fleet.Keys <= {d.Local()} }

  /** Not: fleet rows of another builder on a local source, or a switch to local with a hub's builders still there. */
  predicate KeepsOwn(d: Desk, op: Op) {
    match op
    case OIngest(msg, _) => d.kind == Local ==> !ForeignRows(d.Local(), msg)
    case OSourceKind(k) => k == Local ==> d.fleet.Keys <= {d.Local()}
    case _ => true
  }

  lemma {:induction false} RowKeys(start: BuilderStatus, fleet: Fleet, list: seq<Json>)
    ensures AfterRows(start, fleet, list).Keys == fleet.Keys + RowIds(list)
  {
    hide RowId, RowInfo, NewBuilder;
    if list == [] {
      assert RowIds(list) == {};
    } else {
      var n := |list| - 1;
      RowKeys(start, fleet, list[..n]);
      var f := AfterRows(start, fleet, list[..n]);
      assert list == list[..n] + [list[n]];
      var last := if RowId(list[n]).Some? then {RowId(list[n]).value} else {};
      forall x ensures x in RowIds(list) <==> x in RowIds(list[..n]) + last {
        if x in RowIds(list[..n]) {
          var i :| 0 <= i < n && RowId(list[..n][i]).Some? && RowId(list[..n][i]).value == x;
          assert RowId(list[i]).value == x;
        }
        if x in last { assert RowId(list[n]).value == x; }
        if x in RowIds(list) {
          var i :| 0 <= i < |list| && RowId(list[i]).Some? && RowId(list[i]).value == x;
          if i < n { assert list[..n][i] == list[i]; }
        }
      }
    }
  }

  lemma MessageKeys(d: Desk, msg: Record, now: int)
    ensures FleetAfter(d, msg, now).Keys == IdsAfter(d.kind, d.Local(), d.fleet.Keys, msg)
    ensures Ingested(d, msg, now).Local() == LocalAfter(d.kind, d.Local(), msg)
  {
    hide ScopedStep, AfterRows, RowIds, HelloInfo, HelloId, Touches, NewBuilder, Heard;
    RowKeys(d.Start(), d.fleet, ListField(msg, "builders"));
    var id := RouteTo(d.kind, d.Local(), msg);
    if id.Some? { TouchesIsTouched(id.value, d.RecordOf(id.value), msg, now); }
  }

  lemma StepOwn(d: Desk, op: Op)
    requires OnlyOwn(d)
    ensures OnlyOwn(Step(d, op)) <==> KeepsOwn(d, op)
  {
    hide FleetAfter, IdsAfter, LocalAfter, ForeignRows;
    match op
    case OIngest(msg, now) =>
      MessageKeys(d, msg, now);
      if d.kind == Local { OneLocalBuilder(d.Local(), d.fleet.Keys, msg); }
    case _ =>
  }

  ghost predicate AlwaysOwn(d: Desk, ops: seq<Op>) { forall i :: 0 <= i <= |ops| ==> OnlyOwn(After(d, ops[..i])) }

  /** Over any run a local source never holds another builder exactly when no step brings it one. */
  lemma RunOwn(d: Desk, ops: seq<Op>)
    requires OnlyOwn(d)
    ensures AlwaysOwn(d, ops) <==> forall i :: 0 <= i < |ops| ==> KeepsOwn(After(d, ops[..i]), ops[i])
  {
    hide OnlyOwn, KeepsOwn, Step;
    assert ops[..0] == [];
    if forall i :: 0 <= i < |ops| ==> KeepsOwn(After(d, ops[..i]), ops[i]) { OwnUpTo(d, ops, |ops|); }
    if AlwaysOwn(d, ops) {
      forall i | 0 <= i < |ops| ensures KeepsOwn(After(d, ops[..i]), ops[i]) {
        OneOn(d, ops, i);
        assert OnlyOwn(After(d, ops[..i])) && OnlyOwn(After(d, ops[..i + 1]));
        StepOwn(After(d, ops[..i]), ops[i]);
      }
    }
  }

  lemma OneOn(d: Desk, ops: seq<Op>, i: nat)
    requires i < |ops|
    ensures After(d, ops[..i + 1]) == Step(After(d, ops[..i]), ops[i])
  {
    assert ops[..i + 1] == ops[..i] + [ops[i]];
    AfterOne(d, ops[..i], ops[i]);
  }

  lemma {:induction false} OwnUpTo(d: Desk, ops: seq<Op>, n: nat)
    requires OnlyOwn(d) && n <= |ops| && forall i :: 0 <= i < n ==> KeepsOwn(After(d, ops[..i]), ops[i])
    ensures forall i :: 0 <= i <= n ==> OnlyOwn(After(d, ops[..i]))
  {
    hide OnlyOwn, KeepsOwn, Step;
    if n == 0 {
      assert ops[..0] == [];
    } else {
      OwnUpTo(d, ops, n - 1);
      OneOn(d, ops, n - 1);
      assert KeepsOwn(After(d, ops[..n - 1]), ops[n - 1]);
      StepOwn(After(d, ops[..n - 1]), ops[n - 1]);
    }
  }
}
