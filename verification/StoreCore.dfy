/** What the store keeps between messages, on values: the steps that every reducer is made of. */
module StoreCore {
  import opened Keys
  import opened Triggers
  import opened StoreSpec
  import opened SessionIndex
  import opened StoreDerived
  import StableSort
  import StoreLaws

  type Sessions = map<string, Record>

  function SessionsOf(fleet: Fleet): map<string, Sessions> { map id | id in fleet :: fleet[id].held.sessions }

  ghost predicate Well(fleet: Fleet) {
    forall id {:trigger Look(id)} :: Look(id) && id in fleet ==> ValidId(id) && StoreLaws.WellHeld(id, fleet[id].held)
  }

  /** The builders in the order they came, each once. */
  ghost predicate InsertionOrder(order: seq<string>, fleet: Fleet) {
    && Covers(order, fleet)
    && (forall i, j :: 0 <= i < j < |order| ==> order[i] != order[j])
    && (forall id {:trigger Look(id)} :: Look(id) && id in fleet ==> id in order)
  }

  /** The records are well kept and the index is their disjoint union; by name, only `h` holds sessions. */
  ghost predicate CoreOf(mode: KeyMode, order: seq<string>, fleet: Fleet, index: Sessions, h: string) {
    && InsertionOrder(order, fleet) && Well(fleet)
    && Distinct(mode, SessionsOf(fleet), h)
    && Agree(KeyFn(mode), SessionsOf(fleet), index)
  }

  ghost predicate DerivedOf(order: seq<string>, fleet: Fleet, lanes: seq<Record>, attention: seq<Record>) {
    Covers(order, fleet) && lanes == AllLanes(order, fleet) && attention == Attention(order, fleet)
  }

  /** What the core says of one record. */
  lemma Kept(mode: KeyMode, order: seq<string>, fleet: Fleet, index: Sessions, h: string, id: string)
    requires CoreOf(mode, order, fleet, index, h) && id in fleet
    ensures ValidId(id) && StoreLaws.WellHeld(id, fleet[id].held)
    ensures InsertionOrder(order, fleet) && Well(fleet)
  {
    assert Look(id);
  }

  // ---- A record comes, changes or goes

  lemma AddRecord(mode: KeyMode, order: seq<string>, fleet: Fleet, index: Sessions, h: string, id: string, b: Builder)
    requires CoreOf(mode, order, fleet, index, h) && id !in fleet && ValidId(id)
    requires b.held == Held(map[], [], [], map[], map[])
    ensures CoreOf(mode, order + [id], fleet[id := b], index, h)
  {
    var all, all' := SessionsOf(fleet), SessionsOf(fleet[id := b]);
    assert forall i, n :: Holds(all', i, n) ==> Holds(all, i, n);
    SameSessionsAgree(KeyFn(mode), all, all', index);
  }

  lemma AddMerged(order: seq<string>, fleet: Fleet, fleet': Fleet, id: string)
    requires Covers(order, fleet) && id !in fleet && id in fleet' && fleet' == fleet[id := fleet'[id]]
    requires fleet'[id].held.lanes == [] && fleet'[id].held.attention == []
    ensures Covers(order + [id], fleet')
    ensures AllLanes(order + [id], fleet') == AllLanes(order, fleet)
    ensures MergedAttention(order + [id], fleet') == MergedAttention(order, fleet)
  {
    var order' := order + [id];
    assert order'[..|order'| - 1] == order && order'[|order'| - 1] == id;
    DerivedFrame(order, fleet, fleet');
    assert AttentionOf(fleet'[id]) == [];
  }

  lemma AddDerived(order: seq<string>, fleet: Fleet, lanes: seq<Record>, attention: seq<Record>, id: string, b: Builder)
    requires DerivedOf(order, fleet, lanes, attention) && id !in fleet
    requires b.held.lanes == [] && b.held.attention == []
    ensures DerivedOf(order + [id], fleet[id := b], lanes, attention)
  {
    var fleet' := fleet[id := b];
    AddMerged(order, fleet, fleet', id);
    SameMerge(order + [id], fleet', order, fleet);
  }

  /** A change that leaves the record's sessions alone. */
  lemma ChangeRecord(mode: KeyMode, order: seq<string>, fleet: Fleet, index: Sessions, h: string, id: string, b: Builder)
    requires CoreOf(mode, order, fleet, index, h) && id in fleet
    requires b.held.sessions == fleet[id].held.sessions && StoreLaws.WellHeld(id, b.held)
    ensures CoreOf(mode, order, fleet[id := b], index, h)
  {
    assert SessionsOf(fleet[id := b]) == SessionsOf(fleet);
  }

  /** A change that leaves what is derived from the record alone. */
  lemma ChangeDerived(order: seq<string>, fleet: Fleet, lanes: seq<Record>, attention: seq<Record>, id: string, b: Builder)
    requires DerivedOf(order, fleet, lanes, attention) && id in fleet
    requires b.held.lanes == fleet[id].held.lanes && b.held.attention == fleet[id].held.attention
    requires b.info.status == fleet[id].info.status
    ensures DerivedOf(order, fleet[id := b], lanes, attention)
  {
    DerivedFrame(order, fleet, fleet[id := b]);
  }

  /** The order without `id`. */
  function Without(order: seq<string>, id: string): seq<string> {
    if order == [] then []
    else Without(order[..|order| - 1], id) + (if order[|order| - 1] == id then [] else [order[|order| - 1]])
  }

  lemma {:induction false} WithoutIsOrder(order: seq<string>, fleet: Fleet, id: string)
    requires forall i, j :: 0 <= i < j < |order| ==> order[i] != order[j]
    ensures var o := Without(order, id);
            && (forall x :: x in o <==> x in order && x != id)
            && (forall i, j :: 0 <= i < j < |o| ==> o[i] != o[j])
  {
    if order != [] {
      var head, last := order[..|order| - 1], order[|order| - 1];
      WithoutIsOrder(head, fleet, id);
      assert order == head + [last] && last !in head;
      assert forall i :: 0 <= i < |Without(head, id)| ==> Without(head, id)[i] in head;
    }
  }

  lemma {:induction false} WithoutConcat(a: seq<string>, b: seq<string>, id: string)
    ensures Without(a + b, id) == Without(a, id) + Without(b, id)
    decreases |b|
  {
    if b == [] {
      assert a + b == a;
    } else {
      assert (a + b)[..|a + b| - 1] == a + b[..|b| - 1];
      WithoutConcat(a, b[..|b| - 1], id);
    }
  }

  lemma {:induction false} WithoutNone(a: seq<string>, id: string)
    requires id !in a
    ensures Without(a, id) == a
  {
    if a != [] { WithoutNone(a[..|a| - 1], id); }
  }

  lemma WithoutSelf(id: string)
    ensures Without([id], id) == []
  {
    assert [id][..0] == [];
  }

  lemma WithoutMiddle(a: seq<string>, id: string, b: seq<string>)
    requires id !in a && id !in b
    ensures Without(a + [id] + b, id) == a + b
  {
    hide Without;
    WithoutConcat(a, [id], id);
    WithoutConcat(a + [id], b, id);
    WithoutNone(a, id);
    WithoutNone(b, id);
    WithoutSelf(id);
    assert a + [] == a;
  }

  /** The ids of the order that are in `keep`. */
  function KeepIds(order: seq<string>, keep: set<string>): seq<string> {
    if order == [] then []
    else KeepIds(order[..|order| - 1], keep) + (if order[|order| - 1] in keep then [order[|order| - 1]] else [])
  }

  function IsIn(keep: set<string>): string -> bool { x => x in keep }

  function IsNot(id: string): string -> bool { x => x != id }

  /** The builders that stay keep their order. */
  lemma {:induction false} KeptInOrder(order: seq<string>, keep: set<string>, id: string)
    ensures KeepIds(order, keep) == StableSort.Select(IsIn(keep), order) && Without(order, id) == StableSort.Select(IsNot(id), order)
  {
    if order != [] { KeptInOrder(order[..|order| - 1], keep, id); }
  }

  lemma {:induction false} KeepIdsFrom(order: seq<string>, keep: set<string>)
    ensures forall x :: x in KeepIds(order, keep) ==> x in order && x in keep
  {
    if order != [] { KeepIdsFrom(order[..|order| - 1], keep); }
  }

  lemma DropOrder(order: seq<string>, fleet: Fleet, id: string)
    requires InsertionOrder(order, fleet) && Well(fleet)
    ensures InsertionOrder(Without(order, id), fleet - {id}) && Well(fleet - {id})
  {
    var o := Without(order, id);
    WithoutIsOrder(order, fleet, id);
    forall i | 0 <= i < |o| ensures o[i] in fleet - {id} { assert o[i] in o; }
  }

  /** A record whose keys are out of the index goes. */
  lemma DropRecord(mode: KeyMode, order: seq<string>, fleet: Fleet, index: Sessions, h: string, h': string, id: string)
    requires InsertionOrder(order, fleet) && Well(fleet) && id in fleet
    requires Distinct(mode, SessionsOf(fleet), h)
    requires Agree(KeyFn(mode), SessionsOf(fleet)[id := map[]], index)
    requires mode == ByName ==> h == h' || h == id
    ensures CoreOf(mode, Without(order, id), fleet - {id}, index, h')
  {
    DropOrder(order, fleet, id);
    DropSessions(mode, SessionsOf(fleet), SessionsOf(fleet - {id}), index, h, h', id);
  }

  lemma DropSessions(mode: KeyMode, all: map<string, Sessions>, all': map<string, Sessions>, index: Sessions, h: string, h': string, id: string)
    requires id in all && all' == all - {id} && Distinct(mode, all, h)
    requires Agree(KeyFn(mode), all[id := map[]], index)
    requires mode == ByName ==> h == h' || h == id
    ensures Distinct(mode, all', h') && Agree(KeyFn(mode), all', index)
  {
    assert forall i, n :: Holds(all', i, n) ==> i != id && Holds(all, i, n) && Holds(all[id := map[]], i, n);
    SameSessionsAgree(KeyFn(mode), all[id := map[]], all', index);
  }

  // ---- Sessions change one by one

  /** The index agrees while builder `id` holds `m` instead of what its record says. */
  ghost predicate Synced(mode: KeyMode, all: map<string, Sessions>, id: string, m: Sessions, index: Sessions, h: string) {
    && ValidId(id) && Distinct(mode, all[id := m], h)
    && Agree(KeyFn(mode), all[id := m], index)
  }

  lemma Begin(mode: KeyMode, order: seq<string>, fleet: Fleet, index: Sessions, h: string, id: string)
    requires CoreOf(mode, order, fleet, index, h) && id in fleet
    ensures Synced(mode, SessionsOf(fleet), id, fleet[id].held.sessions, index, h)
  {
    assert Look(id);
    assert SessionsOf(fleet)[id := fleet[id].held.sessions] == SessionsOf(fleet);
  }

  lemma SyncSet(mode: KeyMode, all: map<string, Sessions>, id: string, m: Sessions, index: Sessions, h: string, n: string, s: Record)
    requires Synced(mode, all, id, m, index, h) && n != "" && (mode == ByName ==> id == h)
    ensures Synced(mode, all, id, m[n := s], index[KeyOf(mode, id, n) := s], h)
  {
    var cur := all[id := m];
    KeysApart(mode, cur, h, id, n);
    SetAgrees(KeyFn(mode), cur, index, id, n, s);
    assert cur[id := cur[id][n := s]] == all[id := m[n := s]];
    assert forall i, k :: Holds(all[id := m[n := s]], i, k) ==> i == id || Holds(cur, i, k);
  }

  lemma SyncRemove(mode: KeyMode, all: map<string, Sessions>, id: string, m: Sessions, index: Sessions, h: string, n: string)
    requires Synced(mode, all, id, m, index, h) && n != "" && (mode == ByName ==> id == h)
    ensures Synced(mode, all, id, m - {n}, index - {KeyOf(mode, id, n)}, h)
  {
    var cur := all[id := m];
    KeysApart(mode, cur, h, id, n);
    RemoveAgrees(KeyFn(mode), cur, index, id, n);
    assert cur[id := cur[id] - {n}] == all[id := m - {n}];
    assert forall i, k :: Holds(all[id := m - {n}], i, k) ==> Holds(cur, i, k);
  }

  lemma Finish(mode: KeyMode, order: seq<string>, fleet: Fleet, index: Sessions, h: string, id: string, b: Builder)
    requires InsertionOrder(order, fleet) && Well(fleet) && id in fleet && StoreLaws.WellHeld(id, b.held)
    requires Synced(mode, SessionsOf(fleet), id, b.held.sessions, index, h)
    ensures CoreOf(mode, order, fleet[id := b], index, h)
  {
    assert SessionsOf(fleet[id := b]) == SessionsOf(fleet)[id := b.held.sessions];
  }

  /** One held session taken out of the index: what the index says of its key, and what is left. */
  lemma HeldName(mode: KeyMode, all: map<string, Sessions>, id: string, m: Sessions, index: Sessions, h: string, n: string)
    requires Synced(mode, all, id, m, index, h) && n in m
    ensures KeyOf(mode, id, n) in index && index[KeyOf(mode, id, n)] == m[n]
    ensures Synced(mode, all, id, m - {n}, index - {KeyOf(mode, id, n)}, h)
  {
    assert Look(id) && Holds(all[id := m], id, n);
    assert KeyFn(mode)(id, n) == KeyOf(mode, id, n);
    SyncRemove(mode, all, id, m, index, h, n);
  }
}
