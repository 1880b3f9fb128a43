/**
  The flat index over every builder's sessions (public/js/core/store.js: `indexKey`,
  `sessionKey`, `reindex`, `dropIndexOf`), for any kind of session and any way to key them.
*/
module SessionIndex {
  import opened Keys
  import opened Triggers

  datatype KeyMode = ByFkey | ByName

  /** The index key of builder `id`'s session `n`. */
  function KeyOf(mode: KeyMode, id: string, n: string): string { if mode == ByName then n else Fkey(id, n) }

  type Key = (string, string) -> string

  function KeyFn(mode: KeyMode): Key { (id: string, n: string) => KeyOf(mode, id, n) }

  predicate Holds<S>(all: map<string, map<string, S>>, id: string, n: string) { id in all && n in all[id] }

  /** Every held session stands in the index under its key. */
  ghost predicate Filed<S>(key: Key, all: map<string, map<string, S>>, index: map<string, S>) {
    forall id, n :: Holds(all, id, n) ==> key(id, n) in index && index[key(id, n)] == all[id][n]
  }

  /** Every key of the index is the key of a held session. */
  ghost predicate Backed<S>(key: Key, all: map<string, map<string, S>>, index: map<string, S>) {
    forall k {:trigger Look(k)} :: Look(k) && k in index ==> exists id, n :: Holds(all, id, n) && key(id, n) == k
  }

  /** The index is exactly the disjoint union of the builders' sessions under their keys. */
  ghost predicate Agree<S>(key: Key, all: map<string, map<string, S>>, index: map<string, S>) {
    Filed(key, all, index) && Backed(key, all, index)
  }

  /** No held session but (id, n) has the key of (id, n). */
  ghost predicate Apart<S>(key: Key, all: map<string, map<string, S>>, id: string, n: string) {
    forall i, m :: Holds(all, i, m) && key(i, m) == key(id, n) ==> i == id && m == n
  }

  lemma SetFiled<S>(key: Key, all: map<string, map<string, S>>, index: map<string, S>, id: string, n: string, s: S)
    requires Filed(key, all, index) && id in all && Apart(key, all, id, n)
    ensures Filed(key, all[id := all[id][n := s]], index[key(id, n) := s])
  {
    var all' := all[id := all[id][n := s]];
    forall i, m | Holds(all', i, m)
      ensures key(i, m) in index[key(id, n) := s] && index[key(id, n) := s][key(i, m)] == all'[i][m]
    {
      assert (i == id && m == n) || Holds(all, i, m);
    }
  }

  lemma SetBacked<S>(key: Key, all: map<string, map<string, S>>, index: map<string, S>, id: string, n: string, s: S)
    requires Backed(key, all, index) && id in all
    ensures Backed(key, all[id := all[id][n := s]], index[key(id, n) := s])
  {
    var all' := all[id := all[id][n := s]];
    assert Holds(all', id, n);
    forall k | k in index && k != key(id, n) ensures exists i, m :: Holds(all', i, m) && key(i, m) == k {
      assert Look(k);
      var i, m :| Holds(all, i, m) && key(i, m) == k;
      assert Holds(all', i, m);
    }
  }

  lemma RemoveFiled<S>(key: Key, all: map<string, map<string, S>>, index: map<string, S>, id: string, n: string)
    requires Filed(key, all, index) && id in all && Apart(key, all, id, n)
    ensures Filed(key, all[id := all[id] - {n}], index - {key(id, n)})
  {
    var all' := all[id := all[id] - {n}];
    forall i, m | Holds(all', i, m)
      ensures key(i, m) in index - {key(id, n)} && (index - {key(id, n)})[key(i, m)] == all'[i][m]
    {
      assert Holds(all, i, m);
    }
  }

  lemma RemoveBacked<S>(key: Key, all: map<string, map<string, S>>, index: map<string, S>, id: string, n: string)
    requires Backed(key, all, index) && id in all
    ensures Backed(key, all[id := all[id] - {n}], index - {key(id, n)})
  {
    var all' := all[id := all[id] - {n}];
    forall k | k in index && k != key(id, n) ensures exists i, m :: Holds(all', i, m) && key(i, m) == k {
      assert Look(k);
      var i, m :| Holds(all, i, m) && key(i, m) == k;
      assert Holds(all', i, m);
    }
  }

  /** Filing a session and setting its key keep the agreement. */
  lemma SetAgrees<S>(key: Key, all: map<string, map<string, S>>, index: map<string, S>, id: string, n: string, s: S)
    requires Agree(key, all, index) && id in all && Apart(key, all, id, n)
    ensures Agree(key, all[id := all[id][n := s]], index[key(id, n) := s])
  {
    SetFiled(key, all, index, id, n, s);
    SetBacked(key, all, index, id, n, s);
  }

  /** Dropping a session and its key keep the agreement; so does dropping a key nobody holds. */
  lemma RemoveAgrees<S>(key: Key, all: map<string, map<string, S>>, index: map<string, S>, id: string, n: string)
    requires Agree(key, all, index) && id in all && Apart(key, all, id, n)
    ensures Agree(key, all[id := all[id] - {n}], index - {key(id, n)})
  {
    RemoveFiled(key, all, index, id, n);
    RemoveBacked(key, all, index, id, n);
  }

  ghost predicate SameHeld<S>(all: map<string, map<string, S>>, all': map<string, map<string, S>>) {
    && (forall id, n :: Holds(all, id, n) ==> Holds(all', id, n) && all'[id][n] == all[id][n])
    && (forall id, n :: Holds(all', id, n) ==> Holds(all, id, n))
  }

  /** Builders that come or go without sessions leave the index right. */
  lemma SameSessionsAgree<S>(key: Key, all: map<string, map<string, S>>, all': map<string, map<string, S>>, index: map<string, S>)
    requires Agree(key, all, index) && SameHeld(all, all')
    ensures Agree(key, all', index)
  {
    assert Filed(key, all', index) by {
      forall i, m | Holds(all', i, m) ensures key(i, m) in index && index[key(i, m)] == all'[i][m] {
        assert Holds(all, i, m);
      }
    }
    SameBacked(key, all, all', index);
  }

  lemma SameBacked<S>(key: Key, all: map<string, map<string, S>>, all': map<string, map<string, S>>, index: map<string, S>)
    requires Backed(key, all, index) && SameHeld(all, all')
    ensures Backed(key, all', index)
  {
    forall k | k in index ensures exists i, m :: Holds(all', i, m) && key(i, m) == k {
      assert Look(k);
      var i, m :| Holds(all, i, m) && key(i, m) == k;
      assert Holds(all', i, m);
    }
  }

  lemma Contained<S>(key: Key, all: map<string, map<string, S>>, a: map<string, S>, b: map<string, S>, k: string)
    requires Filed(key, all, b) && Filed(key, all, a) && Backed(key, all, a) && k in a
    ensures k in b && b[k] == a[k]
  {
    assert Look(k);
    var id, n :| Holds(all, id, n) && key(id, n) == k;
  }

  /** Two indexes that agree with the same builders are the same: the builders alone decide the index. */
  lemma AgreeUnique<S>(key: Key, all: map<string, map<string, S>>, a: map<string, S>, b: map<string, S>)
    requires Agree(key, all, a) && Agree(key, all, b)
    ensures a == b
  {
    forall k | k in a ensures k in b && b[k] == a[k] { Contained(key, all, a, b, k); }
    forall k | k in b ensures k in a { Contained(key, all, b, a, k); }
  }

  // ---- The two key modes

  /** Only builder `h` has sessions. */
  ghost predicate OneHolder<S>(all: map<string, map<string, S>>, h: string) {
    forall id, n :: Holds(all, id, n) ==> id == h
  }

  ghost predicate Named<S>(all: map<string, map<string, S>>) {
    forall id {:trigger Look(id)} :: Look(id) && id in all ==> ValidId(id) && "" !in all[id]
  }

  /** What keeps keys apart: fleet keys by themselves, names when one builder holds them all. */
  ghost predicate Distinct<S>(mode: KeyMode, all: map<string, map<string, S>>, h: string) {
    Named(all) && (mode == ByName ==> OneHolder(all, h))
  }

  lemma KeysApart<S>(mode: KeyMode, all: map<string, map<string, S>>, h: string, id: string, n: string)
    requires Distinct(mode, all, h) && ValidId(id) && n != "" && (mode == ByName ==> id == h)
    ensures Apart(KeyFn(mode), all, id, n)
  {
    var key := KeyFn(mode);
    forall i, m | Holds(all, i, m) && key(i, m) == key(id, n) ensures i == id && m == n {
      assert Look(i);
      if mode == ByFkey { FkeyInjective(i, m, id, n); }
    }
  }

  lemma HolderOfKey<S>(all: map<string, map<string, S>>, index: map<string, S>, k: string)
    requires Named(all) && Backed(KeyFn(ByFkey), all, index) && k in index
    ensures IsFkey(k) && var p := ParseFkey(k).value; Holds(all, p.builder, p.name)
  {
    assert Look(k);
    var id, n :| Holds(all, id, n) && KeyFn(ByFkey)(id, n) == k;
    assert Look(id);
    ParseOfFkey(id, n);
  }

  /** In key mode `fkey` a key is in the index exactly when the builder it names holds the session it names. */
  lemma IndexByFkey<S>(all: map<string, map<string, S>>, index: map<string, S>, k: string)
    requires Named(all) && Agree(KeyFn(ByFkey), all, index)
    ensures k in index <==> (IsFkey(k) && var p := ParseFkey(k).value; Holds(all, p.builder, p.name))
    ensures k in index ==> index[k] == all[ParseFkey(k).value.builder][ParseFkey(k).value.name]
  {
    if k in index { HolderOfKey(all, index, k); }
    if IsFkey(k) {
      FkeyOfParse(k);
      var p := ParseFkey(k).value;
      assert KeyFn(ByFkey)(p.builder, p.name) == k;
    }
  }

  /** Every name has one session, whichever builders hold it. */
  ghost predicate OneSessionPerName<S>(all: map<string, map<string, S>>) {
    forall id, id', n :: Holds(all, id, n) && Holds(all, id', n) ==> all[id][n] == all[id'][n]
  }

  /** The index by name holds some builder's session for every name held: what `reindex` leaves in key mode `name`. */
  ghost predicate SomeSessionPerName<S>(all: map<string, map<string, S>>, index: map<string, S>) {
    && (forall id, n :: Holds(all, id, n) ==> n in index)
    && (forall k {:trigger Look(k)} :: Look(k) && k in index ==> exists id :: Holds(all, id, k) && all[id][k] == index[k])
  }

  lemma SetName<S>(all: map<string, map<string, S>>, index: map<string, S>, id: string, n: string, s: S)
    requires SomeSessionPerName(all, index) && id in all
    ensures SomeSessionPerName(all[id := all[id][n := s]], index[n := s])
  {
    var all' := all[id := all[id][n := s]];
    assert Holds(all', id, n);
    forall i, m | Holds(all', i, m) ensures m in index[n := s] { assert (i == id && m == n) || Holds(all, i, m); }
    forall k | k in index && k != n ensures exists i :: Holds(all', i, k) && all'[i][k] == index[k] {
      assert Look(k);
      var i :| Holds(all, i, k) && all[i][k] == index[k];
      assert Holds(all', i, k);
    }
  }

  lemma NamesFiled<S>(all: map<string, map<string, S>>, index: map<string, S>)
    requires SomeSessionPerName(all, index) && OneSessionPerName(all)
    ensures Filed(KeyFn(ByName), all, index)
  {
    forall id, n | Holds(all, id, n) ensures n in index && index[n] == all[id][n] {
      assert Look(n);
      var i :| Holds(all, i, n) && all[i][n] == index[n];
    }
  }

  lemma NamesBacked<S>(all: map<string, map<string, S>>, index: map<string, S>)
    requires SomeSessionPerName(all, index)
    ensures Backed(KeyFn(ByName), all, index)
  {
    forall k | k in index ensures exists id, n :: Holds(all, id, n) && KeyFn(ByName)(id, n) == k {
      assert Look(k);
      var i :| Holds(all, i, k) && all[i][k] == index[k];
      assert Holds(all, i, k) && KeyFn(ByName)(i, k) == k;
    }
  }

  lemma NamesAgree<S>(all: map<string, map<string, S>>, index: map<string, S>)
    requires Filed(KeyFn(ByName), all, index)
    ensures OneSessionPerName(all)
  {
    forall id, id', n | Holds(all, id, n) && Holds(all, id', n) ensures all[id][n] == all[id'][n] {
      assert KeyFn(ByName)(id, n) == n && KeyFn(ByName)(id', n) == n;
    }
  }

  /** Such an index agrees with the builders when no name has two different sessions ... */
  lemma NameModeAgrees<S>(all: map<string, map<string, S>>, index: map<string, S>)
    requires SomeSessionPerName(all, index) && OneSessionPerName(all)
    ensures Agree(KeyFn(ByName), all, index)
  {
    NamesFiled(all, index);
    NamesBacked(all, index);
  }

  /** ... and only then: with two sessions of one name no index by name agrees. */
  lemma NameModeOnlyThen<S>(all: map<string, map<string, S>>, index: map<string, S>)
    requires !OneSessionPerName(all)
    ensures !Agree(KeyFn(ByName), all, index)
  {
    if Filed(KeyFn(ByName), all, index) { NamesAgree(all, index); }
  }
}
