/** What a hash says, part by part (public/js/core/router.js: `resolveHash`, `parseQuery`, `formatHash`). */
module RouteContent {
  import opened Options
  import opened Percent
  import opened RouteSpec
  import opened RouteLaws

  // ---- The query

  /** The part is `k`, or `k=` and an encoded value; this is the value, every plus a space. */
  ghost predicate Gives(part: Str, k: Str, v: Str) {
    part != [] && Free(k, EQUALS) && ((part == k && v == []) || (exists e :: part == k + [EQUALS] + e && Decode(Spaces(e)) == Some(v)))
  }

  ghost predicate FirstGives(parts: seq<Str>, k: Str, v: Str, i: nat) {
    i < |parts| && Gives(parts[i], k, v) && forall j, w :: 0 <= j < i ==> !Gives(parts[j], k, w)
  }

  lemma GivesIs(part: Str, k: Str, v: Str)
    ensures Gives(part, k, v) <==> part != [] && KeyPart(part) == k && SafeDecode(ValuePart(part)) == Some(v)
  {
    hide Decode;
    DecodesNothing();
    var i := IndexOf(part, EQUALS);
    if i < |part| { assert part == part[..i] + [EQUALS] + part[i + 1..]; } else { assert part[..i] == part; }
    if Gives(part, k, v) {
      if part == k && v == [] {
        IndexAfter(k, EQUALS, []);
        assert part[..i] == part;
      } else {
        var e :| part == k + [EQUALS] + e && Decode(Spaces(e)) == Some(v);
        IndexAfter(k, EQUALS, e);
        assert part[..i] == k && part[i + 1..] == e;
      }
    }
  }

  lemma DecodesNothing()
    ensures SafeDecode([]) == Some([]) && Decode([]) == Some([])
  {
  }

  /** A key's value is that of the first part that gives it one: of a repeated key, the first that decodes. */
  lemma {:induction false} GetLaw(parts: seq<Str>, k: Str, v: Str)
    ensures Get(parts, k) == Some(v) <==> exists i: nat :: FirstGives(parts, k, v, i)
    decreases |parts|
  {
    hide SafeDecode, KeyPart, ValuePart, Gives;
    if parts != [] {
      var rest := parts[1..];
      GetLaw(rest, k, v);
      forall w ensures Gives(parts[0], k, w) <==> parts[0] != [] && KeyPart(parts[0]) == k && SafeDecode(ValuePart(parts[0])) == Some(w) {
        GivesIs(parts[0], k, w);
      }
      if Get(parts, k) == Some(v) {
        if Gives(parts[0], k, v) {
          assert FirstGives(parts, k, v, 0);
        } else {
          var i: nat :| FirstGives(rest, k, v, i);
          assert parts[i + 1] == rest[i];
          forall j, w | 0 <= j < i + 1 ensures !Gives(parts[j], k, w) { assert j > 0 ==> parts[j] == rest[j - 1]; }
          assert FirstGives(parts, k, v, i + 1);
        }
      }
      if exists i: nat :: FirstGives(parts, k, v, i) {
        var i: nat :| FirstGives(parts, k, v, i);
        if i > 0 {
          assert rest[i - 1] == parts[i];
          forall j, w | 0 <= j < i - 1 ensures !Gives(rest[j], k, w) { assert rest[j] == parts[j + 1]; }
          assert FirstGives(rest, k, v, i - 1);
        }
      }
    }
  }

  /** The parameters of a query: each one's value when it fits, and nothing else. */
  ghost predicate Takes(r: Route, qs: Str) {
    && (forall v :: r.b == Some(v) <==> Query(qs, L("b")) == Some(v) && (v == L("all") || BuilderId(v)))
    && (forall v :: r.s == Some(v) <==> Query(qs, L("s")) == Some(v) && States(v))
    && (forall v :: r.sel == Some(v) <==> Query(qs, L("sel")) == Some(v) && Selectable(v))
    && (forall v :: r.open == Some(v) <==> Query(qs, L("open")) == Some(v) && OpenKind(v))
    && (r.q.Some? <==> Query(qs, L("q")).Some? && Query(qs, L("q")).value != [] && NoControl(Query(qs, L("q")).value))
    && (r.q.Some? ==> var w := Query(qs, L("q")).value; r.q.value == if |w| <= 200 then w else w[..200])
  }

  ghost predicate RunGiven(qs: Str, run: Option<Str>) {
    forall v :: run == Some(v) <==> Query(qs, L("run")) == Some(v) && RunId(v)
  }

  lemma QueryTakes(view: Str, qs: Str)
    ensures var r := QueryRoute(view, qs); r.view == view && Takes(r, qs) && RunGiven(qs, r.run)
  {
    hide Query, BuilderId, States, Selectable, OpenKind, RunId, NoControl, L;
  }

  // ---- The path

  /** `raw` is the hash without its #. */
  predicate IsRaw(h: Str, raw: Str) { h == [35] + raw || (h == raw && (raw == [] || raw[0] != 35)) }

  lemma RawIs(h: Str, raw: Str)
    requires IsRaw(h, raw)
    ensures raw == if h != [] && h[0] == 35 then h[1..] else h
  {
  }

  predicate Slashes(s: Str) { forall i :: 0 <= i < |s| ==> s[i] == SLASH }

  lemma {:induction false} TrimBoth(a: Str, path: Str, z: Str)
    requires Slashes(a) && Slashes(z) && (path == [] ==> z == []) && (path != [] ==> path[0] != SLASH && path[|path| - 1] != SLASH)
    ensures TrimRight(TrimLeft(a + path + z)) == path
    decreases |a| + |z|
  {
    var s := a + path + z;
    if a != [] {
      assert s[1..] == a[1..] + path + z;
      TrimBoth(a[1..], path, z);
    } else if z != [] {
      var t := path + z;
      assert s == t && TrimLeft(s) == s;
      assert t[..|t| - 1] == path + z[..|z| - 1] && a + path + z[..|z| - 1] == path + z[..|z| - 1];
      TrimBoth(a, path, z[..|z| - 1]);
      assert TrimLeft(path + z[..|z| - 1]) == path + z[..|z| - 1];
    } else {
      assert s == path;
    }
  }

  /** `/`, the path among slashes, and the query behind the first `?`, if there is one. */
  ghost predicate IsPath(raw: Str, path: Str, qs: Str) {
    exists a, z :: SplitBy(raw, a, path, z, qs)
  }

  ghost predicate SplitBy(raw: Str, a: Str, path: Str, z: Str, qs: Str) {
    && a != [] && Slashes(a) && Slashes(z) && Free(path, QUERY)
    && (path == [] ==> z == []) && (path != [] ==> path[0] != SLASH && path[|path| - 1] != SLASH)
    && (raw == a + path + z + [QUERY] + qs || (raw == a + path + z && qs == []))
  }

  lemma SplitIs(raw: Str, path: Str, qs: Str)
    requires IsPath(raw, path, qs)
    ensures raw != [] && raw[0] == SLASH
    ensures var at := IndexOf(raw, QUERY); TrimRight(TrimLeft(raw[..at])) == path && qs == if at == |raw| then [] else raw[at + 1..]
  {
    hide TrimLeft, TrimRight, Slashes, Free;
    var a, z :| SplitBy(raw, a, path, z, qs);
    SlashesFree(a);
    SlashesFree(z);
    FreeConcat(a, path);
    FreeConcat(a + path, z);
    TrimBoth(a, path, z);
    CutAtQuery(raw, a + path + z, qs);
    assert a[0] == SLASH by { FirstSlash(a); }
    assert raw[0] == a[0];
  }

  lemma SlashesFree(s: Str)
    requires Slashes(s)
    ensures Free(s, QUERY)
  {
  }

  lemma FirstSlash(s: Str)
    requires Slashes(s) && s != []
    ensures s[0] == SLASH
  {
  }

  lemma FreeConcat(a: Str, b: Str)
    requires Free(a, QUERY) && Free(b, QUERY)
    ensures Free(a + b, QUERY)
  {
  }

  lemma CutAtQuery(raw: Str, front: Str, qs: Str)
    requires Free(front, QUERY) && (raw == front + [QUERY] + qs || (raw == front && qs == []))
    ensures var at := IndexOf(raw, QUERY); raw[..at] == front && qs == if at == |raw| then [] else raw[at + 1..]
  {
    IndexAfter(front, QUERY, qs);
    assert (front + [QUERY] + qs)[|front| + 1..] == qs;
  }

  /**
    A path and a query: the view it names, home for any other; the parameters that fit; a run's id from the
    path before any `run=`. It missed when the path is no view and not empty, or what stands for a run is no id.
  */
  lemma PathLaw(h: Str, raw: Str, path: Str, qs: Str, localId: Str)
    requires IsRaw(h, raw) && IsPath(raw, path, qs)
    ensures var (r, missed) := Resolve(h, localId);
            && Takes(r, qs)
            && (if IsRunPath(path) then
                  var id := Decode(Spaces(path[5..]));
                  && r.view == L("runs") && (missed <==> !(id.Some? && RunId(id.value)))
                  && (if missed then RunGiven(qs, r.run) else r.run == id)
                else
                  && r.view == (if Routable(path) then path else L("map"))
                  && (missed <==> path != [] && !Routable(path)) && RunGiven(qs, r.run))
  {
    hide Query, Takes, RunGiven, Routable, IsRunPath, RunId, TrimLeft, TrimRight, Decode, L, QueryRoute, IsPath, Legacy, IsLegacy;
    RawIs(h, raw);
    SplitIs(raw, path, qs);
    NotLegacy(raw);
    MapLetters();
    var view := if IsRunPath(path) then L("runs") else if Routable(path) then path else L("map");
    QueryTakes(view, qs);
    RunLeaves(QueryRoute(view, qs), qs);
    if IsRunPath(path) { RunPathIsLong(path); }
  }

  lemma RunPathIsLong(path: Str)
    requires IsRunPath(path)
    ensures |path| >= 5
  {
  }

  lemma RunLeaves(r: Route, qs: Str)
    requires Takes(r, qs)
    ensures forall id :: Takes(r.(run := id), qs)
  {
    hide Query, BuilderId, States, Selectable, OpenKind, NoControl, L;
  }

  /** Any other hash: a view's bare name is that view, nothing is home, and anything else is home and missed. */
  lemma BareLaw(h: Str, raw: Str, localId: Str)
    requires IsRaw(h, raw) && (raw == [] || raw[0] != SLASH) && !IsLegacy(raw)
    ensures Resolve(h, localId) == (Route(if Routable(raw) then raw else L("map"), None, None, None, None, None, None), raw != [] && !Routable(raw))
  {
    hide Routable, IsLegacy, Legacy, QueryRoute, L;
    MapLetters();
    RawIs(h, raw);
  }

  /** `#session=<name>` opens the local builder's session on the board when the name is one a key can carry; it never misses. */
  lemma SessionLaw(h: Str, rest: Str, localId: Str)
    requires IsRaw(h, L("session=") + rest) && OneLine(rest)
    ensures var (r, missed) := Resolve(h, localId);
            var name := Decode(Spaces(rest));
            var opens := name.Some? && name.value != [] && NoControl(name.value) && Free(name.value, SLASH) && BuilderId(localId);
            && !missed && r.view == L("board") && r.b == r.s == r.q == r.run == None
            && r.sel == (if opens then Some(localId + [SLASH] + name.value) else None)
            && r.open == (if opens then Some(L("term")) else None)
  {
    hide Decode, NoControl, BuilderId, QueryRoute;
    var raw := L("session=") + rest;
    RawIs(h, raw);
    assert raw[..8] == L("session=") && raw[8..] == rest;
  }

  // ---- Formatting

  /** A parameter as it is written: not at all without a value, else its key and its encoded value. */
  function Written(k: Str, v: Option<Str>): seq<Str>
    requires v.Some? ==> Encode(v.value).Some?
  {
    if v == None || v.value == [] then [] else [k + [EQUALS] + Encode(v.value).value]
  }

  /** Every value can be encoded. */
  predicate Encodable(r: Route) {
    && (r.b.Some? ==> Encode(r.b.value).Some?) && (r.s.Some? ==> Encode(r.s.value).Some?)
    && (r.q.Some? ==> Encode(r.q.value).Some?) && (r.sel.Some? ==> Encode(r.sel.value).Some?)
    && (r.open.Some? ==> Encode(r.open.value).Some?) && (r.run.Some? ==> Encode(r.run.value).Some?)
  }

  /** The parameters in their order: b, s, q, sel, open, run; every builder is not written. */
  function AllWritten(r: Route): seq<Str>
    requires Encodable(r)
  {
    Written([98], if r.b == Some(L("all")) then None else r.b) + Written([115], r.s) + Written([113], r.q)
    + Written([115, 101, 108], r.sel) + Written([111, 112, 101, 110], r.open) + Written([114, 117, 110], r.run)
  }

  /** The hash: `#/`, the view unless it is home or none, and behind a `?` the parameters with `&` between them. */
  lemma FormatLaw(r: Route)
    requires Encodable(r)
    ensures var ps := AllWritten(r);
            FormatHash(r) == Some([35, SLASH] + (if Routable(r.view) && r.view != L("map") then r.view else [])
                                  + (if ps == [] then [] else [QUERY] + Join(ps, AND)))
  {
    hide Encode, Routable, Join, Part;
    Letters();
    var f := Fields(r);
    PartIs([98], r.b);
    PartIs([115], r.s);
    PartIs([113], r.q);
    PartIs([115, 101, 108], r.sel);
    PartIs([111, 112, 101, 110], r.open);
    PartIs([114, 117, 110], r.run);
    SixParts(f);
  }

  lemma PartIs(k: Str, v: Option<Str>)
    requires v.Some? ==> Encode(v.value).Some?
    ensures Part(k, v) == Some(Written(k, if k == [98] && v == Some(L("all")) then None else v))
  {
    hide Encode;
    Letters();
  }

  lemma SixParts(f: seq<(Str, Option<Str>)>)
    requires |f| == 6 && forall i :: 0 <= i < 6 ==> Part(f[i].0, f[i].1).Some?
    ensures Parts(f) == Some(Part(f[0].0, f[0].1).value + Part(f[1].0, f[1].1).value + Part(f[2].0, f[2].1).value
                             + Part(f[3].0, f[3].1).value + Part(f[4].0, f[4].1).value + Part(f[5].0, f[5].1).value)
  {
    hide Part;
    assert f[..0] == [] && f[..6] == f;
    PartsMore(f, 0);
    assert [] + Part(f[0].0, f[0].1).value == Part(f[0].0, f[0].1).value;
    PartsMore(f, 1);
    PartsMore(f, 2);
    PartsMore(f, 3);
    PartsMore(f, 4);
    PartsMore(f, 5);
  }

  lemma PartsMore(f: seq<(Str, Option<Str>)>, n: nat)
    requires n < |f| && Part(f[n].0, f[n].1).Some? && Parts(f[..n]).Some?
    ensures Parts(f[..n + 1]) == Some(Parts(f[..n]).value + Part(f[n].0, f[n].1).value)
  {
    hide Part;
    assert f[..n + 1][..n] == f[..n];
  }

  // ---- Encoding

  /** A letter, a digit and - _ . ! ~ * ' ( ) stand for themselves; any other ASCII character is a % and its two digits in upper case. */
  lemma EncodeLaw(c: Unit, rest: Str)
    requires c < 128 && Encode(rest).Some?
    ensures var e := Encode([c] + rest);
            && e.Some?
            && (Unreserved(c) ==> e.value == [c] + Encode(rest).value)
            && (!Unreserved(c) ==> |e.value| == 3 + |Encode(rest).value| && e.value[0] == 37 && e.value[3..] == Encode(rest).value
                                   && HexDigitOf(e.value[1]) * 16 + HexDigitOf(e.value[2]) == c)
  {
    assert ([c] + rest)[1..] == rest;
    if !Unreserved(c) {
      assert EncodePoint(c) == Hex(c) + HexAll([]) by { assert Utf8(c) == [c] && Utf8(c)[1..] == []; }
    }
  }

  /** The value of a digit 0-9 or A-F. */
  function HexDigitOf(c: Unit): int { if 48 <= c <= 57 then c - 48 else if 65 <= c <= 70 then c - 55 else -1000 }

  // ---- Values

  predicate Name(v: Str, max: nat, more: seq<Unit>) { 1 <= |v| <= max && forall i :: 0 <= i < |v| ==> Lower(v[i]) || Digit(v[i]) || v[i] in more }

  /** A builder's id, up to 16 state words between commas, a run's id, a kind of panel. */
  lemma ValuesLaw(v: Str)
    ensures BuilderId(v) <==> Name(v, 24, [45])
    ensures States(v) <==> |Split(v, COMMA)| <= 16 && forall i :: 0 <= i < |Split(v, COMMA)| ==> Name(Split(v, COMMA)[i], 24, [45, 95])
    ensures RunId(v) <==> 1 <= |v| <= 64 && (Digit(v[0]) || Upper(v[0]) || Lower(v[0]))
                          && forall i :: 0 <= i < |v| ==> Digit(v[i]) || Upper(v[i]) || Lower(v[i]) || v[i] in [46, 95, 45]
    ensures OpenKind(v) <==> v == L("term") || v == L("transcript")
  {
    hide L, Split;
  }

  /** A key of the fleet: a builder's id, a slash, and a name. */
  ghost predicate FleetKey(v: Str) { exists id, name :: Names(v, id, name) }

  predicate Names(v: Str, id: Str, name: Str) { name != [] && BuilderId(id) && v == id + [47] + name }

  /** What can be selected: up to 300 characters without a control character, a fleet key, a run, or another node of the map. */
  lemma SelectableLaw(v: Str)
    ensures Selectable(v) <==> |v| <= 300 && NoControl(v)
                               && (FleetKey(v) || (L("run:") <= v && RunId(v[4..])) || (L("node:") <= v && |v| > 5))
  {
    hide RunId, NoControl;
    assert |L("run:")| == 4 && |L("node:")| == 5;
    FleetKeyIs(v);
    hide Fkey, FleetKey, L;
  }

  lemma FleetKeyIs(v: Str)
    ensures Fkey(v) <==> FleetKey(v)
  {
    var i := IndexOf(v, SLASH);
    if Fkey(v) { assert Names(v, v[..i], v[i + 1..]); }
    if FleetKey(v) {
      var id, name :| Names(v, id, name);
      IndexAfter(id, SLASH, name);
      assert v[..i] == id;
    }
  }

  /** The ten views. */
  lemma ViewsLaw(v: Str)
    ensures Routable(v) <==> v in [L("map"), L("board"), L("inbox"), L("packages"), L("morning"), L("credit"), L("box"), L("audit"), L("runs"), L("diff")]
  {
    hide L;
  }
}
