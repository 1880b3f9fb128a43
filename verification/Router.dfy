/** The router's parser and printer, step by step (public/js/core/router.js: `parseQuery`, `resolveHash`, `formatHash`). */
module Router {
  import opened Options
  import opened Percent
  import opened RouteSpec
  import opened RouteLaws

  /** The decoded value of every key of the query, and no more. */
  ghost predicate Says(out: map<Str, Str>, qs: Str) {
    forall k :: (k in out <==> Query(qs, k).Some?) && (k in out ==> Query(qs, k) == Some(out[k]))
  }

  /** The first of a repeated key wins. */
  method ParseQuery(qs: Str) returns (out: map<Str, Str>)
    ensures Says(out, qs)
  {
    hide Get, SafeDecode;
    out := map[];
    var parts := Split(qs, AND);
    assert parts[0..] == parts && parts[..0] == [];
    forall k ensures Get(parts[..0], k) == None { NoParts(k); }
    for i := 0 to |parts|
      invariant forall k :: (k in out <==> Get(parts[..i], k).Some?) && (k in out ==> Get(parts[..i], k) == Some(out[k]))
    {
      var part := parts[i];
      forall k
        ensures Get(parts[..i + 1], k) == if Get(parts[..i], k).Some? then Get(parts[..i], k) else GetOf(part, k)
      {
        assert parts[..i + 1] == parts[..i] + [part];
        GetAppend(parts[..i], [part], k);
        GetOne(part, k);
      }
      if part != [] {
        var at := IndexOf(part, EQUALS);
        var k := part[..at];
        if k !in out {
          var v := SafeDecode(if at == |part| then [] else part[at + 1..]);
          if v.Some? { out := out[k := v.value]; }
        }
      }
    }
    assert parts[..|parts|] == parts;
  }

  lemma NoParts(k: Str)
    ensures Get([], k) == None
  {
  }

  function GetOf(part: Str, k: Str): Option<Str> {
    if part != [] && KeyPart(part) == k then SafeDecode(ValuePart(part)) else None
  }

  lemma GetOne(part: Str, k: Str)
    ensures Get([part], k) == GetOf(part, k)
  {
    assert [part][1..] == [];
  }

  method Lookup(p: map<Str, Str>, k: Str, ghost qs: Str) returns (v: Option<Str>)
    requires Says(p, qs)
    ensures v == Query(qs, k)
  {
    hide Query;
    if k in p { return Some(p[k]); }
    return None;
  }

  /** The parameters of the query that fit, on a view. */
  method TakeQuery(view: Str, qs: Str) returns (r: Route)
    ensures r == QueryRoute(view, qs)
  {
    hide Query, Says, FitB, FitS, FitQ, FitSel, FitOpen, FitRun, L;
    var p := ParseQuery(qs);
    r := EmptyRoute(view);
    var b := Lookup(p, L("b"), qs);
    r := r.(b := FitB(b));
    var s := Lookup(p, L("s"), qs);
    r := r.(s := FitS(s));
    var q := Lookup(p, L("q"), qs);
    r := r.(q := FitQ(q));
    var sel := Lookup(p, L("sel"), qs);
    r := r.(sel := FitSel(sel));
    var open := Lookup(p, L("open"), qs);
    r := r.(open := FitOpen(open));
    var run := Lookup(p, L("run"), qs);
    r := r.(run := FitRun(run));
  }

  method ResolveHash(h: Str, localId: Str) returns (r: Route, missed: bool)
    ensures (r, missed) == Resolve(h, localId)
  {
    hide QueryRoute, Legacy, Routable, IsLegacy, IsRunPath, SafeDecode, RunId, TrimLeft, TrimRight, L;
    var raw := if h != [] && h[0] == 35 then h[1..] else h;
    if IsLegacy(raw) { return LegacyOf(raw, localId), false; }
    if raw == [] || raw[0] != SLASH {
      if raw == [] { return EmptyRoute(DefaultView()), false; }
      if Routable(raw) { return EmptyRoute(raw), false; }
      return EmptyRoute(DefaultView()), true;
    }
    var qAt := IndexOf(raw, QUERY);
    var path := TrimRight(TrimLeft(raw[..qAt]));
    var qs := if qAt == |raw| then [] else raw[qAt + 1..];
    if IsRunPath(path) {
      r := TakeQuery(L("runs"), qs);
      RunPathLong(path);
      var id := SafeDecode(path[5..]);
      if id.Some? && RunId(id.value) { return r.(run := id), false; }
      return r, true;
    }
    if Routable(path) {
      r := TakeQuery(path, qs);
      return r, false;
    }
    r := TakeQuery(DefaultView(), qs);
    missed := path != [];
  }

  function LegacyOf(raw: Str, localId: Str): Route
    requires IsLegacy(raw)
  {
    Legacy(raw[8..], localId)
  }

  lemma RunPathLong(path: Str)
    requires IsRunPath(path)
    ensures |path| >= 5
  {
  }

  /** The parts of a route's query, one key after the other. */
  method FormatHash(r: Route) returns (h: Option<Str>)
    ensures h == RouteSpec.FormatHash(r)
  {
    hide Part, Routable, L, Join, Encode;
    var fields := Fields(r);
    var parts: seq<Str> := [];
    assert fields[..0] == [];
    for i := 0 to |fields|
      invariant Parts(fields[..i]) == Some(parts)
    {
      assert fields[..i + 1][..i] == fields[..i];
      var p := Part(fields[i].0, fields[i].1);
      if p == None {
        PartsIff(fields);
        return None;
      }
      parts := parts + p.value;
    }
    assert fields[..|fields|] == fields;
    var view := if Routable(r.view) then r.view else DefaultView();
    var path := if view == DefaultView() then [] else view;
    return Some([35, SLASH] + path + (if parts == [] then [] else [QUERY] + Join(parts, AND)));
  }
}
