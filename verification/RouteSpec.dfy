/** The hash grammar of the router (public/js/core/router.js: `resolveHash`, `parseQuery`, `formatHash`). */
module RouteSpec {
  import opened Options
  import opened Percent

  const MAX_Q := 200
  const MAX_SEL := 300

  const SLASH: Unit := 47
  const QUERY: Unit := 63
  const AND: Unit := 38
  const EQUALS: Unit := 61
  const PLUS: Unit := 43
  const COMMA: Unit := 44

  function DefaultView(): Str { L("map") }

  predicate Routable(v: Str) {
    || v == L("map") || v == L("board") || v == L("inbox") || v == L("packages") || v == L("morning")
    || v == L("credit") || v == L("box") || v == L("audit") || v == L("runs") || v == L("diff")
  }

  datatype Route = Route(view: Str, b: Option<Str>, s: Option<Str>, q: Option<Str>, sel: Option<Str>, open: Option<Str>, run: Option<Str>)

  function EmptyRoute(view: Str): Route { Route(view, None, None, None, None, None, None) }

  // ---- Values

  predicate Control(c: Unit) { c < 32 || c == 127 }

  predicate NoControl(v: Str) { forall i :: 0 <= i < |v| ==> !Control(v[i]) }

  predicate IdUnit(c: Unit) { Lower(c) || Digit(c) || c == 45 }

  predicate BuilderId(v: Str) { 1 <= |v| <= 24 && forall i :: 0 <= i < |v| ==> IdUnit(v[i]) }

  function IndexOf(s: Str, c: Unit): (i: nat)
    ensures i <= |s| && forall j :: 0 <= j < i ==> s[j] != c
    ensures i < |s| ==> s[i] == c
  {
    if s == [] || s[0] == c then 0 else 1 + IndexOf(s[1..], c)
  }

  /** The parts between separators, as `split` gives them. */
  function Split(s: Str, c: Unit): (r: seq<Str>)
    ensures |r| >= 1
    decreases |s|
  {
    var i := IndexOf(s, c);
    if i == |s| then [s] else [s[..i]] + Split(s[i + 1..], c)
  }

  predicate Word(v: Str) { 1 <= |v| <= 24 && forall i :: 0 <= i < |v| ==> IdUnit(v[i]) || v[i] == 95 }

  predicate States(v: Str) {
    var parts := Split(v, COMMA);
    |parts| <= 16 && forall i :: 0 <= i < |parts| ==> Word(parts[i])
  }

  predicate RunId(v: Str) {
    && 1 <= |v| <= 64 && (Digit(v[0]) || Upper(v[0]) || Lower(v[0]))
    && forall i :: 0 <= i < |v| ==> Digit(v[i]) || Upper(v[i]) || Lower(v[i]) || v[i] == 46 || v[i] == 95 || v[i] == 45
  }

  predicate Fkey(v: Str) {
    var i := IndexOf(v, SLASH);
    1 <= i < |v| - 1 && BuilderId(v[..i])
  }

  predicate Starts(v: Str, p: Str) { |p| <= |v| && v[..|p|] == p }

  predicate RunSel(v: Str) { Starts(v, L("run:")) && RunId(v[4..]) }

  predicate NodeSel(v: Str) { Starts(v, L("node:")) && 5 < |v| <= MAX_SEL && NoControl(v) }

  predicate Selectable(v: Str) { |v| <= MAX_SEL && NoControl(v) && (Fkey(v) || RunSel(v) || NodeSel(v)) }

  predicate OpenKind(v: Str) { v == L("term") || v == L("transcript") }

  // ---- Parsing

  function Spaces(v: Str): (r: Str)
    ensures |r| == |v| && forall i :: 0 <= i < |v| ==> r[i] == if v[i] == PLUS then 32 else v[i]
  {
    seq(|v|, i requires 0 <= i < |v| => if v[i] == PLUS then 32 else v[i])
  }

  function SafeDecode(v: Str): Option<Str> { Decode(Spaces(v)) }

  function KeyPart(part: Str): Str { part[..IndexOf(part, EQUALS)] }

  function ValuePart(part: Str): Str { var i := IndexOf(part, EQUALS); if i == |part| then [] else part[i + 1..] }

  /** The first part with this key whose value decodes. */
  function Get(parts: seq<Str>, k: Str): Option<Str> {
    if parts == [] then None
    else if parts[0] != [] && KeyPart(parts[0]) == k && SafeDecode(ValuePart(parts[0])).Some? then SafeDecode(ValuePart(parts[0]))
    else Get(parts[1..], k)
  }

  // Each parameter's value, when it fits.
  function FitB(v: Option<Str>): Option<Str> { if v.Some? && (v.value == L("all") || BuilderId(v.value)) then v else None }
  function FitS(v: Option<Str>): Option<Str> { if v.Some? && States(v.value) then v else None }
  function FitQ(v: Option<Str>): Option<Str> { if v.Some? && v.value != [] && NoControl(v.value) then Some(Take(v.value, MAX_Q)) else None }
  function FitSel(v: Option<Str>): Option<Str> { if v.Some? && Selectable(v.value) then v else None }
  function FitOpen(v: Option<Str>): Option<Str> { if v.Some? && OpenKind(v.value) then v else None }
  function FitRun(v: Option<Str>): Option<Str> { if v.Some? && RunId(v.value) then v else None }

  function Query(qs: Str, k: Str): Option<Str> { Get(Split(qs, AND), k) }

  function Take(v: Str, n: nat): Str { if |v| > n then v[..n] else v }

  function QueryRoute(view: Str, qs: Str): Route {
    Route(view, FitB(Query(qs, L("b"))), FitS(Query(qs, L("s"))), FitQ(Query(qs, L("q"))),
          FitSel(Query(qs, L("sel"))), FitOpen(Query(qs, L("open"))), FitRun(Query(qs, L("run"))))
  }

  /** What `.` does not match. */
  predicate LineEnd(c: Unit) { c == 10 || c == 13 || c == 0x2028 || c == 0x2029 }

  predicate OneLine(v: Str) { v != [] && forall i :: 0 <= i < |v| ==> !LineEnd(v[i]) }

  function TrimLeft(s: Str): Str { if s != [] && s[0] == SLASH then TrimLeft(s[1..]) else s }

  function TrimRight(s: Str): Str { if s != [] && s[|s| - 1] == SLASH then TrimRight(s[..|s| - 1]) else s }

  predicate Has(v: Str, c: Unit) { exists i :: 0 <= i < |v| && v[i] == c }

  /** `#session=<name>`: the local builder's session, opened; nothing when it names none. */
  function Legacy(rest: Str, localId: Str): Route {
    var name := SafeDecode(rest);
    var r := EmptyRoute(L("board"));
    if name.Some? && name.value != [] && NoControl(name.value) && !Has(name.value, SLASH) && BuilderId(localId)
    then r.(sel := Some(localId + [SLASH] + name.value), open := Some(L("term")))
    else r
  }

  predicate IsLegacy(raw: Str) { Starts(raw, L("session=")) && OneLine(raw[8..]) }

  /** A run's page by its path, `runs/<id>`. */
  predicate IsRunPath(path: Str) { Starts(path, L("runs/")) && OneLine(path[5..]) }

  /** The route, and whether the hash missed: an unknown view or a path that is no run id. */
  function Resolve(h: Str, localId: Str): (Route, bool) {
    var raw := if h != [] && h[0] == 35 then h[1..] else h;
    if IsLegacy(raw) then (Legacy(raw[8..], localId), false)
    else if raw == [] || raw[0] != SLASH then
      if raw == [] then (EmptyRoute(DefaultView()), false)
      else if Routable(raw) then (EmptyRoute(raw), false)
      else (EmptyRoute(DefaultView()), true)
    else
      var qAt := IndexOf(raw, QUERY);
      var path := TrimRight(TrimLeft(raw[..qAt]));
      var qs := if qAt == |raw| then [] else raw[qAt + 1..];
      if IsRunPath(path) then
        var r := QueryRoute(L("runs"), qs);
        var id := SafeDecode(path[5..]);
        if id.Some? && RunId(id.value) then (r.(run := id), false) else (r, true)
      else if Routable(path) then (QueryRoute(path, qs), false)
      else (QueryRoute(DefaultView(), qs), path != [])
  }

  function ParseHash(h: Str, localId: Str): Route { Resolve(h, localId).0 }

  // ---- Formatting

  /** One `key=value` part, or none; None where encoding throws. */
  function Part(k: Str, v: Option<Str>): Option<seq<Str>> {
    if v == None || v.value == [] || (k == L("b") && v.value == L("all")) then Some([])
    else
      var e := Encode(v.value);
      if e == None then None else Some([k + [EQUALS] + e.value])
  }

  function Fields(r: Route): seq<(Str, Option<Str>)> {
    [(L("b"), r.b), (L("s"), r.s), (L("q"), r.q), (L("sel"), r.sel), (L("open"), r.open), (L("run"), r.run)]
  }

  function Parts(fields: seq<(Str, Option<Str>)>): Option<seq<Str>> {
    if fields == [] then Some([])
    else
      var head, p := Parts(fields[..|fields| - 1]), Part(fields[|fields| - 1].0, fields[|fields| - 1].1);
      if head == None || p == None then None else Some(head.value + p.value)
  }

  function Join(parts: seq<Str>, c: Unit): Str {
    if parts == [] then []
    else if |parts| == 1 then parts[0]
    else parts[0] + [c] + Join(parts[1..], c)
  }

  /** The hash of a route; None where the original throws. */
  function FormatHash(r: Route): Option<Str> {
    var view := if Routable(r.view) then r.view else DefaultView();
    var parts := Parts(Fields(r));
    if parts == None then None
    else Some([35, SLASH] + (if view == DefaultView() then [] else view)
              + (if parts.value == [] then [] else [QUERY] + Join(parts.value, AND)))
  }
}
