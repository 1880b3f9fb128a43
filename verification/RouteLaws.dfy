/** Formatting a route and parsing it again. */
module RouteLaws {
  import opened Options
  import opened Percent
  import opened RouteSpec

  // ---- Separators

  predicate Free(s: Str, c: Unit) { forall i :: 0 <= i < |s| ==> s[i] != c }

  lemma {:induction false} IndexAfter(a: Str, c: Unit, b: Str)
    requires Free(a, c)
    ensures IndexOf(a + [c] + b, c) == |a| && IndexOf(a, c) == |a|
  {
    var s := a + [c] + b;
    assert s[|a|] == c;
    assert forall i :: 0 <= i < |a| ==> s[i] == a[i];
  }

  lemma {:induction false} SplitJoin(parts: seq<Str>, c: Unit)
    requires parts != [] && forall i :: 0 <= i < |parts| ==> Free(parts[i], c)
    ensures Split(Join(parts, c), c) == parts
  {
    var first := parts[0];
    if |parts| == 1 {
      IndexAfter(first, c, []);
    } else {
      var rest := Join(parts[1..], c);
      SplitJoin(parts[1..], c);
      IndexAfter(first, c, rest);
      var s := first + [c] + rest;
      assert s[..|first|] == first && s[|first| + 1..] == rest;
    }
  }

  // ---- Query parts

  lemma {:induction false} GetAppend(a: seq<Str>, b: seq<Str>, k: Str)
    ensures Get(a + b, k) == if Get(a, k).Some? then Get(a, k) else Get(b, k)
  {
    if a == [] {
      assert a + b == b;
    } else {
      assert (a + b)[1..] == a[1..] + b;
      GetAppend(a[1..], b, k);
    }
  }

  /** What a field's part says when it is read again. */
  function Said(k: Str, v: Option<Str>): Option<Str> {
    if v == None || v.value == [] || (k == L("b") && v.value == L("all")) then None else v
  }

  lemma PlainKeeps(e: Str)
    requires Plain(e)
    ensures Spaces(e) == e && Free(e, AND) && Free(e, EQUALS) && Free(e, QUERY)
  {
    assert forall i :: 0 <= i < |e| ==> e[i] != PLUS;
  }

  lemma GetPart(k: Str, v: Option<Str>, want: Str)
    requires Part(k, v).Some? && Free(k, EQUALS)
    ensures Get(Part(k, v).value, want) == if k == want then Said(k, v) else None
  {
    var p := Part(k, v).value;
    if p != [] {
      var e := Encode(v.value).value;
      DecodeEncode(v.value);
      EncodedIsPlain(v.value);
      PlainKeeps(e);
      IndexAfter(k, EQUALS, e);
      assert p[0] == k + [EQUALS] + e;
      assert KeyPart(p[0]) == k && ValuePart(p[0]) == e;
      assert p[1..] == [];
    }
  }

  ghost predicate Keys(fields: seq<(Str, Option<Str>)>) {
    && (forall i :: 0 <= i < |fields| ==> Free(fields[i].0, EQUALS) && Free(fields[i].0, AND) && fields[i].0 != [])
    && (forall i, j :: 0 <= i < j < |fields| ==> fields[i].0 != fields[j].0)
  }

  lemma {:induction false} GetNone(fields: seq<(Str, Option<Str>)>, k: Str)
    requires Parts(fields).Some? && Keys(fields) && forall i :: 0 <= i < |fields| ==> fields[i].0 != k
    ensures Get(Parts(fields).value, k) == None
  {
    if fields != [] {
      var n := |fields| - 1;
      GetNone(fields[..n], k);
      GetPart(fields[n].0, fields[n].1, k);
      GetAppend(Parts(fields[..n]).value, Part(fields[n].0, fields[n].1).value, k);
    }
  }

  /** Every field is read back as it was said. */
  lemma {:induction false} GetField(fields: seq<(Str, Option<Str>)>, i: nat)
    requires Parts(fields).Some? && Keys(fields) && i < |fields|
    ensures Get(Parts(fields).value, fields[i].0) == Said(fields[i].0, fields[i].1)
  {
    var n := |fields| - 1;
    var k := fields[i].0;
    GetPart(fields[n].0, fields[n].1, k);
    GetAppend(Parts(fields[..n]).value, Part(fields[n].0, fields[n].1).value, k);
    if i < n { GetField(fields[..n], i); } else { GetNone(fields[..n], k); }
  }

  lemma {:induction false} PartsFree(fields: seq<(Str, Option<Str>)>)
    requires Parts(fields).Some? && Keys(fields)
    ensures forall i :: 0 <= i < |Parts(fields).value| ==> Free(Parts(fields).value[i], AND) && Parts(fields).value[i] != []
  {
    if fields != [] {
      var n := |fields| - 1;
      PartsFree(fields[..n]);
      var v := fields[n].1;
      if Part(fields[n].0, v).value != [] {
        EncodedIsPlain(v.value);
        PlainKeeps(Encode(v.value).value);
      }
    }
  }

  lemma RouteKeys(r: Route)
    ensures Keys(Fields(r))
  {
    Letters();
  }

  lemma Letters()
    ensures L("b") == [98] && L("s") == [115] && L("q") == [113] && L("sel") == [115, 101, 108]
    ensures L("open") == [111, 112, 101, 110] && L("run") == [114, 117, 110]
  {
  }

  function Tail(parts: seq<Str>): Str { if parts == [] then [] else Join(parts, AND) }

  /** The query of a formatted route says its fields. */
  lemma QuerySays(r: Route, i: nat)
    requires Parts(Fields(r)).Some? && i < 6
    ensures Query(Tail(Parts(Fields(r)).value), Fields(r)[i].0) == Said(Fields(r)[i].0, Fields(r)[i].1)
  {
    var parts := Parts(Fields(r)).value;
    RouteKeys(r);
    GetField(Fields(r), i);
    if parts == [] {
      var none: seq<Str> := [[]];
      assert Split([], AND) == none && none[1..] == [];
    } else {
      PartsFree(Fields(r));
      SplitJoin(parts, AND);
    }
  }

  // ---- The path

  lemma LowerLiteral(s: string)
    requires forall i :: 0 <= i < |s| ==> 'a' <= s[i] <= 'z'
    ensures forall i :: 0 <= i < |L(s)| ==> Lower(L(s)[i])
  {
    assert 'a' as int == 97 && 'z' as int == 122;
  }

  lemma Views(v: Str)
    requires Routable(v)
    ensures 3 <= |v| <= 8 && forall i :: 0 <= i < |v| ==> Lower(v[i])
  {
    hide L, Lower;
    LowerLiteral("map");
    LowerLiteral("board");
    LowerLiteral("inbox");
    LowerLiteral("packages");
    LowerLiteral("morning");
    LowerLiteral("credit");
    LowerLiteral("box");
    LowerLiteral("audit");
    LowerLiteral("runs");
    LowerLiteral("diff");
  }

  lemma TrimPath(path: Str)
    requires path == [] || (path[0] != SLASH && path[|path| - 1] != SLASH)
    ensures TrimRight(TrimLeft([SLASH] + path)) == path
  {
    assert ([SLASH] + path)[1..] == path;
  }

  /** What parsing a formatted route finds: the fields that fit their parameter. */
  function Filtered(r: Route): Route {
    Route(r.view, FitB(Said(L("b"), r.b)), FitS(Said(L("s"), r.s)), FitQ(Said(L("q"), r.q)),
          FitSel(Said(L("sel"), r.sel)), FitOpen(Said(L("open"), r.open)), FitRun(Said(L("run"), r.run)))
  }

  lemma QueryFiltered(r: Route)
    requires Parts(Fields(r)).Some?
    ensures QueryRoute(r.view, Tail(Parts(Fields(r)).value)) == Filtered(r)
  {
    hide Query, Said, Parts, L, FitB, FitS, FitQ, FitSel, FitOpen, FitRun;
    QuerySays(r, 0);
    QuerySays(r, 1);
    QuerySays(r, 2);
    QuerySays(r, 3);
    QuerySays(r, 4);
    QuerySays(r, 5);
  }

  lemma NotARunPath(path: Str)
    requires path == [] || Routable(path)
    ensures !IsRunPath(path)
  {
    if path != [] && |path| >= 5 {
      Views(path);
      assert L("runs/")[4] == SLASH;
      assert path[..5][4] == path[4];
    }
  }

  lemma MapLetters()
    ensures Routable(DefaultView()) && !Routable([])
  {
  }

  lemma NotLegacy(raw: Str)
    requires raw != [] && raw[0] == SLASH
    ensures !IsLegacy(raw)
  {
    assert L("session=")[0] == 115;
    if |raw| >= 8 { assert raw[..8][0] == SLASH; }
  }

  lemma ResolvePath(raw: Str, path: Str, qs: Str, view: Str, localId: Str)
    requires raw != [] && raw[0] == SLASH && !IsLegacy(raw)
    requires TrimRight(TrimLeft(raw[..IndexOf(raw, QUERY)])) == path
    requires qs == if IndexOf(raw, QUERY) == |raw| then [] else raw[IndexOf(raw, QUERY) + 1..]
    requires Routable(view) && path == (if view == DefaultView() then [] else view) && !IsRunPath(path)
    ensures Resolve([35] + raw, localId) == (QueryRoute(view, qs), false)
  {
    hide QueryRoute, Routable, IsLegacy, Legacy, IsRunPath, TrimLeft, TrimRight, DefaultView;
    MapLetters();
    assert ([35] + raw)[1..] == raw;
  }

  /** The raw hash of a route: not a legacy form, its path the view's, its query the fields'. */
  lemma RawParts(path: Str, tail: Str, parts: seq<Str>)
    requires forall i :: 0 <= i < |path| ==> Lower(path[i])
    requires tail == (if parts == [] then [] else [QUERY] + Join(parts, AND))
    ensures var raw := [SLASH] + path + tail; var qAt := IndexOf(raw, QUERY);
            && !IsLegacy(raw) && raw[0] == SLASH
            && raw[..qAt] == [SLASH] + path && (if qAt == |raw| then [] else raw[qAt + 1..]) == Tail(parts)
  {
    hide Join, IsLegacy;
    var raw := [SLASH] + path + tail;
    NotLegacy(raw);
    if parts == [] {
      assert raw == [SLASH] + path;
      IndexAfter(raw, QUERY, []);
    } else {
      IndexAfter([SLASH] + path, QUERY, Join(parts, AND));
      assert raw == [SLASH] + path + [QUERY] + Join(parts, AND);
    }
  }

  lemma ViewOrHome(view: Str)
    requires Routable(view)
    ensures var path := if view == DefaultView() then [] else view;
            && (forall i :: 0 <= i < |path| ==> Lower(path[i])) && !IsRunPath(path)
            && TrimRight(TrimLeft([SLASH] + path)) == path
  {
    hide Routable, IsRunPath, TrimLeft, TrimRight, DefaultView;
    Views(view);
    var path := if view == DefaultView() then [] else view;
    NotARunPath(path);
    TrimPath(path);
  }

  lemma FormatIs(r: Route)
    requires Routable(r.view) && FormatHash(r).Some?
    ensures Parts(Fields(r)).Some?
    ensures var parts := Parts(Fields(r)).value;
            var path := if r.view == DefaultView() then [] else r.view;
            var tail := if parts == [] then [] else [QUERY] + Join(parts, AND);
            FormatHash(r).value == [35] + ([SLASH] + path + tail)
  {
    hide Routable, Parts, Join, DefaultView;
    var parts := Parts(Fields(r)).value;
    HashShape(if r.view == DefaultView() then [] else r.view, if parts == [] then [] else [QUERY] + Join(parts, AND));
  }

  lemma HashShape(path: Str, tail: Str)
    ensures [35, SLASH] + path + tail == [35] + ([SLASH] + path + tail)
  {
  }

  /** Parsing what formatting gave: the same view, and every field that fits. */
  lemma ParseOfFormat(r: Route, localId: Str)
    requires Routable(r.view) && FormatHash(r).Some?
    ensures ParseHash(FormatHash(r).value, localId) == Filtered(r)
    ensures !Resolve(FormatHash(r).value, localId).1
  {
    hide QueryRoute, Filtered, Routable, IsLegacy, Parts, IsRunPath, TrimLeft, TrimRight, Join, DefaultView, Resolve, Tail, Lower,
         IndexOf, FormatHash, Fields;
    FormatIs(r);
    var parts := Parts(Fields(r)).value;
    var path := if r.view == DefaultView() then [] else r.view;
    var tail := if parts == [] then [] else [QUERY] + Join(parts, AND);
    ViewOrHome(r.view);
    RawParts(path, tail, parts);
    QueryFiltered(r);
    ResolvePath([SLASH] + path + tail, path, Tail(parts), r.view, localId);
  }

  // ---- Canonical routes

  ghost predicate Canonical(r: Route) {
    && Routable(r.view)
    && (r.b.Some? ==> BuilderId(r.b.value) && r.b.value != L("all"))
    && (r.s.Some? ==> States(r.s.value))
    && (r.q.Some? ==> r.q.value != [] && |r.q.value| <= MAX_Q && NoControl(r.q.value) && WellFormed(r.q.value))
    && (r.sel.Some? ==> Selectable(r.sel.value) && WellFormed(r.sel.value))
    && (r.open.Some? ==> OpenKind(r.open.value))
    && (r.run.Some? ==> RunId(r.run.value))
  }

  lemma WordAscii(w: Str)
    requires Word(w)
    ensures w != [] && forall i :: 0 <= i < |w| ==> w[i] < 0xD800
  {
  }

  lemma CutAt(v: Str, i: nat)
    requires i < |v|
    ensures v == v[..i] + [v[i]] + v[i + 1..]
  {
  }

  lemma SplitStep(v: Str, c: Unit)
    ensures var i := IndexOf(v, c);
            if i == |v| then Split(v, c) == [v]
            else Split(v, c) == [v[..i]] + Split(v[i + 1..], c) && v == v[..i] + [c] + v[i + 1..]
  {
    hide IndexOf;
    var i := IndexOf(v, c);
    if i < |v| { CutAt(v, i); }
  }

  lemma {:induction false} StatesAscii(v: Str)
    requires forall i :: 0 <= i < |Split(v, COMMA)| ==> Word(Split(v, COMMA)[i])
    ensures v != [] && forall i :: 0 <= i < |v| ==> v[i] < 0xD800
    decreases |v|
  {
    hide Word, Split, IndexOf;
    var i := IndexOf(v, COMMA);
    SplitStep(v, COMMA);
    WordAscii(Split(v, COMMA)[0]);
    if i < |v| {
      var rest := v[i + 1..];
      forall k | 0 <= k < |Split(rest, COMMA)| ensures Word(Split(rest, COMMA)[k]) { assert Split(v, COMMA)[k + 1] == Split(rest, COMMA)[k]; }
      StatesAscii(rest);
    }
  }

  lemma Encodes(v: Str)
    requires forall i :: 0 <= i < |v| ==> v[i] < 0xD800
    ensures Encode(v).Some?
  {
    AsciiWellFormed(v);
    EncodesIffWellFormed(v);
  }

  /** Values of every parameter but q and sel are plain letters. */
  lemma FieldsEncode(r: Route)
    requires r.b.Some? ==> BuilderId(r.b.value)
    requires r.s.Some? ==> States(r.s.value)
    requires r.open.Some? ==> OpenKind(r.open.value)
    requires r.run.Some? ==> RunId(r.run.value)
    ensures r.b.Some? ==> Encode(r.b.value).Some?
    ensures r.s.Some? ==> Encode(r.s.value).Some? && r.s.value != []
    ensures r.open.Some? ==> Encode(r.open.value).Some? && r.open.value != []
    ensures r.run.Some? ==> Encode(r.run.value).Some?
  {
    hide Encode;
    if r.b.Some? { Encodes(r.b.value); }
    if r.s.Some? { StatesAscii(r.s.value); Encodes(r.s.value); }
    if r.open.Some? { Encodes(r.open.value); }
    if r.run.Some? { Encodes(r.run.value); }
  }

  lemma {:induction false} PartsIff(fields: seq<(Str, Option<Str>)>)
    ensures Parts(fields).Some? <==> forall i :: 0 <= i < |fields| ==> Part(fields[i].0, fields[i].1).Some?
  {
    if fields != [] {
      var n := |fields| - 1;
      PartsIff(fields[..n]);
      assert forall i :: 0 <= i < n ==> fields[..n][i] == fields[i];
    }
  }

  /** A route whose plain fields are valid formats exactly when q and sel can be encoded. */
  lemma FormatsIff(r: Route)
    requires r.b.Some? ==> BuilderId(r.b.value)
    requires r.s.Some? ==> States(r.s.value)
    requires r.open.Some? ==> OpenKind(r.open.value)
    requires r.run.Some? ==> RunId(r.run.value)
    ensures FormatHash(r).Some? <==> (r.q.Some? ==> WellFormed(r.q.value)) && (r.sel.Some? ==> WellFormed(r.sel.value))
  {
    hide BuilderId, States, RunId, OpenKind, Encode, Parts;
    FieldsEncode(r);
    PartsIff(Fields(r));
    Letters();
    if r.q.Some? { EncodesIffWellFormed(r.q.value); EmptyWellFormed(); }
    if r.sel.Some? { EncodesIffWellFormed(r.sel.value); EmptyWellFormed(); }
    assert FormatHash(r).Some? <==> Parts(Fields(r)).Some?;
    var f := Fields(r);
    assert f[2] == (L("q"), r.q) && f[3] == (L("sel"), r.sel);
  }

  lemma EmptyWellFormed()
    ensures WellFormed([])
  {
  }

  lemma CanonicalFiltered(r: Route)
    requires Canonical(r)
    ensures Filtered(r) == r
  {
    Letters();
    if r.s.Some? { StatesAscii(r.s.value); }
  }

  /** Round trip: every canonical route is what its hash parses to. */
  lemma HashRoundTrip(r: Route, localId: Str)
    requires Canonical(r)
    ensures FormatHash(r).Some? && ParseHash(FormatHash(r).value, localId) == r
  {
    hide FormatHash, ParseHash, Filtered, Resolve;
    FormatsIff(r);
    ParseOfFormat(r, localId);
    CanonicalFiltered(r);
  }

  // ---- Any hash

  /** `b=all` is the default and is left out. */
  function Normal(r: Route): Route { r.(b := if r.b == Some(L("all")) then None else r.b) }

  /** What every parsed route satisfies. */
  ghost predicate Parsed(r: Route) {
    && Routable(r.view)
    && (r.b.Some? ==> BuilderId(r.b.value))
    && (r.s.Some? ==> States(r.s.value))
    && (r.q.Some? ==> r.q.value != [] && |r.q.value| <= MAX_Q && NoControl(r.q.value))
    && (r.sel.Some? ==> NoControl(r.sel.value) && (Fkey(r.sel.value) || RunSel(r.sel.value) || NodeSel(r.sel.value)))
    && (r.open.Some? ==> OpenKind(r.open.value))
    && (r.run.Some? ==> RunId(r.run.value))
  }

  lemma QueryParsed(view: Str, qs: Str)
    requires Routable(view)
    ensures Parsed(QueryRoute(view, qs))
  {
    hide Query;
    assert BuilderId(L("all"));
  }

  lemma LegacyParsed(rest: Str, localId: Str)
    ensures Parsed(Legacy(rest, localId))
  {
    hide SafeDecode;
    assert Routable(L("board")) && OpenKind(L("term"));
    var name := SafeDecode(rest);
    if name.Some? && name.value != [] && NoControl(name.value) && !Has(name.value, SLASH) && BuilderId(localId) {
      var sel := localId + [SLASH] + name.value;
      IndexAfter(localId, SLASH, name.value);
      assert sel[..|localId|] == localId;
      assert NoControl(sel);
    }
  }

  lemma EveryHashParses(h: Str, localId: Str)
    ensures Parsed(ParseHash(h, localId))
  {
    hide QueryRoute, Legacy, Query, TrimLeft, TrimRight, SafeDecode, BuilderId, States, RunId, Selectable, OpenKind;
    var raw := if h != [] && h[0] == 35 then h[1..] else h;
    MapLetters();
    RunsRoutable();
    if IsLegacy(raw) {
      LegacyParsed(raw[8..], localId);
    } else if raw != [] && raw[0] == SLASH {
      var qAt := IndexOf(raw, QUERY);
      var path := TrimRight(TrimLeft(raw[..qAt]));
      var qs := if qAt == |raw| then [] else raw[qAt + 1..];
      QueryParsed(if IsRunPath(path) then L("runs") else if Routable(path) then path else DefaultView(), qs);
    }
  }

  lemma RunsRoutable()
    ensures Routable(L("runs")) && Routable(L("board"))
  {
  }

  /**
    For any hash, formatting and parsing the route again gives it back, `b=all` left out,
    exactly when its q and sel have no surrogate out of its pair and its sel is not too long.
  */
  lemma ReparseIff(h: Str, localId: Str, localId': Str)
    ensures var r := ParseHash(h, localId);
            (FormatHash(r).Some? && ParseHash(FormatHash(r).value, localId') == Normal(r)) <==>
            (r.q.Some? ==> WellFormed(r.q.value)) && (r.sel.Some? ==> WellFormed(r.sel.value) && |r.sel.value| <= MAX_SEL)
  {
    hide FormatHash, ParseHash, Resolve, Filtered;
    var r := ParseHash(h, localId);
    EveryHashParses(h, localId);
    FormatsIff(r);
    if FormatHash(r).Some? {
      ParseOfFormat(r, localId');
      ParsedFiltered(r);
    }
  }

  lemma ParsedFiltered(r: Route)
    requires Parsed(r)
    ensures Filtered(r) == Normal(r) <==> (r.sel.Some? ==> |r.sel.value| <= MAX_SEL)
  {
    Letters();
    if r.s.Some? { StatesAscii(r.s.value); }
  }

  // ---- Where it fails

  lemma {:induction false} LettersDecode(v: Str)
    requires forall i :: 0 <= i < |v| ==> Lower(v[i])
    ensures Decode(v) == Some(v)
  {
    if v != [] {
      LettersDecode(v[1..]);
      assert v == [v[0]] + v[1..];
    }
  }

  /** A legacy link to a session with a long name: the route's sel is too long to be parsed again. */
  lemma LongSessionNameIsLost(name: Str, localId: Str)
    requires BuilderId(localId) && |name| >= MAX_SEL && forall i :: 0 <= i < |name| ==> Lower(name[i])
    ensures var r := ParseHash(L("#session=") + name, localId);
            && r.sel == Some(localId + [SLASH] + name)
            && FormatHash(r).Some? && ParseHash(FormatHash(r).value, localId).sel == None
  {
    hide FormatHash, Filtered, BuilderId;
    var h := L("#session=") + name;
    var raw := h[1..];
    assert raw[..8] == L("session=") && raw[8..] == name;
    assert Spaces(name) == name;
    LettersDecode(name);
    assert h[0] == 35;
    assert IsLegacy(raw);
    var r := ParseHash(h, localId);
    EveryHashParses(h, localId);
    AsciiSel(localId, name);
    FormatsIff(r);
    ParseOfFormat(r, localId);
    LongSelFiltered(r);
  }

  lemma AsciiSel(localId: Str, name: Str)
    requires BuilderId(localId) && forall i :: 0 <= i < |name| ==> Lower(name[i])
    ensures WellFormed(localId + [SLASH] + name)
  {
    AsciiWellFormed(localId + [SLASH] + name);
  }

  lemma LongSelFiltered(r: Route)
    requires r.sel.Some? && |r.sel.value| > MAX_SEL
    ensures Filtered(r).sel == None
  {
  }

  lemma {:induction false} EndsHigh(s: Str)
    requires s != [] && High(s[|s| - 1])
    ensures !WellFormed(s)
    decreases |s|
  {
    if High(s[0]) {
      if |s| >= 3 { EndsHigh(s[2..]); }
    } else {
      EndsHigh(s[1..]);
    }
  }

  /** A q cut between the two units of a pair: the route cannot be formatted at all. */
  lemma CutPairThrows(r: Route, q: Str)
    requires |q| > MAX_Q && High(q[MAX_Q - 1]) && r.q == Some(Take(q, MAX_Q))
    ensures FormatHash(r) == None
  {
    var cut := Take(q, MAX_Q);
    EndsHigh(cut);
    EncodesIffWellFormed(cut);
    PartsIff(Fields(r));
    Letters();
    assert Fields(r)[2] == (L("q"), r.q);
  }

  /** A well-formed string cut after any unit that opens no pair is well-formed. */
  lemma {:induction false} CutWellFormed(s: Str, n: nat)
    requires WellFormed(s) && n <= |s| && (n > 0 ==> !High(s[n - 1]))
    ensures WellFormed(s[..n])
    decreases |s|
  {
    if n == 0 {
      EmptyWellFormed();
    } else if High(s[0]) {
      CutWellFormed(s[2..], n - 2);
      assert s[..n][2..] == s[2..][..n - 2];
    } else {
      CutWellFormed(s[1..], n - 1);
      assert s[..n][1..] == s[1..][..n - 1];
    }
  }

  function BoardWith(q: Str): Route { EmptyRoute(L("board")).(q := Some(q)) }

  /** A link that searches the board for `q` formats; the route it parses to formats again unless the cut at 200 splits a pair. */
  lemma SearchAgainIff(q: Str, localId: Str)
    requires q != [] && NoControl(q) && WellFormed(q)
    ensures FormatHash(BoardWith(q)).Some?
    ensures var r := ParseHash(FormatHash(BoardWith(q)).value, localId);
            r == BoardWith(Take(q, MAX_Q)) && (FormatHash(r) == None <==> |q| > MAX_Q && High(q[MAX_Q - 1]))
  {
    hide FormatHash, ParseHash, Resolve, WellFormed, NoControl, Filtered, BoardWith, Routable;
    BoardRoutable(q);
    BoardFormats(q);
    ParseOfFormat(BoardWith(q), localId);
    OnlyQ(q);
    BoardFormats(Take(q, MAX_Q));
    if |q| > MAX_Q {
      if High(q[MAX_Q - 1]) { EndsHigh(Take(q, MAX_Q)); } else { CutWellFormed(q, MAX_Q); }
    }
  }

  lemma BoardRoutable(q: Str)
    ensures Routable(BoardWith(q).view)
  {
  }

  lemma BoardFormats(q: Str)
    ensures FormatHash(BoardWith(q)).Some? <==> WellFormed(q)
  {
    hide FormatHash, WellFormed;
    FormatsIff(BoardWith(q));
  }

  lemma OnlyQ(q: Str)
    requires q != [] && NoControl(q)
    ensures Filtered(BoardWith(q)) == BoardWith(Take(q, MAX_Q))
  {
    hide L;
    Letters();
  }

  function Letter(n: nat): Str { seq(n, i requires 0 <= i < n => 97) }

  /** 199 letters and a pair: a real link whose route cannot be formatted again. */
  lemma CutPairHash(localId: Str)
    ensures var q := Letter(199) + [0xD83D, 0xDE00];
            FormatHash(BoardWith(q)).Some? && FormatHash(ParseHash(FormatHash(BoardWith(q)).value, localId)) == None
  {
    hide FormatHash, ParseHash;
    var q := Letter(199) + [0xD83D, 0xDE00];
    LettersThenPair(199);
    SearchAgainIff(q, localId);
  }

  lemma {:induction false} LettersThenPair(n: nat)
    ensures WellFormed(Letter(n) + [0xD83D, 0xDE00])
  {
    var q := Letter(n) + [0xD83D, 0xDE00];
    if n > 0 {
      LettersThenPair(n - 1);
      assert q[1..] == Letter(n - 1) + [0xD83D, 0xDE00];
    } else {
      assert q[2..] == [];
    }
  }
}
