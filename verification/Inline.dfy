/**
  Inline markup of one line of a reply (public/js/core/md.js: `inline`, `splitMarks`): the
  plain scanner, and the one that remembers which closers are not there any more.
*/
module Inline {
  import opened Options
  import opened Strings

  const MAX_LINE := 2000

  datatype Run =
    | Text(text: string) | Bold(text: string) | Code(text: string)
    | Link(text: string, host: string) | Image(alt: string) | Mark(text: string)

  /** What the engine knows of characters and addresses: white space, `trim`, the host of a URL. */
  datatype Engine = Engine(space: char -> bool, trim: string -> string, host: string -> string)

  const MARKS: set<char> := {'\U{25A0}', '\U{25B2}', '\U{25CF}', '\U{25CB}'}
  const TRAILING: set<char> := {'.', ',', ';', ':', '!', '?', '\'', '"'}

  // ---- Marks

  function Piece(text: string, bold: bool): Run { if bold then Bold(text) else Text(text) }

  /** Text since `from`, then the marks and texts from i on. */
  function SplitFrom(s: string, bold: bool, from: nat, i: nat): seq<Run>
    requires from <= i <= |s|
    decreases |s| - i
  {
    if i == |s| then (if from < |s| then [Piece(s[from..], bold)] else [])
    else if s[i] in MARKS then
      (if i > from then [Piece(s[from..i], bold)] else []) + [Mark(s[i..i + 1])] + SplitFrom(s, bold, i + 1, i + 1)
    else SplitFrom(s, bold, from, i + 1)
  }

  function Split(s: string, bold: bool): seq<Run> { SplitFrom(s, bold, 0, 0) }

  lemma Assoc(a: seq<Run>, b: seq<Run>, c: seq<Run>, d: seq<Run>)
    ensures a + b + c + d == a + (b + c + d)
  {
  }

  method SplitMarks(s: string, bold: bool) returns (out: seq<Run>)
    ensures out == Split(s, bold)
  {
    out := [];
    var from := 0;
    for i := 0 to |s|
      invariant from <= i && out + SplitFrom(s, bold, from, i) == Split(s, bold)
    {
      if s[i] in MARKS {
        Assoc(out, if i > from then [Piece(s[from..i], bold)] else [], [Mark(s[i..i + 1])], SplitFrom(s, bold, i + 1, i + 1));
        if i > from { out := out + [Piece(s[from..i], bold)]; }
        out := out + [Mark(s[i..i + 1])];
        from := i + 1;
      }
    }
    if from < |s| { out := out + [Piece(s[from..], bold)]; }
  }

  function Shown(r: Run): string { if r.Image? then r.alt else r.text }

  function Spelled(runs: seq<Run>): string { if runs == [] then "" else Shown(runs[0]) + Spelled(runs[1..]) }

  predicate NoMark(s: string) { forall i :: 0 <= i < |s| ==> s[i] !in MARKS }

  /** A mark of one character, or a text without one. */
  predicate PieceOk(r: Run, bold: bool) {
    || (r.Mark? && |r.text| == 1 && r.text[0] in MARKS)
    || ((if bold then r.Bold? else r.Text?) && Shown(r) != "" && NoMark(Shown(r)))
  }

  /** Texts and marks, never two texts in a row. */
  ghost predicate MarkRuns(runs: seq<Run>, bold: bool) {
    && (forall i :: 0 <= i < |runs| ==> PieceOk(runs[i], bold))
    && (forall i, j :: 0 <= i < j < |runs| && j == i + 1 ==> runs[i].Mark? || runs[j].Mark?)
  }

  lemma Cons(x: Run, rest: seq<Run>, bold: bool)
    requires PieceOk(x, bold) && MarkRuns(rest, bold) && (rest == [] || x.Mark? || rest[0].Mark?)
    ensures MarkRuns([x] + rest, bold) && Spelled([x] + rest) == Shown(x) + Spelled(rest)
  {
    assert ([x] + rest)[1..] == rest;
  }

  lemma NoRuns(bold: bool)
    ensures MarkRuns([], bold) && Spelled([]) == ""
  {
  }

  lemma TextOk(s: string, bold: bool, from: nat, i: nat)
    requires from < i <= |s| && forall k :: from <= k < i ==> s[k] !in MARKS
    ensures PieceOk(Piece(s[from..i], bold), bold) && Shown(Piece(s[from..i], bold)) == s[from..i]
  {
  }

  lemma {:induction false} SplitSpells(s: string, bold: bool, from: nat, i: nat)
    requires from <= i <= |s| && forall k :: from <= k < i ==> s[k] !in MARKS
    ensures MarkRuns(SplitFrom(s, bold, from, i), bold) && Spelled(SplitFrom(s, bold, from, i)) == s[from..]
    decreases |s| - i
  {
    hide MarkRuns, PieceOk, Spelled;
    NoRuns(bold);
    if i == |s| {
      if from < |s| {
        TextOk(s, bold, from, i);
        assert s[from..] == s[from..i];
        Cons(Piece(s[from..], bold), [], bold);
        assert [Piece(s[from..], bold)] + [] == [Piece(s[from..], bold)];
      }
    } else if s[i] in MARKS {
      SplitSpells(s, bold, i + 1, i + 1);
      MarkThen(s, bold, i, SplitFrom(s, bold, i + 1, i + 1));
      var tail := [Mark(s[i..i + 1])] + SplitFrom(s, bold, i + 1, i + 1);
      if i > from {
        TextOk(s, bold, from, i);
        Cons(Piece(s[from..i], bold), tail, bold);
        assert SplitFrom(s, bold, from, i) == [Piece(s[from..i], bold)] + tail;
        assert s[from..] == s[from..i] + s[i..];
      } else {
        assert SplitFrom(s, bold, from, i) == tail;
      }
    } else {
      SplitSpells(s, bold, from, i + 1);
    }
  }

  lemma MarkThen(s: string, bold: bool, i: nat, rest: seq<Run>)
    requires i < |s| && s[i] in MARKS && MarkRuns(rest, bold) && Spelled(rest) == s[i + 1..]
    ensures var tail := [Mark(s[i..i + 1])] + rest; MarkRuns(tail, bold) && Spelled(tail) == s[i..] && tail[0].Mark?
  {
    hide MarkRuns, Spelled;
    Cons(Mark(s[i..i + 1]), rest, bold);
    assert s[i..] == s[i..i + 1] + s[i + 1..];
  }

  /** Splitting at marks loses nothing: the runs concatenate back. */
  lemma SplitConcatenates(s: string, bold: bool)
    ensures MarkRuns(Split(s, bold), bold) && Spelled(Split(s, bold)) == s
  {
    SplitSpells(s, bold, 0, 0);
  }

  // ---- Links

  predicate Letter(c: char, l: char) { c == l || ('a' <= l <= 'z' && c as int + 32 == l as int) }

  predicate WordChar(c: char) { 'A' <= c <= 'Z' || 'a' <= c <= 'z' || '0' <= c <= '9' || c == '_' }

  predicate UrlChar(e: Engine, c: char) { !e.space(c) && c != '<' && c != '>' && c != '(' && c != ')' }

  function UrlEnd(e: Engine, s: string, i: nat): (r: nat)
    requires i <= |s|
    ensures i <= r <= |s|
    decreases |s| - i
  {
    if i < |s| && UrlChar(e, s[i]) then UrlEnd(e, s, i + 1) else i
  }

  /** The bare address at the start of `s`: http or https, `://` and at least one character. */
  function BareUrl(e: Engine, s: string): (r: Option<string>)
    ensures r.Some? ==> 4 <= |r.value| <= |s| && r.value == s[..|r.value|] && Letter(s[3], 'p')
  {
    if |s| < 4 || !(Letter(s[0], 'h') && Letter(s[1], 't') && Letter(s[2], 't') && Letter(s[3], 'p')) then None
    else
      var n := if |s| > 4 && Letter(s[4], 's') then 5 else 4;
      if !StartsAt(s, "://", n) then None
      else
        var end := UrlEnd(e, s, n + 3);
        if end == n + 3 then None else Some(s[..end])
  }

  function Strip(url: string): (r: string)
    ensures |r| <= |url| && r == url[..|r|]
    ensures forall k :: 0 <= k < |url| && url[k] !in TRAILING ==> |r| > k
  {
    if url != [] && url[|url| - 1] in TRAILING then Strip(url[..|url| - 1]) else url
  }

  /** A link's closing parenthesis, searched from its opening bracket; and where its label ends. */
  function LinkEnd(s: string, open: nat): (r: Option<(nat, nat)>)
    ensures r.Some? ==> open + 1 <= r.value.0 && r.value.0 + 2 <= r.value.1 < |s|
  {
    var close := Find(s, "](", open + 1);
    if close == None then None
    else
      var end := Find(s, ")", close.value + 2);
      if end == None then None else Some((close.value, end.value))
  }

  lemma LinkEndLater(s: string, i: nat, j: nat)
    requires i <= j && LinkEnd(s, i) == None
    ensures LinkEnd(s, j) == None
  {
    hide Find;
    FindLater(s, "](", i + 1, j + 1);
    var a, b := Find(s, "](", i + 1), Find(s, "](", j + 1);
    if b.Some? {
      FindNone(s, "](", i + 1, j + 1);
      FindLater(s, ")", a.value + 2, b.value + 2);
    }
  }

  lemma FindNone(s: string, p: string, i: nat, j: nat)
    requires i <= j && Find(s, p, j).Some?
    ensures Find(s, p, i).Some?
  {
    FindLater(s, p, i, j);
  }

  // ---- The plain scanner

  function Flush(buf: string): seq<Run> { if buf == "" then [] else Split(buf, false) }

  predicate OpensLink(s: string, i: nat)
    requires i < |s|
  {
    s[i] == '[' || (s[i] == '!' && i + 1 < |s| && s[i + 1] == '[')
  }

  /** The markup that starts at i: its runs and where it ends. */
  function Markup(e: Engine, s: string, i: nat): (r: Option<(seq<Run>, nat)>)
    requires i < |s|
    ensures r.Some? ==> i < r.value.1 <= |s|
  {
    if s[i] == '`' then
      var end := Find(s, "`", i + 1);
      if end.Some? && end.value > i + 1 then Some(([Code(s[i + 1..end.value])], end.value + 1)) else None
    else if s[i] == '*' && i + 1 < |s| && s[i + 1] == '*' then
      var end := Find(s, "**", i + 2);
      if end.Some? && end.value > i + 2 then Some((Split(s[i + 2..end.value], true), end.value + 2)) else None
    else if OpensLink(s, i) then
      var open := if s[i] == '!' then i + 1 else i;
      var link := LinkEnd(s, open);
      if link == None then None
      else
        var (close, end) := link.value;
        var name := s[open + 1..close];
        if ']' in name then None
        else if s[i] == '!' then Some(([Image(name)], end + 1))
        else Some(([Link(name, e.host(e.trim(s[close + 2..end])))], end + 1))
    else if Letter(s[i], 'h') && (i == 0 || !WordChar(s[i - 1])) then
      var t := s[i..if i + MAX_LINE < |s| then i + MAX_LINE else |s|];
      var url := BareUrl(e, t);
      if url == None then None
      else
        UrlStays(url.value);
        var u := Strip(url.value);
        Some(([Link(u, e.host(u))], i + |u|))
    else None
  }

  lemma UrlStays(url: string)
    requires |url| >= 4 && Letter(url[3], 'p')
    ensures |Strip(url)| >= 4
  {
    assert url[3] !in TRAILING;
  }

  /** The runs from i on, with `buf` plain text not put out yet: at every character the whole line is searched again. */
  function Runs(e: Engine, s: string, i: nat, buf: string): seq<Run>
    requires i <= |s|
    decreases |s| - i
  {
    if i == |s| then Flush(buf)
    else
      var m := Markup(e, s, i);
      if m == None then Runs(e, s, i + 1, buf + [s[i]])
      else Flush(buf) + m.value.0 + Runs(e, s, m.value.1, "")
  }

  // ---- The scanner with its flags

  method FlushOut(out: seq<Run>, buf: string) returns (r: seq<Run>)
    ensures r == out + Flush(buf)
  {
    r := out;
    if buf != "" {
      var pieces := SplitMarks(buf, false);
      r := r + pieces;
    }
  }

  /** Which closers are known not to stand ahead of i any more. */
  ghost predicate Known(s: string, i: nat, noTick: bool, noBold: bool, noLink: bool) {
    && (noTick ==> Find(s, "`", i + 1) == None)
    && (noBold ==> Find(s, "**", i + 2) == None)
    && (noLink ==> LinkEnd(s, i) == None)
  }

  lemma KnownLater(s: string, i: nat, j: nat, noTick: bool, noBold: bool, noLink: bool)
    requires Known(s, i, noTick, noBold, noLink) && i <= j
    ensures Known(s, j, noTick, noBold, noLink)
  {
    hide Find, LinkEnd;
    FindLater(s, "`", i + 1, j + 1);
    FindLater(s, "**", i + 2, j + 2);
    if noLink { LinkEndLater(s, i, j); }
  }

  method LinkAt(e: Engine, s: string, i: nat) returns (found: Option<(seq<Run>, nat)>, none: bool)
    requires i < |s| && OpensLink(s, i)
    ensures found == Markup(e, s, i) && (none ==> found == None && LinkEnd(s, i + 1) == None)
  {
    hide Find, Split, Strip, BareUrl, LinkEnd;
    var open := if s[i] == '!' then i + 1 else i;
    var ends := LinkEnd(s, open);
    if ends == None {
      LinkEndLater(s, open, i + 1);
      return None, true;
    }
    var (close, end) := ends.value;
    var name := s[open + 1..close];
    if ']' in name { return None, false; }
    if s[i] == '!' { return Some(([Image(name)], end + 1)), false; }
    return Some(([Link(name, e.host(e.trim(s[close + 2..end])))], end + 1)), false;
  }

  method UrlAt(e: Engine, s: string, i: nat) returns (found: Option<(seq<Run>, nat)>)
    requires i < |s| && Letter(s[i], 'h') && (i == 0 || !WordChar(s[i - 1]))
    ensures found == Markup(e, s, i)
  {
    hide Find, Split, Strip, BareUrl, LinkEnd;
    var t := s[i..if i + MAX_LINE < |s| then i + MAX_LINE else |s|];
    var url := BareUrl(e, t);
    if url == None { return None; }
    UrlStays(url.value);
    var u := Strip(url.value);
    return Some(([Link(u, e.host(u))], i + |u|));
  }

  /** What starts at i, looking only for closers that may still be there; and what is known after. */
  method MarkupAt(e: Engine, s: string, i: nat, noTick: bool, noBold: bool, noLink: bool)
    returns (found: Option<(seq<Run>, nat)>, tick: bool, bold: bool, link: bool)
    requires i < |s| && Known(s, i, noTick, noBold, noLink)
    ensures found == Markup(e, s, i) && Known(s, i + 1, tick, bold, link)
  {
    hide Find, Split, Strip, BareUrl, LinkEnd;
    KnownLater(s, i, i + 1, noTick, noBold, noLink);
    found, tick, bold, link := None, noTick, noBold, noLink;
    if s[i] == '`' && !noTick {
      var end := Find(s, "`", i + 1);
      FindLater(s, "`", i + 1, i + 2);
      if end == None { tick := true; }
      if end.Some? && end.value > i + 1 { found := Some(([Code(s[i + 1..end.value])], end.value + 1)); }
    } else if s[i] == '*' && i + 1 < |s| && s[i + 1] == '*' && !noBold {
      var end := Find(s, "**", i + 2);
      FindLater(s, "**", i + 2, i + 3);
      if end == None { bold := true; }
      if end.Some? && end.value > i + 2 {
        var pieces := SplitMarks(s[i + 2..end.value], true);
        found := Some((pieces, end.value + 2));
      }
    } else if OpensLink(s, i) && !noLink {
      found, link := LinkAt(e, s, i);
    } else if Letter(s[i], 'h') && (i == 0 || !WordChar(s[i - 1])) {
      found := UrlAt(e, s, i);
    } else if OpensLink(s, i) {
      LinkEndLater(s, i, if s[i] == '!' then i + 1 else i);
    }
  }

  /** Once a closer is not found ahead it is not looked for again, and no run changes. */
  method Inline(e: Engine, s: string) returns (out: seq<Run>)
    ensures out == Runs(e, s, 0, "")
  {
    hide Known, Markup, Flush;
    out := [];
    var buf := "";
    var noTick, noBold, noLink := false, false, false;
    var i := 0;
    NothingKnown(s);
    while i < |s|
      invariant i <= |s| && out + Runs(e, s, i, buf) == Runs(e, s, 0, "")
      invariant Known(s, i, noTick, noBold, noLink)
      decreases |s| - i
    {
      var found;
      found, noTick, noBold, noLink := MarkupAt(e, s, i, noTick, noBold, noLink);
      if found.Some? {
        Assoc(out, Flush(buf), found.value.0, Runs(e, s, found.value.1, ""));
        out := FlushOut(out, buf);
        out := out + found.value.0;
        buf := "";
        KnownLater(s, i + 1, found.value.1, noTick, noBold, noLink);
        i := found.value.1;
      } else {
        buf := buf + [s[i]];
        i := i + 1;
      }
    }
    out := FlushOut(out, buf);
  }

  lemma NothingKnown(s: string)
    ensures Known(s, 0, false, false, false)
  {
  }
}
