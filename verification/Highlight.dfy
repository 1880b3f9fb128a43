/**
  The per-line highlighter (public/js/core/hl.js: `tokenize`, `stringEnd`, `runEnd`): a
  reference that gives every character its kind, and the scanner that emits tokens.
*/
module Highlight {
  import opened Options
  import opened Strings

  const MAX_LINE := 2000

  datatype Kind = Plain | Comment | Str | Number | Keyword

  /** A language, as the table describes it. */
  datatype Lang = Lang(line: seq<string>, block: Option<(string, string)>, hashAfterSpace: bool,
                       quotes: set<char>, keywords: set<string>, at: bool, space: char -> bool)

  datatype Token = Token(k: Kind, s: string)

  predicate DigitChar(c: char) { '0' <= c <= '9' }
  predicate IdentStart(c: char) { 'A' <= c <= 'Z' || 'a' <= c <= 'z' || c == '_' || c == '$' }
  predicate WordChar(c: char) { 'A' <= c <= 'Z' || 'a' <= c <= 'z' || c == '_' || DigitChar(c) }
  predicate IdentChar(c: char) { WordChar(c) || c == '$' }
  predicate NumberChar(c: char) { WordChar(c) || c == '.' }

  /** Where a run of identifier characters ends; of number characters, when `number`. */
  function RunEnd(s: string, from: nat, number: bool): (e: nat)
    requires from <= |s|
    ensures from <= e <= |s|
    decreases |s| - from
  {
    if from < |s| && (if number then NumberChar(s[from]) else IdentChar(s[from])) then RunEnd(s, from + 1, number) else from
  }

  /** Where a string's quote closes; a backslash takes the next character with it; the line's end when it does not. */
  function StringEnd(s: string, j: nat, q: char): (e: nat)
    requires j <= |s| + 1
    ensures j <= |s| ==> j <= e <= |s|
    ensures e <= |s|
    decreases |s| + 2 - j
  {
    if j >= |s| then |s|
    else if s[j] == '\\' then StringEnd(s, j + 2, q)
    else if s[j] == q then j + 1
    else StringEnd(s, j + 1, q)
  }

  predicate OpensComment(spec: Lang, s: string, i: nat)
    requires i < |s|
  {
    && (exists l :: 0 <= l < |spec.line| && StartsAt(s, spec.line[l], i))
    && (!spec.hashAfterSpace || i == 0 || spec.space(s[i - 1]))
  }

  /** What starts at i, and where it ends. */
  function Scan(spec: Lang, s: string, i: nat): (r: (Kind, nat))
    requires i < |s| && (spec.block.Some? ==> spec.block.value.0 != "")
    ensures i < r.1 <= |s|
  {
    if spec.block.Some? && StartsAt(s, spec.block.value.0, i) then
      var close := Find(s, spec.block.value.1, i + |spec.block.value.0|);
      (Comment, if close == None then |s| else close.value + |spec.block.value.1|)
    else if OpensComment(spec, s, i) then (Comment, |s|)
    else if s[i] in spec.quotes then (Str, StringEnd(s, i + 1, s[i]))
    else if IdentStart(s[i]) then
      var end := RunEnd(s, i + 1, false);
      (if s[i..end] in spec.keywords then Keyword else Plain, end)
    else if spec.at && s[i] == '@' && i + 1 < |s| && IdentStart(s[i + 1]) then (Keyword, RunEnd(s, i + 2, false))
    else if spec.at && StartsAt(s, "!important", i) then (Keyword, i + 10)
    else if DigitChar(s[i]) || (s[i] == '.' && i + 1 < |s| && DigitChar(s[i + 1])) then (Number, RunEnd(s, i + 1, true))
    else (Plain, i + 1)
  }

  function Repeat(k: Kind, n: nat): (r: seq<Kind>)
    ensures |r| == n && forall i :: 0 <= i < n ==> r[i] == k
  {
    seq(n, _ => k)
  }

  /** The kind of every character from i on. */
  function Kinds(spec: Lang, s: string, i: nat): (r: seq<Kind>)
    requires i <= |s| && (spec.block.Some? ==> spec.block.value.0 != "")
    ensures |r| == |s| - i
    decreases |s| - i
  {
    if i == |s| then []
    else
      var (k, end) := Scan(spec, s, i);
      Repeat(k, end - i) + Kinds(spec, s, end)
  }

  // ---- Tokens

  function TextOf(ts: seq<Token>): string { if ts == [] then "" else TextOf(ts[..|ts| - 1]) + ts[|ts| - 1].s }

  function KindsOf(ts: seq<Token>): seq<Kind> {
    if ts == [] then [] else KindsOf(ts[..|ts| - 1]) + Repeat(ts[|ts| - 1].k, |ts[|ts| - 1].s|)
  }

  /** No empty token, and no two neighbours of one kind. */
  ghost predicate Tidy(ts: seq<Token>) {
    Full(ts) && forall i, j :: 0 <= i < j < |ts| && j == i + 1 ==> ts[i].k != ts[j].k
  }

  predicate Full(ts: seq<Token>) { forall i :: 0 <= i < |ts| ==> ts[i].s != "" }

  /** One more piece of text: the last token grows when it is of the same kind. */
  function Push(out: seq<Token>, k: Kind, text: string): seq<Token> {
    if text == "" then out
    else if out != [] && out[|out| - 1].k == k then out[|out| - 1 := Token(k, out[|out| - 1].s + text)]
    else out + [Token(k, text)]
  }

  lemma RepeatMore(k: Kind, m: nat, n: nat)
    ensures Repeat(k, m) + Repeat(k, n) == Repeat(k, m + n)
  {
  }

  lemma TextSnoc(head: seq<Token>, t: Token)
    ensures TextOf(head + [t]) == TextOf(head) + t.s && KindsOf(head + [t]) == KindsOf(head) + Repeat(t.k, |t.s|)
  {
    assert (head + [t])[..|head|] == head;
  }

  lemma PushTidy(out: seq<Token>, k: Kind, text: string)
    requires Tidy(out)
    ensures Tidy(Push(out, k, text))
  {
  }

  lemma PushIs(out: seq<Token>, k: Kind, text: string)
    requires Tidy(out)
    ensures Tidy(Push(out, k, text))
    ensures TextOf(Push(out, k, text)) == TextOf(out) + text
    ensures KindsOf(Push(out, k, text)) == KindsOf(out) + Repeat(k, |text|)
  {
    PushTidy(out, k, text);
    hide Tidy, TextOf, KindsOf, Repeat;
    if text == "" {
      RepeatNone(k);
    } else if out != [] && out[|out| - 1].k == k {
      var n := |out| - 1;
      var head, last := out[..n], out[n];
      assert out == head + [last] && Push(out, k, text) == head + [Token(k, last.s + text)];
      TextSnoc(head, last);
      TextSnoc(head, Token(k, last.s + text));
      RepeatMore(k, |last.s|, |text|);
    } else {
      TextSnoc(out, Token(k, text));
    }
  }

  lemma RepeatNone(k: Kind)
    ensures Repeat(k, 0) == []
  {
  }

  /** Tokens are decided by the text and the kinds of its characters. */
  lemma {:induction false} TokensUnique(a: seq<Token>, b: seq<Token>)
    requires Tidy(a) && Tidy(b) && TextOf(a) == TextOf(b) && KindsOf(a) == KindsOf(b)
    ensures a == b
    decreases |a|
  {
    KindsLength(a);
    KindsLength(b);
    if a != [] && b != [] {
      var m, n := |a| - 1, |b| - 1;
      KindsLength(a[..m]);
      KindsLength(b[..n]);
      if |a[m].s| < |b[n].s| { LastLonger(a, b); }
      if |b[n].s| < |a[m].s| { LastLonger(b, a); }
      SameEnds(TextOf(a[..m]), a[m].s, TextOf(b[..n]), b[n].s);
      SameKinds(KindsOf(a[..m]), Repeat(a[m].k, |a[m].s|), KindsOf(b[..n]), Repeat(b[n].k, |b[n].s|));
      assert Repeat(a[m].k, |a[m].s|)[0] == Repeat(b[n].k, |b[n].s|)[0];
      TokensUnique(a[..m], b[..n]);
      assert a == a[..m] + [a[m]] && b == b[..n] + [b[n]];
    }
  }

  lemma {:induction false} KindsLength(ts: seq<Token>)
    ensures |KindsOf(ts)| == |TextOf(ts)|
    ensures Full(ts) && ts != [] ==> |TextOf(ts)| > 0 && KindsOf(ts)[|KindsOf(ts)| - 1] == ts[|ts| - 1].k
  {
    if ts != [] { KindsLength(ts[..|ts| - 1]); }
  }

  lemma SameEnds(h: string, x: string, g: string, y: string)
    requires h + x == g + y && |x| == |y|
    ensures h == g && x == y
  {
    assert (h + x)[..|h|] == h && (h + x)[|h|..] == x && (g + y)[..|g|] == g && (g + y)[|g|..] == y;
  }

  lemma SameKinds(h: seq<Kind>, x: seq<Kind>, g: seq<Kind>, y: seq<Kind>)
    requires h + x == g + y && |x| == |y|
    ensures h == g && x == y
  {
    assert (h + x)[..|h|] == h && (h + x)[|h|..] == x && (g + y)[..|g|] == g && (g + y)[|g|..] == y;
  }

  /** Where one list's last token is shorter than the other's, its neighbour is of the same kind. */
  lemma LastLonger(a: seq<Token>, b: seq<Token>)
    requires Full(a) && Full(b) && TextOf(a) == TextOf(b) && KindsOf(a) == KindsOf(b) && a != [] && b != []
    requires |a[|a| - 1].s| < |b[|b| - 1].s|
    ensures |a| >= 2 && a[|a| - 2].k == a[|a| - 1].k
  {
    var m, n := |a| - 1, |b| - 1;
    var all := KindsOf(a);
    KindsLength(a);
    KindsLength(b);
    KindsLength(a[..m]);
    var x, y := Repeat(a[m].k, |a[m].s|), Repeat(b[n].k, |b[n].s|);
    assert all == KindsOf(a[..m]) + x && all == KindsOf(b[..n]) + y;
    var p := |all| - |x|;
    var q := |KindsOf(b[..n])|;
    assert all[p] == x[0] && all[p] == y[p - q] && all[p - 1] == y[p - 1 - q];
    assert |KindsOf(a[..m])| == p;
    NoKinds(a[..m]);
    assert all[p - 1] == KindsOf(a[..m])[p - 1];
  }

  lemma NoKinds(ts: seq<Token>)
    ensures KindsOf(ts) != [] ==> ts != []
  {
  }

  // ---- The scanner

  /** Up to `upTo` the tokens and the plain text not emitted yet say every character's kind. */
  ghost predicate Said(spec: Lang, s: string, out: seq<Token>, plainFrom: nat, i: nat)
    requires spec.block.Some? ==> spec.block.value.0 != ""
  {
    && plainFrom <= i <= |s| && Tidy(out)
    && TextOf(out) == s[..plainFrom]
    && KindsOf(out) + Repeat(Plain, i - plainFrom) + Kinds(spec, s, i) == Kinds(spec, s, 0)
  }

  lemma SaidStart(spec: Lang, s: string)
    requires spec.block.Some? ==> spec.block.value.0 != ""
    ensures Said(spec, s, [], 0, 0)
  {
    assert [] + Repeat(Plain, 0) + Kinds(spec, s, 0) == Kinds(spec, s, 0);
  }

  /** Plain text is only passed over. */
  lemma SaidPlain(spec: Lang, s: string, out: seq<Token>, plainFrom: nat, i: nat)
    requires (spec.block.Some? ==> spec.block.value.0 != "") && i < |s|
    requires Said(spec, s, out, plainFrom, i) && Scan(spec, s, i).0 == Plain
    ensures Said(spec, s, out, plainFrom, Scan(spec, s, i).1)
  {
    hide Scan, Tidy, KindsOf, TextOf;
    var end := Scan(spec, s, i).1;
    RepeatMore(Plain, i - plainFrom, end - i);
    Assoc(KindsOf(out), Repeat(Plain, i - plainFrom), Repeat(Plain, end - i), Kinds(spec, s, end));
  }

  lemma Assoc(a: seq<Kind>, b: seq<Kind>, c: seq<Kind>, d: seq<Kind>)
    ensures a + b + (c + d) == a + (b + c) + d
  {
  }

  /** A token: the plain text before it, then its own. */
  lemma SaidToken(spec: Lang, s: string, out: seq<Token>, plainFrom: nat, i: nat, out': seq<Token>)
    requires (spec.block.Some? ==> spec.block.value.0 != "") && i < |s|
    requires Said(spec, s, out, plainFrom, i)
    requires var (k, end) := Scan(spec, s, i); out' == Push(Push(out, Plain, s[plainFrom..i]), k, s[i..end])
    ensures var end := Scan(spec, s, i).1; Said(spec, s, out', end, end)
  {
    hide Scan, Tidy, KindsOf, TextOf, Push, Repeat;
    var (k, end) := Scan(spec, s, i);
    PushIs(out, Plain, s[plainFrom..i]);
    PushIs(Push(out, Plain, s[plainFrom..i]), k, s[i..end]);
    ThreeTexts(s, plainFrom, i, end);
    RepeatNone(Plain);
    Regroup(KindsOf(out) + Repeat(Plain, i - plainFrom), Repeat(k, end - i), Kinds(spec, s, end));
  }

  lemma ThreeTexts(s: string, a: nat, b: nat, c: nat)
    requires a <= b <= c <= |s|
    ensures s[..a] + s[a..b] + s[b..c] == s[..c]
  {
  }

  lemma Regroup(p: seq<Kind>, c: seq<Kind>, d: seq<Kind>)
    ensures p + (c + d) == p + c + [] + d
  {
  }

  lemma SaidEnd(spec: Lang, s: string, out: seq<Token>, plainFrom: nat)
    requires spec.block.Some? ==> spec.block.value.0 != ""
    requires Said(spec, s, out, plainFrom, |s|)
    ensures var r := Push(out, Plain, s[plainFrom..]);
            Tidy(r) && TextOf(r) == s && KindsOf(r) == Kinds(spec, s, 0)
  {
    hide Tidy, KindsOf, TextOf, Push;
    PushIs(out, Plain, s[plainFrom..]);
    assert s[..plainFrom] + s[plainFrom..] == s;
    assert KindsOf(out) + Repeat(Plain, |s| - plainFrom) + [] == KindsOf(out) + Repeat(Plain, |s| - plainFrom);
  }

  /** The first quote that no backslash takes, or the line's end; the last backslash may reach past it. */
  method FindStringEnd(s: string, i: nat, q: char) returns (e: nat)
    requires i < |s|
    ensures e == StringEnd(s, i + 1, q)
  {
    var j := i + 1;
    while j < |s|
      invariant j <= |s| + 1 && StringEnd(s, j, q) == StringEnd(s, i + 1, q)
    {
      if s[j] == '\\' { j := j + 2; continue; }
      if s[j] == q { return j + 1; }
      j := j + 1;
    }
    return |s|;
  }

  method RunOf(s: string, from: nat, number: bool) returns (e: nat)
    requires from <= |s|
    ensures e == RunEnd(s, from, number)
  {
    e := from;
    while e < |s| && (if number then NumberChar(s[e]) else IdentChar(s[e]))
      invariant from <= e <= |s| && RunEnd(s, e, number) == RunEnd(s, from, number)
    {
      e := e + 1;
    }
  }

  /** One step of the scan: the branches in the order they are tried. */
  method ScanAt(spec: Lang, s: string, i: nat) returns (k: Kind, end: nat)
    requires i < |s| && (spec.block.Some? ==> spec.block.value.0 != "")
    ensures (k, end) == Scan(spec, s, i)
  {
    hide Find, StartsAt, StringEnd, RunEnd;
    if spec.block.Some? && StartsAt(s, spec.block.value.0, i) {
      var close := Find(s, spec.block.value.1, i + |spec.block.value.0|);
      return Comment, if close == None then |s| else close.value + |spec.block.value.1|;
    }
    if OpensComment(spec, s, i) { return Comment, |s|; }
    if s[i] in spec.quotes {
      end := FindStringEnd(s, i, s[i]);
      return Str, end;
    }
    if IdentStart(s[i]) {
      end := RunOf(s, i + 1, false);
      return if s[i..end] in spec.keywords then Keyword else Plain, end;
    }
    if spec.at && s[i] == '@' && i + 1 < |s| && IdentStart(s[i + 1]) {
      end := RunOf(s, i + 2, false);
      return Keyword, end;
    }
    if spec.at && StartsAt(s, "!important", i) { return Keyword, i + 10; }
    if DigitChar(s[i]) || (s[i] == '.' && i + 1 < |s| && DigitChar(s[i + 1])) {
      end := RunOf(s, i + 1, true);
      return Number, end;
    }
    return Plain, i + 1;
  }

  method ScanLine(spec: Lang, s: string) returns (out: seq<Token>)
    requires spec.block.Some? ==> spec.block.value.0 != ""
    ensures Tidy(out) && TextOf(out) == s && KindsOf(out) == Kinds(spec, s, 0)
  {
    hide Scan, Push, Tidy, TextOf, KindsOf, Kinds, Said;
    out := [];
    var plainFrom, i := 0, 0;
    SaidStart(spec, s);
    while i < |s|
      invariant plainFrom <= i <= |s| && Said(spec, s, out, plainFrom, i)
      decreases |s| - i
    {
      var k, end := ScanAt(spec, s, i);
      if k == Plain {
        SaidPlain(spec, s, out, plainFrom, i);
      } else {
        ghost var was := out;
        out := Push(out, Plain, s[plainFrom..i]);
        out := Push(out, k, s[i..end]);
        SaidToken(spec, s, was, plainFrom, i, out);
        plainFrom := end;
      }
      i := end;
    }
    SaidEnd(spec, s, out, plainFrom);
    out := Push(out, Plain, s[plainFrom..]);
  }

  /**
    One line as tokens: none empty, neighbours of different kinds, together the line, and
    every character of the kind the reference gives it; all plain without a language or over `max`.
  */
  method Tokenize(s: string, lang: Option<Lang>, max: nat) returns (out: seq<Token>)
    requires lang.Some? && lang.value.block.Some? ==> lang.value.block.value.0 != ""
    ensures Tidy(out) && TextOf(out) == s
    ensures KindsOf(out) == if lang == None || |s| > max then Repeat(Plain, |s|) else Kinds(lang.value, s, 0)
  {
    hide Kinds, Repeat, Tidy, TextOf, KindsOf;
    if s == "" {
      NoTokens(lang);
      return [];
    }
    if lang == None || |s| > max {
      OneToken(s);
      return [Token(Plain, s)];
    }
    out := ScanLine(lang.value, s);
  }

  lemma NoTokens(lang: Option<Lang>)
    requires lang.Some? && lang.value.block.Some? ==> lang.value.block.value.0 != ""
    ensures Tidy([]) && TextOf([]) == "" && KindsOf([]) == [] && Repeat(Plain, 0) == []
    ensures lang.Some? ==> Kinds(lang.value, "", 0) == []
  {
  }

  lemma OneToken(s: string)
    requires s != ""
    ensures Tidy([Token(Plain, s)]) && TextOf([Token(Plain, s)]) == s && KindsOf([Token(Plain, s)]) == Repeat(Plain, |s|)
  {
    assert [Token(Plain, s)][..0] == [];
  }
}
