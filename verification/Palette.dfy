/** A label cut at its match (public/js/ui/palette.js: `markPieces`). */
module Palette {
  import opened Options
  import opened FuzzySpec
  import opened Fuzzy

  datatype Piece = Piece(text: string, hit: bool)

  function AllText(ps: seq<Piece>): string { if ps == [] then "" else AllText(ps[..|ps| - 1]) + ps[|ps| - 1].text }

  /** What the hit pieces spell. */
  function HitText(ps: seq<Piece>): string {
    if ps == [] then ""
    else HitText(ps[..|ps| - 1]) + (if ps[|ps| - 1].hit then ps[|ps| - 1].text else "")
  }

  lemma Nothing(s: string)
    ensures AllText([]) == "" && HitText([]) == "" && Kept([], |s|) == [] && Picked(s, []) == ""
  {
  }

  lemma OneMore(ps: seq<Piece>, p: Piece)
    ensures AllText(ps + [p]) == AllText(ps) + p.text
    ensures HitText(ps + [p]) == HitText(ps) + (if p.hit then p.text else "")
  {
    assert (ps + [p])[..|ps|] == ps;
  }

  /** The ranges that are cut out: those that start where the last one ended or later and lie in the text. */
  function Kept(ranges: seq<Range>, n: nat): (r: seq<Range>)
    ensures forall i :: 0 <= i < |r| ==> 0 <= r[i].0 < r[i].1 <= n
  {
    if ranges == [] then []
    else
      var head, last := Kept(ranges[..|ranges| - 1], n), ranges[|ranges| - 1];
      var at := if head == [] then 0 else head[|head| - 1].1;
      if last.0 >= at && last.1 > last.0 && last.1 <= n then head + [last] else head
  }

  function EndOf(kept: seq<Range>): int { if kept == [] then 0 else kept[|kept| - 1].1 }

  lemma KeptOne(ranges: seq<Range>, n: nat, i: nat)
    requires i < |ranges|
    ensures var kept, r := Kept(ranges[..i], n), ranges[i];
            Kept(ranges[..i + 1], n) == if r.0 >= EndOf(kept) && r.1 > r.0 && r.1 <= n then kept + [r] else kept
  {
    assert ranges[..i + 1][..i] == ranges[..i];
  }

  function Picked(s: string, ranges: seq<Range>): string
    requires forall i :: 0 <= i < |ranges| ==> 0 <= ranges[i].0 < ranges[i].1 <= |s|
  {
    if ranges == [] then ""
    else
      var k := |ranges| - 1;
      Picked(s, ranges[..k]) + s[ranges[k].0..ranges[k].1]
  }

  lemma PickOne(s: string, kept: seq<Range>, r: Range)
    requires forall i :: 0 <= i < |kept| ==> 0 <= kept[i].0 < kept[i].1 <= |s|
    requires 0 <= r.0 < r.1 <= |s|
    ensures Picked(s, kept + [r]) == Picked(s, kept) + s[r.0..r.1]
  {
    assert (kept + [r])[..|kept|] == kept;
  }

  lemma Cut(s: string, a: nat, b: nat)
    requires a <= b <= |s|
    ensures s[..a] + s[a..b] == s[..b]
  {
  }

  /** Cutting at any ranges loses no text, and exactly the kept ranges are hits. */
  method MarkPieces(text: string, ranges: seq<Range>) returns (out: seq<Piece>)
    ensures AllText(out) == text
    ensures HitText(out) == Picked(text, Kept(ranges, |text|))
    ensures out != [] && (text != "" ==> forall i :: 0 <= i < |out| ==> out[i].text != "")
    ensures text == "" ==> out == [Piece("", false)]
  {
    hide Kept, AllText, HitText, Picked;
    out := [];
    var at := 0;
    Nothing(text);
    assert ranges[..0] == [] && text[..0] == "";
    for i := 0 to |ranges|
      invariant 0 <= at <= |text| && at == EndOf(Kept(ranges[..i], |text|))
      invariant AllText(out) == text[..at] && HitText(out) == Picked(text, Kept(ranges[..i], |text|))
      invariant forall k :: 0 <= k < |out| ==> out[k].text != ""
      invariant out == [] <==> at == 0
    {
      var (a, b) := ranges[i];
      KeptOne(ranges, |text|, i);
      if a >= at && b > a && b <= |text| {
        PickOne(text, Kept(ranges[..i], |text|), ranges[i]);
        if a > at {
          Cut(text, at, a);
          OneMore(out, Piece(text[at..a], false));
          out := out + [Piece(text[at..a], false)];
        }
        Cut(text, a, b);
        OneMore(out, Piece(text[a..b], true));
        out := out + [Piece(text[a..b], true)];
        at := b;
      }
    }
    assert ranges[..|ranges|] == ranges;
    Cut(text, at, |text|);
    if at < |text| || out == [] {
      OneMore(out, Piece(text[at..], false));
      out := out + [Piece(text[at..], false)];
    }
  }

  // ---- On the ranges of a match

  lemma {:induction false} NeatKept(ranges: seq<Range>, n: nat)
    requires Neat(ranges) && forall i :: 0 <= i < |ranges| ==> ranges[i].1 <= n
    ensures Kept(ranges, n) == ranges
  {
    if ranges == [] {
    } else {
      hide Kept;
      var k := |ranges| - 1;
      NeatKept(ranges[..k], n);
      assert ranges == ranges[..k] + [ranges[k]] && ranges[..k + 1] == ranges;
      KeptOne(ranges, n, k);
      assert EndOf(ranges[..k]) <= ranges[k].0;
    }
  }

  lemma {:induction false} LastPosition(ranges: seq<Range>, n: nat)
    requires Neat(ranges) && forall i :: 0 <= i < |Positions(ranges)| ==> Positions(ranges)[i] < n
    ensures forall i :: 0 <= i < |ranges| ==> ranges[i].1 <= n
  {
    if ranges != [] {
      var k := |ranges| - 1;
      var head, tail := Positions(ranges[..k]), Run(ranges[k]);
      assert Positions(ranges) == head + tail;
      forall i | 0 <= i < |head| ensures head[i] < n { assert head[i] == Positions(ranges)[i]; }
      LastPosition(ranges[..k], n);
      assert forall i :: 0 <= i < k ==> ranges[i] == ranges[..k][i];
      assert Positions(ranges)[|head| + |tail| - 1] == ranges[k].1 - 1;
    }
  }

  function At(s: string, pos: seq<int>): (r: string)
    requires forall i :: 0 <= i < |pos| ==> 0 <= pos[i] < |s|
    ensures |r| == |pos|
  {
    seq(|pos|, i requires 0 <= i < |pos| => s[pos[i]])
  }

  lemma {:induction false} PickedAt(s: string, ranges: seq<Range>)
    requires Neat(ranges) && forall i :: 0 <= i < |ranges| ==> ranges[i].1 <= |s|
    ensures forall i :: 0 <= i < |Positions(ranges)| ==> 0 <= Positions(ranges)[i] < |s|
    ensures Picked(s, ranges) == At(s, Positions(ranges))
  {
    if ranges == [] {
    } else {
      hide Neat, Positions, Picked;
      var k := |ranges| - 1;
      NeatHead(ranges);
      PickedAt(s, ranges[..k]);
      PositionsSnoc(ranges[..k], ranges[k]);
      PickOne(s, ranges[..k], ranges[k]);
      assert s[ranges[k].0..ranges[k].1] == At(s, Run(ranges[k]));
      assert At(s, Positions(ranges[..k]) + Run(ranges[k])) == At(s, Positions(ranges[..k])) + At(s, Run(ranges[k]));
    }
  }

  /** The marked pieces of a best match spell the query up to case, and put together they are the label. */
  method MarkMatch(u: Alphabet, query: string, title: string) returns (out: Option<seq<Piece>>)
    ensures out == None <==> !Subsequence(u, Clip(query, MAX_Q), Clip(title, MAX_S))
    ensures out.Some? ==>
              var q, hits := Clip(query, MAX_Q), HitText(out.value);
              AllText(out.value) == title && |hits| == |q| && forall i :: 0 <= i < |q| ==> Same(u, q[i], hits[i])
  {
    hide Kept, Picked, Positions, Subsequence, Maximum, Score;
    var ranges := FuzzyRanges(u, query, title);
    if ranges == None { return None; }
    ghost var pos :| BestRanges(u, Clip(query, MAX_Q), Clip(title, MAX_S), ranges.value, pos);
    var pieces := MarkPieces(title, ranges.value);
    SpellsTheQuery(u, Clip(query, MAX_Q), title, ranges.value, pos);
    return Some(pieces);
  }

  lemma SpellsTheQuery(u: Alphabet, q: string, title: string, ranges: seq<Range>, pos: seq<nat>)
    requires Neat(ranges) && Positions(ranges) == AsInts(pos) && Alignment(u, q, Clip(title, MAX_S), pos)
    ensures var hits := Picked(title, Kept(ranges, |title|));
            |hits| == |q| && forall i :: 0 <= i < |q| ==> Same(u, q[i], hits[i])
  {
    LastPosition(ranges, |title|);
    NeatKept(ranges, |title|);
    PickedAt(title, ranges);
  }

  /** A match's ranges cover exactly as many characters as the query has. */
  lemma CoverTheQuery(u: Alphabet, q: string, s: string, ranges: seq<Range>, pos: seq<nat>)
    requires Neat(ranges) && Positions(ranges) == AsInts(pos) && Alignment(u, q, s, pos)
    ensures Total(ranges) == |q|
  {
    TotalIsLength(ranges);
  }

  function Total(ranges: seq<Range>): int {
    if ranges == [] then 0
    else Total(ranges[..|ranges| - 1]) + ranges[|ranges| - 1].1 - ranges[|ranges| - 1].0
  }

  lemma {:induction false} TotalIsLength(ranges: seq<Range>)
    requires Neat(ranges)
    ensures Total(ranges) == |Positions(ranges)|
  {
    if ranges != [] { TotalIsLength(ranges[..|ranges| - 1]); }
  }
}
