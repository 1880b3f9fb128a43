/** What starts where in a line of a reply, by its characters (public/js/core/md.js: `inline`), and what its runs are. */
module InlineLaws {
  import opened Options
  import opened Strings
  import opened Inline

  // ---- What starts with a mark

  ghost predicate TickEnd(s: string, i: nat, k: nat) { First(s, "`", i + 1, k) && k > i + 1 }

  /** Code: up to the next back tick, unless that is the very next character. */
  lemma CodeLaw(e: Engine, s: string, i: nat, k: nat)
    requires i < |s| && s[i] == '`'
    ensures TickEnd(s, i, k) ==> k < |s| && Markup(e, s, i) == Some(([Code(s[i + 1..k])], k + 1))
    ensures Markup(e, s, i).Some? ==> exists j: nat :: TickEnd(s, i, j)
  {
    hide Find;
    FindIs(s, "`", i + 1);
    var end := Find(s, "`", i + 1);
    assert end.Some? && end.value > i + 1 ==> TickEnd(s, i, end.value);
  }

  ghost predicate StarsEnd(s: string, i: nat, k: nat) { First(s, "**", i + 2, k) && k > i + 2 }

  /** Bold: up to the next two stars, unless they follow at once; the texts and marks between, in bold. */
  lemma BoldLaw(e: Engine, s: string, i: nat, k: nat)
    requires i < |s| && Stands(s, "**", i)
    ensures StarsEnd(s, i, k) ==>
              k + 2 <= |s| && Markup(e, s, i).Some? && Markup(e, s, i).value.1 == k + 2
              && MarkRuns(Markup(e, s, i).value.0, true) && Spelled(Markup(e, s, i).value.0) == s[i + 2..k]
    ensures Markup(e, s, i).Some? ==> exists j: nat :: StarsEnd(s, i, j)
  {
    StandsTwo(s, "**", i);
    BoldIs(e, s, i);
    var end := Find(s, "**", i + 2);
    FindIs(s, "**", i + 2);
    hide Find, Split, MarkRuns, Spelled, Markup;
    if StarsEnd(s, i, k) { SplitConcatenates(s[i + 2..k], true); }
    if end.Some? && end.value > i + 2 { assert StarsEnd(s, i, end.value); }
  }

  lemma BoldIs(e: Engine, s: string, i: nat)
    requires i + 1 < |s| && s[i] == '*' && s[i + 1] == '*'
    ensures var end := Find(s, "**", i + 2);
            Markup(e, s, i) == if end.Some? && end.value > i + 2 then Some((Split(s[i + 2..end.value], true), end.value + 2)) else None
  {
    hide Find, Split;
  }

  /** A link's bracket is at `open`: its label ends at the next `](`, its address at the next `)`, and the label holds no `]`. */
  ghost predicate LinkTo(s: string, open: nat, close: nat, end: nat) {
    First(s, "](", open + 1, close) && First(s, ")", close + 2, end) && ']' !in s[open + 1..close]
  }

  lemma LinkEndIs(s: string, open: nat, close: nat, end: nat)
    ensures First(s, "](", open + 1, close) && First(s, ")", close + 2, end) <==> LinkEnd(s, open) == Some((close, end))
    ensures LinkEnd(s, open) == Some((close, end)) ==> end < |s|
  {
    hide Find, First;
    FindIs(s, "](", open + 1);
    FindIs(s, ")", close + 2);
  }

  lemma LinkIs(e: Engine, s: string, i: nat, open: nat)
    requires i < |s| && OpensLink(s, i) && open == if s[i] == '!' then i + 1 else i
    ensures Markup(e, s, i) == match LinkEnd(s, open)
                               case None => None
                               case Some(ends) =>
                                 if ']' in s[open + 1..ends.0] then None
                                 else Some(([if s[i] == '!' then Image(s[open + 1..ends.0])
                                             else Link(s[open + 1..ends.0], e.host(e.trim(s[ends.0 + 2..ends.1])))], ends.1 + 1))
  {
    hide LinkEnd;
  }

  /** A link or an image: its label, and the host of its trimmed address. */
  lemma LinkLaw(e: Engine, s: string, i: nat, close: nat, end: nat)
    requires i < |s| && (s[i] == '[' || Stands(s, "![", i))
    ensures var open := if s[i] == '[' then i else i + 1;
            && (LinkTo(s, open, close, end) ==>
                  end < |s| && Markup(e, s, i) == Some(([if s[i] == '[' then Link(s[open + 1..close], e.host(e.trim(s[close + 2..end])))
                                                         else Image(s[open + 1..close])], end + 1)))
            && (Markup(e, s, i).Some? ==> exists c: nat, d: nat :: LinkTo(s, open, c, d))
  {
    StandsTwo(s, "![", i);
    var open := if s[i] == '[' then i else i + 1;
    LinkIs(e, s, i, open);
    hide LinkEnd, First, Stands, Markup;
    LinkEndIs(s, open, close, end);
    var ends := LinkEnd(s, open);
    if ends.Some? {
      LinkEndIs(s, open, ends.value.0, ends.value.1);
      assert ']' !in s[open + 1..ends.value.0] ==> LinkTo(s, open, ends.value.0, ends.value.1);
    }
  }

  // ---- Bare addresses

  /** `http` or `https` in any case, as long as w, and `://` after it. */
  predicate Scheme(s: string, i: nat, w: nat) {
    && (w == 4 || w == 5) && i + w <= |s|
    && Letter(s[i], 'h') && Letter(s[i + 1], 't') && Letter(s[i + 2], 't') && Letter(s[i + 3], 'p') && (w == 5 ==> Letter(s[i + 4], 's'))
    && Stands(s, "://", i + w)
  }

  /** The address at i is n characters long: as many as an address has, up to 2000, and one at least after the `://`. */
  predicate Address(e: Engine, s: string, i: nat, w: nat, n: nat) {
    && Scheme(s, i, w) && w + 3 < n <= 2000 && i + n <= |s|
    && (forall k :: i + w + 3 <= k < i + n ==> UrlChar(e, s[k]))
    && (n == 2000 || i + n == |s| || !UrlChar(e, s[i + n]))
  }

  lemma {:induction false} UrlEndIs(e: Engine, s: string, i: nat)
    requires i <= |s|
    ensures var r := UrlEnd(e, s, i); (forall k :: i <= k < r ==> UrlChar(e, s[k])) && (r < |s| ==> !UrlChar(e, s[r]))
    decreases |s| - i
  {
    if i < |s| && UrlChar(e, s[i]) { UrlEndIs(e, s, i + 1); }
  }

  /** The address without its trailing punctuation. */
  predicate Bare(url: string, u: string) {
    && u <= url && u != "" && u[|u| - 1] !in TRAILING
    && forall k :: |u| <= k < |url| ==> url[k] in TRAILING
  }

  lemma {:induction false} StripIs(url: string)
    requires exists k :: 0 <= k < |url| && url[k] !in TRAILING
    ensures Bare(url, Strip(url))
  {
    if url[|url| - 1] in TRAILING {
      var k :| 0 <= k < |url| && url[k] !in TRAILING;
      assert url[..|url| - 1][k] == url[k];
      StripIs(url[..|url| - 1]);
    }
  }

  /** A line cut after 2000 characters. */
  function Ahead(s: string, i: nat): string
    requires i <= |s|
  {
    s[i..if i + MAX_LINE < |s| then i + MAX_LINE else |s|]
  }

  lemma SchemeAhead(s: string, i: nat, w: nat)
    requires i < |s|
    ensures Scheme(s, i, w) && w + 3 <= |Ahead(s, i)| <==> Scheme(Ahead(s, i), 0, w)
  {
    var t := Ahead(s, i);
    assert forall k :: 0 <= k < |t| ==> t[k] == s[i + k];
  }

  lemma BareUrlIs(e: Engine, s: string, i: nat, w: nat, n: nat)
    requires i < |s|
    ensures Address(e, s, i, w, n) ==> BareUrl(e, Ahead(s, i)) == Some(s[i..i + n])
    ensures BareUrl(e, Ahead(s, i)).Some? ==> exists v: nat :: Address(e, s, i, v, |BareUrl(e, Ahead(s, i)).value|)
  {
    hide UrlChar, UrlEnd, Scheme, Letter;
    var t := Ahead(s, i);
    assert forall k :: 0 <= k < |t| ==> t[k] == s[i + k];
    SchemeAhead(s, i, 4);
    SchemeAhead(s, i, 5);
    OneScheme(t);
    if Address(e, s, i, w, n) {
      SchemeAhead(s, i, w);
      UrlEndIs(e, t, w + 3);
      UrlEndAt(e, s, i, w, n);
      BareUrlAt(e, t, w);
      assert t[..n] == s[i..i + n];
    }
    if BareUrl(e, t).Some? {
      var v := SchemeOf(e, t);
      BareUrlAt(e, t, v);
      UrlEndIs(e, t, v + 3);
      SchemeAhead(s, i, v);
      assert Address(e, s, i, v, UrlEnd(e, t, v + 3));
    }
  }

  lemma UrlEndAt(e: Engine, s: string, i: nat, w: nat, n: nat)
    requires i < |s| && Address(e, s, i, w, n)
    ensures w + 3 <= |Ahead(s, i)| && UrlEnd(e, Ahead(s, i), w + 3) == n
  {
    hide UrlChar, UrlEnd, Scheme;
    var t := Ahead(s, i);
    assert forall k :: 0 <= k < |t| ==> t[k] == s[i + k];
    var r := UrlEnd(e, t, w + 3);
    UrlEndIs(e, t, w + 3);
    assert r < |t| ==> t[r] == s[i + r];
    assert n < |t| ==> t[n] == s[i + n];
  }

  lemma OneScheme(t: string)
    ensures !(Scheme(t, 0, 4) && Scheme(t, 0, 5))
  {
    assert "://"[0] == ':';
  }

  lemma BareUrlAt(e: Engine, t: string, w: nat)
    requires Scheme(t, 0, w)
    ensures w + 3 <= |t| && BareUrl(e, t) == if UrlEnd(e, t, w + 3) == w + 3 then None else Some(t[..UrlEnd(e, t, w + 3)])
  {
    hide UrlEnd;
    StandsIs(t, "://", w);
    assert t[w] == "://"[0];
  }

  lemma SchemeOf(e: Engine, t: string) returns (w: nat)
    requires BareUrl(e, t).Some?
    ensures Scheme(t, 0, w)
  {
    hide UrlEnd;
    w := if |t| > 4 && Letter(t[4], 's') then 5 else 4;
    StandsIs(t, "://", w);
  }

  /** An address that no word runs into is a link to itself, without its trailing punctuation. */
  lemma UrlLaw(e: Engine, s: string, i: nat, w: nat, n: nat)
    requires i < |s| && Letter(s[i], 'h') && (i == 0 || !WordChar(s[i - 1]))
    ensures Address(e, s, i, w, n) ==>
              exists u :: Bare(s[i..i + n], u) && Markup(e, s, i) == Some(([Link(u, e.host(u))], i + |u|))
    ensures Markup(e, s, i).Some? ==> exists v: nat, m: nat :: Address(e, s, i, v, m)
  {
    hide BareUrl, Strip, Scheme, Address;
    BareUrlIs(e, s, i, w, n);
    var url := BareUrl(e, Ahead(s, i));
    if url.Some? {
      assert url.value[3] !in TRAILING;
      StripIs(url.value);
    }
  }

  /** Nothing else starts anything. */
  lemma PlainLaw(e: Engine, s: string, i: nat)
    requires i < |s| && s[i] != '`' && !Stands(s, "**", i) && s[i] != '[' && !Stands(s, "![", i)
    requires !Letter(s[i], 'h') || (i > 0 && WordChar(s[i - 1]))
    ensures Markup(e, s, i) == None
  {
    StandsTwo(s, "**", i);
    StandsTwo(s, "![", i);
  }

  // ---- The runs

  ghost predicate NoneFrom(e: Engine, s: string, i: nat, k: nat)
    requires k <= |s|
  {
    forall j :: i <= j < k ==> Markup(e, s, j) == None
  }

  lemma {:induction false} PassedOver(e: Engine, s: string, i: nat, k: nat, buf: string)
    requires i <= k <= |s| && NoneFrom(e, s, i, k)
    ensures Runs(e, s, i, buf) == Runs(e, s, k, buf + s[i..k])
    decreases k - i
  {
    hide Markup;
    if i < k {
      PassedOver(e, s, i + 1, k, buf + [s[i]]);
      assert buf + [s[i]] + s[i + 1..k] == buf + s[i..k];
    } else {
      assert buf + s[i..k] == buf;
    }
  }

  lemma FlushIs(buf: string)
    ensures MarkRuns(Flush(buf), false) && Spelled(Flush(buf)) == buf
  {
    SplitConcatenates(buf, false);
  }

  /** Where nothing starts any more the rest of the line is plain: texts and marks that spell it. */
  lemma LastRuns(e: Engine, s: string, i: nat, buf: string)
    requires i <= |s| && NoneFrom(e, s, i, |s|)
    ensures MarkRuns(Runs(e, s, i, buf), false) && Spelled(Runs(e, s, i, buf)) == buf + s[i..]
  {
    hide Markup, MarkRuns, Spelled, Flush;
    PassedOver(e, s, i, |s|, buf);
    FlushIs(buf + s[i..]);
    assert s[i..|s|] == s[i..];
  }

  /** Up to the first place where something starts the line is plain; then come its runs, and then the runs of what is after it. */
  lemma NextRuns(e: Engine, s: string, i: nat, k: nat, buf: string) returns (plain: seq<Run>)
    requires i <= k < |s| && NoneFrom(e, s, i, k) && Markup(e, s, k).Some?
    ensures MarkRuns(plain, false) && Spelled(plain) == buf + s[i..k]
    ensures var m := Markup(e, s, k).value; Runs(e, s, i, buf) == plain + m.0 + Runs(e, s, m.1, "")
  {
    hide Markup, MarkRuns, Spelled, Flush;
    PassedOver(e, s, i, k, buf);
    FlushIs(buf + s[i..k]);
    plain := Flush(buf + s[i..k]);
  }

  // ---- Characters

  /** Which characters are marks, which an address does not hold, and which it does not end with. */
  lemma CharactersLaw(e: Engine, c: char)
    ensures c in MARKS <==> c == '\U{25A0}' || c == '\U{25B2}' || c == '\U{25CF}' || c == '\U{25CB}'
    ensures UrlChar(e, c) <==> !e.space(c) && c !in "<>()"
    ensures c in TRAILING <==> c in ".,;:!?'\""
  {
  }
}
