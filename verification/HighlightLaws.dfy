/** What starts where in a line of code, by its characters (public/js/core/hl.js: `tokenize`, `stringEnd`, `runEnd`). */
module HighlightLaws {
  import opened Options
  import opened Strings
  import opened Highlight

  // ---- Strings

  /** A backslash takes the character after it, unless it is itself taken. */
  predicate Escaped(s: string, from: nat, k: nat)
    requires k <= |s|
    decreases k
  {
    k > from && s[k - 1] == '\\' && !Escaped(s, from, k - 1)
  }

  predicate Closing(s: string, from: nat, q: char, k: nat) { k < |s| && s[k] == q && q != '\\' && !Escaped(s, from, k) }

  /** The string whose text begins at `from` ends after its first unescaped quote, or with the line. */
  ghost predicate StringTo(s: string, from: nat, q: char, e: nat) {
    || (from < e && Closing(s, from, q, e - 1) && forall k :: from <= k < e - 1 ==> !Closing(s, from, q, k))
    || (e == |s| && forall k :: from <= k < e ==> !Closing(s, from, q, k))
  }

  lemma {:induction false} StringEndFrom(s: string, from: nat, j: nat, q: char)
    requires from <= j <= |s| + 1 && (j <= |s| ==> !Escaped(s, from, j)) && forall k :: from <= k < j ==> !Closing(s, from, q, k)
    ensures StringTo(s, from, q, StringEnd(s, j, q))
    decreases |s| + 2 - j
  {
    if j < |s| {
      if s[j] == '\\' {
        if j + 1 < |s| { assert Escaped(s, from, j + 1); }
        StringEndFrom(s, from, j + 2, q);
      } else if s[j] != q {
        StringEndFrom(s, from, j + 1, q);
      } else {
        assert Closing(s, from, q, j);
      }
    }
  }

  // ---- Runs

  predicate InRun(c: char, number: bool) { WordChar(c) || c == (if number then '.' else '$') }

  /** A run goes on as long as its characters do. */
  ghost predicate RunTo(s: string, from: nat, number: bool, e: nat) {
    from <= e <= |s| && (forall k :: from <= k < e ==> InRun(s[k], number)) && (e < |s| ==> !InRun(s[e], number))
  }

  lemma {:induction false} RunEndIs(s: string, from: nat, number: bool)
    requires from <= |s|
    ensures RunTo(s, from, number, RunEnd(s, from, number))
    decreases |s| - from
  {
    if from < |s| && InRun(s[from], number) { RunEndIs(s, from + 1, number); }
  }

  // ---- What starts at a character

  predicate BlockStarts(l: Lang, s: string, i: nat) { l.block.Some? && Stands(s, l.block.value.0, i) }

  /** A line comment's opener; a # that needs a space before it has one, or is the line's first character. */
  predicate LineStarts(l: Lang, s: string, i: nat)
    requires i < |s|
  {
    (exists k :: 0 <= k < |l.line| && Stands(s, l.line[k], i)) && (l.hashAfterSpace && i > 0 ==> l.space(s[i - 1]))
  }

  predicate Comments(l: Lang, s: string, i: nat)
    requires i < |s|
  {
    BlockStarts(l, s, i) || LineStarts(l, s, i)
  }

  lemma OpenersAre(l: Lang, s: string, i: nat)
    requires i < |s|
    ensures OpensComment(l, s, i) <==> LineStarts(l, s, i)
    ensures l.block.Some? ==> (StartsAt(s, l.block.value.0, i) <==> BlockStarts(l, s, i))
  {
    hide Stands, StartsAt;
    forall p ensures StartsAt(s, p, i) <==> Stands(s, p, i) { StandsIs(s, p, i); }
  }

  /** The block comment that starts at i is closed at k. */
  ghost predicate Closes(l: Lang, s: string, i: nat, k: nat)
    requires l.block.Some?
  {
    First(s, l.block.value.1, i + |l.block.value.0|, k)
  }

  /** A block comment ends after the next closer behind its opener, any other comment and an unclosed one with the line. */
  lemma CommentLaw(l: Lang, s: string, i: nat)
    requires i < |s| && (l.block.Some? ==> l.block.value.0 != "")
    ensures Scan(l, s, i).0 == Comment <==> Comments(l, s, i)
    ensures BlockStarts(l, s, i) ==>
              var (close, end) := (l.block.value.1, Scan(l, s, i).1);
              && (forall k: nat :: Closes(l, s, i, k) ==> end == k + |close|)
              && ((forall k: nat :: !Closes(l, s, i, k)) ==> end == |s|)
    ensures LineStarts(l, s, i) && !BlockStarts(l, s, i) ==> Scan(l, s, i).1 == |s|
  {
    OpenersAre(l, s, i);
    hide Find, First, StartsAt, OpensComment, BlockStarts, LineStarts;
    if l.block.Some? {
      var found := Find(s, l.block.value.1, i + |l.block.value.0|);
      FindIs(s, l.block.value.1, i + |l.block.value.0|);
      assert found.Some? ==> Closes(l, s, i, found.value);
    }
  }

  /** A quote starts a string. */
  lemma StringLaw(l: Lang, s: string, i: nat)
    requires i < |s| && (l.block.Some? ==> l.block.value.0 != "") && !Comments(l, s, i) && s[i] in l.quotes
    ensures Scan(l, s, i).0 == Str && StringTo(s, i + 1, s[i], Scan(l, s, i).1)
  {
    OpenersAre(l, s, i);
    StringEndFrom(s, i + 1, i + 1, s[i]);
  }

  /** A word is a keyword when the language has it, and plain otherwise. */
  lemma WordLaw(l: Lang, s: string, i: nat)
    requires i < |s| && (l.block.Some? ==> l.block.value.0 != "") && !Comments(l, s, i) && s[i] !in l.quotes && IdentStart(s[i])
    ensures var (k, end) := Scan(l, s, i);
            RunTo(s, i + 1, false, end) && k == if s[i..end] in l.keywords then Keyword else Plain
  {
    OpenersAre(l, s, i);
    RunEndIs(s, i + 1, false);
  }

  predicate AtWord(l: Lang, s: string, i: nat)
    requires i < |s|
  {
    l.at && s[i] == '@' && i + 1 < |s| && IdentStart(s[i + 1])
  }

  predicate NumberStarts(s: string, i: nat)
    requires i < |s|
  {
    DigitChar(s[i]) || (s[i] == '.' && i + 1 < |s| && DigitChar(s[i + 1]))
  }

  /** In a style sheet an @word and `!important` are keywords; a digit, also behind a point, starts a number; all else is one plain character. */
  lemma OtherLaw(l: Lang, s: string, i: nat)
    requires i < |s| && (l.block.Some? ==> l.block.value.0 != "") && !Comments(l, s, i) && s[i] !in l.quotes && !IdentStart(s[i])
    ensures var (k, end) := Scan(l, s, i);
            if AtWord(l, s, i) then k == Keyword && RunTo(s, i + 2, false, end)
            else if l.at && Stands(s, "!important", i) then k == Keyword && end == i + 10
            else if NumberStarts(s, i) then k == Number && RunTo(s, i + 1, true, end)
            else k == Plain && end == i + 1
  {
    OpenersAre(l, s, i);
    StandsIs(s, "!important", i);
    if AtWord(l, s, i) { RunEndIs(s, i + 2, false); }
    RunEndIs(s, i + 1, true);
    hide Stands, StartsAt, OpensComment, RunTo, RunEnd;
  }

  /** From i on every character is of the kind that starts there, up to where it ends; and then it goes on from there. */
  lemma KindsLaw(l: Lang, s: string, i: nat, k: nat)
    requires i <= k < |s| && (l.block.Some? ==> l.block.value.0 != "")
    ensures Kinds(l, s, i)[k - i] == if k < Scan(l, s, i).1 then Scan(l, s, i).0 else Kinds(l, s, Scan(l, s, i).1)[k - Scan(l, s, i).1]
  {
    hide Scan;
  }
}
