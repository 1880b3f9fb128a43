/**
  A run of a peek that ends with a gap: one page from the end, eight polls, then the older button.
  Every page is whole lines of at most PAGE_LIMIT rows, as the server cuts them.
*/
module TranscriptGap {
  import opened Options
  import opened TranscriptSpec

  const ROWS := 402

  /** Row 0 is a line of its own, rows 1 and 2 share the next line, every later row has its own line again. */
  function Off(i: nat): nat { if i == 2 then 10 else 10 * i }

  function Row(i: nat): Entry { Entry(Some(Off(i)), if i == 2 then "tool" else "user", "") }

  function LogOf(n: nat): (log: seq<Entry>)
    ensures |log| == n && forall i :: 0 <= i < n ==> log[i] == Row(i)
  {
    seq(n, i requires 0 <= i < n => Row(i))
  }

  lemma IsLog(n: nat)
    ensures Log(LogOf(n)) && NoTwins(LogOf(n))
  {
    var log := LogOf(n);
    forall i, j | 0 <= i < j < n ensures log[i] != log[j] { assert Row(i) != Row(j); }
  }

  lemma LoIs(n: nat, i: nat)
    requires i <= n && i != 2
    ensures Log(LogOf(n)) && Lo(LogOf(n), 10 * i) == i
  {
    IsLog(n);
    var m := Lo(LogOf(n), 10 * i);
    assert (m < n ==> LogOf(n)[m] == Row(m)) && (i < n ==> LogOf(n)[i] == Row(i));
  }

  /** The rows held after k answers end here: 41 rows from row 1 on, then 45 with each poll. */
  function EndOf(k: nat): nat { if k == 0 then 1 else 45 * k - 3 }

  function PageOf(from: nat, to: nat): Page
    requires from <= to <= ROWS
  {
    Page(LogOf(ROWS)[from..to], Some(10 * from), Some(10 * to), None, false)
  }

  function Answer(k: nat): Read
    requires k < 9
  {
    Read(PageOf(EndOf(k), EndOf(k + 1)), if k == 0 then FromTail else Newer)
  }

  function Answers(k: nat): (r: seq<Read>)
    requires k <= 9
    ensures |r| == k && forall i :: 0 <= i < k ==> r[i] == Answer(i)
  {
    if k == 0 then [] else Answers(k - 1) + [Answer(k - 1)]
  }

  function Held(k: nat): Tail
    requires k <= 9
  {
    if k == 0 then EMPTY
    else Tail(LogOf(ROWS)[if k == 9 then 2 else 1..EndOf(k)], Some(10), Some(10 * EndOf(k)), None, true, k == 9, false)
  }

  lemma PageFits(from: nat, to: nat, t: Tail, dir: Dir)
    requires from <= to <= ROWS && from != 2 && to != 2
    requires t.end.Some? && dir == Newer ==> t.end == Some(10 * from)
    requires t.end.Some? && dir == Older ==> t.start == Some(10 * to)
    ensures Log(LogOf(ROWS)) && Faithful(LogOf(ROWS), t, PageOf(from, to), dir)
  {
    LoIs(ROWS, from);
    LoIs(ROWS, to);
  }

  lemma Poll(k: nat)
    requires k < 9
    ensures MergeTail(Held(k), Answer(k).page, Answer(k).dir, KEEP_ENTRIES) == Held(k + 1)
  {
    hide NewOf;
    IsLog(ROWS);
    var log := LogOf(ROWS);
    if k > 0 {
      LoIs(ROWS, EndOf(k));
      NewerRows(log, 1, EndOf(k), EndOf(k + 1), 10 * EndOf(k));
    }
    LastOf(log, 1, EndOf(k + 1), KEEP_ENTRIES);
  }

  /** One more faithful answer. */
  lemma OneMore(log: seq<Entry>, answers: seq<Read>, r: Read, keep: nat)
    requires Log(log) && FaithfulAll(log, EMPTY, answers, keep)
    requires Faithful(log, Fold(EMPTY, answers, keep), r.page, r.dir) && r.page.start.value <= r.page.end.value
    ensures FaithfulAll(log, EMPTY, answers + [r], keep)
    ensures Fold(EMPTY, answers + [r], keep) == MergeTail(Fold(EMPTY, answers, keep), r.page, r.dir, keep)
  {
    hide MergeTail, Log, Rows;
    var all := answers + [r];
    assert all[..|answers|] == answers;
    forall i | 0 <= i < |answers| ensures all[..i] == answers[..i] && all[i] == answers[i] {}
  }

  lemma {:induction false} Reach(k: nat)
    requires k <= 9
    ensures Log(LogOf(ROWS)) && FaithfulAll(LogOf(ROWS), EMPTY, Answers(k), KEEP_ENTRIES)
    ensures Fold(EMPTY, Answers(k), KEEP_ENTRIES) == Held(k)
  {
    hide Faithful, MergeTail, Log, PageOf, Held;
    IsLog(ROWS);
    if k > 0 {
      Reach(k - 1);
      Poll(k - 1);
      HeldEnds(k - 1);
      PageFits(EndOf(k - 1), EndOf(k), Held(k - 1), Answer(k - 1).dir);
      SomeEnds(EndOf(k - 1), EndOf(k));
      OneMore(LogOf(ROWS), Answers(k - 1), Answer(k - 1), KEEP_ENTRIES);
    } else {
      NothingHeld();
    }
  }

  lemma NothingHeld()
    ensures Fold(EMPTY, Answers(0), KEEP_ENTRIES) == Held(0)
  {
  }

  lemma HeldEnds(k: nat)
    requires k <= 9
    ensures Held(k).end == if k == 0 then None else Some(10 * EndOf(k))
    ensures k > 0 ==> Held(k).start == Some(10) && Held(k).hasOlder
    ensures k == 9 ==> Held(k).entries == LogOf(ROWS)[2..ROWS]
  {
  }

  lemma SomeEnds(from: nat, to: nat)
    requires from <= to <= ROWS
    ensures PageOf(from, to).start == Some(10 * from) && PageOf(from, to).end == Some(10 * to)
  {
  }

  lemma FirstRow()
    ensures |PageOf(0, 1).entries| == 1
    ensures forall i :: 0 <= i < 9 ==> |Answers(9)[i].page.entries| <= PAGE_LIMIT
  {
  }

  /** The tail, eight polls and one tap on the older button: what the peek shows is no part of the transcript. */
  lemma GapReached()
    ensures var log := LogOf(ROWS);
            Log(log) && FaithfulAll(log, EMPTY, Answers(9), KEEP_ENTRIES) && (forall i :: 0 <= i < 9 ==> |Answers(9)[i].page.entries| <= PAGE_LIMIT)
    ensures var log := LogOf(ROWS);
            var t := Fold(EMPTY, Answers(9), KEEP_ENTRIES);
            && t.hasOlder && Faithful(log, t, PageOf(0, 1), Older) && |t.entries| + PAGE_LIMIT > KEEP_ENTRIES
            && !Contiguous(log, MergeTail(t, PageOf(0, 1), Older, |t.entries| + PAGE_LIMIT).entries)
  {
    hide Contiguous, MergeTail, Held, Log, Faithful, NoTwins, Fold, PageOf, FaithfulAll;
    Reach(9);
    HeldEnds(9);
    IsLog(ROWS);
    LoIs(ROWS, 1);
    FirstRow();
    PageFits(0, 1, Held(9), Older);
    OlderButtonGap(LogOf(ROWS), Held(9), PageOf(0, 1), 2, ROWS);
  }
}
