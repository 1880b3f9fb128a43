/**
  Folding transcript pages into the rows a peek holds (public/js/core/transcript-rows.js:
  `mergeTail`), on values, and the window of the log that the rows are.
*/
module TranscriptSpec {
  import opened Options

  const KEEP_ENTRIES := 400
  const PAGE_LIMIT := 50

  /** A row's line offset (None when it is not one), its role and the rest of it. */
  datatype Entry = Entry(off: Option<nat>, role: string, text: string)

  datatype Tail = Tail(entries: seq<Entry>, start: Option<nat>, end: Option<nat>, size: Option<nat>,
                       hasOlder: bool, dropped: bool, reset: bool)
  datatype Page = Page(entries: seq<Entry>, start: Option<nat>, end: Option<nat>, size: Option<nat>, reset: bool)
  datatype Dir = FromTail | Older | Newer

  const EMPTY := Tail([], None, None, None, false, false, false)

  // ---- De-duplication

  /** How many rows have this offset and role. */
  function Count(list: seq<Entry>, off: Option<nat>, role: string): nat {
    if list == [] then 0
    else
      var n := |list| - 1;
      Count(list[..n], off, role) + (if list[n].off == off && list[n].role == role then 1 else 0)
  }

  /** The rows of `b` that `a` does not hold already: the ith row of an offset and role is new when `a` has at most i of them. */
  function NewOf(a: seq<Entry>, b: seq<Entry>): seq<Entry> {
    if b == [] then []
    else
      var n := |b| - 1;
      var e := b[n];
      NewOf(a, b[..n]) + (if e.off == None || Count(b[..n], e.off, e.role) >= Count(a, e.off, e.role) then [e] else [])
  }

  function Last(list: seq<Entry>, keep: nat): (r: seq<Entry>)
    ensures |r| == if |list| > keep then keep else |list|
  {
    if |list| > keep then list[|list| - keep..] else list
  }

  function Or(a: Option<nat>, b: Option<nat>): Option<nat> { if a.Some? then a else b }

  /** Both lists, the second without what the first holds. */
  function Joined(prev: Tail, page: Page, dir: Dir): seq<Entry> {
    if dir == FromTail || prev.end == None then page.entries
    else if dir == Older then page.entries + NewOf(page.entries, prev.entries)
    else prev.entries + NewOf(prev.entries, page.entries)
  }

  function MergeTail(prev: Tail, page: Page, dir: Dir, keep: nat): Tail {
    if page.reset then EMPTY.(reset := true)
    else
      var all := Joined(prev, page, dir);
      var entries := Last(all, keep);
      var anew := dir == FromTail || prev.end == None;
      var start0 := if anew then page.start else if dir == Older then Or(page.start, prev.start) else prev.start;
      var end := if anew then page.end else if dir == Older then prev.end else Or(page.end, prev.end);
      var dropped := |all| > keep;
      var start := if dropped && entries != [] && entries[0].off.Some? then entries[0].off else start0;
      Tail(entries, start, end, Or(page.size, prev.size), start.Some? && start.value > 0, dropped, false)
  }

  // ---- What one answer makes of the rows held

  /** A reset forgets everything. */
  lemma ResetLaw(prev: Tail, page: Page, dir: Dir, keep: nat)
    requires page.reset
    ensures var t := MergeTail(prev, page, dir, keep);
            t.entries == [] && t.start == t.end == t.size == None && !t.hasOlder && !t.dropped && t.reset
  {
  }

  /** How many rows of the list have this offset and role. */
  function Alike(list: seq<Entry>, off: Option<nat>, role: string): nat { |Matches(list, off, role)| }

  function Matches(list: seq<Entry>, off: Option<nat>, role: string): set<nat> {
    set i: nat | i < |list| && list[i].off == off && list[i].role == role
  }

  lemma {:induction false} CountIsAlike(list: seq<Entry>, off: Option<nat>, role: string)
    ensures Count(list, off, role) == Alike(list, off, role)
  {
    if list != [] {
      var n := |list| - 1;
      CountIsAlike(list[..n], off, role);
      assert Matches(list, off, role) == Matches(list[..n], off, role) + (if list[n].off == off && list[n].role == role then {n} else {});
    }
  }

  /** A row of `b` is one `a` has not: it has no offset, or more like it stand before it in `b` than `a` holds. */
  predicate IsNew(a: seq<Entry>, b: seq<Entry>, i: nat)
    requires i < |b|
  {
    b[i].off == None || Alike(b[..i], b[i].off, b[i].role) >= Alike(a, b[i].off, b[i].role)
  }

  /** `r` is the new rows of `b`, at these places of it, and no other. */
  ghost predicate Picks(a: seq<Entry>, b: seq<Entry>, r: seq<Entry>, at: seq<nat>) {
    Taken(b, r, at) && forall k: nat :: k < |b| ==> (k in at <==> IsNew(a, b, k))
  }

  ghost predicate Taken(b: seq<Entry>, r: seq<Entry>, at: seq<nat>) {
    && |r| == |at|
    && (forall i :: 0 <= i < |at| ==> at[i] < |b| && r[i] == b[at[i]])
    && (forall i, j :: 0 <= i < j < |at| ==> at[i] < at[j])
  }

  lemma TakenMore(b: seq<Entry>, r: seq<Entry>, at: seq<nat>)
    requires b != [] && Taken(b[..|b| - 1], r, at)
    ensures var n := |b| - 1; Taken(b, r, at) && Taken(b, r + [b[n]], at + [n]) && forall k :: k in at ==> k < n
  {
  }

  lemma {:induction false} NewLaw(a: seq<Entry>, b: seq<Entry>) returns (at: seq<nat>)
    ensures Picks(a, b, NewOf(a, b), at)
  {
    hide IsNew, Count, Alike, Taken;
    if b == [] {
      at := [];
      NoneTaken();
    } else {
      var n := |b| - 1;
      var head := NewLaw(a, b[..n]);
      NewStep(a, b);
      TakenMore(b, NewOf(a, b[..n]), head);
      at := if IsNew(a, b, n) then head + [n] else head;
      forall k: nat | k < |b| ensures k in at <==> IsNew(a, b, k) {
        if k < n {
          NewPrefix(a, b, n, k);
          assert k in at <==> k in head;
        }
      }
      assert NewOf(a, b[..n]) + [] == NewOf(a, b[..n]);
    }
  }

  lemma NoneTaken()
    ensures Taken([], [], [])
  {
  }

  lemma NewPrefix(a: seq<Entry>, b: seq<Entry>, n: nat, k: nat)
    requires k < n <= |b|
    ensures IsNew(a, b, k) <==> IsNew(a, b[..n], k)
  {
    assert b[..n][..k] == b[..k];
  }

  lemma NewStep(a: seq<Entry>, b: seq<Entry>)
    requires b != []
    ensures var n := |b| - 1; NewOf(a, b) == NewOf(a, b[..n]) + (if IsNew(a, b, n) then [b[n]] else [])
  {
    hide Count, Alike;
    var n := |b| - 1;
    CountIsAlike(b[..n], b[n].off, b[n].role);
    CountIsAlike(a, b[n].off, b[n].role);
  }

  /** The answer opens the window: it is the first one or read from the tail. */
  predicate Opens(prev: Tail, dir: Dir) { dir == FromTail || prev.end == None }

  /** `all` is what both lists hold, in file order: the page's rows alone, or before the old ones that it has not, or its new ones after them. */
  ghost predicate Together(prev: Tail, page: Page, dir: Dir, all: seq<Entry>) {
    if Opens(prev, dir) then all == page.entries
    else if dir == Older then exists r, at :: Picks(page.entries, prev.entries, r, at) && all == page.entries + r
    else exists r, at :: Picks(prev.entries, page.entries, r, at) && all == prev.entries + r
  }

  /**
    Any other answer: the last `keep` of both lists' rows; the offsets on the side that was read are the
    answer's when it has them; a cut moves the start to the first row kept; older rows are those before the start.
  */
  lemma AnswerLaw(prev: Tail, page: Page, dir: Dir, keep: nat) returns (all: seq<Entry>)
    requires !page.reset
    ensures Together(prev, page, dir, all)
    ensures var t := MergeTail(prev, page, dir, keep);
            && !t.reset && (t.dropped <==> |all| > keep)
            && |t.entries| == (if t.dropped then keep else |all|) && t.entries == all[|all| - |t.entries|..]
            && t.end == (if Opens(prev, dir) then page.end else if dir == Newer && page.end.Some? then page.end else prev.end)
            && t.start == (if t.dropped && t.entries != [] && t.entries[0].off.Some? then t.entries[0].off
                           else if Opens(prev, dir) then page.start
                           else if dir == Older && page.start.Some? then page.start else prev.start)
            && t.size == (if page.size.Some? then page.size else prev.size)
            && (t.hasOlder <==> t.start.Some? && t.start.value > 0)
  {
    hide Picks, NewOf;
    all := Joined(prev, page, dir);
    if !Opens(prev, dir) {
      var (a, b) := if dir == Older then (page.entries, prev.entries) else (prev.entries, page.entries);
      var at := NewLaw(a, b);
    }
  }

  // ---- Reading a page twice

  lemma {:induction false} CountAppend(a: seq<Entry>, b: seq<Entry>, off: Option<nat>, role: string)
    ensures Count(a + b, off, role) == Count(a, off, role) + Count(b, off, role)
    decreases |b|
  {
    if b == [] {
      assert a + b == a;
    } else {
      assert (a + b)[..|a + b| - 1] == a + b[..|b| - 1];
      CountAppend(a, b[..|b| - 1], off, role);
    }
  }

  /** Together they hold as many of each as the one that holds more. */
  lemma {:induction false} CountNew(a: seq<Entry>, b: seq<Entry>, off: Option<nat>, role: string)
    requires off.Some?
    ensures var n, m := Count(a, off, role), Count(b, off, role); Count(NewOf(a, b), off, role) == if m > n then m - n else 0
  {
    if b != [] {
      var k := |b| - 1;
      var e := b[k];
      CountNew(a, b[..k], off, role);
      var tail := if e.off == None || Count(b[..k], e.off, e.role) >= Count(a, e.off, e.role) then [e] else [];
      CountAppend(NewOf(a, b[..k]), tail, off, role);
      CountOne(tail, e, off, role);
    }
  }

  lemma CountOne(tail: seq<Entry>, e: Entry, off: Option<nat>, role: string)
    requires tail == [e] || tail == []
    ensures Count(tail, off, role) == if tail == [e] && e.off == off && e.role == role then 1 else 0
  {
    if tail == [e] { assert tail[..0] == []; }
  }

  predicate Offsets(list: seq<Entry>) { forall i :: 0 <= i < |list| ==> list[i].off.Some? }

  lemma NothingNew(a: seq<Entry>, b: seq<Entry>)
    requires Offsets(b) && forall e :: e in b ==> Count(b, e.off, e.role) <= Count(a, e.off, e.role)
    ensures NewOf(a, b) == []
  {
    PrefixNothingNew(a, b, |b|);
    assert b[..|b|] == b;
  }

  lemma {:induction false} PrefixNothingNew(a: seq<Entry>, b: seq<Entry>, n: nat)
    requires n <= |b| && Offsets(b) && forall e :: e in b ==> Count(b, e.off, e.role) <= Count(a, e.off, e.role)
    ensures NewOf(a, b[..n]) == []
  {
    if n > 0 {
      PrefixNothingNew(a, b, n - 1);
      var e := b[n - 1];
      assert b[..n][..n - 1] == b[..n - 1];
      CountAppend(b[..n], b[n..], e.off, e.role);
      assert b == b[..n] + b[n..];
    }
  }

  /** A newer page read twice adds nothing the second time. */
  lemma NewerTwice(a: seq<Entry>, b: seq<Entry>)
    requires Offsets(b)
    ensures NewOf(a + NewOf(a, b), b) == []
  {
    var all := a + NewOf(a, b);
    forall e | e in b ensures Count(b, e.off, e.role) <= Count(all, e.off, e.role) {
      CountNew(a, b, e.off, e.role);
      CountAppend(a, NewOf(a, b), e.off, e.role);
    }
    NothingNew(all, b);
  }

  /** Rows that are not in `a` in their own list stay new after `a` is put before them. */
  lemma StillNew(a: seq<Entry>, b: seq<Entry>)
    requires Offsets(a)
    ensures NewOf(a, a + NewOf(a, b)) == NewOf(a, b)
  {
    SelfNew(a, NewOf(a, b));
    NothingOfSelf(a);
  }

  lemma {:induction false} SelfNew(a: seq<Entry>, x: seq<Entry>)
    ensures NewOf(a, a + x) == NewOf(a, a) + x
    decreases |x|
  {
    if x == [] {
      assert a + x == a;
    } else {
      var n := |x| - 1;
      var e := x[n];
      assert (a + x)[..|a + x| - 1] == a + x[..n];
      SelfNew(a, x[..n]);
      CountAppend(a, x[..n], e.off, e.role);
      assert x == x[..n] + [e];
    }
  }

  lemma NothingOfSelf(a: seq<Entry>)
    requires Offsets(a)
    ensures NewOf(a, a) == []
  {
    NothingNew(a, a);
  }

  /** Merging the same page again changes nothing, when the first time dropped nothing and every offset is one. */
  lemma MergeTwice(prev: Tail, page: Page, dir: Dir, keep: nat)
    requires Offsets(page.entries) && Offsets(prev.entries) && !page.reset
    requires !MergeTail(prev, page, dir, keep).dropped
    ensures var t := MergeTail(prev, page, dir, keep); MergeTail(t, page, dir, keep) == t
  {
    var t := MergeTail(prev, page, dir, keep);
    if dir != FromTail && prev.end.Some? {
      if dir == Older {
        StillNew(page.entries, prev.entries);
        NothingOfSelf(page.entries);
      } else {
        NewerTwice(prev.entries, page.entries);
      }
    } else if dir != FromTail {
      NothingOfSelf(page.entries);
    }
  }

  // ---- The log

  /** Rows in file order: every one at its line's offset. */
  ghost predicate Log(log: seq<Entry>) {
    && Offsets(log)
    && (forall i, j :: 0 <= i < j < |log| ==> log[i].off.value <= log[j].off.value)
  }

  /** How many rows stand before offset x. */
  function Lo(log: seq<Entry>, x: nat): (i: nat)
    requires Log(log)
    ensures i <= |log|
    ensures forall j :: 0 <= j < i ==> log[j].off.value < x
    ensures forall j :: i <= j < |log| ==> log[j].off.value >= x
  {
    if log == [] || log[0].off.value >= x then 0 else 1 + Lo(log[1..], x)
  }

  lemma {:induction false} NoneOf(list: seq<Entry>, off: Option<nat>, role: string)
    requires forall i :: 0 <= i < |list| ==> list[i].off != off
    ensures Count(list, off, role) == 0
  {
    if list != [] { NoneOf(list[..|list| - 1], off, role); }
  }

  /** Pages with no offset in common are put together whole. */
  lemma {:induction false} AllNew(a: seq<Entry>, b: seq<Entry>)
    requires forall i, j :: 0 <= i < |a| && 0 <= j < |b| ==> a[i].off != b[j].off
    ensures NewOf(a, b) == b
  {
    if b != [] {
      var n := |b| - 1;
      AllNew(a, b[..n]);
      NoneOf(a, b[n].off, b[n].role);
      assert b == b[..n] + [b[n]];
    }
  }

  /** What a room's answer holds: the rows of whole lines between its offsets, next to the window. */
  ghost predicate Faithful(log: seq<Entry>, t: Tail, page: Page, dir: Dir)
    requires Log(log)
  {
    && !page.reset && page.start.Some? && page.end.Some?
    && page.entries == Rows(log, page.start.value, page.end.value)
    && (t.end.Some? && dir == Newer ==> page.start == t.end && page.end.value >= t.end.value)
    && (t.end.Some? && dir == Older ==> t.start.Some? && page.end == t.start && page.start.value <= t.start.value)
  }

  function Rows(log: seq<Entry>, from: nat, to: nat): seq<Entry>
    requires Log(log)
  {
    if from <= to && Lo(log, from) <= Lo(log, to) then log[Lo(log, from)..Lo(log, to)] else []
  }

  lemma LoGrows(log: seq<Entry>, x: nat, y: nat)
    requires Log(log) && x <= y
    ensures Lo(log, x) <= Lo(log, y)
  {
    var i := Lo(log, y);
    assert i < |log| ==> log[i].off.value >= y;
  }

  lemma LoAt(log: seq<Entry>, a: nat)
    requires Log(log) && a < |log|
    ensures Lo(log, log[a].off.value) <= a
  {
  }

  /**
    The rows held are log[a..b], at most `keep` of them, up to the end offset; from the start
    offset on, unless a cut through a line left a full window without the line's first rows.
  */
  ghost predicate Window(log: seq<Entry>, t: Tail, keep: nat, a: nat, b: nat)
    requires Log(log)
  {
    && t.start.Some? && t.end.Some?
    && a <= b <= |log| && t.entries == log[a..b] && |t.entries| <= keep
    && b == Lo(log, t.end.value) && Lo(log, t.start.value) <= a
    && (a == Lo(log, t.start.value) || |t.entries| == keep)
  }

  function From(a: nat, b: nat, keep: nat): nat { if b >= a && b - a > keep then b - keep else a }

  lemma LastOf(log: seq<Entry>, a: nat, b: nat, keep: nat)
    requires a <= b <= |log|
    ensures Last(log[a..b], keep) == log[From(a, b, keep)..b]
  {
  }

  /** A first page opens a window. */
  lemma FirstWindow(log: seq<Entry>, t: Tail, page: Page, dir: Dir, keep: nat) returns (a: nat, b: nat)
    requires Log(log) && Faithful(log, t, page, dir) && keep >= 1 && (dir == FromTail || t.end == None)
    requires page.start.value <= page.end.value
    ensures Window(log, MergeTail(t, page, dir, keep), keep, a, b)
  {
    LoGrows(log, page.start.value, page.end.value);
    a, b := Lo(log, page.start.value), Lo(log, page.end.value);
    LastOf(log, a, b, keep);
    a := From(a, b, keep);
    if a < b { LoAt(log, a); }
  }

  /** Rows before an offset and rows from it on have no offset in common. */
  lemma ApartRows(log: seq<Entry>, a: nat, b: nat, c: nat, d: nat, x: nat)
    requires Log(log) && a <= b <= Lo(log, x) <= c <= d <= |log|
    ensures forall i, j :: 0 <= i < b - a && 0 <= j < d - c ==> log[a..b][i].off != log[c..d][j].off
  {
    forall i, j | 0 <= i < b - a && 0 <= j < d - c ensures log[a..b][i].off != log[c..d][j].off {
      assert log[a..b][i] == log[a + i] && log[c..d][j] == log[c + j];
    }
  }

  lemma NewerRows(log: seq<Entry>, a: nat, b: nat, c: nat, x: nat)
    requires Log(log) && a <= b == Lo(log, x) <= c <= |log|
    ensures log[a..b] + NewOf(log[a..b], log[b..c]) == log[a..c]
  {
    hide NewOf, Lo, Log;
    ApartRows(log, a, b, b, c, x);
    AllNew(log[a..b], log[b..c]);
    assert log[a..b] + log[b..c] == log[a..c];
  }

  lemma NewerWindow(log: seq<Entry>, t: Tail, page: Page, keep: nat, a: nat, b: nat) returns (a': nat, b': nat)
    requires Log(log) && Window(log, t, keep, a, b) && Faithful(log, t, page, Newer) && keep >= 1
    ensures Window(log, MergeTail(t, page, Newer, keep), keep, a', b')
  {
    hide Log, Lo, NewOf, Last;
    LoGrows(log, t.end.value, page.end.value);
    b' := Lo(log, page.end.value);
    assert page.entries == log[b..b'];
    NewerRows(log, a, b, b', t.end.value);
    LastOf(log, a, b', keep);
    a' := From(a, b', keep);
    if a' < b' { LoAt(log, a'); RowOff(log, a'); }
  }

  lemma RowOff(log: seq<Entry>, a: nat)
    requires Log(log) && a < |log|
    ensures log[a].off.Some?
  {
  }

  lemma OlderRows(log: seq<Entry>, d: nat, m: nat, a: nat, b: nat, x: nat)
    requires Log(log) && d <= m == Lo(log, x) <= a <= b <= |log|
    ensures log[d..m] + NewOf(log[d..m], log[a..b]) == log[d..m] + log[a..b]
    ensures a == m ==> log[d..m] + log[a..b] == log[d..b]
  {
    hide NewOf, Lo, Log;
    ApartRows(log, d, m, a, b, x);
    AllNew(log[d..m], log[a..b]);
    assert a == m ==> log[d..m] + log[a..b] == log[d..b];
  }

  lemma LastWhole(x: seq<Entry>, y: seq<Entry>, keep: nat)
    requires |y| >= keep
    ensures Last(x + y, keep) == Last(y, keep)
  {
  }

  lemma OlderWindow(log: seq<Entry>, t: Tail, page: Page, keep: nat, a: nat, b: nat) returns (a': nat, b': nat)
    requires Log(log) && Window(log, t, keep, a, b) && Faithful(log, t, page, Older) && keep >= 1
    ensures Window(log, MergeTail(t, page, Older, keep), keep, a', b')
  {
    hide Log, Lo, NewOf, Last;
    LoGrows(log, page.start.value, t.start.value);
    var d, m := Lo(log, page.start.value), Lo(log, t.start.value);
    assert page.entries == log[d..m];
    OlderRows(log, d, m, a, b, t.start.value);
    b' := b;
    if a == m {
      LastOf(log, d, b, keep);
      a' := From(d, b, keep);
    } else {
      LastWhole(page.entries, t.entries, keep);
      LastOf(log, a, b, keep);
      a' := a;
    }
    if a' < b { LoAt(log, a'); RowOff(log, a'); }
  }

  datatype Read = Read(page: Page, dir: Dir)

  function Fold(t: Tail, answers: seq<Read>, keep: nat): Tail {
    if answers == [] then t
    else
      var n := |answers| - 1;
      MergeTail(Fold(t, answers[..n], keep), answers[n].page, answers[n].dir, keep)
  }

  ghost predicate FaithfulAll(log: seq<Entry>, t: Tail, answers: seq<Read>, keep: nat)
    requires Log(log)
  {
    forall i :: 0 <= i < |answers| ==>
      Faithful(log, Fold(t, answers[..i], keep), answers[i].page, answers[i].dir) && answers[i].page.start.value <= answers[i].page.end.value
  }

  /** With one `keep` throughout, any run of faithful pages holds a contiguous part of the log, even after a cut through a line. */
  lemma {:induction false} RunWindow(log: seq<Entry>, answers: seq<Read>, keep: nat) returns (a: nat, b: nat)
    requires Log(log) && FaithfulAll(log, EMPTY, answers, keep) && keep >= 1 && answers != []
    ensures Window(log, Fold(EMPTY, answers, keep), keep, a, b)
  {
    hide Window, MergeTail, Faithful;
    var n := |answers| - 1;
    var head := answers[..n];
    var t := Fold(EMPTY, head, keep);
    var r := answers[n];
    forall i | 0 <= i < n ensures head[..i] == answers[..i] {}
    if n == 0 {
      a, b := FirstWindow(log, t, r.page, r.dir, keep);
    } else {
      a, b := RunWindow(log, head, keep);
      if r.dir == FromTail {
        a, b := FirstWindow(log, t, r.page, r.dir, keep);
      } else if r.dir == Newer {
        a, b := NewerWindow(log, t, r.page, keep, a, b);
      } else {
        a, b := OlderWindow(log, t, r.page, keep, a, b);
      }
    }
  }

  // ---- When `keep` grows

  ghost predicate Contiguous(log: seq<Entry>, entries: seq<Entry>) {
    exists a, b :: 0 <= a <= b <= |log| && entries == log[a..b]
  }

  ghost predicate NoTwins(log: seq<Entry>) { forall i, j :: 0 <= i < j < |log| ==> log[i] != log[j] }

  /**
    An older page on a window that starts inside a line, in a log without equal rows: the rows
    stay contiguous exactly when the page is empty or the window was full, so all of it is cut.
  */
  lemma OlderContiguousIff(log: seq<Entry>, t: Tail, page: Page, keep: nat, a: nat, b: nat)
    requires Log(log) && t.start.Some? && t.end.Some? && a < b <= |log| && t.entries == log[a..b] && Lo(log, t.start.value) <= a
    requires Faithful(log, t, page, Older) && keep >= 1 && NoTwins(log)
    ensures Contiguous(log, MergeTail(t, page, Older, keep).entries) <==>
            page.entries == [] || a == Lo(log, t.start.value) || |t.entries| >= keep
  {
    hide Log, Lo, NewOf, Last, Contiguous;
    LoGrows(log, page.start.value, t.start.value);
    var d, m := Lo(log, page.start.value), Lo(log, t.start.value);
    assert page.entries == log[d..m];
    OlderRows(log, d, m, a, b, t.start.value);
    if |t.entries| >= keep {
      LastWhole(page.entries, t.entries, keep);
      LastOf(log, a, b, keep);
      Part(log, From(a, b, keep), b);
    } else if page.entries == [] {
      assert page.entries + t.entries == t.entries;
      LastOf(log, a, b, keep);
      Part(log, From(a, b, keep), b);
    } else if a == m {
      LastOf(log, d, b, keep);
      Part(log, From(d, b, keep), b);
    } else {
      GapShows(log, d, m, a, b, keep);
    }
  }

  lemma Part(log: seq<Entry>, a: nat, b: nat)
    requires a <= b <= |log|
    ensures Contiguous(log, log[a..b])
  {
  }

  lemma SameRow(log: seq<Entry>, i: nat, j: nat)
    requires NoTwins(log) && i < |log| && j < |log| && log[i] == log[j]
    ensures i == j
  {
  }

  lemma GapShows(log: seq<Entry>, d: nat, m: nat, a: nat, b: nat, keep: nat)
    requires d < m < a < b <= |log| && b - a < keep && NoTwins(log)
    ensures !Contiguous(log, Last(log[d..m] + log[a..b], keep))
  {
    hide NoTwins;
    var all := log[d..m] + log[a..b];
    var r := Last(all, keep);
    var k := |r| - (b - a);
    assert r[k - 1] == log[m - 1] && r[k] == log[a];
    forall x, y | 0 <= x <= y <= |log| && r == log[x..y] ensures false {
      assert log[x + k - 1] == r[k - 1] && log[x + k] == r[k];
      SameRow(log, x + k - 1, m - 1);
      SameRow(log, x + k, a);
    }
  }

  /** The peek's own older button asks for more than it holds, so after a cut inside a line it leaves a gap. */
  lemma OlderButtonGap(log: seq<Entry>, t: Tail, page: Page, a: nat, b: nat)
    requires Log(log) && t.start.Some? && t.end.Some? && a < b <= |log| && t.entries == log[a..b] && Lo(log, t.start.value) < a
    requires Faithful(log, t, page, Older) && page.entries != []
    requires NoTwins(log)
    ensures var held := |t.entries|; var keep := if held + PAGE_LIMIT > KEEP_ENTRIES then held + PAGE_LIMIT else KEEP_ENTRIES;
            !Contiguous(log, MergeTail(t, page, Older, keep).entries)
  {
    var held := |t.entries|;
    OlderContiguousIff(log, t, page, if held + PAGE_LIMIT > KEEP_ENTRIES then held + PAGE_LIMIT else KEEP_ENTRIES, a, b);
  }
}
