/** Shell quoting (public/js/core/review-format.js: `shq`, `pullCommands`) against a reader of shell words. */
module Shell {
  import opened Options

  // ---- Quoting

  /** Every quote closed, escaped and opened again. */
  function Escaped(s: string): string {
    if s == "" then "" else (if s[0] == '\'' then "'\\''" else [s[0]]) + Escaped(s[1..])
  }

  /** One single-quoted word. */
  function Shq(s: string): string { "'" + Escaped(s) + "'" }

  // ---- Reading words, section 2.2 of the POSIX.1-2017 Shell Command Language

  predicate Blank(c: char) { c == ' ' || c == '\t' }

  /** A character that stands for itself outside quotes in any position. */
  predicate Literal(c: char) {
    'A' <= c <= 'Z' || 'a' <= c <= 'z' || '0' <= c <= '9' || c == '-' || c == '_' || c == '.' || c == '/' || c == ':' || c == ',' || c == '@'
  }

  /**
    The word that starts here and what follows it: between single quotes every character stands for
    itself, a backslash outside them takes the next one literally, a blank or an & ends the word. None
    for anything else that is special to the shell, or a quote that is never closed.
  */
  function ReadWord(s: string, quoted: bool, word: string): Option<(string, string)> {
    if quoted then
      if s == "" then None
      else if s[0] == '\'' then ReadWord(s[1..], false, word)
      else ReadWord(s[1..], true, word + [s[0]])
    else if s == "" || Blank(s[0]) || s[0] == '&' then Some((word, s))
    else if s[0] == '\'' then ReadWord(s[1..], true, word)
    else if s[0] == '\\' then
      if |s| < 2 then None else ReadWord(s[2..], false, if s[1] == '\n' then word else word + [s[1]])
    else if Literal(s[0]) then ReadWord(s[1..], false, word + [s[0]])
    else None
  }

  predicate EndsWord(s: string) { s == "" || Blank(s[0]) || s[0] == '&' }

  /** The four characters of an escaped quote read as the quote. */
  lemma QuoteReads(tail: string, word: string)
    ensures ReadWord("'\\''" + tail, true, word) == ReadWord(tail, true, word + ['\''])
  {
    var all := "'\\''" + tail;
    var a := all[1..];
    assert a[0] == '\\' && a[1] == '\'';
    var b := a[2..];
    assert b[0] == '\'' && b[1..] == tail;
    assert ReadWord(all, true, word) == ReadWord(a, false, word);
    assert ReadWord(a, false, word) == ReadWord(b, false, word + [a[1]]);
    assert ReadWord(b, false, word + ['\'']) == ReadWord(b[1..], true, word + ['\'']);
  }

  lemma {:induction false} QuotedReads(s: string, rest: string, word: string)
    ensures ReadWord(Escaped(s) + "'" + rest, true, word) == ReadWord(rest, false, word + s)
    decreases |s|
  {
    var all := Escaped(s) + "'" + rest;
    if s == "" {
      assert all[1..] == rest && word + s == word;
    } else {
      QuotedReads(s[1..], rest, word + [s[0]]);
      var tail := Escaped(s[1..]) + "'" + rest;
      assert word + [s[0]] + s[1..] == word + s;
      if s[0] == '\'' {
        assert all == "'\\''" + tail;
        QuoteReads(tail, word);
      } else {
        assert all == [s[0]] + tail && all[1..] == tail;
      }
    }
  }

  /** A quoted string reads back as one word, whatever it holds. */
  lemma QuoteReadsBack(s: string, rest: string)
    requires EndsWord(rest)
    ensures ReadWord(Shq(s) + rest, false, "") == Some((s, rest))
  {
    QuotedReads(s, rest, "");
    var all := Shq(s) + rest;
    assert all[1..] == Escaped(s) + "'" + rest;
    assert "" + s == s;
  }

  lemma {:induction false} PlainReads(w: string, rest: string, word: string)
    requires EndsWord(rest) && forall i :: 0 <= i < |w| ==> Literal(w[i])
    ensures ReadWord(w + rest, false, word) == Some((word + w, rest))
  {
    if w == "" {
      assert w + rest == rest && word + w == word;
    } else {
      PlainReads(w[1..], rest, word + [w[0]]);
      assert (w + rest)[1..] == w[1..] + rest;
      assert word + [w[0]] + w[1..] == word + w;
    }
  }

  // ---- Command lines

  datatype Token = Word(text: string) | AndIf

  lemma {:induction false} ReadsOn(s: string, quoted: bool, word: string)
    ensures ReadWord(s, quoted, word).Some? ==> |ReadWord(s, quoted, word).value.1| <= |s|
    ensures ReadWord(s, quoted, word).Some? && !quoted && !EndsWord(s) ==> |ReadWord(s, quoted, word).value.1| < |s|
    decreases |s|
  {
    if quoted {
      if s != "" { ReadsOn(s[1..], s[0] != '\'', if s[0] == '\'' then word else word + [s[0]]); }
    } else if !EndsWord(s) {
      if s[0] == '\'' { ReadsOn(s[1..], true, word); }
      else if s[0] == '\\' { if |s| >= 2 { ReadsOn(s[2..], false, if s[1] == '\n' then word else word + [s[1]]); } }
      else if Literal(s[0]) { ReadsOn(s[1..], false, word + [s[0]]); }
    }
  }

  /** The words and the `&&` of a line. */
  function ReadLine(s: string): Option<seq<Token>>
    decreases |s|
  {
    if s == "" then Some([])
    else if Blank(s[0]) then ReadLine(s[1..])
    else if s[0] == '&' then
      if |s| < 2 || s[1] != '&' then None
      else
        var rest := ReadLine(s[2..]);
        if rest == None then None else Some([AndIf] + rest.value)
    else
      ReadsOn(s, false, "");
      var w := ReadWord(s, false, "");
      if w == None then None
      else
        var rest := ReadLine(w.value.1);
        if rest == None then None else Some([Word(w.value.0)] + rest.value)
  }

  /** A token as it is written: a plain word, a quoted one, or `&&`. */
  datatype Written = Bare(w: string) | Quoted(w: string) | Both

  function Print(t: Written): string {
    match t
    case Bare(w) => w
    case Quoted(w) => Shq(w)
    case Both => "&&"
  }

  function Meant(t: Written): Token { if t.Both? then AndIf else Word(t.w) }

  function PrintAll(ts: seq<Written>): string {
    if ts == [] then "" else if |ts| == 1 then Print(ts[0]) else Print(ts[0]) + " " + PrintAll(ts[1..])
  }

  function MeantAll(ts: seq<Written>): seq<Token> { if ts == [] then [] else [Meant(ts[0])] + MeantAll(ts[1..]) }

  predicate WellWritten(t: Written) { t.Bare? ==> t.w != "" && forall i :: 0 <= i < |t.w| ==> Literal(t.w[i]) }

  lemma OneRead(t: Written, rest: string)
    requires WellWritten(t) && EndsWord(rest)
    ensures ReadLine(Print(t) + rest) == if ReadLine(rest) == None then None else Some([Meant(t)] + ReadLine(rest).value)
  {
    var all := Print(t) + rest;
    match t
    case Bare(w) =>
      PlainReads(w, rest, "");
      assert "" + w == w;
      assert all[0] == w[0];
    case Quoted(w) =>
      QuoteReadsBack(w, rest);
      assert all[0] == '\'';
    case Both =>
      assert all[2..] == rest;
  }

  /** A line of words separated by single blanks reads as the words that were meant. */
  lemma {:induction false} LineReads(ts: seq<Written>)
    requires forall i :: 0 <= i < |ts| ==> WellWritten(ts[i])
    ensures ReadLine(PrintAll(ts)) == Some(MeantAll(ts))
  {
    if ts == [] {
    } else if |ts| == 1 {
      hide Print, Meant, ReadWord;
      OneRead(ts[0], "");
      assert Print(ts[0]) + "" == Print(ts[0]);
      assert ts[1..] == [];
      assert MeantAll(ts[1..]) == [];
    } else {
      hide Print, Meant, ReadWord;
      var rest := " " + PrintAll(ts[1..]);
      LineReads(ts[1..]);
      assert rest[1..] == PrintAll(ts[1..]);
      OneRead(ts[0], rest);
      assert Print(ts[0]) + " " + PrintAll(ts[1..]) == Print(ts[0]) + rest;
    }
  }

  // ---- The pull commands

  /** What the popover was given; the checks decide whether there is a command at all. */
  datatype Pull = Pull(repo: string, branch: string, laneId: string, pr: Option<string>, ciRepo: Option<string>, local: bool)

  function Dir(p: Pull): string { "../" + p.repo + "-" + p.laneId }

  /** The commands as words. */
  function Commands(p: Pull): seq<seq<Written>> {
    [if p.local then [Bare("git"), Bare("worktree"), Bare("add"), Quoted(Dir(p)), Quoted(p.branch)]
     else [Bare("git"), Bare("fetch"), Bare("origin"), Quoted(p.branch), Both,
           Bare("git"), Bare("worktree"), Bare("add"), Bare("--track"), Bare("-b"), Quoted(p.branch), Quoted(Dir(p)),
           Quoted("origin/" + p.branch)]]
    + (if p.pr.Some? && p.ciRepo.Some?
       then [[Bare("gh"), Bare("pr"), Bare("checkout"), Bare(p.pr.value), Bare("--repo"), Quoted(p.ciRepo.value)]] else [])
  }

  lemma {:induction false} PrintConcat(a: seq<Written>, b: seq<Written>)
    requires a != [] && b != []
    ensures PrintAll(a + b) == PrintAll(a) + (" " + PrintAll(b))
  {
    hide Print;
    if |a| == 1 {
      assert (a + b)[1..] == b && (a + b)[0] == a[0];
      assert Print(a[0]) + " " + PrintAll(b) == PrintAll(a) + (" " + PrintAll(b));
    } else {
      PrintConcat(a[1..], b);
      assert (a + b)[1..] == a[1..] + b;
      assert Print(a[0]) + " " + (PrintAll(a[1..]) + (" " + PrintAll(b))) == Print(a[0]) + " " + PrintAll(a[1..]) + (" " + PrintAll(b));
    }
  }

  lemma PrintOne(t: Written)
    ensures PrintAll([t]) == Print(t)
  {
  }

  lemma TwoWords(a: string, b: string, both: string)
    requires both == a + (" " + b)
    ensures PrintAll([Bare(a), Bare(b)]) == both
  {
    PrintConcat([Bare(a)], [Bare(b)]);
    assert [Bare(a)] + [Bare(b)] == [Bare(a), Bare(b)];
  }

  lemma ThreeWords(a: string, b: string, c: string, all: string)
    requires all == a + (" " + (b + (" " + c)))
    ensures PrintAll([Bare(a), Bare(b), Bare(c)]) == all
  {
    TwoWords(b, c, b + (" " + c));
    PrintConcat([Bare(a)], [Bare(b), Bare(c)]);
    assert [Bare(a)] + [Bare(b), Bare(c)] == [Bare(a), Bare(b), Bare(c)];
  }

  lemma Literals()
    ensures PrintAll([Bare("git"), Bare("worktree"), Bare("add")]) == "git worktree add"
    ensures PrintAll([Bare("git"), Bare("fetch"), Bare("origin")]) == "git fetch origin"
    ensures PrintAll([Bare("gh"), Bare("pr"), Bare("checkout")]) == "gh pr checkout"
  {
    hide PrintAll;
    ThreeWords("git", "worktree", "add", "git worktree add");
    ThreeWords("git", "fetch", "origin", "git fetch origin");
    ThreeWords("gh", "pr", "checkout", "gh pr checkout");
  }

  lemma TrackWords(a: string, b: string)
    requires a == "git worktree add" && b == "--track -b"
    ensures "&&" + (" " + (a + (" " + b))) == "&& git worktree add --track -b"
  {
  }

  lemma Track()
    ensures PrintAll([Both, Bare("git"), Bare("worktree"), Bare("add"), Bare("--track"), Bare("-b")]) == "&& git worktree add --track -b"
  {
    Literals();
    PrintOne(Both);
    var a, b := [Bare("git"), Bare("worktree"), Bare("add")], [Bare("--track"), Bare("-b")];
    assert [Both] + (a + b) == [Both, Bare("git"), Bare("worktree"), Bare("add"), Bare("--track"), Bare("-b")];
    hide PrintAll, Print;
    TwoWords("--track", "-b", "--track -b");
    PrintConcat(a, b);
    PrintConcat([Both], a + b);
    TrackWords(PrintAll(a), PrintAll(b));
  }

  lemma PrintLocal(dir: string, branch: string)
    ensures PrintAll([Bare("git"), Bare("worktree"), Bare("add"), Quoted(dir), Quoted(branch)])
            == "git worktree add " + Shq(dir) + " " + Shq(branch)
  {
    hide Shq;
    Literals();
    var head, tail := [Bare("git"), Bare("worktree"), Bare("add")], [Quoted(dir), Quoted(branch)];
    PrintConcat([Quoted(dir)], [Quoted(branch)]);
    PrintConcat(head, tail);
    assert head + tail == [Bare("git"), Bare("worktree"), Bare("add"), Quoted(dir), Quoted(branch)];
    Spaced("git worktree add", Shq(dir), Shq(branch));
  }

  lemma Spaced(a: string, b: string, c: string)
    ensures a + (" " + (b + (" " + c))) == a + " " + b + " " + c
  {
  }

  lemma Spaced4(a: string, b: string, c: string, d: string)
    ensures a + (" " + (b + (" " + (c + (" " + d))))) == a + " " + b + " " + c + " " + d
  {
  }

  lemma Spaced5(a: string, b: string, c: string, d: string, e: string, f: string)
    ensures a + (" " + (b + (" " + (c + (" " + (d + (" " + (e + (" " + f))))))))) == a + " " + b + " " + c + " " + d + " " + e + " " + f
  {
  }

  lemma PrintFetch(dir: string, branch: string, from: string)
    ensures PrintAll([Bare("git"), Bare("fetch"), Bare("origin"), Quoted(branch), Both,
                      Bare("git"), Bare("worktree"), Bare("add"), Bare("--track"), Bare("-b"), Quoted(branch), Quoted(dir), Quoted(from)])
            == "git fetch origin" + " " + Shq(branch) + " " + "&& git worktree add --track -b" + " " + Shq(branch) + " " + Shq(dir) + " " + Shq(from)
  {
    PrintOne(Quoted(branch));
    PrintOne(Quoted(dir));
    PrintOne(Quoted(from));
    hide Shq, PrintAll;
    Literals();
    Track();
    var a := [Bare("git"), Bare("fetch"), Bare("origin")];
    var c := [Both, Bare("git"), Bare("worktree"), Bare("add"), Bare("--track"), Bare("-b")];
    var ef := [Quoted(dir), Quoted(from)];
    PrintConcat([Quoted(dir)], [Quoted(from)]);
    assert [Quoted(dir)] + [Quoted(from)] == ef;
    PrintConcat([Quoted(branch)], ef);
    PrintConcat(c, [Quoted(branch)] + ef);
    PrintConcat([Quoted(branch)], c + ([Quoted(branch)] + ef));
    PrintConcat(a, [Quoted(branch)] + (c + ([Quoted(branch)] + ef)));
    assert a + ([Quoted(branch)] + (c + ([Quoted(branch)] + ef)))
           == [Bare("git"), Bare("fetch"), Bare("origin"), Quoted(branch), Both,
               Bare("git"), Bare("worktree"), Bare("add"), Bare("--track"), Bare("-b"), Quoted(branch), Quoted(dir), Quoted(from)];
    Spaced5(PrintAll(a), Shq(branch), PrintAll(c), Shq(branch), Shq(dir), Shq(from));
  }

  lemma PrintPr(pr: string, ciRepo: string)
    ensures PrintAll([Bare("gh"), Bare("pr"), Bare("checkout"), Bare(pr), Bare("--repo"), Quoted(ciRepo)])
            == "gh pr checkout" + " " + pr + " " + "--repo" + " " + Shq(ciRepo)
  {
    PrintOne(Bare(pr));
    PrintOne(Bare("--repo"));
    PrintOne(Quoted(ciRepo));
    hide Shq, PrintAll;
    Literals();
    var a := [Bare("gh"), Bare("pr"), Bare("checkout")];
    PrintConcat([Bare("--repo")], [Quoted(ciRepo)]);
    PrintConcat([Bare(pr)], [Bare("--repo"), Quoted(ciRepo)]);
    PrintConcat(a, [Bare(pr), Bare("--repo"), Quoted(ciRepo)]);
    assert [Bare("--repo")] + [Quoted(ciRepo)] == [Bare("--repo"), Quoted(ciRepo)];
    assert [Bare(pr)] + [Bare("--repo"), Quoted(ciRepo)] == [Bare(pr), Bare("--repo"), Quoted(ciRepo)];
    Spaced4(PrintAll(a), pr, "--repo", Shq(ciRepo));
    assert a + [Bare(pr), Bare("--repo"), Quoted(ciRepo)]
           == [Bare("gh"), Bare("pr"), Bare("checkout"), Bare(pr), Bare("--repo"), Quoted(ciRepo)];
  }

  /** The pull commands, when every check passed (`allowed`); else none. */
  method PullCommands(p: Pull, allowed: bool) returns (cmds: seq<string>)
    ensures !allowed ==> cmds == []
    ensures allowed ==> |cmds| == |Commands(p)| && forall i :: 0 <= i < |cmds| ==> cmds[i] == PrintAll(Commands(p)[i])
  {
    hide Shq, PrintAll;
    if !allowed { return []; }
    var dir := Dir(p);
    if p.local {
      PrintLocal(dir, p.branch);
      cmds := ["git worktree add " + Shq(dir) + " " + Shq(p.branch)];
    } else {
      PrintFetch(dir, p.branch, "origin/" + p.branch);
      cmds := ["git fetch origin" + " " + Shq(p.branch) + " " + "&& git worktree add --track -b" + " " + Shq(p.branch) + " "
               + Shq(dir) + " " + Shq("origin/" + p.branch)];
    }
    if p.pr.Some? && p.ciRepo.Some? {
      PrintPr(p.pr.value, p.ciRepo.value);
      cmds := cmds + ["gh pr checkout" + " " + p.pr.value + " " + "--repo" + " " + Shq(p.ciRepo.value)];
    }
  }

  /** A PR number as it is printed. */
  predicate IsNumber(d: string) { d != "" && forall i :: 0 <= i < |d| ==> '0' <= d[i] <= '9' }

  /** Whatever the names hold, every command splits into exactly the words that were meant. */
  lemma CommandsRead(p: Pull, i: nat)
    requires i < |Commands(p)| && (p.pr.Some? ==> IsNumber(p.pr.value))
    ensures ReadLine(PrintAll(Commands(p)[i])) == Some(MeantAll(Commands(p)[i]))
  {
    hide Dir;
    var ts := Commands(p)[i];
    forall k | 0 <= k < |ts| ensures WellWritten(ts[k]) {}
    LineReads(ts);
  }

  lemma AllWritten(p: Pull)
    ensures forall k :: 0 <= k < |Commands(p)[0]| ==> WellWritten(Commands(p)[0][k])
  {
    hide Dir;
  }

  lemma {:induction false} MeantAt(ts: seq<Written>, i: nat)
    requires i < |ts|
    ensures |MeantAll(ts)| == |ts| && MeantAll(ts)[i] == Meant(ts[i])
    decreases |ts|
  {
    if |ts| > 1 { MeantAt(ts[1..], if i == 0 then 0 else i - 1); }
  }

  lemma MeantIs(ts: seq<Written>, want: seq<Token>)
    requires ts != [] && |want| == |ts| && forall i :: 0 <= i < |ts| ==> Meant(ts[i]) == want[i]
    ensures MeantAll(ts) == want
  {
    hide MeantAll, Meant;
    MeantAt(ts, 0);
    forall i | 0 <= i < |ts| ensures MeantAll(ts)[i] == want[i] { MeantAt(ts, i); }
  }

  /** The directory beside the repository that a lane's branch is checked out in. */
  function Beside(p: Pull): string { "../" + p.repo + "-" + p.laneId }

  /**
    A shell reads the worktree command as these words, the directory and every ref one argument each
    whatever they hold: a branch of the same machine is added, any other fetched first and tracked.
  */
  lemma WorktreeCommandWords(p: Pull)
    ensures |Commands(p)| >= 1
    ensures ReadLine(PrintAll(Commands(p)[0])) == Some(
              if p.local then [Word("git"), Word("worktree"), Word("add"), Word(Beside(p)), Word(p.branch)]
              else [Word("git"), Word("fetch"), Word("origin"), Word(p.branch), AndIf,
                    Word("git"), Word("worktree"), Word("add"), Word("--track"), Word("-b"), Word(p.branch), Word(Beside(p)),
                    Word("origin/" + p.branch)])
  {
    hide ReadLine, PrintAll, MeantAll;
    var ts := Commands(p)[0];
    AllWritten(p);
    LineReads(ts);
    MeantIs(ts, if p.local then [Word("git"), Word("worktree"), Word("add"), Word(Beside(p)), Word(p.branch)]
                else [Word("git"), Word("fetch"), Word("origin"), Word(p.branch), AndIf,
                      Word("git"), Word("worktree"), Word("add"), Word("--track"), Word("-b"), Word(p.branch), Word(Beside(p)),
                      Word("origin/" + p.branch)]);
  }

  /** There is a second command exactly for a lane with a PR in a known repository, and it checks that PR out there. */
  lemma PrCommandWords(p: Pull)
    requires p.pr.Some? ==> IsNumber(p.pr.value)
    ensures |Commands(p)| == if p.pr.Some? && p.ciRepo.Some? then 2 else 1
    ensures p.pr.Some? && p.ciRepo.Some? ==>
              ReadLine(PrintAll(Commands(p)[1])) ==
              Some([Word("gh"), Word("pr"), Word("checkout"), Word(p.pr.value), Word("--repo"), Word(p.ciRepo.value)])
  {
    hide ReadLine, PrintAll, MeantAll, Dir;
    if p.pr.Some? && p.ciRepo.Some? {
      CommandsRead(p, 1);
      MeantIs(Commands(p)[1], [Word("gh"), Word("pr"), Word("checkout"), Word(p.pr.value), Word("--repo"), Word(p.ciRepo.value)]);
    }
  }
}
