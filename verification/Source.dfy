/** Frames of one connection before the source's kind is known (public/js/core/net.js: `createSource`). */
module Source {
  import opened Options
  import opened StableSort

  const PREKIND_BUFFER_MAX := 64

  /** A frame by what decides its way: the two that name the kind, one that claims a builder, any other. */
  datatype Sort = Hello | Fleet | Claims | Plain
  datatype Frame = Frame(sort: Sort, body: int)
  datatype Kind = Auto | Local | Hub

  predicate Decides(f: Frame) { f.sort == Hello || f.sort == Fleet }
  predicate Claiming(f: Frame) { f.sort == Claims }
  predicate Unclaimed(f: Frame) { !Claiming(f) }

  /** Where the first frame that names the kind stands, or the end. */
  function Deciding(frames: seq<Frame>): (i: nat)
    ensures i <= |frames| && forall j :: 0 <= j < i ==> !Decides(frames[j])
    ensures i < |frames| ==> Decides(frames[i])
  {
    if frames == [] || Decides(frames[0]) then 0 else 1 + Deciding(frames[1..])
  }

  function First(list: seq<Frame>, n: nat): seq<Frame> { if |list| > n then list[..n] else list }

  /** What the store is handed: unclaimed frames at once; then the deciding frame, the held ones, and the rest. */
  function Handed(frames: seq<Frame>): seq<Frame> {
    var k := Deciding(frames);
    if k == |frames| then Select(Unclaimed, frames) else Front(frames[..k], frames[k]) + frames[k + 1..]
  }

  function Front(before: seq<Frame>, deciding: Frame): seq<Frame> {
    Select(Unclaimed, before) + [deciding] + First(Select(Claiming, before), PREKIND_BUFFER_MAX)
  }

  function Held(frames: seq<Frame>): seq<Frame> {
    if Deciding(frames) == |frames| then First(Select(Claiming, frames), PREKIND_BUFFER_MAX) else []
  }

  function Dropped(frames: seq<Frame>): nat {
    var n := |Select(Claiming, frames[..Deciding(frames)])|;
    if n > PREKIND_BUFFER_MAX then n - PREKIND_BUFFER_MAX else 0
  }

  lemma DecidingMore(frames: seq<Frame>, f: Frame)
    ensures Deciding(frames + [f]) ==
            if Deciding(frames) < |frames| then Deciding(frames) else if Decides(f) then |frames| else |frames| + 1
  {
    var all := frames + [f];
    var k := Deciding(frames);
    assert forall i :: 0 <= i < |frames| ==> all[i] == frames[i];
    assert all[|frames|] == f;
  }

  lemma SelectMore(keep: Frame -> bool, frames: seq<Frame>, f: Frame)
    ensures Select(keep, frames + [f]) == Select(keep, frames) + (if keep(f) then [f] else [])
  {
    assert (frames + [f])[..|frames|] == frames;
  }

  class Source {
    var kind: Kind
    var pending: seq<Frame>
    var droppedBeforeKind: nat
    /** What `onMessage` was given on this connection. */
    var handed: seq<Frame>
    ghost var seen: seq<Frame>

    /** The state is what the frames of this connection make of it. */
    ghost predicate Valid()
      reads this
    {
      && handed == Handed(seen) && pending == Held(seen) && droppedBeforeKind == Dropped(seen)
      && (kind == Auto <==> Deciding(seen) == |seen|)
      && (kind != Auto ==> kind == if seen[Deciding(seen)].sort == Fleet then Hub else Local)
    }

    constructor ()
      ensures Valid() && seen == [] && kind == Auto
    {
      kind, pending, droppedBeforeKind, handed, seen := Auto, [], 0, [], [];
    }

    method Message(f: Frame)
      requires Valid()
      modifies this
      ensures Valid() && seen == old(seen) + [f]
    {
      hide Select, Deciding, Handed, Held, Dropped;
      if Deciding(seen) < |seen| { KnownStep(seen, f); } else if Decides(f) { DecideStep(seen, f); } else { EarlyStep(seen, f); }
      if kind == Auto {
        if Decides(f) {
          kind := if f.sort == Fleet then Hub else Local;
          handed := handed + [f];
          var held := pending;
          pending := [];
          ghost var was := handed;
          for i := 0 to |held|
            invariant handed == was + held[..i] && pending == [] && seen == old(seen)
            invariant kind == (if f.sort == Fleet then Hub else Local) && droppedBeforeKind == old(droppedBeforeKind)
          {
            handed := handed + [held[i]];
          }
        } else if Claiming(f) {
          if |pending| < PREKIND_BUFFER_MAX { pending := pending + [f]; } else { droppedBeforeKind := droppedBeforeKind + 1; }
        } else {
          handed := handed + [f];
        }
      } else {
        handed := handed + [f];
      }
      seen := seen + [f];
    }
  }

  /** One more frame once the kind is known. */
  lemma KnownStep(seen: seq<Frame>, f: Frame)
    requires Deciding(seen) < |seen|
    ensures var next := seen + [f];
            && Deciding(next) == Deciding(seen) && Handed(next) == Handed(seen) + [f]
            && Held(next) == Held(seen) == [] && Dropped(next) == Dropped(seen)
  {
    hide Select, Deciding, First, Front, Claiming, Unclaimed;
    var next, k := seen + [f], Deciding(seen);
    DecidingMore(seen, f);
    Around(seen, f, k);
    var front := Front(seen[..k], seen[k]);
    assert Handed(seen) == front + seen[k + 1..] && Handed(next) == front + next[k + 1..];
    Assoc(front, seen[k + 1..], [f]);
  }

  lemma Around(seen: seq<Frame>, f: Frame, k: nat)
    requires k < |seen|
    ensures var next := seen + [f]; next[..k] == seen[..k] && next[k] == seen[k] && next[k + 1..] == seen[k + 1..] + [f]
  {
  }

  lemma Assoc(a: seq<Frame>, b: seq<Frame>, c: seq<Frame>)
    ensures a + (b + c) == a + b + c
  {
  }

  /** The frame that names the kind: it goes first, then the held ones. */
  lemma DecideStep(seen: seq<Frame>, f: Frame)
    requires Deciding(seen) == |seen| && Decides(f)
    ensures var next := seen + [f];
            && Deciding(next) == |seen| && Handed(next) == Handed(seen) + [f] + Held(seen)
            && Held(next) == [] && Dropped(next) == Dropped(seen)
  {
    hide Select, Deciding, First, Claiming, Unclaimed, Front;
    var next := seen + [f];
    DecidingMore(seen, f);
    assert next[..|seen|] == seen && seen[..|seen|] == seen && next[|seen| + 1..] == [];
    assert Handed(next) == Front(seen, f) by { assert Front(seen, f) + [] == Front(seen, f); }
    FrontIs(seen, f);
  }

  lemma FrontIs(before: seq<Frame>, f: Frame)
    ensures Front(before, f) == Select(Unclaimed, before) + [f] + First(Select(Claiming, before), PREKIND_BUFFER_MAX)
  {
  }

  /** Any other frame before it: held when it claims a builder, while there is room, else handed on. */
  lemma EarlyStep(seen: seq<Frame>, f: Frame)
    requires Deciding(seen) == |seen| && !Decides(f)
    ensures var next := seen + [f];
            && Deciding(next) == |next|
            && Handed(next) == Handed(seen) + (if Claiming(f) then [] else [f])
            && Held(next) == (if Claiming(f) && |Held(seen)| < PREKIND_BUFFER_MAX then Held(seen) + [f] else Held(seen))
            && Dropped(next) == Dropped(seen) + (if Claiming(f) && |Held(seen)| >= PREKIND_BUFFER_MAX then 1 else 0)
  {
    hide Select, Deciding;
    var next := seen + [f];
    DecidingMore(seen, f);
    SelectMore(Unclaimed, seen, f);
    SelectMore(Claiming, seen, f);
    assert seen[..|seen|] == seen && next[..|next|] == next;
    var a := Select(Unclaimed, seen);
    assert a + [] == a;
    FirstMore(Select(Claiming, seen), f);
  }

  lemma FirstMore(list: seq<Frame>, f: Frame)
    ensures First(list + [f], PREKIND_BUFFER_MAX) ==
            if |list| < PREKIND_BUFFER_MAX then First(list, PREKIND_BUFFER_MAX) + [f] else First(list, PREKIND_BUFFER_MAX)
    ensures First(list + [], PREKIND_BUFFER_MAX) == First(list, PREKIND_BUFFER_MAX)
  {
    assert list + [] == list;
  }

  /** Until the kind is known, no frame that claims a builder is handed on. */
  lemma NoClaimBeforeKind(frames: seq<Frame>, i: nat)
    requires Deciding(frames) == |frames| && i < |Handed(frames)|
    ensures !Claiming(Handed(frames)[i])
  {
    assert frames[..|frames|] == frames;
    SelectKeeps(Unclaimed, frames);
  }

  lemma {:induction false} SelectKeeps(keep: Frame -> bool, frames: seq<Frame>)
    ensures forall i :: 0 <= i < |Select(keep, frames)| ==> keep(Select(keep, frames)[i])
  {
    if frames != [] { SelectKeeps(keep, frames[..|frames| - 1]); }
  }

  lemma {:induction false} SelectSplits(frames: seq<Frame>)
    ensures |Select(Unclaimed, frames)| + |Select(Claiming, frames)| == |frames|
  {
    if frames != [] { SelectSplits(frames[..|frames| - 1]); }
  }

  /** Every frame is handed on, held, or counted as dropped. */
  lemma NoneIsLost(frames: seq<Frame>)
    ensures |Handed(frames)| + |Held(frames)| + Dropped(frames) == |frames|
  {
    SelectSplits(frames[..Deciding(frames)]);
    assert frames[..|frames|] == frames;
  }

  // ---- Where every frame goes

  /** How many of the frames before i claim a builder; or do not. */
  function Rank(frames: seq<Frame>, i: nat, claims: bool): nat { |Ranked(frames, i, claims)| }

  function Ranked(frames: seq<Frame>, i: nat, claims: bool): set<nat> {
    set j: nat | j < i && j < |frames| && (frames[j].sort == Claims) == claims
  }

  lemma RankMore(frames: seq<Frame>, i: nat, claims: bool)
    requires i < |frames|
    ensures Rank(frames, i + 1, claims) == Rank(frames, i, claims) + (if (frames[i].sort == Claims) == claims then 1 else 0)
  {
    assert Ranked(frames, i + 1, claims) == Ranked(frames, i, claims) + (if (frames[i].sort == Claims) == claims then {i} else {});
  }

  function Chosen(frames: seq<Frame>, n: nat, claims: bool): seq<Frame>
    requires n <= |frames|
  {
    if claims then Select(Claiming, frames[..n]) else Select(Unclaimed, frames[..n])
  }

  lemma ChosenMore(frames: seq<Frame>, n: nat, claims: bool)
    requires n < |frames|
    ensures Chosen(frames, n + 1, claims) == Chosen(frames, n, claims) + (if (frames[n].sort == Claims) == claims then [frames[n]] else [])
  {
    hide Select;
    assert frames[..n + 1] == frames[..n] + [frames[n]];
    SelectMore(Claiming, frames[..n], frames[n]);
    SelectMore(Unclaimed, frames[..n], frames[n]);
  }

  lemma {:induction false} ChosenLength(frames: seq<Frame>, n: nat, claims: bool)
    requires n <= |frames|
    ensures |Chosen(frames, n, claims)| == Rank(frames, n, claims)
  {
    if n > 0 {
      hide Chosen, Rank;
      ChosenLength(frames, n - 1, claims);
      RankMore(frames, n - 1, claims);
      ChosenMore(frames, n - 1, claims);
    } else {
      assert Ranked(frames, 0, claims) == {};
    }
  }

  predicate At(list: seq<Frame>, i: int, f: Frame) { 0 <= i < |list| && list[i] == f }

  lemma {:induction false} ChosenAt(frames: seq<Frame>, n: nat, i: nat)
    requires i < n <= |frames|
    ensures var claims := frames[i].sort == Claims; At(Chosen(frames, n, claims), Rank(frames, i, claims), frames[i])
  {
    hide Chosen, Rank;
    var claims := frames[i].sort == Claims;
    ChosenMore(frames, n - 1, claims);
    ChosenLength(frames, n - 1, claims);
    if i < n - 1 { ChosenAt(frames, n - 1, i); }
  }

  function Cap(n: nat): nat { if n > 64 then 64 else n }

  predicate Early(frames: seq<Frame>, n: nat)
    requires n <= |frames|
  {
    forall i :: 0 <= i < n ==> frames[i].sort != Hello && frames[i].sort != Fleet
  }

  /** No frame names the kind: claimed ones are held, the first 64 in their order, and the others are handed on in theirs. */
  lemma EarlyLaw(frames: seq<Frame>, i: nat)
    requires Early(frames, |frames|)
    ensures var n, claimed := |frames|, Rank(frames, |frames|, true);
            && |Held(frames)| == Cap(claimed) && |Handed(frames)| == Rank(frames, n, false) && Dropped(frames) == claimed - Cap(claimed)
    ensures i < |frames| ==>
              if frames[i].sort == Claims then Rank(frames, i, true) < 64 ==> At(Held(frames), Rank(frames, i, true), frames[i])
              else At(Handed(frames), Rank(frames, i, false), frames[i])
  {
    hide Select, Rank;
    assert frames[..|frames|] == frames && !(exists j :: 0 <= j < |frames| && Decides(frames[j]));
    ChosenLength(frames, |frames|, true);
    ChosenLength(frames, |frames|, false);
    if i < |frames| { ChosenAt(frames, |frames|, i); }
  }

  /**
    The first frame k that names the kind: before it the unclaimed ones are handed on in their order,
    then it, then the first 64 claimed ones, then all that follow; nothing stays held.
  */
  lemma KindLaw(frames: seq<Frame>, k: nat, i: nat)
    requires k < |frames| && (frames[k].sort == Hello || frames[k].sort == Fleet) && Early(frames, k)
    ensures var u, c := Rank(frames, k, false), Cap(Rank(frames, k, true));
            && |Handed(frames)| == u + 1 + c + (|frames| - k - 1) && Held(frames) == []
            && Dropped(frames) == Rank(frames, k, true) - c
            && At(Handed(frames), u, frames[k])
            && (i < k && frames[i].sort != Claims ==> At(Handed(frames), Rank(frames, i, false), frames[i]))
            && (i < k && frames[i].sort == Claims && Rank(frames, i, true) < 64 ==> At(Handed(frames), u + 1 + Rank(frames, i, true), frames[i]))
            && (k < i < |frames| ==> At(Handed(frames), u + c + i - k, frames[i]))
  {
    hide Select, Rank, Deciding;
    FirstDecides(frames, k);
    ChosenLength(frames, k, true);
    ChosenLength(frames, k, false);
    if i < k { ChosenAt(frames, k, i); }
    var front := Front(frames[..k], frames[k]);
    assert Handed(frames) == front + frames[k + 1..];
  }

  lemma FirstDecides(frames: seq<Frame>, k: nat)
    requires k < |frames| && Decides(frames[k]) && forall i :: 0 <= i < k ==> !Decides(frames[i])
    ensures Deciding(frames) == k
  {
  }
}
