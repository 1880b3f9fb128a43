/**
  Counting lanes for the segment bars and the rail (public/js/ui/components.js: `laneMix`, `mixBucket`,
  `barSegs`; public/js/ui/rail.js: `addMix`, the totals of `railRows`; public/js/core/marks.js: `itemP`).
*/
module LaneMix {
  import opened Options

  /** A session as it is counted: its state, the state in lower case, and its flags. */
  datatype Item = Item(state: string, low: string, danger: bool, awaitingApproval: bool, stuck: bool, stale: bool)

  datatype Bucket = P1 | P2 | Working | Done | Idle | Dead

  /** The lamp priorities of the colour rule. */
  datatype Lamp = Red | Amber | Run | Calm | Off

  function MixBucket(x: Item): Bucket {
    if x.awaitingApproval then P1
    else if x.low == "dead" || x.stale then Dead
    else if x.low == "waiting_permission" || x.low == "permission" then P1
    else if x.low == "waiting_question" || x.low == "question" then P2
    else if x.low == "working" then Working
    else if x.low == "done" then Done
    else Idle
  }

  const AMBER_STATES: set<string> :=
    {"waiting_permission", "permission", "approval", "waiting_question", "question", "need", "stuck"}
  const RED_STATES: set<string> := {"blocked", "down", "danger"}

  function MarkP(state: string): Lamp {
    if state in AMBER_STATES then Amber
    else if state in RED_STATES then Red
    else if state == "working" then Run
    else if state == "done" then Calm
    else Off
  }

  function ItemP(x: Item): Lamp {
    if x.danger then Red
    else
      var own := MarkP(x.state);
      if own == Red || own == Amber then own else if x.awaitingApproval || x.stuck then Amber else own
  }

  /** `p`: the worst trouble of the live lanes, red before amber. */
  datatype Mix = Mix(p1: nat, p2: nat, run: nat, ok: nat, off: nat, dead: nat, total: nat, p: Option<Lamp>, t1: nat, t2: nat, calmRun: nat)

  const NO_MIX := Mix(0, 0, 0, 0, 0, 0, 0, None, 0, 0, 0)

  function Worse(p: Option<Lamp>, q: Option<Lamp>): Option<Lamp> {
    if q == Some(Red) || (q == Some(Amber) && p != Some(Red)) then q else p
  }

  function Add(a: Mix, b: Mix): Mix {
    Mix(a.p1 + b.p1, a.p2 + b.p2, a.run + b.run, a.ok + b.ok, a.off + b.off, a.dead + b.dead, a.total + b.total,
        Worse(a.p, b.p), a.t1 + b.t1, a.t2 + b.t2, a.calmRun + b.calmRun)
  }

  /** How many of the lanes fall in the bucket; which are live and marked so; and working in no trouble. */
  function InBucket(lanes: seq<Item>, k: Bucket): nat {
    if lanes == [] then 0 else InBucket(lanes[..|lanes| - 1], k) + (if MixBucket(lanes[|lanes| - 1]) == k then 1 else 0)
  }

  predicate Live(x: Item) { MixBucket(x) != Dead }

  function Marked(lanes: seq<Item>, q: Lamp): nat {
    if lanes == [] then 0
    else Marked(lanes[..|lanes| - 1], q) + (if Live(lanes[|lanes| - 1]) && ItemP(lanes[|lanes| - 1]) == q then 1 else 0)
  }

  predicate CalmRunning(x: Item) { MixBucket(x) == Working && ItemP(x) != Red && ItemP(x) != Amber }

  function CalmRuns(lanes: seq<Item>): nat {
    if lanes == [] then 0 else CalmRuns(lanes[..|lanes| - 1]) + (if CalmRunning(lanes[|lanes| - 1]) then 1 else 0)
  }

  /** The mix, count by count. */
  function MixOf(lanes: seq<Item>): Mix {
    Mix(InBucket(lanes, P1), InBucket(lanes, P2), InBucket(lanes, Working), InBucket(lanes, Done), InBucket(lanes, Idle),
        InBucket(lanes, Dead), |lanes|,
        if Marked(lanes, Red) > 0 then Some(Red) else if Marked(lanes, Amber) > 0 then Some(Amber) else None,
        Marked(lanes, Red), Marked(lanes, Amber), CalmRuns(lanes))
  }

  lemma OneMore(lanes: seq<Item>, i: nat)
    requires i < |lanes|
    ensures var x := lanes[i]; var head, more := lanes[..i], lanes[..i + 1];
            && (forall k :: InBucket(more, k) == InBucket(head, k) + (if MixBucket(x) == k then 1 else 0))
            && (forall q :: Marked(more, q) == Marked(head, q) + (if Live(x) && ItemP(x) == q then 1 else 0))
            && CalmRuns(more) == CalmRuns(head) + (if CalmRunning(x) then 1 else 0)
  {
    assert lanes[..i + 1][..i] == lanes[..i];
  }

  /** One pass over the lanes counts them all. */
  method CountLanes(lanes: seq<Item>) returns (mix: Mix)
    ensures mix == MixOf(lanes)
  {
    hide InBucket, Marked, CalmRuns, MixBucket, ItemP;
    mix := NO_MIX;
    NoLanes();
    assert lanes[..0] == [];
    for i := 0 to |lanes|
      invariant mix == MixOf(lanes[..i])
    {
      OneMore(lanes, i);
      var x := lanes[i];
      var k := MixBucket(x);
      match k {
        case P1 => mix := mix.(p1 := mix.p1 + 1);
        case P2 => mix := mix.(p2 := mix.p2 + 1);
        case Working => mix := mix.(run := mix.run + 1);
        case Done => mix := mix.(ok := mix.ok + 1);
        case Idle => mix := mix.(off := mix.off + 1);
        case Dead => mix := mix.(dead := mix.dead + 1);
      }
      mix := mix.(total := mix.total + 1);
      if k == Dead { continue; }
      var q := ItemP(x);
      if q == Red {
        mix := mix.(t1 := mix.t1 + 1);
      } else if q == Amber {
        mix := mix.(t2 := mix.t2 + 1);
      } else if k == Working {
        mix := mix.(calmRun := mix.calmRun + 1);
      }
      if q == Red || (q == Amber && mix.p != Some(Red)) { mix := mix.(p := Some(q)); }
    }
    assert lanes[..|lanes|] == lanes;
  }

  lemma NoLanes()
    ensures MixOf([]) == NO_MIX
  {
  }

  lemma {:induction false} Concat(a: seq<Item>, b: seq<Item>)
    ensures forall k :: InBucket(a + b, k) == InBucket(a, k) + InBucket(b, k)
    ensures forall q :: Marked(a + b, q) == Marked(a, q) + Marked(b, q)
    ensures CalmRuns(a + b) == CalmRuns(a) + CalmRuns(b)
    decreases |b|
  {
    if b == [] {
      assert a + b == a;
    } else {
      assert (a + b)[..|a + b| - 1] == a + b[..|b| - 1];
      Concat(a, b[..|b| - 1]);
    }
  }

  /** The mix of two lists together is the sum of their mixes. */
  lemma MixAdds(a: seq<Item>, b: seq<Item>)
    ensures MixOf(a + b) == Add(MixOf(a), MixOf(b))
  {
    Concat(a, b);
  }

  // ---- The rail

  function Flat(builders: seq<seq<Item>>): seq<Item> {
    if builders == [] then [] else Flat(builders[..|builders| - 1]) + builders[|builders| - 1]
  }

  /** The ALL row: the builders' mixes added up are the mix of every lane. */
  method RailTotal(builders: seq<seq<Item>>) returns (total: Mix)
    ensures total == MixOf(Flat(builders))
  {
    hide MixOf;
    total := NO_MIX;
    NoLanes();
    assert builders[..0] == [] && Flat([]) == [];
    for i := 0 to |builders|
      invariant total == MixOf(Flat(builders[..i]))
    {
      assert builders[..i + 1][..i] == builders[..i];
      var mix := CountLanes(builders[i]);
      MixAdds(Flat(builders[..i]), builders[i]);
      total := Add(total, mix);
    }
    assert builders[..|builders|] == builders;
  }

  // ---- The bar

  datatype Seg = Seg(p: Lamp, n: int)

  function Some0(p: Lamp, n: int): seq<Seg> { if n > 0 then [Seg(p, n)] else [] }

  /** The segments, worst first; grey for every lane that is none of the others. */
  function BarSegs(m: Mix): seq<Seg> {
    var rest := m.total - m.t1 - m.t2 - m.calmRun;
    Some0(Red, m.t1) + Some0(Amber, m.t2) + Some0(Run, m.calmRun) + Some0(Off, if rest > 0 then rest else 0)
  }

  function Sum(segs: seq<Seg>): int { if segs == [] then 0 else segs[0].n + Sum(segs[1..]) }

  lemma {:induction false} SumConcat(a: seq<Seg>, b: seq<Seg>)
    ensures Sum(a + b) == Sum(a) + Sum(b)
  {
    if a == [] {
      assert a + b == b;
    } else {
      assert (a + b)[1..] == a[1..] + b;
      SumConcat(a[1..], b);
    }
  }

  lemma Sum0(p: Lamp, n: int)
    ensures Sum(Some0(p, n)) == if n > 0 then n else 0
  {
    if n > 0 { assert [Seg(p, n)][1..] == []; }
  }

  lemma {:induction false} MarkedFits(lanes: seq<Item>)
    ensures Marked(lanes, Red) + Marked(lanes, Amber) + CalmRuns(lanes) <= |lanes|
    ensures InBucket(lanes, P1) + InBucket(lanes, P2) + InBucket(lanes, Working) + InBucket(lanes, Done)
            + InBucket(lanes, Idle) + InBucket(lanes, Dead) == |lanes|
  {
    if lanes != [] { MarkedFits(lanes[..|lanes| - 1]); }
  }

  /** The bar of any lanes accounts for every lane once. */
  lemma SegsSumToTotal(lanes: seq<Item>)
    ensures var m := MixOf(lanes);
            && Sum(BarSegs(m)) == m.total == |lanes|
            && m.p1 + m.p2 + m.run + m.ok + m.off + m.dead == m.total
  {
    MarkedFits(lanes);
    var m := MixOf(lanes);
    var rest := m.total - m.t1 - m.t2 - m.calmRun;
    var a, b, c, d := Some0(Red, m.t1), Some0(Amber, m.t2), Some0(Run, m.calmRun), Some0(Off, if rest > 0 then rest else 0);
    SumConcat(a, b);
    SumConcat(a + b, c);
    SumConcat(a + b + c, d);
    Sum0(Red, m.t1);
    Sum0(Amber, m.t2);
    Sum0(Run, m.calmRun);
    Sum0(Off, if rest > 0 then rest else 0);
  }

  // ---- What is counted, by the lanes' own fields

  /** How many of the lanes are so. */
  function Tally(lanes: seq<Item>, f: Item -> bool): nat { |Which(lanes, f)| }

  function Which(lanes: seq<Item>, f: Item -> bool): set<nat> { set i: nat | i < |lanes| && f(lanes[i]) }

  lemma TallyMore(lanes: seq<Item>, f: Item -> bool)
    requires lanes != []
    ensures var n := |lanes| - 1; Tally(lanes, f) == Tally(lanes[..n], f) + (if f(lanes[n]) then 1 else 0)
  {
    var n := |lanes| - 1;
    assert Which(lanes, f) == Which(lanes[..n], f) + (if f(lanes[n]) then {n} else {});
  }

  predicate DeadLane(x: Item) { !x.awaitingApproval && (x.low == "dead" || x.stale) }
  predicate Reads(x: Item, states: set<string>) { !x.awaitingApproval && !DeadLane(x) && x.low in states }
  predicate AsksLeave(x: Item) { x.awaitingApproval || Reads(x, {"waiting_permission", "permission"}) }
  predicate AsksBack(x: Item) { Reads(x, {"waiting_question", "question"}) }
  predicate AtWork(x: Item) { Reads(x, {"working"}) }
  predicate AtEnd(x: Item) { Reads(x, {"done"}) }
  predicate AtRest(x: Item) { !DeadLane(x) && !AsksLeave(x) && !AsksBack(x) && !AtWork(x) && !AtEnd(x) }
  predicate RedLane(x: Item) { !DeadLane(x) && (x.danger || x.state in {"blocked", "down", "danger"}) }
  predicate AmberLane(x: Item) {
    && !DeadLane(x) && !RedLane(x)
    && (x.awaitingApproval || x.stuck
        || x.state in {"waiting_permission", "permission", "approval", "waiting_question", "question", "need", "stuck"})
  }
  predicate CalmAtWork(x: Item) { AtWork(x) && !RedLane(x) && !AmberLane(x) }

  /** A lane falls in the bucket, and lights the lamp, that its fields say. */
  lemma LaneLaw(x: Item)
    ensures MixBucket(x) == P1 <==> AsksLeave(x)
    ensures MixBucket(x) == P2 <==> AsksBack(x)
    ensures MixBucket(x) == Working <==> AtWork(x)
    ensures MixBucket(x) == Done <==> AtEnd(x)
    ensures MixBucket(x) == Dead <==> DeadLane(x)
    ensures MixBucket(x) == Idle <==> AtRest(x)
    ensures Live(x) && ItemP(x) == Red <==> RedLane(x)
    ensures Live(x) && ItemP(x) == Amber <==> AmberLane(x)
    ensures CalmRunning(x) <==> CalmAtWork(x)
  {
  }

  lemma {:induction false} CountsLaw(lanes: seq<Item>)
    ensures InBucket(lanes, P1) == Tally(lanes, AsksLeave) && InBucket(lanes, P2) == Tally(lanes, AsksBack)
    ensures InBucket(lanes, Working) == Tally(lanes, AtWork) && InBucket(lanes, Done) == Tally(lanes, AtEnd)
    ensures InBucket(lanes, Dead) == Tally(lanes, DeadLane) && InBucket(lanes, Idle) == Tally(lanes, AtRest)
    ensures Marked(lanes, Red) == Tally(lanes, RedLane) && Marked(lanes, Amber) == Tally(lanes, AmberLane)
    ensures CalmRuns(lanes) == Tally(lanes, CalmAtWork)
  {
    hide MixBucket, ItemP, AsksLeave, AsksBack, AtWork, AtEnd, AtRest, DeadLane, RedLane, AmberLane, CalmAtWork, CalmRunning, Live;
    if lanes != [] {
      var n := |lanes| - 1;
      CountsLaw(lanes[..n]);
      LaneLaw(lanes[n]);
      TallyMore(lanes, AsksLeave);
      TallyMore(lanes, AsksBack);
      TallyMore(lanes, AtWork);
      TallyMore(lanes, AtEnd);
      TallyMore(lanes, DeadLane);
      TallyMore(lanes, AtRest);
      TallyMore(lanes, RedLane);
      TallyMore(lanes, AmberLane);
      TallyMore(lanes, CalmAtWork);
    }
  }

  lemma TallySome(lanes: seq<Item>, f: Item -> bool)
    ensures Tally(lanes, f) > 0 <==> exists i: nat :: i < |lanes| && f(lanes[i])
  {
    var w := Which(lanes, f);
    if w != {} { var i :| i in w; }
    if exists i: nat :: i < |lanes| && f(lanes[i]) {
      var i: nat :| i < |lanes| && f(lanes[i]);
      assert i in w;
    }
  }

  /** Every count of the mix is the number of lanes whose fields say so, and its worst trouble is there. */
  lemma MixLaw(lanes: seq<Item>)
    ensures var m := MixOf(lanes);
            && m.p1 == Tally(lanes, AsksLeave) && m.p2 == Tally(lanes, AsksBack)
            && m.run == Tally(lanes, AtWork) && m.ok == Tally(lanes, AtEnd)
            && m.off == Tally(lanes, AtRest) && m.dead == Tally(lanes, DeadLane)
            && m.t1 == Tally(lanes, RedLane) && m.t2 == Tally(lanes, AmberLane) && m.calmRun == Tally(lanes, CalmAtWork)
            && m.total == |lanes|
            && (m.p == Some(Red) <==> exists i: nat :: i < |lanes| && RedLane(lanes[i]))
            && (m.p == Some(Amber) <==> (exists i: nat :: i < |lanes| && AmberLane(lanes[i])) && m.p != Some(Red))
            && (m.p == None <==> forall i: nat :: i < |lanes| ==> !RedLane(lanes[i]) && !AmberLane(lanes[i]))
  {
    hide Tally, RedLane, AmberLane, InBucket, Marked, CalmRuns;
    CountsLaw(lanes);
    TallySome(lanes, RedLane);
    TallySome(lanes, AmberLane);
  }

  /** How many lanes a lamp stands for in the bar. */
  function Share(lanes: seq<Item>, q: Lamp): int {
    match q
    case Red => Tally(lanes, RedLane)
    case Amber => Tally(lanes, AmberLane)
    case Run => Tally(lanes, CalmAtWork)
    case Calm => 0
    case Off => |lanes| - Tally(lanes, RedLane) - Tally(lanes, AmberLane) - Tally(lanes, CalmAtWork)
  }

  function Place(q: Lamp): nat { match q case Red => 0 case Amber => 1 case Run => 2 case Calm => 3 case Off => 4 }

  /** One segment for each of the first lamps that has lanes, as long as they are many, the worst first. */
  ghost predicate Bar(lanes: seq<Item>, segs: seq<Seg>, upTo: nat) {
    && (forall i :: 0 <= i < |segs| ==> Place(segs[i].p) < upTo && segs[i].n == Share(lanes, segs[i].p) > 0)
    && (forall q :: Place(q) < upTo && Share(lanes, q) > 0 ==> Seg(q, Share(lanes, q)) in segs)
    && (forall i, j :: 0 <= i < j < |segs| ==> Place(segs[i].p) < Place(segs[j].p))
  }

  lemma BarSnoc(lanes: seq<Item>, segs: seq<Seg>, q: Lamp)
    requires Bar(lanes, segs, Place(q))
    ensures Bar(lanes, segs + Some0(q, Share(lanes, q)), Place(q) + 1)
  {
    hide Share;
    var n := Share(lanes, q);
    if n > 0 { assert (segs + [Seg(q, n)])[|segs|] == Seg(q, n); }
  }

  lemma BarSkip(lanes: seq<Item>, segs: seq<Seg>)
    requires Bar(lanes, segs, 3)
    ensures Bar(lanes, segs, 4)
  {
  }

  /** The bar of any lanes: a segment for each lamp with lanes, no other, red, amber, running, grey. */
  lemma BarLaw(lanes: seq<Item>)
    ensures Bar(lanes, BarSegs(MixOf(lanes)), 5)
  {
    hide Tally, InBucket, Marked, CalmRuns, Some0, Bar;
    CountsLaw(lanes);
    MarkedFits(lanes);
    var m := MixOf(lanes);
    assert Bar(lanes, [], 0) by { NoBar(lanes); }
    BarSnoc(lanes, [], Red);
    assert [] + Some0(Red, m.t1) == Some0(Red, m.t1);
    BarSnoc(lanes, Some0(Red, m.t1), Amber);
    BarSnoc(lanes, Some0(Red, m.t1) + Some0(Amber, m.t2), Run);
    BarSkip(lanes, Some0(Red, m.t1) + Some0(Amber, m.t2) + Some0(Run, m.calmRun));
    BarSnoc(lanes, Some0(Red, m.t1) + Some0(Amber, m.t2) + Some0(Run, m.calmRun), Off);
  }

  lemma NoBar(lanes: seq<Item>)
    ensures Bar(lanes, [], 0)
  {
  }
}
