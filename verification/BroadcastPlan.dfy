/** Which lanes a broadcast types into (public/js/core/broadcast-plan.js: `planBroadcast`, `skipReason`, `checkConfirm`). */
module BroadcastPlan {
  import opened Options
  import Keys

  const MAX_TARGETS := 30
  const SHOWN_KEY := 120

  datatype Reason = Invalid | Duplicate | BuilderDown | Unknown | Dead | Shell | Prompting | Paused

  /** What the plan reads of a session; `dialog`: its last preview lines show one. */
  datatype Session = Session(state: string, shell: bool, awaitingApproval: bool, dialog: bool, paused: bool)

  datatype Skip = Skip(key: string, reason: Reason)
  datatype Plan = Plan(send: seq<string>, skip: seq<Skip>)

  const PROMPTING_STATES: set<string> := {"waiting_permission", "waiting_question", "trust_dialog", "dialog"}
  const SENDABLE_STATES: set<string> := {"working", "done", "idle"}

  predicate NameChar(c: char) {
    'A' <= c <= 'Z' || 'a' <= c <= 'z' || '0' <= c <= '9' || c == ' ' || c == '_' || c == '.' || c == '(' || c == ')' || c == '-'
  }

  const RESERVED := "_laneboard"

  predicate IsBroadcastKey(k: string) {
    var p := Keys.ParseFkey(k);
    && p.Some? && 1 <= |p.value.name| <= 64 && (forall i :: 0 <= i < |p.value.name| ==> NameChar(p.value.name[i]))
    && !(|RESERVED| <= |p.value.name| && p.value.name[..|RESERVED|] == RESERVED)
  }

  /** Why a session must not be typed into, or None; anything unexpected is unknown. */
  function SkipReason(s: Option<Session>): Option<Reason> {
    match s
    case None => Some(Unknown)
    case Some(x) =>
      if x.state == "dead" then Some(Dead)
      else if x.state == "shell" || x.shell then Some(Shell)
      else if x.state in PROMPTING_STATES || x.awaitingApproval then Some(Prompting)
      else if x.dialog then Some(Prompting)
      else if x.paused then Some(Paused)
      else if x.state !in SENDABLE_STATES then Some(Unknown)
      else None
  }

  /** The fleet as the planner sees it. */
  datatype View = View(sessions: map<string, Session>, up: string -> bool)

  function SessionOf(v: View, k: string): Option<Session> { if k in v.sessions then Some(v.sessions[k]) else None }

  /** A lane that may be typed into, whatever else is targeted. */
  predicate Sendable(v: View, k: string) {
    IsBroadcastKey(k) && v.up(Keys.ParseFkey(k).value.builder) && SkipReason(SessionOf(v, k)) == None
  }

  /** Why target i is skipped, seen after the ones before it. */
  function Verdict(v: View, before: seq<string>, k: string): Option<Reason> {
    if !IsBroadcastKey(k) then Some(Invalid)
    else if k in before then Some(Duplicate)
    else if !v.up(Keys.ParseFkey(k).value.builder) then Some(BuilderDown)
    else SkipReason(SessionOf(v, k))
  }

  function Cut(k: string): string { if |k| > SHOWN_KEY then k[..SHOWN_KEY] else k }

  /** Every target gets its verdict, in order. */
  function PlanOf(v: View, list: seq<string>): Plan {
    if list == [] then Plan([], [])
    else
      var n := |list| - 1;
      var p, k := PlanOf(v, list[..n]), list[n];
      match Verdict(v, list[..n], k)
      case None => p.(send := p.send + [k])
      case Some(r) => p.(skip := p.skip + [Skip(if r == Invalid then Cut(k) else k, r)])
  }

  function Considered(targets: seq<string>): seq<string> { if |targets| > MAX_TARGETS then targets[..MAX_TARGETS] else targets }

  method PlanBroadcast(v: View, targets: seq<string>) returns (p: Plan)
    ensures p == PlanOf(v, Considered(targets))
  {
    hide IsBroadcastKey, SkipReason;
    var list := Considered(targets);
    var send: seq<string>, skip: seq<Skip> := [], [];
    var seen: set<string> := {};
    for i := 0 to |list|
      invariant Plan(send, skip) == PlanOf(v, list[..i])
      invariant forall k :: k in seen <==> k in list[..i] && IsBroadcastKey(k)
    {
      assert list[..i + 1][..i] == list[..i];
      assert list[..i + 1] == list[..i] + [list[i]];
      var k := list[i];
      if !IsBroadcastKey(k) {
        skip := skip + [Skip(Cut(k), Invalid)];
      } else if k in seen {
        skip := skip + [Skip(k, Duplicate)];
      } else {
        seen := seen + {k};
        ReasonKinds(SessionOf(v, k));
        if !v.up(BuilderOf(k)) {
          skip := skip + [Skip(k, BuilderDown)];
        } else {
          var reason := SkipReason(SessionOf(v, k));
          if reason.Some? { skip := skip + [Skip(k, reason.value)]; } else { send := send + [k]; }
        }
      }
    }
    assert list[..|list|] == list;
    return Plan(send, skip);
  }

  function BuilderOf(k: string): string
    requires IsBroadcastKey(k)
  {
    Keys.ParseFkey(k).value.builder
  }

  lemma ReasonKinds(s: Option<Session>)
    ensures SkipReason(s) != Some(Invalid)
  {
  }

  // ---- What a plan is

  /** Every considered target is planned or skipped, once. */
  lemma {:induction false} PlanCounts(v: View, list: seq<string>)
    ensures |PlanOf(v, list).send| + |PlanOf(v, list).skip| == |list|
  {
    if list != [] { PlanCounts(v, list[..|list| - 1]); }
  }

  /** `at` says where each planned lane stands among the targets. */
  ghost predicate InTargets(send: seq<string>, list: seq<string>, at: seq<nat>) {
    && |at| == |send|
    && (forall i :: 0 <= i < |at| ==> at[i] < |list| && list[at[i]] == send[i] && send[i] !in list[..at[i]])
    && (forall i, j :: 0 <= i < j < |at| ==> at[i] < at[j])
  }

  lemma InTargetsMore(send: seq<string>, list: seq<string>, at: seq<nat>, k: string)
    requires InTargets(send, list, at)
    ensures InTargets(send, list + [k], at)
    ensures k !in list ==> InTargets(send + [k], list + [k], at + [|list|])
  {
    var more := list + [k];
    assert forall i :: 0 <= i <= |list| ==> more[..i] == list[..i];
  }

  lemma PlanStep(v: View, list: seq<string>)
    requires list != []
    ensures var n := |list| - 1;
            PlanOf(v, list).send == PlanOf(v, list[..n]).send + (if Verdict(v, list[..n], list[n]) == None then [list[n]] else [])
  {
    hide Verdict;
  }

  /** The planned lanes are the first places of sendable targets, in order. */
  lemma {:induction false} PlanInOrder(v: View, list: seq<string>) returns (at: seq<nat>)
    ensures InTargets(PlanOf(v, list).send, list, at)
  {
    if list == [] {
      at := [];
    } else {
      hide Verdict, InTargets, PlanOf;
      var n := |list| - 1;
      at := PlanInOrder(v, list[..n]);
      PlanStep(v, list);
      assert list == list[..n] + [list[n]];
      InTargetsMore(PlanOf(v, list[..n]).send, list[..n], at, list[n]);
      if Verdict(v, list[..n], list[n]) == None {
        FirstPlace(v, list[..n], list[n]);
        at := at + [n];
      }
    }
  }

  lemma FirstPlace(v: View, before: seq<string>, k: string)
    requires Verdict(v, before, k) == None
    ensures k !in before && Sendable(v, k)
  {
  }

  /** Exactly the sendable targets are planned. */
  lemma {:induction false} PlanIsSendable(v: View, list: seq<string>, k: string)
    ensures k in PlanOf(v, list).send <==> k in list && Sendable(v, k)
  {
    if list == [] {
    } else {
      hide IsBroadcastKey, SkipReason;
      var n := |list| - 1;
      PlanIsSendable(v, list[..n], k);
      assert list == list[..n] + [list[n]];
    }
  }

  lemma NoTwice(send: seq<string>, list: seq<string>, at: seq<nat>)
    requires InTargets(send, list, at)
    ensures forall i, j :: 0 <= i < j < |send| ==> send[i] != send[j]
  {
    forall i, j | 0 <= i < j < |send| ensures send[i] != send[j] { assert list[..at[j]][at[i]] == send[i]; }
  }

  lemma {:induction false} AllSent(v: View, list: seq<string>)
    requires forall i :: 0 <= i < |list| ==> Sendable(v, list[i])
    requires forall i, j :: 0 <= i < j < |list| ==> list[i] != list[j]
    ensures PlanOf(v, list) == Plan(list, [])
  {
    if list == [] {
    } else {
      hide IsBroadcastKey, SkipReason;
      var n := |list| - 1;
      AllSent(v, list[..n]);
      assert list[n] !in list[..n];
      assert list == list[..n] + [list[n]];
    }
  }

  /**
    The plan: as many verdicts as considered targets, no lane twice, exactly the sendable ones in
    the order of the targets; and planning the planned lanes again skips nothing.
  */
  lemma PlanIsSound(v: View, targets: seq<string>)
    ensures var list := Considered(targets); var p := PlanOf(v, list);
            && |p.send| + |p.skip| == (if |targets| < MAX_TARGETS then |targets| else MAX_TARGETS)
            && (forall i, j :: 0 <= i < j < |p.send| ==> p.send[i] != p.send[j])
            && (forall k :: k in p.send <==> k in list && Sendable(v, k))
            && PlanOf(v, Considered(p.send)) == Plan(p.send, [])
  {
    hide PlanOf, Sendable, InTargets;
    var list := Considered(targets);
    var p := PlanOf(v, list);
    PlanCounts(v, list);
    var at := PlanInOrder(v, list);
    NoTwice(p.send, list, at);
    forall k ensures k in p.send <==> k in list && Sendable(v, k) { PlanIsSendable(v, list, k); }
    AllSent(v, p.send);
  }

  /** The typed confirmation: it must equal the number of planned sends. */
  datatype Confirm = Ok | NothingToSend | Mismatch

  function CheckConfirm(p: Plan, count: int): Confirm {
    if |p.send| == 0 then NothingToSend else if count == |p.send| then Ok else Mismatch
  }

  ghost function SendableOf(v: View, list: seq<string>): set<string> { set k | k in list && Sendable(v, k) }

  lemma {:induction false} DistinctSize(send: seq<string>)
    requires forall i, j :: 0 <= i < j < |send| ==> send[i] != send[j]
    ensures |set k | k in send| == |send|
  {
    if send != [] {
      var n := |send| - 1;
      DistinctSize(send[..n]);
      assert (set k | k in send) == (set k | k in send[..n]) + {send[n]};
    }
  }

  /**
    A typed count confirms the plan exactly when it is the number of lanes that can be sent to and there is one; and it
    confirms the planned lanes, planned again, exactly when it confirms the targets.
  */
  lemma ConfirmIsCount(v: View, targets: seq<string>, count: int)
    ensures var list := Considered(targets); var p := PlanOf(v, list);
            && (CheckConfirm(p, count) == Ok <==> count > 0 && count == |SendableOf(v, list)|)
            && CheckConfirm(PlanOf(v, Considered(p.send)), count) == CheckConfirm(p, count)
  {
    hide PlanOf, Sendable;
    PlanIsSound(v, targets);
    var list := Considered(targets);
    var p := PlanOf(v, list);
    DistinctSize(p.send);
    assert SendableOf(v, list) == set k | k in p.send;
  }

  // ---- By the target's own fields

  /** A fleet key of a valid builder and a name that may be typed to: 1 to 64 letters, digits, blanks and `_.()-`, not one of the console's own. */
  lemma KeyLaw(k: string)
    ensures IsBroadcastKey(k) <==>
            exists b, n :: Keys.ValidId(b) && k == Keys.Fkey(b, n) && 1 <= |n| <= 64 && !("_laneboard" <= n)
                           && forall i :: 0 <= i < |n| ==> 'A' <= n[i] <= 'Z' || 'a' <= n[i] <= 'z' || '0' <= n[i] <= '9' || n[i] in " _.()-"
  {
    if IsBroadcastKey(k) {
      Keys.FkeyOfParse(k);
      var p := Keys.ParseFkey(k).value;
      assert Keys.ValidId(p.builder) && k == Keys.Fkey(p.builder, p.name);
    }
    forall b, n | Keys.ValidId(b) && k == Keys.Fkey(b, n) && n != "" ensures Keys.ParseFkey(k) == Some(Keys.Parsed(b, n)) { Keys.ParseOfFkey(b, n); }
  }

  /** What speaks against typing into target k, seen after the ones before it. */
  predicate Against(v: View, before: seq<string>, k: string, r: Reason) {
    match r
    case Invalid => !IsBroadcastKey(k)
    case Duplicate => k in before
    case BuilderDown => IsBroadcastKey(k) && !v.up(BuilderOf(k))
    case Dead => k in v.sessions && v.sessions[k].state == "dead"
    case Shell => k in v.sessions && (v.sessions[k].state == "shell" || v.sessions[k].shell)
    case Prompting =>
      k in v.sessions && (v.sessions[k].awaitingApproval || v.sessions[k].dialog
                          || v.sessions[k].state in {"waiting_permission", "waiting_question", "trust_dialog", "dialog"})
    case Paused => k in v.sessions && v.sessions[k].paused
    case Unknown => k !in v.sessions || v.sessions[k].state !in {"working", "done", "idle"}
  }

  /** Which reason is said when several hold. */
  function Rank(r: Reason): nat {
    match r
    case Invalid => 0
    case Duplicate => 1
    case BuilderDown => 2
    case Dead => 3
    case Shell => 4
    case Prompting => 5
    case Paused => 6
    case Unknown => 7
  }

  ghost predicate FirstAgainst(v: View, before: seq<string>, k: string, r: Reason) {
    Against(v, before, k, r) && forall x :: Against(v, before, k, x) ==> Rank(r) <= Rank(x)
  }

  /** A target is planned exactly when nothing speaks against it, and skipped for the first reason that does. */
  lemma VerdictLaw(v: View, before: seq<string>, k: string)
    ensures Verdict(v, before, k) == None <==> forall r :: !Against(v, before, k, r)
    ensures forall r :: Verdict(v, before, k) == Some(r) <==> FirstAgainst(v, before, k, r)
  {
    hide IsBroadcastKey;
    forall r: Reason ensures Verdict(v, before, k) == Some(r) <==> FirstAgainst(v, before, k, r) {
      assert Against(v, before, k, Invalid) <==> !IsBroadcastKey(k);
      assert Against(v, before, k, Duplicate) <==> k in before;
      assert Verdict(v, before, k).Some? ==> Against(v, before, k, Verdict(v, before, k).value);
    }
  }

  /** Planned targets: the considered ones that are keys of running builders, with a session that works, is done or idles, is no shell, awaits nothing, shows no dialog and is not paused. */
  lemma SentLaw(v: View, targets: seq<string>, k: string)
    ensures k in PlanOf(v, Considered(targets)).send <==>
            && k in Considered(targets) && IsBroadcastKey(k) && v.up(BuilderOf(k)) && k in v.sessions
            && v.sessions[k].state in {"working", "done", "idle"}
            && !v.sessions[k].shell && !v.sessions[k].awaitingApproval && !v.sessions[k].dialog && !v.sessions[k].paused
  {
    hide IsBroadcastKey, PlanOf;
    PlanIsSendable(v, Considered(targets), k);
  }

  /** Where the skipped targets stand. */
  ghost predicate SkippedAt(v: View, list: seq<string>, skip: seq<Skip>, at: seq<nat>) {
    && |at| == |skip|
    && (forall i, j :: 0 <= i < j < |at| ==> at[i] < at[j])
    && (forall j :: 0 <= j < |at| ==> at[j] < |list| && FirstAgainst(v, list[..at[j]], list[at[j]], skip[j].reason)
                                      && skip[j].key == if skip[j].reason == Invalid && |list[at[j]]| > 120 then list[at[j]][..120] else list[at[j]])
    && (forall i :: 0 <= i < |list| && i !in at ==> forall r :: !Against(v, list[..i], list[i], r))
  }

  lemma SkippedMore(v: View, list: seq<string>, skip: seq<Skip>, at: seq<nat>, k: string, r: Option<Reason>)
    requires SkippedAt(v, list, skip, at)
    requires r == None ==> forall x :: !Against(v, list, k, x)
    requires r.Some? ==> FirstAgainst(v, list, k, r.value)
    ensures r == None ==> SkippedAt(v, list + [k], skip, at)
    ensures r.Some? ==>
              SkippedAt(v, list + [k], skip + [Skip(if r == Some(Invalid) && |k| > 120 then k[..120] else k, r.value)], at + [|list|])
  {
    hide Against, FirstAgainst;
    var all := list + [k];
    assert all[|list|] == k && forall i :: 0 <= i <= |list| ==> all[..i] == list[..i];
  }

  /** Every other considered target is skipped, in order, for the first reason against it, an invalid one cut to 120 characters. */
  lemma {:induction false} SkipLaw(v: View, list: seq<string>) returns (at: seq<nat>)
    ensures SkippedAt(v, list, PlanOf(v, list).skip, at)
  {
    at := [];
    if list != [] {
      hide Verdict, SkippedAt, Against, FirstAgainst;
      var n := |list| - 1;
      at := SkipLaw(v, list[..n]);
      VerdictLaw(v, list[..n], list[n]);
      assert list == list[..n] + [list[n]];
      SkippedMore(v, list[..n], PlanOf(v, list[..n]).skip, at, list[n], Verdict(v, list[..n], list[n]));
      if Verdict(v, list[..n], list[n]).Some? { at := at + [n]; }
    }
  }

  /** At most the first 30 targets are considered, and the typed count must be that of the planned ones. */
  lemma ConsideredLaw(targets: seq<string>)
    ensures Considered(targets) <= targets && |Considered(targets)| == if |targets| < 30 then |targets| else 30
  {
  }

  lemma ConfirmLaw(p: Plan, count: int)
    ensures CheckConfirm(p, count) == Ok <==> count == |p.send| && p.send != []
    ensures CheckConfirm(p, count) == NothingToSend <==> p.send == []
  {
  }
}
