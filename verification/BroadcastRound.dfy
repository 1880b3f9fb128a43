/** The confirm round trip of a broadcast (public/js/ui/broadcast.js: `sendBroadcast`, `hubPlanOf`) against any hub and any user. */
module BroadcastRound {
  import opened Options

  const MAX_ROUNDS := 3

  datatype Body = Body(targets: seq<string>, text: string, enter: bool, confirmCount: int, planHash: Option<string>)

  /** A hub's `result`, as far as it is read: its plan when well formed, its hash and count when they are there. */
  datatype Result = Result(plan: Option<(seq<string>, nat)>, planHash: Option<string>, confirmCount: Option<int>)

  datatype Answer = Answer(status: int, ok: bool, result: Option<Result>, error: Option<string>, retryAfterMs: Option<int>)

  datatype HubPlan = HubPlan(send: seq<string>, skips: nat, planHash: Option<string>, confirmCount: int)

  /** The user's answer to a plan: not, or yes with what was typed. */
  datatype Typed = Typed(ok: bool, confirmCount: Option<int>)

  /** The hub's own code, the status of an answer without one, or a plan that never settled. */
  datatype Code = Said(code: string) | Http(status: int) | PlanUnstable

  datatype Outcome = Done(ok: bool, result: Result) | Cancelled | Nothing | Refused(code: Code, retryAfterMs: Option<int>)

  predicate HexDigit(c: char) { '0' <= c <= '9' || 'a' <= c <= 'f' }

  predicate IsPlanHash(h: string) { |h| == 64 && forall i :: 0 <= i < |h| ==> HexDigit(h[i]) }

  /** A 409 answer's plan, checked. */
  function HubPlanOf(a: Answer): Option<HubPlan> {
    if a.result == None || a.result.value.plan == None then None
    else
      var r := a.result.value;
      Some(HubPlan(r.plan.value.0, r.plan.value.1,
                   if r.planHash.Some? && IsPlanHash(r.planHash.value) then r.planHash else None,
                   if r.confirmCount.Some? then r.confirmCount.value else |r.plan.value.0|))
  }

  predicate AsksConfirm(code: Option<string>) {
    code == Some("plan-required") || code == Some("plan-changed") || code == Some("confirm-mismatch")
  }

  /** A 409 that asks for a confirm, with the hash to confirm it by. */
  predicate Asks(a: Answer) {
    && a.status == 409 && AsksConfirm(a.error)
    && HubPlanOf(a).Some? && HubPlanOf(a).value.planHash.Some?
  }

  /** The count the user confirmed a plan with; one planned lane needs none typed. */
  function Counted(p: HubPlan, t: Typed): Option<int> {
    if !t.ok then None
    else if t.confirmCount.Some? then t.confirmCount
    else if |p.send| == 1 then Some(1)
    else None
  }

  /** One post, the hub's answer, and the user's answer when one was asked for. */
  datatype Exchange = Exchange(body: Body, answer: Answer, typed: Option<Typed>)

  function FirstCount(confirmCount: int): int { if confirmCount > 0 then confirmCount else 1 }

  /** `next` carries exactly the hash of the plan that `e` asked about and the count it was confirmed with. */
  ghost predicate Follows(first: Body, e: Exchange, next: Body) {
    && Asks(e.answer) && e.typed.Some?
    && Counted(HubPlanOf(e.answer).value, e.typed.value).Some?
    && next == first.(planHash := HubPlanOf(e.answer).value.planHash,
                      confirmCount := Counted(HubPlanOf(e.answer).value, e.typed.value).value)
  }

  /** The first post has no hash; every later one exactly the hash and the count of the plan confirmed just before. */
  ghost predicate Faithful(first: Body, trace: seq<Exchange>) {
    && (trace != [] ==> trace[0].body == first)
    && (forall i, j :: 0 <= i < j < |trace| && j == i + 1 ==> Follows(first, trace[i], trace[j].body))
  }

  /** What the last exchange makes of the whole call. */
  ghost predicate Ends(trace: seq<Exchange>, out: Outcome) {
    trace != [] &&
    var e := trace[|trace| - 1];
    if e.answer.status == 200 && e.answer.result.Some? then out == Done(e.answer.ok, e.answer.result.value)
    else if e.answer.status == 409 && e.answer.error == Some("nothing-to-send") then out == Nothing
    else if Asks(e.answer) then
      if |trace| == MAX_ROUNDS + 1 then out == Refused(PlanUnstable, None) && e.typed == None
      else out == Cancelled && e.typed.Some? && Counted(HubPlanOf(e.answer).value, e.typed.value) == None
    else out == Refused(if e.answer.error.Some? then Said(e.answer.error.value) else Http(e.answer.status), e.answer.retryAfterMs)
  }

  type Hub = (seq<Exchange>, Body) -> Answer
  type User = (seq<Exchange>, HubPlan, Option<string>) -> Typed

  /** The user was shown exactly the hub's plan. */
  ghost predicate TypedBy(user: User, before: seq<Exchange>, e: Exchange) {
    e.typed.Some? && HubPlanOf(e.answer).Some? && e.typed.value == user(before, HubPlanOf(e.answer).value, e.answer.error)
  }

  /** What was asked is what the hub and the user answered: nothing is made up. */
  ghost predicate Real(hub: Hub, user: User, trace: seq<Exchange>) {
    forall i {:trigger trace[i]} :: 0 <= i < |trace| ==>
      && trace[i].answer == hub(trace[..i], trace[i].body)
      && (trace[i].typed.Some? ==> TypedBy(user, trace[..i], trace[i]))
  }

  lemma RealMore(hub: Hub, user: User, trace: seq<Exchange>, e: Exchange)
    requires Real(hub, user, trace) && e.answer == hub(trace, e.body)
    requires e.typed.Some? ==> TypedBy(user, trace, e)
    ensures Real(hub, user, trace + [e])
  {
    var more := trace + [e];
    forall i | 0 <= i < |more|
      ensures more[i].answer == hub(more[..i], more[i].body)
      ensures more[i].typed.Some? ==> TypedBy(user, more[..i], more[i])
    {
      assert more[..i] == trace[..i];
    }
  }

  /** The next post: the first, or the first with what was confirmed just before. */
  ghost predicate Prepared(first: Body, trace: seq<Exchange>, body: Body) {
    if trace == [] then body == first else Follows(first, trace[|trace| - 1], body)
  }

  lemma FaithfulMore(first: Body, trace: seq<Exchange>, e: Exchange)
    requires Faithful(first, trace) && Prepared(first, trace, e.body)
    ensures Faithful(first, trace + [e])
  {
    hide Follows;
  }

  /** Against any hub and any user: at most four posts, and no confirmed post without the confirm of exactly its plan. */
  method SendBroadcast(targets: seq<string>, text: string, enter: bool, confirmCount: int, hub: Hub, user: User)
    returns (out: Outcome, trace: seq<Exchange>)
    ensures 1 <= |trace| <= 4
    ensures trace[0].body == Body(targets, text, enter, if confirmCount > 0 then confirmCount else 1, None)
    ensures Faithful(Body(targets, text, enter, FirstCount(confirmCount), None), trace)
    ensures Real(hub, user, trace) && Ends(trace, out)
  {
    hide HubPlanOf, Counted, Real, Faithful, AsksConfirm, IsPlanHash;
    var count := FirstCount(confirmCount);
    var planHash: Option<string> := None;
    ghost var first := Body(targets, text, enter, count, None);
    trace := [];
    NothingYet(hub, user, first);
    for round := 0 to MAX_ROUNDS + 1
      invariant |trace| == round && Faithful(first, trace) && Real(hub, user, trace)
      invariant round <= MAX_ROUNDS && Prepared(first, trace, Body(targets, text, enter, count, planHash))
      invariant trace != [] ==> trace[0].body == first
    {
      var body := Body(targets, text, enter, count, planHash);
      var a := hub(trace, body);
      FaithfulMore(first, trace, Exchange(body, a, None));
      RealMore(hub, user, trace, Exchange(body, a, None));
      if a.status == 200 && a.result.Some? {
        return Done(a.ok, a.result.value), trace + [Exchange(body, a, None)];
      }
      if a.status == 409 {
        var hp := HubPlanOf(a);
        if a.error == Some("nothing-to-send") { return Nothing, trace + [Exchange(body, a, None)]; }
        if hp.Some? && hp.value.planHash.Some? && AsksConfirm(a.error) {
          if round == MAX_ROUNDS {
            return Refused(PlanUnstable, None), trace + [Exchange(body, a, None)];
          }
          var typed := user(trace, hp.value, a.error);
          FaithfulMore(first, trace, Exchange(body, a, Some(typed)));
          RealMore(hub, user, trace, Exchange(body, a, Some(typed)));
          trace := trace + [Exchange(body, a, Some(typed))];
          var counted := Counted(hp.value, typed);
          if counted == None { return Cancelled, trace; }
          count := counted.value;
          planHash := hp.value.planHash;
          continue;
        }
      }
      return Refused(if a.error.Some? then Said(a.error.value) else Http(a.status), a.retryAfterMs), trace + [Exchange(body, a, None)];
    }
    assert false;
    return Cancelled, trace;
  }

  lemma NothingYet(hub: Hub, user: User, first: Body)
    ensures Real(hub, user, []) && Faithful(first, [])
  {
  }

  /** A call that is done after a confirm was confirmed by the user on the plan whose hash it carried. */
  lemma DoneWasConfirmed(first: Body, trace: seq<Exchange>, out: Outcome)
    requires Faithful(first, trace) && Ends(trace, out) && |trace| >= 2 && out.Done?
    ensures var e, last := trace[|trace| - 2], trace[|trace| - 1];
            && e.typed.Some? && e.typed.value.ok
            && last.body.planHash == HubPlanOf(e.answer).value.planHash && IsPlanHash(last.body.planHash.value)
  {
    var e := trace[|trace| - 2];
    assert Asks(e.answer);
  }

  predicate LowerHex64(h: string) { |h| == 64 && forall i :: 0 <= i < |h| ==> h[i] in "0123456789abcdef" }

  /** A post follows an answer exactly when that was a 409 asking for a confirm, confirmed by the user, and it carries that plan's hash. */
  lemma FollowsLaw(first: Body, e: Exchange, next: Body)
    ensures Follows(first, e, next) <==>
            && e.answer.status == 409 && e.answer.error.Some?
            && e.answer.error.value in {"plan-required", "plan-changed", "confirm-mismatch"}
            && e.answer.result.Some? && e.answer.result.value.plan.Some?
            && e.answer.result.value.planHash.Some? && LowerHex64(e.answer.result.value.planHash.value)
            && e.typed.Some? && e.typed.value.ok
            && next.planHash == e.answer.result.value.planHash
            && (next.targets, next.text, next.enter) == (first.targets, first.text, first.enter)
            && (if e.typed.value.confirmCount.Some? then e.typed.value.confirmCount == Some(next.confirmCount)
                else |e.answer.result.value.plan.value.0| == 1 == next.confirmCount)
  {
  }

  /** The hub's plan as the user is shown it: its lanes, its hash when it is one, its count or else the number of its lanes. */
  lemma PlanShown(a: Answer)
    ensures HubPlanOf(a).Some? <==> a.result.Some? && a.result.value.plan.Some?
    ensures HubPlanOf(a).Some? ==>
              var r, h := a.result.value, HubPlanOf(a).value;
              && (h.send, h.skips) == r.plan.value
              && (forall x :: h.planHash == Some(x) <==> r.planHash == Some(x) && IsPlanHash(x))
              && (r.confirmCount.Some? ==> r.confirmCount == Some(h.confirmCount))
              && (r.confirmCount == None ==> h.confirmCount == |h.send|)
  {
  }
}
