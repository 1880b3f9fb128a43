/** Searching a string, as `startsWith` and `indexOf` do. */
module Strings {
  import opened Options

  predicate StartsAt(s: string, p: string, i: nat) { i + |p| <= |s| && s[i..i + |p|] == p }

  /** Where `p` next stands from i on; None when it does not. */
  function Find(s: string, p: string, i: nat): (r: Option<nat>)
    ensures r.Some? ==> i <= r.value && StartsAt(s, p, r.value)
    ensures forall j :: i <= j && (r == None || j < r.value) ==> !StartsAt(s, p, j)
    decreases |s| + 1 - i
  {
    if i > |s| then None else if StartsAt(s, p, i) then Some(i) else Find(s, p, i + 1)
  }

  /** A later search finds nothing sooner. */
  lemma FindLater(s: string, p: string, i: nat, j: nat)
    requires i <= j
    ensures Find(s, p, i) == None ==> Find(s, p, j) == None
    ensures Find(s, p, i).Some? && Find(s, p, j).Some? ==> Find(s, p, i).value <= Find(s, p, j).value
  {
    hide StartsAt;
    var a, b := Find(s, p, i), Find(s, p, j);
    assert b.Some? ==> StartsAt(s, p, b.value);
  }

  // ---- Character by character

  predicate Stands(s: string, p: string, k: nat) { k + |p| <= |s| && forall j :: 0 <= j < |p| ==> s[k + j] == p[j] }

  ghost predicate First(s: string, p: string, i: nat, k: nat) {
    i <= k && Stands(s, p, k) && forall j: nat :: i <= j < k ==> !Stands(s, p, j)
  }

  lemma StandsTwo(s: string, p: string, i: nat)
    requires |p| == 2
    ensures Stands(s, p, i) <==> i + 1 < |s| && s[i] == p[0] && s[i + 1] == p[1]
  {
  }

  lemma StandsIs(s: string, p: string, k: nat)
    ensures StartsAt(s, p, k) <==> Stands(s, p, k)
  {
    if k + |p| <= |s| {
      var part := s[k..k + |p|];
      assert forall j :: 0 <= j < |p| ==> part[j] == s[k + j];
    }
  }

  lemma FindIs(s: string, p: string, i: nat)
    ensures Find(s, p, i) == None ==> forall k: nat :: !First(s, p, i, k)
    ensures Find(s, p, i).Some? ==> First(s, p, i, Find(s, p, i).value)
    ensures forall k: nat :: First(s, p, i, k) ==> Find(s, p, i) == Some(k)
  {
    hide Find, StartsAt, Stands;
    forall k: nat ensures StartsAt(s, p, k) <==> Stands(s, p, k) { StandsIs(s, p, k); }
  }
}
