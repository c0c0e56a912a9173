/** Choosing the organisation a page works in (lib/edtech/org-selection.ts). */
module OrgSelection {
  import opened Wrappers
  import opened Roles

  datatype OrgMembership = OrgMembership(orgId: string, orgName: string, role: OrgRole)

  /** The organisations the user belongs to, in membership order. */
  function OrgIds(memberships: seq<OrgMembership>): (ids: seq<string>)
    ensures |ids| == |memberships|
    ensures forall k :: 0 <= k < |memberships| ==> ids[k] == memberships[k].orgId
  {
    seq(|memberships|, k requires 0 <= k < |memberships| => memberships[k].orgId)
  }

  /** A candidate is usable when it is a non-empty id of one of the user's organisations. */
  predicate Usable(memberships: seq<OrgMembership>, candidate: Option<string>) {
    candidate.Some? && candidate.value != "" && candidate.value in OrgIds(memberships)
  }

  /** The position of the first usable candidate, if any. */
  function FirstUsable(memberships: seq<OrgMembership>, candidates: seq<Option<string>>): (r: Option<nat>)
    ensures r.Some? ==> r.value < |candidates| && Usable(memberships, candidates[r.value])
    ensures r.Some? ==> forall k :: 0 <= k < r.value ==> !Usable(memberships, candidates[k])
    ensures r.None? <==> forall k :: 0 <= k < |candidates| ==> !Usable(memberships, candidates[k])
  {
    if candidates == [] then None
    else if Usable(memberships, candidates[0]) then Some(0)
    else
      match FirstUsable(memberships, candidates[1..])
      case None => None
      case Some(k) => Some(k + 1)
  }

  /**
   * `pickOrgId`: the first usable candidate; failing that, the only
   * organisation of a user with exactly one; otherwise none, so that a user
   * of several organisations must choose.
   */
  method PickOrgId(memberships: seq<OrgMembership>, candidates: seq<Option<string>>) returns (r: Option<string>)
    ensures FirstUsable(memberships, candidates).Some? ==> r == candidates[FirstUsable(memberships, candidates).value]
    ensures FirstUsable(memberships, candidates).None? && |memberships| == 1 ==> r == Some(memberships[0].orgId)
    ensures FirstUsable(memberships, candidates).None? && |memberships| != 1 ==> r == None
    ensures r.Some? ==> r.value in OrgIds(memberships)
  {
    var i := 0;
    while i < |candidates|
      invariant 0 <= i <= |candidates|
      invariant forall k :: 0 <= k < i ==> !Usable(memberships, candidates[k])
    {
      var candidate := candidates[i];
      if candidate.None? || candidate.value == "" {
        i := i + 1;
        continue;
      }
      if candidate.value in OrgIds(memberships) {
        FirstUsableIsFirst(memberships, candidates, i);
        return candidate;
      }
      i := i + 1;
    }
    if |memberships| == 1 {
      return Some(memberships[0].orgId);
    }
    return None;
  }

  /** A usable candidate with no usable one before it is the first usable candidate. */
  lemma FirstUsableIsFirst(memberships: seq<OrgMembership>, candidates: seq<Option<string>>, i: nat)
    requires i < |candidates| && Usable(memberships, candidates[i])
    requires forall k :: 0 <= k < i ==> !Usable(memberships, candidates[k])
    ensures FirstUsable(memberships, candidates) == Some(i)
  {
  }

  /** Candidates that are absent or empty are skipped: removing them changes nothing. */
  lemma {:induction false} EmptyCandidatesAreSkipped(memberships: seq<OrgMembership>, before: seq<Option<string>>, skipped: Option<string>, after: seq<Option<string>>)
    requires skipped.None? || skipped.value == ""
    ensures FirstUsable(memberships, before + [skipped] + after).Some? <==> FirstUsable(memberships, before + after).Some?
    ensures FirstUsable(memberships, before + after).Some? ==>
      (before + [skipped] + after)[FirstUsable(memberships, before + [skipped] + after).value]
        == (before + after)[FirstUsable(memberships, before + after).value]
  {
    if before == [] {
      assert (before + [skipped] + after)[1..] == before + after;
    } else {
      assert (before + [skipped] + after)[1..] == before[1..] + [skipped] + after;
      assert (before + after)[1..] == before[1..] + after;
      EmptyCandidatesAreSkipped(memberships, before[1..], skipped, after);
    }
  }

  const OrgA: OrgMembership := OrgMembership("org-a", "Org A", Admin)
  const OrgB: OrgMembership := OrgMembership("org-b", "Org B", Manager)

  /** A user of one organisation gets it when there is no candidate. */
  method SingleOrgUserExample() returns (r: Option<string>)
    ensures r == Some("org-a")
  {
    r := PickOrgId([OrgA], [None, None]);
  }

  /** A candidate naming one of the user's organisations is used. */
  method PreferredCandidateExample() returns (r: Option<string>)
    ensures r == Some("org-b")
  {
    assert OrgIds([OrgA, OrgB]) == ["org-a", "org-b"];
    assert Usable([OrgA, OrgB], Some("org-b"));
    assert FirstUsable([OrgA, OrgB], [Some("org-b")]) == Some(0);
    r := PickOrgId([OrgA, OrgB], [Some("org-b")]);
  }

  /** A user of several organisations with no usable candidate must choose. */
  method MultiOrgUserExample() returns (r: Option<string>)
    ensures r == None
  {
    assert OrgIds([OrgA, OrgB]) == ["org-a", "org-b"];
    assert !Usable([OrgA, OrgB], Some("missing-org"));
    assert FirstUsable([OrgA, OrgB], [None, Some("missing-org")]) == None;
    r := PickOrgId([OrgA, OrgB], [None, Some("missing-org")]);
  }
}
