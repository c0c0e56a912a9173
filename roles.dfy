/** Organisation roles and their order (lib/edtech/roles.ts). */
module Roles {
  import opened Wrappers

  datatype OrgRole = Learner | Manager | Admin | Owner

  /** `ROLE_PRIORITY`: learner 1, manager 2, admin 3, owner 4. */
  function RolePriority(role: OrgRole): (p: int)
    ensures 1 <= p <= 4
  {
    match role
    case Learner => 1
    case Manager => 2
    case Admin => 3
    case Owner => 4
  }

  /** No two roles share a priority, so the priority order is an order on roles. */
  lemma PriorityIsInjective(a: OrgRole, b: OrgRole)
    requires RolePriority(a) == RolePriority(b)
    ensures a == b
  {
    match a
    case Learner =>
    case Manager =>
    case Admin =>
    case Owner =>
  }

  /** The roles from lowest to highest. */
  const RolesByRank: seq<OrgRole> := [Learner, Manager, Admin, Owner]

  /** A role's priority is its position in `RolesByRank`, counted from one. */
  lemma PriorityIsRank(role: OrgRole)
    ensures RolesByRank[RolePriority(role) - 1] == role
  {
  }

  /** `hasMinimumRole`: no role meets no minimum; a role meets every role at or below it. */
  function HasMinimumRole(role: Option<OrgRole>, minimumRole: OrgRole): (b: bool)
    ensures role.None? ==> !b
    ensures role.Some? ==> (b <==> RolePriority(role.value) >= RolePriority(minimumRole))
  {
    match role
    case None => false
    case Some(r) => RolePriority(r) >= RolePriority(minimumRole)
  }

  /** A role meets a minimum exactly when it comes at or after it in `RolesByRank`. */
  lemma MinimumRoleIsRankOrder(role: OrgRole, minimumRole: OrgRole)
    ensures HasMinimumRole(Some(role), minimumRole) <==>
      exists i, j :: 0 <= j <= i < |RolesByRank| && RolesByRank[i] == role && RolesByRank[j] == minimumRole
  {
    PriorityIsRank(role);
    PriorityIsRank(minimumRole);
    var i, j := RolePriority(role) - 1, RolePriority(minimumRole) - 1;
    if exists i', j' :: 0 <= j' <= i' < |RolesByRank| && RolesByRank[i'] == role && RolesByRank[j'] == minimumRole {
      var i', j' :| 0 <= j' <= i' < |RolesByRank| && RolesByRank[i'] == role && RolesByRank[j'] == minimumRole;
      assert i' == i && j' == j;
    }
  }

  /** Every role meets itself. */
  lemma MinimumRoleIsReflexive(role: OrgRole)
    ensures HasMinimumRole(Some(role), role)
  {
  }

  /** Meeting a minimum is transitive. */
  lemma MinimumRoleIsTransitive(a: OrgRole, b: OrgRole, c: OrgRole)
    requires HasMinimumRole(Some(a), b) && HasMinimumRole(Some(b), c)
    ensures HasMinimumRole(Some(a), c)
  {
  }

  /** Two roles that meet each other are the same role. */
  lemma MinimumRoleIsAntisymmetric(a: OrgRole, b: OrgRole)
    requires HasMinimumRole(Some(a), b) && HasMinimumRole(Some(b), a)
    ensures a == b
  {
    PriorityIsInjective(a, b);
  }

  /** Of any two roles one meets the other. */
  lemma MinimumRoleIsTotal(a: OrgRole, b: OrgRole)
    ensures HasMinimumRole(Some(a), b) || HasMinimumRole(Some(b), a)
  {
  }

  /** Learner is the least role and owner the greatest. */
  lemma LearnerAndOwnerAreExtremes(role: OrgRole)
    ensures HasMinimumRole(Some(role), Learner)
    ensures HasMinimumRole(Some(Owner), role)
    ensures HasMinimumRole(Some(role), Owner) <==> role == Owner
  {
    PriorityIsRank(role);
  }

  lemma RoleExamples()
    ensures HasMinimumRole(Some(Owner), Admin)
    ensures HasMinimumRole(Some(Admin), Manager)
    ensures !HasMinimumRole(Some(Learner), Manager)
    ensures !HasMinimumRole(None, Learner)
  {
  }
}
