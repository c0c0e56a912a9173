/**
 * The development-only "make me an owner" route
 * (app/api/me/bootstrap-owner/route.ts): the default workspace name, and the
 * POST decision over an in-memory store of organisations and memberships.
 * `randomUUID` is the parameter `newOrgId`; the request payload arrives
 * already parsed as the optional organisation name.
 */
module BootstrapOwner {
  import opened Wrappers
  import opened Text
  import opened Roles
  import opened OrgSelection

  // ---------------------------------------------------------------------------
  // defaultOrgName
  // ---------------------------------------------------------------------------

  /** The position of the first '@' in `s`, or `|s|` when there is none. */
  function FirstAt(s: string): (n: nat)
    ensures n <= |s|
    ensures '@' !in s[..n]
    ensures n < |s| ==> s[n] == '@'
  {
    if s == [] then 0
    else if s[0] == '@' then 0
    else
      var n := FirstAt(s[1..]);
      assert s[..n + 1] == [s[0]] + s[1..][..n];
      n + 1
  }

  const NewUser: string := "New User"
  const WorkspaceSuffix: string := "'s Workspace"
  const MaxOrgNameLength: nat := 80

  /** `(email ?? "New User").split("@")[0]?.trim() || "New User"`. */
  function NamePrefix(email: Option<string>): (p: string)
    ensures p != []
  {
    var address := email.GetOr(NewUser);
    var head := Trim(address[..FirstAt(address)]);
    if head == [] then NewUser else head
  }

  /** `defaultOrgName`: the prefix followed by "'s Workspace", cut to 80 characters. */
  function DefaultOrgName(email: Option<string>): (r: string)
    ensures |r| <= MaxOrgNameLength && |r| <= |NamePrefix(email) + WorkspaceSuffix|
    ensures r == (NamePrefix(email) + WorkspaceSuffix)[..|r|]
    ensures |r| == MaxOrgNameLength || r == NamePrefix(email) + WorkspaceSuffix
  {
    var full := NamePrefix(email) + WorkspaceSuffix;
    if |full| <= MaxOrgNameLength then full else full[..MaxOrgNameLength]
  }

  /** The prefix is the trimmed text before the address's first '@', when that is not empty. */
  lemma PrefixIsLocalPart(email: string)
    ensures Trim(email[..FirstAt(email)]) != [] ==>
      && NamePrefix(Some(email)) == Trim(email[..FirstAt(email)])
      && '@' !in NamePrefix(Some(email))
    ensures Trim(email[..FirstAt(email)]) == [] ==> NamePrefix(Some(email)) == NewUser
  {
    TrimKeepsAbsent(email[..FirstAt(email)], '@');
  }

  /** Without an address the name is "New User's Workspace". */
  lemma NoEmailName()
    ensures DefaultOrgName(None) == "New User's Workspace"
  {
    NoEmailPrefix();
    NoEmailNameSpelled();
  }

  lemma NoEmailPrefix()
    ensures NamePrefix(None) == NewUser
  {
    NewUserIsPlain();
    TrimOfTrimmed(NewUser);
  }

  lemma NoEmailNameSpelled()
    ensures NewUser + WorkspaceSuffix == "New User's Workspace"
  {
  }

  lemma NewUserIsPlain()
    ensures Trimmed(NewUser) && FirstAt(NewUser) == |NewUser|
  {
    assert '@' !in NewUser;
  }

  /** An address whose text before the '@' is blank is named like no address at all. */
  lemma BlankLocalPartName(local: string, domain: string)
    requires AllSpace(local)
    ensures DefaultOrgName(Some(local + "@" + domain)) == DefaultOrgName(None)
  {
    var address := local + "@" + domain;
    FirstAtAfter(local, domain);
    assert address[..FirstAt(address)] == local;
    assert local == local + [] + [];
    TrimOfPadded(local, [], []);
    NoEmailPrefix();
    assert NamePrefix(Some(address)) == NamePrefix(None);
  }

  /** A local part with no '@' and no whitespace at its ends names the workspace after itself. */
  lemma LocalPartName(local: string, domain: string)
    requires local != [] && Trimmed(local) && '@' !in local
    requires |local| + |WorkspaceSuffix| <= MaxOrgNameLength
    ensures DefaultOrgName(Some(local + "@" + domain)) == local + WorkspaceSuffix
  {
    var address := local + "@" + domain;
    FirstAtAfter(local, domain);
    assert address[..FirstAt(address)] == local;
    TrimOfTrimmed(local);
  }

  /** The first '@' of `local + "@" + domain` is the one after `local` when `local` has none. */
  lemma {:induction false} FirstAtAfter(local: string, domain: string)
    requires '@' !in local
    ensures FirstAt(local + "@" + domain) == |local|
  {
    if local != [] {
      assert (local + "@" + domain)[1..] == local[1..] + "@" + domain;
      FirstAtAfter(local[1..], domain);
    }
  }

  // ---------------------------------------------------------------------------
  // The store
  // ---------------------------------------------------------------------------

  datatype Organization = Organization(id: string, name: string)

  /** A row of `organization_members`. */
  datatype MemberRow = MemberRow(orgId: string, userId: string, email: string, role: OrgRole)

  datatype User = User(id: string, email: Option<string>)

  /** The name of the organisation with the given id, if there is one. */
  function OrgName(orgs: seq<Organization>, id: string): (r: Option<string>)
    ensures r.Some? <==> exists k :: 0 <= k < |orgs| && orgs[k].id == id
    ensures r.Some? ==> Organization(id, r.value) in orgs
  {
    if orgs == [] then None
    else if orgs[0].id == id then Some(orgs[0].name)
    else OrgName(orgs[1..], id)
  }

  /**
   * The user's memberships in row order, each joined with its organisation's
   * name; rows whose organisation is missing drop out of the inner join.
   */
  function MembershipsIn(orgs: seq<Organization>, rows: seq<MemberRow>, userId: string): (r: seq<OrgMembership>)
    ensures |r| <= |rows|
    ensures forall m :: m in r ==> OrgName(orgs, m.orgId) == Some(m.orgName)
    ensures forall m :: m in r ==> exists k :: 0 <= k < |rows| && rows[k].userId == userId && rows[k].orgId == m.orgId && rows[k].role == m.role
  {
    if rows == [] then []
    else
      var row := rows[|rows| - 1];
      var name := OrgName(orgs, row.orgId);
      MembershipsIn(orgs, rows[..|rows| - 1], userId)
        + (if row.userId == userId && name.Some? then [OrgMembership(row.orgId, name.value, row.role)] else [])
  }

  /** The rows are read in order: the memberships of a concatenation are those of each part, in turn. */
  lemma {:induction false} MembershipsInAppend(orgs: seq<Organization>, a: seq<MemberRow>, b: seq<MemberRow>, userId: string)
    ensures MembershipsIn(orgs, a + b, userId) == MembershipsIn(orgs, a, userId) + MembershipsIn(orgs, b, userId)
    decreases |b|
  {
    if b == [] {
      assert a + b == a;
    } else {
      var n := |b| - 1;
      assert (a + b)[..|a + b| - 1] == a + b[..n];
      assert (a + b)[|a + b| - 1] == b[n];
      MembershipsInAppend(orgs, a, b[..n], userId);
    }
  }

  /** A row whose user and organisation both exist shows up as a membership. */
  lemma {:induction false} RowIsMembership(orgs: seq<Organization>, rows: seq<MemberRow>, k: nat)
    requires k < |rows| && OrgName(orgs, rows[k].orgId).Some?
    ensures OrgMembership(rows[k].orgId, OrgName(orgs, rows[k].orgId).value, rows[k].role) in MembershipsIn(orgs, rows, rows[k].userId)
  {
    if k < |rows| - 1 {
      RowIsMembership(orgs, rows[..|rows| - 1], k);
    }
  }

  /** Two rows with the same organisation and user share the key of the upsert. */
  predicate SameKey(a: MemberRow, b: MemberRow) {
    a.orgId == b.orgId && a.userId == b.userId
  }

  /** No two rows share an (organisation, user) key, as the table's conflict target requires. */
  predicate KeysUnique(rows: seq<MemberRow>) {
    forall i, j :: 0 <= i < j < |rows| ==> !SameKey(rows[i], rows[j])
  }

  /** `upsert(row, { onConflict: "org_id,user_id" })`: replace the row with the same key, else append. */
  function Upsert(rows: seq<MemberRow>, row: MemberRow): (r: seq<MemberRow>)
    ensures row in r
    ensures forall x :: x in rows && !SameKey(x, row) ==> x in r
    ensures forall x :: x in r ==> x == row || (x in rows && !SameKey(x, row))
  {
    if exists k :: 0 <= k < |rows| && SameKey(rows[k], row) then
      var r := seq(|rows|, k requires 0 <= k < |rows| => if SameKey(rows[k], row) then row else rows[k]);
      var k :| 0 <= k < |rows| && SameKey(rows[k], row);
      assert r[k] == row;
      forall x | x in rows && !SameKey(x, row)
        ensures x in r
      {
        var j :| 0 <= j < |rows| && rows[j] == x;
        assert r[j] == x;
      }
      r
    else
      rows + [row]
  }

  /** Upserting keeps the keys unique. */
  lemma UpsertKeepsKeysUnique(rows: seq<MemberRow>, row: MemberRow)
    requires KeysUnique(rows)
    ensures KeysUnique(Upsert(rows, row))
  {
    var r := Upsert(rows, row);
    if !exists k :: 0 <= k < |rows| && SameKey(rows[k], row) {
      assert r == rows + [row];
      forall i, j | 0 <= i < j < |r|
        ensures !SameKey(r[i], r[j])
      {
        if j == |rows| {
          assert r[i] == rows[i];
        }
      }
    }
  }

  datatype ApiError = ApiError(code: string, status: int)

  datatype BootstrapOutcome =
    | AlreadyMember(memberships: seq<OrgMembership>)
    | Bootstrapped(createdOrganization: bool, membership: OrgMembership)

  /** The organisation the owner membership goes to: the oldest one, or a new one. */
  function ChosenOrg(orgs: seq<Organization>, user: User, orgName: Option<string>, newOrgId: string): (o: Organization)
    ensures orgs != [] ==> o == orgs[0]
    ensures orgs == [] ==> o.id == newOrgId && o.name == orgName.GetOr(DefaultOrgName(user.email))
  {
    if orgs != [] then orgs[0] else Organization(newOrgId, orgName.GetOr(DefaultOrgName(user.email)))
  }

  /** The e-mail stored on the owner row: the user's own, or `<id>@local.dev` when the user has none. */
  function RowEmail(user: User): (e: string)
    ensures user.email.Some? ==> e == user.email.value
    ensures user.email.None? ==> e == user.id + "@local.dev" && EndsWith(e, "@local.dev")
  {
    user.email.GetOr(user.id + "@local.dev")
  }

  /**
   * The organisations and memberships of one deployment; `organizations` and
   * `members` are in creation order.
   */
  class OrgStore {
    var organizations: seq<Organization>
    var members: seq<MemberRow>

    predicate Valid()
      reads this
    {
      KeysUnique(members)
    }

    constructor(organizations: seq<Organization>, members: seq<MemberRow>)
      requires KeysUnique(members)
      ensures this.organizations == organizations && this.members == members
      ensures Valid()
    {
      this.organizations := organizations;
      this.members := members;
    }

    /** The memberships the route reads for a user. */
    function MembershipsOf(userId: string): seq<OrgMembership>
      reads this
    {
      MembershipsIn(organizations, members, userId)
    }

    /**
     * `POST /api/me/bootstrap-owner`: refused with AUTH_ERROR 403 when the
     * flow is disabled; a user with memberships gets them back and nothing
     * is written; otherwise the user becomes owner of the oldest
     * organisation, or of a new one named `orgName` or the default name.
     */
    method Bootstrap(allowDevBootstrap: bool, user: User, orgName: Option<string>, newOrgId: string)
      returns (r: Result<BootstrapOutcome, ApiError>)
      requires Valid()
      modifies this
      ensures Valid()
      ensures !allowDevBootstrap ==> r == Err(ApiError("AUTH_ERROR", 403)) && unchanged(this)
      ensures allowDevBootstrap && old(MembershipsOf(user.id)) != [] ==>
        r == Ok(AlreadyMember(old(MembershipsOf(user.id)))) && unchanged(this)
      ensures allowDevBootstrap && old(MembershipsOf(user.id)) == [] ==>
        var org := ChosenOrg(old(organizations), user, orgName, newOrgId);
        var created := old(organizations) == [];
        && organizations == old(organizations) + (if created then [org] else [])
        && members == Upsert(old(members), MemberRow(org.id, user.id, RowEmail(user), Owner))
        && r == Ok(Bootstrapped(created, OrgMembership(org.id, org.name, Owner)))
    {
      if !allowDevBootstrap {
        return Err(ApiError("AUTH_ERROR", 403));
      }
      var existingMemberships := MembershipsIn(organizations, members, user.id);
      if existingMemberships != [] {
        return Ok(AlreadyMember(existingMemberships));
      }
      var orgId: string;
      var name: string;
      var createdOrganization := false;
      if organizations != [] {
        orgId := organizations[0].id;
        name := organizations[0].name;
      } else {
        createdOrganization := true;
        orgId := newOrgId;
        name := orgName.GetOr(DefaultOrgName(user.email));
        organizations := organizations + [Organization(orgId, name)];
      }
      UpsertKeepsKeysUnique(members, MemberRow(orgId, user.id, RowEmail(user), Owner));
      members := Upsert(members, MemberRow(orgId, user.id, RowEmail(user), Owner));
      r := Ok(Bootstrapped(createdOrganization, OrgMembership(orgId, name, Owner)));
    }
  }

  /**
   * After a bootstrap that wrote, the user holds the owner membership the
   * route reported, so a repeated call writes nothing.
   */
  lemma BootstrapMakesOwner(orgs: seq<Organization>, rows: seq<MemberRow>, user: User, orgName: Option<string>, newOrgId: string)
    ensures
      var org := ChosenOrg(orgs, user, orgName, newOrgId);
      var orgs' := orgs + (if orgs == [] then [org] else []);
      var rows' := Upsert(rows, MemberRow(org.id, user.id, RowEmail(user), Owner));
      && OrgMembership(org.id, org.name, Owner) in MembershipsIn(orgs', rows', user.id)
      && MembershipsIn(orgs', rows', user.id) != []
  {
    var org := ChosenOrg(orgs, user, orgName, newOrgId);
    var orgs' := orgs + (if orgs == [] then [org] else []);
    var row := MemberRow(org.id, user.id, RowEmail(user), Owner);
    var rows' := Upsert(rows, row);
    assert orgs'[0] == org;
    assert OrgName(orgs', org.id) == Some(org.name);
    var k :| 0 <= k < |rows'| && rows'[k] == row;
    RowIsMembership(orgs', rows', k);
  }
}
