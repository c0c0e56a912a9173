/** Carrying the chosen organisation in the product navigation's links (components/layout/product-nav.tsx). */
module ProductNav {
  import opened Wrappers
  import opened Text

  /** The query parameter's name and sign: `org=`. */
  const OrgParam: string := "org="

  /**
   * `withOrg`: without an organisation, or with an empty id, the path is
   * left alone; otherwise `org=<id>` is appended, after `&` when the path
   * already has a query and after `?` when it has none.
   */
  function WithOrg(path: string, orgId: Option<string>): (r: string)
    ensures orgId.None? || orgId.value == "" ==> r == path
    ensures orgId.Some? && orgId.value != "" ==>
      && StartsWith(r, path)
      && EndsWith(r, OrgParam + orgId.value)
      && |r| == |path| + 5 + |orgId.value|
      && r[|path|] == (if '?' in path then '&' else '?')
  {
    if orgId.None? || orgId.value == "" then path
    else
      var separator := if '?' in path then '&' else '?';
      var r := path + [separator] + OrgParam + orgId.value;
      assert r[..|path|] == path;
      assert r[|r| - |OrgParam + orgId.value|..] == OrgParam + orgId.value;
      r
  }

  /** The path a link was built from, given the organisation it carries: everything before the separator. */
  function PathOf(link: string, orgId: string): (path: string)
    requires |link| >= 5 + |orgId|
    ensures |path| == |link| - 5 - |orgId|
    ensures StartsWith(link, path)
  {
    link[..|link| - 5 - |orgId|]
  }

  /** The path is recovered from the link: two different paths never give the same link for one organisation. */
  lemma PathIsRecovered(path: string, orgId: string)
    requires orgId != ""
    ensures PathOf(WithOrg(path, Some(orgId)), orgId) == path
  {
  }

  /** Every link that carries an organisation has a query, so a second `withOrg` would use `&`. */
  lemma LinkHasQuery(path: string, orgId: string)
    requires orgId != ""
    ensures '?' in WithOrg(path, Some(orgId))
  {
    var r := WithOrg(path, Some(orgId));
    if '?' in path {
      var k :| 0 <= k < |path| && path[k] == '?';
      assert r[k] == '?';
    } else {
      assert r[|path|] == '?';
    }
  }

  /** A path without a query gets one. */
  lemma WithOrgStartsQuery()
    ensures WithOrg("/product/learn", Some("o1")) == "/product/learn?org=o1"
  {
    assert '?' !in "/product/learn";
  }

  /** A path with a query gets one more parameter. */
  lemma WithOrgExtendsQuery()
    ensures WithOrg("/learn?tab=2", Some("o1")) == "/learn?tab=2&org=o1"
  {
    assert "/learn?tab=2"[6] == '?';
  }
}
