/**
 * The one-off upgrade of draft campaigns to learning flow version 2
 * (scripts/backfill-learning-flow-v2.ts): the coercions of the stored
 * `role_tracks` and `policy_ids` columns, and the per-campaign loop with its
 * counters.
 *
 * The store is abstracted to the calls the script makes. Reads return what
 * the parameters `obligationsOf` and `modulesOf` say; every checked call may
 * fail, as the parameter `fails(campaign, call)` says; and the writes that
 * went through are recorded, in order, as `Write` values. `randomUUID` is
 * the parameters `embedId` and `newModuleId`.
 */
module Backfill {
  import opened Wrappers
  import opened Json
  import opened Schemas
  import opened QuizSync
  import opened CampaignCopy
  import opened CampaignGenerator

  // ---------------------------------------------------------------------------
  // asRoleTracks and asPolicyIds
  // ---------------------------------------------------------------------------

  /** The track an array element names, if it is one of the three track strings. */
  function TrackOf(v: Json): (r: Option<RoleTrack>)
    ensures r.Some? ==> v == JString(TrackName(r.value))
    ensures r.None? ==> forall t :: v != JString(TrackName(t))
  {
    if v == JString("exec") then Some(Exec)
    else if v == JString("builder") then Some(Builder)
    else if v == JString("general") then Some(General)
    else None
  }

  /** The elements that name a track, in order, repeats kept. */
  function KeptTracks(items: seq<Json>): (r: seq<RoleTrack>)
    ensures |r| <= |items|
  {
    if items == [] then []
    else
      var last := items[|items| - 1];
      KeptTracks(items[..|items| - 1]) + (if TrackOf(last).Some? then [TrackOf(last).value] else [])
  }

  /** Filtering distributes over concatenation: order and repeats are kept. */
  lemma {:induction false} KeptTracksAppend(a: seq<Json>, b: seq<Json>)
    ensures KeptTracks(a + b) == KeptTracks(a) + KeptTracks(b)
  {
    if b != [] {
      assert (a + b)[..|a + b| - 1] == a + b[..|b| - 1];
      KeptTracksAppend(a, b[..|b| - 1]);
    } else {
      assert a + b == a;
    }
  }

  /** A track is kept exactly when some element names it. */
  lemma {:induction false} KeptTracksMembership(items: seq<Json>, t: RoleTrack)
    ensures t in KeptTracks(items) <==> JString(TrackName(t)) in items
  {
    if items != [] {
      var init, last := items[..|items| - 1], items[|items| - 1];
      assert items == init + [last];
      KeptTracksMembership(init, t);
    }
  }

  /** `asRoleTracks`: the array's track names, or all three tracks when it is not an array or names none. */
  function AsRoleTracks(input: Json): (r: seq<RoleTrack>)
    ensures r != []
    ensures !input.JArray? ==> r == DefaultTracks
    ensures input.JArray? ==> r == if KeptTracks(input.items) == [] then DefaultTracks else KeptTracks(input.items)
  {
    match input
    case JArray(items) =>
      var tracks := KeptTracks(items);
      if |tracks| > 0 then tracks else DefaultTracks
    case _ => DefaultTracks
  }

  /** Duplicates are kept: ["exec", 7, "exec"] reads as exec twice. */
  lemma RoleTracksKeepRepeats()
    ensures AsRoleTracks(JArray([JString("exec"), JNumber(7), JString("exec")])) == [Exec, Exec]
  {
    var items := [JString("exec"), JNumber(7), JString("exec")];
    assert items[..1][..0] == [];
    assert KeptTracks(items[..1]) == [Exec];
    assert items[..2][..1] == items[..1];
    assert KeptTracks(items[..2]) == [Exec];
    assert items[..2] == items[..|items| - 1];
    assert KeptTracks(items) == [Exec, Exec];
  }

  /** The policy id an array element holds, if it is a non-empty string. */
  function PolicyIdOf(v: Json): (r: Option<string>)
    ensures r.Some? <==> v.JString? && v.s != ""
    ensures r.Some? ==> v == JString(r.value)
  {
    if v.JString? && |v.s| > 0 then Some(v.s) else None
  }

  /** The non-empty strings of the array, in order. */
  function KeptIds(items: seq<Json>): (r: seq<string>)
    ensures |r| <= |items|
  {
    if items == [] then []
    else
      var last := items[|items| - 1];
      KeptIds(items[..|items| - 1]) + (if PolicyIdOf(last).Some? then [PolicyIdOf(last).value] else [])
  }

  /** A string is kept exactly when it is non-empty and an element of the array. */
  lemma {:induction false} KeptIdsMembership(items: seq<Json>, s: string)
    ensures s in KeptIds(items) <==> s != "" && JString(s) in items
  {
    if items != [] {
      var init, last := items[..|items| - 1], items[|items| - 1];
      assert items == init + [last];
      KeptIdsMembership(init, s);
    }
  }

  /** Filtering distributes over concatenation: order is kept. */
  lemma {:induction false} KeptIdsAppend(a: seq<Json>, b: seq<Json>)
    ensures KeptIds(a + b) == KeptIds(a) + KeptIds(b)
  {
    if b != [] {
      assert (a + b)[..|a + b| - 1] == a + b[..|b| - 1];
      KeptIdsAppend(a, b[..|b| - 1]);
    } else {
      assert a + b == a;
    }
  }

  /** `asPolicyIds`: the array's non-empty strings; nothing when it is not an array. */
  function AsPolicyIds(input: Json): (r: seq<string>)
    ensures !input.JArray? ==> r == []
    ensures input.JArray? ==> r == KeptIds(input.items)
    ensures forall s :: s in r ==> s != ""
  {
    match input
    case JArray(items) =>
      forall s | s in KeptIds(items)
        ensures s != ""
      {
        KeptIdsMembership(items, s);
      }
      KeptIds(items)
    case _ => []
  }

  // ---------------------------------------------------------------------------
  // The store calls of one campaign
  // ---------------------------------------------------------------------------

  /** A `learning_campaigns` row with status draft. */
  datatype CampaignRow = CampaignRow(id: string, orgId: string, name: string, policyIds: Json, roleTracks: Json)

  /** A `learning_modules` row of the campaign. */
  datatype ModuleRow = ModuleRow(id: string, roleTrack: RoleTrack)

  /** A write the store carried out. */
  datatype Write =
    | UpdateModule(orgId: string, campaignId: string, moduleId: string, content: GeneratedModule)
    | DeleteQuestions(orgId: string, moduleId: string)
    | InsertModule(orgId: string, campaignId: string, moduleId: string, content: GeneratedModule)
    | InsertQuestions(orgId: string, moduleId: string, questions: seq<QuizQuestion>)
      /** `flow_version = 2` for the campaign, only while its status is still draft. */
    | UpgradeDraftCampaign(orgId: string, campaignId: string)
    | AuditUpgrade(orgId: string, campaignId: string)

  /** A store call whose error the script checks. */
  datatype Call = FetchObligations | FetchModules | Store(write: Write)

  /** What the script's environment supplies. */
  datatype Env = Env(
    text: FallbackCopy,
    gen: Generator,
    digest: SourceDigest,
    embedId: (nat, nat, nat) -> string,
    newModuleId: (nat, nat) -> string,
    obligationsOf: (string, seq<string>) -> seq<Obligation>,
    modulesOf: CampaignRow -> seq<ModuleRow>,
    fails: (nat, nat) -> bool)

  /** The obligations of the campaign's policies; a campaign without policies queries a fresh id and finds none. */
  function CampaignObligations(env: Env, c: CampaignRow): (r: seq<Obligation>)
    ensures AsPolicyIds(c.policyIds) == [] ==> r == []
    ensures AsPolicyIds(c.policyIds) != [] ==> r == env.obligationsOf(c.orgId, AsPolicyIds(c.policyIds))
  {
    var policyIds := AsPolicyIds(c.policyIds);
    if |policyIds| > 0 then env.obligationsOf(c.orgId, policyIds) else []
  }

  /** The ids drawn for the `ci`-th campaign's embeds, by module and embed. */
  function EmbedIdsOf(env: Env, ci: nat): (nat, nat) -> string {
    (i: nat, j: nat) => env.embedId(ci, i, j)
  }

  /** The draft generated for the `ci`-th campaign, from its name, its obligations and its coerced tracks. */
  function CampaignDraft(env: Env, ci: nat, c: CampaignRow): (d: GeneratedDraft)
    ensures d.flowVersion == 2
    ensures |d.modules| == |OrderedTracks(AsRoleTracks(c.roleTracks))|
  {
    GenerateCampaignDraft(
      env.text, env.gen, env.digest, EmbedIdsOf(env, ci),
      GenerateDraftInput(c.name, CampaignObligations(env, c), AsRoleTracks(c.roleTracks)))
  }

  /** `new Map(rows.map(row => [row.role_track, row.id]))`: the tracks that have a row, each with the id of a row. */
  function ExistingModules(rows: seq<ModuleRow>): (m: map<RoleTrack, string>)
    ensures forall t :: t in m <==> exists k :: 0 <= k < |rows| && rows[k].roleTrack == t
  {
    if rows == [] then map[]
    else
      var n := |rows| - 1;
      var prior := ExistingModules(rows[..n]);
      forall t
        ensures t in prior <==> exists k :: 0 <= k < n && rows[k].roleTrack == t
      {
        if exists k :: 0 <= k < n && rows[k].roleTrack == t {
          var k :| 0 <= k < n && rows[k].roleTrack == t;
          assert rows[..n][k].roleTrack == t;
        }
      }
      prior[rows[n].roleTrack := rows[n].id]
  }

  /** Of several rows for one track, the last one's id is kept. */
  lemma {:induction false} LaterRowWins(rows: seq<ModuleRow>, k: nat)
    requires k < |rows|
    requires forall j :: k < j < |rows| ==> rows[j].roleTrack != rows[k].roleTrack
    ensures ExistingModules(rows)[rows[k].roleTrack] == rows[k].id
  {
    var n := |rows| - 1;
    if k < n {
      forall j | k < j < n
        ensures rows[..n][j].roleTrack != rows[..n][k].roleTrack
      {
      }
      LaterRowWins(rows[..n], k);
      assert rows[..n][k] == rows[k];
    }
  }

  /**
   * The calls for one generated module: a module the campaign already has
   * for the track, under an id that is not empty, is updated and its
   * questions deleted, otherwise a module is inserted; then the new
   * questions are inserted under the module's id.
   */
  function ModuleCalls(c: CampaignRow, m: GeneratedModule, existing: map<RoleTrack, string>, newId: string): (r: seq<Call>)
    ensures 2 <= |r| <= 3 && r[|r| - 1].Store? && r[|r| - 1].write.InsertQuestions?
    ensures forall k :: 0 <= k < |r| ==>
      r[k].Store? && r[k].write.orgId == c.orgId && !r[k].write.UpgradeDraftCampaign? && !r[k].write.AuditUpgrade?
    ensures |r| == 3 <==> m.roleTrack in existing && existing[m.roleTrack] != ""
    ensures |r| == 3 ==> r[0].write.UpdateModule? && r[0].write.content == m && r[1].write.DeleteQuestions?
    ensures |r| == 3 ==> r[0].write.moduleId == r[1].write.moduleId == r[2].write.moduleId == existing[m.roleTrack]
    ensures |r| == 2 ==> r[0].write.InsertModule? && r[0].write.content == m
    ensures |r| == 2 ==> r[0].write.moduleId == r[1].write.moduleId == ModuleIdFor(m, existing, newId)
    ensures r[|r| - 1].write.questions == m.quizQuestions
  {
    var moduleId := ModuleIdFor(m, existing, newId);
    var replaced := m.roleTrack in existing && existing[m.roleTrack] != "";
    (if replaced then [Store(UpdateModule(c.orgId, c.id, moduleId, m)), Store(DeleteQuestions(c.orgId, moduleId))]
     else [Store(InsertModule(c.orgId, c.id, moduleId, m))])
    + [Store(InsertQuestions(c.orgId, moduleId, m.quizQuestions))]
  }

  /** The id the module's rows are written under: the existing module's id for the track, else a fresh one. */
  function ModuleIdFor(m: GeneratedModule, existing: map<RoleTrack, string>, newId: string): string {
    if m.roleTrack in existing then existing[m.roleTrack] else newId
  }

  /** Which calls of the `ci`-th campaign fail. */
  function CampaignFails(env: Env, ci: nat): nat -> bool {
    (k: nat) => env.fails(ci, k)
  }

  /** The fresh ids drawn for the `ci`-th campaign's new modules. */
  function NewModuleIds(env: Env, ci: nat): nat -> string {
    (k: nat) => env.newModuleId(ci, k)
  }

  /** The calls for the draft's modules, module by module. */
  function DraftCalls(c: CampaignRow, modules: seq<GeneratedModule>, existing: map<RoleTrack, string>, newId: nat -> string): (r: seq<Call>)
    ensures 2 * |modules| <= |r| <= 3 * |modules|
    ensures forall k :: 0 <= k < |r| ==>
      r[k].Store? && r[k].write.orgId == c.orgId && !r[k].write.UpgradeDraftCampaign? && !r[k].write.AuditUpgrade?
  {
    if modules == [] then []
    else
      var n := |modules| - 1;
      DraftCalls(c, modules[..n], existing, newId) + ModuleCalls(c, modules[n], existing, newId(n))
  }

  /** Adding a module to the draft appends that module's calls, under the next id. */
  lemma DraftCallsSnoc(c: CampaignRow, modules: seq<GeneratedModule>, m: GeneratedModule, existing: map<RoleTrack, string>, newId: nat -> string)
    ensures DraftCalls(c, modules + [m], existing, newId) ==
      DraftCalls(c, modules, existing, newId) + ModuleCalls(c, m, existing, newId(|modules|))
  {
    assert (modules + [m])[..|modules|] == modules;
  }

  /** The module writes framed by the two reads before them and the upgrade after them. */
  function ApplyCalls(c: CampaignRow, moduleCalls: seq<Call>): (r: seq<Call>)
    requires forall k :: 0 <= k < |moduleCalls| ==>
      moduleCalls[k].Store? && moduleCalls[k].write.orgId == c.orgId && !moduleCalls[k].write.UpgradeDraftCampaign? && !moduleCalls[k].write.AuditUpgrade?
    ensures |r| == |moduleCalls| + 3 && r[0] == FetchObligations && r[1] == FetchModules
    ensures r[2..|r| - 1] == moduleCalls && r[|r| - 1] == Store(UpgradeDraftCampaign(c.orgId, c.id))
    ensures forall k :: 0 <= k < |r| && r[k].Store? ==> r[k].write.orgId == c.orgId && !r[k].write.AuditUpgrade?
    ensures forall k :: 0 <= k < |r| - 1 ==> !(r[k].Store? && r[k].write.UpgradeDraftCampaign?)
  {
    var r := [FetchObligations, FetchModules] + moduleCalls + [Store(UpgradeDraftCampaign(c.orgId, c.id))];
    assert forall k :: 2 <= k < |r| - 1 ==> r[k] == moduleCalls[k - 2];
    r
  }

  /**
   * The calls of one campaign, if none fails: a dry run only fetches the
   * obligations; apply mode then fetches the modules, writes each module
   * with its questions, and marks the campaign as flow version 2 last.
   */
  function PlannedCalls(apply: bool, env: Env, ci: nat, c: CampaignRow): (r: seq<Call>)
    ensures r != [] && r[0] == FetchObligations
    ensures !apply ==> r == [FetchObligations]
    ensures apply ==> |r| >= 3 && r[1] == FetchModules && r[|r| - 1] == Store(UpgradeDraftCampaign(c.orgId, c.id))
    ensures apply ==> r[2..|r| - 1] == DraftCalls(c, CampaignDraft(env, ci, c).modules, ExistingModules(env.modulesOf(c)), NewModuleIds(env, ci))
    ensures forall k :: 0 <= k < |r| && r[k].Store? ==> r[k].write.orgId == c.orgId && !r[k].write.AuditUpgrade?
    ensures forall k :: 0 <= k < |r| - 1 ==> !(r[k].Store? && r[k].write.UpgradeDraftCampaign?)
  {
    if !apply then [FetchObligations]
    else
      ApplyCalls(c, DraftCalls(c, CampaignDraft(env, ci, c).modules, ExistingModules(env.modulesOf(c)), NewModuleIds(env, ci)))
  }

  /** The writes among the first `n` calls, in order. */
  function Performed(calls: seq<Call>, n: nat): (r: seq<Write>)
    requires n <= |calls|
    ensures |r| <= n
    ensures forall w :: w in r ==> exists k :: 0 <= k < n && calls[k] == Store(w)
  {
    if n == 0 then []
    else
      Performed(calls, n - 1) + (if calls[n - 1].Store? then [calls[n - 1].write] else [])
  }

  /** The first of the first `n` calls that fails, if any. */
  function FirstFailure(n: nat, fails: nat -> bool): (r: Option<nat>)
    ensures r.Some? ==> r.value < n && fails(r.value) && forall k :: 0 <= k < r.value ==> !fails(k)
    ensures r.None? <==> forall k :: 0 <= k < n ==> !fails(k)
  {
    if n == 0 then None
    else
      match FirstFailure(n - 1, fails)
      case Some(k) => Some(k)
      case None => if fails(n - 1) then Some(n - 1) else None
  }

  /** A failing call with none failing before it is the first failure. */
  lemma FirstFailureAt(n: nat, fails: nat -> bool, k: nat)
    requires k < n && fails(k) && forall j :: 0 <= j < k ==> !fails(j)
    ensures FirstFailure(n, fails) == Some(k)
  {
  }

  datatype CampaignOutcome = CampaignOutcome(writes: seq<Write>, upgraded: bool)

  /**
   * One pass of the loop body over its calls: they run in order until one
   * fails; the writes before it stay (there is no transaction) and the
   * campaign counts as failed. When none fails, apply mode also writes the
   * audit row, whose error the script does not check.
   */
  function Execute(apply: bool, c: CampaignRow, calls: seq<Call>, fails: nat -> bool): (o: CampaignOutcome)
    ensures o.upgraded <==> forall k :: 0 <= k < |calls| ==> !fails(k)
    ensures o.upgraded ==> o.writes == Performed(calls, |calls|) + (if apply then [AuditUpgrade(c.orgId, c.id)] else [])
    ensures !o.upgraded ==> exists k :: 0 <= k < |calls| && fails(k) && o.writes == Performed(calls, k)
    ensures (forall k :: 0 <= k < |calls| && calls[k].Store? ==> calls[k].write.orgId == c.orgId) ==>
      forall w :: w in o.writes ==> w.orgId == c.orgId
  {
    match FirstFailure(|calls|, fails)
    case Some(k) => CampaignOutcome(Performed(calls, k), false)
    case None => CampaignOutcome(Performed(calls, |calls|) + (if apply then [AuditUpgrade(c.orgId, c.id)] else []), true)
  }
  /** The script stops at the first call that throws: a failed campaign keeps exactly the writes before it. */
  lemma ExecuteStopsAtFirstFailure(apply: bool, c: CampaignRow, calls: seq<Call>, fails: nat -> bool)
    ensures !Execute(apply, c, calls, fails).upgraded ==>
      FirstFailure(|calls|, fails).Some? && Execute(apply, c, calls, fails).writes == Performed(calls, FirstFailure(|calls|, fails).value)
    ensures !Execute(apply, c, calls, fails).upgraded ==>
      exists k :: 0 <= k < |calls| && fails(k) && (forall j :: 0 <= j < k ==> !fails(j)) && Execute(apply, c, calls, fails).writes == Performed(calls, k)
  {
  }


  /** The loop body for the `ci`-th campaign: its writes all stay within the campaign's organisation. */
  function ProcessCampaign(apply: bool, env: Env, ci: nat, c: CampaignRow): (o: CampaignOutcome)
    ensures forall w :: w in o.writes ==> w.orgId == c.orgId
  {
    Execute(apply, c, PlannedCalls(apply, env, ci, c), CampaignFails(env, ci))
  }

  /** A dry run only reads: it writes nothing, and the campaign counts as upgraded unless its one read fails. */
  lemma DryRunWritesNothing(env: Env, ci: nat, c: CampaignRow)
    ensures ProcessCampaign(false, env, ci, c).writes == []
    ensures ProcessCampaign(false, env, ci, c).upgraded <==> !env.fails(ci, 0)
  {
    var calls := PlannedCalls(false, env, ci, c);
    assert Performed(calls, 0) == [];
    assert Performed(calls, 1) == [];
  }

  /** When the upgrade is the last of the calls, it is among the writes only if every call went through. */
  lemma {:induction false} UpgradeIsWrittenLast(c: CampaignRow, calls: seq<Call>, fails: nat -> bool, n: nat)
    requires n < |calls|
    requires forall k :: 0 <= k < |calls| - 1 ==> !(calls[k].Store? && calls[k].write.UpgradeDraftCampaign?)
    ensures forall w :: w in Performed(calls, n) ==> !w.UpgradeDraftCampaign?
  {
  }

  /**
   * A campaign is marked as flow version 2 only when every call went
   * through: it then counts as upgraded, and its writes are all the
   * planned ones followed by the audit row.
   */
  lemma UpgradeOnlyAfterEveryWrite(env: Env, ci: nat, c: CampaignRow)
    ensures UpgradeDraftCampaign(c.orgId, c.id) in ProcessCampaign(true, env, ci, c).writes ==>
      && ProcessCampaign(true, env, ci, c).upgraded
      && ProcessCampaign(true, env, ci, c).writes
           == Performed(PlannedCalls(true, env, ci, c), |PlannedCalls(true, env, ci, c)|) + [AuditUpgrade(c.orgId, c.id)]
  {
    var calls := PlannedCalls(true, env, ci, c);
    var fails := CampaignFails(env, ci);
    var o := Execute(true, c, calls, fails);
    if !o.upgraded {
      var k :| 0 <= k < |calls| && fails(k) && o.writes == Performed(calls, k);
      UpgradeIsWrittenLast(c, calls, fails, k);
    }
  }

  /** A track the campaign already has a module for is updated, cleared of questions, then refilled, in that order. */
  lemma ExistingModuleIsReplaced(c: CampaignRow, m: GeneratedModule, existing: map<RoleTrack, string>, newId: string)
    requires m.roleTrack in existing && existing[m.roleTrack] != ""
    ensures
      var id := existing[m.roleTrack];
      ModuleCalls(c, m, existing, newId) == [
        Store(UpdateModule(c.orgId, c.id, id, m)),
        Store(DeleteQuestions(c.orgId, id)),
        Store(InsertQuestions(c.orgId, id, m.quizQuestions))]
  {
  }

  /** A track without a module gets a new one under a fresh id, then its questions. */
  lemma MissingModuleIsInserted(c: CampaignRow, m: GeneratedModule, existing: map<RoleTrack, string>, newId: string)
    requires m.roleTrack !in existing
    ensures ModuleCalls(c, m, existing, newId) == [
      Store(InsertModule(c.orgId, c.id, newId, m)),
      Store(InsertQuestions(c.orgId, newId, m.quizQuestions))]
  {
  }

  /** The calls of one campaign run one by one until one fails. */
  method ExecuteCalls(apply: bool, c: CampaignRow, calls: seq<Call>, fails: nat -> bool) returns (writes: seq<Write>, upgraded: bool)
    ensures CampaignOutcome(writes, upgraded) == Execute(apply, c, calls, fails)
  {
    writes := [];
    var k := 0;
    while k < |calls|
      invariant 0 <= k <= |calls|
      invariant writes == Performed(calls, k)
      invariant forall j :: 0 <= j < k ==> !fails(j)
    {
      if fails(k) {
        FirstFailureAt(|calls|, fails, k);
        return writes, false;
      }
      if calls[k].Store? {
        writes := writes + [calls[k].write];
      }
      k := k + 1;
    }
    if apply {
      writes := writes + [AuditUpgrade(c.orgId, c.id)];
    }
    upgraded := true;
  }

  /** The loop body for the `ci`-th campaign. */
  method RunCampaign(apply: bool, env: Env, ci: nat, c: CampaignRow) returns (writes: seq<Write>, upgraded: bool)
    ensures CampaignOutcome(writes, upgraded) == ProcessCampaign(apply, env, ci, c)
  {
    var calls := PlannedCalls(apply, env, ci, c);
    writes, upgraded := ExecuteCalls(apply, c, calls, CampaignFails(env, ci));
  }

  // ---------------------------------------------------------------------------
  // The loop over campaigns
  // ---------------------------------------------------------------------------

  /** The writes of the whole run, campaign by campaign. */
  function RunWrites(apply: bool, env: Env, campaigns: seq<CampaignRow>): (r: seq<Write>)
    ensures campaigns == [] ==> r == []
  {
    if campaigns == [] then []
    else
      var n := |campaigns| - 1;
      RunWrites(apply, env, campaigns[..n]) + ProcessCampaign(apply, env, n, campaigns[n]).writes
  }

  /** Every write of the run belongs to the organisation of one of the campaigns. */
  lemma {:induction false} RunWritesStayInOrgs(apply: bool, env: Env, campaigns: seq<CampaignRow>)
    ensures forall w :: w in RunWrites(apply, env, campaigns) ==> exists k :: 0 <= k < |campaigns| && w.orgId == campaigns[k].orgId
  {
    if campaigns != [] {
      var n := |campaigns| - 1;
      RunWritesStayInOrgs(apply, env, campaigns[..n]);
      forall w | w in RunWrites(apply, env, campaigns)
        ensures exists k :: 0 <= k < |campaigns| && w.orgId == campaigns[k].orgId
      {
        if w in RunWrites(apply, env, campaigns[..n]) {
          var k :| 0 <= k < n && w.orgId == campaigns[..n][k].orgId;
          assert campaigns[k] == campaigns[..n][k];
        } else {
          assert w.orgId == campaigns[n].orgId;
        }
      }
    }
  }

  /** The ids of the campaigns that failed, in order. */
  function FailedIds(apply: bool, env: Env, campaigns: seq<CampaignRow>): (r: seq<string>)
    ensures |r| <= |campaigns|
  {
    if campaigns == [] then []
    else
      var n := |campaigns| - 1;
      FailedIds(apply, env, campaigns[..n]) + (if ProcessCampaign(apply, env, n, campaigns[n]).upgraded then [] else [campaigns[n].id])
  }

  /** Every listed failure is the id of a campaign whose loop body failed. */
  lemma {:induction false} FailedIdsAreFailures(apply: bool, env: Env, campaigns: seq<CampaignRow>)
    ensures forall id :: id in FailedIds(apply, env, campaigns) ==>
      exists k :: 0 <= k < |campaigns| && campaigns[k].id == id && !ProcessCampaign(apply, env, k, campaigns[k]).upgraded
  {
    if campaigns != [] {
      var n := |campaigns| - 1;
      FailedIdsAreFailures(apply, env, campaigns[..n]);
      forall id | id in FailedIds(apply, env, campaigns)
        ensures exists k :: 0 <= k < |campaigns| && campaigns[k].id == id && !ProcessCampaign(apply, env, k, campaigns[k]).upgraded
      {
        if id in FailedIds(apply, env, campaigns[..n]) {
          var k :| 0 <= k < n && campaigns[..n][k].id == id && !ProcessCampaign(apply, env, k, campaigns[..n][k]).upgraded;
          assert campaigns[k] == campaigns[..n][k];
        } else {
          assert campaigns[n].id == id && !ProcessCampaign(apply, env, n, campaigns[n]).upgraded;
        }
      }
    }
  }

  /** Conversely, every campaign whose loop body failed is listed among the failures. */
  lemma FailedCampaignIsListed(apply: bool, env: Env, campaigns: seq<CampaignRow>, k: nat)
    requires k < |campaigns| && !ProcessCampaign(apply, env, k, campaigns[k]).upgraded
    ensures campaigns[k].id in FailedIds(apply, env, campaigns)
  {
    RunStep(apply, env, campaigns, k);
    FailureStaysListed(apply, env, campaigns, campaigns[k].id, k + 1);
  }

  /** A failure listed after the first `j` campaigns stays listed to the end of the run. */
  lemma {:induction false} FailureStaysListed(apply: bool, env: Env, campaigns: seq<CampaignRow>, id: string, j: nat)
    requires j <= |campaigns| && id in FailedIds(apply, env, campaigns[..j])
    ensures id in FailedIds(apply, env, campaigns)
    decreases |campaigns| - j
  {
    if j < |campaigns| {
      RunStep(apply, env, campaigns, j);
      FailureStaysListed(apply, env, campaigns, id, j + 1);
    } else {
      assert campaigns[..j] == campaigns;
    }
  }

  /** One more campaign adds its writes and, when it fails, its id. */
  lemma RunStep(apply: bool, env: Env, campaigns: seq<CampaignRow>, i: nat)
    requires i < |campaigns|
    ensures RunWrites(apply, env, campaigns[..i + 1]) == RunWrites(apply, env, campaigns[..i]) + ProcessCampaign(apply, env, i, campaigns[i]).writes
    ensures FailedIds(apply, env, campaigns[..i + 1])
      == FailedIds(apply, env, campaigns[..i]) + (if ProcessCampaign(apply, env, i, campaigns[i]).upgraded then [] else [campaigns[i].id])
  {
    assert campaigns[..i + 1][..i] == campaigns[..i];
  }

  /** RunStep for an outcome already computed: its writes and its failure extend the run's. */
  lemma RunStepWith(apply: bool, env: Env, campaigns: seq<CampaignRow>, i: nat, writes: seq<Write>, upgraded: bool)
    requires i < |campaigns|
    requires CampaignOutcome(writes, upgraded) == ProcessCampaign(apply, env, i, campaigns[i])
    ensures RunWrites(apply, env, campaigns[..i + 1]) == RunWrites(apply, env, campaigns[..i]) + writes
    ensures FailedIds(apply, env, campaigns[..i + 1]) == FailedIds(apply, env, campaigns[..i]) + (if upgraded then [] else [campaigns[i].id])
  {
    RunStep(apply, env, campaigns, i);
  }

  /** A dry run writes nothing at all. */
  lemma {:induction false} DryRunLeavesStoreAlone(env: Env, campaigns: seq<CampaignRow>)
    ensures RunWrites(false, env, campaigns) == []
  {
    if campaigns != [] {
      var n := |campaigns| - 1;
      DryRunLeavesStoreAlone(env, campaigns[..n]);
      DryRunWritesNothing(env, n, campaigns[n]);
    }
  }

  /** The counters the script prints. */
  class Summary {
    const apply: bool
    var totalDraftCampaigns: nat
    var upgraded: nat
    var skipped: int
    var failed: nat
    var failures: seq<string>

    constructor(apply: bool)
      ensures this.apply == apply
      ensures totalDraftCampaigns == 0 && upgraded == 0 && skipped == 0 && failed == 0 && failures == []
    {
      this.apply := apply;
      totalDraftCampaigns := 0;
      upgraded := 0;
      skipped := 0;
      failed := 0;
      failures := [];
    }

    /**
     * `main`'s loop over the draft campaigns, oldest first: every one is
     * upgraded or failed, never skipped; the failures are listed in order;
     * the store receives each campaign's writes in campaign order.
     */
    method Run(env: Env, campaigns: seq<CampaignRow>) returns (writes: seq<Write>)
      modifies this
      ensures writes == RunWrites(apply, env, campaigns)
      ensures totalDraftCampaigns == |campaigns|
      ensures failures == FailedIds(apply, env, campaigns)
      ensures failed == |failures|
      ensures upgraded + failed == totalDraftCampaigns
      ensures skipped == 0
    {
      totalDraftCampaigns := |campaigns|;
      upgraded := 0;
      failed := 0;
      failures := [];
      writes := [];
      var i := 0;
      while i < |campaigns|
        invariant 0 <= i <= |campaigns|
        invariant totalDraftCampaigns == |campaigns|
        invariant writes == RunWrites(apply, env, campaigns[..i])
        invariant failures == FailedIds(apply, env, campaigns[..i])
        invariant failed == |failures|
        invariant upgraded + failed == i
      {
        writes := Step(env, campaigns, i, writes);
        i := i + 1;
      }
      assert campaigns[..i] == campaigns;
      skipped := totalDraftCampaigns - upgraded - failed;
    }

    /** The body of `main`'s loop for the `i`-th campaign: its writes are appended and one counter moves. */
    method Step(env: Env, campaigns: seq<CampaignRow>, i: nat, writes: seq<Write>) returns (writes': seq<Write>)
      requires i < |campaigns|
      requires writes == RunWrites(apply, env, campaigns[..i])
      requires failures == FailedIds(apply, env, campaigns[..i])
      requires failed == |failures| && upgraded + failed == i
      modifies this
      ensures totalDraftCampaigns == old(totalDraftCampaigns)
      ensures writes' == RunWrites(apply, env, campaigns[..i + 1])
      ensures failures == FailedIds(apply, env, campaigns[..i + 1])
      ensures failed == |failures| && upgraded + failed == i + 1
      ensures upgraded == old(upgraded) + (if ProcessCampaign(apply, env, i, campaigns[i]).upgraded then 1 else 0)
      ensures skipped == old(skipped)
    {
      var campaignWrites, ok := RunCampaign(apply, env, i, campaigns[i]);
      RunStepWith(apply, env, campaigns, i, campaignWrites, ok);
      writes' := writes + campaignWrites;
      Count(ok, campaigns[i].id);
    }

    /** The counters after one campaign: `upgraded` moves on success, `failed` and the failure list on failure. */
    method Count(ok: bool, id: string)
      modifies this
      ensures totalDraftCampaigns == old(totalDraftCampaigns) && skipped == old(skipped)
      ensures upgraded == old(upgraded) + (if ok then 1 else 0)
      ensures failed == old(failed) + (if ok then 0 else 1)
      ensures failures == old(failures) + (if ok then [] else [id])
    {
      if ok {
        upgraded := upgraded + 1;
      } else {
        failed := failed + 1;
        failures := failures + [id];
      }
    }
  }
}
