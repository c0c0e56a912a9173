/**
 * Campaign-draft generation (lib/edtech/campaign-generator.ts): requested
 * role tracks in canonical order, obligations grouped by track, a
 * deterministic fallback module and quiz per track, AI answers merged over
 * the fallback, media suggestions turned into embeds, and every module
 * stamped with its quiz-sync hash.
 *
 * The OpenAI client is a `Generator`: `Offline` when no API key is set, or
 * `OpenAi` with two oracles whose `None` stands for a failed request, an
 * empty answer or an answer that does not parse. `randomUUID` is the
 * parameter `newId`, and SHA-256 the parameter `digest`. The fixed English
 * text of the fallback module and quiz is the parameter `text`; the
 * source's own wording is `CampaignCopy.SourceCopy`.
 */
module CampaignGenerator {
  import opened Wrappers
  import opened Text
  import opened Schemas
  import opened QuizSync
  import opened CampaignCopy

  datatype Obligation = Obligation(detail: string, roleTrack: RoleTrack)

  datatype GenerateDraftInput = GenerateDraftInput(campaignName: string, obligations: seq<Obligation>, roleTracks: seq<RoleTrack>)

  // ---------------------------------------------------------------------------
  // Tracks
  // ---------------------------------------------------------------------------

  const DefaultTracks: seq<RoleTrack> := [Exec, Builder, General]

  /** `[t]` when `t` was requested, else nothing: one step of filtering the default tracks. */
  function Requested(t: RoleTrack, roleTracks: seq<RoleTrack>): (r: seq<RoleTrack>)
    ensures r == [t] <==> t in roleTracks
    ensures r == [] <==> t !in roleTracks
  {
    if t in roleTracks then [t] else []
  }

  /** Every track is one of the default tracks. */
  lemma TrackIsDefault(t: RoleTrack)
    ensures t in DefaultTracks
  {
    match t
    case Exec =>
    case Builder =>
    case General =>
  }

  /**
   * `orderedTracks`: the requested tracks without repeats, in the order exec,
   * builder, general; all three when none is requested.
   */
  function OrderedTracks(roleTracks: seq<RoleTrack>): (r: seq<RoleTrack>)
    ensures 1 <= |r| <= 3
    ensures roleTracks == [] ==> r == DefaultTracks
    ensures roleTracks != [] ==> forall t :: t in r <==> t in roleTracks
    ensures forall i, j :: 0 <= i < j < |r| ==> TrackRank(r[i]) < TrackRank(r[j])
  {
    var filtered := Requested(Exec, roleTracks) + Requested(Builder, roleTracks) + Requested(General, roleTracks);
    NothingFilteredOnlyWhenNoneRequested(roleTracks);
    if filtered == [] then DefaultTracks
    else
      assert roleTracks != [] ==> forall t :: t in filtered <==> t in roleTracks by {
        forall t | t in roleTracks
          ensures t in filtered
        {
          TrackIsDefault(t);
        }
      }
      filtered
  }

  /** Filtering the default tracks leaves nothing exactly when no track is requested. */
  lemma NothingFilteredOnlyWhenNoneRequested(roleTracks: seq<RoleTrack>)
    ensures Requested(Exec, roleTracks) + Requested(Builder, roleTracks) + Requested(General, roleTracks) == [] <==> roleTracks == []
  {
    if roleTracks != [] {
      var t := roleTracks[0];
      match t
      case Exec => assert Requested(Exec, roleTracks) == [Exec];
      case Builder => assert Requested(Builder, roleTracks) == [Builder];
      case General => assert Requested(General, roleTracks) == [General];
    }
  }

  /** Tracks in canonical order are distinct: each is found only at its own position. */
  lemma OrderedTracksAreDistinct(roleTracks: seq<RoleTrack>, i: int, j: int)
    requires 0 <= i < |OrderedTracks(roleTracks)| && 0 <= j < |OrderedTracks(roleTracks)|
    requires OrderedTracks(roleTracks)[i] == OrderedTracks(roleTracks)[j]
    ensures i == j
  {
  }

  /** ["builder", "exec", "builder"] is read as exec then builder. */
  lemma OrderedTracksExample()
    ensures OrderedTracks([Builder, Exec, Builder]) == [Exec, Builder]
    ensures OrderedTracks([Exec, Builder]) == [Exec, Builder]
  {
    assert Builder in [Builder, Exec, Builder];
    assert Exec in [Builder, Exec, Builder];
    assert General !in [Builder, Exec, Builder];
    assert General !in [Exec, Builder];
  }

  // ---------------------------------------------------------------------------
  // Obligations by track
  // ---------------------------------------------------------------------------

  /** The details of the obligations on one track, in input order. */
  function DetailsOf(obligations: seq<Obligation>, t: RoleTrack): (r: seq<string>)
    ensures |r| <= |obligations|
  {
    if obligations == [] then []
    else
      var last := obligations[|obligations| - 1];
      DetailsOf(obligations[..|obligations| - 1], t) + (if last.roleTrack == t then [last.detail] else [])
  }

  /** Grouping distributes over concatenation, so the input order is kept within each track. */
  lemma {:induction false} DetailsOfAppend(a: seq<Obligation>, b: seq<Obligation>, t: RoleTrack)
    ensures DetailsOf(a + b, t) == DetailsOf(a, t) + DetailsOf(b, t)
  {
    if b != [] {
      assert (a + b)[..|a + b| - 1] == a + b[..|b| - 1];
      DetailsOfAppend(a, b[..|b| - 1], t);
    } else {
      assert a + b == a;
    }
  }

  /** A single obligation lands in its own track's list and in no other. */
  lemma DetailsOfOne(o: Obligation, t: RoleTrack)
    ensures DetailsOf([o], t) == if o.roleTrack == t then [o.detail] else []
  {
    assert [o][..0] == [];
  }

  /** Every obligation is counted in exactly one track: the three lengths sum to the obligation count. */
  lemma {:induction false} DetailsPartitionObligations(obligations: seq<Obligation>)
    ensures |DetailsOf(obligations, Exec)| + |DetailsOf(obligations, Builder)| + |DetailsOf(obligations, General)| == |obligations|
  {
    if obligations != [] {
      DetailsPartitionObligations(obligations[..|obligations| - 1]);
    }
  }

  /** `obligationByTrack`: one list per track, each obligation's detail pushed onto its track's list. */
  method ObligationByTrack(obligations: seq<Obligation>) returns (byTrack: map<RoleTrack, seq<string>>)
    ensures byTrack.Keys == {Exec, Builder, General}
    ensures forall t :: t in byTrack ==> byTrack[t] == DetailsOf(obligations, t)
  {
    byTrack := map[Exec := [], Builder := [], General := []];
    assert obligations[..0] == [];
    var i := 0;
    while i < |obligations|
      invariant 0 <= i <= |obligations|
      invariant byTrack.Keys == {Exec, Builder, General}
      invariant forall t :: t in byTrack ==> byTrack[t] == DetailsOf(obligations[..i], t)
    {
      var item := obligations[i];
      assert obligations[..i + 1][..i] == obligations[..i];
      TrackIsDefault(item.roleTrack);
      byTrack := byTrack[item.roleTrack := byTrack[item.roleTrack] + [item.detail]];
      i := i + 1;
    }
    assert obligations[..i] == obligations;
  }

  // ---------------------------------------------------------------------------
  // The fallback module
  // ---------------------------------------------------------------------------

  /** The track's name with its first letter in upper case. */
  function RoleLabel(t: RoleTrack): (r: string)
    ensures |r| == |TrackName(t)| && 4 <= |r| <= 7
    ensures IsAsciiUpper(r[0]) && LowerChar(r[0]) == TrackName(t)[0]
    ensures r[1..] == TrackName(t)[1..]
  {
    match t
    case Exec => "Exec"
    case Builder => "Builder"
    case General => "General"
  }

  /** `obligations.slice(0, 4)`. */
  function Highlights(details: seq<string>): (r: seq<string>)
    ensures |r| == if |details| < 4 then |details| else 4
    ensures r == details[..|r|]
  {
    if |details| <= 4 then details else details[..4]
  }

  function Bulleted(items: seq<string>): (r: seq<string>)
    ensures |r| == |items|
    ensures forall i :: 0 <= i < |items| ==> r[i] == "- " + items[i]
  {
    seq(|items|, i requires 0 <= i < |items| => "- " + items[i])
  }

  /** The "What you need to know" list: the first four details as "- " lines, or the generic bullet. */
  function BulletList(text: FallbackCopy, details: seq<string>): (r: string)
    ensures details == [] ==> r == text.genericBullet
  {
    if details == [] then text.genericBullet else Join(Bulleted(Highlights(details)), "\n")
  }

  /** Each of the first four details appears in the list as a "- " line. */
  lemma BulletListShowsHighlights(text: FallbackCopy, details: seq<string>, k: nat)
    requires k < |details| && k < 4
    ensures
      var lines := Bulleted(Highlights(details));
      && BulletList(text, details) == Join(lines, "\n")
      && OccursAt(BulletList(text, details), "- " + details[k], JoinOffset(lines, "\n", k))
  {
    JoinHoldsItems(Bulleted(Highlights(details)), "\n", k);
  }

  /** Details after the fourth never reach the list. */
  lemma BulletListIgnoresLaterDetails(text: FallbackCopy, details: seq<string>, more: seq<string>)
    requires |details| >= 4
    ensures BulletList(text, details + more) == BulletList(text, details)
  {
    assert (details + more)[..4] == details[..4];
  }

  /** The list of at most four lines of at most `bound` characters each fits in 4·(bound + 3) characters. */
  lemma BulletListLength(text: FallbackCopy, details: seq<string>, bound: nat)
    requires forall k :: 0 <= k < |details| && k < 4 ==> |details[k]| <= bound
    ensures |BulletList(text, details)| <= 4 * (bound + 3) || details == []
  {
    if details != [] {
      var lines := Bulleted(Highlights(details));
      JoinLength(lines, "\n", bound + 2);
    }
  }

  /** `fallbackLearningModule`. */
  function FallbackLearningModule(text: FallbackCopy, campaignName: string, roleTrack: RoleTrack, index: int, details: seq<string>): (m: LearningModule)
    ensures m.roleTrack == roleTrack && m.passScore == 80 && m.estimatedMinutes == 10 + 2 * index
    ensures |m.mediaSuggestions| == 2 && m.mediaSuggestions[0].kind == Image && m.mediaSuggestions[1].kind == Video
    ensures StartsWith(m.title, campaignName)
  {
    var roleLabel := RoleLabel(roleTrack);
    LearningModule(
      roleTrack,
      campaignName + ": " + roleLabel + " Readiness",
      text.summaryHead + TrackName(roleTrack) + text.summaryTail,
      text.contentHead + BulletList(text, details) + text.contentTail,
      80,
      10 + index * 2,
      [ MediaSuggestion(Image, roleLabel + text.imageTitleTail, text.imageCaption, text.imagePrompt),
        MediaSuggestion(Video, roleLabel + text.videoTitleTail, text.videoCaption, text.videoPrompt) ])
  }

  /**
   * The fallback module meets the learning-module schema when the campaign
   * name leaves room in the 120-character title, the index keeps the
   * minutes within 40, and the listed details fit in the 5000-character body.
   */
  lemma FallbackModuleIsValid(text: FallbackCopy, campaignName: string, roleTrack: RoleTrack, index: int, details: seq<string>)
    requires |campaignName| <= 101 && 0 <= index <= 15
    requires forall k :: 0 <= k < |details| && k < 4 ==> |details[k]| <= 1000
    ensures ValidLearningModule(FallbackLearningModule(text, campaignName, roleTrack, index, details))
  {
    BulletListLength(text, details, 1000);
    var m := FallbackLearningModule(text, campaignName, roleTrack, index, details);
    assert ValidMediaSuggestion(m.mediaSuggestions[0]);
    assert ValidMediaSuggestion(m.mediaSuggestions[1]);
  }

  /** `fallbackLearningDraft`: one fallback module per ordered track, fed that track's obligations. */
  function FallbackLearningDraft(text: FallbackCopy, input: GenerateDraftInput): (d: LearningDraft)
    ensures |d.modules| == |OrderedTracks(input.roleTracks)|
    ensures forall i :: 0 <= i < |d.modules| ==>
      && d.modules[i].roleTrack == OrderedTracks(input.roleTracks)[i]
      && d.modules[i].estimatedMinutes == 10 + 2 * i
      && |d.modules[i].mediaSuggestions| == 2
  {
    var tracks := OrderedTracks(input.roleTracks);
    LearningDraft(seq(|tracks|, i requires 0 <= i < |tracks| =>
      FallbackLearningModule(text, input.campaignName, tracks[i], i, DetailsOf(input.obligations, tracks[i]))))
  }

  /** The fallback draft meets the draft schema under the same bounds on the name and the details. */
  lemma FallbackDraftIsValid(text: FallbackCopy, input: GenerateDraftInput)
    requires |input.campaignName| <= 101
    requires forall k :: 0 <= k < |input.obligations| ==> |input.obligations[k].detail| <= 1000
    ensures ValidLearningDraft(FallbackLearningDraft(text, input))
  {
    var tracks := OrderedTracks(input.roleTracks);
    var d := FallbackLearningDraft(text, input);
    forall i | 0 <= i < |d.modules|
      ensures ValidLearningModule(d.modules[i])
    {
      var details := DetailsOf(input.obligations, tracks[i]);
      DetailsOfBounded(input.obligations, tracks[i], 1000);
      FallbackModuleIsValid(text, input.campaignName, tracks[i], i, details);
    }
  }

  /** Grouping invents no text: a bound on every obligation's detail bounds every grouped detail. */
  lemma {:induction false} DetailsOfBounded(obligations: seq<Obligation>, t: RoleTrack, bound: nat)
    requires forall k :: 0 <= k < |obligations| ==> |obligations[k].detail| <= bound
    ensures forall k :: 0 <= k < |DetailsOf(obligations, t)| ==> |DetailsOf(obligations, t)[k]| <= bound
  {
    if obligations != [] {
      DetailsOfBounded(obligations[..|obligations| - 1], t, bound);
    }
  }

  // ---------------------------------------------------------------------------
  // The fallback quiz
  // ---------------------------------------------------------------------------

  /** What the quiz generator is told about a module. */
  datatype QuizGenerationInput = QuizGenerationInput(
    roleTrack: RoleTrack,
    title: string,
    summary: string,
    contentMarkdown: string,
    passScore: int,
    estimatedMinutes: int)

  /** `mapModuleForQuizGeneration`. */
  function MapModuleForQuizGeneration(m: LearningModule): (q: QuizGenerationInput)
    ensures q.roleTrack == m.roleTrack && q.title == m.title && q.summary == m.summary
    ensures q.contentMarkdown == m.contentMarkdown && q.passScore == m.passScore && q.estimatedMinutes == m.estimatedMinutes
  {
    QuizGenerationInput(m.roleTrack, m.title, m.summary, m.contentMarkdown, m.passScore, m.estimatedMinutes)
  }

  /**
   * `fallbackQuizFromLearningMaterial`: three fixed questions, the first
   * addressed to the module's track, with correct choices 1, 2 and 2; the
   * quiz meets the module-quiz schema.
   */
  function FallbackQuiz(text: FallbackCopy, input: QuizGenerationInput): (qs: seq<QuizQuestion>)
    ensures |qs| == 3
    ensures qs[0].correctChoiceIndex == 1 && qs[1].correctChoiceIndex == 2 && qs[2].correctChoiceIndex == 2
    ensures ValidModuleQuiz(qs)
  {
    [ QuizQuestion(text.firstPromptHead + RoleLabel(input.roleTrack) + text.firstPromptTail, text.firstChoices, 1, text.firstExplanation),
      QuizQuestion(text.secondPrompt, text.secondChoices, 2, text.secondExplanation),
      QuizQuestion(text.thirdPrompt, text.thirdChoices, 2, text.thirdExplanation) ]
  }

  // ---------------------------------------------------------------------------
  // Media embeds
  // ---------------------------------------------------------------------------

  /** `toMediaEmbeds`: embed `i` is suggestion `i`, suggested, with no asset yet, at position `i`. */
  function ToMediaEmbeds(suggestions: seq<MediaSuggestion>, newId: nat -> string): (r: seq<MediaEmbed>)
    ensures |r| == |suggestions|
    ensures forall i :: 0 <= i < |r| ==>
      && r[i].id == newId(i) && r[i].order == i && r[i].status == Suggested
      && r[i].assetPath.None? && r[i].mimeType.None?
  {
    seq(|suggestions|, i requires 0 <= i < |suggestions| =>
      var item := suggestions[i];
      MediaEmbed(newId(i), item.kind, item.title, item.caption, item.suggestionPrompt, None, None, Suggested, i))
  }

  /** The suggestion an embed was made from. */
  function SuggestionOf(e: MediaEmbed): MediaSuggestion {
    MediaSuggestion(e.kind, e.title, e.caption, e.suggestionPrompt)
  }

  /** Reading the suggestions back from the embeds gives the suggestions, in order. */
  lemma EmbedsKeepSuggestions(suggestions: seq<MediaSuggestion>, newId: nat -> string)
    ensures var r := ToMediaEmbeds(suggestions, newId);
      forall i :: 0 <= i < |r| ==> SuggestionOf(r[i]) == suggestions[i]
  {
  }

  /** Embeds made from valid suggestions with UUID ids are valid, up to the schema's 25 positions. */
  lemma EmbedsAreValid(suggestions: seq<MediaSuggestion>, newId: nat -> string)
    requires |suggestions| <= 25
    requires forall i :: 0 <= i < |suggestions| ==> ValidMediaSuggestion(suggestions[i]) && IsUuid(newId(i))
    ensures forall e :: e in ToMediaEmbeds(suggestions, newId) ==> ValidMediaEmbed(e)
  {
    var r := ToMediaEmbeds(suggestions, newId);
    forall e | e in r
      ensures ValidMediaEmbed(e)
    {
      var i :| 0 <= i < |r| && r[i] == e;
      assert ValidMediaSuggestion(suggestions[i]);
    }
  }

  // ---------------------------------------------------------------------------
  // Stage one: the AI draft merged over the fallback
  // ---------------------------------------------------------------------------

  /** The first module of the given track, if any (`Map` filled first-wins, or `find`). */
  function FirstModuleFor(modules: seq<LearningModule>, t: RoleTrack): (r: Option<LearningModule>)
    ensures r.Some? ==> r.value in modules && r.value.roleTrack == t
    ensures r.None? <==> forall k :: 0 <= k < |modules| ==> modules[k].roleTrack != t
  {
    if modules == [] then None
    else if modules[0].roleTrack == t then Some(modules[0])
    else FirstModuleFor(modules[1..], t)
  }

  /** The first module of a track is the one with no earlier module of that track. */
  lemma {:induction false} FirstModuleWins(modules: seq<LearningModule>, t: RoleTrack, k: nat)
    requires k < |modules| && modules[k].roleTrack == t
    requires forall j :: 0 <= j < k ==> modules[j].roleTrack != t
    ensures FirstModuleFor(modules, t) == Some(modules[k])
  {
    if k > 0 {
      FirstModuleWins(modules[1..], t, k - 1);
    }
  }

  /** Appending a module changes a track's first module only when the track had none. */
  lemma {:induction false} FirstModuleForSnoc(modules: seq<LearningModule>, m: LearningModule, t: RoleTrack)
    ensures FirstModuleFor(modules + [m], t) ==
      if FirstModuleFor(modules, t).Some? then FirstModuleFor(modules, t)
      else if m.roleTrack == t then Some(m) else None
  {
    if modules != [] {
      assert (modules + [m])[1..] == modules[1..] + [m];
      FirstModuleForSnoc(modules[1..], m, t);
    }
  }

  /** The module stage one keeps for one track. */
  function StageOneModule(text: FallbackCopy, campaignName: string, aiModules: seq<LearningModule>, fallback: seq<LearningModule>, track: RoleTrack): (m: LearningModule)
    ensures m.roleTrack == track
    ensures FirstModuleFor(aiModules, track).Some? ==> m in aiModules
    ensures FirstModuleFor(aiModules, track).None? && FirstModuleFor(fallback, track).Some? ==> m in fallback
  {
    match FirstModuleFor(aiModules, track)
    case Some(fromAi) => fromAi
    case None =>
      match FirstModuleFor(fallback, track)
      case Some(fromFallback) => fromFallback
      case None => FallbackLearningModule(text, campaignName, track, 0, [])
  }

  /** What `normalizeStageOneModules` returns, as a function of its inputs. */
  function StageOneModules(text: FallbackCopy, input: GenerateDraftInput, aiDraft: Option<LearningDraft>): (r: seq<LearningModule>)
    ensures |r| == |OrderedTracks(input.roleTracks)|
    ensures forall i :: 0 <= i < |r| ==> r[i].roleTrack == OrderedTracks(input.roleTracks)[i]
  {
    var fallback := FallbackLearningDraft(text, input).modules;
    var tracks := OrderedTracks(input.roleTracks);
    match aiDraft
    case None => fallback
    case Some(draft) =>
      seq(|tracks|, i requires 0 <= i < |tracks| => StageOneModule(text, input.campaignName, draft.modules, fallback, tracks[i]))
  }

  /** The fallback draft has a module for every ordered track, at the track's own position. */
  lemma FallbackCoversEveryTrack(text: FallbackCopy, input: GenerateDraftInput, i: nat)
    requires i < |OrderedTracks(input.roleTracks)|
    ensures
      var fallback := FallbackLearningDraft(text, input).modules;
      FirstModuleFor(fallback, OrderedTracks(input.roleTracks)[i]) == Some(fallback[i])
  {
    var fallback := FallbackLearningDraft(text, input).modules;
    var tracks := OrderedTracks(input.roleTracks);
    forall j | 0 <= j < i
      ensures fallback[j].roleTrack != tracks[i]
    {
      assert TrackRank(tracks[j]) < TrackRank(tracks[i]);
    }
    FirstModuleWins(fallback, tracks[i], i);
  }

  /**
   * Stage one in full: without an AI draft the fallback draft; with one, per
   * ordered track the first AI module of that track, else that track's
   * fallback module. AI modules of tracks that were not requested are dropped.
   */
  lemma StageOneChoosesAiThenFallback(text: FallbackCopy, input: GenerateDraftInput, aiDraft: Option<LearningDraft>, i: nat)
    requires i < |OrderedTracks(input.roleTracks)|
    ensures
      var r := StageOneModules(text, input, aiDraft);
      var track := OrderedTracks(input.roleTracks)[i];
      var fallback := FallbackLearningDraft(text, input).modules;
      && (aiDraft.None? ==> r[i] == fallback[i])
      && (aiDraft.Some? && FirstModuleFor(aiDraft.value.modules, track).Some? ==> r[i] == FirstModuleFor(aiDraft.value.modules, track).value)
      && (aiDraft.Some? && FirstModuleFor(aiDraft.value.modules, track).None? ==> r[i] == fallback[i])
      && (aiDraft.Some? && r[i] != fallback[i] ==> r[i] in aiDraft.value.modules)
  {
    FallbackCoversEveryTrack(text, input, i);
  }

  /** The `byTrack` map of `normalizeStageOneModules`: each track's first AI module. */
  method FirstModuleByTrack(modules: seq<LearningModule>) returns (byTrack: map<RoleTrack, LearningModule>)
    ensures forall t :: t in byTrack <==> FirstModuleFor(modules, t).Some?
    ensures forall t :: t in byTrack ==> FirstModuleFor(modules, t) == Some(byTrack[t])
  {
    byTrack := map[];
    var k := 0;
    while k < |modules|
      invariant 0 <= k <= |modules|
      invariant forall t :: t in byTrack <==> FirstModuleFor(modules[..k], t).Some?
      invariant forall t :: t in byTrack ==> FirstModuleFor(modules[..k], t) == Some(byTrack[t])
    {
      var moduleDraft := modules[k];
      assert modules[..k + 1] == modules[..k] + [moduleDraft];
      forall t: RoleTrack {
        FirstModuleForSnoc(modules[..k], moduleDraft, t);
      }
      if moduleDraft.roleTrack !in byTrack {
        byTrack := byTrack[moduleDraft.roleTrack := moduleDraft];
      }
      k := k + 1;
    }
    assert modules[..k] == modules;
  }

  /** `normalizeStageOneModules`. */
  method NormalizeStageOneModules(text: FallbackCopy, input: GenerateDraftInput, aiDraft: Option<LearningDraft>) returns (r: seq<LearningModule>)
    ensures r == StageOneModules(text, input, aiDraft)
  {
    var fallback := FallbackLearningDraft(text, input);
    var tracks := OrderedTracks(input.roleTracks);
    if aiDraft.None? {
      return fallback.modules;
    }
    var byTrack := FirstModuleByTrack(aiDraft.value.modules);
    r := MergeOverFallback(text, input.campaignName, tracks, aiDraft.value.modules, byTrack, fallback.modules);
  }

  /** The loop of `normalizeStageOneModules`: per track the AI module, else the fallback module, else a fresh one. */
  method MergeOverFallback(
    text: FallbackCopy, campaignName: string, tracks: seq<RoleTrack>,
    aiModules: seq<LearningModule>, byTrack: map<RoleTrack, LearningModule>, fallback: seq<LearningModule>)
    returns (r: seq<LearningModule>)
    requires forall t :: t in byTrack <==> FirstModuleFor(aiModules, t).Some?
    requires forall t :: t in byTrack ==> FirstModuleFor(aiModules, t) == Some(byTrack[t])
    ensures |r| == |tracks|
    ensures forall j :: 0 <= j < |tracks| ==> r[j] == StageOneModule(text, campaignName, aiModules, fallback, tracks[j])
  {
    r := [];
    var i := 0;
    while i < |tracks|
      invariant 0 <= i <= |tracks|
      invariant |r| == i
      invariant forall j :: 0 <= j < i ==> r[j] == StageOneModule(text, campaignName, aiModules, fallback, tracks[j])
    {
      var track := tracks[i];
      var next: LearningModule;
      if track in byTrack {
        next := byTrack[track];
      } else {
        var fromFallback := FirstModuleFor(fallback, track);
        if fromFallback.Some? {
          next := fromFallback.value;
        } else {
          next := FallbackLearningModule(text, campaignName, track, 0, []);
        }
      }
      r := r + [next];
      i := i + 1;
    }
  }

  /** Every stage-one module has at least one media suggestion when the AI draft is schema-valid. */
  lemma StageOneHasSuggestions(text: FallbackCopy, input: GenerateDraftInput, aiDraft: Option<LearningDraft>, i: nat)
    requires aiDraft.Some? ==> ValidLearningDraft(aiDraft.value)
    requires i < |StageOneModules(text, input, aiDraft)|
    ensures 1 <= |StageOneModules(text, input, aiDraft)[i].mediaSuggestions| <= 4
  {
    StageOneChoosesAiThenFallback(text, input, aiDraft, i);
    var r := StageOneModules(text, input, aiDraft);
    if aiDraft.Some? && r[i] != FallbackLearningDraft(text, input).modules[i] {
      var k :| 0 <= k < |aiDraft.value.modules| && aiDraft.value.modules[k] == r[i];
      assert ValidLearningModule(aiDraft.value.modules[k]);
    }
  }

  // ---------------------------------------------------------------------------
  // The generator
  // ---------------------------------------------------------------------------

  /** What an OpenAI call yields once `.catch(() => null)` has run: a parsed answer or nothing. */
  type DraftOracle = GenerateDraftInput -> Option<LearningDraft>
  type QuizOracle = QuizGenerationInput -> Option<seq<QuizQuestion>>

  /** `createOpenAiClient`: no client without an API key. */
  datatype Generator = Offline | OpenAi(draftOracle: DraftOracle, quizOracle: QuizOracle)

  /** `llmLearningDraftSchema.safeParse`: an answer is used only when it meets the schema. */
  function ParsedDraft(answer: Option<LearningDraft>): (r: Option<LearningDraft>)
    ensures r.Some? <==> answer.Some? && ValidLearningDraft(answer.value)
    ensures r.Some? ==> r == answer
  {
    if answer.Some? && ValidLearningDraft(answer.value) then answer else None
  }

  /** `llmModuleQuizSchema.safeParse`. */
  function ParsedQuiz(answer: Option<seq<QuizQuestion>>): (r: Option<seq<QuizQuestion>>)
    ensures r.Some? <==> answer.Some? && ValidModuleQuiz(answer.value)
    ensures r.Some? ==> r == answer
  {
    if answer.Some? && ValidModuleQuiz(answer.value) then answer else None
  }

  /**
   * `generateModuleQuizFromLearningMaterial`: the AI quiz when there is a
   * client and its answer meets the schema, else the fallback quiz; either
   * way a schema-valid quiz.
   */
  function GenerateModuleQuiz(text: FallbackCopy, gen: Generator, input: QuizGenerationInput): (qs: seq<QuizQuestion>)
    ensures ValidModuleQuiz(qs)
    ensures gen.OpenAi? && ParsedQuiz(gen.quizOracle(input)).Some? ==> qs == gen.quizOracle(input).value
    ensures (gen.Offline? || ParsedQuiz(gen.quizOracle(input)).None?) ==> qs == FallbackQuiz(text, input)
  {
    match gen
    case Offline => FallbackQuiz(text, input)
    case OpenAi(_, quizOracle) =>
      match ParsedQuiz(quizOracle(input))
      case Some(quiz) => quiz
      case None => FallbackQuiz(text, input)
  }

  /** The text the quiz-sync hash is computed over. */
  function SyncSourceOf(m: LearningModule): QuizSyncSource {
    QuizSyncSource(TrackName(m.roleTrack), m.title, m.summary, m.contentMarkdown)
  }

  /** One generated module: the stage-one module's text, its embeds, its quiz and its hash. */
  function GeneratedModuleOf(text: FallbackCopy, gen: Generator, digest: SourceDigest, newId: nat -> string, m: LearningModule): (g: GeneratedModule)
    ensures g.roleTrack == m.roleTrack && g.title == m.title && g.summary == m.summary && g.contentMarkdown == m.contentMarkdown
    ensures g.passScore == m.passScore && g.estimatedMinutes == m.estimatedMinutes
    ensures |g.mediaEmbeds| == |m.mediaSuggestions|
    ensures g.mediaEmbeds == ToMediaEmbeds(m.mediaSuggestions, newId)
    ensures ValidModuleQuiz(g.quizQuestions)
    ensures g.quizQuestions == GenerateModuleQuiz(text, gen, MapModuleForQuizGeneration(m))
    ensures !QuizNeedsRegeneration(digest, Some(g.quizSyncHash), SyncSourceOf(m))
  {
    GeneratedModule(
      m.roleTrack, m.title, m.summary, m.contentMarkdown, m.passScore, m.estimatedMinutes,
      ToMediaEmbeds(m.mediaSuggestions, newId),
      GenerateModuleQuiz(text, gen, MapModuleForQuizGeneration(m)),
      ComputeQuizSyncHash(digest, SyncSourceOf(m)))
  }

  /** The ids drawn for the embeds of the `i`-th module. */
  function EmbedIds(newId: (nat, nat) -> string, i: nat): nat -> string {
    (j: nat) => newId(i, j)
  }

  /** The AI draft that stage one starts from: none offline, else the schema-checked answer. */
  function StageOneDraft(gen: Generator, input: GenerateDraftInput): (r: Option<LearningDraft>)
    ensures r.Some? ==> gen.OpenAi? && ValidLearningDraft(r.value)
  {
    match gen
    case Offline => None
    case OpenAi(draftOracle, _) => ParsedDraft(draftOracle(input))
  }

  /** The `i`-th generated module. */
  function GeneratedModuleAt(text: FallbackCopy, gen: Generator, digest: SourceDigest, newId: (nat, nat) -> string, input: GenerateDraftInput, i: nat): (g: GeneratedModule)
    requires i < |OrderedTracks(input.roleTracks)|
    ensures g.roleTrack == OrderedTracks(input.roleTracks)[i]
    ensures |StageOneModules(text, input, StageOneDraft(gen, input))| == |OrderedTracks(input.roleTracks)|
    ensures g == GeneratedModuleOf(text, gen, digest, EmbedIds(newId, i), StageOneModules(text, input, StageOneDraft(gen, input))[i])
    ensures 1 <= |g.mediaEmbeds| <= 4
    ensures ValidModuleQuiz(g.quizQuestions)
    ensures |g.quizSyncHash| == 64
    ensures !QuizNeedsRegeneration(digest, Some(g.quizSyncHash), QuizSyncSource(TrackName(g.roleTrack), g.title, g.summary, g.contentMarkdown))
  {
    var stageOne := StageOneDraft(gen, input);
    StageOneHasSuggestions(text, input, stageOne, i);
    GeneratedModuleOf(text, gen, digest, EmbedIds(newId, i), StageOneModules(text, input, stageOne)[i])
  }

  /**
   * `generateCampaignDraft`: never fails; flow version 2; one module per
   * ordered track, in order; each with one to four embeds, a schema-valid
   * quiz, and a quiz-sync hash that matches its own text. `newId(i, j)` is
   * the id drawn for the `j`-th embed of the `i`-th module.
   */
  function GenerateCampaignDraft(text: FallbackCopy, gen: Generator, digest: SourceDigest, newId: (nat, nat) -> string, input: GenerateDraftInput): (d: GeneratedDraft)
    ensures d.flowVersion == 2 && ValidFlowVersion(d.flowVersion)
    ensures |d.modules| == |OrderedTracks(input.roleTracks)|
    ensures forall i :: 0 <= i < |d.modules| ==> d.modules[i] == GeneratedModuleAt(text, gen, digest, newId, input, i)
  {
    var tracks := OrderedTracks(input.roleTracks);
    GeneratedDraft(2, seq(|tracks|, i requires 0 <= i < |tracks| => GeneratedModuleAt(text, gen, digest, newId, input, i)))
  }

  /**
   * Requesting exec and builder gives two modules, exec then builder, each
   * with at least one embed, at least three questions and a 64-character
   * hash, whether or not the AI answers.
   */
  lemma ExecBuilderDraftExample(text: FallbackCopy, gen: Generator, digest: SourceDigest, newId: (nat, nat) -> string, campaignName: string, obligations: seq<Obligation>)
    ensures
      var d := GenerateCampaignDraft(text, gen, digest, newId, GenerateDraftInput(campaignName, obligations, [Exec, Builder]));
      && d.flowVersion == 2
      && |d.modules| == 2
      && d.modules[0].roleTrack == Exec && d.modules[1].roleTrack == Builder
      && forall i :: 0 <= i < 2 ==> |d.modules[i].mediaEmbeds| > 0 && |d.modules[i].quizQuestions| >= 3 && |d.modules[i].quizSyncHash| > 12
  {
    OrderedTracksExample();
    var d := GenerateCampaignDraft(text, gen, digest, newId, GenerateDraftInput(campaignName, obligations, [Exec, Builder]));
    var m0 := GeneratedModuleAt(text, gen, digest, newId, GenerateDraftInput(campaignName, obligations, [Exec, Builder]), 0);
    var m1 := GeneratedModuleAt(text, gen, digest, newId, GenerateDraftInput(campaignName, obligations, [Exec, Builder]), 1);
    assert d.modules[0] == m0 && d.modules[1] == m1;
  }
}
