/**
 * The content records of the generation pipeline and the schema bounds that
 * gate them (lib/edtech/types.ts). Lengths are counted in characters.
 */
module Schemas {
  import opened Wrappers

  datatype RoleTrack = Exec | Builder | General

  /** The track's wire name, as stored in `role_track` columns. */
  function TrackName(t: RoleTrack): string {
    match t
    case Exec => "exec"
    case Builder => "builder"
    case General => "general"
  }

  /** The track's place in the canonical order exec, builder, general. */
  function TrackRank(t: RoleTrack): nat {
    match t
    case Exec => 0
    case Builder => 1
    case General => 2
  }

  datatype MediaKind = Image | Video
  datatype MediaStatus = Suggested | Attached

  datatype MediaSuggestion = MediaSuggestion(kind: MediaKind, title: string, caption: string, suggestionPrompt: string)

  datatype MediaEmbed = MediaEmbed(
    id: string,
    kind: MediaKind,
    title: string,
    caption: string,
    suggestionPrompt: string,
    assetPath: Option<string>,
    mimeType: Option<string>,
    status: MediaStatus,
    order: int)

  datatype QuizQuestion = QuizQuestion(prompt: string, choices: seq<string>, correctChoiceIndex: int, explanation: string)

  datatype LearningModule = LearningModule(
    roleTrack: RoleTrack,
    title: string,
    summary: string,
    contentMarkdown: string,
    passScore: int,
    estimatedMinutes: int,
    mediaSuggestions: seq<MediaSuggestion>)

  datatype LearningDraft = LearningDraft(modules: seq<LearningModule>)

  datatype GeneratedModule = GeneratedModule(
    roleTrack: RoleTrack,
    title: string,
    summary: string,
    contentMarkdown: string,
    passScore: int,
    estimatedMinutes: int,
    mediaEmbeds: seq<MediaEmbed>,
    quizQuestions: seq<QuizQuestion>,
    quizSyncHash: string)

  datatype GeneratedDraft = GeneratedDraft(flowVersion: int, modules: seq<GeneratedModule>)

  predicate LengthIn(s: string, lo: nat, hi: nat) {
    lo <= |s| <= hi
  }

  predicate ValidFlowVersion(v: int) {
    v == 1 || v == 2
  }

  predicate IsHexDigit(c: char) {
    '0' <= c <= '9' || 'a' <= c <= 'f' || 'A' <= c <= 'F'
  }

  /** `z.string().uuid()`: five groups of 8, 4, 4, 4 and 12 hex digits separated by dashes. */
  predicate IsUuid(s: string) {
    && |s| == 36
    && (forall i :: 0 <= i < 36 ==> if i in {8, 13, 18, 23} then s[i] == '-' else IsHexDigit(s[i]))
  }

  predicate ValidMediaSuggestion(m: MediaSuggestion) {
    LengthIn(m.title, 3, 120) && LengthIn(m.caption, 6, 320) && LengthIn(m.suggestionPrompt, 10, 420)
  }

  predicate ValidMediaEmbed(e: MediaEmbed) {
    && IsUuid(e.id)
    && LengthIn(e.title, 3, 120) && LengthIn(e.caption, 6, 320) && LengthIn(e.suggestionPrompt, 10, 420)
    && (e.assetPath.None? || LengthIn(e.assetPath.value, 1, 500))
    && (e.mimeType.None? || LengthIn(e.mimeType.value, 1, 160))
    && 0 <= e.order <= 24
  }

  predicate ValidQuizQuestion(q: QuizQuestion) {
    && LengthIn(q.prompt, 12, 220)
    && |q.choices| == 4
    && (forall i :: 0 <= i < 4 ==> LengthIn(q.choices[i], 1, 180))
    && 0 <= q.correctChoiceIndex <= 3
    && LengthIn(q.explanation, 10, 320)
  }

  predicate ValidLearningModule(m: LearningModule) {
    && LengthIn(m.title, 5, 120)
    && LengthIn(m.summary, 20, 300)
    && LengthIn(m.contentMarkdown, 80, 5000)
    && 60 <= m.passScore <= 100
    && 3 <= m.estimatedMinutes <= 40
    && 1 <= |m.mediaSuggestions| <= 4
    && (forall i :: 0 <= i < |m.mediaSuggestions| ==> ValidMediaSuggestion(m.mediaSuggestions[i]))
  }

  predicate ValidLearningDraft(d: LearningDraft) {
    && 1 <= |d.modules| <= 3
    && (forall i :: 0 <= i < |d.modules| ==> ValidLearningModule(d.modules[i]))
  }

  predicate ValidModuleQuiz(qs: seq<QuizQuestion>) {
    && 3 <= |qs| <= 8
    && (forall i :: 0 <= i < |qs| ==> ValidQuizQuestion(qs[i]))
  }
}
