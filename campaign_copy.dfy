/**
 * The fixed English text of the fallback learning module and the fallback
 * quiz (lib/edtech/campaign-generator.ts:53-83 and 98-137). The generator
 * takes it as a value of the subset type `FallbackCopy`, whose constraint is
 * what the schema bounds need of it; `SourceCopy` holds the exact wording.
 */
module CampaignCopy {
  import opened Schemas

  datatype FallbackText = FallbackText(
    genericBullet: string,
    contentHead: string,
    contentTail: string,
    summaryHead: string,
    summaryTail: string,
    imageTitleTail: string,
    imageCaption: string,
    imagePrompt: string,
    videoTitleTail: string,
    videoCaption: string,
    videoPrompt: string,
    firstPromptHead: string,
    firstPromptTail: string,
    firstChoices: seq<string>,
    firstExplanation: string,
    secondPrompt: string,
    secondChoices: seq<string>,
    secondExplanation: string,
    thirdPrompt: string,
    thirdChoices: seq<string>,
    thirdExplanation: string)

  /** Four choices of 1 to 180 characters each. */
  predicate ChoicesFit(choices: seq<string>) {
    |choices| == 4 && forall i :: 0 <= i < 4 ==> LengthIn(choices[i], 1, 180)
  }

  /**
   * What the schema bounds need of the text, whatever the role label (4 to 7
   * characters), the track name (4 to 7) and up to four bullets of at most
   * 1003 characters each with their separators.
   */
  predicate CopyFits(t: FallbackText) {
    && 80 <= |t.contentHead| + |t.contentTail| <= 450
    && |t.contentHead| + |t.genericBullet| + |t.contentTail| <= 5000
    && 16 <= |t.summaryHead| + |t.summaryTail| <= 293
    && LengthIn(t.imageTitleTail, 0, 113) && LengthIn(t.videoTitleTail, 0, 113)
    && LengthIn(t.imageCaption, 6, 320) && LengthIn(t.imagePrompt, 10, 420)
    && LengthIn(t.videoCaption, 6, 320) && LengthIn(t.videoPrompt, 10, 420)
    && 8 <= |t.firstPromptHead| + |t.firstPromptTail| <= 213
    && ChoicesFit(t.firstChoices) && LengthIn(t.firstExplanation, 10, 320)
    && LengthIn(t.secondPrompt, 12, 220) && ChoicesFit(t.secondChoices) && LengthIn(t.secondExplanation, 10, 320)
    && LengthIn(t.thirdPrompt, 12, 220) && ChoicesFit(t.thirdChoices) && LengthIn(t.thirdExplanation, 10, 320)
  }

  /** The wording used by the source. */
  const SourceCopy: FallbackText := FallbackText(
    GenericBullet, ContentHead, ContentTail, SummaryHead, SummaryTail, ImageTitleTail,
    ImageCaption, ImagePrompt, VideoTitleTail, VideoCaption, VideoPrompt, FirstPromptHead,
    FirstPromptTail, FirstChoices, FirstExplanation, SecondPrompt, SecondChoices,
    SecondExplanation, ThirdPrompt, ThirdChoices, ThirdExplanation)

  const GenericBullet: string := "- Follow approved AI use cases and escalate uncertainty early."
  const ContentHead: string := "## Why this matters\n\nYour role has direct accountability for compliant AI usage and policy adherence.\n\n## What you need to know\n\n"
  const ContentTail: string := "\n\n## Practical decisions\n\n- Choose approved tools and approved data boundaries.\n- Escalate uncertainty before release decisions.\n- Preserve evidence and change logs for audits.\n\n## When to escalate\n\nEscalate to legal/security when policy interpretation is unclear or customer-impacting decisions are involved."
  const SummaryHead: string := "Policy-grounded training for "
  const SummaryTail: string := " teams with concrete behavior standards and escalation paths."
  const ImageTitleTail: string := " policy decision map"
  const ImageCaption: string := "Visual map of escalation and approval checkpoints for this role track."
  const ImagePrompt: string := "Create a clean process diagram showing policy decision checkpoints, escalation owners, and audit evidence outputs."
  const VideoTitleTail: string := " scenario walkthrough"
  const VideoCaption: string := "Short scenario walkthrough showing compliant and non-compliant outcomes."
  const VideoPrompt: string := "Record a 60-90 second scenario walkthrough for this role track showing one compliant and one non-compliant policy decision."
  const FirstPromptHead: string := "For "
  const FirstPromptTail: string := " teams, what is the safest first action when policy direction is unclear?"
  const FirstChoices: seq<string> := [
    "Proceed quickly and document later",
    "Escalate to policy/security/legal owner before execution",
    "Ask for informal peer approval only",
    "Ignore the work item" ]
  const FirstExplanation: string := "Escalation before execution preserves compliant, auditable decision quality."
  const SecondPrompt: string := "Which behavior best aligns with enterprise AI policy controls?"
  const SecondChoices: seq<string> := [
    "Use unapproved tools when deadlines are tight",
    "Skip change logs to move faster",
    "Follow approved tools, boundaries, and review gates",
    "Share sensitive inputs in public systems" ]
  const SecondExplanation: string := "Approved tools and review gates are required to enforce policy controls."
  const ThirdPrompt: string := "What outcome does this learning module primarily support?"
  const ThirdChoices: seq<string> := [
    "Reducing need for legal review",
    "Increasing slide count",
    "Creating role-specific policy behavior with audit-ready evidence",
    "Replacing engineering standards" ]
  const ThirdExplanation: string := "The module is designed for role-specific behavior change with evidence-ready compliance outcomes."

  /** Fallback text that fits the schema bounds. */
  type FallbackCopy = t: FallbackText | CopyFits(t) witness Filler

  /** Text of the least lengths the bounds allow, which shows the type inhabited. */
  const Filler: FallbackText := FallbackText(
    [], seq(40, _ => ' '), seq(40, _ => ' '), seq(8, _ => ' '), seq(8, _ => ' '), [],
    seq(6, _ => ' '), seq(10, _ => ' '), [], seq(6, _ => ' '), seq(10, _ => ' '),
    seq(4, _ => ' '), seq(4, _ => ' '), FillerChoices, seq(10, _ => ' '),
    seq(12, _ => ' '), FillerChoices, seq(10, _ => ' '),
    seq(12, _ => ' '), FillerChoices, seq(10, _ => ' '))

  const FillerChoices: seq<string> := seq(4, _ => " ")

  /** The source's own wording fits the bounds. */
  lemma SourceCopyFits()
    ensures CopyFits(SourceCopy)
  {
    ContentLengths();
    SummaryLengths();
    MediaLengths();
    FirstQuestionLengths();
    SecondQuestionLengths();
    ThirdQuestionLengths();
  }

  lemma ContentLengths()
    ensures |GenericBullet| == 62 && |ContentHead| == 129 && |ContentTail| == 309
  {
  }

  lemma SummaryLengths()
    ensures |SummaryHead| == 29 && |SummaryTail| == 61
  {
  }

  lemma MediaLengths()
    ensures |ImageTitleTail| == 20 && |ImageCaption| == 70 && |ImagePrompt| == 114
    ensures |VideoTitleTail| == 21 && |VideoCaption| == 72 && |VideoPrompt| == 123
  {
  }

  lemma FirstQuestionLengths()
    ensures |FirstPromptHead| == 4 && |FirstPromptTail| == 73 && |FirstExplanation| == 76
    ensures ChoicesFit(FirstChoices)
  {
  }

  lemma SecondQuestionLengths()
    ensures |SecondPrompt| == 62 && |SecondExplanation| == 72
    ensures ChoicesFit(SecondChoices)
  {
  }

  lemma ThirdQuestionLengths()
    ensures |ThirdPrompt| == 57 && |ThirdExplanation| == 97
    ensures ChoicesFit(ThirdChoices)
  {
  }
}
