# PolicyPilot learning-flow core, modelled in Dafny

PolicyPilot turns an organisation's policy obligations into training
campaigns. Each campaign has one learning module per role track (`exec`,
`builder`, `general`). Every module carries media embeds, a quiz and a
quiz-sync hash. This project models the deterministic core of that system:

- **Sign-in forms.** The zod schemas that validate the sign-in, magic-link,
  sign-up and password-reset forms (`AuthValidation`).
- **Role ranking** (`Roles`) and the choice of the active organisation
  (`OrgSelection`).
- **Organisation links in the product navigation** (`ProductNav`).
- **Uploaded file names.** They are sanitised and checked against their MIME
  type, both for policy documents (`PolicyFile`) and for module media
  (`ModuleMedia`). Both share the file-name rules in `FileNames`.
- **Quiz-sync hash** and the decision whether a quiz must be regenerated
  (`QuizSync`).
- **Idempotency guard.** It reads the `Idempotency-Key` header, hashes it,
  stamps the hash into audit metadata and replays a recorded response
  (`Idempotency`).
- **Campaign generator** (`CampaignGenerator`):
  - it orders the requested tracks;
  - it groups obligations by track;
  - it builds the deterministic fallback modules and quizzes, whose wording
    lives in `CampaignCopy`;
  - it merges the generative backend's answer over the fallback and turns
    suggestions into embeds;
  - it assembles the flow-version-2 draft.
- **Owner bootstrap route** (`BootstrapOwner`). It gives a signed-in user an
  organisation and an owner membership. The organisation store is a class
  whose method changes it in place.
- **Backfill script** (`Backfill`). It upgrades draft campaigns to flow
  version 2: it plans the writes for each campaign, executes them until the
  first failure, and counts upgraded and failed campaigns in a `Summary`
  object.

`Text`, `Json`, `Schemas`, `Digests` and `Wrappers` hold shared
definitions:

- `Text`: JavaScript's `trim`, ASCII case folding and joining.
- `Json`: a JSON value type.
- `Schemas`: the length and count bounds of the generated types, one
  `Valid*` predicate per zod schema of lib/edtech/types.ts:3-59 (media
  suggestion 9-14, embed 16-26, quiz question 30-35, module 39-47, draft
  51-53, module quiz 57-59). They are stated about the generator's output
  by `FallbackModuleIsValid`, `FallbackDraftIsValid`, `EmbedsAreValid`,
  `StageOneDraft` and `GenerateModuleQuiz`.
- `Digests`: hash functions as parameters.
- `Wrappers`: `Option` and `Result`.

Things the code reaches outside itself for become parameters of the model:

- SHA-256 digests;
- random UUIDs;
- the e-mail syntax check;
- the generative backend's answers;
- the database's answers and failures.

Three behaviours of the code that are easy to miss, each kept in the model:

- **Replay guard.** A matching audit entry without a recorded response does
  not stop the scan (lib/edtech/idempotency.ts:72-95). `findIdempotentSuccess`
  skips it and goes on to older entries, and returns null only when none is
  left (`SkippedEntryDoesNotStopScan`).
- **Empty media kind.** The "Only image and video files are supported"
  branch of `normalizeModuleMediaUploadFile` (lib/edtech/module-media.ts:78-81)
  is never reached. The MIME type has already been checked equal to a table
  value (module-media.ts:60-76), and every value in the table
  (module-media.ts:3-12) starts with `image/` or `video/`
  (`TableMimeTypesHaveAKind`).
- **Extension `constructor`.** For the extension `constructor`, the lookup at
  lib/edtech/module-media.ts:61 finds `Object.prototype.constructor` rather
  than nothing. The check at module-media.ts:62 lets it through, so the file
  is rejected at module-media.ts:70-76 as a MIME mismatch, not as an
  unsupported extension (`Lookup.Inherited`).

## Model

| member | source | states |
|---|---|---|
| AuthValidation.Check | lib/edtech/auth-validation.ts:13-17 | a refinement reports exactly one issue on its own field when, and only when, its condition fails |
| AuthValidation.EmailIssues | lib/edtech/auth-validation.ts:6-9 | no issue if and only if the trimmed e-mail passes the e-mail check |
| AuthValidation.PasswordIssues | lib/edtech/auth-validation.ts:11-17 | every reported password issue is attached to the field being checked |
| AuthValidation.PasswordRuleIsStrength | lib/edtech/auth-validation.ts:11-17 | the password schema passes iff the password is 10..72 long with a lower-case letter, an upper-case letter and a digit; each of the five rules is reported iff it is broken: too short iff under 10, too long iff over 72, no lower-case, no upper-case and no digit iff that character class is missing |
| AuthValidation.PresentIssues | lib/edtech/auth-validation.ts:21 | `min(1)`: no issue iff the value is non-empty |
| AuthValidation.MatchIssues | lib/edtech/auth-validation.ts:35-43 | the confirmation is flagged iff it differs from the password |
| AuthValidation.SignInIssues | lib/edtech/auth-validation.ts:19-22 | sign-in passes iff the trimmed e-mail is valid and the password is non-empty |
| AuthValidation.ResetRequestIssues | lib/edtech/auth-validation.ts:45-47 | a reset request passes iff the trimmed e-mail is valid |
| AuthValidation.SignUpIssues | lib/edtech/auth-validation.ts:28-43 | sign-up passes iff the trimmed name is 2..80 long, the e-mail is valid, the password is strong and the confirmation matches; a mismatch is the last issue reported |
| AuthValidation.ResetPasswordIssues | lib/edtech/auth-validation.ts:49-62 | a reset passes iff the password is strong and the confirmation matches; a mismatch is the last issue reported |
| AuthValidation.MatchingConfirmationIsNotReported | lib/edtech/auth-validation.ts:54-62 | a strong password confirmed by itself passes; confirmed by a different string, the only issue is the mismatch |
| AuthValidation.SignInIgnoresStrength | lib/edtech/auth-validation.ts:19-22 | sign-in does not apply the strength rules: any non-empty password passes with a valid e-mail |
| AuthValidation.EmailIsTrimmedFirst | lib/edtech/auth-validation.ts:6-9 | surrounding whitespace around the e-mail changes nothing in the verdict |
| AuthValidation.WeakSignUpIsRejected | tests/unit/auth-validation.test.ts:20-29 | sign-up with "weak"/"weak" reports too-short, no-upper-case and no-digit and no mismatch |
| AuthValidation.MismatchedResetIsRejected | tests/unit/auth-validation.test.ts:31-38 | a strong password with a differing confirmation yields exactly the mismatch issue |
| AuthValidation.MalformedEmailIsRejected | tests/unit/auth-validation.test.ts:40-46 | a reset request for "not-an-email" yields exactly the invalid-email issue |
| Roles.RolePriority | lib/edtech/roles.ts:3-8 | every role has a priority between 1 and 4 |
| Roles.PriorityIsInjective | lib/edtech/roles.ts:3-8 | no two roles share a priority |
| Roles.PriorityIsRank | lib/edtech/roles.ts:3-8 | a role's priority is its position in learner < manager < admin < owner |
| Roles.HasMinimumRole | lib/edtech/roles.ts:10-16 | a missing role never qualifies; a present role qualifies iff its priority is at least the minimum's |
| Roles.MinimumRoleIsRankOrder | lib/edtech/roles.ts:10-16 | qualifying is the same as standing no lower in the rank list |
| Roles.MinimumRoleIsReflexive | lib/edtech/roles.ts:10-16 | every role meets itself as a minimum |
| Roles.MinimumRoleIsTransitive | lib/edtech/roles.ts:10-16 | the minimum-role relation is transitive |
| Roles.MinimumRoleIsAntisymmetric | lib/edtech/roles.ts:10-16 | two roles that meet each other are equal |
| Roles.MinimumRoleIsTotal | lib/edtech/roles.ts:10-16 | of any two roles one meets the other |
| Roles.LearnerAndOwnerAreExtremes | lib/edtech/roles.ts:3-8 | every role meets learner; owner meets every role; only owner meets owner |
| Roles.RoleExamples | tests/unit/roles.test.ts:6-14 | owner meets admin, admin meets manager, learner does not meet manager, no role meets nothing |
| OrgSelection.OrgIds | lib/edtech/org-selection.ts:11 | the membership org ids, one per membership, in order |
| OrgSelection.FirstUsable | lib/edtech/org-selection.ts:7-15 | the index of the first candidate that is non-empty and names a membership, or none iff no candidate does |
| OrgSelection.PickOrgId | lib/edtech/org-selection.ts:3-22 | returns the first usable candidate; failing that the only org of a single-org user; otherwise nothing; any result is one of the user's orgs |
| OrgSelection.FirstUsableIsFirst | lib/edtech/org-selection.ts:7-15 | a usable candidate preceded only by unusable ones is the one chosen |
| OrgSelection.EmptyCandidatesAreSkipped | lib/edtech/org-selection.ts:8-10 | inserting a null or empty candidate anywhere changes neither whether a candidate is chosen nor which |
| OrgSelection.SingleOrgUserExample | tests/unit/org-selection.test.ts:12-14 | a single-org user gets that org |
| OrgSelection.PreferredCandidateExample | tests/unit/org-selection.test.ts:16-18 | a valid preferred candidate wins |
| OrgSelection.MultiOrgUserExample | tests/unit/org-selection.test.ts:20-22 | a multi-org user with no usable candidate gets no org |
| ProductNav.WithOrg | components/layout/product-nav.tsx:7-14 | no org (null or empty) leaves the path alone; otherwise the link is the path, then `?` or `&` depending on whether the path already has a query, then `org=` and the id |
| ProductNav.PathOf | components/layout/product-nav.tsx:12-13 | dropping the separator and `org=<id>` from a link gives a prefix of it |
| ProductNav.PathIsRecovered | components/layout/product-nav.tsx:7-14 | the path is recovered from any link built for a non-empty org |
| ProductNav.LinkHasQuery | components/layout/product-nav.tsx:12-13 | a link built for an org always carries a query |
| ProductNav.WithOrgStartsQuery | components/layout/product-nav.tsx:12-13 | `/product/learn` with org `o1` becomes `/product/learn?org=o1` |
| ProductNav.WithOrgExtendsQuery | components/layout/product-nav.tsx:12-13 | `/learn?tab=2` with org `o1` becomes `/learn?tab=2&org=o1` |
| Text.LeadingSpaceCount | lib/edtech/quiz-sync.ts:12 | the length of the longest all-whitespace prefix |
| Text.TrailingSpaceCount | lib/edtech/quiz-sync.ts:12 | the length of the longest all-whitespace suffix |
| Text.LeadingSpaceOfPadded | lib/edtech/quiz-sync.ts:12 | whitespace before a string that does not start with whitespace is exactly the leading run |
| Text.TrailingSpaceOfPadded | lib/edtech/quiz-sync.ts:12 | whitespace after a string that does not end with whitespace is exactly the trailing run |
| Text.TrimOfPadded | lib/edtech/idempotency.ts:15 | trimming a trimmed string padded with whitespace gives it back |
| Text.TrimOfTrimmed | lib/edtech/idempotency.ts:15 | trimming a trimmed string leaves it unchanged |
| Text.TrimIsTrimmed | lib/edtech/idempotency.ts:15 | the result of trim neither starts nor ends with whitespace |
| Text.TrimSplits | lib/edtech/idempotency.ts:15 | every string is its leading whitespace, its trim and its trailing whitespace, in that order |
| Text.TrimKeepsAbsent | lib/edtech/idempotency.ts:15 | trim introduces no character that was not there |
| Text.TrimIgnoresPadding | lib/edtech/idempotency.ts:15 | added surrounding whitespace does not change the trim |
| Text.TrimIdempotent | lib/edtech/idempotency.ts:15 | trimming twice is trimming once |
| Text.LowerChar | lib/edtech/module-media.ts:60 | ASCII upper-case letters move to lower case; every other character is kept |
| Text.Lower | lib/edtech/module-media.ts:60 | lower-casing keeps the length and maps each character on its own |
| Text.JoinLength | lib/edtech/campaign-generator.ts:53-57 | a join of items no longer than a bound is at most the item count times the bound plus separator |
| Text.JoinHoldsItems | lib/edtech/campaign-generator.ts:53-57 | every item occurs in the join at its computed offset |
| QuizSync.QuizNeedsRegeneration | lib/edtech/quiz-sync.ts:21-30 | a missing or empty stored hash always needs regeneration; otherwise regeneration is needed iff the stored hash differs from the current one |
| QuizSync.ComputeQuizSyncHash | lib/edtech/quiz-sync.ts:10-19 | the hash is the digest of the source with all four fields trimmed, 64 lower-case hex characters |
| QuizSync.HashDependsOnlyOnTrimmedFields | lib/edtech/quiz-sync.ts:10-19 | sources whose trimmed fields agree hash alike |
| QuizSync.HashIgnoresSurroundingWhitespace | lib/edtech/quiz-sync.ts:11-16 | whitespace added around any of the four fields leaves the hash unchanged |
| QuizSync.FreshHashIsCurrent | tests/unit/quiz-sync.test.ts:13-17 | a hash just computed for a source never asks for regeneration |
| QuizSync.PaddedSourceStaysCurrent | lib/edtech/quiz-sync.ts:15 | re-padding the content with whitespace does not make the stored hash stale |
| QuizSync.ChangedSourceNeedsRegeneration | tests/unit/quiz-sync.test.ts:19-31 | an edit that survives trimming, on which the digest does not collide with the original, changes the hash and demands regeneration |
| QuizSync.RegenerationIffHashesDiffer | lib/edtech/quiz-sync.ts:21-30 | with no assumption on the digest, a stored hash of one source asks for regeneration on another exactly when their trimmed forms hash apart |
| Idempotency.GetIdempotencyKeyFromRequest | lib/edtech/idempotency.ts:9-25 | no header or a blank one gives no key; a trimmed key over 128 characters is an error; otherwise the key is the trimmed header, 1..128 long |
| Idempotency.PaddedKeyIsReadBack | lib/edtech/idempotency.ts:15-24 | a trimmed key of 1..128 characters padded with whitespace is read back exactly |
| Idempotency.ReadKeyIsStable | lib/edtech/idempotency.ts:15-24 | a key that was read is read back unchanged when sent again |
| Idempotency.PublishKeyExample | tests/unit/idempotency.test.ts:7-15 | `"  publish-123  "` reads as `publish-123` |
| Idempotency.OverlongKeyExample | tests/unit/idempotency.test.ts:17-25 | a 129-character key is rejected |
| Idempotency.HashIdempotencyKey | lib/edtech/idempotency.ts:27-29 | the hash is the digest of the key: 64 characters, each a lower-case hex digit |
| Idempotency.DistinctKeysHashApart | lib/edtech/idempotency.ts:27-29 | two distinct keys the digest does not collide on hash to distinct values |
| Idempotency.WithIdempotencyMetadata | lib/edtech/idempotency.ts:31-43 | no or empty hash leaves metadata alone; otherwise exactly the key `idempotencyKeyHash` is added or overwritten with the hash and every other field is kept |
| Idempotency.SuccessfulRequests | lib/edtech/idempotency.ts:58-64 | each row with the same org, user and action and status 200 contributes its metadata, and nothing else appears; order and repeats are fixed by SuccessfulRequestsOfOne and SuccessfulRequestsAppend |
| Idempotency.SuccessfulRequestsOfOne | lib/edtech/idempotency.ts:58-64 | a single row yields its metadata exactly when it has the org, user, action and status 200 |
| Idempotency.SuccessfulRequestsAppend | lib/edtech/idempotency.ts:58-64 | the query keeps the rows' order and every repeat: the result for a concatenation is the two results concatenated |
| Idempotency.RecentSuccesses | lib/edtech/idempotency.ts:58-66 | a prefix of the matching successes in their order, of length exactly min(50, their number) |
| Idempotency.FirstMatchIndex | lib/edtech/idempotency.ts:72-91 | the position of the first entry that is an object with the key hash, the resource value when a resource filter is given, and a response object |
| Idempotency.FirstReplay | lib/edtech/idempotency.ts:92-94 | a replayed response is always an object |
| Idempotency.FindIdempotentSuccess | lib/edtech/idempotency.ts:45-98 | no key hash or a failed query gives no replay; otherwise the loop returns the response of the first matching entry that records one, among the 50 newest successes |
| Idempotency.FirstMatchIsAt | lib/edtech/idempotency.ts:72-91 | a matching entry preceded only by non-matching ones is the first match |
| Idempotency.ReplayComesFromSameKey | lib/edtech/idempotency.ts:82-94 | a replay comes from an entry recording the same key hash and, when filtered, the same resource |
| Idempotency.SkippedEntryDoesNotStopScan | lib/edtech/idempotency.ts:78-90 | a non-matching entry is skipped and the scan continues with the rest |
| Idempotency.NoMatchNoReplay | lib/edtech/idempotency.ts:97 | when no entry matches there is nothing to replay |
| Idempotency.RecordedSuccessIsReplayed | lib/edtech/idempotency.ts:31-43 | an audit entry written with the key hash and a response object is replayed by the next lookup with that key |
| FileNames.AlnumSuffixLength | lib/edtech/module-media.ts:55 | the length of the longest alphanumeric suffix |
| FileNames.ExtensionMatch | lib/edtech/module-media.ts:55 | a match is a dot followed by a non-empty alphanumeric tail ending the name, and the tail is returned |
| FileNames.DotExtensionIsLongestSuffix | lib/edtech/module-media.ts:55 | a dot-extension always spans the whole alphanumeric suffix |
| FileNames.ExtensionMatchFindsEveryExtension | lib/edtech/module-media.ts:55-58 | whenever a name ends with a dot-extension, the match finds it |
| FileNames.ReplaceRuns | lib/edtech/module-media.ts:19-22 | replacing each run of a character class by one dash never lengthens the string, leaves no class character, keeps emptiness and maps the first character; its full behaviour is ReplaceRunsNoMatch, ReplaceRunsOfRun and ReplaceRunBetween |
| FileNames.StripEdges | lib/edtech/module-media.ts:23 | the result is the input without its longest `._-` prefix and suffix (its length is the input's less both); it neither starts nor ends with `._-`, and is empty iff the input is all `._-` |
| FileNames.NormalizeStem | lib/edtech/module-media.ts:19-23 | the replace chain never lengthens the name, keeps the empty name empty and leaves no `._-` at either end |
| FileNames.EdgeFront | lib/edtech/module-media.ts:23 | the length of the leading `._-` run |
| FileNames.EdgeBack | lib/edtech/module-media.ts:23 | the length of the trailing `._-` run |
| FileNames.SanitizeFileStem | lib/edtech/module-media.ts:16-30 | an empty normalised name gives the fallback; otherwise a safe prefix of the normalised name of at most 64 characters |
| FileNames.SanitizedStemIsSafe | lib/edtech/policy-file.ts:11-25 | with a safe fallback, the stem only has `[a-zA-Z0-9._-]`, no `--`, and is 1..64 long |
| FileNames.CollapsedHasNoDoubleDash | lib/edtech/module-media.ts:22 | collapsing dash runs leaves no two adjacent dashes |
| FileNames.ReplaceRunsKeepsSafe | lib/edtech/module-media.ts:21-22 | replacing runs keeps a safe string safe |
| FileNames.StripEdgesKeepsSafe | lib/edtech/module-media.ts:23 | stripping the edges keeps a safe string safe and without `--` |
| FileNames.NormalizedIsSafe | lib/edtech/module-media.ts:17-23 | the normalisation chain always yields a safe string without `--` |
| FileNames.ReplaceRunsNoMatch | lib/edtech/module-media.ts:19-22 | a string without class characters is left unchanged |
| FileNames.ReplaceRunsSplit | lib/edtech/module-media.ts:19-22 | replacement distributes over a concatenation that does not join two runs |
| FileNames.ReplaceOneRun | lib/edtech/module-media.ts:19-22 | one class character between plain text becomes one dash |
| FileNames.ReplaceRunsOfRun | lib/edtech/module-media.ts:19-22 | a non-empty string of class characters becomes exactly one dash |
| FileNames.ReplaceRunThen | lib/edtech/module-media.ts:19-22 | a run followed by text that does not continue it becomes one dash followed by that text's replacement |
| FileNames.ReplaceRunBetween | lib/edtech/module-media.ts:19-22 | a maximal run between two pieces becomes one dash and the pieces are replaced independently |
| FileNames.JoinedWords | lib/edtech/module-media.ts:20 | alphanumeric words joined by one separator start and end alphanumeric and contain only alphanumerics and the separator |
| FileNames.ReplaceSeparatedWords | lib/edtech/module-media.ts:19-22 | words separated by class characters become words separated by dashes |
| FileNames.SpacedWordsSeparators | lib/edtech/module-media.ts:19 | names without slashes pass the path-separator step unchanged |
| FileNames.SpacedWordsSpaces | lib/edtech/module-media.ts:20 | the whitespace step turns spaced words into dashed words |
| FileNames.DashedWordsUnsafe | lib/edtech/module-media.ts:21 | the unsafe-character step only dashes the stray tail |
| FileNames.DashedWordsDashes | lib/edtech/module-media.ts:22 | the dash-collapse step leaves dashed words alone |
| FileNames.DashedWordsStrip | lib/edtech/module-media.ts:23 | edge stripping removes the stray tail |
| FileNames.NormalizeSpacedWords | lib/edtech/module-media.ts:17-23 | spaced alphanumeric words with punctuation at the end normalise to the words joined by dashes |
| FileNames.SplitUploadName | lib/edtech/module-media.ts:50-60 | a blank name and a name without a dot-extension are the two errors; otherwise the trimmed name is base, dot, extension, and the extension is lower-cased and alphanumeric |
| FileNames.SplitOfJoinedName | lib/edtech/module-media.ts:50-60 | a trimmed `base.ext` splits back into its base and lower-cased extension |
| FileNames.DottedName | lib/edtech/module-media.ts:85 | the stored name is the stem, a dot and the extension |
| FileNames.SpacedWordsName | tests/unit/module-media.test.ts:9-22 | a spaced-words name splits at its extension and sanitises to the dashed words |
| FileNames.SpacedWordsSplit | lib/edtech/module-media.ts:50-60 | spaced words with a lower-case extension split at that extension |
| FileNames.SplitOfLowerName | lib/edtech/module-media.ts:50-60 | a name not starting with whitespace and with a lower-case extension splits at it |
| FileNames.LowerOfLowerAlnum | lib/edtech/module-media.ts:60 | lower-casing a lower-case alphanumeric extension changes nothing |
| FileNames.SpacedWordsStem | lib/edtech/module-media.ts:16-30 | spaced words of at most 64 dashed characters sanitise to the dashed words |
| ModuleMedia.ExtensionToMime | lib/edtech/module-media.ts:3-12 | an entry exactly for the eight media extensions, `jpg` and `jpeg` both to image/jpeg, an inherited property for `constructor`, and every entry is an allowed MIME type |
| ModuleMedia.AllowedMimeTypesAreTableValues | lib/edtech/module-media.ts:14 | the allowed MIME types are the table's values, in order and without repeats |
| ModuleMedia.GetMediaKindFromMime | lib/edtech/module-media.ts:32-40 | `image/` types are images, `video/` types are videos, and nothing else has a kind |
| ModuleMedia.TableMimeTypesHaveAKind | lib/edtech/module-media.ts:78-81 | every MIME type in the table has a kind |
| ModuleMedia.MediaFallbackIsSafe | lib/edtech/module-media.ts:26 | the fallback stem `media` is itself a safe stem |
| ModuleMedia.MediaPathIsInOrgFolder | lib/edtech/module-media.ts:86 | every stored path lies in the organisation's folder |
| ModuleMedia.NormalizeModuleMediaUploadFile | lib/edtech/module-media.ts:42-94 | each error branch in order (blank, no extension, unsupported, mismatch); success iff the table maps the extension to the declared MIME type, and then the kind matches the MIME type and the name is stored safely |
| ModuleMedia.StoredMedia | lib/edtech/module-media.ts:83-93 | the upload keeps the declared MIME type and kind and is stored under the safe name |
| ModuleMedia.UploadOfSplitName | lib/edtech/module-media.ts:83-86 | a matching upload succeeds with the sanitised stem, a dot and the extension as its name |
| ModuleMedia.SpacedWordsUpload | tests/unit/module-media.test.ts:9-22 | a spaced-words image or video name is stored as dashed words with its extension, in the org folder, with the right kind |
| ModuleMedia.DemoPngAsVideoIsRejected | tests/unit/module-media.test.ts:24-35 | `demo.png` declared as `video/mp4` is a MIME mismatch |
| ModuleMedia.DemoPngSplits | tests/unit/module-media.test.ts:24-35 | `demo.png` splits into `demo` and `png` |
| ModuleMedia.MediaKindExamples | tests/unit/module-media.test.ts:37-41 | png and webp images, a webm video, and no kind for a PDF |
| PolicyFile.ExtensionToMime | lib/edtech/policy-file.ts:3-7 | an entry exactly for pdf, docx and txt, and an inherited property for `constructor` |
| PolicyFile.PolicyMimeTypesAreDistinct | lib/edtech/policy-file.ts:3-7 | no two policy extensions share a MIME type |
| PolicyFile.PolicyFallbackIsSafe | lib/edtech/policy-file.ts:21 | the fallback stem `policy` is itself a safe stem |
| PolicyFile.PolicyPathIsInOrgFolder | lib/edtech/policy-file.ts:60 | every stored path lies in the organisation's folder |
| PolicyFile.StoredPolicy | lib/edtech/policy-file.ts:57-66 | the upload keeps the extension and is stored under the safe name |
| PolicyFile.NormalizePolicyUploadFile | lib/edtech/policy-file.ts:27-67 | each error branch in order; success iff the table maps the extension to the declared MIME type, and then a supported extension and a safe stored name |
| PolicyFile.UploadOfSplitName | lib/edtech/policy-file.ts:57-60 | a matching upload is stored in the org folder as the sanitised stem with its extension |
| PolicyFile.PolicyPathEndsWithExtension | lib/edtech/policy-file.ts:59-60 | every stored path ends with the dot-extension |
| PolicyFile.SpacedWordsUpload | tests/unit/policy-file.test.ts:7-18 | a spaced-words policy name is stored as dashed words with its extension in the org folder |
| PolicyFile.PolicyExtensionsAreLowerAlnum | lib/edtech/policy-file.ts:3-7 | every policy extension is a non-empty lower-case alphanumeric word, so the splitter can return it |
| PolicyFile.PdfAsTextIsRejected | tests/unit/policy-file.test.ts:20-29 | `policy.pdf` declared as `text/plain` is a MIME mismatch |
| CampaignCopy.SourceCopyFits | lib/edtech/campaign-generator.ts:47-137 | the fallback wording of the source fits every schema bound the fallback module and quiz must meet |
| CampaignCopy.ContentLengths | lib/edtech/campaign-generator.ts:57-65 | the lengths of the generic bullet and the content template pieces |
| CampaignCopy.SummaryLengths | lib/edtech/campaign-generator.ts:64 | the lengths of the summary template pieces |
| CampaignCopy.MediaLengths | lib/edtech/campaign-generator.ts:68-83 | the lengths of the canned image and video titles, captions and prompts |
| CampaignCopy.FirstQuestionLengths | lib/edtech/campaign-generator.ts:102-112 | the first fallback question's prompt, explanation and choices fit |
| CampaignCopy.SecondQuestionLengths | lib/edtech/campaign-generator.ts:112-123 | the second fallback question's prompt, explanation and choices fit |
| CampaignCopy.ThirdQuestionLengths | lib/edtech/campaign-generator.ts:124-135 | the third fallback question's prompt, explanation and choices fit |
| CampaignGenerator.Requested | lib/edtech/campaign-generator.ts:32 | a track is kept iff it was requested |
| CampaignGenerator.TrackIsDefault | lib/edtech/campaign-generator.ts:29 | the default tracks contain every track |
| CampaignGenerator.OrderedTracks | lib/edtech/campaign-generator.ts:31-35 | one to three tracks in exec, builder, general order, exactly the requested ones, or all three when none are requested |
| CampaignGenerator.NothingFilteredOnlyWhenNoneRequested | lib/edtech/campaign-generator.ts:32-34 | the filtered list is empty iff no track was requested |
| CampaignGenerator.OrderedTracksAreDistinct | lib/edtech/campaign-generator.ts:31-35 | no track appears twice, whatever the request repeats |
| CampaignGenerator.OrderedTracksExample | lib/edtech/campaign-generator.ts:31-35 | `[builder, exec, builder]` orders to `[exec, builder]` |
| CampaignGenerator.DetailsOf | lib/edtech/campaign-generator.ts:37-45 | a track's details are at most the obligations; DetailsOfOne and DetailsOfAppend state that they are the track's details in order |
| CampaignGenerator.DetailsOfAppend | lib/edtech/campaign-generator.ts:41-43 | grouping distributes over concatenation, keeping order |
| CampaignGenerator.DetailsOfOne | lib/edtech/campaign-generator.ts:41-43 | one obligation lands under its own track only |
| CampaignGenerator.DetailsPartitionObligations | lib/edtech/campaign-generator.ts:37-45 | the three tracks' details together account for every obligation exactly once |
| CampaignGenerator.ObligationByTrack | lib/edtech/campaign-generator.ts:37-45 | the loop builds a map with exactly the three tracks, each holding its obligations' details in order |
| CampaignGenerator.RoleLabel | lib/edtech/campaign-generator.ts:59 | the track name with its first letter upper-cased |
| CampaignGenerator.Highlights | lib/edtech/campaign-generator.ts:53 | the first four details |
| CampaignGenerator.Bulleted | lib/edtech/campaign-generator.ts:54 | each item prefixed with `- ` |
| CampaignGenerator.BulletList | lib/edtech/campaign-generator.ts:53-57 | no details gives the generic bullet |
| CampaignGenerator.BulletListShowsHighlights | lib/edtech/campaign-generator.ts:53-57 | each of the first four details appears bulleted in the list |
| CampaignGenerator.BulletListIgnoresLaterDetails | lib/edtech/campaign-generator.ts:53 | details after the fourth do not change the list |
| CampaignGenerator.BulletListLength | lib/edtech/campaign-generator.ts:53-57 | the list is bounded by four bulleted details |
| CampaignGenerator.FallbackLearningModule | lib/edtech/campaign-generator.ts:47-85 | the module has the track, pass score 80, `10 + 2*index` minutes, one image and one video suggestion, and a title starting with the campaign name |
| CampaignGenerator.FallbackModuleIsValid | lib/edtech/campaign-generator.ts:47-85 | the fallback module satisfies the module schema for names up to 101 characters, details up to 1000 and indexes up to 15 |
| CampaignGenerator.FallbackLearningDraft | lib/edtech/campaign-generator.ts:87-96 | one module per ordered track, in order, with minutes `10 + 2*i` and two suggestions |
| CampaignGenerator.FallbackDraftIsValid | lib/edtech/campaign-generator.ts:87-96 | the fallback draft satisfies the draft schema under the same bounds |
| CampaignGenerator.DetailsOfBounded | lib/edtech/campaign-generator.ts:37-45 | a bound on obligation details bounds every grouped detail |
| CampaignGenerator.MapModuleForQuizGeneration | lib/edtech/campaign-generator.ts:372-381 | the quiz input copies the module's six fields |
| CampaignGenerator.FallbackQuiz | lib/edtech/campaign-generator.ts:98-137 | three questions with correct choices 1, 2 and 2 that satisfy the quiz schema |
| CampaignGenerator.ToMediaEmbeds | lib/edtech/campaign-generator.ts:139-151 | one embed per suggestion, with a fresh id, order equal to its index, status suggested, and no asset or MIME type |
| CampaignGenerator.EmbedsKeepSuggestions | lib/edtech/campaign-generator.ts:139-151 | each embed carries its suggestion's kind, title, caption and prompt unchanged |
| CampaignGenerator.EmbedsAreValid | lib/edtech/campaign-generator.ts:139-151 | valid suggestions with UUIDs give embeds that satisfy the embed schema |
| CampaignGenerator.FirstModuleFor | lib/edtech/campaign-generator.ts:164-169 | a module of the backend's draft for the track, or none iff the draft has none for it |
| CampaignGenerator.FirstModuleWins | lib/edtech/campaign-generator.ts:164-169 | the first module of a track is the one kept |
| CampaignGenerator.FirstModuleForSnoc | lib/edtech/campaign-generator.ts:164-169 | a later module never displaces an earlier one of the same track |
| CampaignGenerator.StageOneModule | lib/edtech/campaign-generator.ts:171-183 | the module has the requested track; the backend's module wins, then the fallback's |
| CampaignGenerator.StageOneModules | lib/edtech/campaign-generator.ts:153-184 | one module per ordered track, in order |
| CampaignGenerator.FallbackCoversEveryTrack | lib/edtech/campaign-generator.ts:87-96 | the fallback draft has, for each ordered track, exactly the module at that position |
| CampaignGenerator.StageOneChoosesAiThenFallback | lib/edtech/campaign-generator.ts:153-184 | without a backend draft the fallback is used; with one, its module for the track if any, else the fallback's; a non-fallback module comes from the backend |
| CampaignGenerator.FirstModuleByTrack | lib/edtech/campaign-generator.ts:164-169 | the loop maps exactly the tracks the backend answered to their first module |
| CampaignGenerator.NormalizeStageOneModules | lib/edtech/campaign-generator.ts:153-184 | the method returns the stage-one modules |
| CampaignGenerator.MergeOverFallback | lib/edtech/campaign-generator.ts:171-183 | the loop yields the stage-one module of each track, in order |
| CampaignGenerator.StageOneHasSuggestions | lib/edtech/campaign-generator.ts:153-184 | every stage-one module has one to four media suggestions |
| CampaignGenerator.ParsedDraft | lib/edtech/campaign-generator.ts:284-285 | the backend's draft is kept iff it satisfies the draft schema |
| CampaignGenerator.ParsedQuiz | lib/edtech/campaign-generator.ts:356-357 | the backend's quiz is kept iff it satisfies the quiz schema |
| CampaignGenerator.GenerateModuleQuiz | lib/edtech/campaign-generator.ts:360-370 | a valid quiz always: the backend's answer when it parses, the fallback quiz otherwise or offline |
| CampaignGenerator.GeneratedModuleOf | lib/edtech/campaign-generator.ts:392-418 | the generated module keeps the stage-one fields, its embeds are the module's suggestions converted in order, its quiz is the quiz generated for that module and is valid, and its sync hash is current |
| CampaignGenerator.StageOneDraft | lib/edtech/campaign-generator.ts:386-388 | only a connected backend's schema-valid draft is used |
| CampaignGenerator.GeneratedModuleAt | lib/edtech/campaign-generator.ts:390-418 | the i-th module is the i-th stage-one module, generated with the i-th embed ids; it has the i-th ordered track, 1..4 embeds, a valid quiz and a current 64-character sync hash |
| CampaignGenerator.GenerateCampaignDraft | lib/edtech/campaign-generator.ts:383-425 | flow version 2 and one generated module per ordered track |
| CampaignGenerator.ExecBuilderDraftExample | tests/unit/campaign-generator.test.ts:9-33 | exec and builder give two modules in that order, each with embeds, at least three questions and a long sync hash |
| BootstrapOwner.FirstAt | app/api/me/bootstrap-owner/route.ts:13 | the position of the first `@`, or the length when there is none |
| BootstrapOwner.NamePrefix | app/api/me/bootstrap-owner/route.ts:13 | the name prefix is never empty; PrefixIsLocalPart and NoEmailPrefix state what it is |
| BootstrapOwner.DefaultOrgName | app/api/me/bootstrap-owner/route.ts:12-15 | `<prefix>'s Workspace`, cut to 80 characters |
| BootstrapOwner.PrefixIsLocalPart | app/api/me/bootstrap-owner/route.ts:13-14 | the prefix is the trimmed local part, or `New User` when that is blank |
| BootstrapOwner.NoEmailName | app/api/me/bootstrap-owner/route.ts:12-15 | no e-mail gives `New User's Workspace` |
| BootstrapOwner.NoEmailPrefix | app/api/me/bootstrap-owner/route.ts:13-14 | no e-mail gives the prefix `New User` |
| BootstrapOwner.NoEmailNameSpelled | app/api/me/bootstrap-owner/route.ts:14 | the default prefix and suffix spell `New User's Workspace` |
| BootstrapOwner.NewUserIsPlain | app/api/me/bootstrap-owner/route.ts:13 | `New User` is trimmed and has no `@` |
| BootstrapOwner.BlankLocalPartName | app/api/me/bootstrap-owner/route.ts:12-15 | an address with a blank local part names the workspace like no address at all |
| BootstrapOwner.LocalPartName | app/api/me/bootstrap-owner/route.ts:12-15 | a plain short local part names the workspace `<local>'s Workspace` |
| BootstrapOwner.FirstAtAfter | app/api/me/bootstrap-owner/route.ts:13 | in `local@domain` the first `@` follows the local part |
| BootstrapOwner.OrgName | app/api/me/bootstrap-owner/route.ts:36-56 | an organisation's name is found iff an organisation has that id |
| BootstrapOwner.MembershipsIn | app/api/me/bootstrap-owner/route.ts:36-56 | each membership comes from a row of the user with that organisation and role, and names its organisation correctly |
| BootstrapOwner.RowIsMembership | app/api/me/bootstrap-owner/route.ts:36-56 | every member row of the user whose organisation exists is listed |
| BootstrapOwner.MembershipsInAppend | app/api/me/bootstrap-owner/route.ts:36-56 | memberships follow the row order: those of a concatenation are those of each part in turn |
| BootstrapOwner.RowEmail | app/api/me/bootstrap-owner/route.ts:133 | the member row's email is the user's own, or `<user id>@local.dev` when the user has none |
| BootstrapOwner.Upsert | app/api/me/bootstrap-owner/route.ts:129-137 | the new row is present; rows with another (org, user) key are kept; nothing else is added |
| BootstrapOwner.UpsertKeepsKeysUnique | app/api/me/bootstrap-owner/route.ts:129-137 | upserting keeps (org, user) keys unique |
| BootstrapOwner.ChosenOrg | app/api/me/bootstrap-owner/route.ts:99-127 | the oldest existing organisation, or a new one named by the request or the default name |
| BootstrapOwner.OrgStore.constructor | app/api/me/bootstrap-owner/route.ts:36-56 | a store with the given organisations and unique member keys |
| BootstrapOwner.OrgStore.Bootstrap | app/api/me/bootstrap-owner/route.ts:19-167 | disabled gives the auth error and no change; an existing member gets their memberships and no change; otherwise the chosen organisation is created if needed, the owner row is upserted, and the owner membership is returned |
| BootstrapOwner.BootstrapMakesOwner | app/api/me/bootstrap-owner/route.ts:129-167 | after bootstrapping, the user holds an owner membership of the chosen organisation |
| Backfill.TrackOf | scripts/backfill-learning-flow-v2.ts:31-33 | a value is a track iff it is the string of that track |
| Backfill.KeptTracks | scripts/backfill-learning-flow-v2.ts:31-33 | at most one track per item; which tracks are kept is stated by KeptTracksMembership, their order by KeptTracksAppend |
| Backfill.KeptTracksAppend | scripts/backfill-learning-flow-v2.ts:31-33 | filtering distributes over concatenation |
| Backfill.KeptTracksMembership | scripts/backfill-learning-flow-v2.ts:31-33 | a track is kept iff its string is among the items |
| Backfill.AsRoleTracks | scripts/backfill-learning-flow-v2.ts:27-35 | a non-array gives the default tracks; an array gives its track strings, or the defaults when none |
| Backfill.RoleTracksKeepRepeats | scripts/backfill-learning-flow-v2.ts:31-34 | repeated tracks are kept and non-strings dropped |
| Backfill.PolicyIdOf | scripts/backfill-learning-flow-v2.ts:40 | a value is a policy id iff it is a non-empty string |
| Backfill.KeptIds | scripts/backfill-learning-flow-v2.ts:40 | at most one id per item; which ids are kept is stated by KeptIdsMembership, their order by KeptIdsAppend |
| Backfill.KeptIdsMembership | scripts/backfill-learning-flow-v2.ts:40 | an id is kept iff it is non-empty and among the items |
| Backfill.KeptIdsAppend | scripts/backfill-learning-flow-v2.ts:40 | filtering distributes over concatenation |
| Backfill.AsPolicyIds | scripts/backfill-learning-flow-v2.ts:37-41 | a non-array gives no ids; an array gives its non-empty strings |
| Backfill.CampaignObligations | scripts/backfill-learning-flow-v2.ts:84-96 | no policy ids give no obligations; otherwise those of the campaign's policies in its org |
| Backfill.CampaignDraft | scripts/backfill-learning-flow-v2.ts:98-102 | the regenerated draft has flow version 2 and one module per ordered track |
| Backfill.ExistingModules | scripts/backfill-learning-flow-v2.ts:119-121 | the map has exactly the tracks of the fetched rows |
| Backfill.LaterRowWins | scripts/backfill-learning-flow-v2.ts:119-121 | the last row of a track gives its id |
| Backfill.ModuleCalls | scripts/backfill-learning-flow-v2.ts:123-192 | a module with a non-empty existing id is updated and its questions deleted, otherwise inserted, under the existing id or else the fresh one; then its own questions are inserted under that same id; all writes stay in the campaign's org |
| Backfill.DraftCalls | scripts/backfill-learning-flow-v2.ts:123-192 | two to three writes per module, all in the campaign's org, none an upgrade or audit; DraftCallsSnoc ties them to ModuleCalls |
| Backfill.DraftCallsSnoc | scripts/backfill-learning-flow-v2.ts:123-192 | one more module appends that module's calls, with the next fresh id |
| Backfill.ApplyCalls | scripts/backfill-learning-flow-v2.ts:109-206 | the two fetches, the module writes, and finally the campaign upgrade, which appears nowhere earlier |
| Backfill.PlannedCalls | scripts/backfill-learning-flow-v2.ts:84-206 | a dry run only fetches obligations; an apply run fetches, writes exactly the draft's module calls and ends with the upgrade; all writes stay in the org |
| Backfill.Performed | scripts/backfill-learning-flow-v2.ts:78-231 | every write done comes from a planned store call before the cut |
| Backfill.FirstFailure | scripts/backfill-learning-flow-v2.ts:223-230 | the first failing call, or none iff none fails |
| Backfill.FirstFailureAt | scripts/backfill-learning-flow-v2.ts:223-230 | a failing call preceded by no failure is the first failure |
| Backfill.Execute | scripts/backfill-learning-flow-v2.ts:78-231 | upgraded iff no call fails; then all writes plus the audit entry in apply mode; otherwise the writes before a failing call (ExecuteStopsAtFirstFailure: the first one); all in the org |
| Backfill.ExecuteStopsAtFirstFailure | scripts/backfill-learning-flow-v2.ts:78-230 | a failed campaign keeps exactly the writes made before the first call that fails, since the first throw ends its `try` block |
| Backfill.ProcessCampaign | scripts/backfill-learning-flow-v2.ts:78-231 | a campaign's writes all stay in its organisation |
| Backfill.DryRunWritesNothing | scripts/backfill-learning-flow-v2.ts:104-107 | a dry run writes nothing and counts as upgraded iff the obligation fetch succeeds |
| Backfill.UpgradeIsWrittenLast | scripts/backfill-learning-flow-v2.ts:194-206 | no prefix of the planned calls short of the end writes the upgrade |
| Backfill.UpgradeOnlyAfterEveryWrite | scripts/backfill-learning-flow-v2.ts:194-222 | if the upgrade was written, every module write was done before it and the audit follows |
| Backfill.ExistingModuleIsReplaced | scripts/backfill-learning-flow-v2.ts:127-156 | an existing module with an id is updated, its questions deleted and re-inserted under the same id |
| Backfill.MissingModuleIsInserted | scripts/backfill-learning-flow-v2.ts:157-191 | a missing module is inserted under a new id and its questions under that id |
| Backfill.ExecuteCalls | scripts/backfill-learning-flow-v2.ts:78-231 | the loop performs exactly the writes and outcome of the execution function |
| Backfill.RunCampaign | scripts/backfill-learning-flow-v2.ts:78-231 | the method's writes and outcome for one campaign are those of the campaign function |
| Backfill.RunWrites | scripts/backfill-learning-flow-v2.ts:78-231 | no campaigns give no writes |
| Backfill.RunWritesStayInOrgs | scripts/backfill-learning-flow-v2.ts:78-231 | every write of a run belongs to the organisation of some campaign |
| Backfill.FailedIds | scripts/backfill-learning-flow-v2.ts:223-230 | at most one failure per campaign |
| Backfill.FailedIdsAreFailures | scripts/backfill-learning-flow-v2.ts:223-230 | every recorded failure is a campaign that was not upgraded |
| Backfill.FailedCampaignIsListed | scripts/backfill-learning-flow-v2.ts:223-230 | every campaign that was not upgraded has its id in the failure list |
| Backfill.FailureStaysListed | scripts/backfill-learning-flow-v2.ts:223-230 | a failure recorded after some campaigns is still listed at the end of the run: the list only grows |
| Backfill.RunStep | scripts/backfill-learning-flow-v2.ts:78-231 | one more campaign adds its writes and, if it failed, its id |
| Backfill.RunStepWith | scripts/backfill-learning-flow-v2.ts:78-231 | the same step for an outcome already computed for that campaign |
| Backfill.DryRunLeavesStoreAlone | scripts/backfill-learning-flow-v2.ts:104-107 | a dry run writes nothing at all |
| Backfill.Summary.constructor | scripts/backfill-learning-flow-v2.ts:46-63 | a fresh summary has zero counters and no failures |
| Backfill.Summary.Run | scripts/backfill-learning-flow-v2.ts:75-232 | the loop makes the run's writes, counts every campaign, records exactly the failed ids, and upgraded plus failed equals the total |
| Backfill.Summary.Step | scripts/backfill-learning-flow-v2.ts:78-230 | one pass of the loop body: the campaign's writes are appended; `upgraded` grows by one exactly when the campaign is upgraded, otherwise the failure list and counter move on; the total and `skipped` are unchanged |
| Backfill.Summary.Count | scripts/backfill-learning-flow-v2.ts:222-230 | a success adds one to `upgraded`; a failure adds one to `failed` and appends the campaign id to the failure list; nothing else changes |

## Left out

- Unicode `normalize("NFKD")` in the file-name sanitiser is taken as the identity; the model covers names whose characters it leaves alone.
- String lengths count characters, not UTF-16 code units.
- SHA-256 and `JSON.stringify` are parameters (`Digests`); no digest into 64-character strings is collision-free on all inputs, so absence of a collision is assumed only of the one pair of inputs a lemma is about (`NoCollision`, `KeysApart`).
- The e-mail syntax check of zod is the parameter `isEmail`; zod's messages are not modelled, only which rule on which field fails.
- The OpenAI client is an oracle per request behind the schema gates `ParsedDraft` and `ParsedQuiz`; timeouts, retries and `Promise.all` concurrency are modelled as a sequential map.
- Random UUIDs (`randomUUID`) are parameters: `newId`, `newModuleId`, `newOrgId`, `embedId`.
- The fallback module and quiz wording is the record parameter `FallbackCopy`; `CampaignCopy.SourceCopy` holds the source's text and proves it fits the schema bounds.
- CampaignGenerator.FallbackModuleIsValid: proved only under sufficient bounds (campaign names of at most 101 characters, each of the first four details at most 1000, indexes at most 15). These are not the exact limits: the tight limit on the name depends on the track's title wording, and the content bound depends only on the combined length of the first four details, so some longer inputs also give a valid module. Validity is not claimed for inputs outside the bounds.
- CampaignGenerator.FallbackDraftIsValid: proved under the same bounds as the fallback module.
- CampaignGenerator.BulletList: its ensures only covers the no-details case; the content is stated by BulletListShowsHighlights and BulletListIgnoresLaterDetails.
- FileNames.SanitizeFileStem: the result is stated as a safe prefix of the normalised name of the right length, not character by character; a 64-character cut may end with `.`, `_` or `-`, which the source does not strip again.
- The bootstrap payload schema is not modelled (lib/edtech/validation is not part of this model); `orgName` is taken as already validated.
- BootstrapOwner.OrgStore.Bootstrap: the `user` parameter stands for the already signed-in user; the sign-in gate (`requireUserAndClient`, app/api/me/bootstrap-owner/route.ts:23), which answers 401 to a request without a session, is not modelled.
- Bootstrap database errors, their `DB_ERROR` mapping and the audit-log writes of the route are not modelled; the store's operations always succeed.
- Backfill: the initial campaign query's failure, which ends the script before the loop, is not modelled.
- Backfill: the placeholder `randomUUID()` policy id used when a campaign has no policies is modelled as matching no obligations.
- Backfill: the audit insert's own error is not checked by the script, and the model does not make it fail.
- Backfill: timestamps, console output, the process exit code and error messages are left out.
- Backfill: a module row's `role_track` is taken to be a valid track.
- Backfill: an obligation row's `role_track` is taken to be a valid track, because `obligationsOf` yields typed obligations. The script only casts the value (scripts/backfill-learning-flow-v2.ts:93-96); an invalid one makes `obligationByTrack` (lib/edtech/campaign-generator.ts:37-45) throw inside the fallback draft, which every generation builds, so that campaign would be counted as failed with no writes. The model does not capture that failure.
- Backfill.RunWrites: its ensures only covers the empty run; its content is stated by RunStep, RunWritesStayInOrgs and Summary.Run.
- Backfill.FailedIds: its ensures bounds its length; membership is stated in both directions by FailedIdsAreFailures and FailedCampaignIsListed.
- Read-only API routes, UI components other than the navigation links, the org context provider, smoke scripts, the ROI calculator, and the publish, nudge and rate-limit workflows are outside this core.
