/**
 * Quiz-sync hashing (lib/edtech/quiz-sync.ts): a fingerprint of a module's
 * teachable content, used to decide whether its quiz must be regenerated.
 */
module QuizSync {
  import opened Wrappers
  import opened Text
  import opened Digests

  datatype QuizSyncSource = QuizSyncSource(roleTrack: string, title: string, summary: string, contentMarkdown: string)

  /**
   * SHA-256 over the JSON serialisation of a source tuple. The serialisation
   * has a fixed field order, so the digest is a function of the tuple itself;
   * SHA-256 is a parameter of the model.
   */
  type SourceDigest = QuizSyncSource -> Sha256Hex

  /**
   * The digest does not map these two tuples to one hash. A digest into the
   * finite set of 64-character strings cannot be collision-free everywhere, so
   * this is assumed only of the pair a lemma is about.
   */
  predicate NoCollision(digest: SourceDigest, a: QuizSyncSource, b: QuizSyncSource) {
    digest(a) == digest(b) ==> a == b
  }

  /** Each field trimmed, as serialised into the hash payload. */
  function TrimmedSource(src: QuizSyncSource): QuizSyncSource {
    QuizSyncSource(Trim(src.roleTrack), Trim(src.title), Trim(src.summary), Trim(src.contentMarkdown))
  }

  /** `computeQuizSyncHash`: the digest of the trimmed tuple, 64 lower-case hex characters. */
  function ComputeQuizSyncHash(digest: SourceDigest, src: QuizSyncSource): (h: Sha256Hex)
    ensures h == digest(TrimmedSource(src))
    ensures |h| == 64 && forall i :: 0 <= i < |h| ==> IsLowerHexDigit(h[i])
  {
    digest(TrimmedSource(src))
  }

  /** `quizNeedsRegeneration`: a missing or empty stored hash always asks for a new quiz. */
  function QuizNeedsRegeneration(digest: SourceDigest, storedHash: Option<string>, src: QuizSyncSource): (r: bool)
    ensures storedHash.None? || storedHash == Some("") ==> r
    ensures storedHash.Some? && storedHash.value != "" ==> (r <==> storedHash.value != ComputeQuizSyncHash(digest, src))
  {
    match storedHash
    case None => true
    case Some(h) => h == "" || h != ComputeQuizSyncHash(digest, src)
  }

  /** Sources that agree after trimming have the same hash, whatever the digest. */
  lemma HashDependsOnlyOnTrimmedFields(digest: SourceDigest, a: QuizSyncSource, b: QuizSyncSource)
    requires TrimmedSource(a) == TrimmedSource(b)
    ensures ComputeQuizSyncHash(digest, a) == ComputeQuizSyncHash(digest, b)
  {
  }

  function Pad(w1: string, s: string, w2: string): string {
    w1 + s + w2
  }

  /** Leading or trailing whitespace added to any of the four fields leaves the hash unchanged. */
  lemma HashIgnoresSurroundingWhitespace(digest: SourceDigest, src: QuizSyncSource, pads: seq<string>)
    requires |pads| == 8 && forall i :: 0 <= i < 8 ==> AllSpace(pads[i])
    ensures
      var padded := QuizSyncSource(
        Pad(pads[0], src.roleTrack, pads[1]), Pad(pads[2], src.title, pads[3]),
        Pad(pads[4], src.summary, pads[5]), Pad(pads[6], src.contentMarkdown, pads[7]));
      ComputeQuizSyncHash(digest, padded) == ComputeQuizSyncHash(digest, src)
  {
    TrimIgnoresPadding(pads[0], src.roleTrack, pads[1]);
    TrimIgnoresPadding(pads[2], src.title, pads[3]);
    TrimIgnoresPadding(pads[4], src.summary, pads[5]);
    TrimIgnoresPadding(pads[6], src.contentMarkdown, pads[7]);
  }

  /** A hash just computed from a source never asks for regeneration of that source. */
  lemma FreshHashIsCurrent(digest: SourceDigest, src: QuizSyncSource)
    ensures !QuizNeedsRegeneration(digest, Some(ComputeQuizSyncHash(digest, src)), src)
  {
    var h := ComputeQuizSyncHash(digest, src);
    assert |h| == 64;
  }

  /** Re-padding the source with whitespace keeps a stored hash current. */
  lemma PaddedSourceStaysCurrent(digest: SourceDigest, src: QuizSyncSource, w1: string, w2: string)
    requires AllSpace(w1) && AllSpace(w2)
    ensures
      var padded := src.(contentMarkdown := w1 + src.contentMarkdown + w2);
      !QuizNeedsRegeneration(digest, Some(ComputeQuizSyncHash(digest, src)), padded)
  {
    TrimIgnoresPadding(w1, src.contentMarkdown, w2);
    FreshHashIsCurrent(digest, src);
  }

  /**
   * With a collision-free digest, a change to any trimmed field (the title,
   * say, or the content) changes the hash, so the stored hash is stale.
   */
  lemma ChangedSourceNeedsRegeneration(digest: SourceDigest, src: QuizSyncSource, edited: QuizSyncSource)
    requires NoCollision(digest, TrimmedSource(edited), TrimmedSource(src))
    requires TrimmedSource(edited) != TrimmedSource(src)
    ensures ComputeQuizSyncHash(digest, edited) != ComputeQuizSyncHash(digest, src)
    ensures QuizNeedsRegeneration(digest, Some(ComputeQuizSyncHash(digest, src)), edited)
  {
  }

  /**
   * With no assumption on the digest: a quiz hashed from one source must be
   * regenerated for another exactly when the two trimmed sources hash apart.
   */
  lemma RegenerationIffHashesDiffer(digest: SourceDigest, src: QuizSyncSource, edited: QuizSyncSource)
    ensures QuizNeedsRegeneration(digest, Some(ComputeQuizSyncHash(digest, src)), edited)
        <==> digest(TrimmedSource(edited)) != digest(TrimmedSource(src))
  {
    var h := ComputeQuizSyncHash(digest, src);
    assert h != "";
  }
}
