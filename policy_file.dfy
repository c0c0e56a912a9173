/**
 * Upload normalisation for policy documents (lib/edtech/policy-file.ts): the
 * PDF/DOCX/TXT allow-list and the storage path of an uploaded policy file.
 */
module PolicyFile {
  import opened Wrappers
  import opened Text
  import opened FileNames

  /**
   * What `EXTENSION_TO_MIME[ext]` yields for a lower-case alphanumeric key:
   * an own entry, the `constructor` member inherited from `Object.prototype`,
   * or `undefined`.
   */
  datatype Lookup = Entry(mime: string) | Inherited | Absent

  const PolicyExtensions: set<string> := {"pdf", "docx", "txt"}

  const DocxMime: string := "application/vnd.openxmlformats-officedocument.wordprocessingml.document"

  function ExtensionToMime(ext: string): (r: Lookup)
    ensures r.Entry? <==> ext in PolicyExtensions
    ensures r.Inherited? <==> ext == "constructor"
  {
    if ext == "pdf" then Entry("application/pdf")
    else if ext == "docx" then Entry(DocxMime)
    else if ext == "txt" then Entry("text/plain")
    else if ext == "constructor" then Inherited
    else Absent
  }

  /** The three MIME types are distinct, so each accepted MIME type admits exactly one extension. */
  lemma PolicyMimeTypesAreDistinct(e1: string, e2: string)
    requires ExtensionToMime(e1).Entry? && ExtensionToMime(e2).Entry?
    requires ExtensionToMime(e1).mime == ExtensionToMime(e2).mime
    ensures e1 == e2
  {
  }

  datatype PolicyUploadInput = PolicyUploadInput(orgId: string, policyId: string, fileName: string, mimeType: string)

  datatype PolicyUpload = PolicyUpload(filePath: string, extension: string, safeFileName: string)

  /** The stem used when a name sanitises to nothing. */
  const PolicyFallback: string := "policy"

  lemma PolicyFallbackIsSafe()
    ensures SafeStem(PolicyFallback)
  {
  }

  /** The folder and name prefix a policy's file is stored under. */
  function PolicyPathPrefix(input: PolicyUploadInput): string {
    "org/" + input.orgId + "/" + input.policyId + "-"
  }

  /** Every policy file of an organisation is stored under "org/<orgId>/". */
  lemma PolicyPathIsInOrgFolder(input: PolicyUploadInput, name: string)
    ensures StartsWith(PolicyPathPrefix(input) + name, "org/" + input.orgId + "/")
  {
    assert PolicyPathPrefix(input) + name == ("org/" + input.orgId + "/") + (input.policyId + "-" + name);
  }

  /**
   * The stored file's name is a safe stem, a dot and the extension, and its
   * path is that name under the organisation's folder.
   */
  predicate StoredAsSafeName(u: PolicyUpload, input: PolicyUploadInput) {
    var name, ext := u.safeFileName, u.extension;
    && |name| > |ext| + 1
    && name[|name| - |ext| - 1] == '.' && name[|name| - |ext|..] == ext
    && SafeStem(name[..|name| - |ext| - 1])
    && u.filePath == PolicyPathPrefix(input) + name
  }

  /** The record returned once every check has passed. */
  function StoredPolicy(input: PolicyUploadInput, parts: NameParts): (u: PolicyUpload)
    ensures u.extension == parts.extension
    ensures StoredAsSafeName(u, input)
  {
    var stem := SanitizeFileStem(parts.base, PolicyFallback);
    PolicyFallbackIsSafe();
    SanitizedStemIsSafe(parts.base, PolicyFallback);
    var safeFileName := DottedName(stem, parts.extension);
    PolicyUpload(PolicyPathPrefix(input) + safeFileName, parts.extension, safeFileName)
  }

  /** `normalizePolicyUploadFile`. */
  function NormalizePolicyUploadFile(input: PolicyUploadInput): (r: Result<PolicyUpload, UploadError>)
    ensures SplitUploadName(input.fileName).Err? ==> r == Err(SplitUploadName(input.fileName).error)
    ensures SplitUploadName(input.fileName).Ok? ==>
      var ext := SplitUploadName(input.fileName).value.extension;
      && (ExtensionToMime(ext).Absent? ==> r == Err(UnsupportedExtension))
      && (ExtensionToMime(ext).Inherited? ==> r == Err(MimeMismatch(ext, input.mimeType)))
      && (ExtensionToMime(ext).Entry? && ExtensionToMime(ext).mime != input.mimeType ==> r == Err(MimeMismatch(ext, input.mimeType)))
      && (r.Ok? <==> ExtensionToMime(ext) == Entry(input.mimeType))
    ensures r.Ok? ==>
      && r.value.extension == SplitUploadName(input.fileName).value.extension
      && r.value.extension in PolicyExtensions
      && StoredAsSafeName(r.value, input)
    ensures r.Err? ==> r.error != UnsupportedKind
  {
    match SplitUploadName(input.fileName)
    case Err(e) => Err(e)
    case Ok(parts) =>
      match ExtensionToMime(parts.extension)
      case Absent => Err(UnsupportedExtension)
      case Inherited => Err(MimeMismatch(parts.extension, input.mimeType))
      case Entry(expected) =>
        if expected != input.mimeType then Err(MimeMismatch(parts.extension, input.mimeType))
        else Ok(StoredPolicy(input, parts))
  }

  /** A name that splits into a base and a supported extension, declared with the table's MIME type, is stored under the sanitised base. */
  lemma UploadOfSplitName(input: PolicyUploadInput, base: string, ext: string)
    requires SplitUploadName(input.fileName) == Ok(NameParts(base, ext))
    requires ExtensionToMime(ext) == Entry(input.mimeType)
    ensures
      var r := NormalizePolicyUploadFile(input);
      && r.Ok?
      && r.value.safeFileName == DottedName(SanitizeFileStem(base, PolicyFallback), ext)
      && StartsWith(r.value.filePath, "org/" + input.orgId + "/")
      && EndsWith(r.value.filePath, "." + ext)
  {
    var r := NormalizePolicyUploadFile(input);
    PolicyPathIsInOrgFolder(input, r.value.safeFileName);
    PolicyPathEndsWithExtension(input, SanitizeFileStem(base, PolicyFallback), ext);
  }

  /** A stored policy's path ends with a dot and its extension. */
  lemma PolicyPathEndsWithExtension(input: PolicyUploadInput, stem: string, ext: string)
    ensures EndsWith(PolicyPathPrefix(input) + DottedName(stem, ext), "." + ext)
  {
    var path := PolicyPathPrefix(input) + DottedName(stem, ext);
    assert path[|path| - |ext| - 1..] == DottedName(stem, ext)[|stem|..];
  }

  /**
   * Whatever the ids, a name of alphanumeric words separated by spaces, with
   * perhaps one stray symbol before a supported extension ("AI Policy Final
   * 2026!.pdf" declared as application/pdf), is stored as the words joined
   * by dashes ("AI-Policy-Final-2026.pdf") in the org's folder.
   */
  lemma SpacedWordsUpload(input: PolicyUploadInput, words: seq<string>, space: char, tail: string, ext: string)
    requires |words| >= 1 && AlnumWords(words) && IsSpace(space) && StrayTail(tail)
    requires |Join(words, "-")| <= 64
    requires ext in PolicyExtensions
    requires input.fileName == Join(words, [space]) + tail + "." + ext
    requires input.mimeType == ExtensionToMime(ext).mime
    ensures
      var r := NormalizePolicyUploadFile(input);
      && r.Ok?
      && r.value.safeFileName == Join(words, "-") + "." + ext
      && StartsWith(r.value.filePath, "org/" + input.orgId + "/")
      && EndsWith(r.value.filePath, "." + ext)
  {
    PolicyExtensionsAreLowerAlnum(ext);
    SpacedWordsName(words, space, tail, ext, PolicyFallback);
    UploadOfSplitName(input, Join(words, [space]) + tail, ext);
  }

  lemma PolicyExtensionsAreLowerAlnum(ext: string)
    requires ext in PolicyExtensions
    ensures ext != [] && AllLowerAlnum(ext)
  {
  }

  /** "policy.pdf" declared as text/plain is refused as a mismatch. */
  lemma PdfAsTextIsRejected(orgId: string, policyId: string)
    ensures NormalizePolicyUploadFile(PolicyUploadInput(orgId, policyId, "policy.pdf", "text/plain")) == Err(MimeMismatch("pdf", "text/plain"))
  {
    assert "policy.pdf" == "policy" + "." + "pdf";
    assert Lower("pdf") == "pdf";
    SplitOfJoinedName("policy", "pdf");
  }
}
